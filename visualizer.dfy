/**
 * The application state of the current visualizer: the live settings, the
 * instanced mesh, the ground plane, the microphone input and the cached
 * frequency bins, with the handlers that change them: the settings-proxy
 * `set` trap, the per-frame render step, the analyzer callback
 * `reactToAudio` and the audio-source selector.
 */
module Visualizer {
  import opened Wrappers
  import opened HeightField
  import InstanceBuffer
  import BinSnapshot

  /** `AppSettings`: the grid shape, the ground-plane switch and the wave parameters. */
  class AppSettings {
    var cubeSideLength: real
    var nGridRows: nat
    var nGridCols: nat
    var groundPlaneEnabled: bool
    var waveGeneratorEnabled: bool
    var amplitude: real
    var frequencyHz: real

    constructor ()
      ensures cubeSideLength == 0.02 && nGridRows == 250 && nGridCols == 250
      ensures groundPlaneEnabled && waveGeneratorEnabled
      ensures amplitude == 1.0 && frequencyHz == 4.0
    {
      cubeSideLength := 0.02;
      nGridRows := 250;
      nGridCols := 250;
      groundPlaneEnabled := true;
      waveGeneratorEnabled := true;
      amplitude := 1.0;
      frequencyHz := 4.0;
    }

    /** The grid the getters `gridSizeX` / `gridSizeY` and the update loops read. */
    function GridConfig(): Grid
      reads this
    {
      Grid(cubeSideLength, nGridRows, nGridCols)
    }
  }

  /** With the default 250 x 250 grid of 0.02 cubes the grid spans 5.5 in x and in y. */
  lemma DefaultGridSize()
    ensures Grid(0.02, 250, 250).GridSizeX() == 5.5 && Grid(0.02, 250, 250).GridSizeY() == 5.5
  {
  }

  /** A write the settings panel makes through the proxy (one per widget). */
  datatype SettingWrite =
    | NGridRows(rows: nat)
    | NGridCols(cols: nat)
    | GroundPlaneEnabled(enabled: bool)
    | Amplitude(amplitude: real)
    | FrequencyHz(frequencyHz: real)

  class App {
    const settings: AppSettings
    /** The host's `Math.sqrt` and `Math.sin`. */
    const math: MathOps
    var mesh: InstanceBuffer.InstancedMesh
    var groundZ: real
    var groundInScene: bool
    /** `micStream`: the last microphone node created, named by a stream number. */
    var micStream: Option<nat>
    /** The microphone nodes currently connected to the analyzer. */
    var connectedMics: set<nat>
    var streamsCreated: nat
    /** Microphone permission requests whose outcome has not arrived yet. */
    var pendingMicRequests: nat
    /** `freqBinValues`: undefined until the first audio frame. */
    var freqBinValues: Option<seq<real>>

    ghost predicate Valid()
      reads this, settings, mesh
    {
      && SqrtSound(math.sqrt)
      && mesh.instanceMatrix.Length == settings.nGridRows * settings.nGridCols
      && (micStream.Some? ==> micStream.value < streamsCreated)
      && (forall id :: id in connectedMics ==> id < streamsCreated)
    }

    /** The number of instances the mesh was allocated with. */
    function BufferSize(): nat
      reads this, mesh
    {
      mesh.instanceMatrix.Length
    }

    /** `init()` / `initScene()`: default settings, a full-size mesh, the ground under the wave. */
    constructor (math: MathOps)
      requires SqrtSound(math.sqrt)
      ensures Valid() && fresh(settings) && fresh(mesh) && fresh(mesh.instanceMatrix)
      ensures this.math == math
      ensures settings.GridConfig() == Grid(0.02, 250, 250) && settings.groundPlaneEnabled
      ensures settings.waveGeneratorEnabled && settings.amplitude == 1.0 && settings.frequencyHz == 4.0
      ensures BufferSize() == 250 * 250
      ensures groundZ == -1.05 && groundInScene
      ensures micStream == None && connectedMics == {} && streamsCreated == 0 && pendingMicRequests == 0
      ensures freqBinValues == None
    {
      this.math := math;
      settings := new AppSettings();
      mesh := new InstanceBuffer.InstancedMesh(250 * 250);
      groundZ := -1.0 - 0.05;
      groundInScene := true;
      micStream := None;
      connectedMics := {};
      streamsCreated := 0;
      pendingMicRequests := 0;
      freqBinValues := None;
    }

    /**
     * The proxy's `set` trap after a settings write: the field is written,
     * the mesh is replaced by a fresh one of `nGridRows * nGridCols`
     * instances, and the ground is moved to `-amplitude - 0.05` and is in
     * the scene exactly when the ground plane is enabled.
     */
    method OnSettingWrite(w: SettingWrite)
      requires Valid()
      modifies this, settings
      ensures Valid()
      ensures settings.nGridRows == (if w.NGridRows? then w.rows else old(settings.nGridRows))
      ensures settings.nGridCols == (if w.NGridCols? then w.cols else old(settings.nGridCols))
      ensures settings.groundPlaneEnabled == (if w.GroundPlaneEnabled? then w.enabled else old(settings.groundPlaneEnabled))
      ensures settings.amplitude == (if w.Amplitude? then w.amplitude else old(settings.amplitude))
      ensures settings.frequencyHz == (if w.FrequencyHz? then w.frequencyHz else old(settings.frequencyHz))
      ensures settings.cubeSideLength == old(settings.cubeSideLength)
      ensures settings.waveGeneratorEnabled == old(settings.waveGeneratorEnabled)
      ensures fresh(mesh) && fresh(mesh.instanceMatrix)
      ensures BufferSize() == settings.nGridRows * settings.nGridCols
      ensures forall k :: 0 <= k < BufferSize() ==> mesh.instanceMatrix[k] == Origin
      ensures groundZ == -settings.amplitude - 0.05
      ensures groundInScene == settings.groundPlaneEnabled
      ensures micStream == old(micStream) && connectedMics == old(connectedMics)
      ensures streamsCreated == old(streamsCreated) && pendingMicRequests == old(pendingMicRequests)
      ensures freqBinValues == old(freqBinValues)
    {
      match w {
        case NGridRows(rows) => settings.nGridRows := rows;
        case NGridCols(cols) => settings.nGridCols := cols;
        case GroundPlaneEnabled(enabled) => settings.groundPlaneEnabled := enabled;
        case Amplitude(amplitude) => settings.amplitude := amplitude;
        case FrequencyHz(frequencyHz) => settings.frequencyHz := frequencyHz;
      }
      mesh := new InstanceBuffer.InstancedMesh(settings.nGridRows * settings.nGridCols);
      groundInScene := false;
      groundZ := -settings.amplitude - 0.05;
      if settings.groundPlaneEnabled {
        groundInScene := true;
      }
    }

    /**
     * `updateGridFreqBins(values)`: every cell gets the sampler's value at its
     * radial offset; each index is written once, in row-major order.
     */
    method UpdateGridFreqBins(values: Option<seq<real>>) returns (ghost written: seq<nat>)
      requires Valid()
      modifies mesh, mesh.instanceMatrix
      ensures Valid() && mesh == old(mesh) && mesh.instanceMatrix == old(mesh.instanceMatrix)
      ensures InstanceBuffer.HoldsGrid(mesh.instanceMatrix[..], settings.GridConfig(), math, FreqBins(values))
      ensures written == InstanceBuffer.RowMajorOrder(settings.nGridRows, settings.nGridCols)
      ensures mesh.needsUpdate
    {
      written := InstanceBuffer.RebuildGrid(mesh, settings.GridConfig(), math, FreqBins(values));
    }

    /**
     * `updateGridWaveForm(time)`: every cell gets
     * `amplitude * sin(2*PI*frequencyHz * radius + time/1000)`, in the same
     * row-major write order.
     */
    method UpdateGridWaveForm(time: real) returns (ghost written: seq<nat>)
      requires Valid()
      modifies mesh, mesh.instanceMatrix
      ensures Valid() && mesh == old(mesh) && mesh.instanceMatrix == old(mesh.instanceMatrix)
      ensures InstanceBuffer.HoldsGrid(mesh.instanceMatrix[..], settings.GridConfig(), math,
                                       Wave(settings.amplitude, settings.frequencyHz, time))
      ensures written == InstanceBuffer.RowMajorOrder(settings.nGridRows, settings.nGridCols)
      ensures mesh.needsUpdate
    {
      written := InstanceBuffer.RebuildGrid(mesh, settings.GridConfig(), math,
                                                      Wave(settings.amplitude, settings.frequencyHz, time));
    }

    /** The grid part of `render()`: the wave is redrawn only in generated mode. */
    method Render(time: real)
      requires Valid()
      modifies mesh, mesh.instanceMatrix
      ensures Valid() && mesh == old(mesh) && mesh.instanceMatrix == old(mesh.instanceMatrix)
      ensures settings.waveGeneratorEnabled ==>
                InstanceBuffer.HoldsGrid(mesh.instanceMatrix[..], settings.GridConfig(), math,
                                         Wave(settings.amplitude, settings.frequencyHz, time))
                && mesh.needsUpdate
      ensures !settings.waveGeneratorEnabled ==>
                mesh.instanceMatrix[..] == old(mesh.instanceMatrix[..]) && mesh.needsUpdate == old(mesh.needsUpdate)
    {
      if settings.waveGeneratorEnabled {
        ghost var written := UpdateGridWaveForm(time);
      }
    }

    /**
     * `reactToAudio(instance)`: ignored in generated mode; otherwise the bin
     * array is allocated on the first call only, overwritten with the first
     * channel of every bar, and the grid is rebuilt from it.
     */
    method ReactToAudio(bars: seq<seq<real>>)
      requires Valid() && BinSnapshot.WellFormedBars(bars)
      modifies this, mesh, mesh.instanceMatrix
      ensures Valid() && mesh == old(mesh) && mesh.instanceMatrix == old(mesh.instanceMatrix)
      ensures micStream == old(micStream) && connectedMics == old(connectedMics)
      ensures streamsCreated == old(streamsCreated) && pendingMicRequests == old(pendingMicRequests)
      ensures groundZ == old(groundZ) && groundInScene == old(groundInScene)
      ensures settings.waveGeneratorEnabled ==>
                && freqBinValues == old(freqBinValues)
                && mesh.instanceMatrix[..] == old(mesh.instanceMatrix[..])
                && mesh.needsUpdate == old(mesh.needsUpdate)
      ensures !settings.waveGeneratorEnabled ==>
                && freqBinValues.Some?
                && BinSnapshot.IsSnapshot(BinSnapshot.Allocate(old(freqBinValues), |bars|), bars, freqBinValues.value)
                && InstanceBuffer.HoldsGrid(mesh.instanceMatrix[..], settings.GridConfig(), math, FreqBins(freqBinValues))
                && mesh.needsUpdate
    {
      if settings.waveGeneratorEnabled {
        return;
      }
      var values := BinSnapshot.Allocate(freqBinValues, |bars|);
      values := BinSnapshot.CopyFirstChannels(values, bars);
      freqBinValues := Some(values);
      ghost var written := UpdateGridFreqBins(freqBinValues);
    }

    /**
     * The audio-source selector's `change` handler.  An existing microphone
     * node is disconnected first (the variable keeps naming it); then
     * "generated" selects the wave, "live" the stream, "mic" asks for
     * permission (or alerts when the host has no media devices), and any
     * other value alerts.  The microphone switch itself happens when the
     * permission outcome arrives (`MicPermissionResolved`).
     */
    method SelectAudioSource(value: string, mediaDevicesAvailable: bool) returns (alert: Option<string>)
      requires Valid()
      modifies this, settings
      ensures Valid()
      ensures connectedMics == old(connectedMics) - (if old(micStream).Some? then {old(micStream).value} else {})
      ensures micStream == old(micStream) && streamsCreated == old(streamsCreated)
      ensures settings.waveGeneratorEnabled ==
                if value == "generated" then true
                else if value == "live" then false
                else old(settings.waveGeneratorEnabled)
      ensures pendingMicRequests ==
                if value == "mic" && mediaDevicesAvailable then old(pendingMicRequests) + 1
                else old(pendingMicRequests)
      ensures alert ==
                if value == "generated" || value == "live" then None
                else if value == "mic" then
                  (if mediaDevicesAvailable then None else Some("User mediaDevices not available"))
                else Some("Unexpected value..." + value)
      ensures settings.nGridRows == old(settings.nGridRows) && settings.nGridCols == old(settings.nGridCols)
      ensures settings.cubeSideLength == old(settings.cubeSideLength) && settings.amplitude == old(settings.amplitude)
      ensures settings.frequencyHz == old(settings.frequencyHz)
      ensures settings.groundPlaneEnabled == old(settings.groundPlaneEnabled)
      ensures mesh == old(mesh) && groundZ == old(groundZ) && groundInScene == old(groundInScene)
      ensures freqBinValues == old(freqBinValues)
    {
      if micStream.Some? {
        connectedMics := connectedMics - {micStream.value};
      }
      alert := None;
      if value == "generated" {
        settings.waveGeneratorEnabled := true;
      } else if value == "mic" {
        if mediaDevicesAvailable {
          pendingMicRequests := pendingMicRequests + 1;
        } else {
          alert := Some("User mediaDevices not available");
        }
      } else if value == "live" {
        settings.waveGeneratorEnabled := false;
      } else {
        alert := Some("Unexpected value..." + value);
      }
    }

    /**
     * The outcome of one pending `getUserMedia` request.  On success a new
     * microphone node becomes `micStream`, is connected to the analyzer and
     * the frequency bins drive the grid; on denial the user is alerted and
     * nothing else changes.
     */
    method MicPermissionResolved(granted: bool) returns (alert: Option<string>)
      requires Valid() && pendingMicRequests > 0
      modifies this, settings
      ensures Valid()
      ensures pendingMicRequests == old(pendingMicRequests) - 1
      ensures granted ==>
                && micStream == Some(old(streamsCreated))
                && connectedMics == old(connectedMics) + {old(streamsCreated)}
                && streamsCreated == old(streamsCreated) + 1
                && !settings.waveGeneratorEnabled
                && alert == None
      ensures !granted ==>
                && micStream == old(micStream) && connectedMics == old(connectedMics)
                && streamsCreated == old(streamsCreated)
                && settings.waveGeneratorEnabled == old(settings.waveGeneratorEnabled)
                && alert == Some("Microphone access denied by user")
      ensures settings.nGridRows == old(settings.nGridRows) && settings.nGridCols == old(settings.nGridCols)
      ensures settings.cubeSideLength == old(settings.cubeSideLength) && settings.amplitude == old(settings.amplitude)
      ensures settings.frequencyHz == old(settings.frequencyHz)
      ensures settings.groundPlaneEnabled == old(settings.groundPlaneEnabled)
      ensures mesh == old(mesh) && groundZ == old(groundZ) && groundInScene == old(groundInScene)
      ensures freqBinValues == old(freqBinValues)
    {
      pendingMicRequests := pendingMicRequests - 1;
      if granted {
        micStream := Some(streamsCreated);
        connectedMics := connectedMics + {streamsCreated};
        streamsCreated := streamsCreated + 1;
        settings.waveGeneratorEnabled := false;
        alert := None;
      } else {
        alert := Some("Microphone access denied by user");
      }
    }
  }

  /**
   * Switching from a connected microphone to "generated" disconnects that
   * microphone, after which the next frame draws the wave.
   */
  method MicThenGeneratedScenario(math: MathOps, time: real)
    requires SqrtSound(math.sqrt)
  {
    var app := new App(math);
    var alert := app.SelectAudioSource("mic", true);
    alert := app.MicPermissionResolved(true);
    assert app.micStream == Some(0) && app.connectedMics == {0};
    assert !app.settings.waveGeneratorEnabled;
    alert := app.SelectAudioSource("generated", true);
    assert app.connectedMics == {} && app.settings.waveGeneratorEnabled && alert == None;
    app.Render(time);
    assert InstanceBuffer.HoldsGrid(app.mesh.instanceMatrix[..], app.settings.GridConfig(), math,
                                    Wave(1.0, 4.0, time));
  }

  /**
   * Two permission requests that are both pending when the first one is
   * granted: the first node is never disconnected, so two microphones end up
   * connected; and a grant that arrives after "generated" was selected still
   * switches the grid back to the frequency bins.
   */
  method OverlappingMicRequestsScenario(math: MathOps)
    requires SqrtSound(math.sqrt)
  {
    var app := new App(math);
    var alert := app.SelectAudioSource("mic", true);
    alert := app.SelectAudioSource("generated", true);
    alert := app.SelectAudioSource("mic", true);
    assert app.pendingMicRequests == 2;
    alert := app.MicPermissionResolved(true);
    alert := app.MicPermissionResolved(true);
    assert app.connectedMics == {0, 1};
    assert !app.settings.waveGeneratorEnabled;

    var late := new App(math);
    alert := late.SelectAudioSource("mic", true);
    alert := late.SelectAudioSource("generated", true);
    assert late.settings.waveGeneratorEnabled;
    alert := late.MicPermissionResolved(true);
    assert !late.settings.waveGeneratorEnabled;
  }

  /**
   * Choosing "mic" again while a microphone is live disconnects it before
   * permission is asked; a denial then leaves the grid on the frequency bins
   * with no microphone connected.
   */
  method DeniedReRequestScenario(math: MathOps)
    requires SqrtSound(math.sqrt)
  {
    var app := new App(math);
    var alert := app.SelectAudioSource("mic", true);
    alert := app.MicPermissionResolved(true);
    assert app.connectedMics == {0};
    alert := app.SelectAudioSource("mic", true);
    assert app.connectedMics == {};
    alert := app.MicPermissionResolved(false);
    assert alert.Some?;
    assert app.connectedMics == {} && !app.settings.waveGeneratorEnabled;
  }
}
