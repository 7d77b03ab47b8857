/**
 * The earlier visualizer (root `index.js`): frequency bins only, no
 * generated wave and no mode switch.  Every analyzer frame copies the bars
 * and rebuilds the grid; the settings proxy only reallocates the mesh.
 */
module LegacyVisualizer {
  import opened Wrappers
  import opened HeightField
  import InstanceBuffer
  import BinSnapshot

  /** This version's `AppSettings`: the grid shape only. */
  class AppSettings {
    var cubeSideLength: real
    var nGridRows: nat
    var nGridCols: nat

    constructor ()
      ensures cubeSideLength == 0.02 && nGridRows == 150 && nGridCols == 150
    {
      cubeSideLength := 0.02;
      nGridRows := 150;
      nGridCols := 150;
    }

    function GridConfig(): Grid
      reads this
    {
      Grid(cubeSideLength, nGridRows, nGridCols)
    }
  }

  /** With the default 150 x 150 grid of 0.02 cubes the grid spans 3.3 in x and in y. */
  lemma DefaultGridSize()
    ensures Grid(0.02, 150, 150).GridSizeX() == 3.3 && Grid(0.02, 150, 150).GridSizeY() == 3.3
  {
  }

  /** A write the settings panel makes through the proxy. */
  datatype GridWrite = NGridRows(rows: nat) | NGridCols(cols: nat)

  class App {
    const settings: AppSettings
    const math: MathOps
    var mesh: InstanceBuffer.InstancedMesh
    var freqBinValues: Option<seq<real>>

    ghost predicate Valid()
      reads this, settings, mesh
    {
      SqrtSound(math.sqrt) && mesh.instanceMatrix.Length == settings.nGridRows * settings.nGridCols
    }

    constructor (math: MathOps)
      requires SqrtSound(math.sqrt)
      ensures Valid() && fresh(settings) && fresh(mesh) && fresh(mesh.instanceMatrix)
      ensures this.math == math
      ensures settings.GridConfig() == Grid(0.02, 150, 150)
      ensures mesh.instanceMatrix.Length == 150 * 150
      ensures freqBinValues == None
    {
      this.math := math;
      settings := new AppSettings();
      mesh := new InstanceBuffer.InstancedMesh(150 * 150);
      freqBinValues := None;
    }

    /** The proxy's `set` trap: the field is written and the mesh is reallocated, all at the origin, to the new size. */
    method OnSettingWrite(w: GridWrite)
      requires Valid()
      modifies this, settings
      ensures Valid()
      ensures settings.nGridRows == (if w.NGridRows? then w.rows else old(settings.nGridRows))
      ensures settings.nGridCols == (if w.NGridCols? then w.cols else old(settings.nGridCols))
      ensures settings.cubeSideLength == old(settings.cubeSideLength)
      ensures fresh(mesh) && fresh(mesh.instanceMatrix)
      ensures mesh.instanceMatrix.Length == settings.nGridRows * settings.nGridCols
      ensures forall k :: 0 <= k < mesh.instanceMatrix.Length ==> mesh.instanceMatrix[k] == Origin
      ensures freqBinValues == old(freqBinValues)
    {
      match w {
        case NGridRows(rows) => settings.nGridRows := rows;
        case NGridCols(cols) => settings.nGridCols := cols;
      }
      mesh := new InstanceBuffer.InstancedMesh(settings.nGridRows * settings.nGridCols);
    }

    /**
     * `updateGrid(bars)`: each index `row * nGridCols + col` is written once,
     * in row-major order, with the planar position and the sampled height.
     */
    method UpdateGrid(bars: Option<seq<real>>) returns (ghost written: seq<nat>)
      requires Valid()
      modifies mesh, mesh.instanceMatrix
      ensures Valid() && mesh == old(mesh) && mesh.instanceMatrix == old(mesh.instanceMatrix)
      ensures InstanceBuffer.HoldsGrid(mesh.instanceMatrix[..], settings.GridConfig(), math, FreqBins(bars))
      ensures written == InstanceBuffer.RowMajorOrder(settings.nGridRows, settings.nGridCols)
      ensures mesh.needsUpdate
    {
      written := InstanceBuffer.RebuildGrid(mesh, settings.GridConfig(), math, FreqBins(bars));
    }

    /**
     * The `onCanvasDraw` callback: allocate the bin array on the first call,
     * overwrite it with the first channel of every bar, and rebuild the grid
     * (always: this version has no mode gate).
     */
    method OnCanvasDraw(bars: seq<seq<real>>)
      requires Valid() && BinSnapshot.WellFormedBars(bars)
      modifies this, mesh, mesh.instanceMatrix
      ensures Valid() && mesh == old(mesh) && mesh.instanceMatrix == old(mesh.instanceMatrix)
      ensures freqBinValues.Some?
      ensures BinSnapshot.IsSnapshot(BinSnapshot.Allocate(old(freqBinValues), |bars|), bars, freqBinValues.value)
      ensures InstanceBuffer.HoldsGrid(mesh.instanceMatrix[..], settings.GridConfig(), math, FreqBins(freqBinValues))
      ensures mesh.needsUpdate
    {
      var values := BinSnapshot.Allocate(freqBinValues, |bars|);
      values := BinSnapshot.CopyFirstChannels(values, bars);
      freqBinValues := Some(values);
      ghost var written := UpdateGrid(freqBinValues);
    }
  }
}
