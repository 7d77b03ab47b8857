# Audio-visualizer height field, in Dafny

This project models the computational core of a browser visualizer that draws
a grid of instanced boxes whose heights follow either a generated sine wave or
live audio frequency bins. It covers two versions of the program:
`src/index.js` (the current one, with generated-wave mode and a source
selector) and the root `index.js` (an earlier one, frequency bins only).

What is modelled:

- **Interpolated sampler** (`Sampler`): `getValueForNormalizedCoord` on real
  numbers. A missing series (`undefined`) is `None`, an allocated one is
  `Some(s)`. `Math.floor`, `Math.ceil` and `rawIdx % 1` are written out.
- **Height field** (`HeightField`): the grid shape and its `gridSizeX` /
  `gridSizeY` getters. Also each cell's normalized coordinates, its radial
  offset from the centre, and its height under the two strategies
  (frequency bins through the sampler, or
  `amplitude * sin(2*PI*frequencyHz * r + time/1000)`).
  `Math.sqrt` and `Math.sin` are function parameters (`MathOps`). The only
  fact assumed of the square root is that it is one (`SqrtSound`).
- **Instance buffer** (`InstanceBuffer`): the instanced mesh is a class
  with an `array` of positions and a `needsUpdate` flag. One nested
  row/column loop (`RebuildGrid`) writes index `row * nGridCols + col` for
  every cell and then sets the flag.
- **Bin snapshot** (`BinSnapshot`): the analyzer callback's loop that
  copies `bar.value[0]` of every bar into an array that is allocated on
  first use and then reused. Writing one past the end of a JavaScript array
  extends it, and the model does the same.
- **Application state** (`Visualizer` for `src/index.js`,
  `LegacyVisualizer` for `index.js`): the settings object; the settings-proxy
  `set` trap, which in both versions reallocates the mesh and in
  `src/index.js` also repositions or hides the ground plane; the render
  step's mode gate; `reactToAudio` / `onCanvasDraw`; and the audio-source
  selector. The outcome of the asynchronous microphone
  permission request is a separate input event (`MicPermissionResolved`).

Behaviour of the code worth noting, which the model keeps:

- At `frequencyHz = 0` the code has no guard (src/index.js:225-226).
  In IEEE arithmetic `1/0` is infinite and `2*PI/Infinity` is 0, so every
  cell gets `amplitude * sin(time/1000)`, not height 0
  (`HeightField.ZeroFrequencyIsFlat`). The model writes `b` as
  `2*PI*frequencyHz`, which equals `2*PI/(1/frequencyHz)` whenever the
  frequency is non-zero (`HeightField.AngularFrequencyFromPeriod`).
- The sampler is called with the raw radial offset, not with the offset
  divided by its maximum (src/index.js:207-209).
- `micStream` is never cleared, and the permission callback does not
  disconnect an earlier node. So two permission requests that are pending
  at the same time leave two microphone nodes connected. Also, a grant that
  arrives after "generated" was chosen still switches the grid back to the
  bins. `Visualizer.OverlappingMicRequestsScenario` walks through both cases.
- Choosing "mic" disconnects the current microphone before permission is
  asked (src/index.js:294-296, 302-317). So re-requesting a live microphone
  and being denied leaves the grid on the frequency bins with no microphone
  connected (`Visualizer.DeniedReRequestScenario`).
- The cube lattice is half a step off-centre: rows run from `-gridSizeX/2`
  to `gridSizeX/2 - 1.1*cubeSideLength` (src/index.js:203-206), so the cube
  centres are symmetric about `-0.55*cubeSideLength` in x and in y. The
  radial pattern's centre (`normGridX = normGridY = 0.5`) is at the origin
  (`HeightField.CellXSpacing`, `HeightField.MirroredRowsAgree`).

## Model

| member | source | states |
|---|---|---|
| `Sampler.GetValueForNormalizedCoord` | src/index.js:182-191 | missing or empty bars give 0 whatever the coordinate; with bins the coordinate must lie in [0,1] |
| `Sampler.FloorIndex` | src/index.js:188 | `Math.floor`: the result is the greatest integer not above the raw index |
| `Sampler.CeilIndex` | src/index.js:189 | `Math.ceil`: the result is the least integer not below the raw index |
| `Sampler.Frac` | src/index.js:190 | `rawIdx % 1` for a non-negative raw index lies in [0,1) and is the distance to the floor |
| `Sampler.RawIndex` | src/index.js:187 | `normalizedCoord * (bars.length - 1)` lies in [0, n-1] for a coordinate in [0,1] |
| `Sampler.Below` | src/index.js:188 | `bars[Math.floor(rawIdx)]` is a bin of the series, the first bin at coordinate 0 |
| `Sampler.Above` | src/index.js:189 | `bars[Math.ceil(rawIdx)]` is a bin of the series, the last bin at coordinate 1 |
| `Sampler.Fraction` | src/index.js:190 | `rawIdx % 1` lies in [0,1) and is 0 exactly when the floor and ceil neighbours are the same bin |
| `Sampler.NeighbourIndicesInRange` | src/index.js:187-189 | for a coordinate in [0,1] the floor and ceil indices satisfy `0 <= floor <= ceil <= n-1` and differ by at most 1 |
| `Sampler.SampleIsConvexCombination` | index.js:175-178 | the value is `(1-f)*below + f*above` with `f` in [0,1), so it lies between the two neighbouring bins |
| `Sampler.SampleAtStart` | src/index.js:187-190 | coordinate 0 returns `bars[0]` |
| `Sampler.SampleAtEnd` | src/index.js:187-190 | coordinate 1 returns `bars[bars.length-1]` |
| `Sampler.SampleSingleBin` | index.js:175-178 | a one-bin series returns that bin for every coordinate in [0,1] |
| `Sampler.SampleAtBin` | index.js:175-178 | coordinate `k/(n-1)` returns exactly bin `k`, so the interpolation passes through every sample |
| `Sampler.SampleTwoBins` | src/index.js:187-190 | with bins `[a, b]` the value is `a + coord*(b-a)` |
| `Sampler.SampleMonotoneSameSegment` | src/index.js:187-190 | over non-decreasing bins, two coordinates between the same pair of bins are sampled in order |
| `Sampler.SampleMonotoneAcrossSegments` | src/index.js:187-190 | over non-decreasing bins, a coordinate in an earlier segment samples no higher than one in a later segment |
| `Sampler.SampleMonotone` | src/index.js:186-190 | over non-decreasing bins the sampled value is non-decreasing in the coordinate |
| `HeightField.Grid.GridSizeX` | src/index.js:20-22 | the grid's x extent is 1.1 cube sides per row, and 0 without rows |
| `HeightField.Grid.GridSizeY` | src/index.js:24-26 | the grid's y extent is 1.1 cube sides per column, and 0 without columns |
| `HeightField.NormCoord` | src/index.js:203-204 | `row / nGridRows` lies in [0,1) |
| `HeightField.RadialOffset` | src/index.js:207 | with a sound square root, the offset is the non-negative Euclidean distance of `(normGridX, normGridY)` from the centre `(0.5, 0.5)` |
| `HeightField.CellX` | src/index.js:205 | `gridSizeX * (row/nGridRows - 0.5)` is `1.1*cubeSideLength*row - gridSizeX/2`: rows 1.1 cube sides apart, starting at `-gridSizeX/2`, half a cell step off-centre |
| `HeightField.CellY` | src/index.js:206 | `gridSizeY * (col/nGridCols - 0.5)` is `1.1*cubeSideLength*col - gridSizeY/2` |
| `HeightField.AngularFrequency` | src/index.js:225-226 | the wave's `b` is 0 exactly at frequency 0 and positive for a positive frequency |
| `HeightField.WaveHeight` | src/index.js:237 | `amplitude * sin(b*r + time/1000)` is 0 without amplitude, and is the time phase alone `amplitude*sin(time/1000)` at the centre or at frequency 0 |
| `HeightField.CellHeight` | src/index.js:203-237 | a cell's height is 0 in bin mode while there are no bins, and 0 for a wave of amplitude 0 |
| `HeightField.Cell` | src/index.js:203-210 | the offset set for cell (row, col) is its place on the 1.1-cube-side lattice starting at `(-gridSizeX/2, -gridSizeY/2)`, with the cell's height as z |
| `HeightField.RadialOffsetInUnitRange` | src/index.js:207 | the radial offset of a point in the unit square lies in [0,1), so it is always a valid sampler coordinate |
| `HeightField.FreqBinHeight` | src/index.js:207-209 | a cell's height in bin mode is 0 without bins and otherwise lies between the two bins around its radial offset |
| `HeightField.CellXSpacing` | src/index.js:203-205 | for cubes of positive side, every row lies in the footprint `[-gridSizeX/2, gridSizeX/2)`, row 0 on its edge, adjacent rows are exactly 1.1 cube sides apart, and the first and last rows sum to `-1.1*cubeSideLength` (half a step off-centre) |
| `HeightField.CellYSpacing` | src/index.js:204-206 | for cubes of positive side, every column lies in `[-gridSizeY/2, gridSizeY/2)`, column 0 on its edge, adjacent columns are exactly 1.1 cube sides apart, and the first and last columns sum to `-1.1*cubeSideLength` |
| `HeightField.TwoByTwoCorner` | src/index.js:203-206 | a 2x2 grid of unit cubes is 2.2 wide and high, and cell (0,0) sits at (-1.1, -1.1) |
| `HeightField.MirroredRowsAgree` | src/index.js:203-209 | rows `r` and `nGridRows-r` have opposite x and, in every column, the same radial offset and the same height under either source |
| `HeightField.MirroredColsAgree` | src/index.js:232-237 | columns `c` and `nGridCols-c` have opposite y and the same radial offset and height |
| `HeightField.TransposedCellsAgree` | src/index.js:236-237 | on a square grid, cells (r,c) and (c,r) have the same radial offset and height |
| `HeightField.AngularFrequencyFromPeriod` | src/index.js:225-226 | for a non-zero frequency `2*PI*f == 2*PI/(1/f)`, the program's `b` |
| `HeightField.WaveDependsOnlyOnRadius` | src/index.js:236-237 | two cells with equal radial offset get equal wave heights |
| `HeightField.ZeroFrequencyIsFlat` | src/index.js:225-237 | at frequency 0 every cell's height is `amplitude*sin(time/1000)` |
| `InstanceBuffer.InstancedMesh.constructor` | src/index.js:68 | a new mesh holds `count` transforms at the origin (a zero-filled buffer) and is not flagged for upload |
| `InstanceBuffer.InstancedMesh.SetMatrixAt` | src/index.js:212 | exactly the one transform at `index` is replaced |
| `InstanceBuffer.CellIndex` | src/index.js:202 | `row*nGridCols+col` lies in row `row`'s band `[row*cols, (row+1)*cols)` of the buffer |
| `InstanceBuffer.CellIndexInverse` | src/index.js:202 | `row*nGridCols+col` lies below `rows*cols`, and division and remainder by `nGridCols` recover `(row, col)` (injective) |
| `InstanceBuffer.IndexCellInverse` | src/index.js:200-202 | every buffer index `k < rows*cols` is the index of the cell `(k / cols, k % cols)` (surjective) |
| `InstanceBuffer.RowMajorOrderEnumerates` | src/index.js:200-214 | the nested loops' write order is exactly 0, 1, ..., rows*cols-1: each index once, in increasing order |
| `InstanceBuffer.HoldsGridAtCell` | src/index.js:202-212 | after a rebuild, cell (row, col) is found at index `row*nGridCols+col` |
| `InstanceBuffer.RebuildGrid` | src/index.js:200-216 | the loop writes indices in row-major order, leaves every buffer slot holding its cell's position, then sets `needsUpdate` |
| `BinSnapshot.Allocate` | src/index.js:274-276 | the bin array is created, with one slot per bar, only when none exists yet |
| `BinSnapshot.CopyFirstChannels` | src/index.js:277-281 | slot i becomes `bars[i].value[0]` for every bar; later slots are unchanged; the array grows to the number of bars if shorter |
| `BinSnapshot.SnapshotIsUnique` | src/index.js:277-281 | the copied array is determined by the previous array and the bars |
| `BinSnapshot.FirstSnapshotIsBars` | src/index.js:274-281 | on the first call the array is exactly the bars' first channels |
| `Visualizer.AppSettings.constructor` | src/index.js:8-19 | the default settings: 250x250 cubes of side 0.02, ground plane on, generated wave on, amplitude 1, 4 Hz |
| `Visualizer.DefaultGridSize` | src/index.js:20-26 | the default grid spans 5.5 in x and in y |
| `Visualizer.App.constructor` | src/index.js:106-173 | startup: a 250*250-instance mesh, ground at `-amplitude-0.05 = -1.05` in the scene, no microphone, no bins |
| `Visualizer.App.OnSettingWrite` | src/index.js:64-80 | the proxy trap writes the field, allocates a fresh mesh of `nGridRows*nGridCols` instances, puts the ground at `-amplitude-0.05`, and keeps the ground in the scene iff `groundPlaneEnabled` |
| `Visualizer.App.UpdateGridFreqBins` | src/index.js:193-217 | every buffer slot holds its cell with the sampled height, each index written once in row-major order, then `needsUpdate` is set |
| `Visualizer.App.UpdateGridWaveForm` | src/index.js:219-245 | every buffer slot holds its cell with height `amplitude*sin(b*r+time/1000)`, each index written once in row-major order, then `needsUpdate` is set |
| `Visualizer.App.Render` | src/index.js:253-259 | the wave is drawn only when `waveGeneratorEnabled`; otherwise the buffer is untouched |
| `Visualizer.App.ReactToAudio` | src/index.js:268-283 | generated mode changes nothing; otherwise the bin array is allocated once, overwritten with each bar's first channel, and the grid is rebuilt from it |
| `Visualizer.App.SelectAudioSource` | src/index.js:292-343 | an existing microphone is disconnected first; "generated" turns the wave on, "live" off; "mic" requests permission or alerts when there are no media devices; other values alert and change nothing else |
| `Visualizer.App.MicPermissionResolved` | src/index.js:303-317 | a grant connects a new microphone node and turns the wave off; a denial alerts and changes nothing else |
| `LegacyVisualizer.AppSettings.constructor` | index.js:8-12 | the default grid of this version: 150x150 cubes of side 0.02 |
| `LegacyVisualizer.DefaultGridSize` | index.js:13-19 | the default grid spans 3.3 in x and in y |
| `LegacyVisualizer.App.constructor` | index.js:157-160 | startup allocates a 150*150-instance mesh and no bins |
| `LegacyVisualizer.App.OnSettingWrite` | index.js:54-64 | the proxy trap writes rows or columns and reallocates the mesh to `nGridRows*nGridCols` instances, all at the origin; it leaves the ground plane alone |
| `LegacyVisualizer.App.UpdateGrid` | index.js:181-206 | each index `row*nGridCols+col` is written once in row-major order with its cell's position and sampled height, then `needsUpdate` is set |
| `LegacyVisualizer.App.OnCanvasDraw` | index.js:234-247 | every frame copies the bars' first channels into the once-allocated array and rebuilds the grid, with no mode gate |

## Left out

- Floating point: every number is a real. The constants `1.1`, `0.02`, `0.05` and `Math.PI` are exact decimals, and no rounding is modelled.
- `Math.sqrt` and `Math.sin` are function parameters, not computed. The only property of the square root used is `sqrt(x) >= 0 && sqrt(x)*sqrt(x) == x` for `x >= 0`.
- Sampler.GetValueForNormalizedCoord: coordinates outside [0,1] are excluded when bins exist. With two or more bins the program then reads `undefined` from the array and returns NaN; a one-bin series returns its bin for every finite coordinate, since its raw index is then always 0.
- BinSnapshot.CopyFirstChannels: requires every bar to carry at least one channel value; the analyzer's bars always do. The holes of a fresh `new Array(n)` are modelled as zeros, and all of them are overwritten in the same call.
- The bin array (`freqBinValues`) is overwritten in place by the program; the model carries it as a `seq<real>` value that each frame replaces. Besides the copy loop only the grid update of the same frame reads the array, so nothing depends on aliasing; the in-place update itself is not modelled.
- Orientation, scale and `matrix.compose`: the instance transform is its position, since orientation and scale are constant.
- The Three.js scene, camera, lights, shadows, fog, orbit controls, GUI widgets, stats panel, window resize, and the instanced-rendering capability check in `init()`. These are library calls whose code is not part of this model. Only the ground plane's height and scene membership are kept.
- `AudioMotionAnalyzer` and `getUserMedia` are not modelled. Connecting the analyzer is a set of connected microphone nodes. The permission outcome is an input event.
- The audio element is not modelled: its `src`, `play()` and `pause()`, and the analyzer `volume` set in the "live" and "mic" branches.
- `requestAnimationFrame`, the animation loop and the light animation in `render()`. Only its mode gate around `updateGridWaveForm` is modelled.
- The commented-out upload case (src/index.js:330-339), and in `index.js` the upload handler (index.js:256-263) and the "live" click handler (index.js:251-254). These only drive the audio element.
