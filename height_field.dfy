/**
 * The per-cell height field: every cell (row, col) of an R x C grid gets a
 * planar position on a lattice starting at `-gridSize/2` and a height taken either from the
 * frequency bins (through the sampler, at the cell's radial distance from
 * the grid centre) or from a travelling sine wave.
 *
 * `Math.sqrt` and `Math.sin` are not interpreted: they are the function
 * values of a `MathOps`, and the only fact assumed of the square root is
 * what makes it one (`SqrtSound`).
 */
module HeightField {
  import opened Wrappers
  import Sampler

  /** `Math.PI` as a decimal. */
  const PI: real := 3.141592653589793

  /** The host's `Math.sqrt` and `Math.sin`. */
  datatype MathOps = MathOps(sqrt: real -> real, sin: real -> real)

  /** `sqrt` returns the non-negative square root of every non-negative argument. */
  ghost predicate SqrtSound(sqrt: real -> real) {
    forall x :: 0.0 <= x ==> 0.0 <= sqrt(x) && sqrt(x) * sqrt(x) == x
  }

  /** The grid part of the app settings: cube side and the number of rows and columns. */
  datatype Grid = Grid(cubeSideLength: real, nGridRows: nat, nGridCols: nat) {
    /** Getter `gridSizeX`: the rows, each 1.1 cube sides wide (a 10% gap). */
    function GridSizeX(): (size: real)
      ensures nGridRows > 0 ==> size / nGridRows as real == 1.1 * cubeSideLength
      ensures nGridRows == 0 ==> size == 0.0
    {
      nGridRows as real * 1.1 * cubeSideLength
    }

    /** Getter `gridSizeY`: the columns, each 1.1 cube sides wide. */
    function GridSizeY(): (size: real)
      ensures nGridCols > 0 ==> size / nGridCols as real == 1.1 * cubeSideLength
      ensures nGridCols == 0 ==> size == 0.0
    {
      nGridCols as real * 1.1 * cubeSideLength
    }
  }

  /** One instance transform: orientation and scale are fixed, so only the offset varies. */
  datatype Position = Position(x: real, y: real, z: real)

  const Origin: Position := Position(0.0, 0.0, 0.0)

  /** Where a cell's height comes from: the frequency bins, or the generated wave at time `time` (ms). */
  datatype HeightSource =
    | FreqBins(values: Option<seq<real>>)
    | Wave(amplitude: real, frequencyHz: real, time: real)

  /** `normGridX = row / nGridRows` (and likewise for columns). */
  function NormCoord(i: nat, n: nat): (u: real)
    requires i < n
    ensures 0.0 <= u < 1.0
  {
    i as real / n as real
  }

  function Square(d: real): real {
    d * d
  }

  /** A square is never negative. */
  lemma SquareNonNegative(d: real)
    ensures Square(d) >= 0.0
  {
    if d >= 0.0 {
      Sampler.ProductNonNegative(d, d);
    } else {
      Sampler.ProductNonNegative(-d, -d);
    }
  }

  /**
   * `Math.sqrt(Math.pow(u - 0.5, 2) + Math.pow(v - 0.5, 2))`: with a sound
   * square root, the Euclidean distance of (u, v) from the centre (1/2, 1/2).
   */
  function RadialOffset(sqrt: real -> real, u: real, v: real): (r: real)
    ensures SqrtSound(sqrt) ==> 0.0 <= r && r * r == Square(u - 0.5) + Square(v - 0.5)
  {
    SquareNonNegative(u - 0.5);
    SquareNonNegative(v - 0.5);
    sqrt(Square(u - 0.5) + Square(v - 0.5))
  }

  /** A number at most 1/2 away from 1/2 has a square distance of at most 1/4. */
  lemma SquareOfHalfDistance(u: real)
    requires 0.0 <= u <= 1.0
    ensures 0.0 <= Square(u - 0.5) <= 0.25
  {
    var d := u - 0.5;
    Sampler.ProductNonNegative(0.5 - d, 0.5 + d);
    assert Square(d) == 0.25 - (0.5 - d) * (0.5 + d);
    SquareNonNegative(d);
  }

  /**
   * The radial offset of a point of the unit square lies in [0,1): its
   * square is at most 1/2.  So it is always a valid sampler coordinate.
   */
  lemma RadialOffsetInUnitRange(sqrt: real -> real, u: real, v: real)
    requires SqrtSound(sqrt)
    requires 0.0 <= u < 1.0 && 0.0 <= v < 1.0
    ensures 0.0 <= RadialOffset(sqrt, u, v) < 1.0
  {
    SquareOfHalfDistance(u);
    SquareOfHalfDistance(v);
    var a := Square(u - 0.5) + Square(v - 0.5);
    var r := sqrt(a);
    assert 0.0 <= r && r * r == a;
    assert (1.0 - r) * (1.0 + r) > 0.0;
  }

  /** The radial offset of cell (row, col). */
  function CellRadius(grid: Grid, sqrt: real -> real, row: nat, col: nat): real
    requires row < grid.nGridRows && col < grid.nGridCols
  {
    RadialOffset(sqrt, NormCoord(row, grid.nGridRows), NormCoord(col, grid.nGridCols))
  }

  /**
   * `x = gridSizeX * (normGridX - 0.5)`: row `row` sits at
   * `1.1 * cubeSideLength * row - gridSizeX / 2`, so rows are spaced by 1.1
   * cube sides starting at `-gridSizeX / 2`.  The last row sits one step
   * short of `gridSizeX / 2`, so the lattice is half a step off-centre.
   */
  function CellX(grid: Grid, row: nat): (x: real)
    requires row < grid.nGridRows
    ensures x == 1.1 * grid.cubeSideLength * row as real - grid.GridSizeX() / 2.0
  {
    grid.GridSizeX() * (NormCoord(row, grid.nGridRows) - 0.5)
  }

  /** `y = gridSizeY * (normGridY - 0.5)`: column `col` sits at `1.1 * cubeSideLength * col - gridSizeY / 2`. */
  function CellY(grid: Grid, col: nat): (y: real)
    requires col < grid.nGridCols
    ensures y == 1.1 * grid.cubeSideLength * col as real - grid.GridSizeY() / 2.0
  {
    grid.GridSizeY() * (NormCoord(col, grid.nGridCols) - 0.5)
  }

  /**
   * `2 * Math.PI / periodSec` with `periodSec = 1 / frequencyHz`, written
   * without the division: it vanishes exactly at frequency 0 and has the
   * frequency's sign.
   */
  function AngularFrequency(frequencyHz: real): (b: real)
    ensures b == 0.0 <==> frequencyHz == 0.0
    ensures frequencyHz > 0.0 ==> b > 0.0
  {
    2.0 * PI * frequencyHz
  }

  /**
   * `amplitude * Math.sin(b * normRadialOffset + time / 1000)`: no amplitude
   * gives a flat wave, and at the centre or at frequency 0 the height is the
   * time phase alone.
   */
  function WaveHeight(sin: real -> real, amplitude: real, frequencyHz: real, time: real, radius: real): (h: real)
    ensures amplitude == 0.0 ==> h == 0.0
    ensures radius == 0.0 || frequencyHz == 0.0 ==> h == amplitude * sin(time / 1000.0)
  {
    amplitude * sin(AngularFrequency(frequencyHz) * radius + time / 1000.0)
  }

  /**
   * The height of cell (row, col) under the given source: 0 in frequency-bin
   * mode while there are no bins, and 0 for a wave without amplitude.
   */
  function CellHeight(grid: Grid, math: MathOps, source: HeightSource, row: nat, col: nat): (h: real)
    requires SqrtSound(math.sqrt)
    requires row < grid.nGridRows && col < grid.nGridCols
    ensures source.FreqBins? && !Sampler.HasBins(source.values) ==> h == 0.0
    ensures source.Wave? && source.amplitude == 0.0 ==> h == 0.0
  {
    var r := CellRadius(grid, math.sqrt, row, col);
    match source
    case FreqBins(values) =>
      RadialOffsetInUnitRange(math.sqrt, NormCoord(row, grid.nGridRows), NormCoord(col, grid.nGridCols));
      Sampler.GetValueForNormalizedCoord(values, r)
    case Wave(amplitude, frequencyHz, time) =>
      WaveHeight(math.sin, amplitude, frequencyHz, time, r)
  }

  /**
   * The offset written for cell (row, col): `offset.set(x, y, z)`, the cell's
   * place on the 1.1-cube-side lattice starting at `(-gridSizeX/2, -gridSizeY/2)`,
   * lifted to the cell's height.
   */
  function Cell(grid: Grid, math: MathOps, source: HeightSource, row: nat, col: nat): (p: Position)
    requires SqrtSound(math.sqrt)
    requires row < grid.nGridRows && col < grid.nGridCols
    ensures p.x == 1.1 * grid.cubeSideLength * row as real - grid.GridSizeX() / 2.0
    ensures p.y == 1.1 * grid.cubeSideLength * col as real - grid.GridSizeY() / 2.0
    ensures p.z == CellHeight(grid, math, source, row, col)
  {
    Position(CellX(grid, row), CellY(grid, col), CellHeight(grid, math, source, row, col))
  }

  // ---------------------------------------------------------------------
  // Properties of the planar layout

  /**
   * With cubes of positive side, the row positions stay inside the grid's
   * footprint `[-gridSizeX/2, gridSizeX/2)`, the first row on its edge, and
   * adjacent rows are exactly 1.1 cube sides apart.  The first and last rows
   * are symmetric about `-0.55 * cubeSideLength`, not about the origin.
   */
  lemma CellXSpacing(grid: Grid, row: nat)
    requires grid.cubeSideLength > 0.0 && row < grid.nGridRows
    ensures CellX(grid, 0) == -grid.GridSizeX() / 2.0
    ensures -grid.GridSizeX() / 2.0 <= CellX(grid, row) < grid.GridSizeX() / 2.0
    ensures row + 1 < grid.nGridRows ==> CellX(grid, row + 1) - CellX(grid, row) == 1.1 * grid.cubeSideLength
    ensures CellX(grid, 0) + CellX(grid, grid.nGridRows - 1) == -1.1 * grid.cubeSideLength
  {
    var step := 1.1 * grid.cubeSideLength;
    Sampler.ProductNonNegative(step, row as real);
    Sampler.ProductNonNegative(step, (grid.nGridRows - row - 1) as real);
    assert grid.GridSizeX() == step * grid.nGridRows as real;
  }

  /** The same for the columns and `[-gridSizeY/2, gridSizeY/2)`. */
  lemma CellYSpacing(grid: Grid, col: nat)
    requires grid.cubeSideLength > 0.0 && col < grid.nGridCols
    ensures CellY(grid, 0) == -grid.GridSizeY() / 2.0
    ensures -grid.GridSizeY() / 2.0 <= CellY(grid, col) < grid.GridSizeY() / 2.0
    ensures col + 1 < grid.nGridCols ==> CellY(grid, col + 1) - CellY(grid, col) == 1.1 * grid.cubeSideLength
    ensures CellY(grid, 0) + CellY(grid, grid.nGridCols - 1) == -1.1 * grid.cubeSideLength
  {
    var step := 1.1 * grid.cubeSideLength;
    Sampler.ProductNonNegative(step, col as real);
    Sampler.ProductNonNegative(step, (grid.nGridCols - col - 1) as real);
    assert grid.GridSizeY() == step * grid.nGridCols as real;
  }

  /** On a 2 x 2 grid of unit cubes the grid is 2.2 wide and cell (0,0) sits at (-1.1, -1.1). */
  lemma TwoByTwoCorner()
    ensures Grid(1.0, 2, 2).GridSizeX() == 2.2 && Grid(1.0, 2, 2).GridSizeY() == 2.2
    ensures CellX(Grid(1.0, 2, 2), 0) == -1.1 && CellY(Grid(1.0, 2, 2), 0) == -1.1
  {
  }

  // ---------------------------------------------------------------------
  // Symmetry of the height field

  /** A positive factor can be cancelled. */
  lemma CancelPositive(a: real, b: real, n: real)
    requires n > 0.0 && a * n == b * n
    ensures a == b
  {
  }

  /**
   * Rows `row` and `nGridRows - row` mirror each other through the origin:
   * their x coordinates are opposite and in every column they have the same
   * radial offset, hence the same height under either source.
   */
  lemma MirroredRowsAgree(grid: Grid, math: MathOps, source: HeightSource, row: nat, col: nat)
    requires SqrtSound(math.sqrt)
    requires 0 < row < grid.nGridRows && col < grid.nGridCols
    ensures CellX(grid, grid.nGridRows - row) == -CellX(grid, row)
    ensures CellRadius(grid, math.sqrt, grid.nGridRows - row, col) == CellRadius(grid, math.sqrt, row, col)
    ensures Cell(grid, math, source, grid.nGridRows - row, col).z == Cell(grid, math, source, row, col).z
  {
    var n := grid.nGridRows as real;
    var u := NormCoord(row, grid.nGridRows);
    var u' := NormCoord(grid.nGridRows - row, grid.nGridRows);
    assert u' == 1.0 - u by {
      assert u * n == row as real;
      calc {
        u' * n;
        n - row as real;
        n - u * n;
        (1.0 - u) * n;
      }
      CancelPositive(u', 1.0 - u, n);
    }
    assert Square(u' - 0.5) == Square(u - 0.5);
  }

  /** Columns `col` and `nGridCols - col` mirror each other in the same way. */
  lemma MirroredColsAgree(grid: Grid, math: MathOps, source: HeightSource, row: nat, col: nat)
    requires SqrtSound(math.sqrt)
    requires row < grid.nGridRows && 0 < col < grid.nGridCols
    ensures CellY(grid, grid.nGridCols - col) == -CellY(grid, col)
    ensures CellRadius(grid, math.sqrt, row, grid.nGridCols - col) == CellRadius(grid, math.sqrt, row, col)
    ensures Cell(grid, math, source, row, grid.nGridCols - col).z == Cell(grid, math, source, row, col).z
  {
    var n := grid.nGridCols as real;
    var v := NormCoord(col, grid.nGridCols);
    var v' := NormCoord(grid.nGridCols - col, grid.nGridCols);
    assert v' == 1.0 - v by {
      assert v * n == col as real;
      calc {
        v' * n;
        n - col as real;
        n - v * n;
        (1.0 - v) * n;
      }
      CancelPositive(v', 1.0 - v, n);
    }
    assert Square(v' - 0.5) == Square(v - 0.5);
  }

  /** On a square grid, cells (row, col) and (col, row) have the same height. */
  lemma TransposedCellsAgree(grid: Grid, math: MathOps, source: HeightSource, row: nat, col: nat)
    requires SqrtSound(math.sqrt)
    requires grid.nGridRows == grid.nGridCols
    requires row < grid.nGridRows && col < grid.nGridCols
    ensures CellRadius(grid, math.sqrt, col, row) == CellRadius(grid, math.sqrt, row, col)
    ensures Cell(grid, math, source, col, row).z == Cell(grid, math, source, row, col).z
  {
  }

  // ---------------------------------------------------------------------
  // The generated wave

  /** For a non-zero frequency `2*PI*f` is the program's `2*PI / (1/f)`. */
  lemma AngularFrequencyFromPeriod(frequencyHz: real)
    requires frequencyHz != 0.0
    ensures AngularFrequency(frequencyHz) == 2.0 * PI / (1.0 / frequencyHz)
  {
  }

  /** Two cells at the same radial offset get the same wave height. */
  lemma WaveDependsOnlyOnRadius(grid: Grid, math: MathOps, amplitude: real, frequencyHz: real, time: real,
                                r1: nat, c1: nat, r2: nat, c2: nat)
    requires SqrtSound(math.sqrt)
    requires r1 < grid.nGridRows && c1 < grid.nGridCols && r2 < grid.nGridRows && c2 < grid.nGridCols
    requires CellRadius(grid, math.sqrt, r1, c1) == CellRadius(grid, math.sqrt, r2, c2)
    ensures Cell(grid, math, Wave(amplitude, frequencyHz, time), r1, c1).z
         == Cell(grid, math, Wave(amplitude, frequencyHz, time), r2, c2).z
  {
  }

  /**
   * At frequency 0 there is no oscillation across the grid: every cell gets
   * `amplitude * sin(time / 1000)`, the same for all cells (not 0).
   */
  lemma ZeroFrequencyIsFlat(grid: Grid, math: MathOps, amplitude: real, time: real, row: nat, col: nat)
    requires SqrtSound(math.sqrt)
    requires row < grid.nGridRows && col < grid.nGridCols
    ensures Cell(grid, math, Wave(amplitude, 0.0, time), row, col).z == amplitude * math.sin(time / 1000.0)
  {
  }

  /** In frequency-bin mode a cell's height is the sampler at the cell's radial offset, or 0 without bins. */
  lemma FreqBinHeight(grid: Grid, math: MathOps, values: Option<seq<real>>, row: nat, col: nat)
    requires SqrtSound(math.sqrt)
    requires row < grid.nGridRows && col < grid.nGridCols
    ensures 0.0 <= CellRadius(grid, math.sqrt, row, col) < 1.0
    ensures !Sampler.HasBins(values) ==> Cell(grid, math, FreqBins(values), row, col).z == 0.0
    ensures Sampler.HasBins(values) ==>
              var s := values.value;
              var r := CellRadius(grid, math.sqrt, row, col);
              var z := Cell(grid, math, FreqBins(values), row, col).z;
              (Sampler.Below(s, r) <= z <= Sampler.Above(s, r)) || (Sampler.Above(s, r) <= z <= Sampler.Below(s, r))
  {
    RadialOffsetInUnitRange(math.sqrt, NormCoord(row, grid.nGridRows), NormCoord(col, grid.nGridCols));
    if Sampler.HasBins(values) {
      Sampler.SampleIsConvexCombination(values.value, CellRadius(grid, math.sqrt, row, col));
    }
  }
}
