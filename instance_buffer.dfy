/**
 * The grid instance buffer: an instanced mesh holds one transform per cell,
 * and the per-frame update walks the rows and columns, writes cell
 * (row, col) at index `row * nGridCols + col` with `setMatrixAt`, and then
 * flags the buffer for upload (`instanceMatrix.needsUpdate = true`).
 */
module InstanceBuffer {
  import opened Wrappers
  import opened HeightField

  /** `THREE.InstancedMesh`: the instance transforms and the upload flag. */
  class InstancedMesh {
    var instanceMatrix: array<Position>
    var needsUpdate: bool

    /** `new THREE.InstancedMesh(geometry, material, count)`: `count` transforms, all at the origin (a zero-filled buffer). */
    constructor (count: nat)
      ensures fresh(instanceMatrix) && instanceMatrix.Length == count
      ensures forall k :: 0 <= k < count ==> instanceMatrix[k] == Origin
      ensures !needsUpdate
    {
      instanceMatrix := new Position[count](_ => Origin);
      needsUpdate := false;
    }

    /** `setMatrixAt(index, matrix)`: replaces one transform and nothing else. */
    method SetMatrixAt(index: nat, p: Position)
      requires index < instanceMatrix.Length
      modifies instanceMatrix
      ensures instanceMatrix[..] == old(instanceMatrix[..])[index := p]
    {
      instanceMatrix[index] := p;
    }
  }

  /** `idx = row * nGridCols + col`: the cells of row `row` fill the band `[row*cols, (row+1)*cols)`. */
  function CellIndex(cols: nat, row: nat, col: nat): (idx: nat)
    ensures row * cols <= idx
    ensures col < cols ==> idx < (row + 1) * cols
  {
    NextRowStart(cols, row);
    row * cols + col
  }

  /** Row (k+1) starts where row k ends. */
  lemma NextRowStart(cols: nat, row: nat)
    ensures (row + 1) * cols == row * cols + cols
  {
  }

  /** The rows before `row` fill fewer than `rows * cols` slots when `row < rows`. */
  lemma RowStartBound(rows: nat, cols: nat, row: nat)
    requires row < rows
    ensures row * cols + cols <= rows * cols
  {
    MulMonotone(rows, row + 1, cols);
  }

  /**
   * The index map (row, col) -> row * nGridCols + col is a bijection from
   * [0,rows) x [0,cols) onto [0, rows*cols): every cell lands inside the
   * buffer and the cell is recovered from its index by division and remainder.
   */
  lemma CellIndexInverse(rows: nat, cols: nat, row: nat, col: nat)
    requires row < rows && col < cols
    ensures CellIndex(cols, row, col) < rows * cols
    ensures CellIndex(cols, row, col) / cols == row
    ensures CellIndex(cols, row, col) % cols == col
  {
    RowStartBound(rows, cols, row);
    var k := row * cols + col;
    assert k == row * cols + col && 0 <= col < cols;
    DivModUnique(k, cols, row, col);
  }

  /** Division and remainder are determined by `k == q * d + r` with `0 <= r < d`. */
  lemma DivModUnique(k: nat, d: nat, q: nat, r: nat)
    requires 0 <= r < d && k == q * d + r
    ensures k / d == q && k % d == r
  {
    var q': nat, r' := k / d, k % d;
    assert k == q' * d + r' && 0 <= r' < d;
    MulGap(q, q', d);
    MulGap(q', q, d);
  }

  /** A larger factor is larger by at least one whole multiple. */
  lemma MulGap(a: nat, b: nat, c: nat)
    ensures b < a ==> b * c + c <= a * c
  {
    if b < a {
      MulMonotone(a, b + 1, c);
    }
  }

  /** Multiplying by a natural number keeps the order. */
  lemma MulMonotone(a: nat, b: nat, c: nat)
    requires a >= b
    ensures a * c >= b * c
    ensures (b + 1) * c == b * c + c
  {
    assert a * c == b * c + (a - b) * c;
  }

  /** Every index of the buffer is the index of exactly one cell. */
  lemma IndexCellInverse(rows: nat, cols: nat, k: nat)
    requires k < rows * cols
    ensures cols > 0 && k / cols < rows && k % cols < cols
    ensures CellIndex(cols, k / cols, k % cols) == k
  {
  }

  /** `[row*cols, row*cols + 1, ..., row*cols + n - 1]`: the first n indices the inner loop writes for `row`. */
  function RowIndices(cols: nat, row: nat, n: nat): (r: seq<nat>)
    ensures |r| == n
  {
    if n == 0 then [] else RowIndices(cols, row, n - 1) + [CellIndex(cols, row, n - 1)]
  }

  /** The indices the nested loop writes over the first `rows` rows, in order. */
  function RowMajorOrder(rows: nat, cols: nat): (r: seq<nat>)
  {
    if rows == 0 then [] else RowMajorOrder(rows - 1, cols) + RowIndices(cols, rows - 1, cols)
  }

  /**
   * The row-major write order is exactly 0, 1, ..., rows*cols - 1: each index
   * of the buffer is written once, and in increasing order.
   */
  lemma {:induction false} RowMajorOrderEnumerates(rows: nat, cols: nat)
    ensures |RowMajorOrder(rows, cols)| == rows * cols
    ensures forall k :: 0 <= k < rows * cols ==> RowMajorOrder(rows, cols)[k] == k
  {
    if rows > 0 {
      RowMajorOrderEnumerates(rows - 1, cols);
      NextRowStart(cols, rows - 1);
      var prefix := RowMajorOrder(rows - 1, cols);
      var row := RowIndices(cols, rows - 1, cols);
      forall k | 0 <= k < rows * cols
        ensures RowMajorOrder(rows, cols)[k] == k
      {
        if k >= (rows - 1) * cols {
          RowIndicesAt(cols, rows - 1, cols, k - (rows - 1) * cols);
        }
      }
    }
  }

  lemma {:induction false} RowIndicesAt(cols: nat, row: nat, n: nat, j: nat)
    requires j < n
    ensures RowIndices(cols, row, n)[j] == row * cols + j
  {
    if j < n - 1 {
      RowIndicesAt(cols, row, n - 1, j);
    }
  }

  /** The cell that buffer index `k` stands for. */
  function CellAtIndex(grid: Grid, math: MathOps, source: HeightSource, k: nat): Position
    requires SqrtSound(math.sqrt)
    requires k < grid.nGridRows * grid.nGridCols
  {
    IndexCellInverse(grid.nGridRows, grid.nGridCols, k);
    Cell(grid, math, source, k / grid.nGridCols, k % grid.nGridCols)
  }

  /** The buffer holds, at every index, the cell that index stands for. */
  ghost predicate HoldsGrid(a: seq<Position>, grid: Grid, math: MathOps, source: HeightSource)
    requires SqrtSound(math.sqrt)
  {
    |a| == grid.nGridRows * grid.nGridCols &&
    forall k :: 0 <= k < |a| ==> a[k] == CellAtIndex(grid, math, source, k)
  }

  /** The same fact stated cell by cell: cell (row, col) is at `row * nGridCols + col`. */
  lemma HoldsGridAtCell(a: seq<Position>, grid: Grid, math: MathOps, source: HeightSource, row: nat, col: nat)
    requires SqrtSound(math.sqrt) && HoldsGrid(a, grid, math, source)
    requires row < grid.nGridRows && col < grid.nGridCols
    ensures CellIndex(grid.nGridCols, row, col) < |a|
    ensures a[CellIndex(grid.nGridCols, row, col)] == Cell(grid, math, source, row, col)
  {
    CellIndexInverse(grid.nGridRows, grid.nGridCols, row, col);
    var k := CellIndex(grid.nGridCols, row, col);
    IndexCellInverse(grid.nGridRows, grid.nGridCols, k);
  }

  /**
   * The nested row/column loop shared by both update functions: every index
   * `row * nGridCols + col` is written once, in row-major order (`written`
   * records the order), the whole buffer ends up holding the new grid, and
   * the upload flag is set after the loop.
   */
  method RebuildGrid(mesh: InstancedMesh, grid: Grid, math: MathOps, source: HeightSource)
      returns (ghost written: seq<nat>)
    requires SqrtSound(math.sqrt)
    requires mesh.instanceMatrix.Length == grid.nGridRows * grid.nGridCols
    modifies mesh, mesh.instanceMatrix
    ensures mesh.instanceMatrix == old(mesh.instanceMatrix)
    ensures HoldsGrid(mesh.instanceMatrix[..], grid, math, source)
    ensures mesh.needsUpdate
    ensures written == RowMajorOrder(grid.nGridRows, grid.nGridCols)
  {
    var rows, cols := grid.nGridRows, grid.nGridCols;
    var a := mesh.instanceMatrix;
    written := [];
    var row := 0;
    while row < rows
      invariant 0 <= row <= rows
      invariant mesh.instanceMatrix == a
      invariant row * cols <= a.Length
      invariant forall k :: 0 <= k < row * cols ==> a[k] == CellAtIndex(grid, math, source, k)
      invariant written == RowMajorOrder(row, cols)
    {
      RowStartBound(rows, cols, row);
      var col := 0;
      while col < cols
        invariant 0 <= col <= cols
        invariant mesh.instanceMatrix == a
        invariant row * cols + col <= a.Length
        invariant forall k :: 0 <= k < row * cols + col ==> a[k] == CellAtIndex(grid, math, source, k)
        invariant written == RowMajorOrder(row, cols) + RowIndices(cols, row, col)
      {
        var idx := row * cols + col;
        CellIndexInverse(rows, cols, row, col);
        var p := Cell(grid, math, source, row, col);
        mesh.SetMatrixAt(idx, p);
        written := written + [idx];
        col := col + 1;
      }
      NextRowStart(cols, row);
      row := row + 1;
    }
    mesh.needsUpdate := true;
  }
}
