/**
 * The host-side reshape at the end of `renderOutput`: the readback buffer is
 * truncated to the thread count and cut into row and plane views with
 * `utils.splitArray`. Views share the buffer; they are modelled as
 * (start, count) windows on it.
 */
module Reshape {
  import opened Wrappers
  import Arith
  import ShaderIndex

  /** A typed-array view of `count` elements of the buffer, starting at element `start`. */
  datatype View = View(start: nat, count: nat)

  /** What `renderOutput` returns: the flat view, rows, planes of rows, or nothing for other output ranks. */
  datatype Shaped = Flat(flat: View) | Rows(rows: seq<View>) | Cube(planes: seq<seq<View>>) | NoResult

  /** The element a view shows at position j. */
  function ViewAt(buffer: seq<real>, v: View, j: nat): real
    requires v.start + j < |buffer|
  {
    buffer[v.start + j]
  }

  /** Every view lies inside the buffer; a view running past it makes its constructor throw a RangeError. */
  predicate InBuffer(views: seq<View>, bufferLen: nat)
  {
    forall q :: 0 <= q < |views| ==> views[q].start + views[q].count <= bufferLen
  }

  /**
   * `utils.splitArray(array, part)`: one view of `part` elements at each
   * multiple of `part` below the array's length, each starting where the
   * array's own view starts plus that multiple (`SplitStart`). The last view
   * keeps the full `part` elements even when the array ends sooner.
   */
  function SplitArray(arr: View, part: nat): (r: seq<View>)
    requires part > 0 || arr.count == 0
    ensures |r| == 0 <==> arr.count == 0
    ensures |r| > 0 ==> r[0].start == arr.start && r[|r| - 1].start + part >= arr.start + arr.count
    ensures forall q :: 0 <= q < |r| ==> r[q].count == part && arr.start <= r[q].start < arr.start + arr.count
  {
    SplitFrom(arr.start, arr.start + arr.count, part)
  }

  /** The views of the loop in `splitArray` from buffer position `pos` up to `end`. */
  function SplitFrom(pos: nat, end: nat, part: nat): (r: seq<View>)
    requires part > 0 || end <= pos
    ensures |r| == 0 <==> end <= pos
    ensures |r| > 0 ==> r[0].start == pos && r[|r| - 1].start + part >= end
    ensures forall q :: 0 <= q < |r| ==> r[q].count == part && pos <= r[q].start < end
    decreases end - pos
  {
    if pos >= end then [] else [View(pos, part)] + SplitFrom(pos + part, end, part)
  }

  /** The q-th view starts q parts after the first. */
  lemma {:induction false} SplitStart(arr: View, part: nat, q: nat)
    requires part > 0 || arr.count == 0
    requires q < |SplitArray(arr, part)|
    ensures SplitArray(arr, part)[q].start == arr.start + q * part
  {
    SplitFromStart(arr.start, arr.start + arr.count, part, q);
  }

  lemma {:induction false} SplitFromStart(pos: nat, end: nat, part: nat, q: nat)
    requires part > 0 || end <= pos
    requires q < |SplitFrom(pos, end, part)|
    ensures SplitFrom(pos, end, part)[q].start == pos + q * part
    decreases q
  {
    if q > 0 {
      SplitFromStart(pos + part, end, part, q - 1);
      Arith.MulSucc(q - 1, part);
    }
  }

  /**
   * Split into parts of `part`, an array of `rows * part` elements gives
   * exactly `rows` views, the q-th starting q parts in.
   */
  lemma {:induction false} SplitExact(start: nat, part: nat, rows: nat)
    requires part > 0
    ensures var r := SplitArray(View(start, rows * part), part);
      |r| == rows && forall q :: 0 <= q < rows ==> r[q] == View(start + q * part, part)
  {
    SplitFromCount(start, part, rows);
    var r := SplitArray(View(start, rows * part), part);
    forall q | 0 <= q < rows
      ensures r[q] == View(start + q * part, part)
    {
      SplitStart(View(start, rows * part), part, q);
    }
  }

  /** The loop of `splitArray` over `rows` whole parts from `pos` makes `rows` views. */
  lemma {:induction false} SplitFromCount(pos: nat, part: nat, rows: nat)
    requires part > 0
    ensures |SplitFrom(pos, pos + rows * part, part)| == rows
    decreases rows
  {
    if rows > 0 {
      Arith.MulSucc(rows - 1, part);
      SplitFromCount(pos + part, part, rows - 1);
      assert pos + rows * part == (pos + part) + (rows - 1) * part;
    }
  }

  /** The product of the first three thread dimensions. */
  function ThreadCount(threadDim: seq<int>): int
    requires |threadDim| >= 3
  {
    threadDim[0] * threadDim[1] * threadDim[2]
  }

  function MinNat(x: nat, y: nat): nat { if x < y then x else y }

  /**
   * The reshape in `renderOutput`: the buffer is cut to the thread count
   * with `subarray` (which also stops at the buffer's end); a rank-1 output
   * returns it flat, rank 2 splits it into rows of `output[0]`, rank 3 into
   * planes of `output[0] * output[1]` each split into rows; any other rank
   * returns nothing. A view that runs past the buffer throws a RangeError.
   */
  function RenderOutput(buffer: seq<real>, threadDim: seq<int>, output: seq<int>): (r: Result<Shaped>)
    requires |threadDim| >= 3 && threadDim[0] >= 1 && threadDim[1] >= 1 && threadDim[2] >= 1
    requires forall i :: 0 <= i < |output| ==> output[i] >= 1
    ensures |output| == 1 ==>
              r.Ok? && r.value.Flat? && r.value.flat.start == 0
              && r.value.flat.count <= |buffer| && r.value.flat.count <= ThreadCount(threadDim)
              && (r.value.flat.count == |buffer| || r.value.flat.count == ThreadCount(threadDim))
    ensures |output| == 0 || |output| > 3 ==> r == Ok(NoResult)
    ensures r.Ok? && r.value.Rows? ==> InBuffer(r.value.rows, |buffer|)
  {
    assert threadDim[0] * threadDim[1] >= 0;
    var flat := View(0, MinNat(ThreadCount(threadDim), |buffer|));
    if |output| == 1 then Ok(Flat(flat))
    else if |output| == 2 then SplitRows(flat, output[0], |buffer|)
    else if |output| == 3 then
      assert output[0] * output[1] >= 1 by { Arith.MulLe(1, output[0], output[1]); }
      SplitCube(flat, output[0], output[1], |buffer|)
    else Ok(NoResult)
  }

  /** `splitArray(result, output[0])`, throwing if a row view runs past the buffer. */
  function SplitRows(flat: View, width: nat, bufferLen: nat): Result<Shaped>
    requires width >= 1
  {
    var rows := SplitArray(flat, width);
    if InBuffer(rows, bufferLen) then Ok(Rows(rows)) else Err("RangeError: invalid typed array length")
  }

  /** `splitArray(result, output[0] * output[1])`, each plane split again into rows of `output[0]`. */
  function SplitCube(flat: View, width: nat, height: nat, bufferLen: nat): Result<Shaped>
    requires width >= 1 && width * height >= 1
  {
    var cube := SplitArray(flat, width * height);
    if !InBuffer(cube, bufferLen) then Err("RangeError: invalid typed array length")
    else
      var planes := seq(|cube|, z requires 0 <= z < |cube| => SplitArray(cube[z], width));
      if forall z :: 0 <= z < |planes| ==> InBuffer(planes[z], bufferLen) then Ok(Cube(planes))
      else Err("RangeError: invalid typed array length")
  }

  /**
   * A rank-2 output read back from a buffer holding at least its elements:
   * `output[1]` rows, row y being the `output[0]` elements from
   * output[0] * y on, so result[y][x] is element x + output[0] * y of the
   * flat buffer.
   */
  lemma {:induction false} RenderRows(buffer: seq<real>, output: seq<int>)
    requires |output| == 2 && output[0] >= 1 && output[1] >= 1
    requires output[0] * output[1] <= |buffer|
    ensures var r := RenderOutput(buffer, [output[0], output[1], 1], output);
      && r.Ok? && r.value.Rows? && |r.value.rows| == output[1] && InBuffer(r.value.rows, |buffer|)
      && forall y :: 0 <= y < output[1] ==> r.value.rows[y] == View(output[0] * y, output[0])
  {
    var o0, o1 := output[0], output[1];
    var threadDim := [o0, o1, 1];
    var rows := SplitArray(View(0, o1 * o0), o0);
    RowViews(0, o0, o1, |buffer|);
    assert RenderOutput(buffer, threadDim, output) == Ok(Rows(rows)) by {
      assert ThreadCount(threadDim) == o1 * o0;
      assert SplitRows(View(0, o1 * o0), o0, |buffer|) == Ok(Rows(rows));
    }
  }

  /**
   * Splitting o1 * o0 elements from `start` into parts of o0 gives o1 rows,
   * row y starting at start + o0 * y, all inside a buffer that holds them.
   */
  lemma {:induction false} RowViews(start: nat, o0: nat, o1: nat, bufferLen: nat)
    requires o0 >= 1 && start + o1 * o0 <= bufferLen
    ensures var rows := SplitArray(View(start, o1 * o0), o0);
      |rows| == o1 && InBuffer(rows, bufferLen)
      && forall y :: 0 <= y < o1 ==> rows[y] == View(start + o0 * y, o0)
  {
    SplitExact(start, o0, o1);
    var rows := SplitArray(View(start, o1 * o0), o0);
    forall y | 0 <= y < o1
      ensures rows[y] == View(start + o0 * y, o0) && rows[y].start + rows[y].count <= bufferLen
    {
      assert rows[y] == View(start + y * o0, o0);
      RowEnd(y, o1, o0);
    }
  }

  /** Row y < o1 of parts of o0 ends within o1 * o0. */
  lemma {:induction false} RowEnd(y: nat, o1: nat, o0: nat)
    requires y < o1
    ensures y * o0 == o0 * y && y * o0 + o0 <= o1 * o0
  {
    Arith.MulLe(y + 1, o1, o0);
  }

  /** A plane of `area` = o1 * o0 cells from `start`, split into rows of o0. */
  lemma {:induction false} PlaneSplit(o0: nat, o1: nat, area: nat, start: nat, bufferLen: nat)
    requires o0 >= 1 && area == o0 * o1 && start + area <= bufferLen
    ensures var rows := SplitArray(View(start, area), o0);
      |rows| == o1 && InBuffer(rows, bufferLen)
      && forall y :: 0 <= y < o1 ==> rows[y] == View(start + o0 * y, o0)
  {
    assert o1 * o0 == area;
    RowViews(start, o0, o1, bufferLen);
  }

  /** Row y of plane z starts at o0 * (y + o1 * z). */
  lemma {:induction false} PlaneOffset(o0: nat, o1: nat, y: nat, z: nat)
    ensures z * (o0 * o1) + o0 * y == o0 * (y + o1 * z)
  {
  }

  /**
   * The views of a rank-3 readback: plane z, row y is the `o0` elements from
   * z * (o0 * o1) + o0 * y on.
   */
  function CubeViews(o0: nat, o1: nat, o2: nat): (r: seq<seq<View>>)
    ensures |r| == o2 && forall z :: 0 <= z < o2 ==> |r[z]| == o1
  {
    seq(o2, z requires 0 <= z < o2 => seq(o1, y requires 0 <= y < o1 => View(z * (o0 * o1) + o0 * y, o0)))
  }

  /**
   * A rank-3 output read back from a buffer holding at least its elements:
   * `output[2]` planes of `output[1]` rows, row y of plane z being the
   * `output[0]` elements from z * (output[0] * output[1]) + output[0] * y
   * on.
   */
  lemma {:induction false} RenderCube(buffer: seq<real>, output: seq<int>)
    requires |output| == 3 && output[0] >= 1 && output[1] >= 1 && output[2] >= 1
    requires output[2] * (output[0] * output[1]) <= |buffer|
    ensures RenderOutput(buffer, output, output) == Ok(Cube(CubeViews(output[0], output[1], output[2])))
  {
    var o0, o1, o2 := output[0], output[1], output[2];
    var area := o0 * o1;
    var cube := SplitArray(View(0, o2 * area), area);
    var planes := seq(|cube|, z requires 0 <= z < |cube| => SplitArray(cube[z], o0));
    CubePlanes(o0, o1, o2, |buffer|);
    assert RenderOutput(buffer, output, output) == Ok(Cube(planes)) by {
      assert ThreadCount(output) == o2 * area;
      assert SplitCube(View(0, o2 * area), o0, o1, |buffer|) == Ok(Cube(planes));
    }
  }

  /** Each plane of a rank-3 readback, split into rows, is the plane `CubeViews` names, inside the buffer. */
  lemma {:induction false} CubePlanes(o0: nat, o1: nat, o2: nat, bufferLen: nat)
    requires o0 >= 1 && o1 >= 1 && o2 * (o0 * o1) <= bufferLen
    ensures var cube := SplitArray(View(0, o2 * (o0 * o1)), o0 * o1);
      var planes := seq(|cube|, z requires 0 <= z < |cube| => SplitArray(cube[z], o0));
      InBuffer(cube, bufferLen) && planes == CubeViews(o0, o1, o2)
      && forall z :: 0 <= z < |planes| ==> InBuffer(planes[z], bufferLen)
  {
    var area := o0 * o1;
    var cube := SplitArray(View(0, o2 * area), area);
    CubeSplit(o0, o1, o2, bufferLen);
    var planes := seq(|cube|, z requires 0 <= z < |cube| => SplitArray(cube[z], o0));
    var expected := CubeViews(o0, o1, o2);
    forall z | 0 <= z < o2
      ensures planes[z] == expected[z] && InBuffer(planes[z], bufferLen)
    {
      PlaneMatches(o0, o1, o2, z, bufferLen);
    }
  }

  /** The plane views of a rank-3 readback: plane z starts at z * (o0 * o1). */
  lemma {:induction false} CubeSplit(o0: nat, o1: nat, o2: nat, bufferLen: nat)
    requires o0 >= 1 && o1 >= 1 && o2 * (o0 * o1) <= bufferLen
    ensures var cube := SplitArray(View(0, o2 * (o0 * o1)), o0 * o1);
      |cube| == o2 && InBuffer(cube, bufferLen)
      && forall z :: 0 <= z < o2 ==> cube[z] == View(z * (o0 * o1), o0 * o1)
  {
    var area := o0 * o1;
    Arith.MulLe(1, o0, o1);
    RowViews(0, area, o2, bufferLen);
    var cube := SplitArray(View(0, o2 * area), area);
    forall z | 0 <= z < o2
      ensures cube[z] == View(z * area, area)
    {
      assert area * z == z * area;
    }
  }

  /** Plane z of a rank-3 readback split into rows gives the rows `CubeViews` names, inside the buffer. */
  lemma {:induction false} PlaneMatches(o0: nat, o1: nat, o2: nat, z: nat, bufferLen: nat)
    requires o0 >= 1 && o1 >= 1 && z < o2 && o2 * (o0 * o1) <= bufferLen
    ensures var plane := SplitArray(View(z * (o0 * o1), o0 * o1), o0);
      plane == CubeViews(o0, o1, o2)[z] && InBuffer(plane, bufferLen)
  {
    var area := o0 * o1;
    RowEnd(z, o2, area);
    PlaneSplit(o0, o1, area, z * area, bufferLen);
    var plane := SplitArray(View(z * area, area), o0);
    var expected := CubeViews(o0, o1, o2)[z];
    assert forall y :: 0 <= y < o1 ==> plane[y] == expected[y];
  }

  /**
   * The cell that reshaping puts at result[z][y][x] is element
   * x + output[0] * (y + output[1] * z) of the flat buffer, the one the
   * shader computes for thread (x, y, z): `indexTo3D` of that offset gives
   * back (x, y, z).
   */
  lemma {:induction false} ReadbackCellIsThread(output: seq<int>, x: nat, y: nat, z: nat)
    requires |output| == 3 && output[0] >= 1 && output[1] >= 1
    requires x < output[0] && y < output[1]
    ensures z * (output[0] * output[1]) + output[0] * y + x == x + output[0] * (y + output[1] * z)
    ensures ShaderIndex.IndexTo3D(z * (output[0] * output[1]) + output[0] * y + x,
                                  ShaderIndex.Int3(output[0], output[1], output[2]))
            == ShaderIndex.Int3(x, y, z)
  {
    var dims := ShaderIndex.Int3(output[0], output[1], output[2]);
    PlaneOffset(output[0], output[1], y, z);
    ShaderIndex.IndexTo3DOfLinear(ShaderIndex.Int3(x, y, z), dims);
  }
}
