/**
 * The integer index arithmetic compiled into the fragment shader: the int
 * overload of `integerMod`, `indexTo3D` (texel index to thread id), and the
 * linear index and texel coordinate computed by `get`.
 */
module ShaderIndex {
  import Gemm
  import Arith

  /** A GLSL ivec3. */
  datatype Int3 = Int3(x: int, y: int, z: int)

  /** A GLSL ivec2 used as a texel coordinate: column s, row t. */
  datatype Int2 = Int2(s: int, t: int)

  function Abs(x: int): nat { if x < 0 then -x else x }

  /** GLSL integer division, which truncates toward zero (Dafny's `/` is Euclidean). */
  function TruncDiv(x: int, y: int): int
    requires y != 0
  {
    if (x < 0) != (y < 0) then -(Abs(x) / Abs(y)) else Abs(x) / Abs(y)
  }

  /**
   * `int integerMod(int x, int y)`: x - y * int(x / y). The remainder takes the
   * sign of x and is smaller than |y|; on non-negative x and positive y it is
   * the ordinary remainder.
   */
  function IntegerMod(x: int, y: int): (r: int)
    requires y != 0
    ensures Abs(r) < Abs(y)
    ensures x >= 0 ==> r >= 0
    ensures x <= 0 ==> r <= 0
    ensures x >= 0 && y > 0 ==> r == x % y
  {
    x - y * TruncDiv(x, y)
  }

  /** `indexTo3D(idx, texDim)`: splits a texel index into (x, y, z) for a grid of texDim.x by texDim.y planes. */
  function IndexTo3D(idx: int, texDim: Int3): Int3
    requires texDim.x > 0 && texDim.y > 0
  {
    var z := TruncDiv(idx, texDim.x * texDim.y);
    var rest := idx - z * (texDim.x * texDim.y);
    Int3(IntegerMod(rest, texDim.x), TruncDiv(rest, texDim.x), z)
  }

  /** The element index `get` computes for (x, y, z): x + texDim.x * (y + texDim.y * z). */
  function LinearIndex(xyz: Int3, texDim: Int3): int
  {
    xyz.x + texDim.x * (xyz.y + texDim.y * xyz.z)
  }

  /** The texel `get` samples for an element index on a texture w texels wide: (integerMod(index, w), index / w). */
  function TexelOf(index: int, w: int): Int2
    requires w != 0
  {
    Int2(IntegerMod(index, w), TruncDiv(index, w))
  }

  /** Inside a grid of positive extents, indexTo3D undoes the linear index of `get`. */
  lemma {:induction false} IndexTo3DOfLinear(xyz: Int3, texDim: Int3)
    requires texDim.x > 0 && texDim.y > 0
    requires 0 <= xyz.x < texDim.x && 0 <= xyz.y < texDim.y && xyz.z >= 0
    ensures IndexTo3D(LinearIndex(xyz, texDim), texDim) == xyz
  {
    var X, Y := texDim.x, texDim.y;
    var plane := xyz.x + X * xyz.y;
    Arith.MulLe(xyz.y, Y - 1, X);
    assert plane < X * Y;
    var idx := LinearIndex(xyz, texDim);
    assert idx == Gemm.Idx(xyz.z, plane, X * Y);
    Gemm.DivModIdx(xyz.z, plane, X * Y);
    assert TruncDiv(idx, X * Y) == xyz.z;
    assert idx - xyz.z * (X * Y) == plane;
    assert plane == Gemm.Idx(xyz.y, xyz.x, X);
    Gemm.DivModIdx(xyz.y, xyz.x, X);
  }

  /** Every non-negative texel index is the linear index of the thread id indexTo3D gives it. */
  lemma {:induction false} LinearOfIndexTo3D(idx: int, texDim: Int3)
    requires texDim.x > 0 && texDim.y > 0 && idx >= 0
    ensures var t := IndexTo3D(idx, texDim);
      && 0 <= t.x < texDim.x && 0 <= t.y < texDim.y && t.z >= 0
      && LinearIndex(t, texDim) == idx
  {
    var X, Y := texDim.x, texDim.y;
    var z := idx / (X * Y);
    var rest := idx % (X * Y);
    assert idx == z * (X * Y) + rest;
    var y := rest / X;
    assert rest == y * X + rest % X;
    if y >= Y {
      Arith.MulLe(Y, y, X);
      assert false;
    }
  }

  /**
   * On a texture w texels wide and h high, an element index below w*h lands
   * on a texel inside the grid, and the texel's row-major position is the index.
   */
  lemma {:induction false} TexelOfInGrid(index: int, w: int, h: int)
    requires w > 0 && 0 <= index < w * h
    ensures var st := TexelOf(index, w);
      && 0 <= st.s < w && 0 <= st.t < h && st.s + w * st.t == index
  {
    var t := index / w;
    assert index == t * w + index % w;
    if t >= h {
      Arith.MulLe(h, t, w);
      assert false;
    }
  }
}
