/**
 * The texture-size planner (`utils.dimToTexSize`) and the output-shape check
 * (`utils.checkOutput`).
 */
module TexSize {
  import Arith

  /** Product of all entries; the element count of a shape. */
  function Product(dims: seq<int>): int
  {
    if |dims| == 0 then 1 else Product(dims[..|dims| - 1]) * dims[|dims| - 1]
  }

  lemma {:induction false} ProductPositive(dims: seq<int>)
    requires forall i :: 0 <= i < |dims| ==> dims[i] >= 1
    ensures Product(dims) >= 1
  {
    if |dims| > 0 {
      ProductPositive(dims[..|dims| - 1]);
    }
  }

  /** Math.ceil(n / d) for non-negative n and positive d. */
  function CeilDiv(n: nat, d: nat): nat
    requires d > 0
  {
    (n + d - 1) / d
  }

  /** ceil(n / d) is the least q with d * q >= n. */
  lemma {:induction false} CeilDivBounds(n: nat, d: nat)
    requires d > 0
    ensures d * CeilDiv(n, d) >= n
    ensures d * (CeilDiv(n, d) - 1) < n
  {
    var q: int := CeilDiv(n, d);
    assert n + d - 1 == d * q + (n + d - 1) % d;
    assert d * (q - 1) == d * q - d;
  }

  /** For n >= 1 and d >= 1, ceil(n / d) lies between 1 and n. */
  lemma {:induction false} CeilDivRange(n: nat, d: nat)
    requires n >= 1 && d >= 1
    ensures 1 <= CeilDiv(n, d) <= n
  {
    CeilDivBounds(n, d);
    var q := CeilDiv(n, d);
    if q >= 1 {
      Arith.MulLe(1, d, q - 1);
    }
  }

  /** Integer square root from below: Math.floor(Math.sqrt(n)). */
  function FloorSqrt(n: nat): (r: nat)
    ensures r * r <= n < (r + 1) * (r + 1)
  {
    SqrtFrom(n, 0)
  }

  function SqrtFrom(n: nat, r: nat): (s: nat)
    requires r * r <= n
    ensures s * s <= n < (s + 1) * (s + 1)
    decreases n - r
  {
    if (r + 1) * (r + 1) > n then r else SqrtFrom(n, r + 1)
  }

  lemma {:induction false} FloorSqrtRange(n: nat)
    requires n >= 1
    ensures 1 <= FloorSqrt(n) <= n
  {
    var r := FloorSqrt(n);
    if r >= 1 {
      Arith.MulLe(1, r, r);
    }
  }

  /** Integer square root from above: Math.ceil(Math.sqrt(n)). */
  function CeilSqrt(n: nat): (r: nat)
    ensures n <= r * r
    ensures r > 0 ==> (r - 1) * (r - 1) < n
  {
    var f := FloorSqrt(n);
    if f * f == n then f else f + 1
  }

  /**
   * The number of texels a shape needs: its element count, or a quarter of it
   * rounded up when four values share a float texel (float textures on, and the
   * texture is an argument or float output is on).
   */
  function TexelCount(dims: seq<int>, packed: bool): int
  {
    if packed && Product(dims) >= 0 then CeilDiv(Product(dims), 4) else Product(dims)
  }

  /** The condition in `dimToTexSize` under which four values share a texel. */
  predicate PackedMode(floatTextures: bool, floatOutput: bool, output: bool)
  {
    floatTextures && (!output || floatOutput)
  }

  /**
   * `dimToTexSize`: the texel grid [w, h] for a shape. When the shape's second
   * extent already tiles the texel count it is kept; otherwise a near-square
   * factor pair is searched downward from the square root. The grid always
   * holds every texel, with no wholly empty last row.
   */
  method DimToTexSize(floatTextures: bool, floatOutput: bool, dimensions: seq<int>, output: bool)
    returns (w: int, h: int)
    requires |dimensions| >= 1
    requires forall i :: 0 <= i < |dimensions| ==> dimensions[i] >= 1
    ensures w >= 1 && h >= 1
    ensures var n := TexelCount(dimensions, PackedMode(floatTextures, floatOutput, output));
      w * h >= n && w * (h - 1) < n && w <= n
    ensures !PackedMode(floatTextures, floatOutput, output) && |dimensions| >= 2 && dimensions[1] > 1
            && dimensions[0] * dimensions[1] == Product(dimensions)
            ==> w == dimensions[0] && h == dimensions[1]
  {
    var numTexels := dimensions[0];
    w := dimensions[0];
    var i := 1;
    while i < |dimensions|
      invariant 1 <= i <= |dimensions|
      invariant numTexels == Product(dimensions[..i])
    {
      assert dimensions[..i + 1][..i] == dimensions[..i];
      numTexels := numTexels * dimensions[i];
      i := i + 1;
    }
    assert dimensions[..i] == dimensions;
    ProductPositive(dimensions);
    var packed := PackedMode(floatTextures, floatOutput, output);
    if packed {
      numTexels := CeilDiv(numTexels, 4);
      w := numTexels;
    }
    assert numTexels == TexelCount(dimensions, packed) && numTexels >= 1;
    if |dimensions| >= 2 && dimensions[1] > 1 && w * dimensions[1] == numTexels {
      h := dimensions[1];
      Arith.MulLe(1, h, w);
      return;
    }
    w, h := NearSquare(numTexels);
  }

  /**
   * The search at the end of `dimToTexSize`: start from the ceiling and floor
   * of the square root and lower `high` until high * low fits n, then take
   * w = low and h = ceil(n / w).
   */
  method NearSquare(n: nat) returns (w: int, h: int)
    requires n >= 1
    ensures w >= 1 && h >= 1
    ensures w * h >= n && w * (h - 1) < n && w <= n
  {
    var high := CeilSqrt(n);
    var low := FloorSqrt(n);
    FloorSqrtRange(n);
    while high * low > n
      invariant 1 <= low <= n && 1 <= high
      decreases high
    {
      high := high - 1;
      low := CeilDiv(n, high);
      CeilDivRange(n, high);
    }
    w := low;
    h := CeilDiv(n, w);
    CeilDivBounds(n, w);
    CeilDivRange(n, w);
  }

  /** One axis of a declared output shape: a number, or a value JavaScript's isNaN rejects. */
  datatype Axis = Num(v: real) | NotANumber

  predicate BadAxis(a: Axis) { a.NotANumber? || a.v < 1.0 }

  /** Outcome of `checkOutput`: it returns, or throws naming the first bad axis. */
  datatype CheckOutcome = Accepted | Rejected(index: nat)

  /**
   * `checkOutput`: throws iff some axis is not a number or is below 1, and the
   * error names the first such axis.
   */
  function CheckOutput(output: seq<Axis>): (r: CheckOutcome)
    ensures r.Accepted? <==> forall i :: 0 <= i < |output| ==> !BadAxis(output[i])
    ensures r.Rejected? ==> r.index < |output| && BadAxis(output[r.index])
                            && forall j :: 0 <= j < r.index ==> !BadAxis(output[j])
  {
    CheckFrom(output, 0)
  }

  function CheckFrom(output: seq<Axis>, i: nat): (r: CheckOutcome)
    requires i <= |output|
    ensures r.Accepted? <==> forall j :: i <= j < |output| ==> !BadAxis(output[j])
    ensures r.Rejected? ==> i <= r.index < |output| && BadAxis(output[r.index])
                            && forall j :: i <= j < r.index ==> !BadAxis(output[j])
    decreases |output| - i
  {
    if i == |output| then Accepted
    else if BadAxis(output[i]) then Rejected(i)
    else CheckFrom(output, i + 1)
  }
}
