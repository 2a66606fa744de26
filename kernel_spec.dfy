/**
 * Values and facts the `Kernel` class is specified with: its parameter list,
 * how `_addArgument` chooses a binding, the uniform-location memo, the
 * length of the array handed to `_formatArrayTransfer`, and the row-major
 * layout of a matrix argument.
 */
module KernelSpec {
  import opened Wrappers
  import opened Values
  import opened Device
  import Flatten
  import TexSize
  import Arith

  /** The kernel's parameters, in the order the BLAS-style entry point passes them. */
  const ParamNames: seq<string> := ["a", "b", "c", "lda", "ldb", "ldc", "m", "n", "k", "alpha", "beta"]

  /** The parameter types the kernel starts with, before a build recomputes them. */
  const InitialParamTypes: seq<ArgType> :=
    [ArrayArg, ArrayArg, ArrayArg, Integer, Integer, Integer, Integer, Integer, Integer, Float, Float]

  /** The location `getUniformLocation` answers for `name`, given the memo and the device's next handle. */
  function LocationAfter(cache: map<string, nat>, name: string, next: nat): nat
  {
    if name in cache then cache[name] else next
  }

  /** The device calls `getUniformLocation` makes: one lookup, on a miss only. */
  function Lookups(cache: map<string, nat>, name: string, next: nat): seq<GlCall>
  {
    if name in cache then [] else [GetUniformLocation(name, next)]
  }

  /** The memo after `getUniformLocation(name)`. */
  function Located(cache: map<string, nat>, name: string, next: nat): map<string, nat>
  {
    cache[name := LocationAfter(cache, name, next)]
  }

  /** The device's next handle after `getUniformLocation(name)`. */
  function HandleAfter(cache: map<string, nat>, name: string, next: nat): nat
  {
    if name in cache then next else next + 1
  }

  /** Which case of `_addArgument`'s switch a value reaches; a Texture value forces the Texture case. */
  datatype Binding =
    | ArrayBinding | ScalarBinding | InputBinding | ImageBinding | ImageArrayBinding | TextureBinding
    | Unsupported

  function BindingOf(value: Value, argType: Option<ArgType>): Binding
  {
    if value.Tex? then TextureBinding
    else match argType
      case Some(ArrayArg) => ArrayBinding
      case Some(Integer) => ScalarBinding
      case Some(Float) => ScalarBinding
      case Some(InputArg) => InputBinding
      case Some(HTMLImage) => ImageBinding
      case Some(HTMLImageArray) => ImageArrayBinding
      case Some(TextureArg) => TextureBinding
      case _ => Unsupported
  }

  /** `arguments[i]` of a call: the argument, or undefined past the end. */
  function ArgAt(args: seq<Value>, i: nat): Value
  {
    if i < |args| then args[i] else Undefined
  }

  /** `paramTypes[i]`: the recorded type, or none past the end. */
  function TypeAt(types: seq<ArgType>, i: nat): Option<ArgType>
  {
    if i < |types| then Some(types[i]) else None
  }

  /** Bindings that occupy a texture unit (all but scalars). */
  predicate Sampled(b: Binding)
  {
    b != ScalarBinding && b != Unsupported
  }

  /**
   * An argument run with the type the build computed for it is always bound,
   * except an object of unknown kind: `_addArgument` has a case for every
   * type `getArgumentType` can return but 'Unknown' (and 'TextureVec4',
   * which only a Texture has, and a Texture forces the Texture case).
   */
  lemma {:induction false} OwnTypeIsSupported(arg: Value, t: ArgType)
    requires GetArgumentType(arg) == Ok(t)
    ensures BindingOf(arg, Some(t)) == Unsupported <==> arg.OtherObject?
    ensures t == Integer || t == Float <==> BindingOf(arg, Some(t)) == ScalarBinding
  {
  }

  /**
   * The types `setupParams` records: one per argument, stopping at the first
   * argument `getArgumentType` throws on.
   */
  function KnownTypes(args: seq<Value>): (r: seq<ArgType>)
    ensures |r| <= |args|
    ensures forall i :: 0 <= i < |r| ==> GetArgumentType(args[i]) == Ok(r[i])
    ensures |r| < |args| ==> GetArgumentType(args[|r|]).Err?
  {
    if |args| == 0 then []
    else match GetArgumentType(args[0])
      case Err(_) => []
      case Ok(t) => [t] + KnownTypes(args[1..])
  }

  /** The properties of `KnownTypes` determine it. */
  lemma {:induction false} KnownTypesUnique(args: seq<Value>, types: seq<ArgType>)
    requires |types| <= |args|
    requires forall i :: 0 <= i < |types| ==> GetArgumentType(args[i]) == Ok(types[i])
    requires |types| < |args| ==> GetArgumentType(args[|types|]).Err?
    ensures types == KnownTypes(args)
  {
    if |args| > 0 {
      if |types| == 0 {
        assert GetArgumentType(args[0]).Err?;
      } else {
        assert GetArgumentType(args[0]) == Ok(types[0]);
        var rest := types[1..];
        forall i | 0 <= i < |rest|
          ensures GetArgumentType(args[1..][i]) == Ok(rest[i])
        {
          assert GetArgumentType(args[i + 1]) == Ok(types[i + 1]);
        }
        if |rest| < |args[1..]| {
          assert GetArgumentType(args[|types|]).Err?;
        }
        KnownTypesUnique(args[1..], rest);
        assert types == [types[0]] + rest;
      }
    }
  }

  /**
   * The number of floats the upload of a w x h argument texture holds: four
   * per texel with float textures (RGBA32F), one per texel otherwise.
   */
  function UploadLength(w: nat, h: nat, floatTextures: bool): nat
  {
    if floatTextures then 4 * (w * h) else w * h
  }

  /** The length `_addArgument` passes to `_formatArrayTransfer` as written: one per texel in every mode. */
  function UploadLengthAsWritten(w: nat, h: nat): nat
  {
    w * h
  }

  /**
   * As written, with float textures the flattening target is too short for
   * every argument of two or more values: the grid `dimToTexSize` returns for
   * n values has about n/4 texels, and the target gets one float per texel,
   * so the first `target.set` past the end throws a RangeError.
   */
  lemma {:induction false} AsWrittenFloatUploadTooShort(n: nat, w: nat, h: nat)
    requires n >= 2 && w >= 1 && h >= 1
    requires w * (h - 1) < TexSize.CeilDiv(n, 4) && w <= TexSize.CeilDiv(n, 4)
    ensures UploadLengthAsWritten(w, h) < n
  {
    var c := TexSize.CeilDiv(n, 4);
    assert 4 * c <= n + 3;
    assert w * h == w * (h - 1) + w;
  }

  /**
   * With the corrected length the target always holds every value of the
   * argument, in both modes, for any grid `dimToTexSize` may return.
   */
  lemma {:induction false} UploadFits(dims: seq<int>, floatTextures: bool, w: nat, h: nat)
    requires forall i :: 0 <= i < |dims| ==> dims[i] >= 1
    requires w * h >= TexSize.TexelCount(dims, TexSize.PackedMode(floatTextures, false, false))
    ensures UploadLength(w, h, floatTextures) >= TexSize.Product(dims)
  {
    TexSize.ProductPositive(dims);
    if floatTextures {
      TexSize.CeilDivBounds(TexSize.Product(dims), 4);
    }
  }

  /** `n` zeros: what a fresh Float32Array holds. */
  function Zeros(n: nat): (r: seq<real>)
    ensures |r| == n && forall i :: 0 <= i < n ==> r[i] == 0.0
  {
    seq(n, _ => 0.0)
  }

  /**
   * A plain nested array of `rows` rows of `cols` numbers each: the shape of
   * the matrices a, b and c.
   */
  predicate Matrix(value: Value, rows: nat, cols: nat)
  {
    && value.List? && value.cls == PlainArray && |value.items| == rows >= 1 && cols >= 1
    && (forall y :: 0 <= y < rows ==> value.items[y].List? && |value.items[y].items| == cols)
    && (forall y, x :: 0 <= y < rows && 0 <= x < cols ==> value.items[y].items[x].Number?)
  }

  /** Row y of a matrix holds y * cols values before it once flattened. */
  lemma {:induction false} ConcatRectangular(rows: seq<seq<real>>, cols: nat, y: nat)
    requires forall i :: 0 <= i < |rows| ==> |rows[i]| == cols
    requires y <= |rows|
    ensures |Flatten.Concat(rows[..y])| == y * cols
  {
    if y > 0 {
      ConcatRectangular(rows, cols, y - 1);
      assert rows[..y] == rows[..y - 1] + [rows[y - 1]];
      Flatten.ConcatAppend(rows[..y - 1], rows[y - 1]);
    }
  }

  /** Entry (y, x) of a rectangular grid sits at y * cols + x of its concatenation. */
  lemma {:induction false} EntryAt(grid: seq<seq<real>>, cols: nat, y: nat, x: nat)
    requires forall i :: 0 <= i < |grid| ==> |grid[i]| == cols
    requires y < |grid| && x < cols && x < |grid[y]|
    ensures |Flatten.Concat(grid)| == |grid| * cols
    ensures y * cols + x < |grid| * cols
    ensures Flatten.Concat(grid)[y * cols + x] == grid[y][x]
  {
    ConcatRectangular(grid, cols, y);
    ConcatRectangular(grid, cols, |grid|);
    assert grid[..|grid|] == grid;
    Flatten.ConcatAt(grid, y, x);
    Arith.MulLe(y + 1, |grid|, cols);
  }

  /** The rows `flattenTo` copies out of a matrix, each of `cols` numbers. */
  lemma {:induction false} MatrixRows(value: Value, rows: nat, cols: nat) returns (grid: seq<seq<real>>)
    requires Matrix(value, rows, cols)
    ensures Flatten.Flattened(value) == Some(Flatten.Concat(grid))
    ensures |grid| == rows && forall y :: 0 <= y < rows ==> |grid[y]| == cols
    ensures forall y, x :: 0 <= y < rows && 0 <= x < cols ==> grid[y][x] == value.items[y].items[x].n
  {
    assert First(value) == value.items[0] && First(First(value)) == value.items[0].items[0];
    assert Flatten.AsNumbers(value.items[0]).Some?;
    grid := Flatten.AsRows(value).value;
    forall y, x | 0 <= y < rows && 0 <= x < cols
      ensures grid[y][x] == value.items[y].items[x].n
    {
      assert Flatten.AsNumbers(value.items[y]) == Some(grid[y]);
    }
  }

  /**
   * `flattenTo` lays a matrix out row-major: rows * cols values, entry (y, x)
   * at y * cols + x.
   */
  lemma {:induction false} MatrixEntries(value: Value, rows: nat, cols: nat, y: nat, x: nat)
    requires Matrix(value, rows, cols) && y < rows && x < cols
    ensures Flatten.Flattened(value).Some?
    ensures |Flatten.Flattened(value).value| == rows * cols
    ensures y * cols + x < rows * cols
    ensures Flatten.Flattened(value).value[y * cols + x] == value.items[y].items[x].n
  {
    var grid := MatrixRows(value, rows, cols);
    EntryAt(grid, cols, y, x);
  }

  /** A rectangular grid of `cols` columns concatenates to |grid| * cols values. */
  lemma {:induction false} ConcatLength(grid: seq<seq<real>>, cols: nat)
    requires forall i :: 0 <= i < |grid| ==> |grid[i]| == cols
    ensures |Flatten.Concat(grid)| == |grid| * cols
  {
    ConcatRectangular(grid, cols, |grid|);
    assert grid[..|grid|] == grid;
  }

  /**
   * A matrix is flattened with bit ratio 1 in both modes, its padded
   * dimensions are [cols, rows, 1], and it flattens to rows * cols values.
   */
  lemma {:induction false} MatrixLayout(value: Value, rows: nat, cols: nat, floatTextures: bool)
    requires Matrix(value, rows, cols)
    ensures TransferPlanOf(value, floatTextures) == Ok(TransferPlan(1, true))
    ensures Padded(Dimensions(value), true) == Ok([cols, rows, 1])
    ensures Flatten.Flattened(value).Some? && |Flatten.Flattened(value).value| == rows * cols
  {
    MatrixDimensions(rows, cols, value);
    assert First(value) == value.items[0];
    var grid := MatrixRows(value, rows, cols);
    ConcatLength(grid, cols);
  }

  /** A matrix's padded dimensions count its entries. */
  lemma {:induction false} MatrixProduct(rows: int, cols: int)
    ensures TexSize.Product([cols, rows, 1]) == rows * cols
  {
    assert [cols, rows, 1][..2] == [cols, rows] && [cols, rows][..1] == [cols] && [cols][..0] == [];
    assert TexSize.Product([cols]) == cols;
  }

  /** The entries of a matrix argument, row-major: what flattening it gives. */
  ghost function MatrixValues(value: Value): (xs: seq<real>)
    requires IsMatrix(value)
    ensures Flatten.Flattened(value) == Some(xs)
  {
    MatrixLayout(value, |value.items|, |value.items[0].items|, false);
    Flatten.Flattened(value).value
  }

  /** A nested array of rows of numbers, all rows as long as the first: a matrix argument. */
  predicate IsMatrix(value: Value)
  {
    value.List? && |value.items| >= 1 && value.items[0].List?
    && Matrix(value, |value.items|, |value.items[0].items|)
  }

  /** `data` starts with `values` and is zero after them. */
  predicate ZeroPadded(data: seq<real>, values: seq<real>)
  {
    |values| <= |data| && data[..|values|] == values
    && forall i :: |values| <= i < |data| ==> data[i] == 0.0
  }

  /** Binding one argument leaves every other texture unit as it was. */
  ghost predicate OtherUnitsKept(before: map<(int, Target), nat>, after: map<(int, Target), nat>, unit: int)
  {
    forall key :: key in before && key.0 != unit ==> key in after && after[key] == before[key]
  }

  /** Every binding on a unit outside [lo, hi) is as it was. */
  ghost predicate UnitsKeptOutside(before: map<(int, Target), nat>, after: map<(int, Target), nat>, lo: int, hi: int)
  {
    forall key :: key in before && !(lo <= key.0 < hi) ==> key in after && after[key] == before[key]
  }

  /** Binding one more unit, `hi`, widens the range outside which nothing changed by one. */
  lemma {:induction false} UnitsKeptStep(b0: map<(int, Target), nat>, b1: map<(int, Target), nat>, b2: map<(int, Target), nat>, lo: int, hi: int)
    requires lo <= hi
    requires UnitsKeptOutside(b0, b1, lo, hi) && OtherUnitsKept(b1, b2, hi)
    ensures UnitsKeptOutside(b0, b2, lo, hi + 1)
  {
  }

  /**
   * After an argument was bound on `unit`: its type is one `_addArgument`
   * handles, and when it takes a texture unit, its texture (its own, for a
   * Texture value, else the one memoised for its name in `cache`) is bound
   * there on its target.
   */
  ghost predicate ArgumentBound(value: Value, argType: Option<ArgType>, name: string, unit: int,
                                cache: map<string, nat>, bound: map<(int, Target), nat>)
  {
    var b := BindingOf(value, argType);
    && b != Unsupported
    && (Sampled(b) ==>
      && "ARGUMENT_" + name in cache
      && (unit, TargetOf(b)) in bound
      && bound[(unit, TargetOf(b))] == if value.Tex? then value.texture.handle else cache["ARGUMENT_" + name])
  }

  /** The first `n` arguments are bound, argument j on unit lo + j. */
  ghost predicate AllBound(args: seq<Value>, types: seq<ArgType>, names: seq<string>, lo: int, n: nat,
                           cache: map<string, nat>, bound: map<(int, Target), nat>)
  {
    forall j :: 0 <= j < n && j < |names| ==>
      ArgumentBound(ArgAt(args, j), TypeAt(types, j), names[j], lo + j, cache, bound)
  }

  /**
   * Binding argument n on unit lo + n, keeping every other unit and every
   * memoised texture, extends the bound prefix by one.
   */
  lemma {:induction false} AllBoundStep(args: seq<Value>, types: seq<ArgType>, names: seq<string>, lo: int, n: nat,
                     cache0: map<string, nat>, bound0: map<(int, Target), nat>,
                     cache1: map<string, nat>, bound1: map<(int, Target), nat>)
    requires n < |names| && AllBound(args, types, names, lo, n, cache0, bound0)
    requires forall k :: k in cache0 ==> k in cache1 && cache1[k] == cache0[k]
    requires OtherUnitsKept(bound0, bound1, lo + n)
    requires ArgumentBound(ArgAt(args, n), TypeAt(types, n), names[n], lo + n, cache1, bound1)
    ensures AllBound(args, types, names, lo, n + 1, cache1, bound1)
  {
    forall j | 0 <= j < n + 1 && j < |names|
      ensures ArgumentBound(ArgAt(args, j), TypeAt(types, j), names[j], lo + j, cache1, bound1)
    {
      if j < n {
        assert ArgumentBound(ArgAt(args, j), TypeAt(types, j), names[j], lo + j, cache0, bound0);
      }
    }
  }

  /** A texture size over a registry entry that covers it lies in (0, 1]. */
  lemma {:induction false} RatioInUnit(size: int, max: int)
    requires 1 <= size <= max
    ensures 0.0 < size as real / max as real <= 1.0
  {
    assert size as real <= max as real;
  }

  /** The texture target each sampled binding uses. */
  function TargetOf(b: Binding): Target
  {
    if b == ImageArrayBinding then Texture2DArray else Texture2D
  }

  /** Every element of an image array is an image. */
  predicate AllImages(images: seq<Value>)
  {
    forall i :: 0 <= i < |images| ==> images[i].Image?
  }

  /** The layer uploads of an image array, one per image, in order. */
  function LayerCalls(images: seq<Value>): (r: seq<GlCall>)
    requires AllImages(images)
    ensures |r| == |images|
    ensures forall i :: 0 <= i < |images| ==> r[i] == TexSubImage3D(i, images[i].width, images[i].height)
  {
    seq(|images|, i requires 0 <= i < |images| => TexSubImage3D(i, images[i].width, images[i].height))
  }
}

