/**
 * Host-side argument values and the utilities that inspect them:
 * `utils.getArgumentType`, `utils.getDimensions`, the `Input` wrapper and
 * the bit-ratio choice of `Kernel._formatArrayTransfer`.
 */
module Values {
  import opened Wrappers

  /** The constructor of an array-like argument: a plain Array or one of the typed arrays. */
  datatype ArrayClass =
    | PlainArray | Uint8 | Int8 | Uint16 | Int16 | Float32 | Int32 | OtherTyped

  /**
   * A JavaScript argument value. Array-likes (plain and typed arrays) are
   * `List`; a typed array holds `Number`s. Textures and Inputs are objects
   * whose shape arrays are shared by reference.
   */
  datatype Value =
    | Undefined
    | Number(n: real)
    | List(cls: ArrayClass, items: seq<Value>)
    | Tex(texture: Texture)
    | Wrapped(input: Input)
    | Image(width: int, height: int)
    | OtherObject

  /** A device-resident array: a texture handle with its texel grid, padded dimensions and declared output shape. */
  class Texture {
    const handle: nat
    const size: array<int>
    const dimensions: array<int>
    const output: array<int>
    /** `type === 'vec4'` */
    const vec4: bool

    constructor (handle: nat, size: array<int>, dimensions: array<int>, output: array<int>, vec4: bool)
      ensures this.handle == handle && this.size == size && this.dimensions == dimensions
      ensures this.output == output && this.vec4 == vec4
    {
      this.handle := handle;
      this.size := size;
      this.dimensions := dimensions;
      this.output := output;
      this.vec4 := vec4;
    }
  }

  /**
   * The `size` argument of `new Input(value, size)`: a JavaScript Array, or an
   * object {x, y, z} whose missing or zero components are falsy (written 0 here).
   */
  datatype SizeArg = SizeList(items: seq<int>) | SizeObject(x: int, y: int, z: int)

  function Ones(n: nat): (r: seq<int>)
    ensures |r| == n && forall i :: 0 <= i < n ==> r[i] == 1
  {
    if n == 0 then [] else Ones(n - 1) + [1]
  }

  /** A shape padded with trailing 1s to at least three axes. */
  function PadTo3(s: seq<int>): (r: seq<int>)
    ensures |r| == if |s| >= 3 then |s| else 3
    ensures r[..|s|] == s
    ensures forall i :: |s| <= i < |r| ==> r[i] == 1
  {
    if |s| >= 3 then s else s + Ones(3 - |s|)
  }

  /** The size vector `new Input(value, size)` stores. */
  function InputSize(size: SizeArg): (r: seq<int>)
    ensures |r| >= 3
    ensures size.SizeList? ==> r == PadTo3(size.items)
    ensures size.SizeObject? ==> r == [size.x, if size.y != 0 || size.z != 0 then size.y else 1,
                                       if size.z != 0 then size.z else 1]
  {
    match size
    case SizeList(items) => PadTo3(items)
    case SizeObject(x, y, z) =>
      if z != 0 then [x, y, z] else if y != 0 then [x, y, 1] else [x, 1, 1]
  }

  /** A host buffer paired with an explicit shape, padded to three axes. */
  class Input {
    const value: Value
    const size: array<int>

    /**
     * `new Input(value, size)`: an Array size is copied element by element and
     * padded with 1s up to three entries; an {x, y, z} size keeps x and the
     * truthy y and z.
     */
    constructor (value: Value, size: SizeArg)
      ensures this.value == value
      ensures fresh(this.size) && this.size[..] == InputSize(size)
    {
      this.value := value;
      var s: seq<int> := [];
      match size {
        case SizeList(items) =>
          var i := 0;
          while i < |items|
            invariant 0 <= i <= |items| && s == items[..i]
          {
            s := s + [items[i]];
            i := i + 1;
          }
          assert s == items;
          while |s| < 3
            invariant |items| <= |s| <= (if |items| >= 3 then |items| else 3)
            invariant s == items + Ones(|s| - |items|)
          {
            s := s + [1];
          }
        case SizeObject(x, y, z) =>
          if z != 0 {
            s := [x, y, z];
          } else if y != 0 {
            s := [x, y, 1];
          } else {
            s := [x, 1, 1];
          }
      }
      this.size := new int[|s|](i requires 0 <= i < |s| => s[i]);
    }
  }

  /** What `getArgumentType` can answer. */
  datatype ArgType =
    | ArrayArg | HTMLImageArray | Integer | Float | TextureArg | TextureVec4 | InputArg | HTMLImage | Unknown

  /** `utils.isArray`: whether the value has a numeric length. Reading `.length` of undefined throws. */
  function IsArray(v: Value): (r: Result<bool>)
    ensures r.Err? <==> v.Undefined?
    ensures r == Ok(true) <==> v.List?
  {
    match v
    case Undefined => Err("TypeError: cannot read length of undefined")
    case List(_, _) => Ok(true)
    case _ => Ok(false)
  }

  /** `v[0]`: the first element of an array-like, undefined otherwise. */
  function First(v: Value): Value
  {
    if v.List? && |v.items| > 0 then v.items[0] else Undefined
  }

  predicate IsInteger(x: real) { x.Floor as real == x }

  /**
   * `utils.getArgumentType`: array-likes first (an image as first element
   * makes an image array), then numbers (Integer iff integral), then Texture
   * (vec4 or not), Input, a single image, else Unknown. Probing undefined,
   * or the `nodeName` of an array's undefined first element (an empty
   * array's included), throws.
   */
  function GetArgumentType(arg: Value): (r: Result<ArgType>)
    ensures r.Err? <==> arg.Undefined? || (arg.List? && First(arg).Undefined?)
    ensures r == Ok(HTMLImageArray) <==> arg.List? && First(arg).Image?
    ensures r == Ok(ArrayArg) <==> arg.List? && !First(arg).Undefined? && !First(arg).Image?
    ensures r == Ok(Integer) <==> arg.Number? && IsInteger(arg.n)
    ensures r == Ok(Float) <==> arg.Number? && !IsInteger(arg.n)
    ensures r == Ok(TextureVec4) <==> arg.Tex? && arg.texture.vec4
    ensures r == Ok(TextureArg) <==> arg.Tex? && !arg.texture.vec4
    ensures r == Ok(InputArg) <==> arg.Wrapped?
    ensures r == Ok(HTMLImage) <==> arg.Image?
    ensures r == Ok(Unknown) <==> arg.OtherObject?
  {
    match IsArray(arg)
    case Err(e) => Err(e)
    case Ok(isArray) =>
      if isArray then
        if First(arg).Undefined? then Err("TypeError: cannot read nodeName of undefined")
        else if arg.items[0].Image? then Ok(HTMLImageArray) else Ok(ArrayArg)
      else match arg
        case Number(n) => if IsInteger(n) then Ok(Integer) else Ok(Float)
        case Tex(t) => if t.vec4 then Ok(TextureVec4) else Ok(TextureArg)
        case Wrapped(_) => Ok(InputArg)
        case Image(_, _) => Ok(HTMLImage)
        case _ => Ok(Unknown)
  }

  /**
   * The lengths met by following first elements down a nested array,
   * outermost first; reaching undefined (an empty array's first element)
   * throws.
   */
  function NestedLengths(v: Value): (r: Result<seq<int>>)
    ensures r.Ok? ==> |r.value| == Depth(v)
    ensures r.Ok? && v.List? ==> |r.value| >= 1 && r.value[0] == |v.items|
    ensures r.Ok? && v.List? ==> NestedLengths(v.items[0]) == Ok(r.value[1..])
    ensures r.Err? <==> ChainEnd(v).Undefined? || ChainEnd(v).List?
  {
    match v
    case Undefined => Err("TypeError: cannot read length of undefined")
    case List(_, items) =>
      if |items| == 0 then Err("TypeError: cannot read length of undefined")
      else (match NestedLengths(items[0])
            case Ok(d) => Ok([|items|] + d)
            case Err(e) => Err(e))
    case _ => Ok([])
  }

  function Reverse(s: seq<int>): (r: seq<int>)
    ensures |r| == |s| && forall i :: 0 <= i < |s| ==> r[i] == s[|s| - 1 - i]
  {
    if s == [] then [] else Reverse(s[1..]) + [s[0]]
  }

  /** Where following first elements stops: undefined, an empty array, or a non-array. */
  function ChainEnd(v: Value): Value
  {
    if v.List? && |v.items| > 0 then ChainEnd(v.items[0]) else v
  }

  /** Height of the first-element chain, the measure `getDimensions`' loop goes down. */
  function Depth(v: Value): nat
  {
    if v.List? && |v.items| > 0 then 1 + Depth(v.items[0]) else 0
  }

  /**
   * The shape `getDimensions` reports before padding: nested lengths
   * innermost first for an array, a Texture's `output`, an Input's `size`;
   * anything else throws.
   */
  function Dimensions(x: Value): Result<seq<int>>
    reads if x.Tex? then {x.texture.output} else {}
    reads if x.Wrapped? then {x.input.size} else {}
  {
    match x
    case List(_, _) =>
      (match NestedLengths(x)
       case Ok(d) => Ok(Reverse(d))
       case Err(e) => Err(e))
    case Tex(t) => Ok(t.output[..])
    case Wrapped(i) => Ok(i.size[..])
    case Undefined => Err("TypeError: cannot read length of undefined")
    case _ => Err("Unknown dimensions")
  }

  function Padded(r: Result<seq<int>>, pad: bool): Result<seq<int>>
  {
    if pad && r.Ok? then Ok(PadTo3(r.value)) else r
  }

  /**
   * The first half of `utils.getDimensions` on an array: while the probed
   * value is an array, push its length and step to its first element.
   */
  method ChainLengths(x: Value) returns (r: Result<seq<int>>)
    requires x.List?
    ensures r == NestedLengths(x)
  {
    var dim: seq<int> := [];
    var temp := x;
    var probe := IsArray(temp);
    while probe == Ok(true)
      invariant probe == IsArray(temp)
      invariant NestedLengths(x).Ok? <==> NestedLengths(temp).Ok?
      invariant NestedLengths(temp).Ok? ==> NestedLengths(x).value == dim + NestedLengths(temp).value
      invariant NestedLengths(temp).Err? ==> NestedLengths(x) == NestedLengths(temp)
      decreases Depth(temp) + (if temp.List? then 1 else 0)
    {
      dim := dim + [|temp.items|];
      temp := First(temp);
      probe := IsArray(temp);
    }
    if probe.Err? {
      return Err(probe.error);
    }
    assert dim + [] == dim;
    r := Ok(dim);
  }

  /** The padding loop of `utils.getDimensions`: push 1 until there are three entries. */
  method PadShape(s: seq<int>) returns (r: seq<int>)
    ensures r == PadTo3(s)
  {
    r := s;
    while |r| < 3
      invariant |s| <= |r| <= (if |s| >= 3 then |s| else 3)
      invariant r == s + Ones(|r| - |s|)
    {
      r := r + [1];
    }
  }

  /**
   * `utils.getDimensions(x, pad)`: nested lengths reversed (innermost first)
   * for an array, a Texture's `output`, an Input's `size`, else an error;
   * with `pad`, padded to three entries.
   */
  method GetDimensions(x: Value, pad: bool) returns (r: Result<seq<int>>)
    ensures r == Padded(Dimensions(x), pad)
  {
    var ret: seq<int>;
    if x.List? {
      var lengths := ChainLengths(x);
      if lengths.Err? {
        return lengths;
      }
      ret := Reverse(lengths.value);
    } else if x.Tex? {
      ret := x.texture.output[..];
    } else if x.Wrapped? {
      ret := x.input.size[..];
    } else if x.Undefined? {
      return Err("TypeError: cannot read length of undefined");
    } else {
      return Err("Unknown dimensions");
    }
    if pad {
      ret := PadShape(ret);
    }
    r := Ok(ret);
  }

  /**
   * How `_formatArrayTransfer` hands an array to the texture upload: the
   * number of values packed per texel channel group, and whether the values
   * are first flattened into a fresh Float32Array.
   */
  datatype TransferPlan = TransferPlan(bitRatio: nat, flatten: bool)

  predicate EightBit(v: Value) { v.List? && (v.cls == Uint8 || v.cls == Int8) }

  predicate SixteenBit(v: Value) { v.List? && (v.cls == Uint16 || v.cls == Int16) }

  predicate ThirtyTwoBit(v: Value) { v.List? && (v.cls == Float32 || v.cls == Int32) }

  /**
   * The bit-ratio choice of `_formatArrayTransfer`: a nested array or float
   * textures flatten with ratio 1; otherwise 8-bit typed arrays give 4,
   * 16-bit ones 2 (falling through the 32-bit case), 32-bit ones 1 without
   * copying, and anything else is flattened with ratio 1. Probing the first
   * element of an empty array (or of a non-array) throws.
   */
  function TransferPlanOf(value: Value, floatTextures: bool): (r: Result<TransferPlan>)
    ensures r.Err? <==> First(value).Undefined?
    ensures r.Ok? ==> r.value.bitRatio == 1 || r.value.bitRatio == 2 || r.value.bitRatio == 4
    ensures r.Ok? ==> (r.value.bitRatio == 4 <==> !floatTextures && !First(value).List? && EightBit(value))
    ensures r.Ok? ==> (r.value.bitRatio == 2 <==> !floatTextures && !First(value).List? && SixteenBit(value))
    ensures r.Ok? ==>
              (!r.value.flatten <==>
                 !floatTextures && !First(value).List? && (EightBit(value) || SixteenBit(value) || ThirtyTwoBit(value)))
  {
    match IsArray(First(value))
    case Err(e) => Err(e)
    case Ok(nested) =>
      if nested || floatTextures then Ok(TransferPlan(1, true))
      else match value.cls
        case Uint8 => Ok(TransferPlan(4, false))
        case Int8 => Ok(TransferPlan(4, false))
        case Uint16 => Ok(TransferPlan(2, false))
        case Int16 => Ok(TransferPlan(2, false))
        case Float32 => Ok(TransferPlan(1, false))
        case Int32 => Ok(TransferPlan(1, false))
        case _ => Ok(TransferPlan(1, true))
  }

  /**
   * A nested array `[[1, 2], [3, 4]]` reports its dimensions innermost first,
   * [2, 2], and [2, 2, 1] once padded.
   */
  lemma {:induction false} MatrixDimensions(rows: nat, cols: nat, x: Value)
    requires x.List? && |x.items| == rows >= 1
    requires x.items[0].List? && |x.items[0].items| == cols >= 1
    requires !x.items[0].items[0].List? && !x.items[0].items[0].Undefined?
    ensures Dimensions(x) == Ok([cols, rows])
    ensures Padded(Dimensions(x), true) == Ok([cols, rows, 1])
  {
    assert NestedLengths(x.items[0].items[0]) == Ok([]);
    assert [cols] + [] == [cols];
    assert NestedLengths(x.items[0]) == Ok([cols]);
    assert [rows] + [cols] == [rows, cols];
    assert NestedLengths(x) == Ok([rows, cols]);
    assert [rows, cols][1..] == [cols];
    assert Reverse([cols]) == [cols];
    assert Reverse([rows, cols]) == [cols, rows];
    assert Dimensions(x) == Ok([cols, rows]);
    assert Ones(1) == [1];
    assert PadTo3([cols, rows]) == [cols, rows, 1];
  }
}
