/**
 * The WebGL2 context a kernel drives, reduced to what the kernel's logic
 * depends on: a log of the calls it receives, the handles it hands out
 * (textures, uniform locations, programs), the active texture unit and the
 * texture bound at each (unit, target) pair, and how often each program
 * was linked. Several kernels may share one context. Pixel contents, shader compilation and rasterisation are not
 * part of this model.
 */
module Device {
  /** The two texture targets the kernel binds. */
  datatype Target = Texture2D | Texture2DArray

  datatype GlCall =
    | CreateTexture(texture: nat)
    | CreateProgram(program: nat)
    | LinkProgram(program: nat)
    | UseProgram(program: nat)
    | GetUniformLocation(name: string, location: nat)
    | Uniform1f(location: nat, x: real)
    | Uniform1i(location: nat, i: int)
    | Uniform2f(location: nat, x: real, y: real)
    | Uniform2fv(location: nat, v: seq<real>)
    | Uniform2iv(location: nat, iv: seq<int>)
    | Uniform3fv(location: nat, v: seq<real>)
    | Uniform3iv(location: nat, iv: seq<int>)
    | ActiveTexture(unit: int)
    | BindTexture(target: Target, texture: nat)
      /** An upload of numbers; `bitRatio` numbers share a texel when it exceeds 1. */
    | TexImage2D(floatFormat: bool, width: int, height: int, bitRatio: nat, data: seq<real>)
      /** Storage for a texture with no data, as for the output texture. */
    | AllocateTexture(floatFormat: bool, width: int, height: int)
    | TexImageFromImage(width: int, height: int)
    | TexImage3D(width: int, height: int, depth: int)
    | TexSubImage3D(layer: nat, width: int, height: int)
    | FramebufferTexture(texture: nat)
    | Viewport(width: int, height: int)
    | Scissor(width: int, height: int)
    | DrawArrays
    | ReadPixels(width: int, height: int)

  /** How often `program` was linked, by a table of link counts. */
  function Links(linked: map<nat, nat>, program: nat): nat
  {
    if program in linked then linked[program] else 0
  }

  /** Every program linked before is linked as often after. */
  ghost predicate LinksKept(before: map<nat, nat>, after: map<nat, nat>)
  {
    forall p :: p in before ==> p in after && after[p] == before[p]
  }

  /** Calls that change state the `Gl` class tracks are made through their own methods. */
  predicate Plain(c: GlCall)
  {
    !c.LinkProgram? && !c.ActiveTexture? && !c.BindTexture? && !c.TexImage2D?
  }

  class Gl {
    var calls: seq<GlCall>
    var nextHandle: nat
    /** The number of times each program handle was linked. */
    var linked: map<nat, nat>
    /** Every linked handle lies below this bound, which never passes `nextHandle`. */
    ghost var linkBound: nat
    var activeUnit: int
    var bound: map<(int, Target), nat>
    /** The numbers last uploaded into each texture. */
    var contents: map<nat, seq<real>>

    /** Only handles the context has handed out were ever linked. */
    ghost predicate Valid()
      reads this`linked, this`linkBound, this`nextHandle
    {
      LinksBelow() && linkBound <= nextHandle
    }

    ghost predicate LinksBelow()
      reads this`linked, this`linkBound
    {
      forall p :: p in linked ==> p < linkBound
    }

    constructor ()
      ensures Valid()
      ensures calls == [] && nextHandle == 0 && linked == map[] && activeUnit == 0 && bound == map[]
      ensures contents == map[]
    {
      contents := map[];
      calls := [];
      nextHandle := 0;
      linked := map[];
      linkBound := 0;
      activeUnit := 0;
      bound := map[];
    }

    /** A call whose only effect the model keeps is its place in the log. */
    method Emit(c: GlCall)
      requires Plain(c)
      modifies this`calls
      ensures calls == old(calls) + [c]
    {
      calls := calls + [c];
    }

    /** A new handle, different from every handle handed out before. */
    method NewHandle() returns (h: nat)
      modifies this`nextHandle
      ensures h == old(nextHandle) && nextHandle == h + 1
    {
      h := nextHandle;
      nextHandle := nextHandle + 1;
    }

    /** `gl.activeTexture(gl.TEXTURE0 + unit)`. */
    method ActiveTexture(unit: int)
      modifies this`calls, this`activeUnit
      ensures activeUnit == unit && calls == old(calls) + [GlCall.ActiveTexture(unit)]
    {
      activeUnit := unit;
      calls := calls + [GlCall.ActiveTexture(unit)];
    }

    /** `gl.bindTexture(target, texture)`: binds on the active unit only. */
    method BindTexture(target: Target, texture: nat)
      modifies this`calls, this`bound
      ensures bound == old(bound)[(activeUnit, target) := texture]
      ensures calls == old(calls) + [GlCall.BindTexture(target, texture)]
    {
      bound := bound[(activeUnit, target) := texture];
      calls := calls + [GlCall.BindTexture(target, texture)];
    }

    /** `gl.texImage2D` with data: fills the 2D texture bound on the active unit. */
    method TexImage2D(floatFormat: bool, width: int, height: int, bitRatio: nat, data: seq<real>)
      requires (activeUnit, Texture2D) in bound
      modifies this`calls, this`contents
      ensures contents == old(contents)[bound[(activeUnit, Texture2D)] := data]
      ensures calls == old(calls) + [GlCall.TexImage2D(floatFormat, width, height, bitRatio, data)]
    {
      contents := contents[bound[(activeUnit, Texture2D)] := data];
      calls := calls + [GlCall.TexImage2D(floatFormat, width, height, bitRatio, data)];
    }

    /** `gl.linkProgram(program)`, for a program this context created; no other program's count changes. */
    method LinkProgram(program: nat)
      requires program < nextHandle
      modifies this`calls, this`linked, this`linkBound
      ensures linked == old(linked)[program := Links(old(linked), program) + 1]
      ensures old(Valid()) ==> Valid()
      ensures calls == old(calls) + [GlCall.LinkProgram(program)]
    {
      if linkBound <= program {
        linkBound := program + 1;
      }
      linked := linked[program := Links(linked, program) + 1];
      calls := calls + [GlCall.LinkProgram(program)];
    }
  }
}
