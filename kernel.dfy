/**
 * The WebGL kernel object: its uniform caches, texture and location memos,
 * argument binding, build and run. The WebGL context is a `Device.Gl`, the
 * canvas an identity, and the canvas registry of the enclosing call a shared
 * `Registry.TexSizeRegistry`.
 */
module Kernel {
  import opened Wrappers
  import opened Values
  import opened Device
  import opened KernelSpec
  import Registry
  import Flatten
  import TexSize
  import Reshape

  class Kernel {
    const gl: Gl
    const registry: Registry.TexSizeRegistry
    const canvas: nat
    const floatTextures: bool
    const hardcodeConstants: bool
    /** No constants are ever set, so no texture unit is reserved for one. */
    const constantsLength: nat := 0
    const paramNames: seq<string> := ParamNames
    const output: seq<int> := [4, 6]
    /** `[4, 6]`, passed by reference to the `uTexSize` uniform. */
    const texSize: array<int>

    var threadDim: seq<int>
    /** The key of this kernel's entry in the canvas registry, once it has one. */
    var maxTexSize: Option<nat>
    var argumentsLength: int
    var program: Option<nat>
    var paramTypes: seq<ArgType>
    var outputTexture: Option<nat>

    var programUniformLocationCache: map<string, nat>
    var textureCache: map<string, nat>
    var uniform1fCache: map<string, real>
    var uniform1iCache: map<string, int>
    var uniform2fCache: map<string, (real, real)>
    /** The vector caches keep the very arrays they were given, not copies. */
    var uniform2fvCache: map<string, array<real>>
    var uniform2ivCache: map<string, array<int>>
    var uniform3fvCache: map<string, array<real>>
    var uniform3ivCache: map<string, array<int>>

    /**
     * Cached vectors are long enough to compare, and memoised textures, like
     * every program linked on the shared context, were handed out by the
     * device.
     */
    ghost predicate CachesValid()
      reads this`uniform2fvCache, this`uniform2ivCache, this`uniform3fvCache, this`uniform3ivCache
      reads this`textureCache, gl`nextHandle, gl`linked, gl`linkBound
    {
      && gl.Valid()
      && (forall n :: n in uniform2fvCache ==> uniform2fvCache[n].Length >= 2)
      && (forall n :: n in uniform2ivCache ==> uniform2ivCache[n].Length >= 2)
      && (forall n :: n in uniform3fvCache ==> uniform3fvCache[n].Length >= 3)
      && (forall n :: n in uniform3ivCache ==> uniform3ivCache[n].Length >= 3)
      && (forall n :: n in textureCache ==> textureCache[n] < gl.nextHandle)
    }

    /**
     * The kernel's invariant: a positive texture size; a registry entry, once
     * held, that is its own canvas's and at least as large as the texture; a built kernel's program linked
     * exactly once on the (possibly shared) context; and a built kernel has
     * its thread grid and output texture.
     */
    ghost predicate Valid()
      reads this`maxTexSize, this`program, this`threadDim, this`outputTexture
      reads this`uniform2fvCache, this`uniform2ivCache, this`uniform3fvCache, this`uniform3ivCache
      reads this`textureCache, gl`nextHandle, gl`linked, gl`linkBound, registry, texSize
    {
      Settled() && CachesValid()
    }

    /** The part of `Valid` that argument binding never touches. */
    ghost predicate Settled()
      reads this`maxTexSize, this`program, this`threadDim, this`outputTexture
      reads gl`linked, registry, texSize
    {
      && texSize.Length == 2 && texSize[0] >= 1 && texSize[1] >= 1
      && registry.Valid()
      && (maxTexSize.Some? ==>
            maxTexSize.value in registry.maxTexSizes
            && registry.maxTexSizes[maxTexSize.value].0 >= texSize[0]
            && registry.maxTexSizes[maxTexSize.value].1 >= texSize[1])
      && (maxTexSize.Some? ==> maxTexSize.value < |registry.canvases| && registry.canvases[maxTexSize.value] == canvas)
      && (program.Some? ==> Links(gl.linked, program.value) == 1)
      && (program.Some? ==> maxTexSize.Some? && threadDim == PadTo3(output) && outputTexture.Some?)
    }

    /** `Settled` depends only on the fields it reads. */
    twostate lemma SettledKept()
      requires old(Settled())
      requires unchanged(this`maxTexSize, this`program, this`threadDim, this`outputTexture)
      requires unchanged(gl`linked, registry, texSize)
      ensures Settled()
    {
    }

    /**
     * The state kernels share has only grown since (links, next, canvases,
     * sizes): no handle is reused, every earlier link count is kept, and the
     * registry's canvas list and entries only grow.
     */
    ghost predicate SharedGrown(links: map<nat, nat>, next: nat, canvases: seq<nat>, sizes: map<nat, (int, int)>)
      reads gl`linked, gl`nextHandle, registry
    {
      && gl.nextHandle >= next && LinksKept(links, gl.linked)
      && canvases <= registry.canvases && Registry.Grown(sizes, registry.maxTexSizes)
    }

    /**
     * Another kernel drawing on the same context and registry keeps this
     * one valid, as long as the shared state has only grown.
     */
    twostate lemma ValidOnSharedContext()
      requires old(Valid()) && unchanged(this) && unchanged(texSize)
      requires gl.Valid() && registry.Valid()
      requires SharedGrown(old(gl.linked), old(gl.nextHandle), old(registry.canvases), old(registry.maxTexSizes))
      ensures Valid()
    {
    }

    /** `new Kernel()` followed by `setWebGl(gl)` and `setCanvas(canvas)`. */
    constructor (gl: Gl, registry: Registry.TexSizeRegistry, canvas: nat, floatTextures: bool, hardcodeConstants: bool)
      requires registry.Valid() && gl.Valid()
      ensures Valid()
      ensures this.gl == gl && this.registry == registry && this.canvas == canvas
      ensures this.floatTextures == floatTextures && this.hardcodeConstants == hardcodeConstants
      ensures texSize[..] == [4, 6] && paramTypes == InitialParamTypes
      ensures maxTexSize.None? && program.None? && argumentsLength == 0
      ensures programUniformLocationCache == map[] && textureCache == map[]
      ensures uniform1fCache == map[] && uniform1iCache == map[] && uniform2fCache == map[]
      ensures uniform2fvCache == map[] && uniform2ivCache == map[] && uniform3fvCache == map[] && uniform3ivCache == map[]
    {
      this.gl := gl;
      this.registry := registry;
      this.canvas := canvas;
      this.floatTextures := floatTextures;
      this.hardcodeConstants := hardcodeConstants;
      texSize := new int[2][4, 6];
      threadDim := [];
      maxTexSize := None;
      argumentsLength := 0;
      program := None;
      paramTypes := InitialParamTypes;
      outputTexture := None;
      programUniformLocationCache := map[];
      textureCache := map[];
      uniform1fCache := map[];
      uniform1iCache := map[];
      uniform2fCache := map[];
      uniform2fvCache := map[];
      uniform2ivCache := map[];
      uniform3fvCache := map[];
      uniform3ivCache := map[];
    }

    /** Nothing the uniform memo or the device log holds has changed. */
    ghost predicate Untouched(locations: map<string, nat>, calls: seq<GlCall>, next: nat)
      reads this`programUniformLocationCache, gl`calls, gl`nextHandle
    {
      programUniformLocationCache == locations && gl.calls == calls && gl.nextHandle == next
    }

    /**
     * From the memo `locations`, log `calls` and next handle `next`, the
     * location of `name` was looked up (on a miss only) and `call` was sent.
     */
    ghost predicate WroteUniform(locations: map<string, nat>, calls: seq<GlCall>, next: nat, name: string, call: GlCall)
      reads this`programUniformLocationCache, gl`calls, gl`nextHandle
    {
      && programUniformLocationCache == Located(locations, name, next)
      && gl.nextHandle == HandleAfter(locations, name, next)
      && gl.calls == calls + Lookups(locations, name, next) + [call]
    }

    /** `getUniformLocation`: asks the device once per name and memoises the answer. */
    method GetUniformLocation(name: string) returns (location: nat)
      modifies this`programUniformLocationCache, gl`calls, gl`nextHandle
      ensures location == LocationAfter(old(programUniformLocationCache), name, old(gl.nextHandle))
      ensures programUniformLocationCache == Located(old(programUniformLocationCache), name, old(gl.nextHandle))
      ensures gl.nextHandle == HandleAfter(old(programUniformLocationCache), name, old(gl.nextHandle))
      ensures gl.calls == old(gl.calls) + Lookups(old(programUniformLocationCache), name, old(gl.nextHandle))
    {
      if name in programUniformLocationCache {
        return programUniformLocationCache[name];
      }
      location := gl.NewHandle();
      gl.Emit(GlCall.GetUniformLocation(name, location));
      programUniformLocationCache := programUniformLocationCache[name := location];
    }

    /** `setUniform1f`: sends the value unless the cache already holds it. */
    method SetUniform1f(name: string, value: real)
      requires CachesValid()
      modifies this`uniform1fCache, this`programUniformLocationCache, gl`calls, gl`nextHandle
      ensures CachesValid()
      ensures uniform1fCache == old(uniform1fCache)[name := value]
      ensures name in old(uniform1fCache) && old(uniform1fCache)[name] == value ==>
                Untouched(old(programUniformLocationCache), old(gl.calls), old(gl.nextHandle))
      ensures !(name in old(uniform1fCache) && old(uniform1fCache)[name] == value) ==>
                WroteUniform(old(programUniformLocationCache), old(gl.calls), old(gl.nextHandle), name,
                  Uniform1f(LocationAfter(old(programUniformLocationCache), name, old(gl.nextHandle)), value))
    {
      if name in uniform1fCache && uniform1fCache[name] == value {
        return;
      }
      uniform1fCache := uniform1fCache[name := value];
      var location := GetUniformLocation(name);
      gl.Emit(Uniform1f(location, value));
    }

    /** `setUniform1i`: sends the value unless the cache already holds it. */
    method SetUniform1i(name: string, value: int)
      requires CachesValid()
      modifies this`uniform1iCache, this`programUniformLocationCache, gl`calls, gl`nextHandle
      ensures CachesValid()
      ensures uniform1iCache == old(uniform1iCache)[name := value]
      ensures name in old(uniform1iCache) && old(uniform1iCache)[name] == value ==>
                Untouched(old(programUniformLocationCache), old(gl.calls), old(gl.nextHandle))
      ensures !(name in old(uniform1iCache) && old(uniform1iCache)[name] == value) ==>
                WroteUniform(old(programUniformLocationCache), old(gl.calls), old(gl.nextHandle), name,
                  Uniform1i(LocationAfter(old(programUniformLocationCache), name, old(gl.nextHandle)), value))
    {
      if name in uniform1iCache && uniform1iCache[name] == value {
        return;
      }
      uniform1iCache := uniform1iCache[name := value];
      var location := GetUniformLocation(name);
      gl.Emit(Uniform1i(location, value));
    }

    /** `setUniform2f`: sends the pair unless the cache holds both components already. */
    method SetUniform2f(name: string, x: real, y: real)
      requires CachesValid()
      modifies this`uniform2fCache, this`programUniformLocationCache, gl`calls, gl`nextHandle
      ensures CachesValid()
      ensures uniform2fCache == old(uniform2fCache)[name := (x, y)]
      ensures name in old(uniform2fCache) && old(uniform2fCache)[name] == (x, y) ==>
                Untouched(old(programUniformLocationCache), old(gl.calls), old(gl.nextHandle))
      ensures !(name in old(uniform2fCache) && old(uniform2fCache)[name] == (x, y)) ==>
                WroteUniform(old(programUniformLocationCache), old(gl.calls), old(gl.nextHandle), name,
                  Uniform2f(LocationAfter(old(programUniformLocationCache), name, old(gl.nextHandle)), x, y))
    {
      if name in uniform2fCache && uniform2fCache[name].0 == x && uniform2fCache[name].1 == y {
        return;
      }
      uniform2fCache := uniform2fCache[name := (x, y)];
      var location := GetUniformLocation(name);
      gl.Emit(Uniform2f(location, x, y));
    }

    /**
     * `setUniform2fv`: on a hit (same first two components) nothing is sent
     * and the cache keeps the array it already held; on a miss the cache
     * takes this very array.
     */
    method SetUniform2fv(name: string, value: array<real>)
      requires value.Length >= 2 && CachesValid()
      modifies this`uniform2fvCache, this`programUniformLocationCache, gl`calls, gl`nextHandle
      ensures CachesValid()
      ensures name in uniform2fvCache && uniform2fvCache[name][..2] == value[..2]
      ensures var hit := name in old(uniform2fvCache) && old(uniform2fvCache)[name][..2] == value[..2];
        && (hit ==> uniform2fvCache == old(uniform2fvCache)
                    && Untouched(old(programUniformLocationCache), old(gl.calls), old(gl.nextHandle)))
        && (!hit ==> uniform2fvCache == old(uniform2fvCache)[name := value]
                     && WroteUniform(old(programUniformLocationCache), old(gl.calls), old(gl.nextHandle), name,
                          Uniform2fv(LocationAfter(old(programUniformLocationCache), name, old(gl.nextHandle)), value[..])))
    {
      if name in uniform2fvCache {
        var cache := uniform2fvCache[name];
        if value[0] == cache[0] && value[1] == cache[1] {
          assert cache[..2] == value[..2];
          return;
        }
      }
      uniform2fvCache := uniform2fvCache[name := value];
      var location := GetUniformLocation(name);
      gl.Emit(Uniform2fv(location, value[..]));
    }

    /** `setUniform2iv`: as `SetUniform2fv`, for integer vectors. */
    method SetUniform2iv(name: string, value: array<int>)
      requires value.Length >= 2 && CachesValid()
      modifies this`uniform2ivCache, this`programUniformLocationCache, gl`calls, gl`nextHandle
      ensures CachesValid()
      ensures name in uniform2ivCache && uniform2ivCache[name][..2] == value[..2]
      ensures var hit := name in old(uniform2ivCache) && old(uniform2ivCache)[name][..2] == value[..2];
        && (hit ==> uniform2ivCache == old(uniform2ivCache)
                    && Untouched(old(programUniformLocationCache), old(gl.calls), old(gl.nextHandle)))
        && (!hit ==> uniform2ivCache == old(uniform2ivCache)[name := value]
                     && WroteUniform(old(programUniformLocationCache), old(gl.calls), old(gl.nextHandle), name,
                          Uniform2iv(LocationAfter(old(programUniformLocationCache), name, old(gl.nextHandle)), value[..])))
    {
      if name in uniform2ivCache {
        var cache := uniform2ivCache[name];
        if value[0] == cache[0] && value[1] == cache[1] {
          assert cache[..2] == value[..2];
          return;
        }
      }
      uniform2ivCache := uniform2ivCache[name := value];
      var location := GetUniformLocation(name);
      gl.Emit(Uniform2iv(location, value[..]));
    }

    /** `setUniform3fv`: as `SetUniform2fv`, comparing three components. */
    method SetUniform3fv(name: string, value: array<real>)
      requires value.Length >= 3 && CachesValid()
      modifies this`uniform3fvCache, this`programUniformLocationCache, gl`calls, gl`nextHandle
      ensures CachesValid()
      ensures name in uniform3fvCache && uniform3fvCache[name][..3] == value[..3]
      ensures var hit := name in old(uniform3fvCache) && old(uniform3fvCache)[name][..3] == value[..3];
        && (hit ==> uniform3fvCache == old(uniform3fvCache)
                    && Untouched(old(programUniformLocationCache), old(gl.calls), old(gl.nextHandle)))
        && (!hit ==> uniform3fvCache == old(uniform3fvCache)[name := value]
                     && WroteUniform(old(programUniformLocationCache), old(gl.calls), old(gl.nextHandle), name,
                          Uniform3fv(LocationAfter(old(programUniformLocationCache), name, old(gl.nextHandle)), value[..])))
    {
      if name in uniform3fvCache {
        var cache := uniform3fvCache[name];
        if value[0] == cache[0] && value[1] == cache[1] && value[2] == cache[2] {
          assert cache[..3] == value[..3];
          return;
        }
      }
      uniform3fvCache := uniform3fvCache[name := value];
      var location := GetUniformLocation(name);
      gl.Emit(Uniform3fv(location, value[..]));
    }

    /** `setUniform3iv`: as `SetUniform3fv`, for integer vectors. */
    method SetUniform3iv(name: string, value: array<int>)
      requires value.Length >= 3 && CachesValid()
      modifies this`uniform3ivCache, this`programUniformLocationCache, gl`calls, gl`nextHandle
      ensures CachesValid()
      ensures name in uniform3ivCache && uniform3ivCache[name][..3] == value[..3]
      ensures var hit := name in old(uniform3ivCache) && old(uniform3ivCache)[name][..3] == value[..3];
        && (hit ==> uniform3ivCache == old(uniform3ivCache)
                    && Untouched(old(programUniformLocationCache), old(gl.calls), old(gl.nextHandle)))
        && (!hit ==> uniform3ivCache == old(uniform3ivCache)[name := value]
                     && WroteUniform(old(programUniformLocationCache), old(gl.calls), old(gl.nextHandle), name,
                          Uniform3iv(LocationAfter(old(programUniformLocationCache), name, old(gl.nextHandle)), value[..])))
    {
      if name in uniform3ivCache {
        var cache := uniform3ivCache[name];
        if value[0] == cache[0] && value[1] == cache[1] && value[2] == cache[2] {
          assert cache[..3] == value[..3];
          return;
        }
      }
      uniform3ivCache := uniform3ivCache[name := value];
      var location := GetUniformLocation(name);
      gl.Emit(Uniform3iv(location, value[..]));
    }

    /** `getTextureCache`: one device texture per name, created on first use. */
    method GetTextureCache(name: string) returns (texture: nat)
      requires CachesValid()
      modifies this`textureCache, gl`calls, gl`nextHandle
      ensures CachesValid()
      ensures name in textureCache && texture == textureCache[name]
      ensures name in old(textureCache) ==>
                textureCache == old(textureCache) && gl.calls == old(gl.calls) && gl.nextHandle == old(gl.nextHandle)
      ensures name !in old(textureCache) ==>
                texture == old(gl.nextHandle) && gl.nextHandle == texture + 1
                && textureCache == old(textureCache)[name := texture]
                && gl.calls == old(gl.calls) + [CreateTexture(texture)]
    {
      if name in textureCache {
        return textureCache[name];
      }
      texture := gl.NewHandle();
      gl.Emit(CreateTexture(texture));
      textureCache := textureCache[name := texture];
    }

    /** `detachTextureCache`: forgets the memoised texture of `name`. */
    method DetachTextureCache(name: string)
      requires CachesValid()
      modifies this`textureCache
      ensures CachesValid()
      ensures textureCache == old(textureCache) - {name}
    {
      textureCache := textureCache - {name};
    }

    /** After a detach, the next `getTextureCache` of that name yields a texture never handed out before. */
    method RefreshTexture(name: string) returns (before: nat, after: nat)
      requires CachesValid()
      modifies this`textureCache, gl`calls, gl`nextHandle
      ensures CachesValid()
      ensures before != after && name in textureCache && textureCache[name] == after
      ensures forall n :: n in old(textureCache) ==> old(textureCache)[n] < after
    {
      before := GetTextureCache(name);
      DetachTextureCache(name);
      after := GetTextureCache(name);
    }
  
    /**
     * The sampler uniform of argument `name` holds `index`, and unit
     * `constantsLength + index` has `texture` bound on `target`: the shader
     * reads the argument from the texture it was uploaded to.
     */
    ghost predicate Sampler(name: string, target: Target, texture: nat, index: int)
      reads this`uniform1iCache, gl`bound
    {
      && (constantsLength + index, target) in gl.bound && gl.bound[(constantsLength + index, target)] == texture
      && "user_" + name in uniform1iCache && uniform1iCache["user_" + name] == index
    }

    /**
     * `_formatArrayTransfer(value, length)`: with the bit ratio
     * `TransferPlanOf` chooses, either the value's own numbers (8-, 16- and
     * 32-bit typed arrays, no float textures) or the value flattened into a
     * fresh zero-filled Float32Array of `length` entries.
     */
    method FormatArrayTransfer(value: Value, length: nat) returns (r: Outcome, bitRatio: nat, valuesFlat: seq<real>)
      ensures First(value).Undefined? ==> r.Fail?
      ensures r.Pass? ==> TransferPlanOf(value, floatTextures).Ok?
                          && bitRatio == TransferPlanOf(value, floatTextures).value.bitRatio
      ensures r.Pass? && TransferPlanOf(value, floatTextures).value.flatten ==>
                Flatten.Flattened(value).Some? && |valuesFlat| == length
                && ZeroPadded(valuesFlat, Flatten.Flattened(value).value)
      ensures r.Pass? && !TransferPlanOf(value, floatTextures).value.flatten ==>
                Flatten.AsNumbers(value) == Some(valuesFlat)
      ensures (&& TransferPlanOf(value, floatTextures).Ok? && TransferPlanOf(value, floatTextures).value.flatten
               && Flatten.Flattened(value).Some? && |Flatten.Flattened(value).value| <= length
               && !(First(value).List? && First(First(value)).Undefined?)) ==> r.Pass?
      ensures (&& TransferPlanOf(value, floatTextures).Ok? && !TransferPlanOf(value, floatTextures).value.flatten
               && Flatten.AsNumbers(value).Some?) ==> r.Pass?
    {
      var plan := TransferPlanOf(value, floatTextures);
      if plan.Err? {
        return Fail(plan.error), 1, [];
      }
      bitRatio := plan.value.bitRatio;
      if plan.value.flatten {
        var target := new real[length](_ => 0.0);
        assert target[..] == Zeros(length);
        r := Flatten.FlattenTo(value, target);
        valuesFlat := target[..];
      } else {
        var numbers := Flatten.AsNumbers(value);
        if numbers.None? {
          return Fail("not modelled: a typed array holding non-numbers"), bitRatio, [];
        }
        r := Pass;
        valuesFlat := numbers.value;
      }
    }

    /**
     * The measuring half of the 'Array' case of `_addArgument`: the padded
     * dimensions and the texel grid `dimToTexSize` plans for them. The
     * upload length for that grid holds every value, and a matrix is always
     * measured.
     */
    method ArrayGrid(value: Value) returns (r: Outcome, dims: seq<int>, w: int, h: int)
      ensures r.Pass? ==> Padded(Dimensions(value), true) == Ok(dims) && |dims| >= 3 && w >= 1 && h >= 1
      ensures r.Pass? ==> UploadLength(w, h, floatTextures) >= TexSize.Product(dims)
      ensures Padded(Dimensions(value), true).Err? ==> r.Fail?
      ensures IsMatrix(value) ==>
                r.Pass? && dims == [|value.items[0].items|, |value.items|, 1]
                && UploadLength(w, h, floatTextures) >= |MatrixValues(value)|
    {
      if IsMatrix(value) {
        MatrixLayout(value, |value.items|, |value.items[0].items|, floatTextures);
        MatrixProduct(|value.items|, |value.items[0].items|);
      }
      var dim := GetDimensions(value, true);
      if dim.Err? {
        return Fail(dim.error), [], 1, 1;
      }
      dims := dim.value;
      if !(forall i :: 0 <= i < |dims| ==> dims[i] >= 1) {
        return Fail("not modelled: an extent below 1"), dims, 1, 1;
      }
      w, h := TexSize.DimToTexSize(floatTextures, false, dims, false);
      UploadFits(dims, floatTextures, w, h);
      r := Pass;
    }

    /** The BitRatio uniform of argument `name` (when given), then its sampler uniform. */
    method SetSamplerUniforms(name: string, bitRatio: Option<int>, index: int)
      requires CachesValid()
      modifies this`uniform1iCache, this`programUniformLocationCache, gl`calls, gl`nextHandle
      ensures CachesValid()
      ensures "user_" + name in uniform1iCache && uniform1iCache["user_" + name] == index
      ensures bitRatio.Some? ==>
                "user_" + name + "BitRatio" in uniform1iCache && uniform1iCache["user_" + name + "BitRatio"] == bitRatio.value
    {
      if bitRatio.Some? {
        SetUniform1i("user_" + name + "BitRatio", bitRatio.value);
      }
      SetUniform1i("user_" + name, index);
      assert |"user_" + name| < |"user_" + name + "BitRatio"|;
    }

    /** The Dim and Size uniforms of argument `name`. */
    method SetShapeUniforms(name: string, dim: array<int>, size: array<int>)
      requires dim.Length >= 3 && size.Length >= 2 && CachesValid()
      modifies this`uniform2ivCache, this`uniform3ivCache, this`programUniformLocationCache, gl`calls, gl`nextHandle
      ensures CachesValid()
      ensures "user_" + name + "Dim" in uniform3ivCache && uniform3ivCache["user_" + name + "Dim"][..3] == dim[..3]
      ensures "user_" + name + "Size" in uniform2ivCache && uniform2ivCache["user_" + name + "Size"][..2] == size[..2]
    {
      SetUniform3iv("user_" + name + "Dim", dim);
      SetUniform2iv("user_" + name + "Size", size);
    }

    /**
     * The uniforms every sampled argument sets after its upload: Dim and Size
     * (when `shape`), BitRatio (when given) and the sampler, which names the
     * argument's index.
     */
    method SetArgumentUniforms(name: string, dim: array<int>, size: array<int>, shape: bool, bitRatio: Option<int>)
      requires dim.Length >= 3 && size.Length >= 2 && CachesValid()
      modifies this`uniform1iCache, this`uniform2ivCache, this`uniform3ivCache, this`programUniformLocationCache
      modifies gl`calls, gl`nextHandle
      ensures CachesValid()
      ensures shape ==>
                && "user_" + name + "Dim" in uniform3ivCache && uniform3ivCache["user_" + name + "Dim"][..3] == dim[..3]
                && "user_" + name + "Size" in uniform2ivCache && uniform2ivCache["user_" + name + "Size"][..2] == size[..2]
      ensures "user_" + name in uniform1iCache && uniform1iCache["user_" + name] == argumentsLength
      ensures bitRatio.Some? ==>
                "user_" + name + "BitRatio" in uniform1iCache && uniform1iCache["user_" + name + "BitRatio"] == bitRatio.value
    {
      if shape {
        SetShapeUniforms(name, dim, size);
      }
      SetSamplerUniforms(name, bitRatio, argumentsLength);
    }

    /**
     * The upload half of the 'Array' and 'Input' cases: bind `texture` on
     * the next unit and fill it with the transferred values,
     * `UploadLength(w, h)` floats when flattened. A matrix always uploads,
     * row-major followed by zeros. For an Input with float textures the
     * upload names an undefined variable and throws a ReferenceError.
     */
    method UploadArray(value: Value, texture: nat, w: int, h: int, fromInput: bool) returns (r: Outcome, bitRatio: nat)
      requires w >= 1 && h >= 1
      modifies gl`calls, gl`activeUnit, gl`bound, gl`contents
      ensures gl.bound == old(gl.bound)[(constantsLength + argumentsLength, Texture2D) := texture]
      ensures r.Pass? ==> TransferPlanOf(value, floatTextures).Ok?
                          && bitRatio == TransferPlanOf(value, floatTextures).value.bitRatio
      ensures fromInput && floatTextures ==> r.Fail?
      ensures (IsMatrix(value) && !fromInput && UploadLength(w, h, floatTextures) >= |MatrixValues(value)|) ==>
                r.Pass? && texture in gl.contents && ZeroPadded(gl.contents[texture], MatrixValues(value))
    {
      BindUnit(Texture2D, texture);
      r, bitRatio := TransferArray(value, texture, w, h, fromInput);
    }

    /**
     * The transfer into `texture`, bound on the active unit: the values as
     * `_formatArrayTransfer` lays them out for a `w` by `h` grid.
     */
    method TransferArray(value: Value, texture: nat, w: int, h: int, fromInput: bool) returns (r: Outcome, bitRatio: nat)
      requires w >= 1 && h >= 1
      requires (gl.activeUnit, Texture2D) in gl.bound && gl.bound[(gl.activeUnit, Texture2D)] == texture
      modifies gl`calls, gl`contents
      ensures r.Pass? ==> TransferPlanOf(value, floatTextures).Ok?
                          && bitRatio == TransferPlanOf(value, floatTextures).value.bitRatio
      ensures fromInput && floatTextures ==> r.Fail?
      ensures (IsMatrix(value) && !fromInput && UploadLength(w, h, floatTextures) >= |MatrixValues(value)|) ==>
                r.Pass? && texture in gl.contents && ZeroPadded(gl.contents[texture], MatrixValues(value))
    {
      if IsMatrix(value) {
        MatrixLayout(value, |value.items|, |value.items[0].items|, floatTextures);
      }
      var valuesFlat;
      r, bitRatio, valuesFlat := FormatArrayTransfer(value, UploadLength(w, h, floatTextures));
      if r.Fail? {
        return;
      }
      if fromInput && floatTextures {
        return Fail("ReferenceError: inputArray is not defined"), bitRatio;
      }
      if floatTextures {
        gl.TexImage2D(true, w, h, bitRatio, valuesFlat);
      } else {
        gl.TexImage2D(false, w / bitRatio, h, bitRatio, valuesFlat);
      }
    }

    /**
     * The first half of the 'Array' case: measure the value, then upload it
     * to `texture` on the next unit. Only that unit's binding changes, and a
     * matrix always uploads, row-major followed by zeros.
     */
    method MeasureAndUpload(value: Value, texture: nat) returns (r: Outcome, dims: seq<int>, w: int, h: int, bitRatio: nat)
      modifies gl`calls, gl`activeUnit, gl`bound, gl`contents
      ensures OtherUnitsKept(old(gl.bound), gl.bound, constantsLength + argumentsLength)
      ensures r.Pass? ==> |dims| >= 3 && (constantsLength + argumentsLength, Texture2D) in gl.bound
                          && gl.bound[(constantsLength + argumentsLength, Texture2D)] == texture
      ensures r.Pass? ==> Padded(Dimensions(value), true) == Ok(dims)
      ensures r.Pass? ==> TransferPlanOf(value, floatTextures).Ok?
                          && bitRatio == TransferPlanOf(value, floatTextures).value.bitRatio
      ensures IsMatrix(value) ==> r.Pass? && texture in gl.contents
                                  && ZeroPadded(gl.contents[texture], MatrixValues(value))
    {
      r, dims, w, h := ArrayGrid(value);
      if r.Fail? {
        return r, dims, w, h, 1;
      }
      ghost var measured := Padded(Dimensions(value), true);
      r, bitRatio := UploadArray(value, texture, w, h, false);
      assert measured == Padded(Dimensions(value), true);
    }

    /**
     * The 'Array' case of `_addArgument`: measure the value, upload it to
     * the argument texture on the next unit, and set the Dim, Size, BitRatio
     * and sampler uniforms. A matrix always binds, and its texture then
     * holds its entries row-major followed by zeros.
     */
    method BindArray(value: Value, name: string, texture: nat) returns (r: Outcome)
      requires CachesValid()
      modifies this`uniform1iCache, this`uniform2ivCache, this`uniform3ivCache, this`programUniformLocationCache
      modifies gl`calls, gl`nextHandle, gl`activeUnit, gl`bound, gl`contents
      ensures CachesValid()
      ensures OtherUnitsKept(old(gl.bound), gl.bound, constantsLength + argumentsLength)
      ensures r.Pass? ==> Sampler(name, Texture2D, texture, argumentsLength)
      ensures r.Pass? ==> TransferPlanOf(value, floatTextures).Ok?
                          && "user_" + name + "BitRatio" in uniform1iCache
                          && uniform1iCache["user_" + name + "BitRatio"] == TransferPlanOf(value, floatTextures).value.bitRatio
      ensures r.Pass? && !hardcodeConstants ==>
                && Padded(Dimensions(value), true).Ok? && "user_" + name + "Dim" in uniform3ivCache
                && uniform3ivCache["user_" + name + "Dim"][..3] == Padded(Dimensions(value), true).value[..3]
      ensures IsMatrix(value) ==> r.Pass? && texture in gl.contents
                                  && ZeroPadded(gl.contents[texture], MatrixValues(value))
    {
      var dims, w, h, bitRatio;
      r, dims, w, h, bitRatio := MeasureAndUpload(value, texture);
      if r.Fail? {
        return;
      }
      ghost var bound := gl.bound;
      SetFreshUniforms(name, dims, w, h, !hardcodeConstants, Some(bitRatio));
      assert gl.bound == bound;
    }

    /**
     * The uniforms of the 'Array', 'HTMLImage' and 'HTMLImageArray' cases,
     * whose Dim and Size arrays are built afresh: from `dims` and the grid
     * [w, h] (when `shape`), then BitRatio (when given) and the sampler.
     */
    method SetFreshUniforms(name: string, dims: seq<int>, w: int, h: int, shape: bool, bitRatio: Option<int>)
      requires |dims| >= 3 && CachesValid()
      modifies this`uniform1iCache, this`uniform2ivCache, this`uniform3ivCache, this`programUniformLocationCache
      modifies gl`calls, gl`nextHandle
      ensures CachesValid()
      ensures "user_" + name in uniform1iCache && uniform1iCache["user_" + name] == argumentsLength
      ensures bitRatio.Some? ==>
                "user_" + name + "BitRatio" in uniform1iCache && uniform1iCache["user_" + name + "BitRatio"] == bitRatio.value
      ensures shape ==>
                && "user_" + name + "Dim" in uniform3ivCache && uniform3ivCache["user_" + name + "Dim"][..3] == dims[..3]
                && "user_" + name + "Size" in uniform2ivCache && uniform2ivCache["user_" + name + "Size"][..2] == [w, h]
    {
      var dimArray := new int[|dims|](i requires 0 <= i < |dims| => dims[i]);
      var sizeArray := new int[2][w, h];
      assert dimArray[..3] == dims[..3] && sizeArray[..2] == [w, h];
      SetArgumentUniforms(name, dimArray, sizeArray, shape, bitRatio);
    }

    /** The texel grid `dimToTexSize` plans for an Input's size. */
    method InputGrid(dims: seq<int>) returns (r: Outcome, w: int, h: int)
      ensures r.Pass? ==> |dims| >= 3 && w >= 1 && h >= 1
      ensures r.Pass? ==> w * h >= TexSize.TexelCount(dims, TexSize.PackedMode(floatTextures, false, false))
    {
      if |dims| < 3 || !(forall i :: 0 <= i < |dims| ==> dims[i] >= 1) {
        return Fail("not modelled: an Input size with fewer than three entries or an extent below 1"), 1, 1;
      }
      w, h := TexSize.DimToTexSize(floatTextures, false, dims, false);
      r := Pass;
    }

    /**
     * The upload half of the 'Input' case: the texel grid from the Input's
     * own size, then the wrapped value on the next unit. Only that unit's
     * binding changes.
     */
    method UploadInput(input: Input, texture: nat) returns (r: Outcome, w: int, h: int, bitRatio: nat)
      modifies gl`calls, gl`activeUnit, gl`bound, gl`contents
      ensures OtherUnitsKept(old(gl.bound), gl.bound, constantsLength + argumentsLength)
      ensures r.Pass? ==> (constantsLength + argumentsLength, Texture2D) in gl.bound
                          && gl.bound[(constantsLength + argumentsLength, Texture2D)] == texture
      ensures floatTextures ==> r.Fail?
      ensures r.Pass? ==> input.size.Length >= 3
      ensures r.Pass? ==> TransferPlanOf(input.value, floatTextures).Ok?
                          && bitRatio == TransferPlanOf(input.value, floatTextures).value.bitRatio
    {
      r, w, h := InputGrid(input.size[..]);
      if r.Fail? {
        return r, w, h, 1;
      }
      r, bitRatio := UploadArray(input.value, texture, w, h, true);
    }

    /**
     * The 'Input' case of `_addArgument`: the texel grid comes from the
     * Input's own size, the wrapped value is uploaded, and the Dim uniform is
     * given the Input's size array itself, which the cache keeps by reference
     * on a miss.
     */
    method BindInput(input: Input, name: string, texture: nat) returns (r: Outcome)
      requires CachesValid()
      modifies this`uniform1iCache, this`uniform2ivCache, this`uniform3ivCache, this`programUniformLocationCache
      modifies gl`calls, gl`nextHandle, gl`activeUnit, gl`bound, gl`contents
      ensures CachesValid()
      ensures OtherUnitsKept(old(gl.bound), gl.bound, constantsLength + argumentsLength)
      ensures r.Pass? ==> Sampler(name, Texture2D, texture, argumentsLength)
      ensures floatTextures ==> r.Fail?
      ensures r.Pass? ==> input.size.Length >= 3
      ensures r.Pass? && !hardcodeConstants ==>
                "user_" + name + "Dim" in uniform3ivCache && uniform3ivCache["user_" + name + "Dim"][..3] == input.size[..3]
      ensures r.Pass? ==> TransferPlanOf(input.value, floatTextures).Ok?
                          && "user_" + name + "BitRatio" in uniform1iCache
                          && uniform1iCache["user_" + name + "BitRatio"] == TransferPlanOf(input.value, floatTextures).value.bitRatio
    {
      var w, h, bitRatio;
      r, w, h, bitRatio := UploadInput(input, texture);
      if r.Fail? {
        return;
      }
      ghost var bound := gl.bound;
      var sizeArray := new int[2][w, h];
      SetArgumentUniforms(name, input.size, sizeArray, !hardcodeConstants, Some(bitRatio));
      assert gl.bound == bound;
    }

    /** Make the next unit active and bind `texture` to it as `target`. */
    method BindUnit(target: Target, texture: nat)
      modifies gl`calls, gl`activeUnit, gl`bound
      ensures gl.bound == old(gl.bound)[(constantsLength + argumentsLength, target) := texture]
      ensures gl.activeUnit == constantsLength + argumentsLength && gl.nextHandle == old(gl.nextHandle)
      ensures gl.calls == old(gl.calls) + [ActiveTexture(constantsLength + argumentsLength), BindTexture(target, texture)]
    {
      gl.ActiveTexture(constantsLength + argumentsLength);
      gl.BindTexture(target, texture);
    }

    /** The 'HTMLImage' case of `_addArgument`: the image is uploaded as it is; Dim is [width, height, 1]. */
    method BindImage(value: Value, name: string, texture: nat) returns (r: Outcome)
      requires CachesValid()
      modifies this`uniform1iCache, this`uniform2ivCache, this`uniform3ivCache, this`programUniformLocationCache
      modifies gl`calls, gl`nextHandle, gl`activeUnit, gl`bound
      ensures CachesValid()
      ensures OtherUnitsKept(old(gl.bound), gl.bound, constantsLength + argumentsLength)
      ensures r.Pass? <==> value.Image?
      ensures r.Pass? ==> Sampler(name, Texture2D, texture, argumentsLength)
      ensures r.Pass? ==> "user_" + name + "Dim" in uniform3ivCache
                          && uniform3ivCache["user_" + name + "Dim"][..3] == [value.width, value.height, 1]
    {
      if !value.Image? {
        return Fail("TypeError: texImage2D needs an image source");
      }
      BindUnit(Texture2D, texture);
      gl.Emit(TexImageFromImage(value.width, value.height));
      var dims := [value.width, value.height, 1];
      assert dims[..3] == dims;
      ghost var bound := gl.bound;
      SetFreshUniforms(name, dims, value.width, value.height, true, None);
      assert gl.bound == bound;
      r := Pass;
    }

    /** The layer loop of the 'HTMLImageArray' case: one sub-image upload per image, stopping at the first non-image. */
    method UploadLayers(images: seq<Value>) returns (r: Outcome)
      modifies gl`calls
      ensures gl.nextHandle == old(gl.nextHandle)
      ensures r.Pass? <==> AllImages(images)
      ensures r.Pass? ==> gl.calls == old(gl.calls) + LayerCalls(images)
    {
      var i := 0;
      while i < |images|
        invariant 0 <= i <= |images|
        invariant AllImages(images[..i])
        invariant gl.calls == old(gl.calls) + LayerCalls(images[..i])
      {
        if !images[i].Image? {
          return Fail("TypeError: texSubImage3D needs an image source");
        }
        gl.Emit(TexSubImage3D(i, images[i].width, images[i].height));
        assert LayerCalls(images[..i + 1]) == LayerCalls(images[..i]) + [TexSubImage3D(i, images[i].width, images[i].height)];
        i := i + 1;
      }
      assert images[..i] == images;
      r := Pass;
    }

    /**
     * The upload half of the 'HTMLImageArray' case: bind `texture` as a 2D
     * array on the next unit, allocate it from the first image and upload
     * each layer.
     */
    method UploadImageArray(images: seq<Value>, texture: nat) returns (r: Outcome)
      requires |images| >= 1 && images[0].Image?
      modifies gl`calls, gl`activeUnit, gl`bound
      ensures gl.bound == old(gl.bound)[(constantsLength + argumentsLength, Texture2DArray) := texture]
      ensures gl.nextHandle == old(gl.nextHandle)
      ensures r.Pass? <==> AllImages(images)
      ensures r.Pass? ==> gl.calls == old(gl.calls) + [ActiveTexture(constantsLength + argumentsLength),
                                                       BindTexture(Texture2DArray, texture),
                                                       TexImage3D(images[0].width, images[0].height, |images|)]
                                                    + LayerCalls(images)
    {
      BindUnit(Texture2DArray, texture);
      gl.Emit(TexImage3D(images[0].width, images[0].height, |images|));
      r := UploadLayers(images);
    }

    /**
     * The 'HTMLImageArray' case of `_addArgument`: a 2D array texture with
     * one layer per image, sized by the first image; Dim is
     * [width, height, number of images].
     */
    method BindImageArray(value: Value, name: string, texture: nat) returns (r: Outcome)
      requires CachesValid()
      modifies this`uniform1iCache, this`uniform2ivCache, this`uniform3ivCache, this`programUniformLocationCache
      modifies gl`calls, gl`nextHandle, gl`activeUnit, gl`bound
      ensures CachesValid()
      ensures OtherUnitsKept(old(gl.bound), gl.bound, constantsLength + argumentsLength)
      ensures r.Pass? <==> value.List? && |value.items| >= 1 && AllImages(value.items)
      ensures r.Pass? ==> Sampler(name, Texture2DArray, texture, argumentsLength)
      ensures r.Pass? ==> "user_" + name + "Dim" in uniform3ivCache
                          && uniform3ivCache["user_" + name + "Dim"][..3]
                             == [value.items[0].width, value.items[0].height, |value.items|]
    {
      if !(value.List? && |value.items| >= 1 && value.items[0].Image?) {
        return Fail("TypeError: cannot read width of the first image");
      }
      var first := value.items[0];
      r := UploadImageArray(value.items, texture);
      if r.Fail? {
        return;
      }
      ghost var unit := (constantsLength + argumentsLength, Texture2DArray);
      assert unit in gl.bound && gl.bound[unit] == texture;
      var dims := [first.width, first.height, |value.items|];
      assert dims[..3] == dims;
      ghost var bound := gl.bound;
      SetFreshUniforms(name, dims, first.width, first.height, true, None);
      assert gl.bound == bound;
    }

    /**
     * The 'Texture' case of `_addArgument`: the texture is bound as it is,
     * with its own dimensions and size arrays (held by reference on a cache
     * miss) and bit ratio 1.
     */
    method BindTextureValue(t: Texture, name: string) returns (r: Outcome)
      requires CachesValid()
      modifies this`uniform1iCache, this`uniform2ivCache, this`uniform3ivCache, this`programUniformLocationCache
      modifies gl`calls, gl`nextHandle, gl`activeUnit, gl`bound
      ensures CachesValid()
      ensures OtherUnitsKept(old(gl.bound), gl.bound, constantsLength + argumentsLength)
      ensures r.Pass? <==> t.dimensions.Length >= 3 && t.size.Length >= 2
      ensures r.Pass? ==> Sampler(name, Texture2D, t.handle, argumentsLength)
      ensures r.Pass? ==> "user_" + name + "BitRatio" in uniform1iCache && uniform1iCache["user_" + name + "BitRatio"] == 1
      ensures r.Pass? ==>
                && "user_" + name + "Dim" in uniform3ivCache && uniform3ivCache["user_" + name + "Dim"][..3] == t.dimensions[..3]
                && "user_" + name + "Size" in uniform2ivCache && uniform2ivCache["user_" + name + "Size"][..2] == t.size[..2]
    {
      if t.dimensions.Length < 3 || t.size.Length < 2 {
        return Fail("not modelled: a Texture whose dimensions or size are too short");
      }
      BindUnit(Texture2D, t.handle);
      SetArgumentUniforms(name, t.dimensions, t.size, true, Some(1));
      r := Pass;
    }

    /** The 'Integer' and 'Float' cases of `_addArgument`: the number goes to the argument's float uniform. */
    method BindScalar(value: Value, name: string) returns (r: Outcome)
      requires CachesValid()
      modifies this`uniform1fCache, this`programUniformLocationCache, gl`calls, gl`nextHandle
      ensures CachesValid()
      ensures r.Pass? <==> value.Number?
      ensures r.Pass? ==> uniform1fCache == old(uniform1fCache)["user_" + name := value.n]
      ensures r.Fail? ==> uniform1fCache == old(uniform1fCache) && gl.calls == old(gl.calls)
    {
      if !value.Number? {
        return Fail("not modelled: a non-number passed as a number");
      }
      SetUniform1f("user_" + name, value.n);
      r := Pass;
    }

    /** The switch of `_addArgument` on the binding `b`, with `texture` the argument's memoised texture. */
    method BindValue(value: Value, b: Binding, name: string, texture: nat) returns (r: Outcome)
      requires CachesValid()
      modifies this`uniform1fCache, this`uniform1iCache, this`uniform2ivCache, this`uniform3ivCache
      modifies this`programUniformLocationCache
      modifies gl`calls, gl`nextHandle, gl`activeUnit, gl`bound, gl`contents
      ensures CachesValid()
      ensures OtherUnitsKept(old(gl.bound), gl.bound, constantsLength + argumentsLength)
      ensures b == Unsupported ==> r.Fail?
      ensures r.Pass? && Sampled(b) ==>
                Sampler(name, TargetOf(b), if b == TextureBinding && value.Tex? then value.texture.handle else texture,
                        argumentsLength)
      ensures b == ScalarBinding ==> (r.Pass? <==> value.Number?)
      ensures b == ScalarBinding && r.Pass? ==> "user_" + name in uniform1fCache && uniform1fCache["user_" + name] == value.n
      ensures b == ArrayBinding && IsMatrix(value) ==>
                r.Pass? && texture in gl.contents && ZeroPadded(gl.contents[texture], MatrixValues(value))
      ensures b == InputBinding && floatTextures ==> r.Fail?
      ensures b == ImageBinding ==> (r.Pass? <==> value.Image?)
      ensures b == ImageArrayBinding ==> (r.Pass? <==> value.List? && |value.items| >= 1 && AllImages(value.items))
      ensures b == TextureBinding && value.Tex? ==>
                (r.Pass? <==> value.texture.dimensions.Length >= 3 && value.texture.size.Length >= 2)
    {
      match b
      case ArrayBinding =>
        r := BindArray(value, name, texture);
      case ScalarBinding =>
        r := BindScalar(value, name);
      case InputBinding =>
        if !value.Wrapped? {
          return Fail("not modelled: a non-Input passed as an Input");
        }
        r := BindInput(value.input, name, texture);
      case ImageBinding =>
        r := BindImage(value, name, texture);
      case ImageArrayBinding =>
        r := BindImageArray(value, name, texture);
      case TextureBinding =>
        if !value.Tex? {
          return Fail("not modelled: a non-Texture passed as a Texture");
        }
        r := BindTextureValue(value.texture, name);
      case Unsupported =>
        r := Fail("Input type not supported (WebGL)");
    }

    /**
     * `_addArgument(value, type, name)`: fetch the argument's memoised
     * texture, bind the value as its type says (a Texture value always as a
     * texture) on unit `constantsLength + argumentsLength`, and move on to
     * the next unit. A throw leaves `argumentsLength` where it was.
     */
    method AddArgument(value: Value, argType: Option<ArgType>, name: string) returns (r: Outcome)
      requires CachesValid()
      modifies this`argumentsLength, this`textureCache
      modifies this`uniform1fCache, this`uniform1iCache, this`uniform2ivCache, this`uniform3ivCache
      modifies this`programUniformLocationCache
      modifies gl`calls, gl`nextHandle, gl`activeUnit, gl`bound, gl`contents
      ensures CachesValid()
      ensures argumentsLength == old(argumentsLength) + (if r.Pass? then 1 else 0)
      ensures "ARGUMENT_" + name in textureCache
      ensures forall n :: n in old(textureCache) ==> n in textureCache && textureCache[n] == old(textureCache)[n]
      ensures OtherUnitsKept(old(gl.bound), gl.bound, constantsLength + old(argumentsLength))
      ensures var b := BindingOf(value, argType);
        r.Pass? && Sampled(b) ==>
          Sampler(name, TargetOf(b), if value.Tex? then value.texture.handle else textureCache["ARGUMENT_" + name],
                  old(argumentsLength))
      ensures r.Pass? ==> ArgumentBound(value, argType, name, constantsLength + old(argumentsLength), textureCache, gl.bound)
      ensures BindingOf(value, argType) == Unsupported ==> r.Fail?
      ensures BindingOf(value, argType) == ScalarBinding ==> (r.Pass? <==> value.Number?)
      ensures BindingOf(value, argType) == ScalarBinding && r.Pass? ==>
                "user_" + name in uniform1fCache && uniform1fCache["user_" + name] == value.n
      ensures BindingOf(value, argType) == ArrayBinding && IsMatrix(value) ==>
                r.Pass? && textureCache["ARGUMENT_" + name] in gl.contents
                && ZeroPadded(gl.contents[textureCache["ARGUMENT_" + name]], MatrixValues(value))
      ensures BindingOf(value, argType) == InputBinding && floatTextures ==> r.Fail?
    {
      var texture := GetTextureCache("ARGUMENT_" + name);
      ghost var cache := textureCache;
      assert forall n :: n in old(textureCache) ==> n in cache && cache[n] == old(textureCache)[n];
      var b := BindingOf(value, argType);
      r := BindValue(value, b, name, texture);
      assert textureCache == cache && argumentsLength == old(argumentsLength);
      assert textureCache["ARGUMENT_" + name] == texture;
      if r.Pass? {
        argumentsLength := argumentsLength + 1;
      }
    }

    /**
     * `setupParams(args)`: the type of each argument in turn; a throw from
     * `getArgumentType` leaves the types found before it.
     */
    method SetupParams(args: seq<Value>) returns (r: Outcome)
      modifies this`paramTypes
      ensures paramTypes == KnownTypes(args)
      ensures r.Pass? <==> |paramTypes| == |args|
    {
      paramTypes := [];
      var i := 0;
      while i < |args|
        invariant 0 <= i <= |args| && |paramTypes| == i
        invariant forall j :: 0 <= j < i ==> GetArgumentType(args[j]) == Ok(paramTypes[j])
      {
        var t := GetArgumentType(args[i]);
        if t.Err? {
          KnownTypesUnique(args, paramTypes);
          return Fail(t.error);
        }
        paramTypes := paramTypes + [t.value];
        i := i + 1;
      }
      KnownTypesUnique(args, paramTypes);
      r := Pass;
    }

    /**
     * `_setupOutputTexture`: a new texture on the unit after every
     * argument's, allocated at the texture size (bytes: float output is
     * never set) and attached to the framebuffer.
     */
    method SetupOutputTexture()
      requires texSize.Length == 2 && CachesValid()
      modifies this`outputTexture, gl`calls, gl`nextHandle, gl`activeUnit, gl`bound
      ensures CachesValid()
      ensures outputTexture == Some(old(gl.nextHandle)) && gl.nextHandle == old(gl.nextHandle) + 1
      ensures gl.bound == old(gl.bound)[(constantsLength + |paramNames|, Texture2D) := outputTexture.value]
      ensures gl.calls == old(gl.calls) + [CreateTexture(outputTexture.value),
                                           ActiveTexture(constantsLength + |paramNames|),
                                           BindTexture(Texture2D, outputTexture.value),
                                           AllocateTexture(false, texSize[0], texSize[1]),
                                           FramebufferTexture(outputTexture.value)]
    {
      var texture := gl.NewHandle();
      gl.Emit(CreateTexture(texture));
      outputTexture := Some(texture);
      gl.ActiveTexture(constantsLength + |paramNames|);
      gl.BindTexture(Texture2D, texture);
      gl.Emit(AllocateTexture(false, texSize[0], texSize[1]));
      gl.Emit(FramebufferTexture(texture));
    }

    /** The unit after every argument's holds the output texture. */
    ghost predicate OutputBound()
      reads this`outputTexture, gl`bound
    {
      outputTexture.Some?
      && (constantsLength + |paramNames|, Texture2D) in gl.bound
      && gl.bound[(constantsLength + |paramNames|, Texture2D)] == outputTexture.value
    }

    /**
     * `updateMaxTexSize` followed by the viewport: the kernel's registry
     * entry, once taken or grown, covers its texture size, and the viewport
     * spans the entry.
     */
    method ClaimTexSize()
      requires texSize.Length == 2 && texSize[0] >= 1 && texSize[1] >= 1 && registry.Valid()
      requires maxTexSize.Some? ==> maxTexSize.value in registry.maxTexSizes
      requires maxTexSize.Some? ==> maxTexSize.value < |registry.canvases| && registry.canvases[maxTexSize.value] == canvas
      requires CachesValid()
      modifies this`maxTexSize, registry, gl`calls
      ensures CachesValid()
      ensures registry.Valid() && maxTexSize.Some? && maxTexSize.value in registry.maxTexSizes
      ensures maxTexSize.value < |registry.canvases| && registry.canvases[maxTexSize.value] == canvas
      ensures old(registry.canvases) <= registry.canvases
      ensures old(maxTexSize).Some? ==> maxTexSize == old(maxTexSize)
      ensures var size := registry.maxTexSizes[maxTexSize.value];
        && size.0 >= texSize[0] && size.1 >= texSize[1]
        && gl.calls == old(gl.calls) + [Viewport(size.0, size.1)]
      ensures Registry.Grown(old(registry.maxTexSizes), registry.maxTexSizes)
      ensures |old(registry.canvases)| <= |registry.canvases| <= |old(registry.canvases)| + 1
    {
      var entry := registry.UpdateMaxTexSize(maxTexSize, canvas, texSize[0], texSize[1]);
      maxTexSize := Some(entry);
      var size := registry.maxTexSizes[entry];
      gl.Emit(Viewport(size.0, size.1));
    }

    /** `createProgram` and `linkProgram`: the kernel's one program, on a fresh handle. */
    method LinkNewProgram()
      requires CachesValid()
      modifies this`program, gl`calls, gl`nextHandle, gl`linked, gl`linkBound
      ensures CachesValid()
      ensures program == Some(old(gl.nextHandle)) && gl.nextHandle == old(gl.nextHandle) + 1
      ensures gl.linked == old(gl.linked)[program.value := 1] && LinksKept(old(gl.linked), gl.linked)
      ensures gl.calls == old(gl.calls) + [CreateProgram(program.value), LinkProgram(program.value)]
    {
      var handle := gl.NewHandle();
      gl.Emit(CreateProgram(handle));
      gl.LinkProgram(handle);
      program := Some(handle);
    }

    /**
     * `build(args)`: record the parameter types, take (or grow) this
     * kernel's entry in the canvas registry, size the viewport from it, pad
     * the output into the thread grid, link the program and set up the
     * output texture. A throw from `setupParams` leaves the kernel unbuilt
     * and the device and registry untouched.
     */
    method Build(args: seq<Value>) returns (r: Outcome)
      requires Valid() && program.None?
      modifies this`paramTypes, this`maxTexSize, this`threadDim, this`program, this`outputTexture
      modifies gl`calls, gl`nextHandle, gl`activeUnit, gl`bound, gl`linked, gl`linkBound
      modifies registry
      ensures Valid()
      ensures paramTypes == KnownTypes(args)
      ensures r.Pass? <==> |KnownTypes(args)| == |args|
      ensures r.Fail? ==> program.None? && gl.calls == old(gl.calls) && unchanged(registry)
      ensures r.Pass? ==> program.Some? && threadDim == [4, 6, 1] && OutputBound()
      ensures r.Pass? ==> program.value == old(gl.nextHandle)
      ensures SharedGrown(old(gl.linked), old(gl.nextHandle), old(registry.canvases), old(registry.maxTexSizes))
      ensures r.Pass? ==> |old(registry.canvases)| <= |registry.canvases| <= |old(registry.canvases)| + 1
    {
      r := SetupParams(args);
      assert Valid();
      if r.Fail? {
        return;
      }
      Compile();
    }

    /** The part of `build` after `setupParams`, for the kernel that has no program yet. */
    method Compile()
      requires Valid() && program.None?
      modifies this`maxTexSize, this`threadDim, this`program, this`outputTexture
      modifies gl`calls, gl`nextHandle, gl`activeUnit, gl`bound, gl`linked, gl`linkBound
      modifies registry
      ensures Valid()
      ensures program.Some? && threadDim == [4, 6, 1] && OutputBound()
      ensures program.value == old(gl.nextHandle)
      ensures SharedGrown(old(gl.linked), old(gl.nextHandle), old(registry.canvases), old(registry.maxTexSizes))
      ensures |old(registry.canvases)| <= |registry.canvases| <= |old(registry.canvases)| + 1
    {
      ClaimTexSize();
      threadDim := PadShape(output);
      assert threadDim == [4, 6, 1];
      LinkAndAttach();
    }

    /** The program and output texture of `build`: a fresh program linked once, then the output texture bound. */
    method LinkAndAttach()
      requires texSize.Length == 2 && CachesValid()
      modifies this`program, this`outputTexture, gl`calls, gl`nextHandle, gl`activeUnit, gl`bound, gl`linked, gl`linkBound
      ensures CachesValid() && OutputBound()
      ensures program == Some(old(gl.nextHandle)) && Links(gl.linked, program.value) == 1
      ensures gl.nextHandle > old(gl.nextHandle) && LinksKept(old(gl.linked), gl.linked)
    {
      LinkNewProgram();
      SetupOutputTexture();
    }

    /** One pass of the argument loop of `run`: `_addArgument(arguments[i], paramTypes[i], paramNames[i])`. */
    method AddArgumentAt(args: seq<Value>, i: nat, ghost start: map<(int, Target), nat>) returns (r: Outcome)
      requires CachesValid() && i < |paramNames| && argumentsLength == i
      requires AllBound(args, paramTypes, paramNames, constantsLength, i, textureCache, gl.bound)
      requires UnitsKeptOutside(start, gl.bound, constantsLength, constantsLength + i)
      modifies this`argumentsLength, this`textureCache
      modifies this`uniform1fCache, this`uniform1iCache, this`uniform2ivCache, this`uniform3ivCache
      modifies this`programUniformLocationCache
      modifies gl`calls, gl`nextHandle, gl`activeUnit, gl`bound, gl`contents
      ensures CachesValid()
      ensures r.Pass? ==> argumentsLength == i + 1
      ensures r.Pass? ==> AllBound(args, paramTypes, paramNames, constantsLength, i + 1, textureCache, gl.bound)
      ensures r.Pass? ==> UnitsKeptOutside(start, gl.bound, constantsLength, constantsLength + i + 1)
    {
      ghost var before, cache := gl.bound, textureCache;
      r := AddArgument(ArgAt(args, i), TypeAt(paramTypes, i), paramNames[i]);
      if r.Pass? {
        UnitsKeptStep(start, before, gl.bound, constantsLength, constantsLength + i);
        AllBoundStep(args, paramTypes, paramNames, constantsLength, i, cache, before, textureCache, gl.bound);
      }
    }

    /**
     * The argument loop of `run`: `_addArgument` for every parameter name,
     * with `arguments[i]` and `paramTypes[i]`, stopping at the first throw.
     * When all bind, argument i sits on unit `constantsLength + i` and no
     * other unit has been rebound.
     */
    method AddArguments(args: seq<Value>) returns (r: Outcome)
      requires Valid()
      modifies this`argumentsLength, this`textureCache
      modifies this`uniform1fCache, this`uniform1iCache, this`uniform2ivCache, this`uniform3ivCache
      modifies this`programUniformLocationCache
      modifies gl`calls, gl`nextHandle, gl`activeUnit, gl`bound, gl`contents
      ensures Valid()
      ensures r.Pass? ==> argumentsLength == |paramNames|
      ensures r.Pass? ==> AllBound(args, paramTypes, paramNames, constantsLength, |paramNames|, textureCache, gl.bound)
      ensures r.Pass? ==> UnitsKeptOutside(old(gl.bound), gl.bound, constantsLength, constantsLength + |paramNames|)
    {
      argumentsLength := 0;
      var i := 0;
      while i < |paramNames|
        invariant 0 <= i <= |paramNames| && argumentsLength == i
        invariant CachesValid()
        invariant AllBound(args, paramTypes, paramNames, constantsLength, i, textureCache, gl.bound)
        invariant UnitsKeptOutside(old(gl.bound), gl.bound, constantsLength, constantsLength + i)
      {
        r := AddArgumentAt(args, i, old(gl.bound));
        if r.Fail? {
          SettledKept();
          return;
        }
        i := i + 1;
      }
      SettledKept();
      r := Pass;
    }

    /** `useProgram` and the scissor over the texture size, at the head of a run. */
    method UseProgram()
      requires texSize.Length == 2 && program.Some?
      modifies gl`calls
      ensures gl.calls == old(gl.calls) + [GlCall.UseProgram(program.value), Scissor(texSize[0], texSize[1])]
    {
      gl.Emit(GlCall.UseProgram(program.value));
      gl.Emit(Scissor(texSize[0], texSize[1]));
    }

    /** The `uOutputDim` uniform from a fresh Int32Array copy of the thread grid. */
    method SetOutputDimUniform()
      requires |threadDim| >= 3 && CachesValid()
      modifies this`uniform3ivCache, this`programUniformLocationCache, gl`calls, gl`nextHandle
      ensures CachesValid()
      ensures "uOutputDim" in uniform3ivCache && uniform3ivCache["uOutputDim"][..3] == threadDim[..3]
    {
      var grid := threadDim;
      var dim := new int[|grid|](i requires 0 <= i < |grid| => grid[i]);
      SetUniform3iv("uOutputDim", dim);
    }

    /**
     * The uniforms `run` sets before the arguments: the thread grid and the
     * texture size (unless constants are hard-coded), and `ratio`, the
     * texture size over this kernel's registry entry, which lies in (0, 1]
     * on both axes.
     */
    method SetRunUniforms()
      requires Valid() && program.Some?
      modifies this`uniform2fCache, this`uniform2ivCache, this`uniform3ivCache, this`programUniformLocationCache
      modifies gl`calls, gl`nextHandle
      ensures Valid()
      ensures "ratio" in uniform2fCache
      ensures var ratio := uniform2fCache["ratio"]; 0.0 < ratio.0 <= 1.0 && 0.0 < ratio.1 <= 1.0
      ensures !hardcodeConstants ==>
                && "uOutputDim" in uniform3ivCache && uniform3ivCache["uOutputDim"][..3] == [4, 6, 1]
                && "uTexSize" in uniform2ivCache && uniform2ivCache["uTexSize"][..2] == texSize[..2]
    {
      var size := registry.maxTexSizes[maxTexSize.value];
      var width, height := texSize[0], texSize[1];
      assert threadDim[..3] == [4, 6, 1];
      RatioInUnit(width, size.0);
      RatioInUnit(height, size.1);
      SetConstantUniforms();
      ghost var dims, sizes := uniform3ivCache, uniform2ivCache;
      SetUniform2f("ratio", width as real / size.0 as real, height as real / size.1 as real);
      assert uniform3ivCache == dims && uniform2ivCache == sizes;
      SettledKept();
    }

    /** The output grid and texture size uniforms, which a kernel with hard-coded constants leaves out. */
    method SetConstantUniforms()
      requires |threadDim| >= 3 && texSize.Length == 2 && CachesValid()
      modifies this`uniform2ivCache, this`uniform3ivCache, this`programUniformLocationCache
      modifies gl`calls, gl`nextHandle
      ensures CachesValid()
      ensures !hardcodeConstants ==>
                && "uOutputDim" in uniform3ivCache && uniform3ivCache["uOutputDim"][..3] == threadDim[..3]
                && "uTexSize" in uniform2ivCache && uniform2ivCache["uTexSize"][..2] == texSize[..2]
    {
      if !hardcodeConstants {
        SetOutputDimUniform();
        SetUniform2iv("uTexSize", texSize);
      }
    }

    /** The build on first use at the head of `run`; a built kernel is left as it is. */
    method EnsureBuilt(args: seq<Value>) returns (r: Outcome)
      requires Valid()
      modifies this`paramTypes, this`maxTexSize, this`threadDim, this`program, this`outputTexture
      modifies gl`calls, gl`nextHandle, gl`activeUnit, gl`bound, gl`linked, gl`linkBound
      modifies registry
      ensures Valid()
      ensures r.Pass? <==> program.Some?
      ensures program.Some? <==> old(program).Some? || |KnownTypes(args)| == |args|
      ensures old(program).Some? ==> program == old(program) && unchanged(registry) && gl.bound == old(gl.bound)
      ensures r.Pass? && (old(program).None? || old(OutputBound())) ==> OutputBound()
      ensures old(program).None? && program.Some? ==> program.value == old(gl.nextHandle)
      ensures SharedGrown(old(gl.linked), old(gl.nextHandle), old(registry.canvases), old(registry.maxTexSizes))
    {
      if program.Some? {
        return Pass;
      }
      r := Build(args);
    }

    /**
     * The rest of `run` on a built kernel: the run uniforms, every
     * argument on its unit, the draw and the readback of `pixels`, shaped
     * by the output.
     */
    method Execute(args: seq<Value>, pixels: seq<real>) returns (r: Result<Reshape.Shaped>)
      requires Valid() && program.Some?
      modifies this`argumentsLength, this`textureCache, this`uniform1fCache, this`uniform1iCache, this`uniform2fCache
      modifies this`uniform2ivCache, this`uniform3ivCache, this`programUniformLocationCache
      modifies gl`calls, gl`nextHandle, gl`activeUnit, gl`bound, gl`contents
      ensures Valid()
      ensures r.Ok? ==> argumentsLength == |paramNames|
      ensures r.Ok? ==> AllBound(args, paramTypes, paramNames, constantsLength, |paramNames|, textureCache, gl.bound)
      ensures r.Ok? && old(OutputBound()) ==> OutputBound()
      ensures r.Ok? ==> "ratio" in uniform2fCache
                        && 0.0 < uniform2fCache["ratio"].0 <= 1.0 && 0.0 < uniform2fCache["ratio"].1 <= 1.0
      ensures r.Ok? ==> r == Reshape.RenderOutput(pixels, [4, 6, 1], [4, 6])
    {
      UseProgram();
      SetRunUniforms();
      r := BindAndDraw(args, pixels);
    }

    /** Every argument bound, then the draw and readback; a failed binding stops the run. */
    method BindAndDraw(args: seq<Value>, pixels: seq<real>) returns (r: Result<Reshape.Shaped>)
      requires Valid() && program.Some?
      modifies this`argumentsLength, this`textureCache, this`uniform1fCache, this`uniform1iCache
      modifies this`uniform2ivCache, this`uniform3ivCache, this`programUniformLocationCache
      modifies gl`calls, gl`nextHandle, gl`activeUnit, gl`bound, gl`contents
      ensures Valid()
      ensures r.Ok? ==> argumentsLength == |paramNames|
      ensures r.Ok? ==> AllBound(args, paramTypes, paramNames, constantsLength, |paramNames|, textureCache, gl.bound)
      ensures r.Ok? && old(OutputBound()) ==> OutputBound()
      ensures r.Ok? ==> r == Reshape.RenderOutput(pixels, [4, 6, 1], [4, 6])
    {
      ghost var units := gl.bound;
      var bound := AddArguments(args);
      if bound.Fail? {
        return Err(bound.error);
      }
      ghost var outputUnit := (constantsLength + |paramNames|, Texture2D);
      assert outputUnit in units ==> outputUnit in gl.bound && gl.bound[outputUnit] == units[outputUnit];
      r := Draw(pixels);
    }

    /** The draw and readback at the end of `run`, and `renderOutput` on the pixels read back. */
    method Draw(pixels: seq<real>) returns (r: Result<Reshape.Shaped>)
      requires Valid() && program.Some?
      modifies gl`calls
      ensures r == Reshape.RenderOutput(pixels, [4, 6, 1], [4, 6])
      ensures gl.calls == old(gl.calls) + [DrawArrays, ReadPixels(texSize[0], texSize[1])]
    {
      gl.Emit(DrawArrays);
      gl.Emit(ReadPixels(texSize[0], texSize[1]));
      r := Reshape.RenderOutput(pixels, threadDim, output);
    }

    /**
     * `run(args)` for the plain readback path: build on first use, set the
     * run uniforms, bind every argument, draw, and shape the pixels the
     * device reads back (`pixels`, as floats) by the output. The program is
     * built once; a build that throws leaves the kernel unbuilt.
     */
    method Run(args: seq<Value>, pixels: seq<real>) returns (r: Result<Reshape.Shaped>)
      requires Valid()
      modifies this, gl, registry
      ensures Valid()
      ensures old(program).Some? ==> program == old(program) && unchanged(registry)
      ensures program.Some? <==> old(program).Some? || |KnownTypes(args)| == |args|
      ensures old(program).None? && |KnownTypes(args)| < |args| ==> r.Err?
      ensures r.Ok? ==> program.Some? && argumentsLength == |paramNames|
      ensures r.Ok? ==> AllBound(args, paramTypes, paramNames, constantsLength, |paramNames|, textureCache, gl.bound)
      ensures r.Ok? && (old(program).None? || old(OutputBound())) ==> OutputBound()
      ensures r.Ok? ==> "ratio" in uniform2fCache
                        && 0.0 < uniform2fCache["ratio"].0 <= 1.0 && 0.0 < uniform2fCache["ratio"].1 <= 1.0
      ensures r.Ok? ==> r == Reshape.RenderOutput(pixels, [4, 6, 1], [4, 6])
    {
      var built := EnsureBuilt(args);
      if built.Fail? {
        return Err(built.error);
      }
      r := Execute(args, pixels);
    }
}

  /**
   * Two kernels on one WebGL context and canvas: each build links a program
   * of its own, the first kernel stays valid and keeps its program linked
   * exactly once, and both kernels hold the canvas's one registry entry.
   */
  method TwoKernelsOneContext(gl: Gl, registry: Registry.TexSizeRegistry, canvas: nat, args: seq<Value>)
    returns (first: Kernel, second: Kernel)
    requires gl.Valid() && registry.Valid()
    modifies gl, registry
    ensures first != second && first.gl == gl && second.gl == gl
    ensures first.Valid() && second.Valid()
    ensures first.program.Some? <==> |KnownTypes(args)| == |args|
    ensures second.program.Some? <==> |KnownTypes(args)| == |args|
    ensures first.program.Some? ==>
              && second.program.Some? && first.program != second.program
              && Links(gl.linked, first.program.value) == 1 && Links(gl.linked, second.program.value) == 1
              && first.maxTexSize == second.maxTexSize
  {
    first := new Kernel(gl, registry, canvas, false, false);
    var built := first.EnsureBuilt(args);
    label firstBuilt:
    second := new Kernel(gl, registry, canvas, false, false);
    built := second.EnsureBuilt(args);
    first.ValidOnSharedContext@firstBuilt();
    if first.program.Some? {
      registry.EntryOfCanvas(first.maxTexSize.value, second.maxTexSize.value);
    }
  }
}
