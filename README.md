# A verified model of a gpu.js GEMM runtime

This project models, in Dafny, the core of a small GPU compute runtime. The runtime runs one generalized
matrix multiply, C = alpha·A·B + beta·C, in two ways:

- **On the host.** `scoped` computes the result directly.
- **On the GPU.** `gpuFunction` computes one output element per thread. Its exported form is a `Kernel`
  object that does three things:
  - it uploads the arguments to WebGL textures;
  - it sets shader uniforms through value caches;
  - it draws, reads the pixels back and reshapes them by the declared output.

The model follows the program's structure, one module per component:

- `Gemm`: `scoped`, as array methods proved against a specification function of the result.
- `GpuThread`: `gpuFunction` and the compiled shader's bounded loop. Both are proved to compute the
  entry of `scoped`'s result for their thread.
- `ShaderIndex`: the integer index arithmetic compiled into the fragment shader: `integerMod`,
  `indexTo3D` and the linear index and texel coordinate of `get`.
- `TexSize`: `dimToTexSize` (the near-square texel grid) and `checkOutput`.
- `Values`: argument values, the `Texture` and `Input` objects, `getArgumentType`, `getDimensions` and
  the bit-ratio choice of `_formatArrayTransfer`.
- `Flatten`: `flattenTo`, `flatten2dArrayTo` and `flatten3dArrayTo`, writing into a typed-array target.
- `Reshape`: `splitArray` and the reshape at the end of `renderOutput`, as views on one buffer.
- `Registry`: the canvas list and max-texture-size table behind `updateMaxTexSize`. They are locals of one `gpuFunctionExported` call, shared by every kernel made from that call's `Kernel` class.
- `Device`: the WebGL context as a log of calls plus the state it tracks: texture units, bindings,
  uploaded contents and a link count per program. Several kernels may share one context.
- `KernelSpec`: value-level definitions the kernel's contracts are stated with.
- `Kernel`: the `Kernel` class, with each of the following methods changing its fields in place:
  - the uniform caches, whose vector caches hold the caller's arrays by reference;
  - the location and texture memos;
  - `_formatArrayTransfer` and `_addArgument`, with every binding case;
  - `setupParams`, `build` (run once per kernel) and `run`.

All arithmetic is exact: GEMM elements are integers and uniforms are reals.

## Model

| member | source | states |
|---|---|---|
| Gemm.Scoped | cpu-function.js:1-20 | The returned fresh array is C with its leading m×n block replaced by beta·C + alpha·A·B. Every read and write is in bounds when m ≤ ldc and a, b, c cover the highest index used. `c` itself is never modified. |
| Gemm.ComputeColumn | cpu-function.js:5-17 | One pass of the outer loop: each of the first m entries of column j becomes beta times its old value plus the column's sum over l of alpha·b[j·ldb + l]·a[l·lda + i]. All other entries keep their values. |
| Gemm.ScaleColumn | cpu-function.js:7-9 | The first m entries of column j are multiplied by beta. All other entries keep their values. |
| Gemm.AddColumnTerm | cpu-function.js:12-16 | The first m entries of column j gain temp·a[(l−1)·lda + i − 1]. All other entries keep their values. |
| Gemm.ScopedEntry | cpu-function.js:4-18 | Block entry (i, j) of the result equals beta·c + the sum over l of alpha·b[j·ldb + l]·a[l·lda + i], and its offset lies inside c. |
| Gemm.ScopedOutsideBlock | cpu-function.js:3-15 | An entry below row m, or in a column from n on, equals the entry of c. |
| Gemm.ScopedNoTerms | cpu-function.js:7-11 | With k = 0, every block entry is beta times the entry of c. |
| GpuThread.GpuFunction | gpu-function.js:1-12 | The result is c[ldc·y+x]·beta plus the sum over i < k of a[lda·i+x]·alpha·b[ldb·y+i]. With k ≤ 0 it is c[ldc·y+x]·beta. The preconditions are exactly the highest indices read. m and n are never used. |
| GpuThread.ShaderKernel | gpu-function-exported.js:432-444 | The compiled loop sums min(k, LOOP_MAX) products, and for k ≤ 1000 it agrees with `gpuFunction`. |
| GpuThread.ThreadSumIsColumnDot | gpu-function.js:5-8 | The thread's running sum and `scoped`'s column sum add the same products. |
| GpuThread.ThreadMatchesScoped | gpu-function.js:2-11 | For x < m and y < n, thread (x, y) computes the entry `scoped` leaves at ldc·y + x. |
| ShaderIndex.IntegerMod | gpu-function-exported.js:286-288 | The truncating remainder is smaller than \|y\| in magnitude and has the sign of x. For x ≥ 0 and y > 0 it is x mod y. |
| ShaderIndex.IndexTo3DOfLinear | gpu-function-exported.js:351-366 | For 0 ≤ x < X, 0 ≤ y < Y and z ≥ 0, `indexTo3D` of x + X·(y + Y·z) is (x, y, z). |
| ShaderIndex.LinearOfIndexTo3D | gpu-function-exported.js:351-357 | For every index ≥ 0, `indexTo3D` gives an in-grid (x, y, z) whose linear index is that index. |
| ShaderIndex.TexelOfInGrid | gpu-function-exported.js:359-366 | An index below w·h maps to a texel (s, t) inside the w×h grid with s + w·t = index. |
| TexSize.DimToTexSize | gpu-function-exported.js:115-139 | For positive dims it returns w, h ≥ 1 with w·h ≥ N, w·(h−1) < N and w ≤ N. N is the element count, or ⌈count/4⌉ in packed float mode. Outside packed mode, when dims[1] > 1 and dims[0]·dims[1] is the count, it returns [dims[0], dims[1]]. |
| TexSize.NearSquare | gpu-function-exported.js:129-138 | The square-root search ends with w, h ≥ 1, w·h ≥ n, w·(h−1) < n and w ≤ n. |
| TexSize.FloorSqrt | gpu-function-exported.js:131 | r² ≤ n < (r+1)². |
| TexSize.CeilSqrt | gpu-function-exported.js:130 | n ≤ r², and (r−1)² < n when r > 0. |
| TexSize.CeilDivBounds | gpu-function-exported.js:134 | ⌈n/d⌉ is the least q with d·q ≥ n. |
| TexSize.CheckOutput | gpu-function-exported.js:197-203 | Accepts iff no axis is NaN or below 1. A rejection names the first bad axis. |
| Values.Texture.constructor | gpu-function-exported.js:226-237 | A texture keeps its handle and its size, dimensions and output arrays by reference. |
| Values.Input.constructor | gpu-function-exported.js:205-225 | `size` is a fresh array equal to `InputSize`. |
| Values.InputSize | gpu-function-exported.js:208-224 | The size has at least three entries. An Array size is kept with trailing 1s. An {x, y, z} size is [x, y, z] when z is truthy (y kept as given, even when falsy), [x, y, 1] when only y is truthy, else [x, 1, 1]. |
| Values.PadTo3 | gpu-function-exported.js:107-112 | The original entries are unchanged, and the appended entries are all 1 up to length 3. |
| Values.IsArray | gpu-function-exported.js:190-196 | Throws exactly on undefined, and is true exactly for array-likes. |
| Values.GetArgumentType | gpu-function-exported.js:64-88 | One iff per type: an array is HTMLImageArray exactly when its first element is an IMG, and Array otherwise; a number is Integer iff integral, else Float; a Texture is TextureVec4 exactly when its type is vec4, and Texture otherwise; then Input, IMG, else Unknown. It throws exactly for undefined or an array whose first element is undefined (an empty array included). |
| Values.NestedLengths | gpu-function-exported.js:92-97 | The lengths along the chain of first elements, outermost first, one per level (`Depth`); the tail is the first element's chain. It throws exactly when the chain ends in undefined or an empty array. |
| Values.ChainLengths | gpu-function-exported.js:91-97 | The while loop collects exactly `NestedLengths`. |
| Values.Reverse | gpu-function-exported.js:98 | Entry i of the result is entry \|s\|−1−i of the input. |
| Values.PadShape | gpu-function-exported.js:530-533 | The padding loop yields `PadTo3` of the shape. |
| Values.GetDimensions | gpu-function-exported.js:89-114 | Nested lengths innermost first for an array, a Texture's output, an Input's size, else a throw. Padded to three entries with `pad`. |
| Values.TransferPlanOf | gpu-function-exported.js:858-882 | Nested arrays or float textures: flatten with ratio 1. 8-bit: 4. 16-bit: 2, falling through. 32-bit: 1, unflattened. Others: flatten with ratio 1. Throws exactly when the first element is undefined. |
| Values.MatrixDimensions | gpu-function-exported.js:89-114 | A rows×cols nested array has dimensions [cols, rows], and [cols, rows, 1] padded. |
| Flatten.SetAt | gpu-function-exported.js:154 | `target.set(row, offset)` copies the row when it fits, else throws and changes nothing. |
| Flatten.ConcatAt | gpu-function-exported.js:151-157 | Element x of row y lands at (sum of the earlier rows' lengths) + x. |
| Flatten.CopyRows | gpu-function-exported.js:153-156 | Succeeds iff all rows fit. Either way, the rows that fit are written in order and every later entry is untouched. |
| Flatten.Flatten2dArrayTo | gpu-function-exported.js:151-157 | Succeeds iff the rows fit. The target is the fitting rows' concatenation followed by its untouched rest. |
| Flatten.Flatten3dArrayTo | gpu-function-exported.js:158-166 | The same as flattening every plane's rows in order, with one running offset. |
| Flatten.FlattenTo | gpu-function-exported.js:140-150 | Dispatches on the first elements. It throws on an undefined probe. On success the target starts with the flattened values and the rest is untouched. |
| Reshape.SplitArray | gpu-function-exported.js:57-63 | No views exactly for an empty array. Every view has `part` elements and starts inside the array. The first view is at the array's start and the last one reaches its end. |
| Reshape.SplitStart | gpu-function-exported.js:59-60 | View q starts q·part after the array's start. |
| Reshape.SplitExact | gpu-function-exported.js:57-63 | rows·part elements split into exactly `rows` views. |
| Reshape.RenderOutput | gpu-function-exported.js:920-931 | Truncated to the thread count. Rank 1 returns it flat, and other ranks than 1–3 return nothing. Row views lie inside the buffer. |
| Reshape.RenderRows | gpu-function-exported.js:920-926 | A rank-2 output has output[1] rows, with result[y][x] = flat[x + output[0]·y]. |
| Reshape.RenderCube | gpu-function-exported.js:927-931 | A rank-3 output is the planes of rows given by `CubeViews`, all inside the buffer. |
| Reshape.ReadbackCellIsThread | gpu-function-exported.js:927-931 | result[z][y][x] reads flat[x + output[0]·(y + output[1]·z)], whose `indexTo3D` is (x, y, z). |
| Registry.IndexOf | gpu-function-exported.js:938 | `indexOf`: −1 iff the canvas is absent, else its first position. |
| Registry.TexSizeRegistry.constructor | gpu-function-exported.js:239-240 | The registry starts with no canvases and no entries. |
| Registry.TexSizeRegistry.UpdateMaxTexSize | gpu-function-exported.js:934-952 | The kernel's entry (found or added for its canvas) becomes the componentwise max of itself and the texture size. Other entries are unchanged. The canvas list grows by at most the new canvas and stays duplicate-free. |
| Registry.TwoKernelsOneCanvas | gpu-function-exported.js:934-952 | Two kernels on one canvas share one entry that covers both texture sizes. No entry shrinks. Each `gpuFunctionExported` call has its own registry (lines 239-240) and exports one kernel (line 1053). A shared entry therefore arises only when a second kernel is made from the same call's class, for example through the exported kernel's `constructor`. |
| Registry.TexSizeRegistry.EntryOfCanvas | gpu-function-exported.js:938-944 | `indexOf` finds a canvas at one index only, so two kernels that found the same canvas hold the same entry. |
| KernelSpec.OwnTypeIsSupported | gpu-function-exported.js:699-705 | An argument bound with its own recorded type is rejected exactly when it is an object of unknown kind. |
| KernelSpec.KnownTypes | gpu-function-exported.js:501-509 | The recorded types are the arguments' types up to the first argument whose classification throws. |
| KernelSpec.KnownTypesUnique | gpu-function-exported.js:501-509 | Any prefix of types with that property is `KnownTypes`. |
| KernelSpec.AsWrittenFloatUploadTooShort | gpu-function-exported.js:720-724 | As written, with float textures the flattening target has fewer entries than the n ≥ 2 values it receives. |
| KernelSpec.UploadFits | gpu-function-exported.js:720-724 | With four floats per texel in float mode, the target holds every value for any grid `dimToTexSize` returns. |
| KernelSpec.MatrixEntries | gpu-function-exported.js:140-157 | A rows×cols matrix flattens to rows·cols values row-major: for y < rows and x < cols, entry (y, x) lies at y·cols + x. |
| KernelSpec.MatrixLayout | gpu-function-exported.js:858-863 | A matrix is flattened with ratio 1 in both modes and has padded dimensions [cols, rows, 1]. |
| KernelSpec.AllBoundStep | gpu-function-exported.js:637-640 | Binding argument n on unit lo + n, keeping the other units and memoised textures, extends the bound prefix. |
| Kernel.Kernel.constructor | gpu-function-exported.js:242-253 | A new kernel: texture size [4, 6], the initial parameter types, no registry entry, no program, empty caches. It accepts any valid context and registry, including ones other kernels already use. |
| Kernel.Kernel.ValidOnSharedContext | gpu-function-exported.js:493-494 | Another kernel on the same context and registry keeps this kernel valid. That kernel may add handles and links and grow the registry, but keeps every earlier link count. |
| Kernel.TwoKernelsOneContext | gpu-function-exported.js:493-494 | Two kernels built on one context and canvas each link a program of their own, linked exactly once. The first stays valid, and both hold the canvas's one registry entry. |
| Kernel.Kernel.GetUniformLocation | gpu-function-exported.js:495-500 | Asks the device only on a miss, and memoises the answer. |
| Kernel.Kernel.SetUniform1f | gpu-function-exported.js:973-983 | A device write happens iff the name is uncached or the value differs. Afterwards the cache holds the value and other names are unchanged. |
| Kernel.Kernel.SetUniform1i | gpu-function-exported.js:984-994 | As for 1f, for integers. |
| Kernel.Kernel.SetUniform2f | gpu-function-exported.js:995-1005 | A write happens iff the name is uncached or a component differs. The cache holds the pair. |
| Kernel.Kernel.SetUniform2fv | gpu-function-exported.js:1006-1016 | On a hit nothing is sent and the cached array is kept. On a miss the cache takes the caller's very array. |
| Kernel.Kernel.SetUniform2iv | gpu-function-exported.js:1017-1027 | As for 2fv, for integer vectors. |
| Kernel.Kernel.SetUniform3fv | gpu-function-exported.js:1028-1038 | As for 2fv, comparing three components. |
| Kernel.Kernel.SetUniform3iv | gpu-function-exported.js:1039-1049 | As for 3fv, for integer vectors. |
| Kernel.Kernel.GetTextureCache | gpu-function-exported.js:891-896 | A hit changes nothing. A miss creates one fresh texture and memoises it. |
| Kernel.Kernel.DetachTextureCache | gpu-function-exported.js:970-972 | Removes exactly that name. |
| Kernel.Kernel.RefreshTexture | gpu-function-exported.js:891-896 | After a detach, the next fetch yields a texture never handed out before. |
| Kernel.Kernel.FormatArrayTransfer | gpu-function-exported.js:858-887 | The bit ratio follows `TransferPlanOf`. A flattened transfer is `length` floats holding the values and then zeros. An unflattened one is the value's own numbers. |
| Kernel.Kernel.ArrayGrid | gpu-function-exported.js:708-712 | The padded dimensions and a texel grid whose upload, with the corrected 4·w·h float length (see Findings), holds every value. A matrix always measures, as [cols, rows, 1]. |
| Kernel.Kernel.TransferArray | gpu-function-exported.js:720-731 | With the texture bound on the active unit, a matrix uploads row-major followed by zeros. With float textures the target has the corrected 4·w·h floats (see Findings). An Input with float textures throws (line 770). On success the bit ratio is the one `_formatArrayTransfer` plans for the value. |
| Kernel.Kernel.SetShapeUniforms | gpu-function-exported.js:735-736 | `user_<name>Dim` and `user_<name>Size` hold the given dimension and size arrays. |
| Kernel.Kernel.SetSamplerUniforms | gpu-function-exported.js:738-739 | `user_<name>BitRatio` holds the bit ratio when there is one, and `user_<name>` holds the sampler index. |
| Kernel.Kernel.SetArgumentUniforms | gpu-function-exported.js:734-739 | When `shape` is set, Dim and Size hold the given arrays. BitRatio holds the ratio when there is one, and the sampler uniform holds `argumentsLength`. |
| Kernel.Kernel.MeasureAndUpload | gpu-function-exported.js:708-731 | Only the next unit's binding changes: it holds the argument's texture on success. On success the dimensions are the padded ones and the bit ratio is the planned one. A matrix always uploads, row-major followed by zeros; with float textures this relies on the corrected length (see Findings). |
| Kernel.Kernel.InputGrid | gpu-function-exported.js:751-755 | The grid `dimToTexSize` plans for an Input's size has at least as many texels as the size needs. |
| Kernel.Kernel.BindUnit | gpu-function-exported.js:713-714 | The next unit becomes active and holds the texture. No other binding changes. |
| Kernel.Kernel.UploadArray | gpu-function-exported.js:713-731 | Binds the texture on the next unit. A matrix uploads row-major followed by zeros, with the corrected float length (see Findings). An Input with float textures throws (line 770). On success the bit ratio is the planned one. |
| Kernel.Kernel.BindArray | gpu-function-exported.js:706-741 | A bound array is sampled from unit `constantsLength + argumentsLength`, with sampler uniform `argumentsLength`. Its BitRatio uniform is the ratio `_formatArrayTransfer` plans for the value, and unless constants are hardcoded its Dim uniform is the padded dimensions. A matrix always binds, and its texture holds its entries then zeros; with float textures this relies on the corrected length (see Findings). Other units keep their bindings. |
| Kernel.Kernel.SetFreshUniforms | gpu-function-exported.js:733-739 | For the cases that build their Dim and Size arrays afresh: when asked, Dim holds the given dimensions and Size the grid [w, h]; BitRatio holds the given ratio; the sampler uniform holds `argumentsLength`. |
| Kernel.Kernel.UploadInput | gpu-function-exported.js:748-772 | Only the next unit's binding changes: it holds the texture on success. An Input whose size is shorter than three fails. With float textures it always throws. On success the bit ratio is the one planned for the wrapped value. |
| Kernel.Kernel.BindInput | gpu-function-exported.js:748-783 | Unless constants are hardcoded, the Dim uniform holds the Input's own size (on a cache miss, by reference). Its BitRatio uniform is the ratio planned for the wrapped value. With float textures it always throws. |
| Kernel.Kernel.BindImage | gpu-function-exported.js:784-806 | Binds iff the value is an image. Dim is [width, height, 1]. |
| Kernel.Kernel.UploadLayers | gpu-function-exported.js:827-832 | Uploads every layer iff all elements are images. |
| Kernel.Kernel.UploadImageArray | gpu-function-exported.js:813-832 | Binds a 2D array texture, allocates it from the first image and uploads each layer in order. |
| Kernel.Kernel.BindImageArray | gpu-function-exported.js:807-837 | Binds iff the value is a non-empty array of images. Dim is [width, height, number of images]. |
| Kernel.Kernel.BindTextureValue | gpu-function-exported.js:838-852 | Binds the texture's own handle, with bit ratio 1. Dim and Size are the texture's own dimensions and size. |
| Kernel.Kernel.BindScalar | gpu-function-exported.js:742-747 | A number sets `user_<name>` in the float cache. |
| Kernel.Kernel.BindValue | gpu-function-exported.js:705-855 | The switch: each case's guarantees. An unsupported type throws. A matrix as an Array binds, with the corrected float length (see Findings). |
| Kernel.Kernel.AddArgument | gpu-function-exported.js:699-857 | Fetches the argument's memoised texture first. A Texture value is always bound as a texture. `argumentsLength` grows by one iff the bind succeeds. Only unit `constantsLength + argumentsLength` is rebound. A matrix as an Array binds, with the corrected float length (see Findings). |
| Kernel.Kernel.SetupParams | gpu-function-exported.js:501-509 | `paramTypes` becomes `KnownTypes(args)`. It succeeds iff every argument is classified. |
| Kernel.Kernel.SetupOutputTexture | gpu-function-exported.js:953-969 | A fresh texture on unit `constantsLength + paramNames.length`, allocated at the texture size and attached to the framebuffer. |
| Kernel.Kernel.ClaimTexSize | gpu-function-exported.js:522-527 | The kernel's registry entry is its own canvas's and covers its texture size. The viewport spans the entry. The canvas list is only extended. |
| Kernel.Kernel.LinkNewProgram | gpu-function-exported.js:568-571 | One program on a fresh handle, linked once. No other program's link count changes. |
| Kernel.Kernel.Compile | gpu-function-exported.js:522-617 | A built kernel: its program is a fresh handle linked once, with thread grid [4, 6, 1] and the output texture bound. Other programs' links are kept, and the registry only grows. |
| Kernel.Kernel.LinkAndAttach | gpu-function-exported.js:567-614 | The end of `build`: this kernel's program is the next fresh handle, linked exactly once, and the output texture is bound. Every earlier link count is kept. |
| Kernel.Kernel.Build | gpu-function-exported.js:518-618 | If `setupParams` throws, the kernel stays unbuilt and the device and registry are untouched. Otherwise the kernel is built on a fresh program handle and registry entries only grow. Either way, other programs' link counts are kept and the canvas list is only extended. |
| Kernel.Kernel.AddArgumentAt | gpu-function-exported.js:638-640 | One iteration of the argument loop: when argument i binds, the bound prefix grows to i + 1 arguments and the units outside the range stay as they were. |
| Kernel.Kernel.AddArguments | gpu-function-exported.js:637-640 | On success, argument i is supported and bound on unit `constantsLength + i`, and no unit outside the argument range was rebound. |
| Kernel.Kernel.UseProgram | gpu-function-exported.js:628-629 | Emits `useProgram` with the kernel's program, then a scissor over the texture size. |
| Kernel.Kernel.SetOutputDimUniform | gpu-function-exported.js:632 | `uOutputDim` holds a copy of the thread grid. |
| Kernel.Kernel.SetConstantUniforms | gpu-function-exported.js:631-634 | Unless constants are hard-coded, `uOutputDim` holds the thread grid and `uTexSize` the texture size. |
| Kernel.Kernel.SetRunUniforms | gpu-function-exported.js:631-636 | `uOutputDim` = [4, 6, 1] and `uTexSize` = texSize, unless hard-coded. `ratio` lies in (0, 1] on both axes. |
| Kernel.Kernel.EnsureBuilt | gpu-function-exported.js:620-622 | Build on first use only. A built kernel keeps its program, registry and bindings. A new program is a fresh handle. Other programs' link counts are kept, and the registry only grows. |
| Kernel.Kernel.Draw | gpu-function-exported.js:659-673 | Draws (line 673), reads back the texture size (lines 914-918) and returns `renderOutput` (line 697), reshaping by the output. |
| Kernel.Kernel.BindAndDraw | gpu-function-exported.js:637-697 | If every argument binds, the output texture is still bound and the result is `RenderOutput` of the pixels. The kernel stays valid either way. |
| Kernel.Kernel.Execute | gpu-function-exported.js:628-697 | The run's uniforms, all arguments bound, the output texture still bound, and the result is `RenderOutput` of the pixels. |
| Kernel.Kernel.Run | gpu-function-exported.js:619-698 | The program is built at most once. A failed build is an error. On success every argument is bound on its own unit, the output texture stays bound, the ratio is in (0, 1], and the result is the reshaped readback. |

## Left out

- IEEE floating point is not modelled. GEMM elements are `int`, and uniforms and texture data are `real`. NaN (`isNaN`, and `===` on NaN in the uniform caches) appears only as an abstract axis value in `checkOutput`.
- `Math.sqrt` is not modelled. `dimToTexSize` uses an exact integer floor and ceiling square root.
- WebGL is an event log (`Device.Gl`):
  - the model keeps texture units, bindings, uploaded contents and linked programs;
  - `texParameteri`, `pixelStorei`, buffers, attributes, shaders and the framebuffer object are left out;
  - shader compilation always succeeds;
  - the canvas is an identity, and its width and height are not modelled;
  - readback pixels are a parameter of `Run`: the Float32 view of the bytes `readPixels` fills.
- The shader's float code is left out, because it is floating-point numerics: `encode32`/`decode32`, float `integerMod`, bit-ratio `decode`, `main`'s texel-to-index mapping and the vertex `ratio` mapping.
- The graphical, `outputToTexture`, `outputImmutable`, sub-kernel and constants paths of `build` and `run` are left out, because none is set in this file. So are the `floatOutput` readback and `Float32Array(bytes.buffer)` byte reinterpretation.
- `floatTextures` and `hardcodeConstants` are never set in the exported file. The model makes them constructor parameters so that both branches are visible.
- `paramSizes` in `setupParams` is left out, because nothing reads it.
- `kernelRunShortcut`, `allPropertiesOf`, `utils.clone` and `initWebGl` are left out.
  - They are reflection and context set-up.
  - Padding is modelled directly.
- Kernel.Kernel.BindValue: a value whose kind does not match its recorded type fails with a "not modelled" error instead of the browser's behaviour. The cases are a non-number as a number, a non-Input as an Input, a non-Texture as a Texture, and a non-image first element of an image array.
- Kernel.Kernel.TransferArray: a typed-array argument is taken to own its buffer from byte 0. The source uploads `new Uint8Array(valuesFlat.buffer)` (lines 730 and 772), which is the whole underlying buffer. A view at an offset therefore uploads the buffer's leading numbers, not the view's; one example is a row that `splitArray` cut from a result. Views and byte offsets are not modelled.
- Kernel.Kernel.ArrayGrid: its promise that the upload holds every value uses the corrected 4·w·h float length (see Findings); with the source's w·h floats a float-texture upload of two or more numbers is too short.
- Kernel.Kernel.ArrayGrid: ragged or non-numeric arrays, and extents below 1, fail with a "not modelled" error.
- Kernel.Kernel.BindInput: an Input whose size has fewer than three entries or an extent below 1 fails with a "not modelled" error.
- Kernel.Kernel.BindTextureValue: a Texture whose dimensions or size array is too short fails with a "not modelled" error.
- Flatten.FlattenTo: ragged or non-numeric nested arrays fail with a "not modelled" error, instead of the values JavaScript's coercions would give.
- Kernel.Kernel.TransferArray: with float textures it flattens into the corrected 4·w·h floats (see Findings). The source allocates w·h floats and throws a RangeError for any Array value of two or more numbers; the model binds those values instead.
- Kernel.Kernel.UploadArray: with float textures a matrix uploads with the corrected length, where the source throws a RangeError (see Findings).
- Kernel.Kernel.MeasureAndUpload: its promise that a matrix always uploads holds with float textures only for the corrected length; the source throws a RangeError there.
- Kernel.Kernel.BindArray: its promise that a matrix always binds holds with float textures only for the corrected length; the source throws a RangeError there.
- Kernel.Kernel.BindValue: its promise that a matrix bound as an Array passes holds with float textures only for the corrected length; the source throws a RangeError there.
- Kernel.Kernel.AddArgument: its promise that a matrix bound as an Array passes holds with float textures only for the corrected length; the source throws a RangeError there. `run` with float textures and such an argument therefore succeeds in the model and throws in the source.
- Reshape.SplitArray: `part` = 0, for which the source loops forever, is excluded by the precondition.
- Registry.TexSizeRegistry.UpdateMaxTexSize: the texture size must be at least 1 in each axis. The kernel's is [4, 6].
- Gemm.Scoped: it requires the BLAS conditions m ≤ ldc and inputs long enough for the highest index. The source reads `undefined` past the end.
- Gemm.Scoped: m, n and k are natural numbers. Negative counts, for which the source's loops do not run and it returns a copy of c, are not modelled.

## Findings

| source | as written | input that shows it | evidently intended | confidence | as-written member | corrected member |
|---|---|---|---|---|---|---|
| gpu-function-exported.js:720-724 | With `floatTextures`, `_addArgument` passes length size[0]·size[1] (one float per texel) to `_formatArrayTransfer`. `dimToTexSize` packs four values per texel, so the flattening target is shorter than the data and `target.set` throws a RangeError. The Input case (763-765) is the same. | Any Array argument of n ≥ 2 values with float textures on, for example a 4×6 matrix: n = 24 and the grid is 2×3, so 6 floats are allocated for 24 values. | Four floats per texel (RGBA32F), 4·size[0]·size[1]. | medium, not executed; latent, since `floatTextures` is never set in this file | KernelSpec.AsWrittenFloatUploadTooShort | KernelSpec.UploadFits |
