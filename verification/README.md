# realcugan-ncnn-vulkan-rs binding core in Dafny

This project models `RealCugan`, the Rust binding to the native Real-CUGAN upscaler. It covers three things:

- **Construction.** `RealCugan::new` is modelled in full:
  - the scale is checked against the per-scale pre-padding table;
  - the `Nose` variant has its sync gap forced to 0;
  - the model directory is chosen and the two model-file paths are built;
  - the GPU instance is brought up, the gpu id is validated, and the instance is torn down if the id is rejected;
  - the tile size is planned from the device's heap budget;
  - the engine is initialised, and then the model is loaded.
- **Processing.** `proc_image` is modelled in full:
  - the channel count is normalised;
  - `i32` descriptors are built for the input and output buffers;
  - the engine's output is copied out and then freed;
  - the image is rebuilt by `convert_image`.
- **Typed properties.** Both operations have properties stated about their results.

How the program's behaviour is represented:

- **Native calls.** The binding's calls into the engine (`realcugan_*`) are recorded as a trace (`NativeAbi.NativeCall`). Each operation returns its trace next to its outcome.
- **Engine answers.** What the engine answers is a parameter of the operation that asks:
  - the gpu count and the heap budget (`Engine.Device`);
  - the output pixels (`pixels: nat -> u8`);
  - the status of `realcugan_process`, which the binding never reads.
- **Panics.** A panic of the binding is an `Err` value:
  - `Engine.NewError` for `new`;
  - `Marshal.ProcError` for `proc_image` and `convert_image`.
- **Integer widths.** Widths are explicit:
  - `as i32` on a `u32` wraps (`MachineInts.U32AsI32`);
  - `as u32` on an `i32` wraps (`MachineInts.I32AsU32`);
  - an `i32` product that overflows panics, as in a debug build (`MachineInts.MulI32`).

The scale-3 threshold chain of the planner is kept in two orders, selected by `TilePlanner.Scale3Order`:

- `AsWritten` is the order of the code;
- `Descending` is the likelier intended order. See "Findings" for another reading.

`New` takes the order as a parameter.

Modules, one file each:

| module | file | holds |
|---|---|---|
| `Results` | `results.dfy` | `Option` and `Result` |
| `MachineInts` | `machine_ints.dfy` | fixed-width integers and the casts |
| `Decimal` | `decimal.dfy` | the decimal formatting that `format!` applies to scale and noise, with its parser |
| `TilePlanner` | `tile_planner.dfy` | the tile-size planner |
| `ModelFiles` | `model_files.dfy` | pre-padding, sync gap, model directory and model paths |
| `NativeAbi` | `native_abi.dfy` | the native calls, and counting and GPU-instance state over a trace |
| `Engine` | `engine.dfy` | `RealCugan::new` |
| `Marshal` | `marshal.dfy` | `proc_image` and `convert_image` |

## Model

| member | source | states |
|---|---|---|
| TilePlanner.PlanTileSize | src/realcugan.rs:116-161 | A nonzero requested tile size is used as given. With no request, the CPU id -1 gets 400. With no request on a GPU id, the size is the budget-derived `BudgetTileSize` of the queried heap budget. With no request it is always one of 400, 300, 200, 100 or 32. |
| TilePlanner.PlanIgnoresUnqueriedBudget | src/realcugan.rs:116-119 | When the heap budget is not queried (explicit tile size, or the CPU), the planned size does not depend on the budget. |
| TilePlanner.TakenBranch | src/realcugan.rs:121-157 | An if/else-if chain takes the first branch whose threshold the budget strictly exceeds. No earlier branch's threshold is exceeded. |
| TilePlanner.Chain | src/realcugan.rs:121-157 | An if/else-if chain yields its final `else` value when no threshold is exceeded. Otherwise it yields the tile of the first branch whose threshold the budget strictly exceeds. |
| TilePlanner.BudgetTileSize | src/realcugan.rs:121-157 | The budget-derived size is always one of 400, 300, 200, 100 or 32. A scale other than 2, 3 or 4 gets 32. |
| TilePlanner.ChainMonotone | src/realcugan.rs:121-154 | A chain whose tiles descend gives a tile that never shrinks as the budget grows, whatever the order of its thresholds. |
| TilePlanner.BudgetTileSizeMonotone | src/realcugan.rs:121-157 | For every scale and either scale-3 order, more heap budget never yields a smaller tile. |
| TilePlanner.ShadowedBranchNeverTaken | src/realcugan.rs:131-142 | A branch whose threshold is not above an earlier branch's threshold is never taken. |
| TilePlanner.Scale2ClosedForm | src/realcugan.rs:121-130 | At scale 2, a budget above 1300 gives 400, above 800 gives 300, above 200 gives 100, and otherwise 32. |
| TilePlanner.Scale4ClosedForm | src/realcugan.rs:143-154 | At scale 4, a budget above 1690 gives 400, above 980 gives 300, above 530 gives 200, above 240 gives 100, and otherwise 32. |
| TilePlanner.Scale2Buckets | src/realcugan.rs:121-130 | Scale 2 yields only 400, 300, 100 or 32, with no 200 bucket. Budgets 1301, 801, 201 and 50 give 400, 300, 100 and 32. |
| TilePlanner.Scale3AsWrittenReduces | src/realcugan.rs:131-142 | In the code's order, the 300 and 200 branches of scale 3 are dead. The chain reduces to: above 330 gives 400, above 320 gives 100, otherwise 32. |
| TilePlanner.EveryBranchReachable | src/realcugan.rs:121-157 | With strictly decreasing thresholds, a budget one above a branch's threshold takes exactly that branch. |
| TilePlanner.Scale3DescendingAllLive | src/realcugan.rs:131-142 | The descending scale-3 chain reaches every branch. The code's scale-3 thresholds are not descending. |
| TilePlanner.Scale3DescendingBuckets | src/realcugan.rs:131-142 | In descending order, budgets 1901, 951, 331, 321 and 320 give 400, 300, 200, 100 and 32. |
| TilePlanner.Scale3OrdersDisagree | src/realcugan.rs:131-142 | The two scale-3 orders disagree: 1000 gives 400 against 300, and 400 gives 400 against 200. They agree at 2000. |
| ModelFiles.Prepadding | src/realcugan.rs:84-89 | Pre-padding exists exactly for scales 2, 3 and 4, with values 18, 14 and 19. Any other scale is the panic. |
| ModelFiles.EffectiveSyncGap | src/realcugan.rs:91 | `Nose` always gets sync gap 0. The other variants keep the requested gap. |
| ModelFiles.ModelDirInjective | src/realcugan.rs:92-96 | Each variant has its own directory, and every directory name starts with `models-`. |
| ModelFiles.FileNamesShareStem | src/realcugan.rs:99-108 | Each of the three noise branches builds `{up}x-{suffix}.bin` and `{up}x-{suffix}.param`, where `suffix` is `NoiseSuffix` of the noise level. |
| ModelFiles.PathsShareStem | src/realcugan.rs:92-108 | The `.bin` and `.param` paths are one stem `{root}/{dir}/up{scale}x-{suffix}` plus their extension. |
| ModelFiles.ParseNoiseSuffixInverse | src/realcugan.rs:99-108 | The noise level is recovered from the file-name suffix: `conservative` is -1, `no-denoise` is 0, `denoise{n}x` is n. |
| ModelFiles.ModelFileDeterminesConfig | src/realcugan.rs:92-108 | Under one models root, equal weights paths imply equal variant, scale and noise level. The directory map and the naming are injective. |
| MachineInts.U32AsI32 | src/realcugan.rs:167-170 | `as i32` on a `u32` keeps values up to `i32::MAX`, gives a negative value above it, and agrees modulo 2^32. |
| MachineInts.I32AsU32 | src/realcugan.rs:244 | `as u32` on an `i32` keeps non-negative values and agrees modulo 2^32. |
| MachineInts.MulI32 | src/realcugan.rs:226-227 | An `i32` product has a value exactly when the exact product fits in `i32`, and then it is the exact product. Otherwise it is the overflow panic, also used for line 240. |
| Decimal.FormatNat | src/realcugan.rs:100 | The decimal form of a natural number is non-empty and all digits. It starts with `0` only for 0. |
| Decimal.FormatInt | src/realcugan.rs:106-107 | The decimal form of an integer starts with `-` exactly when the integer is negative. Digits follow. |
| Decimal.ParseFormatInt | src/realcugan.rs:106-107 | Parsing the formatted noise level gives it back. |
| Decimal.FormatIntInjective | src/realcugan.rs:106-107 | Distinct noise levels format differently. |
| Engine.New | src/realcugan.rs:73-182 | `new` panics for an unsupported scale, for a gpu id outside `-1 .. count-1` on a supported scale, and for a NUL in the models root past both checks. Each holds exactly when its condition does. A handle keeps the requested scale. |
| Engine.InitAndLoad | src/realcugan.rs:116-176 | After the gpu check, construction fails exactly when a model path holds a NUL. That failure is the C-string panic. |
| Engine.HeapQuery | src/realcugan.rs:116-119 | At most one heap-budget query is made. It is made exactly when the tile size is 0 and the gpu id is not the CPU's, and it names the gpu id. |
| Engine.NewNeverPlansForOtherScale | src/realcugan.rs:155-156 | Whenever `new` asks for the heap budget, the scale is 2, 3 or 4, and the planned size is the budget-derived one. The planner's final "other scale" branch is dead. |
| Engine.NewRejectsScaleFirst | src/realcugan.rs:84-89 | An unsupported scale panics before any native call. |
| Engine.NewRejectsGpuAfterTeardown | src/realcugan.rs:110-115 | A rejected gpu id makes exactly the calls init GPU instance, count, destroy. The instance ends down. There is no heap query, init or load. |
| Engine.NewInitialisesThenLoads | src/realcugan.rs:110-176 | On success the GPU instance is up. The engine is initialised exactly once, second to last. It is loaded exactly once, last, with the `.param` path first and the `.bin` path second. |
| Engine.NewQueriesHeapBudgetOnlyToPlan | src/realcugan.rs:116-119 | The heap budget is queried exactly when both checks pass with tile size 0 on a GPU id. |
| Engine.NewQueriesRequestedDevice | src/realcugan.rs:119 | Any heap-budget query is the third call and names the requested gpu id. |
| Engine.NewInitParams | src/realcugan.rs:162-171 | The engine is initialised with the caller's gpu id, tta flag, thread count and noise, and with the scale as `i32`. It also gets pre-padding 18/14/19, the planned tile size as `i32`, and sync gap 0 for `Nose` or else the requested gap as `i32`. |
| Engine.NoseIgnoresRequestedSyncGap | src/realcugan.rs:91 | For `Nose`, changing the requested sync gap changes nothing in the construction. |
| NativeAbi.GpuInstanceUnchanged | src/realcugan.rs:110-113 | Calls other than GPU-instance init and destroy leave the GPU-instance state as it was. This state is `GpuInstanceUp`, decided by the last init or destroy. |
| Engine.PathNulIffRootNul | src/realcugan.rs:174-175 | Either model path holds a NUL, so its C-string conversion panics, exactly when the models root does. |
| Marshal.NormaliseChannels | src/realcugan.rs:188-194 | One byte per pixel becomes 3 channels and two become 4. Any other count passes through. The result is never 1 or 2. |
| Marshal.KindFor | src/realcugan.rs:249-258 | A layout exists exactly for 1 to 4 channels, and its channel count is the one asked for. |
| Marshal.ConvertImage | src/realcugan.rs:248-261 | It succeeds exactly for 1 to 4 channels with at least `width*height*channels` bytes, keeping the size and bytes. Any other channel count is the "unexpected channel" panic. |
| Marshal.ConvertImageRoundTrip | src/realcugan.rs:248-261 | A typed image is rebuilt from its own size, channel count and bytes. |
| Marshal.OutputDesc | src/realcugan.rs:205-229 | Scale 1 copies the input descriptor. Any other scale multiplies width and height by the scale as `i32`, keeps the channels, and panics when a product overflows `i32`. |
| Marshal.CopyLength | src/realcugan.rs:240 | The copy length is `h*w*channels`. It is defined exactly when both `i32` products fit and the result is not negative. |
| Marshal.CopyOut | src/realcugan.rs:241 | The copied buffer has the copy length and holds the engine's first bytes in order. |
| Marshal.ProcImage | src/realcugan.rs:185-245 | `proc_image` fails on an input dimension over `i32` exactly when one is too large. It makes at most two native calls and never succeeds without the process call. The first call is the process call, with the input's width, height and normalised channels. A second call is always the free. |
| Marshal.ProcImageOutcome | src/realcugan.rs:185-245 | For scales 2-4 the result equals `ScaledImage`: size checks, then channel check, then the input scaled in both dimensions over the engine's first `h*w*channels` bytes. |
| Marshal.ProcImageShape | src/realcugan.rs:185-245 | For scales 2-4, success holds exactly when all sizes fit `i32` and there are 1-4 bytes per pixel. The output is then `w*scale` by `h*scale` with the normalised channel count and the engine's bytes. |
| Marshal.ProcImageErrors | src/realcugan.rs:196-245 | For scales 2-4, each failure is tied to its cause: an input dimension over `i32`, a product overflow, or an unsupported channel count. A negative length or a short buffer never happens. |
| Marshal.ProcImageFreesOnceAfterCopy | src/realcugan.rs:214-242 | The output buffer is freed at most once, right after the single process call. This happens exactly when the copy length was computed. A failure while computing the length leaves it unfreed. |
| Marshal.ProcImageIgnoresStatus | src/realcugan.rs:214-236 | The status returned by the process call changes nothing. |
| Marshal.ProcImageNeverGray | src/realcugan.rs:188-194 | A successful `proc_image` never yields a gray or gray-alpha image. |
| Marshal.ScaleOneBranchDead | src/realcugan.rs:206 | No handle `new` returns has scale 1, so the scale-1 branch of `proc_image` is unreachable. |

## Left out

- The pixel conversions of the `image` crate (`to_rgb8`, `to_rgba8`, `as_bytes`) and its bytes-per-pixel table are left out. The input image is its width, height and bytes per pixel; pixel values are not modelled.
- The native engine itself is left out: inference, tiling and the GPU. Its answers are parameters.
- `Drop` and `realcugan_free` are not part of this model, and neither are `unsafe impl Send`, raw pointers and the lifetime of the engine's buffer.
- `build.rs` is not part of this model.
- `realcugan_process_cpu` never appears in a trace. It is declared but never called, even for gpu id -1.
- Marshal.CopyOut: reading past the engine's buffer cannot be expressed. `pixels` is total, so the copy always has `length` bytes.
- Marshal.ProcImage: the `usize` overflow of `width*height*channels` inside `from_raw` is not modelled. The model compares exact integers.
- MachineInts.MulI32: release builds, where the `i32` products at lines 226-227 and 240 wrap instead of panicking, are not modelled. The model follows a debug build.

Behaviour of the code that a reader might not expect, which the model keeps:

- The engine's buffer is not freed on every exit path. It stays allocated when the length computation at line 240 panics (`ProcImageFreesOnceAfterCopy`).
- The status `realcugan_process` returns is never checked, so a failed process call still copies whatever the buffer holds (`ProcImageIgnoresStatus`).
- An input with more than 4 bytes per pixel (16-bit RGB or RGBA, float layouts) is not rejected up front. It goes through four steps: it is sent to `realcugan_process` with 6, 8, 12 or 16 channels, the output is copied, the engine's buffer is freed, and only then does it hit the "unexpected channel" panic at line 258 (`ProcImageErrors`, `ProcImageFreesOnceAfterCopy`).
- Every noise level other than -1 and 0, negative ones included, selects the `denoise{n}x` files.

## Findings

| source | as written | input that shows it | evidently intended | confidence | as-written member | corrected member |
|---|---|---|---|---|---|---|
| src/realcugan.rs:131-142 | The scale-3 chain checks `> 330` first, so the `> 1900` (300) and `> 950` (200) branches are dead. | Scale 3 with a heap budget of 1000 gives tile 400; a budget of 400 gives 400 as well. | Most likely, thresholds checked in descending order (1900, 950, 330, 320), as for scales 2 and 4, so 1000 gives 300 and 400 gives 200. Another reading is that 330 is a mistyped 3300 (3300, 1900, 950, 320). It also leaves no branch dead, and `EveryBranchReachable` covers it too. | medium (the intended table is uncertain; that the two branches are dead is certain), not executed | TilePlanner.Scale3AsWrittenReduces | TilePlanner.Scale3DescendingAllLive |
