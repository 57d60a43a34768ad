/**
 * `RealCugan::new`: validate the scale, fix the configuration, bring up the
 * GPU instance, validate the gpu id, plan the tile size, then initialise the
 * native engine and load its two model files.
 */
module Engine {
  import opened Results
  import opened MachineInts
  import opened TilePlanner
  import opened ModelFiles
  import opened NativeAbi
  import opened Decimal

  /** The arguments of `RealCugan::new`. */
  datatype NewArgs = NewArgs(
    gpuid: i32,
    noise: i32,
    scale: u32,
    model: ModelType,
    tileSize: u32,
    syncGap: u32,
    ttaMode: bool,
    numThreads: i32,
    modelsPath: string)

  /** What the native engine answers to the two queries `new` makes. */
  datatype Device = Device(gpuCount: i32, heapBudget: u32)

  /** The panics of `new`. */
  datatype NewError =
    | UnsupportedScale  // scale other than 2, 3 or 4
    | InvalidGpuDevice  // gpu id outside -1 .. gpu count - 1
    | NulInPath         // a model path holds a NUL character, so it has no C string

  /** A constructed `RealCugan`: the native pointer is not modelled, only the scale. */
  datatype Handle = Handle(scale: u32)

  /** The native calls `new` made, in order, and how it ended. */
  datatype Construction = Construction(calls: seq<NativeCall>, outcome: Result<Handle, NewError>)

  /** The gpu ids `new` accepts: the CPU id -1 or one of the `gpuCount` devices. */
  predicate ValidGpu(gpuid: int, gpuCount: int) {
    CPU_GPU_ID <= gpuid < gpuCount
  }

  predicate HasNul(s: string) {
    '\0' in s
  }

  /** `RealCugan::new`, with the scale-3 threshold order of the tile planner as a parameter. */
  function New(args: NewArgs, order: Scale3Order, device: Device): (c: Construction)
    ensures c.outcome == Err(UnsupportedScale) <==> !SupportedScale(args.scale)
    ensures c.outcome == Err(InvalidGpuDevice) <==>
              SupportedScale(args.scale) && !ValidGpu(args.gpuid, device.gpuCount)
    ensures c.outcome == Err(NulInPath) <==>
              SupportedScale(args.scale) && ValidGpu(args.gpuid, device.gpuCount) && HasNul(args.modelsPath)
    ensures c.outcome.Ok? ==> c.outcome.value.scale == args.scale && SupportedScale(c.outcome.value.scale)
  {
    match Prepadding(args.scale)
    case None => Construction([], Err(UnsupportedScale))
    case Some(prepadding) =>
      var syncGap := EffectiveSyncGap(args.model, args.syncGap);
      var paths := ModelPaths(args.modelsPath, args.model, args.scale, args.noise);
      var started := [InitGpuInstance, GetGpuCount];
      if args.gpuid < CPU_GPU_ID || args.gpuid >= device.gpuCount then
        Construction(started + [DestroyGpuInstance], Err(InvalidGpuDevice))
      else
        PathNulIffRootNul(args.modelsPath, args.model, args.scale, args.noise);
        var rest := InitAndLoad(args, order, device.heapBudget, prepadding, syncGap, paths);
        Construction(started + rest.calls, rest.outcome)
  }

  /**
   * The part of `new` after the gpu id is accepted: plan the tile size (asking
   * for the heap budget only when it is needed), initialise the engine, turn
   * both paths into C strings and load the model.
   */
  function InitAndLoad(args: NewArgs, order: Scale3Order, budget: u32, prepadding: i32, syncGap: u32,
                       paths: ModelFilePaths): (c: Construction)
    ensures c.outcome.Err? ==> c.outcome.error == NulInPath
    ensures c.outcome.Err? <==> HasNul(paths.param) || HasNul(paths.bin)
  {
    var init := Init(InitParams(args, order, budget, prepadding, syncGap));
    if HasNul(paths.param) || HasNul(paths.bin) then
      Construction(HeapQuery(args) + [init], Err(NulInPath))
    else
      Construction(HeapQuery(args) + [init, Load(paths.param, paths.bin)], Ok(Handle(args.scale)))
  }

  /** The heap-budget query `new` makes, if any. */
  function HeapQuery(args: NewArgs): (q: seq<NativeCall>)
    ensures |q| <= 1
    ensures q != [] <==> QueriesHeapBudget(args.tileSize, args.gpuid)
    ensures q != [] ==> q[0] == GetHeapBudget(args.gpuid)
  {
    if QueriesHeapBudget(args.tileSize, args.gpuid) then [GetHeapBudget(args.gpuid)] else []
  }

  /** The arguments of `realcugan_init`; `budget` is read only when the tile size is planned from it. */
  function InitParams(args: NewArgs, order: Scale3Order, budget: u32, prepadding: i32, syncGap: u32): EngineParams {
    var tileSize := PlanTileSize(args.tileSize, args.gpuid, args.scale, budget, order);
    EngineParams(args.gpuid, args.ttaMode, args.numThreads, args.noise,
                 U32AsI32(args.scale), U32AsI32(tileSize), prepadding, U32AsI32(syncGap))
  }

  /** An unsupported scale panics before any native call. */
  lemma NewRejectsScaleFirst(args: NewArgs, order: Scale3Order, device: Device)
    requires !SupportedScale(args.scale)
    ensures New(args, order, device) == Construction([], Err(UnsupportedScale))
  {
  }

  /**
   * A rejected gpu id tears the GPU instance down before the panic; no engine
   * is initialised or loaded and the heap budget is never asked for.
   */
  lemma NewRejectsGpuAfterTeardown(args: NewArgs, order: Scale3Order, device: Device)
    requires SupportedScale(args.scale) && !ValidGpu(args.gpuid, device.gpuCount)
    ensures New(args, order, device).calls == [InitGpuInstance, GetGpuCount, DestroyGpuInstance]
    ensures !GpuInstanceUp(New(args, order, device).calls)
    ensures Count(New(args, order, device).calls, EngineInit) == 0
    ensures Count(New(args, order, device).calls, EngineLoad) == 0
    ensures Count(New(args, order, device).calls, HeapBudget) == 0
  {
    var calls := New(args, order, device).calls;
    assert calls[..2][..1] == [InitGpuInstance];
    assert calls[..|calls| - 1] == [InitGpuInstance, GetGpuCount];
  }

  /**
   * A successful construction leaves the GPU instance up, initialises the
   * engine exactly once and then loads it exactly once, last, with the
   * `.param` file first and the `.bin` file second.
   */
  lemma NewInitialisesThenLoads(args: NewArgs, order: Scale3Order, device: Device)
    requires New(args, order, device).outcome.Ok?
    ensures var calls := New(args, order, device).calls;
      && calls[..2] == [InitGpuInstance, GetGpuCount]
      && GpuInstanceUp(calls)
      && OnlyAt(calls, EngineInit, |calls| - 2)
      && OnlyAt(calls, EngineLoad, |calls| - 1)
      && var paths := ModelPaths(args.modelsPath, args.model, args.scale, args.noise);
         calls[|calls| - 1] == Load(paths.param, paths.bin)
  {
    var engine := NewCallsAfterGpuCheck(args, order, device);
    SuccessfulStartShape(HeapQuery(args), engine);
  }

  /** The shape of a successful construction's calls, whatever the heap query and engine calls hold. */
  lemma SuccessfulStartShape(query: seq<NativeCall>, engine: seq<NativeCall>)
    requires query == [] || (|query| == 1 && query[0].GetHeapBudget?)
    requires |engine| == 2 && engine[0].Init? && engine[1].Load?
    ensures var calls := [InitGpuInstance, GetGpuCount] + (query + engine);
      && calls[..2] == [InitGpuInstance, GetGpuCount]
      && GpuInstanceUp(calls)
      && OnlyAt(calls, EngineInit, |calls| - 2)
      && OnlyAt(calls, EngineLoad, |calls| - 1)
      && calls[|calls| - 1] == engine[1]
  {
    var started := [InitGpuInstance, GetGpuCount];
    var rest := query + engine;
    assert forall i :: 0 <= i < |rest| ==> !rest[i].InitGpuInstance? && !rest[i].DestroyGpuInstance?;
    GpuInstanceUnchanged(started, rest);
    assert started[..1] == [InitGpuInstance];
    assert (started + rest)[..2] == started;
  }

  /**
   * The heap budget is asked for exactly when construction gets past the gpu
   * check with no explicit tile size on a GPU device.
   */
  lemma NewQueriesHeapBudgetOnlyToPlan(args: NewArgs, order: Scale3Order, device: Device)
    ensures Count(New(args, order, device).calls, HeapBudget) != 0 <==>
              SupportedScale(args.scale) && ValidGpu(args.gpuid, device.gpuCount) && QueriesHeapBudget(args.tileSize, args.gpuid)
  {
    if SupportedScale(args.scale) && ValidGpu(args.gpuid, device.gpuCount) {
      NewCountsOnlyHeapQuery(args, order, device);
      HeapQueryCount(args);
    } else if SupportedScale(args.scale) {
      NewRejectsGpuAfterTeardown(args, order, device);
    } else {
      NewRejectsScaleFirst(args, order, device);
    }
  }

  lemma NewCountsOnlyHeapQuery(args: NewArgs, order: Scale3Order, device: Device)
    requires SupportedScale(args.scale) && ValidGpu(args.gpuid, device.gpuCount)
    ensures Count(New(args, order, device).calls, HeapBudget) == Count(HeapQuery(args), HeapBudget)
  {
    var engine := NewCallsAfterGpuCheck(args, order, device);
    var query := HeapQuery(args);
    NoHeapQueryInEngineCalls(engine);
    CountConcat(query, engine, HeapBudget);
    CountConcat([InitGpuInstance, GetGpuCount], query + engine, HeapBudget);
    NoHeapQueryAtStart();
  }

  lemma NoHeapQueryAtStart()
    ensures Count([InitGpuInstance, GetGpuCount], HeapBudget) == 0
  {
  }

  lemma HeapQueryCount(args: NewArgs)
    ensures Count(HeapQuery(args), HeapBudget) != 0 <==> QueriesHeapBudget(args.tileSize, args.gpuid)
  {
  }

  /**
   * Whenever `new` asks for the heap budget the scale is 2, 3 or 4, so the
   * final `else` of the planner, for any other scale, is dead.
   */
  lemma NewNeverPlansForOtherScale(args: NewArgs, order: Scale3Order, device: Device)
    requires Count(New(args, order, device).calls, HeapBudget) != 0
    ensures SupportedScale(args.scale)
    ensures PlanTileSize(args.tileSize, args.gpuid, args.scale, device.heapBudget, order) ==
              BudgetTileSize(args.scale, device.heapBudget, order)
  {
    NewQueriesHeapBudgetOnlyToPlan(args, order, device);
  }

  /** The one heap-budget query, if made, is about the device the engine is built for. */
  lemma NewQueriesRequestedDevice(args: NewArgs, order: Scale3Order, device: Device, i: int)
    requires 0 <= i < |New(args, order, device).calls| && New(args, order, device).calls[i].GetHeapBudget?
    ensures i == 2 && New(args, order, device).calls[i] == GetHeapBudget(args.gpuid)
  {
    var engine := NewCallsAfterGpuCheck(args, order, device);
  }

  /**
   * The calls `new` makes after the gpu id is accepted: the heap-budget query,
   * if any, then the engine calls — `realcugan_init`, followed by
   * `realcugan_load` when both paths convert to C strings.
   */
  lemma NewCallsAfterGpuCheck(args: NewArgs, order: Scale3Order, device: Device) returns (engine: seq<NativeCall>)
    requires SupportedScale(args.scale) && ValidGpu(args.gpuid, device.gpuCount)
    ensures New(args, order, device).calls == [InitGpuInstance, GetGpuCount] + (HeapQuery(args) + engine)
    ensures 1 <= |engine| <= 2 && engine[0].Init? && (|engine| == 2 ==> engine[1].Load?)
    ensures |engine| == 2 <==> New(args, order, device).outcome.Ok?
    ensures var paths := ModelPaths(args.modelsPath, args.model, args.scale, args.noise);
      |engine| == 2 ==> engine[1] == Load(paths.param, paths.bin)
  {
    var prepadding := Prepadding(args.scale).value;
    var syncGap := EffectiveSyncGap(args.model, args.syncGap);
    var paths := ModelPaths(args.modelsPath, args.model, args.scale, args.noise);
    var init := Init(InitParams(args, order, device.heapBudget, prepadding, syncGap));
    if HasNul(paths.param) || HasNul(paths.bin) {
      engine := [init];
    } else {
      engine := [init, Load(paths.param, paths.bin)];
    }
  }

  lemma NoHeapQueryInEngineCalls(engine: seq<NativeCall>)
    requires 1 <= |engine| <= 2 && engine[0].Init? && (|engine| == 2 ==> engine[1].Load?)
    ensures Count(engine, HeapBudget) == 0
  {
    if |engine| == 2 {
      assert engine[..1] == [engine[0]];
    }
  }

  /**
   * What the engine is initialised with: the pre-padding of the scale, the
   * planned tile size and the effective sync gap, each cast to `i32`.
   */
  lemma NewInitParams(args: NewArgs, order: Scale3Order, device: Device, i: int)
    requires 0 <= i < |New(args, order, device).calls| && New(args, order, device).calls[i].Init?
    ensures var p := New(args, order, device).calls[i].params;
      && SupportedScale(args.scale)
      && ValidGpu(args.gpuid, device.gpuCount)
      && p.gpuid == args.gpuid && p.noise == args.noise && p.scale == args.scale
      && p.ttaMode == args.ttaMode && p.numThreads == args.numThreads
      && p.prepadding == (if args.scale == 2 then 18 else if args.scale == 3 then 14 else 19)
      && p.tileSize == U32AsI32(PlanTileSize(args.tileSize, args.gpuid, args.scale, device.heapBudget, order))
      && p.syncGap == (if args.model == Nose then 0 else U32AsI32(args.syncGap))
  {
  }

  /** For `Nose` the requested sync gap makes no difference at all. */
  lemma NoseIgnoresRequestedSyncGap(args: NewArgs, order: Scale3Order, device: Device, gap: u32)
    requires args.model == Nose
    ensures New(args, order, device) == New(args.(syncGap := gap), order, device)
  {
  }

  /** Only the models root can bring a NUL character into a model path. */
  lemma PathNulIffRootNul(root: string, model: ModelType, scale: u32, noise: int)
    ensures HasNul(ModelPaths(root, model, scale, noise).bin) <==> HasNul(root)
    ensures HasNul(ModelPaths(root, model, scale, noise).param) <==> HasNul(root)
  {
    PathsShareStem(root, model, scale, noise);
    StemSplit(root, model, scale, noise);
    NoNulInDirAndName(model, scale, noise);
    var name := DirAndName(model, scale, noise);
    assert !HasNul("/") && !HasNul(".bin") && !HasNul(".param");
    assert HasNul(root + "/" + name) <==> HasNul(root);
  }

  lemma NoNulInDirAndName(model: ModelType, scale: u32, noise: int)
    ensures !HasNul(DirAndName(model, scale, noise))
  {
    assert !HasNul(ModelDir(model));
    assert !HasNul(FormatNat(scale)) by {
      assert AllDigits(FormatNat(scale));
    }
    assert !HasNul(NoiseSuffix(noise)) by {
      if noise != -1 && noise != 0 {
        var n := FormatInt(noise);
        assert n[0] == '-' || IsDigit(n[0]);
        assert forall i :: 1 <= i < |n| ==> n[1..][i - 1] == n[i];
      }
    }
  }
}
