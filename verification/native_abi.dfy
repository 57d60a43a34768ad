/**
 * The C ABI of the native engine, seen from the binding: each call the binding
 * makes is recorded as one `NativeCall`, and what the engine answers is a
 * parameter of the operation that asks.
 */
module NativeAbi {
  import opened MachineInts

  /** The `c_int` arguments of `realcugan_init`. */
  datatype EngineParams = EngineParams(
    gpuid: i32,
    ttaMode: bool,
    numThreads: i32,
    noise: i32,
    scale: i32,
    tileSize: i32,
    prepadding: i32,
    syncGap: i32)

  /** The `Image` descriptor passed across the boundary (the pixel pointer is not modelled). */
  datatype ImageDesc = ImageDesc(w: i32, h: i32, c: i32)

  datatype NativeCall =
    | InitGpuInstance                                  // realcugan_init_gpu_instance
    | GetGpuCount                                      // realcugan_get_gpu_count
    | DestroyGpuInstance                               // realcugan_destroy_gpu_instance
    | GetHeapBudget(gpuid: i32)                        // realcugan_get_heap_budget
    | Init(params: EngineParams)                       // realcugan_init
    | Load(paramPath: string, modelPath: string)       // realcugan_load
    | Process(input: ImageDesc, output: ImageDesc)     // realcugan_process
    | FreeImage                                        // realcugan_free_image

  /** Which entry point of the ABI a call goes to. */
  datatype CallKind = GpuUp | GpuCount | GpuDown | HeapBudget | EngineInit | EngineLoad | EngineProcess | ImageFree

  function KindOf(call: NativeCall): CallKind {
    match call
    case InitGpuInstance => GpuUp
    case GetGpuCount => GpuCount
    case DestroyGpuInstance => GpuDown
    case GetHeapBudget(_) => HeapBudget
    case Init(_) => EngineInit
    case Load(_, _) => EngineLoad
    case Process(_, _) => EngineProcess
    case FreeImage => ImageFree
  }

  /** Number of calls of kind `k` in `calls`. */
  function Count(calls: seq<NativeCall>, k: CallKind): (n: nat)
    ensures n <= |calls|
    ensures n == 0 <==> forall i :: 0 <= i < |calls| ==> KindOf(calls[i]) != k
  {
    if |calls| == 0 then 0
    else Count(calls[..|calls| - 1], k) + (if KindOf(calls[|calls| - 1]) == k then 1 else 0)
  }

  /** Counting distributes over concatenation. */
  lemma {:induction false} CountConcat(a: seq<NativeCall>, b: seq<NativeCall>, k: CallKind)
    ensures Count(a + b, k) == Count(a, k) + Count(b, k)
    decreases |b|
  {
    if |b| == 0 {
      assert a + b == a;
    } else {
      assert (a + b)[..|a + b| - 1] == a + b[..|b| - 1];
      assert (a + b)[|a + b| - 1] == b[|b| - 1];
      CountConcat(a, b[..|b| - 1], k);
    }
  }

  /**
   * The process-wide GPU instance after `calls`, starting from none: the last
   * init or destroy decides. It is never read by the binding, only reasoned about.
   */
  ghost predicate GpuInstanceUp(calls: seq<NativeCall>) {
    if |calls| == 0 then false
    else match calls[|calls| - 1]
      case InitGpuInstance => true
      case DestroyGpuInstance => false
      case _ => GpuInstanceUp(calls[..|calls| - 1])
  }

  /** Call `i` is the only call of kind `k`. */
  predicate OnlyAt(calls: seq<NativeCall>, k: CallKind, i: int) {
    && 0 <= i < |calls|
    && KindOf(calls[i]) == k
    && forall j :: 0 <= j < |calls| && j != i ==> KindOf(calls[j]) != k
  }

  /** Calls that neither bring up nor tear down the GPU instance leave it as it was. */
  lemma {:induction false} GpuInstanceUnchanged(calls: seq<NativeCall>, more: seq<NativeCall>)
    requires forall i :: 0 <= i < |more| ==> !more[i].InitGpuInstance? && !more[i].DestroyGpuInstance?
    ensures GpuInstanceUp(calls + more) == GpuInstanceUp(calls)
    decreases |more|
  {
    if |more| > 0 {
      var front := more[..|more| - 1];
      assert (calls + more)[|calls + more| - 1] == more[|more| - 1];
      assert (calls + more)[..|calls + more| - 1] == calls + front;
      GpuInstanceUnchanged(calls, front);
    } else {
      assert calls + more == calls;
    }
  }
}
