/**
 * The tile-size planner of `RealCugan::new`: an explicit request wins, the CPU
 * device gets a fixed size, and a GPU device gets a size chosen from its heap
 * budget (MB) by a per-scale if/else-if chain of thresholds.
 */
module TilePlanner {
  import opened MachineInts

  /** The gpu id that selects the CPU path of the engine. */
  const CPU_GPU_ID: int := -1
  /** Tile size chosen for the CPU path. */
  const CPU_TILE_SIZE: nat := 400
  /** Tile size when no threshold of the chain is exceeded (and for scales outside the tables). */
  const SMALLEST_TILE_SIZE: nat := 32

  /** The upscale factors the engine has models, pre-padding and tile tables for. */
  predicate SupportedScale(scale: int) {
    scale in {2, 3, 4}
  }

  /** One branch of a threshold chain: a budget strictly above `above` selects `tile`. */
  datatype Step = Step(above: int, tile: nat)

  /** Order in which the scale-3 thresholds are checked. */
  datatype Scale3Order =
    | AsWritten  // the order of the source: `> 330` is checked first
    | Descending // thresholds checked from largest to smallest

  /** The scale-2 chain, in the order the branches are checked. */
  const SCALE2_STEPS: seq<Step> := [Step(1300, 400), Step(800, 300), Step(200, 100)]
  /** The scale-3 chain, in the order the source checks it. */
  const SCALE3_STEPS: seq<Step> := [Step(330, 400), Step(1900, 300), Step(950, 200), Step(320, 100)]
  /** The scale-3 chain with its thresholds in descending order. */
  const SCALE3_DESCENDING_STEPS: seq<Step> := [Step(1900, 400), Step(950, 300), Step(330, 200), Step(320, 100)]
  /** The scale-4 chain, in the order the branches are checked. */
  const SCALE4_STEPS: seq<Step> := [Step(1690, 400), Step(980, 300), Step(530, 200), Step(240, 100)]

  /**
   * Index of the branch an if/else-if chain takes for `budget`: the first step
   * whose threshold is exceeded, or `|steps|` for the final `else`.
   */
  function TakenBranch(steps: seq<Step>, budget: int): (k: nat)
    ensures k <= |steps|
    ensures k < |steps| ==> budget > steps[k].above
    ensures forall i :: 0 <= i < k ==> budget <= steps[i].above
  {
    if |steps| == 0 then 0
    else if budget > steps[0].above then 0
    else 1 + TakenBranch(steps[1..], budget)
  }

  /** Branch `i` is the first whose threshold `budget` exceeds. */
  predicate FirstExceeded(steps: seq<Step>, budget: int, i: int) {
    && 0 <= i < |steps|
    && budget > steps[i].above
    && forall j :: 0 <= j < i ==> budget <= steps[j].above
  }

  /**
   * Tile size an if/else-if chain yields for `budget`, `otherwise` in its final
   * `else`: the tile of the first branch whose threshold is exceeded, or
   * `otherwise` when no threshold is.
   */
  function Chain(steps: seq<Step>, budget: int, otherwise: nat): (t: nat)
    ensures (forall i :: 0 <= i < |steps| ==> budget <= steps[i].above) ==> t == otherwise
    ensures t == otherwise || exists i :: 0 <= i < |steps| && budget > steps[i].above && t == steps[i].tile
    ensures forall i :: FirstExceeded(steps, budget, i) ==> t == steps[i].tile
  {
    var k := TakenBranch(steps, budget);
    if k < |steps| then steps[k].tile else otherwise
  }

  function Scale3Steps(order: Scale3Order): seq<Step> {
    match order
    case AsWritten => SCALE3_STEPS
    case Descending => SCALE3_DESCENDING_STEPS
  }

  /** Tile size chosen from the heap budget of a GPU device. */
  function BudgetTileSize(scale: u32, budget: u32, order: Scale3Order): (t: nat)
    ensures t in {400, 300, 200, 100, 32}
    ensures !SupportedScale(scale) ==> t == SMALLEST_TILE_SIZE
  {
    if scale == 2 then Chain(SCALE2_STEPS, budget, SMALLEST_TILE_SIZE)
    else if scale == 3 then Chain(Scale3Steps(order), budget, SMALLEST_TILE_SIZE)
    else if scale == 4 then Chain(SCALE4_STEPS, budget, SMALLEST_TILE_SIZE)
    else SMALLEST_TILE_SIZE
  }

  /** Whether planning the tile size asks the native engine for the heap budget. */
  predicate QueriesHeapBudget(requested: u32, gpuid: int) {
    requested == 0 && gpuid != CPU_GPU_ID
  }

  /**
   * The tile size `RealCugan::new` passes on. `budget` stands for the answer of
   * the native heap-budget query, which is only asked when `QueriesHeapBudget`.
   */
  function PlanTileSize(requested: u32, gpuid: int, scale: u32, budget: u32, order: Scale3Order): (t: u32)
    ensures requested != 0 ==> t == requested
    ensures requested == 0 && gpuid == CPU_GPU_ID ==> t == CPU_TILE_SIZE
    ensures requested == 0 ==> t in {400, 300, 200, 100, 32}
    ensures QueriesHeapBudget(requested, gpuid) ==> t == BudgetTileSize(scale, budget, order)
  {
    if requested != 0 then requested
    else if gpuid == CPU_GPU_ID then CPU_TILE_SIZE
    else BudgetTileSize(scale, budget, order)
  }

  /** Without the heap-budget query the planned size cannot depend on the budget. */
  lemma PlanIgnoresUnqueriedBudget(requested: u32, gpuid: int, scale: u32, b1: u32, b2: u32, order: Scale3Order)
    requires !QueriesHeapBudget(requested, gpuid)
    ensures PlanTileSize(requested, gpuid, scale, b1, order) == PlanTileSize(requested, gpuid, scale, b2, order)
  {
  }

  /** Tiles of a chain never grow along the chain and are never below the final `else`. */
  predicate TilesDescending(steps: seq<Step>, otherwise: nat) {
    && (forall i, j :: 0 <= i < j < |steps| ==> steps[j].tile <= steps[i].tile)
    && (forall i :: 0 <= i < |steps| ==> otherwise <= steps[i].tile)
  }

  /**
   * A chain whose tiles descend is monotone in the budget, whatever the order
   * of its thresholds: a larger budget takes the same or an earlier branch.
   */
  lemma ChainMonotone(steps: seq<Step>, otherwise: nat, b1: int, b2: int)
    requires TilesDescending(steps, otherwise)
    requires b1 <= b2
    ensures Chain(steps, b1, otherwise) <= Chain(steps, b2, otherwise)
  {
    var k1 := TakenBranch(steps, b1);
    var k2 := TakenBranch(steps, b2);
    if k1 < |steps| {
      assert b2 > steps[k1].above;
      assert k2 <= k1;
    }
  }

  /**
   * A branch whose threshold is at least that of an earlier branch is dead:
   * no budget takes it.
   */
  lemma ShadowedBranchNeverTaken(steps: seq<Step>, earlier: nat, later: nat, budget: int)
    requires earlier < later < |steps|
    requires steps[earlier].above <= steps[later].above
    ensures TakenBranch(steps, budget) != later
  {
  }

  /** For scales 2 and 4, and for scale 3 in either order, more heap budget never means a smaller tile. */
  lemma BudgetTileSizeMonotone(scale: u32, b1: u32, b2: u32, order: Scale3Order)
    requires b1 <= b2
    ensures BudgetTileSize(scale, b1, order) <= BudgetTileSize(scale, b2, order)
  {
    if scale == 2 {
      ChainMonotone(SCALE2_STEPS, SMALLEST_TILE_SIZE, b1, b2);
    } else if scale == 3 {
      ChainMonotone(Scale3Steps(order), SMALLEST_TILE_SIZE, b1, b2);
    } else if scale == 4 {
      ChainMonotone(SCALE4_STEPS, SMALLEST_TILE_SIZE, b1, b2);
    }
  }

  /** The scale-2 chain in closed form: above 1300 gives 400, above 800 gives 300, above 200 gives 100. */
  lemma Scale2ClosedForm(budget: u32, order: Scale3Order)
    ensures BudgetTileSize(2, budget, order) ==
              if budget > 1300 then 400 else if budget > 800 then 300 else if budget > 200 then 100 else 32
  {
    var k := TakenBranch(SCALE2_STEPS, budget);
    assert SCALE2_STEPS[0].above == 1300 && SCALE2_STEPS[1].above == 800 && SCALE2_STEPS[2].above == 200;
    if budget > 1300 {
      assert k == 0;
    } else if budget > 800 {
      assert k == 1;
    } else if budget > 200 {
      assert k == 2;
    } else {
      assert k == 3;
    }
  }

  /** The scale-4 chain in closed form: above 1690, 980, 530 and 240 give 400, 300, 200 and 100. */
  lemma Scale4ClosedForm(budget: u32, order: Scale3Order)
    ensures BudgetTileSize(4, budget, order) ==
              if budget > 1690 then 400 else if budget > 980 then 300
              else if budget > 530 then 200 else if budget > 240 then 100 else 32
  {
    var k := TakenBranch(SCALE4_STEPS, budget);
    assert SCALE4_STEPS[0].above == 1690 && SCALE4_STEPS[1].above == 980;
    assert SCALE4_STEPS[2].above == 530 && SCALE4_STEPS[3].above == 240;
    if budget > 1690 {
      assert k == 0;
    } else if budget > 980 {
      assert k == 1;
    } else if budget > 530 {
      assert k == 2;
    } else if budget > 240 {
      assert k == 3;
    } else {
      assert k == 4;
    }
  }

  /** Scale 2 has no 200 bucket; its sizes are 400, 300, 100 and 32. */
  lemma Scale2Buckets(budget: u32, order: Scale3Order)
    ensures BudgetTileSize(2, budget, order) in {400, 300, 100, 32}
    ensures BudgetTileSize(2, 1301, order) == 400
    ensures BudgetTileSize(2, 801, order) == 300
    ensures BudgetTileSize(2, 201, order) == 100
    ensures BudgetTileSize(2, 50, order) == 32
  {
  }

  /**
   * In the source's order the scale-3 branches for 300 and 200 are dead
   * (their thresholds 1900 and 950 are shadowed by the earlier 330), so the
   * chain reduces to two thresholds.
   */
  lemma Scale3AsWrittenReduces(budget: u32)
    ensures TakenBranch(SCALE3_STEPS, budget) != 1
    ensures TakenBranch(SCALE3_STEPS, budget) != 2
    ensures BudgetTileSize(3, budget, AsWritten) ==
              if budget > 330 then 400 else if budget > 320 then 100 else 32
  {
    ShadowedBranchNeverTaken(SCALE3_STEPS, 0, 1, budget);
    ShadowedBranchNeverTaken(SCALE3_STEPS, 0, 2, budget);
    var k := TakenBranch(SCALE3_STEPS, budget);
    assert SCALE3_STEPS[0].above == 330 && SCALE3_STEPS[3].above == 320;
    assert SCALE3_STEPS[1].above == 1900 && SCALE3_STEPS[2].above == 950;
    if budget > 330 {
      assert k == 0;
    } else if budget > 320 {
      assert k == 3;
    } else {
      assert k == 4;
    }
  }

  /** Thresholds strictly decrease along the chain. */
  predicate ThresholdsDescending(steps: seq<Step>) {
    forall i, j :: 0 <= i < j < |steps| ==> steps[j].above < steps[i].above
  }

  /** With strictly decreasing thresholds every branch is live: one above its threshold takes it. */
  lemma EveryBranchReachable(steps: seq<Step>, k: nat)
    requires ThresholdsDescending(steps)
    requires k < |steps|
    ensures TakenBranch(steps, steps[k].above + 1) == k
  {
  }

  /** The descending scale-3 chain has no dead branch; the source's order has two (`Scale3AsWrittenReduces`). */
  lemma Scale3DescendingAllLive(k: nat)
    requires k < |SCALE3_DESCENDING_STEPS|
    ensures TakenBranch(SCALE3_DESCENDING_STEPS, SCALE3_DESCENDING_STEPS[k].above + 1) == k
    ensures !ThresholdsDescending(SCALE3_STEPS)
  {
    assert SCALE3_STEPS[0].above < SCALE3_STEPS[1].above;
    EveryBranchReachable(SCALE3_DESCENDING_STEPS, k);
  }

  /** In the descending order every scale-3 bucket is reached. */
  lemma Scale3DescendingBuckets()
    ensures BudgetTileSize(3, 1901, Descending) == 400
    ensures BudgetTileSize(3, 951, Descending) == 300
    ensures BudgetTileSize(3, 331, Descending) == 200
    ensures BudgetTileSize(3, 321, Descending) == 100
    ensures BudgetTileSize(3, 320, Descending) == 32
  {
  }

  /** Budgets on which the source's scale-3 order and the descending order disagree. */
  lemma Scale3OrdersDisagree()
    ensures BudgetTileSize(3, 1000, AsWritten) == 400 && BudgetTileSize(3, 1000, Descending) == 300
    ensures BudgetTileSize(3, 400, AsWritten) == 400 && BudgetTileSize(3, 400, Descending) == 200
    ensures BudgetTileSize(3, 2000, AsWritten) == 400 && BudgetTileSize(3, 2000, Descending) == 400
  {
  }
}
