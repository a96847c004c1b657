// Flows (flow/base_flow.py, flow/sync_flow.py, flow/async_flow.py): a
// FlowBuilder holds FlowBlocks, each wrapping a block class or instance and
// two hook references; building a flow initialises every step, links step i
// to step i + 1 and optionally suffixes names with the step number; the flow
// then walks its chain checking the block base class and name uniqueness.

module Flows {
  import opened Common
  import opened Messages
  import opened Blocks

  /** A hook given to a FlowBlock: the name of an attribute of the flow, or the hook value itself. */
  datatype HookRef = ByName(attr: string) | Given(arg: HookArg)

  /**
   * `FlowBlock._get_function(flow, ref)`: a string is looked up as an
   * attribute of the flow (None when there is none), anything else is
   * returned as it is. `attrs` are the flow's attributes.
   */
  function GetFunction(attrs: map<string, HookArg>, ref: HookRef): (r: HookArg)
    ensures ref.Given? ==> r == ref.arg
    ensures ref.ByName? && ref.attr !in attrs ==> r == Falsy
    ensures ref.ByName? && ref.attr in attrs ==> r == attrs[ref.attr]
  {
    match ref
    case ByName(attr) => if attr in attrs then attrs[attr] else Falsy
    case Given(arg) => arg
  }

  /** What `FlowBlock.obj_block` holds: a block class until the first build, then the instance. */
  datatype Slot = ClassSlot(c: BlockClass) | InstanceSlot(b: Block)

  /** The kinds of value `FlowBlock(...)` can be given. */
  datatype FlowBlockArg = BlockClassArg(c: BlockClass) | BlockInstanceArg(b: Block) | NotABlock

  /** A class or instance of the new `SyncBlock` or of `AsyncBlock`. */
  predicate AcceptsBlock(arg: FlowBlockArg)
  {
    match arg
    case BlockClassArg(c) => c.kind != LegacySyncBlock
    case BlockInstanceArg(b) => b.kind != LegacySyncBlock
    case NotABlock => false
  }

  // ---------------------------------------------------------------------------
  // init_block and build_flow, as functions of the step states

  /** The state a step starts from: a class not yet instantiated, or the state of its instance. */
  datatype SlotValue = ClassValue(c: BlockClass) | InstanceValue(v: BlockValue)

  /** A step with its hooks already resolved against the flow. */
  datatype StepValue = StepValue(slot: SlotValue, pre: HookArg, post: HookArg)

  /** The block state after `init_block` and whether it returned or raised. */
  datatype Init = Init(state: BlockValue, outcome: Outcome)

  /** The name of the block of step `step`: suffixed with `_<step>` in a flow with duplicate blocks. */
  function StepName(name: string, dup: bool, step: nat): string
  {
    if dup then Suffixed(name, step) else name
  }

  /** The two hook setters, then the optional suffix; a setter that raises stops there. */
  function Reinit(v: BlockValue, pre: HookArg, post: HookArg, dup: bool, step: nat): Init
  {
    var p := SetHook(v.kind, v.pre, pre);
    if p.Err? then Init(v, Fail(p.error))
    else
      var q := SetHook(v.kind, v.post, post);
      if q.Err? then Init(v.(pre := p.value), Fail(q.error))
      else Init(v.(pre := p.value, post := q.value, name := StepName(v.name, dup, step)), Pass)
  }

  /** `init_block` of step `step`: instantiate the class, or re-initialise the instance. */
  function StepInit(s: StepValue, dup: bool, step: nat): Init
  {
    match s.slot
    case ClassValue(c) => if c.initRaises then Init(Fresh(c), Fail(UserError)) else Reinit(Fresh(c), s.pre, s.post, dup, step)
    case InstanceValue(v) => Reinit(v, s.pre, s.post, dup, step)
  }

  /**
   * A hook named by an attribute the flow does not have resolves to None,
   * which the setters ignore: re-initialising an instance whose hook
   * references both name missing attributes keeps its hooks and succeeds.
   */
  lemma MissingHooksKept(v: BlockValue, attrs: map<string, HookArg>, pre: string, post: string, dup: bool, step: nat)
    requires pre !in attrs && post !in attrs
    ensures var init := StepInit(StepValue(InstanceValue(v), GetFunction(attrs, ByName(pre)), GetFunction(attrs, ByName(post))), dup, step);
      init.outcome == Pass && init.state == v.(name := StepName(v.name, dup, step))
  {
  }

  /**
   * `build_flow` from step k on, `acc` holding the states of steps 0..k-1:
   * initialise step k, then link the previous block to it, which raises
   * TypeError when the two have different base classes.
   */
  function BuildFrom(sv: seq<StepValue>, dup: bool, k: nat, acc: seq<BlockValue>): Result<seq<BlockValue>>
    requires k <= |sv| && |acc| == k
    decreases |sv| - k
  {
    if k == |sv| then Ok(acc)
    else
      var init := StepInit(sv[k], dup, k);
      if init.outcome.Fail? then Err(init.outcome.error)
      else if k > 0 && BaseOf(init.state.kind) != BaseOf(acc[k - 1].kind) then Err(TypeError)
      else BuildFrom(sv, dup, k + 1, acc + [init.state])
  }

  /** The block states `build_flow` leaves along the chain, or the error it raises. */
  function BuildSpec(sv: seq<StepValue>, dup: bool): Result<seq<BlockValue>>
  {
    BuildFrom(sv, dup, 0, [])
  }

  /** Whether every step initialises and each block has the base class of the one before it. */
  predicate Buildable(sv: seq<StepValue>, dup: bool)
  {
    (forall k :: 0 <= k < |sv| ==> StepInit(sv[k], dup, k).outcome.Pass?) &&
    (forall k :: 0 < k < |sv| ==> BaseOf(StepInit(sv[k], dup, k).state.kind) == BaseOf(StepInit(sv[k - 1], dup, k - 1).state.kind))
  }

  /** `BuildFrom` succeeds exactly when every remaining step initialises and matches the base class of the one before. */
  lemma {:induction false} BuildFromOk(sv: seq<StepValue>, dup: bool, k: nat, acc: seq<BlockValue>)
    requires k <= |sv| && |acc| == k
    requires forall j :: 0 <= j < k ==> acc[j] == StepInit(sv[j], dup, j).state
    ensures BuildFrom(sv, dup, k, acc).Ok? <==>
      (forall j :: k <= j < |sv| ==> StepInit(sv[j], dup, j).outcome.Pass?) &&
      (forall j :: k <= j < |sv| && 0 < j ==> BaseOf(StepInit(sv[j], dup, j).state.kind) == BaseOf(StepInit(sv[j - 1], dup, j - 1).state.kind))
    decreases |sv| - k
  {
    if k < |sv| {
      var init := StepInit(sv[k], dup, k);
      if init.outcome.Fail? {
        assert !StepInit(sv[k], dup, k).outcome.Pass?;
      } else if k > 0 && BaseOf(init.state.kind) != BaseOf(acc[k - 1].kind) {
        assert acc[k - 1] == StepInit(sv[k - 1], dup, k - 1).state;
      } else {
        var acc' := acc + [init.state];
        assert forall j :: 0 <= j < k + 1 ==> acc'[j] == StepInit(sv[j], dup, j).state;
        BuildFromOk(sv, dup, k + 1, acc');
      }
    }
  }

  /** A successful `BuildFrom` holds the state of every step's `init_block`. */
  lemma {:induction false} BuildFromStates(sv: seq<StepValue>, dup: bool, k: nat, acc: seq<BlockValue>)
    requires k <= |sv| && |acc| == k
    requires forall j :: 0 <= j < k ==> acc[j] == StepInit(sv[j], dup, j).state
    ensures BuildFrom(sv, dup, k, acc).Ok? ==>
      var vs := BuildFrom(sv, dup, k, acc).value;
      |vs| == |sv| && forall j :: 0 <= j < |sv| ==> vs[j] == StepInit(sv[j], dup, j).state
    decreases |sv| - k
  {
    if k < |sv| {
      var init := StepInit(sv[k], dup, k);
      if init.outcome.Pass? && !(k > 0 && BaseOf(init.state.kind) != BaseOf(acc[k - 1].kind)) {
        var acc' := acc + [init.state];
        assert forall j :: 0 <= j < k + 1 ==> acc'[j] == StepInit(sv[j], dup, j).state;
        BuildFromStates(sv, dup, k + 1, acc');
      }
    }
  }

  /** One step of `BuildFrom`. */
  lemma BuildFromNext(sv: seq<StepValue>, dup: bool, k: nat, acc: seq<BlockValue>)
    requires k < |sv| && |acc| == k
    ensures var init := StepInit(sv[k], dup, k);
      BuildFrom(sv, dup, k, acc) ==
        if init.outcome.Fail? then Err(init.outcome.error)
        else if k > 0 && BaseOf(init.state.kind) != BaseOf(acc[k - 1].kind) then Err(TypeError)
        else BuildFrom(sv, dup, k + 1, acc + [init.state])
  {
  }

  /**
   * `build_flow` succeeds exactly when every step initialises and each block
   * has the base class of the one before it; the chain then holds the
   * initialised blocks in builder order.
   */
  lemma BuildSpecOk(sv: seq<StepValue>, dup: bool)
    ensures BuildSpec(sv, dup).Ok? <==> Buildable(sv, dup)
    ensures BuildSpec(sv, dup).Ok? ==>
      |BuildSpec(sv, dup).value| == |sv| &&
      forall k :: 0 <= k < |sv| ==> BuildSpec(sv, dup).value[k] == StepInit(sv[k], dup, k).state
  {
    BuildFromOk(sv, dup, 0, []);
    BuildFromStates(sv, dup, 0, []);
  }

  /** The name a step's block starts from. */
  function BaseName(s: StepValue): string
  {
    match s.slot
    case ClassValue(c) => c.name
    case InstanceValue(v) => v.name
  }

  /**
   * With `is_contains_duplicat_blocks` the block of step k is named
   * `<name>_<k>`; without it the names are left as they were.
   */
  lemma BuildNames(sv: seq<StepValue>, dup: bool)
    requires BuildSpec(sv, dup).Ok?
    ensures |BuildSpec(sv, dup).value| == |sv|
    ensures forall k :: 0 <= k < |sv| ==>
      BuildSpec(sv, dup).value[k].name == if dup then Suffixed(BaseName(sv[k]), k) else BaseName(sv[k])
  {
    BuildSpecOk(sv, dup);
  }

  // ---------------------------------------------------------------------------
  // build_flow's links when one block object may appear more than once

  /**
   * The links `build_flow` leaves behind, with blocks given by identity:
   * in step order the block of step i-1 is pointed at the block of step i,
   * over whatever links the blocks had before. A block that appears twice
   * keeps the link of its later place; blocks that are not the source of a
   * link keep their old one.
   */
  function Relinked(ids: seq<nat>, next: map<nat, nat>): map<nat, nat>
    decreases |ids|
  {
    if |ids| < 2 then next else Relinked(ids[1..], next[ids[0] := ids[1]])
  }

  /** A block that no link leaves from (the last step's, when it appears only once) keeps the link it had before. */
  lemma {:induction false} RelinkedKeeps(ids: seq<nat>, next: map<nat, nat>, x: nat)
    requires forall i :: 0 <= i < |ids| - 1 ==> ids[i] != x
    ensures (x in Relinked(ids, next)) == (x in next)
    ensures x in next ==> Relinked(ids, next)[x] == next[x]
    decreases |ids|
  {
    if |ids| >= 2 {
      assert ids[0] != x;
      forall i | 0 <= i < |ids[1..]| - 1
        ensures ids[1..][i] != x
      {
        assert ids[1..][i] == ids[i + 1];
      }
      RelinkedKeeps(ids[1..], next[ids[0] := ids[1]], x);
    }
  }

  /** With every block distinct, each step's block is linked to the next step's block. */
  lemma {:induction false} RelinkedDistinct(ids: seq<nat>, next: map<nat, nat>)
    requires forall i, j :: 0 <= i < j < |ids| ==> ids[i] != ids[j]
    ensures forall i :: 0 <= i < |ids| - 1 ==>
      ids[i] in Relinked(ids, next) && Relinked(ids, next)[ids[i]] == ids[i + 1]
    decreases |ids|
  {
    if |ids| >= 2 {
      var tail, next' := ids[1..], next[ids[0] := ids[1]];
      assert forall i, j :: 0 <= i < j < |tail| ==> tail[i] == ids[i + 1] && tail[j] == ids[j + 1];
      RelinkedDistinct(tail, next');
      RelinkedKeeps(tail, next', ids[0]);
      forall i | 0 <= i < |ids| - 1
        ensures ids[i] in Relinked(ids, next) && Relinked(ids, next)[ids[i]] == ids[i + 1]
      {
        if i > 0 {
          assert ids[i] == tail[i - 1] && ids[i + 1] == tail[i];
        }
      }
    }
  }

  /**
   * Steps `[a, b, a, c]` over fresh blocks: `a` is re-linked to `c`, so the
   * chain from the first block is `a -> c` and `b` is not on it.
   */
  lemma RepeatedBlockShortensChain()
    ensures var n := Relinked([0, 1, 0, 2], map[]);
      0 in n && n[0] == 2 && 2 !in n && n[1] == 0
  {
    assert Relinked([0, 2], map[0 := 1, 1 := 0]) == map[0 := 2, 1 := 0];
  }

  /**
   * Steps `[b, b]`: the block is linked to itself, so the walk of
   * `_validate_data` meets its name twice.
   */
  lemma RepeatedBlockLoops()
    ensures Relinked([1, 1], map[]) == map[1 := 1]
  {
  }

  /**
   * A block shared by two flows: building `[x, s]` and then `[y, s, z]`
   * re-links `s` to `z`, so the first flow's chain now runs `x -> s -> z`.
   */
  lemma SharedBlockRelinked()
    ensures var n := Relinked([2, 1, 3], Relinked([0, 1], map[]));
      n[0] == 1 && n[1] == 3 && 3 !in n
  {
    assert Relinked([0, 1], map[]) == map[0 := 1];
    assert Relinked([1, 3], map[0 := 1, 2 := 1]) == map[0 := 1, 2 := 1, 1 := 3];
  }

  // ---------------------------------------------------------------------------
  // _validate_data, as a function of the block states along the chain

  /** The block class a flow variant accepts: the new `SyncBlock` or `AsyncBlock`. */
  function BlockKindFor(v: Variant): BlockKind
  {
    if v == Sync then SyncBlock else AsyncBlock
  }

  /**
   * The validation walk from position k, `seen` holding the names met so far:
   * a block of the wrong class raises WorkTypeMismatchException, a name met
   * before raises NotUniqueBlockInFlowError.
   */
  function CheckFrom(vs: seq<BlockValue>, kind: BlockKind, k: nat, seen: seq<string>): Outcome
    requires k <= |vs|
    decreases |vs| - k
  {
    if k == |vs| then Pass
    else if vs[k].kind != kind then Fail(WorkTypeMismatchException)
    else if vs[k].name in seen then Fail(NotUniqueBlockInFlowError(vs[k].name))
    else CheckFrom(vs, kind, k + 1, seen + [vs[k].name])
  }

  predicate DistinctNames(vs: seq<BlockValue>)
  {
    forall i, j :: 0 <= i < j < |vs| ==> vs[i].name != vs[j].name
  }

  lemma {:induction false} CheckFromPass(vs: seq<BlockValue>, kind: BlockKind, k: nat, seen: seq<string>)
    requires k <= |vs|
    requires forall i, j :: 0 <= i < j < k ==> vs[i].name != vs[j].name
    requires forall n :: n in seen <==> exists i :: 0 <= i < k && vs[i].name == n
    ensures CheckFrom(vs, kind, k, seen) == Pass <==>
      (forall j :: k <= j < |vs| ==> vs[j].kind == kind) && DistinctNames(vs)
    ensures CheckFrom(vs, kind, k, seen).Fail? ==>
      CheckFrom(vs, kind, k, seen).error == WorkTypeMismatchException ||
      (CheckFrom(vs, kind, k, seen).error.NotUniqueBlockInFlowError? &&
       exists i, j :: 0 <= i < j < |vs| && vs[i].name == vs[j].name == CheckFrom(vs, kind, k, seen).error.blockName)
    decreases |vs| - k
  {
    if k < |vs| && vs[k].kind == kind {
      if vs[k].name in seen {
        var i :| 0 <= i < k && vs[i].name == vs[k].name;
        assert !DistinctNames(vs);
      } else {
        var seen' := seen + [vs[k].name];
        forall n ensures n in seen' <==> exists i :: 0 <= i < k + 1 && vs[i].name == n {
          if n == vs[k].name {
            assert vs[k].name == n;
          }
        }
        CheckFromPass(vs, kind, k + 1, seen');
      }
    } else if k < |vs| {
      assert vs[k].kind != kind;
    }
  }

  /**
   * The validation passes exactly when every block is of the flow's block
   * class and no two blocks share a name; a failure is a class mismatch or
   * names a block that occurs twice.
   */
  lemma CheckSpecPass(vs: seq<BlockValue>, kind: BlockKind)
    ensures CheckFrom(vs, kind, 0, []) == Pass <==> (forall k :: 0 <= k < |vs| ==> vs[k].kind == kind) && DistinctNames(vs)
    ensures CheckFrom(vs, kind, 0, []).Fail? ==>
      CheckFrom(vs, kind, 0, []).error == WorkTypeMismatchException ||
      (CheckFrom(vs, kind, 0, []).error.NotUniqueBlockInFlowError? &&
       exists i, j :: 0 <= i < j < |vs| && vs[i].name == vs[j].name == CheckFrom(vs, kind, 0, []).error.blockName)
  {
    CheckFromPass(vs, kind, 0, []);
  }

  /** Building and validating a flow: the chain's block states, or the error `Flow.__init__` raises. */
  function FlowSpec(sv: seq<StepValue>, dup: bool, variant: Variant): Result<seq<BlockValue>>
  {
    var built := BuildSpec(sv, dup);
    if built.Err? then built
    else
      var check := CheckFrom(built.value, BlockKindFor(variant), 0, []);
      if check.Fail? then Err(check.error) else built
  }

  /**
   * A flow that allows duplicate blocks never fails the uniqueness check:
   * its names end in distinct step numbers, however often the shared
   * instances were suffixed before.
   */
  lemma DuplicatesNeverClash(sv: seq<StepValue>, variant: Variant)
    requires BuildSpec(sv, true).Ok?
    ensures DistinctNames(BuildSpec(sv, true).value)
    ensures FlowSpec(sv, true, variant).Err? ==> FlowSpec(sv, true, variant).error == WorkTypeMismatchException
  {
    var vs := BuildSpec(sv, true).value;
    BuildNames(sv, true);
    forall i, j | 0 <= i < j < |vs| ensures vs[i].name != vs[j].name {
      if vs[i].name == vs[j].name {
        SuffixedJointlyInjective(BaseName(sv[i]), i, BaseName(sv[j]), j);
      }
    }
    CheckSpecPass(vs, BlockKindFor(variant));
  }

  /** A flow that builds and validates has the flow's block class, distinct names and builder order. */
  lemma FlowSpecOk(sv: seq<StepValue>, dup: bool, variant: Variant)
    requires FlowSpec(sv, dup, variant).Ok?
    ensures var vs := FlowSpec(sv, dup, variant).value;
      |vs| == |sv| && DistinctNames(vs) &&
      forall k :: 0 <= k < |sv| ==> vs[k] == StepInit(sv[k], dup, k).state && vs[k].kind == BlockKindFor(variant)
  {
    BuildSpecOk(sv, dup);
    CheckSpecPass(BuildSpec(sv, dup).value, BlockKindFor(variant));
  }

  // ---------------------------------------------------------------------------
  // FlowBlock and FlowBuilder

  /**
   * A FlowBlock: what `obj_block` holds and the two hook references. It lives
   * in its builder's step list, where `init_block` replaces a class by the
   * instance it creates.
   */
  datatype FlowBlock = FlowBlock(obj: Slot, pre: HookRef, post: HookRef)

  /** `FlowBlock(arg, pre, post)`: only block classes and block instances are accepted. */
  function NewFlowBlock(arg: FlowBlockArg, pre: HookRef, post: HookRef): (r: Result<FlowBlock>)
    ensures r.Ok? <==> AcceptsBlock(arg)
    ensures r.Err? ==> r.error == FlowBlockException
    ensures r.Ok? ==> r.value.pre == pre && r.value.post == post
    ensures r.Ok? ==> r.value.obj == if arg.BlockClassArg? then ClassSlot(arg.c) else InstanceSlot(arg.b)
  {
    match arg
    case BlockClassArg(c) => if c.kind == LegacySyncBlock then Err(FlowBlockException) else Ok(FlowBlock(ClassSlot(c), pre, post))
    case BlockInstanceArg(b) => if b.kind == LegacySyncBlock then Err(FlowBlockException) else Ok(FlowBlock(InstanceSlot(b), pre, post))
    case NotABlock => Err(FlowBlockException)
  }

  /** The kinds of value `FlowBuilder(...)` can be given. */
  datatype StepArg = FlowBlockStep(fb: FlowBlock) | OtherStep

  class FlowBuilder {
    var steps: seq<FlowBlock>

    constructor (steps: seq<FlowBlock>)
      ensures this.steps == steps
    {
      this.steps := steps;
    }

    /** `FlowBuilder(first, *rest)`: the steps in argument order; the first non-FlowBlock raises. */
    static method Create(first: StepArg, rest: seq<StepArg>) returns (r: Result<FlowBuilder>)
      ensures var args := [first] + rest; r.Err? <==> exists i :: 0 <= i < |args| && args[i].OtherStep?
      ensures var args := [first] + rest; r.Err? ==>
        r.error.FlowBuilderException? && r.error.index < |args| && args[r.error.index].OtherStep? &&
        forall j :: 0 <= j < r.error.index ==> args[j].FlowBlockStep?
      ensures var args := [first] + rest; r.Ok? ==>
        fresh(r.value) && |r.value.steps| == |args| && forall k :: 0 <= k < |args| ==> r.value.steps[k] == args[k].fb
    {
      var args := [first] + rest;
      var fbs: seq<FlowBlock> := [];
      var i := 0;
      while i < |args|
        invariant 0 <= i <= |args| && |fbs| == i
        invariant forall j :: 0 <= j < i ==> args[j].FlowBlockStep? && fbs[j] == args[j].fb
      {
        if args[i].OtherStep? {
          return Err(FlowBuilderException(i));
        }
        fbs := fbs + [args[i].fb];
        i := i + 1;
      }
      var b := new FlowBuilder(fbs);
      return Ok(b);
    }

    /** The block instances the steps hold. */
    ghost function Blocks(): set<Block>
      reads this
    {
      set k | 0 <= k < |steps| && steps[k].obj.InstanceSlot? :: steps[k].obj.b
    }

    /** Where each step's instance points to (null for a class slot). */
    ghost function Nexts(): (n: seq<Block?>)
      reads this, Blocks()
      ensures |n| == |steps| && forall k :: 0 <= k < |steps| ==> n[k] == NextOf(steps[k])
    {
      seq(|steps|, k requires 0 <= k < |steps| reads this, Blocks() => NextOf(steps[k]))
    }

    /** The states of all steps, their hooks resolved against a flow with attributes `attrs`. */
    ghost function Values(attrs: map<string, HookArg>): (sv: seq<StepValue>)
      reads this, Blocks()
      ensures |sv| == |steps| && forall k :: 0 <= k < |steps| ==> sv[k] == StateOf(steps[k], attrs)
    {
      seq(|steps|, k requires 0 <= k < |steps| reads this, Blocks() => StateOf(steps[k], attrs))
    }

    /** The instance step k holds, if it holds one. */
    function Held(k: nat): set<Block>
      requires k < |steps|
      reads this
    {
      SlotObjs(steps[k])
    }

    /**
     * The builder's own invariant: distinct instances, each either unlinked
     * or linked to the instance of the next step (what earlier builds leave
     * behind).
     */
    ghost predicate Wf()
      reads this, Blocks()
    {
      WfSteps(steps, Nexts())
    }

    /** Every step holds an instance and each instance is linked to the next. */
    ghost predicate Linked()
      reads this, Blocks()
    {
      LinkedSteps(steps, Nexts())
    }

    /** `chain` lists the instances the steps hold, in order. */
    ghost predicate Holds(chain: seq<Block>)
      reads this
    {
      |chain| == |steps| && forall k :: 0 <= k < |steps| ==> steps[k].obj == InstanceSlot(chain[k])
    }

    /** The instances of the steps, when every step holds one. */
    ghost function Instances(): (chain: seq<Block>)
      requires forall k :: 0 <= k < |steps| ==> steps[k].obj.InstanceSlot?
      reads this
      ensures Holds(chain)
    {
      seq(|steps|, k requires 0 <= k < |steps| && steps[k].obj.InstanceSlot? reads this => steps[k].obj.b)
    }

    /** The class branch of `init_block`: instantiate with the hooks, then suffix the name. */
    static method InstantiateStep(c: BlockClass, preArg: HookArg, postArg: HookArg, dup: bool, step: nat) returns (r: Result<Block>)
      ensures var init := StepInit(StepValue(ClassValue(c), preArg, postArg), dup, step);
        (r.Ok? <==> init.outcome.Pass?) && (r.Err? ==> r.error == init.outcome.error) &&
        (r.Ok? ==> fresh(r.value) && r.value.next == null && r.value.View() == init.state)
    {
      r := Block.Instantiate(c, preArg, postArg);
      if r.Ok? && dup {
        r.value.name := Suffixed(r.value.name, step);
      }
    }

    /** The instance branch of `init_block`: the two hook setters, then the suffix. */
    static method ReinitStep(b: Block, preArg: HookArg, postArg: HookArg, dup: bool, step: nat) returns (o: Outcome)
      modifies b`pre, b`post, b`name
      ensures Reinit(old(b.View()), preArg, postArg, dup, step) == Init(b.View(), o)
    {
      o := b.SetPreHandlerFunction(preArg);
      if o.Pass? {
        o := b.SetPostHandlerFunction(postArg);
      }
      if o.Pass? && dup {
        b.name := Suffixed(b.name, step);
      }
    }

    /**
     * `steps[i].init_block(flow, i)`: instantiate the class with the resolved
     * hooks and keep the instance in place of the class, or set the resolved
     * hooks on the instance; then suffix the name when the flow allows
     * duplicates. No link changes, and no other step changes.
     */
    method InitBlock(i: nat, attrs: map<string, HookArg>, dup: bool) returns (r: Result<Block>)
      requires Wf() && i < |steps|
      modifies this, Held(i)
      ensures Wf() && Nexts() == old(Nexts())
      ensures |steps| == old(|steps|)
      ensures forall k :: 0 <= k < |steps| && k != i ==> steps[k] == old(steps[k])
      ensures Values(attrs) == old(Values(attrs))[i := StateOf(steps[i], attrs)]
      ensures var init := StepInit(old(StateOf(steps[i], attrs)), dup, i);
        (r.Ok? <==> init.outcome.Pass?) && (r.Err? ==> r.error == init.outcome.error) &&
        (r.Ok? ==> steps[i].obj == InstanceSlot(r.value) && r.value.View() == init.state)
      ensures old(steps[i].obj).ClassSlot? && r.Ok? ==> fresh(r.value) && steps[i] == old(steps[i]).(obj := InstanceSlot(r.value))
      ensures old(steps[i].obj).InstanceSlot? || r.Err? ==> steps == old(steps)
      ensures steps[i].pre == old(steps[i].pre) && steps[i].post == old(steps[i].post)
    {
      ghost var nexts, states := Nexts(), Values(attrs);
      var fb := steps[i];
      var preArg, postArg := GetFunction(attrs, fb.pre), GetFunction(attrs, fb.post);
      if fb.obj.ClassSlot? {
        r := InstantiateStep(fb.obj.c, preArg, postArg, dup, i);
        if r.Ok? {
          ghost var before := steps;
          steps := steps[i := fb.(obj := InstanceSlot(r.value))];
          assert Nexts() == nexts;
          WfPlace(before, nexts, i, r.value);
        }
      } else {
        var o := ReinitStep(fb.obj.b, preArg, postArg, dup, i);
        r := if o.Pass? then Ok(fb.obj.b) else Err(o.error);
      }
      assert Nexts() == nexts;
      assert Values(attrs) == states[i := StateOf(steps[i], attrs)];
    }

    /** `current.set_next(block)`, where `current` and `block` are the instances of steps i - 1 and i. */
    method LinkTo(i: nat, cur: Block, block: Block) returns (r: Result<Block>)
      requires Wf() && 0 < i < |steps| && steps[i - 1].obj == InstanceSlot(cur) && steps[i].obj == InstanceSlot(block)
      modifies cur`next
      ensures Wf()
      ensures r.Ok? <==> BaseOf(block.kind) == BaseOf(cur.kind)
      ensures r.Err? ==> r.error == TypeError && Nexts() == old(Nexts())
      ensures r.Ok? ==> r.value == block && Nexts() == old(Nexts())[i - 1 := block]
    {
      ghost var nexts := Nexts();
      r := cur.SetNext(NextInstance(block));
      if r.Ok? {
        assert Nexts() == nexts[i - 1 := block];
        WfLink(steps, nexts, i);
      } else {
        assert Nexts() == nexts;
      }
    }

    /**
     * One iteration of `build_flow`: initialise step i and link `cur`, the
     * block of step i - 1, to the result.
     */
    method LinkStep(attrs: map<string, HookArg>, dup: bool, i: nat, cur: Block) returns (r: Result<Block>)
      requires Wf() && 0 < i < |steps| && steps[i - 1].obj == InstanceSlot(cur)
      modifies this, Held(i), cur`next
      ensures Wf()
      ensures |steps| == old(|steps|)
      ensures forall k :: 0 <= k < |steps| && k != i ==> steps[k] == old(steps[k])
      ensures Values(attrs) == old(Values(attrs))[i := StateOf(steps[i], attrs)]
      ensures var init := StepInit(old(StateOf(steps[i], attrs)), dup, i);
        (r.Ok? <==> init.outcome.Pass? && BaseOf(init.state.kind) == BaseOf(cur.kind)) &&
        (r.Err? ==> r.error == if init.outcome.Fail? then init.outcome.error else TypeError) &&
        (r.Ok? ==> steps[i].obj == InstanceSlot(r.value) && r.value.View() == init.state)
      ensures r.Ok? ==> Nexts() == old(Nexts())[i - 1 := r.value]
      ensures r.Err? ==> Nexts() == old(Nexts())
      ensures old(steps[i].obj).InstanceSlot? ==> steps[i] == old(steps[i])
      ensures steps[i] == old(steps[i]) || (steps[i].obj.InstanceSlot? && fresh(steps[i].obj.b))
      ensures steps[i].pre == old(steps[i].pre) && steps[i].post == old(steps[i].post)
    {
      var made := InitBlock(i, attrs, dup);
      if made.Err? {
        return Err(made.error);
      }
      r := LinkTo(i, cur, made.value);
    }

    /**
     * What `build_flow` has established before step i: steps 0..i-1 hold
     * instances with states `acc`, linked one to the next; the later steps
     * are as they were (`steps0`, with states `sv`); and when the builder
     * was fully linked before (`linked0`, links `nexts0`), nothing has moved.
     */
    ghost predicate Building(attrs: map<string, HookArg>, i: nat, acc: seq<BlockValue>,
                             sv: seq<StepValue>, steps0: seq<FlowBlock>, linked0: bool, nexts0: seq<Block?>)
      reads this, Blocks()
    {
      BuildingSteps(steps, Values(attrs), Nexts(), i, acc, sv, steps0, linked0, nexts0)
    }

    /** One iteration of `build_flow`, carrying what the build has established. */
    method Advance(attrs: map<string, HookArg>, dup: bool, i: nat, cur: Block, ghost acc: seq<BlockValue>,
                   ghost sv: seq<StepValue>, ghost steps0: seq<FlowBlock>, ghost linked0: bool, ghost nexts0: seq<Block?>)
      returns (r: Result<Block>)
      requires Building(attrs, i, acc, sv, steps0, linked0, nexts0) && i < |steps| && steps[i - 1].obj == InstanceSlot(cur)
      modifies this, Held(i), cur`next
      ensures Wf() && |steps| == old(|steps|) && steps[0] == old(steps[0])
      ensures forall k :: 0 <= k < |steps| && k != i ==> steps[k] == old(steps[k])
      ensures steps[i] == old(steps[i]) || (steps[i].obj.InstanceSlot? && fresh(steps[i].obj.b))
      ensures steps[i].pre == old(steps[i].pre) && steps[i].post == old(steps[i].post)
      ensures old(steps[i].obj).InstanceSlot? ==> steps[i] == old(steps[i])
      ensures var init := StepInit(sv[i], dup, i);
        (r.Ok? <==> init.outcome.Pass? && BaseOf(init.state.kind) == BaseOf(acc[i - 1].kind)) &&
        (r.Err? ==> r.error == if init.outcome.Fail? then init.outcome.error else TypeError) &&
        (r.Ok? ==> init.state == r.value.View())
      ensures r.Ok? ==> steps[i].obj == InstanceSlot(r.value)
      ensures r.Ok? ==> Building(attrs, i + 1, acc + [r.value.View()], sv, steps0, linked0, nexts0)
      ensures linked0 ==> steps == steps0 && Nexts() == nexts0
    {
      ghost var states, nexts, before := Values(attrs), Nexts(), steps;
      r := LinkStep(attrs, dup, i, cur);
      if r.Ok? {
        BuildingNext(before, states, nexts, i, acc, sv, steps0, linked0, nexts0, steps, Values(attrs), Nexts(), r.value);
      }
      if linked0 {
        assert steps == before;
      }
    }

    /** At the end of `build_flow`, the steps form a chain holding the states `acc`. */
    lemma BuildingDone(attrs: map<string, HookArg>, acc: seq<BlockValue>,
                       sv: seq<StepValue>, steps0: seq<FlowBlock>, linked0: bool, nexts0: seq<Block?>)
      requires Building(attrs, |steps|, acc, sv, steps0, linked0, nexts0)
      ensures Linked() && IsChain(Instances()) && Views(Instances()) == acc
    {
      var states, nexts := Values(attrs), Nexts();
      BuildingStepsDone(steps, states, nexts, acc, sv, steps0, linked0, nexts0);
      var chain := Instances();
      forall k | 0 <= k < |steps|
        ensures chain[k].View() == acc[k] && chain[k].next == if k + 1 < |steps| then chain[k + 1] else null
      {
        assert states[k] == StateOf(steps[k], attrs) && nexts[k] == NextOf(steps[k]);
      }
    }

    /** The first statement of `build_flow`: initialise step 0. */
    method BuildStart(attrs: map<string, HookArg>, dup: bool, ghost sv: seq<StepValue>, ghost linked0: bool, ghost nexts0: seq<Block?>,
                      ghost avoid: set<Block>)
      returns (r: Result<Block>, ghost acc: seq<BlockValue>)
      requires Wf() && sv == Values(attrs) && linked0 == Linked() && nexts0 == Nexts() && Avoids(steps, avoid)
      modifies this, Held(0)
      ensures Wf() && |steps| == old(|steps|) && Avoids(steps, avoid) && KeepsSteps(steps, old(steps))
      ensures forall k :: 1 <= k < |steps| ==> steps[k] == old(steps[k])
      ensures steps[0] == old(steps[0]) || (steps[0].obj.InstanceSlot? && fresh(steps[0].obj.b))
      ensures r.Err? ==> steps == old(steps) && Nexts() == nexts0 && BuildSpec(sv, dup) == Err(r.error)
      ensures r.Ok? ==> steps[0].obj == InstanceSlot(r.value) && |acc| == 1 && BuildSpec(sv, dup) == BuildFrom(sv, dup, 1, acc)
      ensures r.Ok? ==> Building(attrs, 1, acc, sv, old(steps), linked0, nexts0)
    {
      BuildFromNext(sv, dup, 0, []);
      acc := [];
      ghost var before := steps;
      r := InitBlock(0, attrs, dup);
      AvoidsStep(before, steps, avoid, 0);
      KeepsStepsStep(before, steps, before, 0);
      if r.Ok? {
        acc := [r.value.View()];
        assert [] + acc == acc;
        BuildingStart(old(steps), sv, nexts0, linked0, steps, Values(attrs), Nexts());
      }
    }

    /** The loop of `build_flow`, from step 1 on, `cur` being the block of step 0. */
    method BuildRest(attrs: map<string, HookArg>, dup: bool, cur: Block, ghost acc: seq<BlockValue>,
                     ghost sv: seq<StepValue>, ghost steps0: seq<FlowBlock>, ghost linked0: bool, ghost nexts0: seq<Block?>,
                     ghost avoid: set<Block>)
      returns (r: Result<Block>, ghost vs: seq<BlockValue>)
      requires Building(attrs, 1, acc, sv, steps0, linked0, nexts0) && steps[0].obj == InstanceSlot(cur)
      requires BuildSpec(sv, dup) == BuildFrom(sv, dup, 1, acc)
      requires Avoids(steps, avoid) && KeepsSteps(steps, steps0)
      modifies this, Blocks()
      ensures Wf() && |steps| == old(|steps|) && Avoids(steps, avoid) && KeepsSteps(steps, steps0)
      ensures BuildSpec(sv, dup) == if r.Ok? then Ok(vs) else Err(r.error)
      ensures r.Ok? ==> r.value == cur && steps[0].obj == InstanceSlot(cur) && Building(attrs, |steps|, vs, sv, steps0, linked0, nexts0)
      ensures linked0 ==> steps == steps0 && Nexts() == nexts0
    {
      var c := cur;
      vs := acc;
      var i := 1;
      ghost var blocks0, steps1 := Blocks(), steps;
      while i < |steps|
        invariant Building(attrs, i, vs, sv, steps0, linked0, nexts0)
        invariant BuildSpec(sv, dup) == BuildFrom(sv, dup, i, vs)
        invariant steps[i - 1].obj == InstanceSlot(c) && steps[0].obj == InstanceSlot(cur)
        invariant Avoids(steps, avoid) && KeepsSteps(steps, steps0)
        invariant c in blocks0 || fresh(c)
      {
        var next;
        assert steps[i] == steps0[i] == steps1[i];
        assert Held(i) <= blocks0;
        next, vs := BuildStep(attrs, dup, i, c, vs, sv, steps0, linked0, nexts0, avoid);
        if next.Err? {
          return Err(next.error), vs;
        }
        c := next.value;
        i := i + 1;
      }
      r := Ok(cur);
    }

    /** One iteration of the loop of `build_flow`, with the bookkeeping of the steps it replaces. */
    method BuildStep(attrs: map<string, HookArg>, dup: bool, i: nat, cur: Block, ghost acc: seq<BlockValue>,
                     ghost sv: seq<StepValue>, ghost steps0: seq<FlowBlock>, ghost linked0: bool, ghost nexts0: seq<Block?>,
                     ghost avoid: set<Block>)
      returns (r: Result<Block>, ghost vs: seq<BlockValue>)
      requires Building(attrs, i, acc, sv, steps0, linked0, nexts0) && i < |steps| && steps[i - 1].obj == InstanceSlot(cur)
      requires BuildSpec(sv, dup) == BuildFrom(sv, dup, i, acc)
      requires Avoids(steps, avoid) && KeepsSteps(steps, steps0)
      modifies this, Held(i), cur`next
      ensures Wf() && |steps| == old(|steps|) && steps[0] == old(steps[0])
      ensures Avoids(steps, avoid) && KeepsSteps(steps, steps0)
      ensures r.Ok? ==> old(steps[i].obj) == InstanceSlot(r.value) || fresh(r.value)
      ensures r.Err? ==> BuildSpec(sv, dup) == Err(r.error)
      ensures r.Ok? ==> steps[i].obj == InstanceSlot(r.value) && |vs| == i + 1 && BuildSpec(sv, dup) == BuildFrom(sv, dup, i + 1, vs)
      ensures r.Ok? ==> Building(attrs, i + 1, vs, sv, steps0, linked0, nexts0)
      ensures linked0 ==> steps == steps0 && Nexts() == nexts0
    {
      BuildFromNext(sv, dup, i, acc);
      ghost var before := steps;
      r := Advance(attrs, dup, i, cur, acc, sv, steps0, linked0, nexts0);
      AvoidsStep(before, steps, avoid, i);
      KeepsStepsStep(before, steps, steps0, i);
      vs := acc;
      if r.Ok? {
        vs := acc + [r.value.View()];
      }
    }

    /**
     * `build_flow(flow)`: initialise step 0, then initialise each further
     * step and link the previous block to it; return the first block.
     */
    method BuildFlow(attrs: map<string, HookArg>, dup: bool, ghost avoid: set<Block>) returns (r: Result<Block>, ghost chain: seq<Block>)
      requires Wf() && Avoids(steps, avoid)
      modifies this, Blocks()
      ensures Wf() && Avoids(steps, avoid)
      ensures |steps| == old(|steps|) && KeepsSteps(steps, old(steps))
      ensures BuildSpec(old(Values(attrs)), dup) == if r.Ok? then Ok(Views(chain)) else Err(r.error)
      ensures r.Ok? ==> Linked() && Holds(chain) && IsChain(chain) && r.value == chain[0]
      ensures old(Linked()) ==> Linked() && steps == old(steps) && Nexts() == old(Nexts())
    {
      ghost var sv, steps0, linked0, nexts0 := Values(attrs), steps, Linked(), Nexts();
      ghost var acc;
      var first;
      first, acc := BuildStart(attrs, dup, sv, linked0, nexts0, avoid);
      if first.Err? {
        return Err(first.error), [];
      }
      ghost var vs := [];
      chain := [];
      r, vs := BuildRest(attrs, dup, first.value, acc, sv, steps0, linked0, nexts0, avoid);
      if r.Ok? {
        BuildingDone(attrs, vs, sv, steps0, linked0, nexts0);
        chain := Instances();
      }
    }
  }

  /** The instance a step holds, as a set. */
  function SlotObjs(fb: FlowBlock): set<Block>
  {
    if fb.obj.InstanceSlot? then {fb.obj.b} else {}
  }

  /** The state of a step, its hooks resolved against a flow with attributes `attrs`. */
  ghost function StateOf(fb: FlowBlock, attrs: map<string, HookArg>): StepValue
    reads SlotObjs(fb)
  {
    var s := match fb.obj
      case ClassSlot(c) => ClassValue(c)
      case InstanceSlot(b) => InstanceValue(b.View());
    StepValue(s, GetFunction(attrs, fb.pre), GetFunction(attrs, fb.post))
  }

  /** Where a step's instance points to (null for a class slot). */
  ghost function NextOf(fb: FlowBlock): Block?
    reads SlotObjs(fb)
  {
    if fb.obj.InstanceSlot? then fb.obj.b.next else null
  }

  /** Step k is unlinked or linked to the instance of step k + 1, `nexts` giving where each instance points. */
  ghost predicate LinkOk(steps: seq<FlowBlock>, nexts: seq<Block?>, k: nat)
    requires k < |steps| == |nexts|
  {
    steps[k].obj.InstanceSlot? ==>
      nexts[k] == null || (k + 1 < |steps| && steps[k + 1].obj.InstanceSlot? && nexts[k] == steps[k + 1].obj.b)
  }

  /** No instance is held by two steps. */
  ghost predicate DistinctInstances(steps: seq<FlowBlock>)
  {
    forall i, j :: 0 <= i < j < |steps| && steps[i].obj.InstanceSlot? && steps[j].obj.InstanceSlot? ==>
      steps[i].obj.b != steps[j].obj.b
  }

  /** The builder invariant on the steps and their links. */
  ghost predicate WfSteps(steps: seq<FlowBlock>, nexts: seq<Block?>)
  {
    |steps| > 0 && |nexts| == |steps| && DistinctInstances(steps) &&
    forall k :: 0 <= k < |steps| ==> LinkOk(steps, nexts, k)
  }

  /** Every step holds an instance, linked to the instance of the next step. */
  ghost predicate LinkedSteps(steps: seq<FlowBlock>, nexts: seq<Block?>)
  {
    |nexts| == |steps| && (forall k :: 0 <= k < |steps| ==> steps[k].obj.InstanceSlot?) &&
    forall k :: 0 <= k < |steps| - 1 ==> nexts[k] == steps[k + 1].obj.b
  }

  /**
   * What `build_flow` has established before step i, on the steps, their
   * states and their links: steps 0..i-1 hold instances with states `acc`,
   * linked one to the next; the later steps are as they were (`steps0`,
   * with states `sv`); and when the builder was fully linked before
   * (`linked0`, links `nexts0`), nothing has moved.
   */
  ghost predicate BuildingSteps(steps: seq<FlowBlock>, states: seq<StepValue>, nexts: seq<Block?>, i: nat, acc: seq<BlockValue>,
                                sv: seq<StepValue>, steps0: seq<FlowBlock>, linked0: bool, nexts0: seq<Block?>)
  {
    WfSteps(steps, nexts) && |states| == |steps| && 1 <= i <= |steps| && |steps| == |steps0| == |sv| && |acc| == i &&
    (forall k :: 0 <= k < i ==> steps[k].obj.InstanceSlot? && states[k].slot == InstanceValue(acc[k])) &&
    (forall k :: 0 <= k < i - 1 ==> nexts[k] == steps[k + 1].obj.b) &&
    (forall k :: i <= k < |steps| ==> steps[k] == steps0[k] && states[k] == sv[k]) &&
    (linked0 ==> LinkedSteps(steps0, nexts0) && steps == steps0 && nexts == nexts0)
  }

  /** Once every step is initialised, each instance is linked to the next and the last to nothing. */
  lemma BuildingStepsDone(steps: seq<FlowBlock>, states: seq<StepValue>, nexts: seq<Block?>, acc: seq<BlockValue>,
                          sv: seq<StepValue>, steps0: seq<FlowBlock>, linked0: bool, nexts0: seq<Block?>)
    requires BuildingSteps(steps, states, nexts, |steps|, acc, sv, steps0, linked0, nexts0)
    ensures LinkedSteps(steps, nexts) && nexts[|steps| - 1] == null
    ensures forall k :: 0 <= k < |steps| ==> states[k].slot == InstanceValue(acc[k])
  {
    assert LinkOk(steps, nexts, |steps| - 1);
  }

  /** Initialising step 0 starts what `build_flow` establishes. */
  lemma BuildingStart(steps0: seq<FlowBlock>, sv: seq<StepValue>, nexts0: seq<Block?>, linked0: bool,
                      steps: seq<FlowBlock>, states: seq<StepValue>, nexts: seq<Block?>)
    requires WfSteps(steps, nexts) && |steps| == |steps0| == |sv| && |states| == |sv| && nexts == nexts0
    requires forall k :: 0 < k < |steps| ==> steps[k] == steps0[k]
    requires states == sv[0 := states[0]] && steps[0].obj.InstanceSlot? && states[0].slot.InstanceValue?
    requires steps0[0].obj.InstanceSlot? ==> steps[0] == steps0[0]
    requires linked0 ==> LinkedSteps(steps0, nexts0)
    ensures BuildingSteps(steps, states, nexts, 1, [states[0].slot.v], sv, steps0, linked0, nexts0)
  {
    if linked0 {
      assert steps == steps0;
    }
  }

  /** Initialising step i and linking step i - 1 to it extends what `build_flow` has established. */
  lemma BuildingNext(steps: seq<FlowBlock>, states: seq<StepValue>, nexts: seq<Block?>, i: nat, acc: seq<BlockValue>,
                     sv: seq<StepValue>, steps0: seq<FlowBlock>, linked0: bool, nexts0: seq<Block?>,
                     steps': seq<FlowBlock>, states': seq<StepValue>, nexts': seq<Block?>, b: Block)
    requires BuildingSteps(steps, states, nexts, i, acc, sv, steps0, linked0, nexts0) && i < |steps|
    requires WfSteps(steps', nexts') && |steps'| == |steps|
    requires forall k :: 0 <= k < |steps| && k != i ==> steps'[k] == steps[k]
    requires steps'[i].obj == InstanceSlot(b) && (steps[i].obj.InstanceSlot? ==> steps'[i] == steps[i])
    requires |states'| == |states| && states' == states[i := states'[i]] && nexts' == nexts[i - 1 := b]
    requires states'[i].slot.InstanceValue?
    ensures BuildingSteps(steps', states', nexts', i + 1, acc + [states'[i].slot.v], sv, steps0, linked0, nexts0)
  {
    if linked0 {
      assert steps' == steps;
    }
  }

  /** Putting a new, unlinked instance in place of a class keeps the invariant. */
  lemma WfPlace(steps: seq<FlowBlock>, nexts: seq<Block?>, i: nat, b: Block)
    requires WfSteps(steps, nexts) && i < |steps| && steps[i].obj.ClassSlot? && nexts[i] == null
    requires forall k :: 0 <= k < |steps| && steps[k].obj.InstanceSlot? ==> steps[k].obj.b != b
    ensures WfSteps(steps[i := steps[i].(obj := InstanceSlot(b))], nexts)
  {
    var s := steps[i := steps[i].(obj := InstanceSlot(b))];
    forall k | 0 <= k < |s|
      ensures LinkOk(s, nexts, k)
    {
      assert LinkOk(steps, nexts, k);
    }
  }

  /** No step holds an instance from `avoid` (the blocks of other builders). */
  ghost predicate Avoids(steps: seq<FlowBlock>, avoid: set<Block>)
  {
    forall k :: 0 <= k < |steps| && steps[k].obj.InstanceSlot? ==> steps[k].obj.b !in avoid
  }

  lemma AvoidsStep(steps: seq<FlowBlock>, steps': seq<FlowBlock>, avoid: set<Block>, i: nat)
    requires Avoids(steps, avoid) && |steps'| == |steps| && i < |steps|
    requires forall k :: 0 <= k < |steps| && k != i ==> steps'[k] == steps[k]
    requires steps'[i] == steps[i] || (steps'[i].obj.InstanceSlot? && steps'[i].obj.b !in avoid)
    ensures Avoids(steps', avoid)
  {
  }

  /**
   * What a build leaves of the steps `steps0` it started from: every step
   * keeps its hook references, and a step that held an instance holds it still.
   */
  ghost predicate KeepsSteps(steps: seq<FlowBlock>, steps0: seq<FlowBlock>)
  {
    |steps| == |steps0| &&
    forall k :: 0 <= k < |steps| ==>
      steps[k].pre == steps0[k].pre && steps[k].post == steps0[k].post &&
      (steps0[k].obj.InstanceSlot? ==> steps[k] == steps0[k])
  }

  lemma KeepsStepsStep(steps: seq<FlowBlock>, steps': seq<FlowBlock>, steps0: seq<FlowBlock>, i: nat)
    requires KeepsSteps(steps, steps0) && |steps'| == |steps| && i < |steps|
    requires forall k :: 0 <= k < |steps| && k != i ==> steps'[k] == steps[k]
    requires steps'[i].pre == steps[i].pre && steps'[i].post == steps[i].post
    requires steps[i].obj.InstanceSlot? ==> steps'[i] == steps[i]
    ensures KeepsSteps(steps', steps0)
  {
  }

  /** Linking the instance of step i - 1 to the instance of step i keeps the invariant. */
  lemma WfLink(steps: seq<FlowBlock>, nexts: seq<Block?>, i: nat)
    requires WfSteps(steps, nexts) && 0 < i < |steps| && steps[i - 1].obj.InstanceSlot? && steps[i].obj.InstanceSlot?
    ensures WfSteps(steps, nexts[i - 1 := steps[i].obj.b])
  {
    var n := nexts[i - 1 := steps[i].obj.b];
    forall k | 0 <= k < |steps|
      ensures LinkOk(steps, n, k)
    {
      assert LinkOk(steps, nexts, k);
    }
  }

  // ---------------------------------------------------------------------------
  // Flow, SyncFlow, AsyncFlow

  /** What a flow class declares as `steps_flow`. */
  datatype StepsDecl =
    | StepsUnset                      // the inherited property raises NotImplementedError
    | StepsBuilder(builder: FlowBuilder)
    | StepsOther                      // something that is not a FlowBuilder

  /**
   * A user flow class: its base (`SyncFlow` or `AsyncFlow`), its `name_flow`
   * (None when it does not define one), its `steps_flow`, its
   * `is_contains_duplicat_blocks` and the attributes hooks can be named by.
   */
  datatype FlowClass = FlowClass(
    className: string,
    variant: Variant,
    name: Option<string>,
    steps: StepsDecl,
    duplicates: bool,
    attrs: map<string, HookArg>)

  /** The builder of a flow class, if it declares one. */
  function BuilderOf(c: FlowClass): set<FlowBuilder>
  {
    if c.steps.StepsBuilder? then {c.steps.builder} else {}
  }

  /** The block instances held by a flow class's builder. */
  ghost function BlocksOf(c: FlowClass): set<Block>
    reads BuilderOf(c)
  {
    if c.steps.StepsBuilder? then c.steps.builder.Blocks() else {}
  }

  class Flow {
    const cls: FlowClass
    const head: Block               // `flow_chain`
    ghost const chain: seq<Block>   // the blocks reachable from `head`

    ghost predicate Valid()
      reads set b | b in chain
    {
      IsChain(chain) && chain[0] == head
    }

    constructor (cls: FlowClass, head: Block, ghost chain: seq<Block>)
      ensures this.cls == cls && this.head == head && this.chain == chain
    {
      this.cls, this.head, this.chain := cls, head, chain;
    }

    /**
     * `cls()`: read `name_flow`, check that `steps_flow` is a FlowBuilder,
     * build the chain from it and validate the chain. `avoid` is any set of
     * blocks the builder does not hold (the blocks of other builders); it
     * holds none of them afterwards either.
     */
    static method Create(c: FlowClass, ghost avoid: set<Block>) returns (r: Result<Flow>)
      requires c.steps.StepsBuilder? ==> c.steps.builder.Wf() && Avoids(c.steps.builder.steps, avoid)
      modifies BuilderOf(c), BlocksOf(c)
      ensures c.name.None? ==> r == Err(NotImplementedError)
      ensures c.name.Some? && c.steps.StepsUnset? ==> r == Err(NotImplementedError)
      ensures c.name.Some? && c.steps.StepsOther? ==> r == Err(TypeError)
      ensures c.name.Some? && c.steps.StepsBuilder? ==>
        var spec := FlowSpec(old(c.steps.builder.Values(c.attrs)), c.duplicates, c.variant);
        (r.Ok? <==> spec.Ok?) && (r.Err? ==> r.error == spec.error)
      ensures r.Ok? ==> var f := r.value;
        fresh(f) && f.cls == c && f.Valid() && c.steps.StepsBuilder? && c.steps.builder.Linked() && c.steps.builder.Holds(f.chain) &&
        Views(f.chain) == FlowSpec(old(c.steps.builder.Values(c.attrs)), c.duplicates, c.variant).value
      ensures c.steps.StepsBuilder? ==> var b := c.steps.builder;
        b.Wf() && Avoids(b.steps, avoid) && KeepsSteps(b.steps, old(b.steps))
      ensures c.steps.StepsBuilder? && old(c.steps.builder.Linked()) ==> var b := c.steps.builder;
        b.Linked() && b.steps == old(b.steps) && b.Nexts() == old(b.Nexts())
    {
      if c.name.None? {
        return Err(NotImplementedError);
      }
      match c.steps {
        case StepsUnset =>
          return Err(NotImplementedError);
        case StepsOther =>
          return Err(TypeError);
        case StepsBuilder(b) =>
          r := CreateFrom(c, b, b.Values(c.attrs), b.Linked(), b.steps, b.Nexts(), avoid);
      }
    }

    /**
     * The rest of `cls()` once `steps_flow` is known to be the FlowBuilder
     * `b`; `sv`, `linked0` and `nexts0` are the builder's step states,
     * whether it is fully linked and its links, on entry.
     */
    static method CreateFrom(c: FlowClass, b: FlowBuilder, ghost sv: seq<StepValue>, ghost linked0: bool,
                             ghost steps0: seq<FlowBlock>, ghost nexts0: seq<Block?>, ghost avoid: set<Block>)
      returns (r: Result<Flow>)
      requires c.steps == StepsBuilder(b) && b.Wf() && Avoids(b.steps, avoid)
      requires sv == b.Values(c.attrs) && linked0 == b.Linked() && steps0 == b.steps && nexts0 == b.Nexts()
      modifies b, b.Blocks()
      ensures FlowSpec(sv, c.duplicates, c.variant) == if r.Ok? then Ok(Views(r.value.chain)) else Err(r.error)
      ensures r.Ok? ==> fresh(r.value) && r.value.cls == c && r.value.Valid() && b.Linked() && b.Holds(r.value.chain)
      ensures b.Wf() && Avoids(b.steps, avoid) && KeepsSteps(b.steps, steps0)
      ensures linked0 ==> b.Linked() && b.steps == steps0 && b.Nexts() == nexts0
    {
      var built, chain := b.BuildFlow(c.attrs, c.duplicates, avoid);
      if built.Err? {
        return Err(built.error);
      }
      ghost var steps, nexts := b.steps, b.Nexts();
      assert WfSteps(steps, nexts) && LinkedSteps(steps, nexts) && b.Holds(chain);
      r := Validated(c, built.value, chain, Views(chain));
      assert b.steps == steps && b.Nexts() == nexts;
    }

    /** The end of `cls()`: the flow object with its chain, once `_validate_data()` passes. */
    static method Validated(c: FlowClass, head: Block, ghost chain: seq<Block>, ghost vs: seq<BlockValue>) returns (r: Result<Flow>)
      requires IsChain(chain) && chain[0] == head && vs == Views(chain)
      ensures var check := CheckFrom(vs, BlockKindFor(c.variant), 0, []);
        (r.Ok? <==> check.Pass?) && (r.Err? ==> r.error == check.error)
      ensures r.Ok? ==> fresh(r.value) && r.value.cls == c && r.value.chain == chain && r.value.Valid() && Views(chain) == vs
    {
      var f := new Flow(c, head, chain);
      var check := f.ValidateData();
      if check.Fail? {
        return Err(check.error);
      }
      return Ok(f);
    }

    /** `_validate_data()`: walk the chain, checking each block's class and that its name is new. */
    method ValidateData() returns (o: Outcome)
      requires Valid()
      ensures o == CheckFrom(Views(chain), BlockKindFor(cls.variant), 0, [])
    {
      ghost var vs := Views(chain);
      var kind := BlockKindFor(cls.variant);
      var current: Block? := head;
      var seen: seq<string> := [];
      ghost var k := 0;
      while current != null
        invariant 0 <= k <= |chain| && (k < |chain| ==> current == chain[k]) && (k == |chain| ==> current == null)
        invariant CheckFrom(vs, kind, 0, []) == CheckFrom(vs, kind, k, seen)
        decreases |chain| - k
      {
        if current.kind != kind {
          return Fail(WorkTypeMismatchException);
        }
        if current.name in seen {
          return Fail(NotUniqueBlockInFlowError(current.name));
        }
        seen := seen + [current.name];
        current := current.next;
        k := k + 1;
      }
      return Pass;
    }

    /** `to_go_with_the_flow(msg)`: exactly `flow_chain.handle(msg)`; errors propagate. */
    method ToGoWithTheFlow(msg: Message, trace: seq<Event>) returns (o: Outcome, trace': seq<Event>)
      requires Valid()
      modifies msg`source
      ensures var run := HandleSpec(old(Views(chain)), 0, old(msg.View()));
        o == run.outcome && msg.View() == run.msg && trace' == trace + run.events
    {
      o, trace' := head.Handle(msg, chain, 0, trace);
    }

    /** `get_steps()`: the head block's `get_list_flow()`. */
    function GetSteps(): (s: string)
      requires Valid()
      reads set b | b in chain
      ensures s == Join(Names(Views(chain)) + ["end"], " -> ")
    {
      assert Views(chain)[0..] == Views(chain);
      head.ListFlow(chain, 0)
    }
  }
}
