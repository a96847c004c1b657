// The orchestrator objects (orchestrator.py, sync_orchestrator.py,
// async_orchestrator.py): two registries, flows and targets, built by
// `__init__`, and `handle`, which runs a message through the target or flow
// it names, replacing a registered class by the instance it makes of it.

module Orchestrators {
  import opened Common
  import opened Messages
  import opened Blocks
  import opened Flows
  import opened Generate
  import opened Registry

  /** What `handle` is given: a message, or some other object. */
  datatype HandleArg = MessageArg(msg: Message) | NotAMessage

  /** What one `handle` call amounts to: its result (whether it returns the message), the message after it and the calls into user code. */
  datatype Handled = Handled(result: Result<bool>, msg: MsgValue, events: seq<Event>)

  // ---------------------------------------------------------------------------
  // The heap the flow registry reaches

  /** Every builder's instances are among `blocks`, the builders are well formed and no two share an instance. */
  ghost predicate BuildersOk(builders: set<FlowBuilder>, blocks: set<Block>)
    reads builders, blocks
  {
    (forall b :: b in builders ==> b.Blocks() <= blocks && b.Wf()) &&
    (forall b1, b2 :: b1 in builders && b2 in builders && b1 != b2 ==> b1.Blocks() !! b2.Blocks())
  }

  /**
   * `BuildersOk`, and every builder in `linked` is fully linked and holds
   * the chain `linked` maps it to.
   */
  ghost predicate HeapOk(builders: set<FlowBuilder>, blocks: set<Block>, linked: map<FlowBuilder, seq<Block>>)
    reads builders, blocks
  {
    BuildersOk(builders, blocks) &&
    forall b :: b in linked ==> b in builders && b.Linked() && b.Holds(linked[b])
  }

  /**
   * A flow registry entry: a class whose builder is one of `builders`, or a
   * flow object whose chain is the one its class's builder holds.
   */
  ghost predicate EntryOk(e: FlowEntry, builders: set<FlowBuilder>, linked: map<FlowBuilder, seq<Block>>)
  {
    match e
    case FlowCls(c) => c.steps.StepsBuilder? ==> c.steps.builder in builders
    case FlowInst(f) =>
      f.cls.steps.StepsBuilder? && f.cls.steps.builder in linked && linked[f.cls.steps.builder] == f.chain &&
      |f.chain| > 0 && f.chain[0] == f.head
  }

  /** Every flow class and flow object in `data` satisfies `EntryOk`. */
  ghost predicate DataOk(data: Option<Data<FlowEntry>>, builders: set<FlowBuilder>, linked: map<FlowBuilder, seq<Block>>)
  {
    data.Some? && !data.value.OtherData? ==>
      forall it :: it in ItemsOf(data.value) && !it.OtherItem? ==> EntryOk(EntryOf(it), builders, linked)
  }

  /** A well-formed, fully linked builder holding `chain` links it into a chain ending in null. */
  lemma LinkedChain(b: FlowBuilder, chain: seq<Block>)
    requires b.Wf() && b.Linked() && b.Holds(chain)
    ensures IsChain(chain)
  {
    var n := |chain|;
    assert LinkOk(b.steps, b.Nexts(), n - 1);
    forall k | 0 <= k < n - 1
      ensures chain[k].next == chain[k + 1]
    {
      assert b.Nexts()[k] == chain[k].next;
    }
  }

  /** The flow object of a registry entry is a valid chain. */
  lemma EntryFlowValid(e: FlowEntry, builders: set<FlowBuilder>, blocks: set<Block>, linked: map<FlowBuilder, seq<Block>>)
    requires HeapOk(builders, blocks, linked) && EntryOk(e, builders, linked) && e.FlowInst?
    ensures e.f.Valid()
  {
    LinkedChain(e.f.cls.steps.builder, e.f.chain);
  }

  // ---------------------------------------------------------------------------
  // What handle does, on values

  /** The states of a flow class's steps as its builder holds them ([] without a builder). */
  ghost function ClassValues(c: FlowClass): seq<StepValue>
    reads BuilderOf(c), BlocksOf(c)
  {
    if c.steps.StepsBuilder? then c.steps.builder.Values(c.attrs) else []
  }

  /** What `cls()` makes of a flow class whose steps have states `sv`: the block states of the chain, or the error. */
  function CreateSpec(c: FlowClass, sv: seq<StepValue>): Result<seq<BlockValue>>
  {
    if c.name.None? then Err(NotImplementedError)
    else match c.steps
      case StepsUnset => Err(NotImplementedError)
      case StepsOther => Err(TypeError)
      case StepsBuilder(_) => FlowSpec(sv, c.duplicates, c.variant)
  }

  /** The block states of the chain a flow entry runs a message through, or the error making it raises. */
  ghost function EntryViews(e: FlowEntry): Result<seq<BlockValue>>
    reads if e.FlowInst? then (set b | b in e.f.chain) else {}
    reads if e.FlowCls? then BuilderOf(e.c) + BlocksOf(e.c) else {}
  {
    match e
    case FlowInst(f) => Ok(Views(f.chain))
    case FlowCls(c) => CreateSpec(c, ClassValues(c))
  }

  /**
   * The target path of `handle`: instantiating a class that raises
   * propagates; otherwise `process` runs, and the message is returned when
   * forced or when `process` raised. `awaited` is `AsyncOrchestrator`, which
   * awaits what `process` returns; its entries are all `SyncBlock`s, whose
   * result (a message or None) cannot be awaited, so the TypeError this
   * raises is caught and the message is returned whatever `process` did.
   */
  function TargetHandled(e: TargetEntry, force: bool, awaited: bool, m: MsgValue): (h: Handled)
    ensures h.msg == m
    ensures h.result.Err? <==> e.TargetCls? && e.bc.initRaises
    ensures h.result.Ok? ==>
      (h.result.value <==> force || awaited || ProcessOf(e).result.ProcessRaises?) && h.events == [Call(ProcessOf(e).tag, m)]
  {
    if e.TargetCls? && e.bc.initRaises then Handled(Err(UserError), m, [])
    else Handled(Ok(force || awaited || ProcessOf(e).result.ProcessRaises?), m, [Call(ProcessOf(e).tag, m)])
  }

  /**
   * The flow path of `handle`: making the flow object raises out of
   * `handle`; otherwise the message goes down the chain, and is returned
   * when forced or when the chain raised. With `awaited`
   * (`AsyncOrchestrator`) the chain runs to its end and then awaiting the
   * None that `SyncFlow.to_go_with_the_flow` returns raises a TypeError,
   * which is caught, so the message is always returned.
   */
  function FlowHandled(views: Result<seq<BlockValue>>, force: bool, awaited: bool, m: MsgValue): (h: Handled)
    requires views.Ok? ==> |views.value| > 0
    ensures views.Err? ==> h == Handled(Err(views.error), m, [])
    ensures views.Ok? ==> h.result.Ok? && (h.result.value <==> force || awaited || HandleSpec(views.value, 0, m).outcome.Fail?)
    ensures views.Ok? ==> h.msg == HandleSpec(views.value, 0, m).msg && h.events == HandleSpec(views.value, 0, m).events
  {
    match views
    case Err(e) => Handled(Err(e), m, [])
    case Ok(vs) =>
      var run := HandleSpec(vs, 0, m);
      Handled(Ok(force || awaited || run.outcome.Fail?), run.msg, run.events)
  }

  /**
   * `AsyncOrchestrator.handle` returns the message whenever the target or
   * the flow object is made, whatever `process` or the chain did; the calls
   * and the message are those of the synchronous orchestrators.
   */
  lemma AsyncHandleReturnsMessage(e: TargetEntry, views: Result<seq<BlockValue>>, force: bool, m: MsgValue)
    requires views.Ok? ==> |views.value| > 0
    ensures !(e.TargetCls? && e.bc.initRaises) ==>
      TargetHandled(e, force, true, m).result == Ok(true) &&
      TargetHandled(e, force, true, m).events == TargetHandled(e, force, false, m).events
    ensures views.Ok? ==>
      FlowHandled(views, force, true, m).result == Ok(true) &&
      FlowHandled(views, force, true, m).msg == FlowHandled(views, force, false, m).msg &&
      FlowHandled(views, force, true, m).events == FlowHandled(views, force, false, m).events
  {
  }

  // ---------------------------------------------------------------------------
  // __init__

  /** `_generate_data` on the argument `__init__` uses, or the empty registry when there is none. */
  method GenerateRegistry<E>(source: Option<Data<E>>, ignore: seq<string>, ignoreIds: bool) returns (r: Result<Dict<E>>)
    ensures r == RegistryFrom(source, ignore, ignoreIds)
    ensures r.Ok? ==> r.value.Valid()
  {
    if source.None? {
      return Ok(EmptyDict());
    }
    r := GenerateData(source.value, ignore, ignoreIds);
    if r.Ok? {
      GenerateSpecResult(source.value, ignore, ignoreIds);
    }
  }

  /** The checks `__init__` makes once the registries are generated; `_validate_data` walks the targets, then the flows. */
  method Configured(flows: Dict<FlowEntry>, targets: Dict<TargetEntry>, defaultFlow: string, defaultBlock: string)
    returns (r: Result<Config>)
    requires flows.Valid() && targets.Valid()
    ensures r == Configure(flows, targets, defaultFlow, defaultBlock)
  {
    if targets.keys == [] && flows.keys == [] {
      return Err(NoDateException);
    }
    var checkTargets := CheckTypes(targets, TargetMatches);
    if checkTargets.Fail? {
      return Err(checkTargets.error);
    }
    var checkFlows := CheckTypes(flows, FlowMatches);
    if checkFlows.Fail? {
      return Err(checkFlows.error);
    }
    if defaultFlow != "" && defaultFlow !in flows.entries {
      return Err(NotFoundDefaultError);
    }
    if defaultBlock != "" && defaultBlock !in targets.entries {
      return Err(NotFoundDefaultError);
    }
    return Ok(Config(flows, targets,
      if defaultFlow != "" then Some(defaultFlow) else None,
      if defaultBlock != "" then Some(defaultBlock) else None));
  }

  /** Every entry of a registry generated from well-formed flow data is well formed. */
  lemma RegistryEntriesOk(source: Option<Data<FlowEntry>>, ignore: seq<string>, ignoreIds: bool,
                          builders: set<FlowBuilder>, linked: map<FlowBuilder, seq<Block>>)
    requires DataOk(source, builders, linked) && RegistryFrom(source, ignore, ignoreIds).Ok?
    ensures forall k :: k in RegistryFrom(source, ignore, ignoreIds).value.entries ==>
      EntryOk(RegistryFrom(source, ignore, ignoreIds).value.entries[k], builders, linked)
  {
    if source.Some? {
      GeneratedEntriesFromData(source.value, ignore, ignoreIds);
    }
  }

  // ---------------------------------------------------------------------------
  // Making flow objects among other builders

  /**
   * `c()`, stated through `CreateSpec` (`sv` holds the states of the steps
   * on entry), with what it leaves of the class's builder.
   */
  method CreateFlow(c: FlowClass, ghost avoid: set<Block>, ghost sv: seq<StepValue>) returns (r: Result<Flow>)
    requires c.steps.StepsBuilder? ==> c.steps.builder.Wf() && Avoids(c.steps.builder.steps, avoid)
    requires sv == ClassValues(c)
    modifies BuilderOf(c), BlocksOf(c)
    ensures CreateSpec(c, sv) == if r.Ok? then Ok(Views(r.value.chain)) else Err(r.error)
    ensures r.Ok? ==> (r.value.cls == c && r.value.Valid() && c.steps.StepsBuilder? &&
      c.steps.builder.Linked() && c.steps.builder.Holds(r.value.chain))
    ensures c.steps.StepsBuilder? ==> var b := c.steps.builder;
      b.Wf() && Avoids(b.steps, avoid) && (old(b.Linked()) ==> b.Linked() && b.steps == old(b.steps))
  {
    r := Flow.Create(c, avoid);
  }

  /**
   * `c()` for a registered flow class, whose builder is one of `builders`:
   * the other builders are untouched, a builder that was fully linked keeps
   * its chain, and a flow object made records its builder's chain.
   */
  method CreateAmong(c: FlowClass, ghost builders: set<FlowBuilder>, ghost blocks: set<Block>,
                     ghost linked: map<FlowBuilder, seq<Block>>, ghost sv: seq<StepValue>)
    returns (r: Result<Flow>, ghost blocks': set<Block>, ghost linked': map<FlowBuilder, seq<Block>>)
    requires HeapOk(builders, blocks, linked) && (c.steps.StepsBuilder? ==> c.steps.builder in builders)
    requires sv == ClassValues(c)
    modifies BuilderOf(c), BlocksOf(c)
    ensures CreateSpec(c, sv) == if r.Ok? then Ok(Views(r.value.chain)) else Err(r.error)
    ensures r.Ok? ==> (r.value.cls == c && r.value.Valid() && c.steps.StepsBuilder? &&
      linked' == linked[c.steps.builder := r.value.chain])
    ensures r.Err? ==> linked' == linked
    ensures forall b :: b in linked ==> b in linked' && linked'[b] == linked[b]
    ensures HeapOk(builders, blocks', linked') && blocks <= blocks'
  {
    if c.steps.StepsBuilder? {
      var b := c.steps.builder;
      ghost var avoid := blocks - b.Blocks();
      OthersOkFrom(builders, blocks, linked, b);
      r := CreateKeeping(c, builders, linked, avoid, sv);
      blocks' := blocks + old(b.Blocks()) + b.Blocks();
      linked' := if r.Ok? then linked[b := r.value.chain] else linked;
      HeapOkAfter(builders, b, avoid, blocks', linked, linked');
    } else {
      r := CreateFlow(c, {}, sv);
      blocks', linked' := blocks, linked;
    }
  }

  /**
   * The builders of `builders` other than `b` are well formed, hold only
   * blocks of `avoid`, hold pairwise disjoint blocks and the chains
   * `linked` records of them.
   */
  ghost predicate OthersOk(builders: set<FlowBuilder>, b: FlowBuilder, avoid: set<Block>,
                           linked: map<FlowBuilder, seq<Block>>)
    reads builders - {b}, avoid
  {
    (forall b2 :: b2 in builders && b2 != b ==>
      b2.Blocks() <= avoid && b2.Wf() && (b2 in linked ==> b2.Linked() && b2.Holds(linked[b2]))) &&
    (forall b1, b2 :: b1 in builders && b2 in builders && b1 != b && b2 != b && b1 != b2 ==>
      b1.Blocks() !! b2.Blocks())
  }

  /** Under `HeapOk`, the builders other than `b` keep to the blocks `b` does not hold. */
  lemma OthersOkFrom(builders: set<FlowBuilder>, blocks: set<Block>, linked: map<FlowBuilder, seq<Block>>,
                     b: FlowBuilder)
    requires HeapOk(builders, blocks, linked) && b in builders
    ensures OthersOk(builders, b, blocks - b.Blocks(), linked)
    ensures b.Wf() && b.Blocks() <= blocks && (b in linked ==> b.Linked() && b.Holds(linked[b]))
  {
  }

  /**
   * `c()` for a flow class whose builder holds none of `avoid`, the blocks
   * of the other builders, which it leaves as they were.
   */
  method CreateKeeping(c: FlowClass, ghost builders: set<FlowBuilder>, ghost linked: map<FlowBuilder, seq<Block>>,
                       ghost avoid: set<Block>, ghost sv: seq<StepValue>)
    returns (r: Result<Flow>)
    requires c.steps.StepsBuilder? && c.steps.builder.Wf() && c.steps.builder.Blocks() !! avoid
    requires OthersOk(builders, c.steps.builder, avoid, linked)
    requires c.steps.builder in linked ==> c.steps.builder.Linked() && c.steps.builder.Holds(linked[c.steps.builder])
    requires sv == ClassValues(c)
    modifies BuilderOf(c), BlocksOf(c)
    ensures CreateSpec(c, sv) == if r.Ok? then Ok(Views(r.value.chain)) else Err(r.error)
    ensures r.Ok? ==> (r.value.cls == c && r.value.Valid() && c.steps.builder.Linked() && c.steps.builder.Holds(r.value.chain))
    ensures var b := c.steps.builder;
      b.Wf() && b.Blocks() !! avoid &&
      (b in linked ==> b.Linked() && b.Holds(linked[b]) && (r.Ok? ==> r.value.chain == linked[b]))
    ensures OthersOk(builders, c.steps.builder, avoid, linked)
  {
    var b := c.steps.builder;
    r := CreateOwn(c, if b in linked then Some(linked[b]) else None, avoid, sv);
  }

  /**
   * `c()` for a flow class whose builder holds none of `avoid`, and, when
   * it was fully linked with the chain `chain`, keeps that chain.
   */
  method CreateOwn(c: FlowClass, ghost chain: Option<seq<Block>>, ghost avoid: set<Block>, ghost sv: seq<StepValue>)
    returns (r: Result<Flow>)
    requires c.steps.StepsBuilder? && c.steps.builder.Wf() && c.steps.builder.Blocks() !! avoid
    requires chain.Some? ==> c.steps.builder.Linked() && c.steps.builder.Holds(chain.value)
    requires sv == ClassValues(c)
    modifies BuilderOf(c), BlocksOf(c)
    ensures CreateSpec(c, sv) == if r.Ok? then Ok(Views(r.value.chain)) else Err(r.error)
    ensures r.Ok? ==> (r.value.cls == c && r.value.Valid() && c.steps.builder.Linked() && c.steps.builder.Holds(r.value.chain))
    ensures var b := c.steps.builder;
      b.Wf() && b.Blocks() !! avoid &&
      (chain.Some? ==> b.Linked() && b.Holds(chain.value) && (r.Ok? ==> r.value.chain == chain.value))
  {
    var b := c.steps.builder;
    r := CreateFlow(c, avoid, sv);
    if chain.Some? {
      assert b.Holds(chain.value);
      if r.Ok? {
        assert r.value.chain == chain.value;
      }
    }
    AvoidsBlocks(b, avoid);
  }

  /**
   * `HeapOk` after one builder `b` was rebuilt: the others are as they were
   * and hold only blocks in `avoid`, which `b` does not hold; `linked'` adds
   * at most `b`'s chain to `linked`.
   */
  lemma HeapOkAfter(builders: set<FlowBuilder>, b: FlowBuilder, avoid: set<Block>, blocks: set<Block>,
                    linked: map<FlowBuilder, seq<Block>>, linked': map<FlowBuilder, seq<Block>>)
    requires b in builders && b.Wf() && b.Blocks() !! avoid && b.Blocks() <= blocks && avoid <= blocks
    requires OthersOk(builders, b, avoid, linked)
    requires forall b1 :: b1 in linked ==> b1 in builders
    requires forall b1 :: b1 in linked' ==> b1 in linked || b1 == b
    requires forall b1 :: b1 in linked' && b1 != b ==> linked'[b1] == linked[b1]
    requires b in linked' ==> b.Linked() && b.Holds(linked'[b])
    ensures HeapOk(builders, blocks, linked')
  {
  }

  /** A builder that avoids `avoid` holds none of its blocks. */
  lemma AvoidsBlocks(b: FlowBuilder, avoid: set<Block>)
    requires Avoids(b.steps, avoid)
    ensures b.Blocks() !! avoid
  {
  }

  /** Entries that hold of `linked` hold of any `linked'` that keeps its chains. */
  lemma EntriesKept(flows: Dict<FlowEntry>, builders: set<FlowBuilder>, linked: map<FlowBuilder, seq<Block>>,
                    linked': map<FlowBuilder, seq<Block>>)
    requires forall k :: k in flows.entries ==> EntryOk(flows.entries[k], builders, linked)
    requires forall b :: b in linked ==> b in linked' && linked'[b] == linked[b]
    ensures forall k :: k in flows.entries ==> EntryOk(flows.entries[k], builders, linked')
  {
  }

  /**
   * What `__init__` generates and checks before it stores anything: the
   * flow registry, then the target registry, then `Configured`.
   */
  method Initialised(kind: OrchKind, a: InitArgs, ghost builders: set<FlowBuilder>,
                     ghost linked: map<FlowBuilder, seq<Block>>) returns (cfg: Result<Config>)
    requires DataOk(a.flows, builders, linked) && DataOk(a.ownFlows, builders, linked)
    ensures cfg == InitSpec(kind, a)
    ensures cfg.Ok? ==> ConfigOk(cfg.value)
    ensures cfg.Ok? ==> forall k :: k in cfg.value.flows.entries ==> EntryOk(cfg.value.flows.entries[k], builders, linked)
  {
    var ignoreIds := kind == SyncOrch;
    var flows := GenerateRegistry(FlowSource(kind, a), a.flowsToIgnore, ignoreIds);
    if flows.Err? {
      return Err(flows.error);
    }
    var targets := GenerateRegistry(BlockSource(kind, a), a.blocksToIgnore, ignoreIds);
    if targets.Err? {
      return Err(targets.error);
    }
    cfg := Configured(flows.value, targets.value, a.defaultFlow, a.defaultBlock);
    if cfg.Ok? {
      RegistryEntriesOk(FlowSource(kind, a), a.flowsToIgnore, ignoreIds, builders, linked);
    }
  }

  // ---------------------------------------------------------------------------
  // Orchestrator, SyncOrchestrator, AsyncOrchestrator

  class Orchestrator {
    const kind: OrchKind
    var flows: Dict<FlowEntry>          // `_flows`
    var targets: Dict<TargetEntry>      // `_targets`
    const defaultFlow: Option<string>   // `_default_flow`
    const defaultBlock: Option<string>  // `_default_block`
    ghost const builders: set<FlowBuilder> // the builders of the registered flow classes
    ghost var blocks: set<Block>           // the instances those builders hold
    ghost var linked: map<FlowBuilder, seq<Block>> // the chains of the builders flow objects were made from

    /** The registries and defaults, as a value. */
    function State(): Config
      reads this
    {
      Config(flows, targets, defaultFlow, defaultBlock)
    }

    ghost predicate Valid()
      reads this, builders, blocks
    {
      ConfigOk(State()) && HeapOk(builders, blocks, linked) &&
      forall k :: k in flows.entries ==> EntryOk(flows.entries[k], builders, linked)
    }

    constructor Init(kind: OrchKind, cfg: Config, ghost builders: set<FlowBuilder>, ghost blocks: set<Block>,
                     ghost linked: map<FlowBuilder, seq<Block>>)
      requires ConfigOk(cfg) && HeapOk(builders, blocks, linked)
      requires forall k :: k in cfg.flows.entries ==> EntryOk(cfg.flows.entries[k], builders, linked)
      ensures this.kind == kind && State() == cfg
      ensures this.builders == builders && this.blocks == blocks && this.linked == linked && Valid()
    {
      this.kind := kind;
      this.flows, this.targets := cfg.flows, cfg.targets;
      this.defaultFlow, this.defaultBlock := cfg.defaultFlow, cfg.defaultBlock;
      this.builders, this.blocks, this.linked := builders, blocks, linked;
    }

    /**
     * `__init__`: generate the flow registry, then the target registry, raise
     * NoDateException when both are empty, check the entry types, then check
     * that the default names are registered. `builders` are the builders of
     * the flow classes given, `blocks` their instances and `linked` the
     * chains of the flow objects given.
     */
    static method New(kind: OrchKind, a: InitArgs, ghost builders: set<FlowBuilder>, ghost blocks: set<Block>,
                      ghost linked: map<FlowBuilder, seq<Block>>)
      returns (r: Result<Orchestrator>)
      requires HeapOk(builders, blocks, linked)
      requires DataOk(a.flows, builders, linked) && DataOk(a.ownFlows, builders, linked)
      ensures var spec := InitSpec(kind, a); (r.Ok? <==> spec.Ok?) && (r.Err? ==> r.error == spec.error)
      ensures r.Ok? ==> (fresh(r.value) && r.value.kind == kind && r.value.State() == InitSpec(kind, a).value &&
        r.value.builders == builders && r.value.blocks == blocks && r.value.Valid())
    {
      var cfg := Initialised(kind, a, builders, linked);
      if cfg.Err? {
        return Err(cfg.error);
      }
      var o := new Orchestrator.Init(kind, cfg.value, builders, blocks, linked);
      return Ok(o);
    }

    /** `get_list_flows()`: every registered flow name, once each. */
    function ListFlows(): (names: seq<string>)
      requires flows.Valid()
      reads this
      ensures forall n :: n in names <==> n in flows.entries
      ensures forall i, j :: 0 <= i < j < |names| ==> names[i] != names[j]
    {
      flows.keys
    }

    /** `get_list_blocks()`: every registered target name, once each. */
    function ListBlocks(): (names: seq<string>)
      requires targets.Valid()
      reads this
      ensures forall n :: n in names <==> n in targets.entries
      ensures forall i, j :: 0 <= i < j < |names| ==> names[i] != names[j]
    {
      targets.keys
    }

    /**
     * The target branch of `handle` once the entry `key` is chosen for the
     * requested name `name`: a class is instantiated (without hooks) and
     * memoised, then `process` runs; an exception from `process` is caught.
     */
    method HandleTarget(msg: Message, name: string, key: string, force: bool, trace: seq<Event>)
      returns (r: Result<bool>, trace': seq<Event>)
      requires Valid() && key in targets.entries
      modifies this`targets
      ensures Valid()
      ensures var e := old(targets.entries[key]); var h := TargetHandled(e, force, kind == AsyncOrch, msg.View());
        r == h.result && trace' == trace + h.events
      ensures var e := old(targets.entries[key]);
        (e.TargetInst? || e.bc.initRaises ==> targets == old(targets)) &&
        (e.TargetCls? && !e.bc.initRaises ==>
          var memo := MemoKey(kind, name, e.bc.name);
          memo in targets.entries && targets.entries[memo].TargetInst? && targets.entries[memo].b.View() == Fresh(e.bc) &&
          targets == old(targets).Put(memo, targets.entries[memo]))
    {
      var target := targets.entries[key];
      var b: Block;
      match target {
        case TargetInst(inst) =>
          b := inst;
        case TargetCls(bc) =>
          var made := Block.Instantiate(bc, Falsy, Falsy);
          if made.Err? {
            return Err(made.error), trace;
          }
          b := made.value;
          MemoiseTarget(MemoKey(kind, name, b.name), b);
      }
      var result, trace1 := b.Process(msg, trace);
      return Ok(force || kind == AsyncOrch || result.ProcessRaises?), trace1;
    }

    /** `self._targets[key] = block` for a block object just made. */
    method MemoiseTarget(key: string, b: Block)
      requires Valid()
      modifies this`targets
      ensures Valid() && targets == old(targets).Put(key, TargetInst(b))
    {
      targets := targets.Put(key, TargetInst(b));
    }

    /** `self._flows[key] = flow` for a flow object just made from a registered class. */
    method Memoise(key: string, f: Flow)
      requires Valid() && EntryOk(FlowInst(f), builders, linked)
      modifies this`flows
      ensures Valid() && flows == old(flows).Put(key, FlowInst(f))
    {
      flows := flows.Put(key, FlowInst(f));
    }

    /** Recording what `c()` left of its builder in `blocks'` and `linked'`. */
    method Record(ghost blocks': set<Block>, ghost linked': map<FlowBuilder, seq<Block>>)
      requires ConfigOk(State()) && HeapOk(builders, blocks', linked')
      requires forall k :: k in flows.entries ==> EntryOk(flows.entries[k], builders, linked')
      modifies this`blocks, this`linked
      ensures Valid() && blocks == blocks' && linked == linked'
    {
      blocks, linked := blocks', linked';
    }

    /**
     * Running a message down the chain of the flow object `f`, as the flow
     * path of `handle` does; the registries and the builders, with blocks
     * `blocks'` and chains `linked'`, are left as they are.
     */
    method Run(f: Flow, msg: Message, force: bool, trace: seq<Event>, ghost blocks': set<Block>,
               ghost linked': map<FlowBuilder, seq<Block>>) returns (r: Result<bool>, trace': seq<Event>)
      requires f.Valid() && ConfigOk(State()) && HeapOk(builders, blocks', linked')
      modifies msg`source
      ensures ConfigOk(State()) && HeapOk(builders, blocks', linked')
      ensures |f.chain| > 0
      ensures var h := FlowHandled(Ok(old(Views(f.chain))), force, kind == AsyncOrch, old(msg.View()));
        r == h.result && msg.View() == h.msg && trace' == trace + h.events
    {
      var o;
      o, trace' := f.ToGoWithTheFlow(msg, trace);
      r := Ok(force || kind == AsyncOrch || o.Fail?);
    }

    /**
     * The flow branch of `handle` once the entry `key` is chosen for the
     * requested name `name`: a class is made into a flow object and memoised
     * (its exceptions propagate), then the message goes down the chain, whose
     * exceptions are caught.
     */
    method HandleFlow(msg: Message, name: string, key: string, force: bool, trace: seq<Event>)
      returns (r: Result<bool>, trace': seq<Event>)
      requires Valid() && key in flows.entries
      modifies this`flows, this`blocks, this`linked, builders, blocks, msg`source
      ensures Valid()
      ensures var views := old(EntryViews(flows.entries[key]));
        (views.Ok? ==> |views.value| > 0) &&
        var h := FlowHandled(views, force, kind == AsyncOrch, old(msg.View()));
        r == h.result && msg.View() == h.msg && trace' == trace + h.events
      ensures var e := old(flows.entries[key]);
        (e.FlowInst? || old(EntryViews(e)).Err? ==> flows == old(flows)) &&
        (e.FlowCls? && old(EntryViews(e)).Ok? ==>
          var memo := MemoKey(kind, name, e.c.name.value);
          memo in flows.entries && flows.entries[memo].FlowInst? && flows.entries[memo].f.cls == e.c &&
          flows == old(flows).Put(memo, flows.entries[memo]))
    {
      match flows.entries[key] {
        case FlowInst(f) =>
          EntryFlowValid(flows.entries[key], builders, blocks, linked);
          r, trace' := Run(f, msg, force, trace, blocks, linked);
        case FlowCls(c) =>
          r, trace' := HandleClass(msg, c, name, force, trace, ClassValues(c));
      }
    }

    /**
     * The flow branch of `handle` for a registered flow class `c`, whose
     * steps have states `sv` on entry.
     */
    method HandleClass(msg: Message, c: FlowClass, name: string, force: bool, trace: seq<Event>, ghost sv: seq<StepValue>)
      returns (r: Result<bool>, trace': seq<Event>)
      requires Valid() && EntryOk(FlowCls(c), builders, linked) && sv == ClassValues(c)
      modifies this`flows, this`blocks, this`linked, BuilderOf(c), BlocksOf(c), msg`source
      ensures Valid()
      ensures var views := CreateSpec(c, sv);
        (views.Ok? ==> |views.value| > 0) &&
        var h := FlowHandled(views, force, kind == AsyncOrch, old(msg.View()));
        r == h.result && msg.View() == h.msg && trace' == trace + h.events
      ensures CreateSpec(c, sv).Err? ==> flows == old(flows)
      ensures CreateSpec(c, sv).Ok? ==> (c.name.Some? &&
        var memo := MemoKey(kind, name, c.name.value);
        memo in flows.entries && flows.entries[memo].FlowInst? && flows.entries[memo].f.cls == c &&
        flows == old(flows).Put(memo, flows.entries[memo]))
    {
      var made;
      ghost var blocks', linked';
      made, r, trace', blocks', linked' := RunClass(msg, c, force, trace, sv);
      if made.Ok? {
        Record(blocks', linked');
        Memoise(MemoKey(kind, name, c.name.value), made.value);
      }
    }

    /**
     * `c()` for a registered flow class `c`, whose steps have states `sv`,
     * then the run of the message down the chain made; on success, the
     * flow object is left for the memo, and `blocks'` and `linked'` record
     * its builder's blocks and chain. (The run only changes the message and
     * the memo only the registry, so running before memoising ends in the
     * same state as the other order.)
     */
    method RunClass(msg: Message, c: FlowClass, force: bool, trace: seq<Event>, ghost sv: seq<StepValue>)
      returns (made: Result<Flow>, r: Result<bool>, trace': seq<Event>,
               ghost blocks': set<Block>, ghost linked': map<FlowBuilder, seq<Block>>)
      requires Valid() && EntryOk(FlowCls(c), builders, linked) && sv == ClassValues(c)
      modifies this`blocks, this`linked, BuilderOf(c), BlocksOf(c), msg`source
      ensures CreateSpec(c, sv).Ok? <==> made.Ok?
      ensures var views := CreateSpec(c, sv);
        (views.Ok? ==> |views.value| > 0) &&
        var h := FlowHandled(views, force, kind == AsyncOrch, old(msg.View()));
        r == h.result && msg.View() == h.msg && trace' == trace + h.events
      ensures made.Err? ==> Valid()
      ensures made.Ok? ==> (made.value.cls == c && c.name.Some? && ConfigOk(State()) &&
        HeapOk(builders, blocks', linked') && EntryOk(FlowInst(made.value), builders, linked') &&
        forall k :: k in flows.entries ==> EntryOk(flows.entries[k], builders, linked'))
    {
      made, blocks', linked' := MakeFlow(c, sv);
      if made.Err? {
        return made, Err(made.error), trace, blocks', linked';
      }
      r, trace' := Run(made.value, msg, force, trace, blocks', linked');
    }

    /**
     * `c()` for a registered flow class `c`, whose steps have states `sv`:
     * on failure, what it left of the builder is recorded at once; on
     * success, in `blocks'` and `linked'`, for the memo to record.
     */
    method MakeFlow(c: FlowClass, ghost sv: seq<StepValue>)
      returns (r: Result<Flow>, ghost blocks': set<Block>, ghost linked': map<FlowBuilder, seq<Block>>)
      requires Valid() && EntryOk(FlowCls(c), builders, linked) && sv == ClassValues(c)
      modifies this`blocks, this`linked, BuilderOf(c), BlocksOf(c)
      ensures CreateSpec(c, sv) == if r.Ok? then Ok(Views(r.value.chain)) else Err(r.error)
      ensures r.Err? ==> Valid()
      ensures r.Ok? ==> (r.value.Valid() && r.value.cls == c && c.name.Some? && ConfigOk(State()) &&
        HeapOk(builders, blocks', linked') && EntryOk(FlowInst(r.value), builders, linked') &&
        forall k :: k in flows.entries ==> EntryOk(flows.entries[k], builders, linked'))
    {
      r, blocks', linked' := CreateAmong(c, builders, blocks, linked, sv);
      EntriesKept(flows, builders, linked, linked');
      if r.Err? {
        Record(blocks', linked');
      }
    }

    /**
     * `handle(message, is_force_return)`: `Orchestrator` and
     * `SyncOrchestrator` raise TypeError for a non-message, `AsyncOrchestrator`
     * fails reading its fields; a message naming no registered entry (and no
     * default applying) is returned untouched; otherwise it goes to the
     * target or flow `RouteOf` picks.
     */
    method Handle(arg: HandleArg, force: bool, trace: seq<Event>) returns (r: Result<bool>, trace': seq<Event>)
      requires Valid()
      modifies this, builders, blocks, if arg.MessageArg? then {arg.msg} else {}
      ensures Valid()
      ensures arg.NotAMessage? ==>
        r == Err(if kind == AsyncOrch then AttributeError else TypeError) &&
        flows == old(flows) && targets == old(targets) && trace' == trace
      ensures arg.MessageArg? && old(RouteOf(kind, State(), arg.msg.target, arg.msg.flow)).Unrouted? ==>
        r == Ok(true) && arg.msg.View() == old(arg.msg.View()) &&
        flows == old(flows) && targets == old(targets) && trace' == trace
      ensures arg.MessageArg? && old(RouteOf(kind, State(), arg.msg.target, arg.msg.flow)).ToTarget? ==>
        var key := old(RouteOf(kind, State(), arg.msg.target, arg.msg.flow)).key;
        var e := old(targets.entries[key]);
        var h := TargetHandled(e, force, kind == AsyncOrch, old(arg.msg.View()));
        r == h.result && arg.msg.View() == h.msg && trace' == trace + h.events && flows == old(flows) &&
        (e.TargetInst? || e.bc.initRaises ==> targets == old(targets)) &&
        (e.TargetCls? && !e.bc.initRaises ==>
          var memo := MemoKey(kind, old(arg.msg.target), e.bc.name);
          memo in targets.entries && targets.entries[memo].TargetInst? && targets.entries[memo].b.View() == Fresh(e.bc) &&
          targets == old(targets).Put(memo, targets.entries[memo]))
      ensures arg.MessageArg? && old(RouteOf(kind, State(), arg.msg.target, arg.msg.flow)).ToFlow? ==>
        var key := old(RouteOf(kind, State(), arg.msg.target, arg.msg.flow)).key;
        var e := old(flows.entries[key]);
        var views := old(EntryViews(e));
        (views.Ok? ==> |views.value| > 0) &&
        var h := FlowHandled(views, force, kind == AsyncOrch, old(arg.msg.View()));
        r == h.result && arg.msg.View() == h.msg && trace' == trace + h.events && targets == old(targets) &&
        (e.FlowInst? || views.Err? ==> flows == old(flows)) &&
        (e.FlowCls? && views.Ok? ==>
          var memo := MemoKey(kind, old(arg.msg.flow), e.c.name.value);
          memo in flows.entries && flows.entries[memo].FlowInst? && flows.entries[memo].f.cls == e.c &&
          flows == old(flows).Put(memo, flows.entries[memo]))
    {
      if arg.NotAMessage? {
        return Err(if kind == AsyncOrch then AttributeError else TypeError), trace;
      }
      var msg := arg.msg;
      RouteLands(kind, State(), msg.target, msg.flow);
      var route := RouteOf(kind, State(), msg.target, msg.flow);
      match route {
        case Unrouted =>
          return Ok(true), trace;
        case ToTarget(key) =>
          r, trace' := HandleTarget(msg, msg.target, key, force, trace);
        case ToFlow(key) =>
          r, trace' := HandleFlow(msg, msg.flow, key, force, trace);
      }
    }
  }
}
