// The value-level part of the orchestrators (orchestrator.py,
// sync_orchestrator.py, async_orchestrator.py): turning the `flows` /
// `blocks` arguments into registries (`_generate_data`), checking the types
// of what was registered (`_validate_data`), the checks of `__init__`, and
// how `handle` picks the registry entry for a message.

module Registry {
  import opened Common
  import opened Blocks
  import opened Flows
  import opened Generate

  /** `Orchestrator`, `SyncOrchestrator` or `AsyncOrchestrator`. */
  datatype OrchKind = BaseOrch | SyncOrch | AsyncOrch

  /** What the flow registry maps a name to: the class, or the instance `handle` made of it. */
  datatype FlowEntry = FlowCls(c: FlowClass) | FlowInst(f: Flow)

  /** What the target registry maps a name to: the class, or the instance `handle` made of it. */
  datatype TargetEntry = TargetCls(bc: BlockClass) | TargetInst(b: Block)

  // ---------------------------------------------------------------------------
  // _validate_data

  /** `issubclass(obj, SyncBlock)` / `isinstance(obj, SyncBlock)`: the base every orchestrator checks targets against. */
  predicate TargetMatches(e: TargetEntry)
  {
    match e
    case TargetCls(bc) => bc.kind == SyncBlock
    case TargetInst(b) => b.kind == SyncBlock
  }

  /** `issubclass(obj, SyncFlow)` / `isinstance(obj, SyncFlow)`: the base every orchestrator checks flows against. */
  predicate FlowMatches(e: FlowEntry)
  {
    match e
    case FlowCls(c) => c.variant == Sync
    case FlowInst(f) => f.cls.variant == Sync
  }

  /** `check_type_dict_obj`: walk the values in key order, raising at the first one of the wrong type. */
  method CheckTypes<E>(d: Dict<E>, matches: E -> bool) returns (o: Outcome)
    requires d.Valid()
    ensures o.Pass? <==> forall k :: k in d.entries ==> matches(d.entries[k])
    ensures o.Fail? ==> o.error == WorkTypeMismatchException
  {
    var i := 0;
    while i < |d.keys|
      invariant 0 <= i <= |d.keys|
      invariant forall j :: 0 <= j < i ==> matches(d.entries[d.keys[j]])
    {
      if !matches(d.entries[d.keys[i]]) {
        return Fail(WorkTypeMismatchException);
      }
      i := i + 1;
    }
    forall k | k in d.entries
      ensures matches(d.entries[k])
    {
      var j :| 0 <= j < |d.keys| && d.keys[j] == k;
    }
    return Pass;
  }

  /** `_validate_data()`: targets first, then flows; both raise the same exception. */
  function ValidateSpec(targets: Dict<TargetEntry>, flows: Dict<FlowEntry>): (o: Outcome)
    ensures o.Pass? <==>
      (forall k :: k in targets.entries ==> TargetMatches(targets.entries[k])) &&
      (forall k :: k in flows.entries ==> FlowMatches(flows.entries[k]))
    ensures o.Fail? ==> o.error == WorkTypeMismatchException
  {
    if !(forall k :: k in targets.entries ==> TargetMatches(targets.entries[k])) then Fail(WorkTypeMismatchException)
    else if !(forall k :: k in flows.entries ==> FlowMatches(flows.entries[k])) then Fail(WorkTypeMismatchException)
    else Pass
  }

  // ---------------------------------------------------------------------------
  // __init__

  /** The arguments of `__init__`; "" stands for a default name that is None. */
  datatype InitArgs = InitArgs(
    flows: Option<Data<FlowEntry>>,
    blocks: Option<Data<TargetEntry>>,
    flowsToIgnore: seq<string>,
    blocksToIgnore: seq<string>,
    defaultFlow: string,
    defaultBlock: string,
    ownFlows: Option<Data<FlowEntry>>,    // the `flows` property of a `SyncOrchestrator` subclass
    ownBlocks: Option<Data<TargetEntry>>) // the `blocks` property of a `SyncOrchestrator` subclass

  /** The state `__init__` leaves: the registries and the default names. */
  datatype Config = Config(
    flows: Dict<FlowEntry>,
    targets: Dict<TargetEntry>,
    defaultFlow: Option<string>,
    defaultBlock: Option<string>)

  /** The flows argument `__init__` generates from, if any; only `SyncOrchestrator` falls back to its property. */
  function FlowSource(kind: OrchKind, a: InitArgs): Option<Data<FlowEntry>>
  {
    if Supplied(a.flows) then a.flows
    else if kind == SyncOrch && Supplied(a.ownFlows) then a.ownFlows
    else None
  }

  /** The blocks argument `__init__` generates from, if any. */
  function BlockSource(kind: OrchKind, a: InitArgs): Option<Data<TargetEntry>>
  {
    if Supplied(a.blocks) then a.blocks
    else if kind == SyncOrch && Supplied(a.ownBlocks) then a.ownBlocks
    else None
  }

  /** A registry generated from `source`, or the empty one when there is none. */
  function RegistryFrom<E>(source: Option<Data<E>>, ignore: seq<string>, ignoreIds: bool): Result<Dict<E>>
  {
    if source.Some? then GenerateSpec(source.value, ignore, ignoreIds) else Ok(EmptyDict())
  }

  /**
   * `__init__`: generate flows, then blocks, then check what was generated
   * (`Configure`).
   */
  function InitSpec(kind: OrchKind, a: InitArgs): Result<Config>
  {
    var ignoreIds := kind == SyncOrch;
    var flows := RegistryFrom(FlowSource(kind, a), a.flowsToIgnore, ignoreIds);
    if flows.Err? then Err(flows.error)
    else
      var targets := RegistryFrom(BlockSource(kind, a), a.blocksToIgnore, ignoreIds);
      if targets.Err? then Err(targets.error)
      else Configure(flows.value, targets.value, a.defaultFlow, a.defaultBlock)
  }

  /**
   * The rest of `__init__` once the registries are generated: raise
   * NoDateException when both are empty, validate the types, then check the
   * default flow and block ("" for None).
   */
  function Configure(flows: Dict<FlowEntry>, targets: Dict<TargetEntry>, defaultFlow: string, defaultBlock: string): Result<Config>
  {
    if targets.keys == [] && flows.keys == [] then Err(NoDateException)
    else if ValidateSpec(targets, flows).Fail? then Err(WorkTypeMismatchException)
    else if defaultFlow != "" && defaultFlow !in flows.entries then Err(NotFoundDefaultError)
    else if defaultBlock != "" && defaultBlock !in targets.entries then Err(NotFoundDefaultError)
    else Ok(Config(
      flows, targets,
      if defaultFlow != "" then Some(defaultFlow) else None,
      if defaultBlock != "" then Some(defaultBlock) else None))
  }

  /** What every orchestrator keeps about its registries between calls. */
  ghost predicate ConfigOk(cfg: Config)
  {
    cfg.flows.Valid() && cfg.targets.Valid() &&
    (cfg.defaultFlow.Some? ==> cfg.defaultFlow.value in cfg.flows.entries) &&
    (cfg.defaultBlock.Some? ==> cfg.defaultBlock.value in cfg.targets.entries)
  }

  /**
   * A constructed orchestrator has valid registries, at least one entry, only
   * `SyncFlow` / `SyncBlock` entries (for every kind, `AsyncOrchestrator`
   * included) and default names that are registered and given.
   */
  lemma InitEstablishes(kind: OrchKind, a: InitArgs)
    requires InitSpec(kind, a).Ok?
    ensures var cfg := InitSpec(kind, a).value;
      ConfigOk(cfg) &&
      (cfg.flows.keys != [] || cfg.targets.keys != []) &&
      (forall k :: k in cfg.targets.entries ==> TargetMatches(cfg.targets.entries[k])) &&
      (forall k :: k in cfg.flows.entries ==> FlowMatches(cfg.flows.entries[k])) &&
      (cfg.defaultFlow.Some? <==> a.defaultFlow != "") && (cfg.defaultFlow.Some? ==> cfg.defaultFlow.value == a.defaultFlow) &&
      (cfg.defaultBlock.Some? <==> a.defaultBlock != "") && (cfg.defaultBlock.Some? ==> cfg.defaultBlock.value == a.defaultBlock)
  {
  }

  /** `Orchestrator()` with neither flows nor blocks raises NoDateException. */
  lemma InitWithoutDataRaises(kind: OrchKind, a: InitArgs)
    requires !Supplied(a.flows) && !Supplied(a.blocks)
    requires kind == SyncOrch ==> !Supplied(a.ownFlows) && !Supplied(a.ownBlocks)
    ensures InitSpec(kind, a) == Err(NoDateException)
  {
  }

  /**
   * A falsy `flows` that is neither None nor a list (`()`, `{}`, `""`) is
   * skipped by `if flows:` like None, so with no blocks either it is
   * NoDateException, not WrongTypeException.
   */
  lemma FalsyFlowsSkipped(kind: OrchKind, a: InitArgs)
    requires a.flows == Some(OtherData(false)) && !Supplied(a.blocks)
    requires kind == SyncOrch ==> !Supplied(a.ownFlows) && !Supplied(a.ownBlocks)
    ensures InitSpec(kind, a) == Err(NoDateException)
  {
    InitWithoutDataRaises(kind, a);
  }

  /** A truthy `flows` that is neither a module nor a list reaches `_generate_data`, which raises WrongTypeException. */
  lemma TruthyOtherFlowsRaise(kind: OrchKind, a: InitArgs)
    requires a.flows == Some(OtherData(true))
    ensures InitSpec(kind, a) == Err(WrongTypeException)
  {
    GenerateSpecOkIff<FlowEntry>(OtherData(true), a.flowsToIgnore, kind == SyncOrch);
  }

  /** A default name that is not registered raises NotFoundDefaultError once the registries are fine. */
  lemma InitUnknownDefaultRaises(kind: OrchKind, a: InitArgs)
    requires var ignoreIds := kind == SyncOrch;
      var flows := RegistryFrom(FlowSource(kind, a), a.flowsToIgnore, ignoreIds);
      var targets := RegistryFrom(BlockSource(kind, a), a.blocksToIgnore, ignoreIds);
      flows.Ok? && targets.Ok? && (flows.value.keys != [] || targets.value.keys != []) &&
      ValidateSpec(targets.value, flows.value).Pass? &&
      ((a.defaultFlow != "" && a.defaultFlow !in flows.value.entries) ||
       (a.defaultBlock != "" && a.defaultBlock !in targets.value.entries))
    ensures InitSpec(kind, a) == Err(NotFoundDefaultError)
  {
  }

  // ---------------------------------------------------------------------------
  // handle: choosing the entry

  /** Which registry entry `handle` runs a message through, if any. */
  datatype Route = Unrouted | ToTarget(key: string) | ToFlow(key: string)

  /**
   * A message with a target goes to that target, else one with a flow goes to
   * that flow; an unknown name falls back to the default one, except in
   * `AsyncOrchestrator`, which has no fallback.
   */
  function RouteOf(kind: OrchKind, cfg: Config, target: string, flow: string): Route
  {
    if target != "" then
      if target in cfg.targets.entries then ToTarget(target)
      else if kind != AsyncOrch && cfg.defaultBlock.Some? then ToTarget(cfg.defaultBlock.value)
      else Unrouted
    else if flow != "" then
      if flow in cfg.flows.entries then ToFlow(flow)
      else if kind != AsyncOrch && cfg.defaultFlow.Some? then ToFlow(cfg.defaultFlow.value)
      else Unrouted
    else Unrouted
  }

  /**
   * Routing in terms of what the message names: a target always wins over a
   * flow, a registered name is used as it is, and a route always lands on a
   * registered entry.
   */
  lemma RouteLands(kind: OrchKind, cfg: Config, target: string, flow: string)
    requires ConfigOk(cfg)
    ensures var r := RouteOf(kind, cfg, target, flow);
      (r.ToTarget? ==> r.key in cfg.targets.entries && target != "") &&
      (r.ToFlow? ==> r.key in cfg.flows.entries && target == "" && flow != "") &&
      (target in cfg.targets.entries && target != "" ==> r == ToTarget(target)) &&
      (target == "" && flow in cfg.flows.entries && flow != "" ==> r == ToFlow(flow))
  {
  }

  /**
   * A message is left unrouted exactly when it names nothing, or names an
   * unregistered target (or, with no target, flow) and no default applies.
   */
  lemma UnroutedExactly(kind: OrchKind, cfg: Config, target: string, flow: string)
    ensures RouteOf(kind, cfg, target, flow).Unrouted? <==>
      (target == "" && flow == "") ||
      (target != "" && target !in cfg.targets.entries && (kind == AsyncOrch || cfg.defaultBlock.None?)) ||
      (target == "" && flow != "" && flow !in cfg.flows.entries && (kind == AsyncOrch || cfg.defaultFlow.None?))
  {
  }

  /** `AsyncOrchestrator` routes exactly the registered names; its defaults are never used. */
  lemma AsyncIgnoresDefaults(cfg: Config, target: string, flow: string)
    ensures RouteOf(AsyncOrch, cfg, target, flow) ==
      RouteOf(AsyncOrch, cfg.(defaultFlow := None, defaultBlock := None), target, flow)
    ensures RouteOf(AsyncOrch, cfg, target, flow) == RouteOf(BaseOrch, cfg.(defaultFlow := None, defaultBlock := None), target, flow)
  {
  }

  /**
   * The key a new instance is stored under: the name the message asked for
   * (`Orchestrator`, `AsyncOrchestrator`), or the instance's own
   * `name_block` / `name_flow` (`SyncOrchestrator`).
   */
  function MemoKey(kind: OrchKind, requested: string, ownName: string): string
  {
    if kind == SyncOrch then ownName else requested
  }

  /** What the target entry's `process` does, whether the entry is the class or an instance. */
  function ProcessOf(e: TargetEntry): Process
  {
    match e
    case TargetCls(bc) => bc.process
    case TargetInst(b) => b.process
  }
}
