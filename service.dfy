// Services (orch_serv/service/service.py): command handlers, the swap scope
// they share through their service, `ServiceBlock`, `ServiceBuilder` and
// `Service` / `AsyncService`.

module Services {
  import opened Common
  import opened Messages

  // ---------------------------------------------------------------------------
  // Command handler classes and objects

  /**
   * Which strategy base class a handler class derives from: the process
   * strategies (`CommandHandlerProcessStrategy` and its async twin), the
   * post-process strategies, or neither.
   */
  datatype Role = ProcessRole | PostProcessRole | OtherRole

  /** What a user `process` returns: nothing (falsy), a message, or a pair `(msg, data)`; or it raises. */
  datatype Reply = ReturnsNothing | ReturnsMsg(m: MsgValue) | ReturnsPair(first: Option<MsgValue>, data: int) | Raises

  /**
   * A handler class: its role and variant (the `Async...` base classes),
   * its `target_command` (None when the class does not set it), whether
   * its constructor raises, and what its `process` / `post_process` do.
   */
  datatype HandlerClass = HandlerClass(
    role: Role, variant: Variant, command: Option<string>, initRaises: bool,
    processTag: int, reply: Reply, postTag: int, postRaises: bool)

  /** A command handler object; `set_service_instance` writes its `_service_instance`. */
  class Handler {
    const cls: HandlerClass
    var service: Service?   // `_service_instance`

    /** `c()` */
    constructor (c: HandlerClass)
      ensures cls == c && service == null
    {
      cls := c;
      service := null;
    }

    /** `set_service_instance(arg)`: only a `Service` is stored; anything else is ignored. */
    method SetServiceInstance(arg: ServiceArg)
      modifies this`service
      ensures service == (if arg.AService? then arg.s else old(service))
    {
      if arg.AService? {
        service := arg.s;
      }
    }

    /** `set_to_swap_scope(key, data)`: true when the value was stored. */
    method SetToSwapScope(key: string, data: int) returns (added: bool)
      modifies (if service == null then {} else {service})`swap
      ensures var r := SwapSet(old(ScopeOf(service)), key, data);
        added == r.done && ScopeOf(service) == r.scope
    {
      added := false;
      if service != null {
        service.swap := service.swap[key := data];
        added := true;
      }
    }

    /** `get_from_swap_scope(key)`: the stored value, or None. */
    method GetFromSwapScope(key: string) returns (data: Option<int>)
      ensures data == SwapGet(ScopeOf(service), key)
    {
      data := None;
      if service != null && key in service.swap {
        data := Some(service.swap[key]);
      }
    }

    /** `del_from_swap_scope(key)`: true when the key was there and is now removed. */
    method DelFromSwapScope(key: string) returns (dropped: bool)
      modifies (if service == null then {} else {service})`swap
      ensures var r := SwapDel(old(ScopeOf(service)), key);
        dropped == r.done && ScopeOf(service) == r.scope
    {
      dropped := false;
      if service != null && key in service.swap {
        service.swap := service.swap - {key};
        dropped := true;
      }
    }
  }

  /** The argument of `set_service_instance`: a service, or any other value. */
  datatype ServiceArg = AService(s: Service) | NotAService

  // ---------------------------------------------------------------------------
  // The swap scope: attributes set on the service object, as a map

  /** The swap scope a handler sees: None when it has no service instance. */
  function ScopeOf(s: Service?): Option<map<string, int>>
    reads s
  {
    if s == null then None else Some(s.swap)
  }

  /** The answer of a swap-scope write and the scope it leaves. */
  datatype SwapResult = SwapResult(done: bool, scope: Option<map<string, int>>)

  function SwapSet(s: Option<map<string, int>>, key: string, data: int): SwapResult
  {
    if s.None? then SwapResult(false, s) else SwapResult(true, Some(s.value[key := data]))
  }

  function SwapGet(s: Option<map<string, int>>, key: string): Option<int>
  {
    if s.Some? && key in s.value then Some(s.value[key]) else None
  }

  function SwapDel(s: Option<map<string, int>>, key: string): SwapResult
  {
    if s.Some? && key in s.value then SwapResult(true, Some(s.value - {key})) else SwapResult(false, s)
  }

  /** After `set_to_swap_scope(k, v)` succeeds, `get_from_swap_scope(k)` is `v` and other keys are untouched. */
  lemma GetAfterSet(s: Option<map<string, int>>, key: string, data: int, other: string)
    requires s.Some?
    ensures SwapSet(s, key, data).done
    ensures SwapGet(SwapSet(s, key, data).scope, key) == Some(data)
    ensures other != key ==> SwapGet(SwapSet(s, key, data).scope, other) == SwapGet(s, other)
  {
  }

  /** `del_from_swap_scope` reports true exactly when the key was there; afterwards it is gone. */
  lemma DelReportsPresence(s: Option<map<string, int>>, key: string)
    ensures SwapDel(s, key).done <==> SwapGet(s, key).Some?
    ensures SwapGet(SwapDel(s, key).scope, key).None?
  {
  }

  /** Without a service instance every operation reports failure and nothing is stored. */
  lemma NoInstanceFails(key: string, data: int)
    ensures !SwapSet(None, key, data).done && SwapSet(None, key, data).scope.None?
    ensures SwapGet(None, key).None?
    ensures !SwapDel(None, key).done
  {
  }

  /** Setting, then deleting, a key leaves the other keys as they were and the key absent. */
  lemma SetThenDelete(s: map<string, int>, key: string, data: int)
    ensures SwapDel(SwapSet(Some(s), key, data).scope, key) == SwapResult(true, Some(s - {key}))
  {
    assert s[key := data] - {key} == s - {key};
  }

  // ---------------------------------------------------------------------------
  // Checking a handler argument

  /**
   * A value given where a handler is expected: a class, an instance, None
   * or something else, with its truthiness (classes and handler instances
   * are always truthy).
   */
  datatype HandlerArg = ClassArg(c: HandlerClass) | InstanceArg(h: Handler) | NoneArg | OtherArg(truthy: bool)

  /** What a handler check keeps: the instance given, or a new instance of the class given. */
  datatype Choice = Given(h: Handler) | Made(c: HandlerClass)

  /**
   * The check the `ServiceBlock` setters and `check_is_post_processor`
   * make: a class deriving from the wanted strategies is instantiated, an
   * instance of them is kept, anything else raises ServiceBlockException.
   */
  function CheckHandler(role: Role, arg: HandlerArg): (r: Result<Choice>)
    ensures r.Err? ==> r.error == ServiceBlockException || (r.error == UserError && arg.ClassArg?)
  {
    match arg
    case ClassArg(c) =>
      if c.role != role then Err(ServiceBlockException)
      else if c.initRaises then Err(UserError)
      else Ok(Made(c))
    case InstanceArg(h) => if h.cls.role == role then Ok(Given(h)) else Err(ServiceBlockException)
    case NoneArg => Err(ServiceBlockException)
    case OtherArg(_) => Err(ServiceBlockException)
  }

  /** The role a checked choice has. */
  function RoleOf(c: Choice): Role
  {
    match c
    case Given(h) => h.cls.role
    case Made(c) => c.role
  }

  /** A handler the check accepts has the wanted role; one of the other roles is refused. */
  lemma CheckHandlerKeepsRole(role: Role, arg: HandlerArg)
    ensures CheckHandler(role, arg).Ok? ==> RoleOf(CheckHandler(role, arg).value) == role
    ensures (arg.ClassArg? && arg.c.role != role) || (arg.InstanceArg? && arg.h.cls.role != role) ==>
      CheckHandler(role, arg) == Err(ServiceBlockException)
    ensures arg.InstanceArg? && arg.h.cls.role == role ==> CheckHandler(role, arg) == Ok(Given(arg.h))
  {
  }

  /** Whether handler `h` is what `c` chose: the instance given, or a new instance of the class. */
  predicate Realises(h: Handler, c: Choice)
  {
    match c
    case Given(g) => h == g
    case Made(k) => h.cls == k
  }

  /** The handler a checked argument stands for: the instance given, or a new instance of the class. */
  method Realise(c: Choice) returns (h: Handler)
    ensures Realises(h, c)
    ensures c.Given? ==> h == c.h
    ensures c.Made? ==> fresh(h) && h.service == null
  {
    match c {
      case Given(g) =>
        h := g;
      case Made(k) =>
        h := new Handler(k);
    }
  }

  // ---------------------------------------------------------------------------
  // ServiceBlock

  /** A processor and an optional post-processor. */
  class ServiceBlock {
    var processor: Handler?       // `_processor`
    var postProcessor: Handler?   // `_post_processor`

    /** The handlers a service block holds have the roles its setters demand. */
    ghost predicate Valid()
      reads this
    {
      processor != null && processor.cls.role == ProcessRole &&
      (postProcessor != null ==> postProcessor.cls.role == PostProcessRole)
    }

    constructor Empty()
      ensures processor == null && postProcessor == null
    {
      processor, postProcessor := null, null;
    }

    /** The `processor` setter. */
    method SetProcessor(arg: HandlerArg) returns (o: Outcome)
      modifies this`processor
      ensures var r := CheckHandler(ProcessRole, arg);
        (o.Pass? <==> r.Ok?) && (r.Err? ==> o == Fail(r.error) && processor == old(processor)) &&
        (r.Ok? ==> processor != null && Realises(processor, r.value) && (r.value.Made? ==> fresh(processor)))
    {
      var r := CheckHandler(ProcessRole, arg);
      if r.Err? {
        return Fail(r.error);
      }
      processor := Realise(r.value);
      o := Pass;
    }

    /** The `post_processor` setter: None leaves the post-processor as it is. */
    method SetPostProcessor(arg: HandlerArg) returns (o: Outcome)
      modifies this`postProcessor
      ensures arg.NoneArg? ==> o == Pass && postProcessor == old(postProcessor)
      ensures !arg.NoneArg? ==> var r := CheckHandler(PostProcessRole, arg);
        (o.Pass? <==> r.Ok?) && (r.Err? ==> o == Fail(r.error) && postProcessor == old(postProcessor)) &&
        (r.Ok? ==> postProcessor != null && Realises(postProcessor, r.value) && (r.value.Made? ==> fresh(postProcessor)))
    {
      if arg.NoneArg? {
        return Pass;
      }
      var r := CheckHandler(PostProcessRole, arg);
      if r.Err? {
        return Fail(r.error);
      }
      postProcessor := Realise(r.value);
      o := Pass;
    }

    /** `ServiceBlock(processor, post_processor)`: the processor setter, then the post-processor setter. */
    static method New(p: HandlerArg, pp: HandlerArg) returns (r: Result<ServiceBlock>)
      ensures var rp := CheckHandler(ProcessRole, p); var rpp := CheckHandler(PostProcessRole, pp);
        (r.Ok? <==> rp.Ok? && (pp.NoneArg? || rpp.Ok?)) &&
        (r.Err? ==> r.error == if rp.Err? then rp.error else rpp.error) &&
        (r.Ok? ==> (fresh(r.value) && r.value.Valid() && Realises(r.value.processor, rp.value) &&
          (pp.NoneArg? ==> r.value.postProcessor == null) &&
          (!pp.NoneArg? ==> r.value.postProcessor != null && Realises(r.value.postProcessor, rpp.value))))
    {
      var b := new ServiceBlock.Empty();
      var o1 := b.SetProcessor(p);
      if o1.Fail? {
        return Err(o1.error);
      }
      var o2 := b.SetPostProcessor(pp);
      if o2.Fail? {
        return Err(o2.error);
      }
      CheckHandlerKeepsRole(ProcessRole, p);
      CheckHandlerKeepsRole(PostProcessRole, pp);
      return Ok(b);
    }
  }

  // ---------------------------------------------------------------------------
  // ServiceBuilder

  /** One positional argument of `ServiceBuilder(*args)`. */
  datatype BuilderItem = BlockItem(b: ServiceBlock) | HandlerItem(a: HandlerArg)

  /** The post-processor `ServiceBuilder` keeps as its default, if any. */
  datatype Default = NoDefault | DefaultOf(choice: Choice)

  /** The blocks of `ServiceBuilder(*args)`, in order, and its default post-processor. */
  datatype BuilderValue = BuilderValue(blocks: seq<ServiceBlock>, default: Default)

  /**
   * The `default_post_processor` setter on a fresh builder: a falsy argument
   * (None, or another falsy value such as `0` or `""`) leaves it unset; a
   * truthy one must pass `check_is_post_processor`.
   */
  function DefaultSpec(arg: HandlerArg): (r: Result<Default>)
    ensures r == Ok(NoDefault) <==> arg.NoneArg? || arg == OtherArg(false)
    ensures arg == OtherArg(true) ==> r == Err(ServiceBlockException)
    ensures r.Ok? && r.value.DefaultOf? ==> CheckHandler(PostProcessRole, arg) == Ok(r.value.choice)
  {
    if arg.NoneArg? || arg == OtherArg(false) then Ok(NoDefault)
    else
      var r := CheckHandler(PostProcessRole, arg);
      if r.Err? then Err(r.error) else Ok(DefaultOf(r.value))
  }

  /**
   * The loop over `*args` from `k` on, with the blocks so far and the
   * default so far: a block is appended; any other argument must pass
   * `check_is_post_processor` (its ServiceBlockException becomes
   * TypeError) and becomes the default, unless one is already set.
   */
  function ScanItems(items: seq<BuilderItem>, k: nat, blocks: seq<ServiceBlock>, d: Default): Result<BuilderValue>
    requires k <= |items|
    decreases |items| - k
  {
    if k == |items| then Ok(BuilderValue(blocks, d))
    else match items[k]
      case BlockItem(b) => ScanItems(items, k + 1, blocks + [b], d)
      case HandlerItem(a) =>
        var r := CheckHandler(PostProcessRole, a);
        if r.Err? then Err(if r.error == ServiceBlockException then TypeError else r.error)
        else if d.DefaultOf? then Err(DoublePostProcessFunctionDeclaredError)
        else ScanItems(items, k + 1, blocks, DefaultOf(r.value))
  }

  /** `ServiceBuilder(*items, default_post_process=defaultArg)` */
  function BuilderSpec(items: seq<BuilderItem>, defaultArg: HandlerArg): Result<BuilderValue>
  {
    var d := DefaultSpec(defaultArg);
    if d.Err? then Err(d.error)
    else
      var r := ScanItems(items, 0, [], d.value);
      if r.Err? then r
      else if r.value.blocks == [] then Err(EmptyCommandsException)
      else r
  }

  /** The blocks among `items` from `k` on, in order. */
  function BlocksFrom(items: seq<BuilderItem>, k: nat): seq<ServiceBlock>
    requires k <= |items|
    decreases |items| - k
  {
    if k == |items| then []
    else (if items[k].BlockItem? then [items[k].b] else []) + BlocksFrom(items, k + 1)
  }

  /** How many items from `k` on are not blocks. */
  function HandlersFrom(items: seq<BuilderItem>, k: nat): nat
    requires k <= |items|
    decreases |items| - k
  {
    if k == |items| then 0 else (if items[k].HandlerItem? then 1 else 0) + HandlersFrom(items, k + 1)
  }

  /** The position of the first item from `k` on that is not a block (`|items|` when there is none). */
  function FirstHandlerAt(items: seq<BuilderItem>, k: nat): (j: nat)
    requires k <= |items|
    decreases |items| - k
    ensures k <= j <= |items| && (j < |items| <==> HandlersFrom(items, k) > 0)
    ensures j < |items| ==> items[j].HandlerItem?
  {
    if k == |items| then k
    else if items[k].HandlerItem? then k
    else FirstHandlerAt(items, k + 1)
  }

  /** Items whose every non-block is a post-processor instance. */
  predicate PostInstances(items: seq<BuilderItem>)
  {
    forall k :: 0 <= k < |items| && items[k].HandlerItem? ==>
      items[k].a.InstanceArg? && items[k].a.h.cls.role == PostProcessRole
  }

  /**
   * When every non-block argument is a post-processor instance, the scan
   * keeps the blocks in order and takes the one such argument as the
   * default, or raises DoublePostProcessFunctionDeclaredError when there
   * is more than one, or one besides a default already set.
   */
  lemma {:induction false} ScanCollects(items: seq<BuilderItem>, k: nat, blocks: seq<ServiceBlock>, d: Default)
    requires k <= |items| && PostInstances(items)
    decreases |items| - k
    ensures var n := HandlersFrom(items, k);
      var r := ScanItems(items, k, blocks, d);
      (r.Ok? <==> n == 0 || (n == 1 && d.NoDefault?)) &&
      (r.Err? ==> r.error == DoublePostProcessFunctionDeclaredError) &&
      (r.Ok? ==> r.value.blocks == blocks + BlocksFrom(items, k)) &&
      (r.Ok? && n == 0 ==> r.value.default == d) &&
      (r.Ok? && n == 1 ==> r.value.default == DefaultOf(Given(items[FirstHandlerAt(items, k)].a.h)))
  {
    if k == |items| {
      assert ScanItems(items, k, blocks, d) == Ok(BuilderValue(blocks, d));
    } else if items[k].BlockItem? {
      ScanBlockStep(items, k, blocks, d);
      ScanCollects(items, k + 1, blocks + [items[k].b], d);
      assert blocks + [items[k].b] + BlocksFrom(items, k + 1) == blocks + BlocksFrom(items, k);
    } else {
      ScanHandlerStep(items, k, blocks, d);
      if d.NoDefault? {
        var d' := DefaultOf(Given(items[k].a.h));
        if HandlersFrom(items, k + 1) > 0 {
          ScanDoubleRaises(items, k + 1, blocks, d');
        } else {
          ScanCollects(items, k + 1, blocks, d');
        }
      }
    }
  }

  /** One block item of the scan: it is appended and the scan goes on. */
  lemma ScanBlockStep(items: seq<BuilderItem>, k: nat, blocks: seq<ServiceBlock>, d: Default)
    requires k < |items| && items[k].BlockItem?
    ensures ScanItems(items, k, blocks, d) == ScanItems(items, k + 1, blocks + [items[k].b], d)
    ensures HandlersFrom(items, k) == HandlersFrom(items, k + 1)
    ensures FirstHandlerAt(items, k) == FirstHandlerAt(items, k + 1)
    ensures BlocksFrom(items, k) == [items[k].b] + BlocksFrom(items, k + 1)
  {
  }

  /** One post-processor instance of the scan: it becomes the default, or raises when one is set. */
  lemma ScanHandlerStep(items: seq<BuilderItem>, k: nat, blocks: seq<ServiceBlock>, d: Default)
    requires k < |items| && PostInstances(items) && items[k].HandlerItem?
    ensures items[k].a.InstanceArg?
    ensures ScanItems(items, k, blocks, d) ==
      if d.DefaultOf? then Err(DoublePostProcessFunctionDeclaredError)
      else ScanItems(items, k + 1, blocks, DefaultOf(Given(items[k].a.h)))
    ensures HandlersFrom(items, k) == 1 + HandlersFrom(items, k + 1)
    ensures FirstHandlerAt(items, k) == k
    ensures BlocksFrom(items, k) == BlocksFrom(items, k + 1)
  {
    assert items[k].a.InstanceArg? && items[k].a.h.cls.role == PostProcessRole;
  }

  /** Once a default is set, a further post-processor argument raises DoublePostProcessFunctionDeclaredError. */
  lemma {:induction false} ScanDoubleRaises(items: seq<BuilderItem>, k: nat, blocks: seq<ServiceBlock>, d: Default)
    requires k <= |items| && PostInstances(items) && d.DefaultOf? && HandlersFrom(items, k) > 0
    decreases |items| - k
    ensures ScanItems(items, k, blocks, d) == Err(DoublePostProcessFunctionDeclaredError)
  {
    if items[k].BlockItem? {
      ScanDoubleRaises(items, k + 1, blocks + [items[k].b], d);
    }
  }

  /** An argument that is neither a block nor a post-processor raises TypeError. */
  lemma {:induction false} ScanRejectsOthers(items: seq<BuilderItem>, k: nat, blocks: seq<ServiceBlock>, d: Default, j: nat)
    requires k <= j < |items| && items[j].HandlerItem? && CheckHandler(PostProcessRole, items[j].a) == Err(ServiceBlockException)
    requires forall i :: k <= i < j ==> items[i].BlockItem?
    decreases j - k
    ensures ScanItems(items, k, blocks, d) == Err(TypeError)
  {
    if k < j {
      ScanRejectsOthers(items, k + 1, blocks + [items[k].b], d, j);
    }
  }

  /** With no block among the arguments, the builder raises EmptyCommandsException (unless an argument raised first). */
  lemma NoBlocksRaises(items: seq<BuilderItem>, defaultArg: HandlerArg)
    requires forall k :: 0 <= k < |items| ==> items[k].HandlerItem?
    requires DefaultSpec(defaultArg).Ok? && ScanItems(items, 0, [], DefaultSpec(defaultArg).value).Ok?
    ensures BuilderSpec(items, defaultArg) == Err(EmptyCommandsException)
  {
    NoBlocksScanned(items, 0, [], DefaultSpec(defaultArg).value);
  }

  lemma {:induction false} NoBlocksScanned(items: seq<BuilderItem>, k: nat, blocks: seq<ServiceBlock>, d: Default)
    requires k <= |items| && forall i :: 0 <= i < |items| ==> items[i].HandlerItem?
    requires ScanItems(items, k, blocks, d).Ok?
    decreases |items| - k
    ensures ScanItems(items, k, blocks, d).value.blocks == blocks
  {
    if k < |items| {
      var r := CheckHandler(PostProcessRole, items[k].a);
      NoBlocksScanned(items, k + 1, blocks, DefaultOf(r.value));
    }
  }

  /** A builder: its blocks (`_list_blocks`) and default post-processor. */
  class ServiceBuilder {
    var blocks: seq<ServiceBlock>        // `_list_blocks`
    var defaultPost: Handler?            // `_default_post_processor`

    constructor Empty()
      ensures blocks == [] && defaultPost == null
    {
      blocks, defaultPost := [], null;
    }

    /** `ServiceBuilder(*items, default_post_process=defaultArg)` */
    static method New(items: seq<BuilderItem>, defaultArg: HandlerArg) returns (r: Result<ServiceBuilder>)
      ensures var spec := BuilderSpec(items, defaultArg);
        (r.Ok? <==> spec.Ok?) && (r.Err? ==> r.error == spec.error) &&
        (r.Ok? ==> (fresh(r.value) && r.value.blocks == spec.value.blocks &&
          (spec.value.default.NoDefault? <==> r.value.defaultPost == null) &&
          (spec.value.default.DefaultOf? ==> Realises(r.value.defaultPost, spec.value.default.choice))))
    {
      var sb := new ServiceBuilder.Empty();
      var d := DefaultSpec(defaultArg);
      if d.Err? {
        return Err(d.error);
      }
      if d.value.DefaultOf? {
        sb.defaultPost := Realise(d.value.choice);
      }
      var blocks: seq<ServiceBlock> := [];
      ghost var dv := d.value;
      var k := 0;
      while k < |items|
        invariant 0 <= k <= |items| && fresh(sb)
        invariant ScanItems(items, 0, [], d.value) == ScanItems(items, k, blocks, dv)
        invariant (sb.defaultPost == null <==> dv.NoDefault?) && (dv.DefaultOf? ==> Realises(sb.defaultPost, dv.choice))
        decreases |items| - k
      {
        match items[k] {
          case BlockItem(b) =>
            blocks := blocks + [b];
          case HandlerItem(a) =>
            var c := CheckHandler(PostProcessRole, a);
            if c.Err? {
              return Err(if c.error == ServiceBlockException then TypeError else c.error);
            }
            var h := Realise(c.value);
            if sb.defaultPost != null {
              return Err(DoublePostProcessFunctionDeclaredError);
            }
            sb.defaultPost := h;
            dv := DefaultOf(c.value);
        }
        k := k + 1;
      }
      if blocks == [] {
        return Err(EmptyCommandsException);
      }
      sb.blocks := blocks;
      return Ok(sb);
    }

    /** The handlers `build` hands the service to: the default post-processor and those of the blocks. */
    ghost function Handlers(): set<Handler>
      reads this, blocks
    {
      Touched(Pairs(blocks)) + (if defaultPost != null then {defaultPost} else {})
    }

    /**
     * `build(service)`: hand `s` to the default post-processor, then, block
     * by block, to its processor and post-processor, and key a command by
     * the processor's `target_command`.
     */
    method Build(s: Service) returns (r: Result<Dict<ServiceCommand>>)
      modifies Handlers()
      ensures r == BuildSpec(old(Pairs(blocks)), defaultPost)
      ensures r.Ok? ==> r.value.Valid() && forall key :: key in r.value.entries ==> Wired(r.value.entries[key], s)
    {
      // `set_service_instance` touches no block, so the slots can be read up front.
      var slots := Pairs(blocks);
      var dflt := defaultPost;
      ghost var spec := BuildSpec(slots, dflt);
      if dflt != null {
        dflt.SetServiceInstance(AService(s));
      }
      var d := EmptyDict();
      var k := 0;
      while k < |slots|
        invariant 0 <= k <= |slots| && d.Valid()
        invariant spec == BuildFrom(slots, k, d, dflt)
        invariant dflt != null ==> dflt.service == s
        invariant forall key :: key in d.entries ==> Wired(d.entries[key], s)
        decreases |slots| - k
      {
        if slots[k].p == null {
          return Err(AttributeError);
        }
        TouchedHolds(slots, k);
        WireSlot(slots[k], s);
        var next := AddCommand(slots[k], d, dflt);
        if next.Err? {
          return Err(next.error);
        }
        d := next.value;
        k := k + 1;
      }
      return Ok(d);
    }
  }

  /** `set_service_instance(s)` on the processor and the post-processor of a slot. */
  method WireSlot(sl: Slot, s: Service)
    modifies SlotHandlers(sl)
    ensures forall h :: h in SlotHandlers(sl) ==> h.service == s
  {
    if sl.p != null {
      sl.p.SetServiceInstance(AService(s));
    }
    if sl.pp != null {
      sl.pp.SetServiceInstance(AService(s));
    }
  }

  lemma TouchedHolds(slots: seq<Slot>, k: nat)
    requires k < |slots|
    ensures SlotHandlers(slots[k]) <= Touched(slots)
  {
  }

  // ---------------------------------------------------------------------------
  // Building the command table

  /** A registered command: its processor and its post-processor (null when there is none). */
  datatype ServiceCommand = ServiceCommand(processor: Handler, post: Handler?)

  /** The processor and post-processor a block holds when `build` reads them. */
  datatype Slot = Slot(p: Handler?, pp: Handler?)

  function Pairs(blocks: seq<ServiceBlock>): (r: seq<Slot>)
    reads blocks
    ensures |r| == |blocks|
  {
    seq(|blocks|, k requires 0 <= k < |blocks| reads blocks => Slot(blocks[k].processor, blocks[k].postProcessor))
  }

  function SlotHandlers(s: Slot): set<Handler>
  {
    (if s.p != null then {s.p} else {}) + (if s.pp != null then {s.pp} else {})
  }

  function Touched(slots: seq<Slot>): set<Handler>
  {
    set k, h | 0 <= k < |slots| && h in SlotHandlers(slots[k]) :: h
  }

  /** A command whose handlers both hold the service `s`. */
  predicate Wired(c: ServiceCommand, s: Service)
    reads c.processor, c.post
  {
    c.processor.service == s && (c.post != null ==> c.post.service == s)
  }

  /**
   * The loop of `build` from block `k` on, with the commands so far: a
   * missing processor fails on its first attribute access, a processor
   * class without `target_command` raises NotImplementedError, a repeated
   * command raises NotUniqueCommandError, and a block without a
   * post-processor gets the default; with no default either, the
   * `ServiceCommand` model refuses the missing post-processor
   * (ValidationError).
   */
  function BuildFrom(slots: seq<Slot>, k: nat, d: Dict<ServiceCommand>, default: Handler?): Result<Dict<ServiceCommand>>
    requires k <= |slots| && d.Valid()
    decreases |slots| - k
  {
    if k == |slots| then Ok(d)
    else
      var next := AddCommand(slots[k], d, default);
      if next.Err? then Err(next.error) else BuildFrom(slots, k + 1, next.value, default)
  }

  /** One block of that loop: the table with the block's command added, or the error it raises. */
  function AddCommand(s: Slot, d: Dict<ServiceCommand>, default: Handler?): Result<Dict<ServiceCommand>>
    requires d.Valid()
  {
    if s.p == null then Err(AttributeError)
    else if s.p.cls.command.None? then Err(NotImplementedError)
    else
      var key := s.p.cls.command.value;
      if key in d.entries then Err(NotUniqueCommandError(key))
      else if s.pp == null && default == null then Err(ValidationError)
      else Ok(d.Put(key, ServiceCommand(s.p, if s.pp != null then s.pp else default)))
  }

  function BuildSpec(slots: seq<Slot>, default: Handler?): Result<Dict<ServiceCommand>>
  {
    BuildFrom(slots, 0, EmptyDict(), default)
  }

  /** The slots whose processors are set and name their commands. */
  predicate Named(slots: seq<Slot>)
  {
    forall k :: 0 <= k < |slots| ==> slots[k].p != null && slots[k].p.cls.command.Some?
  }

  /** The commands of the processors of `slots`, in order, when all are set. */
  function Commands(slots: seq<Slot>): (cs: seq<string>)
    requires Named(slots)
    ensures |cs| == |slots|
  {
    seq(|slots|, k requires 0 <= k < |slots| => slots[k].p.cls.command.value)
  }

  /** No string occurs twice. */
  predicate Distinct(cs: seq<string>)
  {
    forall i, j :: 0 <= i < j < |cs| ==> cs[i] != cs[j]
  }

  /** Whether slot `s` gets a post-processor: its own or the default. */
  predicate PostedAt(s: Slot, default: Handler?)
  {
    s.pp != null || default != null
  }

  /** The command registered for slot `s`: its processor, and its own post-processor or else the default. */
  function CommandFor(s: Slot, default: Handler?): ServiceCommand
    requires s.p != null
  {
    ServiceCommand(s.p, if s.pp != null then s.pp else default)
  }

  /**
   * `d` registers the commands of the first `n` slots, in order, each with
   * its block's processor and its own post-processor or the default.
   */
  ghost predicate Registered(d: Dict<ServiceCommand>, slots: seq<Slot>, n: nat, default: Handler?)
    requires Named(slots) && n <= |slots|
  {
    var cs := Commands(slots);
    d.Valid() && d.keys == cs[..n] &&
    forall i :: 0 <= i < n ==> cs[i] in d.entries && d.entries[cs[i]] == CommandFor(slots[i], default)
  }

  /**
   * `build` from slot `k` on, with the commands of the first `k` slots as
   * its keys so far, succeeds exactly when no command repeats and every
   * slot gets a post-processor.
   */
  lemma {:induction false} BuildFromOk(slots: seq<Slot>, k: nat, d: Dict<ServiceCommand>, default: Handler?, cs: seq<string>)
    requires Named(slots) && cs == Commands(slots) && k <= |slots| && d.Valid() && d.keys == cs[..k]
    requires forall i :: 0 <= i < k ==> PostedAt(slots[i], default)
    decreases |slots| - k
    ensures BuildFrom(slots, k, d, default).Ok? <==> Distinct(cs) && forall i :: 0 <= i < |slots| ==> PostedAt(slots[i], default)
  {
    if k == |slots| {
      assert cs[..k] == cs;
    } else {
      var key := cs[k];
      assert slots[k].p.cls.command.value == key;
      if key in d.entries {
        var i :| 0 <= i < |d.keys| && d.keys[i] == key;
        assert cs[i] == cs[k];
      } else {
        if PostedAt(slots[k], default) {
          var d' := d.Put(key, CommandFor(slots[k], default));
          assert cs[..k + 1] == cs[..k] + [key];
          BuildFromOk(slots, k + 1, d', default, cs);
        }
      }
    }
  }

  /** Registering slot `k`'s command, when it is new, keeps the table registered up to `k + 1`. */
  lemma RegisterNext(slots: seq<Slot>, k: nat, d: Dict<ServiceCommand>, default: Handler?)
    requires Named(slots) && k < |slots| && Registered(d, slots, k, default) && Commands(slots)[k] !in d.entries
    ensures Registered(d.Put(Commands(slots)[k], CommandFor(slots[k], default)), slots, k + 1, default)
  {
    var cs := Commands(slots);
    assert cs[..k + 1] == cs[..k] + [cs[k]];
  }

  /** When `build` from slot `k` on succeeds, every slot is registered. */
  lemma {:induction false} BuildFromRegisters(slots: seq<Slot>, k: nat, d: Dict<ServiceCommand>, default: Handler?)
    requires Named(slots) && k <= |slots| && Registered(d, slots, k, default)
    requires BuildFrom(slots, k, d, default).Ok?
    decreases |slots| - k
    ensures Registered(BuildFrom(slots, k, d, default).value, slots, |slots|, default)
  {
    if k < |slots| {
      assert slots[k].p != null && slots[k].p.cls.command.Some?;
      RegisterNext(slots, k, d, default);
      BuildFromRegisters(slots, k + 1, d.Put(Commands(slots)[k], CommandFor(slots[k], default)), default);
    }
  }

  /**
   * `build` succeeds exactly when no two processors name the same command
   * and every block has a post-processor or there is a default; the table
   * then lists the commands in block order, each with its block's
   * processor and its own post-processor or the default.
   */
  lemma BuildTable(slots: seq<Slot>, default: Handler?)
    requires Named(slots)
    ensures BuildSpec(slots, default).Ok? <==>
      Distinct(Commands(slots)) && forall i :: 0 <= i < |slots| ==> PostedAt(slots[i], default)
    ensures var r := BuildSpec(slots, default);
      r.Ok? ==> (r.value.Valid() && r.value.keys == Commands(slots) &&
        forall i :: 0 <= i < |slots| ==> (Commands(slots)[i] in r.value.entries &&
          r.value.entries[Commands(slots)[i]] == CommandFor(slots[i], default)))
  {
    assert Commands(slots)[..0] == [];
    BuildFromOk(slots, 0, EmptyDict(), default, Commands(slots));
    if BuildSpec(slots, default).Ok? {
      BuildFromRegisters(slots, 0, EmptyDict(), default);
      assert Commands(slots)[..|slots|] == Commands(slots);
    }
  }

  // ---------------------------------------------------------------------------
  // Service and AsyncService

  /**
   * What a service is given, or has as a class attribute, as its commands: a
   * builder, nothing, or something else. For the `service_commands`
   * argument, `NoCommands` is any falsy value, None included, since
   * `if not service_commands:` falls back on the class; for the class
   * attribute it is a class that does not set one.
   */
  datatype CommandsArg = NoCommands | BuilderArg(b: ServiceBuilder) | OtherCommands

  /**
   * The builder `__init__` builds: the one passed, else the class
   * attribute `service_commands` (or, when the class does not set it, the
   * `service_commands` property, which raises NotImplementedError). The
   * one passed must be a `ServiceBuilder` (ServiceBuilderException), but a
   * class attribute shadows the property, so it is the class attribute that
   * gets built, and one that is no builder has no `build`.
   */
  function ChosenBuilder(passed: CommandsArg, classAttr: CommandsArg): (r: Result<ServiceBuilder>)
    ensures r.Ok? <==> (passed.BuilderArg? || (passed.NoCommands? && classAttr.BuilderArg?)) && !classAttr.OtherCommands?
    ensures r.Ok? ==> r.value == if classAttr.BuilderArg? then classAttr.b else passed.b
    ensures r == Err(NotImplementedError) <==> passed.NoCommands? && classAttr.NoCommands?
    ensures r == Err(AttributeError) <==> passed.BuilderArg? && classAttr.OtherCommands?
  {
    var given := if passed.NoCommands? then classAttr else passed;
    if given.NoCommands? then Err(NotImplementedError)
    else if !given.BuilderArg? then Err(ServiceBuilderException)
    else if classAttr.NoCommands? then Ok(given.b)
    else if classAttr.BuilderArg? then Ok(classAttr.b)
    else Err(AttributeError)
  }

  /** A processor and post-processor of the variant a service requires (`_validate_data`). */
  predicate CommandFits(c: ServiceCommand, variant: Variant)
  {
    c.processor.cls.role == ProcessRole && c.processor.cls.variant == variant &&
    c.post != null && c.post.cls.role == PostProcessRole && c.post.cls.variant == variant
  }

  /**
   * The end of `__init__` once the commands are built: a default command
   * ("" for None) must be registered, then every command must fit the
   * service's variant; the result is the default command kept.
   */
  function Configure(d: Dict<ServiceCommand>, defaultCommand: string, variant: Variant): Result<Option<string>>
  {
    if defaultCommand != "" && defaultCommand !in d.entries then Err(IncorrectDefaultCommand)
    else if exists key :: key in d.entries && !CommandFits(d.entries[key], variant) then Err(TypeError)
    else Ok(if defaultCommand != "" then Some(defaultCommand) else None)
  }

  /** A handled message: whether the message is returned (`Ok(true)`), `None` is (`Ok(false)`), or an exception is re-raised. */
  datatype ServiceRun = ServiceRun(result: Result<bool>, events: seq<Event>)

  /** The message a reply carries and whether the reply is truthy. */
  function Unpacked(reply: Reply): Option<MsgValue>
  {
    match reply
    case ReturnsMsg(m) => Some(m)
    case ReturnsPair(first, _) => first
    case _ => None
  }

  /**
   * The `additional_data` of a truthy reply: the second item of a pair, and
   * None for a bare message. This is the reading the `except TypeError`
   * fallback of service.py:612-615 and the docstring of `process` intend;
   * the code as written unpacks a message by iterating it, and
   * `HandleSpecAsWritten` keeps that.
   */
  function AdditionalData(reply: Reply): Option<int>
  {
    if reply.ReturnsPair? then Some(reply.data) else None
  }

  /**
   * `handle(message, is_force_return)` once the command is looked up: no
   * command returns the message; otherwise `process` runs, a truthy reply
   * is split into a message and data, and `post_process` runs when there is
   * a post-processor and a message; an exception from either returns the
   * message, or is re-raised when exceptions are not caught; on success the
   * message is returned only when forced.
   */
  function HandleSpec(cmd: Option<ServiceCommand>, catch: bool, force: bool, m: MsgValue): ServiceRun
  {
    if cmd.None? then ServiceRun(Ok(true), [])
    else
      var p := cmd.value.processor.cls;
      var calls := [Call(p.processTag, m)];
      var failed := if catch then Ok(true) else Err(UserError);
      if p.reply.Raises? then ServiceRun(failed, calls)
      else
        var resp := Unpacked(p.reply);
        if cmd.value.post != null && resp.Some? then
          var post := cmd.value.post.cls;
          ServiceRun(if post.postRaises then failed else Ok(force), calls + [PostCall(post.postTag, resp.value, AdditionalData(p.reply))])
        else ServiceRun(Ok(force), calls)
  }

  /** A message no command takes is returned untouched, with no call into user code. */
  lemma UnknownCommandReturnsMessage(catch: bool, force: bool, m: MsgValue)
    ensures HandleSpec(None, catch, force, m) == ServiceRun(Ok(true), [])
  {
  }

  /**
   * An exception from `process` or `post_process` returns the message when
   * exceptions are caught and is re-raised otherwise; without one, the
   * message is returned only when forced.
   */
  lemma HandleResult(cmd: ServiceCommand, catch: bool, force: bool, m: MsgValue)
    ensures var run := HandleSpec(Some(cmd), catch, force, m);
      var raised := cmd.processor.cls.reply.Raises? ||
        (cmd.post != null && Unpacked(cmd.processor.cls.reply).Some? && cmd.post.cls.postRaises);
      run.result == (if !raised then Ok(force) else if catch then Ok(true) else Err(UserError))
  {
  }

  /**
   * `process` is called first, with the message; `post_process` is called
   * next exactly when `process` returned a truthy reply carrying a message
   * and there is a post-processor, and it gets that message with the
   * pair's second item, or with None for a bare message.
   */
  lemma PostProcessCalledIff(cmd: ServiceCommand, catch: bool, force: bool, m: MsgValue)
    ensures var run := HandleSpec(Some(cmd), catch, force, m);
      var resp := Unpacked(cmd.processor.cls.reply);
      |run.events| >= 1 && run.events[0] == Call(cmd.processor.cls.processTag, m) &&
      (|run.events| == 2 <==> !cmd.processor.cls.reply.Raises? && resp.Some? && cmd.post != null) &&
      (|run.events| == 2 ==>
        var data := if cmd.processor.cls.reply.ReturnsPair? then Some(cmd.processor.cls.reply.data) else None;
        run.events[1] == PostCall(cmd.post.cls.postTag, resp.value, data)) &&
      |run.events| <= 2
  {
  }

  /**
   * `handle` as the code is written. A message is a pydantic model, and
   * iterating one yields its `(name, value)` field pairs, so
   * `resp_msg, additional_data = resp_process` does not raise TypeError on a
   * bare message reply of `fields` fields: with two fields it unpacks into
   * the two pairs, which a post-processor then receives; with any other
   * count it raises ValueError, which the outer `except Exception` takes, so
   * `post_process` is not called. Other replies run as in `HandleSpec`.
   */
  function HandleSpecAsWritten(cmd: Option<ServiceCommand>, catch: bool, force: bool, m: MsgValue, fields: nat): ServiceRun
  {
    if cmd.Some? && cmd.value.processor.cls.reply.ReturnsMsg? then
      var p := cmd.value.processor.cls;
      var calls := [Call(p.processTag, m)];
      var failed := if catch then Ok(true) else Err(UserError);
      if fields != 2 then ServiceRun(failed, calls)
      else if cmd.value.post != null then
        var post := cmd.value.post.cls;
        ServiceRun(if post.postRaises then failed else Ok(force), calls + [PostCallFields(post.postTag, p.reply.m)])
      else ServiceRun(Ok(force), calls)
    else HandleSpec(cmd, catch, force, m)
  }

  /**
   * Where the code as written and `HandleSpec` part: a bare message reply
   * with a post-processor. `HandleSpec` passes the message, with None as its
   * data, to `post_process`. As written, a two-field message hands over its
   * field pairs instead, and any other message raises before `post_process`
   * is reached, so the message is returned, or the ValueError re-raised when
   * exceptions are not caught, even when nothing in user code raised. All
   * other replies run alike.
   */
  lemma MessageReplyMisunpacked(cmd: ServiceCommand, catch: bool, force: bool, m: MsgValue, fields: nat)
    ensures var reply := cmd.processor.cls.reply;
      !reply.ReturnsMsg? ==> HandleSpecAsWritten(Some(cmd), catch, force, m, fields) == HandleSpec(Some(cmd), catch, force, m)
    ensures var reply := cmd.processor.cls.reply;
      var run := HandleSpec(Some(cmd), catch, force, m);
      var asWritten := HandleSpecAsWritten(Some(cmd), catch, force, m, fields);
      reply.ReturnsMsg? && cmd.post != null ==>
        run.events == [Call(cmd.processor.cls.processTag, m), PostCall(cmd.post.cls.postTag, reply.m, None)] &&
        asWritten.events != run.events &&
        (fields == 2 ==> asWritten.events == [Call(cmd.processor.cls.processTag, m), PostCallFields(cmd.post.cls.postTag, reply.m)]) &&
        (fields != 2 ==> asWritten == ServiceRun(if catch then Ok(true) else Err(UserError), [Call(cmd.processor.cls.processTag, m)])) &&
        (fields != 2 && !cmd.post.cls.postRaises && !catch ==> run.result == Ok(force) && asWritten.result == Err(UserError))
  {
    var run := HandleSpec(Some(cmd), catch, force, m);
    var asWritten := HandleSpecAsWritten(Some(cmd), catch, force, m, fields);
    if cmd.processor.cls.reply.ReturnsMsg? && cmd.post != null {
      if fields == 2 {
        assert asWritten.events[1].PostCallFields? && run.events[1].PostCall?;
      } else {
        assert |asWritten.events| == 1 < |run.events|;
      }
    }
  }

  /** A service: its command table, default command and the attributes its handlers share as the swap scope. */
  class Service {
    const variant: Variant                  // `Service` or `AsyncService`
    const catchExceptions: bool             // `_is_catch_exceptions`
    var commands: Dict<ServiceCommand>      // `_dict_handlers`
    var defaultCommand: Option<string>      // `_default_command`
    var builder: ServiceBuilder?            // `_service_commands`
    var swap: map<string, int>              // attributes set through the swap scope

    /** What a constructed service keeps: a valid table whose default command is registered. */
    ghost predicate Valid()
      reads this
    {
      commands.Valid() && (defaultCommand.Some? ==> defaultCommand.value in commands.entries) &&
      forall key :: key in commands.entries ==> CommandFits(commands.entries[key], variant)
    }

    constructor Init(variant: Variant, catchExceptions: bool)
      ensures this.variant == variant && this.catchExceptions == catchExceptions
      ensures commands == EmptyDict() && defaultCommand == None && builder == null && swap == map[]
    {
      this.variant, this.catchExceptions := variant, catchExceptions;
      commands, defaultCommand, builder, swap := EmptyDict(), None, null, map[];
    }

    /**
     * `Service(service_commands, default_command, is_catch_exceptions)` for
     * a service class whose `service_commands` class attribute is
     * `classAttr`: choose the builder, build it, check the default command,
     * then check every command's variant.
     */
    static method New(variant: Variant, passed: CommandsArg, classAttr: CommandsArg, defaultCommand: string,
                      catchExceptions: bool) returns (r: Result<Service>)
      modifies if ChosenBuilder(passed, classAttr).Ok? then ChosenBuilder(passed, classAttr).value.Handlers() else {}
      ensures var chosen := ChosenBuilder(passed, classAttr);
        var built := if chosen.Ok? then BuildSpec(Pairs(chosen.value.blocks), chosen.value.defaultPost) else Err(chosen.error);
        var spec := if built.Err? then Err(built.error) else Configure(built.value, defaultCommand, variant);
        (r.Ok? <==> spec.Ok?) && (r.Err? ==> r.error == spec.error) &&
        (r.Ok? ==> (fresh(r.value) && r.value.Valid() && r.value.variant == variant &&
          r.value.catchExceptions == catchExceptions &&
          r.value.commands == built.value && r.value.defaultCommand == spec.value))
      ensures r.Ok? ==> forall key :: key in r.value.commands.entries ==> Wired(r.value.commands.entries[key], r.value)
    {
      var s := new Service.Init(variant, catchExceptions);
      var chosen := ChosenBuilder(passed, classAttr);
      if chosen.Err? {
        return Err(chosen.error);
      }
      var o := s.Assemble(chosen.value, defaultCommand);
      if o.Fail? {
        return Err(o.error);
      }
      return Ok(s);
    }

    /**
     * The rest of `__init__` once the builder `sb` is chosen: keep it, build
     * the table, which hands this service to every handler, then `Setup`.
     */
    method Assemble(sb: ServiceBuilder, command: string) returns (o: Outcome)
      requires defaultCommand.None?
      modifies this`builder, this`commands, this`defaultCommand, sb.Handlers()
      ensures builder == sb
      ensures var built := BuildSpec(old(Pairs(sb.blocks)), sb.defaultPost);
        var spec := if built.Err? then Err(built.error) else Configure(built.value, command, variant);
        (o.Pass? <==> spec.Ok?) && (o.Fail? ==> o.error == spec.error) &&
        (o.Pass? ==> Valid() && commands == built.value && defaultCommand == spec.value) &&
        (o.Pass? ==> forall key :: key in commands.entries ==> Wired(commands.entries[key], this))
    {
      builder := sb;
      var built := sb.Build(this);
      if built.Err? {
        return Fail(built.error);
      }
      o := Setup(built.value, command);
    }

    /**
     * The end of `__init__` once the commands are built: keep the table,
     * check and keep the default command, then check every command's variant.
     */
    method Setup(d: Dict<ServiceCommand>, command: string) returns (o: Outcome)
      requires d.Valid() && defaultCommand.None?
      modifies this`commands, this`defaultCommand
      ensures var spec := Configure(d, command, variant);
        (o.Pass? <==> spec.Ok?) && (o.Fail? ==> o.error == spec.error) &&
        (o.Pass? ==> (Valid() && commands == d && defaultCommand == spec.value))
    {
      commands := d;
      if command != "" {
        if command !in commands.entries {
          return Fail(IncorrectDefaultCommand);
        }
        defaultCommand := Some(command);
      }
      var checked := ValidateCommands(commands, variant);
      if checked.Fail? {
        return Fail(TypeError);
      }
      o := Pass;
    }

    /** `_get_service_command(message)`: the command named by the message, else the default command, else none. */
    function Lookup(command: string): (r: Option<ServiceCommand>)
      requires Valid()
      reads this
      ensures r.Some? ==> exists key :: key in commands.entries && commands.entries[key] == r.value
      ensures r.None? ==> defaultCommand.None?
    {
      if command != "" && command in commands.entries then Some(commands.entries[command])
      else if defaultCommand.Some? then Some(commands.entries[defaultCommand.value])
      else None
    }

    /** `handle(message, is_force_return)` (awaited for `AsyncService`). */
    method Handle(msg: Message, force: bool, trace: seq<Event>) returns (r: Result<bool>, trace': seq<Event>)
      requires Valid()
      ensures var run := HandleSpec(Lookup(msg.command), catchExceptions, force, msg.View());
        r == run.result && trace' == trace + run.events
    {
      var isReturnMessage := force;
      var command := Lookup(msg.command);
      trace' := trace;
      if command.Some? {
        var p := command.value.processor.cls;
        trace' := trace' + [Call(p.processTag, msg.View())];
        var raised := false;
        if p.reply.Raises? {
          raised := true;
        } else {
          var resp := Unpacked(p.reply);
          if command.value.post != null && resp.Some? {
            trace' := trace' + [PostCall(command.value.post.cls.postTag, resp.value, AdditionalData(p.reply))];
            raised := command.value.post.cls.postRaises;
          }
        }
        if raised {
          isReturnMessage := true;
          if !catchExceptions {
            return Err(UserError), trace';
          }
        }
      } else {
        isReturnMessage := true;
      }
      return Ok(isReturnMessage), trace';
    }
  }

  /** The exact command wins, then the default command; with neither there is no command. */
  lemma LookupOrder(s: Service, command: string)
    requires s.Valid()
    ensures command != "" && command in s.commands.entries ==> s.Lookup(command) == Some(s.commands.entries[command])
    ensures (command == "" || command !in s.commands.entries) && s.defaultCommand.Some? ==>
      s.Lookup(command) == Some(s.commands.entries[s.defaultCommand.value])
    ensures s.Lookup(command).None? <==> (command == "" || command !in s.commands.entries) && s.defaultCommand.None?
  {
  }

  /** `_validate_data`: TypeError at the first command whose processor or post-processor does not fit the variant. */
  method ValidateCommands(d: Dict<ServiceCommand>, variant: Variant) returns (o: Outcome)
    requires d.Valid()
    ensures o.Pass? <==> forall key :: key in d.entries ==> CommandFits(d.entries[key], variant)
    ensures o.Fail? ==> o.error == TypeError
  {
    var k := 0;
    while k < |d.keys|
      invariant 0 <= k <= |d.keys|
      invariant forall i :: 0 <= i < k ==> CommandFits(d.entries[d.keys[i]], variant)
      decreases |d.keys| - k
    {
      if !CommandFits(d.entries[d.keys[k]], variant) {
        return Fail(TypeError);
      }
      k := k + 1;
    }
    forall key | key in d.entries
      ensures CommandFits(d.entries[key], variant)
    {
      var i :| 0 <= i < |d.keys| && d.keys[i] == key;
    }
    return Pass;
  }
}
