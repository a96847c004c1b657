// Chain-of-responsibility blocks: the new `SyncBlock` (block/sync_block.py),
// `AsyncBlock` (block/async_block.py) and the older `SyncBlock`
// (block/syncblock.py). A block holds two optional hooks and a pointer to the
// next block; `handle` uses the message's `source` field as a resume cursor.

module Blocks {
  import opened Common
  import opened Messages

  /** The three block classes user blocks derive from. */
  datatype BlockKind = SyncBlock | AsyncBlock | LegacySyncBlock

  /** The abstract base (`SyncBaseBlock` or `AsyncBaseBlock`) of a block kind. */
  function BaseOf(k: BlockKind): Variant
  {
    if k == AsyncBlock then Async else Sync
  }

  /**
   * What a user hook does with the message it is given. `NotCallable` is a
   * coroutine object stored as a hook: calling it raises TypeError before
   * any user code runs.
   */
  datatype HookEffect = ReturnsMessage | ReturnsNothing | RaisesError | NotCallable

  /** A user hook, named by a tag so that the trace records which one ran. */
  datatype Hook = Hook(tag: int, effect: HookEffect)

  /** Whether calling the hook raises, and what. */
  predicate HookRaises(h: Hook)
  {
    h.effect == RaisesError || h.effect == NotCallable
  }

  function HookError(h: Hook): Error
  {
    if h.effect == NotCallable then TypeError else UserError
  }

  /** What a block's `process` does. */
  datatype ProcessResult = ProcessReturnsNothing | ProcessReturnsMessage(out: MsgValue) | ProcessRaises
  datatype Process = Process(tag: int, result: ProcessResult)

  /** The kinds of value a hook setter can be given. */
  datatype HookArg =
    | Falsy                  // None, or another falsy value
    | PlainFunction(h: Hook) // types.FunctionType (a `def`, a lambda, an `async def`)
    | BoundMethod(h: Hook)   // types.MethodType
    | CoroutineObject(tag: int) // types.CoroutineType
    | OtherObject            // anything else

  /** A user block class: its base, its `name_block` and what its `__init__` and `process` do. */
  datatype BlockClass = BlockClass(
    className: string,
    kind: BlockKind,
    name: string,
    process: Process,
    executeAfterNullable: bool, // `is_execute_after_nullable_process_msg`
    initRaises: bool)

  /** The state of one block object. */
  datatype BlockValue = BlockValue(
    kind: BlockKind,
    name: string,
    process: Process,
    executeAfterNullable: bool,
    pre: Option<Hook>,
    post: Option<Hook>)

  /** A freshly constructed block of class `c` without hooks. */
  function Fresh(c: BlockClass): BlockValue
  {
    BlockValue(c.kind, c.name, c.process, c.executeAfterNullable, None, None)
  }

  // ---------------------------------------------------------------------------
  // Hook setters

  /** Whether a hook setter of a block of kind `kind` stores `arg`. */
  predicate AcceptsHook(kind: BlockKind, arg: HookArg)
  {
    arg.PlainFunction? || arg.BoundMethod? || (arg.CoroutineObject? && kind == AsyncBlock)
  }

  /**
   * The hook an accepted argument becomes: a function or method is the
   * user's hook; a coroutine object is not callable, so the hook made of it
   * raises TypeError whenever it is called.
   */
  function StoredHook(arg: HookArg): (h: Hook)
    requires arg.PlainFunction? || arg.BoundMethod? || arg.CoroutineObject?
    ensures arg.CoroutineObject? ==> h == Hook(arg.tag, NotCallable) && HookRaises(h) && HookError(h) == TypeError
    ensures !arg.CoroutineObject? ==> h == arg.h
  {
    if arg.CoroutineObject? then Hook(arg.tag, NotCallable) else arg.h
  }

  /**
   * The hook a setter leaves in place, or the error it raises: a falsy value
   * keeps the current hook, a function or method (and, on an async block, a
   * coroutine object) replaces it, anything else is a TypeError.
   */
  function SetHook(kind: BlockKind, current: Option<Hook>, arg: HookArg): (r: Result<Option<Hook>>)
    ensures arg.Falsy? ==> r == Ok(current)
    ensures AcceptsHook(kind, arg) ==> r == Ok(Some(StoredHook(arg)))
    ensures r.Err? <==> !arg.Falsy? && !AcceptsHook(kind, arg)
    ensures r.Err? ==> r.error == TypeError
  {
    if arg.Falsy? then Ok(current)
    else if AcceptsHook(kind, arg) then Ok(Some(StoredHook(arg)))
    else Err(TypeError)
  }

  // ---------------------------------------------------------------------------
  // set_next

  /** The kinds of value `set_next` can be given. */
  datatype NextArg =
    | NextInstance(b: Block)
    | NextClass(c: BlockClass)
    | NextForeignClass(foreignInitRaises: bool) // a class that is not a block class
    | NextForeignObject                        // an instance that is not a block

  /** Whether `set_next` on a block of kind `kind` instantiates a class argument. */
  predicate InstantiatesClass(kind: BlockKind, arg: NextArg)
  {
    kind != LegacySyncBlock && (arg.NextClass? || arg.NextForeignClass?)
  }

  /** Whether instantiating the class argument raises (the exception propagates). */
  predicate InitRaises(arg: NextArg)
  {
    (arg.NextClass? && arg.c.initRaises) || (arg.NextForeignClass? && arg.foreignInitRaises)
  }

  /**
   * Whether `set_next` links the block (after instantiating a class where it
   * does): the new `SyncBlock` and `AsyncBlock` accept a block instance or
   * class of the same base; the older `SyncBlock` accepts only an instance of a
   * `SyncBaseBlock`.
   */
  predicate Links(kind: BlockKind, arg: NextArg)
  {
    match arg
    case NextInstance(b) => BaseOf(b.kind) == BaseOf(kind)
    case NextClass(c) => kind != LegacySyncBlock && !c.initRaises && BaseOf(c.kind) == BaseOf(kind)
    case _ => false
  }

  // ---------------------------------------------------------------------------
  // _process_logic and handle, as functions of the block states

  /** The outcome of a call, the message afterwards and the user calls made, in order. */
  datatype Run = Run(outcome: Outcome, msg: MsgValue, events: seq<Event>)

  /**
   * Whether the post-hook gets the pre-process copy when `process` returns
   * nothing. The older `SyncBlock` always passes it; the other two classes ask
   * the block whose `_process_logic` runs (`self`), not the block being run.
   */
  predicate PostsCopy(runner: BlockValue)
  {
    runner.kind == LegacySyncBlock || runner.executeAfterNullable
  }

  /**
   * `runner._process_logic(block, m)`: pre-hook, stop if it returned nothing,
   * stamp the source, copy, `process`, post-hook.
   */
  function Logic(runner: BlockValue, block: BlockValue, m: MsgValue): Run
  {
    var preCalls := if block.pre.Some? then [Call(block.pre.value.tag, m)] else [];
    if block.pre.Some? && HookRaises(block.pre.value) then
      Run(Fail(HookError(block.pre.value)), m, preCalls)
    else if block.pre.Some? && block.pre.value.effect == ReturnsNothing then
      Run(Pass, m, preCalls)
    else
      var stamped := m.(source := block.name);
      var ran := preCalls + [Call(block.process.tag, stamped)];
      match block.process.result
      case ProcessRaises => Run(Fail(UserError), stamped, ran)
      case ProcessReturnsMessage(out) =>
        if block.post.Some? then
          Run(PostOutcome(block.post.value), stamped, ran + [Call(block.post.value.tag, out)])
        else Run(Pass, stamped, ran)
      case ProcessReturnsNothing =>
        if block.post.Some? && PostsCopy(runner) then
          Run(PostOutcome(block.post.value), stamped, ran + [Call(block.post.value.tag, stamped)])
        else Run(Pass, stamped, ran)
  }

  function PostOutcome(h: Hook): Outcome
  {
    if HookRaises(h) then Fail(HookError(h)) else Pass
  }

  /**
   * `chain[i].handle(m)` on a chain of block states: an empty source runs
   * block i itself, a source equal to its name runs its successor, any other
   * source is handed down the chain, and the tail raises FlowException.
   */
  function HandleSpec(chain: seq<BlockValue>, i: nat, m: MsgValue): Run
    requires i < |chain|
    decreases |chain| - i
  {
    if m.source == "" then Logic(chain[i], chain[i], m)
    else if m.source == chain[i].name then
      if i + 1 < |chain| then Logic(chain[i], chain[i + 1], m)
      else Run(Fail(AttributeError), m, []) // `None.pre_handler_function`
    else if i + 1 < |chain| then HandleSpec(chain, i + 1, m)
    else Run(Fail(FlowException), m, [])
  }

  function Names(chain: seq<BlockValue>): (names: seq<string>)
    ensures |names| == |chain| && forall k :: 0 <= k < |chain| ==> names[k] == chain[k].name
  {
    if chain == [] then [] else [chain[0].name] + Names(chain[1..])
  }

  /** The first position at or after `i` whose block is named `name`, if any. */
  function FindName(chain: seq<BlockValue>, i: nat, name: string): (r: Option<nat>)
    requires i <= |chain|
    ensures r.Some? ==> i <= r.value < |chain| && chain[r.value].name == name
    ensures r.Some? ==> forall k :: i <= k < r.value ==> chain[k].name != name
    ensures r.None? ==> forall k :: i <= k < |chain| ==> chain[k].name != name
    decreases |chain| - i
  {
    if i == |chain| then None
    else if chain[i].name == name then Some(i)
    else FindName(chain, i + 1, name)
  }

  /**
   * A non-empty source resumes right after the first block at or after i that
   * carries that name: the successor is run by that block's `_process_logic`,
   * and neither the named block nor any block before it is run again.
   */
  lemma {:induction false} HandleResumesAfterSource(chain: seq<BlockValue>, i: nat, m: MsgValue)
    requires i < |chain| && m.source != ""
    requires FindName(chain, i, m.source).Some?
    ensures var j := FindName(chain, i, m.source).value;
      HandleSpec(chain, i, m) ==
        if j + 1 < |chain| then Logic(chain[j], chain[j + 1], m) else Run(Fail(AttributeError), m, [])
    decreases |chain| - i
  {
    if chain[i].name != m.source {
      HandleResumesAfterSource(chain, i + 1, m);
    }
  }

  /**
   * A non-empty source that names no block at or after i makes the walk reach
   * the tail and raise FlowException; no user code runs and the message is
   * unchanged.
   */
  lemma {:induction false} HandleUnknownSourceRaises(chain: seq<BlockValue>, i: nat, m: MsgValue)
    requires i < |chain| && m.source != ""
    requires FindName(chain, i, m.source).None?
    ensures HandleSpec(chain, i, m) == Run(Fail(FlowException), m, [])
    decreases |chain| - i
  {
    if i + 1 < |chain| {
      HandleUnknownSourceRaises(chain, i + 1, m);
    }
  }

  /** An empty source runs the receiving block itself and stamps its name. */
  lemma HandleEmptySourceRunsSelf(chain: seq<BlockValue>, i: nat, m: MsgValue)
    requires i < |chain| && m.source == ""
    requires chain[i].pre.None? || chain[i].pre.value.effect == ReturnsMessage
    ensures HandleSpec(chain, i, m) == Logic(chain[i], chain[i], m)
    ensures HandleSpec(chain, i, m).msg.source == chain[i].name
  {
  }

  /**
   * The order of calls in `_process_logic` when the pre-hook passes the
   * message on: pre-hook, then `process` on the stamped message, then the
   * post-hook with `process`'s result or, if it returned nothing and the
   * running block's flag allows it, with the stamped copy.
   */
  lemma LogicCallOrder(runner: BlockValue, block: BlockValue, m: MsgValue, pre: Hook, post: Hook)
    requires block.pre == Some(pre) && pre.effect == ReturnsMessage
    requires block.post == Some(post) && !block.process.result.ProcessRaises?
    ensures var r := Logic(runner, block, m);
      var stamped := m.(source := block.name);
      r.msg == stamped &&
      (block.process.result.ProcessReturnsMessage? ==>
        r.events == [Call(pre.tag, m), Call(block.process.tag, stamped), Call(post.tag, block.process.result.out)]) &&
      (block.process.result.ProcessReturnsNothing? && PostsCopy(runner) ==>
        r.events == [Call(pre.tag, m), Call(block.process.tag, stamped), Call(post.tag, stamped)]) &&
      (block.process.result.ProcessReturnsNothing? && !PostsCopy(runner) ==>
        r.events == [Call(pre.tag, m), Call(block.process.tag, stamped)])
  {
  }

  /** A pre-hook that returns nothing stops the block: no `process`, no post-hook, no stamp. */
  lemma LogicPreHookStops(runner: BlockValue, block: BlockValue, m: MsgValue, pre: Hook)
    requires block.pre == Some(pre) && pre.effect == ReturnsNothing
    ensures Logic(runner, block, m) == Run(Pass, m, [Call(pre.tag, m)])
  {
  }

  /**
   * A coroutine object given to an async block's setter is stored, but it is
   * not callable: as the pre-hook it raises TypeError before `process`, and
   * as the post-hook it turns a successful `process` into TypeError.
   */
  lemma CoroutineHookRaisesTypeError(runner: BlockValue, block: BlockValue, m: MsgValue, current: Option<Hook>, tag: int)
    ensures SetHook(AsyncBlock, current, CoroutineObject(tag)) == Ok(Some(Hook(tag, NotCallable)))
    ensures block.pre == Some(Hook(tag, NotCallable)) ==>
      Logic(runner, block, m) == Run(Fail(TypeError), m, [Call(tag, m)])
    ensures block.pre.None? && block.post == Some(Hook(tag, NotCallable)) && block.process.result.ProcessReturnsMessage? ==>
      Logic(runner, block, m).outcome == Fail(TypeError)
  {
  }

  /**
   * On resume the flag of the block named by the source decides, not the flag
   * of the block that runs: a successor that opts out of the post-hook on a
   * null result still gets it when its predecessor keeps the default.
   */
  lemma ResumeReadsPredecessorFlag(a: BlockValue, b: BlockValue, m: MsgValue, post: Hook)
    requires a.kind == SyncBlock && a.executeAfterNullable && a.name != ""
    requires !b.executeAfterNullable && b.pre.None? && b.post == Some(post)
    requires b.process.result == ProcessReturnsNothing
    requires m.source == a.name
    ensures HandleSpec([a, b], 0, m).events ==
      [Call(b.process.tag, m.(source := b.name)), Call(post.tag, m.(source := b.name))]
  {
  }

  // ---------------------------------------------------------------------------
  // Block objects

  /**
   * A chain of block objects: each links to the next and the last has no
   * successor. A flow's blocks form such a chain once it is validated.
   */
  ghost predicate IsChain(chain: seq<Block>)
    reads set b | b in chain
  {
    |chain| > 0 &&
    (forall k :: 0 <= k < |chain| - 1 ==> chain[k].next == chain[k + 1]) &&
    chain[|chain| - 1].next == null
  }

  ghost function Views(chain: seq<Block>): (vs: seq<BlockValue>)
    reads set b | b in chain
    ensures |vs| == |chain| && forall k :: 0 <= k < |chain| ==> vs[k] == chain[k].View()
  {
    if chain == [] then [] else [chain[0].View()] + Views(chain[1..])
  }

  class Block {
    const kind: BlockKind
    const className: string
    var name: string          // `name_block`; a flow may suffix it
    const process: Process
    const executeAfterNullable: bool
    var pre: Option<Hook>     // `_pre_handler_function`
    var post: Option<Hook>    // `_post_handler_function`
    var next: Block?          // `_next_handler`

    function View(): BlockValue
      reads this
    {
      BlockValue(kind, name, process, executeAfterNullable, pre, post)
    }

    /** The object Python allocates for `c(...)`, before `__init__` sets the hooks. */
    constructor (c: BlockClass)
      ensures View() == Fresh(c) && className == c.className && next == null
    {
      kind, className, name, process := c.kind, c.className, c.name, c.process;
      executeAfterNullable := c.executeAfterNullable;
      pre, post, next := None, None, null;
    }

    /** `c(pre_handler_function=preArg, post_handler_function=postArg)` */
    static method Instantiate(c: BlockClass, preArg: HookArg, postArg: HookArg) returns (r: Result<Block>)
      ensures r.Ok? <==> !c.initRaises && SetHook(c.kind, None, preArg).Ok? && SetHook(c.kind, None, postArg).Ok?
      ensures r.Err? ==> r.error == (if c.initRaises then UserError else TypeError)
      ensures r.Ok? ==> fresh(r.value) && r.value.next == null && r.value.className == c.className
      ensures r.Ok? ==>
        r.value.View() == Fresh(c).(pre := SetHook(c.kind, None, preArg).value, post := SetHook(c.kind, None, postArg).value)
    {
      if c.initRaises {
        return Err(UserError);
      }
      var b := new Block(c);
      var set1 := b.SetPreHandlerFunction(preArg);
      if set1.Fail? {
        return Err(set1.error);
      }
      var set2 := b.SetPostHandlerFunction(postArg);
      if set2.Fail? {
        return Err(set2.error);
      }
      return Ok(b);
    }

    /** The `pre_handler_function` setter. */
    method SetPreHandlerFunction(arg: HookArg) returns (o: Outcome)
      modifies this`pre
      ensures var r := SetHook(kind, old(pre), arg);
        (o.Pass? <==> r.Ok?) && (r.Ok? ==> pre == r.value) && (r.Err? ==> o == Fail(r.error) && pre == old(pre))
    {
      if arg.Falsy? {
        o := Pass;
      } else if arg.PlainFunction? || arg.BoundMethod? || (arg.CoroutineObject? && kind == AsyncBlock) {
        pre := Some(StoredHook(arg));
        o := Pass;
      } else {
        o := Fail(TypeError);
      }
    }

    /** The `post_handler_function` setter. */
    method SetPostHandlerFunction(arg: HookArg) returns (o: Outcome)
      modifies this`post
      ensures var r := SetHook(kind, old(post), arg);
        (o.Pass? <==> r.Ok?) && (r.Ok? ==> post == r.value) && (r.Err? ==> o == Fail(r.error) && post == old(post))
    {
      if arg.Falsy? {
        o := Pass;
      } else if arg.PlainFunction? || arg.BoundMethod? || (arg.CoroutineObject? && kind == AsyncBlock) {
        post := Some(StoredHook(arg));
        o := Pass;
      } else {
        o := Fail(TypeError);
      }
    }

    /** `set_next(arg)`: link the given (or newly instantiated) block and return it. */
    method SetNext(arg: NextArg) returns (r: Result<Block>)
      modifies this`next
      ensures r.Ok? <==> Links(kind, arg)
      ensures r.Err? ==> r.error == (if InstantiatesClass(kind, arg) && InitRaises(arg) then UserError else TypeError)
      ensures r.Err? ==> next == old(next)
      ensures r.Ok? ==> next == r.value && BaseOf(r.value.kind) == BaseOf(kind)
      ensures r.Ok? && arg.NextInstance? ==> r.value == arg.b
      ensures r.Ok? && arg.NextClass? ==>
        fresh(r.value) && r.value.View() == Fresh(arg.c) && r.value.next == null
    {
      var handler: Block;
      match arg {
        case NextInstance(b) =>
          handler := b;
        case NextClass(c) =>
          if kind == LegacySyncBlock {
            return Err(TypeError);
          }
          if c.initRaises {
            return Err(UserError);
          }
          handler := new Block(c);
        case NextForeignClass(raises) =>
          if kind != LegacySyncBlock && raises {
            return Err(UserError);
          }
          return Err(TypeError);
        case NextForeignObject =>
          return Err(TypeError);
      }
      if BaseOf(handler.kind) != BaseOf(kind) {
        return Err(TypeError);
      }
      next := handler;
      return Ok(handler);
    }

    /** `get_next()` */
    function GetNext(): Block?
      reads this
    {
      next
    }

    /** `process(msg)`: a call into user code, recorded in the trace. */
    method Process(msg: Message, trace: seq<Event>) returns (r: ProcessResult, trace': seq<Event>)
      ensures r == process.result && trace' == trace + [Call(process.tag, msg.View())]
    {
      r := process.result;
      trace' := trace + [Call(process.tag, msg.View())];
    }

    /** `self._process_logic(block, msg)` */
    method ProcessLogic(block: Block, msg: Message, trace: seq<Event>) returns (o: Outcome, trace': seq<Event>)
      modifies msg`source
      ensures var r := Logic(View(), block.View(), old(msg.View()));
        o == r.outcome && msg.View() == r.msg && trace' == trace + r.events
    {
      trace' := trace;
      if block.pre.Some? {
        trace' := trace' + [Call(block.pre.value.tag, msg.View())];
        if HookRaises(block.pre.value) {
          return Fail(HookError(block.pre.value)), trace';
        }
        if block.pre.value.effect == ReturnsNothing {
          return Pass, trace';
        }
      }
      msg.SetSource(block.name);
      var copy := msg.View();
      var result;
      result, trace' := block.Process(msg, trace');
      o := Pass;
      if result.ProcessRaises? {
        return Fail(UserError), trace';
      }
      if block.post.Some? {
        if result.ProcessReturnsMessage? {
          trace' := trace' + [Call(block.post.value.tag, result.out)];
          o := PostOutcome(block.post.value);
        } else if kind == LegacySyncBlock || executeAfterNullable {
          trace' := trace' + [Call(block.post.value.tag, copy)];
          o := PostOutcome(block.post.value);
        }
      }
    }

    /** `handle(msg)` on block `chain[i]` of a chain. */
    method Handle(msg: Message, ghost chain: seq<Block>, ghost i: nat, trace: seq<Event>)
      returns (o: Outcome, trace': seq<Event>)
      requires IsChain(chain) && i < |chain| && chain[i] == this
      modifies msg`source
      ensures var r := HandleSpec(old(Views(chain)), i, old(msg.View()));
        o == r.outcome && msg.View() == r.msg && trace' == trace + r.events
      decreases |chain| - i
    {
      ghost var vs := Views(chain);
      assert vs[i] == View();
      if i + 1 < |chain| {
        assert chain[i].next == chain[i + 1];
      }
      assert i + 1 < |chain| <==> next != null;
      if msg.source == "" {
        o, trace' := ProcessLogic(this, msg, trace);
      } else if msg.source == name {
        if next == null {
          return Fail(AttributeError), trace;
        }
        assert vs[i + 1] == next.View();
        o, trace' := ProcessLogic(next, msg, trace);
      } else if next != null {
        assert next == chain[i + 1];
        o, trace' := next.Handle(msg, chain, i + 1, trace);
      } else {
        return Fail(FlowException), trace;
      }
    }

    /** `get_list_flow()`: the names from this block on, joined by " -> ", ending in "end". */
    function ListFlow(ghost chain: seq<Block>, ghost i: nat): (s: string)
      requires IsChain(chain) && i < |chain| && chain[i] == this
      reads set b | b in chain
      ensures s == Join(Names(Views(chain)[i..]) + ["end"], " -> ")
      decreases |chain| - i
    {
      var rest := if next != null then next.ListFlow(chain, i + 1) else "end";
      ListFlowStep(Views(chain), i);
      name + " -> " + rest
    }
  }

  lemma ListFlowStep(vs: seq<BlockValue>, i: nat)
    requires i < |vs|
    ensures Names(vs[i..]) + ["end"] == [vs[i].name] + (Names(vs[i + 1..]) + ["end"])
  {
    assert Names(vs[i..]) == [vs[i].name] + Names(vs[i + 1..]);
  }
}
