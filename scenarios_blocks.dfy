// The block scenarios of the library's test-suite, replayed on the model.

module BlockScenarios {
  import opened Common
  import opened Messages
  import opened Blocks

  const FirstBlockClass := BlockClass("FirstBlock", SyncBlock, "first block", Process(1, ProcessReturnsNothing), true, false)
  const SecondBlockClass := BlockClass("SecondBlock", SyncBlock, "second block", Process(2, ProcessReturnsNothing), true, false)
  const FirstAsyncBlockClass := BlockClass("FirstAsyncBlock", AsyncBlock, "first async block", Process(1, ProcessReturnsNothing), true, false)

  /** The hook that records -1 and passes the message on. */
  const PassingHook := Hook(-1, ReturnsMessage)
  /** The hook that records -2 and returns nothing. */
  const StoppingHook := Hook(-2, ReturnsNothing)

  const Empty := MsgValue("", "", "", "", 0)
  const FromFirst := Empty.(source := "first block")

  /** Linking an async block to a sync block is refused; linking two sync blocks lists both. */
  method LinkScenario() returns (refused: bool, listing: string)
    ensures refused
    ensures listing == "first block -> second block -> end"
  {
    var f := new Block(FirstBlockClass);
    var a := new Block(FirstAsyncBlockClass);
    var r := f.SetNext(NextInstance(a));
    refused := r == Err(TypeError);
    listing := ListTwo(f);
  }

  /** Links `first block` to a new `second block` and lists the flow from the first. */
  method ListTwo(f: Block) returns (listing: string)
    requires f.name == "first block" && f.kind == SyncBlock
    modifies f`next
    ensures listing == "first block -> second block -> end"
  {
    var s := new Block(SecondBlockClass);
    var r := f.SetNext(NextInstance(s));
    assert IsChain([f, s]);
    ghost var vs := Views([f, s]);
    assert vs[0..] == vs && Names(vs) == ["first block", "second block"];
    listing := f.ListFlow([f, s], 0);
    TwoBlockListing();
  }

  lemma TwoBlockListing()
    ensures Join(["first block", "second block"] + ["end"], " -> ") == "first block -> second block -> end"
  {
    assert ["first block", "second block"] + ["end"] == ["first block", "second block", "end"];
    assert Join(["end"], " -> ") == "end";
  }

  /** A message without source, then one resuming after "first block", through `f -> s`. */
  method HandleTwice(f: Block, s: Block, ghost vs: seq<BlockValue>) returns (trace: seq<Event>)
    requires IsChain([f, s]) && vs == Views([f, s])
    ensures trace == HandleSpec(vs, 0, Empty).events + HandleSpec(vs, 0, FromFirst).events
  {
    var m := new Message(Empty);
    var o;
    o, trace := f.Handle(m, [f, s], 0, []);
    assert IsChain([f, s]) && Views([f, s]) == vs;
    m := new Message(FromFirst);
    o, trace := f.Handle(m, [f, s], 0, trace);
  }

  function Blocks2(pre: Option<Hook>, post: Option<Hook>): seq<BlockValue>
  {
    [Fresh(FirstBlockClass).(pre := pre, post := post), Fresh(SecondBlockClass).(pre := pre, post := post)]
  }

  lemma NoHookRounds()
    ensures Tags(HandleSpec(Blocks2(None, None), 0, Empty).events) == [1]
    ensures Tags(HandleSpec(Blocks2(None, None), 0, FromFirst).events) == [2]
  {
  }

  lemma PassingHookRounds()
    ensures Tags(HandleSpec(Blocks2(Some(PassingHook), Some(PassingHook)), 0, Empty).events) == [-1, 1, -1]
    ensures Tags(HandleSpec(Blocks2(Some(PassingHook), Some(PassingHook)), 0, FromFirst).events) == [-1, 2, -1]
  {
  }

  lemma StoppingHookRounds()
    ensures Tags(HandleSpec(Blocks2(Some(StoppingHook), Some(PassingHook)), 0, Empty).events) == [-2]
    ensures Tags(HandleSpec(Blocks2(Some(StoppingHook), Some(PassingHook)), 0, FromFirst).events) == [-2]
  {
  }

  function HookArgOf(h: Option<Hook>): HookArg
  {
    if h.Some? then PlainFunction(h.value) else Falsy
  }

  /** One round of the sync block test: `first -> second` with the given hooks on both blocks, two messages. */
  method Round(pre: Option<Hook>, post: Option<Hook>) returns (trace: seq<Event>)
    ensures trace == HandleSpec(Blocks2(pre, post), 0, Empty).events + HandleSpec(Blocks2(pre, post), 0, FromFirst).events
  {
    var rf := Block.Instantiate(FirstBlockClass, HookArgOf(pre), HookArgOf(post));
    var rs := Block.Instantiate(SecondBlockClass, HookArgOf(pre), HookArgOf(post));
    var f, s := rf.value, rs.value;
    var r := f.SetNext(NextInstance(s));
    assert IsChain([f, s]);
    assert Views([f, s]) == Blocks2(pre, post);
    trace := HandleTwice(f, s, Blocks2(pre, post));
  }

  /**
   * The three rounds of the sync block test: blocks without hooks, with
   * passing hooks, and with pre-hooks that return nothing, each handling a
   * message without source and then one resuming after "first block".
   */
  method SyncBlockScenario() returns (tags: seq<int>)
    ensures tags == [1, 2, -1, 1, -1, -1, 2, -1, -2, -2]
  {
    var t1 := Round(None, None);
    NoHookRounds();
    TagsAppend(HandleSpec(Blocks2(None, None), 0, Empty).events, HandleSpec(Blocks2(None, None), 0, FromFirst).events);
    assert Tags(t1) == [1, 2];
    var t2 := Round(Some(PassingHook), Some(PassingHook));
    PassingHookRounds();
    TagsAppend(HandleSpec(Blocks2(Some(PassingHook), Some(PassingHook)), 0, Empty).events,
               HandleSpec(Blocks2(Some(PassingHook), Some(PassingHook)), 0, FromFirst).events);
    assert Tags(t2) == [-1, 1, -1, -1, 2, -1];
    var t3 := Round(Some(StoppingHook), Some(PassingHook));
    StoppingHookRounds();
    TagsAppend(HandleSpec(Blocks2(Some(StoppingHook), Some(PassingHook)), 0, Empty).events,
               HandleSpec(Blocks2(Some(StoppingHook), Some(PassingHook)), 0, FromFirst).events);
    assert Tags(t3) == [-2, -2];
    tags := Tags(t1) + Tags(t2) + Tags(t3);
  }
}
