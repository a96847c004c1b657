// The flow scenarios of the library's test-suite, replayed on the model.

module FlowScenarios {
  import opened Common
  import opened Messages
  import opened Blocks
  import opened Flows
  import opened BlockScenarios

  /** `TestFlow.tst_method_with_correct_processing`: records -3 and passes the message on. */
  const FlowHook := Hook(-3, ReturnsMessage)
  const HookName := "tst_method_with_correct_processing"
  const TestFlowAttrs := map[HookName := PlainFunction(FlowHook)]

  /**
   * `TestFlow.steps_flow`: `FirstBlock` with the flow's hook (named) before
   * and the module's hook after, then `SecondBlock` the other way round.
   */
  function TestSteps(): seq<FlowBlock>
  {
    [FlowBlock(ClassSlot(FirstBlockClass), ByName(HookName), Given(PlainFunction(PassingHook))),
     FlowBlock(ClassSlot(SecondBlockClass), Given(PlainFunction(PassingHook)), ByName(HookName))]
  }

  /** The step states of `TestFlow` before its first build. */
  function TestValues(): seq<StepValue>
  {
    [StepValue(ClassValue(FirstBlockClass), PlainFunction(FlowHook), PlainFunction(PassingHook)),
     StepValue(ClassValue(SecondBlockClass), PlainFunction(PassingHook), PlainFunction(FlowHook))]
  }

  /** The chain `TestFlow` builds. */
  function TestChain(): seq<BlockValue>
  {
    [Fresh(FirstBlockClass).(pre := Some(FlowHook), post := Some(PassingHook)),
     Fresh(SecondBlockClass).(pre := Some(PassingHook), post := Some(FlowHook))]
  }

  lemma TestFlowBuilds()
    ensures FlowSpec(TestValues(), false, Sync) == Ok(TestChain())
  {
    var sv, vs := TestValues(), TestChain();
    BuildTwo(sv, false, vs[0], vs[1]);
    CheckTwo(vs, SyncBlock);
  }

  /** A two-step build whose steps both initialise, with blocks of one base class. */
  lemma BuildTwo(sv: seq<StepValue>, dup: bool, a: BlockValue, b: BlockValue)
    requires |sv| == 2
    requires StepInit(sv[0], dup, 0) == Init(a, Pass) && StepInit(sv[1], dup, 1) == Init(b, Pass)
    requires BaseOf(a.kind) == BaseOf(b.kind)
    ensures BuildSpec(sv, dup) == Ok([a, b])
  {
    BuildFromNext(sv, dup, 0, []);
    BuildFromNext(sv, dup, 1, [a]);
    assert [] + [a] == [a] && [a] + [b] == [a, b];
  }

  /** A one-step build whose step initialises. */
  lemma BuildOne(sv: seq<StepValue>, dup: bool, a: BlockValue)
    requires |sv| == 1 && StepInit(sv[0], dup, 0) == Init(a, Pass)
    ensures BuildSpec(sv, dup) == Ok([a])
  {
    BuildFromNext(sv, dup, 0, []);
    assert [] + [a] == [a];
  }

  /** Two blocks of the flow's class with different names pass validation. */
  lemma CheckTwo(vs: seq<BlockValue>, kind: BlockKind)
    requires |vs| == 2 && vs[0].kind == vs[1].kind == kind && vs[0].name != vs[1].name
    ensures CheckFrom(vs, kind, 0, []) == Pass
  {
    assert CheckFrom(vs, kind, 2, [vs[0].name, vs[1].name]) == Pass;
    assert [] + [vs[0].name] == [vs[0].name];
    assert [vs[0].name] + [vs[1].name] == [vs[0].name, vs[1].name];
  }

  lemma TestFlowRounds()
    ensures Tags(HandleSpec(TestChain(), 0, Empty).events) == [-3, 1, -1]
    ensures Tags(HandleSpec(TestChain(), 0, FromFirst).events) == [-1, 2, -3]
  {
  }

  /** A builder whose steps all hold classes satisfies the builder invariant. */
  method NewBuilder(steps: seq<FlowBlock>) returns (b: FlowBuilder)
    requires |steps| > 0 && forall k :: 0 <= k < |steps| ==> steps[k].obj.ClassSlot?
    ensures fresh(b) && b.steps == steps && b.Wf() && b.Blocks() == {}
  {
    b := new FlowBuilder(steps);
    assert forall k :: 0 <= k < |steps| ==> LinkOk(steps, b.Nexts(), k);
  }

  /** `TestFlow()`: the flow class built from its builder. */
  method BuildTestFlow() returns (f: Flow)
    ensures f.Valid() && Views(f.chain) == TestChain()
  {
    var b := NewBuilder(TestSteps());
    var c := FlowClass("TestFlow", Sync, Some("test_flow"), StepsBuilder(b), false, TestFlowAttrs);
    assert b.Values(c.attrs) == TestValues();
    TestFlowBuilds();
    var r := Flow.Create(c, {});
    f := r.value;
  }

  /**
   * `TestFlow()` handles a message without source, then one resuming after
   * "first block": the flow's hook, `FirstBlock`, the module's hook; then
   * the module's hook, `SecondBlock`, the flow's hook.
   */
  method TestFlowScenario() returns (tags: seq<int>)
    ensures tags == [-3, 1, -1, -1, 2, -3]
  {
    var f := BuildTestFlow();
    TestFlowRounds();
    var t1 := Round(f, Empty);
    var t2 := Round(f, FromFirst);
    tags := t1 + t2;
  }

  /** `flow.to_go_with_the_flow(msg)` on a new message; the tags the hooks and blocks record. */
  method Round(f: Flow, v: MsgValue) returns (tags: seq<int>)
    requires f.Valid()
    ensures tags == Tags(HandleSpec(Views(f.chain), 0, v).events)
  {
    ghost var run := HandleSpec(Views(f.chain), 0, v);
    var m := new Message(v);
    var o, t := f.ToGoWithTheFlow(m, []);
    assert t == [] + run.events == run.events;
    tags := Tags(t);
  }

  /** Two plain `FirstBlock` steps, before any build. */
  function TwoFirstBlocks(): seq<StepValue>
  {
    [StepValue(ClassValue(FirstBlockClass), Falsy, Falsy), StepValue(ClassValue(FirstBlockClass), Falsy, Falsy)]
  }

  /** `IncorrectTestFlowWithDublicatBlocks`: the same block twice without suffixes fails validation. */
  lemma DuplicateBlocksRejected()
    ensures FlowSpec(TwoFirstBlocks(), false, Sync) == Err(NotUniqueBlockInFlowError("first block"))
  {
    var a := Fresh(FirstBlockClass);
    BuildTwo(TwoFirstBlocks(), false, a, a);
    var vs := [a, a];
    assert CheckFrom(vs, SyncBlock, 1, [a.name]) == Fail(NotUniqueBlockInFlowError("first block"));
    assert [] + [a.name] == [a.name];
  }

  /** The names `CorrectTestFlowWithDublicatBlocks` gives its two blocks. */
  function SuffixedPair(): seq<BlockValue>
  {
    [Fresh(FirstBlockClass).(name := "first block_0"), Fresh(FirstBlockClass).(name := "first block_1")]
  }

  /** `CorrectTestFlowWithDublicatBlocks`: with suffixes the two blocks are "first block_0" and "first block_1". */
  lemma DuplicateBlocksSuffixed()
    ensures FlowSpec(TwoFirstBlocks(), true, Sync) == Ok(SuffixedPair())
  {
    var vs := SuffixedPair();
    assert Suffixed("first block", 0) == "first block_0";
    assert Suffixed("first block", 1) == "first block_1";
    BuildTwo(TwoFirstBlocks(), true, vs[0], vs[1]);
    CheckTwo(vs, SyncBlock);
  }

  /** A sync flow holding an async block, and an async flow holding a sync block, fail validation. */
  lemma WrongBlockClassRejected()
    ensures FlowSpec([StepValue(ClassValue(FirstAsyncBlockClass), Falsy, Falsy)], false, Sync) == Err(WorkTypeMismatchException)
    ensures FlowSpec([StepValue(ClassValue(FirstBlockClass), Falsy, Falsy)], false, Async) == Err(WorkTypeMismatchException)
  {
    BuildOne([StepValue(ClassValue(FirstAsyncBlockClass), Falsy, Falsy)], false, Fresh(FirstAsyncBlockClass));
    BuildOne([StepValue(ClassValue(FirstBlockClass), Falsy, Falsy)], false, Fresh(FirstBlockClass));
  }

  /** The steps of `CorrectTestFlowWithDublicatBlocks`: `FirstBlock` twice, without hooks. */
  function TwoFirstSteps(): seq<FlowBlock>
  {
    [FlowBlock(ClassSlot(FirstBlockClass), Given(Falsy), Given(Falsy)),
     FlowBlock(ClassSlot(FirstBlockClass), Given(Falsy), Given(Falsy))]
  }

  /** `CorrectTestFlowWithDublicatBlocks()`: fresh instances named with their step numbers. */
  method DuplicateScenario() returns (steps: string)
    ensures steps == "first block_0 -> first block_1 -> end"
  {
    var f := BuildDuplicates();
    steps := TwoSteps(f, "first block_0", "first block_1");
    FirstListing();
  }

  /** The build of `CorrectTestFlowWithDublicatBlocks()`. */
  method BuildDuplicates() returns (f: Flow)
    ensures f.Valid() && Views(f.chain) == SuffixedPair()
  {
    var b := NewBuilder(TwoFirstSteps());
    var c := FlowClass("CorrectTestFlowWithDublicatBlocks", Sync, Some("test_flow_with_double_blocks "), StepsBuilder(b), true, map[]);
    assert b.Values(c.attrs) == TwoFirstBlocks();
    DuplicateBlocksSuffixed();
    var r := Flow.Create(c, {});
    f := r.value;
  }

  /** A builder over two `FirstBlock` instances made beforehand, as a flow with duplicate blocks. */
  method InstanceFlow() returns (c: FlowClass, b: FlowBuilder, ghost blocks: seq<Block>)
    ensures TwoInstanceFlow(c, b, blocks) && fresh(b) && fresh(blocks[0]) && fresh(blocks[1])
    ensures Views(blocks) == [Fresh(FirstBlockClass), Fresh(FirstBlockClass)]
  {
    var b0 := new Block(FirstBlockClass);
    var b1 := new Block(FirstBlockClass);
    blocks := [b0, b1];
    b := new FlowBuilder([FlowBlock(InstanceSlot(b0), Given(Falsy), Given(Falsy)), FlowBlock(InstanceSlot(b1), Given(Falsy), Given(Falsy))]);
    c := FlowClass("CorrectTestFlowWithDublicatBlocks", Sync, Some("test_flow_with_double_blocks "), StepsBuilder(b), true, map[]);
    assert forall k :: 0 <= k < 2 ==> LinkOk(b.steps, b.Nexts(), k);
    assert b.steps[0].obj.b == b0 && b.steps[1].obj.b == b1;
    assert b.Blocks() == {b0, b1};
  }

  /** The step states of the two instances after the first build. */
  function SuffixedInstances(): seq<StepValue>
  {
    [StepValue(InstanceValue(SuffixedPair()[0]), Falsy, Falsy), StepValue(InstanceValue(SuffixedPair()[1]), Falsy, Falsy)]
  }

  /** The names the second build gives the two instances. */
  function ResuffixedNames(): seq<string>
  {
    ["first block_0_0", "first block_1_1"]
  }

  /** The steps over two instances, without hooks. */
  function InstanceSteps(blocks: seq<Block>): seq<FlowBlock>
    requires |blocks| == 2
  {
    [FlowBlock(InstanceSlot(blocks[0]), Given(Falsy), Given(Falsy)), FlowBlock(InstanceSlot(blocks[1]), Given(Falsy), Given(Falsy))]
  }

  /** The flow class over the builder `b` of two instances, as `InstanceFlow` makes it. */
  ghost predicate TwoInstanceFlow(c: FlowClass, b: FlowBuilder, blocks: seq<Block>)
    reads b, b.Blocks()
  {
    c.name.Some? && c.steps == StepsBuilder(b) && c.duplicates && c.variant == Sync && c.attrs == map[] &&
    b.Wf() && |blocks| == 2 && b.steps == InstanceSteps(blocks) && b.Blocks() == {blocks[0], blocks[1]}
  }

  /** The first build over the two instances: their names get the step numbers, their links are set. */
  method FirstOfTwo(c: FlowClass, b: FlowBuilder, ghost blocks: seq<Block>) returns (f: Flow)
    requires TwoInstanceFlow(c, b, blocks) && Views(blocks) == [Fresh(FirstBlockClass), Fresh(FirstBlockClass)]
    modifies b, blocks[0], blocks[1]
    ensures f.Valid() && f.chain == blocks && TwoInstanceFlow(c, b, blocks) && b.Linked()
    ensures Views(blocks) == SuffixedPair()
  {
    assert b.Values(c.attrs) == TwoFirstInstances();
    FirstRebuildNames();
    var r := Flow.Create(c, {});
    f := r.value;
    assert f.chain == blocks;
  }

  /** A later build over the same, linked instances: each name gets its step number once more. */
  method SecondOfTwo(c: FlowClass, b: FlowBuilder, ghost blocks: seq<Block>) returns (f: Flow)
    requires TwoInstanceFlow(c, b, blocks) && b.Linked() && Views(blocks) == SuffixedPair()
    modifies b, blocks[0], blocks[1]
    ensures f.Valid() && f.chain == blocks && b.steps == InstanceSteps(blocks)
    ensures Names(Views(blocks)) == ResuffixedNames()
  {
    assert b.Values(c.attrs) == SuffixedInstances();
    RebuildNames(SuffixedPair());
    var r := Flow.Create(c, {});
    f := r.value;
    assert f.chain == blocks;
  }

  /**
   * A flow with duplicate blocks whose builder holds two `FirstBlock`
   * instances, built twice: the second build reuses the two instances,
   * already linked, and suffixes their names a second time.
   */
  method RebuildScenario() returns (first: string, second: string, shared: bool)
    ensures first == "first block_0 -> first block_1 -> end"
    ensures second == "first block_0_0 -> first block_1_1 -> end"
    ensures shared
  {
    var c, b, blocks := InstanceFlow();
    var f1, f2;
    f1, first := FirstRound(c, b, blocks);
    f2, second := SecondRound(c, b, blocks);
    shared := f1.head == f2.head;
  }

  /** The first build over the two instances, and its `get_steps()`. */
  method FirstRound(c: FlowClass, b: FlowBuilder, ghost blocks: seq<Block>) returns (f: Flow, steps: string)
    requires TwoInstanceFlow(c, b, blocks) && Views(blocks) == [Fresh(FirstBlockClass), Fresh(FirstBlockClass)]
    modifies b, blocks[0], blocks[1]
    ensures f.Valid() && f.chain == blocks && TwoInstanceFlow(c, b, blocks) && b.Linked() && Views(blocks) == SuffixedPair()
    ensures steps == "first block_0 -> first block_1 -> end"
  {
    f := FirstOfTwo(c, b, blocks);
    assert Names(Views(f.chain)) == ["first block_0", "first block_1"];
    ghost var linked := b.Linked();
    steps := TwoSteps(f, "first block_0", "first block_1");
    assert b.Linked() == linked && Views(blocks) == SuffixedPair();
    FirstListing();
  }

  /** The second build over the two instances, and its `get_steps()`. */
  method SecondRound(c: FlowClass, b: FlowBuilder, ghost blocks: seq<Block>) returns (f: Flow, steps: string)
    requires TwoInstanceFlow(c, b, blocks) && b.Linked() && Views(blocks) == SuffixedPair()
    modifies b, blocks[0], blocks[1]
    ensures f.Valid() && f.chain == blocks
    ensures steps == "first block_0_0 -> first block_1_1 -> end"
  {
    f := SecondOfTwo(c, b, blocks);
    steps := TwoSteps(f, "first block_0_0", "first block_1_1");
    SecondListing();
  }

  /** The first build over the two instances names them as the class build does. */
  lemma FirstRebuildNames()
    ensures FlowSpec(TwoFirstInstances(), true, Sync) == Ok(SuffixedPair())
  {
    var vs := SuffixedPair();
    assert Suffixed("first block", 0) == "first block_0";
    assert Suffixed("first block", 1) == "first block_1";
    BuildTwo(TwoFirstInstances(), true, vs[0], vs[1]);
    CheckTwo(vs, SyncBlock);
  }

  /** Two unlinked `FirstBlock` instances as they come from the class, without hooks. */
  function TwoFirstInstances(): seq<StepValue>
  {
    [StepValue(InstanceValue(Fresh(FirstBlockClass)), Falsy, Falsy), StepValue(InstanceValue(Fresh(FirstBlockClass)), Falsy, Falsy)]
  }

  /** `get_steps()` of a two-block flow: the two names, then "end". */
  method TwoSteps(f: Flow, a: string, b: string) returns (s: string)
    requires f.Valid() && Names(Views(f.chain)) == [a, b]
    ensures s == Join([a, b, "end"], " -> ")
  {
    s := f.GetSteps();
    assert Names(Views(f.chain)) + ["end"] == [a, b, "end"];
  }

  lemma FirstListing()
    ensures Join(["first block_0", "first block_1", "end"], " -> ") == "first block_0 -> first block_1 -> end"
  {
    assert Join(["first block_1", "end"], " -> ") == "first block_1 -> end";
  }

  lemma SecondListing()
    ensures Join(["first block_0_0", "first block_1_1", "end"], " -> ") == "first block_0_0 -> first block_1_1 -> end"
  {
    assert Join(["first block_1_1", "end"], " -> ") == "first block_1_1 -> end";
  }

  lemma SecondSuffixes()
    ensures Suffixed("first block_0", 0) == "first block_0_0" && Suffixed("first block_1", 1) == "first block_1_1"
  {
  }

  /** The second build of the two suffixed blocks. */
  lemma RebuildNames(vs: seq<BlockValue>)
    requires |vs| == 2 && vs[0].name == "first block_0" && vs[1].name == "first block_1" && vs[0].kind == vs[1].kind == SyncBlock
    ensures var sv := [StepValue(InstanceValue(vs[0]), Falsy, Falsy), StepValue(InstanceValue(vs[1]), Falsy, Falsy)];
      FlowSpec(sv, true, Sync).Ok? && Names(FlowSpec(sv, true, Sync).value) == ResuffixedNames()
  {
    var sv := [StepValue(InstanceValue(vs[0]), Falsy, Falsy), StepValue(InstanceValue(vs[1]), Falsy, Falsy)];
    var ws := [vs[0].(name := "first block_0_0"), vs[1].(name := "first block_1_1")];
    SecondSuffixes();
    BuildTwo(sv, true, ws[0], ws[1]);
    CheckTwo(ws, SyncBlock);
  }
}
