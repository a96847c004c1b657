// The stepper scenarios of the library's test-suite, replayed on the model:
// the steps of tests/settings/settings_test_stepper.py, what they do when
// called, and the three stepper classes built from them.

module StepperScenarios {
  import opened Common
  import opened StepperUtils
  import opened Steppers

  const IntList := Named("List[int]")
  const IntT := Named("int")

  /** `value: List[int], arg: int = 1` */
  const ValueAndArg := [Param("value", PositionalOrKeyword, IntList, false, "value: List[int]"),
                        Param("arg", PositionalOrKeyword, IntT, true, "arg: int = 1")]

  /** `correct_step_1() -> List[int]` */
  const Step1 := Callable("correct_step_1", [], IntList)
  /** `correct_step_2(value: List[int], arg: int = 1) -> List[int]` */
  const Step2 := Callable("correct_step_2", ValueAndArg, IntList)
  /** `correct_step_3_without_response(value: List[int], arg: int = 1) -> Optional[List[int]]` */
  const Step3 := Callable("correct_step_3_without_response", ValueAndArg, UnionOf([IntList, NoneType]))

  function Ints(xs: seq<int>): seq<Value>
  {
    seq(|xs|, i requires 0 <= i < |xs| => IntV(xs[i]))
  }

  /**
   * What the three step functions do when called: `correct_step_1` takes no
   * argument and returns `[1, 2, 3]`; the other two take one non-empty list
   * (and `arg`); the second returns the list without its head, the third
   * returns nothing. Any other call raises TypeError.
   */
  function Call(c: Invocation): Reply
  {
    if c.fn == Step1 then
      if c.args == [] && c.kwargs == map[] then Returns(ListV(Ints([1, 2, 3]))) else Raises(TypeError)
    else if (c.fn == Step2 || c.fn == Step3) && |c.args| == 1 && c.args[0].ListV? && c.args[0].items != [] &&
            c.kwargs.Keys <= {"arg"} then
      if c.fn == Step2 then Returns(ListV(c.args[0].items[1..])) else Returns(NoneV)
    else Raises(TypeError)
  }

  /** What call `c` appends to `LIST_ARGS`: `1`, or the list's head and `arg`. */
  function Appended(c: Invocation): seq<Value>
  {
    if Call(c).Raises? then []
    else if c.fn == Step1 then [IntV(1)]
    else [c.args[0].items[0], if "arg" in c.kwargs then c.kwargs["arg"] else IntV(1)]
  }

  /** `LIST_ARGS` after `calls`. */
  function ListArgs(calls: seq<Invocation>): seq<Value>
  {
    if calls == [] then [] else ListArgs(calls[..|calls| - 1]) + Appended(calls[|calls| - 1])
  }

  /** The four steps of `MyFirstFlow` and `MySecondFlow`. */
  const FlowArgs := [AStep(Step(Step1, map[])), AStep(Step(Step2, map[])), AStep(Step(Step3, map[])),
                     AStep(Step(Step2, map["arg" := IntV(2)]))]
  const FlowSteps := [Step(Step1, map[]), Step(Step2, map[]), Step(Step3, map[]), Step(Step2, map["arg" := IntV(2)])]

  /** The three steps of `MyThirdFlow`. */
  const ThirdArgs := [AStep(Step(Step1, map[])), AStep(Step(Step2, map[])), AStep(Step(Step1, map[]))]
  const ThirdSteps := [Step(Step1, map[]), Step(Step2, map[]), Step(Step1, map[])]

  /** The steps of the first two flows are accepted: each takes what the one before it returns. */
  lemma FlowStepsBuild()
    ensures BuildStepsSpec(FlowArgs, true) == Ok(FlowSteps)
  {
    ValueAndArgFit(One(IntList), {});
    ValueAndArgFit(One(UnionOf([IntList, NoneType])), {"arg"});
    BuildStepsIff(FlowArgs, true);
    assert StepsOf(FlowArgs) == FlowSteps;
    assert FlowSteps[3].kwargs.Keys == {"arg"};
    assert FlowSteps[1].kwargs.Keys == {} && FlowSteps[2].kwargs.Keys == {};
    assert ReturnedValue(Step1) == One(IntList) && ReturnedValue(Step2) == One(IntList);
    assert ConsistencyIssues(FlowSteps[1].obj, ReturnedValue(FlowSteps[0].obj), FlowSteps[1].kwargs.Keys) == [];
    assert ConsistencyIssues(FlowSteps[2].obj, ReturnedValue(FlowSteps[1].obj), FlowSteps[2].kwargs.Keys) == [];
    assert ConsistencyIssues(FlowSteps[3].obj, ReturnedValue(FlowSteps[2].obj), FlowSteps[3].kwargs.Keys) == [];
    assert Fitting(FlowSteps);
  }

  /** The steps of `MyThirdFlow` are accepted too. */
  lemma ThirdStepsBuild()
    ensures BuildStepsSpec(ThirdArgs, true) == Ok(ThirdSteps)
  {
    ValueAndArgFit(One(IntList), {});
    BuildStepsIff(ThirdArgs, true);
    assert StepsOf(ThirdArgs) == ThirdSteps;
    assert ReturnedValue(Step1) == One(IntList) && ReturnedValue(Step2) == One(IntList);
    assert ThirdSteps[1].kwargs.Keys == {} && ThirdSteps[2].kwargs.Keys == {};
    assert ConsistencyIssues(ThirdSteps[1].obj, ReturnedValue(ThirdSteps[0].obj), ThirdSteps[1].kwargs.Keys) == [];
    assert ConsistencyIssues(ThirdSteps[2].obj, ReturnedValue(ThirdSteps[1].obj), ThirdSteps[2].kwargs.Keys) == [];
    assert Fitting(ThirdSteps);
  }

  /** `value: List[int], arg: int = 1` takes a list of ints, with or without `arg`. */
  lemma ValueAndArgFit(previous: Returned, kwargs: set<string>)
    requires DataToCheck(previous) == [IntList]
    ensures IssuesFrom(ValueAndArg, 0, DataToCheck(previous), kwargs) == []
  {
    var data := DataToCheck(previous);
    assert IssuesFrom(ValueAndArg, 2, data, kwargs) == [];
    assert IssuesFrom(ValueAndArg, 1, data, kwargs) == [];
  }

  /** The calls the flows make, in order. */
  const FirstCall := Invocation(Step1, [], map[])
  const SecondCall := Invocation(Step2, [ListV(Ints([1, 2, 3]))], map[])
  const ThirdCall := Invocation(Step3, [ListV(Ints([2, 3]))], map[])
  const FourthCall := Invocation(Step2, [ListV(Ints([2, 3]))], map["arg" := IntV(2)])
  const ThirdFlowCall := Invocation(Step1, [ListV(Ints([2, 3]))], map[])

  lemma Replies()
    ensures Call(FirstCall) == Returns(ListV(Ints([1, 2, 3])))
    ensures Call(SecondCall) == Returns(ListV(Ints([2, 3])))
    ensures Call(ThirdCall) == Returns(NoneV)
    ensures Call(FourthCall) == Returns(ListV(Ints([3])))
    ensures Call(ThirdFlowCall) == Raises(TypeError)
  {
    assert Ints([1, 2, 3])[1..] == Ints([2, 3]);
    assert Ints([2, 3])[1..] == Ints([3]);
    assert Step1 != Step2 && Step2 != Step3 && Step1 != Step3 by {
      assert Step1.params != Step2.params && Step2.returnType != Step3.returnType;
    }
  }

  /**
   * `MyFirstFlow().step_by_step()`: the third step returns nothing, so
   * NoDataForExecutionStepException is raised naming it, after `LIST_ARGS`
   * has become `[1, 1, 1, 2, 1]`.
   */
  lemma MyFirstFlowRun()
    ensures var R := RunSpec(FlowSteps, [], false, Call);
      R.result == Err(NoDataForExecutionStepException("correct_step_3_without_response")) &&
      R.calls == [FirstCall, SecondCall, ThirdCall] &&
      ListArgs(R.calls) == Ints([1, 1, 1, 2, 1])
  {
    Replies();
    ListArgsThree();
    var run := Call;
    assert Execute(FlowSteps[0], TupleV([])) == FirstCall;
    assert Execute(FlowSteps[1], ListV(Ints([1, 2, 3]))) == SecondCall;
    assert Execute(FlowSteps[2], ListV(Ints([2, 3]))) == ThirdCall;
    var err := Err(NoDataForExecutionStepException("correct_step_3_without_response"));
    assert RunFrom(FlowSteps, 2, ListV(Ints([2, 3])), ListV(Ints([2, 3])), "correct_step_2", false, run)
      == StepRun(err, [ThirdCall]);
    assert RunFrom(FlowSteps, 1, ListV(Ints([1, 2, 3])), ListV(Ints([1, 2, 3])), "correct_step_1", false, run)
      == StepRun(err, [SecondCall, ThirdCall]);
    assert RunFrom(FlowSteps, 0, TupleV([]), NoneV, "start", false, run)
      == StepRun(err, [FirstCall, SecondCall, ThirdCall]);
  }

  lemma ListArgsThree()
    ensures ListArgs([FirstCall, SecondCall, ThirdCall]) == Ints([1, 1, 1, 2, 1])
  {
    Replies();
    assert [FirstCall, SecondCall, ThirdCall][..2] == [FirstCall, SecondCall];
    assert [FirstCall, SecondCall][..1] == [FirstCall];
    assert [FirstCall][..0] == [];
    assert ListArgs([FirstCall]) == [IntV(1)];
    assert ListArgs([FirstCall, SecondCall]) == [IntV(1), IntV(1), IntV(1)];
  }

  /**
   * `MySecondFlow().step_by_step()`: empty results are skipped, so the last
   * step gets the second step's result again; it returns `[3]` and
   * `LIST_ARGS` becomes `[1, 1, 1, 2, 1, 2, 2]`.
   */
  lemma MySecondFlowRun()
    ensures var R := RunSpec(FlowSteps, [], true, Call);
      R.result == Ok(ListV(Ints([3]))) &&
      R.calls == [FirstCall, SecondCall, ThirdCall, FourthCall] &&
      ListArgs(R.calls) == Ints([1, 1, 1, 2, 1, 2, 2])
  {
    Replies();
    ListArgsThree();
    var run := Call;
    assert [FirstCall, SecondCall, ThirdCall, FourthCall][..3] == [FirstCall, SecondCall, ThirdCall];
    assert Execute(FlowSteps[0], TupleV([])) == FirstCall;
    assert Execute(FlowSteps[1], ListV(Ints([1, 2, 3]))) == SecondCall;
    assert Execute(FlowSteps[2], ListV(Ints([2, 3]))) == ThirdCall;
    assert Execute(FlowSteps[3], ListV(Ints([2, 3]))) == FourthCall;
    var ok := Ok(ListV(Ints([3])));
    assert RunFrom(FlowSteps, 4, ListV(Ints([3])), ListV(Ints([3])), "correct_step_2", true, run)
      == StepRun(ok, []);
    assert RunFrom(FlowSteps, 3, ListV(Ints([2, 3])), NoneV, "correct_step_2", true, run)
      == StepRun(ok, [FourthCall]);
    assert RunFrom(FlowSteps, 2, ListV(Ints([2, 3])), ListV(Ints([2, 3])), "correct_step_2", true, run)
      == StepRun(ok, [ThirdCall, FourthCall]);
    assert RunFrom(FlowSteps, 1, ListV(Ints([1, 2, 3])), ListV(Ints([1, 2, 3])), "correct_step_1", true, run)
      == StepRun(ok, [SecondCall, ThirdCall, FourthCall]);
    assert RunFrom(FlowSteps, 0, TupleV([]), NoneV, "start", true, run)
      == StepRun(ok, [FirstCall, SecondCall, ThirdCall, FourthCall]);
  }

  /**
   * `MyThirdFlow().step_by_step()`: `correct_step_1` called with the list
   * raises TypeError, reported as ConsistencyStepsException naming it and
   * `correct_step_2`, the last step that returned something.
   */
  lemma MyThirdFlowRun()
    ensures RunSpec(ThirdSteps, [], true, Call).result ==
      Err(ConsistencyStepsException("correct_step_1", "correct_step_2"))
  {
    Replies();
    var run := Call;
    assert Execute(ThirdSteps[0], TupleV([])) == FirstCall;
    assert Execute(ThirdSteps[1], ListV(Ints([1, 2, 3]))) == SecondCall;
    assert Execute(ThirdSteps[2], ListV(Ints([2, 3]))) == ThirdFlowCall;
    var err := Err(ConsistencyStepsException("correct_step_1", "correct_step_2"));
    assert RunFrom(ThirdSteps, 2, ListV(Ints([2, 3])), ListV(Ints([2, 3])), "correct_step_2", true, run).result == err;
    assert RunFrom(ThirdSteps, 1, ListV(Ints([1, 2, 3])), ListV(Ints([1, 2, 3])), "correct_step_1", true, run).result == err;
  }

  /** A stepper needs a builder: a step instead raises TypeError, nothing at all NotImplementedError. */
  lemma StepperNeedsBuilder()
    ensures ChosenSteps(NoSteps, OtherSteps) == Err(TypeError)
    ensures ChosenSteps(NoSteps, NoSteps) == Err(NotImplementedError)
  {
  }

  /** `tst_function() -> Tuple[int, int]` */
  const TstFunction := Callable("tst_function", [], TupleOf([IntT, IntT]))

  function P(name: string, ann: Ann, hasDefault: bool): Param
  {
    Param(name, PositionalOrKeyword, ann, hasDefault, name)
  }

  /** `tst_function_2(val1: str, val2: int, arg1: int, arg2: int) -> None` */
  const TstFunction2 := Callable("tst_function_2",
    [P("val1", Named("str"), false), P("val2", IntT, false), P("arg1", IntT, false), P("arg2", IntT, false)], NoneType)

  /** `tst_function_4(val1: int, val2: int, arg1: int = 1, arg2: int = 2, **kwargs: Any) -> None` */
  const TstFunction4 := Callable("tst_function_4",
    [P("val1", IntT, false), P("val2", IntT, false), P("arg1", IntT, true), P("arg2", IntT, true),
     Param("kwargs", VarKeyword, Named("Any"), false, "**kwargs: Any")], NoneType)

  /**
   * The builder checks of `test_stepper`: a `str` parameter does not take
   * the `int` of a `Tuple[int, int]`, and an unknown keyword is refused
   * unless the callable takes `**kwargs`.
   */
  lemma BuilderChecks()
    ensures BuildStepsSpec([AStep(Step(TstFunction, map[])), AStep(Step(TstFunction2, map[]))], true) == Err(DataConsistencyError)
    ensures NewStep(NotCallable, map[]) == Err(TypeError)
  {
    var data := [IntT, IntT];
    assert DataToCheck(ReturnedValue(TstFunction)) == data;
    assert IssuesFrom(TstFunction2.params, 0, data, {}) != [] by {
      assert Named("str") != IntT;
    }
  }

  /** Keywords a step function does not name are refused, unless it takes `**kwargs`. */
  lemma StepKeywordChecks()
    ensures NewStep(CallableObj(TstFunction2), map["arg3" := IntV(3)]) == Err(ExtraAttributeError)
    ensures NewStep(CallableObj(TstFunction4), map["arg3" := IntV(3), "val1" := IntV(1)]).Ok?
  {
    var kw := map["arg3" := IntV(3)];
    StepRejectsExtraKeywords(TstFunction2, kw);
    assert "arg3" in kw && forall i :: 0 <= i < |TstFunction2.params| ==> TstFunction2.params[i].name != "arg3";
    var kw4 := map["arg3" := IntV(3), "val1" := IntV(1)];
    StepRejectsExtraKeywords(TstFunction4, kw4);
    assert TstFunction4.params[4].kind == VarKeyword;
  }

  /** `MySecondFlow().step_by_step()` through the classes: the builder, the stepper and its loop. */
  method MySecondFlowScenario() returns (r: Result<Value>)
    ensures r == Ok(ListV(Ints([3])))
  {
    FlowStepsBuild();
    var b := StepsBuilder.New(FlowArgs, true);
    var s := Stepper.New(BuilderSteps(b.value), Some(true), NoSteps, None);
    var calls;
    r, calls := s.value.StepByStep([], Call);
    MySecondFlowRun();
  }
}
