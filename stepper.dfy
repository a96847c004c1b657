// The stepper (orch_serv/stepper/stepper.py): steps, the builder that checks
// them against each other, its iterator, and `Stepper`, which runs the steps
// one after another, each on what the previous one returned. The step
// functions are user code: a `run` parameter says what each call returns or
// raises, and the calls made are returned as a trace.

module Steppers {
  import opened Common
  import opened StepperUtils

  /** The values steps pass along, as far as truthiness and tuples matter. */
  datatype Value = NoneV | IntV(i: int) | StrV(s: string) | ListV(items: seq<Value>) | TupleV(items: seq<Value>)

  /** `bool(v)` */
  predicate Truthy(v: Value)
  {
    match v
    case NoneV => false
    case IntV(i) => i != 0
    case StrV(s) => s != ""
    case ListV(xs) => xs != []
    case TupleV(xs) => xs != []
  }

  /** A call of a step's callable: its positional and its keyword arguments. */
  datatype Invocation = Invocation(fn: Callable, args: seq<Value>, kwargs: map<string, Value>)

  /** What a call does: return a value or raise. */
  datatype Reply = Returns(v: Value) | Raises(error: Error)

  // ---------------------------------------------------------------------------
  // Step

  /** A step: its callable (`obj`) and the keyword arguments kept for every call (`kwargs`). */
  datatype Step = Step(obj: Callable, kwargs: map<string, Value>)

  /** What `Step(obj, **kwargs)` is given as `obj`. */
  datatype StepObj = NotCallable | CallableObj(fn: Callable)

  /** `Step(obj, **kwargs)`: the callable must be callable and accept the keywords. */
  function NewStep(obj: StepObj, kwargs: map<string, Value>): (r: Result<Step>)
    ensures obj.NotCallable? ==> r == Err(TypeError)
    ensures obj.CallableObj? ==> (r.Ok? <==> ValidateDataStep(obj.fn, kwargs.Keys).Pass?)
    ensures r.Ok? ==> r.value == Step(obj.fn, kwargs)
  {
    if obj.NotCallable? then Err(TypeError)
    else match ValidateDataStep(obj.fn, kwargs.Keys)
      case Fail(e) => Err(e)
      case Pass => Ok(Step(obj.fn, kwargs))
  }

  /**
   * A callable step is refused exactly when one of its keywords names no
   * parameter and it takes no `**kwargs`, and then with ExtraAttributeError.
   */
  lemma StepRejectsExtraKeywords(fn: Callable, kwargs: map<string, Value>)
    ensures NewStep(CallableObj(fn), kwargs).Err? <==>
      (exists key :: key in kwargs && (forall i :: 0 <= i < |fn.params| ==> fn.params[i].name != key)) &&
      (forall i :: 0 <= i < |fn.params| ==> fn.params[i].kind != VarKeyword)
    ensures NewStep(CallableObj(fn), kwargs).Err? ==> NewStep(CallableObj(fn), kwargs).error == ExtraAttributeError
  {
    ValidateDataStepIff(fn, kwargs.Keys);
  }

  /** The positional arguments `execute` passes for `data`. */
  function Spread(data: Value): seq<Value>
  {
    if data.TupleV? then data.items else [data]
  }

  /** `step.execute(data)`: a tuple is spread as the positional arguments, anything else is the one argument; the kept keywords are always added. */
  function Execute(s: Step, data: Value): (c: Invocation)
    ensures c.fn == s.obj && c.kwargs == s.kwargs
    ensures data.TupleV? ==> c.args == data.items
    ensures !data.TupleV? ==> c.args == [data]
  {
    Invocation(s.obj, Spread(data), s.kwargs)
  }

  // ---------------------------------------------------------------------------
  // StepsBuilder

  /** One positional argument of `StepsBuilder(*steps)`. */
  datatype StepArg = AStep(s: Step) | NotAStep

  /**
   * The loop of `StepsBuilder(*steps)` from argument `k` on, with the steps
   * kept so far and the return types of the previous step: a non-step
   * raises TypeError; when checking, a step that does not fit the previous
   * one raises DataConsistencyError.
   */
  function ScanSteps(args: seq<StepArg>, k: nat, acc: seq<Step>, previous: Returned, validate: bool): Result<seq<Step>>
    requires k <= |args|
    decreases |args| - k
  {
    if k == |args| then Ok(acc)
    else if args[k].NotAStep? then Err(TypeError)
    else
      var s := args[k].s;
      if validate && ConsistencyIssues(s.obj, previous, s.kwargs.Keys) != [] then Err(DataConsistencyError)
      else ScanSteps(args, k + 1, acc + [s], if validate then ReturnedValue(s.obj) else previous, validate)
  }

  /** `StepsBuilder(*args, is_validate_consistency_steps=validate)`: no argument at all fails on `steps[0]`. */
  function BuildStepsSpec(args: seq<StepArg>, validate: bool): Result<seq<Step>>
  {
    if |args| == 0 then Err(IndexError)
    else if args[0].NotAStep? then Err(TypeError)
    else ScanSteps(args, 1, [args[0].s], ReturnedValue(args[0].s.obj), validate)
  }

  /** Consecutive steps fit: each step's parameters take what the one before returns. */
  predicate Fitting(steps: seq<Step>)
  {
    forall i :: 1 <= i < |steps| ==> ConsistencyIssues(steps[i].obj, ReturnedValue(steps[i - 1].obj), steps[i].kwargs.Keys) == []
  }

  /** The steps among `args`, when every argument is one. */
  predicate AllSteps(args: seq<StepArg>)
  {
    forall i :: 0 <= i < |args| ==> args[i].AStep?
  }

  function StepsOf(args: seq<StepArg>): (r: seq<Step>)
    requires AllSteps(args)
    ensures |r| == |args| && forall i :: 0 <= i < |args| ==> r[i] == args[i].s
  {
    seq(|args|, i requires 0 <= i < |args| && AllSteps(args) => args[i].s)
  }

  /** The arguments are all steps and, when checking, those from `k` on fit the step before them. */
  predicate ScanFits(args: seq<StepArg>, k: nat, validate: bool)
    requires 1 <= k
  {
    AllSteps(args) && (validate ==> forall i :: k <= i < |args| ==>
      ConsistencyIssues(args[i].s.obj, ReturnedValue(args[i - 1].s.obj), args[i].s.kwargs.Keys) == [])
  }

  /** The scan from `k` on succeeds exactly when the rest are steps that fit (when checking), and keeps them in order. */
  lemma {:induction false} ScanStepsIff(args: seq<StepArg>, k: nat, acc: seq<Step>, validate: bool)
    requires 1 <= k <= |args| && AllSteps(args[..k]) && acc == StepsOf(args[..k])
    decreases |args| - k
    ensures var r := ScanSteps(args, k, acc, ReturnedValue(args[k - 1].s.obj), validate);
      (r.Ok? <==> ScanFits(args, k, validate)) && (r.Ok? ==> r.value == StepsOf(args))
  {
    assert args[k - 1] == args[..k][k - 1];
    if k == |args| {
      assert args[..k] == args;
    } else if args[k].NotAStep? {
      assert !AllSteps(args);
    } else {
      var s := args[k].s;
      assert args[..k + 1] == args[..k] + [args[k]];
      assert AllSteps(args[..k + 1]);
      assert StepsOf(args[..k + 1]) == acc + [s];
      var issues := ConsistencyIssues(s.obj, ReturnedValue(args[k - 1].s.obj), s.kwargs.Keys);
      if validate && issues != [] {
        assert !ScanFits(args, k, validate);
      } else {
        ScanStepsIff(args, k + 1, acc + [s], validate);
        if !validate {
          // without checking, the previous return types stay those of the first step
          ScanStepsUnchecked(args, k + 1, acc + [s], ReturnedValue(args[k - 1].s.obj), ReturnedValue(args[k].s.obj));
        }
        assert ScanFits(args, k, validate) <==> ScanFits(args, k + 1, validate);
      }
    }
  }

  /** Without checking, the return types the scan carries do not matter. */
  lemma {:induction false} ScanStepsUnchecked(args: seq<StepArg>, k: nat, acc: seq<Step>, p: Returned, q: Returned)
    requires k <= |args|
    decreases |args| - k
    ensures ScanSteps(args, k, acc, p, false) == ScanSteps(args, k, acc, q, false)
  {
    if k < |args| && args[k].AStep? {
      ScanStepsUnchecked(args, k + 1, acc + [args[k].s], p, q);
    }
  }

  /**
   * `StepsBuilder` keeps its arguments, in order, exactly when there is at
   * least one, every one is a `Step` and, when checking, every step fits
   * the one before it.
   */
  lemma BuildStepsIff(args: seq<StepArg>, validate: bool)
    ensures var r := BuildStepsSpec(args, validate);
      (r.Ok? <==> |args| > 0 && AllSteps(args) && (validate ==> Fitting(StepsOf(args)))) &&
      (r.Ok? ==> r.value == StepsOf(args))
  {
    if |args| > 0 && args[0].AStep? {
      assert args[..1] == [args[0]];
      ScanStepsIff(args, 1, [args[0].s], validate);
    }
  }

  /** A builder: its steps (`__steps`). */
  class StepsBuilder {
    var steps: seq<Step>

    constructor Empty()
      ensures steps == []
    {
      steps := [];
    }

    /** `StepsBuilder(*args, is_validate_consistency_steps=validate)` */
    static method New(args: seq<StepArg>, validate: bool) returns (r: Result<StepsBuilder>)
      ensures var spec := BuildStepsSpec(args, validate);
        (r.Ok? <==> spec.Ok?) && (r.Err? ==> r.error == spec.error) &&
        (r.Ok? ==> fresh(r.value) && r.value.steps == spec.value)
    {
      var b := new StepsBuilder.Empty();
      if |args| == 0 {
        return Err(IndexError);
      }
      if args[0].NotAStep? {
        return Err(TypeError);
      }
      b.steps := [args[0].s];
      var previous := ReturnedValue(args[0].s.obj);
      var k := 1;
      while k < |args|
        invariant 1 <= k <= |args| && fresh(b)
        invariant BuildStepsSpec(args, validate) == ScanSteps(args, k, b.steps, previous, validate)
        decreases |args| - k
      {
        match args[k] {
          case NotAStep =>
            return Err(TypeError);
          case AStep(s) =>
            if validate {
              var o, _ := ValidateDataConsistency(s.obj, previous, s.kwargs.Keys);
              if o.Fail? {
                return Err(o.error);
              }
              previous := ReturnedValue(s.obj);
            }
            b.steps := b.steps + [s];
        }
        k := k + 1;
      }
      return Ok(b);
    }

    /** `builder[index]`: list indexing, a negative index counting from the end. */
    function GetItem(index: int): (r: Result<Step>)
      reads this
      ensures r.Ok? <==> -|steps| <= index < |steps|
      ensures 0 <= index < |steps| ==> r == Ok(steps[index])
      ensures r.Err? ==> r.error == IndexError
    {
      if 0 <= index < |steps| then Ok(steps[index])
      else if -|steps| <= index < 0 then Ok(steps[|steps| + index])
      else Err(IndexError)
    }

    /** `iter(builder)` */
    method Iter() returns (it: StepsIterator)
      ensures fresh(it) && it.Valid() && it.steps == steps && it.position == 0
    {
      it := new StepsIterator(this);
    }
  }

  /** A negative index names the same step as the index `len(builder)` above it. */
  lemma NegativeIndexAgrees(b: StepsBuilder, i: int)
    requires 0 <= i < |b.steps|
    ensures b.GetItem(i - |b.steps|) == b.GetItem(i) == Ok(b.steps[i])
  {
  }

  // ---------------------------------------------------------------------------
  // StepsIterator

  /** An iterator over a builder's steps. */
  class StepsIterator {
    const steps: seq<Step>    // `__steps`
    var position: nat         // `__position`

    ghost predicate Valid()
      reads this
    {
      position <= |steps|
    }

    constructor (b: StepsBuilder)
      ensures Valid() && steps == b.steps && position == 0
    {
      steps := b.steps;
      position := 0;
    }

    /** `next(it)`: the next step, or None (`StopIteration`) once all are yielded. */
    method Next() returns (s: Option<Step>)
      requires Valid()
      modifies this
      ensures Valid()
      ensures old(position) < |steps| ==> s == Some(steps[old(position)]) && position == old(position) + 1
      ensures old(position) == |steps| ==> s == None && position == old(position)
    {
      if position < |steps| {
        s := Some(steps[position]);
        position := position + 1;
      } else {
        s := None;
      }
    }
  }

  /** Iterating to the end yields each remaining step exactly once, in order, then stops. */
  method Drain(it: StepsIterator) returns (out: seq<Step>)
    requires it.Valid()
    modifies it
    ensures out == old(it.steps[it.position..]) && it.position == |it.steps|
  {
    out := [];
    while true
      invariant it.Valid() && old(it.steps[it.position..]) == out + it.steps[it.position..]
      decreases |it.steps| - it.position
    {
      var s := it.Next();
      if s.None? {
        break;
      }
      out := out + [s.value];
    }
  }

  // ---------------------------------------------------------------------------
  // Stepper

  /**
   * What stands for a stepper's steps: nothing, a builder, or some other
   * object. For the `steps` argument of the constructor, `if steps:` decides:
   * a falsy argument (None, `[]`, ...) is `NoSteps`, and only a truthy one
   * that is not a builder is `OtherSteps`. For a `steps` class attribute,
   * `NoSteps` means that the class does not define one, and anything it
   * defines that is not a builder is `OtherSteps`, whatever its truthiness.
   */
  datatype StepsAttr = NoSteps | BuilderSteps(b: StepsBuilder) | OtherSteps

  /**
   * The `steps` a stepper uses: a `steps` class attribute shadows the
   * property; otherwise the property gives the builder passed to the
   * constructor, or raises NotImplementedError. It must be a builder.
   */
  function ChosenSteps(classSteps: StepsAttr, given: StepsAttr): (r: Result<StepsBuilder>)
    ensures r.Ok? <==> classSteps.BuilderSteps? || (classSteps.NoSteps? && given.BuilderSteps?)
    ensures r.Ok? ==> r.value == if classSteps.BuilderSteps? then classSteps.b else given.b
    ensures r == Err(NotImplementedError) <==> classSteps.NoSteps? && given.NoSteps?
    ensures r.Err? ==> r.error == NotImplementedError || r.error == TypeError
  {
    var s := if classSteps.NoSteps? then given else classSteps;
    if s.NoSteps? then Err(NotImplementedError)
    else if s.OtherSteps? then Err(TypeError)
    else Ok(s.b)
  }

  /** A stepper run: the result or the exception, and the calls made. */
  datatype StepRun = StepRun(result: Result<Value>, calls: seq<Invocation>)

  /**
   * The loop of `step_by_step` from step `k` on, with the data for the next
   * step, the last result and the name of the last step that returned
   * something: each step gets the data; an AttributeError or TypeError
   * becomes ConsistencyStepsException, any other exception passes; an empty
   * result raises NoDataForExecutionStepException unless empty results are
   * skipped, in which case the data stays; otherwise the result is the next
   * data. The last result is returned.
   */
  function RunFrom(steps: seq<Step>, k: nat, data: Value, result: Value, previous: string, ifEmpty: bool,
                   run: Invocation -> Reply): StepRun
    requires k <= |steps|
    decreases |steps| - k
  {
    if k == |steps| then StepRun(Ok(result), [])
    else
      var call := Execute(steps[k], data);
      var rest :=
        match run(call)
        case Raises(e) =>
          StepRun(Err(if e == AttributeError || e == TypeError then ConsistencyStepsException(steps[k].obj.name, previous) else e), [])
        case Returns(v) =>
          if !Truthy(v) && !ifEmpty then StepRun(Err(NoDataForExecutionStepException(steps[k].obj.name)), [])
          else if !Truthy(v) then RunFrom(steps, k + 1, data, v, previous, ifEmpty, run)
          else RunFrom(steps, k + 1, v, v, steps[k].obj.name, ifEmpty, run);
      StepRun(rest.result, [call] + rest.calls)
  }

  /** `step_by_step(*args)` over `steps` */
  function RunSpec(steps: seq<Step>, args: seq<Value>, ifEmpty: bool, run: Invocation -> Reply): StepRun
  {
    RunFrom(steps, 0, TupleV(args), NoneV, "start", ifEmpty, run)
  }

  /** A stepper: its steps and whether empty results are skipped. */
  class Stepper {
    const classSteps: StepsAttr      // a `steps` class attribute, which shadows the property
    const classFlag: Option<bool>    // an `is_execute_if_empty` class attribute, likewise
    var ownSteps: StepsAttr          // `__steps`
    var ownFlag: bool                // `__is_execute_if_empty`

    /** `self.steps` */
    function Steps(): Result<StepsBuilder>
      reads this
    {
      ChosenSteps(classSteps, ownSteps)
    }

    /** `self.is_execute_if_empty` */
    function IsExecuteIfEmpty(): bool
      reads this
    {
      if classFlag.Some? then classFlag.value else ownFlag
    }

    constructor Init(classSteps: StepsAttr, classFlag: Option<bool>)
      ensures this.classSteps == classSteps && this.classFlag == classFlag
      ensures ownSteps == NoSteps && !ownFlag
    {
      this.classSteps, this.classFlag := classSteps, classFlag;
      ownSteps, ownFlag := NoSteps, false;
    }

    /**
     * `Stepper(steps, is_execute_if_empty)` for a stepper class with the
     * class attributes `classSteps` and `classFlag`.
     */
    static method New(classSteps: StepsAttr, classFlag: Option<bool>, steps: StepsAttr, flag: Option<bool>)
      returns (r: Result<Stepper>)
      ensures var chosen := ChosenSteps(classSteps, steps);
        (r.Ok? <==> chosen.Ok?) && (r.Err? ==> r.error == chosen.error) &&
        (r.Ok? ==> (fresh(r.value) && r.value.Steps() == chosen &&
          r.value.IsExecuteIfEmpty() == if classFlag.Some? then classFlag.value else flag == Some(true)))
    {
      var s := new Stepper.Init(classSteps, classFlag);
      if !steps.NoSteps? {
        s.ownSteps := steps;
      }
      if flag.Some? {
        s.ownFlag := flag.value;
      }
      var chosen := s.Steps();
      if chosen.Err? {
        return Err(chosen.error);
      }
      return Ok(s);
    }

    /** `step_by_step(*args)`, iterating over the steps with their iterator. */
    method StepByStep(args: seq<Value>, run: Invocation -> Reply) returns (r: Result<Value>, calls: seq<Invocation>)
      requires Steps().Ok?
      ensures StepRun(r, calls) == RunSpec(Steps().value.steps, args, IsExecuteIfEmpty(), run)
    {
      var b := Steps().value;
      var ifEmpty := IsExecuteIfEmpty();
      var it := b.Iter();
      var stepData := TupleV(args);
      var previousStep := "start";
      var resultData := NoneV;
      calls := [];
      ghost var spec := RunSpec(b.steps, args, ifEmpty, run);
      while true
        invariant fresh(it) && it.Valid() && it.steps == b.steps
        invariant var rest := RunFrom(b.steps, it.position, stepData, resultData, previousStep, ifEmpty, run);
          spec == StepRun(rest.result, calls + rest.calls)
        decreases |it.steps| - it.position
      {
        ghost var k := it.position;
        var next := it.Next();
        if next.None? {
          assert calls + [] == calls;
          break;
        }
        var step := next.value;
        var call := Execute(step, stepData);
        ghost var rest := RunFrom(b.steps, k, stepData, resultData, previousStep, ifEmpty, run);
        ConcatAssoc(calls, [call], rest.calls[1..]);
        calls := calls + [call];
        match run(call) {
          case Raises(e) =>
            if e == AttributeError || e == TypeError {
              return Err(ConsistencyStepsException(step.obj.name, previousStep)), calls;
            }
            return Err(e), calls;
          case Returns(v) =>
            resultData := v;
            if !Truthy(v) && !ifEmpty {
              return Err(NoDataForExecutionStepException(step.obj.name)), calls;
            } else if Truthy(v) {
              stepData := v;
              previousStep := step.obj.name;
            }
        }
      }
      return Ok(resultData), calls;
    }
  }

  // ---------------------------------------------------------------------------
  // What a run does, call by call

  /** A call that lets the run go on: it returned something, or something empty while empty results are skipped. */
  predicate Passes(c: Invocation, ifEmpty: bool, run: Invocation -> Reply)
  {
    run(c).Returns? && (Truthy(run(c).v) || ifEmpty)
  }

  /** The data after call `c`: what it returned, when that is not empty; else the arguments it got, again. */
  predicate Follows(c: Invocation, d: Invocation, run: Invocation -> Reply)
  {
    run(c).Returns? &&
    d.args == (if Truthy(run(c).v) then Spread(run(c).v) else c.args)
  }

  /** The name of the last step before `calls` end that returned something, or `previous`. */
  function PreviousAfter(calls: seq<Invocation>, previous: string, run: Invocation -> Reply): string
  {
    if calls == [] then previous
    else PreviousAfter(calls[1..], if run(calls[0]).Returns? && Truthy(run(calls[0]).v) then calls[0].fn.name else previous, run)
  }

  /**
   * What a run from step `k` does, call by call: it calls steps `k`,
   * `k + 1`, ... in order, each with its kept keywords; the first gets the
   * data; each next one gets what the one before returned, or the same data
   * when that was empty and empty results are skipped. It stops at the first
   * call that raises or (when not skipped) returns something empty;
   * otherwise it calls every step and returns the last result, empty or not.
   */
  ghost predicate Traced(R: StepRun, steps: seq<Step>, k: nat, data: Value, ifEmpty: bool, run: Invocation -> Reply)
    requires k < |steps|
  {
    var n := |R.calls|;
    1 <= n <= |steps| - k &&
    (forall j :: 0 <= j < n ==> R.calls[j].fn == steps[k + j].obj && R.calls[j].kwargs == steps[k + j].kwargs) &&
    R.calls[0].args == Spread(data) &&
    (forall j :: 0 <= j < n - 1 ==> Passes(R.calls[j], ifEmpty, run) && Follows(R.calls[j], R.calls[j + 1], run)) &&
    (R.result.Ok? <==> n == |steps| - k && Passes(R.calls[n - 1], ifEmpty, run)) &&
    (R.result.Ok? ==> R.result.value == run(R.calls[n - 1]).v)
  }

  /** Every run from step `k` is traced as `Traced` says. */
  lemma {:induction false} RunTrace(steps: seq<Step>, k: nat, data: Value, result: Value, previous: string, ifEmpty: bool,
                                    run: Invocation -> Reply)
    requires k < |steps|
    decreases |steps| - k
    ensures Traced(RunFrom(steps, k, data, result, previous, ifEmpty, run), steps, k, data, ifEmpty, run)
  {
    var call := Execute(steps[k], data);
    if Passes(call, ifEmpty, run) && k + 1 < |steps| {
      var v := run(call).v;
      RunTrace(steps, k + 1, if Truthy(v) then v else data, v, if Truthy(v) then steps[k].obj.name else previous, ifEmpty, run);
      RunTraceStep(steps, k, data, result, previous, ifEmpty, run);
    } else {
      RunFromStops(steps, k, data, result, previous, ifEmpty, run);
    }
  }

  /** A passing step followed by a traced run is a traced run. */
  lemma RunTraceStep(steps: seq<Step>, k: nat, data: Value, result: Value, previous: string, ifEmpty: bool,
                     run: Invocation -> Reply)
    requires k + 1 < |steps| && Passes(Execute(steps[k], data), ifEmpty, run)
    requires var v := run(Execute(steps[k], data)).v;
      Traced(RunFrom(steps, k + 1, if Truthy(v) then v else data, v, if Truthy(v) then steps[k].obj.name else previous, ifEmpty, run),
             steps, k + 1, if Truthy(v) then v else data, ifEmpty, run)
    ensures Traced(RunFrom(steps, k, data, result, previous, ifEmpty, run), steps, k, data, ifEmpty, run)
  {
    var call := Execute(steps[k], data);
    var v := run(call).v;
    var data' := if Truthy(v) then v else data;
    var R' := RunFrom(steps, k + 1, data', v, if Truthy(v) then steps[k].obj.name else previous, ifEmpty, run);
    RunFromPasses(steps, k, data, result, previous, ifEmpty, run);
    var R := StepRun(R'.result, [call] + R'.calls);
    forall j | 0 <= j < |R.calls|
      ensures R.calls[j].fn == steps[k + j].obj && R.calls[j].kwargs == steps[k + j].kwargs
    {
      if j > 0 {
        assert R.calls[j] == R'.calls[j - 1];
      }
    }
    forall j | 0 <= j < |R.calls| - 1
      ensures Passes(R.calls[j], ifEmpty, run) && Follows(R.calls[j], R.calls[j + 1], run)
    {
      assert R.calls[j + 1] == R'.calls[j];
      if j > 0 {
        assert R.calls[j] == R'.calls[j - 1];
      }
    }
    assert R.calls[|R.calls| - 1] == R'.calls[|R'.calls| - 1];
    assert Traced(R, steps, k, data, ifEmpty, run);
  }

  /**
   * How a run that ends with `last` fails: an AttributeError or TypeError
   * becomes ConsistencyStepsException naming the step and `previous`, the
   * last step before it that returned something; any other exception
   * passes unchanged; an empty result, when not skipped, raises
   * NoDataForExecutionStepException naming the step.
   */
  predicate FailsAt(error: Error, last: Invocation, previous: string, ifEmpty: bool, run: Invocation -> Reply)
  {
    match run(last)
    case Raises(e) =>
      error == if e == AttributeError || e == TypeError then ConsistencyStepsException(last.fn.name, previous) else e
    case Returns(v) => !Truthy(v) && !ifEmpty && error == NoDataForExecutionStepException(last.fn.name)
  }

  /** A step that passes hands its result, or the same data when it is empty, to the run from the next step. */
  lemma RunFromPasses(steps: seq<Step>, k: nat, data: Value, result: Value, previous: string, ifEmpty: bool,
                      run: Invocation -> Reply)
    requires k + 1 < |steps| && Passes(Execute(steps[k], data), ifEmpty, run)
    ensures var call := Execute(steps[k], data);
      var v := run(call).v;
      var R' := RunFrom(steps, k + 1, if Truthy(v) then v else data, v,
                        if Truthy(v) then steps[k].obj.name else previous, ifEmpty, run);
      RunFrom(steps, k, data, result, previous, ifEmpty, run) == StepRun(R'.result, [call] + R'.calls)
  {
  }

  /** A step that does not pass, or the last step, ends the run: one call, and its result or failure. */
  lemma RunFromStops(steps: seq<Step>, k: nat, data: Value, result: Value, previous: string, ifEmpty: bool,
                     run: Invocation -> Reply)
    requires k < |steps| && !(Passes(Execute(steps[k], data), ifEmpty, run) && k + 1 < |steps|)
    ensures var call := Execute(steps[k], data);
      var R := RunFrom(steps, k, data, result, previous, ifEmpty, run);
      R.calls == [call] &&
      (R.result.Ok? <==> Passes(call, ifEmpty, run)) &&
      (R.result.Ok? ==> R.result.value == run(call).v) &&
      (R.result.Err? ==> FailsAt(R.result.error, call, previous, ifEmpty, run))
  {
    var call := Execute(steps[k], data);
    if Passes(call, ifEmpty, run) {
      var v := run(call).v;
      assert RunFrom(steps, k + 1, if Truthy(v) then v else data, v,
                     if Truthy(v) then steps[k].obj.name else previous, ifEmpty, run) == StepRun(Ok(v), []);
    }
  }

  /** `PreviousAfter` over one more call at the front. */
  lemma PreviousAfterCons(call: Invocation, rest: seq<Invocation>, previous: string, run: Invocation -> Reply)
    ensures PreviousAfter([call] + rest, previous, run) ==
      PreviousAfter(rest, if run(call).Returns? && Truthy(run(call).v) then call.fn.name else previous, run)
  {
    assert ([call] + rest)[1..] == rest;
  }

  /**
   * A run that fails, fails at its last call as `FailsAt` says, with the
   * last step before that call that returned something.
   */
  ghost predicate FailureExplained(R: StepRun, previous: string, ifEmpty: bool, run: Invocation -> Reply)
  {
    var n := |R.calls|;
    n >= 1 && (R.result.Err? ==>
      FailsAt(R.result.error, R.calls[n - 1], PreviousAfter(R.calls[..n - 1], previous, run), ifEmpty, run))
  }

  /** Every run from step `k` that fails is explained by `FailureExplained`. */
  lemma {:induction false} RunFailure(steps: seq<Step>, k: nat, data: Value, result: Value, previous: string, ifEmpty: bool,
                                      run: Invocation -> Reply)
    requires k < |steps|
    decreases |steps| - k
    ensures FailureExplained(RunFrom(steps, k, data, result, previous, ifEmpty, run), previous, ifEmpty, run)
  {
    var call := Execute(steps[k], data);
    if Passes(call, ifEmpty, run) && k + 1 < |steps| {
      var v := run(call).v;
      RunFailure(steps, k + 1, if Truthy(v) then v else data, v, if Truthy(v) then steps[k].obj.name else previous, ifEmpty, run);
      RunFailureStep(steps, k, data, result, previous, ifEmpty, run);
    } else {
      RunFromStops(steps, k, data, result, previous, ifEmpty, run);
      var R := RunFrom(steps, k, data, result, previous, ifEmpty, run);
      assert R.calls[..0] == [];
    }
  }

  /** A passing step followed by an explained run is an explained run. */
  lemma RunFailureStep(steps: seq<Step>, k: nat, data: Value, result: Value, previous: string, ifEmpty: bool,
                       run: Invocation -> Reply)
    requires k + 1 < |steps| && Passes(Execute(steps[k], data), ifEmpty, run)
    requires var v := run(Execute(steps[k], data)).v;
      var previous' := if Truthy(v) then steps[k].obj.name else previous;
      FailureExplained(RunFrom(steps, k + 1, if Truthy(v) then v else data, v, previous', ifEmpty, run), previous', ifEmpty, run)
    ensures FailureExplained(RunFrom(steps, k, data, result, previous, ifEmpty, run), previous, ifEmpty, run)
  {
    var call := Execute(steps[k], data);
    var v := run(call).v;
    var previous' := if Truthy(v) then steps[k].obj.name else previous;
    var R' := RunFrom(steps, k + 1, if Truthy(v) then v else data, v, previous', ifEmpty, run);
    RunFromPasses(steps, k, data, result, previous, ifEmpty, run);
    var R := StepRun(R'.result, [call] + R'.calls);
    var n := |R.calls|;
    assert R.calls[n - 1] == R'.calls[n - 2];
    assert R.calls[..n - 1] == [call] + R'.calls[..n - 2];
    PreviousAfterCons(call, R'.calls[..n - 2], previous, run);
  }
}
