// Signature checks of the stepper (orch_serv/stepper/utils.py): rendering a
// parameter list, the return types a step hands on, the keyword check a step
// makes when it is created, and the consistency check between two steps.
// Signatures are data here: what `inspect.signature` would report.

module StepperUtils {
  import opened Common

  // ---------------------------------------------------------------------------
  // Signatures

  /** `inspect.Parameter.kind`. */
  datatype ParamKind = PositionalOnly | PositionalOrKeyword | VarPositional | KeywordOnly | VarKeyword

  /**
   * A type annotation: none (`inspect._empty`), `NoneType`, a named type,
   * a tuple type (`Tuple[...]`) or a union (`Union[...]`, `Optional[...]`).
   */
  datatype Ann = Missing | NoneType | Named(name: string) | TupleOf(items: seq<Ann>) | UnionOf(members: seq<Ann>)

  /**
   * `a == b` on annotations as `typing` compares them: a union equals a
   * union with the same members in any order (`Union.__eq__` compares the
   * sets of its arguments), a tuple type compares its members in order, and
   * anything else is equal only to itself.
   */
  predicate SameAnn(a: Ann, b: Ann)
    decreases a
  {
    match a
    case UnionOf(ms) =>
      b.UnionOf? &&
      (forall x :: x in ms ==> exists y :: y in b.members && SameAnn(x, y)) &&
      (forall y :: y in b.members ==> exists x :: x in ms && SameAnn(x, y))
    case TupleOf(xs) =>
      b.TupleOf? && |xs| == |b.items| && forall i :: 0 <= i < |xs| ==> SameAnn(xs[i], b.items[i])
    case _ => a == b
  }

  /** An annotation is equal to itself. */
  lemma {:induction false} SameAnnReflexive(a: Ann)
    ensures SameAnn(a, a)
    decreases a
  {
    match a
    case UnionOf(ms) =>
      forall x | x in ms
        ensures SameAnn(x, x)
      {
        SameAnnReflexive(x);
      }
    case TupleOf(xs) =>
      forall i | 0 <= i < |xs|
        ensures SameAnn(xs[i], xs[i])
      {
        SameAnnReflexive(xs[i]);
      }
    case _ =>
  }

  /** The order of a union's members does not matter: `Union[int, str] == Union[str, int]`. */
  lemma UnionOrderIgnored(x: Ann, y: Ann)
    ensures SameAnn(UnionOf([x, y]), UnionOf([y, x]))
  {
    var ms, ns := [x, y], [y, x];
    SameAnnReflexive(x);
    SameAnnReflexive(y);
    forall a | a in ms
      ensures exists b :: b in ns && SameAnn(a, b)
    {
      assert a in ns && SameAnn(a, a);
    }
    forall b | b in ns
      ensures exists a :: a in ms && SameAnn(a, b)
    {
      assert b in ms && SameAnn(b, b);
    }
  }

  /** A parameter: its name, kind, annotation, whether it has a default, and `str(param)`. */
  datatype Param = Param(name: string, kind: ParamKind, annotation: Ann, hasDefault: bool, text: string)

  /** A callable as `inspect.signature` sees it: its `__name__`, parameters and return annotation. */
  datatype Callable = Callable(name: string, params: seq<Param>, returnType: Ann)

  // ---------------------------------------------------------------------------
  // format_signature_parameters

  /** What `format_signature_parameters` emits: a parameter, the `*` separator or the `/` separator. */
  datatype Piece = Text(p: Param) | Star | Slash

  function Render(x: Piece): string
  {
    match x
    case Text(p) => p.text
    case Star => "*"
    case Slash => "/"
  }

  function Rendered(xs: seq<Piece>): (r: seq<string>)
    ensures |r| == |xs| && forall i :: 0 <= i < |xs| ==> r[i] == Render(xs[i])
  {
    seq(|xs|, i requires 0 <= i < |xs| => Render(xs[i]))
  }

  /**
   * The pieces the loop of `format_signature_parameters` emits for `ps[k..]`
   * with its flags `pos` (positional-only parameters came just before) and
   * `kw` (a `*` may still be needed), and the closing `/`.
   */
  function PiecesFrom(ps: seq<Param>, k: nat, pos: bool, kw: bool): seq<Piece>
    requires k <= |ps|
    decreases |ps| - k
  {
    if k == |ps| then (if pos then [Slash] else [])
    else
      var kind := ps[k].kind;
      var slash := if kind != PositionalOnly && pos then [Slash] else [];
      var star := if kind == KeywordOnly && kw then [Star] else [];
      slash + star + [Text(ps[k])] +
        PiecesFrom(ps, k + 1, kind == PositionalOnly, kw && kind != VarPositional && kind != KeywordOnly)
  }

  function Pieces(ps: seq<Param>): seq<Piece>
  {
    PiecesFrom(ps, 0, false, true)
  }

  /** `format_signature_parameters(parameters)`, with `str(param)` given by each parameter. */
  method FormatSignatureParameters(ps: seq<Param>) returns (s: string)
    ensures s == Join(Rendered(Pieces(ps)), ", ")
  {
    var result: seq<string> := [];
    var renderPosOnlySeparator := false;
    var renderKwOnlySeparator := true;
    var k := 0;
    while k < |ps|
      invariant 0 <= k <= |ps|
      invariant Rendered(Pieces(ps)) == result + Rendered(PiecesFrom(ps, k, renderPosOnlySeparator, renderKwOnlySeparator))
      decreases |ps| - k
    {
      RenderedStep(ps, k, renderPosOnlySeparator, renderKwOnlySeparator);
      ghost var pos0, kw0 := renderPosOnlySeparator, renderKwOnlySeparator;
      var kind := ps[k].kind;
      var slash: seq<string> := [];
      if kind == PositionalOnly {
        renderPosOnlySeparator := true;
      } else if renderPosOnlySeparator {
        slash := ["/"];
        renderPosOnlySeparator := false;
      }
      var star: seq<string> := [];
      if kind == VarPositional {
        renderKwOnlySeparator := false;
      } else if kind == KeywordOnly && renderKwOnlySeparator {
        star := ["*"];
        renderKwOnlySeparator := false;
      }
      assert renderPosOnlySeparator == (kind == PositionalOnly);
      assert renderKwOnlySeparator == (kw0 && kind != VarPositional && kind != KeywordOnly);
      ghost var rest := Rendered(PiecesFrom(ps, k + 1, renderPosOnlySeparator, renderKwOnlySeparator));
      var chunk := slash + star + [ps[k].text];
      assert Rendered(PiecesFrom(ps, k, pos0, kw0)) == chunk + rest;
      ConcatAssoc(result, chunk, rest);
      result := result + chunk;
      k := k + 1;
    }
    assert Rendered(PiecesFrom(ps, k, renderPosOnlySeparator, renderKwOnlySeparator)) ==
      (if renderPosOnlySeparator then ["/"] else []);
    if renderPosOnlySeparator {
      result := result + ["/"];
    } else {
      assert result + [] == result;
    }
    s := Join(result, ", ");
  }

  /** One step of the loop, on rendered pieces. */
  lemma RenderedStep(ps: seq<Param>, k: nat, pos: bool, kw: bool)
    requires k < |ps|
    ensures var kind := ps[k].kind;
      Rendered(PiecesFrom(ps, k, pos, kw)) ==
        (if kind != PositionalOnly && pos then ["/"] else []) +
        (if kind == KeywordOnly && kw then ["*"] else []) + [ps[k].text] +
        Rendered(PiecesFrom(ps, k + 1, kind == PositionalOnly, kw && kind != VarPositional && kind != KeywordOnly))
  {
    var kind := ps[k].kind;
    var a := if kind != PositionalOnly && pos then [Slash] else [];
    var b := if kind == KeywordOnly && kw then [Star] else [];
    var rest := PiecesFrom(ps, k + 1, kind == PositionalOnly, kw && kind != VarPositional && kind != KeywordOnly);
    assert PiecesFrom(ps, k, pos, kw) == a + b + [Text(ps[k])] + rest;
    RenderedAppend(a + b + [Text(ps[k])], rest);
    RenderedAppend(a + b, [Text(ps[k])]);
    RenderedAppend(a, b);
    assert Rendered(a) == (if kind != PositionalOnly && pos then ["/"] else []);
    assert Rendered(b) == (if kind == KeywordOnly && kw then ["*"] else []);
    assert Rendered([Text(ps[k])]) == [ps[k].text];
  }

  lemma RenderedAppend(xs: seq<Piece>, ys: seq<Piece>)
    ensures Rendered(xs + ys) == Rendered(xs) + Rendered(ys)
  {
    assert forall i :: 0 <= i < |xs + ys| ==> Rendered(xs + ys)[i] == (Rendered(xs) + Rendered(ys))[i];
  }

  /** A `/` goes before parameter `k` exactly when it ends a run of positional-only parameters. */
  predicate SlashBefore(ps: seq<Param>, k: nat)
    requires k < |ps|
  {
    0 < k && ps[k - 1].kind == PositionalOnly && ps[k].kind != PositionalOnly
  }

  /** A `*` goes before parameter `k` exactly when it is the first keyword-only parameter and no `*args` came before. */
  predicate StarBefore(ps: seq<Param>, k: nat)
    requires k < |ps|
  {
    ps[k].kind == KeywordOnly &&
    forall i :: 0 <= i < k ==> ps[i].kind != VarPositional && ps[i].kind != KeywordOnly
  }

  /**
   * The rendering, parameter by parameter: each parameter in order, preceded
   * by a `/` when it ends a run of positional-only parameters and by a `*`
   * when it is the first keyword-only parameter with no `*args` before it;
   * a final `/` when the last parameter is positional-only.
   */
  function Spelled(ps: seq<Param>, k: nat): seq<Piece>
    requires k <= |ps|
    decreases |ps| - k
  {
    if k == |ps| then (if 0 < k && ps[k - 1].kind == PositionalOnly then [Slash] else [])
    else
      (if SlashBefore(ps, k) then [Slash] else []) + (if StarBefore(ps, k) then [Star] else []) +
      [Text(ps[k])] + Spelled(ps, k + 1)
  }

  /** The flags of the loop at parameter `k` are what the parameters before `k` make them. */
  lemma {:induction false} PiecesFromSpelled(ps: seq<Param>, k: nat)
    requires k <= |ps|
    decreases |ps| - k
    ensures PiecesFrom(ps, k, 0 < k && ps[k - 1].kind == PositionalOnly,
      forall i :: 0 <= i < k ==> ps[i].kind != VarPositional && ps[i].kind != KeywordOnly) == Spelled(ps, k)
  {
    if k < |ps| {
      PiecesFromSpelled(ps, k + 1);
      var kind := ps[k].kind;
      var kw := forall i :: 0 <= i < k ==> ps[i].kind != VarPositional && ps[i].kind != KeywordOnly;
      var kw' := forall i :: 0 <= i < k + 1 ==> ps[i].kind != VarPositional && ps[i].kind != KeywordOnly;
      assert kw' == (kw && kind != VarPositional && kind != KeywordOnly);
    }
  }

  /** `format_signature_parameters` spells the parameters as `Spelled` describes. */
  lemma PiecesAreSpelled(ps: seq<Param>)
    ensures Pieces(ps) == Spelled(ps, 0)
  {
    PiecesFromSpelled(ps, 0);
  }

  /** The parameters among the pieces, in order. */
  function Texts(xs: seq<Piece>): seq<Param>
  {
    if xs == [] then [] else (if xs[0].Text? then [xs[0].p] else []) + Texts(xs[1..])
  }

  lemma {:induction false} TextsAppend(xs: seq<Piece>, ys: seq<Piece>)
    ensures Texts(xs + ys) == Texts(xs) + Texts(ys)
    decreases |xs|
  {
    if xs != [] {
      var h := if xs[0].Text? then [xs[0].p] else [];
      assert (xs + ys)[0] == xs[0] && (xs + ys)[1..] == xs[1..] + ys;
      TextsAppend(xs[1..], ys);
      calc {
        Texts(xs + ys);
        h + Texts(xs[1..] + ys);
        h + (Texts(xs[1..]) + Texts(ys));
        (h + Texts(xs[1..])) + Texts(ys);
        Texts(xs) + Texts(ys);
      }
    } else {
      assert xs + ys == ys;
    }
  }

  lemma TextsOne(x: Piece)
    ensures Texts([x]) == if x.Text? then [x.p] else []
  {
    assert [x][1..] == [];
  }

  lemma SliceCons<T>(s: seq<T>, k: nat)
    requires k < |s|
    ensures s[k..] == [s[k]] + s[k + 1..]
  {
  }

  /** Separators alone hold no parameter. */
  lemma {:induction false} TextsNone(xs: seq<Piece>)
    requires forall i :: 0 <= i < |xs| ==> !xs[i].Text?
    ensures Texts(xs) == []
    decreases |xs|
  {
    if xs != [] {
      TextsNone(xs[1..]);
    }
  }

  /** Every parameter is rendered exactly once, in order; the rest are separators. */
  lemma {:induction false} PiecesKeepParams(ps: seq<Param>, k: nat, pos: bool, kw: bool)
    requires k <= |ps|
    decreases |ps| - k
    ensures Texts(PiecesFrom(ps, k, pos, kw)) == ps[k..]
  {
    if k < |ps| {
      var kind := ps[k].kind;
      var a := if kind != PositionalOnly && pos then [Slash] else [];
      var b := if kind == KeywordOnly && kw then [Star] else [];
      var rest := PiecesFrom(ps, k + 1, kind == PositionalOnly, kw && kind != VarPositional && kind != KeywordOnly);
      PiecesKeepParams(ps, k + 1, kind == PositionalOnly, kw && kind != VarPositional && kind != KeywordOnly);
      var ab := a + b;
      assert PiecesFrom(ps, k, pos, kw) == ab + [Text(ps[k])] + rest;
      TextsNone(ab);
      TextsAppend(ab + [Text(ps[k])], rest);
      TextsAppend(ab, [Text(ps[k])]);
      TextsOne(Text(ps[k]));
      SliceCons(ps, k);
    } else {
      assert Texts([Slash]) == [];
      assert PiecesFrom(ps, k, pos, kw) == [] || PiecesFrom(ps, k, pos, kw) == [Slash];
    }
  }

  /** At most one `*` is emitted: only the first keyword-only parameter can get one. */
  lemma AtMostOneStar(ps: seq<Param>, i: nat, j: nat)
    requires i < j < |ps| && StarBefore(ps, i)
    ensures !StarBefore(ps, j)
  {
  }

  // ---------------------------------------------------------------------------
  // Annotations

  /** `is_optional(field)`: a `Union` one of whose members is `NoneType`. */
  predicate IsOptional(a: Ann)
    ensures IsOptional(a) ==> a.UnionOf? && exists i :: 0 <= i < |a.members| && a.members[i] == NoneType
  {
    a.UnionOf? && NoneType in a.members
  }

  /**
   * `Optional[X]`, written with `NoneType` first or last, is optional; a
   * tuple type holding `NoneType`, and `NoneType` alone, are not.
   */
  lemma OptionalForms(x: Ann)
    ensures IsOptional(UnionOf([x, NoneType])) && IsOptional(UnionOf([NoneType, x]))
    ensures !IsOptional(TupleOf([x, NoneType])) && !IsOptional(NoneType)
  {
    assert UnionOf([x, NoneType]).members[1] == NoneType;
    assert UnionOf([NoneType, x]).members[0] == NoneType;
  }

  /** What `get_returned_value` gives: the member types of a tuple annotation, or the annotation itself. */
  datatype Returned = Several(anns: seq<Ann>) | One(ann: Ann)

  /** `get_returned_value(obj)` */
  function ReturnedValue(fn: Callable): (r: Returned)
    ensures fn.returnType.TupleOf? <==> r.Several?
    ensures r.Several? ==> r.anns == fn.returnType.items
    ensures r.One? ==> r.ann == fn.returnType
  {
    if fn.returnType.TupleOf? then Several(fn.returnType.items) else One(fn.returnType)
  }

  /**
   * The types `validate_data_consistency` checks the parameters against, as
   * written: a tuple's members, else the annotation; for an optional
   * annotation, the first union member that `is not None` -- and every
   * member, `NoneType` included, is not `None`, so it is the first member.
   */
  function DataToCheckAsWritten(ret: Returned): seq<Ann>
  {
    match ret
    case Several(anns) => anns
    case One(a) => if IsOptional(a) && |a.members| > 0 then [a.members[0]] else [a]
  }

  /** The position of the first member of `ms` that is not `NoneType` (`|ms|` when there is none). */
  function FirstNotNone(ms: seq<Ann>): (j: nat)
    ensures j <= |ms| && (j < |ms| ==> ms[j] != NoneType)
    ensures forall i :: 0 <= i < j ==> ms[i] == NoneType
  {
    if ms == [] then 0 else if ms[0] != NoneType then 0 else 1 + FirstNotNone(ms[1..])
  }

  /**
   * The types `validate_data_consistency` checks the parameters against, as
   * intended: for an optional annotation, its first member other than
   * `NoneType`.
   */
  function DataToCheck(ret: Returned): seq<Ann>
  {
    match ret
    case Several(anns) => anns
    case One(a) =>
      if IsOptional(a) && FirstNotNone(a.members) < |a.members| then [a.members[FirstNotNone(a.members)]] else [a]
  }

  /** An optional previous return is checked as its first member other than `NoneType`. */
  lemma OptionalCheckedAsItsType(a: Ann)
    requires IsOptional(a) && exists i :: 0 <= i < |a.members| && a.members[i] != NoneType
    ensures |DataToCheck(One(a))| == 1
    ensures var t := DataToCheck(One(a))[0];
      t != NoneType && t in a.members &&
      exists j :: 0 <= j < |a.members| && a.members[j] == t && forall i :: 0 <= i < j ==> a.members[i] == NoneType
  {
  }

  // ---------------------------------------------------------------------------
  // validate_data_step

  function ParamNames(ps: seq<Param>): set<string>
  {
    set p | p in ps :: p.name
  }

  /** Whether the callable takes `**kwargs`. */
  predicate HasVarKeyword(ps: seq<Param>)
  {
    exists i :: 0 <= i < |ps| && ps[i].kind == VarKeyword
  }

  /** `is_exist_keyword_variable(obj)` */
  method IsExistKeywordVariable(fn: Callable) returns (b: bool)
    ensures b <==> HasVarKeyword(fn.params)
  {
    var k := 0;
    while k < |fn.params|
      invariant 0 <= k <= |fn.params|
      invariant forall i :: 0 <= i < k ==> fn.params[i].kind != VarKeyword
      decreases |fn.params| - k
    {
      if fn.params[k].kind == VarKeyword {
        return true;
      }
      k := k + 1;
    }
    return false;
  }

  /** `validate_data_step(obj, kwargs)`: keyword arguments the callable does not name need a `**kwargs`. */
  function ValidateDataStep(fn: Callable, kwargs: set<string>): Outcome
  {
    if kwargs - ParamNames(fn.params) != {} && !HasVarKeyword(fn.params) then Fail(ExtraAttributeError) else Pass
  }

  /** ExtraAttributeError is raised exactly when some keyword names no parameter and there is no `**kwargs`. */
  lemma ValidateDataStepIff(fn: Callable, kwargs: set<string>)
    ensures ValidateDataStep(fn, kwargs).Fail? <==>
      (exists key :: key in kwargs && (forall i :: 0 <= i < |fn.params| ==> fn.params[i].name != key)) &&
      (forall i :: 0 <= i < |fn.params| ==> fn.params[i].kind != VarKeyword)
    ensures ValidateDataStep(fn, kwargs).Fail? ==> ValidateDataStep(fn, kwargs).error == ExtraAttributeError
  {
    if ValidateDataStep(fn, kwargs).Fail? {
      var key :| key in kwargs - ParamNames(fn.params);
      forall i | 0 <= i < |fn.params|
        ensures fn.params[i].name != key
      {
        assert fn.params[i] in fn.params;
      }
    }
    if (exists key :: key in kwargs && (forall i :: 0 <= i < |fn.params| ==> fn.params[i].name != key)) {
      var key :| key in kwargs && (forall i :: 0 <= i < |fn.params| ==> fn.params[i].name != key);
      assert forall p :: p in fn.params ==> p.name != key;
      assert key in kwargs - ParamNames(fn.params);
    }
  }

  // ---------------------------------------------------------------------------
  // validate_data_consistency

  /** An error `validate_data_consistency` records. */
  datatype Issue =
    | Mismatch(expected: Ann, passed: Ann)   // parameter annotation vs. the type handed on
    | NoValue(param: string)                 // nothing supplies the parameter

  /**
   * Whether parameter `i` is fine: one of the first `|data|` parameters
   * must carry no annotation or the type handed on (as `typing` compares
   * them); a later one
   * must be given as a keyword, have a default or be `**kwargs`.
   */
  predicate ParamFits(p: Param, i: nat, data: seq<Ann>, kwargs: set<string>)
  {
    if i < |data| then p.annotation == Missing || SameAnn(data[i], p.annotation)
    else p.name in kwargs || p.hasDefault || p.kind == VarKeyword
  }

  /** The errors recorded for parameters `k..`, in order. */
  function IssuesFrom(ps: seq<Param>, k: nat, data: seq<Ann>, kwargs: set<string>): seq<Issue>
    requires k <= |ps|
    decreases |ps| - k
  {
    if k == |ps| then []
    else
      var p := ps[k];
      var here :=
        if k < |data| then (if p.annotation != Missing && !SameAnn(data[k], p.annotation) then [Mismatch(p.annotation, data[k])] else [])
        else if p.name in kwargs || p.hasDefault || p.kind == VarKeyword then []
        else [NoValue(p.name)];
      here + IssuesFrom(ps, k + 1, data, kwargs)
  }

  /** No error is recorded exactly when every parameter fits. */
  lemma {:induction false} IssuesFromEmptyIff(ps: seq<Param>, k: nat, data: seq<Ann>, kwargs: set<string>)
    requires k <= |ps|
    decreases |ps| - k
    ensures IssuesFrom(ps, k, data, kwargs) == [] <==> forall i :: k <= i < |ps| ==> ParamFits(ps[i], i, data, kwargs)
  {
    if k < |ps| {
      IssuesFromEmptyIff(ps, k + 1, data, kwargs);
    }
  }

  /** Every recorded error names a parameter that does not fit; an unfitting parameter records one. */
  lemma {:induction false} IssuesFromCount(ps: seq<Param>, k: nat, data: seq<Ann>, kwargs: set<string>)
    requires k <= |ps|
    decreases |ps| - k
    ensures |IssuesFrom(ps, k, data, kwargs)| == |set i | k <= i < |ps| && !ParamFits(ps[i], i, data, kwargs)|
  {
    if k < |ps| {
      IssuesFromCount(ps, k + 1, data, kwargs);
      var later := set i | k + 1 <= i < |ps| && !ParamFits(ps[i], i, data, kwargs);
      var all := set i | k <= i < |ps| && !ParamFits(ps[i], i, data, kwargs);
      if ParamFits(ps[k], k, data, kwargs) {
        assert all == later;
      } else {
        assert all == later + {k};
      }
    }
  }

  /** The errors `validate_data_consistency(obj, previous, kwargs)` collects. */
  function ConsistencyIssues(fn: Callable, previous: Returned, kwargs: set<string>): seq<Issue>
  {
    IssuesFrom(fn.params, 0, DataToCheck(previous), kwargs)
  }

  /**
   * `validate_data_consistency(obj, previous, kwargs)`: the loop over the
   * parameters collects the errors, and DataConsistencyError is raised when
   * there is at least one. Missing annotations only warn; warnings are not
   * part of this model.
   */
  method ValidateDataConsistency(fn: Callable, previous: Returned, kwargs: set<string>) returns (o: Outcome, issues: seq<Issue>)
    ensures issues == ConsistencyIssues(fn, previous, kwargs)
    ensures o.Fail? <==> |issues| > 0
    ensures o.Fail? ==> o.error == DataConsistencyError
  {
    var data := DataToCheck(previous);
    issues := [];
    var k := 0;
    while k < |fn.params|
      invariant 0 <= k <= |fn.params|
      invariant IssuesFrom(fn.params, 0, data, kwargs) == issues + IssuesFrom(fn.params, k, data, kwargs)
      decreases |fn.params| - k
    {
      var p := fn.params[k];
      var here: seq<Issue> := [];
      if k < |data| {
        if p.annotation != Missing && !SameAnn(data[k], p.annotation) {
          here := [Mismatch(p.annotation, data[k])];
        }
      } else if !(p.name in kwargs || p.hasDefault || p.kind == VarKeyword) {
        here := [NoValue(p.name)];
      }
      ghost var rest := IssuesFrom(fn.params, k + 1, data, kwargs);
      assert IssuesFrom(fn.params, k, data, kwargs) == here + rest;
      ConcatAssoc(issues, here, rest);
      issues := issues + here;
      k := k + 1;
    }
    o := if |issues| > 0 then Fail(DataConsistencyError) else Pass;
  }

  /** DataConsistencyError is raised exactly when some parameter does not fit. */
  lemma ConsistencyFailsIff(fn: Callable, previous: Returned, kwargs: set<string>)
    ensures ConsistencyIssues(fn, previous, kwargs) == [] <==>
      forall i :: 0 <= i < |fn.params| ==> ParamFits(fn.params[i], i, DataToCheck(previous), kwargs)
  {
    IssuesFromEmptyIff(fn.params, 0, DataToCheck(previous), kwargs);
  }

  // ---------------------------------------------------------------------------
  // The `Optional` check as written

  /** The errors collected with the data to check as written. */
  function ConsistencyIssuesAsWritten(fn: Callable, previous: Returned, kwargs: set<string>): seq<Issue>
  {
    IssuesFrom(fn.params, 0, DataToCheckAsWritten(previous), kwargs)
  }

  /**
   * A step returning `Union[None, int]` followed by a step taking `val: int`:
   * as written the `int` parameter is checked against `NoneType` and an
   * error is recorded; as intended it is checked against `int` and passes.
   */
  lemma NoneFirstOptionalRejected()
    ensures var ret := One(UnionOf([NoneType, Named("int")]));
      var next := Callable("next", [Param("val", PositionalOrKeyword, Named("int"), false, "val: int")], NoneType);
      ConsistencyIssuesAsWritten(next, ret, {}) == [Mismatch(Named("int"), NoneType)] &&
      ConsistencyIssues(next, ret, {}) == []
  {
    var ms := [NoneType, Named("int")];
    assert FirstNotNone(ms) == 1 by {
      assert ms[1..] == [Named("int")];
    }
  }

  /**
   * A step returning `Union[X, Y]` followed by a step taking
   * `val: Union[Y, X]` passes the check: the two unions are equal.
   */
  lemma ReorderedUnionAccepted(x: Ann, y: Ann, p: Param)
    requires x != NoneType && y != NoneType
    requires p.annotation == UnionOf([y, x])
    ensures ConsistencyIssues(Callable("next", [p], NoneType), One(UnionOf([x, y])), {}) == []
  {
    var ret := One(UnionOf([x, y]));
    assert DataToCheck(ret) == [UnionOf([x, y])] by {
      assert NoneType !in [x, y];
    }
    UnionOrderIgnored(x, y);
    assert ParamFits(p, 0, [UnionOf([x, y])], {});
    IssuesFromEmptyIff([p], 0, [UnionOf([x, y])], {});
  }

  /** For a union that lists its other member first (`Optional[X]`), the two agree. */
  lemma AsWrittenAgreesWhenNoneLast(ret: Returned)
    requires ret.One? && IsOptional(ret.ann) && ret.ann.members[0] != NoneType
    ensures DataToCheckAsWritten(ret) == DataToCheck(ret)
  {
  }
}
