// Shared vocabulary of the model: optional values, the exceptions the library
// raises (as data), results, the Sync/Async tag, string helpers and an
// insertion-ordered dictionary.

module Common {

  datatype Option<T> = None | Some(value: T)

  /** The exceptions of the library and of Python that the modelled code raises. */
  datatype Error =
    // Python built-ins
    | TypeError
    | AttributeError
    | IndexError
    | NotImplementedError
    // an exception raised by user code (a constructor, a hook, `process`, ...)
    | UserError
    // blocks and flows
    | FlowException
    | FlowBlockException
    | FlowBuilderException(index: nat)
    | WorkTypeMismatchException
    | NotUniqueBlockInFlowError(blockName: string)
    // orchestrators
    | NoDateException
    | UniqueNameException(identifier: string)
    | WrongTypeException
    | NotFoundDefaultError
    // services
    | ServiceBlockException
    | ServiceBuilderException
    | DoublePostProcessFunctionDeclaredError
    | EmptyCommandsException
    | NotUniqueCommandError(command: string)
    | IncorrectDefaultCommand
    | ValidationError
    // stepper
    | ExtraAttributeError
    | DataConsistencyError
    | NoDataForExecutionStepException(step: string)
    | ConsistencyStepsException(failed: string, previousStep: string)

  /** A call that returns a value or raises. */
  datatype Result<T> = Ok(value: T) | Err(error: Error)

  /** A call that returns nothing or raises. */
  datatype Outcome = Pass | Fail(error: Error)

  /** Which base class a block, flow, orchestrator or command handler derives from. */
  datatype Variant = Sync | Async

  // ---------------------------------------------------------------------------
  // Strings

  /** `sep.join(parts)` */
  function Join(parts: seq<string>, sep: string): string
  {
    if |parts| == 0 then ""
    else if |parts| == 1 then parts[0]
    else parts[0] + sep + Join(parts[1..], sep)
  }

  /** Sequence concatenation is associative. */
  lemma ConcatAssoc<T>(a: seq<T>, b: seq<T>, c: seq<T>)
    ensures (a + b) + c == a + (b + c)
  {
  }

  function DigitChar(d: nat): char
    requires d < 10
  {
    ('0' as int + d) as char
  }

  predicate AllDigits(s: string)
  {
    forall k :: 0 <= k < |s| ==> '0' <= s[k] <= '9'
  }

  /** `str(n)` for a non-negative integer. */
  function NatToString(n: nat): (s: string)
    ensures |s| >= 1
    ensures |s| == 1 <==> n < 10
  {
    if n < 10 then [DigitChar(n)] else NatToString(n / 10) + [DigitChar(n % 10)]
  }

  lemma {:induction false} NatToStringInjective(a: nat, b: nat)
    requires NatToString(a) == NatToString(b)
    ensures a == b
  {
    var sa, sb := NatToString(a), NatToString(b);
    if a < 10 && b < 10 {
      assert DigitChar(a) == sa[0] == sb[0] == DigitChar(b);
    } else if a >= 10 && b >= 10 {
      var pa, pb := NatToString(a / 10), NatToString(b / 10);
      assert sa == pa + [DigitChar(a % 10)] && sb == pb + [DigitChar(b % 10)];
      assert |pa| == |pb|;
      assert pa == sa[..|pa|] == sb[..|pb|] == pb;
      NatToStringInjective(a / 10, b / 10);
      assert DigitChar(a % 10) == sa[|sa| - 1] == sb[|sb| - 1] == DigitChar(b % 10);
    }
  }

  lemma {:induction false} NatToStringDigits(n: nat)
    ensures AllDigits(NatToString(n))
  {
    if n >= 10 {
      NatToStringDigits(n / 10);
    }
  }

  /** `f"{name}_{step}"`, the name a block gets in a flow that allows duplicate blocks. */
  function Suffixed(name: string, step: nat): (s: string)
    ensures |s| > |name| + 1 && s[..|name|] == name && s[|name|] == '_'
  {
    name + "_" + NatToString(step)
  }

  /** Two blocks with the same name at different steps get different names. */
  lemma SuffixedInjective(name: string, i: nat, j: nat)
    requires Suffixed(name, i) == Suffixed(name, j)
    ensures i == j
  {
    var p := name + "_";
    assert Suffixed(name, i)[|p|..] == NatToString(i);
    assert Suffixed(name, j)[|p|..] == NatToString(j);
    NatToStringInjective(i, j);
  }

  /** The position of the last underscore in `s`, or -1. */
  function LastUnderscore(s: string): (p: int)
    ensures -1 <= p < |s|
  {
    if |s| == 0 then -1 else if s[|s| - 1] == '_' then |s| - 1 else LastUnderscore(s[..|s| - 1])
  }

  lemma {:induction false} LastUnderscoreOfSuffixed(name: string, d: string)
    requires AllDigits(d)
    ensures LastUnderscore(name + "_" + d) == |name|
    decreases |d|
  {
    var s := name + "_" + d;
    if |d| > 0 {
      assert s[|s| - 1] == d[|d| - 1];
      assert s[..|s| - 1] == name + "_" + d[..|d| - 1];
      LastUnderscoreOfSuffixed(name, d[..|d| - 1]);
    }
  }

  /**
   * A suffixed name determines both the name and the step: the suffix is
   * all digits, so the last underscore marks where the name ends.
   */
  lemma SuffixedJointlyInjective(a: string, i: nat, b: string, j: nat)
    requires Suffixed(a, i) == Suffixed(b, j)
    ensures a == b && i == j
  {
    NatToStringDigits(i);
    NatToStringDigits(j);
    LastUnderscoreOfSuffixed(a, NatToString(i));
    LastUnderscoreOfSuffixed(b, NatToString(j));
    assert a == Suffixed(a, i)[..|a|];
    assert b == Suffixed(b, j)[..|b|];
    SuffixedInjective(a, i, j);
  }

  // ---------------------------------------------------------------------------
  // Insertion-ordered dictionary (a Python `dict` keyed by strings)

  datatype Dict<V> = Dict(keys: seq<string>, entries: map<string, V>)
  {
    ghost predicate Valid()
    {
      (forall i, j :: 0 <= i < j < |keys| ==> keys[i] != keys[j]) &&
      (forall k :: k in entries <==> k in keys)
    }

    /** `d[k] = v`: a new key goes to the end, an existing key keeps its place. */
    function Put(k: string, v: V): (d: Dict<V>)
      requires Valid()
      ensures d.Valid()
      ensures d.entries == entries[k := v]
      ensures k in keys ==> d.keys == keys
      ensures k !in keys ==> d.keys == keys + [k]
    {
      if k in entries then Dict(keys, entries[k := v]) else Dict(keys + [k], entries[k := v])
    }
  }

  function EmptyDict<V>(): (d: Dict<V>)
    ensures d.Valid() && d.keys == [] && d.entries == map[]
  {
    Dict([], map[])
  }
}
