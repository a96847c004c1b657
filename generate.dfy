// `_generate_data` of the orchestrators (orchestrator.py,
// sync_orchestrator.py): turning a module or a list of flows or blocks into
// a registry keyed by their identifiers. Generic in what is registered.

module Generate {
  import opened Common

  /**
   * A class met in a module or a list: its `__name__`, whether its direct base
   * (`__base__`) is a subclass of the accepted types, its identifier
   * (`name_flow` or `name_block`) and the entry it is registered as.
   */
  datatype ClassInfo<E> = ClassInfo(className: string, baseOk: bool, id: string, entry: E)

  /** An element of a list argument. */
  datatype Item<E> =
    | ClassItem(info: ClassInfo<E>)
    | InstanceItem(className: string, id: string, entry: E)  // an instance of an accepted type
    | OtherItem                                             // anything else

  /** A `flows` / `blocks` argument that is not None. */
  datatype Data<E> =
    | ModuleData(classes: seq<ClassInfo<E>>)  // a module, its classes in `inspect.getmembers` order
    | ListData(items: seq<Item<E>>)
    | OtherData(truthy: bool)               // neither a module nor a list, with its truthiness

  /**
   * `if flows:` — None, the empty list and a falsy other object (`()`,
   * `{}`, `""`, `0`) are falsy; a module, a non-empty list and a truthy
   * other object are not.
   */
  predicate Supplied<E>(arg: Option<Data<E>>)
  {
    arg.Some? && !(arg.value.ListData? && arg.value.items == []) && !(arg.value.OtherData? && !arg.value.truthy)
  }

  /** The elements `_generate_data` walks: a module's classes go through the same checks as listed classes. */
  function ItemsOf<E>(data: Data<E>): (items: seq<Item<E>>)
    requires !data.OtherData?
    ensures data.ListData? ==> items == data.items
    ensures data.ModuleData? ==>
      |items| == |data.classes| && forall k :: 0 <= k < |items| ==> items[k] == ClassItem(data.classes[k])
  {
    match data
    case ListData(items) => items
    case ModuleData(cs) => seq(|cs|, k requires 0 <= k < |cs| => ClassItem(cs[k]))
  }

  /**
   * Whether an element is passed over: its class name is in `names_to_ignore`,
   * or (`SyncOrchestrator` only, `ignoreIds`) its identifier is.
   */
  predicate Skipped<E>(it: Item<E>, ignore: seq<string>, ignoreIds: bool)
  {
    match it
    case ClassItem(ci) => ci.className in ignore || (ci.baseOk && ignoreIds && ci.id in ignore)
    case InstanceItem(cn, id, _) => cn in ignore || (ignoreIds && id in ignore)
    case OtherItem => false
  }

  /** Whether an element raises TypeError: a class of the wrong base, or neither a class nor an instance. */
  predicate Rejected<E>(it: Item<E>, ignore: seq<string>, ignoreIds: bool)
  {
    !Skipped(it, ignore, ignoreIds) && (it.OtherItem? || (it.ClassItem? && !it.info.baseOk))
  }

  /** Whether an element is registered (when its identifier is new). */
  predicate Kept<E>(it: Item<E>, ignore: seq<string>, ignoreIds: bool)
  {
    !Skipped(it, ignore, ignoreIds) && !Rejected(it, ignore, ignoreIds)
  }

  /** The identifier of a class or an instance (an element that is neither has none, "" here). */
  function IdOf<E>(it: Item<E>): string
  {
    match it
    case ClassItem(ci) => ci.id
    case InstanceItem(_, id, _) => id
    case OtherItem => ""
  }

  function EntryOf<E>(it: Item<E>): E
    requires !it.OtherItem?
  {
    if it.ClassItem? then it.info.entry else it.entry
  }

  /** One iteration of the loop of `_generate_data` on the dictionary built so far. */
  function Step<E>(it: Item<E>, ignore: seq<string>, ignoreIds: bool, acc: Dict<E>): (r: Result<Dict<E>>)
    requires acc.Valid()
    ensures r.Ok? ==> r.value.Valid()
  {
    if Skipped(it, ignore, ignoreIds) then Ok(acc)
    else if it.OtherItem? || (it.ClassItem? && !it.info.baseOk) then Err(TypeError)
    else if IdOf(it) in acc.entries then Err(UniqueNameException(IdOf(it)))
    else Ok(acc.Put(IdOf(it), EntryOf(it)))
  }

  /** The loop of `_generate_data` over `items`, from the dictionary `acc`. */
  function GenerateFrom<E>(items: seq<Item<E>>, ignore: seq<string>, ignoreIds: bool, acc: Dict<E>): (r: Result<Dict<E>>)
    requires acc.Valid()
    ensures r.Ok? ==> r.value.Valid()
    decreases |items|
  {
    if items == [] then Ok(acc)
    else
      match Step(items[0], ignore, ignoreIds, acc)
      case Err(e) => Err(e)
      case Ok(a) => GenerateFrom(items[1..], ignore, ignoreIds, a)
  }

  /** `_generate_data(data, ...)`; `ignoreIds` is the `SyncOrchestrator` variant. */
  function GenerateSpec<E>(data: Data<E>, ignore: seq<string>, ignoreIds: bool): Result<Dict<E>>
  {
    if data.OtherData? then Err(WrongTypeException)
    else
      var r := GenerateFrom(ItemsOf(data), ignore, ignoreIds, EmptyDict());
      if r.Ok? && r.value.keys == [] then Err(NoDateException) else r
  }

  /**
   * `_generate_data(data_to_process, type_to_compare, attribute_to_get,
   * names_to_ignore)`: walk the module's classes or the list's elements,
   * registering each one under its identifier.
   */
  method GenerateData<E>(data: Data<E>, ignore: seq<string>, ignoreIds: bool) returns (r: Result<Dict<E>>)
    ensures r == GenerateSpec(data, ignore, ignoreIds)
  {
    if data.OtherData? {
      return Err(WrongTypeException);
    }
    var items := ItemsOf(data);
    var acc: Dict<E> := EmptyDict();
    var i := 0;
    ghost var spec := GenerateFrom(items, ignore, ignoreIds, acc);
    assert items[0..] == items;
    while i < |items|
      invariant 0 <= i <= |items| && acc.Valid()
      invariant spec == GenerateFrom(items[i..], ignore, ignoreIds, acc)
    {
      var it := items[i];
      assert items[i..][0] == it && items[i..][1..] == items[i + 1..];
      ghost var step := Step(it, ignore, ignoreIds, acc);
      assert GenerateFrom(items[i..], ignore, ignoreIds, acc) ==
        if step.Err? then Err(step.error) else GenerateFrom(items[i + 1..], ignore, ignoreIds, step.value);
      match it {
        case ClassItem(ci) =>
          if ci.className in ignore {
            assert step == Ok(acc);
          } else if !ci.baseOk {
            return Err(TypeError);
          } else if ignoreIds && ci.id in ignore {
            assert step == Ok(acc);
          } else if ci.id in acc.entries {
            return Err(UniqueNameException(ci.id));
          } else {
            assert step == Ok(acc.Put(ci.id, ci.entry));
            acc := acc.Put(ci.id, ci.entry);
          }
        case InstanceItem(className, id, entry) =>
          if className in ignore {
            assert step == Ok(acc);
          } else if ignoreIds && id in ignore {
            assert step == Ok(acc);
          } else if id in acc.entries {
            return Err(UniqueNameException(id));
          } else {
            assert step == Ok(acc.Put(id, entry));
            acc := acc.Put(id, entry);
          }
        case OtherItem =>
          return Err(TypeError);
      }
      i := i + 1;
    }
    assert items[i..] == [];
    if acc.keys == [] {
      return Err(NoDateException);
    }
    return Ok(acc);
  }

  /** The elements that are registered, in order. */
  function KeptItems<E>(items: seq<Item<E>>, ignore: seq<string>, ignoreIds: bool): (kept: seq<Item<E>>)
    ensures forall j :: 0 <= j < |kept| ==> Kept(kept[j], ignore, ignoreIds)
  {
    if items == [] then []
    else (if Kept(items[0], ignore, ignoreIds) then [items[0]] else []) + KeptItems(items[1..], ignore, ignoreIds)
  }

  /** The identifiers of registered elements. */
  function Ids<E>(items: seq<Item<E>>): (ids: seq<string>)
    ensures |ids| == |items| && forall j :: 0 <= j < |items| ==> ids[j] == IdOf(items[j])
  {
    if items == [] then [] else [IdOf(items[0])] + Ids(items[1..])
  }

  predicate Distinct(s: seq<string>)
  {
    forall i, j :: 0 <= i < j < |s| ==> s[i] != s[j]
  }

  predicate NoneRejected<E>(items: seq<Item<E>>, ignore: seq<string>, ignoreIds: bool)
  {
    forall j :: 0 <= j < |items| ==> !Rejected(items[j], ignore, ignoreIds)
  }

  lemma NoneRejectedCons<E>(items: seq<Item<E>>, ignore: seq<string>, ignoreIds: bool)
    requires items != []
    ensures NoneRejected(items, ignore, ignoreIds) <==>
      !Rejected(items[0], ignore, ignoreIds) && NoneRejected(items[1..], ignore, ignoreIds)
  {
    if !Rejected(items[0], ignore, ignoreIds) && NoneRejected(items[1..], ignore, ignoreIds) {
      forall j | 0 < j < |items|
        ensures !Rejected(items[j], ignore, ignoreIds)
      {
        assert items[j] == items[1..][j - 1];
      }
    }
  }

  /** The registered elements of a non-empty list: the first one, if it is registered, then the rest's. */
  lemma KeptCons<E>(items: seq<Item<E>>, ignore: seq<string>, ignoreIds: bool)
    requires items != []
    ensures KeptItems(items, ignore, ignoreIds) ==
      (if Kept(items[0], ignore, ignoreIds) then [items[0]] else []) + KeptItems(items[1..], ignore, ignoreIds)
  {
  }

  /** How one iteration of the loop ends, by the kind of element. */
  lemma StepCases<E>(it: Item<E>, ignore: seq<string>, ignoreIds: bool, acc: Dict<E>)
    requires acc.Valid()
    ensures Skipped(it, ignore, ignoreIds) || Rejected(it, ignore, ignoreIds) || Kept(it, ignore, ignoreIds)
    ensures Skipped(it, ignore, ignoreIds) ==>
      Step(it, ignore, ignoreIds, acc) == Ok(acc) && !Rejected(it, ignore, ignoreIds) && !Kept(it, ignore, ignoreIds)
    ensures Rejected(it, ignore, ignoreIds) ==>
      Step(it, ignore, ignoreIds, acc) == Err(TypeError) && !Kept(it, ignore, ignoreIds)
    ensures Kept(it, ignore, ignoreIds) ==> !it.OtherItem?
    ensures Kept(it, ignore, ignoreIds) && IdOf(it) in acc.entries ==>
      Step(it, ignore, ignoreIds, acc) == Err(UniqueNameException(IdOf(it)))
    ensures Kept(it, ignore, ignoreIds) && IdOf(it) !in acc.entries ==>
      Step(it, ignore, ignoreIds, acc) == Ok(acc.Put(IdOf(it), EntryOf(it)))
  {
  }

  lemma IdsCons<E>(it: Item<E>, rest: seq<Item<E>>)
    ensures Ids([it] + rest) == [IdOf(it)] + Ids(rest)
  {
    assert ([it] + rest)[1..] == rest;
  }

  /**
   * The loop succeeds exactly when no element is rejected and the identifiers
   * of the registered ones are new and pairwise distinct.
   */
  lemma {:induction false} GenerateFromOkIff<E>(items: seq<Item<E>>, ignore: seq<string>, ignoreIds: bool, acc: Dict<E>)
    requires acc.Valid()
    ensures GenerateFrom(items, ignore, ignoreIds, acc).Ok? <==>
      NoneRejected(items, ignore, ignoreIds) && Distinct(acc.keys + Ids(KeptItems(items, ignore, ignoreIds)))
    decreases |items|
  {
    if items == [] {
      assert acc.keys + Ids(KeptItems(items, ignore, ignoreIds)) == acc.keys;
      return;
    }
    var it, rest := items[0], items[1..];
    var kept' := KeptItems(rest, ignore, ignoreIds);
    NoneRejectedCons(items, ignore, ignoreIds);
    KeptCons(items, ignore, ignoreIds);
    StepCases(it, ignore, ignoreIds, acc);
    if Skipped(it, ignore, ignoreIds) {
      assert GenerateFrom(items, ignore, ignoreIds, acc) == GenerateFrom(rest, ignore, ignoreIds, acc);
      assert KeptItems(items, ignore, ignoreIds) == kept';
      GenerateFromOkIff(rest, ignore, ignoreIds, acc);
    } else if Rejected(it, ignore, ignoreIds) {
    } else {
      var id := IdOf(it);
      var tail := Ids(kept');
      IdsCons(it, kept');
      ConcatAssoc(acc.keys, [id], tail);
      var all := acc.keys + ([id] + tail);
      if id in acc.entries {
        var i :| 0 <= i < |acc.keys| && acc.keys[i] == id;
        assert all[i] == id && all[|acc.keys|] == id;
      } else {
        var a := acc.Put(id, EntryOf(it));
        GenerateFromOkIff(rest, ignore, ignoreIds, a);
      }
    }
  }

  /** When the loop succeeds, its keys are those of `acc` followed by the registered identifiers. */
  lemma {:induction false} GenerateFromKeys<E>(items: seq<Item<E>>, ignore: seq<string>, ignoreIds: bool, acc: Dict<E>)
    requires acc.Valid() && GenerateFrom(items, ignore, ignoreIds, acc).Ok?
    ensures GenerateFrom(items, ignore, ignoreIds, acc).value.keys == acc.keys + Ids(KeptItems(items, ignore, ignoreIds))
    decreases |items|
  {
    if items == [] {
      assert acc.keys + Ids(KeptItems(items, ignore, ignoreIds)) == acc.keys;
      return;
    }
    var it, rest := items[0], items[1..];
    KeptCons(items, ignore, ignoreIds);
    StepCases(it, ignore, ignoreIds, acc);
    if Skipped(it, ignore, ignoreIds) {
      assert GenerateFrom(items, ignore, ignoreIds, acc) == GenerateFrom(rest, ignore, ignoreIds, acc);
      assert KeptItems(items, ignore, ignoreIds) == KeptItems(rest, ignore, ignoreIds);
      GenerateFromKeys(rest, ignore, ignoreIds, acc);
    } else {
      var id := IdOf(it);
      var a := acc.Put(id, EntryOf(it));
      assert GenerateFrom(items, ignore, ignoreIds, acc) == GenerateFrom(rest, ignore, ignoreIds, a);
      GenerateFromKeys(rest, ignore, ignoreIds, a);
      var tail := Ids(KeptItems(rest, ignore, ignoreIds));
      IdsCons(it, KeptItems(rest, ignore, ignoreIds));
      ConcatAssoc(acc.keys, [id], tail);
    }
  }

  /** When the loop succeeds, every entry `acc` held is still there. */
  lemma {:induction false} GenerateFromKeepsAcc<E>(items: seq<Item<E>>, ignore: seq<string>, ignoreIds: bool, acc: Dict<E>)
    requires acc.Valid() && GenerateFrom(items, ignore, ignoreIds, acc).Ok?
    ensures var d := GenerateFrom(items, ignore, ignoreIds, acc).value;
      forall k :: k in acc.entries ==> k in d.entries && d.entries[k] == acc.entries[k]
    decreases |items|
  {
    if items == [] {
      return;
    }
    var it, rest := items[0], items[1..];
    StepCases(it, ignore, ignoreIds, acc);
    if Skipped(it, ignore, ignoreIds) {
      GenerateFromKeepsAcc(rest, ignore, ignoreIds, acc);
    } else {
      var a := acc.Put(IdOf(it), EntryOf(it));
      GenerateFromKeepsAcc(rest, ignore, ignoreIds, a);
    }
  }

  /** When the loop succeeds, each registered identifier maps to its own element's entry. */
  lemma {:induction false} GenerateFromEntries<E>(items: seq<Item<E>>, ignore: seq<string>, ignoreIds: bool, acc: Dict<E>)
    requires acc.Valid() && GenerateFrom(items, ignore, ignoreIds, acc).Ok?
    ensures var d := GenerateFrom(items, ignore, ignoreIds, acc).value;
      var kept := KeptItems(items, ignore, ignoreIds);
      forall j :: 0 <= j < |kept| ==> IdOf(kept[j]) in d.entries && d.entries[IdOf(kept[j])] == EntryOf(kept[j])
    decreases |items|
  {
    if items == [] {
      return;
    }
    var it, rest := items[0], items[1..];
    KeptCons(items, ignore, ignoreIds);
    StepCases(it, ignore, ignoreIds, acc);
    if Skipped(it, ignore, ignoreIds) {
      GenerateFromEntries(rest, ignore, ignoreIds, acc);
    } else {
      var d := GenerateFrom(items, ignore, ignoreIds, acc).value;
      var a := acc.Put(IdOf(it), EntryOf(it));
      var kept := KeptItems(items, ignore, ignoreIds);
      var kept' := KeptItems(rest, ignore, ignoreIds);
      GenerateFromEntries(rest, ignore, ignoreIds, a);
      GenerateFromKeepsAcc(rest, ignore, ignoreIds, a);
      assert IdOf(it) in a.entries;
      forall j | 0 < j < |kept|
        ensures IdOf(kept[j]) in d.entries && d.entries[IdOf(kept[j])] == EntryOf(kept[j])
      {
        assert kept[j] == kept'[j - 1];
      }
    }
  }

  /** Every registered element is an element of the list. */
  lemma {:induction false} KeptFromItems<E>(items: seq<Item<E>>, ignore: seq<string>, ignoreIds: bool)
    ensures forall j :: 0 <= j < |KeptItems(items, ignore, ignoreIds)| ==> KeptItems(items, ignore, ignoreIds)[j] in items
    decreases |items|
  {
    if items != [] {
      KeptFromItems(items[1..], ignore, ignoreIds);
      KeptCons(items, ignore, ignoreIds);
      var kept := KeptItems(items, ignore, ignoreIds);
      var kept' := KeptItems(items[1..], ignore, ignoreIds);
      forall j | 0 <= j < |kept|
        ensures kept[j] in items
      {
        if Kept(items[0], ignore, ignoreIds) && j > 0 {
          assert kept[j] == kept'[j - 1];
        } else if !Kept(items[0], ignore, ignoreIds) {
          assert kept[j] == kept'[j];
        }
      }
    }
  }

  /**
   * `_generate_data` on a module or a list succeeds exactly when no element is
   * rejected, the registered identifiers are pairwise distinct and there is at
   * least one; it raises NoDateException when all that holds but nothing is
   * registered, and WrongTypeException for any other argument.
   */
  lemma GenerateSpecOkIff<E>(data: Data<E>, ignore: seq<string>, ignoreIds: bool)
    ensures data.OtherData? ==> GenerateSpec(data, ignore, ignoreIds) == Err(WrongTypeException)
    ensures !data.OtherData? ==>
      var r := GenerateSpec(data, ignore, ignoreIds);
      var items := ItemsOf(data);
      var kept := KeptItems(items, ignore, ignoreIds);
      (r.Ok? <==> NoneRejected(items, ignore, ignoreIds) && Distinct(Ids(kept)) && kept != []) &&
      (NoneRejected(items, ignore, ignoreIds) && Distinct(Ids(kept)) && kept == [] ==> r == Err(NoDateException))
  {
    if !data.OtherData? {
      var items := ItemsOf(data);
      var kept := KeptItems(items, ignore, ignoreIds);
      var e := EmptyDict<E>();
      var r := GenerateFrom(items, ignore, ignoreIds, e);
      assert GenerateSpec(data, ignore, ignoreIds) == if r.Ok? && r.value.keys == [] then Err(NoDateException) else r;
      GenerateFromOkIff(items, ignore, ignoreIds, e);
      assert e.keys + Ids(kept) == Ids(kept);
      if r.Ok? {
        GenerateFromKeys(items, ignore, ignoreIds, e);
      }
    }
  }

  /**
   * The registry `_generate_data` returns: the registered elements'
   * identifiers in order, each mapped to its own element's entry.
   */
  lemma GenerateSpecResult<E>(data: Data<E>, ignore: seq<string>, ignoreIds: bool)
    requires GenerateSpec(data, ignore, ignoreIds).Ok?
    ensures !data.OtherData?
    ensures var d := GenerateSpec(data, ignore, ignoreIds).value;
      var kept := KeptItems(ItemsOf(data), ignore, ignoreIds);
      d.Valid() && d.keys == Ids(kept) &&
      forall j :: 0 <= j < |kept| ==> IdOf(kept[j]) in d.entries && d.entries[IdOf(kept[j])] == EntryOf(kept[j])
  {
    var items := ItemsOf(data);
    var e := EmptyDict<E>();
    var r := GenerateFrom(items, ignore, ignoreIds, e);
    assert GenerateSpec(data, ignore, ignoreIds) == r;
    GenerateFromKeys(items, ignore, ignoreIds, e);
    GenerateFromEntries(items, ignore, ignoreIds, e);
    assert e.keys + Ids(KeptItems(items, ignore, ignoreIds)) == Ids(KeptItems(items, ignore, ignoreIds));
  }

  /** Every entry of a generated registry is the entry of a registered element of the argument. */
  lemma GeneratedEntriesFromData<E>(data: Data<E>, ignore: seq<string>, ignoreIds: bool)
    requires GenerateSpec(data, ignore, ignoreIds).Ok?
    ensures !data.OtherData?
    ensures var d := GenerateSpec(data, ignore, ignoreIds).value;
      forall k :: k in d.entries ==>
        exists it :: it in ItemsOf(data) && Kept(it, ignore, ignoreIds) && IdOf(it) == k && d.entries[k] == EntryOf(it)
  {
    GenerateSpecResult(data, ignore, ignoreIds);
    KeptFromItems(ItemsOf(data), ignore, ignoreIds);
    var d := GenerateSpec(data, ignore, ignoreIds).value;
    var kept := KeptItems(ItemsOf(data), ignore, ignoreIds);
    forall k | k in d.entries
      ensures exists it :: it in ItemsOf(data) && Kept(it, ignore, ignoreIds) && IdOf(it) == k && d.entries[k] == EntryOf(it)
    {
      var j :| 0 <= j < |d.keys| && d.keys[j] == k;
      assert IdOf(kept[j]) == k;
    }
  }

  /** The `SyncOrchestrator` variant never registers an identifier that is in `names_to_ignore`. */
  lemma SyncGenerateSkipsIgnoredIds<E>(data: Data<E>, ignore: seq<string>)
    requires GenerateSpec(data, ignore, true).Ok?
    ensures forall k :: k in GenerateSpec(data, ignore, true).value.entries ==> k !in ignore
  {
    GeneratedEntriesFromData(data, ignore, true);
  }

  /** Whatever the argument, a registered element never has its class name in `names_to_ignore`. */
  lemma GenerateSkipsIgnoredClasses<E>(data: Data<E>, ignore: seq<string>, ignoreIds: bool)
    requires GenerateSpec(data, ignore, ignoreIds).Ok?
    ensures !data.OtherData?
    ensures var d := GenerateSpec(data, ignore, ignoreIds).value;
      forall k :: k in d.entries ==>
        exists it :: it in ItemsOf(data) && !it.OtherItem? && IdOf(it) == k && d.entries[k] == EntryOf(it) &&
          (if it.ClassItem? then it.info.className else it.className) !in ignore
  {
    GeneratedEntriesFromData(data, ignore, ignoreIds);
  }

}
