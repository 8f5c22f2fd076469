/** The test-set and test-instance enumerator, the three-tier value resolver
    and the work-item builder of connector/static/core/base_practitest.py.
    Every request to the test-management API is an input: the outcome the
    retry loop of `wait_for_request_200` ends with, reduced to the `data`
    array of a 200 response or the exception that escaped. */
module BasePractiTest {
  import opened Common
  import opened Text
  import opened StaticMethods

  /** A test set or a test instance as the API returns it: its id and its
      `attributes` dict (which normally holds a `custom-fields` dict). */
  datatype Entity = Entity(id: string, attributes: Fields<Value>)

  /** `entity['attributes']['custom-fields']`, None where that raises KeyError. */
  function CustomFields(e: Entity): Option<Value>
  {
    Get(e.attributes, "custom-fields")
  }

  /** The outcome of one request: the `data` array of the 200 response, or the
      exception that left the retry loop. */
  datatype Fetch<T> = Fetched(data: T) | Aborted(error: Exception)

  /** The test-management API as the enumerator sees it: the test sets under
      each filter id, and the pages of instances for each `set-ids` query
      (page n is element n - 1; pages past the end are empty). */
  datatype Server = Server(
    setsUnder: string -> Fetch<seq<Entity>>,
    instancePages: string -> seq<Fetch<seq<Entity>>>)

  /** The settings of one block that the base class reads. `automationRunOnly`,
      `awsInstanceType` and `syncExec` name test-set custom fields;
      `executionType` is the text `str()` gives for the configured value. */
  datatype Config = Config(
    projectName: string,
    filterIdList: string,
    automationRunOnly: string,
    awsInstanceType: string,
    debug: FieldSpec,
    executionType: string,
    syncExec: string)

  // ---------------------------------------------------------------------
  // Three-tier value resolver

  /** Where to look for a value: a field of the test, a field of the test
      set, a literal default; each may be absent from the spec dict. */
  datatype FieldSpec = FieldSpec(test: Option<string>, testset: Option<string>, default: Option<Value>)

  /** A field name holding this marker names a custom field. */
  const CustomFieldMarker := "---f-"

  /** `extract_value`: the field read from the custom fields or from the
      attributes, depending on the marker, yes/no mapped when asked for;
      None where the lookup raises. */
  function ExtractValue(field: string, attributes: Fields<Value>, customFields: Value, isBoolean: bool): (r: Option<Value>)
    ensures Contains(field, CustomFieldMarker) ==>
      (r.Some? <==> customFields.Dict? && HasKey(customFields.entries, field))
      && (r.Some? ==> r.value == (var v := Get(customFields.entries, field).value;
                                  if isBoolean then YesNoToBoolean(v) else v))
    ensures !Contains(field, CustomFieldMarker) ==>
      (r.Some? <==> HasKey(attributes, field))
      && (r.Some? ==> r.value == (var v := Get(attributes, field).value;
                                  if isBoolean then YesNoToBoolean(v) else v))
    ensures r.Some? && isBoolean ==> r.value != Str("yes") && r.value != Str("no")
  {
    var raw :=
      if Contains(field, CustomFieldMarker) then
        (if customFields.Dict? then Get(customFields.entries, field) else None)
      else Get(attributes, field);
    match raw
    case None => None
    case Some(v) => Some(if isBoolean then YesNoToBoolean(v) else v)
  }

  /** One tier of the resolver: the text of the named field, if the spec names
      one and the lookup succeeds. */
  function TierValue(field: Option<string>, attributes: Fields<Value>, customFields: Value, isBoolean: bool): Option<string>
  {
    if field.None? then None
    else
      match ExtractValue(field.value, attributes, customFields, isBoolean)
      case None => None
      case Some(v) => Some(Show(v))
  }

  const ResolveFailureMessage := "Could not retrieve the desired field value."

  /** `get_prioritized_value`. Both entities must carry `custom-fields` (the
      lookups happen before any handler); then the test tier wins, then the
      test-set tier, then the default as text, else ValueError. */
  function GetPrioritizedValue(spec: FieldSpec, testSet: Entity, test: Entity, isBoolean: bool): (r: Result<string, Exception>)
    ensures r.Failure? ==> r.error == KeyError("custom-fields") || r.error == ValueError(ResolveFailureMessage)
  {
    var setCustomFields :- Need(CustomFields(testSet), KeyError("custom-fields"));
    var testCustomFields :- Need(CustomFields(test), KeyError("custom-fields"));
    match TierValue(spec.test, test.attributes, testCustomFields, isBoolean)
    case Some(v) => Success(v)
    case None =>
      match TierValue(spec.testset, testSet.attributes, setCustomFields, isBoolean)
      case Some(v) => Success(v)
      case None =>
        if spec.default.Some? then Success(Show(spec.default.value))
        else Failure(ValueError(ResolveFailureMessage))
  }

  /** The first present value of a list of options. */
  function FirstPresent(options: seq<Option<string>>): Option<string>
  {
    if options == [] then None else if options[0].Some? then options[0] else FirstPresent(options[1..])
  }

  /** The three tiers of a spec, in priority order: the test's field, the
      test set's field, the default as text. */
  function Tiers(spec: FieldSpec, testSet: Entity, test: Entity, isBoolean: bool): (ts: seq<Option<string>>)
    requires CustomFields(testSet).Some? && CustomFields(test).Some?
  {
    [TierValue(spec.test, test.attributes, CustomFields(test).value, isBoolean),
     TierValue(spec.testset, testSet.attributes, CustomFields(testSet).value, isBoolean),
     if spec.default.Some? then Some(Show(spec.default.value)) else None]
  }

  /** The resolver raises KeyError when either entity lacks custom fields;
      otherwise it yields the first tier that resolves, and ValueError when
      none does. */
  lemma PrioritizedValueIsFirstPresent(spec: FieldSpec, testSet: Entity, test: Entity, isBoolean: bool)
    ensures CustomFields(testSet).None? || CustomFields(test).None? ==>
      GetPrioritizedValue(spec, testSet, test, isBoolean) == Failure(KeyError("custom-fields"))
    ensures CustomFields(testSet).Some? && CustomFields(test).Some? ==>
      GetPrioritizedValue(spec, testSet, test, isBoolean) ==
        match FirstPresent(Tiers(spec, testSet, test, isBoolean))
        case Some(v) => Success(v)
        case None => Failure(ValueError(ResolveFailureMessage))
  {
    if CustomFields(testSet).Some? && CustomFields(test).Some? {
      var ts := Tiers(spec, testSet, test, isBoolean);
      assert FirstPresent([ts[2]]) == ts[2] by {
        assert [ts[2]][1..] == [];
      }
      assert FirstPresent(ts[1..]) == if ts[1].Some? then ts[1] else ts[2] by {
        assert ts[1..][1..] == [ts[2]];
      }
    }
  }

  /** Priority law: once the test tier resolves, the test set is never
      consulted, so any other test set (with custom fields) gives the same
      answer. */
  lemma TestTierIgnoresTestSet(spec: FieldSpec, testSet: Entity, otherSet: Entity, test: Entity, isBoolean: bool)
    requires CustomFields(testSet).Some? && CustomFields(otherSet).Some? && CustomFields(test).Some?
    requires TierValue(spec.test, test.attributes, CustomFields(test).value, isBoolean).Some?
    ensures GetPrioritizedValue(spec, testSet, test, isBoolean) == GetPrioritizedValue(spec, otherSet, test, isBoolean)
    ensures GetPrioritizedValue(spec, testSet, test, isBoolean).Success?
  {
  }

  /** A spec holding only a default resolves to that default's text whatever
      the entities hold. */
  lemma DefaultOnlySpec(d: Value, testSet: Entity, test: Entity, isBoolean: bool)
    requires CustomFields(testSet).Some? && CustomFields(test).Some?
    ensures GetPrioritizedValue(FieldSpec(None, None, Some(d)), testSet, test, isBoolean) == Success(Show(d))
  {
  }

  // ---------------------------------------------------------------------
  // Test sets under the filters

  /** `get_all_testsets_under_specific_filter_id`: the request, then
      `get_dict_data_if_not_empty` on its data. */
  function TestsetsUnderSpecificFilterId(setsUnder: string -> Fetch<seq<Entity>>, filterId: string): (r: Result<Option<seq<Entity>>, Exception>)
    ensures r.Failure? <==> setsUnder(filterId).Aborted?
    ensures r.Success? ==> SafeLen(r.value) == |setsUnder(filterId).data|
    ensures r.Success? ==> (r.value.None? <==> setsUnder(filterId).data == [])
  {
    match setsUnder(filterId)
    case Aborted(e) => Failure(e)
    case Fetched(data) => Success(GetDictDataIfNotEmpty(data))
  }

  /** The test sets a filter's request delivers; nothing for an aborted one. */
  function DataOf(f: Fetch<seq<Entity>>): seq<Entity>
  {
    if f.Fetched? then f.data else []
  }

  function FetchedSets(setsUnder: string -> Fetch<seq<Entity>>, ids: seq<string>): (r: seq<seq<Entity>>)
    ensures |r| == |ids|
    ensures forall i :: 0 <= i < |ids| ==> r[i] == DataOf(setsUnder(ids[i]))
  {
    seq(|ids|, i requires 0 <= i < |ids| => DataOf(setsUnder(ids[i])))
  }

  /** The loop of `get_all_testsets_under_filter_id_list`: each filter's list is
      appended in order; an aborted request propagates, and a filter with no
      test sets yields None, on which `list + None` raises TypeError. */
  function AllTestsets(setsUnder: string -> Fetch<seq<Entity>>, ids: seq<string>): Result<seq<Entity>, Exception>
  {
    if ids == [] then Success([])
    else
      var testsets :- AllTestsets(setsUnder, ids[..|ids| - 1]);
      var got :- TestsetsUnderSpecificFilterId(setsUnder, ids[|ids| - 1]);
      if got.None? then Failure(TypeError) else Success(testsets + got.value)
  }

  /** Whether every filter was fetched, and whether every filter was fetched
      with at least one test set. */
  predicate NoneAborted(setsUnder: string -> Fetch<seq<Entity>>, ids: seq<string>)
  {
    forall i :: 0 <= i < |ids| ==> setsUnder(ids[i]).Fetched?
  }

  predicate AllNonEmpty(setsUnder: string -> Fetch<seq<Entity>>, ids: seq<string>)
  {
    forall i :: 0 <= i < |ids| ==> setsUnder(ids[i]).Fetched? && setsUnder(ids[i]).data != []
  }

  /** The concatenation succeeds exactly when every filter delivers at least one
      test set, and then it is all the filters' sets in filter order; when
      every request succeeds but some filter is empty, it raises TypeError. */
  lemma {:induction false} AllTestsetsMeaning(setsUnder: string -> Fetch<seq<Entity>>, ids: seq<string>)
    ensures AllTestsets(setsUnder, ids).Success? <==> AllNonEmpty(setsUnder, ids)
    ensures AllTestsets(setsUnder, ids).Success? ==>
      AllTestsets(setsUnder, ids).value == Flatten(FetchedSets(setsUnder, ids))
    ensures NoneAborted(setsUnder, ids) && !AllNonEmpty(setsUnder, ids) ==>
      AllTestsets(setsUnder, ids) == Failure(TypeError)
  {
    if ids != [] {
      var init := ids[..|ids| - 1];
      AllTestsetsMeaning(setsUnder, init);
      assert FetchedSets(setsUnder, ids)[..|ids| - 1] == FetchedSets(setsUnder, init);
      assert AllNonEmpty(setsUnder, ids) ==> AllNonEmpty(setsUnder, init);
      assert NoneAborted(setsUnder, ids) ==> NoneAborted(setsUnder, init);
      if AllNonEmpty(setsUnder, init) && setsUnder(ids[|ids| - 1]).Fetched? && setsUnder(ids[|ids| - 1]).data != [] {
        assert AllNonEmpty(setsUnder, ids) by {
          forall i | 0 <= i < |ids| ensures setsUnder(ids[i]).Fetched? && setsUnder(ids[i]).data != [] {
            if i < |ids| - 1 {
              assert ids[i] == init[i];
            }
          }
        }
      }
    }
  }

  /** Once a prefix of the filters fails, the whole concatenation fails the
      same way. */
  lemma {:induction false} AllTestsetsFailureStays(setsUnder: string -> Fetch<seq<Entity>>, ids: seq<string>, i: nat)
    requires i <= |ids|
    requires AllTestsets(setsUnder, ids[..i]).Failure?
    ensures AllTestsets(setsUnder, ids) == AllTestsets(setsUnder, ids[..i])
    decreases |ids| - i
  {
    if i < |ids| {
      assert ids[..i + 1][..i] == ids[..i];
      AllTestsetsFailureStays(setsUnder, ids, i + 1);
    } else {
      assert ids[..i] == ids;
    }
  }

  /** The loop of `get_all_testsets_under_filter_id_list`. */
  method GetAllTestsetsUnderFilterIdList(setsUnder: string -> Fetch<seq<Entity>>, filterIds: seq<string>)
    returns (r: Result<seq<Entity>, Exception>)
    ensures r == AllTestsets(setsUnder, filterIds)
  {
    var testsets: seq<Entity> := [];
    for i := 0 to |filterIds|
      invariant AllTestsets(setsUnder, filterIds[..i]) == Success(testsets)
    {
      assert filterIds[..i + 1][..i] == filterIds[..i];
      var got := TestsetsUnderSpecificFilterId(setsUnder, filterIds[i]);
      if got.Failure? {
        AllTestsetsFailureStays(setsUnder, filterIds, i + 1);
        return Failure(got.error);
      }
      if got.value.None? {
        AllTestsetsFailureStays(setsUnder, filterIds, i + 1);
        return Failure(TypeError);
      }
      testsets := testsets + got.value.value;
    }
    assert filterIds[..|filterIds|] == filterIds;
    r := Success(testsets);
  }

  /** `get_all_testsets_under_filter_list`: the comma-separated ids, split. */
  method GetAllTestsetsUnderFilterList(setsUnder: string -> Fetch<seq<Entity>>, filterId: string)
    returns (r: Result<seq<Entity>, Exception>)
    ensures r == AllTestsets(setsUnder, Split(filterId, ','))
    ensures r.Success? <==> AllNonEmpty(setsUnder, Split(filterId, ','))
    ensures r.Success? ==> |r.value| >= 1
  {
    AllTestsetsMeaning(setsUnder, Split(filterId, ','));
    r := GetAllTestsetsUnderFilterIdList(setsUnder, Split(filterId, ','));
    if r.Success? {
      var ids := Split(filterId, ',');
      FlattenLength(FetchedSets(setsUnder, ids));
      assert |FetchedSets(setsUnder, ids)[0]| > 0;
    }
  }

  function Sum(ns: seq<nat>): nat
  {
    if ns == [] then 0 else Sum(ns[..|ns| - 1]) + ns[|ns| - 1]
  }

  function Lengths<T>(xss: seq<seq<T>>): (ns: seq<nat>)
    ensures |ns| == |xss|
    ensures forall i :: 0 <= i < |xss| ==> ns[i] == |xss[i]|
  {
    seq(|xss|, i requires 0 <= i < |xss| => |xss[i]|)
  }

  /** The flattened list is as long as all lists together, and it is empty
      exactly when every list is. */
  lemma {:induction false} FlattenLength<T>(xss: seq<seq<T>>)
    ensures |Flatten(xss)| == Sum(Lengths(xss))
    ensures |Flatten(xss)| > 0 <==> exists i :: 0 <= i < |xss| && |xss[i]| > 0
  {
    if xss != [] {
      var init := xss[..|xss| - 1];
      FlattenLength(init);
      assert Lengths(xss)[..|xss| - 1] == Lengths(init);
      if |Flatten(init)| > 0 {
        var i :| 0 <= i < |init| && |init[i]| > 0;
        assert xss[i] == init[i];
      }
    }
  }

  /** The loop of `get_count_of_test_sets_under_filter`: `safe_len` of every
      filter's list, summed; an aborted request propagates. */
  function SetCount(setsUnder: string -> Fetch<seq<Entity>>, ids: seq<string>): Result<nat, Exception>
  {
    if ids == [] then Success(0)
    else
      var count :- SetCount(setsUnder, ids[..|ids| - 1]);
      var got :- TestsetsUnderSpecificFilterId(setsUnder, ids[|ids| - 1]);
      Success(count + SafeLen(got))
  }

  /** The count succeeds exactly when no request aborts, and it is then the
      number of test sets all filters deliver, empty filters included. */
  lemma {:induction false} SetCountMeaning(setsUnder: string -> Fetch<seq<Entity>>, ids: seq<string>)
    ensures SetCount(setsUnder, ids).Success? <==> NoneAborted(setsUnder, ids)
    ensures SetCount(setsUnder, ids).Success? ==>
      SetCount(setsUnder, ids).value == |Flatten(FetchedSets(setsUnder, ids))|
  {
    if ids != [] {
      var init := ids[..|ids| - 1];
      SetCountMeaning(setsUnder, init);
      assert FetchedSets(setsUnder, ids)[..|ids| - 1] == FetchedSets(setsUnder, init);
      if NoneAborted(setsUnder, init) && setsUnder(ids[|ids| - 1]).Fetched? {
        assert NoneAborted(setsUnder, ids) by {
          forall i | 0 <= i < |ids| ensures setsUnder(ids[i]).Fetched? {
            if i < |ids| - 1 {
              assert ids[i] == init[i];
            }
          }
        }
      }
    }
  }

  lemma {:induction false} SetCountFailureStays(setsUnder: string -> Fetch<seq<Entity>>, ids: seq<string>, i: nat)
    requires i <= |ids|
    requires SetCount(setsUnder, ids[..i]).Failure?
    ensures SetCount(setsUnder, ids) == SetCount(setsUnder, ids[..i])
    decreases |ids| - i
  {
    if i < |ids| {
      assert ids[..i + 1][..i] == ids[..i];
      SetCountFailureStays(setsUnder, ids, i + 1);
    } else {
      assert ids[..i] == ids;
    }
  }

  /** `get_count_of_test_sets_under_filter`. */
  method GetCountOfTestSetsUnderFilter(setsUnder: string -> Fetch<seq<Entity>>, filterId: string)
    returns (r: Result<nat, Exception>)
    ensures r == SetCount(setsUnder, Split(filterId, ','))
  {
    var filterIds := Split(filterId, ',');
    var count := 0;
    for i := 0 to |filterIds|
      invariant SetCount(setsUnder, filterIds[..i]) == Success(count)
    {
      assert filterIds[..i + 1][..i] == filterIds[..i];
      var got := TestsetsUnderSpecificFilterId(setsUnder, filterIds[i]);
      if got.Failure? {
        SetCountFailureStays(setsUnder, filterIds, i + 1);
        return Failure(got.error);
      }
      count := count + SafeLen(got.value);
    }
    assert filterIds[..|filterIds|] == filterIds;
    r := Success(count);
  }

  /** `is_to_trigger`: true exactly when some filter delivers a test set; an
      aborted request propagates. */
  method IsToTrigger(setsUnder: string -> Fetch<seq<Entity>>, filterIdList: string)
    returns (r: Result<bool, Exception>)
    ensures r.Success? <==> NoneAborted(setsUnder, Split(filterIdList, ','))
    ensures r.Success? ==>
      (r.value <==> exists i :: 0 <= i < |Split(filterIdList, ',')| && setsUnder(Split(filterIdList, ',')[i]).data != [])
  {
    var ids := Split(filterIdList, ',');
    SetCountMeaning(setsUnder, ids);
    FlattenLength(FetchedSets(setsUnder, ids));
    var count := GetCountOfTestSetsUnderFilter(setsUnder, filterIdList);
    if count.Failure? {
      return Failure(count.error);
    }
    r := Success(count.value > 0);
  }

  /** The count and the concatenation disagree on empty filters: with every
      request answered, a filter without test sets beside one with test sets
      makes `is_to_trigger` true while the concatenation raises TypeError. */
  lemma {:induction false} CountVersusConcatenation(setsUnder: string -> Fetch<seq<Entity>>, ids: seq<string>, empty: nat, full: nat)
    requires NoneAborted(setsUnder, ids)
    requires empty < |ids| && setsUnder(ids[empty]).data == []
    requires full < |ids| && setsUnder(ids[full]).data != []
    ensures SetCount(setsUnder, ids).Success? && SetCount(setsUnder, ids).value > 0
    ensures AllTestsets(setsUnder, ids) == Failure(TypeError)
  {
    SetCountMeaning(setsUnder, ids);
    AllTestsetsMeaning(setsUnder, ids);
    FlattenLength(FetchedSets(setsUnder, ids));
    assert |FetchedSets(setsUnder, ids)[full]| > 0;
  }

  /** With every filter non-empty, the count is the number of test sets the
      concatenation holds. */
  lemma CountMatchesConcatenation(setsUnder: string -> Fetch<seq<Entity>>, ids: seq<string>)
    requires AllNonEmpty(setsUnder, ids)
    ensures SetCount(setsUnder, ids).Success? && AllTestsets(setsUnder, ids).Success?
    ensures SetCount(setsUnder, ids).value == |AllTestsets(setsUnder, ids).value|
  {
    SetCountMeaning(setsUnder, ids);
    AllTestsetsMeaning(setsUnder, ids);
  }

  // ---------------------------------------------------------------------
  // Index of test sets by id

  /** The loop of `convert_test_set_obj_list_to_dict_set_id_as_key`. */
  function IndexById(sets: seq<Entity>): Fields<Entity>
  {
    if sets == [] then [] else Put(IndexById(sets[..|sets| - 1]), sets[|sets| - 1].id, sets[|sets| - 1])
  }

  /** The last set in the list carrying the id. */
  function LastWithId(sets: seq<Entity>, k: string): (r: Option<Entity>)
    ensures r.None? <==> k !in Ids(sets)
    ensures r.Some? ==> r.value in sets && r.value.id == k
  {
    if sets == [] then None
    else if sets[|sets| - 1].id == k then Some(sets[|sets| - 1])
    else
      assert Ids(sets) == Ids(sets[..|sets| - 1]) + [sets[|sets| - 1].id];
      LastWithId(sets[..|sets| - 1], k)
  }

  /** No test set after the one found carries the same id. */
  lemma {:induction false} LastWithIdIsLast(sets: seq<Entity>, k: string, i: nat)
    requires i < |sets| && sets[i].id == k
    ensures LastWithId(sets, k).Some?
    ensures (forall j :: i < j < |sets| ==> sets[j].id != k) ==> LastWithId(sets, k) == Some(sets[i])
    decreases |sets|
  {
    assert Ids(sets)[i] == k;
    if i < |sets| - 1 && sets[|sets| - 1].id != k {
      LastWithIdIsLast(sets[..|sets| - 1], k, i);
    }
  }

  /** Each id once, in the order of first appearance. */
  function FirstOccurrences(ids: seq<string>): (r: seq<string>)
    ensures forall k :: k in r <==> k in ids
  {
    if ids == [] then []
    else
      var init := FirstOccurrences(ids[..|ids| - 1]);
      assert forall k :: k in ids <==> k in ids[..|ids| - 1] || k == ids[|ids| - 1];
      if ids[|ids| - 1] in init then init else init + [ids[|ids| - 1]]
  }

  function Ids(sets: seq<Entity>): (r: seq<string>)
    ensures |r| == |sets|
    ensures forall i :: 0 <= i < |sets| ==> r[i] == sets[i].id
  {
    seq(|sets|, i requires 0 <= i < |sets| => sets[i].id)
  }

  /** The index has each id once, in first-seen order, and holds for each id
      the last test set in the list with that id. */
  lemma IndexByIdMeaning(sets: seq<Entity>)
    ensures DistinctKeys(IndexById(sets))
    ensures Keys(IndexById(sets)) == FirstOccurrences(Ids(sets))
    ensures forall k :: Get(IndexById(sets), k) == LastWithId(sets, k)
  {
    IndexByIdKeys(sets);
    forall k ensures Get(IndexById(sets), k) == LastWithId(sets, k) {
      IndexByIdGet(sets, k);
    }
  }

  lemma {:induction false} IndexByIdKeys(sets: seq<Entity>)
    ensures DistinctKeys(IndexById(sets))
    ensures Keys(IndexById(sets)) == FirstOccurrences(Ids(sets))
  {
    if sets != [] {
      var init := sets[..|sets| - 1];
      var last := sets[|sets| - 1];
      var d := IndexById(init);
      IndexByIdKeys(init);
      PutKeys(d, last.id, last);
      assert Ids(sets)[..|sets| - 1] == Ids(init);
      PutGet(d, last.id, last, last.id);
    }
  }

  lemma {:induction false} IndexByIdGet(sets: seq<Entity>, k: string)
    ensures Get(IndexById(sets), k) == LastWithId(sets, k)
  {
    if sets != [] {
      var init := sets[..|sets| - 1];
      var last := sets[|sets| - 1];
      IndexByIdGet(init, k);
      IndexByIdKeys(init);
      PutGet(IndexById(init), last.id, last, k);
    }
  }

  /** `convert_test_set_obj_list_to_dict_set_id_as_key`. */
  method ConvertTestSetObjListToDictSetIdAsKey(testSetsList: seq<Entity>) returns (d: Fields<Entity>)
    ensures d == IndexById(testSetsList)
  {
    d := [];
    for i := 0 to |testSetsList|
      invariant d == IndexById(testSetsList[..i])
    {
      assert testSetsList[..i + 1][..i] == testSetsList[..i];
      d := Put(d, testSetsList[i].id, testSetsList[i]);
    }
    assert testSetsList[..|testSetsList|] == testSetsList;
  }

  // ---------------------------------------------------------------------
  // Instances by status, page by page

  const PageSize := 100

  function PageAt(pages: seq<Fetch<seq<Entity>>>, page: nat): Fetch<seq<Entity>>
  {
    if 1 <= page <= |pages| then pages[page - 1] else Fetched([])
  }

  /** A string value of the instance's attributes; None where the lookup or
      the `.lower()` on it raises. */
  function StringAttribute(e: Entity, name: string): Result<string, Exception>
  {
    var v :- Need(Get(e.attributes, name), KeyError(name));
    if v.Str? then Success(v.s) else Failure(AttributeError)
  }

  /** `custom_fields[key]` on whatever `custom-fields` holds. */
  function CustomFieldValue(customFields: Value, key: string): Result<Value, Exception>
  {
    if customFields.Dict? then Need(Get(customFields.entries, key), KeyError(key))
    else Failure(TypeError)
  }

  /** The lower-cased run-only value of the test set owning the instance. */
  function OwningSetRunOnly(sets: Fields<Entity>, field: string, instance: Entity): Result<string, Exception>
  {
    var setId :- Need(Get(instance.attributes, "set-id"), KeyError("set-id"));
    var testSet :- Need(Get(sets, Show(setId)), KeyError(Show(setId)));
    var customFields :- Need(CustomFields(testSet), KeyError("custom-fields"));
    var runOnly :- CustomFieldValue(customFields, field);
    if runOnly.Str? then Success(Lower(runOnly.s)) else Failure(AttributeError)
  }

  /** Whether an instance is kept, given its set's lower-cased run-only value:
      always for `all`, otherwise when its lower-cased `run-status` equals it. */
  function KeepForRunOnly(runOnly: string, instance: Entity): (r: Result<bool, Exception>)
    ensures runOnly == "all" ==> r == Success(true)
    ensures runOnly != "all" ==>
      (r.Success? <==> StringAttribute(instance, "run-status").Success?)
      && (r.Success? ==> (r.value <==> Lower(StringAttribute(instance, "run-status").value) == runOnly))
  {
    if runOnly == "all" then Success(true)
    else
      var status :- StringAttribute(instance, "run-status");
      Success(Lower(status) == runOnly)
  }

  function KeepDecision(sets: Fields<Entity>, field: string, instance: Entity): Result<bool, Exception>
  {
    var runOnly :- OwningSetRunOnly(sets, field, instance);
    KeepForRunOnly(runOnly, instance)
  }

  /** The kept instances of one page, in page order; the first lookup that
      raises ends the whole call. */
  function SelectByStatus(decide: Entity -> Result<bool, Exception>, data: seq<Entity>): Result<seq<Entity>, Exception>
  {
    if data == [] then Success([])
    else
      var kept :- SelectByStatus(decide, data[..|data| - 1]);
      var keep :- decide(data[|data| - 1]);
      Success(if keep then kept + [data[|data| - 1]] else kept)
  }

  /** The selection is the order-preserving subsequence of the instances the
      decision keeps: every kept instance was kept by the decision, and every
      instance the decision keeps is there. */
  lemma {:induction false} SelectByStatusMeaning(decide: Entity -> Result<bool, Exception>, data: seq<Entity>)
    requires SelectByStatus(decide, data).Success?
    ensures forall x :: x in SelectByStatus(decide, data).value <==> x in data && decide(x) == Success(true)
    ensures |SelectByStatus(decide, data).value| <= |data|
    ensures forall i :: 0 <= i < |data| ==> decide(data[i]).Success?
  {
    if data != [] {
      var init := data[..|data| - 1];
      SelectByStatusMeaning(decide, init);
      assert data == init + [data[|data| - 1]];
    }
  }

  /** A decision that keeps every instance selects the whole page, in order. */
  lemma {:induction false} SelectKeepsAll(decide: Entity -> Result<bool, Exception>, data: seq<Entity>)
    requires forall i :: 0 <= i < |data| ==> decide(data[i]) == Success(true)
    ensures SelectByStatus(decide, data) == Success(data)
  {
    if data != [] {
      SelectKeepsAll(decide, data[..|data| - 1]);
      assert data[..|data| - 1] + [data[|data| - 1]] == data;
    }
  }

  /** The keep decision of `get_list_of_tests_by_status` for one block. */
  function Decider(sets: Fields<Entity>, field: string): Entity -> Result<bool, Exception>
  {
    x => KeepDecision(sets, field, x)
  }

  /** When every instance's set says `all`, every instance is kept, in order,
      whatever its run status. */
  lemma SelectAllStatus(sets: Fields<Entity>, field: string, data: seq<Entity>)
    requires forall i :: 0 <= i < |data| ==> OwningSetRunOnly(sets, field, data[i]) == Success("all")
    ensures SelectByStatus(Decider(sets, field), data) == Success(data)
  {
    SelectKeepsAll(Decider(sets, field), data);
  }

  lemma {:induction false} SelectFailureStays(decide: Entity -> Result<bool, Exception>, data: seq<Entity>, i: nat)
    requires i <= |data|
    requires SelectByStatus(decide, data[..i]).Failure?
    ensures SelectByStatus(decide, data) == SelectByStatus(decide, data[..i])
    decreases |data| - i
  {
    if i < |data| {
      assert data[..i + 1][..i] == data[..i];
      SelectFailureStays(decide, data, i + 1);
    } else {
      assert data[..i] == data;
    }
  }

  /** Selecting over two pages is selecting over each in turn. */
  lemma {:induction false} SelectAppend(decide: Entity -> Result<bool, Exception>, a: seq<Entity>, b: seq<Entity>)
    requires SelectByStatus(decide, a).Success? && SelectByStatus(decide, b).Success?
    ensures SelectByStatus(decide, a + b) ==
      Success(SelectByStatus(decide, a).value + SelectByStatus(decide, b).value)
  {
    if b != [] {
      var init := b[..|b| - 1];
      var last := b[|b| - 1];
      assert (a + b)[..|a + b| - 1] == a + init;
      assert (a + b)[|a + b| - 1] == last;
      var sa := SelectByStatus(decide, a).value;
      var si := SelectByStatus(decide, init).value;
      SelectAppend(decide, a, init);
      if decide(last).value {
        assert SelectByStatus(decide, a + b) == Success((sa + si) + [last]);
        assert SelectByStatus(decide, b) == Success(si + [last]);
        assert (sa + si) + [last] == sa + (si + [last]);
      }
    } else {
      assert a + b == a;
      assert SelectByStatus(decide, a).value + [] == SelectByStatus(decide, a).value;
    }
  }

  /** The selection fails exactly when the decision for some instance raises. */
  lemma {:induction false} SelectSucceedsIff(decide: Entity -> Result<bool, Exception>, data: seq<Entity>)
    ensures SelectByStatus(decide, data).Success? <==>
      forall i :: 0 <= i < |data| ==> decide(data[i]).Success?
  {
    if data != [] {
      var init := data[..|data| - 1];
      SelectSucceedsIff(decide, init);
      assert forall i :: 0 <= i < |init| ==> init[i] == data[i];
    }
  }

  /** A selection that succeeds over two pages succeeds over each. */
  lemma SelectSplit(decide: Entity -> Result<bool, Exception>, a: seq<Entity>, b: seq<Entity>)
    requires SelectByStatus(decide, a + b).Success?
    ensures SelectByStatus(decide, a).Success? && SelectByStatus(decide, b).Success?
  {
    SelectSucceedsIff(decide, a + b);
    SelectSucceedsIff(decide, a);
    SelectSucceedsIff(decide, b);
    assert forall i :: 0 <= i < |a| ==> (a + b)[i] == a[i];
    assert forall i :: 0 <= i < |b| ==> (a + b)[|a| + i] == b[i];
  }

  /** The kept instances found so far, ahead of what the later pages yield. */
  function Prepend(kept: seq<Entity>, rest: Result<seq<Entity>, Exception>): Result<seq<Entity>, Exception>
  {
    if rest.Success? then Success(kept + rest.value) else rest
  }

  /** The `while True` loop of `get_list_of_tests_by_status` from page `page`
      on: the kept instances and the number of requests made. */
  function TestsByStatusFrom(decide: Entity -> Result<bool, Exception>, pages: seq<Fetch<seq<Entity>>>, page: nat)
    : (Result<seq<Entity>, Exception>, nat)
    requires 1 <= page <= |pages| + 1
    decreases |pages| + 1 - page
  {
    match PageAt(pages, page)
    case Aborted(e) => (Failure(e), 1)
    case Fetched(data) =>
      match SelectByStatus(decide, data)
      case Failure(e) => (Failure(e), 1)
      case Success(kept) =>
        if |data| < PageSize then (Success(kept), 1)
        else
          var rest := TestsByStatusFrom(decide, pages, page + 1);
          (Prepend(kept, rest.0), rest.1 + 1)
  }

  /** The instances of pages `page` to `page + n`, in page order. */
  function Window(pages: seq<Fetch<seq<Entity>>>, page: nat, n: nat): seq<Entity>
    requires 1 <= page && page + n <= |pages|
    decreases n
  {
    if n == 0 then DataOf(pages[page - 1]) else DataOf(pages[page - 1]) + Window(pages, page + 1, n - 1)
  }

  /** A full page whose instances all get a decision leads to the next page. */
  lemma FullPageStep(decide: Entity -> Result<bool, Exception>, pages: seq<Fetch<seq<Entity>>>, page: nat)
    requires 1 <= page <= |pages| && pages[page - 1].Fetched?
    requires |pages[page - 1].data| >= PageSize
    requires SelectByStatus(decide, pages[page - 1].data).Success?
    ensures TestsByStatusFrom(decide, pages, page) ==
      (Prepend(SelectByStatus(decide, pages[page - 1].data).value, TestsByStatusFrom(decide, pages, page + 1).0),
       TestsByStatusFrom(decide, pages, page + 1).1 + 1)
  {
    assert PageAt(pages, page) == pages[page - 1];
  }

  /** A short page whose instances all get a decision is the last one asked for. */
  lemma ShortPageStops(decide: Entity -> Result<bool, Exception>, pages: seq<Fetch<seq<Entity>>>, page: nat)
    requires 1 <= page <= |pages| && pages[page - 1].Fetched?
    requires |pages[page - 1].data| < PageSize
    requires SelectByStatus(decide, pages[page - 1].data).Success?
    ensures TestsByStatusFrom(decide, pages, page) == (SelectByStatus(decide, pages[page - 1].data), 1)
  {
    assert PageAt(pages, page) == pages[page - 1];
  }

  /** Pagination: after `n` full pages, a page of fewer than 100 instances is
      the last one asked for, so `n + 1` requests are made, and the result is
      the selection over all instances of those pages in page order. */
  lemma {:induction false} PaginationStops(decide: Entity -> Result<bool, Exception>, pages: seq<Fetch<seq<Entity>>>, page: nat, n: nat)
    requires 1 <= page && page + n <= |pages|
    requires forall i :: page - 1 <= i <= page - 1 + n ==> pages[i].Fetched?
    requires forall i :: page - 1 <= i < page - 1 + n ==> |pages[i].data| >= PageSize
    requires |pages[page - 1 + n].data| < PageSize
    requires SelectByStatus(decide, Window(pages, page, n)).Success?
    ensures TestsByStatusFrom(decide, pages, page) == (SelectByStatus(decide, Window(pages, page, n)), n + 1)
    decreases n
  {
    var here := pages[page - 1].data;
    if n == 0 {
      ShortPageStops(decide, pages, page);
    } else {
      var rest := Window(pages, page + 1, n - 1);
      assert Window(pages, page, n) == here + rest;
      SelectSplit(decide, here, rest);
      FullPageStep(decide, pages, page);
      PaginationStops(decide, pages, page + 1, n - 1);
      SelectAppend(decide, here, rest);
    }
  }

  /** An empty first page: one request, nothing kept. */
  lemma EmptyFirstPage(decide: Entity -> Result<bool, Exception>, pages: seq<Fetch<seq<Entity>>>)
    requires pages == [] || pages[0] == Fetched([])
    ensures TestsByStatusFrom(decide, pages, 1) == (Success([]), 1)
  {
  }

  /** `get_list_of_tests_by_status` on the pages the `set-ids` query returns,
      with `decide` the block's keep decision, `decide`. */
  method GetListOfTestsByStatus(decide: Entity -> Result<bool, Exception>, pages: seq<Fetch<seq<Entity>>>)
    returns (r: Result<seq<Entity>, Exception>, requests: nat)
    ensures (r, requests) == TestsByStatusFrom(decide, pages, 1)
  {
    var testsToExecute: seq<Entity> := [];
    var page := 1;
    requests := 0;
    ghost var whole := TestsByStatusFrom(decide, pages, 1);
    assert whole.0.Success? ==> [] + whole.0.value == whole.0.value;
    while true
      invariant 1 <= page <= |pages| + 1
      invariant whole.0 == Prepend(testsToExecute, TestsByStatusFrom(decide, pages, page).0)
      invariant whole.1 == requests + TestsByStatusFrom(decide, pages, page).1
      decreases |pages| + 1 - page
    {
      var response := PageAt(pages, page);
      ghost var current := page;
      page := page + 1;
      requests := requests + 1;
      if response.Aborted? {
        return Failure(response.error), requests;
      }
      var data := response.data;
      ghost var before := testsToExecute;
      for i := 0 to |data|
        invariant SelectByStatus(decide, data[..i]).Success?
        invariant testsToExecute == before + SelectByStatus(decide, data[..i]).value
      {
        assert data[..i + 1][..i] == data[..i];
        var keep := decide(data[i]);
        if keep.Failure? {
          SelectFailureStays(decide, data, i + 1);
          return Failure(keep.error), requests;
        }
        if keep.value {
          testsToExecute := testsToExecute + [data[i]];
        }
      }
      assert data[..|data|] == data;
      if |data| < PageSize {
        break;
      }
      ghost var kept := SelectByStatus(decide, data).value;
      ghost var later := TestsByStatusFrom(decide, pages, page).0;
      assert later.Success? ==> before + (kept + later.value) == testsToExecute + later.value;
    }
    r := Success(testsToExecute);
  }

  // ---------------------------------------------------------------------
  // Work items

  /** The keys a work item carries: the thirteen the base class writes and
      the sixteen the KMS block adds (`KeyName` gives each one's text). */
  datatype BaseKey =
    | ProjectName | TestId | TestInstance | TestName | TestSetId | TestSetName | ProjectPtId
    | ExecutionSessionId | AutomationRunOnly | AwsInstanceType | Debug | ExecutionType | SyncExec

  datatype KmsKey =
    | Environment | Browser | UpdateHostFile | ExecuteAtNight | VerifyVersions | KmsBuild
    | PlayerVersion | AssignedTo | AutomationArguments | Partner | BaseUrl | AdminUsername
    | AdminPassword | LoginUsername | LoginPassword | PlayerVersionV7

  datatype ItemKey = Base(base: BaseKey) | Kms(kms: KmsKey)

  function KeyName(k: ItemKey): string
  {
    match k
    case Base(b) => (
      match b
      case ProjectName => "project_name"
      case TestId => "test_id"
      case TestInstance => "test_instance"
      case TestName => "test_name"
      case TestSetId => "test_set_id"
      case TestSetName => "test_set_name"
      case ProjectPtId => "project_pt_id"
      case ExecutionSessionId => "execution_session_id"
      case AutomationRunOnly => "automation_run_only"
      case AwsInstanceType => "aws_instance_type"
      case Debug => "debug"
      case ExecutionType => "execution_type"
      case SyncExec => "sync_exec")
    case Kms(o) => (
      match o
      case Environment => "environment"
      case Browser => "browser"
      case UpdateHostFile => "update_host_file"
      case ExecuteAtNight => "execute_at_night"
      case VerifyVersions => "verify_versions"
      case KmsBuild => "kmsBuild"
      case PlayerVersion => "playerVersion"
      case AssignedTo => "assigned_to"
      case AutomationArguments => "automation_arguments"
      case Partner => "partner"
      case BaseUrl => "base_url"
      case AdminUsername => "admin_username"
      case AdminPassword => "admin_password"
      case LoginUsername => "login_username"
      case LoginPassword => "login_password"
      case PlayerVersionV7 => "playerVersionV7")
  }

  /** A work item: a flat dict of text fields. */
  type WorkItem = map<ItemKey, string>

  const InitialKeys: set<ItemKey> := {
    Base(ProjectName), Base(TestId), Base(TestInstance), Base(TestName), Base(TestSetId),
    Base(TestSetName), Base(ProjectPtId), Base(ExecutionSessionId), Base(AutomationRunOnly),
    Base(AwsInstanceType), Base(Debug), Base(ExecutionType), Base(SyncExec)}

  /** The characters deleted from `test_name`, in the order of the `replace`
      calls. */
  const ForbiddenNameChars := "'\",()<>!@#*"

  /** `replace(c, '')` for each character of `cs` in turn; the chain above
      is this with `cs` the forbidden characters. */
  function DeleteAll(s: string, cs: seq<char>): string
    decreases |cs|
  {
    if cs == [] then s else DeleteAll(DeleteChar(s, cs[0]), cs[1..])
  }

  /** The chain of `replace(c, '')` calls on the test name, in source order. */
  function SanitizeTestName(name: string): string
  {
    DeleteChar(DeleteChar(DeleteChar(DeleteChar(DeleteChar(DeleteChar(DeleteChar(DeleteChar(
      DeleteChar(DeleteChar(DeleteChar(name, '\''), '"'), ','), '('), ')'), '<'), '>'), '!'), '@'), '#'), '*')
  }

  lemma {:induction false} DeleteAllWithout(s: string, done: set<char>, cs: seq<char>)
    ensures DeleteAll(Without(s, done), cs) == Without(s, done + set c | c in cs)
    decreases |cs|
  {
    if cs == [] {
      assert done + (set c | c in cs) == done;
    } else {
      DeleteAfterWithout(s, done, cs[0]);
      DeleteAllWithout(s, done + {cs[0]}, cs[1..]);
      assert done + {cs[0]} + (set c | c in cs[1..]) == done + (set c | c in cs);
    }
  }

  /** The sanitised name is the name with every forbidden character deleted
      and every other character kept in order. */
  lemma SanitizeTestNameDeletes(name: string)
    ensures SanitizeTestName(name) == Without(name, set c | c in ForbiddenNameChars)
    ensures forall c :: c in SanitizeTestName(name) <==> c in name && c !in ForbiddenNameChars
  {
    WithoutNothing(name);
    DeleteAllWithout(name, {}, ForbiddenNameChars);
    assert {} + (set c | c in ForbiddenNameChars) == set c | c in ForbiddenNameChars;
    WithoutMembers(name, set c | c in ForbiddenNameChars);
  }

  /** The test set an instance belongs to, looked up by `str(set-id)`. */
  function OwningSet(sets: Fields<Entity>, test: Entity): Result<Entity, Exception>
  {
    var setId :- Need(Get(test.attributes, "set-id"), KeyError("set-id"));
    Need(Get(sets, Show(setId)), KeyError(Show(setId)))
  }

  function Attribute(e: Entity, name: string): Result<Value, Exception>
  {
    Need(Get(e.attributes, name), KeyError(name))
  }

  /** What the loop body of `get_dict_of_tests_objects` looks up for one
      instance, in the order it looks them up. */
  datatype Lookups = Lookups(
    testSet: Entity, setCustomFields: Value, displayId: Value, name: Value,
    setDisplayId: Value, setName: Value, projectId: Value,
    runOnly: Value, instanceType: Value, debug: string)

  /** Every lookup the loop body makes for one instance succeeds, in source
      order: the owning set by `str(set-id)`, both `custom-fields` dicts, the
      instance's display id and name, the set's display id and name, the
      project id, the run-only and instance-type custom fields of the set,
      and the debug value from the three-tier resolver. */
  predicate LookupsSucceed(c: Config, sets: Fields<Entity>, test: Entity)
  {
    OwningSet(sets, test).Success? &&
    var testSet := OwningSet(sets, test).value;
    && CustomFields(testSet).Some?
    && CustomFields(test).Some?
    && Attribute(test, "test-display-id").Success?
    && Attribute(test, "name").Success?
    && Attribute(testSet, "display-id").Success?
    && Attribute(testSet, "name").Success?
    && Attribute(test, "project-id").Success?
    && CustomFieldValue(CustomFields(testSet).value, c.automationRunOnly).Success?
    && CustomFieldValue(CustomFields(testSet).value, c.awsInstanceType).Success?
    && GetPrioritizedValue(c.debug, testSet, test, true).Success?
  }

  /** The lookups of one instance, or the exception the first failing one
      raises. */
  function LookUp(c: Config, sets: Fields<Entity>, test: Entity): (r: Result<Lookups, Exception>)
    ensures r.Success? <==> LookupsSucceed(c, sets, test)
    ensures r.Success? ==>
      && OwningSet(sets, test) == Success(r.value.testSet)
      && CustomFields(r.value.testSet) == Some(r.value.setCustomFields)
      && Attribute(test, "test-display-id") == Success(r.value.displayId)
      && Attribute(test, "name") == Success(r.value.name)
      && Attribute(r.value.testSet, "display-id") == Success(r.value.setDisplayId)
      && Attribute(r.value.testSet, "name") == Success(r.value.setName)
      && Attribute(test, "project-id") == Success(r.value.projectId)
      && CustomFieldValue(r.value.setCustomFields, c.automationRunOnly) == Success(r.value.runOnly)
      && CustomFieldValue(r.value.setCustomFields, c.awsInstanceType) == Success(r.value.instanceType)
      && GetPrioritizedValue(c.debug, r.value.testSet, test, true) == Success(r.value.debug)
    ensures OwningSet(sets, test).Failure? ==> r == Failure(OwningSet(sets, test).error)
  {
    var testSet :- OwningSet(sets, test);
    var setCustomFields :- Need(CustomFields(testSet), KeyError("custom-fields"));
    var _ :- Need(CustomFields(test), KeyError("custom-fields"));
    var displayId :- Attribute(test, "test-display-id");
    var name :- Attribute(test, "name");
    var setDisplayId :- Attribute(testSet, "display-id");
    var setName :- Attribute(testSet, "name");
    var projectId :- Attribute(test, "project-id");
    var runOnly :- CustomFieldValue(setCustomFields, c.automationRunOnly);
    var instanceType :- CustomFieldValue(setCustomFields, c.awsInstanceType);
    var debug :- GetPrioritizedValue(c.debug, testSet, test, true);
    Success(Lookups(testSet, setCustomFields, displayId, name, setDisplayId, setName, projectId,
                    runOnly, instanceType, debug))
  }

  /** One pass of the loop body of `get_dict_of_tests_objects`: the record for
      one kept instance, or the exception one of its lookups raises. A record
      is built exactly when every lookup succeeds, and holds exactly the
      thirteen initial keys. */
  function BuildRecord(c: Config, sets: Fields<Entity>, test: Entity, sessionId: string): (r: Result<WorkItem, Exception>)
    ensures r.Success? <==> LookupsSucceed(c, sets, test)
    ensures r.Success? ==> r.value.Keys == InitialKeys
    ensures OwningSet(sets, test).Failure? ==> r == Failure(OwningSet(sets, test).error)
  {
    var lk :- LookUp(c, sets, test);
    Success(InitialRecord(c, test, lk, sessionId))
  }

  /** The dict the loop body fills from one instance's lookups: exactly the
      thirteen initial keys, each holding its `InitialValue`. */
  function InitialRecord(c: Config, test: Entity, lk: Lookups, sessionId: string): (w: WorkItem)
    ensures w.Keys == InitialKeys
    ensures forall k :: k in w <==> k.Base?
    ensures forall k :: k in w ==> w[k] == InitialValue(c, test, lk, sessionId, k.base)
  {
    InitialKeysAreBaseKeys();
    map k | k in InitialKeys :: InitialValue(c, test, lk, sessionId, k.base)
  }

  lemma InitialKeysAreBaseKeys()
    ensures forall k :: k in InitialKeys <==> k.Base?
  {
    forall k: ItemKey | k.Base? ensures k in InitialKeys {
      match k.base
      case ProjectName =>
      case TestId =>
      case TestInstance =>
      case TestName =>
      case TestSetId =>
      case TestSetName =>
      case ProjectPtId =>
      case ExecutionSessionId =>
      case AutomationRunOnly =>
      case AwsInstanceType =>
      case Debug =>
      case ExecutionType =>
      case SyncExec =>
    }
  }

  /** The text the loop body writes under each of the thirteen initial keys. */
  function InitialValue(c: Config, test: Entity, lk: Lookups, sessionId: string, k: BaseKey): string
  {
    match k
    case ProjectName => c.projectName
    case TestId => Show(lk.displayId)
    case TestInstance => test.id
    case TestName => SanitizeTestName(Show(lk.name))
    case TestSetId => Show(lk.setDisplayId)
    case TestSetName => Show(lk.setName)
    case ProjectPtId => Show(lk.projectId)
    case ExecutionSessionId => sessionId
    case AutomationRunOnly => Show(lk.runOnly)
    case AwsInstanceType => Show(lk.instanceType)
    case Debug => lk.debug
    case ExecutionType => c.executionType
    case SyncExec => TryToGetFromDict(lk.setCustomFields, c.syncExec, NoneText, true)
  }

  /** Every field of a built record, in terms of the instance, its owning set,
      the set's custom fields and the block's settings: the project name, the
      instance's display id, id and sanitised name, the set's display id and
      name, the project id, the session id, the run-only and instance-type
      custom fields of the set as text, the resolved debug value, the
      execution type, and the sync-exec custom field of the set or "None". */
  lemma BuildRecordValues(c: Config, sets: Fields<Entity>, test: Entity, sessionId: string)
    requires BuildRecord(c, sets, test, sessionId).Success?
    ensures LookupsSucceed(c, sets, test)
    ensures var w := BuildRecord(c, sets, test, sessionId).value;
      var testSet := OwningSet(sets, test).value;
      var setCustomFields := CustomFields(testSet).value;
      && w.Keys == InitialKeys
      && w[Base(ProjectName)] == c.projectName
      && w[Base(TestId)] == Show(Attribute(test, "test-display-id").value)
      && w[Base(TestInstance)] == test.id
      && w[Base(TestName)] == SanitizeTestName(Show(Attribute(test, "name").value))
      && w[Base(TestSetId)] == Show(Attribute(testSet, "display-id").value)
      && w[Base(TestSetName)] == Show(Attribute(testSet, "name").value)
      && w[Base(ProjectPtId)] == Show(Attribute(test, "project-id").value)
      && w[Base(ExecutionSessionId)] == sessionId
      && w[Base(AutomationRunOnly)] == Show(CustomFieldValue(setCustomFields, c.automationRunOnly).value)
      && w[Base(AwsInstanceType)] == Show(CustomFieldValue(setCustomFields, c.awsInstanceType).value)
      && w[Base(Debug)] == GetPrioritizedValue(c.debug, testSet, test, true).value
      && w[Base(ExecutionType)] == c.executionType
      && w[Base(SyncExec)] == TryToGetFromDict(setCustomFields, c.syncExec, NoneText, true)
  {
    var lk := LookUp(c, sets, test).value;
    assert BuildRecord(c, sets, test, sessionId).value == InitialRecord(c, test, lk, sessionId);
    InitialRecordInstance(c, test, lk, sessionId);
    InitialRecordSet(c, test, lk, sessionId);
    InitialRecordRun(c, test, lk, sessionId);
  }

  lemma InitialRecordInstance(c: Config, test: Entity, lk: Lookups, sessionId: string)
    ensures var w := InitialRecord(c, test, lk, sessionId);
      && w[Base(ProjectName)] == c.projectName
      && w[Base(TestId)] == Show(lk.displayId)
      && w[Base(TestInstance)] == test.id
      && w[Base(TestName)] == SanitizeTestName(Show(lk.name))
  {
    InitialRecordAt(c, test, lk, sessionId, ProjectName);
    InitialRecordAt(c, test, lk, sessionId, TestId);
    InitialRecordAt(c, test, lk, sessionId, TestInstance);
    InitialRecordAt(c, test, lk, sessionId, TestName);
  }

  lemma InitialRecordSet(c: Config, test: Entity, lk: Lookups, sessionId: string)
    ensures var w := InitialRecord(c, test, lk, sessionId);
      && w[Base(TestSetId)] == Show(lk.setDisplayId)
      && w[Base(TestSetName)] == Show(lk.setName)
      && w[Base(ProjectPtId)] == Show(lk.projectId)
      && w[Base(AutomationRunOnly)] == Show(lk.runOnly)
      && w[Base(AwsInstanceType)] == Show(lk.instanceType)
  {
    InitialRecordAt(c, test, lk, sessionId, TestSetId);
    InitialRecordAt(c, test, lk, sessionId, TestSetName);
    InitialRecordAt(c, test, lk, sessionId, ProjectPtId);
    InitialRecordAt(c, test, lk, sessionId, AutomationRunOnly);
    InitialRecordAt(c, test, lk, sessionId, AwsInstanceType);
  }

  lemma InitialRecordRun(c: Config, test: Entity, lk: Lookups, sessionId: string)
    ensures var w := InitialRecord(c, test, lk, sessionId);
      && w[Base(ExecutionSessionId)] == sessionId
      && w[Base(Debug)] == lk.debug
      && w[Base(ExecutionType)] == c.executionType
      && w[Base(SyncExec)] == TryToGetFromDict(lk.setCustomFields, c.syncExec, NoneText, true)
  {
    InitialRecordAt(c, test, lk, sessionId, ExecutionSessionId);
    InitialRecordAt(c, test, lk, sessionId, Debug);
    InitialRecordAt(c, test, lk, sessionId, ExecutionType);
    InitialRecordAt(c, test, lk, sessionId, SyncExec);
  }

  lemma InitialRecordAt(c: Config, test: Entity, lk: Lookups, sessionId: string, k: BaseKey)
    ensures InitialRecord(c, test, lk, sessionId)[Base(k)] == InitialValue(c, test, lk, sessionId, k)
  {
  }

  /** The records built before the first instance whose lookups raise (the
      handler around the loop keeps the list built so far); `build(x, i)` is
      the record for instance `x` at position `i`. */
  function BuildRecordsFrom(build: (Entity, nat) -> Result<WorkItem, Exception>, tests: seq<Entity>, i: nat): (rs: seq<WorkItem>)
    requires i <= |tests|
    ensures |rs| <= |tests| - i
    ensures forall j :: 0 <= j < |rs| ==> build(tests[i + j], i + j) == Success(rs[j])
    ensures i + |rs| < |tests| ==> build(tests[i + |rs|], i + |rs|).Failure?
    decreases |tests| - i
  {
    if i == |tests| then []
    else
      match build(tests[i], i)
      case Failure(_) => []
      case Success(record) => [record] + BuildRecordsFrom(build, tests, i + 1)
  }

  /** The record builder of one block for one run. */
  function Builder(c: Config, sets: Fields<Entity>, sessionIds: nat -> string): (Entity, nat) -> Result<WorkItem, Exception>
  {
    (x: Entity, i: nat) => BuildRecord(c, sets, x, sessionIds(i))
  }

  /** What `get_dict_of_tests_objects` returns: None for an empty list of
      test sets, otherwise the records and the kept instances. */
  datatype TestsObjects = NoTestSets | TestsObjects(records: seq<WorkItem>, tests: seq<Entity>)

  /** The `set-ids` query: the indexed ids joined by commas. */
  function SetIdsQuery(sets: seq<Entity>): string
  {
    Join(Keys(IndexById(sets)), ",")
  }

  function DictOfTestsObjects(c: Config, filterTestSets: seq<Entity>, server: Server, sessionIds: nat -> string)
    : Result<TestsObjects, Exception>
  {
    if filterTestSets == [] then Success(NoTestSets)
    else
      var sets := IndexById(filterTestSets);
      var tests :- TestsByStatusFrom(Decider(sets, c.automationRunOnly), server.instancePages(SetIdsQuery(filterTestSets)), 1).0;
      Success(TestsObjects(BuildRecordsFrom(Builder(c, sets, sessionIds), tests, 0), tests))
  }

  /** An empty list of test sets gives None; otherwise the records are built
      for the kept instances in order, up to the first instance whose lookups
      raise, and each names its instance and holds exactly the initial keys. */
  lemma DictOfTestsObjectsRecords(c: Config, filterTestSets: seq<Entity>, server: Server, sessionIds: nat -> string)
    ensures filterTestSets == [] <==> DictOfTestsObjects(c, filterTestSets, server, sessionIds) == Success(NoTestSets)
    ensures var r := DictOfTestsObjects(c, filterTestSets, server, sessionIds);
      r.Success? && r.value.TestsObjects? ==>
        && |r.value.records| <= |r.value.tests|
        && (forall j :: 0 <= j < |r.value.records| ==>
              && BuildRecord(c, IndexById(filterTestSets), r.value.tests[j], sessionIds(j)) == Success(r.value.records[j])
              && r.value.records[j].Keys == InitialKeys
              && r.value.records[j][Base(TestInstance)] == r.value.tests[j].id)
        && (|r.value.records| < |r.value.tests| ==>
              BuildRecord(c, IndexById(filterTestSets), r.value.tests[|r.value.records|], sessionIds(|r.value.records|)).Failure?)
  {
    var r := DictOfTestsObjects(c, filterTestSets, server, sessionIds);
    if r.Success? && r.value.TestsObjects? {
      var sets := IndexById(filterTestSets);
      forall j | 0 <= j < |r.value.records|
        ensures BuildRecord(c, sets, r.value.tests[j], sessionIds(j)) == Success(r.value.records[j])
        ensures r.value.records[j][Base(TestInstance)] == r.value.tests[j].id
      {
        assert Builder(c, sets, sessionIds)(r.value.tests[j], j) == Success(r.value.records[j]);
        BuildRecordValues(c, sets, r.value.tests[j], sessionIds(j));
      }
    }
  }

  /** `get_dict_of_tests_objects`. */
  method GetDictOfTestsObjects(c: Config, filterTestSets: seq<Entity>, server: Server, sessionIds: nat -> string)
    returns (r: Result<TestsObjects, Exception>)
    ensures r == DictOfTestsObjects(c, filterTestSets, server, sessionIds)
  {
    if filterTestSets == [] {
      return Success(NoTestSets);
    }
    var sets := ConvertTestSetObjListToDictSetIdAsKey(filterTestSets);
    var tests, requests := GetListOfTestsByStatus(Decider(sets, c.automationRunOnly), server.instancePages(Join(Keys(sets), ",")));
    if tests.Failure? {
      return Failure(tests.error);
    }
    ghost var build := Builder(c, sets, sessionIds);
    var initialTestsList: seq<WorkItem> := [];
    var i := 0;
    EmptyAppend(BuildRecordsFrom(build, tests.value, 0));
    while i < |tests.value|
      invariant 0 <= i <= |tests.value|
      invariant BuildRecordsFrom(build, tests.value, 0) == initialTestsList + BuildRecordsFrom(build, tests.value, i)
      decreases |tests.value| - i
    {
      var record := BuildRecord(c, sets, tests.value[i], sessionIds(i));
      assert build(tests.value[i], i) == record;
      if record.Failure? {
        break;
      }
      AppendAssoc(initialTestsList, [record.value], BuildRecordsFrom(build, tests.value, i + 1));
      initialTestsList := initialTestsList + [record.value];
      i := i + 1;
    }
    assert BuildRecordsFrom(build, tests.value, i) == [];
    AppendEmpty(initialTestsList);
    r := Success(TestsObjects(initialTestsList, tests.value));
  }
}
