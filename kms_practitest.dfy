/** The KMS block of connector/static/core/kms/kms_practitest.py: the sixteen
    optional fields it adds to the records the base class builds, the
    enrichment loop that writes them in place, `trigger_execution` with its
    two handlers, and the gate of `start_service`. */
module KmsPractiTest {
  import opened Common
  import opened Text
  import opened StaticMethods
  import opened BasePractiTest

  /** The names `more_data` supplies: custom-field or attribute names, and
      for `browser` a spec for the three-tier resolver. */
  datatype MoreData = MoreData(
    environment: string, browser: FieldSpec, updateHostFile: string,
    executeAtNight: string, verifyVersions: string, kmsBuild: string,
    playerVersion: string, assignedTo: string, automationArguments: string,
    partner: string, baseUrl: string, adminUsername: string,
    adminPassword: string, loginUsername: string, loginPassword: string,
    playerVersionV7: string)

  datatype KmsConfig = KmsConfig(base: Config, more: MoreData)

  /** The sixteen optional keys, as keys of a work item. */
  const KmsKeys: set<ItemKey> := {
    Kms(Environment), Kms(Browser), Kms(UpdateHostFile), Kms(ExecuteAtNight),
    Kms(VerifyVersions), Kms(KmsBuild), Kms(PlayerVersion), Kms(AssignedTo),
    Kms(AutomationArguments), Kms(Partner), Kms(BaseUrl), Kms(AdminUsername),
    Kms(AdminPassword), Kms(LoginUsername), Kms(LoginPassword), Kms(PlayerVersionV7)}

  lemma KmsKeysAreKmsKeys()
    ensures forall k :: k in KmsKeys <==> k.Kms?
  {
    forall k: ItemKey | k.Kms? ensures k in KmsKeys {
      match k.kms
      case Environment =>
      case Browser =>
      case UpdateHostFile =>
      case ExecuteAtNight =>
      case VerifyVersions =>
      case KmsBuild =>
      case PlayerVersion =>
      case AssignedTo =>
      case AutomationArguments =>
      case Partner =>
      case BaseUrl =>
      case AdminUsername =>
      case AdminPassword =>
      case LoginUsername =>
      case LoginPassword =>
      case PlayerVersionV7 =>
    }
  }

  /** The optional keys read with the yes/no mapping, besides `browser`. */
  const YesNoKeys: set<KmsKey> := {UpdateHostFile, ExecuteAtNight, VerifyVersions}

  /** The optional keys whose default is the text `None`; the others default
      to the empty string. */
  const NoneDefaultKeys: set<KmsKey> := {
    Environment, UpdateHostFile, ExecuteAtNight, VerifyVersions, KmsBuild, PlayerVersion, AssignedTo}

  /** The optional keys read from the test's own custom fields. */
  const TestFieldKeys: set<KmsKey> := {
    AdminUsername, AdminPassword, LoginUsername, LoginPassword, PlayerVersionV7}

  /** What the loop looks up for one fetched test before scanning the
      records: its test set (by `str(set-id)`), that set's custom fields and
      the test's custom fields. */
  datatype TestContext = TestContext(testSet: Entity, setCustomFields: Value, testCustomFields: Value)

  function ContextOf(sets: Fields<Entity>, test: Entity): (r: Result<TestContext, Exception>)
    ensures r.Success? <==> OwningSet(sets, test).Success? && CustomFields(OwningSet(sets, test).value).Some? && CustomFields(test).Some?
    ensures r.Success? ==>
      && r.value.testSet == OwningSet(sets, test).value
      && Some(r.value.setCustomFields) == CustomFields(r.value.testSet)
      && Some(r.value.testCustomFields) == CustomFields(test)
  {
    var testSet :- OwningSet(sets, test);
    var setCustomFields :- Need(CustomFields(testSet), KeyError("custom-fields"));
    var testCustomFields :- Need(CustomFields(test), KeyError("custom-fields"));
    Success(TestContext(testSet, setCustomFields, testCustomFields))
  }

  /** The configured name an optional key is read under. */
  function NameFor(m: MoreData, k: KmsKey): string
  {
    match k
    case Environment => m.environment
    case UpdateHostFile => m.updateHostFile
    case ExecuteAtNight => m.executeAtNight
    case VerifyVersions => m.verifyVersions
    case KmsBuild => m.kmsBuild
    case PlayerVersion => m.playerVersion
    case AssignedTo => m.assignedTo
    case AutomationArguments => m.automationArguments
    case Partner => m.partner
    case BaseUrl => m.baseUrl
    case AdminUsername => m.adminUsername
    case AdminPassword => m.adminPassword
    case LoginUsername => m.loginUsername
    case LoginPassword => m.loginPassword
    case PlayerVersionV7 => m.playerVersionV7
    case Browser => ""  // read through the resolver instead
  }

  /** The dict an optional key is read from: the test set's attributes for
      `assigned_to`, the test's custom fields for the credentials and
      `playerVersionV7`, the test set's custom fields otherwise. */
  function SourceFor(ctx: TestContext, k: KmsKey): Value
  {
    if k == AssignedTo then Dict(ctx.testSet.attributes)
    else if k in TestFieldKeys then ctx.testCustomFields
    else ctx.setCustomFields
  }

  /** One `try_to_get_from_dict` line of the enrichment. */
  function OptionalValue(m: MoreData, ctx: TestContext, k: KmsKey): string
  {
    TryToGetFromDict(SourceFor(ctx, k), NameFor(m, k), if k in NoneDefaultKeys then NoneText else "", k in YesNoKeys)
  }

  /** A missing name gives `None` for the seven keys so defaulted and the
      empty string for the rest. */
  lemma OptionalDefaults(m: MoreData, ctx: TestContext, k: KmsKey)
    requires k != Browser
    requires !(SourceFor(ctx, k).Dict? && HasKey(SourceFor(ctx, k).entries, NameFor(m, k)))
    ensures OptionalValue(m, ctx, k) == if k in {Environment, UpdateHostFile, ExecuteAtNight, VerifyVersions, KmsBuild, PlayerVersion, AssignedTo} then "None" else ""
  {
  }

  /** A stored `'yes'` reads as `true` exactly under the three yes/no keys
      (the fourth, `browser`, goes through the resolver with the mapping on);
      every other key passes it through unchanged. */
  lemma OptionalYesNo(m: MoreData, ctx: TestContext, k: KmsKey)
    requires k != Browser
    requires SourceFor(ctx, k).Dict? && Get(SourceFor(ctx, k).entries, NameFor(m, k)) == Some(Str("yes"))
    ensures OptionalValue(m, ctx, k) == if k in {UpdateHostFile, ExecuteAtNight, VerifyVersions} then "true" else "yes"
  {
  }

  /** The credentials and `playerVersionV7` come from the test alone: any
      other test set leaves them as they are; every other optional key
      comes from the test set alone. */
  lemma OptionalSources(m: MoreData, ctx: TestContext, other: TestContext, k: KmsKey)
    requires k != Browser
    ensures k in TestFieldKeys && ctx.testCustomFields == other.testCustomFields ==>
      OptionalValue(m, ctx, k) == OptionalValue(m, other, k)
    ensures k !in TestFieldKeys && ctx.testSet == other.testSet && ctx.setCustomFields == other.setCustomFields ==>
      OptionalValue(m, ctx, k) == OptionalValue(m, other, k)
  {
  }

  /** The `browser` line: the resolver with the yes/no mapping. */
  function BrowserOf(m: MoreData, ctx: TestContext, test: Entity): Result<string, Exception>
  {
    GetPrioritizedValue(m.browser, ctx.testSet, test, true)
  }

  /** The record with every optional key `o` written as `values(o)`. */
  function Written(record: WorkItem, values: KmsKey -> string): (w: WorkItem)
    ensures forall k :: k in w <==> k in record || k.Kms?
    ensures forall k :: k in w && k.Base? ==> w[k] == record[k]
    ensures forall o :: w[Kms(o)] == values(o)
  {
    KmsKeysAreKmsKeys();
    map k | k in record.Keys + KmsKeys :: if k.Kms? then values(k.kms) else record[k]
  }

  /** The values of one match: the resolver's browser, the rest looked up. */
  function KmsValues(m: MoreData, ctx: TestContext, browser: string): KmsKey -> string
  {
    o => if o == Browser then browser else OptionalValue(m, ctx, o)
  }

  /** The record with all sixteen optional keys written. */
  function Enriched(m: MoreData, ctx: TestContext, record: WorkItem, browser: string): WorkItem
  {
    Written(record, KmsValues(m, ctx, browser))
  }

  /** The sixteen writes for one match, in source order: `environment`, then
      `browser`, whose resolver may raise and so end the writes, then the
      fourteen others. */
  function Enrich(m: MoreData, ctx: TestContext, test: Entity, record: WorkItem): (WorkItem, Option<Exception>)
  {
    var withEnvironment := record[Kms(Environment) := OptionalValue(m, ctx, Environment)];
    match BrowserOf(m, ctx, test)
    case Failure(e) => (withEnvironment, Some(e))
    case Success(browser) => (Enriched(m, ctx, record, browser), None)
  }

  // ---------------------------------------------------------------------
  // What the enrichment may change

  /** `after` is `before` with some optional keys written: every key stays,
      and every key outside the optional ones keeps its value. */
  predicate Extends(before: WorkItem, after: WorkItem)
  {
    && (forall k :: k in before ==> k in after)
    && (forall k :: k in after && k.Base? ==> k in before && after[k] == before[k])
  }

  predicate ExtendsAll(before: seq<WorkItem>, after: seq<WorkItem>)
  {
    |before| == |after| && forall j :: 0 <= j < |before| ==> Extends(before[j], after[j])
  }

  lemma ExtendsTransitive(a: WorkItem, b: WorkItem, c: WorkItem)
    requires Extends(a, b) && Extends(b, c)
    ensures Extends(a, c)
  {
  }

  lemma ExtendsAllTransitive(a: seq<WorkItem>, b: seq<WorkItem>, c: seq<WorkItem>)
    requires ExtendsAll(a, b) && ExtendsAll(b, c)
    ensures ExtendsAll(a, c)
  {
    forall j | 0 <= j < |a| ensures Extends(a[j], c[j]) {
      ExtendsTransitive(a[j], b[j], c[j]);
    }
  }

  /** Writing every optional key keeps the rest of the record. */
  lemma WrittenExtends(record: WorkItem, values: KmsKey -> string)
    ensures Extends(record, Written(record, values))
  {
  }

  /** One match either writes all sixteen keys (each from its source, the
      browser from the resolver) or, when the resolver raises, only
      `environment`; nothing else changes. */
  lemma EnrichWrites(m: MoreData, ctx: TestContext, test: Entity, record: WorkItem)
    ensures Extends(record, Enrich(m, ctx, test, record).0)
    ensures BrowserOf(m, ctx, test).Failure? ==>
      && Enrich(m, ctx, test, record).1 == Some(BrowserOf(m, ctx, test).error)
      && (forall k :: k in Enrich(m, ctx, test, record).0 <==> k in record || k == Kms(Environment))
      && Enrich(m, ctx, test, record).0[Kms(Environment)] == OptionalValue(m, ctx, Environment)
    ensures BrowserOf(m, ctx, test).Success? ==>
      && Enrich(m, ctx, test, record).1.None?
      && (forall k :: k in Enrich(m, ctx, test, record).0 <==> k in record || k.Kms?)
      && Enrich(m, ctx, test, record).0[Kms(Browser)] == BrowserOf(m, ctx, test).value
      && forall o :: o != Browser ==> Enrich(m, ctx, test, record).0[Kms(o)] == OptionalValue(m, ctx, o)
  {
    var browser := BrowserOf(m, ctx, test);
    if browser.Success? {
      WrittenExtends(record, KmsValues(m, ctx, browser.value));
    }
  }

  /** Writing all sixteen keys over an earlier enrichment of the same record
      gives what writing them over the record itself gives. */
  lemma WrittenAbsorbs(record: WorkItem, later: WorkItem, values: KmsKey -> string)
    requires Extends(record, later)
    ensures Written(later, values) == Written(record, values)
  {
    var a := Written(later, values);
    var b := Written(record, values);
    assert a.Keys == b.Keys;
    forall k | k in a ensures a[k] == b[k] {
      if k.Kms? {
        assert a[Kms(k.kms)] == values(k.kms);
      }
    }
  }

  // ---------------------------------------------------------------------
  // The enrichment loops

  /** The sixteen writes of one test, as the scan sees them: a record in,
      the record and the exception that ended the writes, if one did, out. */
  type Step = WorkItem -> (WorkItem, Option<Exception>)

  /** `str(initial_test['test_id'])` equals the display id, which must have
      been found. */
  predicate IdMatches(displayId: Result<Value, Exception>, record: WorkItem)
  {
    Base(TestId) in record && displayId.Success? && record[Base(TestId)] == Show(displayId.value)
  }

  /** The record matches the test: its `test_id` is the text of the test's
      `test-display-id`. */
  predicate Matches(test: Entity, record: WorkItem)
  {
    IdMatches(Attribute(test, "test-display-id"), record)
  }

  /** The inner loop for one test, from record `j` on: the records and the
      exception that ended the scan, if one did. Reading `test_id` comes
      before reading the display id, and both happen for every record. */
  function ScanRecords(enrich: Step, displayId: Result<Value, Exception>, records: seq<WorkItem>, j: nat): (seq<WorkItem>, Option<Exception>)
    requires j <= |records|
    decreases |records| - j
  {
    if j == |records| then (records, None)
    else if Base(TestId) !in records[j] then (records, Some(KeyError("test_id")))
    else if displayId.Failure? then (records, Some(displayId.error))
    else if records[j][Base(TestId)] != Show(displayId.value) then ScanRecords(enrich, displayId, records, j + 1)
    else
      var (record, error) := enrich(records[j]);
      if error.Some? then (records[j := record], error)
      else ScanRecords(enrich, displayId, records[j := record], j + 1)
  }

  function Enricher(m: MoreData, ctx: TestContext, test: Entity): Step
  {
    (r: WorkItem) => Enrich(m, ctx, test, r)
  }

  /** The outer loop, from test `i` on. */
  function EnrichFrom(m: MoreData, sets: Fields<Entity>, tests: seq<Entity>, records: seq<WorkItem>, i: nat): (seq<WorkItem>, Option<Exception>)
    requires i <= |tests|
    decreases |tests| - i
  {
    if i == |tests| then (records, None)
    else
      match ContextOf(sets, tests[i])
      case Failure(e) => (records, Some(e))
      case Success(ctx) =>
        var (scanned, error) := ScanRecords(Enricher(m, ctx, tests[i]), Attribute(tests[i], "test-display-id"), records, 0);
        if error.Some? then (scanned, error)
        else EnrichFrom(m, sets, tests, scanned, i + 1)
  }

  /** A step that only writes optional keys. */
  ghost predicate Keeps(enrich: Step)
  {
    forall r :: Extends(r, enrich(r).0)
  }

  lemma EnricherKeeps(m: MoreData, ctx: TestContext, test: Entity)
    ensures Keeps(Enricher(m, ctx, test))
  {
    forall r ensures Extends(r, Enricher(m, ctx, test)(r).0) {
      EnrichWrites(m, ctx, test, r);
    }
  }

  /** The scan only writes optional keys, whether or not it is cut short. */
  lemma {:induction false} ScanRecordsExtends(enrich: Step, displayId: Result<Value, Exception>, records: seq<WorkItem>, j: nat)
    requires j <= |records| && Keeps(enrich)
    ensures ExtendsAll(records, ScanRecords(enrich, displayId, records, j).0)
    decreases |records| - j
  {
    if j < |records| && IdMatches(displayId, records[j]) {
      var (record, error) := enrich(records[j]);
      assert Extends(records[j], record);
      if error.None? {
        ScanRecordsExtends(enrich, displayId, records[j := record], j + 1);
        ExtendsAllTransitive(records, records[j := record], ScanRecords(enrich, displayId, records[j := record], j + 1).0);
      }
    } else if j < |records| && Base(TestId) in records[j] && displayId.Success? {
      ScanRecordsExtends(enrich, displayId, records, j + 1);
    }
  }

  /** The enrichment keeps every record and every identity field, also when
      a lookup raises part way: the fields already written stay written. */
  lemma {:induction false} EnrichFromExtends(m: MoreData, sets: Fields<Entity>, tests: seq<Entity>, records: seq<WorkItem>, i: nat)
    requires i <= |tests|
    ensures ExtendsAll(records, EnrichFrom(m, sets, tests, records, i).0)
    decreases |tests| - i
  {
    if i < |tests| && ContextOf(sets, tests[i]).Success? {
      var ctx := ContextOf(sets, tests[i]).value;
      var enrich := Enricher(m, ctx, tests[i]);
      var (scanned, error) := ScanRecords(enrich, Attribute(tests[i], "test-display-id"), records, 0);
      EnricherKeeps(m, ctx, tests[i]);
      ScanRecordsExtends(enrich, Attribute(tests[i], "test-display-id"), records, 0);
      if error.None? {
        EnrichFromExtends(m, sets, tests, scanned, i + 1);
        ExtendsAllTransitive(records, scanned, EnrichFrom(m, sets, tests, scanned, i + 1).0);
      }
    }
  }

  // ---------------------------------------------------------------------
  // The same enrichment, record by record

  /** Whether every lookup of one match succeeds. */
  predicate Enrichable(m: MoreData, sets: Fields<Entity>, test: Entity)
  {
    ContextOf(sets, test).Success? && BrowserOf(m, ContextOf(sets, test).value, test).Success?
  }

  /** What one test does to one record when nothing raises. */
  function Outcome(m: MoreData, sets: Fields<Entity>, test: Entity, record: WorkItem): WorkItem
  {
    if Matches(test, record) && Enrichable(m, sets, test) then
      var ctx := ContextOf(sets, test).value;
      Enriched(m, ctx, record, BrowserOf(m, ctx, test).value)
    else record
  }

  /** One record after every test has had its turn, in fetch order. */
  function RecordAfter(m: MoreData, sets: Fields<Entity>, tests: seq<Entity>, record: WorkItem): WorkItem
  {
    if tests == [] then record else RecordAfter(m, sets, tests[1..], Outcome(m, sets, tests[0], record))
  }

  /** A scan that nothing cuts short applies the step, without error, to
      exactly the matching records from `j` on. */
  lemma {:induction false} ScanRecordsOutcome(enrich: Step, displayId: Result<Value, Exception>, records: seq<WorkItem>, j: nat)
    requires j <= |records|
    requires ScanRecords(enrich, displayId, records, j).1.None?
    ensures var out := ScanRecords(enrich, displayId, records, j).0;
      |out| == |records|
      && (forall q :: 0 <= q < j ==> out[q] == records[q])
      && (forall q :: j <= q < |records| && !IdMatches(displayId, records[q]) ==> out[q] == records[q])
      && (forall q :: j <= q < |records| && IdMatches(displayId, records[q]) ==>
            enrich(records[q]).1.None? && out[q] == enrich(records[q]).0)
    decreases |records| - j
  {
    if j < |records| {
      if !IdMatches(displayId, records[j]) {
        ScanRecordsOutcome(enrich, displayId, records, j + 1);
      } else {
        var (record, error) := enrich(records[j]);
        var next := records[j := record];
        assert next[j] == record;
        assert forall q :: j < q < |records| ==> next[q] == records[q];
        ScanRecordsOutcome(enrich, displayId, next, j + 1);
      }
    }
  }

  /** A match that raises nothing is `Outcome`. */
  lemma EnrichOutcome(m: MoreData, sets: Fields<Entity>, test: Entity, record: WorkItem)
    requires ContextOf(sets, test).Success?
    requires Matches(test, record) && Enrich(m, ContextOf(sets, test).value, test, record).1.None?
    ensures Enrichable(m, sets, test)
    ensures Enrich(m, ContextOf(sets, test).value, test, record).0 == Outcome(m, sets, test, record)
  {
    EnrichWrites(m, ContextOf(sets, test).value, test, record);
    EnrichIsOutcome(m, sets, test, record);
  }

  lemma EnrichIsOutcome(m: MoreData, sets: Fields<Entity>, test: Entity, record: WorkItem)
    requires Enrichable(m, sets, test) && Matches(test, record)
    ensures Enrich(m, ContextOf(sets, test).value, test, record).0 == Outcome(m, sets, test, record)
  {
  }

  /** A scan of one test that nothing cuts short leaves each record as
      `Outcome` says. */
  lemma ScanOutcome(m: MoreData, sets: Fields<Entity>, test: Entity, records: seq<WorkItem>)
    requires ContextOf(sets, test).Success?
    requires ScanRecords(Enricher(m, ContextOf(sets, test).value, test), Attribute(test, "test-display-id"), records, 0).1.None?
    ensures var out := ScanRecords(Enricher(m, ContextOf(sets, test).value, test), Attribute(test, "test-display-id"), records, 0).0;
      |out| == |records|
      && (forall q :: 0 <= q < |records| ==> out[q] == Outcome(m, sets, test, records[q]))
      && (forall q :: 0 <= q < |records| && Matches(test, records[q]) ==> Enrichable(m, sets, test))
  {
    var enrich := Enricher(m, ContextOf(sets, test).value, test);
    ScanRecordsOutcome(enrich, Attribute(test, "test-display-id"), records, 0);
    forall q | 0 <= q < |records| && Matches(test, records[q])
      ensures Enrichable(m, sets, test)
      ensures enrich(records[q]).0 == Outcome(m, sets, test, records[q])
    {
      assert enrich(records[q]) == Enrich(m, ContextOf(sets, test).value, test, records[q]);
      EnrichOutcome(m, sets, test, records[q]);
    }
  }

  /** An enrichment that nothing cuts short leaves each record as the tests
      from `i` on, taken one after the other, leave it. */
  lemma {:induction false} EnrichFromRecordAfter(m: MoreData, sets: Fields<Entity>, tests: seq<Entity>, records: seq<WorkItem>, i: nat)
    requires i <= |tests|
    requires EnrichFrom(m, sets, tests, records, i).1.None?
    ensures var out := EnrichFrom(m, sets, tests, records, i).0;
      |out| == |records| && forall j :: 0 <= j < |records| ==> out[j] == RecordAfter(m, sets, tests[i..], records[j])
    decreases |tests| - i
  {
    var out := EnrichFrom(m, sets, tests, records, i).0;
    if i == |tests| {
      forall j | 0 <= j < |records| ensures out[j] == RecordAfter(m, sets, tests[i..], records[j]) {
        assert tests[i..] == [];
      }
    } else {
      var ctx := ContextOf(sets, tests[i]).value;
      var (scanned, error) := ScanRecords(Enricher(m, ctx, tests[i]), Attribute(tests[i], "test-display-id"), records, 0);
      ScanOutcome(m, sets, tests[i], records);
      EnrichFromRecordAfter(m, sets, tests, scanned, i + 1);
      forall j | 0 <= j < |records| ensures out[j] == RecordAfter(m, sets, tests[i..], records[j]) {
        assert tests[i..][0] == tests[i] && tests[i..][1..] == tests[i + 1..];
      }
    }
  }

  /** `Outcome` keeps the record's identity, so it keeps what it matches. */
  lemma OutcomeExtends(m: MoreData, sets: Fields<Entity>, test: Entity, record: WorkItem)
    ensures Extends(record, Outcome(m, sets, test, record))
  {
  }

  lemma ExtendsKeepsMatch(test: Entity, record: WorkItem, later: WorkItem)
    requires Extends(record, later)
    ensures Matches(test, later) <==> Matches(test, record)
  {
  }

  /** A record no test matches is left as it is. */
  lemma {:induction false} RecordAfterNoMatch(m: MoreData, sets: Fields<Entity>, tests: seq<Entity>, record: WorkItem)
    requires forall i :: 0 <= i < |tests| ==> !Matches(tests[i], record)
    ensures RecordAfter(m, sets, tests, record) == record
  {
    if tests != [] {
      RecordAfterNoMatch(m, sets, tests[1..], record);
    }
  }

  /** Matching is by display id, so of several tests that match a record
      the last one decides all sixteen fields. */
  lemma {:induction false} LastMatchWins(m: MoreData, sets: Fields<Entity>, tests: seq<Entity>, record: WorkItem, last: nat)
    requires last < |tests| && Matches(tests[last], record) && Enrichable(m, sets, tests[last])
    requires forall i :: last < i < |tests| ==> !Matches(tests[i], record)
    ensures RecordAfter(m, sets, tests, record) == Outcome(m, sets, tests[last], record)
  {
    RecordAfterFrom(m, sets, tests, record, record, last);
  }

  lemma {:induction false} RecordAfterFrom(m: MoreData, sets: Fields<Entity>, tests: seq<Entity>, record: WorkItem, current: WorkItem, last: nat)
    requires Extends(record, current)
    requires last < |tests| && Matches(tests[last], record) && Enrichable(m, sets, tests[last])
    requires forall i :: last < i < |tests| ==> !Matches(tests[i], record)
    ensures RecordAfter(m, sets, tests, current) == Outcome(m, sets, tests[last], record)
    decreases last
  {
    var next := Outcome(m, sets, tests[0], current);
    OutcomeExtends(m, sets, tests[0], current);
    ExtendsTransitive(record, current, next);
    if last == 0 {
      ExtendsKeepsMatch(tests[0], record, current);
      var ctx := ContextOf(sets, tests[0]).value;
      WrittenAbsorbs(record, current, KmsValues(m, ctx, BrowserOf(m, ctx, tests[0]).value));
      forall i | 0 <= i < |tests[1..]| ensures !Matches(tests[1..][i], next) {
        ExtendsKeepsMatch(tests[1..][i], record, next);
      }
      RecordAfterNoMatch(m, sets, tests[1..], next);
    } else {
      RecordAfterFrom(m, sets, tests[1..], record, next, last - 1);
    }
  }

  /** Where the enrichment runs to the end, each record ends up with all
      sixteen fields from the last test that matches it, or as it was if no
      test matches it. */
  lemma EnrichmentMeaning(m: MoreData, sets: Fields<Entity>, tests: seq<Entity>, records: seq<WorkItem>, j: nat)
    requires EnrichFrom(m, sets, tests, records, 0).1.None?
    requires j < |records|
    ensures |EnrichFrom(m, sets, tests, records, 0).0| == |records|
    ensures (forall i :: 0 <= i < |tests| ==> !Matches(tests[i], records[j])) ==>
      EnrichFrom(m, sets, tests, records, 0).0[j] == records[j]
    ensures forall last ::
      (0 <= last < |tests| && Matches(tests[last], records[j])
       && forall i :: last < i < |tests| ==> !Matches(tests[i], records[j])) ==>
      && Enrichable(m, sets, tests[last])
      && EnrichFrom(m, sets, tests, records, 0).0[j] == Outcome(m, sets, tests[last], records[j])
  {
    EnrichFromRecordAfter(m, sets, tests, records, 0);
    assert tests[0..] == tests;
    if forall i :: 0 <= i < |tests| ==> !Matches(tests[i], records[j]) {
      RecordAfterNoMatch(m, sets, tests, records[j]);
    }
    forall last | 0 <= last < |tests| && Matches(tests[last], records[j])
      && (forall i :: last < i < |tests| ==> !Matches(tests[i], records[j]))
      ensures Enrichable(m, sets, tests[last])
      ensures EnrichFrom(m, sets, tests, records, 0).0[j] == Outcome(m, sets, tests[last], records[j])
    {
      CompletedMatchesEnrichable(m, sets, tests, records, 0, j, last);
      LastMatchWins(m, sets, tests, records[j], last);
    }
  }

  /** Where the enrichment runs to the end, every test that matches a
      record had all its lookups succeed. */
  lemma {:induction false} CompletedMatchesEnrichable(m: MoreData, sets: Fields<Entity>, tests: seq<Entity>, records: seq<WorkItem>, i: nat, j: nat, t: nat)
    requires i <= t < |tests| && j < |records|
    requires EnrichFrom(m, sets, tests, records, i).1.None?
    requires Matches(tests[t], records[j])
    ensures Enrichable(m, sets, tests[t])
    decreases t - i
  {
    var ctx := ContextOf(sets, tests[i]).value;
    var enrich := Enricher(m, ctx, tests[i]);
    ScanOutcome(m, sets, tests[i], records);
    if t > i {
      var (scanned, error) := ScanRecords(enrich, Attribute(tests[i], "test-display-id"), records, 0);
      OutcomeExtends(m, sets, tests[i], records[j]);
      ExtendsKeepsMatch(tests[t], records[j], scanned[j]);
      CompletedMatchesEnrichable(m, sets, tests, scanned, i + 1, j, t);
    }
  }

  /** The nested loops of `trigger_execution`: for each fetched test, every
      record whose `test_id` matches gets the sixteen optional fields; the
      first exception ends both loops and the records keep what was
      written. */
  method EnrichTests(m: MoreData, sets: Fields<Entity>, tests: seq<Entity>, initial: seq<WorkItem>)
    returns (records: seq<WorkItem>, error: Option<Exception>)
    ensures (records, error) == EnrichFrom(m, sets, tests, initial, 0)
  {
    records := initial;
    var i := 0;
    while i < |tests|
      invariant 0 <= i <= |tests|
      invariant EnrichFrom(m, sets, tests, initial, 0) == EnrichFrom(m, sets, tests, records, i)
      decreases |tests| - i
    {
      var test := tests[i];
      var context := ContextOf(sets, test);
      if context.Failure? {
        return records, Some(context.error);
      }
      var ctx := context.value;
      ghost var enrich := Enricher(m, ctx, test);
      ghost var before := records;
      var j := 0;
      while j < |records|
        invariant 0 <= j <= |records| && |records| == |before|
        invariant ScanRecords(enrich, Attribute(test, "test-display-id"), before, 0)
               == ScanRecords(enrich, Attribute(test, "test-display-id"), records, j)
        decreases |records| - j
      {
        if Base(TestId) !in records[j] {
          return records, Some(KeyError("test_id"));
        }
        var displayId := Attribute(test, "test-display-id");
        if displayId.Failure? {
          return records, Some(displayId.error);
        }
        if records[j][Base(TestId)] == Show(displayId.value) {
          var (record, failure) := Enrich(m, ctx, test, records[j]);
          assert enrich(records[j]) == (record, failure);
          records := records[j := record];
          if failure.Some? {
            return records, failure;
          }
        }
        j := j + 1;
      }
      i := i + 1;
    }
    error := None;
  }

  // ---------------------------------------------------------------------
  // trigger_execution and start_service

  const Unbound := UnboundLocalError("initial_tests_list")

  /** `trigger_execution`. A failure fetching the test sets or the instances,
      or the None `get_dict_of_tests_objects` returns for no test sets (which
      the tuple unpacking rejects), reaches the outer handler before
      `initial_tests_list` is bound, so the final `return` raises
      UnboundLocalError. No records raise a bare `raise`, which the outer
      handler catches: the empty list is returned. Otherwise the records are
      enriched and returned, however far the enrichment got. */
  function TriggerExecutionOf(k: KmsConfig, server: Server, sessionIds: nat -> string): (r: Result<seq<WorkItem>, Exception>)
    ensures r.Failure? ==> r.error == Unbound
  {
    match AllTestsets(server.setsUnder, Split(k.base.filterIdList, ','))
    case Failure(_) => Failure(Unbound)
    case Success(list) =>
      match DictOfTestsObjects(k.base, list, server, sessionIds)
      case Failure(_) => Failure(Unbound)
      case Success(NoTestSets) => Failure(Unbound)
      case Success(TestsObjects(records, tests)) =>
        if records == [] then Success([])
        else Success(EnrichFrom(k.more, IndexById(list), tests, records, 0).0)
  }

  /** The list `trigger_execution` returns holds the records the base class
      built, one for one and in order, each with only optional fields
      added. */
  lemma TriggerExecutionKeepsRecords(k: KmsConfig, server: Server, sessionIds: nat -> string)
    requires AllTestsets(server.setsUnder, Split(k.base.filterIdList, ',')).Success?
    requires DictOfTestsObjects(k.base, AllTestsets(server.setsUnder, Split(k.base.filterIdList, ',')).value, server, sessionIds).Success?
    ensures var list := AllTestsets(server.setsUnder, Split(k.base.filterIdList, ',')).value;
      var built := DictOfTestsObjects(k.base, list, server, sessionIds).value;
      && (built.NoTestSets? <==> TriggerExecutionOf(k, server, sessionIds).Failure?)
      && (built.TestsObjects? ==> ExtendsAll(built.records, TriggerExecutionOf(k, server, sessionIds).value))
  {
    var list := AllTestsets(server.setsUnder, Split(k.base.filterIdList, ',')).value;
    var built := DictOfTestsObjects(k.base, list, server, sessionIds).value;
    if built.TestsObjects? && built.records != [] {
      EnrichFromExtends(k.more, IndexById(list), built.tests, built.records, 0);
    }
  }

  /** `trigger_execution`. */
  method TriggerExecution(k: KmsConfig, server: Server, sessionIds: nat -> string)
    returns (r: Result<seq<WorkItem>, Exception>)
    ensures r == TriggerExecutionOf(k, server, sessionIds)
  {
    var filterTestSets := GetAllTestsetsUnderFilterList(server.setsUnder, k.base.filterIdList);
    if filterTestSets.Failure? {
      return Failure(Unbound);
    }
    var filterTestSetsDict := ConvertTestSetObjListToDictSetIdAsKey(filterTestSets.value);
    var built := GetDictOfTestsObjects(k.base, filterTestSets.value, server, sessionIds);
    if built.Failure? || built.value.NoTestSets? {
      return Failure(Unbound);
    }
    if built.value.records == [] {
      return Success([]);
    }
    var records, _ := EnrichTests(k.more, filterTestSetsDict, built.value.tests, built.value.records);
    r := Success(records);
  }

  /** How `start_service` ends: nothing found under the filters, the items
      written to the debug file by `push_to_sqs`, or an exception that
      escaped. */
  datatype ServiceOutcome = NoSetsFound | WrittenToDebugFile(items: seq<WorkItem>) | Threw(error: Exception)

  /** Some filter delivers a test set. */
  predicate SomeSetFound(setsUnder: string -> Fetch<seq<Entity>>, ids: seq<string>)
  {
    exists i :: 0 <= i < |ids| && setsUnder(ids[i]).Fetched? && setsUnder(ids[i]).data != []
  }

  /** `start_service`: the items are pushed (to the debug file, the default
      of `push_to_sqs`) only when `is_to_trigger` holds. */
  method StartService(k: KmsConfig, server: Server, sessionIds: nat -> string) returns (o: ServiceOutcome)
    ensures !NoneAborted(server.setsUnder, Split(k.base.filterIdList, ',')) ==> o.Threw?
    ensures o == NoSetsFound <==>
      NoneAborted(server.setsUnder, Split(k.base.filterIdList, ',')) && !SomeSetFound(server.setsUnder, Split(k.base.filterIdList, ','))
    ensures NoneAborted(server.setsUnder, Split(k.base.filterIdList, ',')) && SomeSetFound(server.setsUnder, Split(k.base.filterIdList, ',')) ==>
      o == match TriggerExecutionOf(k, server, sessionIds)
           case Success(items) => WrittenToDebugFile(items)
           case Failure(e) => Threw(e)
  {
    var trigger := IsToTrigger(server.setsUnder, k.base.filterIdList);
    if trigger.Failure? {
      return Threw(trigger.error);
    }
    if !trigger.value {
      return NoSetsFound;
    }
    var items := TriggerExecution(k, server, sessionIds);
    if items.Failure? {
      return Threw(items.error);
    }
    o := WrittenToDebugFile(items.value);
  }

  /** With every request answered, one filter without test sets beside one
      with test sets passes the gate yet breaks the concatenation, so
      `trigger_execution` raises UnboundLocalError instead of returning. */
  lemma EmptyFilterRaises(k: KmsConfig, server: Server, sessionIds: nat -> string, empty: nat, full: nat)
    requires NoneAborted(server.setsUnder, Split(k.base.filterIdList, ','))
    requires empty < |Split(k.base.filterIdList, ',')| && server.setsUnder(Split(k.base.filterIdList, ',')[empty]).data == []
    requires full < |Split(k.base.filterIdList, ',')| && server.setsUnder(Split(k.base.filterIdList, ',')[full]).data != []
    ensures SomeSetFound(server.setsUnder, Split(k.base.filterIdList, ','))
    ensures TriggerExecutionOf(k, server, sessionIds) == Failure(Unbound)
  {
    CountVersusConcatenation(server.setsUnder, Split(k.base.filterIdList, ','), empty, full);
  }
}
