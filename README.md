# Automation-Hub trigger pipeline in Dafny

This project models the core of Automation-Hub's test-trigger pipeline. The
pipeline polls a test-management service (PractiTest) for the test sets saved
under a list of filters. It fetches their test instances page by page and keeps
the instances whose status the owning set asks for. It builds one flat work
item per kept instance. The KMS block adds sixteen optional fields to each item.
The items are then written out or pushed to an SQS queue in batches of ten.

Every network call is an input. A request to the test-management API is
represented by the outcome its retry loop ends with: the `data` array of a 200
response, or the exception that escaped. The queue is an object that records
the entries of every `send_messages` call.

One module per source file:

- `common.dfy` (`Common`): Option/Result, the Python exceptions the code raises
  or catches, JSON-shaped values, Python's `str()`/`repr()`, and insertion-ordered
  dicts with `d[k]` and `d[k] = v`.
- `text.dfy` (`Text`): substring tests, lower-casing, `split`/`join` on one
  character, deleting characters, decimal rendering and its inverse.
- `static_methods.dfy` (`StaticMethods`): `wait_for_request_200` and its retry
  decorator, `try_to_get_from_dict`, `safe_len`, `get_dict_data_if_not_empty`,
  the custom-fields body builder, and `json_find_item`.
- `base_practitest.dfy` (`BasePractiTest`): the three-tier resolver, the filter
  enumerator and counter, the index by id, status filtering with pagination,
  and the work-item builder.
- `kms_practitest.dfy` (`KmsPractiTest`): the in-place enrichment loops,
  `trigger_execution` and `start_service`.
- `aws_sqs_pusher.dfy` (`SqsPusher`): `push_to_queue` and its batches.

Each loop the source writes is a Dafny method with loop invariants, with one
exception. The `for k, v in obj.items()` loop of `json_find_item` sits inside a
recursive search, so it is the recursive function `FindInChildren`. Each method
is proved equal to a specification function, and the lemmas state what that
function means.

The model follows the code, including these behaviours a reader might not
expect:

- A filter with no test sets does not let the enumerator go on with the other
  filters' sets. `get_dict_data_if_not_empty` returns None, and `list + None`
  raises TypeError.
- `start_service` can pass its gate while `trigger_execution` fails. Then
  `trigger_execution` raises UnboundLocalError from its own `return`, and
  nothing catches it.
- The resolver does not fall through when either entity lacks `custom-fields`.
  Those lookups sit outside its handlers, so it raises KeyError.
- A status of 400 or more with an empty `errors` list raises IndexError. That
  exception is not an immediate exit, so it is retried.
- The test sets under a filter come from one request, not from pages.
- One failing record ends the whole build loop, not only that record. The
  records built so far are kept.

## Model

| member | source | states |
|---|---|---|
| StaticMethods.WaitForRequest200 | connector/static/core/static_methods.py:53-66 | returns the response exactly on status 200; below 400 otherwise, raises a plain exception whose message contains `msg_on_retry` and the status code; from 400 on, raises the error-status exception |
| StaticMethods.ErrorStatusExits | connector/static/core/static_methods.py:56-64 | an error status is an immediate exit exactly when the body is not JSON, or `errors[0].title` is found, or the lookup fails with KeyError; IndexError and TypeError escape the handlers and are retried |
| StaticMethods.RetryWaitForRequest200 | connector/static/core/static_methods.py:37-44 | the retry loop stops at the first attempt that returns or raises an immediate exit; every earlier attempt was retryable; it keeps retrying exactly when no attempt stops it |
| StaticMethods.ImmediateExitIsNotRetried | connector/static/core/static_methods.py:56-60 | a 422 with a decodable error body ends the loop after exactly one call, surfacing the server's title |
| StaticMethods.YesNoToBoolean | connector/static/core/static_methods.py:198-202 | the result is never `yes` or `no`; only `yes`→`true` and `no`→`false` change anything |
| StaticMethods.YesNoIdempotent | connector/static/core/static_methods.py:198-203 | applying the yes/no mapping twice equals applying it once; `true` and `false` pass unchanged |
| StaticMethods.TryToGetFromDict | connector/static/core/static_methods.py:185-205 | a missing key, or a non-dict, gives `default_value`; a present key gives `str(value)`, after the yes/no mapping when `is_boolean` |
| StaticMethods.SafeLen | connector/static/core/static_methods.py:145-152 | 0 for None, the length otherwise |
| StaticMethods.GetDictDataIfNotEmpty | connector/static/core/static_methods.py:110-120 | None exactly when `data` is empty, `data` itself otherwise; `safe_len` of the result is the length of `data` |
| StaticMethods.CreateDataForTestSetMultipleCustomFields | connector/static/core/static_methods.py:124-141 | the loop that appends a comma after every key but the last builds the prefix, the entries in dict order joined by commas, and `}}}}` |
| StaticMethods.CustomFieldsBodyShape | connector/static/core/static_methods.py:129-141 | the body starts with the fixed prefix and ends with `}}}}`; with no fields it is exactly the two; otherwise its length is the entries plus n - 1 commas |
| StaticMethods.JsonFindItem | connector/static/core/static_methods.py:70-87 | a top-level key gives `obj[key]`; otherwise a hit found in a nested dict is a string; a non-dict gives None |
| StaticMethods.FindInChildrenFirstHit | connector/static/core/static_methods.py:79-83 | from child i on, the loop gives None exactly when no dict-valued child yields a hit, and otherwise `str()` of the first child hit in dict order |
| StaticMethods.JsonFindItemFirstHit | connector/static/core/static_methods.py:78-87 | for a dict without `key` at the top, None exactly when no dict-valued child yields a hit, otherwise `str()` of the first child hit in dict order |
| StaticMethods.JsonFindItemFindsOccurring | connector/static/core/static_methods.py:78-87 | a hit is reported only for a key that occurs at the top or in a dict reached through dict values |
| BasePractiTest.ExtractValue | connector/static/core/base_practitest.py:214-226 | names holding `---f-` are read from custom-fields, all others from the attributes; the value is found exactly when the key is there, and is then the stored value, with `yes`→`true` and `no`→`false` when `is_boolean`; with `is_boolean` the result is never `yes`/`no` |
| BasePractiTest.GetPrioritizedValue | connector/static/core/base_practitest.py:207-246 | the resolver fails only with KeyError for missing `custom-fields` or with ValueError when nothing resolves |
| BasePractiTest.PrioritizedValueIsFirstPresent | connector/static/core/base_practitest.py:207-246 | KeyError when either entity lacks `custom-fields`; otherwise the first of test tier, test-set tier and default that resolves, else ValueError |
| BasePractiTest.TestTierIgnoresTestSet | connector/static/core/base_practitest.py:228-231 | once the test tier resolves, the value does not depend on the test set |
| BasePractiTest.DefaultOnlySpec | connector/static/core/base_practitest.py:241-243 | a spec holding only a default gives `str(default)` whatever the entities hold |
| BasePractiTest.TestsetsUnderSpecificFilterId | connector/static/core/base_practitest.py:340-351 | fails exactly when the request aborts; None exactly for an empty `data`; `safe_len` of the result is the number of sets |
| BasePractiTest.AllTestsetsMeaning | connector/static/core/base_practitest.py:335-338 | the concatenation succeeds exactly when every filter yields at least one set, and is then all filters' sets in filter order; an empty filter among answered requests gives TypeError |
| BasePractiTest.GetAllTestsetsUnderFilterIdList | connector/static/core/base_practitest.py:329-338 | the loop computes the concatenation above, propagating the first failure |
| BasePractiTest.GetAllTestsetsUnderFilterList | connector/static/core/base_practitest.py:319-326 | the comma-split ids give the concatenation; success exactly when every filter yields sets, and then at least one set |
| BasePractiTest.SetCountMeaning | connector/static/core/base_practitest.py:361-365 | the count succeeds exactly when no request aborts, and is the number of sets all filters yield |
| BasePractiTest.GetCountOfTestSetsUnderFilter | connector/static/core/base_practitest.py:353-365 | the loop sums `safe_len` over the comma-split filters, propagating an aborted request |
| BasePractiTest.IsToTrigger | connector/static/core/base_practitest.py:367-378 | succeeds exactly when no request aborts; true exactly when some filter yields a test set |
| BasePractiTest.CountVersusConcatenation | connector/static/core/base_practitest.py:329-365 | an empty filter beside a non-empty one gives a positive count but a TypeError from the concatenation |
| BasePractiTest.CountMatchesConcatenation | connector/static/core/base_practitest.py:329-365 | when every filter yields sets, the count is the length of the concatenation |
| BasePractiTest.IndexByIdMeaning | connector/static/core/base_practitest.py:308-317 | the index has each id once, in first-seen order, and maps each id to the last set carrying it |
| BasePractiTest.ConvertTestSetObjListToDictSetIdAsKey | connector/static/core/base_practitest.py:308-317 | the loop of `d[id] = set` builds that index |
| BasePractiTest.KeepForRunOnly | connector/static/core/base_practitest.py:298-303 | `all` keeps every instance; otherwise an instance is kept exactly when its lower-cased `run-status` equals the set's value |
| BasePractiTest.SelectByStatusMeaning | connector/static/core/base_practitest.py:294-303 | a successful selection holds exactly the instances the decision keeps, no more than were fetched, and every instance got a decision |
| BasePractiTest.SelectSucceedsIff | connector/static/core/base_practitest.py:294-303 | the selection fails exactly when the decision for some instance raises |
| BasePractiTest.SelectAppend | connector/static/core/base_practitest.py:294-303 | selecting over two pages is selecting over each in turn, in page order |
| BasePractiTest.SelectAllStatus | connector/static/core/base_practitest.py:298-300 | when every owning set says `all`, every instance is kept, in order |
| BasePractiTest.PaginationStops | connector/static/core/base_practitest.py:287-305 | n full pages then a short page give exactly n + 1 requests and the selection over those pages' instances in page order |
| BasePractiTest.EmptyFirstPage | connector/static/core/base_practitest.py:287-305 | an empty first page gives exactly one request and nothing kept |
| BasePractiTest.GetListOfTestsByStatus | connector/static/core/base_practitest.py:272-306 | the `while True` loop over pages yields the paginated selection and its request count |
| BasePractiTest.SanitizeTestNameDeletes | connector/static/core/base_practitest.py:168-170 | the sanitised name is the name with every ``'",()<>!@#*`` deleted and all other characters kept in order |
| BasePractiTest.LookUp | connector/static/core/base_practitest.py:158-177 | the lookups succeed exactly when each of them does: the owning set by `str(set-id)`, both `custom-fields`, the display id, the name, the set's display id and name, the project id, the set's run-only and instance-type custom fields, and the resolved debug value; each found value is what its lookup returns; a missing owning set raises its own KeyError |
| BasePractiTest.BuildRecord | connector/static/core/base_practitest.py:157-180 | a record is built exactly when every lookup succeeds, and then holds exactly the thirteen base keys; a missing owning set raises its own KeyError |
| BasePractiTest.InitialRecord | connector/static/core/base_practitest.py:162-179 | the record holds exactly the thirteen base keys, each with its value |
| BasePractiTest.BuildRecordValues | connector/static/core/base_practitest.py:164-179 | every field of a built record: the project name; the instance's display id, id and sanitised name; the set's display id and name; the project id; the session id; `str()` of the set's run-only and instance-type custom fields; the resolver's debug value with the yes/no mapping; the execution type; and the set's sync-exec custom field via `try_to_get_from_dict`, or "None" |
| BasePractiTest.BuildRecordsFrom | connector/static/core/base_practitest.py:157-182 | the records are built for the instances in order, stopping at the first instance whose lookups raise |
| BasePractiTest.DictOfTestsObjectsRecords | connector/static/core/base_practitest.py:150-183 | an empty set list gives None; otherwise each record is built from its instance, in order, holds exactly the base keys, and any shortfall is an instance that raised |
| BasePractiTest.GetDictOfTestsObjects | connector/static/core/base_practitest.py:118-183 | the method computes the records and the kept instances as specified above |
| KmsPractiTest.ContextOf | connector/static/core/kms/kms_practitest.py:82-86 | succeeds exactly when the owning set and both `custom-fields` are found, and holds them |
| KmsPractiTest.OptionalDefaults | connector/static/core/kms/kms_practitest.py:89-104 | a missing field gives `None` for environment, update_host_file, execute_at_night, verify_versions, kmsBuild, playerVersion and assigned_to, and the empty string for the others |
| KmsPractiTest.OptionalYesNo | connector/static/core/kms/kms_practitest.py:90-93 | a stored `yes` reads `true` exactly for update_host_file, execute_at_night and verify_versions; browser's mapping goes through the resolver |
| KmsPractiTest.OptionalSources | connector/static/core/kms/kms_practitest.py:89-104 | the credentials and playerVersionV7 depend on the test's custom fields alone; every other looked-up field depends on the test set alone |
| KmsPractiTest.Written | connector/static/core/kms/kms_practitest.py:89-104 | writing the sixteen keys adds them and keeps every base key's value |
| KmsPractiTest.EnrichWrites | connector/static/core/kms/kms_practitest.py:88-104 | a match writes all sixteen keys, each from its source; when the browser resolver raises, only environment is written and the exception is reported; identity fields never change |
| KmsPractiTest.WrittenAbsorbs | connector/static/core/kms/kms_practitest.py:87-104 | writing the sixteen keys over an earlier enrichment gives the same record as writing them over the original |
| KmsPractiTest.ScanRecordsExtends | connector/static/core/kms/kms_practitest.py:87-104 | the scan over the records only writes optional keys, even when cut short |
| KmsPractiTest.EnrichFromExtends | connector/static/core/kms/kms_practitest.py:80-106 | the enrichment keeps every record and its identity fields, also when a lookup raises part way |
| KmsPractiTest.ScanRecordsOutcome | connector/static/core/kms/kms_practitest.py:87-104 | a scan that nothing cuts short applies the writes to exactly the matching records |
| KmsPractiTest.ScanOutcome | connector/static/core/kms/kms_practitest.py:87-104 | a scan of one test that nothing cuts short leaves each record as that test's outcome says |
| KmsPractiTest.EnrichFromRecordAfter | connector/static/core/kms/kms_practitest.py:81-104 | a completed enrichment leaves each record as the tests, taken in fetch order, leave it |
| KmsPractiTest.RecordAfterNoMatch | connector/static/core/kms/kms_practitest.py:87-88 | a record no test matches stays as it is |
| KmsPractiTest.LastMatchWins | connector/static/core/kms/kms_practitest.py:81-104 | of several tests that match one record, the last in fetch order decides all sixteen fields |
| KmsPractiTest.CompletedMatchesEnrichable | connector/static/core/kms/kms_practitest.py:81-106 | in a completed enrichment, every test that matches a record had all its lookups succeed |
| KmsPractiTest.EnrichmentMeaning | connector/static/core/kms/kms_practitest.py:81-104 | a completed enrichment keeps the list's length; a record no test matches is unchanged; otherwise it has the sixteen fields of the last matching test |
| KmsPractiTest.EnrichTests | connector/static/core/kms/kms_practitest.py:80-106 | the nested loops that write in place compute the enrichment, stopping at the first exception with what was written kept |
| KmsPractiTest.TriggerExecutionOf | connector/static/core/kms/kms_practitest.py:73-109 | `trigger_execution` fails only with UnboundLocalError |
| KmsPractiTest.TriggerExecutionKeepsRecords | connector/static/core/kms/kms_practitest.py:77-109 | once the sets and instances are fetched, it fails exactly when `get_dict_of_tests_objects` returns None; otherwise it returns the built records one for one with only optional fields added |
| KmsPractiTest.TriggerExecution | connector/static/core/kms/kms_practitest.py:65-109 | the method computes `trigger_execution` as specified above |
| KmsPractiTest.StartService | connector/static/core/kms/kms_practitest.py:51-62 | an aborted count request escapes; nothing is pushed exactly when no filter yields a set; otherwise the triggered items are written, or the trigger's exception escapes |
| KmsPractiTest.EmptyFilterRaises | connector/static/core/kms/kms_practitest.py:73-109 | an empty filter beside a non-empty one passes the gate yet makes `trigger_execution` raise UnboundLocalError |
| SqsPusher.Queue.SendMessages | connector/static/core/aws_sqs_pusher.py:32 | one call is recorded with its entries, and the response is the service's answer to them |
| SqsPusher.AsList | connector/static/core/aws_sqs_pusher.py:24-25 | a list is taken as it is; anything else is wrapped as a list of one |
| SqsPusher.ChunksFlatten | connector/static/core/aws_sqs_pusher.py:29-30 | the batches put back together are the messages in order, with nothing lost or repeated |
| SqsPusher.ChunksSizes | connector/static/core/aws_sqs_pusher.py:29-30 | there are ceil(n / 10) batches, each of 1 to 10 messages, all but the last of exactly 10 |
| SqsPusher.ChunksAt | connector/static/core/aws_sqs_pusher.py:29-30 | batch b is the slice the loop takes at offset 10 * b |
| SqsPusher.Entries | connector/static/core/aws_sqs_pusher.py:31 | one entry per message of the batch, carrying that message serialised |
| SqsPusher.EntryIds | connector/static/core/aws_sqs_pusher.py:31 | each entry id reads back as its position in the batch, so the ids are `0` to `len(batch) - 1`, all distinct |
| SqsPusher.Calls | connector/static/core/aws_sqs_pusher.py:29-32 | one call per batch, in batch order, each with that batch's entries |
| SqsPusher.PushToQueue | connector/static/core/aws_sqs_pusher.py:13-35 | the stride-10 loop makes one `send_messages` call per batch, in order, and returns one response per batch, in the same order |
| SqsPusher.EmptyAndSingle | connector/static/core/aws_sqs_pusher.py:24-35 | no messages make no calls; a single non-list message makes one call holding it under id `0` |

## Left out

- `send_request` and the `requests` calls are network I/O. Each attempt's HTTP response is an input, and the retrying of a raised `requests` exception is not modelled.
- The backoff delays of the `retrying` decorators and the `sleep(10)` in `start_service` are timing. The model keeps only which outcomes stop the retry loop, and that loop runs over a finite sequence of responses.
- `json.loads` and `json.dumps` are library code. A response body is either "not JSON" or the decoded value, and the serialiser is a parameter of `push_to_queue`.
- A work item is a map from its keys to their texts, so the order in which the loops insert the keys is not kept. That order shows only in the serialised output.
- Every test set and test instance is assumed to carry `id` and `attributes`. The KeyError that `test['attributes']` or `test_set['attributes']` raises when one is missing is not modelled (connector/static/core/base_practitest.py:158-163 and 207-210, connector/static/core/kms/kms_practitest.py:82-86).
- `load_json_config`, `load_data_from_json`, `write_dict_to_json_file` and `dict_to_single_line_json` are file I/O or library calls.
- `log` writes to the database. Log messages are not modelled, and neither are the messages of exceptions the handlers swallow.
- `push_to_sqs` with `debug=True`, the default `start_service` uses, is the `WrittenToDebugFile` outcome. The timestamped file name is not modelled.
- The live branch of `push_to_sqs` is not modelled. It calls `push_to_queue()` with no arguments, so it cannot run as written; `push_to_queue` itself is modelled.
- The `__init__` methods load configuration. It is given as the `Config`, `MoreData` and `KmsConfig` values, and a KeyError from a missing `more_data` entry is not modelled.
- The API URLs and headers built from the credentials are not modelled. The sets and instance pages behind each query are inputs.
- `get_test_set_property` only logs and returns nothing, so it is not modelled.
- `TestStatusEnum` is unused by the core and is not modelled.
- `execution_session_id` comes from the wall clock. It is an input function from the record's position to a string.
- `SQSPusher.__init__` opens a boto3 session, and `self.sqs.Queue(queue_url)` looks up a queue by URL. The caller passes the `Queue` object instead.
- The resolver's spec is a dict holding some of `test`, `testset` and `default`. A spec that is not a dict is not modelled.
- Entity ids are strings. The set index is read with `str(set-id)`, so `str()` is applied to the instance's `set-id`.
- Common.Repr: strings are always single-quoted, with no escaping. Python's choice of double quotes for strings that contain a single quote is not modelled.
- Text.Lower: only ASCII letters are lower-cased. Python's `str.lower` also folds other Unicode letters.
- Numbers and booleans in decoded JSON are kept only as the text `str()` prints for them. Arithmetic on them is never needed.
- The retry loop's responses and the queue's answers are deterministic functions of what is sent. A service that answers the same request differently is not modelled.
- `send_messages` raising is not modelled. Such an exception would leave `push_to_queue` and drop the responses collected so far.
