/** The request classifier and its retry loop, and the small dictionary and
    string helpers of connector/static/core/static_methods.py. */
module StaticMethods {
  import opened Common
  import opened Text

  /** The body of an HTTP response: text that `json.loads` rejects, or the
      value it decodes to. */
  datatype Body = NotJson | Json(doc: Value)

  datatype HttpResponse = HttpResponse(status: nat, body: Body)

  /** What one call of `wait_for_request_200` does: return the response or
      raise. */
  datatype Attempt = Returned(response: HttpResponse) | Raised(error: Exception)

  const ParseFailureMessage := "Failed to parse error message from server response."
  const FormatFailureMessage := "Unexpected error format."

  /** `error_data["errors"][0]["title"]` on a decoded error body: the title, or
      the exception Python raises on the way. */
  function ErrorTitle(doc: Value): Result<Value, Exception>
  {
    match doc
    case Dict(entries) =>
      (match Get(entries, "errors")
       case None => Failure(KeyError("errors"))
       case Some(errors) =>
         match errors
         case List(items) =>
           if |items| == 0 then Failure(IndexError)
           else if items[0].Dict? then
             (match Get(items[0].entries, "title")
              case None => Failure(KeyError("title"))
              case Some(title) => Success(title))
           else Failure(TypeError)
         // a JSON object has string keys only, so the integer key 0 is missing
         case Dict(_) => Failure(KeyError("0"))
         case Str(s) => if s == [] then Failure(IndexError) else Failure(TypeError)
         case _ => Failure(TypeError))
    case _ => Failure(TypeError)
  }

  /** The exception `wait_for_request_200` raises for a status of 400 or
      more: an immediate exit with the server's title or a fixed message, or
      whatever the title lookup raised when that was neither a decode error
      nor a KeyError. */
  function ErrorStatusException(body: Body): Exception
  {
    match body
    case NotJson => ImmediateExitException(ParseFailureMessage)
    case Json(doc) =>
      match ErrorTitle(doc)
      case Success(title) => ImmediateExitException(Show(title))
      case Failure(KeyError(_)) => ImmediateExitException(FormatFailureMessage)
      case Failure(e) => e
  }

  /** One call of `wait_for_request_200` on the response `send_request` got. */
  function WaitForRequest200(response: HttpResponse, msgOnRetry: string): (a: Attempt)
    ensures a.Returned? <==> response.status == 200
    ensures a.Returned? ==> a.response == response
    ensures response.status != 200 && response.status < 400 ==>
      a.Raised? && a.error.PlainException?
      && Contains(a.error.message, msgOnRetry)
      && Contains(a.error.message, DecimalString(response.status))
    ensures response.status >= 400 ==> a == Raised(ErrorStatusException(response.body))
  {
    if response.status == 200 then Returned(response)
    else if response.status >= 400 then Raised(ErrorStatusException(response.body))
    else
      var message := "WARNING: " + msgOnRetry + "; status code: " + DecimalString(response.status);
      ContainsInfix("WARNING: ", msgOnRetry, "; status code: " + DecimalString(response.status));
      assert message == "WARNING: " + msgOnRetry + ("; status code: " + DecimalString(response.status));
      ContainsInfix("WARNING: " + msgOnRetry + "; status code: ", DecimalString(response.status), "");
      assert message == "WARNING: " + msgOnRetry + "; status code: " + DecimalString(response.status) + "";
      Raised(PlainException(message))
  }

  /** An error response is an immediate exit exactly when its body is not
      JSON, or the title lookup succeeds, or it fails with a KeyError; an
      empty `errors` list (IndexError) and a body of the wrong type
      (TypeError) are retried. */
  lemma ErrorStatusExits(body: Body)
    ensures !NotImmediateExit(ErrorStatusException(body)) <==>
      (body.NotJson? || ErrorTitle(body.doc).Success? || ErrorTitle(body.doc).error.KeyError?)
  {
  }

  /** The retry predicate: retry on every exception but the immediate exit. */
  predicate NotImmediateExit(e: Exception)
  {
    !e.ImmediateExitException?
  }

  /** The retry decorator stops on a returned response and on an exception
      the predicate rejects. */
  predicate Stops(a: Attempt)
  {
    a.Returned? || !NotImmediateExit(a.error)
  }

  datatype RetryResult =
    | Done(response: HttpResponse)   // a 200 response came back
    | Escaped(error: Exception)      // an immediate exit left the loop
    | StillRetrying                  // every response seen so far was retried

  /** The retry decorator around `wait_for_request_200`, fed with the
      responses the server gives to successive calls. It calls until the
      first attempt that stops the loop. */
  method RetryWaitForRequest200(responses: seq<HttpResponse>, msgOnRetry: string)
    returns (result: RetryResult, calls: nat)
    ensures calls <= |responses|
    ensures forall j :: 0 <= j < calls - 1 ==> !Stops(WaitForRequest200(responses[j], msgOnRetry))
    ensures result.StillRetrying? <==> forall j :: 0 <= j < |responses| ==> !Stops(WaitForRequest200(responses[j], msgOnRetry))
    ensures result.StillRetrying? ==> calls == |responses|
    ensures !result.StillRetrying? ==> 0 < calls
    ensures result.Done? ==> WaitForRequest200(responses[calls - 1], msgOnRetry) == Returned(result.response)
    ensures result.Escaped? ==> WaitForRequest200(responses[calls - 1], msgOnRetry) == Raised(result.error)
                                && !NotImmediateExit(result.error)
  {
    calls := 0;
    while calls < |responses|
      invariant calls <= |responses|
      invariant forall j :: 0 <= j < calls ==> !Stops(WaitForRequest200(responses[j], msgOnRetry))
    {
      var attempt := WaitForRequest200(responses[calls], msgOnRetry);
      calls := calls + 1;
      if attempt.Returned? {
        return Done(attempt.response), calls;
      } else if !NotImmediateExit(attempt.error) {
        return Escaped(attempt.error), calls;
      }
    }
    result := StillRetrying;
  }

  /** A JSON error body carrying `errors[0].title`. */
  function ErrorDocument(title: string): Value
  {
    Dict([("errors", List([Dict([("title", Str(title))])]))])
  }

  /** A 422 answer with a decodable error body ends the loop after one call,
      surfacing the server's title, whatever the server would answer next. */
  method ImmediateExitIsNotRetried(title: string, later: seq<HttpResponse>, msgOnRetry: string)
    returns (result: RetryResult, calls: nat)
    ensures calls == 1
    ensures result == Escaped(ImmediateExitException(title))
  {
    var first := HttpResponse(422, Json(ErrorDocument(title)));
    assert ErrorTitle(ErrorDocument(title)) == Success(Str(title));
    var responses := [first] + later;
    assert Stops(WaitForRequest200(responses[0], msgOnRetry));
    result, calls := RetryWaitForRequest200(responses, msgOnRetry);
  }

  /** `'yes'` becomes `'true'`, `'no'` becomes `'false'`, anything else is
      left as it is. */
  function YesNoToBoolean(v: Value): (r: Value)
    ensures r != Str("yes") && r != Str("no")
    ensures r != v ==> (v == Str("yes") && r == Str("true")) || (v == Str("no") && r == Str("false"))
  {
    if v == Str("yes") then Str("true")
    else if v == Str("no") then Str("false")
    else v
  }

  /** Mapping twice is mapping once: no value is mapped a second time. */
  lemma YesNoIdempotent(v: Value)
    ensures YesNoToBoolean(YesNoToBoolean(v)) == YesNoToBoolean(v)
    ensures YesNoToBoolean(Str("true")) == Str("true") && YesNoToBoolean(Str("false")) == Str("false")
  {
  }

  /** `try_to_get_from_dict`: `str(dictionary[key])`, after the yes/no mapping
      when asked for, or `default_value` whenever the lookup raises. */
  function TryToGetFromDict(dictionary: Value, key: string, defaultValue: string, isBoolean: bool): (r: string)
    ensures !(dictionary.Dict? && HasKey(dictionary.entries, key)) ==> r == defaultValue
    ensures dictionary.Dict? && HasKey(dictionary.entries, key) ==>
      var v := Get(dictionary.entries, key).value;
      && (!isBoolean ==> r == Show(v))
      && (isBoolean ==> r == Show(YesNoToBoolean(v)))
  {
    if dictionary.Dict? then
      match Get(dictionary.entries, key)
      case None => defaultValue
      case Some(v) => if isBoolean then Show(YesNoToBoolean(v)) else Show(v)
    else defaultValue
  }

  /** The default `default_value` of `try_to_get_from_dict`. */
  const NoneText := "None"

  /** `safe_len`: 0 for None, the length otherwise. */
  function SafeLen<T>(obj: Option<seq<T>>): (n: nat)
    ensures obj.None? ==> n == 0
    ensures obj.Some? ==> n == |obj.value|
  {
    match obj
    case None => 0
    case Some(s) => |s|
  }

  /** `get_dict_data_if_not_empty`, given the `data` array of a response:
      None exactly for an empty array, the array itself otherwise. */
  function GetDictDataIfNotEmpty<T>(data: seq<T>): (r: Option<seq<T>>)
    ensures r.None? <==> |data| == 0
    ensures r.Some? ==> r.value == data
    ensures SafeLen(r) == |data|
  {
    if |data| != 0 then Some(data) else None
  }

  const CustomFieldsPrefix := "{\"data\": { \"type\": \"sets\", \"attributes\": {\"custom-fields\": {"
  const CustomFieldsSuffix := "}}}}"

  /** One `"key": value` entry: list values as Python prints them, everything
      else inside double quotes, nothing escaped. */
  function CustomFieldEntry(key: string, v: Value): string
  {
    if v.List? then "\"" + key + "\": " + Show(v)
    else "\"" + key + "\": \"" + Show(v) + "\""
  }

  function CustomFieldEntries(fields: Fields<Value>): (texts: seq<string>)
    ensures |texts| == |fields|
    ensures forall i :: 0 <= i < |fields| ==> texts[i] == CustomFieldEntry(fields[i].0, fields[i].1)
  {
    if fields == [] then [] else [CustomFieldEntry(fields[0].0, fields[0].1)] + CustomFieldEntries(fields[1..])
  }

  /** The request body: the fixed prefix, the entries in dict order separated
      by commas, the fixed suffix. */
  function CustomFieldsBody(fields: Fields<Value>): string
  {
    CustomFieldsPrefix + Join(CustomFieldEntries(fields), ",") + CustomFieldsSuffix
  }

  /** `create_data_for_test_set_multiple_custom_fields`: grows the body entry
      by entry, adding a comma after every key but the last one. */
  method CreateDataForTestSetMultipleCustomFields(fields: Fields<Value>) returns (data: string)
    requires DistinctKeys(fields)
    ensures data == CustomFieldsBody(fields)
  {
    ghost var texts := CustomFieldEntries(fields);
    var n := |fields|;
    data := CustomFieldsPrefix;
    ghost var entries := "";
    var i := 0;
    while i < n
      invariant 0 <= i <= n
      invariant data == CustomFieldsPrefix + entries
      invariant i == 0 ==> entries == ""
      invariant 0 < i < n ==> entries == Join(texts[..i], ",") + ","
      invariant i == n && 0 < n ==> entries == Join(texts[..i], ",")
    {
      var key := fields[i].0;
      var entry := CustomFieldEntry(key, fields[i].1);
      AppendAssoc(CustomFieldsPrefix, entries, entry);
      data, entries := data + entry, entries + entry;
      JoinStep(texts, i);
      assert entries == Join(texts[..i + 1], ",");
      assert key != fields[n - 1].0 <==> i != n - 1;
      if key != fields[n - 1].0 {
        AppendAssoc(CustomFieldsPrefix, entries, ",");
        data, entries := data + ",", entries + ",";
      }
      i := i + 1;
    }
    assert n > 0 ==> texts[..n] == texts;
    data := data + CustomFieldsSuffix;
  }

  lemma JoinStep(texts: seq<string>, i: nat)
    requires i < |texts|
    ensures i == 0 ==> Join(texts[..i + 1], ",") == texts[i]
    ensures i > 0 ==> Join(texts[..i + 1], ",") == Join(texts[..i], ",") + "," + texts[i]
  {
    assert texts[..i + 1] == texts[..i] + [texts[i]];
    if i > 0 {
      JoinSnoc(texts[..i], texts[i], ",");
    }
  }

  /** The body starts with the prefix and ends with `}}}}`; with no fields it
      is exactly the two; otherwise it holds every entry and n - 1 commas. */
  lemma CustomFieldsBodyShape(fields: Fields<Value>)
    ensures CustomFieldsPrefix <= CustomFieldsBody(fields)
    ensures CustomFieldsBody(fields)[|CustomFieldsBody(fields)| - |CustomFieldsSuffix|..] == CustomFieldsSuffix
    ensures fields == [] ==> CustomFieldsBody(fields) == CustomFieldsPrefix + CustomFieldsSuffix
    ensures fields != [] ==>
      |CustomFieldsBody(fields)| == |CustomFieldsPrefix| + TotalLength(CustomFieldEntries(fields)) + (|fields| - 1) + |CustomFieldsSuffix|
  {
    var body := CustomFieldsBody(fields);
    var mid := Join(CustomFieldEntries(fields), ",");
    assert body == CustomFieldsPrefix + (mid + CustomFieldsSuffix);
    assert body[|body| - |CustomFieldsSuffix|..] == CustomFieldsSuffix;
    if fields != [] {
      JoinLength(CustomFieldEntries(fields), ",");
    }
  }

  /** `json_find_item`: `obj[key]` when the key is at the top of a dict;
      otherwise the first hit in the dict-valued children, in order, as a
      string; `Null` (Python's None) when the key is nowhere or `obj` is not a
      dict (the lookup raises and the handler returns None). */
  function JsonFindItem(obj: Value, key: string): (r: Value)
    ensures obj.Dict? && HasKey(obj.entries, key) ==> r == Get(obj.entries, key).value
    ensures !(obj.Dict? && HasKey(obj.entries, key)) && r != Null ==> r.Str?
    ensures !obj.Dict? ==> r == Null
    decreases obj, if obj.Dict? then |obj.entries| + 1 else 0
  {
    if obj.Dict? then
      if HasKey(obj.entries, key) then Get(obj.entries, key).value
      else FindInChildren(obj, 0, key)
    else Null
  }

  function FindInChildren(obj: Value, i: nat, key: string): (r: Value)
    requires obj.Dict? && i <= |obj.entries|
    ensures r != Null ==> r.Str?
    decreases obj, |obj.entries| - i
  {
    if i == |obj.entries| then Null
    else
      var child := obj.entries[i].1;
      if child.Dict? then
        var item := JsonFindItem(child, key);
        if item != Null then Str(Show(item)) else FindInChildren(obj, i + 1, key)
      else FindInChildren(obj, i + 1, key)
  }

  /** `key` is a key of `obj` or of a dict reached through dict values. */
  predicate Occurs(obj: Value, key: string)
    decreases obj
  {
    obj.Dict? &&
    (HasKey(obj.entries, key) ||
     exists i :: 0 <= i < |obj.entries| && Occurs(obj.entries[i].1, key))
  }

  /** Child `i` of a dict is itself a dict in which the search finds `key`. */
  predicate Hit(obj: Value, i: nat, key: string)
    requires obj.Dict? && i < |obj.entries|
  {
    obj.entries[i].1.Dict? && JsonFindItem(obj.entries[i].1, key) != Null
  }

  /** Below the top level, the search reports the first child hit in dict
      order, as a string, and None exactly when no child from `i` on yields
      one. */
  lemma {:induction false} FindInChildrenFirstHit(obj: Value, i: nat, key: string)
    requires obj.Dict? && i <= |obj.entries|
    ensures FindInChildren(obj, i, key) != Null <==> exists q :: i <= q < |obj.entries| && Hit(obj, q, key)
    ensures FindInChildren(obj, i, key) != Null ==>
      exists q :: i <= q < |obj.entries| && Hit(obj, q, key)
        && (forall p :: i <= p < q ==> !Hit(obj, p, key))
        && FindInChildren(obj, i, key) == Str(Show(JsonFindItem(obj.entries[q].1, key)))
    decreases |obj.entries| - i
  {
    if i < |obj.entries| {
      FindInChildrenFirstHit(obj, i + 1, key);
      if Hit(obj, i, key) {
        assert FindInChildren(obj, i, key) == Str(Show(JsonFindItem(obj.entries[i].1, key)));
      } else {
        assert FindInChildren(obj, i, key) == FindInChildren(obj, i + 1, key);
        if FindInChildren(obj, i, key) != Null {
          var q :| i + 1 <= q < |obj.entries| && Hit(obj, q, key)
            && (forall p :: i + 1 <= p < q ==> !Hit(obj, p, key))
            && FindInChildren(obj, i + 1, key) == Str(Show(JsonFindItem(obj.entries[q].1, key)));
          assert forall p :: i <= p < q ==> !Hit(obj, p, key);
        }
      }
    }
  }

  /** `json_find_item` on a dict without `key` at the top: None exactly when
      no dict-valued child yields a hit, otherwise `str()` of the first
      child hit in dict order. */
  lemma JsonFindItemFirstHit(obj: Value, key: string)
    requires obj.Dict? && !HasKey(obj.entries, key)
    ensures JsonFindItem(obj, key) != Null <==> exists q :: 0 <= q < |obj.entries| && Hit(obj, q, key)
    ensures JsonFindItem(obj, key) != Null ==>
      exists q :: 0 <= q < |obj.entries| && Hit(obj, q, key)
        && (forall p :: 0 <= p < q ==> !Hit(obj, p, key))
        && JsonFindItem(obj, key) == Str(Show(JsonFindItem(obj.entries[q].1, key)))
  {
    FindInChildrenFirstHit(obj, 0, key);
  }

  /** A hit is only ever reported for a key that occurs. */
  lemma {:induction false} JsonFindItemFindsOccurring(obj: Value, key: string)
    ensures JsonFindItem(obj, key) != Null ==> Occurs(obj, key)
    decreases obj, if obj.Dict? then |obj.entries| + 1 else 0
  {
    if obj.Dict? && !HasKey(obj.entries, key) {
      FindInChildrenFindsOccurring(obj, 0, key);
    }
  }

  lemma {:induction false} FindInChildrenFindsOccurring(obj: Value, i: nat, key: string)
    requires obj.Dict? && i <= |obj.entries|
    ensures FindInChildren(obj, i, key) != Null ==>
      exists j :: i <= j < |obj.entries| && Occurs(obj.entries[j].1, key)
    decreases obj, |obj.entries| - i
  {
    if i < |obj.entries| {
      var child := obj.entries[i].1;
      if child.Dict? {
        JsonFindItemFindsOccurring(child, key);
      }
      FindInChildrenFindsOccurring(obj, i + 1, key);
    }
  }
}
