/** Values shared by every part of the trigger pipeline: optional and failing
    results, the Python exceptions the code raises or catches, JSON-shaped
    values as the external test-management API delivers them, and Python's
    insertion-ordered dictionaries. */
module Common {

  datatype Option<+T> = None | Some(value: T)

  datatype Result<+R, +E> = Success(value: R) | Failure(error: E) {
    predicate IsFailure() { Failure? }

    function PropagateFailure<U>(): Result<U, E>
      requires Failure?
    {
      Failure(error)
    }

    function Extract(): R
      requires Success?
    {
      value
    }
  }

  /** A present value, or the given exception where Python would raise it. */
  function Need<V>(o: Option<V>, e: Exception): (r: Result<V, Exception>)
    ensures r.Success? <==> o.Some?
    ensures r.Success? ==> r.value == o.value
    ensures r.Failure? ==> r.error == e
  {
    match o
    case Some(v) => Success(v)
    case None => Failure(e)
  }

  /** The exceptions the core raises, lets escape or catches. */
  datatype Exception =
    | ImmediateExitException(message: string)   // the hard-fail escape of the retry loop
    | PlainException(message: string)           // `raise Exception(...)`, retried
    | KeyError(key: string)
    | IndexError
    | TypeError
    | AttributeError
    | ValueError(message: string)
    | RuntimeError                              // a bare `raise` with no active exception
    | UnboundLocalError(name: string)

  /** A decoded JSON value as Python holds it after `json.loads`. Numbers and
      booleans are kept only as the text `str()` prints for them. */
  datatype Value =
    | Str(s: string)
    | Null
    | Scalar(shown: string)
    | List(items: seq<Value>)
    | Dict(entries: seq<(string, Value)>)

  /** Python's `str()` of a value. */
  function Show(v: Value): string
  {
    match v
    case Str(s) => s
    case _ => Repr(v)
  }

  /** Python's `repr()` of a value; strings are single-quoted without escaping. */
  function Repr(v: Value): string
  {
    match v
    case Str(s) => "'" + s + "'"
    case Null => "None"
    case Scalar(shown) => shown
    case List(items) => "[" + ReprItems(v, 0) + "]"
    case Dict(entries) => "{" + ReprEntries(v, 0) + "}"
  }

  function ReprItems(v: Value, i: nat): string
    requires v.List? && i <= |v.items|
    decreases v, |v.items| - i
  {
    if i == |v.items| then ""
    else (if i == 0 then "" else ", ") + Repr(v.items[i]) + ReprItems(v, i + 1)
  }

  function ReprEntries(v: Value, i: nat): string
    requires v.Dict? && i <= |v.entries|
    decreases v, |v.entries| - i
  {
    if i == |v.entries| then ""
    else
      (if i == 0 then "" else ", ") + "'" + v.entries[i].0 + "': " + Repr(v.entries[i].1)
      + ReprEntries(v, i + 1)
  }

  /* Concatenation facts as separate lemmas: calling one adds a single
     equation to a proof, where asserting the same equality inline makes the
     solver compare the sequences element by element. */

  lemma AppendEmpty<T>(s: seq<T>)
    ensures s + [] == s
  {
  }

  lemma EmptyAppend<T>(s: seq<T>)
    ensures [] + s == s
  {
  }

  lemma AppendAssoc<T>(a: seq<T>, b: seq<T>, c: seq<T>)
    ensures a + b + c == a + (b + c)
  {
  }

  /** All the lists, one after the other. */
  function Flatten<T>(xss: seq<seq<T>>): seq<T>
  {
    if xss == [] then [] else Flatten(xss[..|xss| - 1]) + xss[|xss| - 1]
  }

  /** A Python dict: key/value pairs in insertion order. */
  type Fields<V> = seq<(string, V)>

  predicate HasKey<V>(d: Fields<V>, k: string)
  {
    exists i :: 0 <= i < |d| && d[i].0 == k
  }

  /** The keys of a dict, in insertion order. */
  function Keys<V>(d: Fields<V>): (ks: seq<string>)
    ensures |ks| == |d|
    ensures forall i :: 0 <= i < |d| ==> ks[i] == d[i].0
  {
    if d == [] then [] else [d[0].0] + Keys(d[1..])
  }

  /** No key occurs twice, as in every Python dict. */
  predicate DistinctKeys<V>(d: Fields<V>)
  {
    forall i, j :: 0 <= i < j < |d| ==> d[i].0 != d[j].0
  }

  /** `d[k]`: the value stored under `k`, or None where Python raises KeyError. */
  function Get<V>(d: Fields<V>, k: string): (r: Option<V>)
    ensures r.Some? <==> HasKey(d, k)
    ensures r.Some? ==> exists i :: 0 <= i < |d| && d[i] == (k, r.value)
  {
    if d == [] then None
    else if d[0].0 == k then Some(d[0].1)
    else
      var r := Get(d[1..], k);
      assert r.Some? ==> exists i :: 1 <= i < |d| && d[i] == (k, r.value) by {
        if r.Some? {
          var i :| 0 <= i < |d[1..]| && d[1..][i] == (k, r.value);
          assert d[i + 1] == (k, r.value);
        }
      }
      r
  }

  /** The position of `k` in the dict. */
  function IndexOf<V>(d: Fields<V>, k: string): (i: nat)
    requires HasKey(d, k)
    ensures i < |d| && d[i].0 == k
    ensures forall j :: 0 <= j < i ==> d[j].0 != k
  {
    if d[0].0 == k then 0
    else
      assert HasKey(d[1..], k) by {
        var i :| 0 <= i < |d| && d[i].0 == k;
        assert d[1..][i - 1].0 == k;
      }
      1 + IndexOf(d[1..], k)
  }

  /** `d[k] = v`: an existing key keeps its position and takes the new value,
      a new key is appended. */
  function Put<V>(d: Fields<V>, k: string, v: V): (r: Fields<V>)
    ensures HasKey(d, k) ==> r == d[IndexOf(d, k) := (k, v)]
    ensures !HasKey(d, k) ==> r == d + [(k, v)]
  {
    if HasKey(d, k) then d[IndexOf(d, k) := (k, v)] else d + [(k, v)]
  }

  lemma GetFirst<V>(d: Fields<V>, i: nat)
    requires i < |d|
    requires forall j :: 0 <= j < i ==> d[j].0 != d[i].0
    ensures Get(d, d[i].0) == Some(d[i].1)
  {
    if i > 0 {
      GetFirst(d[1..], i - 1);
    }
  }

  /** After `d[k] = v`, reading `k` gives `v`, every other key reads as before,
      and keys stay distinct. */
  lemma {:induction false} PutGet<V>(d: Fields<V>, k: string, v: V, k': string)
    requires DistinctKeys(d)
    ensures DistinctKeys(Put(d, k, v))
    ensures Get(Put(d, k, v), k') == if k' == k then Some(v) else Get(d, k')
  {
    var r := Put(d, k, v);
    assert Keys(r) == Keys(d) || Keys(r) == Keys(d) + [k];
    if k' == k {
      var i := if HasKey(d, k) then IndexOf(d, k) else |d|;
      GetFirst(r, i);
    } else if HasKey(d, k') {
      var i := IndexOf(d, k');
      assert r[i] == d[i];
      GetFirst(r, i);
      GetFirst(d, i);
    } else {
      assert !HasKey(r, k');
    }
  }

  /** `d[k] = v` leaves the key order alone for a known key and appends a new
      key at the end. */
  lemma PutKeys<V>(d: Fields<V>, k: string, v: V)
    ensures HasKey(d, k) <==> k in Keys(d)
    ensures Keys(Put(d, k, v)) == if HasKey(d, k) then Keys(d) else Keys(d) + [k]
  {
    var r := Put(d, k, v);
    if k in Keys(d) {
      var i :| 0 <= i < |Keys(d)| && Keys(d)[i] == k;
      assert d[i].0 == k;
    }
    assert |Keys(r)| == |r|;
  }
}
