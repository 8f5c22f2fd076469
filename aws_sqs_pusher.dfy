/** `SQSPusher.push_to_queue` of connector/static/core/aws_sqs_pusher.py: the
    messages are sent in batches of at most ten, each batch as one
    `send_messages` call whose entries are numbered from 0 within the batch. */
module SqsPusher {
  import opened Common
  import opened Text

  /** The most entries one `send_messages` call may carry. */
  const BatchSize := 10

  /** One entry of a `send_messages` call: its batch-local id and the message
      serialised by `json.dumps`. */
  datatype Entry = Entry(id: string, messageBody: string)

  /** The queue as the pusher sees it: the entries of every `send_messages`
      call so far, in call order, and the response the service gives to a
      call. */
  class Queue {
    var calls: seq<seq<Entry>>
    const respond: seq<Entry> -> Value

    constructor(respond: seq<Entry> -> Value)
      ensures calls == [] && this.respond == respond
    {
      calls := [];
      this.respond := respond;
    }

    /** `queue.send_messages(Entries=entries)`. */
    method SendMessages(entries: seq<Entry>) returns (response: Value)
      modifies this
      ensures calls == old(calls) + [entries]
      ensures response == respond(entries)
    {
      calls := calls + [entries];
      response := respond(entries);
    }
  }

  /** A single message is sent as a list of one. */
  function AsList(messages: Value): (ms: seq<Value>)
    ensures messages.List? ==> ms == messages.items
    ensures !messages.List? ==> ms == [messages]
  {
    if messages.List? then messages.items else [messages]
  }

  /** The batches: the first ten messages, then the batches of the rest. */
  function Chunks(ms: seq<Value>): seq<seq<Value>>
    decreases |ms|
  {
    if ms == [] then []
    else if |ms| <= BatchSize then [ms]
    else [ms[..BatchSize]] + Chunks(ms[BatchSize..])
  }

  /** `ms[i:j]` with Python's clamping of `j`. */
  function Slice(ms: seq<Value>, i: nat, j: nat): seq<Value>
    requires i <= |ms|
  {
    ms[i..if j <= |ms| then (if i <= j then j else i) else |ms|]
  }

  /** The batches, put back together, are the messages in order: nothing is
      lost, repeated or moved. */
  lemma {:induction false} ChunksFlatten(ms: seq<Value>)
    ensures Flatten(Chunks(ms)) == ms
    decreases |ms|
  {
    if |ms| > BatchSize {
      ChunksFlatten(ms[BatchSize..]);
      FlattenCons(ms[..BatchSize], Chunks(ms[BatchSize..]));
      assert ms[..BatchSize] + ms[BatchSize..] == ms;
    } else if ms != [] {
      assert Flatten([ms]) == Flatten([]) + ms;
    }
  }

  lemma {:induction false} FlattenCons<T>(x: seq<T>, xss: seq<seq<T>>)
    ensures Flatten([x] + xss) == x + Flatten(xss)
    decreases |xss|
  {
    if xss == [] {
      assert [x] + xss == [x];
      assert Flatten([x]) == Flatten([]) + x;
    } else {
      var init := xss[..|xss| - 1];
      assert ([x] + xss)[..|xss|] == [x] + init;
      FlattenCons(x, init);
    }
  }

  /** Every batch holds between one and ten messages; there are n / 10
      batches rounded up, and every batch but the last holds ten. */
  lemma {:induction false} ChunksSizes(ms: seq<Value>)
    ensures |Chunks(ms)| == (|ms| + BatchSize - 1) / BatchSize
    ensures forall b :: 0 <= b < |Chunks(ms)| ==> 1 <= |Chunks(ms)[b]| <= BatchSize
    ensures forall b :: 0 <= b < |Chunks(ms)| - 1 ==> |Chunks(ms)[b]| == BatchSize
    decreases |ms|
  {
    if |ms| > BatchSize {
      ChunksSizes(ms[BatchSize..]);
    }
  }

  /** Batch `b` is the slice the loop takes at offset 10 * b. */
  lemma {:induction false} ChunksAt(ms: seq<Value>, b: nat)
    requires b < |Chunks(ms)|
    ensures BatchSize * b < |ms|
    ensures Chunks(ms)[b] == Slice(ms, BatchSize * b, BatchSize * b + BatchSize)
    decreases |ms|
  {
    if b > 0 {
      ChunksAt(ms[BatchSize..], b - 1);
      assert ms[BatchSize..][BatchSize * (b - 1)..] == ms[BatchSize * b..];
    }
  }

  /** The entries of one batch: id `str(j)` and the serialised message, for
      each position `j`. */
  function Entries(batch: seq<Value>, dumps: Value -> string): (es: seq<Entry>)
    ensures |es| == |batch|
    ensures forall j :: 0 <= j < |batch| ==> es[j].messageBody == dumps(batch[j])
  {
    seq(|batch|, j requires 0 <= j < |batch| => Entry(DecimalString(j), dumps(batch[j])))
  }

  /** Each entry's id reads back as its position in the batch, so the ids of
      a batch are "0" up to one less than its size, all distinct. */
  lemma EntryIds(batch: seq<Value>, dumps: Value -> string)
    ensures forall j :: 0 <= j < |batch| ==> ParseDecimal(Entries(batch, dumps)[j].id) == j
    ensures forall i, j :: 0 <= i < j < |batch| ==> Entries(batch, dumps)[i].id != Entries(batch, dumps)[j].id
  {
    forall j | 0 <= j < |batch| ensures ParseDecimal(Entries(batch, dumps)[j].id) == j {
      DecimalRoundTrip(j);
    }
  }

  /** The `send_messages` calls of a whole push. */
  function Calls(ms: seq<Value>, dumps: Value -> string): (cs: seq<seq<Entry>>)
    ensures |cs| == |Chunks(ms)|
    ensures forall b :: 0 <= b < |cs| ==> cs[b] == Entries(Chunks(ms)[b], dumps)
  {
    seq(|Chunks(ms)|, b requires 0 <= b < |Chunks(ms)| => Entries(Chunks(ms)[b], dumps))
  }

  /** `push_to_queue`: one `send_messages` call per batch, in order, and the
      responses in the same order. */
  method PushToQueue(queue: Queue, messages: Value, dumps: Value -> string) returns (responses: seq<Value>)
    modifies queue
    ensures queue.calls == old(queue.calls) + Calls(AsList(messages), dumps)
    ensures |responses| == |Calls(AsList(messages), dumps)|
    ensures forall b :: 0 <= b < |responses| ==> responses[b] == queue.respond(Calls(AsList(messages), dumps)[b])
  {
    var ms := AsList(messages);
    ghost var chunks := Chunks(ms);
    ghost var before := queue.calls;
    responses := [];
    var i := 0;
    while i < |ms|
      invariant i == BatchSize * |responses|
      invariant |responses| <= |chunks|
      invariant i < |ms| <==> |responses| < |chunks|
      invariant queue.calls == before + Calls(ms, dumps)[..|responses|]
      invariant forall b :: 0 <= b < |responses| ==> responses[b] == queue.respond(Calls(ms, dumps)[b])
      decreases |ms| - i
    {
      var batch := Slice(ms, i, i + BatchSize);
      ChunksAt(ms, |responses|);
      var entries := seq(|batch|, j requires 0 <= j < |batch| => Entry(DecimalString(j), dumps(batch[j])));
      assert entries == Calls(ms, dumps)[|responses|];
      var response := queue.SendMessages(entries);
      assert Calls(ms, dumps)[..|responses| + 1] == Calls(ms, dumps)[..|responses|] + [entries];
      responses := responses + [response];
      i := i + BatchSize;
      if |responses| < |chunks| {
        ChunksAt(ms, |responses|);
      } else {
        ChunksSizes(ms);
      }
    }
    assert Calls(ms, dumps)[..|responses|] == Calls(ms, dumps);
  }

  /** No messages, no calls; a single message that is not a list, exactly one
      call holding it under id "0". */
  lemma EmptyAndSingle(m: Value, dumps: Value -> string)
    ensures Calls([], dumps) == []
    ensures !m.List? ==> Calls(AsList(m), dumps) == [[Entry("0", dumps(m))]]
  {
    if !m.List? {
      assert Chunks([m]) == [[m]];
      assert DecimalString(0) == "0";
      assert Entries([m], dumps) == [Entry("0", dumps(m))];
    }
  }
}
