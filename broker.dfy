/**
  The broker client library, seen from the hooks: a producer that records
  every call made on it, and a service that creates and opens topics. Both
  are told up front which of their calls raise, so that the hooks' handling of
  broker failures can be stated. Delivery, batching and the progress thread
  are not modelled.
 */
module Broker {
  import opened Values

  /** The reserved task key that forces the producer's buffer to drain. */
  const FLUSH_KEY: string := "flush-mofka-buffer"

  /** `"flush-mofka-buffer" == str(key)` holds for the string key itself and
      for an object shown as that text, and for no number, None, tuple, list
      or dict key. */
  lemma FlushKeyValues(key: Value)
    ensures ToStr(key) == FLUSH_KEY <==> key == Str(FLUSH_KEY) || key == Obj(FLUSH_KEY)
  {
    ToStrEqualsWord(key, FLUSH_KEY);
  }

  /** One call on a producer. A push names its metadata and, when the hook
      passes one, its payload; a wait names the handle of the push it waits
      on, which is the position of that push in the trace. */
  datatype Op =
    | Push(metadata: Record, payload: Option<Record>)
    | Wait(handle: nat)
    | Flush

  /** An abstract producer. `trace` holds every call made on it, in order,
      whether or not it raised; the call at position `i` raises exactly when
      `i` is in `faults`. */
  class Producer {
    var trace: seq<Op>
    const faults: set<nat>

    constructor (faults: set<nat>)
      ensures trace == [] && this.faults == faults
    {
      trace := [];
      this.faults := faults;
    }

    /** `producer.push(metadata, payload)`; `handle` is what `wait` takes. */
    method Push(metadata: Record, payload: Option<Record>) returns (handle: nat, ok: bool)
      modifies this
      ensures trace == old(trace) + [Op.Push(metadata, payload)]
      ensures handle == |old(trace)|
      ensures ok <==> |old(trace)| !in faults
    {
      handle := |trace|;
      ok := |trace| !in faults;
      trace := trace + [Op.Push(metadata, payload)];
    }

    /** `f.wait()` on the handle of an earlier push. */
    method Wait(handle: nat) returns (ok: bool)
      modifies this
      ensures trace == old(trace) + [Op.Wait(handle)]
      ensures ok <==> |old(trace)| !in faults
    {
      ok := |trace| !in faults;
      trace := trace + [Op.Wait(handle)];
    }

    /** `producer.flush()`. */
    method Flush() returns (ok: bool)
      modifies this
      ensures trace == old(trace) + [Op.Flush]
      ensures ok <==> |old(trace)| !in faults
    {
      ok := |trace| !in faults;
      trace := trace + [Op.Flush];
    }
  }

  /** The calls the synchronous discipline makes when its push is call number
      `p`: push, wait on that push, flush, stopping after the first call that
      raises. */
  function SyncCalls(p: nat, faults: set<nat>, metadata: Record, payload: Option<Record>): seq<Op>
  {
    if p in faults then [Push(metadata, payload)]
    else if p + 1 in faults then [Push(metadata, payload), Wait(p)]
    else [Push(metadata, payload), Wait(p), Flush]
  }

  /** The synchronous discipline: each call is made only when the one before
      it returned, the wait is on the handle of that same push, and a flush
      always follows a successful wait. */
  lemma SyncCallsOrder(p: nat, faults: set<nat>, metadata: Record, payload: Option<Record>)
    ensures var calls := SyncCalls(p, faults, metadata, payload);
      && 1 <= |calls| <= 3
      && calls[0] == Push(metadata, payload)
      && (|calls| >= 2 <==> p !in faults)
      && (|calls| >= 2 ==> calls[1] == Wait(p))
      && (|calls| == 3 <==> p !in faults && p + 1 !in faults)
      && (|calls| == 3 ==> calls[2] == Flush)
  {
  }

  /** `f = producer.push(...); f.wait(); producer.flush()` with nothing
      caught: `ok` is false when one of the calls raised, and then no later
      call was made. */
  method PushWaitFlush(producer: Producer, metadata: Record, payload: Option<Record>) returns (ok: bool)
    modifies producer
    ensures producer.trace == old(producer.trace) + SyncCalls(|old(producer.trace)|, producer.faults, metadata, payload)
    ensures ok <==> forall i :: |old(producer.trace)| <= i < |old(producer.trace)| + 3 ==> i !in producer.faults
  {
    var handle;
    handle, ok := producer.Push(metadata, payload);
    if !ok {
      return;
    }
    ok := producer.Wait(handle);
    if !ok {
      return;
    }
    ok := producer.Flush();
  }

  /** One call on the broker service that manages topics. */
  datatype ServiceOp =
    | CreateTopic(name: string)
    | AddMemoryPartition(name: string, partition: nat)
    | OpenTopic(name: string)

  /** An abstract service: like the producer, it records its calls, and the
      call at position `i` raises exactly when `i` is in `faults`. Creating a
      topic that already exists is one such failure. */
  class Service {
    var trace: seq<ServiceOp>
    const faults: set<nat>

    constructor (faults: set<nat>)
      ensures trace == [] && this.faults == faults
    {
      trace := [];
      this.faults := faults;
    }

    method Call(op: ServiceOp) returns (ok: bool)
      modifies this
      ensures trace == old(trace) + [op]
      ensures ok <==> |old(trace)| !in faults
    {
      ok := |trace| !in faults;
      trace := trace + [op];
    }
  }

  /** Event metadata as a consumer sees it: a JSON object, or any other value
      (a JSON array, string or number, or undecoded text). */
  datatype Metadata = Object(fields: Record) | Other(v: Value)

  /** One pulled event. `raw` is what `event.metadata` holds; `decoded` is
      what `json.loads(event.metadata)` returns, or None when it raises. */
  datatype Event = Event(raw: Metadata, decoded: Option<Metadata>)

  /** `metadata["action"]`: KeyError when an object lacks it, TypeError when
      the metadata is not a dict. */
  function ActionOf(m: Metadata): (r: Result<Value>)
    ensures r.Ok? <==> m.Object? && "action" in m.fields
    ensures r.Ok? ==> r.value == m.fields["action"]
  {
    match m
    case Object(fields) => if "action" in fields then Ok(fields["action"]) else Err(KeyError)
    case Other(_) => Err(TypeError)
  }

  /** How a consumer's pull loop ends: it saw its stop condition, its next
      pull blocks because the broker has delivered nothing more, or an
      exception escaped the loop. Each counts the events pulled. */
  datatype Outcome = Stopped(pulls: nat) | Blocked(pulls: nat) | Crashed(pulls: nat, error: Error)

  /** What one hook call did: the calls it made on the producer, the
      messages it logged, and the exception that left it, if any. */
  datatype Effect = Effect(calls: seq<Op>, logged: seq<string>, raised: Option<Error>)

  /** One push per message, in order: metadata and optional payload. */
  function PushOps(messages: seq<(Record, Option<Record>)>): (ops: seq<Op>)
    ensures |ops| == |messages|
    ensures forall i :: 0 <= i < |ops| ==> ops[i] == Push(messages[i].0, messages[i].1)
  {
    seq(|messages|, i requires 0 <= i < |messages| => Push(messages[i].0, messages[i].1))
  }

  /** How many of the `k` calls numbered from `p` on raise. */
  function FaultCount(faults: set<nat>, p: nat, k: nat): (n: nat)
    ensures n <= k
  {
    if k == 0 then 0 else FaultCount(faults, p, k - 1) + (if p + k - 1 in faults then 1 else 0)
  }

  /** `n` copies of a log message. */
  function Copies(message: string, n: nat): (r: seq<string>)
    ensures |r| == n && forall i :: 0 <= i < n ==> r[i] == message
  {
    seq(n, _ => message)
  }

  /** `for m in messages: try: producer.push(m) except: log`: every message
      is pushed, in order, whether or not an earlier push raised; `failed`
      counts the pushes that raised. */
  method PushAll(producer: Producer, messages: seq<(Record, Option<Record>)>) returns (failed: nat)
    modifies producer
    ensures producer.trace == old(producer.trace) + PushOps(messages)
    ensures failed == FaultCount(producer.faults, |old(producer.trace)|, |messages|)
  {
    failed := 0;
    var i := 0;
    while i < |messages|
      invariant i <= |messages|
      invariant producer.trace == old(producer.trace) + PushOps(messages[..i])
      invariant failed == FaultCount(producer.faults, |old(producer.trace)|, i)
    {
      var _, ok := producer.Push(messages[i].0, messages[i].1);
      if !ok {
        failed := failed + 1;
      }
      assert messages[..i + 1] == messages[..i] + [messages[i]];
      i := i + 1;
    }
    assert messages[..i] == messages;
  }

  /** Counting the faults of `a + b` consecutive calls splits at `a`. */
  lemma {:induction false} FaultCountSplit(faults: set<nat>, p: nat, a: nat, b: nat)
    ensures FaultCount(faults, p, a + b) == FaultCount(faults, p, a) + FaultCount(faults, p + a, b)
    decreases b
  {
    if b > 0 {
      FaultCountSplit(faults, p, a, b - 1);
    }
  }

  lemma CopiesSplit(message: string, a: nat, b: nat)
    ensures Copies(message, a) + Copies(message, b) == Copies(message, a + b)
  {
  }
}
