/**
  What the buffered and the no-wait worker hook sets have in common: the
  state a hook changes, the effect of forwarding one transfer log, and the
  guarded pushes. The two differ in how a forwarded entry is encoded.
 */
module WorkerHooks {
  import opened Values
  import opened Broker
  import opened TransferLog

  const TRANSITION_FAILURE: string := "Exception while calling transition method when sending"
  const TEARDOWN_FAILURE: string := "Exception while calling remove_worker method when sending"

  /** How a forwarded entry becomes a push: merged into the metadata, or
      carried as the payload under a bare action. */
  datatype Encoding = Merged | AsPayload

  /** The buffered hooks push `{"action": "worker_transfer"} | d` without a
      payload; the no-wait hooks push `{"action": "worker_transfer"}` with
      `str(d).encode()` as the payload. */
  function TransferMessage(enc: Encoding, e: Record): (Record, Option<Record>)
  {
    match enc
    case Merged => (map["action" := Str("worker_transfer")] + e, None)
    case AsPayload => (map["action" := Str("worker_transfer")], Some(e))
  }

  function TransferMessages(enc: Encoding, sent: seq<Record>): (ms: seq<(Record, Option<Record>)>)
    ensures |ms| == |sent| && forall i :: 0 <= i < |ms| ==> ms[i] == TransferMessage(enc, sent[i])
  {
    seq(|sent|, i requires 0 <= i < |sent| => TransferMessage(enc, sent[i]))
  }

  /** A merged record carries every field of the entry, and the action
      `worker_transfer` unless the entry has an `action` of its own, which
      wins because it is the right operand of `|`. A payload message carries
      the entry whole, under metadata that is the action alone. */
  lemma TransferMessageFields(enc: Encoding, e: Record)
    ensures var (m, payload) := TransferMessage(enc, e);
      && (enc == Merged ==>
            && payload.None?
            && m.Keys == e.Keys + {"action"}
            && (forall k :: k in e ==> m[k] == e[k])
            && ("action" !in e ==> m["action"] == Str("worker_transfer")))
      && (enc == AsPayload ==> m == map["action" := Str("worker_transfer")] && payload == Some(e))
  {
  }

  /** The payload of the transition push of the no-wait and the synchronous
      hooks, `str({...}).encode()` taken as the dictionary itself: only the
      key is stringified, the states, the worker name and the time are
      carried as they are. */
  function TransitionPayload(key: Value, start: Value, finish: Value, name: Value, now: Value): (r: Record)
    ensures r.Keys == {"key", "start", "finish", "called_from", "time"}
    ensures "action" !in r
    ensures r["key"] == Str(ToStr(key)) && r["called_from"] == name
  {
    map["key" := Str(ToStr(key)), "start" := start, "finish" := finish, "called_from" := name, "time" := now]
  }

  /** What a hook changes: the worker's two logs, the two cursors, the
      producer's trace and the error log. */
  datatype PluginState = PluginState(
    incoming: seq<Record>,
    outgoing: seq<Record>,
    commin: nat,
    commout: nat,
    trace: seq<Op>,
    errors: seq<string>)

  function LogOf(st: PluginState, d: Direction): seq<Record>
  {
    if d == Incoming then st.incoming else st.outgoing
  }

  function CursorOf(st: PluginState, d: Direction): nat
  {
    if d == Incoming then st.commin else st.commout
  }

  function WithLog(st: PluginState, d: Direction, log: seq<Record>, cursor: nat): PluginState
  {
    if d == Incoming then st.(incoming := log, commin := cursor)
    else st.(outgoing := log, commout := cursor)
  }

  /** The effect of one log's scan on the hook's state: the tagged log and
      new cursor written back, then one guarded push per forwarded entry.
      `ok` is false when the tagging raised; the exception then leaves the
      hook, before the cursor moved. */
  function ApplyScan(st: PluginState, faults: set<nat>, enc: Encoding, d: Direction, scan: Scan): (PluginState, bool)
  {
    var st1 := WithLog(st, d, scan.log, scan.cursor);
    if !scan.ok then (st1, false)
    else
      var ms := TransferMessages(enc, scan.sent);
      (st1.(trace := st1.trace + PushOps(ms),
            errors := st1.errors + Copies(TRANSITION_FAILURE, FaultCount(faults, |st1.trace|, |ms|))),
       true)
  }

  /** One log's part of `transition`. */
  function ForwardEffect(st: PluginState, faults: set<nat>, enc: Encoding, d: Direction,
                         name: Value, now: Value): (PluginState, bool)
  {
    ApplyScan(st, faults, enc, d, ScanLog(LogOf(st, d), CursorOf(st, d), d, name, now))
  }

  /** The first push of `transition`, with its failure logged. */
  function RecordPushed(st: PluginState, faults: set<nat>, metadata: Record, payload: Option<Record>): PluginState
  {
    st.(trace := st.trace + [Push(metadata, payload)],
        errors := st.errors + (if |st.trace| in faults then [TRANSITION_FAILURE] else []))
  }

  /** A log that has not grown past its cursor is left alone and nothing is
      pushed for it. */
  lemma NothingNewToForward(st: PluginState, faults: set<nat>, enc: Encoding, d: Direction, name: Value, now: Value)
    requires |LogOf(st, d)| <= CursorOf(st, d)
    ensures ForwardEffect(st, faults, enc, d, name, now) == (st, true)
  {
    var ms := TransferMessages(enc, []);
    assert PushOps(ms) == [];
    assert Copies(TRANSITION_FAILURE, FaultCount(faults, |st.trace|, |ms|)) == [];
    assert st.trace + [] == st.trace && st.errors + [] == st.errors;
  }

  /** A scan adds only pushes to the trace, one per forwarded entry, and
      logs one message per push of it that raised. */
  lemma ScanPushes(st: PluginState, faults: set<nat>, enc: Encoding, d: Direction, scan: Scan)
    ensures var st' := ApplyScan(st, faults, enc, d, scan).0;
      && |st'.trace| == |st.trace| + (if scan.ok then |scan.sent| else 0)
      && st'.trace[..|st.trace|] == st.trace
      && (forall i :: |st.trace| <= i < |st'.trace| ==> st'.trace[i].Push?)
      && st'.errors == st.errors + Copies(TRANSITION_FAILURE, FaultCount(faults, |st.trace|, |st'.trace| - |st.trace|))
  {
    if scan.ok {
      var ms := TransferMessages(enc, scan.sent);
      var st' := ApplyScan(st, faults, enc, d, scan).0;
      assert st'.trace == st.trace + PushOps(ms);
    }
  }

  /** Logging the failures of two runs of consecutive pushes one after the
      other is logging the failures of the whole run. */
  lemma ErrorsCompose(e0: seq<string>, e1: seq<string>, e2: seq<string>, faults: set<nat>, p: nat, a: nat, b: nat)
    requires e1 == e0 + Copies(TRANSITION_FAILURE, FaultCount(faults, p, a))
    requires e2 == e1 + Copies(TRANSITION_FAILURE, FaultCount(faults, p + a, b))
    ensures e2 == e0 + Copies(TRANSITION_FAILURE, FaultCount(faults, p, a + b))
  {
    FaultCountSplit(faults, p, a, b);
    CopiesSplit(TRANSITION_FAILURE, FaultCount(faults, p, a), FaultCount(faults, p + a, b));
  }
}
