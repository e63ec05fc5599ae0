/**
  The no-wait worker hook set, a debugging variant of the buffered one. Its
  `transition` pushes the transition as a payload under a bare action and
  forwards the new part of each transfer log the same way; it never waits
  and never flushes. Its `teardown` flushes, then pushes `remove_worker` and
  waits on that push.
 */
module NoWaitWorker {
  import opened Values
  import opened Broker
  import opened Host
  import opened TransferLog
  import opened WorkerHooks

  /** The metadata of the transition push: the action alone. */
  const TransitionMetadata: Record := map["action" := Str("worker_transition")]

  const RemoveWorkerMetadata: Record := map["action" := Str("remove_worker")]

  /** `teardown = {"time": time.time()}`, sent as the payload. */
  function TeardownPayload(now: Value): Record
  {
    map["time" := now]
  }

  /** `transition` given the two scans it makes: the guarded transition push,
      then the incoming log, then the outgoing log. */
  function TransitionWith(st: PluginState, faults: set<nat>, payload: Record, inScan: Scan, outScan: Scan): (PluginState, bool)
  {
    var r2 := ApplyScan(RecordPushed(st, faults, TransitionMetadata, Some(payload)), faults, AsPayload, Incoming, inScan);
    if !r2.1 then r2 else ApplyScan(r2.0, faults, AsPayload, Outgoing, outScan)
  }

  /** The whole `transition` hook. `ok` is false when a transfer entry without
      `keys` made the tagging raise. */
  function TransitionEffect(st: PluginState, faults: set<nat>, key: Value, start: Value, finish: Value,
                            name: Value, now: Value): (PluginState, bool)
  {
    TransitionWith(st, faults, TransitionPayload(key, start, finish, name, now),
                   ScanLog(st.incoming, st.commin, Incoming, name, now),
                   ScanLog(st.outgoing, st.commout, Outgoing, name, now))
  }

  /** The calls `teardown` makes when its flush is call number `p`: flush,
      push, wait on that push, stopping after the first call that raises. */
  function TeardownCalls(p: nat, faults: set<nat>, now: Value): seq<Op>
  {
    if p in faults then [Flush]
    else if p + 1 in faults then [Flush, Push(RemoveWorkerMetadata, Some(TeardownPayload(now)))]
    else [Flush, Push(RemoveWorkerMetadata, Some(TeardownPayload(now))), Wait(p + 1)]
  }

  /** Does one of the three calls of `teardown` raise? */
  predicate TeardownRaises(p: nat, faults: set<nat>)
  {
    p in faults || p + 1 in faults || p + 2 in faults
  }

  class MofkaWorkerPlugin {
    var worker: Worker
    var commin: nat
    var commout: nat
    const producer: Producer
    var errors: seq<string>

    function State(): PluginState
      reads this, worker, producer
    {
      PluginState(worker.incoming, worker.outgoing, commin, commout, producer.trace, errors)
    }

    /** Both cursors start at 0; nothing is logged yet. */
    constructor (worker: Worker, producer: Producer)
      ensures this.worker == worker && this.producer == producer
      ensures commin == 0 && commout == 0 && errors == []
    {
      this.worker := worker;
      this.producer := producer;
      commin := 0;
      commout := 0;
      errors := [];
    }

    /** `setup`: attach to a (possibly different) worker; nothing else
        changes. */
    method Setup(worker: Worker)
      modifies this
      ensures this.worker == worker
      ensures commin == old(commin) && commout == old(commout) && errors == old(errors)
    {
      this.worker := worker;
    }

    /** `teardown`: flush, push `remove_worker`, wait on it, all in one
        `try`; an exception is logged once and does not leave the hook. */
    method Teardown(now: Value)
      modifies this, producer
      ensures producer.trace == old(producer.trace) + TeardownCalls(|old(producer.trace)|, producer.faults, now)
      ensures errors == old(errors) + (if TeardownRaises(|old(producer.trace)|, producer.faults) then [TEARDOWN_FAILURE] else [])
      ensures worker == old(worker) && commin == old(commin) && commout == old(commout)
    {
      var ok := producer.Flush();
      if ok {
        var handle;
        handle, ok := producer.Push(RemoveWorkerMetadata, Some(TeardownPayload(now)));
        if ok {
          ok := producer.Wait(handle);
        }
      }
      if !ok {
        errors := errors + [TEARDOWN_FAILURE];
      }
    }

    /** One log's part of `transition`. */
    method Forward(d: Direction, now: Value) returns (ok: bool)
      modifies this, worker, producer
      ensures worker == old(worker) && worker.name == old(worker.name)
      ensures (State(), ok) == ForwardEffect(old(State()), producer.faults, AsPayload, d, worker.name, now)
    {
      var log := if d == Incoming then worker.incoming else worker.outgoing;
      var c := if d == Incoming then commin else commout;
      if |log| <= c {
        NothingNewToForward(State(), producer.faults, AsPayload, d, worker.name, now);
        return true;
      }
      var s := ScanStart(c, |log|);
      var tagged, tagOk := TagEntries(log, s, d, worker.name, now);
      if d == Incoming {
        worker.incoming := tagged;
      } else {
        worker.outgoing := tagged;
      }
      if !tagOk {
        return false;
      }
      if d == Incoming {
        commin := |log|;
      } else {
        commout := |log|;
      }
      var failed := PushAll(producer, TransferMessages(AsPayload, tagged[s..]));
      errors := errors + Copies(TRANSITION_FAILURE, failed);
      ok := true;
    }

    /** `transition(key, start, finish)`, the clock reading `now`. */
    method Transition(key: Value, start: Value, finish: Value, now: Value) returns (ok: bool)
      modifies this, worker, producer
      ensures worker == old(worker) && worker.name == old(worker.name)
      ensures (State(), ok) == TransitionEffect(old(State()), producer.faults, key, start, finish, worker.name, now)
    {
      ghost var st0 := State();
      var payload := TransitionPayload(key, start, finish, worker.name, now);
      PushRecord(payload);
      ghost var st1 := State();
      ok := Forward(Incoming, now);
      ghost var r2 := (State(), ok);
      if ok {
        ok := Forward(Outgoing, now);
      }
      TransitionSteps(st0, st1, r2, (State(), ok), producer.faults, key, start, finish, worker.name, now);
    }

    /** The guarded push of the transition. */
    method PushRecord(payload: Record)
      modifies this, producer
      ensures worker == old(worker)
      ensures State() == RecordPushed(old(State()), producer.faults, TransitionMetadata, Some(payload))
    {
      var _, pushed := producer.Push(TransitionMetadata, Some(payload));
      if !pushed {
        errors := errors + [TRANSITION_FAILURE];
      }
    }
  }

  /** `transition` as its three stages run one after another: each stage
      starts from the state the one before it left. */
  lemma TransitionSteps(st0: PluginState, st1: PluginState, r2: (PluginState, bool), r: (PluginState, bool),
                        faults: set<nat>, key: Value, start: Value, finish: Value, name: Value, now: Value)
    requires st1 == RecordPushed(st0, faults, TransitionMetadata, Some(TransitionPayload(key, start, finish, name, now)))
    requires r2 == ForwardEffect(st1, faults, AsPayload, Incoming, name, now)
    requires r == if r2.1 then ForwardEffect(r2.0, faults, AsPayload, Outgoing, name, now) else r2
    ensures r == TransitionEffect(st0, faults, key, start, finish, name, now)
  {
    assert st1.incoming == st0.incoming && st1.commin == st0.commin;
    assert r2.0.outgoing == st0.outgoing && r2.0.commout == st0.commout;
  }

  // ---------------------------------------------------------------------
  // Properties of one transition

  /** The calls `transition` makes on the producer, in order: the transition
      push, one push per forwarded incoming entry, then one per forwarded
      outgoing entry. It never waits and never flushes, whatever the key. */
  lemma TransitionCalls(st: PluginState, faults: set<nat>, key: Value, start: Value, finish: Value,
                        name: Value, now: Value)
    ensures var (st', ok) := TransitionEffect(st, faults, key, start, finish, name, now);
      var inScan := ScanLog(st.incoming, st.commin, Incoming, name, now);
      var outScan := ScanLog(st.outgoing, st.commout, Outgoing, name, now);
      var first := st.trace + [Push(TransitionMetadata, Some(TransitionPayload(key, start, finish, name, now)))];
      && (!inScan.ok ==> st'.trace == first && !ok)
      && (inScan.ok && !outScan.ok ==> st'.trace == first + PushOps(TransferMessages(AsPayload, inScan.sent)) && !ok)
      && (inScan.ok && outScan.ok ==>
            st'.trace == first + PushOps(TransferMessages(AsPayload, inScan.sent))
                         + PushOps(TransferMessages(AsPayload, outScan.sent)) && ok)
  {
  }

  /** Every call of `transition` is a push, and each failed push is logged
      once: the error log grows by one message per call of this hook that
      raised. */
  lemma OnlyPushes(st: PluginState, faults: set<nat>, key: Value, start: Value, finish: Value,
                   name: Value, now: Value)
    ensures var st' := TransitionEffect(st, faults, key, start, finish, name, now).0;
      && |st'.trace| > |st.trace|
      && st'.trace[..|st.trace|] == st.trace
      && (forall i :: |st.trace| <= i < |st'.trace| ==> st'.trace[i].Push?)
      && st'.errors == st.errors + Copies(TRANSITION_FAILURE, FaultCount(faults, |st.trace|, |st'.trace| - |st.trace|))
  {
    PushesLogged(st, faults, TransitionPayload(key, start, finish, name, now),
                 ScanLog(st.incoming, st.commin, Incoming, name, now),
                 ScanLog(st.outgoing, st.commout, Outgoing, name, now));
  }

  lemma PushesLogged(st: PluginState, faults: set<nat>, payload: Record, inScan: Scan, outScan: Scan)
    ensures var st' := TransitionWith(st, faults, payload, inScan, outScan).0;
      && |st'.trace| > |st.trace|
      && st'.trace[..|st.trace|] == st.trace
      && (forall i :: |st.trace| <= i < |st'.trace| ==> st'.trace[i].Push?)
      && st'.errors == st.errors + Copies(TRANSITION_FAILURE, FaultCount(faults, |st.trace|, |st'.trace| - |st.trace|))
  {
    var p := |st.trace|;
    var st1 := RecordPushed(st, faults, TransitionMetadata, Some(payload));
    ScansPush(st1, faults, inScan, outScan);
    assert st1.errors == st.errors + Copies(TRANSITION_FAILURE, FaultCount(faults, p, 1));
    var st' := TransitionWith(st, faults, payload, inScan, outScan).0;
    ErrorsCompose(st.errors, st1.errors, st'.errors, faults, p, 1, |st'.trace| - |st1.trace|);
  }

  /** The two scans after the transition push add only pushes, and log one
      message per push of theirs that raised. */
  lemma ScansPush(st: PluginState, faults: set<nat>, inScan: Scan, outScan: Scan)
    ensures var r2 := ApplyScan(st, faults, AsPayload, Incoming, inScan);
      var st' := if !r2.1 then r2.0 else ApplyScan(r2.0, faults, AsPayload, Outgoing, outScan).0;
      && |st'.trace| >= |st.trace|
      && st'.trace[..|st.trace|] == st.trace
      && (forall i :: |st.trace| <= i < |st'.trace| ==> st'.trace[i].Push?)
      && st'.errors == st.errors + Copies(TRANSITION_FAILURE, FaultCount(faults, |st.trace|, |st'.trace| - |st.trace|))
  {
    var r2 := ApplyScan(st, faults, AsPayload, Incoming, inScan);
    ScanPushes(st, faults, AsPayload, Incoming, inScan);
    if r2.1 {
      var r3 := ApplyScan(r2.0, faults, AsPayload, Outgoing, outScan);
      ScanPushes(r2.0, faults, AsPayload, Outgoing, outScan);
      ErrorsCompose(st.errors, r2.0.errors, r3.0.errors, faults, |st.trace|, |r2.0.trace| - |st.trace|, |r3.0.trace| - |r2.0.trace|);
    }
  }

  /** The cursors never decrease, each either stays or becomes its log's
      length, the logs keep their length, and none of it depends on which
      pushes raised. */
  lemma CursorsAdvance(st: PluginState, faults: set<nat>, other: set<nat>, key: Value, start: Value,
                       finish: Value, name: Value, now: Value)
    ensures var st' := TransitionEffect(st, faults, key, start, finish, name, now).0;
      && |st'.incoming| == |st.incoming| && |st'.outgoing| == |st.outgoing|
      && st.commin <= st'.commin && st.commout <= st'.commout
      && (st'.commin != st.commin ==> st.commin < st'.commin == |st.incoming|)
      && (st'.commout != st.commout ==> st.commout < st'.commout == |st.outgoing|)
      && st'.commin == TransitionEffect(st, other, key, start, finish, name, now).0.commin
      && st'.commout == TransitionEffect(st, other, key, start, finish, name, now).0.commout
  {
    ScanCursor(st.incoming, st.commin, Incoming, name, now);
    ScanCursor(st.outgoing, st.commout, Outgoing, name, now);
  }

  /** `teardown` flushes first, pushes only after a flush that returned, and
      waits on the handle of that same push; it logs one message exactly
      when its last call raised. */
  lemma TeardownOrder(p: nat, faults: set<nat>, now: Value)
    ensures var calls := TeardownCalls(p, faults, now);
      && 1 <= |calls| <= 3
      && calls[0] == Flush
      && (|calls| >= 2 <==> p !in faults)
      && (|calls| >= 2 ==> calls[1] == Push(RemoveWorkerMetadata, Some(TeardownPayload(now))))
      && (|calls| == 3 <==> p !in faults && p + 1 !in faults)
      && (|calls| == 3 ==> calls[2] == Wait(p + 1))
      && (TeardownRaises(p, faults) <==> p + |calls| - 1 in faults)
  {
  }
}
