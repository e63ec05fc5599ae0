/**
  The buffered worker hook set. On every task transition it pushes one
  `worker_transition` record, then forwards the new part of each transfer
  log as `worker_transfer` records, then forces a flush when the task key is
  the reserved flush key. Pushes are guarded: a push that raises is logged
  and the hook goes on.
 */
module NonBlockingWorker {
  import opened Values
  import opened Broker
  import opened Host
  import opened TransferLog
  import opened WorkerHooks

  /** The metadata of the first push of `transition`: every field but the
      action is the `str()` of what the hook was given. */
  function TransitionRecord(key: Value, start: Value, finish: Value, name: Value, now: Value): (r: Record)
    ensures r.Keys == {"action", "key", "start", "finish", "called_from", "time"}
    ensures r["action"] == Str("worker_transition")
    ensures forall f :: f in r ==> r[f].Str?
    ensures r["key"].s == ToStr(key) && r["called_from"].s == ToStr(name)
  {
    map["action" := Str("worker_transition"), "key" := Str(ToStr(key)), "start" := Str(ToStr(start)),
        "finish" := Str(ToStr(finish)), "called_from" := Str(ToStr(name)), "time" := Str(ToStr(now))]
  }

  /** The `remove_worker` record `teardown` pushes. */
  function RemoveWorkerRecord(now: Value): (r: Record)
    ensures r.Keys == {"action", "time"} && r["action"] == Str("remove_worker")
    ensures r["time"] == Str(ToStr(now))
  {
    map["action" := Str("remove_worker"), "time" := Str(ToStr(now))]
  }

  /** The flush on the reserved key; it is not guarded. */
  function FlushStep(st: PluginState, faults: set<nat>, key: Value): (PluginState, bool)
  {
    if ToStr(key) == FLUSH_KEY then (st.(trace := st.trace + [Flush]), |st.trace| !in faults)
    else (st, true)
  }

  /** `transition` given the two scans it makes. */
  function TransitionWith(st: PluginState, faults: set<nat>, key: Value, record: Record,
                          inScan: Scan, outScan: Scan): (PluginState, bool)
  {
    var r2 := ApplyScan(RecordPushed(st, faults, record, None), faults, Merged, Incoming, inScan);
    if !r2.1 then r2 else AfterIncoming(r2.0, faults, key, outScan)
  }

  /** The rest of `transition` once the incoming log is forwarded. */
  function AfterIncoming(st: PluginState, faults: set<nat>, key: Value, outScan: Scan): (PluginState, bool)
  {
    var r3 := ApplyScan(st, faults, Merged, Outgoing, outScan);
    if !r3.1 then r3 else FlushStep(r3.0, faults, key)
  }

  /** The whole `transition` hook. `ok` is false when an exception left it:
      a transfer entry without `keys`, or a flush that raised. Forwarding one
      log leaves the other log and its cursor alone, so both scans see the
      logs as they were when the hook was called. */
  function TransitionEffect(st: PluginState, faults: set<nat>, key: Value, start: Value, finish: Value,
                            name: Value, now: Value): (PluginState, bool)
  {
    TransitionWith(st, faults, key, TransitionRecord(key, start, finish, name, now),
                   ScanLog(st.incoming, st.commin, Incoming, name, now),
                   ScanLog(st.outgoing, st.commout, Outgoing, name, now))
  }

  class MofkaWorkerPlugin {
    var worker: Worker
    var commin: nat
    var commout: nat
    const producer: Producer
    var errors: seq<string>

    function State(): PluginState
      reads this, worker, producer
    {
      PluginState(worker.incoming, worker.outgoing, commin, commout, producer.trace, errors)
    }

    /** Both cursors start at 0; nothing is logged yet. */
    constructor (worker: Worker, producer: Producer)
      ensures this.worker == worker && this.producer == producer
      ensures commin == 0 && commout == 0 && errors == []
    {
      this.worker := worker;
      this.producer := producer;
      commin := 0;
      commout := 0;
      errors := [];
    }

    /** `setup`: attach to a (possibly different) worker. */
    method Setup(worker: Worker)
      modifies this
      ensures this.worker == worker
      ensures commin == old(commin) && commout == old(commout) && errors == old(errors)
    {
      this.worker := worker;
    }

    /** `teardown`: one guarded `remove_worker` push. */
    method Teardown(now: Value)
      modifies this, producer
      ensures producer.trace == old(producer.trace) + [Op.Push(RemoveWorkerRecord(now), None)]
      ensures errors == old(errors) + (if |old(producer.trace)| in producer.faults then [TEARDOWN_FAILURE] else [])
      ensures worker == old(worker) && commin == old(commin) && commout == old(commout)
    {
      var _, ok := producer.Push(RemoveWorkerRecord(now), None);
      if !ok {
        errors := errors + [TEARDOWN_FAILURE];
      }
    }

    /** One log's part of `transition`. */
    method Forward(d: Direction, now: Value) returns (ok: bool)
      modifies this, worker, producer
      ensures worker == old(worker) && worker.name == old(worker.name)
      ensures (State(), ok) == ForwardEffect(old(State()), producer.faults, Merged, d, worker.name, now)
    {
      var log := if d == Incoming then worker.incoming else worker.outgoing;
      var c := if d == Incoming then commin else commout;
      if |log| <= c {
        NothingNewToForward(State(), producer.faults, Merged, d, worker.name, now);
        return true;
      }
      var s := ScanStart(c, |log|);
      var tagged, tagOk := TagEntries(log, s, d, worker.name, now);
      if d == Incoming {
        worker.incoming := tagged;
      } else {
        worker.outgoing := tagged;
      }
      if !tagOk {
        return false;
      }
      if d == Incoming {
        commin := |log|;
      } else {
        commout := |log|;
      }
      var failed := PushAll(producer, TransferMessages(Merged, tagged[s..]));
      errors := errors + Copies(TRANSITION_FAILURE, failed);
      ok := true;
    }

    /** `transition(key, start, finish)`, the clock reading `now`. */
    method Transition(key: Value, start: Value, finish: Value, now: Value) returns (ok: bool)
      modifies this, worker, producer
      ensures worker == old(worker) && worker.name == old(worker.name)
      ensures (State(), ok) == TransitionEffect(old(State()), producer.faults, key, start, finish, worker.name, now)
    {
      ghost var st0 := State();
      var record := TransitionRecord(key, start, finish, worker.name, now);
      PushRecord(record);
      ghost var st1 := State();
      ok := Forward(Incoming, now);
      ghost var r2 := (State(), ok);
      if ok {
        ok := Finish(key, now);
      }
      TransitionSteps(st0, st1, r2, (State(), ok), producer.faults, key, start, finish, worker.name, now);
    }

    /** The guarded push of the transition record. */
    method PushRecord(record: Record)
      modifies this, producer
      ensures worker == old(worker)
      ensures State() == RecordPushed(old(State()), producer.faults, record, None)
    {
      var _, pushed := producer.Push(record, None);
      if !pushed {
        errors := errors + [TRANSITION_FAILURE];
      }
    }

    /** The outgoing log's part of `transition`, then the flush. */
    method Finish(key: Value, now: Value) returns (ok: bool)
      modifies this, worker, producer
      ensures worker == old(worker) && worker.name == old(worker.name)
      ensures (State(), ok) == AfterIncoming(old(State()), producer.faults, key,
                                             ScanLog(old(worker.outgoing), old(commout), Outgoing, worker.name, now))
    {
      ok := Forward(Outgoing, now);
      if ok && ToStr(key) == FLUSH_KEY {
        ok := producer.Flush();
      }
    }
  }

  /** `transition` as its three stages run one after another: each stage
      starts from the state the one before it left. */
  lemma TransitionSteps(st0: PluginState, st1: PluginState, r2: (PluginState, bool), r: (PluginState, bool),
                        faults: set<nat>, key: Value, start: Value, finish: Value, name: Value, now: Value)
    requires st1 == RecordPushed(st0, faults, TransitionRecord(key, start, finish, name, now), None)
    requires r2 == ForwardEffect(st1, faults, Merged, Incoming, name, now)
    requires r == if r2.1 then AfterIncoming(r2.0, faults, key, ScanLog(r2.0.outgoing, r2.0.commout, Outgoing, name, now)) else r2
    ensures r == TransitionEffect(st0, faults, key, start, finish, name, now)
  {
    assert st1.incoming == st0.incoming && st1.commin == st0.commin;
    assert r2.0.outgoing == st0.outgoing && r2.0.commout == st0.commout;
  }

  // ---------------------------------------------------------------------
  // Properties of one transition

  /** The calls `transition` makes on the producer, in order: the transition
      record, one push per forwarded incoming entry, one per forwarded
      outgoing entry, then a flush exactly when the key is the flush key.
      Which pushes raise changes none of this. */
  lemma TransitionCalls(st: PluginState, faults: set<nat>, key: Value, start: Value, finish: Value,
                        name: Value, now: Value)
    ensures var (st', ok) := TransitionEffect(st, faults, key, start, finish, name, now);
      var inScan := ScanLog(st.incoming, st.commin, Incoming, name, now);
      var outScan := ScanLog(st.outgoing, st.commout, Outgoing, name, now);
      var first := st.trace + [Push(TransitionRecord(key, start, finish, name, now), None)];
      && (!inScan.ok ==> st'.trace == first && !ok)
      && (inScan.ok && !outScan.ok ==> st'.trace == first + PushOps(TransferMessages(Merged, inScan.sent)) && !ok)
      && (inScan.ok && outScan.ok ==>
            st'.trace == first + PushOps(TransferMessages(Merged, inScan.sent)) + PushOps(TransferMessages(Merged, outScan.sent))
                         + (if ToStr(key) == FLUSH_KEY then [Flush] else []))
  {
  }

  /** The flush is the last call, made exactly for the flush key and only
      when neither scan raised; no other call is a flush. */
  lemma FlushOnlyOnKey(st: PluginState, faults: set<nat>, key: Value, start: Value, finish: Value,
                       name: Value, now: Value)
    ensures var (st', ok) := TransitionEffect(st, faults, key, start, finish, name, now);
      && |st'.trace| > |st.trace|
      && st'.trace[..|st.trace|] == st.trace
      && (forall i :: |st.trace| <= i < |st'.trace| - 1 ==> !st'.trace[i].Flush?)
      && (st'.trace[|st'.trace| - 1].Flush? <==>
            ToStr(key) == FLUSH_KEY
            && ScanLog(st.incoming, st.commin, Incoming, name, now).ok
            && ScanLog(st.outgoing, st.commout, Outgoing, name, now).ok)
  {
    FlushLast(st, faults, key, TransitionRecord(key, start, finish, name, now),
              ScanLog(st.incoming, st.commin, Incoming, name, now),
              ScanLog(st.outgoing, st.commout, Outgoing, name, now));
  }

  lemma FlushLast(st: PluginState, faults: set<nat>, key: Value, record: Record, inScan: Scan, outScan: Scan)
    ensures var st' := TransitionWith(st, faults, key, record, inScan, outScan).0;
      && |st'.trace| > |st.trace|
      && st'.trace[..|st.trace|] == st.trace
      && (forall i :: |st.trace| <= i < |st'.trace| - 1 ==> !st'.trace[i].Flush?)
      && (st'.trace[|st'.trace| - 1].Flush? <==> ToStr(key) == FLUSH_KEY && inScan.ok && outScan.ok)
  {
    var st1 := RecordPushed(st, faults, record, None);
    var r2 := ApplyScan(st1, faults, Merged, Incoming, inScan);
    ScanPushes(st1, faults, Merged, Incoming, inScan);
    if r2.1 {
      ScanPushes(r2.0, faults, Merged, Outgoing, outScan);
    }
  }

  /** The cursors never decrease, each either stays or becomes its log's
      length, the logs keep their length, and none of it depends on which
      pushes raised: a failed push does not roll a cursor back. */
  lemma CursorsAdvance(st: PluginState, faults: set<nat>, other: set<nat>, key: Value, start: Value,
                       finish: Value, name: Value, now: Value)
    ensures var st' := TransitionEffect(st, faults, key, start, finish, name, now).0;
      && |st'.incoming| == |st.incoming| && |st'.outgoing| == |st.outgoing|
      && st.commin <= st'.commin && st.commout <= st'.commout
      && (st'.commin != st.commin ==> st.commin < st'.commin == |st.incoming|)
      && (st'.commout != st.commout ==> st.commout < st'.commout == |st.outgoing|)
      && st'.commin == TransitionEffect(st, other, key, start, finish, name, now).0.commin
      && st'.commout == TransitionEffect(st, other, key, start, finish, name, now).0.commout
  {
    ScanCursor(st.incoming, st.commin, Incoming, name, now);
    ScanCursor(st.outgoing, st.commout, Outgoing, name, now);
  }

  /** Every failed push is logged once and nothing else is: the error log
      grows by one message per push of this call that raised; a flush that
      raises is not logged but leaves the hook. */
  lemma FailuresLogged(st: PluginState, faults: set<nat>, key: Value, start: Value, finish: Value,
                       name: Value, now: Value)
    ensures var st' := TransitionEffect(st, faults, key, start, finish, name, now).0;
      var pushes := |st'.trace| - |st.trace| - (if st'.trace[|st'.trace| - 1].Flush? then 1 else 0);
      && |st'.trace| > |st.trace|
      && pushes >= 1
      && st'.errors == st.errors + Copies(TRANSITION_FAILURE, FaultCount(faults, |st.trace|, pushes))
  {
    var record := TransitionRecord(key, start, finish, name, now);
    var inScan := ScanLog(st.incoming, st.commin, Incoming, name, now);
    var outScan := ScanLog(st.outgoing, st.commout, Outgoing, name, now);
    FlushLast(st, faults, key, record, inScan, outScan);
    LogsEveryFailure(st, faults, key, record, inScan, outScan);
  }

  lemma LogsEveryFailure(st: PluginState, faults: set<nat>, key: Value, record: Record, inScan: Scan, outScan: Scan)
    ensures var st' := TransitionWith(st, faults, key, record, inScan, outScan).0;
      var flushed := ToStr(key) == FLUSH_KEY && inScan.ok && outScan.ok;
      var pushes := |st'.trace| - |st.trace| - (if flushed then 1 else 0);
      && pushes >= 1
      && st'.errors == st.errors + Copies(TRANSITION_FAILURE, FaultCount(faults, |st.trace|, pushes))
  {
    var p := |st.trace|;
    var st1 := RecordPushed(st, faults, record, None);
    var r2 := ApplyScan(st1, faults, Merged, Incoming, inScan);
    var m1 := |r2.0.trace| - |st1.trace|;
    ScanPushes(st1, faults, Merged, Incoming, inScan);
    assert st1.errors == st.errors + Copies(TRANSITION_FAILURE, FaultCount(faults, p, 1));
    ErrorsCompose(st.errors, st1.errors, r2.0.errors, faults, p, 1, m1);
    if r2.1 {
      OutgoingLogged(r2.0, faults, key, outScan);
      var r := AfterIncoming(r2.0, faults, key, outScan).0;
      var m2 := |r.trace| - |r2.0.trace| - (if ToStr(key) == FLUSH_KEY && outScan.ok then 1 else 0);
      ErrorsCompose(st.errors, r2.0.errors, r.errors, faults, p, 1 + m1, m2);
    }
  }

  lemma OutgoingLogged(st: PluginState, faults: set<nat>, key: Value, outScan: Scan)
    ensures var st' := AfterIncoming(st, faults, key, outScan).0;
      var pushes := |st'.trace| - |st.trace| - (if ToStr(key) == FLUSH_KEY && outScan.ok then 1 else 0);
      && pushes >= 0
      && st'.errors == st.errors + Copies(TRANSITION_FAILURE, FaultCount(faults, |st.trace|, pushes))
  {
    ScanPushes(st, faults, Merged, Outgoing, outScan);
  }
}
