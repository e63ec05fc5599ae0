/**
  The buffered hook sets and the buffered consumer together: where each
  record a hook pushes ends up once the consumer routes it by its action.
 */
module Pipeline {
  import opened Values
  import opened Broker
  import opened Host
  import opened TransferLog
  import opened WorkerHooks
  import NonBlockingWorker
  import S = NonBlockingScheduler
  import opened NonBlockingConsumer

  /** The scheduler's one-push hooks land in the table of their kind; the
      start-up record (`restart`), the restart record (`restrat`) and logged
      events match no branch of the consumer and are dropped. */
  lemma SchedulerHooksRoute(h: S.Hook, now: Value)
    ensures var route := RouteOf(Object(S.HookRecord(h, now)));
      && (h.UpdateGraph? ==> route == Append(Graph))
      && ((h.AddWorker? || h.RemoveWorker?) ==> route == Append(Category.Worker))
      && ((h.AddClient? || h.RemoveClient?) ==> route == Append(Client))
      && ((h.Start? || h.Restart? || h.LogEvent?) ==> route == Ignore)
  {
  }

  /** A scheduler transition record, whenever it can be built, lands in the
      scheduler transition table. */
  lemma SchedulerTransitionRoutes(key: Value, start: Value, finish: Value, stimulusId: Value, address: Value,
                                  tasks: map<Value, TaskState>, opt: S.Optionals, now: Value)
    requires key in tasks
    ensures RouteOf(Object(S.TransitionRecord(key, start, finish, stimulusId, address, tasks, opt, now).value))
      == Append(SchedulerTransition)
  {
    S.TransitionRecordFields(key, start, finish, stimulusId, address, tasks, opt, now);
  }

  /** Both closing records stop the consumer and add no row. */
  lemma ClosingRecordsStop(now: Value)
    ensures RouteOf(Object(map["action" := Str("before_close"), "time" := Str(ToStr(now))])) == Stop
    ensures RouteOf(Object(map["action" := Str("close")])) == Stop
  {
  }

  /** A worker's transition record lands in the worker transition table, and
      its `remove_worker` teardown record in the worker table, next to the
      scheduler's arrivals and departures. */
  lemma WorkerRecordsRoute(key: Value, start: Value, finish: Value, name: Value, now: Value)
    ensures RouteOf(Object(NonBlockingWorker.TransitionRecord(key, start, finish, name, now))) == Append(WorkerTransition)
    ensures RouteOf(Object(NonBlockingWorker.RemoveWorkerRecord(now))) == Append(Category.Worker)
  {
  }

  /** A forwarded transfer entry lands in the transfer table unless the
      worker's entry carried an `action` of its own, which the merge lets
      win; tagging adds no `action`. */
  lemma TransferRoutes(e: Record, d: Direction, name: Value, now: Value)
    requires "keys" in e && "action" !in e
    ensures var tagged := TagEntry(e, d, name, now);
      && "action" !in tagged
      && RouteOf(Object(TransferMessage(Merged, tagged).0)) == Append(WorkerTransfer)
  {
    TagEntryFields(e, d, name, now);
    var tagged := TagEntry(e, d, name, now);
    TransferMessageFields(Merged, tagged);
  }

  /** An entry that does carry an `action` is routed by that action instead:
      one saying `close` stops the consumer. */
  lemma TransferActionWins(e: Record)
    requires "action" in e && e["action"] == Str("close")
    ensures RouteOf(Object(TransferMessage(Merged, e).0)) == Stop
  {
    TransferMessageFields(Merged, e);
  }
}
