/**
  The buffered scheduler hook set. Every callback pushes one flat record
  whose fields travel in the metadata. The pushes are guarded: an exception
  is logged and the hook returns normally. Only `close` lets a failure out,
  and only `before_close` and `close` wait on the push. `transition` forces
  a flush when the task key is the reserved flush key.
 */
module NonBlockingScheduler {
  import opened Values
  import opened Broker
  import opened Host

  /** The callbacks that make one guarded push and nothing else, with the
      arguments their records carry. */
  datatype Hook =
    | Start
    | UpdateGraph(client: Value, keys: Value, dependencies: Value)
    | Restart
    | AddWorker
    | RemoveWorker(worker: Value, stimulusId: Value)
    | AddClient(client: Value)
    | RemoveClient(client: Value)
    | LogEvent(topic: Value, msg: Value)

  /** The record a hook pushes, its time being `str(time.time())`. */
  function HookRecord(h: Hook, now: Value): Record
  {
    var time := Str(ToStr(now));
    match h
    case Start => map["action" := Str("restart"), "time" := time]
    case UpdateGraph(client, keys, dependencies) =>
      map["action" := Str("update_graph"), "client" := Str(ToStr(client)), "keys" := Str(ToStr(keys)),
          "dependencies" := Str(ToStr(dependencies)), "time" := time]
    case Restart => map["action" := Str("restrat"), "time" := time]
    case AddWorker => map["action" := Str("add_worker"), "time" := time]
    case RemoveWorker(worker, stimulusId) =>
      map["action" := Str("remove_worker"), "worker" := worker, "stimulus_id" := stimulusId, "time" := time]
    case AddClient(client) => map["action" := Str("add_client"), "client" := client, "time" := time]
    case RemoveClient(client) => map["action" := Str("remove_client"), "client" := client, "time" := time]
    case LogEvent(topic, msg) =>
      map["action" := Str("log_event"), "topic" := Str(ToStr(topic)), "message" := Str(ToStr(msg)), "time" := time]
  }

  /** What the hook logs when its push raises. */
  function FailureMessage(h: Hook): string
  {
    match h
    case Start => "Exception while calling restart method when sending"
    case UpdateGraph(_, _, _) => "Exception while calling update_graph method when sending"
    case Restart => "Exception while calling restart method when sending"
    case AddWorker => "Exception while calling add_worker method when sending"
    case RemoveWorker(_, _) => "Exception while calling remove_worker method when sending"
    case AddClient(_) => "Exception while calling add_client method when sending"
    case RemoveClient(_) => "Exception while calling remove client method when sending"
    case LogEvent(_, _) => "Exception while calling log_event method when sending"
  }

  const BEFORE_CLOSE_FAILURE: string := "Exception while calling before_close method when sending"
  const TRANSITION_FAILURE: string := "Exception while calling transition method when sending"

  /** The record of each hook: its action, its time, and exactly the
      fields listed. Starting up and restarting push different actions;
      a worker arriving carries no worker field, one leaving carries the
      worker and the stimulus; the topic and message of a logged event, and
      the client, keys and dependencies of a graph update, are stringified. */
  lemma HookRecordFields(h: Hook, now: Value)
    ensures var r := HookRecord(h, now);
      && "action" in r && r["action"].Str? && r["time"] == Str(ToStr(now))
      && (h == Start ==> r.Keys == {"action", "time"} && r["action"] == Str("restart"))
      && (h == Restart ==> r.Keys == {"action", "time"} && r["action"] == Str("restrat"))
      && (h == AddWorker ==> r.Keys == {"action", "time"} && r["action"] == Str("add_worker"))
      && (h.RemoveWorker? ==> r.Keys == {"action", "worker", "stimulus_id", "time"}
                              && r["worker"] == h.worker && r["stimulus_id"] == h.stimulusId)
      && (h.AddClient? ==> r.Keys == {"action", "client", "time"} && r["client"] == h.client)
      && (h.RemoveClient? ==> r.Keys == {"action", "client", "time"} && r["client"] == h.client)
      && (h.LogEvent? ==> r.Keys == {"action", "topic", "message", "time"}
                          && r["topic"] == Str(ToStr(h.topic)) && r["message"] == Str(ToStr(h.msg)))
      && (h.UpdateGraph? ==> r.Keys == {"action", "client", "keys", "dependencies", "time"}
                             && r["client"] == Str(ToStr(h.client)) && r["keys"] == Str(ToStr(h.keys))
                             && r["dependencies"] == Str(ToStr(h.dependencies)))
  {
  }

  /** The optional fields of a scheduler transition record. */
  datatype Optionals = Optionals(begins: Value, ends: Value, duration: Value, size: Value, thread: Value, worker: Value)

  /** `kwargs[name]` when `kwargs.get(name)` is truthy, else None. */
  function IfTruthy(kwargs: Record, name: string): Value
  {
    if Truthy(Get(kwargs, name)) then kwargs[name] else NoneV
  }

  /** `startstops[0]`, then its `start`, its `stop`, and `stop - start`,
      raising at the first step that fails. */
  function FirstStartStop(startstops: Value): Result<(Value, Value, Value)>
  {
    var first := GetItem(startstops, Num(0));
    if first.Err? then Err(first.error)
    else
      var begins := GetItem(first.value, Str("start"));
      if begins.Err? then Err(begins.error)
      else
        var ends := GetItem(first.value, Str("stop"));
        if ends.Err? then Err(ends.error)
        else
          var duration := Sub(ends.value, begins.value);
          if duration.Err? then Err(duration.error)
          else Ok((begins.value, ends.value, duration.value))
  }

  /** The keyword extraction at the top of `transition`. It is outside the
      `try`, so its errors leave the hook. */
  function ExtractOptional(kwargs: Record): Result<Optionals>
  {
    var size := IfTruthy(kwargs, "nbytes");
    var thread := IfTruthy(kwargs, "thread");
    var worker := IfTruthy(kwargs, "worker");
    if !Truthy(Get(kwargs, "startstops")) then Ok(Optionals(NoneV, NoneV, NoneV, size, thread, worker))
    else
      match FirstStartStop(kwargs["startstops"])
      case Err(e) => Err(e)
      case Ok((begins, ends, duration)) => Ok(Optionals(begins, ends, duration, size, thread, worker))
  }

  /** Without a truthy `startstops` the three timing fields are None;
      with one they come from its first element, the duration being stop
      minus start, and the extraction fails exactly when that element, its
      `start` or its `stop` cannot be read or the two cannot be subtracted.
      Nothing else makes it fail. */
  lemma StartStopsFields(kwargs: Record)
    ensures var r := ExtractOptional(kwargs);
      && (!Truthy(Get(kwargs, "startstops")) ==>
            r.Ok? && r.value.begins == NoneV && r.value.ends == NoneV && r.value.duration == NoneV)
      && (Truthy(Get(kwargs, "startstops")) ==>
            var first := GetItem(kwargs["startstops"], Num(0));
            (r.Ok? <==> first.Ok? && GetItem(first.value, Str("start")).Ok? && GetItem(first.value, Str("stop")).Ok?
                        && GetItem(first.value, Str("start")).value.Num? && GetItem(first.value, Str("stop")).value.Num?)
            && (r.Ok? ==>
                  && GetItem(first.value, Str("start")) == Ok(r.value.begins)
                  && GetItem(first.value, Str("stop")) == Ok(r.value.ends)
                  && r.value.duration == Num(r.value.ends.n - r.value.begins.n)))
  {
  }

  /** `thread`, `size` and `worker` take the keyword's value only when it is
      truthy: a falsy value such as `nbytes=0` is recorded as None, so none
      of the three is ever falsy but None. */
  lemma FalsyBecomesNone(kwargs: Record)
    ensures var r := ExtractOptional(kwargs);
      r.Ok? ==>
        && (r.value.size == NoneV || (Truthy(r.value.size) && r.value.size == kwargs["nbytes"]))
        && (r.value.thread == NoneV || (Truthy(r.value.thread) && r.value.thread == kwargs["thread"]))
        && (r.value.worker == NoneV || (Truthy(r.value.worker) && r.value.worker == kwargs["worker"]))
        && (Truthy(Get(kwargs, "nbytes")) ==> r.value.size == kwargs["nbytes"])
        && (Truthy(Get(kwargs, "thread")) ==> r.value.thread == kwargs["thread"])
        && (Truthy(Get(kwargs, "worker")) ==> r.value.worker == kwargs["worker"])
  {
  }

  /** The record of `transition`. Reading the task's prefix and group raises
      KeyError for a key the scheduler does not know. */
  function TransitionRecord(key: Value, start: Value, finish: Value, stimulusId: Value, address: Value,
                            tasks: map<Value, TaskState>, opt: Optionals, now: Value): (r: Result<Record>)
    ensures r.Ok? <==> key in tasks
  {
    if key !in tasks then Err(KeyError)
    else Ok(map["action" := Str("scheduler_transition"), "key" := Str(ToStr(key)),
                "thread" := opt.thread, "worker" := opt.worker,
                "prefix" := tasks[key].prefixName, "group" := tasks[key].groupName,
                "start" := start, "finish" := finish, "stimulus_id" := stimulusId,
                "called_from" := address, "begins" := opt.begins, "ends" := opt.ends,
                "duration" := opt.duration, "size" := opt.size, "time" := Str(ToStr(now))])
  }

  /** Every transition record has exactly these fields. */
  lemma TransitionRecordKeys(key: Value, start: Value, finish: Value, stimulusId: Value, address: Value,
                             tasks: map<Value, TaskState>, opt: Optionals, now: Value)
    requires key in tasks
    ensures TransitionRecord(key, start, finish, stimulusId, address, tasks, opt, now).value.Keys
      == {"action", "key", "thread", "worker", "prefix", "group", "start", "finish",
          "stimulus_id", "called_from", "begins", "ends", "duration", "size", "time"}
  {
  }

  /** The fixed fields of every transition record: the action, the
      stringified key, the task's prefix and group, the scheduler's address
      and the time. */
  lemma TransitionRecordFields(key: Value, start: Value, finish: Value, stimulusId: Value, address: Value,
                               tasks: map<Value, TaskState>, opt: Optionals, now: Value)
    requires key in tasks
    ensures var r := TransitionRecord(key, start, finish, stimulusId, address, tasks, opt, now).value;
      && r["action"] == Str("scheduler_transition")
      && r["key"] == Str(ToStr(key))
      && r["prefix"] == tasks[key].prefixName && r["group"] == tasks[key].groupName
      && r["called_from"] == address
      && r["time"] == Str(ToStr(now))
  {
  }

  /** The optional fields of a transition record are the extracted ones, and
      the states and stimulus are carried as given. */
  lemma TransitionRecordOptionals(key: Value, start: Value, finish: Value, stimulusId: Value, address: Value,
                                  tasks: map<Value, TaskState>, opt: Optionals, now: Value)
    requires key in tasks
    ensures var r := TransitionRecord(key, start, finish, stimulusId, address, tasks, opt, now).value;
      && r["start"] == start && r["finish"] == finish && r["stimulus_id"] == stimulusId
      && r["begins"] == opt.begins && r["ends"] == opt.ends && r["duration"] == opt.duration
      && r["size"] == opt.size && r["thread"] == opt.thread && r["worker"] == opt.worker
  {
  }

  /** A guarded push that is call number `p`. */
  function GuardedPush(p: nat, faults: set<nat>, record: Record, message: string): Effect
  {
    Effect([Push(record, None)], if p in faults then [message] else [], None)
  }

  /** `before_close`: push and wait inside the `try`. */
  function BeforeCloseEffect(p: nat, faults: set<nat>, now: Value): Effect
  {
    var record := map["action" := Str("before_close"), "time" := Str(ToStr(now))];
    if p in faults then Effect([Push(record, None)], [BEFORE_CLOSE_FAILURE], None)
    else Effect([Push(record, None), Wait(p)], if p + 1 in faults then [BEFORE_CLOSE_FAILURE] else [], None)
  }

  /** `close`: push the action with the time as payload, then wait; nothing
      is caught. */
  function CloseEffect(p: nat, faults: set<nat>, now: Value): Effect
  {
    var call := Push(map["action" := Str("close")], Some(map["time" := now]));
    if p in faults then Effect([call], [], Some(BrokerError))
    else Effect([call, Wait(p)], [], if p + 1 in faults then Some(BrokerError) else None)
  }

  /** `transition`: the extraction, then the guarded push, then, outside the
      `try`, the flush on the reserved key. */
  function TransitionEffect(p: nat, faults: set<nat>, key: Value, start: Value, finish: Value, stimulusId: Value,
                            kwargs: Record, address: Value, tasks: map<Value, TaskState>, now: Value): Effect
  {
    match ExtractOptional(kwargs)
    case Err(e) => Effect([], [], Some(e))
    case Ok(opt) => PushThenFlush(p, faults, key, TransitionRecord(key, start, finish, stimulusId, address, tasks, opt, now))
  }

  /** The guarded push of the record, when it could be built, then the
      flush on the reserved key. */
  function PushThenFlush(p: nat, faults: set<nat>, key: Value, record: Result<Record>): Effect
  {
    var pushed :=
      match record
      case Err(_) => Effect([], [TRANSITION_FAILURE], None)
      case Ok(r) => GuardedPush(p, faults, r, TRANSITION_FAILURE);
    if ToStr(key) == FLUSH_KEY then
      Effect(pushed.calls + [Flush], pushed.logged, if p + |pushed.calls| in faults then Some(BrokerError) else None)
    else pushed
  }

  class MofkaSchedulerPlugin {
    const scheduler: Scheduler
    const producer: Producer
    var errors: seq<string>

    constructor (scheduler: Scheduler, producer: Producer)
      ensures this.scheduler == scheduler && this.producer == producer && errors == []
    {
      this.scheduler := scheduler;
      this.producer := producer;
      errors := [];
    }

    /** `start`, `update_graph`, `restart`, `add_worker`, `remove_worker`,
        `add_client`, `remove_client` and `log_event`. */
    method Notify(h: Hook, now: Value)
      modifies this, producer
      ensures var e := GuardedPush(|old(producer.trace)|, producer.faults, HookRecord(h, now), FailureMessage(h));
        producer.trace == old(producer.trace) + e.calls && errors == old(errors) + e.logged
    {
      var _, ok := producer.Push(HookRecord(h, now), None);
      if !ok {
        errors := errors + [FailureMessage(h)];
      }
    }

    method BeforeClose(now: Value)
      modifies this, producer
      ensures var e := BeforeCloseEffect(|old(producer.trace)|, producer.faults, now);
        producer.trace == old(producer.trace) + e.calls && errors == old(errors) + e.logged
    {
      var handle, ok := producer.Push(map["action" := Str("before_close"), "time" := Str(ToStr(now))], None);
      if ok {
        ok := producer.Wait(handle);
      }
      if !ok {
        errors := errors + [BEFORE_CLOSE_FAILURE];
      }
    }

    method Close(now: Value) returns (raised: Option<Error>)
      modifies producer
      ensures var e := CloseEffect(|old(producer.trace)|, producer.faults, now);
        producer.trace == old(producer.trace) + e.calls && raised == e.raised
    {
      var handle, ok := producer.Push(map["action" := Str("close")], Some(map["time" := now]));
      if ok {
        ok := producer.Wait(handle);
      }
      raised := if ok then None else Some(BrokerError);
    }

    method Transition(key: Value, start: Value, finish: Value, stimulusId: Value, kwargs: Record, now: Value)
      returns (raised: Option<Error>)
      modifies this, producer
      ensures var e := TransitionEffect(|old(producer.trace)|, producer.faults, key, start, finish, stimulusId,
                                        kwargs, scheduler.address, scheduler.tasks, now);
        producer.trace == old(producer.trace) + e.calls && errors == old(errors) + e.logged && raised == e.raised
    {
      var opt := ExtractOptional(kwargs);
      if opt.Err? {
        return Some(opt.error);
      }
      var record := TransitionRecord(key, start, finish, stimulusId, scheduler.address, scheduler.tasks, opt.value, now);
      raised := PushRecordThenFlush(key, record);
    }

    method PushRecordThenFlush(key: Value, record: Result<Record>) returns (raised: Option<Error>)
      modifies this, producer
      ensures var e := PushThenFlush(|old(producer.trace)|, producer.faults, key, record);
        producer.trace == old(producer.trace) + e.calls && errors == old(errors) + e.logged && raised == e.raised
    {
      if record.Err? {
        errors := errors + [TRANSITION_FAILURE];
      } else {
        var _, ok := producer.Push(record.value, None);
        if !ok {
          errors := errors + [TRANSITION_FAILURE];
        }
      }
      raised := None;
      if ToStr(key) == FLUSH_KEY {
        var ok := producer.Flush();
        if !ok {
          raised := Some(BrokerError);
        }
      }
    }
  }

  /** The flush runs exactly for the flush key once the extraction succeeded,
      as the last call, and even when the record could not be built or its
      push raised. */
  lemma FlushOnlyOnKey(p: nat, faults: set<nat>, key: Value, start: Value, finish: Value, stimulusId: Value,
                       kwargs: Record, address: Value, tasks: map<Value, TaskState>, now: Value)
    ensures var e := TransitionEffect(p, faults, key, start, finish, stimulusId, kwargs, address, tasks, now);
      var extracted := ExtractOptional(kwargs).Ok?;
      && (Flush in e.calls <==> extracted && ToStr(key) == FLUSH_KEY)
      && (Flush in e.calls ==> e.calls[|e.calls| - 1] == Flush && |e.calls| <= 2)
      && (extracted && key !in tasks ==> e.calls == (if ToStr(key) == FLUSH_KEY then [Flush] else []))
  {
  }

  /** What can let an exception out of `transition`: the extraction, before
      any call or log, and otherwise only a flush that raised. */
  lemma TransitionRaises(p: nat, faults: set<nat>, key: Value, start: Value, finish: Value, stimulusId: Value,
                         kwargs: Record, address: Value, tasks: map<Value, TaskState>, now: Value)
    ensures var e := TransitionEffect(p, faults, key, start, finish, stimulusId, kwargs, address, tasks, now);
      var extracted := ExtractOptional(kwargs).Ok?;
      && (extracted && e.raised.Some? ==> e.calls[|e.calls| - 1] == Flush && p + |e.calls| - 1 in faults)
      && (!extracted ==> e.calls == [] && e.logged == [] && e.raised == Some(ExtractOptional(kwargs).error))
  {
  }

  /** A push failure in `transition` is logged and swallowed: the record is
      pushed exactly when the task is known, and one message is logged
      exactly when the record could not be built or its push raised. */
  lemma TransitionPushGuarded(p: nat, faults: set<nat>, key: Value, start: Value, finish: Value, stimulusId: Value,
                              kwargs: Record, address: Value, tasks: map<Value, TaskState>, now: Value)
    requires ExtractOptional(kwargs).Ok?
    ensures var e := TransitionEffect(p, faults, key, start, finish, stimulusId, kwargs, address, tasks, now);
      var record := TransitionRecord(key, start, finish, stimulusId, address, tasks, ExtractOptional(kwargs).value, now);
      && (key in tasks <==> |e.calls| >= 1 && record.Ok? && e.calls[0] == Push(record.value, None))
      && (e.logged == [TRANSITION_FAILURE] <==> key !in tasks || p in faults)
      && (e.logged == [] <==> key in tasks && p !in faults)
  {
  }

  /** `before_close` waits on its own push and swallows every failure,
      logging it once; `close` waits the same way but logs nothing and lets
      the failure out. */
  lemma ClosingHooks(p: nat, faults: set<nat>, now: Value)
    ensures var b := BeforeCloseEffect(p, faults, now);
      && b.raised.None?
      && b.calls[0].Push? && (|b.calls| == 2 <==> p !in faults) && (|b.calls| == 2 ==> b.calls[1] == Wait(p))
      && (b.logged == [BEFORE_CLOSE_FAILURE] <==> p in faults || p + 1 in faults)
      && (b.logged == [] <==> p !in faults && p + 1 !in faults)
    ensures var c := CloseEffect(p, faults, now);
      && c.logged == []
      && c.calls[0] == Push(map["action" := Str("close")], Some(map["time" := now]))
      && (|c.calls| == 2 <==> p !in faults) && (|c.calls| == 2 ==> c.calls[1] == Wait(p))
      && (c.raised.None? <==> p !in faults && p + 1 !in faults)
  {
  }

  /** Every other hook makes one push and never lets an exception out; it
      logs its own message exactly when the push raised. */
  lemma NotifyGuarded(p: nat, faults: set<nat>, h: Hook, now: Value)
    ensures var e := GuardedPush(p, faults, HookRecord(h, now), FailureMessage(h));
      && e.calls == [Push(HookRecord(h, now), None)]
      && e.raised.None?
      && (e.logged != [] <==> p in faults)
  {
  }
}
