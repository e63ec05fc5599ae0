/**
  The synchronous scheduler hook set. Every callback pushes one event whose
  metadata is the action alone and whose payload carries the fields, then
  waits on it and flushes; nothing is caught. `close` releases the producer
  and the rest of the client, and `restart` raises before any push.
 */
module SyncScheduler {
  import opened Values
  import opened Broker
  import opened Host
  import opened SyncHooks

  /** The callbacks that push one event, with the arguments their payloads
      carry. */
  datatype Hook =
    | Start
    | BeforeClose
    | UpdateGraph(client: Value, keys: Value, dependencies: Value)
    | AddWorker(worker: Value)
    | RemoveWorker(worker: Value, stimulusId: Value)
    | AddClient(client: Value)
    | RemoveClient(client: Value)
    | LogEvent(topic: Value, msg: Value)

  function HookAction(h: Hook): string
  {
    match h
    case Start => "restart"
    case BeforeClose => "before_close"
    case UpdateGraph(_, _, _) => "update_graph"
    case AddWorker(_) => "add_worker"
    case RemoveWorker(_, _) => "remove_worker"
    case AddClient(_) => "add_client"
    case RemoveClient(_) => "remove_client"
    case LogEvent(_, _) => "log_event"
  }

  /** The payload of each hook, `str({...}).encode()` taken as the dictionary
      itself: the arguments as they are, and the time. */
  function HookPayload(h: Hook, now: Value): Record
  {
    match h
    case Start => map["time" := now]
    case BeforeClose => map["time" := now]
    case UpdateGraph(client, keys, dependencies) =>
      map["client" := client, "keys" := keys, "dependencies" := dependencies, "time" := now]
    case AddWorker(worker) => map["worker" := worker, "time" := now]
    case RemoveWorker(worker, stimulusId) => map["worker" := worker, "stimulus_id" := stimulusId, "time" := now]
    case AddClient(client) => map["client" := client, "time" := now]
    case RemoveClient(client) => map["client" := client, "time" := now]
    case LogEvent(topic, msg) => map["topic" := topic, "message" := msg, "time" := now]
  }

  /** The payload of `transition`. Building it reads the task's prefix and
      group, which raises KeyError for a key the scheduler does not know,
      before the producer is touched. */
  function TransitionPayload(key: Value, start: Value, finish: Value, stimulusId: Value, address: Value,
                             tasks: map<Value, TaskState>, kwargs: Record, now: Value): (r: Result<Record>)
    ensures r.Ok? <==> key in tasks
    ensures r.Err? ==> r.error == KeyError
  {
    if key !in tasks then Err(KeyError)
    else
      var startstops := if Truthy(Get(kwargs, "startstops")) then kwargs["startstops"] else NoneV;
      Ok(map["key" := Str(ToStr(key)), "prefix" := tasks[key].prefixName, "group" := tasks[key].groupName,
             "start" := start, "finish" := finish, "stimulus_id" := stimulusId,
             "called_from" := Tuple([Str("scheduler"), address]), "startstops" := startstops, "time" := now])
  }

  /** The transition payload names the scheduler as a pair, keeps the whole
      `startstops` list when it is truthy and None otherwise, and carries
      the task's prefix and group and the stringified key. */
  lemma TransitionPayloadFields(key: Value, start: Value, finish: Value, stimulusId: Value, address: Value,
                                tasks: map<Value, TaskState>, kwargs: Record, now: Value)
    requires key in tasks
    ensures var r := TransitionPayload(key, start, finish, stimulusId, address, tasks, kwargs, now).value;
      && r.Keys == {"key", "prefix", "group", "start", "finish", "stimulus_id", "called_from", "startstops", "time"}
      && r["called_from"] == Tuple([Str("scheduler"), address])
      && (Truthy(Get(kwargs, "startstops")) ==> r["startstops"] == kwargs["startstops"])
      && (!Truthy(Get(kwargs, "startstops")) ==> r["startstops"] == NoneV)
      && r["key"] == Str(ToStr(key))
      && r["prefix"] == tasks[key].prefixName && r["group"] == tasks[key].groupName
  {
  }

  /** `transition`: the payload, then the push under action `transition`. */
  function TransitionEffect(released: bool, p: nat, faults: set<nat>, key: Value, start: Value, finish: Value,
                            stimulusId: Value, kwargs: Record, address: Value, tasks: map<Value, TaskState>,
                            now: Value): Effect
  {
    match TransitionPayload(key, start, finish, stimulusId, address, tasks, kwargs, now)
    case Err(e) => Effect([], [], Some(e))
    case Ok(payload) => SyncEffect(released, p, faults, "transition", payload)
  }

  /** An unknown task key raises before any call, released producer or not;
      a known one makes the push/wait/flush of action `transition`. */
  lemma TransitionCalls(released: bool, p: nat, faults: set<nat>, key: Value, start: Value, finish: Value,
                        stimulusId: Value, kwargs: Record, address: Value, tasks: map<Value, TaskState>, now: Value)
    ensures var e := TransitionEffect(released, p, faults, key, start, finish, stimulusId, kwargs, address, tasks, now);
      && (key !in tasks ==> e.calls == [] && e.raised == Some(KeyError))
      && (key in tasks && !released ==>
            e.calls[0] == Push(map["action" := Str("transition")],
                               Some(TransitionPayload(key, start, finish, stimulusId, address, tasks, kwargs, now).value))
            && (e.raised.None? <==> |e.calls| == 3 && p + 2 !in faults))
      && (key in tasks && released ==> e.calls == [] && e.raised == Some(AttributeError))
  {
    if key in tasks {
      SyncDiscipline(released, p, faults, "transition",
                     TransitionPayload(key, start, finish, stimulusId, address, tasks, kwargs, now).value);
    }
  }

  class MofkaSchedulerPlugin {
    const scheduler: Scheduler
    const producer: Producer
    /** Set once `close` has deleted the producer, topic, service, client and
        engine. */
    var released: bool

    constructor (scheduler: Scheduler, producer: Producer)
      ensures this.scheduler == scheduler && this.producer == producer && !released
    {
      this.scheduler := scheduler;
      this.producer := producer;
      released := false;
    }

    /** `start`, `before_close`, `update_graph`, `add_worker`,
        `remove_worker`, `add_client`, `remove_client` and `log_event`. */
    method Notify(h: Hook, now: Value) returns (raised: Option<Error>)
      modifies producer
      ensures var e := SyncEffect(released, |old(producer.trace)|, producer.faults, HookAction(h), HookPayload(h, now));
        producer.trace == old(producer.trace) + e.calls && raised == e.raised
    {
      raised := Send(producer, released, HookAction(h), HookPayload(h, now));
    }

    /** `close`: push/wait/flush, then release everything. A call that raises
        leaves the hook before the release. */
    method Close(now: Value) returns (raised: Option<Error>)
      modifies this, producer
      ensures var e := SyncEffect(old(released), |old(producer.trace)|, producer.faults, "close", map["time" := now]);
        producer.trace == old(producer.trace) + e.calls && raised == e.raised
      ensures released <==> old(released) || raised.None?
    {
      raised := Send(producer, released, "close", map["time" := now]);
      if raised.None? {
        released := true;
      }
    }

    /** `restart`: the push names `restart`, which is not bound in that
        scope (the local is `restrat`), so the hook raises NameError before
        anything is pushed; on a released producer the attribute lookup
        fails first. */
    method Restart(now: Value) returns (raised: Option<Error>)
      ensures raised == Some(if released then AttributeError else NameError)
    {
      if released {
        return Some(AttributeError);
      }
      raised := Some(NameError);
    }

    method Transition(key: Value, start: Value, finish: Value, stimulusId: Value, kwargs: Record, now: Value)
      returns (raised: Option<Error>)
      modifies producer
      ensures var e := TransitionEffect(released, |old(producer.trace)|, producer.faults, key, start, finish,
                                        stimulusId, kwargs, scheduler.address, scheduler.tasks, now);
        producer.trace == old(producer.trace) + e.calls && raised == e.raised
    {
      var payload := TransitionPayload(key, start, finish, stimulusId, scheduler.address, scheduler.tasks, kwargs, now);
      if payload.Err? {
        return Some(payload.error);
      }
      raised := Send(producer, released, "transition", payload.value);
    }
  }
}
