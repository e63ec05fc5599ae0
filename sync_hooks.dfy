/**
  What the synchronous scheduler and worker hook sets have in common: every
  hook pushes one event and then waits on it and flushes, catching nothing;
  a hook that closes down releases the producer, after which any hook that
  reaches for it raises AttributeError; and both create or open the topic
  the same way when they start.
 */
module SyncHooks {
  import opened Values
  import opened Broker

  /** One push/wait/flush on a producer that may have been released. Metadata
      holds only the action; every other field is in the payload. */
  function SyncEffect(released: bool, p: nat, faults: set<nat>, action: string, payload: Record): Effect
  {
    if released then Effect([], [], Some(AttributeError))
    else Effect(SyncCalls(p, faults, map["action" := Str(action)], Some(payload)), [],
                if p in faults || p + 1 in faults || p + 2 in faults then Some(BrokerError) else None)
  }

  /** `f = self.producer.push(...); f.wait(); self.producer.flush()`. */
  method Send(producer: Producer, released: bool, action: string, payload: Record) returns (raised: Option<Error>)
    modifies producer
    ensures var e := SyncEffect(released, |old(producer.trace)|, producer.faults, action, payload);
      producer.trace == old(producer.trace) + e.calls && raised == e.raised
  {
    if released {
      return Some(AttributeError);
    }
    var ok := PushWaitFlush(producer, map["action" := Str(action)], Some(payload));
    raised := if ok then None else Some(BrokerError);
  }

  /** On a producer that is still there, a hook makes its push, then waits
      on that push's own handle, then flushes, each call made only when the
      one before returned; the hook raises exactly when one of them raised,
      since nothing is caught. Once the producer is released, a hook makes
      no call and raises AttributeError. */
  lemma SyncDiscipline(released: bool, p: nat, faults: set<nat>, action: string, payload: Record)
    ensures var e := SyncEffect(released, p, faults, action, payload);
      && e.logged == []
      && (released ==> e.calls == [] && e.raised == Some(AttributeError))
      && (!released ==>
            && e.calls[0] == Push(map["action" := Str(action)], Some(payload))
            && (|e.calls| >= 2 ==> e.calls[1] == Wait(p))
            && (|e.calls| == 3 ==> e.calls[2] == Flush)
            && (e.raised.None? <==> |e.calls| == 3 && p + 2 !in faults)
            && (e.raised.Some? ==> e.raised == Some(BrokerError) && p + |e.calls| - 1 in faults))
  {
    SyncCallsOrder(p, faults, map["action" := Str(action)], Some(payload));
  }

  const TOPIC_NAME: string := "Dask"
  const TOPIC_EXISTS: string := "Topic Dask already exists"
  const TOPIC_CREATED: string := "Mofka topic Dask is created"

  /** The service calls of the topic setup when its first call is call
      number `p`: create the topic and add a memory partition inside a
      `try`, then open the topic whatever happened. The validator, selector
      and serializer loaded before `create_topic` in the same `try` are
      assumed to load. */
  function TopicCalls(p: nat, faults: set<nat>): seq<ServiceOp>
  {
    [CreateTopic(TOPIC_NAME)]
    + (if p in faults then [] else [AddMemoryPartition(TOPIC_NAME, 0)])
    + [OpenTopic(TOPIC_NAME)]
  }

  /** What the setup logs: a creation, or, for any failure inside the `try`,
      that the topic already exists. */
  function TopicLog(p: nat, faults: set<nat>): seq<string>
  {
    if p in faults || p + 1 in faults then [TOPIC_EXISTS] else [TOPIC_CREATED]
  }

  /** The topic setup at the start of both synchronous hook sets. `topicOpen` is
      false when opening the topic raised, which leaves the constructor. */
  method SetUpTopic(service: Service) returns (topicOpen: bool, log: seq<string>)
    modifies service
    ensures service.trace == old(service.trace) + TopicCalls(|old(service.trace)|, service.faults)
    ensures log == TopicLog(|old(service.trace)|, service.faults)
    ensures topicOpen <==> |service.trace| - 1 !in service.faults
  {
    var created := service.Call(CreateTopic(TOPIC_NAME));
    if created {
      created := service.Call(AddMemoryPartition(TOPIC_NAME, 0));
    }
    log := if created then [TOPIC_CREATED] else [TOPIC_EXISTS];
    topicOpen := service.Call(OpenTopic(TOPIC_NAME));
  }

  /** Every failure while creating the topic is taken for "already exists"
      and the topic is opened anyway, as the last call; the partition is
      added only to a topic that was just created. */
  lemma TopicOpenedAnyway(p: nat, faults: set<nat>)
    ensures var calls := TopicCalls(p, faults);
      && calls[0] == CreateTopic(TOPIC_NAME)
      && calls[|calls| - 1] == OpenTopic(TOPIC_NAME)
      && (AddMemoryPartition(TOPIC_NAME, 0) in calls <==> p !in faults)
      && (TopicLog(p, faults) == [TOPIC_EXISTS] <==> p in faults || p + 1 in faults)
      && (TopicLog(p, faults) != [TOPIC_EXISTS] ==> |calls| == 3)
  {
  }
}
