/**
  The synchronous worker hook set: `transition` pushes one
  `worker_transition` event and then waits on it and flushes; `teardown`
  does the same for a `teardown` event and then releases the producer and
  the rest of the client. Nothing is caught.
 */
module SyncWorker {
  import opened Values
  import opened Broker
  import opened Host
  import opened WorkerHooks
  import opened SyncHooks

  class MofkaWorkerPlugin {
    var worker: Worker
    const producer: Producer
    /** Set once `teardown` has deleted the producer, topic, service, client
        and engine. */
    var released: bool

    constructor (worker: Worker, producer: Producer)
      ensures this.worker == worker && this.producer == producer && !released
    {
      this.worker := worker;
      this.producer := producer;
      released := false;
    }

    /** `setup`: attach to a (possibly different) worker; nothing else
        changes. */
    method Setup(worker: Worker)
      modifies this
      ensures this.worker == worker && released == old(released)
    {
      this.worker := worker;
    }

    /** `transition(key, start, finish)`, the clock reading `now`. */
    method Transition(key: Value, start: Value, finish: Value, now: Value) returns (raised: Option<Error>)
      modifies producer
      ensures var e := SyncEffect(released, |old(producer.trace)|, producer.faults, "worker_transition",
                                  TransitionPayload(key, start, finish, worker.name, now));
        producer.trace == old(producer.trace) + e.calls && raised == e.raised
    {
      raised := Send(producer, released, "worker_transition", TransitionPayload(key, start, finish, worker.name, now));
    }

    /** `teardown`: push/wait/flush, then release everything. A call that
        raises leaves the hook before the release. */
    method Teardown(now: Value) returns (raised: Option<Error>)
      modifies this, producer
      ensures var e := SyncEffect(old(released), |old(producer.trace)|, producer.faults, "teardown", map["time" := now]);
        producer.trace == old(producer.trace) + e.calls && raised == e.raised
      ensures released <==> old(released) || raised.None?
      ensures worker == old(worker)
    {
      raised := Send(producer, released, "teardown", map["time" := now]);
      if raised.None? {
        released := true;
      }
    }
  }
}
