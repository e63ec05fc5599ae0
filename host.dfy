/**
  The parts of the task scheduler and of a worker that the hooks read: the
  scheduler's address and task table, a worker's name and its two transfer
  logs. The scheduler and the worker themselves are not modelled.
 */
module Host {
  import opened Values

  /** What a hook reads of a scheduler task: `ts.prefix.name` and
      `ts.group.name`. */
  datatype TaskState = TaskState(prefixName: Value, groupName: Value)

  class Scheduler {
    var address: Value
    var tasks: map<Value, TaskState>

    constructor (address: Value, tasks: map<Value, TaskState>)
      ensures this.address == address && this.tasks == tasks
    {
      this.address := address;
      this.tasks := tasks;
    }
  }

  /** A worker. Its transfer logs grow as the worker moves data; each entry is
      a dict that the worker hooks update in place. */
  class Worker {
    var name: Value
    var incoming: seq<Record>
    var outgoing: seq<Record>

    constructor (name: Value, incoming: seq<Record>, outgoing: seq<Record>)
      ensures this.name == name && this.incoming == incoming && this.outgoing == outgoing
    {
      this.name := name;
      this.incoming := incoming;
      this.outgoing := outgoing;
    }
  }
}
