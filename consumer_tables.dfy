/**
  The buffered lineage's consumer: it pulls events one at a time, decodes each
  event's metadata as JSON, routes it by the exact text of its `action` field
  into one of six append-only tables, and stops once a `close` or
  `before_close` event has been processed. The tables are pandas frames in
  the original; here each is the sequence of its rows.
 */
module NonBlockingConsumer {
  import opened Values
  import opened Broker

  /** The six tables, one per category of event. */
  datatype Category =
    | SchedulerTransition
    | WorkerTransition
    | WorkerTransfer
    | Client
    | Worker
    | Graph

  /** What `append_event_data` does with one event. `Raise` is the exception
      reading `metadata["action"]` raises. */
  datatype Route = Append(table: Category) | Stop | Ignore | Raise

  /** The branch of `append_event_data` an event takes: three independent
      tests, the third opening an `elif` chain whose last branch repeats
      `remove_client`. */
  function RouteOf(m: Metadata): Route
  {
    match ActionOf(m)
    case Err(_) => Raise
    case Ok(a) =>
      if a == Str("scheduler_transition") then Append(SchedulerTransition)
      else if a == Str("worker_transition") then Append(WorkerTransition)
      else if a == Str("worker_transfer") then Append(WorkerTransfer)
      else if a == Str("update_graph") then Append(Graph)
      else if a == Str("remove_worker") || a == Str("add_worker") then Append(Worker)
      else if a == Str("add_client") || a == Str("remove_client") then Append(Client)
      else if a == Str("remove_client") || a == Str("close") || a == Str("before_close") then Stop
      else Ignore
  }

  /** The consumer's state as a value: the six tables and the stop flag. */
  datatype Tables = Tables(
    schedulerTransition: seq<Record>,
    workerTransition: seq<Record>,
    workerTransfer: seq<Record>,
    client: seq<Record>,
    worker: seq<Record>,
    graph: seq<Record>,
    stop: bool)

  const EmptyTables := Tables([], [], [], [], [], [], false)

  function Table(t: Tables, c: Category): seq<Record>
  {
    match c
    case SchedulerTransition => t.schedulerTransition
    case WorkerTransition => t.workerTransition
    case WorkerTransfer => t.workerTransfer
    case Client => t.client
    case Worker => t.worker
    case Graph => t.graph
  }

  /** pandas' `DataFrame.empty`: no rows, or no columns, which is the case
      when every row is an empty dict. */
  predicate FrameEmpty(rows: seq<Record>)
  {
    forall i :: 0 <= i < |rows| ==> rows[i] == map[]
  }

  /** One table's update: a frame that is `empty` is replaced by the new row,
      any other gets the row appended (`ignore_index=True`). */
  function AppendRow(rows: seq<Record>, data: Record): seq<Record>
  {
    if FrameEmpty(rows) then [data] else rows + [data]
  }

  function AppendTo(t: Tables, c: Category, data: Record): Tables
  {
    match c
    case SchedulerTransition => t.(schedulerTransition := AppendRow(t.schedulerTransition, data))
    case WorkerTransition => t.(workerTransition := AppendRow(t.workerTransition, data))
    case WorkerTransfer => t.(workerTransfer := AppendRow(t.workerTransfer, data))
    case Client => t.(client := AppendRow(t.client, data))
    case Worker => t.(worker := AppendRow(t.worker, data))
    case Graph => t.(graph := AppendRow(t.graph, data))
  }

  /** The effect of `append_event_data(metadata, data)` on the state. */
  function Apply(t: Tables, metadata: Metadata, data: Record): Tables
  {
    match RouteOf(metadata)
    case Append(c) => AppendTo(t, c, data)
    case Stop => t.(stop := true)
    case Ignore => t
    case Raise => t
  }

  /** The dict `get_data` passes as `data`: the decoded metadata itself. For
      metadata that is not a dict the action lookup raises before `data` is
      read, so what it stands for does not matter. */
  function DataOf(m: Metadata): Record
  {
    if m.Object? then m.fields else map[]
  }

  /** The loop of `get_data` from the `i`-th delivered event on. `bound` says
      whether the local `metadata` has been assigned: the handler prints it,
      so a decoding failure before any successful decode raises
      UnboundLocalError (a NameError) out of the handler. Later failures are
      printed and the loop goes on. */
  function Run(t: Tables, stream: seq<Event>, i: nat, bound: bool): (Tables, Outcome)
    requires i <= |stream|
    decreases |stream| - i
  {
    if t.stop then (t, Stopped(i))
    else if i == |stream| then (t, Blocked(i))
    else match stream[i].decoded
      case None =>
        if bound then Run(t, stream, i + 1, true) else (t, Crashed(i + 1, NameError))
      case Some(m) => Run(Apply(t, m, DataOf(m)), stream, i + 1, true)
  }

  /** The consumer. The broker connection is not modelled; `GetData` is given
      the events the broker delivers, in order. */
  class MofkaConsumer {
    var schedulerTransitionRec: seq<Record>
    var workerTransitionRec: seq<Record>
    var workerTransferRec: seq<Record>
    var clientRec: seq<Record>
    var workerRec: seq<Record>
    var graphRec: seq<Record>
    var stop: bool

    function State(): Tables
      reads this
    {
      Tables(schedulerTransitionRec, workerTransitionRec, workerTransferRec,
             clientRec, workerRec, graphRec, stop)
    }

    /** Six empty tables, not stopped. */
    constructor ()
      ensures State() == EmptyTables
    {
      schedulerTransitionRec := [];
      workerTransitionRec := [];
      workerTransferRec := [];
      clientRec := [];
      workerRec := [];
      graphRec := [];
      stop := false;
    }

    /** `append_event_data`; `ok` is false when reading the action raised. */
    method AppendEventData(metadata: Metadata, data: Record) returns (ok: bool)
      modifies this
      ensures ok <==> RouteOf(metadata) != Raise
      ensures State() == Apply(old(State()), metadata, data)
    {
      var action := ActionOf(metadata);
      if action.Err? {
        return false;
      }
      var a := action.value;
      if a == Str("scheduler_transition") {
        schedulerTransitionRec := AppendRow(schedulerTransitionRec, data);
      }
      if a == Str("worker_transition") {
        workerTransitionRec := AppendRow(workerTransitionRec, data);
      }
      if a == Str("worker_transfer") {
        workerTransferRec := AppendRow(workerTransferRec, data);
      } else if a == Str("update_graph") {
        graphRec := AppendRow(graphRec, data);
      } else if a == Str("remove_worker") || a == Str("add_worker") {
        workerRec := AppendRow(workerRec, data);
      } else if a == Str("add_client") || a == Str("remove_client") {
        clientRec := AppendRow(clientRec, data);
      } else if a == Str("remove_client") || a == Str("close") || a == Str("before_close") {
        stop := true;
      }
      ok := true;
    }

    /** `get_data`: pull and process events until the stop flag is set. */
    method GetData(stream: seq<Event>) returns (outcome: Outcome)
      modifies this
      ensures (State(), outcome) == Run(old(State()), stream, 0, false)
    {
      var i := 0;
      var bound := false;
      while !stop
        invariant i <= |stream|
        invariant Run(State(), stream, i, bound) == Run(old(State()), stream, 0, false)
        decreases |stream| - i
      {
        if i == |stream| {
          return Blocked(i);
        }
        var event := stream[i];
        i := i + 1;
        match event.decoded {
          case None =>
            if !bound {
              return Crashed(i, NameError);
            }
          case Some(m) =>
            bound := true;
            var _ := AppendEventData(m, DataOf(m));
        }
      }
      return Stopped(i);
    }
  }

  // ---------------------------------------------------------------------
  // Routing

  /** Each of the four transition and transfer actions and `update_graph`
      adds exactly one row, to its own table only, and leaves the stop flag. */
  lemma OwnTableOnly(t: Tables, m: Metadata, data: Record, c: Category)
    requires RouteOf(m) == Append(c)
    requires data != map[]
    requires NoEmptyRows(t)
    ensures Table(Apply(t, m, data), c) == Table(t, c) + [data]
    ensures forall d :: d != c ==> Table(Apply(t, m, data), d) == Table(t, d)
    ensures Apply(t, m, data).stop == t.stop
  {
    if |Table(t, c)| > 0 {
      assert Table(t, c)[0] != map[];
      assert !FrameEmpty(Table(t, c));
    }
  }

  /** No table holds a row that is an empty dict. Events routed by their
      `action` always carry that field, so the tables `get_data` fills keep
      this. */
  predicate NoEmptyRows(t: Tables)
  {
    forall c: Category, i :: 0 <= i < |Table(t, c)| ==> Table(t, c)[i] != map[]
  }

  /** The action strings and where they lead. Worker arrivals and departures
      share the worker table; client arrivals and departures share the
      client table; `remove_client` never stops the consumer although it
      appears in the stop branch too; `close` and `before_close` stop it and
      append nothing; every other action is ignored. */
  lemma ActionRoutes(fields: Record)
    requires "action" in fields
    ensures var m, a := Object(fields), fields["action"];
      && (a == Str("scheduler_transition") <==> RouteOf(m) == Append(SchedulerTransition))
      && (a == Str("worker_transition") <==> RouteOf(m) == Append(WorkerTransition))
      && (a == Str("worker_transfer") <==> RouteOf(m) == Append(WorkerTransfer))
      && (a == Str("update_graph") <==> RouteOf(m) == Append(Graph))
      && (a in {Str("add_worker"), Str("remove_worker")} <==> RouteOf(m) == Append(Worker))
      && (a in {Str("add_client"), Str("remove_client")} <==> RouteOf(m) == Append(Client))
      && (a in {Str("close"), Str("before_close")} <==> RouteOf(m) == Stop)
      && (a !in KnownActions() <==> RouteOf(m) == Ignore)
  {
  }

  /** The actions `append_event_data` tests for. */
  function KnownActions(): set<Value>
  {
    {Str("scheduler_transition"), Str("worker_transition"), Str("worker_transfer"),
     Str("update_graph"), Str("add_worker"), Str("remove_worker"),
     Str("add_client"), Str("remove_client"), Str("close"), Str("before_close")}
  }

  /** An event that matches no branch, or whose action cannot be read, leaves
      every table and the stop flag as they were. */
  lemma UnmatchedChangesNothing(t: Tables, m: Metadata, data: Record)
    requires RouteOf(m) == Ignore || RouteOf(m) == Raise
    ensures Apply(t, m, data) == t
  {
  }

  // ---------------------------------------------------------------------
  // The pull loop

  /** An event that stops the consumer once processed. */
  predicate IsStopEvent(e: Event)
  {
    e.decoded.Some? && RouteOf(e.decoded.value) == Stop
  }

  /** The rows of category `c` that a run of events contributes, in order. */
  function Rows(events: seq<Event>, c: Category): seq<Record>
  {
    if |events| == 0 then []
    else
      var e := events[0];
      var row := if e.decoded.Some? && RouteOf(e.decoded.value) == Append(c)
                 then [DataOf(e.decoded.value)] else [];
      row + Rows(events[1..], c)
  }

  lemma RowsAppend(events: seq<Event>, e: Event, c: Category)
    ensures Rows(events + [e], c) == Rows(events, c) + Rows([e], c)
  {
    if |events| > 0 {
      assert (events + [e])[1..] == events[1..] + [e];
      RowsAppend(events[1..], e, c);
    } else {
      assert events + [e] == [e];
    }
  }

  /** Each table ends as it began followed by the rows of the events the loop
      processed, in the order they were pulled; nothing pulled after the stop
      event is processed, and processing keeps the tables free of empty rows. */
  lemma {:induction false} RunTables(t: Tables, stream: seq<Event>, i: nat, bound: bool)
    requires i <= |stream|
    requires NoEmptyRows(t)
    ensures var (t', outcome) := Run(t, stream, i, bound);
      && i <= outcome.pulls <= |stream|
      && NoEmptyRows(t')
      && (forall c :: Table(t', c) == Table(t, c) + Rows(stream[i..outcome.pulls], c))
      && (outcome.Stopped? ==> t'.stop)
      && (outcome.Blocked? ==> outcome.pulls == |stream| && !t'.stop)
    decreases |stream| - i
  {
    var (t', outcome) := Run(t, stream, i, bound);
    if t.stop || i == |stream| {
      assert stream[i..outcome.pulls] == [];
    } else {
      var e := stream[i];
      if e.decoded.None? && !bound {
        assert stream[i..outcome.pulls] == [e];
      } else {
        var next := if e.decoded.Some? then Apply(t, e.decoded.value, DataOf(e.decoded.value)) else t;
        ProcessOne(t, e);
        RunTables(next, stream, i + 1, true);
        forall c ensures Table(t', c) == Table(t, c) + Rows(stream[i..outcome.pulls], c) {
          assert stream[i..outcome.pulls] == [e] + stream[i + 1..outcome.pulls];
          RowsCons(e, stream[i + 1..outcome.pulls], c);
        }
      }
    }
  }

  /** Processing one pulled event adds its row, if any, to its table and
      keeps the tables free of empty rows. */
  lemma ProcessOne(t: Tables, e: Event)
    requires NoEmptyRows(t)
    ensures var next := if e.decoded.Some? then Apply(t, e.decoded.value, DataOf(e.decoded.value)) else t;
      && NoEmptyRows(next)
      && forall c :: Table(next, c) == Table(t, c) + Rows([e], c)
  {
    forall c {
      RowsSingle(e, c);
    }
    if e.decoded.Some? {
      var m := e.decoded.value;
      if RouteOf(m).Append? {
        assert "action" in DataOf(m);
        OwnTableOnly(t, m, DataOf(m), RouteOf(m).table);
        AppendKeepsNoEmptyRows(t, Apply(t, m, DataOf(m)), RouteOf(m).table, DataOf(m));
      } else {
        assert forall c :: Table(Apply(t, m, DataOf(m)), c) == Table(t, c);
      }
    }
  }

  lemma RowsSingle(e: Event, c: Category)
    ensures Rows([e], c) == if e.decoded.Some? && RouteOf(e.decoded.value) == Append(c)
                            then [DataOf(e.decoded.value)] else []
  {
    assert [e][1..] == [];
  }

  /** Appending a non-empty row to one table keeps every table free of empty
      rows. */
  lemma AppendKeepsNoEmptyRows(t: Tables, next: Tables, c: Category, data: Record)
    requires NoEmptyRows(t) && data != map[]
    requires Table(next, c) == Table(t, c) + [data]
    requires forall d :: d != c ==> Table(next, d) == Table(t, d)
    ensures NoEmptyRows(next)
  {
    forall d, k | 0 <= k < |Table(next, d)| ensures Table(next, d)[k] != map[] {
      if d == c && k >= |Table(t, c)| {
        assert Table(next, d)[k] == data;
      }
    }
  }

  lemma RowsCons(e: Event, rest: seq<Event>, c: Category)
    ensures Rows([e] + rest, c) == Rows([e], c) + Rows(rest, c)
  {
    assert ([e] + rest)[1..] == rest;
    assert [e][1..] == [];
  }

  /** The loop ends right after the first stop event: a stopped run pulled a
      stop event last and none before it. */
  lemma {:induction false} StopsAfterFirstStop(t: Tables, stream: seq<Event>, i: nat, bound: bool)
    requires i <= |stream| && !t.stop
    ensures var outcome := Run(t, stream, i, bound).1;
      outcome.Stopped? ==>
        && i < outcome.pulls <= |stream|
        && IsStopEvent(stream[outcome.pulls - 1])
        && forall j :: i <= j < outcome.pulls - 1 ==> !IsStopEvent(stream[j])
    decreases |stream| - i
  {
    if i < |stream| {
      var e := stream[i];
      if e.decoded.Some? {
        var next := Apply(t, e.decoded.value, DataOf(e.decoded.value));
        if !next.stop {
          StopsAfterFirstStop(next, stream, i + 1, true);
        }
      } else if bound {
        StopsAfterFirstStop(t, stream, i + 1, true);
      }
    }
  }

  /** A stream holding a stop event at position `k`, with none before it,
      stops the loop right after that event, provided the loop does not crash
      on its first event. */
  lemma {:induction false} ReachesStop(t: Tables, stream: seq<Event>, i: nat, bound: bool, k: nat)
    requires i <= k < |stream| && !t.stop
    requires IsStopEvent(stream[k])
    requires forall j :: i <= j < k ==> !IsStopEvent(stream[j])
    requires bound || stream[i].decoded.Some?
    ensures Run(t, stream, i, bound).1 == Stopped(k + 1)
    decreases k - i
  {
    var e := stream[i];
    if i < k {
      if e.decoded.Some? {
        ReachesStop(Apply(t, e.decoded.value, DataOf(e.decoded.value)), stream, i + 1, true, k);
      } else {
        ReachesStop(t, stream, i + 1, true, k);
      }
    }
  }

  /** A first event whose metadata does not decode crashes the loop: the
      handler prints the still unassigned `metadata`. */
  lemma FirstUndecodableCrashes(t: Tables, stream: seq<Event>)
    requires |stream| > 0 && !t.stop && stream[0].decoded.None?
    ensures Run(t, stream, 0, false) == (t, Crashed(1, NameError))
  {
  }

  // ---------------------------------------------------------------------
  // Data selection

  /** Where an event's data lives and how many bytes it has. */
  datatype Descriptor = Descriptor(location: string, size: nat)

  /** `my_data_selector`: select the event's data as it is. */
  function DataSelector(metadata: Metadata, descriptor: Descriptor): Descriptor
  {
    descriptor
  }

  /** `my_data_broker`: one zero-filled buffer of the selected size. */
  function DataBroker(metadata: Metadata, descriptor: Descriptor): (buffers: seq<seq<bv8>>)
    ensures |buffers| == 1 && |buffers[0]| == descriptor.size
    ensures forall i :: 0 <= i < |buffers[0]| ==> buffers[0][i] == 0
  {
    [seq(descriptor.size, _ => 0)]
  }

  /** The broker allocates exactly room for all the data of the event: the
      selector keeps the whole descriptor, and the single buffer has its size. */
  lemma SelectionFitsBuffer(metadata: Metadata, descriptor: Descriptor)
    ensures var selected := DataSelector(metadata, descriptor);
      && selected.size == descriptor.size
      && selected.location == descriptor.location
      && |DataBroker(metadata, selected)| == 1
      && |DataBroker(metadata, selected)[0]| == descriptor.size
  {
  }
}
