# MofkaDask hooks and consumers in Dafny

MofkaDask reports what a Dask cluster does as events on the Mofka broker.
Two kinds of hook set do the reporting:

- scheduler plugins turn scheduler callbacks into records;
- worker plugins turn worker task transitions, and the worker's two transfer logs, into records.

Three consumer programs read the events back:

- the buffered consumer sorts them by their `action` into six tables;
- a small script pulls until it sees a `stop` action;
- a training-data encoder turns names into padded index sequences.

This project models those pieces and proves what they do.

There is one module per variant:

- `NonBlockingScheduler` and `NonBlockingWorker`: the buffered hook sets. Their records travel in the metadata, and their pushes are guarded.
- `NoWaitWorker`: the no-wait debugging variant of the worker.
- `SyncScheduler` and `SyncWorker`: the synchronous hook sets. These push, wait and flush, and catch nothing. Their shared parts are in `SyncHooks`.
- `WorkerHooks`: what the two buffered-lineage worker variants share.
- `TransferLog`: the scan of a transfer log from its cursor.
- `NonBlockingConsumer`: the buffered consumer.
- `StopConsumer`: the standalone stop-on-`stop` script.
- `TrainingData`: `format_training_data`.
- `Pipeline`: where each record the buffered hooks push ends up once the buffered consumer routes it.

The broker is abstract (`Broker`). A `Producer` object records every `push`, `wait` and `flush` made on it in `trace`. A set `faults` holds the positions of the calls that raise. Every failure a hook can swallow or let through is therefore a value a contract can talk about.

The hosts (`Host`) are objects too:

- a worker with a name and its two transfer logs;
- a scheduler with an address and its task table.

Each hook is a method on its plugin class. The class holds the fields the Python object updates: the two cursors, the error log, and the released flag of the synchronous variants.

Each method's `ensures` ties the new state to a function of the old one, such as `TransitionEffect` or `SyncEffect`. Lemmas state what those functions promise, for example:

- the order of the calls;
- when a flush happens;
- which failures are logged and which leave the hook;
- how the cursors move;
- which entries are forwarded.

Python values are modelled by `Values.Value`, and `Values.ToStr` is `str()`. The `str(d).encode()` payloads are modelled as the dictionary `d` itself. A record is a `map<string, Value>`.

## Model

| member | source | states |
|---|---|---|
| Broker.PushWaitFlush | plugins/MofkaSchedulerPlugin.py:69-71 | push, then wait on that push's own handle, then flush; a call is made only when the previous one returned, and `ok` holds exactly when none of the three raised |
| Broker.SyncCallsOrder | plugins/MofkaWorkerPlugin.py:120-122 | the synchronous calls start with the push, the wait follows exactly when the push returned and names the push's handle, and the flush follows exactly when both returned |
| Broker.PushAll | nonBlockingPlugins/MofkaWorkerPlugin.py:133-140 | every message is pushed once, in order, whether or not an earlier push raised; `failed` counts the pushes that raised |
| Broker.FlushKeyValues | nonBlockingPlugins/MofkaWorkerPlugin.py:159 | `"flush-mofka-buffer" == str(key)` holds exactly for the string key and an object shown as that text; no number, None, tuple, list or dict key matches |
| Broker.ActionOf | nonBlockingPlugins/consumer.py:61 | `metadata["action"]` succeeds exactly for a dict holding `action`, and then yields that field |
| NonBlockingConsumer.MofkaConsumer.constructor | nonBlockingPlugins/consumer.py:51-57 | a new consumer has six empty tables and is not stopped |
| NonBlockingConsumer.MofkaConsumer.AppendEventData | nonBlockingPlugins/consumer.py:59-110 | the new tables are `Apply` of the old ones; `ok` is false exactly when reading the action raised |
| NonBlockingConsumer.ActionRoutes | nonBlockingPlugins/consumer.py:61-110 | each action and its route, both ways: the four transition/transfer/graph actions go to their own tables; `add_worker`/`remove_worker` go to the worker table; `add_client`/`remove_client` go to the client table; only `close` and `before_close` stop; every other action is ignored |
| NonBlockingConsumer.OwnTableOnly | nonBlockingPlugins/consumer.py:61-108 | a routed event appends exactly its own row at the end of its own table; the other five tables and the stop flag are unchanged |
| NonBlockingConsumer.UnmatchedChangesNothing | nonBlockingPlugins/consumer.py:59-110 | an event that matches no branch, or whose action cannot be read, changes no table and not the stop flag |
| NonBlockingConsumer.MofkaConsumer.GetData | nonBlockingPlugins/consumer.py:113-132 | the loop ends in the state and outcome of `Run` on the delivered events: the decoded metadata is passed as both metadata and data, and a failed decode is skipped once some earlier decode has succeeded |
| NonBlockingConsumer.RunTables | nonBlockingPlugins/consumer.py:62-126 | each table ends as it began followed by the rows of the processed events that carry its actions, in pull order; the pull count stays within the stream; a run that blocks has pulled every event without stopping |
| NonBlockingConsumer.StopsAfterFirstStop | nonBlockingPlugins/consumer.py:114-126 | a stopped run's last pulled event is a stop event, and no earlier one was |
| NonBlockingConsumer.ReachesStop | nonBlockingPlugins/consumer.py:114-126 | a stop event at position `k`, with none before it, ends the loop after exactly `k + 1` pulls |
| NonBlockingConsumer.FirstUndecodableCrashes | nonBlockingPlugins/consumer.py:118-128 | a first event that does not decode leaves the loop with NameError: the handler prints the still unbound `metadata` |
| NonBlockingConsumer.DataBroker | nonBlockingPlugins/consumer.py:19-21 | one zero-filled buffer of the descriptor's size |
| NonBlockingConsumer.SelectionFitsBuffer | nonBlockingPlugins/consumer.py:16-21 | the selector keeps the whole descriptor, and the broker allocates exactly one buffer of its size |
| StopConsumer.FirstRawStop | consumer.py:38-48 | the first position whose raw metadata has action `stop`, none before it; or none at all |
| StopConsumer.ConsumeUntilStop | consumer.py:28-50 | the loop's outcome is `Consume`: a first event that does not decode crashes, a first `stop` ends after one pull, and otherwise pulling goes on until the first later raw `stop` |
| StopConsumer.LoadsError | consumer.py:30 | `json.loads` fails with ValueError exactly on text metadata, and with TypeError on metadata that is not text |
| StopConsumer.FirstDecodeCrashes | consumer.py:28-30 | the script crashes exactly when the first event does not decode, after one pull, with ValueError for text metadata and TypeError for any other |
| StopConsumer.PullsEndAtFirstStop | consumer.py:28-48 | a stopped script pulled one more event than the position of the first stop: the first event counts by its decoded metadata and later events by their raw metadata |
| StopConsumer.StopIsReached | consumer.py:38-48 | once the first event decodes, a later stop event always ends the script, no later than itself |
| StopConsumer.UnreadableActionContinues | consumer.py:33-37 | an event whose action cannot be read never ends the loop; the only crash is the first decode |
| StopConsumer.UndecodedTextNeverStops | consumer.py:42-46 | later events are tested undecoded, so text metadata never stops the loop, whatever it spells |
| TransferLog.TagEntryFields | nonBlockingPlugins/MofkaWorkerPlugin.py:131 | tagging adds exactly `type`, `called_from`, `time` and a stringified `keys`, and keeps every other field |
| TransferLog.RetagRefreshesTime | nonBlockingPlugins/MofkaWorkerPlugin.py:131 | re-tagging an entry that a scan forwards a second time gives the entry tagged once with the new time: its stringified `keys` stays the same text |
| TransferLog.TagEntries | nonBlockingPlugins/MofkaWorkerPlugin.py:131 | tags the entries from the slice start in place; stops at the first entry without `keys`, leaving the earlier ones tagged and the rest untouched |
| TransferLog.ScanCursor | nonBlockingPlugins/MofkaWorkerPlugin.py:127-132 | the cursor never decreases; it moves exactly when the log has grown past it and the tagging finished, and then it becomes the log's length; a failed scan forwards nothing |
| TransferLog.ScanForwardsSlice | nonBlockingPlugins/MofkaWorkerPlugin.py:130-131 | the forwarded entries are the tagged log entries from `ScanStart` to the end, in log order, and the entries before the slice are untouched |
| TransferLog.ZeroCursorSendsLastOnly | nonBlockingPlugins/MofkaWorkerPlugin.py:130 | with cursor 0 the slice `[-1:]` forwards only the last entry |
| TransferLog.PositiveCursorResends | Apps/debug_mofka/mofkaNoWaitCode/MofkaWorkerPlugin.py:128 | with cursor `c >= 1` the slice starts at `c-1`, so entry `c-1` is forwarded again |
| TransferLog.AsWrittenDuplicates | nonBlockingPlugins/MofkaWorkerPlugin.py:130 | two scans of a log that grows from one entry to two forward entry 0 twice |
| TransferLog.AsWrittenLoses | nonBlockingPlugins/MofkaWorkerPlugin.py:130 | a first scan of a two-entry log forwards only entry 1, and no later scan ever forwards entry 0 |
| TransferLog.SentFromAtLeast | nonBlockingPlugins/MofkaWorkerPlugin.py:130 | once the cursor is `c >= 1`, no later scan forwards a position before `c - 1` |
| TransferLog.FreshExactlyOnce | nonBlockingPlugins/MofkaWorkerPlugin.py:127-132 | the corrected scans forward every position from the cursor on exactly once, in order, however the log grows between scans |
| TransferLog.FreshScanForwardsNew | nonBlockingPlugins/MofkaWorkerPlugin.py:127-132 | the corrected scan forwards exactly the entries added since the cursor, tagged, and moves the cursor to the log's end |
| WorkerHooks.TransferMessageFields | nonBlockingPlugins/MofkaWorkerPlugin.py:136 | a merged message carries every field of the entry, plus `action` = `worker_transfer` unless the entry has an action of its own; the no-wait message is the bare action with the entry as payload |
| WorkerHooks.TransitionPayload | plugins/MofkaWorkerPlugin.py:114-119 | the payload has exactly `key`, `start`, `finish`, `called_from` and `time`, and no `action`; the key is stringified, and `called_from` is the worker name |
| WorkerHooks.NothingNewToForward | nonBlockingPlugins/MofkaWorkerPlugin.py:129 | a log that has not grown past its cursor is left alone, and nothing is pushed for it |
| WorkerHooks.ScanPushes | nonBlockingPlugins/MofkaWorkerPlugin.py:133-140 | a scan adds exactly one push per forwarded entry and nothing else, and logs one message per push that raised |
| NonBlockingWorker.TransitionRecord | nonBlockingPlugins/MofkaWorkerPlugin.py:116-121 | the transition record has exactly the action plus five fields; every value is a string, and the key and worker name are their `str()` |
| NonBlockingWorker.RemoveWorkerRecord | nonBlockingPlugins/MofkaWorkerPlugin.py:65 | the teardown record is exactly `remove_worker` with a stringified time |
| NonBlockingWorker.MofkaWorkerPlugin.constructor | nonBlockingPlugins/MofkaWorkerPlugin.py:28-30 | both cursors start at 0, with nothing logged yet |
| NonBlockingWorker.MofkaWorkerPlugin.Setup | nonBlockingPlugins/MofkaWorkerPlugin.py:52-59 | `setup` replaces the worker, and leaves the cursors and the error log unchanged |
| NonBlockingWorker.MofkaWorkerPlugin.Teardown | nonBlockingPlugins/MofkaWorkerPlugin.py:61-67 | one `remove_worker` push; a failure is logged once and not raised; the cursors are left alone |
| NonBlockingWorker.MofkaWorkerPlugin.Forward | nonBlockingPlugins/MofkaWorkerPlugin.py:127-156 | one log's scan in place: the tagged entries are written back into the worker's log, the cursor is moved, and the merged pushes are made, as `ForwardEffect` |
| NonBlockingWorker.MofkaWorkerPlugin.PushRecord | nonBlockingPlugins/MofkaWorkerPlugin.py:115-125 | the guarded push of the transition record, with a failure logged |
| NonBlockingWorker.MofkaWorkerPlugin.Finish | nonBlockingPlugins/MofkaWorkerPlugin.py:143-162 | the outgoing scan, then the flush on the flush key |
| NonBlockingWorker.MofkaWorkerPlugin.Transition | nonBlockingPlugins/MofkaWorkerPlugin.py:115-162 | the new logs, cursors, trace and error log are `TransitionEffect` of the old ones |
| NonBlockingWorker.TransitionSteps | nonBlockingPlugins/MofkaWorkerPlugin.py:115-162 | the three stages run one after another add up to `TransitionEffect`; each scan sees the log as it was when the hook was called |
| NonBlockingWorker.TransitionCalls | nonBlockingPlugins/MofkaWorkerPlugin.py:115-162 | the calls in order: the record, the incoming pushes, the outgoing pushes, then a flush exactly for the flush key; a tagging failure cuts the sequence short |
| NonBlockingWorker.FlushOnlyOnKey | nonBlockingPlugins/MofkaWorkerPlugin.py:159-162 | the only flush is the last call, made exactly when `str(key)` is `flush-mofka-buffer` and both scans ran |
| NonBlockingWorker.FlushLast | nonBlockingPlugins/MofkaWorkerPlugin.py:159-162 | the same for any two scans: the trace only grows, and the flush is the last call |
| NonBlockingWorker.CursorsAdvance | nonBlockingPlugins/MofkaWorkerPlugin.py:127-148 | the cursors never decrease; a cursor that moves becomes its log's length; the logs keep their lengths; the cursors do not depend on which pushes raised |
| NonBlockingWorker.FailuresLogged | nonBlockingPlugins/MofkaWorkerPlugin.py:115-156 | the error log grows by exactly one message per push of this call that raised |
| NoWaitWorker.MofkaWorkerPlugin.constructor | Apps/debug_mofka/mofkaNoWaitCode/MofkaWorkerPlugin.py:28-30 | both cursors start at 0, with nothing logged yet |
| NoWaitWorker.MofkaWorkerPlugin.Setup | Apps/debug_mofka/mofkaNoWaitCode/MofkaWorkerPlugin.py:52-59 | `setup` replaces the worker, and nothing else changes |
| NoWaitWorker.MofkaWorkerPlugin.Teardown | Apps/debug_mofka/mofkaNoWaitCode/MofkaWorkerPlugin.py:61-73 | flush, then push `remove_worker`, then wait, stopping at the first call that raises; one message is logged when any of them raised, and nothing is raised |
| NoWaitWorker.MofkaWorkerPlugin.Forward | Apps/debug_mofka/mofkaNoWaitCode/MofkaWorkerPlugin.py:125-152 | one log's scan in place, with each entry pushed as a payload under the bare action |
| NoWaitWorker.MofkaWorkerPlugin.PushRecord | Apps/debug_mofka/mofkaNoWaitCode/MofkaWorkerPlugin.py:119-123 | the guarded push of the transition payload under `{"action": "worker_transition"}` |
| NoWaitWorker.MofkaWorkerPlugin.Transition | Apps/debug_mofka/mofkaNoWaitCode/MofkaWorkerPlugin.py:113-152 | the new logs, cursors, trace and error log are `TransitionEffect` of the old ones |
| NoWaitWorker.TransitionSteps | Apps/debug_mofka/mofkaNoWaitCode/MofkaWorkerPlugin.py:113-152 | the three stages run one after another add up to `TransitionEffect` |
| NoWaitWorker.TransitionCalls | Apps/debug_mofka/mofkaNoWaitCode/MofkaWorkerPlugin.py:113-152 | the calls in order: the transition push, the incoming pushes, the outgoing pushes; never a wait or a flush, whatever the key |
| NoWaitWorker.OnlyPushes | Apps/debug_mofka/mofkaNoWaitCode/MofkaWorkerPlugin.py:119-152 | every call `transition` adds is a push, and the error log grows by one message per push that raised |
| NoWaitWorker.CursorsAdvance | Apps/debug_mofka/mofkaNoWaitCode/MofkaWorkerPlugin.py:125-145 | the cursors never decrease; a cursor that moves becomes its log's length; failed pushes do not change the cursors |
| NoWaitWorker.TeardownOrder | Apps/debug_mofka/mofkaNoWaitCode/MofkaWorkerPlugin.py:64-73 | the flush comes first; the push comes only after a flush that returned; the wait is on that push's handle; a message is logged exactly when the last call made raised |
| NonBlockingScheduler.HookRecordFields | nonBlockingPlugins/MofkaSchedulerPlugin.py:51-295 | each hook's exact fields: `start` says `restart` and `restart` says `restrat`; `add_worker` carries no worker; `remove_worker` carries the worker and stimulus; graph and event fields are stringified |
| NonBlockingScheduler.StartStopsFields | nonBlockingPlugins/MofkaSchedulerPlugin.py:179-190 | without a truthy `startstops` the three timings are None; with one they come from its first element, with `duration = stop - start`, and the extraction fails exactly when one of those reads or the subtraction fails |
| NonBlockingScheduler.FalsyBecomesNone | nonBlockingPlugins/MofkaSchedulerPlugin.py:192-199 | `thread`, `size` and `worker` hold the keyword value when it is truthy, and are None otherwise |
| NonBlockingScheduler.TransitionRecord | nonBlockingPlugins/MofkaSchedulerPlugin.py:205-220 | the record can be built exactly when the task key is known |
| NonBlockingScheduler.TransitionRecordKeys | nonBlockingPlugins/MofkaSchedulerPlugin.py:205-220 | the transition record has exactly its fifteen fields |
| NonBlockingScheduler.TransitionRecordFields | nonBlockingPlugins/MofkaSchedulerPlugin.py:206-220 | the action is `scheduler_transition`; the key is stringified; prefix and group come from the task; `called_from` is the address; the time is stringified |
| NonBlockingScheduler.TransitionRecordOptionals | nonBlockingPlugins/MofkaSchedulerPlugin.py:208-219 | the states, the stimulus and the six optional fields are carried as given |
| NonBlockingScheduler.MofkaSchedulerPlugin.constructor | nonBlockingPlugins/MofkaSchedulerPlugin.py:47 | a plugin bound to its scheduler and producer, with nothing logged yet |
| NonBlockingScheduler.MofkaSchedulerPlugin.Notify | nonBlockingPlugins/MofkaSchedulerPlugin.py:124-138 | one guarded push of the hook's record; a failure is logged with the hook's own message |
| NonBlockingScheduler.MofkaSchedulerPlugin.BeforeClose | nonBlockingPlugins/MofkaSchedulerPlugin.py:61-70 | push, then wait on it, inside the guard |
| NonBlockingScheduler.MofkaSchedulerPlugin.Close | nonBlockingPlugins/MofkaSchedulerPlugin.py:72-81 | push with the time as payload, then wait; a failure is not caught |
| NonBlockingScheduler.MofkaSchedulerPlugin.Transition | nonBlockingPlugins/MofkaSchedulerPlugin.py:179-230 | the trace, the error log and the exception are `TransitionEffect` |
| NonBlockingScheduler.MofkaSchedulerPlugin.PushRecordThenFlush | nonBlockingPlugins/MofkaSchedulerPlugin.py:204-230 | the guarded push of the record (a record that cannot be built is logged instead), then the flush on the flush key |
| NonBlockingScheduler.FlushOnlyOnKey | nonBlockingPlugins/MofkaSchedulerPlugin.py:226-230 | a flush happens exactly when the extraction succeeded and the key is the flush key; the flush is the last call, and it happens also when the record could not be built |
| NonBlockingScheduler.TransitionRaises | nonBlockingPlugins/MofkaSchedulerPlugin.py:179-230 | only the extraction, before any call, and an unguarded flush that raised can let an exception out |
| NonBlockingScheduler.TransitionPushGuarded | nonBlockingPlugins/MofkaSchedulerPlugin.py:204-224 | the record is pushed exactly when the task is known; exactly one message is logged exactly when the task is unknown or its push raised |
| NonBlockingScheduler.ClosingHooks | nonBlockingPlugins/MofkaSchedulerPlugin.py:61-81 | `before_close` waits on its own push and logs any failure once without raising; `close` waits the same way, logs nothing, and raises exactly when a call raised |
| NonBlockingScheduler.NotifyGuarded | nonBlockingPlugins/MofkaSchedulerPlugin.py:124-295 | every other hook makes exactly one push, never raises, and logs exactly when the push raised |
| SyncHooks.Send | plugins/MofkaSchedulerPlugin.py:68-71 | the calls are `SyncEffect`: push, wait and flush on a live producer, and AttributeError with no call once it is released |
| SyncHooks.SyncDiscipline | plugins/MofkaSchedulerPlugin.py:63-265 | the metadata is the action alone; the wait is on the push's own handle; each call follows only a returned call; the hook raises exactly when a call raised; once released, nothing is called |
| SyncHooks.SetUpTopic | plugins/MofkaSchedulerPlugin.py:39-53 | create the topic and add the partition inside the `try`, neither after a failure; then open the topic whatever happened |
| SyncHooks.TopicOpenedAnyway | plugins/MofkaSchedulerPlugin.py:41-52 | any failure is taken for "already exists"; the open is always the last call; the partition is added only to a topic just created |
| SyncScheduler.TransitionPayload | plugins/MofkaSchedulerPlugin.py:185-198 | the payload can be built exactly when the task key is known, and otherwise KeyError is raised |
| SyncScheduler.TransitionPayloadFields | plugins/MofkaSchedulerPlugin.py:185-198 | exactly nine fields: `called_from` is the pair `("scheduler", address)`; `startstops` is the whole list if truthy and None otherwise; the key is stringified; prefix and group come from the task |
| SyncScheduler.TransitionCalls | plugins/MofkaSchedulerPlugin.py:189-201 | an unknown key raises KeyError before any call; a known key pushes action `transition` with the payload, and succeeds exactly when all three calls returned |
| SyncScheduler.MofkaSchedulerPlugin.constructor | plugins/MofkaSchedulerPlugin.py:60 | a plugin bound to its scheduler and producer, not yet released |
| SyncScheduler.MofkaSchedulerPlugin.Notify | plugins/MofkaSchedulerPlugin.py:63-265 | each one-push hook is `SyncEffect` of its action and its payload |
| SyncScheduler.MofkaSchedulerPlugin.Close | plugins/MofkaSchedulerPlugin.py:81-95 | push, wait and flush of `close`, then release; the producer is released exactly when it already was or the calls succeeded |
| SyncScheduler.MofkaSchedulerPlugin.Restart | plugins/MofkaSchedulerPlugin.py:147-152 | raises NameError before any push (AttributeError once released) |
| SyncScheduler.MofkaSchedulerPlugin.Transition | plugins/MofkaSchedulerPlugin.py:185-201 | the trace and the exception are `TransitionEffect` |
| SyncWorker.MofkaWorkerPlugin.constructor | plugins/MofkaWorkerPlugin.py:57 | a plugin bound to its worker and producer, not yet released |
| SyncWorker.MofkaWorkerPlugin.Setup | plugins/MofkaWorkerPlugin.py:61-68 | `setup` replaces the worker and nothing else |
| SyncWorker.MofkaWorkerPlugin.Transition | plugins/MofkaWorkerPlugin.py:114-122 | one `worker_transition` push of the transition payload, then wait and flush, with nothing caught |
| SyncWorker.MofkaWorkerPlugin.Teardown | plugins/MofkaWorkerPlugin.py:70-81 | push, wait and flush of `teardown`, then release; the producer is released exactly when the calls succeeded or it already was |
| Pipeline.SchedulerHooksRoute | nonBlockingPlugins/consumer.py:85-110 | the buffered scheduler's graph, worker and client records land in their tables; its `restart`, `restrat` and `log_event` records are dropped |
| Pipeline.SchedulerTransitionRoutes | nonBlockingPlugins/consumer.py:61-67 | every scheduler transition record lands in the scheduler transition table |
| Pipeline.ClosingRecordsStop | nonBlockingPlugins/consumer.py:110 | the `before_close` and `close` records stop the consumer |
| Pipeline.WorkerRecordsRoute | nonBlockingPlugins/consumer.py:69-99 | a worker transition record lands in the worker transition table, and the worker's `remove_worker` teardown record lands in the worker table |
| Pipeline.TransferRoutes | nonBlockingPlugins/consumer.py:77-83 | a forwarded, tagged transfer entry without an action of its own lands in the transfer table |
| Pipeline.TransferActionWins | nonBlockingPlugins/MofkaWorkerPlugin.py:136 | an entry's own action overrides `worker_transfer`: one saying `close` stops the consumer |
| TrainingData.GetSubstrings | Apps/DDP.py:49-53 | `len(s) + 1` prefixes of `s + "+"`, the j-th of length `j + 1`; the last is the whole name plus the stop |
| TrainingData.ExpandLength | Apps/DDP.py:55-56 | flattening keeps every prefix: one per character plus one per name |
| TrainingData.ExpandAt | Apps/DDP.py:55-56 | prefix `j` of name `i` sits right after the prefixes of the names before it |
| TrainingData.ExpandMember | Apps/DDP.py:55-56 | every expanded entry is a prefix, stop included, of one of the names |
| TrainingData.Repeat | Apps/DDP.py:60 | `n * "*"` has `max(n, 0)` blanks |
| TrainingData.PadRowShape | Apps/DDP.py:58-61 | a padded row has `str_len + 1` characters: blanks, then the last `min(len(p), str_len + 1)` characters of the prefix |
| TrainingData.PaddedCharacters | Apps/DDP.py:58-61 | every padded character is a blank, the stop, or a character of a name |
| TrainingData.IndexOf | Apps/DDP.py:62 | `index` finds the first position of the character, and fails exactly when the alphabet lacks it |
| TrainingData.EncodeRow | Apps/DDP.py:62 | a row encodes exactly when all its characters are in the alphabet, one code per character, and otherwise ValueError |
| TrainingData.EncodeRows | Apps/DDP.py:62 | all rows encode exactly when each does, row by row |
| TrainingData.EncodeRowRoundTrip | Apps/DDP.py:62 | decoding each code gives back its character |
| TrainingData.FormatSucceeds | Apps/DDP.py:55-70 | the encoding succeeds when the alphabet holds the blank, the stop and every character of every name |
| TrainingData.FormatFailsOutsideAlphabet | Apps/DDP.py:58-62 | a name character outside the alphabet makes the encoding fail with ValueError |
| TrainingData.FormatShape | Apps/DDP.py:65-70 | one `x` and one `y` row per prefix, `str_len` codes each, with `y[i][t] == x[i][t+1]` |
| TrainingData.FormatDecodes | Apps/DDP.py:62-70 | `x` decodes to each padded row without its last character, and `y` to each without its first |
| TrainingData.PaddingEncodesZero | Apps/DDP.py:60-62 | with the blank first in the alphabet, the padding of a short prefix encodes to 0 |

## Left out

- Broker setup and transport are not modelled: engine, driver, client, topic creation and opening, partitions, validators, serializers, thread pools and the consumer objects. The producer is abstract, and the consumers are given the events the broker delivers, in order. The synchronous topic setup is the one exception, modelled because of its catch-all. Its three `from_metadata` loaders (validator, selector, serializer) run inside the same `try` before `create_topic`, and the model assumes they load: when one raises, the source logs "already exists" without ever calling `create_topic`, and `SyncHooks.TopicOpenedAnyway`'s first call is not made.
- Logging configuration, `print` and `traceback` are not modelled. The error log `errors` is the sequence of messages a hook passes to `logging.exception`.
- NonBlockingWorker.FailuresLogged: counts a failed outgoing transfer push as one logged message. The outgoing handler (nonBlockingPlugins/MofkaWorkerPlugin.py:155) passes `str(combo)` as an extra argument with no placeholder, so logging's own formatting fails and the message is reported on stderr, not written to the log file. The incoming handler (:139) passes the dict `combo`, which logging takes as a mapping, so its message does reach the log file. The model does not tell the two apart.
- NoWaitWorker.OnlyPushes, NoWaitWorker.PushesLogged and NoWaitWorker.MofkaWorkerPlugin.Teardown: count every failed push or teardown call as one logged message. All four no-wait handlers pass a `str(...)` extra argument with no placeholder: the teardown (Apps/debug_mofka/mofkaNoWaitCode/MofkaWorkerPlugin.py:73), the transition push (:123) and both transfer handlers (:137, :152). So logging's formatting fails and each message is reported on stderr, not written to the log file. The model does not tell the two apart.
- The consumer's `teardown` is not modelled. It writes the six tables as CSV files, which is file I/O.
- The pandas frames are modelled as sequences of row dicts. Column alignment, and the frame an empty row produces, are not modelled.
- `time.time()` is one opaque value `now` per hook call. The source reads the clock several times in one call: per record, and per tagged entry.
- Floats stand as `Num` (integers) or opaque values, so `duration = stop - start` is integer subtraction.
- `Values.ToStr` models `str()` without Python's string escaping and without float formatting.
- `str(d).encode("utf-8")` payloads are modelled as the dictionary `d` itself.
- The worker's transfer logs are modelled as sequences of entries. The `deque` length bound and aliasing between entries are not modelled. The in-place `e.update` is modelled as writing the tagged entry back into the worker's log.
- Concurrency is not modelled: the producer's progress thread, async hooks running concurrently, and buffered pushes completing in the background.
- `del` of the producer, topic, service, client and engine is modelled as a `released` flag. After it, any hook that reaches for the producer raises AttributeError.
- `MofkaPlugin.py`, `producer.py`, `server.py`, `utils.py`, `Apps/debug_mofka/research.py`, `Apps/ResNet_prediction.py` and the `PMDA.py` experiment script under `MOFKA/` are not part of this model. They are driver scripts, server start-up, monitoring threads and raw pointer access.
- The rest of `Apps/DDP.py` is not part of this model: training, distributed data parallelism, random sampling, the download, and the tensor and one-hot conversion. The alphabet and `str_len` are parameters.
- The worker hook classes model the slice `log[c-1:]` as written. The corrected scan `TransferLog.FreshScan` is stated and proved on its own, but is not wired into the hooks (see Findings).

### Where the code and the documented behaviour disagree

The model follows the code in both cases.

- **Malformed events in the buffered consumer.** The documented behaviour is that a malformed event is logged and the loop goes on. In `get_data`, a first event that does not decode makes the handler print an unbound `metadata`, and that error leaves the loop (`NonBlockingConsumer.FirstUndecodableCrashes`). Only later decoding failures are skipped.
- **Transport failures in hooks.** The documented behaviour is that transport failures are always recovered inside the hook. In fact:
  - the buffered `close` rethrows every failure;
  - the flush on the flush key, in both buffered hook sets, is outside the `try`;
  - the synchronous hook sets catch nothing.

## Findings

| source | as written | input that shows it | evidently intended | confidence | as-written member | corrected member |
|---|---|---|---|---|---|---|
| nonBlockingPlugins/MofkaWorkerPlugin.py:130 | `list(log)[l-1:]` with `l = self.commin`, and the same at lines 146 and at Apps/debug_mofka/mofkaNoWaitCode/MofkaWorkerPlugin.py:128,143 | cursor 0 and a log of two entries: only entry 1 is forwarded, and entry 0 never is | forward `log[l:]`, each entry exactly once | not executed | TransferLog.AsWrittenLoses | TransferLog.FreshExactlyOnce |
| nonBlockingPlugins/MofkaWorkerPlugin.py:130 | the same slice once the cursor is at least 1 | a log that grows from one entry to two between two transitions: entry 0 is forwarded twice | forward only the entries added since the last scan | not executed | TransferLog.AsWrittenDuplicates | TransferLog.FreshScanForwardsNew |
