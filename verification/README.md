# A verified model of pytracingx

pytracingx binds Python to OpenTelemetry. Four parts of it are its own and hold state that several
threads or tasks share. This project models them and proves what they promise.

- **The SLS log pipeline** (`SlsRecord`, `SlsWriter`, `WriterTask`, `Feedback`). Layers send entries to an
  unbounded queue; one background task a sink receives, batches and flushes them, and stops by a handshake.
  A failed put logs a warning that goes back into every queue.
- **The provider lifecycle** (`Pipeline`, `Guarantees`, `Lifecycle`). `install` swaps the layers of three slots
  and may fail half way; `uninstall` asks every writer to finish, waits, and resets the slots.
- **The hot-swappable dispatcher** (`Dispatch`). A slot forwards callbacks to a vector of layers that can be
  replaced between callbacks.
- **Spans and contexts** (`Spans`, `Tasks`, `Programs`). A span or an extracted context pushes onto a context
  variable and keeps a one-shot token. Tasks are started in copies of a context.

Around them: `Hex` (identifiers as text), `Config` (sinks to resolved configuration) and `Logging` (the stdlib
handler in front of the pipeline).

## How the model is built

`SlsWriter` is one sink as a state machine with a step for every point at which something else can run: the four
arms of `select!`, each `try_recv`, and draining, putting and seeing the result inside `flush_batch`. `Pipeline`
puts any number of these machines beside the slots, the holder of the `state` mutex and the threads that emit
events, and lets them interleave freely. An event asks for the read lock of one slot after the other; `replace` asks
for a write lock, gets it once no reader is inside, and stores. Whether a reader may overtake a waiting `replace` is
left open. The theorems, in `Guarantees` and `Feedback`, are about all runs.

`WriterTask.BackgroundWriter` and `Lifecycle.Global` are the same code in its imperative form. Each method updates
its fields as the source does and advances the machine beside it by one enabled step at each program point, so
every run of the methods is a run of the machine. In `Lifecycle.Global` the other threads take arbitrary steps of
theirs in between (`others`).

The libraries appear as small assumptions: an unbounded FIFO channel whose `recv` ends when the last sender is gone; a
shutdown channel of capacity one whose `recv` also resolves when its sender is dropped; read-write locks, the read
lock held for one callback; `contextvars` as in PEP 567 (sections "contextvars.ContextVar", "contextvars.Token" and
"asyncio"); a tracer that gives a new span fresh valid identifiers and honours the parent it was set before its
context is read; no OpenTelemetry context other than the pushed one. Clocks, the results of `put_logs`, exporter and
SLS client creation, and the host name are arbitrary inputs.

## Where the code does not do what one might expect

- The log slot of a console-only compact configuration equals the default slot, so the slot alone does not tell
  whether anything is installed (`DefaultSlotExactly`, `ConsoleOnlyLooksUninstalled`).
- A failed SLS sink leaves the metric and trace slots swapped while nothing is installed, and a later shutdown does
  not reset them (`FailedSinkLeavesSlots`, `SecondUninstallIsIdle`). A failing `install` leaves no trace exactly when
  the configuration has no SLS sink, or neither it nor the two slots have any metric or trace layer; layers left by
  an earlier failure of the same configuration are replaced too, by new ones (`FailsCleanExactly`).
- A record logged from Python inside `with start_span(..)` names no span in SLS: the SLS layer reads the span the
  thread has entered, and `start_span` enters none (`RecordNamesNoSpan`).
- With an empty message, what the field visitor reports depends on the order of the fields exactly when some
  unknown string field has text (`OrderFreeExactly`).
- A span closed by another task is refused the reset but is closed for good; the task that started it can then no
  longer restore its context (`StolenEndLeavesContext`). Its own close restores exactly when nobody closed the handle
  before (`OwnCloseRestoresExactly`), and a task ends as it would alone exactly when no other task was the first to
  close one of its handles (`SameAsAloneExactly`).
- Spans ended out of order do not always restore: the one ended last decides, and the context from before them comes
  back exactly when that is the one started first (`LastCloseDecides`, `RestoredExactly`).
- `rust/src/lib.rs:33` says `force_flush` flushes logs; `rust/src/runtime.rs:321-335` does not touch the SLS
  writers, and the model claims nothing of it.

## Model

| member | source | states |
|---|---|---|
| Guarantees.UninstallFlushes | rust/src/runtime.rs:299-319 | for any sinks and any interleaving, when `uninstall` returns every sink has handed to `put_logs`, in acceptance order and each once, all its queue had accepted before the call, and the slots are the initial ones |
| Guarantees.EverySinkConserves | rust/src/sls_log.rs:100-132 | in every reachable state of the whole process each sink's groups, group being built, batch and queue are together what was accepted; no group is empty, only one sent at shutdown may exceed 4096 entries, and there are at most accepted / 4096 + ticks + 1 |
| SlsWriter.StepKeepsInv | rust/src/sls_log.rs:86-132 | every arm, `try_recv` and part of a flush keeps conservation, batch bounds, group sizes and the seal |
| SlsWriter.HandedOverOnceInOrder | rust/src/sls_log.rs:122-129 | over all runs of one sink the groups are a prefix of the accepted entries; after exit the rest is exactly what came after the last receive |
| SlsWriter.PutCountBound | rust/src/sls_log.rs:103-129 | puts are at most accepted / BATCH_SIZE + ticks + 1; batch below the limit at every loop head; full groups exact, tick groups smaller, none empty |
| SlsWriter.ExitIsBounded | rust/src/sls_log.rs:122-128 | once an ending arm is taken the task never loops again, always has a step, and its steps are bounded by queue length plus what producers add |
| WriterTask.BackgroundWriter.RunLoop | rust/src/sls_log.rs:86-132 | the loop as code: which entries each put holds, the batch and the queue are a function of what the environment plays, and after a tick the batch is empty; whenever the senders or the handle are dropped, the records sent are those of the accepted entries in order, without repetition, and exactly those before the last receive once it returned; every put goes to the sink; the first shutdown arm after the handle asked or was dropped is the last turn |
| WriterTask.TurnByTurn | rust/src/sls_log.rs:100-130 | that function, turn by turn: a tick puts a nonempty batch; a receive moves the head of the queue and puts at the limit; with the channel closed and empty, or once asked to stop, the rest goes out in one put and the loop ends; what arrives while a put is awaited waits in the queue |
| WriterTask.BackgroundWriter.FlushBatch | rust/src/sls_log.rs:134-184 | an empty batch sends nothing; otherwise one put of the batch's records that goes to the sink, the batch is empty while producers go on, and a failed put is counted and nothing more |
| WriterTask.PutSpelled | rust/src/sls_log.rs:140-152 | every put has the sink's project and store, its topic as topic and its source as source, each absent exactly when empty, and one record for each entry, in order, that reads back as that entry |
| WriterTask.BackgroundWriter.OnRecv | rust/src/sls_log.rs:102-116 | pushes below the limit, flushes at it, and flushes and ends when the channel is closed |
| WriterTask.BackgroundWriter.OnTick | rust/src/sls_log.rs:117-121 | flushes a nonempty batch and only that |
| WriterTask.BackgroundWriter.OnShutdown | rust/src/sls_log.rs:122-129 | one last group that starts with the batch and all that was queued, then `done` |
| WriterTask.BackgroundWriter.Send | rust/src/sls_log.rs:223-232 | an entry joins the queue while the receiver lives and is dropped silently afterwards |
| WriterTask.BackgroundWriter.TrySignal | rust/src/sls_log.rs:41-42 | a signal is idempotent while one waits and without effect after the task returned |
| Pipeline.NextKeepsInv | rust/src/runtime.rs:110-319 | every step of every actor keeps the global invariant of slots, handles, readers and writers |
| Guarantees.SlotsFollowState | rust/src/runtime.rs:239-295 | between calls: no state means the default log slot, and metric and trace slots that are empty or left by an install that failed on an SLS sink; a state means that, index by index, the log slot has a console layer of the configured format if asked for, the bridge of each OTLP sink and the layer of each SLS sink's own writer, and the other slots the layer of each metric and trace sink, all of the install that built them |
| Pipeline.SlotsSpelled | rust/src/runtime.rs:239-285 | the layer at each index of each slot of a configuration: which console format, which sink's bridge, which writer, which metric and which trace sink, and no others |
| Guarantees.DefaultSlotExactly | rust/src/runtime.rs:139 | the log slot is the default one if and only if nothing is installed or only a compact console is |
| Guarantees.ConsoleOnlyLooksUninstalled | rust/src/runtime.rs:341-357 | the concrete configuration for which it is the default one although installed |
| Guarantees.InstallOutcome | rust/src/runtime.rs:157-297 | what `install` leaves in `state` and in the slots, by the stage it ended at, after any history and under any interleaving |
| Guarantees.FailedSinkLeavesSlots | rust/src/runtime.rs:239-285 | for every configuration with an SLS sink, a run in which that sink fails and a shutdown follows ends with nothing installed and the metric and trace slots swapped |
| Guarantees.FailsCleanExactly | rust/src/runtime.rs:239-285 | every failing `install` of a configuration leaves both slots as they were if and only if it has no SLS sink, or neither it nor the slots have metric or trace layers |
| Guarantees.SecondUninstallIsIdle | rust/src/runtime.rs:302 | shutting down with nothing installed changes nothing |
| Guarantees.NoOrphanWriters | rust/src/sls_log.rs:62-83 | in every reachable state the writers with a sender and without a shutdown message are exactly those of the handles not used yet, in the order of the sinks they were created for, and cannot leave their loop; all others can, and a writer whose handle is gone has no sender either |
| Guarantees.InstalledQueueStaysOpen | rust/src/sls_log.rs:110-114 | the closed-channel arm is never ready for a sink in the log slot, nor is its handle dropped |
| Guarantees.CallNeverStuck | rust/src/runtime.rs:300-317 | no deadlock: while `state` is locked the next step of the call is enabled, or one of the writer or reader it waits for, and needs no lock on `state` |
| Guarantees.DoneIsAwaitedUnlocked | rust/src/runtime.rs:299-306 | nobody waits on `done` while holding or asking for a layers lock, so no writer that is waited for is kept out of a slot |
| Guarantees.ReadersAndReplaceExclude | rust/src/runtime.rs:52-80 | in every reachable state whoever is inside a slot has before it only the last of the layers the slot has now, and nobody holds that slot's write lock, so no layer takes an event after it was replaced |
| Guarantees.ThreadCanFinish | rust/src/runtime.rs:52-80 | from every reachable state a thread inside an event, holding one read lock at a time, can come to its end, with no new event, call or writer's help, whether readers may overtake a waiting `replace` or not |
| Guarantees.AnyThreadCanEmit | rust/src/runtime.rs:52-80 | from every reachable state a thread outside an event and outside the call in progress can emit any event and come to its end, without any writer's help |
| Guarantees.WriterNeverStuck | rust/src/sls_log.rs:134-184 | a writer outside `select!` can always go on, at the latest after its own warning has passed the slots |
| Guarantees.UninstallCanReturn | rust/src/runtime.rs:304-318 | from every reachable state inside `uninstall` it can be completed by its own steps, the writers' and the readers' alone, with every put on the way failing as well as with every one succeeding |
| Guarantees.InstallCanReturn | rust/src/runtime.rs:157-297 | from every reachable state inside `install` it can be completed, and with success, by its own steps and those of readers inside a slot alone |
| Lifecycle.Global.Install | rust/src/runtime.rs:157-297 | `install` as code: succeeds exactly when nothing is installed and the exporters of all metric, trace and OTLP log sinks and all SLS sinks can be created; the three slots index by index, the sink of each writer, and what each failure leaves |
| Lifecycle.Global.BuildLogLayers | rust/src/runtime.rs:273-285 | the console layer of the configured format, the `i`-th bridge for the `i`-th OTLP sink, then one writer and layer for each SLS sink, the `i`-th created for the `i`-th sink of the configuration, until one cannot be created |
| Lifecycle.Global.FlushAndShutdown | rust/src/sls_log.rs:40-48 | one handle: the message is sent, `done` is waited for unless its receiver was taken before, and the call moves on |
| Lifecycle.Global.Uninstall | rust/src/runtime.rs:299-319 | `uninstall` as code, with other threads running in between: every handle told and waited for, the initial slots, and the flush of every sink |
| Feedback.OffersAreCounted | rust/src/sls_log.rs:176-183 | while the log slot stays, entries offered to each sink equal application events at INFO or above plus, if warnings pass, the failed puts of all sinks |
| Feedback.SingleSinkNeverGrows | rust/src/sls_log.rs:176-233 | with one failing sink and no application events the load never grows over any run, even if every put fails, and each group takes all its entries but one off for good |
| Feedback.EveryEventIsHeard | rust/src/runtime.rs:68-71 | over every run that keeps the log slot a sink is offered exactly the entries of what it heard, with its service name, and of every thread and reporting task it heard exactly the events this one emitted that pass filter and level gate, each once and in order |
| Feedback.EmittedSpelled | rust/src/sls_log.rs:190-196 | which events these are: a thread's event at INFO, WARN or ERROR and a task's warning of its failed put, each if the filter lets it through, and nothing else |
| Feedback.EveryLayerIsServed | rust/src/runtime.rs:52-80 | over every run that keeps the slots each event that passes the filter is served to every layer of the log slot, then of the metric slot, then of the trace slot, once and in order, whatever runs meanwhile |
| Feedback.WarningSpelled | rust/src/sls_log.rs:176-183 | a failed put is reported at WARN under the module's target, and the entry of the report has that text as message, no identifiers and no attributes |
| SlsRecord.FieldVisitor.RecordEvent | rust/src/sls_log.rs:243-263 | the visitor as code computes the visit of all fields in order |
| SlsRecord.VisitSpelled | rust/src/sls_log.rs:243-263 | one field: each of the three names sets its own text and no other, `severity_text` sets nothing, any other string only fills an empty message, and any other debug value is ignored |
| SlsRecord.MessageIsOrderFree | rust/src/sls_log.rs:243-263 | with exactly one nonempty message field, every permutation of any fields reports that message |
| SlsRecord.OrderFreeExactly | rust/src/sls_log.rs:250-254 | the report is independent of the order if and only if the message has text or no unknown string field has |
| SlsRecord.BuildLog | rust/src/sls_log.rs:155-172 | the record written from an entry, optional keys only when not empty |
| SlsRecord.RecordRoundTrip | rust/src/sls_log.rs:154-174 | a record reads back as its entry and names no key twice |
| SlsRecord.RecordSpelled | rust/src/sls_log.rs:154-174 | which value is under which of the seven keys, level and message always there, and each other key absent exactly when its value is empty |
| SlsRecord.LevelsSpelled | rust/src/sls_log.rs:193-198 | the five level texts, and that exactly ERROR, WARN and INFO are forwarded |
| SlsRecord.BatchRoundTrip | rust/src/sls_log.rs:154-174 | a whole batch reads back as the same entries in the same order |
| SlsRecord.EntryNamesSpan | rust/src/sls_log.rs:201-231 | an entry names the tracing span its thread had entered by texts of fixed length that read back as its identifiers, names none outside one, and holds the clock as far as 32 bits do |
| Hex.PaddedHexIsBytewise | rust/src/sls_log.rs:209-212 | padded hex of the big-endian value is two digits a byte, of length exactly 2n |
| Hex.IdentifierSpelled | rust/src/sls_log.rs:209-212 | for every length the printed identifier has, at positions 2i and 2i + 1, the two lower-case digits of byte i |
| Hex.HexRoundTrip | rust/src/traces.rs:168-178 | a base-16 parser gives the identifier back |
| Hex.HexInjective | rust/src/traces.rs:261-262 | two identifiers of one length print alike only if equal |
| Dispatch.SwappableLayers.Forward | rust/src/runtime.rs:57-80 | one callback reaches every layer of the vector once; a new span or an event the filter is false of reaches none |
| Dispatch.PassesSpelled | rust/src/runtime.rs:57-80 | a new span or an event passes exactly if the filter is true of it, and every other callback passes |
| Dispatch.SwappableLayers.RunAll | rust/src/runtime.rs:52-80 | over a run of callbacks and replacements each layer observes exactly what was issued while it was in the vector |
| Dispatch.SpanOpensFirst | rust/src/runtime.rs:58-61 | a layer hears of a span's opening before anything else of it if the opening reaches it, and otherwise never hears of a new span |
| Dispatch.OpeningComesFirst | rust/src/runtime.rs:52-80 | the same with other threads calling and vectors being replaced meanwhile: if the filter accepts the opening, every layer of the vector replaced last hears it before anything else of the span from any thread, and no other layer hears of a new span |
| Dispatch.EveryLayerSeesItsWindow | rust/src/runtime.rs:52-80 | for every interleaving of threads and replacements each layer observes of each thread exactly the callbacks that thread issues while the layer is in the vector replaced last, except new spans and events the filter is false of, once and in order |
| Dispatch.ReplacementLasts | rust/src/runtime.rs:52-54 | a replacement is the vector from then on, until the next one |
| Dispatch.OnlyCurrentLayersAreCalled | rust/src/runtime.rs:52-80 | a thread inside the slot only has layers of the vector replaced last before it |
| Dispatch.CallCanPass | rust/src/runtime.rs:56-80 | from every state a thread can pass an accepted callback to every layer of the vector, to no other, and leave |
| Spans.ContextVar.Restore | rust/src/context.rs:42-46 | a reset restores the value once, and is refused without effect for a used token or one of another context |
| Spans.PySpan.Start | rust/src/traces.rs:39-58 | a recorded span started on a valid current context is local, in its trace and with it as parent; on an invalid one it is a local root with the identifiers drawn; an unrecorded one is no span; it becomes the current context |
| Spans.ChildSpelled | rust/src/traces.rs:39-53 | the context of a new span in each of these cases, field by field |
| Spans.PySpan.EndInternal | rust/src/traces.rs:194-207 | the first end closes the span and resets its token; later ones do nothing; a refused reset still closes |
| Spans.ClosesSpelled | rust/src/traces.rs:194-207 | what each way of closing does, case by case: ended or without a token, used token, foreign context, and the restored value otherwise |
| Spans.PySpan.ExitBlock | rust/src/traces.rs:76-97 | an exception is recorded on a span still open, and the span ends as by `end` |
| Spans.PySpan.Identify | rust/src/traces.rs:168-178 | the identifiers as text while the span is open, and neither once it has ended |
| Spans.ExtractedContext.RestoreNow | rust/src/traces.rs:346-364 | the token of an extracted context is reset at most once |
| Spans.IdTextsNameTheSpan | rust/src/traces.rs:254-264 | identifiers are texts of fixed length exactly for a valid context, and read back as its identifiers |
| Tasks.TokensAreOneShot | rust/src/traces.rs:194-215 | over every run of any tasks no token is given to `reset` twice, no reset meets a used token, and an ended span holds neither span nor token |
| Tasks.ForeignCloseTouchesNoContext | rust/src/traces.rs:198-205 | no step changes another task's context; a close from another task is refused, closes the span and leaves both contexts |
| Tasks.TasksAreIsolated | rust/src/context.rs:23-46 | for every interleaving each task sees the contexts it sees alone from its copy, where a close by another task counts as losing the token |
| Tasks.TokenKeptExactly | rust/src/traces.rs:194-207 | over every run of any tasks a handle has its token if and only if it had it or was made in the run and nobody closed it |
| Tasks.OwnCloseRestoresExactly | rust/src/traces.rs:194-207 | after any run a task's own close gives the value before the handle was made if nobody closed it in the run, and touches no context otherwise |
| Tasks.SameAsAlone | rust/src/context.rs:23-46 | a task that closes each of its handles before anyone else sees exactly what its own steps give alone, whoever drops them or closes them again |
| Tasks.SameAsAloneExactly | rust/src/context.rs:23-46 | a task ends where its own steps alone take it if and only if no other task was the first to close one of its handles |
| Tasks.ChildStartsFromCopy | rust/src/context.rs:23-31 | a spawned task starts from its parent's value and is isolated from there on |
| Tasks.StolenEndLeavesContext | rust/src/traces.rs:194-207 | a concrete run in which a child's close leaves the parent on an ended span |
| Programs.TokensAreAStack | rust/src/traces.rs:39-97 | for every well-nested program, with raising bodies and early ends, the current context is at every point the top of a plain stack and is restored at the end |
| Programs.BlockRestores | rust/src/traces.rs:326-364 | a block of a span or of an extracted context gives back the value before it, wherever it stands |
| Programs.LastCloseDecides | rust/src/traces.rs:194-207 | whatever objects are closed in whatever order and however often, the value afterwards is the one before that object was made which came last to its first close |
| Programs.RestoredExactly | rust/src/traces.rs:194-207 | of spans started one after the other and ended in any order, some perhaps twice, the value before them is restored if and only if the one that came last to its first end is the one started first |
| Programs.TracesAreInherited | rust/src/traces.rs:39-53 | at every point of every program a recorded span is local and has the span identifier drawn for it; it carries the trace of its outermost valid ancestor or extracted context and has the innermost as parent; on an invalid context it is a root with the trace drawn for it, which no context below it has |
| Programs.TraceHasOneRoot | rust/src/traces.rs:39-53 | two roots seen anywhere in a program with one trace are the same span |
| Programs.SpanBlockSpelled | rust/src/traces.rs:39-97 | a span block at any depth: its first context, never remote, is a child of a valid one below, a root on an invalid one, none if unrecorded; its last is the one before it; it raises exactly if its body does |
| Programs.ControlSpelled | rust/src/traces.rs:66-97 | an exception skips what follows until it is caught, an early end takes the innermost context off at once, and a second one does nothing |
| Config.NewConfig | rust/src/config.rs:513-558 | refuses an empty name, an unknown format and foreign objects, and sorts the sinks by kind |
| Config.SortingKeepsSinks | rust/src/config.rs:525-546 | sorting keeps the count and each kind's order |
| Config.NewThenResolve | rust/src/config.rs:513-682 | from raw sinks through their constructors: a configuration comes about exactly when all are accepted, name and format are valid and no foreign object is among them, and then resolves to typed values with the defaults filled in |
| Config.Resolve | rust/src/config.rs:590-682 | resolution succeeds exactly when every text parses, keeps every other argument, and fills in the defaults |
| Config.TextsSpelled | rust/src/config.rs:16-91 | which texts are accepted, and the typed value of each |
| Config.DefaultsSpelled | rust/src/config.rs:590-682 | the typed values of unset texts, and what an SLS sink keeps, its source excepted if that is empty |
| Config.ResolvesSpelled | rust/src/config.rs:590-682 | what each resolved sink keeps, index by index, and what its set texts resolve to |
| Config.CaseIsIgnored | rust/src/config.rs:63-91 | temporality and compression are read without regard to capitals |
| Config.AcceptedExactlyIfResolvable | rust/src/config.rs:197-225 | a sink's constructor accepts, endpoint apart, exactly the arguments that resolution can make sense of; likewise for the metric and OTLP log sinks |
| Logging.StdlibLevels | python/pytracingx/logging.py:37-48 | through both tables a record is forwarded to SLS exactly from level 20 on, and higher levels never become more verbose |
| Logging.LevelTablesSpelled | python/pytracingx/logging.py:37-48 | both tables range by range: the severity number and text of a stdlib level, and the level a severity is emitted at |
| Logging.CollectAttributes | python/pytracingx/logging.py:66-93 | reserved attributes are never overwritten, extras keep their names, absent values are left out |
| Logging.EventCarriesRecord | rust/src/logs.rs:84-129 | the visitor finds message, logger name and attributes where the event put them; the entry carries them, the sink's service name and the level of the record's range |
| Logging.RecordsReachTheQueue | rust/src/logs.rs:70-82 | over every run that keeps the log slot, whatever runs meanwhile: of the records a thread emits, what reaches a running sink's queue is exactly those from level 20 on, each once and in order |
| Logging.RecordNamesNoSpan | rust/src/sls_log.rs:204-218 | a record emitted from Python has no identifiers in its entry and neither key in its record, whatever span is current in the context variable |

## Left out

- Delivery to the backend: a failed put loses its group without retry; conservation ends at the call of `put_logs`.
- Fairness of `select!`: what is bounded is what happens once an arm is taken, not that it is taken.
- Callbacks other than events take the same read locks; in `Pipeline` only events do, in `Dispatch` all of them.
- Events that libraries emit on the calling thread inside `install` or `uninstall`.
- OTLP exporter construction, TLS, metadata and URL parsing: each is one success-or-failure choice of `install`.
- The OpenTelemetry global providers and the 200 ms sleep in `uninstall`: no property depends on them.
- `force_flush`, provider shutdown, samplers, span limits and batch processors: library calls.
- Lock poisoning, layers that emit events while being dropped, nested read locks and `downcast_raw`: a layer that takes
  its own slot's read lock again, as `downcast_raw` does, could wait for ever behind a waiting `replace`.
- The `PyLogger` methods, severity texts and `logging.install`: they pass their arguments on.
- Metrics instruments, Python value conversion, span attributes and events other than the one of an exception, reprs and console formatting.
- `restore_context` with a token of the caller's: no public function hands one out.
- Closing a span object after it was dropped: the model allows it, although Python does not, so its theorems cover more runs.
