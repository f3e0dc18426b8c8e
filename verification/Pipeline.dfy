/**
  The whole process as a transition system: application threads that emit events, the three
  layer slots with their read-write locks, the holder of the `state` mutex going through `install`
  or `uninstall`, and any number of SLS writers. Every interleaving of their steps is a run. An
  event goes through the slots one after the other, asking for each read lock and holding it while
  the slot's layers are served; `replace` asks for the write lock, gets it once no reader is
  inside, and stores the new layers.
 */
module Pipeline {
  import opened Prelude
  import opened SlsRecord
  import opened Config
  import W = SlsWriter

  datatype Format = Compact | Pretty | Json

  /**
    A layer over an OTLP provider is told apart by the `install` that built the provider, an SLS layer by the
    writer it sends to. A console layer holds nothing, so that its format says all of it.
   */
  datatype Layer =
    | Fmt(format: Format)
    | OtlpBridge(install: nat, otlp: ResolvedOtlpLog)
    | Sls(writer: nat, service: string)
    | MetricLayer(install: nat, metric: ResolvedMetric)
    | TraceLayer(install: nat, trace: ResolvedTrace)

  /** `build_fmt_layer` */
  function FormatOf(format: string): Format {
    if format == "json" then Json else if format == "pretty" then Pretty else Compact
  }

  /** `default_fmt_layer` builds what `build_fmt_layer` builds for the compact format. */
  const DEFAULT_LOGS: seq<Layer> := [Fmt(Compact)]

  function ConsoleLayers(c: ResolvedConfig): seq<Layer> {
    if c.consoleOutput then [Fmt(FormatOf(c.consoleFormat))] else []
  }

  function BridgeLayers(c: ResolvedConfig, n: nat): seq<Layer> {
    seq(|c.otlpLogs|, i requires 0 <= i < |c.otlpLogs| => OtlpBridge(n, c.otlpLogs[i]))
  }

  function SlsLayers(c: ResolvedConfig, handles: seq<nat>): seq<Layer> {
    seq(|handles|, i requires 0 <= i < |handles| => Sls(handles[i], c.serviceName))
  }

  /** The log slot the `n`-th install makes of a configuration: console, then OTLP, then SLS. */
  function LogLayers(c: ResolvedConfig, n: nat, handles: seq<nat>): seq<Layer> {
    ConsoleLayers(c) + BridgeLayers(c, n) + SlsLayers(c, handles)
  }

  function MetricLayers(c: ResolvedConfig, n: nat): seq<Layer> {
    seq(|c.metrics|, i requires 0 <= i < |c.metrics| => MetricLayer(n, c.metrics[i]))
  }

  function TraceLayers(c: ResolvedConfig, n: nat): seq<Layer> {
    seq(|c.traces|, i requires 0 <= i < |c.traces| => TraceLayer(n, c.traces[i]))
  }

  /** The log slot layer by layer: a console layer if asked for, a bridge for each OTLP sink, one for each writer. */
  ghost predicate ShowsLogs(logs: seq<Layer>, c: ResolvedConfig, n: nat, handles: seq<nat>) {
    var skip := if c.consoleOutput then 1 else 0;
    && |logs| == skip + |c.otlpLogs| + |handles|
    && (c.consoleOutput && c.consoleFormat == "json" ==> logs[0] == Fmt(Json))
    && (c.consoleOutput && c.consoleFormat == "pretty" ==> logs[0] == Fmt(Pretty))
    && (c.consoleOutput && c.consoleFormat !in {"json", "pretty"} ==> logs[0] == Fmt(Compact))
    && (forall i :: 0 <= i < |c.otlpLogs| ==> logs[skip + i] == OtlpBridge(n, c.otlpLogs[i]))
    && forall i :: 0 <= i < |handles| ==> logs[skip + |c.otlpLogs| + i] == Sls(handles[i], c.serviceName)
  }

  /** The other two slots layer by layer: one layer for each sink, in order. */
  ghost predicate ShowsProviders(metrics: seq<Layer>, traces: seq<Layer>, c: ResolvedConfig, n: nat) {
    && |metrics| == |c.metrics| && |traces| == |c.traces|
    && (forall i :: 0 <= i < |c.metrics| ==> metrics[i] == MetricLayer(n, c.metrics[i]))
    && forall i :: 0 <= i < |c.traces| ==> traces[i] == TraceLayer(n, c.traces[i])
  }

  /** Which layers the three slots of a configuration have, index by index. */
  lemma SlotsSpelled(c: ResolvedConfig, n: nat, handles: seq<nat>)
    ensures var logs, skip := LogLayers(c, n, handles), if c.consoleOutput then 1 else 0;
      && |logs| == skip + |c.otlpLogs| + |handles|
      && (c.consoleOutput && c.consoleFormat == "json" ==> logs[0] == Fmt(Json))
      && (c.consoleOutput && c.consoleFormat == "pretty" ==> logs[0] == Fmt(Pretty))
      && (c.consoleOutput && c.consoleFormat == "compact" ==> logs[0] == Fmt(Compact))
      && (forall i :: 0 <= i < |c.otlpLogs| ==> logs[skip + i] == OtlpBridge(n, c.otlpLogs[i]))
      && forall i :: 0 <= i < |handles| ==> logs[skip + |c.otlpLogs| + i] == Sls(handles[i], c.serviceName)
    ensures |MetricLayers(c, n)| == |c.metrics| && |TraceLayers(c, n)| == |c.traces|
    ensures forall i :: 0 <= i < |c.metrics| ==> MetricLayers(c, n)[i] == MetricLayer(n, c.metrics[i])
    ensures forall i :: 0 <= i < |c.traces| ==> TraceLayers(c, n)[i] == TraceLayer(n, c.traces[i])
    ensures ShowsLogs(LogLayers(c, n, handles), c, n, handles)
    ensures ShowsProviders(MetricLayers(c, n), TraceLayers(c, n), c, n)
  {
  }

  /** The contents of `RuntimeState`, with the configuration it was built from. */
  datatype Installed = Installed(config: ResolvedConfig, handles: seq<nat>)

  /** What the holder of the `state` mutex is about to do. */
  datatype Lifecycle =
    | Idle                                                        // the mutex is free
    | Exporting(config: ResolvedConfig)                           // building exporters and providers
    | SwappingMetrics(config: ResolvedConfig)
    | SwappingTraces(config: ResolvedConfig)
    | CreatingSls(config: ResolvedConfig, handles: seq<nat>)      // in the loop over the SLS sinks
    | Committing(config: ResolvedConfig, handles: seq<nat>)       // log slot swapped, `state` not yet set
    // in `flush_and_shutdown` of handle `next`, before or after the message was sent
    | Stopping(config: ResolvedConfig, handles: seq<nat>, next: nat, sent: bool)
    | ResettingLogs(config: ResolvedConfig, handles: seq<nat>)
    | ResettingMetrics(config: ResolvedConfig, handles: seq<nat>)
    | ResettingTraces(config: ResolvedConfig, handles: seq<nat>)

  datatype Owner = App(thread: nat) | Task(writer: nat)

  datatype Slot = LogSlot | MetricSlot | TraceSlot

  /**
    One event on its way through the slots: waiting for the read lock of a slot, or holding it, with
    the layers it has not reached yet.
   */
  datatype Fanout =
    | Asking(event: Event, slot: Slot)
    | Inside(event: Event, slot: Slot, remaining: seq<Layer>)

  /** How far the caller's `replace` has got with the write lock of its slot. */
  datatype Lock = Unlocked | Requested | Locked

  datatype System = System(
    filter: (string, Level) -> bool,      // `EnvFilter::enabled` on target and level
    overtaking: bool,                     // whether a reader may take a lock that `replace` is waiting for
    logs: seq<Layer>, metrics: seq<Layer>, traces: seq<Layer>,
    state: Option<Installed>,
    lifecycle: Lifecycle,
    installs: nat,                        // calls of `install` so far that were not refused
    caller: nat,                          // the thread inside the latest `install` or `uninstall`
    lock: Lock,
    writers: seq<W.Writer>,
    fanouts: map<Owner, Fanout>,
    // histories
    appEvents: nat,                       // application events that passed the filter at INFO or above
    failedPuts: nat)

  function Init(filter: (string, Level) -> bool, overtaking: bool): System {
    System(filter, overtaking, DEFAULT_LOGS, [], [], None, Idle, 0, 0, Unlocked, [], map[], 0, 0)
  }

  function LayersIn(s: System, slot: Slot): seq<Layer> {
    match slot case LogSlot => s.logs case MetricSlot => s.metrics case TraceSlot => s.traces
  }

  /** The call is about to replace a slot. */
  predicate Replacing(l: Lifecycle) {
    match l
    case SwappingMetrics(_) => true
    case SwappingTraces(_) => true
    case CreatingSls(c, handles) => |handles| == |c.slsLogs|
    case ResettingLogs(_, _) => true
    case ResettingMetrics(_, _) => true
    case ResettingTraces(_, _) => true
    case _ => false
  }

  /** The slot it is about to replace. */
  function Target(l: Lifecycle): Slot {
    if l.SwappingMetrics? || l.ResettingMetrics? then MetricSlot
    else if l.SwappingTraces? || l.ResettingTraces? then TraceSlot
    else LogSlot
  }

  /** A thread that asks for the slot's read lock has to wait. */
  predicate KeptOut(s: System, slot: Slot) {
    slot == Target(s.lifecycle) && (s.lock.Locked? || (s.lock.Requested? && !s.overtaking))
  }

  /** Nobody holds the slot's read lock. */
  ghost predicate Vacant(fanouts: map<Owner, Fanout>, slot: Slot) {
    forall o :: o in fanouts ==> fanouts[o].Asking? || fanouts[o].slot != slot
  }

  datatype Action =
    // a thread emits
    | Begin(thread: nat, event: Event)
    | Enter(owner: Owner)
    | Deliver(owner: Owner, seconds: nat)
    | Finish(owner: Owner)
    // a writer's task; `detail` is the text of a failed put
    | Write(writer: nat, act: W.Act, detail: string)
    // `replace`
    | RequestLock | TakeLock
    // install
    | BeginInstall(thread: nat, config: ResolvedConfig)
    | ExportFail | ExportOk
    | SwapMetrics | SwapTraces
    | SlsOk | SlsFail
    | SwapLogs | Commit
    // uninstall
    | BeginUninstall(thread: nat)
    | SignalNext | AwaitNext
    | ResetLogs | ResetMetrics | ResetTraces

  const WARN_TARGET: string := "pytracingx::sls_log"

  /** The event a failed `put_logs` emits, outside any span. */
  function WarnEvent(detail: string): Event {
    Event(WARN_TARGET, Warn, [DebugField("message", "SLS put_logs failed: " + detail)], None)
  }

  ghost predicate InSlot(layers: seq<Layer>, w: nat) {
    exists i :: 0 <= i < |layers| && layers[i].Sls? && layers[i].writer == w
  }

  /** The shutdown senders in existence: those in `state`, or local to the call in progress. */
  function Held(s: System): seq<nat> {
    if s.state.Some? then s.state.value.handles
    else match s.lifecycle
      case CreatingSls(_, handles) => handles
      case Committing(_, handles) => handles
      case Stopping(_, handles, _, _) => handles
      case ResettingLogs(_, handles) => handles
      case ResettingMetrics(_, handles) => handles
      case ResettingTraces(_, handles) => handles
      case _ => []
  }

  /** The SLS sinks of the configuration these handles belong to. */
  function HeldSinks(s: System): seq<SlsLogSink> {
    if s.state.Some? then s.state.value.config.slsLogs
    else match s.lifecycle
      case CreatingSls(c, _) => c.slsLogs
      case Committing(c, _) => c.slsLogs
      case Stopping(c, _, _, _) => c.slsLogs
      case ResettingLogs(c, _) => c.slsLogs
      case ResettingMetrics(c, _) => c.slsLogs
      case ResettingTraces(c, _) => c.slsLogs
      case _ => []
  }

  /** Some layer still owns the sender of writer `w`. */
  ghost predicate SenderAlive(s: System, w: nat) {
    InSlot(s.logs, w) || (s.lifecycle.CreatingSls? && w in s.lifecycle.handles)
  }

  ghost predicate HandleAlive(s: System, w: nat) {
    w in Held(s)
  }

  ghost predicate Enabled(s: System, a: Action) {
    match a
    case Begin(t, ev) => App(t) !in s.fanouts && (s.lifecycle.Idle? || t != s.caller)
    case Enter(o) => o in s.fanouts && s.fanouts[o].Asking? && !KeptOut(s, s.fanouts[o].slot)
    case Deliver(o, _) => o in s.fanouts && s.fanouts[o].Inside? && s.fanouts[o].remaining != []
    case Finish(o) => o in s.fanouts && s.fanouts[o].Inside? && s.fanouts[o].remaining == []
    case Write(w, act, _) =>
      && w < |s.writers| && W.Own(act)
      && W.Can(s.writers[w], act, SenderAlive(s, w), HandleAlive(s, w))
      && (act.WarnDone? ==> Task(w) !in s.fanouts)
    case RequestLock => Replacing(s.lifecycle) && s.lock.Unlocked?
    case TakeLock => s.lock.Requested? && Vacant(s.fanouts, Target(s.lifecycle))
    case BeginInstall(t, _) => s.lifecycle.Idle? && App(t) !in s.fanouts
    case ExportFail => s.lifecycle.Exporting?
    case ExportOk => s.lifecycle.Exporting?
    case SwapMetrics => s.lifecycle.SwappingMetrics? && s.lock.Locked?
    case SwapTraces => s.lifecycle.SwappingTraces? && s.lock.Locked?
    case SlsOk => s.lifecycle.CreatingSls? && |s.lifecycle.handles| < |s.lifecycle.config.slsLogs|
    case SlsFail => s.lifecycle.CreatingSls? && |s.lifecycle.handles| < |s.lifecycle.config.slsLogs|
    case SwapLogs =>
      s.lifecycle.CreatingSls? && |s.lifecycle.handles| == |s.lifecycle.config.slsLogs| && s.lock.Locked?
    case Commit => s.lifecycle.Committing?
    case BeginUninstall(t) => s.lifecycle.Idle? && App(t) !in s.fanouts
    case SignalNext => s.lifecycle.Stopping? && !s.lifecycle.sent && s.lifecycle.next < |s.lifecycle.handles|
    case AwaitNext =>
      && s.lifecycle.Stopping? && s.lifecycle.sent && s.lifecycle.next < |s.lifecycle.handles|
      && s.lifecycle.handles[s.lifecycle.next] < |s.writers|
      && s.writers[s.lifecycle.handles[s.lifecycle.next]].done
    case ResetLogs => s.lifecycle.ResettingLogs? && s.lock.Locked?
    case ResetMetrics => s.lifecycle.ResettingMetrics? && s.lock.Locked?
    case ResetTraces => s.lifecycle.ResettingTraces? && s.lock.Locked?
  }

  /** The event comes to the first slot, whose filter decides whether it asks for the read lock. */
  function StartFanout(s: System, o: Owner, ev: Event): System {
    if s.filter(ev.target, ev.level) then s.(fanouts := s.fanouts[o := Asking(ev, LogSlot)]) else s
  }

  /** The read lock is released. The next slot has the same filter, so the event goes on to it. */
  function LeaveSlot(fanouts: map<Owner, Fanout>, o: Owner, f: Fanout): map<Owner, Fanout> {
    match f.slot
    case LogSlot => fanouts[o := Asking(f.event, MetricSlot)]
    case MetricSlot => fanouts[o := Asking(f.event, TraceSlot)]
    case TraceSlot => fanouts - {o}
  }

  /** `SlsLogLayer::on_event` */
  function OnEvent(writers: seq<W.Writer>, layer: Layer, ev: Event, seconds: nat): seq<W.Writer> {
    if layer.Sls? && layer.writer < |writers| && Forwarded(ev.level) then
      writers[layer.writer := W.Do(writers[layer.writer], W.Offer(EntryOf(ev, layer.service, seconds)))]
    else writers
  }

  /** The next layer of the slot takes the event; only the log slot has layers that concern the writers. */
  function Deliveries(s: System, f: Fanout, seconds: nat): seq<W.Writer>
    requires f.Inside? && f.remaining != []
  {
    if f.slot.LogSlot? then OnEvent(s.writers, f.remaining[0], f.event, seconds) else s.writers
  }

  /** Moving on to the next handle, or past the loop. */
  function StopFrom(c: ResolvedConfig, handles: seq<nat>, next: nat): Lifecycle {
    if next < |handles| then Stopping(c, handles, next, false) else ResettingLogs(c, handles)
  }

  ghost function Next(s: System, a: Action): System
    requires Enabled(s, a)
  {
    match a
    case Begin(t, ev) =>
      StartFanout(s, App(t), ev).(
        appEvents := s.appEvents + if s.filter(ev.target, ev.level) && Forwarded(ev.level) then 1 else 0)
    case Enter(o) =>
      var f := s.fanouts[o];
      s.(fanouts := s.fanouts[o := Inside(f.event, f.slot, LayersIn(s, f.slot))])
    case Deliver(o, seconds) =>
      var f := s.fanouts[o];
      s.(writers := Deliveries(s, f, seconds), fanouts := s.fanouts[o := f.(remaining := f.remaining[1..])])
    case Finish(o) => s.(fanouts := LeaveSlot(s.fanouts, o, s.fanouts[o]))
    case Write(w, act, detail) =>
      var t := s.(writers := s.writers[w := W.Do(s.writers[w], act)]);
      if act.PutErr? then StartFanout(t, Task(w), WarnEvent(detail)).(failedPuts := s.failedPuts + 1) else t
    case RequestLock => s.(lock := Requested)
    case TakeLock => s.(lock := Locked)
    case BeginInstall(t, c) =>
      if s.state.Some? then s else s.(lifecycle := Exporting(c), caller := t, installs := s.installs + 1)
    case ExportFail => s.(lifecycle := Idle)
    case ExportOk => s.(lifecycle := SwappingMetrics(s.lifecycle.config))
    case SwapMetrics =>
      s.(metrics := MetricLayers(s.lifecycle.config, s.installs), lock := Unlocked,
         lifecycle := SwappingTraces(s.lifecycle.config))
    case SwapTraces =>
      s.(traces := TraceLayers(s.lifecycle.config, s.installs), lock := Unlocked,
         lifecycle := CreatingSls(s.lifecycle.config, []))
    case SlsOk =>
      s.(writers := s.writers + [W.Fresh(W.BATCH_SIZE, s.lifecycle.config.slsLogs[|s.lifecycle.handles|])],
         lifecycle := CreatingSls(s.lifecycle.config, s.lifecycle.handles + [|s.writers|]))
    case SlsFail => s.(lifecycle := Idle)
    case SwapLogs =>
      s.(logs := LogLayers(s.lifecycle.config, s.installs, s.lifecycle.handles), lock := Unlocked,
         lifecycle := Committing(s.lifecycle.config, s.lifecycle.handles))
    case Commit => s.(state := Some(Installed(s.lifecycle.config, s.lifecycle.handles)), lifecycle := Idle)
    case BeginUninstall(t) =>
      if s.state.None? then s
      else s.(state := None, caller := t, lifecycle := StopFrom(s.state.value.config, s.state.value.handles, 0))
    case SignalNext =>
      var l, w := s.lifecycle, s.lifecycle.handles[s.lifecycle.next];
      s.(writers := if w < |s.writers| then s.writers[w := W.Do(s.writers[w], W.Signal)] else s.writers,
         lifecycle := l.(sent := true))
    case AwaitNext => s.(lifecycle := StopFrom(s.lifecycle.config, s.lifecycle.handles, s.lifecycle.next + 1))
    case ResetLogs =>
      s.(logs := DEFAULT_LOGS, lock := Unlocked,
         lifecycle := ResettingMetrics(s.lifecycle.config, s.lifecycle.handles))
    case ResetMetrics =>
      s.(metrics := [], lock := Unlocked, lifecycle := ResettingTraces(s.lifecycle.config, s.lifecycle.handles))
    case ResetTraces => s.(traces := [], lock := Unlocked, lifecycle := Idle)
  }

  ghost predicate CanRun(s: System, actions: seq<Action>)
    decreases |actions|
  {
    actions == [] || (Enabled(s, actions[0]) && CanRun(Next(s, actions[0]), actions[1..]))
  }

  ghost function Run(s: System, actions: seq<Action>): System
    requires CanRun(s, actions)
    decreases |actions|
  {
    if actions == [] then s else Run(Next(s, actions[0]), actions[1..])
  }

  lemma {:induction false} RunAppend(s: System, a: seq<Action>, b: seq<Action>)
    requires CanRun(s, a)
    ensures CanRun(s, a + b) <==> CanRun(Run(s, a), b)
    ensures CanRun(s, a + b) ==> Run(s, a + b) == Run(Run(s, a), b)
    decreases |a|
  {
    hide Next, Enabled;
    if a == [] {
      assert a + b == b;
    } else {
      assert (a + b)[1..] == a[1..] + b;
      RunAppend(Next(s, a[0]), a[1..], b);
    }
  }

  // ------------------------------------------------------------------ invariant

  /** Running its loop, and nobody has asked it to stop. */
  ghost predicate Live(w: W.Writer) {
    W.Looping(w.pc) && !w.signalled
  }

  /** Asked to stop: the message waits, or the task has taken an ending arm. */
  ghost predicate Asked(w: W.Writer) {
    w.signalled && (w.signal || !W.Looping(w.pc))
  }

  /** Asked to stop, and has said that it did. */
  predicate Stopped(w: W.Writer) {
    w.signalled && w.done
  }

  ghost predicate WritersOk(s: System) {
    forall w :: 0 <= w < |s.writers| ==> W.Inv(s.writers[w]) && s.writers[w].capacity == W.BATCH_SIZE
  }

  /** The writer of the `i`-th handle was created for the `i`-th SLS sink of the configuration. */
  ghost predicate Serve(writers: seq<W.Writer>, handles: seq<nat>, sinks: seq<SlsLogSink>) {
    && |handles| <= |sinks|
    && forall i :: 0 <= i < |handles| ==> handles[i] < |writers| && writers[handles[i]].sink == sinks[i]
  }

  ghost predicate HandlesOk(s: System) {
    Increasing(Held(s)) && Serve(s.writers, Held(s), HeldSinks(s))
  }

  ghost predicate SlotsOf(s: System, c: ResolvedConfig, handles: seq<nat>) {
    && |handles| == |c.slsLogs|
    && s.logs == LogLayers(c, s.installs, handles)
    && s.metrics == MetricLayers(c, s.installs) && s.traces == TraceLayers(c, s.installs)
  }

  ghost predicate SlotsOk(s: System) {
    (s.state.Some? ==> s.lifecycle.Idle?) &&
    match s.lifecycle
    case Idle =>
      if s.state.Some? then SlotsOf(s, s.state.value.config, s.state.value.handles) else s.logs == DEFAULT_LOGS
    case Exporting(_) => s.logs == DEFAULT_LOGS
    case SwappingMetrics(_) => s.logs == DEFAULT_LOGS
    case SwappingTraces(c) => s.logs == DEFAULT_LOGS && s.metrics == MetricLayers(c, s.installs)
    case CreatingSls(c, handles) =>
      && s.logs == DEFAULT_LOGS && s.metrics == MetricLayers(c, s.installs) && s.traces == TraceLayers(c, s.installs)
      && |handles| <= |c.slsLogs|
    case Committing(c, handles) => SlotsOf(s, c, handles)
    case Stopping(c, handles, _, _) => SlotsOf(s, c, handles)
    case ResettingLogs(c, handles) => SlotsOf(s, c, handles)
    case ResettingMetrics(_, _) => s.logs == DEFAULT_LOGS
    case ResettingTraces(_, _) => s.logs == DEFAULT_LOGS && s.metrics == []
  }

  ghost predicate IsEndOf(rest: seq<Layer>, layers: seq<Layer>) {
    |rest| <= |layers| && forall i :: 0 <= i < |rest| ==> rest[i] == layers[|layers| - |rest| + i]
  }

  lemma TailIsEndOf(rest: seq<Layer>, layers: seq<Layer>)
    requires rest != [] && IsEndOf(rest, layers)
    ensures IsEndOf(rest[1..], layers)
  {
  }

  /** A reader inside a slot has the end of its vector still before it, and a task only reports while it is warning. */
  ghost predicate FanoutOk(s: System, o: Owner)
    requires o in s.fanouts
  {
    var f := s.fanouts[o];
    && (f.Inside? ==> IsEndOf(f.remaining, LayersIn(s, f.slot)))
    && (o.Task? ==> o.writer < |s.writers| && s.writers[o.writer].pc.Warning?)
  }

  ghost predicate FanoutsOk(s: System) {
    forall o :: o in s.fanouts ==> FanoutOk(s, o)
  }

  /**
    The write lock is only asked for by a call that is about to replace its slot, and held only while no
    reader is inside; and the thread inside a call is not inside an event.
   */
  ghost predicate LocksOk(s: System) {
    && (!s.lock.Unlocked? ==> Replacing(s.lifecycle))
    && (s.lock.Locked? ==> Vacant(s.fanouts, Target(s.lifecycle)))
    && (!s.lifecycle.Idle? ==> App(s.caller) !in s.fanouts)
  }

  /** How far each held writer is, handle by handle. */
  ghost predicate PhaseOk(s: System)
    requires HandlesOk(s)
  {
    var h := Held(s);
    if s.lifecycle.Stopping? then
      var k := s.lifecycle.next;
      && k < |h|
      && (forall i :: 0 <= i < k ==> Stopped(s.writers[h[i]]))
      && (if s.lifecycle.sent then Asked(s.writers[h[k]]) else Live(s.writers[h[k]]))
      && (forall i :: k < i < |h| ==> Live(s.writers[h[i]]))
    else if s.lifecycle.ResettingLogs? || s.lifecycle.ResettingMetrics? || s.lifecycle.ResettingTraces? then
      forall i :: 0 <= i < |h| ==> Stopped(s.writers[h[i]])
    else
      forall i :: 0 <= i < |h| ==> Live(s.writers[h[i]])
  }

  ghost predicate Inv(s: System) {
    WritersOk(s) && HandlesOk(s) && SlotsOk(s) && FanoutsOk(s) && LocksOk(s) && PhaseOk(s)
  }

  lemma SlotHoldsHandles(c: ResolvedConfig, n: nat, handles: seq<nat>, w: nat)
    ensures InSlot(LogLayers(c, n, handles), w) <==> w in handles
  {
    var layers := LogLayers(c, n, handles);
    var skip := |ConsoleLayers(c)| + |BridgeLayers(c, n)|;
    forall i | 0 <= i < |handles| ensures layers[skip + i] == Sls(handles[i], c.serviceName) {}
    if InSlot(layers, w) {
      var i :| 0 <= i < |layers| && layers[i].Sls? && layers[i].writer == w;
      assert i >= skip;
      assert handles[i - skip] == w;
    }
  }

  lemma DefaultHoldsNone(w: nat)
    ensures !InSlot(DEFAULT_LOGS, w)
  {
  }

  /** In every state the senders of exactly the held, not yet reset, writers are alive. */
  lemma SendersAreHeld(s: System, w: nat)
    requires SlotsOk(s)
    ensures SenderAlive(s, w) <==> w in Held(s) && !s.lifecycle.ResettingMetrics? && !s.lifecycle.ResettingTraces?
  {
    hide LogLayers, MetricLayers, TraceLayers, InSlot;
    DefaultHoldsNone(w);
    if s.state.Some? {
      SlotHoldsHandles(s.state.value.config, s.installs, s.state.value.handles, w);
    } else if s.lifecycle.Committing? || s.lifecycle.Stopping? || s.lifecycle.ResettingLogs? {
      SlotHoldsHandles(s.lifecycle.config, s.installs, s.lifecycle.handles, w);
    }
  }

  /** The handle `uninstall` is at exists, and its writer has been asked to stop if the message was sent. */
  lemma CallIsWellPlaced(s: System)
    requires Inv(s)
    ensures s.lifecycle.Stopping? ==>
              var handles, k := s.lifecycle.handles, s.lifecycle.next;
              k < |handles| && handles[k] < |s.writers| && (s.lifecycle.sent ==> Asked(s.writers[handles[k]]))
    ensures s.lifecycle.CreatingSls? ==> |s.lifecycle.handles| <= |s.lifecycle.config.slsLogs|
  {
    hide W.Inv, LogLayers, MetricLayers, TraceLayers, FanoutsOk, LocksOk, WritersOk;
  }

  lemma HandlesExist(s: System)
    requires Inv(s)
    ensures s.state.Some? ==>
              forall i :: 0 <= i < |s.state.value.handles| ==> s.state.value.handles[i] < |s.writers|
  {
    hide WritersOk, SlotsOk, FanoutsOk, LocksOk, PhaseOk;
    assert s.state.Some? ==> Held(s) == s.state.value.handles;
  }

  lemma InitInv(filter: (string, Level) -> bool, overtaking: bool)
    ensures Inv(Init(filter, overtaking))
  {
  }

  // ------------------------------------------------------- steps of other threads

  lemma OfferKeeps(w: W.Writer, e: LogEntry)
    requires W.Inv(w)
    ensures var v := W.Do(w, W.Offer(e));
      && W.Inv(v) && v.capacity == w.capacity && v.sink == w.sink && v.pc == w.pc
      && v.signal == w.signal && v.done == w.done && v.signalled == w.signalled
  {
    W.StepKeepsInv(w, W.Offer(e), true, true);
  }

  /** What a step of a task or of a producer may do to one writer, as far as the invariant is concerned. */
  ghost predicate Advances(v: W.Writer, w: W.Writer) {
    && W.Inv(w) && w.capacity == v.capacity && w.sink == v.sink && w.signalled == v.signalled
    && (Asked(v) ==> Asked(w)) && (v.done ==> w.done)
  }

  /** Steps that leave the lifecycle and the slots alone. */
  lemma WritersMove(s: System, t: System)
    requires WritersOk(s) && HandlesOk(s) && SlotsOk(s) && PhaseOk(s)
    requires t.state == s.state && t.lifecycle == s.lifecycle && t.installs == s.installs
    requires t.logs == s.logs && t.metrics == s.metrics && t.traces == s.traces
    requires |t.writers| == |s.writers|
    requires forall w :: 0 <= w < |s.writers| ==> Advances(s.writers[w], t.writers[w])
    requires forall w :: 0 <= w < |s.writers| && SenderAlive(s, w) && Live(s.writers[w]) ==> Live(t.writers[w])
    ensures WritersOk(t) && HandlesOk(t) && SlotsOk(t) && PhaseOk(t)
  {
    hide W.Inv, LogLayers, MetricLayers, TraceLayers;
    var h := Held(s);
    assert Held(t) == h && HeldSinks(t) == HeldSinks(s);
    assert HandlesOk(t) && SlotsOk(t);
    forall i | 0 <= i < |h|
      ensures Advances(s.writers[h[i]], t.writers[h[i]])
      ensures !s.lifecycle.ResettingMetrics? && !s.lifecycle.ResettingTraces? && Live(s.writers[h[i]]) ==>
                Live(t.writers[h[i]])
    {
      SendersAreHeld(s, h[i]);
    }
  }

  /** Everything but the fan-out of `o` and the writers is as it was. */
  ghost predicate OnlyFanout(s: System, t: System, o: Owner) {
    && t.lifecycle == s.lifecycle && t.state == s.state && t.caller == s.caller && t.lock == s.lock
    && t.installs == s.installs
    && t.logs == s.logs && t.metrics == s.metrics && t.traces == s.traces
    && |t.writers| == |s.writers|
    && t.fanouts.Keys - {o} == s.fanouts.Keys - {o}
    && forall p :: p in s.fanouts && p != o ==> p in t.fanouts && t.fanouts[p] == s.fanouts[p]
  }

  lemma FanoutMoves(s: System, t: System, o: Owner)
    requires FanoutsOk(s) && LocksOk(s) && OnlyFanout(s, t, o)
    requires forall w :: 0 <= w < |s.writers| && Task(w) in s.fanouts && Task(w) != o ==> t.writers[w].pc.Warning?
    requires o in t.fanouts ==> FanoutOk(t, o)
    requires o in t.fanouts && o !in s.fanouts ==> s.lifecycle.Idle? || o != App(s.caller)
    requires o in t.fanouts && t.fanouts[o].Inside? && s.lock.Locked? && t.fanouts[o].slot == Target(s.lifecycle) ==>
               o in s.fanouts && s.fanouts[o].Inside? && s.fanouts[o].slot == t.fanouts[o].slot
    ensures FanoutsOk(t) && LocksOk(t)
  {
    forall p | p in t.fanouts
      ensures FanoutOk(t, p)
      ensures s.lock.Locked? ==> t.fanouts[p].Asking? || t.fanouts[p].slot != Target(t.lifecycle)
    {
      if p != o {
        assert p in t.fanouts.Keys - {o};
        assert FanoutOk(s, p);
      }
    }
    assert App(s.caller) != o && App(s.caller) in t.fanouts ==> App(s.caller) in t.fanouts.Keys - {o};
  }

  lemma BeginMovesOne(s: System, a: Action)
    requires FanoutsOk(s) && LocksOk(s) && Enabled(s, a) && a.Begin?
    ensures FanoutsOk(Next(s, a)) && LocksOk(Next(s, a)) && OnlyFanout(s, Next(s, a), App(a.thread))
    ensures Next(s, a).writers == s.writers
  {
    hide FanoutsOk, LocksOk;
    WarningsStay(s, s.writers);
    FanoutMoves(s, Next(s, a), App(a.thread));
  }

  lemma EnterIs(s: System, a: Action)
    requires Enabled(s, a) && a.Enter?
    ensures a.owner in s.fanouts && s.fanouts[a.owner].Asking? && !KeptOut(s, s.fanouts[a.owner].slot)
    ensures var f := s.fanouts[a.owner];
      Next(s, a) == s.(fanouts := s.fanouts[a.owner := Inside(f.event, f.slot, LayersIn(s, f.slot))])
  {
  }

  lemma EnterMovesOne(s: System, a: Action)
    requires FanoutsOk(s) && LocksOk(s) && Enabled(s, a) && a.Enter?
    ensures FanoutsOk(Next(s, a)) && LocksOk(Next(s, a)) && OnlyFanout(s, Next(s, a), a.owner)
    ensures Next(s, a).writers == s.writers
  {
    hide FanoutsOk, LocksOk, Next, Enabled, FanoutOk, OnlyFanout;
    EnterIs(s, a);
    WarningsStay(s, s.writers);
    OneFanoutOk(s, a.owner);
    EnteredOk(s, a.owner);
    UpdateIsOnly(s, a.owner, Next(s, a).fanouts[a.owner]);
    FanoutMoves(s, Next(s, a), a.owner);
  }

  /** A reader that has just come in has the whole vector before it. */
  lemma EnteredOk(s: System, o: Owner)
    requires o in s.fanouts && FanoutOk(s, o)
    ensures var f := s.fanouts[o];
      FanoutOk(s.(fanouts := s.fanouts[o := Inside(f.event, f.slot, LayersIn(s, f.slot))]), o)
  {
    hide IsEndOf;
    WholeIsEndOf(LayersIn(s, s.fanouts[o].slot));
  }

  lemma WholeIsEndOf(layers: seq<Layer>)
    ensures IsEndOf(layers, layers)
  {
  }

  lemma UpdateIsOnly(s: System, o: Owner, f: Fanout)
    ensures OnlyFanout(s, s.(fanouts := s.fanouts[o := f]), o)
  {
  }

  lemma FinishMovesOne(s: System, a: Action)
    requires FanoutsOk(s) && LocksOk(s) && Enabled(s, a) && a.Finish?
    ensures FanoutsOk(Next(s, a)) && LocksOk(Next(s, a)) && OnlyFanout(s, Next(s, a), a.owner)
    ensures Next(s, a).writers == s.writers
  {
    hide FanoutsOk, LocksOk;
    WarningsStay(s, s.writers);
    OneFanoutOk(s, a.owner);
    FanoutMoves(s, Next(s, a), a.owner);
  }

  lemma OneFanoutOk(s: System, o: Owner)
    requires FanoutsOk(s) && o in s.fanouts
    ensures FanoutOk(s, o)
  {
    hide FanoutOk;
  }

  /** A task inside an event is warning, and still is if no task moved. */
  lemma WarningsStay(s: System, writers: seq<W.Writer>)
    requires FanoutsOk(s) && |writers| == |s.writers|
    requires forall w :: 0 <= w < |writers| ==> writers[w].pc == s.writers[w].pc
    ensures forall w :: 0 <= w < |writers| && Task(w) in s.fanouts ==> writers[w].pc.Warning?
  {
    forall w | 0 <= w < |writers| && Task(w) in s.fanouts ensures writers[w].pc.Warning? {
      assert FanoutOk(s, Task(w));
    }
  }

  lemma ThreadStepKeepsInv(s: System, a: Action)
    requires Inv(s) && Enabled(s, a) && (a.Begin? || a.Enter? || a.Finish?)
    ensures Inv(Next(s, a))
  {
    hide W.Inv, W.Looping, LogLayers, MetricLayers, TraceLayers, FanoutsOk, LocksOk, Next, Enabled;
    var t := Next(s, a);
    if a.Begin? {
      BeginMovesOne(s, a);
    } else if a.Enter? {
      EnterMovesOne(s, a);
    } else {
      FinishMovesOne(s, a);
    }
    assert Held(t) == Held(s);
  }

  lemma OnEventAdvances(writers: seq<W.Writer>, layer: Layer, ev: Event, seconds: nat)
    requires forall w :: 0 <= w < |writers| ==> W.Inv(writers[w])
    ensures var after := OnEvent(writers, layer, ev, seconds);
      && |after| == |writers|
      && forall w :: 0 <= w < |writers| ==>
           && Advances(writers[w], after[w])
           && (Live(writers[w]) ==> Live(after[w]))
           && after[w].pc == writers[w].pc
  {
    if layer.Sls? && layer.writer < |writers| {
      OfferKeeps(writers[layer.writer], EntryOf(ev, layer.service, seconds));
    }
  }

  lemma DeliverKeepsFanouts(s: System, a: Action)
    requires FanoutsOk(s) && LocksOk(s) && Enabled(s, a) && a.Deliver?
    requires |Next(s, a).writers| == |s.writers|
    requires forall w :: 0 <= w < |s.writers| ==> Next(s, a).writers[w].pc == s.writers[w].pc
    ensures FanoutsOk(Next(s, a)) && LocksOk(Next(s, a))
  {
    hide OnEvent, Deliveries, FanoutsOk, LocksOk, IsEndOf;
    var t := Next(s, a);
    OneFanoutOk(s, a.owner);
    TailIsEndOf(s.fanouts[a.owner].remaining, LayersIn(s, s.fanouts[a.owner].slot));
    WarningsStay(s, t.writers);
    FanoutMoves(s, t, a.owner);
  }

  lemma DeliverKeepsInv(s: System, a: Action)
    requires Inv(s) && Enabled(s, a) && a.Deliver?
    ensures Inv(Next(s, a))
  {
    hide W.Inv, W.Do, W.Looping, LogLayers, MetricLayers, TraceLayers, FanoutsOk, LocksOk, OnEvent;
    var t := Next(s, a);
    var f := s.fanouts[a.owner];
    OnEventAdvances(s.writers, f.remaining[0], f.event, a.seconds);
    WritersMove(s, t);
    DeliverKeepsFanouts(s, a);
  }

  /** A step of its own never takes a live task out of its loop while its sender and handle are alive. */
  lemma OwnStepPhase(w: W.Writer, a: W.Act, senders: bool, handle: bool)
    requires W.Own(a) && W.Can(w, a, senders, handle) && W.Inv(w)
    ensures Live(w) && senders && handle ==> Live(W.Do(w, a))
    ensures Advances(w, W.Do(w, a))
    ensures w.pc.Warning? ==> a.WarnDone?
    ensures a.PutErr? ==> W.Do(w, a).pc.Warning?
  {
    W.StepKeepsInv(w, a, senders, handle);
  }

  lemma WriteKeepsFanouts(s: System, a: Action)
    requires FanoutsOk(s) && LocksOk(s) && WritersOk(s) && Enabled(s, a) && a.Write?
    ensures FanoutsOk(Next(s, a)) && LocksOk(Next(s, a))
  {
    hide W.Inv, W.Do, W.Can, SenderAlive, HandleAlive;
    var t, o := Next(s, a), Task(a.writer);
    var before := s.writers[a.writer];
    OwnStepPhase(before, a.act, SenderAlive(s, a.writer), HandleAlive(s, a.writer));
    assert t.writers == s.writers[a.writer := W.Do(before, a.act)];
    forall w | 0 <= w < |s.writers| && Task(w) in s.fanouts && Task(w) != o ensures t.writers[w].pc.Warning? {
      assert FanoutOk(s, Task(w));
    }
    assert o in s.fanouts ==> FanoutOk(s, o);
    FanoutMoves(s, t, o);
  }

  lemma WriteMovesWriters(s: System, a: Action)
    requires WritersOk(s) && SlotsOk(s) && Enabled(s, a) && a.Write?
    ensures var t := Next(s, a);
      && t.state == s.state && t.lifecycle == s.lifecycle
      && t.logs == s.logs && t.metrics == s.metrics && t.traces == s.traces && |t.writers| == |s.writers|
      && t.installs == s.installs
      && (forall w :: 0 <= w < |s.writers| ==> Advances(s.writers[w], t.writers[w]))
      && forall w :: 0 <= w < |s.writers| && SenderAlive(s, w) && Live(s.writers[w]) ==> Live(t.writers[w])
  {
    hide W.Inv, W.Do, W.Can, SenderAlive;
    var t := Next(s, a);
    var before := s.writers[a.writer];
    SendersAreHeld(s, a.writer);
    OwnStepPhase(before, a.act, SenderAlive(s, a.writer), HandleAlive(s, a.writer));
    assert t.writers == s.writers[a.writer := W.Do(before, a.act)];
  }

  lemma WriteKeepsInv(s: System, a: Action)
    requires Inv(s) && Enabled(s, a) && a.Write?
    ensures Inv(Next(s, a))
  {
    hide WritersOk, HandlesOk, SlotsOk, PhaseOk, FanoutsOk, LocksOk, Next, Enabled, Advances, SenderAlive, Live;
    WriteKeepsFanouts(s, a);
    WriteMovesWriters(s, a);
    WritersMove(s, Next(s, a));
  }

  // ------------------------------------------------------------ steps of the call

  /** Steps that change neither the writers' places nor any slot a reader is inside. */
  lemma FanoutsStay(s: System, t: System)
    requires FanoutsOk(s) && t.fanouts == s.fanouts
    requires forall slot :: LayersIn(t, slot) == LayersIn(s, slot) || Vacant(s.fanouts, slot)
    requires |s.writers| <= |t.writers|
    requires forall w :: 0 <= w < |s.writers| ==> t.writers[w].pc == s.writers[w].pc
    ensures FanoutsOk(t)
  {
    forall o | o in t.fanouts ensures FanoutOk(t, o) {
      assert FanoutOk(s, o);
      assert LayersIn(t, s.fanouts[o].slot) == LayersIn(s, s.fanouts[o].slot) || Vacant(s.fanouts, s.fanouts[o].slot);
    }
  }

  /** A step of the call that leaves the writers alone, and either keeps all it holds or drops it. */
  lemma WritersStay(s: System, t: System)
    requires Inv(s) && t.writers == s.writers && t.fanouts == s.fanouts
    requires forall slot :: LayersIn(t, slot) == LayersIn(s, slot) || Vacant(s.fanouts, slot)
    requires Held(t) == [] || (Held(t) == Held(s) && HeldSinks(t) == HeldSinks(s))
    ensures WritersOk(t) && HandlesOk(t) && FanoutsOk(t)
  {
    hide W.Inv, SlotsOk, PhaseOk, LocksOk, FanoutsOk, Held, HeldSinks, LayersIn, Vacant;
    FanoutsStay(s, t);
  }

  lemma LockStepKeepsInv(s: System, a: Action)
    requires Inv(s) && Enabled(s, a) && (a.RequestLock? || a.TakeLock?)
    ensures Inv(Next(s, a))
  {
    hide WritersOk, HandlesOk, FanoutsOk, Live, Asked, Stopped, LogLayers, MetricLayers, TraceLayers;
    WritersStay(s, Next(s, a));
  }

  lemma ConfigStepKeepsInv(s: System, a: Action)
    requires Inv(s) && Enabled(s, a)
    requires a.BeginInstall? || a.ExportFail? || a.ExportOk? || a.SwapMetrics? || a.SwapTraces? || a.SlsFail?
    ensures Inv(Next(s, a))
  {
    hide WritersOk, HandlesOk, FanoutsOk, Live, Asked, Stopped, LogLayers, MetricLayers, TraceLayers;
    WritersStay(s, Next(s, a));
  }

  lemma SwapLogsKeepsInv(s: System)
    requires Inv(s) && Enabled(s, SwapLogs)
    ensures Inv(Next(s, SwapLogs))
  {
    hide WritersOk, HandlesOk, FanoutsOk, Live, Asked, Stopped, LogLayers, MetricLayers, TraceLayers;
    WritersStay(s, Next(s, SwapLogs));
  }

  lemma CommitKeepsInv(s: System)
    requires Inv(s) && Enabled(s, Commit)
    ensures Inv(Next(s, Commit))
  {
    hide WritersOk, HandlesOk, FanoutsOk, Live, Asked, Stopped, LogLayers, MetricLayers, TraceLayers;
    WritersStay(s, Next(s, Commit));
  }

  lemma BeginUninstallKeepsInv(s: System, a: Action)
    requires Inv(s) && Enabled(s, a) && a.BeginUninstall?
    ensures Inv(Next(s, a))
  {
    hide WritersOk, HandlesOk, FanoutsOk, Live, Asked, Stopped, LogLayers, MetricLayers, TraceLayers;
    WritersStay(s, Next(s, a));
  }

  lemma ResetKeepsInv(s: System, a: Action)
    requires Inv(s) && Enabled(s, a) && (a.ResetLogs? || a.ResetMetrics? || a.ResetTraces?)
    ensures Inv(Next(s, a))
  {
    hide WritersOk, HandlesOk, FanoutsOk, Live, Asked, Stopped, LogLayers, MetricLayers, TraceLayers;
    WritersStay(s, Next(s, a));
  }

  lemma DoneIsAsked(s: System, w: nat)
    requires WritersOk(s) && w < |s.writers| && s.writers[w].done && Asked(s.writers[w])
    ensures Stopped(s.writers[w])
  {
  }

  lemma AwaitKeepsInv(s: System)
    requires Inv(s) && Enabled(s, AwaitNext)
    ensures Inv(Next(s, AwaitNext))
  {
    hide WritersOk, HandlesOk, FanoutsOk, Live, Asked, Stopped, LogLayers, MetricLayers, TraceLayers;
    DoneIsAsked(s, s.lifecycle.handles[s.lifecycle.next]);
    WritersStay(s, Next(s, AwaitNext));
  }

  lemma FreshIsLive(sink: SlsLogSink)
    ensures var w := W.Fresh(W.BATCH_SIZE, sink); W.Inv(w) && Live(w) && w.capacity == W.BATCH_SIZE && w.sink == sink
  {
    W.FreshInv(W.BATCH_SIZE, sink);
  }

  lemma SlsOkAdds(s: System)
    requires Inv(s) && Enabled(s, SlsOk)
    ensures var t, n := Next(s, SlsOk), |s.writers|;
      && |t.writers| == n + 1 && (forall w :: 0 <= w < n ==> t.writers[w] == s.writers[w])
      && W.Inv(t.writers[n]) && Live(t.writers[n]) && t.writers[n].capacity == W.BATCH_SIZE
      && Held(t) == Held(s) + [n] && HeldSinks(t) == HeldSinks(s) && |Held(s)| < |HeldSinks(s)|
      && t.writers[n].sink == HeldSinks(s)[|Held(s)|]
  {
    hide WritersOk, HandlesOk, FanoutsOk, LocksOk, PhaseOk, LogLayers, MetricLayers, TraceLayers, W.Inv, Live, W.Fresh;
    FreshIsLive(s.lifecycle.config.slsLogs[|s.lifecycle.handles|]);
  }

  lemma SlsOkKeepsSlots(s: System)
    requires Inv(s) && Enabled(s, SlsOk)
    ensures SlotsOk(Next(s, SlsOk)) && LocksOk(Next(s, SlsOk))
  {
    hide WritersOk, HandlesOk, FanoutsOk, PhaseOk, LogLayers, MetricLayers, TraceLayers;
  }

  lemma SlsOkKeepsInv(s: System)
    requires Inv(s) && Enabled(s, SlsOk)
    ensures Inv(Next(s, SlsOk))
  {
    hide W.Inv, Live, SlotsOk, LocksOk, FanoutsOk, Held, HeldSinks;
    var t, h := Next(s, SlsOk), Held(s);
    SlsOkAdds(s);
    SlsOkKeepsSlots(s);
    FanoutsStay(s, t);
    assert HandlesOk(t);
    forall i | 0 <= i < |Held(t)| ensures Live(t.writers[Held(t)[i]]) {
      assert i < |h| ==> Live(s.writers[h[i]]);
    }
  }

  lemma IncreasingDistinct(h: seq<nat>, i: nat, j: nat)
    requires Increasing(h) && i < |h| && j < |h| && i != j
    ensures h[i] != h[j]
  {
  }

  lemma SignalAsks(w: W.Writer)
    requires W.Inv(w) && Live(w)
    ensures var v := W.Do(w, W.Signal);
      W.Inv(v) && Asked(v) && v.capacity == w.capacity && v.sink == w.sink && v.pc == w.pc
  {
    W.StepKeepsInv(w, W.Signal, true, true);
  }

  lemma SignalChangesOne(s: System)
    requires Inv(s) && Enabled(s, SignalNext)
    ensures var t, h, k := Next(s, SignalNext), Held(s), s.lifecycle.next;
      && Held(t) == h && HeldSinks(t) == HeldSinks(s) && t.lifecycle == s.lifecycle.(sent := true)
      && h == s.lifecycle.handles && h[k] < |s.writers| && |t.writers| == |s.writers|
      && t.writers == s.writers[h[k] := W.Do(s.writers[h[k]], W.Signal)] && t.fanouts == s.fanouts && t.lock == s.lock
      && t.logs == s.logs && t.metrics == s.metrics && t.traces == s.traces && t.installs == s.installs
      && t.state == s.state && t.caller == s.caller
  {
    hide WritersOk, FanoutsOk, LocksOk, PhaseOk, LogLayers, MetricLayers, TraceLayers, W.Do;
  }

  lemma SignalKeepsInv(s: System)
    requires Inv(s) && Enabled(s, SignalNext)
    ensures Inv(Next(s, SignalNext))
  {
    hide W.Inv, W.Do, FanoutsOk, Live, Asked, Stopped, Next, Held, HeldSinks, LogLayers, MetricLayers, TraceLayers;
    var t, h, k := Next(s, SignalNext), Held(s), s.lifecycle.next;
    SignalChangesOne(s);
    SignalAsks(s.writers[h[k]]);
    assert forall w :: 0 <= w < |s.writers| && w != h[k] ==> t.writers[w] == s.writers[w];
    forall i | 0 <= i < |h| && i != k ensures t.writers[h[i]] == s.writers[h[i]] {
      IncreasingDistinct(h, i, k);
    }
    FanoutsStay(s, t);
  }

  /** Every step of every actor keeps the invariant. */
  lemma NextKeepsInv(s: System, a: Action)
    requires Inv(s) && Enabled(s, a)
    ensures Inv(Next(s, a))
  {
    hide Inv, Next, Enabled;
    match a {
      case Begin(_, _) => ThreadStepKeepsInv(s, a);
      case Enter(_) => ThreadStepKeepsInv(s, a);
      case Finish(_) => ThreadStepKeepsInv(s, a);
      case Deliver(_, _) => DeliverKeepsInv(s, a);
      case Write(_, _, _) => WriteKeepsInv(s, a);
      case RequestLock => LockStepKeepsInv(s, a);
      case TakeLock => LockStepKeepsInv(s, a);
      case SlsOk => SlsOkKeepsInv(s);
      case SwapLogs => SwapLogsKeepsInv(s);
      case Commit => CommitKeepsInv(s);
      case BeginUninstall(_) => BeginUninstallKeepsInv(s, a);
      case SignalNext => SignalKeepsInv(s);
      case AwaitNext => AwaitKeepsInv(s);
      case ResetLogs => ResetKeepsInv(s, a);
      case ResetMetrics => ResetKeepsInv(s, a);
      case ResetTraces => ResetKeepsInv(s, a);
      case _ => ConfigStepKeepsInv(s, a);
    }
  }

  lemma {:induction false} RunKeepsInv(s: System, actions: seq<Action>)
    requires Inv(s) && CanRun(s, actions)
    ensures Inv(Run(s, actions))
    decreases |actions|
  {
    hide Inv, Next, Enabled;
    if actions != [] {
      NextKeepsInv(s, actions[0]);
      RunKeepsInv(Next(s, actions[0]), actions[1..]);
    }
  }

  /** A state some run of the process leads to. */
  ghost predicate Reachable(s: System) {
    exists actions ::
      CanRun(Init(s.filter, s.overtaking), actions) && Run(Init(s.filter, s.overtaking), actions) == s
  }

  lemma ReachableInv(s: System)
    requires Reachable(s)
    ensures Inv(s)
  {
    hide Inv, CanRun, Run;
    var init := Init(s.filter, s.overtaking);
    var actions :| CanRun(init, actions) && Run(init, actions) == s;
    InitInv(s.filter, s.overtaking);
    RunKeepsInv(init, actions);
  }

  lemma {:induction false} RunKeepsSetting(s: System, actions: seq<Action>)
    requires CanRun(s, actions)
    ensures Run(s, actions).filter == s.filter && Run(s, actions).overtaking == s.overtaking
    decreases |actions|
  {
    if actions != [] { RunKeepsSetting(Next(s, actions[0]), actions[1..]); }
  }

  lemma ReachableRun(s: System, actions: seq<Action>)
    requires Reachable(s) && CanRun(s, actions)
    ensures Reachable(Run(s, actions))
  {
    hide CanRun, Run;
    var init := Init(s.filter, s.overtaking);
    var before :| CanRun(init, before) && Run(init, before) == s;
    RunAppend(init, before, actions);
    RunKeepsSetting(s, actions);
    assert CanRun(init, before + actions) && Run(init, before + actions) == Run(s, actions);
  }
}
