/**
  What `install` and `uninstall` guarantee over all interleavings: the flush on shutdown, the
  slots each call leaves behind, which writers are running, and that no call waits for ever.
 */
module Guarantees {
  import opened Prelude
  import opened SlsRecord
  import opened Config
  import opened Pipeline
  import W = SlsWriter

  // --------------------------------------------------------------- conservation

  /**
    In every reachable state, for every sink ever created: what was handed to `put_logs`, then what is
    being built, batched and queued, is what the queue accepted; every group has the size its cause
    allows, none is empty and only one sent at shutdown may exceed 4096 entries, and there are at most
    accepted / 4096 + ticks + 1 of them.
   */
  lemma EverySinkConserves(s: System, w: nat)
    requires Reachable(s) && w < |s.writers|
    ensures var v := s.writers[w];
      && W.Flat(v.groups) + v.building + v.batch + v.queue == v.accepted
      && (forall i :: 0 <= i < |v.groups| ==>
            && W.Sized(W.BATCH_SIZE, v.groups[i])
            && |v.groups[i].entries| > 0 && (v.groups[i].cause.Shutdown? || |v.groups[i].entries| <= 4096)
            && (v.groups[i].cause.Full? ==> |v.groups[i].entries| == 4096))
      && |v.groups| <= |v.accepted| / 4096 + v.ticks + 1
  {
    ReachableInv(s);
    W.PutCountHolds(s.writers[w]);
  }

  // ------------------------------------------------------------- flush guarantee

  /**
    `actions` is one call of `install` or `uninstall` with everything that runs meanwhile: it returns at
    the last action and not before.
   */
  ghost predicate OneCall(s: System, actions: seq<Action>)
    decreases |actions|
  {
    && actions != [] && Enabled(s, actions[0])
    && var t := Next(s, actions[0]);
       if |actions| == 1 then t.lifecycle.Idle? else !t.lifecycle.Idle? && OneCall(t, actions[1..])
  }

  lemma {:induction false} OneCallRuns(s: System, actions: seq<Action>)
    requires OneCall(s, actions)
    ensures CanRun(s, actions)
    decreases |actions|
  {
    if |actions| > 1 { OneCallRuns(Next(s, actions[0]), actions[1..]); }
  }

  /** One writer between two moments: what it accepted stays, and a seal covers all accepted when it was set. */
  ghost predicate Grows(v: W.Writer, w: W.Writer) {
    && v.accepted <= w.accepted
    && (W.Sealed(v.pc) ==> W.Sealed(w.pc) && w.sealed == v.sealed)
    && (!W.Sealed(v.pc) && W.Sealed(w.pc) ==> w.sealed == Some(|w.accepted|))
  }

  lemma ActGrows(w: W.Writer, a: W.Act, senders: bool, handle: bool)
    requires W.Can(w, a, senders, handle)
    ensures Grows(w, W.Do(w, a))
  {
  }

  lemma StaysGrows(w: W.Writer)
    ensures Grows(w, w)
  {
  }

  lemma NextGrows(s: System, a: Action, w: nat)
    requires Enabled(s, a) && w < |s.writers|
    ensures |s.writers| <= |Next(s, a).writers|
    ensures Grows(s.writers[w], Next(s, a).writers[w])
  {
    hide W.Do, W.Sealed, Grows;
    ActGrows(s.writers[w], W.Signal, true, true);
    StaysGrows(s.writers[w]);
    if a.Deliver? {
      var f := s.fanouts[a.owner];
      var service := if f.remaining[0].Sls? then f.remaining[0].service else "";
      ActGrows(s.writers[w], W.Offer(EntryOf(f.event, service, a.seconds)), true, true);
    } else if a.Write? && a.writer == w {
      ActGrows(s.writers[w], a.act, SenderAlive(s, w), HandleAlive(s, w));
    }
  }

  predicate InUninstall(l: Lifecycle) {
    l.Stopping? || l.ResettingLogs? || l.ResettingMetrics? || l.ResettingTraces?
  }

  /** `uninstall` is under way on these handles. */
  predicate Uninstalling(s: System, handles: seq<nat>) {
    InUninstall(s.lifecycle) && s.lifecycle.handles == handles
  }

  /** What each sink had accepted is still there, and no seal leaves any of it out. */
  ghost predicate Covered(s: System, handles: seq<nat>, marks: seq<seq<LogEntry>>) {
    && |marks| == |handles|
    && forall i :: 0 <= i < |handles| ==>
         && handles[i] < |s.writers|
         && marks[i] <= s.writers[handles[i]].accepted
         && (W.Sealed(s.writers[handles[i]].pc) ==>
               s.writers[handles[i]].sealed.Some? && |marks[i]| <= s.writers[handles[i]].sealed.value)
  }

  lemma CoveredStays(s: System, a: Action, handles: seq<nat>, marks: seq<seq<LogEntry>>)
    requires Enabled(s, a) && Covered(s, handles, marks)
    ensures Covered(Next(s, a), handles, marks)
  {
    hide Next, Enabled;
    var t := Next(s, a);
    forall i | 0 <= i < |handles|
      ensures handles[i] < |t.writers| && Grows(s.writers[handles[i]], t.writers[handles[i]])
    {
      NextGrows(s, a, handles[i]);
    }
  }

  lemma DoneMeansHandedOver(w: W.Writer, mark: seq<LogEntry>)
    requires W.Inv(w) && w.done && mark <= w.accepted
    requires w.sealed.Some? && |mark| <= w.sealed.value
    ensures mark <= W.Flat(w.groups) <= w.accepted
  {
    assert W.Flat(w.groups) + w.building + w.batch + w.queue == W.Flat(w.groups) + w.queue;
  }

  /** Only its last step takes `uninstall` back to idle, with every writer done and the slots reset. */
  lemma UninstallStep(s: System, a: Action, handles: seq<nat>)
    requires Inv(s) && Enabled(s, a) && Uninstalling(s, handles)
    ensures var t := Next(s, a);
      if t.lifecycle.Idle? then
        && t.state.None? && t.logs == DEFAULT_LOGS && t.metrics == [] && t.traces == []
        && t.writers == s.writers
        && AllDone(s.writers, handles)
      else Uninstalling(t, handles)
  {
    hide W.Inv, LogLayers, MetricLayers, TraceLayers, FanoutsOk, LocksOk;
    assert Held(s) == handles;
  }

  /** These writers have said that they are done. */
  ghost predicate AllDone(writers: seq<W.Writer>, which: seq<nat>) {
    forall i :: 0 <= i < |which| ==> which[i] < |writers| && writers[which[i]].done
  }

  lemma {:induction false} UninstallCovers(
      s: System, actions: seq<Action>, handles: seq<nat>, marks: seq<seq<LogEntry>>)
    requires Inv(s) && Uninstalling(s, handles) && Covered(s, handles, marks)
    requires OneCall(s, actions) && CanRun(s, actions)
    ensures var t := Run(s, actions);
      && Covered(t, handles, marks) && Inv(t) && AllDone(t.writers, handles)
      && t.state.None? && t.logs == DEFAULT_LOGS && t.metrics == [] && t.traces == []
    decreases |actions|
  {
    hide Inv, Next, Covered;
    var t := Next(s, actions[0]);
    CoveredStays(s, actions[0], handles, marks);
    NextKeepsInv(s, actions[0]);
    UninstallStep(s, actions[0], handles);
    if |actions| > 1 {
      UninstallCovers(t, actions[1..], handles, marks);
    }
  }

  /** At the start of `uninstall` no held writer is sealed, so everything accepted so far is covered. */
  lemma StartsCovered(s: System, a: Action, marks: seq<seq<LogEntry>>)
    requires Inv(s) && s.state.Some? && |marks| == |s.state.value.handles|
    requires a.BeginUninstall? && Enabled(s, a)
    requires forall i :: 0 <= i < |marks| ==>
               s.state.value.handles[i] < |s.writers| && marks[i] == s.writers[s.state.value.handles[i]].accepted
    ensures Covered(Next(s, a), s.state.value.handles, marks)
    ensures Uninstalling(Next(s, a), s.state.value.handles)
  {
    var handles := s.state.value.handles;
    assert Held(s) == handles;
    assert Next(s, a).writers == s.writers;
    forall i | 0 <= i < |handles| ensures !W.Sealed(s.writers[handles[i]].pc) {
      assert Live(s.writers[handles[i]]);
    }
  }

  lemma AllHandedOver(t: System, handles: seq<nat>, marks: seq<seq<LogEntry>>)
    requires Inv(t) && Covered(t, handles, marks) && AllDone(t.writers, handles)
    ensures forall i :: 0 <= i < |handles| ==>
              marks[i] <= W.Flat(t.writers[handles[i]].groups) <= t.writers[handles[i]].accepted
  {
    forall i | 0 <= i < |handles|
      ensures marks[i] <= W.Flat(t.writers[handles[i]].groups) <= t.writers[handles[i]].accepted
    {
      var w := t.writers[handles[i]];
      assert W.Inv(w);
      DoneMeansHandedOver(w, marks[i]);
    }
  }

  /**
    The flush guarantee. Whatever producers, timers, writers and the network do while `uninstall`
    runs, when it returns every sink has handed to `put_logs`, in order and each in one group, all
    that its queue had accepted before the call, and the three slots are back to the initial ones.
   */
  lemma UninstallFlushes(s: System, actions: seq<Action>)
    requires Reachable(s) && s.state.Some?
    requires OneCall(s, actions) && actions[0].BeginUninstall?
    ensures CanRun(s, actions)
    ensures var t := Run(s, actions); var handles := s.state.value.handles;
      && (forall i :: 0 <= i < |handles| ==>
            && handles[i] < |s.writers| && handles[i] < |t.writers|
            && s.writers[handles[i]].accepted <= W.Flat(t.writers[handles[i]].groups)
            && W.Flat(t.writers[handles[i]].groups) <= t.writers[handles[i]].accepted)
      && t.state.None? && t.logs == DEFAULT_LOGS && t.metrics == [] && t.traces == []
  {
    hide Inv, Next, Covered;
    ReachableInv(s);
    OneCallRuns(s, actions);
    var handles := s.state.value.handles;
    HandlesExist(s);
    var marks := seq(|handles|, i requires 0 <= i < |handles| => s.writers[handles[i]].accepted);
    NextKeepsInv(s, actions[0]);
    StartsCovered(s, actions[0], marks);
    UninstallCovers(Next(s, actions[0]), actions[1..], handles, marks);
    AllHandedOver(Run(s, actions), handles, marks);
  }

  /** The step that stores the new layers of the slot being replaced. */
  function SwapAction(l: Lifecycle): Action {
    match l
    case SwappingMetrics(_) => SwapMetrics
    case SwappingTraces(_) => SwapTraces
    case ResettingLogs(_, _) => ResetLogs
    case ResettingMetrics(_, _) => ResetMetrics
    case ResettingTraces(_, _) => ResetTraces
    case _ => SwapLogs
  }

  // ------------------------------------------------------------------- lifecycle

  /** Two slots that `uninstall` left empty, or an earlier `install` that failed on one of its SLS sinks left filled. */
  ghost predicate LeftBehind(metrics: seq<Layer>, traces: seq<Layer>, installs: nat) {
    || (metrics == [] && traces == [])
    || exists c: ResolvedConfig, n: nat :: n <= installs && LeftBy(metrics, traces, c, n)
  }

  ghost predicate LeftBy(metrics: seq<Layer>, traces: seq<Layer>, c: ResolvedConfig, n: nat) {
    c.slsLogs != [] && metrics == MetricLayers(c, n) && traces == TraceLayers(c, n)
  }

  /** Until a call replaces them, the metric and trace slots are those left behind. */
  ghost predicate RestKept(s: System) {
    s.state.None? && (s.lifecycle.Idle? || s.lifecycle.Exporting? || s.lifecycle.SwappingMetrics?) ==>
      LeftBehind(s.metrics, s.traces, s.installs)
  }

  lemma LeftEarlier(metrics: seq<Layer>, traces: seq<Layer>, installs: nat)
    requires LeftBehind(metrics, traces, installs)
    ensures LeftBehind(metrics, traces, installs + 1)
  {
    hide LeftBy;
  }

  lemma NextKeepsRest(s: System, a: Action)
    requires Inv(s) && Enabled(s, a) && RestKept(s)
    ensures RestKept(Next(s, a))
  {
    hide MetricLayers, TraceLayers, LogLayers, LeftBehind, WritersOk, HandlesOk, FanoutsOk, LocksOk, PhaseOk;
    if a.SlsFail? {
      SlsFailLeaves(s);
    } else if a.BeginInstall? && s.state.None? {
      LeftEarlier(s.metrics, s.traces, s.installs);
    } else if a.ResetTraces? {
      EmptyIsLeft(s.installs);
    }
  }

  lemma EmptyIsLeft(installs: nat)
    ensures LeftBehind([], [], installs)
  {
  }

  lemma SlsFailLeaves(s: System)
    requires SlotsOk(s) && Enabled(s, SlsFail)
    ensures LeftBehind(s.metrics, s.traces, s.installs)
  {
    hide MetricLayers, TraceLayers, LogLayers;
    assert LeftBy(s.metrics, s.traces, s.lifecycle.config, s.installs);
  }

  lemma {:induction false} RunKeepsRest(s: System, actions: seq<Action>)
    requires Inv(s) && RestKept(s) && CanRun(s, actions)
    ensures RestKept(Run(s, actions))
    decreases |actions|
  {
    hide Inv, Next, Enabled, RestKept;
    if actions != [] {
      NextKeepsRest(s, actions[0]);
      NextKeepsInv(s, actions[0]);
      RunKeepsRest(Next(s, actions[0]), actions[1..]);
    }
  }

  lemma ReachableRest(s: System)
    requires Reachable(s)
    ensures RestKept(s)
  {
    hide Inv, CanRun, Run;
    var init := Init(s.filter, s.overtaking);
    var actions :| CanRun(init, actions) && Run(init, actions) == s;
    InitInv(s.filter, s.overtaking);
    RunKeepsRest(init, actions);
  }

  /**
    Between calls. Without a state the log slot is the default one, and the other two are empty or those
    of a configuration whose install failed on one of its SLS sinks. With a state all three slots are
    functions of that configuration and its writers, built by its own install, whatever installs failed
    before, and the SLS layers come in configuration order: the `i`-th is that of the writer created for the
    `i`-th SLS sink.
   */
  lemma SlotsFollowState(s: System)
    requires Reachable(s) && s.lifecycle.Idle?
    ensures s.state.None? ==> s.logs == [Fmt(Compact)] && LeftBehind(s.metrics, s.traces, s.installs)
    ensures s.state.Some? ==>
              var c, handles := s.state.value.config, s.state.value.handles;
              && |handles| == |c.slsLogs| && Serve(s.writers, handles, c.slsLogs)
              && s.logs == LogLayers(c, s.installs, handles)
              && s.metrics == MetricLayers(c, s.installs) && s.traces == TraceLayers(c, s.installs)
              && ShowsLogs(s.logs, c, s.installs, handles) && ShowsProviders(s.metrics, s.traces, c, s.installs)
  {
    hide LeftBehind, LogLayers, MetricLayers, TraceLayers, ShowsLogs, ShowsProviders;
    ReachableInv(s);
    if s.state.Some? {
      SlotsSpelled(s.state.value.config, s.installs, s.state.value.handles);
    }
    ReachableRest(s);
  }

  /** A configuration whose log slot cannot be told from the default one. */
  predicate LooksDefault(c: ResolvedConfig) {
    c.consoleOutput && FormatOf(c.consoleFormat) == Compact && c.otlpLogs == [] && c.slsLogs == []
  }

  /** The log slot is the default one exactly when nothing is installed or only a compact console is. */
  lemma DefaultSlotExactly(s: System)
    requires Reachable(s) && s.lifecycle.Idle?
    ensures s.logs == DEFAULT_LOGS <==> s.state.None? || LooksDefault(s.state.value.config)
  {
    hide LeftBehind, MetricLayers, TraceLayers, Reachable, ShowsLogs, ShowsProviders;
    SlotsFollowState(s);
    if s.state.Some? {
      var c, handles := s.state.value.config, s.state.value.handles;
      assert |LogLayers(c, s.installs, handles)| == |ConsoleLayers(c)| + |c.otlpLogs| + |c.slsLogs|;
      var first :=
        if c.consoleOutput then Fmt(FormatOf(c.consoleFormat))
        else if c.otlpLogs != [] then OtlpBridge(s.installs, c.otlpLogs[0])
        else if handles != [] then Sls(handles[0], c.serviceName) else Fmt(Pretty);
      assert s.logs != [] ==> s.logs[0] == first;
    }
  }

  lemma Prepend(s: System, a: Action, rest: seq<Action>)
    requires Enabled(s, a) && CanRun(Next(s, a), rest)
    ensures CanRun(s, [a] + rest) && Run(s, [a] + rest) == Run(Next(s, a), rest)
  {
    hide Next, Enabled;
    assert ([a] + rest)[1..] == rest;
  }

  /** `install` up to the creation of the SLS sinks, when nothing else runs. */
  function SwapBoth(thread: nat, c: ResolvedConfig): seq<Action> {
    [BeginInstall(thread, c), ExportOk] + [RequestLock, TakeLock, SwapMetrics] + [RequestLock, TakeLock, SwapTraces]
  }

  lemma ReplaceAlone(s: System, swap: Action)
    requires s.fanouts == map[] && s.lock.Unlocked? && Replacing(s.lifecycle) && swap == SwapAction(s.lifecycle)
    ensures var actions := [RequestLock, TakeLock, swap];
      && CanRun(s, actions) && Enabled(s.(lock := Locked), swap)
      && Run(s, actions) == Next(s.(lock := Locked), swap)
  {
    hide CanRun, Run, LogLayers, MetricLayers, TraceLayers;
    var s1 := Next(s, RequestLock);
    var s2 := Next(s1, TakeLock);
    assert s2 == s.(lock := Locked);
    OneStep(s2, swap);
    Prepend(s1, TakeLock, [swap]);
    Prepend(s, RequestLock, [TakeLock] + [swap]);
    assert [RequestLock] + ([TakeLock] + [swap]) == [RequestLock, TakeLock, swap];
  }

  lemma SwapBothRuns(s: System, thread: nat, c: ResolvedConfig)
    requires s.lifecycle.Idle? && s.state.None? && s.fanouts == map[] && s.lock.Unlocked?
    ensures CanRun(s, SwapBoth(thread, c))
    ensures Run(s, SwapBoth(thread, c)) ==
            s.(metrics := MetricLayers(c, s.installs + 1), traces := TraceLayers(c, s.installs + 1),
               installs := s.installs + 1, caller := thread, lifecycle := CreatingSls(c, []))
  {
    hide CanRun, Run, Next, Enabled;
    var begin := [BeginInstall(thread, c), ExportOk];
    var metrics, traces := [RequestLock, TakeLock, SwapMetrics], [RequestLock, TakeLock, SwapTraces];
    ExportsAlone(s, thread, c);
    var s2 := Run(s, begin);
    MetricsAlone(s2, c);
    var s3 := Run(s2, metrics);
    TracesAlone(s3, c);
    RunAppend(s, begin, metrics);
    RunAppend(s, begin + metrics, traces);
  }

  lemma ExportsAlone(s: System, thread: nat, c: ResolvedConfig)
    requires s.lifecycle.Idle? && s.state.None? && s.fanouts == map[]
    ensures var actions := [BeginInstall(thread, c), ExportOk];
      && CanRun(s, actions)
      && Run(s, actions) == s.(installs := s.installs + 1, caller := thread, lifecycle := SwappingMetrics(c))
  {
    hide CanRun, Run;
    OneStep(Next(s, BeginInstall(thread, c)), ExportOk);
    Prepend(s, BeginInstall(thread, c), [ExportOk]);
    assert [BeginInstall(thread, c)] + [ExportOk] == [BeginInstall(thread, c), ExportOk];
  }

  lemma MetricsAlone(s: System, c: ResolvedConfig)
    requires s.lifecycle == SwappingMetrics(c) && s.fanouts == map[] && s.lock.Unlocked?
    ensures var actions := [RequestLock, TakeLock, SwapMetrics];
      && CanRun(s, actions)
      && Run(s, actions) == s.(metrics := MetricLayers(c, s.installs), lifecycle := SwappingTraces(c))
  {
    hide CanRun, Run, MetricLayers;
    ReplaceAlone(s, SwapMetrics);
  }

  lemma TracesAlone(s: System, c: ResolvedConfig)
    requires s.lifecycle == SwappingTraces(c) && s.fanouts == map[] && s.lock.Unlocked?
    ensures var actions := [RequestLock, TakeLock, SwapTraces];
      && CanRun(s, actions)
      && Run(s, actions) == s.(traces := TraceLayers(c, s.installs), lifecycle := CreatingSls(c, []))
  {
    hide CanRun, Run, TraceLayers;
    ReplaceAlone(s, SwapTraces);
  }

  const CONSOLE_ONLY: ResolvedConfig := ResolvedConfig("my-app", map[], true, "compact", [], [], [], [])

  const SWAP_LOGS_AND_COMMIT: seq<Action> := [RequestLock, TakeLock, SwapLogs] + [Commit]

  /** The console-only mode: installed, and yet the log slot looks untouched. */
  lemma ConsoleOnlyLooksUninstalled(filter: (string, Level) -> bool, overtaking: bool)
    ensures CanRun(Init(filter, overtaking), SwapBoth(0, CONSOLE_ONLY) + SWAP_LOGS_AND_COMMIT)
    ensures var s := Run(Init(filter, overtaking), SwapBoth(0, CONSOLE_ONLY) + SWAP_LOGS_AND_COMMIT);
      s.lifecycle.Idle? && s.state.Some? && s.logs == DEFAULT_LOGS
  {
    hide CanRun, Run, MetricLayers, TraceLayers;
    var s0 := Init(filter, overtaking);
    SwapBothRuns(s0, 0, CONSOLE_ONLY);
    var s1 := Run(s0, SwapBoth(0, CONSOLE_ONLY));
    ReplaceAlone(s1, SwapLogs);
    var s2 := Run(s1, [RequestLock, TakeLock, SwapLogs]);
    assert s2.logs == DEFAULT_LOGS by {
      assert FormatOf("compact") == Compact;
      assert LogLayers(CONSOLE_ONLY, s1.installs, []) == DEFAULT_LOGS;
    }
    OneStep(s2, Commit);
    RunAppend(s1, [RequestLock, TakeLock, SwapLogs], [Commit]);
    RunAppend(s0, SwapBoth(0, CONSOLE_ONLY), SWAP_LOGS_AND_COMMIT);
  }

  lemma OneStep(s: System, a: Action)
    requires Enabled(s, a)
    ensures CanRun(s, [a]) && Run(s, [a]) == Next(s, a)
  {
    assert [a][1..] == [];
  }

  /**
    A failed SLS sink leaves the slots of a configuration that is not installed: the first `install` ever,
    of any configuration with an SLS sink, fails on that sink, and neither the failure nor a shutdown
    afterwards takes the metric and trace layers out again.
   */
  lemma FailedSinkLeavesSlots(filter: (string, Level) -> bool, overtaking: bool, thread: nat, c: ResolvedConfig)
    requires c.slsLogs != []
    ensures var actions := SwapBoth(thread, c) + [SlsFail] + [BeginUninstall(thread)];
      && CanRun(Init(filter, overtaking), actions)
      && var s := Run(Init(filter, overtaking), actions);
         && s.lifecycle.Idle? && s.state.None? && s.logs == DEFAULT_LOGS
         && s.metrics == MetricLayers(c, 1) && s.traces == TraceLayers(c, 1)
  {
    hide CanRun, Run, LogLayers, MetricLayers, TraceLayers;
    var s0, swaps := Init(filter, overtaking), SwapBoth(thread, c);
    SwapBothRuns(s0, thread, c);
    var s1 := Run(s0, swaps);
    OneStep(s1, SlsFail);
    var s2 := Next(s1, SlsFail);
    OneStep(s2, BeginUninstall(thread));
    RunAppend(s0, swaps, [SlsFail]);
    RunAppend(s0, swaps + [SlsFail], [BeginUninstall(thread)]);
  }

  /** How a call of `install` can end. */
  datatype Outcome = Refused | NoExporters | NoSls | Installs

  /** How it did end, by its last step. */
  function OutcomeOf(s: System, last: Action): Outcome {
    if s.state.Some? then Refused
    else match last
      case ExportFail => NoExporters
      case SlsFail => NoSls
      case _ => Installs
  }

  /** What each outcome leaves behind, on top of whatever came before. */
  ghost predicate InstallEffect(s: System, t: System, c: ResolvedConfig, o: Outcome) {
    match o
    case Refused => t.state == s.state && t.logs == s.logs && t.metrics == s.metrics && t.traces == s.traces
    case NoExporters => t.state.None? && t.logs == s.logs && t.metrics == s.metrics && t.traces == s.traces
    case NoSls =>
      && c.slsLogs != [] && t.state.None? && t.logs == s.logs
      && t.metrics == MetricLayers(c, s.installs + 1) && t.traces == TraceLayers(c, s.installs + 1)
    case Installs =>
      && t.state.Some? && t.state.value.config == c && |t.state.value.handles| == |c.slsLogs|
      && t.logs == LogLayers(c, s.installs + 1, t.state.value.handles)
      && t.metrics == MetricLayers(c, s.installs + 1) && t.traces == TraceLayers(c, s.installs + 1)
  }

  /** `install` of `c` is under way and the slots are `s`'s as far as it has not replaced them. */
  ghost predicate Installing(s: System, t: System, c: ResolvedConfig) {
    && t.state.None? && s.state.None? && t.installs == s.installs + 1
    && match t.lifecycle
       case Exporting(d) => d == c && t.logs == s.logs && t.metrics == s.metrics && t.traces == s.traces
       case SwappingMetrics(d) => d == c && t.logs == s.logs && t.traces == s.traces
       case SwappingTraces(d) => d == c && t.logs == s.logs && t.metrics == MetricLayers(c, t.installs)
       case CreatingSls(d, _) =>
         && d == c && t.logs == s.logs
         && t.metrics == MetricLayers(c, t.installs) && t.traces == TraceLayers(c, t.installs)
       case Committing(d, h) =>
         && d == c && |h| == |c.slsLogs|
         && t.logs == LogLayers(c, t.installs, h)
         && t.metrics == MetricLayers(c, t.installs) && t.traces == TraceLayers(c, t.installs)
       case _ => false
  }

  /** The steps `install` can return with. */
  predicate Returns(a: Action) {
    a.ExportFail? || a.SlsFail? || a.Commit?
  }

  lemma InstallStep(s: System, t: System, a: Action, c: ResolvedConfig)
    requires Installing(s, t, c) && Enabled(t, a)
    ensures var u := Next(t, a);
      if u.lifecycle.Idle? then InstallEffect(s, u, c, OutcomeOf(s, a)) && Returns(a) else Installing(s, u, c)
  {
    hide LogLayers, MetricLayers, TraceLayers;
    if Foreign(a) {
      ForeignStepKeepsCall(t, a);
      StaysInstalling(s, t, Next(t, a), c);
    } else if a.SwapLogs? || a.SlsOk? {
      assert Installing(s, Next(t, a), c);
    }
  }

  lemma StaysInstalling(s: System, t: System, u: System, c: ResolvedConfig)
    requires Installing(s, t, c) && u.lifecycle == t.lifecycle && u.state == t.state && u.installs == t.installs
    requires u.logs == t.logs && u.metrics == t.metrics && u.traces == t.traces
    ensures Installing(s, u, c)
  {
    hide LogLayers, MetricLayers, TraceLayers;
  }

  lemma {:induction false} InstallRuns(s: System, t: System, actions: seq<Action>, c: ResolvedConfig)
    requires Installing(s, t, c) && OneCall(t, actions) && CanRun(t, actions)
    ensures InstallEffect(s, Run(t, actions), c, OutcomeOf(s, actions[|actions| - 1]))
    ensures Returns(actions[|actions| - 1])
    decreases |actions|
  {
    hide Next, Enabled, Installing, InstallEffect, OutcomeOf, Returns;
    InstallStep(s, t, actions[0], c);
    if |actions| > 1 {
      InstallRuns(s, Next(t, actions[0]), actions[1..], c);
    }
  }

  /**
    A call of `install`, whatever came before and whatever runs meanwhile. It is refused without effect
    exactly when something is installed. Otherwise it ends in one of three ways: a failure while building
    exporters changes no slot; a failure of an SLS sink leaves the log slot and `state` as they were but
    the metric and trace slots already swapped; success makes all three slots those of the configuration.
   */
  lemma InstallOutcome(s: System, actions: seq<Action>, c: ResolvedConfig)
    requires s.lifecycle.Idle?
    requires OneCall(s, actions) && actions[0].BeginInstall? && actions[0].config == c
    ensures CanRun(s, actions)
    ensures InstallEffect(s, Run(s, actions), c, OutcomeOf(s, actions[|actions| - 1]))
    ensures s.state.None? ==> Returns(actions[|actions| - 1])
    ensures s.state.Some? ==> |actions| == 1
  {
    hide LogLayers, MetricLayers, TraceLayers, Next, InstallEffect, Returns, Installing;
    OneCallRuns(s, actions);
    InstallBegins(s, actions[0]);
    if s.state.None? {
      assert |actions| > 1;
      InstallRuns(s, Next(s, actions[0]), actions[1..], c);
    } else {
      assert |actions| == 1;
      RefusedKeepsAll(s, c);
    }
  }

  lemma InstallBegins(s: System, a: Action)
    requires s.lifecycle.Idle? && a.BeginInstall? && Enabled(s, a)
    ensures if s.state.Some? then Next(s, a) == s
            else Installing(s, Next(s, a), a.config) && !Next(s, a).lifecycle.Idle?
  {
  }

  lemma RefusedKeepsAll(s: System, c: ResolvedConfig)
    requires s.state.Some?
    ensures InstallEffect(s, s, c, Refused)
  {
  }

  /** Shutting down when nothing is installed changes nothing, not even slots a failed install left behind. */
  lemma SecondUninstallIsIdle(s: System, actions: seq<Action>)
    requires s.lifecycle.Idle? && s.state.None?
    requires OneCall(s, actions) && actions[0].BeginUninstall?
    ensures CanRun(s, actions) && Run(s, actions) == s
  {
    assert |actions| == 1;
  }

  // ------------------------------------------------------------------ no orphans

  /** The task has a way out of its loop: it will stop without anyone holding on to it. */
  ghost predicate ExitReady(s: System, w: nat)
    requires w < |s.writers|
  {
    W.Can(s.writers[w], W.TakeShutdown, SenderAlive(s, w), HandleAlive(s, w))
  }

  /** The handles whose writers nobody has asked to stop yet. */
  function Unasked(s: System): seq<nat> {
    if s.lifecycle.Stopping? && s.lifecycle.next < |s.lifecycle.handles| then
      s.lifecycle.handles[if s.lifecycle.sent then s.lifecycle.next + 1 else s.lifecycle.next..]
    else if s.lifecycle.ResettingLogs? || s.lifecycle.ResettingMetrics? || s.lifecycle.ResettingTraces? then []
    else Held(s)
  }

  /** Where `Unasked` begins among the held handles. */
  function Skipped(s: System): nat {
    if s.lifecycle.Stopping? then if s.lifecycle.sent then s.lifecycle.next + 1 else s.lifecycle.next
    else if s.lifecycle.ResettingLogs? || s.lifecycle.ResettingMetrics? || s.lifecycle.ResettingTraces? then |Held(s)|
    else 0
  }

  lemma UnaskedIsTail(s: System)
    requires HandlesOk(s) && PhaseOk(s) && (s.state.Some? ==> s.lifecycle.Idle?)
    ensures Skipped(s) <= |Held(s)| && Unasked(s) == Held(s)[Skipped(s)..]
  {
    hide Live, Asked, Stopped;
  }

  lemma HeldPhases(s: System, i: nat)
    requires HandlesOk(s) && PhaseOk(s) && (s.state.Some? ==> s.lifecycle.Idle?) && i < |Held(s)|
    ensures var w := s.writers[Held(s)[i]];
      if i < Skipped(s) then Asked(w) || Stopped(w) else Live(w)
  {
    hide Live, Asked, Stopped, Increasing;
  }

  /** A writer still in its loop that was told to stop has the message waiting. */
  lemma AskedHasExit(w: W.Writer, senders: bool, handle: bool)
    requires W.Inv(w) && (Asked(w) || Stopped(w))
    ensures w.signalled && (w.pc.Selecting? ==> W.Can(w, W.TakeShutdown, senders, handle))
  {
  }

  lemma LiveHasNoSignal(w: W.Writer)
    requires W.Inv(w) && Live(w)
    ensures W.Looping(w.pc) && !w.signalled && !w.signal
  {
  }

  /**
    No orphans, in every reachable state. The writers that still have a sender and were never asked to stop
    are exactly those of the handles nobody has used yet, in the order of their sinks, and they cannot
    leave their loop. A held writer that was asked can leave it. A writer whose handle is gone, left by an
    install that failed on a later sink or by an earlier uninstall, has no sender either, and can leave it.
   */
  lemma NoOrphanWriters(s: System, w: nat)
    requires Reachable(s) && w < |s.writers|
    ensures Increasing(Unasked(s)) && |Unasked(s)| == |Held(s)| - Skipped(s)
    ensures forall i :: 0 <= i < |Unasked(s)| ==> Unasked(s)[i] == Held(s)[Skipped(s) + i]
    ensures Serve(s.writers, Held(s), HeldSinks(s))
    ensures w in Unasked(s) <==> !s.writers[w].signalled && SenderAlive(s, w)
    ensures w in Unasked(s) ==> W.Looping(s.writers[w].pc) && !ExitReady(s, w)
    ensures w in Unasked(s) ==> !W.Can(s.writers[w], W.RecvClosed, SenderAlive(s, w), HandleAlive(s, w))
    ensures w in Held(s) && w !in Unasked(s) ==>
              s.writers[w].signalled && (s.writers[w].pc.Selecting? ==> ExitReady(s, w))
    ensures w !in Held(s) ==> !SenderAlive(s, w) && (s.writers[w].pc.Selecting? ==> ExitReady(s, w))
  {
    hide Inv, Reachable, Unasked, Skipped, SenderAlive, ExitReady, W.Looping;
    ReachableInv(s);
    UnaskedAreHeld(s);
    if w in Held(s) {
      var i :| 0 <= i < |Held(s)| && Held(s)[i] == w;
      HeldWriter(s, i);
    } else {
      LostWriter(s, w);
    }
  }

  lemma LostWriter(s: System, w: nat)
    requires Inv(s) && w < |s.writers| && w !in Held(s)
    ensures !SenderAlive(s, w) && (s.writers[w].pc.Selecting? ==> ExitReady(s, w))
  {
    hide SenderAlive, WritersOk, HandlesOk, SlotsOk, FanoutsOk, LocksOk, PhaseOk;
    SendersAreHeld(s, w);
  }

  lemma UnaskedAreHeld(s: System)
    requires Inv(s)
    ensures Increasing(Unasked(s)) && |Unasked(s)| == |Held(s)| - Skipped(s)
    ensures Serve(s.writers, Held(s), HeldSinks(s))
    ensures forall j :: 0 <= j < |Unasked(s)| ==> Unasked(s)[j] == Held(s)[Skipped(s) + j]
  {
    hide WritersOk, FanoutsOk, LocksOk, LogLayers, MetricLayers, TraceLayers, Held, Unasked, Skipped, PhaseOk, Serve;
    UnaskedIsTail(s);
  }

  /** An index among the held handles is one among those not asked yet exactly in their tail. */
  lemma HeldPlace(s: System, i: nat)
    requires Inv(s) && i < |Held(s)|
    ensures Held(s)[i] in Unasked(s) <==> i >= Skipped(s)
  {
    hide WritersOk, SlotsOk, FanoutsOk, LocksOk, PhaseOk, Held, Unasked, Skipped;
    UnaskedAreHeld(s);
    var skipped := Skipped(s);
    if i < skipped {
      forall j | 0 <= j < |Unasked(s)| ensures Unasked(s)[j] != Held(s)[i] {
        IncreasingDistinct(Held(s), i, skipped + j);
      }
    } else {
      assert Unasked(s)[i - skipped] == Held(s)[i];
    }
  }

  lemma HeldWriter(s: System, i: nat)
    requires Inv(s) && i < |Held(s)|
    ensures var w := Held(s)[i];
      && w < |s.writers|
      && if w in Unasked(s) then
           && !s.writers[w].signalled && SenderAlive(s, w) && W.Looping(s.writers[w].pc) && !ExitReady(s, w)
           && !W.Can(s.writers[w], W.RecvClosed, SenderAlive(s, w), HandleAlive(s, w))
         else s.writers[w].signalled && (s.writers[w].pc.Selecting? ==> ExitReady(s, w))
  {
    hide W.Inv, W.Looping, SenderAlive, FanoutsOk, LocksOk, PhaseOk, Live, Asked, Stopped, Held, Unasked, Skipped;
    hide LogLayers, MetricLayers, TraceLayers;
    var w := Held(s)[i];
    HeldPhases(s, i);
    HeldPlace(s, i);
    UnaskedAreHeld(s);
    assert W.Inv(s.writers[w]);
    if w in Unasked(s) {
      LiveHasNoSignal(s.writers[w]);
      UnaskedHasSender(s, w);
    } else {
      AskedHasExit(s.writers[w], SenderAlive(s, w), HandleAlive(s, w));
    }
  }

  lemma UnaskedHasSender(s: System, w: nat)
    requires Inv(s) && w in Unasked(s)
    ensures SenderAlive(s, w) && HandleAlive(s, w)
  {
    hide WritersOk, HandlesOk, SlotsOk, FanoutsOk, LocksOk, PhaseOk, SenderAlive;
    UnaskedAreHeld(s);
    SendersAreHeld(s, w);
    var j :| 0 <= j < |Unasked(s)| && Unasked(s)[j] == w;
    assert Held(s)[Skipped(s) + j] == w;
  }

  /** The channel of a sink in the log slot never closes under its writer, nor is its handle dropped. */
  lemma InstalledQueueStaysOpen(s: System, w: nat)
    requires Reachable(s) && w < |s.writers| && InSlot(s.logs, w)
    ensures !W.Can(s.writers[w], W.RecvClosed, SenderAlive(s, w), HandleAlive(s, w))
    ensures HandleAlive(s, w)
  {
    hide InSlot;
    ReachableInv(s);
    SendersAreHeld(s, w);
  }

  // ------------------------------------------------------------- deadlock freedom

  /** The next step of a thread that is inside an event. */
  function ServeFanout(s: System, o: Owner): Action
    requires o in s.fanouts
  {
    if s.fanouts[o].Asking? then Enter(o)
    else if s.fanouts[o].remaining != [] then Deliver(o, 0)
    else Finish(o)
  }

  /** The next step of a writer that has been asked to stop; `fails` is the result of its puts. */
  function ServeWriter(s: System, w: nat, fails: bool): Action
    requires w < |s.writers|
  {
    match s.writers[w].pc
    case Selecting => Write(w, W.TakeShutdown, "")
    case Draining => Write(w, if s.writers[w].queue == [] then W.TryRecvEmpty else W.TryRecv, "")
    case Flushing(_) => Write(w, W.Drain, "")
    case Sending(_) => Write(w, W.Put, "")
    case Awaiting(_) => Write(w, if fails then W.PutErr else W.PutOk, "")
    case Warning(_) => if Task(w) in s.fanouts then ServeFanout(s, Task(w)) else Write(w, W.WarnDone, "")
    case Finishing => Write(w, W.SendDone, "")
    case _ => Write(w, W.Return, "")
  }

  /** A thread that holds the read lock of the slot to be replaced. */
  ghost predicate Reads(s: System, o: Owner) {
    o in s.fanouts && s.fanouts[o].Inside? && s.fanouts[o].slot == Target(s.lifecycle)
  }

  /** Something that brings `replace` forward, done by the caller or by a reader it waits for. */
  ghost predicate HelpsReplace(s: System, a: Action) {
    match s.lock
    case Unlocked => a == RequestLock
    case Requested =>
      if Vacant(s.fanouts, Target(s.lifecycle)) then a == TakeLock
      else exists o :: Reads(s, o) && a == ServeFanout(s, o)
    case Locked => a == SwapAction(s.lifecycle)
  }

  /** Something that brings the call in progress forward, done by its own thread or by one it waits for. */
  ghost predicate Helps(s: System, a: Action) {
    if Replacing(s.lifecycle) then HelpsReplace(s, a)
    else match s.lifecycle
      case Idle => false
      case CreatingSls(c, handles) => a == SlsOk || a == SlsFail
      case Stopping(_, handles, next, sent) =>
        next < |handles| && handles[next] < |s.writers| &&
        if !sent then a == SignalNext
        else if s.writers[handles[next]].done then a == AwaitNext
        else exists fails :: a == ServeWriter(s, handles[next], fails)
      case Committing(_, _) => a == Commit
      case _ => a == ExportOk || a == ExportFail
  }

  /**
    Nobody waits for `done` while holding a layers lock: the caller that does has no write lock, asks for
    none, and is inside no event that would hold a read lock. So no writer it waits for is kept out of a slot.
   */
  lemma DoneIsAwaitedUnlocked(s: System, slot: Slot)
    requires Reachable(s) && s.lifecycle.Stopping? && s.lifecycle.sent
    ensures s.lock.Unlocked? && App(s.caller) !in s.fanouts && !KeptOut(s, slot)
  {
    hide WritersOk, HandlesOk, SlotsOk, FanoutsOk, PhaseOk, Reachable;
    ReachableInv(s);
  }

  /**
    Readers and `replace` exclude each other: a thread or task inside a slot still has before it only layers
    the slot has now, the last ones, in order, and meanwhile nobody holds that slot's write lock. So no layer
    takes an event after it was replaced.
   */
  lemma ReadersAndReplaceExclude(s: System, o: Owner)
    requires Reachable(s) && o in s.fanouts && s.fanouts[o].Inside?
    ensures var f, l := s.fanouts[o], s.lifecycle;
      match f.slot
      case LogSlot =>
        && IsEndOf(f.remaining, s.logs)
        && !(s.lock.Locked? && (l.CreatingSls? || l.ResettingLogs?))
      case MetricSlot =>
        && IsEndOf(f.remaining, s.metrics)
        && !(s.lock.Locked? && (l.SwappingMetrics? || l.ResettingMetrics?))
      case TraceSlot =>
        && IsEndOf(f.remaining, s.traces)
        && !(s.lock.Locked? && (l.SwappingTraces? || l.ResettingTraces?))
  {
    hide WritersOk, HandlesOk, SlotsOk, PhaseOk, Reachable, IsEndOf;
    ReachableInv(s);
    assert FanoutOk(s, o);
  }

  lemma AskedCanStop(s: System, w: nat)
    requires Inv(s) && w < |s.writers| && Asked(s.writers[w]) && !s.writers[w].done
    ensures !s.writers[w].pc.Exited? && (s.writers[w].pc.Selecting? ==> ExitReady(s, w))
  {
    hide HandlesOk, SlotsOk, FanoutsOk, LocksOk, PhaseOk;
    assert W.Inv(s.writers[w]);
  }

  /**
    A writer outside `select!`, or inside it with a way out, has its next step enabled, or its own event has,
    unless that event is kept waiting for a lock.
   */
  lemma WriterServed(s: System, w: nat, fails: bool)
    requires w < |s.writers| && !s.writers[w].pc.Exited?
    requires s.writers[w].pc.Selecting? ==> ExitReady(s, w)
    requires Task(w) in s.fanouts && s.fanouts[Task(w)].Asking? ==> !KeptOut(s, s.fanouts[Task(w)].slot)
    ensures Enabled(s, ServeWriter(s, w, fails))
  {
    hide SenderAlive, HandleAlive;
  }

  lemma ReplaceNeverStuck(s: System) returns (a: Action)
    requires LocksOk(s) && Replacing(s.lifecycle)
    ensures Enabled(s, a) && HelpsReplace(s, a) && !a.Begin? && !a.BeginInstall? && !a.BeginUninstall?
  {
    match s.lock {
      case Unlocked => a := RequestLock;
      case Requested =>
        if Vacant(s.fanouts, Target(s.lifecycle)) {
          a := TakeLock;
        } else {
          var o :| o in s.fanouts && !(s.fanouts[o].Asking? || s.fanouts[o].slot != Target(s.lifecycle));
          a := ServeFanout(s, o);
          assert Reads(s, o);
        }
      case Locked => a := SwapAction(s.lifecycle);
    }
  }

  lemma StoppingNeverStuck(s: System) returns (a: Action)
    requires Inv(s) && s.lifecycle.Stopping?
    ensures Enabled(s, a) && Helps(s, a) && !a.Begin? && !a.BeginInstall? && !a.BeginUninstall?
  {
    hide WritersOk, HandlesOk, SlotsOk, FanoutsOk, PhaseOk, Next, Asked;
    CallIsWellPlaced(s);
    var l := s.lifecycle;
    if !l.sent {
      a := SignalNext;
    } else if s.writers[l.handles[l.next]].done {
      a := AwaitNext;
    } else {
      AskedCanStop(s, l.handles[l.next]);
      WriterServed(s, l.handles[l.next], true);
      a := ServeWriter(s, l.handles[l.next], true);
    }
  }

  /**
    No deadlock. A call never waits for something that cannot happen: in every reachable state with
    `state` locked, its own next step is enabled, or one of the writer or of a reader it waits for is,
    and none of these needs the lock on `state`.
   */
  lemma CallNeverStuck(s: System) returns (a: Action)
    requires Reachable(s) && !s.lifecycle.Idle?
    ensures Enabled(s, a) && Helps(s, a) && !a.Begin? && !a.BeginInstall? && !a.BeginUninstall?
  {
    hide WritersOk, HandlesOk, SlotsOk, FanoutsOk, PhaseOk, LocksOk, Next, HelpsReplace, Reachable;
    ReachableInv(s);
    CallIsWellPlaced(s);
    if Replacing(s.lifecycle) {
      a := ReplaceNeverStuck(s);
    } else if s.lifecycle.Stopping? {
      a := StoppingNeverStuck(s);
    } else {
      a := match s.lifecycle
        case Exporting(_) => ExportOk
        case CreatingSls(_, _) => SlsOk
        case _ => Commit;
    }
  }

  /** No step is the start of a new event or of another call. */
  ghost predicate Quiet(actions: seq<Action>) {
    forall i :: 0 <= i < |actions| ==>
      !actions[i].Begin? && !actions[i].BeginInstall? && !actions[i].BeginUninstall?
  }

  /** A step of some thread other than the one inside `install` or `uninstall`. */
  predicate Foreign(a: Action) {
    a.Begin? || a.Enter? || a.Deliver? || a.Finish? || a.Write?
  }

  ghost predicate AllForeign(actions: seq<Action>) {
    forall i :: 0 <= i < |actions| ==> Foreign(actions[i])
  }

  /** Every put that ends in these steps fails, or every one succeeds. */
  ghost predicate Results(actions: seq<Action>, fails: bool) {
    forall i :: 0 <= i < |actions| && actions[i].Write? ==>
      (actions[i].act.PutOk? ==> !fails) && (actions[i].act.PutErr? ==> fails)
  }

  /** No writer takes a step of its own. */
  ghost predicate NoWrites(actions: seq<Action>) {
    forall i :: 0 <= i < |actions| ==> !actions[i].Write?
  }

  /** What other threads do on their own: no new event or call, and puts that all end alike. */
  ghost predicate Calm(actions: seq<Action>, fails: bool) {
    Quiet(actions) && AllForeign(actions) && Results(actions, fails)
  }

  lemma ForeignStepKeepsCall(s: System, a: Action)
    requires Enabled(s, a) && Foreign(a)
    ensures var t := Next(s, a);
      && t.lifecycle == s.lifecycle && t.state == s.state && t.caller == s.caller && t.lock == s.lock
      && t.logs == s.logs && t.metrics == s.metrics && t.traces == s.traces && |t.writers| == |s.writers|
      && t.installs == s.installs
  {
    hide W.Do, W.Can, SenderAlive, HandleAlive;
  }

  lemma {:induction false} ForeignKeepsCall(s: System, actions: seq<Action>)
    requires CanRun(s, actions) && AllForeign(actions)
    ensures var t := Run(s, actions);
      && t.lifecycle == s.lifecycle && t.state == s.state && t.caller == s.caller && t.lock == s.lock
      && t.logs == s.logs && t.metrics == s.metrics && t.traces == s.traces && |t.writers| == |s.writers|
      && t.installs == s.installs
    decreases |actions|
  {
    hide Next, Enabled;
    if actions != [] {
      ForeignStepKeepsCall(s, actions[0]);
      ForeignKeepsCall(Next(s, actions[0]), actions[1..]);
    }
  }

  // ---- readers leave their slot

  /** A reader inside a slot leaves it in one step a layer. */
  lemma {:induction false} ReaderCanLeave(s: System, o: Owner) returns (actions: seq<Action>)
    requires Inv(s) && o in s.fanouts && s.fanouts[o].Inside?
    ensures CanRun(s, actions) && Quiet(actions) && AllForeign(actions) && NoWrites(actions)
    ensures var t := Run(s, actions);
      Inv(t) && t.lifecycle == s.lifecycle && t.fanouts == LeaveSlot(s.fanouts, o, s.fanouts[o])
    decreases |s.fanouts[o].remaining|
  {
    hide Inv, OnEvent, Deliveries;
    var a := ServeFanout(s, o);
    NextKeepsInv(s, a);
    var rest: seq<Action> := [];
    if a.Deliver? {
      rest := ReaderCanLeave(Next(s, a), o);
    }
    actions := [a] + rest;
    Prepend(s, a, rest);
  }

  ghost function Readers(fanouts: map<Owner, Fanout>, slot: Slot): set<Owner> {
    set o | o in fanouts && fanouts[o].Inside? && fanouts[o].slot == slot
  }

  lemma LeavingLeavesOne(fanouts: map<Owner, Fanout>, o: Owner, slot: Slot)
    requires o in Readers(fanouts, slot)
    ensures Readers(LeaveSlot(fanouts, o, fanouts[o]), slot) == Readers(fanouts, slot) - {o}
    ensures LeaveSlot(fanouts, o, fanouts[o]).Keys <= fanouts.Keys
  {
  }

  /** All readers of a slot can leave it, without a new event and without anyone else's help. */
  lemma {:induction false} SlotCanEmpty(s: System, slot: Slot) returns (actions: seq<Action>)
    requires Inv(s)
    ensures CanRun(s, actions) && Quiet(actions) && AllForeign(actions) && NoWrites(actions)
    ensures var t := Run(s, actions);
      Inv(t) && t.lifecycle == s.lifecycle && Vacant(t.fanouts, slot) && t.fanouts.Keys <= s.fanouts.Keys
    decreases |Readers(s.fanouts, slot)|
  {
    hide Inv, Next, Enabled, LeaveSlot;
    if o :| o in Readers(s.fanouts, slot) {
      var first := ReaderCanLeave(s, o);
      var t := Run(s, first);
      LeavingLeavesOne(s.fanouts, o, slot);
      assert |Readers(t.fanouts, slot)| < |Readers(s.fanouts, slot)|;
      var rest := SlotCanEmpty(t, slot);
      RunAppend(s, first, rest);
      actions := first + rest;
    } else {
      assert forall o :: o in s.fanouts && s.fanouts[o].Inside? && s.fanouts[o].slot == slot ==>
          o in Readers(s.fanouts, slot);
      actions := [];
    }
  }

  // ---- a call comes to the end of a `replace`

  /** A `replace` that has asked for its lock gets it and is done with it. */
  lemma ReplaceCanFinish(s: System) returns (actions: seq<Action>)
    requires Inv(s) && Replacing(s.lifecycle) && !s.lock.Unlocked?
    ensures CanRun(s, actions) && Quiet(actions) && NoWrites(actions)
    ensures var t := Run(s, actions); Inv(t) && t.lock.Unlocked? && t.fanouts.Keys <= s.fanouts.Keys
  {
    hide Inv, CanRun, Run;
    var empty := SlotCanEmpty(s, Target(s.lifecycle));
    ForeignKeepsCall(s, empty);
    var t := Run(s, empty);
    var swap := SwapAction(s.lifecycle);
    var own := if t.lock.Requested? then [TakeLock, swap] else [swap];
    SwapUnlocks(t);
    RunAppend(s, empty, own);
    actions := empty + own;
  }

  lemma SwapUnlocks(s: System)
    requires Inv(s) && Replacing(s.lifecycle) && !s.lock.Unlocked? && Vacant(s.fanouts, Target(s.lifecycle))
    ensures var own := if s.lock.Requested? then [TakeLock, SwapAction(s.lifecycle)] else [SwapAction(s.lifecycle)];
      CanRun(s, own) && Inv(Run(s, own)) && Run(s, own).lock.Unlocked? && Run(s, own).fanouts == s.fanouts
  {
    hide Inv, LogLayers, MetricLayers, TraceLayers;
    var t := if s.lock.Requested? then Next(s, TakeLock) else s;
    var swap := SwapAction(s.lifecycle);
    if s.lock.Requested? {
      NextKeepsInv(s, TakeLock);
    }
    NextKeepsInv(t, swap);
    OneStep(t, swap);
    if s.lock.Requested? {
      Prepend(s, TakeLock, [swap]);
      assert [TakeLock] + [swap] == [TakeLock, swap];
    }
  }

  // ---- a thread comes to the end of its event

  /** How many times the thread still takes or gives back a read lock. */
  function Legs(f: Fanout): nat {
    (if f.slot.LogSlot? then 4 else if f.slot.MetricSlot? then 2 else 0) + if f.Asking? then 2 else 1
  }

  function LayersLeft(f: Fanout): nat {
    if f.Asking? then 0 else |f.remaining|
  }

  lemma ServingAdvances(s: System, o: Owner)
    requires o in s.fanouts && Enabled(s, ServeFanout(s, o))
    ensures var t, f := Next(s, ServeFanout(s, o)), s.fanouts[o];
      && t.lock == s.lock && t.lifecycle == s.lifecycle
      && (o in t.fanouts ==>
            Legs(t.fanouts[o]) < Legs(f) || (Legs(t.fanouts[o]) == Legs(f) && LayersLeft(t.fanouts[o]) < LayersLeft(f)))
  {
    hide OnEvent;
  }

  /** With no lock in its way a thread passes through all three slots. */
  lemma {:induction false} ThreadRunsThrough(s: System, o: Owner) returns (actions: seq<Action>)
    requires Inv(s) && o in s.fanouts && s.lock.Unlocked?
    ensures CanRun(s, actions) && Quiet(actions) && AllForeign(actions) && NoWrites(actions)
    ensures Inv(Run(s, actions)) && o !in Run(s, actions).fanouts
    decreases Legs(s.fanouts[o]), LayersLeft(s.fanouts[o])
  {
    hide Inv, Next, Legs, LayersLeft;
    var a := ServeFanout(s, o);
    ServingAdvances(s, o);
    NextKeepsInv(s, a);
    var rest: seq<Action> := [];
    if o in Next(s, a).fanouts {
      rest := ThreadRunsThrough(Next(s, a), o);
    }
    actions := [a] + rest;
    Prepend(s, a, rest);
  }

  /**
    No producer and no reporting writer is ever blocked for good: from every reachable state a thread
    inside an event can come to its end, with no new event and no new call. If a `replace` keeps it
    waiting, the readers inside the slot and then the caller move out of its way first, whether readers
    may overtake a waiting writer or not. This is of threads that hold one read lock at a time: a layer that
    takes its own slot's lock again inside a callback is not part of the model.
   */
  lemma ThreadCanFinish(s: System, o: Owner) returns (actions: seq<Action>)
    requires Reachable(s) && o in s.fanouts
    ensures CanRun(s, actions) && Quiet(actions) && NoWrites(actions)
    ensures o !in Run(s, actions).fanouts
  {
    hide Inv, CanRun, Run, Reachable;
    ReachableInv(s);
    actions := [];
    if !s.lock.Unlocked? {
      assert Replacing(s.lifecycle) by { LockedIsReplacing(s); }
      actions := ReplaceCanFinish(s);
    } else {
      assert CanRun(s, []) && Run(s, []) == s by { NoSteps(s); }
    }
    var t := Run(s, actions);
    if o in t.fanouts {
      var rest := ThreadRunsThrough(t, o);
      RunAppend(s, actions, rest);
      actions := actions + rest;
    }
  }

  /** A thread outside any event, and outside the call in progress, can emit any event and come to its end. */
  lemma AnyThreadCanEmit(s: System, thread: nat, ev: Event) returns (actions: seq<Action>)
    requires Reachable(s) && App(thread) !in s.fanouts && (s.lifecycle.Idle? || thread != s.caller)
    ensures CanRun(s, [Begin(thread, ev)] + actions) && Quiet(actions) && NoWrites(actions)
    ensures App(thread) !in Run(s, [Begin(thread, ev)] + actions).fanouts
  {
    hide Inv, CanRun, Run, Reachable;
    var a := Begin(thread, ev);
    var t := Next(s, a);
    OneStep(s, a);
    ReachableRun(s, [a]);
    if App(thread) in t.fanouts {
      actions := ThreadCanFinish(t, App(thread));
    } else {
      actions := [];
      NoSteps(t);
    }
    Prepend(s, a, actions);
  }

  lemma ActKeepsPc(w: W.Writer, a: W.Act)
    requires a.Offer? || a.Signal?
    ensures W.Do(w, a).pc == w.pc
  {
  }

  lemma QuietStepKeepsPc(s: System, a: Action, w: nat)
    requires Enabled(s, a) && !a.Write? && w < |s.writers|
    ensures w < |Next(s, a).writers| && Next(s, a).writers[w].pc == s.writers[w].pc
  {
    hide W.Do, EntryOf, LogLayers, MetricLayers, TraceLayers;
    if a.Deliver? {
      var f := s.fanouts[a.owner];
      var layer := f.remaining[0];
      if f.slot.LogSlot? && layer.Sls? && layer.writer < |s.writers| {
        ActKeepsPc(s.writers[layer.writer], W.Offer(EntryOf(f.event, layer.service, a.seconds)));
      }
    } else if a.SignalNext? {
      ActKeepsPc(s.writers[w], W.Signal);
    }
  }

  lemma {:induction false} NoWritesKeepPc(s: System, actions: seq<Action>, w: nat)
    requires CanRun(s, actions) && NoWrites(actions) && w < |s.writers|
    ensures w < |Run(s, actions).writers| && Run(s, actions).writers[w].pc == s.writers[w].pc
    decreases |actions|
  {
    hide Next, Enabled;
    if actions != [] {
      QuietStepKeepsPc(s, actions[0], w);
      NoWritesKeepPc(Next(s, actions[0]), actions[1..], w);
    }
  }

  /**
    No writer is ever blocked for good outside `select!`: from every reachable state its next step is
    enabled, at the latest once its own warning has come to its end, which needs no other writer's help.
   */
  lemma WriterNeverStuck(s: System, w: nat, fails: bool) returns (actions: seq<Action>)
    requires Reachable(s) && w < |s.writers| && !s.writers[w].pc.Selecting? && !s.writers[w].pc.Exited?
    ensures CanRun(s, actions) && Quiet(actions) && NoWrites(actions)
    ensures var t := Run(s, actions);
      && w < |t.writers| && t.writers[w].pc == s.writers[w].pc
      && ServeWriter(t, w, fails).Write? && Enabled(t, ServeWriter(t, w, fails))
  {
    hide Inv, CanRun, Run, Reachable;
    if Task(w) in s.fanouts {
      actions := ThreadCanFinish(s, Task(w));
    } else {
      actions := [];
      NoSteps(s);
    }
    NoWritesKeepPc(s, actions, w);
    WriterServed(Run(s, actions), w, fails);
  }

  lemma NoSteps(s: System)
    ensures CanRun(s, []) && Run(s, []) == s
  {
  }

  lemma LockedIsReplacing(s: System)
    requires Inv(s) && !s.lock.Unlocked?
    ensures Replacing(s.lifecycle)
  {
    hide WritersOk, HandlesOk, SlotsOk, FanoutsOk, PhaseOk;
  }

  // ---- a writer sends `done`

  /** How far the writer the call waits for is from `done`. */
  function PhasesLeft(pc: W.Pc): nat {
    match pc
    case Flushing(c) => if W.Sealed(pc) then 6 else 12
    case Sending(c) => if W.Sealed(pc) then 5 else 11
    case Awaiting(c) => if W.Sealed(pc) then 4 else 10
    case Warning(c) => if W.Sealed(pc) then 3 else 9
    case Selecting => 8
    case Draining => 7
    case Finishing => 2
    case _ => 0
  }

  function LegsLeft(s: System, w: nat): nat
    requires w < |s.writers|
  {
    if s.writers[w].pc.Warning? && Task(w) in s.fanouts then Legs(s.fanouts[Task(w)]) else 0
  }

  function StepsInPhase(s: System, w: nat): nat
    requires w < |s.writers|
  {
    match s.writers[w].pc
    case Draining => |s.writers[w].queue|
    case Warning(_) => if Task(w) in s.fanouts then LayersLeft(s.fanouts[Task(w)]) else 0
    case _ => 0
  }

  /** The writer waited for sends `done` by its own steps, and that even if every put fails. */
  lemma {:induction false} WriterCanFinish(s: System, fails: bool) returns (actions: seq<Action>)
    requires Inv(s) && s.lifecycle.Stopping? && s.lifecycle.sent
    ensures CanRun(s, actions) && Calm(actions, fails)
    ensures var t := Run(s, actions);
      Inv(t) && t.lifecycle == s.lifecycle && t.writers[s.lifecycle.handles[s.lifecycle.next]].done
    decreases PhasesLeft(s.writers[s.lifecycle.handles[s.lifecycle.next]].pc),
              LegsLeft(s, s.lifecycle.handles[s.lifecycle.next]),
              StepsInPhase(s, s.lifecycle.handles[s.lifecycle.next])
  {
    hide WritersOk, HandlesOk, SlotsOk, FanoutsOk, PhaseOk, Next, Enabled, Asked, PhasesLeft, LegsLeft, StepsInPhase;
    CallIsWellPlaced(s);
    var w := s.lifecycle.handles[s.lifecycle.next];
    if s.writers[w].done {
      actions := [];
    } else {
      var a := ServeWriter(s, w, fails);
      AskedCanStop(s, w);
      WriterServed(s, w, fails);
      NextKeepsInv(s, a);
      ServingDescends(s, w, fails);
      var rest := WriterCanFinish(Next(s, a), fails);
      actions := [a] + rest;
      Prepend(s, a, rest);
    }
  }

  /** A step of one writer or one thread, seen from the writer `w` that is waited for. */
  lemma OwnStepDescends(v: W.Writer, a: W.Act)
    requires W.Own(a) && W.Inv(v) && Asked(v) && !v.done && W.Can(v, a, true, true)
    requires !a.Tick? && !a.Recv?
    ensures
      || PhasesLeft(W.Do(v, a).pc) < PhasesLeft(v.pc)
      || (a.TryRecv? && W.Do(v, a).pc == v.pc && |W.Do(v, a).queue| < |v.queue|)
  {
  }

  /** The writer's own phase goes down, or the locks left in it, or the steps left in it. */
  ghost predicate Descends(s: System, t: System, w: nat)
    requires w < |s.writers|
  {
    && t.lifecycle == s.lifecycle && w < |t.writers|
    && (|| PhasesLeft(t.writers[w].pc) < PhasesLeft(s.writers[w].pc)
        || (&& PhasesLeft(t.writers[w].pc) == PhasesLeft(s.writers[w].pc)
            && (|| LegsLeft(t, w) < LegsLeft(s, w)
                || (LegsLeft(t, w) == LegsLeft(s, w) && StepsInPhase(t, w) < StepsInPhase(s, w)))))
  }

  lemma ReportingDescends(s: System, w: nat)
    requires WritersOk(s) && w < |s.writers| && s.writers[w].pc.Warning? && Task(w) in s.fanouts
    requires Enabled(s, ServeFanout(s, Task(w)))
    ensures Descends(s, Next(s, ServeFanout(s, Task(w))), w)
  {
    hide W.Inv, OnEvent, Advances, Live, PhasesLeft, Legs, LayersLeft;
    var a := ServeFanout(s, Task(w));
    ServingAdvances(s, Task(w));
    if a.Deliver? {
      var f := s.fanouts[a.owner];
      OnEventAdvances(s.writers, f.remaining[0], f.event, a.seconds);
    }
    assert Next(s, a).writers[w].pc == s.writers[w].pc;
    ReportingLeaves(s, a, w);
  }

  /** A thread whose event is over has no lock left to take. */
  lemma ReportingLeaves(s: System, a: Action, w: nat)
    requires w < |s.writers| && Task(w) in s.fanouts && s.writers[w].pc.Warning?
    ensures LegsLeft(s, w) > 0
  {
  }

  lemma WorkingDescends(s: System, w: nat, a: W.Act)
    requires WritersOk(s) && w < |s.writers| && Asked(s.writers[w]) && !s.writers[w].done
    requires Enabled(s, Write(w, a, "")) && W.Can(s.writers[w], a, true, true) && !a.Tick? && !a.Recv?
    ensures Descends(s, Next(s, Write(w, a, "")), w)
  {
    hide W.Inv, W.Do, W.Can, Asked, PhasesLeft, SenderAlive, HandleAlive;
    OwnStepDescends(s.writers[w], a);
    var t := Next(s, Write(w, a, ""));
    assert t.writers[w] == W.Do(s.writers[w], a);
    if a.TryRecv? {
      assert s.writers[w].pc.Draining? by { TryRecvDrains(s.writers[w]); }
    }
  }

  lemma TryRecvDrains(w: W.Writer)
    requires W.Can(w, W.TryRecv, true, true)
    ensures w.pc.Draining?
  {
  }

  lemma ServingDescends(s: System, w: nat, fails: bool)
    requires Inv(s) && w < |s.writers| && Asked(s.writers[w]) && !s.writers[w].done
    requires Enabled(s, ServeWriter(s, w, fails))
    ensures Descends(s, Next(s, ServeWriter(s, w, fails)), w)
  {
    hide HandlesOk, SlotsOk, FanoutsOk, LocksOk, PhaseOk, W.Inv, W.Do, Descends;
    var a := ServeWriter(s, w, fails);
    if a.Write? {
      assert s.writers[w].pc.Selecting? ==> s.writers[w].signal;
      WorkingDescends(s, w, a.act);
    } else {
      ReportingDescends(s, w);
    }
  }

  // ---- `uninstall` returns

  function CallsLeft(s: System): nat {
    var lock := if s.lock.Unlocked? then 2 else if s.lock.Requested? then 1 else 0;
    match s.lifecycle
    case Stopping(_, handles, next, sent) =>
      if next < |handles| then 2 * (|handles| - next) + 12 - (if sent then 1 else 0) else 12
    case ResettingLogs(_, _) => 8 + lock
    case ResettingMetrics(_, _) => 5 + lock
    case ResettingTraces(_, _) => 2 + lock
    case _ => 0
  }

  /** The step of `uninstall` itself that comes next, once what it waits for has happened. */
  function OwnStepOf(s: System): Action {
    if s.lifecycle.Stopping? then if s.lifecycle.sent then AwaitNext else SignalNext
    else match s.lock
      case Unlocked => RequestLock
      case Requested => TakeLock
      case Locked => SwapAction(s.lifecycle)
  }

  lemma OwnStepAdvances(s: System)
    requires Inv(s) && InUninstall(s.lifecycle)
    requires s.lifecycle.Stopping? && s.lifecycle.sent ==> s.writers[s.lifecycle.handles[s.lifecycle.next]].done
    requires s.lock.Requested? ==> Vacant(s.fanouts, Target(s.lifecycle))
    ensures Enabled(s, OwnStepOf(s))
    ensures var t := Next(s, OwnStepOf(s));
      t.lifecycle.Idle? || (InUninstall(t.lifecycle) && CallsLeft(t) < CallsLeft(s))
  {
    hide WritersOk, HandlesOk, SlotsOk, FanoutsOk, PhaseOk;
    CallIsWellPlaced(s);
  }

  /** What the next step of `uninstall` waits for can be brought about by the threads it waits for. */
  lemma WaitCanEnd(s: System, fails: bool) returns (actions: seq<Action>)
    requires Inv(s) && InUninstall(s.lifecycle)
    ensures CanRun(s, actions) && Calm(actions, fails)
    ensures var t := Run(s, actions);
      && Inv(t) && t.lifecycle == s.lifecycle && t.lock == s.lock
      && (s.lifecycle.Stopping? && s.lifecycle.sent ==> t.writers[s.lifecycle.handles[s.lifecycle.next]].done)
      && (s.lock.Requested? ==> Vacant(t.fanouts, Target(t.lifecycle)))
  {
    hide WritersOk, HandlesOk, SlotsOk, FanoutsOk, PhaseOk, CanRun, Run, Vacant;
    if s.lifecycle.Stopping? && s.lifecycle.sent {
      actions := WriterCanFinish(s, fails);
      ForeignKeepsCall(s, actions);
    } else if s.lock.Requested? {
      actions := SlotCanEmpty(s, Target(s.lifecycle));
      ForeignKeepsCall(s, actions);
    } else {
      actions := [];
      NoSteps(s);
    }
  }

  /**
    From every reachable state inside `uninstall` the call can be brought to its end by itself, the writers
    and the events already under way alone: no producer is needed, and no successful put.
   */
  lemma {:induction false} UninstallCanReturn(s: System, fails: bool) returns (actions: seq<Action>)
    requires Inv(s) && InUninstall(s.lifecycle)
    ensures CanRun(s, actions) && Quiet(actions) && Results(actions, fails)
    ensures Run(s, actions).lifecycle.Idle?
    decreases CallsLeft(s)
  {
    hide Inv, Next, Enabled, CanRun, Run, CallsLeft, Vacant;
    var wait := WaitCanEnd(s, fails);
    var t := Run(s, wait);
    assert CallsLeft(t) == CallsLeft(s) by { SameCallsLeft(s, t); }
    var a := OwnStepOf(t);
    OwnStepAdvances(t);
    NextKeepsInv(t, a);
    var rest: seq<Action> := [];
    if Next(t, a).lifecycle.Idle? {
      NoSteps(Next(t, a));
    } else {
      rest := UninstallCanReturn(Next(t, a), fails);
    }
    Prepend(t, a, rest);
    RunAppend(s, wait, [a] + rest);
    actions := wait + ([a] + rest);
  }

  lemma SameCallsLeft(s: System, t: System)
    requires t.lifecycle == s.lifecycle && t.lock == s.lock
    ensures CallsLeft(t) == CallsLeft(s) && InstallLeft(t) == InstallLeft(s)
  {
  }

  // ---- `install` returns

  predicate InInstall(l: Lifecycle) {
    l.Exporting? || l.SwappingMetrics? || l.SwappingTraces? || l.CreatingSls? || l.Committing?
  }

  /** How many steps of its own `install` still takes when nothing fails. */
  function InstallLeft(s: System): nat {
    var lock := if s.lock.Unlocked? then 2 else if s.lock.Requested? then 1 else 0;
    match s.lifecycle
    case Exporting(c) => |c.slsLogs| + 12
    case SwappingMetrics(c) => |c.slsLogs| + 8 + lock
    case SwappingTraces(c) => |c.slsLogs| + 5 + lock
    case CreatingSls(c, handles) => (if |handles| <= |c.slsLogs| then |c.slsLogs| - |handles| else 0) + 2 + lock
    case Committing(_, _) => 1
    case _ => 0
  }

  /** The step of `install` itself that comes next, once the readers it waits for have left. */
  function InstallStepOf(s: System): Action {
    if Replacing(s.lifecycle) then
      match s.lock
      case Unlocked => RequestLock
      case Requested => TakeLock
      case Locked => SwapAction(s.lifecycle)
    else match s.lifecycle
      case Exporting(_) => ExportOk
      case CreatingSls(_, _) => SlsOk
      case _ => Commit
  }

  lemma InstallStepAdvances(s: System)
    requires Inv(s) && InInstall(s.lifecycle)
    requires s.lock.Requested? ==> Vacant(s.fanouts, Target(s.lifecycle))
    ensures Enabled(s, InstallStepOf(s))
    ensures var t := Next(s, InstallStepOf(s));
      if t.lifecycle.Idle? then t.state.Some? else InInstall(t.lifecycle) && InstallLeft(t) < InstallLeft(s)
  {
    hide WritersOk, HandlesOk, SlotsOk, FanoutsOk, PhaseOk;
    CallIsWellPlaced(s);
  }

  /**
    From every reachable state inside `install` the call can be brought to its end, and that to a success if
    everything it still has to create can be created, by itself and the readers inside a slot alone: no
    writer, no producer and no other call is needed.
   */
  lemma {:induction false} InstallCanReturn(s: System) returns (actions: seq<Action>)
    requires Inv(s) && InInstall(s.lifecycle)
    ensures CanRun(s, actions) && Quiet(actions) && NoWrites(actions)
    ensures Run(s, actions).lifecycle.Idle? && Run(s, actions).state.Some?
    decreases InstallLeft(s)
  {
    hide Inv, Next, Enabled, CanRun, Run, InstallLeft, Vacant;
    var wait: seq<Action> := [];
    if s.lock.Requested? {
      wait := SlotCanEmpty(s, Target(s.lifecycle));
      ForeignKeepsCall(s, wait);
    } else {
      NoSteps(s);
    }
    var t := Run(s, wait);
    SameCallsLeft(s, t);
    var a := InstallStepOf(t);
    InstallStepAdvances(t);
    NextKeepsInv(t, a);
    var rest: seq<Action> := [];
    if Next(t, a).lifecycle.Idle? {
      NoSteps(Next(t, a));
    } else {
      rest := InstallCanReturn(Next(t, a));
    }
    Prepend(t, a, rest);
    RunAppend(s, wait, [a] + rest);
    actions := wait + ([a] + rest);
  }

  // ---- a failing install

  /** A call that has not returned yet. */
  ghost predicate InCall(s: System, actions: seq<Action>)
    decreases |actions|
  {
    actions == [] ||
    (Enabled(s, actions[0]) && !Next(s, actions[0]).lifecycle.Idle? && InCall(Next(s, actions[0]), actions[1..]))
  }

  lemma {:induction false} InCallRuns(s: System, actions: seq<Action>)
    requires InCall(s, actions)
    ensures CanRun(s, actions)
    decreases |actions|
  {
    hide Next, Enabled;
    if actions != [] { InCallRuns(Next(s, actions[0]), actions[1..]); }
  }

  lemma {:induction false} InCallAppend(s: System, a: seq<Action>, b: seq<Action>)
    requires InCall(s, a) && CanRun(s, a) && InCall(Run(s, a), b)
    ensures InCall(s, a + b)
    decreases |a|
  {
    hide Next, Enabled;
    if a == [] {
      assert a + b == b;
    } else {
      assert (a + b)[1..] == a[1..] + b;
      InCallAppend(Next(s, a[0]), a[1..], b);
    }
  }

  lemma {:induction false} CallReturns(s: System, actions: seq<Action>, a: Action)
    requires InCall(s, actions) && CanRun(s, actions)
    requires Enabled(Run(s, actions), a) && Next(Run(s, actions), a).lifecycle.Idle?
    ensures OneCall(s, actions + [a]) && CanRun(s, actions + [a])
    ensures Run(s, actions + [a]) == Next(Run(s, actions), a)
    decreases |actions|
  {
    hide Next, Enabled;
    if actions == [] {
      assert actions + [a] == [a] && [a][1..] == [];
    } else {
      assert (actions + [a])[1..] == actions[1..] + [a];
      CallReturns(Next(s, actions[0]), actions[1..], a);
    }
  }

  lemma {:induction false} ForeignStepsStayInCall(s: System, actions: seq<Action>)
    requires CanRun(s, actions) && AllForeign(actions) && !s.lifecycle.Idle?
    ensures InCall(s, actions)
    decreases |actions|
  {
    hide Next, Enabled;
    if actions != [] {
      ForeignStepKeepsCall(s, actions[0]);
      ForeignStepsStayInCall(Next(s, actions[0]), actions[1..]);
    }
  }

  /** Two parts of one call that has not returned. */
  lemma InCallThen(s: System, a: seq<Action>, b: seq<Action>)
    requires InCall(s, a) && CanRun(s, a) && InCall(Run(s, a), b)
    ensures InCall(s, a + b) && CanRun(s, a + b) && CanRun(Run(s, a), b) && Run(s, a + b) == Run(Run(s, a), b)
  {
    hide InCall, CanRun, Run;
    InCallRuns(Run(s, a), b);
    InCallAppend(s, a, b);
    RunAppend(s, a, b);
  }

  lemma InCallStep(s: System, a: Action)
    requires Enabled(s, a) && !Next(s, a).lifecycle.Idle?
    ensures InCall(s, [a]) && CanRun(s, [a]) && Run(s, [a]) == Next(s, a)
  {
    hide Next, Enabled;
    assert [a][1..] == [];
  }

  /** The caller comes to hold the write lock of the slot it is about to replace. */
  lemma CanLock(s: System) returns (actions: seq<Action>)
    requires Inv(s) && Replacing(s.lifecycle) && s.lock.Unlocked?
    ensures InCall(s, actions) && CanRun(s, actions)
    ensures var t := Run(s, actions);
      && Inv(t) && t.lock.Locked? && t.lifecycle == s.lifecycle && t.state == s.state && t.installs == s.installs
      && t.logs == s.logs && t.metrics == s.metrics && t.traces == s.traces
  {
    hide Inv, InCall, CanRun, Run;
    var s1 := Next(s, RequestLock);
    NextKeepsInv(s, RequestLock);
    InCallStep(s, RequestLock);
    var empty := SlotCanEmpty(s1, Target(s1.lifecycle));
    ForeignKeepsCall(s1, empty);
    ForeignStepsStayInCall(s1, empty);
    InCallThen(s, [RequestLock], empty);
    var s2 := Run(s1, empty);
    NextKeepsInv(s2, TakeLock);
    InCallStep(s2, TakeLock);
    InCallThen(s, [RequestLock] + empty, [TakeLock]);
    actions := [RequestLock] + empty + [TakeLock];
  }

  /** `replace` of the metric or trace slot inside `install`, with its readers leaving first. */
  lemma CanSwap(s: System) returns (actions: seq<Action>)
    requires Inv(s) && (s.lifecycle.SwappingMetrics? || s.lifecycle.SwappingTraces?) && s.lock.Unlocked?
    ensures InCall(s, actions) && CanRun(s, actions)
    ensures var t, c := Run(s, actions), s.lifecycle.config;
      && Inv(t) && t.lock.Unlocked? && t.state == s.state && t.logs == s.logs && t.installs == s.installs
      && if s.lifecycle.SwappingMetrics? then
           t.lifecycle == SwappingTraces(c) && t.metrics == MetricLayers(c, s.installs) && t.traces == s.traces
         else t.lifecycle == CreatingSls(c, []) && t.metrics == s.metrics && t.traces == TraceLayers(c, s.installs)
  {
    hide Inv, InCall, CanRun, Run, MetricLayers, TraceLayers, LogLayers;
    var lock := CanLock(s);
    var t, swap := Run(s, lock), SwapAction(s.lifecycle);
    NextKeepsInv(t, swap);
    InCallStep(t, swap);
    InCallThen(s, lock, [swap]);
    actions := lock + [swap];
  }

  /** `install` builds its exporters. */
  lemma CanExport(s: System, thread: nat, c: ResolvedConfig)
    requires Inv(s) && s.lifecycle.Idle? && s.state.None? && App(thread) !in s.fanouts
    ensures var actions := [BeginInstall(thread, c), ExportOk];
      && InCall(s, actions) && CanRun(s, actions) && Inv(Run(s, actions))
      && Run(s, actions) == s.(installs := s.installs + 1, caller := thread, lifecycle := SwappingMetrics(c))
  {
    hide Inv, InCall, CanRun, Run;
    var first := BeginInstall(thread, c);
    NextKeepsInv(s, first);
    InCallStep(s, first);
    NextKeepsInv(Next(s, first), ExportOk);
    InCallStep(Next(s, first), ExportOk);
    InCallThen(s, [first], [ExportOk]);
    assert [first] + [ExportOk] == [first, ExportOk];
  }

  /** From between two calls `install` can come to the SLS sinks. */
  lemma InstallReachesSinks(s: System, thread: nat, c: ResolvedConfig) returns (actions: seq<Action>)
    requires Inv(s) && s.lifecycle.Idle? && s.state.None? && App(thread) !in s.fanouts
    ensures InCall(s, actions) && CanRun(s, actions) && |actions| > 0 && actions[0] == BeginInstall(thread, c)
    ensures var t := Run(s, actions);
      && t.lifecycle == CreatingSls(c, []) && t.state.None? && t.logs == s.logs
      && t.metrics == MetricLayers(c, s.installs + 1) && t.traces == TraceLayers(c, s.installs + 1)
  {
    hide Inv, InCall, CanRun, Run, MetricLayers, TraceLayers, LogLayers, Next, Enabled;
    var first := [BeginInstall(thread, c), ExportOk];
    IdleIsUnlocked(s);
    CanExport(s, thread, c);
    var s1 := Run(s, first);
    var metrics := CanSwap(s1);
    InCallThen(s, first, metrics);
    var s2 := Run(s1, metrics);
    var traces := CanSwap(s2);
    InCallThen(s, first + metrics, traces);
    actions := first + metrics + traces;
  }

  lemma IdleIsUnlocked(s: System)
    requires Inv(s) && s.lifecycle.Idle?
    ensures s.lock.Unlocked?
  {
    hide WritersOk, HandlesOk, SlotsOk, FanoutsOk, PhaseOk;
  }

  /** A call of `install` that ends with nothing installed. */
  ghost predicate FailedInstall(s: System, actions: seq<Action>, thread: nat, c: ResolvedConfig) {
    && OneCall(s, actions) && actions[0] == BeginInstall(thread, c)
    && CanRun(s, actions) && Run(s, actions).state.None?
  }

  /** However `install` of this configuration fails, the metric and trace slots are what they were. */
  ghost predicate FailsClean(s: System, thread: nat, c: ResolvedConfig) {
    forall actions :: FailedInstall(s, actions, thread, c) ==>
      Run(s, actions).metrics == s.metrics && Run(s, actions).traces == s.traces
  }

  /**
    Exactly when a failing `install` leaves no trace: when the configuration has no SLS sink that could
    fail, or when there is nothing to swap, neither in the slots nor in the configuration. Layers of an
    earlier failed install are replaced even by those of the same configuration, which are new ones over
    new providers.
   */
  lemma FailsCleanExactly(s: System, thread: nat, c: ResolvedConfig)
    requires Reachable(s) && s.lifecycle.Idle? && s.state.None? && App(thread) !in s.fanouts
    ensures FailsClean(s, thread, c) <==>
              c.slsLogs == [] || (c.metrics == [] && c.traces == [] && s.metrics == s.traces == [])
  {
    hide Inv, InCall, OneCall, CanRun, Run, MetricLayers, TraceLayers, LogLayers, Reachable, LeftBehind, RestKept;
    ReachableInv(s);
    assert LeftBehind(s.metrics, s.traces, s.installs) by { SlotsFollowState(s); }
    NewLayersDiffer(s, c);
    var same := MetricLayers(c, s.installs + 1) == s.metrics && TraceLayers(c, s.installs + 1) == s.traces;
    if c.slsLogs == [] || same {
      forall actions | FailedInstall(s, actions, thread, c)
        ensures Run(s, actions).metrics == s.metrics && Run(s, actions).traces == s.traces
      {
        assert OneCall(s, actions) ==> |actions| > 0 by { OneCallIsSome(s, actions); }
        InstallOutcome(s, actions, c);
      }
    } else {
      var swaps := InstallReachesSinks(s, thread, c);
      CallReturns(s, swaps, SlsFail);
      assert FailedInstall(s, swaps + [SlsFail], thread, c) by {
        assert (swaps + [SlsFail])[0] == swaps[0];
      }
    }
  }

  lemma OneCallIsSome(s: System, actions: seq<Action>)
    requires OneCall(s, actions)
    ensures |actions| > 0
  {
  }

  /** The layers of the next install are none of those that earlier ones left, unless there are none at all. */
  lemma NewLayersDiffer(s: System, c: ResolvedConfig)
    requires LeftBehind(s.metrics, s.traces, s.installs)
    ensures MetricLayers(c, s.installs + 1) == s.metrics && TraceLayers(c, s.installs + 1) == s.traces <==>
              c.metrics == [] && c.traces == [] && s.metrics == s.traces == []
  {
    var metrics, traces := MetricLayers(c, s.installs + 1), TraceLayers(c, s.installs + 1);
    assert (metrics == [] <==> c.metrics == []) && (traces == [] <==> c.traces == []);
    assert metrics != [] ==> metrics[0].install == s.installs + 1;
    assert traces != [] ==> traces[0].install == s.installs + 1;
    assert s.metrics != [] ==> s.metrics[0].MetricLayer? && s.metrics[0].install <= s.installs;
    assert s.traces != [] ==> s.traces[0].TraceLayer? && s.traces[0].install <= s.installs;
  }
}
