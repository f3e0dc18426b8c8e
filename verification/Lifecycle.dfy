/**
  `install` and `uninstall` as code over the global: the three slots, `state` and the handles' two
  channels, updated in place. Each method also plays its part in the transition system, step by
  step, with the other threads taking any steps of theirs in between, so what holds of every run
  holds of these calls.
 */
module Lifecycle {
  import opened Prelude
  import opened SlsRecord
  import opened Config
  import opened Pipeline
  import opened Guarantees
  import W = SlsWriter

  /** What the other threads do when they get to run: any of their steps, as far as these are possible. */
  ghost predicate Schedules(others: System -> seq<Action>) {
    forall s :: CanRun(s, others(s)) && AllForeign(others(s))
  }

  /** The writers a shutdown message was sent to. */
  ghost function Signalled(writers: seq<W.Writer>): set<nat> {
    set w: nat | w < |writers| && writers[w].signalled
  }

  /** These are the sinks the writers were created for. */
  ghost predicate SinksOf(sinks: seq<SlsLogSink>, writers: seq<W.Writer>) {
    |sinks| == |writers| && forall w :: 0 <= w < |sinks| ==> writers[w].sink == sinks[w]
  }

  lemma SinksCounted(sinks: seq<SlsLogSink>, writers: seq<W.Writer>)
    requires SinksOf(sinks, writers)
    ensures |sinks| == |writers|
  {
  }

  lemma ActKeepsFlags(w: W.Writer, a: W.Act)
    requires !a.Signal?
    ensures W.Do(w, a).signalled == w.signalled && (w.done ==> W.Do(w, a).done) && W.Do(w, a).sink == w.sink
  {
  }

  lemma ForeignStepKeepsFlags(s: System, a: Action)
    requires Enabled(s, a) && Foreign(a)
    ensures |Next(s, a).writers| == |s.writers|
    ensures forall w :: 0 <= w < |s.writers| ==>
              && Next(s, a).writers[w].signalled == s.writers[w].signalled
              && (s.writers[w].done ==> Next(s, a).writers[w].done)
              && Next(s, a).writers[w].sink == s.writers[w].sink
  {
    hide W.Do, W.Can, SenderAlive, HandleAlive, EntryOf;
    if a.Write? {
      ActKeepsFlags(s.writers[a.writer], a.act);
    } else if a.Deliver? {
      var f := s.fanouts[a.owner];
      var layer := f.remaining[0];
      if f.slot.LogSlot? && layer.Sls? && layer.writer < |s.writers| {
        ActKeepsFlags(s.writers[layer.writer], W.Offer(EntryOf(f.event, layer.service, a.seconds)));
      }
    }
  }

  lemma {:induction false} ForeignKeepsFlags(
      s: System, actions: seq<Action>, ended: seq<nat>, sinks: seq<SlsLogSink>)
    requires CanRun(s, actions) && AllForeign(actions) && AllDone(s.writers, ended) && SinksOf(sinks, s.writers)
    ensures Signalled(Run(s, actions).writers) == Signalled(s.writers)
    ensures AllDone(Run(s, actions).writers, ended) && SinksOf(sinks, Run(s, actions).writers)
    decreases |actions|
  {
    hide Next, Enabled;
    if actions != [] {
      ForeignStepKeepsFlags(s, actions[0]);
      assert Signalled(Next(s, actions[0]).writers) == Signalled(s.writers);
      ForeignKeepsFlags(Next(s, actions[0]), actions[1..], ended, sinks);
    }
  }

  /** Only two steps of a call concern the writers. */
  predicate KeepsWriters(a: Action) {
    !Foreign(a) && !a.SlsOk? && !a.SignalNext?
  }

  lemma CallStepKeepsWriters(s: System, a: Action)
    requires Enabled(s, a) && KeepsWriters(a)
    ensures Next(s, a).writers == s.writers
  {
  }

  lemma SignalAddsOne(s: System, h: nat)
    requires Enabled(s, SignalNext) && h == s.lifecycle.handles[s.lifecycle.next] && h < |s.writers|
    ensures Signalled(Next(s, SignalNext).writers) == Signalled(s.writers) + {h}
    ensures forall ended :: AllDone(s.writers, ended) ==> AllDone(Next(s, SignalNext).writers, ended)
    ensures forall sinks :: SinksOf(sinks, s.writers) ==> SinksOf(sinks, Next(s, SignalNext).writers)
  {
  }

  lemma SlsOkAddsFresh(s: System)
    requires Enabled(s, SlsOk)
    ensures Signalled(Next(s, SlsOk).writers) == Signalled(s.writers)
    ensures forall ended :: AllDone(s.writers, ended) ==> AllDone(Next(s, SlsOk).writers, ended)
    ensures forall sinks :: SinksOf(sinks, s.writers) ==>
              SinksOf(sinks + [s.lifecycle.config.slsLogs[|s.lifecycle.handles|]], Next(s, SlsOk).writers)
  {
  }

  class Global {
    var logs: seq<Layer>
    var metrics: seq<Layer>
    var traces: seq<Layer>
    var state: Option<Installed>
    var installs: nat                    // installs so far that were not refused; their number is their layers'
    var sinks: seq<SlsLogSink>           // the sink of each writer spawned so far, by the writer's number
    var asked: set<nat>                  // writers whose shutdown channel was sent to
    var taken: seq<nat>                  // handles whose `done_rx` was taken, and waited for
    ghost var system: System
    ghost var entry: System              // where the latest call began
    ghost var call: seq<Action>          // everything that has happened since

    /** The fields are those of the transition system, which the call has brought here. */
    ghost predicate Tied()
      reads this
    {
      && logs == system.logs && metrics == system.metrics && traces == system.traces
      && state == system.state && installs == system.installs && SinksOf(sinks, system.writers)
      && asked == Signalled(system.writers) && AllDone(system.writers, taken)
      && Reachable(entry) && CanRun(entry, call) && system == Run(entry, call)
    }

    ghost predicate Valid()
      reads this
    {
      Tied() && Reachable(system) && system.lifecycle.Idle?
    }

    /** Inside a call, with the lock on `state`. */
    ghost predicate Within()
      reads this
    {
      Tied() && InCall(entry, call) && !system.lifecycle.Idle?
    }

    /** Inside a call and without any slot's lock. */
    ghost predicate Calling()
      reads this
    {
      Within() && system.lock.Unlocked?
    }

    /** `init_default` */
    constructor (ghost filter: (string, Level) -> bool, ghost overtaking: bool)
      ensures Valid() && system == Init(filter, overtaking)
      ensures state.None? && logs == DEFAULT_LOGS && metrics == traces == [] && asked == {} && taken == []
    {
      logs, metrics, traces, state, installs, sinks := DEFAULT_LOGS, [], [], None, 0, [];
      asked, taken := {}, [];
      system, entry, call := Init(filter, overtaking), Init(filter, overtaking), [];
      new;
      NoSteps(Init(filter, overtaking));
    }

    /** The call starts with this step. */
    ghost method Enter(a: Action)
      requires Valid() && Enabled(system, a) && !Next(system, a).lifecycle.Idle? && KeepsWriters(a)
      modifies this`system, this`entry, this`call
      ensures system == Next(old(system), a) && entry == old(system) && call == [a]
      ensures system.writers == old(system).writers
      ensures Reachable(entry) && InCall(entry, call) && CanRun(entry, call) && system == Run(entry, call)
    {
      hide InCall, CanRun, Run, Reachable;
      InCallStep(system, a);
      CallStepKeepsWriters(system, a);
      entry, call := system, [a];
      system := Next(system, a);
    }

    /** The next step of the call itself. */
    ghost method Step(a: Action)
      requires Reachable(entry) && InCall(entry, call) && CanRun(entry, call) && system == Run(entry, call)
      requires Enabled(system, a) && !Next(system, a).lifecycle.Idle?
      modifies this`system, this`call
      ensures system == Next(old(system), a) && old(call) <= call
      ensures KeepsWriters(a) ==> system.writers == old(system).writers
      ensures InCall(entry, call) && CanRun(entry, call) && system == Run(entry, call)
    {
      hide InCall, CanRun, Run, Reachable;
      InCallStep(system, a);
      InCallThen(entry, call, [a]);
      if KeepsWriters(a) {
        CallStepKeepsWriters(system, a);
      }
      call := call + [a];
      system := Next(system, a);
    }

    /** The step the call returns with. */
    ghost method Exit(a: Action)
      requires Reachable(entry) && InCall(entry, call) && CanRun(entry, call) && system == Run(entry, call)
      requires Enabled(system, a) && Next(system, a).lifecycle.Idle? && KeepsWriters(a)
      modifies this`system, this`call
      ensures system == Next(old(system), a) && old(call) <= call
      ensures system.writers == old(system).writers
      ensures OneCall(entry, call) && CanRun(entry, call) && system == Run(entry, call) && Reachable(system)
    {
      hide InCall, CanRun, Run, Reachable;
      CallReturns(entry, call, a);
      CallStepKeepsWriters(system, a);
      call := call + [a];
      system := Next(system, a);
      ReachableRun(entry, call);
    }

    /** Other threads take these steps. */
    ghost method Others(actions: seq<Action>)
      requires Within() && CanRun(system, actions) && AllForeign(actions)
      modifies this`system, this`call
      ensures Within() && system.lifecycle == old(system).lifecycle && system.lock == old(system).lock
      ensures old(call) <= call && system == Run(old(system), actions)
    {
      hide InCall, CanRun, Run, Reachable, AllDone, Signalled, SinksOf;
      ForeignKeepsCall(system, actions);
      ForeignKeepsFlags(system, actions, taken, sinks);
      ForeignStepsStayInCall(system, actions);
      InCallThen(entry, call, actions);
      call := call + actions;
      system := Run(system, actions);
    }

    /** Other threads run for a while. */
    ghost method LetOthersRun(others: System -> seq<Action>)
      requires Within() && Schedules(others)
      modifies this`system, this`call
      ensures Within() && system.lifecycle == old(system).lifecycle && system.lock == old(system).lock
      ensures old(call) <= call
    {
      hide InCall, CanRun, Run, Reachable;
      Others(others(system));
    }

    lemma WithinInv()
      requires Within()
      ensures Inv(system)
    {
      hide InCall, CanRun, Run, Reachable, Inv;
      ReachableRun(entry, call);
      ReachableInv(system);
    }

    /** The write lock of the slot to be replaced: asked for, and got once the readers inside have left. */
    ghost method TakeWriteLock(others: System -> seq<Action>)
      requires Calling() && Schedules(others) && Replacing(system.lifecycle)
      modifies this`system, this`call
      ensures Within() && system.lock.Locked? && system.lifecycle == old(system).lifecycle && old(call) <= call
    {
      hide InCall, CanRun, Run, Reachable, Inv, AllDone, Signalled, SinksOf, Schedules;
      Step(RequestLock);
      LetOthersRun(others);
      WithinInv();
      var leave := SlotCanEmpty(system, Target(system.lifecycle));
      Others(leave);
      Step(TakeLock);
    }

    /** The exporters of all OTLP sinks; the first one that cannot be built ends the call. */
    method BuildProviders(config: ResolvedConfig, exports: nat -> bool) returns (ok: bool)
      requires Calling() && system.lifecycle == Exporting(config) && state.None?
      modifies this`system, this`call
      ensures ok <==> Exports(config, exports)
      ensures old(call) <= call
      ensures ok ==> Calling() && system.lifecycle == SwappingMetrics(config)
      ensures !ok ==> Valid() && OneCall(entry, call)
    {
      hide InCall, CanRun, Run, Reachable, OneCall, AllDone, Signalled, SinksOf;
      for i := 0 to |config.traces| + |config.metrics| + |config.otlpLogs|
        invariant forall k: nat :: k < i ==> exports(k)
      {
        if !exports(i) {
          Exit(ExportFail);
          return false;
        }
      }
      Step(ExportOk);
      ok := true;
    }

    method ReplaceMetrics(config: ResolvedConfig, ghost others: System -> seq<Action>)
      requires Calling() && Schedules(others) && system.lifecycle == SwappingMetrics(config)
      modifies this`metrics, this`system, this`call
      ensures Calling() && system.lifecycle == SwappingTraces(config)
      ensures metrics == MetricLayers(config, installs) && old(call) <= call
    {
      hide InCall, CanRun, Run, Reachable, AllDone, Signalled, SinksOf, Schedules;
      var layers: seq<Layer> := [];
      for i := 0 to |config.metrics|
        invariant layers == MetricLayers(config, installs)[..i]
      {
        layers := layers + [MetricLayer(installs, config.metrics[i])];
      }
      TakeWriteLock(others);
      metrics := layers;
      Step(SwapMetrics);
    }

    method ReplaceTraces(config: ResolvedConfig, ghost others: System -> seq<Action>)
      requires Calling() && Schedules(others) && system.lifecycle == SwappingTraces(config)
      modifies this`traces, this`system, this`call
      ensures Calling() && system.lifecycle == CreatingSls(config, [])
      ensures traces == TraceLayers(config, installs) && old(call) <= call
    {
      hide InCall, CanRun, Run, Reachable, AllDone, Signalled, SinksOf, Schedules;
      var layers: seq<Layer> := [];
      for i := 0 to |config.traces|
        invariant layers == TraceLayers(config, installs)[..i]
      {
        layers := layers + [TraceLayer(installs, config.traces[i])];
      }
      TakeWriteLock(others);
      traces := layers;
      Step(SwapTraces);
    }

    /** The console layer and the bridges. */
    method BuildOwnLayers(config: ResolvedConfig) returns (layers: seq<Layer>)
      ensures layers == ConsoleLayers(config) + BridgeLayers(config, installs)
    {
      layers := [];
      if config.consoleOutput {
        layers := layers + [Fmt(FormatOf(config.consoleFormat))];
      }
      for i := 0 to |config.otlpLogs|
        invariant layers == ConsoleLayers(config) + BridgeLayers(config, installs)[..i]
      {
        layers := layers + [OtlpBridge(installs, config.otlpLogs[i])];
      }
    }

    /** `create_sls_log_layer`: the next writer is spawned, for the next sink. */
    method CreateSls(config: ResolvedConfig, handles: seq<nat>, ghost others: System -> seq<Action>)
      returns (layer: Layer, handle: nat)
      requires Calling() && Schedules(others) && system.lifecycle == CreatingSls(config, handles)
      requires |handles| < |config.slsLogs|
      modifies this`sinks, this`system, this`call
      ensures Calling() && system.lifecycle == CreatingSls(config, handles + [handle]) && old(call) <= call
      ensures layer == Sls(handle, config.serviceName) && handle == |old(sinks)|
      ensures sinks == old(sinks) + [config.slsLogs[|handles|]]
    {
      hide InCall, CanRun, Run, Reachable, AllDone, Signalled, SinksOf, Schedules;
      layer, handle := Sls(|sinks|, config.serviceName), |sinks|;
      SinksCounted(sinks, system.writers);
      sinks := sinks + [config.slsLogs[|handles|]];
      SlsOkAddsFresh(system);
      Step(SlsOk);
      LetOthersRun(others);
    }

    /** A sink that cannot be created ends the call. */
    ghost method FailSls(config: ResolvedConfig, handles: seq<nat>)
      requires Calling() && system.lifecycle == CreatingSls(config, handles) && |handles| < |config.slsLogs|
      modifies this`system, this`call
      ensures Valid() && OneCall(entry, call) && old(call) <= call
    {
      hide InCall, CanRun, Run, Reachable, OneCall, AllDone, Signalled, SinksOf;
      Exit(SlsFail);
    }

    /** The writer of the `i`-th handle was spawned for the `i`-th SLS sink. */
    ghost predicate Places(config: ResolvedConfig, handles: seq<nat>)
      reads this`sinks
    {
      && |handles| <= |config.slsLogs|
      && forall i :: 0 <= i < |handles| ==> handles[i] < |sinks| && sinks[handles[i]] == config.slsLogs[i]
    }

    /** The console and OTLP layers, then a writer and a layer for each SLS sink until one cannot be created. */
    method BuildLogLayers(config: ResolvedConfig, creates: nat -> bool, ghost others: System -> seq<Action>)
      returns (ok: bool, layers: seq<Layer>, handles: seq<nat>)
      requires Calling() && Schedules(others) && system.lifecycle == CreatingSls(config, []) && state.None?
      modifies this`sinks, this`system, this`call
      ensures ok <==> Creates(config, creates)
      ensures old(call) <= call
      ensures ok ==>
                && Calling() && system.lifecycle == CreatingSls(config, handles) && |handles| == |config.slsLogs|
                && layers == LogLayers(config, installs, handles) && Places(config, handles)
                && ShowsLogs(layers, config, installs, handles)
      ensures !ok ==> Valid() && OneCall(entry, call)
    {
      hide InCall, CanRun, Run, Reachable, OneCall, Schedules, Tied, LogLayers, Next, Enabled, ShowsLogs;
      hide ShowsProviders, MetricLayers, TraceLayers;
      layers := BuildOwnLayers(config);
      handles := [];
      NoSinksYet(config, installs);
      for i := 0 to |config.slsLogs|
        invariant Calling() && old(call) <= call
        invariant system.lifecycle == CreatingSls(config, handles) && |handles| == i
        invariant forall k: nat :: k < i ==> creates(k)
        invariant layers == LogLayers(config, installs, handles) && Places(config, handles)
      {
        if !creates(i) {
          FailSls(config, handles);
          ok := false;
          return;
        }
        var layer, handle := CreateSls(config, handles, others);
        OneMoreSink(config, installs, handles, handle);
        layers := layers + [layer];
        handles := handles + [handle];
      }
      SlotsSpelled(config, installs, handles);
      ok := true;
    }

    static lemma NoSinksYet(config: ResolvedConfig, n: nat)
      ensures LogLayers(config, n, []) == ConsoleLayers(config) + BridgeLayers(config, n)
    {
    }

    static lemma OneMoreSink(config: ResolvedConfig, n: nat, handles: seq<nat>, handle: nat)
      ensures LogLayers(config, n, handles + [handle]) ==
              LogLayers(config, n, handles) + [Sls(handle, config.serviceName)]
    {
      hide ConsoleLayers, BridgeLayers;
      assert SlsLayers(config, handles + [handle]) == SlsLayers(config, handles) + [Sls(handle, config.serviceName)];
    }

    /** The last stage of `install`: the log slot and `state`, unless some SLS sink cannot be created. */
    method InstallLogs(config: ResolvedConfig, creates: nat -> bool, ghost others: System -> seq<Action>)
      returns (ok: bool)
      requires Calling() && Schedules(others) && system.lifecycle == CreatingSls(config, []) && state.None?
      modifies this`logs, this`state, this`sinks, this`system, this`call
      ensures Valid() && OneCall(entry, call) && old(call) <= call
      ensures ok <==> Creates(config, creates)
      ensures !ok ==> state.None? && logs == old(logs)
      ensures ok ==> state.Some? && Holds(config, state.value)
    {
      hide InCall, CanRun, Run, Reachable, OneCall, Schedules, Creates, AllDone, Signalled, SinksOf;
      hide LogLayers, MetricLayers, TraceLayers, Next, Enabled;
      var layers, handles;
      ok, layers, handles := BuildLogLayers(config, creates, others);
      if !ok {
        return;
      }
      ReplaceLogs(config, layers, handles, others);
      LetOthersRun(others);
      SetState(config, handles);
    }

    method ReplaceLogs(
        config: ResolvedConfig, layers: seq<Layer>, handles: seq<nat>, ghost others: System -> seq<Action>)
      requires Calling() && Schedules(others) && system.lifecycle == CreatingSls(config, handles)
      requires |handles| == |config.slsLogs| && layers == LogLayers(config, installs, handles)
      modifies this`logs, this`system, this`call
      ensures Calling() && system.lifecycle == Committing(config, handles)
      ensures logs == layers && old(call) <= call
    {
      hide InCall, CanRun, Run, Reachable, Schedules, AllDone, Signalled, SinksOf, LogLayers;
      TakeWriteLock(others);
      logs := layers;
      Step(SwapLogs);
    }

    /** The last thing `install` does. */
    method SetState(config: ResolvedConfig, handles: seq<nat>)
      requires Calling() && system.lifecycle == Committing(config, handles)
      modifies this`state, this`system, this`call
      ensures Valid() && OneCall(entry, call) && old(call) <= call
      ensures state == Some(Installed(config, handles))
    {
      hide InCall, CanRun, Run, Reachable, OneCall, AllDone, Signalled, SinksOf;
      state := Some(Installed(config, handles));
      Exit(Commit);
    }

    /** The log slot is that of the configuration with these writers. */
    ghost predicate Holds(config: ResolvedConfig, installed: Installed)
      reads this`logs, this`installs, this`sinks
    {
      && installed.config == config && |installed.handles| == |config.slsLogs|
      && logs == LogLayers(config, installs, installed.handles) && Places(config, installed.handles)
    }

    lemma IdleHasNoLock()
      requires Valid()
      ensures system.lock.Unlocked?
    {
      hide CanRun, Run, Reachable, Inv;
      ReachableInv(system);
      IdleIsUnlocked(system);
    }

    method Install(
        ghost thread: nat, config: ResolvedConfig, exports: nat -> bool, creates: nat -> bool,
        ghost others: System -> seq<Action>)
      returns (ok: bool)
      requires Valid() && Schedules(others) && App(thread) !in system.fanouts
      modifies this
      ensures Valid() && entry == old(system) && OneCall(entry, call) && call[0] == BeginInstall(thread, config)
      ensures ok <==>
                && old(state).None?
                && (forall i: nat :: i < |config.traces| + |config.metrics| + |config.otlpLogs| ==> exports(i))
                && (forall i: nat :: i < |config.slsLogs| ==> creates(i))
      ensures ok ==>
                && state.Some? && state.value.config == config
                && ShowsLogs(logs, config, installs, state.value.handles)
                && |state.value.handles| == |config.slsLogs|
                && (forall i :: 0 <= i < |config.slsLogs| ==>
                      state.value.handles[i] < |sinks| && sinks[state.value.handles[i]] == config.slsLogs[i])
      ensures old(state).None? && Exports(config, exports) ==> ShowsProviders(metrics, traces, config, installs)
      ensures old(state).Some? || !Exports(config, exports) ==>
                state == old(state) && logs == old(logs) && metrics == old(metrics) && traces == old(traces)
      ensures old(state).None? && Exports(config, exports) ==>
                metrics == MetricLayers(config, installs) && traces == TraceLayers(config, installs)
      ensures installs == old(installs) + if old(state).None? then 1 else 0
      ensures old(state).None? && !ok ==> state.None? && logs == old(logs)
      ensures ok ==> state.Some? && Holds(config, state.value)
    {
      hide InCall, CanRun, Run, Reachable, OneCall, Schedules, Exports, Creates, Holds, AllDone, Signalled, SinksOf;
      hide LogLayers, MetricLayers, TraceLayers, Next, Enabled, Tied, ShowsLogs, ShowsProviders;
      if state.Some? {
        RefuseInstall(thread, config);
        return false;
      }
      EnterInstall(thread, config);
      ok := Proceed(config, exports, creates, others);
      InstallSpelled(config, exports, creates, ok);
    }

    /** The three stages. */
    method Proceed(
        config: ResolvedConfig, exports: nat -> bool, creates: nat -> bool, ghost others: System -> seq<Action>)
      returns (ok: bool)
      requires Calling() && Schedules(others) && system.lifecycle == Exporting(config) && state.None?
      modifies this`logs, this`metrics, this`traces, this`state, this`sinks, this`system, this`call
      ensures Valid() && OneCall(entry, call) && old(call) <= call
      ensures ok <==> Exports(config, exports) && Creates(config, creates)
      ensures !Exports(config, exports) ==> metrics == old(metrics) && traces == old(traces)
      ensures Exports(config, exports) ==>
                metrics == MetricLayers(config, installs) && traces == TraceLayers(config, installs)
      ensures !ok ==> state.None? && logs == old(logs)
      ensures ok ==> state.Some? && Holds(config, state.value)
    {
      hide InCall, CanRun, Run, Reachable, OneCall, Schedules, Exports, Creates, Holds, AllDone, Signalled, SinksOf;
      hide LogLayers, MetricLayers, TraceLayers, Next, Enabled;
      LetOthersRun(others);
      ok := BuildProviders(config, exports);
      if ok {
        SwapProviders(config, others);
        ok := InstallLogs(config, creates, others);
      }
    }

    /** What the names in the contract of `Install` stand for. */
    lemma InstallSpelled(config: ResolvedConfig, exports: nat -> bool, creates: nat -> bool, ok: bool)
      requires ok ==> state.Some? && Holds(config, state.value)
      ensures Exports(config, exports) <==>
                forall i: nat :: i < |config.traces| + |config.metrics| + |config.otlpLogs| ==> exports(i)
      ensures Creates(config, creates) <==> forall i: nat :: i < |config.slsLogs| ==> creates(i)
      ensures ok ==>
                && state.Some? && state.value.config == config
                && ShowsLogs(logs, config, installs, state.value.handles)
                && |state.value.handles| == |config.slsLogs|
                && (forall i :: 0 <= i < |config.slsLogs| ==>
                      state.value.handles[i] < |sinks| && sinks[state.value.handles[i]] == config.slsLogs[i])
      ensures ShowsProviders(MetricLayers(config, installs), TraceLayers(config, installs), config, installs)
    {
      hide LogLayers, MetricLayers, TraceLayers, ShowsLogs, ShowsProviders;
      SlotsSpelled(config, installs, if ok then state.value.handles else []);
    }

    method EnterInstall(ghost thread: nat, config: ResolvedConfig)
      requires Valid() && state.None? && App(thread) !in system.fanouts
      modifies this`installs, this`system, this`entry, this`call
      ensures installs == old(installs) + 1
      ensures Calling() && system.lifecycle == Exporting(config)
      ensures entry == old(system) && call == [BeginInstall(thread, config)]
    {
      hide InCall, CanRun, Run, Reachable, AllDone, Signalled, SinksOf;
      IdleHasNoLock();
      Enter(BeginInstall(thread, config));
      installs := installs + 1;
    }

    ghost method RefuseInstall(thread: nat, config: ResolvedConfig)
      requires Valid() && state.Some? && App(thread) !in system.fanouts
      modifies this`entry, this`call
      ensures Valid() && entry == old(system) && call == [BeginInstall(thread, config)] && OneCall(entry, call)
      ensures system == old(system)
    {
      hide CanRun, Run, Reachable, OneCall, AllDone, Signalled, SinksOf;
      EnterAndReturn(BeginInstall(thread, config));
    }

    method SwapProviders(config: ResolvedConfig, ghost others: System -> seq<Action>)
      requires Calling() && Schedules(others) && system.lifecycle == SwappingMetrics(config)
      modifies this`metrics, this`traces, this`system, this`call
      ensures Calling() && system.lifecycle == CreatingSls(config, []) && old(call) <= call
      ensures metrics == MetricLayers(config, installs) && traces == TraceLayers(config, installs)
    {
      hide InCall, CanRun, Run, Reachable, Schedules, AllDone, Signalled, SinksOf;
      LetOthersRun(others);
      ReplaceMetrics(config, others);
      LetOthersRun(others);
      ReplaceTraces(config, others);
      LetOthersRun(others);
    }

    ghost predicate Exports(config: ResolvedConfig, exports: nat -> bool) {
      forall i: nat :: i < |config.traces| + |config.metrics| + |config.otlpLogs| ==> exports(i)
    }

    ghost predicate Creates(config: ResolvedConfig, creates: nat -> bool) {
      forall i: nat :: i < |config.slsLogs| ==> creates(i)
    }

    /** A call that returns at once and changes nothing. */
    ghost method EnterAndReturn(a: Action)
      requires Valid() && Enabled(system, a) && Next(system, a) == system
      modifies this`entry, this`call
      ensures Valid() && entry == old(system) && call == [a] && OneCall(entry, call) && system == old(system)
    {
      hide Reachable, AllDone, Signalled, SinksOf;
      OneStep(system, a);
      entry, call := system, [a];
    }

    /** The writer the call waits for comes to its `done`, with the other threads running first. */
    ghost method AwaitDone(others: System -> seq<Action>, fails: bool)
      requires Calling() && Schedules(others) && system.lifecycle.Stopping? && system.lifecycle.sent
      modifies this`system, this`call
      ensures Calling() && system.lifecycle == old(system).lifecycle && old(call) <= call
      ensures var l := system.lifecycle;
        && l.Stopping? && l.next < |l.handles| && l.handles[l.next] < |system.writers|
        && system.writers[l.handles[l.next]].done
    {
      hide InCall, CanRun, Run, Reachable, Inv, AllDone, Signalled, SinksOf, Schedules;
      LetOthersRun(others);
      WithinInv();
      var stop := WriterCanFinish(system, fails);
      CallIsWellPlaced(system);
      Others(stop);
      WithinInv();
      CallIsWellPlaced(system);
    }

    /** The call is about to use handle `h`. */
    ghost predicate AtHandle(h: nat, sent: bool)
      reads this
    {
      var l := system.lifecycle;
      Calling() && l.Stopping? && l.sent == sent && l.next < |l.handles| && l.handles[l.next] == h
    }

    /** `shutdown_tx.try_send(())` */
    method TrySend(h: nat)
      requires AtHandle(h, false)
      modifies this`asked, this`system, this`call
      ensures AtHandle(h, true) && system.lifecycle == old(system).lifecycle.(sent := true) && old(call) <= call
      ensures asked == old(asked) + {h}
    {
      hide InCall, CanRun, Run, Reachable, Inv, Signalled, AllDone;
      WithinInv();
      CallIsWellPlaced(system);
      SignalAddsOne(system, h);
      asked := asked + {h};
      Step(SignalNext);
    }

    /** The wait is over, and the loop goes on to the next handle. */
    ghost method GoOn(h: nat)
      requires AtHandle(h, true) && h in taken
      modifies this`system, this`call
      ensures Calling() && old(call) <= call
      ensures var l := old(system).lifecycle; system.lifecycle == StopFrom(l.config, l.handles, l.next + 1)
    {
      hide InCall, CanRun, Run, Reachable, Signalled;
      Step(AwaitNext);
    }

    /**
      `flush_and_shutdown` of the handle the loop is at: the message, and the wait for `done` unless its
      receiver was taken before.
     */
    method FlushAndShutdown(h: nat, ghost others: System -> seq<Action>, ghost fails: bool)
      requires AtHandle(h, false) && Schedules(others)
      modifies this`asked, this`taken, this`system, this`call
      ensures Calling() && old(call) <= call
      ensures var l := old(system).lifecycle; system.lifecycle == StopFrom(l.config, l.handles, l.next + 1)
      ensures asked == old(asked) + {h} && taken == old(taken) + if h in old(taken) then [] else [h]
    {
      hide InCall, CanRun, Run, Reachable, Signalled, Schedules, Next, Enabled;
      LetOthersRun(others);
      TrySend(h);
      if h !in taken {
        AwaitDone(others, fails);
        taken := taken + [h];
      }
      GoOn(h);
    }

    /** The loop of `uninstall` over the handles. */
    method FlushAll(installed: Installed, ghost others: System -> seq<Action>, ghost fails: bool)
      requires Calling() && Schedules(others)
      requires system.lifecycle == StopFrom(installed.config, installed.handles, 0)
      modifies this`asked, this`taken, this`system, this`call
      ensures Calling() && old(call) <= call
      ensures system.lifecycle == ResettingLogs(installed.config, installed.handles)
      ensures forall i :: 0 <= i < |installed.handles| ==>
                installed.handles[i] in asked && installed.handles[i] in taken
    {
      hide InCall, CanRun, Run, Reachable, Schedules, Next, Signalled, AllDone;
      for k := 0 to |installed.handles|
        invariant Calling() && old(call) <= call
        invariant system.lifecycle == StopFrom(installed.config, installed.handles, k)
        invariant forall i :: 0 <= i < k ==> installed.handles[i] in asked && installed.handles[i] in taken
      {
        FlushAndShutdown(installed.handles[k], others, fails);
      }
    }

    /** The end of `uninstall`: the three slots go back to what they were at first. */
    method ResetSlots(ghost others: System -> seq<Action>)
      requires Calling() && Schedules(others) && system.lifecycle.ResettingLogs? && state.None?
      modifies this`logs, this`metrics, this`traces, this`system, this`call
      ensures Valid() && OneCall(entry, call) && old(call) <= call
      ensures logs == DEFAULT_LOGS && metrics == traces == []
    {
      hide InCall, CanRun, Run, Reachable, OneCall, Schedules, AllDone, Signalled, SinksOf, Next, Enabled;
      ResetLogSlot(others);
      LetOthersRun(others);
      ResetMetricSlot(others);
      LetOthersRun(others);
      ResetTraceSlot(others);
    }

    method ResetLogSlot(ghost others: System -> seq<Action>)
      requires Calling() && Schedules(others) && system.lifecycle.ResettingLogs?
      modifies this`logs, this`system, this`call
      ensures Calling() && system.lifecycle.ResettingMetrics? && logs == DEFAULT_LOGS && old(call) <= call
    {
      hide InCall, CanRun, Run, Reachable, Schedules, AllDone, Signalled, SinksOf;
      TakeWriteLock(others);
      logs := DEFAULT_LOGS;
      Step(ResetLogs);
    }

    method ResetMetricSlot(ghost others: System -> seq<Action>)
      requires Calling() && Schedules(others) && system.lifecycle.ResettingMetrics?
      modifies this`metrics, this`system, this`call
      ensures Calling() && system.lifecycle.ResettingTraces? && metrics == [] && old(call) <= call
    {
      hide InCall, CanRun, Run, Reachable, Schedules, AllDone, Signalled, SinksOf;
      TakeWriteLock(others);
      metrics := [];
      Step(ResetMetrics);
    }

    method ResetTraceSlot(ghost others: System -> seq<Action>)
      requires Calling() && Schedules(others) && system.lifecycle.ResettingTraces?
      modifies this`traces, this`system, this`call
      ensures Valid() && OneCall(entry, call) && traces == [] && old(call) <= call
    {
      hide InCall, CanRun, Run, Reachable, OneCall, Schedules, AllDone, Signalled, SinksOf;
      TakeWriteLock(others);
      traces := [];
      Exit(ResetTraces);
    }

    ghost method SkipUninstall(thread: nat)
      requires Valid() && state.None? && App(thread) !in system.fanouts
      modifies this`entry, this`call
      ensures Valid() && entry == old(system) && call == [BeginUninstall(thread)] && OneCall(entry, call)
      ensures system == old(system)
    {
      hide CanRun, Run, Reachable, OneCall, AllDone, Signalled, SinksOf;
      EnterAndReturn(BeginUninstall(thread));
    }

    /** `guard.take()` */
    method TakeState(ghost thread: nat) returns (installed: Installed)
      requires Valid() && state.Some? && App(thread) !in system.fanouts
      modifies this`state, this`system, this`entry, this`call
      ensures Calling() && system.lifecycle == StopFrom(installed.config, installed.handles, 0)
      ensures state.None? && installed == old(state).value
      ensures entry == old(system) && call == [BeginUninstall(thread)]
    {
      hide InCall, CanRun, Run, Reachable, AllDone, Signalled, SinksOf;
      IdleHasNoLock();
      installed := state.value;
      Enter(BeginUninstall(thread));
      state := None;
    }

    /**
      `uninstall`. Every handle is told to stop and waited for, and whatever the other threads do
      meanwhile, on return every sink's groups cover what its queue had accepted before the call.
     */
    method Uninstall(ghost thread: nat, ghost others: System -> seq<Action>, ghost fails: bool)
      requires Valid() && Schedules(others) && App(thread) !in system.fanouts
      modifies this
      ensures Valid() && entry == old(system) && OneCall(entry, call) && call[0] == BeginUninstall(thread)
      ensures state.None? && logs == [Fmt(Compact)]
      ensures old(state).None? ==> system == old(system)
      ensures old(state).Some? ==> metrics == traces == []
      ensures old(state).Some? ==>
                forall i :: 0 <= i < |old(state).value.handles| ==>
                  var h := old(state).value.handles[i];
                  && h in asked && h in taken && h < |old(system).writers| && h < |system.writers|
                  && old(system).writers[h].accepted <= W.Flat(system.writers[h].groups)
    {
      hide InCall, CanRun, Run, Reachable, OneCall, Schedules, AllDone, Signalled, SinksOf;
      hide LogLayers, MetricLayers, TraceLayers, LeftBehind, Next, Enabled, StopFrom;
      SlotsFollowState(system);
      if state.None? {
        SkipUninstall(thread);
        return;
      }
      var installed := TakeState(thread);
      FlushAll(installed, others, fails);
      ResetSlots(others);
      UninstallFlushes(entry, call);
    }
  }
}
