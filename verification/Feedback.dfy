/**
  The log pipeline feeds itself: a failed `put_logs` logs a warning, and the warning goes through
  the log slot into the queue of every SLS sink. What each sink hears of whom, and how many
  entries that makes.
 */
module Feedback {
  import opened Prelude
  import opened SlsRecord
  import opened Config
  import opened Pipeline
  import W = SlsWriter

  /** An event that still has to be offered to writer `w`. */
  ghost predicate Waits(f: Fanout, logs: seq<Layer>, w: nat) {
    Forwarded(f.event.level) && f.slot.LogSlot? && InSlot(if f.Asking? then logs else f.remaining, w)
  }

  ghost function Waiting(fanouts: map<Owner, Fanout>, logs: seq<Layer>, w: nat): set<Owner> {
    set o | o in fanouts && Waits(fanouts[o], logs, w)
  }

  /** Everything offered to a writer, taken or refused, in order. */
  function Offered(w: W.Writer): seq<LogEntry> {
    w.accepted + w.refused
  }

  ghost predicate KeepsSlot(s: System, actions: seq<Action>)
    requires CanRun(s, actions)
    decreases |actions|
  {
    actions == [] || (Next(s, actions[0]).logs == s.logs && KeepsSlot(Next(s, actions[0]), actions[1..]))
  }

  /** A failed put is reported as a warning of this text, outside any span. */
  lemma WarningSpelled(detail: string, service: string, seconds: nat)
    ensures WarnEvent(detail).target == "pytracingx::sls_log" && WarnEvent(detail).level == Warn
    ensures Forwarded(WarnEvent(detail).level)
    ensures var e := EntryOf(WarnEvent(detail), service, seconds);
      && e.message == "SLS put_logs failed: " + detail && e.level == Warn && e.loggerName == "" && e.attributes == ""
      && e.serviceName == service && e.traceId == "" && e.spanId == ""
  {
    var f := DebugField("message", "SLS put_logs failed: " + detail);
    VisitsInOrder([], f);
    VisitSpelled(VisitAll([]), f.name, f.text);
    assert [] + [f] == [f] && WarnEvent(detail).fields == [f];
  }

  /** The warnings of failed puts get through the filter. */
  predicate WarnsPass(filter: (string, Level) -> bool) {
    filter(WARN_TARGET, Warn)
  }

  /** Events seen by the slot so far that an SLS layer in it is to be offered. */
  function Forwards(s: System): nat {
    s.appEvents + if WarnsPass(s.filter) then s.failedPuts else 0
  }

  lemma WaitingAfterUpdate(fanouts: map<Owner, Fanout>, o: Owner, f: Fanout, logs: seq<Layer>, w: nat)
    ensures Waiting(fanouts[o := f], logs, w) ==
            (Waiting(fanouts, logs, w) - {o}) + if Waits(f, logs, w) then {o} else {}
  {
  }

  lemma LayersNameOnce(c: ResolvedConfig, n: nat, handles: seq<nat>, i: nat, j: nat)
    requires Increasing(handles) && i < j < |LogLayers(c, n, handles)|
    requires LogLayers(c, n, handles)[i].Sls? && LogLayers(c, n, handles)[j].Sls?
    ensures LogLayers(c, n, handles)[i].writer != LogLayers(c, n, handles)[j].writer
  {
    var layers := LogLayers(c, n, handles);
    var skip := |ConsoleLayers(c)| + |BridgeLayers(c, n)|;
    assert i >= skip && layers[i].writer == handles[i - skip] && layers[j].writer == handles[j - skip];
  }

  /** A writer appears at most once in a slot. */
  lemma SlotNamesOnce(s: System, i: nat, j: nat)
    requires Inv(s)
    requires i < j < |s.logs| && s.logs[i].Sls? && s.logs[j].Sls?
    ensures s.logs[i].writer != s.logs[j].writer
  {
    hide W.Inv, LogLayers, MetricLayers, TraceLayers, WritersOk, FanoutsOk, LocksOk, PhaseOk;
    if s.state.Some? {
      LayersNameOnce(s.state.value.config, s.installs, s.state.value.handles, i, j);
    } else if s.lifecycle.Committing? || s.lifecycle.Stopping? || s.lifecycle.ResettingLogs? {
      LayersNameOnce(s.lifecycle.config, s.installs, s.lifecycle.handles, i, j);
    }
  }

  /** Only a task that is reporting a failed put is in the middle of an event. */
  lemma TaskNotReporting(s: System, x: nat)
    requires FanoutsOk(s) && x < |s.writers| && !s.writers[x].pc.Warning?
    ensures Task(x) !in s.fanouts
  {
    hide W.Inv;
    assert Task(x) in s.fanouts ==> FanoutOk(s, Task(x));
  }

  lemma StartCounts(s: System, o: Owner, ev: Event, w: nat)
    requires o !in s.fanouts && InSlot(s.logs, w)
    ensures |Waiting(StartFanout(s, o, ev).fanouts, s.logs, w)| ==
            |Waiting(s.fanouts, s.logs, w)| + if s.filter(ev.target, ev.level) && Forwarded(ev.level) then 1 else 0
  {
    WaitingAfterUpdate(s.fanouts, o, Asking(ev, LogSlot), s.logs, w);
  }

  /** The layer an event reaches next in the log slot, and where it stands there. */
  lemma NextLayer(s: System, o: Owner) returns (k: nat)
    requires FanoutsOk(s) && o in s.fanouts
    requires s.fanouts[o].Inside? && s.fanouts[o].slot.LogSlot? && s.fanouts[o].remaining != []
    ensures var rest := s.fanouts[o].remaining;
      && k + |rest| == |s.logs|
      && forall i :: 0 <= i < |rest| ==> rest[i] == s.logs[k + i]
  {
    assert FanoutOk(s, o);
    k := |s.logs| - |s.fanouts[o].remaining|;
  }

  lemma PopWaits(s: System, o: Owner, w: nat)
    requires Inv(s) && o in s.fanouts
    requires s.fanouts[o].Inside? && s.fanouts[o].slot.LogSlot? && s.fanouts[o].remaining != []
    ensures var f := s.fanouts[o]; var rest := f.remaining[1..];
      InSlot(f.remaining, w) <==> (InSlot(rest, w) || (f.remaining[0].Sls? && f.remaining[0].writer == w))
    ensures var f := s.fanouts[o];
      f.remaining[0].Sls? && f.remaining[0].writer == w ==> !InSlot(f.remaining[1..], w)
  {
    hide WritersOk, HandlesOk, SlotsOk, LocksOk, PhaseOk, FanoutOk;
    var f := s.fanouts[o];
    var rest := f.remaining[1..];
    var k := NextLayer(s, o);
    assert forall i :: 0 <= i < |rest| ==> rest[i] == f.remaining[i + 1] && f.remaining[i + 1] == s.logs[k + (i + 1)];
    if InSlot(f.remaining, w) {
      var i :| 0 <= i < |f.remaining| && f.remaining[i].Sls? && f.remaining[i].writer == w;
      assert i > 0 ==> rest[i - 1] == f.remaining[i];
    }
    if f.remaining[0].Sls? && f.remaining[0].writer == w && InSlot(rest, w) {
      var i :| 0 <= i < |rest| && rest[i].Sls? && rest[i].writer == w;
      SlotNamesOnce(s, k, k + 1 + i);
    }
  }

  // ------------------------------------------------------------ what a sink hears

  /** One event reaching a sink's layer, with the clock read there. */
  datatype Delivery = Delivery(owner: Owner, event: Event, seconds: nat)

  /** The event this step offers to writer `w`. */
  function HeardAt(s: System, a: Action, w: nat): seq<Delivery> {
    if a.Deliver? && a.owner in s.fanouts && s.fanouts[a.owner].Inside? && s.fanouts[a.owner].remaining != [] then
      var f := s.fanouts[a.owner];
      if f.slot.LogSlot? && f.remaining[0].Sls? && f.remaining[0].writer == w && Forwarded(f.event.level) then
        [Delivery(a.owner, f.event, a.seconds)]
      else []
    else []
  }

  /** Everything writer `w` is offered in the course of a run. */
  ghost function Heard(s: System, actions: seq<Action>, w: nat): seq<Delivery>
    requires CanRun(s, actions)
    decreases |actions|
  {
    if actions == [] then [] else HeardAt(s, actions[0], w) + Heard(Next(s, actions[0]), actions[1..], w)
  }

  /** The entries a sink of this service makes of it. */
  function Entries(heard: seq<Delivery>, service: string): seq<LogEntry> {
    seq(|heard|, i requires 0 <= i < |heard| => EntryOf(heard[i].event, service, heard[i].seconds))
  }

  /** The events that one thread or task brought. */
  function EventsBy(heard: seq<Delivery>, o: Owner): seq<Event> {
    if heard == [] then []
    else (if heard[0].owner == o then [heard[0].event] else []) + EventsBy(heard[1..], o)
  }

  /** The event this step begins for `o`, if it is one that SLS sinks are to be offered. */
  function EmittedAt(filter: (string, Level) -> bool, a: Action, o: Owner): seq<Event> {
    match a
    case Begin(t, ev) => if o == App(t) && filter(ev.target, ev.level) && Forwarded(ev.level) then [ev] else []
    case Write(x, act, detail) =>
      if o == Task(x) && act.PutErr? && WarnsPass(filter) then [WarnEvent(detail)] else []
    case _ => []
  }

  /** Every such event that `o` emits in the course of these steps: its own, or the warnings of its failed puts. */
  function Emitted(filter: (string, Level) -> bool, actions: seq<Action>, o: Owner): seq<Event> {
    if actions == [] then [] else EmittedAt(filter, actions[0], o) + Emitted(filter, actions[1..], o)
  }

  /**
    What is emitted, action by action: a thread's event from INFO on, and a task's warning of its failed put,
    each if the filter lets it through; nothing by any other action or for anyone else.
   */
  lemma EmittedSpelled(
      filter: (string, Level) -> bool, thread: nat, ev: Event, x: nat, detail: string, a: Action, rest: seq<Action>,
      o: Owner)
    ensures Emitted(filter, [], o) == []
    ensures Emitted(filter, [Begin(thread, ev)] + rest, App(thread)) ==
            (if filter(ev.target, ev.level) && ev.level in {Info, Warn, Error} then [ev] else [])
            + Emitted(filter, rest, App(thread))
    ensures Emitted(filter, [Write(x, W.PutErr, detail)] + rest, Task(x)) ==
            (if filter("pytracingx::sls_log", Warn) then [WarnEvent(detail)] else [])
            + Emitted(filter, rest, Task(x))
    ensures !(a.Begin? && o == App(a.thread)) && !(a.Write? && a.act.PutErr? && o == Task(a.writer)) ==>
              Emitted(filter, [a] + rest, o) == Emitted(filter, rest, o)
  {
    var begin, write := Begin(thread, ev), Write(x, W.PutErr, detail);
    assert ([begin] + rest)[1..] == rest && ([write] + rest)[1..] == rest && ([a] + rest)[1..] == rest;
  }

  /** The event of `o` that has not reached writer `w` yet. */
  ghost function OnItsWay(s: System, o: Owner, w: nat): seq<Event> {
    if o in s.fanouts && Waits(s.fanouts[o], s.logs, w) then [s.fanouts[o].event] else []
  }

  lemma DeliverIsHeard(s: System, a: Action, o: Owner, w: nat)
    requires Inv(s) && Enabled(s, a) && a.Deliver?
    ensures OnItsWay(s, o, w) == EventsBy(HeardAt(s, a, w), o) + OnItsWay(Next(s, a), o, w)
  {
    hide WritersOk, HandlesOk, SlotsOk, FanoutsOk, LocksOk, PhaseOk, InSlot, Deliveries;
    var f := s.fanouts[a.owner];
    if f.slot.LogSlot? {
      PopWaits(s, a.owner, w);
    }
    var heard := HeardAt(s, a, w);
    assert heard != [] ==> heard[1..] == [];
  }

  /** A step of `install` or `uninstall` concerns no event on its way and offers nothing. */
  lemma CallStepsAreSilent(s: System, a: Action)
    requires Enabled(s, a) && !a.Begin? && !a.Enter? && !a.Deliver? && !a.Finish? && !a.Write?
    ensures Next(s, a).fanouts == s.fanouts && Forwards(Next(s, a)) == Forwards(s)
    ensures |s.writers| <= |Next(s, a).writers|
    ensures !a.SignalNext? ==> forall w :: 0 <= w < |s.writers| ==> Next(s, a).writers[w] == s.writers[w]
  {
    hide W.Do, LogLayers, MetricLayers, TraceLayers;
  }

  lemma LockStepIsHeard(s: System, a: Action, o: Owner, w: nat)
    requires Enabled(s, a) && (a.Enter? || a.Finish?)
    ensures OnItsWay(s, o, w) == OnItsWay(Next(s, a), o, w)
  {
    assert !InSlot([], w);
  }

  lemma BeginIsHeard(s: System, a: Action, o: Owner, w: nat)
    requires Enabled(s, a) && a.Begin? && InSlot(s.logs, w)
    ensures OnItsWay(s, o, w) + EmittedAt(s.filter, a, o) == OnItsWay(Next(s, a), o, w)
  {
    hide InSlot;
  }

  lemma StepIsHeard(s: System, a: Action, o: Owner, w: nat)
    requires Inv(s) && Enabled(s, a) && InSlot(s.logs, w) && Next(s, a).logs == s.logs
    ensures OnItsWay(s, o, w) + EmittedAt(s.filter, a, o) ==
            EventsBy(HeardAt(s, a, w), o) + OnItsWay(Next(s, a), o, w)
  {
    hide WritersOk, HandlesOk, SlotsOk, LocksOk, PhaseOk, Next, Enabled, InSlot, Waits;
    if a.Deliver? {
      DeliverIsHeard(s, a, o, w);
    } else if a.Write? {
      WriteIsHeard(s, a, o, w);
    } else if a.Begin? {
      BeginIsHeard(s, a, o, w);
    } else if a.Enter? || a.Finish? {
      LockStepIsHeard(s, a, o, w);
    } else {
      CallStepsAreSilent(s, a);
    }
  }

  /** A task whose put fails is not reporting yet. */
  lemma FailingNotReporting(s: System, a: Action)
    requires FanoutsOk(s) && Enabled(s, a) && a.Write? && a.act.PutErr?
    ensures Task(a.writer) !in s.fanouts
  {
    hide FanoutsOk, SenderAlive, HandleAlive;
    TaskNotReporting(s, a.writer);
  }

  lemma WriteIsHeard(s: System, a: Action, o: Owner, w: nat)
    requires FanoutsOk(s) && Enabled(s, a) && a.Write? && InSlot(s.logs, w)
    ensures OnItsWay(s, o, w) + EmittedAt(s.filter, a, o) == OnItsWay(Next(s, a), o, w)
  {
    hide FanoutsOk, W.Do, W.Can, SenderAlive, HandleAlive, InSlot;
    if a.act.PutErr? {
      FailingNotReporting(s, a);
    }
  }

  lemma EventsByAppend(a: seq<Delivery>, b: seq<Delivery>, o: Owner)
    requires |a| <= 1
    ensures EventsBy(a + b, o) == EventsBy(a, o) + EventsBy(b, o)
  {
    if a == [] {
      assert a + b == b;
    } else {
      assert (a + b)[1..] == b && a[1..] == [];
    }
  }

  /** Of every thread and task a sink hears what it emitted, each event once and in order; one may be on its way. */
  lemma {:induction false} EmittedIsHeard(s: System, actions: seq<Action>, o: Owner, w: nat)
    requires Inv(s) && CanRun(s, actions) && KeepsSlot(s, actions) && InSlot(s.logs, w)
    ensures OnItsWay(s, o, w) + Emitted(s.filter, actions, o) ==
            EventsBy(Heard(s, actions, w), o) + OnItsWay(Run(s, actions), o, w)
    decreases |actions|
  {
    hide Inv, Next, Enabled, OnItsWay, EmittedAt, EventsBy, InSlot;
    if actions == [] {
      assert EventsBy([], o) == [] by { EventsByNothing(o); }
    } else {
      var a, rest := actions[0], actions[1..];
      var t := Next(s, a);
      StepIsHeard(s, a, o, w);
      NextKeepsInv(s, a);
      StepKeepsSetting(s, a);
      EmittedIsHeard(t, rest, o, w);
      EventsByAppend(HeardAt(s, a, w), Heard(t, rest, w), o);
      var first, later := EventsBy(HeardAt(s, a, w), o), Emitted(s.filter, rest, o);
      assert OnItsWay(s, o, w) + (EmittedAt(s.filter, a, o) + later)
          == (OnItsWay(s, o, w) + EmittedAt(s.filter, a, o)) + later
          == first + (OnItsWay(t, o, w) + later);
    }
  }

  lemma EventsByNothing(o: Owner)
    ensures EventsBy([], o) == []
  {
  }

  lemma StepKeepsSetting(s: System, a: Action)
    requires Enabled(s, a)
    ensures Next(s, a).filter == s.filter
  {
    hide W.Do, W.Can, SenderAlive, HandleAlive;
  }

  lemma OfferIsLast(v: W.Writer, e: LogEntry)
    requires W.Inv(v)
    ensures Offered(W.Do(v, W.Offer(e))) == Offered(v) + [e]
  {
  }

  lemma OwnOffersNothing(w: W.Writer, a: W.Act)
    requires !a.Offer?
    ensures Offered(W.Do(w, a)) == Offered(w)
  {
  }

  /** Layer `p` of the log slot is that of writer `w`, sending for this service. */
  ghost predicate SinkAt(s: System, p: nat, w: nat, service: string) {
    p < |s.logs| && s.logs[p] == Sls(w, service) && w < |s.writers|
  }

  /** The sink's layer is the one in the slot. */
  lemma HeardBySink(s: System, a: Action, p: nat, w: nat, service: string)
    requires Inv(s) && Enabled(s, a) && SinkAt(s, p, w, service) && HeardAt(s, a, w) != []
    ensures s.fanouts[a.owner].remaining[0] == Sls(w, service)
  {
    hide WritersOk, HandlesOk, SlotsOk, LocksOk, PhaseOk, FanoutOk;
    var k := NextLayer(s, a.owner);
    assert s.logs[k] == s.fanouts[a.owner].remaining[0];
    if k < p {
      SlotNamesOnce(s, k, p);
    } else if p < k {
      SlotNamesOnce(s, p, k);
    }
  }

  lemma DeliverOffers(s: System, a: Action, p: nat, w: nat, service: string)
    requires Inv(s) && Enabled(s, a) && a.Deliver? && SinkAt(s, p, w, service)
    ensures w < |Next(s, a).writers|
    ensures Offered(Next(s, a).writers[w]) == Offered(s.writers[w]) + Entries(HeardAt(s, a, w), service)
  {
    hide HandlesOk, SlotsOk, FanoutsOk, LocksOk, PhaseOk, EntryOf, W.Do, W.Inv;
    var f := s.fanouts[a.owner];
    if HeardAt(s, a, w) != [] {
      HeardBySink(s, a, p, w, service);
      OfferIsLast(s.writers[w], EntryOf(f.event, service, a.seconds));
    } else {
      assert Next(s, a).writers[w] == s.writers[w];
    }
  }

  lemma WriteOffersNothing(s: System, a: Action, w: nat)
    requires Enabled(s, a) && a.Write? && w < |s.writers|
    ensures |Next(s, a).writers| == |s.writers| && Offered(Next(s, a).writers[w]) == Offered(s.writers[w])
  {
    hide W.Do, W.Can, SenderAlive, HandleAlive;
    OwnOffersNothing(s.writers[a.writer], a.act);
  }

  lemma SignalOffersNothing(s: System, w: nat)
    requires Enabled(s, SignalNext) && w < |s.writers|
    ensures |Next(s, SignalNext).writers| == |s.writers|
    ensures Offered(Next(s, SignalNext).writers[w]) == Offered(s.writers[w])
  {
    hide W.Do;
    OwnOffersNothing(s.writers[w], W.Signal);
  }

  lemma ThreadStepsKeepWriters(s: System, a: Action)
    requires Enabled(s, a) && (a.Begin? || a.Enter? || a.Finish?)
    ensures Next(s, a).writers == s.writers
  {
  }

  lemma StepOffers(s: System, a: Action, p: nat, w: nat, service: string)
    requires Inv(s) && Enabled(s, a) && SinkAt(s, p, w, service)
    ensures w < |Next(s, a).writers|
    ensures Offered(Next(s, a).writers[w]) == Offered(s.writers[w]) + Entries(HeardAt(s, a, w), service)
  {
    hide Inv, Next, Enabled, EntryOf;
    if a.Deliver? {
      DeliverOffers(s, a, p, w, service);
    } else if a.Write? {
      WriteOffersNothing(s, a, w);
    } else if a.SignalNext? {
      SignalOffersNothing(s, w);
    } else if a.Begin? || a.Enter? || a.Finish? {
      ThreadStepsKeepWriters(s, a);
    } else {
      CallStepsAreSilent(s, a);
    }
  }

  lemma {:induction false} RunOffers(s: System, actions: seq<Action>, p: nat, w: nat, service: string)
    requires Inv(s) && CanRun(s, actions) && KeepsSlot(s, actions) && SinkAt(s, p, w, service)
    ensures SinkAt(Run(s, actions), p, w, service)
    ensures Offered(Run(s, actions).writers[w]) == Offered(s.writers[w]) + Entries(Heard(s, actions, w), service)
    decreases |actions|
  {
    hide Inv, Next, Enabled, HeardAt, Offered, EntryOf;
    if actions == [] {
      assert Entries([], service) == [];
    } else {
      var t, rest := Next(s, actions[0]), actions[1..];
      StepOffers(s, actions[0], p, w, service);
      NextKeepsInv(s, actions[0]);
      RunOffers(t, rest, p, w, service);
      var first, later := HeardAt(s, actions[0], w), Heard(t, rest, w);
      assert Entries(first + later, service) == Entries(first, service) + Entries(later, service);
    }
  }

  /**
    What an SLS sink gets, over every run that keeps the log slot and whatever runs meanwhile. It is offered
    exactly the entries of what it heard, with its own service name and the times its layer read. And of
    every thread and of every reporting task it heard exactly the events at INFO or above that this one
    emitted and that pass the filter, each once and in order, apart from one still on its way.
   */
  lemma EveryEventIsHeard(s: System, actions: seq<Action>, o: Owner, p: nat, w: nat, service: string)
    requires Inv(s) && CanRun(s, actions) && KeepsSlot(s, actions) && SinkAt(s, p, w, service)
    ensures var t, heard := Run(s, actions), Heard(s, actions, w);
      && SinkAt(t, p, w, service)
      && Offered(t.writers[w]) == Offered(s.writers[w]) + Entries(heard, service)
      && OnItsWay(s, o, w) + Emitted(s.filter, actions, o) == EventsBy(heard, o) + OnItsWay(t, o, w)
  {
    hide Inv, CanRun, Run, KeepsSlot, Heard, Emitted, EventsBy, OnItsWay, Offered, Entries;
    RunOffers(s, actions, p, w, service);
    EmittedIsHeard(s, actions, o, w);
  }

  // --------------------------------------------------------------- how much it is

  /** Which threads' events wait for `w` before and after one layer of the log slot took one. */
  lemma DeliverMovesOne(s: System, a: Action, w: nat)
    requires Inv(s) && Enabled(s, a) && a.Deliver?
    ensures var f := s.fanouts[a.owner];
      && (HeardAt(s, a, w) != [] ==> Waits(f, s.logs, w) && !Waits(f.(remaining := f.remaining[1..]), s.logs, w))
      && (HeardAt(s, a, w) == [] ==> (Waits(f, s.logs, w) <==> Waits(f.(remaining := f.remaining[1..]), s.logs, w)))
  {
    hide WritersOk, HandlesOk, SlotsOk, FanoutsOk, LocksOk, PhaseOk, InSlot;
    if s.fanouts[a.owner].slot.LogSlot? {
      PopWaits(s, a.owner, w);
    }
  }

  lemma DeliverIs(s: System, a: Action)
    requires Enabled(s, a) && a.Deliver?
    ensures var t, f := Next(s, a), s.fanouts[a.owner];
      && t.fanouts == s.fanouts[a.owner := f.(remaining := f.remaining[1..])]
      && t.logs == s.logs && Forwards(t) == Forwards(s)
  {
    hide Deliveries;
  }

  /** Passing an event on moves it from waiting to heard. */
  lemma DeliverCounts(s: System, a: Action, w: nat)
    requires Inv(s) && Enabled(s, a) && a.Deliver?
    ensures var t := Next(s, a);
      && |HeardAt(s, a, w)| + |Waiting(t.fanouts, t.logs, w)| == |Waiting(s.fanouts, s.logs, w)|
      && Forwards(t) == Forwards(s)
  {
    hide Inv, Next, Waits, Forwards;
    var f, t := s.fanouts[a.owner], Next(s, a);
    DeliverMovesOne(s, a, w);
    DeliverIs(s, a);
    WaitingAfterUpdate(s.fanouts, a.owner, f.(remaining := f.remaining[1..]), s.logs, w);
    if HeardAt(s, a, w) != [] {
      assert a.owner in Waiting(s.fanouts, s.logs, w);
    } else {
      assert Waiting(t.fanouts, t.logs, w) == Waiting(s.fanouts, s.logs, w);
    }
  }

  lemma LockStepCounts(s: System, a: Action, w: nat)
    requires Enabled(s, a) && (a.Enter? || a.Finish?)
    ensures Waiting(Next(s, a).fanouts, s.logs, w) == Waiting(s.fanouts, s.logs, w)
    ensures Next(s, a).writers == s.writers && Forwards(Next(s, a)) == Forwards(s)
  {
    assert !InSlot([], w);
  }

  lemma BeginCounts(s: System, a: Action, w: nat)
    requires Enabled(s, a) && a.Begin? && InSlot(s.logs, w)
    ensures var t := Next(s, a);
      |Waiting(t.fanouts, t.logs, w)| + Forwards(s) == |Waiting(s.fanouts, s.logs, w)| + Forwards(t)
  {
    hide InSlot;
    StartCounts(s, App(a.thread), a.event, w);
  }

  lemma WriteCounts(s: System, a: Action, w: nat)
    requires FanoutsOk(s) && Enabled(s, a) && a.Write? && InSlot(s.logs, w)
    ensures var t := Next(s, a);
      |Waiting(t.fanouts, t.logs, w)| + Forwards(s) == |Waiting(s.fanouts, s.logs, w)| + Forwards(t)
  {
    hide InSlot, W.Do, W.Can, SenderAlive, HandleAlive;
    if a.act.PutErr? {
      FailingNotReporting(s, a);
      StartCounts(s, Task(a.writer), WarnEvent(a.detail), w);
    }
  }

  lemma StepCounts(s: System, a: Action, w: nat)
    requires Inv(s) && Enabled(s, a) && InSlot(s.logs, w) && Next(s, a).logs == s.logs
    ensures var t := Next(s, a);
      |HeardAt(s, a, w)| + |Waiting(t.fanouts, t.logs, w)| + Forwards(s) ==
      |Waiting(s.fanouts, s.logs, w)| + Forwards(t)
  {
    hide WritersOk, HandlesOk, SlotsOk, LocksOk, PhaseOk, FanoutOk, Next, Enabled, InSlot, Waiting, Forwards;
    if a.Begin? {
      BeginCounts(s, a, w);
    } else if a.Deliver? {
      DeliverCounts(s, a, w);
    } else if a.Enter? || a.Finish? {
      LockStepCounts(s, a, w);
    } else if a.Write? {
      WriteCounts(s, a, w);
    } else {
      CallStepsAreSilent(s, a);
    }
  }

  lemma {:induction false} HeardIsCounted(s: System, actions: seq<Action>, w: nat)
    requires Inv(s) && CanRun(s, actions) && KeepsSlot(s, actions) && InSlot(s.logs, w)
    ensures var t := Run(s, actions);
      |Heard(s, actions, w)| + |Waiting(t.fanouts, t.logs, w)| + Forwards(s) ==
      |Waiting(s.fanouts, s.logs, w)| + Forwards(t)
    decreases |actions|
  {
    hide Inv, Next, Enabled, HeardAt, Waiting, Forwards, InSlot;
    if actions != [] {
      StepCounts(s, actions[0], w);
      NextKeepsInv(s, actions[0]);
      HeardIsCounted(Next(s, actions[0]), actions[1..], w);
    }
  }

  /**
    While the log slot stays the same, what a sink in it is offered, with what is on its way to it,
    grows by exactly one for every application event at INFO or above that passes the filter and,
    if warnings pass, for every failed put of any sink.
   */
  lemma OffersAreCounted(s: System, actions: seq<Action>, p: nat, w: nat, service: string)
    requires Inv(s) && CanRun(s, actions) && KeepsSlot(s, actions) && SinkAt(s, p, w, service)
    ensures var t := Run(s, actions);
      && SinkAt(t, p, w, service)
      && |Offered(t.writers[w])| + |Waiting(t.fanouts, t.logs, w)| + Forwards(s)
         == |Offered(s.writers[w])| + |Waiting(s.fanouts, s.logs, w)| + Forwards(t)
  {
    hide Inv, CanRun, Run, KeepsSlot, Heard, Waiting, Forwards, Offered;
    RunOffers(s, actions, p, w, service);
    HeardIsCounted(s, actions, w);
  }

  // ------------------------------------------------------------- a single sink

  /** What a writer still has to hand over, and the put it waits for. */
  function OwnLoad(v: W.Writer): nat {
    |v.queue| + |v.batch| + |v.building| + if v.pc.Awaiting? then 1 else 0
  }

  /** What a sink still has to hand over: queued, batched, being built, awaited, or on its way to the queue. */
  ghost function Load(s: System, w: nat): nat
    requires w < |s.writers|
  {
    OwnLoad(s.writers[w]) + |Waiting(s.fanouts, s.logs, w)|
  }

  /** The entries handed over beyond the first of each group. */
  function Surplus(w: W.Writer): int {
    |W.Flat(w.groups)| - |w.groups|
  }

  /** No application event begins and only writer `w` has puts that fail. */
  ghost predicate OnlyOwnWarnings(actions: seq<Action>, w: nat) {
    forall i :: 0 <= i < |actions| ==>
      !actions[i].Begin? && (actions[i].Write? && actions[i].act.PutErr? ==> actions[i].writer == w)
  }

  /** A put hands over at least one entry; the rest of its group is surplus. Its result takes it off the load. */
  lemma ActLoads(v: W.Writer, a: W.Act, senders: bool, handle: bool)
    requires W.Inv(v) && W.Can(v, a, senders, handle) && !a.Offer?
    ensures var u := W.Do(v, a);
      && OwnLoad(u) + Surplus(u) == OwnLoad(v) + Surplus(v) - (if a.PutOk? || a.PutErr? then 1 else 0)
      && Surplus(v) <= Surplus(u)
  {
    hide W.Conserved, W.Counted, W.SealKept;
    if a.Put? {
      W.FlatPush(v.groups, W.Group(v.pc.cause, v.building));
    }
  }

  lemma OfferLoads(v: W.Writer, e: LogEntry)
    ensures var u := W.Do(v, W.Offer(e)); OwnLoad(u) <= OwnLoad(v) + 1 && Surplus(u) == Surplus(v)
  {
  }

  /** A step adds no load to this sink that it does not take off elsewhere, and its surplus never falls. */
  ghost predicate Lightens(s: System, t: System, w: nat)
    requires w < |s.writers|
  {
    && w < |t.writers|
    && Load(t, w) + Surplus(t.writers[w]) <= Load(s, w) + Surplus(s.writers[w])
    && Surplus(s.writers[w]) <= Surplus(t.writers[w])
  }

  lemma WriteWaits(s: System, a: Action, w: nat)
    requires FanoutsOk(s) && Enabled(s, a) && a.Write? && InSlot(s.logs, w)
    ensures var t := Next(s, a);
      |Waiting(t.fanouts, t.logs, w)| <= |Waiting(s.fanouts, s.logs, w)| + if a.act.PutErr? then 1 else 0
  {
    hide InSlot, W.Do, W.Can, SenderAlive, HandleAlive, Waiting;
    WriteCounts(s, a, w);
  }

  lemma WriteLightens(s: System, a: Action, w: nat)
    requires Inv(s) && Enabled(s, a) && a.Write? && w < |s.writers| && InSlot(s.logs, w)
    requires a.act.PutErr? ==> a.writer == w
    ensures Lightens(s, Next(s, a), w)
  {
    hide HandlesOk, SlotsOk, FanoutsOk, LocksOk, PhaseOk, W.Inv, W.Do, W.Can;
    hide InSlot, SenderAlive, HandleAlive, OwnLoad, Surplus, Waiting;
    WriteWaits(s, a, w);
    if a.writer == w {
      ActLoads(s.writers[w], a.act, SenderAlive(s, w), HandleAlive(s, w));
    }
  }

  lemma DeliverLightens(s: System, a: Action, w: nat)
    requires Inv(s) && Enabled(s, a) && a.Deliver? && w < |s.writers|
    ensures Lightens(s, Next(s, a), w)
  {
    hide WritersOk, HandlesOk, SlotsOk, FanoutsOk, LocksOk, PhaseOk, W.Do, EntryOf, OwnLoad, Surplus, Waiting;
    DeliverCounts(s, a, w);
    var f, t := s.fanouts[a.owner], Next(s, a);
    if HeardAt(s, a, w) != [] {
      OfferLoads(s.writers[w], EntryOf(f.event, f.remaining[0].service, a.seconds));
    } else {
      assert t.writers[w] == s.writers[w];
    }
  }

  lemma SignalLightens(s: System, w: nat)
    requires Inv(s) && Enabled(s, SignalNext) && w < |s.writers|
    ensures Lightens(s, Next(s, SignalNext), w)
  {
    hide HandlesOk, SlotsOk, FanoutsOk, LocksOk, PhaseOk, W.Do, W.Inv, OwnLoad, Surplus, Waiting;
    CallIsWellPlaced(s);
    ActLoads(s.writers[w], W.Signal, true, true);
  }

  lemma StepLightens(s: System, a: Action, w: nat)
    requires Inv(s) && Enabled(s, a) && w < |s.writers| && InSlot(s.logs, w) && Next(s, a).logs == s.logs
    requires !a.Begin? && (a.Write? && a.act.PutErr? ==> a.writer == w)
    ensures Lightens(s, Next(s, a), w)
  {
    hide Inv, InSlot, Next, Enabled, OwnLoad, Surplus, Waiting;
    if a.Deliver? {
      DeliverLightens(s, a, w);
    } else if a.Enter? || a.Finish? {
      LockStepCounts(s, a, w);
    } else if a.Write? {
      WriteLightens(s, a, w);
    } else if a.SignalNext? {
      SignalLightens(s, w);
    } else {
      CallStepsAreSilent(s, a);
    }
  }

  /**
    A sink on its own never floods itself. With no application events, and even if every put fails, its
    load never grows over any run, and each group it hands over takes all of its entries but one off for
    good.
   */
  lemma {:induction false} SingleSinkNeverGrows(s: System, actions: seq<Action>, w: nat)
    requires Inv(s) && CanRun(s, actions) && KeepsSlot(s, actions)
    requires w < |s.writers| && InSlot(s.logs, w) && OnlyOwnWarnings(actions, w)
    ensures var t := Run(s, actions);
      && w < |t.writers|
      && Load(t, w) <= Load(s, w)
      && Load(t, w) + (Surplus(t.writers[w]) - Surplus(s.writers[w])) <= Load(s, w)
      && Surplus(s.writers[w]) <= Surplus(t.writers[w])
    decreases |actions|
  {
    hide Inv, Next, Enabled, Load, Surplus, InSlot;
    if actions != [] {
      StepLightens(s, actions[0], w);
      NextKeepsInv(s, actions[0]);
      assert forall i :: 0 <= i < |actions[1..]| ==> actions[1..][i] == actions[i + 1];
      SingleSinkNeverGrows(Next(s, actions[0]), actions[1..], w);
    }
  }

  // ------------------------------------------------------------- all three slots

  /** An event served to one layer of one slot. */
  datatype Serving = Serving(slot: Slot, layer: Layer, event: Event)

  /** One serving for each of these layers, in order. */
  function Servings(slot: Slot, layers: seq<Layer>, ev: Event): seq<Serving> {
    seq(|layers|, i requires 0 <= i < |layers| => Serving(slot, layers[i], ev))
  }

  /** The layers of all slots, the log slot's first, then the metric and the trace slot's. */
  function ThroughAll(s: System, ev: Event): seq<Serving> {
    Servings(LogSlot, s.logs, ev) + Servings(MetricSlot, s.metrics, ev) + Servings(TraceSlot, s.traces, ev)
  }

  /** Index by index: every layer of every slot once, the log slot's first and the trace slot's last. */
  lemma ThroughAllSpelled(s: System, ev: Event)
    ensures var all, m, n := ThroughAll(s, ev), |s.logs|, |s.metrics|;
      && |all| == m + n + |s.traces|
      && (forall i :: 0 <= i < m ==> all[i] == Serving(LogSlot, s.logs[i], ev))
      && (forall i :: 0 <= i < n ==> all[m + i] == Serving(MetricSlot, s.metrics[i], ev))
      && forall i :: 0 <= i < |s.traces| ==> all[m + n + i] == Serving(TraceSlot, s.traces[i], ev)
  {
  }

  /** What lies ahead of an event on its way. */
  function AheadOf(s: System, f: Fanout): seq<Serving> {
    var here := Servings(f.slot, if f.Asking? then LayersIn(s, f.slot) else f.remaining, f.event);
    match f.slot
    case LogSlot => here + Servings(MetricSlot, s.metrics, f.event) + Servings(TraceSlot, s.traces, f.event)
    case MetricSlot => here + Servings(TraceSlot, s.traces, f.event)
    case TraceSlot => here
  }

  /** What lies ahead of a thread or task. */
  function StillAhead(s: System, o: Owner): seq<Serving> {
    if o in s.fanouts then AheadOf(s, s.fanouts[o]) else []
  }

  /** The serving this step makes for `o`. */
  function ServedAt(s: System, a: Action, o: Owner): seq<Serving> {
    if a.Deliver? && a.owner == o && o in s.fanouts && s.fanouts[o].Inside? && s.fanouts[o].remaining != []
    then [Serving(s.fanouts[o].slot, s.fanouts[o].remaining[0], s.fanouts[o].event)] else []
  }

  ghost function Served(s: System, actions: seq<Action>, o: Owner): seq<Serving>
    requires CanRun(s, actions)
    decreases |actions|
  {
    if actions == [] then [] else ServedAt(s, actions[0], o) + Served(Next(s, actions[0]), actions[1..], o)
  }

  /** The event this step begins for `o`, if the filter is true of it, whatever its level. */
  function BegunAt(filter: (string, Level) -> bool, a: Action, o: Owner): seq<Event> {
    match a
    case Begin(t, ev) => if o == App(t) && filter(ev.target, ev.level) then [ev] else []
    case Write(x, act, detail) =>
      if o == Task(x) && act.PutErr? && filter("pytracingx::sls_log", Warn) then [WarnEvent(detail)] else []
    case _ => []
  }

  /** What the events that `o` begins in these steps are to pass through. */
  function Ahead(s: System, actions: seq<Action>, o: Owner): seq<Serving> {
    if actions == [] then []
    else
      var begun := BegunAt(s.filter, actions[0], o);
      (if begun == [] then [] else ThroughAll(s, begun[0])) + Ahead(s, actions[1..], o)
  }

  ghost predicate SameSlots(s: System, t: System) {
    t.logs == s.logs && t.metrics == s.metrics && t.traces == s.traces && t.filter == s.filter
  }

  ghost predicate KeepsSlots(s: System, actions: seq<Action>)
    requires CanRun(s, actions)
    decreases |actions|
  {
    actions == [] || (SameSlots(s, Next(s, actions[0])) && KeepsSlots(Next(s, actions[0]), actions[1..]))
  }

  lemma ServingsPop(slot: Slot, layers: seq<Layer>, ev: Event)
    requires layers != []
    ensures Servings(slot, layers, ev) == [Serving(slot, layers[0], ev)] + Servings(slot, layers[1..], ev)
  {
  }

  lemma AheadStaysSame(s: System, t: System, f: Fanout)
    requires SameSlots(s, t)
    ensures AheadOf(t, f) == AheadOf(s, f)
  {
    hide Servings;
  }

  /** One layer served, the lock taken, the lock given back, and the start. */
  lemma AheadSteps(s: System, ev: Event, slot: Slot, rest: seq<Layer>)
    ensures rest != [] ==>
              AheadOf(s, Inside(ev, slot, rest)) ==
              [Serving(slot, rest[0], ev)] + AheadOf(s, Inside(ev, slot, rest[1..]))
    ensures AheadOf(s, Asking(ev, slot)) == AheadOf(s, Inside(ev, slot, LayersIn(s, slot)))
    ensures AheadOf(s, Inside(ev, LogSlot, [])) == AheadOf(s, Asking(ev, MetricSlot))
    ensures AheadOf(s, Inside(ev, MetricSlot, [])) == AheadOf(s, Asking(ev, TraceSlot))
    ensures AheadOf(s, Inside(ev, TraceSlot, [])) == []
    ensures AheadOf(s, Asking(ev, LogSlot)) == ThroughAll(s, ev)
  {
    if rest != [] {
      ServingsPop(slot, rest, ev);
    }
  }

  lemma DeliverServes(s: System, a: Action, o: Owner)
    requires Enabled(s, a) && a.Deliver?
    ensures StillAhead(s, o) == ServedAt(s, a, o) + StillAhead(Next(s, a), o)
  {
    hide Deliveries, AheadOf, Servings, ThroughAll;
    var f, t := s.fanouts[a.owner], Next(s, a);
    AheadSteps(s, f.event, f.slot, f.remaining);
    forall g ensures AheadOf(t, g) == AheadOf(s, g) { AheadStaysSame(s, t, g); }
  }

  lemma EnterServes(s: System, a: Action, o: Owner)
    requires Enabled(s, a) && a.Enter?
    ensures StillAhead(s, o) == StillAhead(Next(s, a), o)
  {
    hide AheadOf, Servings, ThroughAll, Next, Enabled;
    EnterIs(s, a);
    var f, t := s.fanouts[a.owner], Next(s, a);
    AheadSteps(s, f.event, f.slot, []);
    forall g ensures AheadOf(t, g) == AheadOf(s, g) { AheadStaysSame(s, t, g); }
  }

  lemma FinishServes(s: System, a: Action, o: Owner)
    requires Enabled(s, a) && a.Finish?
    ensures StillAhead(s, o) == StillAhead(Next(s, a), o)
  {
    hide AheadOf, Servings, ThroughAll;
    var f, t := s.fanouts[a.owner], Next(s, a);
    AheadSteps(s, f.event, f.slot, []);
    forall g ensures AheadOf(t, g) == AheadOf(s, g) { AheadStaysSame(s, t, g); }
  }

  lemma BeginServes(s: System, a: Action, o: Owner)
    requires Enabled(s, a) && a.Begin?
    ensures var begun := BegunAt(s.filter, a, o);
      StillAhead(s, o) + (if begun == [] then [] else ThroughAll(s, begun[0])) == StillAhead(Next(s, a), o)
  {
    hide AheadOf, Servings, ThroughAll;
    var t := Next(s, a);
    AheadSteps(s, a.event, LogSlot, []);
    forall g ensures AheadOf(t, g) == AheadOf(s, g) { AheadStaysSame(s, t, g); }
  }

  lemma WriteServes(s: System, a: Action, o: Owner)
    requires Enabled(s, a) && a.Write? && FanoutsOk(s)
    ensures var begun := BegunAt(s.filter, a, o);
      StillAhead(s, o) + (if begun == [] then [] else ThroughAll(s, begun[0])) == StillAhead(Next(s, a), o)
  {
    hide FanoutsOk, W.Do, W.Can, SenderAlive, HandleAlive, AheadOf, Servings, ThroughAll;
    var t := Next(s, a);
    AheadSteps(s, WarnEvent(a.detail), LogSlot, []);
    forall g ensures AheadOf(t, g) == AheadOf(s, g) { AheadStaysSame(s, t, g); }
    if a.act.PutErr? {
      FailingNotReporting(s, a);
    }
  }

  lemma CallStepServes(s: System, a: Action, o: Owner)
    requires Enabled(s, a) && !a.Begin? && !a.Enter? && !a.Deliver? && !a.Finish? && !a.Write?
    requires SameSlots(s, Next(s, a))
    ensures StillAhead(s, o) == StillAhead(Next(s, a), o)
  {
    hide AheadOf, Next, Enabled;
    CallStepsAreSilent(s, a);
    if o in s.fanouts {
      AheadStaysSame(s, Next(s, a), s.fanouts[o]);
    }
  }

  lemma StepServes(s: System, a: Action, o: Owner)
    requires Inv(s) && Enabled(s, a) && SameSlots(s, Next(s, a))
    ensures var begun := BegunAt(s.filter, a, o);
      StillAhead(s, o) + (if begun == [] then [] else ThroughAll(s, begun[0]))
      == ServedAt(s, a, o) + StillAhead(Next(s, a), o)
  {
    hide WritersOk, HandlesOk, SlotsOk, LocksOk, PhaseOk, FanoutOk, Next, Enabled, StillAhead, ThroughAll;
    if a.Deliver? {
      DeliverServes(s, a, o);
    } else if a.Begin? {
      BeginServes(s, a, o);
    } else if a.Write? {
      WriteServes(s, a, o);
    } else if a.Enter? {
      EnterServes(s, a, o);
    } else if a.Finish? {
      FinishServes(s, a, o);
    } else {
      CallStepServes(s, a, o);
    }
  }

  lemma {:induction false} AheadStays(s: System, t: System, actions: seq<Action>, o: Owner)
    requires SameSlots(s, t)
    ensures Ahead(t, actions, o) == Ahead(s, actions, o)
    decreases |actions|
  {
    hide Servings;
    if actions != [] { AheadStays(s, t, actions[1..], o); }
  }

  lemma {:induction false} ServedBalance(s: System, actions: seq<Action>, o: Owner)
    requires Inv(s) && CanRun(s, actions) && KeepsSlots(s, actions)
    ensures StillAhead(s, o) + Ahead(s, actions, o) == Served(s, actions, o) + StillAhead(Run(s, actions), o)
    decreases |actions|
  {
    hide Inv, Next, Enabled, ThroughAll, ServedAt, BegunAt, StillAhead;
    if actions != [] {
      var a, rest, t := actions[0], actions[1..], Next(s, actions[0]);
      StepServes(s, a, o);
      NextKeepsInv(s, a);
      ServedBalance(t, rest, o);
      AheadStays(s, t, rest, o);
      var begun := BegunAt(s.filter, a, o);
      var own := if begun == [] then [] else ThroughAll(s, begun[0]);
      assert StillAhead(s, o) + (own + Ahead(s, rest, o))
          == (StillAhead(s, o) + own) + Ahead(s, rest, o)
          == ServedAt(s, a, o) + (StillAhead(t, o) + Ahead(s, rest, o));
    }
  }

  /**
    The way of an event through the slots, over every run that keeps them and whatever runs meanwhile. Of each
    thread and each reporting task, exactly the events that pass the filter are served, each to every layer of
    the log slot, then of the metric slot, then of the trace slot, once and in order; only what lies ahead of
    the event it is inside of may be missing.
   */
  lemma EveryLayerIsServed(s: System, actions: seq<Action>, o: Owner)
    requires Inv(s) && CanRun(s, actions) && KeepsSlots(s, actions)
    ensures StillAhead(s, o) + Ahead(s, actions, o) == Served(s, actions, o) + StillAhead(Run(s, actions), o)
    ensures o !in s.fanouts && o !in Run(s, actions).fanouts ==> Served(s, actions, o) == Ahead(s, actions, o)
  {
    hide Inv, CanRun, Run, KeepsSlots, Ahead, Served, AheadOf;
    ServedBalance(s, actions, o);
    if o !in s.fanouts && o !in Run(s, actions).fanouts {
      assert [] + Ahead(s, actions, o) == Ahead(s, actions, o);
      assert Served(s, actions, o) + [] == Served(s, actions, o);
    }
  }
}
