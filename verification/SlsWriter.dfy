/**
  One SLS sink: the unbounded queue its layer sends to, and the `background_writer` task that
  empties it. The task is a state machine with one step for every point at which another thread
  or task can run: each arm of `select!`, each `try_recv`, and the three parts of `flush_batch`
  (drain the batch into a group, hand the group to `put_logs`, see the result).
 */
module SlsWriter {
  import opened Prelude
  import opened SlsRecord
  import Config

  const BATCH_SIZE: nat := 4096

  /** What made the task flush. */
  datatype Cause = Full | Timer | Closed | Shutdown

  /** Where the task is. */
  datatype Pc =
    | Selecting                 // at the head of the loop, in `select!`
    | Draining                  // in the `try_recv` loop of the shutdown arm
    | Flushing(cause: Cause)    // entering `flush_batch`
    | Sending(cause: Cause)     // the group is built
    | Awaiting(cause: Cause)    // `put_logs` has been handed the group
    | Warning(cause: Cause)     // `put_logs` failed; inside `tracing::warn!`
    | Finishing                 // about to send `done`
    | Returning                 // `done` sent, about to return and drop the receivers
    | Exited

  datatype Group = Group(cause: Cause, entries: seq<LogEntry>)

  datatype Writer = Writer(
    capacity: nat,               // BATCH_SIZE
    sink: Config.SlsLogSink,     // what it was created for
    pc: Pc,
    queue: seq<LogEntry>,        // the unbounded channel
    batch: seq<LogEntry>,
    building: seq<LogEntry>,     // drained into the group being built
    signal: bool,                // a message waits in the shutdown channel
    done: bool,                  // `done_tx` was used
    // histories
    accepted: seq<LogEntry>,     // every entry the queue took, in order
    refused: seq<LogEntry>,      // every entry sent after the receiver was gone
    groups: seq<Group>,          // every group handed to `put_logs`, in order
    ticks: nat,
    failures: nat,
    signalled: bool,             // a shutdown message was ever sent
    sealed: Option<nat>          // how many entries had been accepted when the last receive found nothing
  )

  function Fresh(capacity: nat, sink: Config.SlsLogSink): Writer {
    Writer(capacity, sink, Selecting, [], [], [], false, false, [], [], [], 0, 0, false, None)
  }

  datatype Act =
    | Offer(entry: LogEntry)     // a producer's `tx.send`
    | Signal                     // the handle's `shutdown_tx.try_send(())`
    | Recv                       // `rx.recv()` yields an entry
    | RecvClosed                 // `rx.recv()` yields `None`
    | Tick
    | TakeShutdown               // `shutdown_rx.recv()` resolves
    | TryRecv                    // `try_recv` yields an entry
    | TryRecvEmpty
    | Drain                      // `flush_batch`: empty batch returns, otherwise build the group
    | Put
    | PutOk
    | PutErr
    | WarnDone
    | SendDone
    | Return

  /** A step of the task itself, as opposed to a producer or the handle. */
  predicate Own(a: Act) {
    !a.Offer? && !a.Signal?
  }

  /**
    Which steps can happen now. `senders`: some layer still holds the queue's sender. `handle`:
    the shutdown sender still exists; once it is dropped `shutdown_rx.recv()` resolves to `None`,
    which the arm's `_` pattern takes as well.
   */
  predicate Can(w: Writer, a: Act, senders: bool, handle: bool) {
    match a
    case Offer(_) => senders
    case Signal => handle
    case Recv => w.pc.Selecting? && w.queue != []
    case RecvClosed => w.pc.Selecting? && w.queue == [] && !senders
    case Tick => w.pc.Selecting?
    case TakeShutdown => w.pc.Selecting? && (w.signal || !handle)
    case TryRecv => w.pc.Draining? && w.queue != []
    case TryRecvEmpty => w.pc.Draining? && w.queue == []
    case Drain => w.pc.Flushing?
    case Put => w.pc.Sending?
    case PutOk => w.pc.Awaiting?
    case PutErr => w.pc.Awaiting?
    case WarnDone => w.pc.Warning?
    case SendDone => w.pc.Finishing?
    case Return => w.pc.Returning?
  }

  /** Where `flush_batch` returns to. */
  function After(cause: Cause): Pc {
    if cause.Full? || cause.Timer? then Selecting else Finishing
  }

  function Do(w: Writer, a: Act): Writer {
    match a
    case Offer(e) =>
      if w.pc.Exited? then w.(refused := w.refused + [e])
      else w.(queue := w.queue + [e], accepted := w.accepted + [e])
    case Signal =>
      // `try_send` into a channel of capacity one: refused when full or when the receiver is gone
      if w.pc.Exited? then w.(signalled := true) else w.(signal := true, signalled := true)
    case Recv =>
      if w.queue == [] then w
      else
        var batch := w.batch + [w.queue[0]];
        w.(queue := w.queue[1..], batch := batch,
           pc := if |batch| >= w.capacity then Flushing(Full) else Selecting)
    case RecvClosed => w.(pc := Flushing(Closed), sealed := Some(|w.accepted|))
    case Tick => w.(ticks := w.ticks + 1, pc := if w.batch != [] then Flushing(Timer) else Selecting)
    case TakeShutdown => w.(signal := false, pc := Draining)
    case TryRecv => if w.queue == [] then w else w.(queue := w.queue[1..], batch := w.batch + [w.queue[0]])
    case TryRecvEmpty => w.(pc := Flushing(Shutdown), sealed := Some(|w.accepted|))
    case Drain =>
      if !w.pc.Flushing? then w
      else if w.batch == [] then w.(pc := After(w.pc.cause))
      else w.(building := w.batch, batch := [], pc := Sending(w.pc.cause))
    case Put =>
      if !w.pc.Sending? then w
      else w.(groups := w.groups + [Group(w.pc.cause, w.building)], building := [], pc := Awaiting(w.pc.cause))
    case PutOk => if !w.pc.Awaiting? then w else w.(pc := After(w.pc.cause))
    case PutErr => if !w.pc.Awaiting? then w else w.(failures := w.failures + 1, pc := Warning(w.pc.cause))
    case WarnDone => if !w.pc.Warning? then w else w.(pc := After(w.pc.cause))
    case SendDone => w.(done := true, pc := Returning)
    case Return => w.(pc := Exited)
  }

  // --------------------------------------------------------------- conservation

  /** All the entries of a list of groups, one group after the other. */
  function Flat(groups: seq<Group>): seq<LogEntry> {
    if groups == [] then [] else Flat(groups[..|groups| - 1]) + groups[|groups| - 1].entries
  }

  /** The task has seen the queue empty for the last time. */
  predicate Sealed(pc: Pc) {
    match pc
    case Selecting => false
    case Draining => false
    case Flushing(c) => c.Closed? || c.Shutdown?
    case Sending(c) => c.Closed? || c.Shutdown?
    case Awaiting(c) => c.Closed? || c.Shutdown?
    case Warning(c) => c.Closed? || c.Shutdown?
    case _ => true
  }

  /** Still in the loop, neither arm that ends the task taken. */
  predicate Looping(pc: Pc) {
    !Sealed(pc) && !pc.Draining?
  }

  /** FIFO conservation: handed over, then being built, then batched, then queued, is what was accepted. */
  ghost predicate Conserved(w: Writer) {
    Flat(w.groups) + w.building + w.batch + w.queue == w.accepted
  }

  ghost predicate Shape(w: Writer) {
    && w.capacity > 0
    && (w.building != [] <==> w.pc.Sending?)
    && (w.pc.Selecting? ==> |w.batch| < w.capacity)
    && (w.pc.Flushing? && w.pc.cause.Full? ==> |w.batch| == w.capacity)
    && (w.pc.Flushing? && w.pc.cause.Timer? ==> 0 < |w.batch| < w.capacity)
    && (w.pc.Flushing? && w.pc.cause.Closed? ==> |w.batch| < w.capacity)
    && (w.pc.Sending? ==> Sized(w.capacity, Group(w.pc.cause, w.building)))
    && (w.batch != [] ==> w.pc.Selecting? || w.pc.Draining? || w.pc.Flushing?)
    && (w.done <==> w.pc.Returning? || w.pc.Exited?)
    && (w.signal ==> w.signalled)
    && (w.refused != [] ==> w.pc.Exited?)
  }

  /** Once sealed, the entries not left in the queue are exactly those accepted before the seal. */
  ghost predicate SealKept(w: Writer) {
    if Sealed(w.pc) then w.sealed.Some? && |w.accepted| == w.sealed.value + |w.queue|
    else w.sealed.None?
  }

  // ----------------------------------------------------------- batch arithmetic

  predicate Sized(capacity: nat, g: Group) {
    match g.cause
    case Full => |g.entries| == capacity
    case Timer => 0 < |g.entries| < capacity
    case Closed => 0 < |g.entries| < capacity
    case Shutdown => 0 < |g.entries|
  }

  function CountCause(groups: seq<Group>, c: Cause): nat {
    if groups == [] then 0
    else CountCause(groups[..|groups| - 1], c) + if groups[|groups| - 1].cause == c then 1 else 0
  }

  /** The flush the task is in the middle of, if its group has not been handed over yet. */
  function Pending(pc: Pc, c: Cause): nat {
    if (pc.Flushing? || pc.Sending?) && pc.cause == c then 1 else 0
  }

  ghost predicate Counted(w: Writer) {
    && (forall i :: 0 <= i < |w.groups| ==> Sized(w.capacity, w.groups[i]))
    && CountCause(w.groups, Timer) + Pending(w.pc, Timer) <= w.ticks
    && (if Sealed(w.pc) then
          CountCause(w.groups, Closed) + CountCause(w.groups, Shutdown)
          + Pending(w.pc, Closed) + Pending(w.pc, Shutdown) <= 1
        else CountCause(w.groups, Closed) == CountCause(w.groups, Shutdown) == 0)
  }

  ghost predicate Inv(w: Writer) {
    Conserved(w) && Shape(w) && SealKept(w) && Counted(w)
  }

  lemma FlatPush(groups: seq<Group>, g: Group)
    ensures Flat(groups + [g]) == Flat(groups) + g.entries
    ensures forall c :: CountCause(groups + [g], c) == CountCause(groups, c) + if g.cause == c then 1 else 0
  {
    assert (groups + [g])[..|groups|] == groups;
  }

  lemma MoveHead(sent: seq<LogEntry>, batch: seq<LogEntry>, queue: seq<LogEntry>)
    requires queue != []
    ensures sent + (batch + [queue[0]]) + queue[1..] == sent + batch + queue
  {
    assert queue == [queue[0]] + queue[1..];
  }

  lemma OfferConserves(w: Writer, e: LogEntry)
    requires Conserved(w)
    ensures Conserved(Do(w, Offer(e)))
  {
    var sent := Flat(w.groups) + w.building + w.batch;
    assert sent + (w.queue + [e]) == (sent + w.queue) + [e];
  }

  lemma ReceiveConserves(w: Writer, a: Act)
    requires Conserved(w) && (a.Recv? || a.TryRecv?) && w.queue != []
    ensures Conserved(Do(w, a))
  {
    MoveHead(Flat(w.groups) + w.building, w.batch, w.queue);
  }

  lemma DrainConserves(w: Writer)
    requires Conserved(w) && w.pc.Flushing? && w.building == []
    ensures Conserved(Do(w, Drain))
  {
    var sent := Flat(w.groups);
    assert sent + [] + w.batch + w.queue == sent + w.batch + [] + w.queue;
  }

  lemma PutConserves(w: Writer)
    requires Conserved(w) && w.pc.Sending?
    ensures Conserved(Do(w, Put))
  {
    FlatPush(w.groups, Group(w.pc.cause, w.building));
    var sent := Flat(w.groups) + w.building;
    assert sent + [] + w.batch + w.queue == sent + w.batch + w.queue;
  }

  lemma ConservedStep(w: Writer, a: Act, senders: bool, handle: bool)
    requires Inv(w) && Can(w, a, senders, handle)
    ensures Conserved(Do(w, a))
  {
    hide Counted, SealKept, Flat, CountCause;
    match a {
      case Offer(e) => OfferConserves(w, e);
      case Recv => ReceiveConserves(w, a);
      case TryRecv => ReceiveConserves(w, a);
      case Drain => DrainConserves(w);
      case Put => PutConserves(w);
      case _ =>
    }
  }

  lemma PutCounts(w: Writer)
    requires Counted(w) && w.pc.Sending? && Sized(w.capacity, Group(w.pc.cause, w.building))
    ensures Counted(Do(w, Put))
  {
    hide Flat, CountCause;
    FlatPush(w.groups, Group(w.pc.cause, w.building));
  }

  lemma CountedStep(w: Writer, a: Act, senders: bool, handle: bool)
    requires Inv(w) && Can(w, a, senders, handle)
    ensures Counted(Do(w, a))
  {
    hide Conserved, SealKept, Flat, CountCause, Sized;
    if a.Put? {
      PutCounts(w);
    } else {
      assert Do(w, a).groups == w.groups && Do(w, a).capacity == w.capacity;
    }
  }

  /** Every step of a sink, its producers and its handle keeps the invariant. */
  lemma StepKeepsInv(w: Writer, a: Act, senders: bool, handle: bool)
    requires Inv(w) && Can(w, a, senders, handle)
    ensures Inv(Do(w, a))
  {
    hide Flat, CountCause;
    ConservedStep(w, a, senders, handle);
    CountedStep(w, a, senders, handle);
  }

  // ------------------------------------------------------------------------ runs

  /** A step together with who still holds the two senders when it happens. */
  datatype Step = Step(act: Act, senders: bool, handle: bool)

  ghost predicate CanRun(w: Writer, steps: seq<Step>)
    decreases |steps|
  {
    steps == [] ||
    (Can(w, steps[0].act, steps[0].senders, steps[0].handle) && CanRun(Do(w, steps[0].act), steps[1..]))
  }

  function Run(w: Writer, steps: seq<Step>): Writer
    decreases |steps|
  {
    if steps == [] then w else Run(Do(w, steps[0].act), steps[1..])
  }

  lemma {:induction false} RunKeepsInv(w: Writer, steps: seq<Step>)
    requires Inv(w) && CanRun(w, steps)
    ensures Inv(Run(w, steps))
    decreases |steps|
  {
    if steps != [] {
      StepKeepsInv(w, steps[0].act, steps[0].senders, steps[0].handle);
      RunKeepsInv(Do(w, steps[0].act), steps[1..]);
    }
  }

  lemma {:induction false} RunAppend(w: Writer, a: seq<Step>, b: seq<Step>)
    ensures Run(w, a + b) == Run(Run(w, a), b)
    ensures CanRun(w, a + b) <==> CanRun(w, a) && CanRun(Run(w, a), b)
    decreases |a|
  {
    if a == [] {
      assert a + b == b;
    } else {
      assert (a + b)[1..] == a[1..] + b;
      RunAppend(Do(w, a[0].act), a[1..], b);
    }
  }

  lemma FreshInv(capacity: nat, sink: Config.SlsLogSink)
    requires capacity > 0
    ensures Inv(Fresh(capacity, sink))
  {
  }

  /**
    Nothing is reordered, dropped or handed over twice: at any moment the groups handed to
    `put_logs`, failed ones included, are one after the other a prefix of what was accepted.
    When the task has exited, the rest is exactly what was accepted after its last receive
    found the queue empty.
   */
  lemma HandedOverOnceInOrder(capacity: nat, sink: Config.SlsLogSink, steps: seq<Step>)
    requires capacity > 0 && CanRun(Fresh(capacity, sink), steps)
    ensures var w := Run(Fresh(capacity, sink), steps);
      && Flat(w.groups) <= w.accepted
      && (w.pc.Exited? ==> (
            && w.sealed.Some? && w.sealed.value <= |w.accepted|
            && Flat(w.groups) == w.accepted[..w.sealed.value]
            && w.queue == w.accepted[w.sealed.value..]))
  {
    hide Inv, CanRun, Run, Flat;
    FreshInv(capacity, sink);
    RunKeepsInv(Fresh(capacity, sink), steps);
    InvHandsOver(Run(Fresh(capacity, sink), steps));
  }

  lemma InvHandsOver(w: Writer)
    requires Inv(w)
    ensures Flat(w.groups) <= w.accepted
    ensures w.pc.Exited? ==>
              && w.sealed.Some? && w.sealed.value <= |w.accepted|
              && Flat(w.groups) == w.accepted[..w.sealed.value]
              && w.queue == w.accepted[w.sealed.value..]
  {
    hide Counted, Flat;
    assert w.accepted == Flat(w.groups) + (w.building + w.batch + w.queue);
    if w.pc.Exited? {
      assert w.building + w.batch + w.queue == w.queue;
    }
  }

  // -------------------------------------------------------------- how many puts

  lemma OneMore(k: nat, capacity: nat)
    ensures (k + 1) * capacity == k * capacity + capacity
  {
  }

  lemma {:induction false} FullGroupsFit(groups: seq<Group>, capacity: nat)
    requires forall i :: 0 <= i < |groups| ==> Sized(capacity, groups[i])
    ensures CountCause(groups, Full) * capacity <= |Flat(groups)|
    ensures |groups| == CountCause(groups, Full) + CountCause(groups, Timer)
                        + CountCause(groups, Closed) + CountCause(groups, Shutdown)
  {
    if groups != [] {
      var front := groups[..|groups| - 1];
      FullGroupsFit(front, capacity);
      OneMore(CountCause(front, Full), capacity);
      assert |Flat(groups)| == |Flat(front)| + |groups[|groups| - 1].entries|;
    }
  }

  lemma DivideBound(k: nat, capacity: nat, n: nat)
    requires capacity > 0 && k * capacity <= n
    ensures k <= n / capacity
  {
    var q := n / capacity;
    assert n == q * capacity + n % capacity;
    assert (k - (q + 1)) * capacity == k * capacity - (q + 1) * capacity < 0;
  }

  lemma PutCountHolds(w: Writer)
    requires Inv(w)
    ensures |w.groups| <= |w.accepted| / w.capacity + w.ticks + 1
  {
    FullGroupsFit(w.groups, w.capacity);
    assert |Flat(w.groups)| <= |w.accepted|;
    DivideBound(CountCause(w.groups, Full), w.capacity, |w.accepted|);
  }

  /**
    The number of `put_logs` calls is at most accepted / BATCH_SIZE + ticks + 1, the batch is
    below the limit at every loop head, and every group has the size its cause allows.
   */
  lemma PutCountBound(capacity: nat, sink: Config.SlsLogSink, steps: seq<Step>)
    requires capacity > 0 && CanRun(Fresh(capacity, sink), steps)
    ensures var w := Run(Fresh(capacity, sink), steps);
      && |w.groups| <= |w.accepted| / capacity + w.ticks + 1
      && (w.pc.Selecting? ==> |w.batch| < capacity)
      && forall i :: 0 <= i < |w.groups| ==> Sized(capacity, w.groups[i])
  {
    FreshInv(capacity, sink);
    RunKeepsInv(Fresh(capacity, sink), steps);
    RunKeepsMakeup(Fresh(capacity, sink), steps);
    PutCountHolds(Run(Fresh(capacity, sink), steps));
  }

  lemma DoKeepsMakeup(w: Writer, a: Act)
    ensures Do(w, a).capacity == w.capacity && Do(w, a).sink == w.sink
  {
  }

  lemma {:induction false} RunKeepsMakeup(w: Writer, steps: seq<Step>)
    ensures Run(w, steps).capacity == w.capacity && Run(w, steps).sink == w.sink
    decreases |steps|
  {
    hide Do;
    if steps != [] { DoKeepsMakeup(w, steps[0].act); }
    if steps != [] { RunKeepsMakeup(Do(w, steps[0].act), steps[1..]); }
  }

  // -------------------------------------------------------------- the way to done

  /** An upper bound on the task's own steps from here to its return, once an ending arm is taken. */
  function ExitBound(w: Writer): nat {
    match w.pc
    case Selecting => 0
    case Draining => |w.queue| + 8
    case Flushing(_) => 7
    case Sending(_) => 6
    case Awaiting(_) => 5
    case Warning(_) => 4
    case Finishing => 2
    case Returning => 1
    case Exited => 0
  }

  function OwnSteps(steps: seq<Step>): nat {
    if steps == [] then 0 else (if Own(steps[0].act) then 1 else 0) + OwnSteps(steps[1..])
  }

  function Offers(steps: seq<Step>): nat {
    if steps == [] then 0 else (if steps[0].act.Offer? then 1 else 0) + Offers(steps[1..])
  }

  /** Some step of the task itself can happen. */
  ghost predicate OwnStepReady(w: Writer, senders: bool, handle: bool) {
    exists a :: Own(a) && Can(w, a, senders, handle)
  }

  lemma ExitAlwaysReady(w: Writer, senders: bool, handle: bool)
    requires !w.pc.Selecting? && !w.pc.Exited?
    ensures OwnStepReady(w, senders, handle)
  {
    var a := match w.pc
      case Draining => if w.queue == [] then TryRecvEmpty else TryRecv
      case Flushing(_) => Drain
      case Sending(_) => Put
      case Awaiting(_) => PutOk
      case Warning(_) => WarnDone
      case Finishing => SendDone
      case _ => Return;
    assert Own(a) && Can(w, a, senders, handle);
  }

  lemma ExitStep(w: Writer, a: Act, senders: bool, handle: bool)
    requires w.pc.Draining? || Sealed(w.pc)
    requires Can(w, a, senders, handle)
    ensures var v := Do(w, a);
      && (v.pc.Draining? || Sealed(v.pc))
      && ExitBound(v) + (if Own(a) then 1 else 0) <= ExitBound(w) + if a.Offer? then 1 else 0
  {
  }

  /**
    Once the shutdown or the closed arm is taken the task never loops again: in any run the steps
    it makes plus those still ahead are bounded by the queue length and what producers add meanwhile,
    and until it has returned it always has a step of its own to make, whoever holds the senders.
   */
  lemma {:induction false} ExitIsBounded(w: Writer, steps: seq<Step>, senders: bool, handle: bool)
    requires w.pc.Draining? || Sealed(w.pc)
    requires CanRun(w, steps)
    ensures var v := Run(w, steps);
      && (v.pc.Draining? || Sealed(v.pc))
      && OwnSteps(steps) + ExitBound(v) <= ExitBound(w) + Offers(steps)
      && (!v.pc.Exited? ==> OwnStepReady(v, senders, handle))
    decreases |steps|
  {
    if steps == [] {
      if !w.pc.Exited? { ExitAlwaysReady(w, senders, handle); }
    } else {
      ExitStep(w, steps[0].act, steps[0].senders, steps[0].handle);
      ExitIsBounded(Do(w, steps[0].act), steps[1..], senders, handle);
    }
  }
}
