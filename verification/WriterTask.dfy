/**
  `background_writer` and `flush_batch` as code: an object whose fields are updated in place, and
  beside it the state machine of the same sink, advanced by one enabled step at every point where
  the code does something another thread could see. What the machine guarantees over all its runs
  therefore holds of the code.
 */
module WriterTask {
  import opened Prelude
  import opened SlsRecord
  import Config
  import W = SlsWriter

  datatype LogGroup = LogGroup(topic: Option<string>, source: Option<string>, logs: seq<Log>)

  /** One call of `put_logs`. */
  datatype Put = Put(project: string, logstore: string, group: LogGroup)

  function NonEmpty(s: string): Option<string> {
    if s == "" then None else Some(s)
  }

  /** The records of all groups, one group after the other. */
  function AllLogs(puts: seq<Put>): seq<Log> {
    if puts == [] then [] else AllLogs(puts[..|puts| - 1]) + puts[|puts| - 1].group.logs
  }

  lemma {:induction false} RecordsAppend(a: seq<LogEntry>, b: seq<LogEntry>)
    ensures RecordsOf(a + b) == RecordsOf(a) + RecordsOf(b)
  {
    if b == [] {
      assert a + b == a;
    } else {
      assert (a + b)[..|a + b| - 1] == a + b[..|b| - 1];
      RecordsAppend(a, b[..|b| - 1]);
    }
  }

  /** These entries, written as records under the sink's topic and source and put into its project and store. */
  function PutOf(sink: Config.SlsLogSink, entries: seq<LogEntry>): Put {
    Put(sink.project, sink.logstore, LogGroup(NonEmpty(sink.topic), NonEmpty(sink.source), RecordsOf(entries)))
  }

  /** Such a put goes to the sink's project and store, with its topic as topic and its source as source. */
  predicate GoesTo(put: Put, sink: Config.SlsLogSink) {
    && put.project == sink.project && put.logstore == sink.logstore
    && put.group.topic == (if sink.topic == "" then None else Some(sink.topic))
    && put.group.source == (if sink.source == "" then None else Some(sink.source))
  }

  /** Field by field: where a put goes, and that it holds one record for each entry, in order. */
  lemma PutSpelled(sink: Config.SlsLogSink, entries: seq<LogEntry>)
    ensures var put := PutOf(sink, entries);
      && put.project == sink.project && put.logstore == sink.logstore
      && UnwrapOr(put.group.topic, "") == sink.topic && (put.group.topic.Some? <==> sink.topic != "")
      && UnwrapOr(put.group.source, "") == sink.source && (put.group.source.Some? <==> sink.source != "")
      && |put.group.logs| == |entries|
      && forall i :: 0 <= i < |entries| ==> DecodeRecord(put.group.logs[i]) == Some(entries[i])
  {
    forall i | 0 <= i < |entries| ensures DecodeRecord(RecordsOf(entries)[i]) == Some(entries[i]) {
      RecordAt(entries, i);
      RecordRoundTrip(entries[i]);
    }
  }

  lemma {:induction false} RecordAt(entries: seq<LogEntry>, i: nat)
    requires i < |entries|
    ensures RecordsOf(entries)[i] == RecordOf(entries[i])
  {
    if i < |entries| - 1 { RecordAt(entries[..|entries| - 1], i); }
  }

  /** The puts are those of the groups the machine handed over. */
  ghost predicate Writes(sent: seq<Put>, groups: seq<W.Group>, sink: Config.SlsLogSink) {
    |sent| == |groups| && forall i :: 0 <= i < |sent| ==> sent[i] == PutOf(sink, groups[i].entries)
  }

  lemma {:induction false} WrittenRecords(sent: seq<Put>, groups: seq<W.Group>, sink: Config.SlsLogSink)
    requires Writes(sent, groups, sink)
    ensures AllLogs(sent) == RecordsOf(W.Flat(groups))
  {
    if sent != [] {
      var n := |sent| - 1;
      WrittenRecords(sent[..n], groups[..n], sink);
      RecordsAppend(W.Flat(groups[..n]), groups[n].entries);
    }
  }

  /** The arm `select!` takes, which must be ready. */
  datatype Arm = RecvArm | TickArm | ShutdownArm

  /**
    One turn of the loop as the environment plays it: what producers send before it, whether the
    handle asks to stop, whether the last sender or the handle is dropped, the arm taken, what producers
    send between two `try_recv` and while a put is awaited, and the result of the put. Who has been
    dropped sends nothing any more.
   */
  datatype Turn = Turn(
    arrivals: seq<LogEntry>, ask: bool, dropSenders: bool, dropHandle: bool, arm: Arm,
    between: seq<LogEntry>, during: seq<LogEntry>, fails: bool)

  // ------------------------------------------------------------ the loop as a function

  /** The loop's variables and what is shared with it; of each put its entries. */
  datatype Loop = Loop(
    queue: seq<LogEntry>, batch: seq<LogEntry>, puts: seq<seq<LogEntry>>,
    senders: bool, handle: bool, signal: bool, running: bool)

  /** What happens outside before `select!` looks again. */
  function Heeded(l: Loop, t: Turn): Loop {
    l.(queue := l.queue + if l.senders then t.arrivals else [],
       signal := l.signal || (t.ask && l.handle),
       senders := l.senders && !t.dropSenders, handle := l.handle && !t.dropHandle)
  }

  /** `flush_batch`, with what arrives while the put is awaited. */
  function Flushed(l: Loop, t: Turn): Loop {
    if l.batch == [] then l
    else l.(puts := l.puts + [l.batch], batch := [], queue := l.queue + if l.senders then t.during else [])
  }

  /** The arm, if it is ready. */
  function Selected(l: Loop, t: Turn, capacity: nat): Loop {
    match t.arm
    case RecvArm =>
      if l.queue != [] then
        var m := l.(batch := l.batch + [l.queue[0]], queue := l.queue[1..]);
        if |m.batch| >= capacity then Flushed(m, t) else m
      else if l.senders then l
      else Flushed(l, t).(running := false)
    case TickArm => Flushed(l, t)
    case ShutdownArm =>
      if l.signal || !l.handle then
        var late := if l.queue != [] && l.senders then t.between else [];
        Flushed(l.(batch := l.batch + l.queue + late, queue := [], signal := false), t).(running := false)
      else l
  }

  function AfterScript(l: Loop, script: seq<Turn>, capacity: nat): Loop {
    if script == [] then l
    else
      var m := AfterScript(l, script[..|script| - 1], capacity);
      if m.running then Selected(Heeded(m, script[|script| - 1]), script[|script| - 1], capacity) else m
  }

  /** A loop that has returned makes no more turns. */
  lemma {:induction false} StoppedStays(l: Loop, script: seq<Turn>, i: nat, capacity: nat)
    requires i <= |script| && (i == |script| || !AfterScript(l, script[..i], capacity).running)
    ensures AfterScript(l, script, capacity) == AfterScript(l, script[..i], capacity)
  {
    if i == |script| {
      assert script[..i] == script;
    } else {
      var front := script[..|script| - 1];
      assert front[..i] == script[..i];
      StoppedStays(l, front, i, capacity);
    }
  }

  function Nonempty(batch: seq<LogEntry>): seq<seq<LogEntry>> {
    if batch == [] then [] else [batch]
  }

  /**
    What one more turn does, wherever in whatever script it stands. A loop that has returned stays as it is.
    A tick puts the batch if there is one. A receive moves the head of the queue into the batch and puts it
    when it has reached the limit; with the channel closed and empty it puts the rest and returns. The
    shutdown arm, once asked for or with the handle gone, puts batch, queue and late comers and returns.
   */
  lemma TurnByTurn(l: Loop, script: seq<Turn>, t: Turn, capacity: nat)
    ensures var m, n := AfterScript(l, script, capacity), AfterScript(l, script + [t], capacity);
      if !m.running then n == m
      else
        var queue := m.queue + if m.senders then t.arrivals else [];
        var asked := m.signal || (t.ask && m.handle) || !m.handle || t.dropHandle;
        var full := |m.batch| + 1 >= capacity;
        && n.senders == (m.senders && !t.dropSenders) && n.handle == (m.handle && !t.dropHandle)
        && (t.arm.TickArm? ==> n.running && n.batch == [] && n.puts == m.puts + Nonempty(m.batch))
        && (t.arm.TickArm? ==> n.queue == queue + if m.batch != [] && n.senders then t.during else [])
        && (t.arm.RecvArm? && queue != [] ==> (
              && n.running
              && n.batch == (if full then [] else m.batch + [queue[0]])
              && n.puts == (if full then m.puts + [m.batch + [queue[0]]] else m.puts)
              && n.queue == queue[1..] + if full && n.senders then t.during else []))
        && (t.arm.RecvArm? && queue == [] ==> (
              && n.running == n.senders
              && n.batch == (if n.senders then m.batch else [])
              && n.puts == (if n.senders then m.puts else m.puts + Nonempty(m.batch)) && n.queue == []))
        && (t.arm.ShutdownArm? && !asked ==> n.running && n.batch == m.batch && n.puts == m.puts && n.queue == queue)
        && (t.arm.ShutdownArm? && asked ==> (
              && !n.running && n.batch == []
              && (queue == [] ==> n.puts == m.puts + Nonempty(m.batch))
              && (queue != [] ==>
                    n.puts == m.puts + [m.batch + queue + if n.senders then t.between else []])))
  {
    hide AfterScript, Heeded, Selected;
    var m := AfterScript(l, script, capacity);
    LastTurn(l, script, t, capacity);
    if m.running {
      var h := Heeded(m, t);
      HeededSpelled(m, t);
      match t.arm {
        case TickArm => TickSpelled(h, t, capacity);
        case RecvArm => RecvSpelled(h, t, capacity);
        case ShutdownArm => ShutdownSpelled(h, t, capacity);
      }
    }
  }

  lemma LastTurn(l: Loop, script: seq<Turn>, t: Turn, capacity: nat)
    ensures var m := AfterScript(l, script, capacity);
      AfterScript(l, script + [t], capacity) == if m.running then Selected(Heeded(m, t), t, capacity) else m
  {
    assert (script + [t])[..|script|] == script;
  }

  lemma HeededSpelled(m: Loop, t: Turn)
    ensures var h := Heeded(m, t);
      && h.queue == m.queue + (if m.senders then t.arrivals else [])
      && h.batch == m.batch && h.puts == m.puts && h.running == m.running
      && h.senders == (m.senders && !t.dropSenders) && h.handle == (m.handle && !t.dropHandle)
      && h.signal == (m.signal || (t.ask && m.handle))
  {
  }

  lemma TickSpelled(h: Loop, t: Turn, capacity: nat)
    requires t.arm.TickArm?
    ensures var n := Selected(h, t, capacity);
      && n.senders == h.senders && n.handle == h.handle && n.running == h.running
      && n.batch == [] && n.puts == h.puts + Nonempty(h.batch)
      && n.queue == h.queue + if h.batch != [] && h.senders then t.during else []
  {
  }

  lemma RecvSpelled(h: Loop, t: Turn, capacity: nat)
    requires t.arm.RecvArm?
    ensures var n, full := Selected(h, t, capacity), |h.batch| + 1 >= capacity;
      && n.senders == h.senders && n.handle == h.handle
      && (h.queue != [] ==> (
            && n.running == h.running
            && n.batch == (if full then [] else h.batch + [h.queue[0]])
            && n.puts == (if full then h.puts + [h.batch + [h.queue[0]]] else h.puts)
            && n.queue == h.queue[1..] + if full && h.senders then t.during else []))
      && (h.queue == [] ==> (
            && n.running == (h.senders && h.running)
            && n.batch == (if h.senders then h.batch else [])
            && n.puts == (if h.senders then h.puts else h.puts + Nonempty(h.batch)) && n.queue == []))
  {
  }

  lemma ShutdownSpelled(h: Loop, t: Turn, capacity: nat)
    requires t.arm.ShutdownArm?
    ensures var n := Selected(h, t, capacity);
      && n.senders == h.senders && n.handle == h.handle
      && (!h.signal && h.handle ==> n == h)
      && (h.signal || !h.handle ==> (
            && !n.running && n.batch == []
            && (h.queue == [] ==> n.puts == h.puts + Nonempty(h.batch))
            && (h.queue != [] ==> n.puts == h.puts + [h.batch + h.queue + if h.senders then t.between else []])))
  {
    assert h.batch + [] + [] == h.batch;
  }

  lemma GroupAppended(groups: seq<W.Group>, g: W.Group)
    ensures EntriesOf(groups + [g]) == EntriesOf(groups) + [g.entries]
  {
  }

  function EntriesOf(groups: seq<W.Group>): seq<seq<LogEntry>> {
    seq(|groups|, i requires 0 <= i < |groups| => groups[i].entries)
  }

  /** The puts of these entries. */
  function PutsOf(sink: Config.SlsLogSink, puts: seq<seq<LogEntry>>): seq<Put> {
    seq(|puts|, i requires 0 <= i < |puts| => PutOf(sink, puts[i]))
  }

  class BackgroundWriter {
    const capacity: nat
    const sink: Config.SlsLogSink  // its project, logstore, topic and source
    var queue: seq<LogEntry>       // the channel between the layer and this task
    var senders: bool              // some layer still holds the sender
    var handle: bool               // the shutdown sender still exists
    var signal: bool               // its channel, of capacity one
    var batch: seq<LogEntry>
    var sent: seq<Put>             // the calls of `put_logs`
    var done: bool
    var running: bool              // the receivers have not been dropped
    ghost var machine: W.Writer
    ghost var trace: seq<W.Step>

    ghost predicate Tied()
      reads this
    {
      && capacity > 0 && W.CanRun(W.Fresh(capacity, sink), trace) && machine == W.Run(W.Fresh(capacity, sink), trace)
      && machine.capacity == capacity && machine.sink == sink
      && queue == machine.queue && signal == machine.signal && batch == machine.batch && done == machine.done
      && (running <==> !machine.pc.Exited?)
      && Writes(sent, machine.groups, sink)
    }

    /** At the head of the loop, or returned. */
    ghost predicate Valid()
      reads this
    {
      Tied() && (machine.pc.Selecting? || machine.pc.Exited?)
    }

    constructor (capacity: nat, sink: Config.SlsLogSink)
      requires capacity > 0
      ensures Valid() && running && senders && handle && queue == [] && batch == [] && sent == []
      ensures this.capacity == capacity && this.sink == sink
      ensures trace == []
    {
      this.capacity, this.sink := capacity, sink;
      queue, batch, sent := [], [], [];
      senders, handle, signal, done, running := true, true, false, false, true;
      machine, trace := W.Fresh(capacity, sink), [];
    }

    /** The machine takes one step. */
    ghost method Advance(a: W.Act)
      requires W.CanRun(W.Fresh(capacity, sink), trace) && machine == W.Run(W.Fresh(capacity, sink), trace)
      requires W.Can(machine, a, senders, handle)
      modifies this`machine, this`trace
      ensures machine == W.Do(old(machine), a)
      ensures trace == old(trace) + [W.Step(a, senders, handle)]
      ensures W.CanRun(W.Fresh(capacity, sink), trace) && machine == W.Run(W.Fresh(capacity, sink), trace)
    {
      var step := [W.Step(a, senders, handle)];
      W.RunAppend(W.Fresh(capacity, sink), trace, step);
      assert step[1..] == [];
      trace := trace + step;
      machine := W.Do(machine, a);
    }

    /** `tx.send`, ignored by its caller when the receiver is gone. */
    method Send(entry: LogEntry)
      requires Tied() && senders
      modifies this`queue, this`machine, this`trace
      ensures Tied() && machine == W.Do(old(machine), W.Offer(entry))
      ensures queue == if running then old(queue) + [entry] else old(queue)
      ensures machine.pc == old(machine.pc) && machine.groups == old(machine.groups)
      ensures trace == old(trace) + [W.Step(W.Offer(entry), senders, handle)]
    {
      if running {
        queue := queue + [entry];
      }
      Advance(W.Offer(entry));
    }

    method SendAll(entries: seq<LogEntry>)
      requires Tied() && running && (senders || entries == [])
      modifies this`queue, this`machine, this`trace
      ensures Tied() && queue == old(queue) + entries
      ensures machine == old(machine).(queue := queue, accepted := old(machine.accepted) + entries)
    {
      hide W.CanRun, W.Run, Writes;
      for i := 0 to |entries|
        invariant Tied() && queue == old(queue) + entries[..i]
        invariant machine == old(machine).(queue := queue, accepted := old(machine.accepted) + entries[..i])
      {
        assert entries[..i + 1] == entries[..i] + [entries[i]];
        Send(entries[i]);
      }
      assert entries[..|entries|] == entries;
    }

    /** The handle's `try_send(())`. */
    method TrySignal()
      requires Tied() && handle
      modifies this`signal, this`machine, this`trace
      ensures Tied() && machine == W.Do(old(machine), W.Signal) && machine.pc == old(machine.pc)
      ensures signal == (running || old(signal)) && machine.groups == old(machine.groups)
    {
      if running {
        signal := true;
      }
      Advance(W.Signal);
    }

    /** The entries of each put so far. */
    ghost function Handed(): seq<seq<LogEntry>>
      reads this`machine
    {
      EntriesOf(machine.groups)
    }

    /** The first half of `flush_batch`: `batch.drain(..)` into a log group. */
    method DrainIntoGroup() returns (group: LogGroup)
      modifies this`batch
      ensures batch == [] && group == PutOf(sink, old(batch)).group
    {
      group := LogGroup(None, None, []);
      if sink.topic != "" {
        group := group.(topic := Some(sink.topic));
      }
      if sink.source != "" {
        group := group.(source := Some(sink.source));
      }
      var drained := batch;
      batch := [];
      for i := 0 to |drained|
        invariant batch == [] && group == PutOf(sink, drained[..i]).group
      {
        var log := BuildLog(drained[i]);
        group := group.(logs := group.logs + [log]);
        assert drained[..i + 1][..i] == drained[..i];
      }
      assert drained[..|drained|] == drained;
    }

    /** `put_logs` is handed the group. */
    method PutGroup(group: LogGroup)
      requires Tied() && machine.pc.Sending? && group == PutOf(sink, machine.building).group
      modifies this`sent, this`machine, this`trace
      ensures Tied() && sent == old(sent) + [Put(sink.project, sink.logstore, group)]
      ensures machine == W.Do(old(machine), W.Put) && Handed() == old(Handed()) + [old(machine.building)]
    {
      hide W.CanRun, W.Run, RecordsOf;
      GroupAppended(machine.groups, W.Group(machine.pc.cause, machine.building));
      sent := sent + [Put(sink.project, sink.logstore, group)];
      Advance(W.Put);
    }

    /** The await, during which producers send, and the warning if the put failed. */
    method AwaitPut(during: seq<LogEntry>, fails: bool)
      requires Tied() && machine.pc.Awaiting? && running && (senders || during == [])
      modifies this`queue, this`machine, this`trace
      ensures Tied() && machine.pc == W.After(old(machine.pc.cause)) && queue == old(queue) + during
      ensures machine.accepted == old(machine.accepted) + during && machine.ticks == old(machine.ticks)
      ensures machine.groups == old(machine.groups)
      ensures machine.failures == old(machine.failures) + if fails then 1 else 0
    {
      hide W.CanRun, W.Run, Writes;
      SendAll(during);
      if fails {
        Advance(W.PutErr);
        Advance(W.WarnDone);
      } else {
        Advance(W.PutOk);
      }
    }

    /** `flush_batch`; `during` is what producers send while the put is awaited. */
    method FlushBatch(ghost cause: W.Cause, during: seq<LogEntry>, fails: bool)
      requires Tied() && machine.pc == W.Flushing(cause) && running && (senders || during == [])
      modifies this`batch, this`sent, this`queue, this`machine, this`trace
      ensures Tied() && machine.pc == W.After(cause) && batch == []
      ensures machine.ticks == old(machine.ticks)
      ensures old(batch) == [] ==> sent == old(sent) && queue == old(queue) && machine.accepted == old(machine.accepted)
      ensures old(batch) != [] ==> (
                && sent == old(sent) + [PutOf(sink, old(batch))] && GoesTo(sent[|sent| - 1], sink)
                && queue == old(queue) + during
                && machine.accepted == old(machine.accepted) + during)
      ensures Handed() == old(Handed()) + Nonempty(old(batch))
      ensures machine.failures == old(machine.failures) + if old(batch) != [] && fails then 1 else 0
    {
      hide W.CanRun, W.Run, RecordsOf, Writes;
      if batch == [] {
        Advance(W.Drain);
        return;
      }
      var group := DrainIntoGroup();
      Advance(W.Drain);
      PutGroup(group);
      AwaitPut(during, fails);
    }

    /** The arm of `rx.recv()`, ready when an entry is there or the last sender is gone. */
    method OnRecv(during: seq<LogEntry>, fails: bool)
      requires Valid() && running && (queue != [] || !senders) && (senders || during == [])
      modifies this`batch, this`sent, this`queue, this`done, this`running, this`machine, this`trace
      ensures Valid()
      ensures old(queue) == [] ==> (
                && !running && done && batch == [] && queue == []
                && sent == (if old(batch) == [] then old(sent) else old(sent) + [PutOf(sink, old(batch))])
                && Handed() == old(Handed()) + Nonempty(old(batch)))
      ensures old(queue) != [] && |old(batch)| + 1 < capacity ==> (
                && running && batch == old(batch) + [old(queue)[0]] && sent == old(sent)
                && queue == old(queue)[1..] && Handed() == old(Handed()))
      ensures old(queue) != [] && |old(batch)| + 1 >= capacity ==> (
                && running && batch == [] && sent == old(sent) + [PutOf(sink, old(batch) + [old(queue)[0]])]
                && queue == old(queue)[1..] + during && Handed() == old(Handed()) + [old(batch) + [old(queue)[0]]])
    {
      hide W.CanRun, W.Run, RecordsOf, Writes, PutOf;
      if queue != [] {
        batch := batch + [queue[0]];
        queue := queue[1..];
        Advance(W.Recv);
        if |batch| >= capacity {
          FlushBatch(W.Full, during, fails);
        }
      } else {
        Advance(W.RecvClosed);
        FlushBatch(W.Closed, during, fails);
        Leave();
      }
    }

    /** The arm of `interval.tick()`. */
    method OnTick(during: seq<LogEntry>, fails: bool)
      requires Valid() && running && (senders || during == [])
      modifies this`batch, this`sent, this`queue, this`machine, this`trace
      ensures Valid() && batch == []
      ensures sent == if old(batch) == [] then old(sent) else old(sent) + [PutOf(sink, old(batch))]
      ensures queue == if old(batch) == [] then old(queue) else old(queue) + during
      ensures Handed() == old(Handed()) + Nonempty(old(batch))
      ensures machine.ticks == old(machine.ticks) + 1
    {
      hide W.CanRun, W.Run, RecordsOf, Writes, PutOf;
      Advance(W.Tick);
      if batch != [] {
        FlushBatch(W.Timer, during, fails);
      }
    }

    /** `try_recv` finds an entry. */
    method TryRecv()
      requires Tied() && machine.pc.Draining? && running && queue != []
      modifies this`batch, this`queue, this`machine, this`trace
      ensures Tied() && machine.pc.Draining? && machine.groups == old(machine.groups)
      ensures batch == old(batch) + [old(queue)[0]] && queue == old(queue)[1..]
    {
      hide W.CanRun, W.Run, Writes;
      batch := batch + [queue[0]];
      queue := queue[1..];
      Advance(W.TryRecv);
    }

    /** One entry into the batch, after which another one may arrive. */
    method TakeOne(arrives: Option<LogEntry>)
      requires Tied() && machine.pc.Draining? && running && queue != [] && (senders || arrives.None?)
      modifies this`batch, this`queue, this`machine, this`trace
      ensures Tied() && machine.pc.Draining? && machine.groups == old(machine.groups)
      ensures batch + queue == old(batch + queue) + if arrives.Some? then [arrives.value] else []
      ensures |queue| == |old(queue)| - if arrives.Some? then 0 else 1
    {
      hide W.CanRun, W.Run, W.Do, Writes;
      assert batch + queue == (batch + [queue[0]]) + queue[1..];
      TryRecv();
      if arrives.Some? {
        assert batch + (queue + [arrives.value]) == (batch + queue) + [arrives.value];
        Send(arrives.value);
      }
    }

    /** `while let Ok(e) = rx.try_recv()`; `between` arrives one entry after each. */
    method DrainQueue(between: seq<LogEntry>)
      requires Tied() && machine.pc.Draining? && running && (senders || between == [])
      modifies this`batch, this`queue, this`machine, this`trace
      ensures Tied() && machine.pc.Draining? && queue == [] && machine.groups == old(machine.groups)
      ensures batch == old(batch) + old(queue) + if old(queue) == [] then [] else between
    {
      hide W.CanRun, W.Run, W.Do, Writes, Tied;
      var i := 0;
      while queue != []
        invariant 0 <= i <= |between| && Tied() && machine.pc.Draining? && machine.groups == old(machine.groups)
        invariant running
        invariant batch + queue == old(batch + queue) + between[..i]
        invariant old(queue) == [] ==> i == 0 && queue == []
        invariant old(queue) != [] && queue == [] ==> i == |between|
        decreases |queue| + 2 * (|between| - i)
      {
        if i < |between| {
          assert between[..i + 1] == between[..i] + [between[i]];
          TakeOne(Some(between[i]));
          i := i + 1;
        } else {
          TakeOne(None);
        }
      }
      assert batch + [] == batch && between[..|between|] == between && between[..0] == [];
    }

    /** The start of that arm: everything queued joins the batch, until the queue is seen empty. */
    method TakeAll(between: seq<LogEntry>)
      requires Tied() && machine.pc.Selecting? && running && (signal || !handle) && (senders || between == [])
      modifies this`batch, this`queue, this`signal, this`machine, this`trace
      ensures Tied() && machine.pc == W.Flushing(W.Shutdown) && running && queue == [] && !signal
      ensures batch == old(batch) + old(queue) + if old(queue) == [] then [] else between
      ensures Handed() == old(Handed())
    {
      hide W.CanRun, W.Run, RecordsOf, Writes;
      signal := false;
      Advance(W.TakeShutdown);
      DrainQueue(between);
      Advance(W.TryRecvEmpty);
    }

    /** The arm of `shutdown_rx.recv()`: everything queued goes out in one last group. */
    method OnShutdown(between: seq<LogEntry>, during: seq<LogEntry>, fails: bool)
      requires Valid() && running && (signal || !handle) && (senders || between == during == [])
      modifies this`batch, this`sent, this`queue, this`signal, this`done, this`running, this`machine, this`trace
      ensures Valid() && !running && done && batch == [] && !signal
      ensures var last := old(batch) + old(queue) + if old(queue) == [] then [] else between;
        && sent == (if last == [] then old(sent) else old(sent) + [PutOf(sink, last)])
        && queue == (if last == [] then [] else during)
        && Handed() == old(Handed()) + Nonempty(last)
    {
      hide W.CanRun, W.Run, W.Do, RecordsOf, Writes, PutOf;
      TakeAll(between);
      FlushBatch(W.Shutdown, during, fails);
      Leave();
    }

    /** `done_tx.send(())` and the return that drops the receivers. */
    method Leave()
      requires Tied() && machine.pc.Finishing? && running
      modifies this`done, this`running, this`machine, this`trace
      ensures Valid() && !running && done && machine.accepted == old(machine.accepted)
      ensures machine.groups == old(machine.groups)
    {
      done := true;
      Advance(W.SendDone);
      running := false;
      Advance(W.Return);
    }

    /** The records sent are those of the entries handed over; with batch and queue these are what was accepted. */
    ghost predicate Accounted()
      requires capacity > 0
      reads this
    {
      var handed := W.Flat(machine.groups);
      && AllLogs(sent) == RecordsOf(handed)
      && (forall i :: 0 <= i < |sent| ==> GoesTo(sent[i], sink))
      && (if running then machine.accepted == handed + batch + queue
          else machine.accepted == handed + queue && machine.sealed == Some(|handed|))
      && |sent| <= |machine.accepted| / capacity + machine.ticks + 1
    }

    /** The loop at this moment. */
    ghost function Now(): Loop
      reads this
    {
      Loop(queue, batch, Handed(), senders, handle, signal, running)
    }

    /** What happens outside before `select!` looks again. */
    method Outside(turn: Turn)
      requires Valid() && running
      modifies this`queue, this`senders, this`handle, this`signal, this`machine, this`trace
      ensures Valid() && running
      ensures senders == (old(senders) && !turn.dropSenders) && handle == (old(handle) && !turn.dropHandle)
      ensures queue == old(queue) + if old(senders) then turn.arrivals else []
      ensures signal == (old(signal) || (turn.ask && old(handle)))
      ensures Now() == Heeded(old(Now()), turn)
    {
      hide W.CanRun, W.Run, Writes;
      if senders {
        SendAll(turn.arrivals);
      }
      if turn.ask && handle {
        TrySignal();
      }
      senders := senders && !turn.dropSenders;
      handle := handle && !turn.dropHandle;
    }

    /** One pass through `select!`, with the arm that is taken, if it is ready. */
    method Select(turn: Turn)
      requires Valid() && running
      modifies this`batch, this`sent, this`queue, this`signal, this`done, this`running, this`machine, this`trace
      ensures Valid()
      ensures !running <==>
                || (turn.arm.RecvArm? && old(queue) == [] && !senders)
                || (turn.arm.ShutdownArm? && (old(signal) || !handle))
      ensures running ==> signal == old(signal)
      ensures turn.arm.TickArm? ==> (
                && batch == []
                && sent == if old(batch) == [] then old(sent) else old(sent) + [PutOf(sink, old(batch))])
      ensures turn.arm.RecvArm? && old(queue) != [] && |old(batch)| + 1 < capacity ==>
                batch == old(batch) + [old(queue)[0]] && queue == old(queue)[1..] && sent == old(sent)
      ensures turn.arm.RecvArm? && old(queue) != [] && |old(batch)| + 1 >= capacity ==>
                batch == [] && sent == old(sent) + [PutOf(sink, old(batch) + [old(queue)[0]])]
      ensures Now() == Selected(old(Now()), turn, capacity)
    {
      hide W.CanRun, W.Run, W.Do, PutOf, RecordsOf, Writes;
      var between, during := if senders then turn.between else [], if senders then turn.during else [];
      match turn.arm {
        case RecvArm => if queue != [] || !senders { OnRecv(during, turn.fails); }
        case TickArm => OnTick(during, turn.fails);
        case ShutdownArm => if signal || !handle { OnShutdown(between, during, turn.fails); }
      }
    }

    /**
      `background_writer`: turn after turn until an ending arm is taken. However the environment plays,
      and whichever of the senders and the handle it drops when, the records sent are those of the
      accepted entries, in order and without repetition; once the task has returned they are the records
      of exactly what was accepted before its last receive. Each put goes to the sink, and which entries
      it holds is a function of the script. The first turn of the shutdown arm after the handle asked or was
      dropped is the last, and after a tick the batch is empty.
     */
    method RunLoop(script: seq<Turn>)
      requires Valid() && trace == [] && running && batch == [] && sent == []
      modifies this
      ensures Valid() && capacity > 0 && Accounted()
      ensures var start := Loop([], [], [], old(senders), old(handle), false, true);
        var l := AfterScript(start, script, capacity);
        && queue == l.queue && batch == l.batch && running == l.running && sent == PutsOf(sink, l.puts)
      ensures running && script != [] && script[|script| - 1].arm.TickArm? ==> batch == []
      ensures running ==>
                forall i, k :: 0 <= k <= i < |script| && script[i].arm.ShutdownArm? ==>
                  !script[k].ask && !script[k].dropHandle
    {
      hide W.CanRun, W.Run, W.Do, PutOf, Heeded, Selected, Accounted, Writes, W.Fresh, RecordsOf, AllLogs, W.Flat;
      ghost var start := Now();
      FreshNow();
      var i := 0;
      while i < |script| && running
        invariant 0 <= i <= |script| && Valid()
        invariant Now() == AfterScript(start, script[..i], capacity)
        invariant running && i > 0 && script[i - 1].arm.TickArm? ==> batch == []
        invariant running ==> forall k :: 0 <= k < i && (script[k].ask || script[k].dropHandle) ==> signal || !handle
        invariant running ==>
                    forall j, k :: 0 <= k <= j < i && script[j].arm.ShutdownArm? ==>
                      !script[k].ask && !script[k].dropHandle
        decreases |script| - i
      {
        assert script[..i + 1][..i] == script[..i];
        Outside(script[i]);
        Select(script[i]);
        i := i + 1;
      }
      StoppedStays(start, script, i, capacity);
      assert script[..|script|] == script;
      SentIsHanded();
      Summary();
    }

    lemma FreshNow()
      requires Valid() && trace == []
      ensures queue == [] && Handed() == [] && !signal
    {
    }

    lemma SentIsHanded()
      requires Valid()
      ensures sent == PutsOf(sink, Handed())
    {
      hide PutOf, W.CanRun, W.Run;
      assert forall i :: 0 <= i < |sent| ==> Handed()[i] == machine.groups[i].entries;
    }

    /** What the machine's guarantees say about the records sent. */
    lemma Summary()
      requires Valid()
      ensures capacity > 0 && Accounted()
    {
      hide W.CanRun, W.Run, W.Flat, RecordsOf, AllLogs;
      W.HandedOverOnceInOrder(capacity, sink, trace);
      W.PutCountBound(capacity, sink, trace);
      WrittenRecords(sent, machine.groups, sink);
      W.FreshInv(capacity, sink);
      W.RunKeepsInv(W.Fresh(capacity, sink), trace);
      var handed := W.Flat(machine.groups);
      forall i | 0 <= i < |sent| ensures GoesTo(sent[i], sink) {
        assert sent[i] == PutOf(sink, machine.groups[i].entries);
      }
      assert machine.building == [];
      assert handed + [] + batch + queue == handed + batch + queue;
      assert !running ==> handed + [] + queue == handed + queue;
    }
  }
}
