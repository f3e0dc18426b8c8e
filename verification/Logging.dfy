/**
  The front ends of the log pipeline: the stdlib `logging` handler with its level table and
  attribute dictionary, and the event a record is emitted as.
 */
module Logging {
  import opened Prelude
  import opened SlsRecord
  import opened Hex
  import opened Pipeline
  import opened Spans
  import F = Feedback
  import W = SlsWriter

  const DEBUG := 10
  const INFO := 20
  const WARNING := 30
  const ERROR := 40
  const CRITICAL := 50

  /** `_severity_for` */
  function SeverityFor(levelno: int): (int, string) {
    if levelno >= CRITICAL then (21, "FATAL")
    else if levelno >= ERROR then (17, "ERROR")
    else if levelno >= WARNING then (13, "WARN")
    else if levelno >= INFO then (9, "INFO")
    else if levelno >= DEBUG then (5, "DEBUG")
    else (1, "TRACE")
  }

  /** `severity_to_level` */
  function SeverityToLevel(value: int): Level {
    if value <= 4 then Trace
    else if value <= 8 then Debug
    else if value <= 12 then Info
    else if value <= 16 then Warn
    else Error
  }

  /** The two tables together: a stdlib record is forwarded to SLS exactly from level 20 on, and never loses rank. */
  lemma StdlibLevels(a: int, b: int)
    ensures Forwarded(SeverityToLevel(SeverityFor(a).0)) <==> a >= INFO
    ensures a <= b ==> SeverityToLevel(SeverityFor(b).0).Verbosity() <= SeverityToLevel(SeverityFor(a).0).Verbosity()
  {
  }

  /** Both tables, range by range: the severity a stdlib level gets, and the level a severity is emitted at. */
  lemma LevelTablesSpelled(a: int)
    ensures a < 10 ==> SeverityFor(a) == (1, "TRACE") && SeverityToLevel(SeverityFor(a).0) == Trace
    ensures 10 <= a < 20 ==> SeverityFor(a) == (5, "DEBUG") && SeverityToLevel(SeverityFor(a).0) == Debug
    ensures 20 <= a < 30 ==> SeverityFor(a) == (9, "INFO") && SeverityToLevel(SeverityFor(a).0) == Info
    ensures 30 <= a < 40 ==> SeverityFor(a) == (13, "WARN") && SeverityToLevel(SeverityFor(a).0) == Warn
    ensures 40 <= a < 50 ==> SeverityFor(a) == (17, "ERROR") && SeverityToLevel(SeverityFor(a).0) == Error
    ensures 50 <= a ==> SeverityFor(a) == (21, "FATAL") && SeverityToLevel(SeverityFor(a).0) == Error
    ensures a <= 4 ==> SeverityToLevel(a) == Trace
    ensures 5 <= a <= 8 ==> SeverityToLevel(a) == Debug
    ensures 9 <= a <= 12 ==> SeverityToLevel(a) == Info
    ensures 13 <= a <= 16 ==> SeverityToLevel(a) == Warn
    ensures 17 <= a ==> SeverityToLevel(a) == Error
  {
  }

  // ----------------------------------------------------------------- attributes

  datatype PyValue = Primitive(text: string) | NoneValue | OtherValue

  type Dict = map<string, PyValue>

  /** `record.__dict__` in order, as pairs with distinct keys. */
  type Items = seq<(string, PyValue)>

  ghost predicate DistinctNames(items: Items) {
    forall i, j :: 0 <= i < j < |items| ==> items[i].0 != items[j].0
  }

  /** An attribute of the record that is handed on if nothing reserved has its name. */
  predicate Extra(item: (string, PyValue), standard: set<string>) {
    item.0 !in standard && item.0 !in {"message", "asctime"} && !item.1.OtherValue?
  }

  /**
    The attributes of one record: the reserved ones in `base`, then the extras under their own names.
    A reserved name is never overwritten, not even when its value is `None` and it is left out at the end.
   */
  method CollectAttributes(base: Dict, items: Items, standard: set<string>) returns (attrs: Dict)
    requires DistinctNames(items)
    ensures forall k :: k in attrs ==> attrs[k] != NoneValue
    ensures forall k :: k in base ==> (if base[k] == NoneValue then k !in attrs else k in attrs && attrs[k] == base[k])
    ensures forall i :: 0 <= i < |items| && items[i].0 !in base ==>
              if items[i].0 !in standard && items[i].0 !in {"message", "asctime"} && items[i].1.Primitive?
              then items[i].0 in attrs && attrs[items[i].0] == items[i].1 else items[i].0 !in attrs
    ensures forall k :: k in attrs ==> k in base || exists i :: 0 <= i < |items| && items[i].0 == k
  {
    var all: Dict := base;
    for n := 0 to |items|
      invariant forall k :: k in base ==> k in all && all[k] == base[k]
      invariant forall i :: 0 <= i < n && items[i].0 !in base ==>
                  if Extra(items[i], standard) then items[i].0 in all && all[items[i].0] == items[i].1
                  else items[i].0 !in all
      invariant forall k :: k in all ==> k in base || exists i :: 0 <= i < n && items[i].0 == k
    {
      var (key, value) := items[n];
      if key !in standard && key !in {"message", "asctime"} && !value.OtherValue? {
        if key !in all {
          all := all[key := value];
        }
      }
    }
    attrs := map k | k in all && all[k] != NoneValue :: all[k];
  }

  // --------------------------------------------------------------------- events

  const LOG_TARGET: string := "pytracingx::log"

  /** What reaches `emit_log_record`: the logger's name, the formatted message and the attributes as JSON. */
  datatype Record = Record(name: string, levelno: int, message: string, attributesJson: string)

  /**
    `emit_event`. The span of an event is the tracing span its thread has entered. No function of the library
    enters one, `start_span` no more than the others, so a record from Python is emitted outside any span.
   */
  function EventOf(r: Record): Event {
    var (severity, text) := SeverityFor(r.levelno);
    Event(LOG_TARGET, SeverityToLevel(severity),
          [StrField("logger_name", r.name), StrField("severity_text", text),
           StrField("attributes", r.attributesJson), StrField("message", r.message)], None)
  }

  /** The visitor finds each text of the record where `emit_event` put it, and the entry carries them all. */
  lemma EventCarriesRecord(r: Record, service: string, time: nat)
    ensures VisitAll(EventOf(r).fields) == Visited(r.message, r.name, r.attributesJson)
    ensures var e := EntryOf(EventOf(r), service, time);
      && e.message == r.message && e.loggerName == r.name && e.attributes == r.attributesJson
      && e.serviceName == service && e.level == SeverityToLevel(SeverityFor(r.levelno).0)
      && (r.levelno >= 40 ==> e.level == Error) && (30 <= r.levelno < 40 ==> e.level == Warn)
      && (20 <= r.levelno < 30 ==> e.level == Info)
    ensures EventOf(r).target == "pytracingx::log"
  {
    var fs := EventOf(r).fields;
    assert fs[..3][..2][..1][..0] == [] && fs[..3][..2][..1] == [fs[0]] && fs[..3][..2] == [fs[0], fs[1]];
    assert VisitAll(fs[..3][..2][..1]) == Visited("", r.name, "");
    assert VisitAll(fs[..3][..2]) == Visited("", r.name, "");
    assert VisitAll(fs[..3]) == Visited("", r.name, r.attributesJson);
  }

  /**
    A record emitted from Python names no span in SLS, whatever span is current in the context variable: its
    entry has no identifiers, the record written from it lacks both keys, and neither of the current span's
    texts is what a reader finds under them.
   */
  lemma RecordNamesNoSpan(r: Record, service: string, time: nat, current: OtelContext)
    ensures var e := EntryOf(EventOf(r), service, time);
      && e.traceId == "" && e.spanId == ""
      && Lacks(RecordOf(e).contents, "trace_id") && Lacks(RecordOf(e).contents, "span_id")
      && (IsValid(current) ==> IdTexts(current).0 != Some(e.traceId) && IdTexts(current).1 != Some(e.spanId))
  {
    hide VisitAll, LowerHex, PadLeft;
    var e := EntryOf(EventOf(r), service, time);
    KeysDiffer();
    assert "trace_id" == KEYS[4] && "span_id" == KEYS[5];
    assert forall kv :: kv in RecordOf(e).contents ==> kv.0 in {KEYS[0], KEYS[1], KEYS[2], KEYS[3], KEYS[6]};
  }

  /** The filter lets this library's events through from INFO on. */
  predicate PassesInfo(filter: (string, Level) -> bool) {
    filter(LOG_TARGET, Info) && filter(LOG_TARGET, Warn) && filter(LOG_TARGET, Error)
  }

  /** The events a thread begins in the course of a run, in order. */
  function BegunBy(actions: seq<Action>, thread: nat): seq<Event> {
    if actions == [] then []
    else
      (if actions[0].Begin? && actions[0].thread == thread then [actions[0].event] else [])
      + BegunBy(actions[1..], thread)
  }

  /** The events of some records, each as `emit_event` makes it. */
  function EventsOf(records: seq<Record>): seq<Event> {
    if records == [] then [] else [EventOf(records[0])] + EventsOf(records[1..])
  }

  /** The records from level INFO on. */
  function Important(records: seq<Record>): seq<Record> {
    if records == [] then []
    else (if records[0].levelno >= INFO then [records[0]] else []) + Important(records[1..])
  }

  lemma RecordIsEmitted(filter: (string, Level) -> bool, thread: nat, r: Record)
    requires PassesInfo(filter)
    ensures F.EmittedAt(filter, Begin(thread, EventOf(r)), App(thread)) ==
            if r.levelno >= INFO then [EventOf(r)] else []
  {
    StdlibLevels(r.levelno, r.levelno);
  }

  lemma EventsOfOne(r: Record, records: seq<Record>)
    ensures EventsOf([r] + records) == [EventOf(r)] + EventsOf(records)
  {
    assert ([r] + records)[1..] == records;
  }

  /** Of the records a thread emits, those at INFO or above are what SLS sinks are to be offered of it. */
  lemma {:induction false} RecordsAreEmitted(
      filter: (string, Level) -> bool, actions: seq<Action>, thread: nat, records: seq<Record>)
    requires PassesInfo(filter) && BegunBy(actions, thread) == EventsOf(records)
    ensures F.Emitted(filter, actions, App(thread)) == EventsOf(Important(records))
    decreases |actions|
  {
    hide EventOf;
    if actions == [] {
      assert records == [];
    } else if actions[0].Begin? && actions[0].thread == thread {
      assert records != [] && EventsOf(records)[0] == EventOf(records[0]);
      assert actions[0] == Begin(thread, EventOf(records[0]));
      assert BegunBy(actions, thread)[1..] == BegunBy(actions[1..], thread);
      assert EventsOf(records)[1..] == EventsOf(records[1..]);
      RecordIsEmitted(filter, thread, records[0]);
      RecordsAreEmitted(filter, actions[1..], thread, records[1..]);
      EventsOfOne(records[0], Important(records[1..]));
      assert records[0].levelno < INFO ==> Important(records) == Important(records[1..]);
    } else {
      assert BegunBy(actions, thread) == BegunBy(actions[1..], thread);
      assert F.EmittedAt(filter, actions[0], App(thread)) == [];
      RecordsAreEmitted(filter, actions[1..], thread, records);
    }
  }

  /**
    From stdlib records to a sink's queue, over every run that keeps the log slot, whatever other threads,
    tasks and calls do meanwhile. If the events a thread begins are those of some records, in order, and
    it has come to the end of the last one, then what the queue of a sink that has not stopped took is the
    entries of what the sink heard, and what it heard of this thread is exactly the records with level
    number at least 20, each once and in order.
   */
  lemma RecordsReachTheQueue(
      s: System, actions: seq<Action>, thread: nat, records: seq<Record>, p: nat, w: nat, service: string)
    requires Inv(s) && PassesInfo(s.filter) && F.SinkAt(s, p, w, service)
    requires CanRun(s, actions) && F.KeepsSlot(s, actions)
    requires App(thread) !in s.fanouts && App(thread) !in Run(s, actions).fanouts
    requires BegunBy(actions, thread) == EventsOf(records)
    requires !s.writers[w].pc.Exited?
    ensures F.SinkAt(Run(s, actions), p, w, service)
    ensures var t, heard := Run(s, actions), F.Heard(s, actions, w);
      && (!t.writers[w].pc.Exited? ==> t.writers[w].accepted == s.writers[w].accepted + F.Entries(heard, service))
      && F.EventsBy(heard, App(thread)) == EventsOf(Important(records))
  {
    hide CanRun, Run, F.KeepsSlot, F.Heard, F.Emitted, F.EventsBy, F.Entries, HandlesOk, SlotsOk, FanoutsOk, PhaseOk;
    var t := Run(s, actions);
    RunKeepsInv(s, actions);
    F.EveryEventIsHeard(s, actions, App(thread), p, w, service);
    RecordsAreEmitted(s.filter, actions, thread, records);
    var emitted, heard := F.Emitted(s.filter, actions, App(thread)), F.EventsBy(F.Heard(s, actions, w), App(thread));
    assert [] + emitted == heard + [] && heard + [] == heard;
    NothingRefused(s.writers[w]);
    if !t.writers[w].pc.Exited? {
      NothingRefused(t.writers[w]);
    }
  }

  /** A sink that has not stopped has taken all it was offered. */
  lemma NothingRefused(v: W.Writer)
    requires W.Inv(v) && !v.pc.Exited?
    ensures v.refused == [] && F.Offered(v) == v.accepted
  {
  }
}
