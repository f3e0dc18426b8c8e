/**
  What becomes of one event on its way into an SLS log group: the level gate and the field
  visitor of the SLS layer, the entry it queues, and the key/value record written from the entry.
 */
module SlsRecord {
  import opened Prelude
  import opened Hex

  datatype Level = Error | Warn | Info | Debug | Trace
  {
    /** `tracing::Level` orders by verbosity: TRACE is the greatest. */
    function Verbosity(): nat {
      match this case Error => 0 case Warn => 1 case Info => 2 case Debug => 3 case Trace => 4
    }

    function AsStr(): string {
      match this
      case Error => "ERROR" case Warn => "WARN" case Info => "INFO" case Debug => "DEBUG" case Trace => "TRACE"
    }
  }

  function ParseLevel(s: string): Option<Level> {
    if s == "ERROR" then Some(Error)
    else if s == "WARN" then Some(Warn)
    else if s == "INFO" then Some(Info)
    else if s == "DEBUG" then Some(Debug)
    else if s == "TRACE" then Some(Trace)
    else None
  }

  /** A recorded field: a string value (`record_str`) or any other value with its debug text. */
  datatype Field = StrField(name: string, text: string) | DebugField(name: string, text: string)

  /** The identifiers of the current span, or none when its span context is not valid. */
  datatype SpanIds = SpanIds(traceId: seq<Byte>, spanId: seq<Byte>)

  datatype Event = Event(target: string, level: Level, fields: seq<Field>, span: Option<SpanIds>)

  // ------------------------------------------------------------------ visitor

  datatype Visited = Visited(message: string, loggerName: string, attributes: string)

  const NOTHING_VISITED := Visited("", "", "")

  function Visit(v: Visited, f: Field): Visited {
    match f
    case StrField(name, text) =>
      if name == "message" then v.(message := text)
      else if name == "logger_name" then v.(loggerName := text)
      else if name == "attributes" then v.(attributes := text)
      else if name == "severity_text" then v
      else if v.message == "" then v.(message := text)
      else v
    case DebugField(name, text) =>
      if name == "message" then v.(message := text) else v
  }

  /**
    Field by field: each of the three names sets its own text, `severity_text` sets nothing, any other string
    fills an empty message, and any other debug text is ignored.
   */
  lemma VisitSpelled(v: Visited, name: string, text: string)
    ensures var s, d := Visit(v, StrField(name, text)), Visit(v, DebugField(name, text));
      && (name == "message" ==> s == Visited(text, v.loggerName, v.attributes) && d == s)
      && (name == "logger_name" ==> s == Visited(v.message, text, v.attributes))
      && (name == "attributes" ==> s == Visited(v.message, v.loggerName, text))
      && (name == "severity_text" ==> s == v)
      && (name !in {"message", "logger_name", "attributes", "severity_text"} ==>
            && s.loggerName == v.loggerName && s.attributes == v.attributes
            && s.message == if v.message == "" then text else v.message)
      && (name != "message" ==> d == v)
  {
  }

  /** The visit starts from empty texts and takes the fields in order. */
  lemma VisitsInOrder(fields: seq<Field>, f: Field)
    ensures VisitAll([]) == Visited("", "", "")
    ensures VisitAll(fields + [f]) == Visit(VisitAll(fields), f)
  {
    assert (fields + [f])[..|fields|] == fields;
  }

  function VisitAll(fields: seq<Field>): Visited {
    if fields == [] then NOTHING_VISITED
    else Visit(VisitAll(fields[..|fields| - 1]), fields[|fields| - 1])
  }

  /** The visitor itself, updated in place one field at a time. */
  class FieldVisitor {
    var message: string
    var loggerName: string
    var attributes: string

    ghost function View(): Visited
      reads this
    {
      Visited(message, loggerName, attributes)
    }

    constructor ()
      ensures View() == NOTHING_VISITED
    {
      message, loggerName, attributes := "", "", "";
    }

    method RecordStr(name: string, value: string)
      modifies this
      ensures View() == Visit(old(View()), StrField(name, value))
    {
      match name {
        case "message" => message := value;
        case "logger_name" => loggerName := value;
        case "attributes" => attributes := value;
        case "severity_text" =>
        case _ =>
          if message == "" {
            message := value;
          }
      }
    }

    method RecordDebug(name: string, value: string)
      modifies this
      ensures View() == Visit(old(View()), DebugField(name, value))
    {
      if name == "message" {
        message := value;
      }
    }

    /** `event.record(&mut visitor)` calls the visitor on every field in order. */
    method RecordEvent(fields: seq<Field>)
      requires View() == NOTHING_VISITED
      modifies this
      ensures View() == VisitAll(fields)
    {
      for i := 0 to |fields|
        invariant View() == VisitAll(fields[..i])
      {
        assert fields[..i + 1][..i] == fields[..i];
        match fields[i] {
          case StrField(name, text) => RecordStr(name, text);
          case DebugField(name, text) => RecordDebug(name, text);
        }
      }
      assert fields[..|fields|] == fields;
    }
  }

  predicate IsMessage(f: Field) {
    f.name == "message"
  }

  /** A string field none of the named cases of `record_str` takes. */
  predicate IsUnknown(f: Field) {
    f.StrField? && f.name !in {"message", "logger_name", "attributes", "severity_text"}
  }

  /** Exactly one field called `message`, and its text. */
  ghost predicate OneMessage(fields: seq<Field>, text: string) {
    exists i :: 0 <= i < |fields| && fields[i].text == text && IsMessage(fields[i])
      && forall j :: 0 <= j < |fields| && j != i ==> !IsMessage(fields[j])
  }

  lemma {:induction false} MessageSticks(fields: seq<Field>, i: nat)
    requires i < |fields| && IsMessage(fields[i]) && fields[i].text != ""
    requires forall j :: i < j < |fields| ==> !IsMessage(fields[j])
    ensures VisitAll(fields).message == fields[i].text
  {
    if i < |fields| - 1 {
      var front := fields[..|fields| - 1];
      MessageSticks(front, i);
    }
  }

  lemma {:induction false} QuietUnknowns(fields: seq<Field>)
    requires forall j :: 0 <= j < |fields| && (IsMessage(fields[j]) || IsUnknown(fields[j])) ==> fields[j].text == ""
    ensures VisitAll(fields).message == ""
  {
    if fields != [] {
      QuietUnknowns(fields[..|fields| - 1]);
    }
  }

  /** The first nonempty unknown field wins when it follows an empty message. */
  lemma {:induction false} UnknownTakesOver(fields: seq<Field>, i: nat)
    requires i < |fields| && IsUnknown(fields[i]) && fields[i].text != ""
    requires forall j :: i <= j < |fields| ==> !IsMessage(fields[j])
    ensures VisitAll(fields).message != ""
  {
    if i < |fields| - 1 {
      UnknownTakesOver(fields[..|fields| - 1], i);
    }
  }

  /** With one nonempty `message`, no order of the fields changes what the visitor reports. */
  lemma MessageIsOrderFree(fields: seq<Field>, shuffled: seq<Field>, text: string)
    requires OneMessage(fields, text) && text != ""
    requires multiset(shuffled) == multiset(fields)
    ensures VisitAll(shuffled).message == text
  {
    OneMessageShuffles(fields, shuffled, text);
    var i :| 0 <= i < |shuffled| && shuffled[i].text == text && IsMessage(shuffled[i])
      && forall j :: 0 <= j < |shuffled| && j != i ==> !IsMessage(shuffled[j]);
    MessageSticks(shuffled, i);
  }

  /** The fields called `message`, in order. */
  function Messages(fields: seq<Field>): seq<Field> {
    if fields == [] then []
    else Messages(fields[..|fields| - 1]) + if IsMessage(fields[|fields| - 1]) then [fields[|fields| - 1]] else []
  }

  lemma {:induction false} MessagesCounted(fields: seq<Field>)
    ensures forall f :: multiset(Messages(fields))[f] == if IsMessage(f) then multiset(fields)[f] else 0
    ensures forall f :: f in Messages(fields) ==> f in fields && IsMessage(f)
  {
    if fields != [] {
      MessagesCounted(fields[..|fields| - 1]);
      assert fields == fields[..|fields| - 1] + [fields[|fields| - 1]];
    }
  }

  lemma {:induction false} OneMessageIsSingleton(fields: seq<Field>, i: nat)
    requires i < |fields| && IsMessage(fields[i])
    requires forall j :: 0 <= j < |fields| && j != i ==> !IsMessage(fields[j])
    ensures Messages(fields) == [fields[i]]
  {
    var front := fields[..|fields| - 1];
    if i == |fields| - 1 {
      NoMessages(front);
    } else {
      OneMessageIsSingleton(front, i);
    }
  }

  lemma {:induction false} NoMessages(fields: seq<Field>)
    requires forall j :: 0 <= j < |fields| ==> !IsMessage(fields[j])
    ensures Messages(fields) == []
  {
    if fields != [] { NoMessages(fields[..|fields| - 1]); }
  }

  lemma {:induction false} MessagesAt(fields: seq<Field>, i: nat, j: nat)
    requires i < j < |fields| && IsMessage(fields[i]) && IsMessage(fields[j])
    ensures |Messages(fields)| >= 2
  {
    var front := fields[..|fields| - 1];
    if j < |front| {
      MessagesAt(front, i, j);
    } else {
      MessagesSome(front, i);
    }
  }

  lemma {:induction false} MessagesSome(fields: seq<Field>, i: nat)
    requires i < |fields| && IsMessage(fields[i])
    ensures |Messages(fields)| >= 1
  {
    if i < |fields| - 1 { MessagesSome(fields[..|fields| - 1], i); }
  }

  lemma OneMessageShuffles(fields: seq<Field>, shuffled: seq<Field>, text: string)
    requires OneMessage(fields, text) && multiset(shuffled) == multiset(fields)
    ensures OneMessage(shuffled, text)
  {
    var i :| 0 <= i < |fields| && fields[i].text == text && IsMessage(fields[i])
      && forall j :: 0 <= j < |fields| && j != i ==> !IsMessage(fields[j]);
    OneMessageIsSingleton(fields, i);
    MessagesCounted(fields);
    MessagesCounted(shuffled);
    assert multiset(Messages(shuffled)) == multiset(Messages(fields)) == multiset{fields[i]};
    assert |Messages(shuffled)| == |multiset(Messages(shuffled))| == 1;
    assert fields[i] in multiset(fields);
    assert fields[i] in shuffled;
    var k :| 0 <= k < |shuffled| && shuffled[k] == fields[i];
    forall j | 0 <= j < |shuffled| && j != k ensures !IsMessage(shuffled[j]) {
      if IsMessage(shuffled[j]) {
        MessagesAt(shuffled, if j < k then j else k, if j < k then k else j);
      }
    }
  }

  /** Every ordering of these fields reports the text of the one `message` field. */
  ghost predicate OrderFree(fields: seq<Field>, text: string) {
    forall shuffled: seq<Field> :: multiset(shuffled) == multiset(fields) ==> VisitAll(shuffled).message == text
  }

  /** An unknown field with text, moved behind an empty message, takes its place. */
  lemma LoudUnknownBreaksOrder(fields: seq<Field>, j: nat)
    requires j < |fields| && IsUnknown(fields[j]) && fields[j].text != ""
    ensures !OrderFree(fields, "")
  {
    var last := fields[..j] + fields[j + 1..] + [fields[j]];
    assert fields == fields[..j] + [fields[j]] + fields[j + 1..];
    assert multiset(last) == multiset(fields);
    UnknownTakesOver(last, |last| - 1);
  }

  lemma QuietFieldsAreOrderFree(fields: seq<Field>)
    requires forall j :: 0 <= j < |fields| && (IsMessage(fields[j]) || IsUnknown(fields[j])) ==> fields[j].text == ""
    ensures OrderFree(fields, "")
  {
    forall shuffled: seq<Field> | multiset(shuffled) == multiset(fields) ensures VisitAll(shuffled).message == "" {
      forall k | 0 <= k < |shuffled| && (IsMessage(shuffled[k]) || IsUnknown(shuffled[k]))
        ensures shuffled[k].text == ""
      {
        assert shuffled[k] in multiset(shuffled);
        assert shuffled[k] in fields;
      }
      QuietUnknowns(shuffled);
    }
  }

  /**
    When the message may be empty the report depends on the order exactly when some unknown
    string field carries text: it fills the message if it comes after, and is overwritten if it comes before.
   */
  lemma OrderFreeExactly(fields: seq<Field>, text: string)
    requires OneMessage(fields, text)
    ensures OrderFree(fields, text) <==>
              (text != "" || forall j :: 0 <= j < |fields| && IsUnknown(fields[j]) ==> fields[j].text == "")
  {
    if text != "" {
      forall shuffled: seq<Field> | multiset(shuffled) == multiset(fields) ensures VisitAll(shuffled).message == text {
        MessageIsOrderFree(fields, shuffled, text);
      }
    } else if j :| 0 <= j < |fields| && IsUnknown(fields[j]) && fields[j].text != "" {
      LoudUnknownBreaksOrder(fields, j);
    } else {
      QuietFieldsAreOrderFree(fields);
    }
  }

  // -------------------------------------------------------------------- entry

  datatype LogEntry = LogEntry(
    time: nat, level: Level, message: string, loggerName: string, attributes: string,
    serviceName: string, traceId: string, spanId: string)

  const U32: nat := 0x1_0000_0000

  /** The SLS layer forwards INFO, WARN and ERROR. */
  predicate Forwarded(level: Level) {
    level.Verbosity() <= Info.Verbosity()
  }

  /** The levels' texts, and which of them the layer forwards. */
  lemma LevelsSpelled()
    ensures Error.AsStr() == "ERROR" && Warn.AsStr() == "WARN" && Info.AsStr() == "INFO"
    ensures Debug.AsStr() == "DEBUG" && Trace.AsStr() == "TRACE"
    ensures Forwarded(Error) && Forwarded(Warn) && Forwarded(Info) && !Forwarded(Debug) && !Forwarded(Trace)
  {
  }

  /** An entry has the event's level, what the visitor found in its fields, and the sink's service. */
  lemma EntrySpelled(ev: Event, serviceName: string, seconds: nat)
    ensures var e := EntryOf(ev, serviceName, seconds);
      && e.level == ev.level && e.serviceName == serviceName
      && e.message == VisitAll(ev.fields).message && e.loggerName == VisitAll(ev.fields).loggerName
      && e.attributes == VisitAll(ev.fields).attributes
  {
    hide VisitAll, FormatHex, BigEndian;
  }

  /** The entry queued for an event the layer forwards; the seconds are cut to 32 bits. */
  function EntryOf(ev: Event, serviceName: string, seconds: nat): LogEntry {
    var v := VisitAll(ev.fields);
    LogEntry(seconds % U32, ev.level, v.message, v.loggerName, v.attributes, serviceName,
             if ev.span.Some? then FormatHex(BigEndian(ev.span.value.traceId), 32) else "",
             if ev.span.Some? then FormatHex(BigEndian(ev.span.value.spanId), 16) else "")
  }

  /**
    An entry names the span it was logged in: both identifiers as fixed-length text that reads back
    as the span's own, and nothing outside a span. Its time is the clock's as far as 32 bits hold it.
   */
  lemma EntryNamesSpan(ev: Event, serviceName: string, seconds: nat)
    requires ev.span.Some? ==> |ev.span.value.traceId| == 16 && |ev.span.value.spanId| == 8
    ensures var e := EntryOf(ev, serviceName, seconds);
      && (ev.span.None? ==> e.traceId == "" && e.spanId == "")
      && (ev.span.Some? ==> e.traceId == BytewiseHex(ev.span.value.traceId) && |e.traceId| == 32)
      && (ev.span.Some? ==> e.spanId == BytewiseHex(ev.span.value.spanId) && |e.spanId| == 16)
      && (ev.span.Some? ==> ParseHex(e.traceId) == Some(BigEndian(ev.span.value.traceId)))
      && (ev.span.Some? ==> ParseHex(e.spanId) == Some(BigEndian(ev.span.value.spanId)))
      && e.time == seconds % 0x1_0000_0000
  {
    hide FormatHex, BigEndian, BytewiseHex, ParseHex, VisitAll;
    if ev.span.Some? {
      PaddedHexIsBytewise(ev.span.value.traceId);
      PaddedHexIsBytewise(ev.span.value.spanId);
      HexRoundTrip(ev.span.value.traceId);
      HexRoundTrip(ev.span.value.spanId);
    }
  }

  // ------------------------------------------------------------------- record

  type Contents = seq<(string, string)>

  datatype Log = Log(time: nat, contents: Contents)

  function OptionalKv(key: string, value: string): Contents {
    if value == "" then [] else [(key, value)]
  }

  /** The record one entry is written as. */
  function RecordOf(e: LogEntry): Log {
    Log(e.time,
        FirstKeys(e)
        + OptionalKv("logger_name", e.loggerName)
        + OptionalKv("service.name", e.serviceName)
        + OptionalKv("trace_id", e.traceId)
        + OptionalKv("span_id", e.spanId)
        + OptionalKv("attributes", e.attributes))
  }

  function RecordsOf(entries: seq<LogEntry>): (logs: seq<Log>)
    ensures |logs| == |entries|
  {
    if entries == [] then [] else RecordsOf(entries[..|entries| - 1]) + [RecordOf(entries[|entries| - 1])]
  }

  /** `if !value.is_empty() { log.add_content_kv(key, value) }` */
  method AddOptionalKv(contents: Contents, key: string, value: string) returns (extended: Contents)
    ensures extended == contents + OptionalKv(key, value)
  {
    extended := contents;
    if value != "" {
      extended := extended + [(key, value)];
    }
  }

  method BuildLog(entry: LogEntry) returns (log: Log)
    ensures log == RecordOf(entry)
  {
    var contents: Contents := [("level", entry.level.AsStr())] + [("message", entry.message)];
    contents := AddOptionalKv(contents, "logger_name", entry.loggerName);
    contents := AddOptionalKv(contents, "service.name", entry.serviceName);
    contents := AddOptionalKv(contents, "trace_id", entry.traceId);
    contents := AddOptionalKv(contents, "span_id", entry.spanId);
    contents := AddOptionalKv(contents, "attributes", entry.attributes);
    log := Log(entry.time, contents);
  }

  /** A reader's view of a key: its first value, or the empty text when it is absent. */
  function Lookup(contents: Contents, key: string): string {
    if contents == [] then ""
    else if contents[0].0 == key then contents[0].1
    else Lookup(contents[1..], key)
  }

  function DecodeRecord(log: Log): Option<LogEntry> {
    match ParseLevel(Lookup(log.contents, "level"))
    case None => None
    case Some(level) =>
      Some(LogEntry(log.time, level, Lookup(log.contents, "message"), Lookup(log.contents, "logger_name"),
                    Lookup(log.contents, "attributes"), Lookup(log.contents, "service.name"),
                    Lookup(log.contents, "trace_id"), Lookup(log.contents, "span_id")))
  }

  function DecodeAll(logs: seq<Log>): seq<Option<LogEntry>> {
    if logs == [] then [] else DecodeAll(logs[..|logs| - 1]) + [DecodeRecord(logs[|logs| - 1])]
  }

  function Wrapped(entries: seq<LogEntry>): seq<Option<LogEntry>> {
    if entries == [] then [] else Wrapped(entries[..|entries| - 1]) + [Some(entries[|entries| - 1])]
  }

  ghost predicate DistinctKeys(contents: Contents) {
    forall i, j :: 0 <= i < j < |contents| ==> contents[i].0 != contents[j].0
  }

  lemma {:induction false} LookupAppend(a: Contents, b: Contents, key: string)
    ensures Lookup(a + b, key) ==
            if exists i :: 0 <= i < |a| && a[i].0 == key then Lookup(a, key) else Lookup(b, key)
  {
    if a == [] {
      assert a + b == b;
    } else {
      assert (a + b)[1..] == a[1..] + b;
      LookupAppend(a[1..], b, key);
      if i :| 0 <= i < |a| && a[i].0 == key && i > 0 {
        assert a[1..][i - 1].0 == key;
      }
    }
  }

  lemma LevelRoundTrip(level: Level)
    ensures ParseLevel(level.AsStr()) == Some(level)
  {
  }

  const KEYS: seq<string> := ["level", "message", "logger_name", "service.name", "trace_id", "span_id", "attributes"]

  lemma KeysDiffer()
    ensures forall i, j :: 0 <= i < j < |KEYS| ==> KEYS[i] != KEYS[j]
  {
    assert "message"[0] != "span_id"[0];
  }

  ghost predicate Lacks(a: Contents, key: string) {
    forall i :: 0 <= i < |a| ==> a[i].0 != key
  }

  /** Appending one optional key keeps the other keys' values and the keys apart. */
  lemma OptionalKvAppended(a: Contents, key: string, value: string)
    requires DistinctKeys(a) && Lacks(a, key)
    ensures forall other :: other != key && Lacks(a, other) ==> Lacks(a + OptionalKv(key, value), other)
    ensures DistinctKeys(a + OptionalKv(key, value))
    ensures Lookup(a + OptionalKv(key, value), key) == value
    ensures forall other :: other != key ==> Lookup(a + OptionalKv(key, value), other) == Lookup(a, other)
  {
    LookupAppend(a, OptionalKv(key, value), key);
    forall other | other != key
      ensures Lookup(a + OptionalKv(key, value), other) == Lookup(a, other)
    {
      LookupAppend(a, OptionalKv(key, value), other);
      LookupAppend(a, [], other);
      assert a + [] == a;
    }
  }

  /** The two keys every record has. */
  function FirstKeys(e: LogEntry): Contents {
    [("level", e.level.AsStr()), ("message", e.message)]
  }

  lemma FirstKeysRead(e: LogEntry)
    ensures DistinctKeys(FirstKeys(e)) && forall i :: 2 <= i < |KEYS| ==> Lacks(FirstKeys(e), KEYS[i])
    ensures Lookup(FirstKeys(e), KEYS[0]) == e.level.AsStr() && Lookup(FirstKeys(e), KEYS[1]) == e.message
  {
    KeysDiffer();
    var c := FirstKeys(e);
    assert c[0].0 == KEYS[0] && c[1].0 == KEYS[1];
    assert c[1..][0] == ("message", e.message);
    assert Lookup(c, KEYS[1]) == Lookup(c[1..], KEYS[1]);
  }

  /** Reading a record back gives the entry it was written from, and no key is written twice. */
  lemma RecordRoundTrip(e: LogEntry)
    ensures DecodeRecord(RecordOf(e)) == Some(e)
    ensures DistinctKeys(RecordOf(e).contents)
  {
    hide Lookup, OptionalKv, DistinctKeys, Lacks;
    KeysDiffer();
    LevelRoundTrip(e.level);
    var c0 := FirstKeys(e);
    FirstKeysRead(e);
    var c1 := c0 + OptionalKv(KEYS[2], e.loggerName);
    OptionalKvAppended(c0, KEYS[2], e.loggerName);
    var c2 := c1 + OptionalKv(KEYS[3], e.serviceName);
    OptionalKvAppended(c1, KEYS[3], e.serviceName);
    var c3 := c2 + OptionalKv(KEYS[4], e.traceId);
    OptionalKvAppended(c2, KEYS[4], e.traceId);
    var c4 := c3 + OptionalKv(KEYS[5], e.spanId);
    OptionalKvAppended(c3, KEYS[5], e.spanId);
    var c5 := c4 + OptionalKv(KEYS[6], e.attributes);
    OptionalKvAppended(c4, KEYS[6], e.attributes);
    assert RecordOf(e).contents == c5;
  }

  /** Key by key: what is under each key of a record, and which keys are there. */
  lemma RecordSpelled(e: LogEntry)
    ensures var log := RecordOf(e);
      && log.time == e.time
      && Lookup(log.contents, "level") == e.level.AsStr() && Lookup(log.contents, "message") == e.message
      && Lookup(log.contents, "logger_name") == e.loggerName
      && Lookup(log.contents, "service.name") == e.serviceName
      && Lookup(log.contents, "trace_id") == e.traceId && Lookup(log.contents, "span_id") == e.spanId
      && Lookup(log.contents, "attributes") == e.attributes
    ensures var kvs := RecordOf(e).contents;
      && ("level", e.level.AsStr()) in kvs && ("message", e.message) in kvs
      && (Lacks(kvs, "logger_name") <==> e.loggerName == "") && (Lacks(kvs, "service.name") <==> e.serviceName == "")
      && (Lacks(kvs, "trace_id") <==> e.traceId == "") && (Lacks(kvs, "span_id") <==> e.spanId == "")
      && (Lacks(kvs, "attributes") <==> e.attributes == "")
  {
    RecordRoundTrip(e);
    RecordReads(e);
    RecordKeys(e);
  }

  lemma RecordReads(e: LogEntry)
    ensures var kvs := RecordOf(e).contents;
      && RecordOf(e).time == e.time && Lookup(kvs, "level") == e.level.AsStr() && Lookup(kvs, "message") == e.message
      && Lookup(kvs, "logger_name") == e.loggerName && Lookup(kvs, "service.name") == e.serviceName
      && Lookup(kvs, "trace_id") == e.traceId && Lookup(kvs, "span_id") == e.spanId
      && Lookup(kvs, "attributes") == e.attributes
  {
    hide Lookup, RecordOf;
    RecordRoundTrip(e);
    LevelReads(Lookup(RecordOf(e).contents, "level"), e.level);
  }

  lemma LevelReads(text: string, level: Level)
    requires ParseLevel(text) == Some(level)
    ensures text == level.AsStr()
  {
  }

  lemma RecordKeys(e: LogEntry)
    ensures var kvs := RecordOf(e).contents;
      && ("level", e.level.AsStr()) in kvs && ("message", e.message) in kvs
      && (Lacks(kvs, "logger_name") <==> e.loggerName == "") && (Lacks(kvs, "service.name") <==> e.serviceName == "")
      && (Lacks(kvs, "trace_id") <==> e.traceId == "") && (Lacks(kvs, "span_id") <==> e.spanId == "")
      && (Lacks(kvs, "attributes") <==> e.attributes == "")
  {
    hide RecordOf, Lookup;
    RecordReads(e);
    var kvs := RecordOf(e).contents;
    forall key: string ensures Lacks(kvs, key) ==> Lookup(kvs, key) == "" {
      if Lacks(kvs, key) { LacksReadsEmpty(kvs, key); }
    }
    EmptyIsLacking(e);
    FirstTwo(e);
  }

  lemma {:induction false} LacksReadsEmpty(a: Contents, key: string)
    requires Lacks(a, key)
    ensures Lookup(a, key) == ""
  {
    if a != [] {
      assert a[0].0 != key;
      assert forall i :: 0 <= i < |a| - 1 ==> a[1..][i] == a[i + 1];
      LacksReadsEmpty(a[1..], key);
    }
  }

  lemma LacksAppended(a: Contents, key: string, value: string, other: string)
    requires Lacks(a, other) && (other != key || value == "")
    ensures Lacks(a + OptionalKv(key, value), other)
  {
  }

  /** A key is missing from the record if the value to go under it is empty. */
  lemma LacksUnlessValue(e: LogEntry, key: string)
    requires key != "level" && key != "message"
    requires key == "logger_name" ==> e.loggerName == ""
    requires key == "service.name" ==> e.serviceName == ""
    requires key == "trace_id" ==> e.traceId == ""
    requires key == "span_id" ==> e.spanId == ""
    requires key == "attributes" ==> e.attributes == ""
    ensures Lacks(RecordOf(e).contents, key)
  {
    hide Lacks, OptionalKv;
    var c1 := FirstKeys(e) + OptionalKv("logger_name", e.loggerName);
    var c2 := c1 + OptionalKv("service.name", e.serviceName);
    var c3 := c2 + OptionalKv("trace_id", e.traceId);
    var c4 := c3 + OptionalKv("span_id", e.spanId);
    assert Lacks(FirstKeys(e), key) by { FirstKeysLack(e, key); }
    LacksAppended(FirstKeys(e), "logger_name", e.loggerName, key);
    LacksAppended(c1, "service.name", e.serviceName, key);
    LacksAppended(c2, "trace_id", e.traceId, key);
    LacksAppended(c3, "span_id", e.spanId, key);
    LacksAppended(c4, "attributes", e.attributes, key);
  }

  lemma FirstKeysLack(e: LogEntry, key: string)
    requires key != "level" && key != "message"
    ensures Lacks(FirstKeys(e), key)
  {
  }

  lemma EmptyIsLacking(e: LogEntry)
    ensures var kvs := RecordOf(e).contents;
      && (e.loggerName == "" ==> Lacks(kvs, "logger_name")) && (e.serviceName == "" ==> Lacks(kvs, "service.name"))
      && (e.traceId == "" ==> Lacks(kvs, "trace_id")) && (e.spanId == "" ==> Lacks(kvs, "span_id"))
      && (e.attributes == "" ==> Lacks(kvs, "attributes"))
  {
    hide RecordOf, Lacks;
    TextsDiffer();
    if e.loggerName == "" { LacksUnlessValue(e, "logger_name"); }
    if e.serviceName == "" { LacksUnlessValue(e, "service.name"); }
    if e.traceId == "" { LacksUnlessValue(e, "trace_id"); }
    if e.spanId == "" { LacksUnlessValue(e, "span_id"); }
    if e.attributes == "" { LacksUnlessValue(e, "attributes"); }
  }

  /** The seven keys are seven texts. */
  lemma TextsDiffer()
    ensures var keys := ["level", "message", "logger_name", "service.name", "trace_id", "span_id", "attributes"];
      forall i, j :: 0 <= i < j < |keys| ==> keys[i] != keys[j]
  {
    KeysDiffer();
    assert KEYS == ["level", "message", "logger_name", "service.name", "trace_id", "span_id", "attributes"];
  }

  lemma FirstTwo(e: LogEntry)
    ensures ("level", e.level.AsStr()) in RecordOf(e).contents && ("message", e.message) in RecordOf(e).contents
  {
    var kvs := RecordOf(e).contents;
    assert kvs[0] == ("level", e.level.AsStr()) && kvs[1] == ("message", e.message);
  }

  /** A whole batch reads back as the same entries in the same order. */
  lemma {:induction false} BatchRoundTrip(entries: seq<LogEntry>)
    ensures DecodeAll(RecordsOf(entries)) == Wrapped(entries)
  {
    if entries != [] {
      var logs := RecordsOf(entries);
      BatchRoundTrip(entries[..|entries| - 1]);
      RecordRoundTrip(entries[|entries| - 1]);
      assert logs[..|logs| - 1] == RecordsOf(entries[..|entries| - 1]);
    }
  }
}
