/**
  The shared context variable and the two objects that push onto it. `contextvars` is taken as
  PEP 567 specifies it: every task runs in its own copy of a context, `set` returns a token with
  the old value, and `reset` takes a token once, in the context it was made in.
 */
module Spans {
  import opened Prelude
  import opened Hex

  /** An OpenTelemetry context, as far as it names a span: an id of 0 is not valid. `parent` is 0 for a root. */
  datatype OtelContext = OtelContext(traceId: nat, spanId: nat, parent: nat, remote: bool)

  const NO_SPAN := OtelContext(0, 0, 0, false)

  predicate IsValid(c: OtelContext) {
    c.traceId != 0 && c.spanId != 0
  }

  datatype Token = Token(previous: Option<OtelContext>, used: bool)

  /** A Python context: the variable's value, none until something is pushed, and the tokens made in it. */
  datatype PyContext = PyContext(value: Option<OtelContext>, tokens: seq<Token>)

  datatype TokenId = TokenId(context: nat, index: nat)

  type World = map<nat, PyContext>

  /** The two errors of `ContextVar.reset`. */
  datatype Refusal = TokenUsed | OtherContext

  /** `context::current`: outside any pushed context there is no span. */
  function CurrentOf(p: PyContext): OtelContext {
    UnwrapOr(p.value, NO_SPAN)
  }

  /** `ContextVar.set`; the new token is the last one. */
  function SetIn(p: PyContext, v: OtelContext): PyContext {
    PyContext(Some(v), p.tokens + [Token(p.value, false)])
  }

  /** `ContextVar.reset` with an unused token of this context. */
  function ResetIn(p: PyContext, n: nat): PyContext
    requires n < |p.tokens|
  {
    PyContext(p.tokens[n].previous, p.tokens[n := Token(p.tokens[n].previous, true)])
  }

  ghost predicate Exists(w: World, t: TokenId) {
    t.context in w && t.index < |w[t.context].tokens|
  }

  function ResetVar(w: World, running: nat, t: TokenId): (r: (World, Option<Refusal>))
    requires running in w && t.context in w && t.index < |w[t.context].tokens|
  {
    if w[t.context].tokens[t.index].used then (w, Some(TokenUsed))
    else if t.context != running then (w, Some(OtherContext))
    else (w[running := ResetIn(w[running], t.index)], None)
  }

  /** The state of a `PySpan` or an `ExtractedContext` object. */
  datatype Handle = SpanHandle(open: bool, token: Option<TokenId>, ended: bool) | ExtractHandle(token: Option<TokenId>)

  /** `end`, `__exit__` and `restore`: the object's new state, and the token it resets, if any. */
  function CloseHandle(h: Handle): (Handle, Option<TokenId>) {
    match h
    case SpanHandle(open, token, ended) => if ended then (h, None) else (SpanHandle(false, None, true), token)
    case ExtractHandle(token) => (ExtractHandle(None), token)
  }

  /** Dropping a span that was not ended closes it and abandons its token. */
  function DropHandle(h: Handle): Handle {
    if h.SpanHandle? && !h.ended then h.(open := false) else h
  }

  /** The identifiers the tracer draws for a new span. */
  datatype Ids = Ids(traceId: nat, spanId: nat)

  /**
    The context of a new span: a child of the current context if that is valid, a root otherwise, and
    nothing at all when no tracer is installed or the filter rejects the span.
   */
  function ChildOf(current: OtelContext, ids: Ids, recorded: bool): OtelContext {
    if !recorded then NO_SPAN
    else if IsValid(current) then OtelContext(current.traceId, ids.spanId, current.spanId, false)
    else OtelContext(ids.traceId, ids.spanId, 0, false)
  }

  /**
    Case by case: an unrecorded span is no span; a recorded one is local, has the span identifier drawn for
    it, and is a child in the trace of a valid current context, or a root of the trace drawn for it.
   */
  lemma ChildSpelled(current: OtelContext, ids: Ids, recorded: bool)
    ensures var child := ChildOf(current, ids, recorded);
      && !child.remote
      && (!recorded ==> child.traceId == 0 && child.spanId == 0 && child.parent == 0)
      && (recorded ==> child.spanId == ids.spanId)
      && (recorded && current.traceId != 0 && current.spanId != 0 ==>
            child.traceId == current.traceId && child.parent == current.spanId)
      && (recorded && (current.traceId == 0 || current.spanId == 0) ==>
            child.traceId == ids.traceId && child.parent == 0)
  {
  }

  // --------------------------------------------------------------------- objects

  datatype Reset = Done | Refused(why: Refusal)

  /**
    What closing an object means: it gives up its token, the token it had is given to `reset` in the running
    context, and without one nothing happens to any context.
   */
  ghost predicate ClosesObject(before: Handle, after: Handle, was: World, now: World, running: nat, r: Reset) {
    var (closed, token) := CloseHandle(before);
    && after == closed
    && if token.None? then now == was && r == Done
       else
         && running in was && Exists(was, token.value)
         && (now, if r.Refused? then Some(r.why) else None) == ResetVar(was, running, token.value)
  }

  /**
    Case by case: a span that has ended and an object without a token change nothing; otherwise the object
    keeps no token, a span is ended and open no longer, and the token restores the value it was given for,
    unless it was used or belongs to another context, which is refused and changes no context.
   */
  lemma ClosesSpelled(before: Handle, after: Handle, was: World, now: World, running: nat, r: Reset)
    requires ClosesObject(before, after, was, now, running, r)
    ensures before.SpanHandle? && before.ended ==> after == before && now == was && r == Done
    ensures before.SpanHandle? && !before.ended ==> after == SpanHandle(false, None, true)
    ensures before.ExtractHandle? ==> after == ExtractHandle(None)
    ensures before.token.None? ==> now == was && r == Done
    ensures before.token.Some? && !(before.SpanHandle? && before.ended) ==> (
              var t := before.token.value; var token := was[t.context].tokens[t.index];
              && (token.used ==> r == Refused(TokenUsed) && now == was)
              && (!token.used && t.context != running ==> r == Refused(OtherContext) && now == was)
              && (!token.used && t.context == running ==>
                    && r == Done && now.Keys == was.Keys
                    && now[running].value == token.previous && now[running].tokens[t.index].used
                    && forall other :: other in was && other != running ==> now[other] == was[other]))
  {
  }

  /** The one `ContextVar` of the library, with the value it has in every context. */
  class ContextVar {
    var world: World

    constructor (contexts: World)
      ensures world == contexts
    {
      world := contexts;
    }

    method Current(running: nat) returns (c: OtelContext)
      requires running in world
      ensures c == CurrentOf(world[running])
      ensures world[running].value.Some? ==> c == world[running].value.value
      ensures world[running].value.None? ==> !IsValid(c)
    {
      c := match world[running].value
        case None => NO_SPAN
        case Some(v) => v;
    }

    method Push(running: nat, v: OtelContext) returns (t: TokenId)
      requires running in world
      modifies this
      ensures world == old(world)[running := SetIn(old(world)[running], v)]
      ensures world[running].value == Some(v)
      ensures world[running].tokens == old(world)[running].tokens + [Token(old(world)[running].value, false)]
      ensures t == TokenId(running, |old(world)[running].tokens|)
    {
      var p := world[running];
      t := TokenId(running, |p.tokens|);
      world := world[running := PyContext(Some(v), p.tokens + [Token(p.value, false)])];
    }

    method Restore(running: nat, t: TokenId) returns (r: Reset)
      requires running in world && Exists(world, t)
      modifies this
      ensures (world, if r.Refused? then Some(r.why) else None) == ResetVar(old(world), running, t)
      ensures var token := old(world)[t.context].tokens[t.index];
        && (token.used ==> r == Refused(TokenUsed) && world == old(world))
        && (!token.used && t.context != running ==> r == Refused(OtherContext) && world == old(world))
        && (!token.used && t.context == running ==> (
              && r == Done && world.Keys == old(world).Keys && world[running].value == token.previous
              && |world[running].tokens| == |old(world)[running].tokens| && world[running].tokens[t.index].used
              && forall other :: other in world && other != running ==> world[other] == old(world)[other]))
    {
      if world[t.context].tokens[t.index].used {
        return Refused(TokenUsed);
      }
      if t.context != running {
        return Refused(OtherContext);
      }
      world := world[running := ResetIn(world[running], t.index)];
      r := Done;
    }
  }

  /** `current_trace_and_span_id`: both identifiers of the current context as text, or neither. */
  function IdTexts(c: OtelContext): (Option<string>, Option<string>) {
    if IsValid(c) then (Some(FormatHex(c.traceId, 32)), Some(FormatHex(c.spanId, 16))) else (None, None)
  }

  /** The texts name the span: present exactly for a valid context, of fixed length, and read back as its ids. */
  lemma IdTextsNameTheSpan(c: OtelContext)
    requires c.traceId < Pow16(32) && c.spanId < Pow16(16)
    ensures var (trace, span) := IdTexts(c);
      && (trace.Some? <==> IsValid(c)) && (span.Some? <==> IsValid(c))
      && (IsValid(c) ==> |trace.value| == 32 && |span.value| == 16)
      && (IsValid(c) ==> ParseHex(trace.value) == Some(c.traceId) && ParseHex(span.value) == Some(c.spanId))
  {
    FormatRoundTrip(c.traceId, 32);
    FormatRoundTrip(c.spanId, 16);
  }

  datatype Status = Unset | StatusOk | Failed(message: string)

  datatype SpanData = SpanData(context: OtelContext, status: Status, exceptions: seq<string>)

  class PySpan {
    var span: Option<SpanData>
    var token: Option<TokenId>
    var ended: bool
    ghost var exported: seq<SpanData>     // what dropping the span has ended

    ghost function View(): Handle
      reads this
    {
      SpanHandle(span.Some?, token, ended)
    }

    /** `start_span` in the running context. */
    constructor Start(cv: ContextVar, running: nat, ids: Ids, recorded: bool)
      requires running in cv.world
      modifies cv
      ensures fresh(this) && exported == [] && !ended && span.Some?
      ensures var child := ChildOf(CurrentOf(old(cv.world)[running]), ids, recorded);
        && cv.world == old(cv.world)[running := SetIn(old(cv.world)[running], child)]
        && View() == SpanHandle(true, Some(TokenId(running, |old(cv.world)[running].tokens|)), false)
        && span == Some(SpanData(child, Unset, []))
      ensures var parent := CurrentOf(old(cv.world)[running]); var c := span.value.context;
        && cv.world[running].value == Some(c) && !c.remote
        && (recorded && IsValid(parent) ==>
              c.traceId == parent.traceId && c.spanId == ids.spanId && c.parent == parent.spanId)
        && (recorded && !IsValid(parent) ==> c.traceId == ids.traceId && c.spanId == ids.spanId && c.parent == 0)
        && (!recorded ==> !IsValid(c))
    {
      var parent := cv.Current(running);
      var child := ChildOf(parent, ids, recorded);
      var t := cv.Push(running, child);
      span, token, ended := Some(SpanData(child, Unset, [])), Some(t), false;
      exported := [];
    }

    /** `trace_id` and `span_id`, gone once the span has ended. */
    method Identify() returns (ids: (Option<string>, Option<string>))
      ensures span.None? ==> ids == (None, None)
      ensures span.Some? ==> ids == IdTexts(span.value.context)
    {
      if span.Some? {
        ids := IdTexts(span.value.context);
      } else {
        ids := (None, None);
      }
    }

    /** `end_internal` */
    method EndInternal(cv: ContextVar, running: nat) returns (r: Reset)
      requires running in cv.world && (token.Some? ==> Exists(cv.world, token.value))
      modifies this, cv
      ensures ClosesObject(old(View()), View(), old(cv.world), cv.world, running, r)
      ensures exported == old(exported) + if !old(ended) && old(span).Some? then [old(span).value] else []
    {
      if ended {
        return Done;
      }
      ended := true;
      exported := exported + if span.Some? then [span.value] else [];
      span := None;
      if token.Some? {
        var t := token.value;
        token := None;
        r := cv.Restore(running, t);
      } else {
        r := Done;
      }
    }

    /** `end` */
    method End(cv: ContextVar, running: nat) returns (r: Reset)
      requires running in cv.world && (token.Some? ==> Exists(cv.world, token.value))
      modifies this, cv
      ensures ClosesObject(old(View()), View(), old(cv.world), cv.world, running, r)
    {
      r := EndInternal(cv, running);
    }

    /** `__exit__`: an exception marks the span, if it is still open, before the span ends. */
    method ExitBlock(cv: ContextVar, running: nat, exception: Option<string>) returns (r: Reset)
      requires running in cv.world && (token.Some? ==> Exists(cv.world, token.value))
      modifies this, cv
      ensures ClosesObject(old(View()), View(), old(cv.world), cv.world, running, r)
      ensures exported == old(exported) +
              if old(ended) || old(span).None? then []
              else if exception.None? then [old(span).value]
              else
                [SpanData(old(span).value.context, Failed(exception.value),
                          old(span).value.exceptions + [exception.value])]
    {
      if exception.Some? && span.Some? {
        var s := span.value;
        span := Some(SpanData(s.context, Failed(exception.value), s.exceptions + [exception.value]));
      }
      r := EndInternal(cv, running);
    }

    method Drop()
      modifies this
      ensures View() == DropHandle(old(View()))
      ensures span.None? || old(ended)
      ensures token == old(token) && ended == old(ended)
      ensures exported == old(exported) + if !old(ended) && old(span).Some? then [old(span).value] else []
    {
      if !ended {
        exported := exported + if span.Some? then [span.value] else [];
        span := None;
      }
    }
  }

  class ExtractedContext {
    var token: Option<TokenId>

    ghost function View(): Handle
      reads this
    {
      ExtractHandle(token)
    }

    /** `extract_headers`, with the context its propagator reads from the headers. */
    constructor Extract(cv: ContextVar, running: nat, remote: OtelContext)
      requires running in cv.world
      modifies cv
      ensures cv.world == old(cv.world)[running := SetIn(old(cv.world)[running], remote)]
      ensures View() == ExtractHandle(Some(TokenId(running, |old(cv.world)[running].tokens|)))
    {
      var t := cv.Push(running, remote);
      token := Some(t);
    }

    /** `restore` and `__exit__` alike. */
    method RestoreNow(cv: ContextVar, running: nat) returns (r: Reset)
      requires running in cv.world && (token.Some? ==> Exists(cv.world, token.value))
      modifies this, cv
      ensures ClosesObject(old(View()), View(), old(cv.world), cv.world, running, r)
    {
      if token.Some? {
        var t := token.value;
        token := None;
        r := cv.Restore(running, t);
      } else {
        r := Done;
      }
    }
  }
}
