/**
  Programs of nested `with` blocks, run twice: on the tokens the library keeps, and on a plain
  stack. The stack is what the context variable is meant to be; the lemmas say that it is.
 */
module Programs {
  import opened Prelude
  import opened Spans
  import opened Tasks

  datatype Prog =
    | Skip
    | Raise
    | Then(first: Prog, second: Prog)
    | Catch(body: Prog)
    | SpanBlock(ids: Ids, recorded: bool, body: Prog)     // with start_span(..)
    | ExtractBlock(remote: OtelContext, body: Prog)       // with extract_headers(..)
    | EndNow                                              // end() or restore() on the innermost block's object

  // ------------------------------------------------------------------ on tokens

  /** `seen` is the current context after every primitive step. */
  datatype Outcome = Outcome(state: Solo, raised: bool, seen: seq<OtelContext>)

  ghost function Observe(s: Solo, raised: bool): Outcome {
    Outcome(s, raised, [CurrentOf(s.context)])
  }

  /** Run the program in context `c`; `open` is the handle of the innermost enclosing block. */
  ghost function Exec(p: Prog, s: Solo, c: nat, open: Option<nat>): Outcome
    decreases p, 0
  {
    match p
    case Skip => Observe(s, false)
    case Raise => Observe(s, true)
    case EndNow => Observe(if open.Some? then SoloNext(s, c, Closes(open.value)) else s, false)
    case Then(first, second) =>
      var a := Exec(first, s, c, open);
      if a.raised then a
      else
        var b := Exec(second, a.state, c, open);
        b.(seen := a.seen + b.seen)
    case Catch(body) => Exec(body, s, c, open).(raised := false)
    case SpanBlock(ids, recorded, body) => ExecBlock(body, s, c, Starts(ids, recorded))
    case ExtractBlock(remote, body) => ExecBlock(body, s, c, Extracts(remote))
  }

  /** Enter, run the body, and close the block's handle whether or not the body raised. */
  ghost function ExecBlock(body: Prog, s: Solo, c: nat, enter: SoloOp): Outcome
    decreases body, 1
  {
    var inner := SoloNext(s, c, enter);
    var b := Exec(body, inner, c, Some(|s.handles|));
    var out := SoloNext(b.state, c, Closes(|s.handles|));
    Outcome(out, b.raised, [CurrentOf(inner.context)] + b.seen + [CurrentOf(out.context)])
  }

  // ------------------------------------------------------------------- on a stack

  /** Who put an element on the stack: nobody in the program, `extract_headers`, or `start_span` with its draw. */
  datatype Origin = Below | Extracted | Spanned(ids: Ids, recorded: bool)

  datatype Element = Element(value: Option<OtelContext>, origin: Origin)

  type Stack = seq<Element>

  function Base(value: Option<OtelContext>): Stack {
    [Element(value, Below)]
  }

  /** The context an element of the stack stands for. */
  function At(st: Stack, k: nat): OtelContext
    requires k < |st|
  {
    UnwrapOr(st[k].value, NO_SPAN)
  }

  /** The top of the stack, whose lowest element is the value before the program. */
  function Top(st: Stack): OtelContext
    requires st != []
  {
    At(st, |st| - 1)
  }

  /** `live`: the innermost enclosing block has not been ended early. */
  datatype Plain = Plain(stack: Stack, live: bool, raised: bool, seen: seq<Stack>)

  ghost function OnStack(p: Prog, st: Stack, live: bool): (r: Plain)
    requires |st| > if live then 1 else 0
    ensures |r.stack| > if r.live then 1 else 0
    ensures r.stack == if live && !r.live then st[..|st| - 1] else st
    ensures r.live ==> live
    ensures forall i :: 0 <= i < |r.seen| ==> r.seen[i] != []
    decreases p, 0
  {
    match p
    case Skip => Plain(st, live, false, [st])
    case Raise => Plain(st, live, true, [st])
    case EndNow => if live then Plain(st[..|st| - 1], false, false, [st[..|st| - 1]]) else Plain(st, live, false, [st])
    case Then(first, second) =>
      var a := OnStack(first, st, live);
      if a.raised then a
      else
        var b := OnStack(second, a.stack, a.live);
        b.(seen := a.seen + b.seen)
    case Catch(body) => OnStack(body, st, live).(raised := false)
    case SpanBlock(ids, recorded, body) =>
      Pushed(body, st, live, Element(Some(ChildOf(Top(st), ids, recorded)), Spanned(ids, recorded)))
    case ExtractBlock(remote, body) => Pushed(body, st, live, Element(Some(remote), Extracted))
  }

  /** Push, run the body, and pop unless the body already did. */
  ghost function Pushed(body: Prog, st: Stack, live: bool, e: Element): (r: Plain)
    requires |st| > if live then 1 else 0
    ensures r.stack == st && r.live == live
    ensures forall i :: 0 <= i < |r.seen| ==> r.seen[i] != []
    decreases body, 1
  {
    var b := OnStack(body, st + [e], true);
    assert (st + [e])[..|st|] == st;
    Plain(st, live, b.raised, [st + [e]] + b.seen + [st])
  }

  /**
    A span block, wherever it stands: it shows its own context first and the one before it last, and raises
    if its body does. Its own context is never remote: none if the span is not recorded, a child of a valid
    context below it, and otherwise a root.
   */
  lemma SpanBlockSpelled(p: Prog, st: Stack, live: bool, ids: Ids, recorded: bool)
    requires |st| > if live then 1 else 0
    ensures var r := OnStack(SpanBlock(ids, recorded, p), st, live);
      && |r.seen| > 1 && r.seen[|r.seen| - 1] == st
      && |r.seen[0]| == |st| + 1 && r.seen[0][..|st|] == st && r.seen[0][|st|].origin == Spanned(ids, recorded)
      && r.raised == OnStack(p, r.seen[0], true).raised
      && (!recorded ==> At(r.seen[0], |st|) == NO_SPAN)
      && (recorded && IsValid(Top(st)) ==>
            At(r.seen[0], |st|) == OtelContext(Top(st).traceId, ids.spanId, Top(st).spanId, false))
      && (recorded && !IsValid(Top(st)) ==> At(r.seen[0], |st|) == OtelContext(ids.traceId, ids.spanId, 0, false))
  {
    hide OnStack, ChildOf;
    var e := Element(Some(ChildOf(Top(st), ids, recorded)), Spanned(ids, recorded));
    ChildSpelled(Top(st), ids, recorded);
    SpanBlockPushes(p, st, live, ids, recorded);
    assert (st + [e])[..|st|] == st && (st + [e])[|st|] == e;
    if recorded && IsValid(Top(st)) {
      assert e.value.value == OtelContext(Top(st).traceId, ids.spanId, Top(st).spanId, false);
    } else if recorded {
      assert e.value.value == OtelContext(ids.traceId, ids.spanId, 0, false);
    } else {
      assert e.value.value == NO_SPAN by { UnrecordedIsNone(Top(st), ids); }
    }
  }

  lemma SpanBlockPushes(p: Prog, st: Stack, live: bool, ids: Ids, recorded: bool)
    requires |st| > if live then 1 else 0
    ensures var r := OnStack(SpanBlock(ids, recorded, p), st, live);
      var pushed := st + [Element(Some(ChildOf(Top(st), ids, recorded)), Spanned(ids, recorded))];
      && |r.seen| > 1 && r.seen[0] == pushed && r.seen[|r.seen| - 1] == st
      && r.raised == OnStack(p, pushed, true).raised
  {
    hide ChildOf;
  }

  lemma UnrecordedIsNone(current: OtelContext, ids: Ids)
    ensures ChildOf(current, ids, false) == NO_SPAN
  {
  }

  lemma ExtractBlockSpelled(p: Prog, st: Stack, live: bool, remote: OtelContext)
    requires |st| > if live then 1 else 0
    ensures var r := OnStack(ExtractBlock(remote, p), st, live);
      && |r.seen| > 1 && r.seen[0] == st + [Element(Some(remote), Extracted)] && r.seen[|r.seen| - 1] == st
      && r.raised == OnStack(p, r.seen[0], true).raised
  {
  }

  /**
    The other constructs: an exception skips what follows until it is caught; ending the innermost block
    takes its context off at once, and ending it again does nothing.
   */
  lemma ControlSpelled(p: Prog, q: Prog, st: Stack, live: bool)
    requires |st| > if live then 1 else 0
    ensures OnStack(Raise, st, live) == Plain(st, live, true, [st])
    ensures OnStack(Skip, st, live) == Plain(st, live, false, [st])
    ensures live ==> OnStack(EndNow, st, live) == Plain(st[..|st| - 1], false, false, [st[..|st| - 1]])
    ensures !live ==> OnStack(EndNow, st, live) == Plain(st, false, false, [st])
    ensures !OnStack(Catch(p), st, live).raised && OnStack(Catch(p), st, live).seen == OnStack(p, st, live).seen
    ensures var a, r := OnStack(p, st, live), OnStack(Then(p, q), st, live);
      if a.raised then r == a else r.seen == a.seen + OnStack(q, a.stack, a.live).seen
  {
  }

  /** The current contexts a run on the stack shows. */
  ghost function Tops(seen: seq<Stack>): seq<OtelContext>
    requires forall i :: 0 <= i < |seen| ==> seen[i] != []
  {
    seq(|seen|, i requires 0 <= i < |seen| => Top(seen[i]))
  }

  // ------------------------------------------------------------------ refinement

  /**
    The handles of the context are its tokens in order, and the innermost block's token leads to the
    element below the top.
   */
  ghost predicate Matches(s: Solo, c: nat, open: Option<nat>, st: Stack, live: bool) {
    && |s.handles| == |s.context.tokens|
    && st != [] && s.context.value == st[|st| - 1].value
    && (open.None? ==> !live)
    && (open.Some? ==> (
          && open.value < |s.handles|
          && (live ==>
                Held(s, c, open.value) && |st| > 1 && s.context.tokens[open.value].previous == st[|st| - 2].value)
          && (!live ==> Spent(s.handles[open.value]))))
  }

  /** The handle still has its token, and its block is open. */
  predicate Held(s: Solo, c: nat, i: nat)
    requires i < |s.handles|
  {
    s.handles[i].token == Some(TokenId(c, i)) && (s.handles[i].SpanHandle? ==> !s.handles[i].ended)
  }

  /** Closing the handle again does nothing. */
  predicate Spent(h: Handle) {
    if h.SpanHandle? then h.ended else h.token.None?
  }

  /** A program touches only its innermost enclosing handle and those it makes itself. */
  ghost predicate Frames(s: Solo, t: Solo, open: Option<nat>) {
    && |s.handles| <= |t.handles| && |s.context.tokens| <= |t.context.tokens|
    && (forall i :: 0 <= i < |s.handles| && open != Some(i) ==> t.handles[i] == s.handles[i])
    && (forall i :: 0 <= i < |s.context.tokens| ==> t.context.tokens[i].previous == s.context.tokens[i].previous)
  }

  lemma EnterMatches(
      s: Solo, c: nat, open: Option<nat>, st: Stack, live: bool, enter: SoloOp, v: OtelContext, o: Origin)
    requires Matches(s, c, open, st, live)
    requires (enter.Starts? && v == ChildOf(CurrentOf(s.context), enter.ids, enter.recorded)) || enter == Extracts(v)
    ensures var t := SoloNext(s, c, enter);
      && Matches(t, c, Some(|s.handles|), st + [Element(Some(v), o)], true)
      && Frames(s, t, None) && CurrentOf(t.context) == v && |t.handles| == |s.handles| + 1
  {
  }

  lemma CloseMatches(s: Solo, c: nat, h: nat, st: Stack, live: bool)
    requires Matches(s, c, Some(h), st, live)
    ensures var t := SoloNext(s, c, Closes(h));
      && Matches(t, c, Some(h), if live then st[..|st| - 1] else st, false)
      && Frames(s, t, Some(h))
  {
  }

  /** From matching states the token run and the stack run end in matching states and show the same contexts. */
  ghost predicate Agree(s: Solo, c: nat, open: Option<nat>, o: Outcome, r: Plain)
    requires forall i :: 0 <= i < |r.seen| ==> r.seen[i] != []
  {
    && Matches(o.state, c, open, r.stack, r.live) && Frames(s, o.state, open)
    && o.raised == r.raised && o.seen == Tops(r.seen)
  }

  lemma TopsAppend(a: seq<Stack>, b: seq<Stack>)
    requires forall i :: 0 <= i < |a| ==> a[i] != []
    requires forall i :: 0 <= i < |b| ==> b[i] != []
    ensures Tops(a + b) == Tops(a) + Tops(b)
  {
  }

  /** After the body and the close of its block, the enclosing block's handle is as it was. */
  lemma LeaveMatches(
      s: Solo, inner: Solo, after: Solo, c: nat, open: Option<nat>, st: Stack, live: bool, top: Stack, bodyLive: bool)
    requires Matches(s, c, open, st, live)
    requires |inner.handles| == |s.handles| + 1 && Frames(s, inner, None)
    requires Matches(after, c, Some(|s.handles|), top, bodyLive) && Frames(inner, after, Some(|s.handles|))
    requires st == if bodyLive then top[..|top| - 1] else top
    ensures var out := SoloNext(after, c, Closes(|s.handles|));
      Matches(out, c, open, st, live) && Frames(s, out, open)
  {
    CloseMatches(after, c, |s.handles|, top, bodyLive);
  }

  lemma {:induction false} BlockRefines(
      body: Prog, s: Solo, c: nat, open: Option<nat>, st: Stack, live: bool,
      enter: SoloOp, v: OtelContext, o: Origin)
    requires Matches(s, c, open, st, live)
    requires (enter.Starts? && v == ChildOf(CurrentOf(s.context), enter.ids, enter.recorded)) || enter == Extracts(v)
    ensures Agree(s, c, open, ExecBlock(body, s, c, enter), Pushed(body, st, live, Element(Some(v), o)))
    ensures ExecBlock(body, s, c, enter).state.context.value == s.context.value
    decreases body, 1
  {
    hide ChildOf, SoloNext, Matches, Frames, Exec, OnStack;
    var h := |s.handles|;
    var inner := SoloNext(s, c, enter);
    var pushed := st + [Element(Some(v), o)];
    EnterMatches(s, c, open, st, live, enter, v, o);
    ExecRefines(body, inner, c, Some(h), pushed, true);
    var b, r := Exec(body, inner, c, Some(h)), OnStack(body, pushed, true);
    assert pushed[..|st|] == st;
    LeaveMatches(s, inner, b.state, c, open, st, live, r.stack, r.live);
    MatchesShows(ExecBlock(body, s, c, enter).state, c, open, st, live);
    MatchesShows(s, c, open, st, live);
    BlockSeen(pushed, r.seen, st);
  }

  lemma BlockSeen(pushed: Stack, inside: seq<Stack>, st: Stack)
    requires pushed != [] && st != [] && forall i :: 0 <= i < |inside| ==> inside[i] != []
    ensures Tops([pushed] + inside + [st]) == [Top(pushed)] + Tops(inside) + [Top(st)]
  {
  }

  lemma MatchesShows(s: Solo, c: nat, open: Option<nat>, st: Stack, live: bool)
    requires Matches(s, c, open, st, live)
    ensures st != [] && s.context.value == st[|st| - 1].value && CurrentOf(s.context) == Top(st)
    ensures |st| > if live then 1 else 0
  {
  }

  lemma {:induction false} ExecRefines(p: Prog, s: Solo, c: nat, open: Option<nat>, st: Stack, live: bool)
    requires Matches(s, c, open, st, live)
    ensures Agree(s, c, open, Exec(p, s, c, open), OnStack(p, st, live))
    decreases p, 0
  {
    hide Matches, SoloNext, ChildOf;
    match p {
      case Skip => MatchesShows(s, c, open, st, live);
      case Raise => MatchesShows(s, c, open, st, live);
      case EndNow => EndRefines(s, c, open, st, live);
      case Then(first, second) => ThenRefines(first, second, s, c, open, st, live);
      case Catch(body) => ExecRefines(body, s, c, open, st, live);
      case SpanBlock(ids, recorded, body) =>
        MatchesShows(s, c, open, st, live);
        BlockRefines(body, s, c, open, st, live,
                     Starts(ids, recorded), ChildOf(Top(st), ids, recorded), Spanned(ids, recorded));
      case ExtractBlock(remote, body) =>
        BlockRefines(body, s, c, open, st, live, Extracts(remote), remote, Extracted);
    }
  }

  lemma EndRefines(s: Solo, c: nat, open: Option<nat>, st: Stack, live: bool)
    requires Matches(s, c, open, st, live)
    ensures Agree(s, c, open, Exec(EndNow, s, c, open), OnStack(EndNow, st, live))
  {
    if open.Some? { CloseMatches(s, c, open.value, st, live); }
  }

  lemma FramesCompose(s: Solo, t: Solo, u: Solo, open: Option<nat>)
    requires Frames(s, t, open) && Frames(t, u, open)
    ensures Frames(s, u, open)
  {
  }

  /** One agreeing run after another. */
  lemma AgreeThen(s: Solo, c: nat, open: Option<nat>, a: Outcome, b: Outcome, ra: Plain, rb: Plain)
    requires forall i :: 0 <= i < |ra.seen| ==> ra.seen[i] != []
    requires forall i :: 0 <= i < |rb.seen| ==> rb.seen[i] != []
    requires Agree(s, c, open, a, ra) && Agree(a.state, c, open, b, rb)
    ensures forall i :: 0 <= i < |ra.seen + rb.seen| ==> (ra.seen + rb.seen)[i] != []
    ensures Agree(s, c, open, b.(seen := a.seen + b.seen), rb.(seen := ra.seen + rb.seen))
  {
    hide Matches, Frames;
    FramesCompose(s, a.state, b.state, open);
    TopsAppend(ra.seen, rb.seen);
  }

  lemma {:induction false} ThenRefines(
      first: Prog, second: Prog, s: Solo, c: nat, open: Option<nat>, st: Stack, live: bool)
    requires Matches(s, c, open, st, live)
    ensures Agree(s, c, open, Exec(Then(first, second), s, c, open), OnStack(Then(first, second), st, live))
    decreases Then(first, second), -1
  {
    hide Matches, Frames, SoloNext, ChildOf, Tops, ExecBlock, Pushed;
    MatchesShows(s, c, open, st, live);
    ExecRefines(first, s, c, open, st, live);
    var a, r := Exec(first, s, c, open), OnStack(first, st, live);
    if !a.raised {
      ExecRefines(second, a.state, c, open, r.stack, r.live);
      AgreeThen(s, c, open, a, Exec(second, a.state, c, open), r, OnStack(second, r.stack, r.live));
    }
  }

  /**
    Stack refinement. For every well-nested program, with bodies that raise, are caught, or end their
    block early and leave it again, the current context on tokens is at every point the top of the
    stack, the program raises alike, and the value after it is the value before it.
   */
  lemma TokensAreAStack(p: Prog, context: PyContext, handles: seq<Handle>, c: nat)
    requires |handles| == |context.tokens|
    ensures var o := Exec(p, Solo(context, handles), c, None); var r := OnStack(p, Base(context.value), false);
      && o.seen == Tops(r.seen) && o.raised == r.raised
      && o.state.context.value == context.value
  {
    ExecRefines(p, Solo(context, handles), c, None, Base(context.value), false);
  }

  /** A block of either kind gives the current context back, wherever it stands and however its body ends. */
  lemma BlockRestores(
      body: Prog, s: Solo, c: nat, open: Option<nat>, ids: Ids, recorded: bool, remote: OtelContext)
    requires |s.handles| == |s.context.tokens|
    ensures Exec(SpanBlock(ids, recorded, body), s, c, open).state.context.value == s.context.value
    ensures Exec(ExtractBlock(remote, body), s, c, open).state.context.value == s.context.value
  {
    hide ExecBlock, ChildOf, Matches, Agree, Pushed;
    var base := Base(s.context.value);
    NoBlockMatches(s, c);
    BlockRefines(body, s, c, None, base, false,
                 Starts(ids, recorded), ChildOf(CurrentOf(s.context), ids, recorded), Spanned(ids, recorded));
    BlockRefines(body, s, c, None, base, false, Extracts(remote), remote, Extracted);
  }

  lemma NoBlockMatches(s: Solo, c: nat)
    requires |s.handles| == |s.context.tokens|
    ensures Matches(s, c, None, Base(s.context.value), false)
  {
  }

  // -------------------------------------------------------- ends in any other order

  /** Closing these handles one after the other, some of them perhaps again. */
  ghost function CloseAll(s: Solo, c: nat, order: seq<nat>): Solo {
    if order == [] then s
    else SoloNext(CloseAll(s, c, order[..|order| - 1]), c, Closes(order[|order| - 1]))
  }

  /** The last of them that is closed for the first time. */
  function LastNew(order: seq<nat>): nat
    requires order != []
  {
    var front, last := order[..|order| - 1], order[|order| - 1];
    if last in front then LastNew(front) else last
  }

  /** Handles of the context, all with their tokens. */
  ghost predicate AllHeld(s: Solo, c: nat, order: seq<nat>) {
    && |s.handles| == |s.context.tokens|
    && forall i :: 0 <= i < |order| ==> order[i] < |s.handles| && Held(s, c, order[i])
  }

  /** After the closes: whose turn has come is spent, the others are as they were, and tokens lead where they led. */
  ghost predicate ClosedSoFar(s: Solo, t: Solo, order: seq<nat>) {
    && |t.handles| == |s.handles| && |t.context.tokens| == |s.context.tokens| == |s.handles|
    && (forall i :: 0 <= i < |s.handles| ==> if i in order then Spent(t.handles[i]) else t.handles[i] == s.handles[i])
    && forall i :: 0 <= i < |s.context.tokens| ==> t.context.tokens[i].previous == s.context.tokens[i].previous
  }

  lemma CloseOne(s: Solo, t: Solo, c: nat, order: seq<nat>, h: nat)
    requires ClosedSoFar(s, t, order) && h < |s.handles| && Held(s, c, h)
    ensures var u := SoloNext(t, c, Closes(h));
      && ClosedSoFar(s, u, order + [h])
      && u.context.value == if h in order then t.context.value else s.context.tokens[h].previous
  {
  }

  lemma LastNewExists(order: seq<nat>)
    requires order != []
    ensures LastNew(order) in order
  {
    var front, last := order[..|order| - 1], order[|order| - 1];
    if last in front {
      LastNewExists(front);
    }
  }

  /**
    Without nesting the last close decides: whatever objects of one context are ended or restored, in
    whatever order and however often, the current context afterwards is the one from before that object was
    made which came last to be closed for the first time.
   */
  lemma {:induction false} LastCloseDecides(s: Solo, c: nat, order: seq<nat>)
    requires order != [] && AllHeld(s, c, order)
    ensures ClosedSoFar(s, CloseAll(s, c, order), order)
    ensures LastNew(order) < |s.context.tokens|
    ensures CloseAll(s, c, order).context.value == s.context.tokens[LastNew(order)].previous
    decreases |order|
  {
    hide SoloNext, ClosedSoFar, Held;
    var front, last := order[..|order| - 1], order[|order| - 1];
    assert order == front + [last];
    if front == [] {
      assert CloseAll(s, c, front) == s;
      assert ClosedSoFar(s, s, []) by { NothingClosed(s); }
    } else {
      assert forall i :: 0 <= i < |front| ==> front[i] == order[i];
      LastCloseDecides(s, c, front);
    }
    CloseOne(s, CloseAll(s, c, front), c, front, last);
  }

  lemma NothingClosed(s: Solo)
    requires |s.handles| == |s.context.tokens|
    ensures ClosedSoFar(s, s, [])
  {
  }

  /** Starting recorded spans one after the other, none of them in a block. */
  ghost function StartAll(s: Solo, c: nat, ids: seq<Ids>): Solo
    decreases |ids|
  {
    if ids == [] then s else StartAll(SoloNext(s, c, Starts(ids[0], true)), c, ids[1..])
  }

  lemma {:induction false} Started(s: Solo, c: nat, ids: seq<Ids>)
    requires |s.handles| == |s.context.tokens|
    ensures var n, t := |s.handles|, StartAll(s, c, ids);
      && |t.handles| == |t.context.tokens| == n + |ids|
      && (forall i :: 0 <= i < n ==> t.handles[i] == s.handles[i] && t.context.tokens[i] == s.context.tokens[i])
      && (forall i :: n <= i < n + |ids| ==> Held(t, c, i))
      && (ids != [] ==> t.context.tokens[n].previous == s.context.value)
      && forall k :: n < k < n + |ids| ==>
           t.context.tokens[k].previous.Some? && t.context.tokens[k].previous.value.spanId == ids[k - n - 1].spanId
    decreases |ids|
  {
    if ids != [] {
      var u, rest := SoloNext(s, c, Starts(ids[0], true)), ids[1..];
      Started(u, c, rest);
      var n, t := |s.handles|, StartAll(u, c, rest);
      assert t.handles[n] == u.handles[n] && t.context.tokens[n] == u.context.tokens[n];
      forall k | n < k < n + |ids|
        ensures t.context.tokens[k].previous.Some?
        ensures t.context.tokens[k].previous.value.spanId == ids[k - n - 1].spanId
      {
        if k > n + 1 {
          assert rest[k - (n + 1) - 1] == ids[k - n - 1];
        } else {
          assert t.context.tokens[n + 1].previous == u.context.value;
        }
      }
    }
  }

  /**
    Exactly when ends out of order restore. Of spans started one after the other, any are ended, all of
    them or some, in any order and perhaps more than once: the current context is again the one from before
    them if and only if the span that came last to its first end is the one started first.
   */
  lemma RestoredExactly(s: Solo, c: nat, ids: seq<Ids>, order: seq<nat>)
    requires |s.handles| == |s.context.tokens| && order != []
    requires forall i :: 0 <= i < |ids| ==> ids[i].spanId != CurrentOf(s.context).spanId
    requires forall i :: 0 <= i < |order| ==> |s.handles| <= order[i] < |s.handles| + |ids|
    ensures CloseAll(StartAll(s, c, ids), c, order).context.value == s.context.value <==>
            LastNew(order) == |s.handles|
  {
    hide Held, CloseAll, StartAll, LastNew;
    var n, t, last := |s.handles|, StartAll(s, c, ids), LastNew(order);
    Started(s, c, ids);
    LastCloseDecides(t, c, order);
    LastNewExists(order);
    if last > n {
      assert t.context.tokens[last].previous.value.spanId == ids[last - n - 1].spanId;
    }
  }

  // ----------------------------------------------------------- trace inheritance

  /** The identifiers the tracer draws in the course of a program. */
  function Drawn(p: Prog): set<Ids> {
    match p
    case Then(a, b) => Drawn(a) + Drawn(b)
    case Catch(b) => Drawn(b)
    case SpanBlock(ids, _, b) => {ids} + Drawn(b)
    case ExtractBlock(_, b) => Drawn(b)
    case _ => {}
  }

  /**
    How an element of the stack stands on the one below it. What `start_span` put there is never remote: it is
    no span if it is not recorded, a child in the trace of a valid context below it, and otherwise a root,
    with the identifiers drawn for it.
   */
  ghost predicate Explained(st: Stack, k: nat, drawn: set<Ids>)
    requires k < |st|
  {
    match st[k].origin
    case Below => k == 0
    case Extracted => k > 0 && st[k].value.Some?
    case Spanned(ids, recorded) =>
      && k > 0 && st[k].value.Some? && ids in drawn
      && (!recorded ==> At(st, k) == NO_SPAN)
      && (recorded ==> !At(st, k).remote && At(st, k).spanId == ids.spanId)
      && (recorded && IsValid(At(st, k - 1)) ==>
            At(st, k).traceId == At(st, k - 1).traceId && At(st, k).parent == At(st, k - 1).spanId)
      && (recorded && !IsValid(At(st, k - 1)) ==> At(st, k).traceId == ids.traceId && At(st, k).parent == 0)
  }

  ghost predicate Chained(st: Stack, drawn: set<Ids>) {
    forall k :: 0 <= k < |st| ==> Explained(st, k, drawn)
  }

  ghost predicate AllChained(seen: seq<Stack>, drawn: set<Ids>) {
    forall i :: 0 <= i < |seen| ==> Chained(seen[i], drawn)
  }

  lemma PushStaysChained(st: Stack, e: Element, drawn: set<Ids>)
    requires st != [] && Chained(st, drawn) && e.value.Some?
    requires e.origin.Extracted? || (e.origin.Spanned? && e.origin.ids in drawn
                                     && e.value.value == ChildOf(Top(st), e.origin.ids, e.origin.recorded))
    ensures Chained(st + [e], drawn)
  {
    var pushed := st + [e];
    assert Top(st) == At(st, |st| - 1) == At(pushed, |st| - 1);
    forall k | 0 <= k < |pushed| ensures Explained(pushed, k, drawn) {
      if k < |st| {
        assert Explained(st, k, drawn) && At(pushed, k) == At(st, k);
        assert k > 0 ==> At(pushed, k - 1) == At(st, k - 1);
      }
    }
  }

  lemma PopStaysChained(st: Stack, drawn: set<Ids>)
    requires st != [] && Chained(st, drawn)
    ensures Chained(st[..|st| - 1], drawn)
  {
    var front := st[..|st| - 1];
    forall k | 0 <= k < |front| ensures Explained(front, k, drawn) {
      assert Explained(st, k, drawn) && At(front, k) == At(st, k);
      assert k > 0 ==> At(front, k - 1) == At(st, k - 1);
    }
  }

  lemma {:induction false} PushedStaysChained(body: Prog, st: Stack, live: bool, e: Element, drawn: set<Ids>)
    requires |st| > (if live then 1 else 0) && Chained(st, drawn) && Chained(st + [e], drawn) && Drawn(body) <= drawn
    ensures AllChained(Pushed(body, st, live, e).seen, drawn)
    decreases body, 1
  {
    hide Chained;
    StackStaysChained(body, st + [e], true, drawn);
  }

  lemma {:induction false} StackStaysChained(p: Prog, st: Stack, live: bool, drawn: set<Ids>)
    requires |st| > (if live then 1 else 0) && Chained(st, drawn) && Drawn(p) <= drawn
    ensures AllChained(OnStack(p, st, live).seen, drawn) && Chained(OnStack(p, st, live).stack, drawn)
    decreases p, 0
  {
    hide Chained, ChildOf;
    PopStaysChained(st, drawn);
    match p {
      case Then(first, second) =>
        StackStaysChained(first, st, live, drawn);
        var a := OnStack(first, st, live);
        if !a.raised { StackStaysChained(second, a.stack, a.live, drawn); }
      case Catch(body) => StackStaysChained(body, st, live, drawn);
      case SpanBlock(ids, recorded, body) =>
        var e := Element(Some(ChildOf(Top(st), ids, recorded)), Spanned(ids, recorded));
        assert ids in drawn;
        PushStaysChained(st, e, drawn);
        PushedStaysChained(body, st, live, e, drawn);
      case ExtractBlock(remote, body) =>
        PushStaysChained(st, Element(Some(remote), Extracted), drawn);
        PushedStaysChained(body, st, live, Element(Some(remote), Extracted), drawn);
      case _ =>
    }
  }

  // ---- fresh identifiers

  /** Identifiers that have occurred, as trace and as span. */
  datatype InUse = InUse(traces: set<nat>, spans: set<nat>)

  function With(u: InUse, traceId: nat, spanId: nat): InUse {
    InUse(u.traces + {traceId}, u.spans + {spanId})
  }

  /** Those in use after a program: its draws, and what its propagators extracted. */
  function AfterAll(p: Prog, u: InUse): InUse {
    match p
    case Then(a, b) => AfterAll(b, AfterAll(a, u))
    case Catch(b) => AfterAll(b, u)
    case SpanBlock(ids, _, b) => AfterAll(b, With(u, ids.traceId, ids.spanId))
    case ExtractBlock(r, b) => AfterAll(b, With(u, r.traceId, r.spanId))
    case _ => u
  }

  /** The tracer draws identifiers that have not occurred before, in this program or extracted by it. */
  ghost predicate FreshDraws(p: Prog, u: InUse) {
    match p
    case Then(a, b) => FreshDraws(a, u) && FreshDraws(b, AfterAll(a, u))
    case Catch(b) => FreshDraws(b, u)
    case SpanBlock(ids, _, b) =>
      ids.traceId !in u.traces && ids.spanId !in u.spans && FreshDraws(b, With(u, ids.traceId, ids.spanId))
    case ExtractBlock(r, b) => FreshDraws(b, With(u, r.traceId, r.spanId))
    case _ => true
  }

  /** What is in use before a program: 0, which is never valid, and the current context's. */
  function InUseAt(base: Option<OtelContext>): InUse {
    InUse({0, UnwrapOr(base, NO_SPAN).traceId}, {0, UnwrapOr(base, NO_SPAN).spanId})
  }

  lemma {:induction false} UseGrows(p: Prog, u: InUse)
    ensures u.traces <= AfterAll(p, u).traces && u.spans <= AfterAll(p, u).spans
    ensures forall x :: x in Drawn(p) ==> x.traceId in AfterAll(p, u).traces && x.spanId in AfterAll(p, u).spans
  {
    match p {
      case Then(a, b) =>
        UseGrows(a, u);
        UseGrows(b, AfterAll(a, u));
      case Catch(b) => UseGrows(b, u);
      case SpanBlock(ids, _, b) => UseGrows(b, With(u, ids.traceId, ids.spanId));
      case ExtractBlock(r, b) => UseGrows(b, With(u, r.traceId, r.spanId));
      case _ =>
    }
  }

  /** No two draws share a trace or a span identifier, nor has any of them occurred before. */
  lemma {:induction false} DrawsDiffer(p: Prog, u: InUse)
    requires FreshDraws(p, u)
    ensures forall x :: x in Drawn(p) ==> x.traceId !in u.traces && x.spanId !in u.spans
    ensures forall x, y :: x in Drawn(p) && y in Drawn(p) && (x.traceId == y.traceId || x.spanId == y.spanId) ==> x == y
  {
    match p {
      case Then(a, b) =>
        DrawsDiffer(a, u);
        UseGrows(a, u);
        DrawsDiffer(b, AfterAll(a, u));
      case Catch(b) => DrawsDiffer(b, u);
      case SpanBlock(ids, _, b) => DrawsDiffer(b, With(u, ids.traceId, ids.spanId));
      case ExtractBlock(r, b) => DrawsDiffer(b, With(u, r.traceId, r.spanId));
      case _ =>
    }
  }

  /** Put there by `start_span`, and recorded. */
  predicate IsLocal(st: Stack, k: nat)
    requires k < |st|
  {
    k > 0 && st[k].origin.Spanned? && st[k].origin.recorded
  }

  /** One that stands on no valid context. */
  predicate IsRoot(st: Stack, k: nat)
    requires k < |st|
  {
    IsLocal(st, k) && !IsValid(At(st, k - 1))
  }

  ghost predicate StackUses(st: Stack, u: InUse) {
    0 in u.traces && 0 in u.spans &&
    forall k :: 0 <= k < |st| ==> At(st, k).traceId in u.traces && At(st, k).spanId in u.spans
  }

  /** Every local span has its own span identifier among those below it, and every root its own trace. */
  ghost predicate OwnIds(st: Stack) {
    forall k, m :: 0 <= m < k < |st| && IsLocal(st, k) ==>
      && At(st, m).spanId != At(st, k).spanId
      && (IsRoot(st, k) ==> At(st, m).traceId != At(st, k).traceId)
  }

  ghost predicate AllOwnIds(seen: seq<Stack>) {
    forall i :: 0 <= i < |seen| ==> OwnIds(seen[i])
  }

  lemma PushKeepsIds(st: Stack, e: Element, u: InUse, traceId: nat, spanId: nat)
    requires st != [] && StackUses(st, u) && OwnIds(st) && e.value.Some?
    requires e.value.value.traceId in u.traces + {traceId} && e.value.value.spanId in u.spans + {spanId}
    requires e.origin.Spanned? && e.origin.recorded ==>
               && e.value.value.spanId !in u.spans
               && (!IsValid(At(st, |st| - 1)) ==> e.value.value.traceId !in u.traces)
    ensures StackUses(st + [e], With(u, traceId, spanId)) && OwnIds(st + [e])
  {
    var pushed := st + [e];
    assert forall k :: 0 <= k < |st| ==> At(pushed, k) == At(st, k);
    assert forall k :: 0 <= k < |st| ==> IsLocal(pushed, k) == IsLocal(st, k) && IsRoot(pushed, k) == IsRoot(st, k);
  }

  lemma {:induction false} PushedKeepsIds(body: Prog, st: Stack, live: bool, e: Element, u: InUse)
    requires |st| > (if live then 1 else 0) && OwnIds(st) && StackUses(st + [e], u) && OwnIds(st + [e])
    requires FreshDraws(body, u)
    ensures AllOwnIds(Pushed(body, st, live, e).seen)
    decreases body, 1
  {
    StackKeepsIds(body, st + [e], true, u);
  }

  lemma {:induction false} StackKeepsIds(p: Prog, st: Stack, live: bool, u: InUse)
    requires |st| > (if live then 1 else 0) && StackUses(st, u) && OwnIds(st)
    requires FreshDraws(p, u)
    ensures AllOwnIds(OnStack(p, st, live).seen)
    decreases p, 0
  {
    hide OwnIds, StackUses, ChildOf;
    PrefixKeepsIds(st, u);
    match p {
      case Then(first, second) =>
        StackKeepsIds(first, st, live, u);
        var a := OnStack(first, st, live);
        if !a.raised {
          UseGrows(first, u);
          UsesMore(a.stack, u, AfterAll(first, u));
          StackKeepsIds(second, a.stack, a.live, AfterAll(first, u));
        }
      case Catch(body) => StackKeepsIds(body, st, live, u);
      case SpanBlock(ids, recorded, body) =>
        var e := Element(Some(ChildOf(Top(st), ids, recorded)), Spanned(ids, recorded));
        ChildUses(st, ids, recorded, u);
        PushKeepsIds(st, e, u, ids.traceId, ids.spanId);
        PushedKeepsIds(body, st, live, e, With(u, ids.traceId, ids.spanId));
      case ExtractBlock(remote, body) =>
        var e := Element(Some(remote), Extracted);
        PushKeepsIds(st, e, u, remote.traceId, remote.spanId);
        PushedKeepsIds(body, st, live, e, With(u, remote.traceId, remote.spanId));
      case _ =>
    }
  }

  lemma PrefixKeepsIds(st: Stack, u: InUse)
    requires st != [] && StackUses(st, u) && OwnIds(st)
    ensures StackUses(st[..|st| - 1], u) && OwnIds(st[..|st| - 1])
  {
    var front := st[..|st| - 1];
    assert forall k :: 0 <= k < |front| ==> At(front, k) == At(st, k);
    assert forall k :: 0 <= k < |front| ==> IsLocal(front, k) == IsLocal(st, k) && IsRoot(front, k) == IsRoot(st, k);
  }

  lemma UsesMore(st: Stack, u: InUse, more: InUse)
    requires StackUses(st, u) && u.traces <= more.traces && u.spans <= more.spans
    ensures StackUses(st, more)
  {
  }

  lemma ChildUses(st: Stack, ids: Ids, recorded: bool, u: InUse)
    requires st != [] && StackUses(st, u)
    ensures var v := ChildOf(Top(st), ids, recorded);
      && v.traceId in u.traces + {ids.traceId} && v.spanId in u.spans + {ids.spanId}
      && (recorded ==> v.spanId == ids.spanId && (!IsValid(Top(st)) ==> v.traceId == ids.traceId))
    ensures Top(st) == At(st, |st| - 1)
  {
    assert Top(st) == At(st, |st| - 1);
  }

  /** The elements strictly above `i` and up to `j` are recorded spans. */
  ghost predicate LocalFrom(st: Stack, i: nat, j: nat)
    requires i <= j < |st|
  {
    forall k :: i < k <= j ==> IsLocal(st, k)
  }

  lemma {:induction false} ChainedTrace(st: Stack, i: nat, j: nat, drawn: set<Ids>)
    requires i <= j < |st| && Chained(st, drawn) && LocalFrom(st, i, j)
    requires IsValid(At(st, i)) && forall ids :: ids in drawn ==> ids.spanId != 0
    ensures IsValid(At(st, j)) && At(st, j).traceId == At(st, i).traceId
    ensures i < j ==> At(st, j).parent == At(st, j - 1).spanId
  {
    if i < j {
      ChainedTrace(st, i, j - 1, drawn);
      assert IsLocal(st, j) && Explained(st, j, drawn);
    }
  }

  /**
    Trace inheritance. At every point of every well-nested program, with the stack it has there, a
    recorded span is a valid local context with the span identifier drawn for it, which no context below it
    has. It carries the trace of every valid context below it from which on all are recorded spans, the
    outermost of them included, be that a root span or an extracted context, and its parent is the innermost
    one. A recorded span on no valid context is a fresh root: its trace is the one drawn for it and differs
    from every trace below it, so also from the one that is current again when its block is left.
   */
  lemma TracesAreInherited(p: Prog, base: Option<OtelContext>, n: nat, i: nat, j: nat)
    requires FreshDraws(p, InUseAt(base))
    requires n < |OnStack(p, Base(base), false).seen| && i < j < |OnStack(p, Base(base), false).seen[n]|
    requires LocalFrom(OnStack(p, Base(base), false).seen[n], i, j)
    ensures OnStack(p, Base(base), false).seen[n][j].origin.Spanned?
    ensures var st := OnStack(p, Base(base), false).seen[n]; var ids := st[j].origin.ids;
      && ids in Drawn(p) && IsValid(At(st, j)) && !At(st, j).remote && At(st, j).spanId == ids.spanId
      && (forall m :: 0 <= m < j ==> At(st, m).spanId != At(st, j).spanId)
      && (IsValid(At(st, i)) ==> At(st, j).traceId == At(st, i).traceId && At(st, j).parent == At(st, j - 1).spanId)
      && (!IsValid(At(st, j - 1)) ==>
            && At(st, j).parent == 0 && At(st, j).traceId == ids.traceId
            && forall m :: 0 <= m < j ==> At(st, m).traceId != At(st, j).traceId)
  {
    hide OnStack, Drawn;
    SeenStacks(p, base, n);
    DrawsDiffer(p, InUseAt(base));
    var st := OnStack(p, Base(base), false).seen[n];
    assert IsLocal(st, j) && Explained(st, j, Drawn(p));
    if IsValid(At(st, i)) {
      ChainedTrace(st, i, j, Drawn(p));
    }
    assert !IsValid(At(st, j - 1)) ==> IsRoot(st, j);
  }

  lemma SeenStacks(p: Prog, base: Option<OtelContext>, n: nat)
    requires FreshDraws(p, InUseAt(base)) && n < |OnStack(p, Base(base), false).seen|
    ensures var st := OnStack(p, Base(base), false).seen[n]; Chained(st, Drawn(p)) && OwnIds(st)
  {
    hide OnStack, Drawn;
    StackStaysChained(p, Base(base), false, Drawn(p));
    StackKeepsIds(p, Base(base), false, InUseAt(base));
  }

  /** Over the whole program too a trace has one root: two roots seen anywhere with one trace are the same span. */
  lemma TraceHasOneRoot(p: Prog, base: Option<OtelContext>, n: nat, k: nat, m: nat, l: nat)
    requires FreshDraws(p, InUseAt(base))
    requires n < |OnStack(p, Base(base), false).seen| && k < |OnStack(p, Base(base), false).seen[n]|
    requires m < |OnStack(p, Base(base), false).seen| && l < |OnStack(p, Base(base), false).seen[m]|
    requires IsRoot(OnStack(p, Base(base), false).seen[n], k) && IsRoot(OnStack(p, Base(base), false).seen[m], l)
    requires var seen := OnStack(p, Base(base), false).seen; At(seen[n], k).traceId == At(seen[m], l).traceId
    ensures var a, b := OnStack(p, Base(base), false).seen[n][k], OnStack(p, Base(base), false).seen[m][l];
      a.origin == b.origin && UnwrapOr(a.value, NO_SPAN) == UnwrapOr(b.value, NO_SPAN) && a.origin.ids in Drawn(p)
  {
    hide OnStack, Drawn;
    SeenStacks(p, base, n);
    SeenStacks(p, base, m);
    DrawsDiffer(p, InUseAt(base));
    var a, b := OnStack(p, Base(base), false).seen[n], OnStack(p, Base(base), false).seen[m];
    assert Explained(a, k, Drawn(p)) && Explained(b, l, Drawn(p));
  }
}
