/**
  Many tasks, each in a copy of a context, starting spans and extracting contexts, and closing
  any handle they can reach, their own or one another task made. Every interleaving is a run.
 */
module Tasks {
  import opened Prelude
  import opened Spans

  datatype HandleId = HandleId(owner: nat, index: nat)

  datatype Op =
    | Start(ids: Ids, recorded: bool)
    | Extract(remote: OtelContext)
    | Close(h: HandleId)           // `end`, `__exit__` or `restore`
    | Drop(h: HandleId)
    | Spawn(child: nat)            // a task started in a copy of the running context

  datatype Step = Step(task: nat, op: Op)

  datatype System = System(
    world: World,
    handles: map<nat, seq<Handle>>,     // by the task that made them
    attempts: seq<TokenId>,             // every `reset` that was called
    refusals: seq<Refusal>)             // every error it raised

  ghost predicate Known(s: System, h: HandleId) {
    h.owner in s.handles && h.index < |s.handles[h.owner]|
  }

  ghost predicate Enabled(s: System, step: Step) {
    step.task in s.world && step.task in s.handles &&
    match step.op
    case Start(_, _) => true
    case Extract(_) => true
    case Close(h) => Known(s, h)
    case Drop(h) => Known(s, h)
    case Spawn(c) => c !in s.world && c !in s.handles
  }

  function NewHandle(token: Option<TokenId>, isSpan: bool): Handle {
    if isSpan then SpanHandle(true, token, false) else ExtractHandle(token)
  }

  /** Pushing a context and keeping the token in a new handle. */
  ghost function PushHandle(s: System, t: nat, v: OtelContext, isSpan: bool): System
    requires t in s.world && t in s.handles
  {
    var token := Some(TokenId(t, |s.world[t].tokens|));
    s.(world := s.world[t := SetIn(s.world[t], v)],
       handles := s.handles[t := s.handles[t] + [NewHandle(token, isSpan)]])
  }

  ghost function SetHandle(s: System, h: HandleId, v: Handle): System
    requires Known(s, h)
  {
    s.(handles := s.handles[h.owner := s.handles[h.owner][h.index := v]])
  }

  /** Every handle's token is its own and has never been given to `reset`. */
  ghost predicate HandleOk(s: System, h: HandleId)
    requires Known(s, h)
  {
    var v := s.handles[h.owner][h.index];
    && (v.token.Some? ==> (
          && v.token.value == TokenId(h.owner, h.index) && Exists(s.world, v.token.value)
          && !s.world[h.owner].tokens[h.index].used && v.token.value !in s.attempts))
    && (v.SpanHandle? && v.ended ==> !v.open && v.token.None?)
    && (v.SpanHandle? && !v.ended ==> v.token.Some?)
  }

  ghost predicate Inv(s: System) {
    && s.world.Keys == s.handles.Keys
    && (forall t :: t in s.world ==> |s.world[t].tokens| == |s.handles[t]|)
    && (forall h :: Known(s, h) ==> HandleOk(s, h))
    && (forall i, j :: 0 <= i < j < |s.attempts| ==> s.attempts[i] != s.attempts[j])
    && (forall i :: 0 <= i < |s.attempts| ==> Exists(s.world, s.attempts[i]))
    && TokenUsed !in s.refusals
  }

  ghost function Next(s: System, step: Step): System
    requires Inv(s) && Enabled(s, step)
  {
    var t := step.task;
    match step.op
    case Start(ids, recorded) => PushHandle(s, t, ChildOf(CurrentOf(s.world[t]), ids, recorded), true)
    case Extract(remote) => PushHandle(s, t, remote, false)
    case Close(h) =>
      var (closed, token) := CloseHandle(s.handles[h.owner][h.index]);
      var u := SetHandle(s, h, closed);
      if token.None? then u
      else
        assert HandleOk(s, h);
        var (w, refusal) := ResetVar(s.world, t, token.value);
        u.(world := w, attempts := s.attempts + [token.value],
           refusals := s.refusals + if refusal.Some? then [refusal.value] else [])
    case Drop(h) => SetHandle(s, h, DropHandle(s.handles[h.owner][h.index]))
    case Spawn(c) =>
      s.(world := s.world[c := PyContext(s.world[t].value, [])], handles := s.handles[c := []])
  }

  lemma PushKeepsInv(s: System, t: nat, v: OtelContext, isSpan: bool)
    requires Inv(s) && t in s.world
    ensures Inv(PushHandle(s, t, v, isSpan))
  {
    var u := PushHandle(s, t, v, isSpan);
    forall h | Known(u, h) ensures HandleOk(u, h) {
      if Known(s, h) {
        assert HandleOk(s, h);
      }
    }
  }

  lemma CloseKeepsInv(s: System, step: Step)
    requires Inv(s) && Enabled(s, step) && step.op.Close?
    ensures Inv(Next(s, step))
  {
    var u, id := Next(s, step), step.op.h;
    assert HandleOk(s, id);
    forall h | Known(u, h) ensures HandleOk(u, h) {
      assert Known(s, h) && HandleOk(s, h);
    }
  }

  lemma NextKeepsInv(s: System, step: Step)
    requires Inv(s) && Enabled(s, step)
    ensures Inv(Next(s, step))
  {
    match step.op {
      case Start(ids, recorded) =>
        PushKeepsInv(s, step.task, ChildOf(CurrentOf(s.world[step.task]), ids, recorded), true);
      case Extract(remote) => PushKeepsInv(s, step.task, remote, false);
      case Close(_) => CloseKeepsInv(s, step);
      case Drop(_) =>
        var u := Next(s, step);
        forall h | Known(u, h) ensures HandleOk(u, h) { assert Known(s, h) && HandleOk(s, h); }
      case Spawn(_) =>
        var u := Next(s, step);
        forall h | Known(u, h) ensures HandleOk(u, h) { assert Known(s, h) && HandleOk(s, h); }
    }
  }

  ghost predicate CanRun(s: System, steps: seq<Step>)
    requires Inv(s)
    decreases |steps|
  {
    steps == [] || (Enabled(s, steps[0]) && (NextKeepsInv(s, steps[0]); CanRun(Next(s, steps[0]), steps[1..])))
  }

  ghost function Run(s: System, steps: seq<Step>): System
    requires Inv(s) && CanRun(s, steps)
    decreases |steps|
  {
    if steps == [] then s
    else
      NextKeepsInv(s, steps[0]);
      Run(Next(s, steps[0]), steps[1..])
  }

  lemma {:induction false} RunKeepsInv(s: System, steps: seq<Step>)
    requires Inv(s) && CanRun(s, steps)
    ensures Inv(Run(s, steps))
    decreases |steps|
  {
    if steps != [] {
      NextKeepsInv(s, steps[0]);
      RunKeepsInv(Next(s, steps[0]), steps[1..]);
    }
  }

  /** The start of the process: any tasks, nothing pushed by this library yet. */
  ghost predicate Initial(s: System) {
    && s.world.Keys == s.handles.Keys && s.attempts == [] && s.refusals == []
    && forall t :: t in s.world ==> s.world[t].tokens == [] && s.handles[t] == []
  }

  lemma InitialInv(s: System)
    requires Initial(s)
    ensures Inv(s)
  {
  }

  /**
    One-shot tokens: over every run of every number of tasks, no token is ever given to `reset` twice,
    so `reset` never meets a used token, and a span that has ended holds neither span nor token.
   */
  lemma TokensAreOneShot(s: System, steps: seq<Step>)
    requires Initial(s) && (InitialInv(s); CanRun(s, steps))
    ensures Inv(s)
    ensures var u := Run(s, steps);
      && (forall i, j :: 0 <= i < j < |u.attempts| ==> u.attempts[i] != u.attempts[j])
      && TokenUsed !in u.refusals
      && (forall h :: Known(u, h) && u.handles[h.owner][h.index].SpanHandle? && u.handles[h.owner][h.index].ended ==>
            !u.handles[h.owner][h.index].open && u.handles[h.owner][h.index].token.None?)
  {
    InitialInv(s);
    RunKeepsInv(s, steps);
    var u := Run(s, steps);
    forall h | Known(u, h) ensures HandleOk(u, h) {}
  }

  /**
    Closing a handle from another task is refused, yet it closes the span for good, and neither task's
    current context changes. Any step changes no context but that of the task that makes it.
   */
  lemma ForeignCloseTouchesNoContext(s: System, step: Step, t: nat)
    requires Inv(s) && Enabled(s, step) && t in s.world && t != step.task
    ensures t in Next(s, step).world && Next(s, step).world[t] == s.world[t]
    ensures step.op.Close? && step.op.h.owner == t ==> (
              var h := step.op.h; var before, after := s.handles[t][h.index], Next(s, step).handles[t][h.index];
              && Next(s, step).world == s.world
              && after.token.None? && (after.SpanHandle? ==> after.ended && !after.open)
              && (before.token.Some? ==> Next(s, step).refusals == s.refusals + [OtherContext]))
  {
    if step.op.Close? {
      assert HandleOk(s, step.op.h);
    }
  }

  // ------------------------------------------------------------------- isolation

  /** One task on its own: its context and the handles it made. */
  datatype Solo = Solo(context: PyContext, handles: seq<Handle>)

  /** What a task does, and what is done to its handles behind its back. */
  datatype SoloOp =
    | Starts(ids: Ids, recorded: bool)
    | Extracts(remote: OtelContext)
    | Closes(index: nat)           // its own close of its own handle
    | Loses(index: nat)            // another task's close: the token is gone, the context stays
    | Drops(index: nat)
    | Nothing                      // a step that cannot concern its context: a foreign handle, a spawn

  /** `own` tells the task's own steps from those of others. */
  datatype Note = Note(own: bool, op: SoloOp)

  ghost function View(s: System, t: nat): Solo
    requires t in s.world && t in s.handles
  {
    Solo(s.world[t], s.handles[t])
  }

  ghost function SoloPush(p: Solo, t: nat, v: OtelContext, isSpan: bool): Solo {
    var token := Some(TokenId(t, |p.context.tokens|));
    Solo(SetIn(p.context, v), p.handles + [NewHandle(token, isSpan)])
  }

  ghost function SoloNext(p: Solo, t: nat, op: SoloOp): Solo {
    match op
    case Starts(ids, recorded) => SoloPush(p, t, ChildOf(CurrentOf(p.context), ids, recorded), true)
    case Extracts(remote) => SoloPush(p, t, remote, false)
    case Closes(i) =>
      if i >= |p.handles| then p
      else
        var (closed, token) := CloseHandle(p.handles[i]);
        var resets := token.Some? && token.value.index < |p.context.tokens|;
        Solo(if resets then ResetIn(p.context, token.value.index) else p.context, p.handles[i := closed])
    case Loses(i) => if i >= |p.handles| then p else p.(handles := p.handles[i := CloseHandle(p.handles[i]).0])
    case Drops(i) => if i >= |p.handles| then p else p.(handles := p.handles[i := DropHandle(p.handles[i])])
    case Nothing => p
  }

  /** A step as task `t` is concerned. */
  function NoteOf(step: Step, t: nat): seq<Note> {
    var own := step.task == t;
    match step.op
    case Close(h) =>
      if h.owner == t then [Note(own, if own then Closes(h.index) else Loses(h.index))]
      else if own then [Note(true, Nothing)] else []
    case Drop(h) => if h.owner == t then [Note(own, Drops(h.index))] else if own then [Note(true, Nothing)] else []
    case Start(ids, recorded) => if own then [Note(true, Starts(ids, recorded))] else []
    case Extract(remote) => if own then [Note(true, Extracts(remote))] else []
    case Spawn(_) => if own then [Note(true, Nothing)] else []
  }

  function Notes(steps: seq<Step>, t: nat): seq<Note> {
    if steps == [] then [] else NoteOf(steps[0], t) + Notes(steps[1..], t)
  }

  /** The current context of `t` after each of its own steps in the whole run. */
  ghost function Watched(s: System, steps: seq<Step>, t: nat): seq<OtelContext>
    requires Inv(s) && CanRun(s, steps) && t in s.world
    decreases |steps|
  {
    if steps == [] then []
    else
      NextKeepsInv(s, steps[0]);
      WorldGrows(s, steps[0]);
      var u := Next(s, steps[0]);
      (if steps[0].task == t then [CurrentOf(u.world[t])] else []) + Watched(u, steps[1..], t)
  }

  /** The same, for the task alone with its notes. */
  ghost function WatchedAlone(p: Solo, t: nat, notes: seq<Note>): seq<OtelContext>
    decreases |notes|
  {
    if notes == [] then []
    else
      var q := SoloNext(p, t, notes[0].op);
      (if notes[0].own then [CurrentOf(q.context)] else []) + WatchedAlone(q, t, notes[1..])
  }

  lemma WorldGrows(s: System, step: Step)
    requires Inv(s) && Enabled(s, step)
    ensures s.world.Keys <= Next(s, step).world.Keys
    ensures s.handles.Keys <= Next(s, step).handles.Keys
  {
  }

  /** One step of the run is, for the task, its note and nothing else. */
  lemma StepIsItsNote(s: System, step: Step, t: nat)
    requires Inv(s) && Enabled(s, step) && t in s.world
    ensures t in Next(s, step).world && t in Next(s, step).handles
    ensures var notes := NoteOf(step, t);
      View(Next(s, step), t) == if notes == [] then View(s, t) else SoloNext(View(s, t), t, notes[0].op)
  {
    if step.op.Close? {
      assert HandleOk(s, step.op.h);
    }
  }

  /**
    Task isolation, for every interleaving: the contexts a task sees are those it sees alone from its
    copy, where a close of its handle by another task counts as losing the token. No push or reset of
    any other task is ever visible to it.
   */
  lemma {:induction false} TasksAreIsolated(s: System, steps: seq<Step>, t: nat)
    requires Inv(s) && CanRun(s, steps) && t in s.world
    ensures Watched(s, steps, t) == WatchedAlone(View(s, t), t, Notes(steps, t))
    decreases |steps|
  {
    if steps != [] {
      var step, rest := steps[0], steps[1..];
      var u := Next(s, step);
      NextKeepsInv(s, step);
      WorldGrows(s, step);
      StepIsItsNote(s, step, t);
      TasksAreIsolated(u, rest, t);
      var notes := NoteOf(step, t);
      if notes != [] {
        assert Notes(steps, t) == [notes[0]] + Notes(rest, t);
        assert Notes(steps, t)[1..] == Notes(rest, t);
      } else {
        assert Notes(steps, t) == Notes(rest, t);
      }
    }
  }

  function OwnSteps(steps: seq<Step>, t: nat): seq<Step> {
    if steps == [] then [] else (if steps[0].task == t then [steps[0]] else []) + OwnSteps(steps[1..], t)
  }

  // ------------------------------------------------------- who closes a handle first

  ghost function TokenOf(s: System, h: HandleId): Option<TokenId>
    requires Known(s, h)
  {
    s.handles[h.owner][h.index].token
  }

  /** The handle is still to be made, or has its token. */
  ghost predicate HasToken(s: System, h: HandleId) {
    Known(s, h) ==> TokenOf(s, h).Some?
  }

  /** Some task closes the handle. */
  ghost predicate Closed(steps: seq<Step>, h: HandleId) {
    exists i :: 0 <= i < |steps| && steps[i].op == Close(h)
  }

  lemma TokenStep(s: System, step: Step, h: HandleId)
    requires Inv(s) && Enabled(s, step)
    ensures Known(s, h) ==>
              && Known(Next(s, step), h)
              && TokenOf(Next(s, step), h) == if step.op == Close(h) then None else TokenOf(s, h)
    ensures !Known(s, h) ==> step.op != Close(h) && HasToken(Next(s, step), h)
  {
    if Known(s, h) {
      assert HandleOk(s, h);
    }
  }

  lemma ClosedLater(steps: seq<Step>, h: HandleId)
    requires steps != []
    ensures Closed(steps, h) <==> steps[0].op == Close(h) || Closed(steps[1..], h)
  {
    if i :| 0 <= i < |steps| && steps[i].op == Close(h) && i > 0 {
      assert steps[1..][i - 1].op == Close(h);
    }
  }

  /**
    The law of tokens: after any run of any tasks a handle has its token exactly when nobody, its own task
    or another, closed it in the run, and it had its token at the start or was made in the run.
   */
  lemma {:induction false} TokenKeptExactly(s: System, steps: seq<Step>, h: HandleId)
    requires Inv(s) && CanRun(s, steps)
    ensures Known(s, h) ==> Known(Run(s, steps), h)
    ensures Known(Run(s, steps), h) ==>
              (TokenOf(Run(s, steps), h).Some? <==> HasToken(s, h) && !Closed(steps, h))
    decreases |steps|
  {
    hide Inv, Next, Enabled, Closed;
    if steps == [] {
      assert !Closed([], h) by { NoneClosed(h); }
    } else {
      TokenStep(s, steps[0], h);
      NextKeepsInv(s, steps[0]);
      ClosedLater(steps, h);
      TokenKeptExactly(Next(s, steps[0]), steps[1..], h);
    }
  }

  lemma NoneClosed(h: HandleId)
    ensures !Closed([], h)
  {
  }

  lemma PreviousStep(s: System, step: Step, id: TokenId)
    requires Inv(s) && Enabled(s, step) && Exists(s.world, id)
    ensures Exists(Next(s, step).world, id)
    ensures Next(s, step).world[id.context].tokens[id.index].previous == s.world[id.context].tokens[id.index].previous
  {
    if step.op.Close? {
      assert HandleOk(s, step.op.h);
    }
  }

  /** A token always leads back to the value before its `set`. */
  lemma {:induction false} PreviousKept(s: System, steps: seq<Step>, id: TokenId)
    requires Inv(s) && CanRun(s, steps) && Exists(s.world, id)
    ensures Exists(Run(s, steps).world, id)
    ensures Run(s, steps).world[id.context].tokens[id.index].previous ==
            s.world[id.context].tokens[id.index].previous
    decreases |steps|
  {
    hide Inv, Next, Enabled;
    if steps != [] {
      PreviousStep(s, steps[0], id);
      NextKeepsInv(s, steps[0]);
      PreviousKept(Next(s, steps[0]), steps[1..], id);
    }
  }

  /**
    When a task's own close restores its context. After any run the close of a handle by its own task gives
    the value from before the handle was made if nobody closed the handle in the run, and does nothing to
    any context otherwise.
   */
  lemma OwnCloseRestoresExactly(s: System, steps: seq<Step>, h: HandleId)
    requires Inv(s) && CanRun(s, steps) && Known(s, h) && TokenOf(s, h).Some?
    ensures var u, close := Run(s, steps), Step(h.owner, Close(h));
      && Inv(u) && Enabled(u, close) && Exists(s.world, TokenId(h.owner, h.index))
      && if Closed(steps, h) then Next(u, close).world == u.world && Next(u, close).attempts == u.attempts
         else
           && Next(u, close).attempts == u.attempts + [TokenId(h.owner, h.index)]
           && Next(u, close).refusals == u.refusals
           && Next(u, close).world[h.owner].value == s.world[h.owner].tokens[h.index].previous
  {
    hide Closed;
    var id := TokenId(h.owner, h.index);
    assert HandleOk(s, h);
    RunKeepsInv(s, steps);
    TokenKeptExactly(s, steps, h);
    PreviousKept(s, steps, id);
    assert HandleOk(Run(s, steps), h);
  }

  // ------------------------------------------------------------ the same as alone

  /** Step `i` takes the token from a handle of `t`: another task closes it before anyone else has. */
  ghost predicate Steals(s: System, steps: seq<Step>, t: nat, i: nat)
    requires i < |steps|
  {
    && steps[i].op.Close? && steps[i].op.h.owner == t && steps[i].task != t
    && HasToken(s, steps[i].op.h)
    && forall j :: 0 <= j < i ==> steps[j].op != steps[i].op
  }

  /** The first close of every handle of `t` is by `t` itself. */
  ghost predicate KeptToItself(s: System, steps: seq<Step>, t: nat) {
    forall i :: 0 <= i < |steps| ==> !Steals(s, steps, t, i)
  }

  /** The task after these notes, alone. */
  ghost function RunAlone(p: Solo, t: nat, notes: seq<Note>): Solo
    decreases |notes|
  {
    if notes == [] then p else RunAlone(SoloNext(p, t, notes[0].op), t, notes[1..])
  }

  /** The same handle, apart from whether a dropped span is still open. */
  predicate AlikeHandles(a: Handle, b: Handle) {
    a.SpanHandle? == b.SpanHandle? && a.token == b.token && (a.SpanHandle? ==> a.ended == b.ended)
  }

  ghost predicate Alike(p: Solo, q: Solo) {
    && p.context == q.context && |p.handles| == |q.handles|
    && forall i :: 0 <= i < |p.handles| ==> AlikeHandles(p.handles[i], q.handles[i])
  }

  lemma AlikeStep(p: Solo, q: Solo, t: nat, op: SoloOp)
    requires Alike(p, q)
    ensures Alike(SoloNext(p, t, op), SoloNext(q, t, op))
  {
    hide SetIn, ResetIn, ChildOf;
  }

  /** A step of its own concerns a task by exactly one note, and one of another task by none that it could notice. */
  lemma OwnNote(step: Step, t: nat)
    ensures step.task == t ==> |NoteOf(step, t)| == 1 && NoteOf(step, t)[0].own && !NoteOf(step, t)[0].op.Loses?
    ensures step.task != t ==> forall i :: 0 <= i < |NoteOf(step, t)| ==> !NoteOf(step, t)[i].own
  {
  }

  lemma UnnoticedStep(s: System, step: Step, t: nat)
    requires Inv(s) && Enabled(s, step) && t in s.world && step.task != t
    requires step.op.Close? && step.op.h.owner == t ==> !HasToken(s, step.op.h)
    ensures t in Next(s, step).world && t in Next(s, step).handles
    ensures Alike(View(Next(s, step), t), View(s, t))
  {
    StepIsItsNote(s, step, t);
    if step.op.Close? {
      assert HandleOk(s, step.op.h);
    }
  }

  lemma KeptLater(s: System, steps: seq<Step>, t: nat)
    requires Inv(s) && CanRun(s, steps) && steps != [] && KeptToItself(s, steps, t)
    ensures KeptToItself(Next(s, steps[0]), steps[1..], t)
  {
    var rest := steps[1..];
    forall i | 0 <= i < |rest| ensures !Steals(Next(s, steps[0]), rest, t, i) {
      if Steals(Next(s, steps[0]), rest, t, i) {
        StealsEarlier(s, steps, t, i);
      }
    }
  }

  lemma StealsEarlier(s: System, steps: seq<Step>, t: nat, i: nat)
    requires Inv(s) && CanRun(s, steps) && steps != [] && i < |steps| - 1
    requires Steals(Next(s, steps[0]), steps[1..], t, i)
    ensures Steals(s, steps, t, i + 1)
  {
    hide Inv, Next, Enabled;
    var h := steps[i + 1].op.h;
    TokenStep(s, steps[0], h);
    forall j | 0 <= j < i + 1 ensures steps[j].op != Close(h) {
      assert j > 0 ==> steps[1..][j - 1] == steps[j];
    }
  }

  lemma NotesOfOwn(steps: seq<Step>, t: nat)
    requires steps != []
    ensures Notes(OwnSteps(steps, t), t) ==
            (if steps[0].task == t then NoteOf(steps[0], t) else []) + Notes(OwnSteps(steps[1..], t), t)
  {
    hide NoteOf;
    var rest := OwnSteps(steps[1..], t);
    if steps[0].task == t {
      assert OwnSteps(steps, t) == [steps[0]] + rest;
      assert ([steps[0]] + rest)[1..] == rest;
    } else {
      assert OwnSteps(steps, t) == rest;
    }
  }

  lemma {:induction false} KeptRunsAlike(s: System, steps: seq<Step>, t: nat, q: Solo)
    requires Inv(s) && CanRun(s, steps) && t in s.world && t in s.handles
    requires KeptToItself(s, steps, t) && Alike(View(s, t), q)
    ensures t in Run(s, steps).world && t in Run(s, steps).handles
    ensures Watched(s, steps, t) == WatchedAlone(q, t, Notes(OwnSteps(steps, t), t))
    ensures Alike(View(Run(s, steps), t), RunAlone(q, t, Notes(OwnSteps(steps, t), t)))
    decreases |steps|
  {
    hide Inv, Next, Enabled, SoloNext, NoteOf, KeptToItself, View, HasToken;
    if steps != [] {
      var step, rest := steps[0], steps[1..];
      NextKeepsInv(s, step);
      WorldGrows(s, step);
      KeptLater(s, steps, t);
      OwnNote(step, t);
      NotesOfOwn(steps, t);
      var later := Notes(OwnSteps(rest, t), t);
      if step.task == t {
        var note := NoteOf(step, t)[0];
        StepIsItsNote(s, step, t);
        AlikeStep(View(s, t), q, t, note.op);
        KeptRunsAlike(Next(s, step), rest, t, SoloNext(q, t, note.op));
        assert Notes(OwnSteps(steps, t), t) == [note] + later;
        assert ([note] + later)[1..] == later;
        ViewShows(Next(s, step), t);
      } else {
        FirstIsNotStolen(s, steps, t);
        UnnoticedStep(s, step, t);
        assert Notes(OwnSteps(steps, t), t) == later;
        AlikeVia(View(Next(s, step), t), View(s, t), q);
        KeptRunsAlike(Next(s, step), rest, t, q);
      }
    }
  }

  lemma AlikeVia(p: Solo, q: Solo, r: Solo)
    requires Alike(p, q) && Alike(q, r)
    ensures Alike(p, r)
  {
  }

  lemma ViewShows(s: System, t: nat)
    requires t in s.world && t in s.handles
    ensures View(s, t).context == s.world[t]
  {
  }

  lemma FirstIsNotStolen(s: System, steps: seq<Step>, t: nat)
    requires steps != [] && KeptToItself(s, steps, t) && steps[0].task != t
    ensures steps[0].op.Close? && steps[0].op.h.owner == t ==> !HasToken(s, steps[0].op.h)
  {
    hide HasToken;
    assert !Steals(s, steps, t, 0);
  }

  /**
    A task that closes each of its handles before anyone else does sees exactly what its own steps alone
    give, whatever else runs, and whoever drops its handles or closes them again.
   */
  lemma SameAsAlone(s: System, steps: seq<Step>, t: nat)
    requires Inv(s) && CanRun(s, steps) && t in s.world && KeptToItself(s, steps, t)
    ensures Watched(s, steps, t) == WatchedAlone(View(s, t), t, Notes(OwnSteps(steps, t), t))
  {
    KeptRunsAlike(s, steps, t, View(s, t));
  }

  /** The handle has lost its token, and the token was never used. */
  ghost predicate Lost(s: System, h: HandleId) {
    && Known(s, h) && TokenOf(s, h).None?
    && h.owner in s.world && h.index < |s.world[h.owner].tokens| && !s.world[h.owner].tokens[h.index].used
  }

  lemma LostStep(s: System, step: Step, h: HandleId)
    requires Inv(s) && Enabled(s, step)
    requires Lost(s, h) || (Known(s, h) && HasToken(s, h) && step.op == Close(h) && step.task != h.owner)
    ensures Lost(Next(s, step), h)
  {
    assert HandleOk(s, h);
    if step.op.Close? {
      assert HandleOk(s, step.op.h);
    }
  }

  lemma {:induction false} LostForGood(s: System, steps: seq<Step>, h: HandleId)
    requires Inv(s) && CanRun(s, steps) && Lost(s, h)
    ensures Lost(Run(s, steps), h)
    decreases |steps|
  {
    hide Inv, Next, Enabled, Lost;
    if steps != [] {
      LostStep(s, steps[0], h);
      NextKeepsInv(s, steps[0]);
      LostForGood(Next(s, steps[0]), steps[1..], h);
    }
  }

  lemma {:induction false} StolenIsLost(s: System, steps: seq<Step>, t: nat, i: nat)
    requires Inv(s) && CanRun(s, steps) && i < |steps| && Steals(s, steps, t, i)
    ensures Lost(Run(s, steps), steps[i].op.h)
    decreases |steps|
  {
    hide Inv, Next, Lost;
    var h, rest := steps[i].op.h, steps[1..];
    NextKeepsInv(s, steps[0]);
    if i == 0 {
      LostStep(s, steps[0], h);
      LostForGood(Next(s, steps[0]), rest, h);
    } else {
      TokenStep(s, steps[0], h);
      assert forall j :: 0 <= j < |rest| ==> rest[j] == steps[j + 1];
      StolenIsLost(Next(s, steps[0]), rest, t, i - 1);
    }
  }

  /** Alone, every handle's token is its own, and this one is still held or was used. */
  ghost predicate HeldOrUsed(p: Solo, t: nat, k: nat) {
    && |p.handles| == |p.context.tokens|
    && (forall j :: 0 <= j < |p.handles| && p.handles[j].token.Some? ==> p.handles[j].token.value == TokenId(t, j))
    && (k < |p.handles| ==> p.handles[k].token.Some? || p.context.tokens[k].used)
  }

  lemma HeldOrUsedStep(p: Solo, t: nat, k: nat, op: SoloOp)
    requires HeldOrUsed(p, t, k) && !op.Loses?
    ensures HeldOrUsed(SoloNext(p, t, op), t, k)
  {
    hide ChildOf;
  }

  lemma {:induction false} HeldOrUsedAlone(p: Solo, t: nat, k: nat, steps: seq<Step>)
    requires HeldOrUsed(p, t, k)
    ensures HeldOrUsed(RunAlone(p, t, Notes(OwnSteps(steps, t), t)), t, k)
    decreases |steps|
  {
    hide HeldOrUsed, SoloNext, NoteOf;
    if steps != [] {
      NotesOfOwn(steps, t);
      OwnNote(steps[0], t);
      var later := Notes(OwnSteps(steps[1..], t), t);
      if steps[0].task == t {
        var note := NoteOf(steps[0], t)[0];
        HeldOrUsedStep(p, t, k, note.op);
        HeldOrUsedAlone(SoloNext(p, t, note.op), t, k, steps[1..]);
        assert Notes(OwnSteps(steps, t), t) == [note] + later;
        assert ([note] + later)[1..] == later;
      } else {
        assert Notes(OwnSteps(steps, t), t) == later;
        HeldOrUsedAlone(p, t, k, steps[1..]);
      }
    }
  }

  /**
    The exact condition of plain isolation. A task is at the end, in its context, the use of its tokens and
    its handles, where its own steps alone take it, if and only if no other task was the first to close one
    of its handles.
   */
  lemma SameAsAloneExactly(s: System, steps: seq<Step>, t: nat)
    requires Inv(s) && CanRun(s, steps) && t in s.world
    ensures t in s.handles && t in Run(s, steps).world && t in Run(s, steps).handles
    ensures Alike(View(Run(s, steps), t), RunAlone(View(s, t), t, Notes(OwnSteps(steps, t), t))) <==>
            KeptToItself(s, steps, t)
  {
    hide RunAlone, Notes, OwnSteps;
    RunKeepsTasks(s, steps, t);
    if KeptToItself(s, steps, t) {
      KeptRunsAlike(s, steps, t, View(s, t));
    } else {
      var i :| 0 <= i < |steps| && Steals(s, steps, t, i);
      var h := steps[i].op.h;
      StolenIsLost(s, steps, t, i);
      assert HeldOrUsed(View(s, t), t, h.index) by { StartsHeld(s, t, h); }
      HeldOrUsedAlone(View(s, t), t, h.index, steps);
    }
  }

  lemma StartsHeld(s: System, t: nat, h: HandleId)
    requires Inv(s) && t in s.world && h.owner == t && HasToken(s, h)
    ensures t in s.handles && HeldOrUsed(View(s, t), t, h.index)
  {
    var p := View(s, t);
    forall j | 0 <= j < |p.handles| && p.handles[j].token.Some? ensures p.handles[j].token.value == TokenId(t, j) {
      assert Known(s, HandleId(t, j));
    }
    if h.index < |p.handles| {
      assert Known(s, h) && p.handles[h.index].token == TokenOf(s, h);
    }
  }

  lemma {:induction false} RunKeepsTasks(s: System, steps: seq<Step>, t: nat)
    requires Inv(s) && CanRun(s, steps) && t in s.world
    ensures t in s.handles && t in Run(s, steps).world && t in Run(s, steps).handles
    decreases |steps|
  {
    hide Next, Enabled;
    if steps != [] {
      WorldGrows(s, steps[0]);
      NextKeepsInv(s, steps[0]);
      RunKeepsTasks(Next(s, steps[0]), steps[1..], t);
    }
  }

  /** A spawned task starts from its parent's value, and from there on the same holds of it. */
  lemma ChildStartsFromCopy(s: System, parent: nat, child: nat, steps: seq<Step>)
    requires Inv(s) && Enabled(s, Step(parent, Spawn(child)))
    requires (NextKeepsInv(s, Step(parent, Spawn(child))); CanRun(Next(s, Step(parent, Spawn(child))), steps))
    ensures Inv(Next(s, Step(parent, Spawn(child)))) && child in Next(s, Step(parent, Spawn(child))).world
    ensures Watched(Next(s, Step(parent, Spawn(child))), steps, child) ==
            WatchedAlone(Solo(PyContext(s.world[parent].value, []), []), child, Notes(steps, child))
  {
    NextKeepsInv(s, Step(parent, Spawn(child)));
    TasksAreIsolated(Next(s, Step(parent, Spawn(child))), steps, child);
  }

  // ------------------------------------------- a handle closed by another task

  /** A parent starts a span, spawns a child, the child ends the span, and then the parent ends it. */
  function StolenEnd(ids: Ids): seq<Step> {
    [Step(0, Start(ids, true)), Step(0, Spawn(1)), Step(1, Close(HandleId(0, 0))), Step(0, Close(HandleId(0, 0)))]
  }

  /**
    Without the condition the plain statement fails: the child's close is refused but ends the span, so
    the parent's own close no longer resets its context, which stays on the ended span for ever.
   */
  lemma StolenEndLeavesContext(ids: Ids, s: System)
    requires Initial(s) && s.world.Keys == {0} && s.world[0].value == None && ids.traceId != 0 && ids.spanId != 0
    ensures Inv(s) && CanRun(s, StolenEnd(ids))
    ensures 0 in Run(s, StolenEnd(ids)).world
    ensures CurrentOf(Run(s, StolenEnd(ids)).world[0]) == OtelContext(ids.traceId, ids.spanId, 0, false)
    ensures Run(s, StolenEnd(ids)).refusals == [OtherContext]
    ensures !KeptToItself(s, StolenEnd(ids), 0)
  {
    hide CanRun, Run, Inv, Closed;
    InitialInv(s);
    var a := StolenEnd(ids);
    var s1 := Next(s, a[0]);
    NextKeepsInv(s, a[0]);
    var s2 := Next(s1, a[1]);
    NextKeepsInv(s1, a[1]);
    var s3 := Next(s2, a[2]);
    NextKeepsInv(s2, a[2]);
    var s4 := Next(s3, a[3]);
    NextKeepsInv(s3, a[3]);
    RunNothing(s4);
    RunPrepend(s3, a[3], []);
    RunPrepend(s2, a[2], [a[3]] + []);
    RunPrepend(s1, a[1], [a[2]] + ([a[3]] + []));
    RunPrepend(s, a[0], [a[1]] + ([a[2]] + ([a[3]] + [])));
    assert [a[0]] + ([a[1]] + ([a[2]] + ([a[3]] + []))) == a;
    assert Steals(s, a, 0, 2) by { assert !Known(s, HandleId(0, 0)); }
  }

  lemma RunNothing(s: System)
    requires Inv(s)
    ensures CanRun(s, []) && Run(s, []) == s
  {
  }

  lemma RunPrepend(s: System, step: Step, rest: seq<Step>)
    requires Inv(s) && Enabled(s, step) && Inv(Next(s, step)) && CanRun(Next(s, step), rest)
    ensures CanRun(s, [step] + rest) && Run(s, [step] + rest) == Run(Next(s, step), rest)
  {
    hide Inv, Next, Enabled;
    assert ([step] + rest)[1..] == rest;
  }
}
