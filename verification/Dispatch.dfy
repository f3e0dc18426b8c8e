/**
  The hot-swappable dispatcher: a slot forwards every callback to each layer of a vector that
  `replace` may change between callbacks. First the slot as code over layer objects, then the
  slot shared by threads, where callbacks of several threads run at once under the read lock.
 */
module Dispatch {
  import opened SlsRecord

  datatype Metadata = Metadata(target: string, level: Level)

  datatype Callback =
    | NewSpan(span: nat, meta: Metadata)
    | OnRecord(span: nat)
    | FollowsFrom(span: nat, follows: nat)
    | OnEvent(meta: Metadata)
    | OnEnter(span: nat)
    | OnExit(span: nat)
    | OnClose(span: nat)

  /** Only new spans and events are filtered; what follows on a span is always forwarded. */
  predicate Passes(filter: Metadata -> bool, cb: Callback) {
    cb.NewSpan? || cb.OnEvent? ==> filter(cb.meta)
  }

  /** Exactly the new spans and events the filter is false of are dropped. */
  lemma PassesSpelled(filter: Metadata -> bool, cb: Callback)
    ensures cb.NewSpan? || cb.OnEvent? ==> (Passes(filter, cb) <==> filter(cb.meta))
    ensures cb.OnRecord? || cb.FollowsFrom? || cb.OnEnter? || cb.OnExit? || cb.OnClose? ==> Passes(filter, cb)
  {
  }

  /** The callback is about span `id`. */
  predicate About(cb: Callback, id: nat) {
    !cb.OnEvent? && cb.span == id
  }

  class Layer {
    var seen: seq<Callback>

    constructor ()
      ensures seen == []
    {
      seen := [];
    }

    method On(cb: Callback)
      modifies this
      ensures seen == old(seen) + [cb]
    {
      seen := seen + [cb];
    }
  }

  /** A boxed layer has one owner, so a vector holds it once. */
  ghost predicate Distinct(layers: seq<Layer>) {
    forall i, j :: 0 <= i < j < |layers| ==> layers[i] != layers[j]
  }

  datatype Op = Replace(layers: seq<Layer>) | Call(cb: Callback)

  /** What layer `l` observes of a run that starts with vector `inner`. */
  ghost function Observed(filter: Metadata -> bool, inner: seq<Layer>, ops: seq<Op>, l: Layer): seq<Callback> {
    if ops == [] then []
    else
      var last := ops[|ops| - 1];
      Observed(filter, inner, ops[..|ops| - 1], l)
      + if last.Call? && l in Vector(inner, ops[..|ops| - 1]) && Passes(filter, last.cb) then [last.cb] else []
  }

  /** The vector after the run. */
  ghost function Vector(inner: seq<Layer>, ops: seq<Op>): seq<Layer> {
    if ops == [] then inner
    else if ops[|ops| - 1].Replace? then ops[|ops| - 1].layers
    else Vector(inner, ops[..|ops| - 1])
  }

  /**
    One operation more: a replacement is the vector from then on, and a callback is observed by the layers of
    the vector it finds, unless it is a new span or an event that the filter is false of.
   */
  lemma OneMoreOp(filter: Metadata -> bool, inner: seq<Layer>, ops: seq<Op>, layers: seq<Layer>, cb: Callback, l: Layer)
    ensures Vector(inner, []) == inner && Observed(filter, inner, [], l) == []
    ensures Vector(inner, ops + [Replace(layers)]) == layers
    ensures Vector(inner, ops + [Call(cb)]) == Vector(inner, ops)
    ensures Observed(filter, inner, ops + [Replace(layers)], l) == Observed(filter, inner, ops, l)
    ensures Observed(filter, inner, ops + [Call(cb)], l) ==
            if l !in Vector(inner, ops) || ((cb.NewSpan? || cb.OnEvent?) && !filter(cb.meta))
            then Observed(filter, inner, ops, l) else Observed(filter, inner, ops, l) + [cb]
  {
    assert (ops + [Replace(layers)])[..|ops|] == ops && (ops + [Call(cb)])[..|ops|] == ops;
  }

  class SwappableLayers {
    var inner: seq<Layer>
    const filter: Metadata -> bool

    constructor (filter: Metadata -> bool)
      ensures inner == [] && this.filter == filter
    {
      inner, this.filter := [], filter;
    }

    method Swap(layers: seq<Layer>)
      modifies this
      ensures inner == layers
    {
      inner := layers;
    }

    /** One callback: the filter for new spans and events, then every layer in turn. */
    method Forward(cb: Callback)
      requires Distinct(inner)
      modifies inner
      ensures forall l: Layer :: l in inner ==> l.seen == old(l.seen) + if Passes(filter, cb) then [cb] else []
      ensures (cb.NewSpan? || cb.OnEvent?) && !filter(cb.meta) ==>
                forall l: Layer :: l in inner ==> l.seen == old(l.seen)
      ensures !((cb.NewSpan? || cb.OnEvent?) && !filter(cb.meta)) ==>
                forall l: Layer :: l in inner ==> l.seen == old(l.seen) + [cb]
    {
      if (cb.NewSpan? || cb.OnEvent?) && !filter(cb.meta) {
        return;
      }
      for i := 0 to |inner|
        invariant forall k :: 0 <= k < |inner| ==> inner[k].seen == old(inner[k].seen) + if k < i then [cb] else []
      {
        inner[i].On(cb);
      }
    }

    /** A whole run: every layer there is observes exactly what was issued while it was in the vector. */
    method RunAll(ops: seq<Op>, ghost all: set<Layer>)
      requires Distinct(inner) && forall l :: l in inner ==> l in all
      requires forall i :: 0 <= i < |ops| && ops[i].Replace? ==>
                 Distinct(ops[i].layers) && forall l :: l in ops[i].layers ==> l in all
      modifies this, all
      ensures inner == Vector(old(inner), ops)
      ensures forall l :: l in all ==> l.seen == old(l.seen) + Observed(filter, old(inner), ops, l)
    {
      for n := 0 to |ops|
        invariant inner == Vector(old(inner), ops[..n])
        invariant Distinct(inner) && forall l :: l in inner ==> l in all
        invariant forall l :: l in all ==> l.seen == old(l.seen) + Observed(filter, old(inner), ops[..n], l)
      {
        assert ops[..n + 1][..n] == ops[..n];
        match ops[n] {
          case Replace(layers) => Swap(layers);
          case Call(cb) => Forward(cb);
        }
      }
      assert ops[..|ops|] == ops;
    }
  }

  /** Operation `i` reaches layer `l`. */
  ghost predicate Reaches(filter: Metadata -> bool, inner: seq<Layer>, ops: seq<Op>, l: Layer, i: nat)
    requires i < |ops|
  {
    ops[i].Call? && l in Vector(inner, ops[..i]) && Passes(filter, ops[i].cb)
  }

  /** An operation that reaches the layer is observed at the place given by those before it. */
  lemma {:induction false} ObservedAt(filter: Metadata -> bool, inner: seq<Layer>, ops: seq<Op>, l: Layer, i: nat)
    requires i < |ops| && Reaches(filter, inner, ops, l, i)
    ensures var k := |Observed(filter, inner, ops[..i], l)|;
      k < |Observed(filter, inner, ops, l)| && Observed(filter, inner, ops, l)[k] == ops[i].cb
  {
    var front := ops[..|ops| - 1];
    if i < |front| {
      assert front[..i] == ops[..i];
      ObservedAt(filter, inner, front, l, i);
    }
  }

  /** Everything observed comes from an operation that reaches the layer. */
  lemma {:induction false} ObservedFrom(
      filter: Metadata -> bool, inner: seq<Layer>, ops: seq<Op>, l: Layer, k: nat)
    returns (i: nat)
    requires k < |Observed(filter, inner, ops, l)|
    ensures i < |ops| && Reaches(filter, inner, ops, l, i)
    ensures |Observed(filter, inner, ops[..i], l)| == k && ops[i].cb == Observed(filter, inner, ops, l)[k]
  {
    var front := ops[..|ops| - 1];
    if k < |Observed(filter, inner, front, l)| {
      i := ObservedFrom(filter, inner, front, l, k);
      assert front[..i] == ops[..i];
    } else {
      i := |front|;
    }
  }

  lemma {:induction false} ObservedGrows(filter: Metadata -> bool, inner: seq<Layer>, ops: seq<Op>, l: Layer, i: nat)
    requires i <= |ops|
    ensures |Observed(filter, inner, ops[..i], l)| <= |Observed(filter, inner, ops, l)|
  {
    if i == |ops| {
      assert ops[..i] == ops;
    } else {
      var front := ops[..|ops| - 1];
      assert front[..i] == ops[..i];
      ObservedGrows(filter, inner, front, l, i);
    }
  }

  /**
    A span seen from the start. The registry opens a span once and before anything else happens to it.
    If its opening reaches the layer, that is the first the layer hears of the span; if it does not,
    because the filter rejects it or the layer is not in place, the layer never hears of a new span,
    whatever else of the span is forwarded to it.
   */
  lemma SpanOpensFirst(filter: Metadata -> bool, inner: seq<Layer>, ops: seq<Op>, l: Layer, open: nat, id: nat)
    requires open < |ops| && ops[open].Call? && ops[open].cb.NewSpan? && ops[open].cb.span == id
    requires forall i :: 0 <= i < |ops| && i != open && ops[i].Call? && About(ops[i].cb, id) ==>
               open < i && !ops[i].cb.NewSpan?
    ensures var obs := Observed(filter, inner, ops, l); var k0 := |Observed(filter, inner, ops[..open], l)|;
      if Reaches(filter, inner, ops, l, open) then
        k0 < |obs| && obs[k0] == ops[open].cb && (forall k :: 0 <= k < k0 ==> !About(obs[k], id))
      else
        forall k :: 0 <= k < |obs| && About(obs[k], id) ==> !obs[k].NewSpan?
  {
    var obs := Observed(filter, inner, ops, l);
    var k0 := |Observed(filter, inner, ops[..open], l)|;
    if Reaches(filter, inner, ops, l, open) {
      ObservedAt(filter, inner, ops, l, open);
      forall k | 0 <= k < k0 ensures !About(obs[k], id) {
        var i := ObservedFrom(filter, inner, ops, l, k);
        if About(obs[k], id) {
          assert open <= i;
          assert ops[..i][..open] == ops[..open];
          ObservedGrows(filter, inner, ops[..i], l, open);
        }
      }
    } else {
      forall k | 0 <= k < |obs| && About(obs[k], id) ensures !obs[k].NewSpan? {
        var i := ObservedFrom(filter, inner, ops, l, k);
      }
    }
  }

  // ------------------------------------------------------------ several threads

  /** A callback a thread has issued, with the vector it found when it took the read lock. */
  datatype Issue = Issue(thread: nat, cb: Callback, vector: seq<nat>)

  datatype Inside = Inside(cb: Callback, remaining: seq<nat>)

  datatype Slot = Slot(
    filter: Metadata -> bool,
    vector: seq<nat>,                          // layers by number
    inside: map<nat, Inside>,                  // threads holding the read lock
    seen: map<nat, seq<(nat, Callback)>>,      // what each layer observed, and from which thread
    issued: seq<Issue>)                        // accepted callbacks, in the order of their read locks

  datatype Act =
    | Issuing(thread: nat, cb: Callback)
    | Passing(thread: nat)
    | Leaving(thread: nat)
    | Replacing(vector: seq<nat>)

  ghost predicate NoRepeats(v: seq<nat>) {
    forall i, j :: 0 <= i < j < |v| ==> v[i] != v[j]
  }

  ghost predicate Can(s: Slot, a: Act) {
    match a
    case Issuing(t, _) => t !in s.inside
    case Passing(t) => t in s.inside && s.inside[t].remaining != []
    case Leaving(t) => t in s.inside && s.inside[t].remaining == []
    case Replacing(v) => s.inside == map[] && NoRepeats(v)
  }

  function SeenBy(s: Slot, l: nat): seq<(nat, Callback)> {
    if l in s.seen then s.seen[l] else []
  }

  ghost function Do(s: Slot, a: Act): Slot
    requires Can(s, a)
  {
    match a
    case Issuing(t, cb) =>
      if Passes(s.filter, cb) then
        s.(inside := s.inside[t := Inside(cb, s.vector)], issued := s.issued + [Issue(t, cb, s.vector)])
      else s
    case Passing(t) =>
      var l := s.inside[t].remaining[0];
      s.(seen := s.seen[l := SeenBy(s, l) + [(t, s.inside[t].cb)]],
         inside := s.inside[t := Inside(s.inside[t].cb, s.inside[t].remaining[1..])])
    case Leaving(t) => s.(inside := s.inside - {t})
    case Replacing(v) => s.(vector := v)
  }

  /** The callbacks of one thread among those a layer observed. */
  function From(seen: seq<(nat, Callback)>, t: nat): seq<Callback> {
    if seen == [] then []
    else From(seen[..|seen| - 1], t) + if seen[|seen| - 1].0 == t then [seen[|seen| - 1].1] else []
  }

  /** The callbacks of one thread that were issued while the layer was in the vector. */
  function Owed(issued: seq<Issue>, t: nat, l: nat): seq<Callback> {
    if issued == [] then []
    else
      var i := issued[|issued| - 1];
      Owed(issued[..|issued| - 1], t, l) + if i.thread == t && l in i.vector then [i.cb] else []
  }

  /** The callback thread `t` is still about to pass to layer `l`. */
  function OnItsWay(s: Slot, t: nat, l: nat): seq<Callback> {
    if t in s.inside && l in s.inside[t].remaining then [s.inside[t].cb] else []
  }

  ghost predicate Balanced(s: Slot, t: nat, l: nat) {
    From(SeenBy(s, l), t) + OnItsWay(s, t, l) == Owed(s.issued, t, l)
  }

  ghost predicate Settled(s: Slot) {
    && NoRepeats(s.vector)
    && (forall t :: t in s.inside ==> NoRepeats(s.inside[t].remaining))
    && forall t, l :: Balanced(s, t, l)
  }

  lemma IssuingBalances(s: Slot, t: nat, l: nat, a: Act)
    requires Balanced(s, t, l) && a.Issuing? && Can(s, a)
    ensures Balanced(Do(s, a), t, l)
  {
    hide From, Passes;
    var u := Do(s, a);
    if Passes(s.filter, a.cb) {
      assert u.issued[..|u.issued| - 1] == s.issued;
      assert a.thread == t ==> OnItsWay(s, t, l) == [];
    }
  }

  /** The layer that is passed the callback has seen it, and it is on its way there no longer. */
  lemma PassedIsSeen(s: Slot, t: nat, l: nat, a: Act)
    requires Settled(s) && a.Passing? && Can(s, a) && l == s.inside[a.thread].remaining[0]
    ensures Balanced(Do(s, a), t, l)
  {
    hide Owed, Passes;
    var u, rest := Do(s, a), s.inside[a.thread].remaining;
    assert Balanced(s, t, l);
    assert SeenBy(u, l) == SeenBy(s, l) + [(a.thread, s.inside[a.thread].cb)];
    assert SeenBy(u, l)[..|SeenBy(u, l)| - 1] == SeenBy(s, l);
    assert l !in rest[1..] && u.issued == s.issued;
  }

  lemma OthersStayBalanced(s: Slot, t: nat, l: nat, a: Act)
    requires Balanced(s, t, l) && a.Passing? && Can(s, a) && l != s.inside[a.thread].remaining[0]
    ensures Balanced(Do(s, a), t, l)
  {
    hide Owed, From, Passes;
    var u, rest := Do(s, a), s.inside[a.thread].remaining;
    assert rest == [rest[0]] + rest[1..];
    assert SeenBy(u, l) == SeenBy(s, l) && u.issued == s.issued;
    assert OnItsWay(u, t, l) == OnItsWay(s, t, l);
  }

  lemma PassingBalances(s: Slot, t: nat, l: nat, a: Act)
    requires Settled(s) && a.Passing? && Can(s, a)
    ensures Balanced(Do(s, a), t, l)
  {
    hide Balanced;
    assert Balanced(s, t, l);
    if l == s.inside[a.thread].remaining[0] {
      PassedIsSeen(s, t, l, a);
    } else {
      OthersStayBalanced(s, t, l, a);
    }
  }

  lemma StepSettles(s: Slot, a: Act)
    requires Settled(s) && Can(s, a)
    ensures Settled(Do(s, a))
  {
    hide From, Owed, Passes;
    var u := Do(s, a);
    forall t, l ensures Balanced(u, t, l) {
      assert Balanced(s, t, l);
      if a.Issuing? {
        IssuingBalances(s, t, l, a);
      } else if a.Passing? {
        PassingBalances(s, t, l, a);
      }
    }
  }

  ghost predicate CanRun(s: Slot, acts: seq<Act>)
    decreases |acts|
  {
    acts == [] || (Can(s, acts[0]) && CanRun(Do(s, acts[0]), acts[1..]))
  }

  ghost function Run(s: Slot, acts: seq<Act>): Slot
    requires CanRun(s, acts)
    decreases |acts|
  {
    if acts == [] then s else Run(Do(s, acts[0]), acts[1..])
  }

  lemma {:induction false} RunSettles(s: Slot, acts: seq<Act>)
    requires Settled(s) && CanRun(s, acts)
    ensures Settled(Run(s, acts))
    decreases |acts|
  {
    if acts != [] {
      StepSettles(s, acts[0]);
      RunSettles(Do(s, acts[0]), acts[1..]);
    }
  }

  /** The vector of the last replacement. */
  function LastVector(acts: seq<Act>): seq<nat> {
    if acts == [] then []
    else
      match acts[|acts| - 1]
      case Replacing(v) => v
      case _ => LastVector(acts[..|acts| - 1])
  }

  /**
    What layer `l` is to observe of thread `t`: the callbacks the thread issues while the layer is in the
    vector replaced last, leaving out the new spans and events that the filter is false of.
   */
  function Due(filter: Metadata -> bool, acts: seq<Act>, t: nat, l: nat): seq<Callback> {
    if acts == [] then []
    else
      var front, last := acts[..|acts| - 1], acts[|acts| - 1];
      match last
      case Issuing(u, cb) =>
        if u != t || l !in LastVector(front) || ((cb.NewSpan? || cb.OnEvent?) && !filter(cb.meta))
        then Due(filter, front, t, l) else Due(filter, front, t, l) + [cb]
      case _ => Due(filter, front, t, l)
  }

  /** What one action more makes due. */
  lemma OneMoreAct(filter: Metadata -> bool, acts: seq<Act>, u: nat, cb: Callback, v: seq<nat>, t: nat, l: nat)
    ensures LastVector([]) == [] && Due(filter, [], t, l) == []
    ensures LastVector(acts + [Replacing(v)]) == v
    ensures Due(filter, acts + [Replacing(v)], t, l) == Due(filter, acts, t, l)
    ensures LastVector(acts + [Issuing(u, cb)]) == LastVector(acts)
    ensures Due(filter, acts + [Issuing(u, cb)], t, l) == Due(filter, acts, t, l) +
            if u == t && l in LastVector(acts) && ((cb.NewSpan? || cb.OnEvent?) ==> filter(cb.meta)) then [cb] else []
    ensures forall a :: a == Passing(u) || a == Leaving(u) ==>
              LastVector(acts + [a]) == LastVector(acts) && Due(filter, acts + [a], t, l) == Due(filter, acts, t, l)
  {
    assert forall a: Act :: (acts + [a])[..|acts|] == acts;
  }

  /** A thread's callbacks among those observed are its own, in order. */
  lemma OneMoreSeen(seen: seq<(nat, Callback)>, u: nat, cb: Callback, t: nat)
    ensures From([], t) == []
    ensures From(seen + [(u, cb)], t) == From(seen, t) + if u == t then [cb] else []
  {
    assert (seen + [(u, cb)])[..|seen|] == seen;
  }

  /** So far the slot has the vector of the last replacement, and has issued what is due. */
  ghost predicate Follows(s: Slot, filter: Metadata -> bool, acts: seq<Act>, t: nat, l: nat) {
    s.filter == filter && s.vector == LastVector(acts) && Owed(s.issued, t, l) == Due(filter, acts, t, l)
  }

  lemma StepFollows(s: Slot, filter: Metadata -> bool, acts: seq<Act>, a: Act, t: nat, l: nat)
    requires Follows(s, filter, acts, t, l) && Can(s, a)
    ensures Follows(Do(s, a), filter, acts + [a], t, l)
  {
    assert (acts + [a])[..|acts|] == acts;
    var u := Do(s, a);
    if a.Issuing? && Passes(filter, a.cb) {
      assert u.issued[..|u.issued| - 1] == s.issued;
    }
  }

  lemma {:induction false} RunFollows(
      s: Slot, filter: Metadata -> bool, before: seq<Act>, acts: seq<Act>, t: nat, l: nat)
    requires Follows(s, filter, before, t, l) && CanRun(s, acts)
    ensures Follows(Run(s, acts), filter, before + acts, t, l)
    decreases |acts|
  {
    hide Follows, Do, Can;
    if acts == [] {
      assert before + acts == before;
    } else {
      StepFollows(s, filter, before, acts[0], t, l);
      RunFollows(Do(s, acts[0]), filter, before + [acts[0]], acts[1..], t, l);
      assert before + [acts[0]] + acts[1..] == before + acts;
    }
  }

  /**
    For every interleaving of threads and replacements, each layer observes of each thread exactly the
    callbacks that thread issues while the layer is in the vector replaced last, each once and in the
    thread's order, except new spans and events that the filter is false of; only the callback the thread is
    inside of may still be on its way.
   */
  lemma EveryLayerSeesItsWindow(filter: Metadata -> bool, acts: seq<Act>, t: nat, l: nat)
    requires CanRun(Start(filter), acts)
    ensures var s := Run(Start(filter), acts);
      && s.vector == LastVector(acts) && s.filter == filter
      && From(SeenBy(s, l), t) + OnItsWay(s, t, l) == Due(filter, acts, t, l)
      && (t !in s.inside ==> From(SeenBy(s, l), t) == Due(filter, acts, t, l))
  {
    RunSettles(Start(filter), acts);
    assert Balanced(Run(Start(filter), acts), t, l);
    RunFollows(Start(filter), filter, [], acts, t, l);
    assert [] + acts == acts;
  }

  /** A replacement takes effect at once and lasts until the next one. */
  lemma ReplacementLasts(filter: Metadata -> bool, before: seq<Act>, v: seq<nat>, after: seq<Act>)
    requires CanRun(Start(filter), before + [Replacing(v)] + after)
    requires forall i :: 0 <= i < |after| ==> !after[i].Replacing?
    ensures Run(Start(filter), before + [Replacing(v)] + after).vector == v
  {
    EveryLayerSeesItsWindow(filter, before + [Replacing(v)] + after, 0, 0);
    LastVectorIs(before, v, after);
  }

  lemma {:induction false} LastVectorIs(before: seq<Act>, v: seq<nat>, after: seq<Act>)
    requires forall i :: 0 <= i < |after| ==> !after[i].Replacing?
    ensures LastVector(before + [Replacing(v)] + after) == v
  {
    var acts := before + [Replacing(v)] + after;
    if after == [] {
      assert acts[|acts| - 1] == Replacing(v);
    } else {
      assert acts[..|acts| - 1] == before + [Replacing(v)] + after[..|after| - 1];
      LastVectorIs(before, v, after[..|after| - 1]);
    }
  }

  /** What lies before a thread inside the slot is the end of the vector there is. */
  ghost predicate Current(s: Slot, t: nat) {
    t in s.inside ==>
      var n := |s.vector| - |s.inside[t].remaining|;
      n >= 0 && forall i :: 0 <= i < |s.inside[t].remaining| ==> s.inside[t].remaining[i] == s.vector[n + i]
  }

  lemma {:induction false} RunStaysCurrent(s: Slot, acts: seq<Act>, t: nat)
    requires Current(s, t) && CanRun(s, acts)
    ensures Current(Run(s, acts), t)
    decreases |acts|
  {
    if acts != [] { RunStaysCurrent(Do(s, acts[0]), acts[1..], t); }
  }

  /** No layer is called once it has been replaced: whom a thread still has to pass to is in the vector. */
  lemma OnlyCurrentLayersAreCalled(filter: Metadata -> bool, acts: seq<Act>, t: nat, l: nat)
    requires CanRun(Start(filter), acts)
    requires t in Run(Start(filter), acts).inside && l in Run(Start(filter), acts).inside[t].remaining
    ensures l in LastVector(acts)
  {
    RunStaysCurrent(Start(filter), acts, t);
    EveryLayerSeesItsWindow(filter, acts, t, l);
    var s := Run(Start(filter), acts);
    var i :| 0 <= i < |s.inside[t].remaining| && s.inside[t].remaining[i] == l;
  }

  /** The rest of a callback that is inside the slot: one step a layer, and out. */
  function Rest(t: nat, n: nat): seq<Act> {
    if n == 0 then [Leaving(t)] else [Passing(t)] + Rest(t, n - 1)
  }

  lemma {:induction false} RestPasses(s: Slot, t: nat, l: nat)
    requires t in s.inside && NoRepeats(s.inside[t].remaining)
    ensures CanRun(s, Rest(t, |s.inside[t].remaining|))
    ensures var u := Run(s, Rest(t, |s.inside[t].remaining|));
      && u.inside == s.inside - {t} && u.vector == s.vector
      && SeenBy(u, l) ==
         if l in s.inside[t].remaining then SeenBy(s, l) + [(t, s.inside[t].cb)] else SeenBy(s, l)
    decreases |s.inside[t].remaining|
  {
    var rest := s.inside[t].remaining;
    if rest == [] {
      assert [Leaving(t)][1..] == [];
    } else {
      var u := Do(s, Passing(t));
      RestPasses(u, t, l);
      assert Rest(t, |rest|)[1..] == Rest(t, |rest| - 1);
      assert rest == [rest[0]] + rest[1..];
    }
  }

  /**
    A callback can always be issued and served: from every state, a thread that is not inside one can pass
    any callback to every layer of the vector, and only to those, and leave; and a vector can be replaced
    whenever nobody is inside.
   */
  lemma CallCanPass(s: Slot, t: nat, cb: Callback, l: nat, v: seq<nat>)
    requires NoRepeats(s.vector) && t !in s.inside
    requires !((cb.NewSpan? || cb.OnEvent?) && !s.filter(cb.meta))
    ensures CanRun(s, [Issuing(t, cb)] + Rest(t, |s.vector|))
    ensures var u := Run(s, [Issuing(t, cb)] + Rest(t, |s.vector|));
      && t !in u.inside
      && SeenBy(u, l) == if l in s.vector then SeenBy(s, l) + [(t, cb)] else SeenBy(s, l)
    ensures s.inside == map[] && NoRepeats(v) ==> Can(s, Replacing(v)) && Do(s, Replacing(v)).vector == v
  {
    RestPasses(Do(s, Issuing(t, cb)), t, l);
    assert ([Issuing(t, cb)] + Rest(t, |s.vector|))[1..] == Rest(t, |s.vector|);
  }

  // ------------------------------------------- a span opened while others call

  type Heard = seq<(nat, Callback)>

  ghost predicate Unheard(seen: Heard, id: nat) {
    forall k :: 0 <= k < |seen| ==> !About(seen[k].1, id)
  }

  /** The opening is there, and nothing of its span before it. */
  ghost predicate OpensWith(seen: Heard, open: Callback, id: nat) {
    exists k :: 0 <= k < |seen| && seen[k].1 == open && forall j :: 0 <= j < k ==> !About(seen[j].1, id)
  }

  predicate IsOpening(cb: Callback, id: nat) {
    cb.NewSpan? && cb.span == id
  }

  ghost predicate NeverNew(seen: Heard, id: nat) {
    forall k :: 0 <= k < |seen| ==> !IsOpening(seen[k].1, id)
  }

  /** Nobody issues a callback on the span. */
  ghost predicate Silent(acts: seq<Act>, id: nat) {
    forall i :: 0 <= i < |acts| ==> !(acts[i].Issuing? && About(acts[i].cb, id))
  }

  /** Nobody opens the span. */
  ghost predicate NotOpened(acts: seq<Act>, id: nat) {
    forall i :: 0 <= i < |acts| ==> !(acts[i].Issuing? && IsOpening(acts[i].cb, id))
  }

  /** No layer has heard of the span, and no thread is passing on anything about it. */
  ghost predicate Unknown(s: Slot, id: nat) {
    && (forall t :: t in s.inside ==> !About(s.inside[t].cb, id))
    && forall l :: Unheard(SeenBy(s, l), id)
  }

  /** Layer `l` still is to be told of the opening by the thread that makes it. */
  ghost predicate StillToTell(s: Slot, t0: nat, open: Callback, l: nat) {
    t0 in s.inside && s.inside[t0].cb == open && l in s.inside[t0].remaining
  }

  /** The opening is on its way through the vector it found, and nothing else of the span is. */
  ghost predicate Opening(s: Slot, t0: nat, open: Callback, vector: seq<nat>, id: nat) {
    && (forall t :: t in s.inside && About(s.inside[t].cb, id) ==> t == t0 && s.inside[t].cb == open)
    && (t0 in s.inside ==> NoRepeats(s.inside[t0].remaining))
    && (forall l :: StillToTell(s, t0, open, l) ==> l in vector)
    && forall l ::
         if l in vector && !StillToTell(s, t0, open, l) then OpensWith(SeenBy(s, l), open, id)
         else Unheard(SeenBy(s, l), id)
  }

  /** Every layer of that vector heard the opening first, and no other layer hears of it any more. */
  ghost predicate Opened(s: Slot, open: Callback, vector: seq<nat>, id: nat) {
    && (forall t :: t in s.inside ==> !IsOpening(s.inside[t].cb, id))
    && forall l :: if l in vector then OpensWith(SeenBy(s, l), open, id) else NeverNew(SeenBy(s, l), id)
  }

  lemma StaysFirst(seen: Heard, open: Callback, id: nat, more: (nat, Callback))
    requires OpensWith(seen, open, id)
    ensures OpensWith(seen + [more], open, id)
  {
    var k :| 0 <= k < |seen| && seen[k].1 == open && forall j :: 0 <= j < k ==> !About(seen[j].1, id);
    assert (seen + [more])[k].1 == open;
  }

  lemma ComesFirst(seen: Heard, open: Callback, id: nat, t: nat)
    requires Unheard(seen, id)
    ensures OpensWith(seen + [(t, open)], open, id)
  {
    assert (seen + [(t, open)])[|seen|].1 == open;
  }

  lemma StaysUnknown(s: Slot, a: Act, id: nat)
    requires Unknown(s, id) && Can(s, a) && !(a.Issuing? && About(a.cb, id))
    ensures Unknown(Do(s, a), id)
  {
    forall l ensures Unheard(SeenBy(Do(s, a), l), id) {
      assert Unheard(SeenBy(s, l), id);
    }
  }

  lemma StartsOpening(s: Slot, t0: nat, open: Callback, id: nat)
    requires Unknown(s, id) && NoRepeats(s.vector) && Can(s, Issuing(t0, open)) && IsOpening(open, id)
    ensures var vector := if Passes(s.filter, open) then s.vector else [];
      Opening(Do(s, Issuing(t0, open)), t0, open, vector, id)
  {
    var u := Do(s, Issuing(t0, open));
    assert forall l :: SeenBy(u, l) == SeenBy(s, l);
    if !Passes(s.filter, open) {
      assert t0 !in u.inside;
    }
  }

  /** A thread passes the opening on to its next layer. */
  lemma PassesOpening(s: Slot, t0: nat, open: Callback, vector: seq<nat>, id: nat, l: nat)
    requires Opening(s, t0, open, vector, id) && Can(s, Passing(t0)) && s.inside[t0].cb == open
    ensures var u := Do(s, Passing(t0));
      if l in vector && !StillToTell(u, t0, open, l) then OpensWith(SeenBy(u, l), open, id)
      else Unheard(SeenBy(u, l), id)
  {
    var u, rest := Do(s, Passing(t0)), s.inside[t0].remaining;
    assert rest == [rest[0]] + rest[1..];
    if l == rest[0] {
      assert StillToTell(s, t0, open, l) && l !in rest[1..];
      ComesFirst(SeenBy(s, l), open, id, t0);
    } else {
      assert StillToTell(u, t0, open, l) <==> StillToTell(s, t0, open, l);
      assert SeenBy(u, l) == SeenBy(s, l);
    }
  }

  /** Meanwhile other callbacks, on other spans, go on. */
  lemma OthersDuringOpening(s: Slot, a: Act, t0: nat, open: Callback, vector: seq<nat>, id: nat, l: nat)
    requires Opening(s, t0, open, vector, id) && Can(s, a) && !(a.Issuing? && About(a.cb, id)) && IsOpening(open, id)
    requires a == Passing(t0) ==> s.inside[t0].cb != open
    ensures var u := Do(s, a);
      if l in vector && !StillToTell(u, t0, open, l) then OpensWith(SeenBy(u, l), open, id)
      else Unheard(SeenBy(u, l), id)
  {
    var u := Do(s, a);
    assert StillToTell(u, t0, open, l) <==> StillToTell(s, t0, open, l);
    if a.Passing? && l == s.inside[a.thread].remaining[0] {
      var e := (a.thread, s.inside[a.thread].cb);
      assert !About(e.1, id) && SeenBy(u, l) == SeenBy(s, l) + [e];
      if l in vector && !StillToTell(s, t0, open, l) {
        StaysFirst(SeenBy(s, l), open, id, e);
      }
    } else {
      assert SeenBy(u, l) == SeenBy(s, l);
    }
  }

  lemma StaysOpening(s: Slot, a: Act, t0: nat, open: Callback, vector: seq<nat>, id: nat)
    requires Opening(s, t0, open, vector, id) && NoRepeats(s.vector) && Can(s, a) && IsOpening(open, id)
    requires !(a.Issuing? && About(a.cb, id))
    ensures Opening(Do(s, a), t0, open, vector, id)
  {
    hide Unheard, OpensWith;
    var u := Do(s, a);
    forall l
      ensures if l in vector && !StillToTell(u, t0, open, l) then OpensWith(SeenBy(u, l), open, id)
              else Unheard(SeenBy(u, l), id)
      ensures StillToTell(u, t0, open, l) ==> StillToTell(s, t0, open, l)
    {
      if a == Passing(t0) && s.inside[t0].cb == open {
        PassesOpening(s, t0, open, vector, id, l);
      } else {
        OthersDuringOpening(s, a, t0, open, vector, id, l);
      }
    }
  }

  lemma OpeningEnds(s: Slot, t0: nat, open: Callback, vector: seq<nat>, id: nat)
    requires Opening(s, t0, open, vector, id) && t0 !in s.inside
    ensures Opened(s, open, vector, id)
  {
    forall l ensures if l in vector then OpensWith(SeenBy(s, l), open, id) else NeverNew(SeenBy(s, l), id) {
      assert !StillToTell(s, t0, open, l);
    }
  }

  lemma StaysOpened(s: Slot, a: Act, open: Callback, vector: seq<nat>, id: nat)
    requires Opened(s, open, vector, id) && Can(s, a) && !(a.Issuing? && IsOpening(a.cb, id))
    ensures Opened(Do(s, a), open, vector, id)
  {
    var u := Do(s, a);
    forall l ensures if l in vector then OpensWith(SeenBy(u, l), open, id) else NeverNew(SeenBy(u, l), id) {
      if a.Passing? && l == s.inside[a.thread].remaining[0] {
        var e := (a.thread, s.inside[a.thread].cb);
        assert SeenBy(u, l) == SeenBy(s, l) + [e];
        if l in vector {
          StaysFirst(SeenBy(s, l), open, id, e);
        }
      } else {
        assert SeenBy(u, l) == SeenBy(s, l);
      }
    }
  }

  lemma StepKeepsVector(s: Slot, a: Act)
    requires Can(s, a) && NoRepeats(s.vector)
    ensures NoRepeats(Do(s, a).vector) && Do(s, a).filter == s.filter
  {
  }

  lemma {:induction false} RunStaysUnknown(s: Slot, acts: seq<Act>, id: nat)
    requires Unknown(s, id) && NoRepeats(s.vector) && CanRun(s, acts) && Silent(acts, id)
    ensures Unknown(Run(s, acts), id) && NoRepeats(Run(s, acts).vector)
    decreases |acts|
  {
    hide Unknown, NoRepeats, Do, Can;
    if acts != [] {
      StaysUnknown(s, acts[0], id);
      StepKeepsVector(s, acts[0]);
      RunStaysUnknown(Do(s, acts[0]), acts[1..], id);
    }
  }

  lemma {:induction false} RunStaysOpening(
      s: Slot, acts: seq<Act>, t0: nat, open: Callback, vector: seq<nat>, id: nat)
    requires Opening(s, t0, open, vector, id) && NoRepeats(s.vector) && IsOpening(open, id)
    requires CanRun(s, acts) && Silent(acts, id)
    ensures Opening(Run(s, acts), t0, open, vector, id)
    decreases |acts|
  {
    hide Opening, NoRepeats, Do, Can;
    if acts != [] {
      StaysOpening(s, acts[0], t0, open, vector, id);
      StepKeepsVector(s, acts[0]);
      RunStaysOpening(Do(s, acts[0]), acts[1..], t0, open, vector, id);
    }
  }

  lemma {:induction false} RunStaysOpened(s: Slot, acts: seq<Act>, open: Callback, vector: seq<nat>, id: nat)
    requires Opened(s, open, vector, id) && CanRun(s, acts) && NotOpened(acts, id)
    ensures Opened(Run(s, acts), open, vector, id)
    decreases |acts|
  {
    hide Opened, Do, Can;
    if acts != [] {
      StaysOpened(s, acts[0], open, vector, id);
      RunStaysOpened(Do(s, acts[0]), acts[1..], open, vector, id);
    }
  }

  function Start(filter: Metadata -> bool): Slot {
    Slot(filter, [], map[], map[], [])
  }

  /**
    The opening of a span comes first for every layer, among the callbacks of all threads. The registry
    opens a span once, and no other thread can name it before the call that opens it has returned; in between
    other threads call on other spans and the vector may be replaced. Then, if the filter accepts the
    opening, every layer of the vector replaced last before it hears it before anything else of the span from
    any thread, and no other layer ever hears of a new span.
   */
  lemma OpeningComesFirst(
      filter: Metadata -> bool, before: seq<Act>, t0: nat, open: Callback, during: seq<Act>, after: seq<Act>,
      id: nat, l: nat)
    requires IsOpening(open, id)
    requires CanRun(Start(filter), before) && Silent(before, id)
    requires Can(Run(Start(filter), before), Issuing(t0, open))
    requires CanRun(Do(Run(Start(filter), before), Issuing(t0, open)), during) && Silent(during, id)
    requires t0 !in Run(Do(Run(Start(filter), before), Issuing(t0, open)), during).inside
    requires CanRun(Run(Do(Run(Start(filter), before), Issuing(t0, open)), during), after) && NotOpened(after, id)
    ensures var s := Run(Start(filter), before);
      var heard := SeenBy(Run(Run(Do(s, Issuing(t0, open)), during), after), l);
      if filter(open.meta) && l in LastVector(before) then OpensWith(heard, open, id) else NeverNew(heard, id)
  {
    hide CanRun, Run, Do, Can, Unknown, Opening, OpensWith, NeverNew, NoRepeats, Silent, NotOpened, From, Due;
    hide SeenBy, OnItsWay, LastVector;
    EveryLayerSeesItsWindow(filter, before, t0, l);
    StartIsUnknown(filter, id);
    RunStaysUnknown(Start(filter), before, id);
    var s := Run(Start(filter), before);
    var vector := if Passes(s.filter, open) then s.vector else [];
    StartsOpening(s, t0, open, id);
    StepKeepsVector(s, Issuing(t0, open));
    var u := Do(s, Issuing(t0, open));
    RunStaysOpening(u, during, t0, open, vector, id);
    OpeningEnds(Run(u, during), t0, open, vector, id);
    RunStaysOpened(Run(u, during), after, open, vector, id);
  }

  lemma StartIsUnknown(filter: Metadata -> bool, id: nat)
    ensures Unknown(Start(filter), id) && NoRepeats(Start(filter).vector)
  {
  }
}
