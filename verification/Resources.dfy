/** The descriptors of a client session: what its system calls do to the event loop's state, to its
    footprint, and amid the acts of everybody else. */
module Resources {
  import opened Epoll
  import opened EventLoop
  import opened Safety
  import opened Footprints

  /** The event loop's state with the use counts of the descriptor objects. */
  datatype World = World(loop: Loop, refs: map<nat, nat>)

  function Fault(w: World): World {
    w.(loop := Fail(w.loop))
  }

  function Do(w: World, a: Act): World {
    var s := w.loop;
    match a
    case OpenFile(f) => if f in s.k.poll then Fault(w) else w.(loop := s.(k := s.k.(poll := s.k.poll[f := Silent])))
    case CloseFile(f) =>
      if f !in s.k.poll || f in s.k.interest then Fault(w) else w.(loop := s.(k := s.k.(poll := s.k.poll - {f})))
    case Make(p, f, d) =>
      if p in s.heap || f !in s.k.poll || f in s.k.interest then Fault(w)
      else World(Attach(Construct(s, p, f), p, d, true), w.refs[p := 1])
    case Share(p) => if p !in w.refs then Fault(w) else w.(refs := w.refs[p := w.refs[p] + 1])
    case Drop(p) =>
      if p !in w.refs || p !in s.heap || s.heap[p].fd !in s.k.interest then Fault(w)
      else if w.refs[p] > 1 then w.(refs := w.refs[p := w.refs[p] - 1])
      else World(Destroy(s, p), w.refs - {p})
    case Watch(p, d) => w.(loop := EventLoop.Watch(s, p, d))
    case Unwatch(p, d) => w.(loop := EventLoop.Unwatch(s, p, d))
  }

  function DoAll(w: World, acts: seq<Act>): World
    decreases acts
  {
    if acts == [] then w else DoAll(Do(w, acts[0]), acts[1..])
  }

  function FilesOf(heap: map<nat, Descriptor>): map<nat, nat> {
    map p | p in heap :: heap[p].fd
  }

  function FootprintOf(w: World): Footprint {
    var s := w.loop;
    Footprint(FilesOf(s.heap), w.refs, s.managed, s.processed, s.k.interest.Keys, s.k.poll.Keys, s.fault)
  }

  lemma FilesOfChange(heap: map<nat, Descriptor>, p: nat, x: Descriptor)
    ensures FilesOf(heap[p := x]) == FilesOf(heap)[p := x.fd]
    ensures FilesOf(heap - {p}) == FilesOf(heap) - {p}
  {
  }

  lemma MakeMarks(w: World, p: nat, f: nat, d: Direction)
    ensures FootprintOf(Do(w, Make(p, f, d))) == Mark(FootprintOf(w), Make(p, f, d))
  {
    var s := w.loop;
    if p !in s.heap && f in s.k.poll && f !in s.k.interest {
      var t := Attach(Construct(s, p, f), p, d, true);
      FilesOfChange(s.heap, p, t.heap[p]);
      assert t.heap == s.heap[p := t.heap[p]] && t.k.interest.Keys == s.k.interest.Keys + {f};
    }
  }

  lemma DropMarks(w: World, p: nat)
    ensures FootprintOf(Do(w, Drop(p))) == Mark(FootprintOf(w), Drop(p))
  {
    if p in w.loop.heap {
      FilesOfChange(w.loop.heap, p, w.loop.heap[p]);
    }
  }

  lemma SameObjects(w: World, t: Loop)
    requires t.heap.Keys == w.loop.heap.Keys && (forall p | p in t.heap :: t.heap[p].fd == w.loop.heap[p].fd)
    requires t.managed == w.loop.managed && t.fault == w.loop.fault
    requires t.k.interest.Keys == w.loop.k.interest.Keys && t.k.poll.Keys == w.loop.k.poll.Keys
    ensures FootprintOf(w.(loop := t)) == FootprintOf(w).(processed := t.processed)
  {
    assert FilesOf(t.heap) == FilesOf(w.loop.heap);
  }

  /** The effect of an act on the footprint depends on the footprint alone. */
  lemma DoMarks(w: World, a: Act)
    ensures FootprintOf(Do(w, a)) == Mark(FootprintOf(w), a)
  {
    match a
    case Make(p, f, d) => MakeMarks(w, p, f, d);
    case Drop(p) => DropMarks(w, p);
    case Watch(p, d) => if p in w.loop.heap { SameObjects(w, EventLoop.Watch(w.loop, p, d)); }
    case Unwatch(p, d) => if p in w.loop.heap { SameObjects(w, EventLoop.Unwatch(w.loop, p, d)); }
    case _ =>
  }

  // ---- The steps of the event loop ----

  /** What a step of the event loop does to the footprint, as acts. */
  function ActsOfStep(s: Loop, a: Step): seq<Act> {
    match a
    case NewFile(f, _) => [OpenFile(f)]
    case BareClose(f) => [CloseFile(f)]
    case Open(p, f, d) => [Make(p, f, d)]
    case Begin(p, d, _, watch) => if watch then [Act.Watch(p, d)] else []
    case End(p) => if p in s.ops then [Act.Unwatch(p, s.ops[p].dir)] else []
    case Release(p, d) => [Act.Unwatch(p, d)]
    case Close(p) => [Drop(p)]
    case _ => []
  }

  function RefsAfter(refs: map<nat, nat>, a: Step): map<nat, nat> {
    match a
    case Open(p, _, _) => refs[p := 1]
    case Close(p) => refs - {p}
    case _ => refs
  }

  lemma PassIsQuiet(w: World, order: seq<nat>)
    requires Invariant(w.loop) && Allowed(w.loop, Reconcile(order))
    ensures FootprintOf(w.(loop := Apply(w.loop, Reconcile(order)))) == FootprintOf(w)
  {
    var t := Apply(w.loop, Reconcile(order));
    PassReconciles(w.loop, order);
    ReconciledIsIdle(Pass(w.loop, order));
    PassKeepsRequests(w.loop, order);
    forall f ensures f in t.k.interest <==> f in w.loop.k.interest {
      if f in w.loop.k.interest {
        assert w.loop.k.interest[f].ptr in t.heap;
      }
      if f in t.k.interest {
        assert t.k.interest[f].ptr in w.loop.heap;
      }
    }
    SameObjects(w, t);
  }

  lemma DispatchIsQuiet(w: World)
    requires Invariant(w.loop) && Allowed(w.loop, Next)
    ensures FootprintOf(w.(loop := Apply(w.loop, Next))) == FootprintOf(w)
  {
    NextIsDispatched(w.loop);
    SameObjects(w, Apply(w.loop, Next));
  }

  lemma ReadinessIsQuiet(w: World, a: Step)
    requires Invariant(w.loop) && Allowed(w.loop, a) && (a.Arrive? || a.HangUp? || a.Drain?)
    ensures FootprintOf(w.(loop := Apply(w.loop, a))) == FootprintOf(w)
  {
    var s, t := w.loop, Apply(w.loop, a);
    assert t.k.poll.Keys == s.k.poll.Keys && t == s.(k := t.k);
    SameObjects(w, t);
  }

  lemma ThreadIsQuiet(w: World, a: Step)
    requires Invariant(w.loop) && Allowed(w.loop, a) && (a.Block? || a.Outside? || a.Return? || a.Wait?)
    ensures FootprintOf(w.(loop := Apply(w.loop, a))) == FootprintOf(w)
  {
    var s, t := w.loop, Apply(w.loop, a);
    assert t.k.poll == s.k.poll && t.k.interest == s.k.interest && t.processed == s.processed;
    SameObjects(w, t);
  }

  lemma BareFilesAreActs(w: World, a: Step)
    requires Invariant(w.loop) && Allowed(w.loop, a) && (a.NewFile? || a.BareClose?)
    ensures FootprintOf(w.(loop := Apply(w.loop, a))) == MarkAll(FootprintOf(w), ActsOfStep(w.loop, a))
  {
    MarkOne(FootprintOf(w), ActsOfStep(w.loop, a)[0]);
  }

  lemma BeginIsActs(w: World, a: Step)
    requires Invariant(w.loop) && Allowed(w.loop, a) && a.Begin?
    ensures FootprintOf(w.(loop := Apply(w.loop, a))) == MarkAll(FootprintOf(w), ActsOfStep(w.loop, a))
  {
    SameObjects(w, Apply(w.loop, a));
    if a.watch {
      MarkOne(FootprintOf(w), Act.Watch(a.p, a.d));
    }
  }

  lemma EndIsActs(w: World, p: nat)
    requires Invariant(w.loop) && Allowed(w.loop, End(p))
    ensures FootprintOf(w.(loop := Apply(w.loop, End(p)))) == MarkAll(FootprintOf(w), ActsOfStep(w.loop, End(p)))
  {
    SameObjects(w, Apply(w.loop, End(p)));
    MarkOne(FootprintOf(w), Act.Unwatch(p, w.loop.ops[p].dir));
  }

  lemma ReleaseIsActs(w: World, p: nat, d: Direction)
    requires Invariant(w.loop) && Allowed(w.loop, Release(p, d))
    ensures FootprintOf(w.(loop := Apply(w.loop, Release(p, d)))) == MarkAll(FootprintOf(w), [Act.Unwatch(p, d)])
  {
    SameObjects(w, Apply(w.loop, Release(p, d)));
    MarkOne(FootprintOf(w), Act.Unwatch(p, d));
  }

  lemma ObjectsAreActs(w: World, a: Step)
    requires Invariant(w.loop) && Allowed(w.loop, a) && (a.Open? || a.Close?)
    requires w.refs.Keys == w.loop.heap.Keys && (a.Close? ==> w.refs[a.p] == 1)
    ensures FootprintOf(World(Apply(w.loop, a), RefsAfter(w.refs, a))) == MarkAll(FootprintOf(w), ActsOfStep(w.loop, a))
  {
    MarkOne(FootprintOf(w), ActsOfStep(w.loop, a)[0]);
    DoMarks(w, ActsOfStep(w.loop, a)[0]);
  }

  /** Every step of a disciplined run amounts, for the footprint, to its acts: opening, closing,
      registering and watching are acts, and arrivals, harvests, dispatches, suspensions, resumes and
      passes are none. The last owner closes. */
  lemma StepIsActs(w: World, a: Step)
    requires Invariant(w.loop) && Allowed(w.loop, a)
    requires w.refs.Keys == w.loop.heap.Keys && (a.Close? ==> w.refs[a.p] == 1)
    ensures FootprintOf(World(Apply(w.loop, a), RefsAfter(w.refs, a))) == MarkAll(FootprintOf(w), ActsOfStep(w.loop, a))
  {
    match a
    case Reconcile(order) => PassIsQuiet(w, order);
    case Next => DispatchIsQuiet(w);
    case NewFile(_, _) => BareFilesAreActs(w, a);
    case BareClose(_) => BareFilesAreActs(w, a);
    case Begin(_, _, _, _) => BeginIsActs(w, a);
    case End(p) => EndIsActs(w, p);
    case Release(p, d) => ReleaseIsActs(w, p, d);
    case Open(_, _, _) => ObjectsAreActs(w, a);
    case Close(_) => ObjectsAreActs(w, a);
    case Arrive(_, _) => ReadinessIsQuiet(w, a);
    case HangUp(_, _) => ReadinessIsQuiet(w, a);
    case Drain(_) => ReadinessIsQuiet(w, a);
    case _ => ThreadIsQuiet(w, a);
  }

  // ---- One session among others ----

  /** The deeds are done in order, and after each of them the loop and the outside world do anything
      that leaves the footprint alone; `states` are the worlds reached after that. */
  predicate Plays(w: World, deeds: seq<Deed>, states: seq<World>)
    decreases deeds
  {
    |states| == |deeds| &&
    (deeds == [] ||
     (FootprintOf(states[0]) == FootprintOf(Do(w, deeds[0].act)) && Plays(states[0], deeds[1..], states[1..])))
  }

  function Last(w: World, states: seq<World>): World {
    if states == [] then w else states[|states| - 1]
  }

  /** Frame rule. However the acts of a session and of everybody else are interleaved, the session's
      part of the footprint is what its acts alone make of it, and the rest is what the others' acts
      alone make of that; there is a fault only if one of the two has one. */
  lemma {:induction false} PlaysApart(
      w: World, deeds: seq<Deed>, states: seq<World>, i: Footprint, o: Footprint, own: Own)
    requires Plays(w, deeds, states) && Separate(FootprintOf(w), own) && Splits(FootprintOf(w), i, o, own)
    requires forall a | a in deeds :: Concerns(a.act, own, a.Mine?)
    ensures Splits(FootprintOf(Last(w, states)), MarkAll(i, ActsOf(deeds, true)), MarkAll(o, ActsOf(deeds, false)), own)
    decreases deeds
  {
    if deeds != [] {
      var d := deeds[0];
      assert d in deeds && forall e | e in deeds[1..] :: e in deeds;
      DoMarks(w, d.act);
      DeedSplits(FootprintOf(w), i, o, own, d);
      DeedsOfCons(i, deeds, true);
      DeedsOfCons(o, deeds, false);
      PlaysApart(states[0], deeds[1..], states[1..], After(i, d, true), After(o, d, false), own);
      assert Last(w, states) == Last(states[0], states[1..]);
    }
  }

  lemma {:induction false} DoConcatenates(w: World, a: seq<Act>, b: seq<Act>)
    ensures DoAll(w, a + b) == DoAll(DoAll(w, a), b)
    decreases a
  {
    if a == [] {
      assert a + b == b;
    } else {
      assert (a + b)[0] == a[0] && (a + b)[1..] == a[1..] + b;
      DoConcatenates(Do(w, a[0]), a[1..], b);
    }
  }
}
