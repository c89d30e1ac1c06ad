/** Every run under the discipline keeps the invariant of the event loop. */
module Safety {
  import opened Wrappers
  import opened Epoll
  import opened EventLoop

  lemma ArriveKeepsWakeup(s: Loop, f: nat, d: Direction, p: nat, e: Direction)
    requires Invariant(s) && Allowed(s, Step.Arrive(f, d)) && p in s.heap
    ensures WakeupOk(Apply(s, Step.Arrive(f, d)), p, e)
  {
    assert DescriptorOk(s, p);
  }

  lemma ArriveKeepsDirection(s: Loop, f: nat, d: Direction, p: nat, e: Direction)
    requires Invariant(s) && Allowed(s, Step.Arrive(f, d)) && p in s.heap
    ensures DirectionOk(Apply(s, Step.Arrive(f, d)), p, e)
  {
    assert DescriptorOk(s, p);
    ArriveKeepsWakeup(s, f, d, p, e);
  }

  lemma ArriveKeepsDescriptor(s: Loop, f: nat, d: Direction, p: nat)
    requires Invariant(s) && Allowed(s, Step.Arrive(f, d)) && p in s.heap
    ensures DescriptorOk(Apply(s, Step.Arrive(f, d)), p)
  {
    assert DescriptorOk(s, p);
    ArriveKeepsDirection(s, f, d, p, In);
    ArriveKeepsDirection(s, f, d, p, Out);
  }

  lemma ArriveKeeps(s: Loop, f: nat, d: Direction)
    requires Invariant(s) && Allowed(s, Step.Arrive(f, d))
    ensures Invariant(Apply(s, Step.Arrive(f, d)))
  {
    forall p | p in s.heap ensures DescriptorOk(Apply(s, Step.Arrive(f, d)), p) {
      ArriveKeepsDescriptor(s, f, d, p);
    }
  }

  lemma HangUpKeeps(s: Loop, f: nat, d: Direction)
    requires Invariant(s) && Allowed(s, Step.HangUp(f, d))
    ensures Invariant(Apply(s, Step.HangUp(f, d)))
  {
    var t := Apply(s, Step.HangUp(f, d));
    forall p | p in t.heap ensures DescriptorOk(t, p) {
      assert DescriptorOk(s, p);
    }
  }

  lemma DrainKeeps(s: Loop, p: nat)
    requires Invariant(s) && Allowed(s, Step.Drain(p))
    ensures Invariant(Apply(s, Step.Drain(p)))
  {
    var t := Apply(s, Step.Drain(p));
    forall q | q in t.heap ensures DescriptorOk(t, q) {
      assert DescriptorOk(s, q);
    }
  }

  lemma NewFileKeeps(s: Loop, f: nat, r: Readiness)
    requires Invariant(s) && Allowed(s, NewFile(f, r))
    ensures Invariant(Apply(s, NewFile(f, r)))
  {
    forall p | p in s.heap ensures DescriptorOk(Apply(s, NewFile(f, r)), p) {
      assert DescriptorOk(s, p);
    }
  }

  lemma BareCloseKeeps(s: Loop, f: nat)
    requires Invariant(s) && Allowed(s, BareClose(f))
    ensures Invariant(Apply(s, BareClose(f)))
  {
    forall p | p in s.heap ensures DescriptorOk(Apply(s, BareClose(f)), p) {
      assert DescriptorOk(s, p);
    }
  }

  /** Construction and attachment register the descriptor under its file number and nothing else. */
  ghost predicate Opened(s: Loop, t: Loop, p: nat, f: nat, d: Direction) {
    && t.heap == s.heap[p := Descriptor(f, AttachMask(d), NoEvents, None, None, false)]
    && t.managed == s.managed + {p}
    && t.k.poll == s.k.poll
    && t.k.interest == s.k.interest[f := Registration(p, AttachMask(d))]
    && (t.k.ready == s.k.ready || (f !in s.k.ready && t.k.ready == s.k.ready + [f]))
    && t == s.(k := t.k, heap := t.heap, managed := t.managed)
  }

  lemma OpenedKeepsMirror(s: Loop, t: Loop, p: nat, f: nat, d: Direction)
    requires Invariant(s) && Allowed(s, Open(p, f, d)) && Opened(s, t, p, f, d)
    ensures InterestMirror(t) && ReadyListOk(t.k)
  {
  }

  lemma OpenKeeps(s: Loop, t: Loop, p: nat, f: nat, d: Direction)
    requires Invariant(s) && Allowed(s, Open(p, f, d)) && Opened(s, t, p, f, d)
    ensures Invariant(t)
  {
    OpenedKeepsMirror(s, t, p, f, d);
    forall q | q in t.heap ensures DescriptorOk(t, q) {
      if q != p { assert DescriptorOk(s, q); }
    }
  }

  lemma AttachKeeps(s: Loop, p: nat, f: nat, d: Direction)
    requires Invariant(s) && Allowed(s, Open(p, f, d))
    ensures Invariant(Apply(s, Open(p, f, d)))
  {
    OpenKeeps(s, Apply(s, Open(p, f, d)), p, f, d);
  }

  lemma BeginKeepsDescriptor(s: Loop, p: nat, d: Direction, co: nat, watch: bool, q: nat)
    requires Invariant(s) && Allowed(s, Begin(p, d, co, watch)) && q in s.heap
    ensures DescriptorOk(Apply(s, Begin(p, d, co, watch)), q)
  {
    assert DescriptorOk(s, q);
  }

  lemma BeginKeeps(s: Loop, p: nat, d: Direction, co: nat, watch: bool)
    requires Invariant(s) && Allowed(s, Begin(p, d, co, watch))
    ensures Invariant(Apply(s, Begin(p, d, co, watch)))
  {
    forall q | q in s.heap ensures DescriptorOk(Apply(s, Begin(p, d, co, watch)), q) {
      BeginKeepsDescriptor(s, p, d, co, watch, q);
    }
  }

  lemma BlockKeeps(s: Loop, p: nat)
    requires Invariant(s) && Allowed(s, Block(p))
    ensures Invariant(Apply(s, Block(p)))
  {
    var t := Apply(s, Block(p));
    assert DescriptorOk(s, p);
    forall q | q in t.heap ensures DescriptorOk(t, q) {
      assert DescriptorOk(s, q);
    }
  }

  lemma EndKeepsDescriptor(s: Loop, p: nat, q: nat)
    requires Invariant(s) && Allowed(s, End(p)) && q in s.heap
    ensures DescriptorOk(Apply(s, End(p)), q)
  {
    assert DescriptorOk(s, p) && DescriptorOk(s, q);
  }

  lemma EndKeeps(s: Loop, p: nat)
    requires Invariant(s) && Allowed(s, End(p))
    ensures Invariant(Apply(s, End(p)))
  {
    forall q | q in s.heap ensures DescriptorOk(Apply(s, End(p)), q) {
      EndKeepsDescriptor(s, p, q);
    }
  }

  lemma ReleaseKeepsDescriptor(s: Loop, p: nat, d: Direction, q: nat)
    requires Invariant(s) && Allowed(s, Release(p, d)) && q in s.heap
    ensures DescriptorOk(Apply(s, Release(p, d)), q)
  {
    assert DescriptorOk(s, p) && DescriptorOk(s, q);
  }

  lemma ReleaseKeeps(s: Loop, p: nat, d: Direction)
    requires Invariant(s) && Allowed(s, Release(p, d))
    ensures Invariant(Apply(s, Release(p, d)))
  {
    forall q | q in s.heap ensures DescriptorOk(Apply(s, Release(p, d)), q) {
      ReleaseKeepsDescriptor(s, p, d, q);
    }
  }

  lemma CloseKeeps(s: Loop, p: nat)
    requires Invariant(s) && Allowed(s, Close(p))
    ensures Invariant(Apply(s, Close(p)))
  {
    var t := Apply(s, Close(p));
    RemoveKeepsOthers(s.k.ready, s.heap[p].fd);
    forall q | q in t.heap ensures DescriptorOk(t, q) {
      assert DescriptorOk(s, q);
    }
  }

  lemma ReturnKeeps(s: Loop)
    requires Invariant(s) && Allowed(s, Return)
    ensures Invariant(Apply(s, Return))
  {
    var t := Apply(s, Return);
    forall q | q in t.heap ensures DescriptorOk(t, q) {
      assert DescriptorOk(s, q);
    }
  }

  lemma OutsideKeeps(s: Loop)
    requires Invariant(s) && Allowed(s, Outside)
    ensures Invariant(Apply(s, Outside))
  {
    var t := Apply(s, Outside);
    forall q | q in t.heap ensures DescriptorOk(t, q) {
      assert DescriptorOk(s, q);
    }
  }

  /** The events of a harvest report registered, managed descriptors, one each, and exactly the
      ready directions of their applied masks. */
  lemma HarvestedEvent(s: Loop, n: nat, i: nat)
    requires Invariant(s) && Allowed(s, Wait(n)) && i < |Events(s.k, s.k.ready[..n])|
    ensures var e := Events(s.k, s.k.ready[..n])[i];
      && e.ptr in s.heap && s.heap[e.ptr].fd in s.k.poll
      && (forall d :: Carries(e, d) ==> Has(s.heap[e.ptr].ioState, d) && IsReady(s.k.poll[s.heap[e.ptr].fd], d))
      && (e.hup ==> s.k.poll[s.heap[e.ptr].fd].hup)
  {
    var j := EventsAreFromQueue(s.k, s.k.ready[..n], i);
  }

  lemma HarvestReports(s: Loop, n: nat, p: nat, d: Direction)
    requires Invariant(s) && Allowed(s, Wait(n)) && p in s.heap
    requires s.heap[p].fd in s.k.ready[..n] && Has(s.heap[p].ioState, d) && IsReady(s.k.poll[s.heap[p].fd], d)
    ensures Queued(Apply(s, Wait(n)).batch, p, d)
  {
    var f := s.heap[p].fd;
    var j: nat :| j < n && s.k.ready[j] == f;
    assert Fires(s.k, f);
    QueueIsReported(s.k, s.k.ready[..n], j);
    var t := Apply(s, Wait(n));
    var i: nat :| i < |t.batch| && t.batch[i] == EventOf(s.k, f);
    assert t.batch[i].ptr == p && Carries(t.batch[i], d);
  }

  lemma WaitKeepsDirection(s: Loop, n: nat, p: nat, d: Direction)
    requires Invariant(s) && Allowed(s, Wait(n)) && p in s.heap
    ensures DirectionOk(Apply(s, Wait(n)), p, d)
  {
    var t := Apply(s, Wait(n));
    assert DescriptorOk(s, p);
    if Queued(t.batch, p, d) {
      var i: nat :| i < |t.batch| && t.batch[i].ptr == p && Carries(t.batch[i], d);
      HarvestedEvent(s, n, i);
    }
    if SuspendedOn(s, p, d) && IsReady(s.k.poll[s.heap[p].fd], d) && s.heap[p].fd in s.k.ready[..n] {
      HarvestReports(s, n, p, d);
    }
    assert s.k.ready == s.k.ready[..n] + s.k.ready[n..];
  }

  lemma WaitKeeps(s: Loop, n: nat)
    requires Invariant(s) && Allowed(s, Wait(n))
    ensures Invariant(Apply(s, Wait(n)))
  {
    var t := Apply(s, Wait(n));
    EventsAreDistinct(s.k, s.k.ready[..n]);
    forall i | 0 <= i < |t.batch| ensures !(t.batch[i].rd && t.batch[i].wr) {
      HarvestedEvent(s, n, i);
      assert DescriptorOk(s, t.batch[i].ptr);
      assert Carries(t.batch[i], In) == t.batch[i].rd && Carries(t.batch[i], Out) == t.batch[i].wr;
    }
    forall q | q in t.heap ensures DescriptorOk(t, q) {
      WaitKeepsDirection(s, n, q, In);
      WaitKeepsDirection(s, n, q, Out);
      assert DescriptorOk(s, q);
    }
  }

  /** When an event is dispatched, a slot it can use holds a coroutine suspended on that very
      descriptor and direction, and a coroutine suspended there is in the slot. */
  lemma DispatchedSlot(s: Loop, d: Direction)
    requires Invariant(s) && Allowed(s, Next) && Carries(s.batch[0], d) && s.batch[0].ptr in s.heap
    ensures var p := s.batch[0].ptr;
      Slot(s.heap[p], d).Some? <==> SuspendedOn(s, p, d)
    ensures var p := s.batch[0].ptr;
      Slot(s.heap[p], d).Some? ==> s.ops[p].co == Slot(s.heap[p], d).value
  {
    var p := s.batch[0].ptr;
    assert DescriptorOk(s, p);
    assert Queued(s.batch, p, d);
  }

  lemma PoppedQueue(s: Loop, p: nat, d: Direction)
    requires s.batch != [] && BatchOk(s)
    ensures Queued(s.batch[1..], p, d) ==> Queued(s.batch, p, d) && p != s.batch[0].ptr
    ensures Queued(s.batch, p, d) ==> Queued(s.batch[1..], p, d) || (p == s.batch[0].ptr && Carries(s.batch[0], d))
  {
    if Queued(s.batch[1..], p, d) {
      var i :| 0 <= i < |s.batch[1..]| && s.batch[1..][i].ptr == p && Carries(s.batch[1..][i], d);
      assert s.batch[i + 1].ptr == p;
    }
    if Queued(s.batch, p, d) {
      var i :| 0 <= i < |s.batch| && s.batch[i].ptr == p && Carries(s.batch[i], d);
      if i > 0 {
        assert s.batch[1..][i - 1] == s.batch[i];
      }
    }
  }

  /** The direction whose slot the first event of the batch resumes, if it resumes any. */
  ghost predicate Wakes(s: Loop, d: Direction)
    requires s.batch != []
  {
    var p := s.batch[0].ptr;
    p in s.heap && Carries(s.batch[0], d) && SuspendedOn(s, p, d)
  }

  /** One dispatch: the event is consumed; it resumes the operation suspended where it points, once
      and in one direction, or it resumes nobody. */
  ghost predicate Dispatched(s: Loop, t: Loop)
    requires s.batch != []
  {
    var e := s.batch[0];
    var p := e.ptr;
    && !t.fault && t.k == s.k && t.managed == s.managed && t.processed == s.processed && t.turn == s.turn
    && t.batch == s.batch[1..]
    && t.heap.Keys == s.heap.Keys
    && (forall q | q in s.heap ::
          t.heap[q] == if q == p && e.rd && e.hup then s.heap[q].(doneRecv := true) else s.heap[q])
    && (if Wakes(s, In) || Wakes(s, Out)
        then p in s.ops && t.ops == s.ops[p := s.ops[p].(stage := Retrying)] && t.phase == Running(None)
        else t.ops == s.ops && t.phase == Dispatching)
  }

  lemma NextIsDispatched(s: Loop)
    requires Invariant(s) && Allowed(s, Next)
    ensures Dispatched(s, Apply(s, Next))
  {
    var e := s.batch[0];
    assert Carries(e, In) == e.rd && Carries(e, Out) == e.wr;
    if e.ptr in s.heap {
      if e.rd {
        DispatchedSlot(s, In);
        assert Wakes(s, In) <==> s.heap[e.ptr].coroRecv.Some?;
      }
      if e.wr {
        DispatchedSlot(s, Out);
        assert Wakes(s, Out) <==> s.heap[e.ptr].coroSend.Some?;
      }
    }
  }

  lemma DispatchedKeepsDirection(s: Loop, t: Loop, q: nat, d: Direction)
    requires Invariant(s) && Allowed(s, Next) && Dispatched(s, t) && q in t.heap
    ensures DirectionOk(t, q, d)
  {
    assert DescriptorOk(s, q);
    PoppedQueue(s, q, d);
    if q == s.batch[0].ptr && Carries(s.batch[0], d) && SuspendedOn(s, q, d) {
      assert Wakes(s, d);
    }
  }

  lemma DispatchedKeepsMirror(s: Loop, t: Loop)
    requires Invariant(s) && Allowed(s, Next) && Dispatched(s, t)
    ensures InterestMirror(t) && BatchOk(t)
  {
  }

  lemma DispatchedKeeps(s: Loop, t: Loop)
    requires Invariant(s) && Allowed(s, Next) && Dispatched(s, t)
    ensures Invariant(t)
  {
    DispatchedKeepsMirror(s, t);
    forall q | q in t.heap ensures DescriptorOk(t, q) {
      assert DescriptorOk(s, q);
      DispatchedKeepsDirection(s, t, q, In);
      DispatchedKeepsDirection(s, t, q, Out);
    }
  }

  // ---- The reconcile pass ----

  /** Every processed descriptor outside `todo` has its requested mask in force. */
  ghost predicate Reconciled(s: Loop, todo: seq<nat>) {
    forall p | p in s.processed && p in s.heap && p !in todo :: s.heap[p].ioState == s.heap[p].ioNewState
  }

  /** The parts of the state that the pass leaves alone. */
  ghost predicate OnlyMasksDiffer(s: Loop, t: Loop) {
    t.phase == s.phase && t.batch == s.batch && t.processed == s.processed && t.ops == s.ops
    && t.managed == s.managed && t.turn == s.turn && t.fault == s.fault && t.k.poll == s.k.poll
    && t.heap.Keys == s.heap.Keys
  }

  /** The effect of EPOLL_CTL_MOD for one descriptor. */
  ghost predicate Modified(s: Loop, t: Loop, p: nat)
    requires p in s.heap
  {
    var x := s.heap[p];
    && OnlyMasksDiffer(s, t)
    && t.heap == s.heap[p := x.(ioState := x.ioNewState)]
    && t.k.interest == s.k.interest[x.fd := Registration(p, x.ioNewState)]
    && (t.k.ready == s.k.ready || (x.fd !in s.k.ready && t.k.ready == s.k.ready + [x.fd]))
    && (x.ioState != x.ioNewState && Fires(t.k, x.fd) ==> x.fd in t.k.ready)
  }

  lemma ModifyIsModified(s: Loop, p: nat)
    requires Invariant(s) && p in s.processed
    ensures p in s.heap && Modified(s, Modify(s, p), p)
  {
    assert s.heap == s.heap[p := s.heap[p]];
    assert s.k.interest == s.k.interest[s.heap[p].fd := Registration(p, s.heap[p].ioState)];
  }

  lemma ModifiedKeepsDirection(s: Loop, t: Loop, p: nat, q: nat, d: Direction)
    requires Invariant(s) && s.phase.Dispatching? && p in s.processed && p in s.heap && Modified(s, t, p) && q in t.heap
    ensures DirectionOk(t, q, d)
  {
    assert DescriptorOk(s, q);
    if q == p && WakeupOk(s, p, d) && SuspendedOn(s, p, d) && IsReady(s.k.poll[s.heap[p].fd], d) {
      assert Has(s.heap[p].ioNewState, d);
    }
  }

  lemma ModifiedKeeps(s: Loop, t: Loop, p: nat)
    requires Invariant(s) && s.phase.Dispatching? && p in s.processed && p in s.heap && Modified(s, t, p)
    ensures Invariant(t)
  {
    assert InterestMirror(t);
    forall q | q in t.heap ensures DescriptorOk(t, q) {
      ModifiedKeepsDirection(s, t, p, q, In);
      ModifiedKeepsDirection(s, t, p, q, Out);
      assert DescriptorOk(s, q);
    }
  }

  /** After the pass io_state_ equals io_new_state_ for every processed descriptor. */
  lemma {:induction false} PassReconciles(s: Loop, order: seq<nat>)
    requires Invariant(s) && s.phase.Dispatching? && (forall p | p in order :: p in s.processed)
    requires Reconciled(s, order)
    ensures var t := Pass(s, order); Invariant(t) && OnlyMasksDiffer(s, t) && Reconciled(t, [])
    decreases order
  {
    if order != [] {
      var t := Modify(s, order[0]);
      ModifyIsModified(s, order[0]);
      ModifiedKeeps(s, t, order[0]);
      assert order == [order[0]] + order[1..];
      PassReconciles(t, order[1..]);
    }
  }

  /** A pass changes of the descriptors only the applied masks, and only of those it walks. */
  lemma {:induction false} PassKeepsRequests(s: Loop, order: seq<nat>)
    requires Invariant(s) && s.phase.Dispatching? && (forall p | p in order :: p in s.processed)
    ensures var t := Pass(s, order);
      && t.heap.Keys == s.heap.Keys
      && (forall p | p in s.heap :: t.heap[p].fd == s.heap[p].fd && t.heap[p].ioNewState == s.heap[p].ioNewState)
      && (forall p | p in s.heap :: t.heap[p].doneRecv == s.heap[p].doneRecv)
      && (forall p | p in s.heap && p !in order :: t.heap[p].ioState == s.heap[p].ioState)
    decreases order
  {
    if order != [] {
      var t := Modify(s, order[0]);
      ModifyIsModified(s, order[0]);
      ModifiedKeeps(s, t, order[0]);
      assert order == [order[0]] + order[1..];
      PassKeepsRequests(t, order[1..]);
    }
  }

  lemma ReconciledIsIdle(u: Loop)
    requires Invariant(u) && u.phase.Dispatching? && u.batch == [] && Reconciled(u, [])
    ensures Invariant(u.(phase := Idle))
  {
    var t := u.(phase := Idle);
    forall p | p in t.heap ensures DescriptorOk(t, p) {
      assert DescriptorOk(u, p);
    }
  }

  lemma WorldStepKeeps(s: Loop, a: Step)
    requires Invariant(s) && Allowed(s, a) && (a.Arrive? || a.HangUp? || a.Drain? || a.NewFile? || a.BareClose?)
    ensures Invariant(Apply(s, a))
  {
    match a
    case Arrive(f, d) => ArriveKeeps(s, f, d);
    case HangUp(f, d) => HangUpKeeps(s, f, d);
    case Drain(p) => DrainKeeps(s, p);
    case NewFile(f, r) => NewFileKeeps(s, f, r);
    case BareClose(f) => BareCloseKeeps(s, f);
  }

  lemma LoopStepKeeps(s: Loop, a: Step)
    requires Invariant(s) && Allowed(s, a) && (a.Outside? || a.Return? || a.Wait? || a.Next? || a.Reconcile?)
    ensures Invariant(Apply(s, a))
  {
    match a
    case Outside => OutsideKeeps(s);
    case Return => ReturnKeeps(s);
    case Wait(n) => WaitKeeps(s, n);
    case Next => NextIsDispatched(s); DispatchedKeeps(s, Apply(s, Next));
    case Reconcile(order) => PassReconciles(s, order); ReconciledIsIdle(Pass(s, order));
  }

  lemma StepKeeps(s: Loop, a: Step)
    requires Invariant(s) && Allowed(s, a)
    ensures Invariant(Apply(s, a))
  {
    match a
    case Open(p, f, d) => AttachKeeps(s, p, f, d);
    case Begin(p, d, co, watch) => BeginKeeps(s, p, d, co, watch);
    case Block(p) => BlockKeeps(s, p);
    case End(p) => EndKeeps(s, p);
    case Release(p, d) => ReleaseKeeps(s, p, d);
    case Close(p) => CloseKeeps(s, p);
    case Outside => LoopStepKeeps(s, a);
    case Return => LoopStepKeeps(s, a);
    case Wait(_) => LoopStepKeeps(s, a);
    case Next => LoopStepKeeps(s, a);
    case Reconcile(_) => LoopStepKeeps(s, a);
    case _ => WorldStepKeeps(s, a);
  }

  lemma {:induction false} RunKeeps(s: Loop, steps: seq<Step>)
    requires Invariant(s) && ValidRun(s, steps)
    ensures Invariant(Run(s, steps))
    decreases steps
  {
    if steps != [] {
      StepKeeps(s, steps[0]);
      RunKeeps(Apply(s, steps[0]), steps[1..]);
    }
  }

  lemma StartIsSafe()
    ensures Invariant(Start)
  {
  }

  // ---- What every run guarantees ----

  /** Safe dispatch. Although slots are never cleared and addresses are reused, a resume issued by
      the loop always reaches the coroutine that is suspended on that very descriptor and direction,
      and no dead descriptor is touched. */
  lemma SafeDispatch(steps: seq<Step>)
    requires ValidRun(Start, steps)
    ensures !Run(Start, steps).fault
    ensures var s := Run(Start, steps);
      Allowed(s, Next) ==>
        forall d | Carries(s.batch[0], d) && s.batch[0].ptr in s.managed ::
          var p := s.batch[0].ptr;
          && p in s.heap
          && (Slot(s.heap[p], d).Some? <==> SuspendedOn(s, p, d))
          && (SuspendedOn(s, p, d) ==>
                Slot(s.heap[p], d) == Some(s.ops[p].co) && Apply(s, Next).ops[p].stage.Retrying?)
  {
    StartIsSafe();
    RunKeeps(Start, steps);
    var s := Run(Start, steps);
    if Allowed(s, Next) {
      NextIsDispatched(s);
      forall d | Carries(s.batch[0], d) && s.batch[0].ptr in s.managed
        ensures Slot(s.heap[s.batch[0].ptr], d).Some? <==> SuspendedOn(s, s.batch[0].ptr, d)
        ensures SuspendedOn(s, s.batch[0].ptr, d) ==>
          Slot(s.heap[s.batch[0].ptr], d) == Some(s.ops[s.batch[0].ptr].co) && Wakes(s, d)
      {
        DispatchedSlot(s, d);
      }
    }
  }

  /** A report for direction d is on its way to p's operation: in the batch, or to be made of p's
      place on the ready list, or to be queued by a pending EPOLL_CTL_MOD. */
  ghost predicate WakeupUnderWay(s: Loop, p: nat, d: Direction)
    requires p in s.heap
  {
    var x := s.heap[p];
    || Queued(s.batch, p, d)
    || (x.fd in s.k.ready && Fires(s.k, x.fd) &&
        EventOf(s.k, x.fd).ptr == p && Carries(EventOf(s.k, x.fd), d))
    || (p in s.processed && Has(x.ioNewState, d) && !Has(x.ioState, d) &&
        x.fd in s.k.poll && IsReady(s.k.poll[x.fd], d))
  }

  /** Wake-ups, at every point of every run. An operation that is suspended although its system call
      would not block has a wake-up under way if and only if poll reports its direction or the batch
      already holds its event. So a wake-up is lost when the other end goes and poll reports no more
      than that, with EPOLLHUP or EPOLLERR alone, and only then. */
  lemma NoLostWakeup(steps: seq<Step>, p: nat, d: Direction)
    requires ValidRun(Start, steps)
    requires var s := Run(Start, steps);
      && SuspendedOn(s, p, d) && p in s.heap && s.heap[p].fd in s.k.poll
      && WouldNotBlock(s.k.poll[s.heap[p].fd], d)
    ensures var s := Run(Start, steps);
      WakeupUnderWay(s, p, d) <==> IsReady(s.k.poll[s.heap[p].fd], d) || Queued(s.batch, p, d)
    ensures var s := Run(Start, steps);
      s.phase.Idle? ==>
        && (WakeupUnderWay(s, p, d) <==> IsReady(s.k.poll[s.heap[p].fd], d))
        && (WakeupUnderWay(s, p, d) ==> s.heap[p].fd in s.k.ready)
  {
    StartIsSafe();
    RunKeeps(Start, steps);
    assert DescriptorOk(Run(Start, steps), p);
  }

  /** Interest mirror: the managed set, the kernel's interest list and the applied masks agree at
      every point, and a pass leaves no processed descriptor with a request outstanding. */
  lemma MirrorAlways(steps: seq<Step>)
    requires ValidRun(Start, steps)
    ensures InterestMirror(Run(Start, steps))
    ensures forall order | Allowed(Run(Start, steps), Reconcile(order)) ::
      var t := Apply(Run(Start, steps), Reconcile(order));
      forall p | p in t.processed :: p in t.heap && t.heap[p].ioState == t.heap[p].ioNewState
  {
    StartIsSafe();
    RunKeeps(Start, steps);
    forall order | Allowed(Run(Start, steps), Reconcile(order))
      ensures var t := Apply(Run(Start, steps), Reconcile(order)); Invariant(t) && Reconciled(t, [])
    {
      PassReconciles(Run(Start, steps), order);
      ReconciledIsIdle(Pass(Run(Start, steps), order));
    }
  }

  /** One resume per event: no applied mask and no harvested event ever carries both directions, so
      nothing is left to do with a descriptor that its own resume destroyed. */
  lemma OneResumePerEvent(steps: seq<Step>)
    requires ValidRun(Start, steps)
    ensures var s := Run(Start, steps);
      && (forall f | f in s.k.interest :: !(s.k.interest[f].mask.rd && s.k.interest[f].mask.wr))
      && (forall e | e in s.batch :: !(e.rd && e.wr))
      && (s.phase.Running? ==> s.phase.after == None)
  {
    StartIsSafe();
    RunKeeps(Start, steps);
    var s := Run(Start, steps);
    forall f | f in s.k.interest ensures !(s.k.interest[f].mask.rd && s.k.interest[f].mask.wr) {
      assert DescriptorOk(s, s.k.interest[f].ptr);
    }
  }

  /** A wake-up is spurious only for an operation that suspended in the same turn as the event that
      wakes it was harvested; any other resume finds its direction ready. */
  lemma WakeupIsGenuine(steps: seq<Step>, d: Direction)
    requires ValidRun(Start, steps)
    requires var s := Run(Start, steps); Allowed(s, Next) && Wakes(s, d)
    ensures var s := Run(Start, steps);
      var p := s.batch[0].ptr;
      s.ops[p].since < s.turn ==> s.heap[p].fd in s.k.poll && IsReady(s.k.poll[s.heap[p].fd], d)
  {
    StartIsSafe();
    RunKeeps(Start, steps);
    var s := Run(Start, steps);
    assert DescriptorOk(s, s.batch[0].ptr);
    assert Queued(s.batch, s.batch[0].ptr, d);
  }
}
