/** When an echo session keeps to the single-direction discipline, and a session that does not. */
module SessionDiscipline {
  import opened Wrappers
  import opened Epoll
  import opened EventLoop
  import opened Safety
  import opened Discipline

  // ---- When the first send is disciplined ----

  /** The step is of an operation on c, or of c's destruction. */
  predicate Touches(a: Step, c: nat) {
    match a
    case Drain(p) => p == c
    case Begin(p, _, _, _) => p == c
    case Block(p) => p == c
    case End(p) => p == c
    case Release(p, _) => p == c
    case Close(p) => p == c
    case _ => false
  }

  /** Up to the end of its first receive, a socket sees only this. */
  predicate OnlyReceives(a: Step, c: nat) {
    !Touches(a, c) || a.Drain? || a.Block? || (a.Begin? && a.d == In && a.watch)
  }

  ghost predicate HasPass(steps: seq<Step>) {
    exists a :: a in steps && a.Reconcile?
  }

  /** What concerns the masks of c is the same in both states. */
  ghost predicate SameMasks(s: Loop, t: Loop, c: nat) {
    && c in s.heap && c in t.heap && (c in t.ops <==> c in s.ops) && (c in t.processed <==> c in s.processed)
    && t.heap[c].ioState == s.heap[c].ioState && t.heap[c].ioNewState == s.heap[c].ioNewState
  }

  lemma DispatchLeavesMasks(s: Loop, c: nat)
    requires Invariant(s) && Allowed(s, Next) && c in s.heap
    ensures SameMasks(s, Apply(s, Next), c)
  {
    NextIsDispatched(s);
  }

  lemma OthersLeaveMasks(s: Loop, a: Step, c: nat)
    requires Invariant(s) && Allowed(s, a) && c in s.heap && !Touches(a, c) && !a.Reconcile? && !a.Next?
    ensures SameMasks(s, Apply(s, a), c)
  {
  }

  lemma StepLeavesMasks(s: Loop, a: Step, c: nat)
    requires Invariant(s) && Allowed(s, a) && c in s.heap && !Touches(a, c) && !a.Reconcile?
    ensures SameMasks(s, Apply(s, a), c)
  {
    if a.Next? {
      DispatchLeavesMasks(s, c);
    } else {
      OthersLeaveMasks(s, a, c);
    }
  }

  lemma PassAppliesMasks(s: Loop, order: seq<nat>, c: nat)
    requires Invariant(s) && Allowed(s, Reconcile(order)) && c in s.heap
    ensures var t := Apply(s, Reconcile(order));
      && c in t.heap && (c in t.ops <==> c in s.ops) && (c in t.processed <==> c in s.processed)
      && t.heap[c].ioNewState == s.heap[c].ioNewState
      && t.heap[c].ioState == if c in s.processed then s.heap[c].ioNewState else s.heap[c].ioState
  {
    PassReconciles(s, order);
    PassKeepsRequests(s, order);
  }

  /** After its receive has ended, c waits for its read bit to be taken away by a pass. */
  ghost predicate Received(s: Loop, c: nat) {
    c in s.heap && c !in s.ops && c in s.processed && !Has(s.heap[c].ioNewState, In)
  }

  lemma {:induction false} ReadBitStaysUntilAPass(s: Loop, steps: seq<Step>, c: nat)
    requires Invariant(s) && ValidRun(s, steps) && Received(s, c)
    requires forall a | a in steps :: !Touches(a, c)
    ensures var t := Run(s, steps);
      Received(t, c) && (Has(t.heap[c].ioState, In) <==> Has(s.heap[c].ioState, In) && !HasPass(steps))
    decreases steps
  {
    if steps != [] {
      var a, t := steps[0], Apply(s, steps[0]);
      assert steps == [a] + steps[1..];
      if a.Reconcile? {
        PassAppliesMasks(s, a.order, c);
      } else {
        StepLeavesMasks(s, a, c);
      }
      StepKeeps(s, a);
      ReadBitStaysUntilAPass(t, steps[1..], c);
      assert HasPass(steps) <==> a.Reconcile? || HasPass(steps[1..]);
    }
  }

  /** A socket that has only received still has the mask that attach gave it. */
  ghost predicate StillAttached(s: Loop, c: nat) {
    && c in s.heap && s.heap[c].ioState == AttachMask(In)
    && (c in s.processed ==> s.heap[c].ioNewState == AttachMask(In))
    && (c in s.ops ==> s.ops[c].dir == In)
  }

  lemma DispatchKeepsDirections(s: Loop, c: nat)
    requires Invariant(s) && Allowed(s, Next) && c in s.ops
    ensures c in Apply(s, Next).ops && Apply(s, Next).ops[c].dir == s.ops[c].dir
  {
    NextIsDispatched(s);
  }

  lemma ReturnKeepsDirections(s: Loop, c: nat)
    requires Invariant(s) && Allowed(s, Return) && c in s.ops
    ensures Apply(s, Return).ops == s.ops
  {
  }

  lemma StepKeepsDirections(s: Loop, a: Step, c: nat)
    requires Invariant(s) && Allowed(s, a) && !Touches(a, c) && c in s.ops && !a.Reconcile? && !a.Next?
    ensures c in Apply(s, a).ops && Apply(s, a).ops[c].dir == s.ops[c].dir
  {
    if a.Return? {
      ReturnKeepsDirections(s, c);
    }
  }

  lemma ReceiveKeepsMask(s: Loop, a: Step, c: nat)
    requires Invariant(s) && Allowed(s, a) && StillAttached(s, c) && OnlyReceives(a, c)
    ensures StillAttached(Apply(s, a), c)
  {
    if a.Reconcile? {
      PassAppliesMasks(s, a.order, c);
      PassReconciles(s, a.order);
    } else if !Touches(a, c) {
      StepLeavesMasks(s, a, c);
      if c in s.ops {
        if a.Next? {
          DispatchKeepsDirections(s, c);
        } else {
          StepKeepsDirections(s, a, c);
        }
      }
    }
  }

  lemma {:induction false} ReceivesKeepMask(s: Loop, steps: seq<Step>, c: nat)
    requires Invariant(s) && ValidRun(s, steps) && StillAttached(s, c)
    requires forall a | a in steps :: OnlyReceives(a, c)
    ensures StillAttached(Run(s, steps), c) && Invariant(Run(s, steps))
    decreases steps
  {
    if steps != [] {
      ReceiveKeepsMask(s, steps[0], c);
      StepKeeps(s, steps[0]);
      ReceivesKeepMask(Apply(s, steps[0]), steps[1..], c);
    }
  }

  lemma OpenAttaches(s: Loop, c: nat, f: nat)
    requires Invariant(s) && Allowed(s, Open(c, f, In))
    ensures StillAttached(Apply(s, Open(c, f, In)), c) && Invariant(Apply(s, Open(c, f, In)))
  {
    StepKeeps(s, Open(c, f, In));
    assert c !in s.processed && c !in s.ops;
  }

  lemma EndLeavesRequest(s: Loop, c: nat)
    requires Invariant(s) && StillAttached(s, c) && Allowed(s, End(c))
    ensures var t := Apply(s, End(c)); Invariant(t) && Received(t, c) && Has(t.heap[c].ioState, In)
  {
    StepKeeps(s, End(c));
  }

  /** The discipline of a session. The accepted socket c is opened; it receives; the receive ends; and
      `rest` happens, to the session's pipes and to anybody else, before the session begins to send.
      That send is disciplined if and only if a reconcile pass lies between. */
  lemma SendIsDisciplinedIff(before: seq<Step>, c: nat, f: nat, receive: seq<Step>, rest: seq<Step>)
    requires ValidRun(Start, before) && Allowed(Run(Start, before), Open(c, f, In))
    requires var s := Apply(Run(Start, before), Open(c, f, In));
      && ValidRun(s, receive) && (forall a | a in receive :: OnlyReceives(a, c))
      && Allowed(Run(s, receive), End(c)) && ValidRun(Apply(Run(s, receive), End(c)), rest)
      && (forall a | a in rest :: !Touches(a, c))
    ensures var s := Apply(Run(Start, before), Open(c, f, In));
      var t := Run(Apply(Run(s, receive), End(c)), rest);
      Disciplined(t, c, Out, true) <==> HasPass(rest)
  {
    StartIsSafe();
    RunKeeps(Start, before);
    OpenAttaches(Run(Start, before), c, f);
    var s := Apply(Run(Start, before), Open(c, f, In));
    ReceivesKeepMask(s, receive, c);
    var u := Run(s, receive);
    EndLeavesRequest(u, c);
    ReadBitStaysUntilAPass(Apply(u, End(c)), rest, c);
  }

  // ---- Passes and turns ----

  lemma {:induction false} NoPassNoTurn(s: Loop, steps: seq<Step>)
    requires ValidRun(s, steps) && (s.phase.Running? || s.phase.Dispatching?) && !HasPass(steps)
    ensures Run(s, steps).turn == s.turn && (Run(s, steps).phase.Running? || Run(s, steps).phase.Dispatching?)
    decreases steps
  {
    if steps != [] {
      StepWithoutPass(s, steps[0]);
      assert steps == [steps[0]] + steps[1..];
      NoPassNoTurn(Apply(s, steps[0]), steps[1..]);
    }
  }

  lemma SendHalfWithoutPass(s: Loop, p: nat)
    requires s.phase.Dispatching? || s.phase.Running?
    ensures var t := SendHalf(s, p); t.turn == s.turn && (t.phase.Running? || t.phase.Dispatching?)
  {
  }

  lemma DispatchWithoutPass(s: Loop)
    requires s.phase.Dispatching?
    ensures Dispatch(s).turn == s.turn && (Dispatch(s).phase.Running? || Dispatch(s).phase.Dispatching?)
  {
    if s.batch != [] {
      SendHalfWithoutPass(s.(batch := s.batch[1..]), s.batch[0].ptr);
    }
  }

  lemma StepWithoutPass(s: Loop, a: Step)
    requires Allowed(s, a) && (s.phase.Running? || s.phase.Dispatching?) && !a.Reconcile?
    ensures Apply(s, a).turn == s.turn && (Apply(s, a).phase.Running? || Apply(s, a).phase.Dispatching?)
  {
    if a.Next? {
      DispatchWithoutPass(s);
    }
  }

  lemma {:induction false} PassKeepsTurn(s: Loop, order: seq<nat>)
    ensures Pass(s, order).turn == s.turn && Pass(s, order).phase == s.phase
    decreases order
  {
    if order != [] {
      PassKeepsTurn(Modify(s, order[0]), order[1..]);
    }
  }

  lemma StepAndTurn(s: Loop, a: Step)
    requires Allowed(s, a)
    ensures Apply(s, a).turn == s.turn + (if a.Wait? then 1 else 0)
    ensures s.phase.Idle? && !a.Wait? ==> Apply(s, a).phase.Idle?
    ensures a.Reconcile? ==> Apply(s, a).phase.Idle?
  {
    if a.Reconcile? {
      PassKeepsTurn(s, a.order);
    }
  }

  lemma {:induction false} TurnsGrow(s: Loop, steps: seq<Step>)
    requires ValidRun(s, steps)
    ensures Run(s, steps).turn >= s.turn
    ensures s.phase.Idle? && !Run(s, steps).phase.Idle? ==> Run(s, steps).turn > s.turn
    decreases steps
  {
    if steps != [] {
      StepAndTurn(s, steps[0]);
      TurnsGrow(Apply(s, steps[0]), steps[1..]);
    }
  }

  lemma {:induction false} PassThenTurn(s: Loop, steps: seq<Step>)
    requires ValidRun(s, steps) && HasPass(steps) && Run(s, steps).phase.Running?
    ensures Run(s, steps).turn > s.turn
    decreases steps
  {
    StepAndTurn(s, steps[0]);
    if steps[0].Reconcile? {
      TurnsGrow(Apply(s, steps[0]), steps[1..]);
    } else {
      assert steps == [steps[0]] + steps[1..];
      PassThenTurn(Apply(s, steps[0]), steps[1..]);
    }
  }

  /** A pass lies between two moments at which coroutines run if and only if they are in different
      turns: a session that goes on in the turn of its receive, because no operation suspended or
      because events harvested earlier woke it, has had no pass. */
  lemma PassMeansLaterTurn(s: Loop, steps: seq<Step>)
    requires ValidRun(s, steps) && s.phase.Running? && Run(s, steps).phase.Running?
    ensures HasPass(steps) <==> Run(s, steps).turn > s.turn
  {
    if HasPass(steps) {
      PassThenTurn(s, steps);
    } else {
      NoPassNoTurn(s, steps);
    }
  }

  /** In terms of turns: the first send of a session that runs in the loop is disciplined if and only
      if it begins in a later turn than that in which the receive ended, so not if no operation in
      between suspends, nor if events harvested earlier wake those that do. */
  lemma SendIsDisciplinedInALaterTurn(before: seq<Step>, c: nat, f: nat, receive: seq<Step>, rest: seq<Step>)
    requires ValidRun(Start, before) && Allowed(Run(Start, before), Open(c, f, In))
    requires var s := Apply(Run(Start, before), Open(c, f, In));
      && ValidRun(s, receive) && (forall a | a in receive :: OnlyReceives(a, c))
      && Allowed(Run(s, receive), End(c)) && ValidRun(Apply(Run(s, receive), End(c)), rest)
      && (forall a | a in rest :: !Touches(a, c))
      && Run(s, receive).phase.Running? && Run(Apply(Run(s, receive), End(c)), rest).phase.Running?
    ensures var s := Apply(Run(Start, before), Open(c, f, In));
      var t := Run(Apply(Run(s, receive), End(c)), rest);
      Disciplined(t, c, Out, true) <==> t.turn > Run(s, receive).turn
  {
    SendIsDisciplinedIff(before, c, f, receive, rest);
    var s := Apply(Run(Start, before), Open(c, f, In));
    PassMeansLaterTurn(Apply(Run(s, receive), End(c)), rest);
  }

  // ---- A session that breaks the discipline ----

  const CO: nat := 7
  const Readable := Silent.(rd := true)
  const Writable := Silent.(wr := true)
  const Blank := Mask(false, false, true)

  /** The accepted socket is descriptor 1 on file 10; the read end is descriptor 2 on file 11, the write
      end descriptor 3 on file 14, and the pidfd descriptor 4 on file 15. The child has files 12 and 13.
      The client connects and sends its request, the receive suspends, is resumed and ends. */
  const Receiving: seq<Step> :=
    [NewFile(10, Silent), Open(1, 10, In)] + ([Begin(1, In, CO, true), Block(1)] + ([Return] +
    ([Step.Arrive(10, In), Wait(1)] + ([Next, Step.Drain(1)] + [End(1)]))))

  /** init: the pipes, the parent's ends, the fork, and the child's ends. */
  const Spawning: seq<Step> :=
    [NewFile(13, Silent), NewFile(14, Writable)] + ([NewFile(11, Silent), NewFile(12, Writable)] +
    ([Open(2, 11, In)] + ([Open(3, 14, Out)] +
    ([NewFile(15, Silent)] + ([Open(4, 15, In)] + [BareClose(13), BareClose(12)])))))

  /** The request fits the pipe, and the write end goes. */
  const Writing: seq<Step> := [Begin(3, Out, CO, true), End(3)] + ([Release(3, Out)] + [Close(3)])

  /** A read that finds output at once. */
  const OneRead: seq<Step> := [Step.Arrive(11, In)] + ([Begin(2, In, CO, true), Step.Drain(2)] + [End(2)])

  function Reading(n: nat): seq<Step> {
    if n == 0 then [] else Reading(n - 1) + OneRead
  }

  const FinishingReads: seq<Step> := [Release(2, In)] + [Close(2)]

  /** A session of n reads, up to its first send. */
  function BeforeSend(n: nat): seq<Step> {
    Receiving + (Spawning + (Writing + (Reading(n) + FinishingReads)))
  }

  /** The send: the only step that the discipline refuses. */
  const Send := Begin(1, Out, CO, true)

  /** The send succeeds; the child is alive, so the wait kills it and suspends; and the turn ends. */
  const AfterSend: seq<Step> := [End(1)] + ([Begin(4, In, CO, false), Block(4)] + ([Return] + [Reconcile([1])]))

  // ---- Steps on any state ----

  lemma KeysOfUpdate(heap: map<nat, Descriptor>, p: nat, x: Descriptor)
    ensures heap[p := x].Keys == heap.Keys + {p} && (heap - {p}).Keys == heap.Keys - {p}
  {
  }

  /** The session has the thread, in the first turn, and no operation outstanding. */
  function Between(k: Kernel, heap: map<nat, Descriptor>, processed: set<nat>): Loop {
    Loop(k, heap, heap.Keys, processed, [], Running(None), map[], 1, false)
  }

  /** Only p's requested mask and its place among the processed differ. */
  function Requested(s: Loop, p: nat, m: Mask): Loop
    requires p in s.heap
  {
    s.(heap := s.heap[p := s.heap[p].(ioNewState := m)], processed := s.processed + {p})
  }

  lemma OpenOne(s: Loop, p: nat, f: nat, d: Direction)
    requires s == Between(s.k, s.heap, s.processed) && p !in s.heap && f in s.k.poll && f !in s.k.interest
    requires s.k.poll[f] == (if d == In then Silent else Writable) && f !in s.k.ready
    ensures Leads(s, [Open(p, f, d)],
      Between(s.k.(interest := s.k.interest[f := Registration(p, AttachMask(d))],
                   ready := s.k.ready + (if d == In then [] else [f])),
              s.heap[p := Descriptor(f, AttachMask(d), NoEvents, None, None, false)], s.processed))
  {
    KeysOfUpdate(s.heap, p, Descriptor(f, AttachMask(d), NoEvents, None, None, false));
    OneStep(s, Open(p, f, d));
  }

  lemma CloseOne(s: Loop, p: nat)
    requires s == Between(s.k, s.heap, s.processed) && p in s.heap && s.heap[p].fd in s.k.poll
    requires s.k.ready == [s.heap[p].fd]
    ensures var f := s.heap[p].fd;
      Leads(s, [Close(p)], Between(Kernel(s.k.poll - {f}, s.k.interest - {f}, []), s.heap - {p}, s.processed - {p}))
  {
    var f := s.heap[p].fd;
    KeysOfUpdate(s.heap, p, s.heap[p]);
    assert [f][1..] == [] && Remove([f], f) == Remove([f][1..], f);
    OneStep(s, Close(p));
  }

  lemma OpenTwoFiles(s: Loop, rd: nat, wr: nat)
    requires s.phase.Running? && rd !in s.k.poll && wr !in s.k.poll && rd != wr
    ensures Leads(s, [NewFile(rd, Silent), NewFile(wr, Writable)],
                  s.(k := s.k.(poll := s.k.poll[rd := Silent][wr := Writable])))
  {
    TwoSteps(s, NewFile(rd, Silent), NewFile(wr, Writable));
  }

  /** A write that does not suspend: it leaves the request to take its bit away. */
  lemma WriteOne(s: Loop, p: nat)
    requires s.phase.Running? && s.ops == map[] && p in s.heap && !Has(s.heap[p].ioState, In)
    ensures Leads(s, [Begin(p, Out, CO, true), End(p)], Requested(s, p, Without(s.heap[p].ioState, Out)))
  {
    assert map[p := Operation(Out, CO, Trying, 0)] - {p} == map[];
    TwoSteps(s, Begin(p, Out, CO, true), End(p));
  }

  /** A read that does not suspend uses up what there was. */
  lemma ReadOne(s: Loop, p: nat)
    requires s.phase.Running? && s.ops == map[] && p in s.heap && s.heap[p].fd in s.k.poll
    requires !Has(s.heap[p].ioState, Out)
    ensures Leads(s, [Begin(p, In, CO, true), Step.Drain(p)] + [End(p)],
                  Requested(s, p, Without(s.heap[p].ioState, In)).(k := Epoll.Drain(s.k, s.heap[p].fd, In)))
  {
    var t := Apply(Apply(s, Begin(p, In, CO, true)), Step.Drain(p));
    TwoSteps(s, Begin(p, In, CO, true), Step.Drain(p));
    assert t.ops - {p} == map[];
    OneStep(t, End(p));
    LeadsOn(s, [Begin(p, In, CO, true), Step.Drain(p)], t, [End(p)], Apply(t, End(p)));
  }

  lemma ReleaseOne(s: Loop, p: nat, d: Direction)
    requires s.phase.Running? && s.ops == map[] && p in s.heap && !Has(s.heap[p].ioState, Other(d))
    ensures Leads(s, [Release(p, d)], Requested(s, p, Without(s.heap[p].ioState, d)))
  {
    OneStep(s, Release(p, d));
  }

  /** An operation that registers nothing itself, and suspends. */
  lemma SuspendOne(s: Loop, p: nat)
    requires s.phase.Running? && s.ops == map[] && p in s.heap && s.heap[p].ioState == InMask
    requires p !in s.processed && s.heap[p].fd in s.k.poll && s.k.poll[s.heap[p].fd] == Silent
    ensures Leads(s, [Begin(p, In, CO, false), Block(p)],
      s.(heap := s.heap[p := s.heap[p].(coroRecv := Some(CO))], ops := map[p := Operation(In, CO, Suspended, s.turn)]))
  {
    var t := Apply(s, Begin(p, In, CO, false));
    assert t.ops[p := Operation(In, CO, Suspended, s.turn)] == map[p := Operation(In, CO, Suspended, s.turn)];
    TwoSteps(s, Begin(p, In, CO, false), Block(p));
  }

  /** The session suspends and the thread goes back to the loop. */
  lemma ThreadReturns(s: Loop)
    requires AllSuspended(s) && (s.phase.Boot? || s.phase == Running(None))
    ensures Leads(s, [Return], s.(phase := if s.phase.Boot? then Idle else Dispatching))
  {
    OneStep(s, Return);
  }

  lemma OneEvent(k: Kernel, f: nat)
    requires Fires(k, f)
    ensures Events(k, [f]) == [EventOf(k, f)]
  {
    assert Events(k, [f][1..]) == [];
  }

  /** Data arrives for a descriptor that is registered for it, and is harvested. */
  lemma ReportOne(s: Loop, c: nat, f: nat)
    requires s.phase.Idle? && s.k.ready == [] && f in s.k.poll && s.k.poll[f] == Silent
    requires f in s.k.interest && s.k.interest[f] == Registration(c, InMask)
    ensures Leads(s, [Step.Arrive(f, In), Wait(1)],
      s.(k := s.k.(poll := s.k.poll[f := Readable]), batch := [Event(c, true, false, false)],
         phase := Dispatching, turn := s.turn + 1))
  {
    var t := Apply(s, Step.Arrive(f, In));
    assert t.k.ready == [f] && t.k.ready[..1] == [f] && t.k.ready[1..] == [];
    OneEvent(t.k, f);
    TwoSteps(s, Step.Arrive(f, In), Wait(1));
  }

  // ---- The states of the session ----

  const Socket := Descriptor(10, InMask, NoEvents, None, None, false)
  const Client := Descriptor(10, InMask, Blank, Some(CO), None, false)
  const ReadEnd := Descriptor(11, InMask, NoEvents, None, None, false)
  const WriteEnd := Descriptor(14, OutMask, NoEvents, None, None, false)
  const PidFd := Descriptor(15, InMask, NoEvents, None, None, false)

  const SocketKernel := Kernel(map[10 := Silent], map[10 := Registration(1, InMask)], [])

  const Attached := Loop(SocketKernel, map[1 := Socket], {1}, {}, [], Boot, map[], 0, false)
  const Suspending := Loop(
    SocketKernel, map[1 := Client.(ioNewState := InMask)], {1}, {1}, [], Boot,
    map[1 := Operation(In, CO, Suspended, 0)], 0, false)
  const Reported := Suspending.(
    k := SocketKernel.(poll := map[10 := Readable]), batch := [Event(1, true, false, false)],
    phase := Dispatching, turn := 1)
  const Drained := Suspending.(phase := Running(None), ops := map[1 := Operation(In, CO, Retrying, 0)], turn := 1)
  const ReceiveEnded := Between(SocketKernel, map[1 := Client], {1})

  lemma SocketOpens()
    ensures Leads(Start, [NewFile(10, Silent), Open(1, 10, In)], Attached)
  {
    TwoSteps(Start, NewFile(10, Silent), Open(1, 10, In));
    assert Apply(Apply(Start, NewFile(10, Silent)), Open(1, 10, In)) == Attached;
  }

  lemma ReceiveSuspends()
    ensures Leads(Attached, [Begin(1, In, CO, true), Block(1)], Suspending)
  {
    TwoSteps(Attached, Begin(1, In, CO, true), Block(1));
    assert Apply(Apply(Attached, Begin(1, In, CO, true)), Block(1)) == Suspending;
  }

  lemma ReceiveIsReported()
    ensures Leads(Suspending.(phase := Idle), [Step.Arrive(10, In), Wait(1)], Reported)
  {
    ReportOne(Suspending.(phase := Idle), 1, 10);
    assert SocketKernel.poll[10 := Readable] == map[10 := Readable];
  }

  lemma ReceiveRetries()
    ensures Leads(Reported, [Next, Step.Drain(1)], Drained)
  {
    TwoSteps(Reported, Next, Step.Drain(1));
    assert Apply(Apply(Reported, Next), Step.Drain(1)) == Drained;
  }

  lemma ReceiveEnds()
    ensures Leads(Drained, [End(1)], ReceiveEnded)
  {
    OneStep(Drained, End(1));
    assert Apply(Drained, End(1)) == ReceiveEnded;
  }

  lemma Receives()
    ensures Leads(Start, Receiving, ReceiveEnded)
  {
    ReceiveRetries();
    ReceiveEnds();
    LeadsOn(Reported, [Next, Step.Drain(1)], Drained, [End(1)], ReceiveEnded);
    ReceiveIsReported();
    LeadsOn(Suspending.(phase := Idle), [Step.Arrive(10, In), Wait(1)], Reported,
            [Next, Step.Drain(1)] + [End(1)], ReceiveEnded);
    StartsReceiving([Step.Arrive(10, In), Wait(1)] + ([Next, Step.Drain(1)] + [End(1)]), ReceiveEnded);
  }

  lemma StartsReceiving(rest: seq<Step>, t: Loop)
    requires Leads(Suspending.(phase := Idle), rest, t)
    ensures Leads(Start, [NewFile(10, Silent), Open(1, 10, In)] +
                         ([Begin(1, In, CO, true), Block(1)] + ([Return] + rest)), t)
  {
    ThreadReturns(Suspending);
    LeadsOn(Suspending, [Return], Suspending.(phase := Idle), rest, t);
    ReceiveSuspends();
    LeadsOn(Attached, [Begin(1, In, CO, true), Block(1)], Suspending, [Return] + rest, t);
    SocketOpens();
    LeadsOn(Start, [NewFile(10, Silent), Open(1, 10, In)], Attached,
            [Begin(1, In, CO, true), Block(1)] + ([Return] + rest), t);
  }

  const PipesPoll := SocketKernel.poll[13 := Silent][14 := Writable][11 := Silent][12 := Writable]
  const PipesOpen := Between(SocketKernel.(poll := PipesPoll), map[1 := Client], {1})

  lemma PipesOpened(rest: seq<Step>, t: Loop)
    requires Leads(PipesOpen, rest, t)
    ensures Leads(ReceiveEnded, [NewFile(13, Silent), NewFile(14, Writable)] +
                                ([NewFile(11, Silent), NewFile(12, Writable)] + rest), t)
  {
    OpenTwoFiles(ReceiveEnded, 13, 14);
    var s := ReceiveEnded.(k := SocketKernel.(poll := SocketKernel.poll[13 := Silent][14 := Writable]));
    OpenTwoFiles(s, 11, 12);
    LeadsOn(s, [NewFile(11, Silent), NewFile(12, Writable)], PipesOpen, rest, t);
    LeadsOn(ReceiveEnded, [NewFile(13, Silent), NewFile(14, Writable)], s,
            [NewFile(11, Silent), NewFile(12, Writable)] + rest, t);
  }

  const EndsInterest :=
    SocketKernel.interest[11 := Registration(2, InMask)][14 := Registration(3, OutMask)]
  const EndsHeap := map[1 := Client][2 := ReadEnd][3 := WriteEnd]
  const EndsAttached := Between(Kernel(PipesPoll, EndsInterest, [14]), EndsHeap, {1})

  lemma AttachesEnds(rest: seq<Step>, t: Loop)
    requires Leads(EndsAttached, rest, t)
    ensures Leads(PipesOpen, [Open(2, 11, In)] + ([Open(3, 14, Out)] + rest), t)
  {
    OpenOne(PipesOpen, 2, 11, In);
    var s := Between(Kernel(PipesPoll, SocketKernel.interest[11 := Registration(2, InMask)], []),
                     map[1 := Client][2 := ReadEnd], {1});
    OpenOne(s, 3, 14, Out);
    LeadsOn(s, [Open(3, 14, Out)], EndsAttached, rest, t);
    LeadsOn(PipesOpen, [Open(2, 11, In)], s, [Open(3, 14, Out)] + rest, t);
  }

  const StartedPoll := PipesPoll[15 := Silent] - {13} - {12}
  const StartedInterest := EndsInterest[15 := Registration(4, InMask)]
  const StartedHeap := EndsHeap[4 := PidFd]
  const Started := Between(Kernel(StartedPoll, StartedInterest, [14]), StartedHeap, {1})
  const Watched := Between(Kernel(PipesPoll[15 := Silent], StartedInterest, [14]), StartedHeap, {1})

  lemma ClosesChildEnds()
    ensures Leads(Watched, [BareClose(13), BareClose(12)], Started)
  {
    TwoSteps(Watched, BareClose(13), BareClose(12));
  }

  lemma OpensPidFd()
    ensures Leads(EndsAttached, [NewFile(15, Silent)] + ([Open(4, 15, In)] + [BareClose(13), BareClose(12)]), Started)
  {
    OneStep(EndsAttached, NewFile(15, Silent));
    var s := Apply(EndsAttached, NewFile(15, Silent));
    OpenOne(s, 4, 15, In);
    ClosesChildEnds();
    LeadsOn(s, [Open(4, 15, In)], Watched, [BareClose(13), BareClose(12)], Started);
    LeadsOn(EndsAttached, [NewFile(15, Silent)], s, [Open(4, 15, In)] + [BareClose(13), BareClose(12)], Started);
  }

  lemma Spawns()
    ensures Leads(ReceiveEnded, Spawning, Started)
  {
    var last := [NewFile(15, Silent)] + ([Open(4, 15, In)] + [BareClose(13), BareClose(12)]);
    OpensPidFd();
    AttachesEnds(last, Started);
    PipesOpened([Open(2, 11, In)] + ([Open(3, 14, Out)] + last), Started);
  }

  const WrittenHeap := StartedHeap[3 := WriteEnd.(ioNewState := Blank)]
  const Written := Between(Started.k, WrittenHeap, {1} + {3})
  const ReadingKernel := Kernel(StartedPoll - {14}, StartedInterest - {14}, [])
  const ReadingHeap := StartedHeap - {3}
  const ToRead := Between(ReadingKernel, ReadingHeap, {1})

  lemma WriteEnds()
    ensures Leads(Started, [Begin(3, Out, CO, true), End(3)], Written) && Leads(Written, [Release(3, Out)], Written)
  {
    KeysOfUpdate(StartedHeap, 3, WriteEnd.(ioNewState := Blank));
    assert StartedHeap.Keys + {3} == StartedHeap.Keys;
    WriteOne(Started, 3);
    ReleaseOne(Written, 3, Out);
    assert WrittenHeap[3 := WriteEnd.(ioNewState := Blank)] == WrittenHeap && {1} + {3} + {3} == {1} + {3};
  }

  lemma Writes()
    ensures Leads(Started, Writing, ToRead)
  {
    WriteEnds();
    CloseOne(Written, 3);
    assert WrittenHeap - {3} == ReadingHeap && {1} + {3} - {3} == {1};
    LeadsOn(Written, [Release(3, Out)], Written, [Close(3)], ToRead);
    LeadsOn(Started, [Begin(3, Out, CO, true), End(3)], Written, [Release(3, Out)] + [Close(3)], ToRead);
  }

  const ReadKernel := ReadingKernel.(ready := [11])
  const ReadHeap := ReadingHeap[2 := ReadEnd.(ioNewState := Blank)]
  const HasRead := Between(ReadKernel, ReadHeap, {1, 2})

  lemma ReadEndStands(heap: map<nat, Descriptor>, processed: set<nat>)
    requires heap in {ReadingHeap, ReadHeap} && processed in {{1}, {1, 2}}
    ensures 2 in heap && heap[2].fd == 11 && heap[2].ioState == InMask && 11 in ReadKernel.poll
    ensures heap[2 := heap[2].(ioNewState := Blank)] == ReadHeap && heap.Keys == ReadHeap.Keys
    ensures processed + {2} == {1, 2} && ReadKernel.poll[11 := Readable][11 := Silent] == ReadKernel.poll
  {
    KeysOfUpdate(ReadingHeap, 2, ReadEnd.(ioNewState := Blank));
    assert ReadingHeap.Keys + {2} == ReadingHeap.Keys;
  }

  lemma OutputArrives(s: Loop)
    requires s == ToRead || s == HasRead
    ensures Leads(s, [Step.Arrive(11, In)], s.(k := ReadKernel.(poll := ReadKernel.poll[11 := Readable])))
  {
    OneStep(s, Step.Arrive(11, In));
  }

  /** Every read leaves the same state, the first as well as the others. */
  lemma ReadsOnce(s: Loop)
    requires s == ToRead || s == HasRead
    ensures Leads(s, OneRead, HasRead)
  {
    OutputArrives(s);
    var t := s.(k := ReadKernel.(poll := ReadKernel.poll[11 := Readable]));
    ReadEndStands(s.heap, s.processed);
    ReadOne(t, 2);
    LeadsOn(s, [Step.Arrive(11, In)], t, [Begin(2, In, CO, true), Step.Drain(2)] + [End(2)], HasRead);
  }

  lemma {:induction false} Reads(n: nat)
    requires n > 0
    ensures Leads(ToRead, Reading(n), HasRead)
  {
    if n == 1 {
      ReadsOnce(ToRead);
      assert [] + OneRead == OneRead;
      assert Reading(1) == Reading(0) + OneRead;
    } else {
      Reads(n - 1);
      ReadsOnce(HasRead);
      LeadsOn(ToRead, Reading(n - 1), HasRead, OneRead, HasRead);
    }
  }

  const WaitKernel := Kernel(ReadingKernel.poll - {11}, ReadingKernel.interest - {11}, [])
  const WaitHeap := ReadHeap - {2}
  const ToSend := Between(WaitKernel, WaitHeap, {1})

  lemma FinishesReading()
    ensures Leads(HasRead, FinishingReads, ToSend)
  {
    ReadEndStands(ReadHeap, {1, 2});
    ReleaseOne(HasRead, 2, In);
    CloseOne(HasRead, 2);
    assert {1, 2} - {2} == {1};
    LeadsOn(HasRead, [Release(2, In)], HasRead, [Close(2)], ToSend);
  }

  lemma ReachesSend(n: nat)
    requires n > 0
    ensures Leads(Start, BeforeSend(n), ToSend)
  {
    Reads(n);
    FinishesReading();
    LeadsOn(ToRead, Reading(n), HasRead, FinishingReads, ToSend);
    Writes();
    LeadsOn(Started, Writing, ToRead, Reading(n) + FinishingReads, ToSend);
    Spawns();
    LeadsOn(ReceiveEnded, Spawning, Started, Writing + (Reading(n) + FinishingReads), ToSend);
    Receives();
    LeadsOn(Start, Receiving, ReceiveEnded, Spawning + (Writing + (Reading(n) + FinishingReads)), ToSend);
  }

  const AnsweredHeap := WaitHeap[1 := Client.(ioNewState := InMask)]
  const Answered := Between(WaitKernel, AnsweredHeap, {1})

  lemma WaitHeapStands()
    ensures WaitHeap.Keys == {1, 4} && WaitHeap[1] == Client && WaitHeap[4] == PidFd
  {
  }

  lemma WaitKernelStands()
    ensures WaitKernel.poll == map[10 := Silent, 15 := Silent]
    ensures WaitKernel.interest == map[10 := Registration(1, InMask), 15 := Registration(4, InMask)]
  {
  }

  lemma SendIsRefused()
    ensures AllowedWithoutMasks(ToSend, Send) && !Allowed(ToSend, Send)
    ensures Leads(Apply(ToSend, Send), [End(1)], Answered)
  {
    WaitHeapStands();
    var t := Apply(ToSend, Send);
    assert t.ops - {1} == map[];
    OneStep(t, End(1));
    assert Apply(t, End(1)).heap == AnsweredHeap && AnsweredHeap.Keys == WaitHeap.Keys && {1} + {1} + {1} == {1};
  }

  /** The session is suspended in its wait for the child, and the loop is in epoll_wait. */
  const Waiting := Answered.(
    heap := AnsweredHeap[4 := PidFd.(coroRecv := Some(CO))],
    ops := map[4 := Operation(In, CO, Suspended, 1)], phase := Idle)

  lemma WaitSuspends()
    ensures Leads(Answered, [Begin(4, In, CO, false), Block(4)], Waiting.(phase := Running(None)))
  {
    WaitHeapStands();
    WaitKernelStands();
    SuspendOne(Answered, 4);
  }

  /** The pass finds nothing to do: the session's last request was computed from the applied mask. */
  lemma TurnEnds()
    ensures Leads(Waiting.(phase := Dispatching), [Reconcile([1])], Waiting)
  {
    var s := Waiting.(phase := Dispatching);
    WaitHeapStands();
    assert Modify(s, 1) == s;
    assert [1][1..] == [] && Pass(s, [1]) == Pass(Modify(s, 1), []);
    OneStep(s, Reconcile([1]));
  }

  lemma ReachesWait()
    ensures Leads(Apply(ToSend, Send), AfterSend, Waiting)
  {
    SendIsRefused();
    WaitSuspends();
    ThreadReturns(Waiting.(phase := Running(None)));
    TurnEnds();
    LeadsOn(Waiting.(phase := Running(None)), [Return], Waiting.(phase := Dispatching), [Reconcile([1])], Waiting);
    LeadsOn(Answered, [Begin(4, In, CO, false), Block(4)], Waiting.(phase := Running(None)),
            [Return] + [Reconcile([1])], Waiting);
    LeadsOn(Apply(ToSend, Send), [End(1)], Answered,
            [Begin(4, In, CO, false), Block(4)] + ([Return] + [Reconcile([1])]), Waiting);
  }

  /** The loop is about to dispatch an event that the client caused, to a socket whose slot is stale:
      nothing is outstanding there, and the coroutine in the slot is suspended on another descriptor. */
  ghost predicate AboutToMisdirect(s: Loop) {
    && Allowed(s, Next) && !s.fault && s.batch == [Event(1, true, false, false)]
    && 1 in s.managed && 1 in s.heap && 1 !in s.ops && Slot(s.heap[1], In) == Some(CO)
    && SuspendedOn(s, 4, In) && s.ops[4].co == CO
  }

  /** The discipline is needed, and a session can break it. Take any number of reads n > 0 that all find
      output at once: up to its send the session keeps the discipline; the send is a step that only the
      clause on masks refuses, because the read bit is still applied; after it, the session is
      suspended in its wait for the child. When the client sends another byte or closes its end, the
      event finds the slot of the receive still set, and the loop resumes the session's coroutine there
      although it is suspended on the pidfd. */
  lemma StaleSlotInASession(n: nat)
    requires n > 0
    ensures ValidRun(Start, BeforeSend(n))
    ensures var s := Run(Start, BeforeSend(n));
      && AllowedWithoutMasks(s, Send) && !Allowed(s, Send) && Has(s.heap[1].ioState, In)
      && ValidRun(Apply(s, Send), AfterSend)
    ensures var w := Run(Apply(Run(Start, BeforeSend(n)), Send), AfterSend);
      && w.phase.Idle? && !w.fault && SuspendedOn(w, 4, In)
      && ValidRun(w, [Step.Arrive(10, In), Wait(1)])
      && AboutToMisdirect(Run(w, [Step.Arrive(10, In), Wait(1)]))
      && Apply(Run(w, [Step.Arrive(10, In), Wait(1)]), Next).fault
  {
    ReachesSend(n);
    SendIsRefused();
    ReachesWait();
    WaitHeapStands();
    WaitKernelStands();
    ReportOne(Waiting, 1, 10);
  }
}
