/** What the loop's reports are worth: when the other end of a file goes, who is woken; and whether what
    an event says is still true when it is dispatched.

    epoll reports EPOLLHUP and EPOLLERR whatever the mask says, but the loop resumes a reader only for
    EPOLLIN and a writer only for EPOLLOUT. An empty pipe whose last writer has gone reports EPOLLHUP
    alone, and a full one whose last reader has gone EPOLLERR alone. */
module HangUps {
  import opened Wrappers
  import opened Epoll
  import opened EventLoop
  import opened Safety
  import opened Fairness

  /** An operation is suspended, poll does not report its direction, and the batch has no event left for
      it. */
  ghost predicate Unreported(s: Loop, p: nat, f: nat, d: Direction) {
    && p in s.heap && s.heap[p].fd == f && f in s.k.poll
    && SuspendedOn(s, p, d) && !IsReady(s.k.poll[f], d) && !Queued(s.batch, p, d)
  }

  /** Data for a reader, or room for a writer. */
  predicate MakesReady(a: Step, f: nat, d: Direction) {
    a.Arrive? && a.f == f && a.d == d
  }

  predicate Resumes(s: Loop, a: Step, p: nat, d: Direction) {
    a.Next? && s.batch != [] && s.batch[0].ptr == p && p in s.heap && Carries(s.batch[0], d) && SuspendedOn(s, p, d)
  }

  lemma WaitLeavesUnreported(s: Loop, n: nat, p: nat, f: nat, d: Direction)
    requires Invariant(s) && Allowed(s, Wait(n)) && Unreported(s, p, f, d)
    ensures Unreported(Apply(s, Wait(n)), p, f, d)
  {
    var t := Apply(s, Wait(n));
    if Queued(t.batch, p, d) {
      var i: nat :| i < |t.batch| && t.batch[i].ptr == p && Carries(t.batch[i], d);
      HarvestedEvent(s, n, i);
    }
  }

  lemma NextLeavesUnreported(s: Loop, p: nat, f: nat, d: Direction)
    requires Invariant(s) && Allowed(s, Next) && Unreported(s, p, f, d)
    ensures Unreported(Apply(s, Next), p, f, d) && !Resumes(s, Next, p, d)
  {
    NextIsDispatched(s);
    PoppedQueue(s, p, d);
    assert s.batch[0].ptr == p && Carries(s.batch[0], d) ==> Queued(s.batch, p, d);
  }

  lemma PassLeavesUnreported(s: Loop, order: seq<nat>, p: nat, f: nat, d: Direction)
    requires Invariant(s) && Allowed(s, Reconcile(order)) && Unreported(s, p, f, d)
    ensures Unreported(Apply(s, Reconcile(order)), p, f, d)
  {
    PassReconciles(s, order);
    PassKeepsRequests(s, order);
  }

  lemma WorldLeavesUnreported(s: Loop, a: Step, p: nat, f: nat, d: Direction)
    requires Invariant(s) && Allowed(s, a) && Unreported(s, p, f, d) && !MakesReady(a, f, d)
    requires a.Arrive? || a.HangUp? || a.Drain? || a.Outside? || a.Return? || a.NewFile? || a.BareClose?
    ensures Unreported(Apply(s, a), p, f, d)
  {
  }

  lemma ProgramLeavesUnreported(s: Loop, a: Step, p: nat, f: nat, d: Direction)
    requires Invariant(s) && Allowed(s, a) && Unreported(s, p, f, d)
    requires a.Open? || a.Begin? || a.Block? || a.End? || a.Release? || a.Close?
    ensures Unreported(Apply(s, a), p, f, d)
  {
  }

  /** No step but the arrival of data, or of room, changes that. */
  lemma OnlyReadinessReports(s: Loop, a: Step, p: nat, f: nat, d: Direction)
    requires Invariant(s) && Allowed(s, a) && Unreported(s, p, f, d) && !MakesReady(a, f, d)
    ensures Unreported(Apply(s, a), p, f, d) && !Resumes(s, a, p, d)
  {
    match a
    case Wait(n) => WaitLeavesUnreported(s, n, p, f, d);
    case Next => NextLeavesUnreported(s, p, f, d);
    case Reconcile(order) => PassLeavesUnreported(s, order, p, f, d);
    case Open(_, _, _) => ProgramLeavesUnreported(s, a, p, f, d);
    case Begin(_, _, _, _) => ProgramLeavesUnreported(s, a, p, f, d);
    case Block(_) => ProgramLeavesUnreported(s, a, p, f, d);
    case End(_) => ProgramLeavesUnreported(s, a, p, f, d);
    case Release(_, _) => ProgramLeavesUnreported(s, a, p, f, d);
    case Close(_) => ProgramLeavesUnreported(s, a, p, f, d);
    case _ => WorldLeavesUnreported(s, a, p, f, d);
  }

  lemma {:induction false} NoResumeUnlessReady(s: Loop, steps: seq<Step>, p: nat, f: nat, d: Direction)
    requires Invariant(s) && ValidRun(s, steps) && Unreported(s, p, f, d)
    requires forall a | a in steps :: !MakesReady(a, f, d)
    ensures Unreported(Run(s, steps), p, f, d) && !ResumedIn(s, steps, p, d)
    decreases steps
  {
    if steps != [] {
      assert steps[0] in steps && forall a | a in steps[1..] :: a in steps;
      OnlyReadinessReports(s, steps[0], p, f, d);
      StepKeeps(s, steps[0]);
      NoResumeUnlessReady(Apply(s, steps[0]), steps[1..], p, f, d);
    }
  }

  /** The other end goes under a suspended operation. If poll reports the operation's direction at that
      moment, or the batch holds an event for it, its wake-up is under way. Otherwise it is not, and no
      continuation of the run resumes it before new data arrives, or new room, which on a pipe without
      another end is never. */
  lemma HangUpWakesIff(before: seq<Step>, p: nat, d: Direction, after: seq<Step>)
    requires ValidRun(Start, before)
    requires var s := Run(Start, before);
      p in s.heap && SuspendedOn(s, p, d) && Allowed(s, Step.HangUp(s.heap[p].fd, d))
    requires var s := Run(Start, before);
      && ValidRun(Apply(s, Step.HangUp(s.heap[p].fd, d)), after)
      && (forall a | a in after :: !MakesReady(a, s.heap[p].fd, d))
    ensures var s := Run(Start, before);
      var t := Apply(s, Step.HangUp(s.heap[p].fd, d));
      var reported := IsReady(s.k.poll[s.heap[p].fd], d) || Queued(s.batch, p, d);
      && p in t.heap && (WakeupUnderWay(t, p, d) <==> reported)
      && (!reported ==> !ResumedIn(t, after, p, d) && SuspendedOn(Run(t, after), p, d))
  {
    var s := Run(Start, before);
    var f := s.heap[p].fd;
    var t := Apply(s, Step.HangUp(f, d));
    Extend(Start, before, Step.HangUp(f, d));
    NoLostWakeup(before + [Step.HangUp(f, d)], p, d);
    StartIsSafe();
    RunKeeps(Start, before + [Step.HangUp(f, d)]);
    if !(IsReady(s.k.poll[f], d) || Queued(s.batch, p, d)) {
      NoResumeUnlessReady(t, after, p, f, d);
    }
  }

  // ---- Whether an event is still true ----

  /** What is known of p's hang-ups is true: those that the batch reports and the one that is flagged. */
  ghost predicate HangUpsAreTrue(s: Loop, p: nat, f: nat) {
    && p in s.heap && s.heap[p].fd == f && f in s.k.poll
    && (s.heap[p].doneRecv ==> s.k.poll[f].hup)
    && (forall i | 0 <= i < |s.batch| && s.batch[i].ptr == p && s.batch[i].hup :: s.k.poll[f].hup)
  }

  /** Every event of direction d that the batch holds for p is still true. */
  ghost predicate ReportsAreTrue(s: Loop, p: nat, f: nat, d: Direction) {
    && p in s.heap && s.heap[p].fd == f && f in s.k.poll
    && (Queued(s.batch, p, d) ==> IsReady(s.k.poll[f], d))
  }

  lemma WaitKeepsTruth(s: Loop, n: nat, p: nat, f: nat, d: Direction)
    requires Invariant(s) && Allowed(s, Wait(n)) && p in s.heap && s.heap[p].fd == f
    ensures ReportsAreTrue(Apply(s, Wait(n)), p, f, d)
    ensures HangUpsAreTrue(s, p, f) ==> HangUpsAreTrue(Apply(s, Wait(n)), p, f)
  {
    var t := Apply(s, Wait(n));
    forall i | 0 <= i < |t.batch| && t.batch[i].ptr == p
      ensures t.batch[i].hup ==> s.k.poll[f].hup
      ensures Carries(t.batch[i], d) ==> IsReady(s.k.poll[f], d)
    {
      HarvestedEvent(s, n, i);
    }
  }

  lemma NextKeepsTruth(s: Loop, p: nat, f: nat, d: Direction)
    requires Invariant(s) && Allowed(s, Next)
    ensures ReportsAreTrue(s, p, f, d) ==> ReportsAreTrue(Apply(s, Next), p, f, d)
    ensures HangUpsAreTrue(s, p, f) ==> HangUpsAreTrue(Apply(s, Next), p, f)
  {
    NextIsDispatched(s);
    PoppedQueue(s, p, d);
  }

  lemma PassKeepsTruth(s: Loop, order: seq<nat>, p: nat, f: nat, d: Direction)
    requires Invariant(s) && Allowed(s, Reconcile(order))
    ensures ReportsAreTrue(s, p, f, d) ==> ReportsAreTrue(Apply(s, Reconcile(order)), p, f, d)
    ensures HangUpsAreTrue(s, p, f) ==> HangUpsAreTrue(Apply(s, Reconcile(order)), p, f)
  {
    PassReconciles(s, order);
    PassKeepsRequests(s, order);
  }

  lemma ReadinessKeepsTruth(s: Loop, a: Step, p: nat, f: nat, d: Direction)
    requires Invariant(s) && Allowed(s, a) && (a.Arrive? || a.HangUp? || a.Drain?)
    ensures ReportsAreTrue(s, p, f, d) && a != Step.Drain(p) ==> ReportsAreTrue(Apply(s, a), p, f, d)
    ensures HangUpsAreTrue(s, p, f) ==> HangUpsAreTrue(Apply(s, a), p, f)
  {
  }

  lemma WorldKeepsTruth(s: Loop, a: Step, p: nat, f: nat, d: Direction)
    requires Invariant(s) && Allowed(s, a) && (a.Outside? || a.Return? || a.NewFile? || a.BareClose?)
    ensures ReportsAreTrue(s, p, f, d) ==> ReportsAreTrue(Apply(s, a), p, f, d)
    ensures HangUpsAreTrue(s, p, f) ==> HangUpsAreTrue(Apply(s, a), p, f)
  {
  }

  lemma ProgramKeepsTruth(s: Loop, a: Step, p: nat, f: nat, d: Direction)
    requires Invariant(s) && Allowed(s, a) && a != Close(p)
    requires a.Open? || a.Begin? || a.Block? || a.End? || a.Release? || a.Close?
    ensures ReportsAreTrue(s, p, f, d) ==> ReportsAreTrue(Apply(s, a), p, f, d)
    ensures HangUpsAreTrue(s, p, f) ==> HangUpsAreTrue(Apply(s, a), p, f)
  {
  }

  lemma StepKeepsTruth(s: Loop, a: Step, p: nat, f: nat, d: Direction)
    requires Invariant(s) && Allowed(s, a) && a != Close(p)
    ensures ReportsAreTrue(s, p, f, d) && a != Step.Drain(p) ==> ReportsAreTrue(Apply(s, a), p, f, d)
    ensures HangUpsAreTrue(s, p, f) ==> HangUpsAreTrue(Apply(s, a), p, f)
  {
    match a
    case Wait(n) => if p in s.heap && s.heap[p].fd == f { WaitKeepsTruth(s, n, p, f, d); }
    case Next => NextKeepsTruth(s, p, f, d);
    case Reconcile(order) => PassKeepsTruth(s, order, p, f, d);
    case Open(_, _, _) => ProgramKeepsTruth(s, a, p, f, d);
    case Begin(_, _, _, _) => ProgramKeepsTruth(s, a, p, f, d);
    case Block(_) => ProgramKeepsTruth(s, a, p, f, d);
    case End(_) => ProgramKeepsTruth(s, a, p, f, d);
    case Release(_, _) => ProgramKeepsTruth(s, a, p, f, d);
    case Close(_) => ProgramKeepsTruth(s, a, p, f, d);
    case Arrive(_, _) => ReadinessKeepsTruth(s, a, p, f, d);
    case HangUp(_, _) => ReadinessKeepsTruth(s, a, p, f, d);
    case Drain(_) => ReadinessKeepsTruth(s, a, p, f, d);
    case _ => WorldKeepsTruth(s, a, p, f, d);
  }

  lemma {:induction false} RunKeepsTruth(s: Loop, steps: seq<Step>, p: nat, f: nat, d: Direction)
    requires Invariant(s) && ValidRun(s, steps) && Close(p) !in steps
    ensures ReportsAreTrue(s, p, f, d) && Step.Drain(p) !in steps ==> ReportsAreTrue(Run(s, steps), p, f, d)
    ensures HangUpsAreTrue(s, p, f) ==> HangUpsAreTrue(Run(s, steps), p, f)
    decreases steps
  {
    if steps != [] {
      assert steps == [steps[0]] + steps[1..];
      StepKeepsTruth(s, steps[0], p, f, d);
      StepKeeps(s, steps[0]);
      RunKeepsTruth(Apply(s, steps[0]), steps[1..], p, f, d);
    }
  }

  /** The batch holds no event for address p, as when the address is new. */
  ghost predicate Unannounced(s: Loop, p: nat) {
    forall i | 0 <= i < |s.batch| :: s.batch[i].ptr != p
  }

  lemma OpenIsTrue(s: Loop, p: nat, f: nat, d: Direction)
    requires Invariant(s) && Allowed(s, Open(p, f, d)) && Unannounced(s, p)
    ensures var t := Apply(s, Open(p, f, d));
      Invariant(t) && HangUpsAreTrue(t, p, f) && forall e :: ReportsAreTrue(t, p, f, e)
  {
    StepKeeps(s, Open(p, f, d));
  }

  /** From the opening of a descriptor whose address no event of the batch is for, until it is closed:
      a hang-up is flagged, or reported by the batch, only if the other end has gone; and if no system
      call uses up what is ready, as none does for a pidfd, every resume finds its direction ready. */
  lemma ReportsStayTrue(before: seq<Step>, p: nat, f: nat, open: Direction, d: Direction, steps: seq<Step>)
    requires ValidRun(Start, before)
    requires Allowed(Run(Start, before), Open(p, f, open)) && Unannounced(Run(Start, before), p)
    requires ValidRun(Apply(Run(Start, before), Open(p, f, open)), steps) && Close(p) !in steps
    ensures var t := Run(Apply(Run(Start, before), Open(p, f, open)), steps);
      && p in t.heap && t.heap[p].fd == f && f in t.k.poll
      && (t.heap[p].doneRecv ==> Ended(t.k.poll[f], In))
      && (Step.Drain(p) !in steps && Allowed(t, Next) && Resumes(t, Next, p, d) ==> IsReady(t.k.poll[f], d))
  {
    var s := Run(Start, before);
    StartIsSafe();
    RunKeeps(Start, before);
    OpenIsTrue(s, p, f, open);
    RunKeepsTruth(Apply(s, Open(p, f, open)), steps, p, f, d);
    var t := Run(Apply(s, Open(p, f, open)), steps);
    assert Allowed(t, Next) && Resumes(t, Next, p, d) ==> Queued(t.batch, p, d);
  }

  // ---- A run in which the wake-up is lost ----

  lemma Go(steps: seq<Step>, s: Loop, a: Step) returns (steps': seq<Step>, s': Loop)
    requires ValidRun(Start, steps) && Run(Start, steps) == s && Allowed(s, a)
    ensures steps' == steps + [a] && s' == Apply(s, a)
    ensures ValidRun(Start, steps') && Run(Start, steps') == s'
  {
    Extend(Start, steps, a);
    steps', s' := steps + [a], Apply(s, a);
  }

  const HungUp := Silent.(hup := true)

  /** The reader of an empty pipe is suspended and the loop is in epoll_wait. */
  const Reading := Loop(
    Kernel(map[10 := Silent], map[10 := Registration(1, InMask)], []),
    map[1 := Descriptor(10, InMask, InMask, Some(7), None, false)],
    {1}, {1}, [], Idle, map[1 := Operation(In, 7, Suspended, 0)], 0, false)

  /** The pipe has just been opened. */
  const JustOpened := Reading.(
    heap := map[1 := Descriptor(10, InMask, NoEvents, None, None, false)],
    processed := {}, phase := Boot, ops := map[])

  lemma OpenPipe() returns (steps: seq<Step>)
    ensures ValidRun(Start, steps) && Run(Start, steps) == JustOpened
  {
    var s: Loop;
    steps, s := Go([], Start, NewFile(10, Silent));
    steps, s := Go(steps, s, Open(1, 10, In));
    assert s == JustOpened;
  }

  lemma StartReading() returns (steps: seq<Step>)
    ensures ValidRun(Start, steps) && Run(Start, steps) == Reading
  {
    steps := OpenPipe();
    var s := JustOpened;
    steps, s := Go(steps, s, Begin(1, In, 7, true));
    steps, s := Go(steps, s, Block(1));
    steps, s := Go(steps, s, Return);
    assert s == Reading;
  }

  const Abandoned := Reading.(k := Reading.k.(poll := map[10 := HungUp]), turn := 1)

  /** The hang-up has been harvested. */
  const Harvested := Abandoned.(batch := [Event(1, false, false, true)], phase := Dispatching)

  lemma HarvestTheHangUp(before: seq<Step>) returns (steps: seq<Step>)
    requires ValidRun(Start, before) && Run(Start, before) == Reading
    ensures ValidRun(Start, steps) && Run(Start, steps) == Harvested
  {
    var s: Loop;
    steps, s := Go(before, Reading, Step.HangUp(10, In));
    assert s.k.ready[..1] == [10] && [10][1..] == [];
    assert Events(s.k, [10][1..]) == [];
    assert Events(s.k, [10]) == [Event(1, false, false, true)];
    steps, s := Go(steps, s, Wait(1));
    assert s == Harvested;
  }

  lemma LoseTheWakeup(before: seq<Step>) returns (steps: seq<Step>)
    requires ValidRun(Start, before) && Run(Start, before) == Reading
    ensures ValidRun(Start, steps) && Run(Start, steps) == Abandoned
  {
    steps := HarvestTheHangUp(before);
    var s := Harvested;
    steps, s := Go(steps, s, Next);
    assert [1][1..] == [] && Pass(s, [1]) == Pass(Modify(s, 1), []);
    steps, s := Go(steps, s, Reconcile([1]));
    assert s == Abandoned;
  }

  /** A disciplined run after which the loop waits with nothing to come: the pipe is at its end, its
      reader is suspended, doneRecv_ was never set, and nothing is left that could wake it. */
  lemma BareHangUpIsLost(after: seq<Step>) returns (steps: seq<Step>)
    ensures ValidRun(Start, steps) && Run(Start, steps) == Abandoned
    ensures WouldNotBlock(Abandoned.k.poll[10], In) && SuspendedOn(Abandoned, 1, In)
    ensures !WakeupUnderWay(Abandoned, 1, In)
    ensures ValidRun(Abandoned, after) && (forall a | a in after :: !MakesReady(a, 10, In)) ==>
      !ResumedIn(Abandoned, after, 1, In)
  {
    steps := StartReading();
    steps := LoseTheWakeup(steps);
    if ValidRun(Abandoned, after) && (forall a | a in after :: !MakesReady(a, 10, In)) {
      StartIsSafe();
      RunKeeps(Start, steps);
      NoResumeUnlessReady(Abandoned, after, 1, 10, In);
    }
  }
}
