/** Which child processes hold which pipes: when a child's standard input reaches its end. */
module EndOfInput {

  /** Commands are numbered in fork order. `parent` holds the commands whose write end the server
      still has open; `holds[j]` the commands whose write end living child j inherited. */
  datatype Family = Family(forked: nat, parent: set<nat>, holds: map<nat, set<nat>>)

  const NoChildren := Family(0, {}, map[])

  datatype Step = Fork | FinishWriting(i: nat) | Exit(i: nat) | Kill(i: nat)

  /** Nobody else can write to child i any more. */
  ghost predicate AtEnd(s: Family, i: nat) {
    i !in s.parent && forall j | j in s.holds :: i !in s.holds[j]
  }

  /** A child inherits every write end the server has open, and closes only its own command's. */
  function Apply(s: Family, a: Step): Family {
    match a
    case Fork =>
      var inherited := s.parent + {s.forked};
      Family(s.forked + 1, inherited, s.holds[s.forked := inherited - {s.forked}])
    case FinishWriting(i) => s.(parent := s.parent - {i})
    case Exit(i) => s.(holds := s.holds - {i})
    case Kill(i) => s.(holds := s.holds - {i})
  }

  /** The child program copies its input until the end; a process wait may kill it earlier. */
  ghost predicate Allowed(s: Family, a: Step) {
    match a
    case Fork => true
    case FinishWriting(i) => i in s.parent
    case Exit(i) => i in s.holds && AtEnd(s, i)
    case Kill(i) => i in s.holds
  }

  function Run(s: Family, steps: seq<Step>): Family
    decreases steps
  {
    if steps == [] then s else Run(Apply(s, steps[0]), steps[1..])
  }

  ghost predicate ValidRun(s: Family, steps: seq<Step>)
    decreases steps
  {
    steps == [] || (Allowed(s, steps[0]) && ValidRun(Apply(s, steps[0]), steps[1..]))
  }

  /** Child i's end of input waits for living child j. */
  predicate WaitsFor(s: Family, i: nat, j: nat) {
    j in s.holds && i in s.holds[j]
  }

  ghost predicate Ordered(s: Family) {
    && (forall i | i in s.parent :: i < s.forked)
    && (forall j | j in s.holds :: j < s.forked)
    && (forall i, j | WaitsFor(s, i, j) :: i < j)
  }

  lemma StepKeepsOrder(s: Family, a: Step)
    requires Ordered(s) && Allowed(s, a)
    ensures Ordered(Apply(s, a))
  {
    var t := Apply(s, a);
    forall i, j | WaitsFor(t, i, j) ensures i < j {
      if !a.Fork? || j != s.forked {
        assert WaitsFor(s, i, j);
      }
    }
  }

  lemma {:induction false} RunKeepsOrder(s: Family, steps: seq<Step>)
    requires Ordered(s) && ValidRun(s, steps)
    ensures Ordered(Run(s, steps))
    decreases steps
  {
    if steps != [] {
      StepKeepsOrder(s, steps[0]);
      RunKeepsOrder(Apply(s, steps[0]), steps[1..]);
    }
  }

  /** A chain of children each of whose end of input waits for the next. */
  predicate Chain(s: Family, path: seq<nat>) {
    |path| > 0 && forall k | 0 <= k < |path| - 1 :: WaitsFor(s, path[k], path[k + 1])
  }

  lemma {:induction false} ChainsGoForward(s: Family, path: seq<nat>)
    requires Ordered(s) && Chain(s, path)
    ensures |path| > 1 ==> path[0] < path[|path| - 1]
    decreases |path|
  {
    if |path| > 1 {
      var rest := path[1..];
      assert WaitsFor(s, path[0], path[1]);
      assert forall k | 0 <= k < |rest| - 1 :: rest[k] == path[k + 1] && WaitsFor(s, path[k + 1], path[k + 2]);
      ChainsGoForward(s, rest);
    }
  }

  /** The waits of concurrent commands are never circular. */
  lemma WaitsAreAcyclic(steps: seq<Step>, path: seq<nat>)
    requires ValidRun(NoChildren, steps) && Chain(Run(NoChildren, steps), path) && |path| > 1
    ensures path[0] != path[|path| - 1]
    ensures forall i, j | WaitsFor(Run(NoChildren, steps), i, j) :: i < j
  {
    RunKeepsOrder(NoChildren, steps);
    ChainsGoForward(Run(NoChildren, steps), path);
  }

  // ---- Exactly who waits for whom ----

  function Forks(steps: seq<Step>): nat
    decreases |steps|
  {
    if steps == [] then 0 else Forks(steps[..|steps| - 1]) + if steps[|steps| - 1].Fork? then 1 else 0
  }

  /** Fork j is step p, and by then the server has not finished writing to the earlier child i; since then
      child j has not ended. */
  ghost predicate InheritedAt(steps: seq<Step>, i: nat, j: nat, p: nat) {
    && i < j && p < |steps| && steps[p].Fork? && Forks(steps[..p]) == j
    && FinishWriting(i) !in steps[..p] && Exit(j) !in steps && Kill(j) !in steps
  }

  ghost predicate Inherited(steps: seq<Step>, i: nat, j: nat) {
    exists p: nat :: InheritedAt(steps, i, j, p)
  }

  /** What a run says of its last state and two children. */
  ghost predicate ReadOff(s: Family, steps: seq<Step>, i: nat, j: nat) {
    && s.forked == Forks(steps)
    && (i in s.parent <==> i < Forks(steps) && FinishWriting(i) !in steps)
    && (j in s.holds <==> j < Forks(steps) && Exit(j) !in steps && Kill(j) !in steps)
    && (WaitsFor(s, i, j) <==> Inherited(steps, i, j))
    && (FinishWriting(i) in steps ==> i < Forks(steps))
    && (Exit(j) in steps || Kill(j) in steps ==> j < Forks(steps))
  }

  lemma {:induction false} ForksOfPrefix(steps: seq<Step>, p: nat)
    requires p < |steps| && steps[p].Fork?
    ensures Forks(steps[..p]) < Forks(steps)
    decreases |steps|
  {
    var init := steps[..|steps| - 1];
    if p == |steps| - 1 {
      assert steps[..p] == init;
    } else {
      assert init[..p] == steps[..p] && init[p] == steps[p];
      ForksOfPrefix(init, p);
    }
  }

  lemma {:induction false} OneMore(s: Family, init: seq<Step>, a: Step)
    ensures Run(s, init + [a]) == Apply(Run(s, init), a)
    ensures ValidRun(s, init + [a]) <==> ValidRun(s, init) && Allowed(Run(s, init), a)
    decreases init
  {
    if init == [] {
      assert ([] + [a])[1..] == [] && ([] + [a])[0] == a;
    } else {
      assert (init + [a])[1..] == init[1..] + [a] && (init + [a])[0] == init[0];
      OneMore(Apply(s, init[0]), init[1..], a);
    }
  }

  /** The last step is the fork of j, with i's write end still open. */
  predicate InheritsLast(init: seq<Step>, a: Step, i: nat, j: nat) {
    && a.Fork? && i < j && j == Forks(init)
    && FinishWriting(i) !in init && Exit(j) !in init && Kill(j) !in init
  }

  lemma InheritedStays(init: seq<Step>, a: Step, i: nat, j: nat)
    requires a != Exit(j) && a != Kill(j) && (Inherited(init, i, j) || InheritsLast(init, a, i, j))
    ensures Inherited(init + [a], i, j)
  {
    var steps := init + [a];
    if Inherited(init, i, j) {
      var p: nat :| InheritedAt(init, i, j, p);
      assert steps[..p] == init[..p] && steps[p] == init[p];
      assert InheritedAt(steps, i, j, p);
    } else {
      assert steps[..|init|] == init;
      assert InheritedAt(steps, i, j, |init|);
    }
  }

  lemma InheritedBefore(init: seq<Step>, a: Step, i: nat, j: nat)
    requires Inherited(init + [a], i, j)
    ensures a != Exit(j) && a != Kill(j) && (Inherited(init, i, j) || InheritsLast(init, a, i, j))
  {
    var steps := init + [a];
    var p: nat :| InheritedAt(steps, i, j, p);
    assert a in steps && forall b | b in init :: b in steps;
    if p < |init| {
      assert steps[..p] == init[..p] && steps[p] == init[p];
      assert InheritedAt(init, i, j, p);
    } else {
      assert steps[..p] == init;
    }
  }

  lemma NotYetForked(init: seq<Step>, i: nat, j: nat)
    requires j >= Forks(init)
    ensures !Inherited(init, i, j)
  {
    if Inherited(init, i, j) {
      var p: nat :| InheritedAt(init, i, j, p);
      ForksOfPrefix(init, p);
    }
  }

  lemma ReadsOffNext(s: Family, init: seq<Step>, a: Step, i: nat, j: nat)
    requires ReadOff(s, init, i, j) && Allowed(s, a)
    requires a.FinishWriting? ==> a.i in s.parent && a.i < s.forked
    requires a.Exit? || a.Kill? ==> a.i in s.holds && a.i < s.forked
    ensures ReadOff(Apply(s, a), init + [a], i, j)
  {
    var t, steps := Apply(s, a), init + [a];
    assert steps[..|steps| - 1] == init && steps[|steps| - 1] == a;
    assert forall b :: b in steps <==> b in init || b == a;
    if a.Fork? && j >= s.forked {
      NotYetForked(init, i, j);
    }
    if Inherited(steps, i, j) {
      InheritedBefore(init, a, i, j);
    } else if a != Exit(j) && a != Kill(j) {
      assert !Inherited(init, i, j) && !InheritsLast(init, a, i, j) by {
        if Inherited(init, i, j) || InheritsLast(init, a, i, j) {
          InheritedStays(init, a, i, j);
        }
      }
    }
  }

  lemma {:induction false} RunReadsOff(steps: seq<Step>, i: nat, j: nat)
    requires ValidRun(NoChildren, steps)
    ensures ReadOff(Run(NoChildren, steps), steps, i, j)
    decreases |steps|
  {
    if steps != [] {
      var init, a := steps[..|steps| - 1], steps[|steps| - 1];
      assert steps == init + [a];
      OneMore(NoChildren, init, a);
      RunReadsOff(init, i, j);
      RunKeepsOrder(NoChildren, init);
      ReadsOffNext(Run(NoChildren, init), init, a, i, j);
    }
  }

  /** Who waits for whom, read off the steps of any run: child i's end of input waits for child j if and
      only if j was forked later, before the server finished writing to i, and has not ended. So i is
      at the end of its input if and only if the server has finished writing to it, or it does not
      exist yet, and every such j has ended. */
  lemma WaitsExactly(steps: seq<Step>, i: nat)
    requires ValidRun(NoChildren, steps)
    ensures var s := Run(NoChildren, steps);
      && (forall j: nat :: WaitsFor(s, i, j) <==> Inherited(steps, i, j))
      && (AtEnd(s, i) <==>
            (i < Forks(steps) ==> FinishWriting(i) in steps) && forall j: nat :: !Inherited(steps, i, j))
  {
    var s := Run(NoChildren, steps);
    forall j: nat ensures WaitsFor(s, i, j) <==> Inherited(steps, i, j) {
      RunReadsOff(steps, i, j);
    }
    RunReadsOff(steps, i, 0);
    if AtEnd(s, i) {
      assert forall j: nat :: !WaitsFor(s, i, j);
    }
    if forall j: nat :: !Inherited(steps, i, j) {
      forall j | j in s.holds ensures i !in s.holds[j] {
        assert !Inherited(steps, i, j) && !WaitsFor(s, i, j);
      }
    }
  }

  lemma {:induction false} YoungestChild(s: Family, n: nat) returns (j: nat)
    requires s.holds != map[] && (forall i | i in s.holds :: i < n)
    ensures j in s.holds && (forall i | i in s.holds :: i <= j)
    decreases n
  {
    assert (forall i :: i !in s.holds) ==> s.holds == map[];
    if n - 1 in s.holds {
      j := n - 1;
    } else {
      j := YoungestChild(s, n - 1);
    }
  }

  /** Once the server has finished writing everywhere, some living child has reached the end of its
      input, so no order of exits can get stuck. */
  lemma SomeChildCanExit(s: Family) returns (j: nat)
    requires Ordered(s) && s.parent == {} && s.holds != map[]
    ensures Allowed(s, Exit(j)) && (forall i | i in s.holds :: i <= j)
  {
    j := YoungestChild(s, s.forked);
    forall k | k in s.holds ensures j !in s.holds[k] {
      assert WaitsFor(s, j, k) ==> j < k;
    }
  }

  /** By induction on fork order, youngest first, every child reaches the end of its input. */
  lemma {:induction false} EveryChildExits(s: Family) returns (steps: seq<Step>)
    requires Ordered(s) && s.parent == {}
    ensures ValidRun(s, steps) && |steps| == |s.holds| && (forall a | a in steps :: a.Exit?)
    ensures Run(s, steps).holds == map[]
    decreases |s.holds|
  {
    if s.holds == map[] {
      steps := [];
    } else {
      var j := SomeChildCanExit(s);
      var t := Apply(s, Exit(j));
      StepKeepsOrder(s, Exit(j));
      assert |t.holds| == |s.holds| - 1 by {
        assert s.holds.Keys == t.holds.Keys + {j};
        assert |s.holds.Keys| == |s.holds| && |t.holds.Keys| == |t.holds|;
      }
      var rest := EveryChildExits(t);
      steps := [Exit(j)] + rest;
      assert steps[1..] == rest;
    }
  }

  /** After any run in which the server has finished writing, all children reach the end of their
      input and exit. */
  lemma InputsEnd(before: seq<Step>) returns (after: seq<Step>)
    requires ValidRun(NoChildren, before) && Run(NoChildren, before).parent == {}
    ensures ValidRun(Run(NoChildren, before), after) && Run(Run(NoChildren, before), after).holds == map[]
    ensures forall a | a in after :: a.Exit?
  {
    RunKeepsOrder(NoChildren, before);
    after := EveryChildExits(Run(NoChildren, before));
  }
}

/** DyingProcessWaitOperation: waiting for, and if need be killing, a child. */
module Reaping {

  datatype Status = Running | Zombie | Reaped

  /** A child process, whether it was sent SIGKILL, and how often it has been reaped. */
  datatype Child = Child(status: Status, killed: bool, reaps: nat)

  /** poll on the pidfd reports a process that has terminated. */
  predicate PidfdReadable(c: Child) {
    !c.status.Running?
  }

  function Die(c: Child): Child {
    if c.status.Running? then c.(status := Zombie) else c
  }

  function MaybeDie(c: Child, dies: bool): Child {
    if dies then Die(c) else c
  }

  /** syscall(): waitpid with WNOHANG; no child to report, or none at all, becomes -1 with EAGAIN
      after a SIGKILL. */
  function Reap(c: Child, pid: int): (int, Child) {
    match c.status
    case Zombie => (pid, c.(status := Reaped, reaps := c.reaps + 1))
    case Running => (-1, c.(killed := true))
    case Reaped => (-1, c)
  }

  /** The outcome of co_await: its value, whether it suspended, and the child at the end. */
  datatype Outcome = Outcome(value: int, suspended: bool, end: Child)

  /** The child may die before the wait starts and between its suspension and its resume. */
  function Wait(c: Child, pid: int, diesBefore: bool, diesBetween: bool): Outcome {
    var c1 := MaybeDie(c, diesBefore);
    var (v, c2) := Reap(c1, pid);
    if v != -1 then Outcome(v, false, c2)
    else
      var c3 := MaybeDie(c2, diesBetween);
      var (v', c4) := Reap(c3, pid);
      Outcome(v', true, c4)
  }

  /** A child that nobody has waited for: alive or a zombie. */
  predicate Unwaited(c: Child) {
    !c.status.Reaped? && c.reaps == 0
  }

  /** One wait per child is needed: a second wait suspends although its pidfd is readable already,
      and no death is left to wake it. */
  lemma SecondWaitStalls(c: Child, pid: int, dies: bool)
    requires pid > 0
    ensures var r := Wait(c, pid, dies, false);
      r.suspended && PidfdReadable(MaybeDie(c, dies)) <==> c.status.Reaped?
  {
  }

  // ---- Whole schedules ----

  datatype Phase = Before | Suspended | Over(value: int)

  /** A child and the one operation that waits for it. */
  datatype Pair = Pair(child: Child, phase: Phase)

  datatype Step = Dies | Starts | Wakes

  const Forked := Pair(Child(Running, false, 0), Before)

  function Apply(s: Pair, a: Step, pid: int): Pair {
    match a
    case Dies => s.(child := Die(s.child))
    case Starts => var (v, c) := Reap(s.child, pid); Pair(c, if v == -1 then Suspended else Over(v))
    case Wakes => var (v, c) := Reap(s.child, pid); Pair(c, Over(v))
  }

  /** The child may die at any time; the wait starts once; the loop may wake it at any time, for a
      readable pidfd or for an event harvested before it suspended. */
  predicate Allowed(s: Pair, a: Step) {
    match a
    case Dies => s.child.status.Running?
    case Starts => s.phase.Before?
    case Wakes => s.phase.Suspended?
  }

  function Run(s: Pair, steps: seq<Step>, pid: int): Pair
    decreases steps
  {
    if steps == [] then s else Run(Apply(s, steps[0], pid), steps[1..], pid)
  }

  predicate ValidRun(s: Pair, steps: seq<Step>, pid: int)
    decreases steps
  {
    steps == [] || (Allowed(s, steps[0]) && ValidRun(Apply(s, steps[0], pid), steps[1..], pid))
  }

  /** Some wake-up comes while the child is alive. */
  predicate WokenEarly(s: Pair, steps: seq<Step>, pid: int)
    decreases steps
  {
    steps != [] &&
    ((steps[0].Wakes? && !PidfdReadable(s.child)) || WokenEarly(Apply(s, steps[0], pid), steps[1..], pid))
  }

  predicate Good(s: Pair, pid: int) {
    match s.phase
    case Before => Unwaited(s.child)
    case Suspended => Unwaited(s.child) && s.child.killed
    case Over(v) =>
      || (v == pid && s.child.status.Reaped? && s.child.reaps == 1)
      || (v == -1 && Unwaited(s.child) && s.child.killed)
  }

  function Left(s: Pair): nat {
    (if s.child.status.Running? then 1 else 0) +
    (match s.phase case Before => 2 case Suspended => 1 case Over(_) => 0)
  }

  lemma {:induction false} RunIsGood(s: Pair, steps: seq<Step>, pid: int)
    requires Good(s, pid) && pid > 0 && ValidRun(s, steps, pid)
    ensures var t := Run(s, steps, pid);
      && Good(t, pid) && |steps| + Left(t) <= Left(s)
      && (t.phase.Over? && !s.phase.Over? ==> (t.phase.value == -1 <==> WokenEarly(s, steps, pid)))
      && (s.phase.Over? ==> t.phase == s.phase && !WokenEarly(s, steps, pid))
    decreases steps
  {
    if steps != [] {
      RunIsGood(Apply(s, steps[0], pid), steps[1..], pid);
    }
  }

  /** Reaping. On every schedule of the child's death, the wait and its wake-up: the child is never
      reaped twice; a suspended wait has killed it, so it will die; a wait that is over has returned
      the pid and reaped the child, unless it was woken while the child was still alive, and then it
      has returned -1 and nobody reaps the child. Every schedule is over within three steps, with a
      step possible until then. */
  lemma EveryScheduleReaps(steps: seq<Step>, pid: int)
    requires pid > 0 && ValidRun(Forked, steps, pid)
    ensures var s := Run(Forked, steps, pid);
      && s.child.reaps <= 1 && (s.phase.Suspended? ==> s.child.killed && !s.child.status.Reaped?)
      && (s.phase.Over? ==>
            && (s.child.status.Reaped? <==> !WokenEarly(Forked, steps, pid))
            && s.phase.value == (if s.child.status.Reaped? then pid else -1)
            && s.child.reaps == (if s.child.status.Reaped? then 1 else 0))
    ensures |steps| <= 3
    ensures !Run(Forked, steps, pid).phase.Over? ==> exists a :: Allowed(Run(Forked, steps, pid), a)
  {
    RunIsGood(Forked, steps, pid);
    var s := Run(Forked, steps, pid);
    if !s.phase.Over? {
      assert Allowed(s, if s.phase.Before? then Starts else Wakes);
    }
  }

  // ---- The wait in terms of schedules ----

  function DiesIf(s: Pair, dies: bool): seq<Step> {
    if dies && s.child.status.Running? then [Dies] else []
  }

  /** The schedule of one co_await: the child may die, the wait starts, and if it suspends, the child may
      die and the wait is woken. */
  function WaitSteps(c: Child, pid: int, diesBefore: bool, diesBetween: bool): seq<Step> {
    var s := Pair(MaybeDie(c, diesBefore), Before);
    DiesIf(Pair(c, Before), diesBefore) +
    ([Starts] + if Apply(s, Starts, pid).phase.Suspended?
                then DiesIf(Apply(s, Starts, pid), diesBetween) + [Wakes] else [])
  }

  lemma {:induction false} RunsJoin(s: Pair, a: seq<Step>, b: seq<Step>, pid: int)
    requires ValidRun(s, a, pid) && ValidRun(Run(s, a, pid), b, pid)
    ensures ValidRun(s, a + b, pid) && Run(s, a + b, pid) == Run(Run(s, a, pid), b, pid)
    decreases a
  {
    if a == [] {
      assert a + b == b;
    } else {
      assert (a + b)[0] == a[0] && (a + b)[1..] == a[1..] + b;
      RunsJoin(Apply(s, a[0], pid), a[1..], b, pid);
    }
  }

  lemma OneStep(s: Pair, a: Step, pid: int)
    requires Allowed(s, a)
    ensures ValidRun(s, [a], pid) && Run(s, [a], pid) == Apply(s, a, pid)
  {
    assert [a][1..] == [];
  }

  lemma DiesRuns(s: Pair, dies: bool, pid: int)
    ensures ValidRun(s, DiesIf(s, dies), pid)
    ensures Run(s, DiesIf(s, dies), pid) == s.(child := MaybeDie(s.child, dies))
  {
    if dies && s.child.status.Running? {
      OneStep(s, Dies, pid);
    }
  }

  /** A co_await is that schedule, so whatever holds of every schedule holds of it. */
  lemma WaitIsASchedule(c: Child, pid: int, diesBefore: bool, diesBetween: bool)
    requires Unwaited(c) && pid > 0
    ensures var r, steps := Wait(c, pid, diesBefore, diesBetween), WaitSteps(c, pid, diesBefore, diesBetween);
      && ValidRun(Pair(c, Before), steps, pid)
      && Run(Pair(c, Before), steps, pid) == Pair(r.end, Over(r.value))
      && (r.suspended <==> Wakes in steps)
  {
    var s0, s := Pair(c, Before), Pair(MaybeDie(c, diesBefore), Before);
    var t := Apply(s, Starts, pid);
    DiesRuns(s0, diesBefore, pid);
    OneStep(s, Starts, pid);
    var rest := if t.phase.Suspended? then DiesIf(t, diesBetween) + [Wakes] else [];
    if t.phase.Suspended? {
      DiesRuns(t, diesBetween, pid);
      OneStep(t.(child := MaybeDie(t.child, diesBetween)), Wakes, pid);
      RunsJoin(t, DiesIf(t, diesBetween), [Wakes], pid);
    }
    RunsJoin(s, [Starts], rest, pid);
    RunsJoin(s0, DiesIf(s0, diesBefore), [Starts] + rest, pid);
  }

  /** What a wait comes to: dead before it starts, it reaps at once; dying while it is suspended, it has
      been killed and is reaped by the retry; otherwise the wait has killed it, gives -1 and reaps
      nothing. */
  lemma WaitOutcome(c: Child, pid: int, diesBefore: bool, diesBetween: bool)
    requires Unwaited(c) && pid > 0
    ensures var r := Wait(c, pid, diesBefore, diesBetween);
      if c.status.Zombie? || diesBefore then
        !r.suspended && r.value == pid && r.end == Child(Reaped, c.killed, 1)
      else if diesBetween then
        r.suspended && r.value == pid && r.end == Child(Reaped, true, 1)
      else
        r.suspended && r.value == -1 && r.end == Child(Running, true, 0)
  {
  }

  class Process {
    const pid: int
    var child: Child

    constructor (pid: int)
      requires pid > 0
      ensures this.pid == pid && child == Child(Running, false, 0)
    {
      this.pid := pid;
      child := Child(Running, false, 0);
    }

    method WaitPid() returns (r: int)
      modifies this
      ensures r == if old(child).status.Zombie? then pid else if old(child).status.Running? then 0 else -1
      ensures child == if old(child).status.Zombie? then Reap(old(child), pid).1 else old(child)
    {
      if child.status.Zombie? {
        child := child.(status := Reaped, reaps := child.reaps + 1);
        return pid;
      }
      return if child.status.Running? then 0 else -1;
    }

    method Kill()
      modifies this
      ensures child == if old(child).status.Running? then old(child).(killed := true) else old(child)
    {
      if child.status.Running? {
        child := child.(killed := true);
      }
    }

    method Terminate()
      modifies this
      ensures child == Die(old(child))
    {
      if child.status.Running? {
        child := child.(status := Zombie);
      }
    }
  }

  class DyingProcessWaitOperation {
    const process: Process
    var haveSuspend: bool
    var returnValue: int

    constructor (process: Process)
      ensures this.process == process && !haveSuspend
    {
      this.process := process;
      haveSuspend, returnValue := false, 0;
    }

    method Syscall() returns (cpid: int)
      requires process.pid > 0
      modifies process
      ensures (cpid, process.child) == Reap(old(process.child), process.pid)
    {
      cpid := process.WaitPid();
      if cpid == 0 || cpid == -1 {
        process.Kill();
        cpid := -1;
      }
    }

    /** co_await: while it is suspended, the loop runs and the child may die. */
    method CoAwait(diesBetween: bool) returns (value: int)
      requires process.pid > 0 && !haveSuspend
      modifies this, process
      ensures var r := Wait(old(process.child), process.pid, false, diesBetween);
        value == r.value && process.child == r.end && haveSuspend == r.suspended
    {
      returnValue := Syscall();
      haveSuspend := returnValue == -1;
      if haveSuspend {
        if diesBetween {
          process.Terminate();
        }
        returnValue := Syscall();
      }
      return returnValue;
    }
  }
}
