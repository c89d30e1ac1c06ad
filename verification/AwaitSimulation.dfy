/** Driving a tree of coroutines through waiter links and the final awaiter agrees with direct
    recursive evaluation, and no frame is misused on the way. */
module AwaitSimulation {
  import opened Wrappers
  import opened Coroutines

  // ---- Outcomes ----

  /** The outcome of a tree depends on that tree alone. */
  lemma {:induction false} OutcomeIsLocal(m: Machine, m': Machine, g: nat, k: Kernel)
    requires FramesOk(m) && g in m.frames && m.next <= m'.next
    requires forall h | h in m.frames && m.frames[h].root == m.frames[g].root ::
      h in m'.frames && m'.frames[h] == m.frames[h]
    requires LogOf(m', m.frames[g].root) == LogOf(m, m.frames[g].root)
    ensures Outcome(m', g, k) == Outcome(m, g, k)
    decreases m.next - g
  {
    assert FrameOk(m, g);
    if m.frames[g].status.Awaiting? {
      var c := m.frames[g].status.child;
      assert FrameOk(m, c);
      OutcomeIsLocal(m, m', c, k);
    }
  }

  /** Unwinding: a step that keeps the outcome of a frame keeps that of everybody who waits for it,
      up the chain of waiters to the root. */
  lemma {:induction false} OutcomeUnwinds(m: Machine, m': Machine, f: nat, k: Kernel)
    requires FramesOk(m) && f in m.frames && m.next <= m'.next
    requires forall h | h in m.frames && h < f :: h in m'.frames && m'.frames[h] == m.frames[h]
    requires Outcome(m', f, k) == Outcome(m, f, k)
    ensures m.frames[f].root in m.frames
    ensures Outcome(m', m.frames[f].root, k) == Outcome(m, m.frames[f].root, k)
    decreases f
  {
    assert FrameOk(m, f);
    if m.frames[f].waiter.Some? {
      var w := m.frames[f].waiter.value;
      assert FrameOk(m, w);
      OutcomeUnwinds(m, m', w, k);
    }
  }

  /** A step of one tree: frame f changes, nothing before it and nothing in other trees does, and
      what is new has a new number. */
  ghost predicate Stepped(m: Machine, m': Machine, f: nat) {
    && f in m.frames && f in m'.frames && m'.frames[f].root == m.frames[f].root && m.next <= m'.next
    && m'.origins == m.origins && m'.results == m.results
    && (forall r | r in m.logs && r != m.frames[f].root :: r in m'.logs && m'.logs[r] == m.logs[r])
    && (forall h | h in m.frames && (h < f || m.frames[h].root != m.frames[f].root) ::
          h in m'.frames && m'.frames[h] == m.frames[h])
    && (forall h | h in m'.frames && h !in m.frames :: h >= m.next)
  }

  lemma {:induction false} RootIsFirst(m: Machine, f: nat)
    requires FramesOk(m) && f in m.frames
    ensures m.frames[f].root <= f && m.frames[f].root in m.frames
  {
    assert FrameOk(m, f);
    if m.frames[f].waiter.Some? {
      RootIsFirst(m, m.frames[f].waiter.value);
    }
  }

  lemma OutcomeOkAfter(m: Machine, m': Machine, f: nat, r: nat, k: Kernel)
    requires Invariant(m, k) && Stepped(m, m', f) && r in m.origins
    requires m.frames[f].root in m.frames && Outcome(m', m.frames[f].root, k) == Outcome(m, m.frames[f].root, k)
    ensures OutcomeOk(m', r, k)
  {
    assert OutcomeOk(m, r, k) && FrameOk(m, f);
    if r in m.frames {
      assert FrameOk(m, r);
      if r != m.frames[f].root {
        OutcomeIsLocal(m, m', r, k);
      } else {
        assert r <= f by { RootIsFirst(m, f); }
      }
    }
  }

  lemma {:induction false} RootsStayOnTheirWay(m: Machine, m': Machine, f: nat, k: Kernel)
    requires Invariant(m, k) && Stepped(m, m', f)
    requires m.frames[f].root in m.frames && Outcome(m', m.frames[f].root, k) == Outcome(m, m.frames[f].root, k)
    ensures OutcomesOk(m', k)
  {
    forall r | r in m'.origins ensures r < m'.next && OutcomeOk(m', r, k) {
      assert OutcomeOk(m, r, k);
      OutcomeOkAfter(m, m', f, r, k);
    }
  }

  /** A step that keeps the outcome of the frame it changes keeps every root on its way. */
  lemma {:induction false} TreeStep(m: Machine, m': Machine, f: nat, k: Kernel)
    requires Invariant(m, k) && Stepped(m, m', f) && Outcome(m', f, k) == Outcome(m, f, k)
    ensures OutcomesOk(m', k)
  {
    OutcomeUnwinds(m, m', f, k);
    RootsStayOnTheirWay(m, m', f, k);
  }

  // ---- One move ----

  predicate Executes(m: Machine, f: nat) {
    m.current == Some(f) && f in m.frames && m.frames[f].status.Running?
  }

  lemma BranchKeeps(m: Machine, f: nat, again: bool, k: Kernel)
    requires Invariant(m, k) && Executes(m, f) && m.frames[f].code.Branch?
    ensures Invariant(Execute(m, f, again, k), k)
  {
    var m' := Execute(m, f, again, k);
    assert FrameOk(m, f);
    TreeStep(m, m', f, k);
    forall g | g in m'.frames ensures FrameOk(m', g) {
      assert FrameOk(m, g);
    }
  }

  lemma CompleteKeepsFrame(m: Machine, f: nat, g: nat, k: Kernel)
    requires Invariant(m, k) && f in m.frames && m.frames[f].code.Syscall? && g in m.frames
    requires Executes(m, f) || (m.current.None? && m.frames[f].status.Blocked?)
    ensures FrameOk(Complete(m.(current := Some(f)), f, k), g)
  {
    assert FrameOk(m, f) && FrameOk(m, g);
  }

  lemma CompleteKeeps(m: Machine, f: nat, k: Kernel)
    requires Invariant(m, k) && f in m.frames && m.frames[f].code.Syscall?
    requires Executes(m, f) || (m.current.None? && m.frames[f].status.Blocked?)
    ensures Invariant(Complete(m.(current := Some(f)), f, k), k)
  {
    var m' := Complete(m.(current := Some(f)), f, k);
    assert FrameOk(m, f);
    TreeStep(m, m', f, k);
    forall g | g in m'.frames ensures FrameOk(m', g) {
      CompleteKeepsFrame(m, f, g, k);
    }
  }

  /** The last caller on the native stack, inside its detach(). */
  lemma YieldKeepsFrames(m: Machine, m': Machine, f: nat)
    requires StackOk(m) && FramesOk(m) && m.current == Some(f) && f !in m.callers
    requires m'.current == Yield(m).current && m'.callers == Yield(m).callers
    ensures NoDuplicates(m'.callers)
    ensures forall g | g in m.frames && g != f && m.frames[g].status.Detaching? ::
      g in m'.callers <==> m'.current != Some(g)
    ensures forall g | g in m'.callers :: g in m.callers && g != f
    ensures m'.current.Some? ==> m'.current.value in m.callers
    ensures m'.current.None? ==> m'.callers == []
  {
    var n := |m.callers|;
    forall g | g in m.frames && g != f && m.frames[g].status.Detaching?
      ensures g in m'.callers <==> m'.current != Some(g)
    {
      assert FrameOk(m, g);
      assert g in m.callers;
      if n > 0 {
        assert m.callers == m.callers[..n - 1] + [m.callers[n - 1]];
      }
    }
  }

  lemma BlockKeepsFrame(m: Machine, m': Machine, f: nat, g: nat, k: Kernel)
    requires Invariant(m, k) && Executes(m, f) && m.frames[f].code.Syscall? && g in m.frames
    requires m'.current == Yield(m).current && m'.callers == Yield(m).callers
    requires m'.frames == m.frames[f := m.frames[f].(status := Blocked)]
    requires m' == m.(frames := m'.frames, current := m'.current, callers := m'.callers)
    ensures FrameOk(m', g)
  {
    assert FrameOk(m, f) && FrameOk(m, g);
    YieldKeepsFrames(m, m', f);
  }

  lemma BlockKeeps(m: Machine, m': Machine, f: nat, k: Kernel)
    requires Invariant(m, k) && Executes(m, f) && m.frames[f].code.Syscall?
    requires m'.current == Yield(m).current && m'.callers == Yield(m).callers
    requires m'.frames == m.frames[f := m.frames[f].(status := Blocked)]
    requires m' == m.(frames := m'.frames, current := m'.current, callers := m'.callers)
    ensures Invariant(m', k)
  {
    assert FrameOk(m, f);
    TreeStep(m, m', f, k);
    YieldKeepsFrames(m, m', f);
    forall g | g in m'.frames ensures FrameOk(m', g) {
      BlockKeepsFrame(m, m', f, g, k);
    }
  }

  /** After task::await_suspend: the parent awaits, the child runs with the parent as its waiter. */
  ghost predicate Awaited(m: Machine, m': Machine, f: nat)
    requires f in m.frames && m.frames[f].code.Await?
  {
    var x := m.frames[f];
    m' == m.(frames := m.frames[f := x.(status := Awaiting(m.next))]
                               [m.next := Frame(x.root, x.code.child, x.code.args(x.env), Some(f), Running, 0)],
             current := Some(m.next), next := m.next + 1)
  }

  lemma AwaitedKeepsOutcomes(m: Machine, m': Machine, f: nat, k: Kernel)
    requires Invariant(m, k) && Executes(m, f) && m.frames[f].code.Await? && Awaited(m, m', f)
    ensures OutcomesOk(m', k)
  {
    assert FrameOk(m, f);
    var x := m.frames[f];
    assert Outcome(m', m.next, k) == Eval(x.code.child, x.code.args(x.env), LogOf(m, x.root), x.root, k);
    TreeStep(m, m', f, k);
  }

  lemma AwaitedKeepsStack(m: Machine, m': Machine, f: nat, k: Kernel)
    requires Invariant(m, k) && Executes(m, f) && m.frames[f].code.Await? && Awaited(m, m', f)
    ensures StackOk(m') && LifetimesOk(m')
  {
    assert FrameOk(m, f);
  }

  lemma AwaitedKeepsFrame(m: Machine, m': Machine, f: nat, g: nat, k: Kernel)
    requires Invariant(m, k) && Executes(m, f) && m.frames[f].code.Await? && Awaited(m, m', f) && g in m'.frames
    ensures FrameOk(m', g)
  {
    assert FrameOk(m, f);
    if g != m.next { assert FrameOk(m, g); }
  }

  lemma AwaitKeeps(m: Machine, f: nat, again: bool, k: Kernel)
    requires Invariant(m, k) && Executes(m, f) && m.frames[f].code.Await?
    ensures Invariant(Execute(m, f, again, k), k)
  {
    var m' := Execute(m, f, again, k);
    assert FrameOk(m, f) && f != m.next;
    assert Awaited(m, m', f);
    AwaitedKeepsOutcomes(m, m', f, k);
    AwaitedKeepsStack(m, m', f, k);
    forall g | g in m'.frames ensures FrameOk(m', g) {
      AwaitedKeepsFrame(m, m', f, g, k);
    }
  }

  /** An outcome does not look at the origins. */
  lemma {:induction false} SameOutcome(m: Machine, m': Machine, f: nat, k: Kernel)
    requires m'.frames == m.frames && m'.logs == m.logs && m'.next == m.next
    ensures Outcome(m', f, k) == Outcome(m, f, k)
    decreases m.next - f
  {
    if f in m.frames && f < m.next && m.frames[f].status.Awaiting? && m.frames[f].code.Await?
       && f < m.frames[f].status.child {
      SameOutcome(m, m', m.frames[f].status.child, k);
    }
  }

  /** After detach() has resumed its coroutine: a new root runs on top of the caller. */
  ghost predicate Detached(m: Machine, m': Machine, f: nat)
    requires f in m.frames && m.frames[f].code.Detach?
  {
    var x, n := m.frames[f], m.next;
    var env := x.code.args(x.env);
    m' == m.(frames := m.frames[f := x.(status := Detaching(n))][n := Frame(n, x.code.child, env, None, Running, 0)],
             current := Some(n), callers := m.callers + [f], next := n + 1,
             logs := m.logs[x.root := LogOf(m, x.root) + [Spawned(Origin(x.code.child, env))]][n := []],
             origins := m.origins[n := Origin(x.code.child, env)],
             births := m.births[n := (x.root, |LogOf(m, x.root)|)])
  }

  lemma DetachedKeepsOutcomes(m: Machine, m': Machine, f: nat, k: Kernel)
    requires Invariant(m, k) && Executes(m, f) && m.frames[f].code.Detach? && Detached(m, m', f)
    ensures OutcomesOk(m', k)
  {
    assert FrameOk(m, f);
    var before := m'.(origins := m.origins);
    TreeStep(m, before, f, k);
    forall r | r in m'.origins ensures r < m'.next && OutcomeOk(m', r, k) {
      SameOutcome(before, m', r, k);
      if r != m.next {
        assert OutcomeOk(before, r, k);
      }
    }
  }

  lemma DetachedKeepsFrame(m: Machine, m': Machine, f: nat, g: nat, k: Kernel)
    requires Invariant(m, k) && Executes(m, f) && m.frames[f].code.Detach? && Detached(m, m', f) && g in m'.frames
    ensures FrameOk(m', g)
  {
    assert FrameOk(m, f);
    if g != m.next {
      assert FrameOk(m, g);
      assert g in m'.callers <==> g in m.callers || g == f;
    }
  }

  lemma DetachedKeepsStack(m: Machine, m': Machine, f: nat, k: Kernel)
    requires Invariant(m, k) && Executes(m, f) && m.frames[f].code.Detach? && Detached(m, m', f)
    ensures StackOk(m') && LifetimesOk(m')
  {
    assert FrameOk(m, f);
    assert f !in m.callers;
  }

  lemma DetachedKeepsFrames(m: Machine, m': Machine, f: nat, k: Kernel)
    requires Invariant(m, k) && Executes(m, f) && m.frames[f].code.Detach? && Detached(m, m', f)
    ensures FramesOk(m')
  {
    forall g | g in m'.frames ensures FrameOk(m', g) {
      DetachedKeepsFrame(m, m', f, g, k);
    }
  }

  lemma DetachKeeps(m: Machine, f: nat, again: bool, k: Kernel)
    requires Invariant(m, k) && Executes(m, f) && m.frames[f].code.Detach?
    ensures Invariant(Execute(m, f, again, k), k)
  {
    var m' := Execute(m, f, again, k);
    assert FrameOk(m, f) && f != m.next;
    assert Detached(m, m', f);
    DetachedKeepsOutcomes(m, m', f, k);
    DetachedKeepsStack(m, m', f, k);
    DetachedKeepsFrames(m, m', f, k);
  }

  /** final_suspend with a waiter: the waiter runs, the frame stays until its result is taken. */
  lemma FinalSuspendKeeps(m: Machine, f: nat, again: bool, k: Kernel)
    requires Invariant(m, k) && Executes(m, f) && m.frames[f].code.Return? && m.frames[f].waiter.Some?
    ensures Invariant(Execute(m, f, again, k), k)
  {
    var m' := Execute(m, f, again, k);
    assert FrameOk(m, f);
    TreeStep(m, m', f, k);
    forall g | g in m'.frames ensures FrameOk(m', g) {
      assert FrameOk(m, g);
    }
  }

  /** final_suspend without a waiter: a root coroutine ends and destroys its own frame. */
  lemma FinishKeepsOutcomes(m: Machine, f: nat, again: bool, k: Kernel)
    requires Invariant(m, k) && Executes(m, f) && m.frames[f].code.Return? && m.frames[f].waiter.None?
    ensures OutcomesOk(Execute(m, f, again, k), k)
  {
    var m' := Execute(m, f, again, k);
    assert FrameOk(m, f);
    forall r | r in m'.origins ensures r < m'.next && OutcomeOk(m', r, k) {
      assert OutcomeOk(m, r, k);
      if r in m.frames && r != f {
        OutcomeIsLocal(m, m', r, k);
      }
    }
  }

  lemma FinishKeeps(m: Machine, f: nat, again: bool, k: Kernel)
    requires Invariant(m, k) && Executes(m, f) && m.frames[f].code.Return? && m.frames[f].waiter.None?
    ensures Invariant(Execute(m, f, again, k), k)
  {
    var m' := Execute(m, f, again, k);
    assert FrameOk(m, f);
    FinishKeepsOutcomes(m, f, again, k);
    YieldKeepsFrames(m, m', f);
    forall g | g in m'.frames ensures FrameOk(m', g) {
      assert FrameOk(m, g);
    }
  }

  /** After task::await_resume and the task's destructor: the waiter has the result, the child's
      frame is gone. */
  ghost predicate Delivered(m: Machine, m': Machine, f: nat)
    requires f in m.frames && m.frames[f].code.Await? && m.frames[f].status.Awaiting?
  {
    var x, c := m.frames[f], m.frames[f].status.child;
    c in m.frames && f != c &&
    (var y := x.(code := x.code.rest, env := x.env + [m.frames[c].result], status := Running);
     m' == m.(frames := m.frames[f := y] - {c}, destroyed := m.destroyed + [c]))
  }

  lemma DeliveredKeepsStack(m: Machine, m': Machine, f: nat, k: Kernel)
    requires Invariant(m, k) && m.current == Some(f) && f in m.frames && m.frames[f].status.Awaiting?
    requires m.frames[f].code.Await? && Delivered(m, m', f)
    ensures StackOk(m') && LifetimesOk(m')
  {
    assert FrameOk(m, f) && FrameOk(m, m.frames[f].status.child);
  }

  lemma DeliveredKeepsFrame(m: Machine, m': Machine, f: nat, g: nat, k: Kernel)
    requires Invariant(m, k) && m.current == Some(f) && f in m.frames && m.frames[f].status.Awaiting?
    requires m.frames[f].code.Await? && Delivered(m, m', f) && g in m'.frames
    ensures FrameOk(m', g)
  {
    assert FrameOk(m, f) && FrameOk(m, m.frames[f].status.child) && FrameOk(m, g);
  }

  lemma DeliveredKeeps(m: Machine, m': Machine, f: nat, k: Kernel)
    requires Invariant(m, k) && m.current == Some(f) && f in m.frames && m.frames[f].status.Awaiting?
    requires m.frames[f].code.Await? && Delivered(m, m', f)
    ensures Invariant(m', k)
  {
    assert FrameOk(m, f) && FrameOk(m, m.frames[f].status.child);
    TreeStep(m, m', f, k);
    DeliveredKeepsStack(m, m', f, k);
    forall g | g in m'.frames ensures FrameOk(m', g) {
      DeliveredKeepsFrame(m, m', f, g, k);
    }
  }

  /** The waiter takes the result and the task destroys the child's frame. */
  lemma AwaitResumeKeeps(m: Machine, f: nat, k: Kernel)
    requires Invariant(m, k) && m.current == Some(f) && f in m.frames && m.frames[f].status.Awaiting?
    ensures m.frames[f].code.Await? && Invariant(AwaitResume(m, f, m.frames[f].status.child), k)
  {
    assert FrameOk(m, f) && FrameOk(m, m.frames[f].status.child);
    assert Delivered(m, AwaitResume(m, f, m.frames[f].status.child), f);
    DeliveredKeeps(m, AwaitResume(m, f, m.frames[f].status.child), f, k);
  }

  /** After detach() has returned: the caller goes on. */
  function Continued(m: Machine, f: nat): Machine
    requires f in m.frames && m.frames[f].code.Detach?
  {
    m.(frames := m.frames[f := m.frames[f].(code := m.frames[f].code.rest, status := Running)])
  }

  lemma ContinuedKeeps(m: Machine, f: nat, k: Kernel)
    requires Invariant(m, k) && m.current == Some(f) && f in m.frames && m.frames[f].status.Detaching?
    requires m.frames[f].code.Detach?
    ensures Invariant(Continued(m, f), k)
  {
    assert FrameOk(m, f);
    var m' := Continued(m, f);
    TreeStep(m, m', f, k);
    forall g | g in m'.frames ensures FrameOk(m', g) {
      assert FrameOk(m, g);
    }
  }

  /** The destructor of a detached task leaves its frame alone, whatever done() says of a frame that
      is gone. */
  lemma DetachLeavesTheFrame(m: Machine, f: nat, done1: bool, done2: bool, k: Kernel)
    requires Invariant(m, k) && m.current == Some(f) && f in m.frames && m.frames[f].status.Detaching?
    requires Possible(m, Advance(false, done1, done2))
    ensures m.frames[f].code.Detach?
    ensures AfterDetach(m, f, m.frames[f].status.child, done1, done2) == Continued(m, f)
  {
    assert FrameOk(m, f);
    if m.frames[f].status.child in m.frames {
      assert FrameOk(m, m.frames[f].status.child);
    }
  }

  lemma ExecuteKeeps(m: Machine, f: nat, again: bool, k: Kernel)
    requires Invariant(m, k) && Executes(m, f)
    ensures Invariant(Execute(m, f, again, k), k)
  {
    match m.frames[f].code
    case Branch(_, _, _) => BranchKeeps(m, f, again, k);
    case Syscall(_, _) =>
      if again { BlockKeeps(m, Execute(m, f, again, k), f, k); } else { CompleteKeeps(m, f, k); }
    case Await(_, _, _) => AwaitKeeps(m, f, again, k);
    case Detach(_, _, _) => DetachKeeps(m, f, again, k);
    case Return(_) =>
      if m.frames[f].waiter.Some? { FinalSuspendKeeps(m, f, again, k); } else { FinishKeeps(m, f, again, k); }
  }

  lemma MoveKeeps(m: Machine, a: Move, k: Kernel)
    requires Invariant(m, k) && Possible(m, a)
    ensures Invariant(Apply(m, a, k), k)
  {
    match a
    case Wake(f) =>
      assert FrameOk(m, f);
      CompleteKeeps(m, f, k);
    case Advance(again, done1, done2) =>
      var f := m.current.value;
      assert FrameOk(m, f);
      if m.frames[f].status.Awaiting? {
        AwaitResumeKeeps(m, f, k);
      } else if m.frames[f].status.Detaching? {
        DetachLeavesTheFrame(m, f, done1, done2, k);
        ContinuedKeeps(m, f, k);
      } else {
        ExecuteKeeps(m, f, again, k);
      }
  }

  lemma {:induction false} RunKeeps(m: Machine, moves: seq<Move>, k: Kernel)
    requires Invariant(m, k) && PossibleRun(m, moves, k)
    ensures Invariant(Run(m, moves, k), k)
    decreases moves
  {
    if moves != [] {
      MoveKeeps(m, moves[0], k);
      RunKeeps(Apply(m, moves[0], k), moves[1..], k);
    }
  }

  lemma BootIsGood(code: Code, k: Kernel)
    ensures Invariant(Boot(code), k)
  {
    var m := Boot(code);
    assert StackOk(m);
    assert 0 in m.frames && LifetimesOk(m);
    assert FrameOk(m, 0);
    assert FramesOk(m);
    assert OutcomeOk(m, 0, k);
    assert OutcomesOk(m, k);
  }

  // ---- Termination and progress ----

  /** The moves that a coroutine can take, its children's included. */
  function Cost(code: Code): nat {
    match code
    case Return(_) => 1
    case Syscall(_, rest) => 2 + Cost(rest)
    case Await(child, _, rest) => 2 + Cost(child) + Cost(rest)
    case Detach(child, _, rest) => 2 + Cost(child) + Cost(rest)
    case Branch(_, yes, no) => 1 + Cost(yes) + Cost(no)
  }

  /** The moves that frame f still has before it. */
  function Owed(m: Machine, f: nat): nat {
    if f !in m.frames then 0
    else
      var x := m.frames[f];
      if x.status.Initial? || x.status.Running? then Cost(x.code)
      else if x.status.Done? || x.code.Return? || x.code.Branch? then 0
      else 1 + Cost(x.code.rest)
  }

  function TotalOwed(m: Machine, n: nat): nat {
    if n == 0 then 0 else TotalOwed(m, n - 1) + Owed(m, n - 1)
  }

  lemma {:induction false} TotalChanges(m: Machine, m': Machine, f: nat, n: nat)
    requires forall g: nat | g < n && g != f :: Owed(m', g) == Owed(m, g)
    ensures TotalOwed(m', n) + (if f < n then Owed(m, f) else 0) == TotalOwed(m, n) + (if f < n then Owed(m', f) else 0)
  {
    if n > 0 {
      TotalChanges(m, m', f, n - 1);
    }
  }

  lemma AwaitedDecreases(m: Machine, m': Machine, f: nat, k: Kernel)
    requires Invariant(m, k) && Executes(m, f) && m.frames[f].code.Await? && Awaited(m, m', f)
    ensures TotalOwed(m', m'.next) < TotalOwed(m, m.next)
  {
    assert FrameOk(m, f);
    TotalChanges(m, m', f, m.next);
  }

  lemma DetachedDecreases(m: Machine, m': Machine, f: nat, k: Kernel)
    requires Invariant(m, k) && Executes(m, f) && m.frames[f].code.Detach? && Detached(m, m', f)
    ensures TotalOwed(m', m'.next) < TotalOwed(m, m.next)
  {
    assert FrameOk(m, f);
    TotalChanges(m, m', f, m.next);
  }

  lemma DeliveredDecreases(m: Machine, m': Machine, f: nat, k: Kernel)
    requires Invariant(m, k) && m.current == Some(f) && f in m.frames && m.frames[f].status.Awaiting?
    requires m.frames[f].code.Await? && Delivered(m, m', f)
    ensures TotalOwed(m', m'.next) < TotalOwed(m, m.next)
  {
    assert FrameOk(m, f) && FrameOk(m, m.frames[f].status.child);
    TotalChanges(m, m', f, m.next);
  }

  lemma StepDecreases(m: Machine, f: nat, again: bool, k: Kernel)
    requires Invariant(m, k) && Executes(m, f) && (m.frames[f].code.Syscall? || m.frames[f].code.Branch?)
    ensures TotalOwed(Execute(m, f, again, k), Execute(m, f, again, k).next) < TotalOwed(m, m.next)
  {
    assert FrameOk(m, f);
    TotalChanges(m, Execute(m, f, again, k), f, m.next);
  }

  lemma ReturnDecreases(m: Machine, f: nat, again: bool, k: Kernel)
    requires Invariant(m, k) && Executes(m, f) && m.frames[f].code.Return?
    ensures TotalOwed(Execute(m, f, again, k), Execute(m, f, again, k).next) < TotalOwed(m, m.next)
  {
    assert FrameOk(m, f);
    TotalChanges(m, Execute(m, f, again, k), f, m.next);
  }

  lemma ExecuteDecreases(m: Machine, f: nat, again: bool, k: Kernel)
    requires Invariant(m, k) && Executes(m, f)
    ensures TotalOwed(Execute(m, f, again, k), Execute(m, f, again, k).next) < TotalOwed(m, m.next)
  {
    var m' := Execute(m, f, again, k);
    assert FrameOk(m, f) && f != m.next;
    match m.frames[f].code
    case Await(_, _, _) =>
      assert Awaited(m, m', f);
      AwaitedDecreases(m, m', f, k);
    case Detach(_, _, _) =>
      assert Detached(m, m', f);
      DetachedDecreases(m, m', f, k);
    case Return(_) => ReturnDecreases(m, f, again, k);
    case _ => StepDecreases(m, f, again, k);
  }

  /** Every move, a resume by the loop included, leaves less to do. */
  lemma MoveDecreases(m: Machine, a: Move, k: Kernel)
    requires Invariant(m, k) && Possible(m, a)
    ensures TotalOwed(Apply(m, a, k), Apply(m, a, k).next) < TotalOwed(m, m.next)
  {
    var m' := Apply(m, a, k);
    match a
    case Wake(f) =>
      assert FrameOk(m, f);
      TotalChanges(m, m', f, m.next);
    case Advance(again, done1, done2) =>
      var f := m.current.value;
      assert FrameOk(m, f);
      if m.frames[f].status.Awaiting? {
        assert FrameOk(m, m.frames[f].status.child);
        assert Delivered(m, m', f);
        DeliveredDecreases(m, m', f, k);
      } else if m.frames[f].status.Detaching? {
        DetachLeavesTheFrame(m, f, done1, done2, k);
        TotalChanges(m, m', f, m.next);
      } else {
        ExecuteDecreases(m, f, again, k);
      }
  }

  /** The machine is never stuck: whoever has the thread can go on, and when the loop has it, some
      coroutine is suspended in a syscall. */
  lemma Progress(m: Machine, again: bool, k: Kernel) returns (a: Move)
    requires Invariant(m, k) && m.frames != map[]
    ensures Possible(m, a) && (a.Advance? ==> a.again == again)
  {
    if m.current.Some? {
      var x := m.frames[m.current.value];
      var done := x.status.Detaching? && x.status.child in m.frames && m.frames[x.status.child].status.Done?;
      a := Advance(again, done, done);
    } else {
      var f := Youngest(m, m.next);
      assert FrameOk(m, f);
      a := Wake(f);
    }
  }

  lemma {:induction false} Youngest(m: Machine, n: nat) returns (f: nat)
    requires m.frames != map[] && (forall g | g in m.frames :: g < n)
    ensures f in m.frames && (forall g | g in m.frames :: g <= f)
    decreases n
  {
    assert (forall g :: g !in m.frames) ==> m.frames == map[];
    if n - 1 in m.frames {
      f := n - 1;
    } else {
      f := Youngest(m, n - 1);
    }
  }

  lemma {:induction false} RunDecreases(m: Machine, moves: seq<Move>, k: Kernel)
    requires Invariant(m, k) && PossibleRun(m, moves, k)
    ensures |moves| + TotalOwed(Run(m, moves, k), Run(m, moves, k).next) <= TotalOwed(m, m.next)
    decreases moves
  {
    if moves != [] {
      MoveKeeps(m, moves[0], k);
      MoveDecreases(m, moves[0], k);
      RunDecreases(Apply(m, moves[0], k), moves[1..], k);
    }
  }

  // ---- What every run guarantees ----

  /** Await simulation. However syscalls suspend and in whatever order the loop resumes them, every
      coroutine that was started, awaited trees and detached ones alike, ends with the result and
      the syscalls, in order, of its direct recursive evaluation. */
  lemma DrivingIsEvaluation(code: Code, moves: seq<Move>, k: Kernel, r: nat)
    requires PossibleRun(Boot(code), moves, k)
    requires var m := Run(Boot(code), moves, k); r in m.origins && r !in m.frames
    ensures var m := Run(Boot(code), moves, k);
      && r in m.results && r in m.logs
      && (m.results[r], m.logs[r]) == Eval(m.origins[r].code, m.origins[r].env, [], r, k)
  {
    BootIsGood(code, k);
    RunKeeps(Boot(code), moves, k);
    assert OutcomeOk(Run(Boot(code), moves, k), r, k);
  }

  /** A run has at most Cost(code) moves, and until no frame is left another move is possible. */
  lemma DrivingTerminates(code: Code, moves: seq<Move>, k: Kernel)
    requires PossibleRun(Boot(code), moves, k)
    ensures |moves| <= Cost(code)
    ensures Run(Boot(code), moves, k).frames != map[] ==> exists a :: Possible(Run(Boot(code), moves, k), a)
  {
    BootIsGood(code, k);
    RunKeeps(Boot(code), moves, k);
    RunDecreases(Boot(code), moves, k);
    assert TotalOwed(Boot(code), 1) == TotalOwed(Boot(code), 0) + Owed(Boot(code), 0);
    if Run(Boot(code), moves, k).frames != map[] {
      var a := Progress(Run(Boot(code), moves, k), false, k);
    }
  }

  /** Frame lifetime. No frame is destroyed twice, resumed after it is gone or at its final
      suspension, or asked for a result it no longer has; every frame that is not alive was
      destroyed exactly once; and a frame outlives its awaited children. */
  lemma FramesLiveOnce(code: Code, moves: seq<Move>, k: Kernel)
    requires PossibleRun(Boot(code), moves, k)
    ensures var m := Run(Boot(code), moves, k);
      && !m.fault
      && NoDuplicates(m.destroyed)
      && (forall f: nat :: f in m.destroyed <==> f < m.next && f !in m.frames)
      && (forall f | f in m.frames && m.frames[f].waiter.Some? ::
            var w := m.frames[f].waiter.value; w in m.frames && m.frames[w].status == Awaiting(f))
  {
    BootIsGood(code, k);
    RunKeeps(Boot(code), moves, k);
    var m := Run(Boot(code), moves, k);
    forall f | f in m.frames && m.frames[f].waiter.Some?
      ensures m.frames[f].waiter.value in m.frames && m.frames[m.frames[f].waiter.value].status == Awaiting(f)
    {
      assert FrameOk(m, f);
    }
  }

  /** When the destructor of a task is safe: the frame is still there, or the task was detached and
      the answers of done() do not contradict each other by saying first no, then yes. So a task that
      was only resumed, like the one main holds, may be dropped only while its coroutine has not
      finished. */
  lemma DroppingIsSafeIff(code: Code, moves: seq<Move>, k: Kernel, f: nat, detached: bool, done1: bool, done2: bool)
    requires PossibleRun(Boot(code), moves, k)
    ensures var m := Run(Boot(code), moves, k);
      !DropTask(m, f, detached, done1, done2).fault <==> f in m.frames || (detached && (done1 || !done2))
  {
    FramesLiveOnce(code, moves, k);
  }
}
