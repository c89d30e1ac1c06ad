/** Which coroutines come to be in a run: the first, and exactly those that direct evaluation detaches. */
module Families {
  import opened Wrappers
  import opened Coroutines
  import opened AwaitSimulation

  /** q was detached at a place of its creator's log, which says what it was started with. */
  ghost predicate BirthOk(m: Machine, q: nat) {
    q in m.births && q in m.origins &&
    var (r, i) := m.births[q];
    r < q && r in m.origins && r in m.logs && i < |m.logs[r]| && m.logs[r][i] == Spawned(m.origins[q])
  }

  /** Some coroutine was detached at place i of the log of r. */
  ghost predicate BornAt(m: Machine, r: nat, i: nat) {
    exists q :: q in m.births && m.births[q] == (r, i)
  }

  /** Coroutines other than the first and entries of logs that detach one correspond. */
  ghost predicate FamilyOk(m: Machine, first: Origin) {
    && 0 in m.origins && m.origins[0] == first && 0 !in m.births
    && (forall q | q in m.origins && q != 0 :: BirthOk(m, q))
    && (forall q | q in m.births :: q in m.origins && q < m.next)
    && (forall p, q | p in m.births && q in m.births && p != q :: m.births[p] != m.births[q])
    && (forall r, i: nat | r in m.logs && i < |m.logs[r]| && m.logs[r][i].Spawned? :: BornAt(m, r, i))
  }

  /** Nothing is detached: logs only grow, by syscalls. */
  ghost predicate Continues(m: Machine, m': Machine) {
    && m'.origins == m.origins && m'.births == m.births && m'.next >= m.next && m'.logs.Keys == m.logs.Keys
    && (forall r | r in m.logs :: m.logs[r] <= m'.logs[r])
    && (forall r, i: nat | r in m.logs && |m.logs[r]| <= i < |m'.logs[r]| :: m'.logs[r][i].Asked?)
  }

  lemma ContinuesKeeps(m: Machine, m': Machine, first: Origin)
    requires FamilyOk(m, first) && Continues(m, m')
    ensures FamilyOk(m', first)
  {
    forall q | q in m'.origins && q != 0 ensures BirthOk(m', q) {
      assert BirthOk(m, q);
    }
    forall r, i: nat | r in m'.logs && i < |m'.logs[r]| && m'.logs[r][i].Spawned? ensures BornAt(m', r, i) {
      assert i < |m.logs[r]| && m.logs[r][i] == m'.logs[r][i];
      assert BornAt(m, r, i);
    }
  }

  lemma NextIsNew(m: Machine, k: Kernel)
    requires Invariant(m, k)
    ensures m.next !in m.origins && m.next !in m.logs
  {
    forall r | r in m.origins ensures r < m.next {
      assert OutcomeOk(m, r, k);
    }
  }

  /** n is detached by r, and started as o says. */
  ghost predicate Bears(m: Machine, m': Machine, n: nat, r: nat, o: Origin) {
    && n !in m.origins && n !in m.logs && n !in m.births && n < m'.next && m.next <= m'.next
    && r in m.logs && r in m.origins && r < n
    && m'.logs == m.logs[r := m.logs[r] + [Spawned(o)]][n := []]
    && m'.origins == m.origins[n := o] && m'.births == m.births[n := (r, |m.logs[r]|)]
  }

  lemma BearsKeepsBirths(m: Machine, m': Machine, n: nat, r: nat, o: Origin, first: Origin, q: nat)
    requires FamilyOk(m, first) && Bears(m, m', n, r, o) && q in m'.origins && q != 0
    ensures BirthOk(m', q)
  {
    if q != n {
      assert BirthOk(m, q);
    }
  }

  lemma BearsKeepsPlaces(m: Machine, m': Machine, n: nat, r: nat, o: Origin, first: Origin)
    requires FamilyOk(m, first) && Bears(m, m', n, r, o)
    ensures forall p, q | p in m'.births && q in m'.births && p != q :: m'.births[p] != m'.births[q]
  {
    forall q | q in m.births ensures m.births[q] != (r, |m.logs[r]|) {
      assert BirthOk(m, q);
    }
  }

  lemma BearsFillsPlaces(m: Machine, m': Machine, n: nat, r: nat, o: Origin, first: Origin, r': nat, i: nat)
    requires FamilyOk(m, first) && Bears(m, m', n, r, o)
    requires r' in m'.logs && i < |m'.logs[r']| && m'.logs[r'][i].Spawned?
    ensures BornAt(m', r', i)
  {
    if r' == r && i == |m.logs[r]| {
      assert m'.births[n] == (r', i);
    } else {
      assert r' in m.logs && m.logs[r'][i] == m'.logs[r'][i];
      OlderIsStillBorn(m, m', r', i);
    }
  }

  lemma BearsKeeps(m: Machine, m': Machine, n: nat, r: nat, o: Origin, first: Origin)
    requires FamilyOk(m, first) && Bears(m, m', n, r, o)
    ensures FamilyOk(m', first)
  {
    forall q | q in m'.origins && q != 0 ensures BirthOk(m', q) {
      BearsKeepsBirths(m, m', n, r, o, first, q);
    }
    BearsKeepsPlaces(m, m', n, r, o, first);
    forall r', i: nat | r' in m'.logs && i < |m'.logs[r']| && m'.logs[r'][i].Spawned? ensures BornAt(m', r', i) {
      BearsFillsPlaces(m, m', n, r, o, first, r', i);
    }
  }

  lemma OlderIsStillBorn(m: Machine, m': Machine, r: nat, i: nat)
    requires BornAt(m, r, i) && m.births.Keys <= m'.births.Keys
    requires forall q | q in m.births :: m'.births[q] == m.births[q]
    ensures BornAt(m', r, i)
  {
    var q :| q in m.births && m.births[q] == (r, i);
    assert q in m'.births && m'.births[q] == (r, i);
  }

  lemma CompleteContinues(m: Machine, f: nat, k: Kernel)
    requires Invariant(m, k) && f in m.frames && m.frames[f].code.Syscall?
    ensures Continues(m, Complete(m.(current := Some(f)), f, k))
  {
    assert FrameOk(m, f);
  }

  /** A move that leaves the books alone. */
  ghost predicate SameBooks(m: Machine, m': Machine) {
    m'.origins == m.origins && m'.births == m.births && m'.logs == m.logs && m'.next >= m.next
  }

  lemma ReturnKeepsBooks(m: Machine, f: nat, again: bool, k: Kernel)
    requires f in m.frames && m.frames[f].code.Return?
    ensures SameBooks(m, Execute(m, f, again, k))
  {
  }

  lemma AwaitKeepsBooks(m: Machine, f: nat, again: bool, k: Kernel)
    requires f in m.frames && (m.frames[f].code.Await? || m.frames[f].code.Branch?)
    ensures SameBooks(m, Execute(m, f, again, k))
  {
  }

  lemma ExecuteContinues(m: Machine, f: nat, again: bool, k: Kernel)
    requires Invariant(m, k) && Executes(m, f) && !m.frames[f].code.Detach?
    ensures Continues(m, Execute(m, f, again, k))
  {
    if m.frames[f].code.Syscall? {
      if !again {
        CompleteContinues(m, f, k);
      }
    } else if m.frames[f].code.Return? {
      ReturnKeepsBooks(m, f, again, k);
    } else {
      AwaitKeepsBooks(m, f, again, k);
    }
  }

  lemma DetachBears(m: Machine, f: nat, again: bool, k: Kernel)
    requires Invariant(m, k) && Executes(m, f) && m.frames[f].code.Detach? && m.next !in m.births
    ensures var x := m.frames[f];
      Bears(m, Execute(m, f, again, k), m.next, x.root, Origin(x.code.child, x.code.args(x.env)))
  {
    assert FrameOk(m, f) && f != m.next;
    NextIsNew(m, k);
  }

  lemma DetachMoveKeepsFamily(m: Machine, f: nat, again: bool, first: Origin, k: Kernel)
    requires Invariant(m, k) && FamilyOk(m, first) && Executes(m, f) && m.frames[f].code.Detach?
    ensures FamilyOk(Execute(m, f, again, k), first)
  {
    var x := m.frames[f];
    DetachBears(m, f, again, k);
    BearsKeeps(m, Execute(m, f, again, k), m.next, x.root, Origin(x.code.child, x.code.args(x.env)), first);
  }

  lemma ReturnedContinues(m: Machine, a: Move, k: Kernel)
    requires Invariant(m, k) && Possible(m, a) && a.Advance? && !m.frames[m.current.value].status.Running?
    ensures SameBooks(m, Apply(m, a, k))
  {
    var f := m.current.value;
    assert FrameOk(m, f);
    if m.frames[f].status.Detaching? {
      DetachLeavesTheFrame(m, f, a.done1, a.done2, k);
    } else {
      assert FrameOk(m, m.frames[f].status.child) && Delivered(m, Apply(m, a, k), f);
    }
  }

  lemma MoveKeepsFamily(m: Machine, a: Move, first: Origin, k: Kernel)
    requires Invariant(m, k) && FamilyOk(m, first) && Possible(m, a)
    ensures FamilyOk(Apply(m, a, k), first)
  {
    if a.Wake? {
      assert FrameOk(m, a.f);
      CompleteContinues(m, a.f, k);
      ContinuesKeeps(m, Apply(m, a, k), first);
    } else if !m.frames[m.current.value].status.Running? {
      ReturnedContinues(m, a, k);
      ContinuesKeeps(m, Apply(m, a, k), first);
    } else if m.frames[m.current.value].code.Detach? {
      DetachMoveKeepsFamily(m, m.current.value, a.again, first, k);
    } else {
      ExecuteContinues(m, m.current.value, a.again, k);
      ContinuesKeeps(m, Apply(m, a, k), first);
    }
  }

  lemma {:induction false} RunKeepsFamily(m: Machine, moves: seq<Move>, first: Origin, k: Kernel)
    requires Invariant(m, k) && FamilyOk(m, first) && PossibleRun(m, moves, k)
    ensures FamilyOk(Run(m, moves, k), first)
    decreases moves
  {
    if moves != [] {
      MoveKeeps(m, moves[0], k);
      MoveKeepsFamily(m, moves[0], first, k);
      RunKeepsFamily(Apply(m, moves[0], k), moves[1..], first, k);
    }
  }

  lemma BootFamily(code: Code)
    ensures FamilyOk(Boot(code), Origin(code, []))
  {
  }

  // ---- What has been done is the beginning of what direct evaluation does ----

  lemma {:induction false} EvalExtends(code: Code, env: Env, log: seq<Deed>, root: nat, k: Kernel)
    ensures log <= Eval(code, env, log, root, k).1
  {
    match code
    case Return(_) =>
    case Syscall(request, rest) =>
      EvalExtends(rest, env + [k(root, log, request(env))], log + [Asked(request(env))], root, k);
    case Await(child, args, rest) =>
      var (v, log') := Eval(child, args(env), log, root, k);
      EvalExtends(child, args(env), log, root, k);
      EvalExtends(rest, env + [v], log', root, k);
    case Detach(child, args, rest) =>
      EvalExtends(rest, env, log + [Spawned(Origin(child, args(env)))], root, k);
    case Branch(test, yes, no) =>
      EvalExtends(if test(env) then yes else no, env, log, root, k);
  }

  lemma {:induction false} OutcomeExtends(m: Machine, f: nat, k: Kernel)
    requires FramesOk(m) && f in m.frames
    ensures LogOf(m, m.frames[f].root) <= Outcome(m, f, k).1
    decreases m.next - f
  {
    assert FrameOk(m, f);
    var x := m.frames[f];
    var log := LogOf(m, x.root);
    match x.status
    case Done =>
    case Awaiting(c) =>
      assert FrameOk(m, c);
      OutcomeExtends(m, c, k);
      EvalExtends(x.code.rest, x.env + [Outcome(m, c, k).0], Outcome(m, c, k).1, x.root, k);
    case Detaching(_) => EvalExtends(x.code.rest, x.env, log, x.root, k);
    case _ => EvalExtends(x.code, x.env, log, x.root, k);
  }

  lemma LogIsABeginning(m: Machine, r: nat, k: Kernel)
    requires Invariant(m, k) && r in m.origins
    ensures LogOf(m, r) <= Expected(m, r, k).1
  {
    assert OutcomeOk(m, r, k);
    if r in m.frames {
      OutcomeExtends(m, r, k);
    }
  }

  // ---- What every run guarantees ----

  /** The coroutines of a run are the first one, started with nothing, and others, each of which is what
      direct evaluation of an earlier one detaches at a certain place, with the arguments given there; no
      two share a place; and of a coroutine that has ended every such place has its coroutine. */
  ghost predicate IsFamily(m: Machine, code: Code, k: Kernel) {
    && 0 in m.origins && m.origins[0] == Origin(code, [])
    && (forall q | q in m.origins && q != 0 ::
          q in m.births &&
          var (r, i) := m.births[q];
          && r < q && r in m.origins
          && i < |Expected(m, r, k).1| && Expected(m, r, k).1[i] == Spawned(m.origins[q]))
    && (forall p, q | p in m.births && q in m.births && p != q :: m.births[p] != m.births[q])
    && (forall r, i: nat | r in m.origins && r !in m.frames && i < |Expected(m, r, k).1| ::
          Expected(m, r, k).1[i].Spawned? ==> BornAt(m, r, i))
  }

  lemma FamilyIsEvaluated(m: Machine, code: Code, k: Kernel)
    requires Invariant(m, k) && FamilyOk(m, Origin(code, []))
    ensures IsFamily(m, code, k)
  {
    forall q | q in m.origins && q != 0
      ensures BirthOk(m, q)
      ensures var (r, i) := m.births[q];
        r in m.origins && i < |Expected(m, r, k).1| && Expected(m, r, k).1[i] == Spawned(m.origins[q])
    {
      assert BirthOk(m, q);
      LogIsABeginning(m, m.births[q].0, k);
    }
    forall r, i: nat | r in m.origins && r !in m.frames && i < |Expected(m, r, k).1|
      ensures Expected(m, r, k).1[i].Spawned? ==> BornAt(m, r, i)
    {
      assert OutcomeOk(m, r, k);
    }
  }

  /** Detached coroutines, in every run. */
  lemma DetachedAreEvaluated(code: Code, moves: seq<Move>, k: Kernel)
    requires PossibleRun(Boot(code), moves, k)
    ensures IsFamily(Run(Boot(code), moves, k), code, k)
  {
    BootIsGood(code, k);
    BootFamily(code);
    RunKeeps(Boot(code), moves, k);
    RunKeepsFamily(Boot(code), moves, Origin(code, []), k);
    FamilyIsEvaluated(Run(Boot(code), moves, k), code, k);
  }
}
