/** Tasks, promises and the final awaiter as a machine over coroutine frames.

    A coroutine is a finite tree of the things it may do: syscalls through an awaiter, tasks it
    awaits, tasks it detaches, and branches. The machine moves one frame at a time; `callers` is the
    part of the native stack to which control comes back when a coroutine suspends or ends. */
module Coroutines {
  import opened Wrappers

  /** What a coroutine has received so far, in order. */
  type Env = seq<int>

  datatype Code =
    | Return(value: Env -> int)
    | Syscall(request: Env -> int, rest: Code)
    | Await(child: Code, args: Env -> Env, rest: Code)
    | Detach(child: Code, args: Env -> Env, rest: Code)
    | Branch(test: Env -> bool, yes: Code, no: Code)

  /** What a coroutine is started with. */
  datatype Origin = Origin(code: Code, env: Env)

  /** What a coroutine, with those that it awaits, does to the world: it makes syscalls and detaches
      coroutines. */
  datatype Deed = Asked(request: int) | Spawned(origin: Origin)

  /** The value with which a syscall of a root coroutine completes, given what the root did before. */
  type Kernel = (nat, seq<Deed>, int) -> int

  /** Direct recursive evaluation with blocking syscalls: the result, and the syscalls made and the
      coroutines detached, in order. A detached child is somebody else's evaluation. */
  function Eval(code: Code, env: Env, log: seq<Deed>, root: nat, k: Kernel): (int, seq<Deed>) {
    match code
    case Return(value) => (value(env), log)
    case Syscall(request, rest) =>
      Eval(rest, env + [k(root, log, request(env))], log + [Asked(request(env))], root, k)
    case Await(child, args, rest) =>
      var (v, log') := Eval(child, args(env), log, root, k);
      Eval(rest, env + [v], log', root, k)
    case Detach(child, args, rest) => Eval(rest, env, log + [Spawned(Origin(child, args(env)))], root, k)
    case Branch(test, yes, no) => if test(env) then Eval(yes, env, log, root, k) else Eval(no, env, log, root, k)
  }

  /** Initial: created, not started. Detaching: inside detach(), waiting for resume() to return.
      Done: suspended at its final suspension point. */
  datatype Status = Initial | Running | Blocked | Awaiting(child: nat) | Detaching(child: nat) | Done

  /** A coroutine frame with its promise: `waiter` and `result` are the promise's fields. */
  datatype Frame = Frame(root: nat, code: Code, env: Env, waiter: Option<nat>, status: Status, result: int)

  /** `logs` holds what each root coroutine has done so far, `origins` what it was started with, and
      `births` by which root's doing, and at which place of its log, a detached one came to be. */
  datatype Machine = Machine(
    frames: map<nat, Frame>, current: Option<nat>, callers: seq<nat>, next: nat,
    logs: map<nat, seq<Deed>>, origins: map<nat, Origin>, births: map<nat, (nat, nat)>, results: map<nat, int>,
    destroyed: seq<nat>, fault: bool)

  /** main: the accept coroutine is created and resumed. */
  function Boot(code: Code): Machine {
    Machine(map[0 := Frame(0, code, [], None, Running, 0)], Some(0), [], 1,
            map[0 := []], map[0 := Origin(code, [])], map[], map[], [], false)
  }

  function Fail(m: Machine): Machine {
    m.(fault := true)
  }

  function LogOf(m: Machine, root: nat): seq<Deed> {
    if root in m.logs then m.logs[root] else []
  }

  // ---- task.hh ----

  function Create(m: Machine, root: nat, code: Code, env: Env): Machine {
    m.(frames := m.frames[m.next := Frame(root, code, env, None, Initial, 0)], next := m.next + 1)
  }

  /** coroutine_handle::resume: undefined on a frame that is gone or finally suspended. */
  function Resume(m: Machine, f: nat): Machine {
    if f !in m.frames || m.frames[f].status.Done? then Fail(m)
    else if m.frames[f].status.Initial?
    then m.(current := Some(f), frames := m.frames[f := m.frames[f].(status := Running)])
    else m.(current := Some(f))
  }

  function Destroy(m: Machine, f: nat): Machine {
    if f in m.frames then m.(frames := m.frames - {f}, destroyed := m.destroyed + [f]) else Fail(m)
  }

  /** Control goes back down the native stack: to a coroutine inside detach(), or to the loop. */
  function Yield(m: Machine): Machine {
    if m.callers == [] then m.(current := None)
    else m.(current := Some(m.callers[|m.callers| - 1]), callers := m.callers[..|m.callers| - 1])
  }

  /** task::await_suspend, of a child just created. */
  function AwaitSuspend(m: Machine, f: nat, child: nat): Machine
    requires f in m.frames && child in m.frames
  {
    Resume(m.(frames := m.frames[f := m.frames[f].(status := Awaiting(child))]
                                [child := m.frames[child].(waiter := Some(f))]), child)
  }

  /** final_awaiter::await_suspend. */
  function FinalAwait(m: Machine, f: nat): Machine
    requires f in m.frames
  {
    var x := m.frames[f];
    if x.waiter.Some? then Resume(m, x.waiter.value)
    else Yield(Destroy(m.(results := m.results[x.root := x.result]), f))
  }

  /** The destructor of task, given the two answers of done(). */
  function DropTask(m: Machine, f: nat, detached: bool, done1: bool, done2: bool): Machine {
    if done1 && detached then m
    else if done2 || !detached then Destroy(m, f)
    else m
  }

  /** task::await_resume and the end of the task object. */
  function AwaitResume(m: Machine, f: nat, child: nat): Machine
    requires f in m.frames && m.frames[f].code.Await?
  {
    if child !in m.frames then Fail(m)
    else
      var x := m.frames[f];
      var y := x.(code := x.code.rest, env := x.env + [m.frames[child].result], status := Running);
      DropTask(m.(frames := m.frames[f := y]), child, false, m.frames[child].status.Done?, m.frames[child].status.Done?)
  }

  /** task::detach. */
  function DetachTask(m: Machine, f: nat, child: nat): Machine
    requires f in m.frames && child in m.frames
  {
    Resume(m.(frames := m.frames[f := m.frames[f].(status := Detaching(child))], callers := m.callers + [f]), child)
  }

  /** Back from detach(): the task object goes out of scope. */
  function AfterDetach(m: Machine, f: nat, child: nat, done1: bool, done2: bool): Machine
    requires f in m.frames && m.frames[f].code.Detach?
  {
    var x := m.frames[f];
    DropTask(m.(frames := m.frames[f := x.(code := x.code.rest, status := Running)]), child, true, done1, done2)
  }

  /** A syscall completes and its value reaches the coroutine. */
  function Complete(m: Machine, f: nat, k: Kernel): Machine
    requires f in m.frames && m.frames[f].code.Syscall?
  {
    var x := m.frames[f];
    var log, q := LogOf(m, x.root), x.code.request(x.env);
    m.(frames := m.frames[f := x.(code := x.code.rest, env := x.env + [k(x.root, log, q)], status := Running)],
       logs := m.logs[x.root := log + [Asked(q)]])
  }

  /** What the running coroutine does next; `again` says that its syscall, if that is next, returns
      EAGAIN. */
  function Execute(m: Machine, f: nat, again: bool, k: Kernel): Machine
    requires f in m.frames
  {
    var x := m.frames[f];
    match x.code
    case Branch(test, yes, no) => m.(frames := m.frames[f := x.(code := if test(x.env) then yes else no)])
    case Syscall(_, _) =>
      if again then Yield(m.(frames := m.frames[f := x.(status := Blocked)])) else Complete(m, f, k)
    case Await(child, args, _) => AwaitSuspend(Create(m, x.root, child, args(x.env)), f, m.next)
    case Detach(child, args, _) =>
      var n, origin, log := m.next, Origin(child, args(x.env)), LogOf(m, x.root);
      DetachTask(Create(m, n, child, args(x.env)).(
                   logs := m.logs[x.root := log + [Spawned(origin)]][n := []],
                   origins := m.origins[n := origin], births := m.births[n := (x.root, |log|)]), f, n)
    case Return(value) =>
      FinalAwait(m.(frames := m.frames[f := x.(status := Done, result := value(x.env))]), f)
  }

  datatype Move = Advance(again: bool, done1: bool, done2: bool) | Wake(f: nat)

  function Apply(m: Machine, a: Move, k: Kernel): Machine {
    match a
    case Wake(f) =>
      if f in m.frames && m.frames[f].code.Syscall? then Complete(m.(current := Some(f)), f, k) else Fail(m)
    case Advance(again, done1, done2) =>
      if m.current.None? || m.current.value !in m.frames then Fail(m)
      else
        var f := m.current.value;
        match m.frames[f].status
        case Running => Execute(m, f, again, k)
        case Awaiting(c) => if m.frames[f].code.Await? then AwaitResume(m, f, c) else Fail(m)
        case Detaching(c) => if m.frames[f].code.Detach? then AfterDetach(m, f, c, done1, done2) else Fail(m)
        case _ => Fail(m)
  }

  /** The loop resumes only a coroutine suspended in a syscall, and only when it has control. The
      two done() queries of a destructor see the frame's state if it exists; of a frame that is gone
      they may say anything, as long as they agree. */
  predicate Possible(m: Machine, a: Move) {
    match a
    case Wake(f) => m.current.None? && f in m.frames && m.frames[f].status.Blocked?
    case Advance(_, done1, done2) =>
      m.current.Some? && done1 == done2 &&
      (m.current.value in m.frames && m.frames[m.current.value].status.Detaching? ==>
         var c := m.frames[m.current.value].status.child;
         c in m.frames ==> done1 == m.frames[c].status.Done?)
  }

  function Run(m: Machine, moves: seq<Move>, k: Kernel): Machine
    decreases moves
  {
    if moves == [] then m else Run(Apply(m, moves[0], k), moves[1..], k)
  }

  ghost predicate PossibleRun(m: Machine, moves: seq<Move>, k: Kernel)
    decreases moves
  {
    moves == [] || (Possible(m, moves[0]) && PossibleRun(Apply(m, moves[0], k), moves[1..], k))
  }

  // ---- The invariant ----

  /** A frame's links: its waiter awaits it, an awaited child is there, and what it is stopped at is
      what its status says. */
  ghost predicate FrameOk(m: Machine, f: nat)
    requires f in m.frames
  {
    var x := m.frames[f];
    && f < m.next && x.root < m.next && x.root in m.logs && x.root in m.origins
    && (x.waiter.None? <==> x.root == f)
    && (x.waiter.Some? ==>
          var w := x.waiter.value;
          w < f && w in m.frames && m.frames[w].status == Awaiting(f) && m.frames[w].root == x.root)
    && match x.status
       case Initial => false
       case Running => m.current == Some(f)
       case Blocked => x.code.Syscall? && m.current != Some(f) && f !in m.callers
       case Awaiting(c) =>
         x.code.Await? && f < c && c in m.frames && m.frames[c].waiter == Some(f) && f !in m.callers
         && (m.current == Some(f) <==> m.frames[c].status.Done?)
       case Detaching(c) =>
         x.code.Detach? && f < c < m.next && (f in m.callers <==> m.current != Some(f))
         && (c in m.frames ==> m.frames[c].root == c)
       case Done => x.waiter.Some? && m.current == x.waiter && f !in m.callers
  }

  ghost predicate StackOk(m: Machine) {
    && NoDuplicates(m.callers)
    && (m.current.Some? ==> m.current.value in m.frames)
    && (m.current.None? ==> m.callers == [])
    && (forall f | f in m.callers :: f in m.frames && m.frames[f].status.Detaching?)
  }

  /** Every frame ever created is alive or was destroyed exactly once. */
  ghost predicate LifetimesOk(m: Machine) {
    && NoDuplicates(m.destroyed)
    && (forall f: nat :: f in m.destroyed <==> f < m.next && f !in m.frames)
    && (forall f | f in m.frames || f in m.logs :: f < m.next)
  }

  /** What frame f will hand to its waiter, and what its tree will have done by then, by direct
      evaluation of what is left. */
  function Outcome(m: Machine, f: nat, k: Kernel): (int, seq<Deed>)
    decreases m.next - f
  {
    if f !in m.frames || f >= m.next then (0, [])
    else
      var x := m.frames[f];
      var log := LogOf(m, x.root);
      match x.status
      case Done => (x.result, log)
      case Awaiting(c) =>
        if x.code.Await? && f < c then
          var (v, log') := Outcome(m, c, k);
          Eval(x.code.rest, x.env + [v], log', x.root, k)
        else (0, [])
      case Detaching(_) => if x.code.Detach? then Eval(x.code.rest, x.env, log, x.root, k) else (0, [])
      case _ => Eval(x.code, x.env, log, x.root, k)
  }

  function Expected(m: Machine, root: nat, k: Kernel): (int, seq<Deed>)
    requires root in m.origins
  {
    Eval(m.origins[root].code, m.origins[root].env, [], root, k)
  }

  /** Every root coroutine, alive or finished, is on the way to what direct evaluation gives. */
  ghost predicate OutcomeOk(m: Machine, r: nat, k: Kernel)
    requires r in m.origins
  {
    if r in m.frames then m.frames[r].root == r && Outcome(m, r, k) == Expected(m, r, k)
    else r in m.results && r in m.logs && (m.results[r], m.logs[r]) == Expected(m, r, k)
  }

  ghost predicate FramesOk(m: Machine) {
    forall f {:trigger FrameOk(m, f)} | f in m.frames :: FrameOk(m, f)
  }

  ghost predicate OutcomesOk(m: Machine, k: Kernel) {
    forall r {:trigger OutcomeOk(m, r, k)} | r in m.origins :: r < m.next && OutcomeOk(m, r, k)
  }

  ghost predicate Invariant(m: Machine, k: Kernel) {
    !m.fault && StackOk(m) && LifetimesOk(m) && FramesOk(m) && OutcomesOk(m, k)
  }
}
