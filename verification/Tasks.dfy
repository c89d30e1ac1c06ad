/** task.hh as it runs: handles, promises and the native stack updated in place, driven by the loop
    until every coroutine has ended. */
module Tasks {
  import opened Wrappers
  import Coroutines
  import opened AwaitSimulation
  import Families

  type Frame = Coroutines.Frame
  type Code = Coroutines.Code
  type Env = Coroutines.Env
  type Origin = Coroutines.Origin

  class Runtime {
    const kernel: Coroutines.Kernel
    var frames: map<nat, Frame>
    var current: Option<nat>
    var callers: seq<nat>
    var next: nat
    var logs: map<nat, seq<Coroutines.Deed>>
    var origins: map<nat, Origin>
    var births: map<nat, (nat, nat)>
    var results: map<nat, int>
    var destroyed: seq<nat>

    function State(): Coroutines.Machine
      reads this
    {
      Coroutines.Machine(frames, current, callers, next, logs, origins, births, results, destroyed, false)
    }

    constructor (code: Code, kernel: Coroutines.Kernel)
      ensures State() == Coroutines.Boot(code) && this.kernel == kernel
    {
      this.kernel := kernel;
      frames := map[0 := Coroutines.Frame(0, code, [], None, Coroutines.Running, 0)];
      current, callers, next := Some(0), [], 1;
      logs, origins, births := map[0 := []], map[0 := Coroutines.Origin(code, [])], map[];
      results, destroyed := map[], [];
    }

    method Resume(f: nat)
      requires f in frames && !frames[f].status.Done?
      modifies this`current, this`frames
      ensures State() == Coroutines.Resume(old(State()), f)
    {
      if frames[f].status.Initial? {
        frames := frames[f := frames[f].(status := Coroutines.Running)];
      }
      current := Some(f);
    }

    method Destroy(f: nat)
      requires f in frames
      modifies this`frames, this`destroyed
      ensures State() == Coroutines.Destroy(old(State()), f)
    {
      frames := frames - {f};
      destroyed := destroyed + [f];
    }

    method Yield()
      modifies this`current, this`callers
      ensures State() == Coroutines.Yield(old(State()))
    {
      if callers == [] {
        current := None;
      } else {
        current, callers := Some(callers[|callers| - 1]), callers[..|callers| - 1];
      }
    }

    method CreateTask(root: nat, code: Code, env: Env) returns (f: nat)
      modifies this`frames, this`next
      ensures f == old(next) && State() == Coroutines.Create(old(State()), root, code, env)
    {
      f := next;
      frames := frames[f := Coroutines.Frame(root, code, env, None, Coroutines.Initial, 0)];
      next := next + 1;
    }

    method AwaitSuspend(f: nat, child: nat)
      requires f in frames && child in frames && f != child && frames[child].status.Initial?
      modifies this`frames, this`current
      ensures State() == Coroutines.AwaitSuspend(old(State()), f, child)
    {
      frames := frames[f := frames[f].(status := Coroutines.Awaiting(child))];
      frames := frames[child := frames[child].(waiter := Some(f))];
      Resume(child);
    }

    method FinalAwait(f: nat)
      requires f in frames
      requires frames[f].waiter.Some? ==>
        frames[f].waiter.value in frames && !frames[frames[f].waiter.value].status.Done?
      modifies this
      ensures State() == Coroutines.FinalAwait(old(State()), f)
    {
      if frames[f].waiter.Some? {
        Resume(frames[f].waiter.value);
      } else {
        results := results[frames[f].root := frames[f].result];
        Destroy(f);
        Yield();
      }
    }

    /** The destructor of task; its two calls of done() answer done1 and done2. */
    method DropTask(f: nat, detached: bool, done1: bool, done2: bool)
      requires f in frames || (detached && (done1 || !done2))
      modifies this`frames, this`destroyed
      ensures State() == Coroutines.DropTask(old(State()), f, detached, done1, done2)
    {
      if done1 && detached {
        // finished on its own: nothing left to destroy
      } else if done2 || !detached {
        Destroy(f);
      }
    }

    method AwaitResume(f: nat, child: nat)
      requires f in frames && frames[f].code.Await? && child in frames && f != child
      modifies this`frames, this`destroyed
      ensures State() == Coroutines.AwaitResume(old(State()), f, child)
    {
      var x, done := frames[f], frames[child].status.Done?;
      var y := x.(code := x.code.rest, env := x.env + [frames[child].result], status := Coroutines.Running);
      frames := frames[f := y];
      DropTask(child, false, done, done);
    }

    method DetachTask(f: nat, child: nat)
      requires f in frames && child in frames && f != child && frames[child].status.Initial?
      modifies this`frames, this`current, this`callers
      ensures State() == Coroutines.DetachTask(old(State()), f, child)
    {
      frames := frames[f := frames[f].(status := Coroutines.Detaching(child))];
      callers := callers + [f];
      Resume(child);
    }

    method AfterDetach(f: nat, child: nat, done1: bool, done2: bool)
      requires f in frames && frames[f].code.Detach? && f != child
      requires child in frames || done1 || !done2
      modifies this`frames, this`destroyed
      ensures State() == Coroutines.AfterDetach(old(State()), f, child, done1, done2)
    {
      frames := frames[f := frames[f].(code := frames[f].code.rest, status := Coroutines.Running)];
      DropTask(child, true, done1, done2);
    }

    method Complete(f: nat)
      requires f in frames && frames[f].code.Syscall?
      modifies this`frames, this`logs
      ensures State() == Coroutines.Complete(old(State()), f, kernel)
    {
      var x := frames[f];
      var log, q := if x.root in logs then logs[x.root] else [], x.code.request(x.env);
      var y := x.(code := x.code.rest, env := x.env + [kernel(x.root, log, q)], status := Coroutines.Running);
      frames := frames[f := y];
      logs := logs[x.root := log + [Coroutines.Asked(q)]];
    }

    /** detach() of a task just created. */
    method Spawn(f: nat)
      requires f in frames && frames[f].code.Detach? && f < next
      modifies this
      ensures State() == Coroutines.Execute(old(State()), f, false, kernel)
    {
      var x := frames[f];
      var log := if x.root in logs then logs[x.root] else [];
      var origin := Coroutines.Origin(x.code.child, x.code.args(x.env));
      var c := CreateTask(next, x.code.child, x.code.args(x.env));
      logs := logs[x.root := log + [Coroutines.Spawned(origin)]][c := []];
      origins, births := origins[c := origin], births[c := (x.root, |log|)];
      DetachTask(f, c);
    }

    method Execute(f: nat, again: bool)
      requires Coroutines.Invariant(State(), kernel) && Executes(State(), f)
      modifies this
      ensures State() == Coroutines.Execute(old(State()), f, again, kernel)
    {
      assert Coroutines.FrameOk(State(), f) && f < next;
      var x := frames[f];
      match x.code
      case Branch(test, yes, no) =>
        frames := frames[f := x.(code := if test(x.env) then yes else no)];
      case Syscall(_, _) =>
        if again {
          frames := frames[f := x.(status := Coroutines.Blocked)];
          Yield();
        } else {
          Complete(f);
        }
      case Await(child, args, _) =>
        var c := CreateTask(x.root, child, args(x.env));
        AwaitSuspend(f, c);
      case Detach(_, _, _) => Spawn(f);
      case Return(value) =>
        frames := frames[f := x.(status := Coroutines.Done, result := value(x.env))];
        FinalAwait(f);
    }

    /** Whatever has the thread makes one move. */
    method Advance(again: bool, done: bool)
      requires Coroutines.Invariant(State(), kernel)
      requires Coroutines.Possible(State(), Coroutines.Advance(again, done, done))
      modifies this
      ensures State() == Coroutines.Apply(old(State()), Coroutines.Advance(again, done, done), kernel)
    {
      var f := current.value;
      assert Coroutines.FrameOk(State(), f);
      if frames[f].status.Awaiting? {
        AwaitResume(f, frames[f].status.child);
      } else if frames[f].status.Detaching? {
        AfterDetach(f, frames[f].status.child, done, done);
      } else {
        Execute(f, again);
      }
    }

    method Wake(f: nat)
      requires Coroutines.Invariant(State(), kernel) && Coroutines.Possible(State(), Coroutines.Wake(f))
      modifies this
      ensures State() == Coroutines.Apply(old(State()), Coroutines.Wake(f), kernel)
    {
      assert Coroutines.FrameOk(State(), f);
      current := Some(f);
      Complete(f);
    }

    /** Some coroutine that the loop can resume. */
    method Suspended() returns (f: nat)
      requires Coroutines.Invariant(State(), kernel) && current.None? && frames != map[]
      ensures f in frames && frames[f].status.Blocked?
    {
      ghost var a := Progress(State(), false, kernel);
      f :| f in frames && frames[f].status.Blocked?;
    }

    /** The whole program: whichever syscalls suspend, and whatever done() says of a frame that is
        gone, the coroutines that come to be are those that direct evaluation detaches, every one ends
        as its direct evaluation does, and every frame is destroyed once. */
    method Drive(code: Code, again: nat -> bool, answer: nat -> bool)
      requires State() == Coroutines.Boot(code)
      modifies this
      ensures frames == map[] && Families.IsFamily(State(), code, kernel)
      ensures forall r | r in origins ::
        && r in results && r in logs
        && (results[r], logs[r]) == Coroutines.Eval(origins[r].code, origins[r].env, [], r, kernel)
      ensures NoDuplicates(destroyed) && (forall f: nat :: f in destroyed <==> f < next)
    {
      BootIsGood(code, kernel);
      Families.BootFamily(code);
      var i := 0;
      while frames != map[]
        invariant Coroutines.Invariant(State(), kernel)
        invariant Families.FamilyOk(State(), Coroutines.Origin(code, []))
        decreases TotalOwed(State(), next)
      {
        ghost var m := State();
        ghost var a: Coroutines.Move;
        if current.None? {
          var f := Suspended();
          a := Coroutines.Wake(f);
          Wake(f);
        } else {
          var f := current.value;
          var done := if frames[f].status.Detaching? && frames[f].status.child in frames
                      then frames[frames[f].status.child].status.Done? else answer(i);
          a := Coroutines.Advance(again(i), done, done);
          Advance(again(i), done);
        }
        MoveKeeps(m, a, kernel);
        MoveDecreases(m, a, kernel);
        Families.MoveKeepsFamily(m, a, Coroutines.Origin(code, []), kernel);
        i := i + 1;
      }
      Families.FamilyIsEvaluated(State(), code, kernel);
      forall r | r in origins
        ensures r in results && r in logs &&
          (results[r], logs[r]) == Coroutines.Eval(origins[r].code, origins[r].env, [], r, kernel)
      {
        assert Coroutines.OutcomeOk(State(), r, kernel);
      }
    }
  }
}
