/** IOContext as it runs: fields updated in place, every method tied to a step of the event loop. */
module IoContext {
  import opened Wrappers
  import opened Epoll
  import opened EventLoop
  import opened Safety

  /** A step that coroutine code, or the outside world while that code runs, can take. */
  predicate ProgramStep(a: Step) {
    !(a.Outside? || a.Return? || a.Wait? || a.Next? || a.Reconcile?)
  }

  /** What resumed coroutines do before control returns to the loop, as a function of the state in
      which they get it: any finite, disciplined behaviour that leaves nobody half way through an
      operation. */
  ghost predicate WellBehaved(app: Loop -> seq<Step>) {
    forall s :: Invariant(s) && s.phase.Running? ==>
      && ValidRun(s, app(s))
      && (forall a | a in app(s) :: ProgramStep(a))
      && Allowed(Run(s, app(s)), Return)
  }

  lemma ProgramStepKeepsTheBatch(s: Loop, a: Step)
    requires ProgramStep(a)
    ensures Apply(s, a).batch == s.batch && Apply(s, a).phase == s.phase && Apply(s, a).turn == s.turn
  {
  }

  /** What dispatching the first event of the batch comes to: if it wakes an operation, the coroutine
      code runs, from the resume until it gives the thread back. */
  ghost function EventSteps(s: Loop, app: Loop -> seq<Step>): seq<Step>
    requires s.batch != []
  {
    if Wakes(s, In) || Wakes(s, Out) then [Next] + (app(Apply(s, Next)) + [Return]) else [Next]
  }

  /** The same for the first n events, each in the state that the ones before have left. */
  ghost function BatchSteps(s: Loop, app: Loop -> seq<Step>, n: nat): seq<Step>
    decreases n
  {
    if n == 0 || s.batch == [] then []
    else EventSteps(s, app) + BatchSteps(Run(s, EventSteps(s, app)), app, n - 1)
  }

  lemma NextThenMore(s: Loop, script: seq<Step>)
    requires ValidRun(Apply(s, Next), script) && Allowed(Run(Apply(s, Next), script), Return)
    ensures Run(s, [Next] + (script + [Return])) == Apply(Run(Apply(s, Next), script), Return)
  {
    assert ([Next] + (script + [Return]))[1..] == script + [Return];
    Extend(Apply(s, Next), script, Return);
  }

  /** How many events a run dispatches. */
  function Dispatches(steps: seq<Step>): nat
    decreases |steps|
  {
    if steps == [] then 0
    else Dispatches(steps[..|steps| - 1]) + if steps[|steps| - 1].Next? then 1 else 0
  }

  /** `order` lists, once each, the members of `all` that a walk has taken out of `todo`. */
  ghost predicate Walked(order: seq<nat>, all: set<nat>, todo: set<nat>) {
    todo <= all && NoDuplicates(order) && (forall p :: p in order <==> p in all && p !in todo)
  }

  lemma WalkOn(order: seq<nat>, all: set<nat>, todo: set<nat>, p: nat)
    requires Walked(order, all, todo) && p in todo
    ensures Walked(order + [p], all, todo - {p})
  {
  }

  class IOContext {
    var k: Kernel
    var heap: map<nat, Descriptor>
    var managedFd: set<nat>
    var processedSockets: set<nat>
    var events: seq<Event>
    var phase: Phase
    var ops: map<nat, Operation>
    var turn: nat
    ghost var trace: seq<Step>

    function State(): Loop
      reads this
    {
      Loop(k, heap, managedFd, processedSockets, events, phase, ops, turn, false)
    }

    /** The object is where a valid run of the event loop leads. */
    ghost predicate Valid()
      reads this
    {
      ValidRun(Start, trace) && Run(Start, trace) == State()
    }

    constructor ()
      ensures Valid() && State() == Start
    {
      k, heap, managedFd, processedSockets := Kernel(map[], map[], []), map[], {}, {};
      events, phase, ops, turn, trace := [], Boot, map[], 0, [];
    }

    lemma ValidIsInvariant()
      requires Valid()
      ensures Invariant(State())
    {
      StartIsSafe();
      RunKeeps(Start, trace);
    }

    ghost method Record(s: Loop, a: Step)
      requires ValidRun(Start, trace) && Run(Start, trace) == s
      requires Allowed(s, a) && State() == Apply(s, a)
      modifies this`trace
      ensures Valid() && trace == old(trace) + [a]
      ensures Dispatches(trace) == old(Dispatches(trace)) + if a.Next? then 1 else 0
    {
      assert (trace + [a])[..|trace|] == trace;
      OneStep(s, a);
      RunsJoin(Start, trace, [a]);
      trace := trace + [a];
    }

    // ---- io_context.cc ----

    /** attach and attachWriteOnly; `added` is whether EPOLL_CTL_ADD succeeds. */
    method Attach(p: nat, d: Direction, added: bool)
      requires p in heap
      modifies this`k, this`heap, this`managedFd
      ensures State() == EventLoop.Attach(old(State()), p, d, added)
    {
      if added {
        k := Control(k, heap[p].fd, p, AttachMask(d));
      }
      heap := heap[p := heap[p].(ioState := AttachMask(d))];
      managedFd := managedFd + {p};
    }

    /** attachReadonly. */
    method AttachReadonly(p: nat, added: bool) returns (thrown: bool)
      requires p in heap
      modifies this`k, this`heap, this`managedFd
      ensures thrown == !added
      ensures State() == if thrown then old(State()) else EventLoop.Attach(old(State()), p, In, true)
    {
      if !added {
        return true;
      }
      Attach(p, In, true);
      return false;
    }

    method Watch(p: nat, d: Direction)
      requires p in heap
      modifies this`heap, this`processedSockets
      ensures State() == EventLoop.Watch(old(State()), p, d)
    {
      heap := heap[p := heap[p].(ioNewState := With(heap[p].ioState, d))];
      processedSockets := processedSockets + {p};
    }

    method Unwatch(p: nat, d: Direction)
      requires p in heap
      modifies this`heap, this`processedSockets
      ensures State() == EventLoop.Unwatch(old(State()), p, d)
    {
      heap := heap[p := heap[p].(ioNewState := Without(heap[p].ioState, d))];
      processedSockets := processedSockets + {p};
    }

    method Detach(p: nat)
      requires p in heap
      modifies this`k, this`managedFd, this`processedSockets
      ensures State() == EventLoop.Detach(old(State()), p)
    {
      var f := heap[p].fd;
      k := k.(interest := k.interest - {f}, ready := Remove(k.ready, f));
      processedSockets := processedSockets - {p};
      managedFd := managedFd - {p};
    }

    // ---- What coroutine code does ----

    method CreateFile(f: nat, r: Readiness)
      requires Valid() && Allowed(State(), NewFile(f, r))
      modifies this
      ensures Valid() && State() == Apply(old(State()), NewFile(f, r))
      ensures trace == old(trace) + [NewFile(f, r)] && Dispatches(trace) == old(Dispatches(trace))
    {
      ghost var s := State();
      k := k.(poll := k.poll[f := r]);
      Record(s, NewFile(f, r));
    }

    method CloseFile(f: nat)
      requires Valid() && Allowed(State(), BareClose(f))
      modifies this
      ensures Valid() && State() == Apply(old(State()), BareClose(f))
      ensures trace == old(trace) + [BareClose(f)] && Dispatches(trace) == old(Dispatches(trace))
    {
      ghost var s := State();
      k := k.(poll := k.poll - {f});
      Record(s, BareClose(f));
    }

    method OpenDescriptor(p: nat, f: nat, d: Direction)
      requires Valid() && Allowed(State(), Open(p, f, d))
      modifies this
      ensures Valid() && State() == Apply(old(State()), Open(p, f, d))
      ensures trace == old(trace) + [Open(p, f, d)] && Dispatches(trace) == old(Dispatches(trace))
    {
      ghost var s := State();
      heap := heap[p := Descriptor(f, NoEvents, NoEvents, None, None, false)];
      Attach(p, d, true);
      Record(s, Open(p, f, d));
    }

    method BeginOperation(p: nat, d: Direction, co: nat, watch: bool)
      requires Valid() && Allowed(State(), Begin(p, d, co, watch))
      modifies this
      ensures Valid() && State() == Apply(old(State()), Begin(p, d, co, watch))
      ensures trace == old(trace) + [Begin(p, d, co, watch)] && Dispatches(trace) == old(Dispatches(trace))
    {
      ghost var s := State();
      ops := ops[p := Operation(d, co, Trying, 0)];
      if watch {
        Watch(p, d);
      }
      Record(s, Begin(p, d, co, watch));
    }

    method Suspend(p: nat)
      requires Valid() && Allowed(State(), Block(p))
      modifies this
      ensures Valid() && State() == Apply(old(State()), Block(p))
      ensures trace == old(trace) + [Block(p)] && Dispatches(trace) == old(Dispatches(trace))
    {
      ghost var s := State();
      heap := heap[p := SetSlot(heap[p], ops[p].dir, ops[p].co)];
      ops := ops[p := ops[p].(stage := Suspended, since := turn)];
      Record(s, Block(p));
    }

    method EndOperation(p: nat)
      requires Valid() && Allowed(State(), End(p))
      modifies this
      ensures Valid() && State() == Apply(old(State()), End(p))
      ensures trace == old(trace) + [End(p)] && Dispatches(trace) == old(Dispatches(trace))
    {
      ghost var s := State();
      ValidIsInvariant();
      var d := ops[p].dir;
      ops := ops - {p};
      Unwatch(p, d);
      Record(s, End(p));
    }

    /** The extra unwatch of finishwriting and finishReading. */
    method Relinquish(p: nat, d: Direction)
      requires Valid() && Allowed(State(), Release(p, d))
      modifies this
      ensures Valid() && State() == Apply(old(State()), Release(p, d))
      ensures trace == old(trace) + [Release(p, d)] && Dispatches(trace) == old(Dispatches(trace))
    {
      ghost var s := State();
      Unwatch(p, d);
      Record(s, Release(p, d));
    }

    method DestroyDescriptor(p: nat)
      requires Valid() && Allowed(State(), Close(p))
      modifies this
      ensures Valid() && State() == Apply(old(State()), Close(p))
      ensures trace == old(trace) + [Close(p)] && Dispatches(trace) == old(Dispatches(trace))
    {
      ghost var s := State();
      ValidIsInvariant();
      var f := heap[p].fd;
      Detach(p);
      k := k.(poll := k.poll - {f});
      heap := heap - {p};
      Record(s, Close(p));
    }

    method Perform(a: Step)
      requires Valid() && Allowed(State(), a) && ProgramStep(a)
      modifies this
      ensures Valid() && State() == Apply(old(State()), a)
      ensures trace == old(trace) + [a] && Dispatches(trace) == old(Dispatches(trace))
    {
      ghost var s := State();
      match a
      case NewFile(f, r) => CreateFile(f, r);
      case BareClose(f) => CloseFile(f);
      case Open(p, f, d) => OpenDescriptor(p, f, d);
      case Begin(p, d, co, watch) => BeginOperation(p, d, co, watch);
      case Block(p) => Suspend(p);
      case End(p) => EndOperation(p);
      case Close(p) => DestroyDescriptor(p);
      case Release(p, d) => Relinquish(p, d);
      case Drain(p) =>
        ValidIsInvariant();
        k := Epoll.Drain(k, heap[p].fd, ops[p].dir);
        Record(s, a);
      case Arrive(f, d) =>
        k := Epoll.Arrive(k, f, d);
        Record(s, a);
      case HangUp(f, d) =>
        k := Epoll.HangUp(k, f, d);
        Record(s, a);
    }

    method PerformAll(script: seq<Step>)
      requires Valid() && ValidRun(State(), script) && (forall a | a in script :: ProgramStep(a))
      modifies this
      ensures Valid() && State() == Run(old(State()), script)
      ensures trace == old(trace) + script && Dispatches(trace) == old(Dispatches(trace))
      ensures events == old(events) && phase == old(phase) && turn == old(turn)
      decreases script
    {
      if script != [] {
        ProgramStepKeepsTheBatch(State(), script[0]);
        Perform(script[0]);
        PerformAll(script[1..]);
      }
    }

    // ---- run() ----

    /** Coroutine code has the thread until everything it started is suspended or done. */
    method RunCoroutines(app: Loop -> seq<Step>)
      requires Valid() && phase == Running(None) && WellBehaved(app)
      modifies this
      ensures Valid() && phase.Dispatching? && events == old(events) && turn == old(turn)
      ensures trace == old(trace) + (app(old(State())) + [Return]) && Dispatches(trace) == old(Dispatches(trace))
      ensures State() == Apply(Run(old(State()), app(old(State()))), Return)
    {
      ValidIsInvariant();
      PerformAll(app(State()));
      ghost var u := State();
      phase := Dispatching;
      Record(u, Return);
    }

    /** resumeRecv and resumeSend, with everything that happens until control returns. */
    method Resume(p: nat, d: Direction, app: Loop -> seq<Step>, ghost s: Loop) returns (resumed: bool)
      requires ValidRun(Start, trace) && Run(Start, trace) == s && Invariant(s) && Allowed(s, Next)
      requires p in heap && p == s.batch[0].ptr && phase.Dispatching? && WellBehaved(app)
      requires Slot(heap[p], d).Some? ==>
        && p in ops && Slot(heap[p], d) == Some(ops[p].co)
        && Apply(s, Next) == State().(phase := Running(None), ops := ops[p := ops[p].(stage := Retrying)])
      modifies this
      ensures resumed == old(Slot(heap[p], d).Some?)
      ensures resumed ==> Valid() && phase.Dispatching? && events == old(events) && turn == old(turn)
      ensures resumed ==> trace == old(trace) + ([Next] + (app(Apply(s, Next)) + [Return]))
      ensures resumed ==> State() == Run(s, [Next] + (app(Apply(s, Next)) + [Return]))
      ensures resumed ==> Dispatches(trace) == old(Dispatches(trace)) + 1
      ensures !resumed ==> State() == old(State()) && trace == old(trace)
    {
      if Slot(heap[p], d) == None {
        return false;
      }
      HandOver(p, s);
      ValidIsInvariant();
      NextThenMore(s, app(State()));
      Associative(old(trace), [Next], app(State()) + [Return]);
      RunCoroutines(app);
      return true;
    }

    /** The handle is resumed: the operation is about to retry. */
    method HandOver(p: nat, ghost s: Loop)
      requires ValidRun(Start, trace) && Run(Start, trace) == s && Allowed(s, Next) && p in ops
      requires Apply(s, Next) == State().(phase := Running(None), ops := ops[p := ops[p].(stage := Retrying)])
      modifies this
      ensures Valid() && phase == Running(None) && events == old(events) && turn == old(turn)
      ensures trace == old(trace) + [Next] && State() == Apply(s, Next)
      ensures Dispatches(trace) == old(Dispatches(trace)) + 1
    {
      phase := Running(None);
      ops := ops[p := ops[p].(stage := Retrying)];
      Record(s, Next);
    }

    /** The body of the loop over the events of one turn. */
    method DispatchEvent(app: Loop -> seq<Step>)
      requires Valid() && phase.Dispatching? && events != [] && WellBehaved(app)
      modifies this
      ensures Valid() && phase.Dispatching? && events == old(events)[1..] && turn == old(turn)
      ensures trace == old(trace) + EventSteps(old(State()), app)
      ensures State() == Run(old(State()), EventSteps(old(State()), app))
      ensures Dispatches(trace) == old(Dispatches(trace)) + 1
    {
      ghost var s := State();
      ValidIsInvariant();
      NextIsDispatched(s);
      OneStep(s, Next);
      var e := events[0];
      events := events[1..];
      if e.ptr in managedFd {
        if e.rd {
          DispatchedSlot(s, In);
          if e.hup {
            heap := heap[e.ptr := heap[e.ptr].(doneRecv := true)];
          }
          var resumed := Resume(e.ptr, In, app, s);
          if resumed {
            return;
          }
        }
        if e.wr {
          DispatchedSlot(s, Out);
          var resumed := Resume(e.ptr, Out, app, s);
          if resumed {
            return;
          }
        }
      }
      Record(s, Next);
    }

    /** `modified` is whether EPOLL_CTL_MOD succeeds; the mask is recorded as applied in any case. */
    method ApplyMask(p: nat, modified: bool)
      requires p in heap
      modifies this`k, this`heap
      ensures State() == ModifyWith(old(State()), p, modified)
    {
      var x := heap[p];
      if x.ioState != x.ioNewState {
        if modified {
          k := Control(k, x.fd, p, x.ioNewState);
        }
        heap := heap[p := x.(ioState := x.ioNewState)];
      }
    }

    /** The reconcile pass over processedSockets. */
    method ReconcileMasks() returns (ghost order: seq<nat>)
      requires Valid() && phase.Dispatching? && events == []
      modifies this
      ensures Valid() && phase.Idle? && turn == old(turn)
      ensures trace == old(trace) + [Reconcile(order)] && Dispatches(trace) == old(Dispatches(trace))
      ensures NoDuplicates(order) && (forall p :: p in order <==> p in processedSockets)
      ensures processedSockets == old(processedSockets)
      ensures forall p | p in processedSockets :: p in heap && heap[p].ioState == heap[p].ioNewState
    {
      ghost var s := State();
      ValidIsInvariant();
      order := WalkProcessed();
      PassReconciles(s, order);
      phase := Idle;
      Record(s, Reconcile(order));
    }

    /** The loop over the set, in whatever order it is walked. */
    method WalkProcessed() returns (ghost order: seq<nat>)
      requires Invariant(State()) && phase.Dispatching?
      modifies this`k, this`heap
      ensures State() == Pass(old(State()), order)
      ensures NoDuplicates(order) && (forall p :: p in order <==> p in processedSockets)
    {
      ghost var s := State();
      var todo := processedSockets;
      order := [];
      while todo != {}
        invariant Walked(order, s.processed, todo)
        invariant State() == Pass(s, order)
        decreases todo
      {
        var p :| p in todo;
        WalkOn(order, s.processed, todo, p);
        PassSoFar(s, order);
        todo := todo - {p};
        PassOfOneMore(s, order, p);
        order := order + [p];
        ApplyMask(p, true);
      }
    }

    /** One turn of run(): epoll_wait returns n entries of the ready list, every event is dispatched,
        and the requested masks are applied. The turn is exactly that: the harvest, the dispatches with
        the code that each of them resumes, in order, and one pass. */
    method Turn(n: nat, app: Loop -> seq<Step>) returns (ghost order: seq<nat>)
      requires Valid() && Allowed(State(), Wait(n)) && WellBehaved(app)
      modifies this
      ensures Valid() && phase.Idle? && turn == old(turn) + 1
      ensures trace ==
        old(trace) + [Wait(n)] + BatchSteps(Apply(old(State()), Wait(n)), app, |old(Events(k, k.ready[..n]))|) +
        [Reconcile(order)]
      ensures NoDuplicates(order) && (forall p :: p in order <==> p in processedSockets)
      ensures Dispatches(trace) == old(Dispatches(trace)) + |old(Events(k, k.ready[..n]))|
      ensures forall p | p in processedSockets :: p in heap && heap[p].ioState == heap[p].ioNewState
    {
      Harvest(n);
      DispatchAll(app);
      order := ReconcileMasks();
    }

    /** epoll_wait. */
    method Harvest(n: nat)
      requires Valid() && Allowed(State(), Wait(n))
      modifies this
      ensures Valid() && State() == Apply(old(State()), Wait(n)) && trace == old(trace) + [Wait(n)]
      ensures Dispatches(trace) == old(Dispatches(trace))
    {
      ghost var s := State();
      events := Events(k, k.ready[..n]);
      k := k.(ready := k.ready[n..]);
      phase, turn := Dispatching, turn + 1;
      Record(s, Wait(n));
    }

    /** The loop over the events of one turn. */
    method DispatchAll(app: Loop -> seq<Step>)
      requires Valid() && phase.Dispatching? && WellBehaved(app)
      modifies this
      ensures Valid() && phase.Dispatching? && events == [] && turn == old(turn)
      ensures trace == old(trace) + BatchSteps(old(State()), app, |old(events)|)
      ensures Dispatches(trace) == old(Dispatches(trace)) + |old(events)|
    {
      ghost var all := trace + BatchSteps(State(), app, |events|);
      while events != []
        invariant Valid() && phase.Dispatching? && turn == old(turn)
        invariant trace + BatchSteps(State(), app, |events|) == all
        invariant Dispatches(trace) + |events| == old(Dispatches(trace)) + |old(events)|
        decreases |events|
      {
        Associative(trace, EventSteps(State(), app),
                    BatchSteps(Run(State(), EventSteps(State(), app)), app, |events| - 1));
        DispatchEvent(app);
      }
    }
  }

  lemma {:induction false} PassSoFar(s: Loop, order: seq<nat>)
    requires Invariant(s) && s.phase.Dispatching? && (forall p | p in order :: p in s.processed)
    ensures OnlyMasksDiffer(s, Pass(s, order)) && Pass(s, order).processed <= Pass(s, order).heap.Keys
    decreases order
  {
    if order != [] {
      var t := Modify(s, order[0]);
      ModifyIsModified(s, order[0]);
      ModifiedKeeps(s, t, order[0]);
      assert order == [order[0]] + order[1..];
      PassSoFar(t, order[1..]);
    }
  }

  lemma {:induction false} PassOfOneMore(s: Loop, order: seq<nat>, p: nat)
    ensures Pass(s, order + [p]) == Modify(Pass(s, order), p)
    decreases order
  {
    if order == [] {
      assert [p][1..] == [];
    } else {
      assert (order + [p])[0] == order[0] && (order + [p])[1..] == order[1..] + [p];
      PassOfOneMore(Modify(s, order[0]), order[1..], p);
    }
  }
}
