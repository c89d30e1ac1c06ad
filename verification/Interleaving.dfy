/** The loop serves its clients independently: what one client sees of a run is a run of that client
    alone, on a thread that at times runs other code. */
module Interleaving {
  import opened Wrappers
  import opened Epoll
  import opened EventLoop
  import opened Safety

  function Only<T>(m: map<nat, T>, keys: set<nat>): map<nat, T> {
    map k | k in m && k in keys :: m[k]
  }

  function Files(fs: seq<nat>, own: set<nat>): seq<nat> {
    if fs == [] then [] else (if fs[0] in own then [fs[0]] else []) + Files(fs[1..], own)
  }

  function Reports(es: seq<Event>, own: set<nat>): seq<Event> {
    if es == [] then [] else (if es[0].ptr in own then [es[0]] else []) + Reports(es[1..], own)
  }

  /** A client: the addresses and the file numbers of its descriptors. */
  datatype Client = Client(ptrs: set<nat>, files: set<nat>)

  function ProjectKernel(k: Kernel, c: Client): Kernel {
    Kernel(Only(k.poll, c.files), Only(k.interest, c.files), Files(k.ready, c.files))
  }

  /** The part of the loop's state that concerns one client. */
  function Project(s: Loop, c: Client): Loop {
    Loop(ProjectKernel(s.k, c), Only(s.heap, c.ptrs), s.managed * c.ptrs, s.processed * c.ptrs,
         Reports(s.batch, c.ptrs), s.phase, Only(s.ops, c.ptrs), s.turn, s.fault)
  }

  /** A step as the client sees it: its own steps, its share of a harvest and of a pass, the
      hand-overs of the thread, and nothing of the rest. */
  function ProjectStep(s: Loop, a: Step, c: Client): seq<Step> {
    match a
    case Arrive(f, _) => if f in c.files then [a] else []
    case HangUp(f, _) => if f in c.files then [a] else []
    case Drain(p) => if p in c.ptrs then [a] else []
    case NewFile(f, _) => if f in c.files then [a] else []
    case BareClose(f) => if f in c.files then [a] else []
    case Open(p, _, _) => if p in c.ptrs then [a] else []
    case Begin(p, _, _, _) => if p in c.ptrs then [a] else []
    case Block(p) => if p in c.ptrs then [a] else []
    case End(p) => if p in c.ptrs then [a] else []
    case Release(p, _) => if p in c.ptrs then [a] else []
    case Close(p) => if p in c.ptrs then [a] else []
    case Outside => [a]
    case Return => [a]
    case Wait(n) => if n <= |s.k.ready| then [Wait(|Files(s.k.ready[..n], c.files)|)] else []
    case Next =>
      if s.batch == [] then []
      else if s.batch[0].ptr in c.ptrs then [a]
      else if Apply(s, a).phase.Running? then [Outside] else []
    case Reconcile(order) => [Reconcile(Files(order, c.ptrs))]
  }

  function ProjectRun(s: Loop, steps: seq<Step>, c: Client): seq<Step>
    decreases steps
  {
    if steps == [] then [] else ProjectStep(s, steps[0], c) + ProjectRun(Apply(s, steps[0]), steps[1..], c)
  }

  /** No address or file number passes from the client to somebody else or back. */
  ghost predicate Separate(s: Loop, c: Client) {
    && (forall p | p in s.heap :: p in c.ptrs <==> s.heap[p].fd in c.files)
  }

  predicate SeparateStep(a: Step, c: Client) {
    a.Open? ==> (a.p in c.ptrs <==> a.f in c.files)
  }

  // ---- Filtering ----

  lemma FilesOfCons(x: nat, fs: seq<nat>, own: set<nat>)
    ensures Files([x] + fs, own) == if x in own then [x] + Files(fs, own) else Files(fs, own)
  {
    assert ([x] + fs)[1..] == fs;
  }

  lemma RemoveFromCons(x: nat, fs: seq<nat>, f: nat)
    ensures Remove([x] + fs, f) == if x == f then Remove(fs, f) else [x] + Remove(fs, f)
  {
    assert ([x] + fs)[1..] == fs;
  }

  lemma {:induction false} FilesConcatenate(a: seq<nat>, b: seq<nat>, own: set<nat>)
    ensures Files(a + b, own) == Files(a, own) + Files(b, own)
  {
    if a == [] {
      assert a + b == b;
    } else {
      assert (a + b)[1..] == a[1..] + b;
      FilesConcatenate(a[1..], b, own);
      Associative(if a[0] in own then [a[0]] else [], Files(a[1..], own), Files(b, own));
    }
  }

  lemma {:induction false} FilesMembers(fs: seq<nat>, own: set<nat>)
    ensures forall f :: f in Files(fs, own) <==> f in fs && f in own
    ensures NoDuplicates(fs) ==> NoDuplicates(Files(fs, own))
  {
    if fs != [] {
      FilesMembers(fs[1..], own);
      assert fs == [fs[0]] + fs[1..];
      if NoDuplicates(fs) {
        assert fs[0] !in fs[1..];
      }
    }
  }

  lemma {:induction false} FilesRemove(fs: seq<nat>, f: nat, own: set<nat>)
    ensures Files(Remove(fs, f), own) == if f in own then Remove(Files(fs, own), f) else Files(fs, own)
  {
    if fs != [] {
      FilesRemove(fs[1..], f, own);
      assert fs == [fs[0]] + fs[1..];
      FilesOfCons(fs[0], fs[1..], own);
      FilesOfCons(fs[0], Remove(fs[1..], f), own);
      RemoveFromCons(fs[0], Files(fs[1..], own), f);
    }
  }

  lemma EnqueueProjects(k: Kernel, f: nat, c: Client)
    ensures ProjectKernel(Enqueue(k, f), c) ==
      if f in c.files then Enqueue(ProjectKernel(k, c), f) else ProjectKernel(k, c)
  {
    FilesMembers(k.ready, c.files);
    FilesConcatenate(k.ready, [f], c.files);
    assert Files([f], c.files) == if f in c.files then [f] else [] by {
      assert [f][1..] == [];
    }
  }

  lemma ControlProjects(k: Kernel, f: nat, p: nat, m: Mask, c: Client)
    ensures ProjectKernel(Control(k, f, p, m), c) ==
      if f in c.files then Control(ProjectKernel(k, c), f, p, m) else ProjectKernel(k, c)
  {
    var k' := k.(interest := k.interest[f := Registration(p, m)]);
    EnqueueProjects(k', f, c);
    OnlyAfterUpdate(k.interest, f, Registration(p, m), c.files);
  }

  // ---- One step ----

  lemma OnlyAfterUpdate<T>(m: map<nat, T>, k: nat, x: T, own: set<nat>)
    ensures Only(m[k := x], own) == if k in own then Only(m, own)[k := x] else Only(m, own)
  {
  }

  lemma OnlyAfterRemoval<T>(m: map<nat, T>, k: nat, own: set<nat>)
    ensures Only(m - {k}, own) == if k in own then Only(m, own) - {k} else Only(m, own)
  {
  }

  /** The projection of step a from s is a valid run that ends in the projection of the next state. */
  ghost predicate StepProjects(s: Loop, a: Step, c: Client) {
    && ValidRun(Project(s, c), ProjectStep(s, a, c))
    && Run(Project(s, c), ProjectStep(s, a, c)) == Project(Apply(s, a), c)
    && Separate(Apply(s, a), c)
  }

  lemma ReadinessProjects(k: Kernel, f: nat, r: Readiness, c: Client)
    ensures var k' := k.(poll := k.poll[f := r]);
      && ProjectKernel(k', c) ==
           (if f in c.files then ProjectKernel(k, c).(poll := Only(k.poll, c.files)[f := r]) else ProjectKernel(k, c))
      && ProjectKernel(Enqueue(k', f), c) ==
           (if f in c.files then Enqueue(ProjectKernel(k', c), f) else ProjectKernel(k, c))
  {
    var k' := k.(poll := k.poll[f := r]);
    EnqueueProjects(k', f, c);
    if f in c.files {
      assert Only(k'.poll, c.files) == Only(k.poll, c.files)[f := r];
    } else {
      assert Only(k'.poll, c.files) == Only(k.poll, c.files);
    }
  }

  lemma ArrivalProjects(s: Loop, a: Step, c: Client)
    requires Invariant(s) && Allowed(s, a) && Separate(s, c) && (a.Arrive? || a.HangUp?)
    ensures StepProjects(s, a, c)
  {
    OneStep(Project(s, c), a);
    var r := s.k.poll[a.f];
    ReadinessProjects(s.k, a.f, if a.Arrive? then SetReady(r, a.d, true) else SetEnded(r, a.d), c);
  }

  lemma DrainProjects(s: Loop, p: nat, c: Client)
    requires Invariant(s) && Allowed(s, Step.Drain(p)) && Separate(s, c)
    ensures StepProjects(s, Step.Drain(p), c)
  {
    OneStep(Project(s, c), Step.Drain(p));
    var t := Apply(s, Step.Drain(p));
    var f := s.heap[p].fd;
    if p in c.ptrs {
      assert Only(t.k.poll, c.files) == Only(s.k.poll, c.files)[f := t.k.poll[f]];
    } else {
      assert Only(t.k.poll, c.files) == Only(s.k.poll, c.files);
    }
  }

  lemma BareFileProjects(s: Loop, a: Step, c: Client)
    requires Invariant(s) && Allowed(s, a) && Separate(s, c) && (a.NewFile? || a.BareClose?)
    ensures StepProjects(s, a, c)
  {
    OneStep(Project(s, c), a);
    OnlyAfterRemoval(s.k.poll, a.f, c.files);
    if a.NewFile? {
      ReadinessProjects(s.k, a.f, a.r, c);
    }
  }

  lemma SetProjects(all: set<nat>, p: nat, own: set<nat>)
    ensures (all + {p}) * own == if p in own then all * own + {p} else all * own
  {
  }

  lemma OpenedProjects(s: Loop, p: nat, f: nat, d: Direction, c: Client)
    requires Invariant(s) && Allowed(s, Open(p, f, d)) && SeparateStep(Open(p, f, d), c)
    ensures Project(Apply(s, Open(p, f, d)), c) ==
      if p in c.ptrs then Apply(Project(s, c), Open(p, f, d)) else Project(s, c)
  {
    var t := Apply(s, Open(p, f, d));
    ControlProjects(s.k, f, p, AttachMask(d), c);
    SetProjects(s.managed, p, c.ptrs);
    if p in c.ptrs {
      OwnChange(s, t, p, c);
    } else {
      OtherChange(s, t, p, c);
    }
  }

  lemma OpenProjects(s: Loop, p: nat, f: nat, d: Direction, c: Client)
    requires Invariant(s) && Allowed(s, Open(p, f, d)) && Separate(s, c) && SeparateStep(Open(p, f, d), c)
    ensures StepProjects(s, Open(p, f, d), c)
  {
    OpenedProjects(s, p, f, d, c);
    OneStep(Project(s, c), Open(p, f, d));
  }

  /** A change at one address of the client is the same change of its projection. */
  lemma OwnChange(s: Loop, t: Loop, p: nat, c: Client)
    requires p in c.ptrs && p in t.heap && t.heap == s.heap[p := t.heap[p]]
    ensures Only(t.heap, c.ptrs) == Only(s.heap, c.ptrs)[p := t.heap[p]]
    ensures t.ops == s.ops - {p} ==> Only(t.ops, c.ptrs) == Only(s.ops, c.ptrs) - {p}
    ensures p in t.ops && t.ops == s.ops[p := t.ops[p]] ==> Only(t.ops, c.ptrs) == Only(s.ops, c.ptrs)[p := t.ops[p]]
    ensures (s.processed + {p}) * c.ptrs == s.processed * c.ptrs + {p}
  {
  }

  lemma OtherChange(s: Loop, t: Loop, p: nat, c: Client)
    requires p !in c.ptrs && p in t.heap && t.heap == s.heap[p := t.heap[p]]
    ensures Only(t.heap, c.ptrs) == Only(s.heap, c.ptrs)
    ensures t.ops == s.ops - {p} ==> Only(t.ops, c.ptrs) == Only(s.ops, c.ptrs)
    ensures p in t.ops && t.ops == s.ops[p := t.ops[p]] ==> Only(t.ops, c.ptrs) == Only(s.ops, c.ptrs)
    ensures (s.processed + {p}) * c.ptrs == s.processed * c.ptrs
  {
  }

  predicate OnDescriptor(a: Step) {
    a.Begin? || a.Block? || a.End? || a.Release?
  }

  lemma OwnOperationApplies(s: Loop, a: Step, c: Client)
    requires Invariant(s) && Allowed(s, a) && OnDescriptor(a) && a.p in c.ptrs
    ensures Apply(Project(s, c), a) == Project(Apply(s, a), c)
  {
    var t := Apply(s, a);
    assert t.heap == s.heap[a.p := t.heap[a.p]];
    OwnChange(s, t, a.p, c);
  }

  lemma OwnOperationAllowed(s: Loop, a: Step, c: Client)
    requires Invariant(s) && Allowed(s, a) && Separate(s, c) && OnDescriptor(a) && a.p in c.ptrs
    ensures Allowed(Project(s, c), a)
  {
  }

  lemma OperationKeepsSeparate(s: Loop, a: Step, c: Client)
    requires Allowed(s, a) && Separate(s, c) && OnDescriptor(a)
    ensures Separate(Apply(s, a), c)
  {
  }

  lemma OwnOperationProjects(s: Loop, a: Step, c: Client)
    requires Invariant(s) && Allowed(s, a) && Separate(s, c) && OnDescriptor(a) && a.p in c.ptrs
    ensures StepProjects(s, a, c)
  {
    OwnOperationAllowed(s, a, c);
    OneStep(Project(s, c), a);
    OwnOperationApplies(s, a, c);
    OperationKeepsSeparate(s, a, c);
  }

  lemma OtherOperationProjects(s: Loop, a: Step, c: Client)
    requires Invariant(s) && Allowed(s, a) && Separate(s, c) && OnDescriptor(a) && a.p !in c.ptrs
    ensures StepProjects(s, a, c)
  {
    var t := Apply(s, a);
    assert t.heap == s.heap[a.p := t.heap[a.p]];
    OtherChange(s, t, a.p, c);
    OperationKeepsSeparate(s, a, c);
  }

  lemma OperationProjects(s: Loop, a: Step, c: Client)
    requires Invariant(s) && Allowed(s, a) && Separate(s, c) && OnDescriptor(a)
    ensures StepProjects(s, a, c)
  {
    if a.p in c.ptrs {
      OwnOperationProjects(s, a, c);
    } else {
      OtherOperationProjects(s, a, c);
    }
  }

  lemma DeleteProjects(k: Kernel, f: nat, c: Client)
    ensures ProjectKernel(Delete(k, f), c) ==
      if f in c.files then Delete(ProjectKernel(k, c), f) else ProjectKernel(k, c)
  {
    FilesRemove(k.ready, f, c.files);
    OnlyAfterRemoval(k.poll, f, c.files);
    OnlyAfterRemoval(k.interest, f, c.files);
  }

  lemma ClosedProjects(s: Loop, p: nat, c: Client)
    requires Invariant(s) && Allowed(s, Close(p)) && Separate(s, c)
    ensures Project(Apply(s, Close(p)), c) == if p in c.ptrs then Apply(Project(s, c), Close(p)) else Project(s, c)
  {
    var t := Apply(s, Close(p));
    assert t.k == Delete(s.k, s.heap[p].fd);
    DeleteProjects(s.k, s.heap[p].fd, c);
    OnlyAfterRemoval(s.heap, p, c.ptrs);
    if p in c.ptrs {
      assert t.managed * c.ptrs == s.managed * c.ptrs - {p};
      assert t.processed * c.ptrs == s.processed * c.ptrs - {p};
    } else {
      assert t.managed * c.ptrs == s.managed * c.ptrs;
      assert t.processed * c.ptrs == s.processed * c.ptrs;
    }
  }

  lemma CloseProjects(s: Loop, p: nat, c: Client)
    requires Invariant(s) && Allowed(s, Close(p)) && Separate(s, c)
    ensures StepProjects(s, Close(p), c)
  {
    ClosedProjects(s, p, c);
    OneStep(Project(s, c), Close(p));
  }

  lemma HandOverProjects(s: Loop, a: Step, c: Client)
    requires Invariant(s) && Allowed(s, a) && Separate(s, c) && (a.Outside? || a.Return?)
    ensures StepProjects(s, a, c)
  {
    OneStep(Project(s, c), a);
  }

  lemma ReportsOfCons(e: Event, es: seq<Event>, own: set<nat>)
    ensures Reports([e] + es, own) == if e.ptr in own then [e] + Reports(es, own) else Reports(es, own)
  {
    assert ([e] + es)[1..] == es;
  }

  lemma EventsOfCons(k: Kernel, f: nat, fs: seq<nat>)
    ensures Events(k, [f] + fs) == if Fires(k, f) then [EventOf(k, f)] + Events(k, fs) else Events(k, fs)
  {
    assert ([f] + fs)[1..] == fs;
  }

  lemma {:induction false} HarvestProjects(k: Kernel, fs: seq<nat>, c: Client)
    requires forall f | f in fs && f in k.interest :: k.interest[f].ptr in c.ptrs <==> f in c.files
    ensures Events(ProjectKernel(k, c), Files(fs, c.files)) == Reports(Events(k, fs), c.ptrs)
    ensures |Reports(Events(k, fs), c.ptrs)| <= |Events(k, fs)|
  {
    if fs != [] {
      var f, rest := fs[0], fs[1..];
      assert fs == [f] + rest;
      HarvestProjects(k, rest, c);
      FilesOfCons(f, rest, c.files);
      EventsOfCons(k, f, rest);
      EventsOfCons(ProjectKernel(k, c), f, Files(rest, c.files));
      if Fires(k, f) {
        ReportsOfCons(EventOf(k, f), Events(k, rest), c.ptrs);
      }
    }
  }

  /** Taking n entries off the ready list takes the client's share off its own. */
  lemma ReadySplits(ready: seq<nat>, n: nat, own: set<nat>)
    requires n <= |ready|
    ensures var q, m := Files(ready, own), |Files(ready[..n], own)|;
      m <= |q| && q[..m] == Files(ready[..n], own) && q[m..] == Files(ready[n..], own)
  {
    FilesConcatenate(ready[..n], ready[n..], own);
    assert ready == ready[..n] + ready[n..];
  }

  lemma WaitedProjects(s: Loop, n: nat, m: nat, c: Client)
    requires Invariant(s) && Allowed(s, Wait(n)) && Separate(s, c) && m == |Files(s.k.ready[..n], c.files)|
    ensures Allowed(Project(s, c), Wait(m)) && Apply(Project(s, c), Wait(m)) == Project(Apply(s, Wait(n)), c)
  {
    ReadySplits(s.k.ready, n, c.files);
    assert forall f | f in s.k.ready[..n] :: f in s.k.ready;
    HarvestProjects(s.k, s.k.ready[..n], c);
    var x, q := ProjectKernel(s.k, c), Files(s.k.ready, c.files);
    assert Events(x, q[..m]) == Reports(Events(s.k, s.k.ready[..n]), c.ptrs);
  }

  lemma WaitProjects(s: Loop, n: nat, c: Client)
    requires Invariant(s) && Allowed(s, Wait(n)) && Separate(s, c)
    ensures StepProjects(s, Wait(n), c)
  {
    var m := |Files(s.k.ready[..n], c.files)|;
    WaitedProjects(s, n, m, c);
    OneStep(Project(s, c), Wait(m));
  }

  lemma ReportsPop(batch: seq<Event>, own: set<nat>)
    requires batch != []
    ensures batch[0].ptr in own ==>
      && Reports(batch, own) != [] && Reports(batch, own)[0] == batch[0]
      && Reports(batch, own)[1..] == Reports(batch[1..], own)
    ensures batch[0].ptr !in own ==> Reports(batch, own) == Reports(batch[1..], own)
  {
  }

  lemma OwnWakes(s: Loop, c: Client)
    requires s.batch != [] && s.batch[0].ptr in c.ptrs && Project(s, c).batch != []
    ensures forall d :: Wakes(Project(s, c), d) == Wakes(s, d)
  {
    ReportsPop(s.batch, c.ptrs);
  }

  lemma OwnEventProjects(s: Loop, t: Loop, u: Loop, c: Client)
    requires Invariant(s) && Allowed(s, Next) && s.batch[0].ptr in c.ptrs
    requires Project(s, c).batch != [] && Dispatched(s, t) && Dispatched(Project(s, c), u)
    ensures u == Project(t, c)
  {
    ReportsPop(s.batch, c.ptrs);
    OwnWakes(s, c);
    var p := s.batch[0].ptr;
    if p in s.ops {
      OnlyAfterUpdate(s.ops, p, s.ops[p].(stage := Retrying), c.ptrs);
    }
    assert u.heap == Only(t.heap, c.ptrs);
  }

  lemma OtherEventProjects(s: Loop, t: Loop, c: Client)
    requires Invariant(s) && Allowed(s, Next) && s.batch[0].ptr !in c.ptrs && Dispatched(s, t)
    ensures Project(t, c) == Project(s, c).(phase := t.phase)
  {
    ReportsPop(s.batch, c.ptrs);
    assert Only(t.heap, c.ptrs) == Only(s.heap, c.ptrs);
    assert Only(t.ops, c.ptrs) == Only(s.ops, c.ptrs);
  }

  lemma OwnNextProjects(s: Loop, c: Client)
    requires Invariant(s) && Invariant(Project(s, c)) && Allowed(s, Next) && s.batch[0].ptr in c.ptrs
    ensures Allowed(Project(s, c), Next) && Apply(Project(s, c), Next) == Project(Apply(s, Next), c)
  {
    NextIsDispatched(s);
    ReportsPop(s.batch, c.ptrs);
    NextIsDispatched(Project(s, c));
    OwnEventProjects(s, Apply(s, Next), Apply(Project(s, c), Next), c);
  }

  lemma OtherNextProjects(s: Loop, c: Client)
    requires Invariant(s) && Allowed(s, Next) && s.batch[0].ptr !in c.ptrs
    ensures Project(Apply(s, Next), c) == Run(Project(s, c), ProjectStep(s, Next, c))
    ensures ValidRun(Project(s, c), ProjectStep(s, Next, c))
  {
    NextIsDispatched(s);
    OtherEventProjects(s, Apply(s, Next), c);
    OneStep(Project(s, c), Outside);
  }

  lemma NextProjects(s: Loop, c: Client)
    requires Invariant(s) && Invariant(Project(s, c)) && Allowed(s, Next) && Separate(s, c)
    ensures StepProjects(s, Next, c)
  {
    if s.batch[0].ptr in c.ptrs {
      OwnNextProjects(s, c);
      OneStep(Project(s, c), Next);
    } else {
      OtherNextProjects(s, c);
    }
    NextKeepsSeparate(s, Apply(s, Next), c);
  }

  lemma NextKeepsSeparate(s: Loop, t: Loop, c: Client)
    requires Separate(s, c) && Invariant(s) && Allowed(s, Next) && t == Apply(s, Next)
    ensures Separate(t, c)
  {
    NextIsDispatched(s);
  }

  lemma ModifyProjects(s: Loop, p: nat, c: Client)
    requires Invariant(s) && p in s.processed && Separate(s, c)
    ensures Project(Modify(s, p), c) == if p in c.ptrs then Modify(Project(s, c), p) else Project(s, c)
    ensures Separate(Modify(s, p), c)
  {
    var t := Modify(s, p);
    ControlProjects(s.k, s.heap[p].fd, p, s.heap[p].ioNewState, c);
    OnlyAfterUpdate(s.heap, p, t.heap[p], c.ptrs);
    assert t.heap == s.heap[p := t.heap[p]];
  }

  lemma {:induction false} PassProjects(s: Loop, order: seq<nat>, c: Client)
    requires Invariant(s) && s.phase.Dispatching? && (forall p | p in order :: p in s.processed) && Separate(s, c)
    ensures Project(Pass(s, order), c) == Pass(Project(s, c), Files(order, c.ptrs))
    ensures Separate(Pass(s, order), c)
    decreases order
  {
    if order != [] {
      var t := Modify(s, order[0]);
      ModifyIsModified(s, order[0]);
      ModifiedKeeps(s, t, order[0]);
      ModifyProjects(s, order[0], c);
      assert order == [order[0]] + order[1..];
      PassProjects(t, order[1..], c);
      FilesOfCons(order[0], order[1..], c.ptrs);
      assert ([order[0]] + Files(order[1..], c.ptrs))[1..] == Files(order[1..], c.ptrs);
    }
  }

  lemma ReconcileProjects(s: Loop, order: seq<nat>, c: Client)
    requires Invariant(s) && Allowed(s, Reconcile(order)) && Separate(s, c)
    ensures StepProjects(s, Reconcile(order), c)
  {
    OneStep(Project(s, c), Reconcile(Files(order, c.ptrs)));
    PassProjects(s, order, c);
    FilesMembers(order, c.ptrs);
  }

  lemma EveryStepProjects(s: Loop, a: Step, c: Client)
    requires Invariant(s) && Invariant(Project(s, c)) && Allowed(s, a) && Separate(s, c) && SeparateStep(a, c)
    ensures StepProjects(s, a, c)
  {
    match a
    case Arrive(_, _) => ArrivalProjects(s, a, c);
    case HangUp(_, _) => ArrivalProjects(s, a, c);
    case Drain(p) => DrainProjects(s, p, c);
    case NewFile(_, _) => BareFileProjects(s, a, c);
    case BareClose(_) => BareFileProjects(s, a, c);
    case Open(p, f, d) => OpenProjects(s, p, f, d, c);
    case Begin(_, _, _, _) => OperationProjects(s, a, c);
    case Block(_) => OperationProjects(s, a, c);
    case End(_) => OperationProjects(s, a, c);
    case Release(_, _) => OperationProjects(s, a, c);
    case Close(p) => CloseProjects(s, p, c);
    case Outside => HandOverProjects(s, a, c);
    case Return => HandOverProjects(s, a, c);
    case Wait(n) => WaitProjects(s, n, c);
    case Next => NextProjects(s, c);
    case Reconcile(order) => ReconcileProjects(s, order, c);
  }

  // ---- Whole runs ----

  lemma {:induction false} RunProjects(s: Loop, steps: seq<Step>, c: Client)
    requires Invariant(s) && Invariant(Project(s, c)) && Separate(s, c)
    requires ValidRun(s, steps) && (forall a | a in steps :: SeparateStep(a, c))
    ensures ValidRun(Project(s, c), ProjectRun(s, steps, c))
    ensures Run(Project(s, c), ProjectRun(s, steps, c)) == Project(Run(s, steps), c)
    decreases steps
  {
    if steps != [] {
      var t := Apply(s, steps[0]);
      assert steps == [steps[0]] + steps[1..];
      EveryStepProjects(s, steps[0], c);
      StepKeeps(s, steps[0]);
      RunKeeps(Project(s, c), ProjectStep(s, steps[0], c));
      RunProjects(t, steps[1..], c);
      RunsJoin(Project(s, c), ProjectStep(s, steps[0], c), ProjectRun(t, steps[1..], c));
    }
  }

  /** Interleaving. For any number of clients and any order of events, restricting a run of the
      loop to one client's descriptors, slots, masks and events gives a valid run of that client
      alone, ending in the restriction of the final state. */
  lemma ClientRunsAlone(steps: seq<Step>, c: Client)
    requires ValidRun(Start, steps) && (forall a | a in steps :: SeparateStep(a, c))
    ensures ValidRun(Start, ProjectRun(Start, steps, c))
    ensures Run(Start, ProjectRun(Start, steps, c)) == Project(Run(Start, steps), c)
  {
    StartIsSafe();
    assert Project(Start, c) == Start;
    assert Separate(Start, c);
    RunProjects(Start, steps, c);
  }
}
