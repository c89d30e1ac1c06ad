/** The event loop of IOContext as a state machine over values: the descriptors in memory, the two
    pointer sets, the batch being dispatched and the operations that coroutines have outstanding.

    Addresses are numbers, so a destroyed descriptor's address can be handed out again, even while
    the current batch still holds an event for it. A memory error or a misdirected resume sets
    `fault`; nothing clears it. */
module EventLoop {
  import opened Wrappers
  import opened Epoll

  /** AsyncFileDescriptor: its masks as applied and as requested, and its two coroutine slots. */
  datatype Descriptor = Descriptor(
    fd: nat, ioState: Mask, ioNewState: Mask, coroRecv: Option<nat>, coroSend: Option<nat>, doneRecv: bool)

  function Slot(x: Descriptor, d: Direction): Option<nat> {
    match d
    case In => x.coroRecv
    case Out => x.coroSend
  }

  function SetSlot(x: Descriptor, d: Direction, co: nat): Descriptor {
    match d
    case In => x.(coroRecv := Some(co))
    case Out => x.(coroSend := Some(co))
  }

  /** Where an operation object stands: before its first syscall is decided, suspended after EAGAIN,
      or resumed and about to retry. */
  datatype Stage = Trying | Suspended | Retrying

  /** An operation outstanding on a descriptor; `since` is the turn in which it suspended. */
  datatype Operation = Operation(dir: Direction, co: nat, stage: Stage, since: nat)

  /** Boot: before the first epoll_wait. Idle: in epoll_wait. Dispatching: in the loop over the
      batch. Running: coroutine code is on the stack; `after` is a descriptor whose EPOLLOUT half
      is still to be handled for the same event. */
  datatype Phase = Boot | Idle | Dispatching | Running(after: Option<nat>)

  datatype Loop = Loop(
    k: Kernel, heap: map<nat, Descriptor>, managed: set<nat>, processed: set<nat>,
    batch: seq<Event>, phase: Phase, ops: map<nat, Operation>, turn: nat, fault: bool)

  const Start := Loop(Kernel(map[], map[], []), map[], {}, {}, [], Boot, map[], 0, false)

  const MAX_EVENTS: nat := 20

  // ---- The methods of IOContext and AsyncFileDescriptor ----

  function Fail(s: Loop): Loop {
    s.(fault := true)
  }

  function Construct(s: Loop, p: nat, f: nat): Loop {
    s.(heap := s.heap[p := Descriptor(f, NoEvents, NoEvents, None, None, false)])
  }

  /** attach and attachWriteOnly; `added` is whether EPOLL_CTL_ADD succeeded. If it did, attachReadonly
      does the same; if not, that throws and changes nothing. */
  function Attach(s: Loop, p: nat, d: Direction, added: bool): Loop {
    if p !in s.heap then Fail(s)
    else
      var x := s.heap[p];
      s.(heap := s.heap[p := x.(ioState := AttachMask(d))],
         managed := s.managed + {p},
         k := if added then Control(s.k, x.fd, p, AttachMask(d)) else s.k)
  }

  function Watch(s: Loop, p: nat, d: Direction): Loop {
    if p !in s.heap then Fail(s)
    else
      var x := s.heap[p];
      s.(heap := s.heap[p := x.(ioNewState := With(x.ioState, d))], processed := s.processed + {p})
  }

  function Unwatch(s: Loop, p: nat, d: Direction): Loop {
    if p !in s.heap then Fail(s)
    else
      var x := s.heap[p];
      s.(heap := s.heap[p := x.(ioNewState := Without(x.ioState, d))], processed := s.processed + {p})
  }

  function Detach(s: Loop, p: nat): Loop {
    if p !in s.heap then Fail(s)
    else
      var f := s.heap[p].fd;
      s.(k := s.k.(interest := s.k.interest - {f}, ready := Remove(s.k.ready, f)),
         processed := s.processed - {p}, managed := s.managed - {p})
  }

  /** The destructor of AsyncFileDescriptor: detach, close, release the memory. */
  function Destroy(s: Loop, p: nat): Loop {
    if p !in s.heap || s.heap[p].fd !in s.k.poll then Fail(s)
    else
      var t := Detach(s, p);
      t.(k := t.k.(poll := t.k.poll - {s.heap[p].fd}), heap := t.heap - {p})
  }

  /** resumeRecv and resumeSend: control goes to whatever handle the slot holds. */
  function Resume(s: Loop, p: nat, d: Direction, after: Option<nat>): Loop
    requires p in s.heap && Slot(s.heap[p], d).Some?
  {
    var t := s.(phase := Running(after));
    if p in s.ops && s.ops[p].dir == d && s.ops[p].stage.Suspended? && Slot(s.heap[p], d) == Some(s.ops[p].co)
    then t.(ops := s.ops[p := s.ops[p].(stage := Retrying)])
    else Fail(t)
  }

  function SendHalf(s: Loop, p: nat): Loop {
    if p !in s.heap then Fail(s)
    else if s.heap[p].coroSend.Some? then Resume(s, p, Out, None)
    else s.(phase := Dispatching)
  }

  /** The body of the loop over the batch, for its first event. */
  function Dispatch(s: Loop): Loop {
    if s.batch == [] then s
    else
      var e := s.batch[0];
      var t := s.(batch := s.batch[1..]);
      if e.ptr !in s.managed then t
      else if e.rd then
        if e.ptr !in s.heap then Fail(t)
        else
          var u := if e.hup then t.(heap := t.heap[e.ptr := t.heap[e.ptr].(doneRecv := true)]) else t;
          if u.heap[e.ptr].coroRecv.Some? then Resume(u, e.ptr, In, if e.wr then Some(e.ptr) else None)
          else if e.wr then SendHalf(u, e.ptr)
          else u
      else if e.wr then SendHalf(t, e.ptr)
      else t
  }

  /** One round of the reconcile pass; `modified` is whether EPOLL_CTL_MOD succeeded. */
  function ModifyWith(s: Loop, p: nat, modified: bool): Loop {
    if p !in s.heap then Fail(s)
    else
      var x := s.heap[p];
      if x.ioState == x.ioNewState then s
      else s.(k := if modified then Control(s.k, x.fd, p, x.ioNewState) else s.k,
              heap := s.heap[p := x.(ioState := x.ioNewState)])
  }

  function Modify(s: Loop, p: nat): Loop {
    ModifyWith(s, p, true)
  }

  /** The reconcile pass, in the order in which the set of processed pointers is walked. */
  function Pass(s: Loop, order: seq<nat>): Loop
    decreases order
  {
    if order == [] then s else Pass(Modify(s, order[0]), order[1..])
  }

  // ---- Runs ----

  datatype Step =
    | Arrive(f: nat, d: Direction)                              // the outside world
    | HangUp(f: nat, d: Direction)
    | Drain(p: nat)                                             // a syscall of p's operation used up readiness
    | NewFile(f: nat, r: Readiness)                             // accept, pipe, pidfd_open
    | BareClose(f: nat)                                         // close of a file without descriptor
    | Open(p: nat, f: nat, d: Direction)                        // descriptor constructed and attached
    | Begin(p: nat, d: Direction, co: nat, watch: bool)         // operation constructed
    | Block(p: nat)                                             // first syscall said EAGAIN, suspend()
    | End(p: nat)                                               // operation destroyed
    | Release(p: nat, d: Direction)                             // finishwriting, finishReading: extra unwatch
    | Close(p: nat)                                             // descriptor destroyed
    | Outside                                                   // code of something else gets the thread
    | Return                                                    // control comes back to the loop
    | Wait(n: nat)                                              // epoll_wait takes n entries of the ready list
    | Next                                                      // dispatch one event
    | Reconcile(order: seq<nat>)

  function Apply(s: Loop, a: Step): Loop {
    match a
    case Arrive(f, d) => if f in s.k.poll then s.(k := Epoll.Arrive(s.k, f, d)) else s
    case HangUp(f, d) => if f in s.k.poll then s.(k := Epoll.HangUp(s.k, f, d)) else s
    case Drain(p) =>
      if p in s.heap && p in s.ops && s.heap[p].fd in s.k.poll
      then s.(k := Epoll.Drain(s.k, s.heap[p].fd, s.ops[p].dir)) else Fail(s)
    case NewFile(f, r) => s.(k := s.k.(poll := s.k.poll[f := r]))
    case BareClose(f) => s.(k := s.k.(poll := s.k.poll - {f}))
    case Open(p, f, d) => Attach(Construct(s, p, f), p, d, true)
    case Begin(p, d, co, watch) =>
      var t := s.(ops := s.ops[p := Operation(d, co, Trying, 0)]);
      if watch then Watch(t, p, d) else t
    case Block(p) =>
      if p in s.heap && p in s.ops
      then s.(ops := s.ops[p := s.ops[p].(stage := Suspended, since := s.turn)],
              heap := s.heap[p := SetSlot(s.heap[p], s.ops[p].dir, s.ops[p].co)])
      else Fail(s)
    case End(p) =>
      if p in s.ops then Unwatch(s.(ops := s.ops - {p}), p, s.ops[p].dir) else Fail(s)
    case Release(p, d) => Unwatch(s, p, d)
    case Close(p) => Destroy(s, p)
    case Outside => s.(phase := Running(None))
    case Return =>
      if s.phase.Running? && s.phase.after.Some? then SendHalf(s, s.phase.after.value)
      else if s.phase.Boot? then s.(phase := Idle)
      else s.(phase := Dispatching)
    case Wait(n) =>
      if n <= |s.k.ready|
      then s.(batch := Events(s.k, s.k.ready[..n]), k := s.k.(ready := s.k.ready[n..]),
              phase := Dispatching, turn := s.turn + 1)
      else s
    case Next => Dispatch(s)
    case Reconcile(order) => Pass(s, order).(phase := Idle)
  }

  predicate Active(s: Loop) {
    s.phase.Boot? || s.phase.Running?
  }

  /** The mask that will be in force after the next reconcile pass. */
  function NextMask(s: Loop, p: nat): Mask
    requires p in s.heap
  {
    if p in s.processed then s.heap[p].ioNewState else s.heap[p].ioState
  }

  ghost predicate AllSuspended(s: Loop) {
    forall p | p in s.ops :: s.ops[p].stage.Suspended?
  }

  /** The single-direction discipline, everything else that a step asks of the program being what
      the language or the kernel already enforces: an operation starts on a descriptor that has none
      and whose applied mask does not carry the other direction. A process wait registers nothing
      itself, so it needs the bit that attachReadonly left. */
  predicate Disciplined(s: Loop, p: nat, d: Direction, watch: bool) {
    p in s.heap && p !in s.ops && !Has(s.heap[p].ioState, Other(d)) && (watch || Has(NextMask(s, p), d))
  }

  ghost predicate Allowed(s: Loop, a: Step) {
    match a
    case Arrive(f, d) => f in s.k.poll
    case HangUp(f, _) => f in s.k.poll
    case Drain(p) => Active(s) && p in s.heap && p in s.ops && !s.ops[p].stage.Suspended?
    case NewFile(f, r) => Active(s) && f !in s.k.poll
    case BareClose(f) => Active(s) && f in s.k.poll && f !in s.k.interest
    case Open(p, f, d) => Active(s) && p !in s.heap && f in s.k.poll && f !in s.k.interest
    case Begin(p, d, co, watch) => Active(s) && Disciplined(s, p, d, watch)
    case Block(p) =>
      Active(s) && p in s.heap && p in s.ops && s.ops[p].stage.Trying? &&
      s.heap[p].fd in s.k.poll && !WouldNotBlock(s.k.poll[s.heap[p].fd], s.ops[p].dir)
    case End(p) => Active(s) && p in s.ops && !s.ops[p].stage.Suspended?
    case Release(p, d) => Active(s) && p in s.heap && p !in s.ops && !Has(s.heap[p].ioState, Other(d))
    case Close(p) => Active(s) && p in s.heap && p !in s.ops
    case Outside => s.phase.Dispatching?
    case Return => Active(s) && AllSuspended(s)
    case Wait(n) => s.phase.Idle? && n <= |s.k.ready| && |Events(s.k, s.k.ready[..n])| <= MAX_EVENTS
    case Next => s.phase.Dispatching? && s.batch != []
    case Reconcile(order) =>
      s.phase.Dispatching? && s.batch == [] && NoDuplicates(order) && (forall p :: p in order <==> p in s.processed)
  }

  function Run(s: Loop, steps: seq<Step>): Loop
    decreases steps
  {
    if steps == [] then s else Run(Apply(s, steps[0]), steps[1..])
  }

  ghost predicate ValidRun(s: Loop, steps: seq<Step>)
    decreases steps
  {
    steps == [] || (Allowed(s, steps[0]) && ValidRun(Apply(s, steps[0]), steps[1..]))
  }

  lemma OneStep(s: Loop, a: Step)
    ensures Run(s, [a]) == Apply(s, a) && (Allowed(s, a) ==> ValidRun(s, [a]))
  {
    assert [a][1..] == [];
  }

  lemma {:induction false} RunsJoin(s: Loop, a: seq<Step>, b: seq<Step>)
    requires ValidRun(s, a) && ValidRun(Run(s, a), b)
    ensures ValidRun(s, a + b) && Run(s, a + b) == Run(Run(s, a), b)
    decreases a
  {
    if a == [] {
      assert a + b == b;
    } else {
      assert (a + b)[0] == a[0] && (a + b)[1..] == a[1..] + b;
      RunsJoin(Apply(s, a[0]), a[1..], b);
    }
  }

  /** One more step of a valid run. */
  lemma Extend(s: Loop, steps: seq<Step>, a: Step)
    requires ValidRun(s, steps) && Allowed(Run(s, steps), a)
    ensures ValidRun(s, steps + [a]) && Run(s, steps + [a]) == Apply(Run(s, steps), a)
  {
    OneStep(Run(s, steps), a);
    RunsJoin(s, steps, [a]);
  }

  /** A valid run from s to t. */
  ghost predicate Leads(s: Loop, steps: seq<Step>, t: Loop) {
    ValidRun(s, steps) && Run(s, steps) == t
  }

  lemma LeadsOn(s: Loop, a: seq<Step>, t: Loop, b: seq<Step>, u: Loop)
    requires Leads(s, a, t) && Leads(t, b, u)
    ensures Leads(s, a + b, u)
  {
    RunsJoin(s, a, b);
  }

  lemma TwoSteps(s: Loop, a: Step, b: Step)
    requires Allowed(s, a) && Allowed(Apply(s, a), b)
    ensures Leads(s, [a, b], Apply(Apply(s, a), b))
  {
    OneStep(Apply(s, a), b);
    assert [a, b][1..] == [b];
  }

  // ---- The invariant ----

  ghost predicate Queued(batch: seq<Event>, p: nat, d: Direction) {
    exists i :: 0 <= i < |batch| && batch[i].ptr == p && Carries(batch[i], d)
  }

  /** managed_fd, the kernel's interest list and the applied masks agree, and every processed
      descriptor is managed. */
  ghost predicate InterestMirror(s: Loop) {
    && s.managed == s.heap.Keys
    && s.processed <= s.managed
    && (forall p | p in s.heap ::
          s.heap[p].fd in s.k.interest && s.k.interest[s.heap[p].fd] == Registration(p, s.heap[p].ioState))
    && (forall f | f in s.k.interest ::
          f in s.k.poll && s.k.interest[f].ptr in s.heap && s.heap[s.k.interest[f].ptr].fd == f)
  }

  ghost predicate ReadyListOk(k: Kernel) {
    NoDuplicates(k.ready) && forall f | f in k.ready :: f in k.interest
  }

  ghost predicate BatchOk(s: Loop) {
    && (forall i, j | 0 <= i < j < |s.batch| :: s.batch[i].ptr != s.batch[j].ptr)
    && (forall i | 0 <= i < |s.batch| :: !(s.batch[i].rd && s.batch[i].wr))
    && (s.phase.Boot? || s.phase.Idle? ==> s.batch == [])
    && (s.phase.Running? ==> s.phase.after == None)
  }

  predicate SuspendedOn(s: Loop, p: nat, d: Direction) {
    p in s.ops && s.ops[p].dir == d && s.ops[p].stage.Suspended?
  }

  /** No mask, applied or about to be, carries both directions, and an outstanding operation's own
      bit is on its way or in force. */
  ghost predicate MasksOk(s: Loop, p: nat)
    requires p in s.heap
  {
    var x, m := s.heap[p], NextMask(s, p);
    && !(x.ioState.rd && x.ioState.wr) && !(m.rd && m.wr)
    && (p in s.ops ==> Has(m, s.ops[p].dir) && !Has(x.ioState, Other(s.ops[p].dir)))
  }

  /** A slot holds the operation suspended there, or can no longer be used: no queued event carries
      its bit, and the bit is going away unless an operation of that direction is running. */
  ghost predicate SlotOk(s: Loop, p: nat, d: Direction)
    requires p in s.heap
  {
    if SuspendedOn(s, p, d) then Slot(s.heap[p], d) == Some(s.ops[p].co)
    else Slot(s.heap[p], d).Some? ==>
      !Queued(s.batch, p, d) && ((p in s.ops && s.ops[p].dir == d) || !Has(NextMask(s, p), d))
  }

  /** If an operation is suspended and its direction is ready, its wake-up is under way: on the
      kernel's ready list, in the batch, or in a pending EPOLL_CTL_MOD that adds the bit. */
  ghost predicate WakeupOk(s: Loop, p: nat, d: Direction)
    requires p in s.heap
  {
    var x := s.heap[p];
    SuspendedOn(s, p, d) && x.fd in s.k.poll && IsReady(s.k.poll[x.fd], d) ==>
      || (x.fd in s.k.ready && Has(x.ioState, d))
      || Queued(s.batch, p, d)
      || (p in s.processed && Has(x.ioNewState, d) && !Has(x.ioState, d))
  }

  /** An event that was harvested when its operation was already suspended is still true. */
  ghost predicate GenuineOk(s: Loop, p: nat, d: Direction)
    requires p in s.heap
  {
    SuspendedOn(s, p, d) && s.ops[p].since < s.turn && Queued(s.batch, p, d) ==>
      s.heap[p].fd in s.k.poll && IsReady(s.k.poll[s.heap[p].fd], d)
  }

  /** What holds of a descriptor whenever the loop is about to enter epoll_wait. */
  ghost predicate IdleOk(s: Loop, p: nat, d: Direction)
    requires p in s.heap
  {
    && (SuspendedOn(s, p, d) ==> Has(s.heap[p].ioState, d))
    && (Slot(s.heap[p], d).Some? && !SuspendedOn(s, p, d) ==> !Has(s.heap[p].ioState, d))
  }

  /** Before the first epoll_wait every mask is the one that attach set and nothing was resumed. */
  ghost predicate BootOk(s: Loop, p: nat, d: Direction)
    requires p in s.heap
  {
    && s.heap[p].ioState.rd != s.heap[p].ioState.wr
    && (Slot(s.heap[p], d).Some? ==> SuspendedOn(s, p, d))
  }

  ghost predicate DirectionOk(s: Loop, p: nat, d: Direction)
    requires p in s.heap
  {
    && SlotOk(s, p, d) && WakeupOk(s, p, d) && GenuineOk(s, p, d)
    && (s.phase.Idle? ==> IdleOk(s, p, d))
    && (s.phase.Boot? ==> BootOk(s, p, d))
  }

  ghost predicate DescriptorOk(s: Loop, p: nat)
    requires p in s.heap
  {
    MasksOk(s, p) && DirectionOk(s, p, In) && DirectionOk(s, p, Out)
  }

  ghost predicate Invariant(s: Loop) {
    && !s.fault
    && InterestMirror(s) && ReadyListOk(s.k) && BatchOk(s)
    && s.ops.Keys <= s.heap.Keys
    && (s.phase.Idle? || s.phase.Dispatching? ==> AllSuspended(s))
    && (forall p {:trigger DescriptorOk(s, p)} | p in s.heap :: DescriptorOk(s, p))
  }
}
