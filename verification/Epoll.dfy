/** The kernel side of the event loop: the epoll interest list, the readiness of each open file,
    and the FIFO list of registrations waiting to be reported, with edge-triggered delivery. */
module Epoll {
  import opened Wrappers

  datatype Direction = In | Out

  function Other(d: Direction): Direction {
    match d
    case In => Out
    case Out => In
  }

  /** EPOLLIN, EPOLLOUT and EPOLLET of an event mask. */
  datatype Mask = Mask(rd: bool, wr: bool, et: bool)

  const NoEvents := Mask(false, false, false)

  predicate Has(m: Mask, d: Direction) {
    match d
    case In => m.rd
    case Out => m.wr
  }

  /** `m | EPOLLIN` or `m | EPOLLOUT`. */
  function With(m: Mask, d: Direction): Mask {
    match d
    case In => m.(rd := true)
    case Out => m.(wr := true)
  }

  /** `m & ~EPOLLIN` or `m & ~EPOLLOUT`. */
  function Without(m: Mask, d: Direction): Mask {
    match d
    case In => m.(rd := false)
    case Out => m.(wr := false)
  }

  /** The mask that attach, attachReadonly (In) and attachWriteOnly (Out) register. */
  function AttachMask(d: Direction): Mask {
    With(Mask(false, false, true), d)
  }

  const InMask := AttachMask(In)
  const OutMask := AttachMask(Out)

  /** What polling an open file would report now: EPOLLIN, EPOLLOUT, EPOLLHUP and EPOLLERR. */
  datatype Readiness = Readiness(rd: bool, wr: bool, hup: bool, err: bool)

  const Silent := Readiness(false, false, false, false)

  predicate IsReady(r: Readiness, d: Direction) {
    match d
    case In => r.rd
    case Out => r.wr
  }

  /** The other end has gone: those who write what is read here, with EPOLLHUP, or those who read what
      is written here, with EPOLLERR. */
  predicate Ended(r: Readiness, d: Direction) {
    match d
    case In => r.hup
    case Out => r.err
  }

  function SetEnded(r: Readiness, d: Direction): Readiness {
    match d
    case In => r.(hup := true)
    case Out => r.(err := true)
  }

  /** A system call in this direction would not say EAGAIN: when the other end has gone, a read returns 0
      and a write fails at once, although poll may report neither EPOLLIN nor EPOLLOUT. */
  predicate WouldNotBlock(r: Readiness, d: Direction) {
    IsReady(r, d) || Ended(r, d)
  }

  function SetReady(r: Readiness, d: Direction, b: bool): Readiness {
    match d
    case In => r.(rd := b)
    case Out => r.(wr := b)
  }

  datatype Registration = Registration(ptr: nat, mask: Mask)

  /** One entry of the array filled by epoll_wait; the loop does nothing about EPOLLERR. */
  datatype Event = Event(ptr: nat, rd: bool, wr: bool, hup: bool)

  predicate Carries(e: Event, d: Direction) {
    match d
    case In => e.rd
    case Out => e.wr
  }

  /** `poll.Keys` is the table of open files; `interest` is keyed by file number. */
  datatype Kernel = Kernel(poll: map<nat, Readiness>, interest: map<nat, Registration>, ready: seq<nat>)

  /** Polling f under its mask reports something; a hang-up or an error needs no mask bit. */
  predicate Fires(k: Kernel, f: nat) {
    f in k.poll && f in k.interest &&
    (var r, m := k.poll[f], k.interest[f].mask; (r.rd && m.rd) || (r.wr && m.wr) || r.hup || r.err)
  }

  function Enqueue(k: Kernel, f: nat): Kernel {
    if f in k.ready then k else k.(ready := k.ready + [f])
  }

  /** Data, room or a connection arrives at f: an edge is queued if the mask has the bit. */
  function Arrive(k: Kernel, f: nat, d: Direction): Kernel
    requires f in k.poll
  {
    var k' := k.(poll := k.poll[f := SetReady(k.poll[f], d, true)]);
    if f in k.interest && Has(k.interest[f].mask, d) then Enqueue(k', f) else k'
  }

  /** The other end of f goes. */
  function HangUp(k: Kernel, f: nat, d: Direction): Kernel
    requires f in k.poll
  {
    var k' := k.(poll := k.poll[f := SetEnded(k.poll[f], d)]);
    if f in k.interest then Enqueue(k', f) else k'
  }

  /** A syscall used up what was ready. */
  function Drain(k: Kernel, f: nat, d: Direction): Kernel
    requires f in k.poll
  {
    k.(poll := k.poll[f := SetReady(k.poll[f], d, false)])
  }

  /** EPOLL_CTL_ADD and EPOLL_CTL_MOD both store the registration and poll once. */
  function Control(k: Kernel, f: nat, ptr: nat, mask: Mask): Kernel {
    var k' := k.(interest := k.interest[f := Registration(ptr, mask)]);
    if Fires(k', f) then Enqueue(k', f) else k'
  }

  function Remove(fs: seq<nat>, f: nat): seq<nat> {
    if fs == [] then []
    else if fs[0] == f then Remove(fs[1..], f)
    else [fs[0]] + Remove(fs[1..], f)
  }

  /** EPOLL_CTL_DEL followed by close. */
  function Delete(k: Kernel, f: nat): Kernel {
    Kernel(k.poll - {f}, k.interest - {f}, Remove(k.ready, f))
  }

  function EventOf(k: Kernel, f: nat): Event
    requires Fires(k, f)
  {
    var r, g := k.poll[f], k.interest[f];
    Event(g.ptr, r.rd && g.mask.rd, r.wr && g.mask.wr, r.hup)
  }

  /** The events harvested from a stretch of the ready list: each entry is polled again, and one
      that no longer fires is dropped. */
  function Events(k: Kernel, fs: seq<nat>): seq<Event> {
    if fs == [] then []
    else (if Fires(k, fs[0]) then [EventOf(k, fs[0])] else []) + Events(k, fs[1..])
  }

  /** No two registrations carry the same descriptor address. */
  ghost predicate OneRegistrationEach(k: Kernel) {
    forall f, g | f in k.interest && g in k.interest && k.interest[f].ptr == k.interest[g].ptr :: f == g
  }

  lemma {:induction false} EventsAreFromQueue(k: Kernel, fs: seq<nat>, i: nat) returns (j: nat)
    requires i < |Events(k, fs)|
    ensures j < |fs| && Fires(k, fs[j]) && Events(k, fs)[i] == EventOf(k, fs[j])
  {
    if Fires(k, fs[0]) && i == 0 {
      j := 0;
    } else {
      var j' := EventsAreFromQueue(k, fs[1..], if Fires(k, fs[0]) then i - 1 else i);
      j := j' + 1;
    }
  }

  lemma {:induction false} QueueIsReported(k: Kernel, fs: seq<nat>, j: nat)
    requires j < |fs| && Fires(k, fs[j])
    ensures EventOf(k, fs[j]) in Events(k, fs)
  {
    if j > 0 {
      QueueIsReported(k, fs[1..], j - 1);
    }
  }

  lemma {:induction false} EventsAreDistinct(k: Kernel, fs: seq<nat>)
    requires NoDuplicates(fs) && OneRegistrationEach(k)
    ensures forall i, j | 0 <= i < j < |Events(k, fs)| :: Events(k, fs)[i].ptr != Events(k, fs)[j].ptr
  {
    if fs != [] {
      EventsAreDistinct(k, fs[1..]);
      if Fires(k, fs[0]) {
        forall j | 0 <= j < |Events(k, fs[1..])|
          ensures Events(k, fs[1..])[j].ptr != EventOf(k, fs[0]).ptr
        {
          var m := EventsAreFromQueue(k, fs[1..], j);
          assert fs[1..][m] == fs[m + 1];
        }
      }
    }
  }

  lemma {:induction false} RemoveKeepsOthers(fs: seq<nat>, f: nat)
    ensures f !in Remove(fs, f)
    ensures forall g :: g in Remove(fs, f) <==> g in fs && g != f
    ensures NoDuplicates(fs) ==> NoDuplicates(Remove(fs, f))
  {
    if fs != [] {
      RemoveKeepsOthers(fs[1..], f);
      assert fs == [fs[0]] + fs[1..];
      if NoDuplicates(fs) {
        assert fs[0] !in fs[1..];
      }
    }
  }
}
