/** The awaiter of block_syscall.hh around a non-blocking read of a pipe: try, suspend on EAGAIN, retry
    once when resumed. */
module BlockingCalls {
  import opened Wrappers

  /** The read side of a pipe: what has arrived and is unread, and whether more can come. */
  datatype Stream = Stream(unread: seq<byte>, open: bool)

  datatype Arrival = Bytes(bytes: seq<byte>) | HangUp

  function Arrive(s: Stream, a: Arrival): Stream {
    if !s.open then s
    else match a
      case Bytes(bs) => s.(unread := s.unread + bs)
      case HangUp => s.(open := false)
  }

  function ArriveAll(s: Stream, arrivals: seq<Arrival>): Stream
    decreases arrivals
  {
    if arrivals == [] then s else ArriveAll(Arrive(s, arrivals[0]), arrivals[1..])
  }

  /** The bytes that arrivals add to a stream. */
  function Added(s: Stream, arrivals: seq<Arrival>): seq<byte>
    decreases arrivals
  {
    if arrivals == [] then []
    else (if s.open && arrivals[0].Bytes? then arrivals[0].bytes else []) + Added(Arrive(s, arrivals[0]), arrivals[1..])
  }

  /** A read would not block. */
  predicate Readable(s: Stream) {
    s.unread != [] || !s.open
  }

  /** epoll reports EPOLLIN for the pipe, and the loop resumes a reader; an empty pipe without writers
      gives a bare EPOLLHUP, for which it resumes nobody. */
  predicate Reported(s: Stream) {
    s.unread != []
  }

  /** How many bytes a read hands over: at least one, at most what fits and what is there. */
  predicate Grant(s: Stream, len: nat, n: nat) {
    n <= len && n <= |s.unread| && (s.unread != [] ==> 1 <= n)
  }

  /** The outcome of a read operation: whether co_await ever returns, its value (-1 for EAGAIN), the
      bytes placed in the buffer, the syscalls made, and the stream afterwards. */
  datatype Outcome = Outcome(returned: bool, value: int, bytes: seq<byte>, calls: nat, rest: Stream)

  function Taken(s: Stream, n: nat, calls: nat): Outcome
    requires n <= |s.unread|
  {
    Outcome(true, n, s.unread[..n], calls, s.(unread := s.unread[n..]))
  }

  /** One operation: the arrivals before it starts, the arrivals between suspension and resume if it
      suspends, the size of its buffer, the amount its successful syscall gets, and whether an event
      harvested before it suspended wakes it. */
  datatype Operation = Operation(before: seq<Arrival>, between: seq<Arrival>, len: nat, grant: nat, stale: bool)

  /** The stream as the first syscall and as the deciding syscall of an operation see it. */
  function AtFirst(s: Stream, o: Operation): Stream {
    ArriveAll(s, o.before)
  }

  function AtLast(s: Stream, o: Operation): Stream {
    if Readable(AtFirst(s, o)) then AtFirst(s, o) else ArriveAll(AtFirst(s, o), o.between)
  }

  /** The operation does not suspend, or the loop resumes it. */
  predicate Returns(s: Stream, o: Operation) {
    Readable(AtFirst(s, o)) || o.stale || Reported(AtLast(s, o))
  }

  /** An operation that is never resumed has seen everything that could resume it: the writers are
      gone. */
  predicate Valid(s: Stream, o: Operation) {
    0 < o.len && Grant(AtLast(s, o), o.len, o.grant) && (Returns(s, o) || !AtLast(s, o).open)
  }

  /** When the operation is decided, a blocking read would return. */
  predicate Genuine(s: Stream, o: Operation) {
    Readable(AtLast(s, o))
  }

  function Perform(s: Stream, o: Operation): Outcome
    requires Valid(s, o)
  {
    var s1 := AtFirst(s, o);
    if Readable(s1) then Taken(s1, o.grant, 1)
    else
      var s2 := ArriveAll(s1, o.between);
      if !Returns(s, o) then Outcome(false, 0, [], 1, s2)
      else if Readable(s2) then Taken(s2, o.grant, 2)
      else Outcome(true, -1, [], 2, s2)
  }

  /** A blocking read under the same schedule: it returns when the stream is readable. */
  function Blocking(s: Stream, o: Operation): (int, seq<byte>, Stream)
    requires Valid(s, o) && Genuine(s, o)
  {
    var t := AtLast(s, o);
    (o.grant, t.unread[..o.grant], t.(unread := t.unread[o.grant..]))
  }

  // ---- One operation ----

  /** One or two syscalls, of which only the last can consume data; -1 exactly for a wake-up that
      found nothing, 0 exactly at the end of the stream. */
  lemma OperationOutcome(s: Stream, o: Operation)
    requires Valid(s, o)
    ensures var r := Perform(s, o);
      && r.returned == Returns(s, o)
      && r.calls == (if Readable(AtFirst(s, o)) || !r.returned then 1 else 2)
      && AtLast(s, o).unread == r.bytes + r.rest.unread && r.rest.open == AtLast(s, o).open
      && (r.value == -1 <==> !Genuine(s, o))
      && (r.value == 0 <==> AtLast(s, o).unread == [] && !AtLast(s, o).open)
      && (r.value >= 0 ==> r.value == |r.bytes|)
      && (!Readable(AtFirst(s, o)) ==> AtFirst(s, o).unread == [])
  {
    var t := AtLast(s, o);
    assert t.unread == t.unread[..o.grant] + t.unread[o.grant..];
  }

  /** The operation never returns if and only if it suspends, no earlier event wakes it, and what it
      waits for turns out to be the end of the stream; a blocking read would return 0 there. */
  lemma StallsAtABareHangUp(s: Stream, o: Operation)
    requires Valid(s, o)
    ensures !Perform(s, o).returned <==>
      !Readable(AtFirst(s, o)) && !o.stale && AtLast(s, o) == Stream([], false)
    ensures !Perform(s, o).returned ==> Genuine(s, o) && Blocking(s, o) == (0, [], Stream([], false))
  {
  }

  // ---- Whole runs ----

  ghost predicate ValidRun(s: Stream, ops: seq<Operation>)
    decreases ops
  {
    ops == [] || (Valid(s, ops[0]) && (Returns(s, ops[0]) ==> ValidRun(Perform(s, ops[0]).rest, ops[1..])))
  }

  /** The values a run of operations gets, the bytes they deliver, the bytes that arrived meanwhile,
      the stream at the end, and whether the run is stuck in an operation. */
  datatype History = History(values: seq<int>, delivered: seq<byte>, arrived: seq<byte>, rest: Stream, stalled: bool)

  /** What arrives during an operation. */
  function Meanwhile(s: Stream, o: Operation): seq<byte> {
    Added(s, o.before) + (if Readable(AtFirst(s, o)) then [] else Added(AtFirst(s, o), o.between))
  }

  function Reads(s: Stream, ops: seq<Operation>): History
    requires ValidRun(s, ops)
    decreases ops
  {
    if ops == [] then History([], [], [], s, false)
    else
      var r := Perform(s, ops[0]);
      if !Returns(s, ops[0]) then History([], [], Meanwhile(s, ops[0]), r.rest, true)
      else
        var h := Reads(r.rest, ops[1..]);
        h.(values := [r.value] + h.values, delivered := r.bytes + h.delivered,
           arrived := Meanwhile(s, ops[0]) + h.arrived)
  }

  /** Every operation returns, and when there is something to read. */
  ghost predicate AllGenuine(s: Stream, ops: seq<Operation>)
    requires ValidRun(s, ops)
    decreases ops
  {
    ops == [] || (Returns(s, ops[0]) && Genuine(s, ops[0]) && AllGenuine(Perform(s, ops[0]).rest, ops[1..]))
  }

  /** The same program with blocking reads. */
  function BlockingReads(s: Stream, ops: seq<Operation>): (seq<int>, seq<byte>, Stream)
    requires ValidRun(s, ops) && AllGenuine(s, ops)
    decreases ops
  {
    if ops == [] then ([], [], s)
    else
      var (v, bytes, rest) := Blocking(s, ops[0]);
      var (vs, bs, t) := BlockingReads(rest, ops[1..]);
      ([v] + vs, bytes + bs, t)
  }

  lemma {:induction false} ArrivalsAdd(s: Stream, arrivals: seq<Arrival>)
    ensures ArriveAll(s, arrivals).unread == s.unread + Added(s, arrivals)
    decreases arrivals
  {
    if arrivals != [] {
      ArrivalsAdd(Arrive(s, arrivals[0]), arrivals[1..]);
    }
  }

  lemma DuringAnOperation(s: Stream, o: Operation)
    requires Valid(s, o)
    ensures AtLast(s, o).unread == s.unread + Meanwhile(s, o)
    ensures Perform(s, o).bytes + Perform(s, o).rest.unread == s.unread + Meanwhile(s, o)
  {
    OperationOutcome(s, o);
    ArrivalsAdd(s, o.before);
    ArrivalsAdd(AtFirst(s, o), o.between);
    Associative(s.unread, Added(s, o.before), Added(AtFirst(s, o), o.between));
  }

  /** Nothing is lost, duplicated or reordered: for any interleaving of arrivals and wake-ups,
      spurious ones included, the bytes delivered followed by those still unread are the bytes that
      were there followed by those that arrived. */
  lemma {:induction false} DeliveryIsAPrefix(s: Stream, ops: seq<Operation>)
    requires ValidRun(s, ops)
    ensures var h := Reads(s, ops); h.delivered + h.rest.unread == s.unread + h.arrived
    decreases ops
  {
    if ops != [] {
      var r := Perform(s, ops[0]);
      DuringAnOperation(s, ops[0]);
      if Returns(s, ops[0]) {
        var h := Reads(r.rest, ops[1..]);
        DeliveryIsAPrefix(r.rest, ops[1..]);
        Associative(r.bytes, h.delivered, h.rest.unread);
        Associative(r.bytes, r.rest.unread, h.arrived);
        Associative(s.unread, Meanwhile(s, ops[0]), h.arrived);
      }
    }
  }

  /** Blocking refinement: a run in which every operation returns and every wake-up is genuine is the
      run of the same program with blocking reads; and those are the runs that are not stuck and in
      which EAGAIN never reaches the caller. */
  lemma {:induction false} GenuineIsBlocking(s: Stream, ops: seq<Operation>)
    requires ValidRun(s, ops)
    ensures var h := Reads(s, ops); AllGenuine(s, ops) <==> -1 !in h.values && !h.stalled
    ensures AllGenuine(s, ops) ==>
      var h := Reads(s, ops); BlockingReads(s, ops) == (h.values, h.delivered, h.rest)
    decreases ops
  {
    if ops != [] {
      OperationOutcome(s, ops[0]);
      if Returns(s, ops[0]) {
        GenuineIsBlocking(Perform(s, ops[0]).rest, ops[1..]);
      }
    }
  }

  // ---- The classes ----

  class Pipe {
    var unread: seq<byte>
    var open: bool

    constructor ()
      ensures State() == Stream([], true)
    {
      unread, open := [], true;
    }

    function State(): Stream
      reads this
    {
      Stream(unread, open)
    }

    method Receive(a: Arrival)
      modifies this
      ensures State() == Arrive(old(State()), a)
    {
      if open {
        match a
        case Bytes(bs) => unread := unread + bs;
        case HangUp => open := false;
      }
    }

    method ReceiveAll(arrivals: seq<Arrival>)
      modifies this
      ensures State() == ArriveAll(old(State()), arrivals)
    {
      var i := 0;
      while i < |arrivals|
        invariant i <= |arrivals|
        invariant ArriveAll(State(), arrivals[i..]) == ArriveAll(old(State()), arrivals)
      {
        Receive(arrivals[i]);
        assert arrivals[i..][1..] == arrivals[i + 1..];
        i := i + 1;
      }
    }

    /** The non-blocking read(2) of len bytes into buffer; -1 stands for EAGAIN. */
    method Read(buffer: array<byte>, len: nat, grant: nat) returns (n: int)
      requires len <= buffer.Length && (Readable(State()) ==> Grant(State(), len, grant))
      modifies this, buffer
      ensures !Readable(old(State())) ==> n == -1 && State() == old(State()) && buffer[..] == old(buffer[..])
      ensures Readable(old(State())) ==>
        && n == grant && State() == Taken(old(State()), grant, 1).rest
        && buffer[..] == old(unread)[..grant] + old(buffer[grant..])
    {
      if unread == [] && open {
        return -1;
      }
      var i := 0;
      while i < grant
        invariant i <= grant
        invariant unread == old(unread) && open == old(open)
        invariant forall j | 0 <= j < i :: buffer[j] == unread[j]
        invariant forall j | i <= j < buffer.Length :: buffer[j] == old(buffer[j])
      {
        buffer[i] := unread[i];
        i := i + 1;
      }
      assert buffer[..] == unread[..grant] + old(buffer[grant..]);
      unread := unread[grant..];
      return grant;
    }
  }

  /** FileReadOperation with the base class BlockSyscall. */
  class FileReadOperation {
    const pipe: Pipe
    const buffer: array<byte>
    const len: nat
    var haveSuspend: bool
    var returnValue: int
    ghost var calls: nat

    constructor (pipe: Pipe, buffer: array<byte>, len: nat)
      ensures this.pipe == pipe && this.buffer == buffer && this.len == len && calls == 0 && !haveSuspend
    {
      this.pipe, this.buffer, this.len := pipe, buffer, len;
      haveSuspend, returnValue, calls := false, 0, 0;
    }

    /** await_suspend: true keeps the coroutine suspended. */
    method AwaitSuspend(grant: nat) returns (suspended: bool)
      requires len <= buffer.Length && (Readable(pipe.State()) ==> Grant(pipe.State(), len, grant))
      modifies this, pipe, buffer
      ensures suspended == haveSuspend == !Readable(old(pipe.State())) && calls == old(calls) + 1
      ensures suspended ==> pipe.State() == old(pipe.State()) && buffer[..] == old(buffer[..])
      ensures !suspended ==>
        && returnValue == grant && pipe.State() == Taken(old(pipe.State()), grant, 1).rest
        && buffer[..] == old(pipe.unread)[..grant] + old(buffer[grant..])
    {
      returnValue := pipe.Read(buffer, len, grant);
      calls := calls + 1;
      haveSuspend := returnValue == -1;
      return haveSuspend;
    }

    /** await_resume: one retry if the coroutine had been suspended. */
    method AwaitResume(grant: nat) returns (value: int)
      requires len <= buffer.Length && (haveSuspend && Readable(pipe.State()) ==> Grant(pipe.State(), len, grant))
      modifies this, pipe, buffer
      ensures value == returnValue && haveSuspend == old(haveSuspend)
      ensures !haveSuspend ==>
        && value == old(returnValue) && pipe.State() == old(pipe.State())
        && buffer[..] == old(buffer[..]) && calls == old(calls)
      ensures haveSuspend ==> calls == old(calls) + 1
      ensures haveSuspend && !Readable(old(pipe.State())) ==>
        value == -1 && pipe.State() == old(pipe.State()) && buffer[..] == old(buffer[..])
      ensures haveSuspend && Readable(old(pipe.State())) ==>
        && value == grant && pipe.State() == Taken(old(pipe.State()), grant, 1).rest
        && buffer[..] == old(pipe.unread)[..grant] + old(buffer[grant..])
    {
      if haveSuspend {
        returnValue := pipe.Read(buffer, len, grant);
        calls := calls + 1;
      }
      return returnValue;
    }
  }

  /** co_await of a read: while it is suspended, the loop lets the world go on, and resumes it or
      not. */
  method CoAwaitRead(pipe: Pipe, buffer: array<byte>, o: Operation)
    returns (returned: bool, value: int, ghost calls: nat)
    requires o.len <= buffer.Length && Valid(pipe.State(), o)
    modifies pipe, buffer
    ensures var r := Perform(old(pipe.State()), o);
      && returned == r.returned && calls == r.calls && pipe.State() == r.rest
      && (returned ==> value == r.value)
      && buffer[..] == r.bytes + old(buffer[..])[|r.bytes|..]
  {
    pipe.ReceiveAll(o.before);
    var op := new FileReadOperation(pipe, buffer, o.len);
    var suspended := op.AwaitSuspend(o.grant);
    if suspended {
      pipe.ReceiveAll(o.between);
      if !o.stale && pipe.unread == [] {
        return false, 0, op.calls;
      }
    }
    value := op.AwaitResume(o.grant);
    return true, value, op.calls;
  }
}
