/** What the acts of a session are, apart from leaving nothing behind: which directions they use, how
    often, and in what order. */
module SessionShape {
  import opened Wrappers
  import opened Epoll
  import opened EventLoop
  import opened Footprints
  import opened Resources
  import opened Commands

  // ---- What init leaves registered ----

  /** p is the object for file f, and epoll reports f for p in direction d alone, edge-triggered. */
  predicate Listens(s: Loop, p: nat, f: nat, d: Direction) {
    && p in s.heap && s.heap[p].fd == f && s.heap[p].ioState == Mask(d.In?, d.Out?, true)
    && f in s.k.interest && s.k.interest[f] == Registration(p, Mask(d.In?, d.Out?, true))
  }

  /** The act leaves p alone or makes it for f in direction d, and registers f for nothing else. */
  predicate MakesOnly(a: Act, p: nat, f: nat, d: Direction) {
    match a
    case Make(q, g, e) => if q == p then g == f && e == d else g != f
    case Watch(q, _) => q != p
    case Unwatch(q, _) => q != p
    case Drop(_) => false
    case _ => true
  }

  lemma {:induction false} MakingListens(w: World, acts: seq<Act>, p: nat, f: nat, d: Direction)
    requires p in w.loop.heap ==> Listens(w.loop, p, f, d)
    requires forall a | a in acts :: MakesOnly(a, p, f, d)
    ensures var s := DoAll(w, acts).loop; p in s.heap ==> Listens(s, p, f, d)
    decreases acts
  {
    if acts != [] {
      assert MakesOnly(acts[0], p, f, d);
      MakingListens(Do(w, acts[0]), acts[1..], p, f, d);
    }
  }

  lemma {:induction false} DoAllMarks(w: World, acts: seq<Act>)
    ensures FootprintOf(DoAll(w, acts)) == MarkAll(FootprintOf(w), acts)
    decreases acts
  {
    if acts != [] {
      DoMarks(w, acts[0]);
      DoAllMarks(Do(w, acts[0]), acts[1..]);
    }
  }

  function SpawnActs(e: Spawn, at: Addresses): seq<Act>
    requires Succeeds(e)
  {
    var w, r, f := e.pipeW.value, e.pipeR.value, e.pidfd.value;
    [OpenFile(w.rd), OpenFile(w.wr), OpenFile(r.rd), OpenFile(r.wr), Make(at.readEnd, r.rd, In),
     Make(at.writeEnd, w.wr, Out), OpenFile(f), Make(at.waitFd, f, In), CloseFile(w.rd), CloseFile(r.wr)]
  }

  lemma ObjectListens(w: World, acts: seq<Act>, p: nat, f: nat, d: Direction)
    requires p !in w.loop.heap && (forall a | a in acts :: MakesOnly(a, p, f, d))
    requires p in MarkAll(FootprintOf(w), acts).files
    ensures Listens(DoAll(w, acts).loop, p, f, d)
  {
    DoAllMarks(w, acts);
    assert p in FilesOf(DoAll(w, acts).loop.heap);
    MakingListens(w, acts, p, f, d);
  }

  lemma SpawnMakesOnly(x: Footprint, e: Spawn, at: Addresses)
    requires SpawnIsNew(x, e, at) && Succeeds(e)
    ensures InitActs(e, at) == SpawnActs(e, at)
    ensures forall a | a in SpawnActs(e, at) ::
      && MakesOnly(a, at.readEnd, e.pipeR.value.rd, In)
      && MakesOnly(a, at.writeEnd, e.pipeW.value.wr, Out)
      && MakesOnly(a, at.waitFd, e.pidfd.value, In)
  {
  }

  /** After a successful init the server listens for input from the child and for its end, and for
      room in the pipe to it. */
  lemma InitListens(w: World, e: Spawn, at: Addresses)
    requires SpawnIsNew(FootprintOf(w), e, at) && Succeeds(e)
    ensures var s := DoAll(w, InitActs(e, at)).loop;
      && Listens(s, at.readEnd, e.pipeR.value.rd, In)
      && Listens(s, at.writeEnd, e.pipeW.value.wr, Out)
      && Listens(s, at.waitFd, e.pidfd.value, In)
  {
    var acts := SpawnActs(e, at);
    SpawnMakesOnly(FootprintOf(w), e, at);
    InitStarts(FootprintOf(w), e, at);
    assert FactoryActs(e, at) == acts;
    assert forall p | p in w.loop.heap :: p in FootprintOf(w).files;
    ObjectListens(w, acts, at.readEnd, e.pipeR.value.rd, In);
    ObjectListens(w, acts, at.writeEnd, e.pipeW.value.wr, Out);
    ObjectListens(w, acts, at.waitFd, e.pidfd.value, In);
  }

  // ---- What is watched, how often, and until when ----

  predicate Apart(at: Addresses, c: Client) {
    && at.readEnd != at.writeEnd && at.readEnd != at.waitFd && at.writeEnd != at.waitFd
    && c.ptr !in {at.readEnd, at.writeEnd, at.waitFd}
  }

  /** The child's output and its pidfd are used for input only, its input for output only. */
  predicate OneWay(a: Act, at: Addresses) {
    (a.Make? || a.Watch? || a.Unwatch?) ==>
      && (a.p == at.readEnd || a.p == at.waitFd ==> a.d == In)
      && (a.p == at.writeEnd ==> a.d == Out)
  }

  ghost predicate AllOneWay(acts: seq<Act>, at: Addresses) {
    forall a | a in acts :: OneWay(a, at)
  }

  /** If act k is a watch, the next one is the unwatch that undoes it. */
  predicate PairedAt(acts: seq<Act>, k: nat) {
    k < |acts| && acts[k].Watch? ==> k + 1 < |acts| && acts[k + 1] == Unwatch(acts[k].p, acts[k].d)
  }

  ghost predicate Paired(acts: seq<Act>) {
    forall k: nat :: PairedAt(acts, k)
  }

  lemma PairedJoin(a: seq<Act>, b: seq<Act>)
    requires Paired(a) && Paired(b)
    ensures Paired(a + b)
  {
    forall k: nat ensures PairedAt(a + b, k) {
      assert PairedAt(a, k) && (k >= |a| ==> PairedAt(b, k - |a|));
    }
  }

  lemma {:induction false} RepeatHolds(acts: seq<Act>, n: nat, at: Addresses)
    requires Paired(acts) && AllOneWay(acts, at) && forall a | a in acts :: !a.OpenFile?
    ensures Paired(Repeat(acts, n)) && AllOneWay(Repeat(acts, n), at)
    ensures forall a | a in Repeat(acts, n) :: a in acts && !a.OpenFile?
  {
    if n > 0 {
      RepeatHolds(acts, n - 1, at);
      PairedJoin(acts, Repeat(acts, n - 1));
    }
  }

  /** How often an act occurs. */
  function Count(acts: seq<Act>, a: Act): nat {
    multiset(acts)[a]
  }

  lemma CountJoin(a: seq<Act>, b: seq<Act>, x: Act)
    ensures Count(a + b, x) == Count(a, x) + Count(b, x)
  {
  }

  lemma {:induction false} RepeatCounts(acts: seq<Act>, n: nat, x: Act)
    ensures Count(Repeat(acts, n), x) == n * Count(acts, x)
  {
    if n > 0 {
      RepeatCounts(acts, n - 1, x);
      CountJoin(acts, Repeat(acts, n - 1), x);
      assert n * Count(acts, x) == Count(acts, x) + (n - 1) * Count(acts, x);
    }
  }

  // The stages of a command's life.

  function WritingActs(at: Addresses): seq<Act> {
    OperationActs(at.writeEnd, Out) + FinishActs(at.writeEnd, Out)
  }

  function ReadingActs(at: Addresses, chunks: nat): seq<Act> {
    Repeat(OperationActs(at.readEnd, In), chunks) + FinishActs(at.readEnd, In)
  }

  function SendingActs(at: Addresses, c: Client, slices: nat): seq<Act> {
    Repeat([Watch(c.ptr, Out), Unwatch(c.ptr, Out)], slices) + WaitActs(at.waitFd)
  }

  lemma CommandInStages(at: Addresses, c: Client, chunks: nat, slices: nat)
    ensures CommandActs(at, c, chunks, slices) ==
      WritingActs(at) + (ReadingActs(at, chunks) + SendingActs(at, c, slices))
  {
  }

  /** Nothing is opened, and only p is watched. */
  ghost predicate UsesOnly(acts: seq<Act>, p: nat) {
    forall a | a in acts :: !a.OpenFile? && (a.Watch? ==> a.p == p)
  }

  /** What every stage keeps to; p is the descriptor it watches. */
  ghost predicate StageHolds(acts: seq<Act>, p: nat, at: Addresses) {
    Paired(acts) && AllOneWay(acts, at) && UsesOnly(acts, p)
  }

  lemma WritingHolds(at: Addresses, c: Client)
    requires Apart(at, c)
    ensures StageHolds(WritingActs(at), at.writeEnd, at)
  {
    PairedJoin(OperationActs(at.writeEnd, Out), FinishActs(at.writeEnd, Out));
  }

  lemma ReadingHolds(at: Addresses, c: Client, chunks: nat)
    requires Apart(at, c)
    ensures StageHolds(ReadingActs(at, chunks), at.readEnd, at)
  {
    RepeatHolds(OperationActs(at.readEnd, In), chunks, at);
    PairedJoin(Repeat(OperationActs(at.readEnd, In), chunks), FinishActs(at.readEnd, In));
  }

  lemma SendingHolds(at: Addresses, c: Client, slices: nat)
    requires Apart(at, c)
    ensures StageHolds(SendingActs(at, c, slices), c.ptr, at)
  {
    RepeatHolds([Watch(c.ptr, Out), Unwatch(c.ptr, Out)], slices, at);
    PairedJoin(Repeat([Watch(c.ptr, Out), Unwatch(c.ptr, Out)], slices), WaitActs(at.waitFd));
  }

  lemma StagesHold(at: Addresses, c: Client, chunks: nat, slices: nat)
    requires Apart(at, c)
    ensures StageHolds(WritingActs(at), at.writeEnd, at)
    ensures StageHolds(ReadingActs(at, chunks), at.readEnd, at)
    ensures StageHolds(SendingActs(at, c, slices), c.ptr, at)
  {
    WritingHolds(at, c);
    ReadingHolds(at, c, chunks);
    SendingHolds(at, c, slices);
  }

  /** Every watch of a command is undone at once, and each of its descriptors is used in its own direction
      only. */
  lemma CommandHolds(at: Addresses, c: Client, chunks: nat, slices: nat)
    requires Apart(at, c)
    ensures Paired(CommandActs(at, c, chunks, slices)) && AllOneWay(CommandActs(at, c, chunks, slices), at)
  {
    CommandInStages(at, c, chunks, slices);
    StagesHold(at, c, chunks, slices);
    var first, second, third := WritingActs(at), ReadingActs(at, chunks), SendingActs(at, c, slices);
    PairedJoin(second, third);
    PairedJoin(first, second + third);
    OneWayJoin(second, third, at);
    OneWayJoin(first, second + third, at);
  }

  lemma OneWayJoin(a: seq<Act>, b: seq<Act>, at: Addresses)
    requires AllOneWay(a, at) && AllOneWay(b, at)
    ensures AllOneWay(a + b, at)
  {
  }

  /** One write, `chunks` reads and `slices` sends, each watched once; nothing else is ever watched, the
      pidfd included. */
  lemma CommandWatches(at: Addresses, c: Client, chunks: nat, slices: nat, a: Act)
    requires Apart(at, c) && a.Watch?
    ensures Count(CommandActs(at, c, chunks, slices), a) ==
      (if a == Watch(at.writeEnd, Out) then 1 else 0) + (if a == Watch(at.readEnd, In) then chunks else 0) +
      (if a == Watch(c.ptr, Out) then slices else 0)
  {
    CommandInStages(at, c, chunks, slices);
    CountJoin(WritingActs(at), ReadingActs(at, chunks) + SendingActs(at, c, slices), a);
    CountJoin(ReadingActs(at, chunks), SendingActs(at, c, slices), a);
    CountJoin(OperationActs(at.writeEnd, Out), FinishActs(at.writeEnd, Out), a);
    OperationCounts(at.writeEnd, Out, a);
    ReadingCounts(at, chunks, a);
    SendingCounts(at, c, slices, a);
  }

  lemma ReadingCounts(at: Addresses, chunks: nat, a: Act)
    requires a.Watch?
    ensures Count(ReadingActs(at, chunks), a) == if a == Watch(at.readEnd, In) then chunks else 0
  {
    CountJoin(Repeat(OperationActs(at.readEnd, In), chunks), FinishActs(at.readEnd, In), a);
    RepeatCounts(OperationActs(at.readEnd, In), chunks, a);
    OperationCounts(at.readEnd, In, a);
  }

  lemma SendingCounts(at: Addresses, c: Client, slices: nat, a: Act)
    requires a.Watch?
    ensures Count(SendingActs(at, c, slices), a) == if a == Watch(c.ptr, Out) then slices else 0
  {
    var sends := [Watch(c.ptr, Out), Unwatch(c.ptr, Out)];
    CountJoin(Repeat(sends, slices), WaitActs(at.waitFd), a);
    RepeatCounts(sends, slices, a);
    assert Count(sends, a) == if a == Watch(c.ptr, Out) then 1 else 0;
    assert Count(WaitActs(at.waitFd), a) == 0;
  }

  lemma OperationCounts(p: nat, d: Direction, a: Act)
    requires a.Watch?
    ensures Count(OperationActs(p, d), a) == if a == Watch(p, d) then 1 else 0
    ensures Count(FinishActs(p, d), a) == 0
  {
  }

  /** Each descriptor of a whole session, failed or not, is used in its own direction only. */
  lemma SessionIsOneWay(e: Spawn, at: Addresses, c: Client, received: bool, chunks: nat, slices: nat)
    requires Apart(at, c)
    ensures AllOneWay(SessionActs(e, at, c, received, chunks, slices), at)
  {
    var first := [OpenFile(c.file), Make(c.ptr, c.file, In), Watch(c.ptr, In), Unwatch(c.ptr, In)];
    var command := if Succeeds(e) then CommandActs(at, c, chunks, slices) else [];
    var middle := if received then FactoryActs(e, at) + command else [];
    CommandHolds(at, c, chunks, slices);
    FactoryIsOneWay(e, at);
    OneWayJoin(FactoryActs(e, at), command, at);
    OneWayJoin(middle, [Drop(c.ptr)], at);
    OneWayJoin(first, middle + [Drop(c.ptr)], at);
  }

  lemma FactoryIsOneWay(e: Spawn, at: Addresses)
    requires at.readEnd != at.writeEnd && at.readEnd != at.waitFd && at.writeEnd != at.waitFd
    ensures AllOneWay(FactoryActs(e, at), at)
  {
    if e.pipeW.Some? && e.pipeR.Some? {
      assert AllOneWay(ForkActs(e, at), at);
      assert AllOneWay(StartActs(e, at), at);
    }
    assert AllOneWay(InitActs(e, at), at);
  }

  // ---- In what order ----

  lemma {:induction false} OpenShrinks(x: Footprint, acts: seq<Act>)
    requires forall a | a in acts :: !a.OpenFile?
    ensures MarkAll(x, acts).open <= x.open
    decreases acts
  {
    if acts != [] {
      assert !acts[0].OpenFile?;
      OpenShrinks(Mark(x, acts[0]), acts[1..]);
    }
  }

  lemma StaysClosed(x: Footprint, a: seq<Act>, b: seq<Act>, f: nat, k: nat)
    requires f !in MarkAll(x, a).open && (forall y | y in b :: !y.OpenFile?) && |a| <= k <= |a + b|
    ensures f !in MarkAll(x, (a + b)[..k]).open
  {
    var b' := b[..k - |a|];
    assert (a + b)[..k] == a + b';
    MarkConcatenates(x, a, b');
    OpenShrinks(MarkAll(x, a), b');
  }

  function Waiting(x: Footprint, e: Spawn, at: Addresses): Footprint
    requires Succeeds(e)
  {
    Plus(x, at.waitFd, e.pidfd.value)
  }

  function Reading(x: Footprint, e: Spawn, at: Addresses): Footprint
    requires Succeeds(e)
  {
    Plus(Waiting(x, e, at), at.readEnd, e.pipeR.value.rd)
  }

  lemma AfterWriting(x: Footprint, e: Spawn, at: Addresses)
    requires SpawnIsNew(x, e, at) && Succeeds(e)
    ensures MarkAll(Started(x, e, at), WritingActs(at)) == Reading(x, e, at)
  {
    OperationKeeps(Started(x, e, at), at.writeEnd, Out);
    FinishCloses(Reading(x, e, at), at.writeEnd, e.pipeW.value.wr, Out);
    MarkConcatenates(Started(x, e, at), OperationActs(at.writeEnd, Out), FinishActs(at.writeEnd, Out));
  }

  lemma AfterReading(x: Footprint, e: Spawn, at: Addresses, chunks: nat)
    requires SpawnIsNew(x, e, at) && Succeeds(e)
    ensures MarkAll(Reading(x, e, at), ReadingActs(at, chunks)) == Waiting(x, e, at)
  {
    var reading := Reading(x, e, at);
    OperationKeeps(reading, at.readEnd, In);
    OperationKeeps(Touched(reading, at.readEnd), at.readEnd, In);
    assert Touched(Touched(reading, at.readEnd), at.readEnd) == Touched(reading, at.readEnd);
    RepeatTouches(reading, at.readEnd, OperationActs(at.readEnd, In), chunks);
    FinishCloses(Waiting(x, e, at), at.readEnd, e.pipeR.value.rd, In);
    MarkConcatenates(reading, Repeat(OperationActs(at.readEnd, In), chunks), FinishActs(at.readEnd, In));
  }

  /** A watch of another descriptor than p comes after a stage that watches only p. */
  lemma ComesAfter(a: seq<Act>, b: seq<Act>, p: nat, k: nat)
    requires UsesOnly(a, p) && k < |a + b| && (a + b)[k].Watch?
    ensures (a + b)[k].p != p ==> k >= |a| && (a + b)[k] == b[k - |a|]
  {
  }

  lemma AfterTheWrite(x: Footprint, e: Spawn, at: Addresses, c: Client, chunks: nat, slices: nat, k: nat)
    requires SpawnIsNew(x, e, at) && Succeeds(e) && Apart(at, c)
    requires k < |CommandActs(at, c, chunks, slices)| && CommandActs(at, c, chunks, slices)[k].Watch?
    requires CommandActs(at, c, chunks, slices)[k].p != at.writeEnd
    ensures e.pipeW.value.wr !in MarkAll(Started(x, e, at), CommandActs(at, c, chunks, slices)[..k]).open
    ensures CommandActs(at, c, chunks, slices)[k].p in {at.readEnd, c.ptr}
  {
    var rest := ReadingActs(at, chunks) + SendingActs(at, c, slices);
    CommandInStages(at, c, chunks, slices);
    StagesHold(at, c, chunks, slices);
    AfterWriting(x, e, at);
    ComesAfter(WritingActs(at), rest, at.writeEnd, k);
    StaysClosed(Started(x, e, at), WritingActs(at), rest, e.pipeW.value.wr, k);
    assert rest[k - |WritingActs(at)|] in rest;
  }

  lemma ClosedInLast(x: Footprint, a: seq<Act>, b: seq<Act>, c: seq<Act>, f: nat, k: nat)
    requires f !in MarkAll(MarkAll(x, a), b).open && (forall y | y in c :: !y.OpenFile?)
    requires |a| + |b| <= k <= |a| + |b| + |c|
    ensures f !in MarkAll(x, (a + (b + c))[..k]).open
  {
    MarkConcatenates(x, a, b);
    assert a + (b + c) == (a + b) + c;
    StaysClosed(x, a + b, c, f, k);
  }

  lemma AfterTheReads(x: Footprint, e: Spawn, at: Addresses, c: Client, chunks: nat, slices: nat, k: nat)
    requires SpawnIsNew(x, e, at) && Succeeds(e) && Apart(at, c)
    requires k < |CommandActs(at, c, chunks, slices)| && CommandActs(at, c, chunks, slices)[k].Watch?
    requires CommandActs(at, c, chunks, slices)[k].p == c.ptr
    ensures e.pipeR.value.rd !in MarkAll(Started(x, e, at), CommandActs(at, c, chunks, slices)[..k]).open
  {
    var first, second, third := WritingActs(at), ReadingActs(at, chunks), SendingActs(at, c, slices);
    CommandInStages(at, c, chunks, slices);
    StagesHold(at, c, chunks, slices);
    AfterWriting(x, e, at);
    AfterReading(x, e, at, chunks);
    ComesAfter(first, second + third, at.writeEnd, k);
    ComesAfter(second, third, at.readEnd, k - |first|);
    ClosedInLast(Started(x, e, at), first, second, third, e.pipeR.value.rd, k);
  }

  /** By the time of any read of the child's output, the server has closed its end of the child's input,
      so that the child can come to the end of it; and by the time of any send to the client, it has
      closed its end of the child's output, too. */
  lemma CommandInOrder(x: Footprint, e: Spawn, at: Addresses, c: Client, chunks: nat, slices: nat, k: nat)
    requires SpawnIsNew(x, e, at) && Succeeds(e) && Apart(at, c)
    requires k < |CommandActs(at, c, chunks, slices)| && CommandActs(at, c, chunks, slices)[k].Watch?
    ensures var a := CommandActs(at, c, chunks, slices)[k];
      var y := MarkAll(Started(x, e, at), CommandActs(at, c, chunks, slices)[..k]);
      && a.p in {at.writeEnd, at.readEnd, c.ptr}
      && (a.p != at.writeEnd ==> e.pipeW.value.wr !in y.open)
      && (a.p == c.ptr ==> e.pipeR.value.rd !in y.open)
  {
    var p := CommandActs(at, c, chunks, slices)[k].p;
    if p != at.writeEnd {
      AfterTheWrite(x, e, at, c, chunks, slices, k);
      if p == c.ptr {
        AfterTheReads(x, e, at, c, chunks, slices, k);
      }
    }
  }
}
