/** PipedAsyncCommand: two pipes, a forked child and its pidfd, and the session that uses them. */
module Commands {
  import opened Wrappers
  import opened Epoll
  import opened EventLoop
  import opened Footprints
  import opened Resources
  import IoContext

  datatype Ends = Ends(rd: nat, wr: nat)

  /** What the kernel answers during init: the two pipes, fork, and pidfd_open. */
  datatype Spawn = Spawn(pipeW: Option<Ends>, pipeR: Option<Ends>, forked: bool, pidfd: Option<nat>)

  /** The addresses of the three descriptor objects. */
  datatype Addresses = Addresses(readEnd: nat, writeEnd: nat, waitFd: nat)

  /** The accepted socket. */
  datatype Client = Client(ptr: nat, file: nat)

  predicate Succeeds(e: Spawn) {
    e.pipeW.Some? && e.pipeR.Some? && e.forked && e.pidfd.Some?
  }

  /** Only pidfd_open failed. */
  predicate PidfdFails(e: Spawn) {
    e.pipeW.Some? && e.pipeR.Some? && e.forked && e.pidfd.None?
  }

  function InitActs(e: Spawn, at: Addresses): seq<Act> {
    if e.pipeW.None? then []
    else
      var w := e.pipeW.value;
      [OpenFile(w.rd), OpenFile(w.wr)] +
      if e.pipeR.None? then [CloseFile(w.wr), CloseFile(w.rd)] else StartActs(e, at)
  }

  function StartActs(e: Spawn, at: Addresses): seq<Act>
    requires e.pipeW.Some? && e.pipeR.Some?
  {
    EndsActs(e.pipeW.value, e.pipeR.value, at) + ForkActs(e, at)
  }

  function EndsActs(w: Ends, r: Ends, at: Addresses): seq<Act> {
    [OpenFile(r.rd), OpenFile(r.wr), Make(at.readEnd, r.rd, In), Make(at.writeEnd, w.wr, Out)]
  }

  function ForkActs(e: Spawn, at: Addresses): seq<Act>
    requires e.pipeW.Some? && e.pipeR.Some?
  {
    var w, r := e.pipeW.value, e.pipeR.value;
    if !e.forked then [CloseFile(w.rd), CloseFile(r.wr), Drop(at.readEnd), Drop(at.writeEnd)]
    else if e.pidfd.None? then []
    else [OpenFile(e.pidfd.value), Make(at.waitFd, e.pidfd.value, In), CloseFile(w.rd), CloseFile(r.wr)]
  }

  function DropOf(p: Option<nat>): seq<Act> {
    if p.Some? then [Drop(p.value)] else []
  }

  function DestructorActs(readEnd: Option<nat>, waitFd: Option<nat>, writeEnd: Option<nat>): seq<Act> {
    DropOf(readEnd) + DropOf(waitFd) + DropOf(writeEnd)
  }

  /** factory: an object whose init failed is destroyed at once, with what it holds by then. */
  function FactoryActs(e: Spawn, at: Addresses): seq<Act> {
    InitActs(e, at) + if PidfdFails(e) then DestructorActs(Some(at.readEnd), None, Some(at.writeEnd)) else []
  }

  /** An operation object on a shared descriptor. */
  function OperationActs(p: nat, d: Direction): seq<Act> {
    [Share(p), Watch(p, d), Unwatch(p, d), Drop(p)]
  }

  /** finishwriting and finishReading. */
  function FinishActs(p: nat, d: Direction): seq<Act> {
    [Unwatch(p, d), Drop(p)]
  }

  function Repeat(acts: seq<Act>, n: nat): seq<Act> {
    if n == 0 then [] else acts + Repeat(acts, n - 1)
  }

  /** The wait operation does not watch, its destructor does unwatch; then the command goes. */
  function WaitActs(p: nat): seq<Act> {
    [Share(p), Unwatch(p, In), Drop(p)] + DestructorActs(None, Some(p), None)
  }

  /** The command's part of a session with `chunks` reads of the pipe and `slices` sends. */
  function CommandActs(at: Addresses, c: Client, chunks: nat, slices: nat): seq<Act> {
    OperationActs(at.writeEnd, Out) + (FinishActs(at.writeEnd, Out) +
    (Repeat(OperationActs(at.readEnd, In), chunks) + (FinishActs(at.readEnd, In) +
    (Repeat([Watch(c.ptr, Out), Unwatch(c.ptr, Out)], slices) + WaitActs(at.waitFd)))))
  }

  /** From accept to the destruction of the socket; `received` is whether recv gave anything. */
  function SessionActs(e: Spawn, at: Addresses, c: Client, received: bool, chunks: nat, slices: nat): seq<Act> {
    [OpenFile(c.file), Make(c.ptr, c.file, In), Watch(c.ptr, In), Unwatch(c.ptr, In)] +
    ((if received then FactoryActs(e, at) + (if Succeeds(e) then CommandActs(at, c, chunks, slices) else []) else []) +
    [Drop(c.ptr)])
  }

  // ---- Conservation ----

  ghost predicate Consistent(x: Footprint) {
    && !x.fault
    && x.managed == x.files.Keys && x.refs.Keys == x.files.Keys && x.processed <= x.managed
    && x.known <= x.open
    && (forall p | p in x.files :: x.files[p] in x.known)
  }

  /** x with one more object p, owned once, for file f. */
  function Plus(x: Footprint, p: nat, f: nat): Footprint {
    x.(files := x.files[p := f], refs := x.refs[p := 1], managed := x.managed + {p},
       known := x.known + {f}, open := x.open + {f})
  }

  function Touched(x: Footprint, p: nat): Footprint {
    x.(processed := x.processed + {p})
  }

  predicate New(x: Footprint, p: nat, f: nat) {
    p !in x.files && p !in x.refs && p !in x.managed && p !in x.processed && f !in x.open && f !in x.known
  }

  lemma Mark2(x: Footprint, a: Act, b: Act)
    ensures MarkAll(x, [a, b]) == Mark(Mark(x, a), b)
  {
    assert [a, b][1..] == [b] && [b][1..] == [];
    assert MarkAll(Mark(x, a), [b]) == MarkAll(Mark(Mark(x, a), b), []);
  }

  lemma Mark4(x: Footprint, a: Act, b: Act, c: Act, d: Act)
    ensures MarkAll(x, [a, b, c, d]) == Mark(Mark(Mark(Mark(x, a), b), c), d)
  {
    assert [a, b, c, d] == [a, b] + [c, d];
    MarkConcatenates(x, [a, b], [c, d]);
    Mark2(x, a, b);
    Mark2(MarkAll(x, [a, b]), c, d);
  }

  /** The last owner of a registered descriptor takes everything of it away. */
  lemma DropUndoesPlus(x: Footprint, p: nat, f: nat)
    requires New(x, p, f)
    ensures Mark(Plus(x, p, f), Drop(p)) == x && Mark(Touched(Plus(x, p, f), p), Drop(p)) == x
  {
    var y := Mark(Plus(x, p, f), Drop(p));
    assert y.files == x.files && y.refs == x.refs && y.managed == x.managed;
    assert y.processed == x.processed && y.known == x.known && y.open == x.open;
    var z := Mark(Touched(Plus(x, p, f), p), Drop(p));
    assert z.files == x.files && z.refs == x.refs && z.managed == x.managed;
    assert z.processed == x.processed && z.known == x.known && z.open == x.open;
  }

  lemma UpdatesCommute(m: map<nat, nat>, p: nat, f: nat, q: nat, g: nat)
    requires p != q
    ensures m[p := f][q := g] == m[q := g][p := f]
  {
  }

  lemma PlusCommutes(x: Footprint, p: nat, f: nat, q: nat, g: nat)
    requires p != q
    ensures Plus(Plus(x, p, f), q, g) == Plus(Plus(x, q, g), p, f)
    ensures Touched(Plus(x, p, f), q) == Plus(Touched(x, q), p, f)
  {
    UpdatesCommute(x.files, p, f, q, g);
    UpdatesCommute(x.refs, p, 1, q, 1);
    assert x.managed + {p} + {q} == x.managed + {q} + {p};
    assert x.known + {f} + {g} == x.known + {g} + {f} && x.open + {f} + {g} == x.open + {g} + {f};
  }

  /** A shared descriptor survives an operation on it with the use count it had. */
  lemma OperationKeeps(x: Footprint, p: nat, d: Direction)
    requires p in x.files && p in x.refs && x.refs[p] == 1 && x.files[p] in x.known
    ensures MarkAll(x, OperationActs(p, d)) == Touched(x, p)
  {
    Mark4(x, Share(p), Watch(p, d), Unwatch(p, d), Drop(p));
    assert x.refs[p := 2][p := 1] == x.refs;
    assert x.processed + {p} + {p} == x.processed + {p};
  }

  /** Acts that only mark p as processed do no more when repeated. */
  lemma {:induction false} RepeatTouches(x: Footprint, p: nat, acts: seq<Act>, n: nat)
    requires MarkAll(x, acts) == Touched(x, p) && MarkAll(Touched(x, p), acts) == Touched(x, p)
    ensures MarkAll(x, Repeat(acts, n)) == if n == 0 then x else Touched(x, p)
    decreases n
  {
    if n > 0 {
      MarkConcatenates(x, acts, Repeat(acts, n - 1));
      assert Touched(Touched(x, p), p) == Touched(x, p);
      RepeatTouches(Touched(x, p), p, acts, n - 1);
    }
  }

  lemma WatchesTouch(x: Footprint, p: nat, d: Direction)
    requires p in x.files
    ensures MarkAll(x, [Watch(p, d), Unwatch(p, d)]) == Touched(x, p)
  {
    Mark2(x, Watch(p, d), Unwatch(p, d));
    assert x.processed + {p} + {p} == x.processed + {p};
  }

  // ---- The stages of a session ----

  /** The files that the kernel hands out during init are not in use and differ from each other. */
  predicate FilesAreNew(x: Footprint, e: Spawn) {
    && (e.pipeW.Some? ==> EndsAreNew(x, e.pipeW.value)) && (e.pipeR.Some? ==> EndsAreNew(x, e.pipeR.value))
    && (e.pipeW.Some? && e.pipeR.Some? ==>
          {e.pipeW.value.rd, e.pipeW.value.wr} !! {e.pipeR.value.rd, e.pipeR.value.wr})
    && (e.pidfd.Some? ==>
          && Unused(x, e.pidfd.value)
          && (e.pipeW.Some? ==> e.pidfd.value !in {e.pipeW.value.rd, e.pipeW.value.wr})
          && (e.pipeR.Some? ==> e.pidfd.value !in {e.pipeR.value.rd, e.pipeR.value.wr}))
  }

  predicate EndsAreNew(x: Footprint, p: Ends) {
    Unused(x, p.rd) && Unused(x, p.wr) && p.rd != p.wr
  }

  predicate Unused(x: Footprint, f: nat) {
    f !in x.open && f !in x.known
  }

  predicate NoObject(x: Footprint, p: nat) {
    p !in x.files && p !in x.refs && p !in x.managed && p !in x.processed
  }

  predicate SpawnIsNew(x: Footprint, e: Spawn, at: Addresses) {
    && FilesAreNew(x, e)
    && NoObject(x, at.readEnd) && NoObject(x, at.writeEnd) && NoObject(x, at.waitFd)
    && at.readEnd != at.writeEnd && at.readEnd != at.waitFd && at.writeEnd != at.waitFd
  }

  /** The footprint of a command that started: three objects; the child's ends are closed here. */
  function Started(x: Footprint, e: Spawn, at: Addresses): Footprint
    requires Succeeds(e)
  {
    Plus(Plus(Plus(x, at.waitFd, e.pidfd.value), at.readEnd, e.pipeR.value.rd), at.writeEnd, e.pipeW.value.wr)
  }

  lemma PipesOpen(x: Footprint, e: Spawn, at: Addresses, more: seq<Act>)
    requires SpawnIsNew(x, e, at) && e.pipeW.Some? && e.pipeR.Some?
    ensures var w, r := e.pipeW.value, e.pipeR.value;
      MarkAll(x, [OpenFile(w.rd), OpenFile(w.wr)] +
                 ([OpenFile(r.rd), OpenFile(r.wr), Make(at.readEnd, r.rd, In), Make(at.writeEnd, w.wr, Out)] + more)) ==
      MarkAll(Plus(Plus(x.(open := x.open + {w.rd, r.wr}), at.readEnd, r.rd), at.writeEnd, w.wr), more)
  {
    var w, r := e.pipeW.value, e.pipeR.value;
    var second := [OpenFile(r.rd), OpenFile(r.wr), Make(at.readEnd, r.rd, In), Make(at.writeEnd, w.wr, Out)];
    var y := x.(open := x.open + {w.rd} + {w.wr});
    MarkConcatenates(x, [OpenFile(w.rd), OpenFile(w.wr)], second + more);
    Mark2(x, OpenFile(w.rd), OpenFile(w.wr));
    MarkConcatenates(y, second, more);
    Mark4(y, OpenFile(r.rd), OpenFile(r.wr), Make(at.readEnd, r.rd, In), Make(at.writeEnd, w.wr, Out));
    var z := MarkAll(y, second);
    var z' := Plus(Plus(x.(open := x.open + {w.rd, r.wr}), at.readEnd, r.rd), at.writeEnd, w.wr);
    assert z.open == z'.open;
    assert z == z';
  }

  lemma PidfdOpens(y: Footprint, p: nat, f: nat, g: nat, h: nat)
    requires NoObject(y, p) && Unused(y, f) && {g, h} <= y.open && {g, h} !! y.known && g != h && f !in {g, h}
    ensures MarkAll(y, [OpenFile(f), Make(p, f, In), CloseFile(g), CloseFile(h)]) ==
      Plus(y.(open := y.open - {g, h}), p, f)
  {
    Mark4(y, OpenFile(f), Make(p, f, In), CloseFile(g), CloseFile(h));
    var z := MarkAll(y, [OpenFile(f), Make(p, f, In), CloseFile(g), CloseFile(h)]);
    var z' := Plus(y.(open := y.open - {g, h}), p, f);
    assert z.open == z'.open;
    assert z == z';
  }

  /** init succeeds: exactly the three objects are new, and only their files stay open. */
  lemma InitStarts(x: Footprint, e: Spawn, at: Addresses)
    requires SpawnIsNew(x, e, at) && Succeeds(e)
    ensures MarkAll(x, FactoryActs(e, at)) == Started(x, e, at)
  {
    var w, r, f := e.pipeW.value, e.pipeR.value, e.pidfd.value;
    var more := [OpenFile(f), Make(at.waitFd, f, In), CloseFile(w.rd), CloseFile(r.wr)];
    PipesOpen(x, e, at, more);
    assert FactoryActs(e, at) == [OpenFile(w.rd), OpenFile(w.wr)] +
      ([OpenFile(r.rd), OpenFile(r.wr), Make(at.readEnd, r.rd, In), Make(at.writeEnd, w.wr, Out)] + more);
    var y := Plus(Plus(x.(open := x.open + {w.rd, r.wr}), at.readEnd, r.rd), at.writeEnd, w.wr);
    PidfdOpens(y, at.waitFd, f, w.rd, r.wr);
    StartedInOrder(x, e, at, y);
  }

  lemma StartedInOrder(x: Footprint, e: Spawn, at: Addresses, y: Footprint)
    requires SpawnIsNew(x, e, at) && Succeeds(e)
    requires var w, r := e.pipeW.value, e.pipeR.value;
      y == Plus(Plus(x.(open := x.open + {w.rd, r.wr}), at.readEnd, r.rd), at.writeEnd, w.wr)
    ensures var w, r := e.pipeW.value, e.pipeR.value;
      Plus(y.(open := y.open - {w.rd, r.wr}), at.waitFd, e.pidfd.value) == Started(x, e, at)
  {
    var y' := Plus(Plus(x, at.readEnd, e.pipeR.value.rd), at.writeEnd, e.pipeW.value.wr);
    assert y.open - {e.pipeW.value.rd, e.pipeR.value.wr} == y'.open;
    assert y.(open := y.open - {e.pipeW.value.rd, e.pipeR.value.wr}) == y';
    PlusCommutes(Plus(x, at.readEnd, e.pipeR.value.rd), at.writeEnd, e.pipeW.value.wr, at.waitFd, e.pidfd.value);
    PlusCommutes(x, at.readEnd, e.pipeR.value.rd, at.waitFd, e.pidfd.value);
  }

  /** A pipe or the fork fails: nothing is left. pidfd_open fails: the child's two ends stay open. */
  lemma InitFails(x: Footprint, e: Spawn, at: Addresses)
    requires SpawnIsNew(x, e, at) && !Succeeds(e)
    ensures MarkAll(x, FactoryActs(e, at)) ==
      if PidfdFails(e) then x.(open := x.open + {e.pipeW.value.rd, e.pipeR.value.wr}) else x
  {
    if e.pipeW.Some? && e.pipeR.None? {
      var w := e.pipeW.value;
      assert FactoryActs(e, at) == [OpenFile(w.rd), OpenFile(w.wr), CloseFile(w.wr), CloseFile(w.rd)];
      Mark4(x, OpenFile(w.rd), OpenFile(w.wr), CloseFile(w.wr), CloseFile(w.rd));
      assert MarkAll(x, FactoryActs(e, at)).open == x.open;
    } else if e.pipeW.Some? {
      var w, r := e.pipeW.value, e.pipeR.value;
      assert DestructorActs(Some(at.readEnd), None, Some(at.writeEnd)) == [Drop(at.readEnd), Drop(at.writeEnd)];
      var more := if e.forked then [Drop(at.readEnd), Drop(at.writeEnd)]
        else [CloseFile(w.rd), CloseFile(r.wr), Drop(at.readEnd), Drop(at.writeEnd)];
      PipesOpen(x, e, at, more);
      assert FactoryActs(e, at) == [OpenFile(w.rd), OpenFile(w.wr)] +
        ([OpenFile(r.rd), OpenFile(r.wr), Make(at.readEnd, r.rd, In), Make(at.writeEnd, w.wr, Out)] + more);
      var left := x.(open := x.open + {w.rd, r.wr});
      var y := Plus(Plus(left, at.readEnd, r.rd), at.writeEnd, w.wr);
      if e.forked {
        Mark2(y, Drop(at.readEnd), Drop(at.writeEnd));
        DropsUndo(left, at, r.rd, w.wr);
      } else {
        Mark4(y, CloseFile(w.rd), CloseFile(r.wr), Drop(at.readEnd), Drop(at.writeEnd));
        var y' := Mark(Mark(y, CloseFile(w.rd)), CloseFile(r.wr));
        assert y'.open == Plus(Plus(x, at.readEnd, r.rd), at.writeEnd, w.wr).open;
        assert y' == Plus(Plus(x, at.readEnd, r.rd), at.writeEnd, w.wr);
        DropsUndo(x, at, r.rd, w.wr);
      }
    }
  }

  lemma DropsUndo(x: Footprint, at: Addresses, f: nat, g: nat)
    requires NoObject(x, at.readEnd) && NoObject(x, at.writeEnd) && at.readEnd != at.writeEnd
    requires Unused(x, f) && Unused(x, g) && f != g
    ensures Mark(Mark(Plus(Plus(x, at.readEnd, f), at.writeEnd, g), Drop(at.readEnd)), Drop(at.writeEnd)) == x
  {
    PlusCommutes(x, at.readEnd, f, at.writeEnd, g);
    DropUndoesPlus(Plus(x, at.writeEnd, g), at.readEnd, f);
    DropUndoesPlus(x, at.writeEnd, g);
  }

  /** finishwriting or finishReading on the only owner closes the descriptor, used or not. */
  lemma FinishCloses(x: Footprint, p: nat, f: nat, d: Direction)
    requires New(x, p, f)
    ensures MarkAll(Plus(x, p, f), FinishActs(p, d)) == x
    ensures MarkAll(Touched(Plus(x, p, f), p), FinishActs(p, d)) == x
  {
    Mark2(Plus(x, p, f), Unwatch(p, d), Drop(p));
    Mark2(Touched(Plus(x, p, f), p), Unwatch(p, d), Drop(p));
    assert Touched(Touched(Plus(x, p, f), p), p) == Touched(Plus(x, p, f), p);
    DropUndoesPlus(x, p, f);
  }

  lemma WaitCloses(x: Footprint, p: nat, f: nat)
    requires New(x, p, f)
    ensures MarkAll(Plus(x, p, f), WaitActs(p)) == x
  {
    var y := Plus(x, p, f);
    assert WaitActs(p) == [Share(p), Unwatch(p, In), Drop(p), Drop(p)];
    Mark4(y, Share(p), Unwatch(p, In), Drop(p), Drop(p));
    assert y.refs[p := 2][p := 1] == y.refs;
    assert Mark(Mark(Mark(y, Share(p)), Unwatch(p, In)), Drop(p)) == Touched(y, p);
    DropUndoesPlus(x, p, f);
  }

  /** The command's life leaves nothing of it, whatever the number of reads and sends. */
  lemma CommandLeavesNothing(x: Footprint, e: Spawn, at: Addresses, c: Client, chunks: nat, slices: nat)
    requires SpawnIsNew(x, e, at) && Succeeds(e) && c.ptr in x.files && c.ptr in x.processed
    ensures MarkAll(Started(x, e, at), CommandActs(at, c, chunks, slices)) == x
  {
    var waiting := Plus(x, at.waitFd, e.pidfd.value);
    var reading := Plus(waiting, at.readEnd, e.pipeR.value.rd);
    var sends := [Watch(c.ptr, Out), Unwatch(c.ptr, Out)];
    var t5 := Repeat(sends, slices) + WaitActs(at.waitFd);
    var t4 := FinishActs(at.readEnd, In) + t5;
    var t3 := Repeat(OperationActs(at.readEnd, In), chunks) + t4;
    var t2 := FinishActs(at.writeEnd, Out) + t3;

    OperationKeeps(Started(x, e, at), at.writeEnd, Out);
    MarkConcatenates(Started(x, e, at), OperationActs(at.writeEnd, Out), t2);
    FinishCloses(reading, at.writeEnd, e.pipeW.value.wr, Out);
    MarkConcatenates(Touched(Started(x, e, at), at.writeEnd), FinishActs(at.writeEnd, Out), t3);

    OperationKeeps(reading, at.readEnd, In);
    OperationKeeps(Touched(reading, at.readEnd), at.readEnd, In);
    assert Touched(Touched(reading, at.readEnd), at.readEnd) == Touched(reading, at.readEnd);
    RepeatTouches(reading, at.readEnd, OperationActs(at.readEnd, In), chunks);
    MarkConcatenates(reading, Repeat(OperationActs(at.readEnd, In), chunks), t4);
    FinishCloses(waiting, at.readEnd, e.pipeR.value.rd, In);
    MarkConcatenates(if chunks == 0 then reading else Touched(reading, at.readEnd), FinishActs(at.readEnd, In), t5);

    WatchesTouch(waiting, c.ptr, Out);
    assert Touched(waiting, c.ptr) == waiting;
    RepeatTouches(waiting, c.ptr, sends, slices);
    MarkConcatenates(waiting, Repeat(sends, slices), WaitActs(at.waitFd));
    WaitCloses(x, at.waitFd, e.pidfd.value);
  }

  // ---- The session ----

  /** The footprint that a session leaves behind: none, except for the child's ends when pidfd_open
      fails. */
  function Leftover(x: Footprint, e: Spawn, received: bool): Footprint {
    if received && PidfdFails(e) then x.(open := x.open + {e.pipeW.value.rd, e.pipeR.value.wr}) else x
  }

  lemma SessionMarks(x: Footprint, e: Spawn, at: Addresses, c: Client, received: bool, chunks: nat, slices: nat)
    requires Consistent(x) && New(x, c.ptr, c.file) && SpawnIsNew(Plus(x, c.ptr, c.file), e, at)
    ensures MarkAll(x, SessionActs(e, at, c, received, chunks, slices)) == Leftover(x, e, received)
  {
    var first := [OpenFile(c.file), Make(c.ptr, c.file, In), Watch(c.ptr, In), Unwatch(c.ptr, In)];
    var command := if Succeeds(e) then CommandActs(at, c, chunks, slices) else [];
    var middle := if received then FactoryActs(e, at) + command else [];
    var y := Touched(Plus(x, c.ptr, c.file), c.ptr);
    Mark4(x, OpenFile(c.file), Make(c.ptr, c.file, In), Watch(c.ptr, In), Unwatch(c.ptr, In));
    assert MarkAll(x, first) == y;
    MarkConcatenates(x, first, middle + [Drop(c.ptr)]);
    MarkConcatenates(y, middle, [Drop(c.ptr)]);
    assert SpawnIsNew(y, e, at);
    if received {
      MarkConcatenates(y, FactoryActs(e, at), command);
      if Succeeds(e) {
        InitStarts(y, e, at);
        CommandLeavesNothing(y, e, at, c, chunks, slices);
      } else {
        InitFails(y, e, at);
      }
    }
    LastDrop(x, e, c, received);
  }

  lemma LastDrop(x: Footprint, e: Spawn, c: Client, received: bool)
    requires New(x, c.ptr, c.file)
    requires PidfdFails(e) ==> c.file != e.pipeW.value.rd && c.file != e.pipeR.value.wr
    ensures MarkAll(Leftover(Touched(Plus(x, c.ptr, c.file), c.ptr), e, received), [Drop(c.ptr)]) ==
      Leftover(x, e, received)
  {
    var l := Leftover(x, e, received);
    var y := Leftover(Touched(Plus(x, c.ptr, c.file), c.ptr), e, received);
    assert y.open == Touched(Plus(l, c.ptr, c.file), c.ptr).open;
    assert y == Touched(Plus(l, c.ptr, c.file), c.ptr);
    DropUndoesPlus(l, c.ptr, c.file);
    assert MarkAll(y, [Drop(c.ptr)]) == MarkAll(Mark(y, Drop(c.ptr)), []);
  }

  // ---- A session among others ----

  const Nothing := Footprint(map[], map[], {}, {}, {}, {}, false)

  function BothEnds(p: Option<Ends>): set<nat> {
    if p.Some? then {p.value.rd, p.value.wr} else {}
  }

  /** The addresses and files of one session. */
  function OwnOf(e: Spawn, at: Addresses, c: Client): Own {
    Own({c.ptr, at.readEnd, at.writeEnd, at.waitFd},
        {c.file} + BothEnds(e.pipeW) + BothEnds(e.pipeR) + (if e.pidfd.Some? then {e.pidfd.value} else {}))
  }

  ghost predicate AllConcern(acts: seq<Act>, own: Own) {
    forall a | a in acts :: Concerns(a, own, true)
  }

  lemma {:induction false} RepeatConcerns(acts: seq<Act>, n: nat, own: Own)
    requires AllConcern(acts, own)
    ensures AllConcern(Repeat(acts, n), own)
  {
    if n > 0 {
      RepeatConcerns(acts, n - 1, own);
    }
  }

  lemma FactoryConcerns(e: Spawn, at: Addresses, c: Client)
    ensures AllConcern(FactoryActs(e, at), OwnOf(e, at, c))
  {
    if e.pipeW.Some? && e.pipeR.Some? {
      assert AllConcern(ForkActs(e, at), OwnOf(e, at, c));
      assert AllConcern(StartActs(e, at), OwnOf(e, at, c));
    }
    assert AllConcern(InitActs(e, at), OwnOf(e, at, c));
  }

  lemma CommandConcerns(e: Spawn, at: Addresses, c: Client, chunks: nat, slices: nat)
    ensures AllConcern(CommandActs(at, c, chunks, slices), OwnOf(e, at, c))
  {
    var own := OwnOf(e, at, c);
    RepeatConcerns(OperationActs(at.readEnd, In), chunks, own);
    RepeatConcerns([Watch(c.ptr, Out), Unwatch(c.ptr, Out)], slices, own);
    assert AllConcern(Repeat([Watch(c.ptr, Out), Unwatch(c.ptr, Out)], slices) + WaitActs(at.waitFd), own);
  }

  lemma SessionConcerns(e: Spawn, at: Addresses, c: Client, received: bool, chunks: nat, slices: nat)
    ensures AllConcern(SessionActs(e, at, c, received, chunks, slices), OwnOf(e, at, c))
  {
    FactoryConcerns(e, at, c);
    CommandConcerns(e, at, c, chunks, slices);
  }

  lemma {:induction false} MineAreActs(deeds: seq<Deed>, d: Deed)
    requires d in deeds && d.Mine?
    ensures d.act in ActsOf(deeds, true)
  {
    if deeds[0] != d {
      MineAreActs(deeds[1..], d);
    }
  }

  /** Descriptor conservation, amid any number of other sessions and whatever the loop does. When a
      session whose names nobody uses is over, however its acts were interleaved with the others', of
      its own part of the open files, the epoll interest list, the managed and processed sets, the
      objects and their use counts nothing is left; the rest is what the others' acts alone made of
      it; and if there was a fault, it was theirs. The same holds when recv, a pipe or the fork fails; if
      pidfd_open fails, exactly the two ends meant for the child stay open. */
  lemma SessionConserves(
      w: World, deeds: seq<Deed>, states: seq<World>, others: Footprint,
      e: Spawn, at: Addresses, c: Client, received: bool, chunks: nat, slices: nat)
    requires SpawnIsNew(Plus(Nothing, c.ptr, c.file), e, at) && Consistent(FootprintOf(w))
    requires Splits(FootprintOf(w), Nothing, others, OwnOf(e, at, c))
    requires Plays(w, deeds, states) && ActsOf(deeds, true) == SessionActs(e, at, c, received, chunks, slices)
    requires forall d | d in deeds && d.Theirs? :: Concerns(d.act, OwnOf(e, at, c), false)
    ensures var x := FootprintOf(Last(w, states));
      && IsPart(x, Leftover(Nothing, e, received), OwnOf(e, at, c), true)
      && IsPart(x, MarkAll(others, ActsOf(deeds, false)), OwnOf(e, at, c), false)
      && (x.fault ==> MarkAll(others, ActsOf(deeds, false)).fault)
  {
    var own := OwnOf(e, at, c);
    forall d | d in deeds ensures Concerns(d.act, own, d.Mine?) {
      if d.Mine? {
        MineAreActs(deeds, d);
        SessionConcerns(e, at, c, received, chunks, slices);
      }
    }
    NamesAreSeparate(FootprintOf(w), others, own);
    PlaysApart(w, deeds, states, Nothing, others, own);
    SessionMarks(Nothing, e, at, c, received, chunks, slices);
  }

  lemma NamesAreSeparate(x: Footprint, others: Footprint, own: Own)
    requires Consistent(x) && Splits(x, Nothing, others, own)
    ensures Separate(x, own)
  {
    forall p | p in x.files ensures p !in own.ptrs && x.files[p] !in own.files {
      assert p in Nothing.files <==> p in x.files && p in own.ptrs;
      assert x.files[p] in Nothing.known <==> x.files[p] in x.known && x.files[p] in own.files;
    }
  }

  lemma {:induction false} OpeningsAdd(a: seq<Act>, b: seq<Act>, f: nat)
    ensures Openings(a + b, f) == Openings(a, f) + Openings(b, f)
  {
    if a == [] {
      assert a + b == b;
    } else {
      assert (a + b)[0] == a[0] && (a + b)[1..] == a[1..] + b;
      OpeningsAdd(a[1..], b, f);
    }
  }

  /** Each file of a session that started is closed exactly once. */
  lemma SessionClosesOnce(x: Footprint, e: Spawn, at: Addresses, c: Client, chunks: nat, slices: nat, f: nat)
    requires Consistent(x) && New(x, c.ptr, c.file) && SpawnIsNew(Plus(x, c.ptr, c.file), e, at) && Succeeds(e)
    requires f in {c.file, e.pipeW.value.rd, e.pipeW.value.wr, e.pipeR.value.rd, e.pipeR.value.wr, e.pidfd.value}
    ensures Closings(x, SessionActs(e, at, c, true, chunks, slices), f) == 1
  {
    SessionMarks(x, e, at, c, true, chunks, slices);
    ClosingsBalanceOpenings(x, SessionActs(e, at, c, true, chunks, slices), f);
    SessionOpensOnce(e, at, c, chunks, slices, f);
  }

  lemma SessionOpensOnce(e: Spawn, at: Addresses, c: Client, chunks: nat, slices: nat, f: nat)
    requires Succeeds(e)
    ensures Openings(SessionActs(e, at, c, true, chunks, slices), f) ==
      (if f == c.file then 1 else 0) +
      (if f == e.pipeW.value.rd then 1 else 0) + (if f == e.pipeW.value.wr then 1 else 0) +
      (if f == e.pipeR.value.rd then 1 else 0) + (if f == e.pipeR.value.wr then 1 else 0) +
      (if f == e.pidfd.value then 1 else 0)
  {
    var first := [OpenFile(c.file), Make(c.ptr, c.file, In), Watch(c.ptr, In), Unwatch(c.ptr, In)];
    var command := CommandActs(at, c, chunks, slices);
    var w, r := e.pipeW.value, e.pipeR.value;
    OpeningsAdd(first, FactoryActs(e, at) + command + [Drop(c.ptr)], f);
    OpeningsAdd(FactoryActs(e, at) + command, [Drop(c.ptr)], f);
    OpeningsAdd(FactoryActs(e, at), command, f);
    CommandOpensNothing(at, c, chunks, slices, f);
    var a := [OpenFile(w.rd), OpenFile(w.wr)];
    var b := [OpenFile(r.rd), OpenFile(r.wr), Make(at.readEnd, r.rd, In), Make(at.writeEnd, w.wr, Out)];
    var d := [OpenFile(e.pidfd.value), Make(at.waitFd, e.pidfd.value, In), CloseFile(w.rd), CloseFile(r.wr)];
    assert FactoryActs(e, at) == a + (b + d);
    OpeningsAdd(a, b + d, f);
    OpeningsAdd(b, d, f);
    Opens4(first, f);
    Opens4(b, f);
    Opens4(d, f);
    Opens2(a, f);
    assert Openings([Drop(c.ptr)], f) == Openings([Drop(c.ptr)][1..], f) == 0;
  }

  lemma Opens2(a: seq<Act>, f: nat)
    requires |a| == 2
    ensures Openings(a, f) == (if a[0] == OpenFile(f) then 1 else 0) + (if a[1] == OpenFile(f) then 1 else 0)
  {
    assert a[1..][1..] == [];
    assert Openings(a[1..], f) == (if a[1] == OpenFile(f) then 1 else 0) + Openings(a[1..][1..], f);
  }

  lemma Opens4(a: seq<Act>, f: nat)
    requires |a| == 4
    ensures Openings(a, f) == (if a[0] == OpenFile(f) then 1 else 0) + (if a[1] == OpenFile(f) then 1 else 0) +
                              (if a[2] == OpenFile(f) then 1 else 0) + (if a[3] == OpenFile(f) then 1 else 0)
  {
    assert a == a[..2] + a[2..];
    OpeningsAdd(a[..2], a[2..], f);
    Opens2(a[..2], f);
    Opens2(a[2..], f);
  }

  lemma {:induction false} RepeatOpens(acts: seq<Act>, n: nat, f: nat)
    requires Openings(acts, f) == 0
    ensures Openings(Repeat(acts, n), f) == 0
  {
    if n > 0 {
      OpeningsAdd(acts, Repeat(acts, n - 1), f);
      RepeatOpens(acts, n - 1, f);
    }
  }

  lemma CommandOpensNothing(at: Addresses, c: Client, chunks: nat, slices: nat, f: nat)
    ensures Openings(CommandActs(at, c, chunks, slices), f) == 0
  {
    var sends := [Watch(c.ptr, Out), Unwatch(c.ptr, Out)];
    var t5 := Repeat(sends, slices) + WaitActs(at.waitFd);
    var t4 := FinishActs(at.readEnd, In) + t5;
    var t3 := Repeat(OperationActs(at.readEnd, In), chunks) + t4;
    Opens4(OperationActs(at.writeEnd, Out), f);
    Opens4(OperationActs(at.readEnd, In), f);
    Opens4(WaitActs(at.waitFd), f);
    Opens2(FinishActs(at.writeEnd, Out), f);
    Opens2(FinishActs(at.readEnd, In), f);
    Opens2(sends, f);
    RepeatOpens(OperationActs(at.readEnd, In), chunks, f);
    RepeatOpens(sends, slices, f);
    OpeningsAdd(Repeat(sends, slices), WaitActs(at.waitFd), f);
    OpeningsAdd(FinishActs(at.readEnd, In), t5, f);
    OpeningsAdd(Repeat(OperationActs(at.readEnd, In), chunks), t4, f);
    OpeningsAdd(FinishActs(at.writeEnd, Out), t3, f);
    OpeningsAdd(OperationActs(at.writeEnd, Out), FinishActs(at.writeEnd, Out) + t3, f);
  }

  // ---- The class ----

  /** Shared ownership is explicit: `refs` holds the use counts of the descriptor objects. */
  class PipedAsyncCommand {
    const ctx: IoContext.IOContext
    var mFdW: Ends
    var mFdR: Ends
    var readEnd: Option<nat>
    var writeEnd: Option<nat>
    var waitFd: Option<nat>
    var refs: map<nat, nat>

    function Now(): World
      reads this, ctx
    {
      World(ctx.State(), refs)
    }

    constructor (ctx: IoContext.IOContext, refs: map<nat, nat>)
      ensures this.ctx == ctx && this.refs == refs && readEnd == None && writeEnd == None && waitFd == None
    {
      this.ctx, this.refs := ctx, refs;
      mFdW, mFdR := Ends(0, 0), Ends(0, 0);
      readEnd, writeEnd, waitFd := None, None, None;
    }

    /** The event loop is where a valid run has led it, and coroutine code has the thread. */
    ghost predicate Ready()
      reads ctx
    {
      ctx.Valid() && Active(ctx.State())
    }

    method Open(f: nat)
      requires Ready() && f !in ctx.k.poll
      modifies ctx
      ensures Ready() && Now() == Do(old(Now()), OpenFile(f))
    {
      ctx.CreateFile(f, Silent);
    }

    method Close(f: nat)
      requires Ready() && f in ctx.k.poll && f !in ctx.k.interest
      modifies ctx
      ensures Ready() && Now() == Do(old(Now()), CloseFile(f))
    {
      ctx.CloseFile(f);
    }

    /** A live, registered descriptor that no operation is outstanding on. */
    ghost predicate Owns(p: nat)
      reads this, ctx
    {
      && p in refs && p in ctx.heap && p !in ctx.ops
      && ctx.heap[p].fd in ctx.k.interest && ctx.heap[p].fd in ctx.k.poll
    }

    /** p is the only owner of a descriptor for file f. */
    ghost predicate Holds(p: nat, f: nat)
      reads this, ctx
    {
      Owns(p) && refs[p] == 1 && ctx.heap[p].fd == f
    }

    method MakeShared(p: nat, f: nat, d: Direction)
      requires Ready() && p !in ctx.heap && f in ctx.k.poll && f !in ctx.k.interest
      modifies this`refs, ctx
      ensures Ready() && Now() == Do(old(Now()), Make(p, f, d)) && ctx.ops == old(ctx.ops) && p !in ctx.ops
      ensures ctx.k.poll == old(ctx.k.poll) && ctx.k.interest.Keys == old(ctx.k.interest.Keys) + {f}
      ensures Holds(p, f) && ctx.heap == old(ctx.heap)[p := ctx.heap[p]] && refs == old(refs)[p := 1]
    {
      ctx.ValidIsInvariant();
      ctx.OpenDescriptor(p, f, d);
      refs := refs[p := 1];
    }

    /** shared_ptr::reset, and the destructor of AsyncFileDescriptor for the last owner. */
    method Reset(p: nat)
      requires Ready() && Owns(p)
      modifies this`refs, ctx
      ensures Ready() && Now() == Do(old(Now()), Drop(p)) && ctx.ops == old(ctx.ops)
      ensures old(refs[p]) == 1 ==>
        && refs == old(refs) - {p} && ctx.heap == old(ctx.heap) - {p}
        && ctx.k.poll == old(ctx.k.poll) - {old(ctx.heap[p].fd)}
        && ctx.k.interest == old(ctx.k.interest) - {old(ctx.heap[p].fd)}
    {
      if refs[p] > 1 {
        refs := refs[p := refs[p] - 1];
      } else {
        refs := refs - {p};
        ctx.DestroyDescriptor(p);
      }
    }

    /** Both pipes exist: the parent's two ends become descriptor objects. */
    method MakeEnds(at: Addresses)
      requires Ready() && {mFdW.rd, mFdW.wr, mFdR.rd, mFdR.wr} <= ctx.k.poll.Keys
      requires mFdW.wr != mFdR.rd && mFdW.wr !in ctx.k.interest && mFdR.rd !in ctx.k.interest
      requires at.readEnd !in ctx.heap && at.writeEnd !in ctx.heap && at.readEnd != at.writeEnd
      modifies this`readEnd, this`writeEnd, this`refs, ctx
      ensures Ready() && readEnd == Some(at.readEnd) && writeEnd == Some(at.writeEnd)
      ensures Now() == DoAll(old(Now()), [Make(at.readEnd, mFdR.rd, In), Make(at.writeEnd, mFdW.wr, Out)])
      ensures ctx.k.poll == old(ctx.k.poll)
      ensures ctx.k.interest.Keys == old(ctx.k.interest.Keys) + {mFdR.rd, mFdW.wr}
      ensures ctx.heap.Keys == old(ctx.heap.Keys) + {at.readEnd, at.writeEnd}
      ensures Holds(at.readEnd, mFdR.rd) && Holds(at.writeEnd, mFdW.wr)
    {
      ghost var w := Now();
      MakeShared(at.readEnd, mFdR.rd, In);
      readEnd := Some(at.readEnd);
      MakeWriteEnd(at);
      DoTwo(w, Make(at.readEnd, mFdR.rd, In), Make(at.writeEnd, mFdW.wr, Out));
    }

    method MakeWriteEnd(at: Addresses)
      requires Ready() && mFdW.wr in ctx.k.poll && mFdW.wr !in ctx.k.interest && at.writeEnd !in ctx.heap
      requires Holds(at.readEnd, mFdR.rd) && at.readEnd != at.writeEnd
      modifies this`writeEnd, this`refs, ctx
      ensures Ready() && writeEnd == Some(at.writeEnd)
      ensures Now() == Do(old(Now()), Make(at.writeEnd, mFdW.wr, Out))
      ensures ctx.k.poll == old(ctx.k.poll) && ctx.k.interest.Keys == old(ctx.k.interest.Keys) + {mFdW.wr}
      ensures ctx.heap.Keys == old(ctx.heap.Keys) + {at.writeEnd}
      ensures Holds(at.readEnd, mFdR.rd) && Holds(at.writeEnd, mFdW.wr)
    {
      MakeShared(at.writeEnd, mFdW.wr, Out);
      writeEnd := Some(at.writeEnd);
    }

    /** fork failed: everything is closed again. */
    method AbandonFork(at: Addresses)
      requires Ready() && readEnd == Some(at.readEnd) && writeEnd == Some(at.writeEnd) && at.readEnd != at.writeEnd
      requires Holds(at.readEnd, mFdR.rd) && Holds(at.writeEnd, mFdW.wr) && mFdR.rd != mFdW.wr && ChildEndsAreBare()
      modifies this`readEnd, this`writeEnd, this`refs, ctx
      ensures Ready() && readEnd == None && writeEnd == None
      ensures Now() ==
        DoAll(old(Now()), [CloseFile(mFdW.rd), CloseFile(mFdR.wr), Drop(at.readEnd), Drop(at.writeEnd)])
    {
      ghost var w := Now();
      CloseChildEnds();
      Reset(at.readEnd);
      readEnd := None;
      Reset(at.writeEnd);
      writeEnd := None;
      DoTwo(w, CloseFile(mFdW.rd), CloseFile(mFdR.wr));
      DoFour(w, CloseFile(mFdW.rd), CloseFile(mFdR.wr), Drop(at.readEnd), Drop(at.writeEnd));
    }

    /** The two ends meant for the child are open and not registered. */
    ghost predicate ChildEndsAreBare()
      reads this, ctx
    {
      {mFdW.rd, mFdR.wr} <= ctx.k.poll.Keys && {mFdW.rd, mFdR.wr} !! ctx.k.interest.Keys && mFdW.rd != mFdR.wr
    }

    method CloseChildEnds()
      requires Ready() && ChildEndsAreBare()
      modifies ctx
      ensures Ready() && Now() == DoAll(old(Now()), [CloseFile(mFdW.rd), CloseFile(mFdR.wr)])
      ensures ctx.heap == old(ctx.heap) && ctx.ops == old(ctx.ops) && ctx.k.interest == old(ctx.k.interest)
      ensures ctx.k.poll == old(ctx.k.poll) - {mFdW.rd} - {mFdR.wr}
    {
      ghost var w := Now();
      Close(mFdW.rd);
      Close(mFdR.wr);
      DoTwo(w, CloseFile(mFdW.rd), CloseFile(mFdR.wr));
    }

    /** The pidfd becomes a descriptor object and the child's two ends are closed here. */
    method OpenPidfd(f: nat, at: Addresses)
      requires Ready() && ChildEndsAreBare()
      requires at.waitFd !in ctx.heap && f !in ctx.k.poll && f !in ctx.k.interest && f != mFdW.rd && f != mFdR.wr
      modifies this`waitFd, this`refs, ctx
      ensures Ready() && waitFd == Some(at.waitFd)
      ensures Now() ==
        DoAll(old(Now()), [OpenFile(f), Make(at.waitFd, f, In), CloseFile(mFdW.rd), CloseFile(mFdR.wr)])
    {
      ghost var w := Now();
      Open(f);
      MakeShared(at.waitFd, f, In);
      waitFd := Some(at.waitFd);
      ghost var v := Now();
      CloseChildEnds();
      DoTwo(v, CloseFile(mFdW.rd), CloseFile(mFdR.wr));
      DoFour(w, OpenFile(f), Make(at.waitFd, f, In), CloseFile(mFdW.rd), CloseFile(mFdR.wr));
    }

    method OpenPipe(p: Ends)
      requires Ready() && p.rd !in ctx.k.poll && p.wr !in ctx.k.poll && p.rd != p.wr
      modifies ctx
      ensures Ready() && Now() == DoAll(old(Now()), [OpenFile(p.rd), OpenFile(p.wr)])
      ensures ctx.k.poll.Keys == old(ctx.k.poll.Keys) + {p.rd, p.wr}
      ensures ctx.k.interest == old(ctx.k.interest) && ctx.heap == old(ctx.heap)
    {
      ghost var w := Now();
      Open(p.rd);
      Open(p.wr);
      DoTwo(w, OpenFile(p.rd), OpenFile(p.wr));
    }

    /** init, with every return of piped_async_command.cc. */
    method Init(e: Spawn, at: Addresses) returns (ok: bool)
      requires Ready() && readEnd == None && writeEnd == None && waitFd == None
      requires SpawnIsNew(FootprintOf(Now()), e, at)
      modifies this, ctx
      ensures Ready() && ok == Succeeds(e)
      ensures Now() == DoAll(old(Now()), InitActs(e, at))
      ensures ok || PidfdFails(e) ==> readEnd == Some(at.readEnd) && writeEnd == Some(at.writeEnd)
      ensures !ok && !PidfdFails(e) ==> readEnd == None && writeEnd == None
      ensures waitFd == if ok then Some(at.waitFd) else None
    {
      ghost var w0 := Now();
      if e.pipeW.None? {
        return false;
      }
      mFdW := e.pipeW.value;
      OpenPipe(mFdW);
      ghost var w1 := Now();
      ghost var first := [OpenFile(mFdW.rd), OpenFile(mFdW.wr)];
      if e.pipeR.None? {
        Close(mFdW.wr);
        Close(mFdW.rd);
        DoTwo(w1, CloseFile(mFdW.wr), CloseFile(mFdW.rd));
        DoConcatenates(w0, first, [CloseFile(mFdW.wr), CloseFile(mFdW.rd)]);
        return false;
      }
      mFdR := e.pipeR.value;
      ok := Start(e, at);
      DoConcatenates(w0, first, StartActs(e, at));
    }

    /** The part of init after both calls of pipe: w is open, r is about to be. */
    method Start(e: Spawn, at: Addresses) returns (ok: bool)
      requires Ready() && e.pipeW == Some(mFdW) && e.pipeR == Some(mFdR) && waitFd == None
      requires {mFdW.rd, mFdW.wr} <= ctx.k.poll.Keys && mFdR.rd !in ctx.k.poll && mFdR.wr !in ctx.k.poll
      requires {mFdW.rd, mFdW.wr, mFdR.rd, mFdR.wr} !! ctx.k.interest.Keys && mFdW.rd != mFdW.wr && mFdR.rd != mFdR.wr
      requires {at.readEnd, at.writeEnd, at.waitFd} !! ctx.heap.Keys
      requires at.readEnd != at.writeEnd && at.readEnd != at.waitFd && at.writeEnd != at.waitFd
      requires e.pidfd.Some? ==>
        && e.pidfd.value !in ctx.k.poll && e.pidfd.value !in ctx.k.interest
        && e.pidfd.value !in {mFdW.rd, mFdW.wr, mFdR.rd, mFdR.wr}
      modifies this, ctx
      ensures Ready() && ok == (e.forked && e.pidfd.Some?)
      ensures Now() == DoAll(old(Now()), StartActs(e, at))
      ensures readEnd == if e.forked then Some(at.readEnd) else None
      ensures writeEnd == if e.forked then Some(at.writeEnd) else None
      ensures waitFd == if ok then Some(at.waitFd) else None
    {
      ghost var w := Now();
      OpenEnds(at);
      ok := Fork(e, at);
      DoConcatenates(w, EndsActs(e.pipeW.value, e.pipeR.value, at), ForkActs(e, at));
    }

    /** The second pipe, and the descriptor objects for the parent's ends of both. */
    method OpenEnds(at: Addresses)
      requires Ready() && {mFdW.rd, mFdW.wr} <= ctx.k.poll.Keys && mFdR.rd !in ctx.k.poll && mFdR.wr !in ctx.k.poll
      requires {mFdW.wr, mFdR.rd} !! ctx.k.interest.Keys && mFdR.rd != mFdR.wr
      requires at.readEnd !in ctx.heap && at.writeEnd !in ctx.heap && at.readEnd != at.writeEnd
      modifies this`readEnd, this`writeEnd, this`refs, ctx
      ensures Ready() && readEnd == Some(at.readEnd) && writeEnd == Some(at.writeEnd)
      ensures Now() == DoAll(old(Now()), EndsActs(mFdW, mFdR, at))
      ensures ctx.k.poll.Keys == old(ctx.k.poll.Keys) + {mFdR.rd, mFdR.wr}
      ensures ctx.k.interest.Keys == old(ctx.k.interest.Keys) + {mFdR.rd, mFdW.wr}
      ensures ctx.heap.Keys == old(ctx.heap.Keys) + {at.readEnd, at.writeEnd}
      ensures Holds(at.readEnd, mFdR.rd) && Holds(at.writeEnd, mFdW.wr)
    {
      ghost var w := Now();
      OpenPipe(mFdR);
      MakeEnds(at);
      DoConcatenates(w, [OpenFile(mFdR.rd), OpenFile(mFdR.wr)],
                     [Make(at.readEnd, mFdR.rd, In), Make(at.writeEnd, mFdW.wr, Out)]);
      assert EndsActs(mFdW, mFdR, at) ==
        [OpenFile(mFdR.rd), OpenFile(mFdR.wr)] + [Make(at.readEnd, mFdR.rd, In), Make(at.writeEnd, mFdW.wr, Out)];
    }

    /** The part of init from fork on. */
    method Fork(e: Spawn, at: Addresses) returns (ok: bool)
      requires Ready() && e.pipeW == Some(mFdW) && e.pipeR == Some(mFdR) && waitFd == None
      requires readEnd == Some(at.readEnd) && writeEnd == Some(at.writeEnd) && at.readEnd != at.writeEnd
      requires Holds(at.readEnd, mFdR.rd) && Holds(at.writeEnd, mFdW.wr) && mFdR.rd != mFdW.wr && ChildEndsAreBare()
      requires at.waitFd !in ctx.heap
      requires e.pidfd.Some? ==>
        e.pidfd.value !in ctx.k.poll && e.pidfd.value !in ctx.k.interest && e.pidfd.value !in {mFdW.rd, mFdR.wr}
      modifies this, ctx
      ensures Ready() && ok == (e.forked && e.pidfd.Some?)
      ensures Now() == DoAll(old(Now()), ForkActs(e, at))
      ensures readEnd == if e.forked then Some(at.readEnd) else None
      ensures writeEnd == if e.forked then Some(at.writeEnd) else None
      ensures waitFd == if ok then Some(at.waitFd) else None
    {
      if !e.forked {
        AbandonFork(at);
        return false;
      }
      if e.pidfd.None? {
        return false;
      }
      OpenPidfd(e.pidfd.value, at);
      return true;
    }

    /** The pointer is empty, or owns a registered descriptor alone. */
    ghost predicate OwnsAlone(p: Option<nat>)
      reads this, ctx
    {
      p.Some? ==> Owns(p.value) && refs[p.value] == 1
    }

    /** Two pointers that are both set own different descriptors with different files. */
    ghost predicate Apart(p: Option<nat>, q: Option<nat>)
      reads ctx
    {
      p.Some? && q.Some? && p.value in ctx.heap && q.value in ctx.heap ==>
        p.value != q.value && ctx.heap[p.value].fd != ctx.heap[q.value].fd
    }

    method ResetIfSet(p: Option<nat>)
      requires Ready() && OwnsAlone(p)
      modifies this`refs, ctx
      ensures Ready() && Now() == DoAll(old(Now()), DropOf(p))
      ensures forall q: Option<nat> | q.Some? && q != p && old(OwnsAlone(q)) && old(Apart(p, q)) ::
        OwnsAlone(q) && ctx.heap[q.value].fd == old(ctx.heap[q.value].fd)
    {
      ghost var w := Now();
      if p.Some? {
        Reset(p.value);
        assert DoAll(w, [Drop(p.value)]) == DoAll(Do(w, Drop(p.value)), []);
      }
    }

    /** The destructor: the read end and the pidfd by hand, the write end as a member. */
    method Destruct()
      requires Ready() && OwnsAlone(readEnd) && OwnsAlone(waitFd) && OwnsAlone(writeEnd)
      requires Apart(readEnd, waitFd) && Apart(readEnd, writeEnd) && Apart(waitFd, writeEnd)
      modifies this, ctx
      ensures Ready() && readEnd == None && waitFd == None && writeEnd == None
      ensures Now() == DoAll(old(Now()), DestructorActs(old(readEnd), old(waitFd), old(writeEnd)))
    {
      ghost var w := Now();
      ResetIfSet(readEnd);
      ResetIfSet(waitFd);
      DoConcatenates(w, DropOf(readEnd), DropOf(waitFd));
      ResetIfSet(writeEnd);
      DoConcatenates(w, DropOf(readEnd) + DropOf(waitFd), DropOf(writeEnd));
      readEnd, waitFd, writeEnd := None, None, None;
    }

    method FinishWriting()
      requires Ready() && writeEnd.Some? && Owns(writeEnd.value) && !ctx.heap[writeEnd.value].ioState.rd
      modifies this, ctx
      ensures Ready() && writeEnd == None && readEnd == old(readEnd) && waitFd == old(waitFd)
      ensures Now() == DoAll(old(Now()), FinishActs(old(writeEnd).value, Out))
    {
      ghost var w := Now();
      var p := writeEnd.value;
      ctx.Relinquish(p, Out);
      Reset(p);
      writeEnd := None;
      DoTwo(w, Act.Unwatch(p, Out), Drop(p));
    }

    method FinishReading()
      requires Ready() && readEnd.Some? && Owns(readEnd.value) && !ctx.heap[readEnd.value].ioState.wr
      modifies this, ctx
      ensures Ready() && readEnd == None && writeEnd == old(writeEnd) && waitFd == old(waitFd)
      ensures Now() == DoAll(old(Now()), FinishActs(old(readEnd).value, In))
    {
      ghost var w := Now();
      var p := readEnd.value;
      ctx.Relinquish(p, In);
      Reset(p);
      readEnd := None;
      DoTwo(w, Act.Unwatch(p, In), Drop(p));
    }
  }

  lemma DoTwo(w: World, a: Act, b: Act)
    ensures DoAll(w, [a, b]) == Do(Do(w, a), b)
  {
    assert [a, b][1..] == [b];
    assert DoAll(Do(w, a), [b]) == DoAll(Do(Do(w, a), b), []);
  }

  lemma DoFour(w: World, a: Act, b: Act, c: Act, d: Act)
    ensures DoAll(w, [a, b, c, d]) == Do(Do(Do(Do(w, a), b), c), d)
  {
    assert [a, b, c, d] == [a, b] + [c, d];
    DoConcatenates(w, [a, b], [c, d]);
    DoTwo(w, a, b);
    DoTwo(DoAll(w, [a, b]), c, d);
  }
}
