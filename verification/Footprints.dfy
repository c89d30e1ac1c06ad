/** What conservation is about: the descriptor objects with their files and owners, what epoll knows,
    and what is open; and how acts on disjoint parts of it leave each other alone. */
module Footprints {
  import opened Epoll

  /** One system call or library call that touches descriptors. */
  datatype Act =
    | OpenFile(f: nat)
    | CloseFile(f: nat)
    | Make(p: nat, f: nat, d: Direction)     // make_shared or make_unique, then attach
    | Share(p: nat)                          // an operation copies the shared pointer
    | Drop(p: nat)                           // one owner less; the last one destroys
    | Watch(p: nat, d: Direction)
    | Unwatch(p: nat, d: Direction)

  /** What conservation is about: the live objects with their files and use counts, the managed and
      processed sets, what epoll knows, and what is open. */
  datatype Footprint = Footprint(
    files: map<nat, nat>, refs: map<nat, nat>, managed: set<nat>, processed: set<nat>,
    known: set<nat>, open: set<nat>, fault: bool)

  /** Opening an open file, closing one that is not open or that epoll still knows, registering twice,
      or using a dead object is a fault. */
  function Mark(x: Footprint, a: Act): Footprint {
    match a
    case OpenFile(f) => if f in x.open then x.(fault := true) else x.(open := x.open + {f})
    case CloseFile(f) =>
      if f !in x.open || f in x.known then x.(fault := true) else x.(open := x.open - {f})
    case Make(p, f, d) =>
      if p in x.files || f !in x.open || f in x.known then x.(fault := true)
      else x.(files := x.files[p := f], refs := x.refs[p := 1], managed := x.managed + {p}, known := x.known + {f})
    case Share(p) => if p !in x.refs then x.(fault := true) else x.(refs := x.refs[p := x.refs[p] + 1])
    case Drop(p) =>
      if p !in x.refs || p !in x.files || x.files[p] !in x.known then x.(fault := true)
      else if x.refs[p] > 1 then x.(refs := x.refs[p := x.refs[p] - 1])
      else if x.files[p] !in x.open then x.(fault := true, refs := x.refs - {p})
      else
        var f := x.files[p];
        x.(files := x.files - {p}, refs := x.refs - {p}, managed := x.managed - {p},
           processed := x.processed - {p}, known := x.known - {f}, open := x.open - {f})
    case Watch(p, _) => if p !in x.files then x.(fault := true) else x.(processed := x.processed + {p})
    case Unwatch(p, _) => if p !in x.files then x.(fault := true) else x.(processed := x.processed + {p})
  }

  function MarkAll(x: Footprint, acts: seq<Act>): Footprint
    decreases acts
  {
    if acts == [] then x else MarkAll(Mark(x, acts[0]), acts[1..])
  }

  lemma MarkOne(x: Footprint, a: Act)
    ensures MarkAll(x, [a]) == Mark(x, a)
  {
    assert [a][1..] == [];
  }

  lemma {:induction false} MarkConcatenates(x: Footprint, a: seq<Act>, b: seq<Act>)
    ensures MarkAll(x, a + b) == MarkAll(MarkAll(x, a), b)
    decreases a
  {
    if a == [] {
      assert a + b == b;
    } else {
      assert (a + b)[0] == a[0] && (a + b)[1..] == a[1..] + b;
      MarkConcatenates(Mark(x, a[0]), a[1..], b);
    }
  }

  // ---- One session among others ----

  /** The addresses and files that one session uses. */
  datatype Own = Own(ptrs: set<nat>, files: set<nat>)

  /** n is the part of m on the keys in `own` if `mine`, and the rest of m otherwise. */
  ghost predicate MapPart(m: map<nat, nat>, n: map<nat, nat>, own: set<nat>, mine: bool) {
    && (forall p :: p in n <==> p in m && (p in own) == mine)
    && (forall p | p in n :: n[p] == m[p])
  }

  ghost predicate SetPart(s: set<nat>, t: set<nat>, own: set<nat>, mine: bool) {
    forall p :: p in t <==> p in s && (p in own) == mine
  }

  /** y is the session's part of x if `mine`, and the rest of x otherwise. */
  ghost predicate IsPart(x: Footprint, y: Footprint, own: Own, mine: bool) {
    && MapPart(x.files, y.files, own.ptrs, mine) && MapPart(x.refs, y.refs, own.ptrs, mine)
    && SetPart(x.managed, y.managed, own.ptrs, mine) && SetPart(x.processed, y.processed, own.ptrs, mine)
    && SetPart(x.known, y.known, own.files, mine) && SetPart(x.open, y.open, own.files, mine)
  }

  lemma MapPartChanges(m: map<nat, nat>, n: map<nat, nat>, own: set<nat>, mine: bool, p: nat, v: nat)
    requires MapPart(m, n, own, mine)
    ensures (p in own) == mine ==> (p in n <==> p in m) && (p in n ==> n[p] == m[p])
    ensures (p in own) == mine ==> MapPart(m[p := v], n[p := v], own, mine) && MapPart(m - {p}, n - {p}, own, mine)
    ensures (p in own) != mine ==> MapPart(m[p := v], n, own, mine) && MapPart(m - {p}, n, own, mine)
  {
  }

  lemma SetPartChanges(s: set<nat>, t: set<nat>, own: set<nat>, mine: bool, p: nat)
    requires SetPart(s, t, own, mine)
    ensures (p in own) == mine ==> (p in t <==> p in s)
    ensures (p in own) == mine ==> SetPart(s + {p}, t + {p}, own, mine) && SetPart(s - {p}, t - {p}, own, mine)
    ensures (p in own) != mine ==> SetPart(s + {p}, t, own, mine) && SetPart(s - {p}, t, own, mine)
  {
  }

  lemma ObjectChanges(x: Footprint, y: Footprint, own: Own, mine: bool, p: nat, f: nat, refs: nat)
    requires IsPart(x, y, own, mine)
    ensures (p in own.ptrs) == mine ==>
      && (p in y.files <==> p in x.files) && (p in y.files ==> y.files[p] == x.files[p])
      && (p in y.refs <==> p in x.refs) && (p in y.refs ==> y.refs[p] == x.refs[p])
      && MapPart(x.files[p := f], y.files[p := f], own.ptrs, mine)
      && MapPart(x.files - {p}, y.files - {p}, own.ptrs, mine)
      && MapPart(x.refs[p := refs], y.refs[p := refs], own.ptrs, mine)
      && MapPart(x.refs - {p}, y.refs - {p}, own.ptrs, mine)
      && SetPart(x.managed + {p}, y.managed + {p}, own.ptrs, mine)
      && SetPart(x.managed - {p}, y.managed - {p}, own.ptrs, mine)
      && SetPart(x.processed + {p}, y.processed + {p}, own.ptrs, mine)
      && SetPart(x.processed - {p}, y.processed - {p}, own.ptrs, mine)
    ensures (p in own.ptrs) != mine ==>
      && MapPart(x.files[p := f], y.files, own.ptrs, mine) && MapPart(x.files - {p}, y.files, own.ptrs, mine)
      && MapPart(x.refs[p := refs], y.refs, own.ptrs, mine) && MapPart(x.refs - {p}, y.refs, own.ptrs, mine)
      && SetPart(x.managed + {p}, y.managed, own.ptrs, mine) && SetPart(x.managed - {p}, y.managed, own.ptrs, mine)
      && SetPart(x.processed + {p}, y.processed, own.ptrs, mine)
      && SetPart(x.processed - {p}, y.processed, own.ptrs, mine)
  {
    MapPartChanges(x.files, y.files, own.ptrs, mine, p, f);
    MapPartChanges(x.refs, y.refs, own.ptrs, mine, p, refs);
    SetPartChanges(x.managed, y.managed, own.ptrs, mine, p);
    SetPartChanges(x.processed, y.processed, own.ptrs, mine, p);
  }

  lemma FileChanges(x: Footprint, y: Footprint, own: Own, mine: bool, f: nat)
    requires IsPart(x, y, own, mine)
    ensures (f in own.files) == mine ==>
      && (f in y.known <==> f in x.known) && (f in y.open <==> f in x.open)
      && SetPart(x.known + {f}, y.known + {f}, own.files, mine)
      && SetPart(x.known - {f}, y.known - {f}, own.files, mine)
      && SetPart(x.open + {f}, y.open + {f}, own.files, mine) && SetPart(x.open - {f}, y.open - {f}, own.files, mine)
    ensures (f in own.files) != mine ==>
      && SetPart(x.known + {f}, y.known, own.files, mine) && SetPart(x.known - {f}, y.known, own.files, mine)
      && SetPart(x.open + {f}, y.open, own.files, mine) && SetPart(x.open - {f}, y.open, own.files, mine)
  {
    SetPartChanges(x.known, y.known, own.files, mine, f);
    SetPartChanges(x.open, y.open, own.files, mine, f);
  }

  /** No descriptor of the session is on somebody else's file, nor the other way round. */
  ghost predicate Separate(x: Footprint, own: Own) {
    forall p | p in x.files :: p in own.ptrs <==> x.files[p] in own.files
  }

  /** The act is about the session's addresses and files if `mine`, and about none of them otherwise. */
  predicate Concerns(a: Act, own: Own, mine: bool) {
    match a
    case OpenFile(f) => (f in own.files) == mine
    case CloseFile(f) => (f in own.files) == mine
    case Make(p, f, _) => (p in own.ptrs) == mine && (f in own.files) == mine
    case Share(p) => (p in own.ptrs) == mine
    case Drop(p) => (p in own.ptrs) == mine
    case Watch(p, _) => (p in own.ptrs) == mine
    case Unwatch(p, _) => (p in own.ptrs) == mine
  }

  /** The file that an act is about. */
  function FileOf(x: Footprint, a: Act): nat {
    match a
    case OpenFile(f) => f
    case CloseFile(f) => f
    case Make(_, f, _) => f
    case Drop(p) => if p in x.files then x.files[p] else 0
    case _ => 0
  }

  /** The use count after it. */
  function CountAfter(x: Footprint, a: Act): nat {
    match a
    case Share(p) => if p in x.refs then x.refs[p] + 1 else 0
    case Drop(p) => if p in x.refs && x.refs[p] > 1 then x.refs[p] - 1 else 0
    case _ => 1
  }

  lemma FilesPartChanges(x: Footprint, y: Footprint, own: Own, a: Act, mine: bool)
    requires Concerns(a, own, mine) && IsPart(x, y, own, mine) && (y.fault ==> x.fault)
    requires a.OpenFile? || a.CloseFile?
    ensures IsPart(Mark(x, a), Mark(y, a), own, mine)
    ensures Mark(x, a).fault == (x.fault || Mark(y, a).fault)
  {
    FileChanges(x, y, own, mine, a.f);
  }

  lemma ObjectsPartChanges(x: Footprint, y: Footprint, own: Own, a: Act, mine: bool)
    requires Separate(x, own) && Concerns(a, own, mine) && IsPart(x, y, own, mine) && (y.fault ==> x.fault)
    requires a.Make? || a.Drop?
    ensures IsPart(Mark(x, a), Mark(y, a), own, mine)
    ensures Mark(x, a).fault == (x.fault || Mark(y, a).fault)
  {
    FileChanges(x, y, own, mine, FileOf(x, a));
    ObjectChanges(x, y, own, mine, a.p, FileOf(x, a), CountAfter(x, a));
  }

  lemma UsePartChanges(x: Footprint, y: Footprint, own: Own, a: Act, mine: bool)
    requires Concerns(a, own, mine) && IsPart(x, y, own, mine) && (y.fault ==> x.fault)
    requires a.Share? || a.Watch? || a.Unwatch?
    ensures IsPart(Mark(x, a), Mark(y, a), own, mine)
    ensures Mark(x, a).fault == (x.fault || Mark(y, a).fault)
  {
    ObjectChanges(x, y, own, mine, a.p, 0, CountAfter(x, a));
  }

  /** An act changes the part it is about as it would alone. */
  lemma PartsChange(x: Footprint, y: Footprint, own: Own, a: Act, mine: bool)
    requires Separate(x, own) && Concerns(a, own, mine) && IsPart(x, y, own, mine) && (y.fault ==> x.fault)
    ensures IsPart(Mark(x, a), Mark(y, a), own, mine)
    ensures Mark(x, a).fault == (x.fault || Mark(y, a).fault)
  {
    if a.OpenFile? || a.CloseFile? {
      FilesPartChanges(x, y, own, a, mine);
    } else if a.Make? || a.Drop? {
      ObjectsPartChanges(x, y, own, a, mine);
    } else {
      UsePartChanges(x, y, own, a, mine);
    }
  }

  /** And leaves the other part alone. */
  lemma PartsStay(x: Footprint, y: Footprint, own: Own, a: Act, mine: bool)
    requires Separate(x, own) && Concerns(a, own, mine) && IsPart(x, y, own, !mine)
    ensures IsPart(Mark(x, a), y, own, !mine)
  {
    FileChanges(x, y, own, !mine, FileOf(x, a));
    if !(a.OpenFile? || a.CloseFile?) {
      ObjectChanges(x, y, own, !mine, a.p, FileOf(x, a), CountAfter(x, a));
    }
  }

  lemma StaysSeparate(x: Footprint, own: Own, a: Act, mine: bool)
    requires Separate(x, own) && Concerns(a, own, mine)
    ensures Separate(Mark(x, a), own)
  {
  }

  /** x consists of the session's part i and the rest o. */
  ghost predicate Splits(x: Footprint, i: Footprint, o: Footprint, own: Own) {
    IsPart(x, i, own, true) && IsPart(x, o, own, false) && x.fault == (i.fault || o.fault)
  }

  /** An act of the session, or of anybody else. */
  datatype Deed = Mine(act: Act) | Theirs(act: Act)

  /** The acts of the session if `mine`, and the others' acts otherwise, in order. */
  function ActsOf(deeds: seq<Deed>, mine: bool): seq<Act> {
    if deeds == [] then []
    else (if deeds[0].Mine? == mine then [deeds[0].act] else []) + ActsOf(deeds[1..], mine)
  }

  lemma MarkAllOfCons(x: Footprint, a: Act, acts: seq<Act>)
    ensures MarkAll(x, [a] + acts) == MarkAll(Mark(x, a), acts)
  {
    assert ([a] + acts)[1..] == acts;
  }

  function After(x: Footprint, d: Deed, mine: bool): Footprint {
    if d.Mine? == mine then Mark(x, d.act) else x
  }

  lemma FaultsStay(x: Footprint, a: Act)
    ensures x.fault ==> Mark(x, a).fault
  {
  }

  lemma DeedSplits(x: Footprint, i: Footprint, o: Footprint, own: Own, d: Deed)
    requires Separate(x, own) && Splits(x, i, o, own) && Concerns(d.act, own, d.Mine?)
    ensures Splits(Mark(x, d.act), After(i, d, true), After(o, d, false), own) && Separate(Mark(x, d.act), own)
  {
    if d.Mine? {
      PartsChange(x, i, own, d.act, true);
      PartsStay(x, o, own, d.act, true);
    } else {
      PartsChange(x, o, own, d.act, false);
      PartsStay(x, i, own, d.act, false);
    }
    StaysSeparate(x, own, d.act, d.Mine?);
    FaultsStay(i, d.act);
    FaultsStay(o, d.act);
  }

  lemma DeedsOfCons(x: Footprint, deeds: seq<Deed>, mine: bool)
    requires deeds != []
    ensures MarkAll(x, ActsOf(deeds, mine)) == MarkAll(After(x, deeds[0], mine), ActsOf(deeds[1..], mine))
  {
    if deeds[0].Mine? == mine {
      MarkAllOfCons(x, deeds[0].act, ActsOf(deeds[1..], mine));
    } else {
      assert [] + ActsOf(deeds[1..], mine) == ActsOf(deeds[1..], mine);
    }
  }

  // ---- Every file is closed as often as it is opened ----

  predicate Closes(x: Footprint, a: Act, f: nat) {
    match a
    case CloseFile(g) => g == f
    case Drop(p) => p in x.refs && x.refs[p] <= 1 && p in x.files && x.files[p] == f
    case _ => false
  }

  function Closings(x: Footprint, acts: seq<Act>, f: nat): nat
    decreases acts
  {
    if acts == [] then 0 else (if Closes(x, acts[0], f) then 1 else 0) + Closings(Mark(x, acts[0]), acts[1..], f)
  }

  function Openings(acts: seq<Act>, f: nat): nat {
    if acts == [] then 0 else (if acts[0] == OpenFile(f) then 1 else 0) + Openings(acts[1..], f)
  }

  lemma {:induction false} FaultStays(x: Footprint, acts: seq<Act>)
    requires x.fault
    ensures MarkAll(x, acts).fault
    decreases acts
  {
    if acts != [] {
      FaultStays(Mark(x, acts[0]), acts[1..]);
    }
  }

  /** Without a fault, the closings of a file balance its openings. */
  lemma {:induction false} ClosingsBalanceOpenings(x: Footprint, acts: seq<Act>, f: nat)
    requires !MarkAll(x, acts).fault
    ensures Closings(x, acts, f) + (if f in MarkAll(x, acts).open then 1 else 0) ==
            Openings(acts, f) + (if f in x.open then 1 else 0)
    decreases acts
  {
    if acts != [] {
      if Mark(x, acts[0]).fault {
        FaultStays(Mark(x, acts[0]), acts[1..]);
      }
      ClosingsBalanceOpenings(Mark(x, acts[0]), acts[1..], f);
    }
  }
}
