/** What the watch and unwatch requests of one turn amount to, what a kernel that refuses them does to
    the mirror, and the single-direction discipline without its clause on masks. */
module Discipline {
  import opened Epoll
  import opened EventLoop

  /** A call of watchRead, watchWrite (`on`) or of unwatchRead, unwatchWrite. */
  datatype Request = Request(dir: Direction, on: bool)

  function Call(s: Loop, p: nat, r: Request): Loop {
    if r.on then Watch(s, p, r.dir) else Unwatch(s, p, r.dir)
  }

  function Calls(s: Loop, p: nat, rs: seq<Request>): Loop
    decreases |rs|
  {
    if rs == [] then s else Call(Calls(s, p, rs[..|rs| - 1]), p, rs[|rs| - 1])
  }

  function Change(m: Mask, r: Request): Mask {
    if r.on then With(m, r.dir) else Without(m, r.dir)
  }

  /** The mask that the requests would give if each one built on the one before. */
  function Folded(m: Mask, rs: seq<Request>): Mask
    decreases |rs|
  {
    if rs == [] then m else Change(Folded(m, rs[..|rs| - 1]), rs[|rs| - 1])
  }

  lemma {:induction false} CallsShape(s: Loop, p: nat, rs: seq<Request>)
    requires p in s.heap
    ensures var t := Calls(s, p, rs);
      && t.heap.Keys == s.heap.Keys
      && t.heap[p].ioState == s.heap[p].ioState
      && t.processed == (if rs == [] then s.processed else s.processed + {p})
      && (rs != [] ==> t.heap[p].ioNewState == Change(s.heap[p].ioState, rs[|rs| - 1]))
    decreases |rs|
  {
    if rs != [] {
      CallsShape(s, p, rs[..|rs| - 1]);
    }
  }

  /** Request folding. After the requests of a turn and the pass, the mask in force is the one
      before with only the last request applied; that is the fold of all of them exactly when the
      fold leaves the other direction's bit as it was. */
  lemma LastRequestWins(s: Loop, p: nat, rs: seq<Request>)
    requires p in s.heap && rs != []
    ensures var last, before := rs[|rs| - 1], s.heap[p].ioState;
      var t := Modify(Calls(s, p, rs), p);
      && p in t.heap
      && t.heap[p].ioState == Change(before, last)
      && (t.heap[p].ioState == Folded(before, rs) <==>
            Has(Folded(before, rs), Other(last.dir)) == Has(before, Other(last.dir)))
  {
    CallsShape(s, p, rs);
    FoldKeepsEdgeTrigger(s.heap[p].ioState, rs);
    var last := rs[|rs| - 1];
    assert Has(Folded(s.heap[p].ioState, rs), last.dir) == last.on;
  }

  lemma {:induction false} FoldKeepsEdgeTrigger(m: Mask, rs: seq<Request>)
    ensures Folded(m, rs).et == m.et
    decreases |rs|
  {
    if rs != [] {
      FoldKeepsEdgeTrigger(m, rs[..|rs| - 1]);
    }
  }

  /** Requests of a single direction always amount to their fold. */
  lemma {:induction false} SingleDirectionFolds(m: Mask, rs: seq<Request>, d: Direction)
    requires forall r | r in rs :: r.dir == d
    ensures Has(Folded(m, rs), Other(d)) == Has(m, Other(d))
    decreases |rs|
  {
    if rs != [] {
      SingleDirectionFolds(m, rs[..|rs| - 1], d);
      assert rs[|rs| - 1] in rs;
    }
  }

  /** attach and attachWriteOnly only log a failed EPOLL_CTL_ADD and manage the descriptor anyway:
      the mirror survives an attachment exactly when the kernel accepted it. */
  lemma AttachMirrorsIffAdded(s: Loop, p: nat, f: nat, d: Direction, added: bool)
    requires InterestMirror(s) && p !in s.heap && f in s.k.poll && f !in s.k.interest
    ensures InterestMirror(Attach(Construct(s, p, f), p, d, added)) <==> added
  {
    var t := Attach(Construct(s, p, f), p, d, added);
    if added {
      assert t.k.interest == s.k.interest[f := Registration(p, AttachMask(d))];
    } else {
      assert p in t.heap && t.heap[p].fd == f && f !in t.k.interest;
    }
  }

  /** The pass only logs a failed EPOLL_CTL_MOD and records the mask as applied anyway: the mirror
      survives a round of the pass exactly when the kernel accepted it or there was nothing to do. */
  lemma ModifyMirrorsIffModified(s: Loop, p: nat, modified: bool)
    requires InterestMirror(s) && p in s.heap
    ensures InterestMirror(ModifyWith(s, p, modified)) <==> modified || s.heap[p].ioState == s.heap[p].ioNewState
  {
    var t := ModifyWith(s, p, modified);
    var x := s.heap[p];
    if modified && x.ioState != x.ioNewState {
      assert t.k.interest == s.k.interest[x.fd := Registration(p, x.ioNewState)];
    } else if x.ioState != x.ioNewState {
      assert p in t.heap && t.heap[p].fd == x.fd && t.k.interest[x.fd].mask == x.ioState;
    }
  }

  /** The discipline without its clause on masks. */
  ghost predicate AllowedWithoutMasks(s: Loop, a: Step) {
    if a.Begin? then Active(s) && a.p in s.heap && a.p !in s.ops else Allowed(s, a)
  }
}
