/** The FIFO ready list bounds how long a suspended operation waits for its resume. */
module Fairness {
  import opened Epoll
  import opened EventLoop
  import opened Safety

  /** epoll_wait stops only at the end of the ready list or with a full array of events. */
  predicate FullHarvest(s: Loop, n: nat) {
    n <= |s.k.ready| && (n == |s.k.ready| || |Events(s.k, s.k.ready[..n])| == MAX_EVENTS)
  }

  ghost predicate FullHarvests(s: Loop, steps: seq<Step>)
    decreases steps
  {
    steps == [] || ((steps[0].Wait? ==> FullHarvest(s, steps[0].n)) && FullHarvests(Apply(s, steps[0]), steps[1..]))
  }

  function Turns(steps: seq<Step>): nat {
    if steps == [] then 0 else (if steps[0].Wait? then 1 else 0) + Turns(steps[1..])
  }

  /** Somewhere in the run an event resumes the operation suspended on p for direction d. */
  ghost predicate ResumedIn(s: Loop, steps: seq<Step>, p: nat, d: Direction)
    decreases steps
  {
    steps != [] &&
    ((steps[0].Next? && s.batch != [] && s.batch[0].ptr == p && Wakes(s, d)) ||
     ResumedIn(Apply(s, steps[0]), steps[1..], p, d))
  }

  /** An operation is suspended on p, its direction is ready, and it has i registrations ahead of
      it on the ready list, or its event has been harvested. */
  ghost predicate Waiting(s: Loop, p: nat, d: Direction, i: nat) {
    && p in s.heap && SuspendedOn(s, p, d) && s.heap[p].fd in s.k.poll
    && IsReady(s.k.poll[s.heap[p].fd], d)
    && (Queued(s.batch, p, d) || (i < |s.k.ready| && s.k.ready[i] == s.heap[p].fd && Has(s.heap[p].ioState, d)))
  }

  lemma {:induction false} EventsAreFewer(k: Kernel, fs: seq<nat>)
    ensures |Events(k, fs)| <= |fs|
  {
    if fs != [] {
      EventsAreFewer(k, fs[1..]);
    }
  }

  lemma {:induction false} RemoveMovesForward(fs: seq<nat>, f: nat, i: nat) returns (j: nat)
    requires i < |fs| && fs[i] != f
    ensures j <= i && j < |Remove(fs, f)| && Remove(fs, f)[j] == fs[i]
  {
    if i == 0 {
      j := 0;
    } else {
      j := RemoveMovesForward(fs[1..], f, i - 1);
      if fs[0] != f {
        j := j + 1;
      }
    }
  }

  /** A harvest takes the registration, or at least twenty that were ahead of it. */
  lemma HarvestMovesForward(s: Loop, n: nat, p: nat, d: Direction, i: nat) returns (j: nat)
    requires Invariant(s) && Allowed(s, Wait(n)) && FullHarvest(s, n) && Waiting(s, p, d, i)
    ensures Waiting(Apply(s, Wait(n)), p, d, j)
    ensures Queued(Apply(s, Wait(n)).batch, p, d) || j + MAX_EVENTS <= i
  {
    var t := Apply(s, Wait(n));
    if i < n {
      assert s.k.ready[..n][i] == s.heap[p].fd;
      HarvestReports(s, n, p, d);
      j := 0;
    } else {
      EventsAreFewer(s.k, s.k.ready[..n]);
      j := i - n;
      assert t.k.ready[j] == s.k.ready[i];
    }
  }

  /** A pass only adds to the end of the ready list. */
  lemma {:induction false} PassKeepsWaiting(s: Loop, order: seq<nat>, p: nat, d: Direction, i: nat)
    requires Invariant(s) && s.phase.Dispatching? && (forall q | q in order :: q in s.processed)
    requires Waiting(s, p, d, i)
    ensures Waiting(Pass(s, order), p, d, i)
    decreases order
  {
    if order != [] {
      var t := Modify(s, order[0]);
      ModifyIsModified(s, order[0]);
      ModifiedKeeps(s, t, order[0]);
      assert DescriptorOk(s, p);
      assert order == [order[0]] + order[1..];
      assert Waiting(t, p, d, i);
      PassKeepsWaiting(t, order[1..], p, d, i);
    }
  }

  /** A dispatch resumes the operation or leaves it waiting. */
  lemma NextKeepsWaiting(s: Loop, p: nat, d: Direction, i: nat)
    requires Invariant(s) && Allowed(s, Next) && Waiting(s, p, d, i)
    ensures (s.batch[0].ptr == p && Wakes(s, d)) || Waiting(Apply(s, Next), p, d, i)
    ensures !(s.batch[0].ptr == p && Wakes(s, d)) && Queued(s.batch, p, d) ==> Queued(Apply(s, Next).batch, p, d)
  {
    NextIsDispatched(s);
    assert DescriptorOk(s, p);
    PoppedQueue(s, p, d);
  }

  /** The outside world and the other descriptors do not disturb the wait. */
  lemma WorldKeepsWaiting(s: Loop, a: Step, p: nat, d: Direction, i: nat)
    requires Invariant(s) && Allowed(s, a) && Waiting(s, p, d, i)
    requires a.Arrive? || a.HangUp? || a.Drain? || a.Outside? || a.Return?
    ensures Waiting(Apply(s, a), p, d, i) && Apply(s, a).batch == s.batch
  {
  }

  lemma FilesKeepWaiting(s: Loop, a: Step, p: nat, d: Direction, i: nat)
    requires Invariant(s) && Allowed(s, a) && Waiting(s, p, d, i)
    requires a.NewFile? || a.BareClose? || a.Open?
    ensures Waiting(Apply(s, a), p, d, i) && Apply(s, a).batch == s.batch
  {
  }

  lemma OthersKeepWaiting(s: Loop, a: Step, p: nat, d: Direction, i: nat)
    requires Invariant(s) && Allowed(s, a) && Waiting(s, p, d, i)
    requires a.Begin? || a.Block? || a.End? || a.Release?
    ensures Waiting(Apply(s, a), p, d, i) && Apply(s, a).batch == s.batch
  {
  }

  lemma CloseKeepsWaiting(s: Loop, q: nat, p: nat, d: Direction, i: nat) returns (j: nat)
    requires Invariant(s) && Allowed(s, Close(q)) && Waiting(s, p, d, i)
    ensures Waiting(Apply(s, Close(q)), p, d, j) && j <= i && Apply(s, Close(q)).batch == s.batch
  {
    j := i;
    if !Queued(s.batch, p, d) {
      j := RemoveMovesForward(s.k.ready, s.heap[q].fd, i);
    }
  }

  lemma LoopKeepsWaiting(s: Loop, a: Step, p: nat, d: Direction, i: nat) returns (j: nat)
    requires Invariant(s) && Allowed(s, a) && Waiting(s, p, d, i) && (a.Wait? || a.Next? || a.Reconcile?)
    requires a.Wait? ==> FullHarvest(s, a.n)
    requires a.Next? ==> !(s.batch[0].ptr == p && Wakes(s, d))
    ensures Waiting(Apply(s, a), p, d, j) && (Queued(Apply(s, a).batch, p, d) || j <= i)
    ensures a.Wait? ==> Queued(Apply(s, a).batch, p, d) || j + MAX_EVENTS <= i
    ensures Queued(s.batch, p, d) && !a.Wait? ==> Queued(Apply(s, a).batch, p, d)
  {
    j := i;
    match a
    case Wait(n) => j := HarvestMovesForward(s, n, p, d, i);
    case Next => NextKeepsWaiting(s, p, d, i);
    case Reconcile(order) => PassReconciles(s, order); PassKeepsWaiting(s, order, p, d, i);
  }

  lemma StepKeepsWaiting(s: Loop, a: Step, p: nat, d: Direction, i: nat) returns (j: nat)
    requires Invariant(s) && Allowed(s, a) && Waiting(s, p, d, i)
    requires a.Wait? ==> FullHarvest(s, a.n)
    requires a.Next? ==> !(s.batch[0].ptr == p && Wakes(s, d))
    ensures Waiting(Apply(s, a), p, d, j) && (Queued(Apply(s, a).batch, p, d) || j <= i)
    ensures a.Wait? ==> Queued(Apply(s, a).batch, p, d) || j + MAX_EVENTS <= i
    ensures Queued(s.batch, p, d) && !a.Wait? ==> Queued(Apply(s, a).batch, p, d)
  {
    j := i;
    if a.Close? {
      j := CloseKeepsWaiting(s, a.p, p, d, i);
    } else if a.Wait? || a.Next? || a.Reconcile? {
      j := LoopKeepsWaiting(s, a, p, d, i);
    } else if a.NewFile? || a.BareClose? || a.Open? {
      FilesKeepWaiting(s, a, p, d, i);
    } else if a.Begin? || a.Block? || a.End? || a.Release? {
      OthersKeepWaiting(s, a, p, d, i);
    } else {
      WorldKeepsWaiting(s, a, p, d, i);
    }
  }

  /** Bounded dispatch delay. With k registrations ahead of it, a suspended operation whose
      direction is ready is resumed within floor(k/20) + 1 harvests, whatever arrives behind it. */
  lemma {:induction false} ResumedWithinTurns(s: Loop, steps: seq<Step>, p: nat, d: Direction, i: nat)
    requires Invariant(s) && ValidRun(s, steps) && FullHarvests(s, steps)
    requires Waiting(s, p, d, i) && Run(s, steps).phase.Idle?
    requires Queued(s.batch, p, d) || Turns(steps) > i / MAX_EVENTS
    ensures ResumedIn(s, steps, p, d)
    decreases steps
  {
    if steps != [] && !(steps[0].Next? && s.batch[0].ptr == p && Wakes(s, d)) {
      var a := steps[0];
      var j := StepKeepsWaiting(s, a, p, d, i);
      StepKeeps(s, a);
      ResumedWithinTurns(Apply(s, a), steps[1..], p, d, j);
    }
  }

  /** Every operation that is suspended and ready when the loop enters epoll_wait is resumed within
      a number of turns fixed by its place on the ready list. */
  lemma ReadyIsResumed(before: seq<Step>, after: seq<Step>, p: nat, d: Direction)
    requires ValidRun(Start, before)
    requires var s := Run(Start, before);
      && s.phase.Idle? && p in s.heap && SuspendedOn(s, p, d)
      && s.heap[p].fd in s.k.poll && IsReady(s.k.poll[s.heap[p].fd], d)
      && ValidRun(s, after) && FullHarvests(s, after) && Run(s, after).phase.Idle?
    requires Turns(after) > |Run(Start, before).k.ready| / MAX_EVENTS
    ensures ResumedIn(Run(Start, before), after, p, d)
  {
    NoLostWakeup(before, p, d);
    StartIsSafe();
    RunKeeps(Start, before);
    var s := Run(Start, before);
    assert DescriptorOk(s, p);
    var i: nat :| i < |s.k.ready| && s.k.ready[i] == s.heap[p].fd;
    ResumedWithinTurns(s, after, p, d, i);
  }
}
