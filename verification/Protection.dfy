// A waiter whose pair is free and who precedes every overlapping waiter cannot be overtaken.
module Protection {
  import opened Requests
  import opened Ring
  import opened Table
  import opened Dispatch
  import opened Progress
  import opened Runs
  import opened Ownership
  import opened Scans

  ghost predicate Protected(a: Args, w: World, i: nat)
    requires Sized(a, w)
  {
    && Waiting(a, w.st, i) && PairAvailable(a, w.st, i)
    && forall j: nat :: j < a.n && j != i && Waiting(a, w.st, j) && Overlap(j, i, a.n) ==> Before(a, w.st, i, j)
  }

  /** The one step that may break the protection under EDF: an overlapping coder registers a
      request with an earlier deadline. */
  predicate Undercuts(a: Args, w: World, e: Event, i: nat)
    requires Sized(a, w) && i < a.n
  {
    a.policy == Edf && e.Enter? && e.i < a.n && e.i != i && Overlap(e.i, i, a.n)
    && w.st.coders[e.i].lastStart + a.burnout < w.st.coders[i].request.deadline
  }

  /** While `i` is protected every step keeps it so, serves `i`, or is `i` leaving; no step
      serves a coder that overlaps `i`. An undercutting registration, and nothing else, ends
      the protection otherwise. */
  lemma ProtectionStep(a: Args, w: World, e: Event, i: nat)
    requires Sized(a, w) && Sound(a, w) && Protected(a, w, i) && Enabled(a, w, e)
    ensures e.Award? && e.g.coder != i ==> !Overlap(e.g.coder, i, a.n)
    ensures var r := Apply(a, w, e);
      Protected(a, r, i) <==> !(e.Award? && e.g.coder == i) && e != GiveUp(i) && !Undercuts(a, w, e, i)
  {
    match e {
      case Award(_, _) => AwardStep(a, w, e, i);
      case GiveBack(_) => GiveBackStep(a, w, e, i);
      case Enter(j) => EnterStep(a, w, j, i);
      case GiveUp(j) => GiveUpStep(a, w, j, i);
      case _ => QuietStep(a, w, e, i);
    }
  }

  lemma QuietStep(a: Args, w: World, e: Event, i: nat)
    requires Sized(a, w) && Protected(a, w, i) && Enabled(a, w, e)
    requires !e.Award? && !e.GiveBack? && !e.Enter? && !e.GiveUp?
    ensures Protected(a, Apply(a, w, e), i)
  {
    var r := Apply(a, w, e);
    assert r.st.dongles == w.st.dongles && |r.st.coders| == |w.st.coders|;
    assert forall k: nat :: k < a.n ==>
      r.st.coders[k].request == w.st.coders[k].request && r.st.coders[k].waiting == w.st.coders[k].waiting;
  }

  lemma AwardStep(a: Args, w: World, e: Event, i: nat)
    requires Sized(a, w) && Protected(a, w, i) && Enabled(a, w, e) && e.Award?
    ensures e.g.coder != i ==> !Overlap(e.g.coder, i, a.n)
    ensures Protected(a, Apply(a, w, e), i) <==> e.g.coder != i
  {
    var j := e.g.coder;
    if j != i {
      OverlapIsSharing(i, j, a.n);
      assert !Blocks(a, w.st, i, j);
    }
  }

  lemma GiveBackStep(a: Args, w: World, e: Event, i: nat)
    requires Sized(a, w) && Sound(a, w) && Protected(a, w, i) && Enabled(a, w, e) && e.GiveBack?
    ensures Protected(a, Apply(a, w, e), i)
  {
    assert HoldAt(a, w, e.i) && OwnerAt(a, w, i);
    OwnershipOfOthers(a, w, e.i, i);
  }

  lemma GiveUpStep(a: Args, w: World, j: nat, i: nat)
    requires Sized(a, w) && Protected(a, w, i) && Enabled(a, w, GiveUp(j))
    ensures Protected(a, Apply(a, w, GiveUp(j)), i) <==> j != i
  {
  }

  lemma EnterStep(a: Args, w: World, j: nat, i: nat)
    requires Sized(a, w) && Sound(a, w) && Protected(a, w, i) && Enabled(a, w, Enter(j))
    ensures Protected(a, Apply(a, w, Enter(j)), i) <==> !Undercuts(a, w, Enter(j), i)
  {
    var r := Apply(a, w, Enter(j));
    assert ControlAt(a, w, i) && ControlAt(a, w, j);
    if Undercuts(a, w, Enter(j), i) {
      assert Waiting(a, r.st, j) && !Before(a, r.st, i, j);
    }
  }

  /** None of the steps undercuts `i`, and `i` keeps waiting through all of them. */
  ghost predicate Undisturbed(a: Args, w: World, more: seq<Event>, i: nat)
    requires Sized(a, w) && Legal(a, w, more)
    decreases |more|
  {
    i < a.n && (more == [] ||
    var k := |more| - 1;
    && Undisturbed(a, w, more[..k], i)
    && !Undercuts(a, Reach(a, w, more[..k]), more[k], i)
    && Waiting(a, Reach(a, w, more).st, i))
  }

  /** From the moment it is protected until it is served or leaves, a waiter keeps both its
      dongles free and no coder overlapping it starts a compile. */
  lemma {:induction false} NotOvertaken(a: Args, w: World, more: seq<Event>, i: nat)
    requires Reachable(a, w) && Sized(a, w) && Protected(a, w, i)
    requires Legal(a, w, more) && Undisturbed(a, w, more, i)
    ensures var r := Reach(a, w, more);
      && Protected(a, r, i)
      && |w.starts| <= |r.starts|
      && forall p :: |w.starts| <= p < |r.starts| ==> r.starts[p].coder < a.n && !Overlap(r.starts[p].coder, i, a.n)
    decreases |more|
  {
    if more != [] {
      var k := |more| - 1;
      NotOvertaken(a, w, more[..k], i);
      RunsAreSound(a, w);
      StaysSound(a, w, more[..k]);
      ProtectionStep(a, Reach(a, w, more[..k]), more[k], i);
    }
  }

  /** The waiter has neither been served nor left at any point of the run. */
  ghost predicate KeepsWaiting(a: Args, w: World, more: seq<Event>, i: nat)
    requires Sized(a, w) && Legal(a, w, more)
    decreases |more|
  {
    i < a.n && (more == [] || (KeepsWaiting(a, w, more[..|more| - 1], i) && Waiting(a, Reach(a, w, more).st, i)))
  }

  lemma {:induction false} FifoIsUndisturbed(a: Args, w: World, more: seq<Event>, i: nat)
    requires Sized(a, w) && Legal(a, w, more) && a.policy == Fifo && KeepsWaiting(a, w, more, i)
    ensures Undisturbed(a, w, more, i)
    decreases |more|
  {
    if more != [] { FifoIsUndisturbed(a, w, more[..|more| - 1], i); }
  }

  /** Under FIFO waiting on is all it takes: whatever the others do, nobody overtakes. */
  lemma FifoNotOvertaken(a: Args, w: World, more: seq<Event>, i: nat)
    requires Reachable(a, w) && Sized(a, w) && Protected(a, w, i) && a.policy == Fifo
    requires Legal(a, w, more) && KeepsWaiting(a, w, more, i)
    ensures var r := Reach(a, w, more);
      && Protected(a, r, i)
      && |w.starts| <= |r.starts|
      && forall p :: |w.starts| <= p < |r.starts| ==> r.starts[p].coder < a.n && !Overlap(r.starts[p].coder, i, a.n)
  {
    FifoIsUndisturbed(a, w, more, i);
    NotOvertaken(a, w, more, i);
  }

  lemma ProtectedIsBest(a: Args, w: World, i: nat)
    requires Sized(a, w) && Protected(a, w, i)
    ensures IsBest(a, w.st, i)
  {
    forall j: nat | j < a.n ensures !Blocks(a, w.st, j, i) {
      BeforeIsStrictOrder(a.policy, w.st.coders[i].request, w.st.coders[j].request, w.st.coders[i].request);
    }
  }

  /** A protected waiter is served by the first exhausted dispatch at a standing clock after
      both its dongles have cooled and before its deadline. */
  lemma ProtectedIsServed(a: Args, w: World, gs: seq<Grant>, i: nat, now: int)
    requires Reachable(a, w) && Sized(a, w) && Protected(a, w, i)
    requires CooledAt(a, w.st, i) <= now < w.st.coders[i].request.deadline
    requires Chain(a, w.st, now, gs) && Clock(now, gs) == now && Stable(a, Dispatch.After(a, w.st, gs), now)
    ensures i in Winners(gs)
  {
    RunsAreSound(a, w);
    ProtectedIsBest(a, w, i);
    assert Eligible(a, w.st, i, now);
    UnblockedIsServed(a, w.st, now, gs, i);
  }

  /** In every run, whatever the clock does: no dispatch whose last pass began after both dongles
      of a protected waiter had cooled ends before its deadline without having served it. */
  lemma ProtectedIsNotLeft(a: Args, w: World, e: Event, i: nat)
    requires Reachable(a, w) && Sized(a, w) && Enabled(a, w, e) && (e.Return? || e.Sleep?)
    requires Protected(a, w, i) && CooledAt(a, w.st, i) <= w.pcs[e.i].scan.passStart
    ensures w.st.coders[i].request.deadline <= w.now
  {
    NobodyLeftBehind(a, w, e);
    ProtectedIsBest(a, w, i);
    assert ReadyAndBest(a, w.st, i, w.pcs[e.i].scan.passStart);
  }
}
