// Who holds which dongle, over every run.
module Ownership {
  import opened Ring
  import opened Table
  import opened Options
  import opened Runs
  import opened ScanEnds

  predicate InQueue(pc: Pc) {
    pc.Looping? || pc.Dispatching? || pc.Asleep?
  }

  ghost predicate ControlAt(a: Args, w: World, i: nat)
    requires Sized(a, w) && i < a.n
  {
    var c := w.st.coders[i];
    && (w.pcs[i].Looping? || w.pcs[i].Dispatching? <==> w.mutex == Some(i))
    && (w.pcs[i].Dispatching? ==> !w.st.stop)
    && (c.waiting ==> InQueue(w.pcs[i]) && !c.granted && c.request.deadline == c.lastStart + a.burnout)
    && (InQueue(w.pcs[i]) && !c.waiting ==> c.granted)
  }

  /** Only the holder of state_mutex is inside scheduler_acquire_pair, a coder waits only
      there, and its deadline is that of its latest compile. */
  ghost predicate Control(a: Args, w: World)
    requires Sized(a, w)
  {
    && Sequenced(a, w.st) && (w.mutex.Some? ==> w.mutex.value < a.n)
    && forall i: nat :: i < a.n ==> ControlAt(a, w, i)
  }

  lemma FewerWait(a: Args, s: State, r: State)
    requires Shape(a, s) && Shape(a, r) && Sequenced(a, s) && r.nextSequence == s.nextSequence
    requires forall i: nat :: i < a.n ==>
               r.coders[i].request == s.coders[i].request && (r.coders[i].waiting ==> s.coders[i].waiting)
    ensures Sequenced(a, r)
  {
  }

  lemma RegisterSequenced(a: Args, s: State, i: nat)
    requires Shape(a, s) && Sequenced(a, s) && i < a.n
    ensures Sequenced(a, Register(a, s, i))
  {
  }

  lemma SequencedKept(a: Args, w: World, e: Event)
    requires Sized(a, w) && Control(a, w) && Enabled(a, w, e)
    ensures Sequenced(a, Apply(a, w, e).st)
  {
    if e.Enter? { RegisterSequenced(a, w.st, e.i); } else { FewerWait(a, w.st, Apply(a, w, e).st); }
  }

  lemma InsideIsAlone(a: Args, w: World, i: nat, j: nat)
    requires Sized(a, w) && i < a.n && j < a.n && ControlAt(a, w, i) && ControlAt(a, w, j)
    requires w.pcs[j].Looping? || w.pcs[j].Dispatching?
    ensures i != j ==> !w.pcs[i].Looping? && !w.pcs[i].Dispatching?
  {
  }

  /** Steps that leave the shared state and the mutex alone. */
  predicate Local(e: Event) {
    e.Tick? || e.PassTop? || e.Proceed? || e.Skip? || e.EndCompile? || e.PassCompiled? || e.EndDebug? || e.EndRefactor?
    || e.Quit? || e.Accuse? || e.WriteVerdict? || e.Retire?
  }

  lemma ControlAtLocal(a: Args, w: World, e: Event, i: nat)
    requires Sized(a, w) && Enabled(a, w, e) && i < a.n && Local(e) && ControlAt(a, w, i)
    ensures ControlAt(a, Apply(a, w, e), i)
  {
  }

  lemma ControlAtEntry(a: Args, w: World, e: Event, i: nat)
    requires Sized(a, w) && Enabled(a, w, e) && i < a.n && (e.Enter? || e.Wake?) && ControlAt(a, w, i)
    ensures ControlAt(a, Apply(a, w, e), i)
  {
  }

  lemma ControlAtExit(a: Args, w: World, e: Event, i: nat)
    requires Sized(a, w) && Enabled(a, w, e) && i < a.n && (e.GiveUp? || e.Return? || e.Sleep?)
    requires ControlAt(a, w, i) && ControlAt(a, w, e.i)
    ensures ControlAt(a, Apply(a, w, e), i)
  {
    InsideIsAlone(a, w, i, e.i);
  }

  lemma ControlAtAward(a: Args, w: World, e: Event, i: nat)
    requires Sized(a, w) && Enabled(a, w, e) && i < a.n && e.Award? && ControlAt(a, w, i)
    ensures ControlAt(a, Apply(a, w, e), i)
  {
  }

  lemma ControlAtOutside(a: Args, w: World, e: Event, i: nat)
    requires Sized(a, w) && Enabled(a, w, e) && i < a.n && ControlAt(a, w, i)
    requires e.GiveBack? || e.Finish? || e.SetStop? || e.Convict?
    ensures ControlAt(a, Apply(a, w, e), i)
  {
  }

  lemma ControlAtKept(a: Args, w: World, e: Event, i: nat)
    requires Sized(a, w) && Control(a, w) && Enabled(a, w, e) && i < a.n
    ensures ControlAt(a, Apply(a, w, e), i)
  {
    if Local(e) { ControlAtLocal(a, w, e, i); }
    else if e.Enter? || e.Wake? { ControlAtEntry(a, w, e, i); }
    else if e.GiveUp? || e.Return? || e.Sleep? { ControlAtExit(a, w, e, i); }
    else if e.Award? { ControlAtAward(a, w, e, i); }
    else { ControlAtOutside(a, w, e, i); }
  }

  lemma ControlKept(a: Args, w: World, e: Event)
    requires Sized(a, w) && Control(a, w) && Enabled(a, w, e)
    ensures Control(a, Apply(a, w, e))
  {
    SequencedKept(a, w, e);
    forall i: nat | i < a.n ensures ControlAt(a, Apply(a, w, e), i) { ControlAtKept(a, w, e, i); }
  }

  ghost predicate Owns(a: Args, w: World, i: nat)
    requires Sized(a, w) && i < a.n
  {
    w.owner[i] == Some(i) && w.owner[Next(i, a.n)] == Some(i)
  }

  ghost predicate OwnsNothing(a: Args, w: World, i: nat)
    requires Sized(a, w) && i < a.n
  {
    w.owner[i] != Some(i) && w.owner[Next(i, a.n)] != Some(i)
  }

  ghost predicate OwnerAt(a: Args, w: World, d: nat)
    requires Sized(a, w) && d < a.n
  {
    && (w.st.dongles[d].available <==> w.owner[d] == None)
    && (w.owner[d].Some? ==> w.owner[d].value < a.n && d in Pair(w.owner[d].value, a.n)
                             && Owns(a, w, w.owner[d].value))
  }

  ghost predicate HoldAt(a: Args, w: World, i: nat)
    requires Sized(a, w) && i < a.n
  {
    match w.pcs[i]
    case Exited => Owns(a, w, i) || OwnsNothing(a, w, i)
    case Compiling(_) => Owns(a, w, i)
    case Releasing(_) => Owns(a, w, i)
    case _ =>
      if InQueue(w.pcs[i]) && !w.st.coders[i].waiting then Owns(a, w, i) else OwnsNothing(a, w, i)
  }

  ghost predicate Owned(a: Args, w: World)
    requires Sized(a, w)
  {
    && (forall d: nat :: d < a.n ==> OwnerAt(a, w, d))
    && (forall i: nat :: i < a.n ==> HoldAt(a, w, i))
  }

  lemma OwnershipOfOthers(a: Args, w: World, i: nat, j: nat)
    requires Sized(a, w) && i < a.n && j < a.n && i != j && Owned(a, w)
    requires Owns(a, w, i) || PairAvailable(a, w.st, i)
    ensures Overlap(i, j, a.n) ==> OwnsNothing(a, w, j)
  {
    assert OwnerAt(a, w, i) && OwnerAt(a, w, Next(i, a.n)) && HoldAt(a, w, j);
    OverlapIsSharing(i, j, a.n);
  }

  /** The ownership of coders that need neither dongle of `i` survives changes at `i`. */
  lemma PairChange(a: Args, w: World, i: nat, o: Option<nat>, owner: seq<Option<nat>>)
    requires Sized(a, w) && i < a.n && owner == OwnPair(w.owner, i, o)
    ensures owner[i] == o && owner[Next(i, a.n)] == o
    ensures forall d: nat :: d < a.n && d != i && d != Next(i, a.n) ==> owner[d] == w.owner[d]
  {
  }

  lemma OwnedKept(a: Args, w: World, e: Event)
    requires Sized(a, w) && Control(a, w) && Owned(a, w) && Enabled(a, w, e)
    ensures Owned(a, Apply(a, w, e))
  {
    match e {
      case Award(_, g) => AwardOwned(a, w, e);
      case GiveBack(i) => GiveBackOwned(a, w, e);
      case _ => QuietOwned(a, w, e);
    }
  }

  lemma HoldAtLocal(a: Args, w: World, e: Event, i: nat)
    requires Sized(a, w) && Enabled(a, w, e) && Local(e) && i < a.n && HoldAt(a, w, i)
    ensures HoldAt(a, Apply(a, w, e), i)
  {
    var r := Apply(a, w, e);
    assert r.owner == w.owner && r.st == w.st;
  }

  lemma HoldAtInside(a: Args, w: World, e: Event, i: nat)
    requires Sized(a, w) && Enabled(a, w, e) && i < a.n && HoldAt(a, w, i) && ControlAt(a, w, i)
    requires e.Enter? || e.Wake? || e.GiveUp? || e.Return? || e.Sleep?
    ensures HoldAt(a, Apply(a, w, e), i)
  {
    assert Apply(a, w, e).owner == w.owner;
  }

  lemma HoldAtOutside(a: Args, w: World, e: Event, i: nat)
    requires Sized(a, w) && Enabled(a, w, e) && i < a.n && HoldAt(a, w, i)
    requires e.Finish? || e.SetStop? || e.Convict?
    ensures HoldAt(a, Apply(a, w, e), i)
  {
    assert Apply(a, w, e).owner == w.owner;
  }

  /** Steps that change no ownership keep it, whoever moved. */
  lemma HoldAtKept(a: Args, w: World, e: Event, i: nat)
    requires Sized(a, w) && Enabled(a, w, e) && !e.Award? && !e.GiveBack?
    requires i < a.n && HoldAt(a, w, i) && ControlAt(a, w, i)
    ensures HoldAt(a, Apply(a, w, e), i)
  {
    if Local(e) { HoldAtLocal(a, w, e, i); }
    else if e.Finish? || e.SetStop? || e.Convict? { HoldAtOutside(a, w, e, i); }
    else { HoldAtInside(a, w, e, i); }
  }

  lemma QuietOwned(a: Args, w: World, e: Event)
    requires Sized(a, w) && Control(a, w) && Owned(a, w) && Enabled(a, w, e) && !e.Award? && !e.GiveBack?
    ensures Owned(a, Apply(a, w, e))
  {
    var r := Apply(a, w, e);
    SameOwners(a, w, e);
    forall i: nat | i < a.n ensures HoldAt(a, r, i) { HoldAtKept(a, w, e, i); }
  }

  lemma SameOwners(a: Args, w: World, e: Event)
    requires Sized(a, w) && Enabled(a, w, e) && !e.Award? && !e.GiveBack?
    requires forall d: nat :: d < a.n ==> OwnerAt(a, w, d)
    ensures forall d: nat :: d < a.n ==> OwnerAt(a, Apply(a, w, e), d)
  {
    var r := Apply(a, w, e);
    assert r.owner == w.owner && r.st.dongles == w.st.dongles;
    forall d: nat | d < a.n ensures OwnerAt(a, r, d) { assert OwnerAt(a, w, d); }
  }

  lemma AwardOwned(a: Args, w: World, e: Event)
    requires Sized(a, w) && Control(a, w) && Owned(a, w) && Enabled(a, w, e) && e.Award?
    ensures Owned(a, Apply(a, w, e))
  {
    var r, j := Apply(a, w, e), e.g.coder;
    PairChange(a, w, j, Some(j), r.owner);
    forall d: nat | d < a.n ensures OwnerAt(a, r, d) {
      assert OwnerAt(a, w, d);
      if d !in Pair(j, a.n) && w.owner[d].Some? { OwnershipOfOthers(a, w, j, w.owner[d].value); }
    }
    forall i: nat | i < a.n ensures HoldAt(a, r, i) {
      assert HoldAt(a, w, i) && ControlAt(a, w, i);
      if i != j { OwnershipOfOthers(a, w, j, i); }
    }
  }

  lemma GiveBackOwned(a: Args, w: World, e: Event)
    requires Sized(a, w) && Control(a, w) && Owned(a, w) && Enabled(a, w, e) && e.GiveBack?
    ensures Owned(a, Apply(a, w, e))
  {
    var r, j := Apply(a, w, e), e.i;
    assert HoldAt(a, w, j);
    PairChange(a, w, j, None, r.owner);
    forall d: nat | d < a.n ensures OwnerAt(a, r, d) {
      assert OwnerAt(a, w, d);
      if d !in Pair(j, a.n) && w.owner[d].Some? { OwnershipOfOthers(a, w, j, w.owner[d].value); }
    }
    forall i: nat | i < a.n ensures HoldAt(a, r, i) {
      assert HoldAt(a, w, i) && ControlAt(a, w, i);
      if i != j { OwnershipOfOthers(a, w, j, i); }
    }
  }

  ghost predicate Sound(a: Args, w: World)
    requires Sized(a, w)
  {
    Control(a, w) && Owned(a, w)
  }

  lemma StartsSound(a: Args, t: int)
    requires 2 <= a.n
    ensures Sound(a, Init(a, t))
  {
    var w := Init(a, t);
    forall i: nat | i < a.n ensures ControlAt(a, w, i) && HoldAt(a, w, i) && OwnerAt(a, w, i) { }
  }

  lemma {:induction false} StaysSound(a: Args, w: World, es: seq<Event>)
    requires Sized(a, w) && Sound(a, w) && Legal(a, w, es)
    ensures Sound(a, Reach(a, w, es))
    decreases |es|
  {
    if es != [] {
      var k := |es| - 1;
      StaysSound(a, w, es[..k]);
      ControlKept(a, Reach(a, w, es[..k]), es[k]);
      OwnedKept(a, Reach(a, w, es[..k]), es[k]);
    }
  }

  lemma RunsAreSound(a: Args, w: World)
    requires Reachable(a, w)
    ensures Sized(a, w) && Sound(a, w)
  {
    var t: int, es: seq<Event> :| Legal(a, Init(a, t), es) && Reach(a, Init(a, t), es) == w;
    StartsSound(a, t);
    StaysSound(a, Init(a, t), es);
  }

  ghost function Holders(a: Args, w: World): (s: set<nat>)
    requires Sized(a, w)
    ensures forall i: nat :: i in s <==> i < a.n && Owns(a, w, i)
  {
    set i: nat | i < a.n && Owns(a, w, i)
  }

  /** In every reachable state a dongle is taken exactly when one coder owns it, that coder
      owns both its dongles, overlapping coders never own at the same time, at most half of
      the coders own, and a pair about to be released is owned by the coder releasing it. */
  lemma OwnershipInEveryRun(a: Args, w: World)
    requires Reachable(a, w)
    ensures Sized(a, w)
    ensures forall d: nat :: d < a.n ==>
              (!w.st.dongles[d].available <==> exists i :: i in Holders(a, w) && d in Pair(i, a.n))
    ensures Independent(Holders(a, w), a.n) && |Holders(a, w)| <= a.n / 2
    ensures forall i: nat :: i < a.n ==> Owns(a, w, i) || OwnsNothing(a, w, i)
    ensures forall i: nat :: i < a.n && (w.pcs[i].Compiling? || w.pcs[i].Releasing?) ==> i in Holders(a, w)
  {
    RunsAreSound(a, w);
    forall d: nat | d < a.n
      ensures !w.st.dongles[d].available <==> exists i :: i in Holders(a, w) && d in Pair(i, a.n) {
      assert OwnerAt(a, w, d);
      if !w.st.dongles[d].available {
        assert w.owner[d].value in Holders(a, w) && d in Pair(w.owner[d].value, a.n);
      }
    }
    forall i: nat | i < a.n
      ensures Owns(a, w, i) || OwnsNothing(a, w, i)
      ensures w.pcs[i].Compiling? || w.pcs[i].Releasing? ==> i in Holders(a, w) {
      assert HoldAt(a, w, i);
    }
    forall i, j | i in Holders(a, w) && j in Holders(a, w) && i != j ensures !Overlap(i, j, a.n) {
      OwnershipOfOthers(a, w, i, j);
    }
    IndependentAtMostHalf(Holders(a, w), a.n);
  }

  // ------------------------------------------------------ the reservation that is never returned

  /** The coder passes its tests, scans to the end and returns with its pair, nobody else moving. */
  ghost predicate ScansAndCompiles(a: Args, w: World, i: nat, more: seq<Event>)
    requires Sized(a, w) && i < a.n
  {
    && |more| >= 2 && more[0] == Proceed(i) && more[|more| - 1] == Return(i)
    && AreLooks(more[1..|more| - 1], i)
    && Legal(a, w, more) && Reach(a, w, more).pcs[i].Compiling?
  }

  /** A sleeper that was granted its pair by somebody else's dispatch, back in the loop,
      leaves without returning the pair exactly when it has been stopped or its old deadline
      has passed; otherwise it goes on to compile. */
  lemma GrantedSleeperLeaves(a: Args, w: World, i: nat)
    requires Reachable(a, w) && Sized(a, w) && i < a.n && w.pcs[i].Looping? && w.st.coders[i].granted
    ensures Enabled(a, w, GiveUp(i)) <==> w.st.stop || w.st.coders[i].request.deadline <= w.now
    ensures Enabled(a, w, GiveUp(i)) ==>
              var r := Apply(a, w, GiveUp(i)); r.pcs[i].Exited? && Owns(a, r, i)
    ensures !Enabled(a, w, GiveUp(i)) ==> exists more: seq<Event> :: ScansAndCompiles(a, w, i, more)
  {
    RunsAreSound(a, w);
    assert ControlAt(a, w, i) && HoldAt(a, w, i);
    if !Enabled(a, w, GiveUp(i)) { var more := ThroughTheScan(a, w, i); }
  }

  lemma ThroughTheScan(a: Args, w: World, i: nat) returns (more: seq<Event>)
    requires Sized(a, w) && i < a.n && Enabled(a, w, Proceed(i)) && w.st.coders[i].granted
    ensures ScansAndCompiles(a, w, i, more)
  {
    OneStep(a, w, Proceed(i));
    var looks := ScanFinishes(a, Apply(a, w, Proceed(i)), i);
    Join(a, w, [Proceed(i)], looks);
    var most := [Proceed(i)] + looks;
    Extend(a, w, most, Return(i));
    more := most + [Return(i)];
    assert more[1..|more| - 1] == looks;
  }

  /** A coder that exits while owning its pair owns it forever. */
  lemma {:induction false} ExitedOwnerKeeps(a: Args, w: World, more: seq<Event>, i: nat)
    requires Reachable(a, w) && Sized(a, w) && Legal(a, w, more) && i < a.n
    requires w.pcs[i].Exited? && Owns(a, w, i)
    ensures var r := Reach(a, w, more);
      && r.pcs[i].Exited? && Owns(a, r, i)
      && !r.st.dongles[i].available && !r.st.dongles[Next(i, a.n)].available
    decreases |more|
  {
    RunsAreSound(a, w);
    if more == [] {
      assert OwnerAt(a, w, i) && OwnerAt(a, w, Next(i, a.n));
    } else {
      var k := |more| - 1;
      ExitedOwnerKeeps(a, w, more[..k], i);
      StaysSound(a, w, more[..k]);
      ExitedOwnerStep(a, Reach(a, w, more[..k]), more[k], i);
    }
  }

  lemma ExitedOwnerStep(a: Args, w: World, e: Event, i: nat)
    requires Sized(a, w) && Sound(a, w) && Enabled(a, w, e) && i < a.n
    requires w.pcs[i].Exited? && Owns(a, w, i)
    ensures var r := Apply(a, w, e);
      && r.pcs[i].Exited? && Owns(a, r, i)
      && !r.st.dongles[i].available && !r.st.dongles[Next(i, a.n)].available
  {
    assert OwnerAt(a, w, i) && OwnerAt(a, w, Next(i, a.n)) && ControlAt(a, w, i);
    if e.Award? || e.GiveBack? {
      ExitedOwnerPassed(a, w, e, i);
    } else {
      var r := Apply(a, w, e);
      assert r.owner == w.owner && r.st.dongles == w.st.dongles;
    }
  }

  lemma ExitedOwnerPassed(a: Args, w: World, e: Event, i: nat)
    requires Sized(a, w) && Sound(a, w) && Enabled(a, w, e) && i < a.n && (e.Award? || e.GiveBack?)
    requires w.pcs[i].Exited? && Owns(a, w, i)
    requires !w.st.dongles[i].available && !w.st.dongles[Next(i, a.n)].available
    ensures var r := Apply(a, w, e);
      && r.pcs[i].Exited? && Owns(a, r, i)
      && !r.st.dongles[i].available && !r.st.dongles[Next(i, a.n)].available
  {
    var r := Apply(a, w, e);
    if e.Award? {
      PairChange(a, w, e.g.coder, Some(e.g.coder), r.owner);
      OverlapIsSharing(i, e.g.coder, a.n);
    } else {
      assert HoldAt(a, w, e.i);
      PairChange(a, w, e.i, None, r.owner);
      OwnershipOfOthers(a, w, i, e.i);
      OverlapIsSharing(i, e.i, a.n);
    }
  }
}
