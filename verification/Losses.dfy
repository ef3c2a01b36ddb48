// How a pair is lost for good, and what that means for the completion of the run.
module Losses {
  import opened Table
  import opened Runs
  import opened Ownership
  import opened Completion

  /** The coder has left with its pair; by ExitedOwnerKeeps neither dongle comes back. */
  ghost predicate Lost(a: Args, w: World, i: nat)
    requires Sized(a, w) && i < a.n
  {
    w.pcs[i].Exited? && Owns(a, w, i)
  }

  /** The one way to lose a pair: giving up after somebody else's dispatch granted it, which
      takes a stop or a deadline that has passed. */
  lemma LostExactly(a: Args, w: World, e: Event, i: nat)
    requires Reachable(a, w) && Sized(a, w) && Enabled(a, w, e) && i < a.n && !Lost(a, w, i)
    ensures Lost(a, Apply(a, w, e), i) <==> e == GiveUp(i) && w.st.coders[i].granted
    ensures Lost(a, Apply(a, w, e), i) ==> w.st.stop || w.st.coders[i].request.deadline <= w.now
  {
    RunsAreSound(a, w);
    LostStep(a, w, e, i);
  }

  lemma LostStep(a: Args, w: World, e: Event, i: nat)
    requires Sized(a, w) && Sound(a, w) && Enabled(a, w, e) && i < a.n && !Lost(a, w, i)
    ensures Lost(a, Apply(a, w, e), i) <==> e == GiveUp(i) && w.st.coders[i].granted
  {
    assert ControlAt(a, w, i) && HoldAt(a, w, i);
  }

  // ------------------------------------------------------------------- counting exits

  /** A coder leaves with a compile it has not counted exactly when it gives up a granted pair
      or sees the stop between releasing and counting. */
  lemma ExitCount(a: Args, w: World, e: Event, i: nat)
    requires Reachable(a, w) && Sized(a, w) && Enabled(a, w, e) && i < a.n
    requires !w.pcs[i].Exited? && Apply(a, w, e).pcs[i].Exited?
    ensures var r := Apply(a, w, e);
      r.started[i] == r.st.coders[i].done +
        if (e == GiveUp(i) && w.st.coders[i].granted) || (e == Quit(i) && w.pcs[i].Released?) then 1 else 0
  {
    RunsAreSound(a, w);
    RunsAreCounted(a, w);
    ExitCountStep(a, w, e, i);
  }

  lemma ExitCountStep(a: Args, w: World, e: Event, i: nat)
    requires Sized(a, w) && Sound(a, w) && Counted(a, w) && Enabled(a, w, e) && i < a.n
    requires !w.pcs[i].Exited? && Apply(a, w, e).pcs[i].Exited?
    ensures var r := Apply(a, w, e);
      r.started[i] == r.st.coders[i].done +
        if (e == GiveUp(i) && w.st.coders[i].granted) || (e == Quit(i) && w.pcs[i].Released?) then 1 else 0
  {
    assert ControlAt(a, w, i) && CountAt(a, w, i);
  }

  /** After its exit neither its count nor its reservations change. */
  lemma ExitedStep(a: Args, w: World, e: Event, i: nat)
    requires Sized(a, w) && Sound(a, w) && Enabled(a, w, e) && i < a.n && w.pcs[i].Exited?
    ensures var r := Apply(a, w, e);
      r.pcs[i].Exited? && r.started[i] == w.started[i] && r.st.coders[i].done == w.st.coders[i].done
  {
    assert ControlAt(a, w, i);
  }

  lemma {:induction false} ExitedCountStays(a: Args, w: World, more: seq<Event>, i: nat)
    requires Reachable(a, w) && Sized(a, w) && Legal(a, w, more) && i < a.n && w.pcs[i].Exited?
    ensures var r := Reach(a, w, more);
      r.pcs[i].Exited? && r.started[i] == w.started[i] && r.st.coders[i].done == w.st.coders[i].done
    decreases |more|
  {
    if more != [] {
      var k := |more| - 1;
      ExitedCountStays(a, w, more[..k], i);
      RunsAreSound(a, w);
      StaysSound(a, w, more[..k]);
      ExitedStep(a, Reach(a, w, more[..k]), more[k], i);
    }
  }

  // ------------------------------------------------------------------ no completion

  ghost predicate LossesUncounted(a: Args, w: World)
    requires Sized(a, w)
  {
    forall i: nat :: i < a.n && Lost(a, w, i) ==> w.started[i] == w.st.coders[i].done + 1
  }

  lemma LossesKept(a: Args, w: World, e: Event)
    requires Sized(a, w) && Sound(a, w) && Counted(a, w) && LossesUncounted(a, w) && Enabled(a, w, e)
    ensures LossesUncounted(a, Apply(a, w, e))
  {
    var r := Apply(a, w, e);
    forall i: nat | i < a.n && Lost(a, r, i) ensures r.started[i] == r.st.coders[i].done + 1 {
      if Lost(a, w, i) {
        ExitedStep(a, w, e, i);
      } else {
        LostStep(a, w, e, i);
        assert ControlAt(a, w, i);
        ExitCountStep(a, w, e, i);
      }
    }
  }

  lemma {:induction false} StaysUncounted(a: Args, w: World, es: seq<Event>)
    requires Sized(a, w) && Sound(a, w) && Counted(a, w) && LossesUncounted(a, w) && Legal(a, w, es)
    ensures LossesUncounted(a, Reach(a, w, es))
    decreases |es|
  {
    if es != [] {
      var k := |es| - 1;
      StaysUncounted(a, w, es[..k]);
      StaysSound(a, w, es[..k]);
      StaysCounted(a, w, es[..k]);
      LossesKept(a, Reach(a, w, es[..k]), es[k]);
    }
  }

  lemma LostIsUncounted(a: Args, w: World, i: nat)
    requires Reachable(a, w) && Sized(a, w) && i < a.n && Lost(a, w, i)
    ensures w.started[i] == w.st.coders[i].done + 1
  {
    var t: int, es: seq<Event> :| Legal(a, Init(a, t), es) && Reach(a, Init(a, t), es) == w;
    TotalConstant(Init(a, t).started, 0);
    StartsSound(a, t);
    StaysUncounted(a, Init(a, t), es);
  }

  /** Once a pair is lost its coder stays short of the required compiles, so the completion
      of the run is never reported, before or after. */
  lemma LossPreventsCompletion(a: Args, w: World, more: seq<Event>, i: nat)
    requires Reachable(a, w) && Sized(a, w) && Legal(a, w, more) && i < a.n && Lost(a, w, i)
    requires a.required > 0
    ensures var r := Reach(a, w, more); r.st.coders[i].done < a.required && r.reports == 0
  {
    LostIsUncounted(a, w, i);
    ExitedCountStays(a, w, more, i);
    RunsAreSound(a, w);
    RunsAreCounted(a, w);
    assert CountAt(a, w, i);
    StaysCounted(a, w, more);
  }
}
