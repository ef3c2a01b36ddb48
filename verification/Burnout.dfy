// The monitor's verdict: a coder found past its deadline stays past it until the burnout
// line is written and ever after.
module Burnout {
  import opened Table
  import opened Runs
  import opened Ownership

  lemma LateStep(a: Args, w: World, e: Event, i: nat)
    requires Sized(a, w) && Control(a, w) && Enabled(a, w, e) && Late(a, w.st, i, w.now)
    ensures var r := Apply(a, w, e);
            Late(a, r.st, i, r.now) && r.st.coders[i].lastStart == w.st.coders[i].lastStart
  {
    assert ControlAt(a, w, i);
  }

  /** Once a coder is late no step ever changes the start of its last compile again. */
  lemma {:induction false} LateForever(a: Args, w: World, more: seq<Event>, i: nat)
    requires Reachable(a, w) && Sized(a, w) && Legal(a, w, more) && Late(a, w.st, i, w.now)
    ensures var r := Reach(a, w, more);
            Late(a, r.st, i, r.now) && r.st.coders[i].lastStart == w.st.coders[i].lastStart
    decreases |more|
  {
    if more != [] {
      var k := |more| - 1;
      LateForever(a, w, more[..k], i);
      RunsAreSound(a, w);
      StaysSound(a, w, more[..k]);
      LateStep(a, Reach(a, w, more[..k]), more[k], i);
    }
  }

  ghost predicate Verdict(a: Args, w: World)
    requires Sized(a, w)
  {
    && (w.monitor.Accusing? || w.monitor.Writing? ==> Late(a, w.st, w.monitor.coder, w.now))
    && (w.monitor.Writing? || w.burned.Some? ==> w.st.stop)
    && (w.burned.Some? ==>
          && w.monitor.Retired?
          && Late(a, w.st, w.burned.value.coder, w.now)
          && w.st.coders[w.burned.value.coder].lastStart + a.burnout <= w.burned.value.at <= w.now)
  }

  lemma VerdictKept(a: Args, w: World, e: Event)
    requires Sized(a, w) && Control(a, w) && Verdict(a, w) && Enabled(a, w, e)
    ensures Verdict(a, Apply(a, w, e))
  {
    if w.monitor.Accusing? || w.monitor.Writing? { LateStep(a, w, e, w.monitor.coder); }
    if w.burned.Some? { LateStep(a, w, e, w.burned.value.coder); }
  }

  lemma {:induction false} StaysJudged(a: Args, w: World, es: seq<Event>)
    requires Sized(a, w) && Sound(a, w) && Verdict(a, w) && Legal(a, w, es)
    ensures Verdict(a, Reach(a, w, es))
    decreases |es|
  {
    if es != [] {
      var k := |es| - 1;
      StaysJudged(a, w, es[..k]);
      StaysSound(a, w, es[..k]);
      VerdictKept(a, Reach(a, w, es[..k]), es[k]);
    }
  }

  lemma RunsJudgeRightly(a: Args, w: World)
    requires Reachable(a, w)
    ensures Sized(a, w) && Verdict(a, w)
  {
    var t: int, es: seq<Event> :| Legal(a, Init(a, t), es) && Reach(a, Init(a, t), es) == w;
    StartsSound(a, t);
    StaysJudged(a, Init(a, t), es);
  }

  /** The burnout line is written at a time at which the coder it names is past its deadline,
      and that coder has not started another compile since, nor ever will. */
  lemma BurnoutIsTrue(a: Args, w: World, more: seq<Event>)
    requires Reachable(a, w) && Sized(a, w) && Legal(a, w, more) && w.burned.Some?
    ensures var c, r := w.burned.value.coder, Reach(a, w, more);
      && c < a.n && r.burned == w.burned
      && r.st.coders[c].lastStart + a.burnout <= w.burned.value.at
  {
    RunsJudgeRightly(a, w);
    LateForever(a, w, more, w.burned.value.coder);
    BurnedStays(a, w, more);
  }

  lemma {:induction false} BurnedStays(a: Args, w: World, more: seq<Event>)
    requires Reachable(a, w) && Sized(a, w) && Legal(a, w, more) && w.burned.Some?
    ensures Reach(a, w, more).burned == w.burned
    decreases |more|
  {
    if more != [] {
      var k := |more| - 1;
      BurnedStays(a, w, more[..k]);
      RunsAreSound(a, w);
      RunsJudgeRightly(a, w);
      StaysJudged(a, w, more[..k]);
    }
  }

  lemma StoppedStep(a: Args, w: World, e: Event)
    requires Sized(a, w) && Control(a, w) && Enabled(a, w, e) && w.st.stop
    ensures Apply(a, w, e).st.stop && Apply(a, w, e).starts == w.starts
  {
    forall i: nat | i < a.n ensures w.pcs[i].Dispatching? ==> !w.st.stop { assert ControlAt(a, w, i); }
  }

  /** The stop flag is never cleared and ends all reservations. */
  lemma {:induction false} NothingStartsAfterStop(a: Args, w: World, more: seq<Event>)
    requires Reachable(a, w) && Sized(a, w) && Legal(a, w, more) && w.st.stop
    ensures Reach(a, w, more).st.stop && Reach(a, w, more).starts == w.starts
    decreases |more|
  {
    if more != [] {
      var k := |more| - 1;
      NothingStartsAfterStop(a, w, more[..k]);
      RunsAreSound(a, w);
      StaysSound(a, w, more[..k]);
      StoppedStep(a, Reach(a, w, more[..k]), more[k]);
    }
  }
}
