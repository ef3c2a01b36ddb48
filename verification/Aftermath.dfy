// After a coder, and after all coders, have compiled often enough: who can still burn out.
module Aftermath {
  import opened Table
  import opened Options
  import opened Runs
  import opened Ownership
  import opened Completion
  import opened Burnout

  // --------------------------------------------------------------- a finished coder

  lemma DoneStep(a: Args, w: World, e: Event, i: nat)
    requires Sized(a, w) && Control(a, w) && Counted(a, w) && Enabled(a, w, e)
    requires i < a.n && CoderDone(a, w.st, i)
    ensures var r := Apply(a, w, e);
      && CoderDone(a, r.st, i) && r.started[i] == w.started[i]
      && r.st.coders[i].lastStart == w.st.coders[i].lastStart
  {
    assert ControlAt(a, w, i) && CountAt(a, w, i);
  }

  /** A coder that is done never starts again: it is past its deadline from the fixed instant
      time_to_burnout after its last start. */
  lemma {:induction false} DoneIsFinal(a: Args, w: World, more: seq<Event>, i: nat)
    requires Reachable(a, w) && Sized(a, w) && Legal(a, w, more) && i < a.n && CoderDone(a, w.st, i)
    ensures var r := Reach(a, w, more);
      && CoderDone(a, r.st, i) && r.started[i] == w.started[i]
      && (Late(a, r.st, i, r.now) <==> w.st.coders[i].lastStart + a.burnout <= r.now)
      && r.st.coders[i].lastStart == w.st.coders[i].lastStart
    decreases |more|
  {
    if more != [] {
      var k := |more| - 1;
      DoneIsFinal(a, w, more[..k], i);
      RunsAreSound(a, w);
      RunsAreCounted(a, w);
      StaysSound(a, w, more[..k]);
      StaysCounted(a, w, more[..k]);
      DoneStep(a, Reach(a, w, more[..k]), more[k], i);
    }
  }

  // ---------------------------------------------------------------- the monitor's place

  ghost predicate MonitorSound(a: Args, w: World)
    requires Sized(a, w)
  {
    && (w.monitor.Retired? ==> w.st.stop)
    && (w.monitor.Accusing? || w.monitor.Writing? ==> Overdue(a, w.st, w.monitor.coder, w.now))
    && (w.monitor.Writing? ==> w.st.stop)
  }

  lemma MonitorKept(a: Args, w: World, e: Event)
    requires Sized(a, w) && Control(a, w) && MonitorSound(a, w) && Enabled(a, w, e)
    ensures MonitorSound(a, Apply(a, w, e))
  {
    if w.monitor.Accusing? || w.monitor.Writing? { LateStep(a, w, e, w.monitor.coder); }
  }

  lemma {:induction false} StaysMonitored(a: Args, w: World, es: seq<Event>)
    requires Sized(a, w) && Sound(a, w) && MonitorSound(a, w) && Legal(a, w, es)
    ensures MonitorSound(a, Reach(a, w, es))
    decreases |es|
  {
    if es != [] {
      var k := |es| - 1;
      StaysMonitored(a, w, es[..k]);
      StaysSound(a, w, es[..k]);
      MonitorKept(a, Reach(a, w, es[..k]), es[k]);
    }
  }

  lemma RunsAreMonitored(a: Args, w: World)
    requires Reachable(a, w)
    ensures Sized(a, w) && MonitorSound(a, w)
  {
    var t: int, es: seq<Event> :| Legal(a, Init(a, t), es) && Reach(a, Init(a, t), es) == w;
    StartsSound(a, t);
    StaysMonitored(a, Init(a, t), es);
  }

  // -------------------------------------------------------------- burnout after completion

  /** The continuation ends with the burnout line written. */
  ghost predicate Burns(a: Args, w: World, more: seq<Event>)
    requires Sized(a, w)
  {
    Legal(a, w, more) && Reach(a, w, more).burned.Some?
  }

  /** The monitor does not skip the coder as one that never started. */
  predicate Watched(a: Args, w: World, i: nat)
    requires Sized(a, w)
  {
    i < a.n && 0 < w.st.coders[i].lastStart
  }

  /** The verdict can no longer come: the run was stopped otherwise, or nobody is watched and
      nobody ever starts again. */
  ghost predicate Spared(a: Args, w: World)
    requires Sized(a, w)
  {
    && w.burned == None && !w.monitor.Writing?
    && (w.st.stop ||
        (!w.monitor.Accusing? && a.required > 0 && AllFinished(a, w.st)
         && forall i: nat :: i < a.n ==> !Watched(a, w, i)))
  }

  lemma SparedStep(a: Args, w: World, e: Event)
    requires Sized(a, w) && Control(a, w) && Counted(a, w) && Spared(a, w) && Enabled(a, w, e)
    ensures Spared(a, Apply(a, w, e))
  {
    if !w.st.stop {
      var r := Apply(a, w, e);
      forall i: nat | i < a.n
        ensures !Watched(a, r, i) && r.st.coders[i].done >= a.required {
        assert CoderDone(a, w.st, i) && !Watched(a, w, i);
        DoneStep(a, w, e, i);
      }
    }
  }

  lemma {:induction false} SparedForever(a: Args, w: World, more: seq<Event>)
    requires Sized(a, w) && Sound(a, w) && Counted(a, w) && Spared(a, w) && Legal(a, w, more)
    ensures Spared(a, Reach(a, w, more))
    decreases |more|
  {
    if more != [] {
      var k := |more| - 1;
      SparedForever(a, w, more[..k]);
      StaysSound(a, w, more[..k]);
      StaysCounted(a, w, more[..k]);
      SparedStep(a, Reach(a, w, more[..k]), more[k]);
    }
  }

  lemma DoneIsOutside(a: Args, w: World, i: nat)
    requires Sized(a, w) && i < a.n && CoderDone(a, w.st, i) && CountAt(a, w, i)
    ensures !InQueue(w.pcs[i])
  {
  }

  lemma NobodyIsInside(a: Args, w: World)
    requires Reachable(a, w) && Sized(a, w) && w.reports == 1
    ensures w.mutex == None && a.required > 0 && AllFinished(a, w.st)
  {
    RunsAreSound(a, w);
    RunsAreCounted(a, w);
    forall i: nat | i < a.n ensures w.mutex != Some(i) {
      assert ControlAt(a, w, i) && CountAt(a, w, i);
      DoneIsOutside(a, w, i);
    }
  }

  lemma ConvictionRun(a: Args, w: World) returns (more: seq<Event>)
    requires Sized(a, w) && w.mutex == None && w.monitor.Accusing? && !w.st.stop
    ensures Burns(a, w, more)
  {
    OneStep(a, w, Convict);
    more := OneMoreStep(a, w, [Convict], WriteVerdict);
  }

  lemma AccusationRun(a: Args, w: World, i: nat) returns (more: seq<Event>)
    requires Sized(a, w) && w.mutex == None && w.monitor.Scanning? && !w.st.stop && Watched(a, w, i)
    ensures Burns(a, w, more)
  {
    var at := Max(w.now, w.st.coders[i].lastStart + a.burnout);
    more := VerdictRun(a, w, i, at);
  }

  lemma WritingRun(a: Args, w: World) returns (more: seq<Event>)
    requires Sized(a, w) && w.monitor.Writing?
    ensures Burns(a, w, more)
  {
    OneStep(a, w, WriteVerdict);
    more := [WriteVerdict];
  }

  /** Once completion has been reported, a burnout line can still follow exactly when it has
      been written already or is being written, or the run is not yet stopped and some coder
      has ever been seen to start. */
  lemma BurnoutAfterCompletion(a: Args, w: World)
    requires Reachable(a, w) && Sized(a, w) && w.reports == 1
    ensures (exists more: seq<Event> :: Burns(a, w, more)) <==>
              || w.burned.Some? || w.monitor.Writing?
              || (!w.st.stop && exists i: nat :: Watched(a, w, i))
  {
    RunsAreSound(a, w);
    RunsAreCounted(a, w);
    RunsAreMonitored(a, w);
    NobodyIsInside(a, w);
    if w.burned.Some? {
      assert Burns(a, w, []);
    } else if w.monitor.Writing? {
      var more := WritingRun(a, w);
    } else if !w.st.stop && exists i: nat :: Watched(a, w, i) {
      var i: nat :| Watched(a, w, i);
      if w.monitor.Accusing? {
        var more := ConvictionRun(a, w);
      } else {
        var more := AccusationRun(a, w, i);
      }
    } else {
      assert w.monitor.Accusing? ==> Watched(a, w, w.monitor.coder);
      assert !w.st.stop ==> forall i: nat :: i < a.n ==> !Watched(a, w, i);
      forall more: seq<Event> | Burns(a, w, more) ensures false { SparedForever(a, w, more); }
    }
  }
}
