// Whoever stops the run wakes all the dongles before it goes on.
module Shutdown {
  import opened LockProtocol

  /** On the way from setting the stop flag to the end of wake_all_dongles. */
  predicate Waker(pc: Pc) {
    pc.Sentencing? || pc == Written(true) || pc.Waking? || pc.WakingHeld?
  }

  /** The dongles already visited have been woken. */
  ghost predicate VisitedAt(w: Sys, t: nat)
    requires t < |w.threads|
  {
    w.threads[t].Waking? || w.threads[t].WakingHeld? ==>
      forall d: nat :: d < w.threads[t].k && d < |w.dongles| ==> d in w.woken
  }

  ghost predicate AllWoken(w: Sys) {
    forall d: nat :: d < |w.dongles| ==> d in w.woken
  }

  ghost predicate SomeWaker(w: Sys) {
    exists t: nat :: t < |w.threads| && Waker(w.threads[t])
  }

  ghost predicate Careful(w: Sys) {
    && (forall t: nat :: t < |w.threads| ==> VisitedAt(w, t))
    && (w.stop ==> AllWoken(w) || SomeWaker(w))
  }

  lemma AdvanceWakes(w: Sys, s: nat)
    requires Enabled(w, Advance(s))
    ensures w.woken <= Proceed(w, s).woken
  {
  }

  lemma AdvanceOnly(w: Sys, s: nat, t: nat)
    requires Enabled(w, Advance(s)) && t < |w.threads| && t != s
    ensures Proceed(w, s).threads[t] == w.threads[t]
  {
  }

  lemma StepOnly(w: Sys, e: Event)
    requires Enabled(w, e) && !e.Advance?
    ensures var r := Apply(w, e);
      && |r.threads| == |w.threads| && |r.dongles| == |w.dongles| && w.woken == r.woken && r.stop == w.stop
      && (forall t: nat :: t < |w.threads| && (Waker(w.threads[t]) || Waker(r.threads[t])) ==>
            r.threads[t] == w.threads[t])
  {
  }

  /** What a step of a waker leads to. */
  lemma WakerGoesOn(w: Sys, s: nat)
    requires Enabled(w, Advance(s)) && VisitedAt(w, s)
    ensures var r := Proceed(w, s);
      && VisitedAt(r, s)
      && (Waker(w.threads[s]) && !Waker(r.threads[s]) ==> AllWoken(w))
      && (r.stop && !w.stop ==> Waker(r.threads[s]))
  {
  }

  lemma CarefulAdvance(w: Sys, s: nat)
    requires Careful(w) && Enabled(w, Advance(s))
    ensures Careful(Proceed(w, s))
  {
    var r := Proceed(w, s);
    AdvanceWakes(w, s);
    WakerGoesOn(w, s);
    forall t: nat | t < |r.threads| ensures VisitedAt(r, t) {
      assert VisitedAt(w, t);
      if t != s { AdvanceOnly(w, s, t); }
    }
    if r.stop && !AllWoken(r) {
      if w.stop {
        var t: nat :| t < |w.threads| && Waker(w.threads[t]);
        if t != s { AdvanceOnly(w, s, t); }
        assert Waker(r.threads[t]);
      } else {
        assert Waker(r.threads[s]);
      }
    }
  }

  lemma CarefulStep(w: Sys, e: Event)
    requires Careful(w) && Enabled(w, e)
    ensures Careful(Apply(w, e))
  {
    if e.Advance? {
      CarefulAdvance(w, e.t);
    } else {
      var r := Apply(w, e);
      StepOnly(w, e);
      forall t: nat | t < |r.threads| ensures VisitedAt(r, t) { assert VisitedAt(w, t); }
      if SomeWaker(w) {
        var t: nat :| t < |w.threads| && Waker(w.threads[t]);
        assert Waker(r.threads[t]);
      }
    }
  }

  lemma {:induction false} StaysCareful(w: Sys, es: seq<Event>)
    requires Careful(w) && Legal(w, es)
    ensures Careful(Reach(w, es))
    decreases |es|
  {
    if es != [] {
      var k := |es| - 1;
      StaysCareful(w, es[..k]);
      CarefulStep(Reach(w, es[..k]), es[k]);
    }
  }

  /** Under every interleaving: once the run is stopped and whoever stopped it has gone on, the
      condition of every dongle has been broadcast. */
  lemma StopWakesDongles(w: Sys, d: nat)
    requires Reachable(w) && w.stop && d < |w.dongles|
    requires forall t: nat :: t < |w.threads| ==> !Waker(w.threads[t])
    ensures d in w.woken
  {
    var s: Sys, es: seq<Event> :| Fresh(s) && Legal(s, es) && Reach(s, es) == w;
    StaysCareful(s, es);
  }
}
