// Counting compiles: how many a coder makes, and when the run reports that all are done.
module Completion {
  import opened Table
  import opened Runs
  import opened Ownership

  /** The coder has reserved its pair for a compile it has not counted yet. */
  predicate InFlight(w: World, i: nat)
    requires i < |w.pcs| && i < |w.st.coders|
  {
    match w.pcs[i]
    case Compiling(_) => true
    case Releasing(_) => true
    case Released => true
    case Counting => true
    case _ => InQueue(w.pcs[i]) && !w.st.coders[i].waiting
  }

  ghost predicate CountAt(a: Args, w: World, i: nat)
    requires Sized(a, w) && i < a.n
  {
    var done := w.st.coders[i].done;
    && (w.pcs[i].Exited? ==> done <= w.started[i] <= done + 1)
    && (!w.pcs[i].Exited? ==> w.started[i] == done + if InFlight(w, i) then 1 else 0)
    && (a.required > 0 ==> w.started[i] <= a.required)
    && (a.required > 0 && (w.pcs[i].Ready? || (InQueue(w.pcs[i]) && w.st.coders[i].waiting)) ==> done < a.required)
  }

  ghost function Total(counts: seq<nat>): (sum: nat)
  {
    if counts == [] then 0 else Total(counts[..|counts| - 1]) + counts[|counts| - 1]
  }

  lemma {:induction false} TotalUpdate(counts: seq<nat>, i: nat, v: nat)
    requires i < |counts|
    ensures Total(counts[i := v]) == Total(counts) - counts[i] + v
    decreases |counts|
  {
    var k := |counts| - 1;
    if i == k {
      assert counts[i := v][..k] == counts[..k];
    } else {
      assert counts[i := v][..k] == counts[..k][i := v];
      TotalUpdate(counts[..k], i, v);
    }
  }

  lemma {:induction false} TotalConstant(counts: seq<nat>, v: nat)
    requires forall i :: 0 <= i < |counts| ==> counts[i] == v
    ensures Total(counts) == |counts| * v
    decreases |counts|
  {
    if counts != [] {
      var k := |counts| - 1;
      TotalConstant(counts[..k], v);
      assert (k + 1) * v == k * v + v;
    }
  }

  lemma {:induction false} TotalBounded(counts: seq<nat>, v: nat)
    requires forall i :: 0 <= i < |counts| ==> counts[i] <= v
    ensures Total(counts) <= |counts| * v
    decreases |counts|
  {
    if counts != [] {
      var k := |counts| - 1;
      TotalBounded(counts[..k], v);
      assert (k + 1) * v == k * v + v;
    }
  }

  ghost predicate Counted(a: Args, w: World)
    requires Sized(a, w)
  {
    && (forall i: nat :: i < a.n ==> CountAt(a, w, i))
    && |w.starts| == Total(w.started)
    && w.reports <= 1
    && (w.reports == 1 ==> a.required > 0 && AllFinished(a, w.st))
  }

  lemma CountLocal(a: Args, w: World, e: Event, i: nat)
    requires Sized(a, w) && Enabled(a, w, e) && Local(e) && i < a.n && CountAt(a, w, i)
    ensures CountAt(a, Apply(a, w, e), i)
  {
    var r := Apply(a, w, e);
    assert r.st == w.st && r.started == w.started;
    assert r.pcs[i] == w.pcs[i] || e.i == i;
  }

  lemma CountInside(a: Args, w: World, e: Event, i: nat)
    requires Sized(a, w) && Enabled(a, w, e) && i < a.n && CountAt(a, w, i) && ControlAt(a, w, i)
    requires e.Enter? || e.Wake? || e.GiveUp? || e.Return? || e.Sleep?
    ensures CountAt(a, Apply(a, w, e), i)
  {
    var r := Apply(a, w, e);
    assert r.started == w.started && r.st.coders[i].done == w.st.coders[i].done;
  }

  lemma CountAward(a: Args, w: World, e: Event, i: nat)
    requires Sized(a, w) && Enabled(a, w, e) && e.Award? && i < a.n && CountAt(a, w, i) && ControlAt(a, w, i)
    ensures CountAt(a, Apply(a, w, e), i)
  {
  }

  lemma CountReturn(a: Args, w: World, e: Event, i: nat)
    requires Sized(a, w) && Enabled(a, w, e) && i < a.n && CountAt(a, w, i)
    requires e.GiveBack? || e.Finish?
    ensures CountAt(a, Apply(a, w, e), i)
  {
    assert Apply(a, w, e).started == w.started;
  }

  lemma CountStop(a: Args, w: World, e: Event, i: nat)
    requires Sized(a, w) && Enabled(a, w, e) && i < a.n && CountAt(a, w, i)
    requires e.SetStop? || e.Convict?
    ensures CountAt(a, Apply(a, w, e), i)
  {
    var r := Apply(a, w, e);
    assert r.started == w.started && r.st.coders == w.st.coders;
  }

  lemma CountKept(a: Args, w: World, e: Event, i: nat)
    requires Sized(a, w) && Control(a, w) && Enabled(a, w, e) && i < a.n && CountAt(a, w, i)
    ensures CountAt(a, Apply(a, w, e), i)
  {
    assert ControlAt(a, w, i);
    if Local(e) { CountLocal(a, w, e, i); }
    else if e.Award? { CountAward(a, w, e, i); }
    else if e.Enter? || e.Wake? || e.GiveUp? || e.Return? || e.Sleep? { CountInside(a, w, e, i); }
    else if e.GiveBack? || e.Finish? { CountReturn(a, w, e, i); }
    else { CountStop(a, w, e, i); }
  }

  lemma TotalsKept(a: Args, w: World, e: Event)
    requires Sized(a, w) && Enabled(a, w, e) && |w.starts| == Total(w.started)
    ensures |Apply(a, w, e).starts| == Total(Apply(a, w, e).started)
  {
    if e.Award? {
      TotalUpdate(w.started, e.g.coder, w.started[e.g.coder] + 1);
    } else {
      assert Apply(a, w, e).starts == w.starts && Apply(a, w, e).started == w.started;
    }
  }

  lemma ReportKept(a: Args, w: World, e: Event)
    requires Sized(a, w) && Counted(a, w) && Enabled(a, w, e)
    ensures Apply(a, w, e).reports <= 1
    ensures Apply(a, w, e).reports == 1 ==> a.required > 0 && AllFinished(a, Apply(a, w, e).st)
  {
    var r := Apply(a, w, e);
    if e.Finish? {
      assert CountAt(a, w, e.i);
    } else {
      assert r.reports == w.reports;
      assert forall i: nat :: i < a.n ==> r.st.coders[i].done == w.st.coders[i].done;
    }
  }

  lemma CountedKept(a: Args, w: World, e: Event)
    requires Sized(a, w) && Control(a, w) && Counted(a, w) && Enabled(a, w, e)
    ensures Counted(a, Apply(a, w, e))
  {
    var r := Apply(a, w, e);
    forall i: nat | i < a.n ensures CountAt(a, r, i) { CountKept(a, w, e, i); }
    TotalsKept(a, w, e);
    ReportKept(a, w, e);
  }

  lemma {:induction false} StaysCounted(a: Args, w: World, es: seq<Event>)
    requires Sized(a, w) && Sound(a, w) && Counted(a, w) && Legal(a, w, es)
    ensures Counted(a, Reach(a, w, es))
    decreases |es|
  {
    if es != [] {
      var k := |es| - 1;
      StaysCounted(a, w, es[..k]);
      StaysSound(a, w, es[..k]);
      CountedKept(a, Reach(a, w, es[..k]), es[k]);
    }
  }

  lemma RunsAreCounted(a: Args, w: World)
    requires Reachable(a, w)
    ensures Sized(a, w) && Counted(a, w)
  {
    var t: int, es: seq<Event> :| Legal(a, Init(a, t), es) && Reach(a, Init(a, t), es) == w;
    TotalConstant(Init(a, t).started, 0);
    StartsSound(a, t);
    StaysCounted(a, Init(a, t), es);
  }

  /** No coder compiles more often than required, a coder is at most one reservation ahead of
      its count, completion is reported at most once, and when it is, exactly n * required
      reservations have been made and none is in flight. */
  lemma CompletionInEveryRun(a: Args, w: World)
    requires Reachable(a, w) && a.required > 0
    ensures Sized(a, w)
    ensures forall i: nat :: i < a.n ==>
              && w.st.coders[i].done <= a.required
              && w.st.coders[i].done <= w.started[i] <= w.st.coders[i].done + 1
    ensures |w.starts| == Total(w.started)
    ensures w.reports <= 1
    ensures w.reports == 1 ==>
              && |w.starts| == a.n * a.required
              && forall i: nat :: i < a.n ==> w.st.coders[i].done == a.required == w.started[i] && !InFlight(w, i)
  {
    RunsAreCounted(a, w);
    forall i: nat | i < a.n
      ensures w.st.coders[i].done <= w.started[i] <= w.st.coders[i].done + 1 && w.st.coders[i].done <= a.required {
      assert CountAt(a, w, i);
    }
    if w.reports == 1 {
      forall i: nat | i < a.n
        ensures w.st.coders[i].done == a.required == w.started[i] && !InFlight(w, i) {
        assert CountAt(a, w, i);
      }
      TotalConstant(w.started, a.required);
    }
  }
}
