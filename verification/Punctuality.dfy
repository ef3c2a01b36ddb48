// How far apart the starts of one coder can be: the deadline is tested before the start is
// read, so a start is late by no more than the clock moved in between.
module Punctuality {
  import opened Table
  import opened Runs
  import opened Ownership

  /** No grant takes longer than `delay` from reading the clock for the deadline to reading it
      for the start. */
  ghost predicate Prompt(es: seq<Event>, delay: nat) {
    forall k :: 0 <= k < |es| && es[k].Award? ==> es[k].g.start <= es[k].g.deadlineRead + delay
  }

  predicate SameCoder(starts: seq<Start>, p: nat, q: nat)
    requires p < |starts| && q < |starts|
  {
    starts[p].coder == starts[q].coder
  }

  /** The start at `q` is the next one of its coder after that at `p`. */
  ghost predicate Successive(starts: seq<Start>, p: nat, q: nat) {
    p < q < |starts| && SameCoder(starts, p, q) && forall m: nat :: p < m < q ==> !SameCoder(starts, p, m)
  }

  ghost predicate IsFirst(starts: seq<Start>, q: nat) {
    q < |starts| && forall m: nat :: m < q ==> !SameCoder(starts, m, q)
  }

  ghost predicate IsLatest(starts: seq<Start>, p: nat) {
    p < |starts| && forall m: nat :: p < m < |starts| ==> !SameCoder(starts, p, m)
  }

  ghost predicate NeverStarted(starts: seq<Start>, i: nat) {
    forall m: nat :: m < |starts| ==> starts[m].coder != i
  }

  /** Each start comes less than `limit` after the one before, the first after time `t`. */
  ghost predicate Punctual(starts: seq<Start>, t: int, limit: int) {
    && (forall p: nat, q: nat :: Successive(starts, p, q) ==> starts[q].at < starts[p].at + limit)
    && (forall q: nat :: IsFirst(starts, q) ==> starts[q].at < t + limit)
  }

  /** What the table remembers is the latest start, or the start of the run. */
  ghost predicate Remembered(a: Args, w: World, t: int)
    requires Sized(a, w)
  {
    && (forall p: nat :: p < |w.starts| ==> w.starts[p].coder < a.n)
    && (forall p: nat :: IsLatest(w.starts, p) ==> w.starts[p].at == w.st.coders[w.starts[p].coder].lastStart)
    && (forall i: nat :: i < a.n && NeverStarted(w.starts, i) ==> w.st.coders[i].lastStart == t)
  }

  /** The coder served is the one whose latest start the deadline counts from. */
  lemma StartMeetsDeadline(a: Args, w: World, e: Event)
    requires Sized(a, w) && Control(a, w) && Enabled(a, w, e) && e.Award?
    ensures e.g.deadlineRead < w.st.coders[e.g.coder].lastStart + a.burnout
  {
    assert ControlAt(a, w, e.g.coder);
  }

  lemma OneMoreStart(starts: seq<Start>, s: Start, t: int, limit: int, last: int)
    requires Punctual(starts, t, limit) && s.at < last + limit
    requires forall p: nat :: IsLatest(starts, p) && starts[p].coder == s.coder ==> starts[p].at == last
    requires NeverStarted(starts, s.coder) ==> last == t
    ensures Punctual(starts + [s], t, limit)
  {
    var more := starts + [s];
    forall p: nat, q: nat | Successive(more, p, q) ensures more[q].at < more[p].at + limit {
      assert forall m: nat :: p < m < q ==> !SameCoder(more, p, m);
      if q == |starts| {
        assert forall m: nat :: p < m < |starts| ==> (SameCoder(starts, p, m) <==> SameCoder(more, p, m));
        assert IsLatest(starts, p);
      } else {
        assert forall m: nat :: p < m < q ==> (SameCoder(starts, p, m) <==> SameCoder(more, p, m));
        assert Successive(starts, p, q);
      }
    }
    forall q: nat | IsFirst(more, q) ensures more[q].at < t + limit {
      if q == |starts| {
        forall m: nat | m < |starts| ensures starts[m].coder != s.coder { assert !SameCoder(more, m, q); }
        assert NeverStarted(starts, s.coder);
      } else {
        forall m: nat | m < q ensures !SameCoder(starts, m, q) { assert !SameCoder(more, m, q); }
        assert IsFirst(starts, q);
      }
    }
  }

  lemma RememberedAward(a: Args, w: World, e: Event, t: int)
    requires Sized(a, w) && Remembered(a, w, t) && Enabled(a, w, e) && e.Award?
    ensures Remembered(a, Apply(a, w, e), t)
  {
    var r, k := Apply(a, w, e), |w.starts|;
    assert r.starts == w.starts + [Start(e.g.coder, e.g.start)];
    forall p: nat | IsLatest(r.starts, p)
      ensures r.starts[p].at == r.st.coders[r.starts[p].coder].lastStart {
      if p < k {
        assert !SameCoder(r.starts, p, k);
        forall m: nat | p < m < k ensures !SameCoder(w.starts, p, m) { assert !SameCoder(r.starts, p, m); }
        assert IsLatest(w.starts, p);
      }
    }
    forall i: nat | i < a.n && NeverStarted(r.starts, i) ensures r.st.coders[i].lastStart == t {
      assert r.starts[k].coder != i;
      forall m: nat | m < k ensures w.starts[m].coder != i { assert r.starts[m].coder != i; }
      assert NeverStarted(w.starts, i);
    }
  }

  lemma RememberedQuiet(a: Args, w: World, e: Event, t: int)
    requires Sized(a, w) && Remembered(a, w, t) && Enabled(a, w, e) && !e.Award?
    ensures Remembered(a, Apply(a, w, e), t) && Apply(a, w, e).starts == w.starts
  {
    var r := Apply(a, w, e);
    assert r.starts == w.starts;
    assert forall i: nat :: i < a.n ==> r.st.coders[i].lastStart == w.st.coders[i].lastStart;
  }

  /** In every run whose grants take at most `delay`, successive starts of a coder are less
      than time_to_burnout plus `delay` apart, and so is its first from the start of the run.
      With the clock standing still during each grant no deadline is missed by a start. */
  lemma {:induction false} StartsArePunctual(a: Args, t: int, es: seq<Event>, delay: nat)
    requires 2 <= a.n && Legal(a, Init(a, t), es) && Prompt(es, delay)
    ensures Punctual(Reach(a, Init(a, t), es).starts, t, a.burnout + delay)
    ensures Remembered(a, Reach(a, Init(a, t), es), t)
    decreases |es|
  {
    if es != [] {
      var k := |es| - 1;
      StartsArePunctual(a, t, es[..k], delay);
      StartsSound(a, t);
      StaysSound(a, Init(a, t), es[..k]);
      PunctualStep(a, Reach(a, Init(a, t), es[..k]), es[k], t, delay);
    }
  }

  lemma PunctualStep(a: Args, w: World, e: Event, t: int, delay: nat)
    requires Sized(a, w) && Control(a, w) && Enabled(a, w, e) && Remembered(a, w, t)
    requires Punctual(w.starts, t, a.burnout + delay)
    requires e.Award? ==> e.g.start <= e.g.deadlineRead + delay
    ensures Punctual(Apply(a, w, e).starts, t, a.burnout + delay) && Remembered(a, Apply(a, w, e), t)
  {
    if e.Award? {
      StartMeetsDeadline(a, w, e);
      RememberedAward(a, w, e, t);
      OneMoreStart(w.starts, Start(e.g.coder, e.g.start), t, a.burnout + delay, w.st.coders[e.g.coder].lastStart);
    } else {
      RememberedQuiet(a, w, e, t);
    }
  }
}
