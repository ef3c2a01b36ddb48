// The pace of a single coder: compile, debug, refactor.
module Cycle {
  import opened Table
  import opened Runs
  import opened Ownership

  /** One round of a coder, from one compile to the next. */
  function Round(a: Args): nat {
    a.compile + a.debug + a.refactor
  }

  /** How far the coder has come since its latest start, unless the run has been stopped. */
  ghost predicate PaceAt(a: Args, w: World, i: nat)
    requires Sized(a, w) && i < a.n
  {
    var from := w.st.coders[i].lastStart;
    w.st.stop ||
    match w.pcs[i]
    case Compiling(until) => from + a.compile <= until
    case Releasing(at) => from + a.compile <= at <= w.now
    case Released => from + a.compile <= w.now
    case Counting => from + a.compile <= w.now
    case Debugging(until) => from + a.compile + a.debug <= until
    case Refactoring(until) => from + Round(a) <= until
    case Reporting => true
    case Exited => true
    case _ => (InQueue(w.pcs[i]) && !w.st.coders[i].waiting) || w.started[i] == 0 || from + Round(a) <= w.now
  }

  /** The coder's earlier starts are no later than its latest. */
  ghost predicate PastAt(a: Args, w: World, i: nat)
    requires Sized(a, w) && i < a.n
  {
    forall p :: 0 <= p < |w.starts| && w.starts[p].coder == i ==>
                  w.started[i] > 0 && w.starts[p].at <= w.st.coders[i].lastStart
  }

  ghost predicate Paced(starts: seq<Start>, gap: nat) {
    forall p, q :: 0 <= p < q < |starts| && starts[p].coder == starts[q].coder ==> starts[p].at + gap <= starts[q].at
  }

  ghost predicate Rhythm(a: Args, w: World)
    requires Sized(a, w)
  {
    && (forall i: nat :: i < a.n ==> w.st.coders[i].lastStart <= w.now)
    && (forall i: nat :: i < a.n ==> PaceAt(a, w, i) && PastAt(a, w, i))
    && Paced(w.starts, Round(a))
  }

  lemma PaceLocal(a: Args, w: World, e: Event, i: nat)
    requires Sized(a, w) && Enabled(a, w, e) && Local(e) && i < a.n && PaceAt(a, w, i)
    ensures PaceAt(a, Apply(a, w, e), i)
  {
    assert Apply(a, w, e).st == w.st && Apply(a, w, e).started == w.started;
  }

  lemma PaceInside(a: Args, w: World, e: Event, i: nat)
    requires Sized(a, w) && Enabled(a, w, e) && i < a.n && PaceAt(a, w, i) && ControlAt(a, w, i)
    requires w.st.coders[i].lastStart <= w.now
    requires e.Enter? || e.Wake? || e.GiveUp? || e.Return? || e.Sleep?
    ensures PaceAt(a, Apply(a, w, e), i)
  {
    assert Apply(a, w, e).started == w.started;
  }

  lemma PaceAward(a: Args, w: World, e: Event, i: nat)
    requires Sized(a, w) && Enabled(a, w, e) && e.Award? && i < a.n && PaceAt(a, w, i) && ControlAt(a, w, i)
    ensures PaceAt(a, Apply(a, w, e), i)
  {
  }

  lemma PaceOutside(a: Args, w: World, e: Event, i: nat)
    requires Sized(a, w) && Enabled(a, w, e) && i < a.n && PaceAt(a, w, i)
    requires e.GiveBack? || e.Finish? || e.SetStop? || e.Convict?
    ensures PaceAt(a, Apply(a, w, e), i)
  {
  }

  lemma PaceKept(a: Args, w: World, e: Event, i: nat)
    requires Sized(a, w) && Sound(a, w) && Rhythm(a, w) && Enabled(a, w, e) && i < a.n
    ensures PaceAt(a, Apply(a, w, e), i)
  {
    assert ControlAt(a, w, i) && PaceAt(a, w, i);
    if Local(e) { PaceLocal(a, w, e, i); }
    else if e.Award? { PaceAward(a, w, e, i); }
    else if e.Enter? || e.Wake? || e.GiveUp? || e.Return? || e.Sleep? { PaceInside(a, w, e, i); }
    else { PaceOutside(a, w, e, i); }
  }

  lemma PastKept(a: Args, w: World, e: Event, i: nat)
    requires Sized(a, w) && Rhythm(a, w) && Enabled(a, w, e) && i < a.n
    ensures PastAt(a, Apply(a, w, e), i)
    ensures Apply(a, w, e).st.coders[i].lastStart <= Apply(a, w, e).now
  {
    assert PastAt(a, w, i);
    if !e.Award? {
      var r := Apply(a, w, e);
      assert r.starts == w.starts && r.started == w.started;
      assert r.st.coders[i].lastStart == w.st.coders[i].lastStart;
    }
  }

  lemma PacedKept(a: Args, w: World, e: Event)
    requires Sized(a, w) && Sound(a, w) && Rhythm(a, w) && Enabled(a, w, e)
    ensures Paced(Apply(a, w, e).starts, Round(a))
  {
    if e.Award? {
      assert ControlAt(a, w, e.i) && ControlAt(a, w, e.g.coder);
      assert PaceAt(a, w, e.g.coder) && PastAt(a, w, e.g.coder);
    } else {
      assert Apply(a, w, e).starts == w.starts;
    }
  }

  lemma RhythmKept(a: Args, w: World, e: Event)
    requires Sized(a, w) && Sound(a, w) && Rhythm(a, w) && Enabled(a, w, e)
    ensures Rhythm(a, Apply(a, w, e))
  {
    PacedKept(a, w, e);
    var r := Apply(a, w, e);
    forall i: nat | i < a.n ensures PaceAt(a, r, i) && PastAt(a, r, i) && r.st.coders[i].lastStart <= r.now {
      PaceKept(a, w, e, i);
      PastKept(a, w, e, i);
    }
  }

  lemma {:induction false} StaysInRhythm(a: Args, w: World, es: seq<Event>)
    requires Sized(a, w) && Sound(a, w) && Rhythm(a, w) && Legal(a, w, es)
    ensures Rhythm(a, Reach(a, w, es))
    decreases |es|
  {
    if es != [] {
      var k := |es| - 1;
      StaysInRhythm(a, w, es[..k]);
      StaysSound(a, w, es[..k]);
      RhythmKept(a, Reach(a, w, es[..k]), es[k]);
    }
  }

  /** Two compiles of one coder start at least one whole round apart: compiling, debugging and
      refactoring. */
  lemma RoundSpacing(a: Args, w: World, p: nat, q: nat)
    requires Reachable(a, w) && p < q < |w.starts| && w.starts[p].coder == w.starts[q].coder
    ensures w.starts[p].at + a.compile + a.debug + a.refactor <= w.starts[q].at
  {
    var t: int, es: seq<Event> :| Legal(a, Init(a, t), es) && Reach(a, Init(a, t), es) == w;
    StartsSound(a, t);
    StaysInRhythm(a, Init(a, t), es);
  }
}
