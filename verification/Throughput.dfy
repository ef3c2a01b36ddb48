// How often pairs are reserved, over every run.
module Throughput {
  import opened Ring
  import opened Table
  import opened Options
  import opened Runs
  import opened Ownership

  /** Each reservation is for a coder, and none lies in the future. */
  ghost predicate Dated(a: Args, w: World)
    requires Sized(a, w)
  {
    && (forall p :: 0 <= p < |w.starts| ==> w.starts[p].coder < a.n && w.starts[p].at <= w.now)
    && (forall p, q :: 0 <= p < q < |w.starts| ==> w.starts[p].at <= w.starts[q].at)
    && (forall i: nat :: i < a.n ==> w.st.coders[i].lastStart <= w.now)
  }

  /** How far the latest compile of coder `i` has come. */
  ghost predicate PhaseAt(a: Args, w: World, i: nat)
    requires Sized(a, w) && i < a.n
  {
    var from := w.st.coders[i].lastStart;
    match w.pcs[i]
    case Compiling(until) => from + a.compile <= until
    case Releasing(at) => w.st.stop || from + a.compile <= at
    case _ => true
  }

  /** After the reservation at `p`, dongle `d` is still taken by a coder that started no
      earlier, or it cools until at least one compile and one cooldown later, or the run has
      been stopped. */
  ghost predicate RestedSince(a: Args, w: World, d: nat, p: nat)
    requires Sized(a, w) && d < a.n && p < |w.starts|
  {
    if w.owner[d].Some? then
      w.owner[d].value < a.n && w.starts[p].at <= w.st.coders[w.owner[d].value].lastStart
    else
      w.st.stop || w.starts[p].at + a.compile + a.cooldown <= w.st.dongles[d].releasedAt + a.cooldown
  }

  ghost predicate Rested(a: Args, w: World)
    requires Sized(a, w) && Dated(a, w)
  {
    forall d: nat, p: nat :: d < a.n && p < |w.starts| && d in Pair(w.starts[p].coder, a.n) ==> RestedSince(a, w, d, p)
  }

  /** Reservations that share a dongle are at least `gap` apart. */
  ghost predicate Spaced(n: nat, starts: seq<Start>, gap: int)
    requires forall p :: 0 <= p < |starts| ==> starts[p].coder < n
  {
    forall p, q :: 0 <= p < q < |starts| && Overlap(starts[p].coder, starts[q].coder, n)
      ==> starts[p].at + gap <= starts[q].at
  }

  ghost predicate Timely(a: Args, w: World)
    requires Sized(a, w)
  {
    && Dated(a, w)
    && (forall i: nat :: i < a.n ==> PhaseAt(a, w, i))
    && Rested(a, w)
    && Spaced(a.n, w.starts, a.compile + a.cooldown)
  }

  lemma DatedKept(a: Args, w: World, e: Event)
    requires Sized(a, w) && Dated(a, w) && Enabled(a, w, e)
    ensures Dated(a, Apply(a, w, e))
  {
    var r := Apply(a, w, e);
    if !e.Award? {
      assert r.starts == w.starts && w.now <= r.now;
      assert forall i: nat :: i < a.n ==> r.st.coders[i].lastStart == w.st.coders[i].lastStart;
    }
  }

  lemma PhaseLocal(a: Args, w: World, e: Event, i: nat)
    requires Sized(a, w) && Dated(a, w) && Enabled(a, w, e) && i < a.n && PhaseAt(a, w, i) && Local(e)
    ensures PhaseAt(a, Apply(a, w, e), i)
  {
    assert Apply(a, w, e).st == w.st;
  }

  lemma PhaseAward(a: Args, w: World, e: Event, i: nat)
    requires Sized(a, w) && Enabled(a, w, e) && i < a.n && PhaseAt(a, w, i) && ControlAt(a, w, i) && e.Award?
    ensures PhaseAt(a, Apply(a, w, e), i)
  {
  }

  lemma PhaseInside(a: Args, w: World, e: Event, i: nat)
    requires Sized(a, w) && Dated(a, w) && Enabled(a, w, e) && i < a.n && PhaseAt(a, w, i)
    requires e.Enter? || e.Wake? || e.GiveUp? || e.Return? || e.Sleep?
    ensures PhaseAt(a, Apply(a, w, e), i)
  {
    assert Apply(a, w, e).st.coders[i].lastStart == w.st.coders[i].lastStart;
  }

  lemma PhaseOther(a: Args, w: World, e: Event, i: nat)
    requires Sized(a, w) && Dated(a, w) && Enabled(a, w, e) && i < a.n && PhaseAt(a, w, i)
    requires e.GiveBack? || e.Finish? || e.SetStop? || e.Convict?
    ensures PhaseAt(a, Apply(a, w, e), i)
  {
    assert Apply(a, w, e).st.coders[i].lastStart == w.st.coders[i].lastStart;
    assert w.st.stop ==> Apply(a, w, e).st.stop;
  }

  lemma PhaseKept(a: Args, w: World, e: Event, i: nat)
    requires Sized(a, w) && Sound(a, w) && Dated(a, w) && Enabled(a, w, e) && i < a.n && PhaseAt(a, w, i)
    ensures PhaseAt(a, Apply(a, w, e), i)
  {
    assert ControlAt(a, w, i);
    if Local(e) { PhaseLocal(a, w, e, i); }
    else if e.Award? { PhaseAward(a, w, e, i); }
    else if e.Enter? || e.Wake? || e.GiveUp? || e.Return? || e.Sleep? { PhaseInside(a, w, e, i); }
    else { PhaseOther(a, w, e, i); }
  }

  lemma RestedKept(a: Args, w: World, e: Event)
    requires Sized(a, w) && Sound(a, w) && Timely(a, w) && Enabled(a, w, e)
    ensures Dated(a, Apply(a, w, e)) && Rested(a, Apply(a, w, e))
  {
    DatedKept(a, w, e);
    var r := Apply(a, w, e);
    forall d: nat, p: nat | d < a.n && p < |r.starts| && d in Pair(r.starts[p].coder, a.n)
      ensures RestedSince(a, r, d, p) {
      RestedSinceKept(a, w, e, d, p);
    }
  }

  lemma RestedSinceKept(a: Args, w: World, e: Event, d: nat, p: nat)
    requires Sized(a, w) && Sound(a, w) && Timely(a, w) && Enabled(a, w, e) && d < a.n
    requires p < |Apply(a, w, e).starts| && Apply(a, w, e).starts[p].coder < a.n
    requires d in Pair(Apply(a, w, e).starts[p].coder, a.n)
    ensures RestedSince(a, Apply(a, w, e), d, p)
  {
    match e {
      case Award(_, g) => AwardRested(a, w, e, d, p);
      case GiveBack(i) => GiveBackRested(a, w, e, d, p);
      case _ => QuietRested(a, w, e, d, p);
    }
  }

  lemma QuietRested(a: Args, w: World, e: Event, d: nat, p: nat)
    requires Sized(a, w) && Enabled(a, w, e) && d < a.n && !e.Award? && !e.GiveBack?
    requires p < |w.starts| && RestedSince(a, w, d, p)
    ensures p < |Apply(a, w, e).starts| && RestedSince(a, Apply(a, w, e), d, p)
  {
    var r := Apply(a, w, e);
    assert r.owner == w.owner && r.st.dongles == w.st.dongles && r.starts == w.starts;
    assert forall i: nat :: i < a.n ==> r.st.coders[i].lastStart == w.st.coders[i].lastStart;
  }

  lemma AwardRested(a: Args, w: World, e: Event, d: nat, p: nat)
    requires Sized(a, w) && Sound(a, w) && Timely(a, w) && Enabled(a, w, e) && d < a.n && e.Award?
    requires p <= |w.starts| && Apply(a, w, e).starts[p].coder < a.n
    requires d in Pair(Apply(a, w, e).starts[p].coder, a.n)
    ensures RestedSince(a, Apply(a, w, e), d, p)
  {
    var r, j := Apply(a, w, e), e.g.coder;
    PairChange(a, w, j, Some(j), r.owner);
    if p < |w.starts| {
      assert RestedSince(a, w, d, p);
      if d !in Pair(j, a.n) && w.owner[d].Some? {
        assert OwnerAt(a, w, d);
        OwnershipOfOthers(a, w, j, w.owner[d].value);
      }
    }
  }

  lemma GiveBackRested(a: Args, w: World, e: Event, d: nat, p: nat)
    requires Sized(a, w) && Sound(a, w) && Timely(a, w) && Enabled(a, w, e) && d < a.n && e.GiveBack?
    requires p < |w.starts| && d in Pair(w.starts[p].coder, a.n)
    ensures RestedSince(a, Apply(a, w, e), d, p)
  {
    var r := Apply(a, w, e);
    assert RestedSince(a, w, d, p) && HoldAt(a, w, e.i) && PhaseAt(a, w, e.i);
    PairChange(a, w, e.i, None, r.owner);
  }

  lemma SpacedKept(a: Args, w: World, e: Event)
    requires Sized(a, w) && Sound(a, w) && Timely(a, w) && Enabled(a, w, e)
    ensures DatedCoders(a, Apply(a, w, e))
    ensures Spaced(a.n, Apply(a, w, e).starts, a.compile + a.cooldown)
  {
    var r := Apply(a, w, e);
    DatedKept(a, w, e);
    if e.Award? {
      var j := e.g.coder;
      assert ControlAt(a, w, e.i);
      forall p: nat | p < |w.starts| && Overlap(w.starts[p].coder, j, a.n)
        ensures w.starts[p].at + a.compile + a.cooldown <= e.g.start {
        OverlapIsSharing(w.starts[p].coder, j, a.n);
        var d :| d in Pair(w.starts[p].coder, a.n) * Pair(j, a.n);
        assert RestedSince(a, w, d, p) && OwnerAt(a, w, d);
      }
    }
  }

  ghost predicate DatedCoders(a: Args, w: World) {
    forall p :: 0 <= p < |w.starts| ==> w.starts[p].coder < a.n
  }

  lemma TimelyKept(a: Args, w: World, e: Event)
    requires Sized(a, w) && Sound(a, w) && Timely(a, w) && Enabled(a, w, e)
    ensures Timely(a, Apply(a, w, e))
  {
    RestedKept(a, w, e);
    SpacedKept(a, w, e);
    forall i: nat | i < a.n ensures PhaseAt(a, Apply(a, w, e), i) { PhaseKept(a, w, e, i); }
  }

  lemma {:induction false} StaysTimely(a: Args, w: World, es: seq<Event>)
    requires Sized(a, w) && Sound(a, w) && Timely(a, w) && Legal(a, w, es)
    ensures Timely(a, Reach(a, w, es))
    decreases |es|
  {
    if es != [] {
      var k := |es| - 1;
      StaysTimely(a, w, es[..k]);
      StaysSound(a, w, es[..k]);
      TimelyKept(a, Reach(a, w, es[..k]), es[k]);
    }
  }

  lemma RunsAreTimely(a: Args, w: World)
    requires Reachable(a, w)
    ensures Sized(a, w) && Timely(a, w)
  {
    var t: int, es: seq<Event> :| Legal(a, Init(a, t), es) && Reach(a, Init(a, t), es) == w;
    StartsSound(a, t);
    StaysTimely(a, Init(a, t), es);
  }

  // ---------------------------------------------------------------------- counting

  /** The reservations made at a time from `from` up to but excluding `to`. */
  ghost function Within(starts: seq<Start>, from: int, to: int): (s: set<nat>)
    ensures forall p: nat :: p in s <==> p < |starts| && from <= starts[p].at < to
  {
    set p: nat | p < |starts| && from <= starts[p].at < to
  }

  ghost function CodersOf(starts: seq<Start>, ps: set<nat>): (s: set<nat>)
    requires forall p :: p in ps ==> p < |starts|
    ensures forall i :: i in s <==> exists p :: p in ps && starts[p].coder == i
  {
    set p | p in ps :: starts[p].coder
  }

  lemma {:induction false} DistinctCoders(starts: seq<Start>, ps: set<nat>)
    requires forall p :: p in ps ==> p < |starts|
    requires forall p, q :: p in ps && q in ps && p != q ==> starts[p].coder != starts[q].coder
    ensures |CodersOf(starts, ps)| == |ps|
    decreases |ps|
  {
    if ps == {} {
      assert CodersOf(starts, ps) == {};
    } else {
      var p :| p in ps;
      var rest := ps - {p};
      DistinctCoders(starts, rest);
      assert CodersOf(starts, ps) == CodersOf(starts, rest) + {starts[p].coder};
    }
  }

  /** Less than one gap long, a window sees pairwise compatible coders only. */
  lemma WindowBound(n: nat, starts: seq<Start>, gap: int, from: int)
    requires 2 <= n && gap > 0
    requires forall p :: 0 <= p < |starts| ==> starts[p].coder < n
    requires Spaced(n, starts, gap)
    ensures |Within(starts, from, from + gap)| <= n / 2
  {
    var ps := Within(starts, from, from + gap);
    forall p, q | p in ps && q in ps && p != q
      ensures !Overlap(starts[p].coder, starts[q].coder, n) {
      OverlapIsSharing(starts[p].coder, starts[q].coder, n);
    }
    DistinctCoders(starts, ps);
    IndependentAtMostHalf(CodersOf(starts, ps), n);
  }

  lemma LastWindow(windows: nat, x: int)
    requires windows > 0
    ensures windows * x == (windows - 1) * x + x
  {
  }

  lemma WindowsMeet(starts: seq<Start>, from: int, cut: int, to: int)
    requires from <= cut <= to
    ensures |Within(starts, from, to)| == |Within(starts, from, cut)| + |Within(starts, cut, to)|
  {
    var low, high := Within(starts, from, cut), Within(starts, cut, to);
    assert Within(starts, from, to) == low + high;
    assert low !! high;
  }

  lemma {:induction false} WindowsBound(n: nat, starts: seq<Start>, gap: int, from: int, windows: nat)
    requires 2 <= n && gap > 0
    requires forall p :: 0 <= p < |starts| ==> starts[p].coder < n
    requires Spaced(n, starts, gap)
    ensures |Within(starts, from, from + windows * gap)| <= windows * (n / 2)
    decreases windows
  {
    if windows == 0 {
      assert Within(starts, from, from) == {};
    } else {
      WindowsBound(n, starts, gap, from, windows - 1);
      LastWindow(windows, gap);
      LastWindow(windows, n / 2);
      var cut := from + (windows - 1) * gap;
      WindowBound(n, starts, gap, cut);
      assert 0 <= (windows - 1) * gap;
      WindowsMeet(starts, from, cut, cut + gap);
    }
  }

  lemma WindowsCover(span: nat, gap: nat)
    requires gap > 0
    ensures span + 1 <= (span / gap + 1) * gap
  {
    assert span == (span / gap) * gap + span % gap;
    LastWindow(span / gap + 1, gap);
  }

  /** How many compiles can start in an interval of length `span`: half of the coders for
      every gap begun. */
  function Quota(n: nat, gap: nat, span: nat): nat
    requires gap > 0
  {
    (span / gap + 1) * (n / 2)
  }

  lemma SpacingBoundsRate(n: nat, starts: seq<Start>, gap: nat, from: int, span: nat)
    requires 2 <= n && gap > 0
    requires forall p :: 0 <= p < |starts| ==> starts[p].coder < n
    requires Spaced(n, starts, gap)
    ensures |Within(starts, from, from + span + 1)| <= Quota(n, gap, span)
  {
    var windows := span / gap + 1;
    WindowsBound(n, starts, gap, from, windows);
    var reach := windows * gap;
    assert span + 1 <= reach by { WindowsCover(span, gap); }
    SubsetSize(Within(starts, from, from + span + 1), Within(starts, from, from + reach));
  }

  /** In any interval of length `span`, ends included, at most (n / 2) * (span / P + 1)
      compiles start, where P is one compile and one cooldown. */
  lemma ThroughputBound(a: Args, w: World, from: int, span: nat)
    requires Reachable(a, w) && a.compile + a.cooldown > 0
    ensures |Within(w.starts, from, from + span + 1)| <= (span / (a.compile + a.cooldown) + 1) * (a.n / 2)
  {
    RunsAreTimely(a, w);
    SpacingBoundsRate(a.n, w.starts, a.compile + a.cooldown, from, span);
  }

  ghost predicate Uses(n: nat, start: Start, d: nat) {
    start.coder < n && d in Pair(start.coder, n)
  }

  /** Successive reservations of one dongle are at least one compile and one cooldown apart. */
  lemma DongleSpacing(a: Args, w: World, d: nat, p: nat, q: nat)
    requires Reachable(a, w) && p < q < |w.starts| && Uses(a.n, w.starts[p], d) && Uses(a.n, w.starts[q], d)
    ensures w.starts[p].at + a.compile + a.cooldown <= w.starts[q].at
  {
    RunsAreTimely(a, w);
    assert d in Pair(w.starts[p].coder, a.n) * Pair(w.starts[q].coder, a.n);
    OverlapIsSharing(w.starts[p].coder, w.starts[q].coder, a.n);
  }
}
