// What the scans of a run leave behind: nobody they could have served.
module Scans {
  import opened Table
  import opened Dispatch
  import opened Runs
  import opened Ownership

  /** A pass that has served nobody has passed over the coders it has looked at only for being
      past their deadlines, as far as they were ready and best when it began. */
  ghost predicate ScanAt(a: Args, w: World, i: nat)
    requires Sized(a, w) && i < a.n
  {
    w.pcs[i].Dispatching? ==>
      var scan := w.pcs[i].scan;
      && scan.next <= a.n && scan.passStart <= w.now && (scan.next == a.n ==> !scan.changed)
      && (!scan.changed ==> PassedOver(a, w.st, scan.next, scan.passStart, w.now))
  }

  ghost predicate Scanned(a: Args, w: World)
    requires Sized(a, w)
  {
    forall i: nat :: i < a.n ==> ScanAt(a, w, i)
  }

  lemma PassedOverLater(a: Args, s: State, r: State, m: nat, from: int, now: int, later: int)
    requires Shape(a, s) && Shape(a, r) && m <= a.n && now <= later
    requires r.coders == s.coders && r.dongles == s.dongles && PassedOver(a, s, m, from, now)
    ensures PassedOver(a, r, m, from, later)
  {
    forall i: nat | i < m && ReadyAndBest(a, r, i, from) ensures !Unexpired(a, r, i, later) {
      assert forall j: nat :: j < a.n ==> (Blocks(a, r, j, i) <==> Blocks(a, s, j, i));
      assert ReadyAndBest(a, s, i, from);
    }
  }

  /** Failing the test later than the pass began, the coder was not ready and best then, or it
      is past its deadline now. */
  lemma SkippedIsPassedOver(a: Args, s: State, now: int, g: Grant, from: int)
    requires Shape(a, s) && Skipped(a, s, now, g) && g.coder < a.n && from <= now
    requires PassedOver(a, s, g.coder, from, now)
    ensures PassedOver(a, s, g.coder + 1, from, g.start)
  {
  }

  lemma ScanAtLook(a: Args, w: World, e: Event)
    requires Sized(a, w) && Enabled(a, w, e) && (e.Award? || e.Skip?) && ScanAt(a, w, e.i)
    ensures ScanAt(a, Apply(a, w, e), e.i)
  {
    if e.Skip? && !w.pcs[e.i].scan.changed {
      SkippedIsPassedOver(a, w.st, w.now, e.g, w.pcs[e.i].scan.passStart);
    }
  }

  /** While `i` scans nobody else touches the table. */
  lemma TableStays(a: Args, w: World, e: Event, i: nat)
    requires Sized(a, w) && Control(a, w) && Enabled(a, w, e) && i < a.n && w.pcs[i].Dispatching?
    requires !OfCoder(e, i)
    ensures var r := Apply(a, w, e); r.st == w.st && w.now <= r.now && r.pcs[i] == w.pcs[i]
  {
    assert ControlAt(a, w, i);
    PlaceStays(a, w, e, i);
    if !e.Tick? && !OfMonitor(e) && e.i < a.n { assert ControlAt(a, w, e.i); }
  }

  lemma ScanBegins(a: Args, w: World, e: Event, i: nat)
    requires Sized(a, w) && Enabled(a, w, e) && i < a.n && !w.pcs[i].Dispatching?
    ensures ScanAt(a, Apply(a, w, e), i)
  {
    if !OfCoder(e, i) && !w.pcs[i].Asleep? { PlaceStays(a, w, e, i); }
  }

  lemma ScannedKept(a: Args, w: World, e: Event)
    requires Sized(a, w) && Control(a, w) && Scanned(a, w) && Enabled(a, w, e)
    ensures Scanned(a, Apply(a, w, e))
  {
    var r := Apply(a, w, e);
    forall i: nat | i < a.n ensures ScanAt(a, r, i) {
      assert ScanAt(a, w, i);
      if !w.pcs[i].Dispatching? {
        ScanBegins(a, w, e, i);
      } else if OfCoder(e, i) {
        if e.Award? || e.Skip? { ScanAtLook(a, w, e); }
      } else {
        TableStays(a, w, e, i);
        var scan := w.pcs[i].scan;
        if !scan.changed { PassedOverLater(a, w.st, r.st, scan.next, scan.passStart, w.now, r.now); }
      }
    }
  }

  lemma {:induction false} StaysScanned(a: Args, w: World, es: seq<Event>)
    requires Sized(a, w) && Sound(a, w) && Scanned(a, w) && Legal(a, w, es)
    ensures Scanned(a, Reach(a, w, es))
    decreases |es|
  {
    if es != [] {
      var k := |es| - 1;
      StaysScanned(a, w, es[..k]);
      StaysSound(a, w, es[..k]);
      ScannedKept(a, Reach(a, w, es[..k]), es[k]);
    }
  }

  lemma RunsAreScanned(a: Args, w: World)
    requires Reachable(a, w)
    ensures Sized(a, w) && Scanned(a, w)
  {
    var t: int, es: seq<Event> :| Legal(a, Init(a, t), es) && Reach(a, Init(a, t), es) == w;
    StartsSound(a, t);
    StaysScanned(a, Init(a, t), es);
  }

  /** In every run a coder leaves its dispatch only when nobody is left behind: whoever was ready
      and best when the last pass began is past its deadline. */
  lemma NobodyLeftBehind(a: Args, w: World, e: Event)
    requires Reachable(a, w) && Sized(a, w) && Enabled(a, w, e) && (e.Return? || e.Sleep?)
    ensures var from := w.pcs[e.i].scan.passStart;
      from <= w.now && forall k: nat :: k < a.n && ReadyAndBest(a, w.st, k, from) ==> !Unexpired(a, w.st, k, w.now)
  {
    RunsAreScanned(a, w);
    assert ScanAt(a, w, e.i);
  }

  // ---------------------------------------------------------------------- the last pass

  /** Nothing has been reserved since a pass began that has served nobody yet. */
  ghost predicate Fruitless(a: Args, w: World)
    requires Sized(a, w)
  {
    && (forall p :: 0 <= p < |w.starts| ==> w.starts[p].at <= w.now)
    && (forall i: nat, p :: i < a.n && 0 <= p < |w.starts| && w.pcs[i].Dispatching? && !w.pcs[i].scan.changed ==>
          w.starts[p].at <= w.pcs[i].scan.passStart)
  }

  lemma FruitlessAward(a: Args, w: World, e: Event)
    requires Sized(a, w) && Control(a, w) && Fruitless(a, w) && Enabled(a, w, e) && e.Award?
    ensures Fruitless(a, Apply(a, w, e))
  {
    var r := Apply(a, w, e);
    assert r.starts == w.starts + [Start(e.g.coder, e.g.start)] && r.now == e.g.start;
    assert ControlAt(a, w, e.i);
    forall i: nat | i < a.n && i != e.i ensures !r.pcs[i].Dispatching? { assert ControlAt(a, w, i); }
  }

  lemma FruitlessQuiet(a: Args, w: World, e: Event)
    requires Sized(a, w) && Fruitless(a, w) && Enabled(a, w, e) && !e.Award?
    ensures Fruitless(a, Apply(a, w, e))
  {
    var r := Apply(a, w, e);
    assert r.starts == w.starts && w.now <= r.now;
    forall i: nat, p | i < a.n && 0 <= p < |r.starts| && r.pcs[i].Dispatching? && !r.pcs[i].scan.changed
      ensures r.starts[p].at <= r.pcs[i].scan.passStart {
      ScanOrigin(a, w, e, i);
    }
  }

  /** A pass that has served nobody goes on as it was, or begins now. */
  lemma ScanOrigin(a: Args, w: World, e: Event, i: nat)
    requires Sized(a, w) && Enabled(a, w, e) && !e.Award? && i < a.n
    requires Apply(a, w, e).pcs[i].Dispatching? && !Apply(a, w, e).pcs[i].scan.changed
    ensures var r := Apply(a, w, e);
      || r.pcs[i].scan.passStart == r.now
      || (w.pcs[i].Dispatching? && !w.pcs[i].scan.changed && r.pcs[i].scan.passStart == w.pcs[i].scan.passStart)
  {
    if !OfCoder(e, i) && !w.pcs[i].Asleep? { PlaceStays(a, w, e, i); }
  }

  lemma {:induction false} StaysFruitless(a: Args, w: World, es: seq<Event>)
    requires Sized(a, w) && Sound(a, w) && Fruitless(a, w) && Legal(a, w, es)
    ensures Fruitless(a, Reach(a, w, es))
    decreases |es|
  {
    if es != [] {
      var k := |es| - 1;
      StaysFruitless(a, w, es[..k]);
      StaysSound(a, w, es[..k]);
      if es[k].Award? { FruitlessAward(a, Reach(a, w, es[..k]), es[k]); }
      else { FruitlessQuiet(a, Reach(a, w, es[..k]), es[k]); }
    }
  }

  /** The pass that ends a dispatch began after everything it, or anybody before it, reserved. */
  lemma LastPassIsLast(a: Args, w: World, i: nat, p: nat)
    requires Reachable(a, w) && Sized(a, w) && i < a.n && Exhausted(a, w.pcs[i]) && p < |w.starts|
    ensures w.starts[p].at <= w.pcs[i].scan.passStart
  {
    RunsAreScanned(a, w);
    assert ScanAt(a, w, i);
    var t: int, es: seq<Event> :| Legal(a, Init(a, t), es) && Reach(a, Init(a, t), es) == w;
    StartsSound(a, t);
    StaysFruitless(a, Init(a, t), es);
  }
}
