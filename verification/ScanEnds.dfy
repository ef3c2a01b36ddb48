// A dispatch under way can always be brought to its end, the clock standing still.
module ScanEnds {
  import opened Table
  import opened Dispatch
  import opened Runs

  /** The scan of coder `i` goes on: it looks at the next coder. */
  predicate IsLook(e: Event, i: nat) {
    (e.Award? || e.Skip?) && e.i == i
  }

  ghost predicate AreLooks(es: seq<Event>, i: nat) {
    forall k :: 0 <= k < |es| ==> IsLook(es[k], i)
  }

  /** The look at the next coder, all readings at the present time. */
  function NextLook(a: Args, w: World, i: nat): Event
    requires Sized(a, w) && i < a.n && w.pcs[i].Dispatching? && w.pcs[i].scan.next < a.n
  {
    var g := Grant(w.pcs[i].scan.next, w.now, w.now, w.now, w.now);
    if Chosen(a, w.st, g) then Award(i, g) else Skip(i, g)
  }

  /** What is left to do: coders to serve, passes, and looks of this pass. */
  ghost predicate Closer(a: Args, w: World, r: World, i: nat)
    requires Sized(a, w) && Sized(a, r) && i < a.n && w.pcs[i].Dispatching? && r.pcs[i].Dispatching?
  {
    var (v, x, y) := (|Waiters(a, r.st)|, w.pcs[i].scan, r.pcs[i].scan);
    || v < |Waiters(a, w.st)|
    || (v == |Waiters(a, w.st)| && x.changed && !y.changed)
    || (v == |Waiters(a, w.st)| && x.changed == y.changed && x.next < y.next)
  }

  /** Scanning on changes no other place, keeps grants, and lets no time pass. */
  ghost predicate ScannedOn(a: Args, w: World, r: World, i: nat)
    requires Sized(a, w) && Sized(a, r) && i < a.n
  {
    && r.pcs[i].Dispatching? && r.pcs[i].scan.next <= a.n && r.now == w.now && r.mutex == w.mutex
    && (forall k: nat :: k < a.n && w.st.coders[k].granted ==> r.st.coders[k].granted)
  }

  lemma LookOnce(a: Args, w: World, i: nat)
    requires Sized(a, w) && i < a.n && w.pcs[i].Dispatching? && w.pcs[i].scan.next < a.n
    ensures Enabled(a, w, NextLook(a, w, i))
    ensures var r := Apply(a, w, NextLook(a, w, i)); ScannedOn(a, w, r, i) && Closer(a, w, r, i)
  {
    var e := NextLook(a, w, i);
    if e.Award? { FewerWaiters(a, w.st, e.g.coder, e.g.start); }
  }

  /** However the table looks, finitely many looks at a standing clock exhaust the scan. */
  lemma {:induction false} ScanFinishes(a: Args, w: World, i: nat) returns (es: seq<Event>)
    requires Sized(a, w) && i < a.n && w.pcs[i].Dispatching? && w.pcs[i].scan.next <= a.n
    ensures AreLooks(es, i) && Legal(a, w, es)
    ensures var r := Reach(a, w, es); ScannedOn(a, w, r, i) && Exhausted(a, r.pcs[i])
    decreases |Waiters(a, w.st)|, w.pcs[i].scan.changed, a.n - w.pcs[i].scan.next
  {
    es := [];
    if w.pcs[i].scan.next < a.n {
      var e := NextLook(a, w, i);
      LookOnce(a, w, i);
      var rest := ScanFinishes(a, Apply(a, w, e), i);
      OneStep(a, w, e);
      Join(a, w, [e], rest);
      es := [e] + rest;
    }
  }
}
