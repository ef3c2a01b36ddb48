// What an exhausted dispatch leaves behind, and how many coders it serves.
module Progress {
  import opened Ring
  import opened Table
  import opened Dispatch

  /** A waiter that passing time or its own deadline keeps from being served. */
  predicate CoolingOrExpired(a: Args, s: State, i: nat, now: int)
    requires Shape(a, s) && i < a.n
  {
    PairAvailable(a, s, i) && (!PairReady(a, s, i, now) || !Unexpired(a, s, i, now))
  }

  /** Each coder of the line is blocked by the next: it overlaps it, precedes it, and waits
      with a free pair of its own. */
  ghost predicate BlockedLine(a: Args, s: State, line: seq<nat>)
    requires Shape(a, s)
  {
    && line != []
    && (forall k :: 0 <= k < |line| ==> Waiting(a, s, line[k]) && PairAvailable(a, s, line[k]))
    && (forall k :: 0 <= k < |line| - 1 ==> Blocks(a, s, line[k + 1], line[k]))
  }

  /** No circular waiting: the line of blockers of a waiter with a free pair is finite and
      ends in a coder that is cooling or expired. */
  lemma {:induction false} WaitingIsNotCircular(a: Args, s: State, now: int, i: nat) returns (line: seq<nat>)
    requires Shape(a, s) && Stable(a, s, now)
    requires Waiting(a, s, i) && PairAvailable(a, s, i)
    ensures BlockedLine(a, s, line) && line[0] == i
    ensures CoolingOrExpired(a, s, line[|line| - 1], now)
    decreases Superiors(a, s, i)
  {
    if CoolingOrExpired(a, s, i, now) {
      line := [i];
    } else {
      assert !Eligible(a, s, i, now);
      var j: nat :| j < a.n && Blocks(a, s, j, i);
      SuperiorsShrink(a, s, j, i);
      var rest := WaitingIsNotCircular(a, s, now, j);
      line := [i] + rest;
      forall k | 0 <= k < |line| - 1 ensures Blocks(a, s, line[k + 1], line[k]) {
        if k > 0 { assert line[k] == rest[k - 1] && line[k + 1] == rest[k]; }
      }
    }
  }

  /** When nobody is cooling or expired, every remaining waiter misses a dongle that is
      held; when moreover nothing is held, nobody is left waiting. */
  lemma OnlyHeldDonglesKeepWaiting(a: Args, s: State, now: int)
    requires Shape(a, s) && Stable(a, s, now)
    requires forall i: nat :: i < a.n && Waiting(a, s, i) ==> !CoolingOrExpired(a, s, i, now)
    ensures forall i: nat :: i < a.n && Waiting(a, s, i) ==> !PairAvailable(a, s, i)
    ensures (forall d: nat :: d < a.n ==> s.dongles[d].available)
              ==> forall i: nat :: i < a.n ==> !Waiting(a, s, i)
  {
    forall i: nat | i < a.n && Waiting(a, s, i) ensures !PairAvailable(a, s, i) {
      if PairAvailable(a, s, i) {
        var line := WaitingIsNotCircular(a, s, now, i);
      }
    }
  }

  /** Unexpired, waiting with a free pair, and not served. */
  predicate LeftWaiting(a: Args, s: State, i: nat, now: int)
    requires Shape(a, s)
  {
    Waiting(a, s, i) && PairAvailable(a, s, i) && Unexpired(a, s, i, now)
  }

  /** A coder past its deadline keeps `i` from being served. */
  ghost predicate KeptByExpired(a: Args, s: State, i: nat, now: int)
    requires Shape(a, s)
  {
    LeftWaiting(a, s, i, now) && exists j: nat :: j < a.n && Blocks(a, s, j, i) && !Unexpired(a, s, j, now)
  }

  /** With nobody cooling, an exhausted dispatch leaves an unexpired waiter with a free pair
      exactly when a waiter past its deadline keeps such a waiter from being served. */
  lemma OnlyExpiredKeepWaiting(a: Args, s: State, now: int)
    requires Shape(a, s) && Stable(a, s, now)
    requires forall i: nat :: Waiting(a, s, i) && PairAvailable(a, s, i) ==> PairReady(a, s, i, now)
    ensures (exists i: nat :: LeftWaiting(a, s, i, now)) <==> (exists i: nat :: KeptByExpired(a, s, i, now))
  {
    if i: nat :| LeftWaiting(a, s, i, now) {
      var line := WaitingIsNotCircular(a, s, now, i);
      var k := FirstExpired(a, s, line, now);
      assert Blocks(a, s, line[k], line[k - 1]);
      assert KeptByExpired(a, s, line[k - 1], now);
    }
    if i: nat :| KeptByExpired(a, s, i, now) {
      assert LeftWaiting(a, s, i, now);
    }
  }

  lemma {:induction false} FirstExpired(a: Args, s: State, line: seq<nat>, now: int) returns (k: nat)
    requires Shape(a, s) && BlockedLine(a, s, line) && Unexpired(a, s, line[0], now)
    requires !Unexpired(a, s, line[|line| - 1], now)
    ensures 0 < k < |line| && LeftWaiting(a, s, line[k - 1], now) && !Unexpired(a, s, line[k], now)
  {
    k := 1;
    while Unexpired(a, s, line[k], now)
      invariant 0 < k < |line| && LeftWaiting(a, s, line[k - 1], now)
      decreases |line| - k
    {
      k := k + 1;
    }
  }

  ghost predicate FullTable(a: Args, s: State, now: int)
    requires Shape(a, s)
  {
    && (forall i: nat :: i < a.n ==> Waiting(a, s, i) && Unexpired(a, s, i, now))
    && (forall d: nat :: d < a.n ==> DongleReady(a, s.dongles[d], now))
  }

  /** From a full table with everything ready, a dispatch serves at least a third and at
      most half of the coders. */
  lemma FullTableBounds(a: Args, s: State, now: int, gs: seq<Grant>)
    requires 2 <= a.n && Shape(a, s) && FullTable(a, s, now)
    requires Chain(a, s, now, gs) && Clock(now, gs) == now && Stable(a, After(a, s, gs), now)
    ensures (a.n + 2) / 3 <= |Winners(gs)| <= a.n / 2
  {
    var group, r := Winners(gs), After(a, s, gs);
    ChainEffect(a, s, now, gs);
    IndependentAtMostHalf(group, a.n);
    forall i: nat | i < a.n && Waiting(a, r, i) ensures !CoolingOrExpired(a, r, i, now) {
      assert DongleReady(a, s.dongles[i], now) && DongleReady(a, s.dongles[Next(i, a.n)], now);
      assert Unexpired(a, s, i, now);
    }
    OnlyHeldDonglesKeepWaiting(a, r, now);
    forall i: nat | i < a.n ensures Reaches(group, i, a.n) {
      assert Waiting(a, s, i) && DongleReady(a, s.dongles[i], now) && DongleReady(a, s.dongles[Next(i, a.n)], now);
      if i in group {
        assert Overlap(i, i, a.n);
      } else {
        assert Waiting(a, r, i);
        var k := TakenBySome(a, s, group, r, i);
      }
    }
    DominatingAtLeastThird(group, a.n);
  }

  /** Also while the clock runs: a waiter nobody blocks, whose pair is ready when the last pass
      begins and whose deadline has not passed when the dispatch ends, is among the winners. */
  lemma ReadyIsServed(a: Args, s: State, now: int, gs: seq<Grant>, passStart: int, end: int, i: nat)
    requires Shape(a, s) && Sequenced(a, s) && Chain(a, s, now, gs)
    requires PassedOver(a, After(a, s, gs), a.n, passStart, end)
    requires ReadyAndBest(a, s, i, passStart) && Unexpired(a, s, i, end)
    ensures i in Winners(gs)
  {
    var group, r := Winners(gs), After(a, s, gs);
    ChainEffect(a, s, now, gs);
    ChainIsFair(a, s, now, gs);
    if i !in group {
      if PairAvailable(a, r, i) {
        assert forall j: nat :: j < a.n && Blocks(a, r, j, i) ==> Blocks(a, s, j, i);
        assert ReadyAndBest(a, r, i, passStart);
      } else {
        var k := TakenBySome(a, s, group, r, i);
        assert FairlyLost(a, s, group, i);
        var j :| j in group && Rival(a, s, j, i);
        assert Blocks(a, s, j, i);
      }
    }
  }

  /** A coder nobody blocks, whose pair has cooled and whose deadline has not passed, is
      among the winners of every exhausted dispatch at a standing clock. */
  lemma UnblockedIsServed(a: Args, s: State, now: int, gs: seq<Grant>, i: nat)
    requires Shape(a, s) && Sequenced(a, s) && Eligible(a, s, i, now)
    requires Chain(a, s, now, gs) && Clock(now, gs) == now && Stable(a, After(a, s, gs), now)
    ensures i in Winners(gs)
  {
    var r := After(a, s, gs);
    forall k: nat | k < a.n && ReadyAndBest(a, r, k, now) ensures !Unexpired(a, r, k, now) {
      assert !Eligible(a, r, k, now);
    }
    ReadyIsServed(a, s, now, gs, now, now, i);
  }
}
