// With the clock standing still: the scan-order loop, the priority rule and a single walk
// in priority order all pick the same winners.
module Priority {
  import opened Requests
  import opened Ring
  import opened Table
  import opened Dispatch

  // ------------------------------------------------------ an exhausted chain solves the rule

  lemma {:induction false} FrozenWinnersClaim(a: Args, s: State, now: int, gs: seq<Grant>)
    requires Shape(a, s) && Chain(a, s, now, gs) && Clock(now, gs) == now
    ensures forall i :: i in Winners(gs) ==> Claimable(a, s, i, now)
    ensures forall i :: i in Winners(gs) ==> After(a, s, gs).coders[i].lastStart == now
    decreases |gs|
  {
    if gs != [] {
      var k := |gs| - 1;
      ClockAdvances(a, s, now, gs[..k]);
      FrozenWinnersClaim(a, s, now, gs[..k]);
      ChainEffect(a, s, now, gs[..k]);
      WinnersSnoc(gs);
    }
  }

  lemma {:induction false} ClockAdvances(a: Args, s: State, now: int, gs: seq<Grant>)
    requires Shape(a, s) && Chain(a, s, now, gs)
    ensures now <= Clock(now, gs)
    decreases |gs|
  {
    if gs != [] { ClockAdvances(a, s, now, gs[..|gs| - 1]); }
  }

  lemma ExhaustedChainSolves(a: Args, s: State, now: int, gs: seq<Grant>)
    requires Shape(a, s) && Sequenced(a, s) && Chain(a, s, now, gs) && Clock(now, gs) == now
    requires Stable(a, After(a, s, gs), now)
    ensures Solution(a, s, now, Winners(gs))
  {
    var group, r := Winners(gs), After(a, s, gs);
    ChainEffect(a, s, now, gs);
    ChainIsFair(a, s, now, gs);
    FrozenWinnersClaim(a, s, now, gs);
    forall i: nat ensures i in group <==> Deserves(a, s, now, group, i) {
      if i in group { WinnersDeserve(a, s, now, group, i); }
      if Deserves(a, s, now, group, i) { DeservingWins(a, s, now, group, r, i); }
    }
  }

  lemma WinnersDeserve(a: Args, s: State, now: int, group: set<nat>, i: nat)
    requires Shape(a, s) && Compatible(a, s, group) && FairTo(a, s, group, i)
    requires i in group && Claimable(a, s, i, now)
    ensures Deserves(a, s, now, group, i)
  {
  }

  lemma DeservingWins(a: Args, s: State, now: int, group: set<nat>, r: State, i: nat)
    requires Shape(a, s) && Sequenced(a, s) && Compatible(a, s, group) && Fair(a, s, group)
    requires Granted(a, s, group, r) && Stable(a, r, now)
    requires Deserves(a, s, now, group, i)
    ensures i in group
  {
    if i !in group {
      assert !Beaten(a, s, group, i);
      assert PairAvailable(a, r, i) by {
        if !PairAvailable(a, r, i) {
          var k := TakenBySome(a, s, group, r, i);
        }
      }
      forall j: nat | j < a.n ensures !Blocks(a, r, j, i) {
        if Blocks(a, r, j, i) {
          assert Rival(a, s, j, i) && OutOfTheWay(a, s, group, j);
          var k :| k in group && Rival(a, s, k, j);
          FreePairIsApart(a, s, group, r, j);
        }
      }
      assert Eligible(a, r, i, now);
    }
  }

  // ------------------------------------------------------------- the walk in priority order

  ghost predicate Ordered(a: Args, s: State, order: seq<nat>)
    requires Shape(a, s)
  {
    && (forall k :: 0 <= k < |order| ==> Waiting(a, s, order[k]))
    && (forall k, m :: 0 <= k < m < |order| ==> Before(a, s, order[k], order[m]))
  }

  ghost predicate Enumerates(a: Args, s: State, order: seq<nat>)
    requires Shape(a, s)
  {
    Ordered(a, s, order) && forall i: nat :: Waiting(a, s, i) ==> i in order
  }

  /** Serve the waiting coders from first to last: skip one that has lost a dongle, grant one
      that can be served, and otherwise keep its free pair for it. */
  ghost function Walk(a: Args, s: State, now: int, order: seq<nat>): (r: (set<nat>, set<nat>))
    requires Shape(a, s) && Ordered(a, s, order)
    decreases |order|
  {
    if order == [] then ({}, {}) else
      var k := |order| - 1;
      var (group, kept) := Walk(a, s, now, order[..k]);
      Serve(a, s, now, group, kept, order[k])
  }

  ghost function Serve(a: Args, s: State, now: int, group: set<nat>, kept: set<nat>, i: nat): (set<nat>, set<nat>)
    requires Shape(a, s) && i < a.n
  {
    if !PairAvailable(a, s, i) || Dongles(group, a.n) * Pair(i, a.n) != {} then (group, kept)
    else if Claimable(a, s, i, now) && kept * Pair(i, a.n) == {} then (group + {i}, kept)
    else (group, kept + Pair(i, a.n))
  }

  /** `j` still has its pair to itself after the walk reached it. */
  ghost predicate Keeps(a: Args, s: State, group: set<nat>, j: nat)
    requires Shape(a, s)
  {
    Waiting(a, s, j) && j !in group && PairAvailable(a, s, j) && !Beaten(a, s, group, j)
  }

  ghost predicate Guarded(a: Args, s: State, order: seq<nat>, group: set<nat>, d: nat)
    requires Shape(a, s)
  {
    exists j :: j in order && Keeps(a, s, group, j) && d in Pair(j, a.n)
  }

  ghost predicate Settled(a: Args, s: State, now: int, group: set<nat>, i: nat)
    requires Shape(a, s)
  {
    i in group <==> Deserves(a, s, now, group, i)
  }

  ghost predicate Guards(a: Args, s: State, group: set<nat>, kept: set<nat>, j: nat)
    requires Shape(a, s)
  {
    Keeps(a, s, group, j) ==> Pair(j, a.n) <= kept
  }

  ghost predicate Walked(a: Args, s: State, now: int, order: seq<nat>, group: set<nat>, kept: set<nat>)
    requires Shape(a, s) && Ordered(a, s, order)
  {
    && (forall i :: i in group ==> i in order)
    && (forall i :: i in order ==> Settled(a, s, now, group, i))
    && (forall j :: j in order ==> Guards(a, s, group, kept, j))
    && (forall d :: d in kept ==> Guarded(a, s, order, group, d))
  }

  lemma LaterIsHarmless(a: Args, s: State, order: seq<nat>, group: set<nat>, i: nat, j: nat)
    requires Shape(a, s) && Ordered(a, s, order) && order != [] && i == order[|order| - 1]
    requires j in order[..|order| - 1]
    ensures !Before(a, s, i, j) && i != j && !Rival(a, s, i, j) && Before(a, s, j, i)
    ensures Beaten(a, s, group + {i}, j) <==> Beaten(a, s, group, j)
  {
    var k :| 0 <= k < |order| - 1 && order[k] == j;
    BeforeIsStrictOrder(a.policy, s.coders[j].request, s.coders[i].request, s.coders[j].request);
    if Beaten(a, s, group, j) { BeatenGrows(a, s, group, group + {i}, j); }
  }

  /** Everything that precedes a walked coder has been walked. */
  ghost predicate Downward(a: Args, s: State, order: seq<nat>)
    requires Shape(a, s)
  {
    forall i, j :: i in order && Waiting(a, s, i) && Waiting(a, s, j) && Before(a, s, j, i) ==> j in order
  }

  lemma {:induction false} WalkSolves(a: Args, s: State, now: int, order: seq<nat>)
    requires Shape(a, s) && Ordered(a, s, order) && Downward(a, s, order)
    ensures Walked(a, s, now, order, Walk(a, s, now, order).0, Walk(a, s, now, order).1)
    decreases |order|
  {
    if order != [] {
      var k := |order| - 1;
      PrefixDownward(a, s, order);
      WalkSolves(a, s, now, order[..k]);
      var (group, kept) := Walk(a, s, now, order[..k]);
      WalkStep(a, s, now, order, group, kept);
    }
  }

  lemma PrefixDownward(a: Args, s: State, order: seq<nat>)
    requires Shape(a, s) && Ordered(a, s, order) && Downward(a, s, order) && order != []
    ensures Downward(a, s, order[..|order| - 1])
  {
    var k := |order| - 1;
    var p := order[..k];
    forall i: nat, j: nat | i in p && Waiting(a, s, i) && Waiting(a, s, j) && Before(a, s, j, i) ensures j in p {
      var m :| 0 <= m < k && p[m] == i;
      assert order[m] == i;
      var q :| 0 <= q < |order| && order[q] == j;
      BeforeIsStrictOrder(a.policy, s.coders[j].request, s.coders[i].request, s.coders[j].request);
      assert q != k;
      assert p[q] == j;
    }
  }

  lemma SnocMembers(order: seq<nat>)
    requires order != []
    ensures forall j :: j in order <==> j in order[..|order| - 1] || j == order[|order| - 1]
  {
    assert order == order[..|order| - 1] + [order[|order| - 1]];
  }

  lemma WalkStep(a: Args, s: State, now: int, order: seq<nat>, group: set<nat>, kept: set<nat>)
    requires Shape(a, s) && Ordered(a, s, order) && Downward(a, s, order) && order != []
    requires Walked(a, s, now, order[..|order| - 1], group, kept)
    ensures var (more, held) := Serve(a, s, now, group, kept, order[|order| - 1]);
            Walked(a, s, now, order, more, held)
  {
    var p, i := order[..|order| - 1], order[|order| - 1];
    var (more, held) := Serve(a, s, now, group, kept, i);
    SnocMembers(order);
    LastVerdict(a, s, now, order, group, kept);
    forall j | j in order ensures Settled(a, s, now, more, j) && Guards(a, s, more, held, j) {
      if j in p { EarlierSettled(a, s, now, order, group, kept, j); }
    }
    forall d | d in held ensures Guarded(a, s, order, more, d) {
      GuardsRemain(a, s, now, order, group, kept, d);
    }
  }

  lemma EarlierSettled(a: Args, s: State, now: int, order: seq<nat>, group: set<nat>, kept: set<nat>, j: nat)
    requires Shape(a, s) && Ordered(a, s, order) && Downward(a, s, order) && order != []
    requires j in order[..|order| - 1] && Settled(a, s, now, group, j) && Guards(a, s, group, kept, j)
    ensures var (more, held) := Serve(a, s, now, group, kept, order[|order| - 1]);
            Settled(a, s, now, more, j) && Guards(a, s, more, held, j)
  {
    var (more, held) := Serve(a, s, now, group, kept, order[|order| - 1]);
    EarlierUnmoved(a, s, now, order, group, more, j);
  }

  lemma EarlierUnmoved(a: Args, s: State, now: int, order: seq<nat>, group: set<nat>, more: set<nat>, j: nat)
    requires Shape(a, s) && Ordered(a, s, order) && Downward(a, s, order) && order != []
    requires j in order[..|order| - 1]
    requires more == group || more == group + {order[|order| - 1]}
    ensures Settled(a, s, now, group, j) <==> Settled(a, s, now, more, j)
    ensures Keeps(a, s, more, j) <==> Keeps(a, s, group, j)
  {
    LaterIsHarmless(a, s, order, group, order[|order| - 1], j);
    DeservesSame(a, s, now, order, group, more, j);
  }

  lemma GuardsRemain(a: Args, s: State, now: int, order: seq<nat>, group: set<nat>, kept: set<nat>, d: nat)
    requires Shape(a, s) && Ordered(a, s, order) && Downward(a, s, order) && order != []
    requires forall j :: j in group ==> j in order[..|order| - 1]
    requires d in kept ==> Guarded(a, s, order[..|order| - 1], group, d)
    requires d in Serve(a, s, now, group, kept, order[|order| - 1]).1
    ensures Guarded(a, s, order, Serve(a, s, now, group, kept, order[|order| - 1]).0, d)
  {
    var p, i := order[..|order| - 1], order[|order| - 1];
    var more := Serve(a, s, now, group, kept, i).0;
    SnocMembers(order);
    if d in kept {
      var j :| j in p && Keeps(a, s, group, j) && d in Pair(j, a.n);
      EarlierUnmoved(a, s, now, order, group, more, j);
      assert j in order && Keeps(a, s, more, j);
    } else {
      BeatenIsLoss(a, s, order, group, i);
      LastIsLast(a, s, order);
      assert i in order && Keeps(a, s, more, i);
    }
  }

  lemma LastIsLast(a: Args, s: State, order: seq<nat>)
    requires Shape(a, s) && Ordered(a, s, order) && Downward(a, s, order) && order != []
    ensures var p, i := order[..|order| - 1], order[|order| - 1];
            && Waiting(a, s, i) && i !in p
            && (forall j :: j in p ==> Waiting(a, s, j) && Before(a, s, j, i))
            && (forall j :: Rival(a, s, j, i) ==> j in p)
  {
    var p, i := order[..|order| - 1], order[|order| - 1];
    assert order == p + [i];
    BeforeIsStrictOrder(a.policy, s.coders[i].request, s.coders[i].request, s.coders[i].request);
    forall j | j in p ensures Waiting(a, s, j) && Before(a, s, j, i) {
      LaterIsHarmless(a, s, order, {}, i, j);
    }
  }

  lemma LastVerdict(a: Args, s: State, now: int, order: seq<nat>, group: set<nat>, kept: set<nat>)
    requires Shape(a, s) && Ordered(a, s, order) && Downward(a, s, order) && order != []
    requires Walked(a, s, now, order[..|order| - 1], group, kept)
    ensures var i := order[|order| - 1];
            var (more, held) := Serve(a, s, now, group, kept, i);
            Settled(a, s, now, more, i) && Guards(a, s, more, held, i)
  {
    var p, i := order[..|order| - 1], order[|order| - 1];
    var (more, held) := Serve(a, s, now, group, kept, i);
    LastIsLast(a, s, order);
    BeatenIsLoss(a, s, order, group, i);
    LastUnmoved(a, s, now, order, group, more);
    if Beaten(a, s, group, i) {
      BeatenLoses(a, s, now, group, i);
    } else if kept * Pair(i, a.n) == {} {
      ClearPath(a, s, p, group, kept, i);
    } else {
      MeetsKept(a, s, p, group, kept, i);
    }
  }

  lemma LastUnmoved(a: Args, s: State, now: int, order: seq<nat>, group: set<nat>, more: set<nat>)
    requires Shape(a, s) && Ordered(a, s, order) && Downward(a, s, order) && order != []
    requires more == group || more == group + {order[|order| - 1]}
    ensures Deserves(a, s, now, more, order[|order| - 1]) <==> Deserves(a, s, now, group, order[|order| - 1])
  {
    var i := order[|order| - 1];
    LastIsLast(a, s, order);
    forall j | Rival(a, s, j, i) ensures OutOfTheWay(a, s, more, j) <==> OutOfTheWay(a, s, group, j) {
      LaterIsHarmless(a, s, order, group, i, j);
    }
  }

  lemma BeatenLoses(a: Args, s: State, now: int, group: set<nat>, i: nat)
    requires Shape(a, s) && Beaten(a, s, group, i)
    ensures !Deserves(a, s, now, group, i)
  {
    var k :| k in group && Rival(a, s, k, i);
    assert !OutOfTheWay(a, s, group, k);
  }

  /** The last coder of the order has lost a dongle to the winners so far exactly when one
      of its rivals won. */
  lemma BeatenIsLoss(a: Args, s: State, order: seq<nat>, group: set<nat>, i: nat)
    requires Shape(a, s) && Ordered(a, s, order) && order != [] && i == order[|order| - 1]
    requires forall j :: j in group ==> j in order[..|order| - 1]
    ensures Beaten(a, s, group, i) <==> Dongles(group, a.n) * Pair(i, a.n) != {}
  {
    var p := order[..|order| - 1];
    if Beaten(a, s, group, i) {
      var j :| j in group && Rival(a, s, j, i);
      OverlapIsSharing(j, i, a.n);
      var d :| d in Pair(j, a.n) * Pair(i, a.n);
      assert d in Dongles(group, a.n) * Pair(i, a.n);
    }
    if Dongles(group, a.n) * Pair(i, a.n) != {} {
      var d :| d in Dongles(group, a.n) * Pair(i, a.n);
      var j := if d in group then d else Prev(d, a.n);
      LaterIsHarmless(a, s, order, group, i, j);
      assert d in Pair(j, a.n) * Pair(i, a.n);
      OverlapIsSharing(j, i, a.n);
      assert Rival(a, s, j, i);
    }
  }

  lemma DeservesSame(a: Args, s: State, now: int, order: seq<nat>, group: set<nat>, more: set<nat>, j: nat)
    requires Shape(a, s) && Ordered(a, s, order) && Downward(a, s, order) && order != []
    requires j in order[..|order| - 1]
    requires more == group || more == group + {order[|order| - 1]}
    ensures Deserves(a, s, now, more, j) <==> Deserves(a, s, now, group, j)
  {
    var p, i := order[..|order| - 1], order[|order| - 1];
    PrefixDownward(a, s, order);
    forall m | Rival(a, s, m, j)
      ensures OutOfTheWay(a, s, more, m) <==> OutOfTheWay(a, s, group, m) {
      assert m in p;
      LaterIsHarmless(a, s, order, group, i, m);
    }
  }

  /** A kept dongle of `i` is kept by a rival that is in its way. */
  lemma KeptByRival(a: Args, s: State, p: seq<nat>, group: set<nat>, d: nat, i: nat) returns (j: nat)
    requires Shape(a, s) && Waiting(a, s, i) && i !in p
    requires forall j :: j in p ==> Waiting(a, s, j) && Before(a, s, j, i)
    requires d in Pair(i, a.n) && Guarded(a, s, p, group, d)
    ensures Rival(a, s, j, i) && !OutOfTheWay(a, s, group, j)
  {
    j :| j in p && Keeps(a, s, group, j) && d in Pair(j, a.n);
    assert d in Pair(j, a.n) * Pair(i, a.n);
    OverlapIsSharing(j, i, a.n);
  }

  lemma RivalKeeps(a: Args, s: State, p: seq<nat>, group: set<nat>, kept: set<nat>, i: nat, j: nat)
    requires Shape(a, s) && Rival(a, s, j, i) && j in p && !Beaten(a, s, group, i)
    requires Guards(a, s, group, kept, j)
    requires kept * Pair(i, a.n) == {}
    ensures OutOfTheWay(a, s, group, j)
  {
    OverlapIsSharing(j, i, a.n);
  }

  lemma ClearPath(a: Args, s: State, p: seq<nat>, group: set<nat>, kept: set<nat>, i: nat)
    requires Shape(a, s) && i < a.n && !Beaten(a, s, group, i) && kept * Pair(i, a.n) == {}
    requires forall j :: Rival(a, s, j, i) ==> j in p
    requires forall j :: j in p ==> Guards(a, s, group, kept, j)
    ensures forall j :: Rival(a, s, j, i) ==> OutOfTheWay(a, s, group, j)
  {
    forall j | Rival(a, s, j, i) ensures OutOfTheWay(a, s, group, j) {
      RivalKeeps(a, s, p, group, kept, i, j);
    }
  }

  lemma MeetsKept(a: Args, s: State, p: seq<nat>, group: set<nat>, kept: set<nat>, i: nat)
    requires Shape(a, s) && Waiting(a, s, i) && i !in p && kept * Pair(i, a.n) != {}
    requires forall j :: j in p ==> Waiting(a, s, j) && Before(a, s, j, i)
    requires forall d :: d in kept ==> Guarded(a, s, p, group, d)
    ensures !forall j :: Rival(a, s, j, i) ==> OutOfTheWay(a, s, group, j)
  {
    var d :| d in kept * Pair(i, a.n);
    var j := KeptByRival(a, s, p, group, d, i);
  }

  // ------------------------------------------------------------------ the order itself

  ghost function Insert(a: Args, s: State, i: nat, order: seq<nat>): (r: seq<nat>)
    requires Shape(a, s) && Sequenced(a, s) && Ordered(a, s, order) && Waiting(a, s, i) && i !in order
    ensures Ordered(a, s, r) && forall j :: j in r <==> j == i || j in order
    decreases |order|
  {
    if order == [] then [i] else
      var k := |order| - 1;
      SnocMembers(order);
      BeforeIsStrictOrder(a.policy, s.coders[order[k]].request, s.coders[i].request, s.coders[i].request);
      if Before(a, s, order[k], i) then
        InsertLast(a, s, i, order); order + [i]
      else
        var front := Insert(a, s, i, order[..k]);
        InsertBelow(a, s, i, order, front); front + [order[k]]
  }

  lemma InsertLast(a: Args, s: State, i: nat, order: seq<nat>)
    requires Shape(a, s) && Ordered(a, s, order) && Waiting(a, s, i) && order != []
    requires Before(a, s, order[|order| - 1], i)
    ensures Ordered(a, s, order + [i])
  {
    forall k | 0 <= k < |order| ensures Before(a, s, order[k], i) {
      if k < |order| - 1 {
        var last := order[|order| - 1];
        BeforeIsStrictOrder(a.policy, s.coders[order[k]].request, s.coders[last].request, s.coders[i].request);
      }
    }
  }

  lemma InsertBelow(a: Args, s: State, i: nat, order: seq<nat>, front: seq<nat>)
    requires Shape(a, s) && Ordered(a, s, order) && Waiting(a, s, i) && order != []
    requires Ordered(a, s, front) && forall j :: j in front <==> j == i || j in order[..|order| - 1]
    requires Before(a, s, i, order[|order| - 1])
    ensures Ordered(a, s, front + [order[|order| - 1]])
  {
    var last := order[|order| - 1];
    forall k | 0 <= k < |front| ensures Before(a, s, front[k], last) {
      assert front[k] in front;
      if front[k] != i {
        var m :| 0 <= m < |order| - 1 && order[m] == front[k];
      }
    }
  }

  /** The waiting coders among the first `m`, by priority. */
  ghost function Queue(a: Args, s: State, m: nat): (order: seq<nat>)
    requires Shape(a, s) && Sequenced(a, s) && m <= a.n
    ensures Ordered(a, s, order)
    ensures forall i: nat :: i in order <==> i < m && Waiting(a, s, i)
  {
    if m == 0 then [] else
      var order := Queue(a, s, m - 1);
      if Waiting(a, s, m - 1) then Insert(a, s, m - 1, order) else order
  }

  // ------------------------------------------------------------------ the main results

  ghost function Grants(a: Args, s: State, group: set<nat>, now: int): (r: State)
    requires Shape(a, s)
  {
    s.(coders := seq(a.n, i requires 0 <= i < a.n =>
                       if i in group then s.coders[i].(lastStart := now, waiting := false, granted := true)
                       else s.coders[i]),
       dongles := seq(a.n, d requires 0 <= d < a.n =>
                        s.dongles[d].(available := s.dongles[d].available && d !in Dongles(group, a.n))))
  }

  /** The reference: one walk over the waiting coders in priority order. */
  ghost function PriorityDispatch(a: Args, s: State, now: int): State
    requires Shape(a, s) && Sequenced(a, s)
  {
    Grants(a, s, Walk(a, s, now, Queue(a, s, a.n)).0, now)
  }

  lemma WalkIsTheSolution(a: Args, s: State, now: int, order: seq<nat>)
    requires Shape(a, s) && Enumerates(a, s, order)
    ensures Solution(a, s, now, Walk(a, s, now, order).0)
  {
    var group := Walk(a, s, now, order).0;
    WalkSolves(a, s, now, order);
    forall i: nat ensures i in group <==> Deserves(a, s, now, group, i) {
      if i in order {
        assert Settled(a, s, now, group, i);
      }
    }
  }

  /** Whatever the scan order, an exhausted chain of grants at a standing clock ends in the
      state the walk in priority order produces. */
  lemma DispatchFollowsPriority(a: Args, s: State, now: int, gs: seq<Grant>)
    requires Shape(a, s) && Sequenced(a, s) && Chain(a, s, now, gs) && Clock(now, gs) == now
    requires Stable(a, After(a, s, gs), now)
    ensures Solution(a, s, now, Winners(gs))
    ensures After(a, s, gs) == PriorityDispatch(a, s, now)
  {
    var order := Queue(a, s, a.n);
    ExhaustedChainSolves(a, s, now, gs);
    WalkIsTheSolution(a, s, now, order);
    SolutionIsUnique(a, s, now, Winners(gs), Walk(a, s, now, order).0);
    ChainEffect(a, s, now, gs);
    FrozenWinnersClaim(a, s, now, gs);
    SameOutcome(a, s, Winners(gs), After(a, s, gs), now);
  }

  lemma SameOutcome(a: Args, s: State, group: set<nat>, r: State, now: int)
    requires Shape(a, s) && Granted(a, s, group, r)
    requires forall i: nat :: i in group && i < a.n ==> r.coders[i].lastStart == now
    ensures r == Grants(a, s, group, now)
  {
    var e := Grants(a, s, group, now);
    assert r.coders == e.coders;
    assert r.dongles == e.dongles;
  }

  /** Two dispatches that start alike end alike, however they scanned the coders. */
  lemma ScanOrderIsIrrelevant(a: Args, s: State, now: int, gs: seq<Grant>, hs: seq<Grant>)
    requires Shape(a, s) && Sequenced(a, s)
    requires Chain(a, s, now, gs) && Clock(now, gs) == now && Stable(a, After(a, s, gs), now)
    requires Chain(a, s, now, hs) && Clock(now, hs) == now && Stable(a, After(a, s, hs), now)
    ensures After(a, s, gs) == After(a, s, hs) && Winners(gs) == Winners(hs)
  {
    DispatchFollowsPriority(a, s, now, gs);
    DispatchFollowsPriority(a, s, now, hs);
    SolutionIsUnique(a, s, now, Winners(gs), Winners(hs));
  }
}
