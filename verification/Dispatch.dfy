// What a dispatch decides. A dispatch is a chain of grants, each allowed when it is made;
// with the clock standing still the chain's outcome does not depend on the order in which
// the coders are scanned.
module Dispatch {
  import opened Requests
  import opened Ring
  import opened Table

  /** One grant and the four clock readings it makes: for the deadline, for the left and
      for the right dongle, and for the start of the compile. */
  datatype Grant = Grant(coder: nat, deadlineRead: int, leftRead: int, rightRead: int, start: int)

  /** The test the scan makes of a coder, with the clock readings it makes. */
  predicate Chosen(a: Args, s: State, g: Grant)
    requires Shape(a, s)
  {
    && Waiting(a, s, g.coder)
    && Unexpired(a, s, g.coder, g.deadlineRead)
    && DongleReady(a, s.dongles[g.coder], g.leftRead)
    && DongleReady(a, s.dongles[Next(g.coder, a.n)], g.rightRead)
    && IsBest(a, s, g.coder)
  }

  predicate Allowed(a: Args, s: State, now: int, g: Grant)
    requires Shape(a, s)
  {
    now <= g.deadlineRead <= g.leftRead <= g.rightRead <= g.start && Chosen(a, s, g)
  }

  /** The test fails: the coder is passed over, and nothing is read for a start. */
  predicate Skipped(a: Args, s: State, now: int, g: Grant)
    requires Shape(a, s)
  {
    now <= g.deadlineRead <= g.leftRead <= g.rightRead == g.start && !Chosen(a, s, g)
  }

  /** Where the scan stands: the coder to look at next, whether this pass has served anybody,
      and when the pass began. */
  datatype Position = Position(next: nat, changed: bool, passStart: int)

  /** After looking at a coder: on to the next, or to another pass if this one served somebody. */
  function Onward(n: nat, at: Position, served: bool, now: int): Position {
    var changed := at.changed || served;
    if at.next + 1 < n then Position(at.next + 1, changed, at.passStart)
    else if changed then Position(0, false, now) else Position(at.next + 1, false, at.passStart)
  }

  /** A look at a coder, served or passed over. */
  datatype Look = Look(g: Grant, served: bool)

  /** What a dispatch has come to. */
  datatype Scan = Scan(st: State, now: int, at: Position)

  predicate LookAllowed(a: Args, scan: Scan, l: Look) {
    && Shape(a, scan.st) && l.g.coder == scan.at.next < a.n
    && if l.served then Allowed(a, scan.st, scan.now, l.g) else Skipped(a, scan.st, scan.now, l.g)
  }

  function AfterLook(a: Args, scan: Scan, l: Look): (r: Scan)
    requires LookAllowed(a, scan, l)
    ensures Shape(a, r.st)
  {
    Scan(if l.served then Reserve(a, scan.st, l.g.coder, l.g.start) else scan.st, l.g.start,
         Onward(a.n, scan.at, l.served, l.g.start))
  }

  /** A dispatch, look by look, in the order of the scan. */
  ghost predicate Looks(a: Args, scan: Scan, ls: seq<Look>)
    requires Shape(a, scan.st)
    decreases |ls|, 0
  {
    ls == [] ||
    var k := |ls| - 1;
    Looks(a, scan, ls[..k]) && LookAllowed(a, AfterLooks(a, scan, ls[..k]), ls[k])
  }

  ghost function AfterLooks(a: Args, scan: Scan, ls: seq<Look>): (r: Scan)
    requires Shape(a, scan.st) && Looks(a, scan, ls)
    ensures Shape(a, r.st)
    decreases |ls|, 1
  {
    if ls == [] then scan else
      var k := |ls| - 1;
      AfterLook(a, AfterLooks(a, scan, ls[..k]), ls[k])
  }

  lemma LooksSnoc(a: Args, scan: Scan, ls: seq<Look>, l: Look)
    requires Shape(a, scan.st) && Looks(a, scan, ls) && LookAllowed(a, AfterLooks(a, scan, ls), l)
    ensures Looks(a, scan, ls + [l])
    ensures AfterLooks(a, scan, ls + [l]) == AfterLook(a, AfterLooks(a, scan, ls), l)
  {
    assert (ls + [l])[..|ls|] == ls;
  }

  ghost predicate Chain(a: Args, s: State, now: int, gs: seq<Grant>)
    requires Shape(a, s)
    ensures Chain(a, s, now, gs) ==> forall k :: 0 <= k < |gs| ==> gs[k].coder < a.n
    decreases |gs|
  {
    gs == [] ||
    var k := |gs| - 1;
    && Chain(a, s, now, gs[..k])
    && Allowed(a, After(a, s, gs[..k]), Clock(now, gs[..k]), gs[k])
  }

  ghost function After(a: Args, s: State, gs: seq<Grant>): (r: State)
    requires Shape(a, s)
    requires forall k :: 0 <= k < |gs| ==> gs[k].coder < a.n
    ensures Shape(a, r)
    decreases |gs|
  {
    if gs == [] then s else
      var k := |gs| - 1;
      Reserve(a, After(a, s, gs[..k]), gs[k].coder, gs[k].start)
  }

  ghost function Clock(now: int, gs: seq<Grant>): int {
    if gs == [] then now else gs[|gs| - 1].start
  }

  ghost function Winners(gs: seq<Grant>): (w: set<nat>)
    ensures forall i :: i in w <==> exists k :: 0 <= k < |gs| && gs[k].coder == i
  {
    set k | 0 <= k < |gs| :: gs[k].coder
  }

  // ---------------------------------------------------------------- the declarative outcome

  ghost predicate Claimable(a: Args, s: State, i: nat, now: int)
    requires Shape(a, s)
  {
    Waiting(a, s, i) && Unexpired(a, s, i, now) && PairReady(a, s, i, now)
  }

  /** `j` overlaps and precedes `i`, and both wait. */
  ghost predicate Rival(a: Args, s: State, j: nat, i: nat)
    requires Shape(a, s)
  {
    Waiting(a, s, j) && Waiting(a, s, i) && j != i && Overlap(j, i, a.n) && Before(a, s, j, i)
  }

  /** Among the winners one precedes `j` and takes a dongle of it. */
  ghost predicate Beaten(a: Args, s: State, group: set<nat>, j: nat)
    requires Shape(a, s)
  {
    exists k :: k in group && Rival(a, s, k, j)
  }

  /** `j` stands aside for its later rivals without winning: one of its dongles is gone. */
  ghost predicate OutOfTheWay(a: Args, s: State, group: set<nat>, j: nat)
    requires Shape(a, s) && j < a.n
  {
    j !in group && (!PairAvailable(a, s, j) || Beaten(a, s, group, j))
  }

  ghost predicate Deserves(a: Args, s: State, now: int, group: set<nat>, i: nat)
    requires Shape(a, s)
  {
    Claimable(a, s, i, now) && forall j :: Rival(a, s, j, i) ==> OutOfTheWay(a, s, group, j)
  }

  /** The priority rule as an equation for the set of winners. */
  ghost predicate Solution(a: Args, s: State, now: int, group: set<nat>)
    requires Shape(a, s)
  {
    forall i: nat :: i in group <==> Deserves(a, s, now, group, i)
  }

  ghost function Superiors(a: Args, s: State, i: nat): set<nat>
    requires Shape(a, s)
  {
    set j: nat | j < a.n && Waiting(a, s, j) && Waiting(a, s, i) && Before(a, s, j, i)
  }

  lemma SuperiorsShrink(a: Args, s: State, j: nat, i: nat)
    requires Shape(a, s) && Waiting(a, s, j) && Waiting(a, s, i) && Before(a, s, j, i)
    ensures Superiors(a, s, j) < Superiors(a, s, i)
  {
    assert j in Superiors(a, s, i) && j !in Superiors(a, s, j);
    forall k | k in Superiors(a, s, j) ensures k in Superiors(a, s, i) {
      BeforeIsStrictOrder(a.policy, s.coders[k].request, s.coders[j].request, s.coders[i].request);
    }
  }

  lemma {:induction false} SolutionsAgree(a: Args, s: State, now: int, g: set<nat>, h: set<nat>, i: nat)
    requires Shape(a, s) && Solution(a, s, now, g) && Solution(a, s, now, h)
    ensures i in g <==> i in h
    decreases Superiors(a, s, i)
  {
    if Waiting(a, s, i) {
      forall j | Rival(a, s, j, i) ensures j in g <==> j in h {
        SuperiorsShrink(a, s, j, i);
        SolutionsAgree(a, s, now, g, h, j);
      }
      forall j | Rival(a, s, j, i) ensures Beaten(a, s, g, j) <==> Beaten(a, s, h, j) {
        SuperiorsShrink(a, s, j, i);
        forall k | Rival(a, s, k, j) ensures k in g <==> k in h {
          SuperiorsShrink(a, s, k, j);
          SolutionsAgree(a, s, now, g, h, k);
        }
      }
      assert Deserves(a, s, now, g, i) <==> Deserves(a, s, now, h, i);
    }
  }

  /** The priority rule has at most one solution. */
  lemma SolutionIsUnique(a: Args, s: State, now: int, g: set<nat>, h: set<nat>)
    requires Shape(a, s) && Solution(a, s, now, g) && Solution(a, s, now, h)
    ensures g == h
  {
    forall i: nat ensures i in g <==> i in h {
      SolutionsAgree(a, s, now, g, h, i);
    }
  }

  // ---------------------------------------------------------------- what a chain does

  /** The state once the coders in `group` have been granted their pairs. */
  ghost predicate Granted(a: Args, s: State, group: set<nat>, r: State)
    requires Shape(a, s)
  {
    && Shape(a, r) && r.nextSequence == s.nextSequence && r.stop == s.stop
    && (forall i: nat :: i < a.n ==>
          && r.coders[i].request == s.coders[i].request
          && r.coders[i].done == s.coders[i].done
          && if i in group then !r.coders[i].waiting && r.coders[i].granted else r.coders[i] == s.coders[i])
    && (forall d: nat :: d < a.n ==>
          && r.dongles[d].releasedAt == s.dongles[d].releasedAt
          && (r.dongles[d].available <==> s.dongles[d].available && d !in Dongles(group, a.n)))
  }

  /** Every member of `group` waited with a free pair, and no two of them share a dongle. */
  ghost predicate Compatible(a: Args, s: State, group: set<nat>)
    requires Shape(a, s)
  {
    && (forall i :: i in group ==> Waiting(a, s, i) && PairAvailable(a, s, i))
    && Seats(group, a.n) && Independent(group, a.n)
  }

  lemma WinnersSnoc(gs: seq<Grant>)
    requires gs != []
    ensures Winners(gs) == Winners(gs[..|gs| - 1]) + {gs[|gs| - 1].coder}
  {
    var k := |gs| - 1;
    forall i | i in Winners(gs) ensures i in Winners(gs[..k]) + {gs[k].coder} {
      var m :| 0 <= m < |gs| && gs[m].coder == i;
      assert m < k ==> gs[..k][m] == gs[m];
    }
    forall i | i in Winners(gs[..k]) ensures i in Winners(gs) {
      var m :| 0 <= m < k && gs[..k][m].coder == i;
      assert gs[m].coder == i;
    }
  }

  lemma DonglesSnoc(group: set<nat>, i: nat, n: nat)
    requires i < n
    ensures Dongles(group + {i}, n) == Dongles(group, n) + Pair(i, n)
  {
  }

  /** A coder whose pair is still free needs no dongle of a winner. */
  lemma FreePairIsApart(a: Args, s: State, group: set<nat>, r: State, i: nat)
    requires Shape(a, s) && Seats(group, a.n) && Granted(a, s, group, r)
    requires i < a.n && PairAvailable(a, r, i)
    ensures forall j :: j in group ==> !Overlap(i, j, a.n) && !Overlap(j, i, a.n)
  {
    forall j | j in group ensures !Overlap(i, j, a.n) && !Overlap(j, i, a.n) {
      OverlapIsSharing(i, j, a.n);
      assert j in Dongles(group, a.n) && Next(j, a.n) in Dongles(group, a.n);
    }
  }

  lemma OneMoreGrant(a: Args, s: State, group: set<nat>, mid: State, i: nat, now: int)
    requires Shape(a, s) && Compatible(a, s, group) && Granted(a, s, group, mid)
    requires Waiting(a, mid, i) && PairAvailable(a, mid, i)
    ensures Compatible(a, s, group + {i})
    ensures Granted(a, s, group + {i}, Reserve(a, mid, i, now))
  {
    FreePairIsApart(a, s, group, mid, i);
    DonglesSnoc(group, i, a.n);
  }

  lemma {:induction false} ChainEffect(a: Args, s: State, now: int, gs: seq<Grant>)
    requires Shape(a, s) && Chain(a, s, now, gs)
    ensures Compatible(a, s, Winners(gs))
    ensures Granted(a, s, Winners(gs), After(a, s, gs))
    decreases |gs|
  {
    if gs == [] {
    } else {
      var k := |gs| - 1;
      ChainEffect(a, s, now, gs[..k]);
      WinnersSnoc(gs);
      OneMoreGrant(a, s, Winners(gs[..k]), After(a, s, gs[..k]), gs[k].coder, gs[k].start);
    }
  }

  /** Every rival of `i` had lost a dongle before the dispatch or to a preceding winner. */
  ghost predicate FairTo(a: Args, s: State, group: set<nat>, i: nat)
    requires Shape(a, s)
  {
    forall j :: Rival(a, s, j, i) ==> !PairAvailable(a, s, j) || Beaten(a, s, group, j)
  }

  /** If a winner took a dongle `i` could have had, a preceding winner did. */
  ghost predicate FairlyLost(a: Args, s: State, group: set<nat>, i: nat)
    requires Shape(a, s) && Seats(group, a.n) && i < a.n
  {
    Waiting(a, s, i) && PairAvailable(a, s, i) && Reaches(group, i, a.n) ==> Beaten(a, s, group, i)
  }

  ghost predicate Fair(a: Args, s: State, group: set<nat>)
    requires Shape(a, s) && Seats(group, a.n)
  {
    && (forall i :: i in group ==> FairTo(a, s, group, i))
    && (forall i: nat :: i < a.n && i !in group ==> FairlyLost(a, s, group, i))
  }

  lemma BeatenGrows(a: Args, s: State, group: set<nat>, more: set<nat>, j: nat)
    requires Shape(a, s) && group <= more && Beaten(a, s, group, j)
    ensures Beaten(a, s, more, j)
  {
    var k :| k in group && Rival(a, s, k, j);
    assert k in more;
  }

  /** If `j` still waits with one of its dongles taken, a winner overlaps it. */
  lemma TakenBySome(a: Args, s: State, group: set<nat>, r: State, j: nat) returns (k: nat)
    requires Shape(a, s) && Seats(group, a.n) && Granted(a, s, group, r)
    requires j < a.n && PairAvailable(a, s, j) && !PairAvailable(a, r, j)
    ensures k in group && Overlap(k, j, a.n) && Overlap(j, k, a.n)
  {
    var d := if r.dongles[j].available then Next(j, a.n) else j;
    assert d in Dongles(group, a.n);
    k := if d in group then d else Prev(d, a.n);
    OverlapIsSharing(k, j, a.n);
  }

  lemma {:induction false} ChainIsFair(a: Args, s: State, now: int, gs: seq<Grant>)
    requires Shape(a, s) && Sequenced(a, s) && Chain(a, s, now, gs)
    ensures Seats(Winners(gs), a.n) && Fair(a, s, Winners(gs))
    decreases |gs|
  {
    if gs != [] {
      var k := |gs| - 1;
      ChainIsFair(a, s, now, gs[..k]);
      ChainEffect(a, s, now, gs[..k]);
      ChainEffect(a, s, now, gs);
      WinnersSnoc(gs);
      FairStep(a, s, Winners(gs[..k]), gs[k].coder, After(a, s, gs[..k]));
    }
  }

  lemma FairStep(a: Args, s: State, group: set<nat>, i: nat, mid: State)
    requires Shape(a, s) && Sequenced(a, s) && Compatible(a, s, group) && Fair(a, s, group)
    requires Granted(a, s, group, mid)
    requires Waiting(a, mid, i) && PairAvailable(a, mid, i) && IsBest(a, mid, i)
    ensures Fair(a, s, group + {i})
  {
    var more := group + {i};
    FreePairIsApart(a, s, group, mid, i);
    assert FairTo(a, s, more, i) by {
      forall j | Rival(a, s, j, i) && PairAvailable(a, s, j) ensures Beaten(a, s, more, j) {
        OverlapIsSharing(j, i, a.n);
        assert !Blocks(a, mid, j, i);
        var k := TakenBySome(a, s, group, mid, j);
        assert FairlyLost(a, s, group, j);
        BeatenGrows(a, s, group, more, j);
      }
    }
    forall m | m in group ensures FairTo(a, s, more, m) {
      assert FairTo(a, s, group, m);
      forall j | Rival(a, s, j, m) && PairAvailable(a, s, j) ensures Beaten(a, s, more, j) {
        BeatenGrows(a, s, group, more, j);
      }
    }
    forall m: nat | m < a.n && m !in more ensures FairlyLost(a, s, more, m) {
      if Waiting(a, s, m) && PairAvailable(a, s, m) && Reaches(more, m, a.n) {
        LostToTheLast(a, s, group, i, mid, m);
      }
    }
  }

  lemma LostToTheLast(a: Args, s: State, group: set<nat>, i: nat, mid: State, m: nat)
    requires Shape(a, s) && Sequenced(a, s) && Compatible(a, s, group)
    requires m < a.n && m !in group && m != i && FairlyLost(a, s, group, m)
    requires Granted(a, s, group, mid)
    requires Waiting(a, mid, i) && PairAvailable(a, mid, i) && IsBest(a, mid, i)
    requires Waiting(a, s, m) && PairAvailable(a, s, m) && Reaches(group + {i}, m, a.n)
    ensures Beaten(a, s, group + {i}, m)
  {
    if Reaches(group, m, a.n) {
      BeatenGrows(a, s, group, group + {i}, m);
    } else {
      assert PairAvailable(a, mid, m) by {
        if !PairAvailable(a, mid, m) { var k := TakenBySome(a, s, group, mid, m); }
      }
      OverlapIsSharing(i, m, a.n);
      assert !Blocks(a, mid, m, i);
      BeforeIsStrictOrder(a.policy, s.coders[i].request, s.coders[m].request, s.coders[i].request);
      assert Rival(a, s, i, m);
    }
  }
}
