// The table: coder i sits between dongle i and the next one, the last dongle being dongle 0.
module Ring {

  function Next(i: nat, n: nat): (d: nat)
    requires i < n
    ensures d < n
  {
    if i + 1 == n then 0 else i + 1
  }

  function Prev(i: nat, n: nat): (d: nat)
    requires i < n
    ensures d < n
    ensures Next(d, n) == i
  {
    if i == 0 then n - 1 else i - 1
  }

  function Pair(i: nat, n: nat): set<nat>
    requires i < n
  {
    {i, Next(i, n)}
  }

  /** Two coders overlap when they need a dongle in common. */
  predicate Overlap(i: nat, j: nat, n: nat)
    requires i < n && j < n
  {
    i == j || i == Next(j, n) || Next(i, n) == j || Next(i, n) == Next(j, n)
  }

  lemma OverlapIsSharing(i: nat, j: nat, n: nat)
    requires i < n && j < n
    ensures Overlap(i, j, n) <==> Pair(i, n) * Pair(j, n) != {}
    ensures Overlap(i, j, n) <==> Overlap(j, i, n)
    ensures Overlap(i, j, n) <==> i == j || j == Next(i, n) || i == Next(j, n)
  {
    if Overlap(i, j, n) {
      var d := if i == j || i == Next(j, n) then i else Next(i, n);
      assert d in Pair(i, n) * Pair(j, n);
    } else {
      assert Pair(i, n) * Pair(j, n) == {};
    }
  }

  ghost predicate Seats(group: set<nat>, n: nat) {
    forall i :: i in group ==> i < n
  }

  ghost predicate Independent(group: set<nat>, n: nat)
    requires Seats(group, n)
  {
    forall i, j :: i in group && j in group && i != j ==> !Overlap(i, j, n)
  }

  /** The dongles a group of coders needs: dongle d serves coder d and the coder before it. */
  ghost function Dongles(group: set<nat>, n: nat): (ds: set<nat>)
    ensures forall d: nat :: d in ds <==> d < n && (d in group || Prev(d, n) in group)
  {
    set d: nat | d < n && (d in group || Prev(d, n) in group)
  }

  ghost function Upto(n: nat): (s: set<nat>)
    ensures forall i: nat :: i in s <==> i < n
    ensures |s| == n
  {
    if n == 0 then {} else Upto(n - 1) + {n - 1}
  }

  lemma SubsetSize(small: set<nat>, big: set<nat>)
    requires small <= big
    ensures |small| <= |big|
  {
    assert big == small + (big - small);
  }

  lemma AddingAPair(rest: set<nat>, i: nat, n: nat)
    requires n >= 2 && Seats(rest, n) && i < n && i !in rest
    requires Independent(rest + {i}, n)
    ensures Dongles(rest + {i}, n) == Dongles(rest, n) + Pair(i, n)
    ensures Dongles(rest, n) !! Pair(i, n)
  {
    forall d | d in Dongles(rest, n) ensures d !in Pair(i, n) {
      var j := if d in rest then d else Prev(d, n);
      assert j in rest && d in Pair(j, n);
      assert !Overlap(i, j, n);
    }
  }

  lemma {:induction false} IndependentUsesTwoEach(group: set<nat>, n: nat)
    requires n >= 2 && Seats(group, n) && Independent(group, n)
    ensures |Dongles(group, n)| == 2 * |group|
    decreases |group|
  {
    if group == {} {
      assert Dongles(group, n) == {};
    } else {
      var i :| i in group;
      var rest := group - {i};
      assert rest + {i} == group;
      IndependentUsesTwoEach(rest, n);
      AddingAPair(rest, i, n);
      assert |Pair(i, n)| == 2;
    }
  }

  /** At most half of the coders can hold their pairs at once. */
  lemma IndependentAtMostHalf(group: set<nat>, n: nat)
    requires n >= 2 && Seats(group, n) && Independent(group, n)
    ensures |group| <= n / 2
  {
    IndependentUsesTwoEach(group, n);
    SubsetSize(Dongles(group, n), Upto(n));
  }

  ghost predicate Reaches(group: set<nat>, i: nat, n: nat)
    requires Seats(group, n) && i < n
  {
    exists j :: j in group && Overlap(i, j, n)
  }

  ghost predicate Dominating(group: set<nat>, n: nat)
    requires Seats(group, n)
  {
    forall i: nat {:trigger Reaches(group, i, n)} :: i < n ==> Reaches(group, i, n)
  }

  ghost function Shift(group: set<nat>, n: nat): (s: set<nat>)
    requires Seats(group, n)
    ensures forall j :: j in group ==> Next(j, n) in s
    ensures |s| <= |group|
    decreases |group|
  {
    if group == {} then {} else
      var j :| j in group;
      assert forall k :: k in group ==> k == j || k in group - {j};
      Shift(group - {j}, n) + {Next(j, n)}
  }

  ghost function ShiftBack(group: set<nat>, n: nat): (s: set<nat>)
    requires Seats(group, n)
    ensures forall j :: j in group ==> Prev(j, n) in s
    ensures |s| <= |group|
    decreases |group|
  {
    if group == {} then {} else
      var j :| j in group;
      assert forall k :: k in group ==> k == j || k in group - {j};
      ShiftBack(group - {j}, n) + {Prev(j, n)}
  }

  /** A group that overlaps every coder contains at least a third of them. */
  lemma DominatingAtLeastThird(group: set<nat>, n: nat)
    requires Seats(group, n) && Dominating(group, n)
    ensures n <= 3 * |group|
  {
    var near := group + Shift(group, n) + ShiftBack(group, n);
    forall i: nat | i < n ensures i in near {
      assert Reaches(group, i, n);
      var j :| j in group && Overlap(i, j, n);
      assert i == j || i == Next(j, n) || i == Prev(j, n);
    }
    SubsetSize(Upto(n), near);
  }
}
