// Heap order on sequences of requests: entry k sits below entry (k - 1) / 2.
module HeapOrder {
  import opened Requests

  function Parent(k: nat): nat
    requires k > 0
  {
    (k - 1) / 2
  }

  /** Entry `k` is in order with its parent. */
  predicate InOrder(p: Policy, s: seq<Request>, k: nat)
    requires 0 < k < |s|
  {
    NoLater(p, s[Parent(k)], s[k])
  }

  ghost predicate Heap(p: Policy, s: seq<Request>) {
    forall k: nat :: 0 < k < |s| ==> InOrder(p, s, k)
  }

  /** The children of `i` are in order with the parent of `i`. */
  ghost predicate Bridged(p: Policy, s: seq<Request>, i: nat)
    requires i < |s|
  {
    i > 0 ==> forall k: nat :: 0 < k < |s| && Parent(k) == i ==> NoLater(p, s[Parent(i)], s[k])
  }

  /** Only entry `i` may be out of order with its parent. */
  ghost predicate UpExcept(p: Policy, s: seq<Request>, i: nat)
    requires i < |s|
  {
    (forall k: nat :: 0 < k < |s| && k != i ==> InOrder(p, s, k)) && Bridged(p, s, i)
  }

  /** Only the children of entry `i` may be out of order with it. */
  ghost predicate DownExcept(p: Policy, s: seq<Request>, i: nat)
    requires i < |s|
  {
    (forall k: nat :: 0 < k < |s| && Parent(k) != i ==> InOrder(p, s, k)) && Bridged(p, s, i)
  }

  /** Entry `i` may have to go up or down, as its order with its parent tells. */
  ghost predicate Misplaced(p: Policy, s: seq<Request>, i: nat)
    requires i < |s|
  {
    if i > 0 && RequestBefore(p, s[i], s[Parent(i)]) then UpExcept(p, s, i) else DownExcept(p, s, i)
  }

  function Swapped(s: seq<Request>, i: nat, j: nat): (r: seq<Request>)
    requires i < |s| && j < |s|
    ensures |r| == |s|
    ensures multiset(r) == multiset(s)
  {
    s[i := s[j]][j := s[i]]
  }

  /** Nobody in `s` has to be served before entry `i`. */
  ghost predicate Least(p: Policy, s: seq<Request>, r: Request) {
    forall k :: 0 <= k < |s| ==> NoLater(p, r, s[k])
  }

  lemma {:induction false} RootBefore(p: Policy, s: seq<Request>, k: nat)
    requires Heap(p, s) && k < |s|
    ensures NoLater(p, s[0], s[k])
    decreases k
  {
    if k > 0 {
      RootBefore(p, s, Parent(k));
      assert InOrder(p, s, k);
      NoLaterIsTotalPreorder(p, s[0], s[Parent(k)], s[k]);
    }
  }

  lemma RootIsLeast(p: Policy, s: seq<Request>)
    requires Heap(p, s) && s != []
    ensures Least(p, s, s[0])
  {
    forall k | 0 <= k < |s| ensures NoLater(p, s[0], s[k]) { RootBefore(p, s, k); }
  }

  // ---------------------------------------------------------------------- one step up

  lemma UpStep(p: Policy, s: seq<Request>, i: nat)
    requires 0 < i < |s| && UpExcept(p, s, i) && RequestBefore(p, s[i], s[Parent(i)])
    ensures UpExcept(p, Swapped(s, i, Parent(i)), Parent(i))
  {
    var j := Parent(i);
    var r := Swapped(s, i, j);
    forall k: nat | 0 < k < |s| && k != j ensures InOrder(p, r, k) {
      if k != i { assert InOrder(p, s, k); }
      NoLaterIsTotalPreorder(p, s[i], s[j], s[k]);
    }
    if j > 0 {
      assert InOrder(p, s, j);
      forall k: nat | 0 < k < |s| && Parent(k) == j ensures NoLater(p, r[Parent(j)], r[k]) {
        if k != i { assert InOrder(p, s, k); }
        NoLaterIsTotalPreorder(p, s[Parent(j)], s[j], s[k]);
      }
    }
  }

  lemma UpDone(p: Policy, s: seq<Request>, i: nat)
    requires i < |s| && UpExcept(p, s, i) && (i == 0 || !RequestBefore(p, s[i], s[Parent(i)]))
    ensures Heap(p, s)
  {
  }

  // -------------------------------------------------------------------- one step down

  lemma DownStep(p: Policy, s: seq<Request>, i: nat, c: nat)
    requires i < |s| && DownExcept(p, s, i) && 0 < c < |s| && Parent(c) == i
    requires RequestBefore(p, s[c], s[i])
    requires forall k: nat :: 0 < k < |s| && Parent(k) == i ==> NoLater(p, s[c], s[k])
    ensures DownExcept(p, Swapped(s, i, c), c)
  {
    var r := Swapped(s, i, c);
    forall k: nat | 0 < k < |s| && Parent(k) != c ensures InOrder(p, r, k) {
      if Parent(k) != i { assert InOrder(p, s, k); }
      if k == i { assert NoLater(p, s[Parent(i)], s[c]); }
    }
    forall k: nat | 0 < k < |s| && Parent(k) == c ensures NoLater(p, r[Parent(c)], r[k]) {
      assert InOrder(p, s, k);
    }
  }

  lemma DownDone(p: Policy, s: seq<Request>, i: nat)
    requires i < |s| && DownExcept(p, s, i)
    requires forall k: nat :: 0 < k < |s| && Parent(k) == i ==> NoLater(p, s[i], s[k])
    ensures Heap(p, s)
  {
  }

  // ------------------------------------------------------- replacing an entry by the last

  /** What remains when entry `i` is overwritten by the last entry, which goes. */
  function Replaced(s: seq<Request>, i: nat): (r: seq<Request>)
    requires i < |s|
    ensures |r| == |s| - 1
  {
    if i == |s| - 1 then s[..i] else s[..|s| - 1][i := s[|s| - 1]]
  }

  lemma ReplacedLosesOne(s: seq<Request>, i: nat)
    requires i < |s|
    ensures multiset(Replaced(s, i)) == multiset(s) - multiset{s[i]}
  {
    var k := |s| - 1;
    assert s == s[..k] + [s[k]];
  }

  lemma ReplacedIsHeapBut(p: Policy, s: seq<Request>, i: nat)
    requires Heap(p, s) && i < |s| - 1
    ensures Misplaced(p, Replaced(s, i), i)
  {
    var r := Replaced(s, i);
    forall k: nat | 0 < k < |r| && k != i && Parent(k) != i ensures InOrder(p, r, k) {
      assert InOrder(p, s, k);
    }
    if i > 0 {
      assert InOrder(p, s, i);
      forall k: nat | 0 < k < |r| && Parent(k) == i ensures NoLater(p, r[Parent(i)], r[k]) {
        assert InOrder(p, s, k);
        NoLaterIsTotalPreorder(p, s[Parent(i)], s[i], s[k]);
      }
      if RequestBefore(p, r[i], r[Parent(i)]) {
        forall k: nat | 0 < k < |r| && Parent(k) == i ensures InOrder(p, r, k) {
          NoLaterIsTotalPreorder(p, r[i], r[Parent(i)], r[k]);
        }
      }
    }
  }

  lemma LastDropped(p: Policy, s: seq<Request>)
    requires Heap(p, s) && s != []
    ensures Heap(p, s[..|s| - 1])
  {
    var r := s[..|s| - 1];
    forall k: nat | 0 < k < |r| ensures InOrder(p, r, k) { assert InOrder(p, s, k); }
  }

  lemma Appended(p: Policy, s: seq<Request>, r: Request)
    requires Heap(p, s)
    ensures UpExcept(p, s + [r], |s|)
  {
    forall k: nat | 0 < k < |s| ensures InOrder(p, s + [r], k) { assert InOrder(p, s, k); }
  }

  // ------------------------------------------------------------------------- draining

  ghost predicate Sorted(p: Policy, s: seq<Request>) {
    forall i, j :: 0 <= i < j < |s| ==> NoLater(p, s[i], s[j])
  }
}
