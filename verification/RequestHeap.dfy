// The bounded binary heap of requests, kept in place in an array, with 32-bit indices.
module RequestHeap {
  import opened Requests
  import opened HeapOrder
  import opened Options

  const INDEX_LIMIT: int := 0x1_0000_0000
  const HALF: int := 0x8000_0000

  /** Index arithmetic on uint32_t. */
  function Wrap(x: nat): (r: nat)
    ensures x < INDEX_LIMIT ==> r == x
  {
    x % INDEX_LIMIT
  }

  /** The left child of an entry is where it should be exactly below 2^31, the right child exactly
      below 2^31 - 1; from there on they wrap around to the front of the heap. */
  lemma ChildIndicesExact(index: nat)
    requires index < INDEX_LIMIT
    ensures var left := Wrap(index * 2 + 1);
      var right := Wrap(left + 1);
      && (left == index * 2 + 1 <==> index < HALF)
      && (right == index * 2 + 2 <==> index < HALF - 1)
      && (index >= HALF ==> left == (index - HALF) * 2 + 1 <= index)
      && (index >= HALF - 1 ==> right == (if index == INDEX_LIMIT - 1 then 0 else (index - (HALF - 1)) * 2) <= index)
  {
  }

  class RequestQueue {
    const data: array<Request>
    const policy: Policy
    var size: nat

    /** Below 2^31 entries no child index wraps around; the capacity may be any uint32_t. */
    ghost predicate Valid()
      reads this, data
    {
      size <= data.Length < INDEX_LIMIT && size < HALF && Heap(policy, data[..size])
    }

    ghost function Contents(): multiset<Request>
      reads this, data
      requires size <= data.Length
    {
      multiset(data[..size])
    }

    constructor (policy: Policy, capacity: nat)
      requires 0 < capacity < INDEX_LIMIT
      ensures Valid() && fresh(data) && data.Length == capacity && this.policy == policy && size == 0
    {
      this.policy := policy;
      data := new Request[capacity](_ => Request(0, 0, 0));
      size := 0;
    }

    method SwapRequests(i: nat, j: nat)
      requires i < size && j < size && size <= data.Length
      modifies data
      ensures data[..size] == Swapped(old(data[..size]), i, j)
    {
      var tmp := data[i];
      data[i] := data[j];
      data[j] := tmp;
    }

    method SiftUp(start: nat)
      requires start < size <= data.Length < INDEX_LIMIT && size < HALF && UpExcept(policy, data[..size], start)
      modifies data
      ensures Valid() && Contents() == old(Contents())
    {
      var index: nat := start;
      while index > 0
        invariant index < size && UpExcept(policy, data[..size], index)
        invariant Contents() == old(Contents())
      {
        var parent := (index - 1) / 2;
        if !RequestBefore(policy, data[index], data[parent]) { break; }
        UpStep(policy, data[..size], index);
        SwapRequests(index, parent);
        index := parent;
      }
      UpDone(policy, data[..size], index);
    }

    /** The sift of heap_remove: choose the better child, then compare it with the entry. */
    method SiftDown(start: nat)
      requires start < size <= data.Length < INDEX_LIMIT && size < HALF && DownExcept(policy, data[..size], start)
      modifies data
      ensures Valid() && Contents() == old(Contents())
    {
      var index: nat := start;
      while Wrap(index * 2 + 1) < size
        invariant index < size && DownExcept(policy, data[..size], index)
        invariant Contents() == old(Contents())
        decreases size - index
      {
        var child := BetterChild(index);
        if !RequestBefore(policy, data[child], data[index]) {
          NoWorse(index, child);
          break;
        }
        DownStep(policy, data[..size], index, child);
        SwapRequests(index, child);
        index := child;
      }
      DownDone(policy, data[..size], index);
    }

    /** No child of entry `index` has to be served before entry `j`. */
    ghost predicate NoChildBefore(index: nat, j: nat)
      reads this, data
      requires j < size <= data.Length
    {
      forall k: nat :: 0 < k < size && Parent(k) == index ==> NoLater(policy, data[..size][j], data[..size][k])
    }

    method BetterChild(index: nat) returns (child: nat)
      requires index < size <= data.Length < INDEX_LIMIT && size < HALF && index * 2 + 1 < size
      ensures 0 < child < size && Parent(child) == index
      ensures NoChildBefore(index, child)
    {
      child := Wrap(index * 2 + 1);
      var right := Wrap(child + 1);
      if right < size && RequestBefore(policy, data[right], data[child]) { child := right; }
      forall k: nat | 0 < k < size && Parent(k) == index ensures k == index * 2 + 1 || k == index * 2 + 2 { }
    }

    lemma NoWorse(index: nat, child: nat)
      requires index < size <= data.Length && child < size && !RequestBefore(policy, data[child], data[index])
      requires NoChildBefore(index, child)
      ensures NoChildBefore(index, index)
    {
      forall k: nat | 0 < k < size && Parent(k) == index ensures NoLater(policy, data[..size][index], data[..size][k]) {
        NoLaterIsTotalPreorder(policy, data[index], data[child], data[k]);
      }
    }

    /** The best of an entry and its children, the entry itself when neither child precedes it. */
    method BestChild(index: nat) returns (best: nat)
      requires index < size <= data.Length < INDEX_LIMIT && size < HALF
      ensures best < size
      ensures best == index || (best > 0 && Parent(best) == index && RequestBefore(policy, data[best], data[index]))
      ensures NoChildBefore(index, best)
    {
      var left := Wrap(index * 2 + 1);
      var right := Wrap(left + 1);
      best := index;
      if left < size && RequestBefore(policy, data[left], data[best]) { best := left; }
      if right < size && RequestBefore(policy, data[right], data[best]) { best := right; }
      forall k: nat | 0 < k < size && Parent(k) == index ensures k == left || k == right { }
    }

    /** One more entry, unless the heap is full, keeps the indices from wrapping. */
    ghost predicate HasRoom()
      reads this, data
    {
      size < data.Length ==> size + 1 < HALF
    }

    /** A full heap refuses; otherwise the request is added. */
    method Push(request: Request) returns (ok: bool)
      requires Valid() && HasRoom()
      modifies this`size, data
      ensures Valid()
      ensures ok <==> old(size) < data.Length
      ensures Contents() == if ok then old(Contents()) + multiset{request} else old(Contents())
      ensures size == if ok then old(size) + 1 else old(size)
    {
      if size >= data.Length { return false; }
      Appended(policy, data[..size], request);
      data[size] := request;
      size := size + 1;
      assert data[..size] == old(data[..size]) + [request];
      SiftUp(size - 1);
      return true;
    }

    /** The entry at the front, which nobody precedes. */
    method Peek() returns (head: Option<Request>)
      requires Valid()
      ensures head == None <==> size == 0
      ensures head.Some? ==>
                head.value == data[0] && head.value in Contents() && Least(policy, data[..size], head.value)
    {
      if size == 0 { return None; }
      RootIsLeast(policy, data[..size]);
      assert data[..size][0] in multiset(data[..size]);
      return Some(data[0]);
    }

    /** The sift of heap_pop: move the entry to the place of its best child until it is best. */
    method SiftFromRoot()
      requires size <= data.Length < INDEX_LIMIT && size < HALF && (size > 0 ==> DownExcept(policy, data[..size], 0))
      modifies data
      ensures Valid() && Contents() == old(Contents())
    {
      var index: nat := 0;
      while index < size
        invariant index < size ==> DownExcept(policy, data[..size], index)
        invariant index >= size ==> size == 0
        invariant Contents() == old(Contents())
        decreases size - index
      {
        var best := BestChild(index);
        if best == index {
          DownDone(policy, data[..size], index);
          break;
        }
        DownStep(policy, data[..size], index, best);
        SwapRequests(index, best);
        index := best;
      }
    }

    /** Removes the front entry; an empty heap stays empty. */
    method Pop()
      requires Valid()
      modifies this`size, data
      ensures Valid()
      ensures old(size) == 0 ==> size == 0
      ensures old(size) > 0 ==>
                size == old(size) - 1 && Contents() == old(Contents()) - multiset{old(data[0])}
                && Least(policy, old(data[..size]), old(data[0]))
    {
      if size == 0 { return; }
      RootIsLeast(policy, data[..size]);
      ReplacedLosesOne(data[..size], 0);
      LastToFront();
      SiftFromRoot();
    }

    method LastToFront()
      requires Valid() && size > 0
      modifies this`size, data
      ensures size == old(size) - 1 && data[..size] == Replaced(old(data[..size]), 0)
      ensures size > 0 ==> DownExcept(policy, data[..size], 0)
    {
      ghost var s := data[..size];
      size := size - 1;
      data[0] := data[size];
      assert data[..size] == Replaced(s, 0);
      if size > 0 { ReplacedIsHeapBut(policy, s, 0); }
    }

    /** The first entry of that coder, or `size`. */
    ghost function FirstOf(coder: nat): (i: nat)
      reads this, data
      requires size <= data.Length
      ensures i <= size && (i < size ==> data[i].coder == coder)
      ensures forall k :: 0 <= k < i ==> data[k].coder != coder
    {
      Find(data[..size], coder)
    }

    method IndexOf(coder: nat) returns (i: nat)
      requires size <= data.Length
      ensures i == FirstOf(coder)
    {
      i := 0;
      while i < size && data[i].coder != coder
        invariant 0 <= i <= size && forall k :: 0 <= k < i ==> data[k].coder != coder
      {
        i := i + 1;
      }
    }

    /** Deletes exactly the first entry of the coder, wherever it stands. */
    method Remove(coder: nat) returns (found: bool)
      requires Valid()
      modifies this`size, data
      ensures Valid()
      ensures found <==> old(FirstOf(coder)) < old(size)
      ensures found ==> size == old(size) - 1 && Contents() == old(Contents()) - multiset{old(data[FirstOf(coder)])}
      ensures !found ==> size == old(size) && Contents() == old(Contents())
    {
      var i := IndexOf(coder);
      if i == size { return false; }
      DeleteAt(i);
      return true;
    }

    method DeleteAt(i: nat)
      requires Valid() && i < size
      modifies this`size, data
      ensures Valid()
      ensures size == old(size) - 1 && Contents() == old(Contents()) - multiset{old(data[i])}
    {
      if i == size - 1 {
        DropLast();
      } else {
        ReplacedLosesOne(data[..size], i);
        Overwrite(i);
        Sift(i);
      }
    }

    method DropLast()
      requires Valid() && size > 0
      modifies this`size
      ensures Valid()
      ensures size == old(size) - 1 && Contents() == old(Contents()) - multiset{data[size]}
    {
      ghost var s := data[..size];
      LastDropped(policy, s);
      ReplacedLosesOne(s, size - 1);
      size := size - 1;
      assert data[..size] == s[..size] == Replaced(s, size);
    }

    method Overwrite(i: nat)
      requires Valid() && i < size - 1
      modifies this`size, data
      ensures size == old(size) - 1 && i < size && data[..size] == Replaced(old(data[..size]), i)
      ensures Misplaced(policy, data[..size], i)
    {
      ReplacedIsHeapBut(policy, data[..size], i);
      size := size - 1;
      data[i] := data[size];
    }

    /** Moves an entry that may be out of place towards the root or away from it. */
    method Sift(i: nat)
      requires i < size <= data.Length < INDEX_LIMIT && size < HALF
      requires Misplaced(policy, data[..size], i)
      modifies data
      ensures Valid() && Contents() == old(Contents())
    {
      if i > 0 {
        var parent := (i - 1) / 2;
        if RequestBefore(policy, data[i], data[parent]) {
          SiftUp(i);
          return;
        }
      }
      SiftDown(i);
    }
  }

  /** init_heap: a heap of no capacity is refused. */
  method InitHeap(policy: Policy, capacity: nat) returns (heap: Option<RequestQueue>)
    requires capacity < INDEX_LIMIT
    ensures heap == None <==> capacity == 0
    ensures heap.Some? ==>
              && fresh(heap.value) && fresh(heap.value.data) && heap.value.Valid()
              && heap.value.data.Length == capacity && heap.value.policy == policy && heap.value.size == 0
  {
    if capacity == 0 { return None; }
    var queue := new RequestQueue(policy, capacity);
    heap := Some(queue);
  }

  /** A coder has an entry exactly when its first entry is inside the heap. */
  lemma FoundIfPresent(s: seq<Request>, coder: nat)
    ensures Find(s, coder) < |s| <==> exists r :: r in multiset(s) && r.coder == coder
  {
    var i := Find(s, coder);
    if i < |s| { assert s[i] in multiset(s); }
  }

  ghost function Find(s: seq<Request>, coder: nat): (i: nat)
    ensures i <= |s| && (i < |s| ==> s[i].coder == coder)
    ensures forall k :: 0 <= k < i ==> s[k].coder != coder
  {
    if s == [] then 0 else if s[0].coder == coder then 0 else 1 + Find(s[1..], coder)
  }

  /** `r` may be served before everything in `m`. */
  ghost predicate Bound(p: Policy, r: Request, m: multiset<Request>) {
    forall q :: q in m ==> NoLater(p, r, q)
  }

  lemma LeastBounds(p: Policy, s: seq<Request>, r: Request)
    requires Least(p, s, r)
    ensures Bound(p, r, multiset(s))
  {
    forall q | q in multiset(s) ensures NoLater(p, r, q) {
      assert q in s;
    }
  }

  /** `out` is sorted and may be served before everything in `left`. */
  ghost predicate Drained(p: Policy, out: seq<Request>, left: multiset<Request>) {
    Sorted(p, out) && forall k :: 0 <= k < |out| ==> Bound(p, out[k], left)
  }

  lemma MoveOne(p: Policy, out: seq<Request>, left: multiset<Request>, head: Request)
    requires Drained(p, out, left) && head in left && Bound(p, head, left)
    ensures Drained(p, out + [head], left - multiset{head})
    ensures multiset(out + [head]) + (left - multiset{head}) == multiset(out) + left
  {
    var more, rest := out + [head], left - multiset{head};
    forall k | 0 <= k < |more| ensures Bound(p, more[k], rest) {
      assert more[k] == if k < |out| then out[k] else head;
      assert Bound(p, more[k], left);
      assert forall q :: q in rest ==> q in left;
    }
    forall i | 0 <= i < |out| ensures NoLater(p, out[i], head) { assert Bound(p, out[i], left); }
  }

  method DrainOne(queue: RequestQueue, out: seq<Request>) returns (more: seq<Request>)
    requires queue.Valid() && queue.size > 0 && Drained(queue.policy, out, queue.Contents())
    modifies queue`size, queue.data
    ensures queue.Valid() && queue.size == old(queue.size) - 1 && Drained(queue.policy, more, queue.Contents())
    ensures multiset(more) + queue.Contents() == multiset(out) + old(queue.Contents())
  {
    var head := queue.Peek();
    ghost var left := queue.Contents();
    LeastBounds(queue.policy, queue.data[..queue.size], head.value);
    MoveOne(queue.policy, out, left, head.value);
    queue.Pop();
    more := out + [head.value];
  }

  /** Popping until the heap is empty yields the contents in order. */
  method Drain(queue: RequestQueue) returns (out: seq<Request>)
    requires queue.Valid()
    modifies queue`size, queue.data
    ensures queue.Valid() && queue.size == 0
    ensures multiset(out) == old(queue.Contents()) && Sorted(queue.policy, out)
  {
    out := [];
    ghost var all := queue.Contents();
    while queue.size > 0
      invariant queue.Valid() && Drained(queue.policy, out, queue.Contents())
      invariant multiset(out) + queue.Contents() == all
      decreases queue.size
    {
      out := DrainOne(queue, out);
    }
  }

  /** Pushing any requests that fit and draining sorts them. */
  method SortByHeap(policy: Policy, requests: seq<Request>, capacity: nat) returns (out: seq<Request>)
    requires |requests| <= capacity && |requests| < HALF && 0 < capacity < INDEX_LIMIT
    ensures multiset(out) == multiset(requests) && Sorted(policy, out)
  {
    var queue := new RequestQueue(policy, capacity);
    var i := 0;
    while i < |requests|
      invariant 0 <= i <= |requests| && queue.Valid() && queue.size == i && queue.data.Length == capacity
      invariant fresh(queue) && fresh(queue.data) && queue.policy == policy
      invariant queue.Contents() == multiset(requests[..i])
    {
      assert requests[..i + 1] == requests[..i] + [requests[i]];
      var ok := queue.Push(requests[i]);
      i := i + 1;
    }
    assert requests[..|requests|] == requests;
    out := Drain(queue);
  }
}
