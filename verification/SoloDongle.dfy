// A single coder's dongle: the client of the request heap.
module SoloDongle {
  import opened Requests
  import opened HeapOrder
  import opened Options
  import opened RequestHeap
  import opened Scheduler
  import opened Lifecycle

  class QueuedDongle {
    var available: bool
    var releasedAt: int
    var nextSequence: nat
    const queue: RequestQueue

    ghost predicate Valid()
      reads this, queue, queue.data
    {
      queue.Valid()
    }

    constructor (queue: RequestQueue)
      ensures this.queue == queue && available && releasedAt == 0 && nextSequence == 0
    {
      available, releasedAt, nextSequence := true, 0, 0;
      this.queue := queue;
    }

    /** The coder has no request in the queue. */
    ghost predicate Absent(coder: nat)
      reads this, queue, queue.data
      requires queue.size <= queue.data.Length
    {
      forall r :: r in queue.Contents() ==> r.coder != coder
    }

    /** How long to wait for the dongle: zero exactly when it can be taken. */
    method TimeLeft(clock: Clock, cooldown: nat) returns (left: int)
      modifies clock
      ensures old(clock.now) <= clock.now && left >= 0 && clock.waits == old(clock.waits)
      ensures left == 0 <==> available && releasedAt + cooldown <= clock.now
      ensures left > 0 && available ==> left == releasedAt + cooldown - clock.now
      ensures !available ==> left == 10
    {
      var current := clock.NowMs();
      var wakeAt := releasedAt + cooldown;
      if available && current >= wakeAt { return 0; }
      if !available { left := 10; } else { left := wakeAt - current; }
      if left <= 0 { left := 1; }
    }

    method PushRequest(coder: nat, deadline: int) returns (ok: bool, ghost request: Request)
      requires Valid() && queue.HasRoom()
      modifies this`nextSequence, queue`size, queue.data
      ensures Valid() && nextSequence == old(nextSequence) + 1
      ensures request == Request(coder, old(nextSequence), deadline)
      ensures ok <==> old(queue.size) < queue.data.Length
      ensures queue.Contents() == if ok then old(queue.Contents()) + multiset{request} else old(queue.Contents())
    {
      request := Request(coder, nextSequence, deadline);
      var r := Request(coder, nextSequence, deadline);
      nextSequence := nextSequence + 1;
      ok := queue.Push(r);
    }

    method IsQueueHead(coder: nat) returns (first: bool)
      requires Valid()
      ensures first <==> queue.size > 0 && queue.data[0].coder == coder
    {
      var head := queue.Peek();
      first := head.Some? && head.value.coder == coder;
    }

    /** Takes the dongle when it is free, cooled, and nobody precedes the coder's request. */
    method AcquireIfReady(coder: nat, left: int) returns (taken: bool)
      requires Valid()
      modifies this`available, queue`size, queue.data
      ensures Valid()
      ensures taken <==> old(available) && left == 0 && old(queue.size) > 0 && old(queue.data[0]).coder == coder
      ensures taken ==>
                !available && queue.Contents() == old(queue.Contents()) - multiset{old(queue.data[0])}
                && old(queue.data[0]) in old(queue.Contents())
                && Least(queue.policy, old(queue.data[..queue.size]), old(queue.data[0]))
      ensures !taken ==> available == old(available) && queue.Contents() == old(queue.Contents())
    {
      if !available { return false; }
      if left != 0 { return false; }
      var first := IsQueueHead(coder);
      if !first { return false; }
      HeadIsIn(queue.data[..queue.size]);
      queue.Pop();
      available := false;
      return true;
    }

    /** The dongle can be taken at time `now`, and the request goes before all the others. */
    ghost predicate Servable(request: Request, others: multiset<Request>, cooldown: nat, now: int)
      reads this
    {
      && available && releasedAt + cooldown <= now
      && forall q :: q in others ==> RequestBefore(queue.policy, request, q)
    }

    /** Queues a request and waits for the dongle until it gets it or the run is stopped. Either
        way the coder leaves no request of its own behind and no other request is lost. When the
        dongle can be taken at once, only the very first look at the stop flag can deny it. */
    method Acquire(coder: nat, deadline: int, clock: Clock, flag: StopFlag, cooldown: nat)
      returns (taken: bool)
      requires Valid() && queue.HasRoom() && Absent(coder)
      modifies this, queue`size, queue.data, clock, flag
      ensures Valid() && queue.Contents() == old(queue.Contents())
      ensures releasedAt == old(releasedAt) && available == (old(available) && !taken)
      ensures nextSequence == old(nextSequence) + 1
      ensures taken ==> old(available) && releasedAt + cooldown <= clock.now
      ensures !taken && old(queue.size) < queue.data.Length ==> flag.stopped
      ensures old(queue.size) == queue.data.Length ==> !taken
      ensures old(queue.size) < queue.data.Length && old(available) && releasedAt + cooldown <= old(clock.now)
              && (forall q :: q in old(queue.Contents()) ==>
                    RequestBefore(queue.policy, Request(coder, old(nextSequence), deadline), q))
              && !taken
              ==> flag.asked == old(flag.asked) + 1 && clock.now == old(clock.now)
    {
      ghost var others := queue.Contents();
      ghost var request;
      var ok;
      ok, request := PushRequest(coder, deadline);
      if !ok { return false; }
      taken := AwaitTurn(coder, clock, flag, cooldown, others, request);
      if !taken { RemoveOwn(coder, others, request); }
    }

    /** Besides `others`, none of which is the coder's, the queue holds its request. */
    ghost predicate Queued(coder: nat, others: multiset<Request>, request: Request)
      reads this, queue, queue.data
    {
      && Valid() && queue.Contents() == others + multiset{request}
      && request.coder == coder && forall r :: r in others ==> r.coder != coder
    }

    method AwaitTurn(coder: nat, clock: Clock, flag: StopFlag, cooldown: nat,
                     ghost others: multiset<Request>, ghost request: Request)
      returns (taken: bool)
      requires Queued(coder, others, request)
      modifies this`available, queue`size, queue.data, clock, flag
      ensures taken ==> Valid() && queue.Contents() == others
      ensures taken ==> old(available) && !available && releasedAt + cooldown <= clock.now
      ensures !taken ==> Queued(coder, others, request) && available == old(available) && flag.stopped
      ensures old(Servable(request, others, cooldown, clock.now)) && !taken ==>
                flag.asked == old(flag.asked) + 1 && clock.now == old(clock.now)
    {
      var stopped := flag.IsStopped();
      while !stopped
        invariant Queued(coder, others, request) && stopped == flag.stopped
        invariant available == old(available) && (flag.asked >= flag.stopsBy ==> stopped)
        invariant old(Servable(request, others, cooldown, clock.now)) ==>
                    flag.asked == old(flag.asked) + 1 && clock.now == old(clock.now)
        decreases !stopped, flag.stopsBy - flag.asked
      {
        taken := TryOnce(coder, clock, cooldown, others, request);
        if taken { return; }
        stopped := flag.IsStopped();
      }
      return false;
    }

    /** One round of the waiting loop: take the dongle, or wait. */
    method TryOnce(coder: nat, clock: Clock, cooldown: nat, ghost others: multiset<Request>, ghost request: Request)
      returns (taken: bool)
      requires Queued(coder, others, request)
      modifies this`available, queue`size, queue.data, clock
      ensures taken ==> Valid() && queue.Contents() == others
      ensures taken ==> old(available) && !available && releasedAt + cooldown <= clock.now
      ensures !taken ==> Queued(coder, others, request) && available == old(available)
      // Whoever can have the dongle takes it; otherwise the coder waits once, ten milliseconds at a
      // time for a dongle that is taken, and no longer than it takes a free one to cool.
      ensures old(Servable(request, others, cooldown, clock.now)) ==> taken
      ensures taken ==> clock.waits == old(clock.waits)
      ensures !taken ==>
                && |clock.waits| == |old(clock.waits)| + 1
                && var timer := clock.waits[|old(clock.waits)|];
                && (!old(available) ==> timer == Some(10))
                && (timer.Some? ==> 0 < timer.value <= 2000)
                && (old(available) && timer.Some? ==> timer.value <= releasedAt + cooldown - old(clock.now))
    {
      HeadOfQueue(others, request, cooldown, clock.now);
      var left := TimeLeft(clock, cooldown);
      ghost var head := if queue.size > 0 then queue.data[0] else request;
      taken := AcquireIfReady(coder, left);
      if taken { OwnRequest(others, request, head); } else { WaitForDongle(clock, left); }
    }

    /** A request that goes before all the others is at the front of the heap. */
    lemma HeadOfQueue(others: multiset<Request>, request: Request, cooldown: nat, now: int)
      requires Queued(request.coder, others, request)
      ensures Servable(request, others, cooldown, now) ==> queue.size > 0 && queue.data[0] == request
    {
      var s := queue.data[..queue.size];
      assert request in multiset(s);
      assert request in s;
      var k :| 0 <= k < |s| && s[k] == request;
      RootIsLeast(queue.policy, s);
      assert NoLater(queue.policy, s[0], s[k]);
      HeadIsIn(s);
      assert s[0] == request || s[0] in others;
    }

    method RemoveOwn(coder: nat, ghost others: multiset<Request>, ghost request: Request)
      requires Valid() && queue.Contents() == others + multiset{request} && request.coder == coder
      requires forall r :: r in others ==> r.coder != coder
      modifies queue`size, queue.data
      ensures Valid() && queue.Contents() == others
    {
      ghost var s := queue.data[..queue.size];
      FoundIfPresent(s, coder);
      assert request in multiset(s);
      assert queue.FirstOf(coder) < queue.size;
      ghost var first := queue.data[queue.FirstOf(coder)];
      assert s[queue.FirstOf(coder)] == first && first in s && first in multiset(s);
      OwnRequest(others, request, first);
      var found := queue.Remove(coder);
    }
  }

  /** init_one_dongle: fails when its queue cannot be made. */
  method InitDongle(policy: Policy, coders: nat) returns (dongle: Option<QueuedDongle>)
    requires coders < INDEX_LIMIT
    ensures dongle == None <==> coders == 0
    ensures dongle.Some? ==>
              && fresh(dongle.value) && fresh(dongle.value.queue) && fresh(dongle.value.queue.data)
              && dongle.value.Valid() && dongle.value.available && dongle.value.releasedAt == 0
              && dongle.value.nextSequence == 0 && dongle.value.queue.size == 0
              && dongle.value.queue.data.Length == coders && dongle.value.queue.policy == policy
  {
    var heap := InitHeap(policy, coders);
    if heap == None { return None; }
    var made := new QueuedDongle(heap.value);
    dongle := Some(made);
  }

  lemma HeadIsIn(s: seq<Request>)
    ensures s != [] ==> s[0] in multiset(s)
  {
    if s != [] { assert s[0] in s; }
  }

  /** The only entry of the coder is its own request. */
  lemma OwnRequest(others: multiset<Request>, request: Request, r: Request)
    requires (forall q :: q in others ==> q.coder != request.coder)
    requires r in others + multiset{request} && r.coder == request.coder
    ensures r == request && others + multiset{request} - multiset{r} == others
  {
  }

  /** Waits on the condition of the dongle, without a timer when the dongle could be taken, and
      for at most two seconds otherwise. */
  method WaitForDongle(clock: Clock, left: int)
    requires left >= 0
    modifies clock
    ensures old(clock.now) <= clock.now && clock.readings == old(clock.readings)
    ensures clock.waits == old(clock.waits) + [if left == 0 then None else Some(if left > 2000 then 2000 else left)]
  {
    if left == 0 {
      clock.CondWait(None);
    } else {
      clock.CondWait(Some(if left > 2000 then 2000 else left));
    }
  }
}
