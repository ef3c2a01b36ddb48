// Sleeping on stop_cond: a waiter that nobody woke has set its timer early enough.
module Wakeups {
  import opened Table
  import opened Options
  import opened Runs
  import opened Ownership
  import opened Scans
  import opened Effects

  /** Asleep, and not signalled since. */
  predicate OnTimer(pc: Pc) {
    pc.Asleep? && !pc.signalled
  }

  /** The timer is no later than the one the waiter would set now. */
  ghost predicate BoundAt(a: Args, w: World, i: nat)
    requires Sized(a, w) && i < a.n
  {
    OnTimer(w.pcs[i]) ==>
      && w.pcs[i].passStart <= w.pcs[i].readAt <= w.pcs[i].since <= w.now
      && w.pcs[i].wakeBy <= w.pcs[i].since + SleepFor(a, w.st, i, w.pcs[i].readAt)
  }

  /** While nobody is inside scheduler_acquire_pair it is exactly that timer, and the dispatch
      that went before left nobody behind. */
  ghost predicate ExactAt(a: Args, w: World, i: nat)
    requires Sized(a, w) && i < a.n
  {
    w.mutex == None && OnTimer(w.pcs[i]) ==>
      && Waiting(a, w.st, i)
      && w.pcs[i].wakeBy == w.pcs[i].since + SleepFor(a, w.st, i, w.pcs[i].readAt)
      && PassedOver(a, w.st, a.n, w.pcs[i].passStart, w.pcs[i].since)
  }

  /** Every unsignalled sleeper has its timer right, and there is at most one. */
  ghost predicate Timers(a: Args, w: World)
    requires Sized(a, w)
  {
    && (forall i: nat :: i < a.n ==> BoundAt(a, w, i) && ExactAt(a, w, i))
    && (forall i: nat, j: nat :: i < a.n && j < a.n && OnTimer(w.pcs[i]) && OnTimer(w.pcs[j]) ==> i == j)
  }

  /** Leaving the critical section signals everyone else. */
  lemma TimerAtExit(a: Args, w: World, e: Event, i: nat)
    requires Sized(a, w) && Control(a, w) && Scanned(a, w) && Enabled(a, w, e) && i < a.n
    requires e.GiveUp? || e.Return? || e.Sleep?
    ensures BoundAt(a, Apply(a, w, e), i) && ExactAt(a, Apply(a, w, e), i)
    ensures OnTimer(Apply(a, w, e).pcs[i]) ==> e.Sleep? && i == e.i
  {
    if e.Sleep? {
      assert ControlAt(a, w, e.i) && ScanAt(a, w, e.i);
      PassedOverLater(a, w.st, w.st, a.n, w.pcs[e.i].scan.passStart, w.now, e.since);
    }
  }

  /** Taking dongles only puts off the time at which the waiter must look again. */
  lemma TimerAtAward(a: Args, w: World, e: Event, i: nat)
    requires Sized(a, w) && Control(a, w) && Enabled(a, w, e) && i < a.n && BoundAt(a, w, i) && e.Award?
    ensures BoundAt(a, Apply(a, w, e), i) && ExactAt(a, Apply(a, w, e), i)
    ensures OnTimer(Apply(a, w, e).pcs[i]) ==> OnTimer(w.pcs[i])
  {
    var r := Apply(a, w, e);
    assert ControlAt(a, w, e.i);
    assert PairAvailable(a, r.st, i) ==> PairAvailable(a, w.st, i);
    assert CooledAt(a, r.st, i) == CooledAt(a, w.st, i);
    assert r.st.coders[i].request == w.st.coders[i].request;
  }

  lemma TimerAtBroadcast(a: Args, w: World, e: Event, i: nat)
    requires Sized(a, w) && Enabled(a, w, e) && i < a.n && BoundAt(a, w, i) && ExactAt(a, w, i)
    requires e.GiveBack? || e.SetStop? || e.Convict?
    ensures BoundAt(a, Apply(a, w, e), i) && ExactAt(a, Apply(a, w, e), i)
    ensures OnTimer(Apply(a, w, e).pcs[i]) ==> OnTimer(w.pcs[i])
  {
    var r := Apply(a, w, e);
    assert !OnTimer(r.pcs[i]) || r == w.(monitor := Scanning);
  }

  /** Entering makes the timers of the others mere bounds. */
  lemma TimerAtEntry(a: Args, w: World, e: Event, i: nat)
    requires Sized(a, w) && Enabled(a, w, e) && i < a.n && BoundAt(a, w, i) && (e.Enter? || e.Wake?)
    ensures BoundAt(a, Apply(a, w, e), i) && ExactAt(a, Apply(a, w, e), i)
    ensures OnTimer(Apply(a, w, e).pcs[i]) ==> OnTimer(w.pcs[i])
  {
    var r := Apply(a, w, e);
    assert r.st.dongles == w.st.dongles;
    assert OnTimer(r.pcs[i]) ==> r.pcs[i] == w.pcs[i] && r.st.coders[i].request == w.st.coders[i].request;
  }

  lemma TimerAtLocal(a: Args, w: World, e: Event, i: nat)
    requires Sized(a, w) && Control(a, w) && Enabled(a, w, e) && i < a.n && BoundAt(a, w, i) && ExactAt(a, w, i)
    requires Local(e)
    ensures BoundAt(a, Apply(a, w, e), i) && ExactAt(a, Apply(a, w, e), i)
    ensures OnTimer(Apply(a, w, e).pcs[i]) ==> OnTimer(w.pcs[i])
  {
    var r := Apply(a, w, e);
    assert r.st == w.st && r.mutex == w.mutex && w.now <= r.now;
    assert OnTimer(r.pcs[i]) ==> r.pcs[i] == w.pcs[i];
  }

  lemma TimerAtCount(a: Args, w: World, e: Event, i: nat)
    requires Sized(a, w) && Enabled(a, w, e) && i < a.n && BoundAt(a, w, i) && ExactAt(a, w, i) && e.Finish?
    ensures BoundAt(a, Apply(a, w, e), i) && ExactAt(a, Apply(a, w, e), i)
    ensures OnTimer(Apply(a, w, e).pcs[i]) ==> OnTimer(w.pcs[i])
  {
    var r := Apply(a, w, e);
    if OnTimer(w.pcs[i]) { CountPassesOver(a, w.st, e.i, a.n, w.pcs[i].passStart, w.pcs[i].since); }
    assert OnTimer(r.pcs[i]) ==> r.pcs[i] == w.pcs[i] && r.st.coders[i].request == w.st.coders[i].request;
  }

  lemma CountPassesOver(a: Args, s: State, i: nat, m: nat, from: int, now: int)
    requires Shape(a, s) && i < a.n && m <= a.n
    ensures PassedOver(a, s, m, from, now) ==> PassedOver(a, CountCompile(a, s, i), m, from, now)
  {
    var r := CountCompile(a, s, i);
    forall k: nat | k < m && ReadyAndBest(a, r, k, from) ensures ReadyAndBest(a, s, k, from) {
      assert forall j: nat :: j < a.n ==> (Blocks(a, r, j, k) <==> Blocks(a, s, j, k));
    }
    if PassedOver(a, s, m, from, now) {
      forall k: nat | k < m && ReadyAndBest(a, r, k, from) ensures !Unexpired(a, r, k, now) {
        assert ReadyAndBest(a, s, k, from);
      }
    }
  }

  lemma TimerKept(a: Args, w: World, e: Event, i: nat)
    requires Sized(a, w) && Control(a, w) && Scanned(a, w) && Timers(a, w) && Enabled(a, w, e) && i < a.n
    ensures BoundAt(a, Apply(a, w, e), i) && ExactAt(a, Apply(a, w, e), i)
    ensures OnTimer(Apply(a, w, e).pcs[i]) ==> if e.Sleep? then i == e.i else OnTimer(w.pcs[i])
  {
    assert BoundAt(a, w, i) && ExactAt(a, w, i);
    if e.GiveUp? || e.Return? || e.Sleep? { TimerAtExit(a, w, e, i); }
    else if e.Award? { TimerAtAward(a, w, e, i); }
    else if e.GiveBack? || e.SetStop? || e.Convict? { TimerAtBroadcast(a, w, e, i); }
    else if e.Enter? || e.Wake? { TimerAtEntry(a, w, e, i); }
    else if e.Finish? { TimerAtCount(a, w, e, i); }
    else { TimerAtLocal(a, w, e, i); }
  }

  lemma TimersKept(a: Args, w: World, e: Event)
    requires Sized(a, w) && Control(a, w) && Scanned(a, w) && Timers(a, w) && Enabled(a, w, e)
    ensures Timers(a, Apply(a, w, e))
  {
    var r := Apply(a, w, e);
    forall i: nat | i < a.n
      ensures BoundAt(a, r, i) && ExactAt(a, r, i)
      ensures OnTimer(r.pcs[i]) ==> if e.Sleep? then i == e.i else OnTimer(w.pcs[i]) {
      TimerKept(a, w, e, i);
    }
  }

  lemma {:induction false} StaysOnTimers(a: Args, w: World, es: seq<Event>)
    requires Sized(a, w) && Sound(a, w) && Scanned(a, w) && Timers(a, w) && Legal(a, w, es)
    ensures Timers(a, Reach(a, w, es))
    decreases |es|
  {
    if es != [] {
      var k := |es| - 1;
      StaysOnTimers(a, w, es[..k]);
      StaysSound(a, w, es[..k]);
      StaysScanned(a, w, es[..k]);
      TimersKept(a, Reach(a, w, es[..k]), es[k]);
    }
  }

  lemma RunsKeepTimers(a: Args, w: World)
    requires Reachable(a, w)
    ensures Sized(a, w) && Timers(a, w)
  {
    var t: int, es: seq<Event> :| Legal(a, Init(a, t), es) && Reach(a, Init(a, t), es) == w;
    StartsSound(a, t);
    StaysOnTimers(a, Init(a, t), es);
  }

  /** Sleeping is settled: while nobody has moved since the last coder fell asleep, whoever was
      ready and best when its last pass began was past its deadline when it fell asleep. */
  lemma SleepLeavesNobody(a: Args, w: World, i: nat, k: nat)
    requires Reachable(a, w) && Sized(a, w) && i < a.n && k < a.n && w.mutex == None && OnTimer(w.pcs[i])
    requires ReadyAndBest(a, w.st, k, w.pcs[i].passStart)
    ensures w.st.coders[k].request.deadline <= w.pcs[i].since
  {
    RunsKeepTimers(a, w);
    assert ExactAt(a, w, i);
  }

  // ------------------------------------------------------------------- stopped and woken

  /** Once the run is stopped nobody sleeps on unsignalled. */
  ghost predicate Woken(a: Args, w: World)
    requires Sized(a, w)
  {
    w.st.stop ==> forall i: nat :: i < a.n ==> !OnTimer(w.pcs[i])
  }

  lemma WokenKept(a: Args, w: World, e: Event)
    requires Sized(a, w) && Control(a, w) && Woken(a, w) && Enabled(a, w, e)
    ensures Woken(a, Apply(a, w, e))
  {
    forall i: nat | i < a.n && w.st.stop ensures !w.pcs[i].Dispatching? && !OnTimer(Apply(a, w, e).pcs[i]) {
      assert ControlAt(a, w, i);
    }
  }

  lemma {:induction false} StaysWoken(a: Args, w: World, es: seq<Event>)
    requires Sized(a, w) && Sound(a, w) && Woken(a, w) && Legal(a, w, es)
    ensures Woken(a, Reach(a, w, es))
    decreases |es|
  {
    if es != [] {
      var k := |es| - 1;
      StaysWoken(a, w, es[..k]);
      StaysSound(a, w, es[..k]);
      WokenKept(a, Reach(a, w, es[..k]), es[k]);
    }
  }

  /** A stop wakes everybody: in no reachable state with the flag set does a sleeper still rely on
      its timer. */
  lemma StopWakesEverybody(a: Args, w: World, i: nat)
    requires Reachable(a, w) && Sized(a, w) && w.st.stop && i < a.n
    ensures !OnTimer(w.pcs[i])
  {
    var t: int, es: seq<Event> :| Legal(a, Init(a, t), es) && Reach(a, Init(a, t), es) == w;
    StartsSound(a, t);
    StaysWoken(a, Init(a, t), es);
  }

  // ---------------------------------------------------------------------- early, not too early

  lemma TimerIsEarly(a: Args, w: World, i: nat, when: int)
    requires Sized(a, w) && i < a.n && BoundAt(a, w, i) && OnTimer(w.pcs[i])
    requires Eligible(a, w.st, i, when) || w.st.coders[i].request.deadline <= when
    ensures w.pcs[i].wakeBy <= Max(w.pcs[i].since + 1, when + (w.pcs[i].since - w.pcs[i].readAt))
  {
  }

  /** No missed wake-up, in every reachable state: if passing time alone makes an unsignalled sleeper eligible at
      `when`, its timer fires by then, or one millisecond after it fell asleep if that is
      later; a clock that moved between setting the timer and sleeping delays it by as much.
      The same bound holds for its deadline. */
  lemma NoMissedWakeup(a: Args, w: World, i: nat, when: int)
    requires Reachable(a, w) && Sized(a, w) && i < a.n && OnTimer(w.pcs[i])
    requires Eligible(a, w.st, i, when) || w.st.coders[i].request.deadline <= when
    ensures w.pcs[i].wakeBy <= Max(w.pcs[i].since + 1, when + (w.pcs[i].since - w.pcs[i].readAt))
  {
    RunsKeepTimers(a, w);
    assert BoundAt(a, w, i);
    TimerIsEarly(a, w, i, when);
  }

  /** No idle wake-up: while nobody is inside, a timer runs for at least a millisecond, and by its
      end, counted from the reading of the clock, the pair has cooled or the deadline has come; when
      it runs for longer, not earlier. */
  lemma TimerIsNotEarly(a: Args, w: World, i: nat)
    requires Reachable(a, w) && Sized(a, w) && i < a.n && w.mutex == None && OnTimer(w.pcs[i])
    ensures w.pcs[i].wakeBy >= w.pcs[i].since + 1
    ensures var target := w.pcs[i].readAt + (w.pcs[i].wakeBy - w.pcs[i].since);
      && target <= w.pcs[i].wakeBy
      && (w.st.coders[i].request.deadline <= target || PairReady(a, w.st, i, target))
      && (w.pcs[i].wakeBy > w.pcs[i].since + 1 ==>
            target - 1 < w.st.coders[i].request.deadline && !PairReady(a, w.st, i, target - 1))
  {
    RunsKeepTimers(a, w);
    assert BoundAt(a, w, i) && ExactAt(a, w, i);
    if PairAvailable(a, w.st, i) {
      var target := w.pcs[i].readAt + (w.pcs[i].wakeBy - w.pcs[i].since);
      CooledIsReady(a, w.st, i, target);
      CooledIsReady(a, w.st, i, target - 1);
    }
  }

  /** At most one sleeper at a time relies on its timer: every other one has been signalled. */
  lemma OneUnsignalledSleeper(a: Args, w: World, i: nat, j: nat)
    requires Reachable(a, w) && Sized(a, w) && i < a.n && j < a.n && i != j
    requires w.pcs[i].Asleep? && w.pcs[j].Asleep?
    ensures w.pcs[i].signalled || w.pcs[j].signalled
  {
    RunsKeepTimers(a, w);
  }
}
