// The other critical sections: start-up, release, counting, stopping and the monitor's scan;
// and the interruptible sleep.
module Lifecycle {
  import opened Requests
  import opened Ring
  import opened Table
  import opened Runs
  import opened Scheduler

  // --------------------------------------------------------------------- start-up

  method SetAllCoderDeadlines(app: App, startTime: int)
    requires app.Valid()
    modifies app`view, app.coders
    ensures app.Valid() && app.view.dongles == old(app.view).dongles && app.view.stop == old(app.view).stop
    ensures app.view.nextSequence == old(app.view).nextSequence
    ensures forall k: nat :: k < app.args.n ==> app.view.coders[k] == old(app.view).coders[k].(lastStart := startTime)
  {
    var i := 0;
    while i < app.args.n
      invariant 0 <= i <= app.args.n && app.Valid()
      invariant app.view.dongles == old(app.view).dongles && app.view.stop == old(app.view).stop
      invariant app.view.nextSequence == old(app.view).nextSequence
      invariant forall k: nat :: k < i ==> app.view.coders[k] == old(app.view).coders[k].(lastStart := startTime)
      invariant forall k: nat :: i <= k < app.args.n ==> app.view.coders[k] == old(app.view).coders[k]
    {
      label before:
      assert app.Matches(i);
      app.coders[i].lastCompileStart := startTime;
      app.view := app.view.(coders := app.view.coders[i := app.view.coders[i].(lastStart := startTime)]);
      forall k: nat | k < app.args.n ensures app.Matches(k) && app.Linked(k) {
        assert old@before(app.Matches(k)) && old@before(app.Linked(k));
        assert k != i ==> app.coders[k] != app.coders[i];
      }
      i := i + 1;
    }
  }

  /** Every run starts where start_all_threads leaves a newly built application. */
  method StartAllThreads(app: App)
    requires app.Valid() && 2 <= app.args.n
    modifies app, app.clock, app.coders
    ensures app.Valid() && app.simulationStarted && old(app.clock.now) <= app.startTime == app.clock.now
    ensures forall k: nat :: k < app.args.n ==>
              app.view.coders[k] == old(app.view).coders[k].(lastStart := app.startTime)
    ensures app.view.dongles == old(app.view).dongles && app.view.nextSequence == 0
    ensures app.view.stop == old(app.view).stop && app.output == old(app.output) && app.signals == old(app.signals)
    ensures Unstarted(app.args, old(app.view)) ==> app.view == Init(app.args, app.startTime).st
  {
    app.startTime := app.clock.NowMs();
    app.nextSequence := 0;
    app.view := app.view.(nextSequence := 0);
    forall k: nat | k < app.args.n ensures app.Matches(k) && app.Linked(k) {
      assert old(app.Matches(k)) && old(app.Linked(k));
    }
    SetAllCoderDeadlines(app, app.startTime);
    app.simulationStarted := true;
    if Unstarted(app.args, old(app.view)) {
      assert app.view.coders == Init(app.args, app.startTime).st.coders;
      assert app.view.dongles == Init(app.args, app.startTime).st.dongles;
    }
  }

  /** What the constructor leaves behind. */
  ghost predicate Unstarted(a: Args, s: State) {
    && Shape(a, s) && !s.stop
    && (forall i: nat :: i < a.n ==>
          s.coders[i] == Table.Coder(s.coders[i].lastStart, 0, Request(i + 1, 0, 0), false, false))
    && (forall d: nat :: d < a.n ==> s.dongles[d] == Table.Dongle(true, 0))
  }

  // ------------------------------------------------------------------ release and count

  method ReleaseBothDongles(app: App, i: nat) returns (ghost at: int)
    requires app.Valid() && i < app.args.n
    modifies app.clock, app`view, app`signals, app.dongles[i], app.dongles[Next(i, app.args.n)]
    ensures app.Valid() && old(app.clock.now) <= at == app.clock.now
    ensures app.view == Release(app.args, old(app.view), i, at)
    ensures app.dongles[i].available && app.dongles[i].releasedAt == at
    ensures app.dongles[Next(i, app.args.n)].available && app.dongles[Next(i, app.args.n)].releasedAt == at
    ensures app.signals == old(app.signals) + 1
  {
    var releasedAt := app.clock.NowMs();
    at := releasedAt;
    assert app.Matches(i) && app.Matches(Next(i, app.args.n)) && app.Linked(i);
    var coder := app.coders[i];
    coder.left.available := true;
    coder.left.releasedAt := releasedAt;
    coder.right.available := true;
    coder.right.releasedAt := releasedAt;
    app.signals := app.signals + 1;
    app.view := Release(app.args, app.view, i, releasedAt);
    forall k: nat | k < app.args.n ensures app.Matches(k) && app.Linked(k) {
      assert old(app.Matches(k)) && old(app.Linked(k));
      assert k != i ==> app.dongles[k] != app.dongles[i];
      assert k != Next(i, app.args.n) ==> app.dongles[k] != app.dongles[Next(i, app.args.n)];
    }
  }

  method CoderIsDone(app: App, i: nat) returns (done: bool)
    requires app.Valid() && i < app.args.n
    ensures done <==> CoderDone(app.args, app.view, i)
  {
    assert app.Matches(i);
    done := app.args.required > 0 && app.coders[i].compilesDone >= app.args.required;
  }

  method AllCodersFinished(app: App) returns (finished: bool)
    requires app.Valid()
    ensures finished <==> AllFinished(app.args, app.view)
    ensures finished <==> forall k: nat :: k < app.args.n ==> app.coders[k].compilesDone >= app.args.required
  {
    var i := 0;
    while i < app.args.n
      invariant 0 <= i <= app.args.n
      invariant forall k: nat :: k < i ==> app.view.coders[k].done >= app.args.required
      invariant forall k: nat :: k < i ==> app.coders[k].compilesDone >= app.args.required
    {
      assert app.Matches(i);
      if app.coders[i].compilesDone < app.args.required { return false; }
      i := i + 1;
    }
    return true;
  }

  method SetStop(app: App)
    requires app.Valid()
    modifies app`view, app`simulationStop, app`signals
    ensures app.Valid() && app.view == old(app.view).(stop := true) && app.signals == old(app.signals) + 1
  {
    app.simulationStop := true;
    app.signals := app.signals + 1;
    app.view := app.view.(stop := true);
    forall k: nat | k < app.args.n ensures app.Matches(k) { assert old(app.Matches(k)); }
  }

  method CountOne(app: App, i: nat)
    requires app.Valid() && i < app.args.n
    modifies app`view, app.coders[i]
    ensures app.Valid() && app.view == CountCompile(app.args, old(app.view), i)
    ensures app.coders[i].compilesDone == old(app.coders[i].compilesDone) + 1
  {
    var coder := app.coders[i];
    assert app.Matches(i) && app.Linked(i);
    coder.compilesDone := coder.compilesDone + 1;
    app.view := CountCompile(app.args, app.view, i);
    forall k: nat | k < app.args.n ensures app.Matches(k) && app.Linked(k) {
      assert old(app.Matches(k)) && old(app.Linked(k));
      assert k != i ==> app.coders[k] != coder;
    }
  }

  /** The critical section of finish_compile: counts, and tells whether everybody is finished. */
  method CountAndTest(app: App, i: nat) returns (finished: bool)
    requires app.Valid() && i < app.args.n
    modifies app`view, app.coders[i]
    ensures app.Valid() && app.view == CountCompile(app.args, old(app.view), i)
    ensures finished <==> app.args.required > 0 && AllFinished(app.args, app.view)
  {
    CountOne(app, i);
    finished := false;
    if app.args.required > 0 {
      finished := AllCodersFinished(app);
    }
  }

  /** Counts a compile; the coder whose count completes the last quota stops the run. */
  method FinishCompile(app: App, i: nat) returns (finished: bool)
    requires app.Valid() && i < app.args.n
    modifies app`view, app`simulationStop, app`signals, app.coders[i]
    ensures app.Valid()
    ensures var counted := CountCompile(app.args, old(app.view), i);
      && (finished <==> app.args.required > 0 && AllFinished(app.args, counted))
      && app.view == if finished then counted.(stop := true) else counted
    ensures app.signals == old(app.signals) + if finished then 1 else 0
  {
    finished := CountAndTest(app, i);
    if finished { SetStop(app); }
  }

  // ------------------------------------------------------------------------ monitor

  /** What the monitor does under state_mutex before it accuses a coder. */
  method SeesBurnout(app: App, i: nat) returns (late: bool)
    requires app.Valid() && i < app.args.n
    modifies app.clock
    ensures app.Valid() && old(app.clock.now) <= app.clock.now
    ensures late ==> Overdue(app.args, app.view, i, app.clock.now)
    ensures !late ==> !Overdue(app.args, app.view, i, old(app.clock.now))
    ensures var start := app.coders[i].lastCompileStart;
      && (late ==> 0 < start && start + app.args.burnout <= app.clock.now)
      && (0 < start && start + app.args.burnout <= old(app.clock.now) ==> late)
  {
    assert app.Matches(i);
    var coder := app.coders[i];
    if coder.lastCompileStart <= 0 { return false; }
    var t := app.clock.NowMs();
    late := t - coder.lastCompileStart >= app.args.burnout;
  }

  /** Stops the run unless it is stopped; the first half of stop_for_burnout. */
  method StopFirst(app: App) returns (stopped: bool)
    requires app.Valid()
    modifies app`view, app`simulationStop, app`signals
    ensures app.Valid() && (stopped <==> !old(app.view).stop) && app.view == old(app.view).(stop := true)
    ensures app.signals == old(app.signals) + if stopped then 1 else 0
  {
    if app.simulationStop { return false; }
    SetStop(app);
    return true;
  }

  method StopForBurnout(app: App, id: nat) returns (stopped: bool)
    requires app.Valid()
    modifies app.clock, app`view, app`simulationStop, app`signals, app`output
    ensures app.Valid() && old(app.clock.now) <= app.clock.now
    ensures stopped <==> !old(app.view).stop
    ensures app.signals == old(app.signals) + if stopped then 1 else 0
    ensures app.view == old(app.view).(stop := true)
    ensures app.output == old(app.output) +
              if stopped then [Line(app.clock.now - app.startTime, id, BurnedOut)] else []
  {
    stopped := StopFirst(app);
    if stopped { app.LogMsgForce(id, BurnedOut); }
  }

  method CheckCoderBurnout(app: App, i: nat) returns (burned: bool)
    requires app.Valid() && i < app.args.n
    modifies app.clock, app`view, app`simulationStop, app`signals, app`output
    ensures app.Valid() && old(app.clock.now) <= app.clock.now
    ensures app.signals == old(app.signals) + if burned then 1 else 0
    ensures burned ==>
              && !old(app.view).stop && app.view == old(app.view).(stop := true)
              && Overdue(app.args, app.view, i, app.clock.now)
              && app.output == old(app.output) + [Line(app.clock.now - app.startTime, i + 1, BurnedOut)]
    ensures !burned ==>
              && app.view == old(app.view) && app.output == old(app.output)
              && (app.view.stop || !Overdue(app.args, app.view, i, old(app.clock.now)))
    // A look that begins with the coder past its deadline, the run being on, reports it.
    ensures var start := app.coders[i].lastCompileStart;
      !old(app.simulationStop) && 0 < start && start + app.args.burnout <= old(app.clock.now) ==> burned
  {
    burned := SeesBurnout(app, i);
    assert app.Matches(i);
    if burned { burned := StopForBurnout(app, app.coders[i].id); }
  }

  /** None of the first `m` coders is past its deadline at time `now`. */
  ghost predicate NoneOverdue(a: Args, s: State, m: nat, now: int)
    requires Shape(a, s)
  {
    forall i: nat :: i < m ==> !Overdue(a, s, i, now)
  }

  /** One scan, undisturbed by the coders: it reports the first coder found overdue, and
      finds one whenever some coder was overdue at the start and the run was on. */
  method CheckBurnouts(app: App) returns (burned: bool, ghost who: nat)
    requires app.Valid()
    modifies app.clock, app`view, app`simulationStop, app`signals, app`output
    ensures app.Valid() && old(app.clock.now) <= app.clock.now
    ensures app.signals == old(app.signals) + if burned then 1 else 0
    ensures burned ==>
              && who < app.args.n && !old(app.view).stop && app.view == old(app.view).(stop := true)
              && Overdue(app.args, app.view, who, app.clock.now)
              && NoneOverdue(app.args, old(app.view), who, old(app.clock.now))
              && app.output == old(app.output) + [Line(app.clock.now - app.startTime, who + 1, BurnedOut)]
    ensures !burned ==>
              && app.view == old(app.view) && app.output == old(app.output)
              && (app.view.stop || NoneOverdue(app.args, app.view, app.args.n, old(app.clock.now)))
    ensures !burned && !old(app.simulationStop) ==>
              forall j: nat :: j < app.args.n && 0 < app.coders[j].lastCompileStart ==>
                old(app.clock.now) < app.coders[j].lastCompileStart + app.args.burnout
  {
    var i := 0;
    who := 0;
    while i < app.args.n
      invariant 0 <= i <= app.args.n && app.Valid() && old(app.clock.now) <= app.clock.now
      invariant app.view == old(app.view) && app.output == old(app.output) && app.signals == old(app.signals)
      invariant old(app.view).stop || NoneOverdue(app.args, old(app.view), i, old(app.clock.now))
      invariant forall j: nat :: j < i && !old(app.simulationStop) && 0 < app.coders[j].lastCompileStart ==>
                  old(app.clock.now) < app.coders[j].lastCompileStart + app.args.burnout
    {
      burned := CheckCoderBurnout(app, i);
      if burned { return true, i; }
      i := i + 1;
    }
    return false, 0;
  }

  // ------------------------------------------------------------------------- sleeping

  /** The stop flag as a thread sees it: others may set it at any time, and have set it when it
      is read for the `stopsBy`-th time; nobody clears it. */
  class StopFlag {
    const stopsBy: nat
    var asked: nat
    var stopped: bool

    constructor (stopsBy: nat)
      ensures this.stopsBy == stopsBy && !stopped && asked == 0
    {
      this.stopsBy, asked, stopped := stopsBy, 0, false;
    }

    method IsStopped() returns (r: bool)
      modifies this
      ensures r == stopped && (old(stopped) ==> stopped)
      ensures asked == old(asked) + 1 && (asked >= stopsBy ==> stopped)
    {
      asked := asked + 1;
      if asked >= stopsBy { stopped := true; }
      if * { stopped := true; }
      r := stopped;
    }
  }

  /** Returns only when the time has passed or the run has been stopped; it naps a millisecond at a
      time, and never begins a nap when the time has passed since it read the clock first. */
  method GoodSleep(clock: Clock, flag: StopFlag, ms: nat)
    modifies clock, flag
    ensures old(clock.now) + ms <= clock.now || flag.stopped
    ensures old(flag.stopped) ==> flag.stopped
    ensures ms == 0 ==> clock.now == old(clock.now) && flag.stopped == old(flag.stopped)
    ensures |old(clock.naps)| <= |clock.naps|
    ensures forall k :: |old(clock.naps)| <= k < |clock.naps| ==>
              && |old(clock.readings)| < |clock.readings| && clock.naps[k].ms == 1
              && clock.naps[k].from < clock.readings[|old(clock.readings)|] + ms
  {
    if ms == 0 { return; }
    var start := clock.NowMs();
    var end := start + ms;
    var stopped := flag.IsStopped();
    while !stopped
      invariant stopped == flag.stopped && (old(flag.stopped) ==> flag.stopped)
      invariant old(clock.now) <= clock.now && old(clock.now) + ms <= end
      invariant |old(clock.readings)| < |clock.readings| && clock.readings[|old(clock.readings)|] == start
      invariant |old(clock.naps)| <= |clock.naps|
      invariant forall k :: |old(clock.naps)| <= k < |clock.naps| ==> clock.naps[k].ms == 1 && clock.naps[k].from < end
      decreases !stopped, end - clock.now
    {
      var t := clock.NowMs();
      var left := end - t;
      if left <= 0 { break; }
      if left > 1 { left := 1; }
      clock.Usleep(left);
      stopped := flag.IsStopped();
    }
  }
}
