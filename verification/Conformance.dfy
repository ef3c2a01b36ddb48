// The critical sections of the objects, seen as runs of the state machine: a world that
// shows the objects stays reachable, so what holds in every run holds of the objects.
module Conformance {
  import opened Ring
  import opened Table
  import opened Options
  import opened Runs
  import opened Ownership
  import opened Scheduler
  import opened Acquire
  import opened Lifecycle

  /** start_all_threads on a newly built application begins a run. */
  method StartPass(app: App) returns (ghost w: World)
    requires app.Valid() && 2 <= app.args.n && Unstarted(app.args, app.view)
    modifies app, app.clock, app.coders
    ensures app.Valid() && app.simulationStarted && Reachable(app.args, w) && Shows(app, w)
    ensures w == Init(app.args, app.startTime)
  {
    StartAllThreads(app);
    StartIsReachable(app.args, app.startTime);
    w := Init(app.args, app.startTime);
  }

  // ------------------------------------------------------------------ tests of the stop flag

  /** The top of the loop of coder_routine: on to acquire exactly when the run goes on and the
      coder still has compiles to do. */
  method TopPass(app: App, i: nat, ghost w: World) returns (goesOn: bool, ghost es: seq<Event>)
    requires app.Valid() && i < app.args.n && Shows(app, w) && w.mutex == None && w.pcs[i].Idle?
    ensures Legal(app.args, w, es) && Shows(app, Reach(app.args, w, es)) && Reach(app.args, w, es).mutex == None
    ensures if goesOn then Reach(app.args, w, es).pcs[i].Ready? else Reach(app.args, w, es).pcs[i].Exited?
    ensures goesOn <==>
              !app.simulationStop && (app.args.required == 0 || app.coders[i].compilesDone < app.args.required)
  {
    assert app.Matches(i);
    goesOn := !app.simulationStop;
    if goesOn {
      var done := CoderIsDone(app, i);
      goesOn := !done;
    }
    es := [if goesOn then PassTop(i) else Quit(i)];
    OneStep(app.args, w, es[0]);
  }

  /** Between its two tests the others cannot make a coder done, or undone. */
  lemma {:induction false} OthersLeaveCount(a: Args, w: World, more: seq<Event>, i: nat)
    requires Sized(a, w) && Legal(a, w, more) && Without(more, i) && i < a.n
    ensures CoderDone(a, Reach(a, w, more).st, i) <==> CoderDone(a, w.st, i)
    decreases |more|
  {
    if more != [] {
      var k := |more| - 1;
      OthersLeaveCount(a, w, more[..k], i);
      CountStays(a, Reach(a, w, more[..k]), more[k], i);
    }
  }

  lemma CountStays(a: Args, w: World, e: Event, i: nat)
    requires Sized(a, w) && Enabled(a, w, e) && !OfCoder(e, i) && i < a.n
    ensures Apply(a, w, e).st.coders[i].done == w.st.coders[i].done
  {
  }

  /** The test after releasing. */
  method ReleasedPass(app: App, i: nat, ghost w: World) returns (goesOn: bool, ghost es: seq<Event>)
    requires app.Valid() && i < app.args.n && Shows(app, w) && w.mutex == None && w.pcs[i].Released?
    ensures Legal(app.args, w, es) && Shows(app, Reach(app.args, w, es)) && Reach(app.args, w, es).mutex == None
    ensures if goesOn then Reach(app.args, w, es).pcs[i].Counting? else Reach(app.args, w, es).pcs[i].Exited?
    ensures goesOn <==> !app.simulationStop
  {
    goesOn := !app.simulationStop;
    es := [if goesOn then PassCompiled(i) else Quit(i)];
    OneStep(app.args, w, es[0]);
  }

  /** The test after debugging. */
  method DebuggedPass(app: App, i: nat, ghost w: World) returns (goesOn: bool, ghost es: seq<Event>)
    requires app.Valid() && i < app.args.n && Shows(app, w) && w.mutex == None
    requires w.pcs[i].Debugging? && (app.view.stop || w.pcs[i].until <= app.clock.now)
    ensures Legal(app.args, w, es) && Shows(app, Reach(app.args, w, es)) && Reach(app.args, w, es).mutex == None
    ensures Reach(app.args, w, es).pcs[i] == if goesOn then Refactoring(app.clock.now + app.args.refactor) else Exited
    ensures goesOn <==> !app.simulationStop
  {
    goesOn := !app.simulationStop;
    if goesOn {
      Ticked(app.args, w, app.clock.now, EndDebug(i));
      es := [Tick(app.clock.now), EndDebug(i)];
    } else {
      es := [Quit(i)];
      OneStep(app.args, w, Quit(i));
    }
  }

  /** After refactoring the coder is back at the top of the loop, where TopPass tests. */
  lemma RoundEnds(a: Args, w: World, i: nat, now: int) returns (es: seq<Event>)
    requires Sized(a, w) && i < a.n && w.pcs[i].Refactoring? && w.now <= now
    requires w.st.stop || w.pcs[i].until <= now
    ensures Legal(a, w, es) && Reach(a, w, es) == Move(w, i, Idle).(now := now)
  {
    Ticked(a, w, now, EndRefactor(i));
    es := [Tick(now), EndRefactor(i)];
  }

  // ------------------------------------------------------------------------- sleeping

  /** None of the steps is one of coder `i`. */
  ghost predicate Without(es: seq<Event>, i: nat) {
    forall k :: 0 <= k < |es| ==> !OfCoder(es[k], i)
  }

  lemma {:induction false} OthersLeavePlace(a: Args, w: World, more: seq<Event>, i: nat)
    requires Sized(a, w) && Legal(a, w, more) && Without(more, i) && i < a.n && !w.pcs[i].Asleep?
    ensures Reach(a, w, more).pcs[i] == w.pcs[i]
    decreases |more|
  {
    if more != [] {
      var k := |more| - 1;
      OthersLeavePlace(a, w, more[..k], i);
      PlaceStays(a, Reach(a, w, more[..k]), more[k], i);
    }
  }

  predicate Sleeps(pc: Pc) {
    pc.Compiling? || pc.Debugging? || pc.Refactoring?
  }

  function SleepTime(a: Args, pc: Pc): nat
    requires Sleeps(pc)
  {
    if pc.Compiling? then a.compile else if pc.Debugging? then a.debug else a.refactor
  }

  /** What the next pass of the sleeper asks for. */
  predicate MayGoOn(w: World, i: nat)
    requires i < |w.pcs| && Sleeps(w.pcs[i])
  {
    w.st.stop || w.pcs[i].until <= w.now
  }

  ghost predicate Seen(a: Args, w: World, more: seq<Event>, clock: Clock, flag: StopFlag)
    requires Sized(a, w)
    reads clock, flag
  {
    Legal(a, w, more) && Reach(a, w, more).now == clock.now && Reach(a, w, more).st.stop == flag.stopped
  }

  /** good_sleep, while the others do whatever they do: if they have brought the world to the
      clock and the stop flag the sleeper sees on waking, it may go on. */
  method SleepPass(a: Args, i: nat, clock: Clock, flag: StopFlag, ms: nat, ghost w: World)
    requires Sized(a, w) && i < a.n && Sleeps(w.pcs[i]) && ms == SleepTime(a, w.pcs[i])
    requires w.pcs[i].until <= clock.now + ms
    modifies clock, flag
    ensures forall more: seq<Event> :: Seen(a, w, more, clock, flag) && Without(more, i) ==>
              Reach(a, w, more).pcs[i] == w.pcs[i] && MayGoOn(Reach(a, w, more), i)
  {
    GoodSleep(clock, flag, ms);
    forall more: seq<Event> | Seen(a, w, more, clock, flag) && Without(more, i)
      ensures Reach(a, w, more).pcs[i] == w.pcs[i] && MayGoOn(Reach(a, w, more), i) {
      OthersLeavePlace(a, w, more, i);
    }
  }

  // ---------------------------------------------------------------- release and count

  lemma GiveBackRun(a: Args, w: World, i: nat, at: int) returns (es: seq<Event>)
    requires Sized(a, w) && i < a.n && w.mutex == None && w.pcs[i].Compiling?
    requires w.now <= at && (w.st.stop || w.pcs[i].until <= at)
    ensures Legal(a, w, es)
    ensures var r := Reach(a, w, es);
      && r.st == Release(a, w.st, i, at) && r.now == at && r.pcs[i].Released? && r.mutex == None
      && OthersSignalled(r.pcs, i)
  {
    Ticked(a, w, at, EndCompile(i));
    es := OneMoreStep(a, w, [Tick(at), EndCompile(i)], GiveBack(i));
  }

  /** The compile is over, or the run stopped: the pair goes back. */
  method ReleasePass(app: App, i: nat, ghost w: World) returns (ghost es: seq<Event>)
    requires app.Valid() && i < app.args.n && Shows(app, w) && w.mutex == None
    requires w.pcs[i].Compiling? && (app.view.stop || w.pcs[i].until <= app.clock.now)
    modifies app.clock, app`view, app`signals, app.dongles[i], app.dongles[Next(i, app.args.n)]
    ensures app.Valid() && Legal(app.args, w, es) && Shows(app, Reach(app.args, w, es))
    ensures Reach(app.args, w, es).pcs[i].Released? && Reach(app.args, w, es).mutex == None
    // Its broadcast is the one of the state machine.
    ensures app.signals == old(app.signals) + 1 && OthersSignalled(Reach(app.args, w, es).pcs, i)
    ensures app.dongles[i].releasedAt == app.clock.now && app.dongles[Next(i, app.args.n)].releasedAt == app.clock.now
    ensures app.dongles[i].available && app.dongles[Next(i, app.args.n)].available
  {
    ghost var at := ReleaseBothDongles(app, i);
    es := GiveBackRun(app.args, w, i, at);
    assert app.Matches(i) && app.Matches(Next(i, app.args.n));
  }

  lemma FinishRun(a: Args, w: World, i: nat) returns (es: seq<Event>)
    requires Sized(a, w) && i < a.n && w.mutex == None && w.pcs[i].Counting?
    ensures Legal(a, w, es)
    ensures var counted, r := CountCompile(a, w.st, i), Reach(a, w, es);
      && r.now == w.now && r.mutex == None
      && if a.required > 0 && AllFinished(a, counted)
         then r.st == counted.(stop := true) && r.pcs[i].Exited?
         else r.st == counted && r.pcs[i] == Debugging(w.now + a.debug)
  {
    OneStep(a, w, Finish(i));
    es := [Finish(i)];
    if a.required > 0 && AllFinished(a, CountCompile(a, w.st, i)) {
      es := OneMoreStep(a, w, es, SetStop(i));
    }
  }

  /** The critical section that counts. */
  method CountPass(app: App, i: nat, ghost w: World) returns (finished: bool, ghost es: seq<Event>)
    requires app.Valid() && i < app.args.n && Shows(app, w) && w.mutex == None && w.pcs[i].Counting?
    modifies app`view, app.coders[i]
    ensures app.Valid() && Legal(app.args, w, es) && Shows(app, Reach(app.args, w, es))
    ensures Reach(app.args, w, es).mutex == None
    ensures Reach(app.args, w, es).pcs[i] == if finished then Reporting else Debugging(w.now + app.args.debug)
    ensures finished <==> app.args.required > 0 && AllFinished(app.args, app.view)
  {
    finished := CountAndTest(app, i);
    es := [Finish(i)];
    OneStep(app.args, w, Finish(i));
  }

  /** The critical section that stops the run, whatever the others did since the last compile
      was counted. */
  method StopPass(app: App, i: nat, ghost w: World) returns (ghost es: seq<Event>)
    requires app.Valid() && i < app.args.n && Shows(app, w) && w.mutex == None && w.pcs[i].Reporting?
    modifies app`view, app`simulationStop, app`signals
    ensures app.Valid() && app.simulationStop && Legal(app.args, w, es) && Shows(app, Reach(app.args, w, es))
    ensures Reach(app.args, w, es).mutex == None && Reach(app.args, w, es).pcs[i].Exited?
    ensures app.signals == old(app.signals) + 1 && OthersSignalled(Reach(app.args, w, es).pcs, i)
  {
    Lifecycle.SetStop(app);
    es := [Event.SetStop(i)];
    OneStep(app.args, w, Event.SetStop(i));
  }

  /** Counting a compile, and stopping the run when it was the last one, undisturbed. */
  method FinishPass(app: App, i: nat, ghost w: World) returns (finished: bool, ghost es: seq<Event>)
    requires app.Valid() && i < app.args.n && Shows(app, w) && w.mutex == None && w.pcs[i].Counting?
    modifies app`view, app`simulationStop, app`signals, app.coders[i]
    ensures app.Valid() && Legal(app.args, w, es) && Shows(app, Reach(app.args, w, es))
    ensures Reach(app.args, w, es).mutex == None
    ensures if finished then app.simulationStop && Reach(app.args, w, es).pcs[i].Exited?
            else Reach(app.args, w, es).pcs[i].Debugging?
  {
    finished := FinishCompile(app, i);
    es := FinishRun(app.args, w, i);
  }

  // ------------------------------------------------------------------------- the monitor

  /** The critical section in which the monitor looks at one coder. */
  method AccusePass(app: App, i: nat, ghost w: World) returns (late: bool, ghost es: seq<Event>)
    requires app.Valid() && i < app.args.n && Shows(app, w) && w.mutex == None && w.monitor.Scanning?
    modifies app.clock
    ensures app.Valid() && Legal(app.args, w, es) && Shows(app, Reach(app.args, w, es))
    ensures Reach(app.args, w, es).mutex == None
    ensures Reach(app.args, w, es).monitor == if late then Accusing(i) else Scanning
    ensures !late ==> !Overdue(app.args, app.view, i, old(app.clock.now))
    ensures var start := app.coders[i].lastCompileStart;
      && (late ==> 0 < start && start + app.args.burnout <= app.clock.now)
      && (0 < start && start + app.args.burnout <= old(app.clock.now) ==> late)
  {
    late := SeesBurnout(app, i);
    es := [];
    if late {
      Ticked(app.args, w, app.clock.now, Accuse(i));
      es := [Tick(app.clock.now), Accuse(i)];
    }
  }

  /** The critical section that stops the run for a burnout, whatever the others did since the
      accusation: in vain exactly when they stopped it themselves. */
  method ConvictPass(app: App, ghost w: World) returns (stopped: bool, ghost es: seq<Event>)
    requires app.Valid() && Shows(app, w) && w.mutex == None && w.monitor.Accusing?
    modifies app`view, app`simulationStop, app`signals
    ensures app.Valid() && app.simulationStop && Legal(app.args, w, es) && Shows(app, Reach(app.args, w, es))
    ensures Reach(app.args, w, es).mutex == None
    ensures stopped <==> !old(app.simulationStop)
    // Stopping the run wakes everybody, coder by coder.
    ensures app.signals == old(app.signals) + if stopped then 1 else 0
    ensures stopped ==> forall k: nat :: k < app.args.n && Reach(app.args, w, es).pcs[k].Asleep? ==>
              Reach(app.args, w, es).pcs[k].signalled
    ensures Reach(app.args, w, es).monitor == if stopped then Writing(w.monitor.coder) else Scanning
  {
    stopped := StopFirst(app);
    es := [Convict];
    OneStep(app.args, w, Convict);
  }

  /** Writing the burnout line. */
  method WritePass(app: App, ghost w: World, i: nat) returns (ghost es: seq<Event>)
    requires app.Valid() && Shows(app, w) && w.monitor == Writing(i)
    modifies app.clock, app`output
    ensures app.Valid() && Legal(app.args, w, es) && Shows(app, Reach(app.args, w, es))
    ensures Reach(app.args, w, es).burned == Some(Start(i, app.clock.now))
    ensures app.output == old(app.output) + [Line(app.clock.now - app.startTime, i + 1, BurnedOut)]
  {
    app.LogMsgForce(i + 1, BurnedOut);
    Ticked(app.args, w, app.clock.now, WriteVerdict);
    es := [Tick(app.clock.now), WriteVerdict];
  }

  /** The test at the top of monitor_routine. */
  method MonitorPass(app: App, ghost w: World) returns (goesOn: bool, ghost es: seq<Event>)
    requires app.Valid() && Shows(app, w) && w.mutex == None && w.monitor.Scanning?
    ensures Legal(app.args, w, es) && Shows(app, Reach(app.args, w, es)) && Reach(app.args, w, es).mutex == None
    ensures goesOn <==> !app.simulationStop
    ensures Reach(app.args, w, es).monitor == if goesOn then Scanning else Retired
  {
    goesOn := !app.simulationStop;
    es := [];
    if !goesOn {
      es := [Retire];
      OneStep(app.args, w, Retire);
    }
  }

  /** The monitor looks at one coder, undisturbed; a verdict is the burnout of the run. */
  method VerdictPass(app: App, i: nat, ghost w: World) returns (burned: bool, ghost es: seq<Event>)
    requires app.Valid() && i < app.args.n && Shows(app, w) && w.mutex == None && w.monitor.Scanning?
    modifies app.clock, app`view, app`simulationStop, app`signals, app`output
    ensures app.Valid() && Legal(app.args, w, es) && Shows(app, Reach(app.args, w, es))
    ensures Reach(app.args, w, es).mutex == None
    ensures if burned then Reach(app.args, w, es).burned == Some(Start(i, app.clock.now)) else es == []
  {
    burned := CheckCoderBurnout(app, i);
    es := [];
    if burned { es := VerdictRun(app.args, w, i, app.clock.now); }
  }

  /** The ownership theorem on the objects: a dongle object is unavailable exactly when one
      of the two coders linked to it owns it, and that coder owns both its dongles. */
  lemma ObjectsAreOwned(app: App, w: World)
    requires app.Valid() && Shows(app, w) && Reachable(app.args, w)
    ensures forall d: nat :: d < app.args.n ==>
              (!app.dongles[d].available <==>
                exists i :: i in Holders(app.args, w) && app.dongles[d] in {app.coders[i].left, app.coders[i].right})
    ensures |Holders(app.args, w)| <= app.args.n / 2
  {
    OwnershipInEveryRun(app.args, w);
    var holders := Holders(app.args, w);
    forall d: nat | d < app.args.n
      ensures !app.dongles[d].available <==>
                exists i :: i in holders && app.dongles[d] in {app.coders[i].left, app.coders[i].right} {
      assert app.Matches(d);
      forall i | i in holders
        ensures app.dongles[d] in {app.coders[i].left, app.coders[i].right} <==> d in Pair(i, app.args.n) {
        assert app.Linked(i);
      }
    }
  }
}
