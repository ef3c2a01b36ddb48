// scheduler_acquire_pair: registering a request and one pass of its waiting loop, from
// taking state_mutex to giving it up. Each pass is shown to be a run of the state machine.
module Acquire {
  import opened Ring
  import opened Table
  import opened Dispatch
  import opened Options
  import opened Runs
  import opened ScanEnds
  import opened Scheduler

  datatype Outcome = Acquired | Refused | Sleeping(wakeBy: int)

  method RegisterRequest(app: App, i: nat)
    requires app.Valid() && i < app.args.n
    modifies app`view, app`nextSequence, app.coders[i]
    ensures app.Valid() && app.view == Register(app.args, old(app.view), i)
    ensures var coder := app.coders[i];
      && coder.request.sequence == old(app.nextSequence) && app.nextSequence == old(app.nextSequence) + 1
      && coder.request.deadline == coder.lastCompileStart + app.args.burnout
      && coder.waiting && !coder.granted && coder.lastCompileStart == old(coder.lastCompileStart)
  {
    var coder := app.coders[i];
    assert app.Matches(i) && app.Linked(i);
    coder.request := coder.request.(sequence := app.nextSequence);
    app.nextSequence := app.nextSequence + 1;
    coder.request := coder.request.(deadline := coder.lastCompileStart + app.args.burnout);
    coder.waiting := true;
    coder.granted := false;
    app.view := Register(app.args, app.view, i);
    forall k: nat | k < app.args.n ensures app.Matches(k) && app.Linked(k) {
      assert old(app.Matches(k)) && old(app.Linked(k));
      assert k != i ==> app.coders[k] != coder;
    }
  }

  method PairCooldownLeft(app: App, i: nat) returns (left: int, ghost readAt: int)
    requires app.Valid() && i < app.args.n
    modifies app.clock
    ensures app.Valid() && old(app.clock.now) <= readAt == app.clock.now
    ensures left == Min(CooledAt(app.args, app.view, i), app.view.coders[i].request.deadline) - readAt
  {
    assert app.Matches(i) && app.Matches(Next(i, app.args.n)) && app.Linked(i);
    var coder := app.coders[i];
    var leftAt := coder.left.releasedAt + app.args.cooldown;
    var rightAt := coder.right.releasedAt + app.args.cooldown;
    var readyAt := leftAt;
    if rightAt > readyAt { readyAt := rightAt; }
    if readyAt > coder.request.deadline { readyAt := coder.request.deadline; }
    var t := app.clock.NowMs();
    left, readAt := readyAt - t, t;
  }

  /** Computes the time at which the waiter's sleep times out. */
  method WaitForScheduler(app: App, i: nat) returns (wakeBy: int, ghost readAt: int)
    requires app.Valid() && i < app.args.n
    modifies app.clock
    ensures app.Valid() && old(app.clock.now) <= readAt <= app.clock.now
    ensures wakeBy == app.clock.now + SleepFor(app.args, app.view, i, readAt)
  {
    assert app.Matches(i) && app.Matches(Next(i, app.args.n)) && app.Linked(i);
    var coder := app.coders[i];
    var t := app.clock.NowMs();
    var wait := coder.request.deadline - t;
    readAt := t;
    if coder.left.available && coder.right.available {
      wait, readAt := PairCooldownLeft(app, i);
    }
    if wait < 1 { wait := 1; }
    t := app.clock.NowMs();
    wakeBy := t + wait;
  }

  method AbandonRequest(app: App, i: nat)
    requires app.Valid() && i < app.args.n
    modifies app`view, app`signals, app.coders[i]
    ensures app.Valid() && app.view == Abandon(app.args, old(app.view), i)
    ensures !app.coders[i].waiting && !app.coders[i].granted && app.nextSequence == old(app.nextSequence)
    ensures app.signals == old(app.signals) + 1
  {
    var coder := app.coders[i];
    assert app.Matches(i) && app.Linked(i);
    coder.waiting := false;
    coder.granted := false;
    app.signals := app.signals + 1;
    app.view := Abandon(app.args, app.view, i);
    forall k: nat | k < app.args.n ensures app.Matches(k) && app.Linked(k) {
      assert old(app.Matches(k)) && old(app.Linked(k));
      assert k != i ==> app.coders[k] != coder;
    }
  }

  // --------------------------------------------------------------- passes as runs

  /** The look as a step of coder `i`. */
  function LookStep(i: nat, l: Look): Event {
    if l.served then Award(i, l.g) else Skip(i, l.g)
  }

  ghost function LookSteps(i: nat, ls: seq<Look>): (es: seq<Event>)
    ensures AreLooks(es, i)
  {
    if ls == [] then [] else LookSteps(i, ls[..|ls| - 1]) + [LookStep(i, ls[|ls| - 1])]
  }

  /** From `m` to `r` coder `i` has scanned on as far as `scan`, and nothing else happened. */
  ghost predicate Carried(a: Args, m: World, r: World, i: nat, scan: Dispatch.Scan)
    requires Sized(a, m) && i < a.n
  {
    && Sized(a, r) && r.st == scan.st && r.now == scan.now
    && r.pcs == m.pcs[i := Dispatching(scan.at)] && r.mutex == m.mutex
  }

  lemma CarriedFurther(a: Args, m: World, mid: World, i: nat, scan: Dispatch.Scan, l: Look)
    requires Sized(a, m) && i < a.n && Carried(a, m, mid, i, scan) && LookAllowed(a, scan, l)
    ensures Enabled(a, mid, LookStep(i, l))
    ensures Carried(a, m, Apply(a, mid, LookStep(i, l)), i, AfterLook(a, scan, l))
  {
  }

  /** A dispatch, made while coder `i` holds state_mutex, is a run of looks. */
  lemma {:induction false} DispatchIsARun(a: Args, m: World, i: nat, ls: seq<Look>)
    requires Sized(a, m) && i < a.n && m.pcs[i] == Dispatching(Position(0, false, m.now))
    requires Looks(a, FromFirst(m.st, m.now), ls)
    ensures Legal(a, m, LookSteps(i, ls))
    ensures Carried(a, m, Reach(a, m, LookSteps(i, ls)), i, AfterLooks(a, FromFirst(m.st, m.now), ls))
    decreases |ls|
  {
    if ls == [] {
      assert m.pcs[i := Dispatching(Position(0, false, m.now))] == m.pcs;
    } else {
      var k := |ls| - 1;
      var es, scan := LookSteps(i, ls[..k]), AfterLooks(a, FromFirst(m.st, m.now), ls[..k]);
      DispatchIsARun(a, m, i, ls[..k]);
      CarriedFurther(a, m, Reach(a, m, es), i, scan, ls[k]);
      Extend(a, m, es, LookStep(i, ls[k]));
    }
  }

  /** The objects hold what the world says, and its clock does not run ahead. */
  ghost predicate Shows(app: App, w: World)
    reads app`view, app.clock
  {
    Sized(app.args, w) && w.st == app.view && w.now <= app.clock.now
  }

  method TakeMutex(app: App, i: nat, entering: bool, ghost w: World) returns (ghost es: seq<Event>)
    requires app.Valid() && i < app.args.n && Shows(app, w) && w.mutex == None
    requires if entering then w.pcs[i].Ready? else w.pcs[i].Asleep?
    modifies app`view, app`nextSequence, app.coders[i]
    ensures app.Valid() && Legal(app.args, w, es) && Shows(app, Reach(app.args, w, es))
    ensures Reach(app.args, w, es).pcs[i].Looping?
  {
    if entering {
      RegisterRequest(app, i);
      es := [Enter(i)];
    } else {
      es := [Wake(i)];
    }
    Extend(app.args, w, [], es[0]);
    assert [] + [es[0]] == es;
  }

  lemma ProceedRun(a: Args, m: World, i: nat, to: int)
    requires Sized(a, m) && i < a.n && m.pcs[i].Looping? && !m.st.stop && m.now <= to && Unexpired(a, m.st, i, to)
    ensures Legal(a, m, [Tick(to), Proceed(i)])
    ensures var r := Reach(a, m, [Tick(to), Proceed(i)]);
      r.st == m.st && r.now == to && r.pcs[i] == Dispatching(Position(0, false, to))
  {
    Ticked(a, m, to, Proceed(i));
  }

  lemma ReturnRun(a: Args, m: World, i: nat, to: int)
    requires Sized(a, m) && i < a.n && Exhausted(a, m.pcs[i]) && m.st.coders[i].granted && m.now <= to
    ensures Legal(a, m, [Tick(to), Return(i)])
    ensures var r := Reach(a, m, [Tick(to), Return(i)]);
      && r.st == m.st && r.now == to && r.pcs[i] == Compiling(to + a.compile) && r.mutex == None
      && OthersSignalled(r.pcs, i)
  {
    Ticked(a, m, to, Return(i));
  }

  lemma SleepRun(a: Args, m: World, i: nat, left: int, readAt: int, to: int)
    requires Sized(a, m) && i < a.n && Exhausted(a, m.pcs[i]) && !m.st.coders[i].granted
    requires m.now <= left <= readAt <= to
    ensures Legal(a, m, [Tick(left), Sleep(i, readAt, to)])
    ensures var r := Reach(a, m, [Tick(left), Sleep(i, readAt, to)]);
      && r.st == m.st && r.now == to && r.mutex == None
      && r.pcs[i] == Asleep(m.pcs[i].scan.passStart, readAt, to, to + SleepFor(a, m.st, i, readAt), false)
      && OthersSignalled(r.pcs, i)
  {
    Ticked(a, m, left, Sleep(i, readAt, to));
  }

  method Refuse(app: App, i: nat, ghost w: World, ghost es0: seq<Event>) returns (ghost es: seq<Event>)
    requires app.Valid() && i < app.args.n && Sized(app.args, w) && Legal(app.args, w, es0)
    requires Shows(app, Reach(app.args, w, es0)) && Reach(app.args, w, es0).pcs[i].Looping?
    requires app.view.stop || !Unexpired(app.args, app.view, i, app.clock.now)
    modifies app`view, app`signals, app.coders[i]
    ensures app.Valid() && Legal(app.args, w, es) && Shows(app, Reach(app.args, w, es))
    ensures Reach(app.args, w, es).mutex == None && Reach(app.args, w, es).pcs[i].Exited?
    ensures OthersSignalled(Reach(app.args, w, es).pcs, i)
    ensures app.signals == old(app.signals) + 1
  {
    AbandonRequest(app, i);
    Ticked(app.args, Reach(app.args, w, es0), app.clock.now, GiveUp(i));
    Join(app.args, w, es0, [Tick(app.clock.now), GiveUp(i)]);
    es := es0 + [Tick(app.clock.now), GiveUp(i)];
  }

  method DispatchAndLeave(app: App, i: nat, ghost w: World, ghost es0: seq<Event>)
    returns (outcome: Outcome, ghost es: seq<Event>)
    requires app.Valid() && i < app.args.n && Sized(app.args, w) && Legal(app.args, w, es0)
    requires Shows(app, Reach(app.args, w, es0)) && Reach(app.args, w, es0).pcs[i].Looping?
    requires !app.view.stop && Unexpired(app.args, app.view, i, app.clock.now)
    modifies app.clock, app`view, app`output, app`signals, app.coders, app.dongles
    ensures app.Valid() && Legal(app.args, w, es) && Shows(app, Reach(app.args, w, es))
    ensures Reach(app.args, w, es).mutex == None && OthersSignalled(Reach(app.args, w, es).pcs, i)
    ensures match outcome
            case Acquired => app.view.coders[i].granted && Reach(app.args, w, es).pcs[i].Compiling?
                             && Reach(app.args, w, es).pcs[i].until == app.clock.now + app.args.compile
            case Sleeping(wakeBy) => Reach(app.args, w, es).pcs[i].Asleep?
                                     && Reach(app.args, w, es).pcs[i].wakeBy == wakeBy && !app.view.coders[i].granted
            case Refused => false
    ensures app.signals == old(app.signals) + 1
  {
    ghost var from, m := app.clock.now, Reach(app.args, w, es0);
    ProceedRun(app.args, m, i, from);
    Join(app.args, w, es0, [Tick(from), Proceed(i)]);
    es := es0 + [Tick(from), Proceed(i)];
    m := Reach(app.args, w, es);
    ghost var gs, passStart, ls;
    gs, passStart, ls := app.SchedulerDispatch();
    DispatchIsARun(app.args, m, i, ls);
    Join(app.args, w, es, LookSteps(i, ls));
    es := es + LookSteps(i, ls);
    outcome, es := Leave(app, i, w, es);
  }

  method Leave(app: App, i: nat, ghost w: World, ghost es0: seq<Event>)
    returns (outcome: Outcome, ghost es: seq<Event>)
    requires app.Valid() && i < app.args.n && Sized(app.args, w) && Legal(app.args, w, es0)
    requires Shows(app, Reach(app.args, w, es0)) && Exhausted(app.args, Reach(app.args, w, es0).pcs[i])
    modifies app.clock
    ensures app.Valid() && Legal(app.args, w, es) && Shows(app, Reach(app.args, w, es))
    ensures Reach(app.args, w, es).mutex == None && OthersSignalled(Reach(app.args, w, es).pcs, i)
    ensures match outcome
            case Acquired => app.view.coders[i].granted && Reach(app.args, w, es).pcs[i].Compiling?
                             && Reach(app.args, w, es).pcs[i].until == app.clock.now + app.args.compile
            case Sleeping(wakeBy) => Reach(app.args, w, es).pcs[i].Asleep?
                                     && Reach(app.args, w, es).pcs[i].wakeBy == wakeBy && !app.view.coders[i].granted
            case Refused => false
  {
    ghost var m, left := Reach(app.args, w, es0), app.clock.now;
    assert app.Matches(i);
    if app.coders[i].granted {
      ReturnRun(app.args, m, i, left);
      Join(app.args, w, es0, [Tick(left), Return(i)]);
      return Acquired, es0 + [Tick(left), Return(i)];
    }
    ghost var readAt;
    var wakeBy;
    wakeBy, readAt := WaitForScheduler(app, i);
    SleepRun(app.args, m, i, left, readAt, app.clock.now);
    Join(app.args, w, es0, [Tick(left), Sleep(i, readAt, app.clock.now)]);
    es := es0 + [Tick(left), Sleep(i, readAt, app.clock.now)];
    outcome := Sleeping(wakeBy);
  }

  /** One critical section of scheduler_acquire_pair: the first, which registers, or one that
      follows a wake-up. */
  method AcquirePass(app: App, i: nat, entering: bool, ghost w: World)
    returns (outcome: Outcome, ghost es: seq<Event>)
    requires app.Valid() && i < app.args.n && Shows(app, w) && w.mutex == None
    requires if entering then w.pcs[i].Ready? else w.pcs[i].Asleep?
    modifies app.clock, app`view, app`nextSequence, app`output, app`signals, app.coders, app.dongles
    ensures app.Valid() && Legal(app.args, w, es) && Shows(app, Reach(app.args, w, es))
    ensures Reach(app.args, w, es).mutex == None && OthersSignalled(Reach(app.args, w, es).pcs, i)
    ensures match outcome
            case Acquired => app.view.coders[i].granted && Reach(app.args, w, es).pcs[i].Compiling?
                             && Reach(app.args, w, es).pcs[i].until == app.clock.now + app.args.compile
            case Sleeping(wakeBy) => Reach(app.args, w, es).pcs[i].Asleep?
                                     && Reach(app.args, w, es).pcs[i].wakeBy == wakeBy && !app.view.coders[i].granted
            case Refused => Reach(app.args, w, es).pcs[i].Exited?
    ensures app.signals == old(app.signals) + 1
  {
    es := TakeMutex(app, i, entering, w);
    assert app.Matches(i);
    if !app.simulationStop {
      var t := app.clock.NowMs();
      if t < app.coders[i].request.deadline {
        outcome, es := DispatchAndLeave(app, i, w, es);
        return;
      }
    }
    es := Refuse(app, i, w, es);
    outcome := Refused;
  }
}
