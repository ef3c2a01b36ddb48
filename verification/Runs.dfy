// Every run of the coders and the monitor, one critical section of state_mutex at a time.
// Inside a dispatch each grant is a step of its own, so that the clock may advance between
// the readings it makes. Steps of one coder interleave freely with those of the others.
module Runs {
  import opened Requests
  import opened Ring
  import opened Table
  import opened Dispatch
  import opened Options

  /** Where a coder's thread is in coder_routine. */
  datatype Pc =
    | Idle                                   // at the top of the loop
    | Ready                                  // neither stopped nor done: about to acquire
    | Looping                                // in scheduler_acquire_pair, holding state_mutex
    | Dispatching(scan: Position)            // scanning the coders, holding state_mutex
    | Asleep(passStart: int, readAt: int, since: int, wakeBy: int, signalled: bool)
    | Compiling(until: int)                  // holding the pair until at least `until`, unless stopped
    | Releasing(at: int)                     // the release time is read, state_mutex not yet locked
    | Released
    | Counting                               // past the stop test, about to count the compile
    | Reporting                              // everyone has finished: about to set the stop flag
    | Debugging(until: int)
    | Refactoring(until: int)
    | Exited

  datatype Monitor = Scanning | Accusing(coder: nat) | Writing(coder: nat) | Retired

  datatype Start = Start(coder: nat, at: int)

  /** `owner`, `starts`, `started`, `reports` and `burned` only record what happened. */
  datatype World = World(now: int, st: State, pcs: seq<Pc>, mutex: Option<nat>, monitor: Monitor,
                         owner: seq<Option<nat>>, starts: seq<Start>, started: seq<nat>,
                         reports: nat, burned: Option<Start>)

  datatype Event =
    | Tick(to: int)
    | PassTop(i: nat)
    | Enter(i: nat)
    | Wake(i: nat)
    | GiveUp(i: nat)
    | Proceed(i: nat)
    | Award(i: nat, g: Grant)
    | Skip(i: nat, g: Grant)
    | Return(i: nat)
    | Sleep(i: nat, readAt: int, since: int)
    | EndCompile(i: nat)
    | GiveBack(i: nat)
    | PassCompiled(i: nat)
    | Finish(i: nat)
    | EndDebug(i: nat)
    | EndRefactor(i: nat)
    | Quit(i: nat)
    | SetStop(i: nat)
    | Accuse(i: nat)
    | Convict
    | WriteVerdict
    | Retire

  /** Steps of the monitor; those of coder `i` carry `i`. */
  predicate OfMonitor(e: Event) {
    e.Accuse? || e.Convict? || e.WriteVerdict? || e.Retire?
  }

  predicate OfCoder(e: Event, i: nat) {
    !e.Tick? && !OfMonitor(e) && e.i == i
  }

  predicate Sized(a: Args, w: World) {
    2 <= a.n && Shape(a, w.st) && |w.pcs| == |w.owner| == |w.started| == a.n
  }

  /** Waking the sleepers of stop_cond. */
  function Broadcast(pcs: seq<Pc>): (r: seq<Pc>)
    ensures |r| == |pcs|
    ensures forall k :: 0 <= k < |pcs| ==>
              r[k] == if pcs[k].Asleep? then pcs[k].(signalled := true) else pcs[k]
  {
    seq(|pcs|, k requires 0 <= k < |pcs| => if pcs[k].Asleep? then pcs[k].(signalled := true) else pcs[k])
  }

  /** Nobody but coder `i` sleeps unsignalled. */
  predicate OthersSignalled(pcs: seq<Pc>, i: nat) {
    forall k: nat :: k < |pcs| && k != i && pcs[k].Asleep? ==> pcs[k].signalled
  }

  function Max(x: int, y: int): int { if x < y then y else x }
  function Min(x: int, y: int): int { if x < y then x else y }

  /** When both dongles of the coder have cooled. */
  function CooledAt(a: Args, s: State, i: nat): int
    requires Shape(a, s) && i < a.n
  {
    Max(s.dongles[i].releasedAt, s.dongles[Next(i, a.n)].releasedAt) + a.cooldown
  }

  /** How long a waiter sleeps, from the clock reading `readAt`. */
  function SleepFor(a: Args, s: State, i: nat, readAt: int): int
    requires Shape(a, s) && i < a.n
  {
    var deadline := s.coders[i].request.deadline;
    Max(1, (if PairAvailable(a, s, i) then Min(CooledAt(a, s, i), deadline) else deadline) - readAt)
  }

  predicate StopSeen(pc: Pc) {
    pc.Idle? || pc.Released? || pc.Debugging?
  }

  /** The scan has come to the coder of `g`. */
  predicate LooksAt(a: Args, pc: Pc, g: Grant) {
    pc.Dispatching? && g.coder == pc.scan.next && g.coder < a.n
  }

  /** A whole pass has served nobody. */
  predicate Exhausted(a: Args, pc: Pc) {
    pc.Dispatching? && pc.scan.next == a.n
  }

  predicate Enabled(a: Args, w: World, e: Event)
    requires Sized(a, w)
  {
    match e
    case Tick(to) => w.now <= to
    case PassTop(i) => i < a.n && w.pcs[i].Idle? && w.mutex == None && !w.st.stop && !CoderDone(a, w.st, i)
    case Enter(i) => i < a.n && w.pcs[i].Ready? && w.mutex == None
    case Wake(i) => i < a.n && w.pcs[i].Asleep? && w.mutex == None
    case GiveUp(i) => i < a.n && w.pcs[i].Looping? && (w.st.stop || !Unexpired(a, w.st, i, w.now))
    case Proceed(i) => i < a.n && w.pcs[i].Looping? && !w.st.stop && Unexpired(a, w.st, i, w.now)
    case Award(i, g) => i < a.n && LooksAt(a, w.pcs[i], g) && Allowed(a, w.st, w.now, g)
    case Skip(i, g) => i < a.n && LooksAt(a, w.pcs[i], g) && Skipped(a, w.st, w.now, g)
    case Return(i) => i < a.n && Exhausted(a, w.pcs[i]) && w.st.coders[i].granted
    case Sleep(i, readAt, since) =>
      i < a.n && Exhausted(a, w.pcs[i]) && !w.st.coders[i].granted && w.now <= readAt <= since
    case EndCompile(i) => i < a.n && w.pcs[i].Compiling? && (w.st.stop || w.pcs[i].until <= w.now)
    case GiveBack(i) => i < a.n && w.pcs[i].Releasing? && w.mutex == None
    case PassCompiled(i) => i < a.n && w.pcs[i].Released? && w.mutex == None && !w.st.stop
    case Finish(i) => i < a.n && w.pcs[i].Counting? && w.mutex == None
    case EndDebug(i) =>
      i < a.n && w.pcs[i].Debugging? && w.mutex == None && !w.st.stop && w.pcs[i].until <= w.now
    case EndRefactor(i) => i < a.n && w.pcs[i].Refactoring? && (w.st.stop || w.pcs[i].until <= w.now)
    case Quit(i) =>
      && i < a.n && w.mutex == None
      && ((StopSeen(w.pcs[i]) && w.st.stop) || (w.pcs[i].Idle? && CoderDone(a, w.st, i)))
    case SetStop(i) => i < a.n && w.pcs[i].Reporting? && w.mutex == None
    case Accuse(i) => w.monitor.Scanning? && w.mutex == None && Overdue(a, w.st, i, w.now)
    case Convict => w.monitor.Accusing? && w.mutex == None
    case WriteVerdict => w.monitor.Writing?
    case Retire => w.monitor.Scanning? && w.mutex == None && w.st.stop
  }

  function Move(w: World, i: nat, pc: Pc): World
    requires i < |w.pcs|
  {
    w.(pcs := w.pcs[i := pc])
  }

  function OwnPair(owner: seq<Option<nat>>, i: nat, o: Option<nat>): (r: seq<Option<nat>>)
    requires i < |owner|
    ensures |r| == |owner|
  {
    owner[i := o][Next(i, |owner|) := o]
  }

  function Apply(a: Args, w: World, e: Event): (r: World)
    requires Sized(a, w) && Enabled(a, w, e)
    ensures Sized(a, r)
  {
    match e
    case Tick(to) => w.(now := to)
    case PassTop(i) => Move(w, i, Ready)
    case Enter(i) => Move(w, i, Looping).(mutex := Some(i), st := Register(a, w.st, i))
    case Wake(i) => Move(w, i, Looping).(mutex := Some(i))
    case GiveUp(i) =>
      w.(pcs := Broadcast(w.pcs)[i := Exited], mutex := None, st := Abandon(a, w.st, i))
    case Proceed(i) => Move(w, i, Dispatching(Position(0, false, w.now)))
    case Award(i, g) =>
      Move(w, i, Dispatching(Onward(a.n, w.pcs[i].scan, true, g.start))).(
         now := g.start, st := Reserve(a, w.st, g.coder, g.start),
         owner := OwnPair(w.owner, g.coder, Some(g.coder)),
         starts := w.starts + [Start(g.coder, g.start)],
         started := w.started[g.coder := w.started[g.coder] + 1])
    case Skip(i, g) => Move(w, i, Dispatching(Onward(a.n, w.pcs[i].scan, false, g.start))).(now := g.start)
    case Return(i) => w.(pcs := Broadcast(w.pcs)[i := Compiling(w.now + a.compile)], mutex := None)
    case Sleep(i, readAt, since) =>
      var wakeBy := since + SleepFor(a, w.st, i, readAt);
      var pc := Asleep(w.pcs[i].scan.passStart, readAt, since, wakeBy, false);
      w.(now := since, pcs := Broadcast(w.pcs)[i := pc], mutex := None)
    case EndCompile(i) => Move(w, i, Releasing(w.now))
    case GiveBack(i) =>
      w.(pcs := Broadcast(w.pcs)[i := Released], st := Release(a, w.st, i, w.pcs[i].at),
         owner := OwnPair(w.owner, i, None))
    case PassCompiled(i) => Move(w, i, Counting)
    case Finish(i) =>
      var st := CountCompile(a, w.st, i);
      if a.required > 0 && AllFinished(a, st)
      then Move(w, i, Reporting).(st := st, reports := w.reports + 1)
      else Move(w, i, Debugging(w.now + a.debug)).(st := st)
    case EndDebug(i) => Move(w, i, Refactoring(w.now + a.refactor))
    case EndRefactor(i) => Move(w, i, Idle)
    case Quit(i) => Move(w, i, Exited)
    case SetStop(i) => w.(pcs := Broadcast(w.pcs)[i := Exited], st := w.st.(stop := true))
    case Accuse(i) => w.(monitor := Accusing(i))
    case Convict =>
      if w.st.stop then w.(monitor := Scanning)
      else w.(monitor := Writing(w.monitor.coder), st := w.st.(stop := true), pcs := Broadcast(w.pcs))
    case WriteVerdict => w.(monitor := Retired, burned := Some(Start(w.monitor.coder, w.now)))
    case Retire => w.(monitor := Retired)
  }

  /** The others move a coder nowhere; at most they signal it in its sleep. */
  lemma PlaceStays(a: Args, w: World, e: Event, i: nat)
    requires Sized(a, w) && Enabled(a, w, e) && !OfCoder(e, i) && i < a.n && !w.pcs[i].Asleep?
    ensures Apply(a, w, e).pcs[i] == w.pcs[i]
  {
    if !e.Tick? && !OfMonitor(e) { OtherPlaceStays(a, w, e, i); }
  }

  lemma OtherPlaceStays(a: Args, w: World, e: Event, i: nat)
    requires Sized(a, w) && Enabled(a, w, e) && !e.Tick? && !OfMonitor(e) && e.i != i && i < a.n && !w.pcs[i].Asleep?
    ensures Apply(a, w, e).pcs[i] == w.pcs[i]
  {
    var r := Apply(a, w, e);
    assert e.i < a.n && (r.pcs == w.pcs[e.i := r.pcs[e.i]] || r.pcs == Broadcast(w.pcs)[e.i := r.pcs[e.i]]);
  }

  /** The state start_all_threads leaves behind at time `t`. */
  function Init(a: Args, t: int): (w: World)
    requires 2 <= a.n
    ensures Sized(a, w)
  {
    var st := State(seq(a.n, i requires 0 <= i < a.n => Coder(t, 0, Request(i + 1, 0, 0), false, false)),
                    seq(a.n, _ => Dongle(true, 0)), 0, false);
    World(t, st, seq(a.n, _ => Idle), None, Scanning,
          seq(a.n, _ => None), [], seq(a.n, _ => 0), 0, None)
  }

  ghost predicate Legal(a: Args, w: World, es: seq<Event>)
    requires Sized(a, w)
    decreases |es|, 0
  {
    es == [] ||
    var k := |es| - 1;
    Legal(a, w, es[..k]) && Enabled(a, Reach(a, w, es[..k]), es[k])
  }

  ghost function Reach(a: Args, w: World, es: seq<Event>): (r: World)
    requires Sized(a, w) && Legal(a, w, es)
    ensures Sized(a, r)
    decreases |es|, 1
  {
    if es == [] then w else
      var k := |es| - 1;
      Apply(a, Reach(a, w, es[..k]), es[k])
  }

  /** Some start time and some steps lead to `w`. */
  ghost predicate Reachable(a: Args, w: World) {
    2 <= a.n && exists t: int, es: seq<Event> :: Legal(a, Init(a, t), es) && Reach(a, Init(a, t), es) == w
  }

  lemma Extend(a: Args, w: World, es: seq<Event>, e: Event)
    requires Sized(a, w) && Legal(a, w, es) && Enabled(a, Reach(a, w, es), e)
    ensures Legal(a, w, es + [e]) && Reach(a, w, es + [e]) == Apply(a, Reach(a, w, es), e)
  {
    assert (es + [e])[..|es|] == es;
  }

  /** Runs can be put one after the other. */
  lemma {:induction false} Join(a: Args, w: World, es: seq<Event>, fs: seq<Event>)
    requires Sized(a, w) && Legal(a, w, es) && Legal(a, Reach(a, w, es), fs)
    ensures Legal(a, w, es + fs) && Reach(a, w, es + fs) == Reach(a, Reach(a, w, es), fs)
    decreases |fs|
  {
    if fs == [] {
      assert es + fs == es;
    } else {
      var k, v := |fs| - 1, Reach(a, w, es);
      var some, e := fs[..k], fs[k];
      assert fs == some + [e] && es + fs == (es + some) + [e];
      Join(a, w, es, some);
      Extend(a, v, some, e);
      Extend(a, w, es + some, e);
    }
  }

  lemma StartIsReachable(a: Args, t: int)
    requires 2 <= a.n
    ensures Reachable(a, Init(a, t))
  {
    assert Legal(a, Init(a, t), []) && Reach(a, Init(a, t), []) == Init(a, t);
  }

  lemma StepIsReachable(a: Args, w: World, e: Event)
    requires Reachable(a, w) && Sized(a, w) && Enabled(a, w, e)
    ensures Reachable(a, Apply(a, w, e))
  {
    var t: int, es: seq<Event> :| Legal(a, Init(a, t), es) && Reach(a, Init(a, t), es) == w;
    Extend(a, Init(a, t), es, e);
  }

  /** What a run leads to from a reachable world is reachable. */
  lemma RunStaysReachable(a: Args, w: World, es: seq<Event>)
    requires Reachable(a, w) && Sized(a, w) && Legal(a, w, es)
    ensures Reachable(a, Reach(a, w, es))
  {
    var t: int, before: seq<Event> :| Legal(a, Init(a, t), before) && Reach(a, Init(a, t), before) == w;
    Join(a, Init(a, t), before, es);
  }

  lemma OneStep(a: Args, w: World, e: Event)
    requires Sized(a, w) && Enabled(a, w, e)
    ensures Legal(a, w, [e]) && Reach(a, w, [e]) == Apply(a, w, e)
  {
    Extend(a, w, [], e);
    assert [] + [e] == [e];
  }

  lemma OneMoreStep(a: Args, w: World, es: seq<Event>, e: Event) returns (more: seq<Event>)
    requires Sized(a, w) && Legal(a, w, es) && Enabled(a, Reach(a, w, es), e)
    ensures Legal(a, w, more) && Reach(a, w, more) == Apply(a, Reach(a, w, es), e)
  {
    Extend(a, w, es, e);
    more := es + [e];
  }

  /** A step of the run, after the clock has been read. */
  lemma Ticked(a: Args, m: World, to: int, e: Event)
    requires Sized(a, m) && m.now <= to && Enabled(a, m.(now := to), e)
    ensures Legal(a, m, [Tick(to), e]) && Reach(a, m, [Tick(to), e]) == Apply(a, m.(now := to), e)
  {
    Extend(a, m, [], Tick(to));
    assert [] + [Tick(to)] == [Tick(to)];
    Extend(a, m, [Tick(to)], e);
    assert [Tick(to)] + [e] == [Tick(to), e];
  }

  lemma VerdictRun(a: Args, w: World, i: nat, at: int) returns (es: seq<Event>)
    requires Sized(a, w) && i < a.n && w.mutex == None && w.monitor.Scanning? && !w.st.stop
    requires w.now <= at && Overdue(a, w.st, i, at)
    ensures Legal(a, w, es)
    ensures var r := Reach(a, w, es);
      r.st == w.st.(stop := true) && r.now == at && r.mutex == None && r.burned == Some(Start(i, at))
  {
    Ticked(a, w, at, Accuse(i));
    es := [Tick(at), Accuse(i)];
    es := OneMoreStep(a, w, es, Convict);
    es := OneMoreStep(a, w, es, WriteVerdict);
  }
}
