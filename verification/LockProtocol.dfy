// Locking and logging, one lock, unlock, test or write at a time. The threads are the coders
// and the monitor; each runs any sequence of the program's critical sections.
module LockProtocol {
  import opened Options
  import opened Scheduler

  /** Where a thread is inside a critical section. */
  datatype Pc =
    | Out
    | InState                                // holds state_mutex, logs nothing
    | Testing(id: nat, message: Message)     // log_msg: holds state_mutex, before the stop test
    | Passed(id: nat, message: Message)      // past the test, wants log_mutex
    | Both(id: nat, message: Message)        // holds both, about to unlock state_mutex
    | Alone(id: nat, message: Message)       // holds log_mutex, about to write
    | Written(wake: bool)                    // holds log_mutex, about to unlock it
    | Looping                                // scheduler_acquire_pair: holds state_mutex
    | Dispatching                            // past the stop and deadline tests
    | Reserving(id: nat)                     // a pair is reserved, wants log_mutex
    | Announcing(id: nat, lines: nat)        // holds both, that many lines written
    | Convicting(id: nat)                    // stop_for_burnout: holds state_mutex, wants log_mutex
    | Judging(id: nat)                       // holds both, before the stop test
    | Sentencing(id: nat)                    // stop is set, holds log_mutex, about to write
    | Stopping                               // set_stop: holds state_mutex
    | Waking(k: nat)                         // wake_all_dongles: wants the mutex of dongle k
    | WakingHeld(k: nat)                     // holds it
    | Pushing(d: nat)                        // acquire_dongle: holds the mutex of dongle d
    | Asking(d: nat)                         // still holds it, wants state_mutex for the stop test
    | AskingHeld(d: nat)                     // holds both
    | Asked(d: nat, stopped: bool)           // holds the mutex of the dongle, knows the answer
    | Waiting(d: nat)                        // wait_for_dongle: gave it up, wants it back
    | AtDongle(d: nat)                       // about to unlock the mutex of dongle d

  datatype Section =
    | Plain | LogMsg(id: nat, message: Message) | Schedule | Burnout(id: nat) | SetStop
    | AcquireDongle(d: nat) | ReleaseDongle(d: nat)

  datatype Mutex = StateMutex | LogMutex | DongleMutex(d: nat)

  /** `stoppedAt` records how long the log was when the stop flag was set, `woken` the dongles whose
      condition wake_all_dongles has broadcast. */
  datatype Sys = Sys(now: int, threads: seq<Pc>, state: Option<nat>, log: Option<nat>,
                     dongles: seq<Option<nat>>, stop: bool, stoppedAt: nat, output: seq<Line>, woken: set<nat>)

  /** `Advance` is the next step of a thread; where data outside this model decide between two,
      `Decline` is the other one. */
  datatype Event =
    | Tick(to: int)
    | Begin(t: nat, section: Section)
    | Advance(t: nat)
    | Decline(t: nat)
    | Reserve(t: nat, id: nat)
    | Skip(t: nat)
    | Leave(t: nat)

  predicate HasState(pc: Pc) {
    pc.InState? || pc.Testing? || pc.Passed? || pc.Both? || pc.Looping? || pc.Dispatching? || pc.Reserving?
    || pc.Announcing? || pc.Convicting? || pc.Judging? || pc.Stopping? || pc.AskingHeld?
  }

  predicate HasLog(pc: Pc) {
    pc.Both? || pc.Alone? || pc.Written? || pc.Announcing? || pc.Judging? || pc.Sentencing?
  }

  /** The dongle whose mutex the thread holds, if any. */
  function DongleHeld(pc: Pc): Option<nat> {
    match pc
    case WakingHeld(k) => Some(k)
    case Pushing(d) => Some(d)
    case Asking(d) => Some(d)
    case AskingHeld(d) => Some(d)
    case Asked(d, _) => Some(d)
    case AtDongle(d) => Some(d)
    case _ => None
  }

  /** The mutex the thread is committed to lock next, whatever it holds already. */
  function Wants(w: Sys, pc: Pc): Option<Mutex> {
    match pc
    case Passed(_, _) => Some(LogMutex)
    case Reserving(_) => Some(LogMutex)
    case Convicting(_) => Some(LogMutex)
    case Asking(_) => Some(StateMutex)
    case Waiting(d) => Some(DongleMutex(d))
    case Waking(k) => if k < |w.dongles| then Some(DongleMutex(k)) else None
    case _ => None
  }

  function Needs(section: Section): Mutex {
    match section
    case AcquireDongle(d) => DongleMutex(d)
    case ReleaseDongle(d) => DongleMutex(d)
    case _ => StateMutex
  }

  function HolderOf(w: Sys, m: Mutex): Option<nat> {
    match m
    case StateMutex => w.state
    case LogMutex => w.log
    case DongleMutex(d) => if d < |w.dongles| then w.dongles[d] else None
  }

  predicate Exists(w: Sys, m: Mutex) {
    m.DongleMutex? ==> m.d < |w.dongles|
  }

  /** The step is next for its thread, as far as the thread is concerned. */
  predicate Offered(w: Sys, e: Event) {
    match e
    case Tick(to) => w.now <= to
    case Begin(t, section) =>
      && t < |w.threads| && w.threads[t].Out? && Exists(w, Needs(section))
      && (section.LogMsg? ==> section.message.IsDebugging? || section.message.IsRefactoring?)
    case Advance(t) =>
      && t < |w.threads|
      && (match w.threads[t]
          case Out => false
          case InState => false
          case Dispatching => false
          case AtDongle(_) => false
          case Looping => !w.stop
          case _ => true)
    case Decline(t) => t < |w.threads| && (w.threads[t].Pushing? || (w.threads[t].Asked? && !w.threads[t].stopped))
    case Reserve(t, _) => t < |w.threads| && w.threads[t].Dispatching?
    case Skip(t) => t < |w.threads| && w.threads[t].Dispatching?
    case Leave(t) =>
      && t < |w.threads|
      && (w.threads[t].InState? || w.threads[t].Looping? || w.threads[t].Dispatching? || w.threads[t].AtDongle?)
  }

  /** The mutex it takes, if any, is free. */
  predicate Unlocked(w: Sys, e: Event)
    requires Offered(w, e)
  {
    match e
    case Begin(_, section) => HolderOf(w, Needs(section)) == None
    case Advance(t) => Wants(w, w.threads[t]).Some? ==> HolderOf(w, Wants(w, w.threads[t]).value) == None
    case _ => true
  }

  predicate Enabled(w: Sys, e: Event) {
    Offered(w, e) && Unlocked(w, e)
  }

  function Go(w: Sys, t: nat, pc: Pc): Sys
    requires t < |w.threads|
  {
    w.(threads := w.threads[t := pc])
  }

  function Write(w: Sys, id: nat, message: Message): Sys {
    w.(output := w.output + [Line(w.now, id, message)])
  }

  function SetStopFlag(w: Sys): Sys {
    if w.stop then w else w.(stop := true, stoppedAt := |w.output|)
  }

  function Lock(w: Sys, d: nat, o: Option<nat>): Sys {
    if d < |w.dongles| then w.(dongles := w.dongles[d := o]) else w
  }

  function Apply(w: Sys, e: Event): (r: Sys)
    requires Enabled(w, e)
    ensures |r.threads| == |w.threads| && |r.dongles| == |w.dongles|
  {
    match e
    case Tick(to) => w.(now := to)
    case Begin(t, section) =>
      (match section
       case Plain => Go(w, t, InState).(state := Some(t))
       case LogMsg(id, m) => Go(w, t, Testing(id, m)).(state := Some(t))
       case Schedule => Go(w, t, Looping).(state := Some(t))
       case Burnout(id) => Go(w, t, Convicting(id)).(state := Some(t))
       case SetStop => Go(w, t, Stopping).(state := Some(t))
       case AcquireDongle(d) => Lock(Go(w, t, Pushing(d)), d, Some(t))
       case ReleaseDongle(d) => Lock(Go(w, t, AtDongle(d)), d, Some(t)))
    case Advance(t) => Proceed(w, t)
    case Decline(t) =>
      // A full queue, or no luck: the caller waits on the condition of the dongle.
      if w.threads[t].Pushing? then Go(w, t, AtDongle(w.threads[t].d))
      else Lock(Go(w, t, Waiting(w.threads[t].d)), w.threads[t].d, None)
    case Reserve(t, id) => Go(w, t, Reserving(id))
    // The scan passes over a coder.
    case Skip(t) => w
    case Leave(t) =>
      if w.threads[t].AtDongle? then Lock(Go(w, t, Out), w.threads[t].d, None) else Go(w, t, Out).(state := None)
  }

  function Proceed(w: Sys, t: nat): (r: Sys)
    requires Enabled(w, Advance(t))
    ensures |r.threads| == |w.threads| && |r.dongles| == |w.dongles|
  {
    match w.threads[t]
    // log_msg
    case Testing(id, m) => if w.stop then Go(w, t, InState) else Go(w, t, Passed(id, m))
    case Passed(id, m) => Go(w, t, Both(id, m)).(log := Some(t))
    case Both(id, m) => Go(w, t, Alone(id, m)).(state := None)
    case Alone(id, m) => Write(Go(w, t, Written(false)), id, m)
    case Written(wake) => Go(w, t, if wake then Waking(0) else Out).(log := None)
    // scheduler_acquire_pair and log_reservation
    case Looping => Go(w, t, Dispatching)
    case Reserving(id) => Go(w, t, Announcing(id, 0)).(log := Some(t))
    case Announcing(id, lines) =>
      if lines < 2 then Write(Go(w, t, Announcing(id, lines + 1)), id, TakenDongle)
      else if lines == 2 then Write(Go(w, t, Announcing(id, 3)), id, IsCompiling)
      else Go(w, t, Dispatching).(log := None)
    // stop_for_burnout
    case Convicting(id) => Go(w, t, Judging(id)).(log := Some(t))
    case Judging(id) =>
      if w.stop then Go(w, t, InState).(log := None)
      else SetStopFlag(Go(w, t, Sentencing(id))).(state := None)
    case Sentencing(id) => Write(Go(w, t, Written(true)), id, BurnedOut)
    // set_stop and wake_all_dongles
    case Stopping => SetStopFlag(Go(w, t, Waking(0))).(state := None)
    case Waking(k) => if k < |w.dongles| then Lock(Go(w, t, WakingHeld(k)), k, Some(t)) else Go(w, t, Out)
    case WakingHeld(k) => Lock(Go(w, t, Waking(k + 1)), k, None).(woken := w.woken + {k})
    // acquire_dongle: the stop flag is asked for under the mutex of the dongle
    case Pushing(d) => Go(w, t, Asking(d))
    case Asking(d) => Go(w, t, AskingHeld(d)).(state := Some(t))
    case AskingHeld(d) => Go(w, t, Asked(d, w.stop)).(state := None)
    case Asked(d, _) => Go(w, t, AtDongle(d))
    case Waiting(d) => Lock(Go(w, t, Asking(d)), d, Some(t))
    case _ => w
  }

  // ------------------------------------------------------------------- lock ownership

  ghost predicate StateAt(w: Sys, t: nat)
    requires t < |w.threads|
  {
    HasState(w.threads[t]) <==> w.state == Some(t)
  }

  ghost predicate LogAt(w: Sys, t: nat)
    requires t < |w.threads|
  {
    (HasLog(w.threads[t]) <==> w.log == Some(t)) && (w.threads[t].Announcing? ==> w.threads[t].lines <= 3)
  }

  ghost predicate DonglesAt(w: Sys, t: nat)
    requires t < |w.threads|
  {
    && (forall d: nat :: d < |w.dongles| ==> (DongleHeld(w.threads[t]) == Some(d) <==> w.dongles[d] == Some(t)))
    && (DongleHeld(w.threads[t]).Some? ==> DongleHeld(w.threads[t]).value < |w.dongles|)
    && (w.threads[t].Waiting? ==> w.threads[t].d < |w.dongles|)
  }

  /** Thread `t` holds exactly the mutexes its place in the program says. */
  ghost predicate LocksAt(w: Sys, t: nat)
    requires t < |w.threads|
  {
    StateAt(w, t) && LogAt(w, t) && DonglesAt(w, t)
  }

  ghost predicate Owned(w: Sys) {
    && (forall t: nat :: t < |w.threads| ==> LocksAt(w, t))
    && (w.state.Some? ==> w.state.value < |w.threads|)
    && (w.log.Some? ==> w.log.value < |w.threads|)
    && (forall d: nat :: d < |w.dongles| && w.dongles[d].Some? ==> w.dongles[d].value < |w.threads|)
  }

  /** Places of log_msg, log_reservation and stop_for_burnout. */
  predicate Logging(pc: Pc) {
    pc.Testing? || pc.Passed? || pc.Both? || pc.Alone? || pc.Written? || pc.Reserving? || pc.Announcing?
    || pc.Convicting? || pc.Judging? || pc.Sentencing?
  }

  /** No step but these changes the owners of state_mutex and log_mutex other than as its own
      thread enters or leaves. */
  lemma LoggingKept(w: Sys, s: nat, t: nat)
    requires Enabled(w, Advance(s)) && t < |w.threads| && Logging(w.threads[s])
    requires StateAt(w, t) && StateAt(w, s) && LogAt(w, t) && LogAt(w, s)
    ensures StateAt(Proceed(w, s), t) && LogAt(Proceed(w, s), t)
  {
  }

  /** Places of acquire_dongle. */
  predicate Acquiring(pc: Pc) {
    pc.Pushing? || pc.Asking? || pc.AskingHeld? || pc.Asked? || pc.Waiting?
  }

  lemma AcquiringKept(w: Sys, s: nat, t: nat)
    requires Enabled(w, Advance(s)) && t < |w.threads| && Acquiring(w.threads[s])
    requires StateAt(w, t) && StateAt(w, s) && LogAt(w, t) && LogAt(w, s)
    ensures StateAt(Proceed(w, s), t) && LogAt(Proceed(w, s), t)
  {
  }

  lemma OtherAdvanceKept(w: Sys, s: nat, t: nat)
    requires Enabled(w, Advance(s)) && t < |w.threads| && !Logging(w.threads[s]) && !Acquiring(w.threads[s])
    requires StateAt(w, t) && StateAt(w, s) && LogAt(w, t) && LogAt(w, s)
    ensures StateAt(Proceed(w, s), t) && LogAt(Proceed(w, s), t)
  {
  }

  lemma StateAtEnds(w: Sys, e: Event, t: nat)
    requires Enabled(w, e) && (e.Begin? || e.Leave?) && t < |w.threads| && StateAt(w, t) && StateAt(w, e.t)
    ensures StateAt(Apply(w, e), t)
  {
  }

  lemma LogAtEnds(w: Sys, e: Event, t: nat)
    requires Enabled(w, e) && (e.Begin? || e.Leave?) && t < |w.threads| && LogAt(w, t) && LogAt(w, e.t)
    ensures LogAt(Apply(w, e), t)
  {
  }

  lemma RestKept(w: Sys, e: Event, t: nat)
    requires Enabled(w, e) && (e.Tick? || e.Decline? || e.Reserve? || e.Skip?) && t < |w.threads|
    requires StateAt(w, t) && LogAt(w, t) && (e.Tick? || (StateAt(w, e.t) && LogAt(w, e.t)))
    ensures StateAt(Apply(w, e), t) && LogAt(Apply(w, e), t)
  {
  }

  lemma MutexesKept(w: Sys, e: Event, t: nat)
    requires Enabled(w, e) && t < |w.threads|
    requires StateAt(w, t) && LogAt(w, t) && (e.Tick? || (StateAt(w, e.t) && LogAt(w, e.t)))
    ensures StateAt(Apply(w, e), t) && LogAt(Apply(w, e), t)
  {
    if e.Advance? {
      if Logging(w.threads[e.t]) { LoggingKept(w, e.t, t); }
      else if Acquiring(w.threads[e.t]) { AcquiringKept(w, e.t, t); }
      else { OtherAdvanceKept(w, e.t, t); }
    } else if e.Begin? || e.Leave? {
      StateAtEnds(w, e, t);
      LogAtEnds(w, e, t);
    } else {
      RestKept(w, e, t);
    }
  }

  /** Steps that lock or unlock the mutex of a dongle. */
  predicate AtDongleMutex(w: Sys, e: Event)
    requires Enabled(w, e)
  {
    match e
    case Begin(_, section) => section.AcquireDongle? || section.ReleaseDongle?
    case Advance(t) => w.threads[t].Waking? || w.threads[t].WakingHeld? || w.threads[t].Waiting?
    case Decline(t) => w.threads[t].Asked?
    case Leave(t) => w.threads[t].AtDongle?
    case _ => false
  }

  /** As far as the mutexes of the dongles go, nothing has changed for thread `t`. */
  ghost predicate SameDongles(w: Sys, r: Sys, t: nat)
    requires t < |w.threads|
  {
    && r.dongles == w.dongles && |r.threads| == |w.threads|
    && DongleHeld(r.threads[t]) == DongleHeld(w.threads[t])
    && (r.threads[t].Waiting? ==> r.threads[t] == w.threads[t])
  }

  lemma LoggingAway(w: Sys, s: nat, t: nat)
    requires Enabled(w, Advance(s)) && Logging(w.threads[s]) && t < |w.threads|
    ensures SameDongles(w, Proceed(w, s), t)
  {
  }

  lemma OtherAdvanceAway(w: Sys, s: nat, t: nat)
    requires Enabled(w, Advance(s)) && !Logging(w.threads[s]) && !AtDongleMutex(w, Advance(s)) && t < |w.threads|
    ensures SameDongles(w, Proceed(w, s), t)
  {
  }

  lemma DonglesUntouched(w: Sys, e: Event, t: nat)
    requires Enabled(w, e) && !AtDongleMutex(w, e) && t < |w.threads|
    ensures SameDongles(w, Apply(w, e), t)
  {
    if e.Advance? {
      if Logging(w.threads[e.t]) { LoggingAway(w, e.t, t); } else { OtherAdvanceAway(w, e.t, t); }
    }
  }

  lemma WaitingTouches(w: Sys, s: nat, t: nat)
    requires Enabled(w, Advance(s)) && w.threads[s].Waiting? && t < |w.threads|
    requires DonglesAt(w, t) && DonglesAt(w, s)
    ensures DonglesAt(Proceed(w, s), t)
  {
  }

  lemma WakingTouches(w: Sys, s: nat, t: nat)
    requires Enabled(w, Advance(s)) && (w.threads[s].Waking? || w.threads[s].WakingHeld?) && t < |w.threads|
    requires DonglesAt(w, t) && DonglesAt(w, s)
    ensures DonglesAt(Proceed(w, s), t)
  {
  }

  lemma BeginTouches(w: Sys, e: Event, t: nat)
    requires Enabled(w, e) && AtDongleMutex(w, e) && e.Begin? && t < |w.threads|
    requires DonglesAt(w, t) && DonglesAt(w, e.t)
    ensures DonglesAt(Apply(w, e), t)
  {
  }

  lemma OthersTouch(w: Sys, e: Event, t: nat)
    requires Enabled(w, e) && AtDongleMutex(w, e) && !e.Advance? && !e.Begin? && t < |w.threads|
    requires DonglesAt(w, t) && DonglesAt(w, e.t)
    ensures DonglesAt(Apply(w, e), t)
  {
  }

  lemma DonglesKept(w: Sys, e: Event, t: nat)
    requires Enabled(w, e) && t < |w.threads| && DonglesAt(w, t) && (e.Tick? || DonglesAt(w, e.t))
    ensures DonglesAt(Apply(w, e), t)
  {
    if !AtDongleMutex(w, e) { DonglesUntouched(w, e, t); }
    else if e.Advance? {
      if w.threads[e.t].Waiting? { WaitingTouches(w, e.t, t); } else { WakingTouches(w, e.t, t); }
    }
    else if e.Begin? { BeginTouches(w, e, t); }
    else { OthersTouch(w, e, t); }
  }

  /** Mutexes are only ever taken by the thread that moves. */
  ghost predicate OnlyOwn(w: Sys, r: Sys, s: nat) {
    && r.state in {w.state, None, Some(s)} && r.log in {w.log, None, Some(s)} && |r.dongles| == |w.dongles|
    && forall d: nat :: d < |w.dongles| ==> r.dongles[d] in {w.dongles[d], None, Some(s)}
  }

  lemma OwnersAfterLogging(w: Sys, s: nat)
    requires Enabled(w, Advance(s)) && Logging(w.threads[s])
    ensures OnlyOwn(w, Proceed(w, s), s)
  {
  }

  lemma OwnersAfterAdvance(w: Sys, s: nat)
    requires Enabled(w, Advance(s))
    ensures OnlyOwn(w, Proceed(w, s), s)
  {
    if Logging(w.threads[s]) { OwnersAfterLogging(w, s); }
  }

  lemma OwnersAfter(w: Sys, e: Event)
    requires Enabled(w, e) && !e.Tick? && !e.Advance?
    ensures OnlyOwn(w, Apply(w, e), e.t)
  {
  }

  lemma OwnedKept(w: Sys, e: Event)
    requires Owned(w) && Enabled(w, e)
    ensures Owned(Apply(w, e))
  {
    var r := Apply(w, e);
    if e.Advance? { OwnersAfterAdvance(w, e.t); } else if !e.Tick? { OwnersAfter(w, e); }
    if !e.Tick? { assert LocksAt(w, e.t); }
    forall t: nat | t < |r.threads| ensures LocksAt(r, t) {
      assert LocksAt(w, t);
      MutexesKept(w, e, t);
      DonglesKept(w, e, t);
    }
  }

  // ------------------------------------------------------------------------ deadlock

  predicate StepOf(e: Event, t: nat) {
    !e.Tick? && !e.Begin? && e.t == t
  }

  /** Thread `t` has a next step, and whichever it turns out to be can be taken now. */
  ghost predicate CanMove(w: Sys, t: nat) {
    && (exists e :: StepOf(e, t) && Offered(w, e))
    && (forall e :: StepOf(e, t) && Offered(w, e) ==> Enabled(w, e))
  }

  ghost predicate Holds(w: Sys, t: nat) {
    exists m :: HolderOf(w, m) == Some(t)
  }

  /** The mutex `t` wants next is held by `h`. */
  predicate WaitsFor(w: Sys, t: nat, h: nat) {
    t < |w.threads| && Wants(w, w.threads[t]).Some? && HolderOf(w, Wants(w, w.threads[t]).value) == Some(h)
  }

  /** The order in which the program takes its mutexes. */
  function Rank(m: Mutex): nat {
    match m
    case DongleMutex(_) => 0
    case StateMutex => 1
    case LogMutex => 2
  }

  lemma WantsAbove(w: Sys, t: nat, m: Mutex)
    requires t < |w.threads| && LocksAt(w, t) && HolderOf(w, m) == Some(t)
    ensures Wants(w, w.threads[t]).Some? ==> Rank(m) < Rank(Wants(w, w.threads[t]).value)
    ensures !w.threads[t].Out?
  {
  }

  lemma UnblockedMoves(w: Sys, t: nat)
    requires t < |w.threads| && !w.threads[t].Out?
    requires Wants(w, w.threads[t]).Some? ==> HolderOf(w, Wants(w, w.threads[t]).value) == None
    ensures CanMove(w, t)
  {
    var e := if Offered(w, Advance(t)) then Advance(t) else Leave(t);
    assert StepOf(e, t) && Offered(w, e);
  }

  /** Each thread of the chain waits for the next; the last one can move. */
  ghost predicate WaitingLine(w: Sys, line: seq<nat>) {
    && line != [] && (forall k :: 0 <= k < |line| ==> line[k] < |w.threads|)
    && (forall k :: 0 <= k < |line| - 1 ==> WaitsFor(w, line[k], line[k + 1]))
    && CanMove(w, line[|line| - 1])
  }

  /** Locks are taken in the order dongle, state, log: nobody waits in a circle, so every
      thread inside a critical section waits, through at most three others, for one that can
      move. */
  lemma {:induction false} NoDeadlock(w: Sys, t: nat) returns (line: seq<nat>)
    requires Owned(w) && t < |w.threads| && !w.threads[t].Out?
    ensures WaitingLine(w, line) && line[0] == t
    ensures |line| <= if Wants(w, w.threads[t]).Some? then 4 - Rank(Wants(w, w.threads[t]).value) else 1
    decreases if Wants(w, w.threads[t]).Some? then 3 - Rank(Wants(w, w.threads[t]).value) else 0
  {
    line := [t];
    var m := Wants(w, w.threads[t]);
    if m == None || HolderOf(w, m.value) == None {
      UnblockedMoves(w, t);
    } else {
      var h := HolderOf(w, m.value).value;
      assert LocksAt(w, h);
      WantsAbove(w, h, m.value);
      var rest := NoDeadlock(w, h);
      line := line + rest;
      forall k | 0 <= k < |line| - 1 ensures WaitsFor(w, line[k], line[k + 1]) {
        if k > 0 { assert line[k] == rest[k - 1] && line[k + 1] == rest[k]; }
      }
    }
  }

  // ----------------------------------------------------------------------------- runs

  /** Nobody is in a critical section, nothing has been logged, the run is on. */
  ghost predicate Fresh(w: Sys) {
    && (forall t: nat :: t < |w.threads| ==> w.threads[t].Out?)
    && w.state == None && w.log == None && (forall d: nat :: d < |w.dongles| ==> w.dongles[d] == None)
    && !w.stop && w.output == []
  }

  ghost predicate Legal(w: Sys, es: seq<Event>)
    decreases |es|, 0
  {
    es == [] ||
    var k := |es| - 1;
    Legal(w, es[..k]) && Enabled(Reach(w, es[..k]), es[k])
  }

  ghost function Reach(w: Sys, es: seq<Event>): Sys
    requires Legal(w, es)
    decreases |es|, 1
  {
    if es == [] then w else
      var k := |es| - 1;
      Apply(Reach(w, es[..k]), es[k])
  }

  ghost predicate Reachable(w: Sys) {
    exists s: Sys, es: seq<Event> :: Fresh(s) && Legal(s, es) && Reach(s, es) == w
  }

  lemma FreshIsReachable(w: Sys)
    requires Fresh(w)
    ensures Reachable(w)
  {
    assert Legal(w, []) && Reach(w, []) == w;
  }

  lemma StepIsReachable(w: Sys, e: Event)
    requires Reachable(w) && Enabled(w, e)
    ensures Reachable(Apply(w, e))
  {
    var s: Sys, es: seq<Event> :| Fresh(s) && Legal(s, es) && Reach(s, es) == w;
    var more := es + [e];
    assert more[..|es|] == es;
    assert Legal(s, more) && Reach(s, more) == Apply(w, e);
  }

  lemma {:induction false} StaysOwned(w: Sys, es: seq<Event>)
    requires Owned(w) && Legal(w, es)
    ensures Owned(Reach(w, es))
    decreases |es|
  {
    if es != [] {
      var k := |es| - 1;
      StaysOwned(w, es[..k]);
      OwnedKept(Reach(w, es[..k]), es[k]);
    }
  }

  lemma RunsAreOwned(w: Sys)
    requires Reachable(w)
    ensures Owned(w)
  {
    var s: Sys, es: seq<Event> :| Fresh(s) && Legal(s, es) && Reach(s, es) == w;
    assert Owned(s);
    StaysOwned(s, es);
  }

  /** No reachable state is a deadlock on the mutexes: every thread inside a critical section
      waits, through at most three others, for one that can move; and when `t` holds a mutex
      that one holds a mutex too. */
  lemma RunsDoNotDeadlock(w: Sys, t: nat) returns (line: seq<nat>)
    requires Reachable(w) && t < |w.threads| && !w.threads[t].Out?
    ensures WaitingLine(w, line) && line[0] == t && |line| <= 4
    ensures Holds(w, t) ==> Holds(w, line[|line| - 1])
  {
    RunsAreOwned(w);
    line := NoDeadlock(w, t);
    if |line| > 1 { assert WaitsFor(w, line[|line| - 2], line[|line| - 1]); }
  }
}
