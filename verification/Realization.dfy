// The other direction: whatever the state machine can do, the program does lock by lock.
// A program at rest has its threads between critical sections, but for the one inside
// scheduler_acquire_pair and those that have nothing left to do.
module Realization {
  import opened Table
  import opened Options
  import opened Runs
  import opened Ownership
  import opened Atomicity
  import L = LockProtocol
  import Burnout
  import Truthfulness

  ghost predicate Realized(a: Args, j: Program) {
    exists js: seq<Program>, ms: seq<Move> :: Run(a, js, ms) && js[|ms|] == j
  }

  lemma Moved(a: Args, j: Program, m: Move, r: Program)
    requires Realized(a, j) && Makes(a, j, m, r)
    ensures Realized(a, r)
  {
    var js: seq<Program>, ms: seq<Move> :| Run(a, js, ms) && js[|ms|] == j;
    var t: int :| AtStart(a, js[0], t);
    var more, moves := js + [r], ms + [m];
    assert AtStart(a, more[0], t);
    assert Run(a, more, moves) && more[|moves|] == r;
  }

  /** Where thread `t` rests. */
  predicate RestsAt(a: Args, w: World, p: L.Pc, t: nat)
    requires Sized(a, w) && t <= a.n
  {
    if t == a.n then
      (match w.monitor
       case Writing(c) => p == L.Sentencing(c + 1)
       case Retired => p == L.Out || p == L.Waking(0)
       case _ => p == L.Out)
    else
      (match w.pcs[t]
       case Looping => p == L.Looping
       case Dispatching(_) => p == L.Dispatching
       case Exited => p == L.Out || p == L.Waking(0)
       case _ => p == L.Out)
  }

  ghost predicate NothingOwed(j: Program) {
    forall i: nat :: i < |j.owed| ==> j.owed[i] == None
  }

  ghost predicate AtRest(a: Args, j: Program) {
    && Shaped(a, j) && NothingOwed(j) && j.s.stop == j.w.st.stop && j.s.now == j.w.now
    && (forall t: nat :: t <= a.n ==> RestsAt(a, j.w, j.s.threads[t], t))
    && j.s.state == j.w.mutex && j.s.log == (if j.w.monitor.Writing? then Some(a.n) else None)
  }

  // -------------------------------------------------------------------- single moves

  lemma EnabledIsRipe(a: Args, w: World, f: Event)
    requires Sized(a, w) && Enabled(a, w, f)
    ensures Ripe(a, w, f) && Effect(a, w, f) == Apply(a, w, f)
  {
    if !(Lockless(f) || Inside(f) || f.WriteVerdict?) { TakesMutex(a, w, f); }
    RipeAnyway(a, w, f);
    MutexIrrelevant(a, w, f);
  }

  lemma RipeAnyway(a: Args, w: World, f: Event)
    requires Sized(a, w) && Enabled(a, w, f)
    ensures Ripe(a, w, f)
  {
  }

  lemma SilentMove(a: Args, j: Program, e: L.Event) returns (r: Program)
    requires Shaped(a, j) && L.Enabled(j.s, e) && Quiet(a, j, e)
    ensures Makes(a, j, Silent(e), r) && r == Program(L.Apply(j.s, e), j.w, OwedLess(j.owed, e))
  {
    r := Program(L.Apply(j.s, e), j.w, OwedLess(j.owed, e));
  }

  lemma CommitMove(a: Args, j: Program, e: L.Event, f: Event) returns (r: Program)
    requires Shaped(a, j) && L.Enabled(j.s, e) && Carries(a, j, e, f) && Enabled(a, j.w, f)
    ensures Makes(a, j, Commit(e, f), r) && r.w == Apply(a, j.w, f) && r.s == L.Apply(j.s, e).(now := r.w.now)
    ensures r.owed == OwedMore(j.owed, f, r.w)
  {
    EnabledIsRipe(a, j.w, f);
    var w := Apply(a, j.w, f);
    r := Program(L.Apply(j.s, e).(now := w.now), w, OwedMore(j.owed, f, w));
  }

  // ------------------------------------------------------------------ coming to rest

  lemma MonitorRests(a: Args, w: World, f: Event, p: L.Pc)
    requires Sized(a, w) && Enabled(a, w, f) && !OfMonitor(f) && RestsAt(a, w, p, a.n)
    ensures RestsAt(a, Apply(a, w, f), p, a.n)
  {
    MonitorStays(a, w, f);
  }

  lemma SleeperStays(a: Args, w: World, f: Event, t: nat)
    requires Sized(a, w) && Enabled(a, w, f) && t < a.n && !OfCoder(f, t) && w.pcs[t].Asleep?
    ensures Apply(a, w, f).pcs[t].Asleep?
  {
  }

  lemma CoderRests(a: Args, w: World, f: Event, p: L.Pc, t: nat)
    requires Sized(a, w) && Enabled(a, w, f) && t < a.n && (f.Tick? || OfMonitor(f) || f.i != t) && RestsAt(a, w, p, t)
    ensures RestsAt(a, Apply(a, w, f), p, t)
  {
    if w.pcs[t].Asleep? { SleeperStays(a, w, f, t); } else { PlaceStays(a, w, f, t); }
  }

  lemma OtherRests(a: Args, w: World, f: Event, p: L.Pc, t: nat)
    requires Sized(a, w) && Enabled(a, w, f) && t <= a.n && (f.Tick? || Mover(a, f) != t) && RestsAt(a, w, p, t)
    ensures RestsAt(a, Apply(a, w, f), p, t)
  {
    if t == a.n { MonitorRests(a, w, f, p); } else { CoderRests(a, w, f, p, t); }
  }

  /** Only the mover's place, the locks and the log differ from the program at rest before. */
  ghost predicate CameToRest(a: Args, j: Program, f: Event, r: Program)
    requires Shaped(a, j) && Enabled(a, j.w, f) && !f.Tick? && Mover(a, f) <= a.n
  {
    var m := Mover(a, f);
    && r.w == Apply(a, j.w, f) && |r.s.threads| == a.n + 1 && |r.owed| == a.n
    && (forall t: nat :: t <= a.n && t != m ==> r.s.threads[t] == j.s.threads[t])
    && RestsAt(a, r.w, r.s.threads[m], m)
    && r.s.stop == r.w.st.stop && r.s.now == r.w.now && r.s.state == r.w.mutex
    && r.s.log == (if r.w.monitor.Writing? then Some(a.n) else None)
  }

  lemma SettledRests(a: Args, j: Program, f: Event, r: Program)
    requires AtRest(a, j) && Enabled(a, j.w, f) && !f.Tick? && Mover(a, f) <= a.n && CameToRest(a, j, f, r)
    requires NothingOwed(r)
    ensures AtRest(a, r)
  {
    var m := Mover(a, f);
    forall t: nat | t <= a.n ensures RestsAt(a, r.w, r.s.threads[t], t) {
      assert RestsAt(a, j.w, j.s.threads[t], t);
      if t != m { OtherRests(a, j.w, f, j.s.threads[t], t); }
    }
  }

  /** Entering, leaving and moving on inside scheduler_acquire_pair takes one step. */
  function InsideStep(f: Event): L.Event
    requires f.Enter? || f.Wake? || (Inside(f) && !f.Award?)
  {
    if f.Enter? || f.Wake? then L.Begin(f.i, L.Schedule)
    else if f.Proceed? then L.Advance(f.i) else if f.Skip? then L.Skip(f.i) else L.Leave(f.i)
  }

  lemma InsideOffered(a: Args, j: Program, f: Event)
    requires AtRest(a, j) && Control(a, j.w) && Enabled(a, j.w, f)
    requires f.Enter? || f.Wake? || (Inside(f) && !f.Award?)
    ensures L.Enabled(j.s, InsideStep(f)) && Carries(a, j, InsideStep(f), f)
  {
    assert RestsAt(a, j.w, j.s.threads[f.i], f.i) && ControlAt(a, j.w, f.i);
  }

  lemma OneCommit(a: Args, j: Program, f: Event) returns (r: Program)
    requires AtRest(a, j) && Control(a, j.w) && Enabled(a, j.w, f)
    requires f.Enter? || f.Wake? || (Inside(f) && !f.Award?)
    ensures Makes(a, j, Commit(InsideStep(f), f), r) && CameToRest(a, j, f, r) && NothingOwed(r)
  {
    InsideOffered(a, j, f);
    r := CommitMove(a, j, InsideStep(f), f);
    assert ControlAt(a, j.w, f.i);
  }

  predicate IsPlain(f: Event) {
    f.PassTop? || f.PassCompiled? || f.Quit? || f.GiveBack? || f.Finish? || f.EndDebug? || f.Accuse? || f.Retire?
  }

  lemma MoverIsOut(a: Args, j: Program, f: Event)
    requires AtRest(a, j) && Enabled(a, j.w, f) && (IsPlain(f) || f.SetStop? || f.Convict?)
    ensures Mover(a, f) <= a.n && (OfMonitor(f) <==> Mover(a, f) == a.n)
    ensures j.s.threads[Mover(a, f)].Out? && j.s.state == None && j.w.mutex == None
  {
    assert RestsAt(a, j.w, j.s.threads[Mover(a, f)], Mover(a, f));
  }

  /** Nobody but coder `i` is to log anything, and it only something for a log_msg. */
  ghost predicate OwesAtMost(j: Program, i: nat) {
    && (forall k: nat :: k < |j.owed| && k != i ==> j.owed[k] == None)
    && (i < |j.owed| && j.owed[i].Some? ==> j.owed[i].value.IsDebugging? || j.owed[i].value.IsRefactoring?)
  }

  /** A section that reads or writes the data under state_mutex and logs nothing. */
  lemma PlainSection(a: Args, j: Program, f: Event) returns (k: Program, r: Program)
    requires AtRest(a, j) && Enabled(a, j.w, f) && IsPlain(f)
    ensures Mover(a, f) <= a.n && CameToRest(a, j, f, r)
    ensures Makes(a, j, Silent(L.Begin(Mover(a, f), L.Plain)), k) && Makes(a, k, Commit(L.Leave(Mover(a, f)), f), r)
    ensures if f.Finish? || f.EndDebug? then OwesAtMost(r, f.i) && r.s.threads[f.i].Out? else NothingOwed(r)
  {
    MoverIsOut(a, j, f);
    k := PlainBegins(a, j, f);
    r := CommitMove(a, k, L.Leave(Mover(a, f)), f);
    PlainPlaces(a, j.w, f);
    PlainOwes(a, j, f, r);
  }

  lemma PlainBegins(a: Args, j: Program, f: Event) returns (k: Program)
    requires AtRest(a, j) && Enabled(a, j.w, f) && IsPlain(f) && Mover(a, f) <= a.n
    requires (OfMonitor(f) <==> Mover(a, f) == a.n) && j.s.threads[Mover(a, f)].Out? && j.s.state == None
    ensures Makes(a, j, Silent(L.Begin(Mover(a, f), L.Plain)), k)
    ensures k.w == j.w && k.owed == j.owed
    ensures k.s == j.s.(threads := j.s.threads[Mover(a, f) := L.InState], state := Some(Mover(a, f)))
    ensures L.Enabled(k.s, L.Leave(Mover(a, f))) && Carries(a, k, L.Leave(Mover(a, f)), f)
  {
    k := SilentMove(a, j, L.Begin(Mover(a, f), L.Plain));
  }

  lemma PlainOwes(a: Args, j: Program, f: Event, r: Program)
    requires AtRest(a, j) && Enabled(a, j.w, f) && IsPlain(f)
    requires r.owed == OwedMore(j.owed, f, Apply(a, j.w, f))
    ensures if f.Finish? || f.EndDebug? then OwesAtMost(r, f.i) else NothingOwed(r)
  {
  }

  lemma PlainPlaces(a: Args, w: World, f: Event)
    requires Sized(a, w) && Enabled(a, w, f) && IsPlain(f) && Mover(a, f) <= a.n
    ensures var r := Apply(a, w, f);
      && RestsAt(a, r, L.Out, Mover(a, f)) && r.mutex == w.mutex && r.st.stop == w.st.stop && r.now == w.now
      && (r.monitor.Writing? <==> w.monitor.Writing?)
  {
  }

  lemma StopSection(a: Args, j: Program, f: Event) returns (k: Program, r: Program)
    requires AtRest(a, j) && Enabled(a, j.w, f) && f.SetStop?
    ensures CameToRest(a, j, f, r)
    ensures Makes(a, j, Silent(L.Begin(f.i, L.SetStop)), k) && Makes(a, k, Commit(L.Advance(f.i), f), r)
    ensures NothingOwed(r)
  {
    MoverIsOut(a, j, f);
    k := SilentMove(a, j, L.Begin(f.i, L.SetStop));
    r := CommitMove(a, k, L.Advance(f.i), f);
    StopPlaces(a, j.w, f);
  }

  lemma StopPlaces(a: Args, w: World, f: Event)
    requires Sized(a, w) && Enabled(a, w, f) && f.SetStop?
    ensures var r := Apply(a, w, f);
      && RestsAt(a, r, L.Waking(0), f.i) && r.mutex == w.mutex && r.st.stop && r.now == w.now && r.monitor == w.monitor
  {
  }

  // ----------------------------------------------------------------- granting and judging

  /** Between the reservation and the return to the scan the thread of coder `i` is at `p`. */
  ghost predicate Announced(a: Args, j: Program, i: nat, p: L.Pc, k: Program) {
    && Shaped(a, j) && Shaped(a, k) && i < a.n && NothingOwed(k)
    && (forall t: nat :: t <= a.n && t != i ==> k.s.threads[t] == j.s.threads[t])
    && k.s.threads[i] == p && k.s.state == Some(i) && k.w.mutex == Some(i)
    && k.s.log == (if p.Announcing? then Some(i) else None)
    && k.s.stop == k.w.st.stop && k.s.now == k.w.now
  }

  function NextPlace(p: L.Pc): L.Pc {
    match p
    case Reserving(id) => L.Announcing(id, 0)
    case Announcing(id, lines) => if lines <= 2 then L.Announcing(id, lines + 1) else L.Dispatching
    case _ => p
  }

  lemma AnnounceStep(a: Args, j: Program, i: nat, p: L.Pc, k: Program) returns (r: Program)
    requires Announced(a, j, i, p, k) && (p.Reserving? || p.Announcing?)
    ensures Makes(a, k, Silent(L.Advance(i)), r) && Announced(a, j, i, NextPlace(p), r) && r.w == k.w
  {
    r := SilentMove(a, k, L.Advance(i));
  }

  lemma ReserveStep(a: Args, j: Program, f: Event) returns (r: Program)
    requires AtRest(a, j) && Control(a, j.w) && Enabled(a, j.w, f) && f.Award? && !j.w.monitor.Writing?
    ensures Makes(a, j, Commit(L.Reserve(f.i, f.g.coder + 1), f), r)
    ensures Announced(a, j, f.i, L.Reserving(f.g.coder + 1), r) && r.w == Apply(a, j.w, f)
  {
    assert RestsAt(a, j.w, j.s.threads[f.i], f.i) && ControlAt(a, j.w, f.i);
    r := CommitMove(a, j, L.Reserve(f.i, f.g.coder + 1), f);
  }

  lemma AnnouncedRests(a: Args, j: Program, f: Event, r: Program)
    requires AtRest(a, j) && Enabled(a, j.w, f) && f.Award? && !j.w.monitor.Writing?
    requires Announced(a, j, f.i, L.Dispatching, r) && r.w == Apply(a, j.w, f)
    ensures CameToRest(a, j, f, r)
  {
  }

  lemma ConvictSection(a: Args, j: Program) returns (k: Program, m: Program, r: Program)
    requires AtRest(a, j) && Enabled(a, j.w, Convict)
    ensures Makes(a, j, Silent(L.Begin(a.n, L.Burnout(j.w.monitor.coder + 1))), k)
    ensures Makes(a, k, Silent(L.Advance(a.n)), m) && Makes(a, m, Commit(L.Advance(a.n), Convict), r)
    ensures r.w == Apply(a, j.w, Convict) && |r.s.threads| == a.n + 1
    ensures forall t: nat :: t < a.n ==> r.s.threads[t] == j.s.threads[t]
    ensures r.s.stop == r.w.st.stop && r.s.now == r.w.now && |r.owed| == a.n && NothingOwed(r)
    ensures if j.w.st.stop then r.s.threads[a.n] == L.InState && r.s.state == Some(a.n) && r.s.log == None
            else r.s.threads[a.n] == L.Sentencing(j.w.monitor.coder + 1) && r.s.state == None && r.s.log == Some(a.n)
  {
    MoverIsOut(a, j, Convict);
    k := SilentMove(a, j, L.Begin(a.n, L.Burnout(j.w.monitor.coder + 1)));
    m := SilentMove(a, k, L.Advance(a.n));
    r := CommitMove(a, m, L.Advance(a.n), Convict);
  }

  /** Stopped by somebody else, the monitor unlocks and goes back to scanning. */
  lemma ConvictInVain(a: Args, j: Program, k: Program) returns (r: Program)
    requires AtRest(a, j) && Enabled(a, j.w, Convict) && j.w.st.stop && Shaped(a, k)
    requires k.w == Apply(a, j.w, Convict) && k.s.stop == k.w.st.stop && k.s.now == k.w.now
    requires forall t: nat :: t < a.n ==> k.s.threads[t] == j.s.threads[t]
    requires k.s.threads[a.n] == L.InState && k.s.state == Some(a.n) && k.s.log == None && NothingOwed(k)
    ensures Makes(a, k, Silent(L.Leave(a.n)), r) && CameToRest(a, j, Convict, r) && NothingOwed(r)
  {
    r := SilentMove(a, k, L.Leave(a.n));
  }

  lemma VerdictSection(a: Args, j: Program) returns (k: Program, r: Program)
    requires AtRest(a, j) && Enabled(a, j.w, WriteVerdict)
    ensures Makes(a, j, Commit(L.Advance(a.n), WriteVerdict), k) && Makes(a, k, Silent(L.Advance(a.n)), r)
    ensures CameToRest(a, j, WriteVerdict, r) && NothingOwed(r)
  {
    assert RestsAt(a, j.w, j.s.threads[a.n], a.n);
    k := CommitMove(a, j, L.Advance(a.n), WriteVerdict);
    r := SilentMove(a, k, L.Advance(a.n));
  }

  // -------------------------------------------------------------------------- whole runs

  lemma TwoMoves(a: Args, j: Program, m: Move, k: Program, o: Move, r: Program)
    requires Realized(a, j) && Makes(a, j, m, k) && Makes(a, k, o, r)
    ensures Realized(a, r)
  {
    Moved(a, j, m, k);
    Moved(a, k, o, r);
  }

  lemma RealizePass(a: Args, j: Program, f: Event) returns (r: Program)
    requires Realized(a, j) && AtRest(a, j) && Enabled(a, j.w, f) && Lockless(f)
    ensures Realized(a, r) && AtRest(a, r) && r.w == Apply(a, j.w, f)
  {
    EnabledIsRipe(a, j.w, f);
    var w := Apply(a, j.w, f);
    r := Program(j.s.(now := w.now), w, j.owed);
    PassRests(a, j, f);
    Moved(a, j, Pass(f), r);
  }

  lemma PassRests(a: Args, j: Program, f: Event)
    requires AtRest(a, j) && Enabled(a, j.w, f) && Lockless(f)
    ensures AtRest(a, Program(j.s.(now := Apply(a, j.w, f).now), Apply(a, j.w, f), j.owed)) && Between(a, j, f)
  {
    var w := Apply(a, j.w, f);
    assert w.mutex == j.w.mutex && w.monitor == j.w.monitor && w.st == j.w.st;
    forall t: nat | t <= a.n ensures RestsAt(a, w, j.s.threads[t], t) {
      assert RestsAt(a, j.w, j.s.threads[t], t);
      if f.Tick? || f.i != t { OtherRests(a, j.w, f, j.s.threads[t], t); }
    }
  }

  lemma RealizeAward(a: Args, j: Program, f: Event) returns (r: Program)
    requires Realized(a, j) && AtRest(a, j) && Control(a, j.w) && Enabled(a, j.w, f)
    requires f.Award? && !j.w.monitor.Writing?
    ensures Realized(a, r) && AtRest(a, r) && r.w == Apply(a, j.w, f)
  {
    var p := L.Reserving(f.g.coder + 1);
    r := ReserveStep(a, j, f);
    Moved(a, j, Commit(L.Reserve(f.i, f.g.coder + 1), f), r);
    r := RealizeLines(a, j, f.i, p, r);
    AnnouncedRests(a, j, f, r);
    SettledRests(a, j, f, r);
  }

  /** How many steps from `p` back to the scan. */
  function StepsLeft(p: L.Pc): nat {
    match p
    case Reserving(_) => 5
    case Announcing(_, lines) => if lines <= 3 then 4 - lines else 1
    case _ => 0
  }

  lemma {:induction false} RealizeLines(a: Args, j: Program, i: nat, p: L.Pc, k: Program) returns (r: Program)
    requires Realized(a, k) && Announced(a, j, i, p, k) && (p.Reserving? || p.Announcing? || p.Dispatching?)
    ensures Realized(a, r) && Announced(a, j, i, L.Dispatching, r) && r.w == k.w
    decreases StepsLeft(p)
  {
    r := k;
    if !p.Dispatching? {
      r := AnnounceStep(a, j, i, p, k);
      Moved(a, k, Silent(L.Advance(i)), r);
      r := RealizeLines(a, j, i, NextPlace(p), r);
    }
  }

  // ------------------------------------------------------------------------------ log_msg

  /** The places of log_msg, one after the other; after a stop nothing is written. */
  function NextInLog(p: L.Pc, stop: bool): L.Pc {
    match p
    case Testing(id, m) => if stop then L.InState else L.Passed(id, m)
    case Passed(id, m) => L.Both(id, m)
    case Both(id, m) => L.Alone(id, m)
    case Alone(id, m) => L.Written(false)
    case _ => L.Out
  }

  function LogStepsLeft(p: L.Pc): nat {
    match p
    case Testing(_, _) => 5
    case Passed(_, _) => 4
    case Both(_, _) => 3
    case Alone(_, _) => 2
    case Out => 0
    case _ => 1
  }

  predicate InLog(p: L.Pc) {
    p.Testing? || p.Passed? || p.Both? || p.Alone? || p == L.Written(false) || p.InState? || p.Out?
  }

  /** Coder `i` is at place `p` of log_msg; nothing else differs from `j` that matters. */
  ghost predicate Logs(a: Args, j: Program, i: nat, p: L.Pc, k: Program) {
    && Shaped(a, j) && Shaped(a, k) && i < a.n && NothingOwed(k) && k.w == j.w && InLog(p)
    && (forall t: nat :: t <= a.n && t != i ==> k.s.threads[t] == j.s.threads[t])
    && k.s.threads[i] == p && k.s.stop == j.s.stop && k.s.now == j.s.now
    && k.s.state == (if L.HasState(p) then Some(i) else None)
    && (L.HasLog(p) ==> !k.s.stop) && (p.Passed? ==> !k.s.stop)
    && k.s.log == (if L.HasLog(p) then Some(i) else j.s.log)
    && (!k.s.stop ==> j.s.log == None)
  }

  lemma LogStep(a: Args, j: Program, i: nat, p: L.Pc, k: Program) returns (e: L.Event, r: Program)
    requires Logs(a, j, i, p, k) && !p.Out?
    ensures Makes(a, k, Silent(e), r) && Logs(a, j, i, NextInLog(p, j.s.stop), r)
  {
    e := if p.InState? then L.Leave(i) else L.Advance(i);
    r := SilentMove(a, k, e);
  }

  lemma {:induction false} RealizeSteps(a: Args, j: Program, i: nat, p: L.Pc, k: Program) returns (r: Program)
    requires Realized(a, k) && Logs(a, j, i, p, k)
    ensures Realized(a, r) && Logs(a, j, i, L.Out, r)
    decreases LogStepsLeft(p)
  {
    r := k;
    if !p.Out? {
      var e;
      e, r := LogStep(a, j, i, p, k);
      Moved(a, k, Silent(e), r);
      r := RealizeSteps(a, j, i, NextInLog(p, j.s.stop), r);
    }
  }

  lemma LogBegins(a: Args, j: Program, i: nat) returns (r: Program)
    requires Shaped(a, j) && i < a.n && OwesAtMost(j, i) && j.owed[i].Some? && j.s.threads[i].Out?
    requires j.s.state == None && (!j.s.stop ==> j.s.log == None)
    ensures Makes(a, j, Silent(L.Begin(i, L.LogMsg(i + 1, j.owed[i].value))), r)
    ensures Logs(a, j, i, L.Testing(i + 1, j.owed[i].value), r)
  {
    r := SilentMove(a, j, L.Begin(i, L.LogMsg(i + 1, j.owed[i].value)));
  }

  lemma RealizeOwed(a: Args, j: Program, i: nat) returns (r: Program)
    requires Realized(a, j) && Shaped(a, j) && i < a.n && OwesAtMost(j, i) && j.owed[i].Some?
    requires j.s.threads[i].Out? && j.s.state == None && (!j.s.stop ==> j.s.log == None)
    ensures Realized(a, r) && Logs(a, j, i, L.Out, r)
  {
    var m := j.owed[i].value;
    r := LogBegins(a, j, i);
    Moved(a, j, Silent(L.Begin(i, L.LogMsg(i + 1, m))), r);
    r := RealizeSteps(a, j, i, L.Testing(i + 1, m), r);
  }

  /** After counting, or after debugging, the coder logs its line, if it has one. */
  lemma RealizeLog(a: Args, j: Program, f: Event, k: Program) returns (r: Program)
    requires AtRest(a, j) && Enabled(a, j.w, f) && (f.Finish? || f.EndDebug?)
    requires Realized(a, k) && CameToRest(a, j, f, k) && OwesAtMost(k, f.i) && k.s.threads[f.i].Out?
    requires j.w.monitor.Writing? ==> j.w.st.stop
    ensures Realized(a, r) && CameToRest(a, j, f, r) && NothingOwed(r)
  {
    r := k;
    LogMayBegin(a, j, f, k);
    if k.owed[f.i].Some? {
      r := RealizeOwed(a, k, f.i);
      LogSettles(a, j, f, k, r);
    }
  }

  lemma LogMayBegin(a: Args, j: Program, f: Event, k: Program)
    requires AtRest(a, j) && Enabled(a, j.w, f) && (f.Finish? || f.EndDebug?) && CameToRest(a, j, f, k)
    requires OwesAtMost(k, f.i) && (j.w.monitor.Writing? ==> j.w.st.stop)
    ensures f.i < a.n && Shaped(a, k) && k.s.state == None && (!k.s.stop ==> k.s.log == None)
    ensures k.owed[f.i] == None ==> NothingOwed(k)
  {
    SectionLeavesMutex(a, j.w, f);
  }

  lemma LogSettles(a: Args, j: Program, f: Event, k: Program, r: Program)
    requires AtRest(a, j) && Enabled(a, j.w, f) && (f.Finish? || f.EndDebug?) && f.i < a.n
    requires CameToRest(a, j, f, k) && k.s.threads[f.i].Out? && k.s.state == None && Logs(a, k, f.i, L.Out, r)
    ensures CameToRest(a, j, f, r)
  {
  }

  lemma SectionLeavesMutex(a: Args, w: World, f: Event)
    requires Sized(a, w) && Enabled(a, w, f) && (f.Finish? || f.EndDebug?)
    ensures var r := Apply(a, w, f);
      r.mutex == None && f.i < a.n && r.monitor == w.monitor && r.st.stop == w.st.stop
  {
  }

  lemma RealizeConvict(a: Args, j: Program) returns (r: Program)
    requires Realized(a, j) && AtRest(a, j) && Enabled(a, j.w, Convict)
    ensures Realized(a, r) && AtRest(a, r) && r.w == Apply(a, j.w, Convict)
  {
    var k, m, o := ConvictSection(a, j);
    TwoMoves(a, j, Silent(L.Begin(a.n, L.Burnout(j.w.monitor.coder + 1))), k, Silent(L.Advance(a.n)), m);
    Moved(a, m, Commit(L.Advance(a.n), Convict), o);
    r := o;
    if j.w.st.stop {
      r := ConvictInVain(a, j, o);
      Moved(a, o, Silent(L.Leave(a.n)), r);
    } else {
      ConvictSettles(a, j, r);
    }
    SettledRests(a, j, Convict, r);
  }

  lemma ConvictSettles(a: Args, j: Program, r: Program)
    requires AtRest(a, j) && Enabled(a, j.w, Convict) && !j.w.st.stop
    requires r.w == Apply(a, j.w, Convict) && |r.s.threads| == a.n + 1 && |r.owed| == a.n
    requires forall t: nat :: t < a.n ==> r.s.threads[t] == j.s.threads[t]
    requires r.s.stop == r.w.st.stop && r.s.now == r.w.now
    requires r.s.threads[a.n] == L.Sentencing(j.w.monitor.coder + 1) && r.s.state == None && r.s.log == Some(a.n)
    ensures CameToRest(a, j, Convict, r)
  {
  }

  lemma RealizeSection(a: Args, j: Program, f: Event) returns (r: Program)
    requires Realized(a, j) && AtRest(a, j) && Enabled(a, j.w, f) && (IsPlain(f) || f.SetStop? || f.WriteVerdict?)
    requires j.w.monitor.Writing? ==> j.w.st.stop
    ensures Realized(a, r) && AtRest(a, r) && r.w == Apply(a, j.w, f)
  {
    var k;
    if IsPlain(f) {
      k, r := PlainSection(a, j, f);
      TwoMoves(a, j, Silent(L.Begin(Mover(a, f), L.Plain)), k, Commit(L.Leave(Mover(a, f)), f), r);
      if f.Finish? || f.EndDebug? { r := RealizeLog(a, j, f, r); }
    } else if f.SetStop? {
      k, r := StopSection(a, j, f);
      TwoMoves(a, j, Silent(L.Begin(f.i, L.SetStop)), k, Commit(L.Advance(f.i), f), r);
    } else {
      k, r := VerdictSection(a, j);
      TwoMoves(a, j, Commit(L.Advance(a.n), f), k, Silent(L.Advance(a.n)), r);
    }
    SettledRests(a, j, f, r);
  }

  /** Each step of the state machine is a critical section of the program. */
  lemma Realize(a: Args, j: Program, f: Event) returns (r: Program)
    requires Realized(a, j) && AtRest(a, j) && Control(a, j.w) && Enabled(a, j.w, f)
    requires j.w.monitor.Writing? ==> j.w.st.stop
    ensures Realized(a, r) && AtRest(a, r) && r.w == Apply(a, j.w, f)
  {
    if Lockless(f) { r := RealizePass(a, j, f); }
    else if f.Award? {
      assert ControlAt(a, j.w, f.i);
      r := RealizeAward(a, j, f);
    } else if f.Convict? { r := RealizeConvict(a, j); }
    else if Inside(f) || f.Enter? || f.Wake? {
      r := OneCommit(a, j, f);
      Moved(a, j, Commit(InsideStep(f), f), r);
      SettledRests(a, j, f, r);
    } else { r := RealizeSection(a, j, f); }
  }

  lemma Begins(a: Args, t: int) returns (j: Program)
    requires 2 <= a.n
    ensures Realized(a, j) && AtRest(a, j) && j.w == Init(a, t)
  {
    j := Program(L.Sys(t, seq(a.n + 1, _ => L.Out), None, None, seq(a.n, _ => None), false, 0, [], {}),
                 Init(a, t), seq(a.n, _ => None));
    assert AtStart(a, [j][0], t);
    assert Run(a, [j], []) && [j][0] == j;
  }

  lemma {:induction false} RunIsRealized(a: Args, t: int, es: seq<Event>) returns (j: Program)
    requires 2 <= a.n && Legal(a, Init(a, t), es)
    ensures Realized(a, j) && AtRest(a, j) && j.w == Reach(a, Init(a, t), es)
    decreases |es|
  {
    if es == [] {
      j := Begins(a, t);
    } else {
      var k := |es| - 1;
      j := RunIsRealized(a, t, es[..k]);
      StartsSound(a, t);
      StaysSound(a, Init(a, t), es[..k]);
      Burnout.StaysJudged(a, Init(a, t), es[..k]);
      j := Realize(a, j, es[k]);
    }
  }

  ghost predicate Shown(a: Args, w: World) {
    exists j: Program :: Realized(a, j) && j.w == w
  }

  /** The state machine and the program, lock by lock, reach exactly the same data. */
  lemma SameWorlds(a: Args, w: World)
    ensures Reachable(a, w) <==> Shown(a, w)
  {
    if Reachable(a, w) {
      var t: int, es: seq<Event> :| Legal(a, Init(a, t), es) && Reach(a, Init(a, t), es) == w;
      var j := RunIsRealized(a, t, es);
    }
    if Shown(a, w) {
      var j: Program :| Realized(a, j) && j.w == w;
      var js: seq<Program>, ms: seq<Move> :| Run(a, js, ms) && js[|ms|] == j;
      Truthfulness.RunsProject(a, js, ms);
    }
  }
}
