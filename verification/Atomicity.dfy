// The program lock by lock, with its data: every critical section takes effect in one of its
// steps, which never looks at the mutex of the state machine, and yet is a step of the state
// machine. What the log says can then be compared with what the state machine does.
module Atomicity {
  import opened Table
  import opened Options
  import opened Runs
  import opened Ownership
  import L = LockProtocol
  import opened Scheduler

  /** The threads and their locks, the data they work on, and the line each coder is to log before
      it does anything else. Thread `n` is the monitor. */
  datatype Program = Program(s: L.Sys, w: World, owed: seq<Option<Message>>)

  datatype Move =
    | Silent(e: L.Event)                 // a step that changes none of the data
    | Commit(e: L.Event, f: Event)       // the step by which a critical section takes effect
    | Pass(f: Event)                     // time passes, or a sleep ends between two sections

  predicate Shaped(a: Args, j: Program) {
    Sized(a, j.w) && |j.s.threads| == a.n + 1 && |j.owed| == a.n
  }

  predicate InDispatch(p: L.Pc) {
    p.Dispatching? || p.Reserving? || p.Announcing?
  }

  /** Steps that take no lock. */
  predicate Lockless(f: Event) {
    f.Tick? || f.EndCompile? || f.EndRefactor?
  }

  function Mover(a: Args, f: Event): nat
    requires !f.Tick?
  {
    if OfMonitor(f) then a.n else f.i
  }

  /** Lock-level step `e` is where the program does `f`. */
  predicate Carries(a: Args, j: Program, e: L.Event, f: Event)
    requires Shaped(a, j)
  {
    !Lockless(f) && Mover(a, f) <= a.n && (OfMonitor(f) <==> Mover(a, f) == a.n) &&
    var t := Mover(a, f);
    (t < a.n ==> j.owed[t] == None) &&
    var p := j.s.threads[t];
    match f
    case Enter(_) => e == L.Begin(t, L.Schedule)
    case Wake(_) => e == L.Begin(t, L.Schedule)
    case Proceed(_) => e == L.Advance(t) && p.Looping?
    case GiveUp(_) => e == L.Leave(t) && p.Looping?
    case Award(_, g) => e == L.Reserve(t, g.coder + 1)
    case Skip(_, _) => e == L.Skip(t)
    case Return(_) => e == L.Leave(t) && p.Dispatching?
    case Sleep(_, _, _) => e == L.Leave(t) && p.Dispatching?
    case SetStop(_) => e == L.Advance(t) && p.Stopping?
    case Convict => e == L.Advance(t) && p.Judging?
    case WriteVerdict => e == L.Advance(t) && p.Sentencing?
    case _ => e == L.Leave(t) && p.InState?
  }

  /** Lock-level steps at which nothing takes effect, and what the data say about entering the
      sections they begin. */
  predicate Quiet(a: Args, j: Program, e: L.Event)
    requires Shaped(a, j)
  {
    match e
    case Tick(_) => false
    case Reserve(_, _) => false
    case Skip(_) => false
    case Decline(_) => false
    case Begin(t, section) =>
      (match section
       case Plain => t == a.n || (t < a.n && !j.w.pcs[t].Exited? && j.owed[t] == None)
       case LogMsg(id, m) => t < a.n && id == t + 1 && j.owed[t] == Some(m)
       case Burnout(id) => t == a.n && id > 0 && j.w.monitor == Accusing(id - 1)
       case SetStop => t < a.n && j.w.pcs[t].Reporting?
       // Between several coders no dongle is acquired or released on its own.
       case _ => false)
    case Advance(t) =>
      t <= a.n && var p := j.s.threads[t]; !p.Looping? && !p.Stopping? && !p.Judging? && !p.Sentencing?
    case Leave(t) => t <= a.n && (j.s.threads[t].InState? || j.s.threads[t].AtDongle?)
  }

  function Unheld(w: World): World {
    w.(mutex := None)
  }

  /** The data allow `f`, whatever the locks say. */
  predicate Ripe(a: Args, w: World, f: Event)
    requires Sized(a, w)
  {
    Enabled(a, Unheld(w), f)
  }

  /** What `f` does to the data; the mutex of the state machine follows, but is not consulted. */
  function Effect(a: Args, w: World, f: Event): (r: World)
    requires Sized(a, w) && Ripe(a, w, f)
    ensures Sized(a, r)
  {
    var r := Apply(a, Unheld(w), f);
    if f.Enter? || f.Wake? || f.GiveUp? || f.Return? || f.Sleep? then r else r.(mutex := w.mutex)
  }

  /** A coder that begins log_msg logs what it is to log. */
  function OwedLess(owed: seq<Option<Message>>, e: L.Event): (r: seq<Option<Message>>)
    ensures |r| == |owed|
  {
    if e.Begin? && e.section.LogMsg? && e.t < |owed| then owed[e.t := None] else owed
  }

  /** After a counted compile a coder is to say that it is debugging, and after that that it is
      refactoring. */
  function OwedMore(owed: seq<Option<Message>>, f: Event, r: World): (more: seq<Option<Message>>)
    ensures |more| == |owed|
  {
    match f
    case Finish(i) => if i < |owed| && i < |r.pcs| && r.pcs[i].Debugging? then owed[i := Some(IsDebugging)] else owed
    case EndDebug(i) => if i < |owed| then owed[i := Some(IsRefactoring)] else owed
    case _ => owed
  }

  /** A coder is between two critical sections, with nothing to log. */
  predicate Between(a: Args, j: Program, f: Event)
    requires Shaped(a, j)
  {
    f.Tick? || (!OfMonitor(f) && f.i < a.n && j.s.threads[f.i].Out? && j.owed[f.i] == None)
  }

  predicate Makes(a: Args, j: Program, m: Move, r: Program) {
    Shaped(a, j) &&
    match m
    case Silent(e) =>
      && L.Enabled(j.s, e) && Quiet(a, j, e)
      && r == Program(L.Apply(j.s, e), j.w, OwedLess(j.owed, e))
    case Commit(e, f) =>
      && L.Enabled(j.s, e) && Carries(a, j, e, f) && Ripe(a, j.w, f)
      && var w := Effect(a, j.w, f);
         r == Program(L.Apply(j.s, e).(now := w.now), w, OwedMore(j.owed, f, w))
    case Pass(f) =>
      && Lockless(f) && Between(a, j, f) && Ripe(a, j.w, f)
      && var w := Effect(a, j.w, f);
         r == Program(j.s.(now := w.now), w, j.owed)
  }

  predicate AtStart(a: Args, j: Program, t: int) {
    && 2 <= a.n && j.w == Init(a, t)
    && |j.s.threads| == a.n + 1 && |j.s.dongles| == a.n && (forall k: nat :: k <= a.n ==> j.s.threads[k] == L.Out)
    && j.s.state == None && j.s.log == None && (forall d: nat :: d < |j.s.dongles| ==> j.s.dongles[d] == None)
    && !j.s.stop && j.s.output == [] && j.s.now == t
    && |j.owed| == a.n && forall i: nat :: i < a.n ==> j.owed[i] == None
  }

  /** A run of the program: the programs it passes through and the moves between them. */
  ghost predicate Run(a: Args, js: seq<Program>, ms: seq<Move>) {
    && |js| == |ms| + 1 && (exists t: int :: AtStart(a, js[0], t))
    && forall k :: 0 <= k < |ms| ==> Makes(a, js[k], ms[k], js[k + 1])
  }

  // ------------------------------------------------------------- threads and data agree

  ghost predicate CoderAt(a: Args, w: World, p: L.Pc, i: nat)
    requires Sized(a, w) && i < a.n
  {
    && (w.pcs[i].Looping? <==> p.Looping?) && (w.pcs[i].Dispatching? <==> InDispatch(p))
    && !p.Convicting? && !p.Judging? && !p.Sentencing? && (p.Stopping? ==> w.pcs[i].Reporting?)
  }

  ghost predicate MonitorAt(w: World, p: L.Pc) {
    && !p.Looping? && !InDispatch(p) && !p.Stopping?
    && (p.Convicting? || p.Judging? ==> p.id > 0 && w.monitor == Accusing(p.id - 1))
    && (p.Sentencing? ==> p.id > 0 && w.monitor == Writing(p.id - 1))
  }

  ghost predicate ThreadIsAt(a: Args, w: World, p: L.Pc, t: nat)
    requires Sized(a, w) && t <= a.n
  {
    if t == a.n then MonitorAt(w, p) else CoderAt(a, w, p, t)
  }

  ghost predicate Agree(a: Args, j: Program) {
    && Shaped(a, j) && j.s.stop == j.w.st.stop && j.s.now == j.w.now
    && forall t: nat :: t <= a.n ==> ThreadIsAt(a, j.w, j.s.threads[t], t)
  }

  /** Whoever holds state_mutex outside the scheduler keeps everybody out of it. */
  lemma HolderIsAlone(a: Args, j: Program, t: nat)
    requires Agree(a, j) && L.Owned(j.s) && Control(a, j.w) && t <= a.n
    requires L.HasState(j.s.threads[t]) && !j.s.threads[t].Looping? && !InDispatch(j.s.threads[t])
    ensures j.w.mutex == None
  {
    assert L.LocksAt(j.s, t) && ThreadIsAt(a, j.w, j.s.threads[t], t);
    if j.w.mutex.Some? { MutexIsState(a, j); }
  }

  lemma MutexIsState(a: Args, j: Program)
    requires Agree(a, j) && L.Owned(j.s) && Control(a, j.w) && j.w.mutex.Some?
    ensures j.s.state == j.w.mutex && j.w.mutex.value < a.n
    ensures var p := j.s.threads[j.w.mutex.value]; p.Looping? || InDispatch(p)
  {
    var i := j.w.mutex.value;
    assert Ownership.ControlAt(a, j.w, i) && ThreadIsAt(a, j.w, j.s.threads[i], i) && L.LocksAt(j.s, i);
  }

  lemma FreeMeansNobody(a: Args, j: Program)
    requires Agree(a, j) && L.Owned(j.s) && Control(a, j.w) && j.s.state == None
    ensures j.w.mutex == None
  {
    if j.w.mutex != None { MutexIsState(a, j); }
  }

  /** Atomicity: where the data allow a critical section to take effect and the locks let its
      thread do it, the state machine allows the step as well, and it has the same effect. */
  lemma CommitIsAStep(a: Args, j: Program, e: L.Event, f: Event)
    requires Agree(a, j) && L.Owned(j.s) && Control(a, j.w)
    requires L.Enabled(j.s, e) && Carries(a, j, e, f) && Ripe(a, j.w, f)
    ensures Enabled(a, j.w, f) && Effect(a, j.w, f) == Apply(a, j.w, f)
  {
    var t := Mover(a, f);
    assert ThreadIsAt(a, j.w, j.s.threads[t], t);
    if f.Enter? || f.Wake? {
      FreeMeansNobody(a, j);
    } else if L.HasState(j.s.threads[t]) && !j.s.threads[t].Looping? && !InDispatch(j.s.threads[t]) {
      HolderIsAlone(a, j, t);
    }
    MutexIrrelevant(a, j.w, f);
  }

  /** Steps taken while already holding state_mutex in scheduler_acquire_pair. */
  predicate Inside(f: Event) {
    f.GiveUp? || f.Proceed? || f.Award? || f.Skip? || f.Return? || f.Sleep?
  }

  lemma TakesMutex(a: Args, w: World, f: Event)
    requires Sized(a, w) && Enabled(a, w, f) && !Lockless(f) && !Inside(f) && !f.WriteVerdict?
    ensures w.mutex == None
  {
  }

  /** Apart from the entry into a critical section the state machine does not look at its mutex. */
  lemma MutexIrrelevant(a: Args, w: World, f: Event)
    requires Sized(a, w) && Ripe(a, w, f)
    requires w.mutex == None || Lockless(f) || Inside(f) || f.WriteVerdict?
    ensures Enabled(a, w, f) && Effect(a, w, f) == Apply(a, w, f)
  {
  }

  // ------------------------------------------------------------------ agreement is kept

  lemma OthersStayAdvance(s: L.Sys, t: nat, u: nat)
    requires L.Enabled(s, L.Advance(t)) && u < |s.threads| && u != t
    ensures L.Proceed(s, t).threads[u] == s.threads[u]
  {
  }

  lemma OthersStay(s: L.Sys, e: L.Event, u: nat)
    requires L.Enabled(s, e) && !e.Tick? && u < |s.threads| && u != e.t
    ensures L.Apply(s, e).threads[u] == s.threads[u]
  {
    if e.Advance? { OthersStayAdvance(s, e.t, u); }
  }

  lemma QuietLog(a: Args, j: Program, t: nat)
    requires Shaped(a, j) && L.Enabled(j.s, L.Advance(t)) && Quiet(a, j, L.Advance(t))
    requires ThreadIsAt(a, j.w, j.s.threads[t], t) && L.Logging(j.s.threads[t])
    ensures var r := L.Proceed(j.s, t);
      ThreadIsAt(a, j.w, r.threads[t], t) && r.stop == j.s.stop && r.now == j.s.now
  {
  }

  lemma QuietElsewhere(a: Args, j: Program, t: nat)
    requires Shaped(a, j) && L.Enabled(j.s, L.Advance(t)) && Quiet(a, j, L.Advance(t))
    requires ThreadIsAt(a, j.w, j.s.threads[t], t) && !L.Logging(j.s.threads[t])
    ensures var r := L.Proceed(j.s, t);
      ThreadIsAt(a, j.w, r.threads[t], t) && r.stop == j.s.stop && r.now == j.s.now
  {
  }

  lemma SilentThread(a: Args, j: Program, e: L.Event)
    requires Shaped(a, j) && L.Enabled(j.s, e) && Quiet(a, j, e) && ThreadIsAt(a, j.w, j.s.threads[e.t], e.t)
    ensures var r := L.Apply(j.s, e);
      ThreadIsAt(a, j.w, r.threads[e.t], e.t) && r.stop == j.s.stop && r.now == j.s.now
  {
    if e.Advance? {
      if L.Logging(j.s.threads[e.t]) { QuietLog(a, j, e.t); } else { QuietElsewhere(a, j, e.t); }
    }
  }

  lemma SilentAgree(a: Args, j: Program, e: L.Event)
    requires Agree(a, j) && L.Enabled(j.s, e) && Quiet(a, j, e)
    ensures Agree(a, j.(s := L.Apply(j.s, e)))
  {
    var r := L.Apply(j.s, e);
    assert ThreadIsAt(a, j.w, j.s.threads[e.t], e.t);
    SilentThread(a, j, e);
    forall t: nat | t <= a.n ensures ThreadIsAt(a, j.w, r.threads[t], t) {
      assert ThreadIsAt(a, j.w, j.s.threads[t], t);
      if t != e.t { OthersStay(j.s, e, t); }
    }
  }

  /** Where the thread stands once `f` has taken effect. */
  function Target(w: World, f: Event): L.Pc {
    match f
    case Enter(_) => L.Looping
    case Wake(_) => L.Looping
    case Proceed(_) => L.Dispatching
    case Award(_, g) => L.Reserving(g.coder + 1)
    case Skip(_, _) => L.Dispatching
    case SetStop(_) => L.Waking(0)
    case Convict => if w.st.stop || !w.monitor.Accusing? then L.InState else L.Sentencing(w.monitor.coder + 1)
    case WriteVerdict => L.Written(true)
    case _ => L.Out
  }

  lemma CommitPlace(a: Args, j: Program, e: L.Event, f: Event)
    requires Shaped(a, j) && L.Enabled(j.s, e) && Carries(a, j, e, f) && j.s.stop == j.w.st.stop
    requires ThreadIsAt(a, j.w, j.s.threads[Mover(a, f)], Mover(a, f))
    ensures e.t == Mover(a, f) && L.Apply(j.s, e).threads[e.t] == Target(j.w, f)
    ensures L.Apply(j.s, e).stop == (j.s.stop || f.SetStop? || f.Convict?) && L.Apply(j.s, e).now == j.s.now
  {
  }

  /** The places of the other coders that matter to the locks stay. */
  lemma OtherCoderStays(a: Args, w: World, f: Event, k: nat)
    requires Sized(a, w) && Enabled(a, w, f) && k < a.n && (f.Tick? || OfMonitor(f) || f.i != k)
    ensures var p, q := w.pcs[k], Apply(a, w, f).pcs[k];
      (p.Looping? <==> q.Looping?) && (p.Dispatching? <==> q.Dispatching?) && (p.Reporting? <==> q.Reporting?)
  {
  }

  lemma MoverArrives(a: Args, w: World, f: Event, p: L.Pc)
    requires Sized(a, w) && Enabled(a, w, f) && !Lockless(f)
    requires Mover(a, f) <= a.n && (OfMonitor(f) <==> Mover(a, f) == a.n)
    requires ThreadIsAt(a, w, p, Mover(a, f))
    ensures ThreadIsAt(a, Apply(a, w, f), Target(w, f), Mover(a, f))
  {
  }

  lemma MonitorStays(a: Args, w: World, f: Event)
    requires Sized(a, w) && Enabled(a, w, f) && !OfMonitor(f)
    ensures Apply(a, w, f).monitor == w.monitor
  {
  }

  lemma StopsAlike(a: Args, w: World, f: Event)
    requires Sized(a, w) && Enabled(a, w, f)
    ensures Apply(a, w, f).st.stop == (w.st.stop || f.SetStop? || f.Convict?)
  {
  }

  lemma OtherThreadAgrees(a: Args, w: World, f: Event, p: L.Pc, t: nat)
    requires Sized(a, w) && Enabled(a, w, f) && t <= a.n && (f.Tick? || Mover(a, f) != t) && ThreadIsAt(a, w, p, t)
    ensures ThreadIsAt(a, Apply(a, w, f), p, t)
  {
    if t == a.n { MonitorStays(a, w, f); } else { OtherCoderStays(a, w, f, t); }
  }

  lemma CommitAgree(a: Args, j: Program, e: L.Event, f: Event)
    requires Agree(a, j) && L.Enabled(j.s, e) && Carries(a, j, e, f) && Enabled(a, j.w, f)
    ensures var w := Apply(a, j.w, f);
      Agree(a, j.(s := L.Apply(j.s, e).(now := w.now), w := w))
  {
    var m, w, s := Mover(a, f), Apply(a, j.w, f), L.Apply(j.s, e);
    assert ThreadIsAt(a, j.w, j.s.threads[m], m);
    CommitPlace(a, j, e, f);
    StopsAlike(a, j.w, f);
    forall t: nat | t <= a.n ensures ThreadIsAt(a, w, s.threads[t], t) {
      assert ThreadIsAt(a, j.w, j.s.threads[t], t);
      if t == m {
        MoverArrives(a, j.w, f, j.s.threads[m]);
      } else {
        OthersStay(j.s, e, t);
        OtherThreadAgrees(a, j.w, f, j.s.threads[t], t);
      }
    }
  }

  lemma LocklessStays(a: Args, w: World, f: Event, k: nat)
    requires Sized(a, w) && Enabled(a, w, f) && Lockless(f) && k < a.n
    ensures var p, q := w.pcs[k], Apply(a, w, f).pcs[k];
      (p.Looping? <==> q.Looping?) && (p.Dispatching? <==> q.Dispatching?) && (p.Reporting? <==> q.Reporting?)
  {
  }

  lemma PassAgree(a: Args, j: Program, f: Event)
    requires Agree(a, j) && Lockless(f) && Enabled(a, j.w, f)
    ensures var w := Apply(a, j.w, f); Agree(a, j.(s := j.s.(now := w.now), w := w))
  {
    var w := Apply(a, j.w, f);
    StopsAlike(a, j.w, f);
    forall t: nat | t <= a.n ensures ThreadIsAt(a, w, j.s.threads[t], t) {
      assert ThreadIsAt(a, j.w, j.s.threads[t], t);
      if t < a.n { LocklessStays(a, j.w, f, t); } else { MonitorStays(a, j.w, f); }
    }
  }
}
