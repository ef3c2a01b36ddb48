// What the log says, under every interleaving of the locks, is what happened.
module Truthfulness {
  import opened Table
  import opened Options
  import opened Runs
  import opened Ownership
  import opened Burnout
  import opened Completion
  import opened LogOrder
  import opened Atomicity
  import L = LockProtocol
  import Scheduler
  import Aftermath

  type Line = Scheduler.Line

  /** The lines that say that somebody is compiling. */
  function Compiles(lines: seq<Line>): seq<Line> {
    if lines == [] then [] else
      var k := |lines| - 1;
      Compiles(lines[..k]) + if lines[k].message.IsCompiling? then [lines[k]] else []
  }

  lemma CompilesSnoc(lines: seq<Line>, line: Line)
    ensures Compiles(lines + [line]) == Compiles(lines) + if line.message.IsCompiling? then [line] else []
  {
    assert (lines + [line])[..|lines|] == lines;
  }

  /** The coder whose reservation is made but not yet announced as compiling. */
  function Due(p: L.Pc): Option<nat> {
    match p
    case Reserving(id) => Some(id)
    case Announcing(id, lines) => if lines <= 2 then Some(id) else None
    case _ => None
  }

  ghost function DueNow(j: Program): Option<nat> {
    if j.w.mutex.Some? && j.w.mutex.value < |j.s.threads| then Due(j.s.threads[j.w.mutex.value]) else None
  }

  /** The line announces the start, and not before it. */
  predicate ToldBy(line: Line, start: Runs.Start) {
    line.id == start.coder + 1 && start.at <= line.at
  }

  /** The compile lines are the starts, in order, but for one still to be announced. */
  ghost predicate Told(starts: seq<Runs.Start>, lines: seq<Line>, due: Option<nat>, now: int) {
    var c := Compiles(lines);
    && |starts| == |c| + (if due.Some? then 1 else 0)
    && (due.Some? ==> starts[|starts| - 1].coder + 1 == due.value)
    && (forall k :: 0 <= k < |c| ==> ToldBy(c[k], starts[k]))
    && (forall k :: 0 <= k < |starts| ==> starts[k].at <= now)
  }

  /** A burnout line is the recorded burnout. */
  ghost predicate Confessed(burned: Option<Runs.Start>, lines: seq<Line>) {
    forall p :: 0 <= p < |lines| && lines[p].message.BurnedOut? ==>
      lines[p].id > 0 && burned == Some(Runs.Start(lines[p].id - 1, lines[p].at))
  }

  ghost predicate Truthful(a: Args, j: Program) {
    && Agree(a, j) && Orderly(j.s) && Sound(a, j.w) && Verdict(a, j.w)
    && Told(j.w.starts, j.s.output, DueNow(j), j.w.now) && Confessed(j.w.burned, j.s.output)
  }

  /** At most one line more, the compile line only when it is due. */
  predicate Fitting(more: seq<Line>, due: Option<nat>, left: Option<nat>, now: int) {
    |more| <= 1 &&
    if more != [] && more[0].message.IsCompiling? then due == Some(more[0].id) && left == None && more[0].at == now
    else left == due
  }

  lemma ToldMore(starts: seq<Runs.Start>, lines: seq<Line>, more: seq<Line>, due: Option<nat>, left: Option<nat>,
                 now: int)
    requires Told(starts, lines, due, now) && Fitting(more, due, left, now)
    ensures Told(starts, lines + more, left, now)
  {
    if more == [] { assert lines + more == lines; } else { assert more == [more[0]]; CompilesSnoc(lines, more[0]); }
  }

  lemma ToldStart(starts: seq<Runs.Start>, lines: seq<Line>, s: Runs.Start, now: int)
    requires Told(starts, lines, None, now) && now <= s.at
    ensures Told(starts + [s], lines, Some(s.coder + 1), s.at)
  {
  }

  lemma ConfessedMore(burned: Option<Runs.Start>, lines: seq<Line>, line: Line)
    requires Confessed(burned, lines) && !line.message.BurnedOut?
    ensures Confessed(burned, lines + [line])
  {
  }

  lemma ConfessedNow(lines: seq<Line>, s: Runs.Start)
    requires Confessed(None, lines)
    ensures Confessed(Some(s), lines + [Scheduler.Line(s.at, s.coder + 1, Scheduler.BurnedOut)])
  {
  }

  // ----------------------------------------------------------------------- silent steps

  lemma OwnerIsInside(a: Args, j: Program, i: nat)
    requires Agree(a, j) && Control(a, j.w) && i <= a.n
    ensures (j.s.threads[i].Looping? || InDispatch(j.s.threads[i])) <==> j.w.mutex == Some(i)
  {
    assert ThreadIsAt(a, j.w, j.s.threads[i], i);
    if i < a.n { assert ControlAt(a, j.w, i); }
  }

  /** Only the compile line changes whose announcement is due, and it is the one that was. */
  lemma SilentDue(a: Args, j: Program, e: L.Event)
    requires Agree(a, j) && Control(a, j.w) && Ended(j.s) && L.Enabled(j.s, e) && Quiet(a, j, e)
    ensures var r, more := j.(s := L.Apply(j.s, e)), AddedBy(j.s, e);
      && Fitting(more, DueNow(j), DueNow(r), j.s.now)
      && (more != [] ==> !more[0].message.BurnedOut?)
  {
    OwnerIsInside(a, j, e.t);
    assert ThreadAt(j.s, e.t);
    if j.w.mutex == Some(e.t) {
      OwnSilentDue(a, j, e);
    } else if j.w.mutex.Some? {
      OthersStay(j.s, e, j.w.mutex.value);
    }
  }

  lemma OwnSilentDue(a: Args, j: Program, e: L.Event)
    requires Shaped(a, j) && L.Enabled(j.s, e) && Quiet(a, j, e)
    requires j.s.threads[e.t].Looping? || InDispatch(j.s.threads[e.t])
    ensures var p, q, more := j.s.threads[e.t], L.Apply(j.s, e).threads[e.t], AddedBy(j.s, e);
      Fitting(more, Due(p), Due(q), j.s.now)
  {
  }

  lemma SilentTold(a: Args, j: Program, e: L.Event)
    requires Truthful(a, j) && L.Enabled(j.s, e) && Quiet(a, j, e)
    ensures var r := j.(s := L.Apply(j.s, e));
      Told(j.w.starts, r.s.output, DueNow(r), j.w.now) && Confessed(j.w.burned, r.s.output)
  {
    SilentDue(a, j, e);
    StepWrites(j.s, e);
    var r, more := j.(s := L.Apply(j.s, e)), AddedBy(j.s, e);
    ToldMore(j.w.starts, j.s.output, more, DueNow(j), DueNow(r), j.w.now);
    if more == [] { assert r.s.output == j.s.output; }
    else { assert more == [more[0]]; ConfessedMore(j.w.burned, j.s.output, more[0]); }
  }

  // ------------------------------------------------------------------------------ commits

  lemma CommitWrites(a: Args, j: Program, e: L.Event, f: Event)
    requires Shaped(a, j) && L.Enabled(j.s, e) && Carries(a, j, e, f)
    requires ThreadIsAt(a, j.w, j.s.threads[Mover(a, f)], Mover(a, f))
    ensures AddedBy(j.s, e) ==
              if f.WriteVerdict? then [Scheduler.Line(j.s.now, j.w.monitor.coder + 1, Scheduler.BurnedOut)] else []
    ensures f.WriteVerdict? ==> j.w.monitor.Writing?
  {
  }

  lemma CommitRecords(a: Args, w: World, f: Event)
    requires Sized(a, w) && Enabled(a, w, f)
    ensures var r := Apply(a, w, f);
      && r.starts == w.starts + (if f.Award? then [Runs.Start(f.g.coder, f.g.start)] else [])
      && r.burned == (if f.WriteVerdict? then Some(Runs.Start(w.monitor.coder, w.now)) else w.burned)
      && w.now <= r.now && (f.Award? ==> r.now == f.g.start)
  {
  }

  lemma CommitDue(a: Args, j: Program, e: L.Event, f: Event)
    requires Agree(a, j) && Control(a, j.w) && L.Enabled(j.s, e) && Carries(a, j, e, f) && Enabled(a, j.w, f)
    ensures var w := Apply(a, j.w, f);
      var due := DueNow(j.(s := L.Apply(j.s, e).(now := w.now), w := w));
      if f.Award? then DueNow(j) == None && due == Some(f.g.coder + 1) else due == DueNow(j)
  {
    var m := Mover(a, f);
    assert ThreadIsAt(a, j.w, j.s.threads[m], m);
    CommitPlace(a, j, e, f);
    OwnerIsInside(a, j, m);
    MutexAfter(a, j.w, f);
    if j.w.mutex.Some? && j.w.mutex.value != m { OthersStay(j.s, e, j.w.mutex.value); }
  }

  lemma MutexAfter(a: Args, w: World, f: Event)
    requires Sized(a, w) && Enabled(a, w, f)
    ensures Apply(a, w, f).mutex == if f.Enter? || f.Wake? then Some(f.i) else
                                    if f.GiveUp? || f.Return? || f.Sleep? then None else w.mutex
  {
  }

  /** What the lines and the records come to when `f` takes effect. */
  ghost predicate CommitTells(j: Program, e: L.Event, w: World)
    requires L.Enabled(j.s, e)
  {
    var r := j.(s := L.Apply(j.s, e).(now := w.now), w := w);
    Told(w.starts, r.s.output, DueNow(r), w.now) && Confessed(w.burned, r.s.output)
  }

  lemma AwardTells(a: Args, j: Program, e: L.Event, f: Event)
    requires Truthful(a, j) && L.Enabled(j.s, e) && Carries(a, j, e, f) && Enabled(a, j.w, f) && f.Award?
    ensures CommitTells(j, e, Apply(a, j.w, f))
  {
    CommitDue(a, j, e, f);
    CommitRecords(a, j.w, f);
    StepWrites(j.s, e);
    assert L.Apply(j.s, e).output == j.s.output;
    ToldStart(j.w.starts, j.s.output, Runs.Start(f.g.coder, f.g.start), j.w.now);
  }

  lemma VerdictTells(a: Args, j: Program, e: L.Event, f: Event)
    requires Truthful(a, j) && L.Enabled(j.s, e) && Carries(a, j, e, f) && Enabled(a, j.w, f) && f.WriteVerdict?
    ensures CommitTells(j, e, Apply(a, j.w, f))
  {
    assert ThreadIsAt(a, j.w, j.s.threads[a.n], a.n);
    CommitDue(a, j, e, f);
    CommitWrites(a, j, e, f);
    CommitRecords(a, j.w, f);
    StepWrites(j.s, e);
    ToldMore(j.w.starts, j.s.output, AddedBy(j.s, e), DueNow(j), DueNow(j), j.w.now);
    ConfessedNow(j.s.output, Runs.Start(j.w.monitor.coder, j.w.now));
  }

  lemma OtherTells(a: Args, j: Program, e: L.Event, f: Event)
    requires Truthful(a, j) && L.Enabled(j.s, e) && Carries(a, j, e, f) && Enabled(a, j.w, f)
    requires !f.Award? && !f.WriteVerdict?
    ensures CommitTells(j, e, Apply(a, j.w, f))
  {
    assert ThreadIsAt(a, j.w, j.s.threads[Mover(a, f)], Mover(a, f));
    CommitDue(a, j, e, f);
    CommitWrites(a, j, e, f);
    CommitRecords(a, j.w, f);
    StepWrites(j.s, e);
    assert L.Apply(j.s, e).output == j.s.output;
  }

  lemma StepIsSound(a: Args, w: World, f: Event)
    requires Sized(a, w) && Sound(a, w) && Verdict(a, w) && Enabled(a, w, f)
    ensures Sound(a, Apply(a, w, f)) && Verdict(a, Apply(a, w, f))
  {
    ControlKept(a, w, f);
    OwnedKept(a, w, f);
    VerdictKept(a, w, f);
  }

  // -------------------------------------------------------------------------------- runs

  lemma SilentTruthful(a: Args, j: Program, e: L.Event)
    requires Truthful(a, j) && L.Enabled(j.s, e) && Quiet(a, j, e)
    ensures Truthful(a, j.(s := L.Apply(j.s, e)))
  {
    SilentAgree(a, j, e);
    SilentTold(a, j, e);
    OrderlyKept(j.s, e);
  }

  lemma CommitTruthful(a: Args, j: Program, e: L.Event, f: Event)
    requires Truthful(a, j) && L.Enabled(j.s, e) && Carries(a, j, e, f) && Enabled(a, j.w, f)
    ensures var w := Apply(a, j.w, f); Truthful(a, j.(s := L.Apply(j.s, e).(now := w.now), w := w))
  {
    var w := Apply(a, j.w, f);
    CommitAgree(a, j, e, f);
    StepIsSound(a, j.w, f);
    OrderlyKept(j.s, e);
    CommitTicks(a, j, e, f);
    OrderlyKept(L.Apply(j.s, e), L.Tick(w.now));
    if f.Award? { AwardTells(a, j, e, f); }
    else if f.WriteVerdict? { VerdictTells(a, j, e, f); }
    else { OtherTells(a, j, e, f); }
  }

  /** Setting the clock after a commit is a step of the lock-level program. */
  lemma CommitTicks(a: Args, j: Program, e: L.Event, f: Event)
    requires Agree(a, j) && L.Enabled(j.s, e) && Carries(a, j, e, f) && Enabled(a, j.w, f)
    ensures var w, s := Apply(a, j.w, f), L.Apply(j.s, e);
      L.Enabled(s, L.Tick(w.now)) && L.Apply(s, L.Tick(w.now)) == s.(now := w.now)
  {
    assert ThreadIsAt(a, j.w, j.s.threads[Mover(a, f)], Mover(a, f));
    CommitPlace(a, j, e, f);
    CommitRecords(a, j.w, f);
  }

  lemma PassTruthful(a: Args, j: Program, f: Event)
    requires Truthful(a, j) && Lockless(f) && Enabled(a, j.w, f)
    ensures var w := Apply(a, j.w, f); Truthful(a, j.(s := j.s.(now := w.now), w := w))
  {
    var w := Apply(a, j.w, f);
    PassAgree(a, j, f);
    StepIsSound(a, j.w, f);
    CommitRecords(a, j.w, f);
    MutexAfter(a, j.w, f);
    OrderlyKept(j.s, L.Tick(w.now));
  }

  /** The data after a move: unchanged, or one step of the state machine further. */
  ghost predicate OneStepOn(a: Args, w: World, m: Move, r: World)
    requires Sized(a, w)
  {
    if m.Silent? then r == w else Enabled(a, w, m.f) && r == Apply(a, w, m.f)
  }

  lemma MoveIsAStep(a: Args, j: Program, m: Move, r: Program)
    requires Truthful(a, j) && Makes(a, j, m, r)
    ensures OneStepOn(a, j.w, m, r.w) && Truthful(a, r)
  {
    match m
    case Silent(e) => SilentTruthful(a, j, e);
    case Commit(e, f) => CommitIsAStep(a, j, e, f); CommitTruthful(a, j, e, f);
    case Pass(f) => MutexIrrelevant(a, j.w, f); PassTruthful(a, j, f);
  }

  lemma LocksMove(a: Args, j: Program, m: Move, r: Program)
    requires Truthful(a, j) && Makes(a, j, m, r) && OneStepOn(a, j.w, m, r.w) && L.Reachable(j.s)
    ensures L.Reachable(r.s)
  {
    match m
    case Silent(e) => L.StepIsReachable(j.s, e);
    case Commit(e, f) =>
      CommitTicks(a, j, e, f);
      L.StepIsReachable(j.s, e);
      L.StepIsReachable(L.Apply(j.s, e), L.Tick(r.w.now));
    case Pass(f) =>
      CommitRecords(a, j.w, f);
      L.StepIsReachable(j.s, L.Tick(r.w.now));
  }

  lemma StartIsTruthful(a: Args, j: Program, t: int)
    requires AtStart(a, j, t)
    ensures Truthful(a, j)
  {
    StartsSound(a, t);
  }

  lemma DataMove(a: Args, w: World, m: Move, r: World)
    requires Reachable(a, w) && Sized(a, w) && OneStepOn(a, w, m, r)
    ensures Reachable(a, r)
  {
    if !m.Silent? { StepIsReachable(a, w, m.f); }
  }

  /** Every run of the program, lock by lock, is a run of the lock-level model and a run of the
      state machine at once, and its log is truthful all along. */
  lemma {:induction false} RunsProject(a: Args, js: seq<Program>, ms: seq<Move>)
    requires Run(a, js, ms)
    ensures var j := js[|ms|]; Truthful(a, j) && Reachable(a, j.w) && L.Reachable(j.s)
    decreases |ms|
  {
    if ms == [] {
      var t: int :| AtStart(a, js[0], t);
      StartIsTruthful(a, js[0], t);
      StartIsReachable(a, t);
      L.FreshIsReachable(js[0].s);
    } else {
      var k := |ms| - 1;
      RunsProject(a, js[..k + 1], ms[..k]);
      MoveIsAStep(a, js[k], ms[k], js[k + 1]);
      DataMove(a, js[k].w, ms[k], js[k + 1].w);
      LocksMove(a, js[k], ms[k], js[k + 1]);
    }
  }

  /** In every run of the program, a burnout line names a coder that is past its deadline at the
      time of the line, and is the last line; the compile lines are the reservations in order,
      none announced before its start and at most one still to be announced. */
  lemma LogTellsTheTruth(a: Args, js: seq<Program>, ms: seq<Move>)
    requires Run(a, js, ms)
    ensures var j := js[|ms|];
      && Sized(a, j.w)
      && (forall p :: 0 <= p < |j.s.output| && j.s.output[p].message.BurnedOut? ==>
            p == |j.s.output| - 1 && j.s.output[p].id > 0 && Late(a, j.w.st, j.s.output[p].id - 1, j.s.output[p].at))
      && (var c := Compiles(j.s.output);
          && |c| <= |j.w.starts| <= |c| + 1
          && forall k :: 0 <= k < |c| ==> ToldBy(c[k], j.w.starts[k]))
  {
    RunsProject(a, js, ms);
    var j := js[|ms|];
    forall p | 0 <= p < |j.s.output| && j.s.output[p].message.BurnedOut?
      ensures p == |j.s.output| - 1 && j.s.output[p].id > 0
      ensures Late(a, j.w.st, j.s.output[p].id - 1, j.s.output[p].at) {
      assert j.w.burned == Some(Runs.Start(j.s.output[p].id - 1, j.s.output[p].at));
    }
  }

  /** With a required number of compiles, the log never announces more than that for each coder
      together, and exactly as many once completion has been reported. */
  lemma LogCountsCompiles(a: Args, js: seq<Program>, ms: seq<Move>)
    requires Run(a, js, ms) && a.required > 0
    ensures var j := js[|ms|];
      && |Compiles(j.s.output)| <= a.n * a.required
      && (j.w.reports == 1 ==> |Compiles(j.s.output)| == a.n * a.required)
  {
    RunsProject(a, js, ms);
    var j := js[|ms|];
    RunsAreCounted(a, j.w);
    CountsBounded(a, j.w);
    if j.w.reports == 1 {
      Aftermath.NobodyIsInside(a, j.w);
      CompletionInEveryRun(a, j.w);
    }
  }

  lemma CountsBounded(a: Args, w: World)
    requires Sized(a, w) && Counted(a, w) && a.required > 0
    ensures |w.starts| <= a.n * a.required
  {
    forall i: nat | i < a.n ensures w.started[i] <= a.required { assert CountAt(a, w, i); }
    TotalBounded(w.started, a.required);
  }
}
