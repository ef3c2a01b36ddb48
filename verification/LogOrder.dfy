// What the log looks like under every interleaving of the locks.
module LogOrder {
  import opened Options
  import opened Scheduler
  import opened LockProtocol

  // ---------------------------------------------------------------------- what is written

  /** The line written by the next step of a thread at this place, if any. */
  function Added(now: int, pc: Pc): seq<Line> {
    match pc
    case Alone(id, m) => [Line(now, id, m)]
    case Announcing(id, lines) =>
      if lines < 2 then [Line(now, id, TakenDongle)] else if lines == 2 then [Line(now, id, IsCompiling)] else []
    case Sentencing(id) => [Line(now, id, BurnedOut)]
    case _ => []
  }

  function AddedBy(w: Sys, e: Event): seq<Line> {
    if e.Advance? && e.t < |w.threads| then Added(w.now, w.threads[e.t]) else []
  }

  lemma ProceedWrites(w: Sys, s: nat)
    requires Enabled(w, Advance(s))
    ensures Proceed(w, s).output == w.output + Added(w.now, w.threads[s]) && Proceed(w, s).now == w.now
  {
  }

  lemma StepWrites(w: Sys, e: Event)
    requires Enabled(w, e)
    ensures Apply(w, e).output == w.output + AddedBy(w, e) && w.now <= Apply(w, e).now
  {
    if e.Advance? { ProceedWrites(w, e.t); }
  }

  /** The stop flag is set by two steps, which write nothing. */
  lemma StepStops(w: Sys, e: Event)
    requires Enabled(w, e)
    ensures var r := Apply(w, e);
      && (w.stop ==> r.stop && r.stoppedAt == w.stoppedAt)
      && (r.stop && !w.stop ==> r.stoppedAt == |w.output| && AddedBy(w, e) == [])
  {
  }

  // ------------------------------------------------------------------ after the stop

  /** Places that are reached only while the run is on, and left before the state_mutex is. */
  predicate PastStopTest(pc: Pc) {
    pc.Passed? || pc.Both? || pc.Dispatching? || pc.Reserving? || pc.Announcing?
  }

  /** Places from which a line follows without another look at the stop flag or state_mutex. */
  predicate Writer(pc: Pc) {
    pc.Alone? || pc.Sentencing?
  }

  predicate Routine(m: Message) {
    m.IsDebugging? || m.IsRefactoring?
  }

  /** What may be written after the stop: the burnout, or a line whose writer looked before. */
  predicate LastWord(m: Message) {
    Routine(m) || m.BurnedOut?
  }

  ghost predicate ThreadAt(w: Sys, t: nat)
    requires t < |w.threads|
  {
    var pc := w.threads[t];
    && (PastStopTest(pc) ==> !w.stop)
    && (pc.Sentencing? ==> w.stop)
    && (pc.Testing? || pc.Passed? || pc.Both? || pc.Alone? ==> Routine(pc.message))
    && (w.stop && |w.output| > w.stoppedAt ==> !Writer(pc))
  }

  ghost predicate Ended(w: Sys) {
    && (forall t: nat :: t < |w.threads| ==> ThreadAt(w, t))
    && (w.stop ==> w.stoppedAt <= |w.output| <= w.stoppedAt + 1)
    && (w.stop && |w.output| > w.stoppedAt ==> LastWord(w.output[w.stoppedAt].message))
    && (forall p :: 0 <= p < |w.output| && w.output[p].message.BurnedOut? ==>
          w.stop && p == w.stoppedAt == |w.output| - 1)
  }

  lemma ThreadKept(w: Sys, e: Event, t: nat)
    requires Owned(w) && Ended(w) && Enabled(w, e) && t < |w.threads|
    ensures ThreadAt(Apply(w, e), t)
  {
    assert ThreadAt(w, t) && LocksAt(w, t);
    if e.Advance? {
      assert ThreadAt(w, e.t) && LocksAt(w, e.t);
      if e.t == t { AdvanceSelf(w, t); } else { AdvanceOther(w, e.t, t); }
    } else {
      QuietThread(w, e, t);
    }
  }

  lemma BeginThread(w: Sys, e: Event, t: nat)
    requires Enabled(w, e) && e.Begin? && t < |w.threads| && ThreadAt(w, t)
    ensures ThreadAt(Apply(w, e), t)
  {
  }

  lemma QuietThread(w: Sys, e: Event, t: nat)
    requires Enabled(w, e) && !e.Advance? && t < |w.threads| && ThreadAt(w, t)
    ensures ThreadAt(Apply(w, e), t)
  {
    if e.Begin? { BeginThread(w, e, t); }
  }

  lemma AdvanceSelf(w: Sys, t: nat)
    requires t < |w.threads| && Enabled(w, Advance(t)) && ThreadAt(w, t) && StateAt(w, t) && LogAt(w, t)
    requires w.stop ==> w.stoppedAt <= |w.output|
    ensures ThreadAt(Proceed(w, t), t)
  {
    ProceedWrites(w, t);
  }

  /** Another thread that stops the run or writes holds the mutex that keeps `t` out. */
  lemma AdvanceOther(w: Sys, s: nat, t: nat)
    requires s < |w.threads| && t < |w.threads| && s != t && Enabled(w, Advance(s))
    requires ThreadAt(w, t) && ThreadAt(w, s) && StateAt(w, s) && StateAt(w, t) && LogAt(w, s) && LogAt(w, t)
    requires w.stop ==> w.stoppedAt <= |w.output|
    ensures ThreadAt(Proceed(w, s), t)
  {
    ProceedWrites(w, s);
    StepStops(w, Advance(s));
    assert Proceed(w, s).threads[t] == w.threads[t];
  }

  /** No step but a write changes the log, and stopping records its length. */
  lemma EndedOutput(w: Sys, e: Event)
    requires Ended(w) && Enabled(w, e)
    ensures var r := Apply(w, e);
      && (r.stop ==> r.stoppedAt <= |r.output| <= r.stoppedAt + 1)
      && (r.stop && |r.output| > r.stoppedAt ==> LastWord(r.output[r.stoppedAt].message))
      && (forall p :: 0 <= p < |r.output| && r.output[p].message.BurnedOut? ==>
            r.stop && p == r.stoppedAt == |r.output| - 1)
  {
    StepWrites(w, e);
    StepStops(w, e);
    if e.Advance? { assert ThreadAt(w, e.t); }
  }

  lemma EndedKept(w: Sys, e: Event)
    requires Owned(w) && Ended(w) && Enabled(w, e)
    ensures Ended(Apply(w, e))
  {
    EndedOutput(w, e);
    forall t: nat | t < |w.threads| ensures ThreadAt(Apply(w, e), t) { ThreadKept(w, e, t); }
  }

  // ---------------------------------------------------------------- groups of three

  datatype Phase = Whole | Part(id: nat, lines: nat) | Broken

  /** Reading the log from the start: between groups, inside a group, or off the grammar. */
  function Read(lines: seq<Line>): Phase {
    if lines == [] then Whole else ReadOn(Read(lines[..|lines| - 1]), lines[|lines| - 1])
  }

  function ReadOn(phase: Phase, line: Line): Phase {
    match phase
    case Whole => if line.message.TakenDongle? then Part(line.id, 1)
                  else if line.message.IsCompiling? then Broken else Whole
    case Part(id, k) =>
      if line.id == id && k == 1 && line.message.TakenDongle? then Part(id, 2)
      else if line.id == id && k == 2 && line.message.IsCompiling? then Whole else Broken
    case Broken => Broken
  }

  function PlacePhase(pc: Pc): Phase {
    if pc.Announcing? && 1 <= pc.lines <= 2 then Part(pc.id, pc.lines) else Whole
  }

  /** What the place of the holder of log_mutex says about the log. */
  ghost function Progress(w: Sys): Phase {
    if w.log.Some? && w.log.value < |w.threads| then PlacePhase(w.threads[w.log.value]) else Whole
  }

  ghost predicate Grouped(w: Sys) {
    Read(w.output) == Progress(w)
  }

  lemma ReadSnoc(lines: seq<Line>, line: Line)
    ensures Read(lines + [line]) == ReadOn(Read(lines), line)
  {
    assert (lines + [line])[..|lines|] == lines;
  }

  /** A step of a thread that does not hold log_mutex, and does not take it, changes no phase. */
  lemma ProgressElsewhere(w: Sys, e: Event)
    requires Owned(w) && Enabled(w, e) && !(e.Advance? && Logging(w.threads[e.t]))
    ensures Progress(Apply(w, e)) == Progress(w)
  {
    if w.log.Some? { assert LocksAt(w, w.log.value); }
    if e.Advance? { AdvanceElsewhere(w, e.t); }
  }

  lemma AdvanceElsewhere(w: Sys, s: nat)
    requires Enabled(w, Advance(s)) && !Logging(w.threads[s])
    ensures var r := Proceed(w, s);
      r.log == w.log && forall t: nat :: t < |w.threads| && t != s ==> r.threads[t] == w.threads[t]
  {
  }

  /** The line a thread writes continues the phase of its place to that of its next place. */
  lemma WriteContinues(w: Sys, s: nat)
    requires Enabled(w, Advance(s)) && Added(w.now, w.threads[s]) != [] && LogAt(w, s) && ThreadAt(w, s)
    ensures var r, line := Proceed(w, s), Added(w.now, w.threads[s])[0];
      && w.log == r.log == Some(s) && s < |r.threads|
      && PlacePhase(r.threads[s]) == ReadOn(PlacePhase(w.threads[s]), line)
  {
  }

  lemma WriteGrouped(w: Sys, s: nat)
    requires Enabled(w, Advance(s)) && Added(w.now, w.threads[s]) != [] && LogAt(w, s) && ThreadAt(w, s)
    requires Grouped(w)
    ensures Grouped(Proceed(w, s))
  {
    WriteContinues(w, s);
    ProceedWrites(w, s);
    ReadSnoc(w.output, Added(w.now, w.threads[s])[0]);
  }

  lemma QuietLogging(w: Sys, s: nat)
    requires s < |w.threads| && LocksAt(w, s) && Enabled(w, Advance(s)) && Logging(w.threads[s])
    requires Added(w.now, w.threads[s]) == []
    requires w.log.Some? && w.log.value != s ==> w.log.value < |w.threads|
    ensures Progress(Proceed(w, s)) == Progress(w)
  {
  }

  lemma QuietProgress(w: Sys, e: Event)
    requires Owned(w) && Enabled(w, e) && AddedBy(w, e) == []
    ensures Progress(Apply(w, e)) == Progress(w)
  {
    if e.Advance? && Logging(w.threads[e.t]) {
      assert LocksAt(w, e.t);
      QuietLogging(w, e.t);
    } else {
      ProgressElsewhere(w, e);
    }
  }

  lemma QuietGrouped(w: Sys, e: Event)
    requires Owned(w) && Grouped(w) && Enabled(w, e) && AddedBy(w, e) == []
    ensures Grouped(Apply(w, e))
  {
    StepWrites(w, e);
    assert Apply(w, e).output == w.output;
    QuietProgress(w, e);
  }

  lemma GroupedKept(w: Sys, e: Event)
    requires Owned(w) && Ended(w) && Grouped(w) && Enabled(w, e)
    ensures Grouped(Apply(w, e))
  {
    if AddedBy(w, e) == [] {
      QuietGrouped(w, e);
    } else {
      assert LocksAt(w, e.t) && ThreadAt(w, e.t);
      WriteGrouped(w, e.t);
    }
  }

  // ------------------------------------------------------------------------ timestamps

  ghost predicate InTime(w: Sys) {
    && (forall p, q :: 0 <= p < q < |w.output| ==> w.output[p].at <= w.output[q].at)
    && (forall p :: 0 <= p < |w.output| ==> w.output[p].at <= w.now)
  }

  lemma InTimeKept(w: Sys, e: Event)
    requires InTime(w) && Enabled(w, e)
    ensures InTime(Apply(w, e))
  {
    StepWrites(w, e);
  }

  // ------------------------------------------------------------------------------ runs

  ghost predicate Orderly(w: Sys) {
    Owned(w) && Ended(w) && Grouped(w) && InTime(w)
  }

  lemma OrderlyKept(w: Sys, e: Event)
    requires Orderly(w) && Enabled(w, e)
    ensures Orderly(Apply(w, e))
  {
    OwnedKept(w, e);
    EndedKept(w, e);
    GroupedKept(w, e);
    InTimeKept(w, e);
  }

  lemma {:induction false} StaysOrderly(w: Sys, es: seq<Event>)
    requires Orderly(w) && Legal(w, es)
    ensures Orderly(Reach(w, es))
    decreases |es|
  {
    if es != [] {
      var k := |es| - 1;
      StaysOrderly(w, es[..k]);
      OrderlyKept(Reach(w, es[..k]), es[k]);
    }
  }

  lemma RunsAreOrderly(w: Sys)
    requires Reachable(w)
    ensures Orderly(w)
  {
    var s: Sys, es: seq<Event> :| Fresh(s) && Legal(s, es) && Reach(s, es) == w;
    assert Orderly(s);
    StaysOrderly(s, es);
  }

  predicate Says(line: Line, id: nat, message: Message) {
    line.id == id && line.message == message
  }

  /** Lines `p` to `p + 2` announce one reservation. */
  predicate GroupAt(lines: seq<Line>, p: nat) {
    && p + 2 < |lines|
    && Says(lines[p], lines[p].id, TakenDongle) && Says(lines[p + 1], lines[p].id, TakenDongle)
    && Says(lines[p + 2], lines[p].id, IsCompiling)
  }

  /** Line `p` belongs to a whole group, if it announces a reservation at all, or to the last
      `open` lines, which begin one. */
  predicate InGroup(lines: seq<Line>, p: nat, open: nat)
    requires p < |lines|
  {
    match lines[p].message
    case TakenDongle => GroupAt(lines, p) || (p >= 1 && GroupAt(lines, p - 1)) || p + open >= |lines|
    case IsCompiling => p >= 2 && GroupAt(lines, p - 2)
    case _ => true
  }

  function OpenLines(phase: Phase): nat {
    if phase.Part? then phase.lines else 0
  }

  ghost predicate Tail(lines: seq<Line>, phase: Phase) {
    phase.Part? ==>
      && 1 <= phase.lines <= 2 && phase.lines <= |lines|
      && forall p :: |lines| - phase.lines <= p < |lines| ==> Says(lines[p], phase.id, TakenDongle)
  }

  lemma {:induction false} GroupsAreContiguous(lines: seq<Line>)
    requires Read(lines) != Broken
    ensures forall p: nat :: p < |lines| ==> InGroup(lines, p, OpenLines(Read(lines)))
    ensures Tail(lines, Read(lines))
    decreases |lines|
  {
    if lines != [] {
      var k := |lines| - 1;
      GroupsAreContiguous(lines[..k]);
      forall p: nat | p < |lines| ensures InGroup(lines, p, OpenLines(Read(lines))) { OneMoreLine(lines, p); }
    }
  }

  lemma OneMoreLine(lines: seq<Line>, p: nat)
    requires lines != [] && Read(lines) != Broken && p < |lines|
    requires var t := lines[..|lines| - 1];
      (p < |t| ==> InGroup(t, p, OpenLines(Read(t)))) && Tail(t, Read(t))
    ensures InGroup(lines, p, OpenLines(Read(lines)))
  {
    var k := |lines| - 1;
    var t := lines[..k];
    if p < k && p + OpenLines(Read(t)) < k {
      assert GroupAt(t, p) ==> GroupAt(lines, p);
      assert p >= 1 && GroupAt(t, p - 1) ==> GroupAt(lines, p - 1);
      assert p >= 2 && GroupAt(t, p - 2) ==> GroupAt(lines, p - 2);
    } else if Read(t).Part? && Read(t).lines == 2 {
      assert GroupAt(lines, k - 2);
    }
  }

  /** Under every interleaving: after the stop at most one more line is written, and it does not
      announce a reservation; a burnout line is the one written by the stop, hence the only one
      and the last; the three lines of a reservation are contiguous, whole unless they are just
      being written, and whole once the run is stopped; and times never go back. */
  lemma LogInEveryRun(w: Sys)
    requires Reachable(w)
    ensures w.stop ==> |w.output| <= w.stoppedAt + 1
    ensures w.stop && |w.output| == w.stoppedAt + 1 ==> LastWord(w.output[w.stoppedAt].message)
    ensures forall p :: 0 <= p < |w.output| && w.output[p].message.BurnedOut? ==>
              w.stop && p == w.stoppedAt == |w.output| - 1
    ensures forall p: nat :: p < |w.output| ==> InGroup(w.output, p, OpenLines(Progress(w)))
    ensures w.log == None || w.stop ==> OpenLines(Progress(w)) == 0
    ensures forall p, q :: 0 <= p < q < |w.output| ==> w.output[p].at <= w.output[q].at
  {
    RunsAreOrderly(w);
    GroupsAreContiguous(w.output);
    if w.log.Some? { assert ThreadAt(w, w.log.value); }
  }
}
