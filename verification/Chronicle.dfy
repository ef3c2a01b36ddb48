// The log read coder by coder: each goes through its cycle, line by line.
module Chronicle {
  import opened Table
  import opened Options
  import opened Runs
  import opened Ownership
  import opened Burnout
  import opened LogOrder
  import opened Atomicity
  import L = LockProtocol
  import opened Truthfulness
  import opened Scheduler

  /** The lines of one round of a coder, and of the next, and so on. */
  function Cycle(k: nat): Message {
    match k % 5
    case 0 => TakenDongle
    case 1 => TakenDongle
    case 2 => IsCompiling
    case 3 => IsDebugging
    case _ => IsRefactoring
  }

  /** The lines that name the coder, but for a burnout. */
  function LinesOf(lines: seq<Scheduler.Line>, id: nat): seq<Scheduler.Line> {
    if lines == [] then [] else
      var k := |lines| - 1;
      LinesOf(lines[..k], id) + if Names(lines[k], id) then [lines[k]] else []
  }

  predicate Names(line: Scheduler.Line, id: nat) {
    line.id == id && !line.message.BurnedOut?
  }

  lemma LinesOfSnoc(lines: seq<Scheduler.Line>, line: Scheduler.Line, id: nat)
    ensures LinesOf(lines + [line], id) == LinesOf(lines, id) + if Names(line, id) then [line] else []
  {
    assert (lines + [line])[..|lines|] == lines;
  }

  ghost predicate InCycle(lines: seq<Scheduler.Line>) {
    forall k: nat :: k < |lines| ==> lines[k].message == Cycle(k)
  }

  // --------------------------------------------------------------- where in its round a coder is

  /** The announcement of a reservation: whose, and how many lines are written. */
  datatype Group = Group(id: nat, lines: nat)

  function Underway(p: L.Pc): Option<Group> {
    match p
    case Reserving(id) => Some(Group(id, 0))
    case Announcing(id, lines) => Some(Group(id, lines))
    case _ => None
  }

  ghost function UnderwayNow(j: Program): Option<Group> {
    if j.w.mutex.Some? && j.w.mutex.value < |j.s.threads| then Underway(j.s.threads[j.w.mutex.value]) else None
  }

  /** Inside log_msg, with the line not yet written. */
  predicate InLogMsg(p: L.Pc) {
    p.Testing? || p.Passed? || p.Both? || p.Alone?
  }

  predicate StillToLog(p: L.Pc, owed: Option<Message>) {
    owed.Some? || InLogMsg(p)
  }

  /** How many lines of its present round the coder has logged, the announcement apart. */
  function Stage(pc: Pc, waiting: bool, p: L.Pc, owed: Option<Message>): nat {
    match pc
    case Idle => 0
    case Ready => 0
    case Debugging(_) => if StillToLog(p, owed) then 3 else 4
    case Refactoring(_) => if StillToLog(p, owed) then 4 else 0
    case Looping => if waiting then 0 else 3
    case Dispatching(_) => if waiting then 0 else 3
    case Asleep(_, _, _, _, _) => if waiting then 0 else 3
    case _ => 3
  }

  ghost function StageNow(a: Args, j: Program, i: nat): nat
    requires Shaped(a, j) && i < a.n
  {
    var x := UnderwayNow(j);
    if x.Some? && x.value.id == i + 1 then x.value.lines
    else Stage(j.w.pcs[i], j.w.st.coders[i].waiting, j.s.threads[i], j.owed[i])
  }

  /** The line a coder is about to log, or is logging, is the one of its place. */
  predicate Duly(pc: Pc, m: Message) {
    (pc.Debugging? && m.IsDebugging?) || (pc.Refactoring? && m.IsRefactoring?)
  }

  predicate DueAt(pc: Pc, p: L.Pc, owed: Option<Message>, i: nat) {
    && (owed.Some? ==> p.Out? && Duly(pc, owed.value))
    && (InLogMsg(p) ==> p.id == i + 1 && owed == None && Duly(pc, p.message))
  }

  /** The reservation being announced is that of a coder in the queue that waits no more. */
  ghost predicate AnnouncesServed(a: Args, j: Program) {
    Shaped(a, j) &&
    var x := UnderwayNow(j);
    x.Some? ==> 1 <= x.value.id <= a.n && x.value.lines <= 3
                && InQueue(j.w.pcs[x.value.id - 1]) && !j.w.st.coders[x.value.id - 1].waiting
  }

  /** The lines so far are in the cycle, as far as the coder's stage while it lives, and a line
      about to be written is the next. */
  ghost predicate Story(c: seq<Scheduler.Line>, lives: bool, stage: nat, p: L.Pc) {
    InCycle(c) && (lives ==> |c| % 5 == stage % 5) && (p.Alone? ==> p.message == Cycle(|c|))
  }

  ghost predicate StoryAt(a: Args, j: Program, i: nat)
    requires Shaped(a, j) && i < a.n
  {
    Story(LinesOf(j.s.output, i + 1), !j.s.stop && !j.w.pcs[i].Exited?, StageNow(a, j, i), j.s.threads[i])
  }

  ghost predicate Chronicled(a: Args, j: Program) {
    && AnnouncesServed(a, j) && !InLogMsg(j.s.threads[a.n])
    && (forall i: nat :: i < a.n ==> DueAt(j.w.pcs[i], j.s.threads[i], j.owed[i], i))
    && (forall i: nat :: i < a.n ==> StoryAt(a, j, i))
    && (forall p :: 0 <= p < |j.s.output| ==> 1 <= j.s.output[p].id <= a.n)
  }

  // ------------------------------------------------------------------------- one more line

  function Mine(more: seq<Scheduler.Line>, i: nat): nat {
    if more != [] && Names(more[0], i + 1) then 1 else 0
  }

  /** What a move must do for the story of coder `i` to go on. */
  ghost predicate GoesOn(a: Args, j: Program, r: Program, more: seq<Scheduler.Line>, i: nat)
    requires Shaped(a, j) && Shaped(a, r) && i < a.n
  {
    var c := LinesOf(j.s.output, i + 1);
    && |more| <= 1 && r.s.output == j.s.output + more
    && (Mine(more, i) == 1 ==> more[0].message == Cycle(|c|))
    && (!r.s.stop && !r.w.pcs[i].Exited? ==>
          && !j.s.stop && !j.w.pcs[i].Exited?
          && (StageNow(a, j, i) + Mine(more, i)) % 5 == StageNow(a, r, i) % 5)
    && (r.s.threads[i].Alone? ==> r.s.threads[i].message == Cycle(|c| + Mine(more, i)))
  }

  lemma StoryOfMore(c: seq<Scheduler.Line>, mine: seq<Scheduler.Line>, lives: bool, stage: nat, p: L.Pc,
                    live: bool, next: nat, q: L.Pc)
    requires Story(c, lives, stage, p) && |mine| <= 1 && (mine != [] ==> mine[0].message == Cycle(|c|))
    requires live ==> lives && (stage + |mine|) % 5 == next % 5
    requires q.Alone? ==> q.message == Cycle(|c| + |mine|)
    ensures Story(c + mine, live, next, q)
  {
    if live { SameRest(|c|, stage, |mine|, next); }
  }

  lemma SameRest(x: nat, y: nat, m: nat, z: nat)
    requires x % 5 == y % 5 && (y + m) % 5 == z % 5
    ensures (x + m) % 5 == z % 5
  {
  }

  lemma LineAdded(lines: seq<Scheduler.Line>, more: seq<Scheduler.Line>, i: nat)
    requires |more| <= 1
    ensures LinesOf(lines + more, i + 1) == LinesOf(lines, i + 1) + if Mine(more, i) == 1 then more else []
  {
    if more == [] {
      assert lines + more == lines;
    } else {
      assert more == [more[0]];
      LinesOfSnoc(lines, more[0], i + 1);
    }
  }

  lemma StoryGoesOn(a: Args, j: Program, r: Program, more: seq<Scheduler.Line>, i: nat)
    requires Shaped(a, j) && Shaped(a, r) && i < a.n && StoryAt(a, j, i) && GoesOn(a, j, r, more, i)
    ensures StoryAt(a, r, i)
  {
    LineAdded(j.s.output, more, i);
    StoryOfMore(LinesOf(j.s.output, i + 1), if Mine(more, i) == 1 then more else [],
                !j.s.stop && !j.w.pcs[i].Exited?, StageNow(a, j, i), j.s.threads[i],
                !r.s.stop && !r.w.pcs[i].Exited?, StageNow(a, r, i), r.s.threads[i]);
  }

  // ------------------------------------------------------------------------------- commits

  lemma UnderwayAtCommit(a: Args, j: Program, e: L.Event, f: Event)
    requires Agree(a, j) && Control(a, j.w) && L.Enabled(j.s, e) && Carries(a, j, e, f) && Enabled(a, j.w, f)
    ensures var w := Apply(a, j.w, f);
      var r := j.(s := L.Apply(j.s, e).(now := w.now), w := w);
      if f.Award? then UnderwayNow(j) == None && UnderwayNow(r) == Some(Group(f.g.coder + 1, 0))
      else UnderwayNow(r) == UnderwayNow(j)
    ensures UnderwayNow(j).Some? ==> f.WriteVerdict?
  {
    var m := Mover(a, f);
    assert ThreadIsAt(a, j.w, j.s.threads[m], m);
    CommitPlace(a, j, e, f);
    OwnerIsInside(a, j, m);
    MutexAfter(a, j.w, f);
    if j.w.mutex.Some? && j.w.mutex.value != m { OthersStay(j.s, e, j.w.mutex.value); }
    if !Lockless(f) && !Inside(f) && !f.WriteVerdict? { TakesMutex(a, j.w, f); }
  }

  /** The others stay where they are in their round, but for the one that is served. */
  lemma OtherStage(a: Args, w: World, f: Event, i: nat, p: L.Pc, owed: Option<Message>)
    requires Sized(a, w) && Enabled(a, w, f) && i < a.n && !OfCoder(f, i) && !(f.Award? && f.g.coder == i)
    ensures var r := Apply(a, w, f);
      && Stage(r.pcs[i], r.st.coders[i].waiting, p, owed) == Stage(w.pcs[i], w.st.coders[i].waiting, p, owed)
      && (r.pcs[i].Exited? <==> w.pcs[i].Exited?)
      && r.st.coders[i].waiting == w.st.coders[i].waiting && (InQueue(r.pcs[i]) <==> InQueue(w.pcs[i]))
      && (forall m :: Duly(r.pcs[i], m) <==> Duly(w.pcs[i], m))
  {
    if w.pcs[i].Asleep? { SleeperSleeps(a, w, f, i); } else { PlaceStays(a, w, f, i); }
    WaitingStays(a, w, f, i);
  }

  lemma SleeperSleeps(a: Args, w: World, f: Event, i: nat)
    requires Sized(a, w) && Enabled(a, w, f) && i < a.n && !OfCoder(f, i) && w.pcs[i].Asleep?
    ensures Apply(a, w, f).pcs[i].Asleep?
  {
  }

  lemma WaitingStays(a: Args, w: World, f: Event, i: nat)
    requires Sized(a, w) && Enabled(a, w, f) && i < a.n && !OfCoder(f, i) && !(f.Award? && f.g.coder == i)
    ensures Apply(a, w, f).st.coders[i].waiting == w.st.coders[i].waiting
  {
  }

  /** Between two lines a coder stays at the same point of its round. */
  ghost predicate SamePoint(a: Args, w: World, r: World, i: nat, p: L.Pc, q: L.Pc, more: Option<Message>)
    requires Sized(a, w) && Sized(a, r) && i < a.n
  {
    && !w.pcs[i].Exited?
    && (r.pcs[i].Exited? || r.st.stop
        || Stage(r.pcs[i], r.st.coders[i].waiting, q, more) % 5 == Stage(w.pcs[i], w.st.coders[i].waiting, p, None) % 5)
    && (more.Some? ==> Duly(r.pcs[i], more.value))
  }

  lemma OwnStageEntry(a: Args, w: World, f: Event, i: nat, p: L.Pc, q: L.Pc)
    requires Sized(a, w) && i < a.n && ControlAt(a, w, i) && Enabled(a, w, f) && OfCoder(f, i)
    requires f.Enter? || f.Wake? || f.GiveUp?
    ensures SamePoint(a, w, Apply(a, w, f), i, p, q, None)
  {
  }

  lemma OwnStageInside(a: Args, w: World, f: Event, i: nat, p: L.Pc, q: L.Pc)
    requires Sized(a, w) && i < a.n && ControlAt(a, w, i) && Enabled(a, w, f) && OfCoder(f, i)
    requires Inside(f) && !f.GiveUp? && !(f.Award? && f.g.coder == i)
    ensures SamePoint(a, w, Apply(a, w, f), i, p, q, None)
  {
  }

  lemma OwnStageOutside(a: Args, w: World, f: Event, i: nat, p: L.Pc, q: L.Pc)
    requires Sized(a, w) && Enabled(a, w, f) && i < a.n && OfCoder(f, i)
    requires !Inside(f) && !f.Enter? && !f.Wake? && !InLogMsg(p) && !InLogMsg(q)
    ensures SamePoint(a, w, Apply(a, w, f), i, p, q, OwedAfter(a, f, Apply(a, w, f), i))
  {
  }

  /** The coder that moves goes through its round. */
  lemma OwnStage(a: Args, w: World, f: Event, i: nat, p: L.Pc, q: L.Pc)
    requires Sized(a, w) && Control(a, w) && Enabled(a, w, f) && i < a.n && OfCoder(f, i)
    requires !(f.Award? && f.g.coder == i) && !InLogMsg(p) && !InLogMsg(q)
    ensures SamePoint(a, w, Apply(a, w, f), i, p, q, OwedAfter(a, f, Apply(a, w, f), i))
  {
    assert ControlAt(a, w, i);
    if f.Enter? || f.Wake? || f.GiveUp? { OwnStageEntry(a, w, f, i, p, q); }
    else if Inside(f) { OwnStageInside(a, w, f, i, p, q); }
    else { OwnStageOutside(a, w, f, i, p, q); }
  }

  /** What the coder that moved is to log. */
  function OwedAfter(a: Args, f: Event, r: World, i: nat): Option<Message>
    requires i < |r.pcs|
  {
    if f.Finish? && r.pcs[i].Debugging? then Some(IsDebugging) else if f.EndDebug? then Some(IsRefactoring) else None
  }

  /** The program after `f` takes effect. */
  function Committed(a: Args, j: Program, e: L.Event, f: Event): (r: Program)
    requires Shaped(a, j) && L.Enabled(j.s, e) && Carries(a, j, e, f) && Enabled(a, j.w, f)
    ensures Shaped(a, r)
  {
    var w := Apply(a, j.w, f);
    Program(L.Apply(j.s, e).(now := w.now), w, OwedMore(j.owed, f, w))
  }

  lemma OwedMoreAt(a: Args, owed: seq<Option<Message>>, f: Event, r: World, i: nat)
    requires |owed| == |r.pcs| && i < |owed|
    ensures !OfCoder(f, i) ==> OwedMore(owed, f, r)[i] == owed[i]
    ensures OfCoder(f, i) && owed[i] == None ==> OwedMore(owed, f, r)[i] == OwedAfter(a, f, r, i)
  {
  }

  lemma CommitLine(a: Args, j: Program, e: L.Event, f: Event)
    requires Agree(a, j) && L.Enabled(j.s, e) && Carries(a, j, e, f) && Enabled(a, j.w, f)
    ensures var more := AddedBy(j.s, e);
      && Committed(a, j, e, f).s.output == j.s.output + more && |more| <= 1
      && (forall i: nat :: Mine(more, i) == 0)
      && (more != [] ==> f.WriteVerdict? && more[0].id == j.w.monitor.coder + 1)
  {
    assert ThreadIsAt(a, j.w, j.s.threads[Mover(a, f)], Mover(a, f));
    CommitWrites(a, j, e, f);
    StepWrites(j.s, e);
  }

  /** Coder `i` is at the same point of its round, its next line is due, and it is not suddenly
      about to write. */
  ghost predicate PointKept(a: Args, j: Program, r: Program, i: nat)
    requires Shaped(a, j) && Shaped(a, r) && i < a.n
  {
    && (!r.s.stop && !r.w.pcs[i].Exited? ==>
          !j.s.stop && !j.w.pcs[i].Exited? && StageNow(a, j, i) % 5 == StageNow(a, r, i) % 5)
    && DueAt(r.w.pcs[i], r.s.threads[i], r.owed[i], i)
    && (r.s.threads[i].Alone? ==> r.s.threads[i] == j.s.threads[i])
  }

  lemma ServedPoint(a: Args, j: Program, e: L.Event, f: Event)
    requires Agree(a, j) && Control(a, j.w) && Chronicled(a, j)
    requires L.Enabled(j.s, e) && Carries(a, j, e, f) && Enabled(a, j.w, f) && f.Award?
    ensures PointKept(a, j, Committed(a, j, e, f), f.g.coder)
  {
    var i, r := f.g.coder, Committed(a, j, e, f);
    assert ThreadIsAt(a, j.w, j.s.threads[f.i], f.i) && ControlAt(a, j.w, i) && ControlAt(a, j.w, f.i);
    assert DueAt(j.w.pcs[i], j.s.threads[i], j.owed[i], i);
    CommitPlace(a, j, e, f);
    UnderwayAtCommit(a, j, e, f);
    if i != f.i { OthersStay(j.s, e, i); }
    StopsAlike(a, j.w, f);
    ServedStays(a, j.w, f);
  }

  lemma ServedStays(a: Args, w: World, f: Event)
    requires Sized(a, w) && Enabled(a, w, f) && f.Award? && InQueue(w.pcs[f.g.coder])
    ensures InQueue(Apply(a, w, f).pcs[f.g.coder]) && !Apply(a, w, f).st.coders[f.g.coder].waiting
  {
  }

  lemma OwnPoint(a: Args, j: Program, e: L.Event, f: Event)
    requires Agree(a, j) && Control(a, j.w) && Chronicled(a, j)
    requires L.Enabled(j.s, e) && Carries(a, j, e, f) && Enabled(a, j.w, f)
    requires Mover(a, f) < a.n && !(f.Award? && f.g.coder == f.i)
    ensures PointKept(a, j, Committed(a, j, e, f), f.i)
  {
    var i, r := f.i, Committed(a, j, e, f);
    assert ThreadIsAt(a, j.w, j.s.threads[i], i);
    assert DueAt(j.w.pcs[i], j.s.threads[i], j.owed[i], i);
    CommitPlace(a, j, e, f);
    UnderwayAtCommit(a, j, e, f);
    StopsAlike(a, j.w, f);
    OwedMoreAt(a, j.owed, f, r.w, i);
    MoverLogsNothing(a, j, e, f);
    OwnStage(a, j.w, f, i, j.s.threads[i], r.s.threads[i]);
  }

  lemma MoverLogsNothing(a: Args, j: Program, e: L.Event, f: Event)
    requires Shaped(a, j) && L.Enabled(j.s, e) && Carries(a, j, e, f)
    ensures !InLogMsg(j.s.threads[Mover(a, f)]) && !InLogMsg(Target(j.w, f))
    ensures OwedAfter(a, f, j.w, 0).None? || f.Finish? || f.EndDebug?
    ensures f.Finish? || f.EndDebug? ==> Target(j.w, f).Out?
  {
  }

  lemma OtherThread(a: Args, j: Program, e: L.Event, f: Event, i: nat)
    requires Agree(a, j) && Control(a, j.w) && i < a.n
    requires L.Enabled(j.s, e) && Carries(a, j, e, f) && Enabled(a, j.w, f) && Mover(a, f) != i
    ensures var r := Committed(a, j, e, f);
      && r.s.threads[i] == j.s.threads[i] && r.owed[i] == j.owed[i]
      && (j.s.stop ==> r.s.stop) && (!f.Award? ==> UnderwayNow(r) == UnderwayNow(j))
      && (f.Award? ==> UnderwayNow(j) == None && UnderwayNow(r) == Some(Group(f.g.coder + 1, 0)))
  {
    assert ThreadIsAt(a, j.w, j.s.threads[Mover(a, f)], Mover(a, f));
    CommitPlace(a, j, e, f);
    UnderwayAtCommit(a, j, e, f);
    OwedMoreAt(a, j.owed, f, Apply(a, j.w, f), i);
    OthersStay(j.s, e, i);
  }

  lemma OtherPoint(a: Args, j: Program, e: L.Event, f: Event, i: nat)
    requires Agree(a, j) && Control(a, j.w) && Chronicled(a, j) && i < a.n
    requires L.Enabled(j.s, e) && Carries(a, j, e, f) && Enabled(a, j.w, f)
    requires Mover(a, f) != i && !(f.Award? && f.g.coder == i)
    ensures PointKept(a, j, Committed(a, j, e, f), i)
  {
    assert DueAt(j.w.pcs[i], j.s.threads[i], j.owed[i], i);
    OtherThread(a, j, e, f, i);
    OtherStage(a, j.w, f, i, j.s.threads[i], j.owed[i]);
  }

  /** The point of its round at which a coder stands does not change as `f` takes effect. */
  lemma CommitPoint(a: Args, j: Program, e: L.Event, f: Event, i: nat)
    requires Agree(a, j) && Control(a, j.w) && Chronicled(a, j) && i < a.n
    requires L.Enabled(j.s, e) && Carries(a, j, e, f) && Enabled(a, j.w, f)
    ensures PointKept(a, j, Committed(a, j, e, f), i)
  {
    if f.Award? && f.g.coder == i { ServedPoint(a, j, e, f); }
    else if Mover(a, f) == i { OwnPoint(a, j, e, f); }
    else { OtherPoint(a, j, e, f, i); }
  }

  lemma CommitAnnounces(a: Args, j: Program, e: L.Event, f: Event)
    requires Agree(a, j) && Control(a, j.w) && Chronicled(a, j)
    requires L.Enabled(j.s, e) && Carries(a, j, e, f) && Enabled(a, j.w, f)
    ensures AnnouncesServed(a, Committed(a, j, e, f))
  {
    UnderwayAtCommit(a, j, e, f);
    if f.Award? {
      assert ControlAt(a, j.w, f.g.coder);
      ServedStays(a, j.w, f);
    } else if UnderwayNow(j).Some? {
      OtherStage(a, j.w, f, UnderwayNow(j).value.id - 1, L.Out, None);
    }
  }

  lemma LinesNameCoders(lines: seq<Scheduler.Line>, more: seq<Scheduler.Line>, n: nat)
    requires forall p :: 0 <= p < |lines| ==> 1 <= lines[p].id <= n
    requires |more| <= 1 && (more != [] ==> 1 <= more[0].id <= n)
    ensures forall p :: 0 <= p < |lines + more| ==> 1 <= (lines + more)[p].id <= n
  {
  }

  /** At the same point of its round, without a line of its own, a coder's story is the same. */
  lemma StoryStays(a: Args, j: Program, r: Program, more: seq<Scheduler.Line>, i: nat)
    requires Shaped(a, j) && Shaped(a, r) && i < a.n && StoryAt(a, j, i) && PointKept(a, j, r, i)
    requires |more| <= 1 && r.s.output == j.s.output + more && Mine(more, i) == 0
    ensures StoryAt(a, r, i)
  {
    StoryGoesOn(a, j, r, more, i);
  }

  lemma CommitNames(a: Args, j: Program, e: L.Event, f: Event)
    requires Agree(a, j) && Verdict(a, j.w) && Chronicled(a, j)
    requires L.Enabled(j.s, e) && Carries(a, j, e, f) && Enabled(a, j.w, f)
    ensures var r := Committed(a, j, e, f);
      !InLogMsg(r.s.threads[a.n]) && forall p :: 0 <= p < |r.s.output| ==> 1 <= r.s.output[p].id <= a.n
  {
    CommitLine(a, j, e, f);
    LinesNameCoders(j.s.output, AddedBy(j.s, e), a.n);
    MoverLogsNothing(a, j, e, f);
    assert ThreadIsAt(a, j.w, j.s.threads[Mover(a, f)], Mover(a, f));
    CommitPlace(a, j, e, f);
    if Mover(a, f) != a.n { OthersStay(j.s, e, a.n); }
  }

  lemma CommitChronicled(a: Args, j: Program, e: L.Event, f: Event)
    requires Agree(a, j) && Control(a, j.w) && Verdict(a, j.w) && Chronicled(a, j)
    requires L.Enabled(j.s, e) && Carries(a, j, e, f) && Enabled(a, j.w, f)
    ensures Chronicled(a, Committed(a, j, e, f))
  {
    var r := Committed(a, j, e, f);
    CommitLine(a, j, e, f);
    CommitAnnounces(a, j, e, f);
    forall i: nat | i < a.n ensures StoryAt(a, r, i) && DueAt(r.w.pcs[i], r.s.threads[i], r.owed[i], i) {
      assert StoryAt(a, j, i);
      CommitPoint(a, j, e, f, i);
      StoryStays(a, j, r, AddedBy(j.s, e), i);
    }
    CommitNames(a, j, e, f);
  }

  // ---------------------------------------------------------------------------- time passes

  lemma PassPoint(a: Args, w: World, f: Event, i: nat)
    requires Sized(a, w) && Enabled(a, w, f) && Lockless(f) && i < a.n
    ensures var r := Apply(a, w, f);
      && r.st == w.st && r.mutex == w.mutex && (r.pcs[i].Exited? <==> w.pcs[i].Exited?)
      && (InQueue(r.pcs[i]) <==> InQueue(w.pcs[i])) && (!OfCoder(f, i) ==> r.pcs[i] == w.pcs[i])
      && (OfCoder(f, i) ==> forall p: L.Pc, b :: !InLogMsg(p) ==>
            Stage(r.pcs[i], b, p, None) == Stage(w.pcs[i], b, p, None))
  {
  }

  lemma PassKeepsPoint(a: Args, j: Program, f: Event, i: nat)
    requires Agree(a, j) && Chronicled(a, j) && Lockless(f) && Between(a, j, f) && Enabled(a, j.w, f) && i < a.n
    ensures var w := Apply(a, j.w, f); PointKept(a, j, Program(j.s.(now := w.now), w, j.owed), i)
  {
    assert DueAt(j.w.pcs[i], j.s.threads[i], j.owed[i], i);
    PassPoint(a, j.w, f, i);
  }

  lemma PassChronicled(a: Args, j: Program, f: Event)
    requires Agree(a, j) && Chronicled(a, j) && Lockless(f) && Between(a, j, f) && Enabled(a, j.w, f)
    ensures var w := Apply(a, j.w, f); Chronicled(a, Program(j.s.(now := w.now), w, j.owed))
  {
    var w := Apply(a, j.w, f);
    var r := Program(j.s.(now := w.now), w, j.owed);
    assert j.s.output + [] == j.s.output;
    forall i: nat | i < a.n ensures StoryAt(a, r, i) && DueAt(r.w.pcs[i], r.s.threads[i], r.owed[i], i) {
      assert StoryAt(a, j, i);
      PassKeepsPoint(a, j, f, i);
      StoryStays(a, j, r, [], i);
    }
    PassAnnounces(a, j, f);
  }

  lemma PassAnnounces(a: Args, j: Program, f: Event)
    requires Agree(a, j) && Chronicled(a, j) && Lockless(f) && Between(a, j, f) && Enabled(a, j.w, f)
    ensures var w := Apply(a, j.w, f); AnnouncesServed(a, Program(j.s.(now := w.now), w, j.owed))
  {
    PassPoint(a, j.w, f, 0);
    if UnderwayNow(j).Some? { PassPoint(a, j.w, f, UnderwayNow(j).value.id - 1); }
  }

  // ---------------------------------------------------------------------------- silent steps

  function Silenced(a: Args, j: Program, e: L.Event): (r: Program)
    requires Shaped(a, j) && L.Enabled(j.s, e) && Quiet(a, j, e)
    ensures Shaped(a, r)
  {
    Program(L.Apply(j.s, e), j.w, OwedLess(j.owed, e))
  }

  /** A thread inside the dispatch writes the next line of the announcement, or moves on. */
  lemma DispatchLine(a: Args, j: Program, e: L.Event)
    requires Shaped(a, j) && L.Enabled(j.s, e) && Quiet(a, j, e) && InDispatch(j.s.threads[e.t])
    requires Underway(j.s.threads[e.t]).Some? ==> Underway(j.s.threads[e.t]).value.lines <= 3
    ensures var p, q, more := j.s.threads[e.t], L.Apply(j.s, e).threads[e.t], AddedBy(j.s, e);
      && e.Advance? && Underway(p).Some? && !InLogMsg(q) && !q.Alone?
      && var x := Underway(p).value;
      && (more == [] ==> Underway(q) == (if x.lines == 3 then None else Some(x)) )
      && (more != [] ==>
            && x.lines <= 2 && more[0].id == x.id && more[0].message == Cycle(x.lines) && |more| == 1
            && Underway(q) == Some(Group(x.id, x.lines + 1)))
  {
  }

  /** A thread inside log_msg, or elsewhere, does not touch the dispatch. */
  lemma ElsewhereLine(a: Args, j: Program, e: L.Event)
    requires Shaped(a, j) && L.Enabled(j.s, e) && Quiet(a, j, e)
    requires !j.s.threads[e.t].Looping? && !InDispatch(j.s.threads[e.t])
    ensures var p, q, more := j.s.threads[e.t], L.Apply(j.s, e).threads[e.t], AddedBy(j.s, e);
      && Underway(q) == None && |more| <= 1
      && (more != [] ==> p.Alone? && more[0].id == p.id && more[0].message == p.message && q.Written?)
      && (more == [] ==> !p.Alone?)
      && (q.Alone? ==> p.Both? && q.id == p.id && q.message == p.message)
      && (InLogMsg(p) && !InLogMsg(q) && more == [] ==> p.Testing? && j.s.stop)
      && (InLogMsg(q) ==> if e.Begin? then e.section.LogMsg? && p.Out? && q.id == e.section.id
                                           && q.message == e.section.message
                          else InLogMsg(p) && q.id == p.id && q.message == p.message)
      && (e.Begin? && e.section.LogMsg? ==> InLogMsg(q))
  {
    if e.Advance? {
      if L.Logging(j.s.threads[e.t]) { LoggingLine(a, j, e.t); } else { OtherLine(a, j, e.t); }
    }
  }

  lemma LoggingLine(a: Args, j: Program, t: nat)
    requires Shaped(a, j) && L.Enabled(j.s, L.Advance(t)) && Quiet(a, j, L.Advance(t))
    requires L.Logging(j.s.threads[t]) && !InDispatch(j.s.threads[t])
    ensures var p, q, more := j.s.threads[t], L.Proceed(j.s, t).threads[t], Added(j.s.now, j.s.threads[t]);
      && Underway(q) == None && (more == [] ==> !p.Alone?)
      && (more != [] ==> p.Alone? && more[0].id == p.id && more[0].message == p.message && q.Written?)
      && (q.Alone? ==> p.Both? && q.id == p.id && q.message == p.message)
      && (InLogMsg(p) && !InLogMsg(q) && more == [] ==> p.Testing? && j.s.stop)
      && (InLogMsg(q) ==> InLogMsg(p) && q.id == p.id && q.message == p.message)
  {
  }

  lemma OtherLine(a: Args, j: Program, t: nat)
    requires Shaped(a, j) && L.Enabled(j.s, L.Advance(t)) && Quiet(a, j, L.Advance(t))
    requires !L.Logging(j.s.threads[t]) && !InDispatch(j.s.threads[t])
    ensures var q := L.Proceed(j.s, t).threads[t];
      Underway(q) == None && !InLogMsg(q) && Added(j.s.now, j.s.threads[t]) == []
  {
  }

  lemma UnderwayAtSilence(a: Args, j: Program, e: L.Event)
    requires Agree(a, j) && Control(a, j.w) && L.Enabled(j.s, e) && Quiet(a, j, e)
    ensures var r := Silenced(a, j, e);
      if j.w.mutex == Some(e.t)
      then InDispatch(j.s.threads[e.t]) && UnderwayNow(j) == Underway(j.s.threads[e.t])
           && UnderwayNow(r) == Underway(r.s.threads[e.t])
      else !j.s.threads[e.t].Looping? && !InDispatch(j.s.threads[e.t]) && UnderwayNow(r) == UnderwayNow(j)
  {
    OwnerIsInside(a, j, e.t);
    if j.w.mutex.Some? && j.w.mutex.value != e.t && j.w.mutex.value < |j.s.threads| {
      OthersStay(j.s, e, j.w.mutex.value);
    }
  }

  /** The announcing thread: its line is the next one of the coder it names. */
  lemma DispatchStory(a: Args, j: Program, e: L.Event, i: nat)
    requires Agree(a, j) && Control(a, j.w) && Ended(j.s) && Chronicled(a, j) && i < a.n
    requires L.Enabled(j.s, e) && Quiet(a, j, e) && j.w.mutex == Some(e.t)
    ensures GoesOn(a, j, Silenced(a, j, e), AddedBy(j.s, e), i)
  {
    UnderwayAtSilence(a, j, e);
    DispatchLine(a, j, e);
    StepWrites(j.s, e);
    assert StoryAt(a, j, i) && DueAt(j.w.pcs[i], j.s.threads[i], j.owed[i], i);
    assert ThreadAt(j.s, e.t) && ThreadIsAt(a, j.w, j.s.threads[e.t], e.t);
    if i != e.t { OthersStay(j.s, e, i); }
    StopStays(a, j, e);
    CycleRepeats(|LinesOf(j.s.output, i + 1)|, Underway(j.s.threads[e.t]).value.lines);
  }

  lemma StopStays(a: Args, j: Program, e: L.Event)
    requires Shaped(a, j) && L.Enabled(j.s, e) && Quiet(a, j, e)
    ensures L.Apply(j.s, e).stop == j.s.stop
  {
  }

  lemma CycleRepeats(k: nat, m: nat)
    ensures k % 5 == m % 5 ==> Cycle(k) == Cycle(m)
  {
  }

  /** A coder inside log_msg writes the line of its place. */
  lemma OwnLogStory(a: Args, j: Program, e: L.Event)
    requires Agree(a, j) && Control(a, j.w) && Ended(j.s) && Chronicled(a, j) && e.Tick? == false && e.t < a.n
    requires L.Enabled(j.s, e) && Quiet(a, j, e) && j.w.mutex != Some(e.t)
    ensures GoesOn(a, j, Silenced(a, j, e), AddedBy(j.s, e), e.t)
  {
    var i := e.t;
    UnderwayAtSilence(a, j, e);
    ElsewhereLine(a, j, e);
    StepWrites(j.s, e);
    StopStays(a, j, e);
    assert StoryAt(a, j, i) && DueAt(j.w.pcs[i], j.s.threads[i], j.owed[i], i) && ThreadAt(j.s, i);
  }

  lemma OtherLogStory(a: Args, j: Program, e: L.Event, i: nat)
    requires Agree(a, j) && Control(a, j.w) && Ended(j.s) && Chronicled(a, j) && i < a.n && !e.Tick? && i != e.t
    requires L.Enabled(j.s, e) && Quiet(a, j, e) && j.w.mutex != Some(e.t)
    ensures GoesOn(a, j, Silenced(a, j, e), AddedBy(j.s, e), i)
  {
    UnderwayAtSilence(a, j, e);
    ElsewhereLine(a, j, e);
    StepWrites(j.s, e);
    StopStays(a, j, e);
    OthersStay(j.s, e, i);
    assert StoryAt(a, j, i);
    if e.t < a.n { assert DueAt(j.w.pcs[e.t], j.s.threads[e.t], j.owed[e.t], e.t); }
    assert Mine(AddedBy(j.s, e), i) == 0;
  }

  lemma SilentStory(a: Args, j: Program, e: L.Event, i: nat)
    requires Agree(a, j) && Control(a, j.w) && Ended(j.s) && Chronicled(a, j) && i < a.n
    requires L.Enabled(j.s, e) && Quiet(a, j, e)
    ensures StoryAt(a, Silenced(a, j, e), i)
  {
    assert StoryAt(a, j, i);
    if j.w.mutex == Some(e.t) { DispatchStory(a, j, e, i); }
    else if i == e.t { OwnLogStory(a, j, e); }
    else { OtherLogStory(a, j, e, i); }
    StoryGoesOn(a, j, Silenced(a, j, e), AddedBy(j.s, e), i);
  }

  lemma SilentDuty(a: Args, j: Program, e: L.Event, i: nat)
    requires Agree(a, j) && Control(a, j.w) && Chronicled(a, j) && i < a.n && L.Enabled(j.s, e) && Quiet(a, j, e)
    ensures var r := Silenced(a, j, e); DueAt(r.w.pcs[i], r.s.threads[i], r.owed[i], i)
  {
    UnderwayAtSilence(a, j, e);
    assert DueAt(j.w.pcs[i], j.s.threads[i], j.owed[i], i);
    if i != e.t { OthersStay(j.s, e, i); }
    else if j.w.mutex == Some(e.t) { DispatchLine(a, j, e); }
    else { ElsewhereLine(a, j, e); }
  }

  lemma SilentRest(a: Args, j: Program, e: L.Event)
    requires Agree(a, j) && Control(a, j.w) && Chronicled(a, j) && L.Enabled(j.s, e) && Quiet(a, j, e)
    ensures AnnouncesServed(a, Silenced(a, j, e)) && !InLogMsg(Silenced(a, j, e).s.threads[a.n])
    ensures |AddedBy(j.s, e)| <= 1 && (AddedBy(j.s, e) != [] ==> 1 <= AddedBy(j.s, e)[0].id <= a.n)
  {
    UnderwayAtSilence(a, j, e);
    if a.n != e.t { OthersStay(j.s, e, a.n); }
    if j.w.mutex == Some(e.t) { DispatchLine(a, j, e); } else { ElsewhereLine(a, j, e); }
    if e.t < a.n { assert DueAt(j.w.pcs[e.t], j.s.threads[e.t], j.owed[e.t], e.t); }
  }

  lemma SilentChronicled(a: Args, j: Program, e: L.Event)
    requires Agree(a, j) && Control(a, j.w) && Ended(j.s) && Chronicled(a, j)
    requires L.Enabled(j.s, e) && Quiet(a, j, e)
    ensures Chronicled(a, Silenced(a, j, e))
  {
    SilentRest(a, j, e);
    StepWrites(j.s, e);
    LinesNameCoders(j.s.output, AddedBy(j.s, e), a.n);
    var r := Silenced(a, j, e);
    forall i: nat | i < a.n ensures StoryAt(a, r, i) && DueAt(r.w.pcs[i], r.s.threads[i], r.owed[i], i) {
      SilentStory(a, j, e, i);
      SilentDuty(a, j, e, i);
    }
  }

  // ------------------------------------------------------------------------------------ runs

  lemma ChronicleGoesOn(a: Args, j: Program, m: Move, r: Program)
    requires Truthful(a, j) && Chronicled(a, j) && Makes(a, j, m, r)
    ensures Chronicled(a, r)
  {
    match m
    case Silent(e) => SilentChronicled(a, j, e);
    case Commit(e, f) => CommitIsAStep(a, j, e, f); CommitChronicled(a, j, e, f);
    case Pass(f) => MutexIrrelevant(a, j.w, f); PassChronicled(a, j, f);
  }

  lemma {:induction false} RunsAreChronicled(a: Args, js: seq<Program>, ms: seq<Move>)
    requires Run(a, js, ms)
    ensures Truthful(a, js[|ms|]) && Chronicled(a, js[|ms|])
    decreases |ms|
  {
    RunsProject(a, js, ms);
    if ms != [] {
      var k := |ms| - 1;
      RunsAreChronicled(a, js[..k + 1], ms[..k]);
      ChronicleGoesOn(a, js[k], ms[k], js[k + 1]);
    }
  }

  /** In every run of the program, lock by lock, the lines that name a coder, but for a burnout,
      are the beginning of its cycle: two dongles taken, compiling, debugging, refactoring, and
      again. Every line names a coder. */
  lemma LogFollowsTheCycle(a: Args, js: seq<Program>, ms: seq<Move>, id: nat)
    requires Run(a, js, ms)
    ensures var c := LinesOf(js[|ms|].s.output, id);
      forall k: nat :: k < |c| ==> 1 <= id <= a.n && c[k].message == Cycle(k)
  {
    RunsAreChronicled(a, js, ms);
    if 1 <= id <= a.n {
      assert StoryAt(a, js[|ms|], id - 1);
    } else {
      NoLinesOf(js[|ms|].s.output, id);
    }
  }

  lemma {:induction false} NoLinesOf(lines: seq<Scheduler.Line>, id: nat)
    requires forall p :: 0 <= p < |lines| ==> lines[p].id != id
    ensures LinesOf(lines, id) == []
    decreases |lines|
  {
    if lines != [] { NoLinesOf(lines[..|lines| - 1], id); }
  }
}
