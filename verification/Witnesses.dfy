// Runs in which something happens that a reader of the program might not expect.
module Witnesses {
  import opened Requests
  import opened Table
  import opened Dispatch
  import opened Progress
  import opened Options
  import opened Runs
  import opened Ownership

  /** Two coders under FIFO, ten milliseconds to burn out, one to compile, no cooldown. */
  function TwoCoders(required: nat): Args {
    Args(2, 10, 1, 0, 0, required, 0, Fifo)
  }

  lemma Step(a: Args, w: World, e: Event) returns (r: World)
    requires Reachable(a, w) && Sized(a, w) && Enabled(a, w, e)
    ensures r == Apply(a, w, e) && Reachable(a, r)
  {
    StepIsReachable(a, w, e);
    r := Apply(a, w, e);
  }

  /** A coder counts a compile while another still has some to do. */
  lemma Count(a: Args, w: World, i: nat, other: nat)
    requires Sized(a, w) && Enabled(a, w, Finish(i))
    requires other < a.n && other != i && w.st.coders[other].done < a.required
    ensures Apply(a, w, Finish(i)) == Move(w, i, Debugging(w.now + a.debug)).(st := CountCompile(a, w.st, i))
  {
    assert CountCompile(a, w.st, i).coders[other] == w.st.coders[other];
  }

  /** A look at coder `k`, all readings at once. */
  function At(k: nat, now: int): Grant {
    Grant(k, now, now, now, now)
  }

  /** A pass that serves nobody. */
  lemma EmptyPass(a: Args, w: World, i: nat)
    requires Sized(a, w) && a.n == 2 && i < 2 && w.pcs[i] == Dispatching(Position(0, false, w.now))
    requires !Chosen(a, w.st, At(0, w.now)) && !Chosen(a, w.st, At(1, w.now))
    ensures Enabled(a, w, Skip(i, At(0, w.now)))
    ensures var m := Apply(a, w, Skip(i, At(0, w.now)));
      && Enabled(a, m, Skip(i, At(1, w.now)))
      && Apply(a, m, Skip(i, At(1, w.now))) == Move(w, i, Dispatching(Position(2, false, w.now)))
  {
    var m := Apply(a, w, Skip(i, At(0, w.now)));
    assert m == Move(w, i, Dispatching(Position(1, false, w.now)));
    assert m.pcs[i := Dispatching(Position(2, false, w.now))] == w.pcs[i := Dispatching(Position(2, false, w.now))];
  }

  lemma PassOnce(a: Args, w: World, i: nat) returns (r: World)
    requires Reachable(a, w) && Sized(a, w) && a.n == 2 && i < 2
    requires w.pcs[i] == Dispatching(Position(0, false, w.now))
    requires !Chosen(a, w.st, At(0, w.now)) && !Chosen(a, w.st, At(1, w.now))
    ensures r == Move(w, i, Dispatching(Position(2, false, w.now))) && Reachable(a, r)
  {
    EmptyPass(a, w, i);
    r := Step(a, w, Skip(i, At(0, w.now)));
    r := Step(a, r, Skip(i, At(1, w.now)));
  }

  /** Not waiting, and never was. */
  function Newcomer(id: nat): Coder {
    Coder(1, 0, Request(id, 0, 0), false, false)
  }

  function Waiter(id: nat, last: int, done: nat, sequence: nat): Coder {
    Coder(last, done, Request(id, sequence, last + 10), true, false)
  }

  /** Served at time `last` on a request with that deadline. */
  function Served(id: nat, last: int, done: nat, sequence: nat, deadline: int): Coder {
    Coder(last, done, Request(id, sequence, deadline), false, true)
  }

  /** The end of a scan begun at time `now`. */
  function Through(now: int): Pc {
    Dispatching(Position(2, false, now))
  }

  function Begun(now: int): Pc {
    Dispatching(Position(0, false, now))
  }

  /** A reachable world of two coders, told entry by entry; both dongles are alike. */
  ghost predicate Scene(a: Args, w: World, now: int, c: Coder, d: Coder, dongle: Dongle, sequence: nat,
                        p: Pc, q: Pc, mutex: Option<nat>, owner: Option<nat>)
  {
    && a.n == 2 && Reachable(a, w) && Sized(a, w) && w.now == now && w.mutex == mutex
    && w.st.coders[0] == c && w.st.coders[1] == d && w.st.nextSequence == sequence && !w.st.stop
    && w.st.dongles[0] == dongle && w.st.dongles[1] == dongle
    && w.pcs[0] == p && w.pcs[1] == q && w.owner[0] == owner && w.owner[1] == owner
    && w.monitor == Scanning && w.reports == 0 && w.burned == None
  }

  // ------------------------------------------------------------- a pair that is lost

  lemma FirstDispatches(required: nat) returns (r: World)
    requires required > 0
    ensures Scene(TwoCoders(required), r, 1, Waiter(1, 1, 0, 0),
                  Newcomer(2), Dongle(true, 0), 1,
                  Begun(1), Idle, Some(0), None)
    ensures r.starts == []
  {
    var a := TwoCoders(required);
    StartIsReachable(a, 1);
    r := Step(a, Init(a, 1), PassTop(0));
    r := Step(a, r, Enter(0));
    r := Step(a, r, Proceed(0));
  }

  lemma FirstIsGranted(required: nat) returns (r: World)
    requires required > 0
    ensures Scene(TwoCoders(required), r, 1, Served(1, 1, 0, 0, 11),
                  Newcomer(2), Dongle(false, 0), 1,
                  Begun(1), Idle, Some(0), Some(0))
    ensures r.starts == [Start(0, 1)]
  {
    var a := TwoCoders(required);
    r := FirstDispatches(required);
    r := Step(a, r, Award(0, At(0, 1)));
    r := Step(a, r, Skip(0, At(1, 1)));
  }

  lemma FirstCompiles(required: nat) returns (r: World)
    requires required > 0
    ensures Scene(TwoCoders(required), r, 1, Served(1, 1, 0, 0, 11),
                  Newcomer(2), Dongle(false, 0), 1,
                  Compiling(2), Idle, None, Some(0))
    ensures r.starts == [Start(0, 1)]
  {
    var a := TwoCoders(required);
    r := FirstIsGranted(required);
    r := PassOnce(a, r, 0);
    r := Step(a, r, Return(0));
  }

  lemma SecondRegisters() returns (r: World)
    ensures Scene(TwoCoders(5), r, 1, Served(1, 1, 0, 0, 11),
                  Waiter(2, 1, 0, 1), Dongle(false, 0), 2,
                  Compiling(2), Looping, Some(1), Some(0))
  {
    var a := TwoCoders(5);
    r := FirstCompiles(5);
    r := Step(a, r, PassTop(1));
    r := Step(a, r, Enter(1));
  }

  lemma SecondScans() returns (r: World)
    ensures Scene(TwoCoders(5), r, 1, Served(1, 1, 0, 0, 11),
                  Waiter(2, 1, 0, 1), Dongle(false, 0), 2,
                  Compiling(2), Through(1), Some(1), Some(0))
  {
    var a := TwoCoders(5);
    r := SecondRegisters();
    r := Step(a, r, Proceed(1));
    r := PassOnce(a, r, 1);
  }

  lemma SecondSleeps() returns (r: World)
    ensures Scene(TwoCoders(5), r, 1, Served(1, 1, 0, 0, 11),
                  Waiter(2, 1, 0, 1), Dongle(false, 0), 2,
                  Compiling(2), Asleep(1, 1, 1, 11, false), None, Some(0))
  {
    var a := TwoCoders(5);
    r := SecondScans();
    r := Step(a, r, Sleep(1, 1, 1));
  }

  lemma FirstEnds() returns (r: World)
    ensures Scene(TwoCoders(5), r, 2, Served(1, 1, 0, 0, 11),
                  Waiter(2, 1, 0, 1), Dongle(false, 0), 2,
                  Releasing(2), Asleep(1, 1, 1, 11, false), None, Some(0))
  {
    var a := TwoCoders(5);
    r := SecondSleeps();
    r := Step(a, r, Tick(2));
    r := Step(a, r, EndCompile(0));
  }

  lemma FirstGivesBack() returns (r: World)
    ensures Scene(TwoCoders(5), r, 2, Served(1, 1, 0, 0, 11),
                  Waiter(2, 1, 0, 1), Dongle(true, 2), 2,
                  Released, Asleep(1, 1, 1, 11, true), None, None)
  {
    var a := TwoCoders(5);
    r := FirstEnds();
    r := Step(a, r, GiveBack(0));
  }

  lemma FirstReleases() returns (r: World)
    ensures Scene(TwoCoders(5), r, 2, Served(1, 1, 0, 0, 11),
                  Waiter(2, 1, 0, 1), Dongle(true, 2), 2,
                  Counting, Asleep(1, 1, 1, 11, true), None, None)
  {
    var a := TwoCoders(5);
    r := FirstGivesBack();
    r := Step(a, r, PassCompiled(0));
  }

  lemma FirstCounts() returns (r: World)
    ensures Scene(TwoCoders(5), r, 2, Served(1, 1, 1, 0, 11),
                  Waiter(2, 1, 0, 1), Dongle(true, 2), 2,
                  Debugging(2), Asleep(1, 1, 1, 11, true), None, None)
  {
    var a := TwoCoders(5);
    r := FirstReleases();
    Count(a, r, 0, 1);
    r := Step(a, r, Finish(0));
  }

  lemma FirstRests() returns (r: World)
    ensures Scene(TwoCoders(5), r, 2, Served(1, 1, 1, 0, 11),
                  Waiter(2, 1, 0, 1), Dongle(true, 2), 2,
                  Idle, Asleep(1, 1, 1, 11, true), None, None)
  {
    var a := TwoCoders(5);
    r := FirstCounts();
    r := Step(a, r, EndDebug(0));
    r := Step(a, r, EndRefactor(0));
  }

  lemma FirstReturns() returns (r: World)
    ensures Scene(TwoCoders(5), r, 2, Served(1, 1, 1, 0, 11),
                  Waiter(2, 1, 0, 1), Dongle(true, 2), 2,
                  Ready, Asleep(1, 1, 1, 11, true), None, None)
  {
    var a := TwoCoders(5);
    r := FirstRests();
    r := Step(a, r, PassTop(0));
  }

  lemma FirstEnters() returns (r: World)
    ensures Scene(TwoCoders(5), r, 10, Waiter(1, 1, 1, 2),
                  Waiter(2, 1, 0, 1), Dongle(true, 2), 3,
                  Begun(10), Asleep(1, 1, 1, 11, true), Some(0), None)
  {
    var a := TwoCoders(5);
    r := FirstReturns();
    r := Step(a, r, Tick(10));
    r := Step(a, r, Enter(0));
    r := Step(a, r, Proceed(0));
  }

  lemma FirstIsPassedOver() returns (r: World)
    ensures Scene(TwoCoders(5), r, 10, Waiter(1, 1, 1, 2),
                  Waiter(2, 1, 0, 1), Dongle(true, 2), 3,
                  Dispatching(Position(1, false, 10)), Asleep(1, 1, 1, 11, true), Some(0), None)
  {
    r := FirstEnters();
    assert Blocks(TwoCoders(5), r.st, 1, 0);
    r := Step(TwoCoders(5), r, Skip(0, At(0, 10)));
  }

  lemma SecondIsGranted() returns (r: World)
    ensures Scene(TwoCoders(5), r, 10, Waiter(1, 1, 1, 2),
                  Served(2, 10, 0, 1, 11), Dongle(false, 2), 3,
                  Begun(10), Asleep(1, 1, 1, 11, true), Some(0), Some(1))
  {
    var a := TwoCoders(5);
    r := FirstIsPassedOver();
    r := Step(a, r, Award(0, At(1, 10)));
  }

  lemma FirstSleeps() returns (r: World)
    ensures Scene(TwoCoders(5), r, 10, Waiter(1, 1, 1, 2),
                  Served(2, 10, 0, 1, 11), Dongle(false, 2), 3,
                  Asleep(10, 10, 10, 11, false), Asleep(1, 1, 1, 11, true), None, Some(1))
  {
    var a := TwoCoders(5);
    r := SecondIsGranted();
    r := PassOnce(a, r, 0);
    r := Step(a, r, Sleep(0, 10, 10));
  }

  lemma SecondWakes() returns (r: World)
    ensures Scene(TwoCoders(5), r, 11, Waiter(1, 1, 1, 2),
                  Served(2, 10, 0, 1, 11), Dongle(false, 2), 3,
                  Asleep(10, 10, 10, 11, false), Looping, Some(1), Some(1))
  {
    var a := TwoCoders(5);
    r := FirstSleeps();
    r := Step(a, r, Tick(11));
    r := Step(a, r, Wake(1));
  }

  /** A coder can be granted its pair by another coder's dispatch, wake at its old deadline, and
      leave with the pair: the run is not stopped, nobody burned out, and by ExitedOwnerKeeps
      neither dongle is ever free again. */
  lemma PairCanBeLost() returns (r: World)
    ensures Reachable(TwoCoders(5), r) && Sized(TwoCoders(5), r)
    ensures r.pcs[1].Exited? && Owns(TwoCoders(5), r, 1) && !r.st.stop && r.burned == None
  {
    var w := SecondWakes();
    r := Step(TwoCoders(5), w, GiveUp(1));
  }

  // ----------------------------------------------------- burning out after finishing

  lemma OnceEnds(required: nat) returns (r: World)
    requires required > 0
    ensures Scene(TwoCoders(required), r, 2, Served(1, 1, 0, 0, 11),
                  Newcomer(2), Dongle(false, 0), 1,
                  Releasing(2), Idle, None, Some(0))
    ensures r.starts == [Start(0, 1)]
  {
    var a := TwoCoders(required);
    r := FirstCompiles(required);
    r := Step(a, r, Tick(2));
    r := Step(a, r, EndCompile(0));
  }

  lemma OnceGivesBack(required: nat) returns (r: World)
    requires required > 0
    ensures Scene(TwoCoders(required), r, 2, Served(1, 1, 0, 0, 11),
                  Newcomer(2), Dongle(true, 2), 1,
                  Released, Idle, None, None)
    ensures r.starts == [Start(0, 1)]
  {
    var a := TwoCoders(required);
    r := OnceEnds(required);
    r := Step(a, r, GiveBack(0));
  }

  lemma OnceReleases(required: nat) returns (r: World)
    requires required > 0
    ensures Scene(TwoCoders(required), r, 2, Served(1, 1, 0, 0, 11),
                  Newcomer(2), Dongle(true, 2), 1,
                  Counting, Idle, None, None)
    ensures r.starts == [Start(0, 1)]
  {
    var a := TwoCoders(required);
    r := OnceGivesBack(required);
    r := Step(a, r, PassCompiled(0));
  }

  lemma OnceFinishes(required: nat) returns (r: World)
    requires required > 0
    ensures Scene(TwoCoders(required), r, 2, Served(1, 1, 1, 0, 11),
                  Newcomer(2), Dongle(true, 2), 1,
                  Debugging(2), Idle, None, None)
    ensures r.starts == [Start(0, 1)]
  {
    var a := TwoCoders(required);
    r := OnceReleases(required);
    Count(a, r, 0, 1);
    r := Step(a, r, Finish(0));
  }

  lemma OtherDispatches() returns (r: World)
    ensures Scene(TwoCoders(1), r, 2, Served(1, 1, 1, 0, 11),
                  Waiter(2, 1, 0, 1), Dongle(true, 2), 2,
                  Debugging(2), Begun(2), Some(1), None)
  {
    var a := TwoCoders(1);
    r := OnceFinishes(1);
    r := Step(a, r, PassTop(1));
    r := Step(a, r, Enter(1));
    r := Step(a, r, Proceed(1));
  }

  lemma OtherLooks() returns (r: World)
    ensures Scene(TwoCoders(1), r, 2, Served(1, 1, 1, 0, 11),
                  Waiter(2, 1, 0, 1), Dongle(true, 2), 2,
                  Debugging(2), Dispatching(Position(1, false, 2)), Some(1), None)
  {
    r := OtherDispatches();
    r := Step(TwoCoders(1), r, Skip(1, At(0, 2)));
  }

  lemma OtherIsGranted() returns (r: World)
    ensures Scene(TwoCoders(1), r, 2, Served(1, 1, 1, 0, 11),
                  Served(2, 2, 0, 1, 11), Dongle(false, 2), 2,
                  Debugging(2), Begun(2), Some(1), Some(1))
  {
    var a := TwoCoders(1);
    r := OtherLooks();
    r := Step(a, r, Award(1, At(1, 2)));
  }

  lemma OtherCompiles() returns (r: World)
    ensures Scene(TwoCoders(1), r, 2, Served(1, 1, 1, 0, 11),
                  Served(2, 2, 0, 1, 11), Dongle(false, 2), 2,
                  Debugging(2), Compiling(3), None, Some(1))
  {
    var a := TwoCoders(1);
    r := OtherIsGranted();
    r := PassOnce(a, r, 1);
    r := Step(a, r, Return(1));
  }

  lemma OtherEnds() returns (r: World)
    ensures Scene(TwoCoders(1), r, 11, Served(1, 1, 1, 0, 11),
                  Served(2, 2, 0, 1, 11), Dongle(false, 2), 2,
                  Debugging(2), Releasing(11), None, Some(1))
  {
    var a := TwoCoders(1);
    r := OtherCompiles();
    r := Step(a, r, Tick(11));
    r := Step(a, r, EndCompile(1));
  }

  lemma OtherReleases() returns (r: World)
    ensures Scene(TwoCoders(1), r, 11, Served(1, 1, 1, 0, 11),
                  Served(2, 2, 0, 1, 11), Dongle(true, 11), 2,
                  Debugging(2), Counting, None, None)
  {
    var a := TwoCoders(1);
    r := OtherEnds();
    r := Step(a, r, GiveBack(1));
    r := Step(a, r, PassCompiled(1));
  }

  lemma EveryoneFinishes() returns (r: World)
    ensures Reachable(TwoCoders(1), r) && Sized(TwoCoders(1), r) && AllFinished(TwoCoders(1), r.st)
    ensures r.now == 11 && r.mutex == None && r.monitor == Scanning && !r.st.stop && r.reports == 1
    ensures r.st.coders[0].lastStart == 1
  {
    var w := OtherReleases();
    r := Step(TwoCoders(1), w, Finish(1));
  }

  /** The burnout line can be written after every coder has completed all its compiles and
      completion has been reported, for a coder that finished long before. */
  lemma FinishedCoderCanBurnOut() returns (r: World)
    ensures Reachable(TwoCoders(1), r) && Sized(TwoCoders(1), r)
    ensures AllFinished(TwoCoders(1), r.st) && r.reports == 1 && r.burned == Some(Start(0, 11))
  {
    var a := TwoCoders(1);
    var w := EveryoneFinishes();
    w := Step(a, w, Accuse(0));
    w := Step(a, w, Convict);
    r := Step(a, w, WriteVerdict);
  }

  // ------------------------------------------------------- a start past the deadline

  lemma OnceRests() returns (r: World)
    ensures Scene(TwoCoders(5), r, 2, Served(1, 1, 1, 0, 11),
                  Newcomer(2), Dongle(true, 2), 1,
                  Idle, Idle, None, None)
    ensures r.starts == [Start(0, 1)]
  {
    var a := TwoCoders(5);
    r := OnceFinishes(5);
    r := Step(a, r, EndDebug(0));
    r := Step(a, r, EndRefactor(0));
  }

  lemma AgainEnters() returns (r: World)
    ensures Scene(TwoCoders(5), r, 10, Waiter(1, 1, 1, 1),
                  Newcomer(2), Dongle(true, 2), 2,
                  Looping, Idle, Some(0), None)
    ensures r.starts == [Start(0, 1)]
  {
    var a := TwoCoders(5);
    r := OnceRests();
    r := Step(a, r, PassTop(0));
    r := Step(a, r, Tick(10));
    r := Step(a, r, Enter(0));
  }

  /** Two starts of one coder can be time_to_burnout apart with no burnout written: the clock
      moves between the test of the deadline and the start. By StartsArePunctual this takes a
      grant during which the clock moves, and the gap exceeds the deadline by less than that. */
  lemma StartCanMissDeadline() returns (w: World, g: Grant, r: World)
    ensures Reachable(TwoCoders(5), w) && Sized(TwoCoders(5), w) && Enabled(TwoCoders(5), w, Award(0, g))
    ensures g.start == g.deadlineRead + 1 && r == Apply(TwoCoders(5), w, Award(0, g))
    ensures r.starts == [Start(0, 1), Start(0, 1 + TwoCoders(5).burnout)]
    ensures !r.st.stop && r.burned == None && r.monitor.Scanning?
  {
    var a := TwoCoders(5);
    w := AgainEnters();
    w := Step(a, w, Proceed(0));
    g := Grant(0, 10, 10, 10, 11);
    r := Apply(a, w, Award(0, g));
  }

  // ---------------------------------------------------- an expired waiter in the way

  lemma AgainDispatches() returns (r: World)
    ensures Scene(TwoCoders(5), r, 5, Waiter(1, 1, 1, 1),
                  Newcomer(2), Dongle(true, 2), 2,
                  Begun(5), Idle, Some(0), None)
  {
    var a := TwoCoders(5);
    r := OnceRests();
    r := Step(a, r, PassTop(0));
    r := Step(a, r, Tick(5));
    r := Step(a, r, Enter(0));
    r := Step(a, r, Proceed(0));
  }

  lemma AgainIsGranted() returns (r: World)
    ensures Scene(TwoCoders(5), r, 5, Served(1, 5, 1, 1, 11),
                  Newcomer(2), Dongle(false, 2), 2,
                  Begun(5), Idle, Some(0), Some(0))
  {
    var a := TwoCoders(5);
    r := AgainDispatches();
    r := Step(a, r, Award(0, At(0, 5)));
    r := Step(a, r, Skip(0, At(1, 5)));
  }

  lemma AgainCompiles() returns (r: World)
    ensures Scene(TwoCoders(5), r, 5, Served(1, 5, 1, 1, 11),
                  Newcomer(2), Dongle(false, 2), 2,
                  Compiling(6), Idle, None, Some(0))
  {
    var a := TwoCoders(5);
    r := AgainIsGranted();
    r := PassOnce(a, r, 0);
    r := Step(a, r, Return(0));
  }

  lemma LateRegisters() returns (r: World)
    ensures Scene(TwoCoders(5), r, 5, Served(1, 5, 1, 1, 11),
                  Waiter(2, 1, 0, 2), Dongle(false, 2), 3,
                  Compiling(6), Looping, Some(1), Some(0))
  {
    var a := TwoCoders(5);
    r := AgainCompiles();
    r := Step(a, r, PassTop(1));
    r := Step(a, r, Enter(1));
  }

  lemma LateScans() returns (r: World)
    ensures Scene(TwoCoders(5), r, 5, Served(1, 5, 1, 1, 11),
                  Waiter(2, 1, 0, 2), Dongle(false, 2), 3,
                  Compiling(6), Through(5), Some(1), Some(0))
  {
    var a := TwoCoders(5);
    r := LateRegisters();
    r := Step(a, r, Proceed(1));
    r := PassOnce(a, r, 1);
  }

  lemma LateSleeps() returns (r: World)
    ensures Scene(TwoCoders(5), r, 6, Served(1, 5, 1, 1, 11),
                  Waiter(2, 1, 0, 2), Dongle(false, 2), 3,
                  Compiling(6), Asleep(5, 5, 5, 11, false), None, Some(0))
  {
    var a := TwoCoders(5);
    r := LateScans();
    r := Step(a, r, Sleep(1, 5, 5));
    r := Step(a, r, Tick(6));
  }

  lemma AgainGivesBack() returns (r: World)
    ensures Scene(TwoCoders(5), r, 6, Served(1, 5, 1, 1, 11),
                  Waiter(2, 1, 0, 2), Dongle(true, 6), 3,
                  Released, Asleep(5, 5, 5, 11, true), None, None)
  {
    var a := TwoCoders(5);
    r := LateSleeps();
    r := Step(a, r, EndCompile(0));
    r := Step(a, r, GiveBack(0));
  }

  lemma AgainReleases() returns (r: World)
    ensures Scene(TwoCoders(5), r, 6, Served(1, 5, 1, 1, 11),
                  Waiter(2, 1, 0, 2), Dongle(true, 6), 3,
                  Counting, Asleep(5, 5, 5, 11, true), None, None)
  {
    var a := TwoCoders(5);
    r := AgainGivesBack();
    r := Step(a, r, PassCompiled(0));
  }

  lemma AgainCounts() returns (r: World)
    ensures Scene(TwoCoders(5), r, 6, Served(1, 5, 2, 1, 11),
                  Waiter(2, 1, 0, 2), Dongle(true, 6), 3,
                  Debugging(6), Asleep(5, 5, 5, 11, true), None, None)
  {
    var a := TwoCoders(5);
    r := AgainReleases();
    Count(a, r, 0, 1);
    r := Step(a, r, Finish(0));
  }

  lemma AgainRests() returns (r: World)
    ensures Scene(TwoCoders(5), r, 6, Served(1, 5, 2, 1, 11),
                  Waiter(2, 1, 0, 2), Dongle(true, 6), 3,
                  Idle, Asleep(5, 5, 5, 11, true), None, None)
  {
    var a := TwoCoders(5);
    r := AgainCounts();
    r := Step(a, r, EndDebug(0));
    r := Step(a, r, EndRefactor(0));
  }

  lemma ThirdEnters() returns (r: World)
    ensures Scene(TwoCoders(5), r, 11, Waiter(1, 5, 2, 3),
                  Waiter(2, 1, 0, 2), Dongle(true, 6), 4,
                  Looping, Asleep(5, 5, 5, 11, true), Some(0), None)
  {
    var a := TwoCoders(5);
    r := AgainRests();
    r := Step(a, r, PassTop(0));
    r := Step(a, r, Tick(11));
    r := Step(a, r, Enter(0));
  }

  lemma ThirdScans() returns (r: World)
    ensures Scene(TwoCoders(5), r, 11, Waiter(1, 5, 2, 3),
                  Waiter(2, 1, 0, 2), Dongle(true, 6), 4,
                  Through(11), Asleep(5, 5, 5, 11, true), Some(0), None)
  {
    var a := TwoCoders(5);
    r := ThirdEnters();
    r := Step(a, r, Proceed(0));
    assert Blocks(a, r.st, 1, 0);
    r := PassOnce(a, r, 0);
  }

  lemma ExpiredInTheWay(a: Args, s: State)
    requires a == TwoCoders(5) && Shape(a, s)
    requires s.coders[0] == Waiter(1, 5, 2, 3) && s.coders[1] == Waiter(2, 1, 0, 2)
    requires s.dongles[0] == Dongle(true, 6) && s.dongles[1] == Dongle(true, 6)
    ensures Stable(a, s, 11) && LeftWaiting(a, s, 0, 11) && KeptByExpired(a, s, 0, 11)
  {
    assert Blocks(a, s, 1, 0);
  }

  /** A waiter past its deadline can keep another from being served although nothing is held and
      everything has cooled: the dispatch of the other ends, and it can only go to sleep. */
  lemma ExpiredCoderBlocks() returns (r: World)
    ensures Reachable(TwoCoders(5), r) && Sized(TwoCoders(5), r) && Exhausted(TwoCoders(5), r.pcs[0])
    ensures Stable(TwoCoders(5), r.st, r.now) && LeftWaiting(TwoCoders(5), r.st, 0, r.now)
    ensures forall d: nat :: d < 2 ==> DongleReady(TwoCoders(5), r.st.dongles[d], r.now)
    ensures KeptByExpired(TwoCoders(5), r.st, 0, r.now) && !r.st.stop && r.burned == None
  {
    r := ThirdScans();
    ExpiredInTheWay(TwoCoders(5), r.st);
  }
}
