// The scheduler as the program runs it: coder, dongle and application objects updated in
// place under state_mutex, reading a clock that may advance between any two readings.
// `view` is the guarded state as a value; Valid() ties it to the objects.
module Scheduler {
  import opened Requests
  import opened Ring
  import opened Table
  import opened Options
  import opened Dispatch
  import opened Priority

  /** A call of usleep: when, and for how many milliseconds. */
  datatype Nap = Nap(from: int, ms: nat)

  /** CLOCK_MONOTONIC in milliseconds, and the ways a thread lets it move. `readings`, `naps` and
      `waits` record what was asked of it. */
  class Clock {
    var now: int
    ghost var readings: seq<int>
    ghost var naps: seq<Nap>
    ghost var waits: seq<Option<nat>>

    constructor (start: int)
      ensures now == start && readings == [] && naps == [] && waits == []
    {
      now, readings, naps, waits := start, [], [], [];
    }

    method NowMs() returns (t: int)
      modifies this
      ensures t == now && old(now) <= now
      ensures readings == old(readings) + [t] && naps == old(naps) && waits == old(waits)
    {
      var passed :| 0 <= passed;
      now := now + passed;
      readings := readings + [now];
      t := now;
    }

    /** usleep lets at least that many milliseconds pass. */
    method Usleep(ms: nat)
      modifies this
      ensures now >= old(now) + ms && readings == old(readings) && waits == old(waits)
      ensures naps == old(naps) + [Nap(old(now), ms)]
    {
      var extra :| 0 <= extra;
      naps := naps + [Nap(now, ms)];
      now := now + ms + extra;
    }

    /** Waiting on a condition, with a timer or without: woken early or late, some time passes. */
    method CondWait(timer: Option<nat>)
      modifies this
      ensures old(now) <= now && readings == old(readings) && naps == old(naps)
      ensures waits == old(waits) + [timer]
    {
      var passed :| 0 <= passed;
      now := now + passed;
      waits := waits + [timer];
    }
  }

  datatype Message = TakenDongle | IsCompiling | IsDebugging | IsRefactoring | BurnedOut

  datatype Line = Line(at: int, id: nat, message: Message)

  /** The three lines of each reservation, in the order of the grants. */
  ghost predicate Announces(lines: seq<Line>, gs: seq<Grant>, startTime: int)
    decreases |gs|
  {
    if gs == [] then lines == [] else
      var k := |gs| - 1;
      && 3 <= |lines| && Announces(lines[..|lines| - 3], gs[..k], startTime)
      && Announcement(lines[|lines| - 3..], gs[k].coder, gs[k].start - startTime)
  }

  /** The three lines of coder `i`, none of them earlier than `from`. */
  ghost predicate Announcement(lines: seq<Line>, i: nat, from: int) {
    && |lines| == 3
    && lines[0].id == lines[1].id == lines[2].id == i + 1
    && lines[0].message == lines[1].message == TakenDongle && lines[2].message == IsCompiling
    && from <= lines[0].at <= lines[1].at <= lines[2].at
  }

  lemma AnnouncesSnoc(lines: seq<Line>, gs: seq<Grant>, more: seq<Line>, g: Grant, startTime: int)
    requires Announces(lines, gs, startTime) && Announcement(more, g.coder, g.start - startTime)
    ensures Announces(lines + more, gs + [g], startTime)
  {
    var all := lines + more;
    assert all[..|all| - 3] == lines && all[|all| - 3..] == more;
    assert (gs + [g])[..|gs|] == gs;
  }

  lemma LinesSnoc(output: seq<Line>, base: seq<Line>, lines: seq<Line>, gs: seq<Grant>, g: Grant, startTime: int)
    requires |output| >= 3 && output[..|output| - 3] == base + lines && Announces(lines, gs, startTime)
    requires Announcement(output[|output| - 3..], g.coder, g.start - startTime)
    ensures output[..|base|] == base && Announces(output[|base|..], gs + [g], startTime)
  {
    var more := output[|output| - 3..];
    Spliced(output, base, lines, more);
    AnnouncesSnoc(lines, gs, more, g, startTime);
  }

  lemma Spliced(output: seq<Line>, base: seq<Line>, lines: seq<Line>, more: seq<Line>)
    requires |more| == 3 <= |output| && output[..|output| - 3] == base + lines && output[|output| - 3..] == more
    ensures output[..|base|] == base && output[|base|..] == lines + more
  {
    assert output == output[..|output| - 3] + more;
  }

  lemma ChainSnoc(a: Args, s: State, now: int, gs: seq<Grant>, g: Grant)
    requires Shape(a, s) && Chain(a, s, now, gs) && Allowed(a, Dispatch.After(a, s, gs), Dispatch.Clock(now, gs), g)
    ensures Chain(a, s, now, gs + [g])
    ensures Dispatch.After(a, s, gs + [g]) == Reserve(a, Dispatch.After(a, s, gs), g.coder, g.start)
  {
    assert (gs + [g])[..|gs|] == gs;
  }

  lemma OneMorePassed(a: Args, s: State, m: nat, from: int, reached: int, now: int)
    requires Shape(a, s) && m < a.n && from <= reached <= now && PassedOver(a, s, m, from, reached)
    requires ReadyAndBest(a, s, m, reached) ==> !Unexpired(a, s, m, now)
    ensures PassedOver(a, s, m + 1, from, now)
  {
  }

  lemma NobodyEligible(a: Args, s: State, now: int)
    requires Shape(a, s) && PassedOver(a, s, a.n, now, now)
    ensures Stable(a, s, now)
  {
  }

  class Dongle {
    var available: bool
    var releasedAt: int

    constructor ()
      ensures available && releasedAt == 0
    {
      available, releasedAt := true, 0;
    }

    function Value(): Table.Dongle
      reads this
    {
      Table.Dongle(available, releasedAt)
    }
  }

  class Coder {
    const id: nat
    var lastCompileStart: int
    var compilesDone: nat
    var request: Request
    var waiting: bool
    var granted: bool
    var left: Dongle?
    var right: Dongle?

    constructor (id: nat)
      ensures this.id == id && left == null && right == null
      ensures Value() == Table.Coder(0, 0, Request(id, 0, 0), false, false)
    {
      this.id := id;
      lastCompileStart, compilesDone := 0, 0;
      request := Request(id, 0, 0);
      waiting, granted := false, false;
      left, right := null, null;
    }

    function Value(): Table.Coder
      reads this
    {
      Table.Coder(lastCompileStart, compilesDone, request, waiting, granted)
    }
  }

  class App {
    const args: Args
    const clock: Clock
    const coders: seq<Coder>
    const dongles: seq<Dongle>
    var nextSequence: nat
    var simulationStop: bool
    var simulationStarted: bool
    var startTime: int
    var output: seq<Line>
    ghost var view: State
    /** How often stop_cond has been broadcast. */
    ghost var signals: nat

    /** init_dongles, init_coders and link_dongles. */
    constructor (args: Args, clock: Clock)
      requires 1 <= args.n
      ensures this.args == args && this.clock == clock
      ensures Valid() && fresh(coders) && fresh(dongles)
      ensures forall i: nat :: i < args.n ==> view.coders[i] == Table.Coder(0, 0, Request(i + 1, 0, 0), false, false)
      ensures forall d: nat :: d < args.n ==> view.dongles[d] == Table.Dongle(true, 0)
      ensures view.nextSequence == 0 && !view.stop && !simulationStarted && output == [] && signals == 0
    {
      var ds: seq<Dongle> := [];
      var cs: seq<Coder> := [];
      while |ds| < args.n
        invariant |ds| <= args.n
        invariant forall i :: 0 <= i < |ds| ==> fresh(ds[i]) && ds[i].Value() == Table.Dongle(true, 0)
        invariant forall i, j :: 0 <= i < j < |ds| ==> ds[i] != ds[j]
      {
        var dongle := new Dongle();
        ds := ds + [dongle];
      }
      while |cs| < args.n
        invariant |cs| <= args.n == |ds|
        invariant forall i :: 0 <= i < |ds| ==> fresh(ds[i]) && ds[i].Value() == Table.Dongle(true, 0)
        invariant forall i :: 0 <= i < |cs| ==> fresh(cs[i]) && cs[i].id == i + 1
        invariant forall i :: 0 <= i < |cs| ==> cs[i].Value() == Table.Coder(0, 0, Request(i + 1, 0, 0), false, false)
        invariant forall i, j :: 0 <= i < j < |cs| ==> cs[i] != cs[j]
      {
        var coder := new Coder(|cs| + 1);
        cs := cs + [coder];
      }
      this.args, this.clock, coders, dongles := args, clock, cs, ds;
      nextSequence, simulationStop, simulationStarted, startTime := 0, false, false, 0;
      output, signals := [], 0;
      view := State(seq(args.n, i requires 0 <= i < args.n => Table.Coder(0, 0, Request(i + 1, 0, 0), false, false)),
                    seq(args.n, _ => Table.Dongle(true, 0)), 0, false);
      new;
      LinkDongles();
    }

    ghost predicate Matches(i: nat)
      reads this`view, coders, dongles
    {
      && |view.coders| == |view.dongles| == |coders| == |dongles|
      && i < |coders|
      && coders[i].id == i + 1 && coders[i].Value() == view.coders[i]
      && dongles[i].Value() == view.dongles[i]
    }

    ghost predicate Linked(i: nat)
      reads coders
      requires i < |coders| == |dongles|
    {
      coders[i].left == dongles[i] && coders[i].right == dongles[Next(i, |coders|)]
    }

    /** All but the links from the coders to their dongles. */
    ghost predicate Assembled()
      reads this`view, this`nextSequence, this`simulationStop, coders, dongles
    {
      && |coders| == |dongles| == args.n && Shape(args, view)
      && (forall i: nat, j: nat :: i < j < args.n ==> coders[i] != coders[j] && dongles[i] != dongles[j])
      && (forall i: nat :: i < args.n ==> Matches(i))
      && view.nextSequence == nextSequence && view.stop == simulationStop
    }

    ghost predicate Valid()
      reads this`view, this`nextSequence, this`simulationStop, coders, dongles
    {
      Assembled() && forall i: nat :: i < args.n ==> Linked(i)
    }

    method LinkDongles()
      requires Assembled()
      modifies coders
      ensures Valid() && clock.now == old(clock.now)
      ensures forall k: nat :: k < args.n ==>
                coders[k].left == dongles[k] && coders[k].right == dongles[(k + 1) % args.n]
    {
      var i, n := 0, args.n;
      while i < n
        invariant 0 <= i <= n && Assembled() && clock.now == old(clock.now)
        invariant forall k: nat :: k < i ==> Linked(k)
      {
        NextIsModulo(i, n);
        label before:
        coders[i].left := dongles[i];
        coders[i].right := dongles[(i + 1) % n];
        forall k: nat | k < n ensures Matches(k) && (k <= i ==> Linked(k)) {
          assert old@before(Matches(k)) && (k < i ==> old@before(Linked(k)));
          assert k != i ==> coders[k] != coders[i];
        }
        i := i + 1;
      }
      forall k: nat | k < n ensures coders[k].left == dongles[k] && coders[k].right == dongles[(k + 1) % n] {
        assert Linked(k);
        NextIsModulo(k, n);
      }
    }

    // ------------------------------------------------------------------ eligibility

    method DongleReady(dongle: Dongle) returns (ready: bool, ghost at: int)
      modifies clock
      ensures old(clock.now) <= at <= clock.now
      ensures ready <==> Table.DongleReady(args, dongle.Value(), at)
      ensures !ready ==> !Table.DongleReady(args, dongle.Value(), old(clock.now))
    {
      var readyAt := dongle.releasedAt + args.cooldown;
      ready, at := false, clock.now;
      if dongle.available {
        var t := clock.NowMs();
        ready, at := t >= readyAt, t;
      }
    }

    method SchedulerPairReady(i: nat) returns (ready: bool, ghost leftRead: int, ghost rightRead: int)
      requires Valid() && i < args.n
      modifies clock
      ensures Valid() && old(clock.now) <= leftRead <= rightRead <= clock.now
      ensures ready <==> Table.DongleReady(args, view.dongles[i], leftRead)
                         && Table.DongleReady(args, view.dongles[Next(i, args.n)], rightRead)
      ensures !ready ==> !PairReady(args, view, i, old(clock.now))
    {
      assert Matches(i) && Matches(Next(i, args.n)) && Linked(i);
      ready, leftRead := DongleReady(coders[i].left);
      rightRead := leftRead;
      if ready {
        ready, rightRead := DongleReady(coders[i].right);
      }
    }

    predicate RequestsOverlap(a: Coder, b: Coder)
      reads a, b
    {
      a.left == b.left || a.left == b.right || a.right == b.left || a.right == b.right
    }

    predicate PairIsAvailable(c: Coder)
      requires c.left != null && c.right != null
      reads c, c.left, c.right
    {
      c.left.available && c.right.available
    }

    lemma PointersTell(i: nat, j: nat)
      requires Valid() && i < args.n && j < args.n
      ensures RequestsOverlap(coders[j], coders[i]) <==> Overlap(j, i, args.n)
      ensures coders[j].left != null && coders[j].right != null
      ensures PairIsAvailable(coders[j]) <==> PairAvailable(args, view, j)
      ensures coders[i] == coders[j] <==> i == j
    {
      assert Matches(i) && Matches(j) && Matches(Next(j, args.n)) && Linked(i) && Linked(j);
    }

    method SchedulerIsBestReady(i: nat) returns (best: bool)
      requires Valid() && i < args.n
      ensures best <==> IsBest(args, view, i)
    {
      var coder := coders[i];
      var k := 0;
      while k < args.n
        invariant 0 <= k <= args.n
        invariant forall j: nat :: j < k ==> !Blocks(args, view, j, i)
      {
        var other := coders[k];
        PointersTell(i, k);
        assert Matches(i) && Matches(k);
        if other != coder && other.waiting && PairIsAvailable(other)
           && RequestsOverlap(other, coder) && RequestBefore(args.policy, other.request, coder.request) {
          assert Blocks(args, view, k, i);
          return false;
        }
        k := k + 1;
      }
      return true;
    }

    // ---------------------------------------------------------------------- dispatch

    method LogMsgForce(id: nat, message: Message)
      modifies clock, this`output
      ensures old(clock.now) <= clock.now
      ensures output == old(output) + [Line(clock.now - startTime, id, message)]
    {
      var t := clock.NowMs();
      output := output + [Line(t - startTime, id, message)];
    }

    method LogReservation(coder: Coder)
      requires coder.id > 0
      modifies clock, this`output
      ensures old(clock.now) <= clock.now
      ensures |output| == |old(output)| + 3 && output[..|output| - 3] == old(output)
      ensures Announcement(output[|output| - 3..], coder.id - 1, old(clock.now) - startTime)
      ensures var lines := output[|output| - 3..];
        && lines[0] == Line(lines[0].at, coder.id, TakenDongle) && lines[1] == Line(lines[1].at, coder.id, TakenDongle)
        && lines[2] == Line(clock.now - startTime, coder.id, IsCompiling)
    {
      LogMsgForce(coder.id, TakenDongle);
      LogMsgForce(coder.id, TakenDongle);
      LogMsgForce(coder.id, IsCompiling);
    }

    method TakePair(i: nat) returns (ghost start: int)
      requires Valid() && i < args.n
      modifies clock, this`view, coders[i], dongles[i], dongles[Next(i, args.n)]
      ensures Valid() && old(clock.now) <= start == clock.now
      ensures view == Reserve(args, old(view), i, start)
      ensures coders[i].lastCompileStart == start && !coders[i].waiting && coders[i].granted
      ensures !dongles[i].available && !dongles[Next(i, args.n)].available
    {
      var coder := coders[i];
      assert Linked(i) && Matches(i) && Matches(Next(i, args.n));
      coder.left.available := false;
      coder.right.available := false;
      var t := clock.NowMs();
      coder.lastCompileStart := t;
      coder.waiting := false;
      coder.granted := true;
      start := t;
      view := Reserve(args, view, i, t);
      forall k: nat | k < args.n ensures Matches(k) && Linked(k) {
        assert old(Matches(k)) && old(Linked(k));
        assert k != i ==> coders[k] != coders[i] && dongles[k] != dongles[i];
        assert k != Next(i, args.n) ==> dongles[k] != dongles[Next(i, args.n)];
      }
    }

    method ReservePair(i: nat) returns (ghost start: int)
      requires Valid() && i < args.n
      modifies clock, this`view, this`output, coders[i], dongles[i], dongles[Next(i, args.n)]
      ensures Valid() && old(clock.now) <= start <= clock.now
      ensures view == Reserve(args, old(view), i, start)
      ensures |output| == |old(output)| + 3 && output[..|output| - 3] == old(output)
      ensures Announcement(output[|output| - 3..], i, start - startTime)
      ensures output[|output| - 1] == Line(clock.now - startTime, i + 1, IsCompiling)
      ensures coders[i].lastCompileStart == start && !coders[i].waiting && coders[i].granted
      ensures !dongles[i].available && !dongles[Next(i, args.n)].available
    {
      start := TakePair(i);
      assert Matches(i);
      LogReservation(coders[i]);
    }

    /** One test of the scan: coder `i` is served, or it is not served although ready and best
        only because its deadline has passed. */
    method ServeCoder(i: nat) returns (served: bool, ghost g: Grant)
      requires Valid() && i < args.n
      modifies clock, this`view, this`output, coders, dongles
      ensures Valid() && old(clock.now) <= clock.now && g.coder == i && g.start <= clock.now
      ensures served ==>
                && Allowed(args, old(view), old(clock.now), g) && view == Reserve(args, old(view), i, g.start)
                && |output| == |old(output)| + 3 && output[..|output| - 3] == old(output)
                && Announcement(output[|output| - 3..], i, g.start - startTime)
      ensures !served ==>
                && Skipped(args, view, old(clock.now), g) && view == old(view) && output == old(output)
                && (ReadyAndBest(args, view, i, old(clock.now)) ==> !Unexpired(args, view, i, clock.now))
    {
      assert Matches(i);
      served, g := false, Grant(i, clock.now, clock.now, clock.now, clock.now);
      if coders[i].waiting {
        var t := clock.NowMs();
        g := Grant(i, t, t, t, t);
        if t < coders[i].request.deadline {
          ghost var leftRead, rightRead, start;
          var ready, best;
          ready, leftRead, rightRead := SchedulerPairReady(i);
          g := Grant(i, t, leftRead, rightRead, rightRead);
          if ready {
            best := SchedulerIsBestReady(i);
            if best {
              start := ReservePair(i);
              served, g := true, Grant(i, t, leftRead, rightRead, start);
            }
          }
        }
      }
    }

    /** What holds after any part of a dispatch that began in state `first` at time `from`
        with the log at `base`. */
    ghost predicate Dispatched(first: State, from: int, base: seq<Line>, gs: seq<Grant>)
      reads this`view, this`nextSequence, this`simulationStop, this`output, this`startTime, coders, dongles, clock
    {
      && Valid() && Shape(args, first) && Chain(args, first, from, gs)
      && view == Dispatch.After(args, first, gs) && Dispatch.Clock(from, gs) <= clock.now
      && |base| <= |output| && output[..|base|] == base && Announces(output[|base|..], gs, startTime)
    }

    /** The looks of the dispatch so far have led here, coder `i` being next, or to the end of
        the scan when `i` is past the last coder and nobody was served. */
    ghost predicate Traced(first: State, from: int, ls: seq<Look>, i: nat, changed: bool)
      reads this`view, clock
    {
      && Shape(args, first) && Looks(args, FromFirst(first, from), ls)
      && var scan := AfterLooks(args, FromFirst(first, from), ls);
      && scan.st == view && scan.now <= clock.now
      && if i < args.n then scan.at.next == i && scan.at.changed == changed
         else scan.at.next == (if changed then 0 else args.n) && !scan.at.changed
    }

    /** One scan over all coders, in index order. */
    method Scan(ghost first: State, ghost from: int, ghost base: seq<Line>, ghost gs0: seq<Grant>, ghost ls0: seq<Look>)
      returns (changed: bool, ghost gs: seq<Grant>, ghost ls: seq<Look>)
      requires Dispatched(first, from, base, gs0) && Traced(first, from, ls0, 0, false)
      modifies clock, this`view, this`output, coders, dongles
      ensures Dispatched(first, from, base, gs) && old(clock.now) <= clock.now
      ensures Traced(first, from, ls, args.n, changed)
      ensures !changed ==> view == old(view) && PassedOver(args, view, args.n, old(clock.now), clock.now)
      ensures !changed ==> gs == gs0
      ensures changed ==> |Waiters(args, view)| < |Waiters(args, old(view))|
    {
      changed, gs, ls := false, gs0, ls0;
      var i := 0;
      while i < args.n
        invariant 0 <= i <= args.n
        invariant Dispatched(first, from, base, gs) && old(clock.now) <= clock.now
        invariant Traced(first, from, ls, i, changed)
        invariant !changed ==> view == old(view) && PassedOver(args, view, i, old(clock.now), clock.now)
        invariant !changed ==> gs == gs0
        invariant changed ==> |Waiters(args, view)| < |Waiters(args, old(view))|
      {
        var served;
        ghost var reached := clock.now;
        served, gs, ls := ServeNext(i, changed, first, from, base, gs, ls);
        if !changed && !served { OneMorePassed(args, view, i, old(clock.now), reached, clock.now); }
        changed := changed || served;
        i := i + 1;
      }
    }

    method ServeNext(i: nat, ghost changed: bool, ghost first: State, ghost from: int, ghost base: seq<Line>,
                     ghost gs0: seq<Grant>, ghost ls0: seq<Look>)
      returns (served: bool, ghost gs: seq<Grant>, ghost ls: seq<Look>)
      requires Dispatched(first, from, base, gs0) && i < args.n && Traced(first, from, ls0, i, changed)
      modifies clock, this`view, this`output, coders, dongles
      ensures Dispatched(first, from, base, gs) && old(clock.now) <= clock.now
      ensures Traced(first, from, ls, i + 1, changed || served)
      ensures served ==> |Waiters(args, view)| < |Waiters(args, old(view))|
      ensures !served ==> view == old(view) && gs == gs0
      ensures !served && ReadyAndBest(args, view, i, old(clock.now)) ==> !Unexpired(args, view, i, clock.now)
    {
      ghost var was, lines, now := view, output[|base|..], clock.now;
      ghost var g;
      gs := gs0;
      served, g := ServeCoder(i);
      LookTraced(args, FromFirst(first, from), ls0, was, now, Look(g, served));
      ls := ls0 + [Look(g, served)];
      if served {
        FewerWaiters(args, was, i, g.start);
        ChainSnoc(args, first, from, gs, g);
        LinesSnoc(output, base, lines, gs, g, startTime);
        gs := gs + [g];
      }
    }

    method SchedulerDispatch() returns (ghost gs: seq<Grant>, ghost passStart: int, ghost ls: seq<Look>)
      requires Valid()
      modifies clock, this`view, this`output, this`signals, coders, dongles
      // Whatever the clock does, the outcome is a chain of grants, each allowed when made and
      // announced in the log.
      ensures Dispatched(old(view), old(clock.now), old(output), gs)
      // It has looked at the coders in index order, until a whole pass served nobody.
      ensures Traced(old(view), old(clock.now), ls, args.n, false)
      ensures old(clock.now) <= Dispatch.Clock(old(clock.now), gs) <= passStart <= clock.now
      // Whoever was ready and best when the last pass began has been passed over only for
      // being past its deadline.
      ensures forall i: nat :: i < args.n && ReadyAndBest(args, view, i, passStart)
                ==> !Unexpired(args, view, i, clock.now)
      // With the clock standing still the outcome is that of the walk in priority order.
      ensures clock.now == old(clock.now) ==> Stable(args, view, clock.now)
      ensures clock.now == old(clock.now) && Sequenced(args, old(view)) ==>
                view == PriorityDispatch(args, old(view), clock.now)
      ensures signals == old(signals) + 1
    {
      ghost var first, from, base := view, clock.now, output;
      gs, passStart, ls := [], clock.now, [];
      assert output[|base|..] == [];
      var changed := true;
      while changed
        invariant Dispatched(first, from, base, gs) && from <= passStart <= clock.now
        invariant if changed then Traced(first, from, ls, 0, false) else Traced(first, from, ls, args.n, false)
        invariant !changed ==> PassedOver(args, view, args.n, passStart, clock.now)
        invariant !changed ==> Dispatch.Clock(from, gs) <= passStart
        invariant signals == old(signals)
        decreases |Waiters(args, view)|, if changed then 1 else 0
      {
        passStart := clock.now;
        changed, gs, ls := Scan(first, from, base, gs, ls);
      }
      signals := signals + 1;
      ClockAdvances(args, first, from, gs);
      if clock.now == from { FrozenOutcome(args, first, from, gs, passStart); }
    }
  }

  lemma FrozenOutcome(a: Args, first: State, now: int, gs: seq<Grant>, passStart: int)
    requires Shape(a, first) && Chain(a, first, now, gs) && Dispatch.Clock(now, gs) <= now && passStart == now
    requires PassedOver(a, Dispatch.After(a, first, gs), a.n, passStart, now)
    ensures Stable(a, Dispatch.After(a, first, gs), now)
    ensures Sequenced(a, first) ==> Dispatch.After(a, first, gs) == PriorityDispatch(a, first, now)
  {
    NobodyEligible(a, Dispatch.After(a, first, gs), now);
    if Sequenced(a, first) {
      FrozenClock(a, first, now, gs, now);
      DispatchFollowsPriority(a, first, now, gs);
    }
  }

  /** Where every dispatch begins. */
  function FromFirst(first: State, from: int): Dispatch.Scan {
    Dispatch.Scan(first, from, Position(0, false, from))
  }

  lemma LookTraced(a: Args, scan: Dispatch.Scan, ls: seq<Look>, st: State, now: int, l: Look)
    requires Shape(a, scan.st) && Looks(a, scan, ls)
    requires var r := AfterLooks(a, scan, ls); r.st == st && r.now <= now && r.at.next == l.g.coder < a.n
    requires if l.served then Allowed(a, st, now, l.g) else Skipped(a, st, now, l.g)
    ensures Looks(a, scan, ls + [l])
    ensures AfterLooks(a, scan, ls + [l]) == AfterLook(a, AfterLooks(a, scan, ls), l)
  {
    LooksSnoc(a, scan, ls, l);
  }

  lemma NextIsModulo(i: nat, n: nat)
    requires i < n
    ensures Next(i, n) == (i + 1) % n
  {
  }

  lemma FrozenClock(a: Args, s: State, from: int, gs: seq<Grant>, now: int)
    requires Shape(a, s) && Chain(a, s, from, gs) && Dispatch.Clock(from, gs) <= now == from
    ensures Dispatch.Clock(from, gs) == from
  {
    ClockAdvances(a, s, from, gs);
  }
}
