// The shared state guarded by state_mutex, as a value, and what each critical section
// does to it.
module Table {
  import opened Requests
  import opened Ring

  /** The command line, times in milliseconds. */
  datatype Args = Args(n: nat, burnout: nat, compile: nat, debug: nat, refactor: nat,
                       required: nat, cooldown: nat, policy: Policy)

  datatype Dongle = Dongle(available: bool, releasedAt: int)

  datatype Coder = Coder(lastStart: int, done: nat, request: Request, waiting: bool, granted: bool)

  datatype State = State(coders: seq<Coder>, dongles: seq<Dongle>, nextSequence: nat, stop: bool)

  predicate Shape(a: Args, s: State) {
    && 1 <= a.n == |s.coders| == |s.dongles|
    && forall i: nat :: i < a.n ==> s.coders[i].request.coder == i + 1
  }

  /** Waiting requests carry distinct sequence numbers already handed out. */
  ghost predicate Sequenced(a: Args, s: State)
    requires Shape(a, s)
  {
    && (forall i: nat :: i < a.n && s.coders[i].waiting ==> s.coders[i].request.sequence < s.nextSequence)
    && (forall i: nat, j: nat :: i < a.n && j < a.n && i != j && s.coders[i].waiting && s.coders[j].waiting
          ==> s.coders[i].request.sequence != s.coders[j].request.sequence)
  }

  predicate Waiting(a: Args, s: State, i: nat)
    requires Shape(a, s)
  {
    i < a.n && s.coders[i].waiting
  }

  predicate Before(a: Args, s: State, i: nat, j: nat)
    requires Shape(a, s) && i < a.n && j < a.n
  {
    RequestBefore(a.policy, s.coders[i].request, s.coders[j].request)
  }

  predicate DongleReady(a: Args, d: Dongle, now: int) {
    d.available && d.releasedAt + a.cooldown <= now
  }

  predicate PairReady(a: Args, s: State, i: nat, now: int)
    requires Shape(a, s) && i < a.n
  {
    DongleReady(a, s.dongles[i], now) && DongleReady(a, s.dongles[Next(i, a.n)], now)
  }

  predicate PairAvailable(a: Args, s: State, i: nat)
    requires Shape(a, s) && i < a.n
  {
    s.dongles[i].available && s.dongles[Next(i, a.n)].available
  }

  predicate Unexpired(a: Args, s: State, i: nat, now: int)
    requires Shape(a, s) && i < a.n
  {
    now < s.coders[i].request.deadline
  }

  /** Coder `j` keeps coder `i` from being served: it waits, could still get both its
      dongles, needs one of `i`'s, and precedes `i`. Its own deadline does not matter. */
  predicate Blocks(a: Args, s: State, j: nat, i: nat)
    requires Shape(a, s) && i < a.n && j < a.n
  {
    j != i && s.coders[j].waiting && PairAvailable(a, s, j) && Overlap(j, i, a.n) && Before(a, s, j, i)
  }

  predicate IsBest(a: Args, s: State, i: nat)
    requires Shape(a, s) && i < a.n
  {
    forall j: nat :: j < a.n ==> !Blocks(a, s, j, i)
  }

  predicate ReadyAndBest(a: Args, s: State, i: nat, now: int)
    requires Shape(a, s)
  {
    Waiting(a, s, i) && PairReady(a, s, i, now) && IsBest(a, s, i)
  }

  predicate Eligible(a: Args, s: State, i: nat, now: int)
    requires Shape(a, s)
  {
    ReadyAndBest(a, s, i, now) && Unexpired(a, s, i, now)
  }

  /** Nothing is left to grant at time `now`. */
  ghost predicate Stable(a: Args, s: State, now: int)
    requires Shape(a, s)
  {
    forall i: nat :: i < a.n ==> !Eligible(a, s, i, now)
  }

  /** time_to_burnout has passed since the coder last started to compile. */
  predicate Late(a: Args, s: State, i: nat, now: int)
    requires Shape(a, s)
  {
    i < a.n && s.coders[i].lastStart + a.burnout <= now
  }

  /** At time `now` the monitor finds the coder past its deadline. */
  predicate Overdue(a: Args, s: State, i: nat, now: int)
    requires Shape(a, s)
  {
    Late(a, s, i, now) && 0 < s.coders[i].lastStart
  }

  /** The first `m` coders, as far as they were ready and best at time `from`, are past their
      deadline at time `now`. */
  ghost predicate PassedOver(a: Args, s: State, m: nat, from: int, now: int)
    requires Shape(a, s) && m <= a.n
  {
    forall i: nat :: i < m && ReadyAndBest(a, s, i, from) ==> !Unexpired(a, s, i, now)
  }

  function SetPair(ds: seq<Dongle>, i: nat, d: Dongle, e: Dongle): (r: seq<Dongle>)
    requires i < |ds|
    ensures |r| == |ds|
  {
    ds[i := d][Next(i, |ds|) := e]
  }

  function Taken(d: Dongle): Dongle { d.(available := false) }

  function Reserve(a: Args, s: State, i: nat, now: int): (r: State)
    requires Shape(a, s) && i < a.n
    ensures Shape(a, r)
  {
    s.(coders := s.coders[i := s.coders[i].(lastStart := now, waiting := false, granted := true)],
       dongles := SetPair(s.dongles, i, Taken(s.dongles[i]), Taken(s.dongles[Next(i, a.n)])))
  }

  ghost function Waiters(a: Args, s: State): set<nat>
    requires Shape(a, s)
  {
    set i: nat | i < a.n && s.coders[i].waiting
  }

  lemma FewerWaiters(a: Args, s: State, i: nat, now: int)
    requires Shape(a, s) && Waiting(a, s, i)
    ensures |Waiters(a, Reserve(a, s, i, now))| < |Waiters(a, s)|
  {
    assert Waiters(a, Reserve(a, s, i, now)) == Waiters(a, s) - {i};
  }

  function Register(a: Args, s: State, i: nat): (r: State)
    requires Shape(a, s) && i < a.n
    ensures Shape(a, r)
  {
    var c := s.coders[i];
    var request := c.request.(sequence := s.nextSequence, deadline := c.lastStart + a.burnout);
    s.(coders := s.coders[i := c.(request := request, waiting := true, granted := false)],
       nextSequence := s.nextSequence + 1)
  }

  /** A coder gives up waiting; whatever it was granted meanwhile stays taken. */
  function Abandon(a: Args, s: State, i: nat): (r: State)
    requires Shape(a, s) && i < a.n
    ensures Shape(a, r)
  {
    s.(coders := s.coders[i := s.coders[i].(waiting := false, granted := false)])
  }

  function Release(a: Args, s: State, i: nat, at: int): (r: State)
    requires Shape(a, s) && i < a.n
    ensures Shape(a, r)
  {
    s.(dongles := SetPair(s.dongles, i, Dongle(true, at), Dongle(true, at)))
  }

  function CountCompile(a: Args, s: State, i: nat): (r: State)
    requires Shape(a, s) && i < a.n
    ensures Shape(a, r)
  {
    s.(coders := s.coders[i := s.coders[i].(done := s.coders[i].done + 1)])
  }

  predicate CoderDone(a: Args, s: State, i: nat)
    requires Shape(a, s) && i < a.n
  {
    a.required > 0 && s.coders[i].done >= a.required
  }

  predicate AllFinished(a: Args, s: State)
    requires Shape(a, s)
  {
    forall i: nat :: i < a.n ==> s.coders[i].done >= a.required
  }
}
