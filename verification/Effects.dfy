// What single steps of the state machine come to, said without the functions that compute them.
module Effects {
  import opened Requests
  import opened Ring
  import opened Table
  import opened Runs
  import opened Options

  // ----------------------------------------------------------------- releasing and cooling

  /** A pair put down at time `at` is ready from one cooldown after that time on, not earlier and
      not later; the other dongles are as they were. */
  lemma ReleasedPairCools(a: Args, w: World, i: nat, t: int)
    requires Sized(a, w) && Enabled(a, w, GiveBack(i))
    ensures var r := Apply(a, w, GiveBack(i));
      && (PairReady(a, r.st, i, t) <==> w.pcs[i].at + a.cooldown <= t)
      && (forall d: nat :: d < a.n && d !in Pair(i, a.n) ==> r.st.dongles[d] == w.st.dongles[d])
      && r.st.coders == w.st.coders
  {
  }

  /** The time at which a pair has cooled is the first at which it is ready. */
  lemma CooledIsReady(a: Args, s: State, i: nat, t: int)
    requires Shape(a, s) && i < a.n && PairAvailable(a, s, i)
    ensures PairReady(a, s, i, t) <==> CooledAt(a, s, i) <= t
    ensures CooledAt(a, s, i) in {s.dongles[i].releasedAt + a.cooldown, s.dongles[Next(i, a.n)].releasedAt + a.cooldown}
  {
  }

  // ------------------------------------------------------------------- requests and leaving

  /** A request carries the next number and the deadline of the coder's last start; the coder waits
      ungranted, and nobody else notices. */
  lemma EnteringRegisters(a: Args, w: World, i: nat)
    requires Sized(a, w) && Enabled(a, w, Enter(i))
    ensures var r := Apply(a, w, Enter(i));
      && r.st.coders[i].request == Request(i + 1, w.st.nextSequence, w.st.coders[i].lastStart + a.burnout)
      && r.st.coders[i].waiting && !r.st.coders[i].granted && r.st.nextSequence == w.st.nextSequence + 1
      && r.st.coders[i].lastStart == w.st.coders[i].lastStart && r.st.coders[i].done == w.st.coders[i].done
      && (forall k: nat :: k < a.n && k != i ==> r.st.coders[k] == w.st.coders[k])
      && r.st.dongles == w.st.dongles && r.st.stop == w.st.stop
  {
  }

  /** Giving up, a coder neither waits nor counts as granted, and takes nothing along in the table. */
  lemma GivingUpClears(a: Args, w: World, i: nat)
    requires Sized(a, w) && Enabled(a, w, GiveUp(i))
    ensures var r := Apply(a, w, GiveUp(i));
      && !r.st.coders[i].waiting && !r.st.coders[i].granted
      && r.st.coders[i].request == w.st.coders[i].request && r.st.coders[i].lastStart == w.st.coders[i].lastStart
      && (forall k: nat :: k < a.n && k != i ==> r.st.coders[k] == w.st.coders[k])
      && r.st.dongles == w.st.dongles && r.st.nextSequence == w.st.nextSequence && r.st.stop == w.st.stop
  {
  }

  function IfEnters(e: Event): nat {
    if e.Enter? then 1 else 0
  }

  /** How many requests have been registered. */
  function Registrations(es: seq<Event>): nat {
    if es == [] then 0 else Registrations(es[..|es| - 1]) + IfEnters(es[|es| - 1])
  }

  lemma NumberingStep(a: Args, w: World, e: Event)
    requires Sized(a, w) && Enabled(a, w, e)
    ensures Apply(a, w, e).st.nextSequence == w.st.nextSequence + IfEnters(e)
  {
  }

  /** In every run requests are numbered from zero in the order of their registration. */
  lemma {:induction false} RequestsAreNumbered(a: Args, t: int, es: seq<Event>)
    requires 2 <= a.n && Legal(a, Init(a, t), es)
    ensures Reach(a, Init(a, t), es).st.nextSequence == Registrations(es)
    decreases |es|
  {
    if es != [] {
      var k := |es| - 1;
      RequestsAreNumbered(a, t, es[..k]);
      NumberingStep(a, Reach(a, Init(a, t), es[..k]), es[k]);
    }
  }

  // ------------------------------------------------------------------ monitor and completion

  /** The monitor can accuse a coder exactly when it has a start to look at and time_to_burnout has
      passed since. */
  lemma AccusedExactly(a: Args, w: World, i: nat)
    requires Sized(a, w) && w.monitor.Scanning? && w.mutex == None && i < a.n
    ensures Enabled(a, w, Accuse(i)) <==>
              0 < w.st.coders[i].lastStart && w.st.coders[i].lastStart + a.burnout <= w.now
  {
  }

  /** Counting a compile reports completion exactly when a number is required and the count brings
      everybody to it; otherwise the coder goes on to debug. */
  lemma CompletionIsReported(a: Args, w: World, i: nat)
    requires Sized(a, w) && Enabled(a, w, Finish(i))
    ensures var r := Apply(a, w, Finish(i));
      var complete := a.required > 0 && w.st.coders[i].done + 1 >= a.required
                      && forall k: nat :: k < a.n && k != i ==> w.st.coders[k].done >= a.required;
      && r.st.coders[i].done == w.st.coders[i].done + 1
      && (if complete then r.reports == w.reports + 1 && r.pcs[i] == Reporting
          else r.reports == w.reports && r.pcs[i] == Debugging(w.now + a.debug))
  {
    var st := CountCompile(a, w.st, i);
    assert st.coders[i].done == w.st.coders[i].done + 1;
    assert forall k: nat :: k < a.n && k != i ==> st.coders[k] == w.st.coders[k];
  }
}
