// The requests coders submit, and the order in which the scheduler serves them.
module Requests {

  datatype Policy = Fifo | Edf

  /** `coder` is the identifier of the requesting coder (its index plus one). */
  datatype Request = Request(coder: nat, sequence: nat, deadline: int)

  predicate RequestBefore(policy: Policy, a: Request, b: Request) {
    if policy == Fifo then a.sequence < b.sequence
    else if a.deadline != b.deadline then a.deadline < b.deadline
    else if a.sequence != b.sequence then a.sequence < b.sequence
    else a.coder < b.coder
  }

  /** `b` does not have to be served before `a`. */
  predicate NoLater(policy: Policy, a: Request, b: Request) {
    !RequestBefore(policy, b, a)
  }

  lemma BeforeIsStrictOrder(policy: Policy, a: Request, b: Request, c: Request)
    ensures !RequestBefore(policy, a, a)
    ensures RequestBefore(policy, a, b) ==> !RequestBefore(policy, b, a)
    ensures RequestBefore(policy, a, b) && RequestBefore(policy, b, c) ==> RequestBefore(policy, a, c)
    ensures a.sequence != b.sequence ==> RequestBefore(policy, a, b) || RequestBefore(policy, b, a)
  {
  }

  /** Without any assumption on the requests the order is total up to ties. */
  lemma NoLaterIsTotalPreorder(policy: Policy, a: Request, b: Request, c: Request)
    ensures NoLater(policy, a, b) || NoLater(policy, b, a)
    ensures NoLater(policy, a, b) && NoLater(policy, b, c) ==> NoLater(policy, a, c)
  {
  }

  /** What each policy goes by, the most important first. */
  function Key(policy: Policy, r: Request): seq<int> {
    if policy == Fifo then [r.sequence] else [r.deadline, r.sequence, r.coder]
  }

  /** The order of a dictionary on sequences of the same length. */
  predicate Lower(x: seq<int>, y: seq<int>)
    requires |x| == |y|
  {
    x != [] && (x[0] < y[0] || (x[0] == y[0] && Lower(x[1..], y[1..])))
  }

  lemma LowerCons(a: int, x: seq<int>, b: int, y: seq<int>)
    requires |x| == |y|
    ensures Lower([a] + x, [b] + y) <==> a < b || (a == b && Lower(x, y))
  {
    assert ([a] + x)[1..] == x && ([b] + y)[1..] == y;
  }

  /** Requests are served in the order of their keys: FIFO by number, EDF by deadline, then
      number, then coder. */
  lemma OrderIsLexicographic(policy: Policy, a: Request, b: Request)
    ensures RequestBefore(policy, a, b) <==> Lower(Key(policy, a), Key(policy, b))
  {
    if policy == Fifo {
      LowerCons(a.sequence, [], b.sequence, []);
      assert [a.sequence] + [] == [a.sequence] && [b.sequence] + [] == [b.sequence];
    } else {
      LowerCons(a.coder, [], b.coder, []);
      assert [a.coder] + [] == [a.coder] && [b.coder] + [] == [b.coder];
      LowerCons(a.sequence, [a.coder], b.sequence, [b.coder]);
      LowerCons(a.deadline, [a.sequence, a.coder], b.deadline, [b.sequence, b.coder]);
      assert [a.sequence] + [a.coder] == [a.sequence, a.coder] && [b.sequence] + [b.coder] == [b.sequence, b.coder];
      assert Key(policy, a) == [a.deadline] + [a.sequence, a.coder];
      assert Key(policy, b) == [b.deadline] + [b.sequence, b.coder];
    }
  }

  /** EDF separates any two different requests; FIFO separates them exactly when their
      sequence numbers differ. */
  lemma OrderSeparates(policy: Policy, a: Request, b: Request)
    ensures policy == Edf ==>
              (RequestBefore(policy, a, b) || RequestBefore(policy, b, a) <==> a != b)
    ensures policy == Fifo ==>
              (RequestBefore(policy, a, b) || RequestBefore(policy, b, a) <==> a.sequence != b.sequence)
  {
  }
}
