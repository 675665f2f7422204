/** Voting power of a set of validators, and the +2/3 threshold.

    Validators are named by their position in `powers`; a position holding 0 is
    an address that is not in the set at that height. */
module Quorums {

  function Power(powers: seq<nat>, who: set<nat>): nat
  {
    if |powers| == 0 then 0
    else
      var last := |powers| - 1;
      Power(powers[..last], who) + if last in who then powers[last] else 0
  }

  function Total(powers: seq<nat>): nat
  {
    if |powers| == 0 then 0 else Total(powers[..|powers| - 1]) + powers[|powers| - 1]
  }

  /** More than two thirds of the total power. */
  predicate Quorum(powers: seq<nat>, who: set<nat>) {
    3 * Power(powers, who) > 2 * Total(powers)
  }

  lemma {:induction false} PowerMonotone(powers: seq<nat>, a: set<nat>, b: set<nat>)
    requires forall v :: v in a && v < |powers| ==> v in b
    ensures Power(powers, a) <= Power(powers, b)
  {
    if |powers| > 0 {
      PowerMonotone(powers[..|powers| - 1], a, b);
    }
  }

  lemma {:induction false} PowerWithin(powers: seq<nat>, who: set<nat>)
    ensures Power(powers, who) <= Total(powers)
  {
    if |powers| > 0 {
      PowerWithin(powers[..|powers| - 1], who);
    }
  }

  lemma {:induction false} PowerEmpty(powers: seq<nat>)
    ensures Power(powers, {}) == 0
  {
    if |powers| > 0 {
      PowerEmpty(powers[..|powers| - 1]);
    }
  }

  lemma {:induction false} PowerInclusionExclusion(powers: seq<nat>, a: set<nat>, b: set<nat>)
    ensures Power(powers, a + b) + Power(powers, a * b) == Power(powers, a) + Power(powers, b)
  {
    if |powers| > 0 {
      PowerInclusionExclusion(powers[..|powers| - 1], a, b);
    }
  }

  lemma {:induction false} PowerAdd(powers: seq<nat>, who: set<nat>, v: nat)
    requires v < |powers| && v !in who
    ensures Power(powers, who + {v}) == Power(powers, who) + powers[v]
  {
    var last := |powers| - 1;
    if v == last {
      PowerMonotone(powers[..last], who + {v}, who);
      PowerMonotone(powers[..last], who, who + {v});
    } else {
      PowerAdd(powers[..last], who, v);
    }
  }

  /** The code tests `sum >= total*2/3 + 1`; that is the same as 3*sum > 2*total. */
  lemma QuorumThreshold(total: nat, sum: nat)
    ensures sum >= total * 2 / 3 + 1 <==> 3 * sum > 2 * total
    ensures sum > total * 2 / 3 <==> 3 * sum > 2 * total
  {
  }

  /** Two quorums share a validator outside any set of less than a third of the power. */
  lemma QuorumsMeet(powers: seq<nat>, a: set<nat>, b: set<nat>, faulty: set<nat>) returns (v: nat)
    requires Quorum(powers, a) && Quorum(powers, b)
    requires 3 * Power(powers, faulty) < Total(powers)
    ensures v < |powers| && v in a && v in b && v !in faulty
  {
    PowerInclusionExclusion(powers, a, b);
    PowerWithin(powers, a + b);
    if forall u :: u in a * b && u < |powers| ==> u in faulty {
      PowerMonotone(powers, a * b, faulty);
      assert false;
    }
    v :| v in a * b && v < |powers| && v !in faulty;
  }

  /** A quorum holds a validator outside any set of less than a third of the power. */
  lemma QuorumHasHonest(powers: seq<nat>, a: set<nat>, faulty: set<nat>) returns (v: nat)
    requires Quorum(powers, a)
    requires 3 * Power(powers, faulty) < Total(powers)
    ensures v < |powers| && v in a && v !in faulty
  {
    v := QuorumsMeet(powers, a, a, faulty);
  }
}
