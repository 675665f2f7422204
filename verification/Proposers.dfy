/** Who proposes: the choice of one rotation, and how often each validator is chosen. */
module Proposers {
  import opened Validators
  import opened Priorities

  predicate DistinctAddrs(vs: seq<Validator>) {
    forall i, j :: 0 <= i < j < |vs| ==> vs[i].addr != vs[j].addr
  }

  /** Behind the other by what they come to in this round, or level and of greater address. */
  predicate Behind(v: Validator, w: Validator) {
    || v.priority + v.power < w.priority + w.power
    || (v.priority + v.power == w.priority + w.power && v.addr > w.addr)
  }

  ghost predicate Leads(vs: seq<Validator>, m: nat) {
    m < |vs| && forall i :: 0 <= i < |vs| && i != m ==> Behind(vs[i], vs[m])
  }

  lemma {:induction false} MostestIsAhead(vs: seq<Validator>, i: nat)
    requires |vs| > 0 && DistinctAddrs(vs) && i < |vs| && i != Mostest(vs)
    ensures Ahead(vs[Mostest(vs)], vs[i])
  {
    var last := |vs| - 1;
    var init := vs[..last];
    var m := Mostest(init);
    if i < last {
      if i != m {
        MostestIsAhead(init, i);
      }
    }
  }

  /** Exactly one validator leads a round. It pays the total, everyone gains their power, and
      nothing else changes. */
  lemma {:induction false} RotatePays(vs: seq<Validator>) returns (m: nat)
    requires |vs| > 0 && DistinctAddrs(vs)
    ensures Leads(vs, m) && forall k :: Leads(vs, k) ==> k == m
    ensures |Rotate(vs)| == |vs|
    ensures forall i :: 0 <= i < |vs| ==>
              Rotate(vs)[i] == vs[i].(priority := vs[i].priority + vs[i].power - (if i == m then Total(vs) else 0))
  {
    hide Mostest, Total;
    var up := Raised(vs);
    m := Mostest(up);
    forall i | 0 <= i < |vs| && i != m ensures Behind(vs[i], vs[m]) {
      MostestIsAhead(up, i);
    }
    forall k: nat | k < |vs| && k != m ensures !Leads(vs, k) {
      assert Behind(vs[k], vs[m]) && !Behind(vs[m], vs[k]);
    }
  }

  // ----- how often

  /** How many of the next n rounds the validator leads. */
  ghost function Turns(vs: seq<Validator>, n: nat, i: nat): nat
    requires |vs| > 0
  {
    if n == 0 then 0 else Turns(vs, n - 1, i) + if Leads(Rotations(vs, n - 1), i) then 1 else 0
  }

  lemma StaysDistinct(vs: seq<Validator>, n: nat)
    requires |vs| > 0 && DistinctAddrs(vs)
    ensures DistinctAddrs(Rotations(vs, n)) && Total(Rotations(vs, n)) == Total(vs)
  {
    RotationsMembers(vs, n);
    TotalOfSame(vs, Rotations(vs, n));
  }

  lemma OneMore(n: nat, power: int, total: int, turns: nat, more: nat)
    requires n > 0
    ensures n * power - total * (turns + more) == (n - 1) * power - total * turns + power - total * more
  {
  }

  /** A priority says how far the validator's turns are behind its share of the rounds. */
  lemma {:induction false} PriorityIsShare(vs: seq<Validator>, n: nat, i: nat)
    requires |vs| > 0 && DistinctAddrs(vs) && i < |vs|
    ensures Rotations(vs, n)[i].priority == vs[i].priority + n * vs[i].power - Total(vs) * Turns(vs, n, i)
  {
    hide Total, Rotate, Leads;
    if n > 0 {
      PriorityIsShare(vs, n - 1, i);
      StaysDistinct(vs, n - 1);
      RotationsMembers(vs, n - 1);
      var before := Rotations(vs, n - 1);
      var m := RotatePays(before);
      var more := if i == m then 1 else 0;
      assert Turns(vs, n, i) == Turns(vs, n - 1, i) + more;
      OneMore(n, vs[i].power, Total(vs), Turns(vs, n - 1, i), more);
      assert Total(vs) * more == if i == m then Total(vs) else 0;
      assert Rotate(before)[i].priority == before[i].priority + vs[i].power - Total(vs) * more;
    }
  }

  lemma {:induction false} SumBelow(vs: seq<Validator>)
    requires forall i :: 0 <= i < |vs| ==> vs[i].priority <= 0
    ensures Sum(vs) <= 0
  {
    if |vs| > 0 {
      SumBelow(vs[..|vs| - 1]);
    }
  }

  ghost predicate AboveTotal(vs: seq<Validator>) {
    forall i :: 0 <= i < |vs| ==> vs[i].priority > -Total(vs)
  }

  /** The one that pays had more than nothing, so nobody falls by the total. */
  lemma {:induction false} RotateStaysAbove(vs: seq<Validator>)
    requires WellFormed(vs) && AboveTotal(vs) && Sum(vs) >= 0
    ensures AboveTotal(Rotate(vs))
  {
    hide Total, Rotate, Sum;
    var m := RotatePays(vs);
    RotateMembers(vs);
    TotalOfSame(vs, Rotate(vs));
    TotalPositive(vs, 0, 0);
    SumRaised(vs);
    if vs[m].priority + vs[m].power <= 0 {
      forall i | 0 <= i < |vs| ensures Raised(vs)[i].priority <= 0 {
        assert i == m || Behind(vs[i], vs[m]);
      }
      SumBelow(Raised(vs));
    }
  }

  lemma {:induction false} StaysAbove(vs: seq<Validator>, n: nat)
    requires WellFormed(vs) && AboveTotal(vs) && Sum(vs) >= 0
    ensures AboveTotal(Rotations(vs, n)) && Sum(Rotations(vs, n)) == Sum(vs)
  {
    hide Total, Rotate, Sum;
    if n > 0 {
      StaysAbove(vs, n - 1);
      RotationsMembers(vs, n - 1);
      RotateKeepsSum(Rotations(vs, n - 1));
      RotateStaysAbove(Rotations(vs, n - 1));
    }
  }

  predicate AllEven(vs: seq<Validator>) {
    forall i :: 0 <= i < |vs| ==> vs[i].priority == 0
  }

  lemma {:induction false} SumOfEven(vs: seq<Validator>)
    requires AllEven(vs)
    ensures Sum(vs) == 0
  {
    if |vs| > 0 {
      SumOfEven(vs[..|vs| - 1]);
    }
  }

  lemma EvenIsAbove(vs: seq<Validator>)
    requires WellFormed(vs) && AllEven(vs)
    ensures AboveTotal(vs) && Sum(vs) == 0
  {
    SumOfEven(vs);
    TotalPositive(vs, 0, 0);
  }

  /** From even priorities, in any number of rounds nobody leads as much as one turn over its
      share. */
  lemma {:induction false} NeverOverShare(vs: seq<Validator>, n: nat, i: nat)
    requires WellFormed(vs) && AllEven(vs) && i < |vs|
    ensures Total(vs) * Turns(vs, n, i) < n * vs[i].power + Total(vs)
  {
    hide Total;
    EvenIsAbove(vs);
    StaysAbove(vs, n);
    StaysDistinct(vs, n);
    PriorityIsShare(vs, n, i);
  }

  lemma {:induction false} SumOfNone(vs: seq<Validator>, i: nat)
    requires i < |vs| && (forall k :: 0 <= k < |vs| ==> vs[k].priority >= 0)
    ensures vs[i].priority <= Sum(vs)
  {
    var last := |vs| - 1;
    if i < last {
      SumOfNone(vs[..last], i);
    } else if last > 0 {
      SumOfNone(vs[..last], 0);
    }
  }

  lemma Multiple(t: int, k: int)
    requires t > 0 && t * k > -t
    ensures t * k >= 0 && (t * k == 0 ==> k == 0)
  {
    if k <= -1 {
      MulSign(t, k);
    }
  }

  /** From even priorities, in as many rounds as there is power every validator leads as often
      as it has power, and all is even again. */
  lemma {:induction false} FairTurns(vs: seq<Validator>, t: nat)
    requires WellFormed(vs) && AllEven(vs) && t == Total(vs)
    ensures forall i :: 0 <= i < |vs| ==> Turns(vs, t, i) == vs[i].power
    ensures Rotations(vs, t) == vs == Increment(vs, t)
  {
    hide Total, Sum, Rotate, Spread;
    TotalPositive(vs, 0, 0);
    var after := Rotations(vs, t);
    EvenIsAbove(vs);
    StaysAbove(vs, t);
    StaysDistinct(vs, t);
    RotationsMembers(vs, t);
    forall i | 0 <= i < |vs| ensures after[i].priority == t * (vs[i].power - Turns(vs, t, i)) >= 0 {
      PriorityIsShare(vs, t, i);
      MulSub(t, vs[i].power, Turns(vs, t, i));
      Multiple(t, vs[i].power - Turns(vs, t, i));
    }
    forall i | 0 <= i < |vs| ensures after[i].priority == 0 && Turns(vs, t, i) == vs[i].power {
      SumOfNone(after, i);
      Multiple(t, vs[i].power - Turns(vs, t, i));
    }
    assert after == vs;
    EvenIsNormal(vs);
  }

  lemma EvenIsNormal(vs: seq<Validator>)
    requires WellFormed(vs) && AllEven(vs)
    ensures Normalised(vs) == vs
  {
    hide Sum, Total;
    TotalPositive(vs, 0, 0);
    SumOfEven(vs);
    var hi, lo := Extremes(vs);
    ShiftCentres(vs);
  }

  // ----- the window

  lemma {:induction false} SpreadBounds(vs: seq<Validator>, bound: int)
    requires |vs| > 0 && forall i, j :: 0 <= i < |vs| && 0 <= j < |vs| ==> vs[i].priority - vs[j].priority <= bound
    ensures Spread(vs) <= bound
  {
    var hi, lo := Extremes(vs);
  }

  lemma {:induction false} WithinExtremes(vs: seq<Validator>, i: nat)
    requires i < |vs|
    ensures Lowest(vs) <= vs[i].priority <= Highest(vs)
  {
    var last := |vs| - 1;
    if i < last {
      WithinExtremes(vs[..last], i);
    }
  }

  /** A distance divided, with the ratio rounded up, fits the window. */
  lemma FitsWindow(a: int, b: int, spread: int, window: int)
    requires 0 < window < spread && a - b <= spread
    ensures Quo(a, Ratio(spread, window)) - Quo(b, Ratio(spread, window)) <= window
  {
    var r := Ratio(spread, window);
    CoversSpread(spread, window);
    hide Ratio, Quo;
    var gap := Quo(a, r) - Quo(b, r);
    if a >= b {
      QuoDistance(a, b, r);
    } else {
      QuoDistance(b, a, r);
      MulSub(r, Quo(b, r), Quo(a, r));
      MulSign(r, Quo(b, r) - Quo(a, r));
    }
    MulSub(r, gap, window + 1);
    MulSign(r, gap - (window + 1));
    assert r * (window + 1) == r * window + r;
  }

  lemma CoversSpread(spread: int, window: int)
    requires 0 < window < spread
    ensures spread <= Ratio(spread, window) * window
  {
    var n := spread + window - 1;
    assert n == window * (n / window) + n % window;
  }

  /** Once normalised, the priorities are within twice the total power of one another, and
      those that were are only shifted. */
  lemma {:induction false} NormalisedCalm(vs: seq<Validator>)
    requires WellFormed(vs)
    ensures Calm(Normalised(vs)) && Centred(Normalised(vs))
    ensures Calm(vs) ==> forall i, j :: 0 <= i < |vs| && 0 <= j < |vs| ==>
              Normalised(vs)[i].priority - Normalised(vs)[j].priority == vs[i].priority - vs[j].priority
  {
    hide Total, Sum, Quo, Ratio, Highest, Lowest;
    TotalPositive(vs, 0, 0);
    ShiftCentres(Rescale(vs));
    RotateMembers(vs);
    TotalOfSame(vs, Normalised(vs));
    var window := WINDOW * Total(vs);
    var ws := Normalised(vs);
    forall i, j | 0 <= i < |ws| && 0 <= j < |ws| ensures ws[i].priority - ws[j].priority <= window {
      WithinExtremes(vs, i);
      WithinExtremes(vs, j);
      if Spread(vs) > window {
        FitsWindow(vs[i].priority, vs[j].priority, Spread(vs), window);
      }
    }
    SpreadBounds(ws, window);
  }
}
