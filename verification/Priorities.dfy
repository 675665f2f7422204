/** When incrementing priorities n times at once is the same as n times once. */
module Priorities {
  import opened Validators

  predicate SameMembers(vs: seq<Validator>, ws: seq<Validator>) {
    && |vs| == |ws|
    && forall i :: 0 <= i < |vs| ==> vs[i].addr == ws[i].addr && vs[i].power == ws[i].power
  }

  /** What NewValidatorSet and UpdateWithChangeSet guarantee. */
  predicate WellFormed(vs: seq<Validator>) {
    && |vs| > 0
    && (forall i :: 0 <= i < |vs| ==> vs[i].power > 0)
    && (forall i, j :: 0 <= i < j < |vs| ==> vs[i].addr != vs[j].addr)
  }

  /** The average, rounded down, is zero. */
  predicate Centred(vs: seq<Validator>) {
    0 <= Sum(vs) < |vs|
  }

  /** The guard of the rescaling is off. */
  predicate Calm(vs: seq<Validator>)
    requires |vs| > 0
  {
    Spread(vs) <= WINDOW * Total(vs)
  }

  /** One increment per block, as updateState does. */
  function OneByOne(vs: seq<Validator>, n: nat): seq<Validator>
    requires |vs| > 0
    ensures |OneByOne(vs, n)| == |vs|
  {
    if n == 0 then vs else Increment(OneByOne(vs, n - 1), 1)
  }

  /** All increments in one call, as LoadValidators does. */
  function AtOnce(vs: seq<Validator>, n: nat): seq<Validator>
    requires |vs| > 0
  {
    if n == 0 then vs else Increment(vs, n)
  }

  // ----- members and powers never change

  lemma {:induction false} TotalOfSame(vs: seq<Validator>, ws: seq<Validator>)
    requires SameMembers(vs, ws)
    ensures Total(vs) == Total(ws)
  {
    if |vs| > 0 {
      TotalOfSame(vs[..|vs| - 1], ws[..|ws| - 1]);
    }
  }

  lemma RotateMembers(vs: seq<Validator>)
    requires |vs| > 0
    ensures SameMembers(vs, Rotate(vs)) && SameMembers(vs, Normalised(vs))
  {
  }

  lemma {:induction false} RotationsMembers(vs: seq<Validator>, n: nat)
    requires |vs| > 0
    ensures SameMembers(vs, Rotations(vs, n))
  {
    if n > 0 {
      RotationsMembers(vs, n - 1);
      RotateMembers(Rotations(vs, n - 1));
    }
  }

  /** However the increments are batched, addresses, powers and order stay. */
  lemma {:induction false} IncrementMembers(vs: seq<Validator>, n: nat)
    requires |vs| > 0
    ensures SameMembers(vs, AtOnce(vs, n)) && SameMembers(vs, OneByOne(vs, n))
  {
    RotateMembers(vs);
    RotationsMembers(Normalised(vs), n);
    if n > 0 {
      IncrementMembers(vs, n - 1);
      var prev := OneByOne(vs, n - 1);
      RotateMembers(prev);
      RotationsMembers(Normalised(prev), 1);
    }
  }

  lemma {:induction false} TotalPositive(vs: seq<Validator>, i: nat, j: nat)
    requires WellFormed(vs) && i < |vs| && j < |vs|
    ensures Total(vs) >= vs[i].power
    ensures i != j ==> Total(vs) >= vs[i].power + vs[j].power
    decreases |vs|
  {
    var last := |vs| - 1;
    if last > 0 {
      var i' := if i == last then (if j == last then 0 else j) else i;
      var j' := if j == last then i' else j;
      TotalPositive(vs[..last], i', j');
    }
  }

  // ----- the sum

  lemma {:induction false} SumShifted(vs: seq<Validator>, avg: int)
    ensures Sum(Shifted(vs, avg)) == Sum(vs) - avg * |vs|
  {
    if |vs| > 0 {
      var init := vs[..|vs| - 1];
      SumShifted(init, avg);
      assert Shifted(vs, avg)[..|vs| - 1] == Shifted(init, avg);
    }
  }

  lemma {:induction false} SumRaised(vs: seq<Validator>)
    ensures Sum(Raised(vs)) == Sum(vs) + Total(vs)
  {
    if |vs| > 0 {
      SumRaised(vs[..|vs| - 1]);
      assert Raised(vs)[..|vs| - 1] == Raised(vs[..|vs| - 1]);
    }
  }

  lemma {:induction false} SumReplaced(vs: seq<Validator>, m: nat, v: Validator)
    requires m < |vs|
    ensures Sum(vs[m := v]) == Sum(vs) - vs[m].priority + v.priority
  {
    var last := |vs| - 1;
    if m < last {
      SumReplaced(vs[..last], m, v);
      assert vs[m := v][..last] == vs[..last][m := v];
    } else {
      assert vs[m := v][..last] == vs[..last];
    }
  }

  lemma {:induction false} RotateKeepsSum(vs: seq<Validator>)
    requires |vs| > 0
    ensures Sum(Rotate(vs)) == Sum(vs)
  {
    hide Sum, Total, Mostest;
    SumRaised(vs);
    var up := Raised(vs);
    var m := Mostest(up);
    SumReplaced(up, m, up[m].(priority := up[m].priority - Total(vs)));
  }

  lemma {:induction false} ShiftCentres(vs: seq<Validator>)
    requires |vs| > 0
    ensures Centred(Shift(vs))
    ensures Centred(vs) ==> Shift(vs) == vs
  {
    hide Sum;
    SumShifted(vs, Sum(vs) / |vs|);
    DivRemains(Sum(vs), |vs|);
  }

  lemma DivRemains(a: int, n: int)
    requires n > 0
    ensures 0 <= a - a / n * n < n && (0 <= a < n ==> a / n == 0)
  {
  }

  /** A set that has been incremented is centred, and stays as it is if calm. */
  lemma IncrementOnce(vs: seq<Validator>)
    requires |vs| > 0
    ensures Centred(Increment(vs, 1))
    ensures Centred(vs) && Calm(vs) ==> Increment(vs, 1) == Rotate(vs)
  {
    ShiftCentres(Rescale(vs));
    RotateKeepsSum(Normalised(vs));
    assert Rotations(Normalised(vs), 1) == Rotate(Rotations(Normalised(vs), 0));
  }

  // ----- when the two agree

  /** Calm in between: n increments at once are n single ones. */
  lemma {:induction false} CalmAgree(vs: seq<Validator>, n: nat)
    requires |vs| > 0
    requires forall j :: 1 <= j < n ==> Calm(OneByOne(vs, j))
    ensures AtOnce(vs, n) == OneByOne(vs, n)
  {
    hide Calm, Normalised, Rotate;
    if n >= 2 {
      CalmAgree(vs, n - 1);
      IncrementOnce(OneByOne(vs, n - 2));
      IncrementOnce(OneByOne(vs, n - 1));
    }
  }

  lemma {:induction false} Extremes(vs: seq<Validator>) returns (hi: nat, lo: nat)
    requires |vs| > 0
    ensures hi < |vs| && lo < |vs| && vs[hi].priority == Highest(vs) && vs[lo].priority == Lowest(vs)
  {
    if |vs| == 1 {
      return 0, 0;
    }
    var last := |vs| - 1;
    hi, lo := Extremes(vs[..last]);
    if vs[last].priority == Highest(vs) { hi := last; }
    if vs[last].priority == Lowest(vs) { lo := last; }
  }

  lemma {:induction false} MostestLeads(vs: seq<Validator>, i: nat)
    requires |vs| > 0 && i < |vs|
    ensures vs[Mostest(vs)].priority >= vs[i].priority
  {
    var last := |vs| - 1;
    if i < last {
      MostestLeads(vs[..last], i);
    } else if last > 0 {
      MostestLeads(vs[..last], 0);
    }
  }

  lemma MulSub(r: int, x: int, y: int)
    ensures r * (x - y) == r * x - r * y
  {
  }

  lemma MulSign(r: int, x: int)
    requires r > 0
    ensures x >= 0 ==> r * x >= 0
    ensures x <= -1 ==> r * x <= -r
  {
  }

  /** Go's quotient shrinks distances, up to rounding. */
  lemma QuoDistance(a: int, b: int, r: int)
    requires r >= 2 && a >= b
    ensures 0 <= r * (Quo(a, r) - Quo(b, r)) <= a - b + r - 1
    ensures r * (Quo(a, r) - Quo(b, r)) >= a - b - 2 * (r - 1)
  {
    QuoBounds(a, r);
    QuoBounds(b, r);
    MulSub(r, Quo(a, r), Quo(b, r));
    MulSign(r, Quo(a, r) - Quo(b, r));
    hide Quo;
  }

  lemma QuoBounds(a: int, r: int)
    requires r > 0
    ensures a >= 0 ==> a - (r - 1) <= r * Quo(a, r) <= a
    ensures a < 0 ==> a <= r * Quo(a, r) <= a + (r - 1)
  {
    if a < 0 {
      var q := (-a) / r;
      assert r * q <= -a < r * q + r;
      assert r * -q == -(r * q);
    }
  }

  /** A rotation moves two priorities by the total at most, so it cannot make up for a
      division by 3 or more. */
  lemma SmallRatio(k: int, spread: int, total: int)
    requires k >= 1 && total >= 1 && 2 * (total * k) < spread
    requires (k + 1) * (spread - 2 * total) <= spread + k
    ensures k == 1
  {
    var a := total * k;
    MulSub(k, spread, 2 * a + 1);
    MulSign(k, spread - (2 * a + 1));
    assert k * (2 * a + 1) == 2 * (k * a) + k;
    assert (k + 1) * (spread - 2 * total) == k * spread + spread - 2 * a - 2 * total;
    assert k * a <= a + total;
    assert k >= 2 ==> a >= total * 2 && k * a >= 2 * a;
  }

  /** A rotation does not make up for dividing the extremes. */
  lemma ExtremesTell(p: int, q: int, r: int, avg: int, t: int, dp: int, dq: int)
    requires r >= 2 && t >= 1 && 2 * (t * (r - 1)) < p - q
    requires Quo(p, r) - avg - p == dp >= -t && Quo(q, r) - avg - q == dq <= t
    ensures r == 2 && dp != dq
  {
    MulSign(t, r - 1);
    QuoDistance(p, q, r);
    var gap := Quo(p, r) - Quo(q, r);
    hide Quo;
    MulSub(r, gap, p - q - 2 * t);
    MulSign(r, gap - (p - q - 2 * t));
    SmallRatio(r - 1, p - q, t);
  }

  /** Nor for dividing the two front runners, when they differ. */
  lemma FrontRunnersTell(pa: int, pb: int, avg: int, t: int, wa: int, wb: int)
    requires Quo(pa, 2) - avg - pa == t && Quo(pb, 2) - avg - pb == -t
    requires Quo(pb, 2) + wb <= Quo(pa, 2) + wa && wa + wb <= t && wb >= 1
    ensures t < 1
  {
    if pb >= pa {
      QuoDistance(pb, pa, 2);
    } else {
      QuoDistance(pa, pb, 2);
    }
    hide Quo;
  }

  lemma {:induction false} NormalisedAt(d: seq<Validator>, i: nat)
    requires |d| > 0 && i < |d| && !Calm(d) && Total(d) > 0
    ensures Normalised(d)[i].priority == Quo(d[i].priority, Ratio(Spread(d), WINDOW * Total(d))) - Sum(Rescale(d)) / |d|
  {
    hide Quo, Ratio, Spread, Sum, Total;
  }

  /** The move a rotation makes at `i`, with and without normalising first. */
  lemma {:induction false} MovedBy(d: seq<Validator>, x: seq<Validator>, i: nat)
    requires |d| > 0 && SameMembers(d, x) && i < |d| && Total(x) == Total(d) && Rotate(x) == Rotate(d)
    ensures x[i].priority - d[i].priority ==
            (if i == Mostest(Raised(x)) then Total(d) else 0) - (if i == Mostest(Raised(d)) then Total(d) else 0)
  {
    hide Total, Mostest;
    assert Rotate(x)[i].priority == Rotate(d)[i].priority;
  }

  /** If normalising first makes no difference to a rotation, the set was calm. */
  lemma {:induction false} RotateTells(d: seq<Validator>)
    requires WellFormed(d) && Rotate(Normalised(d)) == Rotate(d)
    ensures Calm(d)
  {
    hide Normalised, Rotate, Mostest, Total, Sum, Quo, Ratio, Rescale, Highest, Lowest, Raised;
    var x := Normalised(d);
    RotateMembers(d);
    TotalOfSame(d, x);
    TotalPositive(d, 0, 0);
    var a, b := Mostest(Raised(x)), Mostest(Raised(d));
    var hi, lo := Extremes(d);
    if !Calm(d) {
      var t := Total(d);
      var r := Ratio(Spread(d), WINDOW * t);
      var avg := Sum(Rescale(d)) / |d|;
      assert r == 2 && x[hi].priority - d[hi].priority != x[lo].priority - d[lo].priority by {
        MovedBy(d, x, hi);
        MovedBy(d, x, lo);
        NormalisedAt(d, hi);
        NormalisedAt(d, lo);
        ExtremesTell(d[hi].priority, d[lo].priority, r, avg, t, x[hi].priority - d[hi].priority,
                     x[lo].priority - d[lo].priority);
      }
      assert a != b by {
        MovedBy(d, x, hi);
        MovedBy(d, x, lo);
      }
      MovedBy(d, x, a);
      MovedBy(d, x, b);
      NormalisedAt(d, a);
      NormalisedAt(d, b);
      TotalPositive(d, a, b);
      FrontRunner(x, b);
      FrontRunnersTell(d[a].priority, d[b].priority, avg, t, d[a].power, d[b].power);
    }
  }

  lemma {:induction false} FrontRunner(vs: seq<Validator>, i: nat)
    requires |vs| > 0 && i < |vs|
    ensures var m := Mostest(Raised(vs)); vs[i].priority + vs[i].power <= vs[m].priority + vs[m].power
  {
    MostestLeads(Raised(vs), i);
  }

  /** Agreeing at a count and at the next one takes a calm set at the first. */
  lemma {:induction false} AgreeTells(vs: seq<Validator>, j: nat)
    requires WellFormed(vs) && j >= 1
    requires AtOnce(vs, j) == OneByOne(vs, j) && AtOnce(vs, j + 1) == OneByOne(vs, j + 1)
    ensures Calm(OneByOne(vs, j))
  {
    hide Normalised, Rotate, Calm;
    var d := OneByOne(vs, j);
    IncrementMembers(vs, j);
    assert OneByOne(vs, j + 1) == Rotate(Rotations(Normalised(d), 0));
    assert AtOnce(vs, j + 1) == Rotate(AtOnce(vs, j));
    RotateTells(d);
  }

  ghost predicate Exact(vs: seq<Validator>, n: nat)
    requires |vs| > 0
  {
    forall j :: 1 <= j <= n ==> AtOnce(vs, j) == OneByOne(vs, j)
  }

  ghost predicate CalmUntil(vs: seq<Validator>, n: nat)
    requires |vs| > 0
  {
    forall j :: 1 <= j < n ==> Calm(OneByOne(vs, j))
  }

  lemma {:induction false} ExactIsCalm(vs: seq<Validator>, n: nat)
    requires WellFormed(vs) && Exact(vs, n)
    ensures CalmUntil(vs, n)
  {
    hide Calm, AtOnce, OneByOne;
    forall j | 1 <= j < n ensures Calm(OneByOne(vs, j)) {
      assert AtOnce(vs, j) == OneByOne(vs, j) && AtOnce(vs, j + 1) == OneByOne(vs, j + 1);
      AgreeTells(vs, j);
    }
  }

  lemma {:induction false} CalmIsExact(vs: seq<Validator>, n: nat)
    requires |vs| > 0 && CalmUntil(vs, n)
    ensures Exact(vs, n)
  {
    hide Calm, AtOnce, OneByOne;
    forall j | 1 <= j <= n ensures AtOnce(vs, j) == OneByOne(vs, j) {
      CalmAgree(vs, j);
    }
  }

  /** Loading by n increments at once gives the sets of n single increments, for every
      count up to n, exactly when no set in between needs rescaling. */
  lemma {:induction false} ExactIffCalm(vs: seq<Validator>, n: nat)
    requires WellFormed(vs)
    ensures Exact(vs, n) <==> CalmUntil(vs, n)
  {
    hide Exact, CalmUntil;
    if Exact(vs, n) {
      ExactIsCalm(vs, n);
    }
    if CalmUntil(vs, n) {
      CalmIsExact(vs, n);
    }
  }

  // ----- changing the set keeps it well formed

  predicate Distinct(vs: seq<Validator>) {
    && (forall i :: 0 <= i < |vs| ==> vs[i].power > 0)
    && (forall i, j :: 0 <= i < j < |vs| ==> vs[i].addr != vs[j].addr)
  }

  lemma {:induction false} InsertDistinct(v: Validator, vs: seq<Validator>)
    requires Distinct(vs) && v.power > 0 && forall i :: 0 <= i < |vs| ==> vs[i].addr != v.addr
    ensures Distinct(Insert(v, vs)) && |Insert(v, vs)| == |vs| + 1
    ensures forall w :: w in Insert(v, vs) <==> w == v || w in vs
  {
    if !(|vs| == 0 || v.power > vs[0].power || (v.power == vs[0].power && v.addr < vs[0].addr)) {
      InsertDistinct(v, vs[1..]);
      assert vs == [vs[0]] + vs[1..];
      var rest := Insert(v, vs[1..]);
      forall i | 0 <= i < |rest| ensures rest[i].addr != vs[0].addr {
        assert rest[i] in rest;
      }
    }
  }

  lemma {:induction false} ByPowerDistinct(vs: seq<Validator>)
    requires Distinct(vs)
    ensures Distinct(ByPower(vs)) && |ByPower(vs)| == |vs|
    ensures forall w :: w in ByPower(vs) <==> w in vs
  {
    if |vs| > 0 {
      ByPowerDistinct(vs[1..]);
      assert vs == [vs[0]] + vs[1..];
      var rest := ByPower(vs[1..]);
      forall i | 0 <= i < |rest| ensures rest[i].addr != vs[0].addr {
        assert rest[i] in rest;
      }
      InsertDistinct(vs[0], rest);
    }
  }

  lemma {:induction false} ChangeOfIs(changes: seq<Change>, addr: nat)
    ensures ChangeOf(changes, addr).Some? ==> ChangeOf(changes, addr).value in changes
  {
    if |changes| > 0 {
      ChangeOfIs(changes[1..], addr);
    }
  }

  lemma DistinctCons(v: Validator, rest: seq<Validator>)
    requires Distinct(rest) && v.power > 0 && forall w :: w in rest ==> w.addr != v.addr
    ensures Distinct([v] + rest)
  {
    forall i | 0 <= i < |rest| ensures rest[i].addr != v.addr {
      assert rest[i] in rest;
    }
  }

  lemma DistinctTail(vs: seq<Validator>, addr: nat)
    requires Distinct(vs) && |vs| > 0
    ensures Distinct(vs[1..]) && vs[0].power > 0 && HasAddr(vs, vs[0].addr)
    ensures HasAddr(vs[1..], addr) ==> HasAddr(vs, addr) && vs[0].addr != addr
  {
    if HasAddr(vs[1..], addr) {
      var i :| 0 <= i < |vs[1..]| && vs[1..][i].addr == addr;
      assert vs[i + 1].addr == addr;
    }
  }

  lemma {:induction false} KeptDistinct(vs: seq<Validator>, changes: seq<Change>)
    requires Distinct(vs) && forall ch :: ch in changes ==> ch.power >= 0
    ensures Distinct(Kept(vs, changes))
    ensures forall w :: w in Kept(vs, changes) ==> HasAddr(vs, w.addr)
  {
    hide Distinct, HasAddr, ChangeOf;
    if |vs| > 0 {
      DistinctTail(vs, vs[0].addr);
      KeptDistinct(vs[1..], changes);
      ChangeOfIs(changes, vs[0].addr);
      var rest := Kept(vs[1..], changes);
      forall w | w in rest ensures w.addr != vs[0].addr && HasAddr(vs, w.addr) {
        DistinctTail(vs, w.addr);
      }
      match ChangeOf(changes, vs[0].addr) {
        case None => DistinctCons(vs[0], rest);
        case Some(ch) =>
          if ch.power != 0 {
            DistinctCons(vs[0].(power := ch.power), rest);
          }
      }
    }
  }

  lemma {:induction false} JoinedDistinct(vs: seq<Validator>, changes: seq<Change>, total: int)
    requires ChangesOk(changes)
    ensures Distinct(Joined(vs, changes, total))
    ensures forall w :: w in Joined(vs, changes, total) ==>
              !HasAddr(vs, w.addr) && exists k :: 0 <= k < |changes| && changes[k].addr == w.addr
  {
    if |changes| > 0 {
      JoinedDistinct(vs, changes[1..], total);
      var rest := Joined(vs, changes[1..], total);
      forall w | w in rest
        ensures w.addr != changes[0].addr && exists k :: 0 <= k < |changes| && changes[k].addr == w.addr
      {
        var k :| 0 <= k < |changes[1..]| && changes[1..][k].addr == w.addr;
        assert changes[k + 1].addr == w.addr;
      }
    }
  }

  lemma {:induction false} MergedDistinct(vs: seq<Validator>, changes: seq<Change>, total: int)
    requires Distinct(vs) && ChangesOk(changes)
    ensures Distinct(Kept(vs, changes) + Joined(vs, changes, total))
  {
    var kept, joined := Kept(vs, changes), Joined(vs, changes, total);
    KeptDistinct(vs, changes);
    JoinedDistinct(vs, changes, total);
    hide Kept, Joined, HasAddr;
    forall i, j | 0 <= i < |kept| && 0 <= j < |joined| ensures kept[i].addr != joined[j].addr {
      assert kept[i] in kept && joined[j] in joined;
    }
  }

  /** UpdateWithChangeSet yields distinct addresses of positive power. */
  lemma {:induction false} UpdatedWellFormed(vs: seq<Validator>, changes: seq<Change>)
    requires Distinct(vs) && (|vs| > 0 || |changes| > 0) && Updated(vs, changes).Some?
    ensures WellFormed(Updated(vs, changes).value)
  {
    hide Kept, Joined, Normalised, ByPower, PowerBeforeRemovals, ChangesOk, HasAddr, Total;
    if |changes| > 0 {
      var total := PowerBeforeRemovals(vs, changes);
      MergedDistinct(vs, changes, total);
      var merged := Kept(vs, changes) + Joined(vs, changes, total);
      RotateMembers(merged);
      ByPowerDistinct(Normalised(merged));
    }
  }

  lemma IncrementWellFormed(vs: seq<Validator>, n: nat)
    requires WellFormed(vs)
    ensures WellFormed(Increment(vs, n))
  {
    RotateMembers(vs);
    RotationsMembers(Normalised(vs), n);
  }
}
