/** When the changes a block brings are in force. */
module HistoryChanges {
  import opened Common
  import opened Validators
  import opened Priorities
  import opened Proposers
  import opened ValidatorUpdates
  import opened History
  import opened HistoryProofs

  lemma SamePowers(vs: seq<Validator>, ws: seq<Validator>, addr: nat, power: int)
    requires SameMembers(vs, ws)
    ensures Has(vs, addr, power) <==> Has(ws, addr, power)
  {
    if Has(vs, addr, power) {
      var i :| 0 <= i < |vs| && vs[i].addr == addr && vs[i].power == power;
      assert ws[i] in ws;
    }
    if Has(ws, addr, power) {
      var i :| 0 <= i < |ws| && ws[i].addr == addr && ws[i].power == power;
      assert vs[i] in vs;
    }
  }

  lemma IncrementedPowers(vs: seq<Validator>, addr: nat, power: int)
    requires |vs| > 0
    ensures Has(Increment(vs, 1), addr, power) <==> Has(vs, addr, power)
  {
    IncrementMembers(vs, 1);
    SamePowers(vs, Increment(vs, 1), addr, power);
  }

  /** In every run, the validator changes of the block of height h are in force from h + 2 on: the
      powers are those of h + 1 with the changes made. Its parameters are from h + 1 on. */
  lemma {:induction false} ChangesInForce(states: seq<State>, blocks: seq<Block>, h: nat, addr: nat, power: int)
    requires IsRun(states, blocks) && 1 <= h <= |blocks|
    ensures Has(InForce(states, h + 2), addr, power) <==>
            if |blocks[h - 1].changes| == 0 then Has(InForce(states, h + 1), addr, power)
            else Gets(InForce(states, h + 1), blocks[h - 1].changes, addr, power)
    ensures ParamsInForce(states, h + 1) ==
            match blocks[h - 1].params case Some(p) => p case None => ParamsInForce(states, h)
  {
    hide Updated, Increment, WellFormed, Has, Gets;
    RunLinked(states, blocks, |states|);
    assert states[..|states|] == states;
    LinkedAt(states, h - 1);
    assert Follows(states, blocks, h - 1);
    var s := states[h - 1];
    NotEmpty(s.next);
    var vs := Updated(s.next, blocks[h - 1].changes).value;
    UpdatedNothing(s.next, blocks[h - 1].changes);
    if |blocks[h - 1].changes| > 0 {
      UpdatedPowers(s.next, blocks[h - 1].changes, addr, power);
    }
    IncrementedPowers(vs, addr, power);
  }

  /** At height 1 the powers are those of the genesis document, and also at height 2. */
  lemma {:induction false} GenesisInForce(changes: seq<Change>, params: nat, s: State, addr: nat, power: int)
    requires Genesis(changes, params) == Some(s)
    ensures Has(s.current, addr, power) <==> Gets([], changes, addr, power)
    ensures Has(s.next, addr, power) <==> Has(s.current, addr, power)
    ensures s.params == params && s.height == 0
  {
    hide Updated, Increment, Has, Gets;
    UpdatedNothing([], changes);
    var vs := Updated([], changes).value;
    UpdatedPowers([], changes, addr, power);
    IncrementMembers(vs, 1);
    IncrementedPowers(vs, addr, power);
    IncrementedPowers(s.current, addr, power);
  }

  predicate Level(vs: seq<Validator>, p: int) {
    forall i :: 0 <= i < |vs| ==> vs[i].priority == p
  }

  lemma {:induction false} SumOfLevel(vs: seq<Validator>, p: int)
    requires Level(vs, p)
    ensures Sum(vs) == p * |vs|
  {
    if |vs| > 0 {
      SumOfLevel(vs[..|vs| - 1], p);
    }
  }

  lemma LevelIsEven(vs: seq<Validator>, p: int)
    requires WellFormed(vs) && Level(vs, p)
    ensures AllEven(Normalised(vs)) && SameMembers(vs, Normalised(vs))
  {
    hide Sum, Total, Highest, Lowest, Ratio, WellFormed;
    PositiveTotal(vs);
    RotateMembers(vs);
    SumOfLevel(vs, p);
    var hi, lo := Extremes(vs);
    AverageIs(p, |vs|);
    assert Rescale(vs) == vs;
  }

  lemma PositiveTotal(vs: seq<Validator>)
    requires WellFormed(vs)
    ensures Total(vs) > 0 && |vs| > 0
  {
    TotalPositive(vs, 0, 0);
  }

  lemma AverageIs(p: int, n: nat)
    requires n > 0
    ensures p * n / n == p
  {
    var q := p * n / n;
    DivRemains(p * n, n);
    MulSub(n, p, q);
    MulSub(n, p - q, 1);
    MulSign(n, p - q);
    MulSign(n, p - q - 1);
  }

  lemma {:induction false} JoinedLevel(changes: seq<Change>, total: int)
    ensures Level(Joined([], changes, total), -(total + total / 8)) && Kept([], changes) == []
  {
    if |changes| > 0 {
      JoinedLevel(changes[1..], total);
    }
  }

  /** At genesis all priorities are even; the first height is one turn on, the second another. */
  lemma {:induction false} GenesisTurns(changes: seq<Change>, params: nat, s: State) returns (even: seq<Validator>)
    requires Genesis(changes, params) == Some(s)
    ensures WellFormed(even) && AllEven(even) && Sorted(even)
    ensures s.current == Rotations(even, 1) && s.next == Increment(s.current, 1)
  {
    hide Increment, WellFormed;
    UpdatedNothing([], changes);
    even := Updated([], changes).value;
    UpdatedWellFormed([], changes);
    var merged := UpdatedOrder([], changes);
    FromNothing(changes);
    EvenTurn(even);
  }

  lemma EvenTurn(vs: seq<Validator>)
    requires WellFormed(vs) && AllEven(vs)
    ensures Increment(vs, 1) == Rotations(vs, 1)
  {
    EvenIsNormal(vs);
  }

  lemma {:induction false} FromNothing(changes: seq<Change>)
    requires |changes| > 0 && Updated([], changes).Some?
    ensures AllEven(Updated([], changes).value)
  {
    hide Normalised, ByPower, PowerBeforeRemovals, Joined, Total;
    var total := PowerBeforeRemovals([], changes);
    var merged := Kept([], changes) + Joined([], changes, total);
    JoinedLevel(changes, total);
    assert merged == Joined([], changes, total);
    MergedDistinct([], changes, total);
    LevelIsEven(merged, -(total + total / 8));
    var vs := Normalised(merged);
    ByPowerDistinct(vs);
    forall i | 0 <= i < |ByPower(vs)| ensures ByPower(vs)[i].priority == 0 {
      assert ByPower(vs)[i] in ByPower(vs);
    }
  }
}
