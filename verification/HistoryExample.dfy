/** A run from genesis whose sparse history does not load the sets that were in force. */
module HistoryExample {
  import opened Common
  import opened Validators
  import opened Priorities
  import opened History
  import opened HistoryProofs

  lemma {:induction false} OfThree(vs: seq<Validator>)
    requires |vs| == 3
    ensures Total(vs) == vs[0].power + vs[1].power + vs[2].power
    ensures Sum(vs) == vs[0].priority + vs[1].priority + vs[2].priority
    ensures forall i :: 0 <= i < 3 ==> Lowest(vs) <= vs[i].priority <= Highest(vs)
    ensures exists i :: 0 <= i < 3 && Highest(vs) == vs[i].priority
    ensures exists i :: 0 <= i < 3 && Lowest(vs) == vs[i].priority
  {
    var two := vs[..2];
    var one := two[..1];
    assert |one| == 1 && one[0] == vs[0] && two[1] == vs[1];
    assert Total(one) == vs[0].power && Sum(one) == vs[0].priority by { assert one[..0] == []; }
    assert Total(two) == Total(one) + two[1].power && Sum(two) == Sum(one) + two[1].priority;
    assert Highest(one) == Lowest(one) == vs[0].priority;
    assert Highest(two) == if two[1].priority > Highest(one) then two[1].priority else Highest(one);
    assert Lowest(two) == if two[1].priority < Lowest(one) then two[1].priority else Lowest(one);
  }

  lemma {:induction false} RotateThree(vs: seq<Validator>, m: nat)
    requires |vs| == 3 && m < 3
    requires forall i :: 0 <= i < 3 && i != m ==> vs[i].priority + vs[i].power < vs[m].priority + vs[m].power
    ensures var up := Raised(vs);
            Rotate(vs) == up[m := up[m].(priority := up[m].priority - Total(vs))]
  {
    MostestLeads(Raised(vs), m);
    hide Mostest, Total;
  }

  /** A calm, centred set of three, incremented once. */
  lemma {:induction false} IncrementThree(vs: seq<Validator>, m: nat)
    requires |vs| == 3 && m < 3 && 0 <= vs[0].priority + vs[1].priority + vs[2].priority < 3
    requires forall i, j :: 0 <= i < 3 && 0 <= j < 3 ==>
               vs[i].priority - vs[j].priority <= 2 * (vs[0].power + vs[1].power + vs[2].power)
    requires forall i :: 0 <= i < 3 && i != m ==> vs[i].priority + vs[i].power < vs[m].priority + vs[m].power
    ensures var up := Raised(vs);
            Increment(vs, 1) == up[m := up[m].(priority := up[m].priority - (vs[0].power + vs[1].power + vs[2].power))]
  {
    hide Increment, Rotate, Raised, Total, Sum, Highest, Lowest;
    OfThree(vs);
    IncrementOnce(vs);
    RotateThree(vs, m);
  }

  const GENESIS := [Change(1, 12), Change(2, 8), Change(0, 2)]
  const START := [Validator(1, 12, 0), Validator(2, 8, 0), Validator(0, 2, 0)]
  const FIRST := [Validator(1, 12, -10), Validator(2, 8, 8), Validator(0, 2, 2)]
  const SECOND := [Validator(1, 12, 2), Validator(2, 8, -6), Validator(0, 2, 4)]
  const REPLACE := [Change(2, 0), Change(4, 1)]
  const REPLACED := [Validator(1, 12, 9), Validator(0, 2, 11), Validator(4, 1, -18)]
  const THIRD := [Validator(1, 12, 6), Validator(0, 2, 13), Validator(4, 1, -17)]
  const FOURTH := [Validator(1, 12, 3), Validator(0, 2, 15), Validator(4, 1, -16)]

  lemma {:induction false} Sorted(vs: seq<Validator>)
    requires |vs| == 3 && vs[0].power > vs[1].power > vs[2].power
    ensures ByPower(vs) == vs
  {
    assert vs[1..][1..] == [vs[2]] && [vs[2]][1..] == [];
    assert ByPower([vs[2]]) == [vs[2]];
    assert ByPower(vs[1..]) == vs[1..];
  }

  const STARTING := [Validator(1, 12, -24), Validator(2, 8, -24), Validator(0, 2, -24)]
  const REPLACING := [Validator(1, 12, 2), Validator(0, 2, 4), Validator(4, 1, -25)]

  lemma {:induction false} StartingIs()
    ensures PowerBeforeRemovals([], GENESIS) == 22 && Kept([], GENESIS) + Joined([], GENESIS, 22) == STARTING
  {
    assert GENESIS[1..] == [Change(2, 8), Change(0, 2)] && [Change(2, 8), Change(0, 2)][1..] == [Change(0, 2)];
    assert Joined([], [Change(0, 2)], 22) == [STARTING[2]];
    assert Joined([], [Change(2, 8), Change(0, 2)], 22) == [STARTING[1], STARTING[2]];
  }

  lemma {:induction false} ReplacingIs()
    ensures PowerBeforeRemovals(SECOND, REPLACE) == 23 &&
            Kept(SECOND, REPLACE) + Joined(SECOND, REPLACE, 23) == REPLACING
  {
    assert REPLACE[1..] == [Change(4, 1)] && [Change(4, 1)][1..] == [];
    OfThree(SECOND);
    assert SECOND[1..] == [SECOND[1], SECOND[2]] && [SECOND[1], SECOND[2]][1..] == [SECOND[2]];
    assert SECOND[1].addr == 2 && HasAddr(SECOND, 2);
    assert Joined(SECOND, [Change(4, 1)], 23) == [REPLACING[2]];
    assert Kept(SECOND, REPLACE) == [REPLACING[0], REPLACING[1]];
  }

  lemma {:induction false} Starts()
    ensures Updated([], GENESIS) == Some(START)
  {
    hide Kept, Joined, PowerBeforeRemovals, ByPower, Total, Sum, Highest, Lowest;
    StartingIs();
    OfThree(STARTING);
    assert Normalised(STARTING) == START;
    Sorted(START);
  }

  lemma {:induction false} Replaces()
    ensures Updated(SECOND, REPLACE) == Some(REPLACED)
  {
    hide Kept, Joined, PowerBeforeRemovals, ByPower, Total, Sum, Highest, Lowest;
    ReplacingIs();
    OfThree(REPLACING);
    assert SECOND[1].addr == 2 && HasAddr(SECOND, 2);
    assert Normalised(REPLACING) == REPLACED;
    Sorted(REPLACED);
  }

  lemma Rotates()
    ensures Increment(START, 1) == FIRST && Increment(FIRST, 1) == SECOND
    ensures Increment(REPLACED, 1) == THIRD && Increment(THIRD, 1) == FOURTH
    ensures !Calm(FOURTH)
  {
    hide Increment, Total, Highest, Lowest;
    IncrementThree(START, 0);
    IncrementThree(FIRST, 1);
    IncrementThree(REPLACED, 0);
    IncrementThree(THIRD, 0);
    OfThree(FOURTH);
  }

  /** Block 1 replaces a validator by a newcomer. The set in force at height 4 is then too
      wide, so the pointers at 4 and 5 cannot both load what was in force. */
  lemma SparseDiffers() returns (states: seq<State>, blocks: seq<Block>, h: nat)
    ensures IsRun(states, blocks) && 1 <= h <= |states| + 1 && !LoadsExactly(states, h)
  {
    Starts();
    Replaces();
    Rotates();
    hide Updated, Increment, Calm, LoadsExactly;
    states := [State(0, [], FIRST, SECOND, 1, 0, 1), State(1, FIRST, SECOND, THIRD, 3, 0, 1),
               State(2, SECOND, THIRD, FOURTH, 3, 0, 1), State(3, THIRD, FOURTH, Increment(FOURTH, 1), 3, 0, 1)];
    blocks := [Block(REPLACE, None), Block([], None), Block([], None)];
    assert Genesis(GENESIS, 0) == Some(states[0]);
    UpdatedNothing(THIRD, []);
    UpdatedNothing(FOURTH, []);
    assert FromGenesis(states[0]);
    assert Follows(states, blocks, 0) && Follows(states, blocks, 1) && Follows(states, blocks, 2);
    assert IsRun(states, blocks);
    assert !Full(states, 4) && !Full(states, 5) && !Calm(InForce(states, 4));
    RunLinked(states, blocks, 4);
    assert states[..4] == states;
    ExactIffCalmHistory(states);
    h :| 1 <= h <= |states| + 1 && !LoadsExactly(states, h);
  }
}
