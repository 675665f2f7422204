/** What the stored history of a run from genesis says about the validators in force. */
module HistoryProofs {
  import opened Common
  import opened Validators
  import opened Priorities
  import opened History

  // ----- what links the states of a run

  ghost predicate StateOk(s: State, i: nat) {
    && s.height == i && WellFormed(s.current) && WellFormed(s.next)
    && 1 <= s.valsChanged <= i + 2 && 1 <= s.paramsChanged <= i + 1
  }

  /** A height not changed at repeats the one before, incremented once. */
  ghost predicate SetLinked(states: seq<State>, h: nat)
    requires 2 <= h <= |states| + 1
  {
    Changed(states, h) != h ==>
      && Changed(states, h) == Changed(states, h - 1)
      && |InForce(states, h - 1)| > 0 && InForce(states, h) == Increment(InForce(states, h - 1), 1)
  }

  ghost predicate ParamsLinked(states: seq<State>, i: nat)
    requires 0 < i < |states|
  {
    states[i].paramsChanged != i + 1 ==>
      states[i].paramsChanged == states[i - 1].paramsChanged && states[i].params == states[i - 1].params
  }

  ghost predicate Linked(states: seq<State>) {
    && |states| > 0
    && (forall i :: 0 <= i < |states| ==> StateOk(states[i], i))
    && (forall h :: 2 <= h <= |states| + 1 ==> SetLinked(states, h))
    && (forall i :: 0 < i < |states| ==> ParamsLinked(states, i))
  }

  lemma GenesisLinked(s: State)
    requires FromGenesis(s)
    ensures Linked([s])
  {
    hide Updated, Increment, WellFormed;
    var vs, params :| Genesis(vs, params) == Some(s);
    assert |vs| > 0 by { UpdatedNothing([], vs); }
    assert Distinct([]);
    UpdatedWellFormed([], vs);
    IncrementWellFormed(Updated([], vs).value, 1);
    IncrementWellFormed(s.current, 1);
    assert |s.current| > 0 by { NotEmpty(s.current); }
  }

  lemma NotEmpty(vs: seq<Validator>)
    requires WellFormed(vs)
    ensures |vs| > 0 && Distinct(vs)
  {
  }

  lemma NextOk(s: State, b: Block, i: nat)
    requires StateOk(s, i) && |s.next| > 0 && UpdateState(s, b).Some?
    ensures StateOk(UpdateState(s, b).value, i + 1)
  {
    hide Updated, Increment, WellFormed;
    NotEmpty(s.next);
    UpdatedWellFormed(s.next, b.changes);
    IncrementWellFormed(Updated(s.next, b.changes).value, 1);
  }

  lemma {:induction false} LongerLinked(states: seq<State>, b: Block, s': State)
    requires Linked(states)
    requires var s := states[|states| - 1]; |s.next| > 0 && UpdateState(s, b) == Some(s')
    ensures Linked(states + [s'])
  {
    hide Updated, Increment, WellFormed;
    var n := |states|;
    var longer, s := states + [s'], states[n - 1];
    NextOk(s, b, n - 1);
    UpdatedNothing(s.next, b.changes);
    assert SetLinked(longer, n + 2) && ParamsLinked(longer, n) by {
      assert longer[n] == s' && longer[n - 1] == s;
    }
    forall h | 2 <= h <= n + 1 ensures SetLinked(longer, h) {
      assert SetLinked(states, h);
    }
    forall i | 0 < i < n ensures ParamsLinked(longer, i) {
      assert ParamsLinked(states, i);
    }
  }

  /** Every run from genesis is linked. */
  lemma {:induction false} RunLinked(states: seq<State>, blocks: seq<Block>, n: nat)
    requires IsRun(states, blocks) && 1 <= n <= |states|
    ensures Linked(states[..n])
  {
    hide FromGenesis, UpdateState, Linked;
    if n == 1 {
      GenesisLinked(states[0]);
      assert states[..1] == [states[0]];
    } else {
      RunLinked(states, blocks, n - 1);
      assert Follows(states, blocks, n - 2);
      assert states[..n - 1][n - 2] == states[n - 2];
      LongerLinked(states[..n - 1], blocks[n - 2], states[n - 1]);
      assert states[..n] == states[..n - 1] + [states[n - 1]];
    }
  }

  lemma UpdatedNothing(vs: seq<Validator>, changes: seq<Change>)
    ensures |changes| == 0 ==> Updated(vs, changes) == Some(vs)
  {
  }

  lemma LinkedAt(states: seq<State>, i: nat)
    requires Linked(states) && i < |states|
    ensures StateOk(states[i], i) && SetLinked(states, i + 2) && (i > 0 ==> ParamsLinked(states, i))
  {
  }

  // ----- the stored entries in closed form

  /** The height a stored entry points to. */
  function Changed(states: seq<State>, h: nat): nat
    requires 1 <= h <= |states| + 1
  {
    if h == 1 then 1 else states[h - 2].valsChanged
  }

  predicate Full(states: seq<State>, h: nat)
    requires 1 <= h <= |states| + 1
  {
    h == Changed(states, h) || h % INTERVAL == 0
  }

  function Entry(states: seq<State>, h: nat): ValInfo
    requires |states| > 0 && 1 <= h <= |states| + 1
  {
    ValInfo(Changed(states, h), if Full(states, h) then Some(InForce(states, h)) else None)
  }

  ghost predicate Heights(states: seq<State>) {
    forall i :: 0 <= i < |states| ==> states[i].height == i
  }

  /** Heights 1 to n + 1 are stored, and hold what Entry says. */
  ghost predicate HoldsEntries(vals: map<nat, ValInfo>, states: seq<State>, n: nat)
    requires 1 <= n <= |states|
  {
    && (forall h: nat :: h in vals <==> 1 <= h <= n + 1)
    && (forall h: nat :: 1 <= h <= n + 1 ==> vals[h] == Entry(states, h))
  }

  lemma {:induction false} StoredEntries(states: seq<State>, n: nat)
    requires Heights(states) && 1 <= n <= |states|
    ensures HoldsEntries(Stored(states[..n]).vals, states, n)
  {
    hide HoldsEntries, SaveState;
    assert states[..n][..n - 1] == states[..n - 1];
    if n > 1 {
      StoredEntries(states, n - 1);
      NextEntry(Stored(states[..n - 1]), states, n);
    } else {
      assert states[..0] == [];
      FirstEntries(states);
    }
  }

  lemma FirstEntries(states: seq<State>)
    requires Heights(states) && |states| > 0
    ensures HoldsEntries(SaveState(Stored([]), states[0]).vals, states, 1)
  {
  }

  lemma NextEntry(db: DB, states: seq<State>, n: nat)
    requires Heights(states) && 1 < n <= |states| && HoldsEntries(db.vals, states, n - 1)
    ensures HoldsEntries(SaveState(db, states[n - 1]).vals, states, n)
  {
    assert SaveState(db, states[n - 1]).vals == db.vals[n + 1 := Entry(states, n + 1)];
  }

  function ParamsEntry(states: seq<State>, h: nat): ParamsInfo
    requires 1 <= h <= |states|
  {
    var changed := states[h - 1].paramsChanged;
    ParamsInfo(changed, if changed == h then Some(states[h - 1].params) else None)
  }

  ghost predicate HoldsParams(params: map<nat, ParamsInfo>, states: seq<State>, n: nat)
    requires n <= |states|
  {
    && (forall h: nat :: h in params <==> 1 <= h <= n)
    && (forall h: nat :: 1 <= h <= n ==> params[h] == ParamsEntry(states, h))
  }

  lemma {:induction false} StoredParams(states: seq<State>, n: nat)
    requires Heights(states) && n <= |states|
    ensures HoldsParams(Stored(states[..n]).params, states, n)
  {
    if n > 0 {
      assert states[..n][..n - 1] == states[..n - 1];
      StoredParams(states, n - 1);
    }
  }

  /** From the height of the last change on, entries point to it. */
  lemma {:induction false} SinceChange(states: seq<State>, h: nat, j: nat)
    requires Linked(states) && 1 <= j <= h <= |states| + 1 && Changed(states, h) <= j
    ensures Changed(states, j) == Changed(states, h)
  {
    hide Linked, Increment, InForce, WellFormed;
    if j < h {
      LinkedAt(states, h - 2);
      SinceChange(states, h - 1, j);
    }
  }

  lemma ChangedWithin(states: seq<State>, h: nat)
    requires Linked(states) && 1 <= h <= |states| + 1
    ensures |states| > 0 && 1 <= Changed(states, h) <= h && WellFormed(InForce(states, h))
  {
    hide Linked, WellFormed, SetLinked, ParamsLinked;
    LinkedStart(states);
    LinkedAt(states, if h == 1 then 0 else h - 2);
  }

  lemma LinkedStart(states: seq<State>)
    requires Linked(states)
    ensures |states| > 0
  {
  }

  lemma LastStoredBounds(h: nat, changed: nat, at: nat)
    requires changed < h && h % INTERVAL != 0 && at == LastStored(h, changed)
    ensures changed <= at < h && h - at < INTERVAL && (at == changed || at % INTERVAL == 0)
    ensures forall j :: at < j <= h ==> j % INTERVAL != 0
  {
  }

  /** Where LoadValidators looks for a height that is not full: the last full height. */
  lemma {:induction false} LastFull(states: seq<State>, h: nat, at: nat)
    requires Linked(states) && 1 <= h <= |states| + 1 && !Full(states, h)
    requires at == LastStored(h, Changed(states, h))
    ensures 1 <= at < h && h - at < INTERVAL && Full(states, at)
    ensures forall j :: at < j <= h ==> !Full(states, j)
  {
    hide Linked, WellFormed, InForce, Changed, LastStored;
    ChangedWithin(states, h);
    LastStoredBounds(h, Changed(states, h), at);
    SinceChange(states, h, at);
    forall j | at < j <= h ensures !Full(states, j) {
      SinceChange(states, h, j);
    }
  }

  lemma {:induction false} SinceFull(states: seq<State>, at: nat, h: nat)
    requires Linked(states) && 1 <= at <= h <= |states| + 1
    requires forall j :: at < j <= h ==> !Full(states, j)
    ensures WellFormed(InForce(states, at)) && InForce(states, h) == OneByOne(InForce(states, at), h - at)
  {
    hide Linked, InForce, Changed, Increment;
    ChangedWithin(states, at);
    if h > at {
      SinceFull(states, at, h - 1);
      assert !Full(states, h);
      hide WellFormed, Full;
      LinkedAt(states, h - 2);
    }
  }

  // ----- loading

  /** The closed form of what LoadValidators returns on a run's store. */
  lemma {:induction false} Loads(states: seq<State>, h: nat, at: nat)
    requires Linked(states) && 1 <= h <= |states| + 1
    requires at == if Full(states, h) then h else LastStored(h, Changed(states, h))
    ensures |states| > 0 && 1 <= at <= h && h - at < INTERVAL && Full(states, at)
    ensures WellFormed(InForce(states, at))
    ensures InForce(states, h) == OneByOne(InForce(states, at), h - at)
    ensures LoadValidators(Stored(states).vals, h) == Found(AtOnce(InForce(states, at), h - at))
  {
    hide Linked, InForce, Changed, Increment, Full, Stored, LastStored;
    RunStores(states);
    ChangedWithin(states, h);
    if !Full(states, h) {
      LastFull(states, h, at);
    }
    SinceFull(states, at, h);
    assert Stored(states).vals[at] == Entry(states, at);
    assert Stored(states).vals[h] == Entry(states, h);
  }

  lemma RunStores(states: seq<State>)
    requires Linked(states)
    ensures |states| > 0 && HoldsEntries(Stored(states).vals, states, |states|)
  {
    hide Stored;
    StoredEntries(states, |states|);
    assert states[..|states|] == states;
  }

  /** LoadValidators finds every saved height, with the members, powers and order of the
      set in force. */
  lemma LoadsMembers(states: seq<State>, h: nat)
    requires Linked(states) && 1 <= h <= |states| + 1
    ensures var load := LoadValidators(Stored(states).vals, h);
            load.Found? && SameMembers(load.value, InForce(states, h))
  {
    hide Linked, InForce, LoadValidators, LastStored, Full, Changed, Stored, OneByOne, AtOnce;
    var at := if Full(states, h) then h else LastStored(h, Changed(states, h));
    Loads(states, h, at);
    IncrementMembers(InForce(states, at), h - at);
  }

  /** No set needs rescaling between two heights stored as pointers. */
  ghost predicate CalmHistory(states: seq<State>)
    requires |states| > 0
  {
    forall h :: 1 <= h <= |states| && !Full(states, h) && !Full(states, h + 1) ==>
      |InForce(states, h)| > 0 && Calm(InForce(states, h))
  }

  ghost predicate LoadsExactly(states: seq<State>, h: nat)
    requires |states| > 0 && 1 <= h <= |states| + 1
  {
    LoadValidators(Stored(states).vals, h) == Found(InForce(states, h))
  }

  /** Two pointers in a row share the last full height. */
  lemma {:induction false} SameBase(states: seq<State>, h: nat, at: nat)
    requires Linked(states) && 1 <= h <= |states| && !Full(states, h) && !Full(states, h + 1)
    requires at == LastStored(h, Changed(states, h))
    ensures at == LastStored(h + 1, Changed(states, h + 1))
  {
    hide Linked, Full, LastStored, Changed;
    LastFull(states, h, at);
    LastFull(states, h + 1, LastStored(h + 1, Changed(states, h + 1)));
  }

  lemma {:induction false} ExactMeansCalm(states: seq<State>, h: nat)
    requires Linked(states) && 1 <= h <= |states| && !Full(states, h) && !Full(states, h + 1)
    requires LoadsExactly(states, h) && LoadsExactly(states, h + 1)
    ensures |InForce(states, h)| > 0 && Calm(InForce(states, h))
  {
    hide Linked, Full, LastStored, Changed, InForce, Stored, LoadValidators, OneByOne, AtOnce, Calm;
    var at := LastStored(h, Changed(states, h));
    SameBase(states, h, at);
    LastFull(states, h, at);
    Loads(states, h, at);
    Loads(states, h + 1, at);
    AgreeTells(InForce(states, at), h - at);
  }

  lemma {:induction false} CalmMeansExact(states: seq<State>, h: nat)
    requires Linked(states) && 1 <= h <= |states| + 1 && CalmHistory(states)
    ensures LoadsExactly(states, h)
  {
    hide Linked, Full, LastStored, Changed, InForce, Stored, LoadValidators, OneByOne, AtOnce, Calm;
    var at := if Full(states, h) then h else LastStored(h, Changed(states, h));
    Loads(states, h, at);
    var base := InForce(states, at);
    if !Full(states, h) {
      LastFull(states, h, at);
    }
    forall j | 1 <= j < h - at ensures Calm(OneByOne(base, j)) {
      assert !Full(states, at + j) && !Full(states, at + j + 1);
      SinceFull(states, at, at + j);
    }
    CalmAgree(base, h - at);
  }

  /** Every height loads the very set that was in force, priorities included, exactly when
      no set between two pointers is spread wide enough to be rescaled. */
  lemma {:induction false} ExactIffCalmHistory(states: seq<State>)
    requires Linked(states)
    ensures (forall h :: 1 <= h <= |states| + 1 ==> LoadsExactly(states, h)) <==> CalmHistory(states)
  {
    if CalmHistory(states) {
      hide *;
      forall h | 1 <= h <= |states| + 1 ensures LoadsExactly(states, h) {
        CalmMeansExact(states, h);
      }
    } else {
      hide Linked, Full, InForce, Calm, LoadsExactly;
      if forall h :: 1 <= h <= |states| + 1 ==> LoadsExactly(states, h) {
        forall h | 1 <= h <= |states| && !Full(states, h) && !Full(states, h + 1)
          ensures |InForce(states, h)| > 0 && Calm(InForce(states, h))
        {
          ExactMeansCalm(states, h);
        }
      }
    }
  }

  // ----- the parameters

  lemma {:induction false} ParamsSince(states: seq<State>, h: nat, j: nat)
    requires Linked(states) && 1 <= j <= h <= |states| && states[h - 1].paramsChanged <= j
    ensures states[j - 1].paramsChanged == states[h - 1].paramsChanged && states[j - 1].params == states[h - 1].params
  {
    if j < h {
      assert ParamsLinked(states, h - 1);
      ParamsSince(states, h - 1, j);
    }
  }

  /** LoadConsensusParams finds the parameters in force at every saved height. */
  lemma {:induction false} LoadsParams(states: seq<State>, h: nat)
    requires Linked(states) && 1 <= h <= |states|
    ensures LoadParams(Stored(states).params, h) == Found(Some(ParamsInForce(states, h)))
  {
    hide Linked, WellFormed, Stored, SetLinked, ParamsLinked;
    RunStoresParams(states);
    LinkedAt(states, h - 1);
    var at := states[h - 1].paramsChanged;
    ParamsSince(states, h, at);
    assert Stored(states).params[at] == ParamsEntry(states, at);
    assert Stored(states).params[h] == ParamsEntry(states, h);
  }

  lemma RunStoresParams(states: seq<State>)
    requires Linked(states)
    ensures HoldsParams(Stored(states).params, states, |states|)
  {
    hide Stored;
    StoredParams(states, |states|);
    assert states[..|states|] == states;
  }

  // ----- runs from genesis

  /** The state's validators are the sets in force at its height, the next and the one after. */
  lemma StateHoldsSets(states: seq<State>, blocks: seq<Block>, i: nat)
    requires IsRun(states, blocks) && i < |states|
    ensures states[i].height == i
    ensures i > 0 ==> states[i].last == InForce(states, i)
    ensures states[i].current == InForce(states, i + 1) && states[i].next == InForce(states, i + 2)
  {
    hide Updated, Increment;
    RunLinked(states, blocks, |states|);
    assert states[..|states|] == states;
    if i > 0 {
      assert Follows(states, blocks, i - 1);
      if i > 1 {
        assert Follows(states, blocks, i - 2);
      }
    }
  }

  /** For every run from genesis and every saved height: the set loaded has the members,
      powers and order of the one in force, the parameters loaded are those in force, and
      all sets load exactly if and only if none between two pointers needs rescaling. */
  lemma {:induction false} EveryRunLoads(states: seq<State>, blocks: seq<Block>)
    requires IsRun(states, blocks)
    ensures |states| > 0
    ensures forall h :: 1 <= h <= |states| + 1 ==>
              var load := LoadValidators(Stored(states).vals, h);
              load.Found? && SameMembers(load.value, InForce(states, h))
    ensures forall h :: 1 <= h <= |states| ==>
              LoadParams(Stored(states).params, h) == Found(Some(ParamsInForce(states, h)))
    ensures (forall h :: 1 <= h <= |states| + 1 ==> LoadsExactly(states, h)) <==> CalmHistory(states)
  {
    hide IsRun, Linked, Stored, LoadValidators, LoadParams, InForce, ParamsInForce, SameMembers, LoadsExactly,
         CalmHistory;
    assert |states| > 0 by { RunStarts(states, blocks); }
    RunLinked(states, blocks, |states|);
    assert states[..|states|] == states;
    forall h | 1 <= h <= |states| + 1
      ensures var load := LoadValidators(Stored(states).vals, h);
              load.Found? && SameMembers(load.value, InForce(states, h))
    {
      LoadsMembers(states, h);
    }
    forall h | 1 <= h <= |states|
      ensures LoadParams(Stored(states).params, h) == Found(Some(ParamsInForce(states, h)))
    {
      LoadsParams(states, h);
    }
    ExactIffCalmHistory(states);
  }

  lemma RunStarts(states: seq<State>, blocks: seq<Block>)
    requires IsRun(states, blocks)
    ensures |states| > 0
  {
  }
}
