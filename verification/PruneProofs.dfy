/** Pruning a store that a run from genesis has built: any number of times, over any range,
    completed or stopped on the way. */
module PruneProofs {
  import opened Common
  import opened Validators
  import opened Priorities
  import opened History
  import opened HistoryProofs
  import opened StateStore

  // ----- what a pruned store still holds

  /** The entry of the run, and what it points to. */
  ghost predicate EntryOk(vals: map<nat, ValInfo>, states: seq<State>, h: nat) {
    && |states| > 0 && 1 <= h <= |states| + 1 && h in vals && vals[h] == Entry(states, h)
    && (!Full(states, h) ==> LastStored(h, Changed(states, h)) in vals)
  }

  /** Everything from `base` on, and below it nothing that cannot be loaded. */
  ghost predicate ValsOk(vals: map<nat, ValInfo>, states: seq<State>, base: nat) {
    && (forall h: nat {:trigger EntryOk(vals, states, h)} :: h in vals ==> EntryOk(vals, states, h))
    && (forall h: nat :: base <= h <= |states| + 1 ==> h in vals)
  }

  ghost predicate ParamsEntryOk(params: map<nat, ParamsInfo>, states: seq<State>, h: nat) {
    && 1 <= h <= |states| && h in params && params[h] == ParamsEntry(states, h)
    && params[h].lastHeightChanged in params
  }

  ghost predicate ParamsOk(params: map<nat, ParamsInfo>, states: seq<State>, base: nat) {
    && (forall h: nat {:trigger ParamsEntryOk(params, states, h)} :: h in params ==> ParamsEntryOk(params, states, h))
    && (forall h: nat :: base <= h <= |states| ==> h in params)
  }

  /** The answers to the blocks of the run. */
  ghost predicate ResponsesOk(responses: map<nat, Block>, blocks: seq<Block>, base: nat) {
    && (forall h: nat :: h in responses ==> 1 <= h <= |blocks| && responses[h] == blocks[h - 1])
    && (forall h: nat :: 1 <= base <= h <= |blocks| ==> h in responses)
  }

  // ----- one prune: the validators

  /** A pointer over `to` leads where the pointer at `to` leads. */
  lemma {:induction false} SharedBase(states: seq<State>, to: nat, h: nat)
    requires Linked(states) && 1 <= to <= h <= |states| + 1 && !Full(states, h)
    requires LastStored(h, Changed(states, h)) < to
    ensures !Full(states, to) && LastStored(to, Changed(states, to)) == LastStored(h, Changed(states, h))
  {
    hide Linked, Full, LastStored, Changed;
    LastFull(states, h, LastStored(h, Changed(states, h)));
    assert !Full(states, to);
    LastFull(states, to, LastStored(to, Changed(states, to)));
  }

  /** The heights the entry at `to` keeps are below it, and full. */
  lemma {:induction false} KeptAreFull(vals: map<nat, ValInfo>, states: seq<State>, to: nat, h: nat)
    requires Linked(states) && EntryOk(vals, states, to) && h in KeepVals(vals, to)
    ensures 1 <= h < to && Full(states, h)
  {
    hide Linked, LastStored, Changed, InForce;
    LastFull(states, to, LastStored(to, Changed(states, to)));
    ChangedWithin(states, to);
    SinceChange(states, to, Changed(states, to));
  }

  /** So a kept entry that is there needs no completing. */
  lemma {:induction false} KeptEntry(vals: map<nat, ValInfo>, states: seq<State>, base: nat, to: nat, h: nat)
    requires Linked(states) && ValsOk(vals, states, base) && to in vals && h in KeepVals(vals, to) && h in vals
    ensures h < to && ValsKeepable(vals, h) && CompletedVals(vals, h) == vals[h]
    ensures |states| > 0 && 1 <= h <= |states| + 1 && vals[h].vals == Some(InForce(states, h))
  {
    hide Linked, KeepVals, LoadValidators, InForce, Changed, LastStored;
    assert EntryOk(vals, states, to) && EntryOk(vals, states, h);
    KeptAreFull(vals, states, to, h);
  }

  lemma {:induction false} PrunedHeight(vals: map<nat, ValInfo>, states: seq<State>, base: nat, from: nat, to: nat,
                                        h: nat)
    requires Linked(states) && ValsOk(vals, states, base) && to in vals
    ensures var keep := KeepVals(vals, to);
            var after := PrunedVals(vals, keep, from, to);
            && (h in after <==> h in vals && (from <= h < to ==> h in keep))
            && (h in after ==> after[h] == vals[h])
            && (h in after && from <= h < to ==>
                  |states| > 0 && 1 <= h <= |states| + 1 && vals[h].vals == Some(InForce(states, h)))
  {
    hide Linked, ValsOk, KeepVals, ValsKeepable, CompletedVals, InForce;
    if h in vals && h in KeepVals(vals, to) {
      KeptEntry(vals, states, base, to, h);
    }
  }

  /** What an entry that survives points to survives too. */
  lemma {:induction false} TargetSurvives(vals: map<nat, ValInfo>, states: seq<State>,
                                          base: nat, from: nat, to: nat, h: nat)
    requires Linked(states) && ValsOk(vals, states, base) && to in vals
    requires h in PrunedVals(vals, KeepVals(vals, to), from, to)
    ensures EntryOk(PrunedVals(vals, KeepVals(vals, to), from, to), states, h)
  {
    hide Linked, LastStored, Changed, Full, InForce, PrunedVals;
    PrunedHeight(vals, states, base, from, to, h);
    assert EntryOk(vals, states, h) && EntryOk(vals, states, to);
    if !Full(states, h) {
      var at := LastStored(h, Changed(states, h));
      LastFull(states, h, at);
      PrunedHeight(vals, states, base, from, to, at);
      if h >= to && at < to {
        SharedBase(states, to, h);
      }
    }
  }

  lemma {:induction false} PrunedValsOk(vals: map<nat, ValInfo>, states: seq<State>, base: nat, from: nat, to: nat)
    requires Linked(states) && ValsOk(vals, states, base) && to in vals
    ensures ValsOk(PrunedVals(vals, KeepVals(vals, to), from, to), states, Later(base, to))
  {
    hide Linked, KeepVals, InForce, PrunedVals, EntryOk;
    var after := PrunedVals(vals, KeepVals(vals, to), from, to);
    forall h: nat ensures h in after ==> EntryOk(after, states, h) {
      if h in after {
        TargetSurvives(vals, states, base, from, to, h);
      }
    }
    forall h: nat | Later(base, to) <= h <= |states| + 1 ensures h in after {
      PrunedHeight(vals, states, base, from, to, h);
    }
  }

  function Later(a: nat, b: nat): nat {
    if a < b then b else a
  }

  /** Where two stores of a run both hold a height, they load the same set. */
  lemma {:induction false} SameLoads(a: map<nat, ValInfo>, b: map<nat, ValInfo>, states: seq<State>, h: nat)
    requires Linked(states) && EntryOk(a, states, h) && EntryOk(b, states, h)
    requires !Full(states, h) ==>
               var at := LastStored(h, Changed(states, h)); EntryOk(a, states, at) && EntryOk(b, states, at)
    ensures LoadValidators(a, h) == LoadValidators(b, h)
  {
    hide Linked, Changed, LastStored, InForce, Increment, Full;
  }

  /** The entries that survive load what they loaded before, and those in the pruned range
      the very set in force. */
  lemma {:induction false} PrunedValsLoad(vals: map<nat, ValInfo>, states: seq<State>,
                                          base: nat, from: nat, to: nat, h: nat)
    requires Linked(states) && ValsOk(vals, states, base) && to in vals
    ensures var after := PrunedVals(vals, KeepVals(vals, to), from, to);
            && (h >= to && h in vals ==> h in after)
            && (h in after ==> h in vals && LoadValidators(after, h) == LoadValidators(vals, h))
            && (h in after && from <= h < to ==>
                  |states| > 0 && 1 <= h <= |states| + 1 && LoadValidators(after, h) == Found(InForce(states, h)))
  {
    hide Linked, KeepVals, Changed, InForce, PrunedVals, Increment, Full, LastStored;
    var after := PrunedVals(vals, KeepVals(vals, to), from, to);
    PrunedHeight(vals, states, base, from, to, h);
    if h in after {
      PrunedValsOk(vals, states, base, from, to);
      assert EntryOk(vals, states, h) && EntryOk(after, states, h);
      if !Full(states, h) {
        var at := LastStored(h, Changed(states, h));
        assert EntryOk(vals, states, at) && EntryOk(after, states, at);
      }
      SameLoads(after, vals, states, h);
    }
  }

  // ----- one prune: the consensus parameters

  lemma {:induction false} KeptParams(params: map<nat, ParamsInfo>, states: seq<State>, base: nat, to: nat, h: nat)
    requires Linked(states) && ParamsOk(params, states, base) && to in params && h in KeepParams(params, to)
    ensures h in params && ParamsKeepable(params, h) && CompletedParams(params, h) == params[h]
    ensures 1 <= h <= |states| && params[h].params == Some(ParamsInForce(states, h))
  {
    hide Linked, LoadParams, WellFormed, SetLinked, ParamsLinked;
    assert ParamsEntryOk(params, states, to);
    LinkedAt(states, to - 1);
    ParamsSince(states, to, h);
    assert ParamsEntryOk(params, states, h);
  }

  lemma {:induction false} PrunedParamsHeight(params: map<nat, ParamsInfo>, states: seq<State>,
                                              base: nat, from: nat, to: nat, h: nat)
    requires Linked(states) && ParamsOk(params, states, base) && to in params
    ensures var keep := KeepParams(params, to);
            var after := PrunedParams(params, keep, from, to);
            && (h in after <==> h in params && (from <= h < to ==> h in keep))
            && (h in after ==> after[h] == params[h])
            && (h in after && from <= h < to ==>
                  1 <= h <= |states| && params[h].params == Some(ParamsInForce(states, h)))
  {
    hide Linked, ParamsOk, KeepParams, ParamsKeepable, CompletedParams;
    if h in KeepParams(params, to) {
      KeptParams(params, states, base, to, h);
    }
  }

  lemma {:induction false} ParamsSurvive(params: map<nat, ParamsInfo>, states: seq<State>,
                                         base: nat, from: nat, to: nat, h: nat)
    requires Linked(states) && ParamsOk(params, states, base) && to in params
    requires h in PrunedParams(params, KeepParams(params, to), from, to)
    ensures ParamsEntryOk(PrunedParams(params, KeepParams(params, to), from, to), states, h)
  {
    hide Linked, PrunedParams, WellFormed, SetLinked, ParamsLinked;
    PrunedParamsHeight(params, states, base, from, to, h);
    assert ParamsEntryOk(params, states, h) && ParamsEntryOk(params, states, to);
    var at := params[h].lastHeightChanged;
    LinkedAt(states, h - 1);
    PrunedParamsHeight(params, states, base, from, to, at);
    if h >= to && at < to {
      ParamsSince(states, h, to);
    }
  }

  lemma {:induction false} PrunedParamsOk(params: map<nat, ParamsInfo>, states: seq<State>, base: nat, from: nat,
                                          to: nat)
    requires Linked(states) && ParamsOk(params, states, base) && to in params
    ensures ParamsOk(PrunedParams(params, KeepParams(params, to), from, to), states, Later(base, to))
  {
    hide Linked, KeepParams, PrunedParams, ParamsEntryOk;
    var after := PrunedParams(params, KeepParams(params, to), from, to);
    forall h: nat ensures h in after ==> ParamsEntryOk(after, states, h) {
      if h in after {
        ParamsSurvive(params, states, base, from, to, h);
      }
    }
    forall h: nat | Later(base, to) <= h <= |states| ensures h in after {
      PrunedParamsHeight(params, states, base, from, to, h);
    }
  }

  lemma {:induction false} HeldParamsLoad(params: map<nat, ParamsInfo>, states: seq<State>, base: nat, h: nat)
    requires Linked(states) && ParamsOk(params, states, base) && h in params
    ensures 1 <= h <= |states| && LoadParams(params, h) == Found(Some(ParamsInForce(states, h)))
  {
    hide Linked, WellFormed, SetLinked, ParamsLinked;
    assert ParamsEntryOk(params, states, h);
    var at := params[h].lastHeightChanged;
    LinkedAt(states, h - 1);
    ParamsSince(states, h, at);
    assert ParamsEntryOk(params, states, at);
  }

  lemma {:induction false} PrunedParamsLoad(params: map<nat, ParamsInfo>, states: seq<State>,
                                            base: nat, from: nat, to: nat, h: nat)
    requires Linked(states) && ParamsOk(params, states, base) && to in params
    ensures var after := PrunedParams(params, KeepParams(params, to), from, to);
            && (h >= to && h in params ==> h in after)
            && (h in after ==> h in params && 1 <= h <= |states| &&
                               LoadParams(after, h) == LoadParams(params, h) == Found(Some(ParamsInForce(states, h))))
  {
    hide Linked, ParamsOk, KeepParams, PrunedParams, LoadParams;
    var after := PrunedParams(params, KeepParams(params, to), from, to);
    PrunedParamsHeight(params, states, base, from, to, h);
    if h in after {
      PrunedParamsOk(params, states, base, from, to);
      HeldParamsLoad(params, states, base, h);
      HeldParamsLoad(after, states, Later(base, to), h);
    }
  }

  // ----- when pruning panics

  /** The entry at `to` points to a change in the range to prune that is no longer stored. */
  predicate ChangeGone(vals: map<nat, ValInfo>, from: nat, to: nat)
    requires to in vals
  {
    vals[to].vals.None? && from <= vals[to].lastHeightChanged && vals[to].lastHeightChanged !in vals
  }

  lemma {:induction false} ChangeIsBelow(vals: map<nat, ValInfo>, states: seq<State>, to: nat)
    requires Linked(states) && EntryOk(vals, states, to) && vals[to].vals.None?
    ensures vals[to].lastHeightChanged < to && vals[to].lastHeightChanged in KeepVals(vals, to)
    ensures forall h :: h in KeepVals(vals, to) ==> h == vals[to].lastHeightChanged || h in vals
  {
    hide Linked, LastStored, InForce, Changed;
    KeptAreFull(vals, states, to, vals[to].lastHeightChanged);
  }

  lemma {:induction false} PanicsIff(db: DB, states: seq<State>, base: nat, from: nat, to: nat)
    requires Linked(states) && ValsOk(db.vals, states, base) && ParamsOk(db.params, states, base)
    requires CanStart(db, from, to)
    ensures CanPrune(db, from, to) <==> !ChangeGone(db.vals, from, to)
    ensures from >= base ==> CanPrune(db, from, to)
  {
    hide Linked, KeepVals, KeepParams, ParamsKeepable, ParamsOk, LoadValidators;
    assert EntryOk(db.vals, states, to);
    var keepVals, keepParams := KeepVals(db.vals, to), KeepParams(db.params, to);
    if db.vals[to].vals.None? {
      ChangeIsBelow(db.vals, states, to);
    } else {
      NothingKept(db.vals, to);
    }
    var changed := db.vals[to].lastHeightChanged;
    if ChangeGone(db.vals, from, to) {
      assert !Keepable(db, keepVals, keepParams, changed);
    } else {
      forall h | from <= h < to ensures Keepable(db, keepVals, keepParams, h) {
        if h in keepVals { KeptEntry(db.vals, states, base, to, h); }
        if h in keepParams { KeptParams(db.params, states, base, to, h); }
      }
    }
    assert ChangeGone(db.vals, from, to) ==> from < base by {
      assert EntryOk(db.vals, states, to);
    }
  }

  lemma NothingKept(vals: map<nat, ValInfo>, to: nat)
    requires to in vals && vals[to].vals.Some?
    ensures KeepVals(vals, to) == {}
  {
  }

  // ----- histories

  /** Blocks are committed, and PruneStates called with any range; what it has flushed when
      it ends, panics or the node stops reaches down to `lo`. */
  datatype Event = Commit(block: Block) | Prune(from: int, to: int, lo: nat)

  /** A chain so far, and its store, which is complete from `base` on. */
  datatype Node = Node(states: seq<State>, blocks: seq<Block>, base: nat, db: DB)

  ghost predicate Next(a: Node, e: Event, b: Node)
    requires |a.states| > 0
  {
    match e
    case Commit(block) =>
      var s := a.states[|a.states| - 1];
      && |s.next| > 0 && UpdateState(s, block).Some?
      && var s' := UpdateState(s, block).value;
         var db := a.db.(responses := a.db.responses[|a.blocks| + 1 := block]);
         b == Node(a.states + [s'], a.blocks + [block], a.base, SaveState(db, s'))
    case Prune(from, to, lo) =>
      if !CanStart(a.db, from, to) then b == a
      else
        && from <= lo <= to && CanPrune(a.db, lo, to)
        && b == a.(base := Later(a.base, to), db := Pruned(a.db, lo, to))
  }

  ghost predicate StepAt(nodes: seq<Node>, events: seq<Event>, i: nat)
    requires i < |events| < |nodes|
  {
    |nodes[i].states| > 0 && Next(nodes[i], events[i], nodes[i + 1])
  }

  ghost predicate Starts(n: Node) {
    |n.states| == 1 && FromGenesis(n.states[0]) && n == Node(n.states, [], 1, Stored(n.states))
  }

  ghost predicate IsHistory(nodes: seq<Node>, events: seq<Event>) {
    && |nodes| == |events| + 1 && Starts(nodes[0])
    && forall i :: 0 <= i < |events| ==> StepAt(nodes, events, i)
  }

  ghost predicate Good(n: Node) {
    && Linked(n.states) && |n.states| == |n.blocks| + 1 && 1 <= n.base <= |n.states|
    && ValsOk(n.db.vals, n.states, n.base) && ParamsOk(n.db.params, n.states, n.base)
    && ResponsesOk(n.db.responses, n.blocks, n.base)
  }

  /** The store of a run as it was before any pruning. */
  lemma {:induction false} UnprunedVals(states: seq<State>)
    requires Linked(states)
    ensures |states| > 0 && ValsOk(Stored(states).vals, states, 1)
  {
    hide Linked, Stored, LastStored, Changed, InForce, Full;
    RunStores(states);
    forall h: nat | 1 <= h <= |states| + 1 ensures EntryOk(Stored(states).vals, states, h) {
      if !Full(states, h) {
        LastFull(states, h, LastStored(h, Changed(states, h)));
      }
    }
  }

  lemma {:induction false} UnprunedParams(states: seq<State>)
    requires Linked(states)
    ensures |states| > 0 && ParamsOk(Stored(states).params, states, 1)
  {
    hide Linked, Stored, WellFormed, SetLinked, ParamsLinked;
    LinkedStart(states);
    RunStoresParams(states);
    forall h: nat | 1 <= h <= |states| ensures ParamsEntryOk(Stored(states).params, states, h) {
      LinkedAt(states, h - 1);
    }
  }

  lemma GenesisGood(n: Node)
    requires Starts(n)
    ensures Good(n)
  {
    hide ValsOk, ParamsOk, FromGenesis, Linked, SaveState;
    GenesisLinked(n.states[0]);
    assert n.states == [n.states[0]];
    UnprunedVals(n.states);
    UnprunedParams(n.states);
    NoResponses(n.states);
  }

  lemma NoResponses(states: seq<State>)
    requires |states| == 1
    ensures Stored(states).responses == map[]
  {
    assert states[..0] == [];
  }

  // ----- saving one more state

  lemma Prefix(states: seq<State>, n: nat, h: nat)
    requires 1 <= n < |states| && 1 <= h <= n + 1
    ensures Entry(states[..n], h) == Entry(states, h) && Changed(states[..n], h) == Changed(states, h)
    ensures Full(states[..n], h) == Full(states, h)
  {
  }

  lemma Newest(vals: map<nat, ValInfo>, states: seq<State>, n: nat)
    requires 1 <= n == |states| - 1
    ensures SaveValidators(vals, n + 2, states[n].valsChanged, states[n].next) == vals[n + 2 := Entry(states, n + 2)]
  {
  }

  lemma {:induction false} SavedVals(vals: map<nat, ValInfo>, states: seq<State>, base: nat)
    requires Linked(states) && |states| > 1 && 1 <= base < |states|
    requires ValsOk(vals, states[..|states| - 1], base)
    ensures var s := states[|states| - 1];
            ValsOk(SaveValidators(vals, |states| + 1, s.valsChanged, s.next), states, base)
  {
    hide Linked, LastStored, Changed, Full, InForce, Entry, SaveValidators;
    var n := |states| - 1;
    Newest(vals, states, n);
    var after := vals[n + 2 := Entry(states, n + 2)];
    forall h: nat ensures h in after ==> EntryOk(after, states, h) {
      if h == n + 2 {
        NewestTarget(vals, states, n, base);
      } else if h in vals {
        assert EntryOk(vals, states[..n], h);
        Prefix(states, n, h);
      }
    }
  }

  /** What the newest entry points to is there. */
  lemma {:induction false} NewestTarget(vals: map<nat, ValInfo>, states: seq<State>, n: nat, base: nat)
    requires Linked(states) && 1 <= base <= n == |states| - 1 && ValsOk(vals, states[..n], base)
    ensures !Full(states, n + 2) ==> LastStored(n + 2, Changed(states, n + 2)) in vals
  {
    hide Linked, LastStored, Changed, Full, InForce, Entry;
    if !Full(states, n + 2) {
      var at := LastStored(n + 2, Changed(states, n + 2));
      LastFull(states, n + 2, at);
      if at < base {
        SharedBase(states, base, n + 2);
        Prefix(states, n, base);
        assert EntryOk(vals, states[..n], base);
      }
    }
  }

  lemma {:induction false} SavedParams(params: map<nat, ParamsInfo>, states: seq<State>, base: nat)
    requires Linked(states) && |states| > 1 && 1 <= base < |states|
    requires ParamsOk(params, states[..|states| - 1], base)
    ensures var s := states[|states| - 1];
            ParamsOk(SaveParams(params, |states|, s.paramsChanged, s.params), states, base)
  {
    hide Linked, ParamsLinked, WellFormed, SetLinked;
    var n := |states| - 1;
    var before, s := states[..n], states[n];
    var after := SaveParams(params, n + 1, s.paramsChanged, s.params);
    forall h: nat ensures h in after ==> ParamsEntryOk(after, states, h) {
      if h == n + 1 {
        NewestParams(params, states, n, base);
      } else if h in params {
        assert ParamsEntryOk(params, before, h);
      }
    }
  }

  lemma {:induction false} NewestParams(params: map<nat, ParamsInfo>, states: seq<State>, n: nat, base: nat)
    requires Linked(states) && 1 <= base <= n == |states| - 1 && ParamsOk(params, states[..n], base)
    ensures var at := states[n].paramsChanged; at in params || at == n + 1
  {
    hide Linked, WellFormed, SetLinked, ParamsLinked;
    var at := states[n].paramsChanged;
    LinkedAt(states, n);
    if at < base {
      ParamsSince(states, n + 1, base);
      assert ParamsEntryOk(params, states[..n], base);
    }
  }

  // ----- the theorems

  lemma {:induction false} CommitGood(a: Node, block: Block, b: Node)
    requires Good(a) && Next(a, Commit(block), b)
    ensures Good(b)
  {
    hide Linked, ValsOk, ParamsOk, SaveValidators, SaveParams, UpdateState, WellFormed, SetLinked, ParamsLinked;
    var n := |a.states|;
    LongerLinked(a.states, block, b.states[n]);
    assert b.states[..n] == a.states;
    LinkedAt(b.states, n);
    SavedVals(a.db.vals, b.states, a.base);
    SavedParams(a.db.params, b.states, a.base);
  }

  lemma {:induction false} StepGood(a: Node, e: Event, b: Node)
    requires Good(a) && Next(a, e, b)
    ensures Good(b)
  {
    hide ValsOk, ParamsOk, PrunedVals, PrunedParams, CanPrune, Linked, SaveState, UpdateState;
    match e {
      case Commit(block) =>
        CommitGood(a, block, b);
      case Prune(from, to, lo) =>
        if CanStart(a.db, from, to) {
          PrunedValsOk(a.db.vals, a.states, a.base, lo, to);
          PrunedParamsOk(a.db.params, a.states, a.base, lo, to);
          HeldParamsLoad(a.db.params, a.states, a.base, to);
        }
    }
  }

  lemma {:induction false} AlwaysGood(nodes: seq<Node>, events: seq<Event>, i: nat)
    requires IsHistory(nodes, events) && i < |nodes|
    ensures Good(nodes[i])
  {
    hide Good, Next, Starts;
    if i == 0 {
      GenesisGood(nodes[0]);
    } else {
      AlwaysGood(nodes, events, i - 1);
      assert StepAt(nodes, events, i - 1);
      StepGood(nodes[i - 1], events[i - 1], nodes[i]);
    }
  }

  /** Over every history of commits and prunes from genesis: a prune that starts at the base
      or above never panics, and one that starts below does exactly when the entry at `to`
      points to a change in the range that is gone. */
  lemma {:induction false} HistoryGood(nodes: seq<Node>, events: seq<Event>, i: nat, from: nat, to: nat)
    requires IsHistory(nodes, events) && i < |nodes|
    ensures Good(nodes[i]) && PointsBack(nodes[i].db.params)
    ensures CanStart(nodes[i].db, from, to) ==>
              && (CanPrune(nodes[i].db, from, to) <==> !ChangeGone(nodes[i].db.vals, from, to))
              && (from >= nodes[i].base ==> CanPrune(nodes[i].db, from, to))
  {
    hide IsHistory, CanPrune, ValsOk, Linked, ResponsesOk, WellFormed, SetLinked, ParamsLinked;
    AlwaysGood(nodes, events, i);
    var n := nodes[i];
    if CanStart(n.db, from, to) {
      PanicsIff(n.db, n.states, n.base, from, to);
    }
    forall h | h in n.db.params ensures n.db.params[h].lastHeightChanged <= h {
      assert ParamsEntryOk(n.db.params, n.states, h);
      LinkedAt(n.states, h - 1);
    }
  }

  /** However a history was pruned, every height that is still there, and so every height
      from the base on, loads what the unpruned store of the same chain loads; the responses
      that are there are those to the chain's blocks. */
  lemma {:induction false} PrunedLoadsAsUnpruned(nodes: seq<Node>, events: seq<Event>, i: nat, h: nat)
    requires IsHistory(nodes, events) && i < |nodes|
    ensures var n := nodes[i];
            && |n.states| == |n.blocks| + 1 && n.base >= 1
            && (n.base <= h <= |n.states| + 1 ==> h in n.db.vals)
            && (h in n.db.vals ==> LoadValidators(n.db.vals, h) == LoadValidators(Stored(n.states).vals, h))
            && (n.base <= h <= |n.states| ==> h in n.db.params)
            && (h in n.db.params ==>
                  1 <= h <= |n.states| && LoadParams(n.db.params, h) == Found(Some(ParamsInForce(n.states, h))))
            && (n.base <= h <= |n.blocks| ==> h in n.db.responses)
            && (h in n.db.responses ==> 1 <= h <= |n.blocks| && n.db.responses[h] == n.blocks[h - 1])
  {
    hide IsHistory, Linked, Stored, InForce, Changed, Full, LastStored;
    var n := nodes[i];
    AlwaysGood(nodes, events, i);
    UnprunedVals(n.states);
    if h in n.db.vals {
      assert EntryOk(n.db.vals, n.states, h) && EntryOk(Stored(n.states).vals, n.states, h);
      if !Full(n.states, h) {
        var at := LastStored(h, Changed(n.states, h));
        assert EntryOk(n.db.vals, n.states, at) && EntryOk(Stored(n.states).vals, n.states, at);
      }
      SameLoads(n.db.vals, Stored(n.states).vals, n.states, h);
    }
    if h in n.db.params {
      HeldParamsLoad(n.db.params, n.states, n.base, h);
    }
  }
}
