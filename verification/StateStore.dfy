/** state/store.go: PruneStates, in place, with its batches. */
module StateStore {
  import opened Common
  import opened Validators
  import opened History

  datatype Outcome = Done | Refused | Panicked

  datatype Write =
    | SetVals(height: nat, vals: ValInfo)
    | DeleteVals(height: nat)
    | SetParams(height: nat, params: ParamsInfo)
    | DeleteParams(height: nat)
    | DeleteResponses(height: nat)

  function Apply(db: DB, w: Write): DB {
    match w
    case SetVals(h, info) => db.(vals := db.vals[h := info])
    case DeleteVals(h) => db.(vals := db.vals - {h})
    case SetParams(h, info) => db.(params := db.params[h := info])
    case DeleteParams(h) => db.(params := db.params - {h})
    case DeleteResponses(h) => db.(responses := db.responses - {h})
  }

  function Flushed(db: DB, batch: seq<Write>): DB {
    if |batch| == 0 then db else Apply(Flushed(db, batch[..|batch| - 1]), batch[|batch| - 1])
  }

  // ----- what pruning means

  predicate CanStart(db: DB, from: int, to: int) {
    0 < from < to && to in db.vals && to in db.params
  }

  /** Heights the entry at `to` points to. */
  function KeepVals(vals: map<nat, ValInfo>, to: nat): set<nat>
    requires to in vals
  {
    var changed := vals[to].lastHeightChanged;
    if vals[to].vals.Some? then {} else {changed, LastStored(to, changed)}
  }

  function KeepParams(params: map<nat, ParamsInfo>, to: nat): set<nat>
    requires to in params
  {
    if params[to].params.Some? then {} else {params[to].lastHeightChanged}
  }

  /** A kept height can be completed: it is there, and loads if it is a pointer. */
  predicate ValsKeepable(vals: map<nat, ValInfo>, h: nat) {
    h in vals && (vals[h].vals.Some? || LoadValidators(vals, h).Found?)
  }

  predicate ParamsKeepable(params: map<nat, ParamsInfo>, h: nat) {
    h in params && (params[h].params.Some? || LoadParams(params, h).Found?)
  }

  predicate Keepable(db: DB, keepVals: set<nat>, keepParams: set<nat>, h: nat) {
    (h in keepVals ==> ValsKeepable(db.vals, h)) && (h in keepParams ==> ParamsKeepable(db.params, h))
  }

  /** A kept height no longer points anywhere. */
  function CompletedVals(vals: map<nat, ValInfo>, h: nat): ValInfo
    requires ValsKeepable(vals, h)
  {
    if vals[h].vals.Some? then vals[h] else ValInfo(h, Some(LoadValidators(vals, h).value))
  }

  function CompletedParams(params: map<nat, ParamsInfo>, h: nat): ParamsInfo
    requires ParamsKeepable(params, h)
  {
    if params[h].params.Some? then params[h] else ParamsInfo(h, LoadParams(params, h).value)
  }

  /** Heights from `from` up to `to` are gone, but for those kept, which are completed. */
  function PrunedVals(vals: map<nat, ValInfo>, keep: set<nat>, from: nat, to: nat): map<nat, ValInfo> {
    map h | h in vals && (from <= h < to ==> h in keep) ::
      if from <= h < to && ValsKeepable(vals, h) then CompletedVals(vals, h) else vals[h]
  }

  function PrunedParams(params: map<nat, ParamsInfo>, keep: set<nat>, from: nat, to: nat): map<nat, ParamsInfo> {
    map h | h in params && (from <= h < to ==> h in keep) ::
      if from <= h < to && ParamsKeepable(params, h) then CompletedParams(params, h) else params[h]
  }

  function PrunedResponses(responses: map<nat, Block>, from: nat, to: nat): map<nat, Block> {
    map h | h in responses && !(from <= h < to) :: responses[h]
  }

  function Pruned(db: DB, from: nat, to: nat): DB
    requires to in db.vals && to in db.params
  {
    DB(PrunedVals(db.vals, KeepVals(db.vals, to), from, to),
       PrunedParams(db.params, KeepParams(db.params, to), from, to),
       PrunedResponses(db.responses, from, to))
  }

  ghost predicate CanPrune(db: DB, from: nat, to: nat)
    requires to in db.vals && to in db.params
  {
    forall h :: from <= h < to ==> Keepable(db, KeepVals(db.vals, to), KeepParams(db.params, to), h)
  }

  // ----- one height at a time

  function ValsWrites(vals: map<nat, ValInfo>, keep: set<nat>, h: nat): seq<Write>
    requires h in keep ==> ValsKeepable(vals, h)
  {
    if h !in keep then [DeleteVals(h)]
    else if vals[h].vals.Some? then [] else [SetVals(h, CompletedVals(vals, h))]
  }

  function ParamsWrites(params: map<nat, ParamsInfo>, keep: set<nat>, h: nat): seq<Write>
    requires h in keep ==> ParamsKeepable(params, h)
  {
    if h !in keep then [DeleteParams(h)]
    else if params[h].params.Some? then [] else [SetParams(h, CompletedParams(params, h))]
  }

  lemma {:induction false} FlushedTwice(db: DB, a: seq<Write>, b: seq<Write>)
    ensures Flushed(db, a + b) == Flushed(Flushed(db, a), b)
  {
    if |b| == 0 {
      assert a + b == a;
    } else {
      assert (a + b)[..|a + b| - 1] == a + b[..|b| - 1];
      FlushedTwice(db, a, b[..|b| - 1]);
    }
  }

  lemma ValsStep(db: DB, now: DB, keep: set<nat>, h: nat, to: nat)
    requires h < to && (h in keep ==> ValsKeepable(db.vals, h))
    requires now.vals == PrunedVals(db.vals, keep, h + 1, to)
    ensures Flushed(now, ValsWrites(db.vals, keep, h)) == now.(vals := PrunedVals(db.vals, keep, h, to))
  {
    hide LoadValidators;
    var writes := ValsWrites(db.vals, keep, h);
    var after := PrunedVals(db.vals, keep, h, to);
    assert |writes| == 1 ==> writes[..0] == [];
    assert Flushed(now, writes).vals == after;
  }

  lemma ParamsStep(db: DB, now: DB, keep: set<nat>, h: nat, to: nat)
    requires h < to && (h in keep ==> ParamsKeepable(db.params, h))
    requires now.params == PrunedParams(db.params, keep, h + 1, to)
    ensures Flushed(now, ParamsWrites(db.params, keep, h)) == now.(params := PrunedParams(db.params, keep, h, to))
  {
    hide LoadParams;
    var writes := ParamsWrites(db.params, keep, h);
    var after := PrunedParams(db.params, keep, h, to);
    assert |writes| == 1 ==> writes[..0] == [];
    assert Flushed(now, writes).params == after;
  }

  lemma ResponsesStep(responses: map<nat, Block>, now: DB, h: nat, to: nat)
    requires h < to && now.responses == PrunedResponses(responses, h + 1, to)
    ensures Flushed(now, [DeleteResponses(h)]) == now.(responses := PrunedResponses(responses, h, to))
  {
    assert [DeleteResponses(h)][..0] == [];
    assert Flushed(now, [DeleteResponses(h)]).responses == PrunedResponses(responses, h, to);
  }

  /** The writes of one more height extend the pruned range downwards. */
  lemma {:induction false} HeightStep(db: DB, flushed: DB, batch: seq<Write>, h: nat, to: nat)
    requires to in db.vals && to in db.params && h < to
    requires Flushed(flushed, batch) == Pruned(db, h + 1, to)
    requires Keepable(db, KeepVals(db.vals, to), KeepParams(db.params, to), h)
    ensures Flushed(flushed, batch + ValsWrites(db.vals, KeepVals(db.vals, to), h) +
                             ParamsWrites(db.params, KeepParams(db.params, to), h) +
                             [DeleteResponses(h)]) == Pruned(db, h, to)
  {
    hide LoadValidators, LoadParams, PrunedVals, PrunedParams, PrunedResponses, ValsWrites, ParamsWrites, Flushed;
    var vs := ValsWrites(db.vals, KeepVals(db.vals, to), h);
    var ps := ParamsWrites(db.params, KeepParams(db.params, to), h);
    var now := Flushed(flushed, batch);
    FlushedTwice(flushed, batch + vs + ps, [DeleteResponses(h)]);
    FlushedTwice(flushed, batch + vs, ps);
    FlushedTwice(flushed, batch, vs);
    ValsStep(db, now, KeepVals(db.vals, to), h, to);
    ParamsStep(db, Flushed(now, vs), KeepParams(db.params, to), h, to);
    ResponsesStep(db.responses, Flushed(Flushed(now, vs), ps), h, to);
  }

  /** Reads at or below a height do not see what was pruned above it. */
  lemma SeesOriginal(db: DB, lo: nat, to: nat, h: nat)
    requires to in db.vals && to in db.params && h < lo
    ensures (h in Pruned(db, lo, to).vals) == (h in db.vals) &&
            (h in db.vals ==> Pruned(db, lo, to).vals[h] == db.vals[h])
    ensures LoadValidators(Pruned(db, lo, to).vals, h) == LoadValidators(db.vals, h)
    ensures (h in Pruned(db, lo, to).params) == (h in db.params)
    ensures h in db.params ==> Pruned(db, lo, to).params[h] == db.params[h]
    ensures h in db.params && db.params[h].lastHeightChanged <= h ==>
              LoadParams(Pruned(db, lo, to).params, h) == LoadParams(db.params, h)
  {
    hide KeepVals, KeepParams, Increment;
  }

  /** Stored parameters never point ahead. */
  ghost predicate PointsBack(params: map<nat, ParamsInfo>) {
    forall h :: h in params ==> params[h].lastHeightChanged <= h
  }

  class Store {
    var db: DB

    constructor ()
      ensures db == DB(map[], map[], map[])
    {
      db := DB(map[], map[], map[]);
    }

    /** SaveABCIResponses: what the application answered to a block. */
    method SaveResponses(height: nat, responses: Block)
      modifies this
      ensures db == old(db).(responses := old(db).responses[height := responses])
    {
      db := db.(responses := db.responses[height := responses]);
    }

    /** saveState: the entries of one block, or a panic when a change lies ahead. */
    method Save(s: State) returns (r: Outcome)
      modifies this
      ensures CanSave(s) ==> r == Done && db == SaveState(old(db), s)
      ensures !CanSave(s) ==> r == Panicked
    {
      if s.height == 0 {
        db := db.(vals := SaveValidators(db.vals, 1, 1, s.current));
      }
      if s.valsChanged > s.height + 2 {
        return Panicked;
      }
      db := db.(vals := SaveValidators(db.vals, s.height + 2, s.valsChanged, s.next));
      db := db.(params := SaveParams(db.params, s.height + 1, s.paramsChanged, s.params));
      r := Done;
    }

    /** The writes for one height, read from the database as flushed so far. */
    method WritesFor(keepVals: set<nat>, keepParams: set<nat>, h: nat) returns (ok: bool, writes: seq<Write>)
      ensures ok == Keepable(db, keepVals, keepParams, h)
      ensures ok ==>
                writes == ValsWrites(db.vals, keepVals, h) + ParamsWrites(db.params, keepParams, h) +
                [DeleteResponses(h)]
    {
      writes := [];
      if h in keepVals {
        if h !in db.vals { return false, []; }
        if db.vals[h].vals.None? {
          var load := LoadValidators(db.vals, h);
          if !load.Found? { return false, []; }
          writes := writes + [SetVals(h, ValInfo(h, Some(load.value)))];
        }
      } else {
        writes := writes + [DeleteVals(h)];
      }
      if h in keepParams {
        if h !in db.params { return false, []; }
        if db.params[h].params.None? {
          var load := LoadParams(db.params, h);
          if !load.Found? { return false, []; }
          writes := writes + [SetParams(h, ParamsInfo(h, load.value))];
        }
      } else {
        writes := writes + [DeleteParams(h)];
      }
      writes := writes + [DeleteResponses(h)];
      ok := true;
    }

    /** PruneStates: downwards from `to`, a flush every 1000 heights. Whether or not a kept
        height turns out to be missing on the way, what is flushed is a pruned range. */
    method Prune(from: int, to: int) returns (r: Outcome)
      requires PointsBack(db.params)
      modifies this
      ensures !CanStart(old(db), from, to) ==> r == Refused && db == old(db)
      ensures CanStart(old(db), from, to) ==> r == (if CanPrune(old(db), from, to) then Done else Panicked)
      ensures r == Done ==> db == Pruned(old(db), from, to)
      ensures r == Panicked ==>
                exists lo: nat :: from <= lo <= to && CanPrune(old(db), lo, to) && db == Pruned(old(db), lo, to)
    {
      hide Pruned, ValsKeepable, ParamsKeepable, KeepVals, KeepParams, Flushed, ValsWrites, ParamsWrites, PointsBack;
      if from <= 0 || to <= 0 || from >= to || to !in db.vals || to !in db.params {
        return Refused;
      }
      var keepVals, keepParams := KeepVals(db.vals, to), KeepParams(db.params, to);
      ghost var start := db;
      ghost var lo := to;                   // flushed down to here
      var batch, pruned := [], 0;
      var h := to - 1;
      PrunedNothing(db, to);
      FlushedNothing(db);
      while h >= from
        invariant from - 1 <= h < lo <= to && db == Pruned(start, lo, to)
        invariant Flushed(db, batch) == Pruned(start, h + 1, to)
        invariant forall k :: h < k < to ==> Keepable(start, keepVals, keepParams, k)
      {
        SameKeepable(start, lo, to, keepVals, keepParams, h);
        var ok, writes := WritesFor(keepVals, keepParams, h);
        if !ok {
          assert CanPrune(start, lo, to);
          return Panicked;
        }
        HeightStep(start, db, batch, h, to);
        assert batch + writes ==
               batch + ValsWrites(start.vals, keepVals, h) + ParamsWrites(start.params, keepParams, h) +
               [DeleteResponses(h)];
        batch := batch + writes;
        pruned := pruned + 1;
        if pruned % 1000 == 0 && pruned > 0 {
          db := Flushed(db, batch);
          batch := [];
          lo := h;
          FlushedNothing(db);
        }
        h := h - 1;
      }
      db := Flushed(db, batch);
      r := Done;
    }
  }

  lemma FlushedNothing(db: DB)
    ensures Flushed(db, []) == db
  {
  }

  lemma PrunedNothing(db: DB, to: nat)
    requires to in db.vals && to in db.params
    ensures Pruned(db, to, to) == db
  {
    hide LoadValidators, LoadParams, KeepVals, KeepParams;
    assert Pruned(db, to, to).vals == db.vals;
    assert Pruned(db, to, to).params == db.params;
    assert Pruned(db, to, to).responses == db.responses;
  }

  lemma SameKeepable(db: DB, lo: nat, to: nat, keepVals: set<nat>, keepParams: set<nat>, h: nat)
    requires to in db.vals && to in db.params && h < lo && PointsBack(db.params)
    ensures var now := Pruned(db, lo, to);
            && Keepable(now, keepVals, keepParams, h) == Keepable(db, keepVals, keepParams, h)
            && (Keepable(db, keepVals, keepParams, h) ==>
                  && ValsWrites(now.vals, keepVals, h) == ValsWrites(db.vals, keepVals, h)
                  && ParamsWrites(now.params, keepParams, h) == ParamsWrites(db.params, keepParams, h))
  {
    hide Pruned, LoadValidators, LoadParams;
    SeesOriginal(db, lo, to, h);
  }
}
