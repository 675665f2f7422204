/** state/store.go and state/execution.go: the validators and consensus parameters
    of every height, stored as full sets at some heights and pointers at the rest. */
module History {
  import opened Common
  import opened Validators

  const INTERVAL := 100000            // valSetCheckpointInterval

  datatype ValInfo = ValInfo(lastHeightChanged: nat, vals: Option<seq<Validator>>)

  /** `params` is None when only the pointer is stored. */
  datatype ParamsInfo = ParamsInfo(lastHeightChanged: nat, params: Option<nat>)

  datatype State = State(
    height: nat,
    last: seq<Validator>,
    current: seq<Validator>,
    next: seq<Validator>,
    valsChanged: nat,
    params: nat,
    paramsChanged: nat)

  /** What the application answers to a block. */
  datatype Block = Block(changes: seq<Change>, params: Option<nat>)

  datatype DB = DB(vals: map<nat, ValInfo>, params: map<nat, ParamsInfo>, responses: map<nat, Block>)

  datatype Load<+T> = Missing | Panic | Found(value: T)

  // ----- reading

  function LastStored(height: nat, lastHeightChanged: nat): nat {
    var checkpoint := height - height % INTERVAL;
    if checkpoint > lastHeightChanged then checkpoint else lastHeightChanged
  }

  function LoadValidators(vals: map<nat, ValInfo>, height: nat): Load<seq<Validator>> {
    if height !in vals then Missing
    else if vals[height].vals.Some? then Found(vals[height].vals.value)
    else
      var at := LastStored(height, vals[height].lastHeightChanged);
      if at !in vals || vals[at].vals.None? || at >= height || |vals[at].vals.value| == 0 then Panic
      else Found(Increment(vals[at].vals.value, height - at))
  }

  /** None stands for the empty parameters. */
  function LoadParams(params: map<nat, ParamsInfo>, height: nat): Load<Option<nat>> {
    if height !in params then Missing
    else if params[height].params.Some? then Found(params[height].params)
    else
      var at := params[height].lastHeightChanged;
      if at !in params then Panic else Found(params[at].params)
  }

  // ----- writing

  function SaveValidators(vals: map<nat, ValInfo>, height: nat, lastHeightChanged: nat,
                          vs: seq<Validator>): map<nat, ValInfo>
  {
    var full := height == lastHeightChanged || height % INTERVAL == 0;
    vals[height := ValInfo(lastHeightChanged, if full then Some(vs) else None)]
  }

  function SaveParams(params: map<nat, ParamsInfo>, height: nat, changed: nat, p: nat): map<nat, ParamsInfo> {
    params[height := ParamsInfo(changed, if changed == height then Some(p) else None)]
  }

  /** saveValidatorsInfo panics when a change lies ahead of the height. */
  predicate CanSave(s: State) {
    s.valsChanged <= s.height + 2
  }

  function SaveState(db: DB, s: State): DB {
    var first := if s.height == 0 then SaveValidators(db.vals, 1, 1, s.current) else db.vals;
    db.(vals := SaveValidators(first, s.height + 2, s.valsChanged, s.next),
        params := SaveParams(db.params, s.height + 1, s.paramsChanged, s.params))
  }

  // ----- runs from genesis

  function Genesis(vs: seq<Change>, params: nat): Option<State> {
    match Updated([], vs)
    case None => None
    case Some(set0) =>
      if |set0| == 0 then None
      else
        var current := Increment(set0, 1);
        Some(State(0, [], current, Increment(current, 1), 1, params, 1))
  }

  function UpdateState(s: State, b: Block): Option<State>
    requires |s.next| > 0
  {
    match Updated(s.next, b.changes)
    case None => None
    case Some(vs) =>
      if |vs| == 0 then None
      else
        Some(State(
          s.height + 1, s.current, s.next, Increment(vs, 1),
          if |b.changes| > 0 then s.height + 3 else s.valsChanged,
          if b.params.Some? then b.params.value else s.params,
          if b.params.Some? then s.height + 2 else s.paramsChanged))
  }

  ghost predicate FromGenesis(s: State) {
    exists vs, params :: Genesis(vs, params) == Some(s)
  }

  predicate Follows(states: seq<State>, blocks: seq<Block>, i: nat)
    requires i < |blocks| < |states|
  {
    |states[i].next| > 0 && UpdateState(states[i], blocks[i]) == Some(states[i + 1])
  }

  /** A run: the states after each block, the genesis state first. */
  ghost predicate IsRun(states: seq<State>, blocks: seq<Block>) {
    && |states| == |blocks| + 1 && FromGenesis(states[0])
    && forall i :: 0 <= i < |blocks| ==> Follows(states, blocks, i)
  }

  function Stored(states: seq<State>): DB {
    if |states| == 0 then DB(map[], map[], map[]) else SaveState(Stored(states[..|states| - 1]), states[|states| - 1])
  }

  /** The validators in force at a height, from the states themselves. */
  function InForce(states: seq<State>, h: nat): seq<Validator>
    requires |states| > 0 && 1 <= h <= |states| + 1
  {
    if h == 1 then states[0].current else states[h - 2].next
  }

  function ParamsInForce(states: seq<State>, h: nat): nat
    requires 1 <= h <= |states|
  {
    states[h - 1].params
  }
}
