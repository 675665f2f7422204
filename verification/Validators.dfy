/** types/validator_set.go: proposer priorities, and changing the set. */
module Validators {
  import opened Common

  datatype Validator = Validator(addr: nat, power: int, priority: int)

  datatype Change = Change(addr: nat, power: int)

  const WINDOW := 2                           // PriorityWindowSizeFactor
  const MAX_TOTAL := 0x7fff_ffff_ffff_ffff / 8

  function Total(vs: seq<Validator>): int {
    if |vs| == 0 then 0 else Total(vs[..|vs| - 1]) + vs[|vs| - 1].power
  }

  function Sum(vs: seq<Validator>): int {
    if |vs| == 0 then 0 else Sum(vs[..|vs| - 1]) + vs[|vs| - 1].priority
  }

  function Highest(vs: seq<Validator>): int
    requires |vs| > 0
  {
    var p := vs[|vs| - 1].priority;
    if |vs| == 1 then p else var m := Highest(vs[..|vs| - 1]); if p > m then p else m
  }

  function Lowest(vs: seq<Validator>): int
    requires |vs| > 0
  {
    var p := vs[|vs| - 1].priority;
    if |vs| == 1 then p else var m := Lowest(vs[..|vs| - 1]); if p < m then p else m
  }

  function Spread(vs: seq<Validator>): int
    requires |vs| > 0
  {
    Highest(vs) - Lowest(vs)
  }

  /** Integer division as Go does it, toward zero. */
  function Quo(a: int, b: int): int
    requires b > 0
  {
    if a >= 0 then a / b else -((-a) / b)
  }

  function Rescaled(vs: seq<Validator>, ratio: int): seq<Validator>
    requires ratio > 0
  {
    seq(|vs|, i requires 0 <= i < |vs| => vs[i].(priority := Quo(vs[i].priority, ratio)))
  }

  /** ceil(spread / window). */
  function Ratio(spread: int, window: int): int
    requires 0 < window < spread
    ensures Ratio(spread, window) >= 2
    ensures window * (Ratio(spread, window) - 1) < spread
  {
    var ratio := (spread + window - 1) / window;
    assert window * ratio <= spread + window - 1 < window * (ratio + 1);
    ratio
  }

  /** Divides the priorities when they are spread over more than the window. */
  function Rescale(vs: seq<Validator>): seq<Validator>
    requires |vs| > 0
  {
    var window := WINDOW * Total(vs);
    if window <= 0 || Spread(vs) <= window then vs else Rescaled(vs, Ratio(Spread(vs), window))
  }

  function Shifted(vs: seq<Validator>, avg: int): seq<Validator> {
    seq(|vs|, i requires 0 <= i < |vs| => vs[i].(priority := vs[i].priority - avg))
  }

  /** Subtracts the average, rounded down. */
  function Shift(vs: seq<Validator>): seq<Validator>
    requires |vs| > 0
  {
    Shifted(vs, Sum(vs) / |vs|)
  }

  function Normalised(vs: seq<Validator>): seq<Validator>
    requires |vs| > 0
  {
    Shift(Rescale(vs))
  }

  /** Higher priority first, then lower address. */
  predicate Ahead(v: Validator, w: Validator) {
    v.priority > w.priority || (v.priority == w.priority && v.addr < w.addr)
  }

  function Mostest(vs: seq<Validator>): nat
    requires |vs| > 0
    ensures Mostest(vs) < |vs|
  {
    if |vs| == 1 then 0
    else
      var m := Mostest(vs[..|vs| - 1]);
      if Ahead(vs[m], vs[|vs| - 1]) then m else |vs| - 1
  }

  function Raised(vs: seq<Validator>): (up: seq<Validator>)
    ensures |up| == |vs|
  {
    seq(|vs|, i requires 0 <= i < |vs| => vs[i].(priority := vs[i].priority + vs[i].power))
  }

  /** One round: everyone gains their power, the front runner pays the total. */
  function Rotate(vs: seq<Validator>): seq<Validator>
    requires |vs| > 0
  {
    var up := Raised(vs);
    var m := Mostest(up);
    up[m := up[m].(priority := up[m].priority - Total(vs))]
  }

  function Rotations(vs: seq<Validator>, n: nat): seq<Validator>
    requires |vs| > 0
    ensures |Rotations(vs, n)| == |vs|
  {
    if n == 0 then vs else Rotate(Rotations(vs, n - 1))
  }

  /** IncrementProposerPriority: normalise once, then rotate. */
  function Increment(vs: seq<Validator>, times: nat): seq<Validator>
    requires |vs| > 0
  {
    Rotations(Normalised(vs), times)
  }

  // ----- changing the set

  predicate HasAddr(vs: seq<Validator>, addr: nat) {
    exists i :: 0 <= i < |vs| && vs[i].addr == addr
  }

  function Find(vs: seq<Validator>, addr: nat): Option<Validator> {
    if |vs| == 0 then None
    else if vs[0].addr == addr then Some(vs[0]) else Find(vs[1..], addr)
  }

  function ChangeOf(changes: seq<Change>, addr: nat): Option<Change> {
    if |changes| == 0 then None
    else if changes[0].addr == addr then Some(changes[0]) else ChangeOf(changes[1..], addr)
  }

  predicate ChangesOk(changes: seq<Change>) {
    && (forall i :: 0 <= i < |changes| ==> 0 <= changes[i].power <= MAX_TOTAL)
    && (forall i, j :: 0 <= i < j < |changes| ==> changes[i].addr != changes[j].addr)
  }

  /** Power of the set with the updates applied but nothing removed. */
  function PowerBeforeRemovals(vs: seq<Validator>, changes: seq<Change>): int {
    if |changes| == 0 then Total(vs)
    else
      var ch := changes[0];
      PowerBeforeRemovals(vs, changes[1..]) +
      (if ch.power == 0 then 0
       else match Find(vs, ch.addr) case None => ch.power case Some(v) => ch.power - v.power)
  }

  /** Validators that stay, with their new power. */
  function Kept(vs: seq<Validator>, changes: seq<Change>): seq<Validator> {
    if |vs| == 0 then []
    else
      var rest := Kept(vs[1..], changes);
      match ChangeOf(changes, vs[0].addr)
      case None => [vs[0]] + rest
      case Some(ch) => if ch.power == 0 then rest else [vs[0].(power := ch.power)] + rest
  }

  /** Validators that join, behind everybody. */
  function Joined(vs: seq<Validator>, changes: seq<Change>, total: int): seq<Validator> {
    if |changes| == 0 then []
    else
      var rest := Joined(vs, changes[1..], total);
      if changes[0].power == 0 || HasAddr(vs, changes[0].addr) then rest
      else [Validator(changes[0].addr, changes[0].power, -(total + total / 8))] + rest
  }

  /** More power first, then lower address. */
  function Insert(v: Validator, vs: seq<Validator>): seq<Validator> {
    if |vs| == 0 || v.power > vs[0].power || (v.power == vs[0].power && v.addr < vs[0].addr) then [v] + vs
    else [vs[0]] + Insert(v, vs[1..])
  }

  function ByPower(vs: seq<Validator>): seq<Validator> {
    if |vs| == 0 then [] else Insert(vs[0], ByPower(vs[1..]))
  }

  /** UpdateWithChangeSet: None when the changes are refused. */
  function Updated(vs: seq<Validator>, changes: seq<Change>): Option<seq<Validator>> {
    if |changes| == 0 then Some(vs)
    else if !ChangesOk(changes) then None
    else if exists i :: 0 <= i < |changes| && changes[i].power == 0 && !HasAddr(vs, changes[i].addr) then None
    else
      var total := PowerBeforeRemovals(vs, changes);
      var merged := Kept(vs, changes) + Joined(vs, changes, total);
      if |merged| == 0 || Total(merged) > MAX_TOTAL then None
      else Some(ByPower(Normalised(merged)))
  }
}
