/** What UpdateWithChangeSet does to the powers of a validator set. */
module ValidatorUpdates {
  import opened Common
  import opened Validators
  import opened Priorities

  ghost predicate Has(vs: seq<Validator>, addr: nat, power: int) {
    exists v :: v in vs && v.addr == addr && v.power == power
  }

  /** The power an address has after a change set; a change to 0 removes it. */
  ghost predicate Gets(vs: seq<Validator>, changes: seq<Change>, addr: nat, power: int) {
    match ChangeOf(changes, addr)
    case None => Has(vs, addr, power)
    case Some(ch) => power == ch.power && power != 0
  }

  lemma {:induction false} ChangeOfNames(changes: seq<Change>, addr: nat)
    ensures ChangeOf(changes, addr).Some? ==> ChangeOf(changes, addr).value.addr == addr
  {
    if |changes| > 0 {
      ChangeOfNames(changes[1..], addr);
    }
  }

  /** A validator that stays has its changed power, or its old one. */
  lemma {:induction false} KeptPowers(vs: seq<Validator>, changes: seq<Change>, addr: nat, power: int)
    ensures Has(Kept(vs, changes), addr, power) <==> HasAddr(vs, addr) && Gets(vs, changes, addr, power)
    ensures Has(vs, addr, power) ==> HasAddr(vs, addr)
  {
    if |vs| > 0 {
      var rest := vs[1..];
      KeptPowers(rest, changes, addr, power);
      assert vs == [vs[0]] + rest;
      Prepend(vs[0], rest, addr, power);
      match ChangeOf(changes, vs[0].addr) {
        case None => Prepend(vs[0], Kept(rest, changes), addr, power);
        case Some(ch) =>
          if ch.power != 0 {
            Prepend(vs[0].(power := ch.power), Kept(rest, changes), addr, power);
          }
      }
    }
  }

  lemma Prepend(v: Validator, vs: seq<Validator>, addr: nat, power: int)
    ensures Has([v] + vs, addr, power) <==> (v.addr == addr && v.power == power) || Has(vs, addr, power)
    ensures HasAddr([v] + vs, addr) <==> v.addr == addr || HasAddr(vs, addr)
  {
    var all := [v] + vs;
    assert forall w :: w in all <==> w == v || w in vs;
    assert all[0] == v && forall i :: 0 <= i < |vs| ==> all[i + 1] == vs[i];
    if HasAddr(vs, addr) {
      var i :| 0 <= i < |vs| && vs[i].addr == addr;
      assert all[i + 1].addr == addr;
    }
    if v.addr == addr && v.power == power {
      assert v in all;
    }
  }

  /** A validator that joins has the power it joins with. */
  lemma {:induction false} JoinedPowers(vs: seq<Validator>, changes: seq<Change>, total: int, addr: nat, power: int)
    requires ChangesOk(changes)
    ensures Has(Joined(vs, changes, total), addr, power) <==>
            !HasAddr(vs, addr) && ChangeOf(changes, addr).Some? && ChangeOf(changes, addr).value.power == power != 0
  {
    if |changes| > 0 {
      var rest := changes[1..];
      JoinedPowers(vs, rest, total, addr, power);
      ChangeOfElsewhere(changes, addr);
      var ch := changes[0];
      if ch.power != 0 && !HasAddr(vs, ch.addr) {
        Prepend(Validator(ch.addr, ch.power, -(total + total / 8)), Joined(vs, rest, total), addr, power);
      }
    }
  }

  /** Addresses are changed once. */
  lemma {:induction false} ChangeOfElsewhere(changes: seq<Change>, addr: nat)
    requires ChangesOk(changes) && |changes| > 0
    ensures changes[0].addr == addr ==> ChangeOf(changes[1..], addr).None?
  {
    ChangeOfNames(changes[1..], addr);
    ChangeOfIs(changes[1..], addr);
  }

  lemma HasEither(a: seq<Validator>, b: seq<Validator>, addr: nat, power: int)
    ensures Has(a + b, addr, power) <==> Has(a, addr, power) || Has(b, addr, power)
  {
    assert forall w :: w in a + b <==> w in a || w in b;
  }

  lemma NormalisedPowers(vs: seq<Validator>, addr: nat, power: int)
    requires |vs| > 0
    ensures Has(Normalised(vs), addr, power) <==> Has(vs, addr, power)
  {
    RotateMembers(vs);
    hide Normalised;
    var ws := Normalised(vs);
    if Has(vs, addr, power) {
      var i :| 0 <= i < |vs| && vs[i].addr == addr && vs[i].power == power;
      assert ws[i] in ws && ws[i].addr == addr && ws[i].power == power;
    }
    if Has(ws, addr, power) {
      var i :| 0 <= i < |ws| && ws[i].addr == addr && ws[i].power == power;
      assert vs[i] in vs && vs[i].addr == addr && vs[i].power == power;
    }
  }

  /** After an accepted change set every address has the power its change names, none if that
      is zero, and otherwise the power it had. */
  lemma {:induction false} UpdatedPowers(vs: seq<Validator>, changes: seq<Change>, addr: nat, power: int)
    requires Distinct(vs) && |changes| > 0 && Updated(vs, changes).Some?
    ensures Has(Updated(vs, changes).value, addr, power) <==> Gets(vs, changes, addr, power)
  {
    hide Kept, Joined, Normalised, ByPower, PowerBeforeRemovals, HasAddr, ChangeOf, Total;
    var total := PowerBeforeRemovals(vs, changes);
    var kept, joined := Kept(vs, changes), Joined(vs, changes, total);
    MergedDistinct(vs, changes, total);
    RotateMembers(kept + joined);
    ByPowerDistinct(Normalised(kept + joined));
    NormalisedPowers(kept + joined, addr, power);
    HasEither(kept, joined, addr, power);
    KeptPowers(vs, changes, addr, power);
    JoinedPowers(vs, changes, total, addr, power);
  }

  // ----- order and priorities

  /** More power first, then lower address. */
  predicate InOrder(v: Validator, w: Validator) {
    v.power > w.power || (v.power == w.power && v.addr < w.addr)
  }

  ghost predicate Sorted(vs: seq<Validator>) {
    forall i, j :: 0 <= i < j < |vs| ==> InOrder(vs[i], vs[j])
  }

  lemma {:induction false} InsertSorted(v: Validator, vs: seq<Validator>)
    requires Sorted(vs) && forall i :: 0 <= i < |vs| ==> vs[i].addr != v.addr
    ensures Sorted(Insert(v, vs)) && multiset(Insert(v, vs)) == multiset(vs) + multiset{v}
    ensures forall w :: w in Insert(v, vs) <==> w == v || w in vs
  {
    if |vs| > 0 && !InOrder(v, vs[0]) {
      var rest := Insert(v, vs[1..]);
      assert vs == [vs[0]] + vs[1..];
      InsertSorted(v, vs[1..]);
      forall i | 0 <= i < |rest| ensures InOrder(vs[0], rest[i]) {
        assert rest[i] in rest;
      }
    }
  }

  lemma {:induction false} ByPowerSorted(vs: seq<Validator>)
    requires Distinct(vs)
    ensures Sorted(ByPower(vs)) && multiset(ByPower(vs)) == multiset(vs)
  {
    if |vs| > 0 {
      assert vs == [vs[0]] + vs[1..];
      ByPowerSorted(vs[1..]);
      ByPowerDistinct(vs[1..]);
      var rest := ByPower(vs[1..]);
      forall i | 0 <= i < |rest| ensures rest[i].addr != vs[0].addr {
        assert rest[i] in rest;
      }
      InsertSorted(vs[0], rest);
    }
  }

  /** A newcomer starts at minus nine eighths of the power, rounded to the next integer. */
  predicate Starts(total: int, priority: int) {
    -9 * total <= 8 * priority < -9 * total + 8
  }

  /** A priority before normalising: that of the validator, or a newcomer's. */
  ghost predicate Brings(vs: seq<Validator>, total: int, w: Validator) {
    if HasAddr(vs, w.addr) then exists v :: v in vs && v.addr == w.addr && v.priority == w.priority
    else Starts(total, w.priority)
  }

  lemma {:induction false} KeptBrings(vs: seq<Validator>, changes: seq<Change>, total: int, w: Validator)
    requires w in Kept(vs, changes)
    ensures HasAddr(vs, w.addr) && exists v :: v in vs && v.addr == w.addr && v.priority == w.priority
  {
    assert vs == [vs[0]] + vs[1..];
    if w in Kept(vs[1..], changes) {
      KeptBrings(vs[1..], changes, total, w);
      var i :| 0 <= i < |vs[1..]| && vs[1..][i].addr == w.addr;
      assert vs[i + 1].addr == w.addr;
    } else {
      assert vs[0].addr == w.addr && vs[0] in vs;
    }
  }

  lemma {:induction false} JoinedBrings(vs: seq<Validator>, changes: seq<Change>, total: int, w: Validator)
    requires total >= 0 && w in Joined(vs, changes, total)
    ensures !HasAddr(vs, w.addr) && Starts(total, w.priority)
  {
    if w in Joined(vs, changes[1..], total) {
      JoinedBrings(vs, changes[1..], total, w);
    }
  }

  /** Everybody in the set after the updates and before the removals. */
  function Grown(vs: seq<Validator>, changes: seq<Change>): seq<Validator> {
    seq(|vs|, i requires 0 <= i < |vs| =>
      match ChangeOf(changes, vs[i].addr)
      case None => vs[i]
      case Some(ch) => if ch.power == 0 then vs[i] else vs[i].(power := ch.power))
  }

  lemma {:induction false} GrownByOne(vs: seq<Validator>, changes: seq<Change>)
    requires Distinct(vs) && ChangesOk(changes) && |changes| > 0
    ensures var ch := changes[0];
            Total(Grown(vs, changes)) == Total(Grown(vs, changes[1..])) +
            match Find(vs, ch.addr) case None => 0 case Some(v) => if ch.power == 0 then 0 else ch.power - v.power
  {
    var ch := changes[0];
    if |vs| > 0 {
      var last := |vs| - 1;
      var init := vs[..last];
      GrownByOne(init, changes);
      assert Grown(vs, changes)[..last] == Grown(init, changes);
      assert Grown(vs, changes[1..])[..last] == Grown(init, changes[1..]);
      FindLast(vs, ch.addr);
      ChangeOfElsewhere(changes, vs[last].addr);
    }
  }

  lemma {:induction false} FindLast(vs: seq<Validator>, addr: nat)
    requires Distinct(vs) && |vs| > 0
    ensures var last := |vs| - 1;
            if vs[last].addr == addr then Find(vs, addr) == Some(vs[last]) && Find(vs[..last], addr).None?
            else Find(vs, addr) == Find(vs[..last], addr)
  {
    var last := |vs| - 1;
    if last > 0 {
      FindLast(vs[1..], addr);
      assert vs[1..][..last - 1] == vs[..last][1..];
    }
  }

  lemma {:induction false} FindHas(vs: seq<Validator>, addr: nat)
    ensures Find(vs, addr).Some? <==> HasAddr(vs, addr)
  {
    if |vs| > 0 {
      FindHas(vs[1..], addr);
      assert vs == [vs[0]] + vs[1..];
      if HasAddr(vs[1..], addr) {
        var i :| 0 <= i < |vs[1..]| && vs[1..][i].addr == addr;
        assert vs[i + 1].addr == addr;
      }
    }
  }

  lemma {:induction false} TotalCons(v: Validator, vs: seq<Validator>)
    ensures Total([v] + vs) == v.power + Total(vs)
  {
    if |vs| > 0 {
      TotalCons(v, vs[..|vs| - 1]);
      assert ([v] + vs)[..|vs|] == [v] + vs[..|vs| - 1];
    } else {
      assert [v] + vs == [v] && [v][..0] == [];
    }
  }

  /** The power that newcomers' priorities come from: that of everybody with the updates made
      and nobody removed yet. */
  lemma {:induction false} PowerIsGrown(vs: seq<Validator>, changes: seq<Change>, total: int)
    requires Distinct(vs) && ChangesOk(changes)
    ensures PowerBeforeRemovals(vs, changes) == Total(Grown(vs, changes)) + Total(Joined(vs, changes, total))
  {
    if |changes| == 0 {
      assert Grown(vs, changes) == vs;
    } else {
      PowerIsGrown(vs, changes[1..], total);
      GrownByOne(vs, changes);
      FindHas(vs, changes[0].addr);
      var ch := changes[0];
      TotalCons(Validator(ch.addr, ch.power, -(total + total / 8)), Joined(vs, changes[1..], total));
    }
  }

  lemma {:induction false} TotalNotNegative(vs: seq<Validator>)
    requires forall i :: 0 <= i < |vs| ==> vs[i].power >= 0
    ensures Total(vs) >= 0
  {
    if |vs| > 0 {
      TotalNotNegative(vs[..|vs| - 1]);
    }
  }

  lemma PowerNotNegative(vs: seq<Validator>, changes: seq<Change>)
    requires Distinct(vs) && ChangesOk(changes)
    ensures PowerBeforeRemovals(vs, changes) >= 0
  {
    PowerIsGrown(vs, changes, 0);
    JoinedDistinct(vs, changes, 0);
    hide Joined, PowerBeforeRemovals, Total;
    TotalNotNegative(Joined(vs, changes, 0));
    forall i | 0 <= i < |vs| ensures Grown(vs, changes)[i].power >= 0 {
      ChangeOfIs(changes, vs[i].addr);
    }
    TotalNotNegative(Grown(vs, changes));
  }

  /** An accepted change set leaves the validators by power and then address. Their priorities
      are those they had, or for newcomers minus nine eighths of the power before removals,
      normalised together. */
  lemma {:induction false} UpdatedOrder(vs: seq<Validator>, changes: seq<Change>) returns (merged: seq<Validator>)
    requires Distinct(vs) && |changes| > 0 && Updated(vs, changes).Some?
    ensures Sorted(Updated(vs, changes).value) && |merged| > 0
    ensures multiset(Updated(vs, changes).value) == multiset(Normalised(merged))
    ensures var total := Total(Grown(vs, changes)) + Total(Joined(vs, changes, 0));
            forall w :: w in merged ==> Brings(vs, total, w)
  {
    hide Kept, Joined, Normalised, ByPower, PowerBeforeRemovals, HasAddr, ChangeOf, Total, Grown;
    var total := PowerBeforeRemovals(vs, changes);
    PowerIsGrown(vs, changes, 0);
    PowerNotNegative(vs, changes);
    merged := Kept(vs, changes) + Joined(vs, changes, total);
    MergedDistinct(vs, changes, total);
    RotateMembers(merged);
    ByPowerSorted(Normalised(merged));
    forall w | w in merged ensures Brings(vs, total, w) {
      if w in Kept(vs, changes) {
        KeptBrings(vs, changes, total, w);
      } else {
        JoinedBrings(vs, changes, total, w);
      }
    }
  }

  // ----- what is accepted

  /** No address changed twice, and no power negative or over the cap. */
  predicate Proper(changes: seq<Change>) {
    && (forall i :: 0 <= i < |changes| ==> 0 <= changes[i].power <= 0x7fff_ffff_ffff_ffff / 8)
    && (forall i, j :: 0 <= i < j < |changes| ==> changes[i].addr != changes[j].addr)
  }

  /** Only validators of the set are removed. */
  predicate RemovesKnown(vs: seq<Validator>, changes: seq<Change>) {
    forall i :: 0 <= i < |changes| && changes[i].power == 0 ==> HasAddr(vs, changes[i].addr)
  }

  /** Changes are accepted exactly if they are proper, remove only members, and leave somebody and
      no more than the cap of power. */
  lemma {:induction false} AcceptedIff(vs: seq<Validator>, changes: seq<Change>)
    requires Distinct(vs) && |changes| > 0
    ensures var after := Kept(vs, changes) + Joined(vs, changes, 0);
            Updated(vs, changes).Some? <==>
            && Proper(changes) && RemovesKnown(vs, changes)
            && |after| > 0 && Total(after) <= 0x7fff_ffff_ffff_ffff / 8
  {
    var total := PowerBeforeRemovals(vs, changes);
    JoinedAlike(vs, changes, 0, total);
    hide Kept, Joined, ByPower, Normalised, PowerBeforeRemovals;
    TotalOfSame(Kept(vs, changes) + Joined(vs, changes, 0), Kept(vs, changes) + Joined(vs, changes, total));
  }

  lemma {:induction false} JoinedAlike(vs: seq<Validator>, changes: seq<Change>, a: int, b: int)
    ensures SameMembers(Joined(vs, changes, a), Joined(vs, changes, b))
  {
    if |changes| > 0 {
      JoinedAlike(vs, changes[1..], a, b);
    }
  }
}
