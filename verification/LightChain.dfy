/** A light client that starts on the chain stays on it. */
module LightChain {
  import opened Verifier

  /** The positions in a set of the keys in `bad`. */
  function Faulty(vals: seq<Member>, bad: set<nat>): set<nat> {
    set i | 0 <= i < |vals| && vals[i].key in bad
  }

  function FaultyPower(vals: seq<Member>, bad: set<nat>): nat {
    Q.Power(Powers(vals), Faulty(vals, bad))
  }

  /** The set that a step relies on: the one the trusted header names for the next height, or
      its own. */
  function ReliesOn(trusted: Light, next: Light): seq<Member> {
    if next.sh.header.height == trusted.sh.header.height + 1 then trusted.sh.header.nextVals else trusted.vals
  }

  /** The faulty validators of that set cannot carry the step alone. */
  ghost predicate TooFew(s: Settings, trusted: Light, next: Light, bad: set<nat>) {
    var vals := ReliesOn(trusted, next);
    if next.sh.header.height == trusted.sh.header.height + 1
    then 3 * FaultyPower(vals, bad) <= 2 * TotalPower(vals)
    else s.den > 0 && FaultyPower(vals, bad) <= TotalPower(vals) * s.num / s.den
  }

  /** A validator of the set, not in `bad`, whose own signature is in the commit. */
  ghost predicate HasHonest(vals: seq<Member>, sigs: seq<Sig>, bad: set<nat>) {
    exists v: nat :: Signed(vals, sigs, v) && vals[v].key !in bad
  }

  ghost predicate HasQuorum(vals: seq<Member>, sigs: seq<Sig>) {
    exists who :: AllSigned(vals, sigs, who) && Q.Quorum(Powers(vals), who)
  }

  /** Every step of a path leads to a header with +2/3 of its own validators behind it, and
      with the signature of a validator that is not faulty, of the set trusted before it. */
  lemma {:induction false} PathSound(s: Settings, path: seq<Light>, now: int, bad: set<nat>, i: nat)
    requires IsPath(s, path, now) && 0 < i < |path| && TooFew(s, path[i - 1], path[i], bad)
    ensures var next := path[i];
            && next.sh.commit.block.ID? && next.sh.commit.block.header == next.sh.header
            && next.sh.header.vals == next.vals && HasQuorum(next.vals, next.sh.commit.sigs)
            && HasHonest(ReliesOn(path[i - 1], next), next.sh.commit.sigs, bad)
  {
    hide VerifyAdjacent, VerifyNonAdjacent, Q.Power, Q.Total;
    var trusted, next := path[i - 1], path[i];
    assert Verify(s, trusted, next, now) == Ok;
    var vals := ReliesOn(trusted, next);
    if next.sh.header.height == trusted.sh.header.height + 1 {
      var who := AdjacentSound(s, trusted.sh, next, now);
      var v := OneOutside(vals, who, Faulty(vals, bad));
      assert Signed(vals, next.sh.commit.sigs, v);
    } else {
      var who, v := NonAdjacentSound(s, trusted, next, now, Faulty(vals, bad));
      assert Signed(vals, next.sh.commit.sigs, v) && vals[v].key !in bad;
    }
  }

  // ----- the chain

  /** The header of every height, each with less than a third of faulty power in its
      validators and in those it names for the next height. */
  ghost predicate MostlySound(chain: int -> Header, bad: set<nat>) {
    forall h :: var header := chain(h);
      && 3 * FaultyPower(header.vals, bad) < TotalPower(header.vals)
      && 3 * FaultyPower(header.nextVals, bad) < TotalPower(header.nextVals)
  }

  predicate SignedBy(sh: SignedHeader, k: nat, bad: set<nat>) {
    k < |sh.commit.sigs| && sh.commit.sigs[k].ForBlock? && sh.commit.sigs[k].signer !in bad && sh.commit.block.ID?
  }

  /** Validators that are not faulty sign the chain's header of a height and no other. */
  ghost predicate SignsChain(chain: int -> Header, bad: set<nat>, sh: SignedHeader) {
    forall k: nat :: SignedBy(sh, k, bad) ==> sh.commit.block.header == chain(sh.commit.height)
  }

  ghost predicate OnChain(chain: int -> Header, light: Light) {
    light.sh.header == chain(light.sh.header.height) && light.vals == light.sh.header.vals
  }

  lemma FewOnChain(s: Settings, trusted: Light, next: Light, chain: int -> Header, bad: set<nat>)
    requires OnChain(chain, trusted) && MostlySound(chain, bad) && 0 < s.den <= 3 * s.num
    ensures TooFew(s, trusted, next, bad)
  {
    var header := chain(trusted.sh.header.height);
    hide FaultyPower, TotalPower;
    BelowLevel(FaultyPower(header.vals, bad), TotalPower(header.vals), s.num, s.den);
  }

  /** Whatever the providers serve, a path that begins with a header of the chain has nothing
      but headers of the chain, at any trust level of a third or more. */
  lemma {:induction false} StaysOnChain(s: Settings, path: seq<Light>, now: int, chain: int -> Header, bad: set<nat>,
                                        i: nat)
    requires IsPath(s, path, now) && OnChain(chain, path[0]) && MostlySound(chain, bad) && 0 < s.den <= 3 * s.num
    requires forall k :: 0 < k < |path| ==> SignsChain(chain, bad, path[k].sh)
    requires i < |path|
    ensures OnChain(chain, path[i])
  {
    if i > 0 {
      StaysOnChain(s, path, now, chain, bad, i - 1);
      hide MostlySound, TooFew, IsPath, HasHonest, HasQuorum, ReliesOn;
      FewOnChain(s, path[i - 1], path[i], chain, bad);
      PathSound(s, path, now, bad, i);
      PathCommits(s, path, now, i);
      HonestSays(chain, bad, ReliesOn(path[i - 1], path[i]), path[i].sh);
    }
  }

  lemma HonestSays(chain: int -> Header, bad: set<nat>, vals: seq<Member>, sh: SignedHeader)
    requires SignsChain(chain, bad, sh) && HasHonest(vals, sh.commit.sigs, bad) && sh.commit.block.ID?
    ensures sh.commit.block.header == chain(sh.commit.height)
  {
    var v: nat :| Signed(vals, sh.commit.sigs, v) && vals[v].key !in bad;
    var k :| 0 <= k < |sh.commit.sigs| && sh.commit.sigs[k].ForBlock? && sh.commit.sigs[k].signer == vals[v].key;
    assert SignedBy(sh, k, bad);
  }

  lemma PathCommits(s: Settings, path: seq<Light>, now: int, i: nat)
    requires IsPath(s, path, now) && 0 < i < |path|
    ensures path[i].sh.commit.height == path[i].sh.header.height
  {
    PathRises(s, path, now, i - 1, i);
  }
}
