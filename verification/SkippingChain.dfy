/** Skipping verification of headers that full nodes accepted: what a step over several heights
    comes to, and that bisection gets to any of them. */
module SkippingChain {
  import opened Common
  import opened Verifier
  import opened CommitChecks
  import opened LightClient
  import opened Producer
  import opened HonestProvider

  /** Validator sets have no address twice. */
  ghost predicate SetsDistinct(states: seq<ChainState>) {
    forall i :: 0 <= i < |states| ==> DistinctKeys(states[i].current)
  }

  /** Signatures for the block carry the address of the key that made them. */
  ghost predicate Addressed(commit: Commit) {
    forall k :: 0 <= k < |commit.sigs| && commit.sigs[k].ForBlock? ==> commit.sigs[k].address == commit.sigs[k].signer
  }

  lemma {:induction false} TimesRiseOn(states: seq<ChainState>, blocks: seq<Block>, g: nat, h: nat)
    requires IsChain(states, blocks) && 1 <= g < h <= |blocks|
    ensures blocks[g - 1].header.time < blocks[h - 1].header.time
  {
    hide VerifyCommit;
    TimesRise(states, blocks, g, h - 1);
    Heights(states, blocks, h - 1);
    assert Apply(states[h - 2], blocks[h - 2]) == Some(states[h - 1]);
    assert Apply(states[h - 1], blocks[h - 1]) == Some(states[h]);
  }

  lemma SetIs(states: seq<ChainState>, blocks: seq<Block>, h: nat)
    requires IsChain(states, blocks) && SetsDistinct(states) && 1 <= h < |blocks|
    ensures DistinctKeys(LightAt(blocks, h).vals)
  {
    hide VerifyCommit;
    assert Apply(states[h - 1], blocks[h - 1]) == Some(states[h]);
  }

  /** All that a step checks besides the trust level holds on the chain. */
  lemma {:induction false} StepIsSound(states: seq<ChainState>, blocks: seq<Block>, s: Settings, now: int, lo: nat,
                                       hi: nat, g: nat, h: nat)
    requires IsChain(states, blocks) && 1 <= lo <= g && g + 1 < h <= hi < |blocks| && s.chain == states[0].chain
    requires Recent(blocks, s, lo, hi, now)
    ensures var trusted, next := LightAt(blocks, g), LightAt(blocks, h);
            VerifyNonAdjacent(s, trusted, next, now) ==
            match VerifyTrusting(trusted.vals, next.sh.commit, s.num, s.den)
            case CommitOk => Ok
            case NotEnough => CantTrust
            case BadCommit => Failed
  {
    hide VerifyCommit, VerifyCommitLight, VerifyTrusting, Basic, IsChain;
    SignedSoundly(states, blocks, g);
    SignedSoundly(states, blocks, h);
    TimesRise(states, blocks, lo, g);
    TimesRise(states, blocks, h, hi);
    TimesRiseOn(states, blocks, g, h);
  }

  /** The signers of the next header that are trusted hold more than the trust level. */
  ghost predicate Overlaps(s: Settings, trusted: Light, next: Light)
    requires s.den > 0
  {
    NamedPower(trusted.vals, next.sh.commit.sigs, |next.sh.commit.sigs|) > TotalPower(trusted.vals) * s.num / s.den
  }

  /** A commit that full nodes accepted, with the right addresses, is clean for any trusted set. */
  lemma AcceptedIsClean(vals: seq<Member>, id: BlockID, height: int, commit: Commit, trusted: seq<Member>)
    requires VerifyCommit(vals, id, height, commit) == CommitOk && DistinctKeys(vals) && Addressed(commit)
    ensures Clean(trusted, commit.sigs, |commit.sigs|)
  {
    var sigs := commit.sigs;
    assert forall k :: 0 <= k < |sigs| && !sigs[k].Absent? ==> sigs[k].signer == vals[k].key;
  }

  lemma CommitIsClean(states: seq<ChainState>, blocks: seq<Block>, h: nat, trusted: seq<Member>)
    requires IsChain(states, blocks) && SetsDistinct(states) && 1 <= h < |blocks| && Addressed(blocks[h].lastCommit)
    ensures Clean(trusted, blocks[h].lastCommit.sigs, |blocks[h].lastCommit.sigs|)
  {
    hide VerifyCommit, Clean, Addressed;
    Heights(states, blocks, h);
    var s := states[h];
    assert Apply(states[h - 1], blocks[h - 1]) == Some(s);
    assert Apply(s, blocks[h]) == Some(states[h + 1]);
    AcceptedIsClean(s.last, s.lastBlock, h, blocks[h].lastCommit, trusted);
  }

  /** On a chain that full nodes accepted, a step over several heights verifies exactly if the
      trusted validators among the signers hold more than the trust level, and otherwise asks
      for a header in between. */
  lemma {:induction false} SkipsIff(states: seq<ChainState>, blocks: seq<Block>, s: Settings, now: int, lo: nat,
                                    hi: nat, g: nat, h: nat)
    requires IsChain(states, blocks) && SetsDistinct(states) && s.den > 0
    requires 1 <= lo <= g && g + 1 < h <= hi < |blocks| && s.chain == states[0].chain
    requires Recent(blocks, s, lo, hi, now) && Addressed(blocks[h].lastCommit)
    ensures var trusted, next := LightAt(blocks, g), LightAt(blocks, h);
            VerifyNonAdjacent(s, trusted, next, now) == if Overlaps(s, trusted, next) then Ok else CantTrust
  {
    hide VerifyTrusting, VerifyNonAdjacent, IsChain, Clean;
    StepIsSound(states, blocks, s, now, lo, hi, g, h);
    SetIs(states, blocks, g);
    CommitIsClean(states, blocks, h, LightAt(blocks, g).vals);
    TrustingCounts(LightAt(blocks, g).vals, blocks[h].lastCommit, s.num, s.den);
  }

  /** Without the right addresses: exactly if some first signatures are clean and enough. */
  lemma {:induction false} SkipsExactly(states: seq<ChainState>, blocks: seq<Block>, s: Settings, now: int, lo: nat,
                                        hi: nat, g: nat, h: nat)
    requires IsChain(states, blocks) && SetsDistinct(states) && s.den > 0
    requires 1 <= lo <= g && g + 1 < h <= hi < |blocks| && s.chain == states[0].chain
    requires Recent(blocks, s, lo, hi, now)
    ensures var trusted, next := LightAt(blocks, g), LightAt(blocks, h);
            var vals, sigs, needed := trusted.vals, next.sh.commit.sigs, TotalPower(trusted.vals) * s.num / s.den;
            var r := VerifyNonAdjacent(s, trusted, next, now);
            && (r == Ok <==> exists n :: 0 <= n <= |sigs| && Reaches(vals, sigs, needed, n))
            && (r == CantTrust <==> Clean(vals, sigs, |sigs|) && !Overlaps(s, trusted, next))
            && r in {Ok, CantTrust, Failed}
  {
    hide VerifyTrusting, VerifyNonAdjacent, IsChain, Clean, Reaches;
    StepIsSound(states, blocks, s, now, lo, hi, g, h);
    SetIs(states, blocks, g);
    TrustingIs(LightAt(blocks, g).vals, blocks[h].lastCommit, s.num, s.den);
  }

  ghost predicate AllAddressed(blocks: seq<Block>, lo: nat, hi: nat)
    requires hi < |blocks|
  {
    forall h :: lo < h <= hi ==> Addressed(blocks[h].lastCommit)
  }

  lemma {:induction false} StepIsServed(states: seq<ChainState>, blocks: seq<Block>, s: Settings, now: int, lo: nat,
                                        hi: nat, g: nat, h: nat)
    requires IsChain(states, blocks) && SetsDistinct(states) && s.den > 0
    requires 1 <= lo <= g < h <= hi < |blocks| && s.chain == states[0].chain
    requires Recent(blocks, s, lo, hi, now) && AllAddressed(blocks, lo, hi)
    ensures Verify(s, LightAt(blocks, g), LightAt(blocks, h), now) in {Ok, CantTrust}
  {
    hide IsChain, VerifyAdjacent, VerifyNonAdjacent, Addressed, Overlaps;
    SignedSoundly(states, blocks, g);
    SignedSoundly(states, blocks, h);
    if h == g + 1 {
      SequenceAccepts(states, blocks, s, now, lo, hi, h);
    } else {
      SkipsIff(states, blocks, s, now, lo, hi, g, h);
    }
  }

  /** Providers that serve an accepted chain serve what bisection needs. */
  lemma {:induction false} ChainIsBisected(client: Client, states: seq<ChainState>, blocks: seq<Block>, lo: nat,
                                           hi: nat, now: int)
    requires IsChain(states, blocks) && SetsDistinct(states) && client.settings.den > 0
    requires 1 <= lo < hi < |blocks| && client.settings.chain == states[0].chain && client.attempts > 0
    requires ServesChain(client.world, blocks, lo, hi) && Recent(blocks, client.settings, lo, hi, now)
    requires AllAddressed(blocks, lo, hi)
    ensures client.BisectionServed(Lights(blocks, lo, hi), LightAt(blocks, lo), LightAt(blocks, hi), now)
  {
    hide IsChain, Verify, Serves, AllAddressed, SetsDistinct;
    ChainIsServed(client, states, blocks, lo, hi, now);
    var lights := Lights(blocks, lo, hi);
    SignedSoundly(states, blocks, lo);
    SignedSoundly(states, blocks, hi);
    forall g, h | lo <= g < h <= hi ensures Verify(client.settings, lights[g], lights[h], now) in {Ok, CantTrust} {
      StepIsServed(states, blocks, client.settings, now, lo, hi, g, h);
    }
  }

  /** From any height that is not expired the client gets by bisection to any later one below
      the tip, if the witnesses agree. */
  method SkipAlong(client: Client, ghost states: seq<ChainState>, blocks: seq<Block>, lo: nat, hi: nat, now: int)
    returns (r: Verdict)
    requires IsChain(states, blocks) && SetsDistinct(states) && client.settings.den > 0
    requires 1 <= lo < hi < |blocks| && client.settings.chain == states[0].chain
    requires client.attempts > 0 && client.Patient() && AllAddressed(blocks, lo, hi)
    requires ServesChain(client.world, blocks, lo, hi) && Recent(blocks, client.settings, lo, hi, now)
    modifies client
    ensures r == Verified
  {
    hide IsChain, Serves, AllAddressed, SetsDistinct;
    ghost var lights := Lights(blocks, lo, hi);
    SignedSoundly(states, blocks, lo);
    ChainIsBisected(client, states, blocks, lo, hi, now);
    ghost var path;
    r, path := client.Bisection(LightAt(blocks, lo), LightAt(blocks, hi), now, true, lights);
  }

  // ----- why the addresses matter

  const PAIR: seq<Member> := [Member(1, 1), Member(2, 1)]

  /** Each signature is its validator's own, under the address of the other. */
  const SWAPPED: seq<Sig> := [ForBlock(2, 1), ForBlock(1, 2)]

  function HeaderAt(h: nat): Header {
    Header(0, h, h, PAIR, PAIR, if h <= 1 then NoID else ID(HeaderAt(h - 1), 0), 0, true)
  }

  function BlockAt(h: nat): Block
    requires h >= 1
  {
    var commit := if h == 1 then Commit(0, NoID, [], true)
                  else Commit(h - 1, ID(HeaderAt(h - 1), 0), SWAPPED, true);
    Block(HeaderAt(h), 0, commit, PAIR)
  }

  function StateAt(h: nat): ChainState {
    if h == 0 then ChainState(0, 0, NoID, 1, [], PAIR, PAIR)
    else ChainState(0, h, ID(HeaderAt(h), 0), h, PAIR, PAIR, PAIR)
  }

  lemma PairSigns(h: nat)
    requires h >= 1
    ensures VerifyCommit(PAIR, ID(HeaderAt(h), 0), h, Commit(h, ID(HeaderAt(h), 0), SWAPPED, true)) == CommitOk
    ensures TotalPower(PAIR) == 2
  {
    assert Powers(PAIR) == [1, 1] && [1, 1][..1] == [1] && [1][..0] == [];
    assert TotalPower(PAIR) == 2;
    assert Tally(PAIR, SWAPPED, 1) == 1;
  }

  lemma NextBlock(h: nat)
    ensures Apply(StateAt(h), BlockAt(h + 1)) == Some(StateAt(h + 1))
  {
    hide VerifyCommit;
    if h > 0 {
      PairSigns(h);
    }
  }

  /** Full nodes do not compare the addresses in a commit with the validators. So there is a chain
      they accept, with the same two validators all along, on which a light client that trusts
      both fails at a step over two heights. */
  lemma {:induction false} SwappedFails(s: Settings, now: int) returns (states: seq<ChainState>, blocks: seq<Block>)
    requires s.chain == 0 && 0 < s.den && 1 + s.period > now && 3 < now + s.drift
    ensures IsChain(states, blocks) && SetsDistinct(states) && |blocks| == 4 && Recent(blocks, s, 1, 3, now)
    ensures var sigs, vals := LightAt(blocks, 3).sh.commit.sigs, LightAt(blocks, 1).vals;
            |sigs| == |vals| && forall k :: 0 <= k < |sigs| ==> sigs[k].ForBlock? && sigs[k].signer == vals[k].key
    ensures VerifyNonAdjacent(s, LightAt(blocks, 1), LightAt(blocks, 3), now) == Failed
  {
    states := [StateAt(0), StateAt(1), StateAt(2), StateAt(3), StateAt(4)];
    blocks := [BlockAt(1), BlockAt(2), BlockAt(3), BlockAt(4)];
    NextBlock(0);
    NextBlock(1);
    NextBlock(2);
    NextBlock(3);
    hide Apply, VerifyNonAdjacent;
    assert IsChain(states, blocks);
    StepIsSound(states, blocks, s, now, 1, 3, 1, 3);
    SwappedIsBad(s.num, s.den, LightAt(blocks, 3).sh.commit);
  }

  lemma SwappedIsBad(num: nat, den: nat, commit: Commit)
    requires den > 0 && commit.sigs == SWAPPED
    ensures VerifyTrusting(PAIR, commit, num, den) == BadCommit
  {
    assert PAIR[1..] == [Member(2, 1)];
    assert IndexOf(PAIR, 2) == 1;
  }
}
