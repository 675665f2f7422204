/** A light client of providers that serve what full nodes accepted. */
module HonestProvider {
  import opened Verifier
  import opened LightClient
  import opened Producer

  /** The signed headers of the chain between two heights. */
  function Lights(blocks: seq<Block>, lo: nat, hi: nat): map<int, Light>
    requires 1 <= lo <= hi < |blocks|
  {
    map h: int | lo <= h <= hi :: LightAt(blocks, h)
  }

  /** Every provider, whenever asked, gives the chain's own header and validators. */
  ghost predicate ServesChain(world: World, blocks: seq<Block>, lo: nat, hi: nat)
    requires 1 <= lo <= hi < |blocks|
  {
    forall h :: lo < h < hi ==> Serves(world, h, LightAt(blocks, h))
  }

  predicate Recent(blocks: seq<Block>, s: Settings, lo: nat, hi: nat, now: int)
    requires 1 <= lo <= hi < |blocks|
  {
    !HeaderExpired(blocks[lo - 1].header, s.period, now) && blocks[hi - 1].header.time < now + s.drift
  }

  lemma SignersExist(vals: seq<Member>, id: BlockID, height: int, commit: Commit)
    requires VerifyCommitLight(vals, id, height, commit) == CommitOk
    ensures |vals| > 0
  {
  }

  /** Such providers serve all that sequential verification asks for. */
  lemma {:induction false} ChainIsServed(client: Client, states: seq<ChainState>, blocks: seq<Block>, lo: nat,
                                         hi: nat, now: int)
    requires IsChain(states, blocks) && 1 <= lo < hi < |blocks| && client.settings.chain == states[0].chain
    requires client.attempts > 0 && ServesChain(client.world, blocks, lo, hi) &&
             Recent(blocks, client.settings, lo, hi, now)
    ensures client.SequenceServed(Lights(blocks, lo, hi), lo, hi, now)
  {
    hide IsChain, VerifyAdjacent, VerifyCommitLight, Basic, Serves;
    var lights := Lights(blocks, lo, hi);
    forall h | lo <= h <= hi ensures h in lights && Height(lights[h]) == h {
      SignedSoundly(states, blocks, h);
    }
    forall h | lo < h < hi ensures client.Available(h, lights[h]) {
      SignedSoundly(states, blocks, h);
      var l := LightAt(blocks, h);
      SignersExist(l.vals, l.sh.commit.block, h, l.sh.commit);
    }
    forall h | lo < h <= hi ensures VerifyAdjacent(client.settings, lights[h - 1].sh, lights[h], now) == Ok {
      SequenceAccepts(states, blocks, client.settings, now, lo, hi, h);
    }
  }

  /** From any height of the chain that is not expired to any later one below the tip, the
      client verifies. */
  method FollowChain(client: Client, ghost states: seq<ChainState>, blocks: seq<Block>, lo: nat, hi: nat, now: int)
    returns (r: Verdict)
    requires IsChain(states, blocks) && 1 <= lo < hi < |blocks| && client.settings.chain == states[0].chain
    requires client.attempts > 0 && client.Patient()
    requires ServesChain(client.world, blocks, lo, hi) && Recent(blocks, client.settings, lo, hi, now)
    modifies client
    ensures r == Verified
  {
    ghost var lights := Lights(blocks, lo, hi);
    SignedSoundly(states, blocks, lo);
    SignedSoundly(states, blocks, hi);
    ChainIsServed(client, states, blocks, lo, hi, now);
    hide IsChain, VerifyCommitLight, Basic, Serves;
    ghost var path;
    r, path := client.Sequence(LightAt(blocks, lo), LightAt(blocks, hi), now, lights);
  }
}
