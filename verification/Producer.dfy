/** state/validation.go and state/execution.go against light/verifier.go: what full nodes
    accept as blocks, sequential light verification accepts as headers. */
module Producer {
  import opened Common
  import opened Verifier

  datatype ChainState = ChainState(chain: nat, height: int, lastBlock: BlockID, lastTime: int,
                                   last: seq<Member>, current: seq<Member>, next: seq<Member>)

  /** `newSet` is the set after the application's changes. */
  datatype Block = Block(header: Header, parts: nat, lastCommit: Commit, newSet: seq<Member>)

  /** validateBlock; its checks on versions, parameters, median time and evidence only refuse
      more blocks. */
  predicate ValidBlock(s: ChainState, b: Block) {
    && b.header.sound && (b.header.height > 1 ==> b.lastCommit.sound)
    && b.header.chain == s.chain
    && b.header.height == s.height + 1
    && b.header.lastBlock == s.lastBlock
    && b.header.vals == s.current
    && b.header.nextVals == s.next
    && (if b.header.height == 1 then |b.lastCommit.sigs| == 0
        else VerifyCommit(s.last, s.lastBlock, b.header.height - 1, b.lastCommit) == CommitOk)
    && (b.header.height > 1 ==> b.header.time > s.lastTime)
    && (b.header.height == 1 ==> b.header.time == s.lastTime)
  }

  /** ApplyBlock, as far as the chain state goes. */
  function Apply(s: ChainState, b: Block): Option<ChainState> {
    if !ValidBlock(s, b) then None
    else Some(ChainState(s.chain, b.header.height, ID(b.header, b.parts), b.header.time, s.current, s.next, b.newSet))
  }

  ghost predicate IsChain(states: seq<ChainState>, blocks: seq<Block>) {
    && |states| == |blocks| + 1
    && states[0].height == 0 && states[0].lastBlock == NoID && states[0].last == []
    && forall i :: 0 <= i < |blocks| ==> Apply(states[i], blocks[i]) == Some(states[i + 1])
  }

  /** The header of a height with the commit the next block carries for it. */
  function LightAt(blocks: seq<Block>, h: nat): Light
    requires 1 <= h < |blocks|
  {
    var header := blocks[h - 1].header;
    Light(SignedHeader(header, blocks[h].lastCommit), header.vals)
  }

  lemma {:induction false} Heights(states: seq<ChainState>, blocks: seq<Block>, i: nat)
    requires IsChain(states, blocks) && i < |states|
    ensures states[i].height == i && states[i].chain == states[0].chain
  {
    if i > 0 {
      Heights(states, blocks, i - 1);
      assert Apply(states[i - 1], blocks[i - 1]) == Some(states[i]);
    }
  }

  lemma {:induction false} TimesRise(states: seq<ChainState>, blocks: seq<Block>, g: nat, h: nat)
    requires IsChain(states, blocks) && 1 <= g <= h <= |blocks|
    ensures blocks[g - 1].header.time <= blocks[h - 1].header.time
    ensures g < h ==> blocks[g - 1].header.time < blocks[h - 1].header.time
    ensures blocks[0].header.time == states[0].lastTime
  {
    hide VerifyCommit;
    assert Apply(states[0], blocks[0]) == Some(states[1]);
    if g < h {
      TimesRise(states, blocks, g, h - 1);
      Heights(states, blocks, h - 1);
      assert Apply(states[h - 2], blocks[h - 2]) == Some(states[h - 1]);
      assert Apply(states[h - 1], blocks[h - 1]) == Some(states[h]);
    }
  }

  /** The set that a block's execution makes is announced by the next block, is in force for the
      one after, and signs it. */
  lemma {:induction false} SetsTravel(states: seq<ChainState>, blocks: seq<Block>, i: nat)
    requires IsChain(states, blocks) && i + 2 < |blocks|
    ensures var made, b := blocks[i].newSet, blocks[i + 2];
            && blocks[i + 1].header.nextVals == made && b.header.vals == made
            && (i + 3 < |blocks| ==>
                  VerifyCommit(made, ID(b.header, b.parts), b.header.height, blocks[i + 3].lastCommit) == CommitOk)
  {
    hide VerifyCommit;
    Heights(states, blocks, i + 2);
    assert Apply(states[i], blocks[i]) == Some(states[i + 1]);
    assert Apply(states[i + 1], blocks[i + 1]) == Some(states[i + 2]);
    assert Apply(states[i + 2], blocks[i + 2]) == Some(states[i + 3]);
    if i + 3 < |blocks| {
      Heights(states, blocks, i + 3);
      assert Apply(states[i + 3], blocks[i + 3]) == Some(states[i + 4]);
    }
  }

  /** The signed header of a height is sound, on this chain, and signed by its own validators. */
  lemma {:induction false} SignedSoundly(states: seq<ChainState>, blocks: seq<Block>, h: nat)
    requires IsChain(states, blocks) && 1 <= h < |blocks|
    ensures var l := LightAt(blocks, h);
            && l.sh.header.height == h && Basic(states[0].chain, l.sh)
            && VerifyCommitLight(l.vals, l.sh.commit.block, h, l.sh.commit) == CommitOk
  {
    hide VerifyCommit, VerifyCommitLight;
    Heights(states, blocks, h - 1);
    Heights(states, blocks, h);
    var s := states[h];
    assert Apply(states[h - 1], blocks[h - 1]) == Some(s);
    assert Apply(s, blocks[h]) == Some(states[h + 1]);
    FullImpliesLight(s.last, s.lastBlock, h, blocks[h].lastCommit);
    CommitNames(s.last, s.lastBlock, h, blocks[h].lastCommit);
  }

  lemma CommitNames(vals: seq<Member>, id: BlockID, height: int, commit: Commit)
    requires VerifyCommit(vals, id, height, commit) == CommitOk
    ensures commit.height == height && commit.block == id
  {
  }

  /** Every check of a sequential step passes between any two heights below the tip. */
  lemma {:induction false} SequenceAccepts(states: seq<ChainState>, blocks: seq<Block>, s: Settings, now: int,
                                           lo: nat, hi: nat, h: nat)
    requires IsChain(states, blocks) && 1 <= lo < h <= hi < |blocks| && s.chain == states[0].chain
    requires !HeaderExpired(blocks[lo - 1].header, s.period, now) && blocks[hi - 1].header.time < now + s.drift
    ensures VerifyAdjacent(s, LightAt(blocks, h - 1).sh, LightAt(blocks, h), now) == Ok
  {
    SignedSoundly(states, blocks, h);
    hide VerifyCommit, VerifyCommitLight, Basic;
    Heights(states, blocks, h - 2);
    TimesRise(states, blocks, lo, h - 1);
    TimesRise(states, blocks, h, hi);
    assert Apply(states[h - 2], blocks[h - 2]) == Some(states[h - 1]);
    assert Apply(states[h - 1], blocks[h - 1]) == Some(states[h]);
  }
}
