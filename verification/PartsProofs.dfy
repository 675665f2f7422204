/** Where every block has one part-set header, a precommit of height 0 is all that can make
    consensus/state.go panic. */
module PartsProofs {
  import opened Common
  import opened Quorums
  import opened VoteSets
  import opened Consensus
  import opened ConsensusInvariants
  import opened Agreement
  import opened Halting

  /** The header that the encoding of a block has. */
  type Headers = nat -> nat

  /** A block is held with all the parts of its header. */
  predicate Framed(parts: Headers, complete: set<nat>, block: Option<nat>, held: Option<PartSet>) {
    block.Some? ==> held.Some? && held.value.header == parts(block.value) && held.value.id in complete
  }

  predicate Proper(parts: Headers, id: BlockID) {
    id.ID? ==> id.parts == parts(id.hash)
  }

  ghost predicate SignedProper(parts: Headers, signed: set<Vote>) {
    forall v :: v in signed ==> Proper(parts, v.id)
  }

  ghost predicate PartsOk(parts: Headers, s: RoundState) {
    && Framed(parts, s.complete, s.proposalBlock, s.proposalParts)
    && Framed(parts, s.complete, s.lockedBlock, s.lockedParts)
    && SignedProper(parts, s.signed)
  }

  ghost predicate AllProper(c: Chain, parts: Headers, votes: set<Vote>, h: nat) {
    forall kind, r: nat, id: BlockID :: Backed(c, votes, kind, h, r, id) ==> Proper(parts, id)
  }

  /** A block is put together from the parts of its own header. */
  predicate Fits(parts: Headers, s: RoundState, input: Input) {
    input.BlockMsg? && input.block.Some? && s.proposalParts.Some? ==>
      s.proposalParts.value.header == parts(input.block.value)
  }

  // ----- one node

  lemma MajorityProper(c: Chain, parts: Headers, s: RoundState, round: int, kind: Kind)
    requires Inv(c, s) && AllProper(c, parts, s.seen, s.height)
    ensures Majority(s, round, kind).Some? ==> Proper(parts, Majority(s, round, kind).value)
  {
    hide Inv, Backed, Proper;
    if Majority(s, round, kind).Some? {
      MajorityIsBacked(c, s, round, kind);
    }
  }

  lemma Signs(c: Chain, o: Oracle, parts: Headers, s: RoundState, kind: Kind, id: BlockID, entered: nat)
    requires PartsOk(parts, s) && Proper(parts, id)
    ensures PartsOk(parts, SignAddVote(c, o, s, kind, id, entered))
  {
  }

  lemma PrevoteParts(c: Chain, o: Oracle, parts: Headers, s: RoundState, height: nat, round: nat)
    requires PartsOk(parts, s)
    ensures PartsOk(parts, EnterPrevote(c, o, s, height, round))
  {
    hide SignedProper, SignAddVote;
    Signs(c, o, parts, s, Prevote, PrevoteID(c, o, s), round);
  }

  lemma ProposeParts(c: Chain, o: Oracle, parts: Headers, s: RoundState, height: nat, round: nat)
    requires PartsOk(parts, s)
    ensures PartsOk(parts, EnterPropose(c, o, s, height, round))
  {
    hide SignedProper, EnterPrevote, IsProposalComplete;
    PrevoteParts(c, o, parts, Schedule(s, height, round, PROPOSE).(round := round, step := PROPOSE), height, round);
  }

  lemma RoundParts(c: Chain, o: Oracle, parts: Headers, s: RoundState, height: nat, round: nat)
    requires PartsOk(parts, s)
    ensures PartsOk(parts, EnterNewRound(c, o, s, height, round))
  {
    hide SignedProper, EnterPropose;
    var s1 := s.(round := round, step := NEW_ROUND, openRound := round + 1, triggered := false);
    var s2 := if round == 0 then s1 else s1.(proposal := None, proposalBlock := None, proposalParts := None);
    ProposeParts(c, o, parts, s2, height, round);
  }

  lemma LockParts(c: Chain, o: Oracle, parts: Headers, s: RoundState, round: nat, id: BlockID)
    requires PartsOk(parts, s) && Proper(parts, id)
    ensures PartsOk(parts, LockOn(c, o, s, round, id))
  {
    hide SignedProper, SignAddVote;
    match id
    case NilID => Signs(c, o, parts, Unlock(s), Precommit, NilID, round);
    case ID(hash, header) =>
      var locked := s.(lockedRound := round, lockedBlock := s.proposalBlock, lockedParts := s.proposalParts);
      Signs(c, o, parts, s.(lockedRound := round), Precommit, id, round);
      Signs(c, o, parts, locked, Precommit, id, round);
      Signs(c, o, parts, Await(Unlock(s), header), Precommit, NilID, round);
  }

  lemma PrecommitParts(c: Chain, o: Oracle, parts: Headers, s: RoundState, height: nat, round: nat)
    requires Inv(c, s) && AllProper(c, parts, s.seen, s.height) && PartsOk(parts, s)
    ensures PartsOk(parts, EnterPrecommit(c, o, s, height, round))
  {
    hide Inv, AllProper, SignedProper, SignAddVote, Majority, LockOn, PolRound;
    MajorityProper(c, parts, s, round, Prevote);
    match Majority(s, round, Prevote)
    case None => Signs(c, o, parts, s, Precommit, NilID, round);
    case Some(id) => LockParts(c, o, parts, s, round, id);
  }

  lemma FinalizeParts(c: Chain, o: Oracle, parts: Headers, s: RoundState, height: nat)
    requires PartsOk(parts, s)
    ensures PartsOk(parts, TryFinalizeCommit(c, o, s, height))
  {
    hide SignedProper, Majority, FinalizeCommit;
    FinalizedParts(c, o, parts, s, height);
  }

  lemma FinalizedParts(c: Chain, o: Oracle, parts: Headers, s: RoundState, height: nat)
    requires PartsOk(parts, s)
    ensures PartsOk(parts, FinalizeCommit(c, o, s, height))
  {
    hide SignedProper, Majority, HasHeader, IsComplete, HashesTo, Saved;
  }

  lemma CommitParts(c: Chain, o: Oracle, parts: Headers, s: RoundState, height: nat, round: nat)
    requires PartsOk(parts, s)
    ensures PartsOk(parts, EnterCommit(c, o, s, height, round))
  {
    hide SignedProper, Majority, TryFinalizeCommit;
    if Majority(s, round, Precommit).Some? {
      var id := Majority(s, round, Precommit).value;
      FinalizeParts(c, o, parts, IntoCommit(s, id, round), height);
    }
  }

  lemma TimeoutParts(c: Chain, o: Oracle, parts: Headers, s: RoundState, ti: Timeout)
    requires Inv(c, s) && AllProper(c, parts, s.seen, s.height) && PartsOk(parts, s)
    ensures PartsOk(parts, HandleTimeout(c, o, s, ti))
  {
    hide Inv, AllProper, EnterNewRound, EnterPropose, EnterPrevote, EnterPrecommit;
    RoundParts(c, o, parts, s, ti.height, 0);
    ProposeParts(c, o, parts, s, ti.height, 0);
    PrevoteParts(c, o, parts, s, ti.height, ti.round);
    PrecommitParts(c, o, parts, s, ti.height, ti.round);
    RoundParts(c, o, parts, EnterPrecommit(c, o, s, ti.height, ti.round), ti.height, ti.round + 1);
  }

  lemma ValidParts(parts: Headers, s: RoundState, round: nat, id: BlockID)
    requires PartsOk(parts, s) && Proper(parts, id)
    ensures PartsOk(parts, MaybeSetValid(MaybeUnlock(s, round, id), round, id))
  {
    hide SignedProper;
  }

  lemma PrevotedParts(c: Chain, o: Oracle, parts: Headers, s: RoundState, round: nat)
    requires Inv(c, s) && AllProper(c, parts, s.seen, s.height) && PartsOk(parts, s)
    ensures PartsOk(parts, AfterPrevote(c, o, s, round))
  {
    hide Inv, AllProper, Grew, ReactToPrevotes, MaybeSetValid;
    match Majority(s, round, Prevote)
    case None => ReactParts(c, o, parts, s, round, None);
    case Some(id) =>
      var s1 := MaybeUnlock(s, round, id);
      MajorityProper(c, parts, s, round, Prevote);
      MaybeUnlockKept(c, s, round);
      SetValidKept(c, s, s1, round, id);
      ValidParts(parts, s, round, id);
      SameHeightValid(s1, round, id);
      ReactParts(c, o, parts, MaybeSetValid(s1, round, id), round, Some(id));
  }

  lemma SameHeightValid(s: RoundState, round: nat, id: BlockID)
    ensures MaybeSetValid(s, round, id).height == s.height
  {
  }

  lemma ReactParts(c: Chain, o: Oracle, parts: Headers, s: RoundState, round: nat, maj: Option<BlockID>)
    requires Inv(c, s) && AllProper(c, parts, s.seen, s.height) && PartsOk(parts, s)
    ensures PartsOk(parts, ReactToPrevotes(c, o, s, round, maj))
  {
    hide Inv, AllProper, EnterNewRound, EnterPrevote, EnterPrecommit;
    RoundParts(c, o, parts, s, s.height, round);
    PrevoteParts(c, o, parts, s, s.height, s.round);
    PrecommitParts(c, o, parts, s, s.height, round);
  }

  /** The state in which the commit is entered. */
  lemma CommittingParts(c: Chain, o: Oracle, parts: Headers, s: RoundState, round: nat)
    requires Inv(c, s) && AllProper(c, parts, s.seen, s.height) && PartsOk(parts, s) && !s.halted
    ensures PartsOk(parts, EnterNewRound(c, o, s, s.height, round)) && PartsOk(parts, Committing(c, o, s, round))
  {
    hide Inv, AllProper, EnterNewRound, EnterPrecommit, PartsOk;
    RoundParts(c, o, parts, s, s.height, round);
    EnterNewRoundKept(c, o, s, s.height, round);
    EntersRound(c, o, s, s.height, round);
    PrecommitParts(c, o, parts, EnterNewRound(c, o, s, s.height, round), s.height, round);
  }

  lemma WaitParts(c: Chain, parts: Headers, s: RoundState, height: nat, round: nat)
    requires PartsOk(parts, s)
    ensures PartsOk(parts, EnterPrecommitWait(c, s, height, round))
  {
  }

  lemma PrecommittedParts(c: Chain, o: Oracle, parts: Headers, s: RoundState, round: nat)
    requires Inv(c, s) && AllProper(c, parts, s.seen, s.height) && PartsOk(parts, s) && !s.halted
    ensures PartsOk(parts, AfterPrecommit(c, o, s, round))
  {
    hide Inv, AllProper, EnterNewRound, EnterPrecommit, EnterCommit, EnterPrecommitWait, PartsOk;
    CommittingParts(c, o, parts, s, round);
    WaitParts(c, parts, EnterNewRound(c, o, s, s.height, round), s.height, round);
    var s2 := Committing(c, o, s, round);
    WaitParts(c, parts, s2, s.height, round);
    CommitParts(c, o, parts, s2, s.height, round);
    var s3 := EnterCommit(c, o, s2, s.height, round);
    RoundParts(c, o, parts, s3, s3.height, 0);
  }

  lemma ReceiveParts(c: Chain, o: Oracle, parts: Headers, s: RoundState, height: nat)
    requires Inv(c, s) && AllProper(c, parts, s.seen, s.height) && PartsOk(parts, s)
    ensures PartsOk(parts, ReceiveBlock(c, o, s, height))
  {
    hide AllProper, SignedProper, EnterPrevote, EnterPrecommit, TryFinalizeCommit, Inv, Grew;
    var s1 := ValidOnPolka(s);
    ValidOnPolkaKept(c, s);
    assert PartsOk(parts, s1);
    hide PartsOk;
    FinalizeParts(c, o, parts, s1, height);
    PrevoteParts(c, o, parts, s1, height, s1.round);
    EnterPrevoteKept(c, o, s1, height, s1.round);
    var s2 := EnterPrevote(c, o, s1, height, s1.round);
    SameHeight(c, o, s1, height);
    PrecommitParts(c, o, parts, s2, height, s2.round);
  }

  lemma BlockParts(c: Chain, o: Oracle, parts: Headers, s: RoundState, height: nat, block: Option<nat>)
    requires Inv(c, s) && AllProper(c, parts, s.seen, s.height) && PartsOk(parts, s)
    requires Fits(parts, s, BlockMsg(height, block))
    ensures PartsOk(parts, AddBlock(c, o, s, height, block))
  {
    hide AllProper, SignedProper, ReceiveBlock;
    if s.height == height && s.proposalParts.Some? && block.Some? && !IsComplete(s, s.proposalParts) {
      var s1 := s.(complete := s.complete + {s.proposalParts.value.id}, proposalBlock := block);
      assert Inv(c, s1) && PartsOk(parts, s1);
      hide Inv, PartsOk;
      ReceiveParts(c, o, parts, s1, height);
    }
  }

  lemma SameHeight(c: Chain, o: Oracle, s: RoundState, height: nat)
    ensures EnterPrevote(c, o, s, height, s.round).height == s.height
  {
  }

  lemma LateParts(c: Chain, o: Oracle, parts: Headers, s: RoundState, vote: Vote)
    requires PartsOk(parts, s)
    ensures PartsOk(parts, AddLateVote(c, o, s, vote))
  {
    hide EnterNewRound, AddVote, HasAll, Conflicts;
    if s.lastCommit.LastCommit? {
      var vs := AddVote(c.powers(vote.height), s.lastCommit.votes, vote.val, vote.id).0;
      RoundParts(c, o, parts, s.(lastCommit := s.lastCommit.(votes := vs)), s.height, 0);
    }
  }

  ghost predicate ArrivesProper(c: Chain, parts: Headers, s: RoundState, input: Input) {
    && MayArrive(s, input) && Fits(parts, s, input)
    && AllProper(c, parts, s.seen + (if input.VoteMsg? then {input.vote} else {}), s.height)
  }

  lemma CurrentParts(c: Chain, o: Oracle, parts: Headers, s: RoundState, vote: Vote)
    requires Inv(c, s) && PartsOk(parts, s) && !s.halted && vote.height == s.height
    requires AllProper(c, parts, s.seen + {vote}, s.height)
    ensures PartsOk(parts, AddVoteMsg(c, o, s, vote))
  {
    hide Inv, AllProper, SignedProper, Grew, AfterPrevote, AfterPrecommit, AddVote, Conflicts;
    RecordKept(c, s, vote);
    var s1 := Record(c, s, vote).0;
    PrevotedParts(c, o, parts, s1, vote.round);
    PrecommittedParts(c, o, parts, s1, vote.round);
  }

  lemma HandleParts(c: Chain, o: Oracle, parts: Headers, s: RoundState, input: Input)
    requires Inv(c, s) && PartsOk(parts, s) && ArrivesProper(c, parts, s, input)
    ensures PartsOk(parts, Handle(c, o, s, input))
  {
    hide Inv, AllProper, SignedProper, Grew, AddBlock, AddLateVote, AfterPrevote, AfterPrecommit, HandleTimeout,
         EnterPropose;
    if s.halted {
      return;
    }
    match input
    case VoteMsg(vote) =>
      LateParts(c, o, parts, s, vote);
      if vote.height == s.height {
        CurrentParts(c, o, parts, s, vote);
      }
    case ProposalMsg(p, authentic) =>
    case BlockMsg(height, block) =>
      assert s.seen + {} == s.seen;
      BlockParts(c, o, parts, s, height, block);
    case Tock(ti) =>
      assert s.seen + {} == s.seen;
      TimeoutParts(c, o, parts, s, ti);
    case TxsAvailable => ProposeParts(c, o, parts, s, s.height, 0);
    case Maj23Msg(round, kind, peer, id) =>
  }

  /** A precommit of height 0 at a node whose first round has not begun. */
  predicate BeforeFirstRound(s: RoundState, vote: Vote) {
    vote.kind.Precommit? && vote.height == 0 && s.height == 1 && s.step == NEW_HEIGHT
  }

  lemma Unclashed(parts: Headers, s: RoundState, id: BlockID)
    requires PartsOk(parts, s) && Proper(parts, id)
    ensures !PartsClash(s, id)
  {
  }

  /** With one header a block, no commit clashes. */
  lemma NoClash(c: Chain, o: Oracle, parts: Headers, s: RoundState, vote: Vote)
    requires Inv(c, s) && PartsOk(parts, s) && !s.halted && AllProper(c, parts, s.seen + {vote}, s.height)
    ensures !CommitClashes(c, o, s, vote)
  {
    hide Inv, AllProper, SignedProper, Grew, Committing, AddVote, PartsClash, Proper, Framed;
    if vote.height == s.height {
      RecordKept(c, s, vote);
      var s1 := Record(c, s, vote).0;
      CommittingParts(c, o, parts, s1, vote.round);
      MajorityProper(c, parts, s1, vote.round, Precommit);
      if Majority(s1, vote.round, Precommit).Some? {
        Unclashed(parts, Committing(c, o, s1, vote.round), Majority(s1, vote.round, Precommit).value);
      }
    }
  }

  lemma OnlyFirstHeight(c: Chain, o: Oracle, parts: Headers, s: RoundState, input: Input)
    requires Inv(c, s) && PartsOk(parts, s) && ArrivesProper(c, parts, s, input) && !s.halted
    ensures Halts(c, o, s, input) <==>
            || Refused(c, o, s, input)
            || (input.VoteMsg? && (BeforeFirstRound(s, input.vote) || KeylessHalts(c, o, s, input.vote)))
  {
    assert LastCommitOk(s.lastCommit, s.height);
    hide Inv, AllProper, SignedProper, Grew, KeylessHalts, CommitClashes, Refused;
    match input
    case VoteMsg(vote) => NoClash(c, o, parts, s, vote);
    case BlockMsg(height, block) =>
      assert s.seen + {} == s.seen;
      MajorityProper(c, parts, s, s.commitRound, Precommit);
    case _ =>
  }

  // ----- over all runs

  /** Every block delivered in the run fits the part set it completes. */
  ghost predicate OneHeader(parts: Headers, run: seq<Net>, events: seq<Event>)
    requires |run| == |events| + 1
  {
    forall i :: 0 <= i < |events| && events[i].Deliver? && events[i].node in run[i].nodes ==>
      Fits(parts, run[i].nodes[events[i].node], events[i].input)
  }

  ghost predicate NetParts(parts: Headers, g: Net) {
    forall n :: n in g.nodes ==> PartsOk(parts, g.nodes[n])
  }

  lemma CastProper(c: Chain, parts: Headers, honest: set<nat>, g: Net, votes: set<Vote>, h: nat)
    requires MostlyHonest(c, honest) && NetInv(c, honest, g) && NetParts(parts, g) && votes <= g.cast
    ensures AllProper(c, parts, votes, h)
  {
    forall kind, r: nat, id: BlockID | Backed(c, votes, kind, h, r, id) ensures Proper(parts, id) {
      var m := QuorumHasHonest(c.powers(h), Voters(c, votes, kind, h, r, id), Faulty(c, honest, h));
      assert NodeOk(c, g, m) && PartsOk(parts, g.nodes[m]);
      assert Vote(kind, h, r, id, m) in g.nodes[m].signed;
    }
  }

  lemma DeliveredProper(c: Chain, parts: Headers, honest: set<nat>, g: Net, e: Event)
    requires MostlyHonest(c, honest) && NetInv(c, honest, g) && NetParts(parts, g) && Enabled(g, e) && e.Deliver?
    requires Fits(parts, g.nodes[e.node], e.input)
    ensures Inv(c, g.nodes[e.node]) && ArrivesProper(c, parts, g.nodes[e.node], e.input)
  {
    hide Inv, AllProper, ChoicesOk;
    assert NodeOk(c, g, e.node);
    var s := g.nodes[e.node];
    CastProper(c, parts, honest, g, s.seen + (if e.input.VoteMsg? then {e.input.vote} else {}), s.height);
  }

  lemma {:induction false} RunParts(c: Chain, parts: Headers, honest: set<nat>, run: seq<Net>, events: seq<Event>,
                                    i: nat)
    requires MostlyHonest(c, honest) && IsRun(c, honest, run, events) && i < |run| && OneHeader(parts, run, events)
    ensures NetParts(parts, run[i])
  {
    hide NetInv, Handle, MostlyHonest;
    if i > 0 {
      RunParts(c, parts, honest, run, events, i - 1);
      RunOk(c, honest, run, events, i - 1);
      var g, e := run[i - 1], events[i - 1];
      assert Enabled(g, e) && run[i] == Next(c, g, e);
      hide PartsOk;
      if e.Deliver? {
        DeliveredProper(c, parts, honest, g, e);
        HandleParts(c, e.oracle, parts, g.nodes[e.node], e.input);
      }
    }
  }

  /** Then a node halts exactly on a precommit of height 0 before its first round; without a
      key, on a conflict or a lock released past round 0; and where its pool refuses. */
  lemma HaltedOnlyFirst(c: Chain, parts: Headers, honest: set<nat>, run: seq<Net>, events: seq<Event>, i: nat)
    requires MostlyHonest(c, honest) && IsRun(c, honest, run, events) && OneHeader(parts, run, events)
    requires i < |events| && events[i].Deliver?
    ensures var n, input := events[i].node, events[i].input;
            && n in run[i].nodes && n in run[i + 1].nodes
            && (!run[i].nodes[n].halted ==>
                  (run[i + 1].nodes[n].halted <==>
                   || Refused(c, events[i].oracle, run[i].nodes[n], input)
                   || (input.VoteMsg? && (BeforeFirstRound(run[i].nodes[n], input.vote) ||
                                          KeylessHalts(c, events[i].oracle, run[i].nodes[n], input.vote)))))
  {
    hide NetInv, Handle, Halts, PartsOk, MostlyHonest, Next, KeylessHalts, BeforeFirstRound, Refused;
    var g, e := run[i], events[i];
    HaltedIff(c, honest, run, events, i);
    RunOk(c, honest, run, events, i);
    RunParts(c, parts, honest, run, events, i);
    assert Enabled(g, e);
    DeliveredProper(c, parts, honest, g, e);
    if !g.nodes[e.node].halted {
      OnlyFirstHeight(c, e.oracle, parts, g.nodes[e.node], e.input);
    }
  }
}
