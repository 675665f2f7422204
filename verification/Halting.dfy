/** Which inputs make consensus/state.go panic, over all runs of a network. */
module Halting {
  import opened Common
  import opened Quorums
  import opened VoteSets
  import opened Consensus
  import opened ConsensusInvariants
  import opened Agreement

  /** +2/3 of a kind of vote are behind valid blocks only. */
  ghost predicate Trusted(c: Chain, votes: set<Vote>, h: nat) {
    forall kind, r: nat, id: BlockID :: id.ID? && Backed(c, votes, kind, h, r, id) ==> c.valid(h, id.hash)
  }

  /** A part set that the committed block can be saved with. */
  predicate CanSave(s: RoundState, parts: Option<PartSet>, id: BlockID)
    requires id.ID?
  {
    HasHeader(parts, id.parts) && (Saved(s, s.height) || IsComplete(s, parts))
  }

  // ----- a block with +2/3 behind it that the node's own pool refuses

  /** The prevotes of a round are for the proposed block, which is not the locked one. */
  predicate PoolRefuses(o: Oracle, s: RoundState, round: nat) {
    match Majority(s, round, Prevote)
    case Some(ID(hash, _)) =>
      s.lockedBlock != Some(hash) && s.proposalBlock == Some(hash) && !o.passes(s.height, hash)
    case _ => false
  }

  predicate PrecommitRefused(o: Oracle, s: RoundState, height: nat, round: nat) {
    && s.height == height && (s.round < round || (s.round == round && s.step < PRECOMMIT))
    && PoolRefuses(o, s, round)
  }

  /** The prevotes of the round make the node lock a block that its pool refuses. */
  predicate PolkaRefused(o: Oracle, s: RoundState, round: nat) {
    s.round == round && PREVOTE <= s.step < PRECOMMIT && IsProposalComplete(s) && PoolRefuses(o, s, round)
  }

  predicate CommitRefused(o: Oracle, s: RoundState, id: BlockID) {
    && s.step < COMMIT && id.ID? && (HashesTo(s.lockedBlock, id) || HashesTo(s.proposalBlock, id))
    && !o.passes(s.height, id.hash)
  }

  predicate MajorityRefused(c: Chain, o: Oracle, s: RoundState, round: nat) {
    match Majority(s, round, Precommit)
    case None => false
    case Some(id) =>
      PrecommitRefused(o, EnterNewRound(c, o, s, s.height, round), s.height, round)
      || CommitRefused(o, Committing(c, o, s, round), id)
  }

  /** The vote completes a majority that makes the node lock or commit. */
  predicate VoteRefused(c: Chain, o: Oracle, s: RoundState, vote: Vote) {
    && vote.height == s.height && Record(c, s, vote).1
    && var s' := Record(c, s, vote).0;
       if vote.kind.Precommit? then MajorityRefused(c, o, s', vote.round)
       else PolkaRefused(o, s', vote.round)
  }

  /** The block arrives and the majority is there already. */
  predicate BlockRefused(o: Oracle, s: RoundState, height: nat, block: Option<nat>) {
    && s.height == height && s.proposalParts.Some? && !IsComplete(s, s.proposalParts) && block.Some?
    && var s' := s.(proposalBlock := block);
       if s.step <= PROPOSE then IsProposalComplete(s') && PoolRefuses(o, s', s.round)
       else
         && s.step == COMMIT && !o.passes(height, block.value)
         && match Majority(s, s.commitRound, Precommit) case None => false case Some(id) => HashesTo(block, id)
  }

  predicate TimeoutRefused(o: Oracle, s: RoundState, ti: Timeout) {
    && !(ti.round < s.round || (ti.round == s.round && ti.step < s.step))
    && (ti.step == PREVOTE_WAIT || ti.step == PRECOMMIT_WAIT) && PrecommitRefused(o, s, ti.height, ti.round)
  }

  predicate Refused(c: Chain, o: Oracle, s: RoundState, input: Input) {
    match input
    case VoteMsg(vote) => VoteRefused(c, o, s, vote)
    case BlockMsg(height, block) => BlockRefused(o, s, height, block)
    case Tock(ti) => TimeoutRefused(o, s, ti)
    case _ => false
  }

  // ----- and the other inputs that halt

  /** The block committed is at hand, but not all the parts of the header it is committed under. */
  predicate PartsClash(s: RoundState, id: BlockID) {
    && s.step < COMMIT && id.ID?
    && if HashesTo(s.lockedBlock, id) then !CanSave(s, s.lockedParts, id)
       else HashesTo(s.proposalBlock, id) && !CanSave(s, s.proposalParts, id)
  }

  /** The state in which +2/3 precommits of a round enter the commit. */
  function Committing(c: Chain, o: Oracle, s: RoundState, round: nat): RoundState {
    EnterPrecommit(c, o, EnterNewRound(c, o, s, s.height, round), s.height, round)
  }

  /** A precommit for a height of which there is no LastCommit. */
  predicate FirstPrecommit(s: RoundState, vote: Vote) {
    vote.kind.Precommit? && vote.height + 1 == s.height && s.step == NEW_HEIGHT && s.lastCommit.NoCommit?
  }

  /** A conflicting vote, or one that releases a lock past round 0, at a node without a key. */
  predicate KeylessHalts(c: Chain, o: Oracle, s: RoundState, vote: Vote) {
    && !o.keyed
    && if vote.kind.Precommit? && vote.height + 1 == s.height
       then s.step == NEW_HEIGHT && s.lastCommit.LastCommit? && vote.round == s.lastCommit.round
            && Conflicts(c.powers(vote.height), s.lastCommit.votes, vote.val, vote.id)
       else vote.height == s.height
            && (Conflicts(c.powers(s.height), VotesAt(s, vote.round, vote.kind), vote.val, vote.id)
                || (vote.kind.Prevote? && Record(c, s, vote).1 && PolkaReleases(Record(c, s, vote).0, vote.round)))
  }

  predicate PolkaReleases(s: RoundState, round: nat) {
    round > 0 && match Majority(s, round, Prevote) case None => false case Some(id) => Releases(s, round, id)
  }

  /** A precommit that completes a majority for a block that cannot be saved. */
  predicate CommitClashes(c: Chain, o: Oracle, s: RoundState, vote: Vote) {
    && vote.kind.Precommit? && vote.height == s.height && Record(c, s, vote).1
    && MajorityClashes(c, o, Record(c, s, vote).0, vote.round)
  }

  predicate MajorityClashes(c: Chain, o: Oracle, s: RoundState, round: nat) {
    match Majority(s, round, Precommit)
    case None => false
    case Some(id) => PartsClash(Committing(c, o, s, round), id)
  }

  predicate BlockHalts(s: RoundState, height: nat, block: Option<nat>) {
    && s.height == height && s.step == COMMIT && s.proposalParts.Some? && !IsComplete(s, s.proposalParts)
    && match Majority(s, s.commitRound, Precommit)
       case None => false
       case Some(id) => HashesTo(block, id) && s.proposalParts.value.header != id.parts
  }

  /** A precommit of height 0 before the first round; a committed block whose hash is at hand
      without all the parts of its header; for a node without a key, a conflicting vote or a
      lock released past round 0; and a block with +2/3 behind it, with evidence that the
      node's pool refuses. Nothing else. */
  predicate Halts(c: Chain, o: Oracle, s: RoundState, input: Input) {
    || Refused(c, o, s, input)
    || match input
       case VoteMsg(vote) => FirstPrecommit(s, vote) || KeylessHalts(c, o, s, vote) || CommitClashes(c, o, s, vote)
       case BlockMsg(height, block) => BlockHalts(s, height, block)
       case _ => false
  }

  // ----- the transitions that never panic

  ghost predicate Running(c: Chain, s: RoundState, s': RoundState) {
    && !s'.halted && s'.votes == s.votes && s'.height == s.height && s'.seen == s.seen && s'.lastCommit == s.lastCommit
  }

  lemma EntersPrevote(c: Chain, o: Oracle, s: RoundState, height: nat, round: nat)
    requires !s.halted
    ensures Running(c, s, EnterPrevote(c, o, s, height, round))
  {
    hide PrevoteID, IsValidator;
  }

  lemma EntersPropose(c: Chain, o: Oracle, s: RoundState, height: nat, round: nat)
    requires !s.halted
    ensures Running(c, s, EnterPropose(c, o, s, height, round))
  {
    hide EnterPrevote, IsProposalComplete;
    var s1 := Schedule(s, height, round, PROPOSE).(round := round, step := PROPOSE);
    EntersPrevote(c, o, s1, height, round);
  }

  lemma EntersRound(c: Chain, o: Oracle, s: RoundState, height: nat, round: nat)
    requires !s.halted
    ensures Running(c, s, EnterNewRound(c, o, s, height, round))
  {
    hide EnterPropose;
    var s1 := s.(round := round, step := NEW_ROUND, openRound := round + 1, triggered := false);
    var s2 := if round == 0 then s1 else s1.(proposal := None, proposalBlock := None, proposalParts := None);
    EntersPropose(c, o, s2, height, round);
  }

  /** A majority the node sees is behind a valid block. */
  lemma MajorityValid(c: Chain, s: RoundState, round: int, kind: Kind)
    requires Inv(c, s) && Trusted(c, s.seen, s.height)
    ensures match Majority(s, round, kind)
            case Some(ID(hash, _)) => c.valid(s.height, hash)
            case _ => true
  {
    hide Inv, Backed;
    if Majority(s, round, kind).Some? {
      MajorityIsBacked(c, s, round, kind);
    }
  }

  /** The last polka is not before one that is in an open round. */
  lemma {:induction false} PolIsLate(s: RoundState, round: nat, r: nat)
    requires Majority(s, round, Prevote).Some? && round <= r
    ensures PolRound(s, r) >= round
  {
    if Majority(s, r, Prevote).None? {
      PolIsLate(s, round, r - 1);
    }
  }

  /** POLInfo is the last round up to r with +2/3 prevotes for one thing, or -1. */
  lemma {:induction false} PolRoundIs(s: RoundState, r: nat)
    ensures var p := PolRound(s, r);
            && -1 <= p <= r && (p >= 0 ==> Majority(s, p, Prevote).Some?)
            && forall k :: p < k <= r ==> Majority(s, k, Prevote).None?
  {
    if Majority(s, r, Prevote).None? && r > 0 {
      PolRoundIs(s, r - 1);
    }
  }

  lemma LocksOn(c: Chain, o: Oracle, s: RoundState, round: nat, id: BlockID)
    requires !s.halted && (id.ID? ==> c.valid(s.height, id.hash)) && Majority(s, round, Prevote) == Some(id)
    ensures var s' := LockOn(c, o, s, round, id); if PoolRefuses(o, s, round) then s' == Halt(s) else Running(c, s, s')
  {
    hide IsValidator;
  }

  lemma EntersPrecommit(c: Chain, o: Oracle, s: RoundState, height: nat, round: nat)
    requires Inv(c, s) && Trusted(c, s.seen, s.height) && !s.halted && round <= s.round
    ensures var s' := EnterPrecommit(c, o, s, height, round);
            if PrecommitRefused(o, s, height, round) then s' == Halt(s) else Running(c, s, s')
  {
    assert s.round <= s.openRound;
    hide Inv, Trusted, Majority, IsValidator, LockOn, PolRound;
    MajorityValid(c, s, round, Prevote);
    match Majority(s, round, Prevote)
    case None =>
    case Some(id) =>
      PolIsLate(s, round, s.openRound);
      LocksOn(c, o, s, round, id);
  }

  lemma TimesOut(c: Chain, o: Oracle, s: RoundState, ti: Timeout)
    requires Inv(c, s) && Trusted(c, s.seen, s.height) && !s.halted && ti in s.scheduled
    ensures HandleTimeout(c, o, s, ti).halted <==> TimeoutRefused(o, s, ti)
  {
    hide Inv, Trusted, EnterNewRound, EnterPropose, EnterPrevote, EnterPrecommit, PoolRefuses;
    ScheduledBehind(c, s, ti);
    EntersPrevote(c, o, s, ti.height, ti.round);
    EntersPropose(c, o, s, ti.height, 0);
    EntersRound(c, o, s, ti.height, 0);
    if ti.height == s.height {
      EntersPrecommit(c, o, s, ti.height, ti.round);
      RoundAfter(c, o, EnterPrecommit(c, o, s, ti.height, ti.round), ti.height, ti.round + 1);
    }
  }

  lemma RoundAfter(c: Chain, o: Oracle, s: RoundState, height: nat, round: nat)
    ensures EnterNewRound(c, o, s, height, round).halted == s.halted
  {
    if !s.halted {
      EntersRound(c, o, s, height, round);
    }
  }

  lemma Reacts(c: Chain, o: Oracle, s: RoundState, round: nat, maj: Option<BlockID>)
    requires Inv(c, s) && Trusted(c, s.seen, s.height) && !s.halted && maj == Majority(s, round, Prevote)
    ensures ReactToPrevotes(c, o, s, round, maj).halted <==> PolkaRefused(o, s, round)
  {
    hide Inv, Trusted, EnterNewRound, EnterPrevote, EnterPrecommit;
    EntersRound(c, o, s, s.height, round);
    EntersPrevote(c, o, s, s.height, s.round);
    if s.round == round {
      EntersPrecommit(c, o, s, s.height, round);
    }
  }

  lemma Prevoted(c: Chain, o: Oracle, s: RoundState, round: nat)
    requires Inv(c, s) && Trusted(c, s.seen, s.height) && !s.halted
    ensures AfterPrevote(c, o, s, round).halted <==> (!o.keyed && PolkaReleases(s, round)) || PolkaRefused(o, s, round)
  {
    hide Inv, Grew, Trusted, ReactToPrevotes;
    match Majority(s, round, Prevote)
    case None => Reacts(c, o, s, round, None);
    case Some(id) =>
      var s1 := MaybeUnlock(s, round, id);
      MaybeUnlockKept(c, s, round);
      SetValidKept(c, s, s1, round, id);
      SameRefused(o, s, round, id);
      Reacts(c, o, MaybeSetValid(s1, round, id), round, Some(id));
  }

  lemma SameRefused(o: Oracle, s: RoundState, round: nat, id: BlockID)
    requires Majority(s, round, Prevote) == Some(id)
    ensures var s' := MaybeSetValid(MaybeUnlock(s, round, id), round, id);
            && (PolkaRefused(o, s', round) <==> PolkaRefused(o, s, round)) && Majority(s', round, Prevote) == Some(id)
            && s'.halted == s.halted && s'.height == s.height && s'.seen == s.seen
  {
    hide MaybeSetValid, MaybeUnlock;
    SameUnlocked(o, s, round, id);
    SameValid(o, MaybeUnlock(s, round, id), round, id);
  }

  lemma SameUnlocked(o: Oracle, s: RoundState, round: nat, id: BlockID)
    requires Majority(s, round, Prevote) == Some(id)
    ensures var s' := MaybeUnlock(s, round, id);
            && (PolkaRefused(o, s', round) <==> PolkaRefused(o, s, round)) && Majority(s', round, Prevote) == Some(id)
            && s'.halted == s.halted && s'.height == s.height && s'.seen == s.seen
  {
  }

  lemma SameValid(o: Oracle, s: RoundState, round: nat, id: BlockID)
    requires Majority(s, round, Prevote) == Some(id)
    ensures var s' := MaybeSetValid(s, round, id);
            && (PolkaRefused(o, s', round) <==> PolkaRefused(o, s, round)) && Majority(s', round, Prevote) == Some(id)
            && s'.halted == s.halted && s'.height == s.height && s'.seen == s.seen
  {
  }

  // ----- those that may

  /** A majority counts for any two thirds. */
  lemma MajorityIsAny(c: Chain, s: RoundState, round: nat, kind: Kind)
    requires Inv(c, s) && Majority(s, round, kind).Some?
    ensures AnyTwoThirds(c, s, round, kind)
  {
    var vs := s.votes[(round, kind)];
    var powers := c.powers(s.height);
    var offers := Offers(s.seen, kind, s.height, round);
    assert Valid(powers, vs, offers);
    MajorityIsQuorum(powers, vs, offers);
    PowerMonotone(powers, VotedFor(vs, vs.maj23.value), vs.votes.Keys);
  }

  predicate CannotFinalize(o: Oracle, s: RoundState, id: BlockID) {
    HashesTo(s.proposalBlock, id) && !(CanSave(s, s.proposalParts, id) && o.passes(s.height, id.hash))
  }

  lemma Finalizes(c: Chain, o: Oracle, s: RoundState, height: nat)
    requires Inv(c, s) && Trusted(c, s.seen, s.height) && !s.halted && s.height == height && s.step == COMMIT
    ensures TryFinalizeCommit(c, o, s, height).halted <==>
            match Majority(s, s.commitRound, Precommit)
            case None => false
            case Some(id) => CannotFinalize(o, s, id)
  {
    hide Inv, Trusted;
    MajorityValid(c, s, s.commitRound, Precommit);
  }

  lemma CommitsSame(s: RoundState, id: BlockID, round: nat)
    requires id.ID?
    ensures var s' := IntoCommit(s, id, round);
            && s'.height == s.height && s'.halted == s.halted && s'.seen == s.seen && s'.step == COMMIT
            && Majority(s', round, Precommit) == Majority(s, round, Precommit) && s'.commitRound == round
            && forall parts :: CanSave(s', parts, id) == CanSave(s, parts, id)
  {
  }

  lemma Commits(c: Chain, o: Oracle, s: RoundState, round: nat, id: BlockID)
    requires Inv(c, s) && Trusted(c, s.seen, s.height) && !s.halted && Majority(s, round, Precommit) == Some(id) &&
             id.ID?
    ensures EnterCommit(c, o, s, s.height, round).halted <==> PartsClash(s, id) || CommitRefused(o, s, id)
  {
    hide Trusted, TryFinalizeCommit, Inv, Grew, CanSave;
    if s.step < COMMIT {
      IntoCommitKept(c, s, id, round);
      CommitsSame(s, id, round);
      Finalizes(c, o, IntoCommit(s, id, round), s.height);
    }
  }

  lemma Precommitted(c: Chain, o: Oracle, s: RoundState, round: nat)
    requires Inv(c, s) && Trusted(c, s.seen, s.height) && !s.halted
    ensures AfterPrecommit(c, o, s, round).halted <==>
            MajorityClashes(c, o, s, round) || MajorityRefused(c, o, s, round)
  {
    hide Inv, Trusted, Grew, EnterNewRound, EnterPrecommit, EnterCommit, PoolRefuses;
    var maj := Majority(s, round, Precommit);
    var s1 := EnterNewRound(c, o, s, s.height, round);
    EntersRound(c, o, s, s.height, round);
    EnterNewRoundKept(c, o, s, s.height, round);
    var s2 := EnterPrecommit(c, o, s1, s.height, round);
    EntersPrecommit(c, o, s1, s.height, round);
    EnterPrecommitKept(c, o, s1, s.height, round);
    if maj.Some? {
      MajorityIsAny(c, s, round, Precommit);
      if maj.value.ID? {
        if s2.halted {
          HaltedStays(c, o, s2, s.height, round);
        } else {
          Commits(c, o, s2, round, maj.value);
        }
        NoFurther(c, o, EnterCommit(c, o, s2, s.height, round));
      }
    }
  }

  lemma HaltedStays(c: Chain, o: Oracle, s: RoundState, height: nat, round: nat)
    requires s.halted
    ensures EnterCommit(c, o, s, height, round) == s
  {
  }

  lemma NoFurther(c: Chain, o: Oracle, s: RoundState)
    ensures EnterNewRound(c, o, s, s.height, 0).halted == s.halted
  {
    if !s.halted {
      EntersRound(c, o, s, s.height, 0);
    }
  }

  lemma ValidLeaves(o: Oracle, s: RoundState)
    ensures var s' := ValidOnPolka(s);
            && s'.height == s.height && s'.round == s.round && s'.step == s.step && s'.halted == s.halted
            && s'.votes == s.votes && s'.commitRound == s.commitRound && s'.seen == s.seen
            && PoolRefuses(o, s', s.round) == PoolRefuses(o, s, s.round)
            && IsProposalComplete(s') == IsProposalComplete(s)
            && forall id :: CannotFinalize(o, s', id) == CannotFinalize(o, s, id)
  {
  }

  lemma PrevoteLeaves(c: Chain, o: Oracle, s: RoundState)
    requires !s.halted && s.step <= PROPOSE
    ensures var s' := EnterPrevote(c, o, s, s.height, s.round);
            && s'.step == PREVOTE && s'.round == s.round && s'.height == s.height
            && PoolRefuses(o, s', s.round) == PoolRefuses(o, s, s.round)
            && (PoolRefuses(o, s, s.round) ==> Majority(s, s.round, Prevote).Some?)
  {
    hide PrevoteID, IsValidator;
  }

  lemma BlockReceived(c: Chain, o: Oracle, s: RoundState, height: nat)
    requires Inv(c, s) && Trusted(c, s.seen, s.height) && !s.halted && s.height == height
    ensures ReceiveBlock(c, o, s, height).halted <==>
            if s.step <= PROPOSE then IsProposalComplete(s) && PoolRefuses(o, s, s.round)
            else s.step == COMMIT && match Majority(s, s.commitRound, Precommit)
                                     case None => false
                                     case Some(id) => CannotFinalize(o, s, id)
  {
    hide Trusted, Grew, EnterPrevote, EnterPrecommit, TryFinalizeCommit, Inv, PoolRefuses, CanSave;
    var s1 := ValidOnPolka(s);
    ValidOnPolkaKept(c, s);
    ValidLeaves(o, s);
    EntersPrevote(c, o, s1, height, s1.round);
    EnterPrevoteKept(c, o, s1, height, s1.round);
    var s2 := EnterPrevote(c, o, s1, height, s1.round);
    EntersPrecommit(c, o, s2, height, s2.round);
    if s1.step <= PROPOSE {
      PrevoteLeaves(c, o, s1);
    }
    if s1.step == COMMIT {
      Finalizes(c, o, s1, height);
    }
  }

  lemma BlockKept(c: Chain, s: RoundState, block: Option<nat>)
    requires Inv(c, s) && s.proposalParts.Some?
    ensures Inv(c, s.(complete := s.complete + {s.proposalParts.value.id}, proposalBlock := block))
  {
  }

  lemma BlockLeaves(o: Oracle, s: RoundState, block: Option<nat>)
    requires s.proposalParts.Some?
    ensures var s' := s.(complete := s.complete + {s.proposalParts.value.id}, proposalBlock := block);
            var s1 := s.(proposalBlock := block);
            && PoolRefuses(o, s', s.round) == PoolRefuses(o, s1, s.round)
            && IsProposalComplete(s') == IsProposalComplete(s1)
  {
  }

  lemma BlockArrives(c: Chain, o: Oracle, s: RoundState, height: nat, block: Option<nat>)
    requires Inv(c, s) && Trusted(c, s.seen, s.height) && !s.halted
    ensures AddBlock(c, o, s, height, block).halted <==>
            BlockHalts(s, height, block) || BlockRefused(o, s, height, block)
  {
    hide Trusted, ReceiveBlock, Inv, PoolRefuses;
    if s.height == height && s.proposalParts.Some? && block.Some? {
      var s1 := s.(complete := s.complete + {s.proposalParts.value.id}, proposalBlock := block);
      BlockKept(c, s, block);
      BlockLeaves(o, s, block);
      BlockReceived(c, o, s1, height);
    }
  }

  lemma LateVote(c: Chain, o: Oracle, s: RoundState, vote: Vote)
    requires !s.halted && vote.kind.Precommit? && vote.height + 1 == s.height
    ensures AddLateVote(c, o, s, vote).halted <==> FirstPrecommit(s, vote) || KeylessHalts(c, o, s, vote)
  {
    hide EnterNewRound, AddVote, Conflicts, HasAll;
    if s.lastCommit.LastCommit? {
      var vs := AddVote(c.powers(vote.height), s.lastCommit.votes, vote.val, vote.id).0;
      NoFurther(c, o, s.(lastCommit := s.lastCommit.(votes := vs)));
    }
  }

  lemma CurrentVote(c: Chain, o: Oracle, s: RoundState, vote: Vote)
    requires Inv(c, s) && !s.halted && vote.height == s.height && Trusted(c, s.seen + {vote}, s.height)
    ensures AddVoteMsg(c, o, s, vote).halted <==>
            KeylessHalts(c, o, s, vote) || CommitClashes(c, o, s, vote) || VoteRefused(c, o, s, vote)
  {
    hide Inv, Trusted, Grew, AfterPrevote, AfterPrecommit, AddVote, Conflicts, MajorityClashes, PolkaReleases,
         MajorityRefused, PoolRefuses, IsProposalComplete;
    RecordKept(c, s, vote);
    var s1 := Record(c, s, vote).0;
    Prevoted(c, o, s1, vote.round);
    Precommitted(c, o, s1, vote.round);
  }

  /** One input, at one node. */
  lemma HaltsIff(c: Chain, o: Oracle, s: RoundState, input: Input)
    requires Inv(c, s) && !s.halted && MayArrive(s, input)
    requires Trusted(c, s.seen + (if input.VoteMsg? then {input.vote} else {}), s.height)
    ensures Handle(c, o, s, input).halted <==> Halts(c, o, s, input)
  {
    hide Inv, Trusted, Grew, AddBlock, AddLateVote, AfterPrevote, AfterPrecommit, HandleTimeout, EnterPropose, AddVote,
         Conflicts, MajorityClashes, PolkaReleases, MajorityRefused, PoolRefuses;
    match input
    case VoteMsg(vote) =>
      if vote.height + 1 == s.height && vote.kind.Precommit? {
        LateVote(c, o, s, vote);
      } else if vote.height == s.height {
        CurrentVote(c, o, s, vote);
      }
    case ProposalMsg(p, authentic) =>
    case BlockMsg(height, block) =>
      assert s.seen + {} == s.seen;
      BlockArrives(c, o, s, height, block);
    case Tock(ti) =>
      assert s.seen + {} == s.seen;
      TimesOut(c, o, s, ti);
    case TxsAvailable => EntersPropose(c, o, s, s.height, 0);
    case Maj23Msg(round, kind, peer, id) =>
  }

  // ----- over all runs

  lemma TrustCast(c: Chain, honest: set<nat>, g: Net, votes: set<Vote>, h: nat)
    requires MostlyHonest(c, honest) && NetInv(c, honest, g) && votes <= g.cast
    ensures Trusted(c, votes, h)
  {
    forall kind, r: nat, id: BlockID | id.ID? && Backed(c, votes, kind, h, r, id) ensures c.valid(h, id.hash) {
      BackedMonotone(c, votes, g.cast, kind, h, r, id);
      if kind.Precommit? {
        CommittedHadPolka(c, honest, g, h, r, id);
      }
      PolkaVotedValid(c, honest, g, h, r, id);
    }
  }

  lemma PolkaVotedValid(c: Chain, honest: set<nat>, g: Net, h: nat, r: nat, id: BlockID)
    requires MostlyHonest(c, honest) && NetInv(c, honest, g) && id.ID? && Backed(c, g.cast, Prevote, h, r, id)
    ensures c.valid(h, id.hash)
  {
    var m := QuorumHasHonest(c.powers(h), Voters(c, g.cast, Prevote, h, r, id), Faulty(c, honest, h));
    assert NodeOk(c, g, m);
    assert Vote(Prevote, h, r, id, m) in g.nodes[m].signed;
  }

  /** In no state of any run do +2/3 votes, of either kind, name an invalid block: not for the
      network, and not in a node's own vote sets. So the panics over one are out of reach, but
      for its evidence. */
  lemma PolkaIsValid(c: Chain, honest: set<nat>, run: seq<Net>, events: seq<Event>, i: nat, n: nat, r: nat, kind: Kind)
    requires MostlyHonest(c, honest) && IsRun(c, honest, run, events) && i < |run| && n in honest
    ensures forall h: nat :: Trusted(c, run[i].cast, h)
    ensures n in run[i].nodes
    ensures var s := run[i].nodes[n];
            match Majority(s, r, kind)
            case Some(ID(hash, _)) => c.valid(s.height, hash)
            case _ => true
  {
    RunOk(c, honest, run, events, i);
    var g := run[i];
    forall h: nat ensures Trusted(c, g.cast, h) {
      TrustCast(c, honest, g, g.cast, h);
    }
    var s := g.nodes[n];
    assert NodeOk(c, g, n);
    TrustCast(c, honest, g, s.seen, s.height);
    hide Trusted, Inv;
    MajorityValid(c, s, r, kind);
  }

  /** In every run, the event that halts a node is exactly one of those. */
  lemma HaltedIff(c: Chain, honest: set<nat>, run: seq<Net>, events: seq<Event>, i: nat)
    requires MostlyHonest(c, honest) && IsRun(c, honest, run, events) && i < |events| && events[i].Deliver?
    ensures var n := events[i].node;
            && n in run[i].nodes && n in run[i + 1].nodes
            && (!run[i].nodes[n].halted ==>
                  (run[i + 1].nodes[n].halted <==> Halts(c, events[i].oracle, run[i].nodes[n], events[i].input)))
            && (run[i].nodes[n].halted ==> run[i + 1].nodes[n] == run[i].nodes[n])
  {
    RunOk(c, honest, run, events, i);
    var g, e := run[i], events[i];
    assert Enabled(g, e) && run[i + 1] == Next(c, g, e);
    assert NodeOk(c, g, e.node);
    var s := g.nodes[e.node];
    hide Inv, Trusted, Halts, NetInv, ChoicesOk, IsRun, MostlyHonest;
    var votes := s.seen + if e.input.VoteMsg? then {e.input.vote} else {};
    TrustCast(c, honest, g, votes, s.height);
    if !s.halted {
      HaltsIff(c, e.oracle, s, e.input);
    }
  }

  /** A precommit of height 0, which anybody can make up, stops a node that has not begun. */
  lemma FirstHeightHalts(c: Chain, honest: set<nat>, n: nat, forged: Vote, o: Oracle)
    returns (run: seq<Net>, events: seq<Event>)
    requires n in honest && forged.val !in honest && forged.height == 0 && forged.kind.Precommit?
    ensures IsRun(c, honest, run, events) && events == [Forge(forged), Deliver(n, VoteMsg(forged), o)]
    ensures n in run[2].nodes && run[2].nodes[n] == Halt(Start(n))
  {
    var first := Init(honest);
    events := [Forge(forged), Deliver(n, VoteMsg(forged), o)];
    assert Enabled(first, events[0]);
    var second := Next(c, first, events[0]);
    assert Enabled(second, events[1]);
    run := [first, second, Next(c, second, events[1])];
  }
}
