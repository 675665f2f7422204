/** Where +2/3 votes take a node: into a later round, to its precommit, or to the commit. */
module Majorities {
  import opened Common
  import opened VoteSets
  import opened Consensus
  import opened ConsensusInvariants
  import opened Progress
  import Halting
  import VoteCounting

  // ----- any two thirds

  /** +2/3 prevotes of any kind in a later round, and the node goes there. */
  lemma PrevotesSkip(c: Chain, o: Oracle, s: RoundState, round: nat)
    requires !s.halted && s.round < round && AnyTwoThirds(c, s, round, Prevote)
    ensures var s' := AfterPrevote(c, o, s, round); s'.halted || (s'.height == s.height && s'.round == round)
  {
    hide EnterNewRound, EnterPrevote, EnterPrecommit, EnterPrevoteWait, MaybeSetValid;
    RoundReached(c, o, s, round);
    SameHeight(c, o, s, round);
    match Majority(s, round, Prevote)
    case None =>
    case Some(id) => Unrelated(s, round, id);
  }

  /** A polka of another round changes neither block nor clock. */
  lemma Unrelated(s: RoundState, round: nat, id: BlockID)
    requires round != s.round
    ensures MaybeSetValid(s, round, id) == s
    ensures s.round < round ==> MaybeUnlock(s, round, id) == s
  {
  }

  lemma SameHeight(c: Chain, o: Oracle, s: RoundState, round: nat)
    ensures EnterNewRound(c, o, s, s.height, round).height == s.height
  {
    hide PrevoteID, IsValidator, IsProposalComplete;
  }

  /** +2/3 prevotes of the round, not for one thing: the node waits, with a timeout. */
  lemma PrevotesWait(c: Chain, o: Oracle, s: RoundState)
    requires !s.halted && PREVOTE == s.step && AnyTwoThirds(c, s, s.round, Prevote)
    requires Majority(s, s.round, Prevote).None?
    ensures var s' := AfterPrevote(c, o, s, s.round);
            && s' == s.(step := PREVOTE_WAIT, scheduled := s'.scheduled)
            && s'.scheduled == s.scheduled + {Timeout(s.height, s.round, PREVOTE_WAIT)}
  {
    hide AnyTwoThirds;
  }

  /** +2/3 precommits of this or a later round, not for one thing: the node is in that round
      and waits, with a timeout. */
  lemma PrecommitsWait(c: Chain, o: Oracle, s: RoundState, round: nat)
    requires Steady(s) && !s.halted && s.round <= round && AnyTwoThirds(c, s, round, Precommit)
    requires Majority(s, round, Precommit).None?
    ensures var s' := AfterPrecommit(c, o, s, round);
            && s'.height == s.height && s'.round == round && s'.triggered && !s'.halted
            && Timeout(s.height, round, PRECOMMIT_WAIT) in s'.scheduled
  {
    hide EnterNewRound, AnyTwoThirds;
    var s1 := EnterNewRound(c, o, s, s.height, round);
    RoundSteady(c, o, s, s.height, round);
    RoundReached(c, o, s, round);
    SameHeight(c, o, s, round);
    RoundRuns(c, o, s, round);
  }

  lemma RoundRuns(c: Chain, o: Oracle, s: RoundState, round: nat)
    requires !s.halted
    ensures var s' := EnterNewRound(c, o, s, s.height, round);
            !s'.halted && s'.votes == s.votes && s'.height == s.height
    ensures forall kind, r :: AnyTwoThirds(c, EnterNewRound(c, o, s, s.height, round), r, kind) ==
                              AnyTwoThirds(c, s, r, kind)
  {
    Halting.EntersRound(c, o, s, s.height, round);
    hide EnterNewRound;
  }

  /** Without +2/3 of anything, or in a round that is over without a majority, a vote only counts. */
  lemma VotesStay(c: Chain, o: Oracle, s: RoundState, round: nat)
    ensures Majority(s, round, Prevote).None? && (round < s.round || !AnyTwoThirds(c, s, round, Prevote)) ==>
              AfterPrevote(c, o, s, round) == s
    ensures Majority(s, round, Precommit).None? && (round < s.round || !AnyTwoThirds(c, s, round, Precommit)) ==>
              AfterPrecommit(c, o, s, round) == s
  {
    hide EnterNewRound, EnterPrevote, EnterPrecommit, EnterPrevoteWait, EnterPrecommitWait, EnterCommit, AnyTwoThirds;
  }

  /** Prevotes of the round do not take a node past its own prevote. */
  lemma EarlyPrevotes(c: Chain, o: Oracle, s: RoundState)
    requires !s.halted && s.step < PREVOTE && (s.proposal.Some? ==> s.proposal.value.polRound < s.round)
    ensures var s' := AfterPrevote(c, o, s, s.round);
            s'.step == s.step && s'.round == s.round && s'.requests == s.requests && s'.scheduled == s.scheduled
  {
    hide EnterNewRound, EnterPrevote, EnterPrecommit, EnterPrevoteWait, AnyTwoThirds, IsProposalComplete,
         MaybeUnlock, MaybeSetValid;
    match Majority(s, s.round, Prevote)
    case None =>
    case Some(id) =>
      UnlockedState(s, id);
      SameClock(MaybeUnlock(s, s.round, id), id);
  }

  lemma SameClock(s: RoundState, id: BlockID)
    ensures var t := MaybeSetValid(s, s.round, id);
            && t.step == s.step && t.round == s.round && t.requests == s.requests && t.scheduled == s.scheduled
            && t.proposal == s.proposal
  {
    hide HashesTo, HasHeader;
  }

  // ----- a polka

  /** The block a polka of the node's round is for is at hand and proposed in full. */
  predicate Proposed(s: RoundState, id: BlockID) {
    id.ID? && s.proposalBlock == Some(id.hash) && IsProposalComplete(s)
  }

  lemma PolkaState(s: RoundState, id: BlockID)
    requires PREVOTE <= s.step && Majority(s, s.round, Prevote) == Some(id) && s.validRound < s.round
    ensures var t := MaybeSetValid(MaybeUnlock(s, s.round, id), s.round, id);
            && t.height == s.height && t.round == s.round && t.step == s.step && t.halted == s.halted
            && t.self == s.self && t.requests == s.requests && t.signed == s.signed && t.scheduled == s.scheduled
            && t.votes == s.votes && t.openRound == s.openRound
            && (id.ID? ==> t.proposalParts.Some? && t.proposalParts.value.header == id.parts)
            && (id.ID? ==> t.proposalBlock == if s.proposalBlock == Some(id.hash) then s.proposalBlock else None)
            && (id.NilID? ==> t.proposalBlock == s.proposalBlock && t.proposalParts == s.proposalParts)
            && (id.ID? && s.proposalBlock == Some(id.hash) ==> IsProposalComplete(t) == IsProposalComplete(s))
            && (id.ID? && s.proposalBlock != Some(id.hash) ==> !IsProposalComplete(t))
            && (s.lockedBlock.Some? && HashesTo(s.lockedBlock, id) ==> t.lockedBlock == s.lockedBlock)
            && (id.ID? && s.proposalBlock == Some(id.hash) ==>
                  t.validBlock == Some(id.hash) && t.validRound == s.round && t.validParts == s.proposalParts)
  {
    hide SetValid;
    UnlockedState(s, id);
    ValidState(MaybeUnlock(s, s.round, id), id);
  }

  lemma UnlockedState(s: RoundState, id: BlockID)
    ensures var t := MaybeUnlock(s, s.round, id);
            && t == s.(lockedRound := t.lockedRound, lockedBlock := t.lockedBlock, lockedParts := t.lockedParts)
            && (HashesTo(s.lockedBlock, id) ==> t == s)
  {
  }

  lemma ValidState(s: RoundState, id: BlockID)
    requires s.validRound < s.round
    ensures var t := MaybeSetValid(s, s.round, id);
            && t == s.(proposalBlock := t.proposalBlock, proposalParts := t.proposalParts, made := t.made,
                       validRound := t.validRound, validBlock := t.validBlock, validParts := t.validParts)
            && (id.ID? ==> t.proposalParts.Some? && t.proposalParts.value.header == id.parts)
            && (id.ID? ==> t.proposalBlock == if s.proposalBlock == Some(id.hash) then s.proposalBlock else None)
            && (id.NilID? ==> t == s)
            && (id.ID? && s.proposalBlock == Some(id.hash) ==>
                  t.validBlock == Some(id.hash) && t.validRound == s.round && t.validParts == s.proposalParts)
  {
  }

  /** The node as the polka finds it. */
  ghost predicate AtPolka(c: Chain, s: RoundState, id: BlockID) {
    && Inv(c, s) && !s.halted && PREVOTE <= s.step < PRECOMMIT && s.validRound < s.round
    && Majority(s, s.round, Prevote) == Some(id)
  }

  function Noted(s: RoundState, id: BlockID): RoundState {
    MaybeSetValid(MaybeUnlock(s, s.round, id), s.round, id)
  }

  lemma NotedKept(c: Chain, s: RoundState, id: BlockID)
    requires AtPolka(c, s, id)
    ensures Inv(c, Noted(s, id)) && Majority(Noted(s, id), s.round, Prevote) == Some(id)
    ensures AnyTwoThirds(c, Noted(s, id), s.round, Prevote)
  {
    hide Inv, MaybeSetValid, MaybeUnlock, Grew;
    PolkaState(s, id);
    MaybeUnlockKept(c, s, s.round);
    SetValidKept(c, s, MaybeUnlock(s, s.round, id), s.round, id);
    Halting.MajorityIsAny(c, s, s.round, Prevote);
  }

  lemma PolkaIs(c: Chain, o: Oracle, s: RoundState, id: BlockID)
    requires AtPolka(c, s, id) && !AfterPrevote(c, o, s, s.round).halted
    ensures var t := Noted(s, id);
            AfterPrevote(c, o, s, s.round) ==
            if IsProposalComplete(t) || id.NilID? then EnterPrecommit(c, o, t, t.height, t.round)
            else EnterPrevoteWait(c, t, t.height, t.round)
  {
    hide Inv, MaybeSetValid, MaybeUnlock, EnterPrecommit, EnterPrevoteWait, EnterNewRound, EnterPrevote, AnyTwoThirds,
         IsProposalComplete;
    PolkaState(s, id);
    NotedKept(c, s, id);
  }

  /** +2/3 prevotes of the round for nil or for the block proposed: the node precommits that. */
  lemma {:induction false} PolkaPrecommits(c: Chain, o: Oracle, s: RoundState, id: BlockID)
    requires AtPolka(c, s, id) && !AfterPrevote(c, o, s, s.round).halted && (id.NilID? || Proposed(s, id))
    ensures var s' := AfterPrevote(c, o, s, s.round);
            && s'.height == s.height && s'.round == s.round && s'.step == PRECOMMIT
            && Asks(c, o, s, s', Precommit, id)
            && (if id.NilID? then s'.lockedBlock.None? && s'.lockedRound == -1
                else s'.lockedBlock == Some(id.hash) && s'.lockedRound == s.round)
            && (id.ID? ==>
                  s'.validBlock == Some(id.hash) && s'.validRound == s.round && s'.validParts == s.proposalParts)
  {
    hide Inv, MaybeSetValid, MaybeUnlock, EnterPrecommit, EnterPrevoteWait, AfterPrevote, Asks, Noted;
    var t := Noted(s, id);
    NotedIs(s, id);
    NotedKept(c, s, id);
    PolkaIs(c, o, s, id);
    var b := PrecommitStep(c, o, t);
    AskedAlike(c, o, s, t, EnterPrecommit(c, o, t, t.height, t.round), b);
  }

  lemma NotedIs(s: RoundState, id: BlockID)
    requires PREVOTE <= s.step && Majority(s, s.round, Prevote) == Some(id) && s.validRound < s.round
    ensures var t := Noted(s, id);
            && t.height == s.height && t.round == s.round && t.step == s.step && t.halted == s.halted
            && t.self == s.self && t.requests == s.requests && t.signed == s.signed && t.scheduled == s.scheduled
            && (id.ID? ==> t.proposalParts.Some? && t.proposalParts.value.header == id.parts)
            && (Proposed(s, id) ==> t.proposalBlock == Some(id.hash) && IsProposalComplete(t))
            && (id.ID? && !Proposed(s, id) ==> !IsProposalComplete(t))
            && (Proposed(s, id) ==>
                  t.validBlock == Some(id.hash) && t.validRound == s.round && t.validParts == s.proposalParts)
  {
    hide MaybeSetValid, MaybeUnlock, IsProposalComplete;
    PolkaState(s, id);
  }

  /** For any other block it waits, with a timeout, and collects the block's parts. */
  lemma {:induction false} PolkaWaits(c: Chain, o: Oracle, s: RoundState, id: BlockID)
    requires AtPolka(c, s, id) && !AfterPrevote(c, o, s, s.round).halted && id.ID? && !Proposed(s, id)
    requires Steady(s)
    ensures var s' := AfterPrevote(c, o, s, s.round);
            && s'.height == s.height && s'.round == s.round && s'.step == PREVOTE_WAIT
            && Timeout(s.height, s.round, PREVOTE_WAIT) in s'.scheduled && s'.requests == s.requests
            && s'.proposalParts.Some? && s'.proposalParts.value.header == id.parts
  {
    hide Inv, MaybeSetValid, MaybeUnlock, EnterPrecommit, AfterPrevote, Noted, AnyTwoThirds;
    NotedIs(s, id);
    NotedKept(c, s, id);
    PolkaIs(c, o, s, id);
  }

  lemma AskedAlike(c: Chain, o: Oracle, s: RoundState, t: RoundState, s': RoundState, id: BlockID)
    requires Asks(c, o, t, s', Precommit, id) && t.height == s.height && t.round == s.round && t.self == s.self
    requires t.requests == s.requests && t.signed == s.signed
    ensures Asks(c, o, s, s', Precommit, id)
  {
  }

  // ----- the commit

  /** The block with the parts to save it: the locked one, or the one proposed. */
  ghost predicate AtHand(s: RoundState, id: BlockID) {
    id.ID? && (s.lockedBlock == Some(id.hash) || s.proposalBlock == Some(id.hash))
  }

  /** Height done: the block is finalized and the next height begins, with nothing left over and
      the commit to show for it. */
  ghost predicate Done(s: RoundState, s': RoundState, round: nat, id: BlockID) {
    && id.ID? && s'.finalized == s.finalized + {(s.height, id.hash)}
    && s'.height == s.height + 1 && s'.round == 0
    && s'.lastCommit == LastCommit(round, VotesAt(s, round, Precommit))
    && s'.votes == map[] && s'.openRound == 0 && s'.commitRound == -1 && !s'.triggered
    && s'.proposal.None? && s'.proposalBlock.None? && s'.proposalParts.None?
    && s'.lockedBlock.None? && s'.lockedRound == -1 && s'.validBlock.None? && s'.validRound == -1
    && Timeout(s.height + 1, 0, NEW_HEIGHT) in s'.scheduled
  }

  /** +2/3 precommits for a block: with the block at hand, the height is done if the application
      takes it; else the node is in the commit step and collects its parts. */
  lemma {:induction false} CommitMoves(c: Chain, o: Oracle, s: RoundState, round: nat, id: BlockID)
    requires !s.halted && s.step < COMMIT && id.ID? && Majority(s, round, Precommit) == Some(id)
    requires !EnterCommit(c, o, s, s.height, round).halted
    ensures var s' := EnterCommit(c, o, s, s.height, round);
            if AtHand(s, id) then
              && (s.height, id.hash) in s'.finalized
              && (if o.applies(s.height) then Done(s, s', round, id) && s'.step == NEW_HEIGHT
                  else s'.height == s.height)
            else
              && s'.height == s.height && s'.round == s.round && s'.step == COMMIT && s'.commitRound == round
              && s'.proposalParts.Some? && s'.proposalParts.value.header == id.parts && s'.finalized == s.finalized
  {
    hide TryFinalizeCommit;
    var t := IntoCommit(s, id, round);
    assert Majority(t, round, Precommit) == Some(id) && VotesAt(t, round, Precommit) == VotesAt(s, round, Precommit);
    CommitState(s, id, round);
    Finalized(c, o, t, id);
  }

  lemma CommitState(s: RoundState, id: BlockID, round: nat)
    requires id.ID?
    ensures var t := IntoCommit(s, id, round);
            && t.height == s.height && t.round == s.round && t.step == COMMIT && t.commitRound == round
            && t.halted == s.halted && t.finalized == s.finalized && t.scheduled == s.scheduled && t.votes == s.votes
            && (t.proposalBlock == Some(id.hash) <==> AtHand(s, id))
            && (!AtHand(s, id) ==> t.proposalParts.Some? && t.proposalParts.value.header == id.parts)
  {
  }

  lemma Finalized(c: Chain, o: Oracle, s: RoundState, id: BlockID)
    requires s.step == COMMIT && s.commitRound >= 0 && id.ID? && Majority(s, s.commitRound, Precommit) == Some(id)
    requires !TryFinalizeCommit(c, o, s, s.height).halted && !s.halted
    ensures var s' := TryFinalizeCommit(c, o, s, s.height);
            if s.proposalBlock != Some(id.hash) then s' == s
            else
              && (s.height, id.hash) in s'.finalized
              && (if o.applies(s.height) then Done(s, s', s.commitRound, id) && s'.step == NEW_HEIGHT
                  else s'.height == s.height)
  {
    hide Saved, IsComplete, HasHeader;
  }

  /** The block of a commit arrives: the height is done. */
  lemma {:induction false} BlockMoves(c: Chain, o: Oracle, s: RoundState, id: BlockID)
    requires !s.halted && s.step == COMMIT && s.commitRound >= 0 && id.ID? && o.applies(s.height)
    requires Majority(s, s.commitRound, Precommit) == Some(id)
    requires s.proposalParts.Some? && !IsComplete(s, s.proposalParts)
    requires !AddBlock(c, o, s, s.height, Some(id.hash)).halted
    ensures var s' := AddBlock(c, o, s, s.height, Some(id.hash));
            Done(s, s', s.commitRound, id) && s'.step == NEW_HEIGHT
  {
    hide TryFinalizeCommit, EnterPrevote, EnterPrecommit;
    var t := s.(complete := s.complete + {s.proposalParts.value.id}, proposalBlock := Some(id.hash));
    var u := ValidOnPolka(t);
    UnchangedByPolka(t);
    assert Majority(u, s.commitRound, Precommit) == Some(id);
    Finalized(c, o, u, id);
    assert VotesAt(u, s.commitRound, Precommit) == VotesAt(s, s.commitRound, Precommit);
  }

  lemma UnchangedByPolka(s: RoundState)
    ensures var t := ValidOnPolka(s);
            t == s.(validRound := t.validRound, validBlock := t.validBlock, validParts := t.validParts)
  {
  }

  /** The height is done, and the next begun if there is nothing to wait for. */
  ghost predicate Begun(c: Chain, o: Oracle, s: RoundState, s': RoundState, round: nat) {
    var votes := VotesAt(s, round, Precommit);
    && s'.height == s.height + 1 && s'.round == 0 && s'.lastCommit == LastCommit(round, votes)
    && (o.skipTimeoutCommit && HasAll(c.powers(s.height), votes) ==> s'.step >= NEW_ROUND)
  }

  ghost predicate Commits(c: Chain, o: Oracle, s: RoundState, s2: RoundState, s': RoundState, round: nat, id: BlockID)
    requires id.ID?
  {
    if s2.step >= COMMIT then s' == s2
    else if AtHand(s2, id) then
      (s.height, id.hash) in s'.finalized && (o.applies(s.height) ==> Begun(c, o, s, s', round))
    else
      s'.height == s.height && s'.step == COMMIT && s'.commitRound == round && HasHeader(s'.proposalParts, id.parts)
  }

  /** +2/3 precommits of a round: the node is in that round or a later one and past its
      precommit; for a block it commits; for nil it waits, with a timeout. With all precommits
      in and no commit timeout wanted, the next height's round begins at once. */
  lemma {:induction false} PrecommitsMove(c: Chain, o: Oracle, s: RoundState, round: nat, id: BlockID)
    requires Inv(c, s) && Steady(s) && !s.halted && Majority(s, round, Precommit) == Some(id)
    requires !AfterPrecommit(c, o, s, round).halted
    ensures var s', s2 := AfterPrecommit(c, o, s, round), Halting.Committing(c, o, s, round);
            && s2.height == s.height && s2.round == (if s.round < round then round else s.round)
            && (s.round <= round ==> s2.step >= PRECOMMIT)
            && (if id.NilID? then
                  && s'.height == s.height
                  && (s.round <= round ==> Timeout(s.height, round, PRECOMMIT_WAIT) in s'.scheduled)
                else Commits(c, o, s, s2, s', round, id))
  {
    var s1, s2 := EnterNewRound(c, o, s, s.height, round), Halting.Committing(c, o, s, round);
    Reaching(c, o, s, round);
    hide Inv, EnterNewRound, EnterPrecommit, EnterCommit, HasAll, AnyTwoThirds, VotesAt;
    if id.NilID? {
      NilWaits(c, s2, s.height, round);
    } else if s2.step >= COMMIT {
      PastCommit(c, o, s2, s.height, round);
      NothingBegins(c, o, s2);
    } else {
      var s3 := EnterCommit(c, o, s2, s.height, round);
      SkipRuns(c, o, s3);
      SameVotesAt(s, s2, round);
      CommitMoves(c, o, s2, round, id);
    }
  }

  lemma SameVotesAt(s: RoundState, t: RoundState, round: nat)
    requires t.votes == s.votes
    ensures VotesAt(t, round, Precommit) == VotesAt(s, round, Precommit)
    ensures Majority(t, round, Precommit) == Majority(s, round, Precommit)
  {
  }

  lemma {:induction false} Reaching(c: Chain, o: Oracle, s: RoundState, round: nat)
    requires Inv(c, s) && Steady(s) && !s.halted && !Halting.Committing(c, o, s, round).halted
    ensures var s2 := Halting.Committing(c, o, s, round);
            && s2.height == s.height && s2.round == (if s.round < round then round else s.round) && s2.votes == s.votes
            && (s.round <= round ==> s2.step >= PRECOMMIT) && Steady(s2)
            && (s.step >= COMMIT && round <= s.round ==> s2 == s)
  {
    var s1 := EnterNewRound(c, o, s, s.height, round);
    RoundSteady(c, o, s, s.height, round);
    RoundReached(c, o, s, round);
    RoundRuns(c, o, s, round);
    EnterNewRoundKept(c, o, s, s.height, round);
    hide Inv, EnterNewRound, Grew, Steady;
    PrecommitSteady(c, o, s1, s.height, round);
    if s1.round == round && s1.step < PRECOMMIT {
      hide EnterPrecommit, PrecommitRule, Asks;
      var id := PrecommitStep(c, o, s1);
    } else {
      Unchanged(c, o, s1, s.height, round);
    }
    if s.step >= COMMIT && round <= s.round {
      NotAgain(c, o, s, round);
    }
  }

  lemma Unchanged(c: Chain, o: Oracle, s: RoundState, height: nat, round: nat)
    requires round < s.round || (s.round == round && PRECOMMIT <= s.step)
    ensures EnterPrecommit(c, o, s, height, round) == s
  {
  }

  lemma NotAgain(c: Chain, o: Oracle, s: RoundState, round: nat)
    requires s.step >= COMMIT && round <= s.round
    ensures EnterNewRound(c, o, s, s.height, round) == s
  {
  }

  lemma NilWaits(c: Chain, s: RoundState, height: nat, round: nat)
    requires Steady(s) && !s.halted && s.height == height && round <= s.round
    requires !EnterPrecommitWait(c, s, height, round).halted
    ensures var s' := EnterPrecommitWait(c, s, height, round);
            s'.height == s.height && (s.round == round ==> Timeout(height, round, PRECOMMIT_WAIT) in s'.scheduled)
  {
    hide AnyTwoThirds;
  }

  lemma PastCommit(c: Chain, o: Oracle, s: RoundState, height: nat, round: nat)
    requires s.step >= COMMIT
    ensures EnterCommit(c, o, s, height, round) == s
  {
  }

  lemma NothingBegins(c: Chain, o: Oracle, s: RoundState)
    requires s.step != NEW_HEIGHT
    ensures EnterNewRound(c, o, s, s.height, 0) == s
  {
  }

  lemma SkipRuns(c: Chain, o: Oracle, s: RoundState)
    ensures var s' := EnterNewRound(c, o, s, s.height, 0);
            && s'.height == s.height && s'.finalized == s.finalized && s'.lastCommit == s.lastCommit
            && (s.step == NEW_HEIGHT && !s.halted && s.round == 0 ==> s'.step >= NEW_ROUND && s'.round == 0)
            && (s.step != NEW_HEIGHT ==> s' == s)
  {
    hide PrevoteID, IsValidator, IsProposalComplete;
  }

  // ----- a lock is released, and a proposal with a polka of an earlier round prevoted

  /** Not locked, or from this round on the block of the polka. */
  ghost predicate NotHeld(s: RoundState, round: nat, id: BlockID) {
    || (s.lockedBlock.None? && s.lockedRound == -1)
    || (id.ID? && s.lockedBlock == Some(id.hash) && s.lockedRound == round)
  }

  /** A polka for another block, in a round past the lock's and not past the node's: the lock is
      gone, and only a polka of the node's own round may put its own block there. */
  lemma {:induction false} PolkaUnlocks(c: Chain, o: Oracle, s: RoundState, round: nat, id: BlockID)
    requires !s.halted && Majority(s, round, Prevote) == Some(id) && s.lockedRound < round <= s.round
    requires s.lockedBlock.Some? && !(id.ID? && s.lockedBlock == Some(id.hash))
    ensures var s' := AfterPrevote(c, o, s, round);
            if round < s.round then s'.lockedBlock.None? && s'.lockedRound == -1 else NotHeld(s', round, id)
  {
    hide EnterPrevote, EnterPrecommit, EnterPrevoteWait, AnyTwoThirds, IsProposalComplete;
    var t := MaybeSetValid(Unlock(s), round, id);
    FreeState(Unlock(s), round, id);
    PrevoteKeepsLock(c, o, t, s.height);
    if round == s.round {
      PrecommitFree(c, o, t, round, id);
      WaitKeepsLock(c, t, round);
    }
  }

  lemma FreeState(s: RoundState, round: nat, id: BlockID)
    requires s.lockedBlock.None? && s.lockedRound == -1
    ensures var t := MaybeSetValid(s, round, id);
            && t.lockedBlock.None? && t.lockedRound == -1 && t.votes == s.votes && t.height == s.height
            && t.round == s.round && (round != s.round ==> t == s)
  {
  }

  lemma PrecommitFree(c: Chain, o: Oracle, s: RoundState, round: nat, id: BlockID)
    requires s.lockedBlock.None? && s.lockedRound == -1 && Majority(s, round, Prevote) == Some(id)
    ensures NotHeld(EnterPrecommit(c, o, s, s.height, round), round, id)
  {
    hide PolRound, LockOn, Majority;
    LockFree(c, o, s, round, id);
  }

  lemma LockFree(c: Chain, o: Oracle, s: RoundState, round: nat, id: BlockID)
    requires s.lockedBlock.None? && s.lockedRound == -1
    ensures NotHeld(LockOn(c, o, s, round, id), round, id)
  {
    hide IsValidator, Accepts;
  }

  lemma WaitKeepsLock(c: Chain, s: RoundState, round: nat)
    ensures SameLock(s, EnterPrevoteWait(c, s, s.height, round))
  {
    hide AnyTwoThirds;
  }

  lemma PrevoteKeepsLock(c: Chain, o: Oracle, s: RoundState, height: nat)
    ensures SameLock(s, EnterPrevote(c, o, s, height, s.round))
  {
    hide PrevoteID, IsValidator;
  }

  /** A proposal that names a polka of an earlier round is prevoted, by the rule, when that is
      there. */
  lemma {:induction false} NamedPolkaPrevotes(c: Chain, o: Oracle, s: RoundState, round: nat, polka: BlockID)
    requires !s.halted && s.step < PREVOTE && round < s.round && Majority(s, round, Prevote) == Some(polka)
    requires IsProposalComplete(s) && s.proposal.value.polRound == round && !AfterPrevote(c, o, s, round).halted
    ensures var s' := AfterPrevote(c, o, s, round); s'.round == s.round && s'.step == PREVOTE
    ensures var s', t := AfterPrevote(c, o, s, round), MaybeUnlock(s, round, polka);
            exists id :: PrevoteRule(c, o, t, id) && Asks(c, o, t, s', Prevote, id)
  {
    hide EnterPrevote, PrevoteRule, Asks, AnyTwoThirds;
    var t := MaybeUnlock(s, round, polka);
    Unrelated(t, round, polka);
    var id := PrevoteStep(c, o, t);
  }

  // ----- blocks, transactions, claims

  /** The block proposed arrives whole before the node has prevoted: it prevotes, by the rule, and
      if the polka is there it goes on to its precommit. */
  lemma {:induction false} BlockPrevotes(c: Chain, o: Oracle, s: RoundState, block: nat)
    requires !s.halted && s.step < PREVOTE && s.proposalParts.Some? && !IsComplete(s, s.proposalParts)
    requires IsProposalComplete(s.(proposalBlock := Some(block)))
    requires !AddBlock(c, o, s, s.height, Some(block)).halted && Inv(c, s)
    ensures var s', t := AddBlock(c, o, s, s.height, Some(block)), Whole(s, block);
            && s'.height == s.height && s'.round == s.round
            && s'.step == (if Majority(s, s.round, Prevote).Some? then PRECOMMIT else PREVOTE)
            && exists id, between :: PrevoteRule(c, o, t, id) && Asks(c, o, t, between, Prevote, id) &&
                                     between.requests <= s'.requests
  {
    hide EnterPrevote, EnterPrecommit, TryFinalizeCommit, PrevoteRule, Asks;
    var t := Whole(s, block);
    var u := ValidOnPolka(t);
    UnchangedByPolka(t);
    assert Inv(c, t);
    ValidOnPolkaKept(c, t);
    var id := PrevoteStep(c, o, u);
    SameRule(c, o, t, u, id, EnterPrevote(c, o, u, u.height, u.round));
    EnterPrevoteKept(c, o, u, u.height, u.round);
    hide Inv;
    var between := EnterPrevote(c, o, u, u.height, u.round);
    if Majority(s, s.round, Prevote).Some? {
      var b := PrecommitStep(c, o, between);
      AsksMore(c, o, between, EnterPrecommit(c, o, between, between.height, between.round), b);
    }
  }

  /** A polka came before its block: when the block is there, it is the valid one of the round. */
  lemma {:induction false} BlockBecomesValid(c: Chain, o: Oracle, s: RoundState, id: BlockID)
    requires !s.halted && s.step < COMMIT && s.proposalParts.Some? && !IsComplete(s, s.proposalParts)
    requires id.ID? && Majority(s, s.round, Prevote) == Some(id) && s.validRound < s.round
    ensures var s' := AddBlock(c, o, s, s.height, Some(id.hash));
            s'.validBlock == Some(id.hash) && s'.validRound == s.round && s'.validParts == s.proposalParts
  {
    hide EnterPrevote, EnterPrecommit, IsProposalComplete;
    var u := ValidOnPolka(Whole(s, id.hash));
    PrevoteKeepsValid(c, o, u, s.height);
    PrecommitKeepsValid(c, o, EnterPrevote(c, o, u, s.height, u.round), s.height);
  }

  ghost predicate ValidKept(s: RoundState, s': RoundState) {
    s'.validRound == s.validRound && s'.validBlock == s.validBlock && s'.validParts == s.validParts
  }

  lemma PrevoteKeepsValid(c: Chain, o: Oracle, s: RoundState, height: nat)
    ensures ValidKept(s, EnterPrevote(c, o, s, height, s.round))
  {
    hide PrevoteID, IsValidator;
  }

  lemma PrecommitKeepsValid(c: Chain, o: Oracle, s: RoundState, height: nat)
    ensures ValidKept(s, EnterPrecommit(c, o, s, height, s.round))
  {
    hide PolRound, IsValidator, LockOn;
    match Majority(s, s.round, Prevote)
    case None =>
    case Some(id) => LockKeepsValid(c, o, s, s.round, id);
  }

  lemma LockKeepsValid(c: Chain, o: Oracle, s: RoundState, round: nat, id: BlockID)
    ensures ValidKept(s, LockOn(c, o, s, round, id))
  {
    hide IsValidator;
  }

  /** A proposal that names a polka round, without +2/3 prevotes of that round for one thing: the
      block may be whole, but entering the propose step or receiving it asks for no prevote. */
  lemma NamedPolkaAwaited(c: Chain, o: Oracle, s: RoundState, block: nat)
    requires !s.halted && s.step < PREVOTE && s.proposal.Some? && s.proposal.value.polRound >= 0
    requires Majority(s, s.proposal.value.polRound, Prevote).None?
    requires s.proposalParts.Some? && !IsComplete(s, s.proposalParts)
    ensures var s' := AddBlock(c, o, s, s.height, Some(block));
            && s'.step == s.step && s'.requests == s.requests && s'.scheduled == s.scheduled
            && s'.proposalBlock == Some(block) && IsComplete(s', s.proposalParts) && !s'.halted
    ensures var s' := EnterPropose(c, o, s, s.height, s.round); s'.step == PROPOSE && s'.requests == s.requests
  {
    hide EnterPrevote, EnterPrecommit, TryFinalizeCommit;
    UnchangedByPolka(Whole(s, block));
  }

  /** The parts of one part set are put together once: if they make no block, nothing else that
      claims to be made of them is looked at. */
  lemma BadBlockOnce(c: Chain, o: Oracle, s: RoundState, later: Oracle, block: Option<nat>)
    requires s.proposalParts.Some?
    ensures var s' := AddBlock(c, o, s, s.height, None);
            && s' == s.(complete := s'.complete) && AddBlock(c, later, s', s.height, block) == s'
  {
    hide ReceiveBlock;
  }

  function Whole(s: RoundState, block: nat): RoundState
    requires s.proposalParts.Some?
  {
    s.(complete := s.complete + {s.proposalParts.value.id}, proposalBlock := Some(block))
  }

  lemma SameRule(c: Chain, o: Oracle, t: RoundState, u: RoundState, id: BlockID, s': RoundState)
    requires PrevoteRule(c, o, u, id) && Asks(c, o, u, s', Prevote, id)
    requires u == t.(validRound := u.validRound, validBlock := u.validBlock, validParts := u.validParts)
    ensures PrevoteRule(c, o, t, id) && Asks(c, o, t, s', Prevote, id)
  {
  }

  lemma AsksMore(c: Chain, o: Oracle, s: RoundState, s': RoundState, id: BlockID)
    requires Asks(c, o, s, s', Precommit, id)
    ensures s.requests <= s'.requests
  {
  }

  /** Transactions end the wait for them. */
  lemma TxsMove(c: Chain, o: Oracle, s: RoundState)
    requires !s.halted
    ensures var s' := HandleTxsAvailable(c, o, s);
            if s.round == 0 && s.step == NEW_ROUND then
              && s'.height == s.height && s'.round == 0 && Timeout(s.height, 0, PROPOSE) in s'.scheduled
              && s'.step == (if IsProposalComplete(s) then PREVOTE else PROPOSE)
            else s' == s
  {
    hide EnterPropose;
    if s.round == 0 && s.step == NEW_ROUND {
      ProposeStep(c, o, s);
    }
  }

  /** A peer's first claim of a majority makes votes for that block count, also beside others. */
  lemma ClaimHeard(s: RoundState, round: nat, kind: Kind, peer: nat, id: BlockID, r: nat, k: Kind)
    ensures var s', vs := HandleMaj23(s, round, kind, peer, id), VotesAt(s, round, kind);
            && s' == s.(votes := s'.votes)
            && ((r, k) != (round, kind) ==> VotesAt(s', r, k) == VotesAt(s, r, k))
            && (peer !in vs.claims ==> VoteCounting.Special(VotesAt(s', round, kind), id))
            && VotesAt(s', round, kind).votes == vs.votes
  {
    hide Claim;
    VoteCounting.ClaimDoes(VotesAt(s, round, kind), peer, id, 0, id);
  }

  // ----- proposals and late votes

  /** A proposal is taken exactly if it is the first of the node's height and round, is signed by
      the proposer, and names a polka round before its own, or none. */
  lemma ProposalTaken(s: RoundState, p: Proposal, authentic: bool)
    ensures var s' := SetProposal(s, p, authentic);
            if s.proposal.None? && p.height == s.height && p.round == s.round && -1 <= p.polRound < p.round && authentic
            then
              && s' == s.(proposal := Some(p), proposalParts := s'.proposalParts, made := s'.made)
              && (s.proposalParts.Some? ==> s'.proposalParts == s.proposalParts)
              && (s.proposalParts.None? && p.id.ID? ==> s'.proposalParts == Some(PartSet(p.id.parts, s.made)))
            else s' == s
  {
  }

  /** A late precommit of the round committed joins the commit; with all of them in, and no commit
      timeout wanted, the next round begins. */
  lemma {:induction false} LateVoteJoins(c: Chain, o: Oracle, s: RoundState, vote: Vote)
    requires !s.halted && s.step == NEW_HEIGHT && s.round == 0 && s.lastCommit.LastCommit?
    requires vote.round == s.lastCommit.round && IsValidator(c.powers(vote.height), vote.val)
    requires vote.val !in s.lastCommit.votes.votes
    requires !VoteCounting.Counts(s.lastCommit.votes, vote.val, vote.id)
    ensures var s' := AddLateVote(c, o, s, vote);
            && s'.lastCommit.LastCommit? && s'.lastCommit.round == vote.round && s'.height == s.height
            && VoteCounting.Counts(s'.lastCommit.votes, vote.val, vote.id) && !s'.halted
            && (o.skipTimeoutCommit && HasAll(c.powers(vote.height), s'.lastCommit.votes) ==> s'.step >= NEW_ROUND)
            && (!(o.skipTimeoutCommit && HasAll(c.powers(vote.height), s'.lastCommit.votes)) ==> s'.step == NEW_HEIGHT)
  {
    hide EnterNewRound, AddVote, HasAll;
    var powers, votes := c.powers(vote.height), s.lastCommit.votes;
    VoteCounting.AddDoes(powers, votes, vote.val, vote.id, vote.val, vote.id);
    var t := s.(lastCommit := s.lastCommit.(votes := AddVote(powers, votes, vote.val, vote.id).0));
    SkipRuns(c, o, t);
    RoundRuns(c, o, t, 0);
  }
}
