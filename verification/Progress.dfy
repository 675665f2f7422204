/** What a node does next: the votes it asks for, and where timeouts and majorities take it. */
module Progress {
  import opened Common
  import opened VoteSets
  import opened Consensus
  import opened ConsensusInvariants
  import opened Agreement

  /** A validator with a key asks for one more vote, of its height and round; another node for
      none. */
  ghost predicate Asks(c: Chain, o: Oracle, s: RoundState, s': RoundState, kind: Kind, id: BlockID) {
    var vote := Vote(kind, s.height, s.round, id, s.self);
    var at := HRS(s.height, s.round, if kind == Prevote then 4 else 6);
    if o.keyed && s.self < |c.powers(s.height)| && c.powers(s.height)[s.self] > 0 then
      && s'.requests == s.requests + [Request(vote, s.round, o.signs(at))]
      && s'.signed == s.signed + if o.signs(at) then {vote} else {}
    else s'.requests == s.requests && s'.signed == s.signed
  }

  // ----- prevotes

  /** The locked block; else the proposed one if the node accepts it; else nil. */
  ghost predicate PrevoteRule(c: Chain, o: Oracle, s: RoundState, id: BlockID) {
    match (s.lockedBlock, s.proposalBlock)
    case (Some(locked), _) => id.ID? && id.hash == locked && Headed(s.lockedParts, id.parts)
    case (None, Some(block)) =>
      if c.valid(s.height, block) && o.passes(s.height, block)
      then id.ID? && id.hash == block && Headed(s.proposalParts, id.parts) else id.NilID?
    case (None, None) => id.NilID?
  }

  ghost predicate Headed(parts: Option<PartSet>, header: nat) {
    parts.Some? ==> parts.value.header == header
  }

  /** Only the step and what was asked for have changed. */
  ghost predicate OnlyStep(s: RoundState, s': RoundState, step: nat) {
    s' == s.(step := step, requests := s'.requests, signed := s'.signed)
  }

  lemma PrevoteStep(c: Chain, o: Oracle, s: RoundState) returns (id: BlockID)
    requires !s.halted && s.step < PREVOTE
    ensures var s' := EnterPrevote(c, o, s, s.height, s.round);
            OnlyStep(s, s', PREVOTE) && PrevoteRule(c, o, s, id) && Asks(c, o, s, s', Prevote, id)
  {
    id := PrevoteID(c, o, s);
  }

  // ----- precommits

  /** On +2/3 prevotes of the round for the locked block or the proposed one that block, and it
      is locked in this round; otherwise nil. Prevotes for nil or another block release the
      lock, and for an unknown block its parts are collected. */
  ghost predicate PrecommitRule(s: RoundState, s': RoundState, id: BlockID) {
    match Majority(s, s.round, Prevote)
    case None => id.NilID? && SameLock(s, s') && SameBlock(s, s')
    case Some(NilID) => id.NilID? && Unlocked(s') && SameBlock(s, s')
    case Some(ID(hash, parts)) =>
      if s.lockedBlock == Some(hash) then
        && id == ID(hash, parts) && s'.lockedBlock == Some(hash) && s'.lockedParts == s.lockedParts
        && s'.lockedRound == s.round && SameBlock(s, s')
      else if s.proposalBlock == Some(hash) then
        && id == ID(hash, parts) && s'.lockedBlock == Some(hash) && s'.lockedParts == s.proposalParts
        && s'.lockedRound == s.round && SameBlock(s, s')
      else
        && id.NilID? && Unlocked(s')
        && s'.proposalParts.Some? && s'.proposalParts.value.header == parts
        && (if HasHeader(s.proposalParts, parts) then SameBlock(s, s')
            else s'.proposalBlock.None? && s'.proposalParts.value.id !in s'.complete)
  }

  ghost predicate Unlocked(s: RoundState) {
    s.lockedBlock.None? && s.lockedRound == -1 && s.lockedParts.None?
  }

  ghost predicate SameLock(s: RoundState, s': RoundState) {
    s'.lockedBlock == s.lockedBlock && s'.lockedRound == s.lockedRound && s'.lockedParts == s.lockedParts
  }

  ghost predicate SameBlock(s: RoundState, s': RoundState) {
    s'.proposalBlock == s.proposalBlock && s'.proposalParts == s.proposalParts
  }

  lemma SignDoes(c: Chain, o: Oracle, s: RoundState, kind: Kind, id: BlockID)
    ensures var s' := SignAddVote(c, o, s, kind, id, s.round);
            Asks(c, o, s, s', kind, id) && s' == s.(requests := s'.requests, signed := s'.signed)
  {
  }

  /** What the polka makes the node do before it signs, and for what. */
  ghost function Locking(s: RoundState, id: BlockID): (RoundState, BlockID) {
    match id
    case NilID => (Unlock(s), NilID)
    case ID(hash, parts) =>
      if s.lockedBlock == Some(hash) then (s.(lockedRound := s.round), id)
      else if s.proposalBlock == Some(hash) then
        (s.(lockedRound := s.round, lockedBlock := s.proposalBlock, lockedParts := s.proposalParts), id)
      else (Await(Unlock(s), parts), NilID)
  }

  lemma LockingIs(c: Chain, o: Oracle, s: RoundState, id: BlockID)
    requires !LockOn(c, o, s, s.round, id).halted
    ensures var (t, b) := Locking(s, id); LockOn(c, o, s, s.round, id) == SignAddVote(c, o, t, Precommit, b, s.round)
  {
    hide SignAddVote, Unlock, Await;
  }

  lemma LockingRule(s: RoundState, id: BlockID)
    requires PartSetsOk(s) && Majority(s, s.round, Prevote) == Some(id)
    ensures var (t, b) := Locking(s, id);
            && PrecommitRule(s, t, b)
            && t == s.(lockedRound := t.lockedRound, lockedBlock := t.lockedBlock, lockedParts := t.lockedParts,
                       proposalBlock := t.proposalBlock, proposalParts := t.proposalParts, made := t.made)
  {
  }

  lemma PrecommitStep(c: Chain, o: Oracle, s: RoundState) returns (id: BlockID)
    requires Inv(c, s) && !s.halted && s.step < PRECOMMIT && !EnterPrecommit(c, o, s, s.height, s.round).halted
    ensures var s' := EnterPrecommit(c, o, s, s.height, s.round);
            && s'.height == s.height && s'.round == s.round && s'.step == PRECOMMIT
            && s'.votes == s.votes && s'.scheduled == s.scheduled && s'.finalized == s.finalized
            && s'.validBlock == s.validBlock && s'.validRound == s.validRound && s'.validParts == s.validParts
            && PrecommitRule(s, s', id) && Asks(c, o, s, s', Precommit, id)
  {
    assert PartSetsOk(s);
    hide Inv, PolRound, SignAddVote, LockOn, Locking, Asks, PrecommitRule;
    var t := s;
    match Majority(s, s.round, Prevote) {
      case None =>
        id := NilID;
        NoPolkaRule(s);
      case Some(polka) =>
        LockingIs(c, o, s, polka);
        LockingRule(s, polka);
        t, id := Locking(s, polka).0, Locking(s, polka).1;
    }
    SignDoes(c, o, t, Precommit, id);
    SameAsking(c, o, s, t, SignAddVote(c, o, t, Precommit, id, s.round), id);
    SameRule(s, t, EnterPrecommit(c, o, s, s.height, s.round), id);
  }

  lemma NoPolkaRule(s: RoundState)
    requires Majority(s, s.round, Prevote).None?
    ensures PrecommitRule(s, s, NilID)
  {
  }

  lemma SameRule(s: RoundState, t: RoundState, s': RoundState, id: BlockID)
    requires PrecommitRule(s, t, id) && SameLock(t, s') && SameBlock(t, s') && t.complete == s'.complete
    ensures PrecommitRule(s, s', id)
  {
  }

  lemma SameAsking(c: Chain, o: Oracle, s: RoundState, t: RoundState, s': RoundState, id: BlockID)
    requires Asks(c, o, t, s', Precommit, id) && t.height == s.height && t.round == s.round && t.self == s.self
    requires t.requests == s.requests && t.signed == s.signed
    ensures forall step :: Asks(c, o, s, s'.(step := step), Precommit, id)
  {
  }

  // ----- rounds

  /** A new round: later ones clear the proposal. At a height past the first, with transactions
      to wait for, round 0 waits for them; otherwise the node proposes, and prevotes at once if
      the proposal is complete. */
  lemma RoundStep(c: Chain, o: Oracle, s: RoundState, round: nat)
    requires !s.halted && (s.round < round || (s.round == round && s.step == NEW_HEIGHT))
    ensures var s' := EnterNewRound(c, o, s, s.height, round);
            && s'.height == s.height && s'.round == round && s'.openRound == round + 1 && !s'.triggered && !s'.halted
            && s'.votes == s.votes && SameLock(s, s')
            && (if round == 0 then s'.proposal == s.proposal && SameBlock(s, s')
                else s'.proposal.None? && s'.proposalBlock.None? && s'.proposalParts.None?)
            && (if o.waitForTxs && round == 0 && s.height > 1 then
                  && s'.step == NEW_ROUND && s'.requests == s.requests
                  && (o.emptyBlocks ==> Timeout(s.height, 0, NEW_ROUND) in s'.scheduled)
                else Timeout(s.height, round, PROPOSE) in s'.scheduled && (s'.step == PROPOSE || s'.step == PREVOTE))
  {
    hide PrevoteID, IsValidator, Majority;
  }

  lemma ProposeStep(c: Chain, o: Oracle, s: RoundState)
    requires !s.halted && s.step < PROPOSE
    ensures var s' := EnterPropose(c, o, s, s.height, s.round);
            && s'.height == s.height && s'.round == s.round && !s'.halted
            && s'.step == (if IsProposalComplete(s) then PREVOTE else PROPOSE)
            && Timeout(s.height, s.round, PROPOSE) in s'.scheduled
  {
    hide PrevoteID, IsValidator;
  }

  // ----- what keeps a node going

  /** Waiting steps have their timeout scheduled, and rounds begin where they should. */
  ghost predicate Steady(s: RoundState) {
    && NEW_HEIGHT <= s.step <= COMMIT && (s.step == NEW_HEIGHT ==> s.round == 0)
    && (forall ti :: ti in s.scheduled && ti.step <= NEW_ROUND ==> ti.round == 0)
    && (s.step == NEW_HEIGHT || s.step == PROPOSE || s.step == PREVOTE_WAIT ==>
          Timeout(s.height, s.round, s.step) in s.scheduled)
    && (s.triggered ==> Timeout(s.height, s.round, PRECOMMIT_WAIT) in s.scheduled)
  }

  lemma PrevoteSteady(c: Chain, o: Oracle, s: RoundState, height: nat, round: nat)
    requires Steady(s) && round <= s.round
    ensures Steady(EnterPrevote(c, o, s, height, round))
    ensures EnterPrevote(c, o, s, height, round).round == s.round
  {
    hide PrevoteID, IsValidator;
  }

  lemma ProposeSteady(c: Chain, o: Oracle, s: RoundState, height: nat, round: nat)
    requires Steady(s) && round <= s.round
    ensures Steady(EnterPropose(c, o, s, height, round))
  {
    hide EnterPrevote, IsProposalComplete;
    if !(s.halted || s.height != height || round < s.round || PROPOSE <= s.step) {
      PrevoteSteady(c, o, Schedule(s, height, round, PROPOSE).(round := round, step := PROPOSE), height, round);
    }
  }

  lemma RoundSteady(c: Chain, o: Oracle, s: RoundState, height: nat, round: nat)
    requires Steady(s)
    ensures Steady(EnterNewRound(c, o, s, height, round))
    ensures EnterNewRound(c, o, s, height, round).round >= s.round
  {
    hide EnterPropose;
    if !(s.halted || s.height != height || round < s.round || (s.round == round && s.step != NEW_HEIGHT)) {
      var s1 := s.(round := round, step := NEW_ROUND, openRound := round + 1, triggered := false);
      var s2 := if round == 0 then s1 else s1.(proposal := None, proposalBlock := None, proposalParts := None);
      ProposeSteady(c, o, s2, height, round);
      RoundStep(c, o, s, round);
    }
  }

  ghost predicate SameClock(s: RoundState, s': RoundState) {
    && s'.height == s.height && s'.round == s.round && s'.step == s.step
    && s'.scheduled == s.scheduled && s'.triggered == s.triggered
  }

  lemma SignClock(c: Chain, o: Oracle, s: RoundState, kind: Kind, id: BlockID, entered: nat)
    ensures SameClock(s, SignAddVote(c, o, s, kind, id, entered))
  {
  }

  lemma LockOnClock(c: Chain, o: Oracle, s: RoundState, round: nat, id: BlockID)
    ensures SameClock(s, LockOn(c, o, s, round, id))
  {
    hide SignAddVote;
    match id
    case NilID => SignClock(c, o, Unlock(s), Precommit, NilID, round);
    case ID(hash, parts) =>
      var locked := s.(lockedRound := round, lockedBlock := s.proposalBlock, lockedParts := s.proposalParts);
      SignClock(c, o, s.(lockedRound := round), Precommit, id, round);
      SignClock(c, o, locked, Precommit, id, round);
      SignClock(c, o, Await(Unlock(s), parts), Precommit, NilID, round);
  }

  lemma LockClock(c: Chain, o: Oracle, s: RoundState, round: nat)
    ensures SameClock(s, DoPrecommit(c, o, s, round))
  {
    hide PolRound, LockOn, SignAddVote;
    SignClock(c, o, s, Precommit, NilID, round);
    match Majority(s, round, Prevote)
    case None =>
    case Some(id) => LockOnClock(c, o, s, round, id);
  }

  lemma PrecommitSteady(c: Chain, o: Oracle, s: RoundState, height: nat, round: nat)
    requires Steady(s) && round <= s.round
    ensures Steady(EnterPrecommit(c, o, s, height, round))
    ensures EnterPrecommit(c, o, s, height, round).round == s.round
  {
    hide DoPrecommit;
    LockClock(c, o, s, round);
  }

  lemma WaitSteady(c: Chain, s: RoundState, height: nat, round: nat)
    requires Steady(s) && round <= s.round
    ensures Steady(EnterPrevoteWait(c, s, height, round)) && Steady(EnterPrecommitWait(c, s, height, round))
  {
    hide AnyTwoThirds;
  }

  lemma FinalizeSteady(c: Chain, o: Oracle, s: RoundState, height: nat)
    requires Steady(s)
    ensures Steady(TryFinalizeCommit(c, o, s, height))
  {
    hide Majority, HashesTo, HasHeader, IsComplete, Saved, VotesAt;
  }

  lemma CommitSteady(c: Chain, o: Oracle, s: RoundState, height: nat, round: nat)
    requires Steady(s)
    ensures Steady(EnterCommit(c, o, s, height, round))
  {
    hide Majority, TryFinalizeCommit;
    if Majority(s, round, Precommit).Some? {
      FinalizeSteady(c, o, IntoCommit(s, Majority(s, round, Precommit).value, round), height);
    }
  }

  lemma TimeoutSteady(c: Chain, o: Oracle, s: RoundState, ti: Timeout)
    requires Steady(s) && ti.round <= s.round
    ensures Steady(HandleTimeout(c, o, s, ti))
  {
    hide Steady, EnterNewRound, EnterPropose, EnterPrevote, EnterPrecommit;
    HaltSteady(s);
    RoundSteady(c, o, s, ti.height, 0);
    ProposeSteady(c, o, s, ti.height, 0);
    PrevoteSteady(c, o, s, ti.height, ti.round);
    PrecommitSteady(c, o, s, ti.height, ti.round);
    RoundSteady(c, o, EnterPrecommit(c, o, s, ti.height, ti.round), ti.height, ti.round + 1);
  }

  lemma HaltSteady(s: RoundState)
    requires Steady(s)
    ensures Steady(Halt(s))
  {
  }

  lemma BlockSteady(c: Chain, o: Oracle, s: RoundState, height: nat, block: Option<nat>)
    requires Steady(s)
    ensures Steady(AddBlock(c, o, s, height, block))
  {
    hide ReceiveBlock;
    if s.proposalParts.Some? {
      ReceiveSteady(c, o, s.(complete := s.complete + {s.proposalParts.value.id}, proposalBlock := block), height);
    }
  }

  lemma ReceiveSteady(c: Chain, o: Oracle, s: RoundState, height: nat)
    requires Steady(s)
    ensures Steady(ReceiveBlock(c, o, s, height))
  {
    hide EnterPrevote, EnterPrecommit, TryFinalizeCommit, Majority, IsProposalComplete;
    var s1 := ValidOnPolka(s);
    PrevoteSteady(c, o, s1, height, s1.round);
    var s2 := EnterPrevote(c, o, s1, height, s1.round);
    PrecommitSteady(c, o, s2, height, s2.round);
    FinalizeSteady(c, o, s1, height);
  }

  lemma ReactSteady(c: Chain, o: Oracle, s: RoundState, round: nat, maj: Option<BlockID>)
    requires Steady(s)
    ensures Steady(ReactToPrevotes(c, o, s, round, maj))
  {
    hide Steady, EnterNewRound, EnterPrevote, EnterPrecommit, EnterPrevoteWait;
    RoundSteady(c, o, s, s.height, round);
    PrevoteSteady(c, o, s, s.height, s.round);
    if s.round == round {
      PrecommitSteady(c, o, s, s.height, round);
      WaitSteady(c, s, s.height, round);
    }
  }

  lemma PrevotedSteady(c: Chain, o: Oracle, s: RoundState, round: nat)
    requires Steady(s)
    ensures Steady(AfterPrevote(c, o, s, round))
  {
    hide ReactToPrevotes, Majority;
    match Majority(s, round, Prevote)
    case None => ReactSteady(c, o, s, round, None);
    case Some(id) =>
      ValidSteady(s, round, id);
      ReactSteady(c, o, MaybeSetValid(MaybeUnlock(s, round, id), round, id), round, Some(id));
  }

  lemma ValidSteady(s: RoundState, round: nat, id: BlockID)
    requires Steady(s)
    ensures Steady(MaybeSetValid(MaybeUnlock(s, round, id), round, id))
  {
    hide MaybeSetValid, MaybeUnlock;
    ValidClock(s, round, id);
    ValidClock(MaybeUnlock(s, round, id), round, id);
  }

  lemma ValidClock(s: RoundState, round: nat, id: BlockID)
    ensures SameClock(s, MaybeUnlock(s, round, id)) && SameClock(s, MaybeSetValid(s, round, id))
  {
  }

  lemma PrecommittedSteady(c: Chain, o: Oracle, s: RoundState, round: nat)
    requires Steady(s) && !s.halted
    ensures Steady(AfterPrecommit(c, o, s, round))
  {
    hide Steady, EnterNewRound, EnterPrecommit, EnterCommit, EnterPrecommitWait;
    var s1 := EnterNewRound(c, o, s, s.height, round);
    RoundSteady(c, o, s, s.height, round);
    RoundReached(c, o, s, round);
    WaitSteady(c, s1, s.height, round);
    var s2 := EnterPrecommit(c, o, s1, s.height, round);
    PrecommitSteady(c, o, s1, s.height, round);
    WaitSteady(c, s2, s.height, round);
    CommitSteady(c, o, s2, s.height, round);
    var s3 := EnterCommit(c, o, s2, s.height, round);
    RoundSteady(c, o, s3, s3.height, 0);
  }

  lemma RoundReached(c: Chain, o: Oracle, s: RoundState, round: nat)
    requires !s.halted
    ensures var s' := EnterNewRound(c, o, s, s.height, round);
            round <= s'.round && (s.round < round ==> s'.round == round) && (round <= s.round ==> s'.round == s.round)
  {
    if s.round < round || (s.round == round && s.step == NEW_HEIGHT) {
      RoundStep(c, o, s, round);
    }
  }

  lemma LateSteady(c: Chain, o: Oracle, s: RoundState, vote: Vote)
    requires Steady(s)
    ensures Steady(AddLateVote(c, o, s, vote))
  {
    hide EnterNewRound, AddVote, HasAll, Conflicts;
    if s.lastCommit.LastCommit? {
      var vs := AddVote(c.powers(vote.height), s.lastCommit.votes, vote.val, vote.id).0;
      RoundSteady(c, o, s.(lastCommit := s.lastCommit.(votes := vs)), s.height, 0);
    }
  }

  lemma VoteSteady(c: Chain, o: Oracle, s: RoundState, vote: Vote)
    requires Steady(s) && !s.halted
    ensures Steady(AddVoteMsg(c, o, s, vote))
  {
    hide AddLateVote, AfterPrevote, AfterPrecommit, AddVote, Conflicts;
    LateSteady(c, o, s, vote);
    var s1 := Record(c, s, vote).0;
    PrevotedSteady(c, o, s1, vote.round);
    PrecommittedSteady(c, o, s1, vote.round);
  }

  /** Every input keeps a node steady. */
  lemma HandleSteady(c: Chain, o: Oracle, s: RoundState, input: Input)
    requires Steady(s) && Inv(c, s) && MayArrive(s, input)
    ensures Steady(Handle(c, o, s, input))
  {
    hide Inv, AddVoteMsg, AddBlock, HandleTimeout, EnterPropose, Claim;
    if s.halted {
      return;
    }
    match input
    case VoteMsg(vote) => VoteSteady(c, o, s, vote);
    case ProposalMsg(p, authentic) =>
    case BlockMsg(height, block) => BlockSteady(c, o, s, height, block);
    case Tock(ti) =>
      ScheduledBehind(c, s, ti);
      if ti.height == s.height {
        TimeoutSteady(c, o, s, ti);
      } else {
        Outdated(c, o, s, ti);
      }
    case TxsAvailable => ProposeSteady(c, o, s, s.height, 0);
    case Maj23Msg(round, kind, peer, id) =>
  }

  lemma Outdated(c: Chain, o: Oracle, s: RoundState, ti: Timeout)
    requires ti.height != s.height
    ensures HandleTimeout(c, o, s, ti) == s
  {
  }

  // ----- timeouts

  /** A timeout of the node's height, not of an earlier round or step. */
  predicate Current(s: RoundState, ti: Timeout) {
    ti.height == s.height && !(ti.round < s.round || (ti.round == s.round && ti.step < s.step))
  }

  /** A timeout that is not current changes nothing. */
  lemma TimeoutIgnored(c: Chain, o: Oracle, s: RoundState, ti: Timeout)
    requires !Current(s, ti)
    ensures HandleTimeout(c, o, s, ti) == s
  {
  }

  /** After the commit timeout the first round begins; after that for transactions, propose. */
  lemma CommitTimeout(c: Chain, o: Oracle, s: RoundState, ti: Timeout)
    requires Steady(s) && !s.halted && ti in s.scheduled && Current(s, ti) && ti.round <= s.round
    requires ti.step == NEW_HEIGHT || ti.step == NEW_ROUND
    ensures var s' := HandleTimeout(c, o, s, ti);
            && s'.height == s.height && s'.round == 0 && !s'.halted
            && (if ti.step == NEW_HEIGHT && o.waitForTxs && s.height > 1 then
                  s'.step == NEW_ROUND && (o.emptyBlocks ==> Timeout(s.height, 0, NEW_ROUND) in s'.scheduled)
                else (s'.step == PROPOSE || s'.step == PREVOTE) && Timeout(s.height, 0, PROPOSE) in s'.scheduled)
  {
    hide EnterNewRound, EnterPropose, IsProposalComplete;
    if ti.step == NEW_HEIGHT {
      RoundStep(c, o, s, 0);
    } else {
      ProposeStep(c, o, s);
    }
  }

  /** After the propose timeout the node prevotes, by the rule. */
  lemma ProposeTimeout(c: Chain, o: Oracle, s: RoundState, ti: Timeout) returns (id: BlockID)
    requires !s.halted && Current(s, ti) && ti.round <= s.round && ti.step == PROPOSE
    ensures var s' := HandleTimeout(c, o, s, ti);
            OnlyStep(s, s', PREVOTE) && PrevoteRule(c, o, s, id) && Asks(c, o, s, s', Prevote, id)
  {
    hide EnterPrevote, PrevoteRule, Asks;
    id := PrevoteStep(c, o, s);
  }

  /** After the prevote timeout the node precommits, by the rule, unless it did. */
  lemma PrevoteTimeout(c: Chain, o: Oracle, s: RoundState, ti: Timeout) returns (id: BlockID)
    requires Inv(c, s) && !s.halted && Current(s, ti) && ti.round <= s.round && ti.step == PREVOTE_WAIT
    requires !HandleTimeout(c, o, s, ti).halted
    ensures var s' := HandleTimeout(c, o, s, ti);
            && s'.height == s.height && s'.round == s.round && s'.step == PRECOMMIT
            && PrecommitRule(s, s', id) && Asks(c, o, s, s', Precommit, id)
  {
    hide Inv, EnterPrecommit, PrecommitRule, Asks;
    id := PrecommitStep(c, o, s);
  }

  /** After the precommit timeout the node is in the next round, with its propose timeout, having
      precommitted if it had not. */
  lemma PrecommitTimeout(c: Chain, o: Oracle, s: RoundState, ti: Timeout)
    requires Inv(c, s) && !s.halted && Current(s, ti) && ti.round <= s.round && ti.step == PRECOMMIT_WAIT
    requires !HandleTimeout(c, o, s, ti).halted
    ensures var s', between := HandleTimeout(c, o, s, ti), EnterPrecommit(c, o, s, s.height, s.round);
            && s'.height == s.height && s'.round == s.round + 1 && (s'.step == PROPOSE || s'.step == PREVOTE)
            && Timeout(s.height, s.round + 1, PROPOSE) in s'.scheduled
            && s'.proposal.None? && SameLock(between, s')
            && (s.step >= PRECOMMIT ==> between == s)
            && between.requests <= s'.requests
            && (s.step < PRECOMMIT ==>
                  exists id :: PrecommitRule(s, between, id) && Asks(c, o, s, between, Precommit, id))
  {
    hide Inv, EnterPrecommit, EnterNewRound, PrecommitRule, Asks;
    var between := EnterPrecommit(c, o, s, s.height, s.round);
    StaysHalted(c, o, between, s.height, s.round + 1);
    if s.step < PRECOMMIT {
      var id := PrecommitStep(c, o, s);
    } else {
      PastPrecommit(c, o, s);
    }
    RoundStep(c, o, between, s.round + 1);
    RoundAsksMore(c, o, between, s.round + 1);
  }

  lemma StaysHalted(c: Chain, o: Oracle, s: RoundState, height: nat, round: nat)
    ensures s.halted ==> EnterNewRound(c, o, s, height, round) == s
  {
  }

  lemma PastPrecommit(c: Chain, o: Oracle, s: RoundState)
    requires s.step >= PRECOMMIT
    ensures EnterPrecommit(c, o, s, s.height, s.round) == s
  {
  }

  lemma RoundAsksMore(c: Chain, o: Oracle, s: RoundState, round: nat)
    ensures s.requests <= EnterNewRound(c, o, s, s.height, round).requests
  {
    hide PrevoteID, IsValidator, Majority;
  }

  /** No current timeout is lost on a node: it is further on after it. */
  lemma {:induction false} TimeoutAdvances(c: Chain, o: Oracle, s: RoundState, ti: Timeout)
    requires Inv(c, s) && Steady(s) && !s.halted && ti in s.scheduled && Current(s, ti)
    requires !HandleTimeout(c, o, s, ti).halted
    ensures At(s).Lt(At(HandleTimeout(c, o, s, ti)))
  {
    ScheduledBehind(c, s, ti);
    hide Inv, HandleTimeout, PrecommitRule, PrevoteRule, Asks;
    if ti.step == PROPOSE {
      var id := ProposeTimeout(c, o, s, ti);
    } else if ti.step == PREVOTE_WAIT {
      var id := PrevoteTimeout(c, o, s, ti);
    } else if ti.step == PRECOMMIT_WAIT {
      PrecommitTimeout(c, o, s, ti);
    } else {
      CommitTimeout(c, o, s, ti);
    }
  }

  // ----- in every run

  ghost predicate AllSteady(g: Net) {
    forall n :: n in g.nodes ==> Steady(g.nodes[n])
  }

  lemma NextSteady(c: Chain, honest: set<nat>, g: Net, e: Event)
    requires AllSteady(g) && NetInv(c, honest, g) && Enabled(g, e)
    ensures AllSteady(Next(c, g, e))
  {
    hide Handle, Steady, Inv, ChoicesOk;
    if e.Deliver? {
      assert NodeOk(c, g, e.node);
      HandleSteady(c, e.oracle, g.nodes[e.node], e.input);
    }
  }

  /** In every state of every run the nodes are steady, so a node that waits has its timeout. */
  lemma {:induction false} RunSteady(c: Chain, honest: set<nat>, run: seq<Net>, events: seq<Event>, i: nat)
    requires MostlyHonest(c, honest) && IsRun(c, honest, run, events) && i < |run|
    ensures AllSteady(run[i])
  {
    hide MostlyHonest, NetInv, Next, Enabled;
    if i > 0 {
      RunSteady(c, honest, run, events, i - 1);
      RunOk(c, honest, run, events, i - 1);
      hide AllSteady;
      NextSteady(c, honest, run[i - 1], events[i - 1]);
    }
  }

  /** The timeout a node waits for, in the steps in which it waits for one. */
  predicate WaitsFor(s: RoundState, ti: Timeout) {
    && ti.height == s.height && ti.round == s.round
    && (if s.step in {NEW_HEIGHT, PROPOSE, PREVOTE_WAIT} then ti.step == s.step
        else s.step == PRECOMMIT && s.triggered && ti.step == PRECOMMIT_WAIT)
  }

  lemma WaitAdvances(c: Chain, o: Oracle, s: RoundState, ti: Timeout)
    requires Inv(c, s) && Steady(s) && !s.halted && WaitsFor(s, ti)
    ensures var s' := Handle(c, o, s, Tock(ti)); ti in s.scheduled && (s'.halted || At(s).Lt(At(s')))
  {
    hide Inv, HandleTimeout;
    if !HandleTimeout(c, o, s, ti).halted {
      TimeoutAdvances(c, o, s, ti);
    }
  }

  /** In every run, a node waiting for a timeout has it scheduled, and when it fires the node
      moves on, or has met a block that its pool refuses. */
  lemma {:induction false} WaitingEnds(c: Chain, honest: set<nat>, run: seq<Net>, events: seq<Event>, i: nat, n: nat,
                                       ti: Timeout, o: Oracle)
    requires MostlyHonest(c, honest) && IsRun(c, honest, run, events) && i < |run| && n in run[i].nodes
    requires var s := run[i].nodes[n]; !s.halted && WaitsFor(s, ti)
    ensures var s := run[i].nodes[n];
            var s' := Handle(c, o, s, Tock(ti));
            ti in s.scheduled && (s'.halted || At(s).Lt(At(s')))
  {
    hide IsRun, MostlyHonest, Inv, Handle, Steady, WaitsFor, ChoicesOk;
    RunSteady(c, honest, run, events, i);
    RunOk(c, honest, run, events, i);
    assert NodeOk(c, run[i], n);
    WaitAdvances(c, o, run[i].nodes[n], ti);
  }
}
