/** consensus/state.go in its own form: a node whose methods update its round
    state in place.  Each method is proved to take the step of module Consensus. */
module ConsensusState {
  import opened Common
  import opened VoteSets
  import opened Consensus

  class State {
    const chain: Chain
    const self: nat
    var height: nat
    var round: nat
    var step: nat
    var proposal: Option<Proposal>
    var proposalBlock: Option<nat>
    var proposalParts: Option<PartSet>
    var lockedRound: int
    var lockedBlock: Option<nat>
    var lockedParts: Option<PartSet>
    var validRound: int
    var validBlock: Option<nat>
    var validParts: Option<PartSet>
    var made: nat
    var complete: set<nat>
    var openRound: nat
    var votes: map<(nat, Kind), VoteSet>
    var commitRound: int
    var lastCommit: LastCommit
    var triggered: bool
    var halted: bool
    var seen: set<Vote>
    var signed: set<Vote>
    var requests: seq<Request>
    var scheduled: set<Timeout>
    var finalized: set<(nat, nat)>

    function Value(): RoundState
      reads this
    {
      RoundState(self, height, round, step, proposal, proposalBlock, proposalParts,
                 lockedRound, lockedBlock, lockedParts,
                 validRound, validBlock, validParts, made, complete, openRound,
                 votes, commitRound, lastCommit, triggered, halted,
                 seen, signed, requests, scheduled, finalized)
    }

    constructor (chain: Chain, self: nat)
      ensures this.chain == chain && Value() == Start(self)
    {
      this.chain, this.self := chain, self;
      height, round, step := 1, 0, NEW_HEIGHT;
      proposal, proposalBlock, proposalParts := None, None, None;
      lockedRound, lockedBlock, lockedParts := -1, None, None;
      validRound, validBlock, validParts := -1, None, None;
      made, complete, openRound := 0, {}, 0;
      votes, commitRound, lastCommit, triggered, halted := map[], -1, NoCommit, false, false;
      seen, signed, requests, scheduled, finalized := {}, {}, [], {Timeout(1, 0, NEW_HEIGHT)}, {};
    }

    method UpdateRoundStep(round: nat, step: nat)
      modifies this`round, this`step
      ensures Value() == old(Value()).(round := round, step := step)
    {
      this.round := round;
      this.step := step;
    }

    method ScheduleTimeout(height: nat, round: nat, step: nat)
      modifies this`scheduled
      ensures Value() == Schedule(old(Value()), height, round, step)
    {
      scheduled := scheduled + {Timeout(height, round, step)};
    }

    /** A panic: the deferred recover stops the node. */
    method Panic()
      modifies this`halted
      ensures Value() == Halt(old(Value()))
    {
      halted := true;
    }

    method SignAdd(o: Oracle, kind: Kind, id: BlockID, entered: nat)
      modifies this`requests, this`signed
      ensures Value() == SignAddVote(chain, o, old(Value()), kind, id, entered)
    {
      if !o.keyed || !IsValidator(chain.powers(height), self) {
        return;
      }
      var vote := Vote(kind, height, round, id, self);
      var ok := o.signs(Tag(vote));
      requests := requests + [Request(vote, entered, ok)];
      if ok {
        signed := signed + {vote};
      }
    }

    method StartRound(o: Oracle, height: nat, round: nat)
      modifies this
      ensures Value() == EnterNewRound(chain, o, old(Value()), height, round)
    {
      hide EnterPropose;
      if halted || this.height != height || round < this.round || (this.round == round && step != NEW_HEIGHT) {
        return;
      }
      UpdateRoundStep(round, NEW_ROUND);
      if round != 0 {
        ClearProposal();
      }
      OpenTo(round + 1);
      if o.waitForTxs && round == 0 && height > 1 {
        if o.emptyBlocks {
          ScheduleTimeout(height, round, NEW_ROUND);
        }
      } else {
        StartPropose(o, height, round);
      }
    }

    method StartPropose(o: Oracle, height: nat, round: nat)
      modifies this
      ensures Value() == EnterPropose(chain, o, old(Value()), height, round)
    {
      hide EnterPrevote;
      if halted || this.height != height || round < this.round || (this.round == round && PROPOSE <= step) {
        return;
      }
      ScheduleTimeout(height, round, PROPOSE);
      UpdateRoundStep(round, PROPOSE);
      if IsProposalComplete(Value()) {
        StartPrevote(o, height, this.round);
      }
    }

    method StartPrevote(o: Oracle, height: nat, round: nat)
      modifies this
      ensures Value() == EnterPrevote(chain, o, old(Value()), height, round)
    {
      if halted || this.height != height || round < this.round || (this.round == round && PREVOTE <= step) {
        return;
      }
      if lockedBlock.Some? {
        SignAdd(o, Prevote, ID(lockedBlock.value, Header(lockedParts)), round);
      } else if proposalBlock.None? {
        SignAdd(o, Prevote, NilID, round);
      } else if !Accepts(chain, o, height, proposalBlock.value) {
        SignAdd(o, Prevote, NilID, round);
      } else {
        SignAdd(o, Prevote, ID(proposalBlock.value, Header(proposalParts)), round);
      }
      UpdateRoundStep(round, PREVOTE);
    }

    method StartPrevoteWait(height: nat, round: nat)
      modifies this
      ensures Value() == EnterPrevoteWait(chain, old(Value()), height, round)
    {
      if halted || this.height != height || round < this.round || (this.round == round && PREVOTE_WAIT <= step) {
        return;
      }
      if !AnyTwoThirds(chain, Value(), round, Prevote) {
        Panic();
        return;
      }
      ScheduleTimeout(height, round, PREVOTE_WAIT);
      UpdateRoundStep(round, PREVOTE_WAIT);
    }

    method ClearLock()
      modifies this`lockedRound, this`lockedBlock, this`lockedParts
      ensures Value() == Unlock(old(Value()))
    {
      lockedRound := -1;
      lockedBlock := None;
      lockedParts := None;
    }

    method ClearProposal()
      modifies this`proposal, this`proposalBlock, this`proposalParts
      ensures Value() == old(Value()).(proposal := None, proposalBlock := None, proposalParts := None)
    {
      proposal := None;
      proposalBlock := None;
      proposalParts := None;
    }

    /** A new part set, still empty. */
    method CollectParts(header: nat)
      modifies this`proposalParts, this`made
      ensures Value() == Collect(old(Value()), header)
    {
      proposalParts := Some(PartSet(header, made));
      made := made + 1;
    }

    method AwaitParts(parts: nat)
      modifies this`proposalBlock, this`proposalParts, this`made
      ensures Value() == Await(old(Value()), parts)
    {
      if !HasHeader(proposalParts, parts) {
        proposalBlock := None;
        CollectParts(parts);
      }
    }

    method SetLock(round: nat, block: Option<nat>, parts: Option<PartSet>)
      modifies this`lockedRound, this`lockedBlock, this`lockedParts
      ensures Value() == old(Value()).(lockedRound := round, lockedBlock := block, lockedParts := parts)
    {
      lockedRound := round;
      lockedBlock := block;
      lockedParts := parts;
    }

    /** POLInfo: from the last open round down. */
    method PolInfo() returns (r: int)
      ensures r == PolRound(Value(), openRound)
    {
      r := openRound;
      while r >= 0
        invariant -1 <= r <= openRound
        invariant PolRound(Value(), openRound) == if r >= 0 then PolRound(Value(), r) else -1
      {
        if Majority(Value(), r, Prevote).Some? {
          return;
        }
        r := r - 1;
      }
    }

    /** Precommit nil without a polka, or what the polka says. */
    method Precommits(o: Oracle, round: nat)
      modifies this
      ensures Value() == DoPrecommit(chain, o, old(Value()), round)
    {
      hide SignAddVote, LockOn, VotesAt, PolRound;
      var maj := Majority(Value(), round, Prevote);
      if maj.None? {
        SignAdd(o, Precommit, NilID, round);
        return;
      }
      var polRound := PolInfo();
      if polRound < round {
        Panic();
        return;
      }
      LockAndPrecommit(o, round, maj.value);
    }

    /** Lock, relock or unlock on the polka of the round, and precommit. */
    method LockAndPrecommit(o: Oracle, round: nat, id: BlockID)
      modifies this
      ensures Value() == LockOn(chain, o, old(Value()), round, id)
    {
      hide SignAddVote, Unlock, Await;
      if id.NilID? {
        ClearLock();
        SignAdd(o, Precommit, NilID, round);
      } else if HashesTo(lockedBlock, id) {
        SetLock(round, lockedBlock, lockedParts);
        SignAdd(o, Precommit, id, round);
      } else if HashesTo(proposalBlock, id) {
        if !Accepts(chain, o, height, id.hash) {
          Panic();
        } else {
          SetLock(round, proposalBlock, proposalParts);
          SignAdd(o, Precommit, id, round);
        }
      } else {
        ClearLock();
        AwaitParts(id.parts);
        SignAdd(o, Precommit, NilID, round);
      }
    }

    method StartPrecommit(o: Oracle, height: nat, round: nat)
      modifies this
      ensures Value() == EnterPrecommit(chain, o, old(Value()), height, round)
    {
      hide DoPrecommit;
      if halted || this.height != height || round < this.round || (this.round == round && PRECOMMIT <= step) {
        return;
      }
      Precommits(o, round);
      if !halted {
        UpdateRoundStep(round, PRECOMMIT);
      }
    }

    method StartPrecommitWait(height: nat, round: nat)
      modifies this
      ensures Value() == EnterPrecommitWait(chain, old(Value()), height, round)
    {
      if halted || this.height != height || round < this.round || (this.round == round && triggered) {
        return;
      }
      if !AnyTwoThirds(chain, Value(), round, Precommit) {
        Panic();
        return;
      }
      ScheduleTimeout(height, round, PRECOMMIT_WAIT);
      triggered := true;
    }

    method StartCommit(o: Oracle, height: nat, commitRound: nat)
      modifies this
      ensures Value() == EnterCommit(chain, o, old(Value()), height, commitRound)
    {
      hide TryFinalizeCommit, VotesAt;
      if halted || this.height != height || COMMIT <= step {
        return;
      }
      var maj := Majority(Value(), commitRound, Precommit);
      if maj.None? {
        Panic();
        return;
      }
      TakeLocked(maj.value);
      if maj.value.ID? && !HashesTo(proposalBlock, maj.value) {
        AwaitParts(maj.value.parts);
      }
      UpdateRoundStep(round, COMMIT);
      SetCommitRound(commitRound);
      TryFinalize(o, height);
    }

    method TakeLocked(id: BlockID)
      modifies this`proposalBlock, this`proposalParts
      ensures Value() == if HashesTo(old(lockedBlock), id)
                         then old(Value()).(proposalBlock := old(lockedBlock), proposalParts := old(lockedParts))
                         else old(Value())
    {
      if HashesTo(lockedBlock, id) {
        proposalBlock := lockedBlock;
        proposalParts := lockedParts;
      }
    }

    method SetCommitRound(commitRound: nat)
      modifies this`commitRound
      ensures Value() == old(Value()).(commitRound := commitRound)
    {
      this.commitRound := commitRound;
    }

    method TryFinalize(o: Oracle, height: nat)
      modifies this
      ensures Value() == TryFinalizeCommit(chain, o, old(Value()), height)
    {
      hide FinalizeCommit, VotesAt;
      if this.height != height {
        Panic();
        return;
      }
      var maj := Majority(Value(), commitRound, Precommit);
      if maj.None? || !HashesTo(proposalBlock, maj.value) {
        return;
      }
      Finalize(o, height);
    }

    method Finalize(o: Oracle, height: nat)
      modifies this
      ensures Value() == FinalizeCommit(chain, o, old(Value()), height)
    {
      hide UpdateToState, VotesAt;
      if this.height != height || step != COMMIT {
        return;
      }
      var maj := Majority(Value(), commitRound, Precommit);
      if maj.None? || maj.value.NilID? || !HasHeader(proposalParts, maj.value.parts)
         || !HashesTo(proposalBlock, maj.value) || !Accepts(chain, o, height, maj.value.hash)
      {
        Panic();
        return;
      }
      if !Saved(Value(), height) && !IsComplete(Value(), proposalParts) {
        Panic();
        return;
      }
      finalized := finalized + {(height, maj.value.hash)};
      if !o.applies(height) {
        return;
      }
      UpdateTo();
      ScheduleTimeout(this.height, 0, NEW_HEIGHT);
    }

    /** Empties the vote sets and the commit round for a new height. */
    method ResetVotes()
      modifies this`votes, this`commitRound
      ensures Value() == old(Value()).(votes := map[], commitRound := -1)
    {
      votes := map[];
      commitRound := -1;
    }

    method OpenTo(rounds: nat)
      modifies this`openRound, this`triggered
      ensures Value() == old(Value()).(openRound := rounds, triggered := false)
    {
      openRound := rounds;
      triggered := false;
    }

    method ClearValid()
      modifies this`validRound, this`validBlock, this`validParts
      ensures Value() == old(Value()).(validRound := -1, validBlock := None, validParts := None)
    {
      validRound := -1;
      validBlock := None;
      validParts := None;
    }

    method UpdateTo()
      modifies this
      ensures Value() == UpdateToState(old(Value()))
    {
      hide VotesAt;
      if commitRound >= 0 {
        lastCommit := LastCommit(commitRound, VotesAt(Value(), commitRound, Precommit));
      }
      height := height + 1;
      UpdateRoundStep(0, NEW_HEIGHT);
      ClearProposal();
      ClearLock();
      ClearValid();
      ResetVotes();
      OpenTo(0);
    }

    method OnTimeout(o: Oracle, ti: Timeout)
      modifies this
      ensures Value() == HandleTimeout(chain, o, old(Value()), ti)
    {
      if ti.height != height || ti.round < round || (ti.round == round && ti.step < step) {
        return;
      }
      if ti.step == NEW_HEIGHT {
        StartRound(o, ti.height, 0);
      } else if ti.step == NEW_ROUND {
        StartPropose(o, ti.height, 0);
      } else if ti.step == PROPOSE {
        StartPrevote(o, ti.height, ti.round);
      } else if ti.step == PREVOTE_WAIT {
        StartPrecommit(o, ti.height, ti.round);
      } else if ti.step == PRECOMMIT_WAIT {
        StartPrecommit(o, ti.height, ti.round);
        StartRound(o, ti.height, ti.round + 1);
      } else {
        Panic();
      }
    }

    method OnProposal(p: Proposal, authentic: bool)
      modifies this
      ensures Value() == SetProposal(old(Value()), p, authentic)
    {
      if proposal.Some? || p.height != height || p.round != round {
        return;
      }
      if p.polRound < -1 || (p.polRound >= 0 && p.polRound >= p.round) || !authentic {
        return;
      }
      proposal := Some(p);
      if proposalParts.None? && p.id.ID? {
        CollectParts(p.id.parts);
      }
    }

    method RaiseValid(round: nat)
      modifies this`validRound, this`validBlock, this`validParts
      ensures Value() == SetValid(old(Value()), round)
    {
      validRound := round;
      validBlock := proposalBlock;
      validParts := proposalParts;
    }

    method OnBlock(o: Oracle, height: nat, block: Option<nat>)
      modifies this
      ensures Value() == AddBlock(chain, o, old(Value()), height, block)
    {
      hide ReceiveBlock;
      if this.height != height || proposalParts.None? || IsComplete(Value(), proposalParts) {
        return;
      }
      complete := complete + {proposalParts.value.id};
      if block.None? {
        return;
      }
      proposalBlock := block;
      OnWholeBlock(o, height);
    }

    method OnWholeBlock(o: Oracle, height: nat)
      modifies this
      ensures Value() == ReceiveBlock(chain, o, old(Value()), height)
    {
      hide EnterPrevote, EnterPrecommit, TryFinalizeCommit, VotesAt;
      var maj := Majority(Value(), round, Prevote);
      if maj.Some? && validRound < round && HashesTo(proposalBlock, maj.value) {
        RaiseValid(round);
      }
      if step <= PROPOSE && IsProposalComplete(Value()) {
        StartPrevote(o, height, round);
        if maj.Some? {
          StartPrecommit(o, height, round);
        }
      } else if step == COMMIT {
        TryFinalize(o, height);
      }
    }

    /** What tryAddVote does about a conflict. */
    method ReportConflict(o: Oracle, conflict: bool)
      modifies this`halted
      ensures Value() == Report(o, old(Value()), conflict)
    {
      if conflict && !o.keyed {
        Panic();
      }
    }

    method OnLateVote(o: Oracle, vote: Vote)
      modifies this
      ensures Value() == AddLateVote(chain, o, old(Value()), vote)
    {
      if step != NEW_HEIGHT {
        return;
      }
      if lastCommit.NoCommit? {
        Panic();
        return;
      }
      if vote.round != lastCommit.round {
        return;
      }
      var powers := chain.powers(vote.height);
      var conflict := Conflicts(powers, lastCommit.votes, vote.val, vote.id);
      var (vs, added) := AddVote(powers, lastCommit.votes, vote.val, vote.id);
      lastCommit := lastCommit.(votes := vs);
      if added && o.skipTimeoutCommit && HasAll(powers, vs) {
        StartRound(o, height, 0);
      }
      ReportConflict(o, conflict);
    }

    method Record(vote: Vote, vs: VoteSet)
      modifies this`votes, this`seen
      ensures Value() == old(Value()).(votes := old(votes)[(vote.round, vote.kind) := vs], seen := old(seen) + {vote})
    {
      votes := votes[(vote.round, vote.kind) := vs];
      seen := seen + {vote};
    }

    method OnVote(o: Oracle, vote: Vote)
      modifies this
      ensures Value() == AddVoteMsg(chain, o, old(Value()), vote)
    {
      if vote.height + 1 == height && vote.kind.Precommit? {
        OnLateVote(o, vote);
        return;
      }
      if vote.height != height {
        return;
      }
      var before := VotesAt(Value(), vote.round, vote.kind);
      var conflict := Conflicts(chain.powers(height), before, vote.val, vote.id);
      var (vs, added) := AddVote(chain.powers(height), before, vote.val, vote.id);
      Record(vote, vs);
      if added {
        if vote.kind.Prevote? {
          OnPrevoteAdded(o, vote.round);
        } else {
          OnPrecommitAdded(o, vote.round);
        }
      }
      ReportConflict(o, conflict);
    }

    method RaiseOnPolka(round: nat, id: BlockID)
      modifies this
      ensures Value() == MaybeSetValid(old(Value()), round, id)
    {
      if id.ID? && validRound < round && round == this.round {
        if HashesTo(proposalBlock, id) {
          RaiseValid(round);
        } else {
          proposalBlock := None;
        }
        if !HasHeader(proposalParts, id.parts) {
          CollectParts(id.parts);
        }
      }
    }

    method OnPrevoteAdded(o: Oracle, round: nat)
      modifies this
      ensures Value() == AfterPrevote(chain, o, old(Value()), round)
    {
      hide ReactToPrevotes, MaybeSetValid, VotesAt;
      var maj := Majority(Value(), round, Prevote);
      if maj.Some? {
        if Releases(Value(), round, maj.value) {
          ClearLock();
          if round > 0 && !o.keyed {
            Panic();
            return;
          }
        }
        RaiseOnPolka(round, maj.value);
      }
      React(o, round, maj);
    }

    method React(o: Oracle, round: nat, maj: Option<BlockID>)
      modifies this
      ensures Value() == ReactToPrevotes(chain, o, old(Value()), round, maj)
    {
      hide EnterNewRound, EnterPrevote, EnterPrecommit, EnterPrevoteWait, VotesAt;
      if this.round < round && AnyTwoThirds(chain, Value(), round, Prevote) {
        StartRound(o, height, round);
      } else if this.round == round && PREVOTE <= step {
        if maj.Some? && (IsProposalComplete(Value()) || maj.value.NilID?) {
          StartPrecommit(o, height, round);
        } else if AnyTwoThirds(chain, Value(), round, Prevote) {
          StartPrevoteWait(height, round);
        }
      } else if proposal.Some? && proposal.value.polRound == round && IsProposalComplete(Value()) {
        StartPrevote(o, height, this.round);
      }
    }

    method OnPrecommitAdded(o: Oracle, round: nat)
      modifies this
      ensures Value() == AfterPrecommit(chain, o, old(Value()), round)
    {
      var height := this.height;
      var all := HasAll(chain.powers(height), VotesAt(Value(), round, Precommit));
      var maj := Majority(Value(), round, Precommit);
      if maj.Some? {
        StartRound(o, height, round);
        StartPrecommit(o, height, round);
        if maj.value.ID? {
          StartCommit(o, height, round);
          if o.skipTimeoutCommit && all {
            StartRound(o, this.height, 0);
          }
        } else {
          StartPrecommitWait(height, round);
        }
      } else if this.round <= round && AnyTwoThirds(chain, Value(), round, Precommit) {
        StartRound(o, height, round);
        StartPrecommitWait(height, round);
      }
    }

    /** One pass of receiveRoutine. */
    method Receive(o: Oracle, input: Input)
      modifies this
      ensures Value() == Handle(chain, o, old(Value()), input)
    {
      if halted {
        return;
      }
      match input
      case VoteMsg(vote) => OnVote(o, vote);
      case ProposalMsg(p, authentic) => OnProposal(p, authentic);
      case BlockMsg(h, block) => OnBlock(o, h, block);
      case Tock(ti) => OnTimeout(o, ti);
      case TxsAvailable =>
        if round == 0 && step == NEW_ROUND {
          StartPropose(o, height, 0);
        }
      case Maj23Msg(r, kind, peer, id) =>
        votes := votes[(r, kind) := Claim(VotesAt(Value(), r, kind), peer, id)];
    }
  }
}
