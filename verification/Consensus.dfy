/** consensus/state.go: the round state of one node and the transitions that
    timeouts, proposals, block parts and votes cause.

    Each function is one function of the source, on values.  The fields after
    `halted` are the node's history: what it received, signed, requested to be
    signed, scheduled and finalized. */
module Consensus {
  import opened Common
  import opened VoteSets

  // Steps are numeric and ordered, as in consensus/types/round_state.go.
  const NEW_HEIGHT := 1
  const NEW_ROUND := 2
  const PROPOSE := 3
  const PREVOTE := 4
  const PREVOTE_WAIT := 5
  const PRECOMMIT := 6
  const PRECOMMIT_WAIT := 7
  const COMMIT := 8

  datatype Kind = Prevote | Precommit

  datatype Vote = Vote(kind: Kind, height: nat, round: nat, id: BlockID, val: nat)

  datatype Timeout = Timeout(height: nat, round: nat, step: nat)

  datatype Proposal = Proposal(height: nat, round: nat, polRound: int, id: BlockID)

  /** A call of signAddVote: the vote it built, the round being entered, and
      whether the private validator signed it. */
  datatype Request = Request(vote: Vote, entered: nat, signed: bool)

  /** A set of parts being collected: the header it is for, and which of the node's sets it is. */
  datatype PartSet = PartSet(header: nat, id: nat)

  datatype LastCommit = NoCommit | LastCommit(round: nat, votes: VoteSet)

  /** Height, round and step. */
  datatype HRS = HRS(height: nat, round: nat, step: nat) {
    predicate Le(that: HRS) {
      height < that.height
      || (height == that.height && (round < that.round || (round == that.round && step <= that.step)))
    }

    predicate Lt(that: HRS) {
      Le(that) && this != that
    }
  }

  /** What is the same at every node: the validators in force at a height, by
      address, and whether a block is valid on top of the height before, its
      evidence apart. */
  datatype Chain = Chain(powers: nat -> seq<nat>, valid: (nat, nat) -> bool)

  /** What the transition cannot know: configuration, whether the node has a private
      validator and what that answers, whether the evidence in a block passes with the
      node's pool, and the outcome of ApplyBlock. */
  datatype Oracle = Oracle(
    keyed: bool,
    waitForTxs: bool,
    emptyBlocks: bool,
    skipTimeoutCommit: bool,
    signs: HRS -> bool,
    passes: (nat, nat) -> bool,
    applies: nat -> bool)

  /** Part sets are shared: `made` counts them, `complete` are those with all their parts.
      Vote sets are open up to the round `openRound`. */
  datatype RoundState = RoundState(
    self: nat,
    height: nat,
    round: nat,
    step: nat,
    proposal: Option<Proposal>,
    proposalBlock: Option<nat>,
    proposalParts: Option<PartSet>,
    lockedRound: int,
    lockedBlock: Option<nat>,
    lockedParts: Option<PartSet>,
    validRound: int,
    validBlock: Option<nat>,
    validParts: Option<PartSet>,
    made: nat,
    complete: set<nat>,
    openRound: nat,
    votes: map<(nat, Kind), VoteSet>,
    commitRound: int,
    lastCommit: LastCommit,
    triggered: bool,
    halted: bool,
    seen: set<Vote>,
    signed: set<Vote>,
    requests: seq<Request>,
    scheduled: set<Timeout>,
    finalized: set<(nat, nat)>)

  function At(s: RoundState): HRS {
    HRS(s.height, s.round, s.step)
  }

  function Tag(v: Vote): HRS {
    HRS(v.height, v.round, if v.kind.Prevote? then PREVOTE else PRECOMMIT)
  }

  function VotesAt(s: RoundState, round: int, kind: Kind): VoteSet {
    if round >= 0 && (round, kind) in s.votes then s.votes[(round, kind)] else EMPTY
  }

  function Majority(s: RoundState, round: int, kind: Kind): Option<BlockID> {
    VotesAt(s, round, kind).maj23
  }

  predicate AnyTwoThirds(c: Chain, s: RoundState, round: nat, kind: Kind) {
    TwoThirdsAny(c.powers(s.height), VotesAt(s, round, kind))
  }

  predicate HashesTo(block: Option<nat>, id: BlockID) {
    id.ID? && block == Some(id.hash)
  }

  /** The header of a part set, empty when there is none. */
  function Header(parts: Option<PartSet>): nat {
    if parts.Some? then parts.value.header else 0
  }

  predicate HasHeader(parts: Option<PartSet>, header: nat) {
    parts.Some? && parts.value.header == header
  }

  predicate IsComplete(s: RoundState, parts: Option<PartSet>) {
    parts.Some? && parts.value.id in s.complete
  }

  /** Starts collecting the parts of a header. */
  function Collect(s: RoundState, header: nat): RoundState {
    s.(proposalParts := Some(PartSet(header, s.made)), made := s.made + 1)
  }

  // ----- scheduling, signing

  function Halt(s: RoundState): RoundState {
    s.(halted := true)
  }

  function Schedule(s: RoundState, height: nat, round: nat, step: nat): RoundState {
    s.(scheduled := s.scheduled + {Timeout(height, round, step)})
  }

  /** Builds a vote tagged with the current round and asks for a signature. */
  function SignAddVote(c: Chain, o: Oracle, s: RoundState, kind: Kind, id: BlockID, entered: nat): RoundState {
    if !o.keyed || !IsValidator(c.powers(s.height), s.self) then s
    else
      var vote := Vote(kind, s.height, s.round, id, s.self);
      var ok := o.signs(Tag(vote));
      s.(requests := s.requests + [Request(vote, entered, ok)],
         signed := if ok then s.signed + {vote} else s.signed)
  }

  // ----- the enter functions

  predicate IsProposalComplete(s: RoundState) {
    && s.proposal.Some? && s.proposalBlock.Some?
    && (s.proposal.value.polRound < 0 || Majority(s, s.proposal.value.polRound, Prevote).Some?)
  }

  function EnterNewRound(c: Chain, o: Oracle, s: RoundState, height: nat, round: nat): RoundState {
    if s.halted || s.height != height || round < s.round || (s.round == round && s.step != NEW_HEIGHT) then s
    else
      var s1 := s.(round := round, step := NEW_ROUND, openRound := round + 1, triggered := false);
      var s2 := if round == 0 then s1 else s1.(proposal := None, proposalBlock := None, proposalParts := None);
      if o.waitForTxs && round == 0 && height > 1 then
        if o.emptyBlocks then Schedule(s2, height, round, NEW_ROUND) else s2
      else
        EnterPropose(c, o, s2, height, round)
  }

  function EnterPropose(c: Chain, o: Oracle, s: RoundState, height: nat, round: nat): RoundState {
    if s.halted || s.height != height || round < s.round || (s.round == round && PROPOSE <= s.step) then s
    else
      var s1 := Schedule(s, height, round, PROPOSE).(round := round, step := PROPOSE);
      if IsProposalComplete(s1) then EnterPrevote(c, o, s1, height, s1.round) else s1
  }

  /** ValidateBlock, at one node. */
  predicate Accepts(c: Chain, o: Oracle, height: nat, block: nat) {
    c.valid(height, block) && o.passes(height, block)
  }

  function PrevoteID(c: Chain, o: Oracle, s: RoundState): BlockID {
    if s.lockedBlock.Some? then ID(s.lockedBlock.value, Header(s.lockedParts))
    else if s.proposalBlock.None? || !Accepts(c, o, s.height, s.proposalBlock.value) then NilID
    else ID(s.proposalBlock.value, Header(s.proposalParts))
  }

  function EnterPrevote(c: Chain, o: Oracle, s: RoundState, height: nat, round: nat): RoundState {
    if s.halted || s.height != height || round < s.round || (s.round == round && PREVOTE <= s.step) then s
    else
      SignAddVote(c, o, s, Prevote, PrevoteID(c, o, s), round).(round := round, step := PREVOTE)
  }

  function EnterPrevoteWait(c: Chain, s: RoundState, height: nat, round: nat): RoundState {
    if s.halted || s.height != height || round < s.round || (s.round == round && PREVOTE_WAIT <= s.step) then s
    else if !AnyTwoThirds(c, s, round, Prevote) then Halt(s)
    else
      Schedule(s, height, round, PREVOTE_WAIT).(round := round, step := PREVOTE_WAIT)
  }

  function Unlock(s: RoundState): RoundState {
    s.(lockedRound := -1, lockedBlock := None, lockedParts := None)
  }

  /** POLInfo: the last open round up to r with +2/3 prevotes for one thing. */
  function PolRound(s: RoundState, r: nat): int {
    if Majority(s, r, Prevote).Some? then r
    else if r == 0 then -1 else PolRound(s, r - 1)
  }

  /** The lock, unlock or relock that entering precommit causes, and the vote. */
  function DoPrecommit(c: Chain, o: Oracle, s: RoundState, round: nat): RoundState {
    match Majority(s, round, Prevote)
    case None => SignAddVote(c, o, s, Precommit, NilID, round)
    case Some(id) => if PolRound(s, s.openRound) < round then Halt(s) else LockOn(c, o, s, round, id)
  }

  function LockOn(c: Chain, o: Oracle, s: RoundState, round: nat, id: BlockID): RoundState {
    match id
    case NilID => SignAddVote(c, o, Unlock(s), Precommit, NilID, round)
    case ID(hash, parts) =>
      if s.lockedBlock == Some(hash) then
        SignAddVote(c, o, s.(lockedRound := round), Precommit, id, round)
      else if s.proposalBlock == Some(hash) then
        if !Accepts(c, o, s.height, hash) then Halt(s)
        else
          SignAddVote(c, o,
            s.(lockedRound := round, lockedBlock := s.proposalBlock, lockedParts := s.proposalParts),
            Precommit, id, round)
      else
        SignAddVote(c, o, Await(Unlock(s), parts), Precommit, NilID, round)
  }

  /** Start collecting the parts of another block, unless they are collected already. */
  function Await(s: RoundState, parts: nat): RoundState {
    if HasHeader(s.proposalParts, parts) then s else Collect(s.(proposalBlock := None), parts)
  }

  function EnterPrecommit(c: Chain, o: Oracle, s: RoundState, height: nat, round: nat): RoundState {
    if s.halted || s.height != height || round < s.round || (s.round == round && PRECOMMIT <= s.step) then s
    else
      var s1 := DoPrecommit(c, o, s, round);
      if s1.halted then s1 else s1.(round := round, step := PRECOMMIT)
  }

  function EnterPrecommitWait(c: Chain, s: RoundState, height: nat, round: nat): RoundState {
    if s.halted || s.height != height || round < s.round || (s.round == round && s.triggered) then s
    else if !AnyTwoThirds(c, s, round, Precommit) then Halt(s)
    else
      Schedule(s, height, round, PRECOMMIT_WAIT).(triggered := true)
  }

  function EnterCommit(c: Chain, o: Oracle, s: RoundState, height: nat, commitRound: nat): RoundState {
    if s.halted || s.height != height || COMMIT <= s.step then s
    else
      match Majority(s, commitRound, Precommit)
      case None => Halt(s)
      case Some(id) => TryFinalizeCommit(c, o, IntoCommit(s, id, commitRound), height)
  }

  /** The committed block is the locked one, the proposed one, or still to come. */
  function IntoCommit(s: RoundState, id: BlockID, commitRound: nat): RoundState {
    var s1 := if HashesTo(s.lockedBlock, id)
              then s.(proposalBlock := s.lockedBlock, proposalParts := s.lockedParts) else s;
    var s2 := if id.ID? && !HashesTo(s1.proposalBlock, id) then Await(s1, id.parts) else s1;
    s2.(step := COMMIT, commitRound := commitRound)
  }

  function TryFinalizeCommit(c: Chain, o: Oracle, s: RoundState, height: nat): RoundState {
    if s.height != height then Halt(s)
    else
      match Majority(s, s.commitRound, Precommit)
      case None => s
      case Some(id) => if HashesTo(s.proposalBlock, id) then FinalizeCommit(c, o, s, height) else s
  }

  /** The block store has the height. */
  predicate Saved(s: RoundState, height: nat) {
    exists f :: f in s.finalized && f.0 == height
  }

  /** SaveBlock, at the end of the checks, refuses a part set that is not complete. */
  function FinalizeCommit(c: Chain, o: Oracle, s: RoundState, height: nat): RoundState {
    if s.height != height || s.step != COMMIT then s
    else
      match Majority(s, s.commitRound, Precommit)
      case None => Halt(s)
      case Some(id) =>
        if id.NilID? || !HasHeader(s.proposalParts, id.parts) || !HashesTo(s.proposalBlock, id)
           || !Accepts(c, o, height, id.hash) then Halt(s)
        else if !Saved(s, height) && !IsComplete(s, s.proposalParts) then Halt(s)
        else
          var s1 := s.(finalized := s.finalized + {(height, id.hash)});
          if !o.applies(height) then s1
          else
            var s2 := UpdateToState(s1);
            Schedule(s2, s2.height, 0, NEW_HEIGHT)
  }

  /** Moves to the next height; the precommits that committed become LastCommit. */
  function UpdateToState(s: RoundState): RoundState {
    s.(height := s.height + 1, round := 0, step := NEW_HEIGHT,
       proposal := None, proposalBlock := None, proposalParts := None,
       lockedRound := -1, lockedBlock := None, lockedParts := None,
       validRound := -1, validBlock := None, validParts := None,
       votes := map[], openRound := 0, commitRound := -1, triggered := false,
       lastCommit := if s.commitRound >= 0
                     then LastCommit(s.commitRound, VotesAt(s, s.commitRound, Precommit)) else s.lastCommit)
  }

  // ----- what arrives

  function HandleTimeout(c: Chain, o: Oracle, s: RoundState, ti: Timeout): RoundState {
    if ti.height != s.height || ti.round < s.round || (ti.round == s.round && ti.step < s.step) then s
    else if ti.step == NEW_HEIGHT then EnterNewRound(c, o, s, ti.height, 0)
    else if ti.step == NEW_ROUND then EnterPropose(c, o, s, ti.height, 0)
    else if ti.step == PROPOSE then EnterPrevote(c, o, s, ti.height, ti.round)
    else if ti.step == PREVOTE_WAIT then EnterPrecommit(c, o, s, ti.height, ti.round)
    else if ti.step == PRECOMMIT_WAIT then
      EnterNewRound(c, o, EnterPrecommit(c, o, s, ti.height, ti.round), ti.height, ti.round + 1)
    else Halt(s)
  }

  function HandleTxsAvailable(c: Chain, o: Oracle, s: RoundState): RoundState {
    if s.round != 0 || s.step != NEW_ROUND then s else EnterPropose(c, o, s, s.height, 0)
  }

  function SetProposal(s: RoundState, p: Proposal, authentic: bool): RoundState {
    if s.proposal.Some? || p.height != s.height || p.round != s.round
       || p.polRound < -1 || (p.polRound >= 0 && p.polRound >= p.round) || !authentic then s
    else
      var s1 := s.(proposal := Some(p));
      if s.proposalParts.None? && p.id.ID? then Collect(s1, p.id.parts) else s1
  }

  function SetValid(s: RoundState, round: nat): RoundState {
    s.(validRound := round, validBlock := s.proposalBlock, validParts := s.proposalParts)
  }

  /** The last missing part has arrived; the parts make up a block that passes CheckBlock, or
      do not. */
  function AddBlock(c: Chain, o: Oracle, s: RoundState, height: nat, block: Option<nat>): RoundState {
    if s.height != height || s.proposalParts.None? || IsComplete(s, s.proposalParts) then s
    else
      var s1 := s.(complete := s.complete + {s.proposalParts.value.id});
      if block.None? then s1 else ReceiveBlock(c, o, s1.(proposalBlock := block), height)
  }

  function ReceiveBlock(c: Chain, o: Oracle, s: RoundState, height: nat): RoundState {
    var maj, s1 := Majority(s, s.round, Prevote), ValidOnPolka(s);
    if s1.step <= PROPOSE && IsProposalComplete(s1) then
      var s2 := EnterPrevote(c, o, s1, height, s1.round);
      if maj.Some? then EnterPrecommit(c, o, s2, height, s2.round) else s2
    else if s1.step == COMMIT then TryFinalizeCommit(c, o, s1, height)
    else s1
  }

  function ValidOnPolka(s: RoundState): RoundState {
    var maj := Majority(s, s.round, Prevote);
    if maj.Some? && s.validRound < s.round && HashesTo(s.proposalBlock, maj.value) then SetValid(s, s.round) else s
  }

  function HandleMaj23(s: RoundState, round: nat, kind: Kind, peer: nat, id: BlockID): RoundState {
    s.(votes := s.votes[(round, kind) := Claim(VotesAt(s, round, kind), peer, id)])
  }

  /** A late precommit of the previous height. */
  function AddLateVote(c: Chain, o: Oracle, s: RoundState, vote: Vote): RoundState {
    if s.step != NEW_HEIGHT then s
    else if s.lastCommit.NoCommit? then Halt(s)
    else if vote.round != s.lastCommit.round then s
    else
      var powers := c.powers(vote.height);
      var (vs, added) := AddVote(powers, s.lastCommit.votes, vote.val, vote.id);
      var s1 := s.(lastCommit := s.lastCommit.(votes := vs));
      var s2 := if added && o.skipTimeoutCommit && HasAll(powers, vs)
                then EnterNewRound(c, o, s1, s1.height, 0) else s1;
      Report(o, s2, Conflicts(powers, s.lastCommit.votes, vote.val, vote.id))
  }

  /** A conflicting vote is reported once it is dealt with, which takes the node's own key. */
  function Report(o: Oracle, s: RoundState, conflict: bool): RoundState {
    if conflict && !o.keyed then Halt(s) else s
  }

  /** Puts a vote of the current height in its vote set. */
  function Record(c: Chain, s: RoundState, vote: Vote): (RoundState, bool) {
    var (vs, added) := AddVote(c.powers(s.height), VotesAt(s, vote.round, vote.kind), vote.val, vote.id);
    (s.(votes := s.votes[(vote.round, vote.kind) := vs], seen := s.seen + {vote}), added)
  }

  function AddVoteMsg(c: Chain, o: Oracle, s: RoundState, vote: Vote): RoundState {
    if vote.height + 1 == s.height && vote.kind.Precommit? then AddLateVote(c, o, s, vote)
    else if vote.height != s.height then s
    else
      var (s1, added) := Record(c, s, vote);
      var s2 := if !added then s1
                else if vote.kind.Prevote? then AfterPrevote(c, o, s1, vote.round)
                else AfterPrecommit(c, o, s1, vote.round);
      Report(o, s2, Conflicts(c.powers(s.height), VotesAt(s, vote.round, vote.kind), vote.val, vote.id))
  }

  /** A polka for another block in (LockedRound, Round] releases the lock. */
  predicate Releases(s: RoundState, round: nat, id: BlockID) {
    s.lockedBlock.Some? && s.lockedRound < round <= s.round && !HashesTo(s.lockedBlock, id)
  }

  function MaybeUnlock(s: RoundState, round: nat, id: BlockID): RoundState {
    if Releases(s, round, id) then Unlock(s) else s
  }

  function MaybeSetValid(s: RoundState, round: nat, id: BlockID): RoundState {
    if id.NilID? || s.validRound >= round || round != s.round then s
    else
      var s1 := if HashesTo(s.proposalBlock, id) then SetValid(s, round) else s.(proposalBlock := None);
      if HasHeader(s1.proposalParts, id.parts) then s1 else Collect(s1, id.parts)
  }

  /** savePOLC keeps the prevotes that released a lock, past round 0, under the node's key. */
  function AfterPrevote(c: Chain, o: Oracle, s: RoundState, round: nat): RoundState {
    match Majority(s, round, Prevote)
    case None => ReactToPrevotes(c, o, s, round, None)
    case Some(id) =>
      if Releases(s, round, id) && round > 0 && !o.keyed then Halt(Unlock(s))
      else ReactToPrevotes(c, o, MaybeSetValid(MaybeUnlock(s, round, id), round, id), round, Some(id))
  }

  function ReactToPrevotes(c: Chain, o: Oracle, s: RoundState, round: nat, maj: Option<BlockID>): RoundState {
    if s.round < round && AnyTwoThirds(c, s, round, Prevote) then
      EnterNewRound(c, o, s, s.height, round)
    else if s.round == round && PREVOTE <= s.step then
      if maj.Some? && (IsProposalComplete(s) || maj.value.NilID?) then EnterPrecommit(c, o, s, s.height, round)
      else if AnyTwoThirds(c, s, round, Prevote) then EnterPrevoteWait(c, s, s.height, round)
      else s
    else if s.proposal.Some? && s.proposal.value.polRound == round && IsProposalComplete(s) then
      EnterPrevote(c, o, s, s.height, s.round)
    else s
  }

  function AfterPrecommit(c: Chain, o: Oracle, s: RoundState, round: nat): RoundState {
    var maj := Majority(s, round, Precommit);
    if maj.Some? then
      var s1 := EnterNewRound(c, o, s, s.height, round);
      var s2 := EnterPrecommit(c, o, s1, s.height, round);
      if maj.value.ID? then
        var s3 := EnterCommit(c, o, s2, s.height, round);
        if o.skipTimeoutCommit && HasAll(c.powers(s.height), VotesAt(s, round, Precommit))
        then EnterNewRound(c, o, s3, s3.height, 0) else s3
      else
        EnterPrecommitWait(c, s2, s.height, round)
    else if s.round <= round && AnyTwoThirds(c, s, round, Precommit) then
      EnterPrecommitWait(c, EnterNewRound(c, o, s, s.height, round), s.height, round)
    else s
  }

  datatype Input =
    | VoteMsg(vote: Vote)
    | ProposalMsg(proposal: Proposal, authentic: bool)
    | BlockMsg(blockHeight: nat, block: Option<nat>)
    | Tock(ti: Timeout)
    | TxsAvailable
    | Maj23Msg(round: nat, kind: Kind, peer: nat, id: BlockID)

  /** receiveRoutine: one message or timeout is handled at a time, until a panic. */
  function Handle(c: Chain, o: Oracle, s: RoundState, input: Input): RoundState {
    if s.halted then s
    else
      match input
      case VoteMsg(vote) => AddVoteMsg(c, o, s, vote)
      case ProposalMsg(p, authentic) => SetProposal(s, p, authentic)
      case BlockMsg(height, block) => AddBlock(c, o, s, height, block)
      case Tock(ti) => HandleTimeout(c, o, s, ti)
      case TxsAvailable => HandleTxsAvailable(c, o, s)
      case Maj23Msg(round, kind, peer, id) => HandleMaj23(s, round, kind, peer, id)
  }

  /** A node before its first round. */
  function Start(self: nat): RoundState {
    RoundState(self, 1, 0, NEW_HEIGHT, None, None, None, -1, None, None, -1, None, None,
               0, {}, 0, map[], -1, NoCommit, false, false, {}, {}, [], {Timeout(1, 0, NEW_HEIGHT)}, {})
  }
}
