/** A round that decides: a node with the proposed block finalizes it on the precommits of
    +2/3, in whatever order the round's votes for it arrive. */
module Deciding {
  import opened Common
  import opened Quorums
  import opened VoteSets
  import opened VoteCounting
  import opened Consensus
  import opened ConsensusInvariants
  import Halting

  /** The block's own part set, all there. */
  predicate Whole(s: RoundState, parts: Option<PartSet>, id: BlockID) {
    id.ID? && HasHeader(parts, id.parts) && IsComplete(s, parts)
  }

  /** The node holds the proposed block whole, and if it is locked, it is on that block. */
  ghost predicate Holds(s: RoundState, id: BlockID) {
    && id.ID? && !s.halted && PREVOTE <= s.step < COMMIT
    && IsProposalComplete(s) && s.proposalBlock == Some(id.hash) && Whole(s, s.proposalParts, id)
    && (s.lockedBlock.None? || (s.lockedBlock == Some(id.hash) && Whole(s, s.lockedParts, id)))
  }

  ghost predicate Accepted(c: Chain, o: Oracle, s: RoundState, id: BlockID) {
    id.ID? && c.valid(s.height, id.hash) && o.passes(s.height, id.hash) && o.applies(s.height)
  }

  /** Votes of the node's round are for this block or not there, and it is not decided. */
  ghost predicate Open(s: RoundState, id: BlockID) {
    && Majority(s, s.round, Precommit).None?
    && (Majority(s, s.round, Prevote).None? || Majority(s, s.round, Prevote) == Some(id))
  }

  // ----- entering precommit leaves the block where it is

  lemma LockHolds(c: Chain, o: Oracle, s: RoundState, id: BlockID)
    requires Holds(s, id) && Accepted(c, o, s, id)
    ensures var s' := LockOn(c, o, s, s.round, id); !s'.halted && Holds(s', id) && SameVotes(s, s')
  {
  }

  ghost predicate SameVotes(s: RoundState, s': RoundState) {
    && s'.height == s.height && s'.round == s.round && s'.votes == s.votes && s'.finalized == s.finalized
    && s'.openRound == s.openRound && s'.self == s.self
  }

  lemma PrecommitHolds(c: Chain, o: Oracle, s: RoundState, id: BlockID)
    requires Holds(s, id) && Accepted(c, o, s, id) && s.round <= s.openRound
    requires Majority(s, s.round, Prevote).None? || Majority(s, s.round, Prevote) == Some(id)
    ensures var s' := EnterPrecommit(c, o, s, s.height, s.round);
            Holds(s', id) && SameVotes(s, s') && s'.step >= PRECOMMIT
  {
    hide LockOn, PolRound;
    if s.step < PRECOMMIT {
      match Majority(s, s.round, Prevote) {
        case None =>
        case Some(polka) =>
          Halting.PolIsLate(s, s.round, s.openRound);
          LockHolds(c, o, s, id);
          StepHolds(LockOn(c, o, s, s.round, id), id, PRECOMMIT);
      }
    }
  }

  lemma StepHolds(s: RoundState, id: BlockID, step: nat)
    requires Holds(s, id) && PREVOTE <= step < COMMIT
    ensures Holds(s.(step := step), id)
  {
  }

  // ----- one more vote of the round

  lemma WaitHolds(c: Chain, s: RoundState, id: BlockID)
    requires Holds(s, id) && AnyTwoThirds(c, s, s.round, Prevote)
    ensures var s' := EnterPrevoteWait(c, s, s.height, s.round); Holds(s', id) && SameVotes(s, s')
  {
    hide AnyTwoThirds;
  }

  lemma PrevoteHolds(c: Chain, o: Oracle, s: RoundState, id: BlockID)
    requires Holds(s, id) && Accepted(c, o, s, id) && s.round <= s.openRound
    requires Majority(s, s.round, Prevote).None? || Majority(s, s.round, Prevote) == Some(id)
    ensures var s' := AfterPrevote(c, o, s, s.round); Holds(s', id) && SameVotes(s, s')
  {
    hide EnterPrecommit, EnterPrevoteWait, EnterNewRound, EnterPrevote, AnyTwoThirds, IsProposalComplete;
    match Majority(s, s.round, Prevote) {
      case None =>
        if AnyTwoThirds(c, s, s.round, Prevote) {
          WaitHolds(c, s, id);
        }
      case Some(polka) =>
        var t := MaybeSetValid(s, s.round, id);
        NotedHolds(s, id);
        PrecommitHolds(c, o, t, id);
    }
  }

  lemma NotedHolds(s: RoundState, id: BlockID)
    requires Holds(s, id)
    ensures MaybeUnlock(s, s.round, id) == s
    ensures var t := MaybeSetValid(s, s.round, id); Holds(t, id) && SameVotes(s, t)
  {
  }

  /** The round is the node's own, so nothing new begins. */
  lemma SameRound(c: Chain, o: Oracle, s: RoundState, id: BlockID)
    requires Holds(s, id)
    ensures EnterNewRound(c, o, s, s.height, s.round) == s
  {
  }

  lemma PrecommitVoteHolds(c: Chain, o: Oracle, s: RoundState, id: BlockID)
    requires Holds(s, id) && Majority(s, s.round, Precommit).None?
    ensures var s' := AfterPrecommit(c, o, s, s.round); Holds(s', id) && SameVotes(s, s')
  {
    hide EnterNewRound, AnyTwoThirds;
    SameRound(c, o, s, id);
  }

  lemma CommitDecides(c: Chain, o: Oracle, s: RoundState, id: BlockID)
    requires Holds(s, id) && Accepted(c, o, s, id) && Majority(s, s.round, Precommit) == Some(id)
    ensures var s' := EnterCommit(c, o, s, s.height, s.round);
            (s.height, id.hash) in s'.finalized && s'.height == s.height + 1 && !s'.halted
  {
    hide TryFinalizeCommit;
    var t := IntoCommit(s, id, s.round);
    assert Majority(t, s.round, Precommit) == Some(id);
    assert t.proposalBlock == Some(id.hash) && Whole(t, t.proposalParts, id);
    WholeDecides(c, o, t, id);
  }

  lemma WholeDecides(c: Chain, o: Oracle, s: RoundState, id: BlockID)
    requires Accepted(c, o, s, id) && s.step == COMMIT && Majority(s, s.commitRound, Precommit) == Some(id)
    requires s.proposalBlock == Some(id.hash) && Whole(s, s.proposalParts, id) && !s.halted
    ensures var s' := TryFinalizeCommit(c, o, s, s.height);
            (s.height, id.hash) in s'.finalized && s'.height == s.height + 1 && !s'.halted
  {
    hide Saved, VotesAt;
  }

  lemma PrecommitVoteDecides(c: Chain, o: Oracle, s: RoundState, id: BlockID)
    requires Holds(s, id) && Accepted(c, o, s, id) && s.round <= s.openRound
    requires Majority(s, s.round, Precommit) == Some(id)
    requires Majority(s, s.round, Prevote).None? || Majority(s, s.round, Prevote) == Some(id)
    ensures var s' := AfterPrecommit(c, o, s, s.round); (s.height, id.hash) in s'.finalized && !s'.halted
  {
    hide EnterNewRound, EnterPrecommit, EnterCommit, HasAll;
    SameRound(c, o, s, id);
    PrecommitHolds(c, o, s, id);
    var s2 := EnterPrecommit(c, o, s, s.height, s.round);
    CommitDecides(c, o, s2, id);
    var s3 := EnterCommit(c, o, s2, s.height, s.round);
    Halting.EntersRound(c, o, s3, s3.height, 0);
    SameFinalized(c, o, s3);
  }

  lemma SameFinalized(c: Chain, o: Oracle, s: RoundState)
    ensures EnterNewRound(c, o, s, s.height, 0).finalized == s.finalized
  {
    hide PrevoteID, IsValidator, IsProposalComplete;
  }

  // ----- vote sets of one block

  ghost predicate AllFor(calls: seq<Call>, id: BlockID) {
    forall i :: 0 <= i < |calls| ==> calls[i].Add? && calls[i].id == id
  }

  /** With all votes for one block there is no conflict, and no other majority. */
  lemma {:induction false} OneBlock(powers: seq<nat>, calls: seq<Call>, id: BlockID, val: nat)
    requires AllFor(calls, id)
    ensures var vs := Built(powers, calls);
            && !Conflicts(powers, vs, val, id) && (vs.maj23.None? || vs.maj23 == Some(id))
  {
    BuiltRecorded(powers, calls);
    var vs, offered := Built(powers, calls), Offered(calls);
    hide Built, Recorded;
    if val in vs.votes {
      OfferedIs(calls, val, vs.votes[val]);
    }
    if vs.maj23.Some? {
      MajorityIsQuorum(powers, vs, offered);
      var v := Someone(powers, VotedFor(vs, vs.maj23.value));
      OfferedIs(calls, v, vs.maj23.value);
    }
  }

  // ----- all the votes

  /** The node holds the block, and its votes of the round are these. */
  ghost predicate Going(c: Chain, s: RoundState, id: BlockID, prevotes: seq<Call>, precommits: seq<Call>) {
    && Inv(c, s) && Holds(s, id) && AllFor(prevotes, id) && AllFor(precommits, id)
    && VotesAt(s, s.round, Prevote) == Built(c.powers(s.height), prevotes)
    && VotesAt(s, s.round, Precommit) == Built(c.powers(s.height), precommits)
    && Majority(s, s.round, Precommit).None?
  }

  ghost predicate OfRound(s: RoundState, vote: Vote, id: BlockID) {
    vote.height == s.height && vote.round == s.round && vote.id == id
  }

  function More(calls: seq<Call>, vote: Vote, kind: Kind): seq<Call> {
    if vote.kind == kind then calls + [Add(vote.val, vote.id)] else calls
  }

  lemma {:induction false} RecordGoes(c: Chain, s: RoundState, id: BlockID, prevotes: seq<Call>, precommits: seq<Call>,
                                      vote: Vote)
    requires Going(c, s, id, prevotes, precommits) && OfRound(s, vote, id)
    ensures var s' := Record(c, s, vote).0;
            && Holds(s', id) && SameVotes(s.(votes := s'.votes), s')
            && VotesAt(s', s.round, Prevote) == Built(c.powers(s.height), More(prevotes, vote, Prevote))
            && VotesAt(s', s.round, Precommit) == Built(c.powers(s.height), More(precommits, vote, Precommit))
            && (Majority(s', s.round, Prevote).None? || Majority(s', s.round, Prevote) == Some(id))
            && (Majority(s', s.round, Precommit).None? || Majority(s', s.round, Precommit) == Some(id))
            && (!Record(c, s, vote).1 ==>
                  s'.votes == s.votes[(vote.round, vote.kind) := VotesAt(s, vote.round, vote.kind)])
            && !Conflicts(c.powers(s.height), VotesAt(s, vote.round, vote.kind), vote.val, vote.id)
    ensures AllFor(More(prevotes, vote, Prevote), id) && AllFor(More(precommits, vote, Precommit), id)
  {
    hide Inv, Built, AddVote, Conflicts;
    var powers := c.powers(s.height);
    BuiltOn(powers, prevotes, Add(vote.val, id));
    BuiltOn(powers, precommits, Add(vote.val, id));
    OneBlock(powers, prevotes, id, vote.val);
    OneBlock(powers, precommits, id, vote.val);
    OneBlock(powers, More(prevotes, vote, Prevote), id, vote.val);
    OneBlock(powers, More(precommits, vote, Precommit), id, vote.val);
    NotAdded(powers, VotesAt(s, vote.round, vote.kind), vote.val, id);
    CompleteStays(c, s, vote);
  }

  lemma CompleteStays(c: Chain, s: RoundState, vote: Vote)
    requires IsProposalComplete(s)
    ensures IsProposalComplete(Record(c, s, vote).0)
  {
    hide AddVote;
    var before := VotesAt(s, vote.round, vote.kind);
    if before.maj23.Some? {
      MajorityIsStable(c.powers(s.height), before, vote.val, vote.id, 0);
    }
  }

  lemma NotAdded(powers: seq<nat>, vs: VoteSet, val: nat, id: BlockID)
    ensures !AddVote(powers, vs, val, id).1 && !Conflicts(powers, vs, val, id) ==> AddVote(powers, vs, val, id).0 == vs
  {
  }

  /** One more vote: the node goes on, or has decided. */
  lemma {:induction false} VoteGoes(c: Chain, o: Oracle, s: RoundState, id: BlockID, prevotes: seq<Call>,
                                    precommits: seq<Call>, vote: Vote)
    requires Going(c, s, id, prevotes, precommits) && OfRound(s, vote, id) && Accepted(c, o, s, id)
    ensures var s' := Handle(c, o, s, VoteMsg(vote));
            || (s.height, id.hash) in s'.finalized
            || (&& s'.height == s.height && s'.round == s.round
                && Going(c, s', id, More(prevotes, vote, Prevote), More(precommits, vote, Precommit)))
  {
    assert s.round <= s.openRound;
    HandleKept(c, o, s, VoteMsg(vote));
    RecordGoes(c, s, id, prevotes, precommits, vote);
    hide Inv, Grew, AfterPrevote, AfterPrecommit, AddVote, Conflicts, Built, Holds;
    var s1 := Record(c, s, vote).0;
    HoldsRuns(s, id);
    if !Record(c, s, vote).1 {
      assert Majority(s1, s.round, Precommit).None?;
    } else if vote.kind.Prevote? {
      PrevoteHolds(c, o, s1, id);
    } else if Majority(s1, s.round, Precommit).None? {
      PrecommitVoteHolds(c, o, s1, id);
    } else {
      PrecommitVoteDecides(c, o, s1, id);
    }
  }

  lemma HoldsRuns(s: RoundState, id: BlockID)
    requires Holds(s, id)
    ensures !s.halted
  {
  }

  /** Votes delivered one after the other, each with the node's answers of the moment. */
  function Delivered(c: Chain, s: RoundState, votes: seq<(Vote, Oracle)>): RoundState {
    if |votes| == 0 then s
    else
      var n := |votes| - 1;
      Handle(c, votes[n].1, Delivered(c, s, votes[..n]), VoteMsg(votes[n].0))
  }

  function CallsOf(votes: seq<(Vote, Oracle)>, kind: Kind): seq<Call> {
    if |votes| == 0 then []
    else var n := |votes| - 1; More(CallsOf(votes[..n], kind), votes[n].0, kind)
  }

  ghost predicate AllOfRound(c: Chain, s: RoundState, votes: seq<(Vote, Oracle)>, id: BlockID) {
    forall i :: 0 <= i < |votes| ==> OfRound(s, votes[i].0, id) && Accepted(c, votes[i].1, s, id)
  }

  /** The node holds the block before any vote of its round has come. */
  ghost predicate Fresh(c: Chain, s: RoundState, id: BlockID) {
    && Inv(c, s) && Holds(s, id)
    && VotesAt(s, s.round, Prevote) == EMPTY && VotesAt(s, s.round, Precommit) == EMPTY
  }

  lemma {:induction false} DeliveredGoes(c: Chain, s: RoundState, votes: seq<(Vote, Oracle)>, id: BlockID)
    requires Fresh(c, s, id) && AllOfRound(c, s, votes, id)
    ensures var s' := Delivered(c, s, votes);
            && Inv(c, s') && s.finalized <= s'.finalized
            && (|| (s.height, id.hash) in s'.finalized
                || (&& s'.height == s.height && s'.round == s.round
                    && Going(c, s', id, CallsOf(votes, Prevote), CallsOf(votes, Precommit))))
  {
    hide Inv, Holds, Handle;
    if |votes| > 0 {
      var n := |votes| - 1;
      DeliveredGoes(c, s, votes[..n], id);
      var t := Delivered(c, s, votes[..n]);
      HandleKept(c, votes[n].1, t, VoteMsg(votes[n].0));
      if (s.height, id.hash) !in t.finalized {
        VoteGoes(c, votes[n].1, t, id, CallsOf(votes[..n], Prevote), CallsOf(votes[..n], Precommit), votes[n].0);
      }
    }
  }

  lemma {:induction false} CallsHave(votes: seq<(Vote, Oracle)>, kind: Kind, i: nat)
    requires i < |votes| && votes[i].0.kind == kind
    ensures Add(votes[i].0.val, votes[i].0.id) in CallsOf(votes, kind)
  {
    var n := |votes| - 1;
    if i < n {
      CallsHave(votes[..n], kind, i);
    }
  }

  /** The validators whose precommit is among the votes. */
  ghost predicate HasPrecommits(s: RoundState, votes: seq<(Vote, Oracle)>, id: BlockID, who: set<nat>) {
    forall v :: v in who ==> exists i :: 0 <= i < |votes| && votes[i].0 == Vote(Precommit, s.height, s.round, id, v)
  }

  /** Once the precommits of +2/3 for the block are among the votes delivered, the node has
      finalized it: in any order, with any prevotes, repeated or not. */
  lemma {:induction false} Decides(c: Chain, s: RoundState, votes: seq<(Vote, Oracle)>, id: BlockID, who: set<nat>)
    requires Fresh(c, s, id) && AllOfRound(c, s, votes, id) && id.ID?
    requires Quorum(c.powers(s.height), who) && HasPrecommits(s, votes, id, who)
    ensures (s.height, id.hash) in Delivered(c, s, votes).finalized
  {
    hide Fresh, Holds, Inv, Delivered;
    DeliveredGoes(c, s, votes, id);
    var s', calls := Delivered(c, s, votes), CallsOf(votes, Precommit);
    if (s.height, id.hash) !in s'.finalized {
      forall v | v in who ensures Add(v, id) in calls && forall b :: Add(v, b) in calls ==> b == id {
        var i :| 0 <= i < |votes| && votes[i].0 == Vote(Precommit, s.height, s.round, id, v);
        CallsHave(votes, Precommit, i);
      }
      MajorityReached(c.powers(s.height), calls, who, id);
    }
  }
}
