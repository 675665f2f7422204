/** What every transition of consensus/state.go keeps, for one node. */
module ConsensusInvariants {
  import opened Common
  import opened Quorums
  import opened VoteSets
  import opened Consensus

  // ----- quorums of votes

  function Voters(c: Chain, votes: set<Vote>, kind: Kind, h: nat, r: nat, id: BlockID): set<nat> {
    set v | v in votes && v.kind == kind && v.height == h && v.round == r && v.id == id
            && v.val < |c.powers(h)| :: v.val
  }

  /** +2/3 of the validators of the height cast this very vote. */
  ghost predicate Backed(c: Chain, votes: set<Vote>, kind: Kind, h: nat, r: nat, id: BlockID) {
    Quorum(c.powers(h), Voters(c, votes, kind, h, r, id))
  }

  predicate Differs(id: BlockID, hash: nat) {
    !(id.ID? && id.hash == hash)
  }

  /** +2/3 prevoted for something other than `hash` in a round of (from, to]. */
  ghost predicate Overruled(c: Chain, votes: set<Vote>, h: nat, from: int, to: nat, hash: nat) {
    exists r: nat, id :: from < r <= to && Differs(id, hash) && Backed(c, votes, Prevote, h, r, id)
  }

  lemma BackedMonotone(c: Chain, votes: set<Vote>, more: set<Vote>, kind: Kind, h: nat, r: nat, id: BlockID)
    requires votes <= more && Backed(c, votes, kind, h, r, id)
    ensures Backed(c, more, kind, h, r, id)
  {
    PowerMonotone(c.powers(h), Voters(c, votes, kind, h, r, id), Voters(c, more, kind, h, r, id));
  }

  lemma OverruledMonotone(c: Chain, votes: set<Vote>, more: set<Vote>, h: nat, from: int, to: nat, to': nat, hash: nat)
    requires votes <= more && to <= to' && Overruled(c, votes, h, from, to, hash)
    ensures Overruled(c, more, h, from, to', hash)
  {
    var r: nat, id :| from < r <= to && Differs(id, hash) && Backed(c, votes, Prevote, h, r, id);
    BackedMonotone(c, votes, more, Prevote, h, r, id);
  }

  // ----- the invariant, part by part

  /** The steps timeouts are scheduled for. */
  predicate Timed(step: nat) {
    step in {NEW_HEIGHT, NEW_ROUND, PROPOSE, PREVOTE_WAIT, PRECOMMIT_WAIT}
  }

  /** No timeout has been scheduled ahead of the node's round. */
  ghost predicate TimeoutsOk(scheduled: set<Timeout>, height: nat, round: nat) {
    forall ti :: ti in scheduled ==>
      Timed(ti.step) && (ti.height < height || (ti.height == height && ti.round <= round))
  }

  /** Only at the first height are there no precommits of the height before. */
  predicate LastCommitOk(lastCommit: LastCommit, height: nat) {
    height >= 1 && (lastCommit.NoCommit? <==> height == 1)
  }

  /** Requests to sign come in strictly increasing height, round and step, never
      ahead of the node, and carry the round being entered. */
  ghost predicate RequestsOk(requests: seq<Request>, at: HRS, self: nat) {
    && (forall i :: 0 <= i < |requests| ==>
          && Tag(requests[i].vote).Le(at)
          && requests[i].vote.val == self
          && requests[i].entered == requests[i].vote.round)
    && (forall i, j :: 0 <= i < j < |requests| ==> Tag(requests[i].vote).Lt(Tag(requests[j].vote)))
  }

  /** Only requested votes are signed. */
  ghost predicate SignedOk(signed: set<Vote>, requests: seq<Request>) {
    forall v :: v in signed ==> exists i :: 0 <= i < |requests| && requests[i].vote == v
  }

  function Offers(seen: set<Vote>, kind: Kind, h: nat, r: nat): set<(nat, BlockID)> {
    set v | v in seen && v.kind == kind && v.height == h && v.round == r :: (v.val, v.id)
  }

  ghost predicate VotesOk(c: Chain, votes: map<(nat, Kind), VoteSet>, seen: set<Vote>, h: nat) {
    forall k :: k in votes ==> Valid(c.powers(h), votes[k], Offers(seen, k.1, h, k.0))
  }

  /** A held lock has +2/3 prevotes behind it, and is of an earlier round unless
      the node has entered precommit. */
  ghost predicate LockOk(c: Chain, seen: set<Vote>, at: HRS, lockedRound: int, lockedBlock: Option<nat>) {
    && (lockedBlock.None? <==> lockedRound == -1)
    && -1 <= lockedRound <= at.round
    && (lockedRound == at.round ==> at.step >= PRECOMMIT)
    && (lockedBlock.Some? ==>
          && c.valid(at.height, lockedBlock.value)
          && exists parts :: Backed(c, seen, Prevote, at.height, lockedRound, ID(lockedBlock.value, parts)))
  }

  /** A block precommitted at the current height is still locked, unless overruled. */
  ghost predicate PrecommitsHeld(c: Chain, seen: set<Vote>, signed: set<Vote>, height: nat, round: nat,
                                 lockedRound: int, lockedBlock: Option<nat>) {
    forall v :: v in signed && v.kind.Precommit? && v.height == height && v.id.ID? ==>
      || (lockedBlock == Some(v.id.hash) && lockedRound >= v.round)
      || Overruled(c, seen, height, v.round, round, v.id.hash)
  }

  /** Precommitting a block takes +2/3 prevotes for it in that round. */
  ghost predicate PrecommitsBacked(c: Chain, seen: set<Vote>, signed: set<Vote>) {
    forall v :: v in signed && v.kind.Precommit? && v.id.ID? ==>
      Backed(c, seen, Prevote, v.height, v.round, v.id)
  }

  /** Prevoting against an earlier precommit takes +2/3 prevotes against it, in
      between or in the same round. */
  ghost predicate PrevotesJustified(c: Chain, seen: set<Vote>, signed: set<Vote>) {
    forall v, w ::
      (&& v in signed && w in signed && v.kind.Precommit? && w.kind.Prevote? && v.id.ID?
       && v.height == w.height && v.round < w.round && Differs(w.id, v.id.hash)) ==>
      Overruled(c, seen, v.height, v.round, w.round, v.id.hash)
  }

  /** Only valid blocks are voted for. */
  ghost predicate SignedValid(c: Chain, signed: set<Vote>) {
    forall v :: v in signed && v.kind.Prevote? && v.id.ID? ==> c.valid(v.height, v.id.hash)
  }

  /** A block is finalized on +2/3 precommits for it in one round. */
  ghost predicate FinalizedOk(c: Chain, seen: set<Vote>, finalized: set<(nat, nat)>) {
    forall f :: f in finalized ==>
      c.valid(f.0, f.1) && exists r: nat, parts :: Backed(c, seen, Precommit, f.0, r, ID(f.1, parts))
  }

  ghost predicate Ended(finalized: set<(nat, nat)>, h: nat) {
    exists hash :: (h, hash) in finalized
  }

  /** Every height below the node's own has been finalized. */
  ghost predicate LedgerOk(finalized: set<(nat, nat)>, height: nat) {
    forall h: nat :: 1 <= h < height ==> Ended(finalized, h)
  }

  predicate Made(s: RoundState, parts: Option<PartSet>) {
    parts.Some? ==> parts.value.id < s.made
  }

  /** Part sets are numbered as they are made, so a new one is not complete. */
  ghost predicate PartSetsOk(s: RoundState) {
    && (forall i :: i in s.complete ==> i < s.made)
    && Made(s, s.proposalParts) && Made(s, s.lockedParts) && Made(s, s.validParts)
  }

  ghost predicate Inv(c: Chain, s: RoundState) {
    && TimeoutsOk(s.scheduled, s.height, s.round)
    && RequestsOk(s.requests, At(s), s.self)
    && SignedOk(s.signed, s.requests)
    && VotesOk(c, s.votes, s.seen, s.height)
    && LockOk(c, s.seen, At(s), s.lockedRound, s.lockedBlock)
    && PrecommitsHeld(c, s.seen, s.signed, s.height, s.round, s.lockedRound, s.lockedBlock)
    && PrecommitsBacked(c, s.seen, s.signed)
    && PrevotesJustified(c, s.seen, s.signed)
    && SignedValid(c, s.signed)
    && FinalizedOk(c, s.seen, s.finalized)
    && LedgerOk(s.finalized, s.height)
    && LastCommitOk(s.lastCommit, s.height)
    && s.round <= s.openRound
    && PartSetsOk(s)
  }

  /** What a transition may add: history only grows, and new signatures are for
      steps the node had not reached. */
  ghost predicate Grew(s: RoundState, s': RoundState) {
    && s'.self == s.self
    && At(s).Le(At(s'))
    && s.seen <= s'.seen && s.signed <= s'.signed && s.finalized <= s'.finalized && s.scheduled <= s'.scheduled
    && s.requests <= s'.requests
    && forall v :: v in s'.signed && v !in s.signed ==> At(s).Lt(Tag(v))
  }

  ghost predicate Kept(c: Chain, s: RoundState, s': RoundState) {
    Inv(c, s') && Grew(s, s') && s'.seen == s.seen
  }

  // ----- primitive changes

  /** Moving forward in round and step. */
  lemma AdvanceKept(c: Chain, s: RoundState, round: nat, step: nat)
    requires Inv(c, s) && At(s).Le(HRS(s.height, round, step)) && round <= s.openRound
    ensures Kept(c, s, s.(round := round, step := step))
  {
    var s' := s.(round := round, step := step);
    forall v | v in s.signed && v.kind.Precommit? && v.height == s.height && v.id.ID?
      ensures (s.lockedBlock == Some(v.id.hash) && s.lockedRound >= v.round)
              || Overruled(c, s.seen, s.height, v.round, round, v.id.hash)
    {
      if !(s.lockedBlock == Some(v.id.hash) && s.lockedRound >= v.round) {
        OverruledMonotone(c, s.seen, s.seen, s.height, v.round, s.round, round, v.id.hash);
      }
    }
  }

  lemma ScheduleKept(c: Chain, s: RoundState, round: nat, step: nat)
    requires Inv(c, s) && round <= s.round && Timed(step)
    ensures Kept(c, s, Schedule(s, s.height, round, step))
  {
  }

  lemma SignedNotAhead(c: Chain, s: RoundState, v: Vote)
    requires Inv(c, s) && v in s.signed
    ensures Tag(v).Le(At(s)) && v.val == s.self
  {
  }

  /** A majority read off the node's own vote sets is a quorum of received votes. */
  lemma MajorityIsBacked(c: Chain, s: RoundState, round: nat, kind: Kind)
    requires Inv(c, s) && Majority(s, round, kind).Some?
    ensures Backed(c, s.seen, kind, s.height, round, Majority(s, round, kind).value)
  {
    var vs := s.votes[(round, kind)];
    var powers := c.powers(s.height);
    assert Valid(powers, vs, Offers(s.seen, kind, s.height, round));
    MajorityIsQuorum(powers, vs, Offers(s.seen, kind, s.height, round));
    var id := vs.maj23.value;
    forall v | v in VotedFor(vs, id) && v < |powers| ensures v in Voters(c, s.seen, kind, s.height, round, id) {
      assert (v, id) in Offers(s.seen, kind, s.height, round);
      assert Vote(kind, s.height, round, id, v) in s.seen;
    }
    PowerMonotone(powers, VotedFor(vs, id), Voters(c, s.seen, kind, s.height, round, id));
  }

  /** Releasing a lock takes +2/3 prevotes for something else in a later round. */
  lemma UnlockKept(c: Chain, s: RoundState, r: nat, id: BlockID)
    requires Inv(c, s)
    requires s.lockedBlock.Some? ==>
               s.lockedRound < r <= s.round && Differs(id, s.lockedBlock.value)
               && Backed(c, s.seen, Prevote, s.height, r, id)
    ensures Kept(c, s, Unlock(s))
  {
    forall v | v in s.signed && v.kind.Precommit? && v.height == s.height && v.id.ID?
      ensures Overruled(c, s.seen, s.height, v.round, s.round, v.id.hash)
    {
      if s.lockedBlock == Some(v.id.hash) && s.lockedRound >= v.round {
        assert v.round < r <= s.round && Differs(id, v.id.hash);
      }
    }
  }

  /** The requests and signatures of one more vote, for a step not reached yet. */
  lemma RequestAppended(c: Chain, o: Oracle, s: RoundState, kind: Kind, id: BlockID)
    requires RequestsOk(s.requests, At(s), s.self) && SignedOk(s.signed, s.requests)
    requires At(s).Lt(Tag(Vote(kind, s.height, s.round, id, s.self)))
    ensures var s' := SignAddVote(c, o, s, kind, id, s.round);
            var at := Tag(Vote(kind, s.height, s.round, id, s.self));
            RequestsOk(s'.requests, at, s.self) && SignedOk(s'.signed, s'.requests)
  {
    var s' := SignAddVote(c, o, s, kind, id, s.round);
    if s' != s {
      var vote := Vote(kind, s.height, s.round, id, s.self);
      assert s'.requests[|s.requests|].vote == vote;
      forall v | v in s'.signed ensures exists i :: 0 <= i < |s'.requests| && s'.requests[i].vote == v {
        if v in s.signed {
          var i :| 0 <= i < |s.requests| && s.requests[i].vote == v;
          assert s'.requests[i].vote == v;
        }
      }
    }
  }

  // ----- voting

  lemma PrevoteJustified(c: Chain, o: Oracle, s: RoundState, vote: Vote)
    requires Inv(c, s) && vote == Vote(Prevote, s.height, s.round, PrevoteID(c, o, s), s.self)
    requires s.step < PREVOTE
    ensures PrevotesJustified(c, s.seen, s.signed + {vote})
  {
    forall v, w | v in s.signed + {vote} && w in s.signed + {vote} && v.kind.Precommit? && w.kind.Prevote? && v.id.ID?
                  && v.height == w.height && v.round < w.round && Differs(w.id, v.id.hash)
      ensures Overruled(c, s.seen, v.height, v.round, w.round, v.id.hash)
    {
      if w == vote {
        // A node locked on the block it precommitted prevotes that block.
        assert !(s.lockedBlock == Some(v.id.hash) && s.lockedRound >= v.round);
      }
    }
  }

  lemma PrevoteKept(c: Chain, o: Oracle, s: RoundState)
    requires Inv(c, s) && s.step < PREVOTE
    ensures Kept(c, s, SignAddVote(c, o, s, Prevote, PrevoteID(c, o, s), s.round).(round := s.round, step := PREVOTE))
  {
    hide VotesOk, FinalizedOk, LedgerOk, TimeoutsOk, Voters, Overruled, RequestsOk, SignedOk;
    AdvanceKept(c, s, s.round, PREVOTE);
    if IsValidator(c.powers(s.height), s.self) {
      var vote := Vote(Prevote, s.height, s.round, PrevoteID(c, o, s), s.self);
      RequestAppended(c, o, s, Prevote, PrevoteID(c, o, s));
      PrevoteJustified(c, o, s, vote);
    }
  }

  lemma EnterPrevoteKept(c: Chain, o: Oracle, s: RoundState, height: nat, round: nat)
    requires Inv(c, s) && round <= s.round
    ensures Kept(c, s, EnterPrevote(c, o, s, height, round))
  {
    if !s.halted && s.height == height && round == s.round && s.step < PREVOTE {
      PrevoteKept(c, o, s);
    }
  }

  /** A precommit in the current round contradicts no prevote made so far. */
  lemma PrecommitJustified(c: Chain, s: RoundState, vote: Vote)
    requires Inv(c, s) && vote.kind.Precommit? && vote.height == s.height && vote.round == s.round
    ensures PrevotesJustified(c, s.seen, s.signed + {vote})
  {
    forall v, w | v in s.signed + {vote} && w in s.signed + {vote} && v.kind.Precommit? && w.kind.Prevote? && v.id.ID?
                  && v.height == w.height && v.round < w.round && Differs(w.id, v.id.hash)
      ensures Overruled(c, s.seen, v.height, v.round, w.round, v.id.hash)
    {
      SignedNotAhead(c, s, w);
    }
  }

  /** Signing a precommit on top of a change of lock, and entering the step. */
  lemma PrecommitKept(c: Chain, o: Oracle, s: RoundState, t: RoundState, id: BlockID)
    requires Inv(c, s) && s.step < PRECOMMIT
    requires t == s.(lockedRound := t.lockedRound, lockedBlock := t.lockedBlock, lockedParts := t.lockedParts,
                     proposalBlock := t.proposalBlock, proposalParts := t.proposalParts, made := t.made)
    requires PartSetsOk(t)
    requires LockOk(c, s.seen, HRS(s.height, s.round, PRECOMMIT), t.lockedRound, t.lockedBlock)
    requires PrecommitsHeld(c, s.seen, s.signed, s.height, s.round, t.lockedRound, t.lockedBlock)
    requires id.ID? ==> Backed(c, s.seen, Prevote, s.height, s.round, id)
                        && t.lockedBlock == Some(id.hash) && t.lockedRound == s.round
    ensures Kept(c, s, SignAddVote(c, o, t, Precommit, id, s.round).(round := s.round, step := PRECOMMIT))
  {
    hide VotesOk, FinalizedOk, LedgerOk, TimeoutsOk, Voters, Overruled, LockOk, RequestsOk, SignedOk, PrevotesJustified;
    RequestAppended(c, o, t, Precommit, id);
    AdvanceKept(c, s, s.round, PRECOMMIT);
    PrecommitJustified(c, s, Vote(Precommit, s.height, s.round, id, s.self));
  }

  /** Taking a lock in the current round on a block with +2/3 prevotes. */
  lemma LockHeld(c: Chain, s: RoundState, hash: nat, parts: nat)
    requires Inv(c, s) && s.step < PRECOMMIT && c.valid(s.height, hash)
    requires Backed(c, s.seen, Prevote, s.height, s.round, ID(hash, parts))
    ensures LockOk(c, s.seen, HRS(s.height, s.round, PRECOMMIT), s.round, Some(hash))
    ensures PrecommitsHeld(c, s.seen, s.signed, s.height, s.round, s.round, Some(hash))
  {
    forall v | v in s.signed && v.kind.Precommit? && v.height == s.height && v.id.ID?
      ensures (v.id.hash == hash && s.round >= v.round) || Overruled(c, s.seen, s.height, v.round, s.round, v.id.hash)
    {
      SignedNotAhead(c, s, v);
      if v.id.hash != hash {
        assert v.round < s.round && Differs(ID(hash, parts), v.id.hash);
      }
    }
  }

  /** Entering the step, unless that panicked. */
  function IntoPrecommit(s: RoundState, round: nat): RoundState {
    if s.halted then s else s.(round := round, step := PRECOMMIT)
  }

  lemma LockOnKept(c: Chain, o: Oracle, s: RoundState, id: BlockID)
    requires Inv(c, s) && s.step < PRECOMMIT && !s.halted && Majority(s, s.round, Prevote) == Some(id)
    ensures Kept(c, s, IntoPrecommit(LockOn(c, o, s, s.round, id), s.round))
  {
    hide Voters, Overruled, VotesOk, FinalizedOk, TimeoutsOk, RequestsOk, SignedOk,
         PrecommitsBacked, PrevotesJustified, PrecommitsHeld, LedgerOk, SignedValid;
    MajorityIsBacked(c, s, s.round, Prevote);
    if id.NilID? {
      UnlockKept(c, s, s.round, NilID);
      PrecommitKept(c, o, s, Unlock(s), NilID);
    } else if s.lockedBlock == Some(id.hash) {
      LockHeld(c, s, id.hash, id.parts);
      PrecommitKept(c, o, s, s.(lockedRound := s.round), id);
    } else if s.proposalBlock == Some(id.hash) {
      if Accepts(c, o, s.height, id.hash) {
        LockHeld(c, s, id.hash, id.parts);
        var locked := s.(lockedRound := s.round, lockedBlock := s.proposalBlock, lockedParts := s.proposalParts);
        PrecommitKept(c, o, s, locked, id);
      }
    } else {
      UnlockKept(c, s, s.round, id);
      PrecommitKept(c, o, s, Await(Unlock(s), id.parts), NilID);
    }
  }

  lemma EnterPrecommitKept(c: Chain, o: Oracle, s: RoundState, height: nat, round: nat)
    requires Inv(c, s) && round <= s.round
    ensures Kept(c, s, EnterPrecommit(c, o, s, height, round))
  {
    hide LockOn, PolRound, Majority, TimeoutsOk, RequestsOk, SignedOk, VotesOk, LockOk, PrecommitsHeld,
         PrecommitsBacked, PrevotesJustified, SignedValid, FinalizedOk, LedgerOk;
    if s.halted || s.height != height || round < s.round || PRECOMMIT <= s.step {
      return;
    }
    HaltKept(c, s);
    match Majority(s, round, Prevote)
    case None => NilPrecommitKept(c, o, s);
    case Some(id) => LockOnKept(c, o, s, id);
  }

  lemma NilPrecommitKept(c: Chain, o: Oracle, s: RoundState)
    requires Inv(c, s) && s.step < PRECOMMIT && !s.halted
    ensures Kept(c, s, IntoPrecommit(SignAddVote(c, o, s, Precommit, NilID, s.round), s.round))
  {
    PrecommitKept(c, o, s, s, NilID);
  }

  // ----- the other transitions

  lemma KeptTransitive(c: Chain, s: RoundState, t: RoundState, u: RoundState)
    requires Kept(c, s, t) && Kept(c, t, u)
    ensures Kept(c, s, u)
  {
  }

  lemma EnterProposeKept(c: Chain, o: Oracle, s: RoundState, height: nat, round: nat)
    requires Inv(c, s) && round <= s.round
    ensures Kept(c, s, EnterPropose(c, o, s, height, round))
  {
    hide TimeoutsOk, RequestsOk, SignedOk, VotesOk, LockOk, PrecommitsHeld, PrecommitsBacked, PrevotesJustified,
         SignedValid, FinalizedOk, LedgerOk;
    if !s.halted && s.height == height && round == s.round && s.step < PROPOSE {
      ScheduleKept(c, s, round, PROPOSE);
      var s1 := Schedule(s, height, round, PROPOSE);
      AdvanceKept(c, s1, round, PROPOSE);
      var s2 := s1.(round := round, step := PROPOSE);
      KeptTransitive(c, s, s1, s2);
      if IsProposalComplete(s2) {
        EnterPrevoteKept(c, o, s2, height, round);
        KeptTransitive(c, s, s2, EnterPrevote(c, o, s2, height, round));
      }
    }
  }

  /** A round just entered. */
  function NewRound(s: RoundState, round: nat): RoundState {
    var s1 := s.(round := round, step := NEW_ROUND, openRound := round + 1, triggered := false);
    if round == 0 then s1 else s1.(proposal := None, proposalBlock := None, proposalParts := None)
  }

  lemma NewRoundKept(c: Chain, s: RoundState, round: nat)
    requires Inv(c, s) && (round > s.round || (round == s.round && s.step == NEW_HEIGHT))
    ensures Kept(c, s, NewRound(s, round))
  {
    hide TimeoutsOk, RequestsOk, SignedOk, VotesOk, LockOk, PrecommitsHeld, PrecommitsBacked, PrevotesJustified,
         SignedValid, FinalizedOk, LedgerOk;
    var s0 := s.(openRound := round + 1);
    assert Kept(c, s, s0);
    AdvanceKept(c, s0, round, NEW_ROUND);
    KeptTransitive(c, s, s0, NewRound(s, round));
  }

  lemma EnterNewRoundKept(c: Chain, o: Oracle, s: RoundState, height: nat, round: nat)
    requires Inv(c, s)
    ensures Kept(c, s, EnterNewRound(c, o, s, height, round))
    ensures !s.halted && s.height == height ==>
              var s' := EnterNewRound(c, o, s, height, round);
              !s'.halted && s'.height == height && round <= s'.round
  {
    HaltKept(c, s);
    hide Inv, Grew, EnterPropose;
    if !s.halted && s.height == height && (round > s.round || (round == s.round && s.step == NEW_HEIGHT)) {
      var s2 := NewRound(s, round);
      NewRoundKept(c, s, round);
      ScheduleKept(c, s2, round, NEW_ROUND);
      KeptTransitive(c, s, s2, Schedule(s2, height, round, NEW_ROUND));
      EnterProposeKept(c, o, s2, height, round);
      KeptTransitive(c, s, s2, EnterPropose(c, o, s2, height, round));
      ProposeRuns(c, o, s2, height, round);
    }
  }

  lemma ProposeRuns(c: Chain, o: Oracle, s: RoundState, height: nat, round: nat)
    ensures var s' := EnterPropose(c, o, s, height, round); s'.halted == s.halted && s'.height == s.height
    ensures round == s.round ==> EnterPropose(c, o, s, height, round).round == round
  {
  }

  lemma EnterPrevoteWaitKept(c: Chain, s: RoundState, height: nat, round: nat)
    requires Inv(c, s) && round <= s.round
    ensures Kept(c, s, EnterPrevoteWait(c, s, height, round))
  {
    hide TimeoutsOk, RequestsOk, SignedOk, VotesOk, LockOk, PrecommitsHeld, PrecommitsBacked, PrevotesJustified,
         SignedValid, FinalizedOk, LedgerOk;
    if !s.halted && s.height == height && round == s.round && s.step < PREVOTE_WAIT {
      ScheduleKept(c, s, round, PREVOTE_WAIT);
      var s1 := Schedule(s, height, round, PREVOTE_WAIT);
      AdvanceKept(c, s1, round, PREVOTE_WAIT);
      KeptTransitive(c, s, s1, s1.(round := round, step := PREVOTE_WAIT));
    }
  }

  lemma EnterPrecommitWaitKept(c: Chain, s: RoundState, height: nat, round: nat)
    requires Inv(c, s) && (s.halted || round <= s.round)
    ensures Kept(c, s, EnterPrecommitWait(c, s, height, round))
  {
    hide TimeoutsOk, RequestsOk, SignedOk, VotesOk, LockOk, PrecommitsHeld, PrecommitsBacked, PrevotesJustified,
         SignedValid, FinalizedOk, LedgerOk;
    if !s.halted && s.height == height {
      ScheduleKept(c, s, round, PRECOMMIT_WAIT);
    }
  }

  lemma UpdateToStateKept(c: Chain, s: RoundState)
    requires Inv(c, s) && Ended(s.finalized, s.height) && s.commitRound >= 0
    ensures Kept(c, s, UpdateToState(s))
  {
    forall v | v in s.signed ensures v.height <= s.height {
      SignedNotAhead(c, s, v);
    }
    hide VotedFor, Overruled, Voters, Valid;
  }

  lemma AddFinalizedKept(c: Chain, s: RoundState, hash: nat, r: nat, parts: nat)
    requires Inv(c, s) && c.valid(s.height, hash) && Backed(c, s.seen, Precommit, s.height, r, ID(hash, parts))
    ensures var s' := s.(finalized := s.finalized + {(s.height, hash)});
            Kept(c, s, s') && Ended(s'.finalized, s.height)
  {
    hide TimeoutsOk, RequestsOk, SignedOk, VotesOk, LockOk, PrecommitsHeld, PrecommitsBacked, PrevotesJustified,
         SignedValid, Voters;
    var s' := s.(finalized := s.finalized + {(s.height, hash)});
    assert (s.height, hash) in s'.finalized;
    forall h: nat | 1 <= h < s.height ensures Ended(s'.finalized, h) {
      assert Ended(s.finalized, h);
    }
  }

  lemma FinalizeCommitKept(c: Chain, o: Oracle, s: RoundState, height: nat)
    requires Inv(c, s)
    ensures Kept(c, s, FinalizeCommit(c, o, s, height))
  {
    hide Inv, Grew, UpdateToState;
    HaltKept(c, s);
    var maj := Majority(s, s.commitRound, Precommit);
    if s.height == height && s.step == COMMIT && maj.Some? && maj.value.ID? && c.valid(height, maj.value.hash) {
      MajorityIsBacked(c, s, s.commitRound, Precommit);
      AddFinalizedKept(c, s, maj.value.hash, s.commitRound, maj.value.parts);
      var s1 := s.(finalized := s.finalized + {(height, maj.value.hash)});
      var s2 := UpdateToState(s1);
      UpdateToStateKept(c, s1);
      KeptTransitive(c, s, s1, s2);
      ScheduleKept(c, s2, 0, NEW_HEIGHT);
      KeptTransitive(c, s, s2, Schedule(s2, s2.height, 0, NEW_HEIGHT));
    }
  }

  lemma TryFinalizeCommitKept(c: Chain, o: Oracle, s: RoundState, height: nat)
    requires Inv(c, s)
    ensures Kept(c, s, TryFinalizeCommit(c, o, s, height))
  {
    hide Inv, Grew, FinalizeCommit;
    HaltKept(c, s);
    FinalizeCommitKept(c, o, s, height);
  }

  /** The locked block becomes the proposed one. */
  lemma LockedKept(c: Chain, s: RoundState)
    requires Inv(c, s)
    ensures Kept(c, s, s.(proposalBlock := s.lockedBlock, proposalParts := s.lockedParts))
  {
    hide TimeoutsOk, RequestsOk, SignedOk, VotesOk, LockOk, PrecommitsHeld, PrecommitsBacked, PrevotesJustified,
         SignedValid, FinalizedOk, LedgerOk;
  }

  lemma AwaitKept(c: Chain, s: RoundState, header: nat)
    requires Inv(c, s)
    ensures Kept(c, s, Await(s, header))
  {
    hide TimeoutsOk, RequestsOk, SignedOk, VotesOk, LockOk, PrecommitsHeld, PrecommitsBacked, PrevotesJustified,
         SignedValid, FinalizedOk, LedgerOk;
  }

  lemma CommitStepKept(c: Chain, s: RoundState, commitRound: nat)
    requires Inv(c, s) && s.step < COMMIT
    ensures Kept(c, s, s.(step := COMMIT, commitRound := commitRound))
  {
    hide TimeoutsOk, RequestsOk, SignedOk, VotesOk, LockOk, PrecommitsHeld, PrecommitsBacked, PrevotesJustified,
         SignedValid, FinalizedOk, LedgerOk;
    AdvanceKept(c, s, s.round, COMMIT);
  }

  lemma IntoCommitKept(c: Chain, s: RoundState, id: BlockID, commitRound: nat)
    requires Inv(c, s) && s.step < COMMIT
    ensures Kept(c, s, IntoCommit(s, id, commitRound))
  {
    hide Inv;
    var s1 := if HashesTo(s.lockedBlock, id)
              then s.(proposalBlock := s.lockedBlock, proposalParts := s.lockedParts) else s;
    LockedKept(c, s);
    var s2 := if id.ID? && !HashesTo(s1.proposalBlock, id) then Await(s1, id.parts) else s1;
    if id.ID? {
      AwaitKept(c, s1, id.parts);
    }
    CommitStepKept(c, s2, commitRound);
    KeptTransitive(c, s, s2, IntoCommit(s, id, commitRound));
  }

  lemma EnterCommitKept(c: Chain, o: Oracle, s: RoundState, height: nat, commitRound: nat)
    requires Inv(c, s)
    ensures Kept(c, s, EnterCommit(c, o, s, height, commitRound))
  {
    hide IntoCommit, TryFinalizeCommit;
    var maj := Majority(s, commitRound, Precommit);
    if !s.halted && s.height == height && s.step < COMMIT && maj.Some? {
      var s1 := IntoCommit(s, maj.value, commitRound);
      IntoCommitKept(c, s, maj.value, commitRound);
      TryFinalizeCommitKept(c, o, s1, height);
      KeptTransitive(c, s, s1, TryFinalizeCommit(c, o, s1, height));
    }
  }

  // ----- messages and timeouts

  /** A timeout that is not of the past is for the current round. */
  lemma ScheduledBehind(c: Chain, s: RoundState, ti: Timeout)
    requires Inv(c, s) && ti in s.scheduled
    ensures Timed(ti.step) && (ti.height < s.height || (ti.height == s.height && ti.round <= s.round))
  {
  }

  lemma HaltKept(c: Chain, s: RoundState)
    requires Inv(c, s)
    ensures Kept(c, s, s) && Kept(c, s, Halt(s))
  {
  }

  lemma HandleTimeoutKept(c: Chain, o: Oracle, s: RoundState, ti: Timeout)
    requires Inv(c, s) && ti in s.scheduled
    ensures Kept(c, s, HandleTimeout(c, o, s, ti))
  {
    hide Kept, Inv, Grew, EnterNewRound, EnterPropose, EnterPrevote, EnterPrecommit;
    ScheduledBehind(c, s, ti);
    HaltKept(c, s);
    if ti.height == s.height && ti.round == s.round {
      if ti.step == NEW_HEIGHT {
        EnterNewRoundKept(c, o, s, ti.height, 0);
      } else if ti.step == NEW_ROUND {
        EnterProposeKept(c, o, s, ti.height, 0);
      } else if ti.step == PROPOSE {
        EnterPrevoteKept(c, o, s, ti.height, ti.round);
      } else {
        EnterPrecommitKept(c, o, s, ti.height, ti.round);
        if ti.step == PRECOMMIT_WAIT {
          NewRoundAfter(c, o, s, EnterPrecommit(c, o, s, ti.height, ti.round), ti.height, ti.round + 1);
        }
      }
    }
  }

  lemma NewRoundAfter(c: Chain, o: Oracle, s: RoundState, s1: RoundState, height: nat, round: nat)
    requires Kept(c, s, s1)
    ensures Kept(c, s, EnterNewRound(c, o, s1, height, round))
  {
    EnterNewRoundKept(c, o, s1, height, round);
    KeptTransitive(c, s, s1, EnterNewRound(c, o, s1, height, round));
  }

  lemma ValidOnPolkaKept(c: Chain, s: RoundState)
    requires Inv(c, s)
    ensures Kept(c, s, ValidOnPolka(s))
  {
    hide TimeoutsOk, RequestsOk, SignedOk, VotesOk, LockOk, PrecommitsHeld, PrecommitsBacked, PrevotesJustified,
         SignedValid, FinalizedOk, LedgerOk;
  }

  lemma ReceiveBlockKept(c: Chain, o: Oracle, s: RoundState, height: nat)
    requires Inv(c, s)
    ensures Kept(c, s, ReceiveBlock(c, o, s, height))
  {
    hide ValidOnPolka, EnterPrevote, EnterPrecommit, TryFinalizeCommit;
    var s1 := ValidOnPolka(s);
    ValidOnPolkaKept(c, s);
    EnterPrevoteKept(c, o, s1, height, s1.round);
    var s2 := EnterPrevote(c, o, s1, height, s1.round);
    KeptTransitive(c, s, s1, s2);
    EnterPrecommitKept(c, o, s2, height, s2.round);
    KeptTransitive(c, s, s2, EnterPrecommit(c, o, s2, height, s2.round));
    TryFinalizeCommitKept(c, o, s1, height);
    KeptTransitive(c, s, s1, TryFinalizeCommit(c, o, s1, height));
  }

  lemma AddBlockKept(c: Chain, o: Oracle, s: RoundState, height: nat, block: Option<nat>)
    requires Inv(c, s)
    ensures Kept(c, s, AddBlock(c, o, s, height, block))
  {
    hide TimeoutsOk, RequestsOk, SignedOk, VotesOk, LockOk, PrecommitsHeld, PrecommitsBacked, PrevotesJustified,
         SignedValid, FinalizedOk, LedgerOk, ReceiveBlock;
    if s.proposalParts.Some? {
      var s1 := s.(complete := s.complete + {s.proposalParts.value.id});
      var s2 := s1.(proposalBlock := block);
      assert Kept(c, s, s1) && Kept(c, s, s2);
      ReceiveBlockKept(c, o, s2, height);
      KeptTransitive(c, s, s2, ReceiveBlock(c, o, s2, height));
    }
  }

  lemma HandleMaj23Kept(c: Chain, s: RoundState, round: nat, kind: Kind, peer: nat, id: BlockID)
    requires Inv(c, s)
    ensures Kept(c, s, HandleMaj23(s, round, kind, peer, id))
  {
    hide Valid, Claim, Offers, TimeoutsOk, RequestsOk, SignedOk, LockOk, PrecommitsHeld, PrecommitsBacked,
         PrevotesJustified, SignedValid, FinalizedOk, LedgerOk;
    var offers := Offers(s.seen, kind, s.height, round);
    EmptyIsValid(c.powers(s.height), offers);
    ClaimIsValid(c.powers(s.height), VotesAt(s, round, kind), offers, peer, id);
  }

  lemma ReportKept(c: Chain, o: Oracle, s: RoundState, t: RoundState, conflict: bool)
    requires Inv(c, t) && Grew(s, t)
    ensures var r := Report(o, t, conflict); Inv(c, r) && Grew(s, r) && r.seen == t.seen
  {
    hide TimeoutsOk, RequestsOk, SignedOk, VotesOk, LockOk, PrecommitsHeld, PrecommitsBacked, PrevotesJustified,
         SignedValid, FinalizedOk, LedgerOk;
  }

  lemma AddLateVoteKept(c: Chain, o: Oracle, s: RoundState, vote: Vote)
    requires Inv(c, s)
    ensures Kept(c, s, AddLateVote(c, o, s, vote))
  {
    hide TimeoutsOk, RequestsOk, SignedOk, VotesOk, LockOk, PrecommitsHeld, PrecommitsBacked, PrevotesJustified,
         SignedValid, FinalizedOk, LedgerOk, EnterNewRound, AddVote, HasAll, Conflicts;
    HaltKept(c, s);
    if s.step == NEW_HEIGHT && s.lastCommit.LastCommit? && vote.round == s.lastCommit.round {
      var powers := c.powers(vote.height);
      var (vs, added) := AddVote(powers, s.lastCommit.votes, vote.val, vote.id);
      var s1 := s.(lastCommit := s.lastCommit.(votes := vs));
      assert Kept(c, s, s1);
      EnterNewRoundKept(c, o, s1, s1.height, 0);
      KeptTransitive(c, s, s1, EnterNewRound(c, o, s1, s1.height, 0));
      var s2 := if added && o.skipTimeoutCommit && HasAll(powers, vs)
                then EnterNewRound(c, o, s1, s1.height, 0) else s1;
      ReportKept(c, o, s, s2, Conflicts(powers, s.lastCommit.votes, vote.val, vote.id));
    }
  }

  lemma MaybeUnlockKept(c: Chain, s: RoundState, round: nat)
    requires Inv(c, s) && Majority(s, round, Prevote).Some?
    ensures Kept(c, s, MaybeUnlock(s, round, Majority(s, round, Prevote).value))
  {
    MajorityIsBacked(c, s, round, Prevote);
    var id := Majority(s, round, Prevote).value;
    if Releases(s, round, id) {
      UnlockKept(c, s, round, id);
    }
  }

  lemma AfterPrevoteKept(c: Chain, o: Oracle, s: RoundState, round: nat)
    requires Inv(c, s)
    ensures Kept(c, s, AfterPrevote(c, o, s, round))
  {
    hide Inv, Grew, MaybeSetValid, ReactToPrevotes;
    HaltKept(c, s);
    var maj := Majority(s, round, Prevote);
    if maj.None? {
      ReactKept(c, o, s, s, round, None);
    } else {
      var s1 := MaybeUnlock(s, round, maj.value);
      MaybeUnlockKept(c, s, round);
      HaltKept(c, s1);
      KeptTransitive(c, s, s1, Halt(s1));
      SetValidKept(c, s, s1, round, maj.value);
      ReactKept(c, o, s, MaybeSetValid(s1, round, maj.value), round, maj);
    }
  }

  lemma SetValidKept(c: Chain, s: RoundState, s1: RoundState, round: nat, id: BlockID)
    requires Kept(c, s, s1)
    ensures Kept(c, s, MaybeSetValid(s1, round, id))
  {
    hide TimeoutsOk, RequestsOk, SignedOk, VotesOk, LockOk, PrecommitsHeld, PrecommitsBacked, PrevotesJustified,
         SignedValid, FinalizedOk, LedgerOk;
  }

  lemma ReactKept(c: Chain, o: Oracle, s: RoundState, s1: RoundState, round: nat, maj: Option<BlockID>)
    requires Kept(c, s, s1)
    ensures Kept(c, s, ReactToPrevotes(c, o, s1, round, maj))
  {
    assert Inv(c, s1);
    hide Inv, Grew, EnterNewRound, EnterPrevote, EnterPrecommit, EnterPrevoteWait;
    NewRoundAfter(c, o, s, s1, s1.height, round);
    EnterPrevoteKept(c, o, s1, s1.height, s1.round);
    KeptTransitive(c, s, s1, EnterPrevote(c, o, s1, s1.height, s1.round));
    if s1.round == round {
      EnterPrecommitKept(c, o, s1, s1.height, round);
      KeptTransitive(c, s, s1, EnterPrecommit(c, o, s1, s1.height, round));
      EnterPrevoteWaitKept(c, s1, s1.height, round);
      KeptTransitive(c, s, s1, EnterPrevoteWait(c, s1, s1.height, round));
    }
  }

  lemma AfterPrecommitKept(c: Chain, o: Oracle, s: RoundState, round: nat)
    requires Inv(c, s) && !s.halted
    ensures Kept(c, s, AfterPrecommit(c, o, s, round))
  {
    hide TimeoutsOk, RequestsOk, SignedOk, VotesOk, LockOk, PrecommitsHeld, PrecommitsBacked, PrevotesJustified,
         SignedValid, FinalizedOk, LedgerOk;
    var s1 := EnterNewRound(c, o, s, s.height, round);
    EnterNewRoundKept(c, o, s, s.height, round);
    EnterPrecommitWaitKept(c, s1, s.height, round);
    KeptTransitive(c, s, s1, EnterPrecommitWait(c, s1, s.height, round));
    var s2 := EnterPrecommit(c, o, s1, s.height, round);
    EnterPrecommitKept(c, o, s1, s.height, round);
    KeptTransitive(c, s, s1, s2);
    EnterPrecommitWaitKept(c, s2, s.height, round);
    KeptTransitive(c, s, s2, EnterPrecommitWait(c, s2, s.height, round));
    var s3 := EnterCommit(c, o, s2, s.height, round);
    EnterCommitKept(c, o, s2, s.height, round);
    KeptTransitive(c, s, s2, s3);
    EnterNewRoundKept(c, o, s3, s3.height, 0);
    KeptTransitive(c, s, s3, EnterNewRound(c, o, s3, s3.height, 0));
  }

  lemma RecordKept(c: Chain, s: RoundState, vote: Vote)
    requires Inv(c, s) && vote.height == s.height
    ensures var s' := Record(c, s, vote).0; Inv(c, s') && Grew(s, s')
  {
    var s' := Record(c, s, vote).0;
    var powers := c.powers(s.height);
    var offers := Offers(s.seen, vote.kind, s.height, vote.round);
    EmptyIsValid(powers, offers);
    AddVoteIsValid(powers, VotesAt(s, vote.round, vote.kind), offers, vote.val, vote.id);
    SeenGrows(c, s, vote);
    assert VotesOk(c, s'.votes, s'.seen, s'.height) by {
      forall k | k in s'.votes ensures Valid(powers, s'.votes[k], Offers(s'.seen, k.1, s.height, k.0)) {
        if k == (vote.round, vote.kind) {
          ValidMonotone(powers, s'.votes[k], offers + {(vote.val, vote.id)}, Offers(s'.seen, k.1, s.height, k.0));
        } else {
          ValidMonotone(powers, s'.votes[k], Offers(s.seen, k.1, s.height, k.0), Offers(s'.seen, k.1, s.height, k.0));
        }
      }
    }
  }

  lemma SeenGrows(c: Chain, s: RoundState, vote: Vote)
    requires Inv(c, s)
    ensures var seen := s.seen + {vote};
            && LockOk(c, seen, At(s), s.lockedRound, s.lockedBlock)
            && PrecommitsHeld(c, seen, s.signed, s.height, s.round, s.lockedRound, s.lockedBlock)
            && PrecommitsBacked(c, seen, s.signed)
            && PrevotesJustified(c, seen, s.signed)
            && FinalizedOk(c, seen, s.finalized)
  {
    var seen := s.seen + {vote};
    forall kind, h: nat, r: nat, id | Backed(c, s.seen, kind, h, r, id) ensures Backed(c, seen, kind, h, r, id) {
      BackedMonotone(c, s.seen, seen, kind, h, r, id);
    }
  }

  /** What a node may be given: a vote, a timeout it scheduled, anything else. */
  ghost predicate MayArrive(s: RoundState, input: Input) {
    input.Tock? ==> input.ti in s.scheduled
  }

  lemma CurrentVoteKept(c: Chain, o: Oracle, s: RoundState, vote: Vote)
    requires Inv(c, s) && !s.halted && vote.height == s.height
    ensures var s' := AddVoteMsg(c, o, s, vote); Inv(c, s') && Grew(s, s') && s'.seen == s.seen + {vote}
  {
    hide Inv, Grew, AfterPrevote, AfterPrecommit, Conflicts, AddVote;
    RecordKept(c, s, vote);
    var (s1, added) := Record(c, s, vote);
    AfterPrevoteKept(c, o, s1, vote.round);
    AfterPrecommitKept(c, o, s1, vote.round);
    var s2 := if !added then s1
              else if vote.kind.Prevote? then AfterPrevote(c, o, s1, vote.round)
              else AfterPrecommit(c, o, s1, vote.round);
    GrewTransitive(s, s1, s2);
    ReportKept(c, o, s, s2, Conflicts(c.powers(s.height), VotesAt(s, vote.round, vote.kind), vote.val, vote.id));
  }

  lemma GrewTransitive(s: RoundState, t: RoundState, u: RoundState)
    requires Grew(s, t) && (u == t || Grew(t, u))
    ensures Grew(s, u)
  {
  }

  /** Every message and timeout keeps the invariant and only adds to the history. */
  lemma HandleKept(c: Chain, o: Oracle, s: RoundState, input: Input)
    requires Inv(c, s) && MayArrive(s, input)
    ensures var s' := Handle(c, o, s, input);
            && Inv(c, s') && Grew(s, s')
            && s'.seen <= s.seen + (if input.VoteMsg? then {input.vote} else {})
  {
    hide TimeoutsOk, RequestsOk, SignedOk, VotesOk, LockOk, PrecommitsHeld, PrecommitsBacked, PrevotesJustified,
         SignedValid, FinalizedOk, LedgerOk;
    if s.halted {
      return;
    }
    match input
    case VoteMsg(vote) =>
      if vote.height + 1 == s.height && vote.kind.Precommit? {
        AddLateVoteKept(c, o, s, vote);
      } else if vote.height == s.height {
        CurrentVoteKept(c, o, s, vote);
      }
    case ProposalMsg(p, authentic) =>
    case BlockMsg(height, block) => AddBlockKept(c, o, s, height, block);
    case Tock(ti) => HandleTimeoutKept(c, o, s, ti);
    case TxsAvailable => EnterProposeKept(c, o, s, s.height, 0);
    case Maj23Msg(round, kind, peer, id) => HandleMaj23Kept(c, s, round, kind, peer, id);
  }

  lemma StartOk(c: Chain, self: nat)
    ensures Inv(c, Start(self))
  {
  }
}
