/** Runs of four equal validators, the proposer faulty, in which the others agree on a block
    that a further node holds, but not with the parts of the header it is agreed under, or
    with evidence that its pool refuses. */
module HaltingExample {
  import opened Common
  import opened Quorums
  import opened VoteSets
  import opened Consensus
  import opened ConsensusInvariants
  import opened Agreement
  import Halting

  const POWERS: seq<nat> := [0, 1, 1, 1, 1]

  const HONEST: set<nat> := {0, 1, 2, 3}

  const FAULTY := 4

  ghost predicate Rules(c: Chain, o: Oracle, block: nat) {
    && (forall h :: c.powers(h) == POWERS) && c.valid(1, block)
    && o.keyed && !o.waitForTxs && !o.skipTimeoutCommit && forall at :: o.signs(at)
  }

  ghost predicate Setting(c: Chain, o: Oracle, block: nat) {
    Rules(c, o, block) && o.passes(1, block)
  }

  lemma ThreeOfFour(c: Chain, o: Oracle, block: nat)
    requires Rules(c, o, block)
    ensures Total(POWERS) == 4 && Threshold(POWERS) == 3 && MostlyHonest(c, HONEST)
  {
    assert POWERS[..4] == [0, 1, 1, 1] && POWERS[..4][..3] == [0, 1, 1];
    assert [0, 1, 1][..2] == [0, 1] && [0, 1][..1] == [0];
    assert Total([0, 1]) == 1;
    assert Total([0, 1, 1]) == 2;
    assert Total([0, 1, 1, 1]) == 3;
    forall h: nat ensures 3 * Power(c.powers(h), Faulty(c, HONEST, h)) < Total(c.powers(h)) {
      assert Faulty(c, HONEST, h) == {4};
      FaultyPower();
    }
  }

  lemma FaultyPower()
    ensures Power(POWERS, {4}) == 1
  {
    PowerEmpty(POWERS);
    PowerAdd(POWERS, {}, 4);
    assert {} + {4} == {4};
  }

  // ----- the votes of 4, 1 and 2, one after the other

  function Counted(id: BlockID, voters: set<nat>, votes: map<nat, BlockID>, n: nat): VoteSet {
    VoteSet(votes, map[id := BlockVotes(false, voters, n)], n, if n >= 3 then Some(id) else None, map[])
  }

  function One(id: BlockID): VoteSet { Counted(id, {4}, map[4 := id], 1) }

  function Two(id: BlockID): VoteSet { Counted(id, {4, 1}, map[4 := id, 1 := id], 2) }

  function Three(id: BlockID): VoteSet { Counted(id, {4, 1, 2}, map[4 := id, 1 := id, 2 := id], 3) }

  /** One more vote for the only block there is. */
  lemma CountsOn(id: BlockID, voters: set<nat>, votes: map<nat, BlockID>, n: nat, val: nat)
    requires Threshold(POWERS) == 3 && n < 3 && 1 <= val <= 4 && val !in voters && val !in votes
    requires n == 2 ==> forall v :: v in votes <==> v in voters
    requires n == 2 ==> forall v :: v in votes ==> votes[v] == id
    ensures AddVote(POWERS, Counted(id, voters, votes, n), val, id) ==
            (Counted(id, voters + {val}, votes[val := id], n + 1), true)
    ensures !Conflicts(POWERS, Counted(id, voters, votes, n), val, id)
  {
    hide Threshold;
    var vs := Counted(id, voters, votes, n);
    var vs' := vs.(votes := votes[val := id], sum := n + 1);
    assert AddVote(POWERS, vs, val, id) == (Tally(POWERS, vs', val, id), true);
    assert map[id := BlockVotes(false, voters, n)][id := BlockVotes(false, voters + {val}, n + 1)] ==
           map[id := BlockVotes(false, voters + {val}, n + 1)];
    if n == 2 {
      assert Overlay(votes[val := id], voters + {val}, id) == votes[val := id];
    }
  }

  lemma Counts(id: BlockID)
    requires Threshold(POWERS) == 3
    ensures AddVote(POWERS, EMPTY, 4, id) == (One(id), true) && !Conflicts(POWERS, EMPTY, 4, id)
    ensures AddVote(POWERS, One(id), 1, id) == (Two(id), true) && !Conflicts(POWERS, One(id), 1, id)
    ensures AddVote(POWERS, Two(id), 2, id) == (Three(id), true) && !Conflicts(POWERS, Two(id), 2, id)
  {
    CountsFirst(id);
    hide AddVote, Threshold, Conflicts;
    CountsOn(id, {4}, map[4 := id], 1, 1);
    CountsOn(id, {4, 1}, map[4 := id, 1 := id], 2, 2);
    assert {4} + {1} == {4, 1} && {4, 1} + {2} == {4, 1, 2};
  }

  lemma CountsFirst(id: BlockID)
    requires Threshold(POWERS) == 3
    ensures AddVote(POWERS, EMPTY, 4, id) == (One(id), true) && !Conflicts(POWERS, EMPTY, 4, id)
  {
    assert {} + {4} == {4};
  }

  // ----- steps of one node

  function Proposed(block: nat, header: nat): Input {
    ProposalMsg(Proposal(1, 0, -1, ID(block, header)), true)
  }

  function Cast(kind: Kind, id: BlockID, val: nat): Vote {
    Vote(kind, 1, 0, id, val)
  }

  /** States of a node under inputs that may arrive. */
  ghost predicate Moves(c: Chain, o: Oracle, ss: seq<RoundState>, inputs: seq<Input>) {
    && |ss| == |inputs| + 1
    && forall i :: 0 <= i < |inputs| ==> MovesAt(c, o, ss, inputs, i)
  }

  ghost predicate MovesAt(c: Chain, o: Oracle, ss: seq<RoundState>, inputs: seq<Input>, i: nat)
    requires i < |inputs| < |ss|
  {
    MayArrive(ss[i], inputs[i]) && ss[i + 1] == Handle(c, o, ss[i], inputs[i])
  }

  function Ballots(kind: Kind, id: BlockID): seq<Input> {
    [VoteMsg(Cast(kind, id, 4)), VoteMsg(Cast(kind, id, 1)), VoteMsg(Cast(kind, id, 2))]
  }

  /** Voting at height 1, round 0. */
  predicate Voting(s: RoundState) {
    !s.halted && s.height == 1 && s.round == 0 && PREVOTE <= s.step < COMMIT
  }

  function Noted(s: RoundState, vote: Vote, votes: VoteSet): RoundState {
    s.(votes := s.votes[(0, vote.kind) := votes], seen := s.seen + {vote})
  }

  /** A vote short of a majority is only noted. */
  lemma BelowMajority(c: Chain, o: Oracle, s: RoundState, block: nat, kind: Kind, id: BlockID, val: nat, votes: VoteSet)
    requires Rules(c, o, block) && Voting(s) && Total(POWERS) == 4
    requires AddVote(POWERS, VotesAt(s, 0, kind), val, id) == (votes, true) && votes.maj23.None? && votes.sum <= 2
    ensures Handle(c, o, s, VoteMsg(Cast(kind, id, val))) == Noted(s, Cast(kind, id, val), votes)
  {
    hide AddVote, Total, Conflicts;
    var s1 := Noted(s, Cast(kind, id, val), votes);
    assert VotesAt(s1, 0, kind) == votes;
  }

  /** The votes of 4 and 1. */
  lemma TwoNoted(c: Chain, o: Oracle, s: RoundState, block: nat, kind: Kind, id: BlockID)
    returns (s1: RoundState, s2: RoundState)
    requires Rules(c, o, block) && Voting(s) && VotesAt(s, 0, kind) == EMPTY
    ensures s1 == Handle(c, o, s, VoteMsg(Cast(kind, id, 4))) && s2 == Handle(c, o, s1, VoteMsg(Cast(kind, id, 1)))
    ensures s2 == s.(votes := s2.votes, seen := s2.seen) && VotesAt(s2, 0, kind) == Two(id)
    ensures forall other: Kind :: other != kind ==> VotesAt(s2, 0, other) == VotesAt(s, 0, other)
  {
    ThreeOfFour(c, o, block);
    Counts(id);
    hide AddVote, Handle, Rules, Threshold, Total, Conflicts, MostlyHonest;
    BelowMajority(c, o, s, block, kind, id, 4, One(id));
    s1 := Noted(s, Cast(kind, id, 4), One(id));
    assert VotesAt(s1, 0, kind) == One(id);
    BelowMajority(c, o, s1, block, kind, id, 1, Two(id));
    s2 := Noted(s1, Cast(kind, id, 1), Two(id));
    assert VotesAt(s2, 0, kind) == Two(id);
  }

  // ----- a validator, up to its precommit

  predicate Prevoted(s: RoundState, n: nat, block: nat, header: nat) {
    && Voting(s) && s.step == PREVOTE && s.self == n && s.votes == map[]
    && s.proposal.Some? && s.proposal.value.polRound == -1 && s.openRound == 1
    && s.proposalBlock == Some(block) && s.proposalParts == Some(PartSet(header, 0))
    && s.lockedBlock.None? && s.validRound == -1
    && Cast(Prevote, ID(block, header), n) in s.signed
  }

  lemma ValidatorPrevotes(c: Chain, o: Oracle, n: nat, block: nat, header: nat) returns (ss: seq<RoundState>)
    requires Setting(c, o, block) && 1 <= n <= 3
    ensures Moves(c, o, ss, [Tock(Timeout(1, 0, NEW_HEIGHT)), Proposed(block, header), BlockMsg(1, Some(block))])
    ensures ss[0] == Start(n) && Prevoted(ss[3], n, block, header)
  {
    var inputs := [Tock(Timeout(1, 0, NEW_HEIGHT)), Proposed(block, header), BlockMsg(1, Some(block))];
    var s1 := Handle(c, o, Start(n), inputs[0]);
    var s2 := Handle(c, o, s1, inputs[1]);
    var s3 := Handle(c, o, s2, inputs[2]);
    ss := [Start(n), s1, s2, s3];
    assert s2 == Start(n).(step := PROPOSE, openRound := 1, scheduled := s2.scheduled, made := 1,
                           proposal := Some(inputs[1].proposal), proposalParts := Some(PartSet(header, 0)));
  }

  lemma ValidatorPrecommits(c: Chain, o: Oracle, s: RoundState, n: nat, block: nat, header: nat)
    returns (ss: seq<RoundState>)
    requires Setting(c, o, block) && 1 <= n <= 3 && Prevoted(s, n, block, header)
    ensures var id := ID(block, header);
            Moves(c, o, ss, Ballots(Prevote, id))
    ensures ss[0] == s && Cast(Precommit, ID(block, header), n) in ss[3].signed
  {
    hide Handle, Rules;
    var id := ID(block, header);
    var s1, s2 := TwoNoted(c, o, s, block, Prevote, id);
    var s3 := Handle(c, o, s2, VoteMsg(Cast(Prevote, id, 2)));
    PolkaSigned(c, o, s2, n, block, header);
    ss := [s, s1, s2, s3];
  }

  lemma PolkaSigned(c: Chain, o: Oracle, s: RoundState, n: nat, block: nat, header: nat)
    requires Setting(c, o, block) && 1 <= n <= 3 && Prevoted(s.(votes := map[]), n, block, header)
    requires VotesAt(s, 0, Prevote) == Two(ID(block, header))
    ensures var id := ID(block, header);
            Cast(Precommit, id, n) in Handle(c, o, s, VoteMsg(Cast(Prevote, id, 2))).signed
  {
    ThreeOfFour(c, o, block);
    Counts(ID(block, header));
    hide AddVote, Threshold, Total, Conflicts, MostlyHonest;
    var id := ID(block, header);
    var s1 := Noted(s, Cast(Prevote, id, 2), Three(id));
    assert Majority(s1, 0, Prevote) == Some(id);
    assert Handle(c, o, s, VoteMsg(Cast(Prevote, id, 2))) == AfterPrevote(c, o, s1, 0);
    var s2 := MaybeSetValid(s1, 0, id);
    assert s2 == SetValid(s1, 0) && IsProposalComplete(s2);
    Halting.PolIsLate(s2, 0, s2.openRound);
    assert AfterPrevote(c, o, s1, 0) == EnterPrecommit(c, o, s2, 1, 0);
    assert LockOn(c, o, s2, 0, id).signed == s2.signed + {Cast(Precommit, id, n)};
  }

  // ----- the node that holds the block under another header

  predicate Holding(s: RoundState, block: nat, header: nat) {
    && Voting(s) && s.step == PREVOTE && s.self == 0 && s.votes == map[] && s.openRound == 0 && s.finalized == {}
    && s.proposal.Some? && s.proposal.value.polRound == -1
    && s.proposalBlock == Some(block) && s.proposalParts == Some(PartSet(header, 0)) && s.made == 1 && s.complete == {0}
    && s.lockedBlock.None? && s.validRound == -1
  }

  lemma OtherHolds(c: Chain, o: Oracle, block: nat, header: nat) returns (ss: seq<RoundState>)
    requires Rules(c, o, block)
    ensures Moves(c, o, ss, [Proposed(block, header), BlockMsg(1, Some(block))])
    ensures ss[0] == Start(0) && Holding(ss[2], block, header)
  {
    var s1 := Handle(c, o, Start(0), Proposed(block, header));
    ss := [Start(0), s1, Handle(c, o, s1, BlockMsg(1, Some(block)))];
    assert s1 == Start(0).(made := 1, proposal := Some(Proposed(block, header).proposal),
                           proposalParts := Some(PartSet(header, 0)));
  }

  /** About to commit: the block, locked or proposed, without its parts. */
  predicate Lacking(s: RoundState, block: nat, header: nat) {
    && Voting(s) && s.self == 0 && s.finalized == {}
    && if s.step == PREVOTE
       then VotesAt(s, 0, Prevote) == EMPTY && s.lockedBlock.None?
            && s.proposalBlock == Some(block) && !HasHeader(s.proposalParts, header)
       else s.step == PRECOMMIT && s.lockedBlock == Some(block) && HasHeader(s.lockedParts, header)
            && !IsComplete(s, s.lockedParts)
  }

  lemma ClashHalts(c: Chain, o: Oracle, s: RoundState, block: nat, header: nat)
    requires Setting(c, o, block) && Lacking(s, block, header) && VotesAt(s, 0, Precommit) == Two(ID(block, header))
    ensures Handle(c, o, s, VoteMsg(Cast(Precommit, ID(block, header), 2))).halted
  {
    ThreeOfFour(c, o, block);
    var id := ID(block, header);
    Counts(id);
    hide AddVote, Threshold, Total, Conflicts, MostlyHonest, HasAll;
    var s1 := Noted(s, Cast(Precommit, id, 2), Three(id));
    assert Majority(s1, 0, Precommit) == Some(id) && VotesAt(s1, 0, Prevote) == VotesAt(s, 0, Prevote);
    assert Handle(c, o, s, VoteMsg(Cast(Precommit, id, 2))) == AfterPrecommit(c, o, s1, 0);
    hide EnterCommit, Majority;
    var s2 := EnterPrecommit(c, o, EnterNewRound(c, o, s1, 1, 0), 1, 0);
    PrecommitsNil(c, o, s1);
    CannotCommit(c, o, s2, id);
  }

  /** Without a majority of prevotes the node goes to the precommit step and signs nothing that
      counts. */
  lemma PrecommitsNil(c: Chain, o: Oracle, s: RoundState)
    requires Voting(s) && s.self == 0 && c.powers(1) == POWERS
    requires s.step == PREVOTE ==> VotesAt(s, 0, Prevote) == EMPTY && s.lockedBlock.None?
    requires s.step == PREVOTE || s.step == PRECOMMIT
    ensures EnterPrecommit(c, o, EnterNewRound(c, o, s, 1, 0), 1, 0) == s.(step := PRECOMMIT)
  {
  }

  lemma CannotCommit(c: Chain, o: Oracle, s: RoundState, id: BlockID)
    requires Voting(s) && s.finalized == {} && s.step == PRECOMMIT && id.ID? && Majority(s, 0, Precommit) == Some(id)
    requires if HashesTo(s.lockedBlock, id) then !IsComplete(s, s.lockedParts)
             else HashesTo(s.proposalBlock, id) && !HasHeader(s.proposalParts, id.parts)
    ensures EnterCommit(c, o, s, 1, 0).halted
  {
  }

  lemma OtherHalts(c: Chain, o: Oracle, s: RoundState, block: nat, header: nat) returns (ss: seq<RoundState>)
    requires Setting(c, o, block) && Lacking(s, block, header) && VotesAt(s, 0, Precommit) == EMPTY
    ensures var id := ID(block, header);
            Moves(c, o, ss, Ballots(Precommit, id))
    ensures ss[0] == s && !ss[2].halted && ss[3].halted
    ensures ss[2].lockedBlock == s.lockedBlock && ss[2].lockedParts == s.lockedParts
  {
    hide Handle, Rules;
    var id := ID(block, header);
    var s1, s2 := TwoNoted(c, o, s, block, Precommit, id);
    ClashHalts(c, o, s2, block, header);
    ss := [s, s1, s2, Handle(c, o, s2, VoteMsg(Cast(Precommit, id, 2)))];
  }

  /** The polka brings a new part set, and the lock takes it. */
  lemma PolkaEmpties(c: Chain, o: Oracle, s: RoundState, block: nat, header: nat, other: nat)
    requires Setting(c, o, block) && header != other && Holding(s.(votes := map[]), block, other)
    requires VotesAt(s, 0, Prevote) == Two(ID(block, header)) && VotesAt(s, 0, Precommit) == EMPTY
    ensures var s' := Handle(c, o, s, VoteMsg(Cast(Prevote, ID(block, header), 2)));
            Lacking(s', block, header) && VotesAt(s', 0, Precommit) == EMPTY && s'.step == PRECOMMIT
  {
    ThreeOfFour(c, o, block);
    var id := ID(block, header);
    Counts(id);
    hide AddVote, Threshold, Total, Conflicts, MostlyHonest;
    var s1 := Noted(s, Cast(Prevote, id, 2), Three(id));
    assert Majority(s1, 0, Prevote) == Some(id) && VotesAt(s1, 0, Precommit) == EMPTY;
    assert Handle(c, o, s, VoteMsg(Cast(Prevote, id, 2))) == AfterPrevote(c, o, s1, 0);
    var s2 := MaybeSetValid(s1, 0, id);
    assert s2 == Collect(SetValid(s1, 0), header) && IsProposalComplete(s2);
    Halting.PolIsLate(s2, 0, s2.openRound);
    assert AfterPrevote(c, o, s1, 0) == EnterPrecommit(c, o, s2, 1, 0);
  }

  lemma OtherLocks(c: Chain, o: Oracle, s: RoundState, block: nat, header: nat, other: nat)
    returns (ss: seq<RoundState>)
    requires Setting(c, o, block) && header != other && Holding(s, block, other)
    ensures var id := ID(block, header);
            Moves(c, o, ss, Ballots(Prevote, id))
    ensures ss[0] == s && Lacking(ss[3], block, header) && VotesAt(ss[3], 0, Precommit) == EMPTY
    ensures ss[3].step == PRECOMMIT
  {
    hide Handle, Rules;
    var id := ID(block, header);
    var s1, s2 := TwoNoted(c, o, s, block, Prevote, id);
    PolkaEmpties(c, o, s2, block, header, other);
    ss := [s, s1, s2, Handle(c, o, s2, VoteMsg(Cast(Prevote, id, 2)))];
  }

  // ----- the node whose pool refuses the block

  lemma PolkaRefused(c: Chain, o: Oracle, s: RoundState, block: nat, header: nat)
    requires Rules(c, o, block) && !o.passes(1, block) && Holding(s.(votes := map[]), block, header)
    requires VotesAt(s, 0, Prevote) == Two(ID(block, header))
    ensures Handle(c, o, s, VoteMsg(Cast(Prevote, ID(block, header), 2))).halted
  {
    ThreeOfFour(c, o, block);
    var id := ID(block, header);
    Counts(id);
    hide AddVote, Threshold, Total, Conflicts, MostlyHonest;
    var s1 := Noted(s, Cast(Prevote, id, 2), Three(id));
    assert Majority(s1, 0, Prevote) == Some(id);
    assert Handle(c, o, s, VoteMsg(Cast(Prevote, id, 2))) == AfterPrevote(c, o, s1, 0);
    var s2 := MaybeSetValid(s1, 0, id);
    assert s2 == SetValid(s1, 0) && IsProposalComplete(s2);
    assert AfterPrevote(c, o, s1, 0) == EnterPrecommit(c, o, s2, 1, 0);
  }

  lemma OtherRefuses(c: Chain, o: Oracle, s: RoundState, block: nat, header: nat) returns (ss: seq<RoundState>)
    requires Rules(c, o, block) && !o.passes(1, block) && Holding(s, block, header)
    ensures Moves(c, o, ss, Ballots(Prevote, ID(block, header)))
    ensures ss[0] == s && !ss[2].halted && ss[3].halted
  {
    hide Handle, Rules;
    var id := ID(block, header);
    var s1, s2 := TwoNoted(c, o, s, block, Prevote, id);
    PolkaRefused(c, o, s2, block, header);
    ss := [s, s1, s2, Handle(c, o, s2, VoteMsg(Cast(Prevote, id, 2)))];
  }

  // ----- runs

  /** Part of a run. */
  ghost predicate Path(c: Chain, gs: seq<Net>, es: seq<Event>) {
    && |gs| == |es| + 1
    && forall i :: 0 <= i < |es| ==> PathAt(c, gs, es, i)
  }

  ghost predicate PathAt(c: Chain, gs: seq<Net>, es: seq<Event>, i: nat)
    requires i < |es| < |gs|
  {
    && Enabled(gs[i], es[i]) && gs[i + 1] == Next(c, gs[i], es[i])
    && (es[i].Deliver? ==> AtStart(es[i].input))
  }

  lemma Joined(c: Chain, gs: seq<Net>, es: seq<Event>, more: seq<Net>, next: seq<Event>)
    requires Path(c, gs, es) && Path(c, more, next) && more[0] == gs[|es|]
    ensures Path(c, gs[..|es|] + more, es + next)
  {
    hide PathAt;
    var all, events := gs[..|es|] + more, es + next;
    forall i | 0 <= i < |events| ensures PathAt(c, all, events, i) {
      if i < |es| {
        SamePlace(c, gs, es, i, all, events, i);
      } else {
        SamePlace(c, more, next, i - |es|, all, events, i);
      }
    }
  }

  lemma SamePlace(c: Chain, gs: seq<Net>, es: seq<Event>, i: nat, all: seq<Net>, events: seq<Event>, j: nat)
    requires i < |es| < |gs| && j < |events| < |all| && PathAt(c, gs, es, i)
    requires all[j] == gs[i] && all[j + 1] == gs[i + 1] && events[j] == es[i]
    ensures PathAt(c, all, events, j)
  {
  }

  predicate AtStart(input: Input) {
    input.ProposalMsg? ==> input.proposal.height == 1 && input.proposal.round == 0
  }

  lemma MovesBefore(c: Chain, o: Oracle, ss: seq<RoundState>, inputs: seq<Input>, k: nat)
    requires Moves(c, o, ss, inputs) && k <= |inputs|
    ensures Moves(c, o, ss[..k + 1], inputs[..k])
  {
    hide Handle, MayArrive;
    var before, some := ss[..k + 1], inputs[..k];
    forall i | 0 <= i < k ensures MovesAt(c, o, before, some, i) {
      assert MovesAt(c, o, ss, inputs, i);
    }
  }

  /** Inputs for one node, one after the other. */
  lemma {:induction false} Delivered(c: Chain, o: Oracle, g: Net, n: nat, ss: seq<RoundState>, inputs: seq<Input>)
    returns (gs: seq<Net>, es: seq<Event>)
    requires n in g.nodes && Moves(c, o, ss, inputs) && ss[0] == g.nodes[n]
    requires forall i :: 0 <= i < |inputs| ==> AtStart(inputs[i]) && (inputs[i].VoteMsg? ==> inputs[i].vote in g.cast)
    ensures Path(c, gs, es) && gs[0] == g && |es| == |inputs|
    ensures var last := gs[|es|];
            && last.nodes == g.nodes[n := ss[|inputs|]] && g.cast <= last.cast
            && (|inputs| > 0 ==> ss[|inputs|].signed <= last.cast)
    ensures |inputs| > 0 ==> n in gs[|es| - 1].nodes && gs[|es| - 1].nodes[n] == ss[|inputs| - 1]
  {
    hide Handle, MayArrive;
    if |inputs| == 0 {
      gs, es := [g], [];
      assert g.nodes[n := ss[0]] == g.nodes;
    } else {
      var k := |inputs| - 1;
      assert MovesAt(c, o, ss, inputs, k);
      MovesBefore(c, o, ss, inputs, k);
      gs, es := Delivered(c, o, g, n, ss[..k + 1], inputs[..k]);
      var before := gs[k];
      var e := Deliver(n, inputs[k], o);
      var after := Next(c, before, e);
      assert PathAt(c, [before, after], [e], 0);
      Joined(c, gs, es, [before, after], [e]);
      assert after.nodes == g.nodes[n := ss[k + 1]];
      gs, es := gs[..k] + [before, after], es + [e];
    }
  }

  /** At most one proposal of an honest proposer is authentic, for each height and round. */
  ghost predicate OneProposal(proposer: (nat, nat) -> nat, events: seq<Event>) {
    forall i, j :: 0 <= i < |events| && 0 <= j < |events| && Authentic(events[i]) && Authentic(events[j]) ==>
      var p, q := events[i].input.proposal, events[j].input.proposal;
      p.height == q.height && p.round == q.round && proposer(p.height, p.round) in HONEST ==> p == q
  }

  predicate Authentic(e: Event) {
    e.Deliver? && e.input.ProposalMsg? && e.input.authentic
  }

  /** What leads to the majorities: the votes of the faulty proposer and of validators 1 and 2. */
  lemma {:induction false} Votes(c: Chain, o: Oracle, block: nat, header: nat) returns (gs: seq<Net>, es: seq<Event>)
    requires Setting(c, o, block)
    ensures Path(c, gs, es) && gs[0] == Init(HONEST)
    ensures var last, id := gs[|es|], ID(block, header);
            && 0 in last.nodes && last.nodes[0] == Start(0)
            && forall kind, val :: val in {4, 1, 2} ==> Cast(kind, id, val) in last.cast
  {
    hide Handle, Rules, PathAt, MovesAt;
    var id := ID(block, header);
    gs, es := Forged(c, id);
    var first := [Tock(Timeout(1, 0, NEW_HEIGHT)), Proposed(block, header), BlockMsg(1, Some(block))];
    var s1 := ValidatorPrevotes(c, o, 1, block, header);
    gs, es := Extended(c, o, gs, es, 1, s1, first);
    var s2 := ValidatorPrevotes(c, o, 2, block, header);
    gs, es := Extended(c, o, gs, es, 2, s2, first);
    var t1 := ValidatorPrecommits(c, o, s1[3], 1, block, header);
    gs, es := Extended(c, o, gs, es, 1, t1, Ballots(Prevote, id));
    var t2 := ValidatorPrecommits(c, o, s2[3], 2, block, header);
    gs, es := Extended(c, o, gs, es, 2, t2, Ballots(Prevote, id));
    forall kind, val | val in {4, 1, 2} ensures Cast(kind, id, val) in gs[|es|].cast {
      assert kind == Prevote || kind == Precommit;
    }
  }

  lemma Forged(c: Chain, id: BlockID) returns (gs: seq<Net>, es: seq<Event>)
    ensures Path(c, gs, es) && gs[0] == Init(HONEST) && gs[|es|].nodes == Init(HONEST).nodes
    ensures Cast(Prevote, id, 4) in gs[|es|].cast && Cast(Precommit, id, 4) in gs[|es|].cast
  {
    var first := Init(HONEST);
    es := [Forge(Cast(Prevote, id, 4)), Forge(Cast(Precommit, id, 4))];
    var second := Next(c, first, es[0]);
    gs := [first, second, Next(c, second, es[1])];
    assert PathAt(c, gs, es, 0) && PathAt(c, gs, es, 1);
  }

  /** A path goes on with inputs for one node. */
  lemma {:induction false} Extended(c: Chain, o: Oracle, gs: seq<Net>, es: seq<Event>, n: nat, ss: seq<RoundState>,
                                    inputs: seq<Input>) returns (more: seq<Net>, events: seq<Event>)
    requires Path(c, gs, es) && Moves(c, o, ss, inputs) && |inputs| > 0
    requires var g := gs[|es|];
             && n in g.nodes && ss[0] == g.nodes[n]
             && forall i :: 0 <= i < |inputs| ==>
                  AtStart(inputs[i]) && (inputs[i].VoteMsg? ==> inputs[i].vote in g.cast)
    ensures Path(c, more, events) && more[0] == gs[0] && |events| == |es| + |inputs|
    ensures var g, last := gs[|es|], more[|events|];
            && last.nodes == g.nodes[n := ss[|inputs|]] && g.cast + ss[|inputs|].signed <= last.cast
    ensures var before := more[|events| - 1]; n in before.nodes && before.nodes[n] == ss[|inputs| - 1]
  {
    hide Handle, PathAt, MovesAt;
    var next, added := Delivered(c, o, gs[|es|], n, ss, inputs);
    Joined(c, gs, es, next, added);
    more, events := gs[..|es|] + next, es + added;
    assert more[|events|] == next[|added|] && more[|events| - 1] == next[|added| - 1];
    assert more[0] == gs[0];
  }

  /** Node 0, not halted, halts at the last event. */
  ghost predicate HaltsAtLast(run: seq<Net>, events: seq<Event>) {
    && |run| == |events| + 1 > 1
    && 0 in run[|events| - 1].nodes && !run[|events| - 1].nodes[0].halted
    && 0 in run[|events|].nodes && run[|events|].nodes[0].halted
  }

  lemma PathIsRun(c: Chain, run: seq<Net>, events: seq<Event>, proposer: (nat, nat) -> nat)
    requires Path(c, run, events) && run[0] == Init(HONEST) && proposer(1, 0) == FAULTY
    ensures IsRun(c, HONEST, run, events) && OneProposal(proposer, events)
  {
    hide Next, Enabled;
    forall i | 0 <= i < |events| ensures Enabled(run[i], events[i]) && run[i + 1] == Next(c, run[i], events[i]) {
      assert PathAt(c, run, events, i);
    }
    forall i | 0 <= i < |events| && Authentic(events[i])
      ensures events[i].input.proposal.height == 1 && events[i].input.proposal.round == 0
    {
      assert PathAt(c, run, events, i);
    }
  }

  /** The faulty proposer gives node 0 the block under another header than the others. The
      commit finds the block, but not under its own header. */
  lemma {:induction false} TwoHeadersHalt(c: Chain, o: Oracle, block: nat, header: nat, other: nat,
                                          proposer: (nat, nat) -> nat) returns (run: seq<Net>, events: seq<Event>)
    requires Setting(c, o, block) && header != other && proposer(1, 0) == FAULTY
    ensures MostlyHonest(c, HONEST) && IsRun(c, HONEST, run, events) && OneProposal(proposer, events)
    ensures HaltsAtLast(run, events)
  {
    hide Handle, Rules, PathAt, MovesAt, MostlyHonest, IsRun, OneProposal;
    ThreeOfFour(c, o, block);
    var id := ID(block, header);
    run, events := Votes(c, o, block, header);
    var ss := OtherHolds(c, o, block, other);
    run, events := Extended(c, o, run, events, 0, ss, [Proposed(block, other), BlockMsg(1, Some(block))]);
    var ts := OtherHalts(c, o, ss[2], block, header);
    run, events := Extended(c, o, run, events, 0, ts, Ballots(Precommit, id));
    PathIsRun(c, run, events, proposer);
  }

  /** With the prevotes in between, node 0 locks the block with a part set of the right header
      that is still empty, and the commit cannot save it. */
  lemma {:induction false} EmptyPartsHalt(c: Chain, o: Oracle, block: nat, header: nat, other: nat,
                                          proposer: (nat, nat) -> nat) returns (run: seq<Net>, events: seq<Event>)
    requires Setting(c, o, block) && header != other && proposer(1, 0) == FAULTY
    ensures MostlyHonest(c, HONEST) && IsRun(c, HONEST, run, events) && OneProposal(proposer, events)
    ensures HaltsAtLast(run, events)
    ensures var s := run[|events| - 1].nodes[0];
            s.lockedBlock == Some(block) && HasHeader(s.lockedParts, header)
  {
    hide Handle, Rules, PathAt, MovesAt, MostlyHonest, IsRun, OneProposal;
    ThreeOfFour(c, o, block);
    var id := ID(block, header);
    run, events := Votes(c, o, block, header);
    var ss := OtherHolds(c, o, block, other);
    run, events := Extended(c, o, run, events, 0, ss, [Proposed(block, other), BlockMsg(1, Some(block))]);
    var ls := OtherLocks(c, o, ss[2], block, header, other);
    run, events := Extended(c, o, run, events, 0, ls, Ballots(Prevote, id));
    var ts := OtherHalts(c, o, ls[3], block, header);
    run, events := Extended(c, o, run, events, 0, ts, Ballots(Precommit, id));
    PathIsRun(c, run, events, proposer);
  }

  /** The others prevote a block with evidence that is in their pools and not in node 0's. */
  lemma {:induction false} PoolsDifferHalt(c: Chain, o: Oracle, other: Oracle, block: nat, header: nat,
                                           proposer: (nat, nat) -> nat) returns (run: seq<Net>, events: seq<Event>)
    requires Setting(c, o, block) && Rules(c, other, block) && !other.passes(1, block) && proposer(1, 0) == FAULTY
    ensures MostlyHonest(c, HONEST) && IsRun(c, HONEST, run, events) && OneProposal(proposer, events)
    ensures HaltsAtLast(run, events)
  {
    hide Handle, Rules, PathAt, MovesAt, MostlyHonest, IsRun, OneProposal;
    ThreeOfFour(c, o, block);
    run, events := Votes(c, o, block, header);
    var ss := OtherHolds(c, other, block, header);
    run, events := Extended(c, other, run, events, 0, ss, [Proposed(block, header), BlockMsg(1, Some(block))]);
    var ts := OtherRefuses(c, other, ss[2], block, header);
    run, events := Extended(c, other, run, events, 0, ts, Ballots(Prevote, ID(block, header)));
    PathIsRun(c, run, events, proposer);
  }
}
