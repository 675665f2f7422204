/** types/vote_set.go: the votes of one type collected for one height and round. */
module VoteSets {
  import opened Common
  import opened Quorums

  /** A vote is for a block, named by its hash and part-set header, or for nil. */
  datatype BlockID = NilID | ID(hash: nat, parts: nat)

  datatype BlockVotes = BlockVotes(peerMaj23: bool, voters: set<nat>, sum: nat)

  /** `votes` holds the canonical vote of each validator, `byBlock` every tracked
      block's voters, `claims` the majority each peer says it has. */
  datatype VoteSet = VoteSet(
    votes: map<nat, BlockID>,
    byBlock: map<BlockID, BlockVotes>,
    sum: nat,
    maj23: Option<BlockID>,
    claims: map<nat, BlockID>)

  const EMPTY := VoteSet(map[], map[], 0, None, map[])

  function Threshold(powers: seq<nat>): nat {
    Total(powers) * 2 / 3 + 1
  }

  predicate IsValidator(powers: seq<nat>, val: nat) {
    val < |powers| && powers[val] > 0
  }

  predicate Known(vs: VoteSet, val: nat, id: BlockID) {
    || (val in vs.votes && vs.votes[val] == id)
    || (id in vs.byBlock && val in vs.byBlock[id].voters)
  }

  /** The validator has voted for something else; addVerifiedVote reports that vote. */
  predicate Conflicts(powers: seq<nat>, vs: VoteSet, val: nat, id: BlockID) {
    IsValidator(powers, val) && val in vs.votes && !Known(vs, val, id)
  }

  function TwoThirdsAny(powers: seq<nat>, vs: VoteSet): bool {
    vs.sum > Total(powers) * 2 / 3
  }

  function HasAll(powers: seq<nat>, vs: VoteSet): bool {
    vs.sum == Total(powers)
  }

  /** Canonical votes after the voters of a block with a majority are copied over. */
  function Overlay(votes: map<nat, BlockID>, voters: set<nat>, id: BlockID): map<nat, BlockID> {
    map v | v in votes.Keys + voters :: if v in voters then id else votes[v]
  }

  /** The block's tally with the new vote, and the majority it may complete. */
  function Tally(powers: seq<nat>, vs: VoteSet, val: nat, id: BlockID): VoteSet
    requires IsValidator(powers, val)
  {
    var bv := if id in vs.byBlock then vs.byBlock[id] else BlockVotes(false, {}, 0);
    var bv' := bv.(voters := bv.voters + {val}, sum := bv.sum + powers[val]);
    var vs' := vs.(byBlock := vs.byBlock[id := bv']);
    if bv.sum < Threshold(powers) <= bv'.sum && vs.maj23.None? then
      vs'.(maj23 := Some(id), votes := Overlay(vs'.votes, bv'.voters, id))
    else
      vs'
  }

  /** Adds a vote whose address and signature have been checked. */
  function AddVote(powers: seq<nat>, vs: VoteSet, val: nat, id: BlockID): (VoteSet, bool)
  {
    if !IsValidator(powers, val) || Known(vs, val, id) then (vs, false)
    else if val in vs.votes then
      var vs' := if vs.maj23 == Some(id) then vs.(votes := vs.votes[val := id]) else vs;
      if id in vs.byBlock && vs.byBlock[id].peerMaj23 then (Tally(powers, vs', val, id), true)
      else (vs', false)
    else
      var vs' := vs.(votes := vs.votes[val := id], sum := vs.sum + powers[val]);
      (Tally(powers, vs', val, id), true)
  }

  /** A peer claims +2/3 for a block; the first claim of each peer counts. */
  function Claim(vs: VoteSet, peer: nat, id: BlockID): VoteSet
  {
    if peer in vs.claims then vs
    else
      var vs' := vs.(claims := vs.claims[peer := id]);
      if id in vs.byBlock then
        vs'.(byBlock := vs.byBlock[id := vs.byBlock[id].(peerMaj23 := true)])
      else
        vs'.(byBlock := vs.byBlock[id := BlockVotes(true, {}, 0)])
  }

  // ----- what every vote set built this way satisfies

  function VotedFor(vs: VoteSet, id: BlockID): set<nat> {
    set v | v in vs.votes && vs.votes[v] == id
  }

  ghost predicate BlockOk(powers: seq<nat>, vs: VoteSet, offered: set<(nat, BlockID)>, id: BlockID)
    requires id in vs.byBlock
  {
    var bv := vs.byBlock[id];
    && bv.sum == Power(powers, bv.voters)
    && (forall v :: v in bv.voters ==> IsValidator(powers, v) && (v, id) in offered && v in vs.votes)
    && (bv.sum >= Threshold(powers) ==> vs.maj23.Some?)
  }

  ghost predicate BlocksOk(powers: seq<nat>, vs: VoteSet, offered: set<(nat, BlockID)>) {
    forall id :: id in vs.byBlock ==> BlockOk(powers, vs, offered, id)
  }

  ghost predicate VotesOk(powers: seq<nat>, vs: VoteSet, offered: set<(nat, BlockID)>) {
    && vs.sum == Power(powers, vs.votes.Keys)
    && forall v :: v in vs.votes ==> IsValidator(powers, v) && (v, vs.votes[v]) in offered
  }

  predicate Tracked(vs: VoteSet, v: nat)
    requires v in vs.votes
  {
    || vs.maj23 == Some(vs.votes[v])
    || (vs.votes[v] in vs.byBlock && v in vs.byBlock[vs.votes[v]].voters)
  }

  predicate MajorityOk(powers: seq<nat>, vs: VoteSet) {
    vs.maj23.Some? ==>
      && vs.maj23.value in vs.byBlock
      && vs.byBlock[vs.maj23.value].sum >= Threshold(powers)
      && forall v :: v in vs.byBlock[vs.maj23.value].voters ==> v in vs.votes && vs.votes[v] == vs.maj23.value
  }

  ghost predicate Valid(powers: seq<nat>, vs: VoteSet, offered: set<(nat, BlockID)>)
  {
    && BlocksOk(powers, vs, offered)
    && VotesOk(powers, vs, offered)
    && MajorityOk(powers, vs)
    && forall v :: v in vs.votes ==> Tracked(vs, v)
  }

  lemma EmptyIsValid(powers: seq<nat>, offered: set<(nat, BlockID)>)
    ensures Valid(powers, EMPTY, offered)
  {
    PowerEmpty(powers);
    assert EMPTY.votes.Keys == {};
  }

  lemma ValidMonotone(powers: seq<nat>, vs: VoteSet, offered: set<(nat, BlockID)>, more: set<(nat, BlockID)>)
    requires Valid(powers, vs, offered) && offered <= more
    ensures Valid(powers, vs, more)
  {
    forall id | id in vs.byBlock ensures BlockOk(powers, vs, more, id) {
      assert BlockOk(powers, vs, offered, id);
    }
  }

  /** Every validator counted for the majority block has it as canonical vote, so a
      commit made from the canonical votes carries +2/3 for that block. */
  lemma MajorityIsQuorum(powers: seq<nat>, vs: VoteSet, offered: set<(nat, BlockID)>)
    requires Valid(powers, vs, offered) && vs.maj23.Some?
    ensures Quorum(powers, vs.byBlock[vs.maj23.value].voters)
    ensures Quorum(powers, VotedFor(vs, vs.maj23.value))
    ensures forall v :: v in VotedFor(vs, vs.maj23.value) ==> (v, vs.maj23.value) in offered
  {
    var id := vs.maj23.value;
    assert BlockOk(powers, vs, offered, id);
    QuorumThreshold(Total(powers), vs.byBlock[id].sum);
    PowerMonotone(powers, vs.byBlock[id].voters, VotedFor(vs, id));
  }

  // ----- the tally step, reached once `votes` records the new vote

  /** A set that is well formed but for the new vote, which is not tallied yet. */
  ghost predicate ReadyToTally(powers: seq<nat>, vs: VoteSet, offered: set<(nat, BlockID)>, val: nat, id: BlockID)
  {
    && IsValidator(powers, val) && (val, id) in offered && val in vs.votes
    && BlocksOk(powers, vs, offered)
    && VotesOk(powers, vs, offered)
    && MajorityOk(powers, vs)
    && (forall v :: v in vs.votes ==> Tracked(vs, v) || (v == val && vs.votes[v] == id))
    && (id in vs.byBlock ==> val !in vs.byBlock[id].voters)
    && (vs.maj23 == Some(id) ==> vs.votes[val] == id)
  }

  lemma TallyBlocks(powers: seq<nat>, vs: VoteSet, offered: set<(nat, BlockID)>, val: nat, id: BlockID)
    requires ReadyToTally(powers, vs, offered, val, id)
    ensures BlocksOk(powers, Tally(powers, vs, val, id), offered)
    ensures Tally(powers, vs, val, id).votes.Keys == vs.votes.Keys
  {
    var bv := if id in vs.byBlock then vs.byBlock[id] else BlockVotes(false, {}, 0);
    var after := Tally(powers, vs, val, id);
    if id in vs.byBlock { assert BlockOk(powers, vs, offered, id); } else { PowerEmpty(powers); }
    PowerAdd(powers, bv.voters, val);
    assert after.votes.Keys == vs.votes.Keys;
    forall b | b in after.byBlock ensures BlockOk(powers, after, offered, b) {
      if b in vs.byBlock { assert BlockOk(powers, vs, offered, b); }
    }
  }

  lemma TallyVotes(powers: seq<nat>, vs: VoteSet, offered: set<(nat, BlockID)>, val: nat, id: BlockID)
    requires ReadyToTally(powers, vs, offered, val, id)
    ensures VotesOk(powers, Tally(powers, vs, val, id), offered)
  {
    TallyBlocks(powers, vs, offered, val, id);
    var after := Tally(powers, vs, val, id);
    assert BlockOk(powers, after, offered, id);
    forall v | v in after.votes ensures IsValidator(powers, v) && (v, after.votes[v]) in offered {
      if v in after.byBlock[id].voters { assert (v, id) in offered; }
    }
  }

  lemma TallyMajority(powers: seq<nat>, vs: VoteSet, offered: set<(nat, BlockID)>, val: nat, id: BlockID)
    requires ReadyToTally(powers, vs, offered, val, id)
    ensures MajorityOk(powers, Tally(powers, vs, val, id))
    ensures var after := Tally(powers, vs, val, id); forall v :: v in after.votes ==> Tracked(after, v)
  {
    TallyBlocks(powers, vs, offered, val, id);
    var after := Tally(powers, vs, val, id);
    forall v | v in after.votes ensures Tracked(after, v) {
      assert v in vs.votes;
      assert Tracked(vs, v) || (v == val && vs.votes[v] == id);
    }
  }

  // ----- the operations keep a vote set well formed

  /** Recording a conflicting vote for the majority block as canonical. */
  lemma ReplaceIsValid(powers: seq<nat>, vs: VoteSet, offered: set<(nat, BlockID)>, val: nat, id: BlockID)
    requires Valid(powers, vs, offered) && (val, id) in offered && val in vs.votes && vs.maj23 == Some(id)
    ensures Valid(powers, vs.(votes := vs.votes[val := id]), offered)
  {
    var after := vs.(votes := vs.votes[val := id]);
    assert after.votes.Keys == vs.votes.Keys;
    forall b | b in after.byBlock ensures BlockOk(powers, after, offered, b) {
      assert BlockOk(powers, vs, offered, b);
    }
    forall v | v in after.votes ensures Tracked(after, v) {
      assert Tracked(vs, v);
    }
  }

  /** Recording the first vote of a validator. */
  lemma FirstVoteIsReady(powers: seq<nat>, vs: VoteSet, offered: set<(nat, BlockID)>, val: nat, id: BlockID)
    requires Valid(powers, vs, offered) && (val, id) in offered
    requires IsValidator(powers, val) && val !in vs.votes && !Known(vs, val, id)
    ensures ReadyToTally(powers, vs.(votes := vs.votes[val := id], sum := vs.sum + powers[val]), offered, val, id)
  {
    var after := vs.(votes := vs.votes[val := id], sum := vs.sum + powers[val]);
    assert after.votes.Keys == vs.votes.Keys + {val};
    PowerAdd(powers, vs.votes.Keys, val);
    forall b | b in after.byBlock ensures BlockOk(powers, after, offered, b) {
      assert BlockOk(powers, vs, offered, b);
    }
    forall v | v in after.votes && v != val ensures Tracked(after, v) {
      assert Tracked(vs, v);
    }
    if vs.maj23.Some? {
      assert BlockOk(powers, vs, offered, vs.maj23.value);
    }
  }

  lemma TallyIsValid(powers: seq<nat>, vs: VoteSet, offered: set<(nat, BlockID)>, val: nat, id: BlockID)
    requires ReadyToTally(powers, vs, offered, val, id)
    ensures Valid(powers, Tally(powers, vs, val, id), offered)
  {
    TallyBlocks(powers, vs, offered, val, id);
    TallyVotes(powers, vs, offered, val, id);
    TallyMajority(powers, vs, offered, val, id);
  }

  lemma ConflictIsReady(powers: seq<nat>, vs: VoteSet, offered: set<(nat, BlockID)>, val: nat, id: BlockID)
    requires Valid(powers, vs, offered) && (val, id) in offered
    requires IsValidator(powers, val) && val in vs.votes
    requires id in vs.byBlock ==> val !in vs.byBlock[id].voters
    requires vs.maj23 == Some(id) ==> vs.votes[val] == id
    ensures ReadyToTally(powers, vs, offered, val, id)
  {
  }

  lemma ConflictIsValid(powers: seq<nat>, vs: VoteSet, offered: set<(nat, BlockID)>, val: nat, id: BlockID)
    requires Valid(powers, vs, offered) && (val, id) in offered
    requires IsValidator(powers, val) && val in vs.votes && !Known(vs, val, id)
    ensures Valid(powers, AddVote(powers, vs, val, id).0, offered)
  {
    hide Valid, ReadyToTally, Tally;
    var vs' := if vs.maj23 == Some(id) then vs.(votes := vs.votes[val := id]) else vs;
    if vs.maj23 == Some(id) {
      ReplaceIsValid(powers, vs, offered, val, id);
    }
    assert Valid(powers, vs', offered);
    ConflictIsReady(powers, vs', offered, val, id);
    TallyIsValid(powers, vs', offered, val, id);
  }

  /** Every vote offered keeps the set well formed, whether or not it is added. */
  lemma AddVoteIsValid(powers: seq<nat>, vs: VoteSet, offered: set<(nat, BlockID)>, val: nat, id: BlockID)
    requires Valid(powers, vs, offered)
    ensures Valid(powers, AddVote(powers, vs, val, id).0, offered + {(val, id)})
  {
    hide Valid, ReadyToTally, Tally;
    var more := offered + {(val, id)};
    ValidMonotone(powers, vs, offered, more);
    if IsValidator(powers, val) && !Known(vs, val, id) {
      if val in vs.votes {
        ConflictIsValid(powers, vs, more, val, id);
      } else {
        FirstVoteIsReady(powers, vs, more, val, id);
        TallyIsValid(powers, vs.(votes := vs.votes[val := id], sum := vs.sum + powers[val]), more, val, id);
      }
    }
  }

  lemma ClaimBlocks(powers: seq<nat>, vs: VoteSet, offered: set<(nat, BlockID)>, peer: nat, id: BlockID)
    requires BlocksOk(powers, vs, offered)
    ensures BlocksOk(powers, Claim(vs, peer, id), offered)
  {
    var after := Claim(vs, peer, id);
    PowerEmpty(powers);
    forall b | b in after.byBlock ensures BlockOk(powers, after, offered, b) {
      if b in vs.byBlock { assert BlockOk(powers, vs, offered, b); }
    }
  }

  lemma ClaimTracks(powers: seq<nat>, vs: VoteSet, peer: nat, id: BlockID)
    requires MajorityOk(powers, vs) && forall v :: v in vs.votes ==> Tracked(vs, v)
    ensures var after := Claim(vs, peer, id);
            MajorityOk(powers, after) && forall v :: v in after.votes ==> Tracked(after, v)
  {
    var after := Claim(vs, peer, id);
    forall v | v in after.votes ensures Tracked(after, v) {
      assert Tracked(vs, v);
    }
  }

  lemma ClaimIsValid(powers: seq<nat>, vs: VoteSet, offered: set<(nat, BlockID)>, peer: nat, id: BlockID)
    requires Valid(powers, vs, offered)
    ensures Valid(powers, Claim(vs, peer, id), offered)
  {
    hide BlocksOk, MajorityOk, Tracked;
    ClaimBlocks(powers, vs, offered, peer, id);
    ClaimTracks(powers, vs, peer, id);
  }

  /** Only the first majority is ever reported. */
  lemma MajorityIsStable(powers: seq<nat>, vs: VoteSet, val: nat, id: BlockID, peer: nat)
    requires vs.maj23.Some?
    ensures AddVote(powers, vs, val, id).0.maj23 == vs.maj23
    ensures Claim(vs, peer, id).maj23 == vs.maj23
  {
  }

  /** A majority is reported exactly when some tracked block has +2/3. */
  lemma MajorityIffQuorum(powers: seq<nat>, vs: VoteSet, offered: set<(nat, BlockID)>)
    requires Valid(powers, vs, offered)
    ensures vs.maj23.Some? <==> exists id :: id in vs.byBlock && Quorum(powers, vs.byBlock[id].voters)
  {
    if vs.maj23.Some? {
      MajorityIsQuorum(powers, vs, offered);
    }
    forall id | id in vs.byBlock && Quorum(powers, vs.byBlock[id].voters) ensures vs.maj23.Some? {
      assert BlockOk(powers, vs, offered, id);
      QuorumThreshold(Total(powers), vs.byBlock[id].sum);
    }
  }

  // ----- the documented invariant: every canonical vote is among its block's votes

  predicate HasEntry(vs: VoteSet, v: nat)
    requires v in vs.votes
  {
    vs.votes[v] in vs.byBlock && v in vs.byBlock[vs.votes[v]].voters
  }

  predicate FullyTracked(vs: VoteSet) {
    forall v :: v in vs.votes ==> HasEntry(vs, v)
  }

  /** A conflicting vote for the majority block, which no peer claims: it becomes canonical
      but is not counted for the block. */
  predicate Untracks(powers: seq<nat>, vs: VoteSet, val: nat, id: BlockID) {
    && IsValidator(powers, val) && val in vs.votes && !Known(vs, val, id)
    && vs.maj23 == Some(id) && !(id in vs.byBlock && vs.byBlock[id].peerMaj23)
  }

  /** Adding a vote keeps the invariant, except for such a vote. */
  lemma TrackingIff(powers: seq<nat>, vs: VoteSet, offered: set<(nat, BlockID)>, val: nat, id: BlockID)
    requires Valid(powers, vs, offered) && FullyTracked(vs)
    ensures FullyTracked(AddVote(powers, vs, val, id).0) <==> !Untracks(powers, vs, val, id)
  {
    hide BlocksOk, VotesOk, Threshold;
    var after := AddVote(powers, vs, val, id).0;
    if Untracks(powers, vs, val, id) {
      assert !HasEntry(after, val);
    } else {
      forall v | v in after.votes ensures HasEntry(after, v) {
        KeepsEntry(powers, vs, offered, val, id, v);
      }
    }
  }

  lemma KeepsEntry(powers: seq<nat>, vs: VoteSet, offered: set<(nat, BlockID)>, val: nat, id: BlockID, v: nat)
    requires Valid(powers, vs, offered) && FullyTracked(vs) && !Untracks(powers, vs, val, id)
    requires v in AddVote(powers, vs, val, id).0.votes
    ensures HasEntry(AddVote(powers, vs, val, id).0, v)
  {
    hide BlocksOk, VotesOk, Threshold;
    assert v in vs.votes ==> HasEntry(vs, v);
  }

  lemma ClaimKeepsTracking(vs: VoteSet, peer: nat, id: BlockID)
    requires FullyTracked(vs)
    ensures FullyTracked(Claim(vs, peer, id))
  {
    var after := Claim(vs, peer, id);
    forall v | v in after.votes ensures HasEntry(after, v) {
      assert HasEntry(vs, v);
    }
  }

  /** Once lost it is not regained. */
  lemma StaysUntracked(powers: seq<nat>, vs: VoteSet, offered: set<(nat, BlockID)>, val: nat, id: BlockID, peer: nat)
    requires Valid(powers, vs, offered) && !FullyTracked(vs)
    ensures !FullyTracked(AddVote(powers, vs, val, id).0) && !FullyTracked(Claim(vs, peer, id))
  {
    hide BlocksOk, VotesOk;
    var v :| v in vs.votes && !HasEntry(vs, v);
    assert Tracked(vs, v);
    assert !HasEntry(AddVote(powers, vs, val, id).0, v);
    assert !HasEntry(Claim(vs, peer, id), v);
  }

  datatype Call = Add(val: nat, id: BlockID) | Peer(peer: nat, id: BlockID)

  function Called(powers: seq<nat>, vs: VoteSet, call: Call): VoteSet {
    match call
    case Add(val, id) => AddVote(powers, vs, val, id).0
    case Peer(peer, id) => Claim(vs, peer, id)
  }

  /** A vote set is built by calls from the empty one. */
  function Built(powers: seq<nat>, calls: seq<Call>): VoteSet {
    if calls == [] then EMPTY
    else Called(powers, Built(powers, calls[..|calls| - 1]), calls[|calls| - 1])
  }

  function Offered(calls: seq<Call>): set<(nat, BlockID)> {
    if calls == [] then {}
    else
      var last := calls[|calls| - 1];
      Offered(calls[..|calls| - 1]) + if last.Add? then {(last.val, last.id)} else {}
  }

  lemma {:induction false} BuiltIsValid(powers: seq<nat>, calls: seq<Call>)
    ensures Valid(powers, Built(powers, calls), Offered(calls))
  {
    hide Valid, AddVote, Claim;
    if calls == [] {
      EmptyIsValid(powers, {});
    } else {
      var before, last := calls[..|calls| - 1], calls[|calls| - 1];
      BuiltIsValid(powers, before);
      match last {
        case Add(val, id) => AddVoteIsValid(powers, Built(powers, before), Offered(before), val, id);
        case Peer(peer, id) =>
          ClaimIsValid(powers, Built(powers, before), Offered(before), peer, id);
          assert Offered(before) + {} == Offered(before);
      }
    }
  }

  predicate UntracksAt(powers: seq<nat>, calls: seq<Call>, i: nat)
    requires i < |calls|
  {
    calls[i].Add? && Untracks(powers, Built(powers, calls[..i]), calls[i].val, calls[i].id)
  }

  /** Every canonical vote has its entry exactly when no call so far added such a vote. */
  lemma {:induction false} BuiltTrackedIff(powers: seq<nat>, calls: seq<Call>)
    ensures FullyTracked(Built(powers, calls)) <==> forall i :: 0 <= i < |calls| ==> !UntracksAt(powers, calls, i)
  {
    hide Valid, AddVote, Claim, FullyTracked, Untracks;
    if calls == [] {
      NothingUntracked();
    } else {
      var n := |calls| - 1;
      var before, last := calls[..n], calls[n];
      BuiltTrackedIff(powers, before);
      BuiltIsValid(powers, before);
      forall i | 0 <= i < n ensures UntracksAt(powers, calls, i) == UntracksAt(powers, before, i) {
        assert before[..i] == calls[..i];
      }
      LastTracks(powers, Built(powers, before), Offered(before), last);
      assert UntracksAt(powers, calls, n) <==> last.Add? && Untracks(powers, Built(powers, before), last.val, last.id);
      assert (forall i :: 0 <= i < |calls| ==> !UntracksAt(powers, calls, i)) <==>
             !UntracksAt(powers, calls, n) && forall i :: 0 <= i < n ==> !UntracksAt(powers, before, i);
    }
  }

  lemma NothingUntracked()
    ensures FullyTracked(EMPTY)
  {
  }

  lemma LastTracks(powers: seq<nat>, vs: VoteSet, offered: set<(nat, BlockID)>, call: Call)
    requires Valid(powers, vs, offered)
    ensures FullyTracked(Called(powers, vs, call)) <==>
            FullyTracked(vs) && !(call.Add? && Untracks(powers, vs, call.val, call.id))
  {
    hide Valid, AddVote, Claim, FullyTracked, Untracks;
    if FullyTracked(vs) {
      match call {
        case Add(val, id) => TrackingIff(powers, vs, offered, val, id);
        case Peer(peer, id) => ClaimKeepsTracking(vs, peer, id);
      }
    } else {
      var peer := if call.Peer? then call.peer else 0;
      var val := if call.Add? then call.val else 0;
      StaysUntracked(powers, vs, offered, val, call.id, peer);
    }
  }

  /** Four validators of power one: the fourth votes for another block, the others for the
      block that so gets its majority, then the fourth for that one too. */
  lemma EntryMissing(block: BlockID, other: BlockID)
    requires block != other
    ensures var calls := [Add(3, other), Add(0, block), Add(1, block), Add(2, block), Add(3, block)];
            var vs := Built([1, 1, 1, 1], calls);
            3 in vs.votes && vs.votes[3] == block && block in vs.byBlock && 3 !in vs.byBlock[block].voters
  {
    var powers := [1, 1, 1, 1];
    var calls := [Add(3, other), Add(0, block), Add(1, block), Add(2, block), Add(3, block)];
    var before := calls[..4];
    BuiltOn(powers, before, calls[4]);
    assert before + [calls[4]] == calls;
    MajorityOfThree(block, other);
    assert before == [Add(3, other), Add(0, block), Add(1, block), Add(2, block)];
    hide Built;
  }

  /** A first vote for a block that stays below the threshold. */
  lemma Adds(powers: seq<nat>, vs: VoteSet, val: nat, id: BlockID)
    requires IsValidator(powers, val) && val !in vs.votes && vs.maj23.None? && !Known(vs, val, id)
    ensures var bv := if id in vs.byBlock then vs.byBlock[id] else BlockVotes(false, {}, 0);
            var bv' := bv.(voters := bv.voters + {val}, sum := bv.sum + powers[val]);
            var after := AddVote(powers, vs, val, id).0;
            && after.byBlock == vs.byBlock[id := bv']
            && after.maj23 == (if bv.sum < Threshold(powers) <= bv'.sum then Some(id) else None)
            && after.votes == (if after.maj23.Some? then Overlay(vs.votes[val := id], bv'.voters, id)
                               else vs.votes[val := id])
  {
    hide Threshold;
  }

  lemma MajorityOfThree(block: BlockID, other: BlockID)
    requires block != other
    ensures var vs := Built([1, 1, 1, 1], [Add(3, other), Add(0, block), Add(1, block), Add(2, block)]);
            && vs.maj23 == Some(block) && vs.votes.Keys == {0, 1, 2, 3} && vs.votes[3] == other
            && block in vs.byBlock && vs.byBlock[block] == BlockVotes(false, {0, 1, 2}, 3)
  {
    hide Built, AddVote, Threshold;
    var powers := [1, 1, 1, 1];
    ThresholdOfFour();
    var calls := [Add(3, other), Add(0, block), Add(1, block), Add(2, block)];
    BuiltOn(powers, [], calls[0]);
    BuiltOn(powers, calls[..1], calls[1]);
    BuiltOn(powers, calls[..2], calls[2]);
    BuiltOn(powers, calls[..3], calls[3]);
    assert [] + [calls[0]] == calls[..1] && calls[..1] + [calls[1]] == calls[..2];
    assert calls[..2] + [calls[2]] == calls[..3] && calls[..3] + [calls[3]] == calls;
    Adds(powers, EMPTY, 3, other);
    Adds(powers, Built(powers, calls[..1]), 0, block);
    Adds(powers, Built(powers, calls[..2]), 1, block);
    Adds(powers, Built(powers, calls[..3]), 2, block);
  }

  lemma ThresholdOfFour()
    ensures Threshold([1, 1, 1, 1]) == 3
  {
    assert [1, 1, 1, 1][..3] == [1, 1, 1] && [1, 1, 1][..2] == [1, 1] && [1, 1][..1] == [1];
    assert Total([1, 1]) == 2;
  }

  lemma BuiltOn(powers: seq<nat>, calls: seq<Call>, call: Call)
    ensures Built(powers, []) == EMPTY
    ensures Built(powers, calls + [call]) == Called(powers, Built(powers, calls), call)
  {
    assert (calls + [call])[..|calls|] == calls;
  }
}
