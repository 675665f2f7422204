/** What a vote set holds after any calls: by what was offered and claimed, and when. */
module VoteCounting {
  import opened Common
  import opened Quorums
  import opened VoteSets

  /** The first block a validator's votes were offered for. */
  function FirstOf(calls: seq<Call>, val: nat): Option<BlockID> {
    if calls == [] then None
    else
      var n := |calls| - 1;
      var first := FirstOf(calls[..n], val);
      if first.None? && calls[n].Add? && calls[n].val == val then Some(calls[n].id) else first
  }

  /** The first block a peer claimed a majority for. */
  function ClaimOf(calls: seq<Call>, peer: nat): Option<BlockID> {
    if calls == [] then None
    else
      var n := |calls| - 1;
      var claim := ClaimOf(calls[..n], peer);
      if claim.None? && calls[n].Peer? && calls[n].peer == peer then Some(calls[n].id) else claim
  }

  ghost predicate Claimed(calls: seq<Call>, id: BlockID) {
    exists peer :: ClaimOf(calls, peer) == Some(id)
  }

  /** Validators with a vote offered. */
  ghost function Voters(powers: seq<nat>, calls: seq<Call>): set<nat> {
    set v | 0 <= v < |powers| && IsValidator(powers, v) && FirstOf(calls, v).Some?
  }

  predicate Counts(vs: VoteSet, val: nat, id: BlockID) {
    id in vs.byBlock && val in vs.byBlock[id].voters
  }

  predicate Special(vs: VoteSet, id: BlockID) {
    id in vs.byBlock && vs.byBlock[id].peerMaj23
  }

  ghost predicate VotesRecorded(powers: seq<nat>, calls: seq<Call>, vs: VoteSet) {
    forall v: nat :: v in vs.votes <==> IsValidator(powers, v) && FirstOf(calls, v).Some?
  }

  ghost predicate FirstCounted(powers: seq<nat>, calls: seq<Call>, vs: VoteSet) {
    forall v: nat :: IsValidator(powers, v) && FirstOf(calls, v).Some? ==> Counts(vs, v, FirstOf(calls, v).value)
  }

  ghost predicate ClaimsRecorded(calls: seq<Call>, vs: VoteSet) {
    forall p: nat :: ClaimOf(calls, p) == if p in vs.claims then Some(vs.claims[p]) else None
  }

  ghost predicate ClaimsSpecial(calls: seq<Call>, vs: VoteSet) {
    forall id: BlockID :: Special(vs, id) <==> Claimed(calls, id)
  }

  /** A canonical vote is the first, or for the majority's block. */
  ghost predicate Canonical(calls: seq<Call>, vs: VoteSet) {
    forall v: nat :: v in vs.votes ==> Some(vs.votes[v]) == FirstOf(calls, v) || vs.maj23 == Some(vs.votes[v])
  }

  ghost predicate Recorded(powers: seq<nat>, calls: seq<Call>, vs: VoteSet) {
    && VotesRecorded(powers, calls, vs) && FirstCounted(powers, calls, vs)
    && ClaimsRecorded(calls, vs) && ClaimsSpecial(calls, vs) && Canonical(calls, vs)
  }

  // ----- one vote

  /** What a vote that is counted does to the set. */
  lemma TallyDoes(powers: seq<nat>, vs: VoteSet, val: nat, id: BlockID, v: nat, b: BlockID)
    requires IsValidator(powers, val)
    ensures var after := Tally(powers, vs, val, id);
            && (Counts(after, v, b) <==> Counts(vs, v, b) || (v == val && b == id))
            && (Special(after, b) <==> Special(vs, b)) && after.claims == vs.claims && after.sum == vs.sum
  {
    hide Threshold;
  }

  lemma TallyCanonical(powers: seq<nat>, vs: VoteSet, val: nat, id: BlockID, v: nat)
    requires IsValidator(powers, val) && val in vs.votes
    requires forall u :: Counts(vs, u, id) ==> u in vs.votes
    ensures var after := Tally(powers, vs, val, id);
            && (v in after.votes <==> v in vs.votes)
            && (v in vs.votes ==> after.votes[v] == vs.votes[v] || after.maj23 == Some(after.votes[v]))
            && (vs.maj23.Some? ==> after.maj23 == vs.maj23)
  {
    hide Threshold;
    assert id in vs.byBlock ==> forall u :: u in vs.byBlock[id].voters ==> Counts(vs, u, id);
  }

  /** Adding a vote: what is counted, and what is answered. */
  lemma AddDoes(powers: seq<nat>, vs: VoteSet, val: nat, id: BlockID, v: nat, b: BlockID)
    ensures var (after, added) := AddVote(powers, vs, val, id);
            && (added <==> IsValidator(powers, val) && !Known(vs, val, id) && (val !in vs.votes || Special(vs, id)))
            && (Counts(after, v, b) <==> Counts(vs, v, b) || (added && v == val && b == id))
            && (Special(after, b) <==> Special(vs, b)) && after.claims == vs.claims
  {
    hide Tally;
    if IsValidator(powers, val) {
      var replaced := if vs.maj23 == Some(id) then vs.(votes := vs.votes[val := id]) else vs;
      TallyDoes(powers, replaced, val, id, v, b);
      TallyDoes(powers, vs.(votes := vs.votes[val := id], sum := vs.sum + powers[val]), val, id, v, b);
    }
  }

  lemma AddCanonical(powers: seq<nat>, vs: VoteSet, val: nat, id: BlockID, v: nat)
    requires forall u, b :: Counts(vs, u, b) ==> u in vs.votes
    ensures var after := AddVote(powers, vs, val, id).0;
            && (v in after.votes <==> v in vs.votes || (v == val && IsValidator(powers, val)))
            && (v in vs.votes && after.votes[v] != vs.votes[v] ==> after.maj23 == Some(after.votes[v]))
            && (v in after.votes && v !in vs.votes ==> after.votes[v] == id || after.maj23 == Some(after.votes[v]))
            && (vs.maj23.Some? ==> after.maj23 == vs.maj23)
  {
    hide Tally;
    assert Counts(vs, val, id) ==> val in vs.votes;
    if IsValidator(powers, val) {
      var next := if val !in vs.votes then vs.(votes := vs.votes[val := id], sum := vs.sum + powers[val])
                  else if vs.maj23 == Some(id) then vs.(votes := vs.votes[val := id]) else vs;
      forall u | Counts(next, u, id) ensures u in next.votes {
        assert Counts(vs, u, id);
      }
      TallyCanonical(powers, next, val, id, v);
    }
  }

  lemma ClaimDoes(vs: VoteSet, peer: nat, id: BlockID, v: nat, b: BlockID)
    ensures var after := Claim(vs, peer, id);
            && (Counts(after, v, b) <==> Counts(vs, v, b)) && after.votes == vs.votes && after.maj23 == vs.maj23
            && (Special(after, b) <==> Special(vs, b) || (b == id && peer !in vs.claims))
            && after.claims == (if peer in vs.claims then vs.claims else vs.claims[peer := id])
  {
  }

  // ----- any calls

  lemma CountedVoted(powers: seq<nat>, vs: VoteSet, offered: set<(nat, BlockID)>)
    requires Valid(powers, vs, offered)
    ensures forall u, b :: Counts(vs, u, b) ==> u in vs.votes && IsValidator(powers, u) && (u, b) in offered
    ensures forall u :: u in vs.votes ==> (u, vs.votes[u]) in offered
  {
    forall u, b | Counts(vs, u, b) ensures u in vs.votes && IsValidator(powers, u) && (u, b) in offered {
      assert BlockOk(powers, vs, offered, b);
    }
  }

  lemma {:induction false} AddRecorded(powers: seq<nat>, calls: seq<Call>, vs: VoteSet, val: nat, id: BlockID)
    requires Recorded(powers, calls, vs) && Valid(powers, vs, Offered(calls))
    ensures Recorded(powers, calls + [Add(val, id)], AddVote(powers, vs, val, id).0)
  {
    hide Valid, AddVote, Counts, Special, Known;
    var more, after := calls + [Add(val, id)], AddVote(powers, vs, val, id).0;
    assert more[..|calls|] == calls;
    CountedVoted(powers, vs, Offered(calls));
    forall v: nat
      ensures v in after.votes <==> IsValidator(powers, v) && FirstOf(more, v).Some?
      ensures v in after.votes ==> Some(after.votes[v]) == FirstOf(more, v) || after.maj23 == Some(after.votes[v])
    {
      AddCanonical(powers, vs, val, id, v);
    }
    FirstStaysCounted(powers, calls, vs, val, id);
    forall p: nat ensures ClaimOf(more, p) == ClaimOf(calls, p) {
    }
    forall b: BlockID ensures Special(after, b) <==> Claimed(more, b) {
      AddDoes(powers, vs, val, id, 0, b);
      assert Claimed(more, b) <==> Claimed(calls, b);
    }
    AddDoes(powers, vs, val, id, 0, id);
  }

  lemma {:induction false} FirstStaysCounted(powers: seq<nat>, calls: seq<Call>, vs: VoteSet, val: nat, id: BlockID)
    requires Recorded(powers, calls, vs) && Valid(powers, vs, Offered(calls))
    ensures FirstCounted(powers, calls + [Add(val, id)], AddVote(powers, vs, val, id).0)
  {
    hide Valid, AddVote, Special;
    var more, after := calls + [Add(val, id)], AddVote(powers, vs, val, id).0;
    assert more[..|calls|] == calls;
    CountedVoted(powers, vs, Offered(calls));
    forall v: nat | IsValidator(powers, v) && FirstOf(more, v).Some? ensures Counts(after, v, FirstOf(more, v).value) {
      AddDoes(powers, vs, val, id, v, FirstOf(more, v).value);
      if FirstOf(calls, v).None? {
        assert v !in vs.votes && !Counts(vs, v, id);
      }
    }
  }

  lemma {:induction false} ClaimRecorded(powers: seq<nat>, calls: seq<Call>, vs: VoteSet, peer: nat, id: BlockID)
    requires Recorded(powers, calls, vs)
    ensures Recorded(powers, calls + [Peer(peer, id)], Claim(vs, peer, id))
  {
    hide Claim, Counts, Special;
    var more, after := calls + [Peer(peer, id)], Claim(vs, peer, id);
    assert more[..|calls|] == calls;
    ClaimDoes(vs, peer, id, 0, id);
    forall v: nat ensures FirstOf(more, v) == FirstOf(calls, v) {
    }
    forall v: nat | IsValidator(powers, v) && FirstOf(more, v).Some? ensures Counts(after, v, FirstOf(more, v).value) {
      ClaimDoes(vs, peer, id, v, FirstOf(more, v).value);
    }
    forall b: BlockID ensures Special(after, b) <==> Claimed(more, b) {
      ClaimDoes(vs, peer, id, 0, b);
      ClaimedNext(calls, peer, id, b);
    }
  }

  lemma ClaimedNext(calls: seq<Call>, peer: nat, id: BlockID, b: BlockID)
    ensures Claimed(calls + [Peer(peer, id)], b) <==> Claimed(calls, b) || (b == id && ClaimOf(calls, peer).None?)
  {
    var more := calls + [Peer(peer, id)];
    assert more[..|calls|] == calls;
    if Claimed(calls, b) {
      var p :| ClaimOf(calls, p) == Some(b);
      assert ClaimOf(more, p) == Some(b);
    }
    if Claimed(more, b) {
      var p :| ClaimOf(more, p) == Some(b);
      assert ClaimOf(calls, p) == Some(b) || (p == peer && ClaimOf(calls, peer).None?);
    }
    if b == id && ClaimOf(calls, peer).None? {
      assert ClaimOf(more, peer) == Some(b);
    }
  }

  lemma {:induction false} BuiltRecorded(powers: seq<nat>, calls: seq<Call>)
    ensures Recorded(powers, calls, Built(powers, calls)) && Valid(powers, Built(powers, calls), Offered(calls))
  {
    hide Recorded, Valid, AddVote, Claim;
    BuiltIsValid(powers, calls);
    if calls == [] {
      NoneRecorded(powers);
    } else {
      var n := |calls| - 1;
      BuiltRecorded(powers, calls[..n]);
      assert calls == calls[..n] + [calls[n]];
      match calls[n] {
        case Add(val, id) => AddRecorded(powers, calls[..n], Built(powers, calls[..n]), val, id);
        case Peer(peer, id) => ClaimRecorded(powers, calls[..n], Built(powers, calls[..n]), peer, id);
      }
    }
  }

  lemma NoneRecorded(powers: seq<nat>)
    ensures Recorded(powers, [], EMPTY)
  {
  }

  /** After any calls: exactly the validators with a vote offered have voted, the sum is their
      power, each is counted for the first block it voted for; there are +2/3 of any votes exactly
      when those validators are a quorum, and all votes exactly when they are all. */
  lemma {:induction false} CountsVotes(powers: seq<nat>, calls: seq<Call>)
    ensures var vs := Built(powers, calls);
            && (forall v: nat :: v in vs.votes <==> IsValidator(powers, v) && FirstOf(calls, v).Some?)
            && vs.sum == Power(powers, Voters(powers, calls))
            && (forall v: nat :: IsValidator(powers, v) && FirstOf(calls, v).Some? ==>
                  Counts(vs, v, FirstOf(calls, v).value))
            && Canonical(calls, vs)
    ensures HasAll(powers, Built(powers, calls)) <==>
            forall v: nat :: IsValidator(powers, v) ==> FirstOf(calls, v).Some?
    ensures TwoThirdsAny(powers, Built(powers, calls)) <==> Quorum(powers, Voters(powers, calls))
  {
    BuiltRecorded(powers, calls);
    var vs := Built(powers, calls);
    hide Built, Counts, FirstOf;
    assert vs.votes.Keys == Voters(powers, calls);
    AllIffEvery(powers, Voters(powers, calls));
    QuorumThreshold(Total(powers), vs.sum);
  }

  /** A set has all the power exactly when it has all who have power. */
  lemma {:induction false} AllIffEvery(powers: seq<nat>, who: set<nat>)
    ensures Power(powers, who) == Total(powers) <==> forall v: nat :: IsValidator(powers, v) ==> v in who
  {
    if |powers| > 0 {
      var last := |powers| - 1;
      AllIffEvery(powers[..last], who);
      PowerWithin(powers[..last], who);
      assert forall v: nat :: v < last ==> (IsValidator(powers, v) <==> IsValidator(powers[..last], v));
      assert IsValidator(powers, last) <==> powers[last] > 0;
    }
  }

  /** Whether a vote is added: the first of a validator always, another one if its block was
      claimed and the validator has not voted for it yet. What is added is counted. */
  lemma {:induction false} AddedIs(powers: seq<nat>, calls: seq<Call>, val: nat, id: BlockID)
    ensures var (after, added) := AddVote(powers, Built(powers, calls), val, id);
            && (IsValidator(powers, val) && FirstOf(calls, val).None? ==> added)
            && (IsValidator(powers, val) && Claimed(calls, id) && Add(val, id) !in calls ==> added)
            && (added ==> IsValidator(powers, val) && (FirstOf(calls, val).None? || Claimed(calls, id)))
            && (added ==> Counts(after, val, id))
  {
    BuiltRecorded(powers, calls);
    hide Built, AddVote, Special, Valid;
    var vs := Built(powers, calls);
    AddDoes(powers, vs, val, id, val, id);
    CountedVoted(powers, vs, Offered(calls));
    OfferedIs(calls, val, id);
  }

  lemma {:induction false} OfferedIs(calls: seq<Call>, val: nat, id: BlockID)
    ensures (val, id) in Offered(calls) <==> Add(val, id) in calls
    ensures FirstOf(calls, val).Some? <==> exists b :: Add(val, b) in calls
    ensures FirstOf(calls, val).Some? ==> Add(val, FirstOf(calls, val).value) in calls
  {
    if calls != [] {
      var n := |calls| - 1;
      assert calls == calls[..n] + [calls[n]];
      OfferedIs(calls[..n], val, id);
    }
  }

  /** Nothing is counted otherwise: of a validator's votes the first is counted, and those
      offered for a block that was claimed before. */
  lemma {:induction false} CountedOnly(powers: seq<nat>, calls: seq<Call>, val: nat, id: BlockID)
    requires Counts(Built(powers, calls), val, id)
    ensures IsValidator(powers, val)
    ensures exists i :: 0 <= i < |calls| && calls[i] == Add(val, id) &&
              (FirstOf(calls[..i], val).None? || Claimed(calls[..i], id))
  {
    hide AddVote, Claim, Claimed;
    var n := |calls| - 1;
    var before := calls[..n];
    var vs := Built(powers, before);
    var i := n;
    if Counts(vs, val, id) {
      CountedOnly(powers, before, val, id);
      i :| 0 <= i < n && before[i] == Add(val, id) && (FirstOf(before[..i], val).None? || Claimed(before[..i], id));
      assert before[..i] == calls[..i];
    } else {
      match calls[n] {
        case Add(v, b) =>
          AddDoes(powers, vs, v, b, val, id);
          AddedIs(powers, before, v, b);
        case Peer(p, b) => ClaimDoes(vs, p, b, val, id);
      }
    }
    assert calls[i] == Add(val, id) && (FirstOf(calls[..i], val).None? || Claimed(calls[..i], id));
  }

  // ----- what a majority takes

  /** Each of these has voted, and for nothing else. */
  ghost predicate OnlyFor(calls: seq<Call>, who: set<nat>, id: BlockID) {
    forall v :: v in who ==> Add(v, id) in calls && forall b :: Add(v, b) in calls ==> b == id
  }

  /** Once validators with +2/3 have voted for one block and nothing else, that is the
      majority: whatever else was offered or claimed, and in whatever order. */
  lemma {:induction false} MajorityReached(powers: seq<nat>, calls: seq<Call>, who: set<nat>, id: BlockID)
    requires Quorum(powers, who) && OnlyFor(calls, who, id)
    ensures Built(powers, calls).maj23 == Some(id)
  {
    BuiltRecorded(powers, calls);
    var vs := Built(powers, calls);
    var offered := Offered(calls);
    hide Built, Offered, Valid, Recorded;
    forall v: nat | v in who && IsValidator(powers, v) ensures Counts(vs, v, id) {
      OfferedIs(calls, v, id);
      FirstIsCounted(powers, calls, vs, v);
    }
    var some := Someone(powers, who);
    PowerOfThose(powers, who, vs.byBlock[id].voters);
    MajorityIffQuorum(powers, vs, offered);
    var other := vs.maj23.value;
    MajorityIsQuorum(powers, vs, offered);
    PowerEmpty(powers);
    PowerWithin(powers, who);
    var both := QuorumsMeet(powers, who, VotedFor(vs, other), {});
    OfferedIs(calls, both, other);
  }

  lemma FirstIsCounted(powers: seq<nat>, calls: seq<Call>, vs: VoteSet, v: nat)
    requires Recorded(powers, calls, vs) && IsValidator(powers, v) && FirstOf(calls, v).Some?
    ensures Counts(vs, v, FirstOf(calls, v).value)
  {
  }

  lemma {:induction false} Someone(powers: seq<nat>, who: set<nat>) returns (v: nat)
    requires Power(powers, who) > 0
    ensures v in who && IsValidator(powers, v)
  {
    var last := |powers| - 1;
    if last in who && powers[last] > 0 {
      v := last;
    } else {
      v := Someone(powers[..last], who);
    }
  }

  lemma {:induction false} PowerOfThose(powers: seq<nat>, a: set<nat>, b: set<nat>)
    requires forall v: nat :: v in a && IsValidator(powers, v) ==> v in b
    ensures Power(powers, a) <= Power(powers, b)
  {
    if |powers| > 0 {
      var last := |powers| - 1;
      assert forall v: nat :: IsValidator(powers[..last], v) ==> IsValidator(powers, v);
      PowerOfThose(powers[..last], a, b);
      assert powers[last] > 0 ==> IsValidator(powers, last);
    }
  }
}
