/** Agreement where the validators of a height, and what is a valid block there, come from the
    blocks that each node has itself finalized below. */
module LedgerAgreement {
  import opened Common
  import opened VoteSets
  import opened Consensus
  import opened ConsensusInvariants
  import opened Agreement

  /** What the blocks below a height determine. */
  datatype Rules = Rules(powers: seq<nat> -> seq<nat>, valid: (seq<nat>, nat) -> bool)

  /** Block hashes by height. */
  type Ledger = map<nat, nat>

  function Prefix(l: Ledger, h: nat): seq<nat> {
    if h <= 1 then [] else Prefix(l, h - 1) + [if h - 1 in l then l[h - 1] else 0]
  }

  function ChainOf(rules: Rules, l: Ledger): Chain {
    Chain((h: nat) => rules.powers(Prefix(l, h)), (h: nat, b: nat) => rules.valid(Prefix(l, h), b))
  }

  ghost predicate SameAt(c: Chain, d: Chain, h: nat) {
    c.powers(h) == d.powers(h) && forall b :: c.valid(h, b) == d.valid(h, b)
  }

  ghost predicate SameUpTo(c: Chain, d: Chain, h: nat) {
    forall k: nat :: k <= h ==> SameAt(c, d, k)
  }

  // ----- a transition looks at its own height, and at the next only once it is there

  lemma LocalPrevote(c: Chain, d: Chain, o: Oracle, s: RoundState, height: nat, round: nat)
    requires SameAt(c, d, s.height)
    ensures EnterPrevote(c, o, s, height, round) == EnterPrevote(d, o, s, height, round)
  {
    hide IsValidator;
  }

  lemma LocalPropose(c: Chain, d: Chain, o: Oracle, s: RoundState, height: nat, round: nat)
    requires SameAt(c, d, s.height)
    ensures EnterPropose(c, o, s, height, round) == EnterPropose(d, o, s, height, round)
  {
    hide EnterPrevote, IsProposalComplete;
    LocalPrevote(c, d, o, Schedule(s, height, round, PROPOSE).(round := round, step := PROPOSE), height, round);
  }

  lemma LocalRound(c: Chain, d: Chain, o: Oracle, s: RoundState, height: nat, round: nat)
    requires SameAt(c, d, s.height)
    ensures EnterNewRound(c, o, s, height, round) == EnterNewRound(d, o, s, height, round)
    ensures var r := EnterNewRound(c, o, s, height, round); r.height == s.height && r.finalized == s.finalized
  {
    hide EnterPropose;
    var s1 := s.(round := round, step := NEW_ROUND, openRound := round + 1, triggered := false);
    var s2 := if round == 0 then s1 else s1.(proposal := None, proposalBlock := None, proposalParts := None);
    LocalPropose(c, d, o, s2, height, round);
    ProposeStays(c, o, s2, height, round);
  }

  lemma ProposeStays(c: Chain, o: Oracle, s: RoundState, height: nat, round: nat)
    ensures var r := EnterPropose(c, o, s, height, round); r.height == s.height && r.finalized == s.finalized
    ensures var r := EnterPrevote(c, o, s, height, round); r.height == s.height && r.finalized == s.finalized
  {
    hide IsProposalComplete, PrevoteID, IsValidator;
  }

  lemma LocalSign(c: Chain, d: Chain, o: Oracle, s: RoundState, kind: Kind, id: BlockID, entered: nat)
    requires SameAt(c, d, s.height)
    ensures SignAddVote(c, o, s, kind, id, entered) == SignAddVote(d, o, s, kind, id, entered)
    ensures var r := SignAddVote(c, o, s, kind, id, entered);
            r.height == s.height && r.finalized == s.finalized && r.halted == s.halted
  {
    hide IsValidator;
  }

  lemma LocalLockOn(c: Chain, d: Chain, o: Oracle, s: RoundState, round: nat, id: BlockID)
    requires SameAt(c, d, s.height)
    ensures LockOn(c, o, s, round, id) == LockOn(d, o, s, round, id)
    ensures var r := LockOn(c, o, s, round, id); r.height == s.height && r.finalized == s.finalized
  {
    hide SignAddVote;
    match id
    case NilID => LocalSign(c, d, o, Unlock(s), Precommit, NilID, round);
    case ID(hash, parts) =>
      var locked := s.(lockedRound := round, lockedBlock := s.proposalBlock, lockedParts := s.proposalParts);
      LocalSign(c, d, o, s.(lockedRound := round), Precommit, id, round);
      LocalSign(c, d, o, locked, Precommit, id, round);
      LocalSign(c, d, o, Await(Unlock(s), parts), Precommit, NilID, round);
  }

  lemma LocalDoPrecommit(c: Chain, d: Chain, o: Oracle, s: RoundState, round: nat)
    requires SameAt(c, d, s.height)
    ensures DoPrecommit(c, o, s, round) == DoPrecommit(d, o, s, round)
    ensures var r := DoPrecommit(c, o, s, round); r.height == s.height && r.finalized == s.finalized
  {
    hide SignAddVote, Majority, LockOn, PolRound;
    match Majority(s, round, Prevote)
    case None => LocalSign(c, d, o, s, Precommit, NilID, round);
    case Some(id) => LocalLockOn(c, d, o, s, round, id);
  }

  lemma LocalPrecommit(c: Chain, d: Chain, o: Oracle, s: RoundState, height: nat, round: nat)
    requires SameAt(c, d, s.height)
    ensures EnterPrecommit(c, o, s, height, round) == EnterPrecommit(d, o, s, height, round)
    ensures var r := EnterPrecommit(c, o, s, height, round); r.height == s.height && r.finalized == s.finalized
  {
    hide DoPrecommit;
    LocalDoPrecommit(c, d, o, s, round);
  }

  lemma LocalWaits(c: Chain, d: Chain, s: RoundState, height: nat, round: nat)
    requires SameAt(c, d, s.height)
    ensures EnterPrevoteWait(c, s, height, round) == EnterPrevoteWait(d, s, height, round)
    ensures EnterPrecommitWait(c, s, height, round) == EnterPrecommitWait(d, s, height, round)
    ensures var r := EnterPrevoteWait(c, s, height, round); r.height == s.height && r.finalized == s.finalized
    ensures var r := EnterPrecommitWait(c, s, height, round); r.height == s.height && r.finalized == s.finalized
  {
    hide TwoThirdsAny, VotesAt;
  }

  /** A block is finalized at the node's height only. */
  ghost predicate Finalizes(s: RoundState, r: RoundState) {
    && s.height <= r.height <= s.height + 1 && s.finalized <= r.finalized
    && forall f :: f in r.finalized && f !in s.finalized ==> f.0 == s.height
  }

  lemma LocalFinalize(c: Chain, d: Chain, o: Oracle, s: RoundState, height: nat)
    requires SameAt(c, d, s.height)
    ensures TryFinalizeCommit(c, o, s, height) == TryFinalizeCommit(d, o, s, height)
    ensures Finalizes(s, TryFinalizeCommit(c, o, s, height))
  {
    hide Majority;
  }

  lemma LocalCommit(c: Chain, d: Chain, o: Oracle, s: RoundState, height: nat, round: nat)
    requires SameAt(c, d, s.height)
    ensures EnterCommit(c, o, s, height, round) == EnterCommit(d, o, s, height, round)
    ensures Finalizes(s, EnterCommit(c, o, s, height, round))
  {
    hide Majority, TryFinalizeCommit;
    if Majority(s, round, Precommit).Some? {
      var id := Majority(s, round, Precommit).value;
      LocalFinalize(c, d, o, IntoCommit(s, id, round), height);
    }
  }

  /** What two chains that agree up to the node's height make of an input. */
  ghost predicate Local(c: Chain, d: Chain, s: RoundState, r: RoundState, r': RoundState) {
    && r.height == r'.height && r.finalized == r'.finalized && Finalizes(s, r)
    && (SameAt(c, d, r.height) ==> r == r')
  }

  lemma LocalTimeout(c: Chain, d: Chain, o: Oracle, s: RoundState, ti: Timeout)
    requires SameAt(c, d, s.height)
    ensures Local(c, d, s, HandleTimeout(c, o, s, ti), HandleTimeout(d, o, s, ti))
  {
    hide EnterNewRound, EnterPropose, EnterPrevote, EnterPrecommit, SameAt;
    LocalRound(c, d, o, s, ti.height, 0);
    LocalPropose(c, d, o, s, ti.height, 0);
    LocalPrevote(c, d, o, s, ti.height, ti.round);
    ProposeStays(c, o, s, ti.height, 0);
    ProposeStays(c, o, s, ti.height, ti.round);
    LocalPrecommit(c, d, o, s, ti.height, ti.round);
    LocalRound(c, d, o, EnterPrecommit(c, o, s, ti.height, ti.round), ti.height, ti.round + 1);
  }

  lemma LocalReceive(c: Chain, d: Chain, o: Oracle, s: RoundState, height: nat)
    requires SameAt(c, d, s.height)
    ensures Local(c, d, s, ReceiveBlock(c, o, s, height), ReceiveBlock(d, o, s, height))
  {
    hide EnterPrevote, EnterPrecommit, TryFinalizeCommit, SameAt, IsProposalComplete, Majority;
    var s1 := ValidOnPolka(s);
    LocalPrevote(c, d, o, s1, height, s1.round);
    ProposeStays(c, o, s1, height, s1.round);
    var s2 := EnterPrevote(c, o, s1, height, s1.round);
    LocalPrecommit(c, d, o, s2, height, s2.round);
    LocalFinalize(c, d, o, s1, height);
  }

  lemma LocalBlock(c: Chain, d: Chain, o: Oracle, s: RoundState, height: nat, block: Option<nat>)
    requires SameAt(c, d, s.height)
    ensures Local(c, d, s, AddBlock(c, o, s, height, block), AddBlock(d, o, s, height, block))
  {
    hide ReceiveBlock, SameAt;
    if s.proposalParts.Some? && block.Some? {
      var s1 := s.(complete := s.complete + {s.proposalParts.value.id}, proposalBlock := block);
      LocalReceive(c, d, o, s1, height);
    }
  }

  lemma LocalLate(c: Chain, d: Chain, o: Oracle, s: RoundState, vote: Vote)
    requires SameAt(c, d, s.height) && SameAt(c, d, vote.height)
    ensures Local(c, d, s, AddLateVote(c, o, s, vote), AddLateVote(d, o, s, vote))
  {
    hide EnterNewRound, AddVote, HasAll, Conflicts;
    if s.lastCommit.LastCommit? {
      var vs := AddVote(c.powers(vote.height), s.lastCommit.votes, vote.val, vote.id).0;
      LocalRound(c, d, o, s.(lastCommit := s.lastCommit.(votes := vs)), s.height, 0);
    }
  }

  lemma LocalReact(c: Chain, d: Chain, o: Oracle, s: RoundState, round: nat, maj: Option<BlockID>)
    requires SameAt(c, d, s.height)
    ensures Local(c, d, s, ReactToPrevotes(c, o, s, round, maj), ReactToPrevotes(d, o, s, round, maj))
  {
    hide EnterNewRound, EnterPrevote, EnterPrecommit, EnterPrevoteWait, IsProposalComplete, TwoThirdsAny;
    LocalRound(c, d, o, s, s.height, round);
    LocalPrecommit(c, d, o, s, s.height, round);
    LocalWaits(c, d, s, s.height, round);
    LocalPrevote(c, d, o, s, s.height, s.round);
    ProposeStays(c, o, s, s.height, s.round);
  }

  lemma UpdatesStay(s: RoundState, round: nat, id: BlockID)
    ensures MaybeSetValid(s, round, id).height == s.height && MaybeSetValid(s, round, id).finalized == s.finalized
  {
  }

  lemma LocalAfterPrevote(c: Chain, d: Chain, o: Oracle, s: RoundState, round: nat)
    requires SameAt(c, d, s.height)
    ensures Local(c, d, s, AfterPrevote(c, o, s, round), AfterPrevote(d, o, s, round))
  {
    hide ReactToPrevotes, MaybeSetValid, Majority;
    match Majority(s, round, Prevote)
    case None => LocalReact(c, d, o, s, round, None);
    case Some(id) =>
      var s1 := MaybeUnlock(s, round, id);
      UpdatesStay(s1, round, id);
      LocalReact(c, d, o, MaybeSetValid(s1, round, id), round, Some(id));
  }

  lemma LocalAfterPrecommit(c: Chain, d: Chain, o: Oracle, s: RoundState, round: nat)
    requires SameAt(c, d, s.height)
    ensures Local(c, d, s, AfterPrecommit(c, o, s, round), AfterPrecommit(d, o, s, round))
  {
    hide EnterNewRound, EnterPrecommit, EnterCommit, EnterPrecommitWait, Majority, TwoThirdsAny, HasAll;
    LocalRound(c, d, o, s, s.height, round);
    var s1 := EnterNewRound(c, o, s, s.height, round);
    LocalPrecommit(c, d, o, s1, s.height, round);
    LocalWaits(c, d, s1, s.height, round);
    var s2 := EnterPrecommit(c, o, s1, s.height, round);
    LocalWaits(c, d, s2, s.height, round);
    LocalCommit(c, d, o, s2, s.height, round);
    var s3 := EnterCommit(c, o, s2, s.height, round);
    RoundStays(c, o, s3);
    RoundStays(d, o, s3);
    if SameAt(c, d, s3.height) {
      LocalRound(c, d, o, s3, s3.height, 0);
    }
  }

  lemma RoundStays(c: Chain, o: Oracle, s: RoundState)
    ensures var r := EnterNewRound(c, o, s, s.height, 0); r.height == s.height && r.finalized == s.finalized
  {
    LocalRound(c, c, o, s, s.height, 0);
  }

  lemma LocalCurrent(c: Chain, d: Chain, o: Oracle, s: RoundState, vote: Vote)
    requires SameAt(c, d, s.height) && vote.height == s.height
    ensures Local(c, d, s, AddVoteMsg(c, o, s, vote), AddVoteMsg(d, o, s, vote))
  {
    hide AfterPrevote, AfterPrecommit, AddVote, Conflicts;
    var s1 := Record(c, s, vote).0;
    LocalAfterPrevote(c, d, o, s1, vote.round);
    LocalAfterPrecommit(c, d, o, s1, vote.round);
  }

  lemma LocalHandle(c: Chain, d: Chain, o: Oracle, s: RoundState, input: Input)
    requires SameUpTo(c, d, s.height)
    ensures Local(c, d, s, Handle(c, o, s, input), Handle(d, o, s, input))
  {
    hide AddBlock, AddLateVote, AfterPrevote, AfterPrecommit, HandleTimeout, EnterPropose, AddVote;
    assert SameAt(c, d, s.height);
    match input
    case VoteMsg(vote) =>
      if vote.height + 1 == s.height && vote.kind.Precommit? {
        assert SameAt(c, d, vote.height);
        LocalLate(c, d, o, s, vote);
      } else if vote.height == s.height {
        LocalCurrent(c, d, o, s, vote);
      }
    case ProposalMsg(p, authentic) =>
    case BlockMsg(height, block) => LocalBlock(c, d, o, s, height, block);
    case Tock(ti) => LocalTimeout(c, d, o, s, ti);
    case TxsAvailable =>
      LocalPropose(c, d, o, s, s.height, 0);
      ProposeStays(c, o, s, s.height, 0);
    case Maj23Msg(round, kind, peer, id) =>
  }

  // ----- runs in which each node follows its own ledger

  /** The node's own blocks, as far as it has got. */
  ghost predicate Own(l: Ledger, s: RoundState) {
    forall h: nat :: 1 <= h < s.height ==> h in l && (h, l[h]) in s.finalized
  }

  /** The node acts by the validators that its own blocks determine, those of this very step
      included. */
  ghost predicate OwnStep(rules: Rules, o: Oracle, s: RoundState, input: Input, s': RoundState) {
    exists l :: Own(l, s') && s' == Handle(ChainOf(rules, l), o, s, input)
  }

  ghost predicate StepAt(rules: Rules, run: seq<Net>, events: seq<Event>, i: nat)
    requires i < |events| < |run|
  {
    && Enabled(run[i], events[i])
    && match events[i]
       case Forge(vote) => run[i + 1] == run[i].(cast := run[i].cast + {vote})
       case Deliver(n, input, o) =>
         && n in run[i + 1].nodes
         && var s' := run[i + 1].nodes[n];
            && OwnStep(rules, o, run[i].nodes[n], input, s')
            && run[i + 1] == Net(run[i].cast + s'.signed, run[i].nodes[n := s'])
  }

  ghost predicate IsOwnRun(rules: Rules, honest: set<nat>, run: seq<Net>, events: seq<Event>) {
    && |run| == |events| + 1 && run[0] == Init(honest)
    && forall i :: 0 <= i < |events| ==> StepAt(rules, run, events, i)
  }

  /** Less than a third of the power is faulty, whatever blocks there are. */
  ghost predicate RulesHonest(rules: Rules, honest: set<nat>) {
    forall l: Ledger :: MostlyHonest(ChainOf(rules, l), honest)
  }

  // ----- they are runs under one ledger

  /** Just the blocks the nodes have finalized. */
  ghost predicate Records(l: Ledger, g: Net) {
    && (forall n :: n in g.nodes ==> Known(l, g.nodes[n].finalized))
    && (forall h :: h in l ==> Held(g, (h, l[h])))
  }

  ghost predicate Known(l: Ledger, finalized: set<(nat, nat)>) {
    forall f :: f in finalized ==> f.0 in l && l[f.0] == f.1
  }

  ghost predicate Held(g: Net, f: (nat, nat)) {
    exists n :: n in g.nodes && f in g.nodes[n].finalized
  }

  lemma {:induction false} SamePrefix(l: Ledger, m: Ledger, h: nat)
    requires forall k: nat :: 1 <= k < h ==> (k in l <==> k in m) && (k in l ==> l[k] == m[k])
    ensures Prefix(l, h) == Prefix(m, h)
  {
    if h > 1 {
      SamePrefix(l, m, h - 1);
    }
  }

  lemma SameChains(rules: Rules, l: Ledger, m: Ledger, h: nat)
    requires forall k: nat :: 1 <= k < h ==> (k in l <==> k in m) && (k in l ==> l[k] == m[k])
    ensures SameUpTo(ChainOf(rules, l), ChainOf(rules, m), h)
  {
    forall k: nat | k <= h ensures SameAt(ChainOf(rules, l), ChainOf(rules, m), k) {
      SamePrefix(l, m, k);
    }
  }

  /** Up to a state, the run is one under the ledger of that state. */
  ghost predicate UnderOne(rules: Rules, honest: set<nat>, run: seq<Net>, events: seq<Event>, i: nat, l: Ledger) {
    && i <= |events| == |run| - 1
    && IsRun(ChainOf(rules, l), honest, run[..i + 1], events[..i]) && Records(l, run[i])
  }

  lemma RunAt(c: Chain, honest: set<nat>, run: seq<Net>, events: seq<Event>, i: nat, j: nat)
    requires i <= |events| == |run| - 1 && IsRun(c, honest, run[..i + 1], events[..i]) && j < i
    ensures Enabled(run[j], events[j]) && run[j + 1] == Next(c, run[j], events[j])
  {
    hide Enabled, Next;
    var r, e := run[..i + 1], events[..i];
    assert r[j] == run[j] && r[j + 1] == run[j + 1] && e[j] == events[j];
  }

  lemma NodesAre(rules: Rules, honest: set<nat>, run: seq<Net>, events: seq<Event>, i: nat, l: Ledger, j: nat)
    requires RulesHonest(rules, honest) && UnderOne(rules, honest, run, events, i, l) && j <= i
    ensures NetInv(ChainOf(rules, l), honest, run[j])
  {
    hide NetInv, IsRun, ChainOf, Records, MostlyHonest;
    assert MostlyHonest(ChainOf(rules, l), honest);
    RunOk(ChainOf(rules, l), honest, run[..i + 1], events[..i], j);
  }

  // ----- one more delivery

  /** Its own ledger and the common one agree below the node's height. */
  lemma OwnAgrees(rules: Rules, o: Oracle, g: Net, n: nat, input: Input, s': RoundState, l: Ledger, own: Ledger)
    requires n in g.nodes && Records(l, g) && Own(own, s') && s' == Handle(ChainOf(rules, own), o, g.nodes[n], input)
    ensures SameUpTo(ChainOf(rules, l), ChainOf(rules, own), g.nodes[n].height)
    ensures Finalizes(g.nodes[n], s')
    ensures var t := Handle(ChainOf(rules, l), o, g.nodes[n], input);
            t.height == s'.height && t.finalized == s'.finalized
  {
    hide Handle, ChainOf;
    var s := g.nodes[n];
    assert SameUpTo(ChainOf(rules, own), ChainOf(rules, own), s.height);
    LocalHandle(ChainOf(rules, own), ChainOf(rules, own), o, s, input);
    forall k: nat | 1 <= k < s.height ensures k in l && k in own && l[k] == own[k] {
      assert (k, own[k]) in s'.finalized;
      assert (k, own[k]) in s.finalized;
    }
    SameChains(rules, l, own, s.height);
    LocalHandle(ChainOf(rules, l), ChainOf(rules, own), o, s, input);
  }

  /** What the step finalizes is what others have finalized there. */
  lemma {:induction false} StepAgrees(rules: Rules, honest: set<nat>, run: seq<Net>, events: seq<Event>,
                                      i: nat, l: Ledger, t: RoundState)
    requires RulesHonest(rules, honest) && UnderOne(rules, honest, run, events, i, l) && i < |events|
    requires events[i].Deliver? && Enabled(run[i], events[i])
    requires t == Handle(ChainOf(rules, l), events[i].oracle, run[i].nodes[events[i].node], events[i].input)
    ensures forall f, f' :: f in t.finalized && f' in t.finalized && f.0 == f'.0 ==> f == f'
    ensures forall f, f' :: f in t.finalized && Held(run[i], f') && f.0 == f'.0 ==> f == f'
  {
    hide Handle, ChainOf, Enabled, MostlyHonest, NetInv;
    var c, g, e := ChainOf(rules, l), run[i], events[i];
    assert MostlyHonest(c, honest);
    NodesAre(rules, honest, run, events, i, l, i);
    KeysAre(c, honest, g);
    NodeThere(g, e);
    var longer, more := run[..i + 1] + [Next(c, g, e)], events[..i] + [e];
    OneLonger(c, honest, run[..i + 1], events[..i], e);
    assert longer[i] == g && longer[i + 1].nodes[e.node] == t;
    hide IsRun;
    forall f, f' | f in t.finalized && f' in t.finalized && f.0 == f'.0 ensures f == f' {
      Agree(c, honest, longer, more, i + 1, e.node, i + 1, e.node, f.0, f.1, f'.1);
    }
    forall f, f' | f in t.finalized && Held(g, f') && f.0 == f'.0 ensures f == f' {
      var m :| m in g.nodes && f' in g.nodes[m].finalized;
      Agree(c, honest, longer, more, i, m, i + 1, e.node, f.0, f'.1, f.1);
    }
  }

  lemma KeysAre(c: Chain, honest: set<nat>, g: Net)
    requires NetInv(c, honest, g)
    ensures g.nodes.Keys == honest
  {
  }

  lemma OneLonger(c: Chain, honest: set<nat>, run: seq<Net>, events: seq<Event>, e: Event)
    requires IsRun(c, honest, run, events) && Enabled(run[|events|], e)
    ensures IsRun(c, honest, run + [Next(c, run[|events|], e)], events + [e])
  {
    hide Enabled, Next;
  }

  /** The blocks of the step join the ledger. */
  function Joined(l: Ledger, h: nat, block: Option<nat>): Ledger {
    if h in l || block.None? then l else l[h := block.value]
  }

  lemma KnownJoined(l: Ledger, finalized: set<(nat, nat)>, h: nat, block: Option<nat>)
    requires Known(l, finalized)
    ensures Known(Joined(l, h, block), finalized)
  {
  }

  /** The blocks of the node after the step. */
  lemma KnownAfter(l: Ledger, before: set<(nat, nat)>, after: set<(nat, nat)>, h: nat, block: Option<nat>)
    requires Known(l, before) && forall f :: f in after && f !in before ==> f.0 == h
    requires block.Some? ==> (h, block.value) in after
    requires block.None? ==> forall f :: f in after ==> f.0 != h
    requires forall f, f' :: f in after && f' in after && f.0 == f'.0 ==> f == f'
    requires h in l ==> forall f :: f in after && f.0 == h ==> f == (h, l[h])
    ensures Known(Joined(l, h, block), after)
  {
    forall f | f in after ensures f.0 in Joined(l, h, block) && Joined(l, h, block)[f.0] == f.1 {
      if f.0 == h && h !in l {
        assert f == (h, block.value);
      }
    }
  }

  lemma HeldAfter(g: Net, g': Net, n: nat, f: (nat, nat))
    requires n in g.nodes && n in g'.nodes && g'.nodes == g.nodes[n := g'.nodes[n]]
    requires g.nodes[n].finalized <= g'.nodes[n].finalized && Held(g, f)
    ensures Held(g', f)
  {
    var m :| m in g.nodes && f in g.nodes[m].finalized;
    assert f in g'.nodes[m].finalized;
  }

  lemma {:induction false} RecordsJoined(l: Ledger, g: Net, g': Net, n: nat, block: Option<nat>)
    requires n in g.nodes && n in g'.nodes && g'.nodes == g.nodes[n := g'.nodes[n]] && Records(l, g)
    requires Finalizes(g.nodes[n], g'.nodes[n])
    requires var h, after := g.nodes[n].height, g'.nodes[n].finalized;
             && (block.Some? ==> (h, block.value) in after)
             && (block.None? ==> forall f :: f in after ==> f.0 != h)
             && (forall f, f' :: f in after && f' in after && f.0 == f'.0 ==> f == f')
             && (forall f, f' :: f in after && Held(g, f') && f.0 == f'.0 ==> f == f')
    ensures Records(Joined(l, g.nodes[n].height, block), g')
  {
    hide Known, Held;
    var h, after := g.nodes[n].height, g'.nodes[n].finalized;
    var l' := Joined(l, h, block);
    KnownAfter(l, g.nodes[n].finalized, after, h, block);
    forall m | m in g'.nodes ensures Known(l', g'.nodes[m].finalized) {
      if m != n {
        KnownJoined(l, g.nodes[m].finalized, h, block);
      }
    }
    forall k | k in l' ensures Held(g', (k, l'[k])) {
      if k in l {
        HeldAfter(g, g', n, (k, l[k]));
      } else {
        HeldNow(g', n, (k, l'[k]));
      }
    }
  }

  lemma HeldNow(g: Net, n: nat, f: (nat, nat))
    requires n in g.nodes && f in g.nodes[n].finalized
    ensures Held(g, f)
  {
  }

  /** A block that is new to all nodes changes nothing about the steps so far. */
  lemma {:induction false} EarlierSame(rules: Rules, honest: set<nat>, run: seq<Net>, events: seq<Event>,
                                       i: nat, l: Ledger, h: nat, block: Option<nat>, j: nat)
    requires RulesHonest(rules, honest) && UnderOne(rules, honest, run, events, i, l) && j < i && h >= 1
    ensures Enabled(run[j], events[j]) && run[j + 1] == Next(ChainOf(rules, Joined(l, h, block)), run[j], events[j])
  {
    hide Handle, ChainOf, Enabled, MostlyHonest, NetInv, IsRun, SameUpTo;
    var c, d := ChainOf(rules, l), ChainOf(rules, Joined(l, h, block));
    RunAt(c, honest, run, events, i, j);
    var e := events[j];
    if e.Deliver? {
      var n := e.node;
      NodeThere(run[j], e);
      var s := run[j].nodes[n];
      var s' := Handle(c, e.oracle, s, e.input);
      HeightsBelow(rules, honest, run, events, i, l, h, j + 1, n);
      SameChains(rules, l, Joined(l, h, block), s'.height);
      SameSelf(c, s.height);
      LocalHandle(c, c, e.oracle, s, e.input);
      SameLower(c, d, s'.height, s.height);
      LocalHandle(c, d, e.oracle, s, e.input);
    }
  }

  lemma NodeThere(g: Net, e: Event)
    requires Enabled(g, e) && e.Deliver?
    ensures e.node in g.nodes
  {
  }

  lemma SameSelf(c: Chain, h: nat)
    ensures SameUpTo(c, c, h)
  {
  }

  lemma SameLower(c: Chain, d: Chain, h: nat, k: nat)
    requires SameUpTo(c, d, h) && k <= h
    ensures SameUpTo(c, d, k) && SameAt(c, d, h)
  {
  }

  /** A height that nobody has finalized is not below any node's. */
  lemma {:induction false} HeightsBelow(rules: Rules, honest: set<nat>, run: seq<Net>, events: seq<Event>,
                                        i: nat, l: Ledger, h: nat, j: nat, n: nat)
    requires RulesHonest(rules, honest) && UnderOne(rules, honest, run, events, i, l)
    requires j <= i && n in run[j].nodes && h >= 1
    ensures h !in l ==> run[j].nodes[n].height <= h
  {
    hide ChainOf, MostlyHonest, IsRun;
    var c := ChainOf(rules, l);
    assert MostlyHonest(c, honest);
    NodesAre(rules, honest, run, events, i, l, j);
    assert NodeOk(c, run[j], n);
    if run[j].nodes[n].height > h {
      assert Ended(run[j].nodes[n].finalized, h);
      var b :| (h, b) in run[j].nodes[n].finalized;
      hide Inv, NetInv;
      NeverBack(c, honest, run[..i + 1], events[..i], j, i, n);
      assert (h, b) in run[i].nodes[n].finalized;
    }
  }

  lemma {:induction false} DeliverKeeps(rules: Rules, honest: set<nat>, run: seq<Net>, events: seq<Event>,
                                        i: nat, l: Ledger)
    returns (l': Ledger)
    requires RulesHonest(rules, honest) && IsOwnRun(rules, honest, run, events) && i < |events| && events[i].Deliver?
    requires UnderOne(rules, honest, run, events, i, l)
    ensures UnderOne(rules, honest, run, events, i + 1, l')
  {
    hide Handle, ChainOf, Enabled, MostlyHonest, NetInv, IsRun, SameUpTo, Records, Finalizes, Own;
    var g, e := run[i], events[i];
    assert StepAt(rules, run, events, i);
    var n := e.node;
    NodeThere(g, e);
    var s, s' := g.nodes[n], run[i + 1].nodes[n];
    var own :| Own(own, s') && s' == Handle(ChainOf(rules, own), e.oracle, s, e.input);
    OwnAgrees(rules, e.oracle, g, n, e.input, s', l, own);
    var t := Handle(ChainOf(rules, l), e.oracle, s, e.input);
    StepAgrees(rules, honest, run, events, i, l, t);
    var block := if Ended(s'.finalized, s.height) then Some(BlockAt(s'.finalized, s.height)) else None;
    NoBlockAt(s'.finalized, s.height);
    RecordsJoined(l, g, run[i + 1], n, block);
    l' := Joined(l, s.height, block);
    OwnMatches(rules, own, l', run[i + 1], n);
    StepIs(rules, e.oracle, s, e.input, s', own, l');
    AtLeastOne(rules, honest, run, events, i, l, n);
    AllSame(rules, honest, run, events, i, l, s.height, block);
  }

  ghost function BlockAt(finalized: set<(nat, nat)>, h: nat): (b: nat)
    requires Ended(finalized, h)
    ensures (h, b) in finalized
  {
    var b :| (h, b) in finalized;
    b
  }

  lemma NoBlockAt(finalized: set<(nat, nat)>, h: nat)
    ensures !Ended(finalized, h) ==> forall f :: f in finalized ==> f.0 != h
  {
    forall f | f in finalized && f.0 == h ensures Ended(finalized, h) {
      assert (h, f.1) in finalized;
    }
  }

  lemma OwnMatches(rules: Rules, own: Ledger, l: Ledger, g: Net, n: nat)
    requires n in g.nodes && Own(own, g.nodes[n]) && Records(l, g)
    ensures SameUpTo(ChainOf(rules, own), ChainOf(rules, l), g.nodes[n].height)
  {
    hide ChainOf, SameUpTo;
    forall k: nat | 1 <= k < g.nodes[n].height ensures k in own && k in l && own[k] == l[k] {
      assert (k, own[k]) in g.nodes[n].finalized;
    }
    SameChains(rules, own, l, g.nodes[n].height);
  }

  lemma StepIs(rules: Rules, o: Oracle, s: RoundState, input: Input, s': RoundState, own: Ledger, l: Ledger)
    requires s' == Handle(ChainOf(rules, own), o, s, input) && Finalizes(s, s')
    requires SameUpTo(ChainOf(rules, own), ChainOf(rules, l), s'.height)
    ensures s' == Handle(ChainOf(rules, l), o, s, input)
  {
    hide Handle, ChainOf, SameUpTo, SameAt;
    SameLower(ChainOf(rules, own), ChainOf(rules, l), s'.height, s.height);
    LocalHandle(ChainOf(rules, own), ChainOf(rules, l), o, s, input);
  }

  lemma AtLeastOne(rules: Rules, honest: set<nat>, run: seq<Net>, events: seq<Event>, i: nat, l: Ledger, n: nat)
    requires RulesHonest(rules, honest) && UnderOne(rules, honest, run, events, i, l) && n in run[i].nodes
    ensures run[i].nodes[n].height >= 1
  {
    hide ChainOf, MostlyHonest, IsRun, Records;
    NodesAre(rules, honest, run, events, i, l, i);
    assert NodeOk(ChainOf(rules, l), run[i], n);
  }

  lemma {:induction false} AllSame(rules: Rules, honest: set<nat>, run: seq<Net>, events: seq<Event>, i: nat, l: Ledger,
                                   h: nat, block: Option<nat>)
    requires RulesHonest(rules, honest) && UnderOne(rules, honest, run, events, i, l) && i < |events| && h >= 1
    requires Enabled(run[i], events[i])
    requires run[i + 1] == Next(ChainOf(rules, Joined(l, h, block)), run[i], events[i])
    ensures IsRun(ChainOf(rules, Joined(l, h, block)), honest, run[..i + 2], events[..i + 1])
  {
    hide ChainOf, Enabled, MostlyHonest, NetInv, Records, Next;
    var d := ChainOf(rules, Joined(l, h, block));
    var r, e := run[..i + 2], events[..i + 1];
    assert run[..i + 1][0] == run[0];
    forall j | 0 <= j < i + 1 ensures Enabled(r[j], e[j]) && r[j + 1] == Next(d, r[j], e[j]) {
      if j < i {
        EarlierSame(rules, honest, run, events, i, l, h, block, j);
      }
    }
  }

  lemma {:induction false} ForgeKeeps(rules: Rules, honest: set<nat>, run: seq<Net>, events: seq<Event>,
                                      i: nat, l: Ledger)
    requires RulesHonest(rules, honest) && IsOwnRun(rules, honest, run, events) && i < |events| && events[i].Forge?
    requires UnderOne(rules, honest, run, events, i, l)
    ensures UnderOne(rules, honest, run, events, i + 1, l)
  {
    hide ChainOf, MostlyHonest, NetInv;
    assert StepAt(rules, run, events, i);
    assert Records(l, run[i + 1]) by {
      forall h | h in l ensures Held(run[i + 1], (h, l[h])) {
        assert Held(run[i], (h, l[h]));
      }
    }
    hide Records;
    AllSame(rules, honest, run, events, i, l, 1, None);
  }

  /** A run in which every node goes by its own ledger is one under a common ledger, made of
      just the blocks the nodes have finalized. */
  lemma {:induction false} OneLedger(rules: Rules, honest: set<nat>, run: seq<Net>, events: seq<Event>, i: nat)
    returns (l: Ledger)
    requires RulesHonest(rules, honest) && IsOwnRun(rules, honest, run, events) && i < |run|
    ensures UnderOne(rules, honest, run, events, i, l)
  {
    hide RulesHonest, StepAt, UnderOne;
    if i == 0 {
      l := map[];
      Empty(rules, honest, run, events);
    } else {
      var before := OneLedger(rules, honest, run, events, i - 1);
      if events[i - 1].Deliver? {
        l := DeliverKeeps(rules, honest, run, events, i - 1, before);
      } else {
        l := before;
        ForgeKeeps(rules, honest, run, events, i - 1, before);
      }
    }
  }

  lemma Empty(rules: Rules, honest: set<nat>, run: seq<Net>, events: seq<Event>)
    requires IsOwnRun(rules, honest, run, events)
    ensures UnderOne(rules, honest, run, events, 0, map[])
  {
  }

  /** So any two honest nodes that finalize a block at a height finalize the same one, where
      the validators of each height are those that the node's own blocks below determine. */
  lemma {:induction false} OwnAgree(rules: Rules, honest: set<nat>, run: seq<Net>, events: seq<Event>,
                                    i: nat, n: nat, j: nat, m: nat, h: nat, hash: nat, hash': nat)
    requires RulesHonest(rules, honest) && IsOwnRun(rules, honest, run, events) && i <= j < |run|
    requires n in run[i].nodes && (h, hash) in run[i].nodes[n].finalized
    requires m in run[j].nodes && (h, hash') in run[j].nodes[m].finalized
    ensures hash == hash'
  {
    var l := OneLedger(rules, honest, run, events, j);
    var c := ChainOf(rules, l);
    NodesAre(rules, honest, run, events, j, l, i);
    KeysAre(c, honest, run[i]);
    assert MostlyHonest(c, honest);
    hide RulesHonest, NetInv, MostlyHonest, IsOwnRun, IsRun, ChainOf;
    NeverBack(c, honest, run[..j + 1], events[..j], i, j, n);
    assert Known(l, run[j].nodes[n].finalized) && Known(l, run[j].nodes[m].finalized);
  }
}
