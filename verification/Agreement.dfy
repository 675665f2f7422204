/** All runs of a network: honest nodes run consensus/state.go, the other
    validators cast any votes they like, and any cast vote may reach any node at
    any time, in any order, any number of times. */
module Agreement {
  import opened Common
  import opened Quorums
  import opened VoteSets
  import opened Consensus
  import opened ConsensusInvariants

  /** `cast` is every vote ever signed; `nodes` are the honest nodes, by address. */
  datatype Net = Net(cast: set<Vote>, nodes: map<nat, RoundState>)

  datatype Event =
    | Deliver(node: nat, input: Input, oracle: Oracle)
    | Forge(vote: Vote)

  ghost predicate Enabled(g: Net, e: Event) {
    match e
    case Deliver(n, input, _) =>
      && n in g.nodes && MayArrive(g.nodes[n], input)
      && (input.VoteMsg? ==> input.vote in g.cast)
    case Forge(vote) => vote.val !in g.nodes
  }

  function Next(c: Chain, g: Net, e: Event): Net
    requires Enabled(g, e)
  {
    match e
    case Deliver(n, input, o) =>
      var s := Handle(c, o, g.nodes[n], input);
      Net(g.cast + s.signed, g.nodes[n := s])
    case Forge(vote) => g.(cast := g.cast + {vote})
  }

  function Init(honest: set<nat>): Net {
    Net({}, map n | n in honest :: Start(n))
  }

  /** The states of a run, the first one included. */
  ghost predicate IsRun(c: Chain, honest: set<nat>, run: seq<Net>, events: seq<Event>) {
    && |run| == |events| + 1
    && run[0] == Init(honest)
    && forall i :: 0 <= i < |events| ==> Enabled(run[i], events[i]) && run[i + 1] == Next(c, run[i], events[i])
  }

  function Faulty(c: Chain, honest: set<nat>, h: nat): set<nat> {
    set v | 0 <= v < |c.powers(h)| && v !in honest
  }

  /** Less than a third of the power of every height is not honest. */
  ghost predicate MostlyHonest(c: Chain, honest: set<nat>) {
    forall h: nat :: 3 * Power(c.powers(h), Faulty(c, honest, h)) < Total(c.powers(h))
  }

  // ----- the invariant of the network

  ghost predicate NodeOk(c: Chain, g: Net, n: nat)
    requires n in g.nodes
  {
    var s := g.nodes[n];
    && s.self == n && Inv(c, s)
    && s.seen <= g.cast && s.signed <= g.cast
    && (forall v :: v in g.cast && v.val == n ==> v in s.signed)
  }

  /** Validators that precommitted the block in the round, might still, or are faulty. */
  function Supporters(c: Chain, g: Net, h: nat, r: nat, hash: nat): set<nat> {
    set v | 0 <= v < |c.powers(h)| &&
      (v in g.nodes ==> At(g.nodes[v]).Lt(HRS(h, r, PRECOMMIT)) || PrecommittedBy(g, h, r, hash, v))
  }

  predicate PrecommittedBy(g: Net, h: nat, r: nat, hash: nat, n: nat) {
    exists v :: v in g.cast && v.kind.Precommit? && v.height == h && v.round == r && v.val == n
                && v.id.ID? && v.id.hash == hash
  }

  /** +2/3 precommits for the block in the round exist or can still come about. */
  ghost predicate Choosable(c: Chain, g: Net, h: nat, r: nat, hash: nat) {
    Quorum(c.powers(h), Supporters(c, g, h, r, hash))
  }

  /** Once +2/3 prevoted for one thing, nothing else can be committed in an earlier round. */
  ghost predicate ChoicesOk(c: Chain, g: Net) {
    forall h: nat, r: nat, id, earlier: nat, hash: nat ::
      Backed(c, g.cast, Prevote, h, r, id) && earlier < r && Differs(id, hash) ==>
      !Choosable(c, g, h, earlier, hash)
  }

  ghost predicate NetInv(c: Chain, honest: set<nat>, g: Net) {
    && g.nodes.Keys == honest
    && (forall n :: n in g.nodes ==> NodeOk(c, g, n))
    && ChoicesOk(c, g)
  }

  // ----- each event keeps it

  /** What an event does to the nodes: each stays well formed, adds to its history
      only, and has seen nothing but votes cast before the event. */
  ghost predicate Stepped(c: Chain, g: Net, g': Net) {
    && g'.nodes.Keys == g.nodes.Keys && g.cast <= g'.cast
    && (forall n :: n in g'.nodes ==>
          && NodeOk(c, g', n) && Grew(g.nodes[n], g'.nodes[n])
          && g'.nodes[n].seen <= g.cast && g.nodes[n].signed <= g.cast)
  }

  lemma NodeKept(c: Chain, g: Net, n: nat, input: Input, o: Oracle)
    requires Enabled(g, Deliver(n, input, o)) && NodeOk(c, g, n)
    ensures var g' := Next(c, g, Deliver(n, input, o));
            NodeOk(c, g', n) && Grew(g.nodes[n], g'.nodes[n]) && g'.nodes[n].seen <= g.cast
    ensures forall v :: v in Handle(c, o, g.nodes[n], input).signed ==> v.val == n
  {
    hide Handle;
    var s := Handle(c, o, g.nodes[n], input);
    HandleKept(c, o, g.nodes[n], input);
    forall v | v in s.signed ensures v.val == n {
      SignedNotAhead(c, s, v);
    }
    hide Inv;
  }

  lemma NodesKept(c: Chain, honest: set<nat>, g: Net, e: Event)
    requires NetInv(c, honest, g) && Enabled(g, e)
    ensures Stepped(c, g, Next(c, g, e))
  {
    hide Handle, Inv, ChoicesOk, MayArrive;
    var g' := Next(c, g, e);
    if e.Deliver? {
      NodeKept(c, g, e.node, e.input, e.oracle);
    }
    forall n | n in g'.nodes ensures NodeOk(c, g', n) && Grew(g.nodes[n], g'.nodes[n])
                                     && g'.nodes[n].seen <= g.cast && g.nodes[n].signed <= g.cast
    {
      assert NodeOk(c, g, n);
    }
  }

  /** What can be chosen after an event could be chosen before it. */
  lemma ChoosableShrinks(c: Chain, g: Net, g': Net, h: nat, r: nat, hash: nat)
    requires Stepped(c, g, g') && Choosable(c, g', h, r, hash)
    ensures Choosable(c, g, h, r, hash)
  {
    hide Inv;
    forall v | v in Supporters(c, g', h, r, hash) ensures v in Supporters(c, g, h, r, hash) {
      if v in g.nodes && !At(g.nodes[v]).Lt(HRS(h, r, PRECOMMIT)) {
        assert NodeOk(c, g', v) && Grew(g.nodes[v], g'.nodes[v]);
        var p :| p in g'.cast && p.kind.Precommit? && p.height == h && p.round == r && p.val == v
                 && p.id.ID? && p.id.hash == hash;
        assert p in g'.nodes[v].signed && Tag(p) == HRS(h, r, PRECOMMIT);
        assert p in g.nodes[v].signed;
        assert p in g.cast;
      }
    }
    PowerMonotone(c.powers(h), Supporters(c, g', h, r, hash), Supporters(c, g, h, r, hash));
  }

  /** An honest validator that precommitted a block and prevoted against it later
      had seen +2/3 prevotes against it. */
  lemma ProofOfLockChange(c: Chain, g: Net, g': Net, m: nat, h: nat, r: nat, id: BlockID, earlier: nat, hash: nat)
    requires Stepped(c, g, g') && m in g'.nodes && earlier < r && Differs(id, hash)
    requires Vote(Prevote, h, r, id, m) in g'.cast
    requires At(g'.nodes[m]).Lt(HRS(h, earlier, PRECOMMIT)) || PrecommittedBy(g', h, earlier, hash, m)
    ensures Overruled(c, g.cast, h, earlier, r, hash)
  {
    var s := g'.nodes[m];
    var w := Vote(Prevote, h, r, id, m);
    assert NodeOk(c, g', m);
    SignedNotAhead(c, s, w);
    var p :| p in g'.cast && p.kind.Precommit? && p.height == h && p.round == earlier && p.val == m
             && p.id.ID? && p.id.hash == hash;
    assert p in s.signed && w in s.signed;
    assert PrevotesJustified(c, s.seen, s.signed);
    OverruledMonotone(c, s.seen, g.cast, h, earlier, r, r, hash);
  }

  /** +2/3 prevotes against a block that is still choosable need an honest validator
      that precommitted the block, so there were +2/3 prevotes against it before. */
  lemma ChoiceKept(c: Chain, honest: set<nat>, g: Net, g': Net, h: nat, r: nat, id: BlockID, earlier: nat, hash: nat)
    requires MostlyHonest(c, honest) && g.nodes.Keys == honest && ChoicesOk(c, g) && Stepped(c, g, g')
    requires Backed(c, g'.cast, Prevote, h, r, id) && earlier < r && Differs(id, hash)
    ensures !Choosable(c, g', h, earlier, hash)
  {
    if Choosable(c, g', h, earlier, hash) {
      ChoosableShrinks(c, g, g', h, earlier, hash);
      var m := QuorumsMeet(c.powers(h), Voters(c, g'.cast, Prevote, h, r, id), Supporters(c, g', h, earlier, hash),
                           Faulty(c, honest, h));
      ProofOfLockChange(c, g, g', m, h, r, id, earlier, hash);
      hide NodeOk, Voters, Supporters;
    }
  }

  lemma EventKept(c: Chain, honest: set<nat>, g: Net, e: Event)
    requires MostlyHonest(c, honest) && NetInv(c, honest, g) && Enabled(g, e)
    ensures NetInv(c, honest, Next(c, g, e))
  {
    hide Handle, NodeOk, Next, Enabled, Choosable, Backed, Grew;
    var g' := Next(c, g, e);
    NodesKept(c, honest, g, e);
    forall h: nat, r: nat, id, earlier: nat, hash: nat
      | Backed(c, g'.cast, Prevote, h, r, id) && earlier < r && Differs(id, hash)
      ensures !Choosable(c, g', h, earlier, hash)
    {
      ChoiceKept(c, honest, g, g', h, r, id, earlier, hash);
    }
  }

  lemma InitOk(c: Chain, honest: set<nat>)
    requires MostlyHonest(c, honest)
    ensures NetInv(c, honest, Init(honest))
  {
    var g := Init(honest);
    forall n | n in g.nodes ensures NodeOk(c, g, n) {
      StartOk(c, n);
    }
    forall h: nat, r: nat, id ensures !Backed(c, g.cast, Prevote, h, r, id) {
      assert Voters(c, g.cast, Prevote, h, r, id) == {};
      PowerEmpty(c.powers(h));
    }
  }

  /** The invariant holds in every state of every run. */
  lemma {:induction false} RunOk(c: Chain, honest: set<nat>, run: seq<Net>, events: seq<Event>, i: nat)
    requires MostlyHonest(c, honest) && IsRun(c, honest, run, events) && i < |run|
    ensures NetInv(c, honest, run[i])
  {
    if i == 0 {
      InitOk(c, honest);
    } else {
      RunOk(c, honest, run, events, i - 1);
      EventKept(c, honest, run[i - 1], events[i - 1]);
    }
  }

  // ----- agreement

  /** +2/3 precommits for a block in a round keep it choosable there. */
  lemma CommittedIsChoosable(c: Chain, honest: set<nat>, g: Net, h: nat, r: nat, id: BlockID)
    requires NetInv(c, honest, g) && id.ID? && Backed(c, g.cast, Precommit, h, r, id)
    ensures Choosable(c, g, h, r, id.hash)
  {
    var who := Voters(c, g.cast, Precommit, h, r, id);
    forall v | v in who ensures v in Supporters(c, g, h, r, id.hash) {
      assert Vote(Precommit, h, r, id, v) in g.cast;
    }
    PowerMonotone(c.powers(h), who, Supporters(c, g, h, r, id.hash));
  }

  /** +2/3 precommits for a block take +2/3 prevotes for it in the same round. */
  lemma CommittedHadPolka(c: Chain, honest: set<nat>, g: Net, h: nat, r: nat, id: BlockID)
    requires MostlyHonest(c, honest) && NetInv(c, honest, g) && id.ID? && Backed(c, g.cast, Precommit, h, r, id)
    ensures Backed(c, g.cast, Prevote, h, r, id)
  {
    var m := QuorumHasHonest(c.powers(h), Voters(c, g.cast, Precommit, h, r, id), Faulty(c, honest, h));
    assert NodeOk(c, g, m);
    assert Vote(Precommit, h, r, id, m) in g.nodes[m].signed;
    BackedMonotone(c, g.nodes[m].seen, g.cast, Prevote, h, r, id);
  }

  lemma OneCommit(c: Chain, honest: set<nat>, g: Net, h: nat, r: nat, id: BlockID, r': nat, id': BlockID)
    requires MostlyHonest(c, honest) && NetInv(c, honest, g) && id.ID? && id'.ID? && r <= r'
    requires Backed(c, g.cast, Precommit, h, r, id) && Backed(c, g.cast, Precommit, h, r', id')
    ensures id.hash == id'.hash
  {
    if r == r' {
      var m := QuorumsMeet(c.powers(h), Voters(c, g.cast, Precommit, h, r, id),
                           Voters(c, g.cast, Precommit, h, r, id'), Faulty(c, honest, h));
      assert NodeOk(c, g, m);
      OneVotePerStep(c, g.nodes[m], Vote(Precommit, h, r, id, m), Vote(Precommit, h, r, id', m));
    } else {
      CommittedIsChoosable(c, honest, g, h, r, id);
      CommittedHadPolka(c, honest, g, h, r', id');
    }
  }

  /** An honest node signs at most one vote per height, round and type. */
  lemma OneVotePerStep(c: Chain, s: RoundState, v: Vote, w: Vote)
    requires Inv(c, s) && v in s.signed && w in s.signed && Tag(v) == Tag(w)
    ensures v == w
  {
    var i :| 0 <= i < |s.requests| && s.requests[i].vote == v;
    var j :| 0 <= j < |s.requests| && s.requests[j].vote == w;
    assert i == j;
  }

  /** Any two honest nodes that finalize a block at a height finalize the same block,
      in all runs. */
  lemma Agree(c: Chain, honest: set<nat>, run: seq<Net>, events: seq<Event>, i: nat, n: nat, j: nat, m: nat,
              h: nat, hash: nat, hash': nat)
    requires MostlyHonest(c, honest) && IsRun(c, honest, run, events) && i <= j < |run|
    requires n in honest && n in run[i].nodes && (h, hash) in run[i].nodes[n].finalized
    requires m in honest && m in run[j].nodes && (h, hash') in run[j].nodes[m].finalized
    ensures hash == hash'
  {
    RunOk(c, honest, run, events, i);
    RunOk(c, honest, run, events, j);
    CastGrows(c, honest, run, events, i, j);
    var g := run[j];
    var s, s' := run[i].nodes[n], g.nodes[m];
    assert NodeOk(c, run[i], n) && NodeOk(c, g, m);
    var r: nat, parts :| Backed(c, s.seen, Precommit, h, r, ID(hash, parts));
    var r': nat, parts' :| Backed(c, s'.seen, Precommit, h, r', ID(hash', parts'));
    BackedMonotone(c, s.seen, g.cast, Precommit, h, r, ID(hash, parts));
    BackedMonotone(c, s'.seen, g.cast, Precommit, h, r', ID(hash', parts'));
    if r <= r' {
      OneCommit(c, honest, g, h, r, ID(hash, parts), r', ID(hash', parts'));
    } else {
      OneCommit(c, honest, g, h, r', ID(hash', parts'), r, ID(hash, parts));
    }
  }

  lemma {:induction false} CastGrows(c: Chain, honest: set<nat>, run: seq<Net>, events: seq<Event>, i: nat, j: nat)
    requires MostlyHonest(c, honest) && IsRun(c, honest, run, events) && i <= j < |run|
    ensures run[i].cast <= run[j].cast
  {
    if i < j {
      CastGrows(c, honest, run, events, i, j - 1);
      assert run[j] == Next(c, run[j - 1], events[j - 1]);
    }
  }

  /** Honest nodes past a height have finalized one and the same block there. */
  lemma SameLedger(c: Chain, honest: set<nat>, run: seq<Net>, events: seq<Event>, i: nat, n: nat, m: nat, h: nat)
    returns (hash: nat)
    requires MostlyHonest(c, honest) && IsRun(c, honest, run, events) && i < |run|
    requires n in run[i].nodes && m in run[i].nodes
    requires 1 <= h < run[i].nodes[n].height && h < run[i].nodes[m].height
    ensures forall b :: (h, b) in run[i].nodes[n].finalized <==> b == hash
    ensures forall b :: (h, b) in run[i].nodes[m].finalized <==> b == hash
  {
    RunOk(c, honest, run, events, i);
    var g := run[i];
    assert NodeOk(c, g, n) && NodeOk(c, g, m);
    assert Ended(g.nodes[n].finalized, h) && Ended(g.nodes[m].finalized, h);
    hash :| (h, hash) in g.nodes[n].finalized;
    hide Inv;
    forall k, b | k in {n, m} && (h, b) in g.nodes[k].finalized ensures b == hash {
      Agree(c, honest, run, events, i, n, i, k, h, hash, b);
    }
    var b :| (h, b) in g.nodes[m].finalized;
    assert b == hash;
  }

  /** Once +2/3 prevoted for something in a round, at no later time are there +2/3
      precommits for anything else in an earlier round. */
  lemma PolkaIsFinal(c: Chain, honest: set<nat>, run: seq<Net>, events: seq<Event>, i: nat, j: nat,
                     h: nat, r: nat, id: BlockID, earlier: nat, other: BlockID)
    requires MostlyHonest(c, honest) && IsRun(c, honest, run, events) && i <= j < |run|
    requires Backed(c, run[i].cast, Prevote, h, r, id) && earlier < r && other.ID? && Differs(id, other.hash)
    ensures !Backed(c, run[j].cast, Precommit, h, earlier, other)
  {
    RunOk(c, honest, run, events, j);
    CastGrows(c, honest, run, events, i, j);
    BackedMonotone(c, run[i].cast, run[j].cast, Prevote, h, r, id);
    if Backed(c, run[j].cast, Precommit, h, earlier, other) {
      CommittedIsChoosable(c, honest, run[j], h, earlier, other);
    }
  }

  /** Height, round and step never go back, and history is never rewritten. */
  lemma {:induction false} NeverBack(c: Chain, honest: set<nat>, run: seq<Net>, events: seq<Event>, i: nat, j: nat,
                                     n: nat)
    requires MostlyHonest(c, honest) && IsRun(c, honest, run, events) && i <= j < |run| && n in honest
    ensures n in run[i].nodes && n in run[j].nodes
    ensures var s, s' := run[i].nodes[n], run[j].nodes[n];
            && At(s).Le(At(s')) && s.requests <= s'.requests && s.signed <= s'.signed && s.finalized <= s'.finalized
  {
    hide NodeOk, Next, Grew;
    RunOk(c, honest, run, events, i);
    if i < j {
      NeverBack(c, honest, run, events, i, j - 1, n);
      RunOk(c, honest, run, events, j - 1);
      NodesKept(c, honest, run[j - 1], events[j - 1]);
      GrewMeans(run[j - 1].nodes[n], run[j].nodes[n]);
    }
  }

  lemma GrewMeans(s: RoundState, s': RoundState)
    requires Grew(s, s')
    ensures At(s).Le(At(s')) && s.requests <= s'.requests && s.signed <= s'.signed && s.finalized <= s'.finalized
  {
  }

  /** The lock discipline, in every state of every run. */
  lemma LockDiscipline(c: Chain, honest: set<nat>, run: seq<Net>, events: seq<Event>, i: nat, n: nat)
    requires MostlyHonest(c, honest) && IsRun(c, honest, run, events) && i < |run| && n in honest
    ensures n in run[i].nodes
    ensures var s := run[i].nodes[n];
            && (s.lockedBlock.None? <==> s.lockedRound == -1)
            && s.lockedRound <= s.round && (s.lockedRound == s.round ==> s.step >= PRECOMMIT)
    ensures var s := run[i].nodes[n];
            s.lockedBlock.Some? ==>
              && s.lockedRound >= 0
              && exists parts ::
                   Backed(c, run[i].cast, Prevote, s.height, s.lockedRound, ID(s.lockedBlock.value, parts))
    ensures var s := run[i].nodes[n];
            forall v :: v in run[i].cast && v.val == n && v.kind.Precommit? && v.height == s.height && v.id.ID? ==>
              || (s.lockedBlock == Some(v.id.hash) && s.lockedRound >= v.round)
              || Overruled(c, run[i].cast, s.height, v.round, s.round, v.id.hash)
  {
    RunOk(c, honest, run, events, i);
    var g := run[i];
    var s := g.nodes[n];
    assert NodeOk(c, g, n);
    if s.lockedBlock.Some? {
      var parts :| Backed(c, s.seen, Prevote, s.height, s.lockedRound, ID(s.lockedBlock.value, parts));
      BackedMonotone(c, s.seen, g.cast, Prevote, s.height, s.lockedRound, ID(s.lockedBlock.value, parts));
    }
    forall v | v in g.cast && v.val == n && v.kind.Precommit? && v.height == s.height && v.id.ID?
               && !(s.lockedBlock == Some(v.id.hash) && s.lockedRound >= v.round)
      ensures Overruled(c, g.cast, s.height, v.round, s.round, v.id.hash)
    {
      OverruledMonotone(c, s.seen, g.cast, s.height, v.round, s.round, s.round, v.id.hash);
    }
  }

  /** In every state of every run: votes are requested in strictly increasing height,
      round and type, each for the round being entered; and no timeout lies ahead. */
  lemma RequestDiscipline(c: Chain, honest: set<nat>, run: seq<Net>, events: seq<Event>, i: nat, n: nat)
    requires MostlyHonest(c, honest) && IsRun(c, honest, run, events) && i < |run| && n in honest
    ensures n in run[i].nodes
    ensures var q := run[i].nodes[n].requests;
            && (forall k :: 0 <= k < |q| ==> q[k].entered == q[k].vote.round && q[k].vote.val == n)
            && (forall k, l :: 0 <= k < l < |q| ==> Tag(q[k].vote).Lt(Tag(q[l].vote)))
    ensures var s := run[i].nodes[n];
            forall ti :: ti in s.scheduled && ti.height >= s.height ==> ti.height == s.height && ti.round <= s.round
  {
    RunOk(c, honest, run, events, i);
    assert NodeOk(c, run[i], n);
  }
}
