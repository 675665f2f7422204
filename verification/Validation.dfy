/** The evidence of a block in state/validation.go, under a pool of evidence. */
module Validation {

  datatype Kind =
    | Lunatic
    | Amnesia(polc: bool, roundA: nat, roundB: nat)   // `polc`: a proof of lock change is attached
    | Other

  /** `sound` is what VerifyEvidence says of it, given the header of its height if it needs one. */
  datatype Evidence = Evidence(height: nat, kind: Kind, accused: nat, sound: bool)

  datatype Pool = Pool(committed: set<Evidence>, pending: set<Evidence>, headers: set<nat>)

  /** The stub that the handshake puts in place of the pool. */
  const NO_POOL := Pool({}, {}, {})

  /** Amnesia evidence that has to be in the pool, on trial, before a block may carry it. */
  predicate Untried(ev: Evidence) {
    ev.kind.Amnesia? && !ev.kind.polc && ev.kind.roundA < ev.kind.roundB
  }

  predicate Passes(pool: Pool, ev: Evidence) {
    && ev !in pool.committed
    && (ev in pool.pending || (!Untried(ev) && (ev.kind.Lunatic? ==> ev.height in pool.headers) && ev.sound))
  }

  ghost predicate Distinct(evs: seq<Evidence>) {
    forall i, j :: 0 <= i < j < |evs| ==> evs[i] != evs[j]
  }

  ghost predicate AllPass(pool: Pool, evs: seq<Evidence>) {
    Distinct(evs) && forall i :: 0 <= i < |evs| ==> Passes(pool, evs[i])
  }

  method ValidateEvidence(pool: Pool, evs: seq<Evidence>) returns (ok: bool)
    ensures ok <==> AllPass(pool, evs)
  {
    for idx := 0 to |evs|
      invariant forall i, j :: 0 <= i < idx && i < j < |evs| ==> evs[i] != evs[j]
      invariant forall i :: 0 <= i < idx ==> Passes(pool, evs[i])
    {
      var ev := evs[idx];
      for i := idx + 1 to |evs|
        invariant forall j :: idx < j < i ==> evs[j] != ev
      {
        if ev == evs[i] {
          return false;
        }
      }
      if ev in pool.committed {
        return false;
      }
      if ev in pool.pending {
        continue;
      }
      if Untried(ev) {
        return false;
      }
      if ev.kind.Lunatic? && ev.height !in pool.headers {
        return false;
      }
      if !ev.sound {
        return false;
      }
    }
    ok := true;
  }

  /** Each block passed under the pool of its time, and the pool has marked it committed when the
      next one comes. */
  ghost predicate IsRun(pools: seq<Pool>, blocks: seq<seq<Evidence>>) {
    |pools| == |blocks| + 1 && forall i :: 0 <= i < |blocks| ==> Marks(pools[i], blocks[i], pools[i + 1])
  }

  ghost predicate Marks(pool: Pool, evs: seq<Evidence>, next: Pool) {
    AllPass(pool, evs) && pool.committed <= next.committed && forall i :: 0 <= i < |evs| ==> evs[i] in next.committed
  }

  lemma {:induction false} CommittedStays(pools: seq<Pool>, blocks: seq<seq<Evidence>>, i: nat, j: nat)
    requires IsRun(pools, blocks) && i <= j < |pools|
    ensures pools[i].committed <= pools[j].committed
  {
    hide AllPass;
    if i < j {
      CommittedStays(pools, blocks, i, j - 1);
      assert Marks(pools[j - 1], blocks[j - 1], pools[j]);
    }
  }

  /** No evidence is in two places of a chain, be it one block or two. */
  lemma {:induction false} CommittedOnce(pools: seq<Pool>, blocks: seq<seq<Evidence>>, i: nat, x: nat, j: nat, y: nat)
    requires IsRun(pools, blocks) && i < |blocks| && j < |blocks| && x < |blocks[i]| && y < |blocks[j]|
    ensures blocks[i][x] == blocks[j][y] ==> i == j && x == y
  {
    if i > j {
      CommittedOnce(pools, blocks, j, y, i, x);
    } else {
      assert Marks(pools[i], blocks[i], pools[i + 1]) && Marks(pools[j], blocks[j], pools[j + 1]);
      assert Passes(pools[j], blocks[j][y]);
      if i < j {
        CommittedStays(pools, blocks, i + 1, j);
      }
    }
  }

  /** What only a pool lets through: evidence about another chain, and evidence taken from the
      pool unseen that does not stand by itself. */
  predicate NeedsPool(pool: Pool, ev: Evidence) {
    match ev.kind
    case Lunatic => true
    case Amnesia(polc, roundA, roundB) => ev in pool.pending && ((!polc && roundA < roundB) || !ev.sound)
    case Other => ev in pool.pending && !ev.sound
  }

  ghost predicate SomeNeedsPool(pool: Pool, evs: seq<Evidence>) {
    exists i :: 0 <= i < |evs| && NeedsPool(pool, evs[i])
  }

  /** A block that a node accepted is refused without its pool if and only if it has such. */
  lemma {:induction false} RefusedIff(pool: Pool, evs: seq<Evidence>)
    requires AllPass(pool, evs)
    ensures AllPass(NO_POOL, evs) <==> !SomeNeedsPool(pool, evs)
  {
    if AllPass(NO_POOL, evs) {
      forall i | 0 <= i < |evs| ensures !NeedsPool(pool, evs[i]) {
        assert Passes(NO_POOL, evs[i]);
      }
    } else {
      var i :| 0 <= i < |evs| && !Passes(NO_POOL, evs[i]);
      assert Passes(pool, evs[i]);
      assert NeedsPool(pool, evs[i]);
    }
  }
}
