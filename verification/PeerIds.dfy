/** mempool/reactor.go: sixteen-bit IDs for peers, searched for with wrap-around. */
module PeerIds {
  import opened Common

  const LIMIT := 0x1_0000        // values of a uint16
  const MAX_ACTIVE := 0xFFFF     // maxActiveIDs

  const UNKNOWN := 0             // UnknownPeerID

  function Inc(id: nat): nat {
    (id + 1) % LIMIT
  }

  /** The n-th ID a search looks at. */
  function Ahead(id: nat, n: nat, limit: nat): nat
    requires limit > 0
  {
    (id + n) % limit
  }

  /** All IDs below a bound. */
  function Below(n: nat): (s: set<nat>)
    ensures forall k :: k in s <==> 0 <= k < n
    ensures |s| == n
  {
    if n == 0 then {} else Below(n - 1) + {n - 1}
  }

  class Ids {
    var peerMap: map<nat, nat>
    var nextID: nat
    var activeIDs: set<nat>

    /** IDs in use are active, no two peers share one, and nobody has the unknown ID. */
    ghost predicate Valid()
      reads this
    {
      && nextID < LIMIT && (forall id :: id in activeIDs ==> id < LIMIT) && UNKNOWN in activeIDs
      && |activeIDs| <= MAX_ACTIVE
      && (forall p :: p in peerMap ==> peerMap[p] in activeIDs && peerMap[p] != UNKNOWN)
      && (forall p, q :: p in peerMap && q in peerMap && p != q ==> peerMap[p] != peerMap[q])
    }

    constructor ()
      ensures Valid() && peerMap == map[] && activeIDs == {UNKNOWN}
    {
      peerMap, nextID, activeIDs := map[], 1, {UNKNOWN};
    }

    /** nextPeerID: `full` is the panic when all IDs are taken. The search ends, since some ID
        is free. */
    method NextPeerID() returns (full: bool, id: nat)
      requires Valid()
      modifies this`nextID
      ensures Valid() && full == (|activeIDs| == MAX_ACTIVE)
      ensures !full ==> id < LIMIT && id !in activeIDs && id != UNKNOWN && nextID == Inc(id)
      ensures full ==> nextID == old(nextID)
    {
      if |activeIDs| == MAX_ACTIVE {
        return true, 0;
      }
      ghost var steps := 0;
      while nextID in activeIDs
        invariant nextID < LIMIT && steps < LIMIT && nextID == Ahead(old(nextID), steps, LIMIT)
        invariant forall i :: 0 <= i < steps ==> Ahead(old(nextID), i, LIMIT) in activeIDs
        decreases LIMIT - steps
      {
        assert Ahead(old(nextID), steps, LIMIT) in activeIDs;
        AllActive(old(nextID), activeIDs, steps + 1, LIMIT);
        steps := steps + 1;
        nextID := Inc(nextID);
      }
      full, id := false, nextID;
      nextID := Inc(nextID);
    }

    method ReserveForPeer(p: nat) returns (full: bool)
      requires Valid()
      modifies this
      ensures full == (|old(activeIDs)| == MAX_ACTIVE)
      ensures full ==> peerMap == old(peerMap) && activeIDs == old(activeIDs)
      ensures !full ==>
                && p in peerMap && peerMap[p] !in old(activeIDs) && peerMap[p] != UNKNOWN
                && peerMap == old(peerMap)[p := peerMap[p]] && activeIDs == old(activeIDs) + {peerMap[p]}
      ensures Valid()
    {
      var id: nat;
      full, id := NextPeerID();
      if !full {
        peerMap := peerMap[p := id];
        activeIDs := activeIDs + {id};
      }
    }

    method Reclaim(p: nat)
      requires Valid()
      modifies this`peerMap, this`activeIDs
      ensures Valid() && peerMap == old(peerMap) - {p}
      ensures activeIDs == if p in old(peerMap) then old(activeIDs) - {old(peerMap)[p]} else old(activeIDs)
    {
      if p in peerMap {
        activeIDs := activeIDs - {peerMap[p]};
        peerMap := peerMap - {p};
      }
    }
  }

  lemma Wraps(k: nat, limit: nat)
    requires k < limit
    ensures k % limit == k && (k + limit) % limit == k
  {
  }

  /** A whole round of active IDs would be all there are. */
  lemma AllActive(start: nat, active: set<nat>, steps: nat, limit: nat)
    requires start < limit && forall i :: 0 <= i < steps ==> Ahead(start, i, limit) in active
    ensures steps >= limit ==> |active| >= limit
  {
    if steps >= limit {
      forall k | 0 <= k < limit ensures k in active {
        var i := if k >= start then k - start else k + limit - start;
        Wraps(k, limit);
        assert Ahead(start, i, limit) == k;
      }
      SubsetSize(Below(limit), active);
    }
  }
}
