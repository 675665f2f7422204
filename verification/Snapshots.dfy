/** statesync/snapshots.go and the loop of statesync/syncer.go: which peers offer which
    snapshots, under several indexes and three blacklists. */
module Snapshots {
  import opened Common

  const RECENT := 10             // recentSnapshots

  /** A snapshot's key takes in everything but the trusted hash. */
  datatype Key = Key(height: nat, format: nat, rest: nat)

  /** Peer 0 stands for the empty peer ID. */
  type Peer = nat

  const NO_PEER: Peer := 0

  /** What a sync of a snapshot ends in. */
  datatype Result = Synced | Abort | Retry | Timeout | RefuseSnapshot | RefuseFormat | RefuseSender | Failed

  datatype Verdict = Restored(key: Key) | Stopped | NoSnapshots | Waiting

  // A map of sets is kept as the set of its pairs.

  function PeersOf(pairs: set<(Key, Peer)>, k: Key): (r: set<Peer>)
    ensures forall q :: q in r <==> (k, q) in pairs
  {
    set p | p in pairs && p.0 == k :: p.1
  }

  function KeysOf(pairs: set<(nat, Key)>, n: nat): (r: set<Key>)
    ensures forall k :: k in r <==> (n, k) in pairs
  {
    set p | p in pairs && p.0 == n :: p.1
  }

  // ----- the parts of the invariant

  /** Every stored snapshot has a peer, and only those do. */
  ghost predicate Stored(snapshots: set<Key>, peersOf: set<(Key, Peer)>) {
    && (forall k, q :: (k, q) in peersOf ==> k in snapshots)
    && (forall k :: k in snapshots ==> PeersOf(peersOf, k) != {})
  }

  ghost predicate Dual(peersOf: set<(Key, Peer)>, byPeer: set<(nat, Key)>) {
    forall k, q :: (k, q) in peersOf <==> (q, k) in byPeer
  }

  ghost predicate Small(byPeer: set<(nat, Key)>) {
    forall q :: |KeysOf(byPeer, q)| <= RECENT
  }

  ghost predicate FormatsOk(snapshots: set<Key>, byFormat: set<(nat, Key)>) {
    forall k, f :: (f, k) in byFormat <==> k in snapshots && k.format == f
  }

  ghost predicate HeightsOk(snapshots: set<Key>, byHeight: set<(nat, Key)>) {
    forall k, h :: (h, k) in byHeight <==> k in snapshots && k.height == h
  }

  ghost predicate NothingBad(snapshots: set<Key>, peersOf: set<(Key, Peer)>, badKeys: set<Key>, badFormats: set<nat>,
                             badPeers: set<Peer>)
  {
    && (forall k :: k in snapshots ==> k !in badKeys && k.format !in badFormats)
    && (forall k, q :: (k, q) in peersOf ==> q !in badPeers)
  }

  class Pool {
    var snapshots: set<Key>
    var peersOf: set<(Key, Peer)>
    var byFormat: set<(nat, Key)>
    var byHeight: set<(nat, Key)>
    var byPeer: set<(nat, Key)>
    var badFormats: set<nat>
    var badPeers: set<Peer>
    var badKeys: set<Key>

    ghost predicate IndexesAgree()
      reads this
    {
      && Stored(snapshots, peersOf) && Dual(peersOf, byPeer) && Small(byPeer)
      && FormatsOk(snapshots, byFormat) && HeightsOk(snapshots, byHeight)
    }

    /** In every state the indexes agree, no peer offers more than ten, and nothing that was
        rejected is there. */
    ghost predicate Valid()
      reads this
    {
      IndexesAgree() && NothingBad(snapshots, peersOf, badKeys, badFormats, badPeers)
    }

    constructor ()
      ensures Valid() && snapshots == {} && badKeys == {} && badFormats == {} && badPeers == {}
    {
      snapshots, peersOf, byFormat, byHeight, byPeer := {}, {}, {}, {}, {};
      badFormats, badPeers, badKeys := {}, {}, {};
    }

    /** Add; `verified` says whether the light client knows the height. */
    method Add(q: Peer, k: Key, verified: bool) returns (added: bool)
      requires Valid()
      modifies this
      ensures Valid()
      ensures badKeys == old(badKeys) && badFormats == old(badFormats) && badPeers == old(badPeers)
      ensures var accepted := verified && k.format !in badFormats && q !in badPeers && k !in badKeys &&
                              |KeysOf(old(byPeer), q)| < RECENT;
              && added == (accepted && k !in old(snapshots))
              && peersOf == if accepted then old(peersOf) + {(k, q)} else old(peersOf)
    {
      if !verified || k.format in badFormats || q in badPeers || k in badKeys || |KeysOf(byPeer, q)| >= RECENT {
        return false;
      }
      JoinsStored(snapshots, peersOf, q, k);
      JoinsDual(peersOf, byPeer, q, k);
      JoinsSmall(byPeer, q, k);
      JoinsIndexes(snapshots, byFormat, byHeight, k);
      GoodJoins(snapshots, peersOf, badKeys, badFormats, badPeers, q, k);
      hide Stored, Dual, Small, FormatsOk, HeightsOk, NothingBad, KeysOf;
      peersOf := peersOf + {(k, q)};
      byPeer := byPeer + {(q, k)};
      if k in snapshots {
        assert snapshots + {k} == snapshots;
        return false;
      }
      snapshots := snapshots + {k};
      byFormat := byFormat + {(k.format, k)};
      byHeight := byHeight + {(k.height, k)};
      added := true;
    }

    /** removeSnapshot. */
    method RemoveSnapshot(k: Key)
      modifies this`snapshots, this`peersOf, this`byFormat, this`byHeight, this`byPeer
      ensures k !in old(snapshots) ==>
                snapshots == old(snapshots) && peersOf == old(peersOf) && byPeer == old(byPeer) &&
                byFormat == old(byFormat) && byHeight == old(byHeight)
      ensures k in old(snapshots) ==>
                && snapshots == old(snapshots) - {k} && peersOf == WithoutKey(old(peersOf), k)
                && byFormat == old(byFormat) - {(k.format, k)} && byHeight == old(byHeight) - {(k.height, k)}
                && byPeer == old(byPeer) - Mirror(PeersOf(old(peersOf), k), k)
    {
      if k !in snapshots {
        return;
      }
      snapshots := snapshots - {k};
      byFormat := byFormat - {(k.format, k)};
      byHeight := byHeight - {(k.height, k)};
      var left := PeersOf(peersOf, k);
      while left != {}
        invariant snapshots == old(snapshots) - {k} && peersOf == old(peersOf) && left <= PeersOf(peersOf, k)
        invariant byFormat == old(byFormat) - {(k.format, k)} && byHeight == old(byHeight) - {(k.height, k)}
        invariant byPeer == old(byPeer) - Mirror(PeersOf(peersOf, k) - left, k)
        decreases left
      {
        var q :| q in left;
        byPeer := byPeer - {(q, k)};
        left := left - {q};
      }
      peersOf := WithoutKey(peersOf, k);
    }

    /** As a step between valid states. */
    method Drop(k: Key)
      requires IndexesAgree()
      modifies this`snapshots, this`peersOf, this`byFormat, this`byHeight, this`byPeer
      ensures IndexesAgree() && snapshots == old(snapshots) - {k} && peersOf == WithoutKey(old(peersOf), k)
    {
      NotOffered(snapshots, peersOf, k);
      LeavesIndexes(snapshots, byFormat, byHeight, k);
      Leaves(snapshots, peersOf, byPeer, k);
      hide Stored, Dual, Small, FormatsOk, HeightsOk;
      RemoveSnapshot(k);
    }

    method Reject(k: Key)
      requires Valid()
      modifies this
      ensures Valid() && badKeys == old(badKeys) + {k} && badFormats == old(badFormats) && badPeers == old(badPeers)
      ensures snapshots == old(snapshots) - {k} && peersOf == WithoutKey(old(peersOf), k)
    {
      hide Stored, Dual, Small, FormatsOk, HeightsOk;
      badKeys := badKeys + {k};
      Drop(k);
    }

    method RejectFormat(f: nat)
      requires Valid()
      modifies this
      ensures Valid() && badKeys == old(badKeys) && badFormats == old(badFormats) + {f} && badPeers == old(badPeers)
      ensures snapshots == set k | k in old(snapshots) && k.format != f
      ensures forall k, q :: (k, q) in peersOf <==> (k, q) in old(peersOf) && k.format != f
    {
      badFormats := badFormats + {f};
      var left := KeysOf(byFormat, f);
      ghost var all := left;
      while left != {}
        invariant IndexesAgree() && left <= all
        invariant badKeys == old(badKeys) && badFormats == old(badFormats) + {f} && badPeers == old(badPeers)
        invariant snapshots == old(snapshots) - (all - left)
        invariant forall k, q :: (k, q) in peersOf <==> (k, q) in old(peersOf) && k !in all - left
        decreases left
      {
        hide Stored, Dual, Small, FormatsOk, HeightsOk;
        var k :| k in left;
        Drop(k);
        left := left - {k};
      }
      assert forall k, q :: (k, q) in old(peersOf) ==> k in old(snapshots);
    }

    /** removePeer: the peer's offers go, and the snapshots nobody else offers. */
    method RemovePeer(q: Peer)
      requires Valid()
      modifies this`snapshots, this`peersOf, this`byFormat, this`byHeight, this`byPeer
      ensures Valid() && peersOf == WithoutPeer(old(peersOf), q) && snapshots <= old(snapshots)
    {
      var left := KeysOf(byPeer, q);
      ghost var all := left;
      NoneYet(peersOf, q);
      while left != {}
        invariant byPeer == old(byPeer) && left <= all && snapshots <= old(snapshots)
        invariant Stored(snapshots, peersOf) && FormatsOk(snapshots, byFormat) && HeightsOk(snapshots, byHeight)
        invariant peersOf == WithoutOffers(old(peersOf), q, all - left)
        decreases left
      {
        hide Stored, Dual, Small, FormatsOk, HeightsOk, NothingBad, WithoutOffers;
        var k :| k in left;
        OneMore(old(peersOf), q, all - left, k);
        Withdraw(q, k);
        left := left - {k};
        assert all - left == all - (left + {k}) + {k};
      }
      Departs(old(peersOf), byPeer, q, all);
      byPeer := set p | p in byPeer && p.0 != q;
    }

    method Withdraw(q: Peer, k: Key)
      requires Stored(snapshots, peersOf) && FormatsOk(snapshots, byFormat) && HeightsOk(snapshots, byHeight)
      modifies this`snapshots, this`peersOf, this`byFormat, this`byHeight, this`byPeer
      ensures Stored(snapshots, peersOf) && FormatsOk(snapshots, byFormat) && HeightsOk(snapshots, byHeight)
      ensures byPeer == old(byPeer) && peersOf == old(peersOf) - {(k, q)} && snapshots <= old(snapshots)
    {
      Withdrawn(snapshots, peersOf, q, k);
      LeavesIndexes(snapshots, byFormat, byHeight, k);
      hide Stored, FormatsOk, HeightsOk;
      peersOf := peersOf - {(k, q)};
      if PeersOf(peersOf, k) == {} {
        NobodyLeft(peersOf, k);
        RemoveSnapshot(k);
        assert k !in old(snapshots) ==> snapshots - {k} == snapshots;
      }
    }

    method RejectPeer(q: Peer)
      requires Valid()
      modifies this
      ensures Valid() && badKeys == old(badKeys) && badFormats == old(badFormats)
      ensures badPeers == (if q == NO_PEER then old(badPeers) else old(badPeers) + {q})
      ensures peersOf == (if q == NO_PEER then old(peersOf) else WithoutPeer(old(peersOf), q)) &&
              snapshots <= old(snapshots)
    {
      if q == NO_PEER {
        return;
      }
      RemovePeer(q);
      badPeers := badPeers + {q};
    }

    /** Ranked, and its first: the greatest height, then format, then number of peers. */
    method Best() returns (best: Option<Key>)
      ensures best.None? <==> snapshots == {}
      ensures best.Some? ==> best.value in snapshots && Foremost(snapshots, peersOf, best.value)
    {
      best := None;
      var left := snapshots;
      while left != {}
        invariant left <= snapshots && (best.None? ==> left == snapshots)
        invariant best.Some? ==> best.value in snapshots && Foremost(snapshots - left, peersOf, best.value)
        decreases left
      {
        var k :| k in left;
        ghost var done := snapshots - left;
        if best.None? || Better(this, k, best.value) {
          best := Some(k);
        }
        left := left - {k};
        assert snapshots - left == done + {k};
      }
      assert snapshots - left == snapshots;
    }

    /** Every sender of a snapshot is rejected; the snapshot goes with them, unless the empty
        ID is among them, which cannot be rejected. */
    method RejectSenders(k: Key)
      requires Valid()
      modifies this
      ensures Valid() && badKeys == old(badKeys) && badFormats == old(badFormats)
      ensures badPeers == old(badPeers) + (PeersOf(old(peersOf), k) - {NO_PEER})
      ensures snapshots <= old(snapshots) && peersOf <= old(peersOf)
      ensures k in snapshots <==> NO_PEER in PeersOf(old(peersOf), k)
    {
      var left := PeersOf(peersOf, k);
      ghost var all := left;
      while left != {}
        invariant Valid() && left <= all
        invariant badKeys == old(badKeys) && badFormats == old(badFormats) &&
                  badPeers == old(badPeers) + (all - left - {NO_PEER})
        invariant snapshots <= old(snapshots)
        invariant forall j, q :: (j, q) in peersOf <==> (j, q) in old(peersOf) && (q == NO_PEER || q !in all - left)
        decreases left
      {
        hide Stored, Dual, Small, FormatsOk, HeightsOk, NothingBad;
        var q :| q in left;
        RejectPeer(q);
        left := left - {q};
      }
      OnlyEmpty(snapshots, peersOf, old(peersOf), k);
    }

    /** What SyncAny does about a snapshot that cannot be used. */
    method Discard(k: Key, r: Result)
      requires Valid() && k in snapshots && r in {Timeout, RefuseSnapshot, RefuseFormat, RefuseSender}
      modifies this
      ensures Valid() && snapshots <= old(snapshots) && peersOf <= old(peersOf)
      ensures k in snapshots <==> r == RefuseSender && NO_PEER in PeersOf(old(peersOf), k)
      ensures badKeys == old(badKeys) + (if r == Timeout || r == RefuseSnapshot then {k} else {})
      ensures badFormats == old(badFormats) + (if r == RefuseFormat then {k.format} else {})
      ensures badPeers == old(badPeers) + (if r == RefuseSender then PeersOf(old(peersOf), k) - {NO_PEER} else {})
    {
      hide Stored, Dual, Small, FormatsOk, HeightsOk, NothingBad;
      match r {
        case Timeout => Reject(k);
        case RefuseSnapshot => Reject(k);
        case RefuseFormat => RejectFormat(k.format);
        case RefuseSender => RejectSenders(k);
      }
      Fewer(old(peersOf), peersOf);
    }

    /** Discard, and whether the snapshot is gone with it. */
    method UseUp(k: Key, r: Result) returns (gone: bool)
      requires Valid() && k in snapshots && r in {Timeout, RefuseSnapshot, RefuseFormat, RefuseSender}
      modifies this
      ensures Valid() && snapshots <= old(snapshots) && peersOf <= old(peersOf)
      ensures |snapshots| + (if gone then 1 else 0) <= |old(snapshots)|
      ensures gone <==> !(r == RefuseSender && (k, NO_PEER) in old(peersOf))
      ensures Blames([r], old(badKeys), badKeys, old(badFormats), badFormats, old(badPeers), badPeers)
    {
      hide Stored, Dual, Small, FormatsOk, HeightsOk, NothingBad, Blames;
      ghost var before, senders := snapshots, PeersOf(peersOf, k) - {NO_PEER};
      ghost var keys, formats, peers := badKeys, badFormats, badPeers;
      Discard(k, r);
      BlamesOne(r, k, senders, keys, formats, peers);
      gone := k !in snapshots;
      Shrinks(before, snapshots, k);
    }

    /** SyncAny while nothing is added; `results` are the outcomes of the syncs it makes, `used`
        how many of them. Of the passes that neither return nor retry, all use up a snapshot but
        those that refuse the senders of one that the empty ID offers. */
    method SyncAny(results: seq<Result>, discovering: bool)
      returns (v: Verdict, passes: nat, wasted: nat, used: nat)
      requires Valid()
      modifies this
      ensures Valid() && snapshots <= old(snapshots) && passes + |snapshots| <= |old(snapshots)|
      ensures (forall k, q :: (k, q) in old(peersOf) ==> q != NO_PEER) || RefuseSender !in results ==> wasted == 0
      ensures used <= |results| && Ended(results[..used], v)
      ensures !(v.Restored? || v == Stopped) ==> used == |results| || snapshots == {}
      ensures v.Restored? ==> v.key in snapshots && Foremost(snapshots, peersOf, v.key)
      ensures v == NoSnapshots ==> snapshots == {} && !discovering
      ensures Blames(results[..used], old(badKeys), badKeys, old(badFormats), badFormats, old(badPeers), badPeers)
    {
      hide Stored, Dual, Small, FormatsOk, HeightsOk, NothingBad, Foremost, GoesOn;
      var current: Option<Key> := None;
      passes, wasted, used := 0, 0, 0;
      assert GoesOn(results[..0]) by {
        NoResults();
      }
      while used < |results|
        invariant used <= |results| && GoesOn(results[..used])
        invariant wasted > 0 ==> RefuseSender in results && exists k :: (k, NO_PEER) in old(peersOf)
        invariant Valid() && snapshots <= old(snapshots) && passes + |snapshots| <= |old(snapshots)|
        invariant peersOf <= old(peersOf)
        invariant Blames(results[..used], old(badKeys), badKeys, old(badFormats), badFormats, old(badPeers), badPeers)
        invariant current.Some? ==> current.value in snapshots && Foremost(snapshots, peersOf, current.value)
      {
        if current.None? {
          current := Best();
        }
        if current.None? {
          return if discovering then Waiting else NoSnapshots, passes, wasted, used;
        }
        var r := results[used];
        OneMoreResult(results, used);
        used := used + 1;
        if r == Synced {
          return Restored(current.value), passes, wasted, used;
        }
        if r == Abort || r == Failed {
          return Stopped, passes, wasted, used;
        }
        if r != Retry {
          var gone := UseUp(current.value, r);
          if gone {
            passes := passes + 1;
          } else {
            wasted := wasted + 1;
          }
          current := None;
        }
      }
      v := Waiting;
    }
  }

  predicate GoesOn(results: seq<Result>) {
    forall i :: 0 <= i < |results| ==> results[i] !in {Synced, Abort, Failed}
  }

  lemma OneMoreResult(results: seq<Result>, n: nat)
    requires n < |results| && GoesOn(results[..n])
    ensures results[..n + 1] == results[..n] + [results[n]] && results[..n + 1][..n] == results[..n]
    ensures results[n] !in {Synced, Abort, Failed} ==> GoesOn(results[..n + 1])
    ensures forall r :: r in results[..n + 1] <==> r in results[..n] || r == results[n]
  {
  }

  /** A sync that succeeds or cannot go on ends it, and nothing else. */
  predicate Ended(results: seq<Result>, v: Verdict) {
    if v.Restored? || v == Stopped then
      && |results| > 0 && GoesOn(results[..|results| - 1])
      && (if v.Restored? then results[|results| - 1] == Synced else results[|results| - 1] in {Abort, Failed})
    else GoesOn(results)
  }

  /** What is blacklisted stays so, and only what the outcomes are about is added. */
  ghost predicate Blames(results: seq<Result>, keys: set<Key>, keys': set<Key>, formats: set<nat>, formats': set<nat>,
                         peers: set<Peer>, peers': set<Peer>)
  {
    && keys <= keys' && formats <= formats' && peers <= peers'
    && (Timeout !in results && RefuseSnapshot !in results ==> keys' == keys)
    && (RefuseFormat !in results ==> formats' == formats)
    && (RefuseSender !in results ==> peers' == peers)
  }

  lemma NoResults()
    ensures GoesOn([])
  {
  }

  lemma BlamesOne(r: Result, k: Key, senders: set<Peer>, keys: set<Key>, formats: set<nat>, peers: set<Peer>)
    ensures Blames([r], keys, keys + (if r == Timeout || r == RefuseSnapshot then {k} else {}),
                   formats, formats + (if r == RefuseFormat then {k.format} else {}),
                   peers, peers + (if r == RefuseSender then senders else {}))
  {
  }

  lemma Shrinks(before: set<Key>, after: set<Key>, k: Key)
    requires after <= before && k in before
    ensures |after| + (if k in after then 0 else 1) <= |before|
  {
    if k in after {
      SubsetSize(after, before);
    } else {
      SubsetSize(after, before - {k});
    }
  }

  /** None is of a greater height, of the same height and a greater format, or of the same height
      and format with more peers. */
  ghost predicate Foremost(snapshots: set<Key>, peersOf: set<(Key, Peer)>, best: Key) {
    forall k :: k in snapshots ==>
      && k.height <= best.height
      && (k.height == best.height ==> k.format <= best.format)
      && (k.height == best.height && k.format == best.format ==>
            |PeersOf(peersOf, k)| <= |PeersOf(peersOf, best)|)
  }

  /** The order of Ranked: height, then format, then number of peers. */
  predicate Better(p: Pool, a: Key, b: Key)
    reads p
  {
    || a.height > b.height
    || (a.height == b.height &&
        (a.format > b.format || (a.format == b.format && |PeersOf(p.peersOf, a)| > |PeersOf(p.peersOf, b)|)))
  }

  lemma OnlyEmpty(snapshots: set<Key>, peersOf: set<(Key, Peer)>, before: set<(Key, Peer)>, k: Key)
    requires Stored(snapshots, peersOf)
    requires forall j, q :: (j, q) in peersOf <==> (j, q) in before && (q == NO_PEER || q !in PeersOf(before, k))
    ensures k in snapshots <==> NO_PEER in PeersOf(before, k)
    ensures peersOf <= before
  {
    Fewer(before, peersOf);
    if NO_PEER in PeersOf(before, k) {
      assert (k, NO_PEER) in peersOf;
    } else {
      assert PeersOf(peersOf, k) == {};
    }
  }

  lemma Fewer(before: set<(Key, Peer)>, after: set<(Key, Peer)>)
    ensures (forall j, q :: (j, q) in after ==> (j, q) in before) ==> after <= before
  {
    if forall j, q :: (j, q) in after ==> (j, q) in before {
      forall p | p in after ensures p in before {
        assert (p.0, p.1) in after;
      }
    }
  }

  function WithoutPeer(pairs: set<(Key, Peer)>, q: Peer): (r: set<(Key, Peer)>)
    ensures forall j, p :: (j, p) in r <==> (j, p) in pairs && p != q
  {
    set p | p in pairs && p.1 != q
  }

  function WithoutOffers(pairs: set<(Key, Peer)>, q: Peer, keys: set<Key>): (r: set<(Key, Peer)>)
    ensures forall j, p :: (j, p) in r <==> (j, p) in pairs && !(p == q && j in keys)
  {
    set p | p in pairs && !(p.1 == q && p.0 in keys)
  }

  function Mirror(peers: set<Peer>, k: Key): (r: set<(nat, Key)>)
    ensures forall j, p :: (p, j) in r <==> j == k && p in peers
  {
    set p | p in peers :: (p, k)
  }

  function WithoutKey(pairs: set<(Key, Peer)>, k: Key): (r: set<(Key, Peer)>)
    ensures forall j, q :: (j, q) in r <==> (j, q) in pairs && j != k
  {
    set p | p in pairs && p.0 != k
  }

  lemma JoinsStored(snapshots: set<Key>, peersOf: set<(Key, Peer)>, q: Peer, k: Key)
    requires Stored(snapshots, peersOf)
    ensures Stored(snapshots + {k}, peersOf + {(k, q)})
  {
    forall j | j in snapshots + {k} ensures PeersOf(peersOf + {(k, q)}, j) != {} {
      if j == k {
        assert q in PeersOf(peersOf + {(k, q)}, k);
      } else {
        var r :| r in PeersOf(peersOf, j);
        assert r in PeersOf(peersOf + {(k, q)}, j);
      }
    }
  }

  lemma JoinsDual(peersOf: set<(Key, Peer)>, byPeer: set<(nat, Key)>, q: Peer, k: Key)
    requires Dual(peersOf, byPeer)
    ensures Dual(peersOf + {(k, q)}, byPeer + {(q, k)})
  {
  }

  lemma JoinsSmall(byPeer: set<(nat, Key)>, q: Peer, k: Key)
    requires Small(byPeer) && |KeysOf(byPeer, q)| < RECENT
    ensures Small(byPeer + {(q, k)})
  {
    forall r ensures |KeysOf(byPeer + {(q, k)}, r)| <= RECENT {
      assert KeysOf(byPeer + {(q, k)}, r) == KeysOf(byPeer, r) + if r == q then {k} else {};
    }
  }

  lemma GoodJoins(snapshots: set<Key>, peersOf: set<(Key, Peer)>, badKeys: set<Key>, badFormats: set<nat>,
                  badPeers: set<Peer>, q: Peer, k: Key)
    requires NothingBad(snapshots, peersOf, badKeys, badFormats, badPeers)
    requires k !in badKeys && k.format !in badFormats && q !in badPeers
    ensures NothingBad(snapshots + {k}, peersOf + {(k, q)}, badKeys, badFormats, badPeers)
  {
  }

  lemma JoinsIndexes(snapshots: set<Key>, byFormat: set<(nat, Key)>, byHeight: set<(nat, Key)>, k: Key)
    requires FormatsOk(snapshots, byFormat) && HeightsOk(snapshots, byHeight)
    ensures FormatsOk(snapshots + {k}, byFormat + {(k.format, k)}) &&
            HeightsOk(snapshots + {k}, byHeight + {(k.height, k)})
  {
  }

  lemma LeavesIndexes(snapshots: set<Key>, byFormat: set<(nat, Key)>, byHeight: set<(nat, Key)>, k: Key)
    requires FormatsOk(snapshots, byFormat) && HeightsOk(snapshots, byHeight)
    ensures FormatsOk(snapshots - {k}, byFormat - {(k.format, k)}) &&
            HeightsOk(snapshots - {k}, byHeight - {(k.height, k)})
  {
  }

  lemma NotOffered(snapshots: set<Key>, peersOf: set<(Key, Peer)>, k: Key)
    requires Stored(snapshots, peersOf)
    ensures k !in snapshots ==> WithoutKey(peersOf, k) == peersOf && snapshots - {k} == snapshots
  {
    if k !in snapshots {
      forall p | p in peersOf ensures p.0 != k {
        assert (p.0, p.1) in peersOf;
      }
    }
  }

  lemma Leaves(snapshots: set<Key>, peersOf: set<(Key, Peer)>, byPeer: set<(nat, Key)>, k: Key)
    requires Stored(snapshots, peersOf) && Dual(peersOf, byPeer) && Small(byPeer)
    ensures var after := byPeer - Mirror(PeersOf(peersOf, k), k);
            Stored(snapshots - {k}, WithoutKey(peersOf, k)) && Dual(WithoutKey(peersOf, k), after) && Small(after)
  {
    var after := byPeer - Mirror(PeersOf(peersOf, k), k);
    forall j | j in snapshots - {k} ensures PeersOf(WithoutKey(peersOf, k), j) != {} {
      var r :| r in PeersOf(peersOf, j);
      assert r in PeersOf(WithoutKey(peersOf, k), j);
    }
    forall q ensures |KeysOf(after, q)| <= RECENT {
      SubsetSize(KeysOf(after, q), KeysOf(byPeer, q));
    }
  }

  /** One offer less: the snapshot goes with its last peer. */
  lemma Withdrawn(snapshots: set<Key>, peersOf: set<(Key, Peer)>, q: Peer, k: Key)
    requires Stored(snapshots, peersOf)
    ensures var less := peersOf - {(k, q)};
            Stored(if PeersOf(less, k) == {} then snapshots - {k} else snapshots, less)
  {
    var less := peersOf - {(k, q)};
    forall j | j in snapshots && j != k ensures PeersOf(less, j) != {} {
      var r :| r in PeersOf(peersOf, j);
      assert r in PeersOf(less, j);
    }
    forall j, r | (j, r) in less && PeersOf(less, k) == {} ensures j != k {
      assert j == k ==> r in PeersOf(less, k);
    }
  }

  lemma NoneYet(peersOf: set<(Key, Peer)>, q: Peer)
    ensures WithoutOffers(peersOf, q, {}) == peersOf
  {
  }

  lemma OneMore(peersOf: set<(Key, Peer)>, q: Peer, keys: set<Key>, k: Key)
    ensures WithoutOffers(peersOf, q, keys + {k}) == WithoutOffers(peersOf, q, keys) - {(k, q)}
  {
  }

  lemma NobodyLeft(peersOf: set<(Key, Peer)>, k: Key)
    requires PeersOf(peersOf, k) == {}
    ensures WithoutKey(peersOf, k) == peersOf && Mirror(PeersOf(peersOf, k), k) == {}
  {
    forall p | p in peersOf ensures p.0 != k {
      assert p.0 == k ==> p.1 in PeersOf(peersOf, k);
    }
  }

  lemma Departs(peersOf: set<(Key, Peer)>, byPeer: set<(nat, Key)>, q: Peer, all: set<Key>)
    requires Dual(peersOf, byPeer) && Small(byPeer) && all == KeysOf(byPeer, q)
    ensures WithoutOffers(peersOf, q, all) == WithoutPeer(peersOf, q)
    ensures var after := set p | p in byPeer && p.0 != q; Dual(WithoutPeer(peersOf, q), after) && Small(after)
  {
    var after := set p | p in byPeer && p.0 != q;
    forall p | p in peersOf ensures p.1 == q ==> p.0 in all {
      assert (p.0, p.1) in peersOf;
    }
    forall r ensures |KeysOf(after, r)| <= RECENT {
      SubsetSize(KeysOf(after, r), KeysOf(byPeer, r));
    }
  }
}
