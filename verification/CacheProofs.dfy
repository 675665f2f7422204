/** CheckTx, the responses to it and the cache before it: whether a transaction can be
    stored twice. */
module CacheProofs {
  import opened Common
  import opened TxCache
  import opened Mempool
  import Pools = MempoolProofs

  /** `pending` are the transactions sent to the application and not answered yet. */
  datatype Mem = Mem(pool: Pool, cache: seq<Tx>, pending: multiset<Tx>)

  datatype Event =
    | CheckTx(tx: Tx, pass: bool, connected: bool)
    | FirstTime(tx: Tx, rank: nat, ok: bool)
    | Deliver(tx: Tx, ok: bool)         // a transaction of the committed block
    | EndUpdate(recheck: bool)
    | Recheck(tx: Tx, ok: bool)
    | RemoveTx(tx: Tx)

  predicate Taken(m: Mem, c: Config, tx: Tx, pass: bool) {
    !IsFull(m.pool, c, tx.size) && tx.size <= c.maxTxBytes && pass
  }

  predicate NewRank(p: Pool, rank: nat) {
    forall k :: 0 <= k < |p.txs| ==> p.txs[k].rank != rank
  }

  /** None where the code panics or the event cannot come: Update runs once the connection
      is flushed. */
  function Step(m: Mem, c: Config, e: Event): Option<Mem> {
    match e
    case CheckTx(tx, pass, connected) =>
      if !Taken(m, c, tx, pass) then Some(m)
      else
        var sent := tx !in m.cache && connected;
        Some(m.(cache := Pushed(m.cache, c.cacheSize, tx),
                pending := if sent then m.pending + multiset{tx} else m.pending))
    case FirstTime(tx, rank, ok) =>
      if tx !in m.pending || m.pool.cursor.Some? || !NewRank(m.pool, rank) then None
      else
        var m' := m.(pending := m.pending - multiset{tx});
        if !ok || IsFull(m.pool, c, tx.size) then Some(m'.(cache := Dropped(m.cache, tx)))
        else Some(m'.(pool := Add(m.pool, tx, rank)))
    case Deliver(tx, ok) =>
      if m.pending != multiset{} then None
      else
        var cache := if ok then Pushed(m.cache, c.cacheSize, tx) else Dropped(m.cache, tx);
        Some(m.(pool := Remove(m.pool, tx), cache := cache))
    case EndUpdate(recheck) =>
      Some(if recheck then m.(pool := StartRecheck(m.pool)) else m)
    case Recheck(tx, ok) =>
      (match Rechecked(m.pool, tx, ok)
       case None => None
       case Some(p) =>
         var cache := if m.pool.cursor.Some? && !ok then Dropped(m.cache, tx) else m.cache;
         Some(m.(pool := p, cache := cache)))
    case RemoveTx(tx) =>
      Some(if tx in m.pool.index then m.(pool := Remove(m.pool, tx), cache := Dropped(m.cache, tx)) else m)
  }

  // ----- what keeps a transaction from being stored twice

  predicate Stored(p: Pool, tx: Tx) {
    exists k :: 0 <= k < |p.txs| && p.txs[k].tx == tx
  }

  predicate Live(m: Mem, tx: Tx) {
    tx in m.pending || Stored(m.pool, tx)
  }

  ghost predicate Sound(m: Mem, c: Config) {
    Pools.Inv(m.pool, c) && Ok(m.cache, c.cacheSize)
  }

  ghost predicate AllCached(m: Mem) {
    forall tx :: Live(m, tx) ==> tx in m.cache
  }

  /** Stored or pending, once, and in the cache. */
  ghost predicate Kept(m: Mem) {
    && Pools.Indexed(m.pool) && AllCached(m)
    && forall tx :: tx in m.pending ==> m.pending[tx] == 1 && !Stored(m.pool, tx)
  }

  predicate Pushes(m: Mem, c: Config, e: Event) {
    || (e.CheckTx? && Taken(m, c, e.tx, e.pass) && e.tx !in m.cache)
    || (e.Deliver? && e.ok && e.tx !in m.cache)
  }

  /** A new entry pushes out a transaction that is stored or pending; without a cache, a
      transaction is not remembered at all. */
  predicate Evicts(m: Mem, c: Config, e: Event) {
    && Pushes(m, c, e)
    && if c.cacheSize == 0 then e.CheckTx? && e.connected
       else |m.cache| >= c.cacheSize && Live(m, m.cache[0])
  }

  // ----- the pool

  /** Taking a transaction out leaves none of it, if it was there once. */
  lemma {:induction false} RemoveTakes(p: Pool, c: Config, tx: Tx)
    requires Pools.Inv(p, c) && Pools.Indexed(p)
    ensures var after := Remove(p, tx); Pools.Inv(after, c) && Pools.Indexed(after)
    ensures forall y :: Stored(Remove(p, tx), y) <==> Stored(p, y) && y != tx
  {
    Pools.RemoveKept(p, c, tx);
    Pools.RemoveIndexed(p, c, tx);
    if tx in p.index {
      var i :| 0 <= i < |p.txs| && p.txs[i] == Entry(tx, p.index[tx]);
      Pools.WithoutAt(p.txs, i);
      var after := Remove(p, tx);
      hide Without;
      forall y ensures Stored(after, y) <==> Stored(p, y) && y != tx {
        StoredElsewhere(p, i, after, y);
      }
    } else {
      NotStored(p, tx);
    }
  }

  /** After a block exactly the committed transactions are gone, and the others are where they
      were. */
  lemma {:induction false} UpdateTakes(p: Pool, c: Config, txs: seq<Tx>)
    requires Pools.Inv(p, c) && Pools.Indexed(p)
    ensures var after := RemoveAll(p, txs);
            && Pools.Inv(after, c) && Pools.Indexed(after)
            && (forall y :: Stored(after, y) <==> Stored(p, y) && y !in txs)
            && (forall e :: e in after.txs ==> e in p.txs)
  {
    hide Pools.Inv, Pools.Indexed, Stored, Remove;
    if |txs| > 0 {
      var n := |txs| - 1;
      UpdateTakes(p, c, txs[..n]);
      RemoveTakes(RemoveAll(p, txs[..n]), c, txs[n]);
      RemoveKeepsPlaces(RemoveAll(p, txs[..n]), txs[n]);
      assert txs == txs[..n] + [txs[n]];
    }
  }

  lemma {:induction false} RemoveKeepsPlaces(p: Pool, tx: Tx)
    ensures forall e :: e in Remove(p, tx).txs ==> e in p.txs
  {
    if tx in p.index {
      WithoutWithin(p.txs, p.index[tx]);
    }
  }

  lemma {:induction false} WithoutWithin(txs: seq<Entry>, rank: nat)
    ensures forall e :: e in Without(txs, rank) <==> e in txs && e.rank != rank
  {
    if |txs| > 0 {
      var n := |txs| - 1;
      WithoutWithin(txs[..n], rank);
      assert txs == txs[..n] + [txs[n]];
    }
  }

  /** After a block a transaction is cached only if it was before or was committed as good; one that
      was committed as bad only is not; and the last one committed, if good, is. */
  lemma {:induction false} UpdateCaches(list: seq<Tx>, size: nat, committed: seq<Tx>, codes: seq<bool>, y: Tx)
    requires Ok(list, size) && size > 0 && |codes| == |committed|
    ensures var after := CacheAll(list, size, committed, codes);
            && Ok(after, size)
            && (y in after ==> y in list || exists i :: 0 <= i < |codes| && committed[i] == y && codes[i])
            && (y in committed && y in after ==> exists i :: 0 <= i < |codes| && committed[i] == y && codes[i])
            && (|codes| > 0 && codes[|codes| - 1] ==> committed[|codes| - 1] in after)
  {
    hide Ok, Pushed, Dropped;
    if |committed| > 0 {
      var n := |committed| - 1;
      UpdateCaches(list, size, committed[..n], codes[..n], y);
      var before := CacheAll(list, size, committed[..n], codes[..n]);
      OkDistinct(before, size);
      assert committed == committed[..n] + [committed[n]];
      if codes[n] {
        PushedIs(before, size, committed[n]);
        assert y == committed[n] ==> committed[n] == y && codes[n];
      } else {
        DroppedIs(before, committed[n]);
        DroppedOk(before, size, committed[n]);
      }
      if exists i :: 0 <= i < n && committed[..n][i] == y && codes[..n][i] {
        var i :| 0 <= i < n && committed[..n][i] == y && codes[..n][i];
        assert committed[i] == y && codes[i];
      }
    }
  }

  lemma OkDistinct(list: seq<Tx>, size: nat)
    requires Ok(list, size)
    ensures Distinct(list) && |list| <= size
  {
  }

  lemma DroppedOk(list: seq<Tx>, size: nat, x: Tx)
    requires Ok(list, size)
    ensures Ok(Dropped(list, x), size)
  {
    DroppedIs(list, x);
  }

  lemma StoredElsewhere(p: Pool, i: nat, after: Pool, y: Tx)
    requires i < |p.txs| && Pools.Indexed(p) && Pools.Sorted(p.txs) && after.txs == Pools.Cut(p.txs, i)
    ensures Stored(after, y) <==> Stored(p, y) && y != p.txs[i].tx
  {
    forall k | 0 <= k < |p.txs| && k != i ensures p.txs[k].tx != p.txs[i].tx {
      var lo, hi := if k < i then k else i, if k < i then i else k;
      assert p.txs[lo].rank < p.txs[hi].rank;
    }
    hide Pools.Sorted, Pools.Indexed;
    if Stored(after, y) {
      var k :| 0 <= k < |after.txs| && after.txs[k].tx == y;
      assert after.txs[k] == if k < i then p.txs[k] else p.txs[k + 1];
    }
    if Stored(p, y) && y != p.txs[i].tx {
      var k :| 0 <= k < |p.txs| && p.txs[k].tx == y;
      assert after.txs[if k < i then k else k - 1] == p.txs[k];
    }
  }

  lemma NotStored(p: Pool, tx: Tx)
    requires Pools.Indexed(p) && tx !in p.index
    ensures !Stored(p, tx) && Remove(p, tx) == p
  {
  }

  lemma IndexStored(p: Pool, c: Config, tx: Tx)
    requires Pools.Inv(p, c) && tx in p.index
    ensures Stored(p, tx)
  {
    assert Entry(tx, p.index[tx]) in p.txs;
  }

  lemma StoredBetween(a: seq<Entry>, e: Entry, b: seq<Entry>, p: Pool, after: Pool, y: Tx)
    requires p.txs == a + b && after.txs == a + [e] + b
    ensures Stored(after, y) <==> Stored(p, y) || y == e.tx
  {
    if Stored(after, y) {
      var k :| 0 <= k < |after.txs| && after.txs[k].tx == y;
      assert k < |a| ==> p.txs[k].tx == y;
      assert k > |a| ==> p.txs[k - 1].tx == y;
    }
    if Stored(p, y) {
      var k :| 0 <= k < |p.txs| && p.txs[k].tx == y;
      assert after.txs[if k < |a| then k else k + 1].tx == y;
    }
    assert after.txs[|a|] == e;
  }

  lemma TwiceBetween(a: seq<Entry>, e: Entry, b: seq<Entry>, p: Pool, after: Pool)
    requires p.txs == a + b && after.txs == a + [e] + b && Stored(p, e.tx) && NewRank(p, e.rank)
    ensures !Pools.Indexed(after)
  {
    var k :| 0 <= k < |p.txs| && p.txs[k].tx == e.tx;
    var k' := if k < |a| then k else k + 1;
    assert after.txs[k'] == p.txs[k] && after.txs[|a|] == e;
  }

  lemma {:induction false} AddStores(p: Pool, c: Config, tx: Tx, rank: nat)
    requires Pools.Inv(p, c) && !IsFull(p, c, tx.size) && NewRank(p, rank)
    ensures Pools.Inv(Add(p, tx, rank), c)
    ensures forall y :: Stored(Add(p, tx, rank), y) <==> Stored(p, y) || y == tx
    ensures Pools.Indexed(p) && !Stored(p, tx) ==> Pools.Indexed(Add(p, tx, rank))
    ensures Stored(p, tx) ==> !Pools.Indexed(Add(p, tx, rank))
  {
    Pools.AddKept(p, c, tx, rank);
    Pools.InvSorted(p, c);
    hide Place, Pools.Sorted, Pools.Inv, Pools.Indexed, IsFull, Stored;
    var e := Entry(tx, rank);
    var i := Pools.PlaceAt(p.txs, e);
    assert p.txs == p.txs[..i] + p.txs[i..];
    forall y ensures Stored(Add(p, tx, rank), y) <==> Stored(p, y) || y == tx {
      StoredBetween(p.txs[..i], e, p.txs[i..], p, Add(p, tx, rank), y);
    }
    if Stored(p, tx) {
      TwiceBetween(p.txs[..i], e, p.txs[i..], p, Add(p, tx, rank));
    } else if Pools.Indexed(p) {
      AddsFirst(p, tx, rank);
    }
  }

  lemma AddsFirst(p: Pool, tx: Tx, rank: nat)
    requires Pools.Sorted(p.txs) && NewRank(p, rank) && Pools.Indexed(p) && !Stored(p, tx)
    ensures Pools.Indexed(Add(p, tx, rank))
  {
    Pools.AddIndexed(p, tx, rank);
  }

  // ----- each event

  lemma {:induction false} CheckKeeps(m: Mem, c: Config, tx: Tx, pass: bool, connected: bool)
    requires Sound(m, c) && Kept(m)
    ensures var e := CheckTx(tx, pass, connected);
            var m' := Step(m, c, e).value;
            Sound(m', c) && (Kept(m') <==> !Evicts(m, c, e))
  {
    hide Pools.Inv, Pools.Indexed, Pushed, IsFull;
    var e := CheckTx(tx, pass, connected);
    var m' := Step(m, c, e).value;
    if Taken(m, c, tx, pass) {
      hide Stored;
      if c.cacheSize == 0 {
        NoCache(m.cache, tx);
        assert tx in m'.pending ==> Live(m', tx);
      } else {
        PushedIs(m.cache, c.cacheSize, tx);
        assert tx !in m.cache ==> !Live(m, tx);
        forall y ensures Live(m', y) <==> Live(m, y) || (y == tx && tx !in m.cache && connected) {
        }
        if Evicts(m, c, e) {
          assert Live(m', m.cache[0]) && m.cache[0] !in m'.cache;
        }
      }
    }
  }

  lemma NoCache(cache: seq<Tx>, tx: Tx)
    requires Ok(cache, 0)
    ensures cache == [] && Pushed(cache, 0, tx) == []
  {
  }

  lemma {:induction false} FirstTimeKeeps(m: Mem, c: Config, tx: Tx, rank: nat, ok: bool)
    requires Sound(m, c) && Kept(m) && Step(m, c, FirstTime(tx, rank, ok)).Some?
    ensures var m' := Step(m, c, FirstTime(tx, rank, ok)).value; Sound(m', c) && Kept(m')
  {
    hide Pools.Inv, Pools.Indexed, IsFull, Dropped, Add, Stored;
    var m' := Step(m, c, FirstTime(tx, rank, ok)).value;
    DroppedIs(m.cache, tx);
    assert forall y :: y in m'.pending <==> y in m.pending && y != tx;
    assert Live(m, tx);
    if ok && !IsFull(m.pool, c, tx.size) {
      AddStores(m.pool, c, tx, rank);
    }
    forall y | Live(m', y) ensures y in m'.cache {
      assert Live(m, y);
    }
  }

  /** Taking a transaction out of the pool and dropping it from the cache. */
  lemma {:induction false} DropKeeps(m: Mem, c: Config, tx: Tx)
    requires Sound(m, c) && Kept(m) && tx !in m.pending
    ensures var m' := m.(pool := Remove(m.pool, tx), cache := Dropped(m.cache, tx)); Sound(m', c) && Kept(m')
  {
    hide Pools.Inv, Pools.Indexed, Dropped, Remove, Stored;
    var m' := m.(pool := Remove(m.pool, tx), cache := Dropped(m.cache, tx));
    DroppedIs(m.cache, tx);
    RemoveTakes(m.pool, c, tx);
    forall y | Live(m', y) ensures y in m'.cache {
      assert Live(m, y);
    }
  }

  lemma {:induction false} DeliverKeeps(m: Mem, c: Config, tx: Tx, ok: bool)
    requires Sound(m, c) && Kept(m) && m.pending == multiset{}
    ensures var m' := Step(m, c, Deliver(tx, ok)).value;
            Sound(m', c) && (Kept(m') <==> !Evicts(m, c, Deliver(tx, ok)))
  {
    hide Pools.Inv, Pools.Indexed, Pushed, Dropped, Remove, Stored;
    if ok {
      var m' := Step(m, c, Deliver(tx, ok)).value;
      RemoveTakes(m.pool, c, tx);
      assert Stored(m.pool, tx) ==> Live(m, tx);
      if c.cacheSize == 0 {
        NoCache(m.cache, tx);
      } else {
        PushedIs(m.cache, c.cacheSize, tx);
      }
      forall y ensures Live(m', y) <==> Live(m, y) && y != tx {
      }
      if Evicts(m, c, Deliver(tx, ok)) && c.cacheSize > 0 {
        assert Live(m', m.cache[0]) && m.cache[0] !in m'.cache;
      }
    } else {
      DropKeeps(m, c, tx);
    }
  }

  lemma {:induction false} SamePool(m: Mem, c: Config, p: Pool)
    requires Sound(m, c) && Kept(m) && p.txs == m.pool.txs && p.index == m.pool.index && p.txsBytes == m.pool.txsBytes
    ensures Sound(m.(pool := p), c) && Kept(m.(pool := p))
  {
    assert forall y :: Stored(p, y) <==> Stored(m.pool, y);
    var m' := m.(pool := p);
    forall y | Live(m', y) ensures y in m'.cache {
      assert Live(m, y);
    }
  }

  lemma {:induction false} RecheckKeeps(m: Mem, c: Config, tx: Tx, ok: bool)
    requires Sound(m, c) && Kept(m) && Step(m, c, Recheck(tx, ok)).Some?
    ensures var m' := Step(m, c, Recheck(tx, ok)).value; Sound(m', c) && Kept(m')
  {
    hide Sound, Kept, Dropped, FirstAfter;
    var m' := Step(m, c, Recheck(tx, ok)).value;
    if m.pool.cursor.Some? && !ok {
      NotPending(m, c, tx);
      DropKeeps(m, c, tx);
      var between := m.(pool := Remove(m.pool, tx), cache := Dropped(m.cache, tx));
      SamePool(between, c, m'.pool);
    } else {
      SamePool(m, c, m'.pool);
    }
  }

  lemma NotPending(m: Mem, c: Config, tx: Tx)
    requires Sound(m, c) && Kept(m) && tx in m.pool.index
    ensures tx !in m.pending
  {
    IndexStored(m.pool, c, tx);
  }

  /** From a state in which what is stored or pending is there once and cached: the event
      keeps that unless it evicts one of them. */
  lemma {:induction false} KeptIff(m: Mem, c: Config, e: Event)
    requires Sound(m, c) && Kept(m) && Step(m, c, e).Some?
    ensures Sound(Step(m, c, e).value, c)
    ensures Kept(Step(m, c, e).value) <==> !Evicts(m, c, e)
  {
    hide Sound, Kept, Live, Dropped, Pushed, Remove, Add, Rechecked;
    match e {
      case CheckTx(tx, pass, connected) => CheckKeeps(m, c, tx, pass, connected);
      case FirstTime(tx, rank, ok) => FirstTimeKeeps(m, c, tx, rank, ok);
      case Deliver(tx, ok) => DeliverKeeps(m, c, tx, ok);
      case EndUpdate(recheck) => SamePool(m, c, if recheck then StartRecheck(m.pool) else m.pool);
      case Recheck(tx, ok) => RecheckKeeps(m, c, tx, ok);
      case RemoveTx(tx) =>
        if tx in m.pool.index {
          NotPending(m, c, tx);
          DropKeeps(m, c, tx);
        }
    }
  }

  // ----- whole runs

  const START := Mem(EMPTY, [], multiset{})

  predicate StepAt(ms: seq<Mem>, es: seq<Event>, c: Config, i: nat)
    requires i < |es| < |ms|
  {
    Step(ms[i], c, es[i]) == Some(ms[i + 1])
  }

  predicate IsRun(ms: seq<Mem>, es: seq<Event>, c: Config) {
    && |ms| == |es| + 1 && ms[0] == START
    && forall i :: 0 <= i < |es| ==> StepAt(ms, es, c, i)
  }

  /** As long as no event evicts a stored or pending transaction, all of those stay cached,
      none is there twice, and every recheck is exact. */
  lemma {:induction false} CachedUntilEvicted(ms: seq<Mem>, es: seq<Event>, c: Config, i: nat)
    requires IsRun(ms, es, c) && i < |ms|
    requires forall j :: 0 <= j < i ==> !Evicts(ms[j], c, es[j])
    ensures Sound(ms[i], c) && Kept(ms[i])
    ensures forall answers :: |answers| == |ms[i].pool.txs| > 0 ==> Pools.Exact(ms[i].pool, answers)
  {
    hide Sound, Kept, Step, Evicts, Pools.Exact;
    if i == 0 {
      StartKept(c);
    } else {
      CachedUntilEvicted(ms, es, c, i - 1);
      assert StepAt(ms, es, c, i - 1);
      KeptIff(ms[i - 1], c, es[i - 1]);
    }
    KeptExact(ms[i], c);
  }

  lemma StartKept(c: Config)
    ensures Sound(START, c) && Kept(START)
  {
  }

  lemma KeptExact(m: Mem, c: Config)
    requires Sound(m, c) && Kept(m)
    ensures forall answers :: |answers| == |m.pool.txs| > 0 ==> Pools.Exact(m.pool, answers)
  {
    if |m.pool.txs| > 0 {
      Pools.ExactIffIndexed(m.pool);
    }
  }

  /** A stored transaction is sent to the application again exactly when the pool has room,
      the checks pass and it is not cached; if the application accepts it, it is stored a
      second time, and no recheck is safe any more. */
  lemma {:induction false} AddedAgainIff(m: Mem, c: Config, tx: Tx, pass: bool, rank: nat)
    requires Sound(m, c) && Stored(m.pool, tx) && m.pool.cursor.None? && NewRank(m.pool, rank)
    ensures var m' := Step(m, c, CheckTx(tx, pass, true)).value;
            && m'.pool == m.pool
            && (m'.pending == m.pending + multiset{tx} <==> Taken(m, c, tx, pass) && tx !in m.cache)
            && (Taken(m, c, tx, pass) && tx !in m.cache ==>
                  && Step(m', c, FirstTime(tx, rank, true)).Some?
                  && Step(m', c, FirstTime(tx, rank, true)).value.pool == Add(m.pool, tx, rank)
                  && !Pools.Indexed(Add(m.pool, tx, rank)))
  {
    hide Pools.Inv, Pools.Indexed, Pushed, IsFull, Add;
    assert m.pending[tx] != (m.pending + multiset{tx})[tx];
    if Taken(m, c, tx, pass) {
      AddStores(m.pool, c, tx, rank);
    }
  }

  /** With a cache of one entry, the second transaction makes the first forgotten. */
  lemma {:induction false} StoredTwice(a: Tx, b: Tx, c: Config) returns (ms: seq<Mem>, es: seq<Event>)
    requires a != b && c.cacheSize == 1 && c.size >= 3 && a.size <= c.maxTxBytes && b.size <= c.maxTxBytes
    requires c.maxTxsBytes >= 2 * a.size + b.size
    ensures IsRun(ms, es, c) && !Pools.Indexed(ms[|es|].pool)
    ensures es == [CheckTx(a, true, true), FirstTime(a, 1, true), CheckTx(b, true, true), FirstTime(b, 2, true),
                   CheckTx(a, true, true), FirstTime(a, 3, true)]
  {
    var one, two, three := First(a, b);
    hide Add;
    es := [CheckTx(a, true, true), FirstTime(a, 1, true), CheckTx(b, true, true), FirstTime(b, 2, true),
           CheckTx(a, true, true), FirstTime(a, 3, true)];
    ms := [START, Mem(EMPTY, [a], multiset{a}), Mem(one, [a], multiset{}), Mem(one, [b], multiset{b}),
           Mem(two, [b], multiset{}), Mem(two, [a], multiset{a}), Mem(three, [a], multiset{})];
    Exchanged(a, b);
    Exchanged(b, a);
    hide Pushed;
    assert StepAt(ms, es, c, 0) && StepAt(ms, es, c, 1) && StepAt(ms, es, c, 2);
    assert StepAt(ms, es, c, 3) && StepAt(ms, es, c, 4) && StepAt(ms, es, c, 5);
  }

  lemma First(a: Tx, b: Tx) returns (one: Pool, two: Pool, three: Pool)
    requires a != b
    ensures one == Add(EMPTY, a, 1) && two == Add(one, b, 2) && three == Add(two, a, 3)
    ensures one.txs == [Entry(a, 1)] && one.txsBytes == a.size && one.cursor.None?
    ensures two.txs == [Entry(a, 1), Entry(b, 2)] && two.txsBytes == a.size + b.size && two.cursor.None?
    ensures !Pools.Indexed(three)
  {
    one := Add(EMPTY, a, 1);
    two := Add(one, b, 2);
    three := Add(two, a, 3);
    assert three.txs[0] == Entry(a, 1) && three.index[a] == 3;
  }

  lemma Exchanged(a: Tx, b: Tx)
    requires a != b
    ensures Pushed([], 1, a) == [a] && Pushed([a], 1, b) == [b]
    ensures multiset{} + multiset{a} == multiset{a} && multiset{a} - multiset{a} == multiset{}
  {
  }
}
