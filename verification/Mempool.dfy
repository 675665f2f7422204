/** mempool/mempool.go over either list: adding, removing, and the recheck cursor. */
module Mempool {
  import opened Common
  import opened TxCache

  datatype Tx = Tx(content: nat, size: nat)

  /** A stored transaction. Its rank is its place: order of arrival in the list mempool,
      order of keys in the tree mempool. */
  datatype Entry = Entry(tx: Tx, rank: nat)

  datatype Config = Config(size: nat, maxTxsBytes: nat, maxTxBytes: nat, cacheSize: nat)

  /** `index` is txsMap; `cursor` and `end` are those of the recheck. */
  datatype Pool = Pool(txs: seq<Entry>, index: map<Tx, nat>, txsBytes: int, cursor: Option<Entry>, end: nat)

  const EMPTY := Pool([], map[], 0, None, 0)

  // ----- the ordered store

  function Place(txs: seq<Entry>, e: Entry): seq<Entry> {
    if |txs| == 0 || txs[|txs| - 1].rank < e.rank then txs + [e]
    else Place(txs[..|txs| - 1], e) + [txs[|txs| - 1]]
  }

  function Without(txs: seq<Entry>, rank: nat): seq<Entry> {
    if |txs| == 0 then []
    else Without(txs[..|txs| - 1], rank) + if txs[|txs| - 1].rank == rank then [] else [txs[|txs| - 1]]
  }

  /** The successor of an entry that may be gone. */
  function FirstAfter(txs: seq<Entry>, rank: nat): Option<Entry> {
    if |txs| == 0 then None
    else if txs[0].rank > rank then Some(txs[0]) else FirstAfter(txs[1..], rank)
  }

  function Total(txs: seq<Entry>): nat {
    if |txs| == 0 then 0 else Total(txs[..|txs| - 1]) + txs[|txs| - 1].tx.size
  }

  // ----- operations

  predicate IsFull(p: Pool, c: Config, size: nat) {
    |p.txs| >= c.size || size + p.txsBytes > c.maxTxsBytes
  }

  function Add(p: Pool, tx: Tx, rank: nat): Pool {
    p.(txs := Place(p.txs, Entry(tx, rank)), index := p.index[tx := rank], txsBytes := p.txsBytes + tx.size)
  }

  /** removeTx, with the count of bytes its callers keep. */
  function Remove(p: Pool, tx: Tx): Pool {
    if tx !in p.index then p
    else p.(txs := Without(p.txs, p.index[tx]), index := p.index - {tx}, txsBytes := p.txsBytes - tx.size)
  }

  function RemoveAll(p: Pool, txs: seq<Tx>): Pool {
    if |txs| == 0 then p else Remove(RemoveAll(p, txs[..|txs| - 1]), txs[|txs| - 1])
  }

  /** recheckTxs: the cursor at the front, the end at the back. */
  function StartRecheck(p: Pool): Pool {
    if |p.txs| == 0 then p else p.(cursor := Some(p.txs[0]), end := p.txs[|p.txs| - 1].rank)
  }

  function Advance(p: Pool): Pool
    requires p.cursor.Some?
  {
    p.(cursor := if p.cursor.value.rank == p.end then None else FirstAfter(p.txs, p.cursor.value.rank))
  }

  /** resCbRecheck through globalCb; None is a panic. */
  function Rechecked(p: Pool, tx: Tx, ok: bool): Option<Pool> {
    if p.cursor.None? then Some(p)
    else if p.cursor.value.tx != tx then None
    else if ok then Some(Advance(p))
    else if tx !in p.index then None
    else Some(Advance(Remove(p, tx)))
  }

  /** Update on the cache: a good transaction is remembered, a bad one may come again. */
  function CacheAll(list: seq<Tx>, size: nat, committed: seq<Tx>, codes: seq<bool>): seq<Tx>
    requires |codes| == |committed|
  {
    if |committed| == 0 then list
    else
      var n := |committed| - 1;
      var before := CacheAll(list, size, committed[..n], codes[..n]);
      if codes[n] then Pushed(before, size, committed[n]) else Dropped(before, committed[n])
  }

  function DropAll(list: seq<Tx>, txs: seq<Tx>): seq<Tx> {
    if |txs| == 0 then list else Dropped(DropAll(list, txs[..|txs| - 1]), txs[|txs| - 1])
  }

  datatype Outcome = Done | Refused | Panicked

  class Store {
    const config: Config
    const cache: Cache<Tx>
    var txs: seq<Entry>
    var index: map<Tx, nat>
    var txsBytes: int
    var cursor: Option<Entry>
    var end: nat

    ghost function Value(): Pool
      reads this
    {
      Pool(txs, index, txsBytes, cursor, end)
    }

    ghost predicate Valid()
      reads this, cache
    {
      cache.Valid() && cache.size == config.cacheSize
    }

    constructor (config: Config)
      ensures Valid() && fresh(cache) && Value() == EMPTY && cache.list == [] && this.config == config
    {
      this.config := config;
      cache := new Cache(config.cacheSize);
      txs, index, txsBytes, cursor, end := [], map[], 0, None, 0;
    }

    /** CheckTx: whether the transaction goes to the application. `pass` is the pre-check,
        `connected` the state of the connection. */
    method CheckTx(tx: Tx, pass: bool, connected: bool) returns (sent: bool)
      requires Valid()
      modifies cache
      ensures Valid()
      ensures var taken := |txs| < config.size && txsBytes + tx.size <= config.maxTxsBytes &&
                           tx.size <= config.maxTxBytes && pass;
              && cache.list == (if taken then Pushed(old(cache.list), config.cacheSize, tx) else old(cache.list))
              && sent == (taken && tx !in old(cache.list) && connected)
    {
      if |txs| >= config.size || tx.size + txsBytes > config.maxTxsBytes {
        return false;
      }
      if tx.size > config.maxTxBytes || !pass {
        return false;
      }
      var added := cache.Push(tx);
      sent := added && connected;
    }

    /** resCbFirstTime; `ok` is the application's verdict with the post-check. */
    method ResCbFirstTime(tx: Tx, rank: nat, ok: bool) returns (r: Outcome)
      requires Valid()
      modifies this, cache
      ensures Valid() && cache.list == if r == Refused then Dropped(old(cache.list), tx) else old(cache.list)
      ensures r == if old(cursor).Some? then Panicked
                   else if ok && |old(txs)| < config.size && old(txsBytes) + tx.size <= config.maxTxsBytes then Done
                   else Refused
      ensures Value() == if r == Done then Add(old(Value()), tx, rank) else old(Value())
    {
      if cursor.Some? {
        return Panicked;
      }
      if !ok || |txs| >= config.size || tx.size + txsBytes > config.maxTxsBytes {
        cache.Remove(tx);
        return Refused;
      }
      txs, index := Place(txs, Entry(tx, rank)), index[tx := rank];
      txsBytes := txsBytes + tx.size;
      r := Done;
    }

    method RemoveTx(tx: Tx) returns (removed: bool)
      modifies this`txs, this`index
      ensures removed == (tx in old(index))
      ensures Value() == Remove(old(Value()), tx).(txsBytes := old(txsBytes))
    {
      removed := tx in index;
      if removed {
        txs, index := Without(txs, index[tx]), index - {tx};
      }
    }

    method UpdateRecheckCursor()
      requires cursor.Some?
      modifies this`cursor
      ensures Value() == Advance(old(Value()))
    {
      if cursor.value.rank == end {
        cursor := None;
      } else {
        cursor := FirstAfter(txs, cursor.value.rank);
      }
    }

    method ResCbRecheck(tx: Tx, ok: bool) returns (r: Outcome)
      requires Valid()
      modifies this, cache
      ensures Valid()
      ensures r != Panicked ==>
                cache.list == if old(cursor).Some? && !ok then Dropped(old(cache.list), tx) else old(cache.list)
      ensures (r == Panicked) == Rechecked(old(Value()), tx, ok).None?
      ensures r != Panicked ==> Some(Value()) == Rechecked(old(Value()), tx, ok)
    {
      if cursor.None? {
        return Done;
      }
      if cursor.value.tx != tx {
        return Panicked;
      }
      if !ok {
        var removed := RemoveTx(tx);
        if !removed {
          return Panicked;
        }
        txsBytes := txsBytes - tx.size;
        cache.Remove(tx);
      }
      UpdateRecheckCursor();
      r := Done;
    }

    /** Update after a block. */
    method Update(committed: seq<Tx>, codes: seq<bool>, recheck: bool)
      requires Valid() && |codes| == |committed|
      modifies this, cache
      ensures Valid() && cache.list == CacheAll(old(cache.list), config.cacheSize, committed, codes)
      ensures Value() == var p := RemoveAll(old(Value()), committed); if recheck then StartRecheck(p) else p
    {
      assert committed[..|committed|] == committed && codes[..|codes|] == codes;
      for i := 0 to |committed|
        invariant Value() == RemoveAll(old(Value()), committed[..i])
        invariant Valid() && cache.list == CacheAll(old(cache.list), config.cacheSize, committed[..i], codes[..i])
      {
        assert committed[..i + 1][..i] == committed[..i] && codes[..i + 1][..i] == codes[..i];
        if codes[i] {
          var added := cache.Push(committed[i]);
        } else {
          cache.Remove(committed[i]);
        }
        var removed := RemoveTx(committed[i]);
        if removed {
          txsBytes := txsBytes - committed[i].size;
        }
      }
      if |txs| > 0 && recheck {
        cursor, end := Some(txs[0]), txs[|txs| - 1].rank;
      }
    }

    /** RemoveTxs stops at the first transaction that is not there. */
    method RemoveTxs(list: seq<Tx>) returns (ok: bool)
      requires Valid()
      modifies this, cache
      ensures Valid()
      ensures exists n :: 0 <= n <= |list| && Value() == RemoveAll(old(Value()), list[..n]) &&
                          cache.list == DropAll(old(cache.list), list[..n]) &&
                          (if ok then n == |list| else n < |list| && list[n] !in index)
    {
      var i := 0;
      while i < |list|
        invariant 0 <= i <= |list| && Value() == RemoveAll(old(Value()), list[..i])
        invariant Valid() && cache.list == DropAll(old(cache.list), list[..i])
      {
        assert list[..i + 1][..i] == list[..i];
        var removed := RemoveTx(list[i]);
        if !removed {
          return false;
        }
        txsBytes := txsBytes - list[i].size;
        cache.Remove(list[i]);
        i := i + 1;
      }
      ok := true;
    }
  }
}
