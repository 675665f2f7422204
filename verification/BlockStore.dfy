/** store/store.go: blocks in a key-value database, one write at a time. */
module BlockStore {
  import opened Common

  datatype Key = MetaKey(height: nat) | HashKey(hash: nat) | PartKey(height: nat, index: nat)
               | CommitKey(height: nat) | SeenKey(height: nat) | StateKey

  datatype Value = Meta(hash: nat, total: nat) | HeightOf(height: nat) | Part(bytes: seq<nat>)
                 | Commit(commit: nat) | State(base: nat, height: nat)

  type DB = map<Key, Value>

  datatype Write = Set(key: Key, value: Value) | Delete(key: Key)

  function Written(db: DB, w: Write): DB {
    match w
    case Set(k, v) => db[k := v]
    case Delete(k) => db - {k}
  }

  function AllWritten(db: DB, ws: seq<Write>): DB {
    if |ws| == 0 then db else Written(AllWritten(db, ws[..|ws| - 1]), ws[|ws| - 1])
  }

  /** A block with the parts it was split into and the commit that was seen for it. */
  datatype Block = Block(height: nat, hash: nat, parts: seq<seq<nat>>, lastCommit: nat, seen: nat)

  function Concat(parts: seq<seq<nat>>): seq<nat> {
    if |parts| == 0 then [] else Concat(parts[..|parts| - 1]) + parts[|parts| - 1]
  }

  // ----- the writes of SaveBlock and PruneBlocks

  function PartWrites(b: Block, n: nat): seq<Write>
    requires n <= |b.parts|
  {
    if n == 0 then [] else PartWrites(b, n - 1) + [Set(PartKey(b.height, n - 1), Part(b.parts[n - 1]))]
  }

  /** Everything but the descriptor. */
  function BlockWrites(b: Block): seq<Write>
    requires b.height > 0
  {
    [Set(MetaKey(b.height), Meta(b.hash, |b.parts|)), Set(HashKey(b.hash), HeightOf(b.height))] +
    PartWrites(b, |b.parts|) +
    [Set(CommitKey(b.height - 1), Commit(b.lastCommit)), Set(SeenKey(b.height), Commit(b.seen))]
  }

  function SaveWrites(b: Block, base: nat): seq<Write>
    requires b.height > 0
  {
    BlockWrites(b) + [Set(StateKey, State(if base == 0 then b.height else base, b.height))]
  }

  function PartDeletes(h: nat, n: nat): seq<Write> {
    if n == 0 then [] else PartDeletes(h, n - 1) + [Delete(PartKey(h, n - 1))]
  }

  /** Nothing for a height whose meta is gone. */
  function DeletesAt(db: DB, h: nat): seq<Write> {
    if MetaKey(h) !in db || !db[MetaKey(h)].Meta? then []
    else
      var meta := db[MetaKey(h)];
      [Delete(MetaKey(h)), Delete(HashKey(meta.hash)), Delete(CommitKey(h)), Delete(SeenKey(h))] +
      PartDeletes(h, meta.total)
  }

  function DeletesFrom(db: DB, base: nat, to: nat): seq<Write> {
    if to <= base then [] else DeletesFrom(db, base, to - 1) + DeletesAt(db, to - 1)
  }

  /** PruneBlocks so far: what is written, what is in the batch, and the blocks counted. */
  datatype Progress = Progress(written: seq<Write>, batch: seq<Write>, pruned: nat)

  /** A flush every 1000 blocks, with the height just reached as the new base. */
  function Pruning(db: DB, base: nat, h: nat, height: nat): Progress {
    if h <= base then Progress([], [], 0)
    else
      var p, deletes := Pruning(db, base, h - 1, height), DeletesAt(db, h - 1);
      if |deletes| == 0 then p
      else if (p.pruned + 1) % 1000 != 0 then Progress(p.written, p.batch + deletes, p.pruned + 1)
      else Progress(p.written + FlushWrites(h - 1, height, p.batch + deletes), [], p.pruned + 1)
  }

  /** The descriptor first, then the batch. */
  function FlushWrites(base: nat, height: nat, batch: seq<Write>): seq<Write> {
    [Set(StateKey, State(base, height))] + batch
  }

  function PruneWrites(db: DB, base: nat, to: nat, height: nat): seq<Write> {
    var p := Pruning(db, base, to, height);
    p.written + FlushWrites(to, height, p.batch)
  }

  /** LoadBlockStoreState. */
  function Descriptor(db: DB): (nat, nat) {
    if StateKey !in db || !db[StateKey].State? then (0, 0)
    else
      var s := db[StateKey];
      (if s.height > 0 && s.base == 0 then 1 else s.base, s.height)
  }

  /** A store that has blocks has a first one, also where the descriptor was saved by a version
      without a base. */
  lemma BaseIsKnown(db: DB, base: nat, height: nat)
    requires height > 0
    ensures var d := Descriptor(db[StateKey := State(base, height)]);
            d.1 == height && d.0 > 0 && (base > 0 ==> d.0 == base)
  {
  }

  /** LoadBlock as bytes: None where there is no meta, or a part is missing. */
  function Parts(db: DB, h: nat, n: nat): Option<seq<nat>> {
    if n == 0 then Some([])
    else if PartKey(h, n - 1) !in db || !db[PartKey(h, n - 1)].Part? then None
    else
      match Parts(db, h, n - 1)
      case None => None
      case Some(bytes) => Some(bytes + db[PartKey(h, n - 1)].bytes)
  }

  datatype Loaded = NoBlock | Broken | Bytes(bytes: seq<nat>)

  function Load(db: DB, h: nat): Loaded {
    if MetaKey(h) !in db || !db[MetaKey(h)].Meta? then NoBlock
    else match Parts(db, h, db[MetaKey(h)].total) case None => Broken case Some(bytes) => Bytes(bytes)
  }

  function LoadByHash(db: DB, hash: nat): Loaded {
    if HashKey(hash) !in db || !db[HashKey(hash)].HeightOf? then NoBlock else Load(db, db[HashKey(hash)].height)
  }

  datatype Outcome = Done | Refused | Panicked

  class Store {
    var db: DB
    var base: nat
    var height: nat
    ghost var log: seq<Write>   // of the last operation

    /** NewBlockStore. */
    constructor (db: DB)
      ensures this.db == db && (base, height) == Descriptor(db) && log == []
    {
      this.db, this.log := db, [];
      var d := Descriptor(db);
      this.base, this.height := d.0, d.1;
    }

    method Put(w: Write)
      modifies this`db, this`log
      ensures db == Written(old(db), w) && log == old(log) + [w]
    {
      db := Written(db, w);
      log := log + [w];
    }

    method SaveBlock(b: Block) returns (r: Outcome)
      requires b.height > 0
      modifies this
      ensures r == if old(base) > 0 && b.height != old(height) + 1 then Panicked else Done
      ensures log == if r == Done then SaveWrites(b, old(base)) else []
      ensures db == AllWritten(old(db), log)
      ensures r == Panicked ==> base == old(base) && height == old(height)
      ensures r == Done ==> height == b.height && base == if old(base) == 0 then b.height else old(base)
    {
      hide AllWritten, Written;
      log := [];
      ghost var start := db;
      ghost var head := [Set(MetaKey(b.height), Meta(b.hash, |b.parts|)), Set(HashKey(b.hash), HeightOf(b.height))];
      TwoWritten(start, [], head[0], head[1]);
      if base > 0 && b.height != height + 1 {
        return Panicked;
      }
      Put(Set(MetaKey(b.height), Meta(b.hash, |b.parts|)));
      Put(Set(HashKey(b.hash), HeightOf(b.height)));
      assert log == [head[0], head[1]] == [] + [head[0], head[1]] == head + PartWrites(b, 0);
      for i := 0 to |b.parts|
        invariant base == old(base) && height == old(height)
        invariant log == head + PartWrites(b, i) && db == AllWritten(start, log)
      {
        OneWritten(start, log, Set(PartKey(b.height, i), Part(b.parts[i])));
        Put(Set(PartKey(b.height, i), Part(b.parts[i])));
      }
      SaveCommits(b, start);
      height := b.height;
      if base == 0 {
        base := b.height;
      }
      OneWritten(start, log, Set(StateKey, State(base, height)));
      Put(Set(StateKey, State(base, height)));
      r := Done;
    }

    method SaveCommits(b: Block, ghost start: DB)
      requires b.height > 0 && db == AllWritten(start, log)
      modifies this`db, this`log
      ensures log == old(log) + [Set(CommitKey(b.height - 1), Commit(b.lastCommit)),
                                 Set(SeenKey(b.height), Commit(b.seen))]
      ensures db == AllWritten(start, log)
    {
      hide AllWritten, Written;
      OneWritten(start, log, Set(CommitKey(b.height - 1), Commit(b.lastCommit)));
      Put(Set(CommitKey(b.height - 1), Commit(b.lastCommit)));
      OneWritten(start, log, Set(SeenKey(b.height), Commit(b.seen)));
      Put(Set(SeenKey(b.height), Commit(b.seen)));
    }

    /** The deletes for one height, read from the database as flushed so far. */
    method DeletesFor(h: nat) returns (ws: seq<Write>)
      ensures ws == DeletesAt(db, h)
    {
      if MetaKey(h) !in db || !db[MetaKey(h)].Meta? {
        return [];
      }
      var meta := db[MetaKey(h)];
      ws := [Delete(MetaKey(h)), Delete(HashKey(meta.hash)), Delete(CommitKey(h)), Delete(SeenKey(h))];
      ghost var head := ws;
      for p := 0 to meta.total
        invariant ws == head + PartDeletes(h, p)
      {
        ws := ws + [Delete(PartKey(h, p))];
      }
    }

    method FlushTo(newBase: nat, batch: seq<Write>, ghost start: DB, ghost flushed: seq<Write>)
      requires IsDeletes(batch) && SameWithout(db, start, flushed)
      modifies this
      ensures base == newBase && height == old(height) && log == old(log) + FlushWrites(newBase, height, batch)
      ensures SameWithout(db, start, flushed + batch) && StateKey in db && db[StateKey] == State(newBase, height)
    {
      base := newBase;
      Describe(db, start, flushed, State(base, height));
      Put(Set(StateKey, State(base, height)));
      Flush(db, start, flushed, batch);
      db := AllWritten(db, batch);
      log := log + batch;
    }

    /** The body of the loop in PruneBlocks. */
    method PruneAt(h: nat, batch: seq<Write>, pruned: nat, ghost start: DB, ghost first: nat, ghost flushed: seq<Write>)
      returns (batch': seq<Write>, pruned': nat, ghost flushed': seq<Write>)
      requires first <= h && Pending(start, first, h, flushed, batch) && SameWithout(db, start, flushed)
      requires Progress(log, batch, pruned) == Pruning(start, first, h, height)
      modifies this
      ensures height == old(height)
      ensures Pending(start, first, h + 1, flushed', batch') && SameWithout(db, start, flushed')
      ensures Progress(log, batch', pruned') == Pruning(start, first, h + 1, height)
    {
      hide DeletesAt, DeletesFrom, Keys, SameWithout, IsDeletes, AllWritten, Pending, FlushWrites;
      StillThere(start, db, first, h, flushed, batch);
      var deletes := DeletesFor(h);
      NextDeletes(start, first, h, flushed, batch);
      batch', pruned', flushed' := batch + deletes, pruned, flushed;
      if |deletes| > 0 {
        pruned' := pruned' + 1;
        if pruned' % 1000 == 0 {
          AllPending(start, first, h + 1, flushed', batch');
          FlushTo(h, batch', start, flushed');
          flushed', batch' := flushed' + batch', [];
        }
      }
    }

    method PruneBlocks(to: int) returns (r: Outcome)
      modifies this
      ensures r == if 0 < to && old(base) <= to <= old(height) then Done else Refused
      ensures log == if r == Done then PruneWrites(old(db), old(base), to, old(height)) else []
      ensures r == Refused ==> db == old(db) && base == old(base) && height == old(height)
      ensures r == Done ==> base == to && height == old(height) && db == Pruned(old(db), old(base), to, height)
    {
      hide DeletesFrom, Keys, SameWithout, IsDeletes, AllWritten, Pruned, Pending, FlushWrites;
      log := [];
      if to <= 0 || to > height || to < base {
        return Refused;
      }
      ghost var start, first, flushed := db, base, [];
      var batch, pruned := [], 0;
      NoDeletes(start, first);
      var h := base;
      while h < to
        invariant height == old(height) && first <= h <= to
        invariant Pending(start, first, h, flushed, batch) && SameWithout(db, start, flushed)
        invariant Progress(log, batch, pruned) == Pruning(start, first, h, height)
      {
        batch, pruned, flushed := PruneAt(h, batch, pruned, start, first, flushed);
        h := h + 1;
      }
      AllPending(start, first, to, flushed, batch);
      FlushTo(to, batch, start, flushed);
      AllFlushed(db, start, first, to, height);
      r := Done;
    }
  }

  ghost predicate IsDeletes(ws: seq<Write>) {
    forall i :: 0 <= i < |ws| ==> ws[i].Delete? && ws[i].key != StateKey
  }

  function Keys(ws: seq<Write>): set<Key> {
    set w | w in ws :: w.key
  }

  function Pruned(db: DB, base: nat, to: nat, height: nat): DB {
    (db - Keys(DeletesFrom(db, base, to)))[StateKey := State(to, height)]
  }

  lemma OneWritten(db: DB, ws: seq<Write>, w: Write)
    ensures AllWritten(db, ws + [w]) == Written(AllWritten(db, ws), w)
  {
    assert (ws + [w])[..|ws|] == ws;
  }

  lemma TwoWritten(db: DB, ws: seq<Write>, v: Write, w: Write)
    ensures AllWritten(db, ws + [v, w]) == Written(Written(AllWritten(db, ws), v), w)
    ensures AllWritten(db, []) == db
  {
    OneWritten(db, ws, v);
    OneWritten(db, ws + [v], w);
    assert ws + [v] + [w] == ws + [v, w];
  }

  lemma {:induction false} DeletesRemove(db: DB, ws: seq<Write>)
    requires IsDeletes(ws)
    ensures AllWritten(db, ws) == db - Keys(ws)
  {
    if |ws| > 0 {
      var init, last := ws[..|ws| - 1], ws[|ws| - 1];
      DeletesRemove(db, init);
      assert ws == init + [last];
      assert Keys(ws) == Keys(init) + {last.key};
    }
  }

  /** The descriptor apart, the start without what the flushed writes delete. */
  ghost predicate SameWithout(db: DB, start: DB, flushed: seq<Write>) {
    db - {StateKey} == start - Keys(flushed) - {StateKey}
  }

  lemma Describe(db: DB, start: DB, flushed: seq<Write>, v: Value)
    requires SameWithout(db, start, flushed)
    ensures SameWithout(Written(db, Set(StateKey, v)), start, flushed)
  {
    assert db[StateKey := v] - {StateKey} == db - {StateKey};
  }

  lemma Flush(db: DB, start: DB, flushed: seq<Write>, batch: seq<Write>)
    requires IsDeletes(batch) && SameWithout(db, start, flushed)
    ensures var after := AllWritten(db, batch);
            && SameWithout(after, start, flushed + batch)
            && (StateKey in db ==> StateKey in after && after[StateKey] == db[StateKey])
  {
    DeletesRemove(db, batch);
    assert Keys(flushed + batch) == Keys(flushed) + Keys(batch);
    var after := db - Keys(batch);
    assert StateKey !in Keys(batch);
    assert after - {StateKey} == (db - {StateKey}) - Keys(batch);
  }

  lemma AllFlushed(db: DB, start: DB, base: nat, to: nat, height: nat)
    requires SameWithout(db, start, DeletesFrom(start, base, to)) && StateKey in db && db[StateKey] == State(to, height)
    ensures db == Pruned(start, base, to, height)
  {
    var gone := Keys(DeletesFrom(start, base, to));
    assert db == (db - {StateKey})[StateKey := State(to, height)];
    assert (start - gone - {StateKey})[StateKey := State(to, height)] == (start - gone)[StateKey := State(to, height)];
  }

  /** Flushed and batched so far: the deletes of the heights below `h`. */
  ghost predicate Pending(start: DB, base: nat, h: nat, flushed: seq<Write>, batch: seq<Write>) {
    && flushed + batch == DeletesFrom(start, base, h) && IsDeletes(batch)
    && Keys(flushed) <= Keys(DeletesFrom(start, base, h))
  }

  lemma NoDeletes(db: DB, base: nat)
    ensures Pending(db, base, base, [], []) && SameWithout(db, db, [])
  {
  }

  lemma AllPending(start: DB, base: nat, h: nat, flushed: seq<Write>, batch: seq<Write>)
    requires Pending(start, base, h, flushed, batch)
    ensures flushed + batch == DeletesFrom(start, base, h) && IsDeletes(batch)
    ensures Pending(start, base, h, flushed + batch, [])
  {
    assert flushed + batch + [] == flushed + batch;
  }

  lemma {:induction false} PartDeletesAre(h: nat, n: nat)
    ensures |PartDeletes(h, n)| == n
    ensures forall i :: 0 <= i < n ==> PartDeletes(h, n)[i] == Delete(PartKey(h, i))
  {
    if n > 0 {
      PartDeletesAre(h, n - 1);
    }
  }

  lemma NextDeletes(db: DB, base: nat, h: nat, flushed: seq<Write>, batch: seq<Write>)
    requires base <= h && Pending(db, base, h, flushed, batch)
    ensures Pending(db, base, h + 1, flushed, batch + DeletesAt(db, h))
  {
    AreDeletes(db, h);
    hide DeletesAt;
    assert DeletesFrom(db, base, h + 1) == DeletesFrom(db, base, h) + DeletesAt(db, h);
    hide DeletesFrom, IsDeletes, Keys;
    Append(DeletesFrom(db, base, h), flushed, batch, DeletesAt(db, h));
  }

  lemma Append(all: seq<Write>, flushed: seq<Write>, batch: seq<Write>, more: seq<Write>)
    requires flushed + batch == all && IsDeletes(batch) && IsDeletes(more)
    ensures flushed + (batch + more) == all + more && IsDeletes(batch + more)
    ensures Keys(all) <= Keys(all + more)
  {
  }

  lemma AreDeletes(db: DB, h: nat)
    ensures IsDeletes(DeletesAt(db, h))
  {
    if MetaKey(h) in db && db[MetaKey(h)].Meta? {
      PartDeletesAre(h, db[MetaKey(h)].total);
    }
  }

  /** Keys of heights in a range, and the hashes stored for them. */
  ghost predicate Within(db: DB, base: nat, to: nat, k: Key) {
    match k
    case MetaKey(h) => base <= h < to
    case PartKey(h, _) => base <= h < to
    case CommitKey(h) => base <= h < to
    case SeenKey(h) => base <= h < to
    case HashKey(x) => exists h :: base <= h < to && HasMeta(db, h, x)
    case StateKey => false
  }

  lemma DeletedAt(db: DB, h: nat, k: Key)
    requires k in Keys(DeletesAt(db, h))
    ensures Within(db, h, h + 1, k)
  {
    PartDeletesAre(h, db[MetaKey(h)].total);
    assert HasMeta(db, h, db[MetaKey(h)].hash);
  }

  lemma {:induction false} DeletedKeys(db: DB, base: nat, to: nat, k: Key)
    ensures k in Keys(DeletesFrom(db, base, to)) ==> Within(db, base, to, k)
  {
    hide DeletesAt;
    if base < to {
      DeletedKeys(db, base, to - 1, k);
      if k in Keys(DeletesAt(db, to - 1)) {
        DeletedAt(db, to - 1, k);
      }
    }
  }

  /** The keys of the block of height h, by its meta. */
  predicate Belongs(h: nat, meta: Value, k: Key) {
    match k
    case MetaKey(g) => g == h
    case HashKey(x) => meta.Meta? && x == meta.hash
    case PartKey(g, i) => g == h && meta.Meta? && i < meta.total
    case CommitKey(g) => g == h
    case SeenKey(g) => g == h
    case StateKey => false
  }

  ghost predicate IsPruned(db: DB, base: nat, to: nat, k: Key) {
    exists h :: base <= h < to && MetaKey(h) in db && db[MetaKey(h)].Meta? && Belongs(h, db[MetaKey(h)], k)
  }

  lemma {:induction false} PartDeletesIff(h: nat, n: nat, k: Key)
    ensures k in Keys(PartDeletes(h, n)) <==> k.PartKey? && k.height == h && k.index < n
  {
    if n > 0 {
      PartDeletesIff(h, n - 1, k);
      KeysJoin(PartDeletes(h, n - 1), [Delete(PartKey(h, n - 1))], k);
    }
  }

  lemma KeysJoin(a: seq<Write>, b: seq<Write>, k: Key)
    ensures k in Keys(a + b) <==> k in Keys(a) || k in Keys(b)
  {
    assert forall w :: w in a + b <==> w in a || w in b;
  }

  lemma DeletesAtIff(db: DB, h: nat, k: Key)
    ensures k in Keys(DeletesAt(db, h)) <==> IsPruned(db, h, h + 1, k)
  {
    if MetaKey(h) in db && db[MetaKey(h)].Meta? {
      var meta := db[MetaKey(h)];
      var own := [Delete(MetaKey(h)), Delete(HashKey(meta.hash)), Delete(CommitKey(h)), Delete(SeenKey(h))];
      PartDeletesIff(h, meta.total, k);
      KeysJoin(own, PartDeletes(h, meta.total), k);
      assert own[0] in own && own[1] in own && own[2] in own && own[3] in own;
    }
  }

  lemma {:induction false} DeletesIff(db: DB, base: nat, to: nat, k: Key)
    ensures k in Keys(DeletesFrom(db, base, to)) <==> IsPruned(db, base, to, k)
  {
    hide DeletesAt, Keys;
    if base < to {
      DeletesIff(db, base, to - 1, k);
      DeletesAtIff(db, to - 1, k);
      KeysJoin(DeletesFrom(db, base, to - 1), DeletesAt(db, to - 1), k);
    } else {
      NoKeys(k);
    }
  }

  lemma NoKeys(k: Key)
    ensures k !in Keys([])
  {
  }

  /** Pruning takes all keys of the blocks below, and no others, and moves the base. */
  lemma {:induction false} PrunedExactly(db: DB, base: nat, to: nat, height: nat, k: Key)
    ensures var after := Pruned(db, base, to, height);
            && after[StateKey] == State(to, height)
            && (k != StateKey ==> (k in after <==> k in db && !IsPruned(db, base, to, k)))
            && (k != StateKey && k in after ==> after[k] == db[k])
  {
    hide DeletesFrom, Keys, IsPruned;
    DeletesIff(db, base, to, k);
  }

  ghost predicate HasMeta(db: DB, h: nat, hash: nat) {
    MetaKey(h) in db && db[MetaKey(h)].Meta? && db[MetaKey(h)].hash == hash
  }

  /** A height not reached yet reads as it did at the start. */
  lemma StillThere(start: DB, db: DB, base: nat, h: nat, flushed: seq<Write>, batch: seq<Write>)
    requires SameWithout(db, start, flushed) && Pending(start, base, h, flushed, batch)
    ensures DeletesAt(db, h) == DeletesAt(start, h)
  {
    var gone := Keys(flushed);
    var k := MetaKey(h);
    DeletedKeys(start, base, h, k);
    assert k in db <==> k in db - {StateKey};
    assert k in start && k !in gone <==> k in start - gone - {StateKey};
    if k in db {
      assert db[k] == (db - {StateKey})[k] == start[k];
    }
  }
}
