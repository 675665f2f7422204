/** What a block store holds, and that a save adds to it even when it is cut short. */
module BlockStoreProofs {
  import opened Common
  import opened BlockStore

  predicate Has(db: DB, k: Key, v: Value) {
    k in db && db[k] == v
  }

  ghost predicate HasBlock(db: DB, h: nat, b: Block) {
    && b.height == h
    && Has(db, MetaKey(h), Meta(b.hash, |b.parts|)) && Has(db, HashKey(b.hash), HeightOf(h))
    && (forall i :: 0 <= i < |b.parts| ==> Has(db, PartKey(h, i), Part(b.parts[i])))
    && Has(db, SeenKey(h), Commit(b.seen))
  }

  ghost predicate HasCommit(db: DB, saved: map<nat, Block>, h: nat) {
    h + 1 in saved && Has(db, CommitKey(h), Commit(saved[h + 1].lastCommit))
  }

  /** The descriptor's base is held, or is one block below what is held and gone. */
  ghost predicate Opens(db: DB, base: nat, height: nat) {
    var d := Descriptor(db);
    d.1 == height && (d.0 == base || (1 <= d.0 == base - 1 && MetaKey(d.0) !in db))
  }

  /** A store holding the blocks of `saved` from base to height, and below base, or before
      there is one, nothing but what was left at the heights of `junk`. */
  ghost predicate Holds(db: DB, saved: map<nat, Block>, base: nat, height: nat, junk: set<nat>) {
    && Opens(db, base, height)
    && (if height == 0 then base == 0 else 1 <= base <= height)
    && (forall h :: 1 <= base <= h <= height ==> h in saved && HasBlock(db, h, saved[h]))
    && (forall h :: 1 <= base <= h < height ==> HasCommit(db, saved, h))
    && (forall h: nat :: MetaKey(h) in db && (base == 0 || h < base) <==> h in junk)
    && (forall h: nat :: h in junk ==> db[MetaKey(h)].Meta?)
    && (forall g, h :: 1 <= base <= g < h <= height ==> saved[g].hash != saved[h].hash)
  }

  // ----- what loads

  lemma {:induction false} PartsJoin(db: DB, b: Block, n: nat)
    requires n <= |b.parts| && forall i :: 0 <= i < n ==> Has(db, PartKey(b.height, i), Part(b.parts[i]))
    ensures Parts(db, b.height, n) == Some(Concat(b.parts[..n]))
  {
    if n > 0 {
      PartsJoin(db, b, n - 1);
      assert Has(db, PartKey(b.height, n - 1), Part(b.parts[n - 1]));
      assert b.parts[..n][..n - 1] == b.parts[..n - 1];
    }
  }

  /** Every height from base to height loads what was saved there, by height and by hash,
      with its seen commit and, below the top, the next block's LastCommit; below base there
      is a block to load only where one was left. */
  lemma {:induction false} LoadsSaved(db: DB, saved: map<nat, Block>, base: nat, height: nat, junk: set<nat>, h: nat)
    requires Holds(db, saved, base, height, junk) && 1 <= base
    ensures base <= h <= height ==>
              && h in saved && Load(db, h) == Bytes(Concat(saved[h].parts))
              && LoadByHash(db, saved[h].hash) == Load(db, h)
              && Has(db, SeenKey(h), Commit(saved[h].seen))
    ensures base <= h < height ==> h + 1 in saved && Has(db, CommitKey(h), Commit(saved[h + 1].lastCommit))
    ensures h < base ==> (Load(db, h) == NoBlock <==> h !in junk)
  {
    if base <= h <= height {
      var b := saved[h];
      assert HasBlock(db, h, b);
      PartsJoin(db, b, |b.parts|);
      assert b.parts[..|b.parts|] == b.parts;
      if h < height {
        assert HasCommit(db, saved, h);
        assert HasBlock(db, h + 1, saved[h + 1]);
      }
    }
  }

  // ----- writes that leave a key alone, and writes that set it

  lemma {:induction false} Untouched(db: DB, ws: seq<Write>, k: Key)
    requires forall i :: 0 <= i < |ws| ==> ws[i].key != k
    ensures k in AllWritten(db, ws) <==> k in db
    ensures k in db ==> AllWritten(db, ws)[k] == db[k]
  {
    if |ws| > 0 {
      Untouched(db, ws[..|ws| - 1], k);
    }
  }

  lemma {:induction false} SetLast(db: DB, ws: seq<Write>, n: nat, k: Key, v: Value)
    requires n < |ws| && ws[n] == Set(k, v) && forall i :: n < i < |ws| ==> ws[i].key != k
    ensures Has(AllWritten(db, ws), k, v)
  {
    if n < |ws| - 1 {
      SetLast(db, ws[..|ws| - 1], n, k, v);
    }
  }

  /** Keys that saving a block may set. */
  predicate OfBlock(b: Block, k: Key) {
    match k
    case MetaKey(h) => h == b.height
    case HashKey(x) => x == b.hash
    case PartKey(h, i) => h == b.height && i < |b.parts|
    case CommitKey(h) => h + 1 == b.height
    case SeenKey(h) => h == b.height
    case StateKey => false
  }

  lemma {:induction false} PartWritesAre(b: Block, n: nat)
    requires n <= |b.parts|
    ensures |PartWrites(b, n)| == n
    ensures forall i :: 0 <= i < n ==> PartWrites(b, n)[i] == Set(PartKey(b.height, i), Part(b.parts[i]))
  {
    if n > 0 {
      PartWritesAre(b, n - 1);
    }
  }

  lemma WritesAre(b: Block)
    requires b.height > 0
    ensures var ws, n := BlockWrites(b), |b.parts|;
            && |ws| == n + 4 && ws[0] == Set(MetaKey(b.height), Meta(b.hash, n))
            && ws[1] == Set(HashKey(b.hash), HeightOf(b.height))
            && (forall j :: 2 <= j < n + 2 ==> ws[j] == Set(PartKey(b.height, j - 2), Part(b.parts[j - 2])))
            && ws[n + 2] == Set(CommitKey(b.height - 1), Commit(b.lastCommit))
            && ws[n + 3] == Set(SeenKey(b.height), Commit(b.seen))
            && (forall i :: 0 <= i < |ws| ==> OfBlock(b, ws[i].key))
  {
    PartWritesAre(b, |b.parts|);
    var ws, n := BlockWrites(b), |b.parts|;
    forall j | 2 <= j < n + 2 ensures ws[j] == PartWrites(b, n)[j - 2] {
    }
  }

  // ----- saving

  /** A block that may come next; distinct blocks have distinct hashes. */
  ghost predicate Follows(saved: map<nat, Block>, base: nat, height: nat, b: Block) {
    && b.height > 0 && (base > 0 ==> b.height == height + 1)
    && forall h :: 1 <= base <= h <= height && h in saved ==> saved[h].hash != b.hash
  }

  /** Writes to keys of the new block leave the stored ones as they are. */
  lemma {:induction false} BlockStays(db: DB, ws: seq<Write>, b: Block, h: nat, old_: Block)
    requires HasBlock(db, h, old_) && h != b.height && old_.hash != b.hash
    requires forall i :: 0 <= i < |ws| ==> OfBlock(b, ws[i].key)
    ensures HasBlock(AllWritten(db, ws), h, old_)
  {
    Untouched(db, ws, MetaKey(h));
    Untouched(db, ws, HashKey(old_.hash));
    Untouched(db, ws, SeenKey(h));
    forall i | 0 <= i < |old_.parts| ensures Has(AllWritten(db, ws), PartKey(h, i), Part(old_.parts[i])) {
      assert Has(db, PartKey(h, i), Part(old_.parts[i]));
      Untouched(db, ws, PartKey(h, i));
    }
  }

  /** What the writes before the descriptor leave behind in an empty store. */
  function Left(base: nat, junk: set<nat>, b: Block, n: nat): set<nat> {
    if base == 0 && n > 0 then junk + {b.height} else junk
  }

  /** Cut short before the descriptor, a save changes nothing that counts. */
  lemma {:induction false} PartlySaved(db: DB, n: nat, saved: map<nat, Block>, base: nat, height: nat, junk: set<nat>,
                                       b: Block)
    requires Holds(db, saved, base, height, junk) && Follows(saved, base, height, b) && n <= |BlockWrites(b)|
    ensures Holds(AllWritten(db, BlockWrites(b)[..n]), saved, base, height, Left(base, junk, b, n))
  {
    WritesAre(b);
    hide AllWritten, HasBlock, BlockWrites;
    var ws := BlockWrites(b)[..n];
    var after := AllWritten(db, ws);
    Untouched(db, ws, StateKey);
    forall h | 1 <= base <= h <= height ensures HasBlock(after, h, saved[h]) {
      BlockStays(db, ws, b, h, saved[h]);
    }
    forall h | 1 <= base <= h < height ensures HasCommit(after, saved, h) {
      assert HasCommit(db, saved, h);
      Untouched(db, ws, CommitKey(h));
    }
    forall h: nat
      ensures MetaKey(h) in after && (base == 0 || h < base) <==> h in Left(base, junk, b, n)
      ensures h in Left(base, junk, b, n) ==> after[MetaKey(h)].Meta?
    {
      if h != b.height {
        Untouched(db, ws, MetaKey(h));
      } else if n > 0 {
        SetLast(db, ws, 0, MetaKey(h), Meta(b.hash, |b.parts|));
      } else {
        Untouched(db, ws, MetaKey(h));
      }
    }
  }

  lemma {:induction false} NewBlockThere(db: DB, b: Block)
    requires b.height > 0
    ensures HasBlock(AllWritten(db, BlockWrites(b)), b.height, b)
    ensures Has(AllWritten(db, BlockWrites(b)), CommitKey(b.height - 1), Commit(b.lastCommit))
  {
    WritesAre(b);
    hide BlockWrites, AllWritten;
    var ws, n := BlockWrites(b), |b.parts|;
    SetLast(db, ws, 0, MetaKey(b.height), Meta(b.hash, n));
    SetLast(db, ws, 1, HashKey(b.hash), HeightOf(b.height));
    SetLast(db, ws, n + 2, CommitKey(b.height - 1), Commit(b.lastCommit));
    SetLast(db, ws, n + 3, SeenKey(b.height), Commit(b.seen));
    forall i | 0 <= i < n ensures Has(AllWritten(db, ws), PartKey(b.height, i), Part(b.parts[i])) {
      SetLast(db, ws, i + 2, PartKey(b.height, i), Part(b.parts[i]));
    }
  }

  /** What is left below the first block. */
  function Below(base: nat, junk: set<nat>, b: Block): set<nat> {
    if base == 0 then set h | h in junk && h < b.height else junk
  }

  lemma Described(db: DB, saved: map<nat, Block>, base: nat, height: nat, junk: set<nat>, b: Block)
    requires Holds(db, saved, base, height, Left(base, junk, b, 1)) && Follows(saved, base, height, b)
    requires HasBlock(db, b.height, b) && Has(db, CommitKey(b.height - 1), Commit(b.lastCommit))
    ensures var newBase, open := if base == 0 then b.height else base, Descriptor(db).0;
            Holds(db[StateKey := State(if open == 0 then b.height else open, b.height)], saved[b.height := b], newBase,
                  b.height, Below(base, junk, b))
  {
    var newBase, open := if base == 0 then b.height else base, Descriptor(db).0;
    var after, more := db[StateKey := State(if open == 0 then b.height else open, b.height)], saved[b.height := b];
    forall h | 1 <= newBase <= h <= b.height ensures HasBlock(after, h, more[h]) {
      assert HasBlock(db, h, more[h]);
    }
    forall h | 1 <= newBase <= h < b.height ensures HasCommit(after, more, h) {
      assert h < height ==> HasCommit(db, saved, h);
    }
  }

  /** A crash after any single write of SaveBlock leaves a store that holds what it held; a
      finished save adds the block. */
  lemma {:induction false} SaveHolds(db: DB, saved: map<nat, Block>, base: nat, height: nat, junk: set<nat>, b: Block,
                                     n: nat)
    requires Holds(db, saved, base, height, junk) && Follows(saved, base, height, b)
    requires n <= |SaveWrites(b, Descriptor(db).0)|
    ensures var ws := SaveWrites(b, Descriptor(db).0);
            var after := AllWritten(db, ws[..n]);
            if n < |ws| then Holds(after, saved, base, height, Left(base, junk, b, n))
            else Holds(after, saved[b.height := b], if base == 0 then b.height else base, b.height,
                       Below(base, junk, b))
  {
    WritesAre(b);
    hide Holds, BlockWrites, HasBlock, AllWritten, Descriptor;
    var open := Descriptor(db).0;
    var ws, all := SaveWrites(b, open), BlockWrites(b);
    if n < |ws| {
      assert ws[..n] == all[..n];
      PartlySaved(db, n, saved, base, height, junk, b);
    } else {
      assert ws[..n] == ws && all[..|all|] == all;
      OneWritten(db, all, Set(StateKey, State(if open == 0 then b.height else open, b.height)));
      PartlySaved(db, |all|, saved, base, height, junk, b);
      NewBlockThere(db, b);
      SameDescriptor(db, all);
      Described(AllWritten(db, all), saved, base, height, junk, b);
    }
  }

  lemma SameDescriptor(db: DB, ws: seq<Write>)
    requires forall i :: 0 <= i < |ws| ==> ws[i].key != StateKey
    ensures Descriptor(AllWritten(db, ws)) == Descriptor(db)
  {
    hide AllWritten;
    Untouched(db, ws, StateKey);
  }
}
