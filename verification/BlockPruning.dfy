/** PruneBlocks cut short at any write: what the store holds then, and whether its base is
    still there. */
module BlockPruning {
  import opened BlockStore
  import opened BlockStoreProofs

  /** The first m of the deletes below `top`, with the base moved. */
  ghost function Partial(db: DB, open: nat, top: nat, m: nat, base: nat, height: nat): DB
    requires m <= |DeletesFrom(db, open, top)|
  {
    (db - Keys(DeletesFrom(db, open, top)[..m]))[StateKey := State(base, height)]
  }

  /** A store that pruning may leave. Its base is `top`, or one below when more is to come. */
  ghost predicate IsCut(db: DB, open: nat, to: nat, height: nat, after: DB, base: nat, top: nat, m: nat) {
    && open <= base <= top <= base + 1 && top <= to && m <= |DeletesFrom(db, open, top)|
    && after == Partial(db, open, top, m, base, height)
  }

  /** The write it comes after. */
  ghost predicate LastWrite(db: DB, open: nat, w: Write, base: nat, top: nat, m: nat)
    requires m <= |DeletesFrom(db, open, top)|
  {
    if w.Set? then m <= |DeletesFrom(db, open, base)| else m > 0 && w == DeletesFrom(db, open, top)[m - 1]
  }

  // ----- every stop leaves such a store

  lemma {:induction false} ThenWritten(db: DB, a: seq<Write>, b: seq<Write>)
    ensures AllWritten(db, a + b) == AllWritten(AllWritten(db, a), b)
  {
    if |b| == 0 {
      assert a + b == a;
    } else {
      assert (a + b)[..|a + b| - 1] == a + b[..|b| - 1];
      ThenWritten(db, a, b[..|b| - 1]);
    }
  }

  /** k writes of a flush, made where the deletes of `flushed` have been. */
  lemma {:induction false} FlushCut(db: DB, open: nat, top: nat, at: DB, flushed: seq<Write>, batch: seq<Write>,
                                    base: nat, height: nat, k: nat)
    requires SameWithout(at, db, flushed) && IsDeletes(batch) && flushed + batch == DeletesFrom(db, open, top)
    requires 1 <= k <= |batch| + 1
    ensures AllWritten(at, FlushWrites(base, height, batch)[..k]) ==
            Partial(db, open, top, |flushed| + k - 1, base, height)
  {
    hide DeletesFrom, SameWithout, AllWritten, Keys;
    var first, rest := Set(StateKey, State(base, height)), batch[..k - 1];
    assert FlushWrites(base, height, batch)[..k] == [] + [first] + rest;
    ThenWritten(at, [] + [first], rest);
    OneWritten(at, [], first);
    TwoWritten(at, [], first, first);
    Describe(at, db, flushed, State(base, height));
    var described := Written(at, first);
    Flush(described, db, flushed, rest);
    assert (flushed + batch)[..|flushed| + k - 1] == flushed + rest;
    Extensional(AllWritten(described, rest), db, flushed + rest, State(base, height));
  }

  lemma Extensional(after: DB, db: DB, gone: seq<Write>, v: Value)
    requires SameWithout(after, db, gone) && StateKey in after && after[StateKey] == v
    ensures after == (db - Keys(gone))[StateKey := v]
  {
    assert after == (after - {StateKey})[StateKey := v];
    assert (db - Keys(gone) - {StateKey})[StateKey := v] == (db - Keys(gone))[StateKey := v];
  }

  /** What the flushes before `h` have deleted. */
  lemma {:induction false} Flushed(db: DB, open: nat, h: nat, height: nat) returns (flushed: seq<Write>)
    requires open <= h
    ensures var p := Pruning(db, open, h, height);
            Pending(db, open, h, flushed, p.batch) && SameWithout(AllWritten(db, p.written), db, flushed)
  {
    hide DeletesAt, SameWithout, AllWritten, Pending, FlushWrites;
    if h == open {
      flushed := [];
      NoDeletes(db, open);
      TwoWritten(db, [], Delete(StateKey), Delete(StateKey));
    } else {
      var p, deletes := Pruning(db, open, h - 1, height), DeletesAt(db, h - 1);
      flushed := Flushed(db, open, h - 1, height);
      NextDeletes(db, open, h - 1, flushed, p.batch);
      if |deletes| == 0 {
        assert p.batch + deletes == p.batch;
      } else if (p.pruned + 1) % 1000 == 0 {
        FlushedAll(db, open, h, flushed, p, deletes, height);
        flushed := flushed + (p.batch + deletes);
      }
    }
  }

  lemma FlushedAll(db: DB, open: nat, h: nat, flushed: seq<Write>, p: Progress, deletes: seq<Write>, height: nat)
    requires 0 < h && Pending(db, open, h, flushed, p.batch + deletes)
    requires SameWithout(AllWritten(db, p.written), db, flushed)
    ensures var batch := p.batch + deletes;
            && Pending(db, open, h, flushed + batch, [])
            && SameWithout(AllWritten(db, p.written + FlushWrites(h - 1, height, batch)), db, flushed + batch)
  {
    hide AllWritten, Keys, DeletesFrom;
    var batch := p.batch + deletes;
    AllPending(db, open, h, flushed, batch);
    ThenWritten(db, p.written, FlushWrites(h - 1, height, batch));
    var all := FlushWrites(h - 1, height, batch);
    assert all[..|batch| + 1] == all;
    FlushCut(db, open, h, AllWritten(db, p.written), flushed, batch, h - 1, height, |batch| + 1);
    var d := DeletesFrom(db, open, h);
    assert d[..|d|] == d;
    assert (db - Keys(d))[StateKey := State(h - 1, height)] - {StateKey} == db - Keys(d) - {StateKey};
  }

  /** Stopped at a flush before `to`. */
  lemma {:induction false} WrittenCut(db: DB, open: nat, h: nat, height: nat, n: nat)
    returns (base: nat, top: nat, m: nat)
    requires open <= h && 0 < n <= |Pruning(db, open, h, height).written|
    ensures var ws := Pruning(db, open, h, height).written;
            && IsCut(db, open, h, height, AllWritten(db, ws[..n]), base, top, m)
            && LastWrite(db, open, ws[n - 1], base, top, m)
  {
    hide AllWritten, DeletesAt, SameWithout, Keys, Pending;
    var p, deletes, ws := Pruning(db, open, h - 1, height), DeletesAt(db, h - 1), Pruning(db, open, h, height).written;
    if n <= |p.written| {
      base, top, m := WrittenCut(db, open, h - 1, height, n);
      assert ws[..n] == p.written[..n];
    } else {
      var flushed := Flushed(db, open, h - 1, height);
      NextDeletes(db, open, h - 1, flushed, p.batch);
      base, top, m := FlushedPart(db, open, h - 1, h, height, p.written, flushed, p.batch + deletes, n);
      ShortOfBase(db, open, h - 1, flushed, p.batch);
    }
  }

  lemma ShortOfBase(db: DB, open: nat, h: nat, flushed: seq<Write>, batch: seq<Write>)
    requires Pending(db, open, h, flushed, batch)
    ensures |flushed| <= |DeletesFrom(db, open, h)|
  {
  }

  lemma {:induction false} FlushedPart(db: DB, open: nat, base: nat, top: nat, height: nat, written: seq<Write>,
                                       flushed: seq<Write>, batch: seq<Write>, n: nat)
    returns (b: nat, t: nat, m: nat)
    requires open <= base <= top <= base + 1 && Pending(db, open, top, flushed, batch)
    requires SameWithout(AllWritten(db, written), db, flushed)
    requires |written| < n <= |written| + |batch| + 1
    ensures b == base && t == top && m == |flushed| + n - |written| - 1
    ensures var ws := written + FlushWrites(base, height, batch);
            && IsCut(db, open, top, height, AllWritten(db, ws[..n]), base, top, m)
            && (ws[n - 1].Set? ==> m == |flushed|)
            && (ws[n - 1].Delete? ==> m > 0 && ws[n - 1] == DeletesFrom(db, open, top)[m - 1])
  {
    hide AllWritten, SameWithout, Keys, DeletesFrom;
    var k := n - |written|;
    b, t, m := base, top, |flushed| + k - 1;
    var ws := written + FlushWrites(base, height, batch);
    assert ws[..n] == written + FlushWrites(base, height, batch)[..k];
    ThenWritten(db, written, FlushWrites(base, height, batch)[..k]);
    AllPending(db, open, top, flushed, batch);
    FlushCut(db, open, top, AllWritten(db, written), flushed, batch, base, height, k);
    assert k > 1 ==> ws[n - 1] == batch[k - 2] == (flushed + batch)[m - 1];
  }

  lemma {:induction false} Cut(db: DB, open: nat, to: nat, height: nat, n: nat) returns (base: nat, top: nat, m: nat)
    requires open <= to && 0 < n <= |PruneWrites(db, open, to, height)|
    ensures var ws := PruneWrites(db, open, to, height);
            && IsCut(db, open, to, height, AllWritten(db, ws[..n]), base, top, m)
            && LastWrite(db, open, ws[n - 1], base, top, m)
    ensures n == |PruneWrites(db, open, to, height)| ==>
              base == top == to && m == |DeletesFrom(db, open, to)|
  {
    hide AllWritten, DeletesAt, SameWithout, Keys, Pending, Pruning;
    var p, ws := Pruning(db, open, to, height), PruneWrites(db, open, to, height);
    if n <= |p.written| {
      base, top, m := WrittenCut(db, open, to, height, n);
      assert ws[..n] == p.written[..n];
    } else {
      var flushed := Flushed(db, open, to, height);
      base, top, m := FlushedPart(db, open, to, to, height, p.written, flushed, p.batch, n);
      AllPending(db, open, to, flushed, p.batch);
    }
  }

  // ----- what it holds

  /** What the prune began with. */
  ghost predicate Before(db: DB, saved: map<nat, Block>, base: nat, height: nat, junk: set<nat>, open: nat, to: nat) {
    Holds(db, saved, base, height, junk) && Descriptor(db) == (open, height) && 1 <= open <= to <= height
  }

  lemma {:induction false} KeyStays(db: DB, open: nat, to: nat, height: nat, after: DB, base: nat, top: nat, m: nat,
                                    k: Key)
    requires IsCut(db, open, to, height, after, base, top, m) && k != StateKey && !Within(db, open, top, k)
    ensures (k in after <==> k in db) && (k in db ==> after[k] == db[k])
  {
    hide DeletesFrom, Within;
    PrefixKeys(DeletesFrom(db, open, top), m);
    DeletedKeys(db, open, top, k);
  }

  lemma PrefixKeys(ws: seq<Write>, m: nat)
    requires m <= |ws|
    ensures Keys(ws[..m]) <= Keys(ws)
  {
  }

  lemma HashStays(db: DB, saved: map<nat, Block>, base: nat, height: nat, junk: set<nat>, open: nat, to: nat, top: nat,
                  h: nat)
    requires Before(db, saved, base, height, junk, open, to) && top <= h <= height && base <= h
    ensures h in saved && !Within(db, open, top, HashKey(saved[h].hash))
  {
    var hash := saved[h].hash;
    forall g | open <= g < top ensures !HasMeta(db, g, hash) {
      if g >= base {
        assert HasBlock(db, g, saved[g]);
      }
    }
  }

  lemma {:induction false} BlockHeld(db: DB, saved: map<nat, Block>, base: nat, height: nat, junk: set<nat>, open: nat,
                                     to: nat, after: DB, b: nat, top: nat, m: nat, h: nat)
    requires Before(db, saved, base, height, junk, open, to) && IsCut(db, open, to, height, after, b, top, m)
    requires base <= h && top <= h <= height
    ensures h in saved && HasBlock(after, h, saved[h]) && (h < height ==> HasCommit(after, saved, h))
  {
    HashStays(db, saved, base, height, junk, open, to, top, h);
    assert HasBlock(db, h, saved[h]);
    assert h < height ==> HasCommit(db, saved, h);
    hide IsCut, Holds;
    KeyStays(db, open, to, height, after, b, top, m, MetaKey(h));
    KeyStays(db, open, to, height, after, b, top, m, HashKey(saved[h].hash));
    KeyStays(db, open, to, height, after, b, top, m, SeenKey(h));
    KeyStays(db, open, to, height, after, b, top, m, CommitKey(h));
    forall i | 0 <= i < |saved[h].parts| ensures Has(after, PartKey(h, i), Part(saved[h].parts[i])) {
      KeyStays(db, open, to, height, after, b, top, m, PartKey(h, i));
    }
  }

  lemma {:induction false} DeletesExtend(db: DB, open: nat, h: nat)
    requires open <= h
    ensures DeletesFrom(db, open, h + 1) == DeletesFrom(db, open, h) + DeletesAt(db, h)
  {
  }

  /** A stop before the deletes of the base block is a stop of a prune that ends there. */
  lemma ShortCut(db: DB, open: nat, to: nat, height: nat, after: DB, base: nat, top: nat, m: nat)
    requires IsCut(db, open, to, height, after, base, top, m) && m <= |DeletesFrom(db, open, base)|
    ensures IsCut(db, open, to, height, after, base, base, m)
  {
    hide DeletesAt, Keys, DeletesFrom;
    DeletesExtend(db, open, base);
    assert DeletesFrom(db, open, top)[..m] == DeletesFrom(db, open, base)[..m];
  }

  /** Any other stop is past the delete of its meta. */
  lemma MetaGone(db: DB, open: nat, to: nat, height: nat, after: DB, base: nat, top: nat, m: nat)
    requires IsCut(db, open, to, height, after, base, top, m) && m > |DeletesFrom(db, open, base)|
    ensures MetaKey(base) in db && MetaKey(base) !in after
    ensures DeletesFrom(db, open, top)[m - 1] in DeletesAt(db, base)
  {
    hide DeletesFrom, Keys;
    DeletesExtend(db, open, base);
    var d, i := DeletesFrom(db, open, top), |DeletesFrom(db, open, base)|;
    assert d[..m][i] == DeletesAt(db, base)[0] == Delete(MetaKey(base));
    KeyOf(d[..m], i);
    assert d[m - 1] == DeletesAt(db, base)[m - 1 - i];
  }

  lemma KeyOf(ws: seq<Write>, i: nat)
    requires i < |ws|
    ensures ws[i].key in Keys(ws)
  {
  }

  /** The lowest height held, under a descriptor with this base. */
  function Lowest(db: DB, base: nat): nat {
    if MetaKey(base) in db then base else base + 1
  }

  /** What is below the new base and has not been deleted. */
  function Remaining(db: DB, junk: set<nat>, base: nat, newBase: nat): set<nat> {
    (set h | h in junk && MetaKey(h) in db) + (set h: nat | base <= h < newBase && MetaKey(h) in db)
  }

  lemma {:induction false} MetaAfter(db: DB, open: nat, to: nat, height: nat, after: DB, base: nat, top: nat, m: nat,
                                     h: nat)
    requires IsCut(db, open, to, height, after, base, top, m)
    ensures MetaKey(h) in after ==> MetaKey(h) in db && after[MetaKey(h)] == db[MetaKey(h)]
  {
  }

  lemma {:induction false} LowestIs(db: DB, saved: map<nat, Block>, base: nat, height: nat, junk: set<nat>, open: nat,
                                    to: nat, after: DB, b: nat, top: nat, m: nat)
    requires Before(db, saved, base, height, junk, open, to) && IsCut(db, open, to, height, after, b, top, m)
    ensures var low := Lowest(after, b);
            && base <= low <= height && Opens(after, low, height)
            && (m <= |DeletesFrom(db, open, b)| ==> IsCut(db, open, to, height, after, b, b, m) && b <= low)
            && (m > |DeletesFrom(db, open, b)| ==> low == top)
  {
    hide DeletesFrom, Keys, HasBlock, HasCommit;
    if m <= |DeletesFrom(db, open, b)| {
      ShortCut(db, open, to, height, after, b, top, m);
      MetaAfter(db, open, to, height, after, b, top, m, b);
      if b >= base {
        BlockHeld(db, saved, base, height, junk, open, to, after, b, b, m, b);
        HeldHasMeta(after, b, saved[b]);
      }
    } else {
      MetaGone(db, open, to, height, after, b, top, m);
    }
  }

  lemma HeldHasMeta(db: DB, h: nat, b: Block)
    requires HasBlock(db, h, b)
    ensures MetaKey(h) in db && db[MetaKey(h)].Meta?
  {
  }

  /** The blocks above the base are all held, and the base as well unless it is gone. */
  lemma {:induction false} CutHolds(db: DB, saved: map<nat, Block>, base: nat, height: nat, junk: set<nat>, open: nat,
                                    to: nat, after: DB, b: nat, top: nat, m: nat)
    requires Before(db, saved, base, height, junk, open, to) && IsCut(db, open, to, height, after, b, top, m)
    ensures var low := Lowest(after, b); Holds(after, saved, low, height, Remaining(after, junk, base, low))
  {
    LowestIs(db, saved, base, height, junk, open, to, after, b, top, m);
    hide DeletesFrom, Keys, HasBlock, HasCommit, IsCut, Descriptor;
    var low := Lowest(after, b);
    var t := if m <= |DeletesFrom(db, open, b)| then b else top;
    forall h | low <= h <= height
      ensures h in saved && HasBlock(after, h, saved[h]) && (h < height ==> HasCommit(after, saved, h))
    {
      BlockHeld(db, saved, base, height, junk, open, to, after, b, t, m, h);
    }
    var left := Remaining(after, junk, base, low);
    forall h: nat ensures MetaKey(h) in after && h < low <==> h in left
                  ensures h in left ==> after[MetaKey(h)].Meta?
    {
      MetaAfter(db, open, to, height, after, b, top, m, h);
      if base <= h < low {
        HeldHasMeta(db, h, saved[h]);
      }
    }
  }

  // ----- the base is gone exactly when the last write is a delete of it

  lemma {:induction false} BaseGoneIff(db: DB, saved: map<nat, Block>, base: nat, height: nat, junk: set<nat>,
                                       open: nat, to: nat, n: nat)
    requires Before(db, saved, base, height, junk, open, to) && 0 < n <= |PruneWrites(db, open, to, height)|
    ensures var ws := PruneWrites(db, open, to, height);
            var after := AllWritten(db, ws[..n]);
            var b := Descriptor(after).0;
            && Descriptor(after) == (b, height) && open <= b <= to
            && (Load(after, b) == NoBlock <==> b < base || ws[n - 1] in DeletesAt(db, b))
  {
    hide AllWritten, PruneWrites, DeletesFrom, DeletesAt, Keys;
    var ws := PruneWrites(db, open, to, height);
    var after := AllWritten(db, ws[..n]);
    var b, top, m := Cut(db, open, to, height, n);
    assert Descriptor(after) == (b, height);
    if m <= |DeletesFrom(db, open, b)| {
      ShortCut(db, open, to, height, after, b, top, m);
      NotOfBase(db, saved, base, height, junk, open, to, ws[n - 1], b, top, m);
      MetaAfter(db, open, to, height, after, b, top, m, b);
      if b >= base {
        BlockHeld(db, saved, base, height, junk, open, to, after, b, b, m, b);
        HeldHasMeta(after, b, saved[b]);
      }
    } else {
      MetaGone(db, open, to, height, after, b, top, m);
    }
  }

  /** A delete of a lower height is not one of the base block. */
  lemma {:induction false} NotOfBase(db: DB, saved: map<nat, Block>, base: nat, height: nat, junk: set<nat>, open: nat,
                                     to: nat, w: Write, b: nat, top: nat, m: nat)
    requires Before(db, saved, base, height, junk, open, to) && open <= b <= top <= b + 1 && top <= to
    requires m <= |DeletesFrom(db, open, b)| && m <= |DeletesFrom(db, open, top)| && LastWrite(db, open, w, b, top, m)
    ensures w !in DeletesAt(db, b)
  {
    hide Before, Within, DeletesFrom, DeletesAt, Keys;
    AreDeletes(db, b);
    DeletesExtend(db, open, b);
    var lower := DeletesFrom(db, open, b);
    forall v | v in lower ensures v !in DeletesAt(db, b) {
      AllKeys(lower);
      AllKeys(DeletesAt(db, b));
      DeletedKeys(db, open, b, v.key);
      Apart(db, saved, base, height, junk, open, to, b, v.key);
      DeletedThere(db, b, v.key);
    }
    assert w.Delete? ==> w == lower[m - 1];
  }

  lemma AllKeys(ws: seq<Write>)
    ensures forall w :: w in ws ==> w.key in Keys(ws)
  {
  }

  lemma DeletedThere(db: DB, h: nat, k: Key)
    ensures k in Keys(DeletesAt(db, h)) ==> Within(db, h, h + 1, k)
  {
    hide Within, DeletesAt;
    if k in Keys(DeletesAt(db, h)) {
      DeletedAt(db, h, k);
    }
  }

  lemma Apart(db: DB, saved: map<nat, Block>, base: nat, height: nat, junk: set<nat>, open: nat, to: nat, b: nat,
              k: Key)
    requires Before(db, saved, base, height, junk, open, to) && open <= b <= to && Within(db, open, b, k)
    ensures !Within(db, b, b + 1, k)
  {
    hide Before;
    if k.HashKey? && HasMeta(db, b, k.hash) {
      HashOfOne(db, saved, base, height, junk, open, to, b, k.hash);
    }
  }

  lemma HashOfOne(db: DB, saved: map<nat, Block>, base: nat, height: nat, junk: set<nat>, open: nat, to: nat, b: nat,
                  hash: nat)
    requires Before(db, saved, base, height, junk, open, to) && open <= b <= to && HasMeta(db, b, hash)
    ensures !Within(db, open, b, HashKey(hash))
  {
    assert b >= base;
    assert HasBlock(db, b, saved[b]);
    HashStays(db, saved, base, height, junk, open, to, b, b);
  }
}
