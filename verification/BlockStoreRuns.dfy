/** The block store over any run of saves and prunes, each of which may be cut short. */
module BlockStoreRuns {
  import opened BlockStore
  import opened BlockStoreProofs
  import opened BlockPruning

  datatype Op = Save(block: Block, stop: nat) | Prune(to: int, stop: nat)

  /** `base` is the lowest height held; `junk` are the heights below it that are left. */
  datatype Snap = Snap(db: DB, saved: map<nat, Block>, base: nat, height: nat, junk: set<nat>)

  function Upto(ws: seq<Write>, stop: nat): seq<Write> {
    if stop < |ws| then ws[..stop] else ws
  }

  predicate Prunes(s: Snap, to: int) {
    0 < to && Descriptor(s.db).0 <= to <= s.height
  }

  /** One operation; if it is stopped short the store is opened again. */
  function Step(s: Snap, op: Op): Snap
    requires op.Save? ==> op.block.height > 0
  {
    var open := Descriptor(s.db).0;
    match op
    case Save(b, stop) =>
      var ws := SaveWrites(b, open);
      if open > 0 && b.height != s.height + 1 then s
      else if stop < |ws| then s.(db := AllWritten(s.db, ws[..stop]), junk := Left(s.base, s.junk, b, stop))
      else
        Snap(AllWritten(s.db, ws), s.saved[b.height := b], if s.base == 0 then b.height else s.base, b.height,
             Below(s.base, s.junk, b))
    case Prune(to, stop) =>
      if !Prunes(s, to) then s
      else
        var after := AllWritten(s.db, Upto(PruneWrites(s.db, open, to, s.height), stop));
        var low := Lowest(after, Descriptor(after).0);
        s.(db := after, base := low, junk := Remaining(after, s.junk, s.base, low))
  }

  /** Distinct blocks have distinct hashes. */
  ghost predicate Usual(s: Snap, op: Op) {
    op.Save? ==> op.block.height > 0 && forall h :: h in s.saved ==> s.saved[h].hash != op.block.hash
  }

  ghost predicate StepAt(snaps: seq<Snap>, ops: seq<Op>, i: nat)
    requires i < |ops| < |snaps|
  {
    Usual(snaps[i], ops[i]) && snaps[i + 1] == Step(snaps[i], ops[i])
  }

  ghost predicate IsRun(snaps: seq<Snap>, ops: seq<Op>) {
    && |snaps| == |ops| + 1 && snaps[0] == Snap(map[], map[], 0, 0, {})
    && forall i :: 0 <= i < |ops| ==> StepAt(snaps, ops, i)
  }

  ghost predicate Good(s: Snap) {
    Holds(s.db, s.saved, s.base, s.height, s.junk)
  }

  lemma {:induction false} SaveStep(s: Snap, b: Block, stop: nat)
    requires Usual(s, Save(b, stop)) && Good(s)
    ensures Good(Step(s, Save(b, stop)))
  {
    var open := Descriptor(s.db).0;
    if open == 0 || b.height == s.height + 1 {
      hide AllWritten, HasBlock, SaveWrites, Descriptor;
      var ws := SaveWrites(b, open);
      SaveHolds(s.db, s.saved, s.base, s.height, s.junk, b, if stop < |ws| then stop else |ws|);
      assert ws[..|ws|] == ws;
    }
  }

  /** Nothing written, nothing changed. */
  lemma NotBegun(s: Snap)
    requires Good(s) && s.height > 0
    ensures Lowest(s.db, Descriptor(s.db).0) == s.base && Remaining(s.db, s.junk, s.base, s.base) == s.junk
  {
    assert HasBlock(s.db, s.base, s.saved[s.base]);
  }

  lemma {:induction false} PruneStep(s: Snap, to: int, stop: nat)
    requires Good(s)
    ensures Good(Step(s, Prune(to, stop)))
  {
    var open := Descriptor(s.db).0;
    if Prunes(s, to) {
      assert Before(s.db, s.saved, s.base, s.height, s.junk, open, to);
      var ws := PruneWrites(s.db, open, to, s.height);
      hide PruneWrites, Holds, AllWritten, Descriptor;
      var n := if stop < |ws| then stop else |ws|;
      assert Upto(ws, stop) == ws[..n] by { assert ws[..|ws|] == ws; }
      if n == 0 {
        NotBegun(s);
        TwoWritten(s.db, [], Delete(StateKey), Delete(StateKey));
      } else {
        var b, top, m := Cut(s.db, open, to, s.height, n);
        CutDescribed(s.db, open, to, s.height, AllWritten(s.db, ws[..n]), b, top, m);
        CutHolds(s.db, s.saved, s.base, s.height, s.junk, open, to, AllWritten(s.db, ws[..n]), b, top, m);
      }
    }
  }

  lemma CutDescribed(db: DB, open: nat, to: nat, height: nat, after: DB, base: nat, top: nat, m: nat)
    requires IsCut(db, open, to, height, after, base, top, m) && 1 <= open
    ensures Descriptor(after) == (base, height)
  {
  }

  lemma {:induction false} StepHolds(s: Snap, op: Op)
    requires Usual(s, op) && Good(s)
    ensures Good(Step(s, op))
  {
    hide Good, Step, Usual;
    match op {
      case Save(b, stop) => SaveStep(s, b, stop);
      case Prune(to, stop) => PruneStep(s, to, stop);
    }
  }

  /** After any saves and prunes, finished or cut short at any write, opening the store again
      finds a contiguous run of blocks up to its height, from its base or the block above. */
  lemma {:induction false} AlwaysHolds(snaps: seq<Snap>, ops: seq<Op>, i: nat)
    requires IsRun(snaps, ops) && i < |snaps|
    ensures var s := snaps[i]; Holds(s.db, s.saved, s.base, s.height, s.junk)
  {
    hide Step, Usual, HasBlock;
    if i > 0 {
      AlwaysHolds(snaps, ops, i - 1);
      assert StepAt(snaps, ops, i - 1);
      StepHolds(snaps[i - 1], ops[i - 1]);
    }
  }

  // ----- what a prune leaves below the base

  /** Every pruned height's meta is among the deletes. */
  lemma {:induction false} MetaDeleted(db: DB, base: nat, to: nat, h: nat)
    requires base <= h < to && MetaKey(h) in db && db[MetaKey(h)].Meta?
    ensures MetaKey(h) in Keys(DeletesFrom(db, base, to))
  {
    if h == to - 1 {
      assert Delete(MetaKey(h)) in DeletesAt(db, h);
      assert Delete(MetaKey(h)) in DeletesFrom(db, base, to);
    } else {
      hide DeletesAt;
      MetaDeleted(db, base, to - 1, h);
      var w :| w in DeletesFrom(db, base, to - 1) && w.key == MetaKey(h);
      assert w in DeletesFrom(db, base, to);
    }
  }

  /** All of its writes make the store that PruneBlocks leaves. */
  lemma {:induction false} FinishedIs(s: Snap, open: nat, to: nat)
    requires Before(s.db, s.saved, s.base, s.height, s.junk, open, to)
    ensures AllWritten(s.db, PruneWrites(s.db, open, to, s.height)) == Pruned(s.db, open, to, s.height)
    ensures Lowest(Pruned(s.db, open, to, s.height), to) == if to < s.base then s.base else to
  {
    hide PruneWrites, AllWritten, DeletesFrom, Keys, HasBlock, Before;
    var ws := PruneWrites(s.db, open, to, s.height);
    OneFlush(s.db, open, to, s.height);
    BeforeIs(s, open, to);
    var b, top, m := Cut(s.db, open, to, s.height, |ws|);
    assert ws[..|ws|] == ws;
    var d := DeletesFrom(s.db, open, to);
    assert d[..|d|] == d;
    LowestIs(s.db, s.saved, s.base, s.height, s.junk, open, to, AllWritten(s.db, ws), b, top, m);
    if to >= s.base {
      BlockHeld(s.db, s.saved, s.base, s.height, s.junk, open, to, AllWritten(s.db, ws), b, top, m, to);
      HeldHasMeta(AllWritten(s.db, ws), to, s.saved[to]);
    }
  }

  lemma OneFlush(db: DB, open: nat, to: nat, height: nat)
    ensures Pruning(db, open, to, height).written < PruneWrites(db, open, to, height)
  {
  }

  lemma BeforeIs(s: Snap, open: nat, to: nat)
    requires Before(s.db, s.saved, s.base, s.height, s.junk, open, to)
    ensures open <= to <= s.height && open <= s.base <= open + 1
  {
  }

  /** A finished prune holds from the height it was asked to keep, and adds nothing to what was
      left. */
  lemma {:induction false} FinishedPrune(s: Snap, to: int, stop: nat)
    requires Good(s) && Prunes(s, to)
    requires stop >= |PruneWrites(s.db, Descriptor(s.db).0, to, s.height)|
    ensures var s' := Step(s, Prune(to, stop));
            && s'.db == Pruned(s.db, Descriptor(s.db).0, to, s.height)
            && s'.base == (if to < s.base then s.base else to) && s'.junk == s.junk
  {
    var open := Descriptor(s.db).0;
    assert Before(s.db, s.saved, s.base, s.height, s.junk, open, to);
    hide PruneWrites, AllWritten, DeletesFrom, Keys, HasBlock, Holds;
    FinishedIs(s, open, to);
    var after, low := Pruned(s.db, open, to, s.height), if to < s.base then s.base else to;
    assert Descriptor(after) == (to, s.height);
    forall h: nat | h < low ensures MetaKey(h) in after <==> h in s.junk {
      BelowAfter(s, open, to, h);
    }
    JunkBelow(s);
    assert Remaining(after, s.junk, s.base, low) == s.junk;
  }

  lemma JunkBelow(s: Snap)
    requires Good(s) && s.base > 0
    ensures forall h :: h in s.junk ==> h < s.base
  {
  }

  lemma {:induction false} BelowAfter(s: Snap, open: nat, to: nat, h: nat)
    requires Before(s.db, s.saved, s.base, s.height, s.junk, open, to) && h < if to < s.base then s.base else to
    ensures MetaKey(h) in Pruned(s.db, open, to, s.height) <==> h in s.junk
  {
    hide DeletesFrom, Keys;
    DeletedKeys(s.db, open, to, MetaKey(h));
    if s.base <= h {
      HeldHasMeta(s.db, h, s.saved[h]);
      MetaDeleted(s.db, open, to, h);
    }
  }

  /** Saves of a first block that were cut short after a write. */
  predicate CutShort(snaps: seq<Snap>, ops: seq<Op>, j: nat)
    requires j < |ops| < |snaps|
  {
    snaps[j].base == 0 && ops[j].Save? && ops[j].stop > 0
  }

  /** Prunes that were cut short. */
  predicate Interrupted(s: Snap, op: Op) {
    op.Prune? && Prunes(s, op.to) && op.stop < |PruneWrites(s.db, Descriptor(s.db).0, op.to, s.height)|
  }

  /** Once there is a block, the base does not fall and what is left stays; only a prune that is
      cut short leaves more. */
  lemma {:induction false} StepLeaves(s: Snap, op: Op)
    requires Usual(s, op) && Good(s) && s.base > 0
    ensures var s' := Step(s, op);
            s'.base >= s.base && s.junk <= s'.junk && (!Interrupted(s, op) ==> s'.junk == s.junk)
  {
    if op.Save? {
      hide AllWritten, SaveWrites;
    } else if Prunes(s, op.to) {
      if Interrupted(s, op) {
        InterruptedLeaves(s, op.to, op.stop);
      } else {
        hide AllWritten, PruneWrites, Holds, Pruned;
        FinishedPrune(s, op.to, op.stop);
      }
    }
  }

  lemma BaseStays(s: Snap, op: Op)
    requires Usual(s, op) && Good(s)
    ensures s.base > 0 ==> Step(s, op).base > 0
  {
    hide Step, Usual, Good;
    if s.base > 0 {
      StepLeaves(s, op);
    }
  }

  lemma {:induction false} InterruptedLeaves(s: Snap, to: int, stop: nat)
    requires Good(s) && Interrupted(s, Prune(to, stop))
    ensures var s' := Step(s, Prune(to, stop)); s'.base >= s.base && s.junk <= s'.junk
  {
    var open := Descriptor(s.db).0;
    assert Before(s.db, s.saved, s.base, s.height, s.junk, open, to);
    var ws := PruneWrites(s.db, open, to, s.height);
    hide PruneWrites, AllWritten, DeletesFrom, Keys, HasBlock, Holds, Descriptor, IsCut, Before;
    if stop == 0 {
      NotBegun(s);
      TwoWritten(s.db, [], Delete(StateKey), Delete(StateKey));
    } else {
      var after := AllWritten(s.db, ws[..stop]);
      var b, top, m := Cut(s.db, open, to, s.height, stop);
      CutDescribed(s.db, open, to, s.height, after, b, top, m);
      LowestIs(s.db, s.saved, s.base, s.height, s.junk, open, to, after, b, top, m);
      JunkKept(s, open, to, after, b, top, m);
    }
  }

  lemma {:induction false} JunkKept(s: Snap, open: nat, to: nat, after: DB, b: nat, top: nat, m: nat)
    requires Before(s.db, s.saved, s.base, s.height, s.junk, open, to)
    requires IsCut(s.db, open, to, s.height, after, b, top, m)
    ensures forall h :: h in s.junk ==> MetaKey(h) in after
  {
    hide IsCut, HasBlock;
    forall h | h in s.junk ensures MetaKey(h) in after {
      KeyStays(s.db, open, to, s.height, after, b, top, m, MetaKey(h));
    }
  }

  /** Before there is a block. */
  lemma {:induction false} JunkIs(snaps: seq<Snap>, ops: seq<Op>, i: nat)
    requires IsRun(snaps, ops) && i < |snaps| && snaps[i].base == 0
    ensures forall h :: h in snaps[i].junk <==>
              exists j :: 0 <= j < i && CutShort(snaps, ops, j) && ops[j].block.height == h
  {
    if i > 0 {
      assert StepAt(snaps, ops, i - 1);
      AlwaysHolds(snaps, ops, i - 1);
      BaseStays(snaps[i - 1], ops[i - 1]);
      JunkIs(snaps, ops, i - 1);
      EmptyStep(snaps[i - 1], ops[i - 1]);
      hide Step, IsRun, Holds, Usual;
      assert CutShort(snaps, ops, i - 1) ==> ops[i - 1].block.height in snaps[i].junk;
    }
  }

  lemma EmptyStep(s: Snap, op: Op)
    requires Usual(s, op) && Good(s) && s.base == 0
    ensures var s' := Step(s, op);
            if s'.base == 0 then s'.junk == s.junk + (if op.Save? && op.stop > 0 then {op.block.height} else {})
            else op.Save? && s'.base == op.block.height && s'.junk == set h | h in s.junk && h < s'.base
  {
    hide AllWritten, SaveWrites, PruneWrites;
  }

  /** Nothing is left below the first block exactly when no save that was cut short before it
      was of a lower height. */
  lemma {:induction false} NothingLeftIff(snaps: seq<Snap>, ops: seq<Op>, i: nat)
    requires IsRun(snaps, ops) && i < |ops| && snaps[i].base == 0 && snaps[i + 1].base > 0
    ensures snaps[i + 1].junk == {} <==>
            forall j :: 0 <= j < i && CutShort(snaps, ops, j) ==> ops[j].block.height >= snaps[i + 1].base
  {
    assert StepAt(snaps, ops, i);
    JunkIs(snaps, ops, i);
    AlwaysHolds(snaps, ops, i);
    EmptyStep(snaps[i], ops[i]);
    hide IsRun, Holds, Step, Usual;
    var junk, base := snaps[i].junk, snaps[i + 1].base;
    forall j | 0 <= j < i && CutShort(snaps, ops, j) && ops[j].block.height < base ensures snaps[i + 1].junk != {} {
      assert ops[j].block.height in snaps[i + 1].junk;
    }
    if snaps[i + 1].junk != {} {
      var h :| h in snaps[i + 1].junk;
      assert h in junk;
    }
  }

  /** And from then on what is left stays, and grows only with a prune that is cut short. */
  lemma {:induction false} JunkStays(snaps: seq<Snap>, ops: seq<Op>, i: nat, j: nat)
    requires IsRun(snaps, ops) && i <= j < |snaps| && snaps[i].base > 0
    ensures snaps[j].base >= snaps[i].base && snaps[i].junk <= snaps[j].junk
    ensures (forall k :: i <= k < j ==> !Interrupted(snaps[k], ops[k])) ==> snaps[j].junk == snaps[i].junk
  {
    if i < j {
      hide Step, Holds, Interrupted;
      JunkStays(snaps, ops, i, j - 1);
      AlwaysHolds(snaps, ops, j - 1);
      assert StepAt(snaps, ops, j - 1);
      StepLeaves(snaps[j - 1], ops[j - 1]);
    }
  }

  /** A first save cut short after its first write, then one of a greater height: the store
      begins at the second, and still answers for the first. */
  lemma {:induction false} LeftBelow(b: Block, c: Block) returns (snaps: seq<Snap>, ops: seq<Op>)
    requires 0 < b.height < c.height && b.hash != c.hash
    ensures ops == [Save(b, 1), Save(c, |SaveWrites(c, 0)|)] && IsRun(snaps, ops)
    ensures snaps[2].base == c.height && b.height < snaps[2].base && Load(snaps[2].db, b.height) != NoBlock
  {
    ops := [Save(b, 1), Save(c, |SaveWrites(c, 0)|)];
    var start := Snap(map[], map[], 0, 0, {});
    WritesAre(b);
    hide AllWritten, BlockWrites;
    var first := Step(start, ops[0]);
    var second := Step(first, ops[1]);
    snaps := [start, first, second];
    assert StepAt(snaps, ops, 0) && StepAt(snaps, ops, 1);
    AlwaysHolds(snaps, ops, 2);
    assert b.height in second.junk;
    LoadsSaved(second.db, second.saved, second.base, second.height, second.junk, b.height);
  }

  // ----- a base that is gone

  /** Every block of the store is counted, and none is flushed before the thousandth. */
  lemma {:induction false} Counted(s: Snap, k: nat)
    requires Good(s) && 1 <= s.base == Descriptor(s.db).0 && s.base + k <= s.height && k < 1000
    ensures Pruning(s.db, s.base, s.base + k, s.height) ==
            Progress([], DeletesFrom(s.db, s.base, s.base + k), k)
  {
    if k > 0 {
      Counted(s, k - 1);
      var h := s.base + k - 1;
      HeldHasMeta(s.db, h, s.saved[h]);
      hide Holds;
    }
  }

  /** Pruning a thousand blocks, stopped after the first flush: the base is the block just
      deleted. */
  lemma {:induction false} FlushLosesBase(s: Snap, stop: nat)
    requires Good(s) && 1 <= s.base == Descriptor(s.db).0 && s.base + 1000 <= s.height
    requires stop == |Pruning(s.db, s.base, s.base + 1000, s.height).written|
    ensures var s' := Step(s, Prune(s.base + 1000, stop));
            var base := s.base + 999;
            && Descriptor(s'.db) == (base, s.height) && Load(s'.db, base) == NoBlock && s'.base == base + 1
  {
    var to, h := s.base + 1000, s.base + 999;
    FirstFlush(s);
    var ws := PruneWrites(s.db, s.base, to, s.height);
    assert Before(s.db, s.saved, s.base, s.height, s.junk, s.base, to);
    hide PruneWrites, DeletesFrom, DeletesAt, Pruning, AllWritten, Before;
    BaseGoneIff(s.db, s.saved, s.base, s.height, s.junk, s.base, to, stop);
    PruneStep(s, to, stop);
    var s' := Step(s, Prune(to, stop));
    if s'.base == h {
      HeldHasMeta(s'.db, h, s'.saved[h]);
    }
  }

  lemma {:induction false} FirstFlush(s: Snap)
    requires Good(s) && 1 <= s.base == Descriptor(s.db).0 && s.base + 1000 <= s.height
    ensures var to, h := s.base + 1000, s.base + 999;
            var ws, stop := PruneWrites(s.db, s.base, to, s.height), |Pruning(s.db, s.base, to, s.height).written|;
            && 0 < stop < |ws| && ws[stop - 1] in DeletesAt(s.db, h)
            && Descriptor(AllWritten(s.db, ws[..stop])) == (h, s.height)
  {
    hide Holds, AllWritten, Pruning, Descriptor, DeletesFrom, DeletesAt, FlushWrites;
    var to, h := s.base + 1000, s.base + 999;
    Counted(s, 999);
    HasDeletes(s, h);
    var batch := DeletesFrom(s.db, s.base, h);
    var deletes, flush := DeletesAt(s.db, h), Pruning(s.db, s.base, to, s.height).written;
    Thousandth(s.db, s.base, h, s.height, batch);
    LastOf(h, s.height, batch, deletes);
    var flushed := Flushed(s.db, s.base, h, s.height);
    AreDeletes(s.db, h);
    FlushDescribes(s.db, h, s.height, batch + deletes);
    OneFlush(s.db, s.base, to, s.height);
    assert PruneWrites(s.db, s.base, to, s.height)[..|flush|] == flush;
  }

  lemma HasDeletes(s: Snap, h: nat)
    requires Good(s) && 1 <= s.base <= h <= s.height
    ensures |DeletesAt(s.db, h)| > 0
  {
    HeldHasMeta(s.db, h, s.saved[h]);
  }

  lemma Thousandth(db: DB, open: nat, h: nat, height: nat, batch: seq<Write>)
    requires open <= h && Pruning(db, open, h, height) == Progress([], batch, 999) && |DeletesAt(db, h)| > 0
    ensures Pruning(db, open, h + 1, height).written == FlushWrites(h, height, batch + DeletesAt(db, h))
  {
    hide DeletesAt;
    var ws := FlushWrites(h, height, batch + DeletesAt(db, h));
    assert [] + ws == ws;
  }

  lemma LastOf(base: nat, height: nat, batch: seq<Write>, deletes: seq<Write>)
    requires |deletes| > 0
    ensures var ws := FlushWrites(base, height, batch + deletes); |ws| > 0 && ws[|ws| - 1] in deletes
  {
    var ws := FlushWrites(base, height, batch + deletes);
    assert ws[|ws| - 1] == deletes[|deletes| - 1];
  }

  lemma FlushDescribes(db: DB, base: nat, height: nat, batch: seq<Write>)
    requires IsDeletes(batch) && 1 <= base
    ensures Descriptor(AllWritten(db, FlushWrites(base, height, batch))) == (base, height)
  {
    hide AllWritten;
    var first := Set(StateKey, State(base, height));
    assert FlushWrites(base, height, batch) == [first] + batch;
    ThenWritten(db, [first], batch);
    assert [] + [first] == [first];
    OneWritten(db, [], first);
    TwoWritten(db, [], first, first);
    SameDescriptor(AllWritten(db, [first]), batch);
  }

  /** Some run saves k blocks. */
  lemma {:induction false} Grown(k: nat) returns (snaps: seq<Snap>, ops: seq<Op>)
    ensures IsRun(snaps, ops) && |ops| == k
    ensures var s := snaps[k]; s.height == k && (k > 0 ==> s.base == 1) && Descriptor(s.db) == (s.base, k)
    ensures forall h :: h in snaps[k].saved ==> h <= k && snaps[k].saved[h].hash == h
  {
    if k == 0 {
      snaps, ops := [Snap(map[], map[], 0, 0, {})], [];
    } else {
      snaps, ops := Grown(k - 1);
      AlwaysHolds(snaps, ops, k - 1);
      var s, b := snaps[k - 1], Block(k, k, [], 0, 0);
      var op := Save(b, |SaveWrites(b, s.base)|);
      SaveDescribes(s.db, b, s.base);
      hide AllWritten, SaveWrites, Descriptor;
      var more, most := snaps + [Step(s, op)], ops + [op];
      forall i | 0 <= i < k ensures StepAt(more, most, i) {
        assert i < k - 1 ==> StepAt(snaps, ops, i);
      }
      snaps, ops := more, most;
    }
  }

  lemma SaveDescribes(db: DB, b: Block, base: nat)
    requires b.height > 0
    ensures Descriptor(AllWritten(db, SaveWrites(b, base))) == (if base == 0 then b.height else base, b.height)
  {
    OneWritten(db, BlockWrites(b), Set(StateKey, State(if base == 0 then b.height else base, b.height)));
    hide BlockWrites, AllWritten;
  }

  /** So some run leaves a base that is gone: a thousand and one blocks, and a prune of a
      thousand that stops after the first flush. */
  lemma {:induction false} LosesBase() returns (snaps: seq<Snap>, ops: seq<Op>)
    ensures IsRun(snaps, ops) && |ops| > 0
    ensures var s := snaps[|ops|]; Load(s.db, Descriptor(s.db).0) == NoBlock && 1 <= Descriptor(s.db).0 <= s.height
  {
    snaps, ops := Grown(1001);
    var s := snaps[1001];
    AlwaysHolds(snaps, ops, 1001);
    var op := Prune(1001, |Pruning(s.db, 1, 1001, s.height).written|);
    FlushLosesBase(s, op.stop);
    hide Step, Load, Descriptor, Holds;
    var more, most := snaps + [Step(s, op)], ops + [op];
    forall i | 0 <= i < 1002 ensures StepAt(more, most, i) {
      assert i < 1001 ==> StepAt(snaps, ops, i);
    }
    snaps, ops := more, most;
  }
}
