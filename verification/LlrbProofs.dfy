/** Every tree of libs/tree/llrb.go is a balanced search tree of what was inserted and not
    removed. */
module LlrbProofs {
  import opened Common
  import opened TxIterator
  import opened Llrb

  // ----- removing takes out just the key

  ghost predicate Minus(h: Tree, r: Tree, key: NodeKey) {
    forall k, x :: Contains(r, k, x) <==> Contains(h, k, x) && k != key
  }

  lemma MinusLeft(h: Tree, l: Tree, key: NodeKey)
    requires h.Node? && Ordered(h) && Ordered(l) && Minus(h.left, l, key) && key.Less(h.key)
    ensures Ordered(h.(left := l)) && Minus(h, h.(left := l), key)
  {
  }

  lemma MinusRight(h: Tree, r: Tree, key: NodeKey)
    requires h.Node? && Ordered(h) && Ordered(r) && Minus(h.right, r, key) && h.key.Less(key)
    ensures Ordered(h.(right := r)) && Minus(h, h.(right := r), key)
  {
  }

  lemma SameMinus(h: Tree, a: Tree, b: Tree, r: Tree, key: NodeKey)
    requires SameEntries(h, a) && Minus(a, b, key) && SameEntries(b, r)
    ensures Minus(h, r, key)
  {
    hide Contains;
  }

  ghost predicate IsLeast(h: Tree, least: Found) {
    && least.Found? && Contains(h, least.key, least.tx)
    && forall k, x :: Contains(h, k, x) && k != least.key ==> least.key.Less(k)
  }

  lemma {:induction false} DeleteMinTakes(h: Tree)
    requires MinReady(h) && Ordered(h)
    ensures var (r, least) := DeleteMin(h); Ordered(r) && IsLeast(h, least) && Minus(h, r, least.key)
    decreases Size(h)
  {
    if h.left.Leaf? {
      NoBlacks(h.right);
      assert Contains(h, h.key, h.tx) && forall k, x :: Contains(h, k, x) ==> k == h.key;
    } else {
      ToLeftKeeps(h);
      var a := ToLeft(h);
      Subtrees(a);
      DeleteMinTakes(a.left);
      var (l, least) := DeleteMin(a.left);
      MinusLeft(a, l, least.key);
      hide Contains, Ordered, FixUp, ToLeft, MinReady;
      FixUpKeeps(a.(left := l));
      SameMinus(h, a, a.(left := l), FixUp(a.(left := l)), least.key);
      LeastOf(h, a, least);
    }
  }

  lemma LeastOf(h: Tree, a: Tree, least: Found)
    requires SameEntries(h, a) && a.Node? && Ordered(a) && IsLeast(a.left, least)
    ensures IsLeast(h, least)
  {
    Subtrees(a);
    forall k, x | Contains(h, k, x) && k != least.key ensures least.key.Less(k) {
      assert Contains(a, k, x);
      assert k == a.key || Contains(a.left, k, x) || Contains(a.right, k, x);
    }
  }

  /** The least entry on the right takes the place of the deleted one. */
  lemma Promoted(b: Tree, r: Tree, next: Found)
    requires b.Node? && Ordered(b) && Ordered(r) && IsLeast(b.right, next) && Minus(b.right, r, next.key)
    ensures var p := Node(b.left, next.key, next.tx, r, b.black); Ordered(p) && Minus(b, p, b.key)
  {
    var p := Node(b.left, next.key, next.tx, r, b.black);
    forall k, x ensures Contains(p, k, x) <==> Contains(b, k, x) && k != b.key {
      if Contains(b.right, k, x) && k == next.key {
        OneEach(b.right, k, x, next.tx);
      }
    }
  }

  ghost predicate Took(h: Tree, key: NodeKey, deleted: Found) {
    match deleted
    case Nothing => forall k, x :: Contains(h, k, x) ==> k != key
    case Found(k, x) => k == key && Contains(h, k, x)
  }

  ghost predicate Deletes(h: Tree, key: NodeKey)
    requires Ordered(h) && (h.Node? ==> Ready(h, key))
  {
    var (r, deleted) := Delete(h, key);
    Ordered(r) && Minus(h, r, key) && Took(h, key, deleted)
  }

  lemma {:induction false} DeleteTakes(h: Tree, key: NodeKey)
    requires Ordered(h) && (h.Node? ==> Ready(h, key))
    ensures Deletes(h, key)
    decreases Size(h), 1
  {
    if h.Node? {
      if key.Less(h.key) {
        DeletesLeft(h, key);
      } else {
        LeantKeeps(h, key);
        DeletesRight(h, Leant(h), key);
      }
    }
  }

  lemma {:induction false} DeletesLeft(h: Tree, key: NodeKey)
    requires Ordered(h) && h.Node? && Ready(h, key) && key.Less(h.key)
    ensures Deletes(h, key)
    decreases Size(h), 0
  {
    if h.left.Leaf? {
      assert forall k, x :: Contains(h, k, x) ==> k != key;
    } else {
      ToLeftKeeps(h);
      var a := ToLeft(h);
      Subtrees(a);
      DeleteTakes(a.left, key);
      var (l, deleted) := Delete(a.left, key);
      BelowRoot(h, a, key);
      MinusLeft(a, l, key);
      TookLeft(h, a, key, deleted);
      hide Contains, Ordered, FixUp, ToLeft;
      FixUpKeeps(a.(left := l));
      SameMinus(h, a, a.(left := l), FixUp(a.(left := l)), key);
    }
  }

  /** Moving a red link left does not bring the key to the root. */
  lemma BelowRoot(h: Tree, a: Tree, key: NodeKey)
    requires MinReady(h) && h.left.Node? && Ordered(h) && a == ToLeft(h) && key.Less(h.key)
    ensures key.Less(a.key)
  {
    if NeedsLeft(h) {
      LeftReady(h);
      assert IsRed(h.right.left) ==> Contains(h.right, h.right.left.key, h.right.left.tx);
    }
  }

  lemma TookLeft(h: Tree, a: Tree, key: NodeKey, deleted: Found)
    requires SameEntries(h, a) && a.Node? && Ordered(a) && key.Less(a.key) && Took(a.left, key, deleted)
    ensures Took(h, key, deleted)
  {
    Subtrees(a);
    forall k, x | Contains(h, k, x) && deleted.Nothing? ensures k != key {
      assert Contains(a, k, x);
      assert k == a.key || Contains(a.left, k, x) || Contains(a.right, k, x);
    }
  }

  lemma TookRight(h: Tree, a: Tree, key: NodeKey, deleted: Found)
    requires SameEntries(h, a) && a.Node? && Ordered(a) && a.key.Less(key) && Took(a.right, key, deleted)
    ensures Took(h, key, deleted)
  {
    Subtrees(a);
    forall k, x | Contains(h, k, x) && deleted.Nothing? ensures k != key {
      assert Contains(a, k, x);
      assert k == a.key || Contains(a.left, k, x) || Contains(a.right, k, x);
    }
  }

  lemma SameTransitive(a: Tree, b: Tree, c: Tree)
    requires SameEntries(a, b) && SameEntries(b, c)
    ensures SameEntries(a, c)
  {
    hide Contains;
  }

  lemma {:induction false} DeletesRight(h: Tree, a: Tree, key: NodeKey)
    requires Ordered(h) && h.Node? && Ready(h, key) && !key.Less(h.key)
    requires a == Leant(h) && Ordered(a) && SameEntries(h, a) && !key.Less(a.key)
    ensures Deletes(h, key)
    decreases Size(h), 0
  {
    if a.right.Leaf? {
      if key == a.key {
        NoBlacks(a.left);
        assert Contains(a, a.key, a.tx);
      } else {
        TookRight(h, a, key, Nothing);
        MinusRight(a, Leaf, key);
        assert a.(right := Leaf) == a;
        hide Contains, Ordered, FixUp, Leant;
        FixUpKeeps(a);
        SameMinus(h, a, a, FixUp(a), key);
      }
    } else {
      ToRightKeeps(a, key);
      var b := ToRight(a, key);
      SameTransitive(h, a, b);
      Subtrees(b);
      if key == b.key {
        DeleteMinTakes(b.right);
        var (r, next) := DeleteMin(b.right);
        Promoted(b, r, next);
        var p := Node(b.left, next.key, next.tx, r, b.black);
        assert Contains(b, b.key, b.tx);
        hide Contains, Ordered, FixUp, Leant, ToRight;
        FixUpKeeps(p);
        SameMinus(h, b, p, FixUp(p), key);
      } else {
        DeleteTakes(b.right, key);
        var (r, deleted) := Delete(b.right, key);
        MinusRight(b, r, key);
        TookRight(h, b, key, deleted);
        hide Contains, Ordered, FixUp, Leant, ToRight;
        FixUpKeeps(b.(right := r));
        SameMinus(h, b, b.(right := r), FixUp(b.(right := r)), key);
      }
    }
  }

  // ----- and keeps the shape

  /** A subtree that is red, or has a red link to the left, or to the right where delete goes
      right. */
  predicate Proper(h: Tree) {
    Even(h) && (if IsRed(h) then !IsRed(h.left) && !IsRed(h.right) else IsRed(h.left) != IsRed(h.right))
  }

  ghost predicate Keeps(h: Tree, r: Tree) {
    Sound(r) && Blacks(r) == Blacks(h) && (h.Node? && h.black ==> !IsRed(r))
  }

  lemma FixUpSound(h: Tree)
    requires Even(h) && (IsRed(h) ==> !IsRed(h.left) && !IsRed(h.right))
    ensures Sound(FixUp(h)) && Blacks(FixUp(h)) == Blacks(h)
    ensures IsRed(FixUp(h)) ==> IsRed(h) || (IsRed(h.left) && IsRed(h.right))
  {
    SoundIs(h);
    if h.left.Node? { SoundIs(h.left); PaintIs(h.left, true); SoundIs(h.left.(black := true)); }
    if h.right.Node? { SoundIs(h.right); PaintIs(h.right, true); SoundIs(h.right.(black := true)); }
  }

  lemma ToLeftProper(h: Tree)
    requires Proper(h) && MinReady(h) && h.left.Node?
    ensures var a := ToLeft(h);
            && Proper(a.left) && MinReady(a.left) && Blacks(a) == Blacks(h) && Sound(a.right)
            && Blacks(a.left) == Blacks(a.right) && (h.black ==> a.black && !IsRed(a.right))
            && (IsRed(a) ==> a.left.black && !IsRed(a.right))
  {
    SoundIs(h.left);
    LeftReady(h);
    if NeedsLeft(h) {
      SoundIs(h.right);
      PaintIs(h.left, false);
      PaintIs(h.right, false);
      SoundIs(h.left.(black := false));
      SoundIs(h.right.(black := false));
      if IsRed(h.right.left) {
        SoundIs(h.right.left);
        SoundIs(ToLeft(h).right);
      }
    }
  }

  lemma {:induction false} DeleteMinKeeps(h: Tree)
    requires Proper(h) && MinReady(h)
    ensures Keeps(h, DeleteMin(h).0)
    decreases Size(h)
  {
    if h.left.Leaf? {
      NoBlacks(h.right);
    } else {
      ToLeftProper(h);
      var a := ToLeft(h);
      DeleteMinKeeps(a.left);
      hide Sound, Blacks, ToLeft, FixUp, MinReady, Proper;
      LeftFixed(h, a, DeleteMin(a.left).0);
    }
  }

  lemma LeftFixed(h: Tree, a: Tree, l: Tree)
    requires h.Node? && a.Node? && a.left.Node? && Keeps(a.left, l) && Blacks(a) == Blacks(h) && Sound(a.right)
    requires Blacks(a.left) == Blacks(a.right) && (h.black ==> a.black && !IsRed(a.right))
    requires IsRed(a) ==> a.left.black && !IsRed(a.right)
    ensures Keeps(h, FixUp(a.(left := l)))
  {
    hide Sound, FixUp;
    FixUpSound(a.(left := l));
  }

  lemma ToRightProper(h: Tree, key: NodeKey)
    requires Proper(h) && Ready(h, key) && !key.Less(h.key) && Leant(h).right.Node?
    requires NeedsRight(Leant(h)) ==> !key.Less(Leant(h).key)
    ensures var b := ToRight(Leant(h), key);
            && Proper(b.right) && Blacks(b) == Blacks(h) && Sound(b.left)
            && Blacks(b.left) == Blacks(b.right) && (h.black ==> b.black && !IsRed(b.left))
            && (IsRed(b) ==> b.right.black && !IsRed(b.left))
  {
    if IsRed(h.left) {
      SoundIs(h.left);
    } else {
      SoundIs(h.right);
      RightReady(h, key);
      if NeedsRight(h) {
        SoundIs(h.left);
        PaintIs(h.left, false);
        PaintIs(h.right, false);
        SoundIs(h.left.(black := false));
        SoundIs(h.right.(black := false));
        if IsRed(h.left.left) {
          SoundIs(h.left.left);
          PaintIs(h.left.left, true);
          SoundIs(h.left.left.(black := true));
        }
      }
    }
  }

  lemma RightFixed(h: Tree, b: Tree, r: Tree, p: Tree)
    requires h.Node? && b.Node? && b.right.Node? && Keeps(b.right, r) && Blacks(b) == Blacks(h) && Sound(b.left)
    requires Blacks(b.left) == Blacks(b.right) && (h.black ==> b.black && !IsRed(b.left))
    requires IsRed(b) ==> b.right.black && !IsRed(b.left)
    requires p.Node? && p.left == b.left && p.right == r && p.black == b.black
    ensures Keeps(h, FixUp(p))
  {
    hide Sound, FixUp;
    FixUpSound(p);
  }

  lemma {:induction false} DeleteKeeps(h: Tree, key: NodeKey)
    requires Ordered(h) && (h.Node? ==> Ready(h, key) && Proper(h))
    ensures Keeps(h, Delete(h, key).0)
    decreases Size(h), 1
  {
    if h.Node? {
      if key.Less(h.key) {
        DeleteLeftKeeps(h, key);
      } else {
        LeantKeeps(h, key);
        DeleteRightKeeps(h, Leant(h), key);
      }
    }
  }

  lemma {:induction false} DeleteLeftKeeps(h: Tree, key: NodeKey)
    requires Ordered(h) && h.Node? && Ready(h, key) && Proper(h) && key.Less(h.key)
    ensures Keeps(h, Delete(h, key).0)
    decreases Size(h), 0
  {
    if h.left.Leaf? {
      SoundIs(h);
    } else {
      ToLeftKeeps(h);
      ToLeftProper(h);
      var a := ToLeft(h);
      Subtrees(a);
      DeleteKeeps(a.left, key);
      hide Sound, Blacks, ToLeft, FixUp, Proper, Ordered, Contains;
      LeftFixed(h, a, Delete(a.left, key).0);
    }
  }

  lemma {:induction false} DeleteRightKeeps(h: Tree, a: Tree, key: NodeKey)
    requires Ordered(h) && h.Node? && Ready(h, key) && Proper(h) && !key.Less(h.key)
    requires a == Leant(h) && Ordered(a) && SameEntries(h, a) && !key.Less(a.key)
    ensures Keeps(h, Delete(h, key).0)
    decreases Size(h), 0
  {
    if a.right.Leaf? {
      NoBlacks(a.left);
      FixUpSound(h);
    } else {
      ToRightKeeps(a, key);
      ToRightProper(h, key);
      var b := ToRight(a, key);
      Subtrees(b);
      if key == b.key {
        DeleteMinKeeps(b.right);
        var (r, next) := DeleteMin(b.right);
        hide Sound, Blacks, ToRight, Leant, FixUp, Proper, Ordered, Contains;
        RightFixed(h, b, r, Node(b.left, next.key, next.tx, r, b.black));
      } else {
        DeleteKeeps(b.right, key);
        var r := Delete(b.right, key).0;
        hide Sound, Blacks, ToRight, Leant, FixUp, Proper, Ordered, Contains;
        RightFixed(h, b, r, b.(right := r));
      }
    }
  }

  // ----- the root, which may be black where delete expects red

  function Toggle(t: Tree): Tree {
    if t.Node? then t.(black := !t.black) else t
  }

  lemma ToggleFixUp(h: Tree)
    requires h.Node?
    ensures FixUp(Toggle(h)) == Toggle(FixUp(h))
  {
  }

  lemma ToggleMoves(h: Tree, key: NodeKey)
    requires Ready(h, key)
    ensures MinReady(h) && h.left.Node? ==> ToLeft(Toggle(h)) == Toggle(ToLeft(h))
    ensures !key.Less(h.key) ==> Leant(Toggle(h)) == Toggle(Leant(h))
  {
    if MinReady(h) && h.left.Node? {
      LeftReady(h);
    }
  }

  lemma ToggleRight(a: Tree, key: NodeKey)
    requires Even(a) && !IsRed(a.left) && a.right.Node? && !key.Less(a.key)
    ensures ToRight(Toggle(a), key) == Toggle(ToRight(a, key))
  {
    RightReady(a, key);
  }

  /** Delete does not look at the colour of the root. */
  lemma {:induction false} ToggleDelete(h: Tree, key: NodeKey)
    requires h.Node? && Ordered(h) && Ready(h, key)
    ensures Ordered(Toggle(h)) && Ready(Toggle(h), key)
    ensures Delete(Toggle(h), key) == (Toggle(Delete(h, key).0), Delete(h, key).1)
  {
    PaintKeeps(h, !h.black);
    ToggleMoves(h, key);
    if key.Less(h.key) {
      if h.left.Node? {
        var a := ToLeft(h);
        ToLeftKeeps(h);
        ToLeftKeeps(Toggle(h));
        hide FixUp, ToLeft, Ordered;
        ToggleFixUp(a.(left := Delete(a.left, key).0));
      }
    } else {
      var a := Leant(h);
      LeantKeeps(h, key);
      LeantKeeps(Toggle(h), key);
      if a.right.Leaf? {
        hide FixUp, Leant, Ordered;
        ToggleFixUp(a);
      } else {
        ToRightKeeps(a, key);
        ToRightKeeps(Toggle(a), key);
        ToggleRight(a, key);
        var b := ToRight(a, key);
        hide FixUp, Leant, ToRight, Ordered;
        if key == b.key {
          var (r, next) := DeleteMin(b.right);
          ToggleFixUp(Node(b.left, next.key, next.tx, r, b.black));
        } else {
          ToggleFixUp(b.(right := Delete(b.right, key).0));
        }
      }
    }
  }

  lemma Blackened(t: Tree)
    requires Sound(t)
    ensures t.Node? ==> Valid(t.(black := true))
  {
    if t.Node? {
      SoundIs(t);
      PaintIs(t, true);
      SoundIs(t.(black := true));
    }
  }

  lemma {:induction false} RemoveValid(t: Tree, key: NodeKey)
    requires Valid(t) && Ordered(t)
    ensures Valid(Remove(t, key).0)
  {
    ValidReady(t, key);
    if t.Node? {
      SoundIs(t);
      if IsRed(t.left) {
        DeleteKeeps(t, key);
        Blackened(Delete(t, key).0);
      } else {
        ToggleDelete(t, key);
        DeleteKeeps(Toggle(t), key);
        Blackened(Delete(Toggle(t), key).0);
      }
    }
  }

  /** Removing a key leaves a balanced search tree without it, and nothing else is missing;
      no rotation meets a black link. */
  lemma {:induction false} RemoveKeeps(t: Tree, key: NodeKey)
    requires Valid(t) && Ordered(t)
    ensures var (r, deleted) := Remove(t, key); Valid(r) && Ordered(r) && Minus(t, r, key) && Took(t, key, deleted)
  {
    ValidReady(t, key);
    RemoveValid(t, key);
    DeleteTakes(t, key);
    var root := Delete(t, key).0;
    hide Valid, Ordered, Contains, Delete;
    if root.Node? {
      PaintKeeps(root, true);
      SameMinus(t, t, root, root.(black := true), key);
    }
  }

  // ----- inserting

  ghost predicate Absent(t: Tree, key: NodeKey) {
    forall k, x :: Contains(t, k, x) ==> k != key
  }

  ghost predicate Added(t: Tree, more: Tree, key: NodeKey, tx: Tx) {
    forall k, x :: Contains(more, k, x) <==> Contains(t, k, x) || (k == key && x == tx && Absent(t, key))
  }

  lemma AddedLeft(t: Tree, left: Tree, key: NodeKey, tx: Tx)
    requires t.Node? && Ordered(t) && Ordered(left) && Added(t.left, left, key, tx) && key.Less(t.key)
    ensures Ordered(t.(left := left)) && Added(t, t.(left := left), key, tx)
  {
    Subtrees(t);
    assert Absent(t.left, key) ==> Absent(t, key) by {
      forall k, x | Contains(t, k, x) && Absent(t.left, key) ensures k != key {
        assert k == t.key || Contains(t.left, k, x) || Contains(t.right, k, x);
      }
    }
  }

  lemma AddedRight(t: Tree, right: Tree, key: NodeKey, tx: Tx)
    requires t.Node? && Ordered(t) && Ordered(right) && Added(t.right, right, key, tx) && t.key.Less(key)
    ensures Ordered(t.(right := right)) && Added(t, t.(right := right), key, tx)
  {
    Subtrees(t);
    assert Absent(t.right, key) ==> Absent(t, key) by {
      forall k, x | Contains(t, k, x) && Absent(t.right, key) ensures k != key {
        assert k == t.key || Contains(t.left, k, x) || Contains(t.right, k, x);
      }
    }
  }

  lemma SameAdded(t: Tree, a: Tree, r: Tree, key: NodeKey, tx: Tx)
    requires Added(t, a, key, tx) && SameEntries(a, r)
    ensures Added(t, r, key, tx)
  {
    hide Contains, Absent;
  }

  lemma {:induction false} InsertAtAdds(t: Tree, key: NodeKey, tx: Tx)
    requires Ordered(t)
    ensures Ordered(InsertAt(t, key, tx)) && Added(t, InsertAt(t, key, tx), key, tx)
  {
    hide InsertFix, Ordered;
    if t.Node? {
      Subtrees(t);
      if key.Less(t.key) {
        InsertAtAdds(t.left, key, tx);
        var a := t.(left := InsertAt(t.left, key, tx));
        hide Contains, Absent;
        AddedLeft(t, InsertAt(t.left, key, tx), key, tx);
        InsertFixKeeps(a);
        SameAdded(t, a, InsertFix(a), key, tx);
      } else if t.key.Less(key) {
        InsertAtAdds(t.right, key, tx);
        var a := t.(right := InsertAt(t.right, key, tx));
        hide Contains, Absent;
        AddedRight(t, InsertAt(t.right, key, tx), key, tx);
        InsertFixKeeps(a);
        SameAdded(t, a, InsertFix(a), key, tx);
      } else {
        assert !Absent(t, key);
      }
    } else {
      OneEntry(key, tx);
    }
  }

  lemma OneEntry(key: NodeKey, tx: Tx)
    ensures Ordered(Node(Leaf, key, tx, Leaf, false)) && Added(Leaf, Node(Leaf, key, tx, Leaf, false), key, tx)
  {
  }

  /** On the way up: two red links may follow each other only at a red root. */
  ghost predicate Grown(t: Tree, r: Tree) {
    && Even(r) && !IsRed(r.right) && Blacks(r) == Blacks(t) && (IsRed(r) && IsRed(r.left) ==> IsRed(t))
  }

  lemma GrownLeft(t: Tree, l: Tree)
    requires t.Node? && Sound(t) && Grown(t.left, l)
    ensures Grown(t, InsertFix(t.(left := l)))
  {
    SoundIs(t);
    SoundIs(l);
    PaintIs(l, true);
    SoundIs(l.(black := true));
    if IsRed(l) && IsRed(l.left) {
      SoundIs(l.left);
      PaintIs(l.left, true);
      SoundIs(l.left.(black := true));
    }
  }

  lemma GrownRight(t: Tree, r: Tree)
    requires t.Node? && Sound(t) && Grown(t.right, r)
    ensures Grown(t, InsertFix(t.(right := r)))
  {
    SoundIs(t);
    SoundIs(r);
    PaintIs(r, true);
    SoundIs(r.(black := true));
    if t.left.Node? {
      SoundIs(t.left);
      PaintIs(t.left, true);
      SoundIs(t.left.(black := true));
    }
  }

  lemma {:induction false} InsertAtGrows(t: Tree, key: NodeKey, tx: Tx)
    requires Sound(t)
    ensures Grown(t, InsertAt(t, key, tx))
  {
    if t.Node? {
      SoundIs(t);
      hide InsertFix, Sound;
      if key.Less(t.key) {
        InsertAtGrows(t.left, key, tx);
        GrownLeft(t, InsertAt(t.left, key, tx));
      } else if t.key.Less(key) {
        InsertAtGrows(t.right, key, tx);
        GrownRight(t, InsertAt(t.right, key, tx));
      }
    }
  }

  /** Inserting leaves a balanced search tree with the entry, if its key was not there, and
      as it was if it was. */
  lemma {:induction false} InsertKeeps(t: Tree, key: NodeKey, tx: Tx)
    requires Valid(t) && Ordered(t)
    ensures var r := Insert(t, key, tx); Valid(r) && Ordered(r) && Added(t, r, key, tx)
  {
    InsertAtAdds(t, key, tx);
    InsertAtGrows(t, key, tx);
    var r := InsertAt(t, key, tx);
    PaintIs(r, true);
    SoundIs(r.(black := true));
    hide Sound, InsertAt, Ordered, Contains, Absent;
    PaintKeeps(r, true);
    SameAdded(t, r, r.(black := true), key, tx);
  }

  // ----- every tree

  datatype Op = Put(key: NodeKey, tx: Tx) | Take(key: NodeKey)

  /** Trees that inserts and removes lead to. */
  ghost predicate IsRun(trees: seq<Tree>, ops: seq<Op>) {
    && |trees| == |ops| + 1 && trees[0] == Leaf
    && forall i :: 0 <= i < |ops| ==> StepAt(trees, ops, i)
  }

  ghost predicate StepAt(trees: seq<Tree>, ops: seq<Op>, i: nat)
    requires i < |ops| < |trees|
  {
    match ops[i]
    case Put(key, tx) => trees[i + 1] == Insert(trees[i], key, tx)
    case Take(key) => Valid(trees[i]) && Ordered(trees[i]) ==> trees[i + 1] == Remove(trees[i], key).0
  }

  /** The first insert of a key counts until the key is removed. */
  function Entries(ops: seq<Op>): map<NodeKey, Tx> {
    if |ops| == 0 then map[]
    else
      var before, last := Entries(ops[..|ops| - 1]), ops[|ops| - 1];
      match last
      case Put(key, tx) => if key in before then before else before[key := tx]
      case Take(key) => before - {key}
  }

  /** All of them are balanced search trees of the entries that the operations leave. */
  lemma {:induction false} TreesHold(trees: seq<Tree>, ops: seq<Op>, i: nat)
    requires IsRun(trees, ops) && i < |trees|
    ensures Valid(trees[i]) && Ordered(trees[i])
    ensures forall k, x :: Contains(trees[i], k, x) <==> k in Entries(ops[..i]) && Entries(ops[..i])[k] == x
  {
    hide Valid, Ordered, Insert, Remove;
    if i == 0 {
      LeafHolds();
    } else {
      TreesHold(trees, ops, i - 1);
      assert StepAt(trees, ops, i - 1);
      assert ops[..i][..i - 1] == ops[..i - 1];
      var t := trees[i - 1];
      match ops[i - 1] {
        case Put(key, tx) =>
          InsertKeeps(t, key, tx);
          hide Contains;
          assert Absent(t, key) <==> key !in Entries(ops[..i - 1]) by {
            if key in Entries(ops[..i - 1]) {
              assert Contains(t, key, Entries(ops[..i - 1])[key]);
            }
          }
        case Take(key) =>
          RemoveKeeps(t, key);
          hide Contains;
      }
    }
  }

  lemma LeafHolds()
    ensures Valid(Leaf) && Ordered(Leaf)
  {
  }

  /** Two transactions, the one of higher priority too large: the list mempool gives the
      other, the llrb mempool nothing. */
  lemma LlrbMisses() returns (t: Tree, pool: seq<Tx>, times: seq<int>, bytes: int, n: Option<nat>)
    ensures Ordered(t) && Holds(t, pool, times) && Distinct(pool) && |pool| == 2
    ensures t == Insert(Insert(Leaf, KeyOf(pool, times, 0), pool[0]), KeyOf(pool, times, 1), pool[1])
    ensures IsNext(pool, bytes, 0, Position(pool, 0), n) && n == Some(1)
    ensures Search(t, StartOf(pool, times, Position(pool, 0)), Limits(bytes, 0)) == Nothing
  {
    var big, small := Tx(1, 10, 0, 2), Tx(2, 1, 0, 1);
    pool, times, bytes, n := [big, small], [1, 2], 5, Some(1);
    var k0, k1 := NodeKey(2, 1, 1), NodeKey(1, 2, 2);
    var one := Insert(Leaf, k0, big);
    InsertKeeps(Leaf, k0, big);
    InsertKeeps(one, k1, small);
    t := Insert(one, k1, small);
    assert one == Node(Leaf, k0, big, Leaf, true);
    assert t == Node(Node(Leaf, k1, small, Leaf, false), k0, big, Leaf, true);
    assert KeyOf(pool, times, 0) == k0 && KeyOf(pool, times, 1) == k1;
    forall k, tx | Contains(t, k, tx)
      ensures exists i :: 0 <= i < |pool| && k == KeyOf(pool, times, i) && tx == pool[i]
    {
      assert Contains(one, k, tx) || (k == k1 && tx == small);
      var i := if k == k0 then 0 else 1;
      assert k == KeyOf(pool, times, i) && tx == pool[i];
    }
    assert Position(pool, 0) == None;
  }
}
