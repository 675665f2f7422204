/** libs/tree/llrb.go: inserting into and removing from a left-leaning red-black tree. */
module Llrb {
  import opened TxIterator

  predicate IsRed(t: Tree) {
    t.Node? && !t.black
  }

  function Size(t: Tree): nat {
    match t
    case Leaf => 0
    case Node(left, _, _, right, _) => Size(left) + Size(right) + 1
  }

  // ----- the steps; their requires are what the code panics without

  function RotateLeft(h: Tree): (r: Tree)
    requires h.Node? && IsRed(h.right)
    ensures r.Node? && Size(r) == Size(h)
  {
    var x := h.right;
    x.(left := h.(right := x.left, black := false), black := h.black)
  }

  function RotateRight(h: Tree): (r: Tree)
    requires h.Node? && IsRed(h.left)
    ensures r.Node? && Size(r) == Size(h)
  {
    var x := h.left;
    x.(right := h.(left := x.right, black := false), black := h.black)
  }

  function Flip(h: Tree): (r: Tree)
    requires h.Node? && h.left.Node? && h.right.Node?
    ensures r.Node? && Size(r) == Size(h)
  {
    h.(black := !h.black, left := h.left.(black := !h.left.black), right := h.right.(black := !h.right.black))
  }

  /** The end of insert. */
  function InsertFix(h: Tree): (r: Tree)
    requires h.Node?
    ensures r.Node?
  {
    var a := if IsRed(h.right) && !IsRed(h.left) then RotateLeft(h) else h;
    var b := if IsRed(a.left) && IsRed(a.left.left) then RotateRight(a) else a;
    if IsRed(b.left) && IsRed(b.right) then Flip(b) else b
  }

  function FixUp(h: Tree): (r: Tree)
    requires h.Node?
    ensures r.Node?
  {
    var a := if IsRed(h.right) then RotateLeft(h) else h;
    var b := if IsRed(a.left) && IsRed(a.left.left) then RotateRight(a) else a;
    if IsRed(b.left) && IsRed(b.right) then Flip(b) else b
  }

  function MoveRedLeft(h: Tree): (r: Tree)
    requires h.Node? && h.left.Node? && h.right.Node? && h.right.black
    ensures r.Node? && Size(r) == Size(h)
  {
    var a := Flip(h);
    if IsRed(a.right.left) then Flip(RotateLeft(a.(right := RotateRight(a.right)))) else a
  }

  function MoveRedRight(h: Tree): (r: Tree)
    requires h.Node? && h.left.Node? && h.right.Node? && h.left.black
    ensures r.Node? && Size(r) == Size(h)
  {
    var a := Flip(h);
    if IsRed(a.left.left) then Flip(RotateRight(a)) else a
  }

  // ----- the shape of a tree

  /** Red links lean left, and no two follow each other. */
  predicate Strict(t: Tree) {
    t.Node? ==> Strict(t.left) && Strict(t.right) && !IsRed(t.right) && (IsRed(t) ==> !IsRed(t.left))
  }

  /** Black links on the way down, along the left. */
  function Blacks(t: Tree): nat {
    match t
    case Leaf => 0
    case Node(left, _, _, _, black) => Blacks(left) + if black then 1 else 0
  }

  predicate Balanced(t: Tree) {
    t.Node? ==> Balanced(t.left) && Balanced(t.right) && Blacks(t.left) == Blacks(t.right)
  }

  predicate Sound(t: Tree) {
    Strict(t) && Balanced(t)
  }

  /** What every insert and remove leaves. */
  predicate Valid(t: Tree) {
    Sound(t) && !IsRed(t)
  }

  predicate Even(h: Tree) {
    h.Node? && Sound(h.left) && Sound(h.right) && Blacks(h.left) == Blacks(h.right)
  }

  lemma SoundIs(t: Tree)
    requires t.Node?
    ensures Sound(t) <==> Even(t) && !IsRed(t.right) && (IsRed(t) ==> !IsRed(t.left))
  {
  }

  lemma PaintIs(t: Tree, black: bool)
    requires t.Node?
    ensures Even(t.(black := black)) == Even(t)
    ensures Blacks(t.(black := black)) == Blacks(t.left) + if black then 1 else 0
  {
  }

  lemma NoBlacks(t: Tree)
    requires Blacks(t) == 0 && !IsRed(t)
    ensures t.Leaf?
  {
  }

  // ----- insert

  function InsertAt(t: Tree, key: NodeKey, tx: Tx): (r: Tree)
    ensures r.Node?
  {
    match t
    case Leaf => Node(Leaf, key, tx, Leaf, false)
    case Node(left, k, _, right, _) =>
      if key.Less(k) then InsertFix(t.(left := InsertAt(left, key, tx)))
      else if k.Less(key) then InsertFix(t.(right := InsertAt(right, key, tx)))
      else t
  }

  function Insert(t: Tree, key: NodeKey, tx: Tx): Tree {
    var root := InsertAt(t, key, tx);
    root.(black := true)
  }

  // ----- remove

  /** A subtree to take the least entry from. */
  predicate MinReady(h: Tree) {
    Even(h) && !IsRed(h.right)
  }

  /** A subtree to delete a key from; a red right link is there only after a move to the right. */
  predicate Ready(h: Tree, key: NodeKey) {
    Even(h) && (IsRed(h.right) ==> !IsRed(h.left) && !key.Less(h.key))
  }

  predicate NeedsLeft(h: Tree)
    requires h.Node? && h.left.Node?
  {
    !IsRed(h.left) && !IsRed(h.left.left)
  }

  predicate NeedsRight(h: Tree)
    requires h.Node?
  {
    h.right.Node? && !IsRed(h.right) && !IsRed(h.right.left)
  }

  /** With a black child on one side there is one on the other. */
  lemma Sibling(a: Tree, b: Tree)
    requires Blacks(a) == Blacks(b) && a.Node? && a.black
    ensures b.Node?
  {
  }

  lemma LeftReady(h: Tree)
    requires MinReady(h) && h.left.Node?
    ensures NeedsLeft(h) ==> h.right.Node? && h.right.black && MinReady(MoveRedLeft(h).left)
    ensures !NeedsLeft(h) ==> MinReady(h.left)
  {
    SoundIs(h.left);
    if NeedsLeft(h) {
      Sibling(h.left, h.right);
      SoundIs(h.right);
      PaintIs(h.left, false);
      SoundIs(h.left.(black := false));
      if h.right.left.Node? {
        SoundIs(h.right.left);
      }
    }
  }

  lemma RightReady(h: Tree, key: NodeKey)
    requires Even(h) && !IsRed(h.left) && h.right.Node? && (NeedsRight(h) ==> !key.Less(h.key))
    ensures NeedsRight(h) ==>
              && h.left.Node? && h.left.black && Ready(MoveRedRight(h).right, key)
              && (MoveRedRight(h).key != h.left.key ==> MinReady(MoveRedRight(h).right))
    ensures !NeedsRight(h) ==> Ready(h.right, key) && MinReady(h.right)
  {
    SoundIs(h.right);
    if NeedsRight(h) {
      Sibling(h.right, h.left);
      SoundIs(h.left);
      PaintIs(h.right, false);
      SoundIs(h.right.(black := false));
    }
  }

  function DeleteMin(h: Tree): (r: (Tree, Found))
    requires MinReady(h)
    ensures r.1.Found?
    decreases Size(h)
  {
    if h.left.Leaf? then (Leaf, Found(h.key, h.tx))
    else
      var a := ToLeft(h);
      var (l, least) := DeleteMin(a.left);
      (FixUp(a.(left := l)), least)
  }

  // ----- the entries of a tree

  ghost predicate SameEntries(a: Tree, b: Tree) {
    forall k, tx :: Contains(a, k, tx) <==> Contains(b, k, tx)
  }

  lemma RotateLeftKeeps(h: Tree)
    requires h.Node? && IsRed(h.right) && Ordered(h)
    ensures Ordered(RotateLeft(h)) && SameEntries(h, RotateLeft(h))
  {
    assert Contains(h.right, h.right.key, h.right.tx);
    assert forall k, tx :: Contains(h.right.left, k, tx) ==> Contains(h.right, k, tx);
  }

  lemma RotateRightKeeps(h: Tree)
    requires h.Node? && IsRed(h.left) && Ordered(h)
    ensures Ordered(RotateRight(h)) && SameEntries(h, RotateRight(h))
  {
    assert Contains(h.left, h.left.key, h.left.tx);
    assert forall k, tx :: Contains(h.left.right, k, tx) ==> Contains(h.left, k, tx);
  }

  lemma PaintKeeps(h: Tree, black: bool)
    requires h.Node? && Ordered(h)
    ensures Ordered(h.(black := black)) && SameEntries(h, h.(black := black))
  {
  }

  lemma FlipKeeps(h: Tree)
    requires h.Node? && h.left.Node? && h.right.Node? && Ordered(h)
    ensures Ordered(Flip(h)) && SameEntries(h, Flip(h))
  {
    PaintKeeps(h.left, !h.left.black);
    PaintKeeps(h.right, !h.right.black);
  }

  lemma InsertFixKeeps(h: Tree)
    requires h.Node? && Ordered(h)
    ensures Ordered(InsertFix(h)) && SameEntries(h, InsertFix(h))
  {
    hide Ordered, Contains, RotateLeft, RotateRight, Flip;
    var a := if IsRed(h.right) && !IsRed(h.left) then RotateLeft(h) else h;
    if IsRed(h.right) && !IsRed(h.left) { RotateLeftKeeps(h); }
    var b := if IsRed(a.left) && IsRed(a.left.left) then RotateRight(a) else a;
    if IsRed(a.left) && IsRed(a.left.left) { RotateRightKeeps(a); }
    if IsRed(b.left) && IsRed(b.right) { FlipKeeps(b); }
  }

  lemma FixUpKeeps(h: Tree)
    requires h.Node? && Ordered(h)
    ensures Ordered(FixUp(h)) && SameEntries(h, FixUp(h))
  {
    hide Ordered, Contains, RotateLeft, RotateRight, Flip;
    var a := if IsRed(h.right) then RotateLeft(h) else h;
    if IsRed(h.right) { RotateLeftKeeps(h); }
    var b := if IsRed(a.left) && IsRed(a.left.left) then RotateRight(a) else a;
    if IsRed(a.left) && IsRed(a.left.left) { RotateRightKeeps(a); }
    if IsRed(b.left) && IsRed(b.right) { FlipKeeps(b); }
  }

  /** A subtree for one with the same entries. */
  lemma ReplaceRight(h: Tree, right: Tree)
    requires h.Node? && Ordered(h) && Ordered(right) && SameEntries(h.right, right)
    ensures Ordered(h.(right := right)) && SameEntries(h, h.(right := right))
  {
  }

  lemma Subtrees(h: Tree)
    requires h.Node? && Ordered(h)
    ensures Ordered(h.left) && Ordered(h.right) && Contains(h, h.key, h.tx)
    ensures forall k, tx :: Contains(h.left, k, tx) ==> k.Less(h.key) && Contains(h, k, tx)
    ensures forall k, tx :: Contains(h.right, k, tx) ==> h.key.Less(k) && Contains(h, k, tx)
  {
  }

  lemma MoveRedLeftKeeps(h: Tree)
    requires h.Node? && h.left.Node? && h.right.Node? && h.right.black && Ordered(h)
    ensures Ordered(MoveRedLeft(h)) && SameEntries(h, MoveRedLeft(h))
  {
    FlipKeeps(h);
    var a := Flip(h);
    if IsRed(a.right.left) {
      Subtrees(a);
      RotateRightKeeps(a.right);
      ReplaceRight(a, RotateRight(a.right));
      var b := a.(right := RotateRight(a.right));
      hide Ordered, Contains;
      RotateLeftKeeps(b);
      FlipKeeps(RotateLeft(b));
    }
  }

  lemma MoveRedRightKeeps(h: Tree)
    requires h.Node? && h.left.Node? && h.right.Node? && h.left.black && Ordered(h)
    ensures Ordered(MoveRedRight(h)) && SameEntries(h, MoveRedRight(h))
  {
    hide Ordered, Contains;
    FlipKeeps(h);
    var a := Flip(h);
    if IsRed(a.left.left) {
      RotateRightKeeps(a);
      FlipKeeps(RotateRight(a));
    }
  }

  // ----- delete

  /** The state in which delete goes left, and right. */
  function ToLeft(h: Tree): (a: Tree)
    requires MinReady(h) && h.left.Node?
    ensures a.Node? && Size(a) == Size(h) && MinReady(a.left)
  {
    LeftReady(h);
    if NeedsLeft(h) then MoveRedLeft(h) else h
  }

  function Leant(h: Tree): (a: Tree)
    requires Even(h) && (IsRed(h.right) ==> !IsRed(h.left))
    ensures Even(a) && Size(a) == Size(h) && !IsRed(a.left)
  {
    if IsRed(h.left) then
      SoundIs(h.left);
      RotateRight(h)
    else h
  }

  function ToRight(a: Tree, key: NodeKey): (b: Tree)
    requires Even(a) && !IsRed(a.left) && a.right.Node? && (NeedsRight(a) ==> !key.Less(a.key))
    ensures b.Node? && Size(b) == Size(a) && b.right.Node? && Ready(b.right, key)
  {
    RightReady(a, key);
    if NeedsRight(a) then MoveRedRight(a) else a
  }

  lemma ToLeftKeeps(h: Tree)
    requires MinReady(h) && h.left.Node? && Ordered(h)
    ensures Ordered(ToLeft(h)) && SameEntries(h, ToLeft(h))
  {
    LeftReady(h);
    if NeedsLeft(h) {
      MoveRedLeftKeeps(h);
    }
  }

  lemma LeantKeeps(h: Tree, key: NodeKey)
    requires Even(h) && (IsRed(h.right) ==> !IsRed(h.left)) && Ordered(h) && !key.Less(h.key)
    ensures Ordered(Leant(h)) && SameEntries(h, Leant(h)) && !key.Less(Leant(h).key)
  {
    if IsRed(h.left) {
      assert Contains(h.left, h.left.key, h.left.tx);
      hide Contains;
      RotateRightKeeps(h);
    }
  }

  lemma ToRightKeeps(a: Tree, key: NodeKey)
    requires Even(a) && !IsRed(a.left) && a.right.Node? && Ordered(a) && !key.Less(a.key)
    ensures var b := ToRight(a, key);
            Ordered(b) && SameEntries(a, b) && !key.Less(b.key) && (key == b.key ==> MinReady(b.right))
  {
    RightReady(a, key);
    if NeedsRight(a) {
      assert Contains(a.left, a.left.key, a.left.tx);
      hide Contains;
      MoveRedRightKeeps(a);
    }
  }

  /** What is left, and what was deleted. */
  function Delete(h: Tree, key: NodeKey): (Tree, Found)
    requires Ordered(h) && (h.Node? ==> Ready(h, key))
    decreases Size(h)
  {
    if h.Leaf? then (Leaf, Nothing)
    else if key.Less(h.key) then
      if h.left.Leaf? then (h, Nothing)
      else
        ToLeftKeeps(h);
        var a := ToLeft(h);
        var (l, deleted) := Delete(a.left, key);
        (FixUp(a.(left := l)), deleted)
    else
      LeantKeeps(h, key);
      var a := Leant(h);
      if a.right.Leaf? then
        if key == a.key then (Leaf, Found(a.key, a.tx)) else (FixUp(a), Nothing)
      else
        ToRightKeeps(a, key);
        var b := ToRight(a, key);
        if key == b.key then
          var (r, next) := DeleteMin(b.right);
          (FixUp(Node(b.left, next.key, next.tx, r, b.black)), Found(b.key, b.tx))
        else
          var (r, deleted) := Delete(b.right, key);
          (FixUp(b.(right := r)), deleted)
  }

  function Remove(t: Tree, key: NodeKey): (Tree, Found)
    requires Valid(t) && Ordered(t)
  {
    ValidReady(t, key);
    var (root, deleted) := Delete(t, key);
    (if root.Node? then root.(black := true) else root, deleted)
  }

  lemma ValidReady(t: Tree, key: NodeKey)
    requires Valid(t)
    ensures t.Node? ==> Ready(t, key)
  {
    if t.Node? {
      SoundIs(t);
    }
  }
}
