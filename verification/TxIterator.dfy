/** mempool/clist_mempool.go and mempool/tree_mempool.go, with libs/tree: the next transaction
    for a block, by scanning a list, by walking keys in order, and by the search in llrb.go. */
module TxIterator {
  import opened Common

  const MAX_PRIORITY := 0xFFFF_FFFF_FFFF_FFFF

  type Priority = p: nat | p <= MAX_PRIORITY

  datatype Tx = Tx(hash: nat, size: nat, gas: int, priority: Priority)

  predicate Fits(tx: Tx, bytes: int, gas: int) {
    !(tx.gas > gas || tx.size > bytes)
  }

  /** Transactions in order of arrival, all different. */
  predicate Distinct(pool: seq<Tx>) {
    forall i, j :: 0 <= i < j < |pool| ==> pool[i].hash != pool[j].hash
  }

  /** Where a transaction is, as txsMap says. */
  function Position(pool: seq<Tx>, hash: nat): (r: Option<nat>)
    ensures r.Some? ==> r.value < |pool| && pool[r.value].hash == hash
    ensures r.None? ==> forall i :: 0 <= i < |pool| ==> pool[i].hash != hash
  {
    if |pool| == 0 then None
    else if pool[|pool| - 1].hash == hash then Some(|pool| - 1)
    else Position(pool[..|pool| - 1], hash)
  }

  // ----- what "next" means

  /** Higher priority first, then first come. */
  predicate Ahead(pool: seq<Tx>, i: nat, j: nat)
    requires i < |pool| && j < |pool|
  {
    pool[i].priority > pool[j].priority || (pool[i].priority == pool[j].priority && i < j)
  }

  predicate Eligible(pool: seq<Tx>, bytes: int, gas: int, start: Option<nat>, i: nat)
    requires i < |pool| && (start.Some? ==> start.value < |pool|)
  {
    Fits(pool[i], bytes, gas) && (start.Some? ==> Ahead(pool, start.value, i))
  }

  /** The foremost of the fitting transactions behind the starter. */
  predicate IsNext(pool: seq<Tx>, bytes: int, gas: int, start: Option<nat>, r: Option<nat>)
    requires start.Some? ==> start.value < |pool|
  {
    match r
    case None => forall i :: 0 <= i < |pool| ==> !Eligible(pool, bytes, gas, start, i)
    case Some(n) =>
      && n < |pool| && Eligible(pool, bytes, gas, start, n)
      && forall i :: 0 <= i < |pool| && i != n && Eligible(pool, bytes, gas, start, i) ==> Ahead(pool, n, i)
  }

  /** GetNextTxBytes of the list mempool: one pass over all transactions. */
  method ScanNext(pool: seq<Tx>, bytes: int, gas: int, starter: nat) returns (r: Option<nat>)
    requires Distinct(pool)
    ensures IsNext(pool, bytes, gas, Position(pool, starter), r)
  {
    var prev := Position(pool, starter);
    var prevPriority, ignoreSame := MAX_PRIORITY, false;
    if prev.Some? {
      prevPriority, ignoreSame := pool[prev.value].priority, true;
    }
    r := None;
    for i := 0 to |pool|
      invariant ignoreSame == (prev.Some? && i <= prev.value)
      invariant r.Some? ==> r.value < i && Eligible(pool, bytes, gas, prev, r.value)
      invariant forall k :: 0 <= k < i && Eligible(pool, bytes, gas, prev, k) ==>
                  r.Some? && (k == r.value || Ahead(pool, r.value, k))
    {
      if prev == Some(i) {
        ignoreSame := false;
        continue;
      }
      if Fits(pool[i], bytes, gas) && !(pool[i].priority > prevPriority) &&
         !(pool[i].priority == prevPriority && ignoreSame)
      {
        if r.None? || pool[i].priority > pool[r.value].priority {
          r := Some(i);
        }
      }
    }
  }

  /** Asking again and again, each time from the last answer: every fitting transaction,
      once, foremost first. */
  method Iterate(pool: seq<Tx>, bytes: int, gas: int) returns (list: seq<nat>)
    requires Distinct(pool) && forall i :: 0 <= i < |pool| ==> pool[i].hash != 0     // 0 stands for no starter
    ensures forall i :: 0 <= i < |list| ==> list[i] < |pool|
    ensures forall i, j :: 0 <= i < j < |list| ==> Ahead(pool, list[i], list[j])
    ensures forall k :: 0 <= k < |pool| ==> (k in list <==> Fits(pool[k], bytes, gas))
  {
    hide Fits;
    list := [];
    assert Position(pool, 0) == None;
    var next := ScanNext(pool, bytes, gas, 0);
    PartialStart(pool, bytes, gas, next);
    ghost var left := Indices(|pool|);
    while next.Some?
      invariant Partial(pool, bytes, gas, list, next) && Remaining(pool, next, left)
      decreases left
    {
      var n := next.value;
      SelfPosition(pool, n);
      next := ScanNext(pool, bytes, gas, pool[n].hash);
      PartialNext(pool, bytes, gas, list, n, next);
      RemainingNext(pool, bytes, gas, n, next, left);
      list := list + [n];
      left := left - {n};
    }
  }

  /** Listed so far, in order; what is not listed is the next one or behind it. */
  ghost predicate Partial(pool: seq<Tx>, bytes: int, gas: int, list: seq<nat>, next: Option<nat>) {
    && (next.Some? ==> next.value < |pool| && Fits(pool[next.value], bytes, gas))
    && (forall i :: 0 <= i < |list| ==> list[i] < |pool| && Fits(pool[list[i]], bytes, gas))
    && (forall i, j :: 0 <= i < j < |list| ==> Ahead(pool, list[i], list[j]))
    && (forall i :: 0 <= i < |list| && next.Some? ==> Ahead(pool, list[i], next.value))
    && (forall k :: 0 <= k < |pool| && Fits(pool[k], bytes, gas) ==>
          k in list || (next.Some? && (k == next.value || Ahead(pool, next.value, k))))
  }

  ghost predicate Remaining(pool: seq<Tx>, next: Option<nat>, left: set<nat>) {
    next.Some? ==>
      && next.value < |pool| && next.value in left
      && forall k :: 0 <= k < |pool| && Ahead(pool, next.value, k) ==> k in left
  }

  lemma PartialStart(pool: seq<Tx>, bytes: int, gas: int, next: Option<nat>)
    requires IsNext(pool, bytes, gas, None, next)
    ensures Partial(pool, bytes, gas, [], next)
  {
    hide Fits;
    forall k | 0 <= k < |pool| && Fits(pool[k], bytes, gas)
      ensures next.Some? && (k == next.value || Ahead(pool, next.value, k))
    {
      assert Eligible(pool, bytes, gas, None, k);
    }
  }

  lemma PartialNext(pool: seq<Tx>, bytes: int, gas: int, list: seq<nat>, n: nat, next: Option<nat>)
    requires Partial(pool, bytes, gas, list, Some(n)) && IsNext(pool, bytes, gas, Some(n), next)
    ensures Partial(pool, bytes, gas, list + [n], next)
  {
    hide Fits;
    var more := list + [n];
    forall k | 0 <= k < |pool| && Fits(pool[k], bytes, gas)
      ensures k in more || (next.Some? && (k == next.value || Ahead(pool, next.value, k)))
    {
      assert k in list ==> k in more;
      assert n in more;
      assert k !in more ==> Eligible(pool, bytes, gas, Some(n), k);
    }
  }

  lemma RemainingNext(pool: seq<Tx>, bytes: int, gas: int, n: nat, next: Option<nat>, left: set<nat>)
    requires n < |pool| && Remaining(pool, Some(n), left) && IsNext(pool, bytes, gas, Some(n), next)
    ensures Remaining(pool, next, left - {n})
  {
    hide Fits;
    assert next.Some? ==> Eligible(pool, bytes, gas, Some(n), next.value);
  }

  ghost function Indices(n: nat): (s: set<nat>)
    ensures forall k :: k in s <==> 0 <= k < n
  {
    if n == 0 then {} else Indices(n - 1) + {n - 1}
  }

  lemma SelfPosition(pool: seq<Tx>, i: nat)
    requires Distinct(pool) && i < |pool|
    ensures Position(pool, pool[i].hash) == Some(i)
  {
  }

  // ----- trees

  /** The order of libs/tree: priority, then earlier time, then hash. */
  datatype NodeKey = NodeKey(priority: Priority, time: int, hash: nat) {
    predicate Less(that: NodeKey) {
      || priority < that.priority
      || (priority == that.priority && (time > that.time || (time == that.time && hash < that.hash)))
    }
  }

  datatype Tree = Leaf | Node(left: Tree, key: NodeKey, tx: Tx, right: Tree, black: bool)

  ghost predicate Contains(t: Tree, key: NodeKey, tx: Tx) {
    t.Node? && ((t.key == key && t.tx == tx) || Contains(t.left, key, tx) || Contains(t.right, key, tx))
  }

  /** A search tree. */
  ghost predicate Ordered(t: Tree) {
    t.Node? ==>
      && Ordered(t.left) && Ordered(t.right)
      && (forall k, tx :: Contains(t.left, k, tx) ==> k.Less(t.key))
      && (forall k, tx :: Contains(t.right, k, tx) ==> t.key.Less(k))
  }

  datatype Start = FromTop | Below(key: NodeKey)

  predicate IsBelow(key: NodeKey, start: Start) {
    start.Below? ==> key.Less(start.key)
  }

  datatype Limits = Unlimited | Limits(bytes: int, gas: int)

  predicate Allows(l: Limits, tx: Tx) {
    l.Limits? ==> Fits(tx, l.bytes, l.gas)
  }

  datatype Found = Nothing | Found(key: NodeKey, tx: Tx)

  /** What GetNext is to return: the greatest allowed entry below the start. */
  ghost predicate IsGreatest(t: Tree, start: Start, limits: Limits, r: Found) {
    match r
    case Nothing => forall k, tx :: Contains(t, k, tx) && IsBelow(k, start) ==> !Allows(limits, tx)
    case Found(key, tx) =>
      && Contains(t, key, tx) && IsBelow(key, start) && Allows(limits, tx)
      && forall k, x :: Contains(t, k, x) && IsBelow(k, start) && Allows(limits, x) && k != key ==> k.Less(key)
  }

  /** GetNext of btree.go: down the keys in order, to the first that is allowed. */
  function Descend(t: Tree, start: Start, limits: Limits): Found {
    match t
    case Leaf => Nothing
    case Node(left, key, tx, right, _) =>
      var above := Descend(right, start, limits);
      if above.Found? then above
      else if IsBelow(key, start) && Allows(limits, tx) then Found(key, tx)
      else Descend(left, start, limits)
  }

  lemma {:induction false} DescendFinds(t: Tree, start: Start, limits: Limits)
    requires Ordered(t)
    ensures IsGreatest(t, start, limits, Descend(t, start, limits))
  {
    if t.Node? {
      DescendFinds(t.left, start, limits);
      DescendFinds(t.right, start, limits);
    }
  }

  /** GetNext of llrb.go: one path from the root, right below the start and left above it. */
  function Search(t: Tree, start: Start, limits: Limits): Found {
    match t
    case Leaf => Nothing
    case Node(left, key, tx, right, _) =>
      if !IsBelow(key, start) then Search(left, start, limits)
      else
        var above := Search(right, start, limits);
        if above.Found? then above
        else if Allows(limits, tx) then Found(key, tx) else Nothing
  }

  /** As the loop it is. */
  method SearchLoop(t: Tree, start: Start, limits: Limits) returns (r: Found)
    requires Ordered(t)
    ensures r == Search(t, start, limits)
  {
    r := Nothing;
    var h := t;
    while h.Node?
      invariant Ordered(h)
      invariant forall k, tx :: r.Found? && Contains(h, k, tx) ==> r.key.Less(k)
      invariant Search(t, start, limits) == if Search(h, start, limits).Found? then Search(h, start, limits) else r
      decreases h
    {
      assert Contains(h, h.key, h.tx);
      assert forall k, tx :: Contains(h.left, k, tx) || Contains(h.right, k, tx) ==> Contains(h, k, tx);
      if IsBelow(h.key, start) {
        if Allows(limits, h.tx) && (r.Nothing? || r.key.Less(h.key)) {
          r := Found(h.key, h.tx);
        }
        h := h.right;
      } else {
        h := h.left;
      }
    }
  }

  /** Somewhere on the path, below the start, an entry that is not allowed hides an allowed
      one to its left, and nothing allowed is above it. */
  predicate Hides(t: Tree, start: Start, limits: Limits) {
    match t
    case Leaf => false
    case Node(left, key, tx, right, _) =>
      if !IsBelow(key, start) then Hides(left, start, limits)
      else Hides(right, start, limits) ||
           (Descend(right, start, limits).Nothing? && !Allows(limits, tx) && Descend(left, FromTop, limits).Found?)
  }

  lemma {:induction false} DescendIsIn(t: Tree, start: Start, limits: Limits)
    ensures var r := Descend(t, start, limits); r.Found? ==> Contains(t, r.key, r.tx) && IsBelow(r.key, start)
  {
    if t.Node? {
      DescendIsIn(t.left, start, limits);
      DescendIsIn(t.right, start, limits);
    }
  }

  lemma {:induction false} SearchIsIn(t: Tree, start: Start, limits: Limits)
    ensures var r := Search(t, start, limits); r.Found? ==> Contains(t, r.key, r.tx)
  {
    if t.Node? {
      SearchIsIn(t.left, start, limits);
      SearchIsIn(t.right, start, limits);
    }
  }

  lemma {:induction false} LeftOfStart(t: Tree, start: Start, limits: Limits)
    requires forall k, tx :: Contains(t, k, tx) ==> IsBelow(k, start)
    ensures Descend(t, start, limits) == Descend(t, FromTop, limits)
  {
    if t.Node? {
      assert Contains(t, t.key, t.tx);
      forall k, tx | Contains(t.left, k, tx) || Contains(t.right, k, tx) ensures Contains(t, k, tx) {
      }
      LeftOfStart(t.left, start, limits);
      LeftOfStart(t.right, start, limits);
    }
  }

  lemma {:induction false} RightOfStart(t: Tree, start: Start, limits: Limits)
    requires forall k, tx :: Contains(t, k, tx) ==> !IsBelow(k, start)
    ensures Descend(t, start, limits).Nothing?
  {
    if t.Node? {
      assert Contains(t, t.key, t.tx);
      forall k, tx | Contains(t.left, k, tx) || Contains(t.right, k, tx) ensures Contains(t, k, tx) {
      }
      RightOfStart(t.left, start, limits);
      RightOfStart(t.right, start, limits);
    }
  }

  /** The search of llrb.go finds what it is to find exactly when nothing is hidden. */
  lemma {:induction false} SearchIff(t: Tree, start: Start, limits: Limits)
    requires Ordered(t)
    ensures Search(t, start, limits) == Descend(t, start, limits) <==> !Hides(t, start, limits)
  {
    if t.Node? {
      SearchIff(t.left, start, limits);
      SearchIff(t.right, start, limits);
      if IsBelow(t.key, start) {
        forall k, tx | Contains(t.left, k, tx) ensures IsBelow(k, start) {
        }
        LeftOfStart(t.left, start, limits);
        DescendIsIn(t.left, start, limits);
        DescendIsIn(t.right, start, limits);
        SearchIsIn(t.right, start, limits);
      } else {
        forall k, tx | Contains(t.right, k, tx) ensures !IsBelow(k, start) {
        }
        RightOfStart(t.right, start, limits);
      }
    }
  }

  /** Without limits nothing is hidden: the recheck cursor and the listing are right. */
  lemma {:induction false} NothingHidden(t: Tree, start: Start)
    ensures !Hides(t, start, Unlimited)
  {
    if t.Node? {
      NothingHidden(t.left, start);
      NothingHidden(t.right, start);
    }
  }

  // ----- the list and the tree

  function KeyOf(pool: seq<Tx>, times: seq<int>, i: nat): NodeKey
    requires i < |pool| == |times|
  {
    NodeKey(pool[i].priority, times[i], pool[i].hash)
  }

  /** The tree holds the pool, each transaction under the time it came. */
  ghost predicate Holds(t: Tree, pool: seq<Tx>, times: seq<int>) {
    && |pool| == |times| && (forall i, j :: 0 <= i < j < |times| ==> times[i] < times[j])
    && (forall i :: 0 <= i < |pool| ==> Contains(t, KeyOf(pool, times, i), pool[i]))
    && (forall k, tx :: Contains(t, k, tx) ==>
          exists i :: 0 <= i < |pool| && k == KeyOf(pool, times, i) && tx == pool[i])
  }

  lemma KeysFollow(pool: seq<Tx>, times: seq<int>, i: nat, j: nat)
    requires i < |pool| == |times| && j < |pool| && forall a, b :: 0 <= a < b < |times| ==> times[a] < times[b]
    ensures KeyOf(pool, times, j).Less(KeyOf(pool, times, i)) <==> Ahead(pool, i, j)
  {
    assert i < j ==> times[i] < times[j];
    assert j < i ==> times[j] < times[i];
  }

  function StartOf(pool: seq<Tx>, times: seq<int>, start: Option<nat>): Start
    requires |pool| == |times| && (start.Some? ==> start.value < |pool|)
  {
    if start.None? then FromTop else Below(KeyOf(pool, times, start.value))
  }

  lemma EligibleIs(pool: seq<Tx>, times: seq<int>, bytes: int, gas: int, start: Option<nat>, i: nat)
    requires i < |pool| == |times| && (start.Some? ==> start.value < |pool|)
    requires forall a, b :: 0 <= a < b < |times| ==> times[a] < times[b]
    ensures Eligible(pool, bytes, gas, start, i) <==>
            IsBelow(KeyOf(pool, times, i), StartOf(pool, times, start)) && Allows(Limits(bytes, gas), pool[i])
  {
    if start.Some? {
      KeysFollow(pool, times, start.value, i);
    }
  }

  lemma GreatestIsUnique(t: Tree, start: Start, limits: Limits, a: Found, b: Found)
    requires Ordered(t) && IsGreatest(t, start, limits, a) && IsGreatest(t, start, limits, b)
    ensures a == b
  {
    if a.Found? && b.Found? {
      assert a.key == b.key || a.key.Less(b.key);
      OneEach(t, a.key, a.tx, b.tx);
    }
  }

  lemma {:induction false} OneEach(t: Tree, key: NodeKey, a: Tx, b: Tx)
    requires Ordered(t)
    ensures Contains(t, key, a) && Contains(t, key, b) ==> a == b
  {
    if t.Node? {
      OneEach(t.left, key, a, b);
      OneEach(t.right, key, a, b);
      assert Contains(t.left, key, a) || Contains(t.left, key, b) ==> key.Less(t.key);
      assert Contains(t.right, key, a) || Contains(t.right, key, b) ==> t.key.Less(key);
    }
  }

  /** The next transaction of the scan is the greatest entry of the tree. */
  lemma {:induction false} ListAndTree(t: Tree, pool: seq<Tx>, times: seq<int>, bytes: int, gas: int,
                                       start: Option<nat>, n: Option<nat>)
    requires Holds(t, pool, times) && (start.Some? ==> start.value < |pool|)
    requires IsNext(pool, bytes, gas, start, n)
    ensures IsGreatest(t, StartOf(pool, times, start), Limits(bytes, gas),
                       if n.None? then Nothing else Found(KeyOf(pool, times, n.value), pool[n.value]))
  {
    hide Contains, Fits, IsBelow, Eligible, Allows;
    var from, limits := StartOf(pool, times, start), Limits(bytes, gas);
    if n.Some? {
      EligibleIs(pool, times, bytes, gas, start, n.value);
    }
    forall k, tx | Contains(t, k, tx) && IsBelow(k, from) && Allows(limits, tx)
      ensures n.Some? && (k == KeyOf(pool, times, n.value) || k.Less(KeyOf(pool, times, n.value)))
    {
      var i :| 0 <= i < |pool| && k == KeyOf(pool, times, i) && tx == pool[i];
      EligibleIs(pool, times, bytes, gas, start, i);
      KeysFollow(pool, times, n.value, i);
    }
  }

  /** So the btree mempool answers as the list mempool does, for every pool, limits and
      starter; the llrb mempool does exactly when no entry on its path hides another. */
  lemma {:induction false} IteratorsAgree(t: Tree, pool: seq<Tx>, times: seq<int>, bytes: int, gas: int, starter: nat,
                                          n: Option<nat>)
    requires Ordered(t) && Holds(t, pool, times) && Distinct(pool)
    requires IsNext(pool, bytes, gas, Position(pool, starter), n)
    ensures var start, limits := StartOf(pool, times, Position(pool, starter)), Limits(bytes, gas);
            var expected := if n.None? then Nothing else Found(KeyOf(pool, times, n.value), pool[n.value]);
            && Descend(t, start, limits) == expected
            && (Search(t, start, limits) == expected <==> !Hides(t, start, limits))
  {
    var start, limits := StartOf(pool, times, Position(pool, starter)), Limits(bytes, gas);
    DescendFinds(t, start, limits);
    SearchIff(t, start, limits);
    hide Ordered, Holds, Descend, Search, Hides, IsGreatest, Position;
    ListAndTree(t, pool, times, bytes, gas, Position(pool, starter), n);
    GreatestIsUnique(t, start, limits, Descend(t, start, limits),
                     if n.None? then Nothing else Found(KeyOf(pool, times, n.value), pool[n.value]));
  }
}
