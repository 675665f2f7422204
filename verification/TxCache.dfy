/** mempool/mempool.go, mapTxCache: the transactions seen last, in order of use. */
module TxCache {

  predicate Distinct<T(==)>(list: seq<T>) {
    forall i, j :: 0 <= i < j < |list| ==> list[i] != list[j]
  }

  function Dropped<T(==)>(list: seq<T>, x: T): seq<T> {
    if |list| == 0 then []
    else if list[0] == x then list[1..] else [list[0]] + Dropped(list[1..], x)
  }

  /** A known entry moves to the back; a new one goes there, and when the cache is full the
      one in front, used longest ago, makes room. A cache of size 0 holds nothing. */
  function Pushed<T(==)>(list: seq<T>, size: nat, x: T): seq<T> {
    if size == 0 then list
    else if x in list then Dropped(list, x) + [x]
    else (if |list| >= size then list[1..] else list) + [x]
  }

  ghost predicate Ok<T>(list: seq<T>, size: nat) {
    Distinct(list) && |list| <= size
  }

  lemma Tail<T>(list: seq<T>)
    requires Distinct(list) && |list| > 0
    ensures Distinct(list[1..]) && list[0] !in list[1..]
    ensures forall y :: y in list <==> y == list[0] || y in list[1..]
  {
    assert list == [list[0]] + list[1..];
  }

  lemma Join<T>(a: seq<T>, b: seq<T>)
    requires Distinct(a) && Distinct(b) && forall y :: y in a ==> y !in b
    ensures Distinct(a + b)
  {
    forall i, j | 0 <= i < j < |a + b| ensures (a + b)[i] != (a + b)[j] {
      if i < |a| <= j {
        assert a[i] in a && b[j - |a|] in b;
      }
    }
  }

  lemma {:induction false} DroppedIs<T>(list: seq<T>, x: T)
    requires Distinct(list)
    ensures Distinct(Dropped(list, x))
    ensures forall y :: y in Dropped(list, x) <==> y in list && y != x
    ensures |Dropped(list, x)| == if x in list then |list| - 1 else |list|
  {
    if |list| > 0 {
      Tail(list);
      if list[0] != x {
        DroppedIs(list[1..], x);
        Join([list[0]], Dropped(list[1..], x));
        hide Distinct;
      }
    }
  }

  /** Pushing caches the new entry, and loses at most the one in front. */
  lemma {:induction false} PushedIs<T>(list: seq<T>, size: nat, x: T)
    requires Ok(list, size) && size > 0
    ensures Ok(Pushed(list, size, x), size)
    ensures forall y :: y in Pushed(list, size, x) <==>
                        y == x || (y in list && !(x !in list && |list| >= size && y == list[0]))
  {
    if x in list {
      DroppedIs(list, x);
      Join(Dropped(list, x), [x]);
      hide Dropped, Distinct;
    } else if |list| >= size {
      Tail(list);
      Join(list[1..], [x]);
      hide Distinct;
    } else {
      Join(list, [x]);
      hide Distinct;
    }
  }

  ghost predicate Precedes<T(!new)>(list: seq<T>, y: T, z: T) {
    exists a, b :: 0 <= a < b < |list| && list[a] == y && list[b] == z
  }

  lemma PrecedesCons<T(!new)>(x: T, list: seq<T>, y: T, z: T)
    ensures Precedes([x] + list, y, z) <==> (x == y && z in list) || Precedes(list, y, z)
  {
    var all := [x] + list;
    if Precedes(all, y, z) {
      var a, b :| 0 <= a < b < |all| && all[a] == y && all[b] == z;
      assert list[b - 1] == z && (a > 0 ==> list[a - 1] == y);
    }
    if Precedes(list, y, z) {
      var a, b :| 0 <= a < b < |list| && list[a] == y && list[b] == z;
      assert all[a + 1] == y && all[b + 1] == z;
    }
    if x == y && z in list {
      var b :| 0 <= b < |list| && list[b] == z;
      assert all[0] == y && all[b + 1] == z;
    }
  }

  lemma PrecedesSnoc<T(!new)>(list: seq<T>, x: T, y: T, z: T)
    requires z != x
    ensures Precedes(list + [x], y, z) <==> Precedes(list, y, z)
  {
    var all := list + [x];
    if Precedes(all, y, z) {
      var a, b :| 0 <= a < b < |all| && all[a] == y && all[b] == z;
      assert list[a] == y && list[b] == z;
    }
    if Precedes(list, y, z) {
      var a, b :| 0 <= a < b < |list| && list[a] == y && list[b] == z;
      assert all[a] == y && all[b] == z;
    }
  }

  lemma {:induction false} DroppedOrder<T(!new)>(list: seq<T>, x: T, y: T, z: T)
    requires Distinct(list) && y != x && z != x
    ensures Precedes(Dropped(list, x), y, z) <==> Precedes(list, y, z)
  {
    if |list| > 0 {
      Tail(list);
      assert list == [list[0]] + list[1..];
      PrecedesCons(list[0], list[1..], y, z);
      if list[0] != x {
        DroppedOrder(list[1..], x, y, z);
        DroppedIs(list[1..], x);
        PrecedesCons(list[0], Dropped(list[1..], x), y, z);
      }
    }
  }

  /** The entry pushed is the one used last, and the others keep their order of use. */
  lemma {:induction false} PushedOrder<T(!new)>(list: seq<T>, size: nat, x: T, y: T, z: T)
    requires Ok(list, size) && size > 0
    requires y in Pushed(list, size, x) && z in Pushed(list, size, x) && y != x && z != x
    ensures Precedes(Pushed(list, size, x), y, z) <==> Precedes(list, y, z)
    ensures Precedes(Pushed(list, size, x), y, x)
  {
    hide Distinct, Dropped;
    var after := Pushed(list, size, x);
    var rest := after[..|after| - 1];
    assert after == rest + [x];
    var a :| 0 <= a < |after| && after[a] == y;
    assert after[a] == y && after[|after| - 1] == x;
    PrecedesSnoc(rest, x, y, z);
    if x in list {
      DroppedOrder(list, x, y, z);
    } else if |list| >= size {
      Tail(list);
      assert list == [list[0]] + list[1..];
      PrecedesCons(list[0], list[1..], y, z);
    }
  }

  class Cache<T(==,!new)> {
    const size: nat
    var keys: set<T>                // cacheMap
    var list: seq<T>

    ghost predicate Valid()
      reads this
    {
      Ok(list, size) && forall x :: x in keys <==> x in list
    }

    constructor (size: nat)
      ensures Valid() && list == [] && this.size == size
    {
      this.size := size;
      keys, list := {}, [];
    }

    method Reset()
      modifies this
      ensures Valid() && list == []
    {
      keys, list := {}, [];
    }

    method Push(x: T) returns (added: bool)
      requires Valid()
      modifies this
      ensures Valid() && list == Pushed(old(list), size, x) && added == (x !in old(list))
    {
      hide Distinct;
      if size == 0 {
        return true;
      }
      PushedIs(list, size, x);
      if x in keys {
        list := Dropped(list, x) + [x];
        return false;
      }
      if |list| >= size {
        keys := keys - {list[0]};
        Tail(list);
        list := list[1..];
      }
      list := list + [x];
      keys := keys + {x};
      added := true;
    }

    method Remove(x: T)
      requires Valid()
      modifies this
      ensures Valid() && list == Dropped(old(list), x)
    {
      DroppedIs(list, x);
      keys := keys - {x};
      list := Dropped(list, x);
    }
  }
}
