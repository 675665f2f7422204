/** The mempool's counts over every run, and what a recheck leaves. */
module MempoolProofs {
  import opened Common
  import opened Mempool

  ghost predicate Sorted(txs: seq<Entry>) {
    forall i, j :: 0 <= i < j < |txs| ==> txs[i].rank < txs[j].rank
  }

  ghost predicate IndexOk(txs: seq<Entry>, index: map<Tx, nat>) {
    forall tx :: tx in index ==> Entry(tx, index[tx]) in txs
  }

  /** Bytes are counted right, and both limits hold. */
  ghost predicate Inv(p: Pool, c: Config) {
    && Sorted(p.txs) && IndexOk(p.txs, p.index)
    && p.txsBytes == Total(p.txs) && |p.txs| <= c.size && p.txsBytes <= c.maxTxsBytes
  }

  // ----- taking one out, putting one in

  lemma {:induction false} TotalSplit(a: seq<Entry>, b: seq<Entry>)
    ensures Total(a + b) == Total(a) + Total(b)
  {
    if |b| == 0 {
      assert a + b == a;
    } else {
      assert (a + b)[..|a + b| - 1] == a + b[..|b| - 1];
      TotalSplit(a, b[..|b| - 1]);
    }
  }

  lemma {:induction false} WithoutNone(txs: seq<Entry>, rank: nat)
    requires forall i :: 0 <= i < |txs| ==> txs[i].rank != rank
    ensures Without(txs, rank) == txs
  {
    if |txs| > 0 {
      WithoutNone(txs[..|txs| - 1], rank);
    }
  }

  function Cut(txs: seq<Entry>, i: nat): seq<Entry>
    requires i < |txs|
  {
    txs[..i] + txs[i + 1..]
  }

  lemma CutKeeps(txs: seq<Entry>, i: nat)
    requires Sorted(txs) && i < |txs|
    ensures Sorted(Cut(txs, i)) && |Cut(txs, i)| == |txs| - 1
    ensures forall e :: e in txs && e != txs[i] ==> e in Cut(txs, i)
  {
    forall e | e in txs && e != txs[i] ensures e in Cut(txs, i) {
      var k :| 0 <= k < |txs| && txs[k] == e;
      assert Cut(txs, i)[if k < i then k else k - 1] == e;
    }
  }

  lemma {:induction false} WithoutAt(txs: seq<Entry>, i: nat)
    requires Sorted(txs) && i < |txs|
    ensures Without(txs, txs[i].rank) == Cut(txs, i)
  {
    var last := |txs| - 1;
    if i == last {
      WithoutNone(txs[..last], txs[i].rank);
    } else {
      WithoutAt(txs[..last], i);
      assert txs[i + 1..] == txs[..last][i + 1..] + [txs[last]];
    }
  }

  lemma TotalOne(e: Entry)
    ensures Total([e]) == e.tx.size
  {
    assert [e][..0] == [];
  }

  lemma {:induction false} TotalAt(txs: seq<Entry>, i: nat)
    requires i < |txs|
    ensures Total(txs) == Total(Cut(txs, i)) + txs[i].tx.size
  {
    assert txs == txs[..i] + ([txs[i]] + txs[i + 1..]);
    TotalSplit(txs[..i], [txs[i]] + txs[i + 1..]);
    TotalSplit([txs[i]], txs[i + 1..]);
    TotalSplit(txs[..i], txs[i + 1..]);
    TotalOne(txs[i]);
  }

  lemma {:induction false} PlaceAt(txs: seq<Entry>, e: Entry) returns (i: nat)
    requires Sorted(txs) && forall k :: 0 <= k < |txs| ==> txs[k].rank != e.rank
    ensures i <= |txs| && Place(txs, e) == txs[..i] + [e] + txs[i..] && Sorted(Place(txs, e))
  {
    i := Slot(txs, e);
    hide Place;
    var after := txs[..i] + [e] + txs[i..];
    assert forall k :: 0 <= k < |after| ==> after[k] == if k < i then txs[k] else if k == i then e else txs[k - 1];
  }

  lemma {:induction false} Slot(txs: seq<Entry>, e: Entry) returns (i: nat)
    requires Sorted(txs) && forall k :: 0 <= k < |txs| ==> txs[k].rank != e.rank
    ensures i <= |txs| && Place(txs, e) == txs[..i] + [e] + txs[i..]
    ensures forall k :: 0 <= k < i ==> txs[k].rank < e.rank
    ensures forall k :: i <= k < |txs| ==> e.rank < txs[k].rank
  {
    if |txs| == 0 || txs[|txs| - 1].rank < e.rank {
      i := |txs|;
    } else {
      var last := |txs| - 1;
      i := Slot(txs[..last], e);
      assert txs[..last][..i] + [e] + txs[..last][i..] + [txs[last]] == txs[..i] + [e] + txs[i..];
    }
  }

  lemma {:induction false} AddKept(p: Pool, c: Config, tx: Tx, rank: nat)
    requires Inv(p, c) && !IsFull(p, c, tx.size) && forall k :: 0 <= k < |p.txs| ==> p.txs[k].rank != rank
    ensures Inv(Add(p, tx, rank), c)
  {
    var e := Entry(tx, rank);
    var i := PlaceAt(p.txs, e);
    var after, index := Place(p.txs, e), p.index[tx := rank];
    hide Place, Sorted;
    TotalAt(after, i);
    assert Cut(after, i) == p.txs;
    forall t | t in index ensures Entry(t, index[t]) in after {
      if t == tx {
        assert after[i] == e;
      } else {
        assert Entry(t, p.index[t]) in p.txs[..i] + p.txs[i..] by { assert p.txs[..i] + p.txs[i..] == p.txs; }
      }
    }
  }

  lemma {:induction false} RemoveKept(p: Pool, c: Config, tx: Tx)
    requires Inv(p, c)
    ensures Inv(Remove(p, tx), c)
  {
    if tx in p.index {
      var i :| 0 <= i < |p.txs| && p.txs[i] == Entry(tx, p.index[tx]);
      hide Cut, Sorted, Total, Without;
      WithoutAt(p.txs, i);
      TotalAt(p.txs, i);
      CutKeeps(p.txs, i);
    }
  }

  lemma {:induction false} RemoveAllKept(p: Pool, c: Config, txs: seq<Tx>)
    requires Inv(p, c)
    ensures Inv(RemoveAll(p, txs), c)
  {
    if |txs| > 0 {
      RemoveAllKept(p, c, txs[..|txs| - 1]);
      RemoveKept(RemoveAll(p, txs[..|txs| - 1]), c, txs[|txs| - 1]);
    }
  }

  // ----- every run

  datatype Event =
    | FirstTime(tx: Tx, rank: nat, ok: bool)
    | Block(committed: seq<Tx>, recheck: bool)
    | Response(tx: Tx, ok: bool)
    | RemoveTxs(list: seq<Tx>)

  /** New entries get new ranks. */
  ghost predicate Fresh(p: Pool, e: Event) {
    e.FirstTime? ==> forall k :: 0 <= k < |p.txs| ==> p.txs[k].rank != e.rank
  }

  ghost predicate Next(p: Pool, c: Config, e: Event, q: Pool) {
    match e
    case FirstTime(tx, rank, ok) => q == if p.cursor.Some? || !ok || IsFull(p, c, tx.size) then p else Add(p, tx, rank)
    case Block(committed, recheck) => q == var r := RemoveAll(p, committed); if recheck then StartRecheck(r) else r
    case Response(tx, ok) => Some(q) == Rechecked(p, tx, ok)
    case RemoveTxs(list) => exists n :: 0 <= n <= |list| && q == RemoveAll(p, list[..n])
  }

  ghost predicate IsRun(ps: seq<Pool>, es: seq<Event>, c: Config) {
    && |ps| == |es| + 1 && ps[0] == EMPTY
    && forall i :: 0 <= i < |es| ==> Fresh(ps[i], es[i]) && Next(ps[i], c, es[i], ps[i + 1])
  }

  lemma {:induction false} NextKept(p: Pool, c: Config, e: Event, q: Pool)
    requires Inv(p, c) && Fresh(p, e) && Next(p, c, e, q)
    ensures Inv(q, c)
  {
    hide Sorted, IndexOk, Total;
    match e {
      case FirstTime(tx, rank, ok) =>
        if !(p.cursor.Some? || !ok || IsFull(p, c, tx.size)) {
          AddKept(p, c, tx, rank);
        }
      case Block(committed, recheck) =>
        RemoveAllKept(p, c, committed);
      case Response(tx, ok) =>
        RemoveKept(p, c, tx);
      case RemoveTxs(list) =>
        var n :| 0 <= n <= |list| && q == RemoveAll(p, list[..n]);
        RemoveAllKept(p, c, list[..n]);
    }
  }

  /** Across all operations the byte count is the sum of the sizes stored, and size and byte
      limits hold. */
  lemma {:induction false} CountsRight(ps: seq<Pool>, es: seq<Event>, c: Config, i: nat)
    requires IsRun(ps, es, c) && i < |ps|
    ensures Inv(ps[i], c)
  {
    if i > 0 {
      CountsRight(ps, es, c, i - 1);
      NextKept(ps[i - 1], c, es[i - 1], ps[i]);
    }
  }

  // ----- recheck

  /** Every entry is the one its transaction is indexed at; so no transaction is there twice. */
  ghost predicate Indexed(p: Pool) {
    OwnIndex(p.txs, p.index)
  }

  ghost predicate OwnIndex(txs: seq<Entry>, index: map<Tx, nat>) {
    forall i :: 0 <= i < |txs| ==> txs[i].tx in index && index[txs[i].tx] == txs[i].rank
  }

  /** Responses come in the order of the requests, one for each entry at the start. */
  function Answered(p: Pool, asked: seq<Entry>, answers: seq<bool>): Option<Pool>
    requires |answers| <= |asked|
  {
    if |answers| == 0 then Some(p)
    else
      var n := |answers| - 1;
      match Answered(p, asked, answers[..n])
      case None => None
      case Some(q) => Rechecked(q, asked[n].tx, answers[n])
  }

  /** The entries accepted. */
  function Accepted(asked: seq<Entry>, answers: seq<bool>): seq<Entry>
    requires |answers| <= |asked|
  {
    if |answers| == 0 then []
    else
      var n := |answers| - 1;
      Accepted(asked, answers[..n]) + if answers[n] then [asked[n]] else []
  }

  lemma {:induction false} AcceptedRanks(asked: seq<Entry>, answers: seq<bool>)
    requires |answers| <= |asked| && Sorted(asked)
    ensures forall e :: e in Accepted(asked, answers) ==> exists i :: 0 <= i < |answers| && e == asked[i] && answers[i]
  {
    if |answers| > 0 {
      AcceptedRanks(asked, answers[..|answers| - 1]);
    }
  }

  /** The pool after some responses. */
  function Half(asked: seq<Entry>, answers: seq<bool>): seq<Entry>
    requires |answers| <= |asked|
  {
    Accepted(asked, answers) + asked[|answers|..]
  }

  ghost predicate Midway(p: Pool, asked: seq<Entry>, answers: seq<bool>)
    requires |answers| <= |asked|
  {
    && p.txs == Half(asked, answers) && Sorted(p.txs) && Indexed(p)
    && p.cursor == (if |answers| < |asked| then Some(asked[|answers|]) else None)
    && (|asked| > 0 ==> p.end == asked[|asked| - 1].rank)
  }

  lemma {:induction false} FirstAfterSplit(a: seq<Entry>, b: seq<Entry>, rank: nat)
    requires forall i :: 0 <= i < |a| ==> a[i].rank <= rank
    requires |b| > 0 ==> b[0].rank > rank
    ensures FirstAfter(a + b, rank) == if |b| == 0 then None else Some(b[0])
  {
    if |a| > 0 {
      FirstAfterSplit(a[1..], b, rank);
      assert (a + b)[1..] == a[1..] + b;
    } else {
      assert a + b == b;
    }
  }

  lemma HalfSplits(asked: seq<Entry>, answers: seq<bool>)
    requires |answers| < |asked|
    ensures var n, acc := |answers|, Accepted(asked, answers);
            && Half(asked, answers) == acc + [asked[n]] + asked[n + 1..]
            && Half(asked, answers)[|acc|] == asked[n] && Cut(Half(asked, answers), |acc|) == acc + asked[n + 1..]
  {
  }

  lemma NextAccepted(asked: seq<Entry>, answers: seq<bool>, ok: bool)
    requires |answers| < |asked|
    ensures Accepted(asked, answers + [ok]) == Accepted(asked, answers) + if ok then [asked[|answers|]] else []
  {
    assert (answers + [ok])[..|answers|] == answers;
  }

  /** What a response does to the pool. */
  lemma {:induction false} NextHalf(asked: seq<Entry>, answers: seq<bool>, ok: bool)
    requires |answers| < |asked| && Sorted(Half(asked, answers))
    ensures Half(asked, answers + [ok]) ==
            if ok then Half(asked, answers) else Without(Half(asked, answers), asked[|answers|].rank)
  {
    var acc := Accepted(asked, answers);
    HalfSplits(asked, answers);
    NextAccepted(asked, answers, ok);
    WithoutAt(Half(asked, answers), |acc|);
    hide Accepted, Without, Sorted, Cut;
  }

  /** Where the cursor goes. */
  lemma {:induction false} NextCursor(asked: seq<Entry>, answers: seq<bool>, ok: bool)
    requires |answers| < |asked| && Sorted(asked) && Sorted(Half(asked, answers))
    ensures var n := |answers|;
            FirstAfter(Half(asked, answers + [ok]), asked[n].rank) ==
            if n + 1 < |asked| then Some(asked[n + 1]) else None
  {
    var n, acc := |answers|, Accepted(asked, answers);
    HalfSplits(asked, answers);
    NextAccepted(asked, answers, ok);
    hide Accepted, FirstAfter, Cut;
    var next := acc + if ok then [asked[n]] else [];
    forall i | 0 <= i < |next| ensures next[i].rank <= asked[n].rank {
      assert i < |acc| ==> Half(asked, answers)[i] == acc[i];
    }
    FirstAfterSplit(next, asked[n + 1..], asked[n].rank);
  }

  lemma IndexedAfter(p: Pool, i: nat)
    requires Sorted(p.txs) && Indexed(p) && i < |p.txs|
    ensures Sorted(Remove(p, p.txs[i].tx).txs) && Indexed(Remove(p, p.txs[i].tx))
  {
    WithoutAt(p.txs, i);
    CutKeeps(p.txs, i);
    var after := Cut(p.txs, i);
    forall k | 0 <= k < |after|
      ensures after[k].tx in p.index && p.index[after[k].tx] == after[k].rank && after[k].tx != p.txs[i].tx
    {
      assert after[k] == p.txs[if k < i then k else k + 1];
    }
  }

  lemma {:induction false} ResponseMoves(p: Pool, asked: seq<Entry>, answers: seq<bool>, ok: bool)
    requires |answers| < |asked| && Sorted(asked) && Midway(p, asked, answers)
    ensures var r := Rechecked(p, asked[|answers|].tx, ok); r.Some? && Midway(r.value, asked, answers + [ok])
  {
    hide Half, Without, FirstAfter, Sorted, OwnIndex, Accepted, Cut;
    var n, k := |answers|, |Accepted(asked, answers)|;
    HalfSplits(asked, answers);
    NextHalf(asked, answers, ok);
    NextCursor(asked, answers, ok);
    IndexedAt(p, asked, k, n);
    IndexedAfter(p, k);
  }

  lemma IndexedAt(p: Pool, asked: seq<Entry>, k: nat, n: nat)
    requires Indexed(p) && k < |p.txs| && Sorted(asked) && n < |asked|
    ensures p.txs[k].tx in p.index && p.index[p.txs[k].tx] == p.txs[k].rank
    ensures asked[n].rank == asked[|asked| - 1].rank <==> n + 1 == |asked|
  {
  }

  /** With every entry indexed, no response panics, the cursor follows the requests and is
      gone after one response each, and the survivors are the accepted, in order. */
  lemma {:induction false} RecheckExact(p: Pool, answers: seq<bool>)
    requires Sorted(p.txs) && Indexed(p) && |answers| <= |p.txs| && |p.txs| > 0
    ensures var r := Answered(StartRecheck(p), p.txs, answers); r.Some? && Midway(r.value, p.txs, answers)
  {
    hide Sorted, OwnIndex, Rechecked, Midway, Half;
    if |answers| == 0 {
      MidwayStart(p, answers);
    } else {
      var n := |answers| - 1;
      RecheckExact(p, answers[..n]);
      ResponseMoves(Answered(StartRecheck(p), p.txs, answers[..n]).value, p.txs, answers[..n], answers[n]);
      assert answers[..n] + [answers[n]] == answers;
    }
  }

  lemma MidwayStart(p: Pool, answers: seq<bool>)
    requires Sorted(p.txs) && Indexed(p) && |p.txs| > 0 && |answers| == 0
    ensures Midway(StartRecheck(p), p.txs, answers)
  {
    hide Sorted, OwnIndex;
    assert Half(p.txs, answers) == p.txs;
  }

  /** All responses in, without a panic, and exactly the accepted entries left. */
  ghost predicate Exact(p: Pool, answers: seq<bool>)
    requires |answers| == |p.txs|
  {
    var r := Answered(StartRecheck(p), p.txs, answers);
    r.Some? && r.value.txs == Accepted(p.txs, answers) && r.value.cursor == None
  }

  // ----- and when an entry is not indexed

  lemma {:induction false} AcceptsOnly(p: Pool, asked: seq<Entry>, answers: seq<bool>, from: nat)
    requires from <= |answers| <= |asked| && forall i :: from <= i < |answers| ==> answers[i]
    ensures var before, after := Answered(p, asked, answers[..from]), Answered(p, asked, answers);
            after.Some? ==>
              before.Some? && after.value.txs == before.value.txs && after.value.index == before.value.index
    ensures Answered(p, asked, answers[..from]).None? ==> Answered(p, asked, answers).None?
  {
    if from == |answers| {
      assert answers[..from] == answers;
    } else {
      var n := |answers| - 1;
      assert answers[..n][..from] == answers[..from];
      AcceptsOnly(p, asked, answers[..n], from);
    }
  }

  /** Refusing an entry that is not indexed panics, or takes out another one. */
  lemma {:induction false} RefusedStays(q: Pool, e: Entry)
    requires Sorted(q.txs) && e in q.txs && !(e.tx in q.index && q.index[e.tx] == e.rank) && q.cursor.Some?
    ensures var r := Rechecked(q, e.tx, false); r.Some? ==> e in r.value.txs
  {
    if e.tx in q.index {
      KeepsOthers(q.txs, q.index[e.tx], e);
    }
  }

  lemma {:induction false} KeepsOthers(txs: seq<Entry>, rank: nat, e: Entry)
    requires e in txs && e.rank != rank
    ensures e in Without(txs, rank)
  {
    var last := |txs| - 1;
    if txs[last] != e {
      var i :| 0 <= i < |txs| && txs[i] == e;
      assert txs[..last][i] == e;
      KeepsOthers(txs[..last], rank, e);
    }
  }

  lemma {:induction false} NotAccepted(asked: seq<Entry>, answers: seq<bool>, o: nat)
    requires |answers| <= |asked| && Sorted(asked) && o < |answers| && !answers[o]
    ensures asked[o] !in Accepted(asked, answers)
  {
    AcceptedRanks(asked, answers);
    hide Accepted;
    forall i | 0 <= i < |answers| && answers[i] ensures asked[i] != asked[o] {
    }
  }

  /** Accepting everything before `o` leaves the pool whole and the cursor at `o`. */
  lemma {:induction false} CursorReaches(p: Pool, answers: seq<bool>)
    requires Sorted(p.txs) && |answers| < |p.txs| && forall i :: 0 <= i < |answers| ==> answers[i]
    ensures var r := Answered(StartRecheck(p), p.txs, answers);
            r.Some? && r.value == StartRecheck(p).(cursor := Some(p.txs[|answers|]))
  {
    if |answers| > 0 {
      var n := |answers| - 1;
      CursorReaches(p, answers[..n]);
      assert p.txs == p.txs[..n + 1] + p.txs[n + 1..];
      FirstAfterSplit(p.txs[..n + 1], p.txs[n + 1..], p.txs[n].rank);
    }
  }

  lemma {:induction false} UnindexedBreaks(p: Pool, o: nat) returns (answers: seq<bool>)
    requires Sorted(p.txs) && o < |p.txs| && !(p.txs[o].tx in p.index && p.index[p.txs[o].tx] == p.txs[o].rank)
    ensures |answers| == |p.txs| && !Exact(p, answers)
  {
    answers := seq(|p.txs|, i requires 0 <= i < |p.txs| => i != o);
    var start := StartRecheck(p);
    CursorReaches(p, answers[..o]);
    var q := Answered(start, p.txs, answers[..o]).value;
    assert answers[..o + 1][..o] == answers[..o];
    assert p.txs[o] in q.txs;
    RefusedStays(q, p.txs[o]);
    AcceptsOnly(start, p.txs, answers, o + 1);
    NotAccepted(p.txs, answers, o);
  }

  /** A recheck is exact whatever the application answers if and only if every entry is
      indexed, that is, no transaction was stored twice. */
  lemma {:induction false} ExactIffIndexed(p: Pool)
    requires Sorted(p.txs) && |p.txs| > 0
    ensures (forall answers :: |answers| == |p.txs| ==> Exact(p, answers)) <==> Indexed(p)
  {
    if Indexed(p) {
      forall answers: seq<bool> | |answers| == |p.txs| ensures Exact(p, answers) {
        RecheckExact(p, answers);
        assert Half(p.txs, answers) == Accepted(p.txs, answers);
      }
    } else {
      var o :| 0 <= o < |p.txs| && !(p.txs[o].tx in p.index && p.index[p.txs[o].tx] == p.txs[o].rank);
      var answers := UnindexedBreaks(p, o);
    }
  }

  // ----- distinct transactions stay indexed

  lemma {:induction false} RemoveIndexed(p: Pool, c: Config, tx: Tx)
    requires Inv(p, c) && Indexed(p)
    ensures Indexed(Remove(p, tx))
  {
    if tx in p.index {
      var i :| 0 <= i < |p.txs| && p.txs[i] == Entry(tx, p.index[tx]);
      IndexedAfter(p, i);
    }
  }

  lemma {:induction false} RemoveAllIndexed(p: Pool, c: Config, txs: seq<Tx>)
    requires Inv(p, c) && Indexed(p)
    ensures Indexed(RemoveAll(p, txs))
  {
    if |txs| > 0 {
      RemoveAllIndexed(p, c, txs[..|txs| - 1]);
      RemoveAllKept(p, c, txs[..|txs| - 1]);
      RemoveIndexed(RemoveAll(p, txs[..|txs| - 1]), c, txs[|txs| - 1]);
    }
  }

  lemma {:induction false} AddIndexed(p: Pool, tx: Tx, rank: nat)
    requires Sorted(p.txs) && Indexed(p) && forall k :: 0 <= k < |p.txs| ==> p.txs[k].rank != rank && p.txs[k].tx != tx
    ensures Indexed(Add(p, tx, rank))
  {
    var i := PlaceAt(p.txs, Entry(tx, rank));
    var after := p.txs[..i] + [Entry(tx, rank)] + p.txs[i..];
    hide Place, Sorted;
    forall k | 0 <= k < |after|
      ensures after[k].tx in p.index[tx := rank] && p.index[tx := rank][after[k].tx] == after[k].rank
    {
      assert after[k] == if k < i then p.txs[k] else if k == i then Entry(tx, rank) else p.txs[k - 1];
    }
  }

  /** As long as no transaction is added that is stored already, every entry stays indexed,
      so every recheck is exact. */
  lemma {:induction false} StaysIndexed(ps: seq<Pool>, es: seq<Event>, c: Config, i: nat)
    requires IsRun(ps, es, c) && i < |ps|
    requires forall j, k :: 0 <= j < i && es[j].FirstTime? && 0 <= k < |ps[j].txs| ==> ps[j].txs[k].tx != es[j].tx
    ensures Indexed(ps[i])
  {
    if i > 0 {
      StaysIndexed(ps, es, c, i - 1);
      CountsRight(ps, es, c, i - 1);
      var p, e := ps[i - 1], es[i - 1];
      assert Fresh(p, e) && Next(p, c, e, ps[i]);
      hide IsRun, OwnIndex, Inv;
      match e {
        case FirstTime(tx, rank, ok) =>
          assert Sorted(p.txs) by { InvSorted(p, c); }
          AddIndexed(p, tx, rank);
        case Block(committed, recheck) =>
          RemoveAllIndexed(p, c, committed);
        case Response(tx, ok) =>
          RemoveIndexed(p, c, tx);
        case RemoveTxs(list) =>
          var n :| 0 <= n <= |list| && ps[i] == RemoveAll(p, list[..n]);
          RemoveAllIndexed(p, c, list[..n]);
      }
    }
  }

  lemma InvSorted(p: Pool, c: Config)
    requires Inv(p, c)
    ensures Sorted(p.txs)
  {
  }

  /** A transaction that reaches the pool twice breaks a recheck. */
  lemma UnindexedReachable(tx: Tx, c: Config) returns (ps: seq<Pool>, es: seq<Event>, answers: seq<bool>)
    requires c.size >= 2 && c.maxTxsBytes >= 2 * tx.size
    ensures es == [FirstTime(tx, 1, true), FirstTime(tx, 2, true)] && IsRun(ps, es, c)
    ensures |answers| == |ps[2].txs| && !Exact(ps[2], answers)
  {
    es := [FirstTime(tx, 1, true), FirstTime(tx, 2, true)];
    var first := Add(EMPTY, tx, 1);
    assert first.txs == [Entry(tx, 1)];
    var second := Add(first, tx, 2);
    assert second.txs == [Entry(tx, 1), Entry(tx, 2)];
    ps := [EMPTY, first, second];
    assert Next(EMPTY, c, es[0], first) && Next(first, c, es[1], second);
    answers := UnindexedBreaks(second, 0);
  }
}
