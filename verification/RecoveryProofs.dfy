/** Which crashes, at any write of a commit or of an earlier recovery, can be recovered from:
    all but those that leave the state behind a block with evidence that needs a pool. */
module RecoveryProofs {
  import opened Common
  import opened Validation
  import opened Recovery

  /** The application has run the blocks up to its height, once each and in order. */
  ghost predicate RanInOrder(app: seq<nat>) {
    forall i :: 0 <= i < |app| ==> app[i] == i + 1
  }

  ghost predicate HeightsOk(base: nat, height: nat, walEnd: nat, state: nat, app: nat) {
    && (if height == 0 then base == 0 else 1 <= base <= height)
    && state <= height <= state + 1 && walEnd <= height
    && app <= height && base <= app + 1
  }

  /** The application is ahead of the state only with the responses saved. */
  ghost predicate ResponsesOk(d: Disk, c: Chain) {
    |d.app| > |d.state| ==> d.height in d.responses && d.responses[d.height].txs == c.answer(d.height).txs
  }

  /** The block that the state lacks passed with some pool. */
  ghost predicate TopPassed(d: Disk, c: Chain) {
    d.height > |d.state| ==> exists pool :: AllPass(pool, c.evidence(d.height))
  }

  ghost predicate Inv(d: Disk, c: Chain) {
    && HeightsOk(d.base, d.height, d.walEnd, |d.state|, |d.app|) && RanInOrder(d.app)
    && ResponsesOk(d, c) && TopPassed(d, c)
  }

  ghost predicate Synced(d: Disk) {
    |d.state| == d.height == |d.app|
  }

  /** When a write may come. */
  ghost predicate Allowed(d: Disk, w: Write, c: Chain) {
    match w
    case PutBlock(h) => Synced(d) && h == d.height + 1 && exists pool :: AllPass(pool, c.evidence(h))
    case EndHeight(h) => h <= d.height
    case PutResponses(h, r) => r.txs == c.answer(h).txs
    case AppCommit(h) =>
      h == |d.app| + 1 <= d.height && (h > |d.state| ==> h in d.responses && d.responses[h].txs == c.answer(h).txs)
    case PutState(_) => |d.app| > |d.state|
    case Prune(base) => 1 <= base <= d.height && base <= |d.app| + 1
  }

  lemma WriteKept(d: Disk, w: Write, c: Chain)
    requires Inv(d, c) && Allowed(d, w, c)
    ensures Inv(Written(d, w), c)
  {
    hide AllPass;
  }

  /** A crash after any number of the writes leaves the invariant. */
  ghost predicate Safe(d: Disk, ws: seq<Write>, c: Chain) {
    forall n :: 0 <= n <= |ws| ==> Inv(AllWritten(d, ws[..n]), c)
  }

  lemma {:induction false} SafeThen(d: Disk, a: seq<Write>, b: seq<Write>, c: Chain)
    requires Safe(d, a, c) && Safe(AllWritten(d, a), b, c)
    ensures Safe(d, a + b, c)
  {
    hide Inv;
    forall n | 0 <= n <= |a + b| ensures Inv(AllWritten(d, (a + b)[..n]), c) {
      if n <= |a| {
        assert (a + b)[..n] == a[..n];
      } else {
        assert (a + b)[..n] == a + b[..n - |a|];
        AllWrittenTwice(d, a, b[..n - |a|]);
      }
    }
  }

  lemma {:induction false} SafeSnoc(d: Disk, ws: seq<Write>, w: Write, c: Chain)
    requires Safe(d, ws, c) && Allowed(AllWritten(d, ws), w, c)
    ensures Safe(d, ws + [w], c) && AllWritten(d, ws + [w]) == Written(AllWritten(d, ws), w)
    ensures Inv(AllWritten(d, ws + [w]), c)
  {
    assert ws[..|ws|] == ws;
    WriteKept(AllWritten(d, ws), w, c);
    hide Inv, Allowed;
    AllWrittenLast(d, ws, w);
    forall n | 0 <= n <= |ws| + 1 ensures Inv(AllWritten(d, (ws + [w])[..n]), c) {
      assert (ws + [w])[..n] == if n <= |ws| then ws[..n] else ws + [w];
    }
  }

  lemma SafeNone(d: Disk, c: Chain)
    requires Inv(d, c)
    ensures Safe(d, [], c) && AllWritten(d, []) == d
  {
  }

  /** ApplyBlock on the block after the state. */
  lemma {:induction false} ApplySafe(d: Disk, r: Response, onApp: bool, c: Chain)
    requires Inv(d, c) && d.height == |d.state| + 1 && r.txs == c.answer(d.height).txs
    requires if onApp then |d.app| == |d.state| else |d.app| == d.height
    ensures var ws := ApplyWrites(d.height, r, onApp);
            && Safe(d, ws, c)
            && AllWritten(d, ws) == d.(responses := d.responses[d.height := r], state := d.state + [r.update],
                                       app := if onApp then d.app + [d.height] else d.app)
  {
    var h := d.height;
    SafeNone(d, c);
    hide Safe, AllWritten, Inv;
    SafeSnoc(d, [], PutResponses(h, r), c);
    var ws := [] + [PutResponses(h, r)];
    if onApp {
      SafeSnoc(d, ws, AppCommit(h), c);
      ws := ws + [AppCommit(h)];
    }
    SafeSnoc(d, ws, PutState(r.update), c);
    assert ApplyWrites(h, r, onApp) == ws + [PutState(r.update)];
  }

  function UpTo(n: nat): seq<nat> {
    seq(n, i requires 0 <= i < n => i + 1)
  }

  lemma {:induction false} CommitsSafe(d: Disk, last: nat, c: Chain)
    requires Inv(d, c) && |d.app| <= last <= |d.state|
    ensures var ws := CommitsFrom(|d.app| + 1, last);
            Safe(d, ws, c) && AllWritten(d, ws) == d.(app := UpTo(last)) && Inv(d.(app := UpTo(last)), c)
  {
    hide Safe, AllWritten, CommitsFrom, Inv;
    if last == |d.app| {
      NoCommits(d, |d.app| + 1, last);
      RanUpTo(d, c);
      SafeNone(d, c);
    } else {
      CommitsSafe(d, last - 1, c);
      NextCommit(|d.app| + 1, last);
      CommitAllowed(d, last, c);
      SafeSnoc(d, CommitsFrom(|d.app| + 1, last - 1), AppCommit(last), c);
      assert UpTo(last) == UpTo(last - 1) + [last];
    }
  }

  lemma RanUpTo(d: Disk, c: Chain)
    requires Inv(d, c)
    ensures d.app == UpTo(|d.app|)
  {
  }

  lemma CommitAllowed(d: Disk, last: nat, c: Chain)
    requires Inv(d, c) && |d.app| < last <= |d.state|
    ensures Allowed(d.(app := UpTo(last - 1)), AppCommit(last), c)
  {
  }

  /** The updates the recovered state is built from. */
  function RecoveredState(d: Disk, c: Chain): seq<Option<nat>> {
    if d.height == |d.state| then d.state
    else if |d.app| == d.height then d.state + [None]
    else d.state + [c.answer(d.height).update]
  }

  /** What a finished handshake leaves. */
  ghost predicate Recovered(d: Disk, after: Disk, c: Chain) {
    && Synced(after) && RanInOrder(after.app)
    && after.height == d.height && after.base == d.base && after.walEnd == d.walEnd
    && after.state == RecoveredState(d, c)
  }

  /** What a refused one leaves: the state as it was, the application just behind the block. */
  ghost predicate Refused(d: Disk, after: Disk) {
    && after == d.(app := after.app) && d.app <= after.app
    && |after.app| == if |d.app| < |d.state| then |d.state| else |d.app|
  }

  ghost predicate Ended(d: Disk, after: Disk, c: Chain) {
    if ReplayResult(d, c) == Done then Recovered(d, after, c) else Refused(d, after)
  }

  lemma {:induction false} BehindSafe(d: Disk, c: Chain)
    requires Inv(d, c) && |d.app| < |d.state| < d.height
    ensures var ws := CommitsFrom(|d.app| + 1, d.height - 1) + LastWrites(c, d.height, c.answer(d.height), true);
            var after := AllWritten(d, ws);
            Safe(d, ws, c) && if Replays(c, d.height) then Recovered(d, after, c) else Refused(d, after)
  {
    hide Safe, AllWritten, CommitsFrom, ApplyWrites, Inv, AllPass;
    InvHeights(d, c);
    CommitsSafe(d, |d.state|, c);
    RanUpTo(d, c);
    var first, last := CommitsFrom(|d.app| + 1, |d.state|), LastWrites(c, d.height, c.answer(d.height), true);
    var behind := d.(app := UpTo(|d.state|));
    if Replays(c, d.height) {
      ApplySafe(behind, c.answer(d.height), true, c);
    } else {
      SafeNone(behind, c);
    }
    SafeThen(d, first, last, c);
    AllWrittenTwice(d, first, last);
  }

  lemma InvHeights(d: Disk, c: Chain)
    requires Inv(d, c)
    ensures HeightsOk(d.base, d.height, d.walEnd, |d.state|, |d.app|) && RanInOrder(d.app)
  {
  }

  /** The handshake fails if and only if the state lacks a block that does not pass without a
      pool. It is safe to interrupt, and otherwise ends with application and state at the
      store's height. */
  lemma {:induction false} ReplaySafe(d: Disk, c: Chain)
    requires Inv(d, c)
    ensures var plan := PlanFor(d.base, d.height, |d.state|, |d.app|);
            && !plan.Refuse? && (plan.LastOnMock? ==> d.height in d.responses)
            && (plan.LastOnMock? <==> |d.app| == d.height == |d.state| + 1)
    ensures ReplayResult(d, c) == if |d.state| < d.height && !Replays(c, d.height) then InvalidBlock else Done
    ensures var ws := ReplayWrites(d, c); Safe(d, ws, c) && Ended(d, AllWritten(d, ws), c)
  {
    hide Safe, AllWritten, CommitsFrom, ApplyWrites, AllPass;
    var store, state, app := d.height, |d.state|, |d.app|;
    SafeNone(d, c);
    if store == state {
      CommitsSafe(d, store, c);
    } else if app < state {
      BehindSafe(d, c);
    } else if Replays(c, store) {
      if app == state {
        ApplySafe(d, c.answer(store), true, c);
      } else {
        ApplySafe(d, MockAnswer(d.responses[store]), false, c);
      }
    }
  }

  /** The blocks the application is made to run: those it lacks, once each, in order; none
      when the mock stands in for it. */
  lemma {:induction false} RunsMissing(d: Disk, c: Chain)
    requires Inv(d, c) && ReplayResult(d, c) == Done
    ensures var after := AllWritten(d, ReplayWrites(d, c));
            d.app <= after.app && after.app[|d.app|..] == UpTo(d.height)[|d.app|..]
    ensures forall h :: h in UpTo(d.height)[|d.app|..] ==> d.base <= h <= d.height
  {
    hide Safe, AllWritten, ReplayWrites, ReplayResult, AllPass;
    ReplaySafe(d, c);
  }

  /** A commit may be interrupted after any write as well. */
  lemma {:induction false} FinalizeSafe(d: Disk, c: Chain, pool: Pool, retain: nat)
    requires Inv(d, c) && Synced(d) && AllPass(pool, c.evidence(d.height + 1))
    ensures var ws := FinalizeWrites(d, c, pool, retain);
            var after := AllWritten(d, ws);
            && Safe(d, ws, c) && Synced(after) && after.walEnd == after.height == d.height + 1
            && after.state == d.state + [c.answer(d.height + 1).update]
  {
    var h := d.height + 1;
    SafeNone(d, c);
    hide Safe, AllWritten, ApplyWrites, AllPass;
    SafeSnoc(d, [], PutBlock(h), c);
    var ws := [] + [PutBlock(h)];
    SafeSnoc(d, ws, EndHeight(h), c);
    ws := ws + [EndHeight(h)];
    var applying := ApplyWrites(h, c.answer(h), true);
    ApplySafe(AllWritten(d, ws), c.answer(h), true, c);
    SafeThen(d, ws, applying, c);
    AllWrittenTwice(d, ws, applying);
    assert CommitWrites(d, c) == ws + applying;
    ws := ws + applying;
    var after := AllWritten(d, ws);
    if after.base < retain <= after.height {
      SafeSnoc(d, ws, Prune(retain), c);
    } else {
      assert ws + [] == ws;
    }
  }

  // ----- every run

  datatype Event =
    | Restart(app: nat, stop: nat)       // the application comes back at `app`
    | Commit(pool: Pool, retain: nat, stop: nat)

  datatype Machine = Machine(disk: Disk, live: bool)

  /** The writes up to `stop`; the node lives on only if that is all of them and it went well. */
  function Stopped(d: Disk, ws: seq<Write>, stop: nat, ok: bool): Machine {
    if stop < |ws| then Machine(AllWritten(d, ws[..stop]), false) else Machine(AllWritten(d, ws), ok)
  }

  /** An application may come back behind what it committed, but not below the store. */
  predicate Enabled(m: Machine, e: Event) {
    match e
    case Restart(app, _) => app <= |m.disk.app| && m.disk.base <= app + 1
    case Commit(_, _, _) => m.live
  }

  function Back(d: Disk, app: nat): Disk
    requires app <= |d.app|
  {
    d.(app := d.app[..app])
  }

  ghost function Next(m: Machine, e: Event, c: Chain): Machine
    requires Enabled(m, e)
  {
    match e
    case Restart(app, stop) =>
      var d := Back(m.disk, app);
      Stopped(d, ReplayWrites(d, c), stop, ReplayResult(d, c) == Done)
    case Commit(pool, retain, stop) =>
      var h := |m.disk.state| + 1;
      Stopped(m.disk, FinalizeWrites(m.disk, c, pool, retain), stop, AllPass(pool, c.evidence(h)))
  }

  ghost predicate IsRun(ms: seq<Machine>, events: seq<Event>, c: Chain) {
    && |ms| == |events| + 1 && ms[0] == Machine(EMPTY, false)
    && forall i :: 0 <= i < |events| ==> Enabled(ms[i], events[i]) && ms[i + 1] == Next(ms[i], events[i], c)
  }

  ghost predicate Good(m: Machine, c: Chain) {
    Inv(m.disk, c) && (m.live ==> Synced(m.disk))
  }

  lemma StoppedGood(d: Disk, ws: seq<Write>, stop: nat, ok: bool, c: Chain)
    requires Safe(d, ws, c) && (ok ==> Synced(AllWritten(d, ws)))
    ensures Good(Stopped(d, ws, stop, ok), c)
  {
    hide Inv, AllWritten, Synced;
    assert ws[..|ws|] == ws;
  }

  lemma {:induction false} NextGood(m: Machine, e: Event, c: Chain)
    requires Good(m, c) && Enabled(m, e)
    ensures Good(Next(m, e, c), c)
  {
    match e {
      case Restart(app, stop) =>
        var d := Back(m.disk, app);
        BackKept(m.disk, app, c);
        hide Inv, Safe, AllWritten, ReplayWrites, ReplayResult, AllPass;
        ReplaySafe(d, c);
        StoppedGood(d, ReplayWrites(d, c), stop, ReplayResult(d, c) == Done, c);
      case Commit(pool, retain, stop) =>
        hide Inv, Safe, AllWritten, CommitWrites, AllPass;
        SafeNone(m.disk, c);
        if AllPass(pool, c.evidence(m.disk.height + 1)) {
          FinalizeSafe(m.disk, c, pool, retain);
          StoppedGood(m.disk, FinalizeWrites(m.disk, c, pool, retain), stop, true, c);
        }
    }
  }

  lemma BackKept(d: Disk, app: nat, c: Chain)
    requires Inv(d, c) && app <= |d.app| && d.base <= app + 1
    ensures Inv(Back(d, app), c)
  {
    hide AllPass;
  }

  lemma {:induction false} RunGood(ms: seq<Machine>, events: seq<Event>, c: Chain, i: nat)
    requires IsRun(ms, events, c) && i < |ms|
    ensures Good(ms[i], c)
  {
    if i > 0 {
      RunGood(ms, events, c, i - 1);
      NextGood(ms[i - 1], events[i - 1], c);
    }
  }

  /** After any commits, crashes and interrupted recoveries, take a restart with the application
      at any height it may come back at. It ends in an error if and only if the state is behind
      the store and the block there does not pass without a pool. Otherwise it runs to the end:
      responses found, application and state at the store's height, blocks run once and in
      order. */
  lemma {:induction false} CrashRecovery(ms: seq<Machine>, events: seq<Event>, c: Chain, i: nat, app: nat)
    requires IsRun(ms, events, c) && i < |ms|
    requires app <= |ms[i].disk.app| && ms[i].disk.base <= app + 1
    ensures var d := Back(ms[i].disk, app);
            var after := AllWritten(d, ReplayWrites(d, c));
            && (ReplayResult(d, c) in {Done, InvalidBlock})
            && (ReplayResult(d, c) == InvalidBlock <==> |d.state| < d.height && !Replays(c, d.height))
            && (ReplayResult(d, c) == Done ==> Recovered(d, after, c) && after.app == UpTo(d.height))
            && (ReplayResult(d, c) != Done ==> Refused(d, after))
    ensures var d := ms[i].disk;
            |d.state| < d.height ==> exists pool :: Accepted(pool, c, d.height)
  {
    RunGood(ms, events, c, i);
    var d := Back(ms[i].disk, app);
    BackKept(ms[i].disk, app, c);
    hide IsRun, Inv, AllWritten, ReplayWrites, ReplayResult, PlanFor, AllPass, Replays, Safe, SomeNeedsPool;
    ReplaySafe(d, c);
    if ReplayResult(d, c) == Done {
      RunsMissing(d, c);
    }
    TopHasPassed(ms[i].disk, c);
    if |d.state| < d.height {
      var pool :| AllPass(pool, c.evidence(d.height));
      NeedlessReplays(pool, c, d.height);
    }
  }

  /** The block passed with this pool, and does without it unless its evidence needs one. */
  ghost predicate Accepted(pool: Pool, c: Chain, h: nat) {
    AllPass(pool, c.evidence(h)) && (Replays(c, h) <==> !SomeNeedsPool(pool, c.evidence(h)))
  }

  lemma NeedlessReplays(pool: Pool, c: Chain, h: nat)
    requires AllPass(pool, c.evidence(h))
    ensures Accepted(pool, c, h)
  {
    RefusedIff(pool, c.evidence(h));
  }

  lemma TopHasPassed(d: Disk, c: Chain)
    requires Inv(d, c)
    ensures TopPassed(d, c)
  {
  }

  // ----- a node that never starts again

  /** The state lacks the last block of the store, which does not pass without a pool. */
  ghost predicate Stuck(m: Machine, c: Chain) {
    !m.live && |m.disk.state| < m.disk.height && !Replays(c, m.disk.height)
  }

  lemma {:induction false} StaysStuck(m: Machine, e: Event, c: Chain)
    requires Good(m, c) && Stuck(m, c) && Enabled(m, e)
    ensures Stuck(Next(m, e, c), c)
  {
    var d := Back(m.disk, e.app);
    BackKept(m.disk, e.app, c);
    hide Inv, AllPass, Safe;
    ReplaySafe(d, c);
    var ws := ReplayWrites(d, c);
    OnlyCommits(d, c);
    CommitsLeave(d, if e.stop < |ws| then ws[..e.stop] else ws);
  }

  ghost predicate AppOnly(ws: seq<Write>) {
    forall i :: 0 <= i < |ws| ==> ws[i].AppCommit?
  }

  lemma OnlyCommits(d: Disk, c: Chain)
    requires |d.state| < d.height && !Replays(c, d.height)
    ensures AppOnly(ReplayWrites(d, c))
  {
    hide AllPass;
    CommitsOnly(|d.app| + 1, d.height - 1);
  }

  lemma {:induction false} CommitsOnly(first: nat, last: nat)
    ensures AppOnly(CommitsFrom(first, last))
  {
    if last > 0 {
      CommitsOnly(first, last - 1);
    }
  }

  lemma {:induction false} CommitsLeave(d: Disk, ws: seq<Write>)
    requires AppOnly(ws)
    ensures AllWritten(d, ws) == d.(app := AllWritten(d, ws).app)
  {
    if |ws| > 0 {
      CommitsLeave(d, ws[..|ws| - 1]);
    }
  }

  /** From then on every restart fails. */
  lemma {:induction false} NeverStarts(ms: seq<Machine>, events: seq<Event>, c: Chain, i: nat, j: nat)
    requires IsRun(ms, events, c) && i <= j < |ms| && Stuck(ms[i], c)
    ensures Stuck(ms[j], c) && !ms[j].live
  {
    if i < j {
      NeverStarts(ms, events, c, i, j - 1);
      RunGood(ms, events, c, j - 1);
      hide Good, Stuck, Next;
      StaysStuck(ms[j - 1], events[j - 1], c);
      StuckIsDown(ms[j], c);
    }
  }

  lemma StuckIsDown(m: Machine, c: Chain)
    requires Stuck(m, c)
    ensures !m.live
  {
  }

  /** A stop anywhere from the save of the block to the save of the state, on a block with
      evidence that needs the pool, and only then. */
  lemma {:induction false} StuckIff(m: Machine, c: Chain, pool: Pool, retain: nat, stop: nat)
    requires Good(m, c) && m.live && AllPass(pool, c.evidence(m.disk.height + 1))
    ensures Stuck(Next(m, Commit(pool, retain, stop), c), c) <==>
            1 <= stop <= 4 && SomeNeedsPool(pool, c.evidence(m.disk.height + 1))
  {
    var d, h, r := m.disk, m.disk.height + 1, c.answer(m.disk.height + 1);
    NeedlessReplays(pool, c, h);
    hide Inv, AllPass, SomeNeedsPool;
    FinalizeSafe(d, c, pool, retain);
    var ws := FinalizeWrites(d, c, pool, retain);
    assert ws[..5] == [PutBlock(h), EndHeight(h), PutResponses(h, r), AppCommit(h), PutState(r.update)];
    if stop <= 4 {
      BeforeState(d, ws, stop);
    }
  }

  lemma BeforeState(d: Disk, ws: seq<Write>, stop: nat)
    requires |ws| >= 5 && stop <= 4 && ws[0] == PutBlock(d.height + 1)
    requires ws[1].EndHeight? && ws[2].PutResponses? && ws[3].AppCommit?
    ensures var after := AllWritten(d, ws[..stop]);
            after.state == d.state && after.height == if stop == 0 then d.height else d.height + 1
  {
    if stop > 0 {
      BeforeState(d, ws, stop - 1);
      assert ws[..stop] == ws[..stop - 1] + [ws[stop - 1]];
      AllWrittenLast(d, ws[..stop - 1], ws[stop - 1]);
    }
  }

  // ----- when the recovered state is the one a node that never crashed has

  ghost predicate Exact(state: seq<Option<nat>>, c: Chain) {
    forall i :: 0 <= i < |state| ==> state[i] == c.answer(i + 1).update
  }

  /** The mock answers without validator and parameter updates. So a recovery keeps the
      state exact if and only if it is refused, does not use the mock, or the block has no
      updates. */
  lemma {:induction false} ExactIff(d: Disk, c: Chain)
    requires Inv(d, c) && Exact(d.state, c)
    ensures Exact(AllWritten(d, ReplayWrites(d, c)).state, c) <==>
            || ReplayResult(d, c) != Done || !PlanFor(d.base, d.height, |d.state|, |d.app|).LastOnMock?
            || c.answer(d.height).update == None
  {
    hide AllWritten, ReplayWrites, ReplayResult, AllPass;
    ReplaySafe(d, c);
    var after := RecoveredState(d, c);
    if |after| > |d.state| {
      assert after[|d.state|] == if |d.app| == d.height then None else c.answer(d.height).update;
    }
  }

  /** One block that changes the validators, a crash after the application's commit, and the
      next start loses the change. */
  lemma UpdateLost() returns (ms: seq<Machine>, events: seq<Event>, c: Chain)
    ensures IsRun(ms, events, c) && |ms| == 4 && ms[3].live
    ensures Exact(ms[2].disk.state, c) && !Exact(ms[3].disk.state, c)
  {
    hide AllWritten;
    var r := Response(0, Some(7));
    c := Chain(h => Response(0, Some(7)), h => []);
    var d := Disk(1, 1, 1, map[1 := r], [], [1]);
    events := [Restart(0, 0), Commit(NO_POOL, 0, 4), Restart(1, 2)];
    ms := [Machine(EMPTY, false), Machine(EMPTY, true), Machine(d, false), Next(Machine(d, false), Restart(1, 2), c)];
    EmptyStarts(c);
    StopsAfterCommit(c);
    assert Back(d, 1) == d;
    assert AllPass(NO_POOL, c.evidence(1));
    ExactIff(d, c);
  }

  lemma EmptyStarts(c: Chain)
    ensures Next(Machine(EMPTY, false), Restart(0, 0), c) == Machine(EMPTY, true)
  {
    assert Back(EMPTY, 0) == EMPTY;
  }

  lemma StopsAfterCommit(c: Chain)
    requires AllPass(NO_POOL, c.evidence(1))
    ensures var r := c.answer(1);
            Next(Machine(EMPTY, true), Commit(NO_POOL, 0, 4), c) == Machine(Disk(1, 1, 1, map[1 := r], [], [1]), false)
  {
    var r := c.answer(1);
    var ws := FinalizeWrites(EMPTY, c, NO_POOL, 0);
    assert ws[..4] == [PutBlock(1), EndHeight(1), PutResponses(1, r), AppCommit(1)];
    FirstFour(r);
    hide AllWritten;
  }

  lemma FirstFour(r: Response)
    ensures AllWritten(EMPTY, [PutBlock(1), EndHeight(1), PutResponses(1, r), AppCommit(1)]) ==
            Disk(1, 1, 1, map[1 := r], [], [1])
  {
    AllWrittenLast(EMPTY, [], PutBlock(1));
    AllWrittenLast(EMPTY, [PutBlock(1)], EndHeight(1));
    AllWrittenLast(EMPTY, [PutBlock(1), EndHeight(1)], PutResponses(1, r));
    AllWrittenLast(EMPTY, [PutBlock(1), EndHeight(1), PutResponses(1, r)], AppCommit(1));
    assert [] + [PutBlock(1)] == [PutBlock(1)] && [PutBlock(1)] + [EndHeight(1)] == [PutBlock(1), EndHeight(1)];
    assert [PutBlock(1), EndHeight(1)] + [PutResponses(1, r)] == [PutBlock(1), EndHeight(1), PutResponses(1, r)];
    assert [PutBlock(1), EndHeight(1), PutResponses(1, r)] + [AppCommit(1)] ==
           [PutBlock(1), EndHeight(1), PutResponses(1, r), AppCommit(1)];
  }

  /** The second block accuses a validator of signing another chain's header of height 1, which
      the pool has. A stop right after the block is saved, and the node never starts again. */
  lemma {:induction false} EvidenceSticks() returns (ms: seq<Machine>, events: seq<Event>, c: Chain)
    ensures IsRun(ms, events, c) && |ms| == 4 && ms[2].live && Stuck(ms[3], c)
  {
    hide AllWritten, Inv, Safe, FinalizeWrites;
    var ev := Evidence(1, Lunatic, 0, true);
    c := Chain(h => Response(0, None), h => if h == 2 then [ev] else []);
    var pool := Pool({}, {}, {1});
    EmptyStarts(c);
    assert AllPass(NO_POOL, c.evidence(1));
    assert AllPass(pool, c.evidence(2)) && NeedsPool(pool, c.evidence(2)[0]);
    var m := OneBlock(c);
    StuckIff(m, c, pool, 0, 1);
    hide Next, AllPass;
    var second := Commit(pool, 0, 1);
    events := [Restart(0, 0), Commit(NO_POOL, 0, 6), second];
    ms := [Machine(EMPTY, false), Machine(EMPTY, true), m, Next(m, second, c)];
  }

  lemma {:induction false} OneBlock(c: Chain) returns (m: Machine)
    requires AllPass(NO_POOL, c.evidence(1))
    ensures m == Next(Machine(EMPTY, true), Commit(NO_POOL, 0, 6), c) && m.live && m.disk.height == 1 && Good(m, c)
  {
    NextGood(Machine(EMPTY, true), Commit(NO_POOL, 0, 6), c);
    hide Inv, Safe, AllWritten, AllPass;
    FinalizeSafe(EMPTY, c, NO_POOL, 0);
    m := Next(Machine(EMPTY, true), Commit(NO_POOL, 0, 6), c);
  }
}
