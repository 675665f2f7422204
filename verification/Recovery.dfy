/** consensus/replay.go with the write order of consensus/state.go and state/execution.go:
    a node that may stop after any durable write, and its handshake with the application. */
module Recovery {
  import opened Common
  import opened Validation

  /** The application's answer to a block: transaction results, and validator or parameter
      updates. */
  datatype Response = Response(txs: nat, update: Option<nat>)

  /** What survives a crash. `state` lists the updates the saved state was built from, one a
      block; `app` the heights the application has committed. */
  datatype Disk = Disk(base: nat, height: nat, walEnd: nat, responses: map<nat, Response>,
                       state: seq<Option<nat>>, app: seq<nat>)

  const EMPTY := Disk(0, 0, 0, map[], [], [])

  datatype Write =
    | PutBlock(height: nat)
    | EndHeight(height: nat)
    | PutResponses(height: nat, responses: Response)
    | AppCommit(height: nat)
    | PutState(update: Option<nat>)
    | Prune(base: nat)

  function Written(d: Disk, w: Write): Disk {
    match w
    case PutBlock(h) => d.(base := if d.base == 0 then h else d.base, height := h)
    case EndHeight(h) => d.(walEnd := h)
    case PutResponses(h, r) => d.(responses := d.responses[h := r])
    case AppCommit(h) => d.(app := d.app + [h])
    case PutState(u) => d.(state := d.state + [u])
    case Prune(base) => d.(base := base)
  }

  function AllWritten(d: Disk, ws: seq<Write>): Disk {
    if |ws| == 0 then d else Written(AllWritten(d, ws[..|ws| - 1]), ws[|ws| - 1])
  }

  /** The blocks: the evidence in each, and the answer of an application that is
      deterministic. */
  datatype Chain = Chain(answer: nat -> Response, evidence: nat -> seq<Evidence>)

  /** What ApplyBlock writes. The mock application answers with the stored transaction
      results only, and its commit reaches nothing. */
  function ApplyWrites(h: nat, r: Response, onApp: bool): seq<Write> {
    [PutResponses(h, r)] + (if onApp then [AppCommit(h)] else []) + [PutState(r.update)]
  }

  function MockAnswer(saved: Response): Response {
    saved.(update := None)
  }

  /** Whether ApplyBlock accepts a block under the handshake's stub of a pool. */
  ghost predicate Replays(c: Chain, h: nat) {
    AllPass(NO_POOL, c.evidence(h))
  }

  /** finalizeCommit for the block after the saved state, then pruneBlocks. */
  function CommitWrites(d: Disk, c: Chain): seq<Write> {
    var h := |d.state| + 1;
    (if d.height < h then [PutBlock(h)] else []) + [EndHeight(h)] + ApplyWrites(h, c.answer(h), true)
  }

  ghost function FinalizeWrites(d: Disk, c: Chain, pool: Pool, retain: nat): seq<Write> {
    if !AllPass(pool, c.evidence(|d.state| + 1)) then [] else
    var ws := CommitWrites(d, c);
    var after := AllWritten(d, ws);
    ws + if after.base < retain <= after.height then [Prune(retain)] else []
  }

  datatype Outcome = Done | AppTooLow | AppTooHigh | NoResponses | InvalidBlock | Panicked

  datatype Plan = InSync | Blocks(last: nat) | BlocksThenLast | LastOnApp | LastOnMock | Refuse(why: Outcome)

  /** The case split of ReplayBlocks over the three heights. */
  function PlanFor(base: nat, store: nat, state: nat, app: nat): Plan {
    if store == 0 then InSync
    else if app + 1 < base then Refuse(AppTooLow)
    else if store < app then Refuse(AppTooHigh)
    else if store < state then Refuse(Panicked)
    else if store > state + 1 then Refuse(Panicked)
    else if store == state then
      if app < store then Blocks(store) else InSync
    else if app < state then BlocksThenLast
    else if app == state then LastOnApp
    else LastOnMock
  }

  function CommitsFrom(first: nat, last: nat): seq<Write> {
    if last == 0 || last < first then [] else CommitsFrom(first, last - 1) + [AppCommit(last)]
  }

  /** How the handshake ends, and what it writes. */
  ghost function ReplayResult(d: Disk, c: Chain): Outcome {
    var plan := PlanFor(d.base, d.height, |d.state|, |d.app|);
    if plan.Refuse? then plan.why
    else if plan.InSync? || plan.Blocks? then Done
    else if plan.LastOnMock? && d.height !in d.responses then NoResponses
    else if Replays(c, d.height) then Done
    else InvalidBlock
  }

  ghost function ReplayWrites(d: Disk, c: Chain): seq<Write> {
    var store := d.height;
    match PlanFor(d.base, store, |d.state|, |d.app|)
    case InSync => []
    case Blocks(last) => CommitsFrom(|d.app| + 1, last)
    case BlocksThenLast => CommitsFrom(|d.app| + 1, store - 1) + LastWrites(c, store, c.answer(store), true)
    case LastOnApp => LastWrites(c, store, c.answer(store), true)
    case LastOnMock => if store in d.responses then LastWrites(c, store, MockAnswer(d.responses[store]), false) else []
    case Refuse(_) => []
  }

  /** What replayBlock writes. */
  ghost function LastWrites(c: Chain, h: nat, r: Response, onApp: bool): seq<Write> {
    if Replays(c, h) then ApplyWrites(h, r, onApp) else []
  }

  class Process {
    const c: Chain
    var disk: Disk
    var nBlocks: nat
    ghost var log: seq<Write>

    constructor (c: Chain, disk: Disk)
      ensures this.c == c && this.disk == disk && log == [] && nBlocks == 0
    {
      this.c, this.disk, this.nBlocks, this.log := c, disk, 0, [];
    }

    /** Any one durable write. */
    method Put(w: Write)
      modifies this`disk, this`log
      ensures disk == Written(old(disk), w) && log == old(log) + [w]
    {
      disk := Written(disk, w);
      log := log + [w];
    }

    /** ApplyBlock: validate, save the responses, commit on the application, save the state. */
    method ApplyBlock(h: nat, pool: Pool, r: Response, onApp: bool) returns (ok: bool)
      modifies this`disk, this`log
      ensures ok <==> AllPass(pool, c.evidence(h))
      ensures var ws := if ok then ApplyWrites(h, r, onApp) else [];
              log == old(log) + ws && disk == AllWritten(old(disk), ws)
    {
      ok := ValidateEvidence(pool, c.evidence(h));
      if !ok {
        return;
      }
      ApplyIs(disk, h, r, onApp);
      Put(PutResponses(h, r));
      if onApp {
        Put(AppCommit(h));
      }
      Put(PutState(r.update));
    }

    /** replayBlock: ApplyBlock on the last block, without a pool. */
    method ReplayBlock(h: nat, r: Response, onApp: bool) returns (ok: bool)
      modifies this
      ensures ok <==> Replays(c, h)
      ensures var ws := LastWrites(c, h, r, onApp); log == old(log) + ws && disk == AllWritten(old(disk), ws)
    {
      ok := ApplyBlock(h, NO_POOL, r, onApp);
      if ok {
        nBlocks := nBlocks + 1;
      }
    }

    /** replayBlocks: commits on the application only, then the last block in full. */
    method ReplayRange(last: nat, mutateState: bool) returns (ok: bool)
      requires mutateState ==> last > 0
      modifies this
      ensures ok <==> (mutateState ==> Replays(c, last))
      ensures var first := |old(disk).app| + 1;
              var ws := if mutateState then CommitsFrom(first, last - 1) + LastWrites(c, last, c.answer(last), true)
                        else CommitsFrom(first, last);
              log == old(log) + ws && disk == AllWritten(old(disk), ws)
    {
      hide AllWritten, LastWrites, CommitsFrom;
      var final := last;
      if mutateState {
        final := final - 1;
      }
      var first := |disk.app| + 1;
      var i := first;
      NoCommits(disk, first, i - 1);
      while i <= final
        invariant first <= i && (first <= final ==> i <= final + 1) && (first > final ==> i == first)
        invariant log == old(log) + CommitsFrom(first, i - 1) &&
                  disk == AllWritten(old(disk), CommitsFrom(first, i - 1))
      {
        AllWrittenLast(old(disk), CommitsFrom(first, i - 1), AppCommit(i));
        NextCommit(first, i);
        Put(AppCommit(i));
        nBlocks := nBlocks + 1;
        i := i + 1;
      }
      if first > final {
        NoCommits(old(disk), first, final);
      }
      ok := true;
      if mutateState {
        AllWrittenTwice(old(disk), CommitsFrom(first, final), LastWrites(c, last, c.answer(last), true));
        ok := ReplayBlock(last, c.answer(last), true);
      }
    }

    /** ReplayBlocks. */
    method ReplayBlocks() returns (r: Outcome)
      modifies this
      ensures log == old(log) + ReplayWrites(old(disk), c)
      ensures disk == AllWritten(old(disk), ReplayWrites(old(disk), c))
      ensures r == ReplayResult(old(disk), c)
    {
      var base, store, state, app := disk.base, disk.height, |disk.state|, |disk.app|;
      if store == 0 {
        return Done;
      } else if app + 1 < base {
        return AppTooLow;
      } else if store < app {
        return AppTooHigh;
      } else if store < state {
        return Panicked;
      } else if store > state + 1 {
        return Panicked;
      }
      var ok := true;
      if store == state {
        if app < store {
          ok := ReplayRange(store, false);
        }
      } else if app < state {
        ok := ReplayRange(store, true);
      } else if app == state {
        ok := ReplayBlock(store, c.answer(store), true);
      } else {
        if store !in disk.responses {
          return NoResponses;
        }
        ok := ReplayBlock(store, MockAnswer(disk.responses[store]), false);
      }
      r := if ok then Done else InvalidBlock;
    }

    /** finalizeCommit, which panics on a block that does not pass; `retain` is what the
        application asks to keep. */
    method FinalizeCommit(pool: Pool, retain: nat) returns (r: Outcome)
      modifies this`disk, this`log
      ensures r == if AllPass(pool, c.evidence(|old(disk).state| + 1)) then Done else Panicked
      ensures log == old(log) + FinalizeWrites(old(disk), c, pool, retain)
      ensures disk == AllWritten(old(disk), FinalizeWrites(old(disk), c, pool, retain))
    {
      hide AllPass, AllWritten, CommitWrites;
      var valid := ValidateEvidence(pool, c.evidence(|disk.state| + 1));
      NoneWritten(disk);
      if !valid {
        return Panicked;
      }
      ghost var start, ws := disk, CommitWrites(disk, c);
      CommitBlock(pool);
      assert ws + [] == ws;
      if disk.base < retain <= disk.height {
        AllWrittenLast(start, ws, Prune(retain));
        Put(Prune(retain));
      }
      r := Done;
    }

    method CommitBlock(pool: Pool)
      requires AllPass(pool, c.evidence(|disk.state| + 1))
      modifies this`disk, this`log
      ensures log == old(log) + CommitWrites(old(disk), c) && disk == AllWritten(old(disk), CommitWrites(old(disk), c))
    {
      hide AllPass, AllWritten, ApplyWrites;
      ghost var start, ws := disk, [];
      NoneWritten(start);
      var h := |disk.state| + 1;
      if disk.height < h {
        AllWrittenLast(start, ws, PutBlock(h));
        Put(PutBlock(h));
        ws := ws + [PutBlock(h)];
      }
      AllWrittenLast(start, ws, EndHeight(h));
      Put(EndHeight(h));
      ws := ws + [EndHeight(h)];
      AllWrittenTwice(start, ws, ApplyWrites(h, c.answer(h), true));
      var ok := ApplyBlock(h, pool, c.answer(h), true);
      assert CommitWrites(start, c) == ws + ApplyWrites(h, c.answer(h), true);
    }
  }

  lemma NoneWritten(d: Disk)
    ensures AllWritten(d, []) == d
  {
  }

  lemma NoCommits(d: Disk, first: nat, last: nat)
    requires last < first
    ensures CommitsFrom(first, last) == [] && AllWritten(d, []) == d
  {
  }

  lemma NextCommit(first: nat, last: nat)
    requires 1 <= first <= last
    ensures CommitsFrom(first, last) == CommitsFrom(first, last - 1) + [AppCommit(last)]
  {
  }

  lemma AllWrittenLast(d: Disk, ws: seq<Write>, w: Write)
    ensures AllWritten(d, ws + [w]) == Written(AllWritten(d, ws), w)
  {
    assert (ws + [w])[..|ws|] == ws;
  }

  lemma {:induction false} AllWrittenTwice(d: Disk, a: seq<Write>, b: seq<Write>)
    ensures AllWritten(d, a + b) == AllWritten(AllWritten(d, a), b)
  {
    if |b| == 0 {
      assert a + b == a;
    } else {
      assert (a + b)[..|a + b| - 1] == a + b[..|b| - 1];
      AllWrittenTwice(d, a, b[..|b| - 1]);
    }
  }

  lemma ApplyIs(d: Disk, h: nat, r: Response, onApp: bool)
    ensures AllWritten(d, ApplyWrites(h, r, onApp)) ==
            Written(if onApp then Written(Written(d, PutResponses(h, r)), AppCommit(h))
                    else Written(d, PutResponses(h, r)),
                    PutState(r.update))
  {
    AllWrittenLast(d, [], PutResponses(h, r));
    assert [] + [PutResponses(h, r)] == [PutResponses(h, r)];
    AllWrittenLast(d, [PutResponses(h, r)], AppCommit(h));
    AllWrittenLast(d, [PutResponses(h, r)] + (if onApp then [AppCommit(h)] else []), PutState(r.update));
    assert [PutResponses(h, r)] + [] == [PutResponses(h, r)];
  }
}
