/** A history in which pruning from below the base panics. */
module PruneExample {
  import opened Common
  import opened Validators
  import opened Priorities
  import opened History
  import opened HistoryProofs
  import opened StateStore
  import opened PruneProofs
  import HistoryExample

  const QUIET := Block([], None)

  /** One more block that changes nothing. */
  lemma {:induction false} QuietStep(a: Node) returns (b: Node)
    requires Good(a)
    ensures |a.states| > 0 && Next(a, Commit(QUIET), b) && Good(b) && b.base == a.base
    ensures |b.states| == |a.states| + 1 && b.states[..|a.states|] == a.states
    ensures b.states[|a.states|].valsChanged == a.states[|a.states| - 1].valsChanged
  {
    hide ValsOk, ParamsOk, ResponsesOk, Updated, Increment, SaveState, WellFormed, SetLinked, ParamsLinked, Linked;
    LinkedAt(a.states, |a.states| - 1);
    var s := a.states[|a.states| - 1];
    NotEmpty(s.next);
    UpdatedNothing(s.next, []);
    var s' := UpdateState(s, QUIET).value;
    b := Node(a.states + [s'], a.blocks + [QUIET], a.base,
              SaveState(a.db.(responses := a.db.responses[|a.blocks| + 1 := QUIET]), s'));
    StepGood(a, Commit(QUIET), b);
  }

  ghost predicate QuietUpTo(nodes: seq<Node>, events: seq<Event>, n: nat) {
    && IsHistory(nodes, events) && |events| == n
    && |nodes[n].states| == n + 1 && nodes[n].base == 1
    && forall k :: 0 <= k <= n ==> nodes[n].states[k].valsChanged == 1
  }

  lemma QuietStart(start: Node)
    requires Starts(start) && start.states[0].valsChanged == 1
    ensures QuietUpTo([start], [], 0)
  {
  }

  lemma {:induction false} Quiet(start: Node, n: nat) returns (nodes: seq<Node>, events: seq<Event>)
    requires Starts(start) && start.states[0].valsChanged == 1
    ensures QuietUpTo(nodes, events, n)
  {
    hide Good, Next, Starts;
    if n == 0 {
      nodes, events := [start], [];
      QuietStart(start);
    } else {
      var ns, es := Quiet(start, n - 1);
      AlwaysGood(ns, es, n - 1);
      var b := QuietStep(ns[n - 1]);
      nodes, events := ns + [b], es + [Commit(QUIET)];
      Longer(ns, es, Commit(QUIET), b);
    }
  }

  lemma Longer(nodes: seq<Node>, events: seq<Event>, e: Event, b: Node)
    requires IsHistory(nodes, events)
    requires var last := nodes[|events|]; |last.states| > 0 && Next(last, e, b)
    ensures IsHistory(nodes + [b], events + [e])
  {
    hide Next, Starts;
    var ns, es := nodes + [b], events + [e];
    forall i | 0 <= i < |es| ensures StepAt(ns, es, i) {
      assert i < |events| ==> StepAt(nodes, events, i);
    }
  }

  /** No change since genesis: pruning up to the checkpoint, which is full, drops height 1,
      which the height after the checkpoint still names. */
  lemma {:induction false} DropsChange(n: Node)
    requires Good(n) && n.base == 1 && |n.states| > INTERVAL
    requires forall k :: 0 <= k < |n.states| ==> n.states[k].valsChanged == 1
    ensures CanStart(n.db, 1, INTERVAL) && CanPrune(n.db, 1, INTERVAL)
    ensures var db := Pruned(n.db, 1, INTERVAL); CanStart(db, 1, INTERVAL + 1) && !CanPrune(db, 1, INTERVAL + 1)
  {
    hide Linked, ResponsesOk, CanPrune, PrunedParams, KeepParams, PrunedResponses, ParamsEntryOk, LoadValidators,
         InForce;
    PanicsIff(n.db, n.states, 1, 1, INTERVAL);
    assert EntryOk(n.db.vals, n.states, INTERVAL) && EntryOk(n.db.vals, n.states, INTERVAL + 1);
    NothingKept(n.db.vals, INTERVAL);
    var db := Pruned(n.db, 1, INTERVAL);
    PrunedValsOk(n.db.vals, n.states, 1, 1, INTERVAL);
    PrunedParamsOk(n.db.params, n.states, 1, 1, INTERVAL);
    assert INTERVAL + 1 in db.params;
    PanicsIff(db, n.states, INTERVAL, 1, INTERVAL + 1);
  }

  /** A history from genesis, of quiet blocks and one prune, after which pruning from 1 again
      panics. */
  lemma {:induction false} PrunePanics() returns (nodes: seq<Node>, events: seq<Event>)
    ensures IsHistory(nodes, events) && |events| == INTERVAL + 1 && events[INTERVAL] == Prune(1, INTERVAL, 1)
    ensures var db := nodes[|events|].db; CanStart(db, 1, INTERVAL + 1) && !CanPrune(db, 1, INTERVAL + 1)
  {
    hide Good, CanPrune, Starts, Pruned, StepAt;
    var start := FirstNode();
    var ns, es := Quiet(start, INTERVAL);
    var n := ns[INTERVAL];
    AlwaysGood(ns, es, INTERVAL);
    DropsChange(n);
    var b := n.(base := Later(n.base, INTERVAL), db := Pruned(n.db, 1, INTERVAL));
    Longer(ns, es, Prune(1, INTERVAL, 1), b);
    nodes, events := ns + [b], es + [Prune(1, INTERVAL, 1)];
  }

  lemma FirstNode() returns (start: Node)
    ensures Starts(start) && start.states[0].valsChanged == 1
  {
    HistoryExample.Starts();
    HistoryExample.Rotates();
    hide Updated, Increment, Stored;
    var s := State(0, [], HistoryExample.FIRST, HistoryExample.SECOND, 1, 0, 1);
    assert Genesis(HistoryExample.GENESIS, 0) == Some(s);
    assert FromGenesis(s);
    start := Node([s], [], 1, Stored([s]));
  }
}
