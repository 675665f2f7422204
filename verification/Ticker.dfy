/** consensus/ticker.go: one timer, set again only for a later height, round or step. */
module Ticker {

  datatype Timeout = Timeout(height: int, round: int, step: nat, duration: int) {
    /** Strictly later in height, round, step. */
    predicate After(that: Timeout) {
      || height > that.height
      || (height == that.height && (round > that.round || (round == that.round && step > that.step)))
    }

    predicate SameStep(that: Timeout) {
      height == that.height && round == that.round && step == that.step
    }
  }

  /** What timeoutRoutine starts from. */
  const ZERO := Timeout(0, 0, 0, 0)

  /** Not skipped by the loop. */
  predicate Accepts(ti: Timeout, newti: Timeout) {
    !(newti.height < ti.height) &&
    (newti.height == ti.height ==>
       !(newti.round < ti.round) && (newti.round == ti.round ==> !(ti.step > 0 && newti.step <= ti.step)))
  }

  class TimeoutTicker {
    var ti: Timeout
    var armed: bool

    constructor ()
      ensures ti == ZERO && !armed
    {
      ti, armed := ZERO, false;
    }

    /** The routine over one tick. */
    method Tick(newti: Timeout)
      modifies this
      ensures ti == Latest(old(ti), [newti])
      ensures armed == (old(armed) || Accepts(old(ti), newti))
    {
      if newti.height < ti.height {
        return;
      } else if newti.height == ti.height {
        if newti.round < ti.round {
          return;
        } else if newti.round == ti.round {
          if ti.step > 0 && newti.step <= ti.step {
            return;
          }
        }
      }
      ti, armed := newti, true;
    }

    /** The timer runs out: the current entry goes to the tock channel, once. */
    method Fire() returns (tock: Timeout)
      requires armed
      modifies this`armed
      ensures tock == ti && !armed
    {
      tock, armed := ti, false;
    }
  }

  /** The current entry after a list of ticks. */
  function Latest(ti: Timeout, ticks: seq<Timeout>): Timeout {
    if |ticks| == 0 then ti
    else
      var before := Latest(ti, ticks[..|ticks| - 1]);
      var newti := ticks[|ticks| - 1];
      if Accepts(before, newti) then newti else before
  }

  /** The entries that were accepted, in order. */
  function Accepted(ti: Timeout, ticks: seq<Timeout>): seq<Timeout> {
    if |ticks| == 0 then []
    else
      var init := ticks[..|ticks| - 1];
      var newti := ticks[|ticks| - 1];
      Accepted(ti, init) + if Accepts(Latest(ti, init), newti) then [newti] else []
  }

  ghost predicate Rising(list: seq<Timeout>) {
    forall i, j :: 0 <= i < j < |list| ==> list[j].After(list[i])
  }

  lemma {:induction false} LastAccepted(ti: Timeout, ticks: seq<Timeout>)
    ensures var list := Accepted(ti, ticks); Latest(ti, ticks) == if |list| == 0 then ti else list[|list| - 1]
  {
    if |ticks| > 0 {
      LastAccepted(ti, ticks[..|ticks| - 1]);
    }
  }

  /** Accepted entries strictly rise. Every timeout the consensus state schedules has a
      positive step. */
  lemma {:induction false} AcceptedRise(ticks: seq<Timeout>)
    requires forall i :: 0 <= i < |ticks| ==> ticks[i].step > 0
    ensures Rising(Accepted(ZERO, ticks))
    ensures forall i :: 0 <= i < |Accepted(ZERO, ticks)| ==> Accepted(ZERO, ticks)[i].step > 0
  {
    if |ticks| > 0 {
      var init, newti := ticks[..|ticks| - 1], ticks[|ticks| - 1];
      AcceptedRise(init);
      LastAccepted(ZERO, init);
    }
  }

  /** No tick seen so far is later than the current entry. */
  lemma {:induction false} LatestOfAll(ticks: seq<Timeout>, i: nat)
    requires i < |ticks| && forall k :: 0 <= k < |ticks| ==> ticks[k].step > 0
    ensures !ticks[i].After(Latest(ZERO, ticks))
  {
    var last := |ticks| - 1;
    if i < last {
      LatestOfAll(ticks[..last], i);
    }
  }

  /** Only an entry of step 0 can be accepted without being later. */
  lemma AcceptsIffAfter(ti: Timeout, newti: Timeout)
    ensures Accepts(ti, newti) <==> newti.After(ti) || (ti.step == 0 && newti.SameStep(ti))
  {
  }
}
