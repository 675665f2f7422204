/** light/client.go: asking the primary again and again, with a 16-bit counter, and the next
    witness after it. */
module Retry {
  import opened Common

  datatype Reply<T> = NotFound | Failed | Got(value: Option<T>)

  /** What provider p answers at its t-th question, and which answers pass validation. */
  datatype Source<!T> = Source(ask: (nat, nat) -> Reply<T>, good: Option<T> -> bool)

  const WORD16 := 0x1_0000

  datatype Loop<T> =
    | Asking(primary: nat, witnesses: seq<nat>, tick: nat, attempt: nat)
    | Returned(result: Option<T>, primary: nat, witnesses: seq<nat>, tick: nat)

  /** The first witness becomes the primary, if another is left. */
  function Replaced<T>(primary: nat, witnesses: seq<nat>, tick: nat): Loop<T> {
    if |witnesses| <= 1 then Returned(None, primary, witnesses, tick)
    else Asking(witnesses[0], witnesses[1..], tick, 1)
  }

  /** One turn of the loop: a question, or what follows the last one. */
  function Step<T>(src: Source<T>, max: nat, st: Loop<T>): Loop<T> {
    match st
    case Returned(_, _, _, _) => st
    case Asking(p, ws, t, attempt) =>
      if attempt > max then Replaced(p, ws, t)
      else
        match src.ask(p, t)
        case NotFound => Returned(None, p, ws, t + 1)
        case Failed => Asking(p, ws, t + 1, (attempt + 1) % WORD16)
        case Got(value) => if src.good(value) then Returned(value, p, ws, t + 1) else Replaced(p, ws, t + 1)
  }

  function After<T>(src: Source<T>, max: nat, st: Loop<T>, n: nat): Loop<T>
    decreases n
  {
    if n == 0 then st else After(src, max, Step(src, max, st), n - 1)
  }

  // ----- when it ends

  predicate FirstAnswer<T>(src: Source<T>, p: nat, tick: nat, t: nat) {
    t >= tick && !src.ask(p, t).Failed? && forall k: nat :: tick <= k < t ==> src.ask(p, k).Failed?
  }

  predicate Stops<T>(src: Source<T>, p: nat, t: nat) {
    src.ask(p, t).NotFound? || (src.ask(p, t).Got? && src.good(src.ask(p, t).value))
  }

  /** The counter can pass the limit; or the primary answers at last, and so does every
      witness that replaces one whose answer is no good. */
  ghost predicate Ends<T>(src: Source<T>, max: nat, p: nat, ws: seq<nat>, tick: nat)
    decreases |ws|
  {
    || max < WORD16 - 1
    || exists t: nat :: FirstAnswer(src, p, tick, t) &&
                        (Stops(src, p, t) || |ws| <= 1 || Ends(src, max, ws[0], ws[1..], t + 1))
  }

  ghost predicate Returns<T>(src: Source<T>, max: nat, st: Loop<T>) {
    exists n: nat :: After(src, max, st, n).Returned?
  }

  lemma {:induction false} AfterOn<T>(src: Source<T>, max: nat, st: Loop<T>, n: nat)
    ensures After(src, max, st, n + 1) == Step(src, max, After(src, max, st, n))
    decreases n
  {
    if n > 0 {
      AfterOn(src, max, Step(src, max, st), n - 1);
    }
  }

  lemma StepReturns<T>(src: Source<T>, max: nat, st: Loop<T>)
    requires Returns(src, max, Step(src, max, st))
    ensures Returns(src, max, st)
  {
    var n: nat :| After(src, max, Step(src, max, st), n).Returned?;
    assert After(src, max, st, n + 1).Returned?;
  }

  lemma IsReturned<T>(src: Source<T>, max: nat, st: Loop<T>)
    requires st.Returned?
    ensures Returns(src, max, st)
  {
    assert After(src, max, st, 0).Returned?;
  }

  /** A limit that the counter can pass. */
  lemma {:induction false} PassesLimit<T>(src: Source<T>, max: nat, p: nat, ws: seq<nat>, tick: nat, attempt: nat)
    requires max < WORD16 - 1 && attempt <= max + 1
    ensures Returns(src, max, Asking(p, ws, tick, attempt))
    decreases |ws|, max + 1 - attempt
  {
    hide Returns;
    var st := Asking(p, ws, tick, attempt);
    var next := Step(src, max, st);
    if next.Returned? {
      IsReturned(src, max, next);
    } else {
      PassesLimit(src, max, next.primary, next.witnesses, next.tick, next.attempt);
    }
    StepReturns(src, max, st);
  }

  lemma AnswersAt<T>(src: Source<T>, max: nat, p: nat, ws: seq<nat>, tick: nat) returns (t: nat)
    requires max >= WORD16 - 1 && Ends(src, max, p, ws, tick)
    ensures FirstAnswer(src, p, tick, t)
    ensures Stops(src, p, t) || |ws| <= 1 || Ends(src, max, ws[0], ws[1..], t + 1)
  {
    t :| FirstAnswer(src, p, tick, t) && (Stops(src, p, t) || |ws| <= 1 || Ends(src, max, ws[0], ws[1..], t + 1));
  }

  /** A limit that it cannot pass, and answers. */
  lemma {:induction false} Answered<T>(src: Source<T>, max: nat, p: nat, ws: seq<nat>, tick: nat, attempt: nat, t: nat)
    requires max >= WORD16 - 1 && attempt < WORD16 && FirstAnswer(src, p, tick, t)
    requires Stops(src, p, t) || |ws| <= 1 || Ends(src, max, ws[0], ws[1..], t + 1)
    ensures Returns(src, max, Asking(p, ws, tick, attempt))
    decreases |ws|, t - tick
  {
    hide Returns;
    var st := Asking(p, ws, tick, attempt);
    var next := Step(src, max, st);
    if t == tick {
      if next.Returned? {
        IsReturned(src, max, next);
      } else {
        var u := AnswersAt(src, max, ws[0], ws[1..], t + 1);
        Answered(src, max, ws[0], ws[1..], t + 1, 1, u);
      }
    } else {
      Answered(src, max, p, ws, tick + 1, next.attempt, t);
    }
    StepReturns(src, max, st);
  }

  lemma {:induction false} MustAnswer<T>(src: Source<T>, max: nat, p: nat, ws: seq<nat>, tick: nat, attempt: nat,
                                         n: nat)
    requires max >= WORD16 - 1 && attempt < WORD16 && After(src, max, Asking(p, ws, tick, attempt), n).Returned?
    ensures Ends(src, max, p, ws, tick)
    decreases n
  {
    if src.ask(p, tick).Failed? {
      MustAnswer(src, max, p, ws, tick + 1, (attempt + 1) % WORD16, n - 1);
      var t := AnswersAt(src, max, p, ws, tick + 1);
      assert FirstAnswer(src, p, tick, t);
    } else {
      assert FirstAnswer(src, p, tick, tick);
      if !Stops(src, p, tick) && |ws| > 1 {
        MustAnswer(src, max, ws[0], ws[1..], tick + 1, 1, n - 1);
      }
    }
  }

  /** Asking ends exactly then. */
  lemma {:induction false} EndsIff<T>(src: Source<T>, max: nat, p: nat, ws: seq<nat>, tick: nat)
    requires max < WORD16
    ensures Returns(src, max, Asking(p, ws, tick, 1)) <==> Ends(src, max, p, ws, tick)
  {
    if max < WORD16 - 1 {
      PassesLimit(src, max, p, ws, tick, 1);
    } else {
      if Returns(src, max, Asking(p, ws, tick, 1)) {
        var n: nat :| After(src, max, Asking(p, ws, tick, 1), n).Returned?;
        MustAnswer(src, max, p, ws, tick, 1, n);
      }
      if Ends(src, max, p, ws, tick) {
        var t := AnswersAt(src, max, p, ws, tick);
        Answered(src, max, p, ws, tick, 1, t);
      }
    }
  }

  /** With the greatest limit, a primary that keeps failing is asked for ever. */
  lemma {:induction false} NeverReturns<T>(src: Source<T>, p: nat, ws: seq<nat>, tick: nat)
    requires forall t :: src.ask(p, t).Failed?
    ensures !Returns(src, WORD16 - 1, Asking(p, ws, tick, 1))
  {
    EndsIff(src, WORD16 - 1, p, ws, tick);
  }

  /** Providers that answer sooner or later. */
  ghost predicate Responsive<T>(src: Source<T>) {
    forall p: nat, tick: nat :: Responds(src, p, tick)
  }

  ghost predicate Responds<T>(src: Source<T>, p: nat, tick: nat) {
    exists t: nat :: t >= tick && !src.ask(p, t).Failed?
  }

  lemma {:induction false} First<T>(src: Source<T>, p: nat, tick: nat, t: nat) returns (first: nat)
    requires t >= tick && !src.ask(p, t).Failed?
    ensures FirstAnswer(src, p, tick, first)
    decreases t - tick
  {
    if t == tick || !src.ask(p, tick).Failed? {
      first := tick;
    } else {
      first := First(src, p, tick + 1, t);
    }
  }

  lemma {:induction false} ResponsiveEnds<T>(src: Source<T>, max: nat, p: nat, ws: seq<nat>, tick: nat)
    requires max < WORD16 - 1 || Responsive(src)
    ensures Ends(src, max, p, ws, tick)
    decreases |ws|
  {
    if max >= WORD16 - 1 {
      assert Responds(src, p, tick);
      var t: nat :| t >= tick && !src.ask(p, t).Failed?;
      var first := First(src, p, tick, t);
      if |ws| > 1 {
        ResponsiveEnds(src, max, ws[0], ws[1..], first + 1);
      }
    }
  }
}
