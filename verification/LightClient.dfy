/** light/client.go: sequential and skipping verification over providers that may fail, lie
    and change their answers. */
module LightClient {
  import opened Common
  import opened Retry
  import opened Verifier

  /** What provider p answers at its t-th question, about a height. */
  datatype World = World(header: (nat, nat, int) -> Reply<SignedHeader>, vals: (nat, nat, int) -> Reply<seq<Member>>)

  type Uint16 = n: nat | n < WORD16

  datatype Verdict = Verified | Rejected

  const NUMERATOR := 9           // bisectionNumerator
  const DENOMINATOR := 16        // bisectionDenominator

  function Height(l: Light): int {
    l.sh.header.height
  }

  /** Witnesses are only ever used up from the front. */
  predicate Suffix(all: seq<nat>, rest: seq<nat>) {
    |rest| <= |all| && rest == all[|all| - |rest|..]
  }

  lemma SuffixTransitive(a: seq<nat>, b: seq<nat>, c: seq<nat>)
    requires Suffix(a, b) && Suffix(b, c)
    ensures Suffix(a, c) && |c| <= |b|
  {
  }

  /** The header every provider gives for a height, at any time. */
  ghost predicate Serves(world: World, height: int, l: Light) {
    && (forall p, t :: world.header(p, t, height) == Got(Some(l.sh)))
    && (forall p, t :: world.vals(p, t, height) == Got(Some(l.vals)))
  }

  /** Non-adjacent heights leave room for a pivot. */
  lemma PivotBetween(lo: int, hi: int)
    requires hi > lo && hi != lo + 1
    ensures lo < lo + (hi - lo) * NUMERATOR / DENOMINATOR < hi
  {
  }

  /** The same good answer from every provider, at any time. */
  ghost predicate Gives<T>(src: Source<T>, v: T) {
    src.good(Some(v)) && forall p, t :: src.ask(p, t) == Got(Some(v))
  }

  lemma {:induction false} AfterPlus<T>(src: Source<T>, max: nat, st: Loop<T>, a: nat, b: nat)
    ensures After(src, max, After(src, max, st, a), b) == After(src, max, st, a + b)
    decreases a
  {
    if a > 0 {
      AfterPlus(src, max, Step(src, max, st), a - 1, b);
    }
  }

  class Client {
    const settings: Settings
    const attempts: Uint16       // maxRetryAttempts
    const world: World
    var primary: nat
    var witnesses: seq<nat>
    var tick: nat

    constructor (settings: Settings, attempts: Uint16, world: World, primary: nat, witnesses: seq<nat>)
      ensures this.settings == settings && this.attempts == attempts && this.world == world
      ensures this.primary == primary && this.witnesses == witnesses
    {
      this.settings, this.attempts, this.world := settings, attempts, world;
      this.primary, this.witnesses, this.tick := primary, witnesses, 0;
    }

    /** replacePrimaryProvider: needs two witnesses. */
    method ReplacePrimary() returns (ok: bool)
      modifies this`primary, this`witnesses
      ensures ok == (|old(witnesses)| > 1)
      ensures ok ==> primary == old(witnesses)[0] && witnesses == old(witnesses)[1..]
      ensures !ok ==> primary == old(primary) && witnesses == old(witnesses)
    {
      if |witnesses| <= 1 {
        return false;
      }
      primary, witnesses := witnesses[0], witnesses[1..];
      return true;
    }

    predicate ValidHeader(h: Option<SignedHeader>, expected: int) {
      h.Some? && (expected > 0 ==> h.value.header.height == expected) && Basic(settings.chain, h.value)
    }

    predicate ValidVals(vals: Option<seq<Member>>) {
      vals.Some? && |vals.value| > 0
    }

    function HeaderSource(height: int): Source<SignedHeader> {
      Source((p, t) => world.header(p, t, height), h => ValidHeader(h, height))
    }

    function ValsSource(height: int): Source<seq<Member>> {
      Source((p, t) => world.vals(p, t, height), vals => ValidVals(vals))
    }

    /** The loop of signedHeaderFromPrimary and validatorSetFromPrimary, with its 16-bit
        counter: each replacement of the primary uses up a witness. */
    method Ask<T(!new)>(src: Source<T>) returns (r: Option<T>)
      requires Ends(src, attempts, primary, witnesses, tick)
      modifies this
      decreases |witnesses|
      ensures exists n: nat :: After(src, attempts, Asking(old(primary), old(witnesses), old(tick), 1), n) ==
                               Returned(r, primary, witnesses, tick)
      ensures Suffix(old(witnesses), witnesses)
      ensures r.Some? ==> src.good(r)
      ensures forall v :: attempts > 0 && Gives(src, v) ==> r == Some(v) && witnesses == old(witnesses)
    {
      hide Suffix, Ends, After;
      ghost var start := Asking(primary, witnesses, tick, 1);
      ghost var n: nat := 0;
      ghost var answer: nat := tick;
      if attempts == WORD16 - 1 {
        answer := AnswersAt(src, attempts, primary, witnesses, tick);
      }
      assert |witnesses| > 1 && attempts < WORD16 - 1 ==>
               forall t :: Ends(src, attempts, witnesses[0], witnesses[1..], t)
      by {
        ShortEnds(src, attempts);
      }
      var attempt: nat := 1;
      SuffixSelf(witnesses);
      AfterNothing(src, attempts, start);
      while attempt <= attempts
        invariant After(src, attempts, start, n) == Asking(primary, witnesses, tick, attempt)
        invariant primary == old(primary) && witnesses == old(witnesses) && 0 <= attempt < WORD16
        invariant attempts == WORD16 - 1 ==> old(tick) <= tick <= answer
        invariant forall v :: Gives(src, v) && attempts > 0 ==> attempt == 1
        decreases if attempts < WORD16 - 1 then attempts + 1 - attempt else answer - tick
      {
        AfterOn(src, attempts, start, n);
        n := n + 1;
        var reply := src.ask(primary, tick);
        tick := tick + 1;
        match reply {
          case Got(value) =>
            if !src.good(value) {
              r := Replace(src, start, n);
              return;
            }
            return value;
          case NotFound => return None;
          case Failed =>
        }
        attempt := (attempt + 1) % WORD16;
      }
      AfterOn(src, attempts, start, n);
      r := Replace(src, start, n + 1);
    }

    /** A new primary is asked from the start. */
    method Replace<T(!new)>(src: Source<T>, ghost start: Loop<T>, ghost n: nat) returns (r: Option<T>)
      requires |witnesses| > 1 ==> Ends(src, attempts, witnesses[0], witnesses[1..], tick)
      requires After(src, attempts, start, n) == Replaced(primary, witnesses, tick)
      modifies this
      decreases |witnesses|, 0
      ensures exists m: nat :: After(src, attempts, start, m) == Returned(r, primary, witnesses, tick)
      ensures Suffix(old(witnesses), witnesses)
      ensures r.Some? ==> src.good(r)
    {
      hide Ends, After;
      ghost var before := witnesses;
      var ok := ReplacePrimary();
      if !ok {
        return None;
      }
      ghost var between := Asking(primary, witnesses, tick, 1);
      SuffixTail(before, before, witnesses);
      ghost var tail := witnesses;
      r := Ask(src);
      SuffixTransitive(before, tail, witnesses);
      ghost var m: nat :| After(src, attempts, between, m) == Returned(r, primary, witnesses, tick);
      AfterPlus(src, attempts, start, n, m);
      assert After(src, attempts, start, n + m) == Returned(r, primary, witnesses, tick);
    }

    method SignedHeaderFromPrimary(height: int) returns (r: Option<SignedHeader>)
      requires Ends(HeaderSource(height), attempts, primary, witnesses, tick)
      modifies this
      ensures exists n: nat ::
                After(HeaderSource(height), attempts, Asking(old(primary), old(witnesses), old(tick), 1), n) ==
                Returned(r, primary, witnesses, tick)
      ensures Suffix(old(witnesses), witnesses)
      ensures r.Some? ==> ValidHeader(r, height)
      ensures forall l :: attempts > 0 && Serves(world, height, l) && ValidHeader(Some(l.sh), height) ==>
                            r == Some(l.sh) && witnesses == old(witnesses)
    {
      hide Ends, After;
      r := Ask(HeaderSource(height));
      assert forall l :: Serves(world, height, l) && ValidHeader(Some(l.sh), height) ==>
               Gives(HeaderSource(height), l.sh);
    }

    method ValsFromPrimary(height: int) returns (r: Option<seq<Member>>)
      requires Ends(ValsSource(height), attempts, primary, witnesses, tick)
      modifies this
      ensures Suffix(old(witnesses), witnesses)
      ensures r.Some? ==> ValidVals(r)
      ensures forall l :: attempts > 0 && Serves(world, height, l) && ValidVals(Some(l.vals)) ==>
                            r == Some(l.vals) && witnesses == old(witnesses)
    {
      hide Ends, After;
      r := Ask(ValsSource(height));
      assert forall l :: Serves(world, height, l) && ValidVals(Some(l.vals)) ==> Gives(ValsSource(height), l.vals);
    }

    /** The retry counter can pass its limit, or providers answer sooner or later. */
    ghost predicate Patient() {
      attempts < WORD16 - 1 || forall height :: Responsive(HeaderSource(height)) && Responsive(ValsSource(height))
    }

    /** A header the client would accept from an honest primary. */
    ghost predicate Available(height: int, l: Light) {
      attempts > 0 && Serves(world, height, l) && ValidHeader(Some(l.sh), height) && ValidVals(Some(l.vals))
    }

    method Fetch(height: int) returns (r: Option<Light>)
      requires Patient()
      modifies this
      ensures Suffix(old(witnesses), witnesses)
      ensures r.Some? && height > 0 ==> Height(r.value) == height
      ensures forall l :: Available(height, l) ==> r == Some(l) && witnesses == old(witnesses)
    {
      hide Ends, Responsive;
      ResponsiveEnds(HeaderSource(height), attempts, primary, witnesses, tick);
      var h := SignedHeaderFromPrimary(height);
      if h.None? { return None; }
      ghost var between := witnesses;
      ResponsiveEnds(ValsSource(height), attempts, primary, witnesses, tick);
      var vals := ValsFromPrimary(height);
      SuffixTransitive(old(witnesses), between, witnesses);
      if vals.None? { return None; }
      r := Some(Light(h.value, vals.value));
    }

    // ----- sequence

    /** Honest providers for the heights in between, and adjacent headers that verify. */
    ghost predicate SequenceServed(lights: map<int, Light>, lo: int, hi: int, now: int) {
      && (forall h :: lo <= h <= hi ==> h in lights && Height(lights[h]) == h)
      && (forall h :: lo < h < hi ==> Available(h, lights[h]))
      && (forall h :: lo < h <= hi ==> VerifyAdjacent(settings, lights[h - 1].sh, lights[h], now) == Ok)
    }

    /** sequence: on success there is a path of adjacent headers. */
    method Sequence(trusted: Light, target: Light, now: int, ghost lights: map<int, Light>)
      returns (r: Verdict, ghost path: seq<Light>)
      requires Height(trusted) >= 0 && Patient()
      modifies this
      ensures Suffix(old(witnesses), witnesses)
      ensures r == Verified && Height(trusted) < Height(target) ==>
                IsPath(settings, path, now) && path[0] == trusted && path[|path| - 1] == target &&
                |path| == Height(target) - Height(trusted) + 1
      ensures var lo, hi := Height(trusted), Height(target);
              SequenceServed(lights, lo, hi, now) && lo < hi && lights[lo] == trusted && lights[hi] == target ==>
                r == Verified
    {
      hide VerifyAdjacent, Suffix, Available, Patient;
      ghost var lo, hi := Height(trusted), Height(target);
      ghost var served :=
        SequenceServed(lights, lo, hi, now) && lo < hi && lights[lo] == trusted && lights[hi] == target;
      var current := trusted;
      var height := Height(trusted) + 1;
      path := [trusted];
      SuffixSelf(witnesses);
      while height <= Height(target)
        invariant lo < height && (lo < hi ==> height <= hi + 1)
        invariant Suffix(old(witnesses), witnesses)
        invariant AdjacentPath(settings, path, now) && path[0] == trusted && path[|path| - 1] == current
        invariant Height(current) == height - 1 && |path| == height - lo
        invariant served ==> current == lights[height - 1]
        invariant height > hi > lo ==> current == target
        decreases |witnesses|, Height(target) - height + 1
      {
        var interim := target;
        ghost var before := witnesses;
        if height != Height(target) {
          assert served ==> Available(height, lights[height]);
          var fetched := Fetch(height);
          SuffixTransitive(old(witnesses), before, witnesses);
          if fetched.None? { return Rejected, path; }
          interim := fetched.value;
        }
        assert served ==> interim == lights[height];
        before := witnesses;
        match VerifyAdjacent(settings, current.sh, interim, now) {
          case Ok =>
            AdjacentHeights(settings, current.sh, interim, now);
            path := path + [interim];
            current := interim;
            height := height + 1;
          case Invalid =>
            var ok := ReplacePrimary();
            if !ok { return Rejected, path; }
            SuffixTail(old(witnesses), before, witnesses);
          case _ => return Rejected, path;
        }
      }
      AdjacentIsPath(settings, path, now);
      return Verified, path;
    }

    // ----- bisection

    /** Honest providers for the heights in between, and headers that verify each other or
        are too far apart. */
    ghost predicate BisectionServed(lights: map<int, Light>, trusted: Light, target: Light, now: int) {
      var lo, hi := Height(trusted), Height(target);
      && (forall h :: lo <= h <= hi ==> h in lights && Height(lights[h]) == h)
      && (forall h :: lo < h < hi ==> Available(h, lights[h]))
      && (forall g, h :: lo <= g < h <= hi ==> Verify(settings, lights[g], lights[h], now) in {Ok, CantTrust})
      && lo < hi && lights[lo] == trusted && lights[hi] == target
    }

    /** bisection: ends, over any providers, and on success there is a path of verified
        headers from the trusted one to the target. `agree` is the answer of the witnesses. */
    method Bisection(trusted: Light, target: Light, now: int, agree: bool, ghost lights: map<int, Light>)
      returns (r: Verdict, ghost path: seq<Light>)
      requires Height(trusted) >= 0 && Patient()
      modifies this
      decreases |witnesses|
      ensures Suffix(old(witnesses), witnesses)
      ensures r == Verified ==> agree && IsPath(settings, path, now) && path[0] == trusted && path[|path| - 1] == target
      ensures BisectionServed(lights, trusted, target, now) && agree ==> r == Verified
    {
      hide Verify, Suffix, Available, Patient, BisectionServed, IsPath, Narrowing, Tracks, Gap;
      ghost var lo, hi := Height(trusted), Height(target);
      ghost var served := BisectionServed(lights, trusted, target, now);
      var cache, depth := [target], 0;
      var current := trusted;
      path := [trusted];
      SuffixSelf(witnesses);
      Start(settings, trusted, target, now);
      assert served ==> Tracks(lights, lo, hi, cache, current) by { StartTracks(lights, trusted, target, now); }
      while true
        invariant Suffix(old(witnesses), witnesses)
        invariant 0 <= depth < |cache| && cache[0] == target && Height(current) >= 0 && Narrowing(cache, current)
        invariant |path| > 0 && IsPath(settings, path, now) && path[0] == trusted && path[|path| - 1] == current
        invariant served ==> Tracks(lights, lo, hi, cache, current)
        decreases |witnesses|, Gap(current, target), Gap(current, cache[|cache| - 1]), |cache| - depth
      {
        assert served ==> Verify(settings, current, cache[depth], now) in {Ok, CantTrust} by {
          if served { Comparable(lights, trusted, target, now, cache, current, depth); }
        }
        ghost var before := witnesses;
        VerifyRises(settings, current, cache[depth], now);
        match Verify(settings, current, cache[depth], now) {
          case Ok =>
            Lengthens(settings, path, cache[depth], now);
            path := path + [cache[depth]];
            if depth == 0 {
              return if agree then Verified else Rejected, path;
            }
            Advance(lights, lo, hi, cache, current, depth);
            current, cache, depth := cache[depth], cache[..depth], 0;
          case CantTrust =>
            if depth == |cache| - 1 {
              PivotBetween(Height(current), Height(cache[depth]));
              var pivot := Height(current) + (Height(cache[depth]) - Height(current)) * NUMERATOR / DENOMINATOR;
              assert served ==> pivot in lights && Available(pivot, lights[pivot]) by {
                if served { AvailableBetween(lights, trusted, target, now, cache, current, pivot); }
              }
              var fetched := Fetch(pivot);
              SuffixTransitive(old(witnesses), before, witnesses);
              if fetched.None? { return Rejected, path; }
              Deepen(lights, lo, hi, cache, current, fetched.value);
              cache := cache + [fetched.value];
            }
            depth := depth + 1;
          case Invalid =>
            var ok := ReplacePrimary();
            if !ok { return Rejected, path; }
            SuffixTail(old(witnesses), before, witnesses);
            before := witnesses;
            var fetched := Fetch(Height(target));
            SuffixTransitive(old(witnesses), before, witnesses);
            if fetched.None? || fetched.value.sh.header != target.sh.header || fetched.value.vals != target.vals {
              return Rejected, path;
            }
            before := witnesses;
            r, path := Bisection(trusted, target, now, agree, lights);
            SuffixTransitive(old(witnesses), before, witnesses);
            return;
          case _ => return Rejected, path;
        }
      }
    }

    lemma StartTracks(lights: map<int, Light>, trusted: Light, target: Light, now: int)
      ensures BisectionServed(lights, trusted, target, now) ==>
                Tracks(lights, Height(trusted), Height(target), [target], trusted)
    {
      hide Available, Verify;
    }

    lemma Comparable(lights: map<int, Light>, trusted: Light, target: Light, now: int, cache: seq<Light>,
                     current: Light, depth: nat)
      requires BisectionServed(lights, trusted, target, now) && depth < |cache|
      requires Tracks(lights, Height(trusted), Height(target), cache, current)
      ensures Verify(settings, current, cache[depth], now) in {Ok, CantTrust}
    {
      hide Available, Verify;
    }

    lemma AvailableBetween(lights: map<int, Light>, trusted: Light, target: Light, now: int, cache: seq<Light>,
                           current: Light, pivot: int)
      requires BisectionServed(lights, trusted, target, now) &&
               Tracks(lights, Height(trusted), Height(target), cache, current)
      requires |cache| > 0 && Height(current) < pivot < Height(cache[|cache| - 1])
      ensures pivot in lights && Available(pivot, lights[pivot])
    {
      hide Available, Verify;
    }
  }

  ghost predicate AdjacentPath(s: Settings, path: seq<Light>, now: int) {
    |path| > 0 && forall i :: 0 < i < |path| ==> VerifyAdjacent(s, path[i - 1].sh, path[i], now) == Ok
  }

  /** Cached headers come closer and closer; all but the target lie above the trusted one. */
  ghost predicate Narrowing(cache: seq<Light>, current: Light) {
    && (forall i, j :: 0 <= i < j < |cache| ==> Height(cache[i]) > Height(cache[j]))
    && (forall i :: 1 <= i < |cache| ==> Height(cache[i]) > Height(current))
  }

  /** The run follows the honest headers. */
  ghost predicate Tracks(lights: map<int, Light>, lo: int, hi: int, cache: seq<Light>, current: Light) {
    && (forall h :: lo <= h <= hi ==> h in lights && Height(lights[h]) == h)
    && lo <= Height(current) < hi && current == lights[Height(current)]
    && (forall i :: 0 <= i < |cache| ==>
          Height(current) < Height(cache[i]) <= hi && cache[i] == lights[Height(cache[i])])
  }

  lemma Start(s: Settings, trusted: Light, target: Light, now: int)
    ensures IsPath(s, [trusted], now) && Narrowing([target], trusted)
  {
  }

  lemma Lengthens(s: Settings, path: seq<Light>, next: Light, now: int)
    requires |path| > 0 && IsPath(s, path, now) && Verify(s, path[|path| - 1], next, now) == Ok
    ensures IsPath(s, path + [next], now)
  {
    hide Verify;
  }

  /** A cached header becomes the trusted one. */
  lemma Advance(lights: map<int, Light>, lo: int, hi: int, cache: seq<Light>, current: Light, depth: nat)
    requires 0 < depth < |cache| && Narrowing(cache, current)
    ensures Narrowing(cache[..depth], cache[depth]) && Height(cache[depth]) > Height(current)
    ensures Gap(cache[depth], cache[0]) < Gap(current, cache[0])
    ensures Tracks(lights, lo, hi, cache, current) ==> Tracks(lights, lo, hi, cache[..depth], cache[depth])
  {
    assert Height(cache[0]) > Height(cache[depth]);
  }

  /** A pivot is added at the end. */
  lemma Deepen(lights: map<int, Light>, lo: int, hi: int, cache: seq<Light>, current: Light, pivot: Light)
    requires |cache| > 0 && Narrowing(cache, current) && Height(current) < Height(pivot) < Height(cache[|cache| - 1])
    ensures Narrowing(cache + [pivot], current) && Gap(current, pivot) < Gap(current, cache[|cache| - 1])
    ensures Tracks(lights, lo, hi, cache, current) && pivot == lights[Height(pivot)] ==>
              Tracks(lights, lo, hi, cache + [pivot], current)
  {
    var last := cache[|cache| - 1];
    assert Tracks(lights, lo, hi, cache, current) ==> Height(last) <= hi;
  }

  function Gap(low: Light, high: Light): nat {
    if Height(high) > Height(low) then Height(high) - Height(low) else 0
  }

  lemma VerifyRises(s: Settings, trusted: Light, next: Light, now: int)
    ensures Verify(s, trusted, next, now) in {Ok, CantTrust} ==> Height(next) > Height(trusted)
    ensures Verify(s, trusted, next, now) == CantTrust ==> Height(next) != Height(trusted) + 1
  {
  }

  lemma AdjacentIsPath(s: Settings, path: seq<Light>, now: int)
    requires AdjacentPath(s, path, now)
    ensures IsPath(s, path, now)
  {
    forall i | 0 < i < |path| ensures Verify(s, path[i - 1], path[i], now) == Ok {
      assert VerifyAdjacent(s, path[i - 1].sh, path[i], now) == Ok;
    }
  }

  lemma AdjacentHeights(s: Settings, trusted: SignedHeader, next: Light, now: int)
    requires VerifyAdjacent(s, trusted, next, now) == Ok
    ensures Height(next) == trusted.header.height + 1
  {
  }

  lemma ShortEnds<T>(src: Source<T>, max: nat)
    ensures max < WORD16 - 1 ==> forall p, ws, t :: Ends(src, max, p, ws, t)
  {
  }

  lemma AfterNothing<T>(src: Source<T>, max: nat, st: Loop<T>)
    ensures After(src, max, st, 0) == st
  {
  }

  lemma SuffixSelf(a: seq<nat>)
    ensures Suffix(a, a)
  {
  }

  lemma SuffixTail(a: seq<nat>, b: seq<nat>, c: seq<nat>)
    requires Suffix(a, b) && |b| > 0 && c == b[1..]
    ensures Suffix(a, c)
  {
  }
}
