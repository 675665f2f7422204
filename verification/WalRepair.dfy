/** repairWalFile of consensus/state.go: what the loop leaves in its destination, as the code
    opens it and as it would have to be opened. */
module WalRepair {
  import opened Wal

  ghost predicate AllAccepted<M(!new)>(c: Codec<M>, ms: seq<M>) {
    forall i :: 0 <= i < |ms| ==> Accepts(c, ms[i])
  }

  /** The messages before the first that Encode refuses. */
  function Taken<M>(c: Codec<M>, ms: seq<M>): (r: seq<M>)
    ensures r <= ms
  {
    if |ms| == 0 || !Accepts(c, ms[0]) then [] else [ms[0]] + Taken(c, ms[1..])
  }

  /** Whether the repair succeeds, and the destination after it. */
  ghost function Repaired<M(!new)>(c: Codec<M>, src: seq<Byte>, dst: seq<Byte>, mode: Mode): (bool, seq<Byte>)
    requires Sound(c)
  {
    var ms := DecodeAll(c, src).0;
    if mode == ReadOnly then (ms == [], dst)
    else (AllAccepted(c, ms), Overlaid(Opened(dst, mode), 0, Frames(c, Taken(c, ms))))
  }

  /** The loop: decode until something fails, encode what was decoded. Opened read-only, as the
      code opens it, the destination never changes, and the repair succeeds only if there is
      nothing to write. */
  method Repair<M(!new)>(c: Codec<M>, src: seq<Byte>, dst: seq<Byte>, mode: Mode) returns (ok: bool, file: seq<Byte>)
    requires Sound(c)
    ensures (ok, file) == Repaired(c, src, dst, mode)
    ensures mode == ReadOnly ==> ok == (DecodeAll(c, src).0 == []) && file == dst
  {
    hide DecodeAll, DecodeHead, Frames, Frame, Accepts, Overlaid;
    var dec := new Decoder<M>(c, src);
    var enc := new Encoder<M>(c, dst, mode);
    ghost var start, done: seq<M>, readable := Opened(dst, mode), [], DecodeAll(c, src).0;
    Nothing(c, start, readable);
    OverlaidNothing(start);
    NoFrames(c);
    assert src[0..] == src;
    ok := true;
    while true
      invariant fresh(dec) && fresh(enc) && dec.codec == c && enc.codec == c && enc.mode == mode
      invariant dec.stream == src && dec.pos <= |src| && enc.pos <= |enc.file|
      invariant ok && Progress(c, start, done, enc.file, enc.pos) && (mode == ReadOnly ==> done == [])
      invariant readable == done + DecodeAll(c, src[dec.pos..]).0
      decreases |src| - dec.pos
    {
      ghost var left := src[dec.pos..];
      DecodesOn(c, left);
      var step := dec.Decode();
      if !step.Got? {
        assert readable == done;
        break;
      }
      assert left[step.size..] == src[dec.pos..];
      ghost var rest := DecodeAll(c, src[dec.pos..]).0;
      assert readable == done + [step.msg] + rest;
      ghost var file0, pos0 := enc.file, enc.pos;
      ok := enc.Encode(step.msg);
      if !ok {
        StopsAt(c, done, step.msg, rest);
        file := enc.file;
        return;
      }
      Forward(c, start, done, file0, pos0, step.msg);
      done := done + [step.msg];
    }
    file := enc.file;
    TakesAll(c, done);
  }

  lemma DecodesOn<M>(c: Codec<M>, s: seq<Byte>)
    ensures var step := DecodeHead(c, s);
            DecodeAll(c, s).0 == if step.Got? then [step.msg] + DecodeAll(c, s[step.size..]).0 else []
  {
  }

  lemma {:induction false} TakesAll<M(!new)>(c: Codec<M>, ms: seq<M>)
    ensures AllAccepted(c, ms) ==> Taken(c, ms) == ms
  {
    if |ms| > 0 {
      TakesAll(c, ms[1..]);
    }
  }

  lemma {:induction false} StopsAt<M(!new)>(c: Codec<M>, done: seq<M>, m: M, rest: seq<M>)
    requires AllAccepted(c, done)
    ensures !Accepts(c, m) ==> Taken(c, done + [m] + rest) == done && !AllAccepted(c, done + [m] + rest)
    ensures done + [m] + rest != []
  {
    var all := done + [m] + rest;
    assert all[|done|] == m;
    if |done| > 0 {
      StopsAt(c, done[1..], m, rest);
      assert all[1..] == done[1..] + [m] + rest;
    }
  }

  /** All of `done` was accepted and lies at the front of the file. */
  ghost predicate Progress<M(!new)>(c: Codec<M>, start: seq<Byte>, done: seq<M>, file: seq<Byte>, pos: nat)
    requires Sound(c)
  {
    AllAccepted(c, done) && pos == |Frames(c, done)| && file == Overlaid(start, 0, Frames(c, done))
  }

  lemma Nothing<M(!new)>(c: Codec<M>, start: seq<Byte>, ms: seq<M>)
    requires Sound(c)
    ensures Progress(c, start, [], start, 0) && [] + ms == ms
  {
    OverlaidNothing(start);
  }

  lemma NoFrames<M(!new)>(c: Codec<M>)
    requires Sound(c)
    ensures Frames(c, []) == []
  {
  }

  lemma OverlaidNothing(start: seq<Byte>)
    ensures Overlaid(start, 0, []) == start
  {
  }

  lemma OverlaidOn(start: seq<Byte>, a: seq<Byte>, b: seq<Byte>)
    ensures |a| <= |Overlaid(start, 0, a)|
    ensures Overlaid(Overlaid(start, 0, a), |a|, b) == Overlaid(start, 0, a + b)
  {
  }

  lemma Forward<M(!new)>(c: Codec<M>, start: seq<Byte>, done: seq<M>, file: seq<Byte>, pos: nat, m: M)
    requires Sound(c) && Progress(c, start, done, file, pos) && Accepts(c, m)
    ensures pos <= |file| && Progress(c, start, done + [m], Overlaid(file, pos, Frame(c, m)), pos + |Frame(c, m)|)
  {
    hide Frame, Overlaid, Accepts;
    FramesEnd(c, done, m);
    OverlaidOn(start, Frames(c, done), Frame(c, m));
  }

  lemma {:induction false} FramesEnd<M(!new)>(c: Codec<M>, ms: seq<M>, m: M)
    requires Sound(c)
    ensures Frames(c, ms + [m]) == Frames(c, ms) + Frame(c, m)
  {
    hide Frame;
    if |ms| == 0 {
      assert ms + [m] == [m] && [m][1..] == [];
    } else {
      assert (ms + [m])[1..] == ms[1..] + [m];
      FramesEnd(c, ms[1..], m);
    }
  }

  // ----- as the code opens the destination

  /** One readable message and anything after it: the repair fails, whatever is in the
      destination. */
  lemma RepairFails<M(!new)>(c: Codec<M>, m: M, junk: seq<Byte>, dst: seq<Byte>)
    requires Sound(c) && FitsFrame(c, m)
    ensures Frames(c, [m]) + junk == Frame(c, m) + junk
    ensures Repaired(c, Frames(c, [m]) + junk, dst, ReadOnly) == (false, dst)
  {
    hide Frame, DecodeAll;
    FramesEnd(c, [], m);
    assert [] + [m] == [m];
    FirstDecodes(c, m, junk);
  }

  /** The destination ends as the frames of all readable messages and nothing else. */
  ghost predicate Restores<M(!new)>(c: Codec<M>, src: seq<Byte>, dst: seq<Byte>, mode: Mode)
    requires Sound(c)
  {
    Repaired(c, src, dst, mode) == (true, Frames(c, DecodeAll(c, src).0))
  }

  /** It does exactly when no message is too big and the destination was truncated, or is
      writable and no longer than what is written, or is read-only, empty, and nothing was
      readable. */
  lemma RestoresIff<M(!new)>(c: Codec<M>, src: seq<Byte>, dst: seq<Byte>, mode: Mode)
    requires Sound(c)
    ensures var ms := DecodeAll(c, src).0;
            Restores(c, src, dst, mode) <==>
            && AllAccepted(c, ms)
            && match mode
               case Truncating => true
               case Over => |dst| <= |Frames(c, ms)|
               case ReadOnly => ms == [] && dst == []
  {
    hide DecodeAll, Accepts;
    var ms := DecodeAll(c, src).0;
    TakesAll(c, ms);
    NoFrames(c);
    hide Frames;
    OverlaidTail(Opened(dst, mode), Frames(c, ms));
  }

  lemma OverlaidTail(start: seq<Byte>, a: seq<Byte>)
    ensures Overlaid(start, 0, a) == a <==> |start| <= |a|
  {
    assert |start| > |a| ==> |Overlaid(start, 0, a)| == |start|;
  }

  // ----- a destination that is truncated first

  /** What was decoded encodes again, if encoding is not longer than what was decoded. */
  ghost predicate Compact<M(!new)>(c: Codec<M>) {
    forall data :: c.unmarshal(data).Some? ==> |c.marshal(c.unmarshal(data).value)| <= |data|
  }

  lemma {:induction false} DecodedFit<M(!new)>(c: Codec<M>, s: seq<Byte>)
    requires Compact(c)
    ensures AllFit(c, DecodeAll(c, s).0)
    decreases |s|
  {
    var step := DecodeHead(c, s);
    if step.Got? {
      DecodedFit(c, s[step.size..]);
      hide DecodeAll;
      DecodesOn(c, s);
    }
  }

  lemma FitIsAccepted<M(!new)>(c: Codec<M>, ms: seq<M>)
    requires AllFit(c, ms)
    ensures AllAccepted(c, ms)
  {
    forall i | 0 <= i < |ms| ensures Accepts(c, ms[i]) { FitsWhole(c, ms[i]); }
  }

  /** Then the repair succeeds, what it leaves is readable to the end and is what was
      readable, and repairing that, into whatever, gives it again. */
  lemma {:induction false} RepairIsIdempotent<M(!new)>(c: Codec<M>, src: seq<Byte>, dst: seq<Byte>, other: seq<Byte>)
    requires Sound(c) && Compact(c)
    ensures var (ok, file) := Repaired(c, src, dst, Truncating);
            && ok && DecodeAll(c, file) == (DecodeAll(c, src).0, AtEnd)
            && Repaired(c, file, other, Truncating) == (true, file)
  {
    hide DecodeAll, Frames, Repaired;
    var ms := DecodeAll(c, src).0;
    DecodedFit(c, src);
    FitIsAccepted(c, ms);
    RestoresIff(c, src, dst, Truncating);
    RoundTrip(c, ms);
    RestoresIff(c, Frames(c, ms), other, Truncating);
  }

  lemma {:induction false} FramesPrefix<M(!new)>(c: Codec<M>, ms: seq<M>, k: nat)
    requires Sound(c) && k <= |ms|
    ensures Frames(c, ms[..k]) <= Frames(c, ms)
  {
    hide Frame;
    if k > 0 {
      FramesPrefix(c, ms[1..], k - 1);
      assert ms[..k][1..] == ms[1..][..k - 1];
    }
  }

  lemma {:induction false} NextDoesNotFit<M(!new)>(c: Codec<M>, ms: seq<M>, n: nat)
    requires Sound(c)
    ensures var k := Whole(c, ms, n); k <= |ms| && (k < |ms| ==> |Frames(c, ms[..k + 1])| > n)
  {
    hide Frame;
    if |ms| > 0 {
      var size := |Frame(c, ms[0])|;
      if n < size {
        assert ms[..1][1..] == [];
      } else {
        NextDoesNotFit(c, ms[1..], n - size);
        var k := Whole(c, ms[1..], n - size);
        assert k < |ms[1..]| ==> ms[..k + 2][1..] == ms[1..][..k + 1];
      }
    }
  }

  /** A truncated log is repaired to its longest decodable prefix: a prefix of the file, and
      the frame after it would not fit. */
  lemma {:induction false} RepairKeepsLongest<M(!new)>(c: Codec<M>, ms: seq<M>, n: nat, dst: seq<Byte>)
    requires Sound(c) && AllFit(c, ms) && n <= |Frames(c, ms)|
    ensures var src, k := Frames(c, ms)[..n], Whole(c, ms, n);
            && k <= |ms| && Repaired(c, src, dst, Truncating) == (true, Frames(c, ms[..k]))
            && Frames(c, ms[..k]) <= src && (k < |ms| ==> |Frames(c, ms[..k + 1])| > n)
  {
    hide Frames, DecodeAll, Whole, Repaired;
    var src, k := Frames(c, ms)[..n], Whole(c, ms, n);
    Truncated(c, ms, n);
    FramesPrefix(c, ms, k);
    NextDoesNotFit(c, ms, n);
    FitIsAccepted(c, ms[..k]);
    RestoresIff(c, src, dst, Truncating);
  }

  /** Writing over the log itself, without truncating it, changes nothing: the destination of
      the repair is the log its source was copied from. */
  lemma {:induction false} OverwritingKeepsTail<M(!new)>(c: Codec<M>, ms: seq<M>, n: nat)
    requires Sound(c) && AllFit(c, ms) && n <= |Frames(c, ms)|
    ensures var src := Frames(c, ms)[..n]; Repaired(c, src, src, Over) == (true, src)
  {
    hide Frames, DecodeAll, Whole;
    var src, k := Frames(c, ms)[..n], Whole(c, ms, n);
    Truncated(c, ms, n);
    FramesPrefix(c, ms, k);
    FitIsAccepted(c, ms[..k]);
    TakesAll(c, ms[..k]);
    OverlaidPrefix(src, Frames(c, ms[..k]));
  }

  lemma OverlaidPrefix(start: seq<Byte>, a: seq<Byte>)
    requires a <= start
    ensures Overlaid(start, 0, a) == start
  {
  }
}
