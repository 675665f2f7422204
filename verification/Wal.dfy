/** consensus/wal.go and the repair loop of consensus/state.go: checksum, length, data. */
module Wal {
  import opened Common

  type Byte = b: nat | b < 256

  const MAX_DATA := 1048576 + 24       // maxMsgSizeBytes

  /** The checksum, and how messages become bytes: decoding undoes encoding. */
  datatype Codec<!M> = Codec(crc: seq<Byte> -> nat, marshal: M -> seq<Byte>, unmarshal: seq<Byte> -> Option<M>)

  ghost predicate Sound<M(!new)>(c: Codec<M>) {
    && (forall data :: c.crc(data) < 0x1_0000_0000)
    && (forall m :: c.unmarshal(c.marshal(m)) == Some(m))
  }

  // ----- big-endian words

  function Put32(n: nat): seq<Byte>
    requires n < 0x1_0000_0000
  {
    [n / 0x100_0000, n / 0x1_0000 % 256, n / 0x100 % 256, n % 256]
  }

  function Get32(b: seq<Byte>): nat
    requires |b| == 4
  {
    b[0] as nat * 0x100_0000 + b[1] as nat * 0x1_0000 + b[2] as nat * 0x100 + b[3] as nat
  }

  lemma WordRoundTrip(n: nat)
    requires n < 0x1_0000_0000
    ensures Get32(Put32(n)) == n
  {
    var a := n / 0x100;
    var b := a / 0x100;
    assert n / 0x1_0000 == b && n / 0x100_0000 == b / 0x100;
    assert n == a * 0x100 + n % 256 && a == b * 0x100 + a % 256 && b == b / 0x100 * 0x100 + b % 256;
  }

  // ----- one frame

  const WORD := 0x1_0000_0000

  /** The length field is a uint32, so it wraps. */
  function Length<M>(c: Codec<M>, m: M): (n: nat)
    ensures n <= |c.marshal(m)| && n < WORD
  {
    var size := |c.marshal(m)|;
    assert size % WORD <= size;
    size % WORD
  }

  /** The bytes of the message that a frame has room for. */
  function Sent<M>(c: Codec<M>, m: M): seq<Byte> {
    c.marshal(m)[..Length(c, m)]
  }

  function Frame<M>(c: Codec<M>, m: M): (r: seq<Byte>)
    requires c.crc(c.marshal(m)) < WORD
    ensures |r| == 8 + Length(c, m)
  {
    Put32(c.crc(c.marshal(m))) + Put32(Length(c, m)) + Sent(c, m)
  }

  /** Encode does not refuse it. */
  predicate Accepts<M>(c: Codec<M>, m: M) {
    Length(c, m) <= MAX_DATA
  }

  predicate FitsFrame<M>(c: Codec<M>, m: M) {
    |c.marshal(m)| <= MAX_DATA
  }

  lemma FitsWhole<M>(c: Codec<M>, m: M)
    ensures FitsFrame(c, m) ==> Accepts(c, m) && Length(c, m) == |c.marshal(m)| && Sent(c, m) == c.marshal(m)
  {
  }

  datatype Step<+M> = End | Corrupt | Got(msg: M, size: nat)

  /** Decode at the head of what is left. A read fills its buffer or fails; failing at the
      checksum is the end of the stream. */
  function DecodeHead<M>(c: Codec<M>, s: seq<Byte>): (r: Step<M>)
    ensures r.Got? ==> 8 <= r.size <= |s|
  {
    if |s| < 4 then End
    else if |s| < 8 then Corrupt
    else
      var crc, length := Get32(s[..4]), Get32(s[4..8]);
      if length > MAX_DATA || 8 + length > |s| then Corrupt
      else
        var data := s[8..8 + length];
        if c.crc(data) != crc || c.unmarshal(data).None? then Corrupt
        else Got(c.unmarshal(data).value, 8 + length)
  }

  datatype Ending = AtEnd | AtCorruption

  /** All messages up to the first that does not decode. */
  function DecodeAll<M>(c: Codec<M>, s: seq<Byte>): (seq<M>, Ending) {
    match DecodeHead(c, s)
    case End => ([], AtEnd)
    case Corrupt => ([], AtCorruption)
    case Got(m, size) =>
      var (rest, e) := DecodeAll(c, s[size..]);
      ([m] + rest, e)
  }

  predicate AllFit<M>(c: Codec<M>, ms: seq<M>) {
    forall i :: 0 <= i < |ms| ==> FitsFrame(c, ms[i])
  }

  ghost function Frames<M(!new)>(c: Codec<M>, ms: seq<M>): seq<Byte>
    requires Sound(c)
  {
    if |ms| == 0 then [] else Frame(c, ms[0]) + Frames(c, ms[1..])
  }

  // ----- the reader, the writer and the repair

  class Decoder<M> {
    const codec: Codec<M>
    const stream: seq<Byte>
    var pos: nat

    constructor (codec: Codec<M>, stream: seq<Byte>)
      ensures this.codec == codec && this.stream == stream && pos == 0
    {
      this.codec, this.stream, this.pos := codec, stream, 0;
    }

    method Read(n: nat) returns (ok: bool, b: seq<Byte>)
      requires pos <= |stream|
      modifies this
      ensures pos <= |stream| && ok == (old(pos) + n <= |stream|)
      ensures ok ==> pos == old(pos) + n && b == stream[old(pos)..pos]
    {
      if pos + n > |stream| {
        pos := |stream|;
        return false, [];
      }
      b := stream[pos..pos + n];
      pos := pos + n;
      ok := true;
    }

    method Decode() returns (r: Step<M>)
      requires pos <= |stream|
      modifies this
      ensures pos <= |stream| && r == DecodeHead(codec, stream[old(pos)..])
      ensures r.Got? ==> pos == old(pos) + r.size
    {
      ghost var left := stream[pos..];
      assert |left| >= 4 ==> left[..4] == stream[pos..pos + 4];
      assert |left| >= 8 ==> left[4..8] == stream[pos + 4..pos + 8];
      var ok, b := Read(4);
      if !ok {
        return End;
      }
      var crc := Get32(b);
      ok, b := Read(4);
      if !ok {
        return Corrupt;
      }
      var length := Get32(b);
      if length > MAX_DATA {
        return Corrupt;
      }
      var data: seq<Byte>;
      ok, data := Read(length);
      if !ok {
        return Corrupt;
      }
      assert left[8..8 + length] == data;
      if codec.crc(data) != crc || codec.unmarshal(data).None? {
        return Corrupt;
      }
      r := Got(codec.unmarshal(data).value, 8 + length);
    }
  }

  /** How a file was opened for its writer: os.Open only reads; the other two write from the
      start, over what is there or after dropping it. */
  datatype Mode = ReadOnly | Over | Truncating

  function Opened(contents: seq<Byte>, mode: Mode): seq<Byte> {
    if mode == Truncating then [] else contents
  }

  /** Bytes written from a position on; what lies behind them stays. */
  function Overlaid(contents: seq<Byte>, pos: nat, b: seq<Byte>): seq<Byte>
    requires pos <= |contents|
  {
    contents[..pos] + b + if pos + |b| < |contents| then contents[pos + |b|..] else []
  }

  class Encoder<M(!new)> {
    const codec: Codec<M>
    const mode: Mode
    var file: seq<Byte>
    var pos: nat

    constructor (codec: Codec<M>, contents: seq<Byte>, mode: Mode)
      ensures this.codec == codec && this.mode == mode && file == Opened(contents, mode) && pos == 0
    {
      this.codec, this.mode, this.file, this.pos := codec, mode, Opened(contents, mode), 0;
    }

    method Write(b: seq<Byte>) returns (ok: bool)
      requires pos <= |file|
      modifies this
      ensures ok == (mode != ReadOnly) && pos <= |file|
      ensures ok ==> file == Overlaid(old(file), old(pos), b) && pos == old(pos) + |b|
      ensures !ok ==> file == old(file) && pos == old(pos)
    {
      if mode == ReadOnly {
        return false;
      }
      file := Overlaid(file, pos, b);
      pos := pos + |b|;
      ok := true;
    }

    /** Encode through a buffer of the frame's size. */
    method Encode(m: M) returns (ok: bool)
      requires Sound(codec) && pos <= |file|
      modifies this
      ensures ok == (Accepts(codec, m) && mode != ReadOnly) && pos <= |file|
      ensures ok ==> file == Overlaid(old(file), old(pos), Frame(codec, m)) && pos == old(pos) + |Frame(codec, m)|
      ensures !ok ==> file == old(file) && pos == old(pos)
    {
      var data := codec.marshal(m);
      var crc, length := codec.crc(data), Length(codec, m);
      if length > MAX_DATA {
        return false;
      }
      var msg := new Byte[8 + length](_ => 0);
      var head := Put32(crc) + Put32(length);
      for i := 0 to 8
        invariant file == old(file) && pos == old(pos) && msg[..i] == head[..i]
      {
        msg[i] := head[i];
      }
      for i := 0 to length
        invariant file == old(file) && pos == old(pos) && msg[..8] == head && msg[8..8 + i] == data[..i]
      {
        msg[8 + i] := data[i];
      }
      assert msg[..] == msg[..8] + msg[8..8 + length];
      ok := Write(msg[..]);
    }
  }

  // ----- what decoding gives back

  /** What an encoded message reads back as, the frame being the head of what is left: itself,
      unless its length wrapped, when it takes a checksum that does not tell. */
  lemma HeadReads<M(!new)>(c: Codec<M>, m: M, rest: seq<Byte>)
    requires Sound(c) && Accepts(c, m)
    ensures var sent := Sent(c, m);
            DecodeHead(c, Frame(c, m) + rest) ==
            if c.crc(sent) == c.crc(c.marshal(m)) && c.unmarshal(sent).Some?
            then Got(c.unmarshal(sent).value, |Frame(c, m)|) else Corrupt
  {
    var n, crc := Length(c, m), c.crc(c.marshal(m));
    var s := Frame(c, m) + rest;
    assert s[..4] == Put32(crc) && s[4..8] == Put32(n) && s[8..8 + n] == Sent(c, m);
    WordRoundTrip(crc);
    WordRoundTrip(n);
    hide Put32, Get32;
  }

  lemma WordsMatch(b: seq<Byte>)
    requires |b| == 4
    ensures Get32(b) < WORD && Put32(Get32(b)) == b
  {
    var n := Get32(b);
    var high := b[0] as nat * 0x1_0000 + b[1] as nat * 0x100 + b[2] as nat;
    assert n == high * 0x100 + b[3] as nat;
    assert n / 0x100 == high && n % 256 == b[3] as nat;
    assert high / 0x100 == b[0] as nat * 0x100 + b[1] as nat && high % 256 == b[2] as nat;
    assert n / 0x1_0000 == high / 0x100 && n / 0x100_0000 == b[0] as nat;
  }

  /** The bytes begin with the checksum and the length of this data, and then the data. */
  ghost predicate BeginsWith<M>(c: Codec<M>, s: seq<Byte>, data: seq<Byte>)
    requires |data| < WORD && c.crc(data) < WORD
  {
    Put32(c.crc(data)) + Put32(|data|) + data <= s
  }

  /** Decoding gives a message exactly if the bytes begin with a frame, of data not too long that
      decodes to it; the end exactly if there is no room for a checksum. */
  lemma {:induction false} DecodesExactly<M(!new)>(c: Codec<M>, s: seq<Byte>, m: M)
    requires Sound(c)
    ensures (exists size :: DecodeHead(c, s) == Got(m, size)) <==>
            exists data :: |data| <= MAX_DATA && BeginsWith(c, s, data) && c.unmarshal(data) == Some(m)
    ensures DecodeHead(c, s) == End <==> |s| < 4
  {
    hide Put32, BeginsWith;
    if exists size :: DecodeHead(c, s) == Got(m, size) {
      BeginsIfDecoded(c, s, m);
    }
    forall data | |data| <= MAX_DATA && BeginsWith(c, s, data) && c.unmarshal(data) == Some(m)
      ensures DecodeHead(c, s) == Got(m, 8 + |data|)
    {
      DecodedIfBegins(c, s, m, data);
    }
  }

  lemma BeginsIfDecoded<M(!new)>(c: Codec<M>, s: seq<Byte>, m: M)
    requires Sound(c) && DecodeHead(c, s).Got? && DecodeHead(c, s).msg == m
    ensures exists data :: |data| <= MAX_DATA && BeginsWith(c, s, data) && c.unmarshal(data) == Some(m)
  {
    hide Put32, Get32;
    var data := s[8..8 + Get32(s[4..8])];
    WordsMatch(s[..4]);
    WordsMatch(s[4..8]);
    assert s[..4] + s[4..8] + data <= s;
    assert BeginsWith(c, s, data);
  }

  lemma DecodedIfBegins<M(!new)>(c: Codec<M>, s: seq<Byte>, m: M, data: seq<Byte>)
    requires Sound(c) && |data| <= MAX_DATA && BeginsWith(c, s, data) && c.unmarshal(data) == Some(m)
    ensures DecodeHead(c, s) == Got(m, 8 + |data|)
  {
    hide Put32, Get32;
    PutLength(c.crc(data));
    PutLength(|data|);
    WordRoundTrip(c.crc(data));
    WordRoundTrip(|data|);
    assert s[..4] == Put32(c.crc(data)) && s[4..8] == Put32(|data|) && s[8..8 + |data|] == data;
  }

  lemma PutLength(n: nat)
    requires n < WORD
    ensures |Put32(n)| == 4
  {
  }

  lemma HeadDecodes<M(!new)>(c: Codec<M>, m: M, rest: seq<Byte>)
    requires Sound(c) && FitsFrame(c, m)
    ensures DecodeHead(c, Frame(c, m) + rest) == Got(m, |Frame(c, m)|)
    ensures (Frame(c, m) + rest)[|Frame(c, m)|..] == rest
  {
    hide Frame, DecodeHead, Length, Sent;
    FitsWhole(c, m);
    HeadReads(c, m, rest);
  }

  /** A frame cut short is the end of the stream, or corrupt from the length on. */
  lemma CutDecodes<M(!new)>(c: Codec<M>, m: M, n: nat)
    requires Sound(c) && FitsFrame(c, m) && n < |Frame(c, m)|
    ensures DecodeAll(c, Frame(c, m)[..n]) == ([], if n < 4 then AtEnd else AtCorruption)
  {
    var s := Frame(c, m)[..n];
    FitsWhole(c, m);
    WordRoundTrip(Length(c, m));
    hide Put32, Get32;
    assert n >= 8 ==> s[4..8] == Put32(Length(c, m));
  }

  lemma FirstDecodes<M(!new)>(c: Codec<M>, m: M, rest: seq<Byte>)
    requires Sound(c) && FitsFrame(c, m)
    ensures var (ms, e) := DecodeAll(c, rest); DecodeAll(c, Frame(c, m) + rest) == ([m] + ms, e)
  {
    hide Frame, DecodeHead;
    HeadDecodes(c, m, rest);
  }

  /** Decoding the concatenation of encoded messages gives the messages back. */
  lemma {:induction false} RoundTrip<M(!new)>(c: Codec<M>, ms: seq<M>)
    requires Sound(c) && AllFit(c, ms)
    ensures DecodeAll(c, Frames(c, ms)) == (ms, AtEnd)
  {
    hide Frame, DecodeHead, FitsFrame;
    if |ms| > 0 {
      RoundTrip(c, ms[1..]);
      FirstDecodes(c, ms[0], Frames(c, ms[1..]));
      assert ms == [ms[0]] + ms[1..];
    } else {
      EmptyDecodes(c);
    }
  }

  /** How many frames are whole within n bytes. */
  ghost function Whole<M(!new)>(c: Codec<M>, ms: seq<M>, n: nat): nat
    requires Sound(c)
  {
    if |ms| == 0 || n < |Frame(c, ms[0])| then 0 else 1 + Whole(c, ms[1..], n - |Frame(c, ms[0])|)
  }

  /** A truncated stream gives the messages whose frames are whole, then ends, or is corrupt
      if the next length field was reached. */
  lemma {:induction false} Truncated<M(!new)>(c: Codec<M>, ms: seq<M>, n: nat)
    requires Sound(c) && AllFit(c, ms) && n <= |Frames(c, ms)|
    ensures var k := Whole(c, ms, n);
            && k <= |ms| && |Frames(c, ms[..k])| <= n
            && DecodeAll(c, Frames(c, ms)[..n]) ==
               (ms[..k], if n - |Frames(c, ms[..k])| < 4 then AtEnd else AtCorruption)
  {
    hide Frame, DecodeHead, DecodeAll;
    if |ms| == 0 {
      assert ms[..0] == [] && Frames(c, ms)[..n] == [];
      EmptyDecodes(c);
    } else if n < |Frame(c, ms[0])| {
      assert Frames(c, ms)[..n] == Frame(c, ms[0])[..n] && ms[..0] == [];
      CutDecodes(c, ms[0], n);
    } else {
      var frame, rest := Frame(c, ms[0]), Frames(c, ms[1..]);
      var n' := n - |frame|;
      var k := Whole(c, ms[1..], n');
      Truncated(c, ms[1..], n');
      FirstDecodes(c, ms[0], rest[..n']);
      assert Frames(c, ms)[..n] == frame + rest[..n'];
      assert ms[..k + 1][1..] == ms[1..][..k] && ms[..k + 1] == [ms[0]] + ms[1..][..k];
    }
  }

  lemma EmptyDecodes<M>(c: Codec<M>)
    ensures DecodeAll(c, []) == ([], AtEnd)
  {
  }
}
