/**
 Length-prefixed message framing: a flag byte, a 32-bit big-endian length and the message.

 `Parse` is the whole-stream parser that the incremental `FrameDecoder` must agree with, however
 the bytes are cut into `Consume` calls.
 */
module Codec {
  newtype Byte = x: int | 0 <= x < 256
  type Bytes = seq<Byte>

  const PREFIX_LEN := 5
  const TWO_TO_THE_32 := 0x1_0000_0000

  datatype Option<+T> = None | Some(value: T)

  /** A framing violation; the caller turns these into INTERNAL and RESOURCE_EXHAUSTED. */
  datatype FrameError = CompressedFlag | OverLimit(declared: nat)

  // ---- the wire format -------------------------------------------------------------------------

  function U32BE(v: nat): (b: Bytes)
    requires v < TWO_TO_THE_32
    ensures |b| == 4
  {
    [(v / 0x100_0000) as Byte, (v / 0x1_0000 % 0x100) as Byte, (v / 0x100 % 0x100) as Byte, (v % 0x100) as Byte]
  }

  function FromU32BE(b: Bytes): (v: nat)
    requires |b| == 4
    ensures v < TWO_TO_THE_32
  {
    b[0] as int * 0x100_0000 + b[1] as int * 0x1_0000 + b[2] as int * 0x100 + b[3] as int
  }

  lemma U32RoundTrip(v: nat)
    requires v < TWO_TO_THE_32
    ensures FromU32BE(U32BE(v)) == v
  {
    assert v / 0x1_0000 == v / 0x100_0000 * 0x100 + v / 0x1_0000 % 0x100;
    assert v / 0x100 == v / 0x1_0000 * 0x100 + v / 0x100 % 0x100;
  }

  lemma FromU32BEInjective(b: Bytes)
    requires |b| == 4
    ensures U32BE(FromU32BE(b)) == b
  {
    var v := FromU32BE(b);
    assert v / 0x100_0000 == b[0] as int;
    assert v / 0x1_0000 == b[0] as int * 0x100 + b[1] as int;
    assert v / 0x100 == b[0] as int * 0x1_0000 + b[1] as int * 0x100 + b[2] as int;
  }

  /** The number that bytes say, most significant first. */
  function BigEndian(b: Bytes): nat {
    if b == [] then 0 else BigEndian(b[..|b| - 1]) * 0x100 + b[|b| - 1] as int
  }

  lemma FourBytes(b: Bytes)
    requires |b| == 4
    ensures BigEndian(b) == ((b[0] as int * 0x100 + b[1] as int) * 0x100 + b[2] as int) * 0x100 + b[3] as int
  {
    var three, two, one := b[..3], b[..2], b[..1];
    assert three[..2] == two && two[..1] == one && one[..0] == [];
    assert BigEndian(one) == b[0] as int && BigEndian(two) == BigEndian(one) * 0x100 + b[1] as int;
    assert BigEndian(three) == BigEndian(two) * 0x100 + b[2] as int;
  }

  /** The four length bytes are big-endian, written and read. */
  lemma LengthIsBigEndian(v: nat, b: Bytes)
    requires v < TWO_TO_THE_32 && |b| == 4
    ensures BigEndian(U32BE(v)) == v && FromU32BE(b) == BigEndian(b)
  {
    FourBytes(b);
    FourBytes(U32BE(v));
    U32RoundTrip(v);
  }

  /** The prefix EncodeFrame writes: the length is cut to 32 bits. */
  function Prefix(len: nat): (b: Bytes)
    ensures |b| == PREFIX_LEN && b[0] == 0
  {
    [0] + U32BE(len % TWO_TO_THE_32)
  }

  function Frame(msg: Bytes): Bytes {
    Prefix(|msg|) + msg
  }

  function Frames(msgs: seq<Bytes>): Bytes {
    if msgs == [] then [] else Frame(msgs[0]) + Frames(msgs[1..])
  }

  /** Appends the framed form of `msg` to `out`. */
  method EncodeFrame(msg: Bytes, out: Bytes) returns (r: Bytes)
    ensures r == out + Frame(msg)
    ensures |r| == |out| + PREFIX_LEN + |msg| && out <= r && r[|out| + PREFIX_LEN..] == msg
    ensures r[|out|] == 0 && BigEndian(r[|out| + 1..|out| + PREFIX_LEN]) == |msg| % TWO_TO_THE_32
  {
    r := out + [0];
    var v := |msg| % TWO_TO_THE_32;
    r := r + [(v / 0x100_0000) as Byte];
    r := r + [(v / 0x1_0000 % 0x100) as Byte];
    r := r + [(v / 0x100 % 0x100) as Byte];
    r := r + [(v % 0x100) as Byte];
    assert r == out + Prefix(|msg|);
    r := r + msg;
    assert r == out + (Prefix(|msg|) + msg);
    assert r[|out| + 1..|out| + PREFIX_LEN] == U32BE(v);
    LengthIsBigEndian(v, U32BE(v));
  }

  // ---- the whole-stream parser -----------------------------------------------------------------

  datatype Parsed = Parsed(messages: seq<Bytes>, rest: Bytes, error: Option<FrameError>)

  /** What the bytes at the head of the stream are. */
  datatype Head = Short | Bad(error: FrameError) | Whole(len: nat)

  function HeadOf(limit: nat, s: Bytes): (h: Head)
    ensures h.Whole? ==> PREFIX_LEN + h.len <= |s|
  {
    if |s| < PREFIX_LEN then Short
    else if s[0] != 0 then Bad(CompressedFlag)
    else
      var n := FromU32BE(s[1..5]);
      if n > limit then Bad(OverLimit(n))
      else if |s| - PREFIX_LEN < n then Short
      else Whole(n)
  }

  /**
   The format, read off the bytes: five of prefix; a flag that must be zero; then a big-endian length,
   which must not exceed the limit, and that many bytes of message.
   */
  lemma HeadFormat(limit: nat, s: Bytes)
    ensures HeadOf(limit, s) ==
      if |s| < 5 then Short
      else if s[0] != 0 then Bad(CompressedFlag)
      else if BigEndian(s[1..5]) > limit then Bad(OverLimit(BigEndian(s[1..5])))
      else if |s| < 5 + BigEndian(s[1..5]) then Short
      else Whole(BigEndian(s[1..5]))
  {
    if |s| >= 5 { LengthIsBigEndian(0, s[1..5]); }
  }

  /** And what is written: the frame of a message, for every length. */
  lemma FrameFormat(msg: Bytes)
    ensures var f := Frame(msg);
            |f| == 5 + |msg| && f[0] == 0 && BigEndian(f[1..5]) == |msg| % 0x1_0000_0000 && f[5..] == msg
  {
    assert Frame(msg)[1..5] == U32BE(|msg| % TWO_TO_THE_32);
    LengthIsBigEndian(|msg| % TWO_TO_THE_32, U32BE(0));
  }

  /** A whole frame at the head of the bytes is one message, and the rest is parsed on its own. */
  lemma ParseFormat(limit: nat, s: Bytes)
    requires |s| >= 5 && s[0] == 0 && BigEndian(s[1..5]) <= limit && 5 + BigEndian(s[1..5]) <= |s|
    ensures var n := BigEndian(s[1..5]);
            var p := Parse(limit, s[5 + n..]);
            Parse(limit, s) == Parsed([s[5..5 + n]] + p.messages, p.rest, p.error)
  {
    HeadFormat(limit, s);
  }

  /** Every complete message of `s`, the bytes left over, and the violation that stopped it. */
  function Parse(limit: nat, s: Bytes): Parsed
    decreases |s|
  {
    match HeadOf(limit, s)
    case Short => Parsed([], s, None)
    case Bad(e) => Parsed([], s, Some(e))
    case Whole(n) =>
      var p := Parse(limit, s[PREFIX_LEN + n..]);
      Parsed([s[PREFIX_LEN..PREFIX_LEN + n]] + p.messages, p.rest, p.error)
  }

  lemma Assoc<T>(a: seq<T>, b: seq<T>, c: seq<T>)
    ensures a + (b + c) == (a + b) + c
  {
  }

  /** A head that is not short is decided: later bytes do not change it. */
  lemma HeadAppend(limit: nat, s: Bytes, t: Bytes)
    requires !HeadOf(limit, s).Short?
    ensures HeadOf(limit, s + t) == HeadOf(limit, s)
  {
    assert (s + t)[1..5] == s[1..5];
  }

  /** Parsing in two instalments: keep the leftovers, append, parse again. */
  lemma {:induction false} ParseAppend(limit: nat, s: Bytes, t: Bytes)
    ensures var p := Parse(limit, s);
            var q := Parse(limit, p.rest + t);
            Parse(limit, s + t) == Parsed(p.messages + q.messages, q.rest, q.error)
    decreases |s|
  {
    hide HeadOf;
    var h := HeadOf(limit, s);
    if h.Whole? {
      var cut := PREFIX_LEN + h.len;
      HeadAppend(limit, s, t);
      ParseAppend(limit, s[cut..], t);
      assert (s + t)[cut..] == s[cut..] + t;
      var m := s[PREFIX_LEN..cut];
      assert (s + t)[PREFIX_LEN..cut] == m;
      var p := Parse(limit, s[cut..]);
      var q := Parse(limit, p.rest + t);
      Assoc([m], p.messages, q.messages);
    } else {
      var q := Parse(limit, s + t);
      assert [] + q.messages == q.messages;
    }
  }

  /** The leftovers hold no complete message: parsing them alone yields only the same status. */
  lemma {:induction false} ParseRest(limit: nat, s: Bytes)
    ensures var p := Parse(limit, s); HeadOf(limit, p.rest) == if p.error.None? then Short else Bad(p.error.value)
    decreases |s|
  {
    var h := HeadOf(limit, s);
    if h.Whole? { ParseRest(limit, s[PREFIX_LEN + h.len..]); }
  }

  /** A violation is decided by the bytes already seen: more bytes change neither it nor the messages. */
  lemma ErrorIsSticky(limit: nat, s: Bytes, t: Bytes)
    requires Parse(limit, s).error.Some?
    ensures Parse(limit, s + t) == Parse(limit, s).(rest := Parse(limit, s).rest + t)
  {
    var p := Parse(limit, s);
    ParseAppend(limit, s, t);
    ParseRest(limit, s);
    HeadAppend(limit, p.rest, t);
  }

  // ---- encoding then parsing -------------------------------------------------------------------

  predicate Encodable(limit: nat, msg: Bytes) {
    |msg| <= limit && |msg| < TWO_TO_THE_32
  }

  lemma Slices(p: Bytes, m: Bytes, t: Bytes)
    ensures (p + m + t)[|p|..|p| + |m|] == m
    ensures (p + m + t)[|p| + |m|..] == t
  {
  }

  /** What the parser makes of a frame at the head of the stream, for every message length. */
  lemma FrameHead(limit: nat, msg: Bytes, t: Bytes)
    ensures var n := |msg| % TWO_TO_THE_32;
            HeadOf(limit, Frame(msg) + t) == if n > limit then Bad(OverLimit(n)) else Whole(n)
  {
    var n := |msg| % TWO_TO_THE_32;
    assert (Frame(msg) + t)[1..5] == U32BE(n);
    U32RoundTrip(n);
  }

  lemma ParseFrame(limit: nat, msg: Bytes, t: Bytes)
    requires Encodable(limit, msg)
    ensures var q := Parse(limit, t); Parse(limit, Frame(msg) + t) == Parsed([msg] + q.messages, q.rest, q.error)
  {
    var s, n := Frame(msg) + t, |msg|;
    assert HeadOf(limit, s) == Whole(n) && s[PREFIX_LEN..PREFIX_LEN + n] == msg && s[PREFIX_LEN + n..] == t by {
      FrameHead(limit, msg, t);
      Slices(Prefix(n), msg, t);
    }
    hide HeadOf, Frame;
  }

  /** One frame decodes to its message exactly when the length fits the limit and 32 bits. */
  lemma FrameRoundTrip(limit: nat, msg: Bytes)
    ensures Parse(limit, Frame(msg)) == Parsed([msg], [], None) <==> Encodable(limit, msg)
  {
    assert Frame(msg) + [] == Frame(msg);
    if Encodable(limit, msg) {
      ParseFrame(limit, msg, []);
    } else {
      FrameHead(limit, msg, []);
      var n := |msg| % TWO_TO_THE_32;
      if n <= limit {
        var first := Parse(limit, Frame(msg)).messages[0];
        assert |first| == n != |msg|;
      }
    }
  }

  /** A whole list of messages that fit decodes to itself, nothing left over. */
  lemma {:induction false} FramesRoundTrip(limit: nat, msgs: seq<Bytes>)
    requires forall m :: m in msgs ==> Encodable(limit, m)
    ensures Parse(limit, Frames(msgs)) == Parsed(msgs, [], None)
  {
    if msgs != [] {
      FramesRoundTrip(limit, msgs[1..]);
      ParseFrame(limit, msgs[0], Frames(msgs[1..]));
    }
  }

  /** Messages under 32 bits but over the limit: the parser yields those before the first one. */
  lemma {:induction false} FramesParsePrefix(limit: nat, msgs: seq<Bytes>)
    requires forall m :: m in msgs ==> |m| < TWO_TO_THE_32
    ensures Parse(limit, Frames(msgs)).messages <= msgs
    ensures Parse(limit, Frames(msgs)).error.None? ==> Parse(limit, Frames(msgs)).messages == msgs
  {
    hide HeadOf, Frame;
    if msgs != [] {
      var m, rest := msgs[0], msgs[1..];
      if |m| <= limit {
        FramesParsePrefix(limit, rest);
        ParseFrame(limit, m, Frames(rest));
        assert msgs == [m] + rest;
      } else {
        FrameHead(limit, m, Frames(rest));
      }
    }
  }

  /** A list of messages decodes to itself if and only if each fits the limit; otherwise the parse ends in an error. */
  lemma {:induction false} FramesFit(limit: nat, msgs: seq<Bytes>)
    requires forall m :: m in msgs ==> |m| < TWO_TO_THE_32
    ensures Parse(limit, Frames(msgs)).messages == msgs <==> forall m :: m in msgs ==> |m| <= limit
    ensures Parse(limit, Frames(msgs)).error.None? <==> forall m :: m in msgs ==> |m| <= limit
  {
    hide HeadOf, Frame;
    if msgs == [] {
      FramesRoundTrip(limit, msgs);
    } else {
      var m, rest := msgs[0], msgs[1..];
      assert msgs == [m] + rest;
      if |m| <= limit {
        FramesFit(limit, rest);
        ParseFrame(limit, m, Frames(rest));
      } else {
        FrameHead(limit, m, Frames(rest));
      }
    }
  }

  /** Any cut of an encoded stream decodes to a prefix of the messages. */
  lemma CutParsesPrefix(limit: nat, msgs: seq<Bytes>, cut: nat)
    requires forall m :: m in msgs ==> |m| < TWO_TO_THE_32
    requires cut <= |Frames(msgs)|
    ensures Parse(limit, Frames(msgs)[..cut]).messages <= msgs
  {
    hide Parse, Frames;
    var s := Frames(msgs);
    ParseAppend(limit, s[..cut], s[cut..]);
    assert s[..cut] + s[cut..] == s;
    FramesParsePrefix(limit, msgs);
  }

  lemma {:induction false} FramesAppend(a: seq<Bytes>, b: seq<Bytes>)
    ensures Frames(a + b) == Frames(a) + Frames(b)
  {
    hide Frame;
    if a == [] {
      assert a + b == b;
    } else {
      FramesAppend(a[1..], b);
      assert (a + b)[1..] == a[1..] + b;
      Assoc(Frame(a[0]), Frames(a[1..]), Frames(b));
    }
  }

  // ---- the incremental decoder, on values ------------------------------------------------------

  datatype Decoder = Decoder(
    limit: nat,
    buffer: Bytes,
    haveHeader: bool,
    needed: nat,
    messages: seq<Bytes>,
    count: nat)
  {
    /** `needed` is meaningful only behind a parsed header, whose length passed the limit. */
    predicate Valid() {
      if haveHeader then needed <= limit && needed < TWO_TO_THE_32 else needed == 0
    }

    /** The received bytes not yet turned into messages, the erased header put back. */
    function Residue(): Bytes {
      if haveHeader then Prefix(needed) + buffer else buffer
    }

    /** What is parsed so far and what the residue still parses to make up `p`. */
    ghost predicate Progress(d: Decoder, p: Parsed) {
      var q := Parse(limit, Residue());
      limit == d.limit && q.rest == p.rest && q.error == p.error && messages + q.messages == d.messages + p.messages
    }

    lemma StartProgress(data: Bytes)
      ensures this.(buffer := buffer + data).Progress(this, Parse(limit, Residue() + data))
    {
      hide Parse;
      assert this.(buffer := buffer + data).Residue() == Residue() + data;
    }

    /** Erasing the header that was just read. */
    lemma HeaderProgress(d: Decoder, p: Parsed)
      requires Valid() && Progress(d, p) && !haveHeader
      requires |buffer| >= PREFIX_LEN && buffer[0] == 0 && FromU32BE(buffer[1..5]) <= limit
      ensures var mlen := FromU32BE(buffer[1..5]);
              this.(needed := mlen, haveHeader := true, buffer := buffer[PREFIX_LEN..]).Progress(d, p)
    {
      HeaderErased(buffer);
    }

    /** Cutting a message that is complete behind its header keeps the progress. */
    lemma TurnProgress(d: Decoder, p: Parsed)
      requires Valid() && haveHeader && needed <= |buffer| && Progress(d, p)
      ensures Decoder(limit, buffer[needed..], false, 0, messages + [buffer[..needed]], count).Progress(d, p)
    {
      BehindHeader(limit, needed, buffer);
      var q := Parse(limit, buffer[needed..]);
      assert messages + [buffer[..needed]] + q.messages == messages + ([buffer[..needed]] + q.messages);
    }

    /** No complete message left: the decoder is where `p` says it must be. */
    lemma EndProgress(d: Decoder, p: Parsed)
      requires Valid() && Progress(d, p) && count == d.count
      requires if haveHeader then |buffer| < needed else !HeadOf(limit, buffer).Whole?
      requires !haveHeader && HeadOf(limit, buffer).Short? ==> |buffer| < PREFIX_LEN
      ensures this == Settle(d, p)
      ensures p.error == if !haveHeader && HeadOf(limit, buffer).Bad? then Some(HeadOf(limit, buffer).error) else None
    {
      if haveHeader { BehindHeader(limit, needed, buffer); }
    }
  }

  /** Erasing a parsed header loses nothing: it can be rebuilt from the length. */
  lemma HeaderErased(b: Bytes)
    requires |b| >= PREFIX_LEN && b[0] == 0
    ensures Prefix(FromU32BE(b[1..5])) + b[PREFIX_LEN..] == b
  {
    FromU32BEInjective(b[1..5]);
    assert b == [b[0]] + b[1..5] + b[PREFIX_LEN..];
  }

  lemma BehindHeader(limit: nat, needed: nat, b: Bytes)
    requires needed <= limit && needed < TWO_TO_THE_32
    ensures var s := Prefix(needed) + b;
            && HeadOf(limit, s) == (if |b| < needed then Short else Whole(needed))
            && s[PREFIX_LEN..] == b && FromU32BE(s[1..5]) == needed
            && (needed <= |b| ==> s[PREFIX_LEN..PREFIX_LEN + needed] == b[..needed]
                                  && s[PREFIX_LEN + needed..] == b[needed..])
  {
    var s := Prefix(needed) + b;
    assert s[1..5] == U32BE(needed);
    U32RoundTrip(needed);
  }

  function NewDecoder(limit: nat): Decoder {
    Decoder(limit, [], false, 0, [], 0)
  }

  /** The decoder that holds the leftovers `rest`: a header that can be parsed has been. */
  function Settle(d: Decoder, p: Parsed): Decoder {
    var headed := p.error.None? && |p.rest| >= PREFIX_LEN;
    d.(messages := d.messages + p.messages,
       haveHeader := headed,
       needed := if headed then FromU32BE(p.rest[1..5]) else 0,
       buffer := if headed then p.rest[PREFIX_LEN..] else p.rest)
  }

  /** What one `Consume` call must do: parse the residue together with the new bytes. */
  function Feed(d: Decoder, data: Bytes): Decoder {
    Settle(d, Parse(d.limit, d.Residue() + data))
  }

  function FeedError(d: Decoder, data: Bytes): Option<FrameError> {
    Parse(d.limit, d.Residue() + data).error
  }

  /** Settling keeps the leftovers, with a header that passed the limit erased. */
  lemma SettleResidue(d: Decoder, p: Parsed)
    requires HeadOf(d.limit, p.rest) == if p.error.None? then Short else Bad(p.error.value)
    ensures var e := Settle(d, p);
            && e.Valid() && e.Residue() == p.rest
            && (p.error.None? ==> |e.buffer| < if PREFIX_LEN < d.limit then d.limit else PREFIX_LEN)
  {
    if p.error.None? && |p.rest| >= PREFIX_LEN { HeaderErased(p.rest); }
    hide Prefix, FromU32BE;
  }

  lemma FeedResidue(d: Decoder, data: Bytes)
    ensures Feed(d, data).Valid() && Feed(d, data).limit == d.limit
    ensures Feed(d, data).Residue() == Parse(d.limit, d.Residue() + data).rest
    ensures FeedError(d, data).None? ==>
              |Feed(d, data).buffer| < if PREFIX_LEN < d.limit then d.limit else PREFIX_LEN
  {
    var s := d.Residue() + data;
    ParseRest(d.limit, s);
    SettleResidue(d, Parse(d.limit, s));
    hide Parse, HeadOf, Decoder.Valid, Decoder.Residue;
  }

  /** A decoder that holds the leftovers of `got` adds exactly what `data` adds to the parse. */
  lemma FeedExtends(d: Decoder, got: Bytes, data: Bytes)
    requires d.Residue() == Parse(d.limit, got).rest
    ensures var e, p := Feed(d, data), Parse(d.limit, got + data);
            var more := Parse(d.limit, d.Residue() + data).messages;
            && FeedError(d, data) == p.error && e.limit == d.limit && e.Residue() == p.rest && e.count == d.count
            && e.messages == d.messages + more && p.messages == Parse(d.limit, got).messages + more
  {
    hide Parse;
    ParseAppend(d.limit, got, data);
    FeedResidue(d, data);
  }

  function FeedAll(d: Decoder, chunks: seq<Bytes>): Decoder
    decreases |chunks|
  {
    if chunks == [] then d else FeedAll(Feed(d, chunks[0]), chunks[1..])
  }

  function Flatten(chunks: seq<Bytes>): Bytes {
    if chunks == [] then [] else chunks[0] + Flatten(chunks[1..])
  }

  lemma SettleTwice(d: Decoder, p: Parsed, q: Parsed)
    ensures Settle(Settle(d, p), q) == Settle(d, Parsed(p.messages + q.messages, q.rest, q.error))
  {
    Assoc(d.messages, p.messages, q.messages);
  }

  /** Two Consume calls are one on the concatenation, in state and in status. */
  lemma FeedTwice(d: Decoder, a: Bytes, b: Bytes)
    ensures Feed(Feed(d, a), b) == Feed(d, a + b)
    ensures FeedError(Feed(d, a), b) == FeedError(d, a + b)
    ensures FeedError(d, a).Some? ==>
              FeedError(d, a + b) == FeedError(d, a) && Feed(d, a + b).messages == Feed(d, a).messages
  {
    hide Parse;
    var s := d.Residue() + a;
    var p := Parse(d.limit, s);
    FeedResidue(d, a);
    ParseAppend(d.limit, s, b);
    assert s + b == d.Residue() + (a + b);
    SettleTwice(d, p, Parse(d.limit, p.rest + b));
    if p.error.Some? { ErrorIsSticky(d.limit, s, b); }
  }

  /**
   Chunking independence: however the bytes are cut, the decoder ends in the state of one call on
   all of them.
   */
  lemma {:induction false} ChunkingIndependence(d: Decoder, chunks: seq<Bytes>)
    requires chunks != []
    ensures FeedAll(d, chunks) == Feed(d, Flatten(chunks))
    decreases |chunks|
  {
    if |chunks| == 1 {
      assert chunks[0] + [] == chunks[0];
    } else {
      ChunkingIndependence(Feed(d, chunks[0]), chunks[1..]);
      FeedTwice(d, chunks[0], Flatten(chunks[1..]));
    }
  }

  /** The codec round trip under every chunking. */
  lemma ChunkedRoundTrip(limit: nat, msgs: seq<Bytes>, chunks: seq<Bytes>)
    requires forall m :: m in msgs ==> Encodable(limit, m)
    requires Flatten(chunks) == Frames(msgs)
    ensures FeedAll(NewDecoder(limit), chunks) == NewDecoder(limit).(messages := msgs)
  {
    FramesRoundTrip(limit, msgs);
    var d := NewDecoder(limit);
    assert [] + Frames(msgs) == Frames(msgs);
    assert d.messages + msgs == msgs;
    if chunks != [] { ChunkingIndependence(d, chunks); }
  }

  /** A frame longer than 32 bits can say is cut: its tail is parsed as if it were framing. */
  lemma LengthWraps(limit: nat)
    ensures exists msg: Bytes :: |msg| == TWO_TO_THE_32 && [[]] <= Parse(limit, Frame(msg)).messages
  {
    var msg: Bytes := seq(TWO_TO_THE_32, i => 1);
    FrameHead(limit, msg, []);
    assert Frame(msg) + [] == Frame(msg);
    assert Parse(limit, Frame(msg)).messages[0] == [];
    assert [[]] <= Parse(limit, Frame(msg)).messages;
  }

  // ---- the decoder class -----------------------------------------------------------------------

  class FrameDecoder {
    const maxMessageSize: nat
    var buffer: Bytes
    var needed: nat
    var haveHeader: bool
    var flag: Byte
    var messages: seq<Bytes>
    var messageCount: nat

    constructor (limit: nat)
      ensures State() == NewDecoder(limit)
    {
      maxMessageSize := limit;
      buffer, needed, haveHeader, flag, messages, messageCount := [], 0, false, 0, [], 0;
    }

    function State(): Decoder
      reads this
    {
      Decoder(maxMessageSize, buffer, haveHeader, needed, messages, messageCount)
    }

    method Consume(data: Bytes) returns (st: Option<FrameError>)
      requires State().Valid()
      modifies this
      ensures State() == Feed(old(State()), data)
      ensures State().Valid()
      ensures st == FeedError(old(State()), data)
    {
      hide Prefix, FromU32BE, Parse, Settle, Decoder.Residue, Decoder.Progress;
      ghost var d := State();
      ghost var p := Parse(d.limit, d.Residue() + data);
      buffer := buffer + data;
      d.StartProgress(data);
      while true
        invariant State().Valid() && messageCount == d.count
        invariant State().Progress(d, p)
        decreases |buffer|, haveHeader
      {
        if !haveHeader {
          if |buffer| < PREFIX_LEN {
            State().EndProgress(d, p);
            return None;
          }
          flag := buffer[0];
          if flag != 0 {
            State().EndProgress(d, p);
            return Some(CompressedFlag);
          }
          var mlen := FromU32BE(buffer[1..5]);
          if mlen > maxMessageSize {
            State().EndProgress(d, p);
            return Some(OverLimit(mlen));
          }
          State().HeaderProgress(d, p);
          needed := mlen;
          haveHeader := true;
          buffer := buffer[PREFIX_LEN..];
        }
        if |buffer| < needed {
          State().EndProgress(d, p);
          return None;
        }
        State().TurnProgress(d, p);
        messages := messages + [buffer[..needed]];
        buffer := buffer[needed..];
        haveHeader := false;
        needed := 0;
      }
    }

    predicate HasMessage()
      reads this
    {
      messages != []
    }

    method TakeMessage() returns (m: Bytes)
      requires HasMessage()
      modifies this`messages, this`messageCount
      ensures [m] + messages == old(messages)
      ensures messageCount == old(messageCount) + 1
    {
      m := messages[0];
      messages := messages[1..];
      messageCount := messageCount + 1;
    }
  }
}
