/**
  The frame codec of the inference sidecar's stdio link (infer-protocol.h / .cpp):
  `[u32 frameLen][u32 jsonLen][json bytes][blob bytes]`, integers big-endian.

  A frame header is a JSON object. JSON printing and parsing are done by Qt, so they
  enter as a `JsonCodec`; all that is asked of it is that parsing undoes printing.
 */
module InferProtocol {
  import opened Common

  newtype Byte = x: int | 0 <= x < 256

  const MAX_FRAME_BYTES: nat := 24 * 1024 * 1024

  /** The smallest frame length each end accepts: the host takes any, the sidecar at least 4. */
  const HOST_MIN: nat := 0
  const SIDECAR_MIN: nat := 4

  datatype JsonCodec<!H> = JsonCodec(render: H -> seq<Byte>, parse: seq<Byte> -> Option<H>)

  ghost predicate Lawful<H(!new)>(codec: JsonCodec<H>) {
    forall h :: codec.parse(codec.render(h)) == Some(h)
  }

  datatype Frame<H> = Frame(header: H, blob: seq<Byte>)

  // ------------------------------------------------------------------ integers

  function U32BE(v: nat): (bytes: seq<Byte>)
    requires v < 0x1_0000_0000
    ensures |bytes| == 4
  {
    [(v / 0x100_0000) as Byte, (v / 0x1_0000 % 0x100) as Byte, (v / 0x100 % 0x100) as Byte, (v % 0x100) as Byte]
  }

  function ReadU32BE(buf: seq<Byte>, off: nat): (v: nat)
    requires off + 4 <= |buf|
    ensures v < 0x1_0000_0000
    ensures v / 0x100_0000 == buf[off] as nat && v % 0x100 == buf[off + 3] as nat  // most significant byte first
  {
    buf[off] as nat * 0x100_0000 + buf[off + 1] as nat * 0x1_0000 + buf[off + 2] as nat * 0x100 + buf[off + 3] as nat
  }

  lemma ReadBack(v: nat, rest: seq<Byte>)
    requires v < 0x1_0000_0000
    ensures ReadU32BE(U32BE(v) + rest, 0) == v
  {
    var b := U32BE(v) + rest;
    assert b[0] as nat == v / 0x100_0000 && b[3] as nat == v % 0x100;
    assert b[1] as nat == v / 0x1_0000 % 0x100 && b[2] as nat == v / 0x100 % 0x100;
    assert v / 0x1_0000 / 0x100 == v / 0x100_0000 && v / 0x100 / 0x100 == v / 0x1_0000;
  }

  // ------------------------------------------------------------------ one frame

  /** The length an encoded frame announces. */
  function FrameLen<H>(codec: JsonCodec<H>, f: Frame<H>): nat {
    4 + |codec.render(f.header)| + |f.blob|
  }

  method AppendU32BE(out: seq<Byte>, v: nat) returns (r: seq<Byte>)
    requires v < 0x1_0000_0000
    ensures r == out + U32BE(v)
  {
    r := out + [(v / 0x100_0000 % 0x100) as Byte];
    r := r + [(v / 0x1_0000 % 0x100) as Byte];
    r := r + [(v / 0x100 % 0x100) as Byte];
    r := r + [(v % 0x100) as Byte];
  }

  /** The wire form of one payload: its length, then its bytes. */
  function Prefixed(payload: seq<Byte>): seq<Byte>
    requires |payload| <= MAX_FRAME_BYTES
  {
    U32BE(|payload|) + payload
  }

  function Payload<H>(codec: JsonCodec<H>, f: Frame<H>): (p: seq<Byte>)
    requires FrameLen(codec, f) <= MAX_FRAME_BYTES
    ensures |p| == FrameLen(codec, f)
  {
    var json := codec.render(f.header);
    U32BE(|json|) + json + f.blob
  }

  /** Four bytes that stand for a number, most significant first. */
  predicate StandFor(b: seq<Byte>, v: nat) {
    |b| == 4 && b[0] as nat * 0x100_0000 + b[1] as nat * 0x1_0000 + b[2] as nat * 0x100 + b[3] as nat == v
  }

  lemma U32Stands(v: nat)
    requires v < 0x1_0000_0000
    ensures StandFor(U32BE(v), v)
  {
    ReadBack(v, []);
    assert U32BE(v) + [] == U32BE(v);
  }

  /** What is on the wire: the length of all that follows, the length of the header, the header
      and the blob. */
  lemma WireIs<H>(codec: JsonCodec<H>, f: Frame<H>)
    requires FrameLen(codec, f) <= MAX_FRAME_BYTES
    ensures var wire, json := Prefixed(Payload(codec, f)), codec.render(f.header);
            && |wire| == 8 + |json| + |f.blob| && wire[8..] == json + f.blob
            && StandFor(wire[..4], 4 + |json| + |f.blob|) && StandFor(wire[4..8], |json|)
  {
    var wire, json := Prefixed(Payload(codec, f)), codec.render(f.header);
    U32Stands(FrameLen(codec, f));
    U32Stands(|json|);
    assert wire[..4] == U32BE(FrameLen(codec, f)) && wire[4..8] == U32BE(|json|);
    assert wire[8..] == json + f.blob;
  }

  /** Encodes one frame, or refuses with the empty array when it is over the cap.
      What it returns, a reader takes back as exactly that one frame. */
  method EncodeInferFrame<H(!new)>(codec: JsonCodec<H>, f: Frame<H>) returns (out: seq<Byte>)
    ensures out == [] <==> FrameLen(codec, f) > MAX_FRAME_BYTES
    ensures out != [] ==> out == Prefixed(Payload(codec, f))
    ensures out != [] && Lawful(codec) ==> Drain(codec, out, SIDECAR_MIN) == Drained([f], [], true)
  {
    var json := codec.render(f.header);
    var frameLen := 4 + |json| + |f.blob|;
    if frameLen > MAX_FRAME_BYTES {
      return [];
    }
    out := AppendU32BE([], frameLen);
    out := AppendU32BE(out, |json|);
    out := out + json;
    out := out + f.blob;
    assert out == Prefixed(Payload(codec, f));
    if Lawful(codec) {
      PayloadDecodes(codec, f);
      DrainOnePayload(codec, Payload(codec, f), [], SIDECAR_MIN);
      assert out + [] == out;
    }
  }

  /** Splits a payload into header and blob; `None` for a truncated payload, an
      inconsistent header length or JSON that does not parse to an object. */
  function DecodeInferPayload<H>(codec: JsonCodec<H>, payload: seq<Byte>): Option<Frame<H>> {
    if |payload| < 4 then None else
    var jsonLen := ReadU32BE(payload, 0);
    if jsonLen > |payload| - 4 then None else
    match codec.parse(payload[4..4 + jsonLen])
    case None => None
    case Some(h) => Some(Frame(h, payload[4 + jsonLen..]))
  }

  lemma {:induction false} PayloadDecodes<H(!new)>(codec: JsonCodec<H>, f: Frame<H>)
    requires Lawful(codec) && FrameLen(codec, f) <= MAX_FRAME_BYTES
    ensures DecodeInferPayload(codec, Payload(codec, f)) == Some(f)
  {
    var json := codec.render(f.header);
    var p := Payload(codec, f);
    assert p == U32BE(|json|) + (json + f.blob);
    ReadBack(|json|, json + f.blob);
    assert p[4..4 + |json|] == json && p[4 + |json|..] == f.blob;
  }

  // ------------------------------------------------------------------ splitting a stream

  /** One look at the front of a buffer: not enough bytes yet, a length prefix that may
      not be honoured, or a payload and the bytes behind it. */
  datatype Front = Wait | BadLength | Cut(payload: seq<Byte>, rest: seq<Byte>)

  function CutFront(buf: seq<Byte>, minLen: nat): (r: Front)
    ensures r.Cut? ==> |r.rest| < |buf|
  {
    if |buf| < 4 then Wait else
    var n := ReadU32BE(buf, 0);
    if n > MAX_FRAME_BYTES || n < minLen then BadLength
    else if |buf| < 4 + n then Wait
    else Cut(buf[4..4 + n], buf[4 + n..])
  }

  lemma {:induction false} CutFrontAppend(a: seq<Byte>, b: seq<Byte>, minLen: nat)
    ensures CutFront(a, minLen).BadLength? ==> CutFront(a + b, minLen).BadLength?
    ensures CutFront(a, minLen).Cut? ==>
              CutFront(a + b, minLen) == Cut(CutFront(a, minLen).payload, CutFront(a, minLen).rest + b)
  {
    if |a| >= 4 {
      var n := ReadU32BE(a, 0);
      assert ReadU32BE(a + b, 0) == n;
      if |a| >= 4 + n {
        assert (a + b)[4 + n..] == a[4 + n..] + b;
        assert (a + b)[4..4 + n] == a[4..4 + n];
      }
    }
  }

  /** What taking every complete frame off a buffer leaves: the frames, the bytes not
      yet used, and whether the stream may still be read. */
  datatype Drained<H> = Drained(frames: seq<Frame<H>>, residue: seq<Byte>, ok: bool)

  /** `first`, when there is one, in front of what was drained after it. */
  function Ahead<H>(first: Option<Frame<H>>, d: Drained<H>): Drained<H> {
    match first
    case None => d
    case Some(f) => d.(frames := [f] + d.frames)
  }

  function Drain<H>(codec: JsonCodec<H>, buf: seq<Byte>, minLen: nat): Drained<H>
    decreases |buf|
  {
    match CutFront(buf, minLen)
    case Wait => Drained([], buf, true)
    case BadLength => Drained([], buf, false)
    case Cut(payload, rest) => Ahead(DecodeInferPayload(codec, payload), Drain(codec, rest, minLen))
  }

  /** Draining `d`'s residue with the bytes `b` behind it, after `d`. */
  function DrainOn<H>(codec: JsonCodec<H>, d: Drained<H>, b: seq<Byte>, minLen: nat): Drained<H> {
    if d.ok then
      var e := Drain(codec, d.residue + b, minLen);
      Drained(d.frames + e.frames, e.residue, e.ok)
    else
      Drained(d.frames, d.residue + b, false)
  }

  lemma AheadDrainOn<H>(codec: JsonCodec<H>, first: Option<Frame<H>>, d: Drained<H>, b: seq<Byte>, minLen: nat)
    ensures DrainOn(codec, Ahead(first, d), b, minLen) == Ahead(first, DrainOn(codec, d, b, minLen))
  {
    if first.Some? {
      var e := Drain(codec, d.residue + b, minLen);
      ConcatAssoc([first.value], d.frames, e.frames);
    }
  }

  /** Bytes arriving later never change what has been taken. */
  lemma {:induction false} DrainAppend<H>(codec: JsonCodec<H>, a: seq<Byte>, b: seq<Byte>, minLen: nat)
    ensures Drain(codec, a + b, minLen) == DrainOn(codec, Drain(codec, a, minLen), b, minLen)
    decreases |a|
  {
    CutFrontAppend(a, b, minLen);
    match CutFront(a, minLen)
    case Wait =>
    case BadLength =>
    case Cut(payload, rest) =>
      DrainAppend(codec, rest, b, minLen);
      AheadDrainOn(codec, DecodeInferPayload(codec, payload), Drain(codec, rest, minLen), b, minLen);
  }

  /** Nothing more can be taken off a residue, and it is never longer than the buffer. */
  lemma {:induction false} ResidueIsDrained<H>(codec: JsonCodec<H>, buf: seq<Byte>, minLen: nat)
    ensures var d := Drain(codec, buf, minLen);
            Drain(codec, d.residue, minLen) == Drained([], d.residue, d.ok) && |d.residue| <= |buf|
    decreases |buf|
  {
    match CutFront(buf, minLen)
    case Wait =>
    case BadLength =>
    case Cut(_, rest) => ResidueIsDrained(codec, rest, minLen);
  }

  lemma {:induction false} BadLengthStays<H>(codec: JsonCodec<H>, a: seq<Byte>, b: seq<Byte>, minLen: nat)
    requires !Drain(codec, a, minLen).ok
    ensures var r := Drain(codec, a, minLen).residue; Drain(codec, r + b, minLen) == Drained([], r + b, false)
  {
    ResidueIsDrained(codec, a, minLen);
    DrainAppend(codec, Drain(codec, a, minLen).residue, b, minLen);
  }

  lemma {:induction false} DrainOnePayload<H>(codec: JsonCodec<H>, p: seq<Byte>, rest: seq<Byte>, minLen: nat)
    requires minLen <= |p| <= MAX_FRAME_BYTES
    ensures Drain(codec, Prefixed(p) + rest, minLen) ==
            Ahead(DecodeInferPayload(codec, p), Drain(codec, rest, minLen))
  {
    var buf := Prefixed(p) + rest;
    assert buf == U32BE(|p|) + (p + rest);
    ReadBack(|p|, p + rest);
    assert buf[4..4 + |p|] == p && buf[4 + |p|..] == rest;
  }

  /** What is drained, with frames taken before in front. */
  function Behind<H>(emitted: seq<Frame<H>>, d: Drained<H>): Drained<H> {
    d.(frames := emitted + d.frames)
  }

  /** The frame a payload decodes to, if it does. */
  function Decoded<H>(codec: JsonCodec<H>, payload: seq<Byte>): seq<Frame<H>> {
    match DecodeInferPayload(codec, payload)
    case None => []
    case Some(f) => [f]
  }

  /** One look at the front of a buffer, and what it does to frames taken before. */
  lemma DrainFront<H>(codec: JsonCodec<H>, buf: seq<Byte>, minLen: nat, emitted: seq<Frame<H>>)
    ensures var front, d := CutFront(buf, minLen), Behind(emitted, Drain(codec, buf, minLen));
            && (front.Wait? ==> d == Drained(emitted, buf, true))
            && (front.BadLength? ==> d == Drained(emitted, buf, false))
            && (front.Cut? ==> d == Behind(emitted + Decoded(codec, front.payload), Drain(codec, front.rest, minLen)))
  {
    hide DecodeInferPayload, ReadU32BE;
    assert emitted + [] == emitted;
    var front := CutFront(buf, minLen);
    if front.Cut? {
      ConcatAssoc(emitted, Decoded(codec, front.payload), Drain(codec, front.rest, minLen).frames);
    }
  }

  /** The host's incremental splitter. `emitFrame` is the returned list. */
  class InferFrameReader<H> {
    const codec: JsonCodec<H>
    var buf: seq<Byte>

    constructor (codec: JsonCodec<H>)
      ensures this.codec == codec && buf == []
    {
      this.codec := codec;
      buf := [];
    }

    method Feed(chunk: seq<Byte>) returns (ok: bool, emitted: seq<Frame<H>>)
      modifies this
      ensures Drained(emitted, buf, ok) == Drain(codec, old(buf) + chunk, HOST_MIN)
    {
      hide Drain, ReadU32BE, DecodeInferPayload;
      buf := buf + chunk;
      ghost var whole := buf;
      emitted := [];
      while true
        invariant Drain(codec, whole, HOST_MIN) == Behind(emitted, Drain(codec, buf, HOST_MIN))
        decreases |buf|
      {
        DrainFront(codec, buf, HOST_MIN, emitted);
        if |buf| < 4 {
          return true, emitted;
        }
        var frameLen := ReadU32BE(buf, 0);
        if frameLen > MAX_FRAME_BYTES {
          return false, emitted;
        }
        if |buf| < 4 + frameLen {
          return true, emitted;
        }
        var payload := buf[4..4 + frameLen];
        buf := buf[4 + frameLen..];
        match DecodeInferPayload(codec, payload) {
          case Some(f) => emitted := emitted + [f];
          case None => assert emitted + [] == emitted;
        }
      }
    }

    method Clear()
      modifies this
      ensures buf == []
    {
      buf := [];
    }
  }

  // ------------------------------------------------------------------ the main results

  /** Feeding a list of chunks one after another, from a given buffer. */
  function FeedAll<H>(codec: JsonCodec<H>, buf: seq<Byte>, chunks: seq<seq<Byte>>, minLen: nat): Drained<H>
    decreases |chunks|
  {
    if chunks == [] then Drain(codec, buf, minLen) else
    var d := Drain(codec, buf + chunks[0], minLen);
    var r := FeedAll(codec, d.residue, chunks[1..], minLen);
    Drained(d.frames + r.frames, r.residue, r.ok)
  }

  /** The result of feeding does not depend on where the chunks were cut. */
  lemma {:induction false} ChunkingIrrelevant<H>(codec: JsonCodec<H>, buf: seq<Byte>, chunks: seq<seq<Byte>>,
                                                 minLen: nat)
    ensures FeedAll(codec, buf, chunks, minLen) == Drain(codec, buf + Flatten(chunks), minLen)
    decreases |chunks|
  {
    if chunks == [] {
      assert buf + Flatten(chunks) == buf;
    } else {
      var a, b := buf + chunks[0], Flatten(chunks[1..]);
      var d := Drain(codec, a, minLen);
      ChunkingIrrelevant(codec, d.residue, chunks[1..], minLen);
      ConcatAssoc(buf, chunks[0], b);
      DrainAppend(codec, a, b, minLen);
      if !d.ok {
        BadLengthStays(codec, a, b, minLen);
      }
    }
  }

  /** What a peer may put on the wire: an encodable frame, or a bounded payload that
      does not decode. */
  datatype WireItem<H> = Good(frame: Frame<H>) | Junk(payload: seq<Byte>)

  ghost predicate Sendable<H>(codec: JsonCodec<H>, item: WireItem<H>, minLen: nat) {
    match item
    case Good(f) => FrameLen(codec, f) <= MAX_FRAME_BYTES
    case Junk(p) => minLen <= |p| <= MAX_FRAME_BYTES && DecodeInferPayload(codec, p) == None
  }

  ghost function ItemPayload<H>(codec: JsonCodec<H>, item: WireItem<H>, minLen: nat): (p: seq<Byte>)
    requires Sendable(codec, item, minLen)
    ensures |p| <= MAX_FRAME_BYTES && (minLen <= 4 ==> minLen <= |p|)
  {
    match item
    case Good(f) => Payload(codec, f)
    case Junk(p) => p
  }

  ghost function WireBytes<H>(codec: JsonCodec<H>, items: seq<WireItem<H>>, minLen: nat): seq<Byte>
    requires forall i | i in items :: Sendable(codec, i, minLen)
  {
    if items == [] then [] else
    Prefixed(ItemPayload(codec, items[0], minLen)) + WireBytes(codec, items[1..], minLen)
  }

  ghost function GoodFrames<H>(items: seq<WireItem<H>>): seq<Frame<H>> {
    if items == [] then []
    else (if items[0].Good? then [items[0].frame] else []) + GoodFrames(items[1..])
  }

  lemma {:induction false} DrainWire<H(!new)>(codec: JsonCodec<H>, items: seq<WireItem<H>>, minLen: nat)
    requires Lawful(codec) && minLen <= 4
    requires forall i | i in items :: Sendable(codec, i, minLen)
    ensures Drain(codec, WireBytes(codec, items, minLen), minLen) == Drained(GoodFrames(items), [], true)
  {
    if items != [] {
      DrainWire(codec, items[1..], minLen);
      var p := ItemPayload(codec, items[0], minLen);
      DrainOnePayload(codec, p, WireBytes(codec, items[1..], minLen), minLen);
      if items[0].Good? {
        PayloadDecodes(codec, items[0].frame);
      }
    }
  }

  /** Any list of frames that fit, with any undecodable payloads in between, cut into any
      chunks, comes out as exactly those frames in order with nothing left over. Holds of
      the host's splitter (`minLen` 0) and of the sidecar's (4). */
  lemma StreamRoundTrip<H(!new)>(codec: JsonCodec<H>, items: seq<WireItem<H>>, chunks: seq<seq<Byte>>, minLen: nat)
    requires Lawful(codec) && minLen <= 4
    requires forall i | i in items :: Sendable(codec, i, minLen)
    requires Flatten(chunks) == WireBytes(codec, items, minLen)
    ensures FeedAll(codec, [], chunks, minLen) == Drained(GoodFrames(items), [], true)
  {
    DrainWire(codec, items, minLen);
    ChunkingIrrelevant(codec, [], chunks, minLen);
    assert [] + Flatten(chunks) == Flatten(chunks);
  }

  /** The length prefixes the host's splitter looks at while it drains a buffer. */
  function LengthPrefixes(buf: seq<Byte>): seq<nat>
    decreases |buf|
  {
    if |buf| < 4 then [] else
    var n := ReadU32BE(buf, 0);
    [n] + if n > MAX_FRAME_BYTES || |buf| < 4 + n then [] else LengthPrefixes(buf[4 + n..])
  }

  /** The two ends split a stream alike exactly when every length prefix met is at least 4. */
  lemma {:induction false} EndsAgreeIff<H>(codec: JsonCodec<H>, buf: seq<Byte>)
    ensures Drain(codec, buf, HOST_MIN) == Drain(codec, buf, SIDECAR_MIN)
            <==> forall n | n in LengthPrefixes(buf) :: n >= SIDECAR_MIN
    decreases |buf|
  {
    match CutFront(buf, HOST_MIN)
    case Wait =>
      if |buf| >= 4 {
        assert LengthPrefixes(buf) == [ReadU32BE(buf, 0)];
        assert ReadU32BE(buf, 0) in LengthPrefixes(buf);
      }
    case BadLength =>
      assert LengthPrefixes(buf) == [ReadU32BE(buf, 0)];
    case Cut(payload, rest) =>
      var n := ReadU32BE(buf, 0);
      assert LengthPrefixes(buf) == [n] + LengthPrefixes(rest);
      if n < SIDECAR_MIN {
        assert n in LengthPrefixes(buf);
        ResidueIsDrained(codec, rest, HOST_MIN);
      } else {
        EndsAgreeIff(codec, rest);
        var host, sidecar := Drain(codec, rest, HOST_MIN), Drain(codec, rest, SIDECAR_MIN);
        AheadInjective(DecodeInferPayload(codec, payload), host, sidecar);
        assert forall m :: m in LengthPrefixes(buf) <==> m == n || m in LengthPrefixes(rest);
      }
  }

  lemma AheadInjective<H>(first: Option<Frame<H>>, d: Drained<H>, e: Drained<H>)
    ensures Ahead(first, d) == Ahead(first, e) <==> d == e
  {
    if first.Some? {
      assert ([first.value] + d.frames)[1..] == d.frames && ([first.value] + e.frames)[1..] == e.frames;
    }
  }
}
