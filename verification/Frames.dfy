/** The wire framing of src/service.cpp: `encode_frame`, `decode_frame` and the incremental
    `FrameDecoder`. */
module Frames {
  import opened Bytes
  import opened Crc
  import opened Units

  const MAGIC: nat := 0x4E46
  const VERSION: nat := 1
  const HEADER: nat := 20
  const TRAILER: nat := 4

  /** Widths of magic, version, opcode, flags, request id and payload length. */
  const LAYOUT: seq<nat> := [2, 2, 2, 2, 8, 4]

  datatype Frame = Frame(opcode: nat, flags: nat, requestId: nat, payload: seq<byte>)

  /** The field widths of a frame, and the configured payload bound. */
  predicate Sendable(f: Frame, max: nat) {
    && f.opcode < Pow256(2) && f.flags < Pow256(2) && f.requestId < Pow256(8)
    && |f.payload| < Pow256(4) && |f.payload| <= max
  }

  function Fields(f: Frame): seq<nat> { [MAGIC, VERSION, f.opcode, f.flags, f.requestId, |f.payload|] }

  function Body(f: Frame): (s: seq<byte>)
    ensures |s| == HEADER + |f.payload|
  {
    Layout20();
    Put(LAYOUT, Fields(f)) + f.payload
  }

  function Encode(f: Frame): (s: seq<byte>)
    ensures |s| == HEADER + |f.payload| + TRAILER
  {
    Body(f) + Store(4, Crc32c(Body(f)))
  }

  /** `encode_frame`: the fields are stored into the output in place. */
  method EncodeFrame(f: Frame, max: nat) returns (r: Checked<seq<byte>>)
    ensures r == if |f.payload| > max then Refuse(PayloadTooLarge) else Pass(Encode(f))
  {
    hide Store, Crc32c;
    if |f.payload| > max { return Refuse(PayloadTooLarge); }
    var total := HEADER + |f.payload| + TRAILER;
    var out := new byte[total](_ => 0);
    StoreAt(out, 0, 2, MAGIC);
    StoreAt(out, 2, 2, VERSION);
    StoreAt(out, 4, 2, f.opcode);
    StoreAt(out, 6, 2, f.flags);
    StoreAt(out, 8, 8, f.requestId);
    StoreAt(out, 16, 4, |f.payload|);
    BodyUnfolds(f);
    CopyAt(out, HEADER, f.payload);
    assert out[..total - TRAILER] == Body(f);
    var crc := TableCrc32c(out[..total - TRAILER]);
    StoreAt(out, total - TRAILER, 4, crc);
    assert out[..] == out[..total];
    return Pass(out[..]);
  }

  lemma BodyUnfolds(f: Frame)
    ensures Put(LAYOUT, Fields(f)) ==
      Store(2, MAGIC) + Store(2, VERSION) + Store(2, f.opcode) + Store(2, f.flags) + Store(8, f.requestId) + Store(4, |f.payload|)
  {
    hide Store;
    var v := Fields(f);
    assert Put([4], [v[5]]) == Store(4, v[5]);
    assert Put([8, 4], [v[4], v[5]]) == Store(8, v[4]) + Store(4, v[5]);
    assert Put([2, 8, 4], v[3..]) == Store(2, v[3]) + Put([8, 4], v[4..]);
    assert Put([2, 2, 8, 4], v[2..]) == Store(2, v[2]) + Put([2, 8, 4], v[3..]);
    assert Put([2, 2, 2, 8, 4], v[1..]) == Store(2, v[1]) + Put([2, 2, 8, 4], v[2..]);
  }

  lemma Layout20()
    ensures Width(LAYOUT) == HEADER
  {
    assert LAYOUT[1..] == [2, 2, 2, 8, 4] && LAYOUT[1..][1..] == [2, 2, 8, 4];
    assert LAYOUT[1..][1..][1..] == [2, 8, 4] && LAYOUT[1..][1..][1..][1..] == [8, 4];
  }

  /** The header fields of a buffer, in order. */
  function Header(d: seq<byte>): (v: seq<nat>)
    requires |d| >= HEADER
    ensures |v| == 6
  {
    Layout20();
    Get(LAYOUT, d)
  }

  /** `decode_frame`: one whole frame, or the first check it fails. */
  function Decode(d: seq<byte>, max: nat): Checked<Frame> {
    if |d| < HEADER + TRAILER then Refuse(TruncatedInput)
    else
      var h := Header(d);
      if h[0] != MAGIC then Refuse(FrameInvalid)
      else if h[1] != VERSION then Refuse(ProtocolVersionMismatch)
      else if h[5] > max then Refuse(PayloadTooLarge)
      else if |d| != HEADER + h[5] + TRAILER then Refuse(FrameInvalid)
      else if Load(d[|d| - TRAILER..]) != Crc32c(d[..|d| - TRAILER]) then Refuse(IntegrityFailure)
      else Pass(Frame(h[2], h[3], h[4], d[HEADER..HEADER + h[5]]))
  }

  /** What one `next` finds at the front of the pending bytes. */
  datatype Front = NeedMore | Bad(reason: Refusal) | Got(frame: Frame, total: nat)

  function Next(d: seq<byte>, max: nat): (r: Front)
    ensures r.Got? ==> HEADER + TRAILER <= r.total <= |d|
  {
    if |d| < HEADER + TRAILER then NeedMore
    else
      var h := Header(d);
      if h[0] != MAGIC then Bad(FrameInvalid)
      else if h[1] != VERSION then Bad(ProtocolVersionMismatch)
      else if h[5] > max then Bad(PayloadTooLarge)
      else
        var total := HEADER + h[5] + TRAILER;
        if |d| < total then NeedMore
        else
          match Decode(d[..total], max)
          case Refuse(r) => Bad(r)
          case Pass(f) => Got(f, total)
  }

  // ---- One frame ------------------------------------------------------------------------------

  lemma HeaderOfPrefix(d: seq<byte>, more: seq<byte>)
    requires |d| >= HEADER
    ensures Header(d + more) == Header(d)
  {
    Layout20();
    assert (d + more)[..HEADER] == d[..HEADER];
    GetOfPrefix(LAYOUT, d + more, d);
  }

  lemma HeaderOfEncoded(f: Frame, max: nat, rest: seq<byte>)
    requires Sendable(f, max)
    ensures Header(Encode(f) + rest) == Fields(f)
  {
    Widths();
    hide Crc32c, Put, Get, Store;
    var tail := f.payload + Store(4, Crc32c(Body(f))) + rest;
    assert Encode(f) + rest == Put(LAYOUT, Fields(f)) + tail;
    GetOfPut(LAYOUT, Fields(f), tail);
  }

  /** Decoding inverts encoding. */
  lemma DecodeOfEncode(f: Frame, max: nat)
    requires Sendable(f, max)
    ensures Decode(Encode(f), max) == Pass(f)
  {
    HeaderOfEncoded(f, max, []);
    var d := Encode(f);
    assert d + [] == d;
    assert d[..|d| - TRAILER] == Body(f) && d[|d| - TRAILER..] == Store(4, Crc32c(Body(f)));
    LoadOfStore(4, Crc32c(Body(f)));
    Layout20();
    assert d[HEADER..HEADER + |f.payload|] == f.payload;
  }

  /** And encoding inverts decoding: the bytes of an accepted frame are the only ones. */
  lemma EncodeOfDecode(d: seq<byte>, max: nat)
    requires Decode(d, max).Pass?
    ensures Encode(Decode(d, max).value) == d && Sendable(Decode(d, max).value, max)
  {
    Layout20();
    hide Crc32c, Put, Get, Store, Width;
    var f, h := Decode(d, max).value, Header(d);
    PutOfGet(LAYOUT, d);
    assert h[2] < Pow256(LAYOUT[2]) && h[3] < Pow256(LAYOUT[3]) && h[4] < Pow256(LAYOUT[4]) && h[5] < Pow256(LAYOUT[5]);
    assert Fields(f) == h;
    assert Body(f) == d[..HEADER] + d[HEADER..HEADER + h[5]] == d[..|d| - TRAILER];
    StoreOfLoad(d[|d| - TRAILER..]);
  }

  /** A verdict, once reached, does not depend on the bytes that follow. */
  lemma NextIsStable(d: seq<byte>, more: seq<byte>, max: nat)
    requires !Next(d, max).NeedMore?
    ensures Next(d + more, max) == Next(d, max)
  {
    HeaderOfPrefix(d, more);
    var total := HEADER + Header(d)[5] + TRAILER;
    if total <= |d| {
      assert (d + more)[..total] == d[..total];
    }
  }

  lemma NextOfEncoded(f: Frame, rest: seq<byte>, max: nat)
    requires Sendable(f, max)
    ensures Next(Encode(f) + rest, max) == Got(f, |Encode(f)|)
  {
    HeaderOfEncoded(f, max, rest);
    assert (Encode(f) + rest)[..|Encode(f)|] == Encode(f);
    DecodeOfEncode(f, max);
  }

  // ---- Streams --------------------------------------------------------------------------------

  datatype Drained = Drained(frames: seq<Frame>, error: Option<Refusal>, rest: seq<byte>)

  /** Calling `next` until it has nothing more to give. */
  function Drain(d: seq<byte>, max: nat): Drained
    decreases |d|
  {
    match Next(d, max)
    case NeedMore => Drained([], None, d)
    case Bad(r) => Drained([], Some(r), d)
    case Got(f, total) =>
      var later := Drain(d[total..], max);
      later.(frames := [f] + later.frames)
  }

  /** A connection: bytes arrive in chunks, each is drained, and an error ends it. */
  function Session(so: Drained, chunks: seq<seq<byte>>, max: nat): Drained
    decreases |chunks|
  {
    if so.error.Some? || chunks == [] then so
    else
      var now := Drain(so.rest + chunks[0], max);
      Session(now.(frames := so.frames + now.frames), chunks[1..], max)
  }

  /** Draining what `first` left together with `more`. */
  function Resume(first: Drained, more: seq<byte>, max: nat): Drained {
    var now := Drain(first.rest + more, max);
    now.(frames := first.frames + now.frames)
  }

  lemma {:induction false} DrainSplits(a: seq<byte>, b: seq<byte>, max: nat)
    ensures Drain(a, max).error.Some? ==> Drain(a + b, max).frames == Drain(a, max).frames && Drain(a + b, max).error == Drain(a, max).error
    ensures Drain(a, max).error.None? ==> Drain(a + b, max) == Resume(Drain(a, max), b, max)
    decreases |a|
  {
    hide Next;
    if !Next(a, max).NeedMore? {
      NextIsStable(a, b, max);
      if Next(a, max).Got? {
        var total := Next(a, max).total;
        assert (a + b)[total..] == a[total..] + b;
        DrainSplits(a[total..], b, max);
      }
    }
  }

  const OPENED := Drained([], None, [])

  lemma {:induction false} SessionIsDrain(so: Drained, seen: seq<byte>, chunks: seq<seq<byte>>, max: nat)
    requires so.frames == Drain(seen, max).frames && so.error == Drain(seen, max).error
    requires so.error.None? ==> so == Drain(seen, max)
    ensures var all, whole := Session(so, chunks, max), Drain(seen + Flatten(chunks), max);
      all.frames == whole.frames && all.error == whole.error && (all.error.None? ==> all == whole)
    decreases |chunks|
  {
    hide Drain;
    if so.error.Some? {
      DrainSplits(seen, Flatten(chunks), max);
    } else if chunks == [] {
      assert seen + Flatten(chunks) == seen;
    } else {
      DrainSplits(seen, chunks[0], max);
      SessionIsDrain(Resume(so, chunks[0], max), seen + chunks[0], chunks[1..], max);
      assert seen + chunks[0] + Flatten(chunks[1..]) == seen + Flatten(chunks);
    }
  }

  /** Decoding does not depend on how the stream was cut: same frames, same first error, and
      without an error the same bytes left over. */
  lemma ChunksDoNotMatter(chunks: seq<seq<byte>>, max: nat)
    ensures var all, whole := Session(OPENED, chunks, max), Drain(Flatten(chunks), max);
      all.frames == whole.frames && all.error == whole.error && (all.error.None? ==> all == whole)
  {
    assert [] + Flatten(chunks) == Flatten(chunks);
    SessionIsDrain(OPENED, [], chunks, max);
  }

  function Stream(fs: seq<Frame>): seq<byte> {
    if fs == [] then [] else Encode(fs[0]) + Stream(fs[1..])
  }

  predicate AllSendable(fs: seq<Frame>, max: nat) {
    forall i :: 0 <= i < |fs| ==> Sendable(fs[i], max)
  }

  /** Encoded frames are recovered exactly, and an unfinished tail stays pending. */
  lemma {:induction false} FramesAreRecovered(fs: seq<Frame>, tail: seq<byte>, max: nat)
    requires AllSendable(fs, max) && Next(tail, max).NeedMore?
    ensures Drain(Stream(fs) + tail, max) == Drained(fs, None, tail)
    decreases |fs|
  {
    hide Next, Encode, Sendable;
    if fs == [] {
      assert Stream(fs) + tail == tail;
    } else {
      var later := Stream(fs[1..]) + tail;
      assert Stream(fs) + tail == Encode(fs[0]) + later;
      NextOfEncoded(fs[0], later, max);
      assert (Encode(fs[0]) + later)[|Encode(fs[0])|..] == later;
      FramesAreRecovered(fs[1..], tail, max);
      assert fs == [fs[0]] + fs[1..];
    }
  }

  lemma GotReencodes(d: seq<byte>, max: nat)
    requires Next(d, max).Got?
    ensures Sendable(Next(d, max).frame, max) && d[..Next(d, max).total] == Encode(Next(d, max).frame)
  {
    EncodeOfDecode(d[..Next(d, max).total], max);
  }

  lemma StreamOfNothing(rest: seq<byte>, max: nat)
    ensures AllSendable([], max) && Stream([]) + rest == rest
  {
  }

  lemma StreamPrepends(f: Frame, fs: seq<Frame>, rest: seq<byte>, max: nat)
    requires Sendable(f, max) && AllSendable(fs, max)
    ensures AllSendable([f] + fs, max)
    ensures Stream([f] + fs) + rest == Encode(f) + (Stream(fs) + rest)
  {
    hide Encode, Sendable;
    assert ([f] + fs)[1..] == fs;
    assert Encode(f) + Stream(fs) + rest == Encode(f) + (Stream(fs) + rest);
  }

  /** No byte is invented or lost: the stream is the emitted frames, re-encoded, and the rest. */
  lemma {:induction false} DrainReencodes(d: seq<byte>, max: nat)
    ensures AllSendable(Drain(d, max).frames, max)
    ensures d == Stream(Drain(d, max).frames) + Drain(d, max).rest
    decreases |d|
  {
    hide Next, Encode, Sendable, AllSendable, Stream;
    if Next(d, max).Got? {
      var f, total := Next(d, max).frame, Next(d, max).total;
      GotReencodes(d, max);
      DrainReencodes(d[total..], max);
      var later := Drain(d[total..], max);
      StreamPrepends(f, later.frames, later.rest, max);
      assert d == d[..total] + d[total..];
    } else {
      StreamOfNothing(d, max);
    }
  }

  /** `finish` accepts exactly the streams that are whole encoded frames. */
  lemma FinishIffWholeFrames(d: seq<byte>, max: nat)
    ensures (Drain(d, max).error.None? && Drain(d, max).rest == []) <==> (exists fs :: AllSendable(fs, max) && d == Stream(fs))
  {
    if Drain(d, max).error.None? && Drain(d, max).rest == [] {
      DrainReencodes(d, max);
      assert Stream(Drain(d, max).frames) + [] == Stream(Drain(d, max).frames);
    }
    if fs :| AllSendable(fs, max) && d == Stream(fs) {
      assert Stream(fs) + [] == Stream(fs);
      FramesAreRecovered(fs, [], max);
    }
  }

  // ---- The decoder ------------------------------------------------------------------------------

  class FrameDecoder {
    const max: nat
    var buffer: seq<byte>
    var consumed: nat

    ghost predicate Valid() reads this { consumed <= |buffer| }

    ghost function Pending(): seq<byte>
      requires Valid()
      reads this
    {
      buffer[consumed..]
    }

    constructor (limit: nat)
      ensures Valid() && max == limit && Pending() == []
    {
      max, buffer, consumed := limit, [], 0;
    }

    method Feed(bytes: seq<byte>)
      requires Valid()
      modifies this
      ensures Valid() && Pending() == old(Pending()) + bytes
    {
      buffer := buffer + bytes;
    }

    /** `next`: one frame, nothing yet, or a refusal that leaves the buffer alone. */
    method Take() returns (r: Checked<Option<Frame>>)
      requires Valid()
      modifies this
      ensures Valid()
      ensures match Next(old(Pending()), max)
        case NeedMore => r == Pass(None) && Pending() == old(Pending())
        case Bad(reason) => r == Refuse(reason) && Pending() == old(Pending())
        case Got(f, total) => r == Pass(Some(f)) && Pending() == old(Pending())[total..]
    {
      hide Crc32c, Load, Get, Header;
      var available := |buffer| - consumed;
      if available < HEADER + TRAILER { return Pass(None); }
      var base := buffer[consumed..];
      var h := Header(base);
      if h[0] != MAGIC { return Refuse(FrameInvalid); }
      if h[1] != VERSION { return Refuse(ProtocolVersionMismatch); }
      if h[5] > max { return Refuse(PayloadTooLarge); }
      var total := HEADER + h[5] + TRAILER;
      if available < total { return Pass(None); }
      var frame := Decode(base[..total], max);
      if frame.Refuse? { return Refuse(frame.reason); }
      consumed := consumed + total;
      if consumed == |buffer| { buffer, consumed := [], 0; }
      return Pass(Some(frame.value));
    }

    /** `finish`. */
    method Finish() returns (ok: bool)
      requires Valid()
      ensures ok <==> Pending() == []
    {
      ok := |buffer| == consumed;
    }
  }

  /** Draining one chunk: `next` until it has no frame. */
  method TakeAll(decoder: FrameDecoder) returns (frames: seq<Frame>, error: Option<Refusal>)
    requires decoder.Valid()
    modifies decoder
    ensures decoder.Valid()
    ensures Drained(frames, error, decoder.Pending()) == Drain(old(decoder.Pending()), decoder.max)
  {
    hide Next;
    frames, error := [], None;
    ghost var goal := Drain(decoder.Pending(), decoder.max);
    assert decoder.Pending() + [] == decoder.Pending();
    while true
      invariant decoder.Valid()
      invariant goal == Resume(Drained(frames, None, decoder.Pending()), [], decoder.max)
      decreases |decoder.Pending()|
    {
      assert decoder.Pending() + [] == decoder.Pending();
      var r := decoder.Take();
      match r
      case Refuse(reason) => return frames, Some(reason);
      case Pass(None) => return;
      case Pass(Some(f)) =>
        assert decoder.Pending() + [] == decoder.Pending();
        frames := frames + [f];
    }
  }

  /** A whole connection. */
  method ReadConnection(chunks: seq<seq<byte>>, max: nat) returns (frames: seq<Frame>, error: Option<Refusal>, ended: bool)
    ensures frames == Drain(Flatten(chunks), max).frames && error == Drain(Flatten(chunks), max).error
    ensures error == None ==> (ended <==> exists fs :: AllSendable(fs, max) && Flatten(chunks) == Stream(fs))
  {
    hide Drain, Next, Stream, AllSendable;
    var decoder := new FrameDecoder(max);
    frames, error, ended := [], None, false;
    ghost var goal := Session(OPENED, chunks, max);
    ChunksDoNotMatter(chunks, max);
    FinishIffWholeFrames(Flatten(chunks), max);
    for i := 0 to |chunks|
      invariant decoder.Valid() && fresh(decoder) && decoder.max == max && error == None
      invariant goal == Session(Drained(frames, None, decoder.Pending()), chunks[i..], max)
    {
      decoder.Feed(chunks[i]);
      assert chunks[i..][0] == chunks[i] && chunks[i..][1..] == chunks[i + 1..];
      var more: seq<Frame>;
      more, error := TakeAll(decoder);
      frames := frames + more;
      if error.Some? { return; }
    }
    assert chunks[|chunks|..] == [];
    ended := decoder.Finish();
  }
}
