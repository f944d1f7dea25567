/** Unsigned integers as big-endian bytes. */
module BigEndian {
  import opened Common

  function Pow256(k: nat): nat {
    if k == 0 then 1 else 256 * Pow256(k - 1)
  }

  /** `v.to_bytes(k, "big")`, for a value known to fit. */
  function ToBytes(v: nat, k: nat): (b: Bytes)
    ensures |b| == k
  {
    if k == 0 then [] else ToBytes(v / 256, k - 1) + [v % 256]
  }

  /** `int.from_bytes(b, "big")`. */
  function FromBytes(b: Bytes): (v: nat)
  {
    if b == [] then 0 else 256 * FromBytes(b[..|b| - 1]) + b[|b| - 1]
  }

  lemma {:induction false} FromBytesBound(b: Bytes)
    ensures FromBytes(b) < Pow256(|b|)
  {
    if b != [] {
      FromBytesBound(b[..|b| - 1]);
    }
  }

  lemma {:induction false} DecodeEncode(v: nat, k: nat)
    requires v < Pow256(k)
    ensures FromBytes(ToBytes(v, k)) == v
  {
    if k > 0 {
      DecodeEncode(v / 256, k - 1);
      var b := ToBytes(v, k);
      assert b[..|b| - 1] == ToBytes(v / 256, k - 1);
    }
  }

  lemma {:induction false} EncodeDecode(b: Bytes)
    ensures ToBytes(FromBytes(b), |b|) == b
  {
    if b != [] {
      var init, last := b[..|b| - 1], b[|b| - 1];
      EncodeDecode(init);
      assert FromBytes(b) / 256 == FromBytes(init);
      assert FromBytes(b) % 256 == last;
      assert b == init + [last];
    }
  }

  lemma Powers()
    ensures Pow256(1) == 0x100
    ensures Pow256(2) == 0x1_0000
    ensures Pow256(4) == 0x1_0000_0000
    ensures Pow256(8) == 0x1_0000_0000_0000_0000
  {
    assert Pow256(2) == 256 * Pow256(1);
    assert Pow256(3) == 256 * Pow256(2);
    assert Pow256(4) == 256 * Pow256(3);
    assert Pow256(5) == 256 * Pow256(4);
    assert Pow256(6) == 256 * Pow256(5);
    assert Pow256(7) == 256 * Pow256(6);
    assert Pow256(8) == 256 * Pow256(7);
  }
}

/** The 4-byte length-prefixed JSON frame codec (codec.py).

    JSON text itself is opaque: a decoder is built over a partial function from
    payload bytes to values, and an encoder over its inverse direction. */
module FrameCodec {
  import opened Common
  import opened BigEndian

  const FRAME_MAX_BYTES := 1024 * 1024

  /** `decode_payload`: None stands for invalid UTF-8, invalid JSON or a non-object. */
  type PayloadDecoder<!V> = Bytes -> Option<V>

  function EncodeFrame(payload: Bytes): Result<Bytes, ErrorCode> {
    if |payload| > FRAME_MAX_BYTES then Err(PayloadTooLarge)
    else Ok(ToBytes(|payload|, 4) + payload)
  }

  /** What is left in the buffer, and either the decoded frames or the error that was raised. */
  datatype Parsed<+V> = Parsed(outcome: Result<seq<V>, ErrorCode>, rest: Bytes)

  /** The batch meaning of a byte stream: cut it into frames from the front. */
  function Parse<V>(b: Bytes, decode: PayloadDecoder<V>): Parsed<V>
    decreases |b|
  {
    if |b| < 4 then Parsed(Ok([]), b)
    else
      var size := FromBytes(b[..4]);
      if size > FRAME_MAX_BYTES then Parsed(Err(PayloadTooLarge), b)
      else if |b| < 4 + size then Parsed(Ok([]), b)
      else
        match decode(b[4..4 + size])
        case None => Parsed(Err(InvalidRequest), b[4 + size..])
        case Some(v) => Prepend([v], Parse(b[4 + size..], decode))
  }

  function Prepend<V>(frames: seq<V>, p: Parsed<V>): Parsed<V> {
    match p.outcome
    case Ok(more) => Parsed(Ok(frames + more), p.rest)
    case Err(_) => p
  }

  /** The incremental decoder: one buffer that every `feed` extends and trims. */
  class FrameDecoder<V> {
    var buffer: Bytes

    constructor ()
      ensures buffer == []
    {
      buffer := [];
    }

    method Feed(data: Bytes, decode: PayloadDecoder<V>) returns (outcome: Result<seq<V>, ErrorCode>)
      modifies this
      ensures Parsed(outcome, buffer) == Parse(old(buffer) + data, decode)
    {
      buffer := buffer + data;
      var frames: seq<V> := [];
      PrependNothing(Parse(buffer, decode));
      while |buffer| >= 4
        invariant Prepend(frames, Parse(buffer, decode)) == Parse(old(buffer) + data, decode)
        decreases |buffer|
      {
        var size := FromBytes(buffer[..4]);
        if size > FRAME_MAX_BYTES {
          return Err(PayloadTooLarge);
        }
        if |buffer| < 4 + size {
          break;
        }
        var payload := buffer[4..4 + size];
        buffer := buffer[4 + size..];
        match decode(payload) {
          case None =>
            return Err(InvalidRequest);
          case Some(v) =>
            PrependTwice(frames, [v], Parse(buffer, decode));
            frames := frames + [v];
        }
      }
      assert frames + [] == frames;
      return Ok(frames);
    }
  }

  lemma PrependTwice<V>(xs: seq<V>, ys: seq<V>, p: Parsed<V>)
    ensures Prepend(xs, Prepend(ys, p)) == Prepend(xs + ys, p)
  {
    if p.outcome.Ok? {
      assert xs + (ys + p.outcome.value) == xs + ys + p.outcome.value;
    }
  }

  /** A successful feed can be extended by any later data: parsing the two pieces one
      after the other is parsing them together. */
  lemma {:induction false} ParseContinues<V>(b: Bytes, more: Bytes, decode: PayloadDecoder<V>)
    requires Parse(b, decode).outcome.Ok?
    ensures Parse(b + more, decode)
         == Prepend(Parse(b, decode).outcome.value, Parse(Parse(b, decode).rest + more, decode))
    decreases |b|
  {
    if |b| < 4 {
      PrependNothing(Parse(b + more, decode));
    } else {
      var size := FromBytes(b[..4]);
      assert (b + more)[..4] == b[..4];
      if |b| < 4 + size {
        PrependNothing(Parse(b + more, decode));
      } else {
        var tail := b[4 + size..];
        assert (b + more)[4..4 + size] == b[4..4 + size];
        assert (b + more)[4 + size..] == tail + more;
        ParseContinues(tail, more, decode);
        var v := decode(b[4..4 + size]).value;
        PrependTwice([v], Parse(tail, decode).outcome.value,
                     Parse(Parse(tail, decode).rest + more, decode));
      }
    }
  }

  lemma PrependNothing<V>(p: Parsed<V>)
    ensures Prepend([], p) == p
  {
    if p.outcome.Ok? {
      assert [] + p.outcome.value == p.outcome.value;
    }
  }

  /** A failing parse fails in the same way whatever follows. */
  lemma {:induction false} ParseFailureIsFinal<V>(b: Bytes, more: Bytes, decode: PayloadDecoder<V>)
    requires Parse(b, decode).outcome.Err?
    ensures Parse(b + more, decode)
         == Parsed(Parse(b, decode).outcome, Parse(b, decode).rest + more)
    decreases |b|
  {
    var size := FromBytes(b[..4]);
    assert (b + more)[..4] == b[..4];
    if size <= FRAME_MAX_BYTES {
      var tail := b[4 + size..];
      assert (b + more)[4..4 + size] == b[4..4 + size];
      assert (b + more)[4 + size..] == tail + more;
      if decode(b[4..4 + size]).Some? {
        ParseFailureIsFinal(tail, more, decode);
      }
    }
  }

  /** Feeding a sequence of chunks, stopping at the first error. */
  function FeedAll<V>(buffer: Bytes, chunks: seq<Bytes>, decode: PayloadDecoder<V>): Parsed<V>
    decreases |chunks|
  {
    if chunks == [] then Parsed(Ok([]), buffer)
    else
      var first := Parse(buffer + chunks[0], decode);
      if first.outcome.Err? then first
      else Prepend(first.outcome.value, FeedAll(first.rest, chunks[1..], decode))
  }

  /** Split invariance. A chunked run succeeds exactly when one feed of everything does;
      then both give the same frames and the same leftover, and otherwise the same error.
      A buffer is settled when feeding it nothing returns nothing, as after any successful feed. */
  lemma {:induction false} SplitInvariance<V>(buffer: Bytes, chunks: seq<Bytes>, decode: PayloadDecoder<V>)
    requires Parse(buffer, decode) == Parsed(Ok([]), buffer)
    ensures FeedAll(buffer, chunks, decode).outcome == Parse(buffer + Flatten(chunks), decode).outcome
    ensures FeedAll(buffer, chunks, decode).outcome.Ok?
         ==> FeedAll(buffer, chunks, decode).rest == Parse(buffer + Flatten(chunks), decode).rest
    decreases |chunks|
  {
    if chunks == [] {
      assert buffer + Flatten(chunks) == buffer;
    } else {
      var b, later := buffer + chunks[0], Flatten(chunks[1..]);
      assert buffer + Flatten(chunks) == b + later;
      var first := Parse(b, decode);
      if first.outcome.Ok? {
        ParseContinues(b, later, decode);
        LeftoverIsIncomplete(b, decode);
        SplitInvariance(first.rest, chunks[1..], decode);
      } else {
        ParseFailureIsFinal(b, later, decode);
      }
    }
  }

  /** After a successful feed the leftover is an incomplete frame: shorter than a full
      header plus the largest payload, and parsing it again yields nothing. */
  lemma {:induction false} LeftoverIsIncomplete<V>(b: Bytes, decode: PayloadDecoder<V>)
    requires Parse(b, decode).outcome.Ok?
    ensures var rest := Parse(b, decode).rest;
            && |rest| < 4 + FRAME_MAX_BYTES
            && Parse(rest, decode) == Parsed(Ok([]), rest)
            && (|rest| >= 4 ==> FromBytes(rest[..4]) <= FRAME_MAX_BYTES && |rest| < 4 + FromBytes(rest[..4]))
            && exists cut :: 0 <= cut <= |b| && rest == b[cut..]
    decreases |b|
  {
    if |b| < 4 || |b| < 4 + FromBytes(b[..4]) {
      assert b == b[0..];
    } else {
      var start := 4 + FromBytes(b[..4]);
      LeftoverIsIncomplete(b[start..], decode);
      var rest := Parse(b, decode).rest;
      var cut :| 0 <= cut <= |b[start..]| && rest == b[start..][cut..];
      assert rest == b[start + cut..];
    }
  }

  /** The buffer after feeds that go on whatever they raised. */
  function After<V>(buffer: Bytes, chunks: seq<Bytes>, decode: PayloadDecoder<V>): Bytes
    decreases |chunks|
  {
    if chunks == [] then buffer else After(Parse(buffer + chunks[0], decode).rest, chunks[1..], decode)
  }

  /** An oversize header is never removed: however often the caller goes on feeding, every later
      feed fails the same way, and the buffer only grows. */
  lemma {:induction false} OversizePoisons<V>(b: Bytes, chunks: seq<Bytes>, next: Bytes, decode: PayloadDecoder<V>)
    requires Parse(b, decode).outcome == Err(PayloadTooLarge)
    ensures var buffer := After(Parse(b, decode).rest, chunks, decode);
            && buffer == Parse(b, decode).rest + Flatten(chunks)
            && Parse(buffer + next, decode) == Parsed(Err(PayloadTooLarge), buffer + next)
    decreases |chunks|
  {
    var rest := Parse(b, decode).rest;
    OversizeStuck(b, decode);
    if chunks == [] {
      ParseFailureIsFinal(rest, next, decode);
      assert rest + Flatten(chunks) == rest;
    } else {
      ParseFailureIsFinal(rest, chunks[0], decode);
      OversizePoisons(rest + chunks[0], chunks[1..], next, decode);
      assert rest + chunks[0] + Flatten(chunks[1..]) == rest + Flatten(chunks);
    }
  }

  lemma {:induction false} OversizeStuck<V>(b: Bytes, decode: PayloadDecoder<V>)
    requires Parse(b, decode).outcome == Err(PayloadTooLarge)
    ensures var rest := Parse(b, decode).rest;
            Parse(rest, decode) == Parsed(Err(PayloadTooLarge), rest)
    decreases |b|
  {
    var size := FromBytes(b[..4]);
    if size <= FRAME_MAX_BYTES {
      OversizeStuck(b[4 + size..], decode);
    }
  }

  /** A payload is encoded exactly when it is at most 1 MiB, behind its length in four big-endian bytes;
      and a payload that may be encoded and decoded comes back from the decoder with nothing left. */
  lemma EncodesExactly<V>(payload: Bytes, decode: PayloadDecoder<V>)
    ensures EncodeFrame(payload) ==
      if |payload| <= 1_048_576 then Ok(ToBytes(|payload|, 4) + payload) else Err(PayloadTooLarge)
    ensures |payload| <= 1_048_576 && decode(payload).Some? ==>
      Parse(EncodeFrame(payload).value, decode) == Parsed(Ok([decode(payload).value]), [])
    ensures |payload| <= 1_048_576 && decode(payload).None? ==>
      Parse(EncodeFrame(payload).value, decode) == Parsed(Err(InvalidRequest), [])
  {
    hide Parse;
    if |payload| <= 1_048_576 {
      HeaderReads(payload, []);
      var b := EncodeFrame(payload).value;
      assert b + [] == b;
      ParsesOne(b, payload, decode);
    }
  }

  lemma ParsesOne<V>(b: Bytes, payload: Bytes, decode: PayloadDecoder<V>)
    requires |payload| <= FRAME_MAX_BYTES && |b| == 4 + |payload|
    requires FromBytes(b[..4]) == |payload| && b[4..4 + |payload|] == payload
    ensures decode(payload).Some? ==> Parse(b, decode) == Parsed(Ok([decode(payload).value]), [])
    ensures decode(payload).None? ==> Parse(b, decode) == Parsed(Err(InvalidRequest), [])
  {
    hide FromBytes;
    assert b[4 + |payload|..] == [];
    assert Parse([], decode) == Parsed(Ok([]), []);
    if decode(payload).Some? {
      assert [decode(payload).value] + [] == [decode(payload).value];
    }
  }

  /** Encoded frames, concatenated and fed in any cutting, decode to exactly their payloads. */
  lemma {:induction false} DecodesEncodedFrames<V>(payloads: seq<Bytes>, values: seq<V>, chunks: seq<Bytes>,
                                                   decode: PayloadDecoder<V>)
    requires |payloads| == |values|
    requires forall i :: 0 <= i < |payloads| ==> |payloads[i]| <= FRAME_MAX_BYTES
    requires forall i :: 0 <= i < |payloads| ==> decode(payloads[i]) == Some(values[i])
    requires Flatten(chunks) == Wire(payloads)
    ensures FeedAll([], chunks, decode) == Parsed(Ok(values), [])
  {
    ParsesWire(payloads, values, decode);
    assert [] + Flatten(chunks) == Wire(payloads);
    SplitInvariance([], chunks, decode);
  }

  function Wire(payloads: seq<Bytes>): Bytes
    requires forall i :: 0 <= i < |payloads| ==> |payloads[i]| <= FRAME_MAX_BYTES
  {
    if payloads == [] then [] else EncodeFrame(payloads[0]).value + Wire(payloads[1..])
  }

  lemma {:induction false} ParsesWire<V>(payloads: seq<Bytes>, values: seq<V>, decode: PayloadDecoder<V>)
    requires |payloads| == |values|
    requires forall i :: 0 <= i < |payloads| ==> |payloads[i]| <= FRAME_MAX_BYTES
    requires forall i :: 0 <= i < |payloads| ==> decode(payloads[i]) == Some(values[i])
    ensures Parse(Wire(payloads), decode) == Parsed(Ok(values), [])
    decreases |payloads|
  {
    if payloads != [] {
      var head, tail := payloads[0], Wire(payloads[1..]);
      HeaderReads(head, tail);
      ParsesWire(payloads[1..], values[1..], decode);
      assert values == [values[0]] + values[1..];
    }
  }

  lemma HeaderReads(payload: Bytes, tail: Bytes)
    requires |payload| <= FRAME_MAX_BYTES
    ensures var b := EncodeFrame(payload).value + tail;
            && FromBytes(b[..4]) == |payload|
            && b[4..4 + |payload|] == payload
            && b[4 + |payload|..] == tail
  {
    var header := ToBytes(|payload|, 4);
    var b := EncodeFrame(payload).value + tail;
    Powers();
    DecodeEncode(|payload|, 4);
    assert b[..4] == header;
  }

  /** `read_frame`: the header, then exactly that many bytes; None while the stream is short. */
  datatype ReadOutcome<+V> = Short | Read(outcome: Result<V, ErrorCode>, rest: Bytes)

  function ReadFrame<V>(stream: Bytes, decode: PayloadDecoder<V>): ReadOutcome<V> {
    if |stream| < 4 then Short
    else
      var size := FromBytes(stream[..4]);
      if size > FRAME_MAX_BYTES then Read(Err(PayloadTooLarge), stream[4..])
      else if |stream| < 4 + size then Short
      else match decode(stream[4..4 + size])
        case None => Read(Err(InvalidRequest), stream[4 + size..])
        case Some(v) => Read(Ok(v), stream[4 + size..])
  }

  /** Reading frame by frame until the stream runs short or an error is raised. */
  function ReadAll<V>(stream: Bytes, decode: PayloadDecoder<V>): Result<seq<V>, ErrorCode>
    decreases |stream|
  {
    match ReadFrame(stream, decode)
    case Short => Ok([])
    case Read(Err(e), _) => Err(e)
    case Read(Ok(v), rest) =>
      match ReadAll(rest, decode)
      case Ok(more) => Ok([v] + more)
      case Err(e) => Err(e)
  }

  /** The pull reader and the push decoder give one stream the same frames or the same error. */
  lemma {:induction false} ReaderAgreesWithDecoder<V>(stream: Bytes, chunks: seq<Bytes>, decode: PayloadDecoder<V>)
    requires Flatten(chunks) == stream
    ensures ReadAll(stream, decode) == FeedAll([], chunks, decode).outcome
  {
    assert [] + Flatten(chunks) == stream;
    SplitInvariance([], chunks, decode);
    ReadAllIsParse(stream, decode);
  }

  lemma {:induction false} ReadAllIsParse<V>(stream: Bytes, decode: PayloadDecoder<V>)
    ensures ReadAll(stream, decode) == Parse(stream, decode).outcome
    decreases |stream|
  {
    if ReadFrame(stream, decode).Read? && ReadFrame(stream, decode).outcome.Ok? {
      ReadAllIsParse(ReadFrame(stream, decode).rest, decode);
    }
  }
}
