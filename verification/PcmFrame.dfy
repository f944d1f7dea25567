/** The 24-byte local PCM frame (local.py) and the cutting of output audio into frames. */
module PcmFrame {
  import opened Common
  import opened BigEndian

  datatype Direction = Input | Output

  /** A frame as the product and the controller see it. The counters are plain integers:
      the range checks of the encoder are part of the model. */
  datatype Frame = Frame(direction: Direction, generation: int, sequence: int, payload: Bytes)

  const MAGIC: Bytes := [0x53, 0x48, 0x52, 0x54]  // "SHRT"
  const VERSION: Byte := 1
  const HEADER_BYTES := 24
  const INPUT_LIMIT := 65_536
  const OUTPUT_LIMIT := 262_144

  /** What either direction of a call keeps in flight at most. */
  const WINDOW_FRAMES := 64
  const WINDOW_BYTES := 1_048_576

  function Limit(d: Direction): nat {
    match d case Input => INPUT_LIMIT case Output => OUTPUT_LIMIT
  }

  function Code(d: Direction): Byte {
    match d case Input => 1 case Output => 2
  }

  /** `encode_pcm_frame`. Header fields that do not fit their width raise from the packer. */
  function Encode(f: Frame): Result<Bytes, ErrorCode> {
    if f.generation <= 0 || f.sequence <= 0 then Err(InvalidRequest)
    else if |f.payload| == 0 || |f.payload| % 2 != 0 then Err(InvalidRequest)
    else if |f.payload| > Limit(f.direction) then Err(InvalidRequest)
    else if f.generation >= 0x1_0000_0000 || f.sequence >= 0x1_0000_0000_0000_0000 then Err(StructRange)
    else Ok(Header(f) + f.payload)
  }

  function Header(f: Frame): Bytes
    requires f.generation > 0 && f.sequence > 0
  {
    MAGIC + [VERSION, Code(f.direction)] + ToBytes(0, 2) + ToBytes(f.generation, 4)
    + ToBytes(f.sequence, 8) + ToBytes(|f.payload|, 4)
  }

  /** `decode_pcm_frame`. */
  function Decode(b: Bytes): Result<Frame, ErrorCode> {
    if |b| < HEADER_BYTES then Err(ProtocolError)
    else
      var code, flags := b[5], FromBytes(b[6..8]);
      var generation, sequence, size := FromBytes(b[8..12]), FromBytes(b[12..20]), FromBytes(b[20..24]);
      if b[..4] != MAGIC || b[4] != VERSION || flags != 0 then Err(ProtocolError)
      else if code != 1 && code != 2 then Err(ProtocolError)
      else
        var direction := if code == 1 then Input else Output;
        var body := b[24..];
        if size != |body| then Err(ProtocolError)
        else if generation <= 0 || sequence <= 0 || |body| == 0 || |body| % 2 != 0 then Err(ProtocolError)
        else if |body| > Limit(direction) then Err(ProtocolError)
        else Ok(Frame(direction, generation, sequence, body))
  }

  ghost predicate InRange(f: Frame) {
    && 0 < f.generation < 0x1_0000_0000
    && 0 < f.sequence < 0x1_0000_0000_0000_0000
    && 0 < |f.payload| <= Limit(f.direction)
    && |f.payload| % 2 == 0
  }

  /** The encoder accepts exactly the frames in range, and what it writes decodes to the frame. */
  lemma EncodeThenDecode(f: Frame)
    ensures Encode(f).Ok? <==> InRange(f)
    ensures Encode(f).Ok? ==> Decode(Encode(f).value) == Ok(f)
  {
    if InRange(f) {
      var b := Encode(f).value;
      HeaderFields(f);
      assert b[..24] == Header(f);
      assert b[6..8] == Header(f)[6..8];
      assert b[8..12] == Header(f)[8..12];
      assert b[12..20] == Header(f)[12..20];
      assert b[20..24] == Header(f)[20..24];
      Powers();
      DecodeEncode(0, 2);
      DecodeEncode(f.generation, 4);
      DecodeEncode(f.sequence, 8);
      DecodeEncode(|f.payload|, 4);
      assert b[24..] == f.payload;
    }
  }

  lemma HeaderFields(f: Frame)
    requires f.generation > 0 && f.sequence > 0
    ensures var h := Header(f);
            && |h| == 24
            && h[..4] == MAGIC && h[4] == VERSION && h[5] == Code(f.direction)
            && h[6..8] == ToBytes(0, 2)
            && h[8..12] == ToBytes(f.generation, 4)
            && h[12..20] == ToBytes(f.sequence, 8)
            && h[20..24] == ToBytes(|f.payload|, 4)
  {
  }

  /** Every accepted byte string is the encoding of the frame it decodes to. */
  lemma DecodeThenEncode(b: Bytes)
    requires Decode(b).Ok?
    ensures InRange(Decode(b).value)
    ensures Encode(Decode(b).value) == Ok(b)
  {
    var f := Decode(b).value;
    Powers();
    FromBytesBound(b[8..12]);
    FromBytesBound(b[12..20]);
    EncodeDecode(b[6..8]);
    EncodeDecode(b[8..12]);
    EncodeDecode(b[12..20]);
    EncodeDecode(b[20..24]);
    assert b == b[..4] + [b[4], b[5]] + b[6..8] + b[8..12] + b[12..20] + b[20..24] + b[24..];
  }

  // ---- cutting output audio into frames ----

  /** The slices `_send_output_audio` hands to `_send_output_chunk`. */
  function Chunks(pcm: Bytes): seq<Bytes> {
    if |pcm| == 0 then []
    else if |pcm| <= OUTPUT_LIMIT then [pcm]
    else [pcm[..OUTPUT_LIMIT]] + Chunks(pcm[OUTPUT_LIMIT..])
  }

  /** Chunking loses nothing and every chunk passes the encoder's size and parity checks. */
  lemma {:induction false} ChunksCover(pcm: Bytes)
    requires |pcm| % 2 == 0
    ensures Flatten(Chunks(pcm)) == pcm
    ensures forall i :: 0 <= i < |Chunks(pcm)| ==> 0 < |Chunks(pcm)[i]| <= OUTPUT_LIMIT && |Chunks(pcm)[i]| % 2 == 0
    decreases |pcm|
  {
    if |pcm| > OUTPUT_LIMIT {
      ChunksCover(pcm[OUTPUT_LIMIT..]);
      assert pcm == pcm[..OUTPUT_LIMIT] + pcm[OUTPUT_LIMIT..];
    } else if |pcm| > 0 {
      assert Chunks(pcm)[1..] == [];
    }
  }

  /** `_send_output_audio`: the slices, or the protocol error that ends the call. */
  method CutOutputAudio(pcm: Bytes) returns (outcome: Result<seq<Bytes>, ErrorCode>)
    ensures outcome.Err? <==> |pcm| == 0 || |pcm| % 2 != 0
    ensures outcome.Ok? ==> outcome.value == Chunks(pcm) && Flatten(outcome.value) == pcm
  {
    if |pcm| == 0 || |pcm| % 2 != 0 {
      return Err(ProtocolError);
    }
    ChunksCover(pcm);
    assert Chunks([]) == [] && pcm[0..] == pcm;
    hide Chunks, Flatten;
    var chunks: seq<Bytes> := [];
    var offset := 0;
    while offset < |pcm|
      invariant 0 <= offset
      invariant chunks + Chunks(Rest(pcm, offset)) == Chunks(pcm)
    {
      FirstChunk(pcm, offset);
      var end := if offset + OUTPUT_LIMIT < |pcm| then offset + OUTPUT_LIMIT else |pcm|;
      chunks := chunks + [pcm[offset..end]];
      offset := offset + OUTPUT_LIMIT;
    }
    return Ok(chunks);
  }

  /** What is left from an offset on; nothing beyond the end. */
  function Rest(pcm: Bytes, offset: nat): Bytes {
    if offset <= |pcm| then pcm[offset..] else []
  }

  lemma FirstChunk(pcm: Bytes, offset: nat)
    requires offset < |pcm|
    ensures var end := if offset + OUTPUT_LIMIT < |pcm| then offset + OUTPUT_LIMIT else |pcm|;
            Chunks(Rest(pcm, offset)) == [pcm[offset..end]] + Chunks(Rest(pcm, offset + OUTPUT_LIMIT))
  {
    var rest := pcm[offset..];
    if |rest| > OUTPUT_LIMIT {
      assert rest[..OUTPUT_LIMIT] == pcm[offset..offset + OUTPUT_LIMIT];
      assert rest[OUTPUT_LIMIT..] == pcm[offset + OUTPUT_LIMIT..];
    } else {
      assert rest == pcm[offset..|pcm|];
    }
  }

  /** The frames for `chunks` when the last sequence number used so far is `last`. */
  function Framed(generation: int, last: nat, chunks: seq<Bytes>): seq<Frame> {
    seq(|chunks|, i requires 0 <= i < |chunks| => Frame(Output, generation, last + 1 + i, chunks[i]))
  }

  /** The wire bytes of a run of frames; fails where the encoder refuses one. */
  function EncodeAll(frames: seq<Frame>): Result<seq<Bytes>, ErrorCode> {
    if frames == [] then Ok([])
    else match (Encode(frames[0]), EncodeAll(frames[1..]))
      case (Err(e), _) => Err(e)
      case (_, Err(e)) => Err(e)
      case (Ok(b), Ok(more)) => Ok([b] + more)
  }

  /** What a receiver reassembles from wire frames: their payloads in order. */
  function Reassemble(wire: seq<Bytes>): Result<Bytes, ErrorCode> {
    if wire == [] then Ok([])
    else match (Decode(wire[0]), Reassemble(wire[1..]))
      case (Err(e), _) => Err(e)
      case (_, Err(e)) => Err(e)
      case (Ok(f), Ok(later)) => Ok(f.payload + later)
  }

  /** Chunking then framing loses nothing: whatever even-length audio is sent, within the
      range of the header counters every frame encodes, and decoding the frames in order and
      concatenating their payloads gives the audio back. */
  lemma FramedAudioSurvives(generation: int, last: nat, pcm: Bytes)
    requires 0 < generation < 0x1_0000_0000
    requires |pcm| % 2 == 0
    requires last + |Chunks(pcm)| < 0x1_0000_0000_0000_0000
    ensures EncodeAll(Framed(generation, last, Chunks(pcm))).Ok?
    ensures Reassemble(EncodeAll(Framed(generation, last, Chunks(pcm))).value) == Ok(pcm)
  {
    ChunksCover(pcm);
    ReassembleFrames(generation, last, Chunks(pcm));
  }

  lemma {:induction false} ReassembleFrames(generation: int, last: nat, chunks: seq<Bytes>)
    requires 0 < generation < 0x1_0000_0000
    requires last + |chunks| < 0x1_0000_0000_0000_0000
    requires forall i :: 0 <= i < |chunks| ==> 0 < |chunks[i]| <= OUTPUT_LIMIT && |chunks[i]| % 2 == 0
    ensures EncodeAll(Framed(generation, last, chunks)).Ok?
    ensures Reassemble(EncodeAll(Framed(generation, last, chunks)).value) == Ok(Flatten(chunks))
    decreases |chunks|
  {
    if chunks != [] {
      var frames := Framed(generation, last, chunks);
      EncodeThenDecode(frames[0]);
      assert frames[1..] == Framed(generation, last + 1, chunks[1..]);
      ReassembleFrames(generation, last + 1, chunks[1..]);
    }
  }
}
