/** The sliding output window of the local channel: frames in flight towards the
    product, cumulative acknowledgements and the playback position. */
module OutputWindow {
  import opened Common
  import opened PcmFrame

  /** 16-bit PCM: both numbers are positive in every audio format. */
  datatype Format = Format(sampleRate: Positive, channels: Positive) {
    function BytesPerSecond(): int { 2 * sampleRate * channels }
  }

  /** One frame in flight. */
  datatype Sent = Sent(sequence: nat, size: nat)

  datatype Window = Window(
    sequence: nat, acked: nat, ackedBytes: nat, pending: seq<Sent>, pendingBytes: int,
    playedMs: nat, format: Format, ready: bool)

  const DEFAULT_FORMAT := Format(24_000, 1)

  function Start(): Window {
    Window(0, 0, 0, [], 0, 0, DEFAULT_FORMAT, false)
  }

  /** An acknowledgement message: the position may be absent. */
  datatype Ack = Ack(isOutput: bool, highest: int, position: Option<int>)

  // ---- one call at a time ----

  predicate Admits(w: Window, size: nat) {
    |w.pending| < WINDOW_FRAMES && w.pendingBytes + size <= WINDOW_BYTES
  }

  /** Number and enqueue one chunk, once there is room for it. */
  function Send(w: Window, size: nat): Window {
    w.(sequence := w.sequence + 1,
       pending := w.pending + [Sent(w.sequence + 1, size)],
       pendingBytes := w.pendingBytes + size)
  }

  /** Bytes the acknowledgement of `highest` would newly cover. */
  function Covered(pending: seq<Sent>, highest: int): nat {
    if pending == [] then 0
    else (if pending[0].sequence <= highest then pending[0].size else 0) + Covered(pending[1..], highest)
  }

  /** Milliseconds of audio a byte count stands for. */
  function Milliseconds(bytes: nat, format: Format): real {
    RatePositive(format);
    (bytes * 1000) as real / format.BytesPerSecond() as real
  }

  lemma RatePositive(format: Format)
    ensures format.BytesPerSecond() > 0
  {
    assert format.sampleRate * format.channels > 0;
  }

  function HandleAck(w: Window, ack: Ack): Result<Window, ErrorCode> {
    if !w.ready || !ack.isOutput || ack.highest < 0 || ack.highest > w.sequence then Err(ProtocolError)
    else
      var position := if ack.position.Some? then ack.position.value else w.playedMs;
      var bytes := w.ackedBytes + Covered(w.pending, ack.highest);
      if position < w.playedMs || position as real > Milliseconds(bytes, w.format) then Err(ProtocolError)
      else if ack.highest <= w.acked then Ok(w.(playedMs := position))
      else Ok(Retire(w.(playedMs := position, acked := ack.highest), ack.highest))
  }

  /** Drop acknowledged frames from the front of the window. */
  function Retire(w: Window, highest: int): Window
    decreases |w.pending|
  {
    if w.pending != [] && w.pending[0].sequence <= highest
    then Retire(w.(pending := w.pending[1..],
                   pendingBytes := w.pendingBytes - w.pending[0].size,
                   ackedBytes := w.ackedBytes + w.pending[0].size), highest)
    else w
  }

  /** The controller's output side. */
  class OutputFlow {
    const generation: int
    var outputSequence: nat
    var outputAcked: nat
    var outputAckedBytes: nat
    var outputPending: seq<Sent>
    var outputPendingBytes: int
    var playedAudioMs: nat
    var outputAudio: Format
    var ready: bool

    ghost function Model(): Window
      reads this
    {
      Window(outputSequence, outputAcked, outputAckedBytes, outputPending, outputPendingBytes,
             playedAudioMs, outputAudio, ready)
    }

    constructor (generation: int)
      ensures Model() == Start() && this.generation == generation
    {
      this.generation := generation;
      outputSequence, outputAcked, outputAckedBytes := 0, 0, 0;
      outputPending, outputPendingBytes := [], 0;
      playedAudioMs, outputAudio, ready := 0, DEFAULT_FORMAT, false;
    }

    /** One attempt at sending a chunk: None while the window is full, when the caller waits. */
    method SendChunk(pcm: Bytes) returns (frame: Option<Frame>)
      modifies this
      ensures frame.Some? <==> old(|outputPending|) < 64 && old(outputPendingBytes) + |pcm| <= 1_048_576
      ensures Model() == if frame.Some? then Send(old(Model()), |pcm|) else old(Model())
      ensures frame.Some? ==> frame.value == Frame(Output, generation, old(outputSequence) + 1, pcm)
    {
      if |outputPending| >= WINDOW_FRAMES || outputPendingBytes + |pcm| > WINDOW_BYTES {
        return None;
      }
      outputSequence := outputSequence + 1;
      var sequence := outputSequence;
      outputPending := outputPending + [Sent(sequence, |pcm|)];
      outputPendingBytes := outputPendingBytes + |pcm|;
      return Some(Frame(Output, generation, sequence, pcm));
    }

    method HandleOutputAck(ack: Ack) returns (outcome: Result<(), ErrorCode>)
      modifies this
      ensures outcome.Ok? <==> HandleAck(old(Model()), ack).Ok?
      ensures outcome.Ok? ==> Model() == HandleAck(old(Model()), ack).value
      ensures outcome.Err? ==> Model() == old(Model()) && outcome == Err(ProtocolError)
    {
      if !ready || !ack.isOutput {
        return Err(ProtocolError);
      }
      var highest := ack.highest;
      if highest < 0 || highest > outputSequence {
        return Err(ProtocolError);
      }
      var position := if ack.position.Some? then ack.position.value else playedAudioMs;
      var acknowledged := outputAckedBytes;
      var i := 0;
      while i < |outputPending|
        invariant 0 <= i <= |outputPending|
        invariant acknowledged + Covered(outputPending[i..], highest)
               == outputAckedBytes + Covered(outputPending, highest)
      {
        if outputPending[i].sequence <= highest {
          acknowledged := acknowledged + outputPending[i].size;
        }
        i := i + 1;
      }
      if position < playedAudioMs || position as real > Milliseconds(acknowledged, outputAudio) {
        return Err(ProtocolError);
      }
      playedAudioMs := position;
      if highest <= outputAcked {
        return Ok(());
      }
      outputAcked := highest;
      ghost var before := Model();
      while outputPending != [] && outputPending[0].sequence <= highest
        invariant Retire(Model(), highest) == Retire(before, highest)
        decreases |outputPending|
      {
        var size := outputPending[0].size;
        outputPending := outputPending[1..];
        outputPendingBytes := outputPendingBytes - size;
        outputAckedBytes := outputAckedBytes + size;
      }
      return Ok(());
    }
  }

  // ---- conservation ----

  function Total(chunks: seq<Bytes>): nat {
    if chunks == [] then 0 else |chunks[0]| + Total(chunks[1..])
  }

  lemma {:induction false} TotalAppend(xs: seq<Bytes>, ys: seq<Bytes>)
    ensures Total(xs + ys) == Total(xs) + Total(ys)
  {
    if xs == [] {
      assert xs + ys == ys;
    } else {
      TotalAppend(xs[1..], ys);
      assert (xs + ys)[1..] == xs[1..] + ys;
    }
  }

  lemma TotalOne(chunk: Bytes)
    ensures Total([chunk]) == |chunk|
  {
    assert Total([chunk][1..]) == 0;
  }

  /** The frames in flight, given everything ever framed and how much was acknowledged. */
  function InFlight(framed: seq<Bytes>, acked: nat): seq<Sent>
    requires acked <= |framed|
  {
    seq(|framed| - acked, i requires 0 <= i < |framed| - acked => Sent(acked + 1 + i, |framed[acked + i]|))
  }

  /** `framed` is every chunk ever numbered, in order. */
  ghost predicate Conserved(w: Window, framed: seq<Bytes>) {
    && w.sequence == |framed|
    && w.acked <= w.sequence
    && w.pending == InFlight(framed, w.acked)
    && w.pendingBytes == Total(framed[w.acked..])
    && w.ackedBytes == Total(framed[..w.acked])
    && |w.pending| <= WINDOW_FRAMES
    && w.pendingBytes <= WINDOW_BYTES
    && w.playedMs * w.format.BytesPerSecond() <= 1000 * w.ackedBytes
    && (!w.ready ==> w.playedMs == 0)
  }

  /** Acknowledged plus in-flight bytes are all the bytes ever framed. */
  lemma NothingLost(w: Window, framed: seq<Bytes>)
    requires Conserved(w, framed)
    ensures w.ackedBytes + w.pendingBytes == Total(framed)
    ensures |w.pending| == w.sequence - w.acked
    ensures forall i :: 0 <= i < |w.pending| ==> w.pending[i].sequence == w.acked + 1 + i
  {
    TotalAppend(framed[..w.acked], framed[w.acked..]);
    assert framed == framed[..w.acked] + framed[w.acked..];
  }

  lemma SendConserves(w: Window, framed: seq<Bytes>, pcm: Bytes)
    requires Conserved(w, framed) && Admits(w, |pcm|)
    ensures Conserved(Send(w, |pcm|), framed + [pcm])
  {
    var framed' := framed + [pcm];
    assert framed'[w.acked..] == framed[w.acked..] + [pcm];
    assert framed'[..w.acked] == framed[..w.acked];
    TotalOne(pcm);
    TotalAppend(framed[w.acked..], [pcm]);
    assert InFlight(framed', w.acked) == InFlight(framed, w.acked) + [Sent(|framed|  + 1, |pcm|)];
  }

  lemma {:induction false} CoveredIsPrefix(framed: seq<Bytes>, acked: nat, highest: nat)
    requires acked <= |framed| && highest <= |framed|
    ensures Covered(InFlight(framed, acked), highest)
         == if highest <= acked then 0 else Total(framed[acked..highest])
    decreases |framed| - acked
  {
    if acked < |framed| {
      var flight := InFlight(framed, acked);
      assert flight[1..] == InFlight(framed, acked + 1);
      CoveredIsPrefix(framed, acked + 1, highest);
      if acked < highest {
        assert framed[acked..highest] == [framed[acked]] + framed[acked + 1..highest];
      }
    }
  }

  lemma {:induction false} RetireConserves(w: Window, framed: seq<Bytes>, at: nat, highest: nat)
    requires at <= highest <= |framed|
    requires w.pending == InFlight(framed, at)
    requires w.pendingBytes == Total(framed[at..])
    requires w.ackedBytes == Total(framed[..at])
    ensures Retire(w, highest) == w.(pending := InFlight(framed, highest),
                                     pendingBytes := Total(framed[highest..]),
                                     ackedBytes := Total(framed[..highest]))
    decreases highest - at
  {
    if at < highest {
      assert w.pending[0] == Sent(at + 1, |framed[at]|);
      assert w.pending[1..] == InFlight(framed, at + 1);
      assert framed[at..] == [framed[at]] + framed[at + 1..];
      assert framed[..at + 1] == framed[..at] + [framed[at]];
      TotalOne(framed[at]);
      TotalAppend(framed[..at], [framed[at]]);
      var w' := w.(pending := w.pending[1..],
                   pendingBytes := w.pendingBytes - w.pending[0].size,
                   ackedBytes := w.ackedBytes + w.pending[0].size);
      RetireConserves(w', framed, at + 1, highest);
    }
  }

  /** The real-valued playback check is this comparison of integers. */
  lemma PositionWithin(position: int, bytes: nat, format: Format)
    ensures position as real <= Milliseconds(bytes, format) <==> position * format.BytesPerSecond() <= 1000 * bytes
  {
    RatePositive(format);
    var rate := format.BytesPerSecond();
    var scaled, whole := position as real * rate as real, (bytes * 1000) as real;
    assert scaled == (position * rate) as real;
    DivideBound(position as real, whole, rate as real);
  }

  lemma DivideBound(p: real, q: real, r: real)
    requires r > 0.0
    ensures p <= q / r <==> p * r <= q
  {
    assert (q / r) * r == q;
    if p <= q / r {
      ScaleLeq(p, q / r, r);
    } else {
      ScaleLess(q / r, p, r);
    }
  }

  lemma ScaleLeq(a: real, b: real, r: real)
    requires a <= b && r > 0.0
    ensures a * r <= b * r
  {
  }

  lemma ScaleLess(a: real, b: real, r: real)
    requires a < b && r > 0.0
    ensures a * r < b * r
  {
  }

  lemma AckConserves(w: Window, framed: seq<Bytes>, ack: Ack)
    requires Conserved(w, framed)
    requires HandleAck(w, ack).Ok?
    ensures Conserved(HandleAck(w, ack).value, framed)
    ensures HandleAck(w, ack).value.playedMs >= w.playedMs
    ensures HandleAck(w, ack).value.acked == if ack.highest > w.acked then ack.highest else w.acked
  {
    var highest := ack.highest;
    var w' := HandleAck(w, ack).value;
    CoveredIsPrefix(framed, w.acked, highest);
    PositionWithin(w'.playedMs, w.ackedBytes + Covered(w.pending, highest), w.format) by {
      PlayedAfter(w, ack);
    }
    PlayedAfter(w, ack);
    if highest > w.acked {
      RetireConserves(w.(playedMs := w'.playedMs, acked := highest), framed, w.acked, highest);
      assert framed[..highest] == framed[..w.acked] + framed[w.acked..highest];
      TotalAppend(framed[..w.acked], framed[w.acked..highest]);
      TotalAppend(framed[w.acked..highest], framed[highest..]);
      assert framed[w.acked..] == framed[w.acked..highest] + framed[highest..];
    }
  }

  /** Exactly when an acknowledgement is accepted, in terms of all audio ever framed, and what it
      leaves: the call is ready, it is about output and about frames sent, and its position neither
      moves back nor exceeds the audio acknowledged with it. */
  lemma AcksExactly(w: Window, framed: seq<Bytes>, ack: Ack)
    requires Conserved(w, framed)
    ensures var upTo := if ack.highest > w.acked then ack.highest else w.acked;
            var position := if ack.position.Some? then ack.position.value else w.playedMs;
            var accepted := HandleAck(w, ack);
            && (accepted.Ok? <==>
                 && w.ready && ack.isOutput && 0 <= ack.highest <= |framed|
                 && w.playedMs <= position
                 && position * (2 * w.format.sampleRate * w.format.channels) <= 1000 * Total(framed[..upTo]))
            && (accepted.Ok? ==>
                 && accepted.value.playedMs == position
                 && accepted.value.acked == upTo
                 && accepted.value.pending == InFlight(framed, upTo)
                 && accepted.value.ackedBytes == Total(framed[..upTo]))
            && (accepted.Err? ==> accepted.error == ProtocolError)
  {
    if 0 <= ack.highest <= |framed| {
      var upTo := if ack.highest > w.acked then ack.highest else w.acked;
      var position := if ack.position.Some? then ack.position.value else w.playedMs;
      CoveredIsPrefix(framed, w.acked, ack.highest);
      PositionWithin(position, w.ackedBytes + Covered(w.pending, ack.highest), w.format);
      assert framed[..upTo] == framed[..w.acked] + framed[w.acked..upTo];
      TotalAppend(framed[..w.acked], framed[w.acked..upTo]);
      assert w.format.BytesPerSecond() == 2 * w.format.sampleRate * w.format.channels;
      if HandleAck(w, ack).Ok? {
        AckConserves(w, framed, ack);
        PlayedAfter(w, ack);
      }
    }
  }

  lemma {:induction false} RetireKeeps(w: Window, highest: int)
    ensures Retire(w, highest).playedMs == w.playedMs && Retire(w, highest).format == w.format
    ensures Retire(w, highest).acked == w.acked && Retire(w, highest).ready == w.ready
    decreases |w.pending|
  {
    if w.pending != [] && w.pending[0].sequence <= highest {
      RetireKeeps(w.(pending := w.pending[1..],
                     pendingBytes := w.pendingBytes - w.pending[0].size,
                     ackedBytes := w.ackedBytes + w.pending[0].size), highest);
    }
  }

  lemma PlayedAfter(w: Window, ack: Ack)
    requires HandleAck(w, ack).Ok?
    ensures var position := if ack.position.Some? then ack.position.value else w.playedMs;
            HandleAck(w, ack).value.playedMs == position >= w.playedMs
  {
    var position := if ack.position.Some? then ack.position.value else w.playedMs;
    if ack.highest > w.acked {
      RetireKeeps(w.(playedMs := position, acked := ack.highest), ack.highest);
    }
  }

  /** An acknowledgement without a position is never refused for its playback position. */
  lemma SilentPositionAccepted(w: Window, framed: seq<Bytes>, highest: nat)
    requires Conserved(w, framed)
    requires w.ready && highest <= w.sequence
    ensures HandleAck(w, Ack(true, highest, None)).Ok?
  {
    var bytes := w.ackedBytes + Covered(w.pending, highest);
    PositionWithin(w.playedMs, bytes, w.format);
  }

  /** An empty window admits every chunk the audio cutter makes, and acknowledging the last
      sequence number empties the window: a waiting sender is always released by full playback. */
  lemma FullAckReleases(w: Window, framed: seq<Bytes>, size: nat)
    requires Conserved(w, framed) && w.ready
    requires size <= OUTPUT_LIMIT
    ensures w.pending == [] ==> Admits(w, size)
    ensures var r := HandleAck(w, Ack(true, w.sequence, None)); r.Ok? && r.value.pending == [] && Admits(r.value, size)
  {
    SilentPositionAccepted(w, framed, w.sequence);
    AckConserves(w, framed, Ack(true, w.sequence, None));
    assert framed[|framed|..] == [];
  }

  // ---- whole runs ----

  /** What can happen to the output side; a chunk is a piece the audio cutter made. */
  datatype Step = SendStep(pcm: Bytes) | AckStep(ack: Ack) | ReadyStep(format: Format)

  datatype Flow = Flow(window: Window, frames: seq<Frame>)

  /** A chunk that does not fit waits; a refused acknowledgement and a second ready change nothing. */
  function Next(generation: int, s: Flow, step: Step): Flow {
    match step
    case SendStep(pcm) =>
      if Admits(s.window, |pcm|)
      then Flow(Send(s.window, |pcm|), s.frames + [Frame(Output, generation, s.window.sequence + 1, pcm)])
      else s
    case AckStep(ack) =>
      (match HandleAck(s.window, ack) case Ok(w) => s.(window := w) case Err(_) => s)
    case ReadyStep(format) =>
      if s.window.ready then s else s.(window := s.window.(ready := true, format := format))
  }

  function Run(generation: int, steps: seq<Step>): Flow
    decreases |steps|
  {
    if steps == [] then Flow(Start(), [])
    else Next(generation, Run(generation, steps[..|steps| - 1]), steps[|steps| - 1])
  }

  function Payloads(frames: seq<Frame>): seq<Bytes> {
    seq(|frames|, i requires 0 <= i < |frames| => frames[i].payload)
  }

  /** Over every run of sends, acknowledgements (valid or not) and the ready message:
      in flight is exactly acked + 1 up to the last sequence sent, acknowledged plus in-flight
      bytes are everything framed, at most 64 frames and 1 MiB are outstanding, the position
      never exceeds the acknowledged audio, and the frames sent carry consecutive numbers. */
  lemma {:induction false} OutputConserved(generation: int, steps: seq<Step>)
    ensures var s := Run(generation, steps);
            && Conserved(s.window, Payloads(s.frames))
            && s.frames == Framed(generation, 0, Payloads(s.frames))
            && s.window.ackedBytes + s.window.pendingBytes == Total(Payloads(s.frames))
    decreases |steps|
  {
    if steps == [] {
      assert Payloads([]) == [];
    } else {
      var before := steps[..|steps| - 1];
      OutputConserved(generation, before);
      NextConserves(generation, Run(generation, before), steps[|steps| - 1]);
    }
    NothingLost(Run(generation, steps).window, Payloads(Run(generation, steps).frames));
  }

  /** One step keeps conservation and never moves the position or the acknowledgement back. */
  lemma NextConserves(generation: int, s: Flow, step: Step)
    requires Conserved(s.window, Payloads(s.frames))
    requires s.frames == Framed(generation, 0, Payloads(s.frames))
    ensures var s' := Next(generation, s, step);
            && Conserved(s'.window, Payloads(s'.frames))
            && s'.frames == Framed(generation, 0, Payloads(s'.frames))
            && s.window.playedMs <= s'.window.playedMs
            && s.window.acked <= s'.window.acked
            && s.frames <= s'.frames
  {
    var s' := Next(generation, s, step);
    match step
    case SendStep(pcm) =>
      if Admits(s.window, |pcm|) {
        assert Payloads(s'.frames) == Payloads(s.frames) + [pcm];
        SendConserves(s.window, Payloads(s.frames), pcm);
      }
    case AckStep(ack) =>
      if HandleAck(s.window, ack).Ok? {
        AckConserves(s.window, Payloads(s.frames), ack);
      }
    case ReadyStep(_) =>
  }

  /** Exactly when a chunk is framed, in terms of all audio ever framed: when fewer than 64 chunks and
      no more than 1 MiB with it are unacknowledged; otherwise it waits and nothing changes. */
  lemma SendsExactly(generation: int, s: Flow, pcm: Bytes)
    requires Conserved(s.window, Payloads(s.frames))
    ensures var framed, s' := Payloads(s.frames), Next(generation, s, SendStep(pcm));
            var room := |framed| - s.window.acked < 64 && Total(framed[s.window.acked..]) + |pcm| <= 1_048_576;
            && (room ==>
                 && s'.frames == s.frames + [Frame(Output, generation, |framed| + 1, pcm)]
                 && s'.window.pending == InFlight(framed + [pcm], s.window.acked))
            && (!room ==> s' == s)
  {
    var framed := Payloads(s.frames);
    if Admits(s.window, |pcm|) {
      SendConserves(s.window, framed, pcm);
    }
  }

  /** The first ready message fixes the format; a later one changes nothing. */
  lemma ReadyOnce(generation: int, s: Flow, format: Format)
    ensures var s' := Next(generation, s, ReadyStep(format));
            && s'.window.ready
            && s'.window.format == (if s.window.ready then s.window.format else format)
            && s'.window.(ready := s.window.ready, format := s.window.format) == s.window && s'.frames == s.frames
  {
  }

  /** Between any two moments of a run: the playback position and the acknowledged sequence never
      decrease, and what was framed stays framed. */
  lemma {:induction false} PositionNeverDecreases(generation: int, steps: seq<Step>, i: nat, j: nat)
    requires i <= j <= |steps|
    ensures var s, s' := Run(generation, steps[..i]), Run(generation, steps[..j]);
            && s.window.playedMs <= s'.window.playedMs
            && s.window.acked <= s'.window.acked
            && s.frames <= s'.frames
    decreases j
  {
    if i < j {
      PositionNeverDecreases(generation, steps, i, j - 1);
      OutputConserved(generation, steps[..j - 1]);
      NextConserves(generation, Run(generation, steps[..j - 1]), steps[j - 1]);
      assert steps[..j][..j - 1] == steps[..j - 1];
    }
  }

  /** What `_send_output_audio` hands over: non-empty, whole samples, within the frame limit. */
  predicate IsChunk(pcm: Bytes) {
    0 < |pcm| <= OUTPUT_LIMIT && |pcm| % 2 == 0
  }

  /** Whatever audio is handed over in chunks, over any number of buffers and with any
      acknowledgements in between: every frame sent encodes, and the product, decoding the frames in
      order, hears exactly the audio framed, without loss; for the chunks of one buffer, that buffer. */
  lemma ProductHearsEverything(generation: int, steps: seq<Step>)
    requires 0 < generation < 0x1_0000_0000
    requires forall i :: 0 <= i < |steps| && steps[i].SendStep? ==> IsChunk(steps[i].pcm)
    requires |Run(generation, steps).frames| < 0x1_0000_0000_0000_0000
    ensures var frames := Run(generation, steps).frames;
            && EncodeAll(frames).Ok?
            && Reassemble(EncodeAll(frames).value) == Ok(Flatten(Payloads(frames)))
            && forall pcm :: |pcm| % 2 == 0 && Payloads(frames) == Chunks(pcm) ==>
                 Reassemble(EncodeAll(frames).value) == Ok(pcm)
  {
    var payloads := Payloads(Run(generation, steps).frames);
    OutputConserved(generation, steps);
    FramesAreChunks(generation, steps);
    ReassembleFrames(generation, 0, payloads);
    forall pcm | |pcm| % 2 == 0 && payloads == Chunks(pcm) ensures Flatten(payloads) == pcm {
      ChunksCover(pcm);
    }
  }

  lemma {:induction false} FramesAreChunks(generation: int, steps: seq<Step>)
    requires forall i :: 0 <= i < |steps| && steps[i].SendStep? ==> IsChunk(steps[i].pcm)
    ensures forall i :: 0 <= i < |Run(generation, steps).frames| ==> IsChunk(Run(generation, steps).frames[i].payload)
    decreases |steps|
  {
    if steps != [] {
      FramesAreChunks(generation, steps[..|steps| - 1]);
    }
  }
}
