/** The way of input audio through the local channel (local_channel.py): reorder window, batches,
    and the session that takes them. */
module InputPath {
  import opened Common
  import opened PcmFrame
  import W = InputWindow

  /** `accepts(k)` says whether the k-th send to the session comes through in time. */
  datatype Config = Config(batchFrames: Positive, ackEvery: Positive, accepts: nat -> bool)

  datatype Path = Path(
    window: W.Window, batch: seq<Bytes>, sinceAck: nat, ended: bool,
    delivered: seq<Bytes>,   // what the window released, frame by frame
    upstream: seq<Bytes>,    // what the session took, send by send
    counts: seq<nat>,        // of how many frames each send was
    covered: nat,            // frames sent before the latest acknowledgement
    acks: seq<nat>)

  function Start(generation: int): Path {
    Path(W.Fresh(generation), [], 0, false, [], [], [], 0, [])
  }

  /** `_flush_input_batch`. A send that blocks too long ends the call and keeps the batch. */
  function Flush(c: Config, p: Path): Path {
    if p.batch == [] then p
    else if !c.accepts(|p.upstream|) then p.(ended := true)
    else p.(batch := [], sinceAck := p.sinceAck + |p.batch|,
            upstream := p.upstream + [Flatten(p.batch)], counts := p.counts + [|p.batch|])
  }

  function Forward(c: Config, p: Path, ready: seq<Bytes>): Path
    decreases |ready|
  {
    if ready == [] || p.ended then p
    else
      var p1 := p.(batch := p.batch + [ready[0]]);
      Forward(c, if |p1.batch| >= c.batchFrames then Flush(c, p1) else p1, ready[1..])
  }

  /** `_send_input_ack`. */
  function Acknowledge(p: Path): Path {
    if p.sinceAck == 0 then p
    else p.(sinceAck := 0, covered := p.covered + p.sinceAck, acks := p.acks + [p.window.highest])
  }

  /** `_handle_input_audio`, once decoded and while the call is on. A frame the window refuses ends
      the call. */
  function Handle(c: Config, p: Path, f: Frame): Path {
    if f.generation != p.window.generation then p
    else match W.Accept(p.window, f)
      case Accepted(_, Err(_)) => p.(ended := true)
      case Accepted(w, Ok(ready)) =>
        if ready == [] && f.sequence <= w.highest then p.(window := w)
        else
          var p1 := Forward(c, p.(window := w, delivered := p.delivered + ready), ready);
          if !p1.ended && p1.sinceAck >= c.ackEvery then Acknowledge(p1) else p1
  }

  datatype Op = Frames(frame: Frame) | Flushing | AckDelayed

  /** Frames from the product, flushes by a barge-in or a stop, and the delayed acknowledgement. */
  function Step(c: Config, p: Path, op: Op): Path {
    if p.ended then p
    else match op
      case Frames(f) => Handle(c, p, f)
      case Flushing => Flush(c, p)
      case AckDelayed => Acknowledge(p)
  }

  function Run(c: Config, generation: int, ops: seq<Op>): Path
    decreases |ops|
  {
    if ops == [] then Start(generation) else Step(c, Run(c, generation, ops[..|ops| - 1]), ops[|ops| - 1])
  }

  /** The input side of a call, as the controller holds it. */
  class InputController {
    const config: Config
    const window: W.ReorderBuffer
    var inputBatch: seq<Bytes>
    var inputSinceAck: nat
    var terminal: bool
    var upstream: seq<Bytes>
    ghost var delivered: seq<Bytes>
    ghost var counts: seq<nat>
    ghost var covered: nat
    ghost var acks: seq<nat>

    ghost function Model(): Path
      reads this, window
    {
      Path(window.Model(), inputBatch, inputSinceAck, terminal, delivered, upstream, counts, covered, acks)
    }

    constructor (config: Config, generation: int)
      ensures this.config == config && fresh(window)
      ensures Model() == Start(generation)
    {
      this.config := config;
      window := new W.ReorderBuffer(generation);
      inputBatch, inputSinceAck, terminal, upstream := [], 0, false, [];
      delivered, counts, covered, acks := [], [], 0, [];
    }

    method FlushInputBatch()
      modifies this
      ensures Model() == Flush(config, old(Model()))
    {
      if inputBatch == [] {
        return;
      }
      var pcm := Flatten(inputBatch);
      if !config.accepts(|upstream|) {
        terminal := true;
        return;
      }
      upstream, counts := upstream + [pcm], counts + [|inputBatch|];
      inputSinceAck := inputSinceAck + |inputBatch|;
      inputBatch := [];
    }

    method SendInputAck()
      modifies this
      ensures Model() == Acknowledge(old(Model()))
    {
      if inputSinceAck == 0 {
        return;
      }
      covered := covered + inputSinceAck;
      inputSinceAck := 0;
      acks := acks + [window.highestContiguous];
    }

    method ForwardReady(ready: seq<Bytes>)
      requires !terminal
      modifies this
      ensures Model() == Forward(config, old(Model()), ready)
    {
      hide Flush;
      ghost var all := Forward(config, Model(), ready);
      var i := 0;
      assert ready[0..] == ready;
      while i < |ready|
        invariant 0 <= i <= |ready|
        invariant !terminal
        invariant all == Forward(config, Model(), ready[i..])
      {
        assert ready[i..][1..] == ready[i + 1..];
        inputBatch := inputBatch + [ready[i]];
        if |inputBatch| >= config.batchFrames {
          FlushInputBatch();
          if terminal {
            return;
          }
        }
        i := i + 1;
      }
    }

    method HandleInputAudio(f: Frame)
      requires !terminal
      modifies this, window
      ensures Model() == Handle(config, old(Model()), f)
    {
      hide Flush, Forward, W.Accept;
      if f.generation != window.generation {
        return;
      }
      var outcome := window.Receive(f);
      if outcome.Err? {
        terminal := true;
        return;
      }
      var ready := outcome.value;
      if ready == [] && f.sequence <= window.highestContiguous {
        return;
      }
      delivered := delivered + ready;
      ForwardReady(ready);
      if terminal {
        return;
      }
      if inputSinceAck >= config.ackEvery {
        SendInputAck();
      }
    }
  }

  // ---- nothing is lost or reordered ----

  /** What the session took and what is still batched make up what the window released; even when
      the call has ended, the session took a prefix of it. Acknowledgements only rise. */
  ghost predicate Kept(c: Config, p: Path) {
    && (!p.ended ==> |p.batch| < c.batchFrames && Flatten(p.upstream) + Flatten(p.batch) == Flatten(p.delivered))
    && Flatten(p.upstream) <= Flatten(p.delivered)
    && Rising(p.acks, p.window.highest)
  }

  ghost predicate Rising(acks: seq<nat>, top: nat) {
    && (forall i :: 0 <= i < |acks| ==> acks[i] <= top)
    && forall i, j :: 0 <= i < j < |acks| ==> acks[i] <= acks[j]
  }

  lemma FlattenOneMore(xs: seq<Bytes>, x: Bytes)
    ensures Flatten(xs + [x]) == Flatten(xs) + x
  {
    FlattenAppend(xs, [x]);
    assert [x][1..] == [];
  }

  lemma FlushKeeps(c: Config, p: Path)
    requires !p.ended
    ensures var p' := Flush(c, p);
            && (!p'.ended ==> p'.batch == [] && Flatten(p'.upstream) == Flatten(p.upstream) + Flatten(p.batch))
            && (p'.ended ==> p'.upstream == p.upstream)
            && p'.window == p.window && p'.delivered == p.delivered && p'.acks == p.acks
  {
    FlattenOneMore(p.upstream, Flatten(p.batch));
  }

  lemma {:induction false} ForwardKeeps(c: Config, p: Path, ready: seq<Bytes>)
    requires !p.ended && |p.batch| < c.batchFrames
    ensures var p' := Forward(c, p, ready);
            var all := Flatten(p.upstream) + Flatten(p.batch) + Flatten(ready);
            && (!p'.ended ==> |p'.batch| < c.batchFrames && Flatten(p'.upstream) + Flatten(p'.batch) == all)
            && Flatten(p'.upstream) <= all
            && p'.window == p.window && p'.delivered == p.delivered && p'.acks == p.acks
    decreases |ready|
  {
    hide Flatten;
    assert Flatten<Byte>([]) == [] by { FlattenNothing(); }
    if ready != [] {
      FlattenFirst(ready);
      FlattenOneMore(p.batch, ready[0]);
      var p1 := p.(batch := p.batch + [ready[0]]);
      FlushKeeps(c, p1);
      var p2 := if |p1.batch| >= c.batchFrames then Flush(c, p1) else p1;
      if !p2.ended {
        ForwardKeeps(c, p2, ready[1..]);
        assert Flatten(p2.upstream) + Flatten(p2.batch) == Flatten(p.upstream) + (Flatten(p.batch) + ready[0]);
      }
    }
  }

  lemma FlattenNothing()
    ensures Flatten<Byte>([]) == []
  {
  }

  /** The frames among the first steps. */
  function Arrived(ops: seq<Op>): seq<Frame>
    decreases |ops|
  {
    if ops == [] then []
    else
      var earlier := Arrived(ops[..|ops| - 1]);
      match ops[|ops| - 1] case Frames(f) => earlier + [f] case _ => earlier
  }

  lemma StepKeeps(c: Config, p: Path, op: Op)
    requires Kept(c, p) && W.Settled(p.window)
    ensures Kept(c, Step(c, p, op)) && W.Settled(Step(c, p, op).window)
  {
    hide W.Accept, W.Settled, Forward, Flatten;
    assert Flatten<Byte>([]) == [] by { FlattenNothing(); }
    if !p.ended {
      match op
      case Flushing => FlushKeeps(c, p);
      case AckDelayed =>
      case Frames(f) => HandleKeeps(c, p, f);
    }
  }

  lemma HandleKeeps(c: Config, p: Path, f: Frame)
    requires Kept(c, p) && !p.ended && W.Settled(p.window)
    ensures Kept(c, Handle(c, p, f)) && W.Settled(Handle(c, p, f).window)
  {
    hide W.Accept, W.Settled, Forward, Flatten;
    W.AcceptSettles(p.window, f);
    var a := W.Accept(p.window, f);
    if a.outcome.Ok? {
      FlattenAppend(p.delivered, a.outcome.value);
      ForwardKeeps(c, p.(window := a.window, delivered := p.delivered + a.outcome.value), a.outcome.value);
      assert a.outcome.value == [] ==> p.delivered + a.outcome.value == p.delivered;
    }
  }

  lemma HandleTracks(c: Config, p: Path, fs: seq<Frame>, f: Frame)
    requires !p.ended && W.Tracks(p.window, p.delivered, fs) && !Handle(c, p, f).ended && |p.batch| < c.batchFrames
    ensures W.Tracks(Handle(c, p, f).window, Handle(c, p, f).delivered, fs + [f])
    ensures Handle(c, p, f).window.generation == p.window.generation
  {
    hide W.Tracks, Forward;
    var a := W.Accept(p.window, f);
    assert f.generation != p.window.generation ==> a == W.Accepted(p.window, Ok([]));
    hide W.Accept;
    W.TracksStep(p.window, p.delivered, fs, f);
    assert p.delivered + [] == p.delivered;
    ForwardKeeps(c, p.(window := a.window, delivered := p.delivered + a.outcome.value), a.outcome.value);
  }

  /** For every run of frames, flushes and acknowledgements: while the call is on, the session has
      taken, in order and without a gap, the first payload that arrived for each of the sequences
      1 to highest, but for fewer than a batch that still waits; after a flush it has taken them
      all. Once the call has ended it has taken a prefix. Acknowledgements only rise and never
      name a sequence that has not been released. */
  lemma {:induction false} InputAudioArrives(c: Config, generation: int, ops: seq<Op>)
    ensures var p := Run(c, generation, ops);
            && Kept(c, p) && W.Settled(p.window)
            && (!p.ended ==> p.window.generation == generation && W.Tracks(p.window, p.delivered, Arrived(ops)))
    decreases |ops|
  {
    hide Kept, W.Settled, W.Tracks, Step;
    if ops == [] {
      StartKept(c, generation);
    } else {
      var p := Run(c, generation, ops[..|ops| - 1]);
      var op := ops[|ops| - 1];
      InputAudioArrives(c, generation, ops[..|ops| - 1]);
      StepKeeps(c, p, op);
      if !Step(c, p, op).ended {
        StepTracks(c, p, Arrived(ops[..|ops| - 1]), op);
      }
    }
  }

  lemma StartKept(c: Config, generation: int)
    ensures Kept(c, Start(generation)) && W.Settled(Start(generation).window)
    ensures W.Tracks(Start(generation).window, [], [])
  {
    W.DeliversExactly(generation, []);
  }

  lemma StepTracks(c: Config, p: Path, fs: seq<Frame>, op: Op)
    requires Kept(c, p) && !Step(c, p, op).ended && (!p.ended ==> W.Tracks(p.window, p.delivered, fs))
    ensures !p.ended
    ensures var p' := Step(c, p, op);
            && p'.window.generation == p.window.generation
            && W.Tracks(p'.window, p'.delivered, if op.Frames? then fs + [op.frame] else fs)
  {
    hide W.Tracks, Handle;
    if op.Frames? {
      HandleTracks(c, p, fs, op.frame);
    }
  }

  /** After a flush in a call that is on, what the session took is the whole of what arrived in
      order: the concatenation of the first payloads of the sequences 1 to highest. */
  lemma FlushedMeansAllArrived(c: Config, generation: int, ops: seq<Op>)
    requires ops != [] && ops[|ops| - 1] == Flushing
    requires !Run(c, generation, ops).ended
    ensures var p := Run(c, generation, ops);
            && Flatten(p.upstream) == Flatten(p.delivered)
            && |p.delivered| == p.window.highest
            && (forall s :: 1 <= s <= p.window.highest ==>
                 W.FirstPayload(Arrived(ops), generation, s) == Some(p.delivered[s - 1]))
  {
    InputAudioArrives(c, generation, ops);
    var p := Run(c, generation, ops);
    assert p.batch == [];
    assert Flatten(p.upstream) + [] == Flatten(p.upstream);
  }

  // ---- when the call ends, how sends are cut, and when they are acknowledged ----

  /** The books of sends and acknowledgements balance. */
  ghost predicate Counted(c: Config, p: Path) {
    && |p.counts| == |p.upstream|
    && p.sinceAck + p.covered == Sum(p.counts)
    && (!p.ended ==> |p.batch| < c.batchFrames && Sum(p.counts) + |p.batch| == |p.delivered|)
    && (forall k :: 0 <= k < |p.upstream| ==> c.accepts(k))
    && (forall k :: 0 <= k < |p.counts| ==> 0 < p.counts[k] <= c.batchFrames)
  }

  lemma SumOneMore(xs: seq<nat>, x: nat)
    ensures Sum(xs + [x]) == Sum(xs) + x
  {
    SumAppend(xs, [x]);
    assert [x][1..] == [];
  }

  /** Forwarding sends full batches only, goes on while they are taken in time, and ends the call at
      the first that is not. */
  lemma {:induction false} ForwardCounts(c: Config, p: Path, ready: seq<Bytes>)
    requires !p.ended && |ready| <= |p.delivered|
    requires Counted(c, p.(delivered := p.delivered[..|p.delivered| - |ready|]))
    ensures var p' := Forward(c, p, ready);
            && Counted(c, p')
            && (p'.ended ==> !c.accepts(|p'.upstream|))
            && p.counts <= p'.counts
            && (forall k :: |p.counts| <= k < |p'.counts| ==> p'.counts[k] == c.batchFrames)
    decreases |ready|
  {
    if ready != [] {
      var p1 := p.(batch := p.batch + [ready[0]]);
      var p2 := if |p1.batch| >= c.batchFrames then Flush(c, p1) else p1;
      SumOneMore(p.counts, |p1.batch|);
      if !p2.ended {
        ForwardCounts(c, p2, ready[1..]);
      } else {
        assert Forward(c, p2, ready[1..]) == p2;
      }
    } else {
      assert p.delivered[..|p.delivered| - |ready|] == p.delivered;
    }
  }

  lemma HandleCounts(c: Config, p: Path, f: Frame)
    requires Counted(c, p) && !p.ended
    ensures var p', a := Handle(c, p, f), W.Accept(p.window, f);
            && Counted(c, p')
            && (p'.ended ==> a.outcome.Err? || !c.accepts(|p'.upstream|))
            && (!p'.ended ==> a.outcome.Ok? && p'.window == a.window && p'.delivered == p.delivered + a.outcome.value)
            && p.counts <= p'.counts
            && (forall k :: |p.counts| <= k < |p'.counts| ==> p'.counts[k] == c.batchFrames)
            && (p.sinceAck < c.ackEvery && !p'.ended ==> p'.sinceAck < c.ackEvery)
  {
    hide Counted, Forward;
    var a := W.Accept(p.window, f);
    assert f.generation != p.window.generation ==> a == W.Accepted(p.window, Ok([]));
    hide W.Accept;
    assert p.delivered + [] == p.delivered;
    if a.outcome.Ok? {
      var ready := a.outcome.value;
      var p0 := p.(window := a.window, delivered := p.delivered + ready);
      assert p0.delivered[..|p0.delivered| - |ready|] == p.delivered;
      RewindowCounted(c, p, a.window);
      ForwardCounts(c, p0, ready);
      ForwardLeaves(c, p0, ready);
      AcknowledgeCounted(c, Forward(c, p0, ready));
    } else {
      EndCounted(c, p);
    }
  }

  lemma RewindowCounted(c: Config, p: Path, w: W.Window)
    requires Counted(c, p)
    ensures Counted(c, p.(window := w))
  {
  }

  lemma EndCounted(c: Config, p: Path)
    requires Counted(c, p)
    ensures Counted(c, p.(ended := true))
  {
  }

  lemma AcknowledgeCounted(c: Config, p: Path)
    requires Counted(c, p)
    ensures Counted(c, Acknowledge(p))
  {
  }

  lemma {:induction false} ForwardLeaves(c: Config, p: Path, ready: seq<Bytes>)
    ensures Forward(c, p, ready).window == p.window && Forward(c, p, ready).delivered == p.delivered
    decreases |ready|
  {
    if ready != [] && !p.ended {
      var p1 := p.(batch := p.batch + [ready[0]]);
      ForwardLeaves(c, if |p1.batch| >= c.batchFrames then Flush(c, p1) else p1, ready[1..]);
    }
  }

  /** A delayed acknowledgement goes out exactly when something was sent since the last one, and
      names what was released by now. */
  lemma AcknowledgesExactly(c: Config, p: Path)
    requires !p.ended
    ensures var p' := Step(c, p, AckDelayed);
            && p'.sinceAck == 0
            && p'.covered == p.covered + p.sinceAck
            && p'.acks == if p.sinceAck > 0 then p.acks + [p.window.highest] else p.acks
  {
  }

  /** Exactly when a call ends: while it is on, every frame that arrived was taken and every send came
      through in time; it has ended only for a frame the window refuses, or for the one send that
      did not come through. */
  lemma {:induction false} CallEndsExactly(c: Config, generation: int, ops: seq<Op>)
    ensures var p := Run(c, generation, ops);
            && Counted(c, p)
            && (p.ended ==> W.Run(generation, Arrived(ops)).Err? || !c.accepts(|p.upstream|))
            && (!p.ended ==> W.Run(generation, Arrived(ops)) == Ok((p.window, p.delivered)))
    decreases |ops|
  {
    hide Counted, Handle, W.Accept;
    if ops == [] {
      NothingCounted(c, generation);
    } else {
      var n := |ops| - 1;
      var p, op := Run(c, generation, ops[..n]), ops[n];
      CallEndsExactly(c, generation, ops[..n]);
      if op.Frames? {
        var fs := Arrived(ops[..n]);
        assert (fs + [op.frame])[..|fs|] == fs;
        if !p.ended {
          HandleCounts(c, p, op.frame);
        }
      } else if !p.ended {
        OtherCounts(c, p, op);
      }
    }
  }

  lemma NothingCounted(c: Config, generation: int)
    ensures Counted(c, Start(generation))
  {
  }

  lemma OtherCounts(c: Config, p: Path, op: Op)
    requires Counted(c, p) && !p.ended && !op.Frames?
    ensures var p' := Step(c, p, op);
            && Counted(c, p')
            && p'.window == p.window && p'.delivered == p.delivered
            && (p'.ended ==> !c.accepts(|p'.upstream|))
  {
    SumOneMore(p.counts, |p.batch|);
  }

  /** Without a flush every send is of exactly one full batch, and fewer frames than it takes for an
      acknowledgement are unacknowledged. */
  lemma {:induction false} BatchesAreFull(c: Config, generation: int, ops: seq<Op>)
    requires forall i :: 0 <= i < |ops| ==> !ops[i].Flushing?
    ensures var p := Run(c, generation, ops);
            && (forall k :: 0 <= k < |p.counts| ==> p.counts[k] == c.batchFrames)
            && (!p.ended ==> p.sinceAck < c.ackEvery)
    decreases |ops|
  {
    hide Counted, Handle;
    if ops != [] {
      var n := |ops| - 1;
      var p, op := Run(c, generation, ops[..n]), ops[n];
      BatchesAreFull(c, generation, ops[..n]);
      CallEndsExactly(c, generation, ops[..n]);
      if op.Frames? && !p.ended {
        HandleCounts(c, p, op.frame);
      }
    }
  }
}
