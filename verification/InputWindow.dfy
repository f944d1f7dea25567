/** The reordering input window of the local channel (local_channel.py) and the
    sequence-only window of the local protocol (local.py). */
module InputWindow {
  import opened Common
  import opened PcmFrame

  // ---- the window as a value ----

  datatype Window = Window(generation: int, highest: nat, pending: map<int, Bytes>, pendingBytes: int)

  /** A call's new state together with what it returned or raised. */
  datatype Accepted = Accepted(window: Window, outcome: Result<seq<Bytes>, ErrorCode>)

  function Fresh(generation: int): Window {
    Window(generation, 0, map[], 0)
  }

  function Accept(w: Window, f: Frame): Accepted {
    if f.generation != w.generation then Accepted(w, Ok([]))
    else if f.direction != Input then Accepted(w, Err(ProtocolError))
    else if f.sequence <= w.highest || f.sequence in w.pending then Accepted(w, Ok([]))
    else if f.sequence > w.highest + WINDOW_FRAMES then Accepted(w, Err(ProtocolError))
    else if w.pendingBytes + |f.payload| > WINDOW_BYTES then Accepted(w, Err(Busy))
    else
      var (w', ready) := Drain(Hold(w, f));
      Accepted(w', Ok(ready))
  }

  function Hold(w: Window, f: Frame): Window {
    w.(pending := w.pending[f.sequence := f.payload], pendingBytes := w.pendingBytes + |f.payload|)
  }

  /** Release everything contiguous with what was already delivered. */
  function Drain(w: Window): (Window, seq<Bytes>)
    decreases |w.pending|
  {
    if w.highest + 1 in w.pending then
      Shrinks(w.pending, w.highest + 1);
      var (w', later) := Drain(Release(w));
      (w', [w.pending[w.highest + 1]] + later)
    else (w, [])
  }

  function Release(w: Window): Window
    requires w.highest + 1 in w.pending
  {
    Window(w.generation, w.highest + 1, w.pending - {w.highest + 1},
           w.pendingBytes - |w.pending[w.highest + 1]|)
  }

  lemma Shrinks(m: map<int, Bytes>, k: int)
    requires k in m
    ensures |m - {k}| < |m|
  {
    assert (m - {k}).Keys == m.Keys - {k};
  }

  /** The reorder buffer of one input direction. */
  class ReorderBuffer {
    const generation: int
    var highestContiguous: nat
    var pending: map<int, Bytes>
    var pendingBytes: int

    ghost function Model(): Window
      reads this
    {
      Window(generation, highestContiguous, pending, pendingBytes)
    }

    constructor (generation: int)
      ensures Model() == Fresh(generation)
    {
      this.generation := generation;
      highestContiguous, pending, pendingBytes := 0, map[], 0;
    }

    method Receive(f: Frame) returns (outcome: Result<seq<Bytes>, ErrorCode>)
      modifies this
      ensures Accepted(Model(), outcome) == Accept(old(Model()), f)
      ensures outcome.Err? ==> Model() == old(Model())
    {
      if f.generation != generation {
        return Ok([]);
      }
      if f.direction != Input {
        return Err(ProtocolError);
      }
      if f.sequence <= highestContiguous || f.sequence in pending {
        return Ok([]);
      }
      if f.sequence > highestContiguous + WINDOW_FRAMES {
        return Err(ProtocolError);
      }
      if pendingBytes + |f.payload| > WINDOW_BYTES {
        return Err(Busy);
      }
      pending := pending[f.sequence := f.payload];
      pendingBytes := pendingBytes + |f.payload|;
      var ready := ReleaseReady();
      return Ok(ready);
    }

    method ReleaseReady() returns (ready: seq<Bytes>)
      modifies this
      ensures (Model(), ready) == Drain(old(Model()))
    {
      ghost var held := Model();
      ready := [];
      assert [] + Drain(held).1 == Drain(held).1;
      while highestContiguous + 1 in pending
        invariant Drain(held) == (Drain(Model()).0, ready + Drain(Model()).1)
        invariant Model().generation == held.generation
        decreases |pending|
      {
        var sequence := highestContiguous + 1;
        var payload := pending[sequence];
        Shrinks(pending, sequence);
        ghost var before := Model();
        pending := pending - {sequence};
        pendingBytes := pendingBytes - |payload|;
        highestContiguous := sequence;
        assert Model() == Release(before);
        assert ready + ([payload] + Drain(Model()).1) == ready + [payload] + Drain(Model()).1;
        ready := ready + [payload];
      }
      assert ready + [] == ready;
    }
  }

  // ---- what every call keeps ----

  /** Total payload bytes held in a buffer. */
  ghost function Held(m: map<int, Bytes>): nat
    decreases |m|
  {
    if k :| k in m then
      Shrinks(m, k);
      |m[k]| + Held(m - {k})
    else 0
  }

  lemma {:induction false} HeldWithout(m: map<int, Bytes>, k: int)
    requires k in m
    ensures Held(m) == |m[k]| + Held(m - {k})
    decreases |m|
  {
    var first :| first in m && Held(m) == |m[first]| + Held(m - {first});
    if first != k {
      Shrinks(m, first);
      HeldWithout(m - {first}, k);
      HeldWithout(m - {k}, first) by { Shrinks(m, k); }
      assert m - {first} - {k} == m - {k} - {first};
    }
  }

  lemma HeldWith(m: map<int, Bytes>, k: int, p: Bytes)
    requires k !in m
    ensures Held(m[k := p]) == |p| + Held(m)
  {
    HeldWithout(m[k := p], k);
    assert m[k := p] - {k} == m;
  }

  /** Held frames lie inside the window, the next one to deliver is never held, and the
      byte counter is the exact sum and within budget. */
  ghost predicate Bounded(w: Window) {
    && (forall k :: k in w.pending ==> w.highest < k <= w.highest + WINDOW_FRAMES)
    && w.pendingBytes == Held(w.pending)
    && w.pendingBytes <= WINDOW_BYTES
  }

  ghost predicate Settled(w: Window) {
    Bounded(w) && w.highest + 1 !in w.pending
  }

  lemma {:induction false} DrainSettles(w: Window)
    requires Bounded(w)
    ensures Settled(Drain(w).0)
    ensures Drain(w).0.generation == w.generation
    ensures Drain(w).0.highest == w.highest + |Drain(w).1|
    decreases |w.pending|
  {
    if w.highest + 1 in w.pending {
      Shrinks(w.pending, w.highest + 1);
      HeldWithout(w.pending, w.highest + 1);
      DrainSettles(Release(w));
    }
  }

  lemma {:induction false} DrainContents(w: Window)
    requires Bounded(w)
    ensures Drain(w).0.highest == w.highest + |Drain(w).1|
    ensures forall s :: w.highest < s <= Drain(w).0.highest ==>
      s in w.pending && Drain(w).1[s - w.highest - 1] == w.pending[s]
    ensures forall s :: s > Drain(w).0.highest ==>
      (s in Drain(w).0.pending <==> s in w.pending)
      && (s in w.pending ==> Drain(w).0.pending[s] == w.pending[s])
    decreases |w.pending|
  {
    if w.highest + 1 in w.pending {
      Shrinks(w.pending, w.highest + 1);
      HeldWithout(w.pending, w.highest + 1);
      var r := Release(w);
      DrainContents(r);
      assert Drain(w) == (Drain(r).0, [w.pending[w.highest + 1]] + Drain(r).1);
      DrainedFront(w, r, Drain(r).0.highest, Drain(r).1);
    }
  }

  /** What draining the rest says about draining all. */
  lemma DrainedFront(w: Window, r: Window, highest: nat, later: seq<Bytes>)
    requires w.highest + 1 in w.pending && r == Release(w) && highest == r.highest + |later|
    requires forall s :: r.highest < s <= highest ==> s in r.pending && later[s - r.highest - 1] == r.pending[s]
    ensures var out := [w.pending[w.highest + 1]] + later;
            forall s :: w.highest < s <= highest ==> s in w.pending && out[s - w.highest - 1] == w.pending[s]
  {
    var out := [w.pending[w.highest + 1]] + later;
    forall s | w.highest < s <= highest ensures s in w.pending && out[s - w.highest - 1] == w.pending[s] {
      if s > r.highest {
        assert s in r.pending && out[s - w.highest - 1] == later[s - r.highest - 1];
      }
    }
  }

  lemma AcceptSettles(w: Window, f: Frame)
    requires Settled(w)
    ensures Settled(Accept(w, f).window)
    ensures Accept(w, f).outcome.Err? ==> Accept(w, f).window == w
    ensures Accept(w, f).outcome.Ok? ==> Accept(w, f).window.highest == w.highest + |Accept(w, f).outcome.value|
  {
    if Accept(w, f).outcome.Ok? && f.generation == w.generation
       && f.sequence > w.highest && f.sequence !in w.pending {
      HeldWith(w.pending, f.sequence, f.payload);
      DrainSettles(Hold(w, f));
    }
  }

  /** A frame the window has to take in: of its generation, audio input, and neither delivered nor
      held. */
  predicate IsNew(w: Window, f: Frame) {
    f.generation == w.generation && f.direction == Input && f.sequence > w.highest && f.sequence !in w.pending
  }

  /** Exactly when a frame is refused, and how: for lack of space, when it would take the held bytes
      beyond 1 MiB; as a breach of the protocol, when it is no input or is more than 64 ahead of what
      was delivered. */
  lemma RefusesExactly(w: Window, f: Frame)
    requires Settled(w)
    ensures Accept(w, f).outcome == Err(Busy) <==>
      IsNew(w, f) && f.sequence <= w.highest + 64 && Held(w.pending) + |f.payload| > 1_048_576
    ensures Accept(w, f).outcome == Err(ProtocolError) <==>
      f.generation == w.generation && (f.direction != Input || (IsNew(w, f) && f.sequence > w.highest + 64))
    ensures Accept(w, f).outcome.Err? ==> Accept(w, f).outcome.error in {Busy, ProtocolError}
  {
    hide Held, Drain;
  }

  // ---- whole runs ----

  /** An error-free run from a fresh window: the final window and everything delivered. */
  function Run(generation: int, fs: seq<Frame>): Result<(Window, seq<Bytes>), ErrorCode>
    decreases |fs|
  {
    if fs == [] then Ok((Fresh(generation), []))
    else match Run(generation, fs[..|fs| - 1])
      case Err(e) => Err(e)
      case Ok((w, out)) =>
        match Accept(w, fs[|fs| - 1])
        case Accepted(w', Ok(ready)) => Ok((w', out + ready))
        case Accepted(_, Err(e)) => Err(e)
  }

  /** The payload of the first frame that arrived for a sequence number. */
  function FirstPayload(fs: seq<Frame>, generation: int, s: int): Option<Bytes>
    decreases |fs|
  {
    if fs == [] then None
    else
      var earlier := FirstPayload(fs[..|fs| - 1], generation, s);
      var last := fs[|fs| - 1];
      if earlier.Some? then earlier
      else if last.generation == generation && last.sequence == s then Some(last.payload)
      else None
  }

  /** What a window knows of the frames that arrived. */
  ghost predicate Tracks(w: Window, out: seq<Bytes>, fs: seq<Frame>) {
    && Settled(w)
    && |out| == w.highest
    && (forall s {:trigger FirstPayload(fs, w.generation, s)} :: 1 <= s <= w.highest ==>
         FirstPayload(fs, w.generation, s) == Some(out[s - 1]))
    && (forall s {:trigger FirstPayload(fs, w.generation, s)} :: s > w.highest ==>
         FirstPayload(fs, w.generation, s) == if s in w.pending then Some(w.pending[s]) else None)
  }

  /** Reorderings, duplicates and stale generations: every error-free run has delivered
      exactly the first-arrived payloads of the sequences 1 to highest, in order and once
      each, highest + 1 never arrived, and what is held back is what arrived beyond it. */
  lemma {:induction false} DeliversExactly(generation: int, fs: seq<Frame>)
    requires Run(generation, fs).Ok?
    ensures var (w, out) := Run(generation, fs).value;
            && w.generation == generation
            && Tracks(w, out, fs)
            && FirstPayload(fs, generation, w.highest + 1) == None
    decreases |fs|
  {
    if fs != [] {
      var earlier, f := fs[..|fs| - 1], fs[|fs| - 1];
      DeliversExactly(generation, earlier);
      var (w, out) := Run(generation, earlier).value;
      TracksStep(w, out, earlier, f);
      assert fs == earlier + [f];
    }
  }

  lemma TracksStep(w: Window, out: seq<Bytes>, fs: seq<Frame>, f: Frame)
    requires Tracks(w, out, fs)
    requires Accept(w, f).outcome.Ok?
    ensures Tracks(Accept(w, f).window, out + Accept(w, f).outcome.value, fs + [f])
    ensures Accept(w, f).window.generation == w.generation
  {
    AcceptSettles(w, f);
    var g := w.generation;
    forall s
      ensures FirstPayload(fs + [f], g, s) ==
        if FirstPayload(fs, g, s).Some? then FirstPayload(fs, g, s)
        else if f.generation == g && f.sequence == s then Some(f.payload) else None
    {
      assert (fs + [f])[..|fs + [f]| - 1] == fs;
    }
    if f.generation == g {
      if 1 <= f.sequence <= w.highest {
        assert FirstPayload(fs, g, f.sequence).Some?;
      } else if f.sequence > w.highest && f.sequence !in w.pending {
        HeldWith(w.pending, f.sequence, f.payload);
        DrainSettles(Hold(w, f));
        DrainContents(Hold(w, f));
        var w', ready := Drain(Hold(w, f)).0, Drain(Hold(w, f)).1;
        forall s | w.highest < s <= w'.highest
          ensures FirstPayload(fs + [f], g, s) == Some((out + ready)[s - 1])
        {
          assert s in Hold(w, f).pending && ready[s - w.highest - 1] == Hold(w, f).pending[s];
        }
      }
    }
  }

  /** Frames of the generation with one sequence number never disagree on the payload. */
  ghost predicate NoConflict(fs: seq<Frame>, generation: int) {
    forall f, g :: f in fs && g in fs && f.generation == g.generation == generation && f.sequence == g.sequence
      ==> f.payload == g.payload
  }

  lemma {:induction false} FirstPayloadIsSome(fs: seq<Frame>, generation: int, s: int)
    ensures FirstPayload(fs, generation, s).Some? <==>
      exists f :: f in fs && f.generation == generation && f.sequence == s
    ensures FirstPayload(fs, generation, s).Some? ==>
      Frame(Input, generation, s, FirstPayload(fs, generation, s).value) in fs
      || Frame(Output, generation, s, FirstPayload(fs, generation, s).value) in fs
    decreases |fs|
  {
    if fs != [] {
      var earlier, last := fs[..|fs| - 1], fs[|fs| - 1];
      FirstPayloadIsSome(earlier, generation, s);
      assert fs == earlier + [last];
      assert forall f :: f in fs <==> f in earlier || f == last;
      assert last == Frame(last.direction, last.generation, last.sequence, last.payload);
      assert last.direction == Input || last.direction == Output;
    }
  }

  /** Every sequence number from 1 to `s` is among the frames. */
  ghost predicate ArrivedUpTo(fs: seq<Frame>, generation: int, s: int) {
    forall r :: 1 <= r <= s ==> FirstPayload(fs, generation, r).Some?
  }

  /** Whichever frame arrives first carries the same payload, for every sequence number up to the
      first one missing. */
  ghost predicate FirstArrivalsAgree(fs: seq<Frame>, gs: seq<Frame>, generation: int) {
    forall s :: s >= 1 && ArrivedUpTo(fs, generation, s) ==>
      FirstPayload(fs, generation, s) == FirstPayload(gs, generation, s)
  }

  /** What was delivered is what arrived up to the first gap. */
  lemma DeliveredIsArrived(w: Window, out: seq<Bytes>, fs: seq<Frame>, s: int)
    requires Tracks(w, out, fs)
    ensures ArrivedUpTo(fs, w.generation, s) <==> s <= w.highest
  {
    assert FirstPayload(fs, w.generation, w.highest + 1).None?;
    if s <= w.highest {
      forall r | 1 <= r <= s ensures FirstPayload(fs, w.generation, r).Some? {
        assert FirstPayload(fs, w.generation, r) == Some(out[r - 1]);
      }
    }
  }

  ghost function Sequences(fs: seq<Frame>, generation: int): (found: set<int>)
    ensures forall s :: s in found <==> FirstPayload(fs, generation, s).Some?
  {
    var found := set f | f in fs && f.generation == generation :: f.sequence;
    SequencesArrived(fs, generation, found);
    found
  }

  lemma SequencesArrived(fs: seq<Frame>, generation: int, found: set<int>)
    requires found == set f | f in fs && f.generation == generation :: f.sequence
    ensures forall s :: s in found <==> FirstPayload(fs, generation, s).Some?
  {
    forall s ensures s in found <==> FirstPayload(fs, generation, s).Some? {
      FirstPayloadIsSome(fs, generation, s);
    }
  }

  /** What arrived behind the first gap, and so has to be held. */
  ghost function Waiting(fs: seq<Frame>, generation: int): map<int, Bytes> {
    map s | s in Sequences(fs, generation) && s >= 1 && !ArrivedUpTo(fs, generation, s) ::
      FirstPayload(fs, generation, s).value
  }

  lemma HeldIsWaiting(w: Window, out: seq<Bytes>, fs: seq<Frame>)
    requires Tracks(w, out, fs)
    ensures w.pending == Waiting(fs, w.generation)
  {
    var waiting := Waiting(fs, w.generation);
    forall s ensures s in waiting <==> s in w.pending {
      DeliveredIsArrived(w, out, fs, s);
    }
    forall s | s in w.pending ensures waiting[s] == w.pending[s] {
      assert FirstPayload(fs, w.generation, s) == Some(w.pending[s]);
    }
  }

  /** A frame that may follow these: of another generation, or an input frame that repeats a sequence
      number or none beyond 0, or one at most 64 beyond the first gap that fits beside what waits. */
  ghost predicate Admissible(fs: seq<Frame>, f: Frame, generation: int) {
    f.generation == generation ==>
      && f.direction == Input
      && (f.sequence >= 1 && FirstPayload(fs, generation, f.sequence).None? ==>
           ArrivedUpTo(fs, generation, f.sequence - 64) && Held(Waiting(fs, generation)) + |f.payload| <= 1_048_576)
  }

  /** In terms of the frames alone: a run is free of errors exactly when each frame may follow the
      ones before it. */
  lemma {:induction false} RunSucceedsExactly(generation: int, fs: seq<Frame>)
    ensures Run(generation, fs).Ok? <==> forall i :: 0 <= i < |fs| ==> Admissible(fs[..i], fs[i], generation)
    decreases |fs|
  {
    hide Accept, Tracks, Admissible, Drain;
    if fs != [] {
      var n := |fs| - 1;
      var earlier, f := fs[..n], fs[n];
      RunSucceedsExactly(generation, earlier);
      assert forall i :: 0 <= i < n ==> earlier[..i] == fs[..i] && earlier[i] == fs[i];
      if Run(generation, earlier).Ok? {
        DeliversExactly(generation, earlier);
        var (w, out) := Run(generation, earlier).value;
        TakenWhenAdmissible(w, out, earlier, f);
      }
    }
  }

  lemma TakenWhenAdmissible(w: Window, out: seq<Bytes>, fs: seq<Frame>, f: Frame)
    requires Tracks(w, out, fs)
    ensures Accept(w, f).outcome.Ok? <==> Admissible(fs, f, w.generation)
  {
    RefusesExactly(w, f);
    HeldIsWaiting(w, out, fs);
    DeliveredIsArrived(w, out, fs, f.sequence - 64);
    hide Accept, Held, Waiting, ArrivedUpTo;
    assert IsNew(w, f) <==>
      f.generation == w.generation && f.direction == Input
      && f.sequence >= 1 && FirstPayload(fs, w.generation, f.sequence).None?;
  }

  /** Two error-free runs over the same frames in different orders deliver equally far, and deliver
      the same payloads exactly when the first arrivals agree up to the first gap. */
  lemma PermutationsAgree(generation: int, fs: seq<Frame>, gs: seq<Frame>)
    requires multiset(fs) == multiset(gs)
    requires Run(generation, fs).Ok? && Run(generation, gs).Ok?
    ensures var (w, out) := Run(generation, fs).value;
            var (w', out') := Run(generation, gs).value;
            && w.highest == w'.highest
            && w.pending.Keys == w'.pending.Keys
            && (out == out' <==> FirstArrivalsAgree(fs, gs, generation))
            && (NoConflict(fs, generation) ==> w == w' && out == out')
  {
    var (w, out) := Run(generation, fs).value;
    var (w', out') := Run(generation, gs).value;
    DeliversExactly(generation, fs);
    DeliversExactly(generation, gs);
    forall s
      ensures FirstPayload(fs, generation, s).Some? <==> FirstPayload(gs, generation, s).Some?
      ensures NoConflict(fs, generation) ==> FirstPayload(fs, generation, s) == FirstPayload(gs, generation, s)
    {
      FirstPayloadIsSome(fs, generation, s);
      FirstPayloadIsSome(gs, generation, s);
      SameMembers(fs, gs);
    }
    SameDelivery(w, out, fs, w', out', gs);
    if NoConflict(fs, generation) {
      forall k | k in w.pending ensures w.pending[k] == w'.pending[k] {
        assert FirstPayload(fs, generation, k) == FirstPayload(gs, generation, k);
      }
      assert w.pending == w'.pending;
    }
  }

  lemma SameMembers(fs: seq<Frame>, gs: seq<Frame>)
    requires multiset(fs) == multiset(gs)
    ensures forall f :: f in fs <==> f in gs
  {
    forall f ensures f in fs <==> f in gs {
      assert f in fs <==> f in multiset(fs);
      assert f in gs <==> f in multiset(gs);
    }
  }

  lemma SameDelivery(w: Window, out: seq<Bytes>, fs: seq<Frame>, w': Window, out': seq<Bytes>, gs: seq<Frame>)
    requires Tracks(w, out, fs) && Tracks(w', out', gs)
    requires w.highest == w'.highest && w.generation == w'.generation
    requires forall s :: FirstPayload(fs, w.generation, s).Some? <==> FirstPayload(gs, w.generation, s).Some?
    ensures w.pending.Keys == w'.pending.Keys
    ensures out == out' <==> FirstArrivalsAgree(fs, gs, w.generation)
  {
    var g := w.generation;
    forall k ensures k in w.pending <==> k in w'.pending {
      assert FirstPayload(fs, g, k).Some? <==> FirstPayload(gs, g, k).Some?;
    }
    if FirstArrivalsAgree(fs, gs, g) {
      forall i | 0 <= i < |out| ensures out[i] == out'[i] {
        DeliveredIsArrived(w, out, fs, i + 1);
        assert FirstPayload(fs, g, i + 1) == FirstPayload(gs, g, i + 1) == Some(out[i]);
      }
      assert out == out';
    }
    if out == out' {
      forall s | s >= 1 && ArrivedUpTo(fs, g, s) ensures FirstPayload(fs, g, s) == FirstPayload(gs, g, s) {
        DeliveredIsArrived(w, out, fs, s);
      }
    }
  }

  /** Without agreement on duplicates the order does matter: the first payload wins. */
  lemma ConflictingDuplicatesDiffer()
    ensures var a, b := Frame(Input, 1, 1, [0, 0]), Frame(Input, 1, 1, [7, 7]);
            && Run(1, [a, b]).Ok? && Run(1, [b, a]).Ok?
            && Run(1, [a, b]).value.1 != Run(1, [b, a]).value.1
  {
    var a, b := Frame(Input, 1, 1, [0, 0]), Frame(Input, 1, 1, [7, 7]);
    RunOfTwo(a, b);
    RunOfTwo(b, a);
  }

  lemma RunOfTwo(a: Frame, b: Frame)
    requires a.generation == b.generation == 1 && a.sequence == b.sequence == 1
    requires a.direction == b.direction == Input
    requires |a.payload| == 2
    ensures Run(1, [a, b]).Ok? && Run(1, [a, b]).value.1 == [a.payload]
  {
    var w := Fresh(1);
    assert [a][..0] == [];
    assert Run(1, []) == Ok((w, []));
    var held := Hold(w, a);
    assert Release(held).pending == map[];
    assert Drain(Release(held)) == (Release(held), []);
    assert Drain(held) == (Release(held), [a.payload] + []);
    assert Drain(held).1 == [a.payload];
    assert Accept(w, a) == Accepted(Release(held), Ok([a.payload]));
    assert [] + [a.payload] == [a.payload];
    assert Run(1, [a]) == Ok((Release(held), [a.payload]));
    assert [a, b][..1] == [a];
    assert Accept(Release(held), b) == Accepted(Release(held), Ok([]));
  }

  // ---- the sequence-only window ----

  datatype Sequencer = Sequencer(generation: int, direction: Direction, window: int, highest: nat, pending: set<int>)

  datatype Sequenced = Sequenced(window: Sequencer, outcome: Result<bool, ErrorCode>)

  function AcceptSequence(q: Sequencer, f: Frame): Sequenced {
    if f.generation != q.generation then Sequenced(q, Ok(false))
    else if f.direction != q.direction then Sequenced(q, Err(ProtocolError))
    else if f.sequence <= q.highest || f.sequence in q.pending then Sequenced(q, Ok(false))
    else if f.sequence > q.highest + q.window then Sequenced(q, Err(ProtocolError))
    else Sequenced(Advance(q.(pending := q.pending + {f.sequence})), Ok(true))
  }

  function Advance(q: Sequencer): Sequencer
    decreases |q.pending|
  {
    if q.highest + 1 in q.pending
    then Advance(q.(pending := q.pending - {q.highest + 1}, highest := q.highest + 1))
    else q
  }

  class SequenceWindow {
    const generation: int
    const direction: Direction
    const window: int
    var highestContiguous: nat
    var pending: set<int>

    ghost function Model(): Sequencer
      reads this
    {
      Sequencer(generation, direction, window, highestContiguous, pending)
    }

    constructor (generation: int, direction: Direction, window: int)
      ensures Model() == Sequencer(generation, direction, window, 0, {})
    {
      this.generation, this.direction, this.window := generation, direction, window;
      highestContiguous, pending := 0, {};
    }

    method Receive(f: Frame) returns (outcome: Result<bool, ErrorCode>)
      modifies this
      ensures Sequenced(Model(), outcome) == AcceptSequence(old(Model()), f)
    {
      if f.generation != generation {
        return Ok(false);
      }
      if f.direction != direction {
        return Err(ProtocolError);
      }
      if f.sequence <= highestContiguous || f.sequence in pending {
        return Ok(false);
      }
      if f.sequence > highestContiguous + window {
        return Err(ProtocolError);
      }
      pending := pending + {f.sequence};
      ghost var added := Model();
      while highestContiguous + 1 in pending
        invariant Advance(Model()) == Advance(added)
        decreases |pending|
      {
        pending := pending - {highestContiguous + 1};
        highestContiguous := highestContiguous + 1;
      }
      return Ok(true);
    }
  }

  /** Both windows have delivered equally far and hold back the same sequences. */
  ghost predicate InStep(w: Window, q: Sequencer) {
    && q == Sequencer(w.generation, Input, WINDOW_FRAMES, w.highest, w.pending.Keys)
  }

  lemma {:induction false} DrainsInStep(w: Window, q: Sequencer)
    requires InStep(w, q)
    ensures InStep(Drain(w).0, Advance(q))
    decreases |w.pending|
  {
    if w.highest + 1 in w.pending {
      Shrinks(w.pending, w.highest + 1);
      assert Release(w).pending.Keys == w.pending.Keys - {w.highest + 1};
      DrainsInStep(Release(w), q.(pending := q.pending - {q.highest + 1}, highest := q.highest + 1));
    }
  }

  /** The bytes held leave room for the frame, if it has to be held at all. */
  ghost predicate WithinBudget(w: Window, f: Frame) {
    IsNew(w, f) && f.sequence <= w.highest + 64 ==> Held(w.pending) + |f.payload| <= 1_048_576
  }

  lemma StepsInStep(w: Window, q: Sequencer, f: Frame)
    requires Settled(w) && InStep(w, q)
    requires WithinBudget(w, f)
    ensures InStep(Accept(w, f).window, AcceptSequence(q, f).window)
    ensures Accept(w, f).outcome.Err? <==> AcceptSequence(q, f).outcome.Err?
    ensures AcceptSequence(q, f).outcome == Ok(true) <==> Accept(w, f).outcome.Ok? && Accept(w, f).window != w
  {
    RefusesExactly(w, f);
    if AcceptSequence(q, f).outcome == Ok(true) {
      var held := Hold(w, f);
      assert held.pending.Keys == w.pending.Keys + {f.sequence};
      DrainsInStep(held, q.(pending := q.pending + {f.sequence}));
      DrainKeeps(held, f.sequence);
    }
  }

  lemma {:induction false} DrainKeeps(w: Window, s: int)
    requires s in w.pending
    ensures s in Drain(w).0.pending || Drain(w).0.highest > w.highest
    ensures Drain(w).0.highest >= w.highest
    decreases |w.pending|
  {
    if w.highest + 1 in w.pending {
      Shrinks(w.pending, w.highest + 1);
      if s != w.highest + 1 {
        DrainKeeps(Release(w), s);
      } else {
        DrainRises(Release(w));
      }
    }
  }

  lemma {:induction false} DrainRises(w: Window)
    ensures Drain(w).0.highest >= w.highest
    decreases |w.pending|
  {
    if w.highest + 1 in w.pending {
      Shrinks(w.pending, w.highest + 1);
      DrainRises(Release(w));
    }
  }

  /** The states both windows go through under one arrival order; a raising call changes nothing. */
  function Windows(w: Window, fs: seq<Frame>): Window
    decreases |fs|
  {
    if fs == [] then w else Windows(Accept(w, fs[0]).window, fs[1..])
  }

  function Sequencers(q: Sequencer, fs: seq<Frame>): Sequencer
    decreases |fs|
  {
    if fs == [] then q else Sequencers(AcceptSequence(q, fs[0]).window, fs[1..])
  }

  ghost predicate BudgetHolds(w: Window, fs: seq<Frame>)
    decreases |fs|
  {
    fs == [] || (WithinBudget(w, fs[0]) && BudgetHolds(Accept(w, fs[0]).window, fs[1..]))
  }

  /** Whatever arrives, valid or not, the two windows stay in lockstep while the byte budget holds. */
  lemma {:induction false} Lockstep(w: Window, q: Sequencer, fs: seq<Frame>)
    requires Settled(w) && InStep(w, q)
    requires BudgetHolds(w, fs)
    ensures InStep(Windows(w, fs), Sequencers(q, fs))
    decreases |fs|
  {
    if fs != [] {
      StepsInStep(w, q, fs[0]);
      AcceptSettles(w, fs[0]);
      Lockstep(Accept(w, fs[0]).window, AcceptSequence(q, fs[0]).window, fs[1..]);
    }
  }
}
