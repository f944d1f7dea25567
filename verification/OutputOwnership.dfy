/** Which output owns the audio path of the local channel, and the bounded tombstones
    that keep late events of finished outputs and responses out of it. */
module OutputOwnership {
  import opened Common

  import S = SessionEvents

  const TOMBSTONES := 64

  type Output = S.Content

  /** Session events as the forwarder distinguishes them. */
  datatype Event =
    | Ready(correlationMatches: bool)
    | AudioStarted(output: Output)
    | Audio(output: Output, pcm: Bytes)
    | AudioCompleted(output: Output)
    | Finished(response: Id)
    | SessionEnd
    | Passed

  datatype Owner = Owner(
    ready: bool, ended: bool, active: Option<Output>,
    completed: set<Output>, completedOrder: seq<Output>,
    terminal: set<Id>, terminalOrder: seq<Id>)

  const START := Owner(false, false, None, {}, [], {}, [])

  /** What the forwarder did with an event. */
  datatype Action = Late | Fail | Announce | SendAudio(output: Output, pcm: Bytes) | Stop

  datatype Forwarded = Forwarded(owner: Owner, action: Action)

  // ---- bounded memory ----

  function Last<T>(n: nat, xs: seq<T>): seq<T> {
    if |xs| <= n then xs else xs[|xs| - n..]
  }

  /** Append to a bounded order queue, expiring from the front. */
  function Remember<T>(members: set<T>, order: seq<T>, x: T): (set<T>, seq<T>) {
    Expire(members + {x}, order + [x])
  }

  function Expire<T>(members: set<T>, order: seq<T>): (set<T>, seq<T>)
    decreases |order|
  {
    if |order| > TOMBSTONES then Expire(members - {order[0]}, order[1..]) else (members, order)
  }

  // ---- one event at a time ----

  function CompleteOutput(s: Owner, o: Output): Owner {
    var (members, order) := Remember(s.completed, s.completedOrder, o);
    s.(completed := members, completedOrder := order)
  }

  function FinishResponse(s: Owner, r: Id): Owner {
    if r in s.terminal then s
    else
      var (members, order) := Remember(s.terminal, s.terminalOrder, r);
      s.(terminal := members, terminalOrder := order)
  }

  function Forward(s: Owner, e: Event): Forwarded {
    if s.ended then Forwarded(s, Stop)
    else match e
      case Ready(matches) =>
        if s.ready || !matches then Forwarded(s.(ended := true), Fail)
        else Forwarded(s.(ready := true), Announce)
      case AudioStarted(o) =>
        if o.response in s.terminal then Forwarded(s, Late)
        else if s.active.Some? && s.active.value != o then Forwarded(s.(ended := true), Fail)
        else if o in s.completed then Forwarded(s, Late)
        else Forwarded(s.(active := Some(o)), Announce)
      case Audio(o, pcm) =>
        if o.response in s.terminal || o in s.completed then Forwarded(s, Late)
        else if s.active != Some(o) then Forwarded(s.(ended := true), Fail)
        else Forwarded(s, SendAudio(o, pcm))
      case AudioCompleted(o) =>
        if o.response in s.terminal || o in s.completed then Forwarded(s, Late)
        else if s.active != Some(o) then Forwarded(s.(ended := true), Fail)
        else Forwarded(CompleteOutput(s.(active := None), o), Announce)
      case Finished(r) =>
        var s1 := FinishResponse(s, r);
        if s.active.Some? && s.active.value.response == r
        then Forwarded(CompleteOutput(s1.(active := None), s.active.value), Announce)
        else Forwarded(s1, Announce)
      case SessionEnd => Forwarded(s.(ended := true), Stop)
      case Passed => Forwarded(s, Announce)
  }

  /** The forwarder's part of the controller. */
  class Forwarder {
    var ready: bool
    var ended: bool
    var activeOutput: Option<Output>
    var completedOutputs: set<Output>
    var completedOutputOrder: seq<Output>
    var terminalResponses: set<Id>
    var terminalResponseOrder: seq<Id>

    ghost function Model(): Owner
      reads this
    {
      Owner(ready, ended, activeOutput, completedOutputs, completedOutputOrder,
            terminalResponses, terminalResponseOrder)
    }

    constructor ()
      ensures Model() == START
    {
      ready, ended, activeOutput := false, false, None;
      completedOutputs, completedOutputOrder := {}, [];
      terminalResponses, terminalResponseOrder := {}, [];
    }

    method RememberCompletedOutput(o: Output)
      modifies this`completedOutputs, this`completedOutputOrder
      ensures Model() == CompleteOutput(old(Model()), o)
    {
      completedOutputs := completedOutputs + {o};
      completedOutputOrder := completedOutputOrder + [o];
      while |completedOutputOrder| > TOMBSTONES
        invariant Expire(completedOutputs, completedOutputOrder)
               == Remember(old(completedOutputs), old(completedOutputOrder), o)
        decreases |completedOutputOrder|
      {
        var expired := completedOutputOrder[0];
        completedOutputOrder := completedOutputOrder[1..];
        completedOutputs := completedOutputs - {expired};
      }
    }

    method RememberTerminalResponse(r: Id)
      modifies this`terminalResponses, this`terminalResponseOrder
      ensures Model() == FinishResponse(old(Model()), r)
    {
      if r in terminalResponses {
        return;
      }
      terminalResponses := terminalResponses + {r};
      terminalResponseOrder := terminalResponseOrder + [r];
      while |terminalResponseOrder| > TOMBSTONES
        invariant Expire(terminalResponses, terminalResponseOrder)
               == Remember(old(terminalResponses), old(terminalResponseOrder), r)
        decreases |terminalResponseOrder|
      {
        var expired := terminalResponseOrder[0];
        terminalResponseOrder := terminalResponseOrder[1..];
        terminalResponses := terminalResponses - {expired};
      }
    }

    method ForwardEvent(e: Event) returns (action: Action)
      modifies this
      ensures Forwarded(Model(), action) == Forward(old(Model()), e)
    {
      if ended {
        return Stop;
      }
      match e {
        case Ready(matches) =>
          if ready || !matches {
            ended := true;
            return Fail;
          }
          ready := true;
          return Announce;
        case AudioStarted(o) =>
          if o.response in terminalResponses {
            return Late;
          }
          if activeOutput.Some? && activeOutput.value != o {
            ended := true;
            return Fail;
          }
          if o in completedOutputs {
            return Late;
          }
          activeOutput := Some(o);
          return Announce;
        case Audio(o, pcm) =>
          if o.response in terminalResponses || o in completedOutputs {
            return Late;
          }
          if activeOutput != Some(o) {
            ended := true;
            return Fail;
          }
          return SendAudio(o, pcm);
        case AudioCompleted(o) =>
          if o.response in terminalResponses || o in completedOutputs {
            return Late;
          }
          if activeOutput != Some(o) {
            ended := true;
            return Fail;
          }
          activeOutput := None;
          RememberCompletedOutput(o);
          return Announce;
        case Finished(r) =>
          RememberTerminalResponse(r);
          if activeOutput.Some? && activeOutput.value.response == r {
            var active := activeOutput.value;
            activeOutput := None;
            RememberCompletedOutput(active);
          }
          return Announce;
        case SessionEnd =>
          ended := true;
          return Stop;
        case Passed =>
          return Announce;
      }
    }
  }

  // ---- the bounded sets against full history ----

  /** The set and the queue both hold exactly the last entries of everything remembered. */
  ghost predicate Mirrors<T(!new)>(members: set<T>, order: seq<T>, history: seq<T>) {
    && order == Last(TOMBSTONES, history)
    && Distinct(order)
    && members == Elements(order)
  }

  lemma RememberMirrors<T(!new)>(members: set<T>, order: seq<T>, history: seq<T>, x: T)
    requires Mirrors(members, order, history)
    requires x !in members
    ensures var (members', order') := Remember(members, order, x); Mirrors(members', order', history + [x])
  {
    var order1, members1 := order + [x], members + {x};
    assert Distinct(order1);
    assert members1 == Elements(order1);
    if |order1| > TOMBSTONES {
      assert order1[1..] == Last(TOMBSTONES, history + [x]);
      assert members1 - {order1[0]} == Elements(order1[1..]) by {
        assert order1 == [order1[0]] + order1[1..];
        assert forall i :: 1 <= i < |order1| ==> order1[i] != order1[0];
      }
      assert Expire(members1, order1) == Expire(members1 - {order1[0]}, order1[1..]);
    }
  }

  // ---- whole runs ----

  /** What the product and the audio path saw, in order. */
  datatype Mark =
    | Opened(output: Output)
    | Sounded(output: Output, pcm: Bytes)
    | Closed(output: Output)
    | Ended(response: Id)

  datatype History = History(owner: Owner, outputs: seq<Output>, responses: seq<Id>, marks: seq<Mark>)

  function Step(h: History, e: Event): History {
    var Forwarded(owner, action) := Forward(h.owner, e);
    var h1 := h.(owner := owner);
    if h.owner.ended || action == Late || action == Fail then h1
    else match e
      case AudioStarted(o) => h1.(marks := h.marks + [Opened(o)])
      case Audio(o, pcm) => h1.(marks := h.marks + [Sounded(o, pcm)])
      case AudioCompleted(o) => h1.(marks := h.marks + [Closed(o)], outputs := h.outputs + [o])
      case Finished(r) =>
        h1.(marks := h.marks + [Ended(r)],
            responses := if r in h.owner.terminal then h.responses else h.responses + [r],
            outputs := if h.owner.active.Some? && h.owner.active.value.response == r
                       then h.outputs + [h.owner.active.value] else h.outputs)
      case _ => h1
  }

  function Run(events: seq<Event>): History
    decreases |events|
  {
    if events == [] then History(START, [], [], [])
    else Step(Run(events[..|events| - 1]), events[|events| - 1])
  }

  /** The output that is open after one more mark. */
  function OpenAfter(open: Option<Output>, m: Mark): Option<Output> {
    match m
    case Opened(o) => Some(o)
    case Sounded(_, _) => open
    case Closed(_) => None
    case Ended(r) => if open.Some? && open.value.response == r then None else open
  }

  /** The output that is open after these marks. */
  function Open(marks: seq<Mark>): Option<Output>
    decreases |marks|
  {
    if marks == [] then None
    else OpenAfter(Open(marks[..|marks| - 1]), marks[|marks| - 1])
  }

  /** Audio only ever sounds for the output that is open at that moment. */
  ghost predicate SoundsInPlace(marks: seq<Mark>) {
    forall i :: 0 <= i < |marks| && marks[i].Sounded? ==> Open(marks[..i]) == Some(marks[i].output)
  }

  ghost predicate Consistent(h: History) {
    && Mirrors(h.owner.completed, h.owner.completedOrder, h.outputs)
    && Mirrors(h.owner.terminal, h.owner.terminalOrder, h.responses)
    && h.owner.active == Open(h.marks)
    && SoundsInPlace(h.marks)
    && (h.owner.active.Some? ==>
         && h.owner.active.value !in h.owner.completed
         && h.owner.active.value.response !in h.owner.terminal)
  }

  /** Over every event stream: completed outputs and terminal responses are exactly the last
      64 remembered, with set and queue in agreement and duplicate-free; the active output is
      not among the completed, its response is not tombstoned; and audio is framed only for
      the output open at that moment. */
  lemma {:induction false} TombstonesFaithful(events: seq<Event>)
    ensures Consistent(Run(events))
    decreases |events|
  {
    if events != [] {
      TombstonesFaithful(events[..|events| - 1]);
      StepConsistent(Run(events[..|events| - 1]), events[|events| - 1]);
    }
  }

  lemma StepConsistent(h: History, e: Event)
    requires Consistent(h)
    ensures Consistent(Step(h, e))
  {
    hide Consistent, Step;
    match e
    case AudioCompleted(o) => CompletionConsistent(h, o);
    case Finished(r) => FinishConsistent(h, r);
    case _ => OtherConsistent(h, e);
  }

  lemma OtherConsistent(h: History, e: Event)
    requires Consistent(h) && !e.AudioCompleted? && !e.Finished?
    ensures Consistent(Step(h, e))
  {
    hide Mirrors, Open, SoundsInPlace;
    var h' := Step(h, e);
    if h'.marks != h.marks {
      MarkAdded(h.marks, h'.marks[|h.marks|]);
    }
  }

  lemma CompletionConsistent(h: History, o: Output)
    requires Consistent(h)
    ensures Consistent(Step(h, AudioCompleted(o)))
  {
    hide Mirrors, Open, SoundsInPlace, Remember;
    MarkAdded(h.marks, Closed(o));
    if h.owner.active == Some(o) {
      RememberMirrors(h.owner.completed, h.owner.completedOrder, h.outputs, o);
    }
  }

  lemma FinishConsistent(h: History, r: Id)
    requires Consistent(h)
    ensures Consistent(Step(h, Finished(r)))
  {
    hide Mirrors, Open, SoundsInPlace, Remember;
    MarkAdded(h.marks, Ended(r));
    if r !in h.owner.terminal {
      RememberMirrors(h.owner.terminal, h.owner.terminalOrder, h.responses, r);
      NewTombstone(h.owner, r, h.responses);
    }
    if h.owner.active.Some? {
      RememberMirrors(h.owner.completed, h.owner.completedOrder, h.outputs, h.owner.active.value);
    }
  }

  lemma MarkAdded(marks: seq<Mark>, m: Mark)
    requires SoundsInPlace(marks)
    ensures Open(marks + [m]) == OpenAfter(Open(marks), m)
    ensures (m.Sounded? ==> Open(marks) == Some(m.output)) ==> SoundsInPlace(marks + [m])
  {
    var marks' := marks + [m];
    assert marks'[..|marks|] == marks;
    if m.Sounded? ==> Open(marks) == Some(m.output) {
      forall i | 0 <= i < |marks'| && marks'[i].Sounded?
        ensures Open(marks'[..i]) == Some(marks'[i].output)
      {
        assert marks'[..i] == marks[..i];
      }
    }
  }

  /** Remembering a response tombstones no response but that one. */
  lemma NewTombstone(s: Owner, r: Id, history: seq<Id>)
    requires Mirrors(s.terminal, s.terminalOrder, history) && r !in s.terminal
    ensures FinishResponse(s, r).terminal <= s.terminal + {r}
  {
    RememberMirrors(s.terminal, s.terminalOrder, history, r);
    forall x | x in FinishResponse(s, r).terminal ensures x in s.terminal + {r} {
      var order' := FinishResponse(s, r).terminalOrder;
      var i :| 0 <= i < |order'| && order'[i] == x;
      if |history| + 1 <= TOMBSTONES {
        assert order' == history + [r];
      } else {
        assert order' == (history + [r])[|history| + 1 - TOMBSTONES..];
        if i < TOMBSTONES - 1 {
          assert x == history[|history| + 1 - TOMBSTONES + i];
          assert x in Last(TOMBSTONES, history);
        }
      }
    }
  }

  /** A tombstone answers as full history would for everything remembered recently. */
  lemma RecentHistoryAnswered(events: seq<Event>, o: Output, r: Id)
    ensures var h := Run(events);
            && (o in h.owner.completed <==> o in Last(TOMBSTONES, h.outputs))
            && (r in h.owner.terminal <==> r in Last(TOMBSTONES, h.responses))
            && (|h.outputs| <= TOMBSTONES ==> (o in h.owner.completed <==> o in h.outputs))
            && (|h.responses| <= TOMBSTONES ==> (r in h.owner.terminal <==> r in h.responses))
  {
    TombstonesFaithful(events);
  }

  // ---- exactly what becomes of each event ----

  /** A late event is one of an output among the last 64 completed, or of a response among the last 64
      finished. */
  ghost predicate IsLate(h: History, o: Output) {
    o in Last(64, h.outputs) || o.response in Last(64, h.responses)
  }

  lemma LateIsTombstoned(h: History, o: Output)
    requires Consistent(h)
    ensures o in h.owner.completed <==> o in Last(64, h.outputs)
    ensures o.response in h.owner.terminal <==> o.response in Last(64, h.responses)
    ensures Open(h.marks) == Some(o) ==> !IsLate(h, o)
  {
    hide Open, SoundsInPlace;
  }

  /** Audio sounds exactly when its output is the open one, is dropped without a trace exactly when it
      is late, and otherwise ends the call. */
  lemma AudioExactly(h: History, o: Output, pcm: Bytes)
    requires Consistent(h) && !h.owner.ended
    ensures var h' := Step(h, Audio(o, pcm));
            && (Open(h.marks) == Some(o) ==>
                 && h' == h.(marks := h.marks + [Sounded(o, pcm)])
                 && Forward(h.owner, Audio(o, pcm)).action == SendAudio(o, pcm))
            && (IsLate(h, o) ==> h' == h && Forward(h.owner, Audio(o, pcm)).action == Late)
            && (Open(h.marks) != Some(o) && !IsLate(h, o) ==>
                 h' == h.(owner := h.owner.(ended := true)) && Forward(h.owner, Audio(o, pcm)).action == Fail)
  {
    hide Mirrors, Open, SoundsInPlace, Last;
    LateIsTombstoned(h, o);
  }

  /** An output opens exactly when none but itself is open and it is not late; a late one is dropped,
      and a second one beside the open one ends the call. */
  lemma StartExactly(h: History, o: Output)
    requires Consistent(h) && !h.owner.ended
    ensures var h' := Step(h, AudioStarted(o));
            var other := Open(h.marks).Some? && Open(h.marks) != Some(o);
            && (!other && !IsLate(h, o) ==>
                 && h'.marks == h.marks + [Opened(o)] && Open(h'.marks) == Some(o) && !h'.owner.ended
                 && h'.outputs == h.outputs && h'.responses == h.responses
                 && Forward(h.owner, AudioStarted(o)).action == Announce)
            && (o.response in Last(64, h.responses) || (!other && IsLate(h, o)) ==> h' == h)
            && (other && o.response !in Last(64, h.responses) ==> h' == h.(owner := h.owner.(ended := true)))
  {
    hide Mirrors, Open, SoundsInPlace, Last;
    LateIsTombstoned(h, o);
    assert Open(h.marks + [Opened(o)]) == Some(o) by { MarkAdded(h.marks, Opened(o)); }
  }

  /** An output completes exactly when it is the open one; then it is remembered and nothing is open.
      A late completion is dropped, any other ends the call. */
  lemma CompletionExactly(h: History, o: Output)
    requires Consistent(h) && !h.owner.ended
    ensures var h' := Step(h, AudioCompleted(o));
            && (Open(h.marks) == Some(o) ==>
                 && h'.marks == h.marks + [Closed(o)] && Open(h'.marks) == None && !h'.owner.ended
                 && h'.outputs == h.outputs + [o] && h'.responses == h.responses
                 && Forward(h.owner, AudioCompleted(o)).action == Announce)
            && (IsLate(h, o) ==> h' == h)
            && (Open(h.marks) != Some(o) && !IsLate(h, o) ==> h' == h.(owner := h.owner.(ended := true)))
  {
    hide Mirrors, Open, SoundsInPlace, Last, Remember;
    LateIsTombstoned(h, o);
    assert Open(h.marks + [Closed(o)]) == None by { MarkAdded(h.marks, Closed(o)); }
  }

  /** The end of a response is always announced; it is remembered unless it was, and completes the open
      output exactly when that output is of this response. */
  lemma FinishExactly(h: History, r: Id)
    requires Consistent(h) && !h.owner.ended
    ensures var h', open := Step(h, Finished(r)), Open(h.marks);
            var mine := open.Some? && open.value.response == r;
            && h'.marks == h.marks + [Ended(r)] && !h'.owner.ended
            && Open(h'.marks) == (if mine then None else open)
            && h'.responses == (if r in Last(64, h.responses) then h.responses else h.responses + [r])
            && h'.outputs == (if mine then h.outputs + [open.value] else h.outputs)
            && Forward(h.owner, Finished(r)).action == Announce
  {
    hide Open, SoundsInPlace, Remember;
    assert Open(h.marks + [Ended(r)]) == OpenAfter(Open(h.marks), Ended(r)) by { MarkAdded(h.marks, Ended(r)); }
    assert r in h.owner.terminal <==> r in Last(64, h.responses);
  }

  /** The call becomes ready at the first ready event of its own correlation, and ends at any other;
      it ends with the session; every other event is announced and changes nothing; and once ended it
      takes no event at all. */
  lemma OthersExactly(h: History, e: Event)
    requires e.Ready? || e.SessionEnd? || e.Passed? || h.owner.ended
    ensures var h', action := Step(h, e), Forward(h.owner, e).action;
            && (h.owner.ended || e.Passed? ==> h' == h)
            && (h.owner.ended || e.SessionEnd? ==> action == Stop)
            && (!h.owner.ended && e.Passed? ==> action == Announce)
            && (!h.owner.ended && e.SessionEnd? ==> h' == h.(owner := h.owner.(ended := true)))
            && (!h.owner.ended && e.Ready? ==>
                 action == if !h.owner.ready && e.correlationMatches then Announce else Fail)
            && (!h.owner.ended && e.Ready? ==>
                 h' == h.(owner := if !h.owner.ready && e.correlationMatches then h.owner.(ready := true)
                                   else h.owner.(ended := true)))
  {
  }

  // ---- all audio of an output ----

  /** The audio that sounded for an output, and the audio the session sent for it. */
  function SoundOf(marks: seq<Mark>, o: Output): seq<Bytes>
    decreases |marks|
  {
    if marks == [] then []
    else
      var earlier := SoundOf(marks[..|marks| - 1], o);
      match marks[|marks| - 1]
      case Sounded(other, pcm) => if other == o then earlier + [pcm] else earlier
      case _ => earlier
  }

  function AudioOf(events: seq<Event>, o: Output): seq<Bytes>
    decreases |events|
  {
    if events == [] then []
    else
      var earlier := AudioOf(events[..|events| - 1], o);
      match events[|events| - 1]
      case Audio(other, pcm) => if other == o then earlier + [pcm] else earlier
      case _ => earlier
  }

  /** While an output is open and the call goes on, all audio of it sounds, in order and once each,
      whatever else happens. */
  lemma {:induction false} AllAudioSounds(before: seq<Event>, o: Output, during: seq<Event>)
    requires Open(Run(before).marks) == Some(o)
    requires !Run(before + during).owner.ended
    requires AudioCompleted(o) !in during && Finished(o.response) !in during
    ensures Open(Run(before + during).marks) == Some(o)
    ensures SoundOf(Run(before + during).marks, o) == SoundOf(Run(before).marks, o) + AudioOf(during, o)
    decreases |during|
  {
    hide Open, SoundOf, Consistent, Step;
    if during == [] {
      assert before + during == before;
    } else {
      var n := |during| - 1;
      var earlier, e := during[..n], during[n];
      var all := before + during;
      assert all[..|all| - 1] == before + earlier && all[|all| - 1] == e;
      var h := Run(before + earlier);
      if h.owner.ended {
        OthersExactly(h, e);
      }
      AllAudioSounds(before, o, earlier);
      TombstonesFaithful(before + earlier);
      StaysOpen(h, e, o);
    }
  }

  lemma StaysOpen(h: History, e: Event, o: Output)
    requires Consistent(h) && !h.owner.ended && !Step(h, e).owner.ended
    requires Open(h.marks) == Some(o) && e != AudioCompleted(o) && e != Finished(o.response)
    ensures Open(Step(h, e).marks) == Some(o)
    ensures SoundOf(Step(h, e).marks, o) == SoundOf(h.marks, o) + (if e.Audio? && e.output == o then [e.pcm] else [])
  {
    hide Open, Consistent, Step, SoundOf;
    forall m ensures SoundOf(h.marks + [m], o)
      == if m.Sounded? && m.output == o then SoundOf(h.marks, o) + [m.pcm] else SoundOf(h.marks, o)
    {
      SoundAdded(h.marks, m, o);
    }
    assert SoundOf(h.marks, o) + [] == SoundOf(h.marks, o);
    match e
    case AudioStarted(other) => StartExactly(h, other);
    case Audio(other, pcm) =>
      AudioExactly(h, other, pcm);
      OpenAdded(h, Sounded(other, pcm));
    case AudioCompleted(other) => CompletionExactly(h, other);
    case Finished(r) => FinishExactly(h, r);
    case _ => OthersExactly(h, e);
  }

  lemma SoundAdded(marks: seq<Mark>, m: Mark, o: Output)
    ensures SoundOf(marks + [m], o)
         == if m.Sounded? && m.output == o then SoundOf(marks, o) + [m.pcm] else SoundOf(marks, o)
  {
    assert (marks + [m])[..|marks|] == marks;
  }

  lemma OpenAdded(h: History, m: Mark)
    requires Consistent(h)
    ensures Open(h.marks + [m]) == OpenAfter(Open(h.marks), m)
  {
    MarkAdded(h.marks, m);
  }
}
