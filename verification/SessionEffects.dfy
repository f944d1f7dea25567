/** What the operations of a managed session bring about: not only what they keep, but exactly what
    they record, let through, refuse and end (session.py). */
module SessionEffects {
  import opened Common
  import opened SessionEvents
  import opened Session
  import opened SessionSafety
  import opened SessionRuns
  import Q = SessionQueue
  import B = ResponseBook
  import T = ToolCalls

  // ---- what a decoded event must fit ----

  /** What the event says of responses, items, contents and tool results agrees with what happened
      before, in terms of the log: what it introduces is new and hangs together, what it completes was
      added and is not complete, and an echo repeats the recorded output. */
  ghost predicate Agrees(s: State, d: Decoded) {
    && (d.response.Some? ==>
         Introduced(d.response.value) !in s.log && B.WellKept(B.Introduce(s.book, d.response.value)))
    && (d.item.Some? ==>
         && (Introduced(d.item.value.0) in s.log || d.response == Some(d.item.value.0))
         && ItemAdded(d.item.value) !in s.log
         && d.detail.Some? && (d.detail.value.response, d.detail.value.item) == d.item.value)
    && (d.content.Some? ==>
         && ItemKnown(s, d, (d.content.value.response, d.content.value.item))
         && ContentAdded(d.content.value) !in s.log)
    && (d.echo.Some? ==>
         && d.echo.value.call in s.desk.tools && d.echo.value.wellFormed
         && s.desk.tools[d.echo.value.call].output == Some(d.echo.value.output))
    && (d.completedContent.Some? ==>
         && (ContentAdded(d.completedContent.value) in s.log || d.content == d.completedContent)
         && ContentDone(d.completedContent.value) !in s.log)
    && (d.completedItem.Some? ==>
         ItemKnown(s, d, d.completedItem.value) && d.completedItem.value !in s.book.completedItems)
  }

  ghost predicate ItemKnown(s: State, d: Decoded, item: (Id, Id)) {
    ItemAdded(item) in s.log || d.item == Some(item)
  }

  /** The sets of a sound session are the marks of its log. */
  lemma SetsAreMarks(c: Config, s: State)
    requires Sound(c, s)
    ensures forall r :: r in s.book.responses <==> Introduced(r) in s.log
    ensures forall i :: i in s.book.items <==> ItemAdded(i) in s.log
    ensures forall k :: k in s.book.contents <==> ContentAdded(k) in s.log
    ensures forall k :: k in s.book.completedContents <==> ContentDone(k) in s.log
    ensures forall r :: r in s.book.cancelled <==> CancelledLocally(r) in s.log
    ensures B.WellKept(s.book) && T.Orderly(s.desk)
  {
    hide Q.Accounted, Q.InputAccounted, B.WellKept, T.Orderly, Disciplined, EndsOnce, Conserved, FinishedIn;
  }

  /** The books after a decoded event that agrees with them: everything it introduces is in. */
  function Booked(b: B.Book, d: Decoded): B.Book {
    WithContent(WithItem(if d.response.Some? then B.Introduce(b, d.response.value) else b, d), d)
  }

  function WithItem(b: B.Book, d: Decoded): B.Book {
    if d.item.None? then b
    else
      var b1 := b.(items := b.items + {d.item.value});
      if d.detail.Some? && d.detail.value.isFunctionCall
      then b1.(functionItems := b1.functionItems + {(d.item.value.0, d.item.value.1, d.detail.value.outputIndex)})
      else b1
  }

  function WithContent(b: B.Book, d: Decoded): B.Book {
    if d.content.Some? then b.(contents := b.contents + {d.content.value}) else b
  }

  /** The session ends with a protocol error, unless its end is already decided. */
  ghost predicate EndsInError(s: State, f: Flow) {
    && f.Stop?
    && f.state.owner.Some?
    && (s.owner.None? ==>
         && f.state.published && f.state.log != []
         && f.state.log[|f.state.log| - 1] == Enqueued(SessionFailed(ProtocolError, false)))
  }

  lemma BrokenEnds(c: Config, s: State, s': State)
    requires s'.owner == s.owner
    ensures Broken(c, s').Stop? && EndsInError(s, Broken(c, s'))
  {
    hide Q.PutTerminal;
  }

  lemma ResponseStageExactly(c: Config, s: State, d: Decoded)
    requires B.WellKept(s.book)
    ensures var f := ResponseStage(c, s, d);
            && (f.Go? <==> d.response.Some? ==>
                 d.response.value !in s.book.responses && B.WellKept(B.Introduce(s.book, d.response.value)))
            && (f.Go? ==>
                 && f.state.book == (if d.response.Some? then B.Introduce(s.book, d.response.value) else s.book)
                 && f.state.owner == s.owner && f.state.published == s.published
                 && f.state.desk == (if d.response.Some? then T.Next(s.desk, T.Responding) else s.desk)
                 && SameOutputs(s.desk, f.state.desk))
            && (!f.Go? ==> EndsInError(s, f))
  {
    hide B.WellKept, B.MayIntroduce, Broken, EndsInError;
    BrokenEnds(c, s, s);
    StartsKeepOutputs(s.desk);
    if d.response.Some? {
      if d.response.value !in s.book.responses {
        B.IntroducesExactly(s.book, d.response.value);
      } else {
        KnownIsNotNew(s.book, d.response.value);
      }
    }
  }

  lemma KnownIsNotNew(b: B.Book, r: Id)
    requires r in b.responses
    ensures !B.MayIntroduce(b, r)
  {
  }

  ghost predicate SameOutputs(d: T.Desk, d': T.Desk) {
    d'.tools.Keys == d.tools.Keys && forall call :: call in d.tools ==> d'.tools[call].output == d.tools[call].output
  }

  lemma StartsKeepOutputs(d: T.Desk)
    ensures SameOutputs(d, d) && SameOutputs(d, T.ResponseStarts(d))
  {
  }

  lemma ItemStageExactly(c: Config, s: State, d: Decoded)
    ensures var f := ItemStage(c, s, d);
            && (f.Go? <==> d.item.Some? ==>
                 && d.item.value.0 in s.book.responses && d.item.value !in s.book.items
                 && d.detail.Some? && (d.detail.value.response, d.detail.value.item) == d.item.value)
            && (f.Go? ==>
                 && f.state.book == WithItem(s.book, d)
                 && f.state.owner == s.owner && f.state.published == s.published && f.state.desk == s.desk)
            && (!f.Go? ==> EndsInError(s, f))
  {
    hide Broken, EndsInError;
    BrokenEnds(c, s, s);
    if d.item.Some? {
      var item := d.item.value;
      BrokenEnds(c, s, s.(book := s.book.(items := s.book.items + {item}), log := s.log + [ItemAdded(item)]));
    }
  }

  lemma ContentStageExactly(c: Config, s: State, d: Decoded)
    ensures var f := ContentStage(c, s, d);
            && (f.Go? <==> d.content.Some? ==>
                 && (d.content.value.response, d.content.value.item) in s.book.items
                 && d.content.value !in s.book.contents)
            && (f.Go? ==>
                 && f.state.book == WithContent(s.book, d)
                 && f.state.owner == s.owner && f.state.published == s.published && f.state.desk == s.desk)
            && (!f.Go? ==> EndsInError(s, f))
  {
    hide Broken, EndsInError;
    BrokenEnds(c, s, s);
  }

  lemma EchoStageExactly(c: Config, s: State, d: Decoded)
    ensures var f := EchoStage(c, s, d);
            && (f.Go? <==> d.echo.Some? ==>
                 && d.echo.value.call in s.desk.tools && d.echo.value.wellFormed
                 && s.desk.tools[d.echo.value.call].output == Some(d.echo.value.output))
            && (f.Go? ==>
                 && f.state.book == s.book && f.state.owner == s.owner && f.state.published == s.published
                 && f.state.desk == Echoed(s.desk, d))
            && (!f.Go? ==> EndsInError(s, f))
  {
    hide Broken, EndsInError;
    BrokenEnds(c, s, s);
  }

  /** The tool calls after the echo of a result, if the event has one. */
  function Echoed(desk: T.Desk, d: Decoded): T.Desk {
    if d.echo.None? then desk
    else T.Next(desk, T.Acking(d.echo.value.call, d.echo.value.output, d.echo.value.wellFormed))
  }

  lemma CompletionCheckExactly(c: Config, s: State, d: Decoded)
    ensures var f := CompletionCheck(c, s, d);
            && (f.Go? <==>
                 && (d.completedContent.Some? ==>
                      d.completedContent.value in s.book.contents
                      && d.completedContent.value !in s.book.completedContents)
                 && (d.completedItem.Some? ==>
                      d.completedItem.value in s.book.items && d.completedItem.value !in s.book.completedItems))
            && (f.Go? ==> f.state == s)
            && (!f.Go? ==> EndsInError(s, f))
  {
    hide Broken, EndsInError;
    BrokenEnds(c, s, s);
  }

  /** The same agreement in terms of the session's sets. */
  ghost predicate AgreesInSets(b: B.Book, desk: T.Desk, d: Decoded) {
    && (d.response.Some? ==> d.response.value !in b.responses && B.WellKept(B.Introduce(b, d.response.value)))
    && (d.item.Some? ==>
         && (d.item.value.0 in b.responses || d.response == Some(d.item.value.0))
         && d.item.value !in b.items
         && d.detail.Some? && (d.detail.value.response, d.detail.value.item) == d.item.value)
    && (d.content.Some? ==>
         var item := (d.content.value.response, d.content.value.item);
         (item in b.items || d.item == Some(item)) && d.content.value !in b.contents)
    && (d.echo.Some? ==>
         && d.echo.value.call in desk.tools && d.echo.value.wellFormed
         && desk.tools[d.echo.value.call].output == Some(d.echo.value.output))
    && (d.completedContent.Some? ==>
         && (d.completedContent.value in b.contents || d.content == d.completedContent)
         && d.completedContent.value !in b.completedContents)
    && (d.completedItem.Some? ==>
         && (d.completedItem.value in b.items || d.item == d.completedItem)
         && d.completedItem.value !in b.completedItems)
  }

  lemma BooksFit(c: Config, s: State, d: Decoded)
    requires B.WellKept(s.book)
    ensures Bookkeeping(c, s, d).Go? <==> AgreesInSets(s.book, s.desk, d)
    ensures Bookkeeping(c, s, d).Go? ==>
      && Bookkeeping(c, s, d).state.book == Booked(s.book, d)
      && Bookkeeping(c, s, d).state.desk ==
           Echoed(if d.response.Some? then T.Next(s.desk, T.Responding) else s.desk, d)
      && Bookkeeping(c, s, d).state.published == s.published
    ensures !Bookkeeping(c, s, d).Go? ==> EndsInError(s, Bookkeeping(c, s, d))
  {
    hide ResponseStage, ItemStage, ContentStage, EchoStage, CompletionCheck, B.WellKept, T.Next, Echoed;
    ResponseStageExactly(c, s, d);
    var f1 := ResponseStage(c, s, d);
    if f1.Go? {
      ItemStageExactly(c, f1.state, d);
      var f2 := ItemStage(c, f1.state, d);
      if f2.Go? {
        ContentStageExactly(c, f2.state, d);
        var f3 := ContentStage(c, f2.state, d);
        if f3.Go? {
          EchoStageExactly(c, f3.state, d);
          var f4 := EchoStage(c, f3.state, d);
          if f4.Go? {
            CompletionCheckExactly(c, f4.state, d);
          }
        }
      }
    }
  }

  /** Bookkeeping goes on exactly when the event agrees with what happened before; otherwise the session
      ends with a protocol error. When it goes on, everything the event introduces is recorded. */
  lemma BooksExactly(c: Config, s: State, d: Decoded)
    requires Sound(c, s)
    ensures Bookkeeping(c, s, d).Go? <==> Agrees(s, d)
    ensures Bookkeeping(c, s, d).Go? ==>
      && Bookkeeping(c, s, d).state.book == Booked(s.book, d)
      && Bookkeeping(c, s, d).state.desk ==
           Echoed(if d.response.Some? then T.Next(s.desk, T.Responding) else s.desk, d)
      && Bookkeeping(c, s, d).state.published == s.published
    ensures !Bookkeeping(c, s, d).Go? ==> EndsInError(s, Bookkeeping(c, s, d))
  {
    hide Sound, Bookkeeping, B.WellKept, B.Introduce, T.Orderly, T.Next, Echoed, Booked, EndsInError;
    SetsAreMarks(c, s);
    BooksFit(c, s, d);
  }

  // ---- a decoded event from beginning to end ----

  /** An event the session handles at all: it is this session's, and no rejection of a context
      request somebody waits for. */
  predicate Handles(s: State, d: Decoded) {
    s.current && !(d.rejected.Some? && d.rejected.value in s.contextPending)
  }

  /** What is left alone, what makes the session ready, and what is refused before it is: an event of a
      superseded session and a rejection somebody waits for change nothing; nothing but a session
      acknowledgement or readiness is taken before the session is ready; it becomes ready once,
      telling the product first; and an acknowledgement has no further effect. */
  lemma ReadinessExactly(c: Config, s: State, d: Decoded)
    ensures var f := Apply(c, s, d);
            var becomes := d.providerReady && !s.ready;
            && (!Handles(s, d) ==> f == Done(s))
            && (Handles(s, d) && !s.ready && !d.providerReady && !d.acknowledged ==> EndsInError(s, f))
            && (Handles(s, d) && becomes && !Q.Fits(c.limits, s.queue, SessionReady) ==>
                 f == Stop(Fail(c, s.(ready := true), Busy, false)))
            && (Handles(s, d) && becomes && Q.Fits(c.limits, s.queue, SessionReady) ==>
                 f == Apply(c, Enqueue(s.(ready := true), Q.Put(c.limits, s.queue, SessionReady), SessionReady), d))
            && (Handles(s, d) && !becomes && d.acknowledged ==> f == Done(s))
  {
    hide Bookkeeping, ApplyEvents, EndsInError, Broken, Q.Put, Fail;
    BrokenEnds(c, s, s);
  }

  /** Past that, an event is handled in full, in this order: bookkeeping, its events, its completions;
      and it ends the session where one of them does. */
  lemma HandlesInTurn(c: Config, s: State, d: Decoded)
    requires Sound(c, s) && Handles(s, d) && s.ready && !d.acknowledged
    ensures !Agrees(s, d) ==> EndsInError(s, Apply(c, s, d))
    ensures Agrees(s, d) ==>
      var f := ApplyEvents(c, Bookkeeping(c, s, d).state, d, TerminalBatch(d), d.events);
      && !f.Done?
      && (f.Stop? ==> Apply(c, s, d) == f)
      && (f.Go? ==> Apply(c, s, d).Done?)
  {
    hide Sound, Agrees, Bookkeeping, ApplyEvents, Complete, EndsInError;
    BooksExactly(c, s, d);
    EventsGoOrStop(c, Bookkeeping(c, s, d).state, d, TerminalBatch(d), d.events);
    assert Bookkeeping(c, s, d).Go? || Bookkeeping(c, s, d).Stop? by { StopsWhenBroken(c, s, d); }
  }

  lemma StopsWhenBroken(c: Config, s: State, d: Decoded)
    requires Sound(c, s)
    ensures !Bookkeeping(c, s, d).Go? ==> Bookkeeping(c, s, d).Stop?
  {
    hide Sound, Bookkeeping, Agrees;
    BooksExactly(c, s, d);
  }

  /** Handling events either goes on or stops; it is never done early. */
  lemma {:induction false} EventsGoOrStop(
    c: Config, s: State, d: Decoded, terminalBatch: bool, events: seq<AdapterEvent>)
    ensures !ApplyEvents(c, s, d, terminalBatch, events).Done?
    decreases |events|
  {
    if events != [] {
      OneGoesOrStops(c, s, d, terminalBatch, events[0]);
      var f := ApplyEvent(c, s, d, terminalBatch, events[0]);
      hide ApplyEvent;
      if f.Go? {
        EventsGoOrStop(c, f.state, d, terminalBatch, events[1..]);
      }
    }
  }

  lemma OneGoesOrStops(c: Config, s: State, d: Decoded, terminalBatch: bool, e: AdapterEvent)
    ensures !ApplyEvent(c, s, d, terminalBatch, e).Done?
  {
    hide FinishTerminal, EmitTerminal, Q.Put, Q.Fits;
  }

  /** Events are handled one after the other, the rest in the state the first left, until one ends the
      session. */
  lemma {:induction false} EventsInTurn(
    c: Config, s: State, d: Decoded, terminalBatch: bool, first: seq<AdapterEvent>, rest: seq<AdapterEvent>)
    ensures ApplyEvents(c, s, d, terminalBatch, first + rest) ==
      var f := ApplyEvents(c, s, d, terminalBatch, first);
      if f.Go? then ApplyEvents(c, f.state, d, terminalBatch, rest) else f
    decreases |first|
  {
    hide ApplyEvent;
    if first == [] {
      assert first + rest == rest;
    } else {
      assert (first + rest)[0] == first[0] && (first + rest)[1..] == first[1..] + rest;
      var f := ApplyEvent(c, s, d, terminalBatch, first[0]);
      if f.Go? {
        EventsInTurn(c, f.state, d, terminalBatch, first[1..], rest);
      }
    }
  }

  /** What becomes of the events that are neither output nor the end of a response nor a tool call: a
      failure ends the session with that failure; a transcript of an input already completed is
      dropped, and another one recorded; and all others are enqueued, or end the session Busy. */
  lemma OthersGetThrough(c: Config, s: State, d: Decoded, terminalBatch: bool, e: AdapterEvent)
    requires !e.Output? && !e.ResponseFinished? && !e.ToolCallRequested?
    ensures var f := ApplyEvent(c, s, d, terminalBatch, e);
            var transcript := e.TranscriptCompleted? && e.tracked;
            var again := transcript && e.turn in s.completedInputs;
            && (e.SessionFailed? ==> f.Stop? && EndsWith(s, e, f.state))
            && (again ==> f == Go(s))
            && (!again && !e.SessionFailed? ==>
                 var s1 := if transcript then s.(completedInputs := s.completedInputs + {e.turn}) else s;
                 DeliversOrEnds(c, s1, e, f))
  {
    hide Deliver, FinishTerminal, DeliversOrEnds, EndsWith;
    if e.SessionFailed? {
      EndsOnceWith(c, s, e, (Provider, Severity(e.retryable)));
    } else {
      DeliversExactly(c, s, e);
      if e.TranscriptCompleted? {
        DeliversExactly(c, s.(completedInputs := s.completedInputs + {e.turn}), e);
      }
    }
  }

  /** The session ends with this event, unless its end is already decided. */
  predicate EndsWith(s: State, e: Event, s': State) {
    if s.owner.Some? then s' == s
    else s'.owner.Some? && s'.published && s'.log == s.log + [Enqueued(e)]
  }

  lemma EndsOnceWith(c: Config, s: State, e: Event, owner: (Initiator, Disposition))
    ensures EndsWith(s, e, FinishTerminal(c, s, e, owner))
    ensures s.owner.None? ==> FinishTerminal(c, s, e, owner).owner == Some(owner)
  {
    hide Q.PutTerminal;
  }

  /** An event is enqueued as the newest if it fits; otherwise the session ends Busy. */
  predicate DeliversOrEnds(c: Config, s: State, e: Event, f: Flow) {
    if Q.Fits(c.limits, s.queue, e) then
      f.Go? && f.state == s.(log := s.log + [Enqueued(e)], queue := f.state.queue)
      && f.state.queue.events == s.queue.events + [e]
    else f.Stop? && EndsWith(s, SessionFailed(Busy, false), f.state)
  }

  lemma DeliversExactly(c: Config, s: State, e: Event)
    ensures DeliversOrEnds(c, s, e, Deliver(c, s, e))
  {
    hide Q.Fits, EndsWith, FinishTerminal;
    EndsOnceWith(c, s, SessionFailed(Busy, false), (Provider, Fatal));
  }

  // ---- everything said is recorded ----

  /** An event handled to its end has been recorded in full: the response, item and content it
      introduces, and the content and item it completes. */
  lemma HandledIsRecorded(c: Config, s: State, d: Decoded)
    requires Sound(c, s) && Handles(s, d) && !d.acknowledged
    requires Apply(c, s, d).Done?
    ensures var s' := Apply(c, s, d).state;
            && Sound(c, s')
            && (d.response.Some? ==> Introduced(d.response.value) in s'.log && d.response.value in s'.book.responses)
            && (d.item.Some? ==> ItemAdded(d.item.value) in s'.log && d.item.value in s'.book.items)
            && (d.item.Some? && d.detail.Some? && d.detail.value.isFunctionCall ==>
                 (d.item.value.0, d.item.value.1, d.detail.value.outputIndex) in s'.book.functionItems)
            && (d.content.Some? ==> ContentAdded(d.content.value) in s'.log && d.content.value in s'.book.contents)
            && (d.completedContent.Some? ==>
                 && ContentDone(d.completedContent.value) in s'.log
                 && d.completedContent.value in s'.book.completedContents)
            && (d.completedItem.Some? ==> d.completedItem.value in s'.book.completedItems)
  {
    hide Sound, ReadyStage, Bookkeeping, ApplyEvents, Agrees, B.WellKept, T.Orderly, Complete, Follows, Leads, Grows,
         TerminalBatch;
    ApplySound(c, s, d);
    ReadyStageSound(c, s, d);
    var s1 := ReadyStage(c, s, d).state;
    BooksExactly(c, s1, d);
    BookkeepingSound(c, s1, d);
    var s2 := Bookkeeping(c, s1, d).state;
    EventsGrow(c, s2, d, TerminalBatch(d), d.events);
    var s3 := ApplyEvents(c, s2, d, TerminalBatch(d), d.events).state;
    EventsGoOrStop(c, s2, d, TerminalBatch(d), d.events);
    ReadyGoesOrStops(c, s, d);
    CompletesIn(s2.book, s3, d);
    SetsAreMarks(c, Apply(c, s, d).state);
  }

  lemma ReadyGoesOrStops(c: Config, s: State, d: Decoded)
    ensures !ReadyStage(c, s, d).Done?
  {
    hide FinishTerminal;
  }

  lemma EventsGrow(c: Config, s: State, d: Decoded, terminalBatch: bool, events: seq<AdapterEvent>)
    requires Sound(c, s)
    ensures Grows(s.book, ApplyEvents(c, s, d, terminalBatch, events).state.book)
  {
    hide ApplyEvents, Sound, Grows, EndsInTerminal;
    ApplyEventsLeads(c, s, d, terminalBatch, events);
  }

  lemma CompletesIn(b: B.Book, s: State, d: Decoded)
    requires Grows(b, s.book)
    ensures var b' := Complete(s, d).book;
            && b.responses <= b'.responses && b.items <= b'.items && b.functionItems <= b'.functionItems
            && b.contents <= b'.contents
            && (d.completedContent.Some? ==> d.completedContent.value in b'.completedContents)
            && (d.completedItem.Some? ==> d.completedItem.value in b'.completedItems)
  {
    var b1 := s.book;
    if d.completedContent.Some? {
      b1 := b1.(completedContents := b1.completedContents + {d.completedContent.value});
    }
    var b2 := if d.completedItem.Some? then b1.(completedItems := b1.completedItems + {d.completedItem.value}) else b1;
    assert Complete(s, d).book == b2;
    hide Complete;
  }

  // ---- the receive loop ----

  /** The loop takes a decoded event up: it runs, nobody is closing, the session is current, and the
      event id is new. */
  predicate TakesUp(s: State, d: Decoded) {
    s.receiving && !s.closing && s.current && d.eventId !in s.seenEvents
  }

  /** The state the event is applied in: its id is remembered. */
  function Remembering(s: State, d: Decoded): State {
    s.(seenEvents := s.seenEvents + {d.eventId})
  }

  /** A decoded event is applied exactly when it is taken up, and the loop goes on exactly when that
      ends nothing; an event id seen before changes nothing. */
  lemma TakenUpExactly(c: Config, s: State, d: Decoded)
    requires s.receiving
    ensures var s' := Step(c, s, Receiving(Provided(d)));
            && (TakesUp(s, d) ==>
                 var f := Apply(c, Remembering(s, d), d);
                 s' == f.state.(receiving := !f.Stop? && !f.state.published))
            && (!TakesUp(s, d) ==> s' == s.(receiving := !s.published))
  {
    hide Apply;
  }

  /** Over runs: an event id is applied at most once. Whatever happens in between, a later event with
      the id of one taken up before changes nothing but, behind a terminal, leaving the loop. */
  lemma AppliedOnce(c: Config, s: State, d: Decoded, ops: seq<Op>, again: Decoded)
    requires Sound(c, s) && TakesUp(s, d) && again.eventId == d.eventId
    ensures var s' := Run(c, Step(c, s, Receiving(Provided(d))), ops);
            s'.receiving ==> Step(c, s', Receiving(Provided(again))) == s'.(receiving := !s'.published)
  {
    hide Sound, Apply, Step, Follows;
    var s1 := Step(c, s, Receiving(Provided(d)));
    StepSound(c, s, Receiving(Provided(d)));
    RunFollows(c, s1, ops);
    PartsOf(c, s);
    QuietlySound(c, s, Remembering(s, d));
    ApplyLeads(c, Remembering(s, d), d);
    TakenUpExactly(c, s, d);
    SeenStays(Remembering(s, d), Apply(c, Remembering(s, d), d).state);
    SeenStays(s1, Run(c, s1, ops));
    var s' := Run(c, s1, ops);
    if s'.receiving {
      TakenUpExactly(c, s', again);
    }
  }

  lemma SeenStays(s: State, s': State)
    requires Follows(s, s')
    ensures s.seenEvents <= s'.seenEvents
    ensures s.book.completedContents <= s'.book.completedContents && s.book.completedItems <= s'.book.completedItems
    ensures s.log <= s'.log
  {
  }

  /** Which terminal the receive loop gives for what it is told, when nobody is closing and the end is
      open: a failing transport, an end of the stream, an undecodable control or provider event, an
      error or a close of the relay. */
  function Verdict(s: State, p: Payload): Option<(Event, (Initiator, Disposition))> {
    match p
    case TransportError(code, retryable) => Some((SessionFailed(code, retryable), (Provider, Severity(retryable))))
    case Eof => Some((SessionFailed(Unavailable, true), (Provider, Retryable)))
    case BadControl(code, retryable) =>
      if s.current then Some((SessionFailed(code, retryable), (Provider, Severity(retryable)))) else None
    case BadProvider(code, retryable) =>
      if s.current then Some((SessionFailed(code, retryable), (Provider, Severity(retryable)))) else None
    case Controlled(Errored(code, retryable)) =>
      if s.current then Some((SessionFailed(code, retryable), (Relay, Severity(retryable)))) else None
    case Controlled(WasClosed(reason, initiator, disposition, related)) =>
      if s.current then Some((SessionClosed(reason, initiator, disposition, related), (initiator, disposition)))
      else None
    case Controlled(Expiring(_)) => None
    case Provided(_) => None
  }

  lemma VerdictsExactly(c: Config, s: State, p: Payload)
    requires s.receiving && !s.closing && s.owner.None? && !p.Provided?
    ensures var s' := Step(c, s, Receiving(p));
            && (Verdict(s, p).Some? ==>
                 && s'.log == s.log + [Enqueued(Verdict(s, p).value.0)] && s'.published && !s'.receiving
                 && s'.owner == Some(Verdict(s, p).value.1))
            && (Verdict(s, p).None? && p.Controlled? && s.current
                && Q.Fits(c.limits, s.queue, Passed(p.control.tag)) ==>
                 s'.log == s.log + [Enqueued(Passed(p.control.tag))] && s'.owner.None?)
            && (!s.current && Verdict(s, p).None? ==> s' == s.(receiving := !s.published))
  {
    hide Q.PutTerminal, Q.Fits;
  }

  /** While a close waits, only one thing counts: a clean close by the client that names this close.
      Everything else is ignored, and the end of the stream leaves the loop. */
  lemma AcknowledgesExactly(c: Config, s: State, p: Payload)
    requires s.receiving && s.closing && s.phase.AwaitingAck?
    ensures var s' := Step(c, s, Receiving(p));
            var mine := p.Controlled? && p.control.WasClosed? && p.control.related == Some(s.phase.closeId)
              && p.control.initiator == Client && p.control.disposition == Clean;
            && s' == s.(phase := AwaitingAck(s.phase.closeId, s.phase.acked || mine),
                        receiving := !p.Eof? && !s.published)
  {
  }

  // ---- callers ----

  /** Cancelling marks the newest live response of an active session, in the log too, and does nothing
      otherwise. */
  lemma CancellingExactly(c: Config, s: State)
    requires Sound(c, s)
    ensures var s', current := Step(c, s, Cancelling), B.Current(s.book.order, s.book.terminal);
            && (Active(s) && B.Live(s.book) != {} ==>
                 && current.Some? && current.value in B.Live(s.book)
                 && s'.log == s.log + [CancelledLocally(current.value)]
                 && s'.book == s.book.(cancelled := s.book.cancelled + {current.value})
                 && s' == s.(log := s'.log, book := s'.book))
            && (!Active(s) || B.Live(s.book) == {} ==> s' == s)
  {
    hide Sound, B.WellKept, B.Current;
    PartsOf(c, s);
    if B.Live(s.book) != {} {
      var r :| r in B.Live(s.book);
      B.LiveResponses(s.book, r, r);
    } else {
      B.LiveResponses(s.book, "", "");
    }
  }

  /** A cancelled response is silent: once cancelled, no output of it is ever enqueued. */
  lemma CancelledIsSilent(c: Config, s: State, ops: seq<Op>, r: Id, j: nat)
    requires Sound(c, s) && CancelledLocally(r) in s.log
    requires |s.log| <= j < |Run(c, s, ops).log|
    ensures var m := Run(c, s, ops).log[j]; m.Enqueued? && m.event.Output? ==> m.event.content.response != r
  {
    hide Sound, Follows, Allowed, Step;
    RunFollows(c, s, ops);
    var s' := Run(c, s, ops);
    SeenStays(s, s');
    assert CancelledLocally(r) in s'.log[..j] by { EarlierStays(s.log, s'.log, CancelledLocally(r), j); }
    AllowedAt(c, s', j);
    if s'.log[j].Enqueued? && s'.log[j].event.Output? {
      AllowedOutput(s'.log[..j], s'.log[j].event);
    }
  }

  lemma EarlierStays(log: seq<Mark>, log': seq<Mark>, m: Mark, j: nat)
    requires log <= log' && m in log && |log| <= j <= |log'|
    ensures m in log'[..j]
  {
    var i :| 0 <= i < |log| && log[i] == m;
    assert log'[..j][i] == m;
  }

  lemma AllowedAt(c: Config, s: State, j: nat)
    requires Sound(c, s) && j < |s.log|
    ensures s.log[j].Enqueued? ==> Allowed(s.log[..j], s.log[j].event)
  {
    hide Q.Accounted, Q.InputAccounted, B.WellKept, T.Orderly, Logged, EndsOnce, Conserved, Allowed;
  }

  lemma AllowedOutput(before: seq<Mark>, e: Event)
    requires Allowed(before, e) && e.Output?
    ensures CancelledLocally(e.content.response) !in before && ContentDone(e.content) !in before
  {
  }

  /** A close is claimed for the client exactly when nobody owns the end, and only once. */
  lemma ClosingExactly(c: Config, s: State, closeId: Id)
    ensures var s' := Step(c, s, Closing(closeId));
            && (s.phase.NotClosing? && s.owner.None? ==>
                 s' == s.(closing := true, owner := Some((Client, Clean)), phase := AwaitingAck(closeId, false)))
            && (s.phase.NotClosing? && s.owner.Some? ==> s' == s.(phase := CloseDone))
            && (!s.phase.NotClosing? ==> s' == s)
  {
  }

  /** A claimed close ends with the local end of the current response, if there is one, and the clean
      close by the client, naming the close exactly when its acknowledgement came and was heard. */
  lemma CloseEndsExactly(c: Config, s: State, reason: nat, heard: bool)
    requires s.phase.AwaitingAck?
    ensures var s' := Step(c, s, CloseEnds(reason, heard));
            && s'.published && s'.phase.CloseDone?
            && s'.log == s.log + LastWords(s, reason, if s.phase.acked && heard then Some(s.phase.closeId) else None)
  {
    hide B.Current, Q.PutTerminal;
  }

  /** A failing send ends the session with its error, unless the end is already decided. */
  lemma SenderFailsExactly(c: Config, s: State, code: ErrorCode, retryable: bool)
    ensures var s' := Step(c, s, SenderFails(code, retryable));
            && EndsWith(s, SessionFailed(code, retryable), s')
            && (s.owner.None? ==> s'.owner == Some((Provider, if retryable then Retryable else Fatal)))
  {
    EndsOnceWith(c, s, SessionFailed(code, retryable), (Provider, Severity(retryable)));
  }

  /** Audio goes out exactly while the session is active and ready and the send is proper and has room
      among the sends under way. */
  lemma AudioStartsExactly(c: Config, s: State, size: nat)
    requires Sound(c, s)
    ensures var s', i := Step(c, s, AudioStarts(size)), s.input;
            var lets := Active(s) && s.ready && 0 < size <= c.input.event && size % 2 == 0
              && |i.sizes| + 1 <= c.input.frames && Sum(i.sizes) + size <= c.input.bytes;
            && (lets ==> s' == s.(input := s'.input) && s'.input.sizes == i.sizes + [size])
            && (!lets ==> s' == s)
  {
    hide Sound, Q.StartSend, Q.InputAccounted;
    PartsOf(c, s);
    Q.StartsExactly(c.input, s.input, size);
  }

  /** Tool results are submitted only while the session is active; attempts under way go on whatever
      happens to the session. */
  lemma ToolStepsExactly(c: Config, s: State, call: Id, text: string, progress: T.Progress)
    ensures Step(c, s, Submitting(call, text)) ==
      if Active(s) then s.(desk := T.Next(s.desk, T.Submitting(call, text))) else s
    ensures Step(c, s, Beginning(call, text)) == s.(desk := T.Next(s.desk, T.Beginning(call, text)))
    ensures Step(c, s, Resuming(call, progress)) == s.(desk := T.Next(s.desk, T.Resuming(call, progress)))
  {
    hide T.Next;
  }

  /** The consumer takes the oldest event, in every state, and nothing else changes but the accounts. */
  lemma ConsumesExactly(c: Config, s: State)
    requires Sound(c, s)
    ensures var s', q := Step(c, s, Consuming), s.queue;
            && s' == s.(queue := s'.queue)
            && (q.events == [] ==> s' == s)
            && (q.events != [] ==>
                 && s'.queue.taken == q.taken + [q.events[0]] && s'.queue.events == q.events[1..]
                 && s'.queue.bytes == q.bytes - c.limits.size(q.events[0]) && s'.queue.frames == q.frames - 1)
  {
    hide Sound;
    PartsOf(c, s);
    if s.queue.events != [] {
      Q.TakeAccounted(c.limits, s.queue);
    }
  }

  // ---- completed is closed ----

  /** Over runs: once an event that completes a content has been handled to its end, no output of that
      content is ever enqueued, and a second completion of it ends the session with a protocol error;
      likewise a second completion of an item. */
  lemma CompletedIsClosed(
    c: Config, completedInputs: set<Id>, seenCalls: set<Id>, before: seq<Op>, d: Decoded, after: seq<Op>, j: nat,
    again: Decoded)
    ensures var s := Run(c, Start(completedInputs, seenCalls), before);
            var s1 := Step(c, s, Receiving(Provided(d)));
            var s' := Run(c, s1, after);
            TakesUp(s, d) && Handles(s, d) && !d.acknowledged && Apply(c, Remembering(s, d), d).Done? ==>
              && (d.completedContent.Some? && |s1.log| <= j < |s'.log|
                  && s'.log[j].Enqueued? && s'.log[j].event.Output? ==>
                   s'.log[j].event.content != d.completedContent.value)
              && ((d.completedContent.Some? && again.completedContent == d.completedContent)
                  || (d.completedItem.Some? && again.completedItem == d.completedItem) ==>
                   && EndsInError(s', Bookkeeping(c, s', again))
                   && (Handles(s', again) && s'.ready && !again.acknowledged ==> EndsInError(s', Apply(c, s', again))))
  {
    hide Sound, Step, Apply, Bookkeeping, EndsInError, Follows, Agrees;
    var s := Run(c, Start(completedInputs, seenCalls), before);
    StartIsSound(c, completedInputs, seenCalls);
    RunSound(c, Start(completedInputs, seenCalls), before);
    if TakesUp(s, d) && Handles(s, d) && !d.acknowledged && Apply(c, Remembering(s, d), d).Done? {
      PartsOf(c, s);
      QuietlySound(c, s, Remembering(s, d));
      HandledIsRecorded(c, Remembering(s, d), d);
      TakenUpExactly(c, s, d);
      var s1 := Step(c, s, Receiving(Provided(d)));
      StepSound(c, s, Receiving(Provided(d)));
      RunFollows(c, s1, after);
      var s' := Run(c, s1, after);
      SeenStays(s1, s');
      if d.completedContent.Some? && |s1.log| <= j < |s'.log| {
        EarlierStays(s1.log, s'.log, ContentDone(d.completedContent.value), j);
        AllowedAt(c, s', j);
        if s'.log[j].Enqueued? && s'.log[j].event.Output? {
          hide Allowed;
          AllowedOutput(s'.log[..j], s'.log[j].event);
        }
      }
      BooksExactly(c, s', again);
      CompletedTwiceDisagrees(c, s', again);
      if Handles(s', again) && s'.ready && !again.acknowledged {
        HandlesInTurn(c, s', again);
      }
    }
  }

  lemma CompletedTwiceDisagrees(c: Config, s: State, d: Decoded)
    requires Sound(c, s)
    ensures d.completedContent.Some? && d.completedContent.value in s.book.completedContents ==> !Agrees(s, d)
    ensures d.completedItem.Some? && d.completedItem.value in s.book.completedItems ==> !Agrees(s, d)
  {
    hide Sound;
    SetsAreMarks(c, s);
  }
}
