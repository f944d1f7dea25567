/** What every step of a managed session keeps, and what follows for whole runs (session.py). */
module SessionSafety {
  import opened Common
  import opened SessionEvents
  import opened Session
  import Q = SessionQueue
  import B = ResponseBook
  import T = ToolCalls

  // ---- what every step keeps: contents of the log ----

  ghost predicate FinishedIn(log: seq<Mark>, r: Id) {
    exists m :: m in log && m.Enqueued? && m.event.ResponseFinished? && m.event.response == r
  }

  /** When an event may be enqueued, in terms of everything that happened before it. */
  ghost predicate Allowed(before: seq<Mark>, e: Event) {
    match e
    case Output(_, c, _) =>
      && Introduced(c.response) in before && ItemAdded((c.response, c.item)) in before && ContentAdded(c) in before
      && ContentDone(c) !in before && CancelledLocally(c.response) !in before && !FinishedIn(before, c.response)
    case ResponseFinished(r, _, _) => Introduced(r) in before && !FinishedIn(before, r)
    case _ => true
  }

  /** Every enqueued event was allowed at its moment; no call was dispatched before. */
  ghost predicate Disciplined(log: seq<Mark>) {
    && (forall i :: 0 <= i < |log| && log[i].Enqueued? ==> Allowed(log[..i], log[i].event))
    && (forall i :: 0 <= i < |log| && log[i].Dispatched? ==> log[i] !in log[..i])
  }

  /** The session's sets agree with the log. */
  ghost predicate Logged(s: State) {
    && (forall r :: r in s.book.responses <==> Introduced(r) in s.log)
    && (forall i :: i in s.book.items <==> ItemAdded(i) in s.log)
    && (forall c :: c in s.book.contents <==> ContentAdded(c) in s.log)
    && (forall c :: c in s.book.completedContents <==> ContentDone(c) in s.log)
    && (forall r :: r in s.book.cancelled <==> CancelledLocally(r) in s.log)
    && (forall r :: FinishedIn(s.log, r) ==> r in s.book.terminal)
    && (forall k :: Dispatched(k) in s.log ==> k in s.seenCalls)
  }

  ghost predicate TerminalAt(log: seq<Mark>, i: int) {
    0 <= i < |log| && log[i].Enqueued? && IsTerminal(log[i].event)
  }

  /** At most one terminal, enqueued exactly when it is published, by whoever owns the end. */
  ghost predicate EndsOnce(s: State) {
    && (forall i, j :: TerminalAt(s.log, i) && TerminalAt(s.log, j) ==> i == j)
    && (s.published <==> exists i :: TerminalAt(s.log, i))
    && (s.published ==> s.owner.Some?)
    && (s.closing ==> s.owner == Some((Client, Clean)))
    && (s.phase.AwaitingAck? <==> s.closing && !s.published)
    && (s.owner.Some? && !s.closing ==> s.published)
    && (s.closing ==> !s.phase.NotClosing?)
    && (s.phase.CloseDone? ==> s.published)
    && (s.published ==> s.queue.terminalStarted && HasTerminal(s.queue.admitted))
  }

  ghost predicate HasTerminal(es: seq<Event>) {
    exists e :: e in es && IsTerminal(e)
  }

  /** Every event ever enqueued. */
  function Published(log: seq<Mark>): seq<Event> {
    if log == [] then []
    else
      var rest := Published(log[..|log| - 1]);
      match log[|log| - 1] case Enqueued(e) => rest + [e] case _ => rest
  }

  ghost predicate Loses(all: seq<Event>, kept: seq<Event>, k: nat, lost: seq<Event>) {
    k <= |kept| && all == kept[..k] + lost + kept[k..]
  }

  /** Every event enqueued was taken or is queued, but for at most one stretch that the start of
      the terminal sequence threw away. */
  ghost predicate Conserved(log: seq<Mark>, q: Q.Queue) {
    && (!q.terminalStarted ==> q.admitted == Published(log))
    && exists k, lost :: Loses(Published(log), q.admitted, k, lost)
  }

  ghost predicate Sound(c: Config, s: State) {
    && Q.Accounted(c.limits, s.queue)
    && Q.InputAccounted(c.input, s.input)
    && B.WellKept(s.book)
    && T.Orderly(s.desk)
    && Logged(s)
    && Disciplined(s.log)
    && EndsOnce(s)
    && Conserved(s.log, s.queue)
  }

  lemma StartIsSound(c: Config, completedInputs: set<Id>, seenCalls: set<Id>)
    ensures Sound(c, Start(completedInputs, seenCalls))
  {
    hide Q.Accounted, Q.InputAccounted, B.WellKept, T.Orderly, Conserved;
    T.BareIsOrderly();
    B.BlankIsWellKept();
    NothingIsAccounted(c);
  }

  lemma NothingIsAccounted(c: Config)
    ensures Q.Accounted(c.limits, Q.EMPTY) && Q.InputAccounted(c.input, Q.Input([], 0, 0))
    ensures Conserved([], Q.EMPTY)
  {
    assert Loses([], [], 0, []);
  }

  /** Adding one mark to a disciplined log. */
  lemma LogGrows(log: seq<Mark>, m: Mark)
    requires Disciplined(log)
    requires m.Enqueued? ==> Allowed(log, m.event)
    requires m.Dispatched? ==> m !in log
    ensures Disciplined(log + [m])
    ensures forall r :: FinishedIn(log + [m], r) <==>
      FinishedIn(log, r) || (m.Enqueued? && m.event.ResponseFinished? && m.event.response == r)
    ensures forall i :: TerminalAt(log + [m], i) <==>
      TerminalAt(log, i) || (i == |log| && m.Enqueued? && IsTerminal(m.event))
  {
    hide Allowed;
    var log' := log + [m];
    assert log'[..|log|] == log;
    forall i | 0 <= i < |log| ensures log'[..i] == log[..i] {
    }
    forall r ensures FinishedIn(log', r) <==>
      FinishedIn(log, r) || (m.Enqueued? && m.event.ResponseFinished? && m.event.response == r)
    {
      assert forall x :: x in log' <==> x in log || x == m;
    }
  }

  /** How the queue may change to let an event in. */
  ghost predicate LetsIn(l: Q.Limits, q: Q.Queue, e: Event, q': Q.Queue) {
    (q' == Q.Put(l, q, e) && Q.Fits(l, q, e)) || q' == Q.PutTerminal(l, q, e)
  }

  /** Letting an event in loses none that the queue had promised, and no terminal. */
  lemma LetsInKeeps(l: Q.Limits, log: seq<Mark>, q: Q.Queue, e: Event, q': Q.Queue)
    requires Q.Accounted(l, q) && Conserved(log, q) && LetsIn(l, q, e, q')
    ensures Q.Accounted(l, q') && Conserved(log + [Enqueued(e)], q')
    ensures q.terminalStarted ==> q'.terminalStarted && (HasTerminal(q.admitted) ==> HasTerminal(q'.admitted))
    ensures IsTerminal(e) ==> HasTerminal(q'.admitted)
  {
    if q' == Q.PutTerminal(l, q, e) {
      Q.PutTerminalAccounted(l, q, e);
    } else {
      Q.PutAccounted(l, q, e);
    }
    ConservedThrough(l, log, q, e, q');
    if q.terminalStarted && HasTerminal(q.admitted) {
      var t :| t in q.admitted && IsTerminal(t);
      assert t in q'.admitted;
    }
    if IsTerminal(e) {
      assert e in q'.admitted;
    }
  }

  lemma ConservedThrough(l: Q.Limits, log: seq<Mark>, q: Q.Queue, e: Event, q': Q.Queue)
    requires Q.Accounted(l, q) && Conserved(log, q) && LetsIn(l, q, e, q')
    ensures Conserved(log + [Enqueued(e)], q')
  {
    hide Published;
    PublishedMore(log, Enqueued(e));
    var all := Published(log);
    if q'.admitted == q.admitted + [e] {
      var k: nat, lost :| Loses(all, q.admitted, k, lost);
      assert k <= |q.admitted| && all == q.admitted[..k] + lost + q.admitted[k..];
      assert q'.admitted[..k] == q.admitted[..k] && q'.admitted[k..] == q.admitted[k..] + [e];
      assert Loses(all + [e], q'.admitted, k, lost);
    } else {
      assert q'.admitted == q.taken + [e];
      assert q'.admitted[..|q.taken|] == q.taken && q'.admitted[|q.taken|..] == [e];
      assert Loses(all + [e], q'.admitted, |q.taken|, q.events);
    }
  }

  lemma PublishedMore(log: seq<Mark>, m: Mark)
    ensures Published(log + [m]) == if m.Enqueued? then Published(log) + [m.event] else Published(log)
  {
    assert (log + [m])[..|log|] == log;
  }

  lemma LoggedMore(s: State, s': State, e: Event)
    requires Logged(s)
    requires s'.log == s.log + [Enqueued(e)] && s'.book == s.book && s'.seenCalls == s.seenCalls
    requires forall r :: FinishedIn(s'.log, r) <==> FinishedIn(s.log, r) || (e.ResponseFinished? && e.response == r)
    requires e.ResponseFinished? ==> e.response in s.book.terminal
    ensures Logged(s')
  {
    hide FinishedIn;
    assert forall m :: m in s'.log <==> m in s.log || m == Enqueued(e);
  }

  /** Enqueuing an ordinary event that the log allows. */
  lemma EnqueueSound(c: Config, s: State, q: Q.Queue, e: Event)
    requires Sound(c, s) && LetsIn(c.limits, s.queue, e, q)
    requires !IsTerminal(e) && Allowed(s.log, e)
    requires e.ResponseFinished? ==> e.response in s.book.terminal
    ensures Sound(c, Enqueue(s, q, e))
  {
    hide Q.Accounted, Q.InputAccounted, B.WellKept, T.Orderly, Allowed, Disciplined, FinishedIn, LetsIn, HasTerminal,
         Conserved, Logged;
    LogGrows(s.log, Enqueued(e));
    LetsInKeeps(c.limits, s.log, s.queue, e, q);
    var s' := Enqueue(s, q, e);
    LoggedMore(s, s', e);
    TerminalsOf(s.log, s'.log);
  }

  /** Logs with the same terminals end in the same way. */
  lemma TerminalsOf(log: seq<Mark>, log': seq<Mark>)
    requires forall i :: TerminalAt(log', i) <==> TerminalAt(log, i)
    ensures (exists i :: TerminalAt(log', i)) <==> exists i :: TerminalAt(log, i)
  {
    if exists i :: TerminalAt(log, i) {
      var i :| TerminalAt(log, i);
      assert TerminalAt(log', i);
    }
    if exists i :: TerminalAt(log', i) {
      var i :| TerminalAt(log', i);
      assert TerminalAt(log, i);
    }
  }

  /** Enqueuing the terminal, by an owner who has just claimed or already holds the end. */
  lemma PublishSound(c: Config, s: State, e: Event, owner: (Initiator, Disposition), phase: ClosePhase)
    requires Sound(c, s) && IsTerminal(e) && !s.published
    requires s.closing ==> owner == (Client, Clean) && phase == CloseDone
    requires !s.closing ==> phase == s.phase
    ensures Sound(c, EmitTerminal(c, s.(owner := Some(owner)), e).(published := true, phase := phase))
  {
    hide Q.Accounted, Q.InputAccounted, B.WellKept, T.Orderly, Disciplined, FinishedIn, HasTerminal, Conserved, Logged,
         Q.PutTerminal;
    LetsInKeeps(c.limits, s.log, s.queue, e, Q.PutTerminal(c.limits, s.queue, e));
    assert Q.PutTerminal(c.limits, s.queue, e).terminalStarted by { StartsTerminal(c.limits, s.queue, e); }
    LogGrows(s.log, Enqueued(e));
    var s' := EmitTerminal(c, s.(owner := Some(owner)), e).(published := true, phase := phase);
    LoggedMore(s, s', e);
    assert TerminalAt(s'.log, |s.log|);
  }

  lemma StartsTerminal(l: Q.Limits, q: Q.Queue, e: Event)
    ensures Q.PutTerminal(l, q, e).terminalStarted
  {
  }

  lemma FinishTerminalSound(c: Config, s: State, e: Event, owner: (Initiator, Disposition))
    requires Sound(c, s) && IsTerminal(e)
    ensures Sound(c, FinishTerminal(c, s, e, owner))
  {
    if s.owner.None? {
      PublishSound(c, s, e, owner, s.phase);
    }
  }

  lemma DeliverSound(c: Config, s: State, e: Event)
    requires Sound(c, s) && !IsTerminal(e) && Allowed(s.log, e)
    requires e.ResponseFinished? ==> e.response in s.book.terminal
    ensures Sound(c, Deliver(c, s, e).state)
  {
    hide Sound, Allowed;
    if Q.Fits(c.limits, s.queue, e) {
      EnqueueSound(c, s, Q.Put(c.limits, s.queue, e), e);
    } else {
      FinishTerminalSound(c, s, SessionFailed(Busy, false), (Provider, Fatal));
    }
  }

  lemma PartsOf(c: Config, s: State)
    requires Sound(c, s)
    ensures Q.Accounted(c.limits, s.queue) && Q.InputAccounted(c.input, s.input)
    ensures B.WellKept(s.book) && T.Orderly(s.desk)
  {
  }

  lemma BrokenSound(c: Config, s: State)
    requires Sound(c, s)
    ensures Sound(c, Broken(c, s).state)
  {
    FinishTerminalSound(c, s, SessionFailed(ProtocolError, false), (Provider, Fatal));
  }

  /** Recording a fact about the provider's structures. */
  lemma NoteSound(c: Config, s: State, book: B.Book, m: Mark)
    requires Sound(c, s) && B.WellKept(book)
    requires !m.Enqueued? && !m.Dispatched?
    requires forall r :: r in book.responses <==> r in s.book.responses || m == Introduced(r)
    requires forall i :: i in book.items <==> i in s.book.items || m == ItemAdded(i)
    requires forall k :: k in book.contents <==> k in s.book.contents || m == ContentAdded(k)
    requires forall k :: k in book.completedContents <==> k in s.book.completedContents || m == ContentDone(k)
    requires forall r :: r in book.cancelled <==> r in s.book.cancelled || m == CancelledLocally(r)
    requires s.book.terminal <= book.terminal
    ensures Sound(c, s.(book := book, log := s.log + [m]))
  {
    hide Q.Accounted, Q.InputAccounted, B.WellKept, T.Orderly, Disciplined, FinishedIn, HasTerminal, Published;
    LogGrows(s.log, m);
    PublishedMore(s.log, m);
    var s' := s.(book := book, log := s.log + [m]);
    assert forall x :: x in s'.log <==> x in s.log || x == m;
    TerminalsOf(s.log, s'.log);
  }

  /** Changes that leave the log and what it speaks of alone. */
  lemma QuietlySound(c: Config, s: State, s': State)
    requires Sound(c, s)
    requires s'.log == s.log && s'.queue == s.queue && s'.input == s.input
    requires s'.book == s.book && s.seenCalls <= s'.seenCalls && T.Orderly(s'.desk)
    requires s'.owner == s.owner && s'.published == s.published && s'.closing == s.closing && s'.phase == s.phase
    ensures Sound(c, s')
  {
    hide Q.Accounted, Q.InputAccounted, B.WellKept, T.Orderly, Disciplined, FinishedIn, HasTerminal, Conserved;
  }

  /** A book that only grew where the log takes no notice. */
  lemma BookSound(c: Config, s: State, book: B.Book)
    requires Sound(c, s) && B.WellKept(book)
    requires book.responses == s.book.responses && book.items == s.book.items && book.contents == s.book.contents
    requires book.completedContents == s.book.completedContents && book.cancelled == s.book.cancelled
    requires s.book.terminal <= book.terminal
    ensures Sound(c, s.(book := book))
  {
    hide Q.Accounted, Q.InputAccounted, B.WellKept, T.Orderly, Disciplined, FinishedIn, HasTerminal, Conserved;
  }

  // ---- stage by stage ----

  lemma ReadyStageSound(c: Config, s: State, d: Decoded)
    requires Sound(c, s)
    ensures Sound(c, ReadyStage(c, s, d).state)
  {
    hide Sound;
    BrokenSound(c, s);
    QuietlyReady(c, s);
    DeliverSound(c, s.(ready := true), SessionReady);
  }

  lemma QuietlyReady(c: Config, s: State)
    requires Sound(c, s)
    ensures Sound(c, s.(ready := true))
  {
    PartsOf(c, s);
    QuietlySound(c, s, s.(ready := true));
  }

  lemma ResponseStageSound(c: Config, s: State, d: Decoded)
    requires Sound(c, s)
    ensures Sound(c, ResponseStage(c, s, d).state)
  {
    hide Sound, T.ResponseStarts, B.MayIntroduce;
    PartsOf(c, s);
    BrokenSound(c, s);
    if d.response.Some? && B.MayIntroduce(s.book, d.response.value) {
      var r := d.response.value;
      B.IntroduceKeeps(s.book, r);
      T.ResponseStartsKeeps(s.desk);
      QuietlySound(c, s, s.(desk := T.ResponseStarts(s.desk)));
      NoteSound(c, s.(desk := T.ResponseStarts(s.desk)), B.Introduce(s.book, r), Introduced(r));
    }
  }

  lemma ItemStageSound(c: Config, s: State, d: Decoded)
    requires Sound(c, s)
    ensures Sound(c, ItemStage(c, s, d).state)
  {
    hide Sound, B.WellKept;
    PartsOf(c, s);
    BrokenSound(c, s);
    if d.item.Some? && d.item.value.0 in s.book.responses && d.item.value !in s.book.items {
      var item := d.item.value;
      var book := s.book.(items := s.book.items + {item});
      var s1 := s.(book := book, log := s.log + [ItemAdded(item)]);
      ItemKeeps(s.book, item);
      NoteSound(c, s, book, ItemAdded(item));
      BrokenSound(c, s1);
      if d.detail.Some? {
        var book' := book.(functionItems := book.functionItems + {(item.0, item.1, d.detail.value.outputIndex)});
        FunctionItemKeeps(book, item, d.detail.value.outputIndex);
        BookSound(c, s1, book');
      }
    }
  }

  lemma ItemKeeps(b: B.Book, item: (Id, Id))
    requires B.WellKept(b) && item.0 in b.responses
    ensures B.WellKept(b.(items := b.items + {item}))
  {
  }

  lemma FunctionItemKeeps(b: B.Book, item: (Id, Id), index: int)
    requires B.WellKept(b) && item in b.items
    ensures B.WellKept(b.(functionItems := b.functionItems + {(item.0, item.1, index)}))
  {
  }

  lemma ContentStageSound(c: Config, s: State, d: Decoded)
    requires Sound(c, s)
    ensures Sound(c, ContentStage(c, s, d).state)
  {
    hide Sound, B.WellKept, Broken;
    PartsOf(c, s);
    BrokenSound(c, s);
    if d.content.Some? && (d.content.value.response, d.content.value.item) in s.book.items {
      var content := d.content.value;
      ContentKeeps(s.book, content);
      NoteSound(c, s, s.book.(contents := s.book.contents + {content}), ContentAdded(content));
    }
  }

  lemma ContentKeeps(b: B.Book, content: Content)
    requires B.WellKept(b) && (content.response, content.item) in b.items
    ensures B.WellKept(b.(contents := b.contents + {content}))
  {
  }

  lemma EchoStageSound(c: Config, s: State, d: Decoded)
    requires Sound(c, s)
    ensures Sound(c, EchoStage(c, s, d).state)
  {
    hide Sound;
    PartsOf(c, s);
    BrokenSound(c, s);
    if d.echo.Some? && T.Ack(s.desk, d.echo.value.call, d.echo.value.output, d.echo.value.wellFormed).Some? {
      T.AckKeeps(s.desk, d.echo.value.call, d.echo.value.output, d.echo.value.wellFormed);
      QuietlySound(c, s, EchoStage(c, s, d).state);
    }
  }

  lemma BookkeepingSound(c: Config, s: State, d: Decoded)
    requires Sound(c, s)
    ensures Sound(c, Bookkeeping(c, s, d).state)
    ensures Bookkeeping(c, s, d).Go? && d.completedContent.Some? ==>
      d.completedContent.value in Bookkeeping(c, s, d).state.book.contents
    ensures Bookkeeping(c, s, d).Go? && d.completedItem.Some? ==>
      d.completedItem.value in Bookkeeping(c, s, d).state.book.items
  {
    hide Sound, ResponseStage, ItemStage, ContentStage, EchoStage;
    ResponseStageSound(c, s, d);
    var f1 := ResponseStage(c, s, d);
    if f1.Go? {
      ItemStageSound(c, f1.state, d);
      var f2 := ItemStage(c, f1.state, d);
      if f2.Go? {
        ContentStageSound(c, f2.state, d);
        var f3 := ContentStage(c, f2.state, d);
        if f3.Go? {
          EchoStageSound(c, f3.state, d);
          BrokenSound(c, EchoStage(c, f3.state, d).state);
        }
      }
    }
  }

  lemma CompleteSound(c: Config, s: State, d: Decoded)
    requires Sound(c, s)
    requires d.completedContent.Some? ==> d.completedContent.value in s.book.contents
    requires d.completedItem.Some? ==> d.completedItem.value in s.book.items
    ensures Sound(c, Complete(s, d))
  {
    hide Sound, B.WellKept;
    PartsOf(c, s);
    var s1 := s;
    if d.completedContent.Some? {
      var content := d.completedContent.value;
      var book := s.book.(completedContents := s.book.completedContents + {content});
      s1 := s.(book := book, log := s.log + [ContentDone(content)]);
      CompletionKeeps(s.book, {content}, {});
      NoteSound(c, s, book, ContentDone(content));
    }
    if d.completedItem.Some? {
      CompletionKeeps(s1.book, {}, {d.completedItem.value});
      BookSound(c, s1, s1.book.(completedItems := s1.book.completedItems + {d.completedItem.value}));
    }
  }

  lemma CompletionKeeps(b: B.Book, contents: set<Content>, items: set<(Id, Id)>)
    requires B.WellKept(b) && contents <= b.contents && items <= b.items
    ensures B.WellKept(b.(completedContents := b.completedContents + contents))
    ensures B.WellKept(b.(completedItems := b.completedItems + items))
  {
  }

  // ---- event by event ----

  /** What the log says about an output event that passes the session's checks. */
  lemma OutputIsAllowed(c: Config, s: State, e: Event)
    requires Sound(c, s) && e.Output? && e.content in s.book.contents
    requires e.content !in s.book.completedContents
    requires e.content.response !in s.book.terminal && e.content.response !in s.book.cancelled
    ensures Allowed(s.log, e)
  {
    hide Q.Accounted, Q.InputAccounted, T.Orderly, Disciplined, EndsOnce, Conserved, FinishedIn;
  }

  lemma OutputEventSound(c: Config, s: State, e: Event)
    requires Sound(c, s) && e.Output?
    ensures Sound(c, OutputEvent(c, s, e).state)
  {
    hide Sound, Allowed;
    BrokenSound(c, s);
    var r := e.content.response;
    if r !in s.book.terminal && r !in s.book.cancelled && e.content in s.book.contents
       && e.content !in s.book.completedContents
    {
      OutputIsAllowed(c, s, e);
      DeliverSound(c, s, e);
    }
  }

  lemma FinishIsAllowed(c: Config, s: State, e: Event)
    requires Sound(c, s) && e.ResponseFinished?
    requires e.response in s.book.responses && e.response !in s.book.terminal
    ensures Allowed(s.log, e)
  {
    hide Q.Accounted, Q.InputAccounted, T.Orderly, Disciplined, EndsOnce, Conserved, FinishedIn;
  }

  lemma FinishedEventSound(c: Config, s: State, e: Event, terminalBatch: bool)
    requires Sound(c, s) && e.ResponseFinished?
    ensures Sound(c, FinishedEvent(c, s, e, terminalBatch).state)
  {
    hide Sound, Allowed, B.WellKept, LetsIn, Deliver, Broken, EmitTerminal;
    BrokenSound(c, s);
    var r := e.response;
    if r in s.book.responses && r !in s.book.terminal {
      var e1 := if e.status == StatusIncomplete && r in s.book.cancelled then e.(status := StatusCancelled) else e;
      var book := s.book.(terminal := s.book.terminal + {r});
      PartsOf(c, s);
      B.FinishKeeps(s.book, r);
      FinishIsAllowed(c, s, e1);
      BookSound(c, s, book);
      EmitSound(c, s.(book := book), e1);
      DeliverSound(c, s.(book := book), e1);
    }
  }

  /** A response end that must get in, whether it fits or not. */
  lemma EmitSound(c: Config, s: State, e: Event)
    requires Sound(c, s) && Allowed(s.log, e)
    requires e.ResponseFinished? && e.response in s.book.terminal
    ensures Sound(c, EmitTerminal(c, s, e))
  {
    hide Sound, Allowed, LetsIn, Q.PutTerminal;
    LetInByForce(c.limits, s.queue, e);
    EnqueueSound(c, s, Q.PutTerminal(c.limits, s.queue, e), e);
  }

  /** A call handed to the dispatcher was never handed over before. */
  lemma DispatchSound(c: Config, s: State, call: Id, desk: T.Desk)
    requires Sound(c, s) && T.Orderly(desk) && call !in s.seenCalls
    ensures Sound(c, s.(desk := desk, seenCalls := s.seenCalls + {call}, log := s.log + [Dispatched(call)]))
  {
    hide Q.Accounted, Q.InputAccounted, B.WellKept, T.Orderly, Disciplined, FinishedIn, HasTerminal, Published;
    LogGrows(s.log, Dispatched(call));
    PublishedMore(s.log, Dispatched(call));
    var s' := s.(desk := desk, seenCalls := s.seenCalls + {call}, log := s.log + [Dispatched(call)]);
    assert forall x :: x in s'.log <==> x in s.log || x == Dispatched(call);
    TerminalsOf(s.log, s'.log);
  }

  lemma ToolCallEventSound(c: Config, s: State, d: Decoded, e: Event)
    requires Sound(c, s) && e.ToolCallRequested?
    ensures Sound(c, ToolCallEvent(c, s, d, e).state)
  {
    hide Sound;
    BrokenSound(c, s);
    var call := e.call;
    if call !in s.desk.tools && call !in s.seenCalls {
      PartsOf(c, s);
      T.OpenKeeps(s.desk, call);
      var desk := T.Open(s.desk, call);
      var s1 := s.(desk := desk, seenCalls := s.seenCalls + {call});
      var s2 := s1.(log := s.log + [Dispatched(call)]);
      QuietlySound(c, s, s1);
      DispatchSound(c, s, call, desk);
      DeliverSound(c, s1, e.(generation := c.generation));
      DeliverSound(c, s2, e.(generation := c.generation));
    }
  }

  lemma TranscriptSound(c: Config, s: State, e: Event)
    requires Sound(c, s) && e.TranscriptCompleted?
    ensures Sound(c, Deliver(c, s.(completedInputs := s.completedInputs + {e.turn}), e).state)
  {
    hide Sound;
    PartsOf(c, s);
    QuietlySound(c, s, s.(completedInputs := s.completedInputs + {e.turn}));
    DeliverSound(c, s.(completedInputs := s.completedInputs + {e.turn}), e);
  }

  lemma ApplyEventSound(c: Config, s: State, d: Decoded, terminalBatch: bool, e: AdapterEvent)
    requires Sound(c, s)
    ensures Sound(c, ApplyEvent(c, s, d, terminalBatch, e).state)
  {
    hide Sound, Deliver, ToolCallEvent, OutputEvent, FinishedEvent;
    match e
    case TranscriptCompleted(_, _, _) => TranscriptSound(c, s, e); DeliverSound(c, s, e);
    case ToolCallRequested(_, _, _, _) => ToolCallEventSound(c, s, d, e);
    case Output(_, _, _) => OutputEventSound(c, s, e);
    case ResponseFinished(_, _, _) => FinishedEventSound(c, s, e, terminalBatch);
    case SessionFailed(_, retryable) => FinishTerminalSound(c, s, e, (Provider, Severity(retryable)));
    case _ => DeliverSound(c, s, e);
  }

  lemma EventsLeaveStructure(c: Config, s: State, d: Decoded, terminalBatch: bool, e: AdapterEvent)
    ensures var s' := ApplyEvent(c, s, d, terminalBatch, e).state;
            s'.book.contents == s.book.contents && s'.book.items == s.book.items
  {
    hide Deliver, FinishTerminal, OutputEvent, ToolCallEvent, FinishedEvent;
    SendingLeavesBook(c, s, e);
    if e.TranscriptCompleted? {
      SendingLeavesBook(c, s.(completedInputs := s.completedInputs + {e.turn}), e);
    } else if e.ToolCallRequested? {
      ToolCallsLeaveBook(c, s, d, e);
    } else if e.Output? {
      OutputLeavesBook(c, s, e);
    } else if e.ResponseFinished? {
      FinishesLeaveStructure(c, s, e, terminalBatch);
    } else if e.SessionFailed? {
      EndingLeavesBook(c, s, e, (Provider, Severity(e.retryable)));
    }
  }

  lemma ToolCallsLeaveBook(c: Config, s: State, d: Decoded, e: Event)
    requires e.ToolCallRequested?
    ensures ToolCallEvent(c, s, d, e).state.book == s.book
  {
    hide Deliver, Broken;
    EndingLeavesBook(c, s, e, (Provider, Fatal));
    var s1 := s.(desk := T.Open(s.desk, e.call), seenCalls := s.seenCalls + {e.call});
    SendingLeavesBook(c, s1, e.(generation := c.generation));
    SendingLeavesBook(c, s1.(log := s.log + [Dispatched(e.call)]), e.(generation := c.generation));
  }

  lemma OutputLeavesBook(c: Config, s: State, e: Event)
    requires e.Output?
    ensures OutputEvent(c, s, e).state.book == s.book
  {
    hide Deliver, Broken;
    EndingLeavesBook(c, s, e, (Provider, Fatal));
    SendingLeavesBook(c, s, e);
  }

  lemma FinishesLeaveStructure(c: Config, s: State, e: Event, terminalBatch: bool)
    requires e.ResponseFinished?
    ensures var b := FinishedEvent(c, s, e, terminalBatch).state.book;
            b.contents == s.book.contents && b.items == s.book.items
  {
    hide Deliver, Broken, EmitTerminal;
    EndingLeavesBook(c, s, e, (Provider, Fatal));
    var s1 := s.(book := s.book.(terminal := s.book.terminal + {e.response}));
    SendingLeavesBook(c, s1, e);
    SendingLeavesBook(c, s1, e.(status := StatusCancelled));
  }

  lemma SendingLeavesBook(c: Config, s: State, e: Event)
    ensures Deliver(c, s, e).state.book == s.book && EmitTerminal(c, s, e).book == s.book
  {
  }

  lemma EndingLeavesBook(c: Config, s: State, e: Event, owner: (Initiator, Disposition))
    ensures FinishTerminal(c, s, e, owner).book == s.book && Broken(c, s).state.book == s.book
  {
  }

  /** Handling events keeps what the batch's completions were checked against. */
  lemma {:induction false} ApplyEventsSound(
    c: Config, s: State, d: Decoded, terminalBatch: bool, events: seq<AdapterEvent>)
    requires Sound(c, s)
    ensures var s' := ApplyEvents(c, s, d, terminalBatch, events).state;
            Sound(c, s') && s'.book.contents == s.book.contents && s'.book.items == s.book.items
    decreases |events|
  {
    hide Sound;
    if events != [] {
      var f := ApplyEvent(c, s, d, terminalBatch, events[0]);
      hide ApplyEvent;
      EventsLeaveStructure(c, s, d, terminalBatch, events[0]);
      ApplyEventSound(c, s, d, terminalBatch, events[0]);
      if f.Go? {
        ApplyEventsSound(c, f.state, d, terminalBatch, events[1..]);
      }
    }
  }

  lemma ApplySound(c: Config, s: State, d: Decoded)
    requires Sound(c, s)
    ensures Sound(c, Apply(c, s, d).state)
  {
    hide Sound, ReadyStage, Bookkeeping, ApplyEvents, Complete;
    ReadyStageSound(c, s, d);
    var f1 := ReadyStage(c, s, d);
    if f1.Go? {
      BookkeepingSound(c, f1.state, d);
      var f2 := Bookkeeping(c, f1.state, d);
      if f2.Go? {
        ApplyEventsSound(c, f2.state, d, TerminalBatch(d), d.events);
        var f3 := ApplyEvents(c, f2.state, d, TerminalBatch(d), d.events);
        if f3.Go? {
          CompleteSound(c, f3.state, d);
        }
      }
    }
  }

  // ---- step by step ----

  lemma BeginCloseSound(c: Config, s: State, closeId: Id)
    requires Sound(c, s)
    ensures Sound(c, BeginClose(s, closeId))
  {
    hide Q.Accounted, Q.InputAccounted, B.WellKept, T.Orderly, Disciplined, FinishedIn, Conserved, HasTerminal;
  }

  lemma EndCloseSound(c: Config, s: State, reason: nat, heard: bool)
    requires Sound(c, s) && s.phase.AwaitingAck?
    ensures Sound(c, EndClose(c, s, reason, heard))
  {
    hide Allowed, B.WellKept, Q.PutTerminal, Q.Accounted, Q.InputAccounted, T.Orderly, Disciplined, FinishedIn,
         Conserved, HasTerminal, B.Current, Logged;
    var current := B.Current(s.book.order, s.book.terminal);
    PartsOf(c, s);
    var s1 := s;
    if current.Some? {
      var r := current.value;
      B.LiveResponses(s.book, r, r);
      B.FinishKeeps(s.book, r);
      var e := ResponseFinished(r, StatusCancelled, true);
      var book := s.book.(terminal := s.book.terminal + {r});
      FinishIsAllowed(c, s, e);
      BookSound(c, s, book);
      LetInByForce(c.limits, s.queue, e);
      EnqueueSound(c, s.(book := book), Q.PutTerminal(c.limits, s.queue, e), e);
      s1 := Enqueue(s.(book := book), Q.PutTerminal(c.limits, s.queue, e), e);
    }
    var related := if s.phase.acked && heard then Some(s.phase.closeId) else None;
    var e := SessionClosed(reason, Client, Clean, related);
    assert s1 == s1.(owner := Some((Client, Clean)));
    PublishSound(c, s1, e, (Client, Clean), CloseDone);
  }

  lemma LetInByForce(l: Q.Limits, q: Q.Queue, e: Event)
    ensures LetsIn(l, q, e, Q.PutTerminal(l, q, e))
  {
  }

  lemma CancelSound(c: Config, s: State)
    requires Sound(c, s)
    ensures Sound(c, CancelResponse(s))
  {
    hide Sound, B.WellKept, B.Current;
    PartsOf(c, s);
    B.CancelKeeps(s.book);
    if Active(s) && B.Current(s.book.order, s.book.terminal).Some? {
      NoteSound(c, s, B.Cancel(s.book), CancelledLocally(B.Current(s.book.order, s.book.terminal).value));
    }
  }

  lemma ResumedSound(c: Config, s: State)
    requires Sound(c, s)
    ensures Sound(c, Continued(s)) && Sound(c, Returned(s))
  {
    PartsOf(c, s);
    QuietlySound(c, s, Continued(s));
    QuietlySound(c, s, Returned(s));
  }

  lemma ReceiveSound(c: Config, s: State, p: Payload)
    requires Sound(c, s) && s.receiving
    ensures Sound(c, Receive(c, s, p))
  {
    hide Sound, ReceiveWhileClosing, ReceiveControl, ReceiveProvided, Continued, Returned, Fail;
    ResumedSound(c, s);
    if s.closing {
      ReceiveWhileClosingSound(c, s, p);
    } else {
      match p
      case TransportError(code, retryable) => FailSound(c, s, code, retryable);
      case Eof => FailSound(c, s, Unavailable, true);
      case BadControl(code, retryable) => FailSound(c, s, code, retryable);
      case BadProvider(code, retryable) => FailSound(c, s, code, retryable);
      case Controlled(control) => ReceiveControlSound(c, s, control);
      case Provided(d) => ReceiveProvidedSound(c, s, d);
    }
  }

  lemma FailSound(c: Config, s: State, code: ErrorCode, retryable: bool)
    requires Sound(c, s)
    ensures Sound(c, Fail(c, s, code, retryable)) && Sound(c, Returned(Fail(c, s, code, retryable)))
  {
    FinishTerminalSound(c, s, SessionFailed(code, retryable), (Provider, Severity(retryable)));
    ResumedSound(c, Fail(c, s, code, retryable));
  }

  lemma ReceiveWhileClosingSound(c: Config, s: State, p: Payload)
    requires Sound(c, s)
    ensures Sound(c, ReceiveWhileClosing(s, p))
  {
    hide Sound, Continued, Returned;
    ResumedSound(c, s);
    if p.Controlled? && AcksClose(s, p.control) {
      var s1 := s.(phase := AwaitingAck(s.phase.closeId, true));
      AckedSound(c, s);
      ResumedSound(c, s1);
    }
  }

  lemma AckedSound(c: Config, s: State)
    requires Sound(c, s) && s.phase.AwaitingAck?
    ensures Sound(c, s.(phase := AwaitingAck(s.phase.closeId, true)))
  {
    hide Q.Accounted, Q.InputAccounted, B.WellKept, T.Orderly, Disciplined, FinishedIn, Conserved, HasTerminal;
  }

  lemma ReceiveControlSound(c: Config, s: State, control: Control)
    requires Sound(c, s)
    ensures Sound(c, ReceiveControl(c, s, control))
  {
    hide Sound, Continued, Returned, FinishTerminal, Deliver;
    match control
    case Errored(code, retryable) =>
      FinishTerminalSound(c, s, SessionFailed(code, retryable), (Relay, Severity(retryable)));
      ResumedSound(c, FinishTerminal(c, s, SessionFailed(code, retryable), (Relay, Severity(retryable))));
    case WasClosed(reason, initiator, disposition, related) =>
      var e := SessionClosed(reason, initiator, disposition, related);
      FinishTerminalSound(c, s, e, (initiator, disposition));
      ResumedSound(c, FinishTerminal(c, s, e, (initiator, disposition)));
    case Expiring(tag) =>
      DeliverSound(c, s, Passed(tag));
      ResumedSound(c, Deliver(c, s, Passed(tag)).state);
  }

  lemma ReceiveProvidedSound(c: Config, s: State, d: Decoded)
    requires Sound(c, s)
    ensures Sound(c, ReceiveProvided(c, s, d))
  {
    hide Sound, Continued, Returned, Apply;
    ResumedSound(c, s);
    var s1 := s.(seenEvents := s.seenEvents + {d.eventId});
    PartsOf(c, s);
    QuietlySound(c, s, s1);
    ApplySound(c, s1, d);
    ResumedSound(c, Apply(c, s1, d).state);
  }

  lemma ConsumingSound(c: Config, s: State)
    requires Sound(c, s) && s.queue.events != []
    ensures Sound(c, s.(queue := Q.Take(c.limits, s.queue)))
  {
    hide Q.Accounted, Q.InputAccounted, B.WellKept, T.Orderly, Disciplined, FinishedIn, HasTerminal;
    Q.TakeAccounted(c.limits, s.queue);
  }

  lemma SendingSound(c: Config, s: State, input: Q.Input)
    requires Sound(c, s) && Q.InputAccounted(c.input, input)
    ensures Sound(c, s.(input := input))
  {
    hide Q.Accounted, Q.InputAccounted, B.WellKept, T.Orderly, Disciplined, FinishedIn, HasTerminal;
  }

  lemma DeskSound(c: Config, s: State, step: T.Step)
    requires Sound(c, s)
    ensures Sound(c, s.(desk := T.Next(s.desk, step)))
  {
    hide T.Next, Sound;
    PartsOf(c, s);
    T.NextKeeps(s.desk, step);
    QuietlySound(c, s, s.(desk := T.Next(s.desk, step)));
  }

  /** Whatever happens next, everything that held still holds. */
  lemma StepSound(c: Config, s: State, op: Op)
    requires Sound(c, s)
    ensures Sound(c, Step(c, s, op))
  {
    hide Sound, Receive, CancelResponse, Fail, BeginClose, EndClose, T.Next, Q.Take, Q.StartSend, Q.EndSend;
    PartsOf(c, s);
    match op
    case Receiving(payload) => if s.receiving { ReceiveSound(c, s, payload); }
    case ReceiverCancelled => ResumedSound(c, s);
    case Cancelling => CancelSound(c, s);
    case SenderFails(code, retryable) => FailSound(c, s, code, retryable);
    case Closing(closeId) => BeginCloseSound(c, s, closeId);
    case CloseEnds(reason, heard) => if s.phase.AwaitingAck? { EndCloseSound(c, s, reason, heard); }
    case Consuming => if s.queue.events != [] { ConsumingSound(c, s); }
    case LosingGeneration => QuietlySound(c, s, s.(current := false));
    case ContextStarts(id) => QuietlySound(c, s, s.(contextPending := s.contextPending + {id}));
    case ContextEnds(id) => QuietlySound(c, s, s.(contextPending := s.contextPending - {id}));
    case Submitting(call, output) => DeskSound(c, s, T.Submitting(call, output));
    case Beginning(call, payload) => DeskSound(c, s, T.Beginning(call, payload));
    case Resuming(call, progress) => DeskSound(c, s, T.Resuming(call, progress));
    case AudioStarts(size) =>
      Q.InputStaysAccounted(c.input, s.input, size, 0);
      if Q.StartSend(c.input, s.input, size).Ok? {
        SendingSound(c, s, Q.StartSend(c.input, s.input, size).value);
      }
    case AudioEnds(k) =>
      if k < |s.input.sizes| {
        Q.InputStaysAccounted(c.input, s.input, 0, k);
        SendingSound(c, s, Q.EndSend(s.input, k));
      }
  }

  lemma {:induction false} RunSound(c: Config, s: State, ops: seq<Op>)
    requires Sound(c, s)
    ensures Sound(c, Run(c, s, ops))
    decreases |ops|
  {
    hide Sound, Step;
    if ops != [] {
      StepSound(c, s, ops[0]);
      RunSound(c, Step(c, s, ops[0]), ops[1..]);
    }
  }
}
