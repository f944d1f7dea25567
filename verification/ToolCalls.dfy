/** Tool calls of a managed session: the phases of each call, its result and follow-up sends
    and their retries, and the follow-ups waiting for a response (session.py). Every stretch of
    an attempt between two awaits is one step. */
module ToolCalls {
  import opened Common

  datatype Phase = Requested | ResultSent | ResultAcked | FollowupRequested | FollowupStarted

  /** What the attempt of a call is waiting for: created but not yet begun, or at one of its awaits. */
  datatype Attempt = Idle | Created(submitted: string) | SendingResult | AwaitingAck | SendingFollowup

  datatype Tool = Tool(
    phase: Phase, output: Option<string>, result: Option<string>, followup: Option<string>, attempt: Attempt)

  /** What went over the wire for tool calls, in order. */
  datatype Mark =
    | ResultSend(call: Id, payload: string)
    | AckSeen(call: Id, output: string)
    | FollowupSend(call: Id, payload: string)

  datatype Desk = Desk(tools: map<Id, Tool>, waiting: seq<Id>, log: seq<Mark>)

  const BARE := Desk(map[], [], [])

  function Rank(p: Phase): nat {
    match p case Requested => 0 case ResultSent => 1 case ResultAcked => 2 case FollowupRequested => 3
      case FollowupStarted => 4
  }

  // ---- one step ----

  function Open(d: Desk, call: Id): Desk {
    d.(tools := d.tools[call := Tool(Requested, None, None, None, Idle)])
  }

  function SendResult(d: Desk, call: Id, t: Tool): Desk
    requires t.result.Some?
  {
    Desk(d.tools[call := t.(attempt := SendingResult)], d.waiting, d.log + [ResultSend(call, t.result.value)])
  }

  function SendFollowup(d: Desk, call: Id, t: Tool): Desk
    requires t.followup.Some?
  {
    Desk(d.tools[call := t.(attempt := SendingFollowup)], d.waiting, d.log + [FollowupSend(call, t.followup.value)])
  }

  /** One attempt up to its first await. `payload` is the freshly encoded event, used only where
      the attempt encodes one. */
  function Try(d: Desk, call: Id, output: string, payload: string): Desk
    requires call in d.tools
  {
    var t := d.tools[call];
    match t.phase
    case Requested => SendResult(d, call, t.(output := Some(output), result := Some(payload), phase := ResultSent))
    case ResultSent => if t.result.Some? then SendResult(d, call, t) else d
    case ResultAcked =>
      var waiting := if call in d.waiting then d.waiting else d.waiting + [call];
      SendFollowup(d.(waiting := waiting), call, t.(followup := Some(payload), phase := FollowupRequested))
    case FollowupRequested => if t.followup.Some? then SendFollowup(d, call, t) else d
    case FollowupStarted => d.(tools := d.tools[call := t.(attempt := Idle)])
  }

  /** `submit_tool_result`: create an attempt, or join the one there is. The record's output is set
      only when the attempt begins. */
  function Submit(d: Desk, call: Id, output: string): Result<Desk, ErrorCode> {
    if call !in d.tools then Err(InvalidRequest)
    else if d.tools[call].output.Some? && d.tools[call].output.value != output then Err(InvalidRequest)
    else if d.tools[call].attempt != Idle then Ok(d)
    else Ok(d.(tools := d.tools[call := d.tools[call].(attempt := Created(output))]))
  }

  /** The created attempt begins, whatever has happened to the session since. */
  function Begin(d: Desk, call: Id, payload: string): Desk {
    if call !in d.tools || !d.tools[call].attempt.Created? then d
    else Try(d, call, d.tools[call].attempt.submitted, payload)
  }

  /** The server's echo of a tool output; None when it breaks the protocol. */
  function Ack(d: Desk, call: Id, output: string, wellFormed: bool): Option<Desk> {
    if call !in d.tools || d.tools[call].output != Some(output) || !wellFormed then None
    else if d.tools[call].phase != ResultSent then Some(d)
    else Some(d.(tools := d.tools[call := d.tools[call].(phase := ResultAcked)],
                 log := d.log + [AckSeen(call, output)]))
  }

  /** A new response starts: the longest waiting follow-up is answered. */
  function ResponseStarts(d: Desk): Desk {
    if d.waiting == [] then d
    else if d.waiting[0] !in d.tools then d.(waiting := d.waiting[1..])
    else d.(tools := d.tools[d.waiting[0] := d.tools[d.waiting[0]].(phase := FollowupStarted)],
            waiting := d.waiting[1..])
  }

  /** How the running attempt of a call goes on. */
  datatype Progress =
    | SendCompletes | SendFails   // also a cancelled attempt
    | AckArrives(payload: string) | AckExpires

  function Resume(d: Desk, call: Id, p: Progress): Desk {
    if call !in d.tools then d
    else
      var t := d.tools[call];
      match p
      case SendCompletes =>
        if t.attempt == SendingResult then d.(tools := d.tools[call := t.(attempt := AwaitingAck)])
        else if t.attempt == SendingFollowup then d.(tools := d.tools[call := t.(attempt := Idle)])
        else d
      case SendFails => d.(tools := d.tools[call := t.(attempt := Idle)])
      case AckArrives(payload) =>
        if t.attempt == AwaitingAck && Rank(t.phase) >= 2 then Try(d, call, "", payload) else d
      case AckExpires =>
        if t.attempt == AwaitingAck then d.(tools := d.tools[call := t.(attempt := Idle)]) else d
  }

  datatype Step =
    | Opening(call: Id)
    | Submitting(call: Id, output: string)
    | Beginning(call: Id, payload: string)
    | Resuming(call: Id, progress: Progress)
    | Acking(call: Id, output: string, wellFormed: bool)
    | Responding

  /** A refused submit and a broken echo change nothing here; a call is opened only once. */
  function Next(d: Desk, s: Step): Desk {
    match s
    case Opening(call) => if call in d.tools then d else Open(d, call)
    case Submitting(call, output) => (match Submit(d, call, output) case Ok(d') => d' case Err(_) => d)
    case Beginning(call, payload) => Begin(d, call, payload)
    case Resuming(call, p) => Resume(d, call, p)
    case Acking(call, output, wellFormed) =>
      (match Ack(d, call, output, wellFormed) case Some(d') => d' case None => d)
    case Responding => ResponseStarts(d)
  }

  // ---- what every interleaving keeps ----

  /** What a tool record holds in each phase. */
  ghost predicate Filled(t: Tool) {
    && (t.output.Some? <==> Rank(t.phase) >= 1)
    && (t.result.Some? <==> Rank(t.phase) >= 1)
    && (t.followup.Some? <==> Rank(t.phase) >= 3)
    && (t.attempt == SendingResult || t.attempt == AwaitingAck ==> t.phase in {ResultSent, ResultAcked})
    && (t.attempt == SendingFollowup ==> t.phase in {FollowupRequested, FollowupStarted})
    && (t.attempt.Created? && t.output.Some? ==> t.attempt.submitted == t.output.value)
  }

  /** A follow-up went out only behind an echo of exactly this call's output. */
  ghost predicate AckedBefore(log: seq<Mark>, call: Id, output: string, j: int) {
    exists i :: 0 <= i < j && i < |log| && log[i] == AckSeen(call, output)
  }

  ghost predicate Justified(d: Desk, j: int)
    requires 0 <= j < |d.log|
  {
    var m := d.log[j];
    && m.call in d.tools
    && match m
       case ResultSend(call, payload) => d.tools[call].result == Some(payload)
       case AckSeen(call, output) => d.tools[call].output == Some(output) && Rank(d.tools[call].phase) >= 2
       case FollowupSend(call, payload) =>
         && d.tools[call].followup == Some(payload)
         && d.tools[call].output.Some?
         && AckedBefore(d.log, call, d.tools[call].output.value, j)
  }

  ghost predicate Orderly(d: Desk) {
    && (forall c :: c in d.tools ==> Filled(d.tools[c]))
    && Distinct(d.waiting)
    && (forall c :: c in d.waiting <==> c in d.tools && d.tools[c].phase == FollowupRequested)
    && (forall j :: 0 <= j < |d.log| ==> Justified(d, j))
    && (forall c :: c in d.tools && Rank(d.tools[c].phase) >= 2 ==>
         d.tools[c].output.Some? && AckedBefore(d.log, c, d.tools[c].output.value, |d.log|))
  }

  /** No step moves a call backwards or changes what it has recorded. */
  ghost predicate Forward(d: Desk, d': Desk) {
    forall c :: c in d.tools ==>
      && c in d'.tools
      && Rank(d.tools[c].phase) <= Rank(d'.tools[c].phase)
      && (d.tools[c].output.Some? ==> d'.tools[c].output == d.tools[c].output)
      && (d.tools[c].result.Some? ==> d'.tools[c].result == d.tools[c].result)
      && (d.tools[c].followup.Some? ==> d'.tools[c].followup == d.tools[c].followup)
  }

  /** Updating one record forward, with at most one new mark, keeps everything in order. */
  lemma UpdateKeeps(d: Desk, call: Id, t: Tool, waiting: seq<Id>, marks: seq<Mark>)
    requires Orderly(d) && Filled(t)
    requires call in d.tools ==> Forward(d, d.(tools := d.tools[call := t]))
    requires Distinct(waiting)
    requires forall c :: c in waiting <==> if c == call then t.phase == FollowupRequested else c in d.waiting
    requires |marks| <= 1
    requires forall m :: m in marks ==> m.call == call && match m
      case ResultSend(_, payload) => t.result == Some(payload)
      case AckSeen(_, output) => t.output == Some(output) && Rank(t.phase) >= 2
      case FollowupSend(_, payload) => t.followup == Some(payload) && call in d.tools && Rank(d.tools[call].phase) >= 2
    requires Rank(t.phase) >= 2 ==>
      || (call in d.tools && Rank(d.tools[call].phase) >= 2)
      || (t.output.Some? && marks == [AckSeen(call, t.output.value)])
    ensures Orderly(Desk(d.tools[call := t], waiting, d.log + marks))
    ensures Forward(d, Desk(d.tools[call := t], waiting, d.log + marks))
  {
    var d' := Desk(d.tools[call := t], waiting, d.log + marks);
    LogGrows(d.log, marks);
    forall j | 0 <= j < |d'.log| ensures Justified(d', j) {
      if j < |d.log| {
        assert Justified(d, j);
      } else {
        assert d'.log[j] in marks;
      }
    }
    if marks != [] {
      assert d'.log[|d.log|] == marks[0];
    }
  }

  lemma LogGrows(log: seq<Mark>, marks: seq<Mark>)
    ensures forall call, output, j :: AckedBefore(log, call, output, j) ==> AckedBefore(log + marks, call, output, j)
    ensures forall call, output :: AckedBefore(log, call, output, |log|) ==>
      AckedBefore(log + marks, call, output, |log + marks|)
    ensures forall call, output :: marks == [AckSeen(call, output)] ==>
      AckedBefore(log + marks, call, output, |log + marks|)
  {
    forall call, output, j | AckedBefore(log, call, output, j) ensures AckedBefore(log + marks, call, output, j) {
      var i :| 0 <= i < j && i < |log| && log[i] == AckSeen(call, output);
      assert (log + marks)[i] == AckSeen(call, output);
    }
    forall call, output | AckedBefore(log, call, output, |log|)
      ensures AckedBefore(log + marks, call, output, |log + marks|)
    {
      var i :| 0 <= i < |log| && log[i] == AckSeen(call, output);
      assert (log + marks)[i] == AckSeen(call, output);
    }
    forall call, output | marks == [AckSeen(call, output)]
      ensures AckedBefore(log + marks, call, output, |log + marks|)
    {
      assert (log + marks)[|log|] == AckSeen(call, output);
    }
  }

  lemma TryKeeps(d: Desk, call: Id, output: string, payload: string)
    requires Orderly(d) && call in d.tools
    ensures Orderly(Try(d, call, output, payload)) && Forward(d, Try(d, call, output, payload))
  {
    hide Orderly, Forward;
    var t := d.tools[call];
    assert Filled(t) && Distinct(d.waiting) && (call in d.waiting <==> t.phase == FollowupRequested)
      && (forall c :: c in d.waiting ==> c in d.tools) by { InOrder(d, call); }
    match t.phase
    case Requested =>
      var t' := t.(output := Some(output), result := Some(payload), phase := ResultSent, attempt := SendingResult);
      UpdateForward(d, call, t');
      UpdateKeeps(d, call, t', d.waiting, [ResultSend(call, payload)]);
    case ResultSent =>
      UpdateForward(d, call, t.(attempt := SendingResult));
      UpdateKeeps(d, call, t.(attempt := SendingResult), d.waiting, [ResultSend(call, t.result.value)]);
    case ResultAcked =>
      var t' := t.(followup := Some(payload), phase := FollowupRequested, attempt := SendingFollowup);
      UpdateForward(d, call, t');
      UpdateKeeps(d, call, t', d.waiting + [call], [FollowupSend(call, payload)]);
    case FollowupRequested =>
      UpdateForward(d, call, t.(attempt := SendingFollowup));
      UpdateKeeps(d, call, t.(attempt := SendingFollowup), d.waiting, [FollowupSend(call, t.followup.value)]);
    case FollowupStarted =>
      UpdateForward(d, call, t.(attempt := Idle));
      UpdateKeeps(d, call, t.(attempt := Idle), d.waiting, []);
      assert d.log + [] == d.log;
  }

  lemma InOrder(d: Desk, call: Id)
    requires Orderly(d) && call in d.tools
    ensures Filled(d.tools[call]) && Distinct(d.waiting)
    ensures call in d.waiting <==> d.tools[call].phase == FollowupRequested
    ensures forall c :: c in d.waiting ==> c in d.tools
  {
  }

  lemma UpdateForward(d: Desk, call: Id, t: Tool)
    requires call in d.tools && Rank(d.tools[call].phase) <= Rank(t.phase)
    requires d.tools[call].output.Some? ==> t.output == d.tools[call].output
    requires d.tools[call].result.Some? ==> t.result == d.tools[call].result
    requires d.tools[call].followup.Some? ==> t.followup == d.tools[call].followup
    ensures Forward(d, d.(tools := d.tools[call := t]))
  {
  }

  /** Any step under any interleaving keeps the desk in order and moves calls only forward. */
  lemma NextKeeps(d: Desk, s: Step)
    requires Orderly(d)
    ensures Orderly(Next(d, s)) && Forward(d, Next(d, s))
  {
    hide Orderly, Forward, Try, Filled;
    Unmoved(d);
    match s
    case Opening(call) =>
      if call !in d.tools {
        OpenKeeps(d, call);
      }
    case Submitting(call, output) => SubmitKeeps(d, call, output);
    case Beginning(call, payload) =>
      if call in d.tools && d.tools[call].attempt.Created? {
        TryKeeps(d, call, d.tools[call].attempt.submitted, payload);
      }
    case Resuming(call, p) => ResumeKeeps(d, call, p);
    case Acking(call, output, wellFormed) => AckKeeps(d, call, output, wellFormed);
    case Responding => ResponseStartsKeeps(d);
  }

  lemma SubmitKeeps(d: Desk, call: Id, output: string)
    requires Orderly(d)
    ensures Submit(d, call, output).Ok? ==>
      Orderly(Submit(d, call, output).value) && Forward(d, Submit(d, call, output).value)
  {
    hide Orderly, Forward;
    Unmoved(d);
    if Submit(d, call, output).Ok? && d.tools[call].attempt == Idle {
      InOrder(d, call);
      var t' := d.tools[call].(attempt := Created(output));
      UpdateForward(d, call, t');
      UpdateKeeps(d, call, t', d.waiting, []);
      assert d.log + [] == d.log;
    }
  }

  /** While an attempt with one output is under way, a submit with another is refused exactly when
      that attempt has begun. Before, it joins the attempt in silence, and its output is lost. */
  lemma ChangedOutputRefusedExactly(d: Desk, call: Id, output: string)
    requires Orderly(d) && call in d.tools
    requires d.tools[call].attempt != Idle
    requires d.tools[call].attempt.Created? ==> output != d.tools[call].attempt.submitted
    requires d.tools[call].output.Some? ==> output != d.tools[call].output.value
    ensures Submit(d, call, output) ==
      if d.tools[call].phase == Requested then Ok(d) else Err(InvalidRequest)
    ensures d.tools[call].phase == Requested ==> d.tools[call].attempt.Created?
  {
    InOrder(d, call);
  }

  /** Two submits in a row do this. */
  lemma ChangedOutputMayJoin(call: Id, first: string, second: string, payload: string)
    requires first != second
    ensures var d := Run(BARE, [Opening(call), Submitting(call, first)]);
            && Submit(d, call, second) == Ok(d)
            && Begin(d, call, payload).tools[call].output == Some(first)
            && Begin(d, call, payload).log == [ResultSend(call, payload)]
  {
    var steps := [Opening(call), Submitting(call, first)];
    var d1 := Next(BARE, steps[0]);
    assert steps[1..] == [steps[1]] && [steps[1]][1..] == [];
    assert Run(BARE, steps) == Run(d1, [steps[1]]) == Run(Next(d1, steps[1]), []);
  }

  lemma Unmoved(d: Desk)
    ensures Forward(d, d)
  {
  }

  lemma OpenKeeps(d: Desk, call: Id)
    requires Orderly(d) && call !in d.tools
    ensures Orderly(Open(d, call)) && Forward(d, Open(d, call))
  {
    var t := Tool(Requested, None, None, None, Idle);
    UpdateKeeps(d, call, t, d.waiting, []);
    assert d.log + [] == d.log;
  }

  lemma ResumeKeeps(d: Desk, call: Id, p: Progress)
    requires Orderly(d)
    ensures Orderly(Resume(d, call, p)) && Forward(d, Resume(d, call, p))
  {
    hide Orderly, Forward, Try;
    Unmoved(d);
    if call in d.tools {
      InOrder(d, call);
      if p.AckArrives? && d.tools[call].attempt == AwaitingAck && Rank(d.tools[call].phase) >= 2 {
        TryKeeps(d, call, "", p.payload);
      } else {
        var t' := if call in Resume(d, call, p).tools then Resume(d, call, p).tools[call] else d.tools[call];
        UpdateForward(d, call, t');
        UpdateKeeps(d, call, t', d.waiting, []);
        assert d.log + [] == d.log;
        assert d.tools[call := d.tools[call]] == d.tools;
      }
    }
  }

  lemma AckKeeps(d: Desk, call: Id, output: string, wellFormed: bool)
    requires Orderly(d)
    ensures Ack(d, call, output, wellFormed).Some? ==>
      Orderly(Ack(d, call, output, wellFormed).value) && Forward(d, Ack(d, call, output, wellFormed).value)
  {
    hide Orderly, Forward;
    Unmoved(d);
    if Ack(d, call, output, wellFormed).Some? && d.tools[call].phase == ResultSent {
      InOrder(d, call);
      var t' := d.tools[call].(phase := ResultAcked);
      UpdateForward(d, call, t');
      UpdateKeeps(d, call, t', d.waiting, [AckSeen(call, output)]);
    }
  }

  lemma ResponseStartsKeeps(d: Desk)
    requires Orderly(d)
    ensures Orderly(ResponseStarts(d)) && Forward(d, ResponseStarts(d))
  {
    if d.waiting != [] {
      var call := d.waiting[0];
      assert call in d.waiting;
      var t' := d.tools[call].(phase := FollowupStarted);
      UpdateForward(d, call, t');
      assert d.waiting == [call] + d.waiting[1..];
      assert forall c :: c in d.waiting[1..] <==> c in d.waiting && c != call;
      UpdateKeeps(d, call, t', d.waiting[1..], []);
      assert d.log + [] == d.log;
    }
  }

  // ---- whole runs ----

  function Run(d: Desk, steps: seq<Step>): Desk
    decreases |steps|
  {
    if steps == [] then d else Run(Next(d, steps[0]), steps[1..])
  }

  lemma {:induction false} RunKeeps(d: Desk, steps: seq<Step>)
    requires Orderly(d)
    ensures Orderly(Run(d, steps)) && Forward(d, Run(d, steps))
    decreases |steps|
  {
    hide Orderly, Forward, Next;
    Unmoved(d);
    if steps != [] {
      NextKeeps(d, steps[0]);
      RunKeeps(Next(d, steps[0]), steps[1..]);
      ForwardThrough(d, Next(d, steps[0]), Run(d, steps));
    }
  }

  lemma ForwardThrough(a: Desk, b: Desk, c: Desk)
    requires Forward(a, b) && Forward(b, c)
    ensures Forward(a, c)
  {
  }

  /** What an orderly desk means: all sends of a call's result are byte-identical, so are all its
      follow-up sends, every follow-up send is behind an echo of exactly the output that was sent,
      and the waiting list holds, once each, exactly the calls whose follow-up is requested. */
  lemma OrderlyMeans(d: Desk, i: nat, j: nat)
    requires Orderly(d)
    requires i < j < |d.log|
    ensures var m, n := d.log[i], d.log[j];
            && (m.ResultSend? && n.ResultSend? && m.call == n.call ==> m.payload == n.payload)
            && (m.FollowupSend? && n.FollowupSend? && m.call == n.call ==> m.payload == n.payload)
            && (n.FollowupSend? ==>
                 && n.call in d.tools && d.tools[n.call].output.Some?
                 && exists k :: 0 <= k < j && d.log[k] == AckSeen(n.call, d.tools[n.call].output.value))
            && Distinct(d.waiting)
            && forall c :: c in d.waiting <==> c in d.tools && d.tools[c].phase == FollowupRequested
  {
    assert Justified(d, i) && Justified(d, j);
  }

  /** The same for every interleaving of submits, retries, failed sends, echoes and new responses. */
  lemma ToolProtocol(steps: seq<Step>)
    ensures Orderly(Run(BARE, steps))
    ensures forall before, after :: steps == before + after ==> Forward(Run(BARE, before), Run(BARE, steps))
  {
    hide Orderly, Forward, Next;
    BareIsOrderly();
    RunKeeps(BARE, steps);
    forall before, after | steps == before + after ensures Forward(Run(BARE, before), Run(BARE, steps)) {
      RunKeeps(BARE, before);
      RunInTwo(BARE, before, after);
      RunKeeps(Run(BARE, before), after);
    }
  }

  lemma {:induction false} RunInTwo(d: Desk, before: seq<Step>, after: seq<Step>)
    ensures Run(d, before + after) == Run(Run(d, before), after)
    decreases |before|
  {
    if before == [] {
      assert before + after == after;
    } else {
      assert (before + after)[1..] == before[1..] + after;
      RunInTwo(Next(d, before[0]), before[1..], after);
    }
  }

  // ---- exactly what each step does ----

  /** An echo breaks the protocol exactly when the call is unknown, the output is not the recorded one,
      or it is malformed. Otherwise it acknowledges a call whose result was sent, and changes nothing
      in any later phase. */
  lemma AcknowledgesExactly(d: Desk, call: Id, output: string, wellFormed: bool)
    requires Orderly(d)
    ensures var proper := call in d.tools && d.tools[call].output == Some(output) && wellFormed;
            var d' := Next(d, Acking(call, output, wellFormed));
            && (Ack(d, call, output, wellFormed).None? <==> !proper)
            && (proper && d.tools[call].phase == ResultSent ==>
                 && d'.tools == d.tools[call := d.tools[call].(phase := ResultAcked)]
                 && d'.log == d.log + [AckSeen(call, output)] && d'.waiting == d.waiting)
            && (proper && d.tools[call].phase != ResultSent ==> Rank(d.tools[call].phase) >= 2)
            && (!proper || d.tools[call].phase != ResultSent ==> d' == d)
  {
    if call in d.tools {
      InOrder(d, call);
    }
  }

  /** A submit is refused exactly for an unknown call or an output other than the recorded one. It
      creates an attempt exactly when none is under way, and changes nothing else. */
  lemma SubmitsExactly(d: Desk, call: Id, output: string)
    requires Orderly(d)
    ensures var known := call in d.tools;
            var refused := !known || (Rank(d.tools[call].phase) >= 1 && d.tools[call].output != Some(output));
            var d' := Next(d, Submitting(call, output));
            && (refused <==> Submit(d, call, output) == Err(InvalidRequest))
            && (!refused <==> Submit(d, call, output).Ok?)
            && (!refused && d.tools[call].attempt == Idle ==>
                 d' == d.(tools := d.tools[call := d.tools[call].(attempt := Created(output))]))
            && (refused || d.tools[call].attempt != Idle ==> d' == d)
  {
    if call in d.tools {
      InOrder(d, call);
    }
  }

  /** What a created attempt does on its first turn, phase by phase: it sends the fresh result, or the
      recorded one again; the fresh follow-up, or the recorded one again; or nothing more. */
  lemma BeginsExactly(d: Desk, call: Id, payload: string)
    requires Orderly(d) && call in d.tools && d.tools[call].attempt.Created?
    ensures var t, d' := d.tools[call], Next(d, Beginning(call, payload));
            var output := t.attempt.submitted;
            && call in d'.tools
            && (t.phase == Requested ==>
                 && d'.tools[call] == Tool(ResultSent, Some(output), Some(payload), None, SendingResult)
                 && d'.log == d.log + [ResultSend(call, payload)] && d'.waiting == d.waiting)
            && (t.phase == ResultSent ==>
                 && t.result.Some? && d'.tools[call] == t.(attempt := SendingResult)
                 && d'.log == d.log + [ResultSend(call, t.result.value)] && d'.waiting == d.waiting)
            && (t.phase == ResultAcked ==>
                 && d'.tools[call] ==
                      t.(phase := FollowupRequested, followup := Some(payload), attempt := SendingFollowup)
                 && d'.log == d.log + [FollowupSend(call, payload)] && d'.waiting == d.waiting + [call])
            && (t.phase == FollowupRequested ==>
                 && t.followup.Some? && d'.tools[call] == t.(attempt := SendingFollowup)
                 && d'.log == d.log + [FollowupSend(call, t.followup.value)] && d'.waiting == d.waiting)
            && (t.phase == FollowupStarted ==>
                 d'.tools[call] == t.(attempt := Idle) && d'.log == d.log && d'.waiting == d.waiting)
  {
    InOrder(d, call);
  }

  /** A new response answers exactly the call that waits longest for its follow-up. */
  lemma RespondsExactly(d: Desk)
    requires Orderly(d)
    ensures d.waiting == [] ==> Next(d, Responding) == d
    ensures d.waiting != [] ==>
      var call, d' := d.waiting[0], Next(d, Responding);
      && call in d.tools
      && d'.tools == d.tools[call := d.tools[call].(phase := FollowupStarted)]
      && d'.waiting == d.waiting[1..] && call !in d'.waiting && d'.log == d.log
  {
    if d.waiting != [] {
      assert d.waiting[0] in d.waiting;
    }
  }

  /** The whole way of a call, for every id, output and payload: its result is sent and acknowledged,
      its follow-up sent, and the next response answers it; the same when the echo is quicker than
      the send. */
  lemma CallGoesThrough(call: Id, output: string, result: string, followup: string)
    ensures var echo := Acking(call, output, true);
            var sent := Run(BARE, [Opening(call), Submitting(call, output), Beginning(call, result)]);
            var d := Run(sent, [Resuming(call, SendCompletes), echo, Resuming(call, AckArrives(followup))]);
            var answered := Run(d, [Resuming(call, SendCompletes), Responding]);
            && Run(sent, [echo, Resuming(call, SendCompletes), Resuming(call, AckArrives(followup))]) == d
            && call in d.tools && d.tools[call].phase == FollowupRequested && d.waiting == [call]
            && d.log == [ResultSend(call, result), AckSeen(call, output), FollowupSend(call, followup)]
            && call in answered.tools && answered.tools[call].phase == FollowupStarted
            && answered.tools[call].attempt == Idle && answered.waiting == [] && answered.log == d.log
  {
    hide Next;
    var echo := Acking(call, output, true);
    var sends, arrives := Resuming(call, SendCompletes), Resuming(call, AckArrives(followup));
    var sent, d := AfterResult(call, output, result), AfterFollowup(call, output, result, followup);
    RunOfThree(BARE, Opening(call), Submitting(call, output), Beginning(call, result));
    ResultGoesOut(call, output, result);
    RunOfThree(sent, sends, echo, arrives);
    RunOfThree(sent, echo, sends, arrives);
    FollowupGoesOut(call, output, result, followup);
    RunOfTwo(d, sends, Responding);
    FollowupIsAnswered(call, output, result, followup);
  }

  /** A desk with one call, whose result is being sent. */
  function AfterResult(call: Id, output: string, result: string): Desk {
    Desk(map[call := Tool(ResultSent, Some(output), Some(result), None, SendingResult)], [], [ResultSend(call, result)])
  }

  /** A desk with one call, whose follow-up is being sent. */
  function AfterFollowup(call: Id, output: string, result: string, followup: string): Desk {
    Desk(map[call := Tool(FollowupRequested, Some(output), Some(result), Some(followup), SendingFollowup)], [call],
         [ResultSend(call, result), AckSeen(call, output), FollowupSend(call, followup)])
  }

  lemma ResultGoesOut(call: Id, output: string, result: string)
    ensures Next(Next(Next(BARE, Opening(call)), Submitting(call, output)), Beginning(call, result))
         == AfterResult(call, output, result)
  {
    var t := Tool(ResultSent, Some(output), Some(result), None, SendingResult);
    assert map[call := t] == map[][call := t];
  }

  lemma FollowupGoesOut(call: Id, output: string, result: string, followup: string)
    ensures var echo := Acking(call, output, true);
            var sends, arrives := Resuming(call, SendCompletes), Resuming(call, AckArrives(followup));
            var sent, d := AfterResult(call, output, result), AfterFollowup(call, output, result, followup);
            && Next(Next(Next(sent, sends), echo), arrives) == d
            && Next(Next(Next(sent, echo), sends), arrives) == d
  {
  }

  lemma FollowupIsAnswered(call: Id, output: string, result: string, followup: string)
    ensures var d := AfterFollowup(call, output, result, followup);
            var answered := Next(Next(d, Resuming(call, SendCompletes)), Responding);
            && call in answered.tools && answered.tools[call].phase == FollowupStarted
            && answered.tools[call].attempt == Idle && answered.waiting == [] && answered.log == d.log
  {
  }

  /** However a send of the result or the wait for its echo ends, submitting the same output again
      sends the very same result again; and likewise the follow-up. */
  lemma RetriesRepeat(d: Desk, call: Id, output: string, p: Progress, payload: string)
    requires Orderly(d) && call in d.tools && d.tools[call].output == Some(output)
    requires (p.SendFails? && d.tools[call].attempt in {SendingResult, SendingFollowup})
      || (p.AckExpires? && d.tools[call].attempt == AwaitingAck)
    ensures var t, d' := d.tools[call], Run(d, [Resuming(call, p), Submitting(call, output), Beginning(call, payload)]);
            && (t.phase == ResultSent ==> t.result.Some? && d'.log == d.log + [ResultSend(call, t.result.value)])
            && (t.phase == FollowupRequested ==>
                 t.followup.Some? && d'.log == d.log + [FollowupSend(call, t.followup.value)])
  {
    InOrder(d, call);
    RunOfThree(d, Resuming(call, p), Submitting(call, output), Beginning(call, payload));
  }

  lemma RunOfTwo(d: Desk, a: Step, b: Step)
    ensures Run(d, [a, b]) == Next(Next(d, a), b)
  {
    hide Next;
    assert [a, b][1..] == [b] && [b][1..] == [];
    assert Run(Next(d, a), [b]) == Run(Next(Next(d, a), b), []);
  }

  lemma RunOfThree(d: Desk, a: Step, b: Step, c: Step)
    ensures Run(d, [a, b, c]) == Next(Next(Next(d, a), b), c)
  {
    hide Next;
    assert [a, b, c][1..] == [b, c];
    RunOfTwo(Next(d, a), b, c);
  }

  lemma BareIsOrderly()
    ensures Orderly(BARE)
  {
  }

  // ---- as the session's own fields ----

  /** The tool records of a session and the follow-ups that wait for a response. */
  class ToolDesk {
    var tools: map<Id, Tool>
    var followupWaiting: seq<Id>
    ghost var wire: seq<Mark>

    ghost function Model(): Desk
      reads this
    {
      Desk(tools, followupWaiting, wire)
    }

    constructor ()
      ensures Model() == BARE
    {
      tools, followupWaiting, wire := map[], [], [];
    }

    method Register(call: Id)
      modifies this
      ensures Model() == Open(old(Model()), call)
    {
      tools := tools[call := Tool(Requested, None, None, None, Idle)];
    }

    /** `_submit_tool_result_attempt` up to its first await. */
    method Attempt(call: Id, output: string, payload: string)
      requires call in tools
      modifies this
      ensures Model() == Try(old(Model()), call, output, payload)
    {
      var t := tools[call];
      if t.phase == Requested {
        t := t.(output := Some(output), result := Some(payload), phase := ResultSent);
      }
      if t.phase == ResultSent {
        if t.result.Some? {
          tools := tools[call := t.(attempt := SendingResult)];
          wire := wire + [ResultSend(call, t.result.value)];
        }
        return;
      }
      if t.phase == ResultAcked {
        t := t.(followup := Some(payload), phase := FollowupRequested);
        if call !in followupWaiting {
          followupWaiting := followupWaiting + [call];
        }
      }
      if t.phase == FollowupRequested {
        if t.followup.Some? {
          tools := tools[call := t.(attempt := SendingFollowup)];
          wire := wire + [FollowupSend(call, t.followup.value)];
        }
        return;
      }
      tools := tools[call := t.(attempt := Idle)];
    }

    /** `submit_tool_result`: an unknown call and an output other than the recorded one are refused,
        an attempt under way is joined. */
    method SubmitResult(call: Id, output: string) returns (outcome: Result<(), ErrorCode>)
      modifies this
      ensures match Submit(old(Model()), call, output)
              case Ok(d) => outcome == Ok(()) && Model() == d
              case Err(e) => outcome == Err(e) && Model() == old(Model())
    {
      if call !in tools {
        return Err(InvalidRequest);
      }
      if tools[call].output.Some? && tools[call].output.value != output {
        return Err(InvalidRequest);
      }
      if tools[call].attempt == Idle {
        tools := tools[call := tools[call].(attempt := Created(output))];
      }
      return Ok(());
    }

    /** The task of a created attempt gets its first turn. */
    method BeginAttempt(call: Id, payload: string)
      modifies this
      ensures Model() == Begin(old(Model()), call, payload)
    {
      if call in tools && tools[call].attempt.Created? {
        Attempt(call, tools[call].attempt.submitted, payload);
      }
    }

    method Acknowledge(call: Id, output: string, wellFormed: bool) returns (ok: bool)
      modifies this
      ensures match Ack(old(Model()), call, output, wellFormed)
              case Some(d) => ok && Model() == d
              case None => !ok && Model() == old(Model())
    {
      if call !in tools || tools[call].output != Some(output) || !wellFormed {
        return false;
      }
      if tools[call].phase == ResultSent {
        tools := tools[call := tools[call].(phase := ResultAcked)];
        wire := wire + [AckSeen(call, output)];
      }
      return true;
    }

    method AnswerOldest()
      modifies this
      ensures Model() == ResponseStarts(old(Model()))
    {
      if followupWaiting != [] {
        var call := followupWaiting[0];
        followupWaiting := followupWaiting[1..];
        if call in tools {
          tools := tools[call := tools[call].(phase := FollowupStarted)];
        }
      }
    }

    /** The running attempt of a call goes on after an await. */
    method GoOn(call: Id, p: Progress)
      modifies this
      ensures Model() == Resume(old(Model()), call, p)
    {
      if call !in tools {
        return;
      }
      var t := tools[call];
      match p
      case SendCompletes =>
        if t.attempt == SendingResult {
          tools := tools[call := t.(attempt := AwaitingAck)];
        } else if t.attempt == SendingFollowup {
          tools := tools[call := t.(attempt := Idle)];
        }
      case SendFails =>
        tools := tools[call := t.(attempt := Idle)];
      case AckArrives(payload) =>
        if t.attempt == AwaitingAck && t.phase != Requested && t.phase != ResultSent {
          Attempt(call, "", payload);
        }
      case AckExpires =>
        if t.attempt == AwaitingAck {
          tools := tools[call := t.(attempt := Idle)];
        }
    }
  }
}
