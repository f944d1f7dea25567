/** Matching of server echoes to context requests in the Qwen adapter (qwen_omni.py):
    first in, first out, and never through something already consumed. */
module ContextAck {
  import opened Common
  import opened IdentityTable

  /** One part of an item's content as the adapter distinguishes them. */
  datatype Part = InputText(text: string) | InputTextWithoutText | InputAudio | OtherPart

  datatype Content = NotAList | Parts(parts: seq<Part>)

  /** A server-created conversation item. A missing or malformed role is the empty string. */
  datatype ServerItem = ServerItem(id: Option<Id>, isMessage: bool, role: string, completed: bool, content: Content)

  /** What a message request expects to see echoed. */
  datatype Expected = Expected(role: Role, text: string)

  /** An outstanding request; instruction updates expect no item. */
  datatype Pending = Pending(id: Id, expected: Option<Expected>)

  datatype Adapter = Adapter(
    pending: seq<Pending>,               // in the order the requests were made
    update: Option<(Id, string)>,
    seenItems: set<Id>, seenEvents: set<Id>,
    table: Table)

  datatype Op =
    | Append(id: Id, role: Role, text: string)
    | Update(id: Id, text: string)
    | ItemCreated(event: Id, item: ServerItem)
    | SessionUpdated(event: Id, instructions: Option<string>, catalogOk: bool)
    | ErrorEvent(event: Id, named: Option<Id>, attributable: bool)
    | Identified(event: Id, q: Registration)  // a voice or output event that registers an identity

  datatype Decoded =
    | Requested(request: Id)
    | Confirmed(confirmed: Id, server: Id)
    | InstructionsConfirmed(update: Id)
    | Ready
    | Rejected(rejected: Id)
    | SessionFailed
    | Ignored
    | Raised(error: ErrorCode)

  function RoleName(r: Role): string {
    match r case User => "user" case Assistant => "assistant" case System => "system"
  }

  // ---- outstanding requests ----

  predicate Holds(pending: seq<Pending>, id: Id) {
    exists i :: 0 <= i < |pending| && pending[i].id == id
  }

  /** The oldest outstanding message: instruction updates are skipped. */
  function Oldest(pending: seq<Pending>): (oldest: Option<Pending>)
    ensures oldest.Some? ==> oldest.value.expected.Some?
  {
    if pending == [] then None
    else if pending[0].expected.Some? then Some(pending[0])
    else Oldest(pending[1..])
  }

  function Drop(pending: seq<Pending>, id: Id): seq<Pending> {
    if pending == [] then []
    else (if pending[0].id == id then [] else [pending[0]]) + Drop(pending[1..], id)
  }

  /** `_context_text_parts`: None when it raises. */
  function TextParts(content: Content): Option<seq<string>> {
    if content.NotAList? || content.parts == [] then None else Texts(content.parts)
  }

  function Texts(parts: seq<Part>): Option<seq<string>> {
    if parts == [] then Some([])
    else if !parts[0].InputText? then None
    else Prefixed([parts[0].text], Texts(parts[1..]))
  }

  function Prefixed(first: seq<string>, later: Option<seq<string>>): Option<seq<string>> {
    match later case None => None case Some(texts) => Some(first + texts)
  }

  lemma PrefixedTwice(xs: seq<string>, ys: seq<string>, later: Option<seq<string>>)
    ensures Prefixed(xs, Prefixed(ys, later)) == Prefixed(xs + ys, later)
    ensures Prefixed([], later) == later
  {
    if later.Some? {
      assert xs + (ys + later.value) == xs + ys + later.value;
      assert [] + later.value == later.value;
    }
  }

  predicate HasAudio(content: Content) {
    content.Parts? && InputAudio in content.parts
  }

  predicate KnownInput(t: Table, server: Id) {
    && server in t.items
    && t.items[server].role == User
    && t.items[server].origin in {"speech_started", "committed", "input_audio_item", "transcript"}
  }

  // ---- decoding ----

  /** The echo of the oldest message, item for item. */
  predicate Echoes(a: Adapter, request: Pending, server: Id, item: ServerItem)
    requires request.expected.Some?
  {
    && item.isMessage && item.completed
    && item.role == RoleName(request.expected.value.role)
    && (Holds(a.pending, server) ==> server == request.id)
    && TextParts(item.content) == Some([request.expected.value.text])
  }

  /** `_context_message_created`. (Its test for unrelated audio cannot succeed: an audio message
      has already been taken as a voice item, and other items get here only by a held id.) */
  function MessageCreated(a: Adapter, event: Id, item: ServerItem): (Adapter, Decoded) {
    if item.id.None? then (a, Raised(ProtocolError))
    else
      var server := item.id.value;
      if item.isMessage && (HasAudio(item.content) || KnownInput(a.table, server)) then
        VoiceItem(a, event, server, item)
      else if server in a.seenItems then (a.(seenEvents := a.seenEvents + {event}), Ignored)
      else match Oldest(a.pending)
        case None =>
          if Holds(a.pending, server) then (a, Raised(ProtocolError))
          else (a.(seenItems := a.seenItems + {server}, seenEvents := a.seenEvents + {event}), Ignored)
        case Some(request) =>
          if !Echoes(a, request, server, item) then (a, Raised(ProtocolError))
          else Confirm(a, event, request, server)
  }

  function VoiceItem(a: Adapter, event: Id, server: Id, item: ServerItem): (Adapter, Decoded)
    requires HasAudio(item.content) || KnownInput(a.table, server)
  {
    if Holds(a.pending, server) then (a, Raised(ProtocolError))
    else
      var source := if HasAudio(item.content) then "input_audio_item" else a.table.items[server].source;
      match Register(a.table, Registration(server, User, source, item.completed, [], None))
      case Err(e) => (a, Raised(e))
      case Ok((t, _)) =>
        (a.(table := t, seenItems := a.seenItems + {server}, seenEvents := a.seenEvents + {event}), Ignored)
  }

  /** The request is consumed before its identity is registered, so a registration that
      raises leaves it consumed and unconfirmed. */
  function Confirm(a: Adapter, event: Id, request: Pending, server: Id): (Adapter, Decoded)
    requires request.expected.Some?
  {
    var a1 := a.(pending := Drop(a.pending, request.id),
                 seenItems := a.seenItems + {request.id, server},
                 seenEvents := a.seenEvents + {event});
    var role := request.expected.value.role;
    if role == Assistant then (a1, Confirmed(request.id, server))
    else match Register(a.table, Registration(server, role, "context_ack", true, [request.id], None))
      case Err(e) => (a1, Raised(e))
      case Ok((t, _)) => (a1.(table := t), Confirmed(request.id, server))
  }

  function Strip(s: string): string {
    StripRight(StripLeft(s))
  }

  function StripLeft(s: string): string {
    if s != [] && Blank(s[0]) then StripLeft(s[1..]) else s
  }

  function StripRight(s: string): string {
    if s != [] && Blank(s[|s| - 1]) then StripRight(s[..|s| - 1]) else s
  }

  function Acknowledged(a: Adapter, event: Id, instructions: Option<string>, catalogOk: bool): (Adapter, Decoded) {
    match a.update
    case Some((request, expected)) =>
      if instructions.None? || Strip(instructions.value) != Strip(expected) then (a, Raised(ProtocolError))
      else (a.(update := None, pending := Drop(a.pending, request), seenEvents := a.seenEvents + {event}),
            InstructionsConfirmed(request))
    case None =>
      if !catalogOk then (a, Raised(ProtocolError)) else (a.(seenEvents := a.seenEvents + {event}), Ready)
  }

  /** An error that names no request is blamed on the only outstanding one. */
  function Blamed(a: Adapter, named: Option<Id>, attributable: bool): Option<Id> {
    if named.None? && |a.pending| == 1 && attributable then Some(a.pending[0].id) else named
  }

  function Refused(a: Adapter, named: Option<Id>, attributable: bool): (Adapter, Decoded) {
    var rejected := Blamed(a, named, attributable);
    if rejected.Some? && Holds(a.pending, rejected.value) then
      var r := rejected.value;
      (a.(pending := Drop(a.pending, r), seenItems := a.seenItems + {r},
          update := if a.update.Some? && a.update.value.0 == r then None else a.update), Rejected(r))
    else (a, SessionFailed)
  }

  function Handle(a: Adapter, op: Op): (Adapter, Decoded) {
    match op
    case Append(id, role, text) =>
      (a.(pending := a.pending + [Pending(id, Some(Expected(role, text)))]), Requested(id))
    case Update(id, text) =>
      (a.(pending := a.pending + [Pending(id, None)], update := Some((id, text))), Requested(id))
    case ItemCreated(event, item) =>
      if event in a.seenEvents then (a, Ignored)
      else if item.isMessage || (item.id.Some? && Holds(a.pending, item.id.value))
      then MessageCreated(a, event, item)
      else (a.(seenEvents := a.seenEvents + {event}), Ignored)
    case SessionUpdated(event, instructions, catalogOk) =>
      if event in a.seenEvents then (a, Ignored) else Acknowledged(a, event, instructions, catalogOk)
    case ErrorEvent(event, named, attributable) =>
      if event in a.seenEvents then (a, Ignored) else Refused(a, named, attributable)
    case Identified(event, q) =>
      if event in a.seenEvents then (a, Ignored)
      else match Register(a.table, q) case Ok((t, _)) => (a.(table := t), Ignored) case Err(e) => (a, Raised(e))
  }

  /** The context part of the adapter. */
  class QwenContext {
    var contextEvents: seq<Pending>
    var instructionUpdate: Option<(Id, string)>
    var contextSeenItemIds: set<Id>
    var contextSeenEventIds: set<Id>
    var identities: Table

    ghost function Model(): Adapter
      reads this
    {
      Adapter(contextEvents, instructionUpdate, contextSeenItemIds, contextSeenEventIds, identities)
    }

    constructor (table: Table)
      ensures Model() == Adapter([], None, {}, {}, table)
    {
      contextEvents, instructionUpdate := [], None;
      contextSeenItemIds, contextSeenEventIds := {}, {};
      identities := table;
    }

    method AppendMessage(id: Id, role: Role, text: string)
      modifies this
      ensures Model() == Handle(old(Model()), Append(id, role, text)).0
    {
      contextEvents := contextEvents + [Pending(id, Some(Expected(role, text)))];
    }

    method UpdateInstructions(id: Id, text: string)
      modifies this
      ensures Model() == Handle(old(Model()), Update(id, text)).0
    {
      instructionUpdate := Some((id, text));
      contextEvents := contextEvents + [Pending(id, None)];
    }

    static method ContextTextParts(content: Content) returns (parts: Option<seq<string>>)
      ensures parts == TextParts(content)
    {
      if content.NotAList? || content.parts == [] {
        return None;
      }
      var texts: seq<string> := [];
      var i := 0;
      PrefixedTwice([], [], Texts(content.parts));
      assert content.parts[0..] == content.parts;
      while i < |content.parts|
        invariant 0 <= i <= |content.parts|
        invariant Texts(content.parts) == Prefixed(texts, Texts(content.parts[i..]))
      {
        if !content.parts[i].InputText? {
          return None;
        }
        assert content.parts[i..][1..] == content.parts[i + 1..];
        PrefixedTwice(texts, [content.parts[i].text], Texts(content.parts[i + 1..]));
        texts := texts + [content.parts[i].text];
        i := i + 1;
      }
      assert texts + [] == texts;
      return Some(texts);
    }

    method ContextMessageCreated(event: Id, item: ServerItem) returns (decoded: Decoded)
      modifies this
      ensures (Model(), decoded) == MessageCreated(old(Model()), event, item)
    {
      hide Register, ValidId;
      if item.id.None? {
        return Raised(ProtocolError);
      }
      var server := item.id.value;
      if item.isMessage && (HasAudio(item.content) || KnownInput(identities, server)) {
        if Holds(contextEvents, server) {
          return Raised(ProtocolError);
        }
        var source := if HasAudio(item.content) then "input_audio_item" else identities.items[server].source;
        var registered := Register(identities, Registration(server, User, source, item.completed, [], None));
        if registered.Err? {
          return Raised(registered.error);
        }
        identities := registered.value.0;
        contextSeenItemIds := contextSeenItemIds + {server};
        contextSeenEventIds := contextSeenEventIds + {event};
        return Ignored;
      }
      if server in contextSeenItemIds {
        contextSeenEventIds := contextSeenEventIds + {event};
        return Ignored;
      }
      var oldest := Oldest(contextEvents);
      if oldest.None? {
        if Holds(contextEvents, server) {
          return Raised(ProtocolError);
        }
        contextSeenItemIds := contextSeenItemIds + {server};
        contextSeenEventIds := contextSeenEventIds + {event};
        return Ignored;
      }
      var request := oldest.value;
      var expected := request.expected.value;
      var texts := ContextTextParts(item.content);
      if !item.isMessage || !item.completed || item.role != RoleName(expected.role)
         || (Holds(contextEvents, server) && server != request.id)
         || texts != Some([expected.text]) {
        return Raised(ProtocolError);
      }
      contextEvents := Drop(contextEvents, request.id);
      contextSeenItemIds := contextSeenItemIds + {request.id, server};
      contextSeenEventIds := contextSeenEventIds + {event};
      if expected.role == User || expected.role == System {
        var q := Registration(server, expected.role, "context_ack", true, [request.id], None);
        var registered := Register(identities, q);
        if registered.Err? {
          return Raised(registered.error);
        }
        identities := registered.value.0;
      }
      return Confirmed(request.id, server);
    }

    method SessionWasUpdated(event: Id, instructions: Option<string>, catalogOk: bool) returns (decoded: Decoded)
      modifies this
      ensures (Model(), decoded) == Acknowledged(old(Model()), event, instructions, catalogOk)
    {
      if instructionUpdate.Some? {
        var (request, expected) := instructionUpdate.value;
        if instructions.None? || Strip(instructions.value) != Strip(expected) {
          return Raised(ProtocolError);
        }
        instructionUpdate := None;
        contextEvents := Drop(contextEvents, request);
        contextSeenEventIds := contextSeenEventIds + {event};
        return InstructionsConfirmed(request);
      }
      if !catalogOk {
        return Raised(ProtocolError);
      }
      contextSeenEventIds := contextSeenEventIds + {event};
      return Ready;
    }

    method Reject(named: Option<Id>, attributable: bool) returns (decoded: Decoded)
      modifies this
      ensures (Model(), decoded) == Refused(old(Model()), named, attributable)
    {
      var rejected := named;
      if rejected.None? && |contextEvents| == 1 && attributable {
        rejected := Some(contextEvents[0].id);
      }
      if rejected.None? || !Holds(contextEvents, rejected.value) {
        return SessionFailed;
      }
      contextEvents := Drop(contextEvents, rejected.value);
      contextSeenItemIds := contextSeenItemIds + {rejected.value};
      if instructionUpdate.Some? && instructionUpdate.value.0 == rejected.value {
        instructionUpdate := None;
      }
      return Rejected(rejected.value);
    }
  }

  // ---- one confirmation ----

  /** A new echo of the oldest outstanding message, of equal role and text parts, through no event or
      item id consumed before and no voice item. */
  predicate IsEcho(a: Adapter, event: Id, item: ServerItem) {
    && event !in a.seenEvents
    && item.id.Some? && item.id.value !in a.seenItems
    && !HasAudio(item.content) && !KnownInput(a.table, item.id.value)
    && Oldest(a.pending).Some?
    && Echoes(a, Oldest(a.pending).value, item.id.value, item)
  }

  /** The identity table takes the server's item under the request's id; assistant messages are not
      registered. */
  predicate Registrable(t: Table, request: Pending, server: Id)
    requires request.expected.Some?
  {
    var role := request.expected.value.role;
    role == Assistant || Register(t, Registration(server, role, "context_ack", true, [request.id], None)).Ok?
  }

  /** Exactly when an item confirms a request, and which: only the oldest outstanding message,
      only a new echo of it, and only if its identity can be registered. */
  lemma ConfirmsExactly(a: Adapter, event: Id, item: ServerItem)
    ensures Handle(a, ItemCreated(event, item)).1.Confirmed? <==>
      IsEcho(a, event, item) && Registrable(a.table, Oldest(a.pending).value, item.id.value)
    ensures Handle(a, ItemCreated(event, item)).1.Confirmed? ==>
      var (a', d) := Handle(a, ItemCreated(event, item));
      && d == Confirmed(Oldest(a.pending).value.id, item.id.value)
      && event in a'.seenEvents && item.id.value in a'.seenItems && d.confirmed in a'.seenItems
      && !Holds(a'.pending, d.confirmed)
  {
    hide Register, ValidId;
    if Oldest(a.pending).Some? {
      DropRemoves(a.pending, Oldest(a.pending).value.id);
    }
    NoAudioInTexts(item.content);
  }

  /** An echo of text parts is no voice item. */
  lemma {:induction false} NoAudioInTexts(content: Content)
    ensures TextParts(content).Some? ==> !HasAudio(content)
  {
    if TextParts(content).Some? {
      TextsOnly(content.parts);
    }
  }

  lemma {:induction false} TextsOnly(parts: seq<Part>)
    requires Texts(parts).Some?
    ensures InputAudio !in parts
  {
    if parts != [] {
      TextsOnly(parts[1..]);
      assert parts == [parts[0]] + parts[1..];
    }
  }

  lemma {:induction false} DropRemoves(pending: seq<Pending>, id: Id)
    ensures !Holds(Drop(pending, id), id)
    ensures forall p :: p in Drop(pending, id) <==> p in pending && p.id != id
  {
    if pending != [] {
      DropRemoves(pending[1..], id);
      assert pending == [pending[0]] + pending[1..];
      var rest := Drop(pending[1..], id);
      assert Drop(pending, id) == (if pending[0].id == id then [] else [pending[0]]) + rest;
      forall i | 0 <= i < |Drop(pending, id)| ensures Drop(pending, id)[i].id != id {
        assert Drop(pending, id)[i] in Drop(pending, id);
        assert Drop(pending, id)[i] == pending[0] || Drop(pending, id)[i] in rest;
      }
    }
  }

  // ---- whole runs ----

  /** One confirmation as it happened. */
  datatype Confirmation = Confirmation(request: Id, server: Id, event: Id)

  /** `issued` lists the ids of all requests in the order they were made. */
  datatype History = History(adapter: Adapter, issued: seq<Id>, confirmations: seq<Confirmation>)

  /** Request ids are fresh tokens. */
  ghost predicate Fresh(h: History, op: Op) {
    match op
    case Append(id, _, _) => id !in h.issued
    case Update(id, _) => id !in h.issued
    case _ => true
  }

  function Record(h: History, op: Op): History {
    var (a, d) := Handle(h.adapter, op);
    History(a,
            if d.Requested? then h.issued + [d.request] else h.issued,
            if op.ItemCreated? && d.Confirmed?
            then h.confirmations + [Confirmation(d.confirmed, d.server, op.event)] else h.confirmations)
  }

  function Run(table: Table, ops: seq<Op>): History
    decreases |ops|
  {
    if ops == [] then History(Adapter([], None, {}, {}, table), [], [])
    else Record(Run(table, ops[..|ops| - 1]), ops[|ops| - 1])
  }

  ghost predicate Tokens(table: Table, ops: seq<Op>) {
    forall i :: 0 <= i < |ops| ==> Fresh(Run(table, ops[..i]), ops[i])
  }

  /** `x` was requested before `y`. */
  ghost predicate Before(issued: seq<Id>, x: Id, y: Id) {
    exists i, j :: 0 <= i < j < |issued| && issued[i] == x && issued[j] == y
  }

  /** Outstanding requests stand in request order, after every confirmed one; confirmations
      stand in request order; everything a confirmation used up is remembered as seen. */
  ghost predicate InOrder(h: History) {
    && Distinct(h.issued)
    && (forall i :: 0 <= i < |h.adapter.pending| ==> h.adapter.pending[i].id in h.issued)
    && (forall i, j :: 0 <= i < j < |h.adapter.pending| ==>
         Before(h.issued, h.adapter.pending[i].id, h.adapter.pending[j].id))
    && (forall i :: 0 <= i < |h.confirmations| ==> h.confirmations[i].request in h.issued)
    && (forall i, j :: 0 <= i < j < |h.confirmations| ==>
         Before(h.issued, h.confirmations[i].request, h.confirmations[j].request))
    && (forall i, j :: 0 <= i < |h.confirmations| && 0 <= j < |h.adapter.pending| && h.adapter.pending[j].expected.Some?
         ==> Before(h.issued, h.confirmations[i].request, h.adapter.pending[j].id))
    && (forall i :: 0 <= i < |h.confirmations| ==>
         && h.confirmations[i].server in h.adapter.seenItems
         && h.confirmations[i].request in h.adapter.seenItems
         && h.confirmations[i].event in h.adapter.seenEvents)
    && (forall i, j :: 0 <= i < j < |h.confirmations| ==>
         && h.confirmations[i].server != h.confirmations[j].server
         && h.confirmations[i].event != h.confirmations[j].event)
  }

  lemma BeforeGrows(issued: seq<Id>, id: Id)
    ensures forall x, y :: Before(issued, x, y) ==> Before(issued + [id], x, y)
    ensures forall x :: x in issued ==> Before(issued + [id], x, id)
  {
    var issued' := issued + [id];
    forall x, y | Before(issued, x, y) ensures Before(issued', x, y) {
      var i, j :| 0 <= i < j < |issued| && issued[i] == x && issued[j] == y;
      assert issued'[i] == x && issued'[j] == y;
    }
    forall x | x in issued ensures Before(issued', x, id) {
      var i :| 0 <= i < |issued| && issued[i] == x;
      assert issued'[i] == x && issued'[|issued|] == id;
    }
  }

  lemma BeforeIsOrder(issued: seq<Id>, x: Id, y: Id)
    requires Distinct(issued) && Before(issued, x, y)
    ensures x != y && !Before(issued, y, x)
  {
  }

  /** Dropping a request keeps the others in their order. */
  lemma {:induction false} DropKeepsOrder(issued: seq<Id>, pending: seq<Pending>, id: Id)
    requires forall i, j :: 0 <= i < j < |pending| ==> Before(issued, pending[i].id, pending[j].id)
    ensures var rest := Drop(pending, id);
            forall i, j :: 0 <= i < j < |rest| ==> Before(issued, rest[i].id, rest[j].id)
  {
    if pending != [] {
      DropKeepsOrder(issued, pending[1..], id);
      var rest := Drop(pending[1..], id);
      DropRemoves(pending[1..], id);
      forall j | 0 <= j < |rest| ensures Before(issued, pending[0].id, rest[j].id) {
        assert rest[j] in rest;
        var k :| 0 <= k < |pending[1..]| && pending[1..][k] == rest[j];
        assert pending[k + 1] == rest[j];
      }
    }
  }

  /** The oldest message comes before every other outstanding message. */
  lemma {:induction false} OldestIsFirst(issued: seq<Id>, pending: seq<Pending>)
    requires forall i, j :: 0 <= i < j < |pending| ==> Before(issued, pending[i].id, pending[j].id)
    requires Oldest(pending).Some?
    ensures Oldest(pending).value in pending
    ensures forall p :: p in pending && p.expected.Some? ==>
      p == Oldest(pending).value || Before(issued, Oldest(pending).value.id, p.id)
  {
    if pending[0].expected.Some? {
      forall p | p in pending && p != pending[0] ensures Before(issued, pending[0].id, p.id) {
        var k :| 0 <= k < |pending| && pending[k] == p;
      }
    } else {
      OldestIsFirst(issued, pending[1..]);
      assert pending == [pending[0]] + pending[1..];
    }
  }

  lemma RecordInOrder(h: History, op: Op)
    requires InOrder(h) && Fresh(h, op)
    ensures InOrder(Record(h, op))
  {
    hide Register, ValidId, Before, Distinct, Strip, KnownInput, TextParts, InOrder;
    var (a, d) := Handle(h.adapter, op);
    match op
    case Append(id, role, text) => RequestInOrder(h, Pending(id, Some(Expected(role, text))), h.adapter.update);
    case Update(id, text) => RequestInOrder(h, Pending(id, None), Some((id, text)));
    case ItemCreated(event, item) => ItemInOrder(h, event, item);
    case SessionUpdated(event, _, _) =>
      if d.InstructionsConfirmed? {
        DropInOrder(h, d.update, a);
      } else {
        SeenInOrder(h, a);
      }
    case ErrorEvent(_, _, _) =>
      if d.Rejected? {
        DropInOrder(h, d.rejected, a);
      }
    case Identified(_, _) => SeenInOrder(h, a);
  }

  lemma ItemInOrder(h: History, event: Id, item: ServerItem)
    requires InOrder(h)
    ensures InOrder(Record(h, ItemCreated(event, item)))
  {
    hide Register, ValidId, Before, Distinct, KnownInput, TextParts, InOrder, Drop;
    var (a, d) := Handle(h.adapter, ItemCreated(event, item));
    if d.Confirmed? {
      ConfirmsExactly(h.adapter, event, item);
      ConfirmationInOrder(h, event, item.id.value, a);
    } else if a.pending != h.adapter.pending {
      DropInOrder(h, Oldest(h.adapter.pending).value.id, a);
    } else {
      SeenInOrder(h, a);
    }
  }

  /** Remembering more ids as seen keeps the order. */
  lemma SeenInOrder(h: History, a: Adapter)
    requires InOrder(h)
    requires a.pending == h.adapter.pending
    requires h.adapter.seenItems <= a.seenItems && h.adapter.seenEvents <= a.seenEvents
    ensures InOrder(h.(adapter := a))
  {
    hide Before, Distinct;
  }

  lemma ConfirmationInOrder(h: History, event: Id, server: Id, a: Adapter)
    requires InOrder(h)
    requires Oldest(h.adapter.pending).Some?
    requires server !in h.adapter.seenItems && event !in h.adapter.seenEvents
    requires var request := Oldest(h.adapter.pending).value.id;
             && a.pending == Drop(h.adapter.pending, request)
             && a.seenItems == h.adapter.seenItems + {request, server}
             && a.seenEvents == h.adapter.seenEvents + {event}
    ensures InOrder(h.(adapter := a,
      confirmations := h.confirmations + [Confirmation(Oldest(h.adapter.pending).value.id, server, event)]))
  {
    hide Before, Distinct, Oldest;
    var pending, oldest := h.adapter.pending, Oldest(h.adapter.pending).value;
    OldestIsFirst(h.issued, pending);
    DropRemoves(pending, oldest.id);
    var at :| 0 <= at < |pending| && pending[at] == oldest;
    forall j | 0 <= j < |a.pending| && a.pending[j].expected.Some?
      ensures Before(h.issued, oldest.id, a.pending[j].id)
    {
      assert a.pending[j] in a.pending;
    }
    DropInOrder(h, oldest.id, a);
  }

  lemma RequestInOrder(h: History, p: Pending, update: Option<(Id, string)>)
    requires InOrder(h) && p.id !in h.issued
    ensures InOrder(h.(adapter := h.adapter.(pending := h.adapter.pending + [p], update := update),
                       issued := h.issued + [p.id]))
  {
    hide Before;
    BeforeGrows(h.issued, p.id);
  }

  /** Dropping a request, and remembering more ids as seen, keeps the order. */
  lemma DropInOrder(h: History, id: Id, a: Adapter)
    requires InOrder(h)
    requires a.pending == Drop(h.adapter.pending, id)
    requires h.adapter.seenItems <= a.seenItems && h.adapter.seenEvents <= a.seenEvents
    ensures InOrder(h.(adapter := a))
  {
    hide Before, Distinct;
    var pending := h.adapter.pending;
    DropKeepsOrder(h.issued, pending, id);
    DropRemoves(pending, id);
    forall i | 0 <= i < |a.pending|
      ensures a.pending[i].id in h.issued
      ensures a.pending[i].expected.Some? ==>
        forall c :: 0 <= c < |h.confirmations| ==> Before(h.issued, h.confirmations[c].request, a.pending[i].id)
    {
      assert a.pending[i] in a.pending;
      var k :| 0 <= k < |pending| && pending[k] == a.pending[i];
    }
  }

  lemma {:induction false} AlwaysInOrder(table: Table, ops: seq<Op>)
    requires Tokens(table, ops)
    ensures InOrder(Run(table, ops))
    decreases |ops|
  {
    hide InOrder, Record, Fresh;
    if ops == [] {
      NothingInOrder(table);
    } else {
      var init := ops[..|ops| - 1];
      forall i | 0 <= i < |init| ensures Fresh(Run(table, init[..i]), init[i]) {
        assert init[..i] == ops[..i];
      }
      AlwaysInOrder(table, init);
      RecordInOrder(Run(table, init), ops[|ops| - 1]);
    }
  }

  lemma NothingInOrder(table: Table)
    ensures InOrder(History(Adapter([], None, {}, {}, table), [], []))
  {
  }

  /** Over any run of requests, echoes, replays, voice items, acknowledgements and errors:
      confirmed requests stand in the order they were made, no request is confirmed twice, and
      no server item id or event id confirms twice. */
  lemma ConfirmationsFifoOneShot(table: Table, ops: seq<Op>, i: nat, j: nat)
    requires Tokens(table, ops)
    requires i < j < |Run(table, ops).confirmations|
    ensures var h := Run(table, ops);
            var c, c' := h.confirmations[i], h.confirmations[j];
            && Before(h.issued, c.request, c'.request)
            && c.request != c'.request
            && c.server != c'.server
            && c.event != c'.event
  {
    AlwaysInOrder(table, ops);
    var h := Run(table, ops);
    assert Distinct(h.issued);
    BeforeIsOrder(h.issued, h.confirmations[i].request, h.confirmations[j].request);
  }

  /** What was used up never confirms later: not the event id of an item that was processed without an
      error, of an echo that was consumed although its registration raised, or of a session update
      that was taken; and not the server id of such an item or echo, or the id of a rejected request. */
  lemma NeverThroughConsumed(table: Table, ops: seq<Op>, i: nat, j: nat)
    requires i < j < |ops|
    requires ops[j].ItemCreated?
    requires Handle(Run(table, ops[..j]).adapter, ops[j]).1.Confirmed?
    ensures !ConsumesEvent(Run(table, ops[..i]).adapter, ops[i], ops[j].event)
    ensures ops[j].item.id.Some? && !ConsumesItem(Run(table, ops[..i]).adapter, ops[i], ops[j].item.id.value)
  {
    hide Handle, IsEcho, ConsumesEvent, ConsumesItem, Record;
    var a, a' := Run(table, ops[..i]).adapter, Run(table, ops[..j]).adapter;
    ConfirmsExactly(a', ops[j].event, ops[j].item);
    EchoIsNew(a', ops[j].event, ops[j].item);
    assert ops[..i + 1][..i] == ops[..i];
    assert Run(table, ops[..i + 1]) == Record(Run(table, ops[..i]), ops[i]);
    RecordsHandled(Run(table, ops[..i]), ops[i]);
    SeenGrows(table, ops, i + 1, j);
    ConsumedIsRemembered(a, ops[i], ops[j].event, ops[j].item.id.value);
  }

  lemma RecordsHandled(h: History, op: Op)
    ensures Record(h, op).adapter == Handle(h.adapter, op).0
  {
  }

  lemma EchoIsNew(a: Adapter, event: Id, item: ServerItem)
    requires IsEcho(a, event, item)
    ensures event !in a.seenEvents && item.id.Some? && item.id.value !in a.seenItems
  {
  }

  /** A new item is taken when handling it raises nothing, or when it is the awaited echo. */
  predicate Takes(a: Adapter, event: Id, item: ServerItem) {
    event !in a.seenEvents && (!Handle(a, ItemCreated(event, item)).1.Raised? || IsEcho(a, event, item))
  }

  predicate ConsumesEvent(a: Adapter, op: Op, id: Id) {
    match op
    case ItemCreated(event, item) => event == id && Takes(a, event, item)
    case SessionUpdated(event, _, _) => event == id && event !in a.seenEvents && !Handle(a, op).1.Raised?
    case _ => false
  }

  predicate ConsumesItem(a: Adapter, op: Op, id: Id) {
    match op
    case ItemCreated(event, item) =>
      item.id == Some(id) && (item.isMessage || Holds(a.pending, id)) && Takes(a, event, item)
    case ErrorEvent(_, _, _) => Handle(a, op).1 == Rejected(id)
    case _ => false
  }

  lemma ConsumedIsRemembered(a: Adapter, op: Op, event: Id, item: Id)
    ensures ConsumesEvent(a, op, event) ==> event in Handle(a, op).0.seenEvents
    ensures ConsumesItem(a, op, item) ==> item in Handle(a, op).0.seenItems
  {
    hide Register, ValidId, TextParts, Drop, Strip;
  }

  lemma {:induction false} SeenGrows(table: Table, ops: seq<Op>, i: nat, j: nat)
    requires i <= j <= |ops|
    ensures Run(table, ops[..i]).adapter.seenItems <= Run(table, ops[..j]).adapter.seenItems
    ensures Run(table, ops[..i]).adapter.seenEvents <= Run(table, ops[..j]).adapter.seenEvents
    decreases j
  {
    if i < j {
      hide Record;
      SeenGrows(table, ops, i, j - 1);
      assert ops[..j][..j - 1] == ops[..j - 1];
      RecordRemembers(Run(table, ops[..j - 1]), ops[j - 1]);
    }
  }

  lemma RecordRemembers(h: History, op: Op)
    ensures h.adapter.seenItems <= Record(h, op).adapter.seenItems
    ensures h.adapter.seenEvents <= Record(h, op).adapter.seenEvents
  {
    hide Handle;
    HandleRemembers(h.adapter, op);
  }

  lemma HandleRemembers(a: Adapter, op: Op)
    ensures a.seenItems <= Handle(a, op).0.seenItems
    ensures a.seenEvents <= Handle(a, op).0.seenEvents
  {
    hide Register, ValidId, Strip, TextParts, Drop;
  }

  // ---- exactly what each event does ----

  /** The text parts of a content are one given text exactly when that is its only part. */
  lemma OnePart(content: Content, text: string)
    ensures TextParts(content) == Some([text]) <==> content == Parts([InputText(text)])
  {
    if content.Parts? && content.parts != [] && content.parts[0].InputText? {
      var rest := content.parts[1..];
      NoTextNoPart(rest);
      var first := content.parts[0].text;
      assert content.parts == [content.parts[0]] + rest;
      if Texts(rest).Some? {
        var all := [first] + Texts(rest).value;
        assert TextParts(content) == Some(all) && |all| == 1 + |rest| && all[0] == first;
        if rest == [] {
          assert all == [first] && content.parts == [InputText(first)];
        }
      }
    }
  }

  lemma NoTextNoPart(parts: seq<Part>)
    ensures Texts(parts) == Some([]) <==> parts == []
    ensures Texts(parts).Some? ==> |Texts(parts).value| == |parts|
  {
  }

  /** The oldest outstanding message is at the first place that expects an echo. */
  lemma {:induction false} OldestAt(pending: seq<Pending>, i: nat)
    requires i < |pending| && pending[i].expected.Some?
    requires forall j :: 0 <= j < i ==> pending[j].expected.None?
    ensures Oldest(pending) == Some(pending[i])
    decreases i
  {
    if i > 0 {
      OldestAt(pending[1..], i - 1);
    }
  }

  lemma {:induction false} NoneOutstanding(pending: seq<Pending>)
    requires forall j :: 0 <= j < |pending| ==> pending[j].expected.None?
    ensures Oldest(pending) == None
  {
    if pending != [] {
      NoneOutstanding(pending[1..]);
    }
  }

  /** A spoken input, known by its identity or by its audio, is no echo of a message. */
  predicate IsVoice(t: Table, server: Id, item: ServerItem) {
    || (item.content.Parts? && InputAudio in item.content.parts)
    || (server in t.items && t.items[server].role == User
        && t.items[server].origin in {"speech_started", "committed", "input_audio_item", "transcript"})
  }

  /** In plain terms, for the message at the first place that expects an echo: a new item confirms it
      exactly when it is a completed message of the same role with exactly the text that was sent and
      no spoken input, under an id of its own or of the request, and its identity can be registered;
      then the request and no other leaves the outstanding ones. Any other new item under an id not
      used before that is a message, or carries an outstanding id, is refused, but for spoken input. */
  lemma EchoesExactly(a: Adapter, event: Id, item: ServerItem, i: nat)
    requires i < |a.pending| && a.pending[i].expected.Some?
    requires forall j :: 0 <= j < i ==> a.pending[j].expected.None?
    requires event !in a.seenEvents && item.id.Some? && item.id.value !in a.seenItems
    ensures var server, request := item.id.value, a.pending[i];
            var Expected(role, text) := request.expected.value;
            var (a', d) := Handle(a, ItemCreated(event, item));
            var echoes := item.isMessage && item.completed
              && item.role == (match role case User => "user" case Assistant => "assistant" case System => "system")
              && item.content == Parts([InputText(text)])
              && (Holds(a.pending, server) ==> server == request.id)
              && !IsVoice(a.table, server, item);
            var q := Registration(server, role, "context_ack", true, [request.id], None);
            var registers := role == Assistant || Register(a.table, q).Ok?;
            && (d.Confirmed? <==> echoes && registers)
            && (echoes && registers ==>
                 && d == Confirmed(request.id, server)
                 && (forall p :: p in a'.pending <==> p in a.pending && p.id != request.id)
                 && a'.seenItems == a.seenItems + {request.id, server} && a'.seenEvents == a.seenEvents + {event}
                 && a'.table == (if role == Assistant then a.table else Register(a.table, q).value.0))
            && (echoes && !registers ==> d.Raised? && request.id in a'.seenItems && server in a'.seenItems)
            && (!echoes && (item.isMessage || Holds(a.pending, server))
                && !(item.isMessage && IsVoice(a.table, server, item)) ==>
                 d == Raised(ProtocolError) && a' == a)
  {
    hide Register, ValidId;
    OldestAt(a.pending, i);
    OnePart(item.content, a.pending[i].expected.value.text);
    DropRemoves(a.pending, a.pending[i].id);
  }

  /** With no message outstanding nothing is confirmed: a new item is remembered, unless it carries an
      outstanding id, which is refused, or is spoken input. */
  lemma IgnoresExactly(a: Adapter, event: Id, item: ServerItem)
    requires forall j :: 0 <= j < |a.pending| ==> a.pending[j].expected.None?
    requires event !in a.seenEvents && item.id.Some? && item.id.value !in a.seenItems && item.isMessage
    requires !IsVoice(a.table, item.id.value, item)
    ensures var server, (a', d) := item.id.value, Handle(a, ItemCreated(event, item));
            if Holds(a.pending, server) then d == Raised(ProtocolError) && a' == a
            else d == Ignored && a' == a.(seenItems := a.seenItems + {server}, seenEvents := a.seenEvents + {event})
  {
    NoneOutstanding(a.pending);
  }

  /** Spoken input is registered under its user, remembered and otherwise ignored; under an outstanding
      id it is refused. */
  lemma HearsExactly(a: Adapter, event: Id, item: ServerItem)
    requires event !in a.seenEvents && item.id.Some? && item.isMessage && IsVoice(a.table, item.id.value, item)
    ensures var server, (a', d) := item.id.value, Handle(a, ItemCreated(event, item));
            var hears := item.content.Parts? && InputAudio in item.content.parts;
            var source := if hears then "input_audio_item"
                          else if server in a.table.items then a.table.items[server].source else "";
            var r := Register(a.table, Registration(server, User, source, item.completed, [], None));
            && (Holds(a.pending, server) ==> d == Raised(ProtocolError) && a' == a)
            && (!Holds(a.pending, server) && r.Err? ==> d == Raised(r.error) && a' == a)
            && (!Holds(a.pending, server) && r.Ok? ==>
                 d == Ignored && a' == a.(table := r.value.0, seenItems := a.seenItems + {server},
                                          seenEvents := a.seenEvents + {event}))
  {
    hide Register, ValidId;
  }

  /** A session update confirms the outstanding instructions exactly when it repeats them, blanks at
      either end aside; without any it is the session's own readiness, if its catalogue is right. Any
      other is refused and changes nothing, and so does one seen before. */
  lemma UpdatesExactly(a: Adapter, event: Id, instructions: Option<string>, catalogOk: bool)
    ensures var (a', d) := Handle(a, SessionUpdated(event, instructions, catalogOk));
            && (event in a.seenEvents ==> a' == a && d == Ignored)
            && (event !in a.seenEvents && a.update.Some? ==>
                 var (request, text) := a.update.value;
                 if instructions.Some? && Strip(instructions.value) == Strip(text)
                 then d == InstructionsConfirmed(request) && a'.update == None
                   && (forall p :: p in a'.pending <==> p in a.pending && p.id != request)
                   && a'.seenEvents == a.seenEvents + {event}
                 else d == Raised(ProtocolError) && a' == a)
            && (event !in a.seenEvents && a.update.None? ==>
                 if catalogOk then d == Ready && a' == a.(seenEvents := a.seenEvents + {event})
                 else d == Raised(ProtocolError) && a' == a)
  {
    hide Strip;
    if a.update.Some? {
      DropRemoves(a.pending, a.update.value.0);
    }
  }

  /** What is left of a text without the blanks at either end: nothing but blanks is taken off, and
      no blank is left at an end. */
  lemma StripsExactly(s: string) returns (i: nat, j: nat)
    ensures i <= j <= |s| && Strip(s) == s[i..j]
    ensures forall k :: 0 <= k < i || j <= k < |s| ==> Blank(s[k])
    ensures i < j ==> !Blank(s[i]) && !Blank(s[j - 1])
  {
    i := LeftEnd(s);
    var rest := s[i..];
    var n := RightEnd(rest);
    j := i + n;
    assert rest[..n] == s[i..j];
    assert forall k :: j <= k < |s| ==> s[k] == rest[k - i];
  }

  lemma {:induction false} LeftEnd(s: string) returns (i: nat)
    ensures i <= |s| && StripLeft(s) == s[i..]
    ensures forall k :: 0 <= k < i ==> Blank(s[k])
    ensures i < |s| ==> !Blank(s[i])
    decreases |s|
  {
    hide Blank;
    if s != [] && Blank(s[0]) {
      var i' := LeftEnd(s[1..]);
      i := i' + 1;
      assert s[1..][i'..] == s[i..];
    } else {
      i := 0;
    }
  }

  lemma {:induction false} RightEnd(s: string) returns (n: nat)
    ensures n <= |s| && StripRight(s) == s[..n]
    ensures forall k :: n <= k < |s| ==> Blank(s[k])
    ensures n > 0 ==> !Blank(s[n - 1])
    decreases |s|
  {
    hide Blank;
    if s != [] && Blank(s[|s| - 1]) {
      n := RightEnd(s[..|s| - 1]);
      assert s[..|s| - 1][..n] == s[..n];
    } else {
      n := |s|;
    }
  }

  /** An error rejects the outstanding request it names, or, naming none, the only one there is when it
      can be put down to a request; the request, and its instructions, are given up. Any other error
      ends the session. */
  lemma RejectsExactly(a: Adapter, event: Id, named: Option<Id>, attributable: bool)
    requires event !in a.seenEvents
    ensures var (a', d) := Handle(a, ErrorEvent(event, named, attributable));
            var blamed := if named.None? && |a.pending| == 1 && attributable then Some(a.pending[0].id) else named;
            && (blamed.Some? && Holds(a.pending, blamed.value) ==>
                 && d == Rejected(blamed.value) && blamed.value in a'.seenItems
                 && (forall p :: p in a'.pending <==> p in a.pending && p.id != blamed.value)
                 && a'.update == (if a.update.Some? && a.update.value.0 == blamed.value then None else a.update))
            && (!(blamed.Some? && Holds(a.pending, blamed.value)) ==> d == SessionFailed && a' == a)
  {
    var blamed := if named.None? && |a.pending| == 1 && attributable then Some(a.pending[0].id) else named;
    if blamed.Some? {
      DropRemoves(a.pending, blamed.value);
    }
  }

  /** From request to confirmation: a message appended while no other is outstanding is confirmed by its
      echo, whatever the ids, as long as they are new and usable. */
  lemma EchoConfirms(a: Adapter, id: Id, role: Role, text: string, event: Id, server: Id)
    requires forall j :: 0 <= j < |a.pending| ==> a.pending[j].expected.None?
    requires !Holds(a.pending, server) && event !in a.seenEvents && server !in a.seenItems
    requires ValidId(id) && ValidId(server) && id !in a.table.items && server !in a.table.items && role != Assistant
    ensures var asked := Handle(a, Append(id, role, text)).0;
            var echo := ServerItem(Some(server), true, RoleName(role), true, Parts([InputText(text)]));
            var (a', d) := Handle(asked, ItemCreated(event, echo));
            && d == Confirmed(id, server)
            && server in a'.table.items && id in a'.table.items && a'.table.items[server] == a'.table.items[id]
            && a'.table.items[server].role == role && a'.table.items[server].confirmed
  {
    hide ValidId;
    var asked := Handle(a, Append(id, role, text)).0;
    var echo := ServerItem(Some(server), true, RoleName(role), true, Parts([InputText(text)]));
    var n := |a.pending|;
    assert asked.pending[n] == Pending(id, Some(Expected(role, text)));
    assert Holds(asked.pending, server) ==> server == id;
    var q := Registration(server, role, "context_ack", true, [id], None);
    RegistersExactly(a.table, q);
    assert Named(a.table, q, server) && Named(a.table, q, id);
    hide Register;
    EchoesExactly(asked, event, echo, n);
  }
}
