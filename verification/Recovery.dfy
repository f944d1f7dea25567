/** Ascending listing of a set of ids, as `sorted` gives it. */
module SortedIds {
  import opened Common

  /** Code-point order on strings. */
  predicate Less(a: Id, b: Id) {
    b != [] && (a == [] || a[0] < b[0] || (a[0] == b[0] && Less(a[1..], b[1..])))
  }

  lemma {:induction false} LessIsTotal(a: Id, b: Id)
    ensures a == b || Less(a, b) || Less(b, a)
    ensures !(Less(a, b) && Less(b, a))
    ensures !Less(a, a)
    decreases |a| + |b|
  {
    LessIrreflexive(a);
    if a != [] && b != [] {
      LessIsTotal(a[1..], b[1..]);
      assert a == [a[0]] + a[1..] && b == [b[0]] + b[1..];
    }
  }

  lemma {:induction false} LessIrreflexive(a: Id)
    ensures !Less(a, a)
  {
    if a != [] {
      LessIrreflexive(a[1..]);
    }
  }

  lemma {:induction false} LessIsTransitive(a: Id, b: Id, c: Id)
    requires Less(a, b) && Less(b, c)
    ensures Less(a, c)
  {
    if a != [] && a[0] == b[0] == c[0] {
      LessIsTransitive(a[1..], b[1..], c[1..]);
    }
  }

  ghost predicate IsLeast(s: set<Id>, m: Id) {
    m in s && forall x :: x in s && x != m ==> Less(m, x)
  }

  lemma {:induction false} LeastExists(s: set<Id>)
    requires s != {}
    ensures exists m :: IsLeast(s, m)
    decreases |s|
  {
    var x :| x in s;
    if s == {x} {
      assert IsLeast(s, x);
    } else {
      assert s - {x} != {};
      LeastExists(s - {x});
      var n :| IsLeast(s - {x}, n);
      LessIsTotal(x, n);
      var m := if Less(x, n) then x else n;
      forall y | y in s && y != m ensures Less(m, y) {
        if m == x && y != n {
          LessIsTransitive(x, n, y);
        }
      }
      assert IsLeast(s, m);
    }
  }

  ghost function Least(s: set<Id>): (m: Id)
    requires s != {}
    ensures IsLeast(s, m)
  {
    LeastExists(s);
    var found :| IsLeast(s, found);
    found
  }

  ghost predicate Ascending(xs: seq<Id>) {
    forall i, j :: 0 <= i < j < |xs| ==> Less(xs[i], xs[j])
  }

  ghost function Sorted(s: set<Id>): (xs: seq<Id>)
    ensures Elements(xs) == s && Distinct(xs)
    ensures Ascending(xs)
    decreases |s|
  {
    if s == {} then []
    else
      var m := Least(s);
      var rest := Sorted(s - {m});
      LeastFirst(s, m, rest);
      [m] + rest
  }

  lemma LeastFirst(s: set<Id>, m: Id, rest: seq<Id>)
    requires IsLeast(s, m)
    requires Elements(rest) == s - {m} && Distinct(rest) && Ascending(rest)
    ensures Elements([m] + rest) == s && Distinct([m] + rest) && Ascending([m] + rest)
  {
    hide Less;
    forall i | 0 <= i < |rest| ensures rest[i] in s && rest[i] != m && Less(m, rest[i]) {
      assert rest[i] in Elements(rest);
    }
    assert Elements([m] + rest) == {m} + Elements(rest);
  }
}

/** Caller-owned recovery state of logical sessions (recovery.py): generations, at-most-once
    claims, and the snapshot that carries them across a restart. */
module Recovery {
  import opened Common
  import opened IdentityTable
  import opened SortedIds

  const SOURCES := {"context_ack", "speech_started", "committed", "transcript", "output_item", "input_audio_item"}

  /** The sources of identities whose completed transcripts the session records. */
  const INPUT_SOURCES := {"speech_started", "committed", "transcript"}

  const MAX_SESSIONS := 1024
  const MAX_COLLECTION := 10_000

  /** An idempotency entry; the status is "pending" or "confirmed". */
  datatype Message = Message(digest: string, status: string, itemId: Option<Id>)

  datatype Session = Session(
    table: Table, toolCalls: set<Id>, completedInputs: set<Id>, messages: map<string, Message>)

  type State = map<Id, Session>

  const FRESH := Session(EMPTY, {}, {}, map[])

  // ---- operations ----

  /** `_session`: create on first use; None when the id is refused. */
  function Ensure(s: State, sid: Id): Option<State> {
    if !ValidId(sid) then None else Some(if sid in s then s else s[sid := FRESH])
  }

  function BeginSession(s: State, sid: Id, minimum: int): Result<(State, int), ErrorCode> {
    match Ensure(s, sid)
    case None => Err(ValueError)
    case Some(s1) =>
      var table := s1[sid].table;
      var generation := if table.generation + 1 >= minimum then table.generation + 1 else minimum;
      Ok((s1[sid := s1[sid].(table := BeginGeneration(table, generation))], generation))
  }

  /** The state after a claim, and what it returned: None authorises the injection. */
  function ClaimMessage(s: State, sid: Id, key: string, digest: string): (State, Result<Option<Id>, ErrorCode>) {
    match Ensure(s, sid)
    case None => (s, Err(ValueError))
    case Some(s1) =>
      var messages := s1[sid].messages;
      if !ValidId(key) then (s1, Err(ValueError))
      else if key in messages then
        if messages[key].digest != digest then (s1, Err(InvalidRequest))
        else if messages[key].status != "confirmed" then (s1, Err(Busy))
        else (s1, Ok(messages[key].itemId))
      else (s1[sid := s1[sid].(messages := messages[key := Message(digest, "pending", None)])], Ok(None))
  }

  function ConfirmMessage(s: State, sid: Id, key: string, item: Id): State
    requires sid in s && key in s[sid].messages
  {
    var entry := s[sid].messages[key];
    s[sid := s[sid].(messages := s[sid].messages[key := entry.(status := "confirmed", itemId := Some(item))])]
  }

  // ---- snapshots ----

  /** One identity as the snapshot writes it; older snapshots have no origin. */
  datatype IdentityRecord = IdentityRecord(
    canonical: Id, role: Role, source: string, generation: int, confirmed: bool, aliases: seq<Id>,
    origin: Option<string>)

  datatype SessionRecord = SessionRecord(
    generation: int, identities: seq<IdentityRecord>, toolCalls: seq<Id>, completedInputs: seq<Id>,
    messages: map<string, Message>)

  datatype Snapshot = Snapshot(version: int, sessions: map<Id, SessionRecord>)

  /** The canonical ids of confirmed users: what a snapshot lists. */
  function UserIds(t: Table): set<Id> {
    set a | a in t.items && a == t.items[a].canonical && t.items[a].role == User && t.items[a].confirmed
  }

  function RecordOf(i: Item): IdentityRecord {
    IdentityRecord(i.canonical, i.role, i.source, i.generation, i.confirmed, i.aliases, Some(i.origin))
  }

  function Records(t: Table, ids: seq<Id>): seq<IdentityRecord>
    requires forall i :: 0 <= i < |ids| ==> ids[i] in t.items
  {
    seq(|ids|, i requires 0 <= i < |ids| => RecordOf(t.items[ids[i]]))
  }

  lemma ListedIds(t: Table)
    ensures forall i :: 0 <= i < |Sorted(UserIds(t))| ==> Sorted(UserIds(t))[i] in UserIds(t)
  {
    var ids := Sorted(UserIds(t));
    forall i | 0 <= i < |ids| ensures ids[i] in UserIds(t) {
      assert ids[i] in Elements(ids);
    }
  }

  ghost function SnapshotSession(x: Session): SessionRecord {
    ListedIds(x.table);
    SessionRecord(x.table.generation, Records(x.table, Sorted(UserIds(x.table))),
                  Sorted(x.toolCalls), Sorted(x.completedInputs), x.messages)
  }

  ghost function TakeSnapshot(s: State): Snapshot {
    Snapshot(1, map sid | sid in s :: SnapshotSession(s[sid]))
  }

  /** A SHA-256 digest in lower-case hexadecimal. */
  predicate GoodDigest(d: string) {
    |d| == 64 && forall i :: 0 <= i < |d| ==> '0' <= d[i] <= '9' || 'a' <= d[i] <= 'f'
  }

  function RecordOrigin(r: IdentityRecord): string {
    if r.origin.Some? then r.origin.value else r.source
  }

  predicate RecordOk(r: IdentityRecord, generation: int) {
    && r.role == User && r.confirmed
    && 0 < r.generation <= generation
    && r.source in SOURCES
    && RecordOrigin(r) in SOURCES
    && ValidId(r.canonical)
    && forall a :: a in r.aliases ==> ValidId(a)
  }

  /** Register one record under its own generation, then put the session's back. */
  function RestoreIdentity(t: Table, generation: int, r: IdentityRecord): Option<Table> {
    if !RecordOk(r, generation) then None
    else
      var q := Registration(r.canonical, User, r.source, true, r.aliases, Some(RecordOrigin(r)));
      match Register(t.(generation := r.generation), q)
      case Ok((t', _)) => Some(t'.(generation := generation))
      case Err(_) => None
  }

  function RestoreIdentities(generation: int, rs: seq<IdentityRecord>): Option<Table>
    decreases |rs|
  {
    if rs == [] then Some(Table(generation, map[]))
    else match RestoreIdentities(generation, rs[..|rs| - 1])
      case None => None
      case Some(t) => RestoreIdentity(t, generation, rs[|rs| - 1])
  }

  predicate MessageOk(key: string, m: Message, t: Table) {
    && GoodDigest(m.digest)
    && m.status in {"pending", "confirmed"}
    && (m.status == "confirmed" ==> m.itemId.Some? && m.itemId.value in t.items)
    && ValidId(key)
  }

  /** None stands for the error that `from_snapshot` raises. */
  function RestoreSession(r: SessionRecord): Option<Session> {
    if r.generation < 0 then None
    else if |r.identities| > MAX_COLLECTION || |r.toolCalls| > MAX_COLLECTION
      || |r.completedInputs| > MAX_COLLECTION || |r.messages| > MAX_COLLECTION then None
    else match RestoreIdentities(r.generation, r.identities)
      case None => None
      case Some(t) =>
        if (forall c :: c in r.toolCalls ==> ValidId(c))
           && (forall c :: c in r.completedInputs ==> ValidId(c))
           && (forall k :: k in r.messages ==> MessageOk(k, r.messages[k], t))
        then Some(Session(t, Elements(r.toolCalls), Elements(r.completedInputs), r.messages))
        else None
  }

  function Restore(v: Snapshot): Option<State> {
    if v.version != 1 || |v.sessions| > MAX_SESSIONS then None
    else if forall sid :: sid in v.sessions ==> ValidId(sid) && RestoreSession(v.sessions[sid]).Some?
    then Some(map sid | sid in v.sessions :: RestoreSession(v.sessions[sid]).value)
    else None
  }

  /** The mutable recovery state. */
  class RealtimeRecoveryState {
    var sessions: State

    constructor ()
      ensures sessions == map[]
    {
      sessions := map[];
    }

    method Begin(sid: Id, minimum: int) returns (outcome: Result<int, ErrorCode>)
      modifies this
      ensures match BeginSession(old(sessions), sid, minimum)
              case Ok((s, generation)) => outcome == Ok(generation) && sessions == s
              case Err(e) => outcome == Err(e) && sessions == old(sessions)
    {
      if !ValidId(sid) {
        return Err(ValueError);
      }
      if sid !in sessions {
        sessions := sessions[sid := FRESH];
      }
      var table := sessions[sid].table;
      var generation := if table.generation + 1 >= minimum then table.generation + 1 else minimum;
      sessions := sessions[sid := sessions[sid].(table := BeginGeneration(table, generation))];
      return Ok(generation);
    }

    method Claim(sid: Id, key: string, digest: string) returns (outcome: Result<Option<Id>, ErrorCode>)
      modifies this
      ensures (sessions, outcome) == ClaimMessage(old(sessions), sid, key, digest)
    {
      if !ValidId(sid) {
        return Err(ValueError);
      }
      if sid !in sessions {
        sessions := sessions[sid := FRESH];
      }
      var messages := sessions[sid].messages;
      if !ValidId(key) {
        return Err(ValueError);
      }
      if key in messages {
        if messages[key].digest != digest {
          return Err(InvalidRequest);
        }
        if messages[key].status != "confirmed" {
          return Err(Busy);
        }
        return Ok(messages[key].itemId);
      }
      messages := messages[key := Message(digest, "pending", None)];
      sessions := sessions[sid := sessions[sid].(messages := messages)];
      return Ok(None);
    }

    method Confirm(sid: Id, key: string, item: Id)
      requires sid in sessions && key in sessions[sid].messages
      modifies this
      ensures sessions == ConfirmMessage(old(sessions), sid, key, item)
    {
      var entry := sessions[sid].messages[key];
      var messages := sessions[sid].messages[key := entry.(status := "confirmed", itemId := Some(item))];
      sessions := sessions[sid := sessions[sid].(messages := messages)];
    }

    /** `from_snapshot`: session by session, record by record. */
    static method FromSnapshot(v: Snapshot) returns (restored: Option<State>)
      ensures restored == Restore(v)
    {
      if v.version != 1 || |v.sessions| > MAX_SESSIONS {
        assert Restore(v) == None;
        return None;
      }
      hide RestoreSession, ValidId, Restore;
      var result: State := map[];
      var todo := v.sessions.Keys;
      while todo != {}
        invariant todo <= v.sessions.Keys
        invariant result.Keys == v.sessions.Keys - todo
        invariant forall sid :: sid in result ==>
          ValidId(sid) && RestoreSession(v.sessions[sid]) == Some(result[sid])
        decreases |todo|
      {
        var sid :| sid in todo;
        var session := FromRecord(v.sessions[sid]);
        if !ValidId(sid) || session.None? {
          RestoreFails(v, sid);
          return None;
        }
        result := result[sid := session.value];
        todo := todo - {sid};
      }
      RestoreCompletes(v, result);
      return Some(result);
    }

    static method FromRecord(r: SessionRecord) returns (session: Option<Session>)
      ensures session == RestoreSession(r)
    {
      hide ValidId, MessageOk, RestoreIdentity;
      if r.generation < 0 {
        return None;
      }
      if |r.identities| > MAX_COLLECTION || |r.toolCalls| > MAX_COLLECTION
         || |r.completedInputs| > MAX_COLLECTION || |r.messages| > MAX_COLLECTION {
        return None;
      }
      var t := Table(r.generation, map[]);
      var i := 0;
      while i < |r.identities|
        invariant 0 <= i <= |r.identities|
        invariant RestoreIdentities(r.generation, r.identities[..i]) == Some(t)
      {
        assert r.identities[..i + 1][..i] == r.identities[..i];
        var next := RestoreIdentity(t, r.generation, r.identities[i]);
        if next.None? {
          RestoreStops(r.generation, r.identities, i + 1);
          return None;
        }
        t := next.value;
        i := i + 1;
      }
      assert r.identities[..i] == r.identities;
      if (forall c :: c in r.toolCalls ==> ValidId(c))
         && (forall c :: c in r.completedInputs ==> ValidId(c))
         && (forall k :: k in r.messages ==> MessageOk(k, r.messages[k], t)) {
        return Some(Session(t, Elements(r.toolCalls), Elements(r.completedInputs), r.messages));
      }
      return None;
    }
  }

  lemma RestoreFails(v: Snapshot, sid: Id)
    requires sid in v.sessions
    requires !ValidId(sid) || RestoreSession(v.sessions[sid]).None?
    ensures Restore(v) == None
  {
  }

  lemma RestoreCompletes(v: Snapshot, result: State)
    requires v.version == 1 && |v.sessions| <= MAX_SESSIONS
    requires result.Keys == v.sessions.Keys
    requires forall sid :: sid in result ==> ValidId(sid) && RestoreSession(v.sessions[sid]) == Some(result[sid])
    ensures Restore(v) == Some(result)
  {
    hide ValidId, RestoreSession;
    assert result == map sid | sid in v.sessions :: RestoreSession(v.sessions[sid]).value;
  }

  lemma {:induction false} RestoreStops(generation: int, rs: seq<IdentityRecord>, k: nat)
    requires k <= |rs|
    requires RestoreIdentities(generation, rs[..k]).None?
    ensures RestoreIdentities(generation, rs).None?
    decreases |rs|
  {
    if k == |rs| {
      assert rs[..k] == rs;
    } else {
      assert rs[..|rs| - 1][..k] == rs[..k];
      RestoreStops(generation, rs[..|rs| - 1], k);
    }
  }

  // ---- what reachable states satisfy ----

  ghost predicate GoodItem(i: Item, generation: int) {
    && 0 < i.generation <= generation
    && i.source in SOURCES
    && i.origin in SOURCES
    && forall a :: a in i.aliases ==> ValidId(a)
  }

  ghost predicate GoodEntry(key: string, m: Message) {
    && ValidId(key)
    && GoodDigest(m.digest)
    && m.status in {"pending", "confirmed"}
    && (m.status == "confirmed" ==> m.itemId.Some?)
  }

  ghost predicate HealthySession(x: Session) {
    && Partition(x.table)
    && x.table.generation >= 0
    && (forall a :: a in x.table.items ==> GoodItem(x.table.items[a], x.table.generation))
    && (forall c :: c in x.completedInputs ==> ValidId(c))
    && (forall k :: k in x.messages ==> GoodEntry(k, x.messages[k]))
  }

  ghost predicate Healthy(s: State) {
    forall sid :: sid in s ==> ValidId(sid) && HealthySession(s[sid])
  }

  // ---- the round trip ----

  /** What survives a snapshot: everything but the identities that are not confirmed users. */
  function Forget(x: Session): Session {
    x.(table := BeginGeneration(x.table, x.table.generation))
  }

  function ForgetAll(s: State): State {
    map sid | sid in s :: Forget(s[sid])
  }

  /** Within the size limits, with no tool call id that restoring refuses, and with every confirmed
      message pointing to a confirmed user. */
  ghost predicate RestorableSession(x: Session) {
    && |UserIds(x.table)| <= MAX_COLLECTION
    && |x.toolCalls| <= MAX_COLLECTION
    && |x.completedInputs| <= MAX_COLLECTION
    && |x.messages| <= MAX_COLLECTION
    && (forall c :: c in x.toolCalls ==> ValidId(c))
    && forall k :: k in x.messages && x.messages[k].status == "confirmed" ==>
         x.messages[k].itemId.Some? && x.messages[k].itemId.value in Kept(x.table.items)
  }

  ghost predicate Restorable(s: State) {
    |s| <= MAX_SESSIONS && forall sid :: sid in s ==> RestorableSession(s[sid])
  }

  /** The part of a table whose canonical ids are in `ids`. */
  function Part(t: Table, ids: set<Id>): map<Id, Item> {
    map a | a in t.items && t.items[a].canonical in ids :: t.items[a]
  }

  lemma RestoresOne(x: Session, ids: set<Id>, c: Id)
    requires HealthySession(x)
    requires ids <= UserIds(x.table) && c in UserIds(x.table) && c !in ids
    ensures var g := x.table.generation;
            RestoreIdentity(Table(g, Part(x.table, ids)), g, RecordOf(x.table.items[c]))
              == Some(Table(g, Part(x.table, ids + {c})))
  {
    hide ValidId, Register, Part;
    assert ResolvesWell(x.table, c);
    RegistersBack(x.table, ids, c);
  }

  /** Registering a listed identity again into a table without it adds exactly its aliases. */
  lemma RegistersBack(t: Table, ids: set<Id>, c: Id)
    requires Partition(t)
    requires c in UserIds(t) && c !in ids
    requires t.items[c].origin in SOURCES
    requires forall a :: a in t.items[c].aliases ==> ValidId(a)
    ensures c in t.items[c].aliases
    ensures var item := t.items[c];
            var q := Registration(c, User, item.source, true, item.aliases, Some(item.origin));
            Register(Table(item.generation, Part(t, ids)), q)
              == Ok((Table(item.generation, Part(t, ids + {c})), item))
  {
    hide ValidId, Part, Linked, Objection;
    var item := t.items[c];
    assert ResolvesWell(t, c);
    LinksItsAliases(t, c);
    AbsentFromPart(t, ids, c);
    StoresPart(t, ids, c);
  }

  lemma LinksItsAliases(t: Table, c: Id)
    requires Partition(t) && c in UserIds(t)
    ensures var item := t.items[c];
            Linked(None, Registration(c, User, item.source, true, item.aliases, Some(item.origin))) == item.aliases
  {
    var item := t.items[c];
    assert ResolvesWell(t, c);
    assert [c] + item.aliases + [] == [c] + item.aliases;
    DedupeRepeatedHead(c, item.aliases);
  }

  lemma AbsentFromPart(t: Table, ids: set<Id>, c: Id)
    requires Partition(t) && c in UserIds(t) && c !in ids
    requires forall a :: a in t.items[c].aliases ==> ValidId(a)
    ensures var part := Table(t.items[c].generation, Part(t, ids));
            c !in part.items && Objection(part, c, t.items[c].aliases) == None
  {
    hide ValidId;
    AliasesOf(t, c);
    NoObjection(Table(t.items[c].generation, Part(t, ids)), c, t.items[c].aliases);
  }

  lemma StoresPart(t: Table, ids: set<Id>, c: Id)
    requires Partition(t) && c in UserIds(t)
    ensures var item := t.items[c];
            Store(Table(item.generation, Part(t, ids)), item, item.aliases)
              == Table(item.generation, Part(t, ids + {c}))
  {
    hide ValidId;
    AliasesOf(t, c);
    var item := t.items[c];
    assert ResolvesWell(t, c);
    assert Store(Table(item.generation, Part(t, ids)), item, item.aliases).items == Part(t, ids + {c});
  }

  lemma AliasesOf(t: Table, c: Id)
    requires Partition(t) && c in UserIds(t)
    ensures forall a :: a in t.items && t.items[a].canonical == c <==> a in t.items[c].aliases
    ensures forall a :: a in t.items[c].aliases ==> t.items[a] == t.items[c]
  {
    assert ResolvesWell(t, c);
    forall a | a in t.items && t.items[a].canonical == c ensures a in t.items[c].aliases {
      PartitionMeaning(t, a, c);
      assert ResolvesWell(t, a);
    }
  }

  lemma {:induction false} RestoresPart(x: Session, listed: seq<Id>)
    requires HealthySession(x)
    requires Distinct(listed) && Elements(listed) <= UserIds(x.table)
    requires forall i :: 0 <= i < |listed| ==> listed[i] in x.table.items
    ensures RestoreIdentities(x.table.generation, Records(x.table, listed))
         == Some(Table(x.table.generation, Part(x.table, Elements(listed))))
    decreases |listed|
  {
    hide ValidId, RestoreIdentity, GoodItem, HealthySession;
    var rs := Records(x.table, listed);
    if listed != [] {
      var init, c := listed[..|listed| - 1], listed[|listed| - 1];
      assert rs[..|rs| - 1] == Records(x.table, init);
      assert listed == init + [c];
      assert Elements(listed) == Elements(init) + {c};
      assert c in Elements(listed);
      RestoresPart(x, init);
      RestoresOne(x, Elements(init), c);
    } else {
      assert Part(x.table, Elements(listed)) == map[];
    }
  }

  lemma RestoresTable(x: Session)
    requires HealthySession(x)
    ensures RestoreIdentities(x.table.generation, SnapshotSession(x).identities) == Some(Forget(x).table)
  {
    hide ValidId, RestoreIdentities;
    ListedIds(x.table);
    RestoresPart(x, Sorted(UserIds(x.table)));
    UsersAreKept(x.table);
  }

  lemma UsersAreKept(t: Table)
    requires Partition(t)
    ensures Part(t, UserIds(t)) == Kept(t.items)
  {
    forall a | a in t.items ensures t.items[a].canonical in UserIds(t) <==> a in Kept(t.items) {
      PartitionMeaning(t, a, a);
    }
  }

  lemma {:induction false} SizeOfListing(xs: seq<Id>)
    requires Distinct(xs)
    ensures |Elements(xs)| == |xs|
    decreases |xs|
  {
    if xs != [] {
      var init := xs[..|xs| - 1];
      SizeOfListing(init);
      assert xs == init + [xs[|xs| - 1]];
      assert Elements(xs) == Elements(init) + {xs[|xs| - 1]};
    }
  }

  lemma RoundTripSession(x: Session)
    requires HealthySession(x)
    ensures RestoreSession(SnapshotSession(x)).Some? <==> RestorableSession(x)
    ensures RestorableSession(x) ==> RestoreSession(SnapshotSession(x)) == Some(Forget(x))
  {
    hide ValidId, SnapshotSession, RestoreIdentities, UserIds, MessageOk, Partition, GoodItem, GoodEntry;
    SnapshotParts(x);
    RestoresTable(x);
    MessagesRestore(x);
  }

  /** A snapshot lists everything it lists once. */
  lemma SnapshotParts(x: Session)
    ensures var r := SnapshotSession(x);
            && r.generation == x.table.generation && r.messages == x.messages
            && |r.identities| == |UserIds(x.table)|
            && |r.toolCalls| == |x.toolCalls| && Elements(r.toolCalls) == x.toolCalls
            && |r.completedInputs| == |x.completedInputs| && Elements(r.completedInputs) == x.completedInputs
            && (forall c :: c in r.toolCalls <==> c in x.toolCalls)
            && (forall c :: c in r.completedInputs <==> c in x.completedInputs)
  {
    ListedIds(x.table);
    SizeOfListing(Sorted(UserIds(x.table)));
    SizeOfListing(Sorted(x.toolCalls));
    SizeOfListing(Sorted(x.completedInputs));
    SortedMembers(x.toolCalls);
    SortedMembers(x.completedInputs);
  }

  /** The messages of a session pass beside its restored table exactly when each confirmed one
      points to a confirmed user. */
  lemma MessagesRestore(x: Session)
    requires HealthySession(x)
    ensures (forall k :: k in x.messages ==> MessageOk(k, x.messages[k], Forget(x).table))
       <==> forall k :: k in x.messages && x.messages[k].status == "confirmed" ==>
              x.messages[k].itemId.Some? && x.messages[k].itemId.value in Kept(x.table.items)
  {
    hide ValidId, Kept, GoodDigest, Partition, GoodItem;
    forall k | k in x.messages
      ensures MessageOk(k, x.messages[k], Forget(x).table) <==>
        (x.messages[k].status == "confirmed" ==>
           x.messages[k].itemId.Some? && x.messages[k].itemId.value in Kept(x.table.items))
    {
      assert GoodEntry(k, x.messages[k]);
    }
  }

  lemma SortedMembers(s: set<Id>)
    ensures forall c :: c in Sorted(s) <==> c in s
  {
    forall c ensures c in Sorted(s) <==> c in s {
      assert c in Sorted(s) <==> c in Elements(Sorted(s));
    }
  }

  /** Restoring a snapshot succeeds exactly within the size limits, when every recorded tool call id
      is one that restoring accepts, and when every confirmed message points to a confirmed user
      identity; it then gives back the same state with only the confirmed user identities kept,
      and snapshotting that state again changes nothing. */
  lemma SnapshotRoundTrip(s: State)
    requires Healthy(s)
    ensures Restore(TakeSnapshot(s)).Some? <==> Restorable(s)
    ensures Restorable(s) ==> Restore(TakeSnapshot(s)) == Some(ForgetAll(s))
    ensures TakeSnapshot(ForgetAll(s)) == TakeSnapshot(s)
  {
    hide SnapshotSession, RestoreSession, HealthySession, RestorableSession, ValidId;
    var v := TakeSnapshot(s);
    assert v.sessions.Keys == s.Keys;
    assert |v.sessions| == |v.sessions.Keys| == |s.Keys| == |s|;
    forall sid | sid in s
      ensures RestoreSession(v.sessions[sid]).Some? <==> RestorableSession(s[sid])
      ensures RestorableSession(s[sid]) ==> RestoreSession(v.sessions[sid]) == Some(Forget(s[sid]))
      ensures SnapshotSession(Forget(s[sid])) == SnapshotSession(s[sid])
    {
      RoundTripSession(s[sid]);
      SnapshotForgets(s[sid]);
    }
    if Restorable(s) {
      assert Restore(v).value == ForgetAll(s);
    }
    assert TakeSnapshot(ForgetAll(s)).sessions == v.sessions;
  }

  lemma SnapshotForgets(x: Session)
    ensures SnapshotSession(Forget(x)) == SnapshotSession(x)
  {
    var t, t' := x.table, Forget(x).table;
    assert UserIds(t') == UserIds(t);
    ListedIds(t);
    ListedIds(t');
    assert Records(t', Sorted(UserIds(t'))) == Records(t, Sorted(UserIds(t)));
  }

  // ---- whole runs ----

  /** What sessions, adapters and the caller do to the recovery state. */
  datatype Op =
    | Begin(sid: Id, minimum: int)
    | Identify(sid: Id, q: Registration)
    | ToolCall(sid: Id, call: Id)
    | CompleteInput(sid: Id, turn: Id)
    | Claim(sid: Id, key: string, digest: string)
    | Confirm(sid: Id, key: string, item: Id)
    | Reload  // restore from a snapshot of the current state

  /** What an operation let happen. */
  datatype Outcome =
    | Began(sid: Id, generation: int)
    | Dispatched(sid: Id, call: Id)
    | Injecting(sid: Id, key: string, digest: string)
    | Replayed(sid: Id, key: string, digest: string, item: Option<Id>)
    | Refused(sid: Id, key: string, digest: string)
    | Confirmed(sid: Id, key: string, confirmedId: Id)
    | Quiet

  /** What the session and its adapter pass in: digests they computed and the sources they use. Ids
      are whatever the provider and the callers sent. */
  ghost predicate Proper(op: Op) {
    match op
    case Identify(_, q) => q.source in SOURCES && (q.origin.Some? ==> q.origin.value in SOURCES)
    case Claim(_, _, digest) => GoodDigest(digest)
    case _ => true
  }

  ghost function Step(s: State, op: Op): (State, Outcome) {
    match op
    case Begin(sid, minimum) =>
      (match BeginSession(s, sid, minimum)
       case Ok((s', generation)) => (s', Began(sid, generation))
       case Err(_) => (s, Quiet))
    case Identify(sid, q) =>
      if sid in s && s[sid].table.generation > 0 then
        (match Register(s[sid].table, q)
         case Ok((t, _)) => (s[sid := s[sid].(table := t)], Quiet)
         case Err(_) => (s, Quiet))
      else (s, Quiet)
    case ToolCall(sid, call) =>
      if sid in s && call !in s[sid].toolCalls
      then (s[sid := s[sid].(toolCalls := s[sid].toolCalls + {call})], Dispatched(sid, call))
      else (s, Quiet)
    case CompleteInput(sid, turn) =>
      if sid in s && turn in s[sid].table.items && s[sid].table.items[turn].source in INPUT_SOURCES
      then (s[sid := s[sid].(completedInputs := s[sid].completedInputs + {turn})], Quiet)
      else (s, Quiet)
    case Claim(sid, key, digest) =>
      var (s', r) := ClaimMessage(s, sid, key, digest);
      (s', if r.Err? then Refused(sid, key, digest)
           else if r.value.None? then Injecting(sid, key, digest)
           else Replayed(sid, key, digest, r.value))
    case Confirm(sid, key, item) =>
      if sid in s && key in s[sid].messages
      then (ConfirmMessage(s, sid, key, item), Confirmed(sid, key, item)) else (s, Quiet)
    case Reload =>
      (match Restore(TakeSnapshot(s)) case Some(s') => (s', Quiet) case None => (s, Quiet))
  }

  ghost function StateAfter(ops: seq<Op>): State
    decreases |ops|
  {
    if ops == [] then map[] else Step(StateAfter(ops[..|ops| - 1]), ops[|ops| - 1]).0
  }

  /** The outcome of the operation at index `i`. */
  ghost function OutcomeAt(ops: seq<Op>, i: nat): Outcome
    requires i < |ops|
  {
    Step(StateAfter(ops[..i]), ops[i]).1
  }

  lemma {:induction false} StaysHealthy(ops: seq<Op>)
    requires forall i :: 0 <= i < |ops| ==> Proper(ops[i])
    ensures Healthy(StateAfter(ops))
    decreases |ops|
  {
    if ops != [] {
      StaysHealthy(ops[..|ops| - 1]);
      StepStaysHealthy(StateAfter(ops[..|ops| - 1]), ops[|ops| - 1]);
    }
  }

  lemma FreshIsHealthy()
    ensures HealthySession(FRESH)
  {
  }

  lemma StepStaysHealthy(s: State, op: Op)
    requires Healthy(s) && Proper(op)
    ensures Healthy(Step(s, op).0)
  {
    hide ValidId, HealthySession, Register, Restore, TakeSnapshot, BeginGeneration, ClaimMessage, ConfirmMessage;
    match op
    case Begin(sid, minimum) =>
      FreshIsHealthy();
      if BeginSession(s, sid, minimum).Ok? {
        BeginStaysHealthy(if sid in s then s[sid] else FRESH, BeginSession(s, sid, minimum).value.1);
      }
    case Identify(sid, q) =>
      if sid in s && s[sid].table.generation > 0 {
        IdentifyStaysHealthy(s[sid], q);
      }
    case ToolCall(sid, call) =>
      if sid in s {
        ToolCallStaysHealthy(s[sid], call);
      }
    case CompleteInput(sid, turn) =>
      if sid in s && turn in s[sid].table.items {
        InputStaysHealthy(s[sid], turn);
      }
    case Claim(sid, key, digest) => ClaimStaysHealthy(s, sid, key, digest);
    case Confirm(sid, key, item) =>
      if sid in s && key in s[sid].messages {
        ConfirmStaysHealthy(s, sid, key, item);
      }
    case Reload =>
      SnapshotRoundTrip(s);
      forall sid | sid in s ensures HealthySession(Forget(s[sid])) {
        ForgetStaysHealthy(s[sid]);
      }
  }

  lemma ToolCallStaysHealthy(x: Session, call: Id)
    requires HealthySession(x)
    ensures HealthySession(x.(toolCalls := x.toolCalls + {call}))
  {
  }

  lemma InputStaysHealthy(x: Session, turn: Id)
    requires HealthySession(x) && turn in x.table.items
    ensures HealthySession(x.(completedInputs := x.completedInputs + {turn}))
  {
    hide ValidId;
    assert ResolvesWell(x.table, turn) && GoodItem(x.table.items[turn], x.table.generation);
  }

  lemma EntryStaysHealthy(x: Session, key: string, m: Message)
    requires HealthySession(x) && GoodEntry(key, m)
    ensures HealthySession(x.(messages := x.messages[key := m]))
  {
    hide GoodItem, Partition, ValidId;
  }

  lemma ClaimStaysHealthy(s: State, sid: Id, key: string, digest: string)
    requires Healthy(s) && GoodDigest(digest)
    ensures Healthy(ClaimMessage(s, sid, key, digest).0)
  {
    hide ValidId, HealthySession, GoodDigest;
    FreshIsHealthy();
    if ValidId(key) {
      EntryStaysHealthy(if sid in s then s[sid] else FRESH, key, Message(digest, "pending", None));
    }
  }

  lemma ConfirmStaysHealthy(s: State, sid: Id, key: string, item: Id)
    requires Healthy(s) && sid in s && key in s[sid].messages
    ensures Healthy(ConfirmMessage(s, sid, key, item))
  {
    hide ValidId, GoodDigest, Partition;
    assert GoodEntry(key, s[sid].messages[key]);
    EntryStaysHealthy(s[sid], key, s[sid].messages[key].(status := "confirmed", itemId := Some(item)));
  }

  lemma BeginStaysHealthy(x: Session, generation: int)
    requires HealthySession(x) && generation > x.table.generation
    ensures HealthySession(x.(table := BeginGeneration(x.table, generation)))
  {
    BeginKeepsPartition(x.table, generation);
  }

  lemma ForgetStaysHealthy(x: Session)
    requires HealthySession(x)
    ensures HealthySession(Forget(x))
  {
    BeginKeepsPartition(x.table, x.table.generation);
  }

  lemma IdentifyStaysHealthy(x: Session, q: Registration)
    requires HealthySession(x) && x.table.generation > 0
    requires Proper(Identify("", q))
    ensures Register(x.table, q).Ok? ==> HealthySession(x.(table := Register(x.table, q).value.0))
  {
    if Register(x.table, q).Ok? {
      RegisterKeepsPartition(x.table, q);
      RegisteredItems(x.table, q);
    }
  }

  /** Registering changes no entry except to the new item, whose aliases it has validated. */
  lemma RegisteredItems(t: Table, q: Registration)
    requires Register(t, q).Ok?
    ensures var t' := Register(t, q).value.0;
            forall a :: a in t'.items ==>
              (|| (a in t.items && t'.items[a] == t.items[a])
               || (&& t'.items[a] == NewItem(t, Lookup(t, q.id), q)
                   && forall b :: b in t'.items[a].aliases ==> ValidId(b)))
  {
    hide ValidId;
    NoObjection(t, q.id, Linked(Lookup(t, q.id), q));
  }

  /** Every state a run reaches restores from its own snapshot exactly within the size limits, when
      its tool call ids are accepted and its confirmed messages point to confirmed users, and then
      to itself without the rest. */
  lemma ReachableRoundTrip(ops: seq<Op>)
    requires forall i :: 0 <= i < |ops| ==> Proper(ops[i])
    ensures var s := StateAfter(ops);
            && (Restore(TakeSnapshot(s)).Some? <==> Restorable(s))
            && (Restorable(s) ==> Restore(TakeSnapshot(s)) == Some(ForgetAll(s)))
            && TakeSnapshot(ForgetAll(s)) == TakeSnapshot(s)
  {
    StaysHealthy(ops);
    SnapshotRoundTrip(StateAfter(ops));
  }

  /** The message condition is needed: with any confirmed message whose item is not a confirmed user
      identity, the state no longer restores. */
  lemma MessageWithoutUserDoesNotRestore(s: State, sid: Id, key: string)
    requires Healthy(s) && sid in s
    requires key in s[sid].messages && s[sid].messages[key].status == "confirmed"
    requires s[sid].messages[key].itemId.Some? ==>
      var item, t := s[sid].messages[key].itemId.value, s[sid].table;
      !(item in t.items && t.items[item].role == User && t.items[item].confirmed)
    ensures Restore(TakeSnapshot(s)) == None
  {
    hide Healthy, Restore, TakeSnapshot;
    SnapshotRoundTrip(s);
    assert !RestorableSession(s[sid]);
  }

  /** A system message does this: a session that injects one and has it acknowledged reaches a state
      whose own snapshot is refused, whatever the ids. */
  lemma SystemMessageDoesNotRestore(sid: Id, key: string, item: Id, digest: string)
    requires ValidId(sid) && ValidId(key) && ValidId(item) && GoodDigest(digest)
    ensures var q := Registration(item, System, "context_ack", true, [], None);
            var ops := [Begin(sid, 1), Identify(sid, q), Claim(sid, key, digest), Confirm(sid, key, item)];
            && (forall i :: 0 <= i < |ops| ==> Proper(ops[i]))
            && Restore(TakeSnapshot(StateAfter(ops))) == None
  {
    var q := Registration(item, System, "context_ack", true, [], None);
    var ops := [Begin(sid, 1), Identify(sid, q), Claim(sid, key, digest), Confirm(sid, key, item)];
    StaysHealthy(ops);
    hide ValidId, Restore, TakeSnapshot, Step, Healthy, GoodDigest, Proper;
    AfterFour(ops[0], ops[1], ops[2], ops[3]);
    SystemItem(sid, q);
    ClaimThenConfirm(Step(Step(map[], ops[0]).0, ops[1]).0, sid, key, digest, item);
    MessageWithoutUserDoesNotRestore(StateAfter(ops), sid, key);
  }

  lemma AfterFour(a: Op, b: Op, c: Op, d: Op)
    ensures StateAfter([a, b, c, d]) == Step(Step(Step(Step(map[], a).0, b).0, c).0, d).0
  {
    hide Step;
    assert [a][..0] == [] && [a, b][..1] == [a] && [a, b, c][..2] == [a, b] && [a, b, c, d][..3] == [a, b, c];
    assert StateAfter([]) == map[];
    assert StateAfter([a]) == Step(StateAfter([]), a).0;
    assert StateAfter([a, b]) == Step(StateAfter([a]), b).0;
    assert StateAfter([a, b, c]) == Step(StateAfter([a, b]), c).0;
  }

  lemma SystemItem(sid: Id, q: Registration)
    requires ValidId(sid) && ValidId(q.id) && q.role == System && q.aliases == []
    ensures var s := Step(Step(map[], Begin(sid, 1)).0, Identify(sid, q)).0;
            && sid in s && s[sid].messages == map[]
            && q.id in s[sid].table.items && s[sid].table.items[q.id].role == System
  {
    hide ValidId, Register;
    RegisterAlone(BeginGeneration(FRESH.table, 1), q);
  }

  lemma ClaimThenConfirm(s: State, sid: Id, key: string, digest: string, item: Id)
    requires sid in s && ValidId(sid) && ValidId(key) && key !in s[sid].messages
    ensures var s' := Step(Step(s, Claim(sid, key, digest)).0, Confirm(sid, key, item)).0;
            && sid in s' && s'[sid].table == s[sid].table
            && key in s'[sid].messages && s'[sid].messages[key] == Message(digest, "confirmed", Some(item))
  {
    hide ValidId;
  }

  /** The tool call condition is needed too: the session records a call under whatever id the
      provider gave it, and one id that is too long makes the whole state unrestorable. */
  lemma LongCallIdDoesNotRestore(sid: Id, call: Id)
    requires ValidId(sid) && !ValidId(call)
    ensures var ops := [Begin(sid, 1), ToolCall(sid, call)];
            var s := StateAfter(ops);
            && (forall i :: 0 <= i < |ops| ==> Proper(ops[i]))
            && sid in s && s[sid].messages == map[] && s[sid].toolCalls == {call}
            && Restore(TakeSnapshot(s)) == None
  {
    var ops := [Begin(sid, 1), ToolCall(sid, call)];
    hide ValidId, Restore, TakeSnapshot, Healthy, Step, Proper, RestorableSession;
    assert Proper(ops[0]) && Proper(ops[1]) by { BeginsAndCallsAreProper(sid, call); }
    StaysHealthy(ops);
    AfterTwo(ops[0], ops[1]);
    CallIsRecorded(sid, call);
    SnapshotRoundTrip(StateAfter(ops));
    InvalidCallDoesNotRestore(StateAfter(ops)[sid], call);
  }

  lemma BeginsAndCallsAreProper(sid: Id, call: Id)
    ensures Proper(Begin(sid, 1)) && Proper(ToolCall(sid, call))
  {
  }

  lemma AfterTwo(a: Op, b: Op)
    ensures StateAfter([a, b]) == Step(Step(map[], a).0, b).0
  {
    hide Step;
    assert [a][..0] == [] && [a, b][..1] == [a];
    assert StateAfter([]) == map[];
    assert StateAfter([a]) == Step(StateAfter([]), a).0;
  }

  lemma CallIsRecorded(sid: Id, call: Id)
    requires ValidId(sid)
    ensures var s := Step(Step(map[], Begin(sid, 1)).0, ToolCall(sid, call)).0;
            sid in s && s[sid].messages == map[] && s[sid].toolCalls == {call}
  {
    hide ValidId;
  }

  lemma InvalidCallDoesNotRestore(x: Session, call: Id)
    requires call in x.toolCalls && !ValidId(call)
    ensures !RestorableSession(x)
  {
    hide ValidId;
  }

  // ---- at most once ----

  /** What no step takes back for one logical session. */
  ghost predicate GrowsSession(x: Session, x': Session) {
    && x.table.generation <= x'.table.generation
    && x.toolCalls <= x'.toolCalls
    && x.completedInputs <= x'.completedInputs
    && forall k :: k in x.messages ==>
         && k in x'.messages
         && x'.messages[k].digest == x.messages[k].digest
         && (x.messages[k].status == "confirmed" ==> x'.messages[k].status == "confirmed")
  }

  ghost predicate Grows(s: State, s': State) {
    forall sid :: sid in s ==> sid in s' && GrowsSession(s[sid], s'[sid])
  }

  lemma StepGrows(s: State, op: Op)
    requires Healthy(s) && Proper(op)
    ensures Grows(s, Step(s, op).0)
  {
    hide ValidId, Restore, TakeSnapshot, HealthySession, Register, BeginGeneration;
    match op
    case Begin(sid, minimum) =>
      BeginGrows(s, sid, minimum);
    case Identify(sid, q) =>
      if sid in s && s[sid].table.generation > 0 && Register(s[sid].table, q).Ok? {
        GenerationKept(s[sid].table, q);
      }
    case Claim(sid, key, digest) =>
      ClaimGrows(s, sid, key, digest);
    case Confirm(_, _, _) =>
    case Reload =>
      SnapshotRoundTrip(s);
      forall sid | sid in s ensures GrowsSession(s[sid], Forget(s[sid])) {
        ForgetGrows(s[sid]);
      }
    case _ =>
  }

  lemma BeginGrows(s: State, sid: Id, minimum: int)
    ensures BeginSession(s, sid, minimum).Ok? ==> Grows(s, BeginSession(s, sid, minimum).value.0)
  {
    hide ValidId;
  }

  lemma ClaimGrows(s: State, sid: Id, key: string, digest: string)
    ensures Grows(s, ClaimMessage(s, sid, key, digest).0)
  {
    hide ValidId;
  }

  lemma ForgetGrows(x: Session)
    ensures GrowsSession(x, Forget(x))
  {
  }

  lemma GenerationKept(t: Table, q: Registration)
    requires Register(t, q).Ok?
    ensures Register(t, q).value.0.generation == t.generation
  {
  }

  /** Nothing that the operation at index `i` left behind is taken back before index `j`. */
  lemma {:induction false} RunGrows(ops: seq<Op>, i: nat, j: nat)
    requires forall i :: 0 <= i < |ops| ==> Proper(ops[i])
    requires i < j <= |ops|
    ensures Grows(Step(StateAfter(ops[..i]), ops[i]).0, StateAfter(ops[..j]))
    ensures Healthy(StateAfter(ops[..i])) && Healthy(StateAfter(ops[..j]))
    decreases j
  {
    hide Step, Healthy, Proper, GrowsSession;
    var before := ops[..j - 1];
    assert ops[..j][..j - 1] == before;
    StaysHealthy(before);
    StaysHealthy(ops[..j]);
    if i < j - 1 {
      RunGrows(ops, i, j - 1);
      StepGrows(StateAfter(before), ops[j - 1]);
      GrowsThrough(Step(StateAfter(ops[..i]), ops[i]).0, StateAfter(before), StateAfter(ops[..j]));
    } else {
      GrowsNot(StateAfter(ops[..j]));
    }
  }

  lemma GrowsThrough(a: State, b: State, c: State)
    requires Grows(a, b) && Grows(b, c)
    ensures Grows(a, c)
  {
  }

  lemma GrowsNot(s: State)
    ensures Grows(s, s)
  {
  }

  /** What a dispatch, an injection and a begin show about the states around them. */
  lemma OutcomeMarks(s: State, op: Op)
    requires Healthy(s)
    ensures var (s', o) := Step(s, op);
            && (o.Dispatched? ==>
                 && (o.sid in s ==> o.call !in s[o.sid].toolCalls)
                 && o.sid in s' && o.call in s'[o.sid].toolCalls)
            && (o.Injecting? ==>
                 && (o.sid in s ==> o.key !in s[o.sid].messages)
                 && o.sid in s' && o.key in s'[o.sid].messages && s'[o.sid].messages[o.key].digest == o.digest)
            && (o.Began? ==>
                 && (o.sid in s ==> s[o.sid].table.generation < o.generation)
                 && o.sid in s' && s'[o.sid].table.generation == o.generation)
  {
    hide ValidId, Restore, TakeSnapshot, Register, Partition;
    if op.Claim? && op.sid in s && op.key in s[op.sid].messages {
      assert GoodEntry(op.key, s[op.sid].messages[op.key]);
    }
  }

  /** How a claim of a known key is answered. */
  lemma KnownKeyAnswered(s: State, sid: Id, key: string, digest: string)
    requires Healthy(s) && sid in s && key in s[sid].messages
    ensures var entry, o := s[sid].messages[key], Step(s, Claim(sid, key, digest)).1;
            && (entry.digest != digest ==> o == Refused(sid, key, digest))
            && (entry.digest == digest && entry.status != "confirmed" ==> o == Refused(sid, key, digest))
            && (entry.digest == digest && entry.status == "confirmed" ==> o == Replayed(sid, key, digest, entry.itemId))
  {
    hide ValidId, Partition;
    assert GoodEntry(key, s[sid].messages[key]);
  }

  /** Across any run of rebinds, claims, confirmations and reloads: a call id is dispatched at
      most once, and an idempotency key authorises at most one injection. */
  lemma AtMostOnce(ops: seq<Op>, i: nat, j: nat)
    requires forall i :: 0 <= i < |ops| ==> Proper(ops[i])
    requires i < j < |ops|
    ensures OutcomeAt(ops, i).Dispatched? ==> OutcomeAt(ops, j) != OutcomeAt(ops, i)
    ensures OutcomeAt(ops, i).Injecting? && OutcomeAt(ops, j).Injecting? ==>
      OutcomeAt(ops, j).sid != OutcomeAt(ops, i).sid || OutcomeAt(ops, j).key != OutcomeAt(ops, i).key
  {
    hide Step, Healthy, Proper;
    RunGrows(ops, i, j);
    OutcomeMarks(StateAfter(ops[..i]), ops[i]);
    OutcomeMarks(StateAfter(ops[..j]), ops[j]);
  }

  /** Once a key was injected under a digest, a later claim of it under another digest is
      refused, and under the same digest is refused until it is confirmed and from then on
      answered with the id that was confirmed. */
  lemma ClaimsAfterInjection(ops: seq<Op>, i: nat, j: nat)
    requires forall i :: 0 <= i < |ops| ==> Proper(ops[i])
    requires i < j < |ops|
    requires OutcomeAt(ops, i).Injecting? && ops[j].Claim?
    requires ops[j].sid == OutcomeAt(ops, i).sid && ops[j].key == OutcomeAt(ops, i).key
    ensures var s, sid, key := StateAfter(ops[..j]), ops[j].sid, ops[j].key;
            && sid in s && key in s[sid].messages
            && OutcomeAt(ops, j) ==
                 if s[sid].messages[key].status == "confirmed" && ops[j].digest == OutcomeAt(ops, i).digest
                 then Replayed(sid, key, ops[j].digest, s[sid].messages[key].itemId)
                 else Refused(sid, key, ops[j].digest)
  {
    hide Step, Healthy, Proper;
    RunGrows(ops, i, j);
    OutcomeMarks(StateAfter(ops[..i]), ops[i]);
    KnownKeyAnswered(StateAfter(ops[..j]), ops[j].sid, ops[j].key, ops[j].digest);
  }

  /** A confirmed entry holds the id of the last confirmation of that key. */
  lemma {:induction false} ConfirmedByLast(ops: seq<Op>, sid: Id, key: string) returns (i: nat)
    requires forall i :: 0 <= i < |ops| ==> Proper(ops[i])
    requires sid in StateAfter(ops) && key in StateAfter(ops)[sid].messages
    requires StateAfter(ops)[sid].messages[key].status == "confirmed"
    ensures i < |ops| && Confirms(OutcomeAt(ops, i), sid, key)
    ensures StateAfter(ops)[sid].messages[key].itemId == Some(OutcomeAt(ops, i).confirmedId)
    ensures forall k :: i < k < |ops| ==> !Confirms(OutcomeAt(ops, k), sid, key)
    decreases |ops|
  {
    hide Step, Healthy, Proper;
    var init, op := ops[..|ops| - 1], ops[|ops| - 1];
    var s := StateAfter(init);
    assert OutcomeAt(ops, |init|) == Step(s, op).1;
    EntryAfter(s, op, sid, key) by { StaysHealthy(init); }
    if Confirms(Step(s, op).1, sid, key) {
      i := |init|;
    } else {
      i := ConfirmedByLast(init, sid, key);
      forall k | 0 <= k < |init| ensures OutcomeAt(ops, k) == OutcomeAt(init, k) {
        assert init[..k] == ops[..k];
      }
    }
  }

  predicate Confirms(o: Outcome, sid: Id, key: string) {
    o.Confirmed? && o.sid == sid && o.key == key
  }

  /** A confirmed entry was written by the step just taken, or was there before it. */
  lemma EntryAfter(s: State, op: Op, sid: Id, key: string)
    requires Healthy(s) && Proper(op)
    requires var s' := Step(s, op).0;
             sid in s' && key in s'[sid].messages && s'[sid].messages[key].status == "confirmed"
    ensures var (s', o) := Step(s, op);
            if Confirms(o, sid, key) then s'[sid].messages[key].itemId == Some(o.confirmedId)
            else sid in s && key in s[sid].messages && s[sid].messages[key] == s'[sid].messages[key]
  {
    hide ValidId, Partition, Register, Restore, TakeSnapshot, HealthySession, BeginGeneration;
    if op.Reload? {
      SnapshotRoundTrip(s);
    }
  }

  /** Generations of one logical session strictly increase over its life, reloads included, so
      a session stays current only until the next one of that logical session begins. */
  lemma NewestSessionIsCurrent(ops: seq<Op>, i: nat, j: nat)
    requires forall i :: 0 <= i < |ops| ==> Proper(ops[i])
    requires i < j < |ops|
    requires OutcomeAt(ops, i).Began? && OutcomeAt(ops, j).Began?
    requires OutcomeAt(ops, i).sid == OutcomeAt(ops, j).sid
    ensures OutcomeAt(ops, i).generation < OutcomeAt(ops, j).generation
    ensures var s := StateAfter(ops);
            var sid := OutcomeAt(ops, i).sid;
            sid in s && s[sid].table.generation > OutcomeAt(ops, i).generation
  {
    hide Step, Healthy, Proper;
    RunGrows(ops, i, j);
    OutcomeMarks(StateAfter(ops[..i]), ops[i]);
    OutcomeMarks(StateAfter(ops[..j]), ops[j]);
    RunGrows(ops, j, |ops|);
    assert ops[..|ops|] == ops;
  }

  // ---- exactly what each operation lets happen ----

  predicate Injects(o: Outcome, sid: Id, key: string) {
    o.Injecting? && o.sid == sid && o.key == key
  }

  predicate Dispatches(o: Outcome, sid: Id, call: Id) {
    o.Dispatched? && o.sid == sid && o.call == call
  }

  ghost predicate InjectedBefore(ops: seq<Op>, n: nat, sid: Id, key: string)
    requires n <= |ops|
  {
    exists k :: 0 <= k < n && Injects(OutcomeAt(ops, k), sid, key)
  }

  ghost predicate ConfirmedBefore(ops: seq<Op>, n: nat, sid: Id, key: string)
    requires n <= |ops|
  {
    exists k :: 0 <= k < n && Confirms(OutcomeAt(ops, k), sid, key)
  }

  ghost predicate DispatchedBefore(ops: seq<Op>, n: nat, sid: Id, call: Id)
    requires n <= |ops|
  {
    exists k :: 0 <= k < n && Dispatches(OutcomeAt(ops, k), sid, call)
  }

  ghost predicate HasEntry(s: State, sid: Id, key: string) {
    sid in s && key in s[sid].messages
  }

  ghost predicate HasConfirmed(s: State, sid: Id, key: string) {
    HasEntry(s, sid, key) && s[sid].messages[key].status == "confirmed"
  }

  ghost predicate HasCall(s: State, sid: Id, call: Id) {
    sid in s && call in s[sid].toolCalls
  }

  /** An entry appears exactly with its injection, becomes confirmed exactly with a confirmation, and a
      call id appears exactly with its dispatch. */
  lemma OneStepAdds(s: State, op: Op, sid: Id, key: string, call: Id)
    requires Healthy(s) && Proper(op)
    ensures var (s', o) := Step(s, op);
            && (HasEntry(s', sid, key) <==> HasEntry(s, sid, key) || Injects(o, sid, key))
            && (HasConfirmed(s', sid, key) <==> HasConfirmed(s, sid, key) || Confirms(o, sid, key))
            && (HasCall(s', sid, call) <==> HasCall(s, sid, call) || Dispatches(o, sid, call))
  {
    hide ValidId, Partition, Register, Restore, TakeSnapshot, HealthySession, BeginGeneration;
    match op
    case Reload => SnapshotRoundTrip(s);
    case Claim(sid', key', digest) => ClaimAdds(s, sid', key', digest, sid, key, call);
    case _ =>
  }

  lemma ClaimAdds(s: State, sid: Id, key: string, digest: string, sid': Id, key': string, call: Id)
    requires Healthy(s)
    ensures var (s', o) := Step(s, Claim(sid, key, digest));
            && (HasEntry(s', sid', key') <==> HasEntry(s, sid', key') || Injects(o, sid', key'))
            && (HasConfirmed(s', sid', key') <==> HasConfirmed(s, sid', key'))
            && (HasCall(s', sid', call) <==> HasCall(s, sid', call))
  {
    hide ValidId, Partition;
    if sid in s && key in s[sid].messages {
      assert GoodEntry(key, s[sid].messages[key]);
    }
  }

  /** The recovery state holds exactly what the history says. */
  lemma {:induction false} HistoryIsKept(ops: seq<Op>, n: nat, sid: Id, key: string, call: Id)
    requires forall i :: 0 <= i < |ops| ==> Proper(ops[i])
    requires n <= |ops|
    ensures Healthy(StateAfter(ops[..n]))
    ensures HasEntry(StateAfter(ops[..n]), sid, key) <==> InjectedBefore(ops, n, sid, key)
    ensures HasConfirmed(StateAfter(ops[..n]), sid, key) <==> ConfirmedBefore(ops, n, sid, key)
    ensures HasCall(StateAfter(ops[..n]), sid, call) <==> DispatchedBefore(ops, n, sid, call)
    decreases n
  {
    hide Step, Healthy, Proper, HasEntry, HasConfirmed, HasCall;
    StaysHealthy(ops[..n]);
    if n == 0 {
      NothingYet(sid, key, call);
      assert ops[..0] == [];
    } else {
      HistoryIsKept(ops, n - 1, sid, key, call);
      assert ops[..n][..n - 1] == ops[..n - 1];
      OneStepAdds(StateAfter(ops[..n - 1]), ops[n - 1], sid, key, call);
      HistoryGrows(ops, n, sid, key, call);
    }
  }

  lemma NothingYet(sid: Id, key: string, call: Id)
    ensures !HasEntry(map[], sid, key) && !HasConfirmed(map[], sid, key) && !HasCall(map[], sid, call)
  {
  }

  lemma HistoryGrows(ops: seq<Op>, n: nat, sid: Id, key: string, call: Id)
    requires 0 < n <= |ops|
    ensures InjectedBefore(ops, n, sid, key) <==>
      InjectedBefore(ops, n - 1, sid, key) || Injects(OutcomeAt(ops, n - 1), sid, key)
    ensures ConfirmedBefore(ops, n, sid, key) <==>
      ConfirmedBefore(ops, n - 1, sid, key) || Confirms(OutcomeAt(ops, n - 1), sid, key)
    ensures DispatchedBefore(ops, n, sid, call) <==>
      DispatchedBefore(ops, n - 1, sid, call) || Dispatches(OutcomeAt(ops, n - 1), sid, call)
  {
    hide Step;
  }

  /** How every claim is answered, from the history alone: an unusable id is refused; a key not injected
      before is injected; and after an injection the same digest is answered once the key has been
      confirmed, and everything else is refused. */
  lemma ClaimsExactly(ops: seq<Op>, i: nat, k: nat)
    requires forall i :: 0 <= i < |ops| ==> Proper(ops[i])
    requires i < |ops| && ops[i].Claim?
    ensures var Claim(sid, key, digest) := ops[i];
            && (!(ValidId(sid) && ValidId(key)) ==> OutcomeAt(ops, i) == Refused(sid, key, digest))
            && (ValidId(sid) && ValidId(key) && !InjectedBefore(ops, i, sid, key) ==>
                 OutcomeAt(ops, i) == Injecting(sid, key, digest))
            && (k < i && Injects(OutcomeAt(ops, k), sid, key) ==>
                 if digest == OutcomeAt(ops, k).digest && ConfirmedBefore(ops, i, sid, key)
                 then OutcomeAt(ops, i).Replayed? && OutcomeAt(ops, i).sid == sid && OutcomeAt(ops, i).key == key
                 else OutcomeAt(ops, i) == Refused(sid, key, digest))
  {
    hide Step, Healthy, Proper, ValidId;
    var Claim(sid, key, digest) := ops[i];
    HistoryIsKept(ops, i, sid, key, "");
    ClaimAnswered(StateAfter(ops[..i]), sid, key, digest);
    if k < i && Injects(OutcomeAt(ops, k), sid, key) {
      ClaimsAfterInjection(ops, k, i);
    }
  }

  lemma ClaimAnswered(s: State, sid: Id, key: string, digest: string)
    requires Healthy(s)
    ensures var o := Step(s, Claim(sid, key, digest)).1;
            && (!(ValidId(sid) && ValidId(key)) ==> o == Refused(sid, key, digest))
            && (ValidId(sid) && ValidId(key) && !HasEntry(s, sid, key) ==> o == Injecting(sid, key, digest))
  {
    hide ValidId, HealthySession;
  }

  /** A call of a known session is dispatched exactly when it was not before, in any session of its
      line; a confirmation counts exactly for a key injected before. */
  lemma FirstTimesCount(ops: seq<Op>, i: nat)
    requires forall i :: 0 <= i < |ops| ==> Proper(ops[i])
    requires i < |ops|
    ensures ops[i].ToolCall? && ops[i].sid in StateAfter(ops[..i]) ==>
      (OutcomeAt(ops, i) == Dispatched(ops[i].sid, ops[i].call) <==> !DispatchedBefore(ops, i, ops[i].sid, ops[i].call))
    ensures ops[i].Confirm? ==>
      (Confirms(OutcomeAt(ops, i), ops[i].sid, ops[i].key) <==> InjectedBefore(ops, i, ops[i].sid, ops[i].key))
  {
    hide Healthy, Proper;
    if ops[i].ToolCall? {
      HistoryIsKept(ops, i, ops[i].sid, "", ops[i].call);
    } else if ops[i].Confirm? {
      HistoryIsKept(ops, i, ops[i].sid, ops[i].key, "");
    }
  }

  /** A session begins exactly under a usable id, with the next generation or the one asked for if that
      is higher, and keeps exactly its confirmed user identities. */
  lemma BeginsExactly(s: State, sid: Id, minimum: int)
    ensures var (s', o) := Step(s, Begin(sid, minimum));
            var x := if sid in s then s[sid] else FRESH;
            && (!ValidId(sid) ==> s' == s && o == Quiet)
            && (ValidId(sid) ==>
                 && o.Began? && o.sid == sid && s'.Keys == s.Keys + {sid}
                 && o.generation == s'[sid].table.generation
                 && o.generation >= minimum && o.generation > x.table.generation
                 && (o.generation == minimum || o.generation == x.table.generation + 1)
                 && s'[sid].toolCalls == x.toolCalls && s'[sid].completedInputs == x.completedInputs
                 && s'[sid].messages == x.messages
                 && (forall a :: a in s'[sid].table.items <==>
                      a in x.table.items && x.table.items[a].role == User && x.table.items[a].confirmed)
                 && (forall a :: a in s'[sid].table.items ==> s'[sid].table.items[a] == x.table.items[a]))
  {
    hide ValidId;
  }

  /** A completed input is recorded exactly when its identity is one of a spoken input. */
  lemma CompletesExactly(s: State, sid: Id, turn: Id)
    requires sid in s
    ensures var s' := Step(s, CompleteInput(sid, turn)).0;
            var spoken := turn in s[sid].table.items
              && s[sid].table.items[turn].source in {"speech_started", "committed", "transcript"};
            && (spoken ==> s' == s[sid := s[sid].(completedInputs := s[sid].completedInputs + {turn})])
            && (!spoken ==> s' == s)
  {
  }
}
