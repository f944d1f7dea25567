/** The item identity table of one logical session (recovery.py): aliases that resolve to
    canonical items, kept as a partition under every registration. */
module IdentityTable {
  import opened Common

  datatype Role = User | Assistant | System

  datatype Item = Item(
    canonical: Id, role: Role, source: string, generation: int, confirmed: bool, aliases: seq<Id>, origin: string)

  datatype Table = Table(generation: int, items: map<Id, Item>)

  const EMPTY := Table(0, map[])

  /** The arguments of one `register` call. */
  datatype Registration = Registration(
    id: Id, role: Role, source: string, confirmed: bool, aliases: seq<Id>, origin: Option<string>)

  const MAX_ID := 512

  /** The characters `str.strip` removes. */
  predicate Blank(c: char) {
    var u := c as int;
    || 0x09 <= u <= 0x0d || 0x1c <= u <= 0x20 || u == 0x85 || u == 0xa0 || u == 0x1680
    || 0x2000 <= u <= 0x200a || u == 0x2028 || u == 0x2029 || u == 0x202f || u == 0x205f || u == 0x3000
  }

  /** `_identity` accepts. */
  predicate ValidId(id: Id) {
    |id| <= MAX_ID && exists i :: 0 <= i < |id| && !Blank(id[i])
  }

  function Lookup(t: Table, id: Id): Option<Item> {
    if id in t.items then Some(t.items[id]) else None
  }

  /** `tuple(dict.fromkeys(xs))`: first occurrences, in order. */
  function Dedupe(xs: seq<Id>): seq<Id>
    decreases |xs|
  {
    if xs == [] then []
    else
      var init := Dedupe(xs[..|xs| - 1]);
      if xs[|xs| - 1] in init then init else init + [xs[|xs| - 1]]
  }

  /** The error of the first alias that cannot be linked to `id`. */
  function Objection(t: Table, id: Id, linked: seq<Id>): Option<ErrorCode> {
    if linked == [] then None
    else if !ValidId(linked[0]) then Some(ValueError)
    else if linked[0] in t.items && t.items[linked[0]].canonical != id then Some(ProtocolError)
    else Objection(t, id, linked[1..])
  }

  function Linked(existing: Option<Item>, q: Registration): seq<Id> {
    Dedupe([q.id] + q.aliases + if existing.Some? then existing.value.aliases else [])
  }

  /** `existing.origin or existing.source`, else `origin or source`: an empty string counts as absent. */
  function OriginOf(existing: Option<Item>, q: Registration): string {
    match existing
    case Some(item) => if item.origin != "" then item.origin else item.source
    case None => if q.origin.Some? && q.origin.value != "" then q.origin.value else q.source
  }

  function NewItem(t: Table, existing: Option<Item>, q: Registration): Item {
    Item(q.id, q.role, q.source, t.generation,
         q.confirmed || (existing.Some? && existing.value.confirmed),
         Linked(existing, q), OriginOf(existing, q))
  }

  function Store(t: Table, item: Item, linked: seq<Id>): Table {
    t.(items := t.items + map a | a in linked :: item)
  }

  function Register(t: Table, q: Registration): Result<(Table, Item), ErrorCode> {
    if !ValidId(q.id) then Err(ValueError)
    else
      var existing := Lookup(t, q.id);
      if existing.Some? && existing.value.role != q.role then
        if q.source in {"conversation_item", "output_item"} then Ok((t, existing.value)) else Err(ProtocolError)
      else
        var linked := Linked(existing, q);
        match Objection(t, q.id, linked)
        case Some(e) => Err(e)
        case None =>
          var item := NewItem(t, existing, q);
          Ok((Store(t, item, linked), item))
  }

  /** The entries a new generation keeps. */
  function Kept(items: map<Id, Item>): map<Id, Item> {
    map a | a in items && items[a].role == User && items[a].confirmed :: items[a]
  }

  function BeginGeneration(t: Table, generation: int): Table {
    Table(generation, Kept(t.items))
  }

  class RealtimeIdentityTable {
    var generation: int
    var items: map<Id, Item>

    ghost function Model(): Table
      reads this
    {
      Table(generation, items)
    }

    constructor ()
      ensures Model() == EMPTY
    {
      generation, items := 0, map[];
    }

    method StartGeneration(generation: int)
      modifies this
      ensures Model() == BeginGeneration(old(Model()), generation)
    {
      this.generation := generation;
      items := Kept(items);
    }

    method RegisterItem(q: Registration) returns (outcome: Result<Item, ErrorCode>)
      modifies this
      ensures match Register(old(Model()), q)
              case Ok((t, item)) => outcome == Ok(item) && Model() == t
              case Err(e) => outcome == Err(e) && Model() == old(Model())
    {
      if !ValidId(q.id) {
        return Err(ValueError);
      }
      var existing := if q.id in items then Some(items[q.id]) else None;
      if existing.Some? && existing.value.role != q.role {
        if q.source in {"conversation_item", "output_item"} {
          return Ok(existing.value);
        }
        return Err(ProtocolError);
      }
      var linked := Linked(existing, q);
      var i := 0;
      while i < |linked|
        invariant 0 <= i <= |linked|
        invariant Objection(Model(), q.id, linked) == Objection(Model(), q.id, linked[i..])
      {
        if !ValidId(linked[i]) {
          return Err(ValueError);
        }
        if linked[i] in items && items[linked[i]].canonical != q.id {
          return Err(ProtocolError);
        }
        i := i + 1;
      }
      var item := NewItem(Table(generation, items), existing, q);
      StoreItem(item, linked);
      return Ok(item);
    }

    method StoreItem(item: Item, linked: seq<Id>)
      modifies this`items
      ensures Model() == Store(old(Model()), item, linked)
    {
      var i := 0;
      while i < |linked|
        invariant 0 <= i <= |linked|
        invariant items == old(items) + map a | a in linked[..i] :: item
      {
        items := items[linked[i] := item];
        assert linked[..i + 1] == linked[..i] + [linked[i]];
        i := i + 1;
      }
      assert linked[..|linked|] == linked;
    }
  }

  // ---- de-duplication ----

  lemma {:induction false} DedupeFacts(xs: seq<Id>)
    ensures Distinct(Dedupe(xs))
    ensures forall x :: x in Dedupe(xs) <==> x in xs
    ensures xs != [] ==> Dedupe(xs) != [] && Dedupe(xs)[0] == xs[0]
    decreases |xs|
  {
    if xs != [] {
      var init := xs[..|xs| - 1];
      DedupeFacts(init);
      assert xs == init + [xs[|xs| - 1]];
    }
  }

  lemma {:induction false} DedupeRepeatedHead(x: Id, xs: seq<Id>)
    requires xs != [] && xs[0] == x && Distinct(xs)
    ensures Dedupe([x] + xs) == xs
    decreases |xs|
  {
    var init, last := xs[..|xs| - 1], xs[|xs| - 1];
    assert ([x] + xs)[..|[x] + xs| - 1] == [x] + init;
    if |xs| == 1 {
      assert Dedupe([x][..0]) == [];
      assert Dedupe([x]) == [x];
      assert [x] + init == [x];
    } else {
      DedupeRepeatedHead(x, init);
      assert xs == init + [last];
    }
  }

  // ---- the partition ----

  /** The item `a` resolves to lists `a`, lists its canonical id first and nothing twice,
      and every alias it lists resolves to that same item. */
  ghost predicate ResolvesWell(t: Table, a: Id)
    requires a in t.items
  {
    var item := t.items[a];
    && a in item.aliases
    && item.aliases[0] == item.canonical
    && Distinct(item.aliases)
    && forall b :: b in item.aliases ==> b in t.items && t.items[b] == item
  }

  ghost predicate Partition(t: Table) {
    forall a :: a in t.items ==> ResolvesWell(t, a)
  }

  /** What the partition says in terms of identities: canonical ids resolve to themselves, and
      two ids share a canonical id exactly when they share an item. */
  lemma PartitionMeaning(t: Table, a: Id, b: Id)
    requires Partition(t)
    requires a in t.items && b in t.items
    ensures t.items[a].canonical in t.items && t.items[t.items[a].canonical] == t.items[a]
    ensures t.items[a].canonical == t.items[b].canonical <==> t.items[a] == t.items[b]
    ensures t.items[a] != t.items[b] ==> forall x :: !(x in t.items[a].aliases && x in t.items[b].aliases)
  {
    assert ResolvesWell(t, a) && ResolvesWell(t, b);
    assert t.items[a].aliases[0] in t.items[a].aliases;
    assert t.items[b].aliases[0] in t.items[b].aliases;
  }

  lemma {:induction false} NoObjection(t: Table, id: Id, linked: seq<Id>)
    ensures Objection(t, id, linked).None? <==>
      forall a :: a in linked ==> ValidId(a) && (a in t.items ==> t.items[a].canonical == id)
    decreases |linked|
  {
    if linked != [] {
      NoObjection(t, id, linked[1..]);
      assert linked == [linked[0]] + linked[1..];
    }
  }

  /** Registration keeps the partition. */
  lemma RegisterKeepsPartition(t: Table, q: Registration)
    requires Partition(t)
    requires Register(t, q).Ok?
    ensures Partition(Register(t, q).value.0)
    ensures Register(t, q).value.0.generation == t.generation
  {
    var existing := Lookup(t, q.id);
    if existing.None? || existing.value.role == q.role {
      var linked, item := Linked(existing, q), NewItem(t, existing, q);
      var t' := Store(t, item, linked);
      NoObjection(t, q.id, linked);
      LinkedFacts(t, q);
      forall a | a in t'.items ensures ResolvesWell(t', a) {
        if a !in linked {
          assert ResolvesWell(t, a);
          forall b | b in t.items[a].aliases ensures b !in linked {
            SeparateItems(t, q, a, b);
          }
        }
      }
    }
  }

  lemma LinkedFacts(t: Table, q: Registration)
    ensures var linked := Linked(Lookup(t, q.id), q);
            && Distinct(linked) && linked != [] && linked[0] == q.id
            && forall a :: a in linked <==>
                 (a == q.id || a in q.aliases || (q.id in t.items && a in t.items[q.id].aliases))
  {
    var existing := Lookup(t, q.id);
    DedupeFacts([q.id] + q.aliases + if existing.Some? then existing.value.aliases else []);
  }

  /** Ids that share an item are linked together or not at all. */
  lemma LinkedTogether(t: Table, q: Registration, a: Id, b: Id)
    requires Partition(t)
    requires Objection(t, q.id, Linked(Lookup(t, q.id), q)).None?
    requires a in t.items && b in t.items[a].aliases
    requires b in Linked(Lookup(t, q.id), q)
    ensures a in Linked(Lookup(t, q.id), q)
  {
    NoObjection(t, q.id, Linked(Lookup(t, q.id), q));
    LinkedFacts(t, q);
    assert ResolvesWell(t, a);
    assert t.items[b] == t.items[a];
    PartitionMeaning(t, a, a);
    assert t.items[q.id] == t.items[a];
  }

  lemma SeparateItems(t: Table, q: Registration, a: Id, b: Id)
    requires Partition(t)
    requires Objection(t, q.id, Linked(Lookup(t, q.id), q)).None?
    requires a in t.items && b in t.items[a].aliases
    ensures b in Linked(Lookup(t, q.id), q) ==> a in Linked(Lookup(t, q.id), q)
  {
    if b in Linked(Lookup(t, q.id), q) {
      LinkedTogether(t, q, a, b);
    }
  }

  lemma BeginKeepsPartition(t: Table, generation: int)
    requires Partition(t)
    ensures Partition(BeginGeneration(t, generation))
  {
    var t' := BeginGeneration(t, generation);
    forall a | a in t'.items ensures ResolvesWell(t', a) {
      assert ResolvesWell(t, a);
    }
  }

  // ---- exactly what registering does ----

  /** The id itself, the aliases given, and the ones it already has. */
  predicate Named(t: Table, q: Registration, a: Id) {
    a == q.id || a in q.aliases || (q.id in t.items && a in t.items[q.id].aliases)
  }

  /** An id that may be linked: usable, and mapped, if at all, to an item of this canonical id. */
  predicate Free(t: Table, q: Registration, a: Id) {
    ValidId(a) && (a in t.items ==> t.items[a].canonical == q.id)
  }

  /** Exactly when a registration is refused, when it returns the item there is, and what it stores: an
      id of another role is left alone for the two sources that may say so and refused otherwise;
      any other is stored exactly when every id it names is free, under all these ids and no other,
      with the role, source and generation of this call, confirmed if it is or ever was. */
  lemma RegistersExactly(t: Table, q: Registration)
    ensures var r := Register(t, q);
            var known := q.id in t.items;
            var otherRole := known && t.items[q.id].role != q.role;
            && (!ValidId(q.id) ==> r == Err(ValueError))
            && (ValidId(q.id) && otherRole ==>
                 r == if q.source == "conversation_item" || q.source == "output_item" then Ok((t, t.items[q.id]))
                      else Err(ProtocolError))
            && (ValidId(q.id) && !otherRole ==>
                 && (r.Ok? <==> forall a :: Named(t, q, a) ==> Free(t, q, a))
                 && (r.Err? ==> r.error in {ValueError, ProtocolError})
                 && (r.Err? && (forall a :: Named(t, q, a) ==> ValidId(a)) ==> r.error == ProtocolError)
                 && (r.Ok? ==> Stores(t, q, r.value.0, r.value.1)))
  {
    hide ValidId, Linked, Objection, Stores, Named, Free;
    var linked := Linked(Lookup(t, q.id), q);
    NamedIsLinked(t, q);
    FreeIsNoObjection(t, q);
    ObjectionKinds(t, q.id, linked);
    StoresNamed(t, q);
  }

  lemma NamedIsLinked(t: Table, q: Registration)
    ensures forall a :: a in Linked(Lookup(t, q.id), q) <==> Named(t, q, a)
  {
    LinkedFacts(t, q);
  }

  lemma FreeIsNoObjection(t: Table, q: Registration)
    ensures Objection(t, q.id, Linked(Lookup(t, q.id), q)).None? <==> forall a :: Named(t, q, a) ==> Free(t, q, a)
  {
    hide ValidId, Linked, Objection;
    var linked := Linked(Lookup(t, q.id), q);
    NoObjection(t, q.id, linked);
    NamedIsLinked(t, q);
    if forall a :: Named(t, q, a) ==> Free(t, q, a) {
      forall a | a in linked ensures ValidId(a) && (a in t.items ==> t.items[a].canonical == q.id) {
        assert Named(t, q, a);
      }
    }
  }

  lemma StoresNamed(t: Table, q: Registration)
    ensures var existing := Lookup(t, q.id);
            var item := NewItem(t, existing, q);
            Stores(t, q, Store(t, item, Linked(existing, q)), item)
  {
    hide Linked, Named;
    LinkedFacts(t, q);
    NamedIsLinked(t, q);
  }

  ghost predicate Stores(t: Table, q: Registration, t': Table, item: Item) {
    var known := q.id in t.items;
    && t'.generation == t.generation
    && (forall a :: a in t'.items <==> a in t.items || Named(t, q, a))
    && (forall a :: Named(t, q, a) ==> t'.items[a] == item)
    && (forall a :: a in t.items && !Named(t, q, a) ==> t'.items[a] == t.items[a])
    && item.canonical == q.id && item.role == q.role && item.source == q.source && item.generation == t.generation
    && (item.confirmed <==> q.confirmed || (known && t.items[q.id].confirmed))
    && (forall a :: a in item.aliases <==> Named(t, q, a))
    && Distinct(item.aliases) && item.aliases != [] && item.aliases[0] == q.id
    && (known && t.items[q.id].origin != "" ==> item.origin == t.items[q.id].origin)
    && (known && t.items[q.id].origin == "" ==> item.origin == t.items[q.id].source)
    && (!known ==> item.origin == if q.origin.Some? && q.origin.value != "" then q.origin.value else q.source)
  }

  lemma {:induction false} ObjectionKinds(t: Table, id: Id, linked: seq<Id>)
    ensures Objection(t, id, linked).Some? ==> Objection(t, id, linked).value in {ValueError, ProtocolError}
    ensures Objection(t, id, linked).Some? && (forall a :: a in linked ==> ValidId(a)) ==>
      Objection(t, id, linked).value == ProtocolError
    decreases |linked|
  {
    hide ValidId;
    if linked != [] {
      ObjectionKinds(t, id, linked[1..]);
    }
  }

  /** A new generation keeps exactly the confirmed users, as they are. */
  lemma KeepsExactly(t: Table, generation: int, a: Id)
    ensures var t' := BeginGeneration(t, generation);
            && t'.generation == generation
            && (a in t'.items <==> a in t.items && t.items[a].role == User && t.items[a].confirmed)
            && (a in t'.items ==> t'.items[a] == t.items[a])
  {
  }

  // ---- stability ----

  /** Whether a registration stores a new item for an id. */
  predicate Touches(t: Table, q: Registration, a: Id) {
    var existing := Lookup(t, q.id);
    (existing.None? || existing.value.role == q.role) && a in Linked(existing, q)
  }

  /** What registering never changes about an id that was already mapped, and exactly when its
      origin stays. */
  lemma RegisterIsStable(t: Table, q: Registration, a: Id)
    requires Partition(t) && a in t.items
    requires Register(t, q).Ok?
    ensures var t' := Register(t, q).value.0;
            && a in t'.items
            && t'.items[a].role == t.items[a].role
            && t'.items[a].canonical == t.items[a].canonical
            && (t.items[a].confirmed ==> t'.items[a].confirmed)
            && (t'.items[a].origin == t.items[a].origin <==>
                  (!Touches(t, q, a) || t.items[a].origin != "" || t.items[a].source == ""))
  {
    var existing := Lookup(t, q.id);
    if existing.None? || existing.value.role == q.role {
      var linked := Linked(existing, q);
      NoObjection(t, q.id, linked);
      if a in linked {
        assert ResolvesWell(t, a);
        PartitionMeaning(t, a, a);
        assert t.items[q.id] == t.items[a];
      }
    }
  }

  /** A source may be empty, and then the origin is not yet fixed: registering twice more
      moves it. With sources that are never empty it never moves. */
  lemma EmptySourceMovesOrigin()
    ensures var q0 := Registration("a", User, "", true, [], None);
            var q1 := Registration("a", User, "committed", true, [], None);
            var r0 := Register(EMPTY, q0);
            && r0.Ok? && var r1 := Register(r0.value.0, q1);
            && r1.Ok? && var r2 := Register(r1.value.0, q1);
            && r2.Ok? && r1.value.1.origin == "" && r2.value.1.origin == "committed"
  {
    var q0 := Registration("a", User, "", true, [], None);
    var q1 := Registration("a", User, "committed", true, [], None);
    assert ValidId("a") by { assert !Blank("a"[0]); }
    RegisterAlone(EMPTY, q0);
    var t0 := Register(EMPTY, q0).value.0;
    RegisterAlone(t0, q1);
    RegisterAlone(Register(t0, q1).value.0, q1);
  }

  lemma DistinctEnds(xs: seq<Id>)
    requires Distinct(xs) && xs != []
    ensures xs[0] == xs[|xs| - 1] ==> |xs| == 1
  {
  }

  lemma RegisterAlone(t: Table, q: Registration)
    requires ValidId(q.id) && q.aliases == []
    requires q.id in t.items ==>
      t.items[q.id].aliases == [q.id] && t.items[q.id].canonical == q.id && t.items[q.id].role == q.role
    ensures Register(t, q).Ok?
    ensures var (t', item) := Register(t, q).value;
            && item.aliases == [q.id] && item.canonical == q.id && item.role == q.role && item.source == q.source
            && item.origin == OriginOf(Lookup(t, q.id), q)
            && q.id in t'.items && t'.items[q.id] == item
  {
    LinkedFacts(t, q);
    var linked := Linked(Lookup(t, q.id), q);
    assert linked[|linked| - 1] in linked;
    DistinctEnds(linked);
    assert linked == [q.id];
    NoObjection(t, q.id, linked);
  }

  // ---- whole runs of one table ----

  datatype Step = Registering(q: Registration) | Beginning(generation: int)

  /** A raising registration changes nothing. */
  function Next(t: Table, step: Step): Table {
    match step
    case Registering(q) => (match Register(t, q) case Ok((t', _)) => t' case Err(_) => t)
    case Beginning(generation) => BeginGeneration(t, generation)
  }

  function Run(t: Table, steps: seq<Step>): Table
    decreases |steps|
  {
    if steps == [] then t else Run(Next(t, steps[0]), steps[1..])
  }

  lemma {:induction false} PartitionAlways(t: Table, steps: seq<Step>)
    requires Partition(t)
    ensures Partition(Run(t, steps))
    decreases |steps|
  {
    if steps != [] {
      NextKeepsPartition(t, steps[0]);
      PartitionAlways(Next(t, steps[0]), steps[1..]);
    }
  }

  lemma NextKeepsPartition(t: Table, step: Step)
    requires Partition(t)
    ensures Partition(Next(t, step))
  {
    match step
    case Registering(q) =>
      if Register(t, q).Ok? {
        RegisterKeepsPartition(t, q);
      }
    case Beginning(generation) => BeginKeepsPartition(t, generation);
  }

  /** Over any run of registrations and generations, whatever raises on the way: a confirmed
      user identity is never lost, never un-confirmed, never changes role or canonical id, and
      keeps its origin once that is non-empty. */
  lemma {:induction false} ConfirmedUserForever(t: Table, steps: seq<Step>, a: Id)
    requires Partition(t)
    requires a in t.items && t.items[a].role == User && t.items[a].confirmed
    ensures var t' := Run(t, steps);
            && a in t'.items && t'.items[a].role == User && t'.items[a].confirmed
            && t'.items[a].canonical == t.items[a].canonical
            && (t.items[a].origin != "" ==> t'.items[a].origin == t.items[a].origin)
    decreases |steps|
  {
    if steps != [] {
      NextKeepsPartition(t, steps[0]);
      if steps[0].Registering? && Register(t, steps[0].q).Ok? {
        RegisterIsStable(t, steps[0].q, a);
      }
      ConfirmedUserForever(Next(t, steps[0]), steps[1..], a);
    }
  }

  /** Any mapped id, for as long as it stays mapped through a run, keeps its role, canonical id
      and non-empty origin, and a confirmation is never taken back. */
  lemma {:induction false} MappedIsStable(t: Table, steps: seq<Step>, a: Id)
    requires Partition(t) && a in t.items
    requires a in Run(t, steps).items
    requires forall k :: 0 <= k < |steps| ==> a in Run(t, steps[..k]).items
    ensures var before, after := t.items[a], Run(t, steps).items[a];
            && after.role == before.role && after.canonical == before.canonical
            && (before.confirmed ==> after.confirmed)
            && (before.origin != "" ==> after.origin == before.origin)
    decreases |steps|
  {
    if steps != [] {
      var t1 := Next(t, steps[0]);
      NextKeepsPartition(t, steps[0]);
      if steps[0].Registering? && Register(t, steps[0].q).Ok? {
        RegisterIsStable(t, steps[0].q, a);
      }
      assert steps[..1] == [steps[0]];
      forall k | 0 <= k < |steps[1..]| ensures a in Run(t1, steps[1..][..k]).items {
        assert steps[..k + 1][1..] == steps[1..][..k];
        assert Run(t, steps[..k + 1]) == Run(t1, steps[1..][..k]);
      }
      if |steps| > 1 {
        assert steps[1..][..0] == [];
      }
      assert a in t1.items;
      MappedIsStable(t1, steps[1..], a);
    }
  }
}
