/** The bounded JSON Schema subset for tool arguments (tool_schema.py): acceptance of a
    schema, the depth-guarded evaluator, and the guard-free meaning it refines.

    Numbers are exact: an integer, or a real for a finite float. */
module ToolSchema {
  import opened Common

  datatype Json =
    | Null
    | Bool(b: bool)
    | Int(i: int)
    | Float(x: real)
    | Str(s: string)
    | Arr(items: seq<Json>)
    | Obj(fields: map<string, Json>)

  const MAX_DEPTH := 32

  const TYPES := {"object", "array", "string", "number", "integer", "boolean", "null"}

  const KEYWORDS := {
    "type", "description", "title", "properties", "required", "additionalProperties", "items", "enum", "const",
    "minimum", "maximum", "minLength", "maxLength", "minItems", "maxItems", "anyOf", "oneOf", "allOf"}

  // ---- reading a schema ----

  predicate Has(s: Json, key: string) {
    s.Obj? && key in s.fields
  }

  function Get(s: Json, key: string): Json
    requires Has(s, key)
  {
    s.fields[key]
  }

  /** The declared types: None when the keyword is absent or null. */
  function Kinds(s: Json): Option<seq<Json>> {
    if !Has(s, "type") || Get(s, "type").Null? then None
    else if Get(s, "type").Arr? then Some(Get(s, "type").items)
    else Some([Get(s, "type")])
  }

  function Properties(s: Json): map<string, Json> {
    if Has(s, "properties") && Get(s, "properties").Obj? then Get(s, "properties").fields else map[]
  }

  function Elements(s: Json, key: string): seq<Json> {
    if Has(s, key) && Get(s, key).Arr? then Get(s, key).items else []
  }

  predicate IsNumber(j: Json) {
    j.Int? || j.Float?
  }

  function Num(j: Json): real
    requires IsNumber(j)
  {
    match j case Int(i) => i as real case Float(x) => x
  }

  // ---- accepting a schema ----

  predicate SizeBoundOk(s: Json, key: string) {
    Has(s, key) ==> Get(s, key).Int? && Get(s, key).i >= 0
  }

  /** Every check `validate_schema` makes on one object, apart from depth and sub-schemas. */
  predicate LevelOk(s: Json) {
    && s.Obj?
    && (forall k :: k in s.fields ==> k in KEYWORDS)
    && (Kinds(s).Some? ==>
         Kinds(s).value != [] && forall k :: k in Kinds(s).value ==> k.Str? && k.s in TYPES)
    && (Has(s, "description") ==> Get(s, "description").Str?)
    && (Has(s, "title") ==> Get(s, "title").Str?)
    && (Has(s, "properties") ==> Get(s, "properties").Obj?)
    && (Has(s, "required") ==> Get(s, "required").Arr?)
    && (forall k :: k in Elements(s, "required") ==> k.Str?)
    && (forall i, j :: 0 <= i < j < |Elements(s, "required")| ==>
         Elements(s, "required")[i] != Elements(s, "required")[j])
    && (forall key :: key in {"anyOf", "oneOf", "allOf", "enum"} && Has(s, key) ==>
         Get(s, key).Arr? && Get(s, key).items != [])
    && (Has(s, "minimum") ==> IsNumber(Get(s, "minimum")))
    && (Has(s, "maximum") ==> IsNumber(Get(s, "maximum")))
    && SizeBoundOk(s, "minLength") && SizeBoundOk(s, "maxLength")
    && SizeBoundOk(s, "minItems") && SizeBoundOk(s, "maxItems")
  }

  /** The direct sub-schemas, in every position a schema can have one. */
  function SubSchemas(s: Json): set<Json> {
    (set k | k in Properties(s) :: Properties(s)[k])
    + (if Has(s, "additionalProperties") && !Get(s, "additionalProperties").Bool?
       then {Get(s, "additionalProperties")} else {})
    + (if Has(s, "items") then {Get(s, "items")} else {})
    + Common.Elements(Elements(s, "anyOf"))
    + Common.Elements(Elements(s, "oneOf"))
    + Common.Elements(Elements(s, "allOf"))
  }

  lemma SubSchemaIsSmaller(s: Json, c: Json)
    requires c in SubSchemas(s)
    ensures c < s
  {
  }

  /** `validate_schema` accepts. */
  predicate Validates(s: Json, depth: nat)
    decreases s
  {
    && depth <= MAX_DEPTH
    && LevelOk(s)
    && forall c | c in SubSchemas(s) :: (SubSchemaIsSmaller(s, c); Validates(c, depth + 1))
  }

  /** The same checks without the depth limit: what the evaluator needs to read a schema. */
  predicate Shaped(s: Json)
    decreases s
  {
    && LevelOk(s)
    && forall c | c in SubSchemas(s) :: (SubSchemaIsSmaller(s, c); Shaped(c))
  }

  lemma {:induction false} ValidatesIsShaped(s: Json, depth: nat)
    requires Validates(s, depth)
    ensures Shaped(s)
    decreases s
  {
    forall c | c in SubSchemas(s) ensures Shaped(c) {
      SubSchemaIsSmaller(s, c);
      ValidatesIsShaped(c, depth + 1);
    }
  }

  /** The sub-schemas a keyword of alternatives lists. */
  function Alternatives(s: Json, key: string): (cs: seq<Json>)
    requires Shaped(s) && key in {"anyOf", "oneOf", "allOf"}
    ensures forall i :: 0 <= i < |cs| ==> cs[i] in SubSchemas(s) && cs[i] < s && Shaped(cs[i])
  {
    Elements(s, key)
  }

  /** The schema that governs a member of an object: a named property, else the rest. */
  function MemberSchema(s: Json, key: string): (m: Json)
    requires Shaped(s)
    ensures m.Obj? ==> m in SubSchemas(s) && m < s && Shaped(m)
  {
    if key in Properties(s) then
      assert Properties(s)[key] in SubSchemas(s);
      Properties(s)[key]
    else if Has(s, "additionalProperties") then Get(s, "additionalProperties")
    else Bool(true)
  }

  function ItemSchema(s: Json): (m: Json)
    requires Shaped(s) && Has(s, "items")
    ensures m in SubSchemas(s) && m < s && Shaped(m)
  {
    Get(s, "items")
  }

  // ---- the evaluator ----

  predicate HasType(v: Json, kind: string) {
    if kind == "null" then v.Null?
    else if kind == "boolean" then v.Bool?
    else if kind == "string" then v.Str?
    else if kind == "object" then v.Obj?
    else if kind == "array" then v.Arr?
    else if !IsNumber(v) then false
    else kind == "number" || (kind == "integer" && (v.Int? || v.x.Floor as real == v.x))
  }

  /** `_json_equal`. */
  predicate JsonEqual(l: Json, r: Json)
    decreases l
  {
    if l.Bool? || r.Bool? then l.Bool? && r.Bool? && l.b == r.b
    else if l.Obj? && r.Obj? then
      l.fields.Keys == r.fields.Keys && forall k :: k in l.fields ==> JsonEqual(l.fields[k], r.fields[k])
    else if l.Arr? && r.Arr? then
      |l.items| == |r.items| && forall i :: 0 <= i < |l.items| ==> JsonEqual(l.items[i], r.items[i])
    else if IsNumber(l) && IsNumber(r) then Num(l) == Num(r)
    else l == r
  }

  function Count(results: seq<bool>): nat {
    if results == [] then 0 else (if results[0] then 1 else 0) + Count(results[1..])
  }

  predicate SizeWithin(size: nat, s: Json, low: string, high: string)
    requires SizeBoundOk(s, low) && SizeBoundOk(s, high)
  {
    && (Has(s, low) ==> Get(s, low).i <= size)
    && (Has(s, high) ==> size <= Get(s, high).i)
  }

  /** Everything the evaluator checks without descending into a sub-schema. */
  predicate FlatMatches(v: Json, s: Json)
    requires LevelOk(s)
  {
    && (Kinds(s).Some? ==> exists k :: k in Kinds(s).value && HasType(v, k.s))
    && (Has(s, "enum") ==> exists e :: e in Elements(s, "enum") && JsonEqual(v, e))
    && (Has(s, "const") ==> JsonEqual(v, Get(s, "const")))
    && (v.Obj? ==> forall k :: k in Elements(s, "required") ==> k.s in v.fields)
    && (v.Arr? ==> SizeWithin(|v.items|, s, "minItems", "maxItems"))
    && (v.Str? ==> SizeWithin(|v.s|, s, "minLength", "maxLength"))
    && (IsNumber(v) ==>
         && (Has(s, "minimum") ==> Num(Get(s, "minimum")) <= Num(v))
         && (Has(s, "maximum") ==> Num(v) <= Num(Get(s, "maximum"))))
  }

  /** The results of evaluating the alternatives under one keyword. */
  function Results(v: Json, s: Json, key: string, depth: nat): seq<bool>
    requires Shaped(s) && key in {"anyOf", "oneOf", "allOf"}
    decreases s, 0
  {
    var cs := Alternatives(s, key);
    seq(|cs|, i requires 0 <= i < |cs| => Matches(v, cs[i], depth + 1))
  }

  predicate MembersMatch(v: Json, s: Json, depth: nat)
    requires Shaped(s) && v.Obj?
    decreases s, 0
  {
    forall k :: k in v.fields ==>
      var m := MemberSchema(s, k);
      m != Bool(false) && (m.Obj? ==> Matches(v.fields[k], m, depth + 1))
  }

  predicate ItemsMatch(v: Json, s: Json, depth: nat)
    requires Shaped(s) && v.Arr? && Has(s, "items")
    decreases s, 0
  {
    forall i :: 0 <= i < |v.items| ==> Matches(v.items[i], ItemSchema(s), depth + 1)
  }

  /** `matches_schema`, with its depth guard. */
  predicate Matches(v: Json, s: Json, depth: nat)
    requires Shaped(s)
    decreases s, 1
  {
    && depth <= MAX_DEPTH
    && FlatMatches(v, s)
    && (Has(s, "anyOf") ==> Count(Results(v, s, "anyOf", depth)) > 0)
    && (Has(s, "oneOf") ==> Count(Results(v, s, "oneOf", depth)) == 1)
    && (Has(s, "allOf") ==> Count(Results(v, s, "allOf", depth)) == |Results(v, s, "allOf", depth)|)
    && (v.Obj? ==> MembersMatch(v, s, depth))
    && (v.Arr? && Has(s, "items") ==> ItemsMatch(v, s, depth))
  }

  // ---- the meaning ----

  ghost predicate AtLeastOne(bs: seq<bool>) {
    exists i :: 0 <= i < |bs| && bs[i]
  }

  ghost predicate Every(bs: seq<bool>) {
    forall i :: 0 <= i < |bs| ==> bs[i]
  }

  ghost predicate Only(bs: seq<bool>, i: int) {
    0 <= i < |bs| && bs[i] && forall j :: 0 <= j < |bs| && bs[j] ==> j == i
  }

  ghost predicate ExactlyOne(bs: seq<bool>) {
    exists i :: Only(bs, i)
  }

  ghost function Meanings(v: Json, s: Json, key: string): seq<bool>
    requires Shaped(s) && key in {"anyOf", "oneOf", "allOf"}
    decreases s, 0
  {
    var cs := Alternatives(s, key);
    seq(|cs|, i requires 0 <= i < |cs| => Means(v, cs[i]))
  }

  ghost predicate MembersMean(v: Json, s: Json)
    requires Shaped(s) && v.Obj?
    decreases s, 0
  {
    forall k :: k in v.fields ==>
      var m := MemberSchema(s, k);
      m != Bool(false) && (m.Obj? ==> Means(v.fields[k], m))
  }

  ghost predicate ItemsMean(v: Json, s: Json)
    requires Shaped(s) && v.Arr? && Has(s, "items")
    decreases s, 0
  {
    forall i :: 0 <= i < |v.items| ==> Means(v.items[i], ItemSchema(s))
  }

  /** The guard-free meaning: alternatives as section 10.2.1 of JSON Schema Core 2020-12 has
      them (some, exactly one, every sub-schema), with no bound on nesting. */
  ghost predicate Means(v: Json, s: Json)
    requires Shaped(s)
    decreases s, 1
  {
    && FlatMatches(v, s)
    && (Has(s, "anyOf") ==> AtLeastOne(Meanings(v, s, "anyOf")))
    && (Has(s, "oneOf") ==> ExactlyOne(Meanings(v, s, "oneOf")))
    && (Has(s, "allOf") ==> Every(Meanings(v, s, "allOf")))
    && (v.Obj? ==> MembersMean(v, s))
    && (v.Arr? && Has(s, "items") ==> ItemsMean(v, s))
  }

  /** On every accepted schema the depth guard never decides: the bounded evaluator gives
      the unbounded meaning for every value. */
  lemma {:induction false} GuardNeverDecides(v: Json, s: Json, depth: nat)
    requires Validates(s, depth)
    ensures Shaped(s)
    ensures Matches(v, s, depth) <==> Means(v, s)
    decreases s, 1
  {
    ValidatesIsShaped(s, depth);
    AlternativesAgree(v, s, "anyOf", depth);
    AlternativesAgree(v, s, "oneOf", depth);
    AlternativesAgree(v, s, "allOf", depth);
    if v.Obj? {
      MembersAgree(v, s, depth);
    } else if v.Arr? && Has(s, "items") {
      forall i | 0 <= i < |v.items|
        ensures Matches(v.items[i], ItemSchema(s), depth + 1) <==> Means(v.items[i], ItemSchema(s))
      {
        GuardNeverDecides(v.items[i], ItemSchema(s), depth + 1);
      }
    }
  }

  lemma {:induction false} MembersAgree(v: Json, s: Json, depth: nat)
    requires Validates(s, depth) && Shaped(s) && v.Obj?
    ensures MembersMatch(v, s, depth) <==> MembersMean(v, s)
    decreases s, 0
  {
    forall k | k in v.fields && MemberSchema(s, k).Obj?
      ensures Matches(v.fields[k], MemberSchema(s, k), depth + 1) <==> Means(v.fields[k], MemberSchema(s, k))
    {
      GuardNeverDecides(v.fields[k], MemberSchema(s, k), depth + 1);
    }
  }

  lemma {:induction false} AlternativesAgree(v: Json, s: Json, key: string, depth: nat)
    requires Validates(s, depth) && Shaped(s)
    requires key in {"anyOf", "oneOf", "allOf"}
    ensures var n := Count(Results(v, s, key, depth));
            && (n > 0 <==> AtLeastOne(Meanings(v, s, key)))
            && (n == 1 <==> ExactlyOne(Meanings(v, s, key)))
            && (n == |Results(v, s, key, depth)| <==> Every(Meanings(v, s, key)))
    decreases s, 0
  {
    var cs := Alternatives(s, key);
    forall i | 0 <= i < |cs| ensures Matches(v, cs[i], depth + 1) <==> Means(v, cs[i]) {
      GuardNeverDecides(v, cs[i], depth + 1);
    }
    assert Results(v, s, key, depth) == Meanings(v, s, key);
    CountMeaning(Meanings(v, s, key));
  }

  /** What a count of true results says about them. */
  lemma CountMeaning(bs: seq<bool>)
    ensures Count(bs) > 0 <==> AtLeastOne(bs)
    ensures Count(bs) == |bs| <==> Every(bs)
    ensures Count(bs) == 1 <==> ExactlyOne(bs)
  {
    CountSome(bs);
    CountEvery(bs);
    CountOne(bs);
  }

  lemma {:induction false} CountSome(bs: seq<bool>)
    ensures Count(bs) > 0 <==> AtLeastOne(bs)
  {
    if bs != [] {
      CountSome(bs[1..]);
      if AtLeastOne(bs[1..]) {
        var i :| 0 <= i < |bs[1..]| && bs[1..][i];
        assert bs[i + 1];
      } else {
        assert forall i :: 1 <= i < |bs| ==> bs[i] == bs[1..][i - 1];
      }
    }
  }

  lemma {:induction false} CountEvery(bs: seq<bool>)
    ensures Count(bs) <= |bs|
    ensures Count(bs) == |bs| <==> Every(bs)
  {
    if bs != [] {
      CountEvery(bs[1..]);
      if Every(bs[1..]) {
        assert forall i :: 1 <= i < |bs| ==> bs[i] == bs[1..][i - 1];
      } else {
        var i :| 0 <= i < |bs[1..]| && !bs[1..][i];
        assert !bs[i + 1];
      }
    }
  }

  lemma {:induction false} CountOne(bs: seq<bool>)
    ensures Count(bs) == 1 <==> ExactlyOne(bs)
  {
    if bs != [] {
      var later := bs[1..];
      CountOne(later);
      CountSome(later);
      forall i ensures Only(later, i) && !bs[0] ==> Only(bs, i + 1) {
        assert forall j :: 1 <= j < |bs| ==> bs[j] == later[j - 1];
      }
      forall i ensures Only(bs, i) && !bs[0] ==> Only(later, i - 1) {
        assert forall j :: 0 <= j < |later| ==> later[j] == bs[j + 1];
      }
      if bs[0] {
        assert !AtLeastOne(later) ==> Only(bs, 0) by {
          assert forall j :: 1 <= j < |bs| ==> bs[j] == later[j - 1];
        }
        assert AtLeastOne(later) ==> !ExactlyOne(bs) by {
          assert forall j :: 0 <= j < |later| && later[j] ==> bs[j + 1];
        }
      }
    }
  }

  /** The guard is exact: nested one level deeper per n, a schema is accepted exactly up to
      the limit, and beyond it the evaluator would refuse what the schema means to allow. */
  function Nested(n: nat): Json {
    if n == 0 then Obj(map[]) else Obj(map["allOf" := Arr([Nested(n - 1)])])
  }

  lemma {:induction false} GuardIsExact(v: Json, n: nat, depth: nat)
    ensures ExactAt(v, Nested(n), n, depth)
    decreases n
  {
    NestedReads(v, n);
    if n > 0 {
      GuardIsExact(v, n - 1, depth + 1);
      WrapperExact(v, Nested(n), Nested(n - 1), n, depth);
    } else {
      EmptySchema(v, Nested(0), depth);
    }
  }

  /** A schema of `n` levels that allows `v` is accepted, and evaluated as meant, exactly when
      its innermost level is within the limit. */
  ghost predicate ExactAt(v: Json, s: Json, n: nat, depth: nat) {
    && Shaped(s) && Means(v, s)
    && (Validates(s, depth) <==> depth + n <= MAX_DEPTH)
    && (Matches(v, s, depth) <==> depth + n <= MAX_DEPTH)
  }

  lemma WrapperExact(v: Json, s: Json, c: Json, n: nat, depth: nat)
    requires Wraps(s, c) && FlatMatches(v, s)
    requires n > 0 && ExactAt(v, c, n - 1, depth + 1)
    ensures ExactAt(v, s, n, depth)
  {
    WrapperAccepted(s, c, depth);
    WrapperDescends(v, s, c, depth);
  }

  /** A schema whose one keyword is `allOf` over one sub-schema, as seen by its readers. */
  ghost predicate Wraps(s: Json, c: Json) {
    && LevelOk(s)
    && (forall key :: Has(s, key) <==> key == "allOf")
    && Elements(s, "allOf") == [c]
    && SubSchemas(s) == {c}
    && forall k :: k !in Properties(s)
  }

  lemma NestedReads(v: Json, n: nat)
    ensures FlatMatches(v, Nested(n))
    ensures n > 0 ==> Wraps(Nested(n), Nested(n - 1))
    ensures n == 0 ==> LevelOk(Nested(n)) && SubSchemas(Nested(n)) == {} && Nested(n).fields == map[]
  {
    var s := Nested(n);
    assert forall key :: Has(s, key) <==> n > 0 && key == "allOf";
  }

  lemma EmptySchema(v: Json, s: Json, depth: nat)
    requires s == Obj(map[]) && LevelOk(s) && FlatMatches(v, s) && SubSchemas(s) == {}
    ensures ExactAt(v, s, 0, depth)
  {
    if v.Obj? {
      assert forall k :: MemberSchema(s, k) == Bool(true);
      assert MembersMatch(v, s, depth) && MembersMean(v, s);
    }
  }

  lemma WrapperAccepted(s: Json, c: Json, depth: nat)
    requires Wraps(s, c) && Shaped(c)
    ensures Shaped(s)
    ensures Validates(s, depth) <==> depth <= MAX_DEPTH && Validates(c, depth + 1)
  {
    assert c in SubSchemas(s);
  }

  lemma WrapperDescends(v: Json, s: Json, c: Json, depth: nat)
    requires Wraps(s, c) && Shaped(c) && Shaped(s) && FlatMatches(v, s)
    ensures Matches(v, s, depth) <==> depth <= MAX_DEPTH && Matches(v, c, depth + 1)
    ensures Means(v, s) <==> Means(v, c)
  {
    var results, meanings := Results(v, s, "allOf", depth), Meanings(v, s, "allOf");
    assert results == [Matches(v, c, depth + 1)] && results[1..] == [];
    assert Count(results) == (if results[0] then 1 else 0) + Count(results[1..]);
    assert Every(meanings) <==> meanings[0];
    if v.Obj? {
      assert forall k :: MemberSchema(s, k) == Bool(true);
      assert MembersMatch(v, s, depth) && MembersMean(v, s);
    }
  }

  // ---- types and equality ----

  ghost predicate Equals(x: real, n: int) {
    x == n as real
  }

  /** "integer" is any number with a zero fractional part, as in section 6.1.1 of JSON Schema
      Validation 2020-12, and never a boolean. */
  lemma IntegerMeansWhole(v: Json)
    ensures HasType(v, "integer") <==> IsNumber(v) && exists n :: Equals(Num(v), n)
    ensures HasType(v, "integer") ==> HasType(v, "number")
    ensures v.Bool? ==> forall k :: k in TYPES && HasType(v, k) ==> k == "boolean"
  {
    match v
    case Int(i) => assert Equals(Num(v), i);
    case Float(x) =>
      if x.Floor as real == x {
        assert Equals(Num(v), x.Floor);
      }
    case _ =>
  }

  /** A value with every integer replaced by the equal real. */
  function Norm(j: Json): Json {
    match j
    case Int(i) => Float(i as real)
    case Arr(items) => Arr(seq(|items|, i requires 0 <= i < |items| => Norm(items[i])))
    case Obj(fields) => Obj(map k | k in fields :: Norm(fields[k]))
    case _ => j
  }

  /** Equality of JSON values is equality up to how whole numbers are written, at every depth. */
  lemma {:induction false} EqualityIsNormal(l: Json, r: Json)
    ensures JsonEqual(l, r) <==> Norm(l) == Norm(r)
    decreases l
  {
    if l.Obj? && r.Obj? {
      if l.fields.Keys == r.fields.Keys {
        forall k | k in l.fields
          ensures JsonEqual(l.fields[k], r.fields[k]) <==> Norm(l.fields[k]) == Norm(r.fields[k])
        {
          EqualityIsNormal(l.fields[k], r.fields[k]);
        }
        ObjectsNormal(l, r);
      } else {
        assert Norm(l).fields.Keys == l.fields.Keys && Norm(r).fields.Keys == r.fields.Keys;
      }
    } else if l.Arr? && r.Arr? {
      if |l.items| == |r.items| {
        forall i | 0 <= i < |l.items|
          ensures JsonEqual(l.items[i], r.items[i]) <==> Norm(l.items[i]) == Norm(r.items[i])
        {
          EqualityIsNormal(l.items[i], r.items[i]);
        }
        ArraysNormal(l, r);
      } else {
        assert |Norm(l).items| == |l.items| && |Norm(r).items| == |r.items|;
      }
    }
  }

  lemma ObjectsNormal(l: Json, r: Json)
    requires l.Obj? && r.Obj? && l.fields.Keys == r.fields.Keys
    ensures Norm(l) == Norm(r) <==> forall k :: k in l.fields ==> Norm(l.fields[k]) == Norm(r.fields[k])
  {
    var a, b := Norm(l).fields, Norm(r).fields;
    assert a.Keys == l.fields.Keys && b.Keys == r.fields.Keys;
    assert Norm(l) == Obj(a) && Norm(r) == Obj(b);
    assert forall k :: k in l.fields ==> a[k] == Norm(l.fields[k]) && b[k] == Norm(r.fields[k]);
    hide Norm;
    if forall k :: k in l.fields ==> Norm(l.fields[k]) == Norm(r.fields[k]) {
      assert a == b;
    } else {
      var k :| k in l.fields && Norm(l.fields[k]) != Norm(r.fields[k]);
      assert a[k] != b[k];
    }
  }

  lemma ArraysNormal(l: Json, r: Json)
    requires l.Arr? && r.Arr? && |l.items| == |r.items|
    ensures Norm(l) == Norm(r) <==> forall i :: 0 <= i < |l.items| ==> Norm(l.items[i]) == Norm(r.items[i])
  {
    var a, b := Norm(l).items, Norm(r).items;
    assert |a| == |l.items| && |b| == |r.items|;
    if forall i :: 0 <= i < |l.items| ==> Norm(l.items[i]) == Norm(r.items[i]) {
      assert a == b;
    } else {
      var i :| 0 <= i < |l.items| && Norm(l.items[i]) != Norm(r.items[i]);
      assert a[i] != b[i];
    }
  }

  /** An equivalence relation on nested values that never equates a boolean with a number. */
  lemma EqualityIsEquivalence(a: Json, b: Json, c: Json)
    ensures JsonEqual(a, a)
    ensures JsonEqual(a, b) ==> JsonEqual(b, a)
    ensures JsonEqual(a, b) && JsonEqual(b, c) ==> JsonEqual(a, c)
    ensures JsonEqual(a, b) ==> BooleansAgree(a, b)
  {
    EqualityIsNormal(a, a);
    EqualityIsNormal(a, b);
    EqualityIsNormal(b, a);
    EqualityIsNormal(b, c);
    EqualityIsNormal(a, c);
    if JsonEqual(a, b) {
      EqualBooleansAgree(a, b);
    }
  }

  /** At every position of two values: a boolean stands against the same boolean only, a
      number against a number only. */
  ghost predicate BooleansAgree(l: Json, r: Json)
    decreases l
  {
    && (l.Bool? || r.Bool? ==> l == r)
    && (IsNumber(l) <==> IsNumber(r))
    && (l.Arr? && r.Arr? ==> forall i :: 0 <= i < |l.items| && i < |r.items| ==> BooleansAgree(l.items[i], r.items[i]))
    && (l.Obj? && r.Obj? ==> forall k :: k in l.fields && k in r.fields ==> BooleansAgree(l.fields[k], r.fields[k]))
  }

  lemma {:induction false} EqualBooleansAgree(l: Json, r: Json)
    requires JsonEqual(l, r)
    ensures BooleansAgree(l, r)
    decreases l
  {
    if l.Arr? && r.Arr? {
      forall i | 0 <= i < |l.items| ensures BooleansAgree(l.items[i], r.items[i]) {
        EqualBooleansAgree(l.items[i], r.items[i]);
      }
    } else if l.Obj? && r.Obj? {
      forall k | k in l.fields ensures BooleansAgree(l.fields[k], r.fields[k]) {
        EqualBooleansAgree(l.fields[k], r.fields[k]);
      }
    }
  }

  /** Equal values are indistinguishable to every schema: 1 and 1.0 always fare alike. */
  lemma {:induction false} EqualValuesFareAlike(v: Json, w: Json, s: Json)
    requires Shaped(s)
    requires JsonEqual(v, w)
    ensures Means(v, s) <==> Means(w, s)
    decreases s, 1
  {
    FlatFaresAlike(v, w, s);
    AlternativesFareAlike(v, w, s, "anyOf");
    AlternativesFareAlike(v, w, s, "oneOf");
    AlternativesFareAlike(v, w, s, "allOf");
    if v.Obj? {
      MembersFareAlike(v, w, s);
    } else if v.Arr? && Has(s, "items") {
      forall i | 0 <= i < |v.items|
        ensures Means(v.items[i], ItemSchema(s)) <==> Means(w.items[i], ItemSchema(s))
      {
        EqualValuesFareAlike(v.items[i], w.items[i], ItemSchema(s));
      }
    }
  }

  lemma {:induction false} MembersFareAlike(v: Json, w: Json, s: Json)
    requires Shaped(s) && v.Obj? && w.Obj?
    requires JsonEqual(v, w)
    ensures MembersMean(v, s) <==> MembersMean(w, s)
    decreases s, 0
  {
    forall k | k in v.fields && MemberSchema(s, k).Obj?
      ensures Means(v.fields[k], MemberSchema(s, k)) <==> Means(w.fields[k], MemberSchema(s, k))
    {
      EqualValuesFareAlike(v.fields[k], w.fields[k], MemberSchema(s, k));
    }
  }

  lemma {:induction false} AlternativesFareAlike(v: Json, w: Json, s: Json, key: string)
    requires Shaped(s) && key in {"anyOf", "oneOf", "allOf"}
    requires JsonEqual(v, w)
    ensures Meanings(v, s, key) == Meanings(w, s, key)
    decreases s, 0
  {
    var cs := Alternatives(s, key);
    forall i | 0 <= i < |cs| ensures Means(v, cs[i]) <==> Means(w, cs[i]) {
      EqualValuesFareAlike(v, w, cs[i]);
    }
  }

  lemma FlatFaresAlike(v: Json, w: Json, s: Json)
    requires LevelOk(s)
    requires JsonEqual(v, w)
    ensures FlatMatches(v, s) <==> FlatMatches(w, s)
  {
    forall k: string ensures HasType(v, k) <==> HasType(w, k) {
      TypesFareAlike(v, w, k);
    }
    forall e ensures JsonEqual(v, e) <==> JsonEqual(w, e) {
      EqualityIsEquivalence(v, w, e);
      EqualityIsEquivalence(w, v, e);
    }
  }

  lemma TypesFareAlike(v: Json, w: Json, kind: string)
    requires JsonEqual(v, w)
    ensures HasType(v, kind) <==> HasType(w, kind)
  {
    if IsNumber(v) && IsNumber(w) {
      IntegerMeansWhole(v);
      IntegerMeansWhole(w);
    }
  }

  // ---- keyword by keyword ----

  /** A value a sub-schema allows. */
  ghost predicate Allows(m: Json, v: Json) {
    Shaped(m) && Means(v, m)
  }

  /** A value of a named type; a number is an integer when its fraction is zero. */
  predicate TypeIs(v: Json, kind: Json) {
    && kind.Str?
    && match v
       case Null => kind.s == "null"
       case Bool(_) => kind.s == "boolean"
       case Int(_) => kind.s == "integer" || kind.s == "number"
       case Float(x) => kind.s == "number" || (kind.s == "integer" && x.Floor as real == x)
       case Str(_) => kind.s == "string"
       case Arr(_) => kind.s == "array"
       case Obj(_) => kind.s == "object"
  }

  /** What one keyword of a schema asks of a value, as the validation vocabulary has it: the keyword says
      nothing of values of another kind. */
  ghost predicate KeywordHolds(v: Json, fields: map<string, Json>, key: string)
    requires key in fields
  {
    var w := fields[key];
    if key == "type" then w.Null? || TypeIs(v, w) || (w.Arr? && exists k :: k in w.items && TypeIs(v, k))
    else if key == "enum" then w.Arr? && exists e :: e in w.items && JsonEqual(v, e)
    else if key == "const" then JsonEqual(v, w)
    else if key == "required" then v.Obj? && w.Arr? ==> forall k :: k in w.items && k.Str? ==> k.s in v.fields
    else if key == "minItems" then v.Arr? && w.Int? ==> w.i <= |v.items|
    else if key == "maxItems" then v.Arr? && w.Int? ==> |v.items| <= w.i
    else if key == "minLength" then v.Str? && w.Int? ==> w.i <= |v.s|
    else if key == "maxLength" then v.Str? && w.Int? ==> |v.s| <= w.i
    else if key == "minimum" then IsNumber(v) && IsNumber(w) ==> Num(w) <= Num(v)
    else if key == "maximum" then IsNumber(v) && IsNumber(w) ==> Num(v) <= Num(w)
    else if key == "properties" then
      v.Obj? && w.Obj? ==> forall k :: k in v.fields && k in w.fields ==> Allows(w.fields[k], v.fields[k])
    else if key == "additionalProperties" then
      v.Obj? ==> forall k :: k in v.fields && !(k in NamedProperties(fields)) ==>
        w == Bool(true) || (w.Obj? && Allows(w, v.fields[k]))
    else if key == "items" then v.Arr? ==> forall i :: 0 <= i < |v.items| ==> Allows(w, v.items[i])
    else if key == "anyOf" then w.Arr? && exists i :: 0 <= i < |w.items| && Allows(w.items[i], v)
    else if key == "oneOf" then w.Arr? && exists i :: Alone(w.items, v, i)
    else if key == "allOf" then w.Arr? && forall i :: 0 <= i < |w.items| ==> Allows(w.items[i], v)
    else true
  }

  ghost predicate Alone(schemas: seq<Json>, v: Json, i: int) {
    0 <= i < |schemas| && Allows(schemas[i], v) && forall j :: 0 <= j < |schemas| && Allows(schemas[j], v) ==> j == i
  }

  function NamedProperties(fields: map<string, Json>): set<string> {
    if "properties" in fields && fields["properties"].Obj? then fields["properties"].fields.Keys else {}
  }

  ghost predicate Meets(v: Json, s: Json, key: string)
    requires s.Obj?
  {
    key in s.fields ==> KeywordHolds(v, s.fields, key)
  }

  ghost predicate MeetsFlat(v: Json, s: Json)
    requires s.Obj?
  {
    && Meets(v, s, "type") && Meets(v, s, "enum") && Meets(v, s, "const") && Meets(v, s, "required")
    && Meets(v, s, "minItems") && Meets(v, s, "maxItems") && Meets(v, s, "minLength") && Meets(v, s, "maxLength")
    && Meets(v, s, "minimum") && Meets(v, s, "maximum")
  }

  ghost predicate MeetsNested(v: Json, s: Json)
    requires s.Obj?
  {
    && Meets(v, s, "properties") && Meets(v, s, "additionalProperties") && Meets(v, s, "items")
    && Meets(v, s, "anyOf") && Meets(v, s, "oneOf") && Meets(v, s, "allOf")
  }

  /** A value has a schema's meaning exactly when it meets every keyword of the schema by itself. */
  lemma MeansItsKeywords(v: Json, s: Json)
    requires Shaped(s)
    ensures Means(v, s) <==> forall key :: key in s.fields ==> KeywordHolds(v, s.fields, key)
  {
    hide KeywordHolds, FlatMatches, MeetsFlat, MeetsNested, MembersMean, ItemsMean, Meanings;
    FlatIsMet(v, s);
    MembersAreMet(v, s);
    ItemsAreMet(v, s);
    AlternativesAreMet(v, s);
    NestedIsMet(v, s);
    AllIsMet(v, s);
  }

  lemma FlatIsMet(v: Json, s: Json)
    requires LevelOk(s)
    ensures FlatMatches(v, s) <==> MeetsFlat(v, s)
  {
    hide KeywordHolds, HasType, JsonEqual, SizeWithin, LevelOk;
    assert s.Obj? && SizeBoundOk(s, "minLength") && SizeBoundOk(s, "maxLength") && SizeBoundOk(s, "minItems")
      && SizeBoundOk(s, "maxItems") by { LevelParts(s); }
    LevelParts(s);
    TypeIsMet(v, s);
    EnumIsMet(v, s);
    RequiredIsMet(v, s);
    SizesAreMet(v, s);
    BoundsAreMet(v, s);
  }

  lemma LevelParts(s: Json)
    requires LevelOk(s)
    ensures s.Obj?
    ensures SizeBoundOk(s, "minLength") && SizeBoundOk(s, "maxLength")
    ensures SizeBoundOk(s, "minItems") && SizeBoundOk(s, "maxItems")
    ensures Has(s, "minimum") ==> IsNumber(Get(s, "minimum"))
    ensures Has(s, "maximum") ==> IsNumber(Get(s, "maximum"))
    ensures Kinds(s).Some? ==> forall k :: k in Kinds(s).value ==> k.Str? && k.s in TYPES
    ensures forall k :: k in Elements(s, "required") ==> k.Str?
    ensures Has(s, "required") ==> Get(s, "required").Arr?
    ensures forall key :: key in {"anyOf", "oneOf", "allOf", "enum"} && Has(s, key) ==> Get(s, key).Arr?
    ensures Has(s, "properties") ==> Get(s, "properties").Obj?
  {
  }

  lemma TypeIsMet(v: Json, s: Json)
    requires LevelOk(s)
    ensures (Kinds(s).Some? ==> exists k :: k in Kinds(s).value && HasType(v, k.s)) <==> Meets(v, s, "type")
  {
    hide LevelOk;
    LevelParts(s);
    forall k: Json | k.Str? && k.s in TYPES ensures HasType(v, k.s) <==> TypeIs(v, k) {
      TypesAgree(v, k);
    }
    hide HasType, TypeIs;
    if Has(s, "type") {
      TypeReads(v, s.fields);
      var w := s.fields["type"];
      if w.Str? {
        assert Kinds(s) == Some([w]);
        assert w in [w];
      }
    }
  }

  lemma TypeReads(v: Json, fields: map<string, Json>)
    requires "type" in fields
    ensures var w := fields["type"];
            KeywordHolds(v, fields, "type") <==>
              (w.Null? || TypeIs(v, w) || (w.Arr? && exists k :: k in w.items && TypeIs(v, k)))
  {
  }

  lemma TypesAgree(v: Json, k: Json)
    requires k.Str? && k.s in TYPES
    ensures HasType(v, k.s) <==> TypeIs(v, k)
  {
  }

  lemma EnumIsMet(v: Json, s: Json)
    requires LevelOk(s)
    ensures (Has(s, "enum") ==> exists e :: e in Elements(s, "enum") && JsonEqual(v, e)) <==> Meets(v, s, "enum")
    ensures (Has(s, "const") ==> JsonEqual(v, Get(s, "const"))) <==> Meets(v, s, "const")
  {
    hide LevelOk, JsonEqual;
    LevelParts(s);
  }

  lemma RequiredIsMet(v: Json, s: Json)
    requires LevelOk(s)
    ensures (v.Obj? ==> forall k :: k in Elements(s, "required") ==> k.Str? && k.s in v.fields) <==>
      Meets(v, s, "required")
  {
    hide LevelOk;
    LevelParts(s);
  }

  lemma SizesAreMet(v: Json, s: Json)
    requires SizeBoundOk(s, "minItems") && SizeBoundOk(s, "maxItems")
    requires SizeBoundOk(s, "minLength") && SizeBoundOk(s, "maxLength") && s.Obj?
    ensures (v.Arr? ==> SizeWithin(|v.items|, s, "minItems", "maxItems")) <==>
      Meets(v, s, "minItems") && Meets(v, s, "maxItems")
    ensures (v.Str? ==> SizeWithin(|v.s|, s, "minLength", "maxLength")) <==>
      Meets(v, s, "minLength") && Meets(v, s, "maxLength")
  {
  }

  lemma BoundsAreMet(v: Json, s: Json)
    requires LevelOk(s)
    ensures (IsNumber(v) ==>
               && (Has(s, "minimum") ==> IsNumber(Get(s, "minimum")) && Num(Get(s, "minimum")) <= Num(v))
               && (Has(s, "maximum") ==> IsNumber(Get(s, "maximum")) && Num(v) <= Num(Get(s, "maximum"))))
       <==> Meets(v, s, "minimum") && Meets(v, s, "maximum")
  {
    hide LevelOk;
    LevelParts(s);
  }

  lemma MembersAreMet(v: Json, s: Json)
    requires Shaped(s)
    ensures (v.Obj? ==> MembersMean(v, s)) <==> Meets(v, s, "properties") && Meets(v, s, "additionalProperties")
  {
    hide KeywordHolds, Shaped, Means, Allows, LevelOk;
    LevelOfShaped(s);
    LevelParts(s);
    PropertiesRead(v, s);
    if v.Obj? {
      forall k | k in v.fields
        ensures var m := MemberSchema(s, k);
                (m != Bool(false) && (m.Obj? ==> Means(v.fields[k], m))) <==> MemberAllows(s.fields, k, v.fields[k])
      {
        MemberMeans(s, k, v.fields[k]);
      }
    }
  }

  lemma LevelOfShaped(s: Json)
    requires Shaped(s)
    ensures LevelOk(s)
  {
  }

  /** What properties and additional properties together say of one member. */
  ghost predicate MemberAllows(fields: map<string, Json>, k: string, v: Json) {
    if k in NamedProperties(fields) then Allows(fields["properties"].fields[k], v)
    else "additionalProperties" in fields ==>
      fields["additionalProperties"] == Bool(true)
      || (fields["additionalProperties"].Obj? && Allows(fields["additionalProperties"], v))
  }

  lemma PropertiesRead(v: Json, s: Json)
    requires s.Obj? && (Has(s, "properties") ==> Get(s, "properties").Obj?)
    ensures Meets(v, s, "properties") && Meets(v, s, "additionalProperties") <==>
      (v.Obj? ==> forall k :: k in v.fields ==> MemberAllows(s.fields, k, v.fields[k]))
  {
    hide Allows;
  }

  lemma MemberMeans(s: Json, k: string, v: Json)
    requires Shaped(s)
    ensures var m := MemberSchema(s, k);
            m != Bool(false) && (m.Obj? ==> Means(v, m)) <==> MemberAllows(s.fields, k, v)
  {
    hide Means, LevelOk;
    LevelOfShaped(s);
    LevelParts(s);
    if k in Properties(s) {
      assert Properties(s)[k] in SubSchemas(s);
      ChildIsShaped(s, Properties(s)[k]);
    } else if Has(s, "additionalProperties") && !Get(s, "additionalProperties").Bool? {
      assert Get(s, "additionalProperties") in SubSchemas(s);
      ChildIsShaped(s, Get(s, "additionalProperties"));
    }
  }

  lemma ChildIsShaped(s: Json, c: Json)
    requires Shaped(s) && c in SubSchemas(s)
    ensures Shaped(c) && c.Obj?
  {
    LevelOfShaped(c);
    LevelParts(c);
  }

  lemma ItemsAreMet(v: Json, s: Json)
    requires Shaped(s)
    ensures (v.Arr? && Has(s, "items") ==> ItemsMean(v, s)) <==> Meets(v, s, "items")
  {
    hide Means, LevelOk;
    LevelOfShaped(s);
    LevelParts(s);
    if Has(s, "items") {
      assert Get(s, "items") in SubSchemas(s);
      ChildIsShaped(s, Get(s, "items"));
    }
  }

  lemma AlternativesAreMet(v: Json, s: Json)
    requires Shaped(s)
    ensures (Has(s, "anyOf") ==> AtLeastOne(Meanings(v, s, "anyOf"))) <==> Meets(v, s, "anyOf")
    ensures (Has(s, "oneOf") ==> ExactlyOne(Meanings(v, s, "oneOf"))) <==> Meets(v, s, "oneOf")
    ensures (Has(s, "allOf") ==> Every(Meanings(v, s, "allOf"))) <==> Meets(v, s, "allOf")
  {
    hide KeywordHolds, Meanings, Shaped, Allows;
    LevelOfShaped(s);
    LevelParts(s);
    hide LevelOk;
    AlternativesRead(v, s.fields);
    if Has(s, "anyOf") {
      MeaningsAllow(v, s, "anyOf");
    }
    if Has(s, "oneOf") {
      MeaningsAllow(v, s, "oneOf");
      var ms, cs := Meanings(v, s, "oneOf"), s.fields["oneOf"].items;
      forall i ensures Only(ms, i) <==> Alone(cs, v, i) {
      }
    }
    if Has(s, "allOf") {
      MeaningsAllow(v, s, "allOf");
    }
  }

  lemma AlternativesRead(v: Json, fields: map<string, Json>)
    ensures "anyOf" in fields && fields["anyOf"].Arr? ==>
      (KeywordHolds(v, fields, "anyOf") <==>
        exists i :: 0 <= i < |fields["anyOf"].items| && Allows(fields["anyOf"].items[i], v))
    ensures "oneOf" in fields && fields["oneOf"].Arr? ==>
      (KeywordHolds(v, fields, "oneOf") <==> exists i :: Alone(fields["oneOf"].items, v, i))
    ensures "allOf" in fields && fields["allOf"].Arr? ==>
      (KeywordHolds(v, fields, "allOf") <==>
        forall i :: 0 <= i < |fields["allOf"].items| ==> Allows(fields["allOf"].items[i], v))
  {
    hide Allows;
  }

  lemma MeaningsAllow(v: Json, s: Json, key: string)
    requires Shaped(s) && key in {"anyOf", "oneOf", "allOf"} && Has(s, key) && Get(s, key).Arr?
    ensures var cs := Get(s, key).items;
            && |Meanings(v, s, key)| == |cs|
            && forall i :: 0 <= i < |cs| ==> (Meanings(v, s, key)[i] <==> Allows(cs[i], v))
  {
    hide Means, LevelOk;
  }

  lemma NestedIsMet(v: Json, s: Json)
    requires s.Obj?
    ensures MeetsNested(v, s) <==>
      && Meets(v, s, "properties") && Meets(v, s, "additionalProperties") && Meets(v, s, "items")
      && Meets(v, s, "anyOf") && Meets(v, s, "oneOf") && Meets(v, s, "allOf")
  {
    hide Meets;
  }

  /** No keyword but these says anything of values. */
  lemma AllIsMet(v: Json, s: Json)
    requires LevelOk(s)
    ensures MeetsFlat(v, s) && MeetsNested(v, s) <==> forall key :: key in s.fields ==> KeywordHolds(v, s.fields, key)
  {
    hide KeywordHolds;
    forall key | key in s.fields && (key == "description" || key == "title") ensures KeywordHolds(v, s.fields, key) {
      AnnotationHolds(v, s.fields, key);
    }
  }

  lemma AnnotationHolds(v: Json, fields: map<string, Json>, key: string)
    requires key in fields && (key == "description" || key == "title")
    ensures KeywordHolds(v, fields, key)
  {
  }

  // ---- which schemas are accepted ----

  /** What one keyword has to be written like, sub-schemas aside. */
  ghost predicate WellWritten(w: Json, key: string) {
    if key == "type" then
      w.Null? || IsType(w) || (w.Arr? && w.items != [] && forall k :: k in w.items ==> IsType(k))
    else if key == "description" || key == "title" then w.Str?
    else if key == "properties" then w.Obj?
    else if key == "required" then w.Arr? && Distinct(w.items) && forall k :: k in w.items ==> k.Str?
    else if key == "enum" || key == "anyOf" || key == "oneOf" || key == "allOf" then w.Arr? && w.items != []
    else if key == "minimum" || key == "maximum" then w.Int? || w.Float?
    else if key == "minLength" || key == "maxLength" || key == "minItems" || key == "maxItems" then w.Int? && w.i >= 0
    else key == "const" || key == "items" || key == "additionalProperties"
  }

  predicate IsType(k: Json) {
    k.Str? && k.s in {"object", "array", "string", "number", "integer", "boolean", "null"}
  }

  /** A level of a schema is accepted exactly when it is an object with no keyword but the known ones, each
      well written by itself. */
  lemma AcceptsItsKeywords(s: Json)
    ensures LevelOk(s) <==> s.Obj? && forall key :: key in s.fields ==> WellWritten(s.fields[key], key)
  {
    if s.Obj? {
      KnownKeywords(s.fields);
      TypeIsWritten(s);
      NamesAreWritten(s);
      ListsAreWritten(s);
      BoundsAreWritten(s);
      AllIsWritten(s);
    }
  }

  ghost predicate Written(s: Json, key: string)
    requires s.Obj?
  {
    key in s.fields ==> WellWritten(s.fields[key], key)
  }

  lemma KnownKeywords(fields: map<string, Json>)
    ensures forall key :: key in fields && WellWritten(fields[key], key) ==> key in KEYWORDS
  {
  }

  lemma TypeIsWritten(s: Json)
    requires s.Obj?
    ensures Written(s, "type") <==>
      (Kinds(s).Some? ==> Kinds(s).value != [] && forall k :: k in Kinds(s).value ==> k.Str? && k.s in TYPES)
  {
    if Has(s, "type") && !Get(s, "type").Null? && !Get(s, "type").Arr? {
      assert Get(s, "type") in Kinds(s).value;
    }
  }

  lemma NamesAreWritten(s: Json)
    requires s.Obj?
    ensures Written(s, "description") <==> (Has(s, "description") ==> Get(s, "description").Str?)
    ensures Written(s, "title") <==> (Has(s, "title") ==> Get(s, "title").Str?)
    ensures Written(s, "properties") <==> (Has(s, "properties") ==> Get(s, "properties").Obj?)
    ensures Written(s, "required") <==>
      && (Has(s, "required") ==> Get(s, "required").Arr?)
      && (forall k :: k in Elements(s, "required") ==> k.Str?)
      && (forall i, j :: 0 <= i < j < |Elements(s, "required")| ==>
           Elements(s, "required")[i] != Elements(s, "required")[j])
  {
  }

  lemma ListsAreWritten(s: Json)
    requires s.Obj?
    ensures Written(s, "enum") && Written(s, "anyOf") && Written(s, "oneOf") && Written(s, "allOf") <==>
      forall key :: key in {"anyOf", "oneOf", "allOf", "enum"} && Has(s, key) ==>
        Get(s, key).Arr? && Get(s, key).items != []
  {
    forall key | key in {"anyOf", "oneOf", "allOf", "enum"}
      ensures Written(s, key) <==> (Has(s, key) ==> Get(s, key).Arr? && Get(s, key).items != [])
    {
    }
    hide Written;
    var keys := {"anyOf", "oneOf", "allOf", "enum"};
    assert "anyOf" in keys && "oneOf" in keys && "allOf" in keys && "enum" in keys;
  }

  lemma BoundsAreWritten(s: Json)
    requires s.Obj?
    ensures Written(s, "minimum") <==> (Has(s, "minimum") ==> IsNumber(Get(s, "minimum")))
    ensures Written(s, "maximum") <==> (Has(s, "maximum") ==> IsNumber(Get(s, "maximum")))
    ensures Written(s, "minLength") <==> SizeBoundOk(s, "minLength")
    ensures Written(s, "maxLength") <==> SizeBoundOk(s, "maxLength")
    ensures Written(s, "minItems") <==> SizeBoundOk(s, "minItems")
    ensures Written(s, "maxItems") <==> SizeBoundOk(s, "maxItems")
  {
  }

  ghost predicate AllWritten(s: Json)
    requires s.Obj?
  {
    && Written(s, "type") && Written(s, "description") && Written(s, "title") && Written(s, "properties")
    && Written(s, "required") && Written(s, "enum") && Written(s, "anyOf") && Written(s, "oneOf")
    && Written(s, "allOf") && Written(s, "minimum") && Written(s, "maximum") && Written(s, "minLength")
    && Written(s, "maxLength") && Written(s, "minItems") && Written(s, "maxItems")
  }

  lemma AllIsWritten(s: Json)
    requires s.Obj?
    ensures (forall key :: key in s.fields ==> WellWritten(s.fields[key], key)) <==>
      (forall key :: key in s.fields ==> key in KEYWORDS) && AllWritten(s)
  {
    KnownKeywords(s.fields);
    hide WellWritten;
    if (forall key :: key in s.fields ==> key in KEYWORDS) && AllWritten(s) {
      forall key | key in s.fields ensures WellWritten(s.fields[key], key) {
        assert key in KEYWORDS;
        if key == "const" || key == "items" || key == "additionalProperties" {
          FreelyWritten(s.fields[key], key);
        } else {
          assert Written(s, key);
        }
      }
    }
  }

  lemma FreelyWritten(w: Json, key: string)
    requires key == "const" || key == "items" || key == "additionalProperties"
    ensures WellWritten(w, key)
  {
  }

  /** The sub-schemas of a schema are exactly its properties, its schema for additional properties, its
      items and its alternatives. */
  lemma SubSchemasExactly(s: Json, c: Json)
    requires LevelOk(s)
    ensures c in SubSchemas(s) <==>
      || ("properties" in s.fields && s.fields["properties"].Obj? && c in s.fields["properties"].fields.Values)
      || ("additionalProperties" in s.fields && s.fields["additionalProperties"] == c && !c.Bool?)
      || ("items" in s.fields && s.fields["items"] == c)
      || ("anyOf" in s.fields && s.fields["anyOf"].Arr? && c in s.fields["anyOf"].items)
      || ("oneOf" in s.fields && s.fields["oneOf"].Arr? && c in s.fields["oneOf"].items)
      || ("allOf" in s.fields && s.fields["allOf"].Arr? && c in s.fields["allOf"].items)
  {
    LevelParts(s);
    hide LevelOk;
  }

  /** Schemas nested at most `n` levels deep. */
  ghost predicate NestsWithin(s: Json, n: nat)
    decreases n
  {
    forall c :: c in SubSchemas(s) ==> n > 0 && NestsWithin(c, n - 1)
  }

  /** A schema is accepted exactly when it is well written at every level and nested at most 32 levels. */
  lemma {:induction false} ValidatesExactly(s: Json, depth: nat)
    ensures Validates(s, depth) <==> Shaped(s) && depth <= 32 && NestsWithin(s, 32 - depth)
    decreases s
  {
    hide LevelOk, SubSchemas;
    forall c | c in SubSchemas(s) && depth < 32
      ensures Validates(c, depth + 1) <==> Shaped(c) && NestsWithin(c, 31 - depth)
    {
      SubSchemaIsSmaller(s, c);
      ValidatesExactly(c, depth + 1);
    }
    if depth == 32 && LevelOk(s) {
      forall c | c in SubSchemas(s) ensures !Validates(c, depth + 1) {
        SubSchemaIsSmaller(s, c);
      }
    }
  }
}
