/** `DataGeneratorFactory` of the Python API tester: a recursive generator over schema
    dicts whose primitive values are memoised under a key built from the value's path in
    the document and its kind. `random` draws and `Faker` / `uuid` calls are
    nondeterministic choices; the TTL cache is an unbounded map (no expiry, no eviction). */
module PyDataGenerator {
  import opened Wrappers
  import opened PyJson
  import Text

  /** The primitive generators, one per cache-key suffix. */
  datatype Kind = Email | Date | DateTime | Uuid | Uri | Word | Integer | Number | Boolean

  function Suffix(k: Kind): string {
    match k
    case Email => "_email"
    case Date => "_date"
    case DateTime => "_datetime"
    case Uuid => "_uuid"
    case Uri => "_uri"
    case Word => "_string"
    case Integer => "_integer"
    case Number => "_number"
    case Boolean => "_boolean"
  }

  predicate EndsWith(s: string, suffix: string) {
    |suffix| <= |s| && s[|s| - |suffix|..] == suffix
  }

  /** The kind a cache key was stored for, read back from its suffix (the last character
      is compared first; it tells most suffixes apart). */
  function KeyKind(key: string): Option<Kind> {
    if key == [] then None
    else if key[|key| - 1] == 'l' && EndsWith(key, Suffix(Email)) then Some(Email)
    else if key[|key| - 1] == 'e' && EndsWith(key, Suffix(DateTime)) then Some(DateTime)
    else if key[|key| - 1] == 'e' && EndsWith(key, Suffix(Date)) then Some(Date)
    else if key[|key| - 1] == 'd' && EndsWith(key, Suffix(Uuid)) then Some(Uuid)
    else if key[|key| - 1] == 'i' && EndsWith(key, Suffix(Uri)) then Some(Uri)
    else if key[|key| - 1] == 'g' && EndsWith(key, Suffix(Word)) then Some(Word)
    else if key[|key| - 1] == 'r' && EndsWith(key, Suffix(Integer)) then Some(Integer)
    else if key[|key| - 1] == 'r' && EndsWith(key, Suffix(Number)) then Some(Number)
    else if key[|key| - 1] == 'n' && EndsWith(key, Suffix(Boolean)) then Some(Boolean)
    else None
  }

  lemma NotSuffix(p: string, a: string, b: string, i: nat)
    requires i < |a| && i < |b| && a[|a| - 1 - i] != b[|b| - 1 - i]
    ensures !EndsWith(p + a, b)
  {
    var s := p + a;
    if |b| <= |s| {
      assert s[|s| - |b|..][|b| - 1 - i] == s[|s| - 1 - i] == a[|a| - 1 - i];
    }
  }

  lemma SuffixEnds(p: string, a: string)
    ensures EndsWith(p + a, a)
  {
    assert (p + a)[|p + a| - |a|..] == a;
  }

  /** Distinct kinds never produce colliding keys: a key's suffix names its kind. */
  lemma KeyKindOfSuffix(path: string, k: Kind)
    ensures KeyKind(path + Suffix(k)) == Some(k)
  {
    var sfx := Suffix(k);
    var key := path + sfx;
    SuffixEnds(path, sfx);
    assert key[|key| - 1] == sfx[|sfx| - 1];
    match k
    case Date => NotSuffix(path, "_date", "_datetime", 1);
    case Number => NotSuffix(path, "_number", "_integer", 2);
    case _ =>
  }

  /** What the library call behind each kind is relied on to return. */
  ghost predicate FitsKind(k: Kind, v: Json) {
    match k
    case Email => v.JStr? && exists i :: 0 <= i < |v.s| && v.s[i] == '@'
    case Date => v.JStr? && Text.IsIsoDate(v.s)
    case DateTime => v.JStr? && |v.s| >= 19 && Text.IsIsoDate(v.s[..10]) && v.s[10] == 'T'
    case Uuid => v.JStr? && Text.IsUuidV4(v.s)
    case Uri => v.JStr?
    case Word => v.JStr?
    case Integer => v.JInt? && 1 <= v.i <= 1000
    case Number => v.JNum? && 1.0 <= v.r <= 1000.0
    case Boolean => v.JBool?
  }

  /** The library call for a kind (`faker.email`, an ISO date, `faker.date_time().isoformat()`, ...,
      `random.randint(1, 1000)`, `round(random.uniform(1, 1000), 2)`, `random.choice`). */
  method Draw(k: Kind) returns (v: Json)
    ensures FitsKind(k, v)
  {
    match k
    case Email => v := FakerEmail();
    case Date => v := FakerDate();
    case DateTime => v := FakerDateTime();
    case Uuid => v := Uuid4();
    case Uri => var u: string :| true; v := JStr(u);
    case Word => var w: string :| true; v := JStr(w);
    case Integer => var n :| 1 <= n <= 1000; v := JInt(n);
    case Number => var k :| 100 <= k <= 100000; v := JNum(k as real / 100.0);
    case Boolean => var n :| 0 <= n <= 1; v := JBool(n == 1);
  }

  /** `faker.email()` */
  method FakerEmail() returns (v: Json)
    ensures FitsKind(Email, v)
  {
    assert "a@b"[1] == '@';
    var e: string :| exists i :: 0 <= i < |e| && e[i] == '@';
    v := JStr(e);
  }

  /** An ISO calendar date, `YYYY-MM-DD`. */
  method FakerDate() returns (v: Json)
    ensures FitsKind(Date, v)
  {
    assert Text.IsIsoDate("2024-01-01");
    var d: string :| Text.IsIsoDate(d);
    v := JStr(d);
  }

  /** `faker.date_time().isoformat()`: `YYYY-MM-DDTHH:MM:SS`, possibly with microseconds. */
  method FakerDateTime() returns (v: Json)
    ensures FitsKind(DateTime, v)
  {
    assert "2024-01-01T00:00:00"[..10] == "2024-01-01";
    var t: string :| |t| >= 19 && Text.IsIsoDate(t[..10]) && t[10] == 'T';
    v := JStr(t);
  }

  /** `str(uuid.uuid4())` */
  method Uuid4() returns (v: Json)
    ensures FitsKind(Uuid, v)
  {
    assert Text.IsUuidV4("00000000-0000-4000-8000-000000000000");
    var u: string :| Text.IsUuidV4(u);
    v := JStr(u);
  }

  /** What `faker.date().isoformat()` raises: `faker.date()` returns a `str`. */
  const DateIsoformatError := "AttributeError: 'str' object has no attribute 'isoformat'"

  /** `_generate_primitive`'s dispatch: the format is tested before the type. */
  function PrimitiveKind(typ: Json, format: Json): (k: Option<Kind>)
    ensures format == JStr("email") ==> k == Some(Email)
    ensures format == JStr("date") ==> k == Some(Date)
    ensures format == JStr("date-time") ==> k == Some(DateTime)
    ensures format == JStr("uuid") ==> k == Some(Uuid)
    ensures format == JStr("uri") ==> k == Some(Uri)
    ensures format !in {JStr("email"), JStr("date"), JStr("date-time"), JStr("uuid"), JStr("uri")} ==>
              (typ == JStr("string") ==> k == Some(Word))
              && (typ == JStr("integer") ==> k == Some(Integer))
              && (typ == JStr("number") ==> k == Some(Number))
              && (typ == JStr("boolean") ==> k == Some(Boolean))
    ensures k.None? <==> format !in {JStr("email"), JStr("date"), JStr("date-time"), JStr("uuid"), JStr("uri")}
                         && typ !in {JStr("string"), JStr("integer"), JStr("number"), JStr("boolean")}
  {
    if format == JStr("email") then Some(Email)
    else if format == JStr("date") then Some(Date)
    else if format == JStr("date-time") then Some(DateTime)
    else if format == JStr("uuid") then Some(Uuid)
    else if format == JStr("uri") then Some(Uri)
    else if typ == JStr("string") then Some(Word)
    else if typ == JStr("integer") then Some(Integer)
    else if typ == JStr("number") then Some(Number)
    else if typ == JStr("boolean") then Some(Boolean)
    else None
  }

  /** `{"reference": "resolved_reference"}`, returned for any schema holding `$ref`. */
  const RefPlaceholder: Json := JObject([Member("reference", JStr("resolved_reference"))])

  /** `f"{path}.{prop_name}" if path else prop_name` */
  function ChildPath(path: string, name: string): (p: string)
    ensures path == "" ==> p == name
    ensures path != "" ==> |p| == |path| + 1 + |name| && p[..|path|] == path && p[|path|] == '.' && p[|path| + 1..] == name
  {
    if path == "" then name else path + "." + name
  }

  /** `f"{path}[{i}]"` */
  function ItemPath(path: string, i: nat): (p: string)
    ensures |p| >= |path| + 3 && p[..|path|] == path && p[|path|] == '[' && p[|p| - 1] == ']'
    ensures Text.AllDigits(p[|path| + 1..|p| - 1]) && Text.DigitsValue(p[|path| + 1..|p| - 1]) == i
  {
    var digits := Text.NatToString(i);
    var p := path + "[" + digits + "]";
    assert p[|path| + 1..|p| - 1] == digits;
    Text.NatToStringRoundTrip(i);
    p
  }

  function Max0(x: int): nat { if x < 0 then 0 else x }

  /** `d[k] = v` on a dict: replaces the value of the entry in place, or appends a new
      entry, so the keys keep their insertion order. */
  function SetKey(members: seq<Member>, k: string, v: Json): (r: seq<Member>)
    ensures Keys(r) == if HasKey(members, k) then Keys(members) else Keys(members) + [k]
    ensures forall m :: m in r ==> m == Member(k, v) || m in members
    ensures HasKey(r, k)
  {
    if HasKey(members, k) then
      var i := KeyIndex(members, k);
      var r := members[i := Member(k, v)];
      assert Keys(r) == Keys(members);
      assert Keys(r)[i] == k;
      r
    else
      var r := members + [Member(k, v)];
      assert r[..|r| - 1] == members;
      assert Keys(r) == Keys(members) + [k];
      assert Keys(r)[|r| - 1] == k;
      r
  }

  /** The position of the first entry holding `k`. */
  function KeyIndex(members: seq<Member>, k: string): (i: nat)
    requires HasKey(members, k)
    ensures i < |members| && members[i].key == k
    ensures forall j :: 0 <= j < i ==> members[j].key != k
  {
    var init := members[..|members| - 1];
    if HasKey(init, k) then KeyIndex(init, k) else |members| - 1
  }

  /** What a generated value is known to satisfy. */
  ghost predicate PyConforms(v: Json, schema: Json)
    decreases schema, 2
  {
    schema.JObject? &&
    if HasKey(schema.members, "$ref") then v == RefPlaceholder
    else
      var t := GetOr(schema.members, "type", JStr("object"));
      if t == JStr("object") then ObjectConforms(v, schema)
      else if t == JStr("array") then ArrayConforms(v, schema)
      else
        var k := PrimitiveKind(t, GetOr(schema.members, "format", JNull));
        if k.None? then v == JNull else FitsKind(k.value, v)
  }

  /** Keys are declared properties, every required declared property is present, and each
      value conforms to a declaration of its key. */
  ghost predicate ObjectConforms(v: Json, schema: Json)
    requires schema.JObject?
    decreases schema, 1
  {
    var props := GetOr(schema.members, "properties", JObject([]));
    var required := GetOr(schema.members, "required", JArray([]));
    props.JObject? && v.JObject?
    && DeclaredKeys(v.members, props.members)
    && RequiredPresent(v.members, props.members, required)
    && (HasKey(schema.members, "properties") ==>
          (LookupSmaller(schema.members, "properties");
           FitsDeclarations(v.members, props.members, schema)))
  }

  /** Every property of `ps` that `required` names is a key of `result`. */
  ghost predicate RequiredPresent(result: seq<Member>, ps: seq<Member>, required: Json) {
    forall m :: m in ps && Contains(required, m.key) == Ok(true) ==> HasKey(result, m.key)
  }

  lemma RequiredPresentStep(result: seq<Member>, next: seq<Member>, ps: seq<Member>, i: nat, required: Json)
    requires i < |ps| && RequiredPresent(result, ps[..i], required)
    requires forall k :: HasKey(result, k) ==> HasKey(next, k)
    requires Contains(required, ps[i].key) == Ok(true) ==> HasKey(next, ps[i].key)
    ensures RequiredPresent(next, ps[..i + 1], required)
  {
    forall m | m in ps[..i + 1] && Contains(required, m.key) == Ok(true)
      ensures HasKey(next, m.key)
    {
      var j :| 0 <= j <= i && ps[j] == m;
      if j < i {
        assert m in ps[..i];
      }
    }
  }

  ghost predicate DeclaredKeys(result: seq<Member>, ps: seq<Member>) {
    forall k :: HasKey(result, k) ==> HasKey(ps, k)
  }

  /** Each entry of `result` conforms to some declaration of its key in `ps`. */
  ghost predicate FitsDeclarations(result: seq<Member>, ps: seq<Member>, schema: Json)
    requires JObject(ps) < schema
    decreases schema, 0
  {
    forall m :: m in result ==> exists d :: d in ps && d.key == m.key && PyConforms(m.value, d.value)
  }

  /** The length lies between `minItems` and `maxItems` (1 and 5 when absent), a negative
      draw giving no items, and every item conforms to `items` (`{}` when absent). */
  ghost predicate ArrayConforms(v: Json, schema: Json)
    requires schema.JObject?
    decreases schema, 1
  {
    var lo := GetOr(schema.members, "minItems", JInt(1));
    var hi := GetOr(schema.members, "maxItems", JInt(5));
    lo.JInt? && hi.JInt? && lo.i <= hi.i && v.JArray?
    && Max0(lo.i) <= |v.items| <= Max0(hi.i)
    && if HasKey(schema.members, "items") then
         (LookupSmaller(schema.members, "items");
          forall x :: x in v.items ==> PyConforms(x, Lookup(schema.members, "items").value))
       else forall x :: x in v.items ==> x == JObject([])
  }

  /** A container `in` can test: a dict, a list or a string. */
  predicate Container(x: Json) {
    x.JObject? || x.JArray? || x.JStr?
  }

  /** The schemas for which `generate_data` raises nothing: dicts all the way down, whose
      `properties` is a dict, whose `required` supports `in` when there are properties to
      test, and whose item bounds are integers in order. */
  ghost predicate PySupported(schema: Json)
    decreases schema, 2
  {
    schema.JObject? &&
    (HasKey(schema.members, "$ref") ||
     var t := GetOr(schema.members, "type", JStr("object"));
     (t == JStr("object") ==> ObjectSupported(schema)) &&
     (t == JStr("array") ==> ArraySupported(schema)))
  }

  ghost predicate ObjectSupported(schema: Json)
    requires schema.JObject?
    decreases schema, 1
  {
    var props := GetOr(schema.members, "properties", JObject([]));
    props.JObject?
    && (props.members != [] ==> Container(GetOr(schema.members, "required", JArray([]))))
    && (HasKey(schema.members, "properties") ==>
          (LookupSmaller(schema.members, "properties");
           forall d :: d in props.members ==> PySupported(d.value)))
  }

  ghost predicate ArraySupported(schema: Json)
    requires schema.JObject?
    decreases schema, 1
  {
    var lo := GetOr(schema.members, "minItems", JInt(1));
    var hi := GetOr(schema.members, "maxItems", JInt(5));
    lo.JInt? && hi.JInt? && lo.i <= hi.i
    && (HasKey(schema.members, "items") ==>
          (LookupSmaller(schema.members, "items");
           PySupported(Lookup(schema.members, "items").value)))
  }

  /** Entries already cached keep their values. */
  ghost predicate Extends(before: map<string, Json>, after: map<string, Json>) {
    before.Keys <= after.Keys && forall k :: k in before ==> after[k] == before[k]
  }

  class PyDataGenerator {
    var cache: map<string, Json>
    /** How many times a value generator was invoked. */
    ghost var calls: nat

    /** Every cached value fits the kind its key names. */
    ghost predicate Valid()
      reads this
    {
      forall k :: k in cache ==> KeyKind(k).Some? && FitsKind(KeyKind(k).value, cache[k])
    }

    constructor ()
      ensures cache == map[] && calls == 0 && Valid()
    {
      cache := map[];
      calls := 0;
    }

    /** `_get_cached_value(key, generator_func)`; `generated` is what the generator
        would return if it were called. */
    method GetCachedValue(key: string, generated: Json) returns (v: Json)
      modifies this
      ensures key in old(cache) ==> v == old(cache)[key] && cache == old(cache) && calls == old(calls)
      ensures key !in old(cache) ==>
                v == generated && cache == old(cache)[key := generated] && calls == old(calls) + 1
    {
      if key !in cache {
        cache := cache[key := generated];
        calls := calls + 1;
      }
      v := cache[key];
    }

    /** `_generate_primitive(type_, format_, path)` */
    method GeneratePrimitive(typ: Json, format: Json, path: string) returns (v: Json)
      requires Valid()
      modifies this
      ensures Valid() && Extends(old(cache), cache)
      ensures PrimitiveKind(typ, format).None? ==> v == JNull && cache == old(cache) && calls == old(calls)
      ensures PrimitiveKind(typ, format).Some? ==> FitsKind(PrimitiveKind(typ, format).value, v)
      ensures PrimitiveKind(typ, format).Some? ==>
                path + Suffix(PrimitiveKind(typ, format).value) in cache
                && cache[path + Suffix(PrimitiveKind(typ, format).value)] == v
      ensures PrimitiveKind(typ, format).Some? && path + Suffix(PrimitiveKind(typ, format).value) in old(cache)
              ==> v == old(cache)[path + Suffix(PrimitiveKind(typ, format).value)] && cache == old(cache)
                  && calls == old(calls)
      ensures PrimitiveKind(typ, format).Some? && path + Suffix(PrimitiveKind(typ, format).value) !in old(cache)
              ==> cache == old(cache)[path + Suffix(PrimitiveKind(typ, format).value) := v] && calls == old(calls) + 1
    {
      var kind := PrimitiveKind(typ, format);
      if kind.None? {
        return JNull;
      }
      var key := path + Suffix(kind.value);
      KeyKindOfSuffix(path, kind.value);
      var generated := Draw(kind.value);
      v := GetCachedValue(key, generated);
    }

    /** `_generate_primitive` as written: the `date` generator calls `isoformat()` on
        what `faker.date()` returns, which is already a string, so a `date` field that is
        not cached raises and stores nothing. Every other kind behaves as in
        `GeneratePrimitive`. */
    method GeneratePrimitiveAsWritten(typ: Json, format: Json, path: string) returns (r: Result<Json>)
      requires Valid()
      modifies this
      ensures Valid() && Extends(old(cache), cache)
      ensures PrimitiveKind(typ, format) == Some(Date) && path + Suffix(Date) !in old(cache)
              ==> r == Err(DateIsoformatError) && cache == old(cache)
      ensures PrimitiveKind(typ, format) != Some(Date) ==> r.Ok?
    {
      var kind := PrimitiveKind(typ, format);
      if kind == Some(Date) && path + Suffix(Date) !in cache {
        return Err(DateIsoformatError);
      }
      var v := GeneratePrimitive(typ, format, path);
      r := Ok(v);
    }

    /** Memoisation: asking twice for the same primitive at the same path gives the
        same value. */
    method RepeatedPrimitiveAgrees(typ: Json, format: Json, path: string) returns (first: Json, second: Json)
      requires Valid()
      modifies this
      ensures Valid()
      ensures first == second
    {
      first := GeneratePrimitive(typ, format, path);
      second := GeneratePrimitive(typ, format, path);
    }

    /** `generate_data(schema, path)` */
    method GenerateData(schema: Json, path: string) returns (r: Result<Json>)
      requires Valid()
      modifies this
      ensures Valid() && Extends(old(cache), cache)
      ensures r.Ok? ==> PyConforms(r.value, schema)
      ensures !schema.JObject? ==> r == Err("AttributeError") && cache == old(cache)
      ensures schema.JObject? && HasKey(schema.members, "$ref") ==> r == Ok(RefPlaceholder) && cache == old(cache)
      ensures PySupported(schema) ==> r.Ok?
      decreases schema, 2
    {
      if !schema.JObject? {
        return Err("AttributeError");
      }
      var schemaType := GetOr(schema.members, "type", JStr("object"));
      var format := GetOr(schema.members, "format", JNull);
      if HasKey(schema.members, "$ref") {
        return Ok(RefPlaceholder);
      }
      if schemaType == JStr("object") {
        r := GenerateObject(schema, path);
      } else if schemaType == JStr("array") {
        r := GenerateArray(schema, path);
      } else {
        var v := GeneratePrimitive(schemaType, format, path);
        r := Ok(v);
      }
    }

    /** `_generate_object(schema, path)`: each declared property in order, an optional
        one being skipped when `random.random() > 0.7`. */
    method GenerateObject(schema: Json, path: string) returns (r: Result<Json>)
      requires Valid() && schema.JObject?
      modifies this
      ensures Valid() && Extends(old(cache), cache)
      ensures r.Ok? ==> ObjectConforms(r.value, schema)
      ensures !GetOr(schema.members, "properties", JObject([])).JObject? ==> r == Err("AttributeError")
      ensures ObjectSupported(schema) ==> r.Ok?
      decreases schema, 1
    {
      var props := GetOr(schema.members, "properties", JObject([]));
      var required := GetOr(schema.members, "required", JArray([]));
      if !props.JObject? {
        return Err("AttributeError");
      }
      if !HasKey(schema.members, "properties") {
        // `{}.items()` is empty: the result is `{}`
        return Ok(JObject([]));
      }
      LookupSmaller(schema.members, "properties");
      var ps := props.members;
      var result: seq<Member> := [];
      var i := 0;
      while i < |ps|
        invariant 0 <= i <= |ps|
        invariant Valid() && Extends(old(cache), cache)
        invariant DeclaredKeys(result, ps) && FitsDeclarations(result, ps, schema)
        invariant RequiredPresent(result, ps[..i], required)
      {
        assert ps[i] in ps;
        var next := GenerateProperty(schema, ps, i, required, path, result);
        if next.Err? {
          return Err(next.error);
        }
        RequiredPresentStep(result, next.value, ps, i, required);
        result := next.value;
        i := i + 1;
      }
      assert ps[..i] == ps;
      return Ok(JObject(result));
    }

    /** One turn of `_generate_object`'s loop, for the property `ps[i]`. */
    method GenerateProperty(schema: Json, ps: seq<Member>, i: nat, required: Json, path: string,
                            result: seq<Member>) returns (r: Result<seq<Member>>)
      requires Valid() && JObject(ps) < schema && i < |ps|
      requires DeclaredKeys(result, ps) && FitsDeclarations(result, ps, schema)
      modifies this
      ensures Valid() && Extends(old(cache), cache)
      ensures r.Ok? ==> DeclaredKeys(r.value, ps) && FitsDeclarations(r.value, ps, schema)
      ensures r.Ok? ==> forall k :: HasKey(result, k) ==> HasKey(r.value, k)
      ensures r.Ok? && Contains(required, ps[i].key) == Ok(true) ==> HasKey(r.value, ps[i].key)
      ensures Contains(required, ps[i].key).Err? ==> r.Err? && cache == old(cache)
      ensures Container(required) && PySupported(ps[i].value) ==> r.Ok?
      decreases schema, 0
    {
      var name, propSchema := ps[i].key, ps[i].value;
      assert ps[i] in ps;
      var propPath := ChildPath(path, name);
      var isRequired := Contains(required, name);
      if isRequired.Err? {
        return Err(isRequired.error);
      }
      var draw: real :| 0.0 <= draw < 1.0;
      if !isRequired.value && draw > 0.7 {
        return Ok(result);
      }
      var v := GenerateData(propSchema, propPath);
      if v.Err? {
        return Err(v.error);
      }
      SetKeyFits(result, ps, schema, ps[i], v.value);
      return Ok(SetKey(result, name, v.value));
    }

    /** `_generate_array(schema, path)`: `random.randint(min_items, max_items)` items, the
        i-th generated at path `path[i]`. An absent `items` is `{}`, for which
        `generate_data` returns `{}` without touching the cache. */
    method GenerateArray(schema: Json, path: string) returns (r: Result<Json>)
      requires Valid() && schema.JObject?
      modifies this
      ensures Valid() && Extends(old(cache), cache)
      ensures r.Ok? ==> ArrayConforms(r.value, schema)
      ensures GetOr(schema.members, "minItems", JInt(1)).JInt? && GetOr(schema.members, "maxItems", JInt(5)).JInt?
              && GetOr(schema.members, "maxItems", JInt(5)).i < GetOr(schema.members, "minItems", JInt(1)).i
              ==> r == Err("ValueError: empty range for randrange()")
      ensures ArraySupported(schema) ==> r.Ok?
      decreases schema, 1
    {
      var minItems := GetOr(schema.members, "minItems", JInt(1));
      var maxItems := GetOr(schema.members, "maxItems", JInt(5));
      if !(minItems.JInt? && maxItems.JInt?) {
        return Err("TypeError");
      }
      if maxItems.i < minItems.i {
        return Err("ValueError: empty range for randrange()");
      }
      var length :| minItems.i <= length <= maxItems.i;
      var hasItems := HasKey(schema.members, "items");
      var itemsSchema := GetOr(schema.members, "items", JObject([]));
      if hasItems {
        LookupSmaller(schema.members, "items");
      }
      var items: seq<Json> := [];
      var i := 0;
      while i < length
        invariant 0 <= i == |items| && (length >= 0 ==> i <= length) && (length < 0 ==> i == 0)
        invariant Valid() && Extends(old(cache), cache)
        invariant hasItems ==> forall x :: x in items ==> PyConforms(x, itemsSchema)
        invariant !hasItems ==> forall x :: x in items ==> x == JObject([])
      {
        var item: Json;
        if hasItems {
          var v := GenerateData(itemsSchema, ItemPath(path, i));
          if v.Err? {
            return Err(v.error);
          }
          item := v.value;
        } else {
          item := JObject([]);
        }
        items := items + [item];
        i := i + 1;
      }
      assert |items| == Max0(length);
      return Ok(JArray(items));
    }
  }

  /** Setting a key to a value that conforms to one of its declarations keeps the
      entries declared and conforming. */
  lemma SetKeyFits(result: seq<Member>, ps: seq<Member>, schema: Json, d: Member, v: Json)
    requires JObject(ps) < schema && d in ps
    requires DeclaredKeys(result, ps) && FitsDeclarations(result, ps, schema)
    requires PyConforms(v, d.value)
    ensures DeclaredKeys(SetKey(result, d.key, v), ps)
    ensures FitsDeclarations(SetKey(result, d.key, v), ps, schema)
  {
    var r := SetKey(result, d.key, v);
    assert HasKey(ps, d.key) by {
      var i :| 0 <= i < |ps| && ps[i] == d;
      assert Keys(ps)[i] == d.key;
    }
    SetKeyMembers(result, d.key, v);
  }

  lemma SetKeyMembers(members: seq<Member>, k: string, v: Json)
    ensures forall m :: m in SetKey(members, k, v) ==> m == Member(k, v) || m in members
  {
    if members != [] && members[0].key != k {
      SetKeyMembers(members[1..], k, v);
    }
  }

  /** `generate_data({})` is `{}`: the default for a missing `items`. */
  lemma EmptySchemaGivesEmptyObject()
    ensures PyConforms(JObject([]), JObject([]))
    ensures forall v :: PyConforms(v, JObject([])) ==> v == JObject([])
  {
    assert !HasKey([], "$ref");
    assert forall v :: PyConforms(v, JObject([])) ==> ObjectConforms(v, JObject([]));
    forall v | PyConforms(v, JObject([])) ensures v == JObject([]) {
      assert ObjectConforms(v, JObject([]));
      assert forall i :: 0 <= i < |v.members| ==> HasKey(v.members, v.members[i].key);
    }
  }
}
