/** The TypeScript data synthesizer: `BaseDataGenerator` and its options,
    `DataGeneratorFactory.createGenerator`, and the string, number, array and object
    generators. A `Math.random()` draw is a nondeterministic choice of a real in [0, 1);
    a `faker` or `uuid` call is a nondeterministic choice of a string with the shape the
    code relies on. The schema is a finite tree, so the factory / array / object recursion
    terminates structurally; there is no depth guard. */
module Generators {
  import opened Wrappers
  import opened JsonSchema
  import opened Text
  import Stats

  // ------------------------------------------------------------------
  // DataGeneratorOptions and BaseDataGenerator

  /** `DataGeneratorOptions`: the schema with an optional `required` flag and `context` record. */
  datatype GeneratorOptions = GeneratorOptions(
    schema: Schema, required: Option<bool>, context: Option<map<string, Value>>)

  /** The fields a `BaseDataGenerator` holds once constructed; they are never updated. */
  datatype BaseGenerator = BaseGenerator(schema: Schema, required: bool, context: map<string, Value>)

  /** The `BaseDataGenerator` constructor: the schema is kept as given, `required`
      defaults to false and `context` to the empty record (`??` defaults). */
  function NewBaseGenerator(options: GeneratorOptions): (g: BaseGenerator)
    ensures g.schema == options.schema
    ensures g.required <==> options.required == Some(true)
    ensures options.context.None? ==> g.context == map[]
    ensures options.context.Some? ==> g.context == options.context.value
  {
    BaseGenerator(options.schema, options.required.GetOr(false), options.context.GetOr(map[]))
  }

  // ------------------------------------------------------------------
  // DataGeneratorFactory

  datatype GeneratorKind = StringGenerator | NumberGenerator | ArrayGenerator | ObjectGenerator

  /** A generator the factory built: which class, over which constructed base. */
  datatype DataGenerator = DataGenerator(kind: GeneratorKind, base: BaseGenerator)

  /** The schema types the factory accepts. */
  predicate KnownType(t: Option<string>) {
    t == Some("string") || t == Some("number") || t == Some("integer")
    || t == Some("array") || t == Some("object")
  }

  /** What a template literal prints for `schema.type`. */
  function TypeText(t: Option<string>): string {
    if t.Some? then t.value else "undefined"
  }

  /** `DataGeneratorFactory.createGenerator`: a switch on `schema.type`; every other type
      (including `boolean` and a missing type) is an error. */
  function CreateGenerator(options: GeneratorOptions): (r: Result<DataGenerator>)
    ensures r.Ok? ==> r.value.base == NewBaseGenerator(options)
    ensures (r.Ok? && r.value.kind == StringGenerator) <==> options.schema.typ == Some("string")
    ensures (r.Ok? && r.value.kind == NumberGenerator)
            <==> (options.schema.typ == Some("number") || options.schema.typ == Some("integer"))
    ensures (r.Ok? && r.value.kind == ArrayGenerator) <==> options.schema.typ == Some("array")
    ensures (r.Ok? && r.value.kind == ObjectGenerator) <==> options.schema.typ == Some("object")
    ensures r.Err? <==> !KnownType(options.schema.typ)
    ensures r.Err? ==> r.error == "Unsupported schema type: " + TypeText(options.schema.typ)
  {
    var t := options.schema.typ;
    if t == Some("string") then Ok(DataGenerator(StringGenerator, NewBaseGenerator(options)))
    else if t == Some("number") || t == Some("integer") then
      Ok(DataGenerator(NumberGenerator, NewBaseGenerator(options)))
    else if t == Some("array") then Ok(DataGenerator(ArrayGenerator, NewBaseGenerator(options)))
    else if t == Some("object") then Ok(DataGenerator(ObjectGenerator, NewBaseGenerator(options)))
    else Err("Unsupported schema type: " + TypeText(t))
  }

  // ------------------------------------------------------------------
  // StringGenerator

  /** Which library call produced a string. */
  datatype StringSource =
    | Alphanumeric | Email | Date | DateTime | Uuid | Uri | Hostname | Ipv4 | Ipv6 | EnumPick | Lorem

  /** A string that JavaScript treats as true: present and non-empty. */
  predicate Truthy(s: Option<string>) { s.Some? && s.value != "" }

  /** The `case` of the `switch (format)` a format selects, if any. */
  function FormatSource(f: Option<string>): Option<StringSource> {
    if f == Some("email") then Some(Email)
    else if f == Some("date") then Some(Date)
    else if f == Some("date-time") then Some(DateTime)
    else if f == Some("uuid") then Some(Uuid)
    else if f == Some("uri") then Some(Uri)
    else if f == Some("hostname") then Some(Hostname)
    else if f == Some("ipv4") then Some(Ipv4)
    else if f == Some("ipv6") then Some(Ipv6)
    else None
  }

  /** The precedence of `StringGenerator.generate`: a pattern wins, then a known format,
      then an enum, and a lorem sentence otherwise. */
  function StringSourceFor(s: Schema): (src: StringSource)
    ensures Truthy(s.pattern) ==> src == Alphanumeric
    ensures !Truthy(s.pattern) && FormatSource(s.format).Some? ==> src == FormatSource(s.format).value
    ensures src == EnumPick <==> !Truthy(s.pattern) && FormatSource(s.format).None? && s.enumValues.Some?
    ensures src == Lorem <==> !Truthy(s.pattern) && FormatSource(s.format).None? && s.enumValues.None?
  {
    if Truthy(s.pattern) then Alphanumeric
    else if FormatSource(s.format).Some? then FormatSource(s.format).value
    else if s.enumValues.Some? then EnumPick
    else Lorem
  }

  /** What the generated string is known to look like, given its source. */
  ghost predicate FitsSource(src: StringSource, schema: Schema, s: string) {
    match src
    case Alphanumeric => |s| == 10 && forall i :: 0 <= i < |s| ==> IsAlphanumeric(s[i])
    case Email => exists i :: 0 <= i < |s| && s[i] == '@'
    case Date => IsIsoDate(s) && forall i :: 0 <= i < |s| ==> s[i] != 'T'
    case DateTime => IsIsoTimestamp(s)
    case Uuid => IsUuidV4(s)
    case EnumPick => schema.enumValues.Some? && s in schema.enumValues.value
    case _ => true
  }

  /** `toISOString().split('T')[0]` is the calendar-date part, which holds no `T`. */
  lemma IsoDatePart(iso: string)
    requires IsIsoTimestamp(iso)
    ensures BeforeFirst(iso, 'T') == iso[..10]
    ensures IsIsoDate(BeforeFirst(iso, 'T'))
    ensures forall i :: 0 <= i < |BeforeFirst(iso, 'T')| ==> BeforeFirst(iso, 'T')[i] != 'T'
  {
    var r := BeforeFirst(iso, 'T');
    var d := iso[..10];
    assert forall k :: 0 <= k < 10 ==> iso[k] == d[k] && d[k] != 'T';
    assert forall k :: 0 <= k < |r| ==> r[k] == iso[k];
    assert |r| == 10;
  }

  // The library calls, each as a nondeterministic choice with the shape relied on.

  /** `faker.string.alphanumeric(10)` */
  method FakerAlphanumeric() returns (s: string)
    ensures |s| == 10 && forall i :: 0 <= i < |s| ==> IsAlphanumeric(s[i])
  {
    assert |"a0a0a0a0a0"| == 10 && forall i :: 0 <= i < 10 ==> IsAlphanumeric("a0a0a0a0a0"[i]);
    s :| |s| == 10 && forall i :: 0 <= i < |s| ==> IsAlphanumeric(s[i]);
  }

  /** `faker.internet.email()` */
  method FakerEmail() returns (s: string)
    ensures exists i :: 0 <= i < |s| && s[i] == '@'
  {
    assert "a@b"[1] == '@';
    s :| exists i :: 0 <= i < |s| && s[i] == '@';
  }

  /** `faker.date.recent().toISOString()` */
  method FakerRecentIso() returns (s: string)
    ensures IsIsoTimestamp(s)
  {
    var sample := "2024-01-01T00:00:00.000Z";
    assert IsIsoDate(sample[..10]);
    assert IsIsoTimestamp(sample);
    s :| IsIsoTimestamp(s);
  }

  /** `uuidv4()` */
  method UuidV4() returns (s: string)
    ensures IsUuidV4(s)
  {
    var sample := "00000000-0000-4000-8000-000000000000";
    assert IsUuidV4(sample);
    s :| IsUuidV4(s);
  }

  /** `StringGenerator.generate`. */
  method GenerateString(g: BaseGenerator) returns (r: Result<Value>, source: StringSource)
    ensures source == StringSourceFor(g.schema)
    ensures r.Ok? ==> r.value.VStr? && FitsSource(source, g.schema, r.value.s)
    ensures r.Err? <==> source == EnumPick && g.schema.enumValues.value == []
  {
    var format := g.schema.format;
    if Truthy(g.schema.pattern) {
      var s := FakerAlphanumeric();
      return Ok(VStr(s)), Alphanumeric;
    }
    if format == Some("email") {
      var s := FakerEmail();
      r, source := Ok(VStr(s)), Email;
    } else if format == Some("date") || format == Some("date-time") {
      var iso := FakerRecentIso();
      if format == Some("date") {
        IsoDatePart(iso);
        r, source := Ok(VStr(BeforeFirst(iso, 'T'))), Date;
      } else {
        r, source := Ok(VStr(iso)), DateTime;
      }
    } else if format == Some("uuid") {
      var s := UuidV4();
      r, source := Ok(VStr(s)), Uuid;
    } else if FormatSource(format).Some? {
      // faker.internet.url / domainName / ip / ipv6: nothing is relied on about the text
      var s: string :| true;
      r, source := Ok(VStr(s)), FormatSource(format).value;
    } else if g.schema.enumValues.Some? {
      // faker.helpers.arrayElement(enum), which refuses an empty list
      var options := g.schema.enumValues.value;
      if options == [] {
        return Err("Cannot get value from empty dataset."), EnumPick;
      }
      var k :| 0 <= k < |options|;
      r, source := Ok(VStr(options[k])), EnumPick;
    } else {
      // faker.lorem.sentence()
      var s: string :| true;
      r, source := Ok(VStr(s)), Lorem;
    }
  }

  // ------------------------------------------------------------------
  // NumberGenerator

  /** The lower bound: `minimum` as given (no clamping), -1000 without it, plus 1 when
      `exclusiveMinimum` is truthy. */
  function LowerBound(s: Schema): (lo: real)
    ensures s.minimum.None? && !s.exclusiveMinimum ==> lo == -1000.0
    ensures s.minimum.Some? && !s.exclusiveMinimum ==> lo == s.minimum.value
    ensures s.exclusiveMinimum ==> lo == (if s.minimum.Some? then s.minimum.value else -1000.0) + 1.0
  {
    (if s.minimum.Some? then s.minimum.value else -1000.0) + (if s.exclusiveMinimum then 1.0 else 0.0)
  }

  /** The upper bound: `maximum` as given, 1000 without it, minus 1 when `exclusiveMaximum` is truthy. */
  function UpperBound(s: Schema): (hi: real)
    ensures s.maximum.None? && !s.exclusiveMaximum ==> hi == 1000.0
    ensures s.maximum.Some? && !s.exclusiveMaximum ==> hi == s.maximum.value
    ensures s.exclusiveMaximum ==> hi == (if s.maximum.Some? then s.maximum.value else 1000.0) - 1.0
  {
    (if s.maximum.Some? then s.maximum.value else 1000.0) - (if s.exclusiveMaximum then 1.0 else 0.0)
  }

  function Ceil(x: real): (c: int)
    ensures x <= c as real < x + 1.0
  {
    -((-x).Floor)
  }

  /** A multiple of 0.01, the `precision` the float branch asks for. */
  predicate IsHundredth(x: real) { ((x * 100.0).Floor) as real == x * 100.0 }

  /** faker can produce a value: an integer in [lo, hi], or for floats either lo == hi
      or a multiple of 0.01 in [lo, hi]. */
  ghost predicate NumberAdmissible(s: Schema) {
    var lo, hi := LowerBound(s), UpperBound(s);
    if s.typ == Some("integer") then Ceil(lo) <= hi.Floor
    else lo == hi || (lo < hi && Ceil(lo * 100.0) <= (hi * 100.0).Floor)
  }

  ghost predicate NumberConforms(v: Value, s: Schema) {
    var lo, hi := LowerBound(s), UpperBound(s);
    if s.typ == Some("integer") then v.VInt? && lo <= v.i as real <= hi
    else v.VNum? && lo <= v.r <= hi && (lo == hi || IsHundredth(v.r))
  }

  /** `faker.number.int({min, max})`: an integer in [ceil(min), floor(max)]; faker
      throws when that range is empty. */
  method FakerInt(min: real, max: real) returns (r: Result<int>)
    ensures r.Ok? <==> Ceil(min) <= max.Floor
    ensures r.Ok? ==> min <= r.value as real <= max
  {
    var lo, hi := Ceil(min), max.Floor;
    if hi < lo {
      return Err("FakerError: no integer value between min and max");
    }
    var v :| lo <= v <= hi;
    return Ok(v);
  }

  /** `faker.number.float({min, max, precision: 0.01})`: `min` itself when the bounds meet,
      an error when `max < min`, and otherwise a multiple of 0.01 in [min, max]. */
  method FakerFloat(min: real, max: real) returns (r: Result<real>)
    ensures r.Ok? <==> min == max || (min < max && Ceil(min * 100.0) <= (max * 100.0).Floor)
    ensures r.Ok? ==> min <= r.value <= max && (min == max || IsHundredth(r.value))
  {
    if max == min {
      return Ok(min);
    }
    if max < min {
      return Err("FakerError: max should be greater than min");
    }
    var lo, hi := Ceil(min * 100.0), (max * 100.0).Floor;
    if hi < lo {
      return Err("FakerError: no suitable number between min and max");
    }
    var k :| lo <= k <= hi;
    var x := k as real / 100.0;
    assert x * 100.0 == k as real;
    assert min * 100.0 <= x * 100.0 <= max * 100.0;
    return Ok(x);
  }

  /** `NumberGenerator.generate`: the bounds are computed step by step, then
      `faker.number.int` or `faker.number.float` draws from them. */
  method GenerateNumber(g: BaseGenerator) returns (r: Result<Value>)
    ensures r.Ok? <==> NumberAdmissible(g.schema)
    ensures r.Ok? ==> NumberConforms(r.value, g.schema)
  {
    var min := if g.schema.minimum.Some? then g.schema.minimum.value else -1000.0;
    var max := if g.schema.maximum.Some? then g.schema.maximum.value else 1000.0;
    if g.schema.exclusiveMinimum { min := min + 1.0; }
    if g.schema.exclusiveMaximum { max := max - 1.0; }
    assert min == LowerBound(g.schema) && max == UpperBound(g.schema);
    if g.schema.typ == Some("integer") {
      var v := FakerInt(min, max);
      r := if v.Ok? then Ok(VInt(v.value)) else Err(v.error);
    } else {
      var x := FakerFloat(min, max);
      r := if x.Ok? then Ok(VNum(x.value)) else Err(x.error);
    }
  }

  // ------------------------------------------------------------------
  // ArrayGenerator and ObjectGenerator

  /** `schema.minItems || 1`: a missing or zero `minItems` reads as 1. */
  function MinItemsOf(s: Schema): int {
    if s.minItems.Some? && s.minItems.value != 0 then s.minItems.value else 1
  }

  /** `schema.maxItems || 5`: a missing or zero `maxItems` reads as 5. */
  function MaxItemsOf(s: Schema): int {
    if s.maxItems.Some? && s.maxItems.value != 0 then s.maxItems.value else 5
  }

  function Max0(x: int): nat { if x < 0 then 0 else x }

  /** The lengths the array loop can produce from `RandomInRange(lo, hi, r)` items:
      [lo, hi] when lo <= hi, [hi + 1, lo] otherwise, with negative counts giving no items. */
  ghost predicate ItemCountOk(n: nat, lo: int, hi: int) {
    Max0(if lo <= hi then lo else hi + 1) <= n <= Max0(if lo <= hi then hi else lo)
  }

  /** The options an array item's generator gets: the items schema and the parent's context. */
  function ItemOptions(g: BaseGenerator, item: Schema): GeneratorOptions {
    GeneratorOptions(item, None, Some(g.context))
  }

  /** The options a property's generator gets: its schema, whether its name is listed in
      `required`, and the parent's context. */
  function PropertyOptions(g: BaseGenerator, name: string, prop: Schema): GeneratorOptions {
    var required := if g.schema.required.Some? then g.schema.required.value else [];
    GeneratorOptions(prop, Some(name in required), Some(g.context))
  }

  /** What a generated value is known to satisfy, by schema type. */
  ghost predicate Conforms(v: Value, s: Schema)
    decreases s, 2
  {
    if s.typ == Some("string") then v.VStr? && FitsSource(StringSourceFor(s), s, v.s)
    else if s.typ == Some("number") || s.typ == Some("integer") then NumberConforms(v, s)
    else if s.typ == Some("array") then ArrayConforms(v, s)
    else if s.typ == Some("object") then ObjectConforms(v, s)
    else false
  }

  ghost predicate ArrayConforms(v: Value, s: Schema)
    decreases s, 1
  {
    s.items.Some? && s.items.value.Node? && v.VArray?
    && ItemCountOk(|v.elems|, MinItemsOf(s), MaxItemsOf(s))
    && forall i :: 0 <= i < |v.elems| ==> Conforms(v.elems[i], s.items.value.schema)
  }

  /** Exactly one key per declared non-boolean property, whatever `required` says;
      each value conforms to a declaration of that name. */
  ghost predicate ObjectConforms(v: Value, s: Schema)
    decreases s, 1
  {
    v.VObject? && v.fields.Keys == SchemaPropertyNames(s.properties)
    && forall k :: k in v.fields ==> PropertyValueConforms(v.fields[k], k, s)
  }

  ghost predicate PropertyValueConforms(v: Value, k: string, s: Schema)
    decreases s, 0
  {
    exists p :: p in s.properties && p.name == k && p.entry.Node? && Conforms(v, p.entry.schema)
  }

  /** Schemas for which generation cannot fail, whatever the random draws. */
  ghost predicate Supported(s: Schema)
    decreases s, 1
  {
    if s.typ == Some("string") then (StringSourceFor(s) == EnumPick ==> s.enumValues.value != [])
    else if s.typ == Some("number") || s.typ == Some("integer") then NumberAdmissible(s)
    else if s.typ == Some("array") then ArraySupported(s)
    else if s.typ == Some("object") then ObjectSupported(s)
    else false
  }

  ghost predicate ArraySupported(s: Schema)
    decreases s, 0
  {
    s.items.Some? && s.items.value.Node? && Supported(s.items.value.schema)
  }

  ghost predicate ObjectSupported(s: Schema)
    decreases s, 0
  {
    forall p :: p in s.properties && p.entry.Node? ==> Supported(p.entry.schema)
  }

  /** `DataGeneratorFactory.createGenerator(options).generate()`, the call every
      generator and the request generator make. */
  method Synthesize(options: GeneratorOptions) returns (r: Result<Value>)
    ensures r.Ok? ==> Conforms(r.value, options.schema)
    ensures Supported(options.schema) ==> r.Ok?
    ensures !KnownType(options.schema.typ)
            ==> r == Err("Unsupported schema type: " + TypeText(options.schema.typ))
    decreases options.schema, 1
  {
    var created := CreateGenerator(options);
    if created.Err? {
      return Err(created.error);
    }
    var g := created.value;
    match g.kind {
      case StringGenerator =>
        var source;
        r, source := GenerateString(g.base);
      case NumberGenerator =>
        r := GenerateNumber(g.base);
      case ArrayGenerator =>
        r := GenerateArray(g.base);
      case ObjectGenerator =>
        r := GenerateObject(g.base);
    }
  }

  /** `ArrayGenerator.generate`. */
  method GenerateArray(g: BaseGenerator) returns (r: Result<Value>)
    ensures r.Ok? ==> ArrayConforms(r.value, g.schema)
    ensures !(g.schema.items.Some? && g.schema.items.value.Node?)
            ==> r == Err("Invalid array items schema")
    ensures ArraySupported(g.schema) ==> r.Ok?
    decreases g.schema, 0
  {
    var minItems := MinItemsOf(g.schema);
    var maxItems := MaxItemsOf(g.schema);
    var draw: real :| 0.0 <= draw < 1.0;
    var itemCount := Stats.RandomInRange(minItems, maxItems, draw);
    if !(g.schema.items.Some? && g.schema.items.value.Node?) {
      return Err("Invalid array items schema");
    }
    var itemSchema := g.schema.items.value.schema;
    var items: seq<Value> := [];
    var i := 0;
    while i < itemCount
      invariant 0 <= i == |items|
      invariant itemCount >= 0 ==> i <= itemCount
      invariant itemCount < 0 ==> i == 0
      invariant forall k :: 0 <= k < |items| ==> Conforms(items[k], itemSchema)
      invariant ArraySupported(g.schema) ==> Supported(itemSchema)
    {
      var v := Synthesize(ItemOptions(g, itemSchema));
      if v.Err? {
        return Err(v.error);
      }
      items := items + [v.value];
      i := i + 1;
    }
    assert |items| == Max0(itemCount);
    return Ok(VArray(items));
  }

  lemma PropertyNamesStep(props: seq<Property>, i: nat)
    requires i < |props|
    ensures SchemaPropertyNames(props[..i + 1])
            == SchemaPropertyNames(props[..i]) + (if props[i].entry.Node? then {props[i].name} else {})
  {
    assert props[..i + 1][..i] == props[..i];
  }

  /** `ObjectGenerator.generate`. */
  method GenerateObject(g: BaseGenerator) returns (r: Result<Value>)
    ensures r.Ok? ==> ObjectConforms(r.value, g.schema)
    ensures g.schema.properties == [] ==> r == Ok(VObject(map[]))
    ensures ObjectSupported(g.schema) ==> r.Ok?
    decreases g.schema, 0, 1
  {
    var properties := g.schema.properties;
    var result: map<string, Value> := map[];
    var i := 0;
    while i < |properties|
      invariant 0 <= i <= |properties|
      invariant result.Keys == SchemaPropertyNames(properties[..i])
      invariant forall k :: k in result ==> PropertyValueConforms(result[k], k, g.schema)
    {
      PropertyNamesStep(properties, i);
      var next := GenerateProperty(g, properties[i], result);
      if next.Err? {
        return Err(next.error);
      }
      result := next.value;
      i := i + 1;
    }
    assert properties[..i] == properties;
    return Ok(VObject(result));
  }

  /** One pass of the `for ... of` over the properties: a property with a schema gets a
      value from the factory, under its own name; a boolean entry is skipped. */
  method GenerateProperty(g: BaseGenerator, p: Property, result: map<string, Value>)
    returns (next: Result<map<string, Value>>)
    requires p in g.schema.properties
    requires forall k :: k in result ==> PropertyValueConforms(result[k], k, g.schema)
    ensures next.Ok? ==> next.value.Keys == result.Keys + (if p.entry.Node? then {p.name} else {})
    ensures next.Ok? ==> forall k :: k in next.value ==> PropertyValueConforms(next.value[k], k, g.schema)
    ensures ObjectSupported(g.schema) ==> next.Ok?
    decreases g.schema, 0, 0
  {
    if p.entry.Node? {
      assert p.entry.schema < g.schema;
      var v := Synthesize(PropertyOptions(g, p.name, p.entry.schema));
      if v.Err? {
        return Err(v.error);
      }
      next := Ok(result[p.name := v.value]);
    } else {
      next := Ok(result);
    }
  }
}
