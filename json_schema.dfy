/** The parts of an OpenAPI 3 / JSON Schema document that the synthesizers read,
    and the JSON values they produce. */
module JsonSchema {
  import opened Wrappers

  /** A schema position: JSON Schema allows a boolean (`true` / `false`) wherever a schema may stand. */
  datatype SchemaEntry = BoolSchema(b: bool) | Node(schema: Schema)

  /** One entry of a schema's `properties` object, in document order. */
  datatype Property = Property(name: string, entry: SchemaEntry)

  /** A schema object. Absent keys are `None`. The two `exclusive*` flags record whether the key
      is present with a truthy value; `hasRef` records whether a `$ref` key is present. An absent
      `properties` is the empty list: every reader of the key defaults it to `{}`. */
  datatype Schema = Schema(
    typ: Option<string>,
    format: Option<string>,
    pattern: Option<string>,
    enumValues: Option<seq<string>>,
    minimum: Option<real>,
    maximum: Option<real>,
    exclusiveMinimum: bool,
    exclusiveMaximum: bool,
    minItems: Option<int>,
    maxItems: Option<int>,
    items: Option<SchemaEntry>,
    properties: seq<Property>,
    required: Option<seq<string>>,
    hasRef: bool)

  /** JSON values. Integers and other numbers are kept apart so that "is an integer" can be stated. */
  datatype Value =
    | VNull
    | VBool(b: bool)
    | VInt(i: int)
    | VNum(r: real)
    | VStr(s: string)
    | VArray(elems: seq<Value>)
    | VObject(fields: map<string, Value>)

  /** The schema with every key absent: `{}`. */
  const EmptySchema := Schema(None, None, None, None, None, None, false, false,
                              None, None, None, [], None, false)

  /** The names of the declared properties whose schema is not a boolean schema. */
  function SchemaPropertyNames(props: seq<Property>): (names: set<string>)
    ensures forall k :: k in names <==> exists i :: 0 <= i < |props| && props[i].name == k && props[i].entry.Node?
  {
    if props == [] then {}
    else
      var rest := SchemaPropertyNames(props[..|props| - 1]);
      var last := props[|props| - 1];
      assert forall i :: 0 <= i < |props| - 1 ==> props[..|props| - 1][i] == props[i];
      if last.entry.Node? then rest + {last.name} else rest
  }
}
