/**
  The shape of a tool descriptor in the MCP `tools/list` reply, and the
  JSON-Schema fragments server.py builds its argument schemas from.
 */
module Schema {
  import opened Json

  /** An MCP tool descriptor. */
  datatype Tool = Tool(name: string, description: string, inputSchema: Json)

  /** A string property with a description. */
  function StringProp(description: string): Json {
    JObj(map["type" := JStr("string"), "description" := JStr(description)])
  }

  /** A number property with a description. */
  function NumberProp(description: string): Json {
    JObj(map["type" := JStr("number"), "description" := JStr(description)])
  }

  function Strings(values: seq<string>): (r: Json)
    ensures r.JArr? && |r.items| == |values|
    ensures forall i | 0 <= i < |values| :: r.items[i] == JStr(values[i])
  {
    JArr(seq(|values|, i requires 0 <= i < |values| => JStr(values[i])))
  }

  /** A string property restricted to the listed values. */
  function EnumProp(values: seq<string>, description: string): Json {
    JObj(map["type" := JStr("string"), "enum" := Strings(values), "description" := JStr(description)])
  }

  /** An array of plain strings. */
  function StringArrayProp(description: string): Json {
    JObj(map["type" := JStr("array"), "items" := JObj(map["type" := JStr("string")]),
             "description" := JStr(description)])
  }

  /** The `inputSchema` object: its properties and the names it requires. */
  function ObjectSchema(properties: map<string, Json>, required: seq<string>): Json {
    JObj(map["type" := JStr("object"), "properties" := JObj(properties), "required" := Strings(required)])
  }

  /** The keys of a descriptor's `inputSchema.properties`. */
  function PropertyNames(t: Tool): set<string> {
    if t.inputSchema.JObj? && "properties" in t.inputSchema.fields
       && t.inputSchema.fields["properties"].JObj?
    then t.inputSchema.fields["properties"].fields.Keys
    else {}
  }

  /** The entries of a descriptor's `inputSchema.required`. */
  function RequiredNames(t: Tool): seq<Json> {
    if t.inputSchema.JObj? && "required" in t.inputSchema.fields
       && t.inputSchema.fields["required"].JArr?
    then t.inputSchema.fields["required"].items
    else []
  }

  /** Every descriptor requires at least one argument, and each required name is a declared property. */
  predicate WellFormed(t: Tool) {
    && |RequiredNames(t)| > 0
    && forall i | 0 <= i < |RequiredNames(t)| ::
         RequiredNames(t)[i].JStr? && RequiredNames(t)[i].s in PropertyNames(t)
  }

  /** Schema helper results satisfy the well-formedness check when `required` lists declared properties. */
  lemma ObjectSchemaWellFormed(t: Tool, properties: map<string, Json>, required: seq<string>)
    requires t.inputSchema == ObjectSchema(properties, required)
    requires |required| > 0 && forall i | 0 <= i < |required| :: required[i] in properties
    ensures WellFormed(t)
  {
  }
}
