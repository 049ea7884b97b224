/** The list-tools handler: the single tool descriptor the server advertises,
    and a reading of its declared input schema as a check on arguments. */
module Tools {
  import opened Json
  import opened SearchArgs

  const SearchToolName: string := "search_npm_packages"

  /** One entry of a schema's `properties`: the declared JSON type and a description. */
  datatype PropertySchema = PropertySchema(typeName: string, description: string)

  /** A JSON-Schema-like object schema: `type`, `properties` and `required`. */
  datatype InputSchema = InputSchema(
    typeName: string,
    properties: map<string, PropertySchema>,
    required: seq<string>)

  datatype Tool = Tool(name: string, description: string, inputSchema: InputSchema)

  datatype ListToolsResult = ListToolsResult(tools: seq<Tool>)

  /** The list-tools handler. It takes no input, so its answer is the same for
      every discovery request, and it never touches the search command. */
  function ListTools(): (r: ListToolsResult)
    ensures |r.tools| == 1
    ensures r.tools[0].name == SearchToolName
    ensures r.tools[0].inputSchema.typeName == "object"
    ensures r.tools[0].inputSchema.properties.Keys == {"query"}
    ensures r.tools[0].inputSchema.properties["query"].typeName == "string"
    ensures r.tools[0].inputSchema.required == ["query"]
  {
    ListToolsResult([
      Tool(
        SearchToolName,
        "Search for npm packages",
        InputSchema(
          "object",
          map["query" := PropertySchema("string", "Search query")],
          ["query"]))
    ])
  }

  /** Whether a JSON value has the JSON-Schema primitive type named `t`. */
  predicate HasJsonType(v: Value, t: string)
  {
    match v
    case JNull => t == "null"
    case JBool(_) => t == "boolean"
    case JNumber(_) => t == "number"
    case JString(_) => t == "string"
    case JArray(_) => t == "array"
    case JObject(_) => t == "object"
  }

  /** Structural conformance of an argument slot to an input schema: the value
      is present and of the schema's type; for an object, every required field
      is present and every declared field that is present has its declared
      type. Undeclared fields are allowed. */
  predicate Conforms(schema: InputSchema, args: Slot)
  {
    && args.Some?
    && HasJsonType(args.value, schema.typeName)
    && (args.value.JObject? ==>
          && (forall k :: k in schema.required ==> k in args.value.fields)
          && (forall k :: k in schema.properties && k in args.value.fields ==>
                HasJsonType(args.value.fields[k], schema.properties[k].typeName)))
  }

  /** The advertised input schema and the call handler's validator accept
      exactly the same arguments. */
  lemma AdvertisedSchemaMatchesValidator(args: Slot)
    ensures Conforms(ListTools().tools[0].inputSchema, args) <==> IsValidSearchArgs(args)
  {
  }
}
