/**
 * The MCP protocol types that the HelloMCP handlers consume and produce.
 * They belong to the MCP Swift SDK, whose source is not part of this model;
 * only the parts the handlers touch are represented.
 */
module McpTypes {
  import opened Wrappers

  /** A dynamically typed JSON-like value, as carried in a tool call's argument bag. */
  datatype Value =
    | Null
    | Bool(b: bool)
    | Int(i: int)
    | Str(s: string)
    | Array(elements: seq<Value>)
    | Object(fields: map<string, Value>)

  /** The optional argument bag of a tool call: absent, or a map from argument name to value. */
  type Arguments = Option<map<string, Value>>

  /**
   * The SDK accessor `Value.stringValue`: the string held by a string value and
   * nothing for every other kind of value. This behaviour is an assumption about the SDK.
   */
  function StringValue(v: Value): (r: Option<string>)
    ensures r.Some? <==> v.Str?
    ensures r.Some? ==> r.value == v.s
  {
    match v
    case Str(s) => Some(s)
    case _ => None
  }

  /**
   * `arguments?[key]?.stringValue`: the string stored under `key`, or nothing when the
   * bag is absent, the key is missing, or the stored value is not a string.
   */
  function ArgumentString(args: Arguments, key: string): (r: Option<string>)
    ensures r.Some? <==> args.Some? && key in args.value && args.value[key].Str?
    ensures r.Some? ==> r.value == args.value[key].s
  {
    match args
    case None => None
    case Some(m) => if key in m then StringValue(m[key]) else None
  }

  /** `arguments?[key]?.stringValue ?? default`. */
  function ArgumentStringOr(args: Arguments, key: string, default: string): (r: string)
    ensures ArgumentString(args, key).None? ==> r == default
    ensures args.Some? && key in args.value && args.value[key].Str? ==> r == args.value[key].s
  {
    ArgumentString(args, key).GetOr(default)
  }

  /** A content block of a tool result; the handlers only ever produce text. */
  datatype Content = Text(text: string)

  /** The result of `tools/call`: content blocks and the in-band error flag. */
  datatype CallToolResult = CallToolResult(content: seq<Content>, isError: bool)

  /** A tool descriptor as advertised by `tools/list`. */
  datatype Tool = Tool(name: string, description: string, inputSchema: Value)

  datatype ListToolsResult = ListToolsResult(tools: seq<Tool>, nextCursor: Option<string>)

  /** A resource descriptor as advertised by `resources/list`. */
  datatype Resource = Resource(name: string, uri: string, description: string)

  datatype ListResourcesResult = ListResourcesResult(resources: seq<Resource>, nextCursor: Option<string>)

  /** `Resource.Content.text`: a text entry of a read result; `mimeType` is absent unless given. */
  datatype ResourceContent = ResourceContent(text: string, uri: string, mimeType: Option<string>)

  datatype ReadResourceResult = ReadResourceResult(contents: seq<ResourceContent>)

  /** The protocol-level errors a handler may throw; HelloMCP only throws `invalidParams`. */
  datatype McpError = InvalidParams(message: string)

  /**
   * What a registered handler closure yields: a result value, or a thrown protocol
   * error that the SDK turns into a JSON-RPC error response.
   */
  datatype HandlerResult<+T> = Ok(value: T) | Err(error: McpError)
}
