/**
 * The request-routing layer of the HelloMCP server: the bodies of the handlers it
 * registers for `tools/list`, `tools/call`, `resources/list` and `resources/read`.
 *
 * Each handler is a pure function of its request and of an environment `Env` that
 * stands for everything the handlers ask the outside world: whether
 * `#available(macOS 26.0, *)` holds, whether the on-device language model is
 * available, what a language-model session answers, the operating-system version
 * string and the current date.
 */
module HelloMcp {
  import opened Wrappers
  import opened McpTypes
  import opened ServerHelpers

  // ---------------------------------------------------------------------------
  // The environment the handlers consult
  // ---------------------------------------------------------------------------

  /** `SystemLanguageModel.availability`: available, or unavailable for some reason. */
  datatype Availability = Available | Unavailable(reason: string)

  /** What `LanguageModelSession.respond(to:)` does: answers with a text, or throws. */
  datatype SessionOutcome = Responded(content: string) | Threw

  /**
   * The oracles of one request. `onMacOS26` is `#available(macOS 26.0, *)`: true on
   * macOS 26 or later (and, through `*`, on any other platform). `respond(instructions,
   * prompt)` is the outcome of a session created with `instructions` and asked `prompt`.
   */
  datatype Env = Env(
    onMacOS26: bool,
    model: Availability,
    respond: (Option<string>, string) -> SessionOutcome,
    osVersion: string,
    now: string)

  // ---------------------------------------------------------------------------
  // Tools
  // ---------------------------------------------------------------------------

  const ToolApplechat := "applechat"
  const ToolWeather := "weather"
  const ToolCalculator := "calculator"

  /** An object schema: type "object" with an object of properties. */
  predicate IsObjectSchema(v: Value) {
    && v.Object?
    && "type" in v.fields && v.fields["type"] == Str("object")
    && "properties" in v.fields && v.fields["properties"].Object?
  }

  /** A schema property of type string with a description. */
  function StringProperty(description: string): Value {
    Object(map["description" := Str(description), "type" := Str("string")])
  }

  /** An object schema with the given properties. */
  function ObjectSchema(properties: map<string, Value>): Value {
    Object(map["type" := Str("object"), "properties" := Object(properties)])
  }

  /**
   * The weather tool's schema. "units" sits inside the "location" property rather
   * than beside it, although the handler reads "units" as a top-level argument.
   */
  function WeatherSchema(): (v: Value)
    ensures IsObjectSchema(v)
    ensures "location" in v.fields["properties"].fields
    ensures "units" !in v.fields["properties"].fields
    ensures v.fields["properties"].fields["location"].Object?
    ensures "units" in v.fields["properties"].fields["location"].fields
  {
    ObjectSchema(map[
      "location" := Object(map[
        "description" := Str("City name or coordinates"),
        "type" := Str("string"),
        "units" := Str("Units of measurement, e.g., metric, imperial")])])
  }

  /** The fixed tool catalogue, in the order it is advertised. */
  function ToolCatalogue(): (tools: seq<Tool>)
    ensures forall t :: t in tools ==> IsObjectSchema(t.inputSchema)
  {
    [ Tool(ToolApplechat, "Execute a string using Apple Foundation Models",
           ObjectSchema(map["instructions" := StringProperty("Instructions to model"),
                            "prompt" := StringProperty("Instructions to model")])),
      Tool(ToolWeather, "Get current weather for a location", WeatherSchema()),
      Tool(ToolCalculator, "Perform calculations",
           ObjectSchema(map["expression" := StringProperty("Mathematical expression to evaluate")])) ]
  }

  /** The names of a list of tools, position by position. */
  function ToolNames(tools: seq<Tool>): (names: seq<string>)
    ensures |names| == |tools|
    ensures forall i :: 0 <= i < |tools| ==> names[i] == tools[i].name
  {
    if tools == [] then [] else [tools[0].name] + ToolNames(tools[1..])
  }

  /** True when no string occurs twice in `s`. */
  predicate Distinct(s: seq<string>) {
    forall i, j :: 0 <= i < j < |s| ==> s[i] != s[j]
  }

  /**
   * The `tools/list` handler. It ignores the request's cursor and always answers
   * with the whole catalogue on a single page.
   */
  function ListTools(cursor: Option<string>): (r: ListToolsResult)
    ensures ToolNames(r.tools) == [ToolApplechat, ToolWeather, ToolCalculator]
    ensures Distinct(ToolNames(r.tools))
    ensures r.nextCursor.None?
  {
    ListToolsResult(ToolCatalogue(), None)
  }

  /** A single text block flagged as an in-band failure. */
  function Failure(message: string): CallToolResult {
    CallToolResult([Text(message)], true)
  }

  /** A single text block flagged as a success. */
  function Success(text: string): CallToolResult {
    CallToolResult([Text(text)], false)
  }

  /** The text the weather tool reports for a location and the data looked up for it. */
  function WeatherText(location: string, data: WeatherData): (t: string)
    ensures "Weather for " + location + ": " + data.temperature <= t
    ensures |t| == 17 + |location| + |data.temperature| + |data.conditions|
    ensures t[|"Weather for " + location + ": " + data.temperature|..|t| - |data.conditions|] == "\U{B0}, "
    ensures t[|t| - |data.conditions|..] == data.conditions
  {
    "Weather for " + location + ": " + data.temperature + "\U{B0}, " + data.conditions
  }

  /**
   * The `tools/call` handler. It routes on the tool name and, although the closure it
   * models may throw, it never does: every outcome, failures included, is a result
   * with exactly one text block.
   */
  function CallTool(name: string, args: Arguments, env: Env): (r: HandlerResult<CallToolResult>)
    ensures r.Ok?
    ensures |r.value.content| == 1
  {
    match name
    case "applechat" =>
      var instructions := ArgumentString(args, "instructions");
      var prompt := ArgumentStringOr(args, "prompt", "");
      if !env.onMacOS26 then
        Ok(Failure("Tool Server is not on macOS 26"))
      else if env.model != Available then
        Ok(Failure("Model not available"))
      else
        (match env.respond(instructions, prompt)
         case Responded(content) => Ok(Success(content))
         case Threw => Ok(Failure("Unable to respond")))
    case "weather" =>
      var location := ArgumentStringOr(args, "location", "Unknown");
      var units := ArgumentStringOr(args, "units", "metric");
      Ok(Success(WeatherText(location, GetWeatherData(location, units))))
    case "calculator" =>
      (match ArgumentString(args, "expression")
       case Some(expression) => Ok(Success(EvaluateExpression(expression)))
       case None => Ok(Failure("Missing expression parameter")))
    case _ =>
      Ok(Failure("Unknown tool"))
  }

  // ---------------------------------------------------------------------------
  // Resources
  // ---------------------------------------------------------------------------

  const ArticlesUri := "resource://knowledge-base/articles"
  const StatusUri := "resource://system/status"

  const ArticlesText := "# Knowledge Base\n\nThis is the content of the knowledge base..."

  /** The fixed resource catalogue, in the order it is advertised. */
  function ResourceCatalogue(): seq<Resource> {
    [ Resource("Knowledge Base Articles", ArticlesUri, "Collection of support articles and documentation"),
      Resource("System Status", StatusUri, "Current system operational status") ]
  }

  /** The URIs of a list of resources, position by position. */
  function ResourceUris(resources: seq<Resource>): (uris: seq<string>)
    ensures |uris| == |resources|
    ensures forall i :: 0 <= i < |resources| ==> uris[i] == resources[i].uri
  {
    if resources == [] then [] else [resources[0].uri] + ResourceUris(resources[1..])
  }

  /**
   * The `resources/list` handler. It ignores the request's cursor and answers with
   * both resources on a single page.
   */
  function ListResources(cursor: Option<string>): (r: ListResourcesResult)
    ensures ResourceUris(r.resources) == [ArticlesUri, StatusUri]
    ensures Distinct(ResourceUris(r.resources))
    ensures r.nextCursor.None?
  {
    ListResourcesResult(ResourceCatalogue(), None)
  }

  /** Swift's `description` of a Bool. */
  function BoolText(b: bool): (t: string)
    ensures b ==> t == "true"
    ensures !b ==> t == "false"
  {
    if b then "true" else "false"
  }

  /** What the status resource reports about the platform: Apple Intelligence and the model. */
  datatype StatusFlags = StatusFlags(appleIntelligenceAvailable: bool, modelAvailable: bool)

  /**
   * The two availability flags of the status resource. The model is only probed where
   * `#available(macOS 26.0, *)` holds, so it is never reported available where Apple Intelligence is not.
   */
  function Probe(env: Env): (f: StatusFlags)
    ensures f.appleIntelligenceAvailable <==> env.onMacOS26
    ensures f.modelAvailable <==> env.onMacOS26 && env.model == Available
    ensures f.modelAvailable ==> f.appleIntelligenceAvailable
  {
    StatusFlags(env.onMacOS26, env.onMacOS26 && env.model == Available)
  }

  /** The JSON document of the status resource (no escaping of the interpolated strings). */
  function StatusJson(osVersion: string, flags: StatusFlags, lastUpdated: string): string {
    "{\n"
    + "    \"osVersion\": \"" + osVersion + "\",\n"
    + "    \"Apple Intelligence available\": \"" + BoolText(flags.appleIntelligenceAvailable) + "\",\n"
    + "    \"Foundation Model available\": \"" + BoolText(flags.modelAvailable) + "\",\n"
    + "    \"lastUpdated\": \"" + lastUpdated + "\"\n"
    + "}"
  }

  /**
   * Swapping the flags changes the status document: equal documents for the same
   * version and date report the same flags, so a client can read both flags back.
   */
  lemma StatusJsonDeterminesFlags(osVersion: string, lastUpdated: string, f1: StatusFlags, f2: StatusFlags)
    requires StatusJson(osVersion, f1, lastUpdated) == StatusJson(osVersion, f2, lastUpdated)
    ensures f1 == f2
  {
    var s1, s2 := StatusJson(osVersion, f1, lastUpdated), StatusJson(osVersion, f2, lastUpdated);
    var p := "{\n" + "    \"osVersion\": \"" + osVersion + "\",\n" + "    \"Apple Intelligence available\": \"";
    var a1, a2 := BoolText(f1.appleIntelligenceAvailable), BoolText(f2.appleIntelligenceAvailable);
    assert s1[|p|] == a1[0] && s2[|p|] == a2[0];
    assert f1.appleIntelligenceAvailable == f2.appleIntelligenceAvailable;
    var q := p + a1 + "\",\n" + "    \"Foundation Model available\": \"";
    assert s1[|q|] == BoolText(f1.modelAvailable)[0];
    assert s2[|q|] == BoolText(f2.modelAvailable)[0];
  }

  /** The protocol error thrown for a URI the server does not serve. */
  function UnknownResource(uri: string): (e: McpError)
    ensures |e.message| == 22 + |uri|
    ensures e.message[..22] == "Unknown resource URI: "
    ensures e.message[22..] == uri
  {
    InvalidParams("Unknown resource URI: " + uri)
  }

  /**
   * The `resources/read` handler. It routes on the exact URI; unlike `tools/call`,
   * it reports an unknown target as a thrown protocol error, not in band.
   */
  function ReadResource(uri: string, env: Env): (r: HandlerResult<ReadResourceResult>)
    ensures r.Ok? ==> |r.value.contents| == 1 && r.value.contents[0].uri == uri
    ensures r.Err? ==> r.error == UnknownResource(uri)
  {
    match uri
    case "resource://knowledge-base/articles" =>
      Ok(ReadResourceResult([ResourceContent(ArticlesText, uri, None)]))
    case "resource://system/status" =>
      var text := StatusJson(env.osVersion, Probe(env), env.now);
      Ok(ReadResourceResult([ResourceContent(text, uri, Some("application/json"))]))
    case _ =>
      Err(UnknownResource(uri))
  }

  /**
   * The `resources/read` closure as the source writes it: the status branch starts
   * both flags false and raises them step by step as the probes succeed.
   */
  method HandleReadResource(uri: string, env: Env) returns (r: HandlerResult<ReadResourceResult>)
    ensures r == ReadResource(uri, env)
  {
    if uri == ArticlesUri {
      r := Ok(ReadResourceResult([ResourceContent(ArticlesText, uri, None)]));
    } else if uri == StatusUri {
      var versionString := env.osVersion;
      var appleIntelligenceAvailable := false;
      var modelAvailable := false;
      if env.onMacOS26 {
        appleIntelligenceAvailable := true;
        if env.model == Available {
          modelAvailable := true;
        }
      }
      var statusJson := StatusJson(versionString, StatusFlags(appleIntelligenceAvailable, modelAvailable), env.now);
      r := Ok(ReadResourceResult([ResourceContent(statusJson, uri, Some("application/json"))]));
    } else {
      r := Err(UnknownResource(uri));
    }
  }

  // ---------------------------------------------------------------------------
  // Properties of tools/call
  // ---------------------------------------------------------------------------

  /** A name outside the catalogue yields exactly "Unknown tool", in band, and never a protocol error. */
  lemma UnknownToolIsInBand(name: string, args: Arguments, env: Env)
    requires name != ToolApplechat && name != ToolWeather && name != ToolCalculator
    ensures CallTool(name, args, env) == Ok(Failure("Unknown tool"))
  {
  }

  /** The call yields the "Unknown tool" result exactly when the name is not listed by `tools/list`. */
  lemma UnknownToolIffUnlisted(name: string, args: Arguments, env: Env, cursor: Option<string>)
    ensures CallTool(name, args, env) == Ok(Failure("Unknown tool"))
        <==> name !in ToolNames(ListTools(cursor).tools)
  {
  }

  /** The calculator fails, in band, exactly when there is no string "expression" argument. */
  lemma CalculatorMissingExpression(args: Arguments, env: Env)
    ensures CallTool(ToolCalculator, args, env).value.isError
        <==> args.None? || "expression" !in args.value || !args.value["expression"].Str?
    ensures CallTool(ToolCalculator, args, env).value.isError
        ==> CallTool(ToolCalculator, args, env) == Ok(Failure("Missing expression parameter"))
  {
  }

  /** Given a string expression, the calculator answers with its evaluation, which is "42". */
  lemma CalculatorEvaluates(args: Arguments, env: Env, e: string)
    requires args.Some? && "expression" in args.value && args.value["expression"] == Str(e)
    ensures CallTool(ToolCalculator, args, env) == Ok(CallToolResult([Text(EvaluateExpression(e))], false))
    ensures CallTool(ToolCalculator, args, env).value.content[0].text == "42"
  {
  }

  /**
   * The weather tool never fails; the location defaults to "Unknown" and the text
   * reports 22 degrees and sunshine for it.
   */
  lemma WeatherReport(args: Arguments, env: Env)
    ensures !CallTool(ToolWeather, args, env).value.isError
    ensures CallTool(ToolWeather, args, env).value.content
         == [Text("Weather for " + ArgumentStringOr(args, "location", "Unknown") + ": 22\U{B0}, Sunny")]
    ensures ArgumentString(args, "location").None?
        ==> CallTool(ToolWeather, args, env).value.content == [Text("Weather for Unknown: 22\U{B0}, Sunny")]
  {
    var location := ArgumentStringOr(args, "location", "Unknown");
    SunnyWeatherText(location);
    assert "Weather for " + "Unknown" + ": 22\U{B0}, Sunny" == "Weather for Unknown: 22\U{B0}, Sunny";
  }

  /** The weather text for the stub's data, written out in one piece. */
  lemma SunnyWeatherText(location: string)
    ensures WeatherText(location, GetWeatherData(location, "")) == "Weather for " + location + ": 22\U{B0}, Sunny"
  {
  }

  /** The weather answer depends on the "location" argument only: "units" never changes it. */
  lemma WeatherIgnoresUnits(args1: Arguments, args2: Arguments, env1: Env, env2: Env)
    requires ArgumentString(args1, "location") == ArgumentString(args2, "location")
    ensures CallTool(ToolWeather, args1, env1) == CallTool(ToolWeather, args2, env2)
  {
  }

  /**
   * The four outcomes of the model-backed tool, each a single text block: not on
   * macOS 26 or later, model unavailable, session failure, or the session's answer. The session
   * is given the "instructions" argument when it is a string and the "prompt" argument,
   * defaulting to "".
   */
  lemma AppleChatOutcomes(args: Arguments, env: Env)
    ensures var r := CallTool(ToolApplechat, args, env).value;
      var outcome := env.respond(ArgumentString(args, "instructions"), ArgumentStringOr(args, "prompt", ""));
      && (!env.onMacOS26 ==> r == Failure("Tool Server is not on macOS 26"))
      && (env.onMacOS26 && env.model != Available ==> r == Failure("Model not available"))
      && (env.onMacOS26 && env.model == Available && outcome.Threw? ==> r == Failure("Unable to respond"))
      && (env.onMacOS26 && env.model == Available && outcome.Responded? ==> r == Success(outcome.content))
      && (r.isError <==> !(env.onMacOS26 && env.model == Available && outcome.Responded?))
  {
  }

  // ---------------------------------------------------------------------------
  // Properties of resources/read
  // ---------------------------------------------------------------------------

  /** A URI outside the catalogue raises invalidParams naming the URI, never an in-band result. */
  lemma UnknownResourceIsProtocolError(uri: string, env: Env)
    requires uri != ArticlesUri && uri != StatusUri
    ensures ReadResource(uri, env) == Err(UnknownResource(uri))
  {
  }

  /** `resources/read` succeeds exactly on the URIs that `resources/list` advertises. */
  lemma ReadableIffListed(uri: string, env: Env, cursor: Option<string>)
    ensures ReadResource(uri, env).Ok? <==> uri in ResourceUris(ListResources(cursor).resources)
  {
  }

  /** Every resource `resources/list` advertises can be read, and its single entry carries its URI. */
  lemma ListedResourcesReadable(env: Env, cursor: Option<string>)
    ensures forall res :: res in ListResources(cursor).resources ==>
      ReadResource(res.uri, env).Ok? && ReadResource(res.uri, env).value.contents[0].uri == res.uri
  {
  }

  /** The status entry is JSON that reports the OS version, both probe flags and the date. */
  lemma StatusContent(env: Env)
    ensures ReadResource(StatusUri, env).Ok?
    ensures var c := ReadResource(StatusUri, env).value.contents[0];
      && c.mimeType == Some("application/json")
      && c.text == StatusJson(env.osVersion, StatusFlags(env.onMacOS26, env.onMacOS26 && env.model == Available), env.now)
  {
  }

  /** The articles entry is the fixed knowledge-base text, with no media type. */
  lemma ArticlesContent(env: Env)
    ensures ReadResource(ArticlesUri, env) == Ok(ReadResourceResult([ResourceContent(ArticlesText, ArticlesUri, None)]))
  {
  }

  /**
   * Tools and resources report an unknown target through different channels: an
   * unknown tool is a successful response flagged `isError`, an unknown resource a
   * protocol error.
   */
  lemma UnknownTargetsAsymmetry(name: string, uri: string, args: Arguments, env: Env, cursor: Option<string>)
    requires name !in ToolNames(ListTools(cursor).tools)
    requires uri !in ResourceUris(ListResources(cursor).resources)
    ensures CallTool(name, args, env).Ok? && CallTool(name, args, env).value.isError
    ensures ReadResource(uri, env).Err? && ReadResource(uri, env).error.InvalidParams?
  {
  }
}
