# HelloMCP request routing, modelled in Dafny

HelloMCP is a small Model Context Protocol (MCP) server. It advertises three tools (`applechat`,
`weather`, `calculator`) and two resources (a knowledge-base article collection and a system-status
document). It registers one handler closure per protocol method with the MCP Swift SDK. This project
models the bodies of those closures as pure functions. It also models the two stub helpers the tools call.

- `tools/list` (`HelloMcp.ListTools`) and `resources/list` (`HelloMcp.ListResources`) return fixed,
  single-page catalogues. `nextCursor` is always absent and the request's cursor is ignored.
- `tools/call` (`HelloMcp.CallTool`) routes on the tool name. Every failure is reported in band: an
  unknown name, a missing argument, an unsupported platform, an unavailable model or a failed
  session each produce a single text block with `isError` set. The handler never throws.
- `resources/read` (`HelloMcp.ReadResource`) routes on the exact URI. An unknown URI is thrown as the
  protocol error `invalidParams("Unknown resource URI: <uri>")`. This is the opposite policy to
  `tools/call`, and `HelloMcp.UnknownTargetsAsymmetry` states both sides together.
- Both closures are `throws` in Swift, so both are modelled with the same result type,
  `HandlerResult<T> = Ok(T) | Err(McpError)`. The asymmetry is then a statement about which
  constructor each handler can produce.
- The status branch of `resources/read` starts two local flags false and raises them step by step.
  `HelloMcp.HandleReadResource` keeps that imperative form and is proved equal to the pure
  `ReadResource`.

Everything the handlers ask the outside world is a field of `HelloMcp.Env`:
- whether `#available(macOS 26.0, *)` holds: on macOS 26 or later, and through `*` on any other platform;
- the language model's availability;
- the outcome of a language-model session, as a function of its instructions and its prompt;
- the OS version string;
- the current date's description.

The argument bag is `Option<map<string, Value>>`. `Value` is a tagged JSON-like value.
`McpTypes.StringValue` gives a string only for a string value. That accessor belongs to the SDK, so
its behaviour is an assumption of this model.

The weather tool's input schema nests `"units"` inside the `"location"` property. The handler,
however, reads `"units"` as a top-level argument. The schema is modelled as written (`WeatherSchema`).
Because `getWeatherData` ignores its units, the quirk has no visible effect
(`HelloMcp.WeatherIgnoresUnits`).

The articles entry is built with `Resource.Content.text(_, uri:)`, which passes no media type, so
its `mimeType` is absent (`HelloMcp.ArticlesContent`).

No prompt handlers are registered, although the prompts capability is advertised.

Files: `wrappers.dfy` (Option), `mcp_types.dfy` (the SDK types the handlers use),
`server_helpers.dfy` (Sources/HelloMCP/server.swift), `hello_mcp.dfy` (Sources/HelloMCP/main.swift).

## Model

| member | source | states |
|---|---|---|
| McpTypes.StringValue | Sources/HelloMCP/main.swift:75-76 | `stringValue` yields a string exactly for string values, and that string (an assumption about the SDK) |
| McpTypes.ArgumentString | Sources/HelloMCP/main.swift:75 | `arguments?[key]?.stringValue` is present exactly when the bag exists, holds the key, and holds a string there; it is then that string |
| McpTypes.ArgumentStringOr | Sources/HelloMCP/main.swift:100-101 | `?? default` gives the default when no string argument is present, and the argument's string otherwise |
| ServerHelpers.EvaluateExpression | Sources/HelloMCP/server.swift:30-32 | the calculator stub returns "42" for every expression, the empty one included |
| ServerHelpers.GetWeatherData | Sources/HelloMCP/server.swift:34-36 | the weather stub reports temperature "22" and conditions "Sunny" for every location and units |
| ServerHelpers.WeatherDataIgnoresArguments | Sources/HelloMCP/server.swift:34-36 | the weather data is the same for any two locations and units |
| HelloMcp.WeatherSchema | Sources/HelloMCP/main.swift:43-53 | the weather schema is an object schema whose properties hold "location" but not "units"; "units" sits inside "location" |
| HelloMcp.ToolCatalogue | Sources/HelloMCP/main.swift:22-68 | the three tool descriptors as written; every input schema is an object schema of type "object" with properties (names and order are stated by ListTools) |
| HelloMcp.ToolNames | Sources/HelloMCP/main.swift:22-68 | a projection used to state the catalogue, not a source operation: same length, and the i-th tool's name at position i |
| HelloMcp.ListTools | Sources/HelloMCP/main.swift:21-69 | tools/list lists exactly "applechat", "weather", "calculator" in that order, with distinct names and no next cursor |
| HelloMcp.WeatherText | Sources/HelloMCP/main.swift:104 | the weather text is "Weather for <location>: <temperature>", then "°, ", then the conditions: prefix, separator and suffix pinned, and 17 characters longer than its three parts |
| HelloMcp.SunnyWeatherText | Sources/HelloMCP/main.swift:102-104 | with the stub's data the weather text is "Weather for <location>: 22°, Sunny" |
| HelloMcp.CallTool | Sources/HelloMCP/main.swift:72-119 | tools/call never throws and always returns exactly one content block |
| HelloMcp.UnknownToolIsInBand | Sources/HelloMCP/main.swift:116-117 | any other name yields exactly one "Unknown tool" text with isError set, as a successful response |
| HelloMcp.UnknownToolIffUnlisted | Sources/HelloMCP/main.swift:21-69 | the "Unknown tool" result occurs exactly for the names tools/list does not advertise |
| HelloMcp.CalculatorMissingExpression | Sources/HelloMCP/main.swift:108-114 | the calculator flags an error exactly when arguments are absent, lack "expression" or hold a non-string there, and the error text is "Missing expression parameter" |
| HelloMcp.CalculatorEvaluates | Sources/HelloMCP/main.swift:109-111 | with a string expression the calculator returns its evaluation ("42") without error |
| HelloMcp.WeatherReport | Sources/HelloMCP/main.swift:99-106 | the weather tool never flags an error; it reports "Weather for <location>: 22°, Sunny", with the location defaulting to "Unknown" |
| HelloMcp.WeatherIgnoresUnits | Sources/HelloMCP/main.swift:100-104 | two weather calls whose "location" arguments agree give the same result, whatever "units" is |
| HelloMcp.AppleChatOutcomes | Sources/HelloMCP/main.swift:74-97 | the model-backed tool gives one of four single-text outcomes (not on macOS 26 or later, model unavailable, "Unable to respond", the answer), flagged as an error exactly when there is no answer; the session gets the string instructions and the prompt defaulting to "" |
| HelloMcp.ResourceCatalogue | Sources/HelloMCP/main.swift:125-136 | the two resource descriptors as written; the literal, no contract of its own (URIs and order are stated by ListResources) |
| HelloMcp.ResourceUris | Sources/HelloMCP/main.swift:125-136 | a projection used to state the catalogue, not a source operation: same length, and the i-th resource's URI at position i |
| HelloMcp.ListResources | Sources/HelloMCP/main.swift:124-138 | resources/list lists the articles URI then the status URI, distinct, with no next cursor |
| HelloMcp.BoolText | Sources/HelloMCP/main.swift:162-163 | a true flag is written "true" and a false one "false" |
| HelloMcp.Probe | Sources/HelloMCP/main.swift:148-157 | Apple Intelligence is reported available exactly where `#available(macOS 26.0, *)` holds (macOS 26 or later), the model exactly there with the model available, so never the model without Apple Intelligence |
| HelloMcp.StatusJson | Sources/HelloMCP/main.swift:159-166 | the status document as written; the literal, no contract of its own (see StatusJsonDeterminesFlags) |
| HelloMcp.StatusJsonDeterminesFlags | Sources/HelloMCP/main.swift:159-166 | for the same version and date, equal status documents report equal flags, so both flags can be read back from the text |
| HelloMcp.UnknownResource | Sources/HelloMCP/main.swift:170 | the invalidParams message is "Unknown resource URI: " followed by exactly the requested URI, which can be read back from it |
| HelloMcp.ReadResource | Sources/HelloMCP/main.swift:141-172 | a successful read has exactly one entry whose URI is the requested URI; a failed one is invalidParams naming the URI |
| HelloMcp.HandleReadResource | Sources/HelloMCP/main.swift:141-172 | the closure, with its step-by-step flag updates, computes exactly ReadResource |
| HelloMcp.UnknownResourceIsProtocolError | Sources/HelloMCP/main.swift:169-170 | any other URI throws invalidParams("Unknown resource URI: <uri>") and never gives an in-band result |
| HelloMcp.ReadableIffListed | Sources/HelloMCP/main.swift:124-146 | a read succeeds exactly on the URIs that resources/list advertises |
| HelloMcp.ListedResourcesReadable | Sources/HelloMCP/main.swift:124-146 | every advertised resource can be read, and its entry carries its URI |
| HelloMcp.StatusContent | Sources/HelloMCP/main.swift:146-167 | the status entry is "application/json" and reports the OS version, both probe flags and the date |
| HelloMcp.ArticlesContent | Sources/HelloMCP/main.swift:143-144 | the articles entry is the fixed knowledge-base text with no media type |
| HelloMcp.UnknownTargetsAsymmetry | Sources/HelloMCP/main.swift:116-170 | for an unlisted tool and an unlisted URI, the tool call succeeds at the protocol level with isError set, while the read throws invalidParams |

## Left out

- The MCP SDK's `Server`, handler registration, the stdio transport and JSON-RPC framing (Sources/HelloMCP/main.swift:10-18, 175-176): library code that is not part of this model. The handlers are plain functions.
- The service lifecycle: `MCPService.run`/`shutdown` and the `ServiceGroup` signal handling (Sources/HelloMCP/server.swift:5-26, Sources/HelloMCP/main.swift:179-186). This is asynchronous waiting and signal supervision, which has no pure counterpart.
- FoundationModels (`SystemLanguageModel`, `LanguageModelSession.respond`): foreign APIs. Their availability and their answers are oracle fields of `Env`.
- `ProcessInfo` and `Date()`: they read the environment, so they are the opaque strings `Env.osVersion` and `Env.now`.
- The escaping of interpolated strings in the status JSON is not modelled: the text is plain concatenation.
- Prompts: the capability is advertised (Sources/HelloMCP/main.swift:14), but no prompt handler is registered, so there is nothing to model.
- `Value` covers null, bool, integer, string, array and object. Floating-point and binary values of the SDK are not modelled; no handler reads them.
- Content blocks other than text, and resource fields other than name, URI and description, are not modelled; these handlers never produce them.
- Package.swift: build configuration only.
