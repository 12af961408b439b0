# ai_scheduler: tool registry, tools, intent router and Ollama adapter in Dafny

This project models the decision-making core of `ai_scheduler`, a Go chat service.

- **The intent router.** It asks an AI backend which intent a user's message has. It then either answers a knowledge question (with nothing yet) or diagnoses an order. To diagnose an order, it offers the backend the registered tools and runs the tool calls the backend asks for.
- **The tool registry.** A map from tool name to tool, filled from configuration flags. It supports lookup and listing, and runs a batch of tool calls, attaching a result to every call.
- **Three tools.**
  - `calculate`: one arithmetic operation.
  - `get_weather`: mock weather derived from random draws.
  - `zltxOrderDetail`: an order lookup that builds one authorised GET request, sends it unless `http.NewRequest` rejects the URL, and answers with an empty record.
- **The caller-to-knowledge-base table.**
- **The Ollama adapter's conversion loops.** The chat request is built from messages and tool definitions. The reply is converted back, with every tool call given the identifier `call_<i>`.

Modules, one per file:

| file | module | models |
|---|---|---|
| `wrappers.dfy` | `Wrappers` | `Option`, `Result` |
| `encoding.dfy` | `Encoding` | JSON values, `json.RawMessage`, `Marshal`/`Unmarshal`, decoding into structs of string and float64 fields |
| `format.dfy` | `Format` | the `%d` and `%.2f` verbs |
| `types.dfy` | `Types` | `Message`, `ToolCall`, `FunctionCall`, `ToolDefinition`, `ChatRequest`, `ChatResponse` (`pkg/types/types.go`) |
| `config.dfy` | `Config` | `ToolsConfig`, `ToolConfig` |
| `constants.dfy` | `Constants` | callers and knowledge bases |
| `calculator.dfy`, `weather.dfy`, `zltx_order_detail.dfy` | one per tool | the tool's definition, argument checks and answer |
| `tools.dfy` | `Tools` | the set of tools and their dispatch |
| `manager.dfy` | `Manager` | the registry, as a class over a `tools` map |
| `router.dfy` | `Router` | the prompt, intent extraction, the AI client and the router service |
| `ollama.dfy` | `Ollama` | `Chat`'s copy loops and `convertResponse` |

How the model represents the Go program:

- **Tool interface.** Go's `Tool` interface has exactly three implementations, so `Tools.Tool` is a datatype with one case per implementation. Each case carries the state its Go struct holds.
- **AI client.** The AI client is a class. `respond(n, messages, tools)` gives the backend's reply to its n-th call, and the `calls` field records every call made.
- **JSON.** JSON texts are represented by the values they denote. `Raw` is either such a value (of type `Text`: no NaN or infinity, which no JSON text can denote) or bytes that are not JSON, such as the nil message.
- **Numbers.** float64 values are reals, and `math.Pow` is the parameter `pow`.
- **Per-call effects.** The weather tool's random draws and clock reading, and the outcome of the order tool's HTTP request, are parameters. The i-th call of a batch consumes `effects(i)`.

The model follows the code where the code and its surrounding design disagree:

- **Dead tail of `Route`.** `Route` returns from every arm of its intent switch, so lines 70-116 of `internal/services/router.go` never run. The model's `Route` stops at the switch.
- **Missing `ChatResponse` fields.** `ChatResponse` is declared in `pkg/types/types.go` without the `ToolCalls` and `Finished` fields that the router and the adapter use. The model adds both fields.
- **Missing constructor argument.** `NewManager` calls `NewWeatherTool()` without its `mockData` argument. The model registers `WeatherTool(true)`, and `Weather.MockDataIrrelevant` proves that the flag does not change the answer.
- **Numeric confidence.** `extractIntent` decodes `confidence` into a string, while the prompt asks the model for a number. A reply in the requested format therefore yields no intent. The model keeps this behaviour and proves it (`Router.NumericConfidenceYieldsNoIntent`).

## Model

| member | source | states |
|---|---|---|
| `Constants.Caller.String` | internal/constants/caller.go:10-12 | converting back gives the same caller |
| `Constants.KnowledgeId.String` | internal/constants/knowledge.go:9-11 | the identity on the underlying string: converting back gives the same identifier |
| `Constants.GetKnowledgeId` | internal/constants/knowledge.go:17-22 | a caller in the table gets its entry; any other caller gets `""`; the result is `""` or a value stored in the table |
| `Constants.ZltxKnowledgeBase` | internal/constants/knowledge.go:13-15 | the zltx caller's knowledge base is `kb-00000001` |
| `Constants.HytHasNoKnowledgeBase` | internal/constants/knowledge.go:18-20 | the hyt caller, absent from the table, gets `""` |
| `Encoding.Marshal` | internal/tools/manager.go:109-115 | succeeds exactly on values with no NaN or infinity inside; what it produces unmarshals back to the same value |
| `Encoding.Unmarshal` | internal/tools/calculator.go:78 | succeeds exactly on JSON texts and yields the value the text denotes, which holds no NaN or infinity; the empty message fails with "unexpected end of JSON input" |
| `Encoding.DecodeStruct` | internal/tools/calculator.go:77-80 | decoding into a struct succeeds exactly when the document is `null`, or an object none of whose members gives a declared field a value of the wrong kind; on success the document is returned (numbers count as float64 whatever their size: see Left out) |
| `Encoding.FirstMismatch` | internal/tools/calculator.go:78 | finds the earliest member in document order that is a type error for the struct, or shows there is none |
| `Encoding.LastString` | internal/tools/weather.go:80-81 | the string stored in a field is one that some member holds under that key; the field stays `""` when no member holds a string there |
| `Encoding.LastNumber` | internal/tools/calculator.go:77-78 | the number stored in a field is one that some member holds under that key; the field stays 0 when no member holds a number there |
| `Encoding.LastStringAt` | internal/tools/weather.go:80-81 | the last string member under a key decides the string field; a later `null` under the key leaves it as it was |
| `Encoding.LaterNullKeepsString` | internal/tools/weather.go:80-81 | two strings and then a `null` under one key: the field holds the second string |
| `Encoding.LastNumberAt` | internal/tools/calculator.go:77-78 | the last number member under a key decides the number field; a later `null` under the key leaves it as it was |
| `Format.NatToString` | pkg/ollama/client.go:109 | `%d` gives a non-empty string of digits, with no leading zero unless the number is 0 |
| `Format.NatToStringRoundTrip` | pkg/ollama/client.go:109 | the digits `%d` prints denote the number printed |
| `Format.NatToStringInjective` | pkg/ollama/client.go:109 | different numbers print differently |
| `Format.RoundHalfEven` | internal/tools/calculator.go:88 | the nearest whole number, ties going to the even one |
| `Format.Fixed2` | internal/tools/calculator.go:88 | `%.2f` prints a sign exactly for negative numbers, then an integer part of digits with no leading zero (unless it is `0`), a point and two digits |
| `Format.Fixed2Value` | internal/tools/calculator.go:88 | the printed digits, read without sign and point, are the magnitude in hundredths, correctly rounded |
| `Calculator.Definition` | internal/tools/calculator.go:20-38 | the definition is of kind "function" under the name `calculate` and the tool's description |
| `Calculator.DefinitionSchema` | internal/tools/calculator.go:36-54 | the schema is an object; `operation` is enumerated as add, subtract, multiply, divide, power; `a` and `b` are numbers; all three are required |
| `Calculator.DecodeRequest` | internal/tools/calculator.go:77-80 | decoding succeeds exactly when the arguments fit the request struct, and then reads its three fields as exact reals (no float64 range check or rounding: see Left out) |
| `Calculator.Calculate` | internal/tools/calculator.go:82-119 | an operation outside the five fails as unsupported; add, subtract, multiply and divide compute a+b, a−b, a·b, a/b; dividing by 0 fails; pow's NaN or infinity fails; success echoes operation, a and b, with the expression "a op b = result" using + - × ÷ ^ |
| `Calculator.ResponseJson` | internal/tools/calculator.go:66-73 | the response serialises |
| `Calculator.Execute` | internal/tools/calculator.go:76-120 | undecodable arguments fail with "invalid calculate request: " and the decoding error; otherwise Execute answers the calculation's response or error |
| `Calculator.DivideByZeroFails` | internal/tools/calculator.go:95-98 | dividing by 0 fails for every dividend |
| `Calculator.AddTwoAndThree` | internal/tools/calculator.go:86-88 | adding 2 and 3 answers 5, printed as "2.00 + 3.00 = 5.00" |
| `Weather.Definition` | internal/tools/weather.go:24-40 | the definition is of kind "function" under the name `get_weather` and the tool's description |
| `Weather.DefinitionSchema` | internal/tools/weather.go:41-56 | the schema is an object that requires only `city` (a string); `unit` is celsius or fahrenheit, with celsius as default |
| `Weather.BaseTemperature` | internal/tools/weather.go:106-118 | a city in the six-city table gets its entry; any other city gets 20 |
| `Weather.Truncate` | internal/tools/weather.go:133 | int conversion cuts toward zero |
| `Weather.TruncateTenths` | internal/tools/weather.go:133 | the temperature is cut to one decimal, toward zero |
| `Weather.GetMockWeather` | internal/tools/weather.go:102-139 | city, unit and timestamp are echoed; the condition is one of the five labels; humidity lies in [40, 80); wind speed is a whole number in [1, 20]; the temperature lies within the jitter's bounds around the base, converted for fahrenheit |
| `Weather.ResponseJson` | internal/tools/weather.go:68-76 | the response serialises |
| `Weather.DecodeRequest` | internal/tools/weather.go:80-83 | decoding succeeds exactly when the arguments fit the request struct, and then reads city and unit |
| `Weather.Execute` | internal/tools/weather.go:79-99 | undecodable arguments fail with "invalid weather request: " and the error; an empty city fails with "city is required"; an empty unit becomes celsius; otherwise Execute answers the mock weather |
| `Weather.MockDataIrrelevant` | internal/tools/weather.go:93-98 | both settings of the mock-data flag answer the same |
| `Weather.BeijingDefaultsToCelsius` | internal/tools/weather.go:89-91 | Beijing without a unit answers for Beijing in celsius, with a temperature between 9.9 and 20 |
| `Weather.UnitNotValidated` | internal/tools/weather.go:89-91 | a non-empty unit is passed through unchecked |
| `ZltxOrderDetail.Definition` | internal/tools/zltx_order_detail.go:23-38 | the definition is of kind "function" under the name `zltxOrderDetail` and the tool's description |
| `ZltxOrderDetail.DefinitionSchema` | internal/tools/zltx_order_detail.go:39-48 | the schema is an object with the one required string property `number` |
| `ZltxOrderDetail.RequestFor` | internal/tools/zltx_order_detail.go:88-96 | a GET to the base URL + "/admin/direct/ai/" + number, authorised with "Bearer " + API key |
| `ZltxOrderDetail.GetZltxOrderDetail` | internal/tools/zltx_order_detail.go:87-105 | the empty response (code 0, error "", null maps) whatever becomes of the request |
| `ZltxOrderDetail.DecodeRequest` | internal/tools/zltx_order_detail.go:73-76 | decoding succeeds exactly when the arguments fit the request struct, and then reads the number |
| `ZltxOrderDetail.Execute` | internal/tools/zltx_order_detail.go:72-84 | undecodable arguments fail with "invalid zltxOrderDetail request: " and the error; an empty number fails with "number is required"; otherwise Execute answers the empty response |
| `ZltxOrderDetail.SentRequest` | internal/tools/zltx_order_detail.go:78-95 | a request is sent exactly when Execute succeeds and `http.NewRequest` accepts the URL, and it is the request for the decoded number |
| `ZltxOrderDetail.RejectedUrlSendsNothing` | internal/tools/zltx_order_detail.go:92-95 | when `http.NewRequest` rejects the URL, Execute still answers the empty response and nothing is sent |
| `ZltxOrderDetail.EmptyArgumentsRejected` | internal/tools/zltx_order_detail.go:73-76 | empty arguments fail to decode with "unexpected end of JSON input", and nothing is sent |
| `ZltxOrderDetail.NumberQueried` | internal/tools/zltx_order_detail.go:78-89 | a non-empty number answers the empty response and, once its URL is accepted, queries that number |
| `Tools.Name` | internal/tools/manager.go:26 | every tool's name is one of the three |
| `Tools.Definition` | internal/tools/manager.go:75 | a tool's definition carries its own name and description |
| `Tools.Execute` | internal/tools/manager.go:88 | dispatches to the tool's own Execute; every successful answer serialises |
| `Tools.SentRequest` | internal/tools/manager.go:88 | only the order-detail tool sends a request, and only when its Execute succeeds |
| `Manager.Registered` | internal/tools/manager.go:18-54 | each of the three names is registered exactly when its Enabled flag is set, with its tool; nothing else is; every tool is stored under its own name |
| `Manager.UnimplementedToolsIgnored` | internal/tools/manager.go:35-51 | the knowledge and order-log settings change nothing |
| `Manager.ListingsAgree` | internal/tools/manager.go:72-79 | two listings of the same registry have the same length and the same definitions, so the caller argument makes no difference |
| `Manager.Manager.constructor` | internal/tools/manager.go:18-54 | NewManager's map is `Registered(config)` |
| `Manager.Manager.GetTool` | internal/tools/manager.go:57-60 | a tool is found exactly when its name is a key, and it is the one stored there |
| `Manager.Manager.GetAllTools` | internal/tools/manager.go:63-69 | one entry per registered tool: as many entries as map entries, each one stored in the map, every tool present, no name repeated |
| `Manager.Manager.GetToolDefinitions` | internal/tools/manager.go:72-79 | one definition per registered tool: as many entries as map entries, each the definition of the tool under its name, every tool's definition present, no name repeated |
| `Manager.Manager.ExecuteTool` | internal/tools/manager.go:82-89 | an unregistered name fails with "tool not found: <name>"; a registered one runs its tool |
| `Manager.Manager.ToolRequest` | internal/tools/manager.go:83-86 | an unregistered name runs no tool and sends nothing |
| `Manager.Manager.ExecutedCall` | internal/tools/manager.go:96-117 | a call keeps its ID, type and function; its result decodes to the tool's answer, or is `{"error": <msg>}` when the tool fails |
| `Manager.Manager.ExecuteToolCalls` | internal/tools/manager.go:92-121 | the error is always nil; the results are as many as the calls; the i-th result is the i-th call executed, so a failure does not stop the batch |
| `Manager.ErrorObject` | internal/tools/manager.go:102-105 | an object whose `error` member is the message, and which serialises |
| `Manager.ResultPayload` | internal/tools/manager.go:100-116 | a failing tool gives the error object; a successful answer gives its serialisation, or the "failed to serialize result: " error object when it cannot be serialised |
| `Router.ReplaceAll` | internal/services/router.go:147 | replacing a non-empty pattern by itself leaves the text unchanged; `ReplaceAllNoOccurrence`, `ReplaceAllStep` and `ReplaceAllMatch` below fix its result on every text for a non-empty pattern, as a left-to-right scan that replaces each non-overlapping occurrence |
| `Router.InsertEverywhere` | internal/services/router.go:147 | with an empty pattern the result's length is n + (n+1)·m for a text of length n and a replacement of length m: the text plus one copy of the replacement before each character and one at the end |
| `Router.InsertEverywhereContents` | internal/services/router.go:147 | with an empty pattern the i-th character comes right after the i-th copy of the replacement, and one more copy ends the text |
| `Router.ReplaceAllNoOccurrence` | internal/services/router.go:147 | a text without the pattern comes back unchanged |
| `Router.ReplaceAllSkip` | internal/services/router.go:147 | text in which the pattern cannot start is copied as it is |
| `Router.ReplaceAllStep` | internal/services/router.go:147 | when no occurrence starts at the first character, that character is copied and the scan goes on at the next one |
| `Router.BraceBeforePlaceholder` | internal/services/router.go:147 | a `{` right before the placeholder is copied and the placeholder after it is still replaced: `{{user_input}` becomes `{` followed by the input |
| `Router.ReplaceAllMatch` | internal/services/router.go:147 | an occurrence at the front is replaced, and scanning continues after it |
| `Router.BuildIntentPrompt` | internal/services/router.go:127-150 | the template with the user's input in place of its single placeholder: the same prefix and suffix for every input |
| `Router.TemplateFilled` | internal/services/router.go:128-147 | replacing the placeholder in the template yields prefix + input + suffix |
| `Router.FillSingle` | internal/services/router.go:147 | a template holding the placeholder once gets the input in its place |
| `Router.PlaceholderInInputKept` | internal/services/router.go:147 | a placeholder inside the user's input is not expanded again |
| `Router.IntentMessages` | internal/services/router.go:31-44 | exactly two messages: the prompt as assistant, then the input as user |
| `Router.ExtractIntent` | internal/services/router.go:153-171 | `""` for no reply, an empty reply or one that does not decode; otherwise the decoded `intent` field, which is a member of the reply |
| `Router.NumericConfidenceYieldsNoIntent` | internal/services/router.go:159-167 | a reply with a numeric `confidence` yields no intent |
| `Router.StringRepliedIntent` | internal/services/router.go:159-170 | a reply whose three members are strings yields its intent |
| `Router.AIClient.constructor` | pkg/types/types.go:64-67 | a client with the given backend and no calls yet |
| `Router.AIClient.Chat` | pkg/types/types.go:66 | the call is recorded, and the reply is the backend's answer to it |
| `Router.RouterService.constructor` | internal/services/router.go:20-26 | the service holds the given client and registry |
| `Router.RouterService.Route` | internal/services/router.go:29-68 | the first AI call gets the two intent messages and no tools; if it fails, Route fails with "AI响应失败: " and makes no further call; no intent fails with "未识别到用户意图"; knowledge_qa answers nothing with no further call; order_diagnosis diagnoses; any other intent fails; no tool runs except in the diagnosis |
| `Router.RouterService.HandleOrderDiagnosis` | internal/services/router.go:174-203 | fails with "order detail tool not found" and makes no call without the order tool; otherwise makes one AI call with the same messages and every definition; fails with that call; answers its reply when it asks for no tool; otherwise executes exactly the calls it asks for and answers nothing |
| `Router.RouterService.HandleKnowledgeQA` | internal/services/router.go:206-209 | answers nothing |
| `Ollama.ToApiTool` | pkg/ollama/client.go:60-64 | an api.Tool with the definition's type, name, description and schema |
| `Ollama.BuildChatRequest` | pkg/ollama/client.go:41-66 | the model is copied and streaming is off; messages are copied role and content by index; tools are set exactly when there are any, one per definition, in order |
| `Ollama.CallId` | pkg/ollama/client.go:109 | "call_" followed by decimal digits that denote the index, with no leading zero unless the index is 0 |
| `Ollama.CallIdsDistinct` | pkg/ollama/client.go:109 | different indices get different identifiers |
| `Ollama.ConvertResponse` | pkg/ollama/client.go:98-120 | the content and done flag are copied; as many tool calls as in the reply, the i-th with ID "call_i", type "function", its name and arguments, and no result; the IDs are distinct |

## Left out

- HTTP transport, wiring and configuration loading (`internal/handlers`, `cmd/server`, viper in `internal/config/config.go`) are I/O. Only the `ToolsConfig` and `ToolConfig` shapes are kept.
- `NewClient` and the goroutine, channels, context cancellation and timeout of `ollama.Chat` are concurrency and network. Because of this, `Router.AIClient.Chat` answers through the `respond` oracle.
- The actual HTTP GET of the order-detail tool is an effect whose outcome is the parameter `HttpOutcome`: the URL rejected by `http.NewRequest`, a transport error, or an answer. Whether a given URL is rejected is part of that outcome, not computed from the text. The tool answers the same whatever the outcome.
- `rand.Seed`, `rand.Float64`, `rand.Intn` and `time.Now` are the fields of `Weather.WeatherSample`.
- `log.Printf` is not modelled.
- The unreachable tail of `Route` (`internal/services/router.go:70-116`) is not modelled: no input reaches it. The unused `buildSystemPrompt` is not modelled either.
- `Router.RouterService.HandleOrderDiagnosis`: the "failed to execute tools" branch (`internal/services/router.go:198-200`) is omitted, because `ExecuteToolCalls` always returns a nil error.
- The internals of `encoding/json` are not modelled: no parser or printer, the exact text of serialisations, and case-insensitive key matching. `Unmarshal` on something that is not JSON gives one of two syntax-error messages, not Go's exact wording for every input.
- `Encoding.Marshal`: its error text is "json: unsupported value"; Go appends the offending value ("NaN", "+Inf" or "-Inf"), which `JNonFinite` does not distinguish. No answer of the modelled tools reaches it, since each serialises.
- `Encoding.DecodeStruct` and `Calculator.DecodeRequest`: a JSON number is stored in a float64 field as the exact real it denotes, with no float64 range check and no rounding. Go rejects `{"operation":"add","a":1e400,"b":1}` with "invalid calculate request: json: cannot unmarshal number 1e400 into Go struct field CalculateRequest.a of type float64", where the model decodes it and adds. Go reads `1e-400` as 0, so dividing by it fails with "division by zero is not allowed", where the model divides.
- `Ollama.ToApiTool`: the JSON round trip of each definition through `api.Tool` is modelled as a field copy.
- `Ollama.ConvertResponse`: the `%v` rendering of the argument map into the `Arguments` bytes depends on the Ollama library's types. An `ApiToolCall` carries the rendered arguments.
- `Router.ExtractIntent`: reading the reply text as JSON is the parameter `parse`.
- `Calculator.Calculate` does not model float64 rounding or overflow. Add, subtract, multiply and divide are exact on reals, so the NaN/infinity check can only fail for `pow`. In Go, an overflowing product or sum also fails with "calculation resulted in invalid number".
- `Calculator.Calculate`: `math.Pow` is the parameter `pow`.
- `Format.Fixed2` rounds the exact decimal value. Go rounds the binary float64 nearest to it, so values such as 2.675 can print differently.
- `Weather.GetMockWeather`: the jitter, the Fahrenheit conversion and the truncation are computed on reals, not float64.
- `Weather.Truncate`: does not model the out-of-range behaviour of a float-to-int conversion.
- `Manager.Manager.GetAllTools` and `Manager.Manager.GetToolDefinitions` fix no order, because Go's map iteration order is unspecified. Each listing holds every registered entry exactly once.
- `Constants.GetKnowledgeId`: a Dafny function cannot change the table, so "lookup does not modify the map" holds by construction and has no lemma of its own.
