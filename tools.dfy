/**
 * The tools the registry can hold. Go's Tool interface has exactly three implementations
 * in the services, so a tool is one of three cases, each carrying the state its Go
 * struct holds.
 */
module Tools {
  import opened Wrappers
  import opened Encoding
  import opened Types
  import opened Config
  import Calculator
  import Weather
  import ZltxOrderDetail

  datatype Tool =
    | CalculatorTool
    | WeatherTool(mockData: bool)
    | ZltxOrderDetailTool(config: ToolConfig)

  /**
   * What one Execute may consume from outside the model: the weather tool's random
   * draws and clock reading, and how the order-detail tool's HTTP request fared.
   */
  datatype Effects = Effects(weather: Weather.WeatherSample, http: ZltxOrderDetail.HttpOutcome)

  function Name(t: Tool): (name: string)
    ensures name in {Calculator.Name, Weather.Name, ZltxOrderDetail.Name}
  {
    match t
    case CalculatorTool => Calculator.Name
    case WeatherTool(_) => Weather.Name
    case ZltxOrderDetailTool(_) => ZltxOrderDetail.Name
  }

  function Description(t: Tool): string {
    match t
    case CalculatorTool => Calculator.Description
    case WeatherTool(_) => Weather.Description
    case ZltxOrderDetailTool(_) => ZltxOrderDetail.Description
  }

  /** A tool's definition describes it under its own name and description. */
  function Definition(t: Tool): (d: ToolDefinition)
    ensures d.kind == "function" && d.func.name == Name(t) && d.func.description == Description(t)
  {
    match t
    case CalculatorTool => Calculator.Definition()
    case WeatherTool(_) => Weather.Definition()
    case ZltxOrderDetailTool(_) => ZltxOrderDetail.Definition()
  }

  /**
   * A tool's Execute on encoded arguments: the value it answers with, or its error. `pow`
   * is math.Pow for the calculator; `effects` is what the call consumes from outside.
   */
  function Execute(t: Tool, args: Raw, pow: (real, real) -> Calculator.Float, effects: Effects): (r: Result<Json, string>)
    ensures t.CalculatorTool? ==> r == Calculator.Execute(args, pow)
    ensures t.WeatherTool? ==> r == Weather.Execute(t.mockData, args, effects.weather)
    ensures t.ZltxOrderDetailTool? ==> r == ZltxOrderDetail.Execute(t.config, args, effects.http)
    ensures r.Ok? ==> Encodable(r.value)
  {
    match t
    case CalculatorTool => Calculator.Execute(args, pow)
    case WeatherTool(mockData) => Weather.Execute(mockData, args, effects.weather)
    case ZltxOrderDetailTool(config) => ZltxOrderDetail.Execute(config, args, effects.http)
  }

  /** The HTTP request a tool's Execute sends: only the order-detail tool sends one, and only on success. */
  function SentRequest(t: Tool, args: Raw, effects: Effects): (q: Option<ZltxOrderDetail.HttpRequest>)
    ensures q.Some? ==> t.ZltxOrderDetailTool? && ZltxOrderDetail.Execute(t.config, args, effects.http).Ok?
    ensures t.ZltxOrderDetailTool? ==> q == ZltxOrderDetail.SentRequest(t.config, args, effects.http)
  {
    if t.ZltxOrderDetailTool? then ZltxOrderDetail.SentRequest(t.config, args, effects.http) else None
  }
}
