/** The already-loaded tool configuration the registry is built from. */
module Config {

  /** One tool's settings. */
  datatype ToolConfig = ToolConfig(enabled: bool, baseUrl: string, apiKey: string, bizSystem: string)

  /** The settings of every configurable tool, enabled or not. */
  datatype ToolsConfig = ToolsConfig(
    weather: ToolConfig,
    calculator: ToolConfig,
    zltxOrderDetail: ToolConfig,
    zltxOrderLog: ToolConfig,
    knowledge: ToolConfig)
}
