/**
 * The tool registry: a map from tool name to tool, filled from the configuration, with
 * lookup, listing and batch execution of the tool calls an AI reply asks for.
 */
module Manager {
  import opened Wrappers
  import opened Encoding
  import opened Types
  import opened Config
  import opened Tools
  import Calculator
  import Weather
  import ZltxOrderDetail
  import Constants

  /** The registry a configuration yields: one entry per enabled tool that has an implementation. */
  function Registered(config: ToolsConfig): (m: map<string, Tool>)
    ensures Weather.Name in m <==> config.weather.enabled
    ensures Calculator.Name in m <==> config.calculator.enabled
    ensures ZltxOrderDetail.Name in m <==> config.zltxOrderDetail.enabled
    ensures m.Keys <= {Weather.Name, Calculator.Name, ZltxOrderDetail.Name}
    ensures Weather.Name in m ==> m[Weather.Name] == WeatherTool(true)
    ensures Calculator.Name in m ==> m[Calculator.Name] == CalculatorTool
    ensures ZltxOrderDetail.Name in m ==> m[ZltxOrderDetail.Name] == ZltxOrderDetailTool(config.zltxOrderDetail)
    ensures forall name :: name in m ==> Name(m[name]) == name
  {
    var w: map<string, Tool> := if config.weather.enabled then map[Weather.Name := WeatherTool(true)] else map[];
    var c: map<string, Tool> := if config.calculator.enabled then map[Calculator.Name := CalculatorTool] else map[];
    var z: map<string, Tool> :=
      if config.zltxOrderDetail.enabled then map[ZltxOrderDetail.Name := ZltxOrderDetailTool(config.zltxOrderDetail)]
      else map[];
    w + c + z
  }

  /** The knowledge and order-log settings register nothing, whatever their flags say. */
  lemma UnimplementedToolsIgnored(config: ToolsConfig, knowledge: ToolConfig, orderLog: ToolConfig)
    ensures Registered(config.(knowledge := knowledge, zltxOrderLog := orderLog)) == Registered(config)
  {
  }

  /**
   * defs holds the definition of every tool in the map exactly once, in some order: as
   * many entries as tools, each the definition of the tool under its name, none repeated.
   */
  ghost predicate ListsDefinitions(defs: seq<ToolDefinition>, tools: map<string, Tool>) {
    && |defs| == |tools|
    && (forall i :: 0 <= i < |defs| ==> defs[i].func.name in tools && Definition(tools[defs[i].func.name]) == defs[i])
    && (forall name :: name in tools ==> Definition(tools[name]) in defs)
    && (forall i, j :: 0 <= i < j < |defs| ==> defs[i].func.name != defs[j].func.name)
  }

  /**
   * Two listings of the same registry hold the same definitions, as many of each: they
   * differ at most in order, so whatever caller GetToolDefinitions is asked for, it
   * answers the same definitions.
   */
  lemma ListingsAgree(a: seq<ToolDefinition>, b: seq<ToolDefinition>, tools: map<string, Tool>)
    requires ListsDefinitions(a, tools) && ListsDefinitions(b, tools)
    ensures |a| == |b|
    ensures forall d :: d in a <==> d in b
  {
    forall d | d in a
      ensures d in b
    {
      var i :| 0 <= i < |a| && a[i] == d;
      assert Definition(tools[a[i].func.name]) in b;
    }
    forall d | d in b
      ensures d in a
    {
      var i :| 0 <= i < |b| && b[i] == d;
      assert Definition(tools[b[i].func.name]) in a;
    }
  }

  /**
   * listed holds, once each, the tools of the map that are no longer in rest; rest is
   * what is left of the map to list.
   */
  ghost predicate Listed(listed: seq<Tool>, rest: map<string, Tool>, tools: map<string, Tool>) {
    && (forall k :: k in rest ==> k in tools && rest[k] == tools[k])
    && |listed| + |rest| == |tools|
    && (forall i :: 0 <= i < |listed| ==> Name(listed[i]) in tools && tools[Name(listed[i])] == listed[i] && Name(listed[i]) !in rest)
    && (forall name :: name in tools && name !in rest ==> tools[name] in listed)
    && (forall i, j :: 0 <= i < j < |listed| ==> Name(listed[i]) != Name(listed[j]))
  }

  /** Moving any entry of rest to the end of the listing keeps it exact. */
  lemma ListedStep(listed: seq<Tool>, rest: map<string, Tool>, tools: map<string, Tool>, k: string)
    requires forall name :: name in tools ==> Name(tools[name]) == name
    requires Listed(listed, rest, tools) && k in rest
    ensures |rest - {k}| < |rest|
    ensures Listed(listed + [rest[k]], rest - {k}, tools)
  {
    assert (rest - {k}).Keys == rest.Keys - {k};
  }

  /** The definitions of a listing of every tool, once each, list every definition once each. */
  lemma DefinitionsListed(listed: seq<Tool>, defs: seq<ToolDefinition>, tools: map<string, Tool>)
    requires |listed| == |tools|
    requires forall i :: 0 <= i < |listed| ==> Name(listed[i]) in tools && tools[Name(listed[i])] == listed[i]
    requires forall name :: name in tools ==> tools[name] in listed
    requires forall i, j :: 0 <= i < j < |listed| ==> Name(listed[i]) != Name(listed[j])
    requires |defs| == |listed| && forall i :: 0 <= i < |defs| ==> defs[i] == Definition(listed[i])
    ensures ListsDefinitions(defs, tools)
  {
    forall name | name in tools
      ensures Definition(tools[name]) in defs
    {
      var i :| 0 <= i < |listed| && listed[i] == tools[name];
      assert defs[i] == Definition(tools[name]);
    }
  }

  /** The registry. `tools` maps every registered tool's name to the tool. */
  class Manager {
    var tools: map<string, Tool>

    /** Every tool is stored under its own name. */
    ghost predicate Valid()
      reads this
    {
      forall name :: name in tools ==> Name(tools[name]) == name
    }

    /** NewManager: registers each enabled tool in turn. */
    constructor (config: ToolsConfig)
      ensures tools == Registered(config)
      ensures Valid()
    {
      tools := map[];
      new;
      if config.weather.enabled {
        var weatherTool := WeatherTool(true);
        tools := tools[Name(weatherTool) := weatherTool];
      }
      if config.calculator.enabled {
        var calcTool := CalculatorTool;
        tools := tools[Name(calcTool) := calcTool];
      }
      if config.zltxOrderDetail.enabled {
        var zltxOrderDetailTool := ZltxOrderDetailTool(config.zltxOrderDetail);
        tools := tools[Name(zltxOrderDetailTool) := zltxOrderDetailTool];
      }
    }

    /** The tool registered under name, or None when there is none. */
    function GetTool(name: string): (r: Option<Tool>)
      reads this
      ensures r.Some? <==> name in tools
      ensures r.Some? ==> r.value == tools[name]
    {
      if name in tools then Some(tools[name]) else None
    }

    /** Every registered tool, once each, in an unspecified order. */
    method GetAllTools() returns (r: seq<Tool>)
      requires Valid()
      ensures |r| == |tools|
      ensures forall i :: 0 <= i < |r| ==> Name(r[i]) in tools && tools[Name(r[i])] == r[i]
      ensures forall name :: name in tools ==> tools[name] in r
      ensures forall i, j :: 0 <= i < j < |r| ==> Name(r[i]) != Name(r[j])
    {
      r := [];
      var rest := tools;
      while rest != map[]
        invariant Listed(r, rest, tools)
        decreases |rest|
      {
        var k :| k in rest;
        ListedStep(r, rest, tools, k);
        r := r + [rest[k]];
        rest := rest - {k};
      }
    }

    /**
     * The definition of every registered tool, once each, in an unspecified order. The
     * caller is not consulted: every caller gets the same definitions.
     */
    method GetToolDefinitions(caller: Constants.Caller) returns (r: seq<ToolDefinition>)
      requires Valid()
      ensures ListsDefinitions(r, tools)
    {
      r := [];
      ghost var listed: seq<Tool> := [];
      var rest := tools;
      while rest != map[]
        invariant Listed(listed, rest, tools)
        invariant |r| == |listed| && forall i :: 0 <= i < |r| ==> r[i] == Definition(listed[i])
        decreases |rest|
      {
        var k :| k in rest;
        ListedStep(listed, rest, tools, k);
        r := r + [Definition(rest[k])];
        listed := listed + [rest[k]];
        rest := rest - {k};
      }
      DefinitionsListed(listed, r, tools);
    }

    /** Running the named tool, or "tool not found: <name>" when it is not registered. */
    function ExecuteTool(name: string, args: Raw, pow: (real, real) -> Calculator.Float, effects: Effects)
      : (r: Result<Json, string>)
      reads this
      ensures name !in tools ==> r == Err("tool not found: " + name)
      ensures name in tools ==> r == Execute(tools[name], args, pow, effects)
      ensures r.Ok? ==> Encodable(r.value)
    {
      match GetTool(name)
      case None => Err("tool not found: " + name)
      case Some(tool) => Execute(tool, args, pow, effects)
    }

    /** The HTTP request ExecuteTool sends; an unregistered name runs no tool and sends nothing. */
    function ToolRequest(name: string, args: Raw, effects: Effects): (q: Option<ZltxOrderDetail.HttpRequest>)
      reads this
      ensures name !in tools ==> q == None
      ensures name in tools ==> q == SentRequest(tools[name], args, effects)
    {
      match GetTool(name)
      case None => None
      case Some(tool) => SentRequest(tool, args, effects)
    }

    /**
     * One call with its Result attached: the call unchanged but for Result, which is the
     * serialised output, or the serialised `{"error": <message>}` when the tool fails.
     */
    function ExecutedCall(call: ToolCall, pow: (real, real) -> Calculator.Float, effects: Effects): (r: ToolCall)
      reads this
      ensures r.id == call.id && r.kind == call.kind && r.func == call.func
      ensures r.result.Doc?
      ensures var out := ExecuteTool(call.func.name, call.func.arguments, pow, effects);
              (out.Ok? ==> Unmarshal(r.result) == Ok(out.value))
              && (out.Err? ==> r.result == Doc(ErrorObject(out.error)))
    {
      call.(result := ResultPayload(ExecuteTool(call.func.name, call.func.arguments, pow, effects)))
    }

    /**
     * ExecuteToolCalls: runs every call in order, the i-th consuming effects(i), and answers
     * with a copy of the calls whose Results are filled in. A failing call does not stop the
     * batch, and the error is always nil.
     */
    method ExecuteToolCalls(toolCalls: seq<ToolCall>, pow: (real, real) -> Calculator.Float, effects: nat -> Effects)
      returns (results: seq<ToolCall>, err: Option<string>)
      ensures err == None
      ensures |results| == |toolCalls|
      ensures forall i :: 0 <= i < |toolCalls| ==> results[i] == ExecutedCall(toolCalls[i], pow, effects(i))
    {
      ghost var want := seq(|toolCalls|, j requires 0 <= j < |toolCalls| reads this => ExecutedCall(toolCalls[j], pow, effects(j)));
      var a := new ToolCall[|toolCalls|](_ => ToolCall("", "", FunctionCall("", Nil), Nil));
      for i := 0 to |toolCalls|
        invariant forall j :: 0 <= j < i ==> a[j] == want[j]
      {
        a[i] := toolCalls[i];
        var out := ExecuteTool(toolCalls[i].func.name, toolCalls[i].func.arguments, pow, effects(i));
        var payload := ResultPayload(out);
        assert toolCalls[i].(result := payload) == want[i];
        a[i] := a[i].(result := payload);
      }
      results := a[..];
      assert results == want;
      err := None;
    }
  }

  /** The object `{"error": <message>}` a failing call's Result holds. */
  function ErrorObject(message: string): (j: Json)
    ensures Encodable(j)
    ensures j.JObj? && Lookup(j.members, "error") == Some(JStr(message))
  {
    JObj([Member("error", JStr(message))])
  }

  /**
   * A Result payload: the output's encoding, an error object for a failing tool, or an
   * error object naming the serialisation error when the output cannot be encoded.
   */
  function ResultPayload(out: Result<Json, string>): (r: Raw)
    ensures r.Doc?
    ensures out.Ok? && Encodable(out.value) ==> r == Doc(out.value)
    ensures out.Ok? && !Encodable(out.value) ==> r == Doc(ErrorObject("failed to serialize result: " + "json: unsupported value"))
    ensures out.Err? ==> r == Doc(ErrorObject(out.error))
  {
    match out
    case Err(msg) => Marshal(ErrorObject(msg)).value
    case Ok(value) =>
      match Marshal(value)
      case Ok(bytes) => bytes
      case Err(e) => Marshal(ErrorObject("failed to serialize result: " + e)).value
  }
}
