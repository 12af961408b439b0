/**
 * The `zltxOrderDetail` tool: looks an order up by its number in the direct-supply
 * back office. It sends one authorised GET request, ignores whatever comes back and
 * answers with an empty detail record.
 */
module ZltxOrderDetail {
  import opened Wrappers
  import opened Encoding
  import opened Types
  import opened Config

  const Name: string := "zltxOrderDetail"
  const Description: string := "获取直连天下订单详情"

  const RequestFields: seq<Field> := [Field("number", GoString)]

  const Parameters: Json :=
    JObj([Member("type", JStr("object")),
          Member("properties", JObj([Member("number", JObj([Member("type", JStr("string")),
                                                            Member("description", JStr("订单编号/流水号"))]))])),
          Member("required", Strings(["number"]))])

  /** The tool's definition; its parameter schema is described by DefinitionSchema. */
  function Definition(): (d: ToolDefinition)
    ensures d.kind == "function" && d.func.name == Name && d.func.description == Description
  {
    ToolDefinition("function", FunctionDef(Name, Description, Parameters))
  }

  /** The schema is an object with one required string property, `number`. */
  lemma DefinitionSchema()
    ensures var p := Definition().func.parameters;
            && Path(p, ["type"]) == Some(JStr("object"))
            && Path(p, ["required"]) == Some(Strings(["number"]))
            && Path(p, ["properties", "number", "type"]) == Some(JStr("string"))
  {
    var properties := Parameters.members[1].value;
    var number := properties.members[0].value;
    LookupAt(Parameters.members, 0);
    LookupAt(Parameters.members, 1);
    LookupAt(Parameters.members, 2);
    PathOne(Parameters, "type", JStr("object"));
    PathOne(Parameters, "required", Strings(["number"]));
    LookupAt(properties.members, 0);
    LookupAt(number.members, 0);
    PathThree(Parameters, "properties", "number", "type", properties, number, JStr("string"));
  }

  /** An HTTP request as the tool builds it: method, URL and Authorization header. */
  datatype HttpRequest = HttpRequest(verb: string, url: string, authorization: string)

  /** What became of the request: it could not be built, it could not be sent, or it was answered. */
  datatype HttpOutcome = BadRequest | TransportError | Answered

  /** The order-detail request for a number, addressed and authorised from the tool's configuration. */
  function RequestFor(config: ToolConfig, number: string): (q: HttpRequest)
    ensures q.verb == "GET"
    ensures q.url == config.baseUrl + "/admin/direct/ai/" + number
    ensures q.authorization == "Bearer " + config.apiKey
  {
    HttpRequest("GET", config.baseUrl + "/admin/direct/ai/" + number, "Bearer " + config.apiKey)
  }

  /** The zero ZltxOrderDetailResponse as it serialises: code 0, no error, nil maps. */
  const EmptyResponse: Json :=
    JObj([Member("code", JNum(0.0)), Member("error", JStr("")),
          Member("data", JObj([Member("direct", JNull), Member("order", JNull)]))])

  /** getZltxOrderDetail: the same empty response, however the request fared. */
  function GetZltxOrderDetail(config: ToolConfig, number: string, outcome: HttpOutcome): (r: Json)
    ensures r == EmptyResponse
    ensures Encodable(r)
  {
    match outcome
    case BadRequest => EmptyResponse
    case TransportError => EmptyResponse
    case Answered => EmptyResponse
  }

  /** Unmarshal of the arguments into a ZltxOrderDetailRequest: the number, "" when absent. */
  function DecodeRequest(args: Raw): (r: Result<string, string>)
    ensures r.Ok? <==> args.Doc? && FitsStruct(args.value, RequestFields)
    ensures r.Ok? ==> r.value == StringField(args.value, "number")
  {
    match DecodeStruct(args, "tools.ZltxOrderDetailRequest", "ZltxOrderDetailRequest", RequestFields)
    case Err(e) => Err(e)
    case Ok(j) => Ok(StringField(j, "number"))
  }

  /** The tool's Execute: decode, require a number, then query and answer with the empty record. */
  function Execute(config: ToolConfig, args: Raw, outcome: HttpOutcome): (r: Result<Json, string>)
    ensures DecodeRequest(args).Err? ==> r == Err("invalid zltxOrderDetail request: " + DecodeRequest(args).error)
    ensures DecodeRequest(args).Ok? && DecodeRequest(args).value == "" ==> r == Err("number is required")
    ensures DecodeRequest(args).Ok? && DecodeRequest(args).value != "" ==> r == Ok(EmptyResponse)
    ensures r.Ok? ==> Encodable(r.value)
  {
    match DecodeRequest(args)
    case Err(e) => Err("invalid zltxOrderDetail request: " + e)
    case Ok(number) =>
      if number == "" then Err("number is required")
      else Ok(GetZltxOrderDetail(config, number, outcome))
  }

  /**
   * The request Execute sends: one for the decoded number, exactly when Execute succeeds
   * and http.NewRequest accepted the URL (the outcome is not BadRequest).
   */
  function SentRequest(config: ToolConfig, args: Raw, outcome: HttpOutcome): (q: Option<HttpRequest>)
    ensures q.Some? <==> Execute(config, args, outcome).Ok? && !outcome.BadRequest?
    ensures q.Some? ==> DecodeRequest(args).Ok? && q.value == RequestFor(config, DecodeRequest(args).value)
  {
    match DecodeRequest(args)
    case Err(_) => None
    case Ok(number) => if number == "" || outcome.BadRequest? then None else Some(RequestFor(config, number))
  }

  /** A URL that NewRequest rejects: Execute still answers with the empty record, but nothing is sent. */
  lemma RejectedUrlSendsNothing(config: ToolConfig, number: string)
    requires number != ""
    ensures var j := JObj([Member("number", JStr(number))]);
            && Encodable(j)
            && Execute(config, Doc(j), BadRequest) == Ok(EmptyResponse)
            && SentRequest(config, Doc(j), BadRequest) == None
  {
    var j := JObj([Member("number", JStr(number))]);
    assert FitsStruct(j, RequestFields);
    LastStringAt(j.members, 0);
  }

  /** Empty arguments (a nil RawMessage) are rejected before any request is sent. */
  lemma EmptyArgumentsRejected(config: ToolConfig, outcome: HttpOutcome)
    ensures Execute(config, Nil, outcome) == Err("invalid zltxOrderDetail request: " + "unexpected end of JSON input")
    ensures SentRequest(config, Nil, outcome) == None
  {
    assert Unmarshal(Nil) == Err("unexpected end of JSON input");
    assert DecodeStruct(Nil, "tools.ZltxOrderDetailRequest", "ZltxOrderDetailRequest", RequestFields) == Err("unexpected end of JSON input");
    assert DecodeRequest(Nil) == Err("unexpected end of JSON input");
  }

  /** An object with a non-empty number, once its URL is accepted, queries that order and answers with the empty record. */
  lemma NumberQueried(config: ToolConfig, number: string, outcome: HttpOutcome)
    requires number != "" && !outcome.BadRequest?
    ensures var j := JObj([Member("number", JStr(number))]);
            && Encodable(j)
            && Execute(config, Doc(j), outcome) == Ok(EmptyResponse)
            && SentRequest(config, Doc(j), outcome) == Some(HttpRequest("GET", config.baseUrl + "/admin/direct/ai/" + number,
                                                             "Bearer " + config.apiKey))
  {
    var j := JObj([Member("number", JStr(number))]);
    assert FitsStruct(j, RequestFields);
    LastStringAt(j.members, 0);
  }
}
