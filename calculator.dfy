/** The `calculate` tool: one arithmetic operation on two numbers. */
module Calculator {
  import opened Wrappers
  import opened Encoding
  import opened Format
  import opened Types

  const Name: string := "calculate"
  const Description: string := "执行基本的数学运算，支持加减乘除和幂运算"

  /** The operations the tool accepts, in the order its schema lists them. */
  const Operations: seq<string> := ["add", "subtract", "multiply", "divide", "power"]

  /** The operator each operation prints in its expression. */
  const Symbols: map<string, string> := map["add" := "+", "subtract" := "-", "multiply" := "×", "divide" := "÷", "power" := "^"]

  /** A float64 result as the validity check sees it: a finite number, or NaN or an infinity. */
  datatype Float = Finite(value: real) | NonFinite

  datatype CalculateRequest = CalculateRequest(operation: string, a: real, b: real)

  datatype CalculateResponse = CalculateResponse(operation: string, a: real, b: real, result: real, expression: string)

  const RequestFields: seq<Field> := [Field("operation", GoString), Field("a", GoFloat64), Field("b", GoFloat64)]

  const OperationProperty: Json :=
    JObj([Member("type", JStr("string")), Member("description", JStr("运算类型")), Member("enum", Strings(Operations))])
  const Properties: Json :=
    JObj([Member("operation", OperationProperty),
          Member("a", JObj([Member("type", JStr("number")), Member("description", JStr("第一个数字"))])),
          Member("b", JObj([Member("type", JStr("number")), Member("description", JStr("第二个数字"))]))])
  const Parameters: Json :=
    JObj([Member("type", JStr("object")), Member("properties", Properties), Member("required", Strings(["operation", "a", "b"]))])

  /** The tool's definition; its parameter schema is described by DefinitionSchema. */
  function Definition(): (d: ToolDefinition)
    ensures d.kind == "function" && d.func.name == Name && d.func.description == Description
  {
    ToolDefinition("function", FunctionDef(Name, Description, Parameters))
  }

  /** The schema is an object whose properties are the enumerated operation and two numbers, all required. */
  lemma DefinitionSchema()
    ensures var p := Definition().func.parameters;
            && Path(p, ["type"]) == Some(JStr("object"))
            && Path(p, ["properties", "operation", "enum"]) == Some(Strings(Operations))
            && Path(p, ["properties", "a", "type"]) == Some(JStr("number"))
            && Path(p, ["properties", "b", "type"]) == Some(JStr("number"))
            && Path(p, ["required"]) == Some(Strings(["operation", "a", "b"]))
  {
    LookupAt(Parameters.members, 0);
    LookupAt(Parameters.members, 2);
    PathOne(Parameters, "type", JStr("object"));
    PathOne(Parameters, "required", Strings(["operation", "a", "b"]));
    PropertySchema("operation", "enum", Strings(Operations));
    PropertySchema("a", "type", JStr("number"));
    PropertySchema("b", "type", JStr("number"));
  }

  /** One step into the schema's properties and one more into the named property. */
  lemma PropertySchema(name: string, key: string, v: Json)
    requires (name, key, v) in {("operation", "enum", Strings(Operations)), ("a", "type", JStr("number")), ("b", "type", JStr("number"))}
    ensures Path(Parameters, ["properties", name, key]) == Some(v)
  {
    LookupAt(Parameters.members, 1);
    var k := if name == "operation" then 0 else if name == "a" then 1 else 2;
    LookupAt(Properties.members, k);
    var prop := Properties.members[k].value;
    var j := if name == "operation" then 2 else 0;
    LookupAt(prop.members, j);
    PathThree(Parameters, "properties", name, key, Properties, prop, v);
  }

  /** Unmarshal of the arguments into a CalculateRequest; absent fields stay "" and 0. */
  function DecodeRequest(args: Raw): (r: Result<CalculateRequest, string>)
    ensures r.Ok? <==> args.Doc? && FitsStruct(args.value, RequestFields)
    ensures r.Ok? ==> r.value == CalculateRequest(StringField(args.value, "operation"),
                                                  NumberField(args.value, "a"), NumberField(args.value, "b"))
  {
    match DecodeStruct(args, "tools.CalculateRequest", "CalculateRequest", RequestFields)
    case Err(e) => Err(e)
    case Ok(j) => Ok(CalculateRequest(StringField(j, "operation"), NumberField(j, "a"), NumberField(j, "b")))
  }

  /** The `%.2f` expression an operation prints: "<a> <op> <b> = <result>". */
  function Expression(a: real, symbol: string, b: real, result: real): string {
    Fixed2(a) + " " + symbol + " " + Fixed2(b) + " = " + Fixed2(result)
  }

  /** The operation switch: the raw float64 result, or the error of an impossible operation. */
  function Evaluate(req: CalculateRequest, pow: (real, real) -> Float): Result<Float, string> {
    if req.operation == "add" then Ok(Finite(req.a + req.b))
    else if req.operation == "subtract" then Ok(Finite(req.a - req.b))
    else if req.operation == "multiply" then Ok(Finite(req.a * req.b))
    else if req.operation == "divide" then
      if req.b == 0.0 then Err("division by zero is not allowed") else Ok(Finite(req.a / req.b))
    else if req.operation == "power" then Ok(pow(req.a, req.b))
    else Err("unsupported operation: " + req.operation)
  }

  /**
   * The calculation behind Execute, after decoding. `pow` is math.Pow, which the model
   * does not compute.
   */
  function Calculate(req: CalculateRequest, pow: (real, real) -> Float): (r: Result<CalculateResponse, string>)
    ensures req.operation !in Operations ==> r == Err("unsupported operation: " + req.operation)
    ensures req.operation == "add" ==> r.Ok? && r.value.result == req.a + req.b
    ensures req.operation == "subtract" ==> r.Ok? && r.value.result == req.a - req.b
    ensures req.operation == "multiply" ==> r.Ok? && r.value.result == req.a * req.b
    ensures req.operation == "divide" ==>
              if req.b == 0.0 then r == Err("division by zero is not allowed")
              else r.Ok? && r.value.result == req.a / req.b
    ensures req.operation == "power" ==>
              if pow(req.a, req.b).NonFinite? then r == Err("calculation resulted in invalid number")
              else r.Ok? && r.value.result == pow(req.a, req.b).value
    ensures r.Ok? ==> req.operation in Symbols
    ensures r.Ok? ==> r.value.operation == req.operation && r.value.a == req.a && r.value.b == req.b
    ensures r.Ok? ==> r.value.expression == Expression(req.a, Symbols[req.operation], req.b, r.value.result)
  {
    match Evaluate(req, pow)
    case Err(e) => Err(e)
    case Ok(NonFinite) => Err("calculation resulted in invalid number")
    case Ok(Finite(v)) =>
      Ok(CalculateResponse(req.operation, req.a, req.b, v, Expression(req.a, Symbols[req.operation], req.b, v)))
  }

  /** The response as the registry serialises it (struct fields in declaration order). */
  function ResponseJson(resp: CalculateResponse): (j: Json)
    ensures Encodable(j)
  {
    JObj([Member("operation", JStr(resp.operation)), Member("a", JNum(resp.a)), Member("b", JNum(resp.b)),
            Member("result", JNum(resp.result)), Member("expression", JStr(resp.expression))])
  }

  /** The tool's Execute: decode, calculate, answer with the response or an error. */
  function Execute(args: Raw, pow: (real, real) -> Float): (r: Result<Json, string>)
    ensures DecodeRequest(args).Err? ==>
              r == Err("invalid calculate request: " + DecodeRequest(args).error)
    ensures DecodeRequest(args).Ok? ==>
              var c := Calculate(DecodeRequest(args).value, pow);
              (c.Err? ==> r == Err(c.error)) && (c.Ok? ==> r == Ok(ResponseJson(c.value)))
    ensures r.Ok? ==> Encodable(r.value)
  {
    match DecodeRequest(args)
    case Err(e) => Err("invalid calculate request: " + e)
    case Ok(req) =>
      match Calculate(req, pow)
      case Err(e) => Err(e)
      case Ok(resp) => Ok(ResponseJson(resp))
  }

  /** Dividing by zero fails whatever the dividend. */
  lemma DivideByZeroFails(a: real, pow: (real, real) -> Float)
    ensures var j := JObj([Member("operation", JStr("divide")), Member("a", JNum(a)), Member("b", JNum(0.0))]);
            Encodable(j) && Execute(Doc(j), pow) == Err("division by zero is not allowed")
  {
    var j := JObj([Member("operation", JStr("divide")), Member("a", JNum(a)), Member("b", JNum(0.0))]);
    assert FitsStruct(j, RequestFields);
    DecodeSingles(j, "divide", a, 0.0);
  }

  /** Adding 2 and 3 answers 5, printed as "2.00 + 3.00 = 5.00". */
  lemma AddTwoAndThree(pow: (real, real) -> Float)
    ensures Execute(Doc(JObj([Member("operation", JStr("add")), Member("a", JNum(2.0)), Member("b", JNum(3.0))])), pow)
            == Ok(ResponseJson(CalculateResponse("add", 2.0, 3.0, 5.0, "2.00" + " " + "+" + " " + "3.00" + " = " + "5.00")))
  {
    var j := JObj([Member("operation", JStr("add")), Member("a", JNum(2.0)), Member("b", JNum(3.0))]);
    assert FitsStruct(j, RequestFields);
    DecodeSingles(j, "add", 2.0, 3.0);
    assert DecodeRequest(Doc(j)) == Ok(CalculateRequest("add", 2.0, 3.0));
    AddExpression();
  }

  lemma AddExpression()
    ensures Expression(2.0, Symbols["add"], 3.0, 5.0) == "2.00" + " " + "+" + " " + "3.00" + " = " + "5.00"
  {
    assert Symbols["add"] == "+";
    Fixed2Whole(2);
    Fixed2Whole(3);
    Fixed2Whole(5);
    assert Digit(2) == '2' && Digit(3) == '3' && Digit(5) == '5';
  }

  /** A well-typed request document decodes to its three fields. */
  lemma DecodeSingles(j: Json, op: string, a: real, b: real)
    requires j == JObj([Member("operation", JStr(op)), Member("a", JNum(a)), Member("b", JNum(b))])
    ensures StringField(j, "operation") == op && NumberField(j, "a") == a && NumberField(j, "b") == b
  {
    LastStringAt(j.members, 0);
    LastNumberAt(j.members, 1);
    LastNumberAt(j.members, 2);
  }

  /** `%.2f` of a small whole number. */
  lemma Fixed2Whole(n: nat)
    requires n < 10
    ensures Fixed2(n as real) == [Digit(n), '.', '0', '0']
  {
    assert Cents(n as real) == 100 * n;
    assert NatToString(n) == [Digit(n)];
  }
}
