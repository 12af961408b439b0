/**
 * The `get_weather` tool. It answers with mock data: a per-city base temperature, jittered
 * and converted to the requested unit, and randomly drawn condition, humidity and wind.
 */
module Weather {
  import opened Wrappers
  import opened Encoding
  import opened Types

  const Name: string := "get_weather"
  const Description: string := "获取指定城市的天气信息"

  /** A draw of rand.Float64: a number in [0, 1). */
  type Fraction = r: real | 0.0 <= r < 1.0

  /** A draw of rand.Intn(n): a number in [0, n). */
  type Below5 = i: nat | i < 5
  type Below20 = i: nat | i < 20
  type Below40 = i: nat | i < 40

  /**
   * The random draws and the clock reading one call of getMockWeather consumes, in the
   * order it makes them; `timestamp` is time.Now formatted as "2006-01-02 15:04:05".
   */
  datatype WeatherSample = WeatherSample(
    jitter: Fraction, condition: Below5, humidity: Below40, wind: Below20, timestamp: string)

  datatype WeatherRequest = WeatherRequest(city: string, unit: string)

  datatype WeatherResponse = WeatherResponse(
    city: string, temperature: real, unit: string, condition: string,
    humidity: int, windSpeed: real, timestamp: string)

  const RequestFields: seq<Field> := [Field("city", GoString), Field("unit", GoString)]

  const CityProperty: Json :=
    JObj([Member("type", JStr("string")), Member("description", JStr("城市名称，如：北京、上海、广州"))])
  const UnitProperty: Json :=
    JObj([Member("type", JStr("string")),
          Member("description", JStr("温度单位，celsius(摄氏度)或fahrenheit(华氏度)")),
          Member("enum", Strings(["celsius", "fahrenheit"])),
          Member("default", JStr("celsius"))])
  const Parameters: Json :=
    JObj([Member("type", JStr("object")),
          Member("properties", JObj([Member("city", CityProperty), Member("unit", UnitProperty)])),
          Member("required", Strings(["city"]))])

  /** The tool's definition; its parameter schema is described by DefinitionSchema. */
  function Definition(): (d: ToolDefinition)
    ensures d.kind == "function" && d.func.name == Name && d.func.description == Description
  {
    ToolDefinition("function", FunctionDef(Name, Description, Parameters))
  }

  /** The schema requires only the city; the unit is celsius or fahrenheit, celsius by default. */
  lemma DefinitionSchema()
    ensures var p := Definition().func.parameters;
            && Path(p, ["type"]) == Some(JStr("object"))
            && Path(p, ["required"]) == Some(Strings(["city"]))
            && Path(p, ["properties", "city", "type"]) == Some(JStr("string"))
            && Path(p, ["properties", "unit", "enum"]) == Some(Strings(["celsius", "fahrenheit"]))
            && Path(p, ["properties", "unit", "default"]) == Some(JStr("celsius"))
  {
    LookupAt(Parameters.members, 0);
    LookupAt(Parameters.members, 2);
    PathOne(Parameters, "type", JStr("object"));
    PathOne(Parameters, "required", Strings(["city"]));
    PropertySchema("city", "type", JStr("string"));
    PropertySchema("unit", "enum", Strings(["celsius", "fahrenheit"]));
    PropertySchema("unit", "default", JStr("celsius"));
  }

  /** One step into the schema's properties and one more into the named property. */
  lemma PropertySchema(name: string, key: string, v: Json)
    requires (name, key, v) in {("city", "type", JStr("string")), ("unit", "enum", Strings(["celsius", "fahrenheit"])),
                                ("unit", "default", JStr("celsius"))}
    ensures Path(Parameters, ["properties", name, key]) == Some(v)
  {
    var properties := Parameters.members[1].value;
    LookupAt(Parameters.members, 1);
    var k := if name == "city" then 0 else 1;
    LookupAt(properties.members, k);
    var prop := properties.members[k].value;
    var j := if key == "type" then 0 else if key == "enum" then 2 else 3;
    LookupAt(prop.members, j);
    PathThree(Parameters, "properties", name, key, properties, prop, v);
  }

  /** The base temperatures of the known cities, in degrees Celsius. */
  const BaseTemperatures: map<string, real> :=
    map["北京" := 15.0, "上海" := 18.0, "广州" := 25.0, "深圳" := 26.0, "杭州" := 17.0, "成都" := 16.0]

  /** The labels a condition is drawn from. */
  const Conditions: seq<string> := ["晴朗", "多云", "阴天", "小雨", "中雨"]

  /** A city's base temperature: the table's, with a missing (zero) entry replaced by 20. */
  function BaseTemperature(city: string): (t: real)
    ensures city in BaseTemperatures ==> t == BaseTemperatures[city]
    ensures city !in BaseTemperatures ==> t == 20.0
    ensures 15.0 <= t <= 26.0
  {
    var t := if city in BaseTemperatures then BaseTemperatures[city] else 0.0;
    if t == 0.0 then 20.0 else t
  }

  /** Go's int conversion of a real: the whole part, rounding toward zero. */
  function Truncate(x: real): (i: int)
    ensures x >= 0.0 ==> x - 1.0 < i as real <= x
    ensures x < 0.0 ==> x <= i as real < x + 1.0
  {
    if x >= 0.0 then x.Floor else -((-x).Floor)
  }

  /** float64(int(t*10)) / 10: t cut to one decimal, toward zero. */
  function TruncateTenths(t: real): (r: real)
    ensures (r * 10.0).Floor as real == r * 10.0
    ensures t >= 0.0 ==> t - 0.1 < r <= t
    ensures t < 0.0 ==> t <= r < t + 0.1
  {
    var i := Truncate(t * 10.0);
    var r := i as real / 10.0;
    assert r * 10.0 == i as real;
    assert (r * 10.0).Floor == i;
    r
  }

  /** The temperature before truncation: the jittered base, converted when the unit is fahrenheit. */
  function RawTemperature(city: string, unit: string, jitter: Fraction): real {
    var temp := BaseTemperature(city) + (jitter - 0.5) * 10.0;
    if unit == "fahrenheit" then temp * 9.0 / 5.0 + 32.0 else temp
  }

  /** getMockWeather: the answer for a city and unit, given the call's draws. */
  function GetMockWeather(city: string, unit: string, sample: WeatherSample): (r: WeatherResponse)
    ensures r.city == city && r.unit == unit && r.timestamp == sample.timestamp
    ensures r.condition in Conditions
    ensures 40 <= r.humidity < 80
    ensures r.windSpeed.Floor as real == r.windSpeed && 1.0 <= r.windSpeed <= 20.0
    ensures unit != "fahrenheit" ==>
              BaseTemperature(city) - 5.1 < r.temperature < BaseTemperature(city) + 5.0
    ensures unit == "fahrenheit" ==>
              BaseTemperature(city) * 1.8 + 22.9 < r.temperature < BaseTemperature(city) * 1.8 + 41.0
  {
    WeatherResponse(
      city,
      TruncateTenths(RawTemperature(city, unit, sample.jitter)),
      unit,
      Conditions[sample.condition],
      sample.humidity + 40,
      (sample.wind as real) + 1.0,
      sample.timestamp)
  }

  /** The response as the registry serialises it (struct fields in declaration order). */
  function ResponseJson(resp: WeatherResponse): (j: Json)
    ensures Encodable(j)
  {
    JObj([Member("city", JStr(resp.city)), Member("temperature", JNum(resp.temperature)),
          Member("unit", JStr(resp.unit)), Member("condition", JStr(resp.condition)),
          Member("humidity", JNum(resp.humidity as real)), Member("wind_speed", JNum(resp.windSpeed)),
          Member("timestamp", JStr(resp.timestamp))])
  }

  /** Unmarshal of the arguments into a WeatherRequest; absent fields stay "". */
  function DecodeRequest(args: Raw): (r: Result<WeatherRequest, string>)
    ensures r.Ok? <==> args.Doc? && FitsStruct(args.value, RequestFields)
    ensures r.Ok? ==> r.value == WeatherRequest(StringField(args.value, "city"), StringField(args.value, "unit"))
  {
    match DecodeStruct(args, "tools.WeatherRequest", "WeatherRequest", RequestFields)
    case Err(e) => Err(e)
    case Ok(j) => Ok(WeatherRequest(StringField(j, "city"), StringField(j, "unit")))
  }

  /**
   * The tool's Execute: decode, require a city, default the unit to celsius, answer with
   * mock data. Both branches on `mockData` answer the same way.
   */
  function Execute(mockData: bool, args: Raw, sample: WeatherSample): (r: Result<Json, string>)
    ensures DecodeRequest(args).Err? ==> r == Err("invalid weather request: " + DecodeRequest(args).error)
    ensures DecodeRequest(args).Ok? && DecodeRequest(args).value.city == "" ==> r == Err("city is required")
    ensures DecodeRequest(args).Ok? && DecodeRequest(args).value.city != "" ==>
              var req := DecodeRequest(args).value;
              r == Ok(ResponseJson(GetMockWeather(req.city, if req.unit == "" then "celsius" else req.unit, sample)))
    ensures r.Ok? ==> Encodable(r.value)
  {
    match DecodeRequest(args)
    case Err(e) => Err("invalid weather request: " + e)
    case Ok(req) =>
      if req.city == "" then Err("city is required")
      else
        var unit := if req.unit == "" then "celsius" else req.unit;
        if mockData then Ok(ResponseJson(GetMockWeather(req.city, unit, sample)))
        else Ok(ResponseJson(GetMockWeather(req.city, unit, sample)))
  }

  /** Whether the tool was built for mock data makes no difference to what it answers. */
  lemma MockDataIrrelevant(args: Raw, sample: WeatherSample)
    ensures Execute(true, args, sample) == Execute(false, args, sample)
  {
  }

  /** Asking for Beijing without a unit answers in celsius around Beijing's 15 degrees. */
  lemma BeijingDefaultsToCelsius(mockData: bool, sample: WeatherSample)
    ensures var r := Execute(mockData, Doc(JObj([Member("city", JStr("北京"))])), sample);
            && r.Ok?
            && Lookup(r.value.members, "city") == Some(JStr("北京"))
            && Lookup(r.value.members, "unit") == Some(JStr("celsius"))
            && exists t :: Lookup(r.value.members, "temperature") == Some(JNum(t)) && 9.9 < t < 20.0
  {
    var resp := GetMockWeather("北京", "celsius", sample);
    BeijingOnly(mockData, sample);
    assert 9.9 < resp.temperature < 20.0 by {
      assert BaseTemperature("北京") == 15.0;
    }
    ResponseFields(resp);
  }

  lemma BeijingOnly(mockData: bool, sample: WeatherSample)
    ensures Execute(mockData, Doc(JObj([Member("city", JStr("北京"))])), sample)
            == Ok(ResponseJson(GetMockWeather("北京", "celsius", sample)))
  {
    var j := JObj([Member("city", JStr("北京"))]);
    assert FitsStruct(j, RequestFields);
    LastStringAt(j.members, 0);
  }

  /** Reading the city, unit and temperature back from a serialised response. */
  lemma ResponseFields(resp: WeatherResponse)
    ensures var ms := ResponseJson(resp).members;
            && Lookup(ms, "city") == Some(JStr(resp.city))
            && Lookup(ms, "temperature") == Some(JNum(resp.temperature))
            && Lookup(ms, "unit") == Some(JStr(resp.unit))
  {
    var ms := ResponseJson(resp).members;
    assert ms[0].key == "city" && ms[1].key == "temperature" && ms[2].key == "unit";
    assert forall i :: 0 <= i < 2 ==> ms[i].key != ms[2].key by {
      assert "city"[0] != "unit"[0] && |"temperature"| != |"unit"|;
    }
    LookupAt(ms, 0);
    LookupAt(ms, 1);
    LookupAt(ms, 2);
  }

  /** A unit other than celsius and fahrenheit is passed through as given. */
  lemma UnitNotValidated(mockData: bool, city: string, unit: string, sample: WeatherSample)
    requires city != "" && unit != ""
    ensures var j := JObj([Member("city", JStr(city)), Member("unit", JStr(unit))]);
            && Encodable(j)
            && var r := Execute(mockData, Doc(j), sample);
               r.Ok? && Lookup(r.value.members, "unit") == Some(JStr(unit))
  {
    var j := JObj([Member("city", JStr(city)), Member("unit", JStr(unit))]);
    assert Encodable(j);
    assert FitsStruct(j, RequestFields);
    LastStringAt(j.members, 0);
    LastStringAt(j.members, 1);
    assert DecodeRequest(Doc(j)) == Ok(WeatherRequest(city, unit));
    var resp := GetMockWeather(city, unit, sample);
    assert Execute(mockData, Doc(j), sample) == Ok(ResponseJson(resp));
    ResponseFields(resp);
  }
}
