/**
 * The part of Go's encoding/json (JSON as in RFC 8259) that the services rely on,
 * kept abstract: there is no parser and no printer. A JSON text is represented by the
 * value it denotes, and `Marshal`/`Unmarshal` move between Go values and such texts.
 * What is modelled concretely is how Unmarshal fills a Go struct of string and float64
 * fields, because the tools' argument checks depend on it.
 */
module Encoding {
  import opened Wrappers

  /** A Go value as encoding/json sees it. Struct fields are members in declaration order. */
  datatype Json =
    | JNull
    | JBool(b: bool)
    | JNum(n: real)
    | JStr(s: string)
    | JArr(items: seq<Json>)
    | JObj(members: seq<Member>)
    /** A float64 NaN or infinity: a Go value that Marshal refuses. */
    | JNonFinite

  datatype Member = Member(key: string, value: Json)

  /**
   * A json.RawMessage: bytes that form a JSON text, represented by the value the text
   * denotes, or bytes that do not form one (the nil message among them).
   */
  datatype Raw = Doc(value: Text) | NotJson(bytes: string)

  /** The values a JSON text can denote: RFC 8259 has no NaN and no infinity. */
  type Text = j: Json | Encodable(j) witness JNull

  /** The nil (empty) RawMessage, as left in a ToolCall before it is executed. */
  const Nil: Raw := NotJson("")

  /** Values that Marshal accepts: no NaN or infinity anywhere inside. */
  predicate Encodable(j: Json) {
    match j
    case JNonFinite => false
    case JArr(items) => forall i :: 0 <= i < |items| ==> Encodable(items[i])
    case JObj(ms) => forall i :: 0 <= i < |ms| ==> Encodable(ms[i].value)
    case _ => true
  }

  /** json.Marshal. */
  function Marshal(j: Json): (r: Result<Raw, string>)
    ensures r.Ok? <==> Encodable(j)
    ensures r.Ok? ==> Unmarshal(r.value) == Ok(j)
  {
    if Encodable(j) then Ok(Doc(j)) else Err("json: unsupported value")
  }

  /** json.Unmarshal into an `interface{}`: the value the text denotes (never NaN or infinite), or a syntax error. */
  function Unmarshal(raw: Raw): (r: Result<Json, string>)
    ensures r.Ok? <==> raw.Doc?
    ensures raw.Doc? ==> r.value == raw.value
    ensures r.Ok? ==> Encodable(r.value)
  {
    match raw
    case Doc(j) => Ok(j)
    case NotJson(bytes) =>
      if bytes == [] then Err("unexpected end of JSON input")
      else Err("invalid character looking for beginning of value")
  }

  /** The first member stored under key (how the services' schemas are read back). */
  function Lookup(ms: seq<Member>, key: string): (r: Option<Json>)
    ensures r.Some? ==> Member(key, r.value) in ms
    ensures r.None? ==> forall i :: 0 <= i < |ms| ==> ms[i].key != key
  {
    if ms == [] then None
    else if ms[0].key == key then Some(ms[0].value)
    else Lookup(ms[1..], key)
  }

  /** The value reached from j by following object keys. */
  function Path(j: Json, keys: seq<string>): Option<Json> {
    if keys == [] then Some(j)
    else if !j.JObj? then None
    else match Lookup(j.members, keys[0])
      case None => None
      case Some(v) => Path(v, keys[1..])
  }

  /** A JSON array of strings. */
  function Strings(ss: seq<string>): (j: Json)
    ensures j.JArr? && |j.items| == |ss|
    ensures forall i :: 0 <= i < |ss| ==> j.items[i] == JStr(ss[i])
  {
    JArr(seq(|ss|, i requires 0 <= i < |ss| => JStr(ss[i])))
  }

  /** The Go types of the struct fields the services decode into. */
  datatype GoType = GoString | GoFloat64

  /** A struct field by its json tag. */
  datatype Field = Field(key: string, goType: GoType)

  function GoTypeName(t: GoType): string {
    match t
    case GoString => "string"
    case GoFloat64 => "float64"
  }

  function Kind(j: Json): string {
    match j
    case JNull => "null"
    case JBool(_) => "bool"
    case JNum(_) => "number"
    case JNonFinite => "number"
    case JStr(_) => "string"
    case JArr(_) => "array"
    case JObj(_) => "object"
  }

  /** A JSON value can be stored in a field of type t; null leaves the field untouched. */
  predicate Assignable(t: GoType, v: Json) {
    v.JNull? || (t == GoString && v.JStr?) || (t == GoFloat64 && v.JNum?)
  }

  /** The field a member is decoded into, if any (unknown keys are ignored). */
  function FieldFor(fields: seq<Field>, key: string): (r: Option<GoType>)
    ensures r.Some? ==> Field(key, r.value) in fields
    ensures r.None? ==> forall i :: 0 <= i < |fields| ==> fields[i].key != key
  {
    if fields == [] then None
    else if fields[0].key == key then Some(fields[0].goType)
    else FieldFor(fields[1..], key)
  }

  /** The member names a struct field but holds a value that field cannot take. */
  predicate Mismatch(fields: seq<Field>, m: Member) {
    var t := FieldFor(fields, m.key);
    t.Some? && !Assignable(t.value, m.value)
  }

  /** The earliest member, in document order, that is a type error for the struct. */
  function FirstMismatch(ms: seq<Member>, fields: seq<Field>): (r: Option<nat>)
    ensures r.Some? ==> r.value < |ms| && Mismatch(fields, ms[r.value])
    ensures r.Some? ==> forall i :: 0 <= i < r.value ==> !Mismatch(fields, ms[i])
    ensures r.None? ==> forall i :: 0 <= i < |ms| ==> !Mismatch(fields, ms[i])
  {
    if ms == [] then None
    else if Mismatch(fields, ms[0]) then Some(0)
    else match FirstMismatch(ms[1..], fields)
      case None => None
      case Some(k) => Some(k + 1)
  }

  /** A document Unmarshal stores into the struct without reporting an error. */
  predicate FitsStruct(j: Json, fields: seq<Field>) {
    j.JNull? || (j.JObj? && forall i :: 0 <= i < |j.members| ==> !Mismatch(fields, j.members[i]))
  }

  /**
   * json.Unmarshal into a struct of the named type: the decoded document when Unmarshal
   * returns no error, otherwise the error. `null` leaves the struct at its zero value.
   * `typeName` is the type as reflect prints it (package-qualified), `structName` the bare
   * struct name encoding/json puts in front of a field ("" for an anonymous struct).
   */
  function DecodeStruct(raw: Raw, typeName: string, structName: string, fields: seq<Field>): (r: Result<Json, string>)
    ensures r.Ok? <==> raw.Doc? && FitsStruct(raw.value, fields)
    ensures r.Ok? ==> r.value == raw.value
  {
    match Unmarshal(raw)
    case Err(e) => Err(e)
    case Ok(j) =>
      match j
      case JNull => Ok(j)
      case JObj(ms) =>
        (match FirstMismatch(ms, fields)
         case None => Ok(j)
         case Some(k) =>
           var t := FieldFor(fields, ms[k].key).value;
           Err("json: cannot unmarshal " + Kind(ms[k].value) + " into Go struct field "
               + structName + "." + ms[k].key + " of type " + GoTypeName(t)))
      case _ => Err("json: cannot unmarshal " + Kind(j) + " into Go value of type " + typeName)
  }

  /** The last string stored under key, or "" when none is (later members overwrite earlier ones). */
  function LastString(ms: seq<Member>, key: string): (s: string)
    ensures Member(key, JStr(s)) in ms || (s == "" && forall i :: 0 <= i < |ms| && ms[i].key == key ==> !ms[i].value.JStr?)
  {
    if ms == [] then ""
    else if ms[|ms| - 1].key == key && ms[|ms| - 1].value.JStr? then ms[|ms| - 1].value.s
    else LastString(ms[..|ms| - 1], key)
  }

  /** The last number stored under key, or 0 when none is. */
  function LastNumber(ms: seq<Member>, key: string): (x: real)
    ensures Member(key, JNum(x)) in ms || (x == 0.0 && forall i :: 0 <= i < |ms| && ms[i].key == key ==> !ms[i].value.JNum?)
  {
    if ms == [] then 0.0
    else if ms[|ms| - 1].key == key && ms[|ms| - 1].value.JNum? then ms[|ms| - 1].value.n
    else LastNumber(ms[..|ms| - 1], key)
  }

  /** The string field with the given tag after a successful struct decode of j. */
  function StringField(j: Json, key: string): string {
    if j.JObj? then LastString(j.members, key) else ""
  }

  /** The float64 field with the given tag after a successful struct decode of j. */
  function NumberField(j: Json, key: string): real {
    if j.JObj? then LastNumber(j.members, key) else 0.0
  }

  /**
   * The member at k fixes a string field when no later member gives that key a string:
   * a later null under the key leaves the field as it was.
   */
  lemma {:induction false} LastStringAt(ms: seq<Member>, k: nat)
    requires k < |ms| && ms[k].value.JStr?
    requires forall i :: k < i < |ms| && ms[i].key == ms[k].key ==> !ms[i].value.JStr?
    ensures LastString(ms, ms[k].key) == ms[k].value.s
  {
    if k < |ms| - 1 {
      assert ms[..|ms| - 1][k] == ms[k];
      assert ms[|ms| - 1].key != ms[k].key || !ms[|ms| - 1].value.JStr?;
      LastStringAt(ms[..|ms| - 1], k);
    }
  }

  /** Two strings under a key and then a null: the field keeps the second string. */
  lemma LaterNullKeepsString(ms: seq<Member>, key: string, x: string, y: string)
    ensures LastString(ms + [Member(key, JStr(x)), Member(key, JStr(y)), Member(key, JNull)], key) == y
  {
    var all := ms + [Member(key, JStr(x)), Member(key, JStr(y)), Member(key, JNull)];
    assert all[|ms| + 1] == Member(key, JStr(y));
    LastStringAt(all, |ms| + 1);
  }

  /**
   * The member at k fixes a number field when no later member gives that key a number:
   * a later null under the key leaves the field as it was.
   */
  lemma {:induction false} LastNumberAt(ms: seq<Member>, k: nat)
    requires k < |ms| && ms[k].value.JNum?
    requires forall i :: k < i < |ms| && ms[i].key == ms[k].key ==> !ms[i].value.JNum?
    ensures LastNumber(ms, ms[k].key) == ms[k].value.n
  {
    if k < |ms| - 1 {
      assert ms[..|ms| - 1][k] == ms[k];
      assert ms[|ms| - 1].key != ms[k].key || !ms[|ms| - 1].value.JNum?;
      LastNumberAt(ms[..|ms| - 1], k);
    }
  }

  /** The member at k is what Lookup finds when no earlier member has the same key. */
  lemma {:induction false} LookupAt(ms: seq<Member>, k: nat)
    requires k < |ms|
    requires forall i :: 0 <= i < k ==> ms[i].key != ms[k].key
    ensures Lookup(ms, ms[k].key) == Some(ms[k].value)
  {
    if k > 0 {
      assert ms[1..][k - 1] == ms[k];
      LookupAt(ms[1..], k - 1);
    }
  }

  /** A path of one key reaches the member stored under it. */
  lemma PathOne(j: Json, k: string, v: Json)
    requires j.JObj? && Lookup(j.members, k) == Some(v)
    ensures Path(j, [k]) == Some(v)
  {
    PathStep(j, k, [], v);
    assert [k] + [] == [k];
  }

  /** A path of three keys reaches what three successive lookups reach. */
  lemma PathThree(j: Json, k1: string, k2: string, k3: string, v1: Json, v2: Json, v: Json)
    requires j.JObj? && Lookup(j.members, k1) == Some(v1)
    requires v1.JObj? && Lookup(v1.members, k2) == Some(v2)
    requires v2.JObj? && Lookup(v2.members, k3) == Some(v)
    ensures Path(j, [k1, k2, k3]) == Some(v)
  {
    PathOne(v2, k3, v);
    PathStep(v1, k2, [k3], v2);
    assert [k2] + [k3] == [k2, k3];
    PathStep(j, k1, [k2, k3], v1);
    assert [k1] + [k2, k3] == [k1, k2, k3];
  }

  /** Following a path one key at a time. */
  lemma PathStep(j: Json, key: string, rest: seq<string>, v: Json)
    requires j.JObj? && Lookup(j.members, key) == Some(v)
    ensures Path(j, [key] + rest) == Path(v, rest)
  {
    assert ([key] + rest)[1..] == rest;
  }
}
