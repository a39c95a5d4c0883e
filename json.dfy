/**
 * An already-parsed JSON document and the rules by which Foundation's
 * `JSONDecoder` reads the primitive fields of a synthesized `Decodable`
 * struct out of it. Byte-level parsing is not part of this model.
 */
module Json {
  import opened Wrappers

  /** A JSON value. Numbers are integers; fractional numbers are not represented. */
  datatype JValue =
    | JNull
    | JBool(b: bool)
    | JNumber(n: int)
    | JString(s: string)
    | JArray(items: seq<JValue>)
    | JObject(fields: map<string, JValue>)

  /** Swift's `Int` on the 64-bit platforms the app runs on. */
  const INT_MIN: int := -0x8000_0000_0000_0000
  const INT_MAX: int := 0x7FFF_FFFF_FFFF_FFFF

  predicate FitsInt(n: int) {
    INT_MIN <= n <= INT_MAX
  }

  /** The four cases of Swift's `DecodingError`. */
  datatype DecodeError =
    | TypeMismatch(context: string)
    | ValueNotFound(context: string)
    | KeyNotFound(key: string)
    | DataCorrupted(description: string)

  type Decoded<T> = Result<T, DecodeError>

  /** `decoder.container(keyedBy:)`: only an object opens a keyed container. */
  function KeyedContainer(v: JValue, context: string): (r: Decoded<map<string, JValue>>)
    ensures r.Ok? <==> v.JObject?
    ensures r.Ok? ==> r.value == v.fields
  {
    match v
    case JObject(fields) => Ok(fields)
    case JNull => Err(ValueNotFound(context))
    case _ => Err(TypeMismatch(context))
  }

  /** `decoder.unkeyedContainer()`: only an array opens an unkeyed container. */
  function UnkeyedContainer(v: JValue, context: string): (r: Decoded<seq<JValue>>)
    ensures r.Ok? <==> v.JArray?
    ensures r.Ok? ==> r.value == v.items
  {
    match v
    case JArray(items) => Ok(items)
    case JNull => Err(ValueNotFound(context))
    case _ => Err(TypeMismatch(context))
  }

  /** The raw value stored under `key`; a missing key is `keyNotFound`. */
  function Entry(o: map<string, JValue>, key: string): (r: Decoded<JValue>)
    ensures r.Ok? <==> key in o
    ensures r.Ok? ==> r.value == o[key]
    ensures r.Err? ==> r.error == KeyNotFound(key)
  {
    if key in o then Ok(o[key]) else Err(KeyNotFound(key))
  }

  /** A `String` read from a JSON string value. */
  function AsString(v: JValue, context: string): (r: Decoded<string>)
    ensures r.Ok? <==> v.JString?
    ensures r.Ok? ==> r.value == v.s
  {
    match v
    case JString(s) => Ok(s)
    case JNull => Err(ValueNotFound(context))
    case _ => Err(TypeMismatch(context))
  }

  /** An `Int` read from a JSON number, which must fit in 64 bits. */
  function AsInt(v: JValue, context: string): (r: Decoded<int>)
    ensures r.Ok? <==> v.JNumber? && FitsInt(v.n)
    ensures r.Ok? ==> r.value == v.n
  {
    match v
    case JNumber(n) =>
      if FitsInt(n) then Ok(n)
      else Err(DataCorrupted("Parsed JSON number does not fit in Int."))
    case JNull => Err(ValueNotFound(context))
    case _ => Err(TypeMismatch(context))
  }

  /** A `Bool` read from a JSON `true`/`false` (numbers are not accepted). */
  function AsBool(v: JValue, context: string): (r: Decoded<bool>)
    ensures r.Ok? <==> v.JBool?
    ensures r.Ok? ==> r.value == v.b
  {
    match v
    case JBool(b) => Ok(b)
    case JNull => Err(ValueNotFound(context))
    case _ => Err(TypeMismatch(context))
  }

  /**
   * `[String]` read element by element from the front of an array; the first
   * element that is not a string aborts the whole array.
   */
  function AsStrings(items: seq<JValue>, context: string): (r: Decoded<seq<string>>)
    ensures r.Ok? <==> forall i :: 0 <= i < |items| ==> items[i].JString?
    ensures r.Ok? ==> |r.value| == |items| && forall i :: 0 <= i < |items| ==> r.value[i] == items[i].s
  {
    if items == [] then Ok([])
    else
      var head :- AsString(items[0], context);
      var tail :- AsStrings(items[1..], context);
      assert forall i :: 1 <= i < |items| ==> items[i] == items[1..][i - 1];
      Ok([head] + tail)
  }

  /** `container.decode(String.self, forKey: key)` */
  function DecodeString(o: map<string, JValue>, key: string): (r: Decoded<string>)
    ensures r.Ok? <==> key in o && o[key].JString?
    ensures r.Ok? ==> r.value == o[key].s
  {
    var v :- Entry(o, key);
    AsString(v, key)
  }

  /** `container.decode(Int.self, forKey: key)` */
  function DecodeInt(o: map<string, JValue>, key: string): (r: Decoded<int>)
    ensures r.Ok? <==> key in o && o[key].JNumber? && FitsInt(o[key].n)
    ensures r.Ok? ==> r.value == o[key].n
  {
    var v :- Entry(o, key);
    AsInt(v, key)
  }

  /** `container.decode(Bool.self, forKey: key)` */
  function DecodeBool(o: map<string, JValue>, key: string): (r: Decoded<bool>)
    ensures r.Ok? <==> key in o && o[key].JBool?
    ensures r.Ok? ==> r.value == o[key].b
  {
    var v :- Entry(o, key);
    AsBool(v, key)
  }

  /** `container.decode([String].self, forKey: key)` */
  function DecodeStrings(o: map<string, JValue>, key: string): (r: Decoded<seq<string>>)
    ensures r.Ok? <==> key in o && o[key].JArray? && forall i :: 0 <= i < |o[key].items| ==> o[key].items[i].JString?
    ensures r.Ok? ==> |r.value| == |o[key].items| && forall i :: 0 <= i < |r.value| ==> r.value[i] == o[key].items[i].s
  {
    var v :- Entry(o, key);
    var items :- UnkeyedContainer(v, key);
    AsStrings(items, key)
  }
}
