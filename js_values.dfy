/** The JavaScript values the N-API layer exchanges with Node, as plain
    data: an object is a map from property names to values. Only the value
    kinds the bridge creates or reads are present. */
module JsValues {
  import opened Common

  datatype JsValue =
    | JsUndefined
    | JsNull
    | JsBool(b: bool)
    | JsNumber(n: real)
    | JsBigInt(i: int)
    | JsBuffer(bytes: seq<u8>)
    | JsObject(props: map<string, JsValue>)

  /** An exception thrown by napi_throw_error(env, code, message): the code
      is None when the C code passes NULL for it. */
  datatype Thrown = Thrown(code: Option<string>, message: string)

  /** The integer part of a number, rounding toward zero. */
  function Truncate(r: real): (i: int)
    ensures r >= 0.0 ==> i == r.Floor
    ensures r < 0.0 ==> i == -((-r).Floor)
  {
    if r >= 0.0 then r.Floor else -((-r).Floor)
  }

  /** napi_get_value_uint32 on a number: the integer part reduced modulo
      2^32, as the engine's ToUint32 does. */
  function ToUint32(r: real): (x: u32)
    ensures x == Truncate(r) % TWO_32
  {
    Truncate(r) % TWO_32
  }

  /** A number that already is a uint32 converts to itself, and so the
      conversion of a uint32 turned into a number gives it back. */
  lemma ToUint32OfUint32(x: u32)
    ensures ToUint32(x as real) == x
  {
  }

  /** napi_get_value_bool: fails unless the value is a boolean. */
  function GetBool(v: JsValue): (r: Option<bool>)
    ensures r.Some? <==> v.JsBool?
    ensures r.Some? ==> r.value == v.b
  {
    if v.JsBool? then Some(v.b) else None
  }

  /** napi_get_value_uint32: fails unless the value is a number. */
  function GetUint32(v: JsValue): (r: Option<u32>)
    ensures r.Some? <==> v.JsNumber?
    ensures r.Some? ==> r.value == ToUint32(v.n)
  {
    if v.JsNumber? then Some(ToUint32(v.n)) else None
  }

  /** napi_get_buffer_info: fails unless the value is a Buffer. */
  function GetBuffer(v: JsValue): (r: Option<seq<u8>>)
    ensures r.Some? <==> v.JsBuffer?
    ensures r.Some? ==> r.value == v.bytes
  {
    if v.JsBuffer? then Some(v.bytes) else None
  }
}
