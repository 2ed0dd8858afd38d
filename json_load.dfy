/**
 * The tolerant JSON loaders of the CANN file parser (`_json_load` and
 * `_json_dict_load`). Decoding the text itself is done by `json.loads`,
 * which is not part of this model: it is the parameter `decode`, returning
 * None where `json.loads` raises JSONDecodeError.
 */
module JsonLoad {
  import opened Wrappers

  /** A decoded JSON value; a Python dict is a JObject, a list a JArray. */
  datatype Json =
    | JNull
    | JBool(b: bool)
    | JNumber(n: int)
    | JString(s: string)
    | JArray(items: seq<Json>)
    | JObject(fields: map<string, Json>)

  /** The exceptions the parser raises: RuntimeError with its message. */
  datatype ParserError = RuntimeError(message: string)

  const INVALID_TRACE_DATA: string := "Invalid CANN trace data."
  const INVALID_COMMUNICATION_DATA: string := "Invalid communication data."

  /**
   * `_json_load`: the list of records in a trace file. Empty text, a value that
   * is not a list, and a list whose first element is not a dict all give [];
   * text that does not decode raises; any other list is returned as decoded.
   */
  function JsonLoadList(data: string, decode: string -> Option<Json>): (r: Result<seq<Json>, ParserError>)
    ensures r.Failure? <==> data != [] && decode(data).None?
    ensures r.Failure? ==> r.error == RuntimeError(INVALID_TRACE_DATA)
    ensures data == [] ==> r == Success([])
    ensures data != [] && decode(data).Some? && !decode(data).value.JArray? ==> r == Success([])
    ensures data != [] && decode(data).Some? && decode(data).value.JArray? ==>
      var items := decode(data).value.items;
      r == Success(if items != [] && !items[0].JObject? then [] else items)
    ensures r.Success? && r.value != [] ==> decode(data) == Some(JArray(r.value)) && r.value[0].JObject?
  {
    if data == [] then Success([])
    else
      match decode(data)
      case None => Failure(RuntimeError(INVALID_TRACE_DATA))
      case Some(v) =>
        if !v.JArray? then Success([])
        else if v.items != [] && !v.items[0].JObject? then Success([])
        else Success(v.items)
  }

  /**
   * `_json_dict_load`: the dict of a communication file. Empty text and a value
   * that is not a dict give {}; text that does not decode raises; a dict is
   * returned as decoded.
   */
  function JsonLoadDict(data: string, decode: string -> Option<Json>): (r: Result<map<string, Json>, ParserError>)
    ensures r.Failure? <==> data != [] && decode(data).None?
    ensures r.Failure? ==> r.error == RuntimeError(INVALID_COMMUNICATION_DATA)
    ensures data == [] ==> r == Success(map[])
    ensures data != [] && decode(data).Some? ==>
      r == Success(if decode(data).value.JObject? then decode(data).value.fields else map[])
    ensures r.Success? && r.value != map[] ==> decode(data) == Some(JObject(r.value))
  {
    if data == [] then Success(map[])
    else
      match decode(data)
      case None => Failure(RuntimeError(INVALID_COMMUNICATION_DATA))
      case Some(v) => if v.JObject? then Success(v.fields) else Success(map[])
  }
}
