/** Decoded JSON values, the Python exceptions raised while handling them, and the
    codecs the modelled code calls (`json`, `base64`, `str()`), which stay
    uninterpreted: they are passed in as function values. */
module Json {
  import opened Wrappers

  newtype byte = b: int | 0 <= b < 256

  /** A value as `json.loads` returns it. JSON numbers are integers here. */
  datatype Json =
    | JNull
    | JBool(b: bool)
    | JNum(n: int)
    | JStr(s: string)
    | JArr(items: seq<Json>)
    | JObj(fields: map<string, Json>)

  type Object = map<string, Json>

  /** The exceptions the modelled code can raise on unexpected values. */
  datatype PyException =
    | JSONDecodeError   // json.loads on text that is not JSON
    | AttributeError    // `.get` or `.lower` on a value that lacks it
    | TypeError         // `+=` of a non-string, `in` on a non-container, an unhashable key
    | KeyError          // `event["delta"]` on a missing key
    | Base64Error       // base64.b64decode on text that is not base64

  /** The library functions the code calls, left uninterpreted. */
  datatype Codec = Codec(
    loads: string -> Option<Json>,          // json.loads; None when it raises
    dumps: Json -> string,                  // json.dumps
    b64decode: string -> Option<seq<byte>>, // base64.b64decode; None when it raises
    show: Json -> string)                   // Python's str() of a decoded value

  /** Python's `d.get(key, default)` on a dict. */
  function Get(d: Object, key: string, default: Json): Json {
    if key in d then d[key] else default
  }

  /** What an f-string prints for a decoded value: strings verbatim, anything
      else through `str()`. */
  function Display(codec: Codec, v: Json): string {
    if v.JStr? then v.s else codec.show(v)
  }
}
