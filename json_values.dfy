/** JSON documents and the byte streams they travel on. */
module JsonValues {
  import opened Wrappers

  newtype byte = b: int | 0 <= b < 256

  type Bytes = seq<byte>

  /** A JSON value (RFC 8259); numbers are restricted to integers. */
  datatype Json =
    | JNull
    | JBool(b: bool)
    | JNumber(n: int)
    | JString(s: string)
    | JArray(items: seq<Json>)
    | JObject(members: map<string, Json>)

  /** A serialiser and a parser, left abstract: Jackson's ObjectMapper on the
      Java side, Python's json module in a stub script. `read` gives None
      where the library would raise a parse error. */
  datatype Codec = Codec(write: Json -> Bytes, read: Bytes -> Option<Json>)
}
