/** Values produced by decoding JSON text, as Dart's `json.decode` returns them. */
module Json {
  import opened Wrappers

  /** A decoded JSON value: objects become maps from keys to values, arrays sequences. */
  datatype Json =
    | JNull
    | JBool(b: bool)
    | JNum(n: real)
    | JStr(s: string)
    | JArr(items: seq<Json>)
    | JObj(fields: map<string, Json>)

  /**
   * A JSON decoder. The library's parser is not part of this model, so every
   * operation that decodes takes the decoder as a parameter: `None` is the
   * `FormatException` the library throws on text that is not JSON.
   */
  type Decoder = string -> Option<Json>
}
