/** JSON values as `encoding/json` decodes them into `any`, and the text codec as a parameter:
    the functions below never look inside the text of a value. */
module Json {
  import opened GoStrings

  datatype Option<+T> = None | Some(value: T)

  function OrEmpty(o: Option<string>): string {
    match o case None => "" case Some(s) => s
  }

  datatype Value =
    | Null
    | Bool(b: bool)
    | Number(digits: string)
    | Str(s: string)
    | Arr(items: seq<Value>)
    | Obj(members: map<string, Value>)

  /** `numeral` says which texts the codec takes for numbers, `depth` how deep it lets values be nested. */
  datatype Codec =
    Codec(encode: Value -> string, decode: string -> Option<Value>, numeral: string -> bool, depth: nat)

  /** What the framing of events needs of an encoded value: it is not empty, on one line, and has no
      space at its ends. */
  predicate OnOneLine(c: Codec, v: Value) {
    c.encode(v) != "" && '\n' !in c.encode(v) && Tight(c.encode(v))
  }

  /** Decoding inverts encoding as well.  It holds of values with well-formed numerals and valid text. */
  predicate RoundTrips(c: Codec, v: Value) {
    c.decode(c.encode(v)) == Some(v) && OnOneLine(c, v)
  }

  /** `json.Unmarshal` into a `map[string]interface{}`: `null` gives the nil map. */
  function DecodeObject(c: Codec, data: string): Option<map<string, Value>> {
    match c.decode(data)
    case Some(Obj(m)) => Some(m)
    case Some(Null) => Some(map[])
    case _ => None
  }

  function StringAt(m: map<string, Value>, key: string): Option<string> {
    if key in m && m[key].Str? then Some(m[key].s) else None
  }

  function ObjectAt(m: map<string, Value>, key: string): Option<map<string, Value>> {
    if key in m && m[key].Obj? then Some(m[key].members) else None
  }

  /** What the text of an event contributes: its `text` when its `type` is the given one. */
  function DeltaOf(m: map<string, Value>, kind: string, field: string): string {
    if StringAt(m, "type") == Some(kind) && StringAt(m, field).Some? then StringAt(m, field).value else ""
  }
}
