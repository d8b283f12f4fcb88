/**
 An abstract JSON codec for flat records whose values are strings or
 `null`. Only which fields a record carries, and their values, matter to the
 protocol, so serialisation is a parameter.
 */
module Json {
  import opened Common

  /** A field value: a JSON string or `null` (Python's `None`). */
  datatype Value = Str(s: string) | Null

  /** What `json.loads` yields: a decode error, a value that is not an object, or an object. */
  datatype Parsed = Malformed | NotObject | Object(fields: map<string, Value>)

  /** A pair `json.dumps` / `json.loads`. */
  datatype Codec = Codec(dumps: map<string, Value> -> string, loads: string -> Parsed)

  /** A codec whose decoder recovers every record its encoder wrote. */
  ghost predicate Sound(codec: Codec)
  {
    forall fields :: codec.loads(codec.dumps(fields)) == Object(fields)
  }

  /** A record of strings as a JSON record. */
  function Strings(m: map<string, string>): map<string, Value>
  {
    map k | k in m :: Str(m[k])
  }

  /** The Python value a field holds after `json.loads`. */
  function AsPython(v: Value): Option<string>
  {
    match v
    case Str(s) => Some(s)
    case Null => None
  }
}
