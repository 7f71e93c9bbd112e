/**
 * Python values as they travel through the adapters: JSON-like data, dicts
 * keyed by strings, and the `json.dumps`/`json.loads` pair, which is supplied
 * from outside and assumed only to round-trip.
 */
module Values {
  import opened Wrappers

  datatype Value =
    | Null
    | Bool(b: bool)
    | Int(i: int)
    | Str(s: string)
    | List(items: seq<Value>)
    | Object(fields: map<string, Value>)

  type Dict = map<string, Value>

  /** The error Python raises for `d[k]` when `k` is missing. */
  datatype KeyError = KeyError(key: string)

  /** `json.dumps` and `json.loads`; a decode failure is `None`. */
  datatype Codec = Codec(dumps: Value -> string, loads: string -> Option<Value>)

  /** Decoding an encoded value gives the value back. */
  ghost predicate Lawful(c: Codec)
  {
    forall v :: c.loads(c.dumps(v)) == Some(v)
  }

  /** A lawful encoder never maps two values to one text. */
  lemma LawfulDumpsInjective(c: Codec, v: Value, w: Value)
    requires Lawful(c)
    requires c.dumps(v) == c.dumps(w)
    ensures v == w
  {
    assert c.loads(c.dumps(v)) == Some(v);
    assert c.loads(c.dumps(w)) == Some(w);
  }
}
