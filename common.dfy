/** Values shared by both authentication stacks: Python's exceptions, JSON
    values as `jsonify` sees them, and the outcome of a Flask view. */
module Common {

  /** Python's `None` or a value. */
  datatype Option<+T> = None | Some(value: T)

  /** The exceptions the modelled code can raise. Flask turns any of them
      that escapes a view into an HTTP 500 response. */
  datatype PyError =
    | AttributeError        // a method called on `None`
    | ValueError            // `int('', 16)`
    | TypeError             // password hashing given `None`
    | KeyError              // `d[k]` on a missing key
    | IntegrityError        // a second row with a unique column value
    | MultipleResultsFound  // `one_or_none()` with several rows
    | InvalidToken          // PyJWT: bad signature or malformed token
    | ExpiredSignature      // PyJWT: the `exp` claim has passed

  /** A Python computation that either returns a value or raises. */
  datatype Result<+T> = Ok(value: T) | Err(error: PyError)

  /** JSON values. `Time` stands for a `datetime`, rendered to text by
      `str()` or `jsonify`; the text format is not modelled. `Num` holds a
      floating-point column value that is only ever copied. */
  datatype Json =
    | Null
    | Bool(b: bool)
    | Int(i: int)
    | Num(r: real)
    | Str(s: string)
    | Time(t: int)
    | List(items: seq<Json>)
    | Object(fields: map<string, Json>)

  /** What a view hands back to Flask: a response with a status code and a
      JSON object body, or an exception that escaped the view. */
  datatype Outcome =
    | Reply(status: int, body: map<string, Json>)
    | Raised(error: PyError)

  /** Python's `d.get(k, default)`. */
  function GetOr<K, V>(d: map<K, V>, k: K, default: V): (r: V)
    ensures k in d ==> r == d[k]
    ensures k !in d ==> r == default
  {
    if k in d then d[k] else default
  }

  /** Python's `d.get(k)`, which gives `None` for a missing key. */
  function Get<K, V>(d: map<K, V>, k: K): (r: Option<V>)
    ensures r.Some? <==> k in d
    ensures r.Some? ==> r.value == d[k]
  {
    if k in d then Some(d[k]) else None
  }
}
