/** Values produced by decoding a JSON document, and the Python behaviour the
    chain cleaner relies on when it inspects them. */
module JsonValues {

  /** A decoded JSON value. A float is kept as the exact real number it
      denotes, which is what Python compares when a float meets an int. */
  datatype Json =
    | JNull
    | JBool(b: bool)
    | JInt(i: int)
    | JFloat(f: real)
    | JStr(s: string)
    | JArr(elems: seq<Json>)
    | JObj(fields: map<string, Json>)

  /** `d.get(key)`: a missing key reads as None. */
  function Get(d: map<string, Json>, key: string): Json
  {
    if key in d then d[key] else JNull
  }

  /** Python's `v == n` for a decoded value `v` and an int `n`: a bool is an
      int (True == 1), a float equals an int of the same value, and nothing
      else equals an int. */
  predicate PyEqualsInt(v: Json, n: int)
  {
    match v
    case JBool(b) => (if b then 1 else 0) == n
    case JInt(k) => k == n
    case JFloat(f) => f == n as real
    case _ => false
  }

  /** The index the repair writes, `JInt(n)`, compares equal to `n`, and so
      do `True` for 1 and a float of the same value; a string, None, a list
      or a dict never equals an int. */
  lemma PyEqualsIntCases(n: int)
    ensures PyEqualsInt(JInt(n), n) && PyEqualsInt(JFloat(n as real), n)
    ensures PyEqualsInt(JBool(true), n) <==> n == 1
    ensures PyEqualsInt(JBool(false), n) <==> n == 0
    ensures forall s :: !PyEqualsInt(JStr(s), n)
    ensures forall f :: PyEqualsInt(JFloat(f), n) <==> f == n as real
    ensures !PyEqualsInt(JNull, n)
    ensures forall xs :: !PyEqualsInt(JArr(xs), n)
    ensures forall d :: !PyEqualsInt(JObj(d), n)
  {
  }

  /** A value equals at most one int. */
  lemma PyEqualsIntUnique(v: Json, n: int, m: int)
    requires PyEqualsInt(v, n) && PyEqualsInt(v, m)
    ensures n == m
  {
  }

  /** The exceptions the cleaner raises on data it cannot handle. */
  datatype Fault =
    | NotAnObject          // AttributeError: only a dict has `.get`
    | NotIterable          // TypeError: the value cannot be walked by `for`
    | MissingKey(key: string)  // KeyError on `d[key]`

  datatype Result<T> = Ok(value: T) | Err(fault: Fault)
}
