/**
 * Decoded JSON metadata of a credential file: Go's `map[string]any` after
 * `json.Unmarshal`, plus the Go integer types that callers building the map
 * in code may store in it.
 */
module Json {
  import opened Wrappers
  import opened Numbers

  /**
   * A float64 as far as the integer reader looks at it: not a number, an
   * infinity, a finite value with a fractional part, or a finite value with
   * no fractional part whose exact value is `value`.
   */
  datatype Float = NaN | Infinity(negative: bool) | Fraction | Whole(value: int)

  /** One value of `map[string]any`. */
  datatype Value =
    | Null
    | Bool(b: bool)
    | GoInt(i: Int64)
    | GoInt64(i64: Int64)
    | GoFloat64(f: Float)
      /** A `json.Number`: its text, and what `strconv.ParseFloat` makes of it (`None` on error). */
    | Number(text: string, asFloat: Option<Float>)
    | Str(s: string)
    | Array(items: seq<Value>)
    | Object(fields: map<string, Value>)

  type Metadata = map<string, Value>

  /** `m[key]`: a missing key reads as `nil`. */
  function Get(m: Metadata, key: string): (v: Value)
    ensures key !in m ==> v == Null
  {
    if key in m then m[key] else Null
  }

  /** `s, _ := m[key].(string)`: the string stored under `key`, or "" for anything else. */
  function StringAt(m: Metadata, key: string): (s: string)
    ensures s != "" ==> key in m && m[key] == Str(s)
  {
    if key in m && m[key].Str? then m[key].s else ""
  }

  /** A string stored under `key` is what `StringAt` reads. */
  lemma StringAtStored(m: Metadata, key: string)
    ensures key in m && m[key].Str? ==> StringAt(m, key) == m[key].s
  {
  }

  /** `b, _ := m[key].(bool)`: true only when `key` holds the boolean true. */
  predicate BoolAt(m: Metadata, key: string)
  {
    key in m && m[key] == Bool(true)
  }
}
