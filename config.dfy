/**
 * Prettier options travel through the runner as a Go `map[string]any`: user
 * configuration is piped through without the runner knowing every option.
 * Value is that `any`, restricted to the dynamic types the modelled code
 * distinguishes; Options is the map a caller allocates and the helpers fill.
 */
module Config {

  datatype Value =
    | Nil                                      // the untyped nil, also what a missing key reads as
    | Bool(b: bool)
    | Int(i: int)
    | Infinity                                 // math.Inf(1)
    | Str(s: string)
    | Strings(items: seq<string>)              // []string
    | Table(fields: map<string, Value>)        // map[string]any
    | Tables(tables: seq<map<string, Value>>)  // []map[string]any
    | OtherValue                               // any other dynamic type (float64, []any, ...)

  /** Go's m[k]: the stored value, or nil when k is absent. */
  function Get(m: map<string, Value>, k: string): (v: Value)
    ensures k !in m ==> v == Nil
    ensures k in m ==> v == m[k]
  {
    if k in m then m[k] else Nil
  }

  /** A `map[string]any` shared by reference: the callee's writes are seen by the caller. */
  class Options {
    var entries: map<string, Value>

    constructor ()
      ensures entries == map[]
    {
      entries := map[];
    }
  }
}
