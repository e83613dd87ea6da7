/**
 * A JSON store file (`claims.json`, `state.json`) as its loader sees it:
 * absent, unreadable, not parsable, the JSON literal `null`, or a decoded value.
 */
module Stores {

  /** Wall-clock instants, in any fixed unit; Go's `t.After(u)` is `t > u`. */
  type Time = int

  datatype Stored<T> = Absent | Unreadable | Unparsable | Null | Present(value: T)

  /** The loader's two failures: `cannot read …` and `cannot parse …`. */
  datatype LoadError = ReadFailed | ParseFailed
}
