/** The values of zap that the middleware uses: typed fields, the Info
    level and log entries. The logger itself is in module Runtime; encoding,
    level filtering and output are the library's own business and are not
    here. */
module Zap {

  /** A typed field value: `zap.String`, `zap.Int`, `zap.Duration`
      (nanoseconds, like Go's `time.Duration`). */
  datatype Value = Str(s: string) | Int(i: int) | Duration(nanos: int)

  datatype Field = Field(key: string, value: Value)

  datatype Level = Info

  datatype Entry = Entry(level: Level, message: string, fields: seq<Field>)

  /** The fields of an entry as a key/value map, later fields overriding
      earlier ones with the same key (what an observed entry's context map
      shows). */
  function ContextMap(fields: seq<Field>): (m: map<string, Value>)
    ensures m.Keys == set f | f in fields :: f.key
    decreases |fields|
  {
    if fields == [] then map[]
    else
      var last := fields[|fields| - 1];
      ContextMap(fields[..|fields| - 1])[last.key := last.value]
  }
}
