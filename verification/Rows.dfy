/** Rows of a source query, the cursor that walks them, and small shared types. */
module Rows {

  datatype Option<+T> = None | Some(value: T)

  /** A column value as the runner sees it. */
  datatype Value = Null | Text(text: string) | Number(num: int)

  /** A row as a dictionary from column name to value. */
  type Record = map<string, Value>

  /**
   * One row of the source query.  `ts` is the value of the incremental key
   * (None is SQL NULL), `id` the value of the incremental id key.
   */
  datatype Row = Row(ts: Option<int>, id: int, cols: Record)

  /** A position in key order; the checkpoint and the cursor are optional keys. */
  datatype Key = Key(ts: int, id: int)

  function KeyOf(r: Row): Key
    requires r.ts.Some?
  {
    Key(r.ts.value, r.id)
  }

  predicate KeyLess(a: Key, b: Key) {
    a.ts < b.ts || (a.ts == b.ts && a.id < b.id)
  }

  function Last<T>(s: seq<T>): T
    requires s != []
  {
    s[|s| - 1]
  }
}
