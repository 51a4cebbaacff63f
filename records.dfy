/**
 * The values that flow through an import: a record is the Java `Map<String, Object>` a handler
 * receives, from target column name to value; a missing key reads as Java's null.
 */
module Records {
  /** The Java objects a column value can be: null, a String, a Boolean or an integer Number. */
  datatype Value = Null | Str(s: string) | Bool(b: bool) | Num(n: int)

  type Record = map<string, Value>

  /** `nameValues.get(column)`: null when the column is absent. */
  function Get(rec: Record, column: string): (v: Value)
    ensures column !in rec ==> v == Null
    ensures column in rec ==> v == rec[column]
  {
    if column in rec then rec[column] else Null
  }

}
