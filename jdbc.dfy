/**
 * The JDBC objects the handlers drive, as values: a prepared statement is its SQL text plus
 * the parameter lists it has batched and executed; the table is a map from primary-key values
 * to rows. Statement execution never fails in this model.
 */
module Jdbc {
  import opened Wrappers
  import opened Records

  /** A row as a result set yields it: column name to value. */
  type Row = map<string, Value>

  /** The target table, keyed by its primary-key values in `primaryKeys` order. */
  type Table = map<seq<Value>, Row>

  /** A SELECT by primary key: SQL's `= NULL` never matches, so a null key finds nothing. */
  function Lookup(table: Table, key: seq<Value>): (r: Option<Row>)
    ensures r.Some? <==> Null !in key && key in table
    ensures r.Some? ==> r.value == table[key]
  {
    if Null !in key && key in table then Some(table[key]) else None
  }

  datatype PreparedStatement = PreparedStatement(
    sql: string,
    batch: seq<seq<Value>>,     // parameter lists added with addBatch and not yet executed
    executed: seq<seq<Value>>,  // parameter lists sent to the database by executeBatch
    closed: bool)
  {
    /** Everything this statement has been asked to run, in order. */
    function Submitted(): seq<seq<Value>> {
      executed + batch
    }
  }

  function Prepare(sql: string): (st: PreparedStatement)
    ensures st.sql == sql && st.Submitted() == [] && !st.closed
  {
    PreparedStatement(sql, [], [], false)
  }

  /** addBatch with the parameters bound so far. */
  function AddBatch(st: PreparedStatement, params: seq<Value>): (r: PreparedStatement)
    ensures r.Submitted() == st.Submitted() + [params]
    ensures r.sql == st.sql && r.executed == st.executed && |r.batch| == |st.batch| + 1
  {
    st.(batch := st.batch + [params])
  }

  /** executeBatch: the pending lists go to the database; nothing is lost or reordered. */
  function ExecuteBatch(st: PreparedStatement): (r: PreparedStatement)
    ensures r.Submitted() == st.Submitted()
    ensures r.batch == [] && r.sql == st.sql
  {
    st.(executed := st.executed + st.batch, batch := [])
  }

  /** executeQuery with the parameters bound so far; the query is logged with what it ran. */
  function ExecuteQuery(st: PreparedStatement, params: seq<Value>): (r: PreparedStatement)
    ensures r.executed == st.executed + [params]
    ensures r.sql == st.sql && r.batch == st.batch && r.closed == st.closed
  {
    st.(executed := st.executed + [params])
  }

  function Close(st: PreparedStatement): (r: PreparedStatement)
    ensures r.closed && r.Submitted() == st.Submitted()
  {
    st.(closed := true)
  }
}
