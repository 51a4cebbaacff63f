/**
 * AbstractRecordHandler: what every handler shares. The table columns a record is written to,
 * in a fixed order; the sorted columns with configured insert and update values; the
 * per-column transform; and the flag that suspends batch flushing.
 */
module RecordHandling {
  import opened Wrappers
  import opened Records
  import opened ValueDefinitions
  import opened JavaLang
  import Sorting
  import opened Config

  /** The configured transient columns as a set; none when the list is absent. */
  function TransientColumns(cfg: Settings): set<string> {
    if cfg.transientColumns.None? then {} else set c | c in cfg.transientColumns.value
  }

  /** isTransientColumn. */
  predicate IsTransientColumn(cfg: Settings, column: string) {
    column in TransientColumns(cfg)
  }

  /** The names of `names` that are not excluded, in their order. */
  function Filter(names: seq<string>, excluded: set<string>): (r: seq<string>)
    ensures forall x :: x in r <==> x in names && x !in excluded
    ensures |r| <= |names|
  {
    if names == [] then []
    else
      var last := names[|names| - 1];
      Filter(names[..|names| - 1], excluded) + (if last in excluded then [] else [last])
  }

  lemma {:induction false} FilterKeepsSorted(names: seq<string>, excluded: set<string>)
    requires Sorting.Sorted(names, StrLess)
    ensures Sorting.Sorted(Filter(names, excluded), StrLess)
  {
    if names != [] {
      var init := names[..|names| - 1];
      var last := names[|names| - 1];
      assert Sorting.Sorted(init, StrLess) by {
        forall i, j | 0 <= i < j < |init| ensures !StrLess(init[j], init[i]) {
          assert init[i] == names[i] && init[j] == names[j];
        }
      }
      FilterKeepsSorted(init, excluded);
      var f := Filter(init, excluded);
      if last !in excluded {
        forall i, j | 0 <= i < j < |f + [last]| ensures !StrLess((f + [last])[j], (f + [last])[i]) {
          if j == |f| {
            assert (f + [last])[i] in names[..|names| - 1];
            var k :| 0 <= k < |names| - 1 && names[k] == (f + [last])[i];
          }
        }
      }
    }
  }

  /** The target names of the given CSV column indices, in that order. */
  function MappedNames(mappings: map<int, string>, indices: seq<int>): (r: seq<string>)
    requires forall i | 0 <= i < |indices| :: indices[i] in mappings
    ensures |r| == |indices| && forall i | 0 <= i < |indices| :: r[i] == mappings[indices[i]]
  {
    seq(|indices|, i requires 0 <= i < |indices| => mappings[indices[i]])
  }

  /** The CSV column indices in ascending order. */
  ghost function SortedIndices(mappings: map<int, string>): (r: seq<int>)
    ensures Sorting.StrictlySorted(r, IntLess)
    ensures forall i :: i in r <==> i in mappings
  {
    IntLessIsStrictTotalOrder();
    Sorting.SortedSet(mappings.Keys, IntLess)
  }

  /** The synthetic column names sorted, as `Collections.sort` leaves a copy of the list. */
  function SortedSyntheticColumns(cfg: Settings): (r: seq<string>)
    ensures Sorting.Sorted(r, StrLess)
    ensures cfg.syntheticColumns.Some? ==> multiset(r) == multiset(cfg.syntheticColumns.value)
    ensures cfg.syntheticColumns.None? ==> r == []
  {
    StrLessIsStrictTotalOrder();
    if cfg.syntheticColumns.None? then [] else Sorting.Sort(cfg.syntheticColumns.value, StrLess)
  }

  /**
   * getOrderedTableColumnNames: the mapped target names by ascending CSV index, then the sorted
   * synthetic names, leaving out transient columns in both parts.
   */
  ghost function OrderedTableColumnNames(cfg: Settings): (r: seq<string>)
    requires cfg.columnMappings.Some?
  {
    var mappings := cfg.columnMappings.value;
    Filter(MappedNames(mappings, SortedIndices(mappings)), TransientColumns(cfg))
      + Filter(SortedSyntheticColumns(cfg), TransientColumns(cfg))
  }

  /** The keys of an insertValues/updateValues map, sorted; none when the map is absent. */
  ghost function SortedColumnNames(values: Option<map<string, ValueDefinition>>): (r: seq<string>)
    ensures Sorting.StrictlySorted(r, StrLess)
    ensures values.None? ==> r == []
    ensures values.Some? ==> forall c :: c in r <==> c in values.value
  {
    StrLessIsStrictTotalOrder();
    if values.None? then [] else Sorting.SortedSet(values.value.Keys, StrLess)
  }

  /**
   * transform: a SQL-producing transform is a configuration error, any other transform is
   * evaluated, and a column without one keeps the record's own value (null when absent).
   */
  function Transform(cfg: Settings, sc: Scripting, column: string, rec: Record): (r: Result<Value>)
    ensures HasTransform(cfg, column) && ProducesSql(cfg.transform.value[column]) ==>
      r == Err(ConfigurationError(SqlTransformMessage(column)))
    ensures HasTransform(cfg, column) && !ProducesSql(cfg.transform.value[column]) ==>
      r == Eval(cfg.transform.value[column], column, rec, sc)
    ensures !HasTransform(cfg, column) ==> r == Ok(Get(rec, column))
  {
    if cfg.transform.Some? && column in cfg.transform.value then
      var transformer := cfg.transform.value[column];
      if ProducesSql(transformer) then Err(ConfigurationError(SqlTransformMessage(column)))
      else Eval(transformer, column, rec, sc)
    else Ok(Get(rec, column))
  }

  predicate HasTransform(cfg: Settings, column: string) {
    cfg.transform.Some? && column in cfg.transform.value
  }

  function SqlTransformMessage(column: string): string {
    "Transform definition for column '" + column + "' produces SQL which is not supported. "
      + "SQL expressions only supported for 'insertValues' and 'updateValues'."
  }

  /** The values of a list of evaluations, or the first error among them. */
  function Collect(results: seq<Result<Value>>): (r: Result<seq<Value>>)
    ensures r.Ok? ==> |r.value| == |results|
  {
    if results == [] then Ok([])
    else
      var prev :- Collect(results[..|results| - 1]);
      var v :- results[|results| - 1];
      Ok(prev + [v])
  }

  /** Column i is the first whose evaluation fails. */
  predicate FirstFailure(results: seq<Result<Value>>, i: int) {
    0 <= i < |results| && results[i].Err? && forall j | 0 <= j < i :: results[j].Ok?
  }

  /**
   * Collecting keeps each value in place; it fails exactly when some evaluation fails, and then
   * with the first failure's error.
   */
  lemma {:induction false} CollectPointwise(results: seq<Result<Value>>)
    ensures var r := Collect(results);
      && (r.Ok? ==> forall i | 0 <= i < |results| :: results[i] == Ok(r.value[i]))
      && (r.Ok? <==> forall i | 0 <= i < |results| :: results[i].Ok?)
      && (r.Err? ==> exists i :: FirstFailure(results, i) && r.error == results[i].error)
  {
    if results != [] {
      var n := |results| - 1;
      var init := results[..n];
      CollectPointwise(init);
      assert forall i | 0 <= i < n :: init[i] == results[i];
      var prev := Collect(init);
      if prev.Err? {
        var i :| FirstFailure(init, i) && prev.error == init[i].error;
        assert FirstFailure(results, i);
      } else if results[n].Err? {
        assert FirstFailure(results, n);
      }
    }
  }

  /** A failure among the first k evaluations is the failure of the whole list. */
  lemma {:induction false} CollectPrefixFailure(results: seq<Result<Value>>, k: nat)
    requires k <= |results| && Collect(results[..k]).Err?
    ensures Collect(results) == Collect(results[..k])
    decreases |results| - k
  {
    if k < |results| {
      var m := |results| - 1;
      assert results[..m][..k] == results[..k];
      CollectPrefixFailure(results[..m], k);
    } else {
      assert results[..k] == results;
    }
  }

  /** Collecting two lists in turn: the first list's failure wins, then the second's. */
  lemma {:induction false} CollectAppend(a: seq<Result<Value>>, b: seq<Result<Value>>)
    ensures Collect(a + b) ==
      if Collect(a).Err? then Collect(a)
      else if Collect(b).Err? then Err(Collect(b).error)
      else Ok(Collect(a).value + Collect(b).value)
    decreases |b|
  {
    if b == [] {
      assert a + b == a;
      if Collect(a).Ok? {
        assert Collect(a).value + [] == Collect(a).value;
      }
    } else {
      var m := |b| - 1;
      assert (a + b)[..|a + b| - 1] == a + b[..m];
      CollectAppend(a, b[..m]);
      if Collect(a).Ok? && Collect(b[..m]).Ok? && b[m].Ok? {
        assert Collect(a).value + Collect(b[..m]).value + [b[m].value]
          == Collect(a).value + (Collect(b[..m]).value + [b[m].value]);
      }
    }
  }

  /** The transforms of the given columns, in order. */
  function Transforms(cfg: Settings, sc: Scripting, names: seq<string>, rec: Record): (r: seq<Result<Value>>)
    ensures |r| == |names| && forall i | 0 <= i < |names| :: r[i] == Transform(cfg, sc, names[i], rec)
  {
    seq(|names|, i requires 0 <= i < |names| => Transform(cfg, sc, names[i], rec))
  }

  /**
   * The second loop of handleRecord: the transformed value of every ordered column, in order;
   * the first failing transform ends it.
   */
  function TransformParams(cfg: Settings, sc: Scripting, names: seq<string>, rec: Record): Result<seq<Value>> {
    Collect(Transforms(cfg, sc, names, rec))
  }

  /**
   * Each bound value is its column's transform, in column order; binding fails exactly when
   * some transform fails, and then with the error of the first one that does.
   */
  lemma TransformParamsPointwise(cfg: Settings, sc: Scripting, names: seq<string>, rec: Record)
    ensures var r := TransformParams(cfg, sc, names, rec);
      && (r.Ok? ==> |r.value| == |names| && forall i | 0 <= i < |names| :: Transform(cfg, sc, names[i], rec) == Ok(r.value[i]))
      && (r.Ok? <==> forall i | 0 <= i < |names| :: Transform(cfg, sc, names[i], rec).Ok?)
      && (r.Err? ==> exists i :: FirstFailure(Transforms(cfg, sc, names, rec), i)
                               && r.error == Transform(cfg, sc, names[i], rec).error)
  {
    CollectPointwise(Transforms(cfg, sc, names, rec));
  }

  /** The transform of each column in turn, stopping at the first failure (a binding loop). */
  method BindTransforms(cfg: Settings, sc: Scripting, ordered: seq<string>, rec: Record)
    returns (r: Result<seq<Value>>)
    ensures r == TransformParams(cfg, sc, ordered, rec)
  {
    var transform := name => Transform(cfg, sc, name, rec);
    r := CollectEach(transform, ordered);
    assert seq(|ordered|, i requires 0 <= i < |ordered| => transform(ordered[i])) == Transforms(cfg, sc, ordered, rec);
  }

  /** Apply `f` to each name in turn, stopping at the first error. */
  method CollectEach(f: string -> Result<Value>, names: seq<string>) returns (r: Result<seq<Value>>)
    ensures r == Collect(seq(|names|, i requires 0 <= i < |names| => f(names[i])))
  {
    ghost var results := seq(|names|, i requires 0 <= i < |names| => f(names[i]));
    var collected := [];
    for j := 0 to |names|
      invariant Collect(results[..j]) == Ok(collected)
    {
      assert results[..j + 1][..j] == results[..j];
      var v := f(names[j]);
      if v.Err? {
        assert Collect(results[..j + 1]).Err?;
        CollectPrefixFailure(results, j + 1);
        return Err(v.error);
      }
      collected := collected + [v.value];
    }
    assert results[..|results|] == results;
    r := Ok(collected);
  }

  /** No transient column is ever written. */
  lemma OrderedColumnsNotTransient(cfg: Settings)
    requires cfg.columnMappings.Some?
    ensures forall c | c in OrderedTableColumnNames(cfg) :: !IsTransientColumn(cfg, c)
  {
  }

  /** Exactly the mapped and synthetic names that are not transient are written. */
  lemma OrderedColumnsMembership(cfg: Settings, c: string)
    requires cfg.columnMappings.Some?
    ensures c in OrderedTableColumnNames(cfg) <==>
      (c in cfg.columnMappings.value.Values || (cfg.syntheticColumns.Some? && c in cfg.syntheticColumns.value))
      && !IsTransientColumn(cfg, c)
  {
    MappedNamesMembership(cfg.columnMappings.value, c);
    if cfg.syntheticColumns.Some? {
      assert c in SortedSyntheticColumns(cfg) <==> c in multiset(cfg.syntheticColumns.value);
    }
  }

  lemma MappedNamesMembership(mappings: map<int, string>, c: string)
    ensures c in MappedNames(mappings, SortedIndices(mappings)) <==> c in mappings.Values
  {
    var indices := SortedIndices(mappings);
    if c in mappings.Values {
      var i :| i in mappings && mappings[i] == c;
      var k :| 0 <= k < |indices| && indices[k] == i;
      assert MappedNames(mappings, indices)[k] == c;
    }
  }

  /**
   * The list is the mapped part, taken in ascending CSV index order, followed by the synthetic
   * part, which is sorted.
   */
  lemma OrderedColumnsShape(cfg: Settings)
    requires cfg.columnMappings.Some?
    ensures var mappings := cfg.columnMappings.value;
      var indices := SortedIndices(mappings);
      var tail := Filter(SortedSyntheticColumns(cfg), TransientColumns(cfg));
      && Sorting.StrictlySorted(indices, IntLess)
      && OrderedTableColumnNames(cfg) == Filter(MappedNames(mappings, indices), TransientColumns(cfg)) + tail
      && Sorting.Sorted(tail, StrLess)
  {
    FilterKeepsSorted(SortedSyntheticColumns(cfg), TransientColumns(cfg));
  }

  /** The target table name as StringBuilder.append renders it: an absent name reads "null". */
  function TableText(table: Option<string>): (r: string)
    ensures table.Some? ==> r == table.value
    ensures table.None? ==> r == "null"
  {
    if table.None? then "null" else table.value
  }

  /** A record handed to the router for the handler thread `partition` (Router.dispatch). */
  datatype Routed = Routed(rec: Record, partition: int)

  /** A column's transform never produces SQL text: such a definition is refused. */
  lemma TransformNeverYieldsSql(cfg: Settings, sc: Scripting, column: string, rec: Record)
    requires HasTransform(cfg, column) && cfg.transform.value[column].SqlLiteral?
    ensures Transform(cfg, sc, column, rec).Err?
    ensures Transform(cfg, sc, column, rec).error.ConfigurationError?
  {
  }

  /** What a handler is built with (AbstractRecordHandler's final fields). */
  datatype HandlerSetup = HandlerSetup(
    cfg: Settings, dialect: SqlDialect, sc: Scripting, threadId: int, threadCount: int)

  /**
   * The handler a record belongs to with ignoreDuplicatePK: the absolute value of the key
   * fingerprint's hash modulo the thread count, always a valid thread index.
   */
  function RecordPartition(k: HandlerSetup, rec: Record): (p: int)
    requires 1 <= k.threadCount <= INT_MAX
    ensures 0 <= p < k.threadCount
    ensures p == Abs(StringHashCode(k.dialect.joinPrimaryKeys(rec))) % k.threadCount
  {
    Partition(k.dialect.joinPrimaryKeys(rec), k.threadCount)
  }

  /**
   * What every handler needs of its setup: a column mapping (getOrderedTableColumnNames reads
   * it unconditionally), and a positive thread count wherever records are partitioned.
   */
  ghost predicate SetupOk(k: HandlerSetup) {
    k.cfg.columnMappings.Some? && (k.cfg.ignoreDuplicatePK ==> 1 <= k.threadCount <= INT_MAX)
  }

  /**
   * The state AbstractRecordHandler keeps: the memoised column lists and the batch flag. The
   * configuration, script engine and thread identity are fixed at construction.
   */
  class HandlerBase {
    const config: Settings
    const dialect: SqlDialect
    const scripting: Scripting
    const threadId: int
    const threadCount: int
    var orderedTableColumnNames: Option<seq<string>>
    var columnNamesWithInsertValues: Option<seq<string>>
    var columnNamesWithUpdateValues: Option<seq<string>>
    var batchExecutionDisabled: bool
    var connectionClosed: bool

    function Setup(): HandlerSetup {
      HandlerSetup(config, dialect, scripting, threadId, threadCount)
    }

    /** A memoised list, once computed, is the one the configuration determines. */
    ghost predicate Valid()
      reads this
    {
      && (orderedTableColumnNames.Some? ==>
            config.columnMappings.Some? && orderedTableColumnNames.value == OrderedTableColumnNames(config))
      && (columnNamesWithInsertValues.Some? ==>
            columnNamesWithInsertValues.value == SortedColumnNames(config.insertValues))
      && (columnNamesWithUpdateValues.Some? ==>
            columnNamesWithUpdateValues.value == SortedColumnNames(config.updateValues))
    }

    constructor (config: Settings, dialect: SqlDialect, scripting: Scripting, threadId: int, threadCount: int)
      ensures Valid()
      ensures this.config == config && this.dialect == dialect && this.scripting == scripting
      ensures this.threadId == threadId && this.threadCount == threadCount
      ensures orderedTableColumnNames.None? && columnNamesWithInsertValues.None? && columnNamesWithUpdateValues.None?
      ensures !batchExecutionDisabled && !connectionClosed
    {
      this.config := config;
      this.dialect := dialect;
      this.scripting := scripting;
      this.threadId := threadId;
      this.threadCount := threadCount;
      orderedTableColumnNames := None;
      columnNamesWithInsertValues := None;
      columnNamesWithUpdateValues := None;
      batchExecutionDisabled := false;
      connectionClosed := false;
    }

    /** getOrderedTableColumnNames, computed on the first call and remembered. */
    method GetOrderedTableColumnNames() returns (names: seq<string>)
      requires Valid() && config.columnMappings.Some?
      modifies this
      ensures Valid()
      ensures names == OrderedTableColumnNames(config)
      ensures orderedTableColumnNames == Some(names)
      ensures columnNamesWithInsertValues == old(columnNamesWithInsertValues)
      ensures columnNamesWithUpdateValues == old(columnNamesWithUpdateValues)
      ensures batchExecutionDisabled == old(batchExecutionDisabled) && connectionClosed == old(connectionClosed)
    {
      if orderedTableColumnNames.Some? {
        return orderedTableColumnNames.value;
      }
      var mappings := config.columnMappings.value;
      IntLessIsStrictTotalOrder();
      var indices := Sorting.SortSet(mappings.Keys, IntLess);
      var transient := TransientColumns(config);
      var mapped := FilterColumns(MappedNames(mappings, indices), transient);
      var synthetic := FilterColumns(SortedSyntheticColumns(config), transient);
      names := mapped + synthetic;
      orderedTableColumnNames := Some(names);
    }

    /** getColumnNamesWithInsertValues. */
    method GetColumnNamesWithInsertValues() returns (names: seq<string>)
      requires Valid()
      modifies this
      ensures Valid()
      ensures names == SortedColumnNames(config.insertValues)
      ensures columnNamesWithInsertValues == Some(names)
      ensures orderedTableColumnNames == old(orderedTableColumnNames)
      ensures columnNamesWithUpdateValues == old(columnNamesWithUpdateValues)
      ensures batchExecutionDisabled == old(batchExecutionDisabled) && connectionClosed == old(connectionClosed)
    {
      if columnNamesWithInsertValues.Some? {
        return columnNamesWithInsertValues.value;
      }
      names := SortedKeys(config.insertValues);
      columnNamesWithInsertValues := Some(names);
    }

    /** getColumnNamesWithUpdateValues. */
    method GetColumnNamesWithUpdateValues() returns (names: seq<string>)
      requires Valid()
      modifies this
      ensures Valid()
      ensures names == SortedColumnNames(config.updateValues)
      ensures columnNamesWithUpdateValues == Some(names)
      ensures orderedTableColumnNames == old(orderedTableColumnNames)
      ensures columnNamesWithInsertValues == old(columnNamesWithInsertValues)
      ensures batchExecutionDisabled == old(batchExecutionDisabled) && connectionClosed == old(connectionClosed)
    {
      if columnNamesWithUpdateValues.Some? {
        return columnNamesWithUpdateValues.value;
      }
      names := SortedKeys(config.updateValues);
      columnNamesWithUpdateValues := Some(names);
    }

    method EnableBatchExecution()
      modifies this
      ensures !batchExecutionDisabled
      ensures orderedTableColumnNames == old(orderedTableColumnNames)
      ensures columnNamesWithInsertValues == old(columnNamesWithInsertValues)
      ensures columnNamesWithUpdateValues == old(columnNamesWithUpdateValues)
      ensures connectionClosed == old(connectionClosed)
    {
      batchExecutionDisabled := false;
    }

    method DisableBatchExecution()
      modifies this
      ensures batchExecutionDisabled
      ensures orderedTableColumnNames == old(orderedTableColumnNames)
      ensures columnNamesWithInsertValues == old(columnNamesWithInsertValues)
      ensures columnNamesWithUpdateValues == old(columnNamesWithUpdateValues)
      ensures connectionClosed == old(connectionClosed)
    {
      batchExecutionDisabled := true;
    }

    /** close: the connection is closed quietly. */
    method Close()
      modifies this
      ensures connectionClosed
      ensures orderedTableColumnNames == old(orderedTableColumnNames)
      ensures columnNamesWithInsertValues == old(columnNamesWithInsertValues)
      ensures columnNamesWithUpdateValues == old(columnNamesWithUpdateValues)
      ensures batchExecutionDisabled == old(batchExecutionDisabled)
    {
      connectionClosed := true;
    }
  }

  /** The loops of getOrderedTableColumnNames: keep the names that are not transient, in order. */
  method FilterColumns(names: seq<string>, transient: set<string>) returns (kept: seq<string>)
    ensures kept == Filter(names, transient)
  {
    kept := [];
    for i := 0 to |names|
      invariant kept == Filter(names[..i], transient)
    {
      assert names[..i + 1][..i] == names[..i];
      if names[i] !in transient {
        kept := kept + [names[i]];
      }
    }
    assert names[..|names|] == names;
  }

  /** The sorted keys of a value map, as the two getColumnNamesWith…Values methods build them. */
  method SortedKeys(values: Option<map<string, ValueDefinition>>) returns (names: seq<string>)
    ensures names == SortedColumnNames(values)
  {
    if values.None? {
      return [];
    }
    StrLessIsStrictTotalOrder();
    names := Sorting.SortSet(values.value.Keys, StrLess);
  }
}
