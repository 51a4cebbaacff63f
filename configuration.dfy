/**
 * Configuration: the import settings read from JSON. The object is mutable (one setter per
 * field); `Snapshot()` is its current contents as a value, which the handlers and the importer
 * read. Java nulls are `None`.
 */
module Config {
  import opened Wrappers
  import opened ValueDefinitions

  const DEFAULT_BATCH_SIZE: int := 100

  /** INSERT and MERGE as declared, plus INSERTONLY, which the importer and handlers also use. */
  datatype OperationMode = Insert | Merge | InsertOnly

  /** CSVOptions, with opencsv's defaults as the initial values. */
  datatype CsvOptions = CsvOptions(
    separatorChar: char,
    quoteChar: char,
    escapeChar: char,
    skipLines: int,
    strictQuotes: bool,
    ignoreLeadingWhiteSpace: bool)

  const DefaultCsvOptions: CsvOptions := CsvOptions(',', '"', '\\', 0, false, true)

  /**
   * The contents of a Configuration. The last five fields are read by the handlers and the
   * importer through accessors that this Configuration does not declare; they are kept here as
   * plain settings.
   */
  datatype Settings = Settings(
    operationMode: Option<OperationMode>,
    driverClass: Option<string>,
    connectionUrl: Option<string>,
    connectionProperties: Option<map<string, string>>,
    targetTable: Option<string>,
    primaryKeys: Option<seq<string>>,
    columnMappings: Option<map<int, string>>,
    transientColumns: Option<seq<string>>,
    insertValues: Option<map<string, ValueDefinition>>,
    updateValues: Option<map<string, ValueDefinition>>,
    transform: Option<map<string, ValueDefinition>>,
    scripting: Option<seq<string>>,
    batchSize: int,
    csvOptions: Option<CsvOptions>,
    forceUpdate: bool,
    ignoreDuplicatePK: bool,
    ignoreNullPK: bool,
    syntheticColumns: Option<seq<string>>,
    limit: int,
    mapFunction: Option<string>)
  {
    /** getBatchSize. */
    function BatchSize(): (b: int)
      ensures b == NormalizedBatchSize(batchSize)
    {
      NormalizedBatchSize(batchSize)
    }
  }

  /**
   * SQL-name escaping and the primary-key fingerprint, which the handlers call on the
   * configuration; neither is defined in this Configuration, so both stay uninterpreted.
   */
  datatype SqlDialect = SqlDialect(
    escapeSqlName: string -> string,
    joinPrimaryKeys: map<string, Records.Value> -> string)

  /** The settings of `new Configuration()`: everything unset except the batch size. */
  const Defaults: Settings := Settings(None, None, None, None, None, None, None, None, None, None,
                                       None, None, DEFAULT_BATCH_SIZE, None, false, false, false,
                                       None, 0, None)

  /** A stored batch size of zero or less means batches of one. */
  function NormalizedBatchSize(stored: int): (b: int)
    ensures b >= 1
    ensures stored > 0 ==> b == stored
    ensures stored <= 0 ==> b == 1
  {
    if stored <= 0 then 1 else stored
  }

  lemma NormalizedBatchSizeIdempotent(stored: int)
    ensures NormalizedBatchSize(NormalizedBatchSize(stored)) == NormalizedBatchSize(stored)
    ensures NormalizedBatchSize(stored) >= stored
  {
  }

  /** What fromJson does after parsing: missing CSV options become the defaults, present ones stay. */
  function WithDefaultCsvOptions(s: Settings): (r: Settings)
    ensures r.csvOptions.Some?
    ensures s.csvOptions.Some? ==> r == s
    ensures r.(csvOptions := s.csvOptions) == s
    ensures s.csvOptions.None? ==> r.csvOptions == Some(DefaultCsvOptions)
  {
    if s.csvOptions.None? then s.(csvOptions := Some(DefaultCsvOptions)) else s
  }

  lemma WithDefaultCsvOptionsIdempotent(s: Settings)
    ensures WithDefaultCsvOptions(WithDefaultCsvOptions(s)) == WithDefaultCsvOptions(s)
  {
  }

  class Configuration {
    var operationMode: Option<OperationMode>
    var driverClass: Option<string>
    var connectionUrl: Option<string>
    var connectionProperties: Option<map<string, string>>
    var targetTable: Option<string>
    var primaryKeys: Option<seq<string>>
    var columnMappings: Option<map<int, string>>
    var transientColumns: Option<seq<string>>
    var insertValues: Option<map<string, ValueDefinition>>
    var updateValues: Option<map<string, ValueDefinition>>
    var transform: Option<map<string, ValueDefinition>>
    var scripting: Option<seq<string>>
    var batchSize: int
    var csvOptions: Option<CsvOptions>
    var forceUpdate: bool
    var ignoreDuplicatePK: bool
    var ignoreNullPK: bool
    var syntheticColumns: Option<seq<string>>
    var limit: int
    var mapFunction: Option<string>

    function Snapshot(): Settings
      reads this
    {
      Settings(operationMode, driverClass, connectionUrl, connectionProperties, targetTable,
               primaryKeys, columnMappings, transientColumns, insertValues, updateValues,
               transform, scripting, batchSize, csvOptions, forceUpdate, ignoreDuplicatePK,
               ignoreNullPK, syntheticColumns, limit, mapFunction)
    }

    constructor ()
      ensures Snapshot() == Defaults
    {
      operationMode, driverClass, connectionUrl, connectionProperties := None, None, None, None;
      targetTable, primaryKeys, columnMappings, transientColumns := None, None, None, None;
      insertValues, updateValues, transform, scripting := None, None, None, None;
      batchSize, csvOptions, forceUpdate := DEFAULT_BATCH_SIZE, None, false;
      ignoreDuplicatePK, ignoreNullPK, syntheticColumns, limit, mapFunction := false, false, None, 0, None;
    }

    /** A configuration holding the given settings; this is how Gson fills a fresh object. */
    constructor FromSettings(s: Settings)
      ensures Snapshot() == s
    {
      operationMode := s.operationMode;
      driverClass := s.driverClass;
      connectionUrl := s.connectionUrl;
      connectionProperties := s.connectionProperties;
      targetTable := s.targetTable;
      primaryKeys := s.primaryKeys;
      columnMappings := s.columnMappings;
      transientColumns := s.transientColumns;
      insertValues := s.insertValues;
      updateValues := s.updateValues;
      transform := s.transform;
      scripting := s.scripting;
      batchSize := s.batchSize;
      csvOptions := s.csvOptions;
      forceUpdate := s.forceUpdate;
      ignoreDuplicatePK := s.ignoreDuplicatePK;
      ignoreNullPK := s.ignoreNullPK;
      syntheticColumns := s.syntheticColumns;
      limit := s.limit;
      mapFunction := s.mapFunction;
    }

    /**
     * fromJson(InputStream): `parsed` is what Gson produced from the input; the result has CSV
     * options whether or not the input had them.
     */
    static method FromJson(parsed: Settings) returns (c: Configuration)
      ensures fresh(c)
      ensures c.Snapshot() == WithDefaultCsvOptions(parsed)
    {
      c := new Configuration.FromSettings(parsed);
      if c.csvOptions.None? {
        c.SetCsvOptions(DefaultCsvOptions);
      }
    }

    /** getBatchSize. */
    function GetBatchSize(): (b: int)
      reads this
      ensures b >= 1
      ensures batchSize > 0 ==> b == batchSize
    {
      NormalizedBatchSize(batchSize)
    }

    method SetDriverClass(v: string)
      modifies this
      ensures Snapshot() == old(Snapshot()).(driverClass := Some(v))
    {
      driverClass := Some(v);
    }

    method SetConnectionUrl(v: string)
      modifies this
      ensures Snapshot() == old(Snapshot()).(connectionUrl := Some(v))
    {
      connectionUrl := Some(v);
    }

    method SetColumnMappings(v: map<int, string>)
      modifies this
      ensures Snapshot() == old(Snapshot()).(columnMappings := Some(v))
    {
      columnMappings := Some(v);
    }

    method SetTransientColumns(v: seq<string>)
      modifies this
      ensures Snapshot() == old(Snapshot()).(transientColumns := Some(v))
    {
      transientColumns := Some(v);
    }

    method SetCsvOptions(v: CsvOptions)
      modifies this
      ensures Snapshot() == old(Snapshot()).(csvOptions := Some(v))
    {
      csvOptions := Some(v);
    }

    method SetPrimaryKeys(v: seq<string>)
      modifies this
      ensures Snapshot() == old(Snapshot()).(primaryKeys := Some(v))
    {
      primaryKeys := Some(v);
    }

    method SetConnectionProperties(v: map<string, string>)
      modifies this
      ensures Snapshot() == old(Snapshot()).(connectionProperties := Some(v))
    {
      connectionProperties := Some(v);
    }

    method SetTargetTable(v: string)
      modifies this
      ensures Snapshot() == old(Snapshot()).(targetTable := Some(v))
    {
      targetTable := Some(v);
    }

    method SetOperationMode(v: OperationMode)
      modifies this
      ensures Snapshot() == old(Snapshot()).(operationMode := Some(v))
    {
      operationMode := Some(v);
    }

    method SetInsertValues(v: map<string, ValueDefinition>)
      modifies this
      ensures Snapshot() == old(Snapshot()).(insertValues := Some(v))
    {
      insertValues := Some(v);
    }

    method SetUpdateValues(v: map<string, ValueDefinition>)
      modifies this
      ensures Snapshot() == old(Snapshot()).(updateValues := Some(v))
    {
      updateValues := Some(v);
    }

    method SetTransform(v: map<string, ValueDefinition>)
      modifies this
      ensures Snapshot() == old(Snapshot()).(transform := Some(v))
    {
      transform := Some(v);
    }

    method SetScripting(v: seq<string>)
      modifies this
      ensures Snapshot() == old(Snapshot()).(scripting := Some(v))
    {
      scripting := Some(v);
    }

    /** The stored value is kept as given; only getBatchSize normalises it. */
    method SetBatchSize(v: int)
      modifies this
      ensures Snapshot() == old(Snapshot()).(batchSize := v)
      ensures GetBatchSize() == NormalizedBatchSize(v)
    {
      batchSize := v;
    }

    method SetForceUpdate(v: bool)
      modifies this
      ensures Snapshot() == old(Snapshot()).(forceUpdate := v)
    {
      forceUpdate := v;
    }
  }

  /** A fresh configuration batches 100 statements. */
  lemma DefaultBatchSize()
    ensures Defaults.BatchSize() == 100
  {
  }
}
