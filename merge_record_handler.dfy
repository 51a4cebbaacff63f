/**
 * MergeRecordHandler (the per-record variant): each record is looked up with a SELECT on its
 * raw primary-key values; a missing row is inserted through an embedded insert handler, a row
 * whose ordered columns already hold the record's transformed values is left alone, and any
 * other row gets a batched UPDATE.
 */
module MergeHandling {
  import opened Wrappers
  import opened Records
  import opened ValueDefinitions
  import opened Config
  import opened RecordHandling
  import opened Jdbc
  import opened Text
  import InsertHandling
  import InsertUpdateHandling

  /** The failure of a merge handler built without primary keys. */
  const MissingKeys: Error := RuntimeError("primaryKeys required for MERGE mode")

  // ---------------------------------------------------------------- statement text

  /** "column = slot" for each column with its slot. */
  function Assignments(columns: seq<string>, slots: seq<string>): (r: seq<string>)
    requires |columns| == |slots|
    ensures |r| == |columns|
  {
    seq(|columns|, i requires 0 <= i < |columns| => columns[i] + " = " + slots[i])
  }

  /** One condition per primary-key column, the name written as configured (not escaped). */
  function WhereClause(pks: seq<string>): string {
    Join(Assignments(pks, seq(|pks|, _ => "?")), " AND ")
  }

  /**
   * One more entry of a clause under construction: the separator only when the builder
   * already holds something, which is how the constructor tells the first entry.
   */
  function AppendAssignment(clause: string, sep: string, column: string, slot: string): string {
    (if |clause| > 0 then clause + sep else clause) + column + " = " + slot
  }

  /** An assignment is never empty, so the length test puts separators exactly between entries. */
  lemma AssignmentsStep(columns: seq<string>, slots: seq<string>, sep: string, i: nat)
    requires |columns| == |slots| && i < |columns|
    ensures Join(Assignments(columns, slots)[..i + 1], sep)
      == AppendAssignment(Join(Assignments(columns, slots)[..i], sep), sep, columns[i], slots[i])
  {
    var parts := Assignments(columns, slots);
    JoinStep(parts, sep, i);
    if i > 0 {
      InsertHandling.JoinNonEmpty(parts[..i], sep);
    }
  }

  /** The constructor's WHERE loop. */
  method BuildWhereClause(pks: seq<string>) returns (w: string)
    ensures w == WhereClause(pks)
  {
    ghost var marks: seq<string> := seq(|pks|, _ => "?");
    w := "";
    for i := 0 to |pks|
      invariant w == Join(Assignments(pks, marks)[..i], " AND ")
    {
      AssignmentsStep(pks, marks, " AND ", i);
      w := AppendAssignment(w, " AND ", pks[i], "?");
    }
    assert Assignments(pks, marks)[..|pks|] == Assignments(pks, marks);
  }

  /** The existence query: every column of the row with the record's key. */
  function SelectSql(cfg: Settings): string {
    "SELECT * FROM " + TableText(cfg.targetTable) + " WHERE " + WhereClause(InsertUpdateHandling.PrimaryKeys(cfg))
  }

  /** The configured update values; an absent map has no entries. */
  function UpdateDefinitions(cfg: Settings): map<string, ValueDefinition> {
    if cfg.updateValues.None? then map[] else cfg.updateValues.value
  }

  /** getColumnNamesWithUpdateValues. */
  ghost function UpdateValueColumns(cfg: Settings): (r: seq<string>)
    ensures forall n | n in r :: n in UpdateDefinitions(cfg)
  {
    SortedColumnNames(cfg.updateValues)
  }

  /**
   * The SET clause: each update-value column with its SQL text or a placeholder, then each
   * ordered column with a placeholder.
   */
  ghost function SetClause(cfg: Settings): string
    requires cfg.columnMappings.Some?
  {
    var names := UpdateValueColumns(cfg);
    var ordered := OrderedTableColumnNames(cfg);
    Join(Assignments(names + ordered, InsertHandling.Slots(UpdateDefinitions(cfg), names, |ordered|)), ", ")
  }

  /** The UPDATE the constructor prepares. */
  ghost function UpdateSql(cfg: Settings): string
    requires cfg.columnMappings.Some?
  {
    "UPDATE " + TableText(cfg.targetTable) + " SET " + SetClause(cfg) + " WHERE " + WhereClause(InsertUpdateHandling.PrimaryKeys(cfg))
  }

  /** The constructor's two SET loops. */
  method BuildSetClause(defs: map<string, ValueDefinition>, names: seq<string>, ordered: seq<string>)
    returns (clause: string)
    requires forall n | n in names :: n in defs
    ensures clause == Join(Assignments(names + ordered, InsertHandling.Slots(defs, names, |ordered|)), ", ")
  {
    ghost var all := names + ordered;
    ghost var slots := InsertHandling.Slots(defs, names, |ordered|);
    clause := "";
    for i := 0 to |names|
      invariant clause == Join(Assignments(all, slots)[..i], ", ")
    {
      var definition := defs[names[i]];
      var slot := if ProducesSql(definition) then definition.sql else "?";
      assert all[i] == names[i] && slots[i] == slot;
      AssignmentsStep(all, slots, ", ", i);
      clause := AppendAssignment(clause, ", ", names[i], slot);
    }
    for j := 0 to |ordered|
      invariant clause == Join(Assignments(all, slots)[..|names| + j], ", ")
    {
      assert all[|names| + j] == ordered[j] && slots[|names| + j] == "?";
      AssignmentsStep(all, slots, ", ", |names| + j);
      clause := AppendAssignment(clause, ", ", ordered[j], "?");
    }
    assert Assignments(all, slots)[..|all|] == Assignments(all, slots);
  }

  /** Builds both statement texts as the constructor does, filling the column-name memos. */
  /**
   * The merge handler's base and its insert handler: both valid, built for the same setup,
   * distinct, with the connection open and primary keys configured.
   */
  ghost predicate PartsValid(b: HandlerBase, ins: InsertHandling.InsertRecordHandler)
    reads b, ins, ins.base
  {
    && b.Valid() && SetupOk(b.Setup()) && InsertUpdateHandling.HasPrimaryKeys(b.config)
    && ins.Valid() && ins.Setup() == b.Setup() && ins.base != b
    && !b.connectionClosed
  }

  /** The merge handler's own base, its insert handler (thread 0 of 1) and the texts of its two statements. */
  method NewParts(config: Settings, dialect: SqlDialect, scripting: Scripting)
    returns (b: HandlerBase, ins: InsertHandling.InsertRecordHandler, selectText: string, updateText: string)
    requires SetupOk(HandlerSetup(config, dialect, scripting, 0, 1)) && InsertUpdateHandling.HasPrimaryKeys(config)
    ensures fresh(b) && fresh(ins) && fresh(ins.base)
    ensures PartsValid(b, ins) && b.Setup() == HandlerSetup(config, dialect, scripting, 0, 1)
    ensures ins.State() == InsertHandling.InsertState(Prepare(InsertHandling.InsertSql(config)), 0, {}, [], false)
    ensures selectText == SelectSql(config) && updateText == UpdateSql(config)
  {
    b := new HandlerBase(config, dialect, scripting, 0, 1);
    selectText, updateText := StatementTexts(b);
    ins := new InsertHandling.InsertRecordHandler(config, dialect, scripting, 0, 1);
  }

  method StatementTexts(b: HandlerBase) returns (selectText: string, updateText: string)
    requires b.Valid() && b.config.columnMappings.Some? && InsertUpdateHandling.HasPrimaryKeys(b.config)
    modifies b
    ensures b.Valid()
    ensures b.batchExecutionDisabled == old(b.batchExecutionDisabled) && b.connectionClosed == old(b.connectionClosed)
    ensures selectText == SelectSql(b.config) && updateText == UpdateSql(b.config)
  {
    var where := BuildWhereClause(b.config.primaryKeys.value);
    var names := b.GetColumnNamesWithUpdateValues();
    var ordered := b.GetOrderedTableColumnNames();
    var assignments := BuildSetClause(UpdateDefinitions(b.config), names, ordered);
    selectText := "SELECT * FROM " + TableText(b.config.targetTable) + " WHERE " + where;
    updateText := "UPDATE " + TableText(b.config.targetTable) + " SET " + assignments + " WHERE " + where;
  }

  // ---------------------------------------------------------------- placeholders

  /** Column names, table name and SQL update values free of '?'. */
  ghost predicate NamesHaveNoPlaceholders(cfg: Settings)
    requires cfg.columnMappings.Some?
  {
    && '?' !in TableText(cfg.targetTable)
    && (forall n | n in InsertUpdateHandling.PrimaryKeys(cfg) :: '?' !in n)
    && (forall n | n in UpdateValueColumns(cfg) :: '?' !in n)
    && (forall n | n in OrderedTableColumnNames(cfg) :: '?' !in n)
    && InsertHandling.SqlValuesHaveNoPlaceholders(UpdateDefinitions(cfg))
  }

  /** "name = slot" holds the placeholders of the slot alone. */
  lemma AssignmentPlaceholders(name: string, slot: string)
    requires '?' !in name
    ensures Occurrences(name + " = " + slot, '?') == Occurrences(slot, '?')
  {
    var eq := " = ";
    OccurrencesAbsent(name, '?');
    OccurrencesAbsent(eq, '?');
    OccurrencesAppend(name, eq, '?');
    OccurrencesAppend(name + eq, slot, '?');
  }

  /** The assignments hold the placeholders of their slots. */
  lemma {:induction false} AssignmentsPlaceholders(columns: seq<string>, slots: seq<string>)
    requires |columns| == |slots| && forall n | n in columns :: '?' !in n
    ensures TotalOccurrences(Assignments(columns, slots), '?') == TotalOccurrences(slots, '?')
  {
    if columns != [] {
      var m := |columns| - 1;
      assert Assignments(columns, slots)[..m] == Assignments(columns[..m], slots[..m]);
      assert forall n | n in columns[..m] :: n in columns;
      AssignmentsPlaceholders(columns[..m], slots[..m]);
      AssignmentPlaceholders(columns[m], slots[m]);
    }
  }

  /** Joining assignments adds no placeholders when the separator has none. */
  lemma JoinedAssignmentsPlaceholders(columns: seq<string>, slots: seq<string>, sep: string)
    requires |columns| == |slots| && forall n | n in columns :: '?' !in n
    requires '?' !in sep
    ensures Occurrences(Join(Assignments(columns, slots), sep), '?') == TotalOccurrences(slots, '?')
  {
    OccurrencesAbsent(sep, '?');
    JoinOccurrences(Assignments(columns, slots), sep, '?');
    AssignmentsPlaceholders(columns, slots);
  }

  /** The WHERE clause holds one '?' per key column. */
  lemma WherePlaceholders(pks: seq<string>)
    requires forall n | n in pks :: '?' !in n
    ensures Occurrences(WhereClause(pks), '?') == |pks|
  {
    JoinedAssignmentsPlaceholders(pks, seq(|pks|, _ => "?"), " AND ");
    InsertHandling.PlaceholderRun(|pks|);
  }

  /** The SET clause holds one '?' per bound update value and one per ordered column. */
  lemma SetClausePlaceholders(cfg: Settings)
    requires cfg.columnMappings.Some? && NamesHaveNoPlaceholders(cfg)
    ensures Occurrences(SetClause(cfg), '?')
      == InsertHandling.BoundCount(UpdateDefinitions(cfg), UpdateValueColumns(cfg)) + |OrderedTableColumnNames(cfg)|
  {
    var defs := UpdateDefinitions(cfg);
    var names := UpdateValueColumns(cfg);
    var ordered := OrderedTableColumnNames(cfg);
    assert forall n | n in names + ordered :: n in names || n in ordered;
    JoinedAssignmentsPlaceholders(names + ordered, InsertHandling.Slots(defs, names, |ordered|), ", ");
    InsertHandling.SlotsPlaceholders(defs, names, |ordered|);
  }

  /** The fixed words of the UPDATE hold no '?'. */
  lemma UpdateTextPlaceholders(table: string, assignments: string, where: string)
    requires '?' !in table
    ensures Occurrences("UPDATE " + table + " SET " + assignments + " WHERE " + where, '?')
      == Occurrences(assignments, '?') + Occurrences(where, '?')
  {
    var update, setWord, whereWord := "UPDATE ", " SET ", " WHERE ";
    OccurrencesAbsent(table, '?');
    OccurrencesAbsent(update, '?');
    OccurrencesAbsent(setWord, '?');
    OccurrencesAbsent(whereWord, '?');
    OccurrencesAppend(update, table, '?');
    OccurrencesAppend(update + table, setWord, '?');
    OccurrencesAppend(update + table + setWord, assignments, '?');
    OccurrencesAppend(update + table + setWord + assignments, whereWord, '?');
    OccurrencesAppend(update + table + setWord + assignments + whereWord, where, '?');
  }

  /** The UPDATE holds one '?' per bound update value, per ordered column and per key column. */
  lemma UpdatePlaceholders(cfg: Settings)
    requires cfg.columnMappings.Some? && NamesHaveNoPlaceholders(cfg)
    ensures Occurrences(UpdateSql(cfg), '?')
      == InsertHandling.BoundCount(UpdateDefinitions(cfg), UpdateValueColumns(cfg)) + |OrderedTableColumnNames(cfg)|
         + |InsertUpdateHandling.PrimaryKeys(cfg)|
  {
    UpdateTextPlaceholders(TableText(cfg.targetTable), SetClause(cfg), WhereClause(InsertUpdateHandling.PrimaryKeys(cfg)));
    SetClausePlaceholders(cfg);
    WherePlaceholders(InsertUpdateHandling.PrimaryKeys(cfg));
  }

  // ---------------------------------------------------------------- parameters

  /** The key columns' values in a record or a fetched row, in primaryKeys order. */
  function KeyValues(pks: seq<string>, r: map<string, Value>): (vs: seq<Value>)
    ensures |vs| == |pks| && forall i | 0 <= i < |pks| :: vs[i] == Get(r, pks[i])
  {
    seq(|pks|, i requires 0 <= i < |pks| => Get(r, pks[i]))
  }

  /** A binding loop over the key columns. */
  method BindKeyValues(pks: seq<string>, r: map<string, Value>) returns (vs: seq<Value>)
    ensures vs == KeyValues(pks, r)
  {
    vs := [];
    for i := 0 to |pks|
      invariant vs == KeyValues(pks[..i], r)
    {
      vs := vs + [Get(r, pks[i])];
    }
    assert pks[..|pks|] == pks;
  }

  /**
   * What an update binds: the evaluated non-SQL update values, the transformed ordered
   * columns, then the fetched row's key values for the WHERE clause.
   */
  ghost function UpdateParams(cfg: Settings, sc: Scripting, rec: Record, row: Row): Result<seq<Value>>
    requires cfg.columnMappings.Some?
  {
    var values :- InsertHandling.InsertValueParams(UpdateDefinitions(cfg), sc, UpdateValueColumns(cfg), rec);
    var transformed :- TransformParams(cfg, sc, OrderedTableColumnNames(cfg), rec);
    Ok(values + transformed + KeyValues(InsertUpdateHandling.PrimaryKeys(cfg), row))
  }

  /** An update binds exactly as many values as the UPDATE has placeholders. */
  lemma UpdateBindsEveryPlaceholder(cfg: Settings, sc: Scripting, rec: Record, row: Row)
    requires cfg.columnMappings.Some? && NamesHaveNoPlaceholders(cfg)
    requires UpdateParams(cfg, sc, rec, row).Ok?
    ensures |UpdateParams(cfg, sc, rec, row).value| == Occurrences(UpdateSql(cfg), '?')
  {
    UpdatePlaceholders(cfg);
    var values := InsertHandling.InsertValueParams(UpdateDefinitions(cfg), sc, UpdateValueColumns(cfg), rec);
    var transformed := TransformParams(cfg, sc, OrderedTableColumnNames(cfg), rec);
    assert values.Ok? && transformed.Ok?;
  }

  // ---------------------------------------------------------------- handling records

  /** The handler's state as a value, the embedded insert handler's included. */
  datatype MergeState = MergeState(
    select: PreparedStatement,
    update: PreparedStatement,
    pending: int,                          // numberOfStatementsInBatch
    inserted: InsertHandling.InsertState)

  /** What handleRecord did with a record. */
  datatype Merged = Inserted | Unchanged | Updated

  datatype MergeStep = MergeStep(result: Result<Merged>, state: MergeState)

  /** checkBatchExecution: the update batch is executed only once it holds more than `limit` rows. */
  function CheckUpdates(st: MergeState, limit: int): (r: MergeState)
    ensures r.update.Submitted() == st.update.Submitted() && r.update.sql == st.update.sql
    ensures r.update.closed == st.update.closed && r.select == st.select && r.inserted == st.inserted
    ensures st.pending <= limit ==> r == st
    ensures st.pending > limit ==> r.update.batch == [] && r.pending == 0
  {
    if st.pending > limit then st.(update := ExecuteBatch(st.update), pending := 0) else st
  }

  /** The update path: bind, add to the batch, count it and check the batch. */
  ghost function UpdateStep(k: HandlerSetup, st: MergeState, rec: Record, row: Row): (r: MergeStep)
    requires SetupOk(k)
    ensures r.state.select == st.select && r.state.inserted == st.inserted
    ensures r.result.Ok? <==> UpdateParams(k.cfg, k.sc, rec, row).Ok?
    ensures r.result.Ok? ==>
      (r.result == Ok(Updated) && r.state.update.Submitted() == st.update.Submitted() + [UpdateParams(k.cfg, k.sc, rec, row).value])
    ensures r.result.Err? ==> r.state == st && r.result.error == UpdateParams(k.cfg, k.sc, rec, row).error
    ensures st.pending == |st.update.batch| ==> r.state.pending == |r.state.update.batch|
    ensures 0 <= st.pending <= k.cfg.BatchSize() ==> 0 <= r.state.pending <= k.cfg.BatchSize()
  {
    match UpdateParams(k.cfg, k.sc, rec, row)
    case Err(e) => MergeStep(Err(e), st)
    case Ok(ps) =>
      MergeStep(Ok(Updated), CheckUpdates(st.(pending := st.pending + 1, update := AddBatch(st.update, ps)), k.cfg.BatchSize()))
  }

  /**
   * handleRecord, given the row the SELECT finds (if any). The SELECT always runs; a missing
   * row sends the record to the insert handler; an unchanged row is left alone; otherwise the
   * row is updated.
   */
  ghost function MergeSpec(k: HandlerSetup, st: MergeState, rec: Record, existing: Option<Row>): (r: MergeStep)
    requires SetupOk(k)
    ensures r.state.select == ExecuteQuery(st.select, KeyValues(InsertUpdateHandling.PrimaryKeys(k.cfg), rec))
    ensures existing.None? ==>
      var ins := InsertHandling.InsertStep(k, st.inserted, rec);
      && r.state.inserted == ins.state && r.state.update == st.update && r.state.pending == st.pending
      && (r.result.Ok? <==> ins.result.Ok?) && (r.result.Ok? ==> r.result.value == Inserted)
      && (r.result.Err? ==> r.result.error == ins.result.error)
    ensures existing.Some? ==> r.state.inserted == st.inserted
    ensures r.result != Ok(Updated) ==> r.state.update == st.update && r.state.pending == st.pending
    ensures r.result == Ok(Updated) ==>
      (existing.Some? && UpdateParams(k.cfg, k.sc, rec, existing.value).Ok?
       && r.state.update.Submitted() == st.update.Submitted() + [UpdateParams(k.cfg, k.sc, rec, existing.value).value])
    ensures st.pending == |st.update.batch| ==> r.state.pending == |r.state.update.batch|
    ensures 0 <= st.pending <= k.cfg.BatchSize() ==> 0 <= r.state.pending <= k.cfg.BatchSize()
  {
    var queried := st.(select := ExecuteQuery(st.select, KeyValues(InsertUpdateHandling.PrimaryKeys(k.cfg), rec)));
    match existing
    case None =>
      var ins := InsertHandling.InsertStep(k, st.inserted, rec);
      MergeStep(if ins.result.Ok? then Ok(Inserted) else Err(ins.result.error), queried.(inserted := ins.state))
    case Some(row) => FoundStep(k, queried, rec, row)
  }

  /**
   * handleRecord against a table: the SELECT on the raw key finds the table's row exactly when
   * the key is present and holds no null; then the row is compared or updated, otherwise the
   * record goes to the insert handler.
   */
  lemma MergeAgainstTable(k: HandlerSetup, st: MergeState, rec: Record, table: Table)
    requires SetupOk(k)
    ensures var key := KeyValues(InsertUpdateHandling.PrimaryKeys(k.cfg), rec);
      var r := MergeSpec(k, st, rec, Lookup(table, key));
      && (key in table && Null !in key ==>
            r == FoundStep(k, st.(select := ExecuteQuery(st.select, key)), rec, table[key]))
      && (key !in table || Null in key ==>
            r.state.inserted == InsertHandling.InsertStep(k, st.inserted, rec).state
            && r.state.update == st.update && r.state.pending == st.pending)
  {
  }

  /** A found row: compared unless updates are forced, then updated unless unchanged. */
  ghost function FoundStep(k: HandlerSetup, st: MergeState, rec: Record, row: Row): (r: MergeStep)
    requires SetupOk(k)
    ensures r.state.select == st.select && r.state.inserted == st.inserted
    ensures r.result != Ok(Updated) ==> r.state == st
    ensures r.result == Ok(Updated) ==>
      (UpdateParams(k.cfg, k.sc, rec, row).Ok?
       && r.state.update.Submitted() == st.update.Submitted() + [UpdateParams(k.cfg, k.sc, rec, row).value])
    ensures st.pending == |st.update.batch| ==> r.state.pending == |r.state.update.batch|
    ensures 0 <= st.pending <= k.cfg.BatchSize() ==> 0 <= r.state.pending <= k.cfg.BatchSize()
  {
    if k.cfg.forceUpdate then UpdateStep(k, st, rec, row)
    else
      match InsertUpdateHandling.Changed(k.cfg, k.sc, OrderedTableColumnNames(k.cfg), row, rec)
      case Err(e) => MergeStep(Err(e), st)
      case Ok(changed) => if changed then UpdateStep(k, st, rec, row) else MergeStep(Ok(Unchanged), st)
  }

  /**
   * A found row whose ordered columns all equal the record's transformed values, updates not
   * forced: no statement is added, nothing is inserted, and the count is unchanged.
   */
  lemma UnchangedRowIsLeftAlone(k: HandlerSetup, st: MergeState, rec: Record, row: Row)
    requires SetupOk(k) && !k.cfg.forceUpdate
    requires forall i | 0 <= i < |OrderedTableColumnNames(k.cfg)| ::
      Transform(k.cfg, k.sc, OrderedTableColumnNames(k.cfg)[i], rec) == Ok(Get(row, OrderedTableColumnNames(k.cfg)[i]))
    ensures MergeSpec(k, st, rec, Some(row)).result == Ok(Unchanged)
    ensures MergeSpec(k, st, rec, Some(row)).state == st.(select := MergeSpec(k, st, rec, Some(row)).state.select)
  {
    InsertUpdateHandling.UnchangedMeansEqual(k.cfg, k.sc, OrderedTableColumnNames(k.cfg), row, rec);
  }

  /** A found row that differs in some ordered column, or any found row when forced, is updated once. */
  lemma ChangedRowIsUpdated(k: HandlerSetup, st: MergeState, rec: Record, row: Row)
    requires SetupOk(k) && UpdateParams(k.cfg, k.sc, rec, row).Ok?
    requires k.cfg.forceUpdate || InsertUpdateHandling.Changed(k.cfg, k.sc, OrderedTableColumnNames(k.cfg), row, rec) == Ok(true)
    ensures MergeSpec(k, st, rec, Some(row)).result == Ok(Updated)
    ensures MergeSpec(k, st, rec, Some(row)).state.update.Submitted()
      == st.update.Submitted() + [UpdateParams(k.cfg, k.sc, rec, row).value]
  {
  }

  /** close: pending updates are executed, then the insert handler and both statements are closed. */
  function CloseSpec(st: MergeState): (r: MergeState)
    ensures r.update.closed && r.select.closed && r.inserted.statement.closed
    ensures st.pending > 0 ==> r.update.batch == [] && r.update.executed == st.update.Submitted()
    ensures st.pending <= 0 ==> r.update == Jdbc.Close(st.update)
    ensures r.inserted.routed == st.inserted.routed
  {
    var flushed := CheckUpdates(st, 0);
    var inserts := InsertHandling.CheckBatch(st.inserted, 0);
    MergeState(Jdbc.Close(flushed.select), Jdbc.Close(flushed.update), flushed.pending,
               inserts.(statement := Jdbc.Close(inserts.statement)))
  }

  // ---------------------------------------------------------------- the handler

  /** A fresh handler: both statements prepared, nothing pending, a fresh insert handler. */
  ghost function InitialState(cfg: Settings): (r: MergeState)
    requires cfg.columnMappings.Some?
    ensures r.update.Submitted() == [] && r.pending == 0 && !r.select.closed && !r.update.closed
  {
    MergeState(Prepare(SelectSql(cfg)), Prepare(UpdateSql(cfg)), 0,
               InsertHandling.InsertState(Prepare(InsertHandling.InsertSql(cfg)), 0, {}, [], false))
  }

  class MergeRecordHandler {
    const base: HandlerBase
    const inserter: InsertHandling.InsertRecordHandler
    /** The texts the two statements were prepared with. */
    ghost const selectSql: string
    ghost const updateSql: string
    var selectStatement: PreparedStatement
    var updateStatement: PreparedStatement
    var numberOfStatementsInBatch: int

    function Setup(): HandlerSetup {
      base.Setup()
    }

    function State(): MergeState
      reads this, inserter, inserter.base
    {
      MergeState(selectStatement, updateStatement, numberOfStatementsInBatch, inserter.State())
    }

    /**
     * The statements are the ones prepared for this configuration and still open, the count
     * counts the update batch and never exceeds the batch size, and the insert handler shares
     * the configuration.
     */
    ghost predicate Valid()
      reads this, base, inserter, inserter.base
    {
      && PartsValid(base, inserter)
      && selectStatement.sql == selectSql && updateStatement.sql == updateSql
      && !selectStatement.closed && !updateStatement.closed
      && numberOfStatementsInBatch == |updateStatement.batch|
      && 0 <= numberOfStatementsInBatch <= base.config.BatchSize()
    }

    constructor (config: Settings, dialect: SqlDialect, scripting: Scripting)
      requires SetupOk(HandlerSetup(config, dialect, scripting, 0, 1)) && InsertUpdateHandling.HasPrimaryKeys(config)
      ensures Valid() && fresh(base) && fresh(inserter) && fresh(inserter.base)
      ensures Setup() == HandlerSetup(config, dialect, scripting, 0, 1)
      ensures State() == InitialState(config)
    {
      var b, ins, selectText, updateText := NewParts(config, dialect, scripting);
      base := b;
      inserter := ins;
      selectSql := selectText;
      updateSql := updateText;
      selectStatement := Prepare(selectText);
      updateStatement := Prepare(updateText);
      numberOfStatementsInBatch := 0;
    }

    /** handleRecord, given the row the SELECT returns, if any. */
    method HandleRecord(rec: Record, existing: Option<Row>) returns (r: Result<Merged>)
      requires Valid()
      modifies this, base, inserter, inserter.base
      ensures Valid()
      ensures MergeStep(r, State()) == MergeSpec(Setup(), old(State()), rec, existing)
    {
      var params := BindKeyValues(base.config.primaryKeys.value, rec);
      Query(params);
      if existing.None? {
        var handled := Insert(rec);
        return if handled.Ok? then Ok(Inserted) else Err(handled.error);
      }
      r := HandleFound(rec, existing.value);
    }

    /** Runs the SELECT with the given key values; nothing else changes. */
    method Query(keys: seq<Value>)
      requires Valid()
      modifies this
      ensures Valid()
      ensures State() == old(State()).(select := ExecuteQuery(old(State()).select, keys))
    {
      selectStatement := ExecuteQuery(selectStatement, keys);
    }

    /** Hands a record to the embedded insert handler; the merge handler's own statements do not change. */
    method Insert(rec: Record) returns (r: Result<InsertHandling.Handled>)
      requires Valid()
      modifies inserter, inserter.base
      ensures Valid()
      ensures r == InsertHandling.InsertStep(Setup(), old(State()).inserted, rec).result
      ensures State() == old(State()).(inserted := InsertHandling.InsertStep(Setup(), old(State()).inserted, rec).state)
    {
      r := inserter.HandleRecord(rec);
    }

    /** handleRecord once the SELECT has found a row. */
    method HandleFound(rec: Record, row: Row) returns (r: Result<Merged>)
      requires Valid()
      modifies this, base
      ensures Valid()
      ensures MergeStep(r, State()) == FoundStep(Setup(), old(State()), rec, row)
    {
      if !base.config.forceUpdate {
        var ordered := base.GetOrderedTableColumnNames();
        var changed := InsertUpdateHandling.DataChanged(base.config, base.scripting, ordered, row, rec);
        if changed.Err? {
          return Err(changed.error);
        }
        if !changed.value {
          return Ok(Unchanged);
        }
      }
      r := Update(rec, row);
    }

    /** The update path of handleRecord. */
    method Update(rec: Record, row: Row) returns (r: Result<Merged>)
      requires Valid()
      modifies this, base
      ensures Valid()
      ensures MergeStep(r, State()) == UpdateStep(Setup(), old(State()), rec, row)
    {
      var params :- BindUpdate(rec, row);
      numberOfStatementsInBatch := numberOfStatementsInBatch + 1;
      updateStatement := AddBatch(updateStatement, params);
      CheckBatchExecution(base.config.BatchSize());
      r := Ok(Updated);
    }

    /** The binding loops of the update path. */
    method BindUpdate(rec: Record, row: Row) returns (r: Result<seq<Value>>)
      requires Valid()
      modifies base
      ensures Valid()
      ensures r == UpdateParams(base.config, base.scripting, rec, row)
    {
      var names := base.GetColumnNamesWithUpdateValues();
      var values :- InsertHandling.BindInsertValues(UpdateDefinitions(base.config), base.scripting, names, rec);
      var ordered := base.GetOrderedTableColumnNames();
      var transformed :- BindTransforms(base.config, base.scripting, ordered, rec);
      var keys := BindKeyValues(base.config.primaryKeys.value, row);
      r := Ok(values + transformed + keys);
    }

    /** checkBatchExecution. */
    method CheckBatchExecution(limit: int)
      modifies this
      ensures State() == CheckUpdates(old(State()), limit)
    {
      if numberOfStatementsInBatch > limit {
        updateStatement := ExecuteBatch(updateStatement);
        numberOfStatementsInBatch := 0;
      }
    }

    /** close. */
    method Close()
      requires Valid()
      modifies this, base, inserter, inserter.base
      ensures base.connectionClosed && inserter.base.connectionClosed
      ensures State() == CloseSpec(old(State()))
    {
      CheckBatchExecution(0);
      inserter.Close();
      selectStatement := Jdbc.Close(selectStatement);
      updateStatement := Jdbc.Close(updateStatement);
      base.Close();
    }
  }

  /** The constructor with its check: without primary keys no handler is built. */
  method Create(config: Settings, dialect: SqlDialect, scripting: Scripting) returns (r: Result<MergeRecordHandler>)
    requires SetupOk(HandlerSetup(config, dialect, scripting, 0, 1))
    ensures r.Err? <==> !InsertUpdateHandling.HasPrimaryKeys(config)
    ensures r.Err? ==> r.error == MissingKeys
    ensures r.Ok? ==> (fresh(r.value) && r.value.Valid() && r.value.Setup() == HandlerSetup(config, dialect, scripting, 0, 1))
  {
    if !InsertUpdateHandling.HasPrimaryKeys(config) {
      return Err(MissingKeys);
    }
    var handler := new MergeRecordHandler(config, dialect, scripting);
    r := Ok(handler);
  }
}
