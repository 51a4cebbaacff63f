/**
 * AbstractInsertUpdateRecordHandler: records are buffered with their key fingerprint; a full
 * buffer is looked up with one SELECT whose WHERE clause repeats the primary-key condition once
 * per buffered record, and every buffered record is then classified, in buffer order, as an
 * insert, an update or nothing to do. The insert and the update themselves are left to
 * subclasses; here they are the log of actions requested of them.
 */
module InsertUpdateHandling {
  import opened Wrappers
  import opened Records
  import opened ValueDefinitions
  import opened JavaLang
  import opened Config
  import opened RecordHandling
  import opened Jdbc
  import opened Text

  // ---------------------------------------------------------------- configuration checks

  /** The operation mode as the error message prints it; an unset mode prints as null. */
  function ModeName(mode: Option<OperationMode>): (r: string)
    ensures |r| > 0
  {
    match mode
    case None => "null"
    case Some(Insert) => "INSERT"
    case Some(Merge) => "MERGE"
    case Some(InsertOnly) => "INSERTONLY"
  }

  predicate HasPrimaryKeys(cfg: Settings) {
    cfg.primaryKeys.Some? && |cfg.primaryKeys.value| > 0
  }

  function PrimaryKeys(cfg: Settings): seq<string> {
    if cfg.primaryKeys.None? then [] else cfg.primaryKeys.value
  }

  /** The failure of a handler built without primary keys. */
  function MissingKeysError(cfg: Settings): Error {
    RuntimeError("primaryKeys required for " + ModeName(cfg.operationMode) + " mode")
  }

  // ---------------------------------------------------------------- WHERE and SELECT text

  /** One condition per primary-key column: the escaped name followed by " = ?". */
  function KeyConditions(dialect: SqlDialect, pks: seq<string>): (r: seq<string>)
    ensures |r| == |pks|
  {
    seq(|pks|, i requires 0 <= i < |pks| => dialect.escapeSqlName(pks[i]) + " = ?")
  }

  /** buildWhereClause: the key conditions joined by " AND ", in primaryKeys order. */
  function WhereClause(dialect: SqlDialect, pks: seq<string>): string {
    Join(KeyConditions(dialect, pks), " AND ")
  }

  /** The loop of buildWhereClause: " AND " is written before every condition but the first. */
  method JoinKeyConditions(dialect: SqlDialect, pks: seq<string>) returns (w: string)
    ensures w == WhereClause(dialect, pks)
  {
    ghost var conditions := KeyConditions(dialect, pks);
    w := "";
    for i := 0 to |pks|
      invariant w == Join(conditions[..i], " AND ")
      invariant i > 0 ==> |w| > 0
    {
      JoinStep(conditions, " AND ", i);
      if |w| > 0 {
        w := w + " AND ";
      }
      w := w + dialect.escapeSqlName(pks[i]) + " = ?";
    }
    assert conditions[..|pks|] == conditions;
  }

  /** Escaped names that hold no '?' of their own. */
  predicate EscapesCleanly(dialect: SqlDialect, names: seq<string>) {
    forall i | 0 <= i < |names| :: '?' !in dialect.escapeSqlName(names[i])
  }

  /** The WHERE fragment holds one placeholder per primary-key column. */
  lemma WherePlaceholders(dialect: SqlDialect, pks: seq<string>)
    requires EscapesCleanly(dialect, pks)
    ensures Occurrences(WhereClause(dialect, pks), '?') == |pks|
  {
    OccurrencesAbsent(" AND ", '?');
    JoinOccurrences(KeyConditions(dialect, pks), " AND ", '?');
    ConditionsPlaceholders(dialect, pks);
  }

  lemma {:induction false} ConditionsPlaceholders(dialect: SqlDialect, pks: seq<string>)
    requires EscapesCleanly(dialect, pks)
    ensures TotalOccurrences(KeyConditions(dialect, pks), '?') == |pks|
  {
    if pks != [] {
      var m := |pks| - 1;
      assert KeyConditions(dialect, pks)[..m] == KeyConditions(dialect, pks[..m]);
      ConditionsPlaceholders(dialect, pks[..m]);
      var name := dialect.escapeSqlName(pks[m]);
      OccurrencesAbsent(name, '?');
      OccurrencesAbsent(" = ", '?');
      OccurrencesAppend(name, " = ", '?');
      OccurrencesAppend(name + " = ", "?", '?');
      assert name + " = ?" == name + " = " + "?";
      assert "?"[..0] == "";
    }
  }

  /** n - 1 further copies of the condition, each as " OR (" … ")". */
  function OrClauses(where: string, copies: nat): string {
    if copies == 0 then "" else OrClauses(where, copies - 1) + " OR (" + where + ")"
  }

  /** The escaped ordered column names joined by ", ": the SELECT list. */
  ghost function SelectList(cfg: Settings, dialect: SqlDialect): string
    requires cfg.columnMappings.Some?
  {
    var ordered := OrderedTableColumnNames(cfg);
    Join(seq(|ordered|, i requires 0 <= i < |ordered| => dialect.escapeSqlName(ordered[i])), ", ")
  }

  /** The head of the SELECT, up to and including " WHERE ". */
  ghost function SelectHead(cfg: Settings, dialect: SqlDialect): string
    requires cfg.columnMappings.Some?
  {
    "SELECT " + SelectList(cfg, dialect) + " FROM " + dialect.escapeSqlName(TableText(cfg.targetTable)) + " WHERE "
  }

  /** The SELECT for a buffer of n records: the WHERE fragment, then n - 1 " OR (…)" copies. */
  ghost function SelectSql(cfg: Settings, dialect: SqlDialect, n: int): string
    requires cfg.columnMappings.Some? && n >= 1
  {
    var where := WhereClause(dialect, PrimaryKeys(cfg));
    SelectHead(cfg, dialect) + where + OrClauses(where, n - 1)
  }

  lemma {:induction false} OrClausesPlaceholders(where: string, copies: nat)
    ensures Occurrences(OrClauses(where, copies), '?') == copies * Occurrences(where, '?')
  {
    if copies > 0 {
      OrClausesPlaceholders(where, copies - 1);
      var k := Occurrences(where, '?');
      OrClauseStep(OrClauses(where, copies - 1), where);
      assert (copies - 1) * k + k == copies * k;
    }
  }

  lemma OrClauseStep(prev: string, where: string)
    ensures Occurrences(prev + " OR (" + where + ")", '?') == Occurrences(prev, '?') + Occurrences(where, '?')
  {
    var open, close := " OR (", ")";
    OccurrencesAbsent(open, '?');
    OccurrencesAbsent(close, '?');
    OccurrencesAppend(prev, open, '?');
    OccurrencesAppend(prev + open, where, '?');
    OccurrencesAppend(prev + open + where, close, '?');
  }

  /** Names, table and keys escaped without '?': the SELECT's only placeholders are the keys'. */
  ghost predicate SelectEscapesCleanly(cfg: Settings, dialect: SqlDialect)
    requires cfg.columnMappings.Some?
  {
    && '?' !in SelectList(cfg, dialect)
    && '?' !in dialect.escapeSqlName(TableText(cfg.targetTable))
    && EscapesCleanly(dialect, PrimaryKeys(cfg))
  }

  /** The SELECT for n records holds n·|primaryKeys| placeholders. */
  lemma SelectPlaceholders(cfg: Settings, dialect: SqlDialect, n: int)
    requires cfg.columnMappings.Some? && n >= 1
    requires SelectEscapesCleanly(cfg, dialect)
    ensures Occurrences(SelectSql(cfg, dialect, n), '?') == n * |PrimaryKeys(cfg)|
  {
    var pks := PrimaryKeys(cfg);
    var where := WhereClause(dialect, pks);
    var head := SelectHead(cfg, dialect);
    HeadPlaceholders(SelectList(cfg, dialect), dialect.escapeSqlName(TableText(cfg.targetTable)));
    WherePlaceholders(dialect, pks);
    RepeatedWherePlaceholders(head, where, n);
  }

  lemma HeadPlaceholders(list: string, table: string)
    requires '?' !in list && '?' !in table
    ensures Occurrences("SELECT " + list + " FROM " + table + " WHERE ", '?') == 0
  {
    var select, from, where := "SELECT ", " FROM ", " WHERE ";
    OccurrencesAbsent(list, '?');
    OccurrencesAbsent(table, '?');
    OccurrencesAbsent(select, '?');
    OccurrencesAbsent(from, '?');
    OccurrencesAbsent(where, '?');
    OccurrencesAppend(select, list, '?');
    OccurrencesAppend(select + list, from, '?');
    OccurrencesAppend(select + list + from, table, '?');
    OccurrencesAppend(select + list + from + table, where, '?');
  }

  lemma RepeatedWherePlaceholders(head: string, where: string, n: int)
    requires n >= 1
    ensures Occurrences(head + where + OrClauses(where, n - 1), '?')
      == Occurrences(head, '?') + n * Occurrences(where, '?')
  {
    var k := Occurrences(where, '?');
    OrClausesPlaceholders(where, n - 1);
    OccurrencesAppend(head, where, '?');
    OccurrencesAppend(head + where, OrClauses(where, n - 1), '?');
    assert (n - 1) * k + k == n * k;
  }

  // ---------------------------------------------------------------- the buffer and its SELECT

  /** A buffered record with its key fingerprint (the Pair of the buffer). */
  datatype Buffered = Buffered(keys: string, rec: Record)

  /** The values bound for the buffer, record by record, `bind` giving one record's values. */
  ghost function BindingsWith(bind: Buffered -> seq<Result<Value>>, buffer: seq<Buffered>): seq<Result<Value>> {
    if buffer == [] then []
    else
      var m := |buffer| - 1;
      BindingsWith(bind, buffer[..m]) + bind(buffer[m])
  }

  /** What selectBatch binds for one buffered record: every key column's transform. */
  ghost function KeyBinder(cfg: Settings, sc: Scripting): (bind: Buffered -> seq<Result<Value>>)
    ensures forall b :: bind(b) == Transforms(cfg, sc, PrimaryKeys(cfg), b.rec)
  {
    (b: Buffered) => Transforms(cfg, sc, PrimaryKeys(cfg), b.rec)
  }

  /** The values selectBatch binds: every key column's transform, record by record. */
  ghost function SelectBindingResults(cfg: Settings, sc: Scripting, buffer: seq<Buffered>): seq<Result<Value>> {
    BindingsWith(KeyBinder(cfg, sc), buffer)
  }

  ghost function SelectBindings(cfg: Settings, sc: Scripting, buffer: seq<Buffered>): Result<seq<Value>> {
    Collect(SelectBindingResults(cfg, sc, buffer))
  }

  /** The SELECT binds exactly as many values as it has placeholders. */
  lemma SelectBindsEveryPlaceholder(cfg: Settings, dialect: SqlDialect, sc: Scripting, buffer: seq<Buffered>)
    requires cfg.columnMappings.Some? && |buffer| >= 1
    requires SelectEscapesCleanly(cfg, dialect)
    requires SelectBindings(cfg, sc, buffer).Ok?
    ensures |SelectBindings(cfg, sc, buffer).value| == Occurrences(SelectSql(cfg, dialect, |buffer|), '?')
  {
    SelectPlaceholders(cfg, dialect, |buffer|);
    SelectBindingCount(cfg, sc, buffer);
  }

  /** A binder that gives `n` values per record gives `n` per buffered record. */
  lemma {:induction false} BindingsCount(bind: Buffered -> seq<Result<Value>>, buffer: seq<Buffered>, n: nat)
    requires forall b :: |bind(b)| == n
    ensures |BindingsWith(bind, buffer)| == |buffer| * n
  {
    if buffer != [] {
      var m := |buffer| - 1;
      BindingsCount(bind, buffer[..m], n);
      assert m * n + n == |buffer| * n;
    }
  }

  /** One binding per key column and buffered record. */
  lemma SelectBindingCount(cfg: Settings, sc: Scripting, buffer: seq<Buffered>)
    ensures |SelectBindingResults(cfg, sc, buffer)| == |buffer| * |PrimaryKeys(cfg)|
  {
    BindingsCount(KeyBinder(cfg, sc), buffer, |PrimaryKeys(cfg)|);
  }

  /** The bindings of a leading part of the buffer lead the bindings of the whole buffer. */
  lemma {:induction false} BindingsPrefix(bind: Buffered -> seq<Result<Value>>, buffer: seq<Buffered>, i: nat)
    requires i <= |buffer|
    ensures BindingsWith(bind, buffer[..i]) <= BindingsWith(bind, buffer)
  {
    if i == |buffer| {
      assert buffer[..i] == buffer;
    } else {
      var m := |buffer| - 1;
      assert buffer[..m][..i] == buffer[..i];
      BindingsPrefix(bind, buffer[..m], i);
    }
  }

  /** One record of the binding loop: its values either fail the whole buffer or extend what is bound. */
  lemma BindAdvance(bind: Buffered -> seq<Result<Value>>, buffer: seq<Buffered>, i: nat, bound: seq<Value>)
    requires i < |buffer| && Collect(BindingsWith(bind, buffer[..i])) == Ok(bound)
    ensures Collect(bind(buffer[i])).Err? ==> Collect(BindingsWith(bind, buffer)) == Err(Collect(bind(buffer[i])).error)
    ensures Collect(bind(buffer[i])).Ok? ==> Collect(BindingsWith(bind, buffer[..i + 1])) == Ok(bound + Collect(bind(buffer[i])).value)
  {
    assert buffer[..i + 1][..i] == buffer[..i];
    CollectAppend(BindingsWith(bind, buffer[..i]), bind(buffer[i]));
    if Collect(bind(buffer[i])).Err? {
      var all := BindingsWith(bind, buffer);
      var done := BindingsWith(bind, buffer[..i + 1]);
      BindingsPrefix(bind, buffer, i + 1);
      assert all[..|done|] == done;
      CollectPrefixFailure(all, |done|);
    }
  }

  /** The binding loops of selectBatch: for each buffered record, each key column's transform. */
  method BindSelect(cfg: Settings, sc: Scripting, buffer: seq<Buffered>) returns (r: Result<seq<Value>>)
    ensures r == SelectBindings(cfg, sc, buffer)
  {
    ghost var bind := KeyBinder(cfg, sc);
    var pks := PrimaryKeys(cfg);
    var bound := [];
    for i := 0 to |buffer|
      invariant Collect(BindingsWith(bind, buffer[..i])) == Ok(bound)
    {
      var values := BindTransforms(cfg, sc, pks, buffer[i].rec);
      BindAdvance(bind, buffer, i, bound);
      if values.Err? {
        return Err(values.error);
      }
      bound := bound + values.value;
    }
    assert buffer[..|buffer|] == buffer;
    r := Ok(bound);
  }

  // ---------------------------------------------------------------- fetched rows by key

  /** A fetched row as toPrimaryKeysHashMap keeps it: the ordered columns and their values. */
  function ParsedRow(row: Row, columns: seq<string>): (r: Record)
    ensures forall c :: c in r <==> c in columns
    ensures forall c | c in columns :: r[c] == Get(row, c)
  {
    map c | c in columns :: Get(row, c)
  }

  /** The key fingerprint of a fetched row once parsed. */
  function RowKeys(dialect: SqlDialect, columns: seq<string>, row: Row): string {
    dialect.joinPrimaryKeys(ParsedRow(row, columns))
  }

  /** toPrimaryKeysHashMap: each fetched row under its key fingerprint; a later row replaces an earlier one. */
  function KeyedRows(dialect: SqlDialect, columns: seq<string>, rows: seq<Row>): map<string, Record> {
    if rows == [] then map[]
    else
      var m := |rows| - 1;
      KeyedRows(dialect, columns, rows[..m])[RowKeys(dialect, columns, rows[m]) := ParsedRow(rows[m], columns)]
  }

  /** A fingerprint is a key of the map exactly when some fetched row has it. */
  lemma {:induction false} KeyedRowsKeys(dialect: SqlDialect, columns: seq<string>, rows: seq<Row>, k: string)
    ensures k in KeyedRows(dialect, columns, rows) <==> exists i | 0 <= i < |rows| :: RowKeys(dialect, columns, rows[i]) == k
  {
    if rows != [] {
      var m := |rows| - 1;
      KeyedRowsKeys(dialect, columns, rows[..m], k);
      assert forall i | 0 <= i < m :: rows[..m][i] == rows[i];
      if exists i | 0 <= i < |rows| :: RowKeys(dialect, columns, rows[i]) == k {
        var i :| 0 <= i < |rows| && RowKeys(dialect, columns, rows[i]) == k;
        if i < m {
          assert RowKeys(dialect, columns, rows[..m][i]) == k;
        }
      }
    }
  }

  /** A fingerprint maps to the last fetched row that has it: later rows replace earlier ones. */
  lemma {:induction false} KeyedRowsLastWins(dialect: SqlDialect, columns: seq<string>, rows: seq<Row>, i: nat)
    requires i < |rows|
    requires forall j | i < j < |rows| :: RowKeys(dialect, columns, rows[j]) != RowKeys(dialect, columns, rows[i])
    ensures RowKeys(dialect, columns, rows[i]) in KeyedRows(dialect, columns, rows)
    ensures KeyedRows(dialect, columns, rows)[RowKeys(dialect, columns, rows[i])] == ParsedRow(rows[i], columns)
  {
    var m := |rows| - 1;
    if i < m {
      assert rows[..m][i] == rows[i];
      assert forall j | i < j < m :: rows[..m][j] == rows[j];
      KeyedRowsLastWins(dialect, columns, rows[..m], i);
    }
  }

  /** The inner loop of toPrimaryKeysHashMap: copy each ordered column of the row. */
  method ParseRow(row: Row, columns: seq<string>) returns (parsed: Record)
    ensures parsed == ParsedRow(row, columns)
  {
    parsed := map[];
    for j := 0 to |columns|
      invariant parsed == ParsedRow(row, columns[..j])
    {
      assert forall c :: c in columns[..j + 1] <==> c in columns[..j] || c == columns[j];
      parsed := parsed[columns[j] := Get(row, columns[j])];
    }
    assert columns[..|columns|] == columns;
  }

  /** toPrimaryKeysHashMap over the rows the SELECT returned. */
  method ToPrimaryKeysHashMap(dialect: SqlDialect, columns: seq<string>, rows: seq<Row>)
    returns (result: map<string, Record>)
    ensures result == KeyedRows(dialect, columns, rows)
  {
    result := map[];
    var i := 0;
    while i < |rows|
      invariant 0 <= i <= |rows|
      invariant result == KeyedRows(dialect, columns, rows[..i])
    {
      var parsed := ParseRow(rows[i], columns);
      assert rows[..i + 1][..i] == rows[..i];
      result := result[RowKeys(dialect, columns, rows[i]) := parsed];
      i := i + 1;
    }
    assert rows[..|rows|] == rows;
  }

  // ---------------------------------------------------------------- classification

  /**
   * The comparison loop of handleRecordsBatch: whether some ordered column's transformed value
   * differs from the fetched one, stopping at the first difference.
   */
  function Changed(cfg: Settings, sc: Scripting, columns: seq<string>, existing: Record, rec: Record)
    : Result<bool>
  {
    ChangedWith(Transformer(cfg, sc, rec), columns, existing)
  }

  /** The record's transformed value for each column. */
  function Transformer(cfg: Settings, sc: Scripting, rec: Record): (t: string -> Result<Value>)
    ensures forall c :: t(c) == Transform(cfg, sc, c, rec)
  {
    c => Transform(cfg, sc, c, rec)
  }

  /** The comparison against the fetched record, for any way of computing the new values. */
  function ChangedWith(transform: string -> Result<Value>, columns: seq<string>, existing: Record): Result<bool>
    decreases |columns|
  {
    if columns == [] then Ok(false)
    else
      var newValue :- transform(columns[0]);
      if Get(existing, columns[0]) != newValue then Ok(true)
      else ChangedWith(transform, columns[1..], existing)
  }

  /** Nothing changed exactly when every column's new value is the fetched one. */
  lemma {:induction false} UnchangedWith(transform: string -> Result<Value>, columns: seq<string>, existing: Record)
    ensures ChangedWith(transform, columns, existing) == Ok(false) <==>
      forall i | 0 <= i < |columns| :: transform(columns[i]) == Ok(Get(existing, columns[i]))
    decreases |columns|
  {
    if columns != [] {
      var rest := columns[1..];
      UnchangedWith(transform, rest, existing);
      assert forall i | 0 <= i < |rest| :: rest[i] == columns[i + 1];
      if forall i | 0 <= i < |rest| :: transform(rest[i]) == Ok(Get(existing, rest[i])) {
        if transform(columns[0]) == Ok(Get(existing, columns[0])) {
          forall i | 0 <= i < |columns|
            ensures transform(columns[i]) == Ok(Get(existing, columns[i]))
          {
            if i > 0 {
              assert columns[i] == rest[i - 1];
            }
          }
        }
      }
    }
  }

  /** Nothing changed exactly when every column's transform yields the fetched value. */
  lemma UnchangedMeansEqual(cfg: Settings, sc: Scripting, columns: seq<string>, existing: Record, rec: Record)
    ensures Changed(cfg, sc, columns, existing, rec) == Ok(false) <==>
      forall i | 0 <= i < |columns| :: Transform(cfg, sc, columns[i], rec) == Ok(Get(existing, columns[i]))
  {
    UnchangedWith(Transformer(cfg, sc, rec), columns, existing);
  }

  /** The loop itself, with its early exit. */
  method DataChanged(cfg: Settings, sc: Scripting, columns: seq<string>, existing: Record, rec: Record)
    returns (r: Result<bool>)
    ensures r == Changed(cfg, sc, columns, existing, rec)
  {
    ghost var transform := Transformer(cfg, sc, rec);
    var i := 0;
    while i < |columns|
      invariant 0 <= i <= |columns|
      invariant ChangedWith(transform, columns, existing) == ChangedWith(transform, columns[i..], existing)
    {
      var newValue := Transform(cfg, sc, columns[i], rec);
      assert columns[i..][0] == columns[i] && columns[i..][1..] == columns[i + 1..];
      if newValue.Err? {
        return Err(newValue.error);
      }
      if Get(existing, columns[i]) != newValue.value {
        return Ok(true);
      }
      i := i + 1;
    }
    r := Ok(false);
  }

  datatype Decision = DoInsert | DoUpdate | DoSkip

  /**
   * What handleRecordsBatch does with one buffered record: insert when no row was fetched for
   * its key; update when one was and updates are forced; otherwise update only if one of the
   * compared `columns` changed.
   */
  ghost function Decide(cfg: Settings, sc: Scripting, columns: seq<string>, fetched: map<string, Record>, b: Buffered)
    : (r: Result<Decision>)
    ensures b.keys !in fetched ==> r == Ok(DoInsert)
    ensures b.keys in fetched && cfg.forceUpdate ==> r == Ok(DoUpdate)
  {
    if b.keys !in fetched then Ok(DoInsert)
    else if cfg.forceUpdate then Ok(DoUpdate)
    else
      var changed :- Changed(cfg, sc, columns, fetched[b.keys], b.rec);
      Ok(if changed then DoUpdate else DoSkip)
  }

  /**
   * A fetched record, updates not forced: it is skipped exactly when every ordered column's
   * transformed value equals the fetched one, and updated when some column differs.
   */
  lemma DecideSkipsUnchanged(cfg: Settings, sc: Scripting, fetched: map<string, Record>, b: Buffered)
    requires cfg.columnMappings.Some? && b.keys in fetched && !cfg.forceUpdate
    ensures Decide(cfg, sc, OrderedTableColumnNames(cfg), fetched, b) == Ok(DoSkip) <==>
      forall i | 0 <= i < |OrderedTableColumnNames(cfg)| ::
        Transform(cfg, sc, OrderedTableColumnNames(cfg)[i], b.rec) == Ok(Get(fetched[b.keys], OrderedTableColumnNames(cfg)[i]))
    ensures Changed(cfg, sc, OrderedTableColumnNames(cfg), fetched[b.keys], b.rec) == Ok(true) ==>
      Decide(cfg, sc, OrderedTableColumnNames(cfg), fetched, b) == Ok(DoUpdate)
  {
    UnchangedMeansEqual(cfg, sc, OrderedTableColumnNames(cfg), fetched[b.keys], b.rec);
  }

  /** A request to the subclass: performInsert or performUpdate of a record. */
  datatype Action = PerformInsert(rec: Record) | PerformUpdate(rec: Record)

  /** The actions handleRecordsBatch requests, and the failure that ended it early, if any. */
  datatype Outcome = Outcome(actions: seq<Action>, failure: Option<Error>)

  function ActionsFor(d: Decision, rec: Record): seq<Action> {
    match d
    case DoInsert => [PerformInsert(rec)]
    case DoUpdate => [PerformUpdate(rec)]
    case DoSkip => []
  }

  /** The buffer classified in order by `decide`; the first failure ends the run. */
  function ClassifyWith(decide: Buffered -> Result<Decision>, buffer: seq<Buffered>): (r: Outcome)
    ensures |r.actions| <= |buffer|
  {
    if buffer == [] then Outcome([], None)
    else
      match decide(buffer[0])
      case Err(e) => Outcome([], Some(e))
      case Ok(d) =>
        var rest := ClassifyWith(decide, buffer[1..]);
        Outcome(ActionsFor(d, buffer[0].rec) + rest.actions, rest.failure)
  }

  /** The decision handleRecordsBatch takes for each buffered record. */
  ghost function Decider(cfg: Settings, sc: Scripting, columns: seq<string>, fetched: map<string, Record>)
    : (decide: Buffered -> Result<Decision>)
    ensures forall b :: decide(b) == Decide(cfg, sc, columns, fetched, b)
  {
    b => Decide(cfg, sc, columns, fetched, b)
  }

  /** handleRecordsBatch: the buffer classified in order; the first failure ends the run. */
  ghost function ClassifyAll(cfg: Settings, sc: Scripting, fetched: map<string, Record>, buffer: seq<Buffered>)
    : (r: Outcome)
    requires cfg.columnMappings.Some?
  {
    ClassifyWith(Decider(cfg, sc, OrderedTableColumnNames(cfg), fetched), buffer)
  }

  /** The actions requested so far, followed by what the rest of the run requests. */
  function Resume(actions: seq<Action>, rest: Outcome): Outcome {
    Outcome(actions + rest.actions, rest.failure)
  }

  /** One step of a run: the first record's decision, then the rest of the buffer. */
  lemma ClassifyFirst(decide: Buffered -> Result<Decision>, buffer: seq<Buffered>)
    requires buffer != []
    ensures var d := decide(buffer[0]);
      ClassifyWith(decide, buffer) ==
        if d.Err? then Outcome([], Some(d.error))
        else Resume(ActionsFor(d.value, buffer[0].rec), ClassifyWith(decide, buffer[1..]))
  {
  }

  /** The one action an insert or update decision requests. */
  function ActionOf(d: Decision, rec: Record): Action
    requires d != DoSkip
    ensures ActionsFor(d, rec) == [ActionOf(d, rec)]
  {
    if d == DoInsert then PerformInsert(rec) else PerformUpdate(rec)
  }

  /** A run whose every decision is the same insert or update requests that action for each record, in order. */
  lemma {:induction false} UniformRun(decide: Buffered -> Result<Decision>, d: Decision, buffer: seq<Buffered>)
    requires d != DoSkip
    requires forall i | 0 <= i < |buffer| :: decide(buffer[i]) == Ok(d)
    ensures ClassifyWith(decide, buffer)
      == Outcome(seq(|buffer|, i requires 0 <= i < |buffer| => ActionOf(d, buffer[i].rec)), None)
  {
    if buffer != [] {
      var rest := buffer[1..];
      assert forall i | 0 <= i < |rest| :: rest[i] == buffer[i + 1];
      UniformRun(decide, d, rest);
      assert seq(|buffer|, i requires 0 <= i < |buffer| => ActionOf(d, buffer[i].rec))
        == [ActionOf(d, buffer[0].rec)] + seq(|rest|, i requires 0 <= i < |rest| => ActionOf(d, rest[i].rec));
    }
  }

  /** When no buffered key was fetched, every buffered record is inserted, in buffer order. */
  lemma UnknownKeysAreInserted(cfg: Settings, sc: Scripting, fetched: map<string, Record>, buffer: seq<Buffered>)
    requires cfg.columnMappings.Some?
    requires forall i | 0 <= i < |buffer| :: buffer[i].keys !in fetched
    ensures ClassifyAll(cfg, sc, fetched, buffer)
      == Outcome(seq(|buffer|, i requires 0 <= i < |buffer| => PerformInsert(buffer[i].rec)), None)
  {
    var decide := Decider(cfg, sc, OrderedTableColumnNames(cfg), fetched);
    UniformRun(decide, DoInsert, buffer);
    assert seq(|buffer|, i requires 0 <= i < |buffer| => ActionOf(DoInsert, buffer[i].rec))
      == seq(|buffer|, i requires 0 <= i < |buffer| => PerformInsert(buffer[i].rec));
  }

  /** With forceUpdate and every key fetched, every buffered record is updated, in buffer order. */
  lemma ForcedKnownKeysAreUpdated(cfg: Settings, sc: Scripting, fetched: map<string, Record>, buffer: seq<Buffered>)
    requires cfg.columnMappings.Some? && cfg.forceUpdate
    requires forall i | 0 <= i < |buffer| :: buffer[i].keys in fetched
    ensures ClassifyAll(cfg, sc, fetched, buffer)
      == Outcome(seq(|buffer|, i requires 0 <= i < |buffer| => PerformUpdate(buffer[i].rec)), None)
  {
    var decide := Decider(cfg, sc, OrderedTableColumnNames(cfg), fetched);
    UniformRun(decide, DoUpdate, buffer);
    assert seq(|buffer|, i requires 0 <= i < |buffer| => ActionOf(DoUpdate, buffer[i].rec))
      == seq(|buffer|, i requires 0 <= i < |buffer| => PerformUpdate(buffer[i].rec));
  }

  // ---------------------------------------------------------------- the handler's state

  /** The handler's mutable state as a value. */
  datatype IUState = IUState(
    selects: map<int, PreparedStatement>,  // selectStatements, keyed by buffer size
    where: Option<string>,                  // the memoised WHERE fragment
    buffer: seq<Buffered>,                  // nameValuesBuffer
    routed: seq<Routed>,                    // records handed to other handler threads
    performed: seq<Action>)                 // performInsert/performUpdate requests, in order

  datatype IUStep = IUStep(result: Result<()>, state: IUState)

  /** What selectBatch yields: the values bound (or the failure), and the new state. */
  datatype Queried = Queried(bindings: Result<seq<Value>>, state: IUState)

  /** Every cached SELECT is the one for its buffer size, and still open. */
  ghost predicate SelectsValid(k: HandlerSetup, selects: map<int, PreparedStatement>)
    requires k.cfg.columnMappings.Some?
  {
    forall n | n in selects :: n >= 1 && selects[n].sql == SelectSql(k.cfg, k.dialect, n) && !selects[n].closed
  }

  /** Each buffered fingerprint is the fingerprint of its record. */
  predicate BufferKeyed(dialect: SqlDialect, buffer: seq<Buffered>) {
    forall i | 0 <= i < |buffer| :: buffer[i].keys == dialect.joinPrimaryKeys(buffer[i].rec)
  }

  /** A statement cached under key n unless one is there already; the other entries stay as they were. */
  function Cached(s: IUState, n: int, stmt: PreparedStatement, where: string): (r: IUState)
    ensures n in r.selects && r.buffer == s.buffer && r.routed == s.routed && r.performed == s.performed
    ensures n in s.selects ==> r == s
    ensures n !in s.selects ==> r.selects[n] == stmt
    ensures forall m | m in s.selects :: m in r.selects && r.selects[m] == s.selects[m]
    ensures r.selects.Keys == s.selects.Keys + {n}
  {
    if n in s.selects then s
    else s.(selects := s.selects[n := stmt], where := Some(where))
  }

  /** getOrCreateSelectStatement for n >= 1: a cached SELECT is reused, a missing one prepared and cached. */
  ghost function CacheSelect(k: HandlerSetup, s: IUState, n: int): IUState
    requires k.cfg.columnMappings.Some? && n >= 1
  {
    Cached(s, n, Prepare(SelectSql(k.cfg, k.dialect, n)), WhereClause(k.dialect, PrimaryKeys(k.cfg)))
  }

  /** selectBatch: the SELECT for the buffer's size, run with every buffered record's transformed keys. */
  ghost function QuerySpec(k: HandlerSetup, s: IUState): (r: Queried)
    requires k.cfg.columnMappings.Some? && s.buffer != []
    ensures r.bindings == SelectBindings(k.cfg, k.sc, s.buffer)
    ensures r.state.buffer == s.buffer && r.state.routed == s.routed && r.state.performed == s.performed
    ensures r.state.selects.Keys == s.selects.Keys + {|s.buffer|}
    ensures r.bindings.Ok? ==>
      r.state.selects[|s.buffer|].executed == CacheSelect(k, s, |s.buffer|).selects[|s.buffer|].executed + [r.bindings.value]
  {
    var n := |s.buffer|;
    var cached := CacheSelect(k, s, n);
    match SelectBindings(k.cfg, k.sc, s.buffer)
    case Err(e) => Queried(Err(e), cached)
    case Ok(params) => Queried(Ok(params), cached.(selects := cached.selects[n := ExecuteQuery(cached.selects[n], params)]))
  }

  /**
   * executeBatch, given the rows the SELECT returns: nothing happens on an empty buffer;
   * otherwise the buffer is looked up and classified and, whatever the outcome, emptied.
   */
  ghost function ExecuteSpec(k: HandlerSetup, s: IUState, rows: seq<Row>): (r: IUStep)
    requires k.cfg.columnMappings.Some?
    ensures s.buffer == [] ==> r == IUStep(Ok(()), s)
    ensures s.buffer != [] ==> r.state.buffer == [] && r.state.routed == s.routed
  {
    if s.buffer == [] then IUStep(Ok(()), s)
    else
      var q := QuerySpec(k, s);
      match q.bindings
      case Err(e) => IUStep(Err(e), q.state.(buffer := []))
      case Ok(_) => ClassifySpec(k, q.state, rows)
  }

  /** handleRecordsBatch over the fetched rows, then the buffer cleared. */
  ghost function ClassifySpec(k: HandlerSetup, s: IUState, rows: seq<Row>): (r: IUStep)
    requires k.cfg.columnMappings.Some?
    ensures r.state == s.(buffer := [], performed := r.state.performed)
  {
    var fetched := KeyedRows(k.dialect, OrderedTableColumnNames(k.cfg), rows);
    var o := ClassifyAll(k.cfg, k.sc, fetched, s.buffer);
    IUStep(if o.failure.Some? then Err(o.failure.value) else Ok(()), s.(buffer := [], performed := s.performed + o.actions))
  }

  /** Whether addBatch hands the record to another handler thread. */
  predicate IsRerouted(k: HandlerSetup, rec: Record)
    requires SetupOk(k)
  {
    k.cfg.ignoreDuplicatePK && RecordPartition(k, rec) != k.threadId
  }

  /** addBatch: reroute the record, or append it with its fingerprint at the end of the buffer. */
  ghost function BufferSpec(k: HandlerSetup, s: IUState, rec: Record): (r: IUState)
    requires SetupOk(k)
    ensures IsRerouted(k, rec) ==> r == s.(routed := s.routed + [Routed(rec, RecordPartition(k, rec))])
    ensures !IsRerouted(k, rec) ==> r == s.(buffer := s.buffer + [Buffered(k.dialect.joinPrimaryKeys(rec), rec)])
  {
    if IsRerouted(k, rec) then s.(routed := s.routed + [Routed(rec, RecordPartition(k, rec))])
    else s.(buffer := s.buffer + [Buffered(k.dialect.joinPrimaryKeys(rec), rec)])
  }

  /**
   * handleRecord: buffer the record and flush once the buffer reaches the batch size, so a
   * buffer shorter than the batch size stays shorter.
   */
  ghost function HandleSpec(k: HandlerSetup, s: IUState, rec: Record, rows: seq<Row>): (r: IUStep)
    requires SetupOk(k)
    ensures |s.buffer| < k.cfg.BatchSize() ==> |r.state.buffer| < k.cfg.BatchSize()
    ensures IsRerouted(k, rec) ==> r == IUStep(Ok(()), BufferSpec(k, s, rec))
    ensures !IsRerouted(k, rec) && |s.buffer| < k.cfg.BatchSize() ==>
      (r.state.buffer == [] <==> |s.buffer| + 1 == k.cfg.BatchSize())
  {
    var added := BufferSpec(k, s, rec);
    if IsRerouted(k, rec) || |added.buffer| < k.cfg.BatchSize() then IUStep(Ok(()), added)
    else ExecuteSpec(k, added, rows)
  }

  /** close: refused while records are buffered; the cached statements are closed either way. */
  function CloseSpec(s: IUState): (r: IUStep)
    ensures r.result.Err? <==> s.buffer != []
    ensures r.result.Err? ==> r.result.error == IllegalState("Subclasses should flush batched records prior to close")
    ensures r.state.selects.Keys == s.selects.Keys
    ensures forall n | n in s.selects :: r.state.selects[n] == Jdbc.Close(s.selects[n])
    ensures r.state == s.(selects := r.state.selects)
  {
    var closed := map n | n in s.selects :: Jdbc.Close(s.selects[n]);
    IUStep(if s.buffer == [] then Ok(()) else Err(IllegalState("Subclasses should flush batched records prior to close")),
           s.(selects := closed))
  }

  // ---------------------------------------------------------------- properties of a flush

  /** A flush keeps every cached SELECT the one for its size. */
  lemma ExecuteKeepsSelectsValid(k: HandlerSetup, s: IUState, rows: seq<Row>)
    requires k.cfg.columnMappings.Some? && SelectsValid(k, s.selects)
    ensures SelectsValid(k, ExecuteSpec(k, s, rows).state.selects)
  {
    if s.buffer != [] {
      var q := QuerySpec(k, s);
      QueryKeepsSelectsValid(k, s);
      assert ExecuteSpec(k, s, rows).state.selects == q.state.selects;
    }
  }

  lemma QueryKeepsSelectsValid(k: HandlerSetup, s: IUState)
    requires k.cfg.columnMappings.Some? && SelectsValid(k, s.selects) && s.buffer != []
    ensures SelectsValid(k, QuerySpec(k, s).state.selects)
  {
    var n := |s.buffer|;
    var cached := CacheSelect(k, s, n);
    assert SelectsValid(k, cached.selects);
    var b := SelectBindings(k.cfg, k.sc, s.buffer);
    if b.Ok? {
      var after := cached.selects[n := ExecuteQuery(cached.selects[n], b.value)];
      assert QuerySpec(k, s).state.selects == after;
      forall m | m in after
        ensures m >= 1 && after[m].sql == SelectSql(k.cfg, k.dialect, m) && !after[m].closed
      {
        assert m in cached.selects;
      }
    }
  }

  /** The query a flush runs binds exactly as many values as its SELECT has placeholders. */
  lemma FlushBindsEveryPlaceholder(k: HandlerSetup, s: IUState, rows: seq<Row>)
    requires k.cfg.columnMappings.Some? && SelectsValid(k, s.selects) && s.buffer != []
    requires SelectEscapesCleanly(k.cfg, k.dialect)
    requires SelectBindings(k.cfg, k.sc, s.buffer).Ok?
    ensures var st := ExecuteSpec(k, s, rows).state.selects[|s.buffer|];
      |st.executed| > 0 && |st.executed[|st.executed| - 1]| == Occurrences(st.sql, '?')
  {
    var n := |s.buffer|;
    ExecuteKeepsSelectsValid(k, s, rows);
    SelectBindsEveryPlaceholder(k.cfg, k.dialect, k.sc, s.buffer);
  }

  /**
   * A flush against a table with none of the buffered keys asks for every buffered record to be
   * inserted, in buffer order, and nothing else.
   */
  lemma FlushIntoEmptyTableInsertsAll(k: HandlerSetup, s: IUState)
    requires k.cfg.columnMappings.Some? && s.buffer != []
    requires SelectBindings(k.cfg, k.sc, s.buffer).Ok?
    ensures ExecuteSpec(k, s, []) == IUStep(Ok(()), QuerySpec(k, s).state.(buffer := [],
      performed := s.performed + seq(|s.buffer|, i requires 0 <= i < |s.buffer| => PerformInsert(s.buffer[i].rec))))
  {
    UnknownKeysAreInserted(k.cfg, k.sc, map[], s.buffer);
  }

  /** The loop of getOrCreateSelectStatement: the WHERE fragment, then n - 1 " OR (…)" copies of it. */
  method AppendOrClauses(head: string, where: string, n: int) returns (text: string)
    requires n >= 1
    ensures text == head + where + OrClauses(where, n - 1)
  {
    text := head + where;
    for i := 1 to n
      invariant text == head + where + OrClauses(where, i - 1)
    {
      text := text + " OR (" + where + ")";
    }
  }

  /** The body of handleRecordsBatch's loop for one buffered record. */
  method DecideRecord(cfg: Settings, sc: Scripting, ordered: seq<string>, fetched: map<string, Record>, b: Buffered)
    returns (d: Result<Decision>)
    ensures d == Decide(cfg, sc, ordered, fetched, b)
  {
    if b.keys !in fetched {
      return Ok(DoInsert);
    }
    if cfg.forceUpdate {
      return Ok(DoUpdate);
    }
    var changed := DataChanged(cfg, sc, ordered, fetched[b.keys], b.rec);
    if changed.Err? {
      return Err(changed.error);
    }
    d := Ok(if changed.value then DoUpdate else DoSkip);
  }

  /**
   * The loop of handleRecordsBatch over the buffer, given the ordered column names; the
   * requested actions are returned in the order they are requested.
   */
  method ClassifyBuffer(cfg: Settings, sc: Scripting, ordered: seq<string>, fetched: map<string, Record>,
                        buffer: seq<Buffered>) returns (o: Outcome)
    ensures o == ClassifyWith(Decider(cfg, sc, ordered, fetched), buffer)
  {
    ghost var decide := Decider(cfg, sc, ordered, fetched);
    var actions := [];
    var i := 0;
    while i < |buffer|
      invariant 0 <= i <= |buffer|
      invariant ClassifyWith(decide, buffer) == Resume(actions, ClassifyWith(decide, buffer[i..]))
    {
      var decision := DecideRecord(cfg, sc, ordered, fetched, buffer[i]);
      ClassifyAdvance(decide, buffer, i, actions);
      if decision.Err? {
        return Outcome(actions, Some(decision.error));
      }
      actions := actions + ActionsFor(decision.value, buffer[i].rec);
      i := i + 1;
    }
    ClassifyDone(decide, buffer, actions);
    o := Outcome(actions, None);
  }

  /** One record of the loop: its decision either ends the run or extends the actions. */
  lemma ClassifyAdvance(decide: Buffered -> Result<Decision>, buffer: seq<Buffered>, i: nat, actions: seq<Action>)
    requires i < |buffer|
    requires ClassifyWith(decide, buffer) == Resume(actions, ClassifyWith(decide, buffer[i..]))
    ensures decide(buffer[i]).Err? ==> ClassifyWith(decide, buffer) == Outcome(actions, Some(decide(buffer[i]).error))
    ensures decide(buffer[i]).Ok? ==>
      ClassifyWith(decide, buffer) ==
        Resume(actions + ActionsFor(decide(buffer[i]).value, buffer[i].rec), ClassifyWith(decide, buffer[i + 1..]))
  {
    ClassifyFirst(decide, buffer[i..]);
    assert buffer[i..][0] == buffer[i] && buffer[i..][1..] == buffer[i + 1..];
    if decide(buffer[i]).Err? {
      assert actions + [] == actions;
    } else {
      ResumeTwice(actions, ActionsFor(decide(buffer[i]).value, buffer[i].rec), ClassifyWith(decide, buffer[i + 1..]));
    }
  }

  /** The loop's end: nothing is left to classify. */
  lemma ClassifyDone(decide: Buffered -> Result<Decision>, buffer: seq<Buffered>, actions: seq<Action>)
    requires ClassifyWith(decide, buffer) == Resume(actions, ClassifyWith(decide, buffer[|buffer|..]))
    ensures ClassifyWith(decide, buffer) == Outcome(actions, None)
  {
    assert buffer[|buffer|..] == [];
    assert actions + [] == actions;
  }

  /** Resuming twice is resuming once with both prefixes. */
  lemma ResumeTwice(first: seq<Action>, second: seq<Action>, rest: Outcome)
    ensures Resume(first, Resume(second, rest)) == Resume(first + second, rest)
  {
    assert first + (second + rest.actions) == (first + second) + rest.actions;
  }

  /** The constructor with its check: without primary keys no handler is built. */
  method Create(config: Settings, dialect: SqlDialect, scripting: Scripting, threadId: int, threadCount: int)
    returns (r: Result<InsertUpdateRecordHandler>)
    requires SetupOk(HandlerSetup(config, dialect, scripting, threadId, threadCount))
    ensures r.Err? <==> !HasPrimaryKeys(config)
    ensures r.Err? ==> r.error == MissingKeysError(config)
    ensures r.Ok? ==> (fresh(r.value) && fresh(r.value.base) && r.value.Valid()
      && r.value.Setup() == HandlerSetup(config, dialect, scripting, threadId, threadCount)
      && r.value.State() == IUState(map[], None, [], [], []))
  {
    if !HasPrimaryKeys(config) {
      return Err(MissingKeysError(config));
    }
    var handler := new InsertUpdateRecordHandler(config, dialect, scripting, threadId, threadCount);
    r := Ok(handler);
  }

  // ---------------------------------------------------------------- the handler

  /**
   * AbstractInsertUpdateRecordHandler. The subclass hooks performInsert and performUpdate are
   * the `performed` log.
   */
  class InsertUpdateRecordHandler {
    const base: HandlerBase
    var selectStatements: map<int, PreparedStatement>
    var whereClause: Option<string>
    var nameValuesBuffer: seq<Buffered>
    var routed: seq<Routed>
    var performed: seq<Action>

    function Setup(): HandlerSetup {
      base.Setup()
    }

    function State(): IUState
      reads this
    {
      IUState(selectStatements, whereClause, nameValuesBuffer, routed, performed)
    }

    /** Everything but the buffer bound: memos agree with the configuration, batching is on. */
    ghost predicate Inv()
      reads this, base
    {
      && base.Valid() && SetupOk(Setup()) && HasPrimaryKeys(base.config)
      && !base.connectionClosed && !base.batchExecutionDisabled
      && (whereClause.Some? ==> whereClause.value == WhereClause(base.dialect, PrimaryKeys(base.config)))
      && SelectsValid(Setup(), selectStatements)
      && BufferKeyed(base.dialect, nameValuesBuffer)
    }

    /** Between calls the buffer is shorter than the batch size. */
    ghost predicate Valid()
      reads this, base
    {
      Inv() && |nameValuesBuffer| < base.config.BatchSize()
    }

    constructor (config: Settings, dialect: SqlDialect, scripting: Scripting, threadId: int, threadCount: int)
      requires SetupOk(HandlerSetup(config, dialect, scripting, threadId, threadCount)) && HasPrimaryKeys(config)
      ensures Valid() && fresh(base)
      ensures Setup() == HandlerSetup(config, dialect, scripting, threadId, threadCount)
      ensures State() == IUState(map[], None, [], [], [])
    {
      base := new HandlerBase(config, dialect, scripting, threadId, threadCount);
      selectStatements := map[];
      whereClause := None;
      nameValuesBuffer := [];
      routed := [];
      performed := [];
    }

    /** buildWhereClause: built on the first call and remembered. */
    method BuildWhereClause() returns (w: string)
      requires Inv()
      modifies this
      ensures Inv()
      ensures w == WhereClause(base.dialect, PrimaryKeys(base.config))
      ensures State() == old(State()).(where := Some(w))
    {
      if whereClause.Some? {
        return whereClause.value;
      }
      w := JoinKeyConditions(base.dialect, base.config.primaryKeys.value);
      whereClause := Some(w);
    }

    /** getOrCreateSelectStatement. */
    method GetOrCreateSelectStatement(n: int) returns (r: Result<PreparedStatement>)
      requires Inv()
      modifies this, base
      ensures Inv()
      ensures n < 1 ==> r == Err(IllegalArgument("batchSize < 1")) && State() == old(State())
      ensures n >= 1 ==> State() == CacheSelect(Setup(), old(State()), n) && r == Ok(selectStatements[n])
    {
      if n < 1 {
        return Err(IllegalArgument("batchSize < 1"));
      }
      if n in selectStatements {
        return Ok(selectStatements[n]);
      }
      var statement := PrepareSelect(n);
      selectStatements := selectStatements[n := statement];
      r := Ok(statement);
    }

    /** The SELECT text for n records, built from the memoised column list and WHERE fragment. */
    method PrepareSelect(n: int) returns (statement: PreparedStatement)
      requires Inv() && n >= 1
      modifies this, base
      ensures Inv()
      ensures statement == Prepare(SelectSql(base.config, base.dialect, n))
      ensures State() == old(State()).(where := Some(WhereClause(base.dialect, PrimaryKeys(base.config))))
    {
      var ordered := base.GetOrderedTableColumnNames();
      var escaped := seq(|ordered|, i requires 0 <= i < |ordered| => base.dialect.escapeSqlName(ordered[i]));
      var where := BuildWhereClause();
      var head := "SELECT " + Join(escaped, ", ") + " FROM " + base.dialect.escapeSqlName(TableText(base.config.targetTable))
                  + " WHERE ";
      assert head == SelectHead(base.config, base.dialect);
      var text := AppendOrClauses(head, where, n);
      statement := Prepare(text);
    }

    /** addBatch: true while the record was rerouted or the buffer still has room. */
    method AddBatch(rec: Record) returns (room: bool)
      requires Valid()
      modifies this
      ensures Inv()
      ensures State() == BufferSpec(Setup(), old(State()), rec)
      ensures room <==> IsRerouted(Setup(), rec) || |nameValuesBuffer| < base.config.BatchSize()
    {
      var keys := base.dialect.joinPrimaryKeys(rec);
      if base.config.ignoreDuplicatePK {
        var partitionId := JavaLang.Partition(keys, base.threadCount);
        if partitionId != base.threadId {
          routed := routed + [Routed(rec, partitionId)];
          return true;
        }
      }
      nameValuesBuffer := nameValuesBuffer + [Buffered(keys, rec)];
      room := |nameValuesBuffer| < base.config.BatchSize();
    }

    /** handleRecord, with the rows the SELECT returns should the record fill the buffer. */
    method HandleRecord(rec: Record, rows: seq<Row>) returns (r: Result<()>)
      requires Valid()
      modifies this, base
      ensures Valid()
      ensures IUStep(r, State()) == HandleSpec(Setup(), old(State()), rec, rows)
    {
      var room := AddBatch(rec);
      if room {
        return Ok(());
      }
      r := ExecuteBatch(rows);
    }

    /** selectBatch: the SELECT for the buffer's size, bound and run. */
    method SelectBatch() returns (r: Result<seq<Value>>)
      requires Inv() && nameValuesBuffer != []
      modifies this, base
      ensures Inv()
      ensures Queried(r, State()) == QuerySpec(Setup(), old(State()))
    {
      ghost var before := State();
      var n := |nameValuesBuffer|;
      var statement := GetOrCreateSelectStatement(n);
      r := BindSelect(base.config, base.scripting, nameValuesBuffer);
      if r.Ok? {
        selectStatements := selectStatements[n := ExecuteQuery(statement.value, r.value)];
      }
      assert Queried(r, State()) == QuerySpec(Setup(), before);
      QueryKeepsSelectsValid(Setup(), before);
    }

    /**
     * executeBatch, with the rows the SELECT returns: batching is suspended while the buffer is
     * classified, and whatever the outcome the buffer ends empty and batching re-enabled.
     */
    method ExecuteBatch(rows: seq<Row>) returns (r: Result<()>)
      requires Inv()
      modifies this, base
      ensures Valid()
      ensures IUStep(r, State()) == ExecuteSpec(Setup(), old(State()), rows)
    {
      if nameValuesBuffer == [] {
        return Ok(());
      }
      var selected := SelectBatch();
      if selected.Err? {
        DropBuffer();
        return Err(selected.error);
      }
      r := HandleRecordsBatch(rows);
    }

    /** The buffer emptied after a failed SELECT. */
    method DropBuffer()
      requires Inv()
      modifies this
      ensures Valid()
      ensures State() == old(State()).(buffer := [])
    {
      nameValuesBuffer := [];
    }

    /**
     * handleRecordsBatch after a successful SELECT, with batching suspended around it, and the
     * buffer cleared afterwards.
     */
    method HandleRecordsBatch(rows: seq<Row>) returns (r: Result<()>)
      requires Inv()
      modifies this, base
      ensures Valid()
      ensures IUStep(r, State()) == ClassifySpec(Setup(), old(State()), rows)
    {
      base.DisableBatchExecution();
      var ordered := base.GetOrderedTableColumnNames();
      var fetched := ToPrimaryKeysHashMap(base.dialect, ordered, rows);
      var outcome := ClassifyBuffer(base.config, base.scripting, ordered, fetched, nameValuesBuffer);
      performed := performed + outcome.actions;
      nameValuesBuffer := [];
      base.EnableBatchExecution();
      r := if outcome.failure.Some? then Err(outcome.failure.value) else Ok(());
    }

    /** close: every cached SELECT is closed, then the connection, even when records are still buffered. */
    method Close() returns (r: Result<()>)
      requires Inv()
      modifies this, base
      ensures base.connectionClosed
      ensures IUStep(r, State()) == CloseSpec(old(State()))
    {
      selectStatements := map n | n in selectStatements :: Jdbc.Close(selectStatements[n]);
      base.Close();
      r := if nameValuesBuffer == [] then Ok(()) else Err(IllegalState("Subclasses should flush batched records prior to close"));
    }
  }
}
