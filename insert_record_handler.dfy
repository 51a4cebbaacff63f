/**
 * InsertRecordHandler: every record becomes one row of a batched INSERT. The statement text is
 * built once from the columns with insert values and the ordered table columns; each record
 * binds its parameters and is added to the batch, which is executed once it holds a batch's
 * worth of rows. With ignoreDuplicatePK, records are spread over the handler threads by the hash
 * of their primary key, and a key already in the current batch is dropped.
 */
module InsertHandling {
  import opened Wrappers
  import opened Records
  import opened ValueDefinitions
  import opened JavaLang
  import opened Config
  import opened RecordHandling
  import opened Jdbc
  import opened Text

  // ---------------------------------------------------------------- statement text

  /** The column list and the VALUES list of an INSERT, built side by side. */
  datatype Clauses = Clauses(columns: string, values: string)

  /**
   * One column appended to both lists. The separator is written only once the VALUES list
   * is non-empty, which is how the constructor decides whether a column is the first.
   */
  function AppendColumn(c: Clauses, name: string, slot: string): Clauses {
    if |c.values| > 0 then Clauses(c.columns + ", " + name, c.values + ", " + slot)
    else Clauses(c.columns + name, c.values + slot)
  }

  /** The lists after appending every column with its slot, starting from empty builders. */
  function BuildClauses(names: seq<string>, slots: seq<string>): Clauses
    requires |names| == |slots|
  {
    if names == [] then Clauses("", "")
    else AppendColumn(BuildClauses(names[..|names| - 1], slots[..|slots| - 1]),
                      names[|names| - 1], slots[|slots| - 1])
  }

  /** When no slot is empty, the two lists are the names and the slots joined by ", ". */
  lemma {:induction false} ClausesAreJoins(names: seq<string>, slots: seq<string>)
    requires |names| == |slots|
    requires forall i | 0 <= i < |slots| :: slots[i] != ""
    ensures BuildClauses(names, slots) == Clauses(Join(names, ", "), Join(slots, ", "))
  {
    if |names| > 1 {
      var n := |names| - 1;
      ClausesAreJoins(names[..n], slots[..n]);
      assert |Join(slots[..n], ", ")| > 0 by {
        JoinNonEmpty(slots[..n], ", ");
      }
    } else if |names| == 1 {
      assert names[..0] == [] && slots[..0] == [];
    }
  }

  lemma {:induction false} JoinNonEmpty(parts: seq<string>, sep: string)
    requires |parts| > 0 && parts[|parts| - 1] != ""
    ensures |Join(parts, sep)| > 0
  {
  }

  /** Every '?' of the VALUES list comes from a slot: the separators hold none. */
  lemma {:induction false} ClausesPlaceholders(names: seq<string>, slots: seq<string>)
    requires |names| == |slots|
    ensures Occurrences(BuildClauses(names, slots).values, '?') == TotalOccurrences(slots, '?')
  {
    if names != [] {
      var n := |names| - 1;
      var c := BuildClauses(names[..n], slots[..n]);
      ClausesPlaceholders(names[..n], slots[..n]);
      if |c.values| > 0 {
        OccurrencesAppend(c.values, ", ", '?');
        OccurrencesAppend(c.values + ", ", slots[n], '?');
        assert Occurrences(", ", '?') == 0 by {
          assert ", "[..1] == ",";
          assert ","[..0] == "";
        }
      } else {
        OccurrencesAppend(c.values, slots[n], '?');
      }
    }
  }

  /** The configured insert values; an absent map has no entries. */
  function InsertDefinitions(cfg: Settings): map<string, ValueDefinition> {
    if cfg.insertValues.None? then map[] else cfg.insertValues.value
  }

  /** getColumnNamesWithInsertValues. */
  ghost function InsertValueColumns(cfg: Settings): (r: seq<string>)
    ensures forall n | n in r :: n in InsertDefinitions(cfg)
  {
    SortedColumnNames(cfg.insertValues)
  }

  /** A column's VALUES entry: the SQL text of a SQL definition, otherwise a placeholder. */
  function SlotText(d: ValueDefinition): (r: string)
    ensures ProducesSql(d) ==> r == d.sql
    ensures !ProducesSql(d) ==> r == "?"
  {
    if ProducesSql(d) then d.sql else "?"
  }

  /** The VALUES entries: one per insert-value column, then a placeholder per ordered column. */
  function Slots(defs: map<string, ValueDefinition>, names: seq<string>, ordered: nat): (r: seq<string>)
    requires forall n | n in names :: n in defs
    ensures |r| == |names| + ordered
  {
    seq(|names|, i requires 0 <= i < |names| => SlotText(defs[names[i]])) + seq(ordered, _ => "?")
  }

  /** Each insert-value column gets its definition's slot, each ordered column a placeholder. */
  lemma SlotsPointwise(defs: map<string, ValueDefinition>, names: seq<string>, ordered: nat)
    requires forall n | n in names :: n in defs
    ensures forall i | 0 <= i < |names| :: Slots(defs, names, ordered)[i] == SlotText(defs[names[i]])
    ensures forall i | |names| <= i < |names| + ordered :: Slots(defs, names, ordered)[i] == "?"
  {
  }

  /** All columns the INSERT names, in statement order. */
  ghost function InsertColumns(cfg: Settings): seq<string>
    requires cfg.columnMappings.Some?
  {
    InsertValueColumns(cfg) + OrderedTableColumnNames(cfg)
  }

  ghost function InsertClauses(cfg: Settings): Clauses
    requires cfg.columnMappings.Some?
  {
    BuildClauses(InsertColumns(cfg),
                 Slots(InsertDefinitions(cfg), InsertValueColumns(cfg), |OrderedTableColumnNames(cfg)|))
  }

  /** The text the insert statement is prepared with. */
  ghost function InsertSql(cfg: Settings): string
    requires cfg.columnMappings.Some?
  {
    var c := InsertClauses(cfg);
    "INSERT INTO " + TableText(cfg.targetTable) + " (" + c.columns + ") VALUES (" + c.values + ")"
  }

  /** The constructor's two loops: insert-value columns first, then the ordered columns. */
  method BuildInsertClauses(defs: map<string, ValueDefinition>, names: seq<string>, ordered: seq<string>)
    returns (c: Clauses)
    requires forall n | n in names :: n in defs
    ensures c == BuildClauses(names + ordered, Slots(defs, names, |ordered|))
  {
    ghost var all, slots := names + ordered, Slots(defs, names, |ordered|);
    SlotsPointwise(defs, names, |ordered|);
    c := AppendInsertValues(defs, names, all, slots);
    c := AppendOrdered(ordered, all, slots, |names|, c);
  }

  /** The first loop: each insert-value column with its SQL text or "?". */
  method AppendInsertValues(defs: map<string, ValueDefinition>, names: seq<string>, ghost all: seq<string>, ghost slots: seq<string>)
    returns (c: Clauses)
    requires forall n | n in names :: n in defs
    requires |all| == |slots| && |names| <= |all|
    requires forall i | 0 <= i < |names| :: all[i] == names[i] && slots[i] == SlotText(defs[names[i]])
    ensures c == BuildClauses(all[..|names|], slots[..|names|])
  {
    c := Clauses("", "");
    for i := 0 to |names|
      invariant c == BuildClauses(all[..i], slots[..i])
    {
      var definition := defs[names[i]];
      var slot := if ProducesSql(definition) then definition.sql else "?";
      BuildClausesStep(all, slots, i);
      c := AppendColumn(c, names[i], slot);
    }
  }

  /** The second loop: each ordered column with "?". */
  method AppendOrdered(ordered: seq<string>, ghost all: seq<string>, ghost slots: seq<string>, ghost from: nat, start: Clauses)
    returns (c: Clauses)
    requires |all| == |slots| == from + |ordered|
    requires forall j | 0 <= j < |ordered| :: all[from + j] == ordered[j] && slots[from + j] == "?"
    requires start == BuildClauses(all[..from], slots[..from])
    ensures c == BuildClauses(all, slots)
  {
    c := start;
    for j := 0 to |ordered|
      invariant c == BuildClauses(all[..from + j], slots[..from + j])
    {
      BuildClausesStep(all, slots, from + j);
      c := AppendColumn(c, ordered[j], "?");
    }
    assert all[..from + |ordered|] == all && slots[..from + |ordered|] == slots;
  }

  lemma BuildClausesStep(names: seq<string>, slots: seq<string>, i: nat)
    requires |names| == |slots| && i < |names|
    ensures BuildClauses(names[..i + 1], slots[..i + 1])
      == AppendColumn(BuildClauses(names[..i], slots[..i]), names[i], slots[i])
  {
    assert names[..i + 1][..i] == names[..i] && slots[..i + 1][..i] == slots[..i];
  }

  // ---------------------------------------------------------------- parameters

  /** The insert-value columns whose value is bound as a parameter (not SQL). */
  function BoundCount(defs: map<string, ValueDefinition>, names: seq<string>): nat
    requires forall n | n in names :: n in defs
  {
    if names == [] then 0
    else BoundCount(defs, names[..|names| - 1]) + (if ProducesSql(defs[names[|names| - 1]]) then 0 else 1)
  }

  /**
   * The first loop of handleRecord: the evaluated non-SQL insert values, in column order; the
   * first failing evaluation ends it.
   */
  function InsertValueParams(defs: map<string, ValueDefinition>, sc: Scripting, names: seq<string>, rec: Record)
    : (r: Result<seq<Value>>)
    requires forall n | n in names :: n in defs
    ensures r.Ok? ==> |r.value| == BoundCount(defs, names)
  {
    if names == [] then Ok([])
    else
      var n := |names| - 1;
      var prev :- InsertValueParams(defs, sc, names[..n], rec);
      var d := defs[names[n]];
      if ProducesSql(d) then Ok(prev)
      else
        var v :- Eval(d, names[n], rec, sc);
        Ok(prev + [v])
  }

  /** The insert values fail exactly when evaluating some non-SQL definition fails. */
  lemma {:induction false} InsertValueParamsFailure(defs: map<string, ValueDefinition>, sc: Scripting, names: seq<string>, rec: Record)
    requires forall n | n in names :: n in defs
    ensures InsertValueParams(defs, sc, names, rec).Err? <==>
      exists i | 0 <= i < |names| :: EvalFails(defs, sc, names[i], rec)
  {
    if names != [] {
      var n := |names| - 1;
      InsertValueParamsFailure(defs, sc, names[..n], rec);
      assert forall i | 0 <= i < n :: names[..n][i] == names[i];
      if exists i | 0 <= i < |names| :: EvalFails(defs, sc, names[i], rec) {
        var i :| 0 <= i < |names| && EvalFails(defs, sc, names[i], rec);
        if i < n {
          assert EvalFails(defs, sc, names[..n][i], rec);
        }
      }
    }
  }

  /** Evaluating the column's definition fails (SQL definitions are not evaluated). */
  predicate EvalFails(defs: map<string, ValueDefinition>, sc: Scripting, name: string, rec: Record)
    requires name in defs
  {
    !ProducesSql(defs[name]) && Eval(defs[name], name, rec, sc).Err?
  }

  /** Everything a record binds to the INSERT, in placeholder order. */
  ghost function InsertParams(cfg: Settings, sc: Scripting, rec: Record): Result<seq<Value>>
    requires cfg.columnMappings.Some?
  {
    var values :- InsertValueParams(InsertDefinitions(cfg), sc, InsertValueColumns(cfg), rec);
    var transformed :- TransformParams(cfg, sc, OrderedTableColumnNames(cfg), rec);
    Ok(values + transformed)
  }

  /** The parameter-binding loops of handleRecord. */
  method BindParameters(cfg: Settings, sc: Scripting, names: seq<string>, ordered: seq<string>, rec: Record)
    returns (r: Result<seq<Value>>)
    requires forall n | n in names :: n in InsertDefinitions(cfg)
    ensures r == (var values :- InsertValueParams(InsertDefinitions(cfg), sc, names, rec);
                  var transformed :- TransformParams(cfg, sc, ordered, rec);
                  Ok(values + transformed))
  {
    var values :- BindInsertValues(InsertDefinitions(cfg), sc, names, rec);
    var transformed :- BindTransforms(cfg, sc, ordered, rec);
    r := Ok(values + transformed);
  }

  /** The first loop: evaluate and bind each non-SQL insert value. */
  method BindInsertValues(defs: map<string, ValueDefinition>, sc: Scripting, names: seq<string>, rec: Record)
    returns (r: Result<seq<Value>>)
    requires forall n | n in names :: n in defs
    ensures r == InsertValueParams(defs, sc, names, rec)
  {
    var values := [];
    for i := 0 to |names|
      invariant InsertValueParams(defs, sc, names[..i], rec) == Ok(values)
    {
      assert names[..i + 1][..i] == names[..i];
      var definition := defs[names[i]];
      if !ProducesSql(definition) {
        var v := Eval(definition, names[i], rec, sc);
        if v.Err? {
          assert InsertValueParams(defs, sc, names[..i + 1], rec) == Err(v.error);
          PrefixFailure(defs, sc, names, i + 1, rec);
          return Err(v.error);
        }
        values := values + [v.value];
      }
    }
    assert names[..|names|] == names;
    r := Ok(values);
  }

  /** A failure among the first k insert values is the failure of the whole list. */
  lemma {:induction false} PrefixFailure(defs: map<string, ValueDefinition>, sc: Scripting, names: seq<string>, k: nat, rec: Record)
    requires forall n | n in names :: n in defs
    requires k <= |names| && InsertValueParams(defs, sc, names[..k], rec).Err?
    ensures InsertValueParams(defs, sc, names, rec) == InsertValueParams(defs, sc, names[..k], rec)
    decreases |names| - k
  {
    if k < |names| {
      var m := |names| - 1;
      assert names[..m][..k] == names[..k];
      PrefixFailure(defs, sc, names[..m], k, rec);
    } else {
      assert names[..k] == names;
    }
  }

  /** SQL insert values whose text holds no '?' of its own. */
  predicate SqlValuesHaveNoPlaceholders(defs: map<string, ValueDefinition>) {
    forall n | n in defs && ProducesSql(defs[n]) :: Occurrences(defs[n].sql, '?') == 0
  }

  /**
   * The statement's placeholders and a record's parameters line up: the VALUES list holds
   * exactly as many '?' as handleRecord binds.
   */
  lemma InsertPlaceholdersMatchParameters(cfg: Settings, sc: Scripting, rec: Record)
    requires cfg.columnMappings.Some?
    requires SqlValuesHaveNoPlaceholders(InsertDefinitions(cfg))
    requires InsertParams(cfg, sc, rec).Ok?
    ensures Occurrences(InsertClauses(cfg).values, '?') == |InsertParams(cfg, sc, rec).value|
  {
    var defs := InsertDefinitions(cfg);
    var names := InsertValueColumns(cfg);
    var ordered := OrderedTableColumnNames(cfg);
    ClausesPlaceholders(InsertColumns(cfg), Slots(defs, names, |ordered|));
    SlotsPlaceholders(defs, names, |ordered|);
    InsertParamsLength(cfg, sc, rec);
  }

  lemma InsertParamsLength(cfg: Settings, sc: Scripting, rec: Record)
    requires cfg.columnMappings.Some? && InsertParams(cfg, sc, rec).Ok?
    ensures |InsertParams(cfg, sc, rec).value|
      == BoundCount(InsertDefinitions(cfg), InsertValueColumns(cfg)) + |OrderedTableColumnNames(cfg)|
  {
    var values := InsertValueParams(InsertDefinitions(cfg), sc, InsertValueColumns(cfg), rec);
    var transformed := TransformParams(cfg, sc, OrderedTableColumnNames(cfg), rec);
    assert values.Ok? && transformed.Ok?;
    assert InsertParams(cfg, sc, rec).value == values.value + transformed.value;
  }

  /** The VALUES entries hold one '?' per bound insert value and one per ordered column. */
  lemma SlotsPlaceholders(defs: map<string, ValueDefinition>, names: seq<string>, ordered: nat)
    requires forall n | n in names :: n in defs
    requires SqlValuesHaveNoPlaceholders(defs)
    ensures TotalOccurrences(Slots(defs, names, ordered), '?') == BoundCount(defs, names) + ordered
  {
    var front := seq(|names|, i requires 0 <= i < |names| => SlotText(defs[names[i]]));
    var back: seq<string> := seq(ordered, _ => "?");
    TotalOccurrencesAppend(front, back, '?');
    ValueSlotsPlaceholders(defs, names);
    PlaceholderRun(ordered);
  }

  lemma {:induction false} TotalOccurrencesAppend(a: seq<string>, b: seq<string>, ch: char)
    ensures TotalOccurrences(a + b, ch) == TotalOccurrences(a, ch) + TotalOccurrences(b, ch)
    decreases |b|
  {
    if b == [] {
      assert a + b == a;
    } else {
      var b' := b[..|b| - 1];
      assert (a + b)[..|a + b| - 1] == a + b';
      TotalOccurrencesAppend(a, b', ch);
    }
  }

  lemma {:induction false} PlaceholderRun(n: nat)
    ensures TotalOccurrences(seq(n, _ => "?"), '?') == n
  {
    if n > 0 {
      var s: seq<string> := seq(n, _ => "?");
      assert s[..n - 1] == seq(n - 1, _ => "?");
      PlaceholderRun(n - 1);
      assert "?"[..0] == "";
    }
  }

  lemma {:induction false} ValueSlotsPlaceholders(defs: map<string, ValueDefinition>, names: seq<string>)
    requires forall n | n in names :: n in defs
    requires SqlValuesHaveNoPlaceholders(defs)
    ensures TotalOccurrences(seq(|names|, i requires 0 <= i < |names| => SlotText(defs[names[i]])), '?')
      == BoundCount(defs, names)
  {
    if names != [] {
      var m := |names| - 1;
      var s := seq(|names|, i requires 0 <= i < |names| => SlotText(defs[names[i]]));
      assert s[..m] == seq(m, i requires 0 <= i < m => SlotText(defs[names[..m][i]]));
      ValueSlotsPlaceholders(defs, names[..m]);
      if !ProducesSql(defs[names[m]]) {
        assert "?"[..0] == "";
      }
    }
  }

  // ---------------------------------------------------------------- handling records

  /** What handleRecord did with a record. */
  datatype Handled = Rerouted(partition: int) | SkippedDuplicate | Batched

  /** The handler's mutable state as a value; `disabled` is AbstractRecordHandler's flag. */
  datatype InsertState = InsertState(
    statement: PreparedStatement,
    pending: int,              // numberOfStatementsInBatch
    tracker: set<string>,      // the primary-key fingerprints in the current batch
    routed: seq<Routed>,       // records handed to other handler threads
    disabled: bool)

  datatype Step = Step(result: Result<Handled>, state: InsertState)

  /**
   * checkBatchExecution: unless batching is suspended, a batch of `limit` or more rows is
   * executed and the duplicate tracker starts afresh.
   */
  function CheckBatch(st: InsertState, limit: int): (r: InsertState)
    ensures r.statement.Submitted() == st.statement.Submitted() && r.statement.sql == st.statement.sql
    ensures r.routed == st.routed && r.disabled == st.disabled && r.statement.closed == st.statement.closed
    ensures st.disabled || st.pending < limit ==> r == st
    ensures !st.disabled && st.pending >= limit ==> r.statement.batch == [] && r.pending == 0 && r.tracker == {}
  {
    if !st.disabled && st.pending >= limit then
      st.(statement := ExecuteBatch(st.statement), pending := 0, tracker := {})
    else st
  }

  /** handleRecord, as a function of the state before the call. */
  ghost function InsertStep(k: HandlerSetup, st: InsertState, rec: Record): (r: Step)
    requires SetupOk(k)
    ensures r.state.statement.sql == st.statement.sql && r.state.disabled == st.disabled
    ensures r.state.statement.closed == st.statement.closed
    ensures r.result == Ok(Batched) ==> (InsertParams(k.cfg, k.sc, rec).Ok?
      && r.state.statement.Submitted() == st.statement.Submitted() + [InsertParams(k.cfg, k.sc, rec).value])
    ensures r.result != Ok(Batched) ==> r.state.statement.Submitted() == st.statement.Submitted()
    ensures r.result.Ok? && r.result.value.Rerouted? <==> k.cfg.ignoreDuplicatePK && RecordPartition(k, rec) != k.threadId
    ensures r.result.Ok? && r.result.value.Rerouted? ==>
      r.result.value.partition == RecordPartition(k, rec) && r.state.routed == st.routed + [Routed(rec, RecordPartition(k, rec))]
    ensures !(r.result.Ok? && r.result.value.Rerouted?) ==> r.state.routed == st.routed
    ensures r.result.Ok? && r.result.value.SkippedDuplicate? ==>
      k.cfg.ignoreDuplicatePK && k.dialect.joinPrimaryKeys(rec) in st.tracker && r.state == st
    ensures r.result.Err? ==> InsertParams(k.cfg, k.sc, rec).Err? && r.result.error == InsertParams(k.cfg, k.sc, rec).error
    ensures st.pending == |st.statement.batch| ==> r.state.pending == |r.state.statement.batch|
    ensures !st.disabled && 0 <= st.pending < k.cfg.BatchSize() ==> 0 <= r.state.pending < k.cfg.BatchSize()
  {
    var dedup := k.cfg.ignoreDuplicatePK;
    var keys := k.dialect.joinPrimaryKeys(rec);
    if dedup && RecordPartition(k, rec) != k.threadId then
      Step(Ok(Rerouted(RecordPartition(k, rec))), st.(routed := st.routed + [Routed(rec, RecordPartition(k, rec))]))
    else if dedup && keys in st.tracker then
      Step(Ok(SkippedDuplicate), st)
    else
      BatchRecord(k, if dedup then st.(tracker := st.tracker + {keys}) else st, rec)
  }

  /** The part of handleRecord after routing: bind the parameters, add the row, maybe flush. */
  ghost function BatchRecord(k: HandlerSetup, st: InsertState, rec: Record): (r: Step)
    requires SetupOk(k)
    ensures r.state.statement.sql == st.statement.sql && r.state.disabled == st.disabled
    ensures r.state.statement.closed == st.statement.closed && r.state.routed == st.routed
    ensures r.result.Ok? <==> InsertParams(k.cfg, k.sc, rec).Ok?
    ensures r.result.Ok? ==> (r.result == Ok(Batched)
      && r.state.statement.Submitted() == st.statement.Submitted() + [InsertParams(k.cfg, k.sc, rec).value])
    ensures r.result.Err? ==> r.result.error == InsertParams(k.cfg, k.sc, rec).error && r.state == st
    ensures st.pending == |st.statement.batch| ==> r.state.pending == |r.state.statement.batch|
    ensures !st.disabled && 0 <= st.pending < k.cfg.BatchSize() ==> 0 <= r.state.pending < k.cfg.BatchSize()
  {
    match InsertParams(k.cfg, k.sc, rec)
    case Err(e) => Step(Err(e), st)
    case Ok(ps) =>
      var added := st.(pending := st.pending + 1, statement := AddBatch(st.statement, ps));
      Step(Ok(Batched), CheckBatch(added, k.cfg.BatchSize()))
  }

  /** A run of handleRecord calls; the first error ends the run, as it ends the worker. */
  ghost function HandleAll(k: HandlerSetup, st: InsertState, recs: seq<Record>): (r: Step)
    requires SetupOk(k)
    decreases |recs|
  {
    if recs == [] then Step(Ok(Batched), st)
    else
      var first := InsertStep(k, st, recs[0]);
      if first.result.Err? then first else HandleAll(k, first.state, recs[1..])
  }

  /** Every record's parameters bind without error. */
  ghost predicate AllBind(cfg: Settings, sc: Scripting, recs: seq<Record>)
    requires cfg.columnMappings.Some?
  {
    recs == [] || (InsertParams(cfg, sc, recs[0]).Ok? && AllBind(cfg, sc, recs[1..]))
  }

  lemma {:induction false} AllBindMeans(cfg: Settings, sc: Scripting, recs: seq<Record>)
    requires cfg.columnMappings.Some?
    ensures AllBind(cfg, sc, recs) <==> forall i | 0 <= i < |recs| :: InsertParams(cfg, sc, recs[i]).Ok?
  {
    if recs != [] {
      var rest := recs[1..];
      assert forall i | 0 <= i < |rest| :: rest[i] == recs[i + 1];
      AllBindMeans(cfg, sc, rest);
    }
  }

  /** The parameter lists of the given records, one per record, in order. */
  ghost function Rows(cfg: Settings, sc: Scripting, recs: seq<Record>): (r: seq<seq<Value>>)
    requires cfg.columnMappings.Some?
    requires AllBind(cfg, sc, recs)
    ensures |r| == |recs|
  {
    if recs == [] then [] else [InsertParams(cfg, sc, recs[0]).value] + Rows(cfg, sc, recs[1..])
  }

  /** Row i is record i's parameter list. */
  lemma {:induction false} RowsPointwise(cfg: Settings, sc: Scripting, recs: seq<Record>)
    requires cfg.columnMappings.Some?
    requires AllBind(cfg, sc, recs)
    ensures forall i | 0 <= i < |recs| ::
      InsertParams(cfg, sc, recs[i]).Ok? && Rows(cfg, sc, recs)[i] == InsertParams(cfg, sc, recs[i]).value
  {
    if recs != [] {
      var rest := recs[1..];
      RowsPointwise(cfg, sc, rest);
      forall i | 0 <= i < |recs|
        ensures InsertParams(cfg, sc, recs[i]).Ok? && Rows(cfg, sc, recs)[i] == InsertParams(cfg, sc, recs[i]).value
      {
        if i > 0 {
          assert recs[i] == rest[i - 1];
        }
      }
    }
  }

  /**
   * Without duplicate handling, every record whose values evaluate adds exactly its row: an
   * INSERT import never consults the table, so re-running it submits every row again.
   */
  lemma {:induction false} InsertSubmitsEveryRecord(k: HandlerSetup, st: InsertState, recs: seq<Record>)
    requires SetupOk(k) && !k.cfg.ignoreDuplicatePK
    requires AllBind(k.cfg, k.sc, recs)
    ensures HandleAll(k, st, recs).result.Ok?
    ensures HandleAll(k, st, recs).state.statement.Submitted()
      == st.statement.Submitted() + Rows(k.cfg, k.sc, recs)
    decreases |recs|
  {
    if recs != [] {
      var first := InsertStep(k, st, recs[0]);
      var rest := recs[1..];
      var row := InsertParams(k.cfg, k.sc, recs[0]).value;
      PlainInsertStep(k, st, recs[0]);
      assert HandleAll(k, st, recs) == HandleAll(k, first.state, rest);
      InsertSubmitsEveryRecord(k, first.state, rest);
      assert Rows(k.cfg, k.sc, recs) == [row] + Rows(k.cfg, k.sc, rest);
    }
  }

  /** Without duplicate handling, a record whose values evaluate is batched. */
  lemma PlainInsertStep(k: HandlerSetup, st: InsertState, rec: Record)
    requires SetupOk(k) && !k.cfg.ignoreDuplicatePK && InsertParams(k.cfg, k.sc, rec).Ok?
    ensures InsertStep(k, st, rec).result == Ok(Batched)
    ensures InsertStep(k, st, rec).state.statement.Submitted()
      == st.statement.Submitted() + [InsertParams(k.cfg, k.sc, rec).value]
  {
  }

  /**
   * With ignoreDuplicatePK, once a record is batched and the batch is not yet flushed, a later
   * record with the same key fingerprint is dropped and changes nothing.
   */
  lemma SameKeySkippedUntilFlush(k: HandlerSetup, st: InsertState, a: Record, b: Record)
    requires SetupOk(k) && k.cfg.ignoreDuplicatePK
    requires k.dialect.joinPrimaryKeys(a) == k.dialect.joinPrimaryKeys(b)
    requires InsertStep(k, st, a).result == Ok(Batched) && InsertStep(k, st, a).state.pending != 0
    ensures InsertStep(k, InsertStep(k, st, a).state, b) == Step(Ok(SkippedDuplicate), InsertStep(k, st, a).state)
  {
  }

  /** close flushes with limit 0: unless batching is suspended, nothing is left unexecuted. */
  lemma CloseLeavesNothingPending(st: InsertState)
    requires !st.disabled && st.pending >= 0
    ensures CheckBatch(st, 0).statement.batch == []
    ensures CheckBatch(st, 0).statement.executed == st.statement.Submitted()
  {
  }

  // ---------------------------------------------------------------- the handler object

  class InsertRecordHandler {
    const base: HandlerBase
    /** The text the insert statement was prepared with. */
    ghost const insertSql: string
    var insertStatement: PreparedStatement
    var numberOfStatementsInBatch: int
    var duplicatesTracker: set<string>
    var routed: seq<Routed>

    function Setup(): HandlerSetup {
      base.Setup()
    }

    function State(): InsertState
      reads this, base
    {
      InsertState(insertStatement, numberOfStatementsInBatch, duplicatesTracker, routed, base.batchExecutionDisabled)
    }

    /**
     * The column lists are computed, the statement is the INSERT for this configuration and
     * still open, the counter counts the batch, and an enabled batch is never full.
     */
    ghost predicate Valid()
      reads this, base
    {
      && base.Valid() && SetupOk(Setup())
      && base.orderedTableColumnNames.Some? && base.columnNamesWithInsertValues.Some?
      && !base.connectionClosed && !insertStatement.closed
      && insertStatement.sql == insertSql
      && numberOfStatementsInBatch == |insertStatement.batch|
      && (!base.batchExecutionDisabled ==> numberOfStatementsInBatch < base.config.BatchSize())
    }

    constructor (config: Settings, dialect: SqlDialect, scripting: Scripting, threadId: int, threadCount: int)
      requires SetupOk(HandlerSetup(config, dialect, scripting, threadId, threadCount))
      ensures Valid() && fresh(base) && insertSql == InsertSql(config)
      ensures Setup() == HandlerSetup(config, dialect, scripting, threadId, threadCount)
      ensures State() == InsertState(Prepare(InsertSql(config)), 0, {}, [], false)
    {
      var b := new HandlerBase(config, dialect, scripting, threadId, threadCount);
      var names := b.GetColumnNamesWithInsertValues();
      var ordered := b.GetOrderedTableColumnNames();
      var c := BuildInsertClauses(InsertDefinitions(config), names, ordered);
      base := b;
      insertSql := InsertSql(config);
      insertStatement := Prepare("INSERT INTO " + TableText(config.targetTable) + " (" + c.columns
                                 + ") VALUES (" + c.values + ")");
      numberOfStatementsInBatch := 0;
      duplicatesTracker := {};
      routed := [];
    }

    /** handleRecord. */
    method HandleRecord(rec: Record) returns (res: Result<Handled>)
      requires Valid()
      modifies this, base
      ensures Valid()
      ensures Step(res, State()) == InsertStep(Setup(), old(State()), rec)
    {
      if base.config.ignoreDuplicatePK {
        var settled := Deduplicate(rec);
        if settled.Some? {
          return Ok(settled.value);
        }
      }
      res := AddRecord(rec);
    }

    /**
     * The ignoreDuplicatePK part of handleRecord: a record of another thread's partition is
     * routed there, a repeated key is skipped, and a new key is remembered and left to be batched.
     */
    method Deduplicate(rec: Record) returns (settled: Option<Handled>)
      requires Valid() && base.config.ignoreDuplicatePK
      modifies this
      ensures Valid()
      ensures settled.Some? ==> Step(Ok(settled.value), State()) == InsertStep(Setup(), old(State()), rec)
      ensures settled.None? ==> InsertStep(Setup(), old(State()), rec) == BatchRecord(Setup(), State(), rec)
    {
      var keys := base.dialect.joinPrimaryKeys(rec);
      var partitionId := JavaLang.Partition(keys, base.threadCount);
      if partitionId != base.threadId {
        routed := routed + [Routed(rec, partitionId)];
        return Some(Rerouted(partitionId));
      }
      if keys in duplicatesTracker {
        return Some(SkippedDuplicate);
      }
      duplicatesTracker := duplicatesTracker + {keys};
      settled := None;
    }

    /** The rest of handleRecord: bind the parameters, add the row and check the batch. */
    method AddRecord(rec: Record) returns (res: Result<Handled>)
      requires Valid()
      modifies this, base
      ensures Valid()
      ensures Step(res, State()) == BatchRecord(Setup(), old(State()), rec)
    {
      var params :- BindRecord(rec);
      AppendRow(params);
      res := Ok(Batched);
    }

    /** The two binding loops of handleRecord, over the memoised column lists. */
    method BindRecord(rec: Record) returns (r: Result<seq<Value>>)
      requires Valid()
      modifies base
      ensures Valid() && State() == old(State())
      ensures r == InsertParams(base.config, base.scripting, rec)
    {
      var names := base.GetColumnNamesWithInsertValues();
      var ordered := base.GetOrderedTableColumnNames();
      r := BindParameters(base.config, base.scripting, names, ordered, rec);
    }

    /** numberOfStatementsInBatch++, addBatch, then checkBatchExecution with the batch size. */
    method AppendRow(params: seq<Value>)
      requires Valid()
      modifies this
      ensures Valid()
      ensures State() == CheckBatch(old(State()).(pending := old(State()).pending + 1,
                                                  statement := AddBatch(old(State()).statement, params)),
                                    base.config.BatchSize())
    {
      numberOfStatementsInBatch := numberOfStatementsInBatch + 1;
      insertStatement := AddBatch(insertStatement, params);
      CheckBatchExecution(base.config.BatchSize());
    }

    /** checkBatchExecution. */
    method CheckBatchExecution(limit: int)
      modifies this
      ensures State() == CheckBatch(old(State()), limit)
    {
      if base.batchExecutionDisabled {
        return;
      }
      if numberOfStatementsInBatch >= limit {
        insertStatement := ExecuteBatch(insertStatement);
        numberOfStatementsInBatch := 0;
        duplicatesTracker := {};
      }
    }

    /** enableBatchExecution: batching resumes, and a full batch is flushed at once. */
    method EnableBatchExecution()
      requires Valid()
      modifies this, base
      ensures Valid()
      ensures State() == CheckBatch(old(State()).(disabled := false), base.config.BatchSize())
    {
      base.EnableBatchExecution();
      CheckBatchExecution(base.config.BatchSize());
    }

    /** close: the remaining batch is executed, then the statement and the connection are closed. */
    method Close()
      requires Valid()
      modifies this, base
      ensures base.connectionClosed
      ensures State() == var flushed := CheckBatch(old(State()), 0);
                         flushed.(statement := Jdbc.Close(flushed.statement))
    {
      CheckBatchExecution(0);
      insertStatement := Jdbc.Close(insertStatement);
      base.Close();
    }
  }
}
