/**
 * InsertOnlyRecordHandler: the merge handler's statements, but a record whose key is already in
 * the table is ignored instead of updated, and with ignoreNullPK a record whose transformed key
 * holds a null is dropped; every other record goes to the embedded insert handler.
 */
module InsertOnlyHandling {
  import opened Wrappers
  import opened Records
  import opened ValueDefinitions
  import opened Config
  import opened RecordHandling
  import opened Jdbc
  import InsertHandling
  import InsertUpdateHandling
  import MergeHandling

  /** What handleRecord did with a record. */
  datatype Outcome = AlreadyPresent | NullKeySkipped | Handed(handled: InsertHandling.Handled)

  datatype OnlyStep = OnlyStep(result: Result<Outcome>, state: MergeHandling.MergeState)

  /** The SELECT's parameters: the transformed primary-key values. */
  ghost function KeyParams(k: HandlerSetup, rec: Record): Result<seq<Value>> {
    TransformParams(k.cfg, k.sc, InsertUpdateHandling.PrimaryKeys(k.cfg), rec)
  }

  /** With ignoreNullPK, a record whose transformed key holds a null is not inserted. */
  ghost predicate NullKeyed(k: HandlerSetup, keys: seq<Value>) {
    k.cfg.ignoreNullPK && Null in keys
  }

  /** handleRecord, given the row the SELECT finds (if any). */
  ghost function InsertOnlySpec(k: HandlerSetup, st: MergeHandling.MergeState, rec: Record, existing: Option<Row>)
    : (r: OnlyStep)
    requires SetupOk(k)
    ensures r.state.update == st.update && r.state.pending == st.pending
    ensures KeyParams(k, rec).Err? ==> r == OnlyStep(Err(KeyParams(k, rec).error), st)
    ensures KeyParams(k, rec).Ok? ==> r.state.select == ExecuteQuery(st.select, KeyParams(k, rec).value)
    ensures r.state.inserted != st.inserted ==> existing.None? && KeyParams(k, rec).Ok? && !NullKeyed(k, KeyParams(k, rec).value)
    ensures r.result == Ok(AlreadyPresent) <==> existing.Some? && KeyParams(k, rec).Ok?
  {
    match KeyParams(k, rec)
    case Err(e) => OnlyStep(Err(e), st)
    case Ok(keys) =>
      var queried := st.(select := ExecuteQuery(st.select, keys));
      if existing.Some? then OnlyStep(Ok(AlreadyPresent), queried)
      else if NullKeyed(k, keys) then OnlyStep(Ok(NullKeySkipped), queried)
      else
        var ins := InsertHandling.InsertStep(k, st.inserted, rec);
        OnlyStep(if ins.result.Ok? then Ok(Handed(ins.result.value)) else Err(ins.result.error),
                 queried.(inserted := ins.state))
  }

  /** A key column that transforms to null keeps the record out of the insert handler under ignoreNullPK. */
  lemma NullKeyIsNeverInserted(k: HandlerSetup, st: MergeHandling.MergeState, rec: Record, i: nat)
    requires SetupOk(k) && k.cfg.ignoreNullPK && KeyParams(k, rec).Ok?
    requires i < |InsertUpdateHandling.PrimaryKeys(k.cfg)|
    requires Transform(k.cfg, k.sc, InsertUpdateHandling.PrimaryKeys(k.cfg)[i], rec) == Ok(Null)
    ensures InsertOnlySpec(k, st, rec, None) == OnlyStep(Ok(NullKeySkipped), st.(select := ExecuteQuery(st.select, KeyParams(k, rec).value)))
  {
    TransformParamsPointwise(k.cfg, k.sc, InsertUpdateHandling.PrimaryKeys(k.cfg), rec);
    assert KeyParams(k, rec).value[i] == Null;
  }

  /** Without ignoreNullPK every record the SELECT does not find reaches the insert handler. */
  lemma MissingRowIsHanded(k: HandlerSetup, st: MergeHandling.MergeState, rec: Record)
    requires SetupOk(k) && !k.cfg.ignoreNullPK && KeyParams(k, rec).Ok?
    ensures InsertOnlySpec(k, st, rec, None).state.inserted == InsertHandling.InsertStep(k, st.inserted, rec).state
    ensures InsertOnlySpec(k, st, rec, None).result.Ok? <==> InsertHandling.InsertStep(k, st.inserted, rec).result.Ok?
  {
  }

  /**
   * A run of handleRecord calls, `found[i]` being what the SELECT returns for `recs[i]`; the
   * first error ends it.
   */
  ghost function InsertOnlyAll(k: HandlerSetup, st: MergeHandling.MergeState, recs: seq<Record>, found: seq<Option<Row>>)
    : (r: OnlyStep)
    requires SetupOk(k) && |found| == |recs|
    decreases |recs|
  {
    if recs == [] then OnlyStep(Ok(Handed(InsertHandling.Batched)), st)
    else
      var first := InsertOnlySpec(k, st, recs[0], found[0]);
      if first.result.Err? then first else InsertOnlyAll(k, first.state, recs[1..], found[1..])
  }

  /** Re-running over records whose rows are all present inserts nothing and updates nothing. */
  lemma {:induction false} PresentRowsAreLeftAlone(k: HandlerSetup, st: MergeHandling.MergeState, recs: seq<Record>, found: seq<Option<Row>>)
    requires SetupOk(k) && |found| == |recs|
    requires forall i | 0 <= i < |found| :: found[i].Some?
    ensures InsertOnlyAll(k, st, recs, found).state.inserted == st.inserted
    ensures InsertOnlyAll(k, st, recs, found).state.update == st.update
    ensures InsertOnlyAll(k, st, recs, found).result.Ok? ==> InsertOnlyAll(k, st, recs, found).result.value != NullKeySkipped
    decreases |recs|
  {
    if recs != [] {
      var first := InsertOnlySpec(k, st, recs[0], found[0]);
      assert forall i | 0 <= i < |found[1..]| :: found[1..][i].Some? by {
        forall i | 0 <= i < |found[1..]| ensures found[1..][i].Some? {
          assert found[1..][i] == found[i + 1];
        }
      }
      PresentRowsAreLeftAlone(k, first.state, recs[1..], found[1..]);
    }
  }

  /** The records an insert-only run hands on: those without a null key under ignoreNullPK. */
  ghost function Admitted(k: HandlerSetup, recs: seq<Record>): (r: seq<Record>)
    requires forall i | 0 <= i < |recs| :: KeyParams(k, recs[i]).Ok?
    ensures |r| <= |recs|
    ensures forall x | x in r :: x in recs
    decreases |recs|
  {
    if recs == [] then []
    else
      var rest := Admitted(k, recs[1..]);
      if NullKeyed(k, KeyParams(k, recs[0]).value) then rest else [recs[0]] + rest
  }

  /**
   * Over a table that holds none of the keys, the insert handler ends in exactly the state it
   * reaches when handed the admitted records directly, and the run fails exactly when that
   * does.
   */
  lemma {:induction false} MissingRowsReachInserter(k: HandlerSetup, st: MergeHandling.MergeState, recs: seq<Record>, found: seq<Option<Row>>)
    requires SetupOk(k) && |found| == |recs|
    requires forall i | 0 <= i < |recs| :: KeyParams(k, recs[i]).Ok? && found[i].None?
    ensures InsertOnlyAll(k, st, recs, found).state.inserted == InsertHandling.HandleAll(k, st.inserted, Admitted(k, recs)).state
    ensures InsertOnlyAll(k, st, recs, found).result.Err? <==> InsertHandling.HandleAll(k, st.inserted, Admitted(k, recs)).result.Err?
    decreases |recs|
  {
    if recs != [] {
      var rest, later := recs[1..], found[1..];
      assert forall i | 0 <= i < |rest| :: KeyParams(k, rest[i]).Ok? && later[i].None? by {
        forall i | 0 <= i < |rest| ensures KeyParams(k, rest[i]).Ok? && later[i].None? {
          assert rest[i] == recs[i + 1] && later[i] == found[i + 1];
        }
      }
      assert found[0] == None;
      var first := InsertOnlySpec(k, st, recs[0], None);
      MissingRowsReachInserter(k, first.state, rest, later);
      if !NullKeyed(k, KeyParams(k, recs[0]).value) {
        var adm := Admitted(k, recs);
        assert adm[0] == recs[0] && adm[1..] == Admitted(k, rest);
      }
    }
  }

  // ---------------------------------------------------------------- the handler

  class InsertOnlyRecordHandler {
    /** The merge handler whose statements and insert handler this one uses. */
    const merge: MergeHandling.MergeRecordHandler

    function Setup(): HandlerSetup {
      merge.Setup()
    }

    function State(): MergeHandling.MergeState
      reads merge, merge.inserter, merge.inserter.base
    {
      merge.State()
    }

    ghost predicate Valid()
      reads merge, merge.base, merge.inserter, merge.inserter.base
    {
      merge.Valid()
    }

    constructor (config: Settings, dialect: SqlDialect, scripting: Scripting)
      requires SetupOk(HandlerSetup(config, dialect, scripting, 0, 1)) && InsertUpdateHandling.HasPrimaryKeys(config)
      ensures merge.Valid() && fresh(merge) && fresh(merge.base) && fresh(merge.inserter) && fresh(merge.inserter.base)
      ensures Setup() == HandlerSetup(config, dialect, scripting, 0, 1)
      ensures merge.State() == MergeHandling.InitialState(config)
    {
      merge := new MergeHandling.MergeRecordHandler(config, dialect, scripting);
    }

    /** handleRecord, given the row the SELECT returns, if any. */
    method HandleRecord(rec: Record, existing: Option<Row>) returns (r: Result<Outcome>)
      requires Valid()
      modifies merge, merge.base, merge.inserter, merge.inserter.base
      ensures Valid()
      ensures OnlyStep(r, State()) == InsertOnlySpec(Setup(), old(State()), rec, existing)
    {
      var keys :- BindTransforms(merge.base.config, merge.base.scripting, merge.base.config.primaryKeys.value, rec);
      merge.Query(keys);
      if existing.Some? {
        return Ok(AlreadyPresent);
      }
      if merge.base.config.ignoreNullPK {
        var nullKey := HasNull(keys);
        if nullKey {
          return Ok(NullKeySkipped);
        }
      }
      var handled := merge.Insert(rec);
      r := if handled.Ok? then Ok(Handed(handled.value)) else Err(handled.error);
    }

    /** close, inherited from the merge handler. */
    method Close()
      requires Valid()
      modifies merge, merge.base, merge.inserter, merge.inserter.base
      ensures merge.base.connectionClosed && merge.inserter.base.connectionClosed
      ensures State() == MergeHandling.CloseSpec(old(State()))
    {
      merge.Close();
    }
  }

  /** The loop over the key values that looks for a null. */
  method HasNull(keys: seq<Value>) returns (b: bool)
    ensures b <==> Null in keys
  {
    for i := 0 to |keys|
      invariant Null !in keys[..i]
    {
      if keys[i] == Null {
        return true;
      }
      assert keys[..i + 1] == keys[..i] + [keys[i]];
    }
    assert keys[..|keys|] == keys;
    b := false;
  }

  /** The constructor with the merge handler's check: without primary keys no handler is built. */
  method Create(config: Settings, dialect: SqlDialect, scripting: Scripting) returns (r: Result<InsertOnlyRecordHandler>)
    requires SetupOk(HandlerSetup(config, dialect, scripting, 0, 1))
    ensures r.Err? <==> !InsertUpdateHandling.HasPrimaryKeys(config)
    ensures r.Err? ==> r.error == MergeHandling.MissingKeys
    ensures r.Ok? ==> (fresh(r.value) && r.value.Valid() && r.value.Setup() == HandlerSetup(config, dialect, scripting, 0, 1))
  {
    if !InsertUpdateHandling.HasPrimaryKeys(config) {
      return Err(MergeHandling.MissingKeys);
    }
    var handler := new InsertOnlyRecordHandler(config, dialect, scripting);
    r := Ok(handler);
  }
}
