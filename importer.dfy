/**
 * Importer: the reader thread hands every CSV line to the mediator and then signals the end of
 * input; each worker thread takes objects from the mediator, turns CSV lines into records and
 * hands records to its record handler until it takes an end marker, and closes the handler
 * once at the end.
 */
module Importing {
  import opened Wrappers
  import opened Records
  import opened Config

  /** A CSV line: the `String[]` of its columns. */
  type Line = seq<string>

  // ---------------------------------------------------------------- the reader

  /** The calls readInput makes on the mediator. */
  datatype ReaderCall = Dispatch(line: Line) | ProducerDone

  /** How many lines are dispatched: all of them, or at most `limit` when it is positive. */
  function DispatchCount(lines: nat, limit: int): (n: nat)
    ensures n <= lines
    ensures limit <= 0 ==> n == lines
    ensures limit > 0 ==> n == if limit < lines then limit else lines
  {
    if limit > 0 && limit < lines then limit else lines
  }

  function Dispatches(lines: seq<Line>): (r: seq<ReaderCall>)
    ensures |r| == |lines| && forall i | 0 <= i < |lines| :: r[i] == Dispatch(lines[i])
  {
    seq(|lines|, i requires 0 <= i < |lines| => Dispatch(lines[i]))
  }

  /**
   * What readInput does on normal completion: the first lines, in input order, one dispatch
   * each, then exactly one producerDone, after the last dispatch.
   */
  function ReaderCalls(lines: seq<Line>, limit: int): (r: seq<ReaderCall>)
    ensures |r| == DispatchCount(|lines|, limit) + 1
    ensures forall i | 0 <= i < |r| - 1 :: r[i] == Dispatch(lines[i])
    ensures forall i | 0 <= i < |r| :: r[i] == ProducerDone <==> i == |r| - 1
  {
    Dispatches(lines[..DispatchCount(|lines|, limit)]) + [ProducerDone]
  }

  /** The reading loop of readInput, with its line counter and early finish. */
  method ReadInput(lines: seq<Line>, limit: int) returns (calls: seq<ReaderCall>)
    ensures calls == ReaderCalls(lines, limit)
  {
    calls := [];
    var counter := 0;
    var i := 0;
    var finished := false;
    while i < |lines| && !finished
      invariant 0 <= i <= |lines|
      invariant calls == Dispatches(lines[..i])
      invariant limit > 0 ==> counter == i
      invariant !finished ==> limit <= 0 || i < limit
      invariant finished ==> limit > 0 && i == limit
    {
      calls := calls + [Dispatch(lines[i])];
      assert lines[..i + 1] == lines[..i] + [lines[i]];
      i := i + 1;
      if limit > 0 {
        counter := counter + 1;
        if counter >= limit {
          finished := true;
        }
      }
    }
    assert i == DispatchCount(|lines|, limit);
    calls := calls + [ProducerDone];
  }

  // ---------------------------------------------------------------- a line becomes a record

  /**
   * The record of a CSV line: each mapped column index's value under its target name, the
   * mappings visited in `order` (the iteration order of the mapping table, not modelled
   * further); an index outside the line fails.
   */
  function NameValues(columns: Line, mappings: map<int, string>, order: seq<int>): (r: Result<Record>)
    requires forall i | i in order :: i in mappings
  {
    if order == [] then Ok(map[])
    else
      var n := |order| - 1;
      var prev :- NameValues(columns, mappings, order[..n]);
      var index := order[n];
      if 0 <= index < |columns| then Ok(prev[mappings[index] := Str(columns[index])])
      else Err(IndexOutOfBounds(index))
  }

  /** The loop of handleRecord that fills nameValues. */
  method BuildNameValues(columns: Line, mappings: map<int, string>, order: seq<int>) returns (r: Result<Record>)
    requires forall i | i in order :: i in mappings
    ensures r == NameValues(columns, mappings, order)
  {
    var nameValues: Record := map[];
    for k := 0 to |order|
      invariant NameValues(columns, mappings, order[..k]) == Ok(nameValues)
    {
      assert order[..k + 1][..k] == order[..k];
      var index := order[k];
      if !(0 <= index < |columns|) {
        NameValuesPrefixFailure(columns, mappings, order, k + 1);
        return Err(IndexOutOfBounds(index));
      }
      nameValues := nameValues[mappings[index] := Str(columns[index])];
    }
    assert order[..|order|] == order;
    r := Ok(nameValues);
  }

  lemma {:induction false} NameValuesPrefixFailure(columns: Line, mappings: map<int, string>, order: seq<int>, k: nat)
    requires forall i | i in order :: i in mappings
    requires k <= |order| && NameValues(columns, mappings, order[..k]).Err?
    ensures NameValues(columns, mappings, order) == NameValues(columns, mappings, order[..k])
    decreases |order| - k
  {
    if k < |order| {
      var m := |order| - 1;
      assert order[..m][..k] == order[..k];
      NameValuesPrefixFailure(columns, mappings, order[..m], k);
    } else {
      assert order[..k] == order;
    }
  }

  /** The record's keys are exactly the target names of the visited mappings. */
  lemma {:induction false} NameValuesKeys(columns: Line, mappings: map<int, string>, order: seq<int>)
    requires forall i | i in order :: i in mappings
    requires NameValues(columns, mappings, order).Ok?
    ensures NameValues(columns, mappings, order).value.Keys == set i | i in order :: mappings[i]
  {
    if order != [] {
      var n := |order| - 1;
      NameValuesKeys(columns, mappings, order[..n]);
      assert forall i :: i in order <==> i in order[..n] || i == order[n];
    }
  }

  /** Building fails exactly when some visited index lies outside the line. */
  lemma {:induction false} NameValuesFailure(columns: Line, mappings: map<int, string>, order: seq<int>)
    requires forall i | i in order :: i in mappings
    ensures NameValues(columns, mappings, order).Err? <==> exists i | i in order :: !(0 <= i < |columns|)
  {
    if order != [] {
      var n := |order| - 1;
      NameValuesFailure(columns, mappings, order[..n]);
      assert forall i :: i in order <==> i in order[..n] || i == order[n];
      if NameValues(columns, mappings, order[..n]).Err? {
        var i :| i in order[..n] && !(0 <= i < |columns|);
        assert i in order;
      } else if !(0 <= order[n] < |columns|) {
        assert order[n] in order;
      }
    }
  }

  /**
   * When no two indices share a target name, each visited index's value is found under its
   * target name, whatever the visiting order.
   */
  lemma {:induction false} NameValuesColumns(columns: Line, mappings: map<int, string>, order: seq<int>)
    requires forall i | i in order :: i in mappings
    requires forall i, j | i in mappings && j in mappings && i != j :: mappings[i] != mappings[j]
    requires NameValues(columns, mappings, order).Ok?
    ensures forall i | i in order ::
      (0 <= i < |columns| && mappings[i] in NameValues(columns, mappings, order).value
       && NameValues(columns, mappings, order).value[mappings[i]] == Str(columns[i]))
  {
    if order != [] {
      var n := |order| - 1;
      NameValuesColumns(columns, mappings, order[..n]);
      NameValuesKeys(columns, mappings, order[..n]);
      assert forall i :: i in order <==> i in order[..n] || i == order[n];
    }
  }

  // ---------------------------------------------------------------- the worker

  /** What mediator.take hands a worker: a CSV line, a rerouted record, or null. */
  datatype Next = CsvLine(columns: Line) | ReroutedRecord(rec: Record) | NullObject

  /** What a worker does with its record handler (or with the configured map function). */
  datatype WorkerEvent = Handled(rec: Record) | Mapped(rec: Record) | Closed

  /** The events of one handleRecord call, and whether the worker takes the next object. */
  datatype Handling = Handling(events: seq<WorkerEvent>, goOn: bool)

  /**
   * handleRecord(Object). `order` is the iteration order of the column mappings; `fails`
   * says which records make the handler (or the map function) throw, which ends the worker.
   */
  function HandleNext(cfg: Settings, order: seq<int>, next: Next, fails: Record -> bool): (r: Handling)
    requires cfg.columnMappings.Some? ==> forall i | i in order :: i in cfg.columnMappings.value
    ensures next.NullObject? || next == CsvLine([]) ==> r == Handling([], false)
    ensures next.ReroutedRecord? ==> r.events == [Handled(next.rec)] && (r.goOn <==> !fails(next.rec))
    ensures next.CsvLine? && cfg.columnMappings.None? ==> r == Handling([], false)
    ensures |r.events| <= 1 && (r.events == [] ==> !r.goOn)
    ensures Closed !in r.events
  {
    match next
    case NullObject => Handling([], false)
    case ReroutedRecord(rec) => Handling([Handled(rec)], !fails(rec))
    case CsvLine(columns) =>
      if |columns| == 0 || cfg.columnMappings.None? then Handling([], false)
      else
        match NameValues(columns, cfg.columnMappings.value, order)
        case Err(_) => Handling([], false)
        case Ok(rec) =>
          Handling([if cfg.mapFunction.None? then Handled(rec) else Mapped(rec)], !fails(rec))
  }

  /** readLines over the objects the worker takes, in order; it ends at the first stop. */
  function ReadLines(cfg: Settings, order: seq<int>, nexts: seq<Next>, fails: Record -> bool): (r: seq<WorkerEvent>)
    requires cfg.columnMappings.Some? ==> forall i | i in order :: i in cfg.columnMappings.value
    ensures |r| <= |nexts|
    decreases |nexts|
  {
    if nexts == [] then []
    else
      var h := HandleNext(cfg, order, nexts[0], fails);
      h.events + (if h.goOn then ReadLines(cfg, order, nexts[1..], fails) else [])
  }

  /** run: readLines, then the handler is closed whatever happened. */
  function RunEvents(cfg: Settings, order: seq<int>, nexts: seq<Next>, fails: Record -> bool): seq<WorkerEvent>
    requires cfg.columnMappings.Some? ==> forall i | i in order :: i in cfg.columnMappings.value
  {
    ReadLines(cfg, order, nexts, fails) + [Closed]
  }

  /** handleRecord(Object) with its nameValues loop. */
  method HandleObject(cfg: Settings, order: seq<int>, next: Next, fails: Record -> bool) returns (r: Handling)
    requires cfg.columnMappings.Some? ==> forall i | i in order :: i in cfg.columnMappings.value
    ensures r == HandleNext(cfg, order, next, fails)
  {
    match next {
      case NullObject =>
        r := Handling([], false);
      case ReroutedRecord(rec) =>
        r := Handling([Handled(rec)], !fails(rec));
      case CsvLine(columns) =>
        if |columns| == 0 || cfg.columnMappings.None? {
          return Handling([], false);
        }
        var nameValues := BuildNameValues(columns, cfg.columnMappings.value, order);
        if nameValues.Err? {
          return Handling([], false);
        }
        var rec := nameValues.value;
        if cfg.mapFunction.None? {
          r := Handling([Handled(rec)], !fails(rec));
        } else {
          r := Handling([Mapped(rec)], !fails(rec));
        }
    }
  }

  /** The worker's run: the readLines loop, then close. */
  method Run(cfg: Settings, order: seq<int>, nexts: seq<Next>, fails: Record -> bool) returns (log: seq<WorkerEvent>)
    requires cfg.columnMappings.Some? ==> forall i | i in order :: i in cfg.columnMappings.value
    ensures log == RunEvents(cfg, order, nexts, fails)
  {
    log := ReadAll(cfg, order, nexts, fails);
    log := log + [Closed];
  }

  /** The readLines loop: handle each taken object until one stops the worker. */
  method ReadAll(cfg: Settings, order: seq<int>, nexts: seq<Next>, fails: Record -> bool) returns (log: seq<WorkerEvent>)
    requires cfg.columnMappings.Some? ==> forall i | i in order :: i in cfg.columnMappings.value
    ensures log == ReadLines(cfg, order, nexts, fails)
  {
    ghost var handle := Handler(cfg, order, fails);
    ReadLinesIsReadWith(cfg, order, nexts, fails);
    log := [];
    var i := 0;
    while i < |nexts|
      invariant 0 <= i <= |nexts|
      invariant log + ReadWith(handle, nexts[i..]) == ReadWith(handle, nexts)
    {
      var h := HandleObject(cfg, order, nexts[i], fails);
      ReadAdvance(handle, nexts, i, log);
      log := log + h.events;
      if !h.goOn {
        return;
      }
      i := i + 1;
    }
    ReadDone(handle, nexts, log);
  }

  /** readLines with any handling of one object. */
  function ReadWith(handle: Next -> Handling, nexts: seq<Next>): seq<WorkerEvent>
    decreases |nexts|
  {
    if nexts == [] then []
    else handle(nexts[0]).events + (if handle(nexts[0]).goOn then ReadWith(handle, nexts[1..]) else [])
  }

  /** handleRecord(Object) as a function of the object alone. */
  function Handler(cfg: Settings, order: seq<int>, fails: Record -> bool): (handle: Next -> Handling)
    requires cfg.columnMappings.Some? ==> forall i | i in order :: i in cfg.columnMappings.value
    ensures forall n :: handle(n) == HandleNext(cfg, order, n, fails)
  {
    n => HandleNext(cfg, order, n, fails)
  }

  lemma {:induction false} ReadLinesIsReadWith(cfg: Settings, order: seq<int>, nexts: seq<Next>, fails: Record -> bool)
    requires cfg.columnMappings.Some? ==> forall i | i in order :: i in cfg.columnMappings.value
    ensures ReadLines(cfg, order, nexts, fails) == ReadWith(Handler(cfg, order, fails), nexts)
    decreases |nexts|
  {
    if nexts != [] {
      ReadLinesIsReadWith(cfg, order, nexts[1..], fails);
    }
  }

  /** One object taken: its events are logged, and the worker goes on or stops with them. */
  lemma ReadAdvance(handle: Next -> Handling, nexts: seq<Next>, i: nat, log: seq<WorkerEvent>)
    requires i < |nexts| && log + ReadWith(handle, nexts[i..]) == ReadWith(handle, nexts)
    ensures handle(nexts[i]).goOn ==> (log + handle(nexts[i]).events) + ReadWith(handle, nexts[i + 1..]) == ReadWith(handle, nexts)
    ensures !handle(nexts[i]).goOn ==> log + handle(nexts[i]).events == ReadWith(handle, nexts)
  {
    var h := handle(nexts[i]);
    assert nexts[i..][0] == nexts[i] && nexts[i..][1..] == nexts[i + 1..];
    var rest := if h.goOn then ReadWith(handle, nexts[i + 1..]) else [];
    assert log + (h.events + rest) == (log + h.events) + rest;
    if !h.goOn {
      assert (log + h.events) + [] == log + h.events;
    }
  }

  /** Every object taken and none stopped the worker: the log is complete. */
  lemma ReadDone(handle: Next -> Handling, nexts: seq<Next>, log: seq<WorkerEvent>)
    requires log + ReadWith(handle, nexts[|nexts|..]) == ReadWith(handle, nexts)
    ensures log == ReadWith(handle, nexts)
  {
    assert nexts[|nexts|..] == [];
    assert log + [] == log;
  }

  /** The handler is closed exactly once, as the worker's last act. */
  lemma ClosedOnceAtEnd(cfg: Settings, order: seq<int>, nexts: seq<Next>, fails: Record -> bool)
    requires cfg.columnMappings.Some? ==> forall i | i in order :: i in cfg.columnMappings.value
    ensures var r := RunEvents(cfg, order, nexts, fails);
      forall i | 0 <= i < |r| :: r[i] == Closed <==> i == |r| - 1
  {
    NoCloseWhileReading(cfg, order, nexts, fails);
  }

  lemma {:induction false} NoCloseWhileReading(cfg: Settings, order: seq<int>, nexts: seq<Next>, fails: Record -> bool)
    requires cfg.columnMappings.Some? ==> forall i | i in order :: i in cfg.columnMappings.value
    ensures Closed !in ReadLines(cfg, order, nexts, fails)
    decreases |nexts|
  {
    if nexts != [] {
      NoCloseWhileReading(cfg, order, nexts[1..], fails);
    }
  }

  /** An end marker (an empty line or null) ends the worker: nothing taken after it is handled. */
  lemma {:induction false} NothingAfterEndMarker(cfg: Settings, order: seq<int>, nexts: seq<Next>, fails: Record -> bool, j: nat)
    requires cfg.columnMappings.Some? ==> forall i | i in order :: i in cfg.columnMappings.value
    requires j < |nexts| && (nexts[j].NullObject? || nexts[j] == CsvLine([]))
    ensures ReadLines(cfg, order, nexts, fails) == ReadLines(cfg, order, nexts[..j], fails)
    decreases j
  {
    if j > 0 {
      NothingAfterEndMarker(cfg, order, nexts[1..], fails, j - 1);
      assert nexts[1..][..j - 1] == nexts[..j][1..];
    }
  }

  /** A line whose mapped columns are all present yields a record, so the worker does not stop on it. */
  ghost predicate WellFormedLine(cfg: Settings, order: seq<int>, next: Next)
    requires cfg.columnMappings.Some? && forall i | i in order :: i in cfg.columnMappings.value
  {
    next.CsvLine? && |next.columns| > 0 && forall i | i in order :: 0 <= i < |next.columns|
  }

  /**
   * Without a map function and without handler failures, every well-formed line reaches the
   * handler exactly once, in the order taken.
   */
  lemma {:induction false} EveryLineHandledOnce(cfg: Settings, order: seq<int>, nexts: seq<Next>, fails: Record -> bool)
    requires cfg.columnMappings.Some? && forall i | i in order :: i in cfg.columnMappings.value
    requires cfg.mapFunction.None?
    requires forall i | 0 <= i < |nexts| :: WellFormedLine(cfg, order, nexts[i])
    requires forall rec :: !fails(rec)
    ensures |ReadLines(cfg, order, nexts, fails)| == |nexts|
    ensures forall i | 0 <= i < |nexts| ::
      (nexts[i].CsvLine? && ReadLines(cfg, order, nexts, fails)[i].Handled?
       && NameValues(nexts[i].columns, cfg.columnMappings.value, order) == Ok(ReadLines(cfg, order, nexts, fails)[i].rec))
    decreases |nexts|
  {
    if nexts != [] {
      var rest := nexts[1..];
      NameValuesFailure(nexts[0].columns, cfg.columnMappings.value, order);
      assert forall i | 0 <= i < |rest| :: rest[i] == nexts[i + 1];
      EveryLineHandledOnce(cfg, order, rest, fails);
    }
  }

  // ---------------------------------------------------------------- the strategy

  /** The handler kinds getRecordHandlerStrategy chooses between. */
  datatype Strategy = InsertStrategy | InsertOnlyStrategy | MergeStrategy

  /** getRecordHandlerStrategy: INSERT and INSERTONLY have their handlers; every other mode merges. */
  function StrategyFor(mode: Option<OperationMode>): (r: Result<Strategy>)
    ensures mode.None? <==> r == Err(NullPointer)
  {
    match mode
    case None => Err(NullPointer)
    case Some(Insert) => Ok(InsertStrategy)
    case Some(InsertOnly) => Ok(InsertOnlyStrategy)
    case Some(_) => Ok(MergeStrategy)
  }

  /** The mode each strategy serves. */
  function ModeOf(s: Strategy): OperationMode {
    match s
    case InsertStrategy => Insert
    case InsertOnlyStrategy => InsertOnly
    case MergeStrategy => Merge
  }

  /** Each mode gets the handler that serves it, and each handler is chosen by its mode only. */
  lemma StrategyServesMode(m: OperationMode, s: Strategy)
    ensures StrategyFor(Some(m)) == Ok(s) <==> ModeOf(s) == m
  {
  }
}
