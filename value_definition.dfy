/**
 * The ValueDefinition family: how a configuration says what value a column receives.
 * A string, boolean or number literal, a literal SQL fragment, or a call of a named script
 * function. JSON elements are kept small: the shapes the adapter can meet.
 */
module ValueDefinitions {
  import opened Wrappers
  import opened Records

  /** Gson's JsonElement, with integer numbers only. */
  datatype Json =
    | JNull
    | JString(str: string)
    | JBool(boolean: bool)
    | JNumber(num: int)
    | JObject(fields: map<string, Json>)
    | JArray(elements: seq<Json>)

  /** The five implementations of ValueDefinition. */
  datatype ValueDefinition =
    | StringLiteral(text: string)
    | BooleanLiteral(flag: bool)
    | NumberLiteral(number: int)
    | SqlLiteral(sql: string)
    | FunctionReference(functionName: string)

  /**
   * The script engine and the Gson rendering that FunctionReference.eval relies on; all three
   * are outside the model. `engine` yields None when evaluation raises a ScriptException.
   */
  datatype Scripting = Scripting(
    engine: string -> Option<Value>,
    quoteColumn: string -> string,
    rowJson: Record -> string)

  /** Only a SqlLiteral contributes SQL text rather than a bound value. */
  predicate ProducesSql(d: ValueDefinition) {
    d.SqlLiteral?
  }

  /** toJsonElement: literals become primitives, the other two a one-entry object. */
  function ToJsonElement(d: ValueDefinition): (j: Json)
    ensures j.JObject? <==> (d.SqlLiteral? || d.FunctionReference?)
    ensures j.JObject? ==> |j.fields| == 1
    ensures !j.JObject? ==> !j.JNull? && !j.JArray?
  {
    match d
    case StringLiteral(s) => JString(s)
    case BooleanLiteral(b) => JBool(b)
    case NumberLiteral(n) => JNumber(n)
    case SqlLiteral(s) => JObject(map["sql" := JString(s)])
    case FunctionReference(name) => JObject(map["function" := JString(name)])
  }

  /** The script text FunctionReference.eval hands to the engine: `name(column, row)`. */
  function CallText(functionName: string, column: string, rec: Record, sc: Scripting): (call: string)
    ensures |call| == |functionName| + |sc.quoteColumn(column)| + |sc.rowJson(rec)| + 4
    ensures call[..|functionName|] == functionName && call[|functionName|] == '('
    ensures call[|call| - 1] == ')'
  {
    functionName + "(" + sc.quoteColumn(column) + ", " + sc.rowJson(rec) + ")"
  }

  /** eval: literals yield their stored value; a function reference asks the script engine. */
  function Eval(d: ValueDefinition, column: string, rec: Record, sc: Scripting): (r: Result<Value>)
    ensures !d.FunctionReference? ==> r.Ok?
    ensures r.Err? ==> r.error == RuntimeError("Error calling " + CallText(d.functionName, column, rec, sc))
  {
    match d
    case StringLiteral(s) => Ok(Str(s))
    case BooleanLiteral(b) => Ok(Bool(b))
    case NumberLiteral(n) => Ok(Num(n))
    case SqlLiteral(s) => Ok(Str(s))
    case FunctionReference(name) =>
      var call := CallText(name, column, rec, sc);
      match sc.engine(call)
      case Some(v) => Ok(v)
      case None => Err(RuntimeError("Error calling " + call))
  }

  /** A literal's value does not depend on the column, the record or the engine. */
  lemma LiteralEvalIgnoresContext(d: ValueDefinition, c1: string, r1: Record, s1: Scripting,
                                  c2: string, r2: Record, s2: Scripting)
    requires !d.FunctionReference?
    ensures Eval(d, c1, r1, s1) == Eval(d, c2, r2, s2)
  {
  }

  /** A function reference yields exactly what the engine yields for its call text, or fails naming it. */
  lemma FunctionEvalIsEngineCall(name: string, column: string, rec: Record, sc: Scripting)
    ensures var call := CallText(name, column, rec, sc);
      match sc.engine(call)
      case Some(v) => Eval(FunctionReference(name), column, rec, sc) == Ok(v)
      case None => Eval(FunctionReference(name), column, rec, sc) == Err(RuntimeError("Error calling " + call))
  {
  }
}
