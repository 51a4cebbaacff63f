/**
 * ValueDefinitionAdapter: the Gson (de)serializer for value definitions. A primitive becomes the
 * matching literal; an object is a function reference if it has a "function" key, otherwise a
 * SQL literal if it has an "sql" key.
 */
module ValueDefinitionAdapter {
  import opened Wrappers
  import opened JavaLang
  import opened ValueDefinitions

  /**
   * JsonElement.getAsString: a primitive's text, the single element of a one-element array;
   * JsonNull and JsonObject refuse, as does an array of any other size.
   */
  function AsString(j: Json): (r: Result<string>)
    ensures j.JString? ==> r == Ok(j.str)
    ensures (j.JNull? || j.JObject?) ==> r.Err? && r.error.UnsupportedOperation?
  {
    match j
    case JString(s) => Ok(s)
    case JNumber(n) => Ok(IntToString(n))
    case JBool(b) => Ok(if b then "true" else "false")
    case JNull => Err(UnsupportedOperation("JsonNull"))
    case JObject(_) => Err(UnsupportedOperation("JsonObject"))
    case JArray(elements) =>
      if |elements| == 1 then AsString(elements[0]) else Err(IllegalState("Array must have size 1"))
  }

  /** `definition.get(key) != null`: the key is present, whatever its value. */
  predicate Has(fields: map<string, Json>, key: string) { key in fields }

  /** deserialize: the case analysis on the element kind and on the object's keys. */
  function Deserialize(j: Json): (r: Result<ValueDefinition>)
    ensures (j.JString? || j.JBool? || j.JNumber?) ==> r.Ok? && ToJsonElement(r.value) == j
    ensures (j.JNull? || j.JArray?) ==> r == Err(IllegalState("Not a JSON Object"))
    ensures r.Ok? && r.value.FunctionReference? ==> j.JObject? && Has(j.fields, "function")
    ensures r.Ok? && r.value.SqlLiteral? ==> j.JObject? && !Has(j.fields, "function") && Has(j.fields, "sql")
    ensures j.JObject? && Has(j.fields, "function") ==>
      (r.Ok? <==> AsString(j.fields["function"]).Ok?) &&
      (r.Ok? ==> r.value == FunctionReference(AsString(j.fields["function"]).value)) &&
      (r.Err? ==> r.error == AsString(j.fields["function"]).error)
    ensures j.JObject? && !Has(j.fields, "function") && Has(j.fields, "sql") ==>
      (r.Ok? <==> AsString(j.fields["sql"]).Ok?) &&
      (r.Ok? ==> r.value == SqlLiteral(AsString(j.fields["sql"]).value)) &&
      (r.Err? ==> r.error == AsString(j.fields["sql"]).error)
  {
    match j
    case JString(s) => Ok(StringLiteral(s))
    case JBool(b) => Ok(BooleanLiteral(b))
    case JNumber(n) => Ok(NumberLiteral(n))
    case JObject(fields) =>
      if Has(fields, "function") then
        var name :- AsString(fields["function"]);
        Ok(FunctionReference(name))
      else if Has(fields, "sql") then
        var sql :- AsString(fields["sql"]);
        Ok(SqlLiteral(sql))
      else
        Err(JsonParse("Unsupported value definition"))
    case _ => Err(IllegalState("Not a JSON Object"))
  }

  /** serialize is toJsonElement, and deserializing its output gives back the same definition. */
  function Serialize(d: ValueDefinition): (j: Json)
    ensures Deserialize(j) == Ok(d)
  {
    ToJsonElement(d)
  }

  /** An object carrying both keys is read as a function reference: "function" is checked first. */
  lemma FunctionKeyWins(fields: map<string, Json>, name: string)
    requires Has(fields, "function") && Has(fields, "sql")
    requires AsString(fields["function"]) == Ok(name)
    ensures Deserialize(JObject(fields)) == Ok(FunctionReference(name))
  {
  }

  /** Any object with a readable "function" key is a function reference, whatever else it holds. */
  lemma FunctionKeyAlone(fields: map<string, Json>, name: string)
    requires Has(fields, "function") && AsString(fields["function"]) == Ok(name)
    ensures Deserialize(JObject(fields)) == Ok(FunctionReference(name))
  {
  }

  /** A "function" value that getAsString refuses makes deserialize fail with that error. */
  lemma FunctionKeyUnreadable(fields: map<string, Json>)
    requires Has(fields, "function") && AsString(fields["function"]).Err?
    ensures Deserialize(JObject(fields)) == Err(AsString(fields["function"]).error)
  {
  }

  /** An object with "sql" and no "function" is a SQL literal with that text. */
  lemma SqlKeyAlone(fields: map<string, Json>, sql: string)
    requires !Has(fields, "function") && Has(fields, "sql")
    requires AsString(fields["sql"]) == Ok(sql)
    ensures Deserialize(JObject(fields)) == Ok(SqlLiteral(sql))
  {
  }

  /** An object with neither key is rejected with a JsonParseException. */
  lemma NeitherKeyRejected(fields: map<string, Json>)
    requires !Has(fields, "function") && !Has(fields, "sql")
    ensures Deserialize(JObject(fields)).Err?
    ensures Deserialize(JObject(fields)).error.JsonParse?
  {
  }
}
