# csv2db core, modelled in Dafny

csv2db imports CSV files into a database table. A reader thread reads CSV lines and hands
them to a mediator. Worker threads take them, turn each line into a record (a map from target
column name to value) and hand the record to a record handler. Which handler a worker gets
depends on the operation mode:

- INSERT batches one INSERT per record;
- MERGE looks each record up by primary key, inserts missing rows and updates changed ones;
- INSERTONLY inserts missing rows and leaves present rows alone.

With `ignoreDuplicatePK`, records are spread over the workers by the hash of their
primary-key fingerprint and rerouted through per-worker router queues. End of input is then
detected by counting terminal tokens. Column values come from the CSV line, from configured
insert/update values, or from transforms. These are value definitions: string, boolean or
number literals, SQL literals, or calls of script functions.

The model has one module per Java file of the core, plus small support modules:

- `Wrappers`: Option/Result.
- `JavaLang`: 32-bit `String.hashCode`, the truncating `%` and `Math.abs`, `String.compareTo`
  and `String.valueOf(int)`.
- `Records`: the values and records.
- `Text`: `StringUtils.join` and counting `?` placeholders.
- `Jdbc`: prepared statements as values.
- `Sorting`: `Collections.sort`.

Code that changes state step by step is modelled as classes with `modifies` frames and loops
with invariants:

- the mediator;
- the handlers;
- the `Configuration` setters;
- the importer's reader and worker loops.

Each such method is proved against a pure function (`TakeSpec`, `InsertStep`, `MergeSpec`,
`HandleSpec`, `ReaderCalls`, …). The properties are lemmas about those functions. The value
definitions and the JSON adapter are pure datatypes and functions.

## Model

| member | source | states |
|---|---|---|
| JavaLang.Wrap32 | src/main/java/com/anjlab/csv2db/InsertRecordHandler.java:108 | the result is a 32-bit int congruent to the input modulo 2^32, and equal to it when it already fits |
| JavaLang.StringHashCode | src/main/java/com/anjlab/csv2db/InsertRecordHandler.java:108 | `String.hashCode` stays within the 32-bit int range |
| JavaLang.JavaRem | src/main/java/com/anjlab/csv2db/InsertRecordHandler.java:108 | Java's `%` with a positive divisor: strictly between -b and b, the Euclidean remainder for a >= 0, and the sign of `a` otherwise |
| JavaLang.JavaAbs | src/main/java/com/anjlab/csv2db/InsertRecordHandler.java:108 | `Math.abs(int)`: the absolute value, except that Integer.MIN_VALUE maps to itself |
| JavaLang.Partition | src/main/java/com/anjlab/csv2db/AbstractInsertUpdateRecordHandler.java:269 | `Math.abs(keys.hashCode() % threadCount)` always lies in [0, threadCount) and equals abs(hash) mod threadCount |
| JavaLang.StrLessIrreflexive | src/main/java/com/anjlab/csv2db/AbstractRecordHandler.java:125 | no string compares below itself |
| JavaLang.StrLessTransitive | src/main/java/com/anjlab/csv2db/AbstractRecordHandler.java:125 | string comparison is transitive |
| JavaLang.StrLessTotal | src/main/java/com/anjlab/csv2db/AbstractRecordHandler.java:125 | of two different strings one compares below the other |
| JavaLang.StrLessIsStrictTotalOrder | src/main/java/com/anjlab/csv2db/AbstractRecordHandler.java:160 | `compareTo(...) < 0` is a strict total order, which is what sorting the column names needs |
| JavaLang.IntLessIsStrictTotalOrder | src/main/java/com/anjlab/csv2db/AbstractRecordHandler.java:107 | integer `<` is a strict total order, which is what sorting the CSV indices needs |
| JavaLang.IntToString | src/main/java/com/anjlab/csv2db/SharedBlockingQueueMediator.java:262 | `String.valueOf(int)` is non-empty and starts with '-' exactly for negatives |
| Records.Get | src/main/java/com/anjlab/csv2db/AbstractRecordHandler.java:212 | `nameValues.get(column)`: the stored value, or null when the column is absent |
| Text.Join | src/main/java/com/anjlab/csv2db/AbstractInsertUpdateRecordHandler.java:67 | `StringUtils.join` of no parts is empty and of one part is that part |
| Text.Occurrences | src/main/java/com/anjlab/csv2db/AbstractInsertUpdateRecordHandler.java:106 | the number of `?` placeholders in a SQL text never exceeds its length |
| Text.OccurrencesAppend | src/main/java/com/anjlab/csv2db/AbstractInsertUpdateRecordHandler.java:65-78 | placeholders of a concatenation are the sum of both parts' placeholders |
| Text.JoinOccurrences | src/main/java/com/anjlab/csv2db/AbstractInsertUpdateRecordHandler.java:67 | joining with a separator free of `ch` adds no occurrence of `ch` |
| Text.OccurrencesAbsent | src/main/java/com/anjlab/csv2db/AbstractInsertUpdateRecordHandler.java:106 | a text without `ch` has no occurrence of it |
| Text.JoinStep | src/main/java/com/anjlab/csv2db/AbstractInsertUpdateRecordHandler.java:99-107 | joining one part more appends the separator and the part, except for the first part |
| Jdbc.Lookup | src/main/java/com/anjlab/csv2db/MergeRecordHandler.java:131-135 | a SELECT by key finds a row exactly when the key is in the table and holds no null, and then finds that row |
| Jdbc.Prepare | src/main/java/com/anjlab/csv2db/InsertRecordHandler.java:84 | a freshly prepared statement has its text, nothing submitted, and is open |
| Jdbc.AddBatch | src/main/java/com/anjlab/csv2db/InsertRecordHandler.java:162 | `addBatch` appends the bound parameters to what the statement was asked to run |
| Jdbc.ExecuteBatch | src/main/java/com/anjlab/csv2db/InsertRecordHandler.java:194 | `executeBatch` empties the pending batch without losing or reordering anything submitted |
| Jdbc.ExecuteQuery | src/main/java/com/anjlab/csv2db/MergeRecordHandler.java:131 | `executeQuery` logs the bound parameters and leaves the batch and text alone |
| Jdbc.Close | src/main/java/com/anjlab/csv2db/AbstractRecordHandler.java:62-72 | closing a statement keeps its history and marks it closed |
| ValueDefinitions.ToJsonElement | src/main/java/com/anjlab/csv2db/FunctionReference.java:42-47 | literals become JSON primitives; SQL literals and function references become one-entry objects |
| ValueDefinitions.CallText | src/main/java/com/anjlab/csv2db/FunctionReference.java:28-30 | the call starts with the function name and "(", ends with ")", and is just long enough to also hold the quoted column, ", " and the row's JSON |
| ValueDefinitions.Eval | src/main/java/com/anjlab/csv2db/FunctionReference.java:26-39 | literals always evaluate; a failing script call fails with "Error calling " followed by the call text |
| ValueDefinitions.LiteralEvalIgnoresContext | src/main/java/com/anjlab/csv2db/StringLiteral.java:20-23 | a literal's (string, boolean, number or SQL) value is independent of column, record and engine |
| ValueDefinitions.FunctionEvalIsEngineCall | src/main/java/com/anjlab/csv2db/FunctionReference.java:31-38 | a function reference yields exactly the engine's result for its call text, or the RuntimeException naming it |
| ValueDefinitionAdapter.AsString | src/main/java/com/anjlab/csv2db/ValueDefinitionAdapter.java:46 | `getAsString` gives a string primitive's text, and refuses JSON null and objects |
| ValueDefinitionAdapter.Deserialize | src/main/java/com/anjlab/csv2db/ValueDefinitionAdapter.java:19-56 | a primitive becomes a literal that serializes back to that primitive; null and arrays are "Not a JSON Object"; an object with a "function" key is a function reference named by its string value, or fails with getAsString's error; one with "sql" and no "function" is a SQL literal, or fails likewise; these are the only ways to get either |
| ValueDefinitionAdapter.Serialize | src/main/java/com/anjlab/csv2db/ValueDefinitionAdapter.java:59-63 | deserializing the serialized form gives back the same definition, for all five kinds |
| ValueDefinitionAdapter.FunctionKeyWins | src/main/java/com/anjlab/csv2db/ValueDefinitionAdapter.java:44-47 | an object with both keys is a function reference |
| ValueDefinitionAdapter.FunctionKeyAlone | src/main/java/com/anjlab/csv2db/ValueDefinitionAdapter.java:44-47 | any object with a readable "function" key is that function reference, whatever other keys it holds |
| ValueDefinitionAdapter.FunctionKeyUnreadable | src/main/java/com/anjlab/csv2db/ValueDefinitionAdapter.java:46 | a "function" value getAsString refuses makes deserialize fail with that same error |
| ValueDefinitionAdapter.SqlKeyAlone | src/main/java/com/anjlab/csv2db/ValueDefinitionAdapter.java:49-52 | an object with "sql" and no "function" is a SQL literal with that text |
| ValueDefinitionAdapter.NeitherKeyRejected | src/main/java/com/anjlab/csv2db/ValueDefinitionAdapter.java:54 | an object with neither key is a JsonParseException |
| Config.NormalizedBatchSize | src/main/java/com/anjlab/csv2db/Configuration.java:276-279 | the batch size is at least 1: the stored value when positive, 1 otherwise |
| Config.NormalizedBatchSizeIdempotent | src/main/java/com/anjlab/csv2db/Configuration.java:278 | normalising twice is normalising once, and never lowers the value |
| Config.BatchSize | src/main/java/com/anjlab/csv2db/Configuration.java:276-279 | a settings value's batch size is its normalised stored size |
| Config.WithDefaultCsvOptions | src/main/java/com/anjlab/csv2db/Configuration.java:126-129 | missing CSV options become the defaults, present ones stay, and nothing else changes |
| Config.WithDefaultCsvOptionsIdempotent | src/main/java/com/anjlab/csv2db/Configuration.java:126-129 | defaulting twice is defaulting once |
| Config.DefaultBatchSize | src/main/java/com/anjlab/csv2db/Configuration.java:20 | a fresh configuration batches 100 statements |
| Config.Configuration.constructor | src/main/java/com/anjlab/csv2db/Configuration.java:113 | a new configuration holds the defaults: nothing set, batch size 100 |
| Config.Configuration.FromSettings | src/main/java/com/anjlab/csv2db/Configuration.java:124 | the object holds exactly the parsed settings |
| Config.Configuration.FromJson | src/main/java/com/anjlab/csv2db/Configuration.java:122-132 | the result holds the parsed settings with CSV options defaulted |
| Config.Configuration.GetBatchSize | src/main/java/com/anjlab/csv2db/Configuration.java:276-279 | at least 1, and the stored value when positive |
| Config.Configuration.SetDriverClass | src/main/java/com/anjlab/csv2db/Configuration.java:151-154 | only the driver class changes, to the value given |
| Config.Configuration.SetConnectionUrl | src/main/java/com/anjlab/csv2db/Configuration.java:161-164 | only the connection URL changes |
| Config.Configuration.SetColumnMappings | src/main/java/com/anjlab/csv2db/Configuration.java:171-174 | only the column mappings change |
| Config.Configuration.SetTransientColumns | src/main/java/com/anjlab/csv2db/Configuration.java:181-184 | only the transient columns change |
| Config.Configuration.SetCsvOptions | src/main/java/com/anjlab/csv2db/Configuration.java:191-194 | only the CSV options change |
| Config.Configuration.SetPrimaryKeys | src/main/java/com/anjlab/csv2db/Configuration.java:201-204 | only the primary keys change |
| Config.Configuration.SetConnectionProperties | src/main/java/com/anjlab/csv2db/Configuration.java:211-214 | only the connection properties change |
| Config.Configuration.SetTargetTable | src/main/java/com/anjlab/csv2db/Configuration.java:221-224 | only the target table changes |
| Config.Configuration.SetOperationMode | src/main/java/com/anjlab/csv2db/Configuration.java:231-234 | only the operation mode changes |
| Config.Configuration.SetInsertValues | src/main/java/com/anjlab/csv2db/Configuration.java:241-244 | only the insert values change |
| Config.Configuration.SetUpdateValues | src/main/java/com/anjlab/csv2db/Configuration.java:251-254 | only the update values change |
| Config.Configuration.SetTransform | src/main/java/com/anjlab/csv2db/Configuration.java:261-264 | only the transforms change |
| Config.Configuration.SetScripting | src/main/java/com/anjlab/csv2db/Configuration.java:271-274 | only the scripting list changes |
| Config.Configuration.SetBatchSize | src/main/java/com/anjlab/csv2db/Configuration.java:281-284 | only the stored batch size changes; `getBatchSize` then returns it normalised |
| Config.Configuration.SetForceUpdate | src/main/java/com/anjlab/csv2db/Configuration.java:291-294 | only the force-update flag changes |
| Sorting.InsertSorted | src/main/java/com/anjlab/csv2db/AbstractRecordHandler.java:125 | inserting into a sorted list keeps it sorted and adds exactly that element |
| Sorting.HeadBelowRest | src/main/java/com/anjlab/csv2db/AbstractRecordHandler.java:125 | when x sorts after the head of a sorted list, nothing in the tail with x added sorts below that head |
| Sorting.Sort | src/main/java/com/anjlab/csv2db/AbstractRecordHandler.java:123-125 | `Collections.sort` of a list with duplicates: sorted and a permutation of the input |
| Sorting.MinimumExists | src/main/java/com/anjlab/csv2db/AbstractRecordHandler.java:107 | a non-empty set has a least element under a strict total order |
| Sorting.MinimumUnique | src/main/java/com/anjlab/csv2db/AbstractRecordHandler.java:107 | that least element is unique |
| Sorting.SortedSet | src/main/java/com/anjlab/csv2db/AbstractRecordHandler.java:105-107 | the sorted key set is strictly ascending and holds exactly the set's elements |
| Sorting.SortedSetHead | src/main/java/com/anjlab/csv2db/AbstractRecordHandler.java:107 | the sorted set is its minimum followed by the rest sorted |
| Sorting.SelectMinimum | src/main/java/com/anjlab/csv2db/AbstractRecordHandler.java:107 | taking the minimum of the remaining set extends the sorted prefix |
| Sorting.SortSet | src/main/java/com/anjlab/csv2db/AbstractRecordHandler.java:158-160 | sorting a copied key set yields the ascending list of its elements |
| RecordHandling.Filter | src/main/java/com/anjlab/csv2db/AbstractRecordHandler.java:115-118 | exactly the names that are not excluded remain |
| RecordHandling.FilterKeepsSorted | src/main/java/com/anjlab/csv2db/AbstractRecordHandler.java:127-135 | dropping transient names from a sorted list keeps it sorted |
| RecordHandling.MappedNames | src/main/java/com/anjlab/csv2db/AbstractRecordHandler.java:111-113 | the i-th name is the mapping of the i-th CSV index |
| RecordHandling.SortedIndices | src/main/java/com/anjlab/csv2db/AbstractRecordHandler.java:105-107 | the CSV indices strictly ascending, all of them and nothing else |
| RecordHandling.SortedSyntheticColumns | src/main/java/com/anjlab/csv2db/AbstractRecordHandler.java:121-125 | the synthetic names sorted and a permutation of the configured list; none when absent |
| RecordHandling.SortedColumnNames | src/main/java/com/anjlab/csv2db/AbstractRecordHandler.java:153-162 | no names when the values map is absent, otherwise exactly its keys in strict ascending order |
| RecordHandling.Transform | src/main/java/com/anjlab/csv2db/AbstractRecordHandler.java:184-213 | a SQL transform is a ConfigurationException with the source's message; any other transform is evaluated; no transform gives the record's value or null |
| RecordHandling.TransformNeverYieldsSql | src/main/java/com/anjlab/csv2db/AbstractRecordHandler.java:193-198 | a SQL-producing transform always fails with a configuration error |
| RecordHandling.Collect | src/main/java/com/anjlab/csv2db/AbstractRecordHandler.java:148-158 | a successful collection binds one value per evaluation |
| RecordHandling.CollectPointwise | src/main/java/com/anjlab/csv2db/InsertRecordHandler.java:148-158 | each bound value is its evaluation's; binding fails exactly when some evaluation fails, with the first failure's error |
| RecordHandling.CollectPrefixFailure | src/main/java/com/anjlab/csv2db/InsertRecordHandler.java:148-158 | a failure among the first k evaluations is the failure of the whole loop |
| RecordHandling.CollectAppend | src/main/java/com/anjlab/csv2db/InsertRecordHandler.java:131-158 | two binding loops in turn: the first one's failure wins, then the second's, else the values concatenate |
| RecordHandling.Transforms | src/main/java/com/anjlab/csv2db/InsertRecordHandler.java:148-150 | one transform per column, in column order |
| RecordHandling.TransformParamsPointwise | src/main/java/com/anjlab/csv2db/InsertRecordHandler.java:148-158 | the bound values are the columns' transforms in order; binding fails exactly when one fails, with the first failure |
| RecordHandling.BindTransforms | src/main/java/com/anjlab/csv2db/InsertRecordHandler.java:148-158 | the binding loop yields the transformed values, or the first failure |
| RecordHandling.CollectEach | src/main/java/com/anjlab/csv2db/AbstractInsertUpdateRecordHandler.java:232-242 | the loop over the names yields each name's evaluation, or the first failure |
| RecordHandling.OrderedColumnsNotTransient | src/main/java/com/anjlab/csv2db/AbstractRecordHandler.java:115-134 | no transient column is ever in the ordered column list |
| RecordHandling.OrderedColumnsMembership | src/main/java/com/anjlab/csv2db/AbstractRecordHandler.java:98-139 | a column is listed exactly when it is mapped or synthetic and not transient |
| RecordHandling.MappedNamesMembership | src/main/java/com/anjlab/csv2db/AbstractRecordHandler.java:105-119 | every mapped name appears, and only mapped names |
| RecordHandling.OrderedColumnsShape | src/main/java/com/anjlab/csv2db/AbstractRecordHandler.java:105-136 | the list is the mapped names by ascending CSV index, then the synthetic names sorted, transient ones dropped |
| RecordHandling.TableText | src/main/java/com/anjlab/csv2db/InsertRecordHandler.java:38 | appending the table name writes the name, or "null" when it is unset |
| RecordHandling.RecordPartition | src/main/java/com/anjlab/csv2db/InsertRecordHandler.java:106-108 | a record's partition is in [0, threadCount) and is abs(hash of its key fingerprint) mod threadCount |
| RecordHandling.HandlerBase.constructor | src/main/java/com/anjlab/csv2db/AbstractRecordHandler.java:41-60 | the setup is stored, nothing is memoised yet, batching is on and the connection open |
| RecordHandling.HandlerBase.GetOrderedTableColumnNames | src/main/java/com/anjlab/csv2db/AbstractRecordHandler.java:98-139 | the list is the one the configuration determines, remembered for later calls; nothing else changes |
| RecordHandling.HandlerBase.GetColumnNamesWithInsertValues | src/main/java/com/anjlab/csv2db/AbstractRecordHandler.java:146-163 | the sorted insert-value columns, remembered; nothing else changes |
| RecordHandling.HandlerBase.GetColumnNamesWithUpdateValues | src/main/java/com/anjlab/csv2db/AbstractRecordHandler.java:165-182 | the sorted update-value columns, remembered; nothing else changes |
| RecordHandling.HandlerBase.EnableBatchExecution | src/main/java/com/anjlab/csv2db/AbstractRecordHandler.java:255-258 | only clears the batch-disabled flag |
| RecordHandling.HandlerBase.DisableBatchExecution | src/main/java/com/anjlab/csv2db/AbstractRecordHandler.java:260-263 | only sets the batch-disabled flag |
| RecordHandling.HandlerBase.Close | src/main/java/com/anjlab/csv2db/AbstractRecordHandler.java:229-233 | closes the connection and changes nothing else |
| RecordHandling.FilterColumns | src/main/java/com/anjlab/csv2db/AbstractRecordHandler.java:111-119 | the loop keeps the non-transient names in order |
| RecordHandling.SortedKeys | src/main/java/com/anjlab/csv2db/AbstractRecordHandler.java:153-162 | the loop yields the value map's keys sorted, or nothing when the map is absent |
| Mediation.ProducerDoneLine | src/main/java/com/anjlab/csv2db/SharedBlockingQueueMediator.java:131 | the producer's one-column line is terminal |
| Mediation.ConsumerDoneLine | src/main/java/com/anjlab/csv2db/SharedBlockingQueueMediator.java:262 | the consumer's two-column line is terminal too |
| Mediation.PopRouter | src/main/java/com/anjlab/csv2db/SharedBlockingQueueMediator.java:146-150 | taking from a router queue removes its head and counts it if it is the token |
| Mediation.ServeRouter | src/main/java/com/anjlab/csv2db/SharedBlockingQueueMediator.java:144-156 | the drain loop touches only the own router queue and counter, counts exactly the tokens it removes, and either returns a record that was queued or leaves the queue empty |
| Mediation.TerminalPhase | src/main/java/com/anjlab/csv2db/SharedBlockingQueueMediator.java:219-237 | the terminal-phase loop reads only the own router queue, counts the tokens it removes, and returns the empty line only once the counter reaches the thread count |
| Mediation.TerminalLineTaken | src/main/java/com/anjlab/csv2db/SharedBlockingQueueMediator.java:172-195 | after a terminal line the call blocks exactly when routing is on and some other router queue is full |
| Mediation.EnterTerminalPhase | src/main/java/com/anjlab/csv2db/SharedBlockingQueueMediator.java:178-189 | the own counter rises by one and every other router queue gets one token |
| Mediation.SharedTake | src/main/java/com/anjlab/csv2db/SharedBlockingQueueMediator.java:158-170 | the shared take blocks exactly on an empty queue, or on a terminal line whose broadcast would block |
| Mediation.TakeSpec | src/main/java/com/anjlab/csv2db/SharedBlockingQueueMediator.java:137-196 | a take that does not block keeps the mediator well formed |
| Mediation.SharedBlockingQueueMediator.constructor | src/main/java/com/anjlab/csv2db/SharedBlockingQueueMediator.java:31-108 | capacity is batchSize × threads; router queues exist, empty, only with ignoreDuplicatePK; all counters are 0 |
| Mediation.SharedBlockingQueueMediator.Dispatch | src/main/java/com/anjlab/csv2db/SharedBlockingQueueMediator.java:110-121 | the line is appended to the shared queue; nothing else changes |
| Mediation.SharedBlockingQueueMediator.ProducerDone | src/main/java/com/anjlab/csv2db/SharedBlockingQueueMediator.java:123-134 | the terminal line is appended to the shared queue |
| Mediation.SharedBlockingQueueMediator.ConsumerDone | src/main/java/com/anjlab/csv2db/SharedBlockingQueueMediator.java:254-265 | the two-column terminal line is appended to the shared queue |
| Mediation.SharedBlockingQueueMediator.Route | src/main/java/com/anjlab/csv2db/SharedBlockingQueueMediator.java:267-283 | the item is appended to that partition's router queue only |
| Mediation.SharedBlockingQueueMediator.CountTerminal | src/main/java/com/anjlab/csv2db/SharedBlockingQueueMediator.java:178 | only the partition's counter rises by one |
| Mediation.SharedBlockingQueueMediator.TakeFromRouter | src/main/java/com/anjlab/csv2db/SharedBlockingQueueMediator.java:203-217 | returns the head of the own router queue, as `PopRouter` says |
| Mediation.SharedBlockingQueueMediator.TerminalPhaseTake | src/main/java/com/anjlab/csv2db/SharedBlockingQueueMediator.java:219-237 | the loop does what `TerminalPhase` says |
| Mediation.SharedBlockingQueueMediator.DrainRouter | src/main/java/com/anjlab/csv2db/SharedBlockingQueueMediator.java:144-156 | the loop does what `ServeRouter` says |
| Mediation.SharedBlockingQueueMediator.BroadcastToken | src/main/java/com/anjlab/csv2db/SharedBlockingQueueMediator.java:183-189 | every router queue but the own one gets a token; nothing else changes |
| Mediation.SharedBlockingQueueMediator.AfterTerminalLine | src/main/java/com/anjlab/csv2db/SharedBlockingQueueMediator.java:172-195 | does what `TerminalLineTaken` says |
| Mediation.SharedBlockingQueueMediator.TakeShared | src/main/java/com/anjlab/csv2db/SharedBlockingQueueMediator.java:158-170 | does what `SharedTake` says |
| Mediation.SharedBlockingQueueMediator.Take | src/main/java/com/anjlab/csv2db/SharedBlockingQueueMediator.java:136-196 | returns and leaves exactly what `TakeSpec` says |
| MediationProperties.CountTerminalAppend | src/main/java/com/anjlab/csv2db/SharedBlockingQueueMediator.java:118 | the terminal lines of a concatenation add up |
| MediationProperties.NonTerminalLineTaken | src/main/java/com/anjlab/csv2db/SharedBlockingQueueMediator.java:158-170 | a non-terminal line at the head of the shared queue is returned unchanged and removed, in FIFO order |
| MediationProperties.TakePreservesTerminalCount | src/main/java/com/anjlab/csv2db/SharedBlockingQueueMediator.java:167-174 | a take never changes how many terminal lines the shared queue holds |
| MediationProperties.TerminalLineBroadcast | src/main/java/com/anjlab/csv2db/SharedBlockingQueueMediator.java:174-191 | with routing, dequeuing the terminal line re-queues it, counts the partition once, puts one token on every other router queue and none on its own |
| MediationProperties.RouterServedFirst | src/main/java/com/anjlab/csv2db/SharedBlockingQueueMediator.java:139-156 | outside the terminal phase the first queued record is handed out before anything else; the tokens before it are counted, not returned |
| MediationProperties.ServeRouterSkipsTokens | src/main/java/com/anjlab/csv2db/SharedBlockingQueueMediator.java:144-156 | the drain loop counts the tokens in front of the first record and returns that record |
| MediationProperties.RecordsComeFromRouter | src/main/java/com/anjlab/csv2db/SharedBlockingQueueMediator.java:148-154 | a record returned by take was queued on the own router queue; a token never is returned |
| MediationProperties.TerminalPhaseReadsOnlyOwnQueue | src/main/java/com/anjlab/csv2db/SharedBlockingQueueMediator.java:139-142 | in the terminal phase take leaves the shared queue and the other partitions alone, and returns the marker only at a full count |
| MediationProperties.CountersMonotone | src/main/java/com/anjlab/csv2db/SharedBlockingQueueMediator.java:150 | counters never decrease, and take(p) changes no counter but p's |
| MediationProperties.MarkerIsFinal | src/main/java/com/anjlab/csv2db/SharedBlockingQueueMediator.java:221-236 | with routing, once take(p) returned the marker, every later take(p) returns it again and changes nothing |
| MediationProperties.MarkerRepeats | src/main/java/com/anjlab/csv2db/SharedBlockingQueueMediator.java:221 | a partition whose counter reached the thread count gets the marker without dequeuing |
| MediationProperties.RoutingOffTerminal | src/main/java/com/anjlab/csv2db/SharedBlockingQueueMediator.java:174-195 | without routing a terminal line is re-queued and the empty line returned at once |
| MediationProperties.TerminalPhaseEndsWithEnoughTokens | src/main/java/com/anjlab/csv2db/SharedBlockingQueueMediator.java:221-236 | given enough tokens at the head of the own queue, the terminal-phase loop ends with the marker |
| MediationProperties.TakeEndsWithEnoughTokens | src/main/java/com/anjlab/csv2db/SharedBlockingQueueMediator.java:139-142 | the same for a whole take in the terminal phase |
| Importing.DispatchCount | src/main/java/com/anjlab/csv2db/Importer.java:182-191 | with limit > 0, min(lines, limit) lines are dispatched; with limit <= 0, all of them |
| Importing.Dispatches | src/main/java/com/anjlab/csv2db/Importer.java:172-175 | one dispatch per line, in input order |
| Importing.ReaderCalls | src/main/java/com/anjlab/csv2db/Importer.java:171-193 | the dispatched lines in order, then exactly one producerDone, last |
| Importing.ReadInput | src/main/java/com/anjlab/csv2db/Importer.java:155-203 | the reading loop makes exactly the calls `ReaderCalls` describes |
| Importing.BuildNameValues | src/main/java/com/anjlab/csv2db/Importer.java:336-344 | the loop builds the record of the line, or fails on an index outside it |
| Importing.NameValuesPrefixFailure | src/main/java/com/anjlab/csv2db/Importer.java:337-339 | a failing mapping ends building the record |
| Importing.NameValuesKeys | src/main/java/com/anjlab/csv2db/Importer.java:336-344 | the record's keys are exactly the mapped target names |
| Importing.NameValuesFailure | src/main/java/com/anjlab/csv2db/Importer.java:339 | building fails exactly when a mapped index lies outside the line |
| Importing.NameValuesColumns | src/main/java/com/anjlab/csv2db/Importer.java:339-343 | with distinct target names, each target name holds `columns[index]` |
| Importing.HandleNext | src/main/java/com/anjlab/csv2db/Importer.java:323-372 | an empty line or null stops the worker without handling; a rerouted map reaches the handler unchanged; at most one handler call per object, never a close |
| Importing.ReadLines | src/main/java/com/anjlab/csv2db/Importer.java:289-320 | the worker logs at most one event per object taken |
| Importing.HandleObject | src/main/java/com/anjlab/csv2db/Importer.java:323-372 | does what `HandleNext` says |
| Importing.Run | src/main/java/com/anjlab/csv2db/Importer.java:266-287 | the log is what the read loop logs, then one close |
| Importing.ReadAll | src/main/java/com/anjlab/csv2db/Importer.java:289-320 | the read loop logs what `ReadLines` says |
| Importing.Handler | src/main/java/com/anjlab/csv2db/Importer.java:323 | handling an object as a function of the object |
| Importing.ReadLinesIsReadWith | src/main/java/com/anjlab/csv2db/Importer.java:289-320 | the worker loop is the generic read loop over that handling |
| Importing.ReadAdvance | src/main/java/com/anjlab/csv2db/Importer.java:305-310 | one object taken: its events are logged and the loop goes on or stops |
| Importing.ReadDone | src/main/java/com/anjlab/csv2db/Importer.java:294-319 | all objects taken without a stop: the log is complete |
| Importing.ClosedOnceAtEnd | src/main/java/com/anjlab/csv2db/Importer.java:276-286 | the handler is closed exactly once, as the worker's last act, whatever happened |
| Importing.NoCloseWhileReading | src/main/java/com/anjlab/csv2db/Importer.java:289-320 | the read loop never closes the handler |
| Importing.NothingAfterEndMarker | src/main/java/com/anjlab/csv2db/Importer.java:331-334 | nothing taken after an end marker is handled |
| Importing.EveryLineHandledOnce | src/main/java/com/anjlab/csv2db/Importer.java:336-349 | without a map function or failures, every well-formed line reaches the handler exactly once, in order, as its record |
| Importing.StrategyFor | src/main/java/com/anjlab/csv2db/Importer.java:416-430 | the choice fails exactly when the mode is unset, as the switch on null does |
| Importing.StrategyServesMode | src/main/java/com/anjlab/csv2db/Importer.java:421-429 | INSERT gets the insert handler, INSERTONLY the insert-only handler, MERGE the merge handler, and nothing else |
| InsertHandling.ClausesAreJoins | src/main/java/com/anjlab/csv2db/InsertRecordHandler.java:43-73 | with non-empty slots, the column and VALUES lists are the names and slots joined by ", " |
| InsertHandling.JoinNonEmpty | src/main/java/com/anjlab/csv2db/InsertRecordHandler.java:45 | a join ending in a non-empty part is non-empty |
| InsertHandling.ClausesPlaceholders | src/main/java/com/anjlab/csv2db/InsertRecordHandler.java:41-73 | every '?' of the VALUES list comes from a slot |
| InsertHandling.InsertValueColumns | src/main/java/com/anjlab/csv2db/InsertRecordHandler.java:43 | every insert-value column has a definition |
| InsertHandling.SlotText | src/main/java/com/anjlab/csv2db/InsertRecordHandler.java:54-61 | a SQL definition is inlined, anything else is "?" |
| InsertHandling.Slots | src/main/java/com/anjlab/csv2db/InsertRecordHandler.java:43-73 | one VALUES slot per insert-value column and per ordered column |
| InsertHandling.SlotsPointwise | src/main/java/com/anjlab/csv2db/InsertRecordHandler.java:54-72 | each insert-value column gets its definition's slot and each ordered column "?" |
| InsertHandling.BuildInsertClauses | src/main/java/com/anjlab/csv2db/InsertRecordHandler.java:36-77 | the constructor's two loops build the lists for insert-value columns then ordered columns |
| InsertHandling.AppendInsertValues | src/main/java/com/anjlab/csv2db/InsertRecordHandler.java:43-62 | the first loop appends each insert-value column with its slot |
| InsertHandling.AppendOrdered | src/main/java/com/anjlab/csv2db/InsertRecordHandler.java:64-73 | the second loop appends each ordered column with "?" |
| InsertHandling.BuildClausesStep | src/main/java/com/anjlab/csv2db/InsertRecordHandler.java:45-50 | one column more appends it to both lists |
| InsertHandling.InsertValueParams | src/main/java/com/anjlab/csv2db/InsertRecordHandler.java:131-146 | a successful first loop binds one value per non-SQL insert value |
| InsertHandling.InsertValueParamsFailure | src/main/java/com/anjlab/csv2db/InsertRecordHandler.java:135-137 | the insert values fail exactly when some non-SQL definition fails to evaluate |
| InsertHandling.BindParameters | src/main/java/com/anjlab/csv2db/InsertRecordHandler.java:129-158 | the insert values, then the transformed ordered columns; the first failure ends it |
| InsertHandling.BindInsertValues | src/main/java/com/anjlab/csv2db/InsertRecordHandler.java:131-146 | the first loop yields the evaluated non-SQL insert values |
| InsertHandling.PrefixFailure | src/main/java/com/anjlab/csv2db/InsertRecordHandler.java:137 | a failing evaluation ends the loop |
| InsertHandling.InsertPlaceholdersMatchParameters | src/main/java/com/anjlab/csv2db/InsertRecordHandler.java:36-158 | the VALUES list holds exactly as many '?' as a record binds |
| InsertHandling.InsertParamsLength | src/main/java/com/anjlab/csv2db/InsertRecordHandler.java:129-158 | a record binds one value per non-SQL insert value and per ordered column |
| InsertHandling.SlotsPlaceholders | src/main/java/com/anjlab/csv2db/InsertRecordHandler.java:54-72 | the slots hold one '?' per non-SQL insert value and per ordered column |
| InsertHandling.TotalOccurrencesAppend | src/main/java/com/anjlab/csv2db/InsertRecordHandler.java:43-73 | placeholders of two slot lists add up |
| InsertHandling.PlaceholderRun | src/main/java/com/anjlab/csv2db/InsertRecordHandler.java:72 | n "?" slots hold n placeholders |
| InsertHandling.ValueSlotsPlaceholders | src/main/java/com/anjlab/csv2db/InsertRecordHandler.java:54-61 | the insert-value slots hold one '?' per non-SQL definition |
| InsertHandling.CheckBatch | src/main/java/com/anjlab/csv2db/InsertRecordHandler.java:175-204 | while disabled or below the limit nothing happens; otherwise the batch is executed, the count reset and the duplicate tracker emptied, losing nothing |
| InsertHandling.InsertStep | src/main/java/com/anjlab/csv2db/InsertRecordHandler.java:91-165 | a batched record adds exactly its parameters; a record of another partition is routed there and nothing is bound; a duplicate key changes nothing; errors are the binding's; an enabled batch stays below the batch size |
| InsertHandling.BatchRecord | src/main/java/com/anjlab/csv2db/InsertRecordHandler.java:129-164 | binding succeeds exactly when the parameters evaluate, and then adds them to the batch |
| InsertHandling.AllBindMeans | src/main/java/com/anjlab/csv2db/InsertRecordHandler.java:129-158 | every record binds exactly when each record's parameters evaluate |
| InsertHandling.Rows | src/main/java/com/anjlab/csv2db/InsertRecordHandler.java:162 | one parameter list per record |
| InsertHandling.RowsPointwise | src/main/java/com/anjlab/csv2db/InsertRecordHandler.java:162 | row i is record i's parameters |
| InsertHandling.InsertSubmitsEveryRecord | src/test/java/com/anjlab/csv2db/ImporterTest.java:109-122 | without duplicate handling every record adds its row, so re-importing submits every row again |
| InsertHandling.PlainInsertStep | src/main/java/com/anjlab/csv2db/InsertRecordHandler.java:129-164 | without duplicate handling a record that binds is batched |
| InsertHandling.SameKeySkippedUntilFlush | src/main/java/com/anjlab/csv2db/InsertRecordHandler.java:116-126 | a key already in the unflushed batch is dropped and changes nothing |
| InsertHandling.CloseLeavesNothingPending | src/main/java/com/anjlab/csv2db/InsertRecordHandler.java:207-212 | closing with batching enabled executes everything submitted |
| InsertHandling.InsertRecordHandler.constructor | src/main/java/com/anjlab/csv2db/InsertRecordHandler.java:25-89 | the INSERT for the configuration is prepared; nothing is batched or tracked |
| InsertHandling.InsertRecordHandler.HandleRecord | src/main/java/com/anjlab/csv2db/InsertRecordHandler.java:91-165 | returns and leaves exactly what `InsertStep` says |
| InsertHandling.InsertRecordHandler.Deduplicate | src/main/java/com/anjlab/csv2db/InsertRecordHandler.java:103-127 | routes, skips a duplicate, or remembers the key and leaves the record to be batched |
| InsertHandling.InsertRecordHandler.AddRecord | src/main/java/com/anjlab/csv2db/InsertRecordHandler.java:129-164 | does what `BatchRecord` says |
| InsertHandling.InsertRecordHandler.BindRecord | src/main/java/com/anjlab/csv2db/InsertRecordHandler.java:129-158 | the bound values are the record's INSERT parameters |
| InsertHandling.InsertRecordHandler.AppendRow | src/main/java/com/anjlab/csv2db/InsertRecordHandler.java:160-164 | counts and adds the row, then checks the batch with the batch size |
| InsertHandling.InsertRecordHandler.CheckBatchExecution | src/main/java/com/anjlab/csv2db/InsertRecordHandler.java:175-204 | does what `CheckBatch` says |
| InsertHandling.InsertRecordHandler.EnableBatchExecution | src/main/java/com/anjlab/csv2db/InsertRecordHandler.java:167-173 | clears the flag, then flushes a full batch |
| InsertHandling.InsertRecordHandler.Close | src/main/java/com/anjlab/csv2db/InsertRecordHandler.java:206-222 | flushes with limit 0, then closes the statement and the connection |
| InsertUpdateHandling.ModeName | src/main/java/com/anjlab/csv2db/AbstractInsertUpdateRecordHandler.java:44 | the mode's name in the error message is never empty |
| InsertUpdateHandling.KeyConditions | src/main/java/com/anjlab/csv2db/AbstractInsertUpdateRecordHandler.java:99-107 | one condition per primary-key column |
| InsertUpdateHandling.JoinKeyConditions | src/main/java/com/anjlab/csv2db/AbstractInsertUpdateRecordHandler.java:93-111 | the loop builds the escaped conditions joined by " AND " in key order |
| InsertUpdateHandling.WherePlaceholders | src/main/java/com/anjlab/csv2db/AbstractInsertUpdateRecordHandler.java:93-111 | the WHERE fragment holds one '?' per key column |
| InsertUpdateHandling.ConditionsPlaceholders | src/main/java/com/anjlab/csv2db/AbstractInsertUpdateRecordHandler.java:106 | the conditions hold one '?' each |
| InsertUpdateHandling.OrClausesPlaceholders | src/main/java/com/anjlab/csv2db/AbstractInsertUpdateRecordHandler.java:73-78 | k " OR (…)" copies hold k times the fragment's placeholders |
| InsertUpdateHandling.OrClauseStep | src/main/java/com/anjlab/csv2db/AbstractInsertUpdateRecordHandler.java:75-77 | one copy more adds the fragment's placeholders |
| InsertUpdateHandling.SelectPlaceholders | src/main/java/com/anjlab/csv2db/AbstractInsertUpdateRecordHandler.java:65-78 | the SELECT for n records holds n·|primaryKeys| placeholders |
| InsertUpdateHandling.HeadPlaceholders | src/main/java/com/anjlab/csv2db/AbstractInsertUpdateRecordHandler.java:65-70 | the SELECT head holds no placeholder |
| InsertUpdateHandling.RepeatedWherePlaceholders | src/main/java/com/anjlab/csv2db/AbstractInsertUpdateRecordHandler.java:71-78 | the fragment and its n - 1 copies hold n times its placeholders |
| InsertUpdateHandling.KeyBinder | src/main/java/com/anjlab/csv2db/AbstractInsertUpdateRecordHandler.java:232-242 | a buffered record binds every key column's transform |
| InsertUpdateHandling.SelectBindsEveryPlaceholder | src/main/java/com/anjlab/csv2db/AbstractInsertUpdateRecordHandler.java:223-243 | selectBatch binds exactly as many values as the SELECT has placeholders |
| InsertUpdateHandling.BindingsCount | src/main/java/com/anjlab/csv2db/AbstractInsertUpdateRecordHandler.java:229-243 | n values per record give n per buffered record |
| InsertUpdateHandling.SelectBindingCount | src/main/java/com/anjlab/csv2db/AbstractInsertUpdateRecordHandler.java:229-243 | one binding per key column and buffered record |
| InsertUpdateHandling.BindingsPrefix | src/main/java/com/anjlab/csv2db/AbstractInsertUpdateRecordHandler.java:229 | the bindings of a leading part of the buffer lead those of the whole buffer |
| InsertUpdateHandling.BindAdvance | src/main/java/com/anjlab/csv2db/AbstractInsertUpdateRecordHandler.java:229-243 | one buffered record either fails the binding or extends it |
| InsertUpdateHandling.BindSelect | src/main/java/com/anjlab/csv2db/AbstractInsertUpdateRecordHandler.java:227-243 | the binding loops yield the buffer's transformed keys, record by record |
| InsertUpdateHandling.ParsedRow | src/main/java/com/anjlab/csv2db/AbstractInsertUpdateRecordHandler.java:208-213 | a parsed row holds exactly the ordered columns with the fetched values |
| InsertUpdateHandling.KeyedRowsKeys | src/main/java/com/anjlab/csv2db/AbstractInsertUpdateRecordHandler.java:202-219 | a fingerprint is a key exactly when some fetched row has it |
| InsertUpdateHandling.KeyedRowsLastWins | src/main/java/com/anjlab/csv2db/AbstractInsertUpdateRecordHandler.java:215 | a fingerprint maps to the last fetched row that has it |
| InsertUpdateHandling.ParseRow | src/main/java/com/anjlab/csv2db/AbstractInsertUpdateRecordHandler.java:208-213 | the inner loop copies each ordered column |
| InsertUpdateHandling.ToPrimaryKeysHashMap | src/main/java/com/anjlab/csv2db/AbstractInsertUpdateRecordHandler.java:202-219 | the loop keys every fetched row by its fingerprint |
| InsertUpdateHandling.Transformer | src/main/java/com/anjlab/csv2db/AbstractInsertUpdateRecordHandler.java:169 | the new value of a column is its transform |
| InsertUpdateHandling.UnchangedWith | src/main/java/com/anjlab/csv2db/AbstractInsertUpdateRecordHandler.java:164-181 | nothing changed exactly when every column's new value equals the fetched one |
| InsertUpdateHandling.UnchangedMeansEqual | src/main/java/com/anjlab/csv2db/AbstractInsertUpdateRecordHandler.java:164-181 | the same, for the record's transforms |
| InsertUpdateHandling.DataChanged | src/main/java/com/anjlab/csv2db/AbstractInsertUpdateRecordHandler.java:164-181 | the comparison loop with its early exit |
| InsertUpdateHandling.Decide | src/main/java/com/anjlab/csv2db/AbstractInsertUpdateRecordHandler.java:156-198 | an unfetched key is an insert; a fetched key with forceUpdate is an update |
| InsertUpdateHandling.DecideSkipsUnchanged | src/main/java/com/anjlab/csv2db/AbstractInsertUpdateRecordHandler.java:162-190 | a fetched, unforced record is skipped exactly when all ordered columns are unchanged, and updated when one changed |
| InsertUpdateHandling.ClassifyWith | src/main/java/com/anjlab/csv2db/AbstractInsertUpdateRecordHandler.java:154-199 | at most one action per buffered record |
| InsertUpdateHandling.Decider | src/main/java/com/anjlab/csv2db/AbstractInsertUpdateRecordHandler.java:154-199 | the decision taken for each buffered record |
| InsertUpdateHandling.ClassifyFirst | src/main/java/com/anjlab/csv2db/AbstractInsertUpdateRecordHandler.java:154 | the buffer is classified in order: the first record's decision, then the rest |
| InsertUpdateHandling.ActionOf | src/main/java/com/anjlab/csv2db/AbstractInsertUpdateRecordHandler.java:190-197 | an insert or update decision requests exactly one action |
| InsertUpdateHandling.UniformRun | src/main/java/com/anjlab/csv2db/AbstractInsertUpdateRecordHandler.java:154-199 | a buffer with the same decision throughout requests that action for each record, in order |
| InsertUpdateHandling.UnknownKeysAreInserted | src/main/java/com/anjlab/csv2db/AbstractInsertUpdateRecordHandler.java:192-198 | with no buffered key fetched, every record is inserted, in buffer order |
| InsertUpdateHandling.ForcedKnownKeysAreUpdated | src/main/java/com/anjlab/csv2db/AbstractInsertUpdateRecordHandler.java:160-190 | with forceUpdate and every key fetched, every record is updated, in buffer order |
| InsertUpdateHandling.Cached | src/main/java/com/anjlab/csv2db/AbstractInsertUpdateRecordHandler.java:61-87 | a cached statement is reused; a missing one is added; no other entry changes |
| InsertUpdateHandling.QuerySpec | src/main/java/com/anjlab/csv2db/AbstractInsertUpdateRecordHandler.java:221-253 | the SELECT cached for the buffer's size runs with every buffered record's transformed keys |
| InsertUpdateHandling.ExecuteSpec | src/main/java/com/anjlab/csv2db/AbstractInsertUpdateRecordHandler.java:130-149 | an empty buffer is a no-op; otherwise the buffer ends empty whatever the outcome |
| InsertUpdateHandling.ClassifySpec | src/main/java/com/anjlab/csv2db/AbstractInsertUpdateRecordHandler.java:139-148 | classification only adds requested actions and clears the buffer |
| InsertUpdateHandling.BufferSpec | src/main/java/com/anjlab/csv2db/AbstractInsertUpdateRecordHandler.java:255-281 | a record of another partition is routed there; otherwise it is appended with its fingerprint |
| InsertUpdateHandling.HandleSpec | src/main/java/com/anjlab/csv2db/AbstractInsertUpdateRecordHandler.java:113-128 | the buffer stays below the batch size and is flushed exactly when it reaches it |
| InsertUpdateHandling.CloseSpec | src/main/java/com/anjlab/csv2db/AbstractInsertUpdateRecordHandler.java:289-308 | close fails exactly when records are buffered, with the source's message, and closes every cached SELECT either way |
| InsertUpdateHandling.ExecuteKeepsSelectsValid | src/main/java/com/anjlab/csv2db/AbstractInsertUpdateRecordHandler.java:54-91 | a flush keeps every cached SELECT the one for its size |
| InsertUpdateHandling.QueryKeepsSelectsValid | src/main/java/com/anjlab/csv2db/AbstractInsertUpdateRecordHandler.java:61-87 | so does selectBatch |
| InsertUpdateHandling.FlushBindsEveryPlaceholder | src/main/java/com/anjlab/csv2db/AbstractInsertUpdateRecordHandler.java:221-253 | the query a flush runs binds as many values as its SELECT has placeholders |
| InsertUpdateHandling.FlushIntoEmptyTableInsertsAll | src/main/java/com/anjlab/csv2db/AbstractInsertUpdateRecordHandler.java:130-200 | a flush that fetches nothing asks for every buffered record to be inserted, in order, and nothing else |
| InsertUpdateHandling.AppendOrClauses | src/main/java/com/anjlab/csv2db/AbstractInsertUpdateRecordHandler.java:65-78 | the loop appends n - 1 " OR (…)" copies |
| InsertUpdateHandling.DecideRecord | src/main/java/com/anjlab/csv2db/AbstractInsertUpdateRecordHandler.java:156-198 | the loop body decides as `Decide` says |
| InsertUpdateHandling.ClassifyBuffer | src/main/java/com/anjlab/csv2db/AbstractInsertUpdateRecordHandler.java:151-200 | the loop classifies the buffer in order |
| InsertUpdateHandling.ClassifyAdvance | src/main/java/com/anjlab/csv2db/AbstractInsertUpdateRecordHandler.java:154-199 | one record's decision ends the run or extends the actions |
| InsertUpdateHandling.ClassifyDone | src/main/java/com/anjlab/csv2db/AbstractInsertUpdateRecordHandler.java:154 | nothing left to classify ends the run without failure |
| InsertUpdateHandling.ResumeTwice | src/main/java/com/anjlab/csv2db/AbstractInsertUpdateRecordHandler.java:154 | resuming twice is resuming with both prefixes |
| InsertUpdateHandling.Create | src/main/java/com/anjlab/csv2db/AbstractInsertUpdateRecordHandler.java:31-52 | construction fails exactly without primary keys, with the source's message; otherwise nothing is cached or buffered |
| InsertUpdateHandling.InsertUpdateRecordHandler.constructor | src/main/java/com/anjlab/csv2db/AbstractInsertUpdateRecordHandler.java:40-51 | nothing cached or buffered |
| InsertUpdateHandling.InsertUpdateRecordHandler.BuildWhereClause | src/main/java/com/anjlab/csv2db/AbstractInsertUpdateRecordHandler.java:93-111 | the WHERE fragment, built once |
| InsertUpdateHandling.InsertUpdateRecordHandler.GetOrCreateSelectStatement | src/main/java/com/anjlab/csv2db/AbstractInsertUpdateRecordHandler.java:54-91 | n < 1 is an IllegalArgumentException and changes nothing; otherwise the cached or newly prepared SELECT for n |
| InsertUpdateHandling.InsertUpdateRecordHandler.PrepareSelect | src/main/java/com/anjlab/csv2db/AbstractInsertUpdateRecordHandler.java:65-80 | prepares the SELECT text for n records |
| InsertUpdateHandling.InsertUpdateRecordHandler.AddBatch | src/main/java/com/anjlab/csv2db/AbstractInsertUpdateRecordHandler.java:255-281 | does what `BufferSpec` says, and answers whether the buffer still has room |
| InsertUpdateHandling.InsertUpdateRecordHandler.HandleRecord | src/main/java/com/anjlab/csv2db/AbstractInsertUpdateRecordHandler.java:113-128 | does what `HandleSpec` says |
| InsertUpdateHandling.InsertUpdateRecordHandler.SelectBatch | src/main/java/com/anjlab/csv2db/AbstractInsertUpdateRecordHandler.java:221-253 | does what `QuerySpec` says |
| InsertUpdateHandling.InsertUpdateRecordHandler.ExecuteBatch | src/main/java/com/anjlab/csv2db/AbstractInsertUpdateRecordHandler.java:130-149 | does what `ExecuteSpec` says, ending with batching enabled |
| InsertUpdateHandling.InsertUpdateRecordHandler.DropBuffer | src/main/java/com/anjlab/csv2db/AbstractInsertUpdateRecordHandler.java:143-148 | only the buffer is emptied |
| InsertUpdateHandling.InsertUpdateRecordHandler.HandleRecordsBatch | src/main/java/com/anjlab/csv2db/AbstractInsertUpdateRecordHandler.java:137-148 | does what `ClassifySpec` says |
| InsertUpdateHandling.InsertUpdateRecordHandler.Close | src/main/java/com/anjlab/csv2db/AbstractInsertUpdateRecordHandler.java:289-308 | does what `CloseSpec` says and closes the connection |
| MergeHandling.Assignments | src/main/java/com/anjlab/csv2db/MergeRecordHandler.java:57 | one assignment per column |
| MergeHandling.AssignmentsStep | src/main/java/com/anjlab/csv2db/MergeRecordHandler.java:34-38 | the length test writes separators exactly between entries |
| MergeHandling.BuildWhereClause | src/main/java/com/anjlab/csv2db/MergeRecordHandler.java:30-39 | the loop builds "pk = ?" conditions joined by " AND " |
| MergeHandling.UpdateValueColumns | src/main/java/com/anjlab/csv2db/MergeRecordHandler.java:51-59 | every update-value column has a definition |
| MergeHandling.BuildSetClause | src/main/java/com/anjlab/csv2db/MergeRecordHandler.java:49-79 | the update-value columns with their slots, then the ordered columns with "?", joined by ", " |
| MergeHandling.NewParts | src/main/java/com/anjlab/csv2db/MergeRecordHandler.java:21-91 | the base, a fresh insert handler and the SELECT and UPDATE texts for the configuration |
| MergeHandling.StatementTexts | src/main/java/com/anjlab/csv2db/MergeRecordHandler.java:30-87 | the constructor's SELECT and UPDATE texts |
| MergeHandling.AssignmentPlaceholders | src/main/java/com/anjlab/csv2db/MergeRecordHandler.java:57 | an assignment holds its slot's placeholders |
| MergeHandling.AssignmentsPlaceholders | src/main/java/com/anjlab/csv2db/MergeRecordHandler.java:51-79 | assignments hold their slots' placeholders |
| MergeHandling.JoinedAssignmentsPlaceholders | src/main/java/com/anjlab/csv2db/MergeRecordHandler.java:53-55 | joining them adds none |
| MergeHandling.WherePlaceholders | src/main/java/com/anjlab/csv2db/MergeRecordHandler.java:30-39 | one '?' per key column |
| MergeHandling.SetClausePlaceholders | src/main/java/com/anjlab/csv2db/MergeRecordHandler.java:49-79 | one '?' per bound update value and per ordered column |
| MergeHandling.UpdateTextPlaceholders | src/main/java/com/anjlab/csv2db/MergeRecordHandler.java:81-87 | the fixed UPDATE words hold no '?' |
| MergeHandling.UpdatePlaceholders | src/main/java/com/anjlab/csv2db/MergeRecordHandler.java:81-87 | the UPDATE holds one '?' per bound update value, per ordered column and per key column |
| MergeHandling.KeyValues | src/main/java/com/anjlab/csv2db/MergeRecordHandler.java:124-129 | the key columns' values, in primaryKeys order |
| MergeHandling.BindKeyValues | src/main/java/com/anjlab/csv2db/MergeRecordHandler.java:182-187 | the binding loop over the key columns |
| MergeHandling.UpdateBindsEveryPlaceholder | src/main/java/com/anjlab/csv2db/MergeRecordHandler.java:161-187 | an update binds exactly as many values as the UPDATE has placeholders |
| MergeHandling.CheckUpdates | src/main/java/com/anjlab/csv2db/MergeRecordHandler.java:207-217 | up to the limit nothing happens; above it the batch is executed and the count reset, losing nothing |
| MergeHandling.UpdateStep | src/main/java/com/anjlab/csv2db/MergeRecordHandler.java:161-193 | an update adds exactly its parameters, or fails with the binding's error and changes nothing; the count stays within the batch size |
| MergeHandling.MergeSpec | src/main/java/com/anjlab/csv2db/MergeRecordHandler.java:117-205 | the SELECT runs with the raw key values; a missing row goes to the insert handler; an update adds exactly its parameters; nothing else touches the update batch |
| MergeHandling.MergeAgainstTable | src/main/java/com/anjlab/csv2db/MergeRecordHandler.java:124-135 | against a table, the raw-key SELECT finds the row exactly when the key is present and null-free, and the record then takes the found-row path; otherwise it goes to the insert handler and no update is added |
| MergeHandling.FoundStep | src/main/java/com/anjlab/csv2db/MergeRecordHandler.java:135-194 | a found row is updated or left alone, and nothing else changes |
| MergeHandling.UnchangedRowIsLeftAlone | src/main/java/com/anjlab/csv2db/MergeRecordHandler.java:137-157 | an unchanged row, updates not forced, adds no statement and inserts nothing |
| MergeHandling.ChangedRowIsUpdated | src/main/java/com/anjlab/csv2db/MergeRecordHandler.java:161-193 | a changed row, or any row when forced, adds exactly one update |
| MergeHandling.CloseSpec | src/main/java/com/anjlab/csv2db/MergeRecordHandler.java:94-113 | pending updates are executed exactly when the count is positive; all statements end closed |
| MergeHandling.InitialState | src/main/java/com/anjlab/csv2db/MergeRecordHandler.java:21-92 | a fresh handler has nothing submitted and both statements open |
| MergeHandling.MergeRecordHandler.constructor | src/main/java/com/anjlab/csv2db/MergeRecordHandler.java:21-92 | the state is `InitialState` for the configuration |
| MergeHandling.MergeRecordHandler.HandleRecord | src/main/java/com/anjlab/csv2db/MergeRecordHandler.java:117-205 | returns and leaves exactly what `MergeSpec` says |
| MergeHandling.MergeRecordHandler.Query | src/main/java/com/anjlab/csv2db/MergeRecordHandler.java:120-131 | only the SELECT runs |
| MergeHandling.MergeRecordHandler.Insert | src/main/java/com/anjlab/csv2db/MergeRecordHandler.java:195-199 | the insert handler takes its step; the merge handler's statements stay as they were |
| MergeHandling.MergeRecordHandler.HandleFound | src/main/java/com/anjlab/csv2db/MergeRecordHandler.java:135-194 | does what `FoundStep` says |
| MergeHandling.MergeRecordHandler.Update | src/main/java/com/anjlab/csv2db/MergeRecordHandler.java:161-193 | does what `UpdateStep` says |
| MergeHandling.MergeRecordHandler.BindUpdate | src/main/java/com/anjlab/csv2db/MergeRecordHandler.java:161-187 | the binding loops yield the update parameters |
| MergeHandling.MergeRecordHandler.CheckBatchExecution | src/main/java/com/anjlab/csv2db/MergeRecordHandler.java:207-217 | does what `CheckUpdates` says |
| MergeHandling.MergeRecordHandler.Close | src/main/java/com/anjlab/csv2db/MergeRecordHandler.java:94-113 | does what `CloseSpec` says and closes both connections |
| MergeHandling.Create | src/main/java/com/anjlab/csv2db/MergeRecordHandler.java:25-28 | construction fails exactly without primary keys |
| InsertOnlyHandling.InsertOnlySpec | src/main/java/com/anjlab/csv2db/InsertOnlyRecordHandler.java:28-66 | the SELECT runs with the transformed keys; only a missing row with no null key under ignoreNullPK reaches the insert handler; a present row is left alone; updates never happen |
| InsertOnlyHandling.NullKeyIsNeverInserted | src/main/java/com/anjlab/csv2db/InsertOnlyRecordHandler.java:48-57 | with ignoreNullPK a key column transforming to null keeps the record out, without error |
| InsertOnlyHandling.MissingRowIsHanded | src/main/java/com/anjlab/csv2db/InsertOnlyRecordHandler.java:59-60 | without ignoreNullPK a missing row is handed to the insert handler exactly once |
| InsertOnlyHandling.PresentRowsAreLeftAlone | src/test/java/com/anjlab/csv2db/ImporterTest.java:136-145 | re-running over rows already present inserts nothing and updates nothing |
| InsertOnlyHandling.Admitted | src/main/java/com/anjlab/csv2db/InsertOnlyRecordHandler.java:48-60 | the admitted records are some of the input records |
| InsertOnlyHandling.MissingRowsReachInserter | src/test/java/com/anjlab/csv2db/ImporterTest.java:147-156 | into a table without the keys, the insert handler ends as if handed exactly the admitted records |
| InsertOnlyHandling.InsertOnlyRecordHandler.constructor | src/main/java/com/anjlab/csv2db/InsertOnlyRecordHandler.java:22-26 | a merge handler in its initial state |
| InsertOnlyHandling.InsertOnlyRecordHandler.HandleRecord | src/main/java/com/anjlab/csv2db/InsertOnlyRecordHandler.java:28-66 | returns and leaves exactly what `InsertOnlySpec` says |
| InsertOnlyHandling.InsertOnlyRecordHandler.Close | src/main/java/com/anjlab/csv2db/MergeRecordHandler.java:94-113 | the inherited close |
| InsertOnlyHandling.HasNull | src/main/java/com/anjlab/csv2db/InsertOnlyRecordHandler.java:50-57 | the loop finds a null exactly when one of the key values is null |
| InsertOnlyHandling.Create | src/main/java/com/anjlab/csv2db/MergeRecordHandler.java:25-28 | construction fails exactly without primary keys |

## Left out

- Threads and blocking. The queues are sequences with capacity batchSize × threads. A put
  requires room. A `take` that would park on the shared queue, or on a router queue outside
  the terminal phase, is excluded by its precondition. Parking in the terminal phase is
  returned as `Waiting`, and the next call resumes the same loop. Interleavings, deadlock
  freedom and global termination are not proved; termination is stated under an explicit
  hypothesis about the tokens queued (`TerminalPhaseEndsWithEnoughTokens`).
- The run's random UUID terminal message is a parameter of the mediator.
- The reader's `readNext` IOException, the CSV parser (opencsv), zip files and directory
  traversal. `readInput` works over a finite sequence of already parsed lines and returns
  the calls it makes on the mediator.
- A worker's run works over a finite sequence of the objects it takes. A handler or map
  function that throws is a parameter (`fails`) that ends the worker.
- The iteration order of the column-mapping `HashMap` is a parameter (`order`).
- JDBC. A prepared statement is its text plus the parameter lists it has batched and run.
  The rows a SELECT returns are inputs to the handler methods. Execution never fails.
  `clearParameters` and result-set closing are not modelled.
- The script engine, Gson's JSON rendering of a row and column name, `escapeSqlName` and
  `joinPrimaryKeys` are uninterpreted functions. None of the last two is defined in this
  Configuration.
- The `map` function and its `emit` bridge in the importer: with a map function the model
  only records that the line was mapped.
- Floating-point numbers: `NumberLiteral` and JSON numbers hold integers only.
- Strings are sequences of characters; UTF-16 details of `String.hashCode` beyond 32-bit
  wrap-around are not modelled.
- Counters such as `numberOfStatementsInBatch` and the readInput line counter are unbounded
  integers.
- The CLI, metrics, timers, verbose logging and the thread-count clamp.
- `performInsert` and `performUpdate` of AbstractInsertUpdateRecordHandler are abstract in
  the source; the model records the requested actions as a log.
- A failing handler close in `run` is not modelled separately: close is the worker's last
  event in every run.
- RecordHandling.OrderedTableColumnNames and everything built on it require configured column
  mappings. Without them the source fails with a NullPointerException, and the model
  excludes that case instead of modelling it as a failure.
- The Configuration setters take a value and store it as present. The source's setters
  also accept null, which resets a field to unset; the model cannot reset a field.
- Mediation.TakeSpec: its own contract only says that the state stays well formed. What a
  take returns is stated by the lemmas of `MediationProperties`.
- MergeHandling.MergeRecordHandler.constructor: the handler and its embedded insert handler
  are built as thread 0 of 1. MergeRecordHandler calls three-argument constructors of
  AbstractRecordHandler and InsertRecordHandler, and this version of the source has only
  the six-argument ones, so no router or thread identity reaches them.
- InsertOnlyHandling.InsertOnlyRecordHandler.constructor: built as thread 0 of 1 for the
  same reason. `Importer.getRecordHandlerStrategy` passes a router and a thread identity to
  the six-argument constructors of MergeRecordHandler and InsertOnlyRecordHandler, which
  this version does not define.
- `Configuration.OperationMode` declares only INSERT and MERGE, while the importer's switch
  and the tests use INSERTONLY. The model's operation mode has all three.

Version skew in this source, which the model follows:

- MergeRecordHandler is the per-record variant. It extends AbstractRecordHandler directly,
  runs its own `SELECT *` per record, and is not built on the batched
  AbstractInsertUpdateRecordHandler.
- Merge's SELECT binds the record's raw key values, not their transforms. Its UPDATE binds
  the WHERE keys from the fetched row.
- Merge's update batch is executed when the count exceeds the batch size (`>`), while the
  insert batch is executed when it reaches it (`>=`). So an update batch holds batchSize + 1
  statements when it is sent.
- InsertOnly's SELECT binds the transformed key values, and its null check is on the
  transformed keys.
