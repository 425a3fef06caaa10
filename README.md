# Massive extension: multi-object row decoding and batch SQL

This project models the two algorithmic parts of the Massive ORM extension in
`Massive.Extension/MassiveExtension.cs`, and proves properties of the models.

- **The multi-mapping row decoder.** This is what both `QueryAndLink` overloads run.
  - Every result row is cut, column by column, into one main object and a fixed
    array of linked objects.
  - A boundary column opens the next linked object. In splitter mode, a boundary is
    a column whose name starts with `___`. In id mode, it is a column named `id`,
    compared ignoring case.
  - Column 0 opens the main object, unless column 0 is itself a boundary.
  - Every other column is written into the most recently opened object, with
    `DBNull` turned into null.
  - The mapper callback is invoked once per row with the main object and the linked
    array, and then the main object is yielded.
  - The dynamic overload has 19 ExpandoObject slots. The typed overload has one slot
    per entry of `linkedTypes`. A typed object keeps only the columns that name one
    of its properties.
  - A row with more boundaries than slots fails.
- **The batch SQL synthesizer.** This covers `CreateInsertCommandForBatch`,
  `CreateUpdateCommandForBatch` and `CreateDeleteCommandForBatch`. Each builds one
  command: its statements, with placeholders numbered by one counter shared across
  the batch, and its bound parameters.
- **The batch operations.** `InsertBatch`, `UpdateBatch` and `DeleteBatch` sequence
  the validation hook, the `BeforeSave`/`BeforeDelete` veto, the sequence queries,
  the transaction and the after-hooks. `ToDictionary` converts the batch before any
  of that.

Layout:

| file | module | contents |
|---|---|---|
| `records.dfy` | `Records` | ExpandoObject-like records: an ordered field list whose indexer overwrites in place or appends. Also case-insensitive comparison and the decimal spelling of the counter. |
| `row_decoder.dfy` | `RowDecoder` | What a row decodes to (`DecodeRow`), and the column loop over the reused array and the row loop, proved against it. |
| `row_decoder_properties.dfy` | `RowDecoderProperties` | Where each column lands, splitter and id semantics, rows without boundaries, a worked scenario. |
| `batch_sql.dfy` | `BatchSql` | The three commands as functions, and the three `Create*CommandForBatch` loops proved equal to them. |
| `batch_sql_properties.dfy` | `BatchSqlProperties` | Placeholder numbering, parameter binding, and when each command fails. |
| `batch_sql_scenarios.dfy` | `BatchSqlScenarios` | Concrete commands for a `Products` table. |
| `batch_ops.dfy` | `BatchOps` | The batch operations as methods that return an outcome and an event trace. |
| `batch_ops_properties.dfy` | `BatchOpsProperties` | The hook and transaction protocol of each operation. |

The database is not modelled. The decoder reads a sequence of rows. A batch
operation records what it asks of the database as a trace of events:
- opening the connection;
- beginning the transaction;
- each sequence query;
- executing the command;
- the commit;

interleaved with the after-hook calls. What the database answers is a parameter:
the k-th sequence value, and the row count of a command.

Dialect templates, `PrefixParameterName`, `TableName` and `PrimaryKeyField` are
uninterpreted. A statement is a structured value (`InsertInto`, `UpdateSet`,
`DeleteWhereIn`) instead of text. Each placeholder is
`prefixParameterName(decimal counter)`. The delete list is modelled character by
character: the prefixed `n,` strings are appended, then the last character is
dropped.

Behaviour of the code worth noting:
- **A boundary in column 0.** The boundary tests come before the column-0 test. So
  when column 0 is a boundary, the main object stays null and that column goes to
  linked slot 0; column 0 opens the main object only when it is not a boundary
  (`RowDecoderProperties.FirstColumnBoundary`).
- **Key lookups are case-sensitive.** An ExpandoObject's indexer compares keys
  exactly. Only the primary-key exclusion ignores case. So `obj[PrimaryKeyField]`
  fails when the record spells the key in a different case. The model reports this
  as `MissingKey` for UPDATE and DELETE.
- **No boundaries still means a full array.** A row without boundaries yields a
  linked array of null slots (19 of them in the dynamic overload), not an empty
  list.
- **The marker is three underscores.** The splitter marker is exactly `___`.

## Model

| member | source | states |
|---|---|---|
| Records.Lookup | Massive.Extension/MassiveExtension.cs:440 | Reading a record by key finds a value exactly when the key is one of the record's keys. |
| Records.Set | Massive.Extension/MassiveExtension.cs:151 | Writing a field makes its key read back the written value, leaves every other key's value unchanged, adds the key to the key set, and appends the field when the key was new. |
| Records.SetKeepsPositions | Massive.Extension/MassiveExtension.cs:151 | Overwriting an existing key keeps the record's length and the key at every position, so fields stay in first-write order. |
| Records.SetKeepsDistinct | Massive.Extension/MassiveExtension.cs:151 | A record never holds the same key twice after a write. |
| Records.KeyNamed | Massive.Extension/MassiveExtension.cs:375 | A key is in a record exactly when enumerating the record yields it. |
| Records.SetNames | Massive.Extension/MassiveExtension.cs:151 | A write enumerates an existing key where it already was, and a new key last. |
| Records.IdSpellings | Massive.Extension/MassiveExtension.cs:136 | A name equals `id` ignoring case exactly when it is one of `id`, `iD`, `Id`, `ID`. |
| Records.NatToStringRoundTrip | Massive.Extension/MassiveExtension.cs:388 | The decimal spelling of the counter reads back as the same number. |
| Records.NatToStringInjective | Massive.Extension/MassiveExtension.cs:388 | Different counter values have different spellings. |
| RowDecoder.BuildUnopened | Massive.Extension/MassiveExtension.cs:120-123 | A slot whose boundary has not been reached receives no field. |
| RowDecoder.FirstStep | Massive.Extension/MassiveExtension.cs:142-148 | A non-boundary column 0 opens the main object with that column and leaves every linked slot as it was. |
| RowDecoder.OpenStep | Massive.Extension/MassiveExtension.cs:129-141 | A boundary column owns the next linked slot. It opens that slot with a fresh object of the slot's shape, which holds the column's own value in id mode and nothing in splitter mode. The main object and the other slots are unchanged. |
| RowDecoder.MainOpened | Massive.Extension/MassiveExtension.cs:142-148 | Before any boundary, after at least one column, the main object exists. |
| RowDecoder.ContinueOwner | Massive.Extension/MassiveExtension.cs:150-151 | A column that is not a boundary belongs to the same object as the column before it. |
| RowDecoder.ContinueMainStep | Massive.Extension/MassiveExtension.cs:150-151 | Before any boundary, a column is written into the main object and nothing else changes. |
| RowDecoder.ContinueLinkedStep | Massive.Extension/MassiveExtension.cs:150-151 | After a boundary, a column is written into the most recently opened linked object, and nothing else changes. |
| RowDecoder.MainUnchanged | Massive.Extension/MassiveExtension.cs:150-151 | A column owned by a linked slot leaves the main object unchanged. |
| RowDecoder.WriteCurrent | Massive.Extension/MassiveExtension.cs:150-151 | The write `obj[fieldName] = value` changes exactly the current object: the main object, or the one slot of the array it sits in. |
| RowDecoder.OverflowReads | Massive.Extension/MassiveExtension.cs:133 | A boundary met when every slot is used means the row has more boundaries than slots. |
| RowDecoder.ReadColumn | Massive.Extension/MassiveExtension.cs:127-151 | One column step keeps the loop invariant: the main object and array equal the decoding of the columns read so far. It fails only when the row overflows the slots. |
| RowDecoder.ReadColumns | Massive.Extension/MassiveExtension.cs:119-152 | Over a cleared array, the column loop succeeds exactly when the row has at most as many boundaries as slots. It then leaves the main object and the array equal to `MainObject` and `LinkedObjects` of the row. |
| RowDecoder.LinkRows | Massive.Extension/MassiveExtension.cs:117-156 | Every row read before a failure reports exactly one callback with its decoded main object and linked array, then one yield of the main object. A failure stops at the first row that overflows. |
| RowDecoder.QueryAndLink | Massive.Extension/MassiveExtension.cs:105-159 | The dynamic overload decodes every row into ExpandoObjects with 19 slots. It fails exactly at the first row with more than 19 boundaries. |
| RowDecoder.QueryAndLinkTyped | Massive.Extension/MassiveExtension.cs:165-227 | The typed overload decodes with a `T` main object and slot k of type `linkedTypes[k]`. It fails at the first row with more boundaries than `linkedTypes` has entries. |
| RowDecoderProperties.BoundariesPrefixMonotone | Massive.Extension/MassiveExtension.cs:133 | `objectIndex` never decreases along the row. |
| RowDecoderProperties.OwnerOfPrefix | Massive.Extension/MassiveExtension.cs:125-151 | The object a column lands in depends only on the columns up to it. |
| RowDecoderProperties.NoBoundaryCount | Massive.Extension/MassiveExtension.cs:129-141 | A row without boundary names opens no linked object. |
| RowDecoderProperties.BoundariesByNames | Massive.Extension/MassiveExtension.cs:129-141 | How a row is partitioned depends on its column names only, not on its values. |
| RowDecoderProperties.BuildIgnoresUnstored | Massive.Extension/MassiveExtension.cs:129-135 | Values of columns that are never stored (splitter columns) do not affect any object. |
| RowDecoderProperties.SplitterValueDiscarded | Massive.Extension/MassiveExtension.cs:129-135 | In splitter mode, changing a splitter column's value does not change the decoded row at all. |
| RowDecoderProperties.ContributorsStep | Massive.Extension/MassiveExtension.cs:150-151 | The names in an object grow by exactly the name of the last column, when that column is written into it. |
| RowDecoderProperties.SlotKeys | Massive.Extension/MassiveExtension.cs:150-151 | An object's keys are exactly the names of the stored, accepted columns it owns, with no key repeated. |
| RowDecoderProperties.SlotKeyOrder | Massive.Extension/MassiveExtension.cs:150-151 | An object enumerates its keys in the order in which its columns first wrote them; a later column of the same name keeps that place. |
| RowDecoderProperties.BuildLookup | Massive.Extension/MassiveExtension.cs:151 | Reading a name from an object gives the last column's value if that column wrote the name, and otherwise what the shorter row gave. |
| RowDecoderProperties.LastWriteWins | Massive.Extension/MassiveExtension.cs:150-151 | A stored column that is accepted by its object, and is not overwritten by a later column of the same name in that object, is read back with its null-normalized value. |
| RowDecoderProperties.ColumnLandsInItsObject | Massive.Extension/MassiveExtension.cs:120-151 | In a decoded row, such a column is in the object of its slot, which exists and has that slot's shape. |
| RowDecoderProperties.DecodedKeys | Massive.Extension/MassiveExtension.cs:165-220 | Every decoded object has its slot's shape, and its keys are exactly the names its columns contributed, each once. |
| RowDecoderProperties.TypedObjectsHoldOnlyProperties | Massive.Extension/MassiveExtension.cs:219 | A typed object only holds names of the type's properties; the other columns are skipped. |
| RowDecoderProperties.IdValueStored | Massive.Extension/MassiveExtension.cs:136-151 | In id mode, an `id` column opens the next linked slot and its own value is stored in that new object. |
| RowDecoderProperties.NoBoundaryAllInMain | Massive.Extension/MassiveExtension.cs:120-151 | A non-empty row without boundaries decodes successfully. Every accepted column is in the main object, with its last value. Every linked slot is null. |
| RowDecoderProperties.FirstColumnBoundary | Massive.Extension/MassiveExtension.cs:129-148 | When column 0 is a boundary, the main object is null and linked slot 0 is opened. |
| RowDecoderProperties.SplitterScenario | Massive.Extension/MassiveExtension.cs:105-159 | Columns `A, B, ___, C, D` in splitter mode decode to the main object `{A, B}`, linked slot 0 `{C, D}`, and 18 null slots. |
| RowDecoderProperties.ScenarioBoundaries | Massive.Extension/MassiveExtension.cs:129-135 | In that row, `objectIndex` is 0 before the marker and 1 from the marker on. |
| RowDecoderProperties.ScenarioMain | Massive.Extension/MassiveExtension.cs:142-151 | The main object of that row holds exactly `A` and `B`, in this order. |
| RowDecoderProperties.ScenarioLinked | Massive.Extension/MassiveExtension.cs:129-151 | Linked slot 0 of that row holds exactly `C` and `D`; the marker's value is not stored. |
| BatchSql.NonKeyFieldsStep | Massive.Extension/MassiveExtension.cs:424 | Each further field is kept exactly when its key is not the primary key ignoring case. |
| BatchSql.InsertedFieldsStep | Massive.Extension/MassiveExtension.cs:375-391 | The INSERT skips a field exactly when the key is excluded and the field is the primary key ignoring case. |
| BatchSql.InsertStep | Massive.Extension/MassiveExtension.cs:383-394 | Each further record adds its values to the parameters, and one statement whose placeholders continue the shared counter. |
| BatchSql.InsertFieldNames | Massive.Extension/MassiveExtension.cs:375-379 | The field list is the first record's keys in order, minus the primary key unless it is included. |
| BatchSql.InsertValueStep | Massive.Extension/MassiveExtension.cs:385-391 | Each inserted field adds one placeholder, binds its value, null included, and advances the counter by one. |
| BatchSql.AddInsertValues | Massive.Extension/MassiveExtension.cs:385-391 | One record's loop yields consecutive placeholders from the counter, one per inserted field, and appends that field's values in order. |
| BatchSql.CreateInsertCommandForBatch | Massive.Extension/MassiveExtension.cs:366-403 | The builder loop produces exactly `InsertCommand`: an error for an empty batch or an empty field list, otherwise one statement per record and all parameters in order. |
| BatchSql.FirstErrorNone | Massive.Extension/MassiveExtension.cs:419-448 | A batch fails exactly when some record fails. |
| BatchSql.FirstErrorAt | Massive.Extension/MassiveExtension.cs:419-448 | The exception is the one of the first failing record. |
| BatchSql.KeyValuesStep | Massive.Extension/MassiveExtension.cs:469 | The key values are every record's `obj[PrimaryKeyField]`, in batch order. |
| BatchSql.NoUpdateErrors | Massive.Extension/MassiveExtension.cs:438-444 | Without an error, every record has a settable field and an exact-case primary key. |
| BatchSql.AppendAssignment | Massive.Extension/MassiveExtension.cs:426-435 | A null field adds `key = NULL` and no parameter. Any other field adds `key = placeholder` and binds its value. |
| BatchSql.SetFragmentStep | Massive.Extension/MassiveExtension.cs:421-437 | Skipping the key, writing NULL inline, or binding the value and advancing the counter keeps the fragment-loop invariant. |
| BatchSql.AddSetFragments | Massive.Extension/MassiveExtension.cs:421-437 | One record's loop yields its SET list and binds exactly its non-null, non-key values. The counter advances by their number. |
| BatchSql.UpdateStep | Massive.Extension/MassiveExtension.cs:419-447 | Each further record adds its bound values and one statement with its SET list and inline key value. |
| BatchSql.UpdatablePrefix | Massive.Extension/MassiveExtension.cs:438-444 | A record with fields and a key extends the accepted prefix. |
| BatchSql.UpdateFailsAt | Massive.Extension/MassiveExtension.cs:438-444 | The first record without settable fields gives `NoFieldsToUpdate`. Otherwise the first record without its exact key gives `MissingKey`. |
| BatchSql.UpdateAccepted | Massive.Extension/MassiveExtension.cs:419-451 | When no record fails, the command is one statement per record plus the bound values. |
| BatchSql.CreateUpdateCommandForBatch | Massive.Extension/MassiveExtension.cs:411-452 | The builder loop produces exactly `UpdateCommand`. |
| BatchSql.NoDeleteErrors | Massive.Extension/MassiveExtension.cs:469 | A DELETE without an error has every record's exact-case key. |
| BatchSql.CreateDeleteCommandForBatch | Massive.Extension/MassiveExtension.cs:460-477 | The builder loop produces exactly `DeleteCommand`. |
| BatchSqlProperties.ValuesAt | Massive.Extension/MassiveExtension.cs:389 | The k-th value bound for a record is the value of its k-th field. |
| Records.FieldNamesAt | Massive.Extension/MassiveExtension.cs:375-378 | The k-th field name is the key of the k-th field. |
| BatchSqlProperties.PlaceholdersAt | Massive.Extension/MassiveExtension.cs:388 | The k-th placeholder from `start` is placeholder number `start + k`. |
| BatchSqlProperties.PlaceholdersSplit | Massive.Extension/MassiveExtension.cs:388-390 | Consecutive runs of placeholders join into one run. |
| BatchSqlProperties.PlaceholdersDistinct | Massive.Extension/MassiveExtension.cs:388 | With a prefixing `PrefixParameterName`, no two placeholders of a command are equal. |
| BatchSqlProperties.NonKeyFieldsMembers | Massive.Extension/MassiveExtension.cs:424 | A field is kept exactly when it is in the record and is not the primary key ignoring case. |
| BatchSqlProperties.NonKeyFieldsBounded | Massive.Extension/MassiveExtension.cs:424 | No kept field is the primary key, and the kept fields are no more than the record's fields. |
| BatchSqlProperties.PlaceholdersContinue | Massive.Extension/MassiveExtension.cs:385-392 | A statement whose placeholders continue the counter extends the run numbered from 0. |
| BatchSqlProperties.InsertStatementsLength | Massive.Extension/MassiveExtension.cs:383-394 | An INSERT has one statement per record. |
| BatchSqlProperties.InsertStatementAt | Massive.Extension/MassiveExtension.cs:392 | Statement q inserts into the table with the shared field list. Its placeholders are numbered from the count of values bound before record q. |
| BatchSqlProperties.InsertParametersAppend | Massive.Extension/MassiveExtension.cs:389 | The parameters of two batches in sequence are the first batch's followed by the second's. |
| BatchSqlProperties.InsertParameterAt | Massive.Extension/MassiveExtension.cs:388-390 | The parameter at record q's offset plus k is record q's k-th inserted value. |
| BatchSqlProperties.InsertParametersAround | Massive.Extension/MassiveExtension.cs:383-394 | The parameters are those of the records before q, then q's values, then those of the records after q. |
| BatchSqlProperties.InsertParametersOfOne | Massive.Extension/MassiveExtension.cs:385-391 | A one-record batch binds exactly that record's inserted values. |
| BatchSqlProperties.InsertCommandValue | Massive.Extension/MassiveExtension.cs:375-401 | A successful INSERT has a non-empty batch and a non-empty field list. |
| BatchSqlProperties.InsertBinding | Massive.Extension/MassiveExtension.cs:385-392 | Placeholder k of statement q is number offset plus k, and the parameter with that number is the value of record q's k-th inserted field, null included. |
| BatchSqlProperties.InsertPlaceholdersConsecutive | Massive.Extension/MassiveExtension.cs:373-394 | Across all INSERT statements, the placeholders are numbered 0, 1, 2, ... up to the number of parameters, in order. |
| BatchSqlProperties.InsertShapeAgreement | Massive.Extension/MassiveExtension.cs:375-392 | Statement q has as many placeholders as fields exactly when record q inserts as many fields as the first record. |
| BatchSqlProperties.BoundValuesSplit | Massive.Extension/MassiveExtension.cs:426-435 | The values bound for a field list are those of its prefix, then those of its suffix. |
| BatchSqlProperties.BoundValueAt | Massive.Extension/MassiveExtension.cs:432 | A non-null field's value is bound after the non-null values that come before it. |
| BatchSqlProperties.AssignmentAt | Massive.Extension/MassiveExtension.cs:426-435 | The k-th SET fragment names the k-th field. It is `= NULL` when the value is null. Otherwise its placeholder number is the count of non-null values before it. |
| BatchSqlProperties.NullsNotBound | Massive.Extension/MassiveExtension.cs:426-429 | A null value is never a bound UPDATE parameter of a record. |
| BatchSqlProperties.AssignmentsPlaceholders | Massive.Extension/MassiveExtension.cs:430-435 | A SET list's placeholders are consecutive, one per bound value. |
| BatchSqlProperties.UpdateParametersNoNull | Massive.Extension/MassiveExtension.cs:426-435 | No UPDATE parameter is null. |
| BatchSqlProperties.UpdateStatementsLength | Massive.Extension/MassiveExtension.cs:419-448 | An UPDATE has one statement per record. |
| BatchSqlProperties.UpdateStatementAt | Massive.Extension/MassiveExtension.cs:440 | Statement q updates the table with record q's SET list, numbered from the values bound before it, and record q's key value inline. |
| BatchSqlProperties.UpdateParametersAppend | Massive.Extension/MassiveExtension.cs:432 | The UPDATE parameters of two batches in sequence are concatenated. |
| BatchSqlProperties.UpdateCommandValue | Massive.Extension/MassiveExtension.cs:419-451 | A successful UPDATE has every key, and is the statements with the key values plus the bound values. |
| BatchSqlProperties.UpdateStatementOf | Massive.Extension/MassiveExtension.cs:440 | In a successful UPDATE, statement q's WHERE value is exactly record q's `obj[PrimaryKeyField]`. |
| BatchSqlProperties.UpdateParameterAt | Massive.Extension/MassiveExtension.cs:432 | Record q's i-th bound value sits at its offset plus i. |
| BatchSqlProperties.UpdateParametersAround | Massive.Extension/MassiveExtension.cs:419-448 | The UPDATE parameters are those of the records before q, then q's bound values, then those of the rest. |
| BatchSqlProperties.UpdateParametersOfOne | Massive.Extension/MassiveExtension.cs:421-437 | A one-record UPDATE binds exactly that record's non-null, non-key values. |
| BatchSqlProperties.UpdateFieldBinding | Massive.Extension/MassiveExtension.cs:424-436 | SET fragment k of statement q names record q's k-th non-key field, never the key. It is a NULL fragment exactly when the value is null. |
| BatchSqlProperties.UpdateValueBinding | Massive.Extension/MassiveExtension.cs:430-435 | A non-null field's fragment carries placeholder number j, and parameter j is that field's value. |
| BatchSqlProperties.UpdateValueAt | Massive.Extension/MassiveExtension.cs:432 | Parameter j is the value of the field that carries placeholder j. |
| BatchSqlProperties.UpdatePlaceholdersConsecutive | Massive.Extension/MassiveExtension.cs:417-448 | Across all UPDATE statements, the placeholders are numbered 0, 1, 2, ... up to the number of parameters, in order; NULL fragments take no number. |
| BatchSqlProperties.UpdateSucceedsIff | Massive.Extension/MassiveExtension.cs:438-444 | An UPDATE succeeds exactly when every record has a non-key field and its exact-case key. |
| BatchSqlProperties.DeleteParameterAt | Massive.Extension/MassiveExtension.cs:464-475 | A DELETE is one statement over the IN list, with one parameter per record. Parameter q is record q's key value. |
| BatchSqlProperties.KeyValuesAt | Massive.Extension/MassiveExtension.cs:469 | The q-th key value is record q's `obj[PrimaryKeyField]`. |
| BatchSqlProperties.DeleteSucceedsIff | Massive.Extension/MassiveExtension.cs:469 | A DELETE succeeds exactly when every record has its exact-case key. |
| BatchSqlProperties.DeleteEmptyBatch | Massive.Extension/MassiveExtension.cs:473-475 | An empty batch gives one statement with an empty `IN ()` list and no parameter. |
| BatchSqlProperties.JoinSnoc | Massive.Extension/MassiveExtension.cs:392 | Joining one more part adds the separator and the part. |
| BatchSqlProperties.DeleteListedJoined | Massive.Extension/MassiveExtension.cs:467-472 | With a prefixing `PrefixParameterName`, the appended text is the comma-joined placeholders plus a trailing comma. |
| BatchSqlProperties.DeleteListIsJoin | Massive.Extension/MassiveExtension.cs:467-475 | Removing the last character leaves exactly the placeholders joined by commas. |
| BatchSqlScenarios.ProductsPlaceholder | Massive.Extension/MassiveExtension.cs:388 | Below ten, a `@`-prefixed placeholder is `@` and one digit. |
| BatchSqlScenarios.ProductsPlaceholderPair | Massive.Extension/MassiveExtension.cs:388-390 | Two consecutive placeholders are consecutive digits. |
| BatchSqlScenarios.NameQtyFields | Massive.Extension/MassiveExtension.cs:377-387 | `Name` and `Qty` are not the key `Id`, so both are written. |
| BatchSqlScenarios.InsertScenario | Massive.Extension/MassiveExtension.cs:366-403 | Two products give two INSERTs over `(Name, Qty)` with `@0, @1` and `@2, @3`, and the four values in order. |
| BatchSqlScenarios.UpdateScenario | Massive.Extension/MassiveExtension.cs:411-452 | A null name becomes `Name = NULL`. Only the quantity is bound as `@0`, and the key 7 goes in the WHERE clause. |
| BatchSqlScenarios.DeleteScenario | Massive.Extension/MassiveExtension.cs:460-477 | Keys 7 and 8 give `Id IN (@0,@1)` with parameters 7 and 8. |
| BatchOps.Transaction | Massive.Extension/MassiveExtension.cs:265-285 | The transaction's events follow what came before it. It returns exactly when the command could be built. |
| BatchOps.ToDictionary | Massive.Extension/MassiveExtension.cs:489-494 | Every object is converted, in order, none dropped. |
| BatchOps.AssignKeys | Massive.Extension/MassiveExtension.cs:274-275 | Record k's primary key becomes the k-th sequence value, and its other fields are unchanged. |
| BatchOps.SequenceEvents | Massive.Extension/MassiveExtension.cs:272-275 | One sequence query per record, in record order. |
| BatchOps.DrawKeys | Massive.Extension/MassiveExtension.cs:270-277 | The sequence loop yields exactly the keyed records and the queries it made. |
| BatchOps.InsertBatch | Massive.Extension/MassiveExtension.cs:255-291 | The method's outcome and trace are `InsertBatchRun` of the converted batch. |
| BatchOps.UpdateBatch | Massive.Extension/MassiveExtension.cs:300-325 | The method's outcome and trace are `UpdateBatchRun` of the converted batch. |
| BatchOps.DeleteBatch | Massive.Extension/MassiveExtension.cs:332-355 | The method's outcome and trace are `DeleteBatchRun` of the converted batch, with `Deleted` inside and after the transaction. |
| BatchOps.DeleteBatchOnce | Massive.Extension/MassiveExtension.cs:327-355 | The corrected DELETE's outcome and trace are `DeleteBatchOnceRun`, with `Deleted` once after the commit. |
| BatchOpsProperties.TransactionCount | Massive.Extension/MassiveExtension.cs:279-287 | The command executes and commits exactly when it could be built. The hooks run only then. |
| BatchOpsProperties.TransactionEnd | Massive.Extension/MassiveExtension.cs:281-287 | A built command returns its row count, and the trace ends with the commit followed by the after-commit hooks. |
| BatchOpsProperties.StartedCounts | Massive.Extension/MassiveExtension.cs:265-276 | Opening, beginning and the sequence queries contain no command, no commit and no hook. |
| BatchOpsProperties.HookedTransaction | Massive.Extension/MassiveExtension.cs:279-287 | The after-hook runs once per commit (twice when it also runs before the commit). A commit means one execution, the row count returned, and the trace ending in `Commit` and then the hook. |
| BatchOpsProperties.InsertBatchProtocol | Massive.Extension/MassiveExtension.cs:260-290 | Invalid input throws `Can't insert: ` with the errors joined by `; `, before any database work. A `BeforeSave` veto returns 0 with no work. Any database work commits exactly when the command is returned. `Inserted` runs exactly once per commit. |
| BatchOpsProperties.InsertBatchCommitted | Massive.Extension/MassiveExtension.cs:279-287 | A committed insert built its command, executed it once, returned its row count, and ran `Inserted` on the keyed records after the commit. |
| BatchOpsProperties.InsertBatchStarts | Massive.Extension/MassiveExtension.cs:265-276 | A valid, unvetoed insert opens the connection, begins the transaction, and makes one sequence query per record before anything else. |
| BatchOpsProperties.InsertBatchKeyedBuilds | Massive.Extension/MassiveExtension.cs:270-279 | With a sequence, every non-empty batch gets its key in the INSERT field list and is executed. An empty batch throws at `batch.First()` (`EmptyBatch`) inside the open transaction. |
| BatchOpsProperties.UpdateBatchProtocol | Massive.Extension/MassiveExtension.cs:305-321 | Invalid input throws `Can't Update: `, and a veto returns 0, both with no work. Otherwise the run opens and begins. It commits exactly when it returns, and then runs `Updated` once, after the commit. |
| BatchOpsProperties.DeleteBatchProtocol | Massive.Extension/MassiveExtension.cs:337-351 | A veto returns 0 with no work. Each commit comes with exactly two `Deleted` calls, the trace ending `Deleted, Commit, Deleted`. |
| BatchOpsProperties.DeleteBatchOnceProtocol | Massive.Extension/MassiveExtension.cs:328 | In the corrected DELETE, `Deleted` runs once per commit, after it. |
| BatchOpsProperties.DeletedTwiceWitness | Massive.Extension/MassiveExtension.cs:346-351 | A one-record DELETE that commits once calls `Deleted` twice as written, and once when corrected. |

## Findings

| source | as written | input that shows it | evidently intended | confidence | as-written member | corrected member |
|---|---|---|---|---|---|---|
| Massive.Extension/MassiveExtension.cs:346-351 | `DeleteBatch` calls `Deleted(dict)` inside the transaction and again after it. | `DeleteBatch` of one record `{Id: 7}` whose `BeforeDelete` returns true: one commit, two `Deleted` calls. | `Deleted` is called once for the entire batch, after the commit (doc comment at line 328, and `Inserted`/`Updated` at lines 287 and 321). | not executed; high, from the code as written | BatchOps.DeleteBatch, BatchOpsProperties.DeletedTwiceWitness | BatchOps.DeleteBatchOnce, BatchOpsProperties.DeleteBatchOnceProtocol |

## Left out

- Database I/O (`OpenConnection`, `CreateCommand`, `ExecuteReader`, `ExecuteScalar`, `ExecuteNonQuery`, commit) is modelled as events in a trace. The database's answers are parameters. Exceptions the database itself raises are not modelled, so the model does not capture the rollback path those exceptions take.
- Disposal of the connection and transaction (`using`) is not an event. A trace without `Commit` stands for a rolled-back transaction.
- Laziness of `yield return`: the decoder produces the finite sequence of callbacks and yields of a fully enumerated reader. Stopping the enumeration early is not modelled.
- The mapper callback is recorded as an event with its arguments. What the callback does to the objects is not modelled.
- `IsValid`, `BeforeSave` and `BeforeDelete` are modelled as pure functions of the batch. `validate` returns the `Errors` list. Their side effects are not modelled.
- `ToExpando` (Slapper.AutoMapper) is a parameter function from an object to a record.
- Reflection is reduced to a type being the set of its property names (`GetProperty` is an exact-name lookup). Conversion of a value to the property's type is not modelled.
- `Convert.ToInt32` of the sequence value and of the row count: the model takes an `int` from the database and does not model conversion overflow.
- EqualsIgnoreCase: folds only the ASCII letters `a`-`z`, whereas `StringComparison.OrdinalIgnoreCase` also folds other letters (`é`/`É`), so a non-ASCII primary-key spelling that .NET treats as the key is kept as an ordinary field by the model (lines 377, 387, 424 and the id test at 136).
- StartsWith: compares ordinally, whereas `fieldName.StartsWith(SPLITTER_COLUMN)` (lines 129 and 192) uses the current culture, under which ignorable characters such as a leading soft hyphen still match `___`; the model does not treat such names as splitters.
- LinkRows: the callback receives a snapshot of the linked array (`linked[..]`). In the code every callback gets the same `linkedObjects` array, which is cleared and refilled in place for the next row, so a callback that keeps the array later sees other rows' objects; the model does not capture this aliasing.
- AssignKeys: returns new records with the sequence key written in. The code writes `item[PrimaryKeyField]` into the very objects `ToExpando` produced, which the caller may still hold; the model does not capture this aliasing.
- Values are modelled as null, integer, text or boolean. Other database types behave the same for this logic.
- Dialect templates (`GetInsertQueryPattern`, `GetUpdateQueryPattern`, `GetDeleteQueryPattern`, `GetIdentityRetrievalScalarStatement`) and their text are not part of this model. Statements are structured values.
- `PrefixParameterName`, `TableName` and `PrimaryKeyField` are parameters of the model.
- The typed forwarding wrappers (`GetByPrimaryKey`, `All<T>`, `Single<T>`, `Paged<T>`, `Query<T>`) and `ToStaticType` only forward to the base ORM and Slapper, which are not part of this model.
- `InsertPoco` depends on the base ORM's `Insert`, which is not part of this model.
- Overflow of the linked slots is one error outcome, `TooManyLinkedObjects`. The model does not distinguish the array's index exception from the type enumerator's exception.
