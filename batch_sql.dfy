/// The batch SQL synthesizer: the INSERT, UPDATE and DELETE commands built for a
/// whole batch of records in one round trip.
///
/// The dialect's statement templates and `PrefixParameterName` are not part of
/// this model: a statement is kept as the structured data the template is
/// filled with, and the placeholder format is a parameter of the model. The
/// command's text is the statements in order; its parameters are the values
/// `AddParam` bound, in order.
module BatchSql {
  import opened Records

  /** What the synthesizer reads from the model it belongs to. */
  datatype DynamicModel = DynamicModel(tableName: string, primaryKeyField: string, prefixParameterName: string -> string)

  /** One `Key = ...` fragment of an UPDATE's SET list. */
  datatype Assignment = AssignNull(field: string) | AssignParam(field: string, placeholder: string)

  /** The arguments a dialect template is formatted with. */
  datatype Statement =
    | InsertInto(table: string, fields: seq<string>, placeholders: seq<string>)
    | UpdateSet(table: string, assignments: seq<Assignment>, keyField: string, keyValue: Value)
    | DeleteWhereIn(table: string, keyField: string, list: string)

  /** A command: its statements in text order and its bound parameters in `AddParam` order. */
  datatype Command = Command(statements: seq<Statement>, parameters: seq<Value>)

  /** Why no command is built: the exception the source throws. */
  datatype SqlError =
    | EmptyBatch                // `batch.First()` on an empty batch
    | NoFieldsToInsert          // "there are no properties set"
    | NoFieldsToUpdate(record: nat)   // "could not define any name/value pairs"
    | MissingKey(record: nat)   // `obj[PrimaryKeyField]` on a record without that exact key

  /** The primary key is recognised ignoring case. */
  predicate IsPrimaryKey(m: DynamicModel, key: string) {
    EqualsIgnoreCase(key, m.primaryKeyField)
  }

  /** The placeholder of the n-th bound parameter: `PrefixParameterName(counter.ToString())`. */
  function Placeholder(m: DynamicModel, n: nat): string {
    m.prefixParameterName(NatToString(n))
  }

  /** The values of `r` in order. */
  function Values(r: Record): (vs: seq<Value>)
    ensures |vs| == |r|
  {
    if r == [] then [] else Values(r[..|r| - 1]) + [r[|r| - 1].value]
  }

  /** The fields of `r` other than the primary key, in the record's order. */
  function NonKeyFields(m: DynamicModel, r: Record): Record {
    if r == [] then []
    else
      var n := |r| - 1;
      NonKeyFields(m, r[..n]) + (if IsPrimaryKey(m, r[n].key) then [] else [r[n]])
  }

  /** The fields of `r` that an INSERT writes. */
  function InsertedFields(m: DynamicModel, r: Record, includePrimaryKey: bool): Record {
    if includePrimaryKey then r else NonKeyFields(m, r)
  }

  /** `count` consecutive placeholders starting at number `start`. */
  function Placeholders(m: DynamicModel, start: nat, count: nat): (ps: seq<string>)
    ensures |ps| == count
  {
    if count == 0 then [] else Placeholders(m, start, count - 1) + [Placeholder(m, start + count - 1)]
  }

  // ---------------------------------------------------------------- INSERT

  /** The parameters an INSERT of `batch` binds: every inserted value of every record, null included. */
  function InsertParameters(m: DynamicModel, batch: seq<Record>, includePrimaryKey: bool): seq<Value> {
    if batch == [] then []
    else
      var n := |batch| - 1;
      InsertParameters(m, batch[..n], includePrimaryKey) + Values(InsertedFields(m, batch[n], includePrimaryKey))
  }

  /** How many parameters the records before `q` bind: the number of record q's first placeholder. */
  function InsertOffset(m: DynamicModel, batch: seq<Record>, includePrimaryKey: bool, q: nat): nat
    requires q <= |batch|
  {
    |InsertParameters(m, batch[..q], includePrimaryKey)|
  }

  /** One INSERT per record: the shared field list, and one placeholder per inserted value of that record. */
  function InsertStatements(m: DynamicModel, fields: seq<string>, batch: seq<Record>, includePrimaryKey: bool): seq<Statement> {
    if batch == [] then []
    else
      var n := |batch| - 1;
      InsertStatements(m, fields, batch[..n], includePrimaryKey)
      + [InsertInto(m.tableName, fields,
                    Placeholders(m, |InsertParameters(m, batch[..n], includePrimaryKey)|,
                                 |InsertedFields(m, batch[n], includePrimaryKey)|))]
  }

  /**
   * The batch INSERT: the field list is taken from the first record, an empty
   * batch or an empty field list is an error.
   */
  function InsertCommand(m: DynamicModel, batch: seq<Record>, includePrimaryKey: bool): Result<Command, SqlError> {
    if batch == [] then Failure(EmptyBatch)
    else
      var fields := FieldNames(InsertedFields(m, batch[0], includePrimaryKey));
      if fields == [] then Failure(NoFieldsToInsert)
      else Success(Command(InsertStatements(m, fields, batch, includePrimaryKey), InsertParameters(m, batch, includePrimaryKey)))
  }

  lemma NonKeyFieldsStep(m: DynamicModel, r: Record, i: nat)
    requires i < |r|
    ensures NonKeyFields(m, r[..i + 1]) == NonKeyFields(m, r[..i]) + (if IsPrimaryKey(m, r[i].key) then [] else [r[i]])
  {
    assert r[..i + 1][..i] == r[..i];
  }

  lemma InsertedFieldsStep(m: DynamicModel, r: Record, includePrimaryKey: bool, i: nat)
    requires i < |r|
    ensures !includePrimaryKey && IsPrimaryKey(m, r[i].key) ==>
              InsertedFields(m, r[..i + 1], includePrimaryKey) == InsertedFields(m, r[..i], includePrimaryKey)
    ensures includePrimaryKey || !IsPrimaryKey(m, r[i].key) ==>
              InsertedFields(m, r[..i + 1], includePrimaryKey) == InsertedFields(m, r[..i], includePrimaryKey) + [r[i]]
  {
    if includePrimaryKey {
      assert r[..i + 1] == r[..i] + [r[i]];
    } else {
      NonKeyFieldsStep(m, r, i);
      if IsPrimaryKey(m, r[i].key) {
        assert NonKeyFields(m, r[..i]) + [] == NonKeyFields(m, r[..i]);
      }
    }
  }



  lemma AppendField(fs: Record, f: Field)
    ensures FieldNames(fs + [f]) == FieldNames(fs) + [f.key]
    ensures Values(fs + [f]) == Values(fs) + [f.value]
  {
    assert (fs + [f])[..|fs|] == fs;
  }

  lemma InsertStep(m: DynamicModel, fields: seq<string>, batch: seq<Record>, includePrimaryKey: bool, q: nat)
    requires q < |batch|
    ensures InsertParameters(m, batch[..q + 1], includePrimaryKey)
         == InsertParameters(m, batch[..q], includePrimaryKey) + Values(InsertedFields(m, batch[q], includePrimaryKey))
    ensures InsertStatements(m, fields, batch[..q + 1], includePrimaryKey)
         == InsertStatements(m, fields, batch[..q], includePrimaryKey)
            + [InsertInto(m.tableName, fields,
                          Placeholders(m, |InsertParameters(m, batch[..q], includePrimaryKey)|,
                                       |InsertedFields(m, batch[q], includePrimaryKey)|))]
  {
    assert batch[..q + 1][..q] == batch[..q];
  }

  /** The field-list loop of `CreateInsertCommandForBatch`: the keys of `first`, the primary key skipped unless included. */
  method InsertFieldNames(m: DynamicModel, first: Record, includePrimaryKey: bool) returns (fieldNames: seq<string>)
    ensures fieldNames == FieldNames(InsertedFields(m, first, includePrimaryKey))
  {
    fieldNames := [];
    for i := 0 to |first|
      invariant fieldNames == FieldNames(InsertedFields(m, first[..i], includePrimaryKey))
    {
      InsertedFieldsStep(m, first, includePrimaryKey, i);
      if !includePrimaryKey && EqualsIgnoreCase(first[i].key, m.primaryKeyField) {
        continue;
      }
      AppendField(InsertedFields(m, first[..i], includePrimaryKey), first[i]);
      fieldNames := fieldNames + [first[i].key];
    }
    assert first[..|first|] == first;
  }

  /** What the per-record loop knows after the first `i` fields of `obj`, having started at `counter` with `parameters`. */
  ghost predicate InsertValuesUpTo(m: DynamicModel, obj: Record, includePrimaryKey: bool, counter: nat, parameters: seq<Value>,
                                   i: nat, valueParameters: seq<string>, counter': nat, parameters': seq<Value>)
    requires i <= |obj|
  {
    var done := InsertedFields(m, obj[..i], includePrimaryKey);
    && valueParameters == Placeholders(m, counter, |done|)
    && parameters' == parameters + Values(done)
    && counter' == counter + |done|
  }

  /** One field of the per-record loop: skipped if it is the excluded primary key, else numbered and bound. */
  lemma InsertValueStep(m: DynamicModel, obj: Record, includePrimaryKey: bool, counter: nat, parameters: seq<Value>,
                        i: nat, valueParameters: seq<string>, counter': nat, parameters': seq<Value>)
    requires i < |obj|
    requires InsertValuesUpTo(m, obj, includePrimaryKey, counter, parameters, i, valueParameters, counter', parameters')
    ensures !includePrimaryKey && IsPrimaryKey(m, obj[i].key) ==>
              InsertValuesUpTo(m, obj, includePrimaryKey, counter, parameters, i + 1, valueParameters, counter', parameters')
    ensures includePrimaryKey || !IsPrimaryKey(m, obj[i].key) ==>
              InsertValuesUpTo(m, obj, includePrimaryKey, counter, parameters, i + 1,
                               valueParameters + [Placeholder(m, counter')], counter' + 1, parameters' + [obj[i].value])
  {
    var done := InsertedFields(m, obj[..i], includePrimaryKey);
    InsertedFieldsStep(m, obj, includePrimaryKey, i);
    if includePrimaryKey || !IsPrimaryKey(m, obj[i].key) {
      AppendField(done, obj[i]);
      assert parameters' + [obj[i].value] == parameters + (Values(done) + [obj[i].value]);
    }
  }

  /**
   * The per-record loop of `CreateInsertCommandForBatch`: one placeholder and
   * one parameter per inserted value of `obj`, numbered from `counter` on.
   */
  method AddInsertValues(m: DynamicModel, obj: Record, includePrimaryKey: bool, counter: nat, parameters: seq<Value>)
    returns (valueParameters: seq<string>, counter': nat, parameters': seq<Value>)
    ensures valueParameters == Placeholders(m, counter, |InsertedFields(m, obj, includePrimaryKey)|)
    ensures parameters' == parameters + Values(InsertedFields(m, obj, includePrimaryKey))
    ensures counter' == counter + |InsertedFields(m, obj, includePrimaryKey)|
  {
    valueParameters, counter', parameters' := [], counter, parameters;
    for i := 0 to |obj|
      invariant InsertValuesUpTo(m, obj, includePrimaryKey, counter, parameters, i, valueParameters, counter', parameters')
    {
      InsertValueStep(m, obj, includePrimaryKey, counter, parameters, i, valueParameters, counter', parameters');
      if !includePrimaryKey && EqualsIgnoreCase(obj[i].key, m.primaryKeyField) {
        continue;
      }
      valueParameters := valueParameters + [Placeholder(m, counter')];
      parameters' := parameters' + [obj[i].value];
      counter' := counter' + 1;
    }
    assert obj[..|obj|] == obj;
  }

  /**
   * `CreateInsertCommandForBatch`: the field list from the first record, then one
   * statement per record, its placeholders numbered by a counter shared by the
   * whole batch.
   */
  method CreateInsertCommandForBatch(m: DynamicModel, batch: seq<Record>, includePrimaryKey: bool)
    returns (result: Result<Command, SqlError>)
    ensures result == InsertCommand(m, batch, includePrimaryKey)
  {
    if |batch| == 0 {
      return Failure(EmptyBatch);
    }
    var fieldNames := InsertFieldNames(m, batch[0], includePrimaryKey);
    if |fieldNames| > 0 {
      var statements: seq<Statement> := [];
      var parameters: seq<Value> := [];
      var counter: nat := 0;
      for q := 0 to |batch|
        invariant parameters == InsertParameters(m, batch[..q], includePrimaryKey)
        invariant counter == |parameters|
        invariant statements == InsertStatements(m, fieldNames, batch[..q], includePrimaryKey)
      {
        InsertStep(m, fieldNames, batch, includePrimaryKey, q);
        var valueParameters;
        valueParameters, counter, parameters := AddInsertValues(m, batch[q], includePrimaryKey, counter, parameters);
        statements := statements + [InsertInto(m.tableName, fieldNames, valueParameters)];
      }
      assert batch[..|batch|] == batch;
      result := Success(Command(statements, parameters));
    } else {
      result := Failure(NoFieldsToInsert);
    }
  }

  // ---------------------------------------------------------------- errors

  /** The first error of a batch, records in order: the exception that ends the loop. */
  function FirstError(errors: seq<Option<SqlError>>): Option<SqlError> {
    if errors == [] then None
    else if errors[0].Some? then errors[0]
    else FirstError(errors[1..])
  }

  /** A batch has no error exactly when no record has one. */
  lemma {:induction false} FirstErrorNone(errors: seq<Option<SqlError>>)
    ensures FirstError(errors).None? <==> forall p :: 0 <= p < |errors| ==> errors[p].None?
  {
    if errors != [] {
      FirstErrorNone(errors[1..]);
      if errors[0].None? && FirstError(errors[1..]).None? {
        forall p | 0 <= p < |errors| ensures errors[p].None? {
          if p > 0 { assert errors[p] == errors[1..][p - 1]; }
        }
      }
    }
  }

  /** The error of record q is the batch's error when every record before it passed. */
  lemma {:induction false} FirstErrorAt(errors: seq<Option<SqlError>>, q: nat)
    requires q < |errors| && errors[q].Some?
    requires forall p :: 0 <= p < q ==> errors[p].None?
    ensures FirstError(errors) == errors[q]
  {
    if q > 0 {
      FirstErrorAt(errors[1..], q - 1);
    }
  }

  // ---------------------------------------------------------------- primary keys

  /** The primary-key values of the records, in order. */
  function KeyValues(m: DynamicModel, batch: seq<Record>): (keys: seq<Value>)
    requires forall p :: 0 <= p < |batch| ==> Lookup(batch[p], m.primaryKeyField).Some?
    ensures |keys| == |batch|
  {
    if batch == [] then []
    else
      var n := |batch| - 1;
      KeyValues(m, batch[..n]) + [Lookup(batch[n], m.primaryKeyField).value]
  }

  lemma KeyValuesStep(m: DynamicModel, batch: seq<Record>, q: nat)
    requires q < |batch|
    requires forall p :: 0 <= p <= q ==> Lookup(batch[p], m.primaryKeyField).Some?
    ensures KeyValues(m, batch[..q + 1]) == KeyValues(m, batch[..q]) + [Lookup(batch[q], m.primaryKeyField).value]
  {
    assert batch[..q + 1][..q] == batch[..q];
  }


  // ---------------------------------------------------------------- UPDATE

  /** The non-null values among `fs`, in order: the values an UPDATE binds as parameters. */
  function BoundValues(fs: Record): seq<Value> {
    if fs == [] then []
    else
      var n := |fs| - 1;
      BoundValues(fs[..n]) + (if fs[n].value.Null? then [] else [fs[n].value])
  }

  /** The SET list for the fields `fs`, placeholders numbered from `start`: null is written inline, anything else is bound. */
  function Assignments(m: DynamicModel, fs: Record, start: nat): (a: seq<Assignment>)
    ensures |a| == |fs|
  {
    if fs == [] then []
    else
      var n := |fs| - 1;
      Assignments(m, fs[..n], start)
      + [if fs[n].value.Null? then AssignNull(fs[n].key)
         else AssignParam(fs[n].key, Placeholder(m, start + |BoundValues(fs[..n])|))]
  }

  /** Why record q cannot be updated: nothing to SET, or no field named exactly like the primary key. */
  function UpdateFailure(m: DynamicModel, r: Record, q: nat): Option<SqlError> {
    if NonKeyFields(m, r) == [] then Some(NoFieldsToUpdate(q))
    else if Lookup(r, m.primaryKeyField).None? then Some(MissingKey(q))
    else None
  }

  function UpdateErrors(m: DynamicModel, batch: seq<Record>): seq<Option<SqlError>> {
    seq(|batch|, p requires 0 <= p < |batch| => UpdateFailure(m, batch[p], p))
  }

  /** The parameters an UPDATE of `batch` binds: the non-null, non-key values of every record. */
  function UpdateParameters(m: DynamicModel, batch: seq<Record>): seq<Value> {
    if batch == [] then []
    else
      var n := |batch| - 1;
      UpdateParameters(m, batch[..n]) + BoundValues(NonKeyFields(m, batch[n]))
  }

  /** One UPDATE per record: its SET list, and its primary-key value `keys[q]` written inline in the WHERE clause. */
  function UpdateStatements(m: DynamicModel, batch: seq<Record>, keys: seq<Value>): seq<Statement>
    requires |keys| == |batch|
  {
    if batch == [] then []
    else
      var n := |batch| - 1;
      UpdateStatements(m, batch[..n], keys[..n])
      + [UpdateSet(m.tableName, Assignments(m, NonKeyFields(m, batch[n]), |UpdateParameters(m, batch[..n])|),
                   m.primaryKeyField, keys[n])]
  }

  /** The batch UPDATE, or the error of the first record that cannot be updated. */
  function UpdateCommand(m: DynamicModel, batch: seq<Record>): Result<Command, SqlError> {
    var e := FirstError(UpdateErrors(m, batch));
    if e.Some? then Failure(e.value)
    else
      NoUpdateErrors(m, batch);
      Success(Command(UpdateStatements(m, batch, KeyValues(m, batch)), UpdateParameters(m, batch)))
  }

  lemma NoUpdateErrors(m: DynamicModel, batch: seq<Record>)
    requires FirstError(UpdateErrors(m, batch)).None?
    ensures forall p :: 0 <= p < |batch| ==> NonKeyFields(m, batch[p]) != [] && Lookup(batch[p], m.primaryKeyField).Some?
  {
    FirstErrorNone(UpdateErrors(m, batch));
    forall p | 0 <= p < |batch|
      ensures NonKeyFields(m, batch[p]) != [] && Lookup(batch[p], m.primaryKeyField).Some?
    {
      assert UpdateErrors(m, batch)[p].None?;
    }
  }

  /** What the per-record loop of the UPDATE knows after the first `i` fields of `obj`. */
  ghost predicate SetFragmentsUpTo(m: DynamicModel, obj: Record, counter: nat, parameters: seq<Value>,
                                   i: nat, fragments: seq<Assignment>, counter': nat, parameters': seq<Value>)
    requires i <= |obj|
  {
    var done := NonKeyFields(m, obj[..i]);
    && fragments == Assignments(m, done, counter)
    && parameters' == parameters + BoundValues(done)
    && counter' == counter + |BoundValues(done)|
  }

  lemma AppendAssignment(m: DynamicModel, fs: Record, f: Field, start: nat)
    ensures BoundValues(fs + [f]) == BoundValues(fs) + (if f.value.Null? then [] else [f.value])
    ensures Assignments(m, fs + [f], start)
         == Assignments(m, fs, start)
            + [if f.value.Null? then AssignNull(f.key) else AssignParam(f.key, Placeholder(m, start + |BoundValues(fs)|))]
  {
    assert (fs + [f])[..|fs|] == fs;
  }

  /** One field of the UPDATE's per-record loop: the key is skipped, null is inlined, any other value is bound. */
  lemma SetFragmentStep(m: DynamicModel, obj: Record, counter: nat, parameters: seq<Value>,
                        i: nat, fragments: seq<Assignment>, counter': nat, parameters': seq<Value>)
    requires i < |obj|
    requires SetFragmentsUpTo(m, obj, counter, parameters, i, fragments, counter', parameters')
    ensures IsPrimaryKey(m, obj[i].key) ==>
              SetFragmentsUpTo(m, obj, counter, parameters, i + 1, fragments, counter', parameters')
    ensures !IsPrimaryKey(m, obj[i].key) && obj[i].value.Null? ==>
              SetFragmentsUpTo(m, obj, counter, parameters, i + 1, fragments + [AssignNull(obj[i].key)], counter', parameters')
    ensures !IsPrimaryKey(m, obj[i].key) && !obj[i].value.Null? ==>
              SetFragmentsUpTo(m, obj, counter, parameters, i + 1,
                               fragments + [AssignParam(obj[i].key, Placeholder(m, counter'))], counter' + 1,
                               parameters' + [obj[i].value])
  {
    var done := NonKeyFields(m, obj[..i]);
    NonKeyFieldsStep(m, obj, i);
    if IsPrimaryKey(m, obj[i].key) {
      assert done + [] == done;
    } else {
      AppendAssignment(m, done, obj[i], counter);
      if !obj[i].value.Null? {
        assert parameters' + [obj[i].value] == parameters + (BoundValues(done) + [obj[i].value]);
      } else {
        assert BoundValues(done) + [] == BoundValues(done);
      }
    }
  }

  /**
   * The per-record loop of `CreateUpdateCommandForBatch`: one SET fragment per
   * non-key field of `obj`, a parameter for each non-null value, numbered from
   * `counter` on.
   */
  method AddSetFragments(m: DynamicModel, obj: Record, counter: nat, parameters: seq<Value>)
    returns (fieldSetFragments: seq<Assignment>, counter': nat, parameters': seq<Value>)
    ensures fieldSetFragments == Assignments(m, NonKeyFields(m, obj), counter)
    ensures parameters' == parameters + BoundValues(NonKeyFields(m, obj))
    ensures counter' == counter + |BoundValues(NonKeyFields(m, obj))|
  {
    fieldSetFragments, counter', parameters' := [], counter, parameters;
    for i := 0 to |obj|
      invariant SetFragmentsUpTo(m, obj, counter, parameters, i, fieldSetFragments, counter', parameters')
    {
      SetFragmentStep(m, obj, counter, parameters, i, fieldSetFragments, counter', parameters');
      var val := obj[i].value;
      if !EqualsIgnoreCase(obj[i].key, m.primaryKeyField) {
        if val == Null {
          fieldSetFragments := fieldSetFragments + [AssignNull(obj[i].key)];
        } else {
          parameters' := parameters' + [val];
          fieldSetFragments := fieldSetFragments + [AssignParam(obj[i].key, Placeholder(m, counter'))];
          counter' := counter' + 1;
        }
      }
    }
    assert obj[..|obj|] == obj;
  }

  lemma UpdateStep(m: DynamicModel, batch: seq<Record>, q: nat)
    requires q < |batch|
    requires forall p :: 0 <= p <= q ==> Lookup(batch[p], m.primaryKeyField).Some?
    ensures UpdateParameters(m, batch[..q + 1]) == UpdateParameters(m, batch[..q]) + BoundValues(NonKeyFields(m, batch[q]))
    ensures UpdateStatements(m, batch[..q + 1], KeyValues(m, batch[..q + 1]))
         == UpdateStatements(m, batch[..q], KeyValues(m, batch[..q]))
            + [UpdateSet(m.tableName, Assignments(m, NonKeyFields(m, batch[q]), |UpdateParameters(m, batch[..q])|),
                         m.primaryKeyField, Lookup(batch[q], m.primaryKeyField).value)]
  {
    assert batch[..q + 1][..q] == batch[..q];
    KeyValuesStep(m, batch, q);
    assert KeyValues(m, batch[..q + 1])[..q] == KeyValues(m, batch[..q]);
  }

  lemma UpdatablePrefix(m: DynamicModel, batch: seq<Record>, q: nat)
    requires q < |batch|
    requires forall p :: 0 <= p < q ==> UpdateFailure(m, batch[p], p).None?
    requires NonKeyFields(m, batch[q]) != [] && Lookup(batch[q], m.primaryKeyField).Some?
    ensures forall p :: 0 <= p <= q ==> UpdateFailure(m, batch[p], p).None?
  {
  }

  /**
   * When records before q are fine, record q's fault is the error: a record with
   * nothing to SET is reported before a missing key.
   */
  lemma UpdateFailsAt(m: DynamicModel, batch: seq<Record>, q: nat)
    requires q < |batch|
    requires forall p :: 0 <= p < q ==> NonKeyFields(m, batch[p]) != [] && Lookup(batch[p], m.primaryKeyField).Some?
    requires NonKeyFields(m, batch[q]) == [] || Lookup(batch[q], m.primaryKeyField).None?
    ensures UpdateCommand(m, batch)
         == Failure(if NonKeyFields(m, batch[q]) == [] then NoFieldsToUpdate(q) else MissingKey(q))
  {
    var e := UpdateErrors(m, batch);
    assert forall p :: 0 <= p < q ==> e[p].None?;
    FirstErrorAt(e, q);
  }

  /** With every record fine the batch UPDATE is built from all of them. */
  lemma UpdateAccepted(m: DynamicModel, batch: seq<Record>)
    requires forall p :: 0 <= p < |batch| ==> UpdateFailure(m, batch[p], p).None?
    ensures forall p :: 0 <= p < |batch| ==> Lookup(batch[p], m.primaryKeyField).Some?
    ensures UpdateCommand(m, batch)
         == Success(Command(UpdateStatements(m, batch, KeyValues(m, batch)), UpdateParameters(m, batch)))
  {
    FirstErrorNone(UpdateErrors(m, batch));
  }

  /**
   * `CreateUpdateCommandForBatch`: one UPDATE per record, the counter shared by
   * the whole batch; a record with nothing to SET, or without its key, ends it.
   */
  method CreateUpdateCommandForBatch(m: DynamicModel, batch: seq<Record>) returns (result: Result<Command, SqlError>)
    ensures result == UpdateCommand(m, batch)
  {
    var statements: seq<Statement> := [];
    var parameters: seq<Value> := [];
    var counter: nat := 0;
    for q := 0 to |batch|
      invariant forall p :: 0 <= p < q ==> UpdateFailure(m, batch[p], p).None?
      invariant forall p :: 0 <= p < q ==> Lookup(batch[p], m.primaryKeyField).Some?
      invariant parameters == UpdateParameters(m, batch[..q])
      invariant counter == |parameters|
      invariant statements == UpdateStatements(m, batch[..q], KeyValues(m, batch[..q]))
    {
      var obj := batch[q];
      var fieldSetFragments;
      fieldSetFragments, counter, parameters := AddSetFragments(m, obj, counter, parameters);
      if |fieldSetFragments| > 0 {
        var key := Lookup(obj, m.primaryKeyField);
        if key.None? {
          UpdateFailsAt(m, batch, q);
          return Failure(MissingKey(q));
        }
        UpdateStep(m, batch, q);
        statements := statements + [UpdateSet(m.tableName, fieldSetFragments, m.primaryKeyField, key.value)];
        UpdatablePrefix(m, batch, q);
      } else {
        UpdateFailsAt(m, batch, q);
        return Failure(NoFieldsToUpdate(q));
      }
    }
    UpdateAccepted(m, batch);
    assert batch[..|batch|] == batch;
    result := Success(Command(statements, parameters));
  }

  // ---------------------------------------------------------------- DELETE

  /** Why a record cannot be deleted: it has no field named exactly like the primary key. */
  function DeleteErrors(m: DynamicModel, batch: seq<Record>): seq<Option<SqlError>> {
    seq(|batch|, p requires 0 <= p < |batch| =>
      if Lookup(batch[p], m.primaryKeyField).None? then Some(MissingKey(p)) else None)
  }

  lemma NoDeleteErrors(m: DynamicModel, batch: seq<Record>)
    requires FirstError(DeleteErrors(m, batch)).None?
    ensures forall p :: 0 <= p < |batch| ==> Lookup(batch[p], m.primaryKeyField).Some?
  {
    FirstErrorNone(DeleteErrors(m, batch));
    forall p | 0 <= p < |batch| ensures Lookup(batch[p], m.primaryKeyField).Some? {
      assert DeleteErrors(m, batch)[p].None?;
    }
  }

  /** The text the loop appends: `PrefixParameterName(counter + ",")` for each of `n` records. */
  function DeleteListed(m: DynamicModel, n: nat): string {
    if n == 0 then [] else DeleteListed(m, n - 1) + m.prefixParameterName(NatToString(n - 1) + ",")
  }

  /** The IN list: the appended text with its last character removed, if there is any. */
  function DeleteList(m: DynamicModel, n: nat): string {
    var listed := DeleteListed(m, n);
    if |listed| > 0 then listed[..|listed| - 1] else listed
  }

  /** The batch DELETE: a single statement, one parameter per record; or the first record without its key. */
  function DeleteCommand(m: DynamicModel, batch: seq<Record>): Result<Command, SqlError> {
    var e := FirstError(DeleteErrors(m, batch));
    if e.Some? then Failure(e.value)
    else
      NoDeleteErrors(m, batch);
      Success(Command([DeleteWhereIn(m.tableName, m.primaryKeyField, DeleteList(m, |batch|))], KeyValues(m, batch)))
  }

  /**
   * `CreateDeleteCommandForBatch`: binds every record's primary-key value and
   * appends its placeholder and a comma, then drops the last character.
   */
  method CreateDeleteCommandForBatch(m: DynamicModel, batch: seq<Record>) returns (result: Result<Command, SqlError>)
    ensures result == DeleteCommand(m, batch)
  {
    var parameters: seq<Value> := [];
    var sql: string := [];
    var counter: nat := 0;
    for q := 0 to |batch|
      invariant forall p :: 0 <= p < q ==> Lookup(batch[p], m.primaryKeyField).Some?
      invariant parameters == KeyValues(m, batch[..q])
      invariant sql == DeleteListed(m, q)
      invariant counter == q
    {
      var key := Lookup(batch[q], m.primaryKeyField);
      if key.None? {
        FirstErrorAt(DeleteErrors(m, batch), q);
        return Failure(MissingKey(q));
      }
      KeyValuesStep(m, batch, q);
      parameters := parameters + [key.value];
      sql := sql + m.prefixParameterName(NatToString(counter) + ",");
      counter := counter + 1;
    }
    if |sql| > 0 {
      sql := sql[..|sql| - 1];
    }
    FirstErrorNone(DeleteErrors(m, batch));
    assert batch[..|batch|] == batch;
    result := Success(Command([DeleteWhereIn(m.tableName, m.primaryKeyField, sql)], parameters));
  }
}
