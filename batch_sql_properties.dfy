/// What the batch synthesizer promises about the commands it builds: one
/// statement per record, placeholders numbered consecutively across the batch,
/// each placeholder bound to the value of the field it stands for, nulls inlined
/// by UPDATE, and a DELETE list of one placeholder per record.
module BatchSqlProperties {
  import opened Records
  import opened BatchSql

  // ---------------------------------------------------------------- shared facts

  lemma SliceOfSlice<T>(s: seq<T>, n: nat, q: nat)
    requires q < n <= |s|
    ensures s[..n][..q] == s[..q]
    ensures s[..n][q] == s[q]
  {
  }

  lemma IndexBeforeLast<T>(front: seq<T>, last: T, q: nat)
    requires q < |front|
    ensures (front + [last])[q] == front[q]
  {
  }

  lemma IndexInMiddle<T>(front: seq<T>, middle: seq<T>, back: seq<T>, i: nat)
    requires i < |middle|
    ensures |front| + i < |front + (middle + back)|
    ensures (front + (middle + back))[|front| + i] == middle[i]
  {
  }

  lemma {:induction false} ValuesAt(fs: Record, k: nat)
    requires k < |fs|
    ensures Values(fs)[k] == fs[k].value
  {
    if k < |fs| - 1 {
      ValuesAt(fs[..|fs| - 1], k);
    }
  }

  /** The k-th of a run of placeholders carries number start + k. */
  lemma {:induction false} PlaceholdersAt(m: DynamicModel, start: nat, count: nat, k: nat)
    requires k < count
    ensures Placeholders(m, start, count)[k] == Placeholder(m, start + k)
  {
    if k < count - 1 {
      PlaceholdersAt(m, start, count - 1, k);
    }
  }

  /** Two adjacent runs of placeholders make one run. */
  lemma {:induction false} PlaceholdersSplit(m: DynamicModel, start: nat, b: nat, c: nat)
    ensures Placeholders(m, start, b) + Placeholders(m, start + b, c) == Placeholders(m, start, b + c)
  {
    if c > 0 {
      PlaceholdersSplit(m, start, b, c - 1);
    }
  }

  /** Under a numbering that keeps its input (every dialect prefixes it), distinct counters give distinct placeholders. */
  lemma PlaceholdersDistinct(m: DynamicModel, prefix: string, count: nat, i: nat, j: nat)
    requires forall s :: m.prefixParameterName(s) == prefix + s
    requires i < j < count
    ensures Placeholders(m, 0, count)[i] != Placeholders(m, 0, count)[j]
  {
    PlaceholdersAt(m, 0, count, i);
    PlaceholdersAt(m, 0, count, j);
    NatToStringInjective(i, j);
    assert Placeholder(m, i) == prefix + NatToString(i);
    assert Placeholder(m, j) == prefix + NatToString(j);
    assert (prefix + NatToString(i))[|prefix|..] == NatToString(i);
    assert (prefix + NatToString(j))[|prefix|..] == NatToString(j);
  }

  /** The fields left once the primary key is removed are exactly the record's fields not named like it. */
  lemma {:induction false} NonKeyFieldsMembers(m: DynamicModel, r: Record, f: Field)
    ensures f in NonKeyFields(m, r) <==> f in r && !IsPrimaryKey(m, f.key)
  {
    if r != [] {
      var n := |r| - 1;
      NonKeyFieldsMembers(m, r[..n], f);
      assert r == r[..n] + [r[n]];
    }
  }

  /** Removing the primary key never adds a field and leaves no field named like the key. */
  lemma {:induction false} NonKeyFieldsBounded(m: DynamicModel, r: Record)
    ensures |NonKeyFields(m, r)| <= |r|
    ensures forall k :: 0 <= k < |NonKeyFields(m, r)| ==> !IsPrimaryKey(m, NonKeyFields(m, r)[k].key)
  {
    if r != [] {
      NonKeyFieldsBounded(m, r[..|r| - 1]);
    }
  }

  /** The placeholders one statement carries: an INSERT's values, an UPDATE's bound fragments, none in a DELETE's list text. */
  function OwnPlaceholders(statement: Statement): seq<string> {
    match statement
    case InsertInto(_, _, placeholders) => placeholders
    case UpdateSet(_, assignments, _, _) => ParamPlaceholders(assignments)
    case DeleteWhereIn(_, _, _) => []
  }

  /** The placeholders a list of statements carries, in text order. */
  function StatementPlaceholders(statements: seq<Statement>): seq<string> {
    if statements == [] then []
    else
      var n := |statements| - 1;
      StatementPlaceholders(statements[..n]) + OwnPlaceholders(statements[n])
  }

  /** The placeholders of the bound fragments of a SET list. */
  function ParamPlaceholders(assignments: seq<Assignment>): seq<string> {
    if assignments == [] then []
    else
      var n := |assignments| - 1;
      ParamPlaceholders(assignments[..n])
      + match assignments[n]
        case AssignNull(_) => []
        case AssignParam(_, placeholder) => [placeholder]
  }

  lemma StatementPlaceholdersSnoc(statements: seq<Statement>, s: Statement)
    ensures StatementPlaceholders(statements + [s]) == StatementPlaceholders(statements) + OwnPlaceholders(s)
  {
    assert (statements + [s])[..|statements|] == statements;
  }

  /** A statement whose placeholders continue a consecutive run extends the run. */
  lemma PlaceholdersContinue(m: DynamicModel, statements: seq<Statement>, s: Statement, before: nat, count: nat)
    requires StatementPlaceholders(statements) == Placeholders(m, 0, before)
    requires OwnPlaceholders(s) == Placeholders(m, before, count)
    ensures StatementPlaceholders(statements + [s]) == Placeholders(m, 0, before + count)
  {
    StatementPlaceholdersSnoc(statements, s);
    PlaceholdersSplit(m, 0, before, count);
  }

  // ---------------------------------------------------------------- INSERT

  lemma {:induction false} InsertStatementsLength(m: DynamicModel, fields: seq<string>, batch: seq<Record>, includePrimaryKey: bool)
    ensures |InsertStatements(m, fields, batch, includePrimaryKey)| == |batch|
  {
    if batch != [] {
      InsertStatementsLength(m, fields, batch[..|batch| - 1], includePrimaryKey);
    }
  }

  /** Statement q of the batch INSERT: the shared field list, and placeholders numbered after those of the records before it. */
  lemma {:induction false} InsertStatementAt(m: DynamicModel, fields: seq<string>, batch: seq<Record>, includePrimaryKey: bool, q: nat)
    requires q < |batch|
    ensures |InsertStatements(m, fields, batch, includePrimaryKey)| == |batch|
    ensures InsertStatements(m, fields, batch, includePrimaryKey)[q]
         == InsertInto(m.tableName, fields,
                       Placeholders(m, InsertOffset(m, batch, includePrimaryKey, q), |InsertedFields(m, batch[q], includePrimaryKey)|))
  {
    var n := |batch| - 1;
    var pre := InsertStatements(m, fields, batch[..n], includePrimaryKey);
    var last := InsertInto(m.tableName, fields,
                           Placeholders(m, |InsertParameters(m, batch[..n], includePrimaryKey)|,
                                        |InsertedFields(m, batch[n], includePrimaryKey)|));
    InsertStatementsLength(m, fields, batch, includePrimaryKey);
    InsertStatementsLength(m, fields, batch[..n], includePrimaryKey);
    assert InsertStatements(m, fields, batch, includePrimaryKey) == pre + [last];
    if q < n {
      InsertStatementAt(m, fields, batch[..n], includePrimaryKey, q);
      SliceOfSlice(batch, n, q);
      IndexBeforeLast(pre, last, q);
    }
  }

  /** The parameters of two batches run one after the other are those of the first followed by those of the second. */
  lemma {:induction false} InsertParametersAppend(m: DynamicModel, a: seq<Record>, b: seq<Record>, includePrimaryKey: bool)
    ensures InsertParameters(m, a + b, includePrimaryKey) == InsertParameters(m, a, includePrimaryKey) + InsertParameters(m, b, includePrimaryKey)
  {
    if b == [] {
      assert a + b == a;
    } else {
      var n := |b| - 1;
      var last := Values(InsertedFields(m, b[n], includePrimaryKey));
      assert (a + b)[..|a + b| - 1] == a + b[..n];
      assert (a + b)[|a + b| - 1] == b[n];
      InsertParametersAppend(m, a, b[..n], includePrimaryKey);
      var front := InsertParameters(m, a, includePrimaryKey);
      var middle := InsertParameters(m, b[..n], includePrimaryKey);
      assert InsertParameters(m, a + b, includePrimaryKey) == (front + middle) + last;
      assert (front + middle) + last == front + (middle + last);
    }
  }

  /** Parameter InsertOffset(q) + k is the k-th inserted value of record q, null or not. */
  lemma InsertParameterAt(m: DynamicModel, batch: seq<Record>, includePrimaryKey: bool, q: nat, k: nat)
    requires q < |batch| && k < |InsertedFields(m, batch[q], includePrimaryKey)|
    ensures InsertOffset(m, batch, includePrimaryKey, q) + k < |InsertParameters(m, batch, includePrimaryKey)|
    ensures InsertParameters(m, batch, includePrimaryKey)[InsertOffset(m, batch, includePrimaryKey, q) + k]
         == InsertedFields(m, batch[q], includePrimaryKey)[k].value
  {
    var fs := InsertedFields(m, batch[q], includePrimaryKey);
    InsertParametersAround(m, batch, includePrimaryKey, q);
    IndexInMiddle(InsertParameters(m, batch[..q], includePrimaryKey), Values(fs), InsertParameters(m, batch[q + 1..], includePrimaryKey), k);
    ValuesAt(fs, k);
  }

  /** The parameters of a batch: those of the records before q, those of record q, those of the records after it. */
  lemma InsertParametersAround(m: DynamicModel, batch: seq<Record>, includePrimaryKey: bool, q: nat)
    requires q < |batch|
    ensures InsertParameters(m, batch, includePrimaryKey)
         == InsertParameters(m, batch[..q], includePrimaryKey) + (Values(InsertedFields(m, batch[q], includePrimaryKey)) + InsertParameters(m, batch[q + 1..], includePrimaryKey))
  {
    var after := batch[q + 1..];
    assert batch == batch[..q] + ([batch[q]] + after);
    InsertParametersAppend(m, batch[..q], [batch[q]] + after, includePrimaryKey);
    InsertParametersAppend(m, [batch[q]], after, includePrimaryKey);
    InsertParametersOfOne(m, batch[q], includePrimaryKey);
  }

  lemma InsertParametersOfOne(m: DynamicModel, r: Record, includePrimaryKey: bool)
    ensures InsertParameters(m, [r], includePrimaryKey) == Values(InsertedFields(m, r, includePrimaryKey))
  {
    assert [r][..0] == [];
  }

  /** A built INSERT is the statements and parameters synthesized from the batch, over the first record's fields. */
  lemma InsertCommandValue(m: DynamicModel, batch: seq<Record>, includePrimaryKey: bool)
    requires InsertCommand(m, batch, includePrimaryKey).Success?
    ensures batch != []
    ensures var fields := FieldNames(InsertedFields(m, batch[0], includePrimaryKey));
            && fields != []
            && InsertCommand(m, batch, includePrimaryKey).value
               == Command(InsertStatements(m, fields, batch, includePrimaryKey), InsertParameters(m, batch, includePrimaryKey))
  {
  }

  /**
   * The batch INSERT binds every placeholder to the value it stands for: the k-th
   * placeholder of statement q is number j + k, where j counts the values of the
   * records before q, and parameter j + k is the k-th inserted value of record q.
   */
  lemma InsertBinding(m: DynamicModel, fields: seq<string>, batch: seq<Record>, includePrimaryKey: bool, q: nat, k: nat)
    requires q < |batch| && k < |InsertedFields(m, batch[q], includePrimaryKey)|
    ensures |InsertStatements(m, fields, batch, includePrimaryKey)| == |batch|
    ensures InsertStatements(m, fields, batch, includePrimaryKey)[q].InsertInto?
    ensures InsertStatements(m, fields, batch, includePrimaryKey)[q].table == m.tableName
    ensures InsertStatements(m, fields, batch, includePrimaryKey)[q].fields == fields
    ensures |InsertStatements(m, fields, batch, includePrimaryKey)[q].placeholders|
         == |InsertedFields(m, batch[q], includePrimaryKey)|
    ensures InsertStatements(m, fields, batch, includePrimaryKey)[q].placeholders[k]
         == Placeholder(m, InsertOffset(m, batch, includePrimaryKey, q) + k)
    ensures InsertOffset(m, batch, includePrimaryKey, q) + k < |InsertParameters(m, batch, includePrimaryKey)|
    ensures InsertParameters(m, batch, includePrimaryKey)[InsertOffset(m, batch, includePrimaryKey, q) + k]
         == InsertedFields(m, batch[q], includePrimaryKey)[k].value
  {
    InsertStatementAt(m, fields, batch, includePrimaryKey, q);
    PlaceholdersAt(m, InsertOffset(m, batch, includePrimaryKey, q), |InsertedFields(m, batch[q], includePrimaryKey)|, k);
    InsertParameterAt(m, batch, includePrimaryKey, q, k);
  }

  /** Across the whole batch the INSERT's placeholders are numbers 0, 1, 2, ... in text order, one per parameter. */
  lemma {:induction false} InsertPlaceholdersConsecutive(m: DynamicModel, fields: seq<string>, batch: seq<Record>, includePrimaryKey: bool)
    ensures StatementPlaceholders(InsertStatements(m, fields, batch, includePrimaryKey))
         == Placeholders(m, 0, |InsertParameters(m, batch, includePrimaryKey)|)
  {
    if batch != [] {
      var n := |batch| - 1;
      var before := |InsertParameters(m, batch[..n], includePrimaryKey)|;
      var count := |InsertedFields(m, batch[n], includePrimaryKey)|;
      var pre := InsertStatements(m, fields, batch[..n], includePrimaryKey);
      var last := InsertInto(m.tableName, fields, Placeholders(m, before, count));
      assert InsertStatements(m, fields, batch, includePrimaryKey) == pre + [last];
      assert |InsertParameters(m, batch, includePrimaryKey)| == before + count;
      InsertPlaceholdersConsecutive(m, fields, batch[..n], includePrimaryKey);
      PlaceholdersContinue(m, pre, last, before, count);
    }
  }

  /**
   * The field list comes from the first record alone: statement q has as many
   * placeholders as fields exactly when record q has as many inserted fields as
   * the first record.
   */
  lemma InsertShapeAgreement(m: DynamicModel, batch: seq<Record>, includePrimaryKey: bool, q: nat)
    requires InsertCommand(m, batch, includePrimaryKey).Success?
    requires q < |batch|
    ensures var c := InsertCommand(m, batch, includePrimaryKey).value;
            && |c.statements| == |batch|
            && c.statements[q].InsertInto?
            && (|c.statements[q].placeholders| == |c.statements[q].fields| <==>
                  |InsertedFields(m, batch[q], includePrimaryKey)| == |InsertedFields(m, batch[0], includePrimaryKey)|)
  {
    var fields := FieldNames(InsertedFields(m, batch[0], includePrimaryKey));
    InsertStatementAt(m, fields, batch, includePrimaryKey, q);
  }


  // ---------------------------------------------------------------- UPDATE

  /** The values bound for some fields are those bound for the first k of them followed by those for the rest. */
  lemma {:induction false} BoundValuesSplit(fs: Record, k: nat)
    requires k <= |fs|
    ensures BoundValues(fs) == BoundValues(fs[..k]) + BoundValues(fs[k..])
  {
    if k < |fs| {
      var n := |fs| - 1;
      var rest := fs[k..];
      var last := if fs[n].value.Null? then [] else [fs[n].value];
      BoundValuesSplit(fs[..n], k);
      assert fs[..n][..k] == fs[..k];
      assert rest[..|rest| - 1] == fs[..n][k..];
      assert BoundValues(rest) == BoundValues(fs[..n][k..]) + last;
      assert BoundValues(fs) == BoundValues(fs[..n]) + last;
    } else {
      assert fs[..k] == fs;
    }
  }

  /** A non-null value is bound, right after the values bound for the fields before it. */
  lemma BoundValueAt(fs: Record, k: nat)
    requires k < |fs| && fs[k].value != Null
    ensures |BoundValues(fs[..k])| < |BoundValues(fs)|
    ensures BoundValues(fs)[|BoundValues(fs[..k])|] == fs[k].value
  {
    BoundValuesSplit(fs, k + 1);
    assert fs[..k + 1][..k] == fs[..k];
  }

  /**
   * Fragment k of a SET list belongs to field k: a null value is written as
   * `Key = NULL`; any other value gets the number after those of the non-null
   * values before it.
   */
  lemma {:induction false} AssignmentAt(m: DynamicModel, fs: Record, start: nat, k: nat)
    requires k < |fs|
    ensures var a := Assignments(m, fs, start)[k];
            var j := |BoundValues(fs[..k])|;
            && a.field == fs[k].key
            && (fs[k].value.Null? ==> a == AssignNull(fs[k].key))
            && (!fs[k].value.Null? ==> a == AssignParam(fs[k].key, Placeholder(m, start + j)))
  {
    var n := |fs| - 1;
    var pre := Assignments(m, fs[..n], start);
    var last := if fs[n].value.Null? then AssignNull(fs[n].key)
                else AssignParam(fs[n].key, Placeholder(m, start + |BoundValues(fs[..n])|));
    assert Assignments(m, fs, start) == pre + [last];
    if k < n {
      AssignmentAt(m, fs[..n], start, k);
      SliceOfSlice(fs, n, k);
      IndexBeforeLast(pre, last, k);
    }
  }

  /** A null value is never bound as a parameter. */
  lemma {:induction false} NullsNotBound(fs: Record)
    ensures Null !in BoundValues(fs)
  {
    if fs != [] {
      NullsNotBound(fs[..|fs| - 1]);
    }
  }

  /** A SET list's bound fragments carry consecutive numbers from `start`, one per non-null value. */
  lemma {:induction false} AssignmentsPlaceholders(m: DynamicModel, fs: Record, start: nat)
    ensures ParamPlaceholders(Assignments(m, fs, start)) == Placeholders(m, start, |BoundValues(fs)|)
  {
    if fs != [] {
      var n := |fs| - 1;
      var before := Assignments(m, fs[..n], start);
      AssignmentsPlaceholders(m, fs[..n], start);
      var a := if fs[n].value.Null? then AssignNull(fs[n].key)
               else AssignParam(fs[n].key, Placeholder(m, start + |BoundValues(fs[..n])|));
      assert (before + [a])[..n] == before;
    }
  }

  lemma UpdateParametersNoNull(m: DynamicModel, batch: seq<Record>)
    ensures Null !in UpdateParameters(m, batch)
  {
    if batch != [] {
      UpdateParametersNoNull(m, batch[..|batch| - 1]);
      NullsNotBound(NonKeyFields(m, batch[|batch| - 1]));
    }
  }

  /** How many parameters the records before q bind. */
  function UpdateOffset(m: DynamicModel, batch: seq<Record>, q: nat): nat
    requires q <= |batch|
  {
    |UpdateParameters(m, batch[..q])|
  }

  lemma {:induction false} UpdateStatementsLength(m: DynamicModel, batch: seq<Record>, keys: seq<Value>)
    requires |keys| == |batch|
    ensures |UpdateStatements(m, batch, keys)| == |batch|
  {
    if batch != [] {
      UpdateStatementsLength(m, batch[..|batch| - 1], keys[..|batch| - 1]);
    }
  }

  /** Statement q of the batch UPDATE: record q's SET list numbered after the records before it, and key q in the WHERE clause. */
  lemma {:induction false} UpdateStatementAt(m: DynamicModel, batch: seq<Record>, keys: seq<Value>, q: nat)
    requires |keys| == |batch| && q < |batch|
    ensures |UpdateStatements(m, batch, keys)| == |batch|
    ensures UpdateStatements(m, batch, keys)[q]
         == UpdateSet(m.tableName, Assignments(m, NonKeyFields(m, batch[q]), UpdateOffset(m, batch, q)),
                      m.primaryKeyField, keys[q])
  {
    var n := |batch| - 1;
    var pre := UpdateStatements(m, batch[..n], keys[..n]);
    var last := UpdateSet(m.tableName, Assignments(m, NonKeyFields(m, batch[n]), |UpdateParameters(m, batch[..n])|),
                          m.primaryKeyField, keys[n]);
    UpdateStatementsLength(m, batch, keys);
    UpdateStatementsLength(m, batch[..n], keys[..n]);
    assert UpdateStatements(m, batch, keys) == pre + [last];
    if q < n {
      UpdateStatementAt(m, batch[..n], keys[..n], q);
      SliceOfSlice(batch, n, q);
      SliceOfSlice(keys, n, q);
      IndexBeforeLast(pre, last, q);
    }
  }

  /** The parameters of two batches run one after the other are those of the first followed by those of the second. */
  lemma {:induction false} UpdateParametersAppend(m: DynamicModel, a: seq<Record>, b: seq<Record>)
    ensures UpdateParameters(m, a + b) == UpdateParameters(m, a) + UpdateParameters(m, b)
  {
    if b == [] {
      assert a + b == a;
    } else {
      var n := |b| - 1;
      var last := BoundValues(NonKeyFields(m, b[n]));
      assert (a + b)[..|a + b| - 1] == a + b[..n];
      assert (a + b)[|a + b| - 1] == b[n];
      UpdateParametersAppend(m, a, b[..n]);
      var front := UpdateParameters(m, a);
      var middle := UpdateParameters(m, b[..n]);
      assert UpdateParameters(m, a + b) == (front + middle) + last;
      assert (front + middle) + last == front + (middle + last);
    }
  }

  lemma UpdateCommandValue(m: DynamicModel, batch: seq<Record>)
    requires UpdateCommand(m, batch).Success?
    ensures forall p :: 0 <= p < |batch| ==> Lookup(batch[p], m.primaryKeyField).Some?
    ensures UpdateCommand(m, batch).value
         == Command(UpdateStatements(m, batch, KeyValues(m, batch)), UpdateParameters(m, batch))
  {
    NoUpdateErrors(m, batch);
  }

  /** Statement q of a built UPDATE: record q's SET list, numbered after the records before it, and its own key value. */
  lemma UpdateStatementOf(m: DynamicModel, batch: seq<Record>, q: nat)
    requires UpdateCommand(m, batch).Success?
    requires q < |batch|
    ensures var c := UpdateCommand(m, batch).value;
            && |c.statements| == |batch|
            && c.statements[q].UpdateSet?
            && c.statements[q].table == m.tableName
            && c.statements[q].assignments == Assignments(m, NonKeyFields(m, batch[q]), UpdateOffset(m, batch, q))
            && c.statements[q].keyField == m.primaryKeyField
            && Some(c.statements[q].keyValue) == Lookup(batch[q], m.primaryKeyField)
  {
    UpdateCommandValue(m, batch);
    var keys := KeyValues(m, batch);
    UpdateStatementAt(m, batch, keys, q);
    KeyValuesAt(m, batch, q);
  }

  /** Parameter UpdateOffset(q) + i of a built UPDATE is the i-th non-null, non-key value of record q. */
  lemma UpdateParameterAt(m: DynamicModel, batch: seq<Record>, q: nat, i: nat)
    requires q < |batch| && i < |BoundValues(NonKeyFields(m, batch[q]))|
    ensures UpdateOffset(m, batch, q) + i < |UpdateParameters(m, batch)|
    ensures UpdateParameters(m, batch)[UpdateOffset(m, batch, q) + i] == BoundValues(NonKeyFields(m, batch[q]))[i]
  {
    UpdateParametersAround(m, batch, q);
    IndexInMiddle(UpdateParameters(m, batch[..q]), BoundValues(NonKeyFields(m, batch[q])), UpdateParameters(m, batch[q + 1..]), i);
  }

  /** The parameters of a batch: those of the records before q, those of record q, those of the records after it. */
  lemma UpdateParametersAround(m: DynamicModel, batch: seq<Record>, q: nat)
    requires q < |batch|
    ensures UpdateParameters(m, batch)
         == UpdateParameters(m, batch[..q]) + (BoundValues(NonKeyFields(m, batch[q])) + UpdateParameters(m, batch[q + 1..]))
  {
    var after := batch[q + 1..];
    assert batch == batch[..q] + ([batch[q]] + after);
    UpdateParametersAppend(m, batch[..q], [batch[q]] + after);
    UpdateParametersAppend(m, [batch[q]], after);
    UpdateParametersOfOne(m, batch[q]);
  }

  lemma UpdateParametersOfOne(m: DynamicModel, r: Record)
    ensures UpdateParameters(m, [r]) == BoundValues(NonKeyFields(m, r))
  {
    assert [r][..0] == [];
  }

  /**
   * Fragment k of UPDATE statement q belongs to field k of record q (the key left
   * out): SET never names the key, and the fragment is `Key = NULL` exactly when
   * the value is null.
   */
  lemma UpdateFieldBinding(m: DynamicModel, batch: seq<Record>, keys: seq<Value>, q: nat, k: nat)
    requires |keys| == |batch| && q < |batch| && k < |NonKeyFields(m, batch[q])|
    ensures |UpdateStatements(m, batch, keys)| == |batch|
    ensures UpdateStatements(m, batch, keys)[q].UpdateSet?
    ensures |UpdateStatements(m, batch, keys)[q].assignments| == |NonKeyFields(m, batch[q])|
    ensures UpdateStatements(m, batch, keys)[q].assignments[k].field == NonKeyFields(m, batch[q])[k].key
    ensures !IsPrimaryKey(m, NonKeyFields(m, batch[q])[k].key)
    ensures NonKeyFields(m, batch[q])[k].value.Null? <==> UpdateStatements(m, batch, keys)[q].assignments[k].AssignNull?
  {
    var fs := NonKeyFields(m, batch[q]);
    UpdateStatementAt(m, batch, keys, q);
    AssignmentAt(m, fs, UpdateOffset(m, batch, q), k);
    NonKeyFieldsBounded(m, batch[q]);
  }

  /**
   * A non-null field k of record q is bound: its fragment carries placeholder number
   * j, counted over the non-null values before it, and parameter j is that value.
   */
  lemma UpdateValueBinding(m: DynamicModel, batch: seq<Record>, keys: seq<Value>, q: nat, k: nat, j: nat)
    requires |keys| == |batch| && q < |batch| && k < |NonKeyFields(m, batch[q])|
    requires NonKeyFields(m, batch[q])[k].value != Null
    requires j == UpdateOffset(m, batch, q) + |BoundValues(NonKeyFields(m, batch[q])[..k])|
    ensures |UpdateStatements(m, batch, keys)| == |batch|
    ensures UpdateStatements(m, batch, keys)[q].UpdateSet?
    ensures |UpdateStatements(m, batch, keys)[q].assignments| == |NonKeyFields(m, batch[q])|
    ensures UpdateStatements(m, batch, keys)[q].assignments[k]
         == AssignParam(NonKeyFields(m, batch[q])[k].key, Placeholder(m, j))
    ensures j < |UpdateParameters(m, batch)|
    ensures UpdateParameters(m, batch)[j] == NonKeyFields(m, batch[q])[k].value
  {
    var fs := NonKeyFields(m, batch[q]);
    var offset := UpdateOffset(m, batch, q);
    UpdateStatementAt(m, batch, keys, q);
    AssignmentAt(m, fs, offset, k);
    UpdateValueAt(m, batch, q, k, j);
  }

  /** Parameter j of a batch UPDATE is the value of a non-null field k of record q, j counted as in the SET list. */
  lemma UpdateValueAt(m: DynamicModel, batch: seq<Record>, q: nat, k: nat, j: nat)
    requires q < |batch| && k < |NonKeyFields(m, batch[q])|
    requires NonKeyFields(m, batch[q])[k].value != Null
    requires j == UpdateOffset(m, batch, q) + |BoundValues(NonKeyFields(m, batch[q])[..k])|
    ensures j < |UpdateParameters(m, batch)|
    ensures UpdateParameters(m, batch)[j] == NonKeyFields(m, batch[q])[k].value
  {
    var fs := NonKeyFields(m, batch[q]);
    BoundValueAt(fs, k);
    UpdateParameterAt(m, batch, q, |BoundValues(fs[..k])|);
  }

  /** Across the whole batch the UPDATE's placeholders are numbers 0, 1, 2, ... in text order, one per parameter. */
  lemma {:induction false} UpdatePlaceholdersConsecutive(m: DynamicModel, batch: seq<Record>, keys: seq<Value>)
    requires |keys| == |batch|
    ensures StatementPlaceholders(UpdateStatements(m, batch, keys)) == Placeholders(m, 0, |UpdateParameters(m, batch)|)
  {
    if batch != [] {
      var n := |batch| - 1;
      var before := |UpdateParameters(m, batch[..n])|;
      var fs := NonKeyFields(m, batch[n]);
      var pre := UpdateStatements(m, batch[..n], keys[..n]);
      var last := UpdateSet(m.tableName, Assignments(m, fs, before), m.primaryKeyField, keys[n]);
      assert UpdateStatements(m, batch, keys) == pre + [last];
      assert |UpdateParameters(m, batch)| == before + |BoundValues(fs)|;
      UpdatePlaceholdersConsecutive(m, batch[..n], keys[..n]);
      AssignmentsPlaceholders(m, fs, before);
      PlaceholdersContinue(m, pre, last, before, |BoundValues(fs)|);
    }
  }

  /** The batch UPDATE is built exactly when every record has something to SET and carries its primary key. */
  lemma UpdateSucceedsIff(m: DynamicModel, batch: seq<Record>)
    ensures UpdateCommand(m, batch).Success?
        <==> forall p :: 0 <= p < |batch| ==>
               NonKeyFields(m, batch[p]) != [] && Lookup(batch[p], m.primaryKeyField).Some?
  {
    FirstErrorNone(UpdateErrors(m, batch));
    if UpdateCommand(m, batch).Success? {
      NoUpdateErrors(m, batch);
    } else {
      var e := UpdateErrors(m, batch);
      var p :| 0 <= p < |e| && e[p].Some?;
      assert UpdateFailure(m, batch[p], p).Some?;
    }
  }

  // ---------------------------------------------------------------- DELETE

  /** Parameter q of the batch DELETE is record q's primary-key value, one per record. */
  lemma {:induction false} DeleteParameterAt(m: DynamicModel, batch: seq<Record>, q: nat)
    requires DeleteCommand(m, batch).Success?
    requires q < |batch|
    ensures var c := DeleteCommand(m, batch).value;
            && |c.statements| == 1
            && c.statements[0] == DeleteWhereIn(m.tableName, m.primaryKeyField, DeleteList(m, |batch|))
            && |c.parameters| == |batch|
            && Some(c.parameters[q]) == Lookup(batch[q], m.primaryKeyField)
  {
    NoDeleteErrors(m, batch);
    KeyValuesAt(m, batch, q);
  }

  lemma {:induction false} KeyValuesAt(m: DynamicModel, batch: seq<Record>, q: nat)
    requires forall p :: 0 <= p < |batch| ==> Lookup(batch[p], m.primaryKeyField).Some?
    requires q < |batch|
    ensures Some(KeyValues(m, batch)[q]) == Lookup(batch[q], m.primaryKeyField)
  {
    var n := |batch| - 1;
    if q < n {
      KeyValuesAt(m, batch[..n], q);
    }
  }

  /** The batch DELETE is built exactly when every record carries its primary key. */
  lemma DeleteSucceedsIff(m: DynamicModel, batch: seq<Record>)
    ensures DeleteCommand(m, batch).Success?
        <==> forall p :: 0 <= p < |batch| ==> Lookup(batch[p], m.primaryKeyField).Some?
  {
    FirstErrorNone(DeleteErrors(m, batch));
    if DeleteCommand(m, batch).Success? {
      NoDeleteErrors(m, batch);
    } else {
      var e := DeleteErrors(m, batch);
      var p :| 0 <= p < |e| && e[p].Some?;
      assert Lookup(batch[p], m.primaryKeyField).None?;
    }
  }

  /** An empty batch deletes with the list left empty: `IN ()`, and no parameter. */
  lemma DeleteEmptyBatch(m: DynamicModel)
    ensures DeleteCommand(m, []) == Success(Command([DeleteWhereIn(m.tableName, m.primaryKeyField, [])], []))
  {
    assert DeleteErrors(m, []) == [];
  }

  lemma {:induction false} JoinSnoc(separator: string, parts: seq<string>, x: string)
    requires parts != []
    ensures Join(separator, parts + [x]) == Join(separator, parts) + separator + x
  {
    if |parts| > 1 {
      JoinSnoc(separator, parts[1..], x);
      assert (parts + [x])[1..] == parts[1..] + [x];
    }
  }

  lemma {:induction false} DeleteListedJoined(m: DynamicModel, prefix: string, n: nat)
    requires forall s :: m.prefixParameterName(s) == prefix + s
    requires n > 0
    ensures DeleteListed(m, n) == Join(",", Placeholders(m, 0, n)) + ","
  {
    var last := m.prefixParameterName(NatToString(n - 1) + ",");
    assert last == prefix + NatToString(n - 1) + ",";
    assert Placeholder(m, n - 1) == prefix + NatToString(n - 1);
    if n > 1 {
      DeleteListedJoined(m, prefix, n - 1);
      JoinSnoc(",", Placeholders(m, 0, n - 1), Placeholder(m, n - 1));
    }
  }

  /**
   * When the dialect numbers a parameter by prefixing the counter (`@0`, `:0`),
   * appending "n," per record and dropping the last character leaves exactly the
   * placeholders joined by commas.
   */
  lemma DeleteListIsJoin(m: DynamicModel, prefix: string, n: nat)
    requires forall s :: m.prefixParameterName(s) == prefix + s
    ensures DeleteList(m, n) == Join(",", Placeholders(m, 0, n))
  {
    if n > 0 {
      DeleteListedJoined(m, prefix, n);
      var joined := Join(",", Placeholders(m, 0, n));
      assert (joined + ",")[..|joined|] == joined;
    }
  }
}
