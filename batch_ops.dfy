/// The batch operations of the extended model: `InsertBatch`, `UpdateBatch` and
/// `DeleteBatch`, and the `ToDictionary` conversion they start with.
///
/// The database is not part of this model. What an operation does to it is
/// recorded as a trace of events (opening the connection, beginning the
/// transaction, each scalar and non-query execution, the commit) interleaved
/// with the calls of the after-hooks `Inserted`, `Updated` and `Deleted`.
/// What the database answers is a parameter: the value the k-th sequence
/// query returns and the row count a command reports. A transaction whose
/// trace has no `Commit` is rolled back when it is disposed.
module BatchOps {
  import opened Records
  import opened BatchSql
  import BatchSqlProperties

  /**
   * The parts of a model object the batch operations read: the synthesizer's
   * view of it, the sequence settings, and the overridable hooks, each taken as
   * a function of the batch it is called with. `validate` yields the `Errors`
   * list `IsValid` fills; the batch is valid when it is empty.
   */
  datatype Configuration = Configuration(
    sql: DynamicModel,
    sequenceValueCallsBeforeMainInsert: bool,
    primaryKeyFieldSequence: string,
    validate: seq<Record> -> seq<string>,
    beforeSave: seq<Record> -> bool,
    beforeDelete: seq<Record> -> bool)

  /** What the database answers: the k-th value the sequence query returns, and the rows a command affects. */
  datatype Database = Database(sequenceValue: nat -> int, rowsAffected: Command -> int)

  datatype Event =
    | OpenConnection
    | BeginTransaction
    | NextSequenceValue(value: int)   // `ExecuteScalar` of the identity retrieval statement
    | Execute(command: Command)       // `ExecuteNonQuery` of the batch command
    | Commit
    | Inserted(batch: seq<Record>)
    | Updated(batch: seq<Record>)
    | Deleted(batch: seq<Record>)

  /** An exception the operation lets escape. */
  datatype Exception =
    | InvalidOperation(message: string)   // thrown when `IsValid` fails
    | CommandError(error: SqlError)       // thrown while the batch command is built

  datatype Outcome = Returned(count: int) | Threw(exception: Exception)

  /** One call of a batch operation: how it ended and what it did, in order. */
  datatype Run = Run(outcome: Outcome, trace: seq<Event>)

  /** How many times `e` occurs in `trace`. */
  function Count(trace: seq<Event>, e: Event): nat {
    if trace == [] then 0
    else Count(trace[..|trace| - 1], e) + (if trace[|trace| - 1] == e then 1 else 0)
  }

  lemma {:induction false} CountAppend(a: seq<Event>, b: seq<Event>, e: Event)
    ensures Count(a + b, e) == Count(a, e) + Count(b, e)
  {
    if b != [] {
      var n := |b| - 1;
      var last := b[n];
      CountAppend(a, b[..n], e);
      assert (a + b)[..|a + b| - 1] == a + b[..n];
      assert (a + b)[|a + b| - 1] == last;
    } else {
      assert a + b == a;
    }
  }

  /**
   * The transaction every batch operation runs once it is past its hooks:
   * the `started` events, then, if the command could be built, its execution,
   * the events before the commit, the commit and the events after it. A
   * command that cannot be built throws with the transaction uncommitted.
   */
  function Transaction(started: seq<Event>, built: Result<Command, SqlError>, beforeCommit: seq<Event>,
                       afterCommit: seq<Event>, db: Database): (run: Run)
    ensures |started| <= |run.trace| && run.trace[..|started|] == started
    ensures run.outcome.Returned? <==> built.Success?
  {
    match built
    case Failure(e) => Run(Threw(CommandError(e)), started)
    case Success(cmd) => Run(Returned(db.rowsAffected(cmd)), started + [Execute(cmd)] + beforeCommit + [Commit] + afterCommit)
  }

  // ---------------------------------------------------------------- ToDictionary

  /** The records `ToExpando` makes of the objects of a batch, in batch order. */
  function Expandos<O>(batch: seq<O>, toExpando: O -> Record): seq<Record> {
    seq(|batch|, i requires 0 <= i < |batch| => toExpando(batch[i]))
  }

  /** `ToDictionary`: every object converted, none dropped, none reordered. */
  method ToDictionary<O>(batch: seq<O>, toExpando: O -> Record) returns (result: seq<Record>)
    ensures |result| == |batch|
    ensures forall i :: 0 <= i < |batch| ==> result[i] == toExpando(batch[i])
  {
    result := [];
    for i := 0 to |batch|
      invariant |result| == i
      invariant forall p :: 0 <= p < i ==> result[p] == toExpando(batch[p])
    {
      result := result + [toExpando(batch[i])];
    }
  }

  // ---------------------------------------------------------------- InsertBatch

  /** The sequence is drawn from only when it is called before the main insert and is named. */
  predicate UsesSequence(c: Configuration) {
    c.sequenceValueCallsBeforeMainInsert && c.primaryKeyFieldSequence != ""
  }

  /** The records after `item[PrimaryKeyField] = value` with the k-th sequence value for the k-th record. */
  function AssignKeys(m: DynamicModel, dict: seq<Record>, value: nat -> int): (keyed: seq<Record>)
    ensures |keyed| == |dict|
    ensures forall k :: 0 <= k < |dict| ==> Lookup(keyed[k], m.primaryKeyField) == Some(Int(value(k)))
    ensures forall k, key :: 0 <= k < |dict| && key != m.primaryKeyField ==> Lookup(keyed[k], key) == Lookup(dict[k], key)
  {
    seq(|dict|, k requires 0 <= k < |dict| => Set(dict[k], m.primaryKeyField, Int(value(k))))
  }

  /** The first `n` sequence queries, in order. */
  function SequenceEvents(db: Database, n: nat): (events: seq<Event>)
    ensures |events| == n
    ensures forall k :: 0 <= k < n ==> events[k] == NextSequenceValue(db.sequenceValue(k))
  {
    if n == 0 then [] else SequenceEvents(db, n - 1) + [NextSequenceValue(db.sequenceValue(n - 1))]
  }

  /** The records the INSERT is built from. */
  function Keyed(c: Configuration, db: Database, dict: seq<Record>): seq<Record> {
    if UsesSequence(c) then AssignKeys(c.sql, dict, db.sequenceValue) else dict
  }

  /** The sequence queries an INSERT of `dict` makes. */
  function Drawn(c: Configuration, db: Database, dict: seq<Record>): seq<Event> {
    if UsesSequence(c) then SequenceEvents(db, |dict|) else []
  }

  /**
   * The sequence loop of `InsertBatch`: one query per record, in record order,
   * its value written under the primary key.
   */
  method DrawKeys(m: DynamicModel, db: Database, dict: seq<Record>) returns (keyed: seq<Record>, drawn: seq<Event>)
    ensures keyed == AssignKeys(m, dict, db.sequenceValue)
    ensures drawn == SequenceEvents(db, |dict|)
  {
    keyed := dict;
    drawn := [];
    for i := 0 to |dict|
      invariant |keyed| == |dict|
      invariant forall k :: 0 <= k < i ==> keyed[k] == AssignKeys(m, dict, db.sequenceValue)[k]
      invariant forall k :: i <= k < |dict| ==> keyed[k] == dict[k]
      invariant drawn == SequenceEvents(db, i)
    {
      var value := db.sequenceValue(i);
      drawn := drawn + [NextSequenceValue(value)];
      keyed := keyed[i := Set(keyed[i], m.primaryKeyField, Int(value))];
    }
  }

  /**
   * `InsertBatch` on the converted batch: rejected before any connection when
   * the batch is invalid, nothing done when `BeforeSave` refuses, otherwise one
   * transaction that draws a key per record if a sequence is used, runs the
   * INSERT, commits, and then calls `Inserted` once.
   */
  function InsertBatchRun(c: Configuration, db: Database, dict: seq<Record>): Run {
    var errors := c.validate(dict);
    if errors != [] then Run(Threw(InvalidOperation("Can't insert: " + Join("; ", errors))), [])
    else if !c.beforeSave(dict) then Run(Returned(0), [])
    else
      var keyed := Keyed(c, db, dict);
      Transaction([OpenConnection, BeginTransaction] + Drawn(c, db, dict), InsertCommand(c.sql, keyed, UsesSequence(c)),
                  [], [Inserted(keyed)], db)
  }

  method InsertBatch<O>(c: Configuration, db: Database, batch: seq<O>, toExpando: O -> Record)
    returns (outcome: Outcome, trace: seq<Event>)
    ensures Run(outcome, trace) == InsertBatchRun(c, db, Expandos(batch, toExpando))
  {
    var dict := ToDictionary(batch, toExpando);
    assert dict == Expandos(batch, toExpando);
    var errors := c.validate(dict);
    if errors != [] {
      return Threw(InvalidOperation("Can't insert: " + Join("; ", errors))), [];
    }
    outcome := Returned(0);
    trace := [];
    if c.beforeSave(dict) {
      ghost var original := dict;
      trace := [OpenConnection, BeginTransaction];
      var includePrimaryKeyInSql := false;
      if c.sequenceValueCallsBeforeMainInsert && c.primaryKeyFieldSequence != "" {
        var drawn;
        dict, drawn := DrawKeys(c.sql, db, dict);
        trace := trace + drawn;
        includePrimaryKeyInSql := true;
      }
      assert dict == Keyed(c, db, original) && includePrimaryKeyInSql == UsesSequence(c);
      assert trace == [OpenConnection, BeginTransaction] + Drawn(c, db, original);
      var cmd := CreateInsertCommandForBatch(c.sql, dict, includePrimaryKeyInSql);
      ghost var expected := Transaction(trace, cmd, [], [Inserted(dict)], db);
      assert InsertBatchRun(c, db, original) == expected;
      if cmd.Failure? {
        return Threw(CommandError(cmd.error)), trace;
      }
      var result := db.rowsAffected(cmd.value);
      trace := trace + [Execute(cmd.value)] + [Commit];
      trace := trace + [Inserted(dict)];
      outcome := Returned(result);
      assert Run(outcome, trace) == expected;
    }
  }

  // ---------------------------------------------------------------- UpdateBatch

  /**
   * `UpdateBatch` on the converted batch: rejected before any connection when
   * the batch is invalid, nothing done when `BeforeSave` refuses, otherwise one
   * transaction that runs the UPDATE, commits, and then calls `Updated` once.
   */
  function UpdateBatchRun(c: Configuration, db: Database, dict: seq<Record>): Run {
    var errors := c.validate(dict);
    if errors != [] then Run(Threw(InvalidOperation("Can't Update: " + Join("; ", errors))), [])
    else if !c.beforeSave(dict) then Run(Returned(0), [])
    else Transaction([OpenConnection, BeginTransaction], UpdateCommand(c.sql, dict), [], [Updated(dict)], db)
  }

  method UpdateBatch<O>(c: Configuration, db: Database, batch: seq<O>, toExpando: O -> Record)
    returns (outcome: Outcome, trace: seq<Event>)
    ensures Run(outcome, trace) == UpdateBatchRun(c, db, Expandos(batch, toExpando))
  {
    var dict := ToDictionary(batch, toExpando);
    assert dict == Expandos(batch, toExpando);
    var errors := c.validate(dict);
    if errors != [] {
      return Threw(InvalidOperation("Can't Update: " + Join("; ", errors))), [];
    }
    outcome := Returned(0);
    trace := [];
    if c.beforeSave(dict) {
      trace := [OpenConnection, BeginTransaction];
      var cmd := CreateUpdateCommandForBatch(c.sql, dict);
      if cmd.Failure? {
        return Threw(CommandError(cmd.error)), trace;
      }
      var result := db.rowsAffected(cmd.value);
      trace := trace + [Execute(cmd.value)] + [Commit];
      trace := trace + [Updated(dict)];
      outcome := Returned(result);
    }
  }

  // ---------------------------------------------------------------- DeleteBatch

  /**
   * `DeleteBatch` as written: no validation; nothing done when `BeforeDelete`
   * refuses; otherwise one transaction that runs the DELETE and calls `Deleted`
   * before the commit, and calls `Deleted` again once the connection is closed.
   */
  function DeleteBatchRun(c: Configuration, db: Database, dict: seq<Record>): Run {
    if !c.beforeDelete(dict) then Run(Returned(0), [])
    else Transaction([OpenConnection, BeginTransaction], DeleteCommand(c.sql, dict), [Deleted(dict)], [Deleted(dict)], db)
  }

  method DeleteBatch<O>(c: Configuration, db: Database, batch: seq<O>, toExpando: O -> Record)
    returns (outcome: Outcome, trace: seq<Event>)
    ensures Run(outcome, trace) == DeleteBatchRun(c, db, Expandos(batch, toExpando))
  {
    var dict := ToDictionary(batch, toExpando);
    assert dict == Expandos(batch, toExpando);
    outcome := Returned(0);
    trace := [];
    if c.beforeDelete(dict) {
      trace := [OpenConnection, BeginTransaction];
      var cmd := CreateDeleteCommandForBatch(c.sql, dict);
      if cmd.Failure? {
        return Threw(CommandError(cmd.error)), trace;
      }
      var result := db.rowsAffected(cmd.value);
      trace := trace + [Execute(cmd.value)] + [Deleted(dict)] + [Commit];
      trace := trace + [Deleted(dict)];
      outcome := Returned(result);
    }
  }

  /**
   * `DeleteBatch` as documented ("`Deleted` is called once for the entire
   * batch"), in the shape of `InsertBatch` and `UpdateBatch`: the call inside
   * the transaction is dropped and `Deleted` runs once, after the commit.
   */
  function DeleteBatchOnceRun(c: Configuration, db: Database, dict: seq<Record>): Run {
    if !c.beforeDelete(dict) then Run(Returned(0), [])
    else Transaction([OpenConnection, BeginTransaction], DeleteCommand(c.sql, dict), [], [Deleted(dict)], db)
  }

  method DeleteBatchOnce<O>(c: Configuration, db: Database, batch: seq<O>, toExpando: O -> Record)
    returns (outcome: Outcome, trace: seq<Event>)
    ensures Run(outcome, trace) == DeleteBatchOnceRun(c, db, Expandos(batch, toExpando))
  {
    var dict := ToDictionary(batch, toExpando);
    assert dict == Expandos(batch, toExpando);
    outcome := Returned(0);
    trace := [];
    if c.beforeDelete(dict) {
      trace := [OpenConnection, BeginTransaction];
      var cmd := CreateDeleteCommandForBatch(c.sql, dict);
      if cmd.Failure? {
        return Threw(CommandError(cmd.error)), trace;
      }
      var result := db.rowsAffected(cmd.value);
      trace := trace + [Execute(cmd.value)] + [Commit];
      trace := trace + [Deleted(dict)];
      outcome := Returned(result);
    }
  }
}
