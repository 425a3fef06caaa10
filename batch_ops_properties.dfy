/// What the batch operations promise: validation before any connection, the
/// before-hooks' veto, one transaction with one command, and the after-hook
/// once after the commit (twice for `DeleteBatch` as written).
module BatchOpsProperties {
  import opened Records
  import opened BatchSql
  import opened BatchOps
  import BatchSqlProperties

  /** An event that does not occur in a trace is counted zero times. */
  lemma {:induction false} CountAbsent(trace: seq<Event>, e: Event)
    requires e !in trace
    ensures Count(trace, e) == 0
  {
    if trace != [] {
      CountAbsent(trace[..|trace| - 1], e);
    }
  }

  /** Counting over one more event. */
  lemma CountSnoc(trace: seq<Event>, x: Event, e: Event)
    ensures Count(trace + [x], e) == Count(trace, e) + (if x == e then 1 else 0)
  {
    assert (trace + [x])[..|trace|] == trace;
  }

  /** How often an event occurs in a transaction: in the parts that ran, plus the execution and the commit. */
  lemma TransactionCount(started: seq<Event>, built: Result<Command, SqlError>, beforeCommit: seq<Event>,
                         afterCommit: seq<Event>, db: Database, f: Event)
    ensures Count(Transaction(started, built, beforeCommit, afterCommit, db).trace, f)
            == Count(started, f)
               + (if built.Success?
                  then Count(beforeCommit, f) + Count(afterCommit, f) + (if f == Commit then 1 else 0)
                       + (if f == Execute(built.value) then 1 else 0)
                  else 0)
  {
    if built.Success? {
      var x := Execute(built.value);
      var a := started + [x];
      var b := a + beforeCommit;
      var d := b + [Commit];
      CountSnoc(started, x, f);
      CountAppend(a, beforeCommit, f);
      CountSnoc(b, Commit, f);
      CountAppend(d, afterCommit, f);
    }
  }

  /** A transaction whose command was built returns its row count and ends with the commit and the events after it. */
  lemma TransactionEnd(started: seq<Event>, built: Result<Command, SqlError>, beforeCommit: seq<Event>,
                       afterCommit: seq<Event>, db: Database)
    requires built.Success?
    ensures var run := Transaction(started, built, beforeCommit, afterCommit, db);
            && run.outcome == Returned(db.rowsAffected(built.value))
            && |run.trace| > |afterCommit|
            && run.trace[|run.trace| - |afterCommit| - 1..] == [Commit] + afterCommit
  {
    var d := started + [Execute(built.value)] + beforeCommit + [Commit];
    assert (d + afterCommit)[|d| - 1..] == [Commit] + afterCommit;
  }

  /** No commit, command or after-hook among the connection and sequence events. */
  lemma StartedCounts(db: Database, n: nat, e: Event)
    requires e.Commit? || e.Execute? || e.Inserted? || e.Updated? || e.Deleted?
    ensures Count([OpenConnection, BeginTransaction] + SequenceEvents(db, n), e) == 0
    ensures Count([OpenConnection, BeginTransaction], e) == 0
  {
    var s := SequenceEvents(db, n);
    assert forall k :: 0 <= k < |s| ==> s[k] != e;
    CountAbsent([OpenConnection, BeginTransaction] + s, e);
    CountAbsent([OpenConnection, BeginTransaction], e);
  }

  /** A one-event trace counts that event once and nothing else. */
  lemma CountSingle(x: Event, e: Event)
    ensures Count([x], e) == if x == e then 1 else 0
  {
    CountSnoc([], x, e);
  }

  /**
   * A transaction whose after-hook `hook` also runs before the commit when
   * `beforeCommit` holds it: it commits once exactly when its command was
   * built, calls the hook once per place it appears, executes the command
   * once and ends with the commit and the hook.
   */
  lemma HookedTransaction(started: seq<Event>, built: Result<Command, SqlError>, beforeCommit: seq<Event>,
                          db: Database, hook: Event)
    requires hook.Inserted? || hook.Updated? || hook.Deleted?
    requires beforeCommit == [] || beforeCommit == [hook]
    requires Count(started, Commit) == 0 && Count(started, hook) == 0
    requires built.Success? ==> Count(started, Execute(built.value)) == 0
    ensures var run := Transaction(started, built, beforeCommit, [hook], db);
            && Count(run.trace, Commit) == (if built.Success? then 1 else 0)
            && Count(run.trace, hook) == (|beforeCommit| + 1) * Count(run.trace, Commit)
    ensures var run := Transaction(started, built, beforeCommit, [hook], db);
            built.Success? ==>
              && run.outcome == Returned(db.rowsAffected(built.value))
              && Count(run.trace, Execute(built.value)) == 1
              && run.trace[|run.trace| - 2..] == [Commit, hook]
  {
    CountSingle(hook, Commit);
    CountSingle(hook, hook);
    TransactionCount(started, built, beforeCommit, [hook], db, Commit);
    TransactionCount(started, built, beforeCommit, [hook], db, hook);
    if built.Success? {
      CountSingle(hook, Execute(built.value));
      TransactionCount(started, built, beforeCommit, [hook], db, Execute(built.value));
      TransactionEnd(started, built, beforeCommit, [hook], db);
    }
  }

  /**
   * `InsertBatch`: an invalid batch throws with the errors joined by "; " and
   * touches nothing; a `BeforeSave` veto returns 0 and touches nothing;
   * otherwise the transaction commits exactly when the operation returns, and
   * `Inserted` runs once per commit.
   */
  lemma InsertBatchProtocol(c: Configuration, db: Database, dict: seq<Record>)
    ensures var errors := c.validate(dict);
            errors != [] ==> InsertBatchRun(c, db, dict) == Run(Threw(InvalidOperation("Can't insert: " + Join("; ", errors))), [])
    ensures c.validate(dict) == [] && !c.beforeSave(dict) ==> InsertBatchRun(c, db, dict) == Run(Returned(0), [])
    ensures var run := InsertBatchRun(c, db, dict);
            Count(run.trace, Commit) == (if run.trace != [] && run.outcome.Returned? then 1 else 0)
    ensures var run := InsertBatchRun(c, db, dict);
            Count(run.trace, Inserted(Keyed(c, db, dict))) == Count(run.trace, Commit)
  {
    if c.validate(dict) == [] && c.beforeSave(dict) {
      var keyed := Keyed(c, db, dict);
      var hook := Inserted(keyed);
      var started := [OpenConnection, BeginTransaction] + Drawn(c, db, dict);
      var built := InsertCommand(c.sql, keyed, UsesSequence(c));
      assert InsertBatchRun(c, db, dict) == Transaction(started, built, [], [hook], db);
      StartedCounts(db, |dict|, Commit);
      StartedCounts(db, |dict|, hook);
      if built.Success? {
        StartedCounts(db, |dict|, Execute(built.value));
      }
      HookedTransaction(started, built, [], db, hook);
    }
  }

  /**
   * An `InsertBatch` that committed built its INSERT from the (keyed) records,
   * executed it once, returned the row count the database reported, and ended
   * with the commit followed by `Inserted`.
   */
  lemma InsertBatchCommitted(c: Configuration, db: Database, dict: seq<Record>)
    requires Count(InsertBatchRun(c, db, dict).trace, Commit) == 1
    ensures var run := InsertBatchRun(c, db, dict);
            var built := InsertCommand(c.sql, Keyed(c, db, dict), UsesSequence(c));
            && built.Success?
            && run.outcome == Returned(db.rowsAffected(built.value))
            && Count(run.trace, Execute(built.value)) == 1
            && run.trace[|run.trace| - 2..] == [Commit, Inserted(Keyed(c, db, dict))]
  {
    var keyed := Keyed(c, db, dict);
    var hook := Inserted(keyed);
    var started := [OpenConnection, BeginTransaction] + Drawn(c, db, dict);
    var built := InsertCommand(c.sql, keyed, UsesSequence(c));
    assert InsertBatchRun(c, db, dict) == Transaction(started, built, [], [hook], db);
    StartedCounts(db, |dict|, Commit);
    StartedCounts(db, |dict|, hook);
    if built.Success? {
      StartedCounts(db, |dict|, Execute(built.value));
    }
    HookedTransaction(started, built, [], db, hook);
  }

  /**
   * Past its hooks, `InsertBatch` opens the connection and the transaction,
   * then makes its sequence queries, if it uses a sequence: one per record, in
   * record order, before the INSERT.
   */
  lemma InsertBatchStarts(c: Configuration, db: Database, dict: seq<Record>)
    requires c.validate(dict) == [] && c.beforeSave(dict)
    ensures var trace := InsertBatchRun(c, db, dict).trace;
            && 2 + |Drawn(c, db, dict)| <= |trace|
            && trace[..2 + |Drawn(c, db, dict)|] == [OpenConnection, BeginTransaction] + Drawn(c, db, dict)
  {
    var keyed := Keyed(c, db, dict);
    var started := [OpenConnection, BeginTransaction] + Drawn(c, db, dict);
    assert InsertBatchRun(c, db, dict)
        == Transaction(started, InsertCommand(c.sql, keyed, UsesSequence(c)), [], [Inserted(keyed)], db);
  }

  /**
   * With a sequence configured, the primary key is one of the inserted
   * columns, so a non-empty batch always builds its INSERT and returns. An
   * empty batch has drawn nothing and throws `EmptyBatch` with the
   * transaction open.
   */
  lemma InsertBatchKeyedBuilds(c: Configuration, db: Database, dict: seq<Record>)
    requires c.validate(dict) == [] && c.beforeSave(dict) && UsesSequence(c)
    ensures dict != [] ==>
              && c.sql.primaryKeyField in FieldNames(Keyed(c, db, dict)[0])
              && InsertCommand(c.sql, Keyed(c, db, dict), true).Success?
              && InsertBatchRun(c, db, dict).outcome.Returned?
    ensures dict == [] ==> InsertBatchRun(c, db, dict) == Run(Threw(CommandError(EmptyBatch)), [OpenConnection, BeginTransaction])
  {
    if dict != [] {
      var first := Keyed(c, db, dict)[0];
      assert c.sql.primaryKeyField in Keys(first);
      KeysIndex(first, c.sql.primaryKeyField);
      var i :| 0 <= i < |first| && first[i].key == c.sql.primaryKeyField;
      FieldNamesAt(first, i);
    } else {
      assert Drawn(c, db, dict) == [];
    }
  }

  /**
   * `UpdateBatch`: an invalid batch throws with the errors joined by "; " and
   * touches nothing; a `BeforeSave` veto returns 0 and touches nothing;
   * otherwise the transaction commits exactly when the UPDATE could be built
   * and ran once, and `Updated` runs once, right after the commit.
   */
  lemma UpdateBatchProtocol(c: Configuration, db: Database, dict: seq<Record>)
    ensures var errors := c.validate(dict);
            errors != [] ==> UpdateBatchRun(c, db, dict) == Run(Threw(InvalidOperation("Can't Update: " + Join("; ", errors))), [])
    ensures c.validate(dict) == [] && !c.beforeSave(dict) ==> UpdateBatchRun(c, db, dict) == Run(Returned(0), [])
    ensures var run := UpdateBatchRun(c, db, dict);
            run.trace != [] ==> |run.trace| >= 2 && run.trace[..2] == [OpenConnection, BeginTransaction]
    ensures var run := UpdateBatchRun(c, db, dict);
            Count(run.trace, Commit) == (if run.trace != [] && run.outcome.Returned? then 1 else 0)
    ensures var run := UpdateBatchRun(c, db, dict);
            Count(run.trace, Updated(dict)) == Count(run.trace, Commit)
    ensures var run := UpdateBatchRun(c, db, dict);
            var built := UpdateCommand(c.sql, dict);
            Count(run.trace, Commit) == 1 ==>
              && built.Success?
              && run.outcome == Returned(db.rowsAffected(built.value))
              && Count(run.trace, Execute(built.value)) == 1
              && run.trace[|run.trace| - 2..] == [Commit, Updated(dict)]
  {
    if c.validate(dict) == [] && c.beforeSave(dict) {
      var hook := Updated(dict);
      var started := [OpenConnection, BeginTransaction];
      var built := UpdateCommand(c.sql, dict);
      assert UpdateBatchRun(c, db, dict) == Transaction(started, built, [], [hook], db);
      StartedCounts(db, 0, Commit);
      StartedCounts(db, 0, hook);
      if built.Success? {
        StartedCounts(db, 0, Execute(built.value));
      }
      HookedTransaction(started, built, [], db, hook);
    }
  }

  /**
   * `DeleteBatch` as written: no validation; a `BeforeDelete` veto returns 0
   * and touches nothing; otherwise the transaction commits exactly when the
   * DELETE could be built, and then `Deleted` has run twice: once before the
   * commit and once after it.
   */
  lemma DeleteBatchProtocol(c: Configuration, db: Database, dict: seq<Record>)
    ensures !c.beforeDelete(dict) ==> DeleteBatchRun(c, db, dict) == Run(Returned(0), [])
    ensures var run := DeleteBatchRun(c, db, dict);
            Count(run.trace, Commit) == (if run.trace != [] && run.outcome.Returned? then 1 else 0)
    ensures var run := DeleteBatchRun(c, db, dict);
            Count(run.trace, Deleted(dict)) == 2 * Count(run.trace, Commit)
    ensures var run := DeleteBatchRun(c, db, dict);
            var built := DeleteCommand(c.sql, dict);
            Count(run.trace, Commit) == 1 ==>
              && built.Success?
              && run.outcome == Returned(db.rowsAffected(built.value))
              && Count(run.trace, Execute(built.value)) == 1
              && run.trace[|run.trace| - 3..] == [Deleted(dict), Commit, Deleted(dict)]
  {
    if c.beforeDelete(dict) {
      var hook := Deleted(dict);
      var started := [OpenConnection, BeginTransaction];
      var built := DeleteCommand(c.sql, dict);
      assert DeleteBatchRun(c, db, dict) == Transaction(started, built, [hook], [hook], db);
      StartedCounts(db, 0, Commit);
      StartedCounts(db, 0, hook);
      if built.Success? {
        StartedCounts(db, 0, Execute(built.value));
        var trace := [OpenConnection, BeginTransaction, Execute(built.value), hook, Commit, hook];
        assert DeleteBatchRun(c, db, dict).trace == trace;
        assert trace[|trace| - 3..] == [hook, Commit, hook];
      }
      HookedTransaction(started, built, [hook], db, hook);
    }
  }

  /**
   * `DeleteBatchOnce`, the documented behaviour: as `DeleteBatch`, but
   * `Deleted` runs exactly once per commit, as the last event, right after it.
   */
  lemma DeleteBatchOnceProtocol(c: Configuration, db: Database, dict: seq<Record>)
    ensures !c.beforeDelete(dict) ==> DeleteBatchOnceRun(c, db, dict) == Run(Returned(0), [])
    ensures var run := DeleteBatchOnceRun(c, db, dict);
            Count(run.trace, Commit) == (if run.trace != [] && run.outcome.Returned? then 1 else 0)
    ensures var run := DeleteBatchOnceRun(c, db, dict);
            Count(run.trace, Deleted(dict)) == Count(run.trace, Commit)
    ensures var run := DeleteBatchOnceRun(c, db, dict);
            var built := DeleteCommand(c.sql, dict);
            Count(run.trace, Commit) == 1 ==>
              && built.Success?
              && run.outcome == Returned(db.rowsAffected(built.value))
              && Count(run.trace, Execute(built.value)) == 1
              && run.trace[|run.trace| - 2..] == [Commit, Deleted(dict)]
  {
    if c.beforeDelete(dict) {
      var hook := Deleted(dict);
      var started := [OpenConnection, BeginTransaction];
      var built := DeleteCommand(c.sql, dict);
      assert DeleteBatchOnceRun(c, db, dict) == Transaction(started, built, [], [hook], db);
      StartedCounts(db, 0, Commit);
      StartedCounts(db, 0, hook);
      if built.Success? {
        StartedCounts(db, 0, Execute(built.value));
      }
      HookedTransaction(started, built, [], db, hook);
    }
  }

  /**
   * A one-record batch whose key is present and whose `BeforeDelete` agrees:
   * the DELETE commits, `DeleteBatch` calls `Deleted` twice and
   * `DeleteBatchOnce` once.
   */
  lemma DeletedTwiceWitness(db: Database)
    ensures var c := Configuration(DynamicModel("Products", "Id", s => "@" + s), false, "",
                                   _ => [], _ => true, _ => true);
            var dict := [[Field("Id", Int(7))]];
            && Count(DeleteBatchRun(c, db, dict).trace, Commit) == 1
            && Count(DeleteBatchRun(c, db, dict).trace, Deleted(dict)) == 2
            && Count(DeleteBatchOnceRun(c, db, dict).trace, Deleted(dict)) == 1
  {
    var c := Configuration(DynamicModel("Products", "Id", s => "@" + s), false, "", _ => [], _ => true, _ => true);
    var dict := [[Field("Id", Int(7))]];
    assert Lookup(dict[0], "Id") == Some(Int(7));
    assert DeleteErrors(c.sql, dict) == [None];
    var none: seq<Option<SqlError>> := [None];
    assert FirstError(none) == None by {
      assert none[1..] == [];
    }
    DeleteBatchProtocol(c, db, dict);
    DeleteBatchOnceProtocol(c, db, dict);
  }
}
