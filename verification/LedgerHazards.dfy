// What the ledger migrations are careful to avoid: rebuilding a parent table with
// enforcement live, renaming the old table first, running outside a transaction;
// and what a rollback cannot give back.
module LedgerHazards {
  import opened Options
  import opened Sqlite
  import opened Rebuild
  import opened LedgerSchema
  import opened LedgerSteps
  import opened LedgerChain
  import opened AuditLedger
  import opened LedgerRuns

  // ---------------------------------------------------------------- the cascade

  predicate PointsInto(fk: ForeignKey, parents: seq<Row>, r: Row) {
    && Get(r, fk.column) != Null
    && exists i :: 0 <= i < |parents| && Get(parents[i], fk.target) == Get(r, fk.column)
  }

  // The rows that a cascade deletes are those that point at one of the parents.
  lemma {:induction false} SurvivingAre(t: Table, gone: TableName, parents: seq<Row>, rows: seq<Row>, r: Row)
    ensures multiset(Surviving(t, gone, parents, rows))[r] ==
      if t.parent.Some? && t.parent.value.table == gone && PointsInto(t.parent.value, parents, r) then 0
      else multiset(rows)[r]
  {
    if rows != [] {
      var first := rows[0];
      assert rows == [first] + rows[1..];
      SurvivingAre(t, gone, parents, rows[1..], r);
      if first == r { PointsIntoIs(t, gone, parents, r); }
      hide Orphaned, PointsInto;
    }
  }

  lemma PointsIntoIs(t: Table, gone: TableName, parents: seq<Row>, r: Row)
    ensures Orphaned(t, gone, parents, r)
      <==> t.parent.Some? && t.parent.value.table == gone && PointsInto(t.parent.value, parents, r)
  {
    hide Get;
    if Orphaned(t, gone, parents, r) {
      var p :| p in parents && Get(p, t.parent.value.target) == Get(r, t.parent.value.column);
      var i :| 0 <= i < |parents| && parents[i] == p;
      assert Get(parents[i], t.parent.value.target) == Get(r, t.parent.value.column);
    }
  }

  // Dropping a table takes no row of another one but, with enforcement live, those that
  // point at one of its own.
  lemma DropTakes(db: Db, gone: TableName, enforced: bool, t: TableName, r: Row)
    requires gone in db.tables && t in db.tables && t != gone
    ensures
      var dropped, parent := DropTable(db, gone, enforced), db.tables[t].parent;
      && dropped.Ok? && t in dropped.value.tables && gone !in dropped.value.tables
      && multiset(dropped.value.tables[t].rows)[r] ==
         if enforced && parent.Some? && parent.value.table == gone
            && PointsInto(parent.value, db.tables[gone].rows, r) then 0
         else multiset(db.tables[t].rows)[r]
  {
    SurvivingAre(db.tables[t], gone, db.tables[gone].rows, db.tables[t].rows, r);
    hide Surviving, PointsInto;
  }

  lemma {:induction false} EveryChildGoes(t: Table, gone: TableName, parents: seq<Row>, rows: seq<Row>)
    requires forall i :: 0 <= i < |rows| ==> Orphaned(t, gone, parents, rows[i])
    ensures Surviving(t, gone, parents, rows) == []
  {
    if rows != [] {
      assert Orphaned(t, gone, parents, rows[0]);
      EveryChildGoes(t, gone, parents, rows[1..]);
    }
  }

  lemma StepRunIdRequired(t: Table, n: int)
    requires IsLevel(n) && Emptied(t) == SchemaAt(Steps, n) && TableOk(t)
    ensures forall i :: 0 <= i < |t.rows| ==> Get(t.rows[i], RunId) != Null
  {
    StepColumnsStay(n);
    SchemaDefinitions(Steps, n);
    assert t.defs == Emptied(t).defs;
    assert DefinitionAt(Steps, RunId, n) == REQUIRED;
    forall i | 0 <= i < |t.rows| ensures Get(t.rows[i], RunId) != Null {
      assert RowOk(t, t.rows[i]);
      assert Passes(t.defs[RunId], Get(t.rows[i], RunId));
    }
  }

  // base is db without its step rows.
  ghost predicate OnlyStepsEmptied(db: Db, base: Db) {
    && Steps in db.tables && base.tables.Keys == db.tables.Keys && base.indexes == db.indexes
    && base.tables[Steps] == Emptied(db.tables[Steps])
    && forall t <- db.tables :: t != Steps ==> base.tables[t] == db.tables[t]
  }

  lemma StepsParent(db: Db, n: int)
    requires AtLevel(db, n)
    ensures db.tables[Steps].parent == Some(ForeignKey(RunId, Runs, RunId))
    ensures forall t <- db.tables ::
      t != Steps && db.tables[t].parent.Some? ==> db.tables[t].parent.value.table !in {Runs, Steps}
  {
    assert db.tables[Steps].parent == Emptied(db.tables[Steps]).parent;
  }

  lemma StepRowsGo(db: Db, steps: Table)
    requires Steps in db.tables && db.tables[Steps] == steps && Runs in db.tables && NoOrphans(db)
    requires steps.parent == Some(ForeignKey(RunId, Runs, RunId))
    requires forall i :: 0 <= i < |steps.rows| ==> Get(steps.rows[i], RunId) != Null
    ensures Surviving(steps, Runs, db.tables[Runs].rows, steps.rows) == []
  {
    var parents := db.tables[Runs].rows;
    forall i | 0 <= i < |steps.rows| ensures Orphaned(steps, Runs, parents, steps.rows[i]) {
      assert HasParent(db, steps.parent.value, steps.rows[i]);
    }
    EveryChildGoes(steps, Runs, parents, steps.rows);
  }

  lemma OthersStay(db: Db, t: TableName)
    requires Runs in db.tables && t in db.tables
    requires db.tables[t].parent.Some? ==> db.tables[t].parent.value.table != Runs
    ensures Cascaded(db, Runs).tables[t] == db.tables[t]
  {
    NothingToCascade(db.tables[t], Runs, db.tables[Runs].rows, db.tables[t].rows);
  }

  // Dropping meta_skill_runs with enforcement live deletes every step row, and
  // nothing else.
  lemma CascadeEmptiesSteps(db: Db, n: int)
    requires AtLevel(db, n) && Valid(db)
    ensures OnlyStepsEmptied(db, Cascaded(db, Runs))
  {
    StepRunIdRequired(db.tables[Steps], n);
    StepsParent(db, n);
    StepsCascade(db);
  }

  lemma StepsCascade(db: Db)
    requires Steps in db.tables && Runs in db.tables && NoOrphans(db)
    requires db.tables[Steps].parent == Some(ForeignKey(RunId, Runs, RunId))
    requires forall i :: 0 <= i < |db.tables[Steps].rows| ==> Get(db.tables[Steps].rows[i], RunId) != Null
    requires forall t <- db.tables ::
      t != Steps && db.tables[t].parent.Some? ==> db.tables[t].parent.value.table !in {Runs, Steps}
    ensures OnlyStepsEmptied(db, Cascaded(db, Runs))
  {
    StepRowsGo(db, db.tables[Steps]);
    forall t | t in db.tables && t != Steps ensures Cascaded(db, Runs).tables[t] == db.tables[t] {
      OthersStay(db, t);
    }
  }

  // Dropping meta_skill_run_steps deletes nothing else: it is nobody's parent.
  lemma CascadeSparesRuns(db: Db, n: int)
    requires AtLevel(db, n)
    ensures Cascaded(db, Steps) == db
  {
    StepsParent(db, n);
    hide AtLevel, Cascade;
    NobodysParent(db.tables - {Steps}, Steps, db.tables[Steps].rows);
    assert Cascaded(db, Steps).tables == db.tables;
  }

  lemma EmptiedStepsSound(db: Db, base: Db)
    requires Valid(db) && OnlyStepsEmptied(db, base)
    requires forall t <- db.tables :: db.tables[t].parent.Some? ==> db.tables[t].parent.value.table != Steps
    ensures Valid(base)
  {
    assert TableOk(base.tables[Steps]) by { assert TableOk(db.tables[Steps]); }
    forall t, i | t in base.tables && base.tables[t].parent.Some? && 0 <= i < |base.tables[t].rows|
      ensures HasParent(base, base.tables[t].parent.value, base.tables[t].rows[i])
    {
      assert HasParent(db, db.tables[t].parent.value, db.tables[t].rows[i]);
    }
  }

  lemma EmptiedStepsLevel(db: Db, base: Db, n: int)
    requires AtLevel(db, n) && OnlyStepsEmptied(db, base)
    ensures AtLevel(base, n)
  {
    assert forall t <- db.tables :: base.tables[t].parent == db.tables[t].parent;
    assert TableAt(base, Runs, n);
    assert TableAt(base, Steps, n);
  }

  // The database that a live cascade leaves is as good a start for a migration as
  // the one before.
  lemma CascadedReady(db: Db, m: int, d: Direction)
    requires Ready(db, m, d) && NoOrphans(db)
    ensures OnlyStepsEmptied(db, Cascaded(db, Runs))
    ensures Ready(Cascaded(db, Runs), m, d) && NoOrphans(Cascaded(db, Runs))
  {
    ValidIsSound(db);
    CascadeEmptiesSteps(db, From(m, d));
    StepsParent(db, From(m, d));
    EmptiedStepsSound(db, Cascaded(db, Runs));
    EmptiedStepsLevel(db, Cascaded(db, Runs), From(m, d));
    ValidIsSound(Cascaded(db, Runs));
  }

  // Reshaping the runs table leaves the step rows as they are.
  lemma StepsUntouched(base: Db, m: int, n: int)
    requires Changes(m) == Runs && Runs in base.tables && Steps in base.tables
    ensures Steps in Reshaped(base, m, n).tables && Reshaped(base, m, n).tables[Steps] == base.tables[Steps]
  {
  }

  lemma PreparedCascade(db: Db, m: int, d: Direction)
    requires Changes(m) == Runs && Runs in db.tables
    ensures Cascaded(Prepared(db, m, d), Runs) == Prepared(Cascaded(db, Runs), m, d)
    ensures Uses(Cascaded(db, Runs), m) <==> Uses(db, m)
  {
  }

  // A rebuild of meta_skill_runs without its guard (RunStatements), up or down, on a
  // connection that enforces foreign keys: it goes through whenever the guarded one
  // would, the orphan check passes, and every step row is gone.
  lemma UnguardedRebuildLosesSteps(db: Db, m: int, d: Direction)
    requires Ready(db, m, d) && NoOrphans(db) && Rebuilds(m, d) && Changes(m) == Runs
    ensures
      var base, p := Cascaded(Prepared(db, m, d), Runs), PlanOf(m, d);
      var after := Reshaped(Cascaded(db, Runs), m, To(m, d));
      && (Admissible(base, p) <==> d == Up || !Uses(db, m))
      && ListsFit(base, p) && InPlace(base, p) == after
      && NoOrphans(after)
      && Steps in after.tables && after.tables[Steps].rows == []
  {
    var base := Cascaded(db, Runs);
    CascadedReady(db, m, d);
    PreparedCascade(db, m, d);
    StepInPlace(base, m, d);
    StepAdmissible(base, m, d);
    StepKeepsReferences(base, m, d);
    StepsUntouched(base, m, To(m, d));
  }

  // ---------------------------------------------------------------- the rename order

  // Renaming the old table first drags the children's REFERENCES clause along: once
  // the renamed table is dropped, every step row is an orphan.
  lemma RenamingOldFirstOrphans(db: Db, n: int, after: Db)
    requires AtLevel(db, n) && Valid(db)
    requires Rename(db, Runs, RunsOld).Ok?
    requires Steps in after.tables && after.tables[Steps] == Rename(db, Runs, RunsOld).value.tables[Steps]
    requires RunsOld !in after.tables
    ensures after.tables[Steps].parent == Some(ForeignKey(RunId, RunsOld, RunId))
    ensures NoOrphans(after) ==> db.tables[Steps].rows == []
  {
    var steps := db.tables[Steps];
    StepRunIdRequired(steps, n);
    assert steps.parent == Emptied(steps).parent == Some(ForeignKey(RunId, Runs, RunId));
    var moved := Rename(db, Runs, RunsOld).value;
    assert moved.tables[Steps] == Retarget(steps, Runs, RunsOld);
    if steps.rows != [] {
      assert !HasParent(after, after.tables[Steps].parent.value, after.tables[Steps].rows[0]);
    }
  }

  // ---------------------------------------------------------------- the pragma

  // Outside a transaction the closing pragma of V011 takes effect, and V012 refuses.
  method OutsideTransaction(conn: Connection) returns (first: Outcome, second: Outcome)
    requires AtLevel(conn.db, 10) && Valid(conn.db) && !conn.enforced && !conn.inTransaction
    modifies conn
    ensures first.Done? && second == Raised(ForeignKeysLive)
    ensures conn.enforced && conn.db == Reshaped(old(conn.db), 11, 11)
  {
    ValidIsSound(conn.db);
    StepStaysConsistent(conn.db, 11, Up);
    ValidIsSound(Reshaped(conn.db, 11, 11));
    first := ApplyV011(conn, 10);
    second := ApplyV012(conn, 11);
  }

  // Outside a transaction a blocked rollback of V013 has dropped the partial index and
  // keeps it dropped; the guard still finds the columns, so no re-apply builds it again.
  method BlockedOutsideTransaction(conn: Connection) returns (o: Outcome)
    requires AtLevel(conn.db, 13) && Sound(conn.db) && Uses(conn.db, 13)
    modifies conn`db, conn`enforced
    ensures o == Raised(RollbackBlocked)
    ensures OneAwaitingPerSession in old(conn.db.indexes) && OneAwaitingPerSession !in conn.db.indexes
    ensures conn.db == old(conn.db).(indexes := old(conn.db.indexes) - {OneAwaitingPerSession})
    ensures Runs in conn.db.tables && Guard(13, conn.db.tables[Runs]) && !AtLevel(conn.db, 13)
  {
    AwaitingIndexAt(conn.db, 13);
    GuardAt(conn.db, 13, 13);
    o := RollbackV013(conn, 13);
    NoIndexNoLevel(conn.db);
  }

  lemma NoIndexNoLevel(db: Db)
    requires OneAwaitingPerSession !in db.indexes
    ensures !AtLevel(db, 13)
  {
    IndexesAreDistinct(Runs, 13);
    IndexMapSpec(RUN_INDEXES_AWAITING);
    assert RUN_INDEXES_AWAITING[4].name == OneAwaitingPerSession;
    assert OneAwaitingPerSession !in OnTable(db.indexes, Runs);
  }

  // ---------------------------------------------------------------- what is lost

  lemma CarryForth(r: Row, down: Table, up: Table)
    requires r.Keys == up.defs.Keys && down.defs.Keys <= up.defs.Keys
    ensures Carry(Carry(r, down), up) == r
      <==> forall c <- up.defs.Keys - down.defs.Keys :: r[c] == up.defs[c].initial
  {
    var there := Carry(Carry(r, down), up);
    assert there.Keys == r.Keys;
    forall c | c in down.defs.Keys ensures there[c] == r[c] {}
    forall c | c in up.defs.Keys - down.defs.Keys ensures there[c] == up.defs[c].initial {}
  }

  // The columns migration m added are still untouched.
  ghost predicate AddedColumnsUnused(db: Db, m: int)
    requires Changes(m) in db.tables
  {
    var up, down := SchemaAt(Changes(m), m), SchemaAt(Changes(m), m - 1);
    forall i, c :: 0 <= i < |db.tables[Changes(m)].rows| && c in up.defs.Keys - down.defs.Keys ==>
      Get(db.tables[Changes(m)].rows[i], c) == up.defs[c].initial
  }

  lemma RowsComeForth(rows: seq<Row>, down: Table, up: Table)
    requires forall i :: 0 <= i < |rows| ==> rows[i].Keys == up.defs.Keys
    requires down.defs.Keys <= up.defs.Keys
    ensures CarryAll(CarryAll(rows, down), up) == rows
      <==> forall i, c :: 0 <= i < |rows| && c in up.defs.Keys - down.defs.Keys ==>
             Get(rows[i], c) == up.defs[c].initial
  {
    var there := CarryAll(CarryAll(rows, down), up);
    forall i | 0 <= i < |rows|
      ensures there[i] == rows[i]
         <==> forall c <- up.defs.Keys - down.defs.Keys :: Get(rows[i], c) == up.defs[c].initial
    {
      CarryForth(rows[i], down, up);
    }
  }

  lemma RowsRestored(t: Table, m: int)
    requires IsMigration(m) && Emptied(t) == SchemaAt(Changes(m), m) && TableOk(t)
    ensures
      var up, down := SchemaAt(Changes(m), m), SchemaAt(Changes(m), m - 1);
      CarryAll(CarryAll(t.rows, down), up) == t.rows
      <==> forall i, c :: 0 <= i < |t.rows| && c in up.defs.Keys - down.defs.Keys ==>
             Get(t.rows[i], c) == up.defs[c].initial
  {
    MigrationWidens(m);
    assert t.defs == Emptied(t).defs;
    forall i | 0 <= i < |t.rows| ensures t.rows[i].Keys == SchemaAt(Changes(m), m).defs.Keys {
      assert RowOk(t, t.rows[i]);
    }
    RowsComeForth(t.rows, SchemaAt(Changes(m), m - 1), SchemaAt(Changes(m), m));
  }

  lemma TableRestored(t: Table, schema: Table, rows: seq<Row>)
    requires Emptied(t) == schema
    ensures schema.(rows := rows) == t <==> rows == t.rows
  {
  }

  lemma TablesRestored(tables: map<TableName, Table>, t: TableName, new': Table, back: Table)
    requires t in tables
    ensures tables[t := new'][t := back] == tables <==> back == tables[t]
  {
  }

  // Re-applying a migration after its rollback restores the database exactly when
  // the columns it adds were still at their defaults: clarify state and usage
  // summaries do not survive the detour.
  lemma ReapplyAfterRollback(db: Db, m: int)
    requires Ready(db, m, Down) && !Uses(db, m)
    ensures Reshaped(Reshaped(db, m, m - 1), m, m) == db <==> AddedColumnsUnused(db, m)
  {
    var t := Changes(m);
    var rows, up, down := db.tables[t].rows, SchemaAt(t, m), SchemaAt(t, m - 1);
    RowsRestored(db.tables[t], m);
    IndexesRestored(db, m);
    var back := up.(rows := CarryAll(CarryAll(rows, down), up));
    TableRestored(db.tables[t], up, CarryAll(CarryAll(rows, down), up));
    TablesRestored(db.tables, t, down.(rows := CarryAll(rows, down)), back);
  }

  lemma IndexesRestored(db: Db, m: int)
    requires Ready(db, m, Down)
    ensures
      var t := Changes(m);
      OffTable(OffTable(db.indexes, t) + IndexMap(IndexesAt(t, m - 1)), t) + IndexMap(IndexesAt(t, m)) == db.indexes
  {
    var t := Changes(m);
    OwnIndexesAt(db, m);
    OwnIndexes(db, m, Down);
    assert To(m, Down) == m - 1;
    var own := IndexMap(IndexesAt(t, m - 1));
    assert own == IndexMap(IndexesAt(t, To(m, Down)));
    assert forall n <- own :: own[n].on == t;
    assert forall n <- own :: n !in OffTable(db.indexes, t);
    hide SchemaAt, IndexesAt, IndexMap, OnTable, OffTable, Ready;
    Restored(db.indexes, t, IndexMap(IndexesAt(t, m - 1)));
  }

  lemma OwnIndexesAt(db: Db, m: int)
    requires Ready(db, m, Down)
    ensures OnTable(db.indexes, Changes(m)) == IndexMap(IndexesAt(Changes(m), m))
    ensures IsMigration(m) && To(m, Down) == m - 1
  {
    hide SchemaAt, IndexesAt, IndexMap, OnTable;
    LevelTables(db, m, Down, Changes(m));
  }

  lemma Restored(indexes: map<IndexName, Index>, t: TableName, between: map<IndexName, Index>)
    requires forall n <- between :: between[n].on == t && n !in OffTable(indexes, t)
    ensures OffTable(OffTable(indexes, t) + between, t) + OnTable(indexes, t) == indexes
  {
    OffIsElsewhere(indexes, t);
    SplitIndexes(OffTable(indexes, t), between, t);
    OffAndOn(indexes, t);
  }
}
