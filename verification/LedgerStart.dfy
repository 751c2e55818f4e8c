// V010, which creates the ledger, and its rollback, which takes it away.
module LedgerStart {
  import opened Options
  import opened Sqlite
  import opened Rebuild
  import opened LedgerSchema
  import opened LedgerSteps
  import opened LedgerChain
  import opened AuditLedger

  const V010_INDEXES: seq<NamedIndex> := RUN_INDEXES + STEP_INDEXES

  // The database with the empty ledger of V010 in it.
  function Started(db: Db): Db {
    Db(db.tables[Runs := SchemaAt(Runs, 10)][Steps := SchemaAt(Steps, 10)], db.indexes + IndexMap(V010_INDEXES))
  }

  // The database without the ledger.
  function Removed(db: Db): Db {
    Db(db.tables - {Steps, Runs}, OffTable(OffTable(db.indexes, Steps), Runs))
  }

  lemma V010IndexNames()
    ensures forall i, j :: 0 <= i < j < |V010_INDEXES| ==> V010_INDEXES[i].name != V010_INDEXES[j].name
    ensures forall i :: 0 <= i < |V010_INDEXES| ==>
      && V010_INDEXES[i].index.on in {Runs, Steps} && !V010_INDEXES[i].index.unique && !V010_INDEXES[i].ifNotExists
      && V010_INDEXES[i].name in {RunsNameStarted, RunsStatusStarted, RunsSession, RunsStarted, StepsStatus}
  {
  }

  lemma V010IndexMap()
    ensures IndexMap(V010_INDEXES) == IndexMap(RUN_INDEXES)[StepsStatus := STEP_INDEXES[0].index]
    ensures IndexMap(STEP_INDEXES) == map[StepsStatus := STEP_INDEXES[0].index]
  {
    assert V010_INDEXES[..4] == RUN_INDEXES;
    assert STEP_INDEXES[..0] == [];
  }

  method CreatePlainIndexes(conn: Connection, ixs: seq<NamedIndex>) returns (o: Outcome)
    requires forall i, j :: 0 <= i < j < |ixs| ==> ixs[i].name != ixs[j].name
    requires forall i :: 0 <= i < |ixs| ==>
      ixs[i].index.on in conn.db.tables && !ixs[i].index.unique && ixs[i].name !in conn.db.indexes
    modifies conn`db
    ensures o.Done?
    ensures conn.db == old(conn.db).(indexes := old(conn.db.indexes) + IndexMap(ixs))
  {
    o := Done;
    ghost var before := conn.db;
    for k := 0 to |ixs|
      invariant conn.db == before.(indexes := before.indexes + IndexMap(ixs[..k])) && o.Done?
    {
      NextIndex(conn.db, before.indexes, ixs, k);
      o := conn.Execute(CreateIndex(conn.db, ixs[k]));
    }
    assert ixs[..|ixs|] == ixs;
  }

  method ApplyV010(conn: Connection, ghost n: int) returns (o: Outcome)
    requires Stands(conn.db, n)
    modifies conn`db
    ensures o.Done?
    ensures conn.db == if n == 9 then Started(old(conn.db)) else old(conn.db)
  {
    if Runs in conn.db.tables { return Done; }
    V010IndexNames();
    o := conn.Execute(CreateTable(conn.db, Runs, SchemaAt(Runs, 10)));
    o := conn.Execute(CreateTable(conn.db, Steps, SchemaAt(Steps, 10)));
    o := CreatePlainIndexes(conn, V010_INDEXES);
  }

  // Either neither table is there, or both are and only the one refers to the other.
  lemma LedgerIsAlone(db: Db, n: int)
    requires Stands(db, n)
    ensures if n == 9 then Runs !in db.tables && Steps !in db.tables else Runs in db.tables && Steps in db.tables
    ensures forall t <- db.tables ::
      t != Steps && db.tables[t].parent.Some? ==> db.tables[t].parent.value.table !in {Runs, Steps}
  {
    hide SchemaAt, IndexMap;
  }

  // Dropping both tables, with or without a cascade.
  lemma LedgerDropped(db: Db, enforced: bool)
    requires forall t <- db.tables ::
      t != Steps && db.tables[t].parent.Some? ==> db.tables[t].parent.value.table !in {Runs, Steps}
    ensures Runs in db.tables && Steps in db.tables ==>
      && var first := DropTable(db, Steps, enforced);
      && first.Ok? && Runs in first.value.tables && DropTable(first.value, Runs, enforced) == Ok(Removed(db))
  {
    if Runs in db.tables && Steps in db.tables {
      hide Cascade, OffTable;
      NobodysParent(db.tables - {Steps}, Steps, db.tables[Steps].rows);
      NobodysParent(db.tables - {Steps} - {Runs}, Runs, db.tables[Runs].rows);
      assert db.tables - {Steps} - {Runs} == db.tables - {Steps, Runs};
    }
  }

  // The children go first, so a live cascade finds nothing to delete.
  method RollbackV010(conn: Connection, ghost n: int) returns (o: Outcome)
    requires Stands(conn.db, n)
    modifies conn`db
    ensures o.Done?
    ensures n == 9 ==> conn.db == old(conn.db)
    ensures n != 9 ==> conn.db == Removed(old(conn.db))
  {
    o := Done;
    hide Stands, DropTable, Removed;
    LedgerIsAlone(conn.db, n);
    LedgerDropped(conn.db, conn.enforced);
    if Steps in conn.db.tables { o := conn.Execute(DropTable(conn.db, Steps, conn.enforced)); }
    if Runs in conn.db.tables { o := conn.Execute(DropTable(conn.db, Runs, conn.enforced)); }
  }

  lemma StartedMaps(indexes: map<IndexName, Index>, own: map<IndexName, Index>, runs: map<IndexName, Index>,
      steps: Index)
    requires forall n <- indexes :: indexes[n].on !in {Runs, Steps}
    requires own == runs[StepsStatus := steps] && own.Keys !! indexes.Keys && StepsStatus !in runs
    requires steps.on == Steps && forall n <- runs :: runs[n].on == Runs
    ensures OnTable(indexes + own, Runs) == runs
    ensures OnTable(indexes + own, Steps) == map[StepsStatus := steps]
    ensures OffTable(OffTable(indexes + own, Steps), Runs) == indexes
  {
  }

  lemma RunIndexMap()
    ensures StepsStatus !in IndexMap(RUN_INDEXES)
    ensures forall n <- IndexMap(RUN_INDEXES) :: IndexMap(RUN_INDEXES)[n].on == Runs && !IndexMap(RUN_INDEXES)[n].unique
    ensures IndexMap(RUN_INDEXES).Keys <= {RunsNameStarted, RunsStatusStarted, RunsSession, RunsStarted}
  {
    IndexesAreDistinct(Runs, 10);
    IndexMapSpec(RUN_INDEXES);
    assert IndexesAt(Runs, 10) == RUN_INDEXES;
  }

  lemma StartedIndexes(db: Db)
    requires Unstarted(db)
    ensures OnTable(Started(db).indexes, Runs) == IndexMap(RUN_INDEXES)
    ensures OnTable(Started(db).indexes, Steps) == IndexMap(STEP_INDEXES)
    ensures OffTable(OffTable(Started(db).indexes, Steps), Runs) == db.indexes
  {
    StartedOwn(db);
    hide Unstarted, IndexMap, OnTable, OffTable;
    StartedMaps(db.indexes, IndexMap(V010_INDEXES), IndexMap(RUN_INDEXES), STEP_INDEXES[0].index);
  }

  // What V010 creates, beside what was there.
  lemma StartedOwn(db: Db)
    requires Unstarted(db)
    ensures IndexMap(V010_INDEXES) == IndexMap(RUN_INDEXES)[StepsStatus := STEP_INDEXES[0].index]
    ensures IndexMap(STEP_INDEXES) == map[StepsStatus := STEP_INDEXES[0].index]
    ensures StepsStatus !in IndexMap(RUN_INDEXES) && OneAwaitingPerSession !in IndexMap(RUN_INDEXES)
    ensures forall n <- IndexMap(RUN_INDEXES) :: IndexMap(RUN_INDEXES)[n].on == Runs && !IndexMap(RUN_INDEXES)[n].unique
    ensures forall n <- db.indexes :: db.indexes[n].on !in {Runs, Steps}
    ensures IndexMap(V010_INDEXES).Keys !! db.indexes.Keys
  {
    V010IndexMap();
    RunIndexMap();
    hide IndexMap;
  }

  lemma StartedIndexesAre(db: Db)
    requires Unstarted(db)
    ensures forall n <- Started(db).indexes ::
      || (n in db.indexes && Started(db).indexes[n] == db.indexes[n])
      || (Started(db).indexes[n].on in {Runs, Steps} && !Started(db).indexes[n].unique)
    ensures OneAwaitingPerSession !in Started(db).indexes
  {
    StartedOwn(db);
    assert OneAwaitingPerSession !in db.indexes;
    hide Unstarted, IndexMap;
  }

  // Two empty tables and plain indexes on them break no constraint.
  lemma EmptyTablesAreSound(db: Db, runs: Table, steps: Table, indexes: map<IndexName, Index>)
    requires Sound(db) && runs.rows == [] && steps.rows == [] && TableOk(runs) && TableOk(steps)
    requires Runs !in db.tables && Steps !in db.tables
    requires forall n <- indexes ::
      (n in db.indexes && indexes[n] == db.indexes[n]) || (indexes[n].on in {Runs, Steps} && !indexes[n].unique)
    ensures Sound(Db(db.tables[Runs := runs][Steps := steps], indexes))
  {
  }

  lemma EmptyTablesOrphanNothing(db: Db, runs: Table, steps: Table, indexes: map<IndexName, Index>)
    requires runs.rows == [] && steps.rows == [] && Runs !in db.tables && Steps !in db.tables
    requires forall n <- db.tables :: db.tables[n].parent.Some? ==> db.tables[n].parent.value.table !in {Runs, Steps}
    ensures NoOrphans(Db(db.tables[Runs := runs][Steps := steps], indexes)) <==> NoOrphans(db)
  {
    var after := Db(db.tables[Runs := runs][Steps := steps], indexes);
    assert forall n <- db.tables :: after.tables[n] == db.tables[n];
    forall n, i | n in db.tables && db.tables[n].parent.Some? && 0 <= i < |db.tables[n].rows|
      ensures HasParent(after, db.tables[n].parent.value, db.tables[n].rows[i])
         <==> HasParent(db, db.tables[n].parent.value, db.tables[n].rows[i])
    {
    }
  }

  lemma EmptySchemaOk(t: TableName)
    requires t == Runs || t == Steps
    ensures TableOk(SchemaAt(t, 10)) && SchemaAt(t, 10).rows == []
  {
    assert (set c | c in SchemaAt(t, 10).columns) == SchemaAt(t, 10).defs.Keys;
  }

  lemma LevelTenShape(db: Db, db': Db)
    requires Unstarted(db)
    requires db'.tables.Keys == db.tables.Keys + {Runs, Steps}
    requires forall n <- db.tables :: db'.tables[n] == db.tables[n]
    requires db'.tables[Runs].parent.None? && db'.tables[Steps].parent == Some(ForeignKey(RunId, Runs, RunId))
    requires forall n <- db'.indexes ::
      (n in db.indexes && db'.indexes[n] == db.indexes[n]) || db'.indexes[n].on in {Runs, Steps}
    requires OneAwaitingPerSession !in db'.indexes
    ensures Undisturbed(db')
  {
  }

  lemma StartedConstraints(db: Db)
    requires Stands(db, 9)
    ensures Sound(Started(db))
    ensures NoOrphans(Started(db)) <==> NoOrphans(db)
  {
    StartedIndexesAre(db);
    EmptySchemaOk(Runs);
    EmptySchemaOk(Steps);
    var runs, steps, indexes := SchemaAt(Runs, 10), SchemaAt(Steps, 10), Started(db).indexes;
    EmptyTablesAreSound(db, runs, steps, indexes);
    EmptyTablesOrphanNothing(db, runs, steps, indexes);
  }

  lemma StartedShape(db: Db)
    requires Unstarted(db)
    ensures Undisturbed(Started(db))
  {
    StartedIndexesAre(db);
    StartedHas(db);
    hide Started, Unstarted, SchemaAt, IndexMap;
    LevelTenShape(db, Started(db));
  }

  lemma StartedHas(db: Db)
    requires Runs !in db.tables && Steps !in db.tables
    ensures Started(db).tables.Keys == db.tables.Keys + {Runs, Steps}
    ensures forall n <- db.tables :: Started(db).tables[n] == db.tables[n]
    ensures Started(db).tables[Runs].parent.None?
    ensures Started(db).tables[Steps].parent == Some(ForeignKey(RunId, Runs, RunId))
  {
    hide IndexMap;
  }

  lemma StartedLevel(db: Db)
    requires Unstarted(db)
    ensures AtLevel(Started(db), 10)
  {
    StartedShape(db);
    StartedTables(db);
  }

  // V010 leads to level 10, with every constraint holding.
  lemma StartedStands(db: Db)
    requires Stands(db, 9)
    ensures Stands(Started(db), 10)
    ensures NoOrphans(Started(db)) <==> NoOrphans(db)
  {
    StartedConstraints(db);
    StartedLevel(db);
  }

  lemma StartedTables(db: Db)
    requires Unstarted(db)
    ensures TableAt(Started(db), Runs, 10) && TableAt(Started(db), Steps, 10)
  {
    StartedIndexes(db);
  }

  lemma TablesComeBack(tables: map<TableName, Table>, runs: Table, steps: Table)
    requires Runs !in tables && Steps !in tables
    ensures tables[Runs := runs][Steps := steps] - {Steps, Runs} == tables
  {
  }

  // The rollback of V010 takes the ledger away without a trace.
  lemma RemovedUndoesStarted(db: Db)
    requires Stands(db, 9)
    ensures Removed(Started(db)) == db
  {
    StartedIndexes(db);
    TablesComeBack(db.tables, SchemaAt(Runs, 10), SchemaAt(Steps, 10));
    hide SchemaAt, IndexMap, OffTable, OnTable, Sound;
  }
}
