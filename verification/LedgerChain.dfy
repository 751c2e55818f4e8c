// The step theorems: when a migration step of the ledger chain goes through, the
// level it reaches, and what a rollback undoes.
module LedgerChain {
  import opened Options
  import opened Sqlite
  import opened Rebuild
  import opened LedgerSchema
  import opened LedgerSteps

  // A database of the chain in which a step of migration m can start.
  ghost predicate Ready(db: Db, m: int, d: Direction) {
    IsMigration(m) && AtLevel(db, From(m, d)) && Sound(db)
  }

  // Carrying a table's rows over to a new schema keeps every reference, if the new
  // schema has the columns the references read.
  lemma CarriedReferences(db: Db, t: TableName, schema: Table, indexes: map<IndexName, Index>)
    requires t in db.tables && TableOk(db.tables[t]) && schema.parent == db.tables[t].parent
    requires forall c :: Referenced(db, t, c) ==> c in schema.defs && c in db.tables[t].defs
    ensures NoOrphans(Db(db.tables[t := schema.(rows := CarryAll(db.tables[t].rows, schema))], indexes))
       <==> NoOrphans(db)
  {
    var db' := Db(db.tables[t := schema.(rows := CarryAll(db.tables[t].rows, schema))], indexes);
    forall i, c | 0 <= i < |db.tables[t].rows| && Referenced(db, t, c)
      ensures Get(db'.tables[t].rows[i], c) == Get(db.tables[t].rows[i], c)
    {
      assert RowOk(db.tables[t], db.tables[t].rows[i]);
      CarryKeeps(db.tables[t].rows[i], schema, c);
    }
    assert db'.tables.Keys == db.tables.Keys;
    SameReferences(db, db', t);
  }

  lemma StepKeepsReferences(db: Db, m: int, d: Direction)
    requires Ready(db, m, d)
    ensures NoOrphans(Reshaped(db, m, To(m, d))) <==> NoOrphans(db)
  {
    var t := Changes(m);
    KeyColumnsStay(m, From(m, d));
    KeyColumnsStay(m, To(m, d));
    StepsReferToRuns(db, m, d);
    assert db.tables[t].defs == Emptied(db.tables[t]).defs;
    CarriedReferences(db, t, SchemaAt(t, To(m, d)), OffTable(db.indexes, t) + IndexMap(IndexesAt(t, To(m, d))));
  }

  // The only reference into or out of the ledger tables is steps.run_id -> runs.run_id.
  lemma StepsReferToRuns(db: Db, m: int, d: Direction)
    requires Ready(db, m, d)
    ensures forall c :: Referenced(db, Changes(m), c) ==> c == RunId
    ensures Reshaped(db, m, To(m, d)).tables[Changes(m)].parent == db.tables[Changes(m)].parent
  {
    assert db.tables[Steps].parent == Emptied(db.tables[Steps]).parent == Some(ForeignKey(RunId, Runs, RunId));
    assert db.tables[Runs].parent == Emptied(db.tables[Runs]).parent == None;
  }

  lemma PreparedFits(db: Db, m: int, d: Direction)
    requires Ready(db, m, d) && Rebuilds(m, d)
    ensures
      var p, db0 := PlanOf(m, d), Prepared(db, m, d);
      && p.table == Changes(m)
      && ListsFit(db0, p)
      && NewTable(db0, p) == Reshaped(db, m, To(m, d)).tables[Changes(m)]
  {
    var p, db0 := PlanOf(m, d), Prepared(db, m, d);
    PlanSchema(m, d);
    CopyLists(m, d);
    ListedColumns(m, d);
    var old' := db0.tables[p.table];
    assert old' == db.tables[p.table] && old'.columns == SchemaAt(p.table, From(m, d)).columns;
    assert Expand(p.sources, old') == Expand(p.sources, SchemaAt(p.table, From(m, d)));
    MovedIsCarried(db0, p);
  }

  lemma OffUnchanged(indexes: map<IndexName, Index>, t: TableName, name: IndexName)
    requires name in indexes ==> indexes[name].on == t
    ensures OffTable(indexes - {name}, t) == OffTable(indexes, t)
  {
  }

  // The names of a table's indexes are its own.
  lemma IndexNamesFree(db: Db, m: int, d: Direction)
    requires Ready(db, m, d)
    ensures forall i :: 0 <= i < |IndexesAt(Changes(m), To(m, d))| ==>
      IndexesAt(Changes(m), To(m, d))[i].name !in OffTable(db.indexes, Changes(m))
  {
    var t := Changes(m);
    forall i | 0 <= i < |IndexesAt(t, To(m, d))|
      ensures IndexesAt(t, To(m, d))[i].name !in OffTable(db.indexes, t)
    {
      var ix := IndexesAt(t, To(m, d))[i];
      IndexesAreDistinct(t, To(m, d));
      if !ix.ifNotExists {
        var j := PlainIndexesStay(t, From(m, d), To(m, d), i);
        NameOnTable(db, t, From(m, d), j);
      }
    }
  }

  lemma NameOnTable(db: Db, t: TableName, n: int, j: nat)
    requires (t == Runs || t == Steps) && TableAt(db, t, n) && j < |IndexesAt(t, n)|
    ensures IndexesAt(t, n)[j].name !in OffTable(db.indexes, t)
  {
    IndexesAreDistinct(t, n);
    IndexMapSpec(IndexesAt(t, n));
    assert IndexesAt(t, n)[j].name in OnTable(db.indexes, t);
  }

  lemma PlainIndexesStay(t: TableName, x: int, y: int, i: int) returns (j: nat)
    requires (t == Runs || t == Steps) && 0 <= i < |IndexesAt(t, y)| && !IndexesAt(t, y)[i].ifNotExists
    ensures j < |IndexesAt(t, x)| && IndexesAt(t, x)[j] == IndexesAt(t, y)[i]
  {
    j := i;
    if t == Runs {
      assert IndexesAt(t, x)[i] == RUN_INDEXES[i] == IndexesAt(t, y)[i];
    }
  }

  // Every index of the new level holds of the carried rows.
  lemma NewIndexesHold(db: Db, m: int, d: Direction, i: nat)
    requires Ready(db, m, d) && i < |IndexesAt(Changes(m), To(m, d))|
    ensures IndexHolds(IndexesAt(Changes(m), To(m, d))[i].index,
                       CarryAll(db.tables[Changes(m)].rows, SchemaAt(Changes(m), To(m, d))))
  {
    IndexesAreDistinct(Changes(m), To(m, d));
    if IndexesAt(Changes(m), To(m, d))[i].ifNotExists {
      AwaitingIndexComes(m, d, i);
      if From(m, d) >= 13 { AwaitingIndexAt(db, From(m, d)); }
      CarriedIndexHolds(db.tables[Runs], m, d);
    }
  }

  lemma AwaitingIndexComes(m: int, d: Direction, i: nat)
    requires IsMigration(m) && i < |IndexesAt(Changes(m), To(m, d))| && IndexesAt(Changes(m), To(m, d))[i].ifNotExists
    ensures Changes(m) == Runs && To(m, d) >= 13
  {
  }

  // From V013 on the partial unique index is there, and holds.
  lemma AwaitingIndexAt(db: Db, n: int)
    requires AtLevel(db, n) && n >= 13 && IndexesHold(db)
    ensures OneAwaitingPerSession in db.indexes && db.indexes[OneAwaitingPerSession] == ONE_AWAITING
    ensures IndexHolds(ONE_AWAITING, db.tables[Runs].rows)
  {
    IndexesAreDistinct(Runs, n);
    IndexMapSpec(RUN_INDEXES_AWAITING);
    assert RUN_INDEXES_AWAITING[4].name == OneAwaitingPerSession;
    assert OneAwaitingPerSession in OnTable(db.indexes, Runs);
  }

  lemma StepInPlace(db: Db, m: int, d: Direction)
    requires Ready(db, m, d) && Rebuilds(m, d)
    ensures
      var p, db0 := PlanOf(m, d), Prepared(db, m, d);
      && p.WellFormed() && p.table == Changes(m)
      && Tidy(db0, p.temp) && NamesFree(db0, p) && ListsFit(db0, p)
      && OffTable(db0.indexes, p.table) == OffTable(db.indexes, p.table)
      && p.indexes == IndexesAt(p.table, To(m, d))
      && MovedRows(db0, p) == CarryAll(db.tables[p.table].rows, SchemaAt(p.table, To(m, d)))
      && InPlace(db0, p) == Reshaped(db, m, To(m, d))
  {
    var p, db0 := PlanOf(m, d), Prepared(db, m, d);
    PlanSchema(m, d);
    PlanShape(m, d);
    PreparedFits(db, m, d);
    if m == 13 { OffUnchanged(db.indexes, Runs, OneAwaitingPerSession); }
    IndexNamesFree(db, m, d);
  }

  lemma NewTableOk(db: Db, m: int, d: Direction)
    requires Ready(db, m, d) && Rebuilds(m, d)
    ensures
      var p, db0 := PlanOf(m, d), Prepared(db, m, d);
      ListsFit(db0, p) && (TableOk(NewTable(db0, p)) <==> d == Up || !Uses(db, m))
  {
    PreparedFits(db, m, d);
    CarriedTableOk(db.tables[Changes(m)], m, d);
    hide SchemaAt, IndexesAt, IndexMap, PlanOf, Prepared, TableOk, Sound;
  }

  lemma NewIndexesFit(db: Db, m: int, d: Direction)
    requires Ready(db, m, d) && Rebuilds(m, d)
    ensures
      var p, db0 := PlanOf(m, d), Prepared(db, m, d);
      && ListsFit(db0, p)
      && forall i :: 0 <= i < |p.indexes| ==>
           p.indexes[i].name !in OffTable(db0.indexes, p.table) && IndexHolds(p.indexes[i].index, MovedRows(db0, p))
  {
    var p, db0 := PlanOf(m, d), Prepared(db, m, d);
    StepInPlace(db, m, d);
    IndexNamesFree(db, m, d);
    hide Ready, SchemaAt, IndexesAt, PlanOf, Prepared, IndexHolds, OffTable, InPlace, MovedRows, ListsFit;
    forall i | 0 <= i < |p.indexes| ensures IndexHolds(p.indexes[i].index, MovedRows(db0, p)) {
      NewIndexesHold(db, m, d, i);
    }
  }

  // A step goes through on a database whose constraints hold exactly when no row
  // is an orphan and, on the way down, none uses a value the older CHECK forbids.
  lemma StepAdmissible(db: Db, m: int, d: Direction)
    requires Ready(db, m, d) && Rebuilds(m, d)
    ensures Admissible(Prepared(db, m, d), PlanOf(m, d)) <==> NoOrphans(db) && (d == Up || !Uses(db, m))
  {
    hide Ready, PlanOf, Prepared, Uses, NoOrphans, TableOk, IndexHolds, OffTable, InPlace, MovedRows, NewTable,
      ListsFit, Reshaped;
    StepInPlace(db, m, d);
    StepKeepsReferences(db, m, d);
    NewTableOk(db, m, d);
    NewIndexesFit(db, m, d);
  }

  // ---------------------------------------------------------------- once more

  // A rollback of migration m that has nothing left to roll back.
  ghost predicate Undone(db: Db, m: int) { IsMigration(m) && m != 15 && AtLevel(db, m - 1) && Sound(db) }

  // It copies every column of the table to the same column.
  lemma SameLists(m: int)
    requires IsMigration(m) && m != 15
    ensures
      var p, old' := PlanOf(m, Down), SchemaAt(Changes(m), m - 1);
      Expand(p.targets, p.schema) == old'.columns && Expand(p.sources, old') == old'.columns
  {
  }

  lemma CarryAllSame(rows: seq<Row>, t: Table)
    requires forall i :: 0 <= i < |rows| ==> rows[i].Keys == t.defs.Keys
    ensures CarryAll(rows, t) == rows
  {
    forall i | 0 <= i < |rows| ensures Carry(rows[i], t) == rows[i] { }
  }

  lemma SameRowsMove(db: Db, m: int)
    requires Undone(db, m)
    ensures
      var p := PlanOf(m, Down);
      && p.table == Changes(m) && ListsFit(db, p)
      && MovedRows(db, p) == db.tables[p.table].rows && NewTable(db, p) == db.tables[p.table]
  {
    var p := PlanOf(m, Down);
    PlanSchema(m, Down);
    SameLists(m);
    var t := db.tables[p.table];
    assert Emptied(t) == p.schema && t.columns == p.schema.columns && t.defs == p.schema.defs;
    assert Expand(p.sources, t) == Expand(p.sources, p.schema) == t.columns;
    hide PlanOf, SchemaAt, IndexesAt, IndexMap;
    MovedIsCarried(db, p);
    forall i | 0 <= i < |t.rows| ensures t.rows[i].Keys == t.defs.Keys { assert RowOk(t, t.rows[i]); }
    CarryAllSame(t.rows, p.schema);
    assert p.schema.(rows := t.rows) == t;
  }

  // Before V013 there is no partial index to drop.
  lemma NothingToDrop(db: Db, m: int)
    requires Undone(db, m)
    ensures Prepared(db, m, Down) == db
  {
    if m == 13 {
      PartialIsNew(m - 1);
      NotOnTable(db, m - 1);
    }
    hide AtLevel, Sound, IndexMap, IndexesAt;
  }

  lemma PartialIsNew(n: int)
    requires n < 13
    ensures OneAwaitingPerSession !in IndexMap(IndexesAt(Runs, n))
  {
    IndexesAreDistinct(Runs, n);
    IndexMapHas(RUN_INDEXES, OneAwaitingPerSession);
  }

  lemma NotOnTable(db: Db, n: int)
    requires AtLevel(db, n) && OneAwaitingPerSession !in IndexMap(IndexesAt(Runs, n))
    ensures OneAwaitingPerSession !in db.indexes
  {
    hide SchemaAt, IndexesAt, IndexMap;
    assert OneAwaitingPerSession !in OnTable(db.indexes, Runs);
  }

  lemma OwnIndexesHold(db: Db, m: int, i: nat)
    requires Undone(db, m) && i < |IndexesAt(Changes(m), m - 1)|
    ensures
      var ix := IndexesAt(Changes(m), m - 1)[i];
      ix.name !in OffTable(db.indexes, Changes(m)) && IndexHolds(ix.index, db.tables[Changes(m)].rows)
  {
    var t := Changes(m);
    NameOnTable(db, t, m - 1, i);
    IndexesAreDistinct(t, m - 1);
    IndexMapHolds(IndexesAt(t, m - 1), i);
    hide SchemaAt, IndexesAt, IndexMap, IndexHolds;
    assert IndexesAt(t, m - 1)[i].name in OnTable(db.indexes, t);
  }

  // So a repeated rollback gives back the database it finds, unless a row is orphaned.
  lemma RollbackAgain(db: Db, m: int)
    requires Undone(db, m)
    ensures
      var p := PlanOf(m, Down);
      && p.WellFormed() && p.table == Changes(m) && p.table in db.tables && Tidy(db, p.temp) && NamesFree(db, p)
      && (Admissible(db, p) <==> NoOrphans(db)) && (ListsFit(db, p) ==> InPlace(db, p) == db)
  {
    hide AtLevel, Sound, PlanOf, SchemaAt, IndexesAt, IndexMap, IndexHolds, NoOrphans, TableOk, MovedRows, NewTable,
      OffTable, OnTable, ListsFit, Tidy;
    var p := PlanOf(m, Down);
    PlanShape(m, Down);
    SameRowsMove(db, m);
    UndoneFacts(db, m);
    OffAndOn(db.indexes, p.table);
    assert db.tables[p.table := db.tables[p.table]] == db.tables;
  }

  lemma UndoneFacts(db: Db, m: int)
    requires Undone(db, m)
    ensures
      var p := PlanOf(m, Down);
      && p.table == Changes(m) && p.table in db.tables && Tidy(db, p.temp) && TableOk(db.tables[p.table])
      && OnTable(db.indexes, p.table) == IndexMap(p.indexes)
      && forall i :: 0 <= i < |p.indexes| ==>
           p.indexes[i].name !in OffTable(db.indexes, p.table)
             && IndexHolds(p.indexes[i].index, db.tables[p.table].rows)
  {
    var p := PlanOf(m, Down);
    PlanSchema(m, Down);
    PlanShape(m, Down);
    hide PlanOf, SchemaAt, IndexMap, IndexHolds, OffTable;
    forall i | 0 <= i < |p.indexes|
      ensures p.indexes[i].name !in OffTable(db.indexes, p.table)
      ensures IndexHolds(p.indexes[i].index, db.tables[p.table].rows)
    {
      OwnIndexesHold(db, m, i);
    }
  }

  // The level below has no row that would block it.
  lemma NothingLeft(db: Db, m: int)
    requires Ready(db, m, Up)
    ensures !Uses(db, m)
  {
    hide SchemaAt, IndexesAt, IndexMap;
    if m != 15 { OldRowsAvoidNew(db, m); }
  }

  // ---------------------------------------------------------------- the level reached

  lemma OtherTableStays(m: int, u: TableName)
    requires IsMigration(m) && (u == Runs || u == Steps) && u != Changes(m)
    ensures SchemaAt(u, m) == SchemaAt(u, m - 1) && IndexesAt(u, m) == IndexesAt(u, m - 1)
  {
  }

  // A table's own indexes, beside the indexes of other tables.
  lemma SplitIndexes(off: map<IndexName, Index>, own: map<IndexName, Index>, t: TableName)
    requires forall n <- off :: off[n].on != t
    requires forall n <- own :: own[n].on == t && n !in off
    ensures OnTable(off + own, t) == own
    ensures OffTable(off + own, t) == off
  {
  }

  lemma SplitOther(off: map<IndexName, Index>, own: map<IndexName, Index>, t: TableName, u: TableName)
    requires forall n <- own :: own[n].on == t && n !in off
    requires u != t
    ensures OnTable(off + own, u) == OnTable(off, u)
  {
  }

  // The indexes a step recreates are on its table, under names of its own.
  lemma OwnIndexes(db: Db, m: int, d: Direction)
    requires Ready(db, m, d)
    ensures
      var t, own := Changes(m), IndexMap(IndexesAt(Changes(m), To(m, d)));
      forall n <- own :: own[n].on == t && n !in OffTable(db.indexes, t)
  {
    var t, ixs := Changes(m), IndexesAt(Changes(m), To(m, d));
    IndexesAreDistinct(t, To(m, d));
    IndexMapSpec(ixs);
    IndexNamesFree(db, m, d);
  }

  lemma OffIsElsewhere(indexes: map<IndexName, Index>, t: TableName)
    ensures forall n <- OffTable(indexes, t) :: OffTable(indexes, t)[n].on != t
  {
  }

  lemma OffKeepsOthers(indexes: map<IndexName, Index>, t: TableName, u: TableName)
    requires u != t
    ensures OnTable(OffTable(indexes, t), u) == OnTable(indexes, u)
  {
  }

  lemma ReshapedIndexes(db: Db, m: int, d: Direction, u: TableName)
    requires Ready(db, m, d)
    ensures
      OnTable(Reshaped(db, m, To(m, d)).indexes, u)
      == if u == Changes(m) then IndexMap(IndexesAt(u, To(m, d))) else OnTable(db.indexes, u)
  {
    var t := Changes(m);
    OwnIndexes(db, m, d);
    hide Ready, SchemaAt, IndexesAt, IndexMap, OnTable, OffTable;
    OffIsElsewhere(db.indexes, t);
    if u == t {
      SplitIndexes(OffTable(db.indexes, t), IndexMap(IndexesAt(t, To(m, d))), t);
    } else {
      SplitOther(OffTable(db.indexes, t), IndexMap(IndexesAt(t, To(m, d))), t, u);
      OffKeepsOthers(db.indexes, t, u);
    }
  }

  lemma ReshapedTables(db: Db, m: int, n: int, u: TableName)
    requires Changes(m) in db.tables && (u == Runs || u == Steps) && u in db.tables
    ensures u in Reshaped(db, m, n).tables
    ensures Emptied(Reshaped(db, m, n).tables[u]) == if u == Changes(m) then SchemaAt(u, n) else Emptied(db.tables[u])
  {
    SchemaIsEmpty(u, n);
    hide SchemaAt, IndexesAt, IndexMap, OffTable, CarryAll;
  }

  lemma SchemaIsEmpty(t: TableName, n: int)
    requires t == Runs || t == Steps
    ensures SchemaAt(t, n).rows == []
  {
  }

  lemma LevelTables(db: Db, m: int, d: Direction, u: TableName)
    requires Ready(db, m, d) && (u == Runs || u == Steps)
    ensures TableAt(db, u, From(m, d)) && Changes(m) in db.tables && IsMigration(m)
  {
    hide SchemaAt, IndexMap;
  }

  lemma StepTableAt(db: Db, m: int, d: Direction, u: TableName)
    requires Ready(db, m, d) && (u == Runs || u == Steps)
    ensures TableAt(Reshaped(db, m, To(m, d)), u, To(m, d))
  {
    LevelTables(db, m, d, u);
    ReshapedIndexes(db, m, d, u);
    ReshapedTables(db, m, To(m, d), u);
    if u != Changes(m) { OtherTableStays(m, u); }
    hide Ready, SchemaAt, IndexesAt, IndexMap, OnTable, Reshaped, Emptied;
  }

  // A step takes a database of one level to the next.
  lemma StepReachesLevel(db: Db, m: int, d: Direction)
    requires Ready(db, m, d)
    ensures AtLevel(Reshaped(db, m, To(m, d)), To(m, d))
  {
    var t := Changes(m);
    StepTableAt(db, m, d, Runs);
    StepTableAt(db, m, d, Steps);
    OwnIndexes(db, m, d);
    StepsReferToRuns(db, m, d);
    StaysUndisturbed(db, Reshaped(db, m, To(m, d)), t, IndexMap(IndexesAt(t, To(m, d))));
  }

  lemma StaysUndisturbed(db: Db, db': Db, t: TableName, own: map<IndexName, Index>)
    requires Undisturbed(db) && (t == Runs || t == Steps) && t in db.tables
    requires db'.tables.Keys == db.tables.Keys
    requires forall n <- db.tables :: db'.tables[n].parent == db.tables[n].parent
    requires db'.indexes == OffTable(db.indexes, t) + own
    requires forall n <- own :: own[n].on == t
    requires t == Steps ==> OneAwaitingPerSession !in own
    ensures Undisturbed(db')
  {
  }

  lemma ReplacedStaysSound(db: Db, t: TableName, new': Table, own: map<IndexName, Index>)
    requires Sound(db) && t in db.tables && TableOk(new')
    requires forall n <- own :: own[n].on == t && IndexHolds(own[n], new'.rows)
    ensures Sound(Db(db.tables[t := new'], OffTable(db.indexes, t) + own))
  {
    var db' := Db(db.tables[t := new'], OffTable(db.indexes, t) + own);
    forall n | n in db'.indexes
      ensures db'.indexes[n].on in db'.tables && IndexHolds(db'.indexes[n], db'.tables[db'.indexes[n].on].rows)
    {
      if n !in own { assert n in OffTable(db.indexes, t); }
    }
  }

  // Every constraint but the foreign key holds after a step that goes through.
  lemma StepStaysSound(db: Db, m: int, d: Direction)
    requires Ready(db, m, d) && (d == Up || !Uses(db, m))
    ensures Sound(Reshaped(db, m, To(m, d)))
  {
    var t := Changes(m);
    var ixs := IndexesAt(t, To(m, d));
    var schema := SchemaAt(t, To(m, d));
    var new' := schema.(rows := CarryAll(db.tables[t].rows, schema));
    CarriedTableOk(db.tables[t], m, d);
    OwnIndexes(db, m, d);
    IndexesAreDistinct(t, To(m, d));
    IndexMapSpec(ixs);
    var own := IndexMap(ixs);
    forall n | n in own ensures IndexHolds(own[n], new'.rows) {
      var i :| 0 <= i < |ixs| && ixs[i].name == n && own[n] == ixs[i].index;
      NewIndexesHold(db, m, d, i);
    }
    ReplacedStaysSound(db, t, new', own);
  }

  // ---------------------------------------------------------------- round trips

  lemma CarryBack(r: Row, t: Table, back: Table)
    requires r.Keys == back.defs.Keys && back.defs.Keys <= t.defs.Keys
    ensures Carry(Carry(r, t), back) == r
  {
  }

  lemma CarryAllBack(rows: seq<Row>, t: Table, back: Table)
    requires forall i :: 0 <= i < |rows| ==> rows[i].Keys == back.defs.Keys
    requires back.defs.Keys <= t.defs.Keys
    ensures CarryAll(CarryAll(rows, t), back) == rows
  {
    forall i | 0 <= i < |rows| ensures Carry(Carry(rows[i], t), back) == rows[i] { CarryBack(rows[i], t, back); }
  }

  lemma OffAndOn(indexes: map<IndexName, Index>, t: TableName)
    ensures OffTable(indexes, t) + OnTable(indexes, t) == indexes
  {
  }

  lemma ReplacedBack(db: Db, t: TableName, new': Table, off: map<IndexName, Index>, own: map<IndexName, Index>,
      back: Table)
    requires t in db.tables && back == db.tables[t]
    ensures Db(db.tables[t := new'], off + own).tables[t := back] == db.tables
  {
  }

  // Rolling a migration back right after applying it restores the database exactly:
  // tables, rows, row order and indexes.
  lemma RollbackUndoesApply(db: Db, m: int)
    requires Ready(db, m, Up)
    ensures Reshaped(Reshaped(db, m, m), m, m - 1) == db
  {
    var t := Changes(m);
    var rows := db.tables[t].rows;
    RowsComeBack(db, m);
    var off, own := OffTable(db.indexes, t), IndexMap(IndexesAt(t, m));
    OwnIndexes(db, m, Up);
    SplitIndexes(off, own, t);
    OffAndOn(db.indexes, t);
    var back := SchemaAt(t, m - 1).(rows := rows);
    assert back == Emptied(db.tables[t]).(rows := rows) == db.tables[t];
    ReplacedBack(db, t, SchemaAt(t, m).(rows := CarryAll(rows, SchemaAt(t, m))), off, own, back);
  }

  lemma RowsComeBack(db: Db, m: int)
    requires Ready(db, m, Up)
    ensures
      var t, rows := Changes(m), db.tables[Changes(m)].rows;
      CarryAll(CarryAll(rows, SchemaAt(t, m)), SchemaAt(t, m - 1)) == rows
  {
    var t, rows := Changes(m), db.tables[Changes(m)].rows;
    MigrationWidens(m);
    assert db.tables[t].defs == Emptied(db.tables[t]).defs;
    forall i | 0 <= i < |rows| ensures rows[i].Keys == SchemaAt(t, m - 1).defs.Keys {
      assert RowOk(db.tables[t], rows[i]);
    }
    CarryAllBack(rows, SchemaAt(t, m), SchemaAt(t, m - 1));
  }

  // So the rollback of a fresh apply is never blocked.
  lemma NothingNew(db: Db, m: int)
    requires Ready(db, m, Up)
    ensures !Uses(Reshaped(db, m, m), m)
  {
    hide SchemaAt, IndexesAt, IndexMap;
    if m != 15 {
      OldRowsAvoidNew(db, m);
      CarryForbidsNothing(m, db.tables[Changes(m)].rows, SchemaAt(Changes(m), m));
    }
  }

  lemma OldRowsAvoidNew(db: Db, m: int)
    requires Ready(db, m, Up) && m != 15
    ensures CarriesNothingForbidden(m, db.tables[Changes(m)].rows, SchemaAt(Changes(m), m))
  {
    var rows, up := db.tables[Changes(m)].rows, SchemaAt(Changes(m), m);
    hide SchemaAt, Ready, AvoidsNew;
    forall i | 0 <= i < |rows|
      ensures AvoidsNew(m, rows[i], up)
    {
      OldRowsUseNothingNew(db, m, i);
    }
  }

  ghost predicate CarriesNothingForbidden(m: int, rows: seq<Row>, t: Table) {
    forall i :: 0 <= i < |rows| ==> AvoidsNew(m, rows[i], t)
  }

  ghost predicate AvoidsNew(m: int, r: Row, t: Table) {
    CheckedBy(m) in r && CheckedBy(m) in t.defs && !Forbidden(m, r)
  }

  lemma CarryForbidsNothing(m: int, rows: seq<Row>, t: Table)
    requires CarriesNothingForbidden(m, rows, t)
    ensures forall i :: 0 <= i < |rows| ==> !Forbidden(m, CarryAll(rows, t)[i])
  {
    forall i | 0 <= i < |rows| ensures !Forbidden(m, CarryAll(rows, t)[i]) {
      CarryKeeps(rows[i], t, CheckedBy(m));
    }
  }

  lemma OldRowsUseNothingNew(db: Db, m: int, i: int)
    requires Ready(db, m, Up) && m != 15 && 0 <= i < |db.tables[Changes(m)].rows|
    ensures AvoidsNew(m, db.tables[Changes(m)].rows[i], SchemaAt(Changes(m), m))
  {
    var t := Changes(m);
    AllowedGrows(m);
    KeyColumnsStay(m, m - 1);
    KeyColumnsStay(m, m);
    SchemaDefinitions(t, m - 1);
    DefinitionsWiden(m, CheckedBy(m));
    assert db.tables[t].defs == Emptied(db.tables[t]).defs;
    assert RowOk(db.tables[t], db.tables[t].rows[i]);
    assert Passes(db.tables[t].defs[CheckedBy(m)], Get(db.tables[t].rows[i], CheckedBy(m)));
  }
}
