// The table-rebuild recipe that six of the ledger migrations share (section 7 of
// SQLite's ALTER TABLE documentation): create the new table under a temporary
// name, copy the rows, drop the old table, rename the new one, recreate the
// indexes, look for orphans. It is proved to amount to changing the table in
// place.
module Rebuild {
  import opened Sqlite

  datatype Plan = Plan(
    table: TableName,
    temp: TableName,
    schema: Table,
    targets: Columns,
    sources: Columns,
    indexes: seq<NamedIndex>)
  {
    predicate WellFormed() {
      && temp != table
      && schema.rows == []
      && (schema.parent.Some? ==> schema.parent.value.table != table && schema.parent.value.table != temp)
      && (forall i :: 0 <= i < |indexes| ==> indexes[i].index.on == table)
      && (forall i, j :: 0 <= i < j < |indexes| ==> indexes[i].name != indexes[j].name)
    }
  }

  // The temporary name is free, and nothing refers to it.
  predicate Tidy(db: Db, temp: TableName) {
    && temp !in db.tables
    && (forall n <- db.tables :: db.tables[n].parent.Some? ==> db.tables[n].parent.value.table != temp)
    && (forall n <- db.indexes :: db.indexes[n].on != temp)
  }

  // The column lists of INSERT .. SELECT match the two tables.
  predicate ListsFit(db: Db, p: Plan) {
    && p.table in db.tables
    && var ts, ss := Expand(p.targets, p.schema), Expand(p.sources, db.tables[p.table]);
       |ts| == |ss| && AllIn(ts, p.schema) && AllIn(ss, db.tables[p.table])
  }

  function MovedRows(db: Db, p: Plan): seq<Row>
    requires ListsFit(db, p)
  {
    CopyRows(db.tables[p.table].rows,
             Pairing(Expand(p.targets, p.schema), Expand(p.sources, db.tables[p.table])),
             p.schema)
  }

  function NewTable(db: Db, p: Plan): Table
    requires ListsFit(db, p)
  {
    p.schema.(rows := MovedRows(db, p))
  }

  function IndexMap(ixs: seq<NamedIndex>): map<IndexName, Index> {
    if ixs == [] then map[]
    else IndexMap(ixs[..|ixs| - 1])[ixs[|ixs| - 1].name := ixs[|ixs| - 1].index]
  }

  // The in-place meaning of the recipe: one table is replaced, with its indexes;
  // every other table and index stays as it is.
  function InPlace(db: Db, p: Plan): Db
    requires ListsFit(db, p)
  {
    Db(db.tables[p.table := NewTable(db, p)],
       OffTable(db.indexes, p.table) + IndexMap(p.indexes))
  }

  // Exactly when the recipe goes through.
  predicate Admissible(db: Db, p: Plan) {
    && ListsFit(db, p)
    && TableOk(NewTable(db, p))
    && (forall i :: 0 <= i < |p.indexes| ==>
          && p.indexes[i].name !in OffTable(db.indexes, p.table)
          && IndexHolds(p.indexes[i].index, MovedRows(db, p)))
    && NoOrphans(InPlace(db, p))
  }

  // What dropping the old table with enforcement live does to its children first.
  function Cascaded(db: Db, t: TableName): Db
    requires t in db.tables
  {
    db.(tables := Cascade(db.tables - {t}, t, db.tables[t].rows)[t := db.tables[t]])
  }

  lemma {:induction false} NothingToCascade(t: Table, gone: TableName, parents: seq<Row>, rows: seq<Row>)
    requires t.parent.Some? ==> t.parent.value.table != gone
    ensures Surviving(t, gone, parents, rows) == rows
  {
    if rows != [] { NothingToCascade(t, gone, parents, rows[1..]); }
  }

  lemma NobodysParent(tables: map<TableName, Table>, gone: TableName, parents: seq<Row>)
    requires forall n <- tables :: tables[n].parent.Some? ==> tables[n].parent.value.table != gone
    ensures Cascade(tables, gone, parents) == tables
  {
    forall n | n in tables ensures Surviving(tables[n], gone, parents, tables[n].rows) == tables[n].rows {
      NothingToCascade(tables[n], gone, parents, tables[n].rows);
    }
  }

  // Dropping the old table leaves the copy alone: the copy refers to neither table.
  lemma DropOld(db: Db, p: Plan, t: Table, enforced: bool)
    requires p.WellFormed() && p.temp !in db.tables && p.table in db.tables
    requires t.parent == p.schema.parent
    ensures
      var base := if enforced then Cascaded(db, p.table) else db;
      DropTable(db.(tables := db.tables[p.temp := t]), p.table, enforced)
      == Ok(Db((base.tables - {p.table})[p.temp := t], OffTable(db.indexes, p.table)))
  {
    var copied := db.tables[p.temp := t];
    NothingToCascade(t, p.table, db.tables[p.table].rows, t.rows);
    assert copied - {p.table} == (db.tables - {p.table})[p.temp := t];
    if enforced {
      var gone := db.tables[p.table].rows;
      assert Cascade(copied - {p.table}, p.table, gone)
          == Cascade(db.tables - {p.table}, p.table, gone)[p.temp := t];
      assert Cascaded(db, p.table).tables - {p.table} == Cascade(db.tables - {p.table}, p.table, gone);
    }
  }

  // Renaming the copy rewrites no REFERENCES clause: none names the temporary table.
  lemma RenameCopy(rest: Db, p: Plan, t: Table)
    requires p.WellFormed() && Tidy(rest, p.temp) && p.table !in rest.tables
    requires t.parent == p.schema.parent
    ensures Rename(rest.(tables := rest.tables[p.temp := t]), p.temp, p.table)
         == Ok(rest.(tables := rest.tables[p.table := t]))
  {
    var d := rest.(tables := rest.tables[p.temp := t]);
    var moved := (d.tables - {p.temp})[p.table := t];
    assert moved == rest.tables[p.table := t];
    var renamed := Rename(d, p.temp, p.table).value;
    assert renamed.tables == moved;
    assert renamed.indexes == rest.indexes;
  }

  lemma DropThenRename(db: Db, p: Plan, enforced: bool)
    requires p.WellFormed() && Tidy(db, p.temp) && ListsFit(db, p)
    ensures
      var t := NewTable(db, p);
      var base := if enforced then Cascaded(db, p.table) else db;
      var dropped := DropTable(db.(tables := db.tables[p.temp := t]), p.table, enforced);
      && dropped.Ok?
      && Rename(dropped.value, p.temp, p.table)
         == Ok(Db(base.tables[p.table := t], OffTable(db.indexes, p.table)))
  {
    var t := NewTable(db, p);
    var base := if enforced then Cascaded(db, p.table) else db;
    DropOld(db, p, t, enforced);
    var rest := Db(base.tables - {p.table}, OffTable(db.indexes, p.table));
    RenameCopy(rest, p, t);
    assert rest.tables[p.table := t] == base.tables[p.table := t];
  }

  // An index declared IF NOT EXISTS is not already taken by another table.
  predicate NamesFree(db: Db, p: Plan) {
    forall i :: 0 <= i < |p.indexes| && p.indexes[i].ifNotExists
      ==> p.indexes[i].name !in OffTable(db.indexes, p.table)
  }

  lemma {:induction false} IndexMapHas(ixs: seq<NamedIndex>, name: IndexName)
    requires forall i :: 0 <= i < |ixs| ==> ixs[i].name != name
    ensures name !in IndexMap(ixs)
  {
    if ixs != [] { IndexMapHas(ixs[..|ixs| - 1], name); }
  }

  lemma {:induction false} IndexMapListed(ixs: seq<NamedIndex>, n: IndexName) returns (i: int)
    requires n in IndexMap(ixs)
    ensures 0 <= i < |ixs| && ixs[i].name == n && ixs[i].index == IndexMap(ixs)[n]
  {
    if n == ixs[|ixs| - 1].name {
      i := |ixs| - 1;
    } else {
      i := IndexMapListed(ixs[..|ixs| - 1], n);
    }
  }

  lemma {:induction false} IndexMapHolds(ixs: seq<NamedIndex>, i: int)
    requires forall i, j :: 0 <= i < j < |ixs| ==> ixs[i].name != ixs[j].name
    requires 0 <= i < |ixs|
    ensures ixs[i].name in IndexMap(ixs) && IndexMap(ixs)[ixs[i].name] == ixs[i].index
  {
    if i < |ixs| - 1 { IndexMapHolds(ixs[..|ixs| - 1], i); }
  }

  lemma IndexMapSpec(ixs: seq<NamedIndex>)
    requires forall i, j :: 0 <= i < j < |ixs| ==> ixs[i].name != ixs[j].name
    ensures forall i :: 0 <= i < |ixs| ==> ixs[i].name in IndexMap(ixs) && IndexMap(ixs)[ixs[i].name] == ixs[i].index
    ensures forall n <- IndexMap(ixs) ::
      exists i :: 0 <= i < |ixs| && ixs[i].name == n && IndexMap(ixs)[n] == ixs[i].index
  {
    forall i | 0 <= i < |ixs| ensures ixs[i].name in IndexMap(ixs) && IndexMap(ixs)[ixs[i].name] == ixs[i].index {
      IndexMapHolds(ixs, i);
    }
    forall n | n in IndexMap(ixs)
      ensures exists i :: 0 <= i < |ixs| && ixs[i].name == n && IndexMap(ixs)[n] == ixs[i].index
    {
      var i := IndexMapListed(ixs, n);
    }
  }

  // Creating the next index of a list.
  lemma NextIndex(d: Db, off: map<IndexName, Index>, ixs: seq<NamedIndex>, k: nat)
    requires k < |ixs| && ixs[k].index.on in d.tables
    requires forall i, j :: 0 <= i < j < |ixs| ==> ixs[i].name != ixs[j].name
    requires d.indexes == off + IndexMap(ixs[..k])
    ensures
      var ix := ixs[k];
      ix.name !in off ==>
        CreateIndex(d, ix)
        == if IndexHolds(ix.index, d.tables[ix.index.on].rows)
           then Ok(d.(indexes := off + IndexMap(ixs[..k + 1])))
           else Err(ConstraintFailed)
  {
    var ix := ixs[k];
    IndexMapHas(ixs[..k], ix.name);
    assert ixs[..k + 1][..k] == ixs[..k];
    assert off + IndexMap(ixs[..k])[ix.name := ix.index] == (off + IndexMap(ixs[..k]))[ix.name := ix.index];
  }

  // Where the loop over the indexes stands after k of them.
  ghost predicate Indexed(d: Db, base: Db, p: Plan, k: nat)
    requires ListsFit(base, p) && k <= |p.indexes|
  {
    && d == Db(base.tables[p.table := NewTable(base, p)], OffTable(base.indexes, p.table) + IndexMap(p.indexes[..k]))
    && (forall i :: 0 <= i < k ==>
          && p.indexes[i].name !in OffTable(base.indexes, p.table)
          && IndexHolds(p.indexes[i].index, MovedRows(base, p)))
  }

  // Creating the next index either moves on or shows that the plan is not admissible.
  lemma CreateNext(d: Db, base: Db, p: Plan, k: nat)
    requires p.WellFormed() && NamesFree(base, p) && ListsFit(base, p) && k < |p.indexes|
    requires Indexed(d, base, p, k)
    ensures
      var r := CreateIndex(d, p.indexes[k]);
      if r.Ok? then Indexed(r.value, base, p, k + 1) else !Admissible(base, p)
  {
    NextIndex(d, OffTable(base.indexes, p.table), p.indexes, k);
  }

  // The copy succeeds exactly when the column lists fit and every moved row
  // satisfies the new table's constraints.
  lemma CopyStatement(db: Db, p: Plan)
    requires p.WellFormed() && Tidy(db, p.temp) && p.table in db.tables
    ensures
      var r := InsertSelect(db.(tables := db.tables[p.temp := p.schema]), p.temp, p.targets, p.table, p.sources);
      && (r.Ok? <==> ListsFit(db, p) && TableOk(NewTable(db, p)))
      && (r.Ok? ==> r.value == db.(tables := db.tables[p.temp := NewTable(db, p)]))
  {
    if ListsFit(db, p) {
      assert p.schema.rows + MovedRows(db, p) == MovedRows(db, p);
    }
  }

  lemma CascadedKeepsCopy(db: Db, p: Plan)
    requires p.table in db.tables
    ensures ListsFit(db, p) <==> ListsFit(Cascaded(db, p.table), p)
    ensures ListsFit(db, p) ==> NewTable(db, p) == NewTable(Cascaded(db, p.table), p)
  {
  }

  // The seven statements, without the guard that Recreate puts in front of them.
  method RunStatements(conn: Connection, p: Plan) returns (o: Outcome)
    requires p.WellFormed()
    requires Tidy(conn.db, p.temp) && NamesFree(conn.db, p) && p.table in conn.db.tables
    modifies conn`db
    ensures
      var base := if conn.enforced then Cascaded(old(conn.db), p.table) else old(conn.db);
      && (o.Done? <==> Admissible(base, p))
      && (o.Done? ==> conn.db == InPlace(base, p))
  {
    ghost var before := conn.db;
    ghost var base := if conn.enforced then Cascaded(before, p.table) else before;
    CascadedKeepsCopy(before, p);
    CopyStatement(before, p);
    o := conn.Execute(CreateTable(conn.db, p.temp, p.schema));
    if o.Raised? { return; }
    o := conn.Execute(InsertSelect(conn.db, p.temp, p.targets, p.table, p.sources));
    if o.Raised? { return; }
    DropThenRename(before, p, conn.enforced);
    o := conn.Execute(DropTable(conn.db, p.table, conn.enforced));
    if o.Raised? { return; }
    o := conn.Execute(Rename(conn.db, p.temp, p.table));
    if o.Raised? { return; }
    o := CreateIndexes(conn, p, base);
  }

  // Recreate the indexes, then look for orphans.
  method CreateIndexes(conn: Connection, p: Plan, ghost base: Db) returns (o: Outcome)
    requires p.WellFormed() && NamesFree(base, p) && ListsFit(base, p)
    requires conn.db == Db(base.tables[p.table := NewTable(base, p)], OffTable(base.indexes, p.table))
    requires TableOk(NewTable(base, p))
    modifies conn`db
    ensures o.Done? <==> Admissible(base, p)
    ensures o.Done? ==> conn.db == InPlace(base, p)
  {
    for k := 0 to |p.indexes|
      invariant Indexed(conn.db, base, p, k)
    {
      CreateNext(conn.db, base, p, k);
      o := conn.Execute(CreateIndex(conn.db, p.indexes[k]));
      if o.Raised? { return; }
    }
    assert p.indexes[..|p.indexes|] == p.indexes;
    if !NoOrphans(conn.db) { return Raised(OrphansFound); }
    return Done;
  }

  // The guarded recipe. With enforcement live it refuses before touching anything;
  // otherwise it replaces the table in place exactly when the plan is admissible.
  // Outside a transaction the closing pragma leaves enforcement on.
  method Recreate(conn: Connection, p: Plan) returns (o: Outcome)
    requires p.WellFormed()
    requires Tidy(conn.db, p.temp) && NamesFree(conn.db, p) && p.table in conn.db.tables
    modifies conn`db, conn`enforced
    ensures old(conn.enforced) ==>
      o == Raised(ForeignKeysLive) && conn.db == old(conn.db) && conn.enforced
    ensures !old(conn.enforced) ==>
      && (o.Done? <==> Admissible(old(conn.db), p))
      && (o.Done? ==> conn.db == InPlace(old(conn.db), p))
      && conn.enforced == !conn.inTransaction
  {
    if conn.enforced { return Raised(ForeignKeysLive); }
    conn.PragmaForeignKeys(false);
    o := RunStatements(conn, p);
    conn.PragmaForeignKeys(true);
  }
}
