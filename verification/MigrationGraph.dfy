// The dependency graph from V010 to V018: what each migration does the first time and
// when it runs again, and that the two V010 branches commute.
module MigrationGraph {
  import opened Options
  import opened Sqlite
  import opened Rebuild
  import opened LedgerSchema
  import opened LedgerSteps
  import opened LedgerChain
  import opened AuditLedger
  import opened LedgerStart
  import opened LedgerRuns

  // V010__meta_skill_runs .. V018 form one chain; V010__transcript_turn_usage is a
  // branch of its own that V018 joins.
  datatype Migration = Chain(k: int) | TurnUsageColumn

  predicate Known(m: Migration) { m.Chain? ==> 10 <= m.k <= 18 }

  function Depends(m: Migration): set<Migration> {
    match m
    case TurnUsageColumn => {}
    case Chain(k) =>
      if k <= 10 then {} else if k == 18 then {Chain(17), TurnUsageColumn} else {Chain(k - 1)}
  }

  ghost predicate Closed(applied: set<Migration>) {
    forall m <- applied :: Depends(m) <= applied
  }

  lemma {:induction false} ChainBelow(applied: set<Migration>, top: int, k: int)
    requires Closed(applied) && Chain(top) in applied && 10 <= k <= top <= 18
    ensures Chain(k) in applied
    decreases top - k
  {
    if k < top {
      ChainBelow(applied, top, k + 1);
      assert Chain(k) in Depends(Chain(k + 1));
    }
  }

  // Every dependency-closed set that reaches V018 contains both V010 migrations, and
  // everything in between.
  lemma HeadReachesAll(applied: set<Migration>)
    requires Closed(applied) && Chain(18) in applied
    ensures forall m | Known(m) :: m in applied
  {
    forall m | Known(m) ensures m in applied {
      if m.Chain? { ChainBelow(applied, 18, m.k); }
      else { assert m in Depends(Chain(18)); }
    }
  }

  // ---------------------------------------------------------------- effects

  const ROUTER_COLUMNS: seq<Column> := [
    DecisionId, SessionKey, TurnIndex, TsMs, OtherColumn("classifier"), OtherColumn("proposed_tier"),
    OtherColumn("confidence"), OtherColumn("probs"), OtherColumn("flags"), OtherColumn("final_tier"),
    OtherColumn("provider"), OtherColumn("model"), OtherColumn("thinking_level"), OtherColumn("source"),
    OtherColumn("trail"), OtherColumn("baseline_model"), OtherColumn("savings_pct"),
    OtherColumn("executed_kind"), OtherColumn("ensemble_profile"), OtherColumn("fallback_hops")]

  function RouterDefinition(c: Column): Definition {
    if c == SessionKey || c == TsMs then REQUIRED
    else if c == OtherColumn("executed_kind") then
      Definition(false, Null, Some({OtherText("single"), OtherText("ensemble")}))
    else if c == OtherColumn("fallback_hops") then Definition(true, Num(0.0), None)
    else NULLABLE
  }

  function RouterTable(): Table {
    Table(ROUTER_COLUMNS, map c | c in ROUTER_COLUMNS :: RouterDefinition(c), [DecisionId], None, [])
  }

  const ROUTER_SESSION_TS := Index(RouterDecisions, [SessionKey, TsMs], false, None)
  const ROUTER_TS := Index(RouterDecisions, [TsMs], false, None)

  function Named(names: seq<string>): seq<Column> {
    seq(|names|, i requires 0 <= i < |names| => OtherColumn(names[i]))
  }

  lemma RouterColumnsAre()
    ensures RouterTable().columns == [DecisionId, SessionKey, TurnIndex, TsMs]
      + Named(["classifier", "proposed_tier", "confidence", "probs", "flags", "final_tier", "provider", "model",
               "thinking_level", "source", "trail", "baseline_model", "savings_pct", "executed_kind",
               "ensemble_profile", "fallback_hops"])
    ensures RouterTable().key == [DecisionId] && RouterTable().parent == None && RouterTable().rows == []
  {
  }

  // What a decision may hold in each of its columns, and what it holds by default.
  lemma RouterTakes(c: Column, v: Value)
    requires c in RouterTable().defs
    ensures Passes(RouterTable().defs[c], v) <==>
      if c == OtherColumn("executed_kind") then v in {Null, Str(OtherText("single")), Str(OtherText("ensemble"))}
      else v != Null || c !in {SessionKey, TsMs, OtherColumn("fallback_hops")}
  {
    assert RouterTable().defs[c] == RouterDefinition(c);
    hide RouterTable;
  }

  lemma RouterDefaults(c: Column)
    requires c in RouterTable().defs
    ensures RouterTable().defs[c].initial == if c == OtherColumn("fallback_hops") then Num(0.0) else Null
  {
    assert RouterTable().defs[c] == RouterDefinition(c);
    hide RouterTable;
    assert "executed_kind" != "fallback_hops" by { assert "executed_kind"[0] == 'e'; }
  }

  function WithTurnUsage(db: Db): Db {
    if TranscriptEntries !in db.tables || TurnUsage in db.tables[TranscriptEntries].columns then db
    else
      var t := db.tables[TranscriptEntries];
      db.(tables := db.tables[TranscriptEntries :=
        t.(columns := t.columns + [TurnUsage], defs := t.defs[TurnUsage := NULLABLE],
           rows := seq(|t.rows|, i requires 0 <= i < |t.rows| => t.rows[i][TurnUsage := Null]))])
  }

  // What one run of a migration's apply step does, guard included, on a connection
  // without foreign-key enforcement.
  function Applied(m: Migration, db: Db): Db {
    match m
    case TurnUsageColumn => WithTurnUsage(db)
    case Chain(k) =>
      if k == 10 then (if Runs in db.tables then db else Started(db))
      else if k <= 16 then
        (if Changes(k) !in db.tables || Guard(k, db.tables[Changes(k)]) then db else Reshaped(db, k, k))
      else if k == 17 then
        (if RouterDecisions in db.tables then db
         else Db(db.tables[RouterDecisions := RouterTable()], db.indexes[RouterSessionTs := ROUTER_SESSION_TS]))
      else
        (if RouterDecisions !in db.tables || RouterTs in db.indexes then db
         else db.(indexes := db.indexes[RouterTs := ROUTER_TS]))
  }

  // That is what the apply steps of the ledger chain were proved to do.
  lemma EffectIsApply(db: Db, n: int, m: int, o: Outcome, after: Db)
    requires Stands(db, n) && NoOrphans(db) && IsMigration(m) && Reached(m, n)
    requires AppliesAs(m, n, db, false, o, after)
    ensures o.Done? && after == Applied(Chain(m), db)
  {
    if n != 9 { GuardAt(db, m, n); }
  }

  method ApplyTurnUsage(conn: Connection) returns (o: Outcome)
    requires TranscriptEntries in conn.db.tables ==> TableOk(conn.db.tables[TranscriptEntries])
    modifies conn`db
    ensures o.Done? && conn.db == Applied(TurnUsageColumn, old(conn.db))
  {
    if TranscriptEntries !in conn.db.tables { return Done; }
    if TurnUsage in conn.db.tables[TranscriptEntries].columns { return Done; }
    o := conn.Execute(AddColumn(conn.db, TranscriptEntries, TurnUsage, NULLABLE));
  }

  method ApplyV017(conn: Connection) returns (o: Outcome)
    requires RouterDecisions !in conn.db.tables ==> RouterSessionTs !in conn.db.indexes
    modifies conn`db
    ensures o.Done? && conn.db == Applied(Chain(17), old(conn.db))
  {
    if RouterDecisions in conn.db.tables { return Done; }
    assert Emptied(RouterTable()) == RouterTable();
    o := conn.Execute(CreateTable(conn.db, RouterDecisions, RouterTable()));
    o := conn.Execute(CreateIndex(conn.db, NamedIndex(RouterSessionTs, ROUTER_SESSION_TS, false)));
  }

  method ApplyV018(conn: Connection) returns (o: Outcome)
    modifies conn`db
    ensures o.Done? && conn.db == Applied(Chain(18), old(conn.db))
  {
    if RouterDecisions !in conn.db.tables { return Done; }
    o := conn.Execute(CreateIndex(conn.db, NamedIndex(RouterTs, ROUTER_TS, true)));
  }

  // ---------------------------------------------------------------- points

  // A database at V009: nothing of the chain is there, and nothing takes its names.
  ghost predicate AtV009(db: Db) {
    Stands(db, 9) && NoOrphans(db) && Unrouted(db)
  }

  // One migration of the chain, as a change of the database it has not yet run on.
  function Change(k: int, db: Db): Db
    requires 10 <= k <= 18
    requires 11 <= k <= 16 ==> Changes(k) in db.tables
  {
    if k == 10 then Started(db)
    else if k <= 16 then Reshaped(db, k, k)
    else if k == 17 then
      Db(db.tables[RouterDecisions := RouterTable()], db.indexes[RouterSessionTs := ROUTER_SESSION_TS])
    else db.(indexes := db.indexes[RouterTs := ROUTER_TS])
  }

  // The database after V010 .. Vk of the chain.
  function Point(k: int, db: Db): (p: Db)
    requires 9 <= k <= 18
    ensures k >= 10 ==> Runs in p.tables && Steps in p.tables
    decreases k, db
  {
    if k == 9 then db else Change(k, Point(k - 1, db))
  }

  lemma {:induction false} PointStands(k: int, db: Db)
    requires 9 <= k <= 16 && AtV009(db)
    ensures Stands(Point(k, db), k) && NoOrphans(Point(k, db))
    decreases k
  {
    if k == 10 {
      StartedStands(Point(9, db));
    } else if k > 10 {
      PointStands(k - 1, db);
      ChangeStands(k, Point(k - 1, db));
    }
  }

  lemma ChangeStands(k: int, before: Db)
    requires IsMigration(k) && Stands(before, k - 1) && NoOrphans(before)
    ensures Stands(Reshaped(before, k, k), k) && NoOrphans(Reshaped(before, k, k))
  {
    UpStands(before, k, Up);
  }

  lemma UpStands(before: Db, m: int, d: Direction)
    requires Ready(before, m, d) && d == Up && NoOrphans(before)
    ensures AtLevel(Reshaped(before, m, To(m, d)), To(m, d)) && Sound(Reshaped(before, m, To(m, d)))
    ensures NoOrphans(Reshaped(before, m, To(m, d)))
  {
    StepReachesLevel(before, m, d);
    StepStaysSound(before, m, d);
    StepKeepsReferences(before, m, d);
  }

  // The router's names stay free until it takes them.
  lemma LedgerNames(t: TableName, n: int)
    requires t == Runs || t == Steps
    ensures RouterSessionTs !in IndexMap(IndexesAt(t, n)) && RouterTs !in IndexMap(IndexesAt(t, n))
  {
    IndexMapHas(IndexesAt(t, n), RouterSessionTs);
    IndexMapHas(IndexesAt(t, n), RouterTs);
  }

  lemma {:induction false} RouterFree(k: int, db: Db)
    requires 9 <= k <= 16 && AtV009(db)
    ensures Unrouted(Point(k, db))
    decreases k
  {
    if k > 9 {
      RouterFree(k - 1, db);
      ChangeIsUnrouted(k, Point(k - 1, db));
    }
  }

  ghost predicate Unrouted(db: Db) {
    RouterDecisions !in db.tables && RouterSessionTs !in db.indexes && RouterTs !in db.indexes
  }

  lemma ChangeIsUnrouted(k: int, before: Db)
    requires 10 <= k <= 16 && Unrouted(before) && (k >= 11 ==> Changes(k) in before.tables)
    ensures Unrouted(Change(k, before))
  {
    if k == 10 {
      IndexMapHas(V010_INDEXES, RouterSessionTs);
      IndexMapHas(V010_INDEXES, RouterTs);
    } else {
      LedgerNames(Changes(k), k);
    }
  }

  // A migration changes the database the first time and leaves it alone after that.
  lemma EffectFirst(k: int, db: Db)
    requires 10 <= k <= 18 && AtV009(db)
    ensures Applied(Chain(k), Point(k - 1, db)) == Point(k, db)
  {
    if 11 <= k <= 16 {
      LedgerEffectFirst(k, Point(k - 1, db), db);
    } else if k == 17 {
      RouterFree(k - 1, db);
    } else if k == 18 {
      RouterFree(k - 2, db);
    }
  }

  lemma LedgerEffectFirst(k: int, before: Db, db: Db)
    requires 11 <= k <= 16 && AtV009(db) && before == Point(k - 1, db)
    ensures Applied(Chain(k), before) == Change(k, before)
  {
    PointStands(k - 1, db);
    GuardAt(before, k, k - 1);
  }

  lemma EffectAgain(k: int, db: Db)
    requires 10 <= k <= 18 && AtV009(db)
    ensures Applied(Chain(k), Point(k, db)) == Point(k, db)
  {
    if 11 <= k <= 16 {
      PointStands(k, db);
      GuardAt(Point(k, db), k, k);
    }
  }

  // ---------------------------------------------------------------- the other branch

  lemma UsageRowsLookAlike(db: Db)
    requires Sound(db) && WithTurnUsage(db) != db
    ensures
      var t, u := db.tables[TranscriptEntries], WithTurnUsage(db).tables[TranscriptEntries];
      && u.parent == t.parent && |u.rows| == |t.rows|
      && (forall i, c :: 0 <= i < |t.rows| ==> Get(u.rows[i], c) == Get(t.rows[i], c))
      && TableOk(u)
  {
    var t, u := db.tables[TranscriptEntries], WithTurnUsage(db).tables[TranscriptEntries];
    assert TableOk(t);
    assert TurnUsage !in t.defs;
    forall i | 0 <= i < |t.rows|
      ensures RowOk(u, u.rows[i]) && forall c :: Get(u.rows[i], c) == Get(t.rows[i], c)
    {
      assert RowOk(t, t.rows[i]);
    }
  }

  lemma SameLookSameConstraints(db: Db, t: TableName, u: Table)
    requires Sound(db) && t in db.tables && TableOk(u)
    requires u.parent == db.tables[t].parent && |u.rows| == |db.tables[t].rows|
    requires forall i, c :: 0 <= i < |u.rows| ==> Get(u.rows[i], c) == Get(db.tables[t].rows[i], c)
    ensures Sound(db.(tables := db.tables[t := u]))
  {
    var db' := db.(tables := db.tables[t := u]);
    forall n | n in db'.indexes
      ensures db'.indexes[n].on in db'.tables && IndexHolds(db'.indexes[n], db'.tables[db'.indexes[n].on].rows)
    {
      assert IndexHolds(db.indexes[n], db.tables[db.indexes[n].on].rows);
      if db.indexes[n].on == t { SameLookSameIndex(db.indexes[n], db.tables[t].rows, u.rows); }
    }
    hide IndexHolds, TableOk;
  }

  lemma SameLookSameIndex(ix: Index, rows: seq<Row>, rows': seq<Row>)
    requires IndexHolds(ix, rows) && |rows'| == |rows|
    requires forall i, c :: 0 <= i < |rows| ==> Get(rows'[i], c) == Get(rows[i], c)
    ensures IndexHolds(ix, rows')
  {
    hide Get;
    forall i, j | ix.unique && 0 <= i < j < |rows| && Covers(ix, rows'[i]) && Covers(ix, rows'[j])
      ensures !SameKey(rows'[i], rows'[j], ix.columns)
    {
      assert Covers(ix, rows[i]) && Covers(ix, rows[j]);
      var c :| c in ix.columns && !(Get(rows[i], c) != Null && Get(rows[i], c) == Get(rows[j], c));
      assert Get(rows'[i], c) == Get(rows[i], c) && Get(rows'[j], c) == Get(rows[j], c);
    }
  }

  lemma SameLookStaysUnstarted(db: Db, t: TableName, u: Table)
    requires Unstarted(db) && Unrouted(db) && t in db.tables && u.parent == db.tables[t].parent
    ensures Unstarted(db.(tables := db.tables[t := u])) && Unrouted(db.(tables := db.tables[t := u]))
  {
  }

  lemma SameLookSameReferences(db: Db, t: TableName, u: Table)
    requires t in db.tables
    requires u.parent == db.tables[t].parent && |u.rows| == |db.tables[t].rows|
    requires forall i, c :: 0 <= i < |u.rows| ==> Get(u.rows[i], c) == Get(db.tables[t].rows[i], c)
    ensures NoOrphans(db.(tables := db.tables[t := u])) <==> NoOrphans(db)
  {
    SameReferences(db, db.(tables := db.tables[t := u]), t);
  }

  lemma UsageKeepsV009(db: Db)
    requires AtV009(db)
    ensures AtV009(WithTurnUsage(db))
  {
    if WithTurnUsage(db) != db {
      var u := WithTurnUsage(db).tables[TranscriptEntries];
      UsageRowsLookAlike(db);
      SameLookSameConstraints(db, TranscriptEntries, u);
      SameLookSameReferences(db, TranscriptEntries, u);
      SameLookStaysUnstarted(db, TranscriptEntries, u);
    }
  }

  // A change that leaves the transcript alone commutes with the other branch.
  lemma UsageCommutesWithChange(k: int, db: Db)
    requires 10 <= k <= 18 && (11 <= k <= 16 ==> Changes(k) in db.tables)
    ensures WithTurnUsage(Change(k, db)) == Change(k, WithTurnUsage(db))
  {
    hide Started, Reshaped, RouterTable;
    if k == 10 { UsageCommutesWithStart(db); }
    else if k <= 16 { UsageCommutesWithReshaping(k, db); }
    else if k == 17 { UsageCommutesWithRouter(db, RouterTable()); }
    else { UsageCommutesWithIndex(db); }
  }

  lemma UsageCommutesWithStart(db: Db)
    ensures WithTurnUsage(Started(db)) == Started(WithTurnUsage(db))
  {
    hide SchemaAt, IndexMap;
    assert WithTurnUsage(Started(db)).tables == Started(WithTurnUsage(db)).tables;
  }

  lemma UsageCommutesWithReshaping(k: int, db: Db)
    requires 11 <= k <= 16 && Changes(k) in db.tables
    ensures WithTurnUsage(Reshaped(db, k, k)) == Reshaped(WithTurnUsage(db), k, k)
  {
    hide SchemaAt, IndexMap, CarryAll;
    assert WithTurnUsage(Reshaped(db, k, k)).tables == Reshaped(WithTurnUsage(db), k, k).tables;
  }

  lemma UsageCommutesWithRouter(db: Db, router: Table)
    ensures
      var indexes := db.indexes[RouterSessionTs := ROUTER_SESSION_TS];
      WithTurnUsage(Db(db.tables[RouterDecisions := router], indexes))
      == Db(WithTurnUsage(db).tables[RouterDecisions := router], indexes)
  {
    var indexes := db.indexes[RouterSessionTs := ROUTER_SESSION_TS];
    assert WithTurnUsage(Db(db.tables[RouterDecisions := router], indexes)).tables
        == WithTurnUsage(db).tables[RouterDecisions := router];
  }

  lemma UsageCommutesWithIndex(db: Db)
    ensures WithTurnUsage(db.(indexes := db.indexes[RouterTs := ROUTER_TS]))
         == WithTurnUsage(db).(indexes := db.indexes[RouterTs := ROUTER_TS])
  {
  }

  // The two branches commute.
  lemma {:induction false} UsageCommutes(k: int, db: Db)
    requires 9 <= k <= 18
    ensures WithTurnUsage(Point(k, db)) == Point(k, WithTurnUsage(db))
    decreases k
  {
    if k > 9 {
      UsageCommutes(k - 1, db);
      UsageCommutesWithChange(k, Point(k - 1, db));
    }
  }

  lemma UsageAgain(db: Db)
    ensures WithTurnUsage(WithTurnUsage(db)) == WithTurnUsage(db)
  {
  }
}
