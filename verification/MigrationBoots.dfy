// Boots: each runs some migrations whose dependencies are marked, any of them may crash
// after a step's commit and before its mark, and between the boots writers do whatever
// the schema of the moment permits.
module MigrationBoots {
  import opened Options
  import opened Sqlite
  import opened Rebuild
  import opened LedgerSchema
  import opened LedgerSteps
  import opened LedgerChain
  import opened AuditLedger
  import opened LedgerStart
  import opened LedgerRuns
  import opened MigrationGraph

  // The database and what yoyo's ledger has marked as applied.
  datatype Boot = Boot(db: Db, marked: set<Migration>)

  // Some boot runs an unmarked migration whose dependencies are marked; it may crash
  // after the step's commit and before the mark.
  ghost predicate BootRuns(s: Boot, m: Migration, crashed: bool, s': Boot) {
    && Known(m) && m !in s.marked && Depends(m) <= s.marked
    && s'.db == Applied(m, s.db)
    && s'.marked == if crashed then s.marked else s.marked + {m}
  }

  // After some boots, the chain's first k migrations have been committed, and the
  // other branch has (or not); all of them but the chain's last are surely marked.
  ghost predicate Reaches(db0: Db, s: Boot, k: int, usage: bool) {
    && MarksFit(s.marked, k, usage)
    && s.db == Point(k, if usage then WithTurnUsage(db0) else db0)
  }

  ghost predicate MarksFit(marked: set<Migration>, k: int, usage: bool) {
    && 9 <= k <= 18
    && (forall m <- marked :: Known(m) && (if m.Chain? then m.k <= k else usage))
    && (forall j :: 10 <= j < k ==> Chain(j) in marked)
  }

  // Until V018 is marked some migration can run, so boots that do not crash get there.
  lemma SomeMigrationIsDue(s: Boot, k: int, usage: bool) returns (m: Migration)
    requires MarksFit(s.marked, k, usage) && Chain(18) !in s.marked
    ensures BootRuns(s, m, false, Boot(Applied(m, s.db), s.marked + {m}))
  {
    hide Applied;
    var next := if k == 9 || Chain(k) in s.marked then k + 1 else k;
    m := if next == 18 && TurnUsageColumn !in s.marked then TurnUsageColumn else Chain(next);
    if m.Chain? && next > 10 { assert Chain(next - 1) in s.marked; }
  }

  lemma UsageStep(db0: Db, s: Boot, crashed: bool, s': Boot, k: int, usage: bool)
    requires AtV009(db0) && Reaches(db0, s, k, usage) && BootRuns(s, TurnUsageColumn, crashed, s')
    ensures Reaches(db0, s', k, true)
  {
    UsageCommutes(k, if usage then WithTurnUsage(db0) else db0);
    UsageAgain(db0);
  }

  lemma ChainStep(db0: Db, s: Boot, j: int, crashed: bool, s': Boot, k: int, usage: bool)
    requires AtV009(db0) && Reaches(db0, s, k, usage) && BootRuns(s, Chain(j), crashed, s')
    ensures Reaches(db0, s', j, usage)
  {
    var base := if usage then WithTurnUsage(db0) else db0;
    NextInChain(s.marked, j, k, usage);
    UsageKeepsV009(db0);
    assert s'.db == Point(j, base) by { EffectOnPoint(j, k, base); }
  }

  // The migration that runs next is the last one committed, again, or its successor.
  lemma NextInChain(marked: set<Migration>, j: int, k: int, usage: bool)
    requires MarksFit(marked, k, usage) && Known(Chain(j)) && Chain(j) !in marked && Depends(Chain(j)) <= marked
    ensures j == k || j == k + 1
    ensures MarksFit(marked, j, usage) && MarksFit(marked + {Chain(j)}, j, usage)
  {
    if j > 10 {
      assert Chain(j - 1) in Depends(Chain(j));
    }
  }

  lemma EffectOnPoint(j: int, k: int, db: Db)
    requires 10 <= j <= 18 && (j == k || j == k + 1) && AtV009(db)
    ensures Applied(Chain(j), Point(k, db)) == Point(j, db)
  {
    hide *;
    if j == k { EffectAgain(j, db); } else { EffectFirst(j, db); }
  }

  lemma BootStep(db0: Db, s: Boot, m: Migration, crashed: bool, s': Boot, k: int, usage: bool)
    returns (k': int, usage': bool)
    requires AtV009(db0) && Reaches(db0, s, k, usage) && BootRuns(s, m, crashed, s')
    ensures Reaches(db0, s', k', usage')
  {
    match m {
      case TurnUsageColumn =>
        k', usage' := k, true;
        UsageStep(db0, s, crashed, s', k, usage);
      case Chain(j) =>
        k', usage' := j, usage;
        ChainStep(db0, s, j, crashed, s', k, usage);
    }
  }

  // ---------------------------------------------------------------- schemas

  // The database without its rows.
  function Shape(db: Db): Db {
    Db(map t | t in db.tables :: Emptied(db.tables[t]), db.indexes)
  }

  lemma ShapeOfUpdate(tables: map<TableName, Table>, t: TableName, u: Table, indexes: map<IndexName, Index>)
    ensures Shape(Db(tables[t := u], indexes)) == Db(Shape(Db(tables, indexes)).tables[t := Emptied(u)], indexes)
  {
    assert Shape(Db(tables[t := u], indexes)).tables == Shape(Db(tables, indexes)).tables[t := Emptied(u)];
  }

  lemma ShapeOfUsage(db: Db)
    ensures Shape(WithTurnUsage(db)) == WithTurnUsage(Shape(db))
  {
    if WithTurnUsage(db) != db {
      var u, v := WithTurnUsage(db).tables[TranscriptEntries], WithTurnUsage(Shape(db)).tables[TranscriptEntries];
      ShapeOfUpdate(db.tables, TranscriptEntries, u, db.indexes);
      assert v == Emptied(u);
    }
  }

  lemma ShapeOfStarted(db: Db)
    ensures Shape(Started(db)) == Started(Shape(db))
  {
    var runs, steps, indexes := SchemaAt(Runs, 10), SchemaAt(Steps, 10), Started(db).indexes;
    ShapeOfUpdate(db.tables[Runs := runs], Steps, steps, indexes);
    ShapeOfUpdate(db.tables, Runs, runs, indexes);
    SchemaIsEmpty(Runs, 10);
    SchemaIsEmpty(Steps, 10);
    hide SchemaAt, IndexMap;
  }

  lemma ShapeOfReshaped(db: Db, m: int, n: int)
    requires Changes(m) in db.tables
    ensures Shape(Reshaped(db, m, n)) == Reshaped(Shape(db), m, n)
  {
    var t := Changes(m);
    var schema := SchemaAt(t, n);
    SchemaIsEmpty(t, n);
    hide SchemaAt, IndexMap, OffTable;
    ShapeOfUpdate(db.tables, t, schema.(rows := CarryAll(db.tables[t].rows, schema)), Reshaped(db, m, n).indexes);
    assert CarryAll(Shape(db).tables[t].rows, schema) == [];
  }

  lemma ShapeOfRouter(db: Db, indexes: map<IndexName, Index>)
    ensures Shape(Db(db.tables[RouterDecisions := RouterTable()], indexes))
         == Db(Shape(db).tables[RouterDecisions := RouterTable()], indexes)
  {
    assert Emptied(RouterTable()) == RouterTable();
    hide RouterTable;
    ShapeOfUpdate(db.tables, RouterDecisions, RouterTable(), indexes);
    assert Shape(Db(db.tables, indexes)).tables == Shape(db).tables;
  }

  lemma ShapeOfIndexed(db: Db, indexes: map<IndexName, Index>)
    ensures Shape(Db(db.tables, indexes)) == Db(Shape(db).tables, indexes)
  {
  }

  lemma ShapeOfRebuilt(m: int, db: Db)
    requires IsMigration(m)
    ensures Shape(Applied(Chain(m), db)) == Applied(Chain(m), Shape(db))
  {
    if Changes(m) in db.tables {
      GuardDepends(m, db.tables[Changes(m)], Shape(db).tables[Changes(m)]);
      ShapeOfReshaped(db, m, m);
    }
    hide Reshaped, Guard;
  }

  // What a migration makes of the schema depends on the schema alone.
  lemma ShapeOfEffect(m: Migration, db: Db)
    requires Known(m)
    ensures Shape(Applied(m, db)) == Applied(m, Shape(db))
  {
    match m {
      case TurnUsageColumn => ShapeOfUsage(db);
      case Chain(k) =>
        if k == 10 { ShapeOfStarted(db); }
        else if k <= 16 { ShapeOfRebuilt(k, db); }
        else if k == 17 { ShapeOfRouter(db, db.indexes[RouterSessionTs := ROUTER_SESSION_TS]); }
        else { ShapeOfIndexed(db, db.indexes[RouterTs := ROUTER_TS]); }
    }
  }

  lemma ShapeHas(db: Db, t: TableName)
    ensures t in Shape(db).tables <==> t in db.tables
    ensures t in db.tables ==> Shape(db).tables[t] == Emptied(db.tables[t]) == Emptied(Shape(db).tables[t])
    ensures t in db.tables ==> Shape(db).tables[t].parent == db.tables[t].parent
  {
  }

  lemma TidyShape(db: Db, t: TableName)
    ensures Tidy(Shape(db), t) <==> Tidy(db, t)
  {
    ShapeHas(db, t);
    forall n | n in db.tables ensures n in Shape(db).tables && Shape(db).tables[n].parent == db.tables[n].parent {
      ShapeHas(db, n);
    }
  }

  lemma UndisturbedShape(db: Db)
    requires Undisturbed(Shape(db))
    ensures Undisturbed(db)
  {
    TidyShape(db, RunsNew);
    TidyShape(db, RunsOld);
    TidyShape(db, StepsNew);
    forall n | n in db.tables && db.tables[n].parent.Some? && db.tables[n].parent.value.table in {Runs, Steps}
      ensures n == Steps
    {
      ShapeHas(db, n);
    }
  }

  lemma LevelOfShape(db: Db, n: int)
    requires AtLevel(Shape(db), n)
    ensures AtLevel(db, n)
  {
    assert TableAt(Shape(db), Runs, n) && TableAt(Shape(db), Steps, n);
    ShapeHas(db, Runs);
    ShapeHas(db, Steps);
    UndisturbedShape(db);
    hide SchemaAt, IndexMap, IndexesAt, Undisturbed;
  }

  lemma UnstartedShape(db: Db)
    ensures Unstarted(Shape(db)) <==> Unstarted(db)
    ensures Unrouted(Shape(db)) <==> Unrouted(db)
  {
    TidyShape(db, Runs);
    TidyShape(db, Steps);
    TidyShape(db, RunsNew);
    TidyShape(db, RunsOld);
    TidyShape(db, StepsNew);
    ShapeHas(db, RouterDecisions);
    hide Tidy;
  }

  lemma ShapeAtV009(db: Db)
    requires AtV009(db)
    ensures AtV009(Shape(db))
  {
    UnstartedShape(db);
    assert Sound(Shape(db)) by {
      forall n | n in Shape(db).tables ensures TableOk(Shape(db).tables[n]) { assert TableOk(db.tables[n]); }
    }
  }

  // ---------------------------------------------------------------- rows

  // No table loses a row or a value it keeps the column of, and a new column starts at
  // its declared default.
  ghost predicate KeepsRows(db: Db, db': Db) {
    forall t <- db.tables ::
      t in db'.tables && KeepsShared(db.tables[t], db'.tables[t]) && DefaultsElsewhere(db.tables[t], db'.tables[t])
  }

  // Every constraint holds afterwards, and no row is lost.
  ghost predicate Kept(db: Db, db': Db) { Valid(db') && KeepsRows(db, db') }

  lemma SameIsKept(db: Db)
    requires Valid(db)
    ensures Kept(db, db)
  {
    forall t | t in db.tables
      ensures KeepsShared(db.tables[t], db.tables[t]) && DefaultsElsewhere(db.tables[t], db.tables[t])
    {
      SameTableKeepsShared(db.tables[t]);
    }
  }

  lemma UsageIsKept(db: Db)
    requires Valid(db)
    ensures Kept(db, WithTurnUsage(db))
  {
    SameIsKept(db);
    if WithTurnUsage(db) != db {
      var t, u := db.tables[TranscriptEntries], WithTurnUsage(db).tables[TranscriptEntries];
      UsageRowsLookAlike(db);
      SameLookSameConstraints(db, TranscriptEntries, u);
      SameLookSameReferences(db, TranscriptEntries, u);
      UsageKeepsRows(t, u);
    }
  }

  lemma UsageKeepsRows(t: Table, u: Table)
    requires |u.rows| == |t.rows| && u.defs == t.defs[TurnUsage := NULLABLE]
    requires TableOk(t) && TurnUsage !in t.columns
    requires forall i, c :: 0 <= i < |t.rows| ==> Get(u.rows[i], c) == Get(t.rows[i], c)
    ensures KeepsShared(t, u) && DefaultsElsewhere(t, u)
  {
    assert TurnUsage !in t.defs;
    forall i | 0 <= i < |t.rows| ensures Get(u.rows[i], TurnUsage) == Null { assert RowOk(t, t.rows[i]); }
  }

  lemma StartIsKept(db: Db)
    requires Valid(db) && Unstarted(db)
    ensures Kept(db, Started(db))
  {
    SameIsKept(db);
    StartedStands(db);
    StartedHas(db);
    hide Started, AtLevel, Unstarted;
  }

  // Replacing one table by one that keeps its rows keeps the rows of all.
  lemma ReplacedKeepsRows(db: Db, t: TableName, u: Table, indexes: map<IndexName, Index>)
    requires Valid(db) && t in db.tables && KeepsShared(db.tables[t], u) && DefaultsElsewhere(db.tables[t], u)
    ensures KeepsRows(db, Db(db.tables[t := u], indexes))
  {
    SameIsKept(db);
    hide KeepsShared, DefaultsElsewhere, Valid;
  }

  lemma ReshapedIsKept(db: Db, m: int)
    requires IsMigration(m) && AtLevel(db, m - 1) && Valid(db)
    ensures Kept(db, Reshaped(db, m, m))
  {
    ChangeStands(m, db);
    ReshapedKeepsRows(db, m, m, Changes(m));
    hide SchemaAt, IndexMap, IndexesAt, AtLevel, KeepsShared, DefaultsElsewhere, NoOrphans, TableOk, IndexesHold,
      CarryAll;
    ReplacedKeepsRows(db, Changes(m), Reshaped(db, m, m).tables[Changes(m)], Reshaped(db, m, m).indexes);
  }

  lemma RouterIsKept(db: Db, router: Table)
    requires Valid(db) && RouterDecisions !in db.tables && TableOk(router) && router.rows == [] && router.parent.None?
    ensures Kept(db, Db(db.tables[RouterDecisions := router], db.indexes[RouterSessionTs := ROUTER_SESSION_TS]))
  {
    SameIsKept(db);
    var db' := Db(db.tables[RouterDecisions := router], db.indexes[RouterSessionTs := ROUTER_SESSION_TS]);
    forall n, i | n in db.tables && db.tables[n].parent.Some? && 0 <= i < |db.tables[n].rows|
      ensures HasParent(db', db.tables[n].parent.value, db.tables[n].rows[i])
    {
      assert HasParent(db, db.tables[n].parent.value, db.tables[n].rows[i]);
    }
    hide TableOk, KeepsShared, DefaultsElsewhere;
  }

  lemma RouterIndexIsKept(db: Db)
    requires Valid(db) && RouterDecisions in db.tables
    ensures Kept(db, db.(indexes := db.indexes[RouterTs := ROUTER_TS]))
  {
    SameIsKept(db);
    var db' := db.(indexes := db.indexes[RouterTs := ROUTER_TS]);
    assert NoOrphans(db');
    hide TableOk, KeepsShared, DefaultsElsewhere, HasParent;
  }

  lemma RouterTableOk()
    ensures TableOk(RouterTable()) && RouterTable().rows == [] && RouterTable().parent.None?
  {
    assert (set c | c in ROUTER_COLUMNS) == RouterTable().defs.Keys;
  }

  lemma LevelOfPoint(db: Db, k: int, base: Db)
    requires 10 <= k <= 16 && AtV009(base) && Shape(db) == Point(k, base)
    ensures AtLevel(db, k)
  {
    PointStands(k, base);
    LevelOfShape(db, k);
  }

  lemma FirstIsKept(db: Db)
    requires Valid(db) && (Runs in db.tables || Unstarted(db))
    ensures Kept(db, Applied(Chain(10), db))
  {
    SameIsKept(db);
    hide Kept, Started, Unstarted, Valid;
    if Runs !in db.tables { StartIsKept(db); }
  }

  lemma RebuildIsKept(db: Db, j: int, k: int)
    requires IsMigration(j) && (k == j - 1 || k == j) && Valid(db) && AtLevel(db, k)
    ensures Kept(db, Applied(Chain(j), db))
  {
    SameIsKept(db);
    GuardAt(db, j, k);
    hide Reshaped, Kept, AtLevel, Valid, Guard;
    if k == j - 1 { ReshapedIsKept(db, j); }
  }

  lemma RoutingIsKept(db: Db, j: int)
    requires 17 <= j <= 18 && Valid(db)
    ensures Kept(db, Applied(Chain(j), db))
  {
    SameIsKept(db);
    RouterTableOk();
    hide Kept, Valid, RouterTable, TableOk;
    if j == 17 {
      if RouterDecisions !in db.tables { RouterIsKept(db, RouterTable()); }
    } else {
      if RouterDecisions in db.tables { RouterIndexIsKept(db); }
    }
  }

  // A migration that runs first, or once more, on a database with the schema of its
  // point loses nothing and breaks nothing.
  lemma ChainIsKept(db: Db, j: int, k: int, base: Db)
    requires 10 <= j <= 18 && (k == j - 1 || k == j) && AtV009(base) && Valid(db) && Shape(db) == Point(k, base)
    ensures Kept(db, Applied(Chain(j), db))
  {
    hide Kept, Valid, Applied, AtLevel;
    if j == 10 {
      ShapeHas(db, Runs);
      UnstartedShape(db);
      FirstIsKept(db);
    } else if j <= 16 {
      LevelOfPoint(db, k, base);
      RebuildIsKept(db, j, k);
    } else {
      RoutingIsKept(db, j);
    }
  }

  // ---------------------------------------------------------------- runs

  datatype Event = Boots(m: Migration, crashed: bool) | Writers

  // Writers change rows as the schema permits, and no schema.
  ghost predicate Next(s: Boot, e: Event, s': Boot) {
    match e
    case Boots(m, crashed) => BootRuns(s, m, crashed, s')
    case Writers => s'.marked == s.marked && Shape(s'.db) == Shape(s.db) && Valid(s'.db)
  }

  ghost predicate IsLife(states: seq<Boot>, events: seq<Event>) {
    && |states| == |events| + 1
    && AtV009(states[0].db) && states[0].marked == {}
    && (forall i :: 0 <= i < |events| ==> Next(states[i], events[i], states[i + 1]))
  }

  function Bare(s: Boot): Boot { Boot(Shape(s.db), s.marked) }

  lemma BareRuns(s: Boot, m: Migration, crashed: bool, s': Boot)
    requires BootRuns(s, m, crashed, s')
    ensures BootRuns(Bare(s), m, crashed, Bare(s'))
  {
    ShapeOfEffect(m, s.db);
    hide Shape, Applied;
  }

  lemma BootKeeps(base: Db, s: Boot, m: Migration, crashed: bool, s': Boot, k: int, usage: bool)
    requires AtV009(base) && Valid(s.db) && Reaches(base, Bare(s), k, usage) && BootRuns(s, m, crashed, s')
    ensures Kept(s.db, s'.db)
  {
    UsageKeepsV009(base);
    hide Shape, AtV009, Kept, Valid;
    match m {
      case TurnUsageColumn => UsageIsKept(s.db);
      case Chain(j) =>
        NextInChain(s.marked, j, k, usage);
        ChainIsKept(s.db, j, k, if usage then WithTurnUsage(base) else base);
    }
  }

  lemma LifeAdvances(states: seq<Boot>, events: seq<Event>, i: nat)
    requires IsLife(states, events) && 0 < i < |states|
    ensures i - 1 < |events| && Next(states[i - 1], events[i - 1], states[i])
  {
    hide AtV009, Next;
    var k := i - 1;
    assert Next(states[k], events[k], states[k + 1]);
  }

  lemma LifeStarts(states: seq<Boot>, events: seq<Event>)
    requires IsLife(states, events)
    ensures AtV009(Shape(states[0].db)) && Reaches(Shape(states[0].db), Bare(states[0]), 9, false)
    ensures Valid(states[0].db)
  {
    ShapeAtV009(states[0].db);
    LifeBegins(states[0]);
    hide *;
  }

  // After any events the schema is that of a point of the chain, with or without the
  // other branch, and every constraint holds.
  lemma {:induction false} LifeReaches(states: seq<Boot>, events: seq<Event>, i: nat) returns (k: int, usage: bool)
    requires IsLife(states, events) && i < |states|
    ensures Reaches(Shape(states[0].db), Bare(states[i]), k, usage) && Valid(states[i].db)
    decreases i
  {
    hide *;
    LifeStarts(states, events);
    k, usage := 9, false;
    if i > 0 {
      LifeAdvances(states, events, i);
      k, usage := LifeReaches(states, events, i - 1);
      k, usage := NextReaches(Shape(states[0].db), states[i - 1], events[i - 1], states[i], k, usage);
    }
  }

  // And what a boot does loses no row.
  lemma BootsKeepRows(states: seq<Boot>, events: seq<Event>, i: nat)
    requires IsLife(states, events) && i < |events| && events[i].Boots?
    ensures KeepsRows(states[i].db, states[i + 1].db)
  {
    ShapeAtV009(states[0].db);
    hide Shape, AtV009, Valid, Reaches, BootRuns, KeepsRows;
    var k, usage := LifeReaches(states, events, i);
    BootKeeps(Shape(states[0].db), states[i], events[i].m, events[i].crashed, states[i + 1], k, usage);
  }

  lemma LifeBegins(s: Boot)
    requires AtV009(s.db) && s.marked == {}
    ensures Reaches(Shape(s.db), Bare(s), 9, false) && Valid(s.db)
  {
  }

  lemma NextReaches(base: Db, s: Boot, e: Event, s': Boot, k: int, usage: bool) returns (k': int, usage': bool)
    requires AtV009(base) && Valid(s.db) && Reaches(base, Bare(s), k, usage) && Next(s, e, s')
    ensures Reaches(base, Bare(s'), k', usage') && Valid(s'.db)
  {
    hide Shape, AtV009, Valid;
    match e {
      case Writers => k', usage' := k, usage;
      case Boots(m, crashed) =>
        BareRuns(s, m, crashed, s');
        BootKeeps(base, s, m, crashed, s', k, usage);
        k', usage' := BootStep(base, Bare(s), m, crashed, Bare(s'), k, usage);
    }
  }

  // The moment V018 ran, the other branch was marked.
  lemma {:induction false} HeadMarked(states: seq<Boot>, events: seq<Event>, i: nat) returns (j: nat)
    requires IsLife(states, events) && i < |states| && Chain(18) in states[i].marked
    ensures j <= i && TurnUsageColumn in states[j].marked
  {
    hide Shape, Valid, Applied, AtV009;
    assert i > 0;
    assert Next(states[i - 1], events[i - 1], states[i - 1 + 1]);
    if Chain(18) in states[i - 1].marked {
      j := HeadMarked(states, events, i - 1);
    } else {
      j := i - 1;
      assert TurnUsageColumn in Depends(Chain(18));
    }
  }

  lemma {:induction false} MarksStay(states: seq<Boot>, events: seq<Event>, i: nat, j: nat, m: Migration)
    requires IsLife(states, events) && i <= j < |states| && m in states[i].marked
    ensures m in states[j].marked
  {
    hide Shape, Valid, Applied, AtV009;
    if i < j {
      MarksStay(states, events, i, j - 1, m);
      assert Next(states[j - 1], events[j - 1], states[j - 1 + 1]);
    }
  }

  // At the head: the chain's last point, with the other branch.
  lemma HeadReached(db0: Db, s: Boot, k: int, usage: bool)
    requires Reaches(db0, s, k, usage) && Chain(18) in s.marked && TurnUsageColumn in s.marked
    ensures s.db == Point(18, WithTurnUsage(db0))
  {
    hide Point, WithTurnUsage;
  }

  // Once V018 is marked, the schema is the one that running every migration once and in
  // order gives, whatever happened on the way; no migration lost a row or a value, and
  // every constraint held all the time.
  lemma EveryBootRunConverges(states: seq<Boot>, events: seq<Event>)
    requires IsLife(states, events) && Chain(18) in states[|events|].marked
    ensures Shape(states[|events|].db) == Point(18, WithTurnUsage(Shape(states[0].db)))
    ensures forall i :: 0 <= i < |states| ==> Valid(states[i].db)
    ensures forall i :: 0 <= i < |events| && events[i].Boots? ==> KeepsRows(states[i].db, states[i + 1].db)
  {
    hide Point, WithTurnUsage, Next, AtV009, Shape, Valid, KeepsRows, Reaches;
    var k, usage := LifeReaches(states, events, |events|);
    var j := HeadMarked(states, events, |events|);
    MarksStay(states, events, j, |events|, TurnUsageColumn);
    HeadReached(Shape(states[0].db), Bare(states[|events|]), k, usage);
    forall i | 0 <= i < |states|
      ensures Valid(states[i].db)
      ensures i < |events| && events[i].Boots? ==> KeepsRows(states[i].db, states[i + 1].db)
    {
      var _, _ := LifeReaches(states, events, i);
      if i < |events| && events[i].Boots? { BootsKeepRows(states, events, i); }
    }
  }

  // Without writers the whole database is the one that each migration once and in order
  // gives.
  lemma EveryQuietRunConverges(states: seq<Boot>, events: seq<Event>)
    requires IsLife(states, events) && Chain(18) in states[|events|].marked
    requires forall i :: 0 <= i < |events| ==> events[i].Boots?
    ensures states[|events|].db == Point(18, WithTurnUsage(states[0].db))
  {
    hide Point, WithTurnUsage, Next, AtV009, Shape, Reaches;
    var k, usage := QuietRunReaches(states, events, |events|);
    var j := HeadMarked(states, events, |events|);
    MarksStay(states, events, j, |events|, TurnUsageColumn);
    HeadReached(states[0].db, states[|events|], k, usage);
  }

  lemma {:induction false} QuietRunReaches(states: seq<Boot>, events: seq<Event>, i: nat)
    returns (k: int, usage: bool)
    requires IsLife(states, events) && i < |states| && forall i :: 0 <= i < |events| ==> events[i].Boots?
    ensures Reaches(states[0].db, states[i], k, usage)
  {
    hide Shape, Valid, Applied, AtV009;
    if i == 0 {
      k, usage := 9, false;
    } else {
      k, usage := QuietRunReaches(states, events, i - 1);
      assert Next(states[i - 1], events[i - 1], states[i - 1 + 1]);
      k, usage := BootStep(states[0].db, states[i - 1], events[i - 1].m, events[i - 1].crashed, states[i], k, usage);
    }
  }
}
