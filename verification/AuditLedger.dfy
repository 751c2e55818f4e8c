// The apply and rollback steps of V010 .. V016 as they run on a connection, and the
// transaction that yoyo wraps around each of them.
module AuditLedger {
  import opened Options
  import opened Sqlite
  import opened Rebuild
  import opened LedgerSchema
  import opened LedgerSteps
  import opened LedgerChain
  import opened LedgerValues

  // Before V010: nothing of the ledger is there, and nothing takes its names.
  predicate Unstarted(db: Db) {
    && Tidy(db, Runs) && Tidy(db, Steps)
    && Tidy(db, RunsNew) && Tidy(db, RunsOld) && Tidy(db, StepsNew)
    && {RunsNameStarted, RunsStatusStarted, RunsSession, RunsStarted, OneAwaitingPerSession, StepsStatus}
       !! db.indexes.Keys
  }

  // The database stands at point n of the chain, 9 being the point before V010.
  ghost predicate Stands(db: Db, n: int) {
    if n == 9 then Unstarted(db) && Sound(db) else AtLevel(db, n) && Sound(db)
  }

  // ---------------------------------------------------------------- guards

  // The stored CREATE TABLE text mentions a literal. Of the literals the guards look
  // for, none is part of a table name, a column name or a default: only a CHECK
  // lists them.
  predicate DdlMentions(t: Table, word: Text) {
    exists c <- t.defs.Keys :: t.defs[c].allowed.Some? && word in t.defs[c].allowed.value
  }

  // How apply recognises that migration m has been here.
  predicate Guard(m: int, t: Table) {
    match m
    case 11 => DdlMentions(t, AutoCron)
    case 12 => DdlMentions(t, LlmChat)
    case 13 => AwaitingStepId in t.columns
    case 14 => DdlMentions(t, UserInput)
    case 15 => UsageJson in t.columns
    case _ => DdlMentions(t, ManualCommand)
  }

  lemma ColumnGuards(n: int)
    requires IsLevel(n)
    ensures AwaitingStepId in SchemaAt(Runs, n).columns <==> n >= 13
    ensures UsageJson in SchemaAt(Steps, n).columns <==> n >= 15
  {
    assert CLARIFY_COLUMNS[0] == AwaitingStepId;
    assert AwaitingStepId !in RUN_COLUMNS && UsageJson !in STEP_COLUMNS;
    assert UsageJson in STEP_COLUMNS + [UsageJson];
  }

  // A table with two CHECKs mentions a word exactly when one of the two lists it.
  lemma MentionedByCheck(t: Table, checked: Column, other: Column, word: Text)
    requires checked in t.defs && other in t.defs
    requires t.defs[checked].allowed.Some? && t.defs[other].allowed.Some?
    requires forall c <- t.defs.Keys :: c != checked && c != other ==> t.defs[c].allowed.None?
    ensures DdlMentions(t, word) <==> word in t.defs[checked].allowed.value || word in t.defs[other].allowed.value
  {
    if word in t.defs[checked].allowed.value { assert DdlMentions(t, word); }
    if word in t.defs[other].allowed.value { assert DdlMentions(t, word); }
  }

  lemma RunChecks(c: Column, n: int)
    ensures c == TriggeredBy ==> DefinitionAt(Runs, c, n).allowed == Some(TriggersAt(n))
    ensures c == Status ==> DefinitionAt(Runs, c, n).allowed == Some(StatusesAt(n))
    ensures c != TriggeredBy && c != Status ==> DefinitionAt(Runs, c, n).allowed == None
  {
  }

  lemma StepChecks(c: Column, n: int)
    ensures c == StepKind ==> DefinitionAt(Steps, c, n).allowed == Some(KindsAt(n))
    ensures c == Status ==> DefinitionAt(Steps, c, n).allowed == Some(STEP_STATUSES)
    ensures c != StepKind && c != Status ==> DefinitionAt(Steps, c, n).allowed == None
  {
  }

  lemma RunWords(n: int, word: Text)
    requires IsLevel(n)
    ensures DdlMentions(SchemaAt(Runs, n), word) <==> word in TriggersAt(n) || word in StatusesAt(n)
  {
    var t := SchemaAt(Runs, n);
    RunColumnsStay(n);
    SchemaDefinitions(Runs, n);
    hide SchemaAt, DefinitionAt;
    forall c | c in t.defs
      ensures t.defs[c] == DefinitionAt(Runs, c, n)
      ensures c != TriggeredBy && c != Status ==> t.defs[c].allowed.None?
    { RunChecks(c, n); }
    RunChecks(TriggeredBy, n);
    RunChecks(Status, n);
    MentionedByCheck(t, TriggeredBy, Status, word);
  }

  lemma StepStatusStays(n: int)
    ensures Status in SchemaAt(Steps, n).defs
  {
    assert STEP_COLUMNS[5] == Status;
    assert Status in STEP_COLUMNS && Status in StepColumnsAt(n);
  }

  lemma StepWords(n: int, word: Text)
    requires IsLevel(n)
    ensures DdlMentions(SchemaAt(Steps, n), word) <==> word in KindsAt(n) || word in STEP_STATUSES
  {
    var t := SchemaAt(Steps, n);
    StepColumnsStay(n);
    SchemaDefinitions(Steps, n);
    StepStatusStays(n);
    hide SchemaAt, DefinitionAt;
    forall c | c in t.defs
      ensures t.defs[c] == DefinitionAt(Steps, c, n)
      ensures c != StepKind && c != Status ==> t.defs[c].allowed.None?
    { StepChecks(c, n); }
    StepChecks(StepKind, n);
    StepChecks(Status, n);
    MentionedByCheck(t, StepKind, Status, word);
  }

  lemma RunGuards(n: int)
    requires IsLevel(n)
    ensures AutoCron in TriggersAt(n) || AutoCron in StatusesAt(n) <==> n >= 11
    ensures ManualCommand in TriggersAt(n) || ManualCommand in StatusesAt(n) <==> n >= 16
  {
  }

  lemma StepGuards(n: int)
    requires IsLevel(n)
    ensures LlmChat in KindsAt(n) || LlmChat in STEP_STATUSES <==> n >= 12
    ensures UserInput in KindsAt(n) || UserInput in STEP_STATUSES <==> n >= 14
  {
  }

  // Every guard recognises the schema its migration leaves and every later one,
  // and no earlier one.
  lemma GuardRecognises(m: int, n: int)
    requires IsMigration(m) && IsLevel(n)
    ensures Guard(m, SchemaAt(Changes(m), n)) <==> n >= m
  {
    match m {
      case 11 => RunWords(n, AutoCron); RunGuards(n);
      case 16 => RunWords(n, ManualCommand); RunGuards(n);
      case 12 => StepWords(n, LlmChat); StepGuards(n);
      case 14 => StepWords(n, UserInput); StepGuards(n);
      case _ => ColumnGuards(n);
    }
  }

  lemma GuardDepends(m: int, t: Table, u: Table)
    requires IsMigration(m) && Emptied(t) == Emptied(u)
    ensures Guard(m, t) <==> Guard(m, u)
  {
    assert t.defs == Emptied(t).defs == u.defs && t.columns == Emptied(t).columns == u.columns;
  }

  lemma GuardAt(db: Db, m: int, n: int)
    requires IsMigration(m) && AtLevel(db, n)
    ensures Changes(m) in db.tables && (Guard(m, db.tables[Changes(m)]) <==> n >= m)
  {
    GuardRecognises(m, n);
    GuardDepends(m, db.tables[Changes(m)], SchemaAt(Changes(m), n));
  }

  // ---------------------------------------------------------------- contracts

  // What applying migration m does to a database at point n, when the chain has
  // reached it: nothing if the ledger is not there or the migration already was;
  // a refusal if a rebuild would run with enforcement live; otherwise the in-place
  // change, which only a database with orphans prevents.
  ghost predicate AppliesAs(m: int, n: int, before: Db, enforced: bool, o: Outcome, after: Db) {
    if n == 9 || n >= m then o == Done && after == before
    else if m != 15 && enforced then o == Raised(ForeignKeysLive) && after == before
    else
      && IsMigration(m) && Changes(m) in before.tables
      && (o.Done? <==> m == 15 || NoOrphans(before))
      && (o.Done? ==> after == Reshaped(before, m, m))
  }

  // What rolling migration m back does to a database at point m, and to one where it has
  // already been rolled back.
  ghost predicate RollsBackAs(m: int, n: int, before: Db, enforced: bool, o: Outcome, after: Db) {
    if n == 9 then o == Done && after == before
    else if n == m - 1 then
      && (o.Done? <==> m == 15 || (!enforced && NoOrphans(before)))
      && (o.Done? ==> after == before)
    else
      && IsMigration(m) && Changes(m) in before.tables
      && (o.Done? <==> !enforced && NoOrphans(before) && !Uses(before, m))
      && (o.Done? ==> after == Reshaped(before, m, m - 1))
  }

  predicate Reached(m: int, n: int) { n == 9 || (IsLevel(n) && n >= m - 1) }

  lemma ReadyToRebuild(db: Db, m: int, d: Direction)
    requires Rebuilds(m, d) && Stands(db, From(m, d)) && From(m, d) != 9
    ensures
      var p, db0 := PlanOf(m, d), Prepared(db, m, d);
      && p.WellFormed() && p.table == Changes(m) && p.table in db0.tables
      && Tidy(db0, p.temp) && NamesFree(db0, p)
      && (Admissible(db0, p) <==> NoOrphans(db) && (d == Up || !Uses(db, m)))
      && (Admissible(db0, p) ==> InPlace(db0, p) == Reshaped(db, m, To(m, d)))
  {
    StepInPlace(db, m, d);
    StepAdmissible(db, m, d);
  }

  lemma ReadyToRepeat(db: Db, m: int)
    requires IsMigration(m) && m != 15 && Stands(db, m - 1)
    ensures
      var p, db0 := PlanOf(m, Down), Prepared(db, m, Down);
      && db0 == db && p.WellFormed() && p.table == Changes(m) && p.table in db.tables
      && Tidy(db, p.temp) && NamesFree(db, p)
      && (Admissible(db, p) <==> NoOrphans(db))
      && (Admissible(db, p) ==> InPlace(db, p) == db)
  {
    NothingToDrop(db, m);
    RollbackAgain(db, m);
    hide PlanOf, SchemaAt, IndexesAt, IndexMap, InPlace;
  }

  // The recreate helper as migration m calls it, the guards of the step being past. The
  // database stands where the step starts, or where a rollback has already led.
  method RecreateTable(conn: Connection, m: int, d: Direction, ghost n: int, ghost before: Db) returns (o: Outcome)
    requires Rebuilds(m, d) && Stands(before, n) && n != 9
    requires n == From(m, d) || (d == Down && n == m - 1 && m != 15)
    requires conn.db == Prepared(before, m, d)
    modifies conn`db, conn`enforced
    ensures old(conn.enforced) ==> o == Raised(ForeignKeysLive) && conn.db == old(conn.db) && conn.enforced
    ensures !old(conn.enforced) && n == From(m, d) ==>
      && Changes(m) in before.tables
      && (o.Done? <==> NoOrphans(before) && (d == Up || !Uses(before, m)))
      && (o.Done? ==> conn.db == Reshaped(before, m, To(m, d)))
    ensures !old(conn.enforced) && n != From(m, d) ==>
      (o.Done? <==> NoOrphans(before)) && (o.Done? ==> conn.db == before)
    ensures !old(conn.enforced) ==> conn.enforced == !conn.inTransaction
  {
    if n == From(m, d) { ReadyToRebuild(before, m, d); } else { ReadyToRepeat(before, m); }
    o := Recreate(conn, PlanOf(m, d));
  }

  // ---------------------------------------------------------------- apply steps

  method ApplyV011(conn: Connection, ghost n: int) returns (o: Outcome)
    requires Stands(conn.db, n) && Reached(11, n)
    modifies conn`db, conn`enforced
    ensures AppliesAs(11, n, old(conn.db), old(conn.enforced), o, conn.db)
    ensures conn.enforced == (old(conn.enforced) || (10 <= n < 11 && !conn.inTransaction))
  {
    if Runs !in conn.db.tables { return Done; }
    GuardAt(conn.db, 11, n);
    if DdlMentions(conn.db.tables[Runs], AutoCron) { return Done; }
    o := RecreateTable(conn, 11, Up, n, conn.db);
  }

  method ApplyV012(conn: Connection, ghost n: int) returns (o: Outcome)
    requires Stands(conn.db, n) && Reached(12, n)
    modifies conn`db, conn`enforced
    ensures AppliesAs(12, n, old(conn.db), old(conn.enforced), o, conn.db)
    ensures conn.enforced == (old(conn.enforced) || (10 <= n < 12 && !conn.inTransaction))
  {
    if Steps !in conn.db.tables { return Done; }
    GuardAt(conn.db, 12, n);
    if DdlMentions(conn.db.tables[Steps], LlmChat) { return Done; }
    o := RecreateTable(conn, 12, Up, n, conn.db);
  }

  method ApplyV013(conn: Connection, ghost n: int) returns (o: Outcome)
    requires Stands(conn.db, n) && Reached(13, n)
    modifies conn`db, conn`enforced
    ensures AppliesAs(13, n, old(conn.db), old(conn.enforced), o, conn.db)
    ensures conn.enforced == (old(conn.enforced) || (10 <= n < 13 && !conn.inTransaction))
    ensures o.Done? && n == 12 ==> forall r <- conn.db.tables[Runs].rows :: AwaitsNothing(r)
  {
    if n == 12 { ClarifyStartsEmpty(conn.db); }
    if Runs !in conn.db.tables { return Done; }
    GuardAt(conn.db, 13, n);
    if AwaitingStepId in conn.db.tables[Runs].columns { return Done; }
    o := RecreateTable(conn, 13, Up, n, conn.db);
  }

  method ApplyV014(conn: Connection, ghost n: int) returns (o: Outcome)
    requires Stands(conn.db, n) && Reached(14, n)
    modifies conn`db, conn`enforced
    ensures AppliesAs(14, n, old(conn.db), old(conn.enforced), o, conn.db)
    ensures conn.enforced == (old(conn.enforced) || (10 <= n < 14 && !conn.inTransaction))
  {
    if Steps !in conn.db.tables { return Done; }
    GuardAt(conn.db, 14, n);
    if DdlMentions(conn.db.tables[Steps], UserInput) { return Done; }
    o := RecreateTable(conn, 14, Up, n, conn.db);
  }

  method ApplyV015(conn: Connection, ghost n: int) returns (o: Outcome)
    requires Stands(conn.db, n) && Reached(15, n)
    modifies conn`db, conn`enforced
    ensures AppliesAs(15, n, old(conn.db), old(conn.enforced), o, conn.db)
    ensures conn.enforced == old(conn.enforced)
    ensures n == 14 ==> forall r <- conn.db.tables[Steps].rows :: Get(r, UsageJson) == Str(EmptyObject)
  {
    if n == 14 { UsageStartsEmpty(conn.db); }
    if Steps !in conn.db.tables { return Done; }
    GuardAt(conn.db, 15, n);
    if UsageJson in conn.db.tables[Steps].columns { return Done; }
    UsageColumnAdded(conn.db);
    o := conn.Execute(AddColumn(conn.db, Steps, UsageJson, StepDefinition(UsageJson, {})));
  }

  method ApplyV016(conn: Connection, ghost n: int) returns (o: Outcome)
    requires Stands(conn.db, n) && Reached(16, n)
    modifies conn`db, conn`enforced
    ensures AppliesAs(16, n, old(conn.db), old(conn.enforced), o, conn.db)
    ensures conn.enforced == (old(conn.enforced) || (10 <= n < 16 && !conn.inTransaction))
  {
    if Runs !in conn.db.tables { return Done; }
    GuardAt(conn.db, 16, n);
    if DdlMentions(conn.db.tables[Runs], ManualCommand) { return Done; }
    o := RecreateTable(conn, 16, Up, n, conn.db);
  }

  // ALTER TABLE ADD COLUMN and a rebuild that carries every row over agree.
  lemma AddedRows(t: Table, up: Table, c: Column, d: Definition)
    requires TableOk(t) && c !in t.defs && up.defs == t.defs[c := d]
    ensures seq(|t.rows|, i requires 0 <= i < |t.rows| => t.rows[i][c := d.initial]) == CarryAll(t.rows, up)
  {
    forall i | 0 <= i < |t.rows| ensures t.rows[i][c := d.initial] == Carry(t.rows[i], up) {
      assert RowOk(t, t.rows[i]);
    }
  }

  lemma AddColumnCarries(db: Db, t: TableName, c: Column, d: Definition, down: Table, up: Table)
    requires t in db.tables && Emptied(db.tables[t]) == down && TableOk(db.tables[t])
    requires c !in down.columns && c !in down.defs && Passes(d, d.initial)
    requires up == down.(columns := down.columns + [c], defs := down.defs[c := d])
    ensures AddColumn(db, t, c, d)
      == Ok(Db(db.tables[t := up.(rows := CarryAll(db.tables[t].rows, up))],
               OffTable(db.indexes, t) + OnTable(db.indexes, t)))
  {
    assert db.tables[t] == down.(rows := db.tables[t].rows);
    AddedRows(db.tables[t], up, c, d);
    OffAndOn(db.indexes, t);
  }

  lemma UsageColumnAdded(db: Db)
    requires Stands(db, 14)
    ensures AddColumn(db, Steps, UsageJson, StepDefinition(UsageJson, {})) == Ok(Reshaped(db, 15, 15))
  {
    UsageSchema();
    UsageIsNew();
    StepsAt14And15();
    AddColumnCarries(db, Steps, UsageJson, StepDefinition(UsageJson, {}), SchemaAt(Steps, 14), SchemaAt(Steps, 15));
  }

  lemma SchemaWithColumn(columns: seq<Column>, kinds: set<Text>, c: Column)
    ensures
      var down, up := StepsSchema(columns, kinds), StepsSchema(columns + [c], kinds);
      up == down.(columns := columns + [c], defs := down.defs[c := StepDefinition(c, kinds)])
  {
    assert StepsSchema(columns + [c], kinds).defs == StepsSchema(columns, kinds).defs[c := StepDefinition(c, kinds)];
  }

  lemma StepsAt14And15()
    ensures SchemaAt(Steps, 14) == StepsSchema(STEP_COLUMNS, V014_KINDS)
    ensures SchemaAt(Steps, 15) == StepsSchema(STEP_COLUMNS + [UsageJson], V014_KINDS)
    ensures IndexesAt(Steps, 14) == IndexesAt(Steps, 15)
  {
  }

  lemma UsageSchema()
    ensures
      var down, up, d := SchemaAt(Steps, 14), SchemaAt(Steps, 15), StepDefinition(UsageJson, {});
      && up == down.(columns := down.columns + [UsageJson], defs := down.defs[UsageJson := d])
      && Passes(d, d.initial)
  {
    StepsAt14And15();
    SchemaWithColumn(STEP_COLUMNS, V014_KINDS, UsageJson);
    assert StepDefinition(UsageJson, V014_KINDS) == StepDefinition(UsageJson, {});
  }

  lemma UsageIsNew()
    ensures UsageJson !in SchemaAt(Steps, 14).columns && UsageJson !in SchemaAt(Steps, 14).defs
  {
    ColumnGuards(14);
  }

  // ---------------------------------------------------------------- rollback steps

  method RollbackV011(conn: Connection, ghost n: int) returns (o: Outcome)
    requires Stands(conn.db, n) && (n == 9 || n == 10 || n == 11)
    modifies conn`db, conn`enforced
    ensures RollsBackAs(11, n, old(conn.db), old(conn.enforced), o, conn.db)
    ensures conn.inTransaction ==> conn.enforced == old(conn.enforced)
  {
    if Runs !in conn.db.tables { return Done; }
    o := RecreateTable(conn, 11, Down, n, conn.db);
  }

  method RollbackV012(conn: Connection, ghost n: int) returns (o: Outcome)
    requires Stands(conn.db, n) && (n == 9 || n == 11 || n == 12)
    modifies conn`db, conn`enforced
    ensures RollsBackAs(12, n, old(conn.db), old(conn.enforced), o, conn.db)
    ensures conn.inTransaction ==> conn.enforced == old(conn.enforced)
  {
    if Steps !in conn.db.tables { return Done; }
    o := RecreateTable(conn, 12, Down, n, conn.db);
  }

  predicate HoldsOne(r: Row, c: Column, words: set<Text>) { Get(r, c).Str? && Get(r, c).text in words }

  // SELECT COUNT(*) .. WHERE column IN (words)
  method CountRows(rows: seq<Row>, c: Column, words: set<Text>) returns (count: nat)
    ensures count == |set k | 0 <= k < |rows| && HoldsOne(rows[k], c, words)|
    ensures count == 0 <==> forall i :: 0 <= i < |rows| ==> !HoldsOne(rows[i], c, words)
  {
    hide HoldsOne;
    count := 0;
    ghost var counted: set<int> := {};
    for k := 0 to |rows|
      invariant forall i :: i in counted <==> 0 <= i < k && HoldsOne(rows[i], c, words)
      invariant count == |counted|
    {
      if HoldsOne(rows[k], c, words) {
        counted := counted + {k};
        count := count + 1;
      }
    }
    assert counted == set k | 0 <= k < |rows| && HoldsOne(rows[k], c, words);
    assert forall i | 0 <= i < |rows| :: HoldsOne(rows[i], c, words) ==> i in counted;
  }

  lemma UsesCounted(db: Db, m: int, words: set<Text>)
    requires IsMigration(m) && Changes(m) in db.tables && words == Admits(m)
    ensures
      var rows, c := db.tables[Changes(m)].rows, CheckedBy(m);
      Uses(db, m) <==> !forall i :: 0 <= i < |rows| ==> !(Get(rows[i], c).Str? && Get(rows[i], c).text in words)
  {
    var rows, c := db.tables[Changes(m)].rows, CheckedBy(m);
    forall i | 0 <= i < |rows|
      ensures Forbidden(m, rows[i]) <==> Get(rows[i], c).Str? && Get(rows[i], c).text in words
    {
    }
  }

  lemma LedgerIsThere(db: Db, m: int, n: int)
    requires Stands(db, n) && IsMigration(m)
    ensures Changes(m) in db.tables <==> n != 9
  {
    hide SchemaAt, IndexMap;
  }

  // Where the migration has been rolled back, no row is in its way.
  lemma NothingBlocks(db: Db, m: int, n: int)
    requires Stands(db, n) && IsMigration(m)
    ensures n == m - 1 ==> Changes(m) in db.tables && !Uses(db, m)
  {
    hide SchemaAt, IndexMap;
    if n == m - 1 { NothingLeft(db, m); }
  }

  method RollbackV013(conn: Connection, ghost n: int) returns (o: Outcome)
    requires Stands(conn.db, n) && (n == 9 || n == 12 || n == 13)
    modifies conn`db, conn`enforced
    ensures RollsBackAs(13, n, old(conn.db), old(conn.enforced), o, conn.db)
    ensures n == 13 && Uses(old(conn.db), 13) ==>
      o == Raised(RollbackBlocked) && conn.db == DropIndex(old(conn.db), OneAwaitingPerSession)
    ensures conn.inTransaction ==> conn.enforced == old(conn.enforced)
  {
    hide Stands, Uses, Reshaped;
    LedgerIsThere(conn.db, 13, n);
    NothingBlocks(conn.db, 13, n);
    if Runs !in conn.db.tables { return Done; }
    UsesCounted(conn.db, 13, {AwaitingUser, Expired});
    o := conn.Execute(Ok(DropIndex(conn.db, OneAwaitingPerSession)));
    assert conn.db == Prepared(old(conn.db), 13, Down);
    var leftover := CountRows(conn.db.tables[Runs].rows, Status, {AwaitingUser, Expired});
    if leftover != 0 { return Raised(RollbackBlocked); }
    o := RecreateTable(conn, 13, Down, n, old(conn.db));
  }

  method RollbackV014(conn: Connection, ghost n: int) returns (o: Outcome)
    requires Stands(conn.db, n) && (n == 9 || n == 13 || n == 14)
    modifies conn`db, conn`enforced
    ensures RollsBackAs(14, n, old(conn.db), old(conn.enforced), o, conn.db)
    ensures n == 14 && Uses(old(conn.db), 14) ==> o == Raised(RollbackBlocked) && conn.db == old(conn.db)
    ensures conn.inTransaction ==> conn.enforced == old(conn.enforced)
  {
    hide Stands, Uses, Reshaped;
    LedgerIsThere(conn.db, 14, n);
    NothingBlocks(conn.db, 14, n);
    if Steps !in conn.db.tables { return Done; }
    UsesCounted(conn.db, 14, {UserInput});
    var userInputs := CountRows(conn.db.tables[Steps].rows, StepKind, {UserInput});
    if userInputs != 0 { return Raised(RollbackBlocked); }
    o := RecreateTable(conn, 14, Down, n, conn.db);
  }

  method RollbackV015(conn: Connection, ghost n: int) returns (o: Outcome)
    requires Stands(conn.db, n) && (n == 9 || n == 14 || n == 15)
    modifies conn`db, conn`enforced
    ensures RollsBackAs(15, n, old(conn.db), old(conn.enforced), o, conn.db)
    ensures conn.inTransaction ==> conn.enforced == old(conn.enforced)
  {
    if Steps !in conn.db.tables { return Done; }
    GuardAt(conn.db, 15, n);
    if UsageJson !in conn.db.tables[Steps].columns { return Done; }
    o := RecreateTable(conn, 15, Down, n, conn.db);
  }

  method RollbackV016(conn: Connection, ghost n: int) returns (o: Outcome)
    requires Stands(conn.db, n) && (n == 9 || n == 15 || n == 16)
    modifies conn`db, conn`enforced
    ensures RollsBackAs(16, n, old(conn.db), old(conn.enforced), o, conn.db)
    ensures n == 16 && Uses(old(conn.db), 16) ==> o == Raised(RollbackBlocked) && conn.db == old(conn.db)
    ensures conn.inTransaction ==> conn.enforced == old(conn.enforced)
  {
    hide Stands, Uses, Reshaped;
    LedgerIsThere(conn.db, 16, n);
    NothingBlocks(conn.db, 16, n);
    if Runs !in conn.db.tables { return Done; }
    UsesCounted(conn.db, 16, {ManualCommand});
    var manual := CountRows(conn.db.tables[Runs].rows, TriggeredBy, {ManualCommand});
    if manual != 0 { return Raised(RollbackBlocked); }
    o := RecreateTable(conn, 16, Down, n, conn.db);
  }

  // ---------------------------------------------------------------- transactions

  // yoyo runs every step in a transaction of its own: a step that raises leaves no
  // trace, and the foreign_keys pragma cannot change under it.
  // A step that raises is described by what it found alone.
  lemma RaisedApply(m: int, n: int, before: Db, enforced: bool, o: Outcome, after: Db)
    requires AppliesAs(m, n, before, enforced, o, after) && o.Raised?
    ensures AppliesAs(m, n, before, enforced, o, before)
  {
  }

  lemma RaisedRollback(m: int, n: int, before: Db, enforced: bool, o: Outcome, after: Db)
    requires RollsBackAs(m, n, before, enforced, o, after) && o.Raised?
    ensures RollsBackAs(m, n, before, enforced, o, before)
  {
  }

  method ApplyInTransaction(conn: Connection, m: int, ghost n: int) returns (o: Outcome)
    requires IsMigration(m) && Stands(conn.db, n) && Reached(m, n) && !conn.inTransaction
    modifies conn
    ensures !conn.inTransaction && conn.enforced == old(conn.enforced)
    ensures AppliesAs(m, n, old(conn.db), conn.enforced, o, conn.db)
    ensures o.Raised? ==> conn.db == old(conn.db)
  {
    hide AppliesAs, Stands;
    var saved := conn.db;
    conn.inTransaction := true;
    match m {
      case 11 => o := ApplyV011(conn, n);
      case 12 => o := ApplyV012(conn, n);
      case 13 => o := ApplyV013(conn, n);
      case 14 => o := ApplyV014(conn, n);
      case 15 => o := ApplyV015(conn, n);
      case _ => o := ApplyV016(conn, n);
    }
    if o.Raised? {
      RaisedApply(m, n, saved, conn.enforced, o, conn.db);
      conn.db := saved;
    }
    conn.inTransaction := false;
  }

  method RollbackInTransaction(conn: Connection, m: int, ghost n: int) returns (o: Outcome)
    requires IsMigration(m) && Stands(conn.db, n) && (n == 9 || n == m - 1 || n == m) && !conn.inTransaction
    modifies conn
    ensures !conn.inTransaction && conn.enforced == old(conn.enforced)
    ensures RollsBackAs(m, n, old(conn.db), conn.enforced, o, conn.db)
    ensures o.Raised? ==> conn.db == old(conn.db)
  {
    hide RollsBackAs, Stands;
    var saved := conn.db;
    conn.inTransaction := true;
    match m {
      case 11 => o := RollbackV011(conn, n);
      case 12 => o := RollbackV012(conn, n);
      case 13 => o := RollbackV013(conn, n);
      case 14 => o := RollbackV014(conn, n);
      case 15 => o := RollbackV015(conn, n);
      case _ => o := RollbackV016(conn, n);
    }
    if o.Raised? {
      RaisedRollback(m, n, saved, conn.enforced, o, conn.db);
      conn.db := saved;
    }
    conn.inTransaction := false;
  }
}
