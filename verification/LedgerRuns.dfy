// Whole runs of the ledger chain: migrations, re-applied migrations and rollbacks,
// each in its own transaction, interleaved with writers that may do anything the
// current schema permits.
module LedgerRuns {
  import opened Sqlite
  import opened Rebuild
  import opened LedgerSchema
  import opened LedgerSteps
  import opened LedgerChain
  import opened AuditLedger

  // The database, the point of the chain it stands at, and whether the migration
  // connection enforces foreign keys.
  datatype Ledger = Ledger(db: Db, n: int, enforced: bool)

  datatype Event =
    | Write
    | Apply(m: int, o: Outcome)
    | Rollback(m: int, o: Outcome)

  // Any number of writer transactions. Writers enforce foreign keys, so every
  // declared constraint holds when they commit; they do not alter the ledger's schema.
  ghost predicate PermittedWrite(db: Db, db': Db) {
    && (forall t | t == Runs || t == Steps ::
          && t in db.tables && t in db'.tables
          && Emptied(db'.tables[t]) == Emptied(db.tables[t])
          && OnTable(db'.indexes, t) == OnTable(db.indexes, t))
    && Undisturbed(db')
    && Valid(db')
  }

  function WithRows(db: Db, runs: seq<Row>, steps: seq<Row>): Db
    requires Runs in db.tables && Steps in db.tables
  {
    db.(tables := db.tables[Runs := db.tables[Runs].(rows := runs)][Steps := db.tables[Steps].(rows := steps)])
  }

  lemma RowsDoNotDisturb(db: Db, runs: seq<Row>, steps: seq<Row>)
    requires Runs in db.tables && Steps in db.tables && Undisturbed(db)
    ensures Undisturbed(WithRows(db, runs, steps))
  {
    var db' := WithRows(db, runs, steps);
    assert db'.tables.Keys == db.tables.Keys && db'.indexes == db.indexes;
    forall t | t in db.tables ensures db'.tables[t].parent == db.tables[t].parent {
    }
  }

  // The ledger may get any rows that its constraints permit.
  lemma AnyRowsMayBeWritten(db: Db, n: int, runs: seq<Row>, steps: seq<Row>)
    requires AtLevel(db, n)
    ensures PermittedWrite(db, WithRows(db, runs, steps)) <==> Valid(WithRows(db, runs, steps))
  {
    var db' := WithRows(db, runs, steps);
    RowsDoNotDisturb(db, runs, steps);
    assert Runs in db.tables && Steps in db.tables && db'.indexes == db.indexes;
    hide Valid, AtLevel, Undisturbed, OnTable, WithRows;
    assert Emptied(db'.tables[Runs]) == Emptied(db.tables[Runs]);
    assert Emptied(db'.tables[Steps]) == Emptied(db.tables[Steps]);
  }

  ghost predicate Next(s: Ledger, e: Event, s': Ledger) {
    && s'.enforced == s.enforced
    && match e
       case Write => PermittedWrite(s.db, s'.db) && s'.n == s.n
       case Apply(m, o) =>
         && IsMigration(m) && Reached(m, s.n)
         && AppliesAs(m, s.n, s.db, s.enforced, o, s'.db)
         && (o.Raised? ==> s'.db == s.db)
         && s'.n == if o.Done? && s.n == m - 1 then m else s.n
       case Rollback(m, o) =>
         && IsMigration(m) && (s.n == m || s.n == m - 1)
         && RollsBackAs(m, s.n, s.db, s.enforced, o, s'.db)
         && (o.Raised? ==> s'.db == s.db)
         && s'.n == if o.Done? && s.n == m then m - 1 else s.n
  }

  // One migration of the chain, in its transaction on a connection, is such an event:
  // it is the transaction that keeps the flag.
  method Migrate(conn: Connection, m: int, d: Direction, ghost n: int) returns (o: Outcome, ghost s': Ledger)
    requires IsMigration(m) && AtLevel(conn.db, n) && Valid(conn.db) && !conn.inTransaction
    requires if d == Up then Reached(m, n) else n == m || n == m - 1
    modifies conn
    ensures !conn.inTransaction && s'.db == conn.db && s'.enforced == conn.enforced
    ensures Next(Ledger(old(conn.db), n, old(conn.enforced)), if d == Up then Apply(m, o) else Rollback(m, o), s')
    ensures AtLevel(conn.db, s'.n) && Valid(conn.db)
  {
    ghost var s := Ledger(conn.db, n, conn.enforced);
    ValidIsSound(conn.db);
    if d == Up {
      o := ApplyInTransaction(conn, m, n);
      s' := Ledger(conn.db, if o.Done? && n == m - 1 then m else n, conn.enforced);
      NextStaysConsistent(s, Apply(m, o), s');
    } else {
      o := RollbackInTransaction(conn, m, n);
      s' := Ledger(conn.db, if o.Done? && n == m then m - 1 else n, conn.enforced);
      NextStaysConsistent(s, Rollback(m, o), s');
    }
  }

  // What every state of every run satisfies.
  ghost predicate Consistent(s: Ledger) {
    AtLevel(s.db, s.n) && Valid(s.db)
  }

  lemma ValidIsSound(db: Db)
    ensures Valid(db) <==> Sound(db) && NoOrphans(db)
  {
  }

  lemma WriteKeepsLevel(db: Db, db': Db, n: int)
    requires AtLevel(db, n) && PermittedWrite(db, db')
    ensures AtLevel(db', n)
  {
    assert TableAt(db', Runs, n);
    assert TableAt(db', Steps, n);
  }

  lemma StepStaysConsistent(db: Db, m: int, d: Direction)
    requires IsMigration(m) && AtLevel(db, From(m, d)) && Valid(db) && (d == Up || !Uses(db, m))
    ensures AtLevel(Reshaped(db, m, To(m, d)), To(m, d)) && Valid(Reshaped(db, m, To(m, d)))
  {
    ValidIsSound(db);
    StepReachesLevel(db, m, d);
    StepStaysSound(db, m, d);
    StepKeepsReferences(db, m, d);
    ValidIsSound(Reshaped(db, m, To(m, d)));
  }

  lemma RollbackStaysConsistent(s: Ledger, m: int, o: Outcome, s': Ledger)
    requires Consistent(s) && Next(s, Rollback(m, o), s')
    ensures Consistent(s')
    ensures !s.enforced ==> (o.Done? <==> !Uses(s.db, m))
  {
    ValidIsSound(s.db);
    hide Reshaped, AtLevel, Sound, Uses;
    if s.n == m - 1 { NothingLeft(s.db, m); } else if o.Done? { StepStaysConsistent(s.db, m, Down); }
  }

  // One event keeps every constraint and the schema of the level. With enforcement
  // off no apply fails, and a rollback fails exactly when a row uses a value the
  // older CHECK forbids.
  lemma NextStaysConsistent(s: Ledger, e: Event, s': Ledger)
    requires Consistent(s) && Next(s, e, s')
    ensures Consistent(s')
    ensures !s.enforced && e.Apply? ==> e.o.Done?
    ensures !s.enforced && e.Rollback? ==> (e.o.Done? <==> !Uses(s.db, e.m))
  {
    ValidIsSound(s.db);
    match e {
      case Write => WriteKeepsLevel(s.db, s'.db, s.n);
      case Apply(m, o) => if o.Done? && s.n < m { StepStaysConsistent(s.db, m, Up); }
      case Rollback(m, o) => RollbackStaysConsistent(s, m, o, s');
    }
  }

  ghost predicate IsRun(states: seq<Ledger>, events: seq<Event>) {
    && |states| == |events| + 1
    && (forall i :: 0 <= i < |events| ==> Next(states[i], events[i], states[i + 1]))
  }

  lemma {:induction false} StateConsistent(states: seq<Ledger>, events: seq<Event>, i: nat)
    requires IsRun(states, events) && Consistent(states[0]) && i < |states|
    ensures Consistent(states[i])
  {
    hide Consistent, Next;
    if i > 0 {
      var s, e, s' := states[i - 1], events[i - 1], states[i];
      StateConsistent(states, events, i - 1);
      assert Next(s, e, s') by { assert Next(states[i - 1], events[i - 1], states[i - 1 + 1]); }
      NextStaysConsistent(s, e, s');
    }
  }

  lemma {:induction false} FlagConstant(states: seq<Ledger>, events: seq<Event>, i: nat)
    requires IsRun(states, events) && i < |states|
    ensures states[i].enforced == states[0].enforced
  {
    if i > 0 {
      FlagConstant(states, events, i - 1);
      assert Next(states[i - 1], events[i - 1], states[i - 1 + 1]);
    }
  }

  // With enforcement off: an apply succeeds, and a rollback does unless a row is in
  // its way.
  predicate GoesThrough(s: Ledger, e: Event)
    requires e.Rollback? ==> Changes(e.m) in s.db.tables
  {
    match e
    case Write => true
    case Apply(_, o) => o.Done?
    case Rollback(m, o) => o.Done? <==> !Uses(s.db, m)
  }

  lemma NextGoesThrough(s: Ledger, e: Event, s': Ledger)
    requires Consistent(s) && Next(s, e, s') && !s.enforced
    ensures (e.Rollback? ==> Changes(e.m) in s.db.tables) && GoesThrough(s, e)
  {
    NextStaysConsistent(s, e, s');
    hide PermittedWrite, AppliesAs, RollsBackAs, Undisturbed;
  }

  // With enforcement live: a migration that would rebuild a table raises and changes
  // nothing.
  predicate IsRefused(s: Ledger, e: Event, s': Ledger) {
    match e
    case Write => true
    case Apply(m, o) => s.n < m && m != 15 ==> o == Raised(ForeignKeysLive) && s' == s
    case Rollback(m, o) => (s.n == m || m != 15 ==> o.Raised?) && s' == s
  }

  lemma NextIsRefused(s: Ledger, e: Event, s': Ledger)
    requires Consistent(s) && Next(s, e, s') && s.enforced
    ensures IsRefused(s, e, s') && (s'.n == s.n || (s.n == 14 && s'.n == 15))
  {
    hide PermittedWrite, Reshaped, Undisturbed;
  }

  lemma {:induction false} LevelStays(states: seq<Ledger>, events: seq<Event>, i: nat)
    requires IsRun(states, events) && Consistent(states[0]) && states[0].enforced && i < |states|
    ensures states[i].n == states[0].n || (states[0].n == 14 && states[i].n == 15)
    ensures i < |events| ==> IsRefused(states[i], events[i], states[i + 1])
  {
    hide Consistent, Next, IsRefused;
    StateConsistent(states, events, i);
    FlagConstant(states, events, i);
    if i > 0 {
      LevelStays(states, events, i - 1);
      StateConsistent(states, events, i - 1);
      FlagConstant(states, events, i - 1);
      assert Next(states[i - 1], events[i - 1], states[i - 1 + 1]);
      NextIsRefused(states[i - 1], events[i - 1], states[i]);
    }
    if i < |events| { NextIsRefused(states[i], events[i], states[i + 1]); }
  }

  // Every run from a valid database: each state stands at its level with every
  // constraint holding, and the foreign-key flag never changes. With enforcement off no
  // migration ever fails; with it on the ledger stays where it is, but for the column
  // that V015 adds.
  lemma EveryRun(states: seq<Ledger>, events: seq<Event>)
    requires IsRun(states, events) && Consistent(states[0])
    ensures forall i :: 0 <= i < |states| ==> Consistent(states[i]) && states[i].enforced == states[0].enforced
    ensures !states[0].enforced ==>
      forall i :: 0 <= i < |events| ==>
        (events[i].Rollback? ==> Changes(events[i].m) in states[i].db.tables) && GoesThrough(states[i], events[i])
    ensures states[0].enforced ==>
      && (forall i :: 0 <= i < |events| ==> IsRefused(states[i], events[i], states[i + 1]))
      && (forall i :: 0 <= i < |states| ==> states[i].n == states[0].n || (states[0].n == 14 && states[i].n == 15))
  {
    hide Consistent, Next, IsRefused, GoesThrough;
    forall i | 0 <= i < |states| && states[0].enforced
      ensures states[i].n == states[0].n || (states[0].n == 14 && states[i].n == 15)
      ensures i < |events| ==> IsRefused(states[i], events[i], states[i + 1])
    {
      LevelStays(states, events, i);
    }
    forall i | 0 <= i < |states| ensures Consistent(states[i]) && states[i].enforced == states[0].enforced {
      StateConsistent(states, events, i);
      FlagConstant(states, events, i);
    }
    forall i | 0 <= i < |events| && !states[0].enforced
      ensures (events[i].Rollback? ==> Changes(events[i].m) in states[i].db.tables) && GoesThrough(states[i], events[i])
    {
      StateConsistent(states, events, i);
      FlagConstant(states, events, i);
      NextGoesThrough(states[i], events[i], states[i + 1]);
    }
  }

  // ---------------------------------------------------------------- rows survive

  // Table u has every row of t, in order, with the same value in every column the
  // two share.
  predicate KeepsShared(t: Table, u: Table) {
    && |u.rows| == |t.rows|
    && forall i, c :: 0 <= i < |t.rows| && c in t.defs && c in u.defs ==> Get(u.rows[i], c) == Get(t.rows[i], c)
  }

  // The columns only u has hold their declared defaults.
  predicate DefaultsElsewhere(t: Table, u: Table) {
    forall i, c :: 0 <= i < |u.rows| && c in u.defs && c !in t.defs ==> Get(u.rows[i], c) == u.defs[c].initial
  }

  lemma CarryingKeepsShared(t: Table, schema: Table)
    requires TableOk(t)
    ensures KeepsShared(t, schema.(rows := CarryAll(t.rows, schema)))
    ensures DefaultsElsewhere(t, schema.(rows := CarryAll(t.rows, schema)))
  {
    forall i | 0 <= i < |t.rows| ensures t.rows[i].Keys == t.defs.Keys { assert RowOk(t, t.rows[i]); }
  }

  lemma SameTableKeepsShared(t: Table)
    requires TableOk(t)
    ensures KeepsShared(t, t) && DefaultsElsewhere(t, t)
  {
  }

  lemma ReshapedKeepsRows(db: Db, m: int, n: int, t: TableName)
    requires Changes(m) in db.tables && (t == Runs || t == Steps) && t in db.tables && TableOk(db.tables[t])
    ensures
      var after := Reshaped(db, m, n).tables;
      t in after && KeepsShared(db.tables[t], after[t]) && DefaultsElsewhere(db.tables[t], after[t])
  {
    if t == Changes(m) { CarryingKeepsShared(db.tables[t], SchemaAt(t, n)); }
    else { SameTableKeepsShared(db.tables[t]); }
  }

  // No migration, re-applied migration or rollback loses a run or a step row or
  // touches a value both schemas hold; a column it adds starts at its default.
  lemma StepKeepsRows(s: Ledger, e: Event, s': Ledger, t: TableName)
    requires Consistent(s) && Next(s, e, s') && !e.Write? && (t == Runs || t == Steps)
    ensures t in s.db.tables && t in s'.db.tables
    ensures KeepsShared(s.db.tables[t], s'.db.tables[t]) && DefaultsElsewhere(s.db.tables[t], s'.db.tables[t])
  {
    if s'.db == s.db {
      SameTableKeepsShared(s.db.tables[t]);
    } else {
      ReshapedKeepsRows(s.db, e.m, if e.Apply? then e.m else e.m - 1, t);
    }
  }

  lemma KeepsSharedTransitive(t: Table, u: Table, v: Table)
    requires KeepsShared(t, u) && KeepsShared(u, v) && t.defs.Keys <= u.defs.Keys
    ensures KeepsShared(t, v)
  {
    forall i, c | 0 <= i < |t.rows| && c in t.defs && c in v.defs ensures Get(v.rows[i], c) == Get(t.rows[i], c) {
      assert Get(u.rows[i], c) == Get(t.rows[i], c);
    }
  }

  // Across any stretch of applies without a write in between, however many of them
  // are re-applied, the rows are those the stretch began with.
  lemma {:induction false} AppliesKeepRows(states: seq<Ledger>, events: seq<Event>, t: TableName)
    requires IsRun(states, events) && Consistent(states[0]) && (t == Runs || t == Steps)
    requires forall i :: 0 <= i < |events| ==> events[i].Apply?
    ensures
      var first, last := states[0].db, states[|events|].db;
      && t in first.tables && t in last.tables
      && KeepsShared(first.tables[t], last.tables[t])
      && first.tables[t].defs.Keys <= last.tables[t].defs.Keys
  {
    if |events| > 0 {
      var k := |events| - 1;
      AppliesKeepRows(states[..k + 1], events[..k], t);
      StateConsistent(states, events, k);
      var s, s' := states[k], states[k + 1];
      StepKeepsRows(s, events[k], s', t);
      AppliesAddColumns(s, events[k], s', t);
      KeepsSharedTransitive(states[0].db.tables[t], s.db.tables[t], s'.db.tables[t]);
    }
  }

  lemma AppliesAddColumns(s: Ledger, e: Event, s': Ledger, t: TableName)
    requires Consistent(s) && Next(s, e, s') && e.Apply? && (t == Runs || t == Steps)
    ensures s.db.tables[t].defs.Keys <= s'.db.tables[t].defs.Keys
  {
    if s'.db != s.db && t == Changes(e.m) {
      MigrationWidens(e.m);
      assert s.db.tables[t].defs == Emptied(s.db.tables[t]).defs;
    }
  }

  // ---------------------------------------------------------------- one awaiting run

  // In every consistent state from V013 on, two runs that await a reply never share
  // a session.
  lemma OneAwaitingRunPerSession(s: Ledger, i: int, j: int)
    requires Consistent(s) && s.n >= 13 && 0 <= i < j < |s.db.tables[Runs].rows|
    requires
      var a, b := s.db.tables[Runs].rows[i], s.db.tables[Runs].rows[j];
      Get(a, Status) == Get(b, Status) == Str(AwaitingUser) && Get(a, SessionKey) == Get(b, SessionKey)
    ensures Get(s.db.tables[Runs].rows[i], SessionKey) == Null
  {
    AwaitingIndexAt(s.db, s.n);
  }
}
