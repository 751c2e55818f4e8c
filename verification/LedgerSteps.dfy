// One migration step of the ledger chain, forwards or backwards, on a database
// whose constraints hold: what it does to the rows and when it goes through.
module LedgerSteps {
  import opened Options
  import opened Sqlite
  import opened Rebuild
  import opened LedgerSchema

  lemma {:induction false} PairingSame(cs: seq<Column>)
    ensures Pairing(cs, cs) == map c | c in cs :: c
  {
    if cs != [] {
      PairingSame(cs[1..]);
      assert cs == [cs[0]] + cs[1..];
    }
  }

  // What the copy of a rebuild lists, given the columns of the table it copies from.
  function CopyList(m: int, d: Direction): seq<Column>
    requires Rebuilds(m, d)
  {
    match m
    case 11 => RUN_COLUMNS
    case 13 => RUN_COLUMNS
    case 16 => RUN_COLUMNS + CLARIFY_COLUMNS
    case _ => STEP_COLUMNS
  }

  lemma CopyLists(m: int, d: Direction)
    requires Rebuilds(m, d)
    ensures
      var p, old' := PlanOf(m, d), SchemaAt(Changes(m), From(m, d));
      && Expand(p.targets, p.schema) == CopyList(m, d)
      && Expand(p.sources, old') == CopyList(m, d)
  {
  }

  // A column both sides of a rebuild know is one the copy lists.
  lemma ListedColumns(m: int, d: Direction)
    requires Rebuilds(m, d)
    ensures
      var new', old' := SchemaAt(Changes(m), To(m, d)), SchemaAt(Changes(m), From(m, d));
      && AllIn(CopyList(m, d), new') && AllIn(CopyList(m, d), old')
      && forall c <- new'.columns :: c in CopyList(m, d) <==> c in old'.columns
  {
    if m == 13 { ClarifyIsNew(); }
    if m == 15 { assert UsageJson !in STEP_COLUMNS; }
  }

  lemma ClarifyIsNew()
    ensures forall c <- CLARIFY_COLUMNS :: c !in RUN_COLUMNS
  {
  }

  // A copy that lists the same columns on both sides carries each row over by name.
  lemma CopyCarries(r: Row, cs: seq<Column>, t: Table)
    requires forall c <- t.defs.Keys :: c in cs <==> c in r
    ensures CopyRow(r, Pairing(cs, cs), t) == Carry(r, t)
  {
    PairingSame(cs);
  }

  lemma CopiesCarry(rows: seq<Row>, cs: seq<Column>, t: Table)
    requires forall i :: 0 <= i < |rows| ==> forall c <- t.defs.Keys :: c in cs <==> c in rows[i]
    ensures CopyRows(rows, Pairing(cs, cs), t) == CarryAll(rows, t)
  {
    forall i | 0 <= i < |rows| ensures CopyRow(rows[i], Pairing(cs, cs), t) == Carry(rows[i], t) {
      CopyCarries(rows[i], cs, t);
    }
  }

  // The copy of every rebuild, positional or named, carries each row over by column name.
  lemma MovedIsCarried(db: Db, p: Plan)
    requires ListsFit(db, p) && TableOk(db.tables[p.table])
    requires Expand(p.targets, p.schema) == Expand(p.sources, db.tables[p.table])
    requires p.schema.defs.Keys == set c | c in p.schema.columns
    requires forall c <- p.schema.columns ::
      c in Expand(p.sources, db.tables[p.table]) <==> c in db.tables[p.table].columns
    ensures MovedRows(db, p) == CarryAll(db.tables[p.table].rows, p.schema)
  {
    var old' := db.tables[p.table];
    forall i | 0 <= i < |old'.rows|
      ensures forall c <- p.schema.defs.Keys :: c in Expand(p.sources, old') <==> c in old'.rows[i]
    {
      assert RowOk(old', old'.rows[i]);
    }
    CopiesCarry(old'.rows, Expand(p.sources, old'), p.schema);
  }

  // ---------------------------------------------------------------- constraints

  // Carrying a row over keeps its value in every column both tables have.
  lemma CarryKeeps(r: Row, t: Table, c: Column)
    requires c in t.defs && c in r
    ensures Get(Carry(r, t), c) == Get(r, c)
  {
  }

  lemma RunColumnsStay(n: int)
    requires IsLevel(n)
    ensures {RunId, SessionKey, Status, TriggeredBy} <= SchemaAt(Runs, n).defs.Keys
  {
    assert RUN_COLUMNS[0] == RunId && RUN_COLUMNS[4] == TriggeredBy;
    assert RUN_COLUMNS[5] == SessionKey && RUN_COLUMNS[8] == Status;
    assert forall c <- RUN_COLUMNS :: c in RunColumnsAt(n);
  }

  lemma StepColumnsStay(n: int)
    requires IsLevel(n)
    ensures {RunId, StepId, StepKind} <= SchemaAt(Steps, n).defs.Keys
  {
    assert STEP_COLUMNS[0] == RunId && STEP_COLUMNS[1] == StepId && STEP_COLUMNS[2] == StepKind;
    assert forall c <- STEP_COLUMNS :: c in StepColumnsAt(n);
  }

  lemma KeyColumnsStay(m: int, n: int)
    requires IsMigration(m) && IsLevel(n)
    ensures forall c <- SchemaAt(Changes(m), n).key :: c in SchemaAt(Changes(m), n).defs
    ensures RunId in SchemaAt(Changes(m), n).defs && (m != 15 ==> CheckedBy(m) in SchemaAt(Changes(m), n).defs)
  {
    RunColumnsStay(n);
    StepColumnsStay(n);
  }

  lemma CarriedSameKey(a: Row, b: Row, t: Table, key: seq<Column>)
    requires forall c <- key :: c in t.defs && c in a && c in b
    ensures SameKey(Carry(a, t), Carry(b, t), key) <==> SameKey(a, b, key)
  {
    forall c <- key ensures Get(Carry(a, t), c) == Get(a, c) && Get(Carry(b, t), c) == Get(b, c) {
      CarryKeeps(a, t, c); CarryKeeps(b, t, c);
    }
  }

  // What relates the two shapes of a table that a migration goes between: the
  // newer has every column of the older, declared alike but for one CHECK that
  // allows more, and what it adds comes with an acceptable default.
  ghost predicate Widens(down: Table, up: Table, checked: Column, admits: set<Text>) {
    && down.defs.Keys <= up.defs.Keys
    && (forall c <- down.defs.Keys :: c != checked || admits == {} ==> up.defs[c] == down.defs[c])
    && (forall c <- up.defs.Keys - down.defs.Keys :: Passes(up.defs[c], up.defs[c].initial))
    && (admits != {} ==>
          && checked in down.defs
          && up.defs[checked].notNull && down.defs[checked].notNull
          && up.defs[checked].allowed.Some? && down.defs[checked].allowed.Some?
          && up.defs[checked].allowed.value == down.defs[checked].allowed.value + admits
          && down.defs[checked].allowed.value !! admits)
  }

  lemma WidenRow(r: Row, down: Table, up: Table, checked: Column, admits: set<Text>)
    requires Widens(down, up, checked, admits) && RowOk(down, r)
    ensures RowOk(up, Carry(r, up))
  {
    var r' := Carry(r, up);
    forall c <- up.defs.Keys ensures Passes(up.defs[c], Get(r', c)) {
      if c in down.defs { assert Passes(down.defs[c], Get(r, c)); }
    }
  }

  lemma NarrowRow(r: Row, down: Table, up: Table, checked: Column, admits: set<Text>)
    requires Widens(down, up, checked, admits) && RowOk(up, r)
    ensures RowOk(down, Carry(r, down)) <==> !(Get(r, checked).Str? && Get(r, checked).text in admits)
  {
    var r' := Carry(r, down);
    forall c <- down.defs.Keys ensures Get(r', c) == Get(r, c) && Passes(up.defs[c], Get(r, c)) {
    }
    if admits != {} {
      assert Passes(down.defs[checked], Get(r', checked))
        <==> !(Get(r, checked).Str? && Get(r, checked).text in admits);
    }
  }

  function AllowedAt(m: int, n: int): set<Text> {
    if m in {11, 16} then TriggersAt(n) else if m == 13 then StatusesAt(n) else KindsAt(n)
  }

  lemma AllowedGrows(m: int)
    requires IsMigration(m) && m != 15
    ensures AllowedAt(m, m) == AllowedAt(m, m - 1) + Admits(m)
    ensures AllowedAt(m, m - 1) !! Admits(m)
  {
    match m {
      case 11 =>
      case 12 =>
      case 13 =>
      case 14 =>
      case _ =>
    }
  }

  function DefinitionAt(t: TableName, c: Column, n: int): Definition {
    if t == Runs then RunDefinition(c, TriggersAt(n), StatusesAt(n)) else StepDefinition(c, KindsAt(n))
  }

  lemma DefinitionsWiden(m: int, c: Column)
    requires IsMigration(m)
    ensures c != CheckedBy(m) || m == 15 ==>
      DefinitionAt(Changes(m), c, m) == DefinitionAt(Changes(m), c, m - 1)
    ensures m != 15 && IsLevel(m - 1) ==>
      && DefinitionAt(Changes(m), CheckedBy(m), m) == Definition(true, Null, Some(AllowedAt(m, m)))
      && DefinitionAt(Changes(m), CheckedBy(m), m - 1) == Definition(true, Null, Some(AllowedAt(m, m - 1)))
  {
  }

  lemma NewColumnsHaveDefaults()
    ensures forall c <- CLARIFY_COLUMNS :: Passes(DefinitionAt(Runs, c, 13), DefinitionAt(Runs, c, 13).initial)
    ensures Passes(DefinitionAt(Steps, UsageJson, 15), DefinitionAt(Steps, UsageJson, 15).initial)
  {
  }

  lemma SchemaDefinitions(t: TableName, n: int)
    requires t == Runs || t == Steps
    ensures forall c <- SchemaAt(t, n).defs.Keys :: SchemaAt(t, n).defs[c] == DefinitionAt(t, c, n)
  {
  }

  lemma ColumnsGrow(m: int)
    requires IsMigration(m)
    ensures
      var down, up := SchemaAt(Changes(m), m - 1).defs.Keys, SchemaAt(Changes(m), m).defs.Keys;
      && down <= up
      && (forall c <- up - down :: (m == 13 && c in CLARIFY_COLUMNS) || (m == 15 && c == UsageJson))
  {
    var t := Changes(m);
    if t == Runs {
      assert forall c <- RunColumnsAt(m) :: c in RunColumnsAt(m - 1) || (m == 13 && c in CLARIFY_COLUMNS);
    } else {
      assert forall c <- StepColumnsAt(m) :: c in StepColumnsAt(m - 1) || (m == 15 && c == UsageJson);
    }
  }

  lemma AssembleWidens(m: int, down: Table, up: Table)
    requires IsMigration(m)
    requires down.defs.Keys <= up.defs.Keys
    requires forall c <- up.defs.Keys :: up.defs[c] == DefinitionAt(Changes(m), c, m)
    requires forall c <- down.defs.Keys :: down.defs[c] == DefinitionAt(Changes(m), c, m - 1)
    requires forall c <- up.defs.Keys - down.defs.Keys ::
      (m == 13 && c in CLARIFY_COLUMNS) || (m == 15 && c == UsageJson)
    requires m != 15 ==> CheckedBy(m) in down.defs
    ensures Widens(down, up, CheckedBy(m), Admits(m))
  {
    forall c <- down.defs.Keys ensures c != CheckedBy(m) || m == 15 ==> up.defs[c] == down.defs[c] {
      DefinitionsWiden(m, c);
    }
    NewColumnsHaveDefaults();
    if m != 15 {
      AllowedGrows(m);
      DefinitionsWiden(m, CheckedBy(m));
    }
  }

  lemma MigrationWidens(m: int)
    requires IsMigration(m)
    ensures Widens(SchemaAt(Changes(m), m - 1), SchemaAt(Changes(m), m), CheckedBy(m), Admits(m))
  {
    SchemaDefinitions(Changes(m), m);
    SchemaDefinitions(Changes(m), m - 1);
    ColumnsGrow(m);
    KeyColumnsStay(m, m - 1);
    AssembleWidens(m, SchemaAt(Changes(m), m - 1), SchemaAt(Changes(m), m));
  }

  // ---------------------------------------------------------------- one step

  lemma CarriedKeysUnique(rows: seq<Row>, old': Table, t: Table)
    requires forall i :: 0 <= i < |rows| ==> RowOk(old', rows[i])
    requires KeyUnique(t.key, rows)
    requires forall c <- t.key :: c in t.defs && c in old'.defs
    ensures KeyUnique(t.key, CarryAll(rows, t))
  {
    var carried := CarryAll(rows, t);
    forall i, j | 0 <= i < j < |rows| ensures !SameKey(carried[i], carried[j], t.key) {
      assert RowOk(old', rows[i]) && RowOk(old', rows[j]);
      CarriedSameKey(rows[i], rows[j], t, t.key);
    }
  }

  lemma WidenedTableOk(old': Table, t: Table, checked: Column, admits: set<Text>)
    requires TableOk(old') && Widens(Emptied(old'), t, checked, admits)
    requires (set c | c in t.columns) == t.defs.Keys
    requires t.key == old'.key && forall c <- t.key :: c in old'.defs
    ensures TableOk(t.(rows := CarryAll(old'.rows, t)))
  {
    CarriedKeysUnique(old'.rows, old', t);
    forall i | 0 <= i < |old'.rows| ensures RowOk(t, Carry(old'.rows[i], t)) {
      assert RowOk(Emptied(old'), old'.rows[i]) by { assert RowOk(old', old'.rows[i]); }
      WidenRow(old'.rows[i], Emptied(old'), t, checked, admits);
    }
  }

  lemma NarrowedTableOk(old': Table, t: Table, checked: Column, admits: set<Text>)
    requires TableOk(old') && Widens(t, Emptied(old'), checked, admits)
    requires (set c | c in t.columns) == t.defs.Keys
    requires t.key == old'.key && forall c <- t.key :: c in t.defs
    ensures TableOk(t.(rows := CarryAll(old'.rows, t)))
      <==> forall i :: 0 <= i < |old'.rows| ==>
             !(Get(old'.rows[i], checked).Str? && Get(old'.rows[i], checked).text in admits)
  {
    CarriedKeysUnique(old'.rows, old', t);
    var new' := t.(rows := CarryAll(old'.rows, t));
    forall i | 0 <= i < |old'.rows|
      ensures RowOk(new', new'.rows[i])
        <==> !(Get(old'.rows[i], checked).Str? && Get(old'.rows[i], checked).text in admits)
    {
      assert RowOk(Emptied(old'), old'.rows[i]) by { assert RowOk(old', old'.rows[i]); }
      NarrowRow(old'.rows[i], t, Emptied(old'), checked, admits);
      assert RowOk(new', new'.rows[i]) <==> RowOk(t, new'.rows[i]);
    }
  }

  // The rows a step carries over satisfy the new table's constraints: always on
  // the way up, and on the way down exactly when none uses a value the older
  // CHECK forbids.
  lemma CarriedTableOk(old': Table, m: int, d: Direction)
    requires IsMigration(m)
    requires Emptied(old') == SchemaAt(Changes(m), From(m, d)) && TableOk(old')
    ensures
      var t := SchemaAt(Changes(m), To(m, d));
      TableOk(t.(rows := CarryAll(old'.rows, t)))
      <==> d == Up || forall i :: 0 <= i < |old'.rows| ==> !Forbidden(m, old'.rows[i])
  {
    var t := SchemaAt(Changes(m), To(m, d));
    MigrationWidens(m);
    KeyColumnsStay(m, From(m, d));
    KeyColumnsStay(m, To(m, d));
    if d == Up {
      WidenedTableOk(old', t, CheckedBy(m), Admits(m));
    } else {
      NarrowedTableOk(old', t, CheckedBy(m), Admits(m));
    }
  }

  // ---------------------------------------------------------------- indexes

  // A CHECK keeps a value out of every row.
  lemma CheckForbids(t: Table, c: Column, v: Text)
    requires TableOk(t) && c in t.defs && t.defs[c].allowed.Some? && v !in t.defs[c].allowed.value
    ensures forall i :: 0 <= i < |t.rows| ==> Get(t.rows[i], c) != Str(v)
  {
    forall i | 0 <= i < |t.rows| ensures Get(t.rows[i], c) != Str(v) {
      assert RowOk(t, t.rows[i]);
      assert Passes(t.defs[c], Get(t.rows[i], c));
    }
  }

  lemma StatusCheck(n: int)
    requires IsLevel(n) && n < 13
    ensures
      var defs := SchemaAt(Runs, n).defs;
      Status in defs && defs[Status].allowed.Some? && AwaitingUser !in defs[Status].allowed.value
  {
    RunColumnsStay(n);
    SchemaDefinitions(Runs, n);
    StatusBeforeClarify(n);
    hide SchemaAt, DefinitionAt;
  }

  lemma StatusBeforeClarify(n: int)
    requires n < 13
    ensures DefinitionAt(Runs, Status, n).allowed == Some(V010_STATUSES) && AwaitingUser !in V010_STATUSES
  {
  }

  // Before V013 no run awaits a reply.
  lemma NobodyAwaits(t: Table, n: int)
    requires IsLevel(n) && n < 13 && Emptied(t) == SchemaAt(Runs, n) && TableOk(t)
    ensures forall i :: 0 <= i < |t.rows| ==> !Covers(ONE_AWAITING, t.rows[i])
  {
    StatusCheck(n);
    assert t.defs == Emptied(t).defs;
    CheckForbids(t, Status, AwaitingUser);
  }

  lemma CarriedIndex(rows: seq<Row>, t: Table, ix: Index)
    requires ix.filter.Some? ==> ix.filter.value.0 in t.defs
    requires forall c <- ix.columns :: c in t.defs
    requires forall i :: 0 <= i < |rows| ==>
      && (ix.filter.Some? ==> ix.filter.value.0 in rows[i])
      && forall c <- ix.columns :: c in rows[i]
    requires IndexHolds(ix, rows)
    ensures IndexHolds(ix, CarryAll(rows, t))
  {
    var carried := CarryAll(rows, t);
    forall i, j | 0 <= i < j < |rows| && Covers(ix, carried[i]) && Covers(ix, carried[j])
      ensures ix.unique ==> !SameKey(carried[i], carried[j], ix.columns)
    {
      assert Covers(ix, rows[i]) && Covers(ix, rows[j]);
      CarriedSameKey(rows[i], rows[j], t, ix.columns);
    }
  }

  // The partial unique index holds of the carried rows: its columns keep their
  // values, and no row could await a reply before V013.
  lemma CarriedIndexHolds(old': Table, m: int, d: Direction)
    requires IsMigration(m) && Changes(m) == Runs && To(m, d) >= 13
    requires Emptied(old') == SchemaAt(Runs, From(m, d)) && TableOk(old')
    requires From(m, d) >= 13 ==> IndexHolds(ONE_AWAITING, old'.rows)
    ensures IndexHolds(ONE_AWAITING, CarryAll(old'.rows, SchemaAt(Runs, To(m, d))))
  {
    if From(m, d) < 13 { NobodyAwaits(old', From(m, d)); }
    RunColumnsStay(From(m, d));
    RunColumnsStay(To(m, d));
    assert old'.defs == SchemaAt(Runs, From(m, d)).defs;
    forall i | 0 <= i < |old'.rows| ensures Status in old'.rows[i] && SessionKey in old'.rows[i] {
      assert RowOk(old', old'.rows[i]);
    }
    CarriedIndex(old'.rows, SchemaAt(Runs, To(m, d)), ONE_AWAITING);
  }

  // ---------------------------------------------------------------- references

  // Replacing a ledger table by its carried rows neither orphans a row nor adopts one.
  lemma SameReferences(db: Db, db': Db, t: TableName)
    requires t in db.tables && db'.tables.Keys == db.tables.Keys
    requires forall n <- db.tables :: n != t ==> db'.tables[n] == db.tables[n]
    requires db'.tables[t].parent == db.tables[t].parent && |db'.tables[t].rows| == |db.tables[t].rows|
    requires forall i, c :: 0 <= i < |db.tables[t].rows| && Referenced(db, t, c) ==>
      Get(db'.tables[t].rows[i], c) == Get(db.tables[t].rows[i], c)
    ensures NoOrphans(db') <==> NoOrphans(db)
  {
    forall n | n in db.tables && db.tables[n].parent.Some?
      ensures forall i :: 0 <= i < |db.tables[n].rows| ==>
        (HasParent(db', db.tables[n].parent.value, db'.tables[n].rows[i])
         <==> HasParent(db, db.tables[n].parent.value, db.tables[n].rows[i]))
    {
      forall i | 0 <= i < |db.tables[n].rows|
        ensures HasParent(db', db.tables[n].parent.value, db'.tables[n].rows[i])
           <==> HasParent(db, db.tables[n].parent.value, db.tables[n].rows[i])
      {
        SameParent(db, db', t, n, i);
      }
    }
    assert forall n <- db.tables ::
      (db'.tables[n].parent == db.tables[n].parent && |db'.tables[n].rows| == |db.tables[n].rows|);
  }

  // Column c of table t is one a foreign key reads, as child or as parent.
  ghost predicate Referenced(db: Db, t: TableName, c: Column)
    requires t in db.tables
  {
    || (db.tables[t].parent.Some? && db.tables[t].parent.value.column == c)
    || exists n <- db.tables :: db.tables[n].parent.Some?
         && db.tables[n].parent.value.table == t && db.tables[n].parent.value.target == c
  }

  lemma SameParent(db: Db, db': Db, t: TableName, n: TableName, i: int)
    requires t in db.tables && db'.tables.Keys == db.tables.Keys
    requires forall n <- db.tables :: n != t ==> db'.tables[n] == db.tables[n]
    requires |db'.tables[t].rows| == |db.tables[t].rows|
    requires forall i, c :: 0 <= i < |db.tables[t].rows| && Referenced(db, t, c) ==>
      Get(db'.tables[t].rows[i], c) == Get(db.tables[t].rows[i], c)
    requires n in db.tables && db.tables[n].parent.Some? && 0 <= i < |db.tables[n].rows|
    ensures |db'.tables[n].rows| == |db.tables[n].rows|
    ensures HasParent(db', db.tables[n].parent.value, db'.tables[n].rows[i])
       <==> HasParent(db, db.tables[n].parent.value, db.tables[n].rows[i])
  {
    var fk := db.tables[n].parent.value;
    assert Get(db'.tables[n].rows[i], fk.column) == Get(db.tables[n].rows[i], fk.column) by {
      if n == t { assert Referenced(db, t, fk.column); }
    }
    if fk.table in db.tables {
      var before, after := db.tables[fk.table].rows, db'.tables[fk.table].rows;
      forall k | 0 <= k < |before| ensures Get(after[k], fk.target) == Get(before[k], fk.target) {
        if fk.table == t { assert Referenced(db, t, fk.target); }
      }
    }
  }
}
