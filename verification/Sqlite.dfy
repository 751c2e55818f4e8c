// The part of SQLite that the meta-skill ledger migrations rely on: tables with
// ordered columns, NOT NULL / CHECK IN / PRIMARY KEY / REFERENCES, ordinary and
// partial unique indexes, the statements the migrations execute, the
// foreign_keys pragma, and transactions.
module Sqlite {
  import opened Options

  datatype Error =
    | ForeignKeysLive
    | NoSuchTable
    | NameTaken
    | NoSuchColumn
    | CountMismatch
    | ConstraintFailed
    | OrphansFound
    | RollbackBlocked

  // The outcome of a statement or of a Python step: normal, or an exception.
  datatype Outcome = Done | Raised(error: Error)

  datatype Result<+T> = Ok(value: T) | Err(error: Error)

  // A text value: one of the literals the ledger's DDL names, or any other text.
  datatype Text =
    | HardTakeover | SoftMetaInvoke | AutoCron | AutoDream | ManualCommand
    | Running | Succeeded | Failed | Cancelled | AwaitingUser | Expired | Substituted
    | Agent | LlmClassify | LlmChat | ToolCall | SkillExec | UserInput
    | EmptyText | EmptyObject
    | OtherText(s: string)

  datatype Value = Null | Str(text: Text) | Num(number: real)

  datatype Column =
    // meta_skill_runs
    | RunId | MetaSkillName | MetaSkillDigest | PlanSnapshotJson | TriggeredBy
    | SessionKey | TurnId | OwnerPid | Status | StartedAtMs | EndedAtMs
    | InputsJson | FinalText | FailedStepId | ErrorText | TruncatedFields
    | AwaitingStepId | AwaitingSchemaJson | AwaitingSince | AwaitingFilledJson
    | StepOutputsJson | ParseFailureCount
    // meta_skill_run_steps
    | StepId | StepKind | DeclaredSkill | EffectiveSkill | RenderedInputsJson
    | OutputText | SubstituteStepId | UsageJson
    // transcript_entries and router_decisions
    | TurnUsage | DecisionId | TurnIndex | TsMs
    | OtherColumn(name: string)

  datatype TableName =
    | Runs | RunsNew | RunsOld | Steps | StepsNew
    | TranscriptEntries | RouterDecisions
    | OtherTable(name: string)

  datatype IndexName =
    | RunsNameStarted | RunsStatusStarted | RunsSession | RunsStarted
    | OneAwaitingPerSession | StepsStatus
    | RouterSessionTs | RouterTs
    | OtherIndex(name: string)

  // CHECK(column IN (...)) is the only shape of CHECK the ledger uses.
  datatype Definition = Definition(notNull: bool, initial: Value, allowed: Option<set<Text>>)

  // REFERENCES table(target) ON DELETE CASCADE
  datatype ForeignKey = ForeignKey(column: Column, table: TableName, target: Column)

  type Row = map<Column, Value>

  datatype Table = Table(
    columns: seq<Column>,               // in declaration order
    defs: map<Column, Definition>,
    key: seq<Column>,                   // PRIMARY KEY
    parent: Option<ForeignKey>,
    rows: seq<Row>)                     // in rowid order

  datatype Index = Index(
    on: TableName,
    columns: seq<Column>,
    unique: bool,
    filter: Option<(Column, Text)>)     // WHERE column = text

  datatype NamedIndex = NamedIndex(name: IndexName, index: Index, ifNotExists: bool)

  datatype Db = Db(tables: map<TableName, Table>, indexes: map<IndexName, Index>)

  // ---------------------------------------------------------------- constraints

  function Get(r: Row, c: Column): Value {
    if c in r then r[c] else Null
  }

  // CHECK of a NULL is NULL, which passes; NOT NULL is what forbids NULL.
  predicate Passes(d: Definition, v: Value) {
    && (d.notNull ==> v != Null)
    && (d.allowed.Some? && v != Null ==> v.Str? && v.text in d.allowed.value)
  }

  predicate RowOk(t: Table, r: Row) {
    && r.Keys == t.defs.Keys
    && forall c <- t.defs.Keys :: Passes(t.defs[c], Get(r, c))
  }

  // Uniqueness treats NULLs as distinct, in a primary key too.
  predicate SameKey(a: Row, b: Row, key: seq<Column>) {
    forall c <- key :: Get(a, c) != Null && Get(a, c) == Get(b, c)
  }

  predicate KeyUnique(key: seq<Column>, rows: seq<Row>) {
    forall i, j :: 0 <= i < j < |rows| ==> !SameKey(rows[i], rows[j], key)
  }

  predicate Covers(ix: Index, r: Row) {
    ix.filter.Some? ==> Get(r, ix.filter.value.0) == Str(ix.filter.value.1)
  }

  predicate IndexHolds(ix: Index, rows: seq<Row>) {
    ix.unique ==>
      forall i, j :: 0 <= i < j < |rows| && Covers(ix, rows[i]) && Covers(ix, rows[j])
        ==> !SameKey(rows[i], rows[j], ix.columns)
  }

  predicate TableOk(t: Table) {
    && (set c | c in t.columns) == t.defs.Keys
    && (forall i :: 0 <= i < |t.rows| ==> RowOk(t, t.rows[i]))
    && KeyUnique(t.key, t.rows)
  }

  predicate HasParent(db: Db, fk: ForeignKey, r: Row) {
    || Get(r, fk.column) == Null
    || (&& fk.table in db.tables
        && exists i :: 0 <= i < |db.tables[fk.table].rows|
             && Get(db.tables[fk.table].rows[i], fk.target) == Get(r, fk.column))
  }

  // What PRAGMA foreign_key_check looks for, over every table of the database.
  predicate NoOrphans(db: Db) {
    forall n <- db.tables | db.tables[n].parent.Some? ::
      forall i :: 0 <= i < |db.tables[n].rows| ==>
        HasParent(db, db.tables[n].parent.value, db.tables[n].rows[i])
  }

  predicate IndexesHold(db: Db) {
    forall n <- db.indexes ::
      && db.indexes[n].on in db.tables
      && IndexHolds(db.indexes[n], db.tables[db.indexes[n].on].rows)
  }

  // Every declared constraint holds.
  predicate Valid(db: Db) {
    && (forall n <- db.tables :: TableOk(db.tables[n]))
    && IndexesHold(db)
    && NoOrphans(db)
  }

  // ---------------------------------------------------------------- statements

  function Emptied(t: Table): Table { t.(rows := []) }

  // CREATE TABLE
  function CreateTable(db: Db, name: TableName, schema: Table): Result<Db> {
    if name in db.tables then Err(NameTaken)
    else Ok(db.(tables := db.tables[name := Emptied(schema)]))
  }

  // Which source column feeds each target column of INSERT INTO t (..) SELECT ..
  function Pairing(targets: seq<Column>, sources: seq<Column>): map<Column, Column>
    requires |targets| == |sources|
  {
    if targets == [] then map[]
    else Pairing(targets[1..], sources[1..])[targets[0] := sources[0]]
  }

  function CopyRow(r: Row, pairing: map<Column, Column>, t: Table): Row {
    map c | c in t.defs :: if c in pairing then Get(r, pairing[c]) else t.defs[c].initial
  }

  function CopyRows(rows: seq<Row>, pairing: map<Column, Column>, t: Table): (copied: seq<Row>)
    ensures |copied| == |rows|
    ensures forall i :: 0 <= i < |rows| ==> copied[i] == CopyRow(rows[i], pairing, t)
  {
    seq(|rows|, i requires 0 <= i < |rows| => CopyRow(rows[i], pairing, t))
  }

  // A column list as written: every column in table order (nothing listed, or *),
  // or the listed ones.
  datatype Columns = Star | Listed(names: seq<Column>)

  function Expand(cs: Columns, t: Table): seq<Column> {
    if cs.Star? then t.columns else cs.names
  }

  predicate AllIn(cs: seq<Column>, t: Table) {
    forall c <- cs :: c in t.columns
  }

  predicate KeepsIndexes(db: Db, name: TableName, rows: seq<Row>) {
    forall n <- db.indexes | db.indexes[n].on == name :: IndexHolds(db.indexes[n], rows)
  }

  // INSERT INTO into (targets) SELECT sources FROM source
  function InsertSelect(db: Db, into: TableName, targets: Columns,
                              source: TableName, sources: Columns): Result<Db>
  {
    if into !in db.tables || source !in db.tables then Err(NoSuchTable)
    else
      var t, u := db.tables[into], db.tables[source];
      var ts, ss := Expand(targets, t), Expand(sources, u);
      if !AllIn(ts, t) || !AllIn(ss, u) then Err(NoSuchColumn)
      else if |ts| != |ss| then Err(CountMismatch)
      else
        var t' := t.(rows := t.rows + CopyRows(u.rows, Pairing(ts, ss), t));
        if !TableOk(t') || !KeepsIndexes(db, into, t'.rows) then Err(ConstraintFailed)
        else Ok(db.(tables := db.tables[into := t']))
  }

  // Deleting every row of a parent cascades to the child rows that point at one.
  function Orphaned(t: Table, gone: TableName, parents: seq<Row>, r: Row): bool {
    && t.parent.Some? && t.parent.value.table == gone
    && Get(r, t.parent.value.column) != Null
    && exists p <- parents :: Get(p, t.parent.value.target) == Get(r, t.parent.value.column)
  }

  function Surviving(t: Table, gone: TableName, parents: seq<Row>, rows: seq<Row>): seq<Row> {
    if rows == [] then []
    else
      (if Orphaned(t, gone, parents, rows[0]) then [] else [rows[0]])
      + Surviving(t, gone, parents, rows[1..])
  }

  function Cascade(tables: map<TableName, Table>, gone: TableName, parents: seq<Row>): map<TableName, Table> {
    map n | n in tables ::
      tables[n].(rows := Surviving(tables[n], gone, parents, tables[n].rows))
  }

  function OffTable(indexes: map<IndexName, Index>, t: TableName): map<IndexName, Index> {
    map n | n in indexes && indexes[n].on != t :: indexes[n]
  }

  // DROP TABLE: takes the table's indexes along; with enforcement live it first
  // deletes the rows, and that delete cascades.
  function DropTable(db: Db, name: TableName, enforced: bool): Result<Db> {
    if name !in db.tables then Err(NoSuchTable)
    else
      var rest := db.tables - {name};
      Ok(Db(if enforced then Cascade(rest, name, db.tables[name].rows) else rest,
            OffTable(db.indexes, name)))
  }

  function Retarget(t: Table, from: TableName, to: TableName): Table {
    if t.parent.Some? && t.parent.value.table == from
    then t.(parent := Some(t.parent.value.(table := to)))
    else t
  }

  // ALTER TABLE .. RENAME TO: moves the table's indexes along and rewrites the
  // REFERENCES clauses that name the renamed table, and only those.
  function Rename(db: Db, from: TableName, to: TableName): Result<Db> {
    if from !in db.tables then Err(NoSuchTable)
    else if to in db.tables then Err(NameTaken)
    else
      var moved := (db.tables - {from})[to := db.tables[from]];
      Ok(Db(map n | n in moved :: Retarget(moved[n], from, to),
            map n | n in db.indexes ::
              if db.indexes[n].on == from then db.indexes[n].(on := to) else db.indexes[n]))
  }

  // CREATE [UNIQUE] INDEX [IF NOT EXISTS]
  function CreateIndex(db: Db, ix: NamedIndex): Result<Db> {
    if ix.name in db.indexes then (if ix.ifNotExists then Ok(db) else Err(NameTaken))
    else if ix.index.on !in db.tables then Err(NoSuchTable)
    else if !IndexHolds(ix.index, db.tables[ix.index.on].rows) then Err(ConstraintFailed)
    else Ok(db.(indexes := db.indexes[ix.name := ix.index]))
  }

  // DROP INDEX IF EXISTS
  function DropIndex(db: Db, name: IndexName): Db {
    db.(indexes := db.indexes - {name})
  }

  // ALTER TABLE .. ADD COLUMN
  function AddColumn(db: Db, name: TableName, c: Column, d: Definition): Result<Db> {
    if name !in db.tables then Err(NoSuchTable)
    else
      var t := db.tables[name];
      if c in t.columns || c in t.defs then Err(NameTaken)
      else if !Passes(d, d.initial) then Err(ConstraintFailed)
      else
        Ok(db.(tables := db.tables[name :=
          t.(columns := t.columns + [c], defs := t.defs[c := d],
             rows := seq(|t.rows|, i requires 0 <= i < |t.rows| => t.rows[i][c := d.initial]))]))
  }

  // ---------------------------------------------------------------- connection

  // What a statement with effect r leaves behind: its database, or, when it
  // raises, the database it found.
  function Effect(before: Db, r: Result<Db>): (Outcome, Db) {
    match r
    case Ok(after) => (Done, after)
    case Err(e) => (Raised(e), before)
  }

  // A connection as a migration step sees it.
  class Connection {
    var db: Db
    var enforced: bool          // PRAGMA foreign_keys
    var inTransaction: bool

    constructor (db: Db, enforced: bool)
      ensures this.db == db && this.enforced == enforced && !inTransaction
    {
      this.db, this.enforced, this.inTransaction := db, enforced, false;
    }

    // PRAGMA foreign_keys = ON / OFF is a no-op inside a transaction.
    method PragmaForeignKeys(on: bool)
      modifies this`enforced
      ensures enforced == if inTransaction then old(enforced) else on
    {
      if !inTransaction { enforced := on; }
    }

    method Execute(r: Result<Db>) returns (o: Outcome)
      modifies this`db
      ensures (o, db) == Effect(old(db), r)
    {
      match r {
        case Ok(after) => db := after; o := Done;
        case Err(e) => o := Raised(e);
      }
    }
  }
}
