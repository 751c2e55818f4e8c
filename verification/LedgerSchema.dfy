// The schema of the meta-skill audit ledger at each point of the migration chain
// V010 .. V016, and what it means for a database to stand at such a point.
module LedgerSchema {
  import opened Options
  import opened Sqlite
  import opened Rebuild

  const RUN_COLUMNS: seq<Column> := [
    RunId, MetaSkillName, MetaSkillDigest, PlanSnapshotJson, TriggeredBy, SessionKey, TurnId, OwnerPid,
    Status, StartedAtMs, EndedAtMs, InputsJson, FinalText, FailedStepId, ErrorText, TruncatedFields]

  const CLARIFY_COLUMNS: seq<Column> := [
    AwaitingStepId, AwaitingSchemaJson, AwaitingSince, AwaitingFilledJson, StepOutputsJson, ParseFailureCount]

  const STEP_COLUMNS: seq<Column> := [
    RunId, StepId, StepKind, DeclaredSkill, EffectiveSkill, Status, StartedAtMs, EndedAtMs,
    RenderedInputsJson, OutputText, ErrorText, SubstituteStepId, TruncatedFields]

  const V010_TRIGGERS: set<Text> := {HardTakeover, SoftMetaInvoke}
  const V011_TRIGGERS: set<Text> := {HardTakeover, SoftMetaInvoke, AutoCron, AutoDream}
  const V016_TRIGGERS: set<Text> := {HardTakeover, SoftMetaInvoke, AutoCron, AutoDream, ManualCommand}
  const V010_STATUSES: set<Text> := {Running, Succeeded, Failed, Cancelled}
  const V013_STATUSES: set<Text> := {Running, Succeeded, Failed, Cancelled, AwaitingUser, Expired}
  const V010_KINDS: set<Text> := {Agent, LlmClassify, ToolCall, SkillExec}
  const V012_KINDS: set<Text> := {Agent, LlmClassify, LlmChat, ToolCall, SkillExec}
  const V014_KINDS: set<Text> := {Agent, LlmClassify, LlmChat, ToolCall, SkillExec, UserInput}
  const STEP_STATUSES: set<Text> := {Running, Succeeded, Failed, Substituted}

  const NULLABLE := Definition(false, Null, None)
  const REQUIRED := Definition(true, Null, None)

  function RunDefinition(c: Column, triggers: set<Text>, statuses: set<Text>): Definition {
    match c
    case MetaSkillName => REQUIRED
    case MetaSkillDigest => REQUIRED
    case PlanSnapshotJson => REQUIRED
    case TriggeredBy => Definition(true, Null, Some(triggers))
    case Status => Definition(true, Null, Some(statuses))
    case StartedAtMs => REQUIRED
    case InputsJson => REQUIRED
    case TruncatedFields => Definition(true, Str(EmptyText), None)
    case ParseFailureCount => Definition(true, Num(0.0), None)
    case _ => NULLABLE
  }

  function StepDefinition(c: Column, kinds: set<Text>): Definition {
    match c
    case RunId => REQUIRED
    case StepId => REQUIRED
    case StepKind => Definition(true, Null, Some(kinds))
    case DeclaredSkill => REQUIRED
    case EffectiveSkill => REQUIRED
    case Status => Definition(true, Null, Some(STEP_STATUSES))
    case StartedAtMs => REQUIRED
    case RenderedInputsJson => REQUIRED
    case TruncatedFields => Definition(true, Str(EmptyText), None)
    case UsageJson => Definition(true, Str(EmptyObject), None)
    case _ => NULLABLE
  }

  function RunsSchema(columns: seq<Column>, triggers: set<Text>, statuses: set<Text>): Table {
    Table(columns, map c | c in columns :: RunDefinition(c, triggers, statuses), [RunId], None, [])
  }

  function StepsSchema(columns: seq<Column>, kinds: set<Text>): Table {
    Table(columns, map c | c in columns :: StepDefinition(c, kinds), [RunId, StepId],
          Some(ForeignKey(RunId, Runs, RunId)), [])
  }

  function PlainIndex(name: IndexName, t: TableName, columns: seq<Column>): NamedIndex {
    NamedIndex(name, Index(t, columns, false, None), false)
  }

  const RUN_INDEXES: seq<NamedIndex> := [
    PlainIndex(RunsNameStarted, Runs, [MetaSkillName, StartedAtMs]),
    PlainIndex(RunsStatusStarted, Runs, [Status, StartedAtMs]),
    PlainIndex(RunsSession, Runs, [SessionKey, StartedAtMs]),
    PlainIndex(RunsStarted, Runs, [StartedAtMs])]

  const ONE_AWAITING := Index(Runs, [SessionKey], true, Some((Status, AwaitingUser)))

  const RUN_INDEXES_AWAITING: seq<NamedIndex> :=
    RUN_INDEXES + [NamedIndex(OneAwaitingPerSession, ONE_AWAITING, true)]

  const STEP_INDEXES: seq<NamedIndex> := [PlainIndex(StepsStatus, Steps, [Status])]

  // ---------------------------------------------------------------- levels

  // Level n is the schema after V010 .. V0n of the ledger chain.
  predicate IsLevel(n: int) { 10 <= n <= 16 }

  function TriggersAt(n: int): set<Text> {
    if n < 11 then V010_TRIGGERS else if n < 16 then V011_TRIGGERS else V016_TRIGGERS
  }
  function StatusesAt(n: int): set<Text> { if n < 13 then V010_STATUSES else V013_STATUSES }
  function KindsAt(n: int): set<Text> {
    if n < 12 then V010_KINDS else if n < 14 then V012_KINDS else V014_KINDS
  }
  function RunColumnsAt(n: int): seq<Column> {
    if n < 13 then RUN_COLUMNS else RUN_COLUMNS + CLARIFY_COLUMNS
  }
  function StepColumnsAt(n: int): seq<Column> {
    if n < 15 then STEP_COLUMNS else STEP_COLUMNS + [UsageJson]
  }

  function SchemaAt(t: TableName, n: int): Table
    requires t == Runs || t == Steps
  {
    if t == Runs then RunsSchema(RunColumnsAt(n), TriggersAt(n), StatusesAt(n))
    else StepsSchema(StepColumnsAt(n), KindsAt(n))
  }

  function IndexesAt(t: TableName, n: int): seq<NamedIndex>
    requires t == Runs || t == Steps
  {
    if t == Steps then STEP_INDEXES else if n < 13 then RUN_INDEXES else RUN_INDEXES_AWAITING
  }

  function OnTable(indexes: map<IndexName, Index>, t: TableName): map<IndexName, Index> {
    map n | n in indexes && indexes[n].on == t :: indexes[n]
  }

  predicate TableAt(db: Db, t: TableName, n: int)
    requires t == Runs || t == Steps
  {
    && t in db.tables
    && Emptied(db.tables[t]) == SchemaAt(t, n)
    && OnTable(db.indexes, t) == IndexMap(IndexesAt(t, n))
  }

  // Nothing is left over from a rebuild, no other table refers to the ledger, and
  // the ledger's index names are used by the ledger alone.
  predicate Undisturbed(db: Db) {
    && Tidy(db, RunsNew) && Tidy(db, RunsOld) && Tidy(db, StepsNew)
    && (forall n <- db.tables ::
          db.tables[n].parent.Some? && db.tables[n].parent.value.table in {Runs, Steps} ==> n == Steps)
    && (OneAwaitingPerSession in db.indexes ==> db.indexes[OneAwaitingPerSession].on == Runs)
  }

  predicate AtLevel(db: Db, n: int) {
    IsLevel(n) && TableAt(db, Runs, n) && TableAt(db, Steps, n) && Undisturbed(db)
  }

  // ---------------------------------------------------------------- migrations

  // The table that migration m (V011 .. V016) changes.
  function Changes(m: int): TableName { if m in {11, 13, 16} then Runs else Steps }

  predicate IsMigration(m: int) { 11 <= m <= 16 }

  // Every column the old row has keeps its value; a new column takes its default.
  function Carry(r: Row, t: Table): Row {
    map c | c in t.defs :: if c in r then r[c] else t.defs[c].initial
  }

  function CarryAll(rows: seq<Row>, t: Table): (carried: seq<Row>)
    ensures |carried| == |rows|
    ensures forall i :: 0 <= i < |rows| ==> carried[i] == Carry(rows[i], t)
  {
    seq(|rows|, i requires 0 <= i < |rows| => Carry(rows[i], t))
  }

  // The database with the table of migration m taken to its shape at level n, row
  // by row, and everything else as it is.
  function Reshaped(db: Db, m: int, n: int): Db
    requires Changes(m) in db.tables
  {
    var t := Changes(m);
    Db(db.tables[t := SchemaAt(t, n).(rows := CarryAll(db.tables[t].rows, SchemaAt(t, n)))],
       OffTable(db.indexes, t) + IndexMap(IndexesAt(t, n)))
  }

  // The column whose CHECK migration m widens, and the values it newly allows.
  function CheckedBy(m: int): Column {
    if m in {11, 16} then TriggeredBy else if m == 13 then Status else StepKind
  }

  function Admits(m: int): set<Text> {
    match m
    case 11 => {AutoCron, AutoDream}
    case 12 => {LlmChat}
    case 13 => {AwaitingUser, Expired}
    case 14 => {UserInput}
    case 16 => {ManualCommand}
    case _ => {}
  }

  // A value that only migration m allows.
  predicate Forbidden(m: int, r: Row) {
    Get(r, CheckedBy(m)).Str? && Get(r, CheckedBy(m)).text in Admits(m)
  }

  predicate Uses(db: Db, m: int)
    requires Changes(m) in db.tables
  {
    exists i :: 0 <= i < |db.tables[Changes(m)].rows| && Forbidden(m, db.tables[Changes(m)].rows[i])
  }

  // Every declared constraint but the foreign key holds.
  predicate Sound(db: Db) {
    (forall n <- db.tables :: TableOk(db.tables[n])) && IndexesHold(db)
  }

  // ---------------------------------------------------------------- plans

  datatype Direction = Up | Down

  // What the recreate helper of migration m is called with.
  function PlanOf(m: int, d: Direction): Plan
    requires IsMigration(m)
  {
    match (m, d)
    case (11, Up) => Plan(Runs, RunsNew, RunsSchema(RUN_COLUMNS, V011_TRIGGERS, V010_STATUSES), Star, Star, RUN_INDEXES)
    case (11, Down) => Plan(Runs, RunsNew, RunsSchema(RUN_COLUMNS, V010_TRIGGERS, V010_STATUSES), Star, Star,
                            RUN_INDEXES)
    case (12, Up) => Plan(Steps, StepsNew, StepsSchema(STEP_COLUMNS, V012_KINDS), Star, Star, STEP_INDEXES)
    case (12, Down) => Plan(Steps, StepsNew, StepsSchema(STEP_COLUMNS, V010_KINDS), Star, Star, STEP_INDEXES)
    case (13, Up) => Plan(Runs, RunsNew, RunsSchema(RUN_COLUMNS + CLARIFY_COLUMNS, V011_TRIGGERS, V013_STATUSES),
                          Listed(RUN_COLUMNS), Listed(RUN_COLUMNS), RUN_INDEXES_AWAITING)
    case (13, Down) => Plan(Runs, RunsOld, RunsSchema(RUN_COLUMNS, V011_TRIGGERS, V010_STATUSES),
                            Star, Listed(RUN_COLUMNS), RUN_INDEXES)
    case (14, Up) => Plan(Steps, StepsNew, StepsSchema(STEP_COLUMNS, V014_KINDS),
                          Listed(STEP_COLUMNS), Listed(STEP_COLUMNS), STEP_INDEXES)
    case (14, Down) => Plan(Steps, StepsNew, StepsSchema(STEP_COLUMNS, V012_KINDS),
                            Listed(STEP_COLUMNS), Listed(STEP_COLUMNS), STEP_INDEXES)
    case (15, _) => Plan(Steps, StepsNew, StepsSchema(STEP_COLUMNS, V014_KINDS),
                         Listed(STEP_COLUMNS), Listed(STEP_COLUMNS), STEP_INDEXES)
    case (_, Up) => Plan(Runs, RunsNew, RunsSchema(RUN_COLUMNS + CLARIFY_COLUMNS, V016_TRIGGERS, V013_STATUSES),
                         Listed(RUN_COLUMNS + CLARIFY_COLUMNS), Listed(RUN_COLUMNS + CLARIFY_COLUMNS),
                         RUN_INDEXES_AWAITING)
    case (_, Down) => Plan(Runs, RunsNew, RunsSchema(RUN_COLUMNS + CLARIFY_COLUMNS, V011_TRIGGERS, V013_STATUSES),
                           Listed(RUN_COLUMNS + CLARIFY_COLUMNS), Listed(RUN_COLUMNS + CLARIFY_COLUMNS),
                           RUN_INDEXES_AWAITING)
  }

  // V015 adds its column with ALTER TABLE; every other apply, and every rollback,
  // rebuilds a table.
  predicate Rebuilds(m: int, d: Direction) { IsMigration(m) && (m != 15 || d == Down) }

  // The level the step starts from and the one it leads to.
  function From(m: int, d: Direction): int { if d == Up then m - 1 else m }
  function To(m: int, d: Direction): int { if d == Up then m else m - 1 }

  // V013's rollback drops the partial index before it rebuilds.
  function Prepared(db: Db, m: int, d: Direction): Db {
    if m == 13 && d == Down then DropIndex(db, OneAwaitingPerSession) else db
  }

  // The recreate helper is always handed the shape of the level it leads to.
  lemma PlanSchema(m: int, d: Direction)
    requires Rebuilds(m, d)
    ensures PlanOf(m, d).table == Changes(m)
    ensures PlanOf(m, d).schema == SchemaAt(Changes(m), To(m, d))
    ensures PlanOf(m, d).indexes == IndexesAt(Changes(m), To(m, d))
  {
  }

  lemma IndexesAreDistinct(t: TableName, n: int)
    requires t == Runs || t == Steps
    ensures
      var ixs := IndexesAt(t, n);
      && (forall i :: 0 <= i < |ixs| ==> ixs[i].index.on == t)
      && (forall i, j :: 0 <= i < j < |ixs| ==> ixs[i].name != ixs[j].name)
      && (forall i :: 0 <= i < |ixs| ==>
            if ixs[i].ifNotExists then ixs[i] == NamedIndex(OneAwaitingPerSession, ONE_AWAITING, true)
            else !ixs[i].index.unique)
  {
  }

  lemma PlanShape(m: int, d: Direction)
    requires Rebuilds(m, d)
    ensures
      var p := PlanOf(m, d);
      && p.WellFormed()
      && (p.table == Runs ==> p.temp in {RunsNew, RunsOld})
      && (p.table == Steps ==> p.temp == StepsNew)
  {
    PlanSchema(m, d);
    IndexesAreDistinct(Changes(m), To(m, d));
  }
}
