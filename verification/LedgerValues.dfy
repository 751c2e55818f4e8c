// The ledger's tables spelled out: their columns and indexes at each level, the rows they
// take, and what the columns that a migration adds start with.
module LedgerValues {
  import opened Options
  import opened Sqlite
  import opened Rebuild
  import opened LedgerSchema
  import opened LedgerSteps
  import opened LedgerChain

  // ---------------------------------------------------------------- columns

  lemma RunColumnsAre(db: Db, n: int)
    requires AtLevel(db, n)
    ensures db.tables[Runs].columns ==
      [RunId, MetaSkillName, MetaSkillDigest, PlanSnapshotJson, TriggeredBy, SessionKey, TurnId, OwnerPid, Status,
       StartedAtMs, EndedAtMs, InputsJson, FinalText, FailedStepId, ErrorText, TruncatedFields]
      + if n < 13 then []
        else [AwaitingStepId, AwaitingSchemaJson, AwaitingSince, AwaitingFilledJson, StepOutputsJson, ParseFailureCount]
    ensures db.tables[Runs].key == [RunId] && db.tables[Runs].parent == None
  {
    TableIs(db, Runs, n);
  }

  lemma StepColumnsAre(db: Db, n: int)
    requires AtLevel(db, n)
    ensures db.tables[Steps].columns ==
      [RunId, StepId, StepKind, DeclaredSkill, EffectiveSkill, Status, StartedAtMs, EndedAtMs, RenderedInputsJson,
       OutputText, ErrorText, SubstituteStepId, TruncatedFields] + if n < 15 then [] else [UsageJson]
    ensures db.tables[Steps].key == [RunId, StepId] && db.tables[Steps].parent == Some(ForeignKey(RunId, Runs, RunId))
  {
    TableIs(db, Steps, n);
  }

  lemma TableIs(db: Db, t: TableName, n: int)
    requires AtLevel(db, n) && (t == Runs || t == Steps)
    ensures
      var u := db.tables[t];
      && u.columns == SchemaAt(t, n).columns && u.key == SchemaAt(t, n).key && u.parent == SchemaAt(t, n).parent
      && u.defs == SchemaAt(t, n).defs
  {
    assert TableAt(db, t, n);
    assert Emptied(db.tables[t]).defs == db.tables[t].defs;
    hide SchemaAt, IndexMap, IndexesAt;
  }

  // ---------------------------------------------------------------- rows

  // What a run may hold in one of its columns.
  predicate RunTakes(n: int, c: Column, v: Value) {
    match c
    case TriggeredBy =>
      || v in {Str(HardTakeover), Str(SoftMetaInvoke)}
      || (n >= 11 && v in {Str(AutoCron), Str(AutoDream)})
      || (n >= 16 && v == Str(ManualCommand))
    case Status =>
      || v in {Str(Running), Str(Succeeded), Str(Failed), Str(Cancelled)}
      || (n >= 13 && v in {Str(AwaitingUser), Str(Expired)})
    case _ =>
      v != Null || c !in {MetaSkillName, MetaSkillDigest, PlanSnapshotJson, StartedAtMs, InputsJson, TruncatedFields,
                          ParseFailureCount}
  }

  predicate StepTakes(n: int, c: Column, v: Value) {
    match c
    case StepKind =>
      || v in {Str(Agent), Str(LlmClassify), Str(ToolCall), Str(SkillExec)}
      || (n >= 12 && v == Str(LlmChat))
      || (n >= 14 && v == Str(UserInput))
    case Status => v in {Str(Running), Str(Succeeded), Str(Failed), Str(Substituted)}
    case _ =>
      v != Null || c !in {RunId, StepId, DeclaredSkill, EffectiveSkill, StartedAtMs, RenderedInputsJson,
                          TruncatedFields, UsageJson}
  }

  lemma RunColumnTakes(n: int, c: Column, v: Value)
    requires IsLevel(n)
    ensures Passes(DefinitionAt(Runs, c, n), v) <==> RunTakes(n, c, v)
  {
  }

  lemma StepColumnTakes(n: int, c: Column, v: Value)
    requires IsLevel(n)
    ensures Passes(DefinitionAt(Steps, c, n), v) <==> StepTakes(n, c, v)
  {
  }

  // The tables take exactly these rows: at each level these triggers, statuses and kinds,
  // and no NULL where one is required.
  lemma RunRows(db: Db, n: int, r: Row)
    requires AtLevel(db, n)
    ensures RowOk(db.tables[Runs], r) <==>
      r.Keys == db.tables[Runs].defs.Keys && forall c <- r.Keys :: RunTakes(n, c, r[c])
  {
    TableIs(db, Runs, n);
    SchemaDefinitions(Runs, n);
    var t := db.tables[Runs];
    forall c | c in t.defs ensures Passes(t.defs[c], Get(r, c)) <==> RunTakes(n, c, Get(r, c)) {
      RunColumnTakes(n, c, Get(r, c));
    }
    hide SchemaAt, DefinitionAt, Passes, RunTakes;
  }

  lemma StepRows(db: Db, n: int, r: Row)
    requires AtLevel(db, n)
    ensures RowOk(db.tables[Steps], r) <==>
      r.Keys == db.tables[Steps].defs.Keys && forall c <- r.Keys :: StepTakes(n, c, r[c])
  {
    TableIs(db, Steps, n);
    SchemaDefinitions(Steps, n);
    var t := db.tables[Steps];
    forall c | c in t.defs ensures Passes(t.defs[c], Get(r, c)) <==> StepTakes(n, c, Get(r, c)) {
      StepColumnTakes(n, c, Get(r, c));
    }
    hide SchemaAt, DefinitionAt, Passes, StepTakes;
  }

  // What a column holds that a row was not given.
  lemma RunDefaults(db: Db, n: int, c: Column)
    requires AtLevel(db, n) && c in db.tables[Runs].defs
    ensures db.tables[Runs].defs[c].initial ==
      match c case TruncatedFields => Str(EmptyText) case ParseFailureCount => Num(0.0) case _ => Null
  {
    TableIs(db, Runs, n);
    SchemaDefinitions(Runs, n);
    hide SchemaAt, AtLevel;
  }

  lemma StepDefaults(db: Db, n: int, c: Column)
    requires AtLevel(db, n) && c in db.tables[Steps].defs
    ensures db.tables[Steps].defs[c].initial ==
      match c case TruncatedFields => Str(EmptyText) case UsageJson => Str(EmptyObject) case _ => Null
  {
    TableIs(db, Steps, n);
    SchemaDefinitions(Steps, n);
    hide SchemaAt, AtLevel;
  }

  // ---------------------------------------------------------------- rows together

  // Two runs have two ids, and two steps of a run two; a run without an id is no other's.
  lemma RunsDiffer(rows: seq<Row>)
    ensures KeyUnique([RunId], rows) <==>
      forall i, j :: 0 <= i < j < |rows| ==> Get(rows[i], RunId) == Null || Get(rows[i], RunId) != Get(rows[j], RunId)
  {
    forall i, j | 0 <= i < j < |rows|
      ensures SameKey(rows[i], rows[j], [RunId])
        <==> Get(rows[i], RunId) != Null && Get(rows[i], RunId) == Get(rows[j], RunId)
    {
      assert RunId in [RunId];
    }
    hide SameKey, Get;
  }

  predicate OtherStep(r: Row, s: Row) {
    || Get(r, RunId) == Null || Get(r, StepId) == Null
    || Get(r, RunId) != Get(s, RunId) || Get(r, StepId) != Get(s, StepId)
  }

  lemma StepsDiffer(rows: seq<Row>)
    ensures KeyUnique([RunId, StepId], rows) <==>
      forall i, j :: 0 <= i < j < |rows| ==> OtherStep(rows[i], rows[j])
  {
    forall i, j | 0 <= i < j < |rows|
      ensures SameKey(rows[i], rows[j], [RunId, StepId]) <==> !OtherStep(rows[i], rows[j])
    {
      assert RunId in [RunId, StepId] && StepId in [RunId, StepId];
    }
    hide SameKey, OtherStep;
  }

  predicate OtherReply(r: Row, s: Row) {
    || Get(r, Status) != Str(AwaitingUser) || Get(s, Status) != Str(AwaitingUser)
    || Get(r, SessionKey) == Null || Get(r, SessionKey) != Get(s, SessionKey)
  }

  // The partial unique index: no two runs of a session await a reply.
  lemma AwaitingDiffer(rows: seq<Row>)
    ensures IndexHolds(Index(Runs, [SessionKey], true, Some((Status, AwaitingUser))), rows) <==>
      forall i, j :: 0 <= i < j < |rows| ==> OtherReply(rows[i], rows[j])
  {
    var ix := Index(Runs, [SessionKey], true, Some((Status, AwaitingUser)));
    forall i, j | 0 <= i < j < |rows|
      ensures Covers(ix, rows[i]) && Covers(ix, rows[j]) && SameKey(rows[i], rows[j], [SessionKey])
        <==> !OtherReply(rows[i], rows[j])
    {
      assert SessionKey in [SessionKey];
    }
    hide SameKey, OtherReply, Covers;
  }

  // A step belongs to a run that is there.
  lemma StepsBelong(db: Db, n: int, s: Row)
    requires AtLevel(db, n)
    ensures HasParent(db, db.tables[Steps].parent.value, s) <==>
      Get(s, RunId) == Null || exists r <- db.tables[Runs].rows :: Get(r, RunId) == Get(s, RunId)
  {
    StepColumnsAre(db, n);
    hide AtLevel, Get;
    var rows := db.tables[Runs].rows;
    if r :| r in rows && Get(r, RunId) == Get(s, RunId) {
      var i :| 0 <= i < |rows| && rows[i] == r;
      assert Get(rows[i], RunId) == Get(s, RunId);
    }
  }

  // ---------------------------------------------------------------- new columns

  lemma CarriedValue(r: Row, t: Table, c: Column)
    requires c in t.defs && c !in r
    ensures Get(Carry(r, t), c) == t.defs[c].initial
  {
  }

  lemma CarriedValues(t: Table, up: Table, c: Column)
    requires TableOk(t) && c in up.defs && c !in t.defs
    ensures forall r <- CarryAll(t.rows, up) :: Get(r, c) == up.defs[c].initial
  {
    forall i | 0 <= i < |t.rows| ensures Get(CarryAll(t.rows, up)[i], c) == up.defs[c].initial {
      assert RowOk(t, t.rows[i]);
      CarriedValue(t.rows[i], up, c);
    }
  }

  // After V015 every step row holds an empty object in the new column.
  lemma UsageStartsEmpty(db: Db)
    requires AtLevel(db, 14) && Sound(db)
    ensures forall r <- Reshaped(db, 15, 15).tables[Steps].rows :: Get(r, UsageJson) == Str(EmptyObject)
  {
    var up := SchemaAt(Steps, 15);
    NewStepColumn(db);
    CarriedValues(db.tables[Steps], up, UsageJson);
    hide SchemaAt, CarryAll, IndexMap;
  }

  lemma NoUsageYet()
    ensures UsageJson !in STEP_COLUMNS
  {
  }

  lemma WithUsage(columns: seq<Column>, before: set<Text>, after: set<Text>)
    requires UsageJson !in columns
    ensures UsageJson !in StepsSchema(columns, before).defs
    ensures
      var defs := StepsSchema(columns + [UsageJson], after).defs;
      UsageJson in defs && defs[UsageJson].initial == Str(EmptyObject)
  {
  }

  lemma StepSchemasAre(n: int)
    ensures SchemaAt(Steps, n) ==
      StepsSchema(if n < 15 then STEP_COLUMNS else STEP_COLUMNS + [UsageJson], KindsAt(n))
  {
    hide StepsSchema, KindsAt;
  }

  lemma NewStepColumn(db: Db)
    requires AtLevel(db, 14)
    ensures UsageJson in SchemaAt(Steps, 15).defs && UsageJson !in db.tables[Steps].defs
    ensures SchemaAt(Steps, 15).defs[UsageJson].initial == Str(EmptyObject)
  {
    TableIs(db, Steps, 14);
    hide StepsSchema, KindsAt, AtLevel, SchemaAt;
    NoUsageYet();
    StepSchemasAre(14);
    StepSchemasAre(15);
    WithUsage(STEP_COLUMNS, KindsAt(14), KindsAt(15));
  }

  predicate AwaitsNothing(r: Row) {
    && Get(r, AwaitingStepId) == Get(r, AwaitingSchemaJson) == Get(r, AwaitingSince) == Null
    && Get(r, AwaitingFilledJson) == Get(r, StepOutputsJson) == Null
    && Get(r, ParseFailureCount) == Num(0.0)
  }

  lemma RowAwaitsNothing(r: Row)
    requires forall c <- CLARIFY_COLUMNS :: Get(r, c) == if c == ParseFailureCount then Num(0.0) else Null
    ensures AwaitsNothing(r)
  {
    AreClarifyColumns();
    hide Get;
  }

  lemma ClarifyValue(db: Db, up: Table, c: Column)
    requires AtLevel(db, 12) && Sound(db) && up == SchemaAt(Runs, 13) && c in CLARIFY_COLUMNS
    ensures forall r <- CarryAll(db.tables[Runs].rows, up) ::
      Get(r, c) == if c == ParseFailureCount then Num(0.0) else Null
  {
    NewRunColumns(db);
    hide SchemaAt, CarryAll, IndexMap, TableOk, Get;
    CarriedValues(db.tables[Runs], up, c);
  }

  // After V013 every run awaits nothing, and no reply of it has failed.
  lemma ClarifyStartsEmpty(db: Db)
    requires AtLevel(db, 12) && Sound(db)
    ensures forall r <- Reshaped(db, 13, 13).tables[Runs].rows :: AwaitsNothing(r)
  {
    var t, up := db.tables[Runs], SchemaAt(Runs, 13);
    hide SchemaAt, CarryAll, IndexMap, IndexesAt, TableOk, Get, AwaitsNothing, Undisturbed;
    forall r | r in CarryAll(t.rows, up) ensures AwaitsNothing(r) {
      forall c | c in CLARIFY_COLUMNS ensures Get(r, c) == if c == ParseFailureCount then Num(0.0) else Null {
        ClarifyValue(db, up, c);
      }
      RowAwaitsNothing(r);
    }
  }

  lemma NewRunColumns(db: Db)
    requires AtLevel(db, 12)
    ensures forall c <- CLARIFY_COLUMNS ::
      && c in SchemaAt(Runs, 13).defs && c !in db.tables[Runs].defs
      && SchemaAt(Runs, 13).defs[c].initial == if c == ParseFailureCount then Num(0.0) else Null
  {
    TableIs(db, Runs, 12);
    SchemaDefinitions(Runs, 13);
    forall c | c in CLARIFY_COLUMNS
      ensures c in SchemaAt(Runs, 13).defs && c !in SchemaAt(Runs, 12).defs
      ensures DefinitionAt(Runs, c, 13).initial == if c == ParseFailureCount then Num(0.0) else Null
    {
      ClarifyColumn(c);
    }
    hide SchemaAt, DefinitionAt;
  }

  predicate IsClarify(c: Column) {
    match c
    case AwaitingStepId | AwaitingSchemaJson | AwaitingSince | AwaitingFilledJson | StepOutputsJson => true
    case ParseFailureCount => true
    case _ => false
  }

  lemma OldColumnsClarifyNothing(c: Column)
    requires c in RUN_COLUMNS
    ensures !IsClarify(c)
  {
  }

  lemma NewColumnsClarify(c: Column)
    requires c in CLARIFY_COLUMNS
    ensures IsClarify(c)
  {
  }

  lemma ClarifyColumn(c: Column)
    requires c in CLARIFY_COLUMNS
    ensures c in SchemaAt(Runs, 13).defs && c !in SchemaAt(Runs, 12).defs
    ensures DefinitionAt(Runs, c, 13).initial == if c == ParseFailureCount then Num(0.0) else Null
  {
    NewColumnsClarify(c);
    if c in RUN_COLUMNS { OldColumnsClarifyNothing(c); }
    InEither(RUN_COLUMNS, CLARIFY_COLUMNS, c);
  }

  lemma InEither(a: seq<Column>, b: seq<Column>, c: Column)
    ensures c in a + b <==> c in a || c in b
  {
  }

  lemma AreClarifyColumns()
    ensures {AwaitingStepId, AwaitingSchemaJson, AwaitingSince, AwaitingFilledJson, StepOutputsJson,
             ParseFailureCount} <= set c | c in CLARIFY_COLUMNS
  {
    assert CLARIFY_COLUMNS[0] == AwaitingStepId && CLARIFY_COLUMNS[1] == AwaitingSchemaJson;
    assert CLARIFY_COLUMNS[2] == AwaitingSince && CLARIFY_COLUMNS[3] == AwaitingFilledJson;
    assert CLARIFY_COLUMNS[4] == StepOutputsJson && CLARIFY_COLUMNS[5] == ParseFailureCount;
  }

  // ---------------------------------------------------------------- indexes

  function PlainRunIndexes(): map<IndexName, Index> {
    map[RunsNameStarted := Index(Runs, [MetaSkillName, StartedAtMs], false, None),
        RunsStatusStarted := Index(Runs, [Status, StartedAtMs], false, None),
        RunsSession := Index(Runs, [SessionKey, StartedAtMs], false, None),
        RunsStarted := Index(Runs, [StartedAtMs], false, None)]
  }

  lemma IndexMapEnd(ixs: seq<NamedIndex>, x: NamedIndex)
    ensures IndexMap(ixs + [x]) == IndexMap(ixs)[x.name := x.index]
    ensures IndexMap([]) == map[]
  {
    assert (ixs + [x])[..|ixs|] == ixs;
  }

  lemma FourIndexes(a: NamedIndex, b: NamedIndex, c: NamedIndex, d: NamedIndex)
    ensures IndexMap([a, b, c, d]) == map[a.name := a.index, b.name := b.index, c.name := c.index, d.name := d.index]
  {
    IndexMapEnd([], a);
    IndexMapEnd([a], b);
    IndexMapEnd([a, b], c);
    IndexMapEnd([a, b, c], d);
    assert [] + [a] == [a] && [a] + [b] == [a, b] && [a, b] + [c] == [a, b, c] && [a, b, c] + [d] == [a, b, c, d];
    hide IndexMap;
  }

  lemma PlainRunIndexMap()
    ensures IndexMap(RUN_INDEXES) == PlainRunIndexes()
  {
    FourIndexes(RUN_INDEXES[0], RUN_INDEXES[1], RUN_INDEXES[2], RUN_INDEXES[3]);
    assert RUN_INDEXES == [RUN_INDEXES[0], RUN_INDEXES[1], RUN_INDEXES[2], RUN_INDEXES[3]];
    hide IndexMap;
  }

  lemma RunIndexesAre(db: Db, n: int)
    requires AtLevel(db, n)
    ensures OnTable(db.indexes, Runs) ==
      if n < 13 then PlainRunIndexes()
      else PlainRunIndexes()[OneAwaitingPerSession := Index(Runs, [SessionKey], true, Some((Status, AwaitingUser)))]
  {
    assert TableAt(db, Runs, n);
    PlainRunIndexMap();
    assert RUN_INDEXES_AWAITING[..4] == RUN_INDEXES;
    hide SchemaAt, PlainRunIndexes;
  }

  lemma StepIndexesAre(db: Db, n: int)
    requires AtLevel(db, n)
    ensures OnTable(db.indexes, Steps) == map[StepsStatus := Index(Steps, [Status], false, None)]
  {
    assert TableAt(db, Steps, n);
    assert STEP_INDEXES[..0] == [];
    hide SchemaAt;
  }
}
