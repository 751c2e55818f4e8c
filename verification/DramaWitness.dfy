// Runs that do pay: one whose paid script is not the preview, and one in which a model
// gives the approval.
module DramaWitness {
  import opened Texts
  import opened ReviewNormalizer
  import opened ClarifyForm
  import opened DramaGraph
  import opened DurationContract
  import opened DramaScheduler
  import opened DramaBooks
  import opened DramaConsent
  import opened DramaRuns

  // ---------------------------------------------------------------- reachable states

  ghost predicate Reaches(w: World, st: State) {
    exists states, events :: IsRun(w, states, events) && states[|events|] == st
  }

  lemma StartIsReached(w: World, file: string)
    ensures Reaches(w, Initial(w, file))
  {
    var states, events: seq<Event> := [Initial(w, file)], [];
    assert IsRun(w, states, events);
  }

  lemma NextIsReached(w: World, st: State, e: Event)
    requires Reaches(w, st) && Enabled(w, st, e)
    ensures Reaches(w, After(w, st, e))
  {
    hide Enabled, After;
    var states, events :| IsRun(w, states, events) && states[|events|] == st;
    var states', events' := states + [After(w, st, e)], events + [e];
    forall i | 0 <= i < |events'|
      ensures Enabled(w, states'[i], events'[i]) && states'[i + 1] == After(w, states'[i], events'[i])
    {
      if i < |events| {
        assert states'[i] == states[i] && events'[i] == events[i] && states'[i + 1] == states[i + 1];
      }
    }
    assert IsRun(w, states', events');
  }

  lemma ReachedIsConsistent(w: World, st: State)
    requires Reaches(w, st)
    ensures Consistent(w, st)
  {
    var states, events :| IsRun(w, states, events) && states[|events|] == st;
    RunIsConsistent(w, states, events, |events|);
    hide Consistent, IsRun;
  }

  // ---------------------------------------------------------------- whole steps

  // What a step says whose output decides nothing here.
  const DONE := "done"

  // Nothing is in flight: the steps with outputs have settled, the others wait.
  ghost predicate Rests(w: World, st: State, o: map<Step, string>) {
    && st.phase.Active? && st.outputs == o && st.resolved == o.Keys && st.paid == []
    && st.stage.Keys == o.Keys && (forall s <- o :: st.stage[s] == Settled)
    && (forall s :: Known(w.shots, s) && !IsSubstitute(s) && s !in o ==> s in st.unstarted)
  }

  lemma StartRests(w: World, file: string)
    ensures Rests(w, Initial(w, file), map[])
  {
    forall s | Known(w.shots, s) && !IsSubstitute(s) ensures s in Initial(w, file).unstarted { InPlan(w.shots, s); }
  }

  predicate MayStart(w: World, o: map<Step, string>, s: Step) {
    && Known(w.shots, s) && !IsPaired(s) && s !in o
    && Deps(w.shots, s) <= o.Keys && GuardReads(s) <= o.Keys && Guard(w, o, s)
  }

  // A resting run can take a step up to its dispatch.
  lemma StepIsEntered(w: World, st: State, o: map<Step, string>, s: Step) returns (st': State)
    requires Reaches(w, st) && Rests(w, st, o) && MayStart(w, o, s)
    ensures Reaches(w, st') && st' == st.(stage := st.stage[s := Entered], unstarted := st.unstarted - {s})
    ensures Enabled(w, st', Dispatch(s))
  {
    hide Deps, GuardReads, Guard, Produces, Reaches, AfterDispatch, AfterSettle, AfterFail, AfterResume;
    var spawned := st.(stage := st.stage[s := Spawned], unstarted := st.unstarted - {s});
    NextIsReached(w, st, Spawn(s));
    assert After(w, st, Spawn(s)) == spawned;
    NextIsReached(w, spawned, Enter(s));
    st' := AfterEnter(w, spawned, s);
    assert After(w, spawned, Enter(s)) == st';
    assert spawned.stage[s := Entered] == st.stage[s := Entered];
  }

  // Where an ordinary step leaves a resting run.
  function Ran(st: State, s: Step, out: string): State {
    st.(stage := st.stage[s := Settled], unstarted := st.unstarted - {s}, resolved := st.resolved + {s},
        outputs := st.outputs[s := out], file := Written(st, s))
  }

  // What a step leaves alone.
  predicate Beyond(st: State, st': State, s: Step) {
    st'.shown == st.shown && st'.messages == st.messages && st'.replies == st.replies && st'.file == Written(st, s)
  }

  lemma StepRuns(w: World, st: State, o: map<Step, string>, s: Step, out: string)
    returns (st': State, o': map<Step, string>)
    requires Reaches(w, st) && Rests(w, st, o) && MayStart(w, o, s) && !IsGate(s) && !IsPaid(s)
    requires Produces(w, st.(file := Written(st, s)), s, out)
    ensures Reaches(w, st') && Rests(w, st', o') && o' == o[s := out] && Beyond(st, st', s)
  {
    hide Reaches, Rests, Produces, Written, MayStart, IsPaid;
    st', o' := Ran(st, s, out), o[s := out];
    var entered := StepIsEntered(w, st, o, s);
    NotPaired(w, o, s);
    DispatchedReturns(w, entered, st, s, out);
    RanRests(w, st, o, s, out);
  }

  lemma NotPaired(w: World, o: map<Step, string>, s: Step)
    requires MayStart(w, o, s)
    ensures !IsPaired(s)
  {
    hide Deps, GuardReads, Guard;
  }

  lemma RanRests(w: World, st: State, o: map<Step, string>, s: Step, out: string)
    requires Rests(w, st, o)
    ensures Rests(w, Ran(st, s, out), o[s := out])
  {
    hide Written;
  }

  lemma DispatchedReturns(w: World, entered: State, st: State, s: Step, out: string)
    requires Reaches(w, entered) && Enabled(w, entered, Dispatch(s)) && !IsGate(s) && !IsPaid(s) && !IsPaired(s)
    requires entered == st.(stage := st.stage[s := Entered], unstarted := st.unstarted - {s})
    requires Produces(w, st.(file := Written(st, s)), s, out)
    ensures Reaches(w, Ran(st, s, out))
  {
    hide Reaches, Written, GuardReads, Guard, Deps, AfterEnter, AfterFail, AfterResume, Emitted, Decided, Freeze, Canon;
    NextIsReached(w, entered, Dispatch(s));
    var dispatched := AfterDispatch(entered, s);
    WrittenAlike(st, entered, s);
    ProducesAlike(w, st.(file := Written(st, s)), dispatched, s, out);
    NextIsReached(w, dispatched, Return(s, out));
    ReturnedSettles(w, After(w, dispatched, Return(s, out)), st, s, out);
  }

  lemma ReturnedSettles(w: World, returned: State, st: State, s: Step, out: string)
    requires Reaches(w, returned) && returned.phase.Active? && !IsPaired(s)
    requires returned.stage == st.stage[s := Entered][s := Dispatched][s := Returned]
    requires returned == st.(stage := returned.stage, unstarted := st.unstarted - {s}, outputs := st.outputs[s := out],
                             file := Written(st, s))
    ensures Reaches(w, Ran(st, s, out))
  {
    hide Reaches, Written, AfterSettle, Ran, AfterEnter, AfterDispatch, AfterFail, AfterResume, Produces, Deps,
      GuardReads;
    NextIsReached(w, returned, Settle(s));
    SettledState(returned, st, s, out);
  }

  lemma SettledState(returned: State, st: State, s: Step, out: string)
    requires returned.phase.Active? && !IsPaired(s)
    requires returned.stage == st.stage[s := Entered][s := Dispatched][s := Returned]
    requires returned == st.(stage := returned.stage, unstarted := st.unstarted - {s}, outputs := st.outputs[s := out],
                             file := Written(st, s))
    ensures AfterSettle(returned, s) == Ran(st, s, out)
  {
    hide Written;
    assert returned.stage[s := Settled] == st.stage[s := Settled];
  }

  lemma WrittenAlike(st: State, st': State, s: Step)
    requires st'.outputs == st.outputs && st'.file == st.file
    ensures Written(st', s) == Written(st, s)
  {
  }

  lemma ProducesAlike(w: World, st: State, st': State, s: Step, out: string)
    requires st'.outputs == st.outputs && st'.file == st.file && st'.replies == st.replies
    ensures Produces(w, st', s, out) == Produces(w, st, s, out)
  {
    hide Emitted, DraftReview, Freeze, Canon, Strip;
    assert Decided(w, st') == Decided(w, st) && Reply(st', ReviewGate) == Reply(st, ReviewGate);
  }

  // Where a gate and the reply to it leave a resting run.
  function Asked(st: State, g: Step, answer: Answer): State
    requires Arrives(answer)
  {
    st.(stage := st.stage[g := Settled], unstarted := st.unstarted - {g}, resolved := st.resolved + {g},
        outputs := st.outputs[g := DONE], shown := st.shown[g := Preview(st.outputs, g)],
        messages := st.messages[g := answer.message], replies := st.replies[g := Delivered(answer)])
  }

  lemma GateAsks(w: World, st: State, o: map<Step, string>, g: Step, answer: Answer)
    requires Reaches(w, st) && Rests(w, st, o) && MayStart(w, o, g) && IsGate(g) && Arrives(answer)
    ensures Reaches(w, Asked(st, g, answer)) && Rests(w, Asked(st, g, answer), o[g := DONE])
  {
    hide Reaches, Guard, GuardReads, Deps, Arrives, Delivered, Preview, AfterEnter, AfterSettle, AfterFail,
      AfterResume, Produces, Consistent;
    var entered := StepIsEntered(w, st, o, g);
    NextIsReached(w, entered, Dispatch(g));
    var waiting := AfterDispatch(entered, g);
    NextIsReached(w, waiting, Resume(answer, DONE));
    ReachedIsConsistent(w, waiting);
    assert Books(w, waiting) by { ConsistentBooks(w, waiting); }
    ResumeContinues(w, waiting, answer, DONE);
    hide Books;
    var st' := Asked(st, g, answer);
    assert waiting.stage[g := Settled] == st'.stage;
    assert AfterResume(w, waiting, answer, DONE) == st';
  }

  lemma ConsistentBooks(w: World, st: State)
    requires Consistent(w, st)
    ensures Books(w, st)
  {
    hide Books;
  }

  // ---------------------------------------------------------------- one run, for any texts

  // The first draft and its redraft, and what comes back for the two gates.
  datatype Story = Story(draft: string, redraft: string, first: Answer, second: Answer)

  predicate IsAgentOutput(text: string) { text != "" && Trimmed(text) }

  // The first reply asks for changes, the second approves, and the script that comes of
  // it is one that freezing and the duration contract accept.
  predicate Pays(w: World, s: Story) {
    && IsAgentOutput(s.draft) && IsAgentOutput(s.redraft) && Utf8Bytes(s.redraft) <= MAX_SCRIPT_BYTES
    && w.durationOk(Canon(s.redraft))
    && Arrives(s.first) && AsksForChanges(w.reader, Delivered(s.first))
    && Take(CleanReview(Delivered(s.first)), 1000) != UNCHANGED
    && Arrives(s.second) && Approves(w.reader, Delivered(s.second))
  }

  lemma RestsOutputs(w: World, st: State, o: map<Step, string>)
    requires Rests(w, st, o)
    ensures st.outputs == o
  {
  }

  lemma Plainly(w: World, o: map<Step, string>, s: Step)
    requires Unguarded(s) && !s.Shot? && s !in o && Deps(w.shots, s) <= o.Keys
    ensures MayStart(w, o, s)
  {
    hide Deps;
  }

  lemma TrimmedIsProduced(w: World, st: State, s: Step, out: string)
    requires (s == ScriptDraft || s == ScriptRevised) && IsAgentOutput(out)
    ensures Produces(w, st.(file := Written(st, s)), s, out)
  {
    StripTrims(out);
    hide Strip;
  }

  ghost predicate Drafted(w: World, s: Story, st: State, o: map<Step, string>) {
    && Reaches(w, st) && Rests(w, st, o)
    && o.Keys == {IntakeExtract, ScriptDraft, ScriptSaveDraft}
    && o[ScriptDraft] == s.draft && st.file == s.draft
    && st.shown == map[] && st.messages == map[] && st.replies == map[]
  }

  lemma ToDraft(w: World, s: Story, file: string) returns (st: State, o: map<Step, string>)
    requires IsAgentOutput(s.draft)
    ensures Drafted(w, s, st, o)
  {
    hide Reaches, Rests, MayStart, Produces, IsAgentOutput;
    st, o := Initial(w, file), map[];
    StartIsReached(w, file);
    StartRests(w, file);
    Plainly(w, o, IntakeExtract);
    AnythingIsProduced(w, st, IntakeExtract);
    st, o := StepRuns(w, st, o, IntakeExtract, DONE);
    Plainly(w, o, ScriptDraft);
    TrimmedIsProduced(w, st, ScriptDraft, s.draft);
    st, o := StepRuns(w, st, o, ScriptDraft, s.draft);
    Plainly(w, o, ScriptSaveDraft);
    RestsOutputs(w, st, o);
    AnythingIsProduced(w, st, ScriptSaveDraft);
    st, o := StepRuns(w, st, o, ScriptSaveDraft, DONE);
  }

  lemma AnythingIsProduced(w: World, st: State, s: Step)
    requires s in {IntakeExtract, ScriptSaveDraft, ScriptSave, ReferencePromptExtract}
    ensures Produces(w, st.(file := Written(st, s)), s, DONE)
  {
  }

  ghost predicate FirstAnswered(w: World, s: Story, st: State, o: map<Step, string>)
    requires Arrives(s.first)
  {
    && Reaches(w, st) && Rests(w, st, o)
    && o.Keys == {IntakeExtract, ScriptDraft, ScriptSaveDraft, ReviewGate}
    && o[ScriptDraft] == s.draft && st.file == s.draft
    && st.shown == map[ReviewGate := s.draft] && st.messages == map[ReviewGate := s.first.message]
    && st.replies == map[ReviewGate := Delivered(s.first)]
  }

  lemma ToFirstAnswer(w: World, s: Story, st0: State, o0: map<Step, string>) returns (st: State, o: map<Step, string>)
    requires Drafted(w, s, st0, o0) && Arrives(s.first)
    ensures FirstAnswered(w, s, st, o)
  {
    hide Reaches, Rests, Arrives, Delivered, MayStart;
    Plainly(w, o0, ReviewGate);
    RestsOutputs(w, st0, o0);
    GateAsks(w, st0, o0, ReviewGate, s.first);
    st, o := Asked(st0, ReviewGate, s.first), o0[ReviewGate := DONE];
  }

  // The normalizer's block for the first reply makes the redraft and the second gate due.
  lemma RedraftIsDue(w: World, review: string)
    requires AsksForChanges(w.reader, review) && Take(CleanReview(review), 1000) != UNCHANGED
    ensures
      var intent := Emitted(DraftReview(w.reader, review));
      Says(intent, Revise) && Contains(intent, "HAS_OVERRIDES: yes")
  {
    ApprovalIsExplicit(w.reader, review, review, false);
    DraftMarkers(w.reader, review);
    EveryBlockQuotes(w.reader, review, review, false);
    DraftNotes(w.reader, review);
    OverridesAreMarked(DraftReview(w.reader, review));
    hide DraftReview, Emitted, Says, Contains, Quotes, Approves, AsksForChanges;
  }

  lemma DraftNotes(reader: Reader, review: string)
    requires AsksForChanges(reader, review)
    ensures DraftReview(reader, review).notes == Take(CleanReview(review), 1000)
  {
    hide CleanReview, Take;
  }

  ghost predicate Reread(w: World, s: Story, st: State, o: map<Step, string>)
    requires Arrives(s.first)
  {
    && Reaches(w, st) && Rests(w, st, o)
    && o.Keys == {IntakeExtract, ScriptDraft, ScriptSaveDraft, ReviewGate, ReviewIntent, ScriptReread}
    && o[ReviewIntent] == Emitted(DraftReview(w.reader, Delivered(s.first)))
    && st.shown == map[ReviewGate := s.draft] && st.messages == map[ReviewGate := s.first.message]
    && st.replies == map[ReviewGate := Delivered(s.first)]
  }

  lemma ToReread(w: World, s: Story, st0: State, o0: map<Step, string>) returns (st: State, o: map<Step, string>)
    requires Arrives(s.first) && FirstAnswered(w, s, st0, o0)
    ensures Reread(w, s, st, o)
  {
    hide Reaches, Rests, Arrives, Delivered, MayStart, Emitted, DraftReview, Canon, Produces;
    st, o := st0, o0;
    var intent := Emitted(DraftReview(w.reader, Delivered(s.first)));
    Plainly(w, o, ReviewIntent);
    IntentIsProduced(w, st, Delivered(s.first));
    st, o := StepRuns(w, st, o, ReviewIntent, intent);
    Plainly(w, o, ScriptReread);
    RereadIsProduced(w, st);
    st, o := StepRuns(w, st, o, ScriptReread, Canon(st.file));
  }

  lemma IntentIsProduced(w: World, st: State, review: string)
    requires st.replies == map[ReviewGate := review]
    ensures Produces(w, st.(file := Written(st, ReviewIntent)), ReviewIntent, Emitted(DraftReview(w.reader, review)))
    ensures Written(st, ReviewIntent) == st.file
  {
    hide Emitted, DraftReview;
  }

  lemma RereadIsProduced(w: World, st: State)
    ensures Produces(w, st.(file := Written(st, ScriptReread)), ScriptReread, Canon(st.file))
  {
    hide Canon;
  }

  ghost predicate Redrafted(w: World, s: Story, st: State, o: map<Step, string>)
    requires Arrives(s.first)
  {
    && Reaches(w, st) && Rests(w, st, o)
    && o.Keys == {IntakeExtract, ScriptDraft, ScriptSaveDraft, ReviewGate, ReviewIntent, ScriptReread, ScriptRevised}
    && o[ScriptRevised] == s.redraft
    && o[ReviewIntent] == Emitted(DraftReview(w.reader, Delivered(s.first)))
    && st.shown == map[ReviewGate := s.draft] && st.messages == map[ReviewGate := s.first.message]
    && st.replies == map[ReviewGate := Delivered(s.first)]
  }

  lemma ToRedraft(w: World, s: Story, st0: State, o0: map<Step, string>) returns (st: State, o: map<Step, string>)
    requires Pays(w, s) && Reread(w, s, st0, o0)
    ensures Redrafted(w, s, st, o)
  {
    hide Reaches, Rests, Delivered, Arrives, MayStart, Emitted, DraftReview, Says, Contains, Strip, Produces,
      Approves, AsksForChanges;
    RedraftIsDue(w, Delivered(s.first));
    RedraftMayStart(w, o0);
    TrimmedIsProduced(w, st0, ScriptRevised, s.redraft);
    st, o := StepRuns(w, st0, o0, ScriptRevised, s.redraft);
  }

  lemma RedraftMayStart(w: World, o: map<Step, string>)
    requires ReviewIntent in o && ScriptReread in o && ScriptRevised !in o
    requires Says(o[ReviewIntent], Revise) && Contains(o[ReviewIntent], "HAS_OVERRIDES: yes")
    ensures MayStart(w, o, ScriptRevised)
  {
    hide Says, Contains;
  }

  lemma RevisionMayStart(w: World, o: map<Step, string>)
    requires {ReviewIntent, ScriptDraft, ScriptReread, ScriptRevised} <= o.Keys && RevisionGate !in o
    requires Says(o[ReviewIntent], Revise)
    ensures MayStart(w, o, RevisionGate)
  {
    hide Says, Contains;
  }

  // Both gates are behind the run and have these replies.
  predicate Replied(s: Story, st: State)
    requires Arrives(s.first) && Arrives(s.second)
  {
    && st.shown == map[ReviewGate := s.draft, RevisionGate := s.redraft]
    && st.messages == map[ReviewGate := s.first.message, RevisionGate := s.second.message]
    && st.replies == map[ReviewGate := Delivered(s.first), RevisionGate := Delivered(s.second)]
  }

  ghost predicate SecondAnswered(w: World, s: Story, st: State, o: map<Step, string>)
    requires Arrives(s.first) && Arrives(s.second)
  {
    && Reaches(w, st) && Rests(w, st, o)
    && o.Keys == {IntakeExtract, ScriptDraft, ScriptSaveDraft, ReviewGate, ReviewIntent, ScriptReread, ScriptRevised,
                  RevisionGate}
    && o[ScriptRevised] == s.redraft
    && Replied(s, st)
  }

  lemma ToSecondAnswer(w: World, s: Story, st0: State, o0: map<Step, string>) returns (st: State, o: map<Step, string>)
    requires Pays(w, s) && Redrafted(w, s, st0, o0)
    ensures SecondAnswered(w, s, st, o)
  {
    hide Reaches, Rests, Delivered, Arrives, MayStart, Emitted, DraftReview, Says, Contains, Approves, AsksForChanges,
      Canon;
    RedraftIsDue(w, Delivered(s.first));
    RevisionMayStart(w, o0);
    RestsOutputs(w, st0, o0);
    RedraftIsSnapshot(o0, s.redraft);
    GateAsks(w, st0, o0, RevisionGate, s.second);
    st, o := Asked(st0, RevisionGate, s.second), o0[RevisionGate := DONE];
  }

  lemma RedraftIsSnapshot(o: map<Step, string>, redraft: string)
    requires ScriptRevised in o && o[ScriptRevised] == redraft != ""
    ensures Snapshot(o) == redraft
  {
  }

  // The block for both replies approves, and the redraft is frozen under it.
  lemma RedraftIsFrozen(w: World, review: string, confirmation: string, changed: bool, redraft: string)
    requires AsksForChanges(w.reader, review) && Approves(w.reader, confirmation)
    requires IsAgentOutput(redraft) && Utf8Bytes(redraft) <= MAX_SCRIPT_BYTES
    ensures
      var final := Emitted(MediaApproval(w.reader, review, confirmation, changed));
      Says(final, Proceed) && Freeze(final, redraft) == Script(redraft)
  {
    StripTrims(redraft);
    ApprovalIsExplicit(w.reader, review, confirmation, changed);
    FinalMarker(w.reader, review, confirmation, changed);
    FreezeAcceptsFinalBlocks(w.reader, review, confirmation, changed, redraft);
    hide MediaApproval, Emitted, Says, Freeze, Approves, AsksForChanges, Strip, Utf8Bytes;
  }

  ghost predicate Saved(w: World, s: Story, st: State, o: map<Step, string>)
    requires Arrives(s.first) && Arrives(s.second)
  {
    && Reaches(w, st) && Rests(w, st, o)
    && {ReviewNormalize, ScriptReread, ScriptRevised, ScriptSave} <= o.Keys
    && FinalScript !in o && ReferencePromptExtract !in o && ReferenceImage !in o
    && Says(o[ReviewNormalize], Proceed) && Freeze(o[ReviewNormalize], Snapshot(o)) == Script(s.redraft)
    && Replied(s, st)
  }

  ghost predicate Normalized(w: World, s: Story, st: State, o: map<Step, string>)
    requires Arrives(s.first) && Arrives(s.second)
  {
    && Reaches(w, st) && Rests(w, st, o)
    && o.Keys == {IntakeExtract, ScriptDraft, ScriptSaveDraft, ReviewGate, ReviewIntent, ScriptReread, ScriptRevised,
                  RevisionGate, ReviewNormalize}
    && o[ScriptRevised] == s.redraft
    && Says(o[ReviewNormalize], Proceed) && Freeze(o[ReviewNormalize], s.redraft) == Script(s.redraft)
    && Replied(s, st)
  }

  lemma ToNormalized(w: World, s: Story, st0: State, o0: map<Step, string>) returns (st: State, o: map<Step, string>)
    requires Pays(w, s) && SecondAnswered(w, s, st0, o0)
    ensures Normalized(w, s, st, o)
  {
    hide Reaches, Rests, Delivered, Arrives, MayStart, Emitted, MediaApproval, Says, Freeze, Produces, Changed,
      Written, Approves, AsksForChanges, Canon, Utf8Bytes;
    var review, confirmation := Delivered(s.first), Delivered(s.second);
    var final := Emitted(MediaApproval(w.reader, review, confirmation, Changed(o0)));
    RedraftIsFrozen(w, review, confirmation, Changed(o0), s.redraft);
    Plainly(w, o0, ReviewNormalize);
    RestsOutputs(w, st0, o0);
    FinalIsProduced(w, st0, review, confirmation, final);
    st, o := StepRuns(w, st0, o0, ReviewNormalize, final);
  }

  lemma ToSaved(w: World, s: Story, st0: State, o0: map<Step, string>) returns (st: State, o: map<Step, string>)
    requires Arrives(s.first) && Arrives(s.second) && Normalized(w, s, st0, o0) && s.redraft != ""
    ensures Saved(w, s, st, o)
  {
    hide Reaches, Rests, Delivered, Arrives, MayStart, Says, Freeze, Produces, Written, Snapshot;
    Plainly(w, o0, ScriptSave);
    AnythingIsProduced(w, st0, ScriptSave);
    st, o := StepRuns(w, st0, o0, ScriptSave, DONE);
    RedraftIsSnapshot(o, s.redraft);
  }

  lemma FinalIsProduced(w: World, st: State, review: string, confirmation: string, final: string)
    requires st.replies == map[ReviewGate := review, RevisionGate := confirmation]
    requires final == Emitted(MediaApproval(w.reader, review, confirmation, Changed(st.outputs)))
    ensures Produces(w, st.(file := Written(st, ReviewNormalize)), ReviewNormalize, final)
  {
    hide Emitted, MediaApproval, Written, Changed;
  }

  ghost predicate Approved(w: World, s: Story, st: State, o: map<Step, string>)
    requires Arrives(s.first) && Arrives(s.second)
  {
    && Reaches(w, st) && Rests(w, st, o)
    && {ReviewNormalize, FinalScript, ReferencePromptExtract} <= o.Keys && ReferenceImage !in o
    && Says(o[ReviewNormalize], Proceed) && o[FinalScript] == Canon(s.redraft)
    && Replied(s, st)
  }

  lemma ToFinalScript(w: World, s: Story, st0: State, o0: map<Step, string>) returns (st: State, o: map<Step, string>)
    requires Arrives(s.first) && Arrives(s.second) && Saved(w, s, st0, o0)
    ensures Approved(w, s, st, o)
  {
    hide Reaches, Rests, Delivered, Arrives, MayStart, Says, Canon, Freeze, Snapshot;
    st, o := st0, o0;
    RestsOutputs(w, st, o);
    CanonOfEnd(s.redraft);
    Plainly(w, o, FinalScript);
    st, o := StepRuns(w, st, o, FinalScript, Canon(s.redraft));
    PromptMayStart(w, o);
    st, o := StepRuns(w, st, o, ReferencePromptExtract, DONE);
  }

  lemma PromptMayStart(w: World, o: map<Step, string>)
    requires {ReviewNormalize, FinalScript} <= o.Keys && ReferencePromptExtract !in o
      && Says(o[ReviewNormalize], Proceed)
    ensures MayStart(w, o, ReferencePromptExtract)
  {
    hide Says, Contains, HasShot;
  }

  lemma PaymentMayStart(w: World, o: map<Step, string>)
    requires {ReviewNormalize, FinalScript, ReferencePromptExtract} <= o.Keys && ReferenceImage !in o
    requires Says(o[ReviewNormalize], Proceed) && w.durationOk(o[FinalScript])
    ensures MayStart(w, o, ReferenceImage)
  {
    hide Says, Contains, HasShot;
  }

  lemma ToPayment(w: World, s: Story, st0: State, o: map<Step, string>) returns (st: State)
    requires Pays(w, s) && Approved(w, s, st0, o)
    ensures Reaches(w, st) && Replied(s, st) && st.paid == [Payment(ReferenceImage, Canon(s.redraft))]
  {
    hide Reaches, Says, Canon, Delivered, Arrives, MayStart, Deps, GuardReads, Guard, Written, Preview, AfterEnter,
      AfterSettle, AfterFail, AfterResume, Produces, Approves, AsksForChanges, Utf8Bytes;
    PaymentMayStart(w, o);
    var entered := StepIsEntered(w, st0, o, ReferenceImage);
    NextIsReached(w, entered, Dispatch(ReferenceImage));
    st := AfterDispatch(entered, ReferenceImage);
  }

  // ---------------------------------------------------------------- what the run shows

  // Whatever the world, the texts and the state of script.txt: a story that pays does.
  lemma SomeRunPays(w: World, s: Story, file: string) returns (st: State)
    requires Pays(w, s)
    ensures Reaches(w, st) && st.paid == [Payment(ReferenceImage, Canon(s.redraft))]
    ensures LastGate(st) in st.messages && st.messages[LastGate(st)] == s.second.message
    ensures LastPreview(st) == s.redraft
  {
    hide Reaches, Canon, Delivered, Arrives, Drafted, FirstAnswered, Reread, Redrafted, SecondAnswered, Normalized,
      Saved, Approved, Approves, AsksForChanges, Utf8Bytes;
    var o;
    st, o := ToDraft(w, s, file);
    st, o := ToFirstAnswer(w, s, st, o);
    st, o := ToReread(w, s, st, o);
    st, o := ToRedraft(w, s, st, o);
    st, o := ToSecondAnswer(w, s, st, o);
    st, o := ToNormalized(w, s, st, o);
    st, o := ToSaved(w, s, st, o);
    st, o := ToFinalScript(w, s, st, o);
    st := ToPayment(w, s, st, o);
  }

  // A redraft with a carriage return in it is charged for as another text, although the
  // user's own words approved it.
  lemma PaidScriptMayDiffer(w: World, s: Story, file: string) returns (st: State)
    requires Pays(w, s) && '\r' in s.redraft && !LeavesOpen(s.second.message)
    ensures Reaches(w, st) && |st.paid| == 1
    ensures LastPreview(st) == s.redraft && st.paid[0].script == Canon(s.redraft) != s.redraft
    ensures LastGate(st) in st.messages && st.messages[LastGate(st)] == s.second.message
    ensures Read(s.second.message).Given? && Approves(w.reader, Read(s.second.message).value)
  {
    st := SomeRunPays(w, s, file);
    CanonFixes(s.redraft);
    hide Reaches, Canon, Approves, AsksForChanges, Read, LastPreview, LastGate, Utf8Bytes, CleanReview, Cancels;
  }

  // Whatever leaves the answer to the model, even nothing at all, may end in a charge:
  // the approval is what the model puts in.
  lemma ModelMayApprove(w: World, s: Story, file: string) returns (st: State)
    requires Pays(w, s) && LeavesOpen(s.second.message)
    ensures Reaches(w, st) && |st.paid| == 1
    ensures LastGate(st) in st.messages && st.messages[LastGate(st)] == s.second.message
    ensures Approves(w.reader, Inferred(s.second.candidate, s.second.english))
  {
    st := SomeRunPays(w, s, file);
    hide Reaches, Canon, Approves, AsksForChanges, LeavesOpen, LastPreview, LastGate, Utf8Bytes, CleanReview, Cancels,
      Inferred;
  }

  // A remark on the line after an approval is not read, whatever it says: the reply as a
  // whole approves nothing, and its first line is charged for.
  lemma RemarkIsNotRead(w: World, s: Story, file: string, approval: string, remark: string) returns (st: State)
    requires OneLine(approval) && Strip(approval) != "" && ShapeOf(approval).Bare? && |Strip(approval)| <= MAX_REPLY
    requires OneLine(remark) && Strip(remark) != "" && ShapeOf(remark).Bare? && |Strip(remark)| <= MAX_NOTES
    requires Pays(w, s) && s.second.message == Message(approval + "\n" + remark, false)
    requires !Delegated(Strip(approval)) && !Approves(w.reader, approval + "\n" + remark)
    ensures Reaches(w, st) && |st.paid| == 1
    ensures LastGate(st) in st.messages && st.messages[LastGate(st)].text == approval + "\n" + remark
    ensures Approves(w.reader, Strip(approval))
  {
    st := SomeRunPays(w, s, file);
    SecondLineIsNotRead(approval, remark, false);
    hide Reaches, Canon, Approves, AsksForChanges, Read, Delegated, LastPreview, LastGate, Utf8Bytes, CleanReview,
      Cancels, Strip, ShapeOf, OneLine;
  }

  // ---------------------------------------------------------------- a world with such runs

  // A reader that knows two words.
  const TWO_WORDS := Reader(_ => false, _ => false, _ => false, _ => false, t => t == "ok", t => t == "shorter", _ => 0)

  // Its duration contract is the code's.
  const SMALL_WORLD := World(1, TWO_WORDS, text => MeetsContract(text))

  // A script whose lines end in carriage return and newline.
  function JoinReturns(lines: seq<string>): string
    requires lines != []
  {
    if |lines| == 1 then lines[0] else lines[0] + ("\r\n" + JoinReturns(lines[1..]))
  }

  lemma {:induction false} NewlinesOfLine(line: string, rest: string)
    requires '\r' !in line
    ensures UniversalNewlines(line + rest) == line + UniversalNewlines(rest)
  {
    if line == "" {
      assert line + rest == rest;
    } else {
      assert line[0] in line && forall c <- line[1..] :: c in line;
      NewlinesOfLine(line[1..], rest);
      assert (line + rest)[1..] == line[1..] + rest;
    }
  }

  lemma {:induction false} ReturnsJoin(lines: seq<string>)
    requires lines != [] && forall k :: 0 <= k < |lines| ==> '\r' !in lines[k]
    ensures UniversalNewlines(JoinReturns(lines)) == Join(lines)
    ensures |lines| > 1 ==> '\r' in JoinReturns(lines)
  {
    if |lines| == 1 {
      NewlinesKept(lines[0]);
    } else {
      var rest := JoinReturns(lines[1..]);
      ReturnsJoin(lines[1..]);
      NewlinesOfLine(lines[0], "\r\n" + rest);
      assert ("\r\n" + rest)[2..] == rest;
      assert UniversalNewlines("\r\n" + rest) == "\n" + UniversalNewlines(rest);
      assert JoinReturns(lines)[|lines[0]|] == '\r';
    }
  }

  lemma {:induction false} JoinEnds(lines: seq<string>)
    requires lines != [] && lines[|lines| - 1] != ""
    ensures Join(lines) != "" && JoinReturns(lines) != ""
    ensures Join(lines)[|Join(lines)| - 1] == lines[|lines| - 1][|lines[|lines| - 1]| - 1]
    ensures JoinReturns(lines)[|JoinReturns(lines)| - 1] == lines[|lines| - 1][|lines[|lines| - 1]| - 1]
  {
    if |lines| > 1 { JoinEnds(lines[1..]); }
  }

  lemma {:induction false} JoinReturnsIsShort(lines: seq<string>)
    requires lines != [] && forall k :: 0 <= k < |lines| ==> |lines[k]| <= 20
    ensures |JoinReturns(lines)| <= 22 * |lines|
  {
    if |lines| > 1 { JoinReturnsIsShort(lines[1..]); }
  }

  lemma {:induction false} BytesAtMost(s: string)
    ensures Utf8Bytes(s) <= 4 * |s|
  {
    if s != "" { BytesAtMost(s[..|s| - 1]); }
  }

  function ReturnsScript(): string { JoinReturns(Example()) }

  lemma ReturnsAreTrimmed(lines: seq<string>)
    requires |lines| > 1 && forall k :: 0 <= k < |lines| ==> '\r' !in lines[k]
    requires lines[0] != "" && !IsSpace(lines[0][0])
    requires lines[|lines| - 1] != "" && !IsSpace(lines[|lines| - 1][|lines[|lines| - 1]| - 1])
    ensures IsAgentOutput(JoinReturns(lines)) && '\r' in JoinReturns(lines)
    ensures Canon(JoinReturns(lines)) == Join(lines)
  {
    hide IsSpace, UniversalNewlines;
    ReturnsJoin(lines);
    JoinEnds(lines);
    assert JoinReturns(lines)[0] == lines[0][0] == Join(lines)[0];
    StripTrims(Join(lines));
  }

  // The agent may well end its lines so, and the paid text then has other line ends than
  // the approved one.
  lemma ReturnsScriptIsAccepted()
    ensures IsAgentOutput(ReturnsScript()) && Utf8Bytes(ReturnsScript()) <= MAX_SCRIPT_BYTES
    ensures MeetsContract(Canon(ReturnsScript())) && '\r' in ReturnsScript()
  {
    var lines := Example();
    forall k | 0 <= k < |lines| ensures '\r' !in lines[k] && |lines[k]| <= 20 { ExampleIsPlain(k); }
    ExampleEnds();
    ExampleMeetsContract();
    hide Example, Utf8Bytes, MeetsContract, Canon, JoinReturns, Join, IsAgentOutput;
    ReturnsAreTrimmed(lines);
    JoinReturnsIsShort(lines);
    BytesAtMost(ReturnsScript());
  }

  lemma ExampleEnds()
    ensures Example() != [] && Example()[0] != "" && Example()[0][0] == '='
    ensures Example()[4] != "" && Example()[4][|Example()[4]| - 1] == '5' && |Example()| == 5
    ensures !IsSpace('=') && !IsSpace('5')
  {
  }

  // ---------------------------------------------------------------- messages of a few letters

  lemma {:induction false} SpanOfLetters(word: string)
    requires forall c <- word :: IsLetter(c)
    ensures Span(word, true) == |word|
    ensures Span(word, false) == 0
  {
    SpanIs(word, "", true);
    assert word + "" == word;
    if word != "" { assert word[0] in word; }
  }

  lemma WordIsBare(word: string)
    requires word != "" && forall c <- word :: IsLetter(c)
    ensures ShapeOf(word) == Bare(word) && Strip(word) == word && OneLine(word)
  {
    SpanOfLetters(word);
    assert IsWord(word);
    WordsArePlain(word);
    StripTrims(word);
    assert word[|word|..] == "";
    hide Span, Strip;
  }

  // None of the keywords that cancel is made of other letters than these alone.
  lemma DoesNotCancel(m: Message)
    requires forall c <- Lower(m.text) :: c !in {'c', '取', '算', '停', 'p', 'b'}
    ensures !Cancels(m)
  {
    var text := Lower(m.text);
    NotIn(text, "cancel", 0);
    NotIn(text, "取消", 0);
    NotIn(text, "算了", 0);
    NotIn(text, "停止", 0);
    NotIn(text, "stop", 3);
    NotIn(text, "abort", 1);
    hide Contains;
  }

  lemma NotIn(text: string, word: string, k: nat)
    requires k < |word| && word[k] !in text
    ensures !Contains(text, word)
  {
    forall i | 0 <= i <= |text| ensures !OccursAt(text, word, i) {
      if OccursAt(text, word, i) { OccursElement(text, word, i, k); }
    }
  }

  lemma WordIsRead(word: string)
    requires word != "" && |word| <= MAX_REPLY && forall c <- word :: IsLetter(c)
    ensures Read(Message(word, false)) == Given(word)
  {
    WordIsBare(word);
    hide ShapeOf, Strip, Read, OneLine;
    OneLineIsReadWhole(word, false);
  }

  // The letters of the messages below.
  predicate IsPlainChar(c: char) { c in "shorteknt1.\n" }

  lemma PlainCharIsOther(c: char)
    requires IsPlainChar(c)
    ensures c !in {'c', '取', '算', '停', 'p', 'b'} && !('A' <= c <= 'Z')
  {
  }

  lemma PlainTextDoesNotCancel(m: Message)
    requires forall c <- m.text :: IsPlainChar(c)
    ensures !Cancels(m) && Lower(m.text) == m.text
  {
    forall i | 0 <= i < |m.text| ensures Lower(m.text)[i] == m.text[i] {
      assert m.text[i] in m.text;
      PlainCharIsOther(m.text[i]);
    }
    assert Lower(m.text) == m.text;
    forall c | c in m.text ensures c !in {'c', '取', '算', '停', 'p', 'b'} { PlainCharIsOther(c); }
    hide IsPlainChar, Lower, Cancels;
    DoesNotCancel(m);
  }

  const SHORTER := "shorter"
  const OK := "ok"
  const ONE_DOT := "1."
  const NOT_OK := "ok" + "\n" + "not"

  lemma NoPhrases()
    ensures SHORTER !in UNINFORMATIVE && OK !in UNINFORMATIVE
  {
  }

  lemma SaysSomething(word: string)
    requires Strip(word) == word && Lower(word) == word && word !in UNINFORMATIVE
    ensures !Delegated(word)
  {
    hide Strip, Lower;
  }

  lemma ShorterArrives()
    ensures !Cancels(Message(SHORTER, false)) && Read(Message(SHORTER, false)) == Given(SHORTER) && !Delegated(SHORTER)
  {
    PlainTextDoesNotCancel(Message(SHORTER, false));
    WordIsRead(SHORTER);
    WordIsBare(SHORTER);
    NoPhrases();
    hide Read, Cancels, Strip, Lower, Delegated;
    SaysSomething(SHORTER);
  }

  lemma OkArrives()
    ensures !Cancels(Message(OK, false)) && Read(Message(OK, false)) == Given(OK) && !Delegated(OK)
  {
    PlainTextDoesNotCancel(Message(OK, false));
    WordIsRead(OK);
    WordIsBare(OK);
    NoPhrases();
    hide Read, Cancels, Strip, Lower, Delegated;
    SaysSomething(OK);
  }

  lemma OneDotArrives()
    ensures !Cancels(Message(ONE_DOT, false)) && LeavesOpen(Message(ONE_DOT, false))
  {
    PlainTextDoesNotCancel(Message(ONE_DOT, false));
    OneDotIsOpen(false);
    hide Read, Cancels, Lower;
  }

  lemma NotOkArrives()
    ensures !Cancels(Message(NOT_OK, false)) && Read(Message(NOT_OK, false)) == Given(OK)
  {
    PlainTextDoesNotCancel(Message(NOT_OK, false));
    WordIsBare("ok");
    WordIsBare("not");
    hide Read, Cancels, Strip, Lower, ShapeOf, OneLine;
    SecondLineIsNotRead("ok", "not", false);
  }

  lemma TwoWordsSuffice()
    ensures AsksForChanges(TWO_WORDS, SHORTER) && CleanReview(SHORTER) == SHORTER
    ensures Approves(TWO_WORDS, OK)
  {
    WordIsClean(SHORTER);
    WordIsClean(OK);
    hide CleanReview;
  }

  lemma NotOkApprovesNothing()
    ensures !Approves(TWO_WORDS, NOT_OK)
  {
    WordsAreClean("ok", "not");
    hide CleanReview;
  }

  function SmallStory(typed: string, candidate: string): Story {
    Story(ReturnsScript(), ReturnsScript(), Answer(Message(SHORTER, false), "", true),
      Answer(Message(typed, false), candidate, true))
  }

  lemma SmallStoryPays(typed: string, candidate: string)
    requires Arrives(Answer(Message(typed, false), candidate, true))
    requires Delivered(Answer(Message(typed, false), candidate, true)) == OK
    ensures Pays(SMALL_WORLD, SmallStory(typed, candidate))
  {
    ReturnsScriptIsAccepted();
    TwoWordsSuffice();
    ShorterArrives();
    hide AsksForChanges, Approves, Delegated, CleanReview, Canon, Read, Cancels, IsAgentOutput, MeetsContract,
      Utf8Bytes, ReturnsScript, Inferred;
  }

  // In one small world, with the code's own duration contract: a payment for another
  // text than the one that "ok" approved.
  lemma DifferingPayment(file: string) returns (st: State)
    ensures Reaches(SMALL_WORLD, st) && |st.paid| == 1 && st.paid[0].script != LastPreview(st)
    ensures LastGate(st) in st.messages && st.messages[LastGate(st)] == Message("ok", false)
  {
    OkArrives();
    ReturnsScriptIsAccepted();
    hide Reaches, Pays, Approves, Delegated, LastPreview, LastGate, Canon, Read, Cancels, MeetsContract,
      ReturnsScript, IsAgentOutput, Utf8Bytes;
    SmallStoryPays(OK, "");
    st := PaidScriptMayDiffer(SMALL_WORLD, SmallStory(OK, ""), file);
  }

  // One that a model approved after "1." came back.
  lemma ModelledPayment(file: string) returns (st: State)
    ensures Reaches(SMALL_WORLD, st) && |st.paid| == 1
    ensures LastGate(st) in st.messages && st.messages[LastGate(st)] == Message("1.", false)
  {
    OneDotArrives();
    OkIsInferred();
    hide Reaches, Pays, Approves, Delegated, LastPreview, LastGate, Canon, Read, Cancels, Inferred, ReturnsScript;
    SmallStoryPays(ONE_DOT, OK);
    st := ModelMayApprove(SMALL_WORLD, SmallStory(ONE_DOT, OK), file);
  }

  // And one after "ok" with "not" on the next line.
  lemma RemarkedPayment(file: string) returns (st: State)
    ensures Reaches(SMALL_WORLD, st) && |st.paid| == 1
    ensures LastGate(st) in st.messages && st.messages[LastGate(st)] == Message("ok" + "\n" + "not", false)
    ensures !Approves(TWO_WORDS, "ok" + "\n" + "not")
  {
    OkArrives();
    NotOkArrives();
    NotOkApprovesNothing();
    hide Reaches, Pays, Approves, Delegated, LastPreview, LastGate, Canon, Read, Cancels, ReturnsScript;
    SmallStoryPays(NOT_OK, "");
    st := SomeRunPays(SMALL_WORLD, SmallStory(NOT_OK, ""), file);
  }

  lemma OkIsInferred()
    ensures Inferred(OK, true) == OK
  {
    OkArrives();
    WordIsBare(OK);
    hide Strip, Delegated, Read, Cancels;
  }
}
