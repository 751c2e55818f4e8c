// What script.txt holds while a run goes on: the draft until the first reply, and from
// script_save on what the last gate showed, as long as nobody edits it.
module DramaFile {
  import opened Texts
  import opened ReviewNormalizer
  import opened ClarifyForm
  import opened DramaGraph
  import opened DramaScheduler
  import opened DramaBooks
  import opened DramaConsent
  import opened DramaRuns

  // Nobody edits the file by event i, from event j on.
  ghost predicate Untouched(events: seq<Event>, j: nat, i: nat)
    requires i <= |events|
  {
    forall k :: j <= k < i ==> !events[k].Edit?
  }

  // ---------------------------------------------------------------- one event

  lemma FileAfter(w: World, st: State, e: Event)
    requires Books(w, st) && Enabled(w, st, e) && !e.Edit?
    ensures After(w, st, e).file == if e.Dispatch? then Written(st, e.s) else st.file
  {
    hide Books, AfterEnter, AfterSettle, AfterFail, AfterResume, Arrives, Delivered, Produces, Written, Preview, Deps,
      GuardReads;
    match e {
      case Enter(s) => EnterKeepsFile(w, st, s);
      case Settle(s) => SettleKeepsFile(st, s);
      case Fail(s) => FailKeepsFile(st, s);
      case Resume(answer, summary) => ResumeContinues(w, st, answer, summary);
      case _ =>
    }
  }

  lemma EnterKeepsFile(w: World, st: State, s: Step)
    ensures AfterEnter(w, st, s).file == st.file
  {
    hide Guard;
  }

  lemma SettleKeepsFile(st: State, s: Step)
    ensures AfterSettle(st, s).file == st.file
  {
  }

  lemma FailKeepsFile(st: State, s: Step)
    ensures AfterFail(st, s).file == st.file
  {
  }

  // Whatever started stays started, and outputs stay.
  lemma StartedStays(w: World, st: State, e: Event, s: Step)
    requires Books(w, st) && Enabled(w, st, e) && s in st.stage
    ensures s in After(w, st, e).stage
  {
    hide Books, Enabled, After, Guard;
    StagesMove(w, st, e);
  }

  lemma OutputStays(w: World, st: State, e: Event, s: Step)
    requires Books(w, st) && Enabled(w, st, e) && s in st.outputs
    ensures s in After(w, st, e).outputs && Get(After(w, st, e).outputs, s) == Get(st.outputs, s)
  {
    hide Books, Enabled, After;
    EventGrows(w, st, e);
  }

  lemma Dispatches(w: World, st: State, s: Step)
    requires Enabled(w, st, Dispatch(s))
    ensures At(st, s, Entered)
    ensures
      var st' := After(w, st, Dispatch(s));
      At(st', s, Dispatched) && st'.file == Written(st, s) && st'.outputs == st.outputs
  {
    hide Written;
  }

  // ---------------------------------------------------------------- the saved script

  lemma SaveInputs(w: World, st: State)
    requires Books(w, st) && ScriptSave in st.stage
    ensures {ReviewNormalize, ScriptReread, ScriptRevised, ScriptDraft} <= st.outputs.Keys
    ensures At(st, ScriptSaveDraft, Settled)
  {
    hide Books;
    DependencySettled(w, st, ScriptSave, ReviewNormalize);
    DependencySettled(w, st, ScriptSave, ScriptReread);
    DependencySettled(w, st, ScriptSave, ScriptRevised);
    DependencySettled(w, st, ScriptReread, ScriptSaveDraft);
    DependencySettled(w, st, ScriptSaveDraft, ScriptDraft);
  }

  // script_save has been dispatched, and the file is what it wrote.
  predicate HoldsSnapshot(st: State) {
    && ScriptSave in st.stage
    && st.file == if Get(st.outputs, ScriptRevised) != "" then Get(st.outputs, ScriptRevised)
                  else Get(st.outputs, ScriptReread)
  }

  lemma SnapshotStays(w: World, st: State, e: Event)
    requires Books(w, st) && Enabled(w, st, e) && !e.Edit? && HoldsSnapshot(st)
    ensures HoldsSnapshot(After(w, st, e))
  {
    SaveInputs(w, st);
    hide Books, Enabled, After, Get;
    FileAfter(w, st, e);
    StartedStays(w, st, e, ScriptSave);
    OutputStays(w, st, e, ScriptRevised);
    OutputStays(w, st, e, ScriptReread);
    if e.Dispatch? && e.s == ScriptSaveDraft { Dispatches(w, st, e.s); }
  }

  lemma SaveHoldsSnapshot(w: World, st: State)
    requires Enabled(w, st, Dispatch(ScriptSave))
    ensures HoldsSnapshot(After(w, st, Dispatch(ScriptSave)))
  {
    hide Enabled, After, Get;
    Dispatches(w, st, ScriptSave);
  }

  lemma {:induction false} SnapshotIsHeld(w: World, states: seq<State>, events: seq<Event>, j: nat, i: nat)
    requires IsRun(w, states, events) && j < i < |states|
    requires events[j] == Dispatch(ScriptSave) && Untouched(events, j, i)
    ensures HoldsSnapshot(states[i])
    decreases i
  {
    hide Consistent, Enabled, After, HoldsSnapshot;
    assert Enabled(w, states[i - 1], events[i - 1]) && states[i - 1 + 1] == After(w, states[i - 1], events[i - 1]);
    if i == j + 1 {
      SaveHoldsSnapshot(w, states[j]);
    } else {
      SnapshotIsHeld(w, states, events, j, i - 1);
      BooksAt(w, states, events, i - 1);
      SnapshotStays(w, states[i - 1], events[i - 1]);
    }
  }

  lemma BooksAt(w: World, states: seq<State>, events: seq<Event>, i: nat)
    requires IsRun(w, states, events) && i < |states|
    ensures Books(w, states[i])
  {
    RunIsConsistent(w, states, events, i);
    hide Books, Explained, Passed, Presented, Billed;
  }

  lemma HeldIs(w: World, st: State)
    requires Books(w, st) && HoldsSnapshot(st)
    ensures {ReviewNormalize, ScriptRevised, ScriptReread} <= st.outputs.Keys
    ensures st.file == if st.outputs[ScriptRevised] != "" then st.outputs[ScriptRevised] else st.outputs[ScriptReread]
  {
    SaveInputs(w, st);
    hide Books;
  }

  lemma ProceedsIsMarker(o: map<Step, string>)
    ensures ReviewNormalize in o ==> (Proceeds(o) <==> Contains(o[ReviewNormalize], "DECISION: proceed"))
  {
    assert Marker(Proceed) == "DECISION: proceed";
    hide Contains, Marker;
  }

  lemma HeldIsShown(w: World, st: State)
    requires Consistent(w, st) && HoldsSnapshot(st) && ReviewNormalize in st.outputs && Proceeds(st.outputs)
    ensures LastGate(st) in st.shown && st.file == st.shown[LastGate(st)] == Snapshot(st.outputs)
  {
    hide Consistent, Says, Approves;
    SettledConsent(w, st);
  }

  // From script_save on the file holds the redraft, or without one what was read back
  // after the first reply. If the run may pay, that is what the last gate showed, and the
  // paid script is its canonical form; an edit alone can change it.
  lemma SavedScriptIsTheLastPreview(w: World, states: seq<State>, events: seq<Event>, j: nat, i: nat)
    requires IsRun(w, states, events) && j < i < |states|
    requires events[j] == Dispatch(ScriptSave) && Untouched(events, j, i)
    ensures
      var st := states[i];
      && {ReviewNormalize, ScriptRevised, ScriptReread} <= st.outputs.Keys
      && st.file == (if st.outputs[ScriptRevised] != "" then st.outputs[ScriptRevised] else st.outputs[ScriptReread])
      && (Contains(st.outputs[ReviewNormalize], "DECISION: proceed") ==>
            LastGate(st) in st.shown && st.file == st.shown[LastGate(st)])
      && forall p <- st.paid :: p.script == Canon(st.file)
  {
    hide IsRun, Consistent, Books, Canon, Contains, HoldsSnapshot, LastGate, Untouched;
    var st := states[i];
    SnapshotIsHeld(w, states, events, j, i);
    RunIsConsistent(w, states, events, i);
    BooksAt(w, states, events, i);
    HeldIs(w, st);
    ProceedsIsMarker(st.outputs);
    if Proceeds(st.outputs) { HeldIsShown(w, st); }
    forall p | p in st.paid ensures p.script == Canon(st.file) {
      PaidFromSnapshot(w, st, p);
      HeldIsShown(w, st);
    }
  }

  // ---------------------------------------------------------------- the draft

  // script_save_draft has been dispatched and script_save has not; the file is the draft.
  predicate HoldsDraft(st: State) {
    ScriptSaveDraft in st.stage && st.file == Get(st.outputs, ScriptDraft)
  }

  lemma DraftStays(w: World, st: State, e: Event)
    requires Books(w, st) && Enabled(w, st, e) && !e.Edit? && HoldsDraft(st)
    ensures HoldsDraft(After(w, st, e)) || ScriptSave in After(w, st, e).stage
  {
    hide Books, Enabled, After, Get;
    FileAfter(w, st, e);
    DependencySettled(w, st, ScriptSaveDraft, ScriptDraft);
    StartedStays(w, st, e, ScriptSaveDraft);
    OutputStays(w, st, e, ScriptDraft);
    if e.Dispatch? && e.s == ScriptSave { Dispatches(w, st, e.s); }
  }

  lemma {:induction false} DraftIsHeld(w: World, states: seq<State>, events: seq<Event>, j: nat, i: nat)
    requires IsRun(w, states, events) && j < i < |states|
    requires events[j] == Dispatch(ScriptSaveDraft) && Untouched(events, j, i)
    ensures HoldsDraft(states[i]) || ScriptSave in states[i].stage
    decreases i
  {
    hide Consistent, Enabled, After, Get;
    var st, e := states[i - 1], events[i - 1];
    assert Enabled(w, st, e) && states[i - 1 + 1] == After(w, st, e);
    if i == j + 1 {
      Dispatches(w, st, ScriptSaveDraft);
    } else {
      DraftIsHeld(w, states, events, j, i - 1);
      BooksAt(w, states, events, i - 1);
      hide HoldsDraft;
      if ScriptSave in st.stage { StartedStays(w, st, e, ScriptSave); } else { DraftStays(w, st, e); }
    }
  }

  lemma ReadBack(w: World, st: State, out: string)
    requires Books(w, st) && Enabled(w, st, Return(ScriptReread, out))
    ensures out == Canon(st.file) && ScriptSave !in st.stage && ReviewGate in st.outputs && ScriptDraft in st.outputs
  {
    if ScriptSave in st.stage { DependencySettled(w, st, ScriptSave, ScriptReread); }
    DependencySettled(w, st, ScriptReread, ReviewGate);
    DependencySettled(w, st, ReviewGate, ScriptDraft);
    hide Books, Canon;
  }

  // What is read back of a draft that nobody edited is the canonical form of what the
  // first gate showed. So the workflow takes a draft with a carriage return for edited,
  // and no other.
  lemma UneditedDraftIsReadBack(w: World, states: seq<State>, events: seq<Event>, j: nat, i: nat, out: string)
    requires IsRun(w, states, events) && j < i < |events|
    requires events[j] == Dispatch(ScriptSaveDraft) && events[i] == Return(ScriptReread, out)
    requires Untouched(events, j, i)
    ensures ReviewGate in states[i].shown && out == Canon(states[i].shown[ReviewGate])
    ensures Changed(states[i + 1].outputs) <==> '\r' in states[i].shown[ReviewGate]
  {
    var st := states[i];
    assert Enabled(w, st, events[i]) && states[i + 1] == After(w, st, events[i]);
    DraftIsHeld(w, states, events, j, i);
    BooksAt(w, states, events, i);
    RunIsConsistent(w, states, events, i);
    hide IsRun, Books, Canon, Consistent;
    ReadBack(w, st, out);
    DraftIsShown(w, st);
    CanonFixes(Get(st.outputs, ScriptDraft));
    hide Produces, Trimmed;
  }

  lemma DraftIsShown(w: World, st: State)
    requires Consistent(w, st) && ReviewGate in st.outputs && ScriptDraft in st.outputs
    ensures ReviewGate in st.shown && st.shown[ReviewGate] == Get(st.outputs, ScriptDraft)
    ensures Trimmed(Get(st.outputs, ScriptDraft))
  {
    assert Explained(w, st, ReviewGate) && Explained(w, st, ScriptDraft);
    hide Books, Passed, Presented, Billed, Trimmed;
  }
}
