// What the last reply approves is what is paid for: in every run of the short-drama
// graph, under any schedule and any edits of script.txt.
module DramaConsent {
  import opened Texts
  import opened ReviewNormalizer
  import opened ClarifyForm
  import opened DramaGraph
  import opened DramaScheduler
  import opened DramaBooks

  // ---------------------------------------------------------------- how outputs came about

  // The outputs that went into a step's output.
  function Inputs(s: Step): set<Step> {
    match s
    case ReviewGate => {ScriptDraft}
    case ReviewIntent => {ReviewGate}
    case ScriptRevised => {ReviewIntent}
    case RevisionGate => {ReviewIntent, ScriptDraft, ScriptReread, ScriptRevised}
    case ReviewNormalize => {ReviewGate, RevisionGate, ScriptDraft, ScriptReread}
    case FinalScript => {ReviewNormalize, ScriptReread, ScriptRevised}
    case _ => {}
  }

  // Why an output is what it is, in terms of the replies and of other outputs.
  predicate Explained(w: World, st: State, s: Step) {
    && Inputs(s) <= st.outputs.Keys
    && match s
       case ScriptDraft => Trimmed(Get(st.outputs, s))
       case ScriptReread => Canon(Get(st.outputs, s)) == Get(st.outputs, s)
       case ReviewGate => s in st.shown && s in st.replies && st.shown[s] == Get(st.outputs, ScriptDraft)
       case ReviewIntent => Get(st.outputs, s) == Emitted(DraftReview(w.reader, Reply(st, ReviewGate)))
       case ScriptRevised => Get(st.outputs, s) != "" ==> Says(Get(st.outputs, ReviewIntent), Revise)
       case RevisionGate =>
         && (s in st.shown <==> AsksAgain(st.outputs))
         && (s in st.shown ==> s in st.replies && st.shown[s] == Snapshot(st.outputs))
         && (s !in st.shown ==> s !in st.replies)
       case ReviewNormalize => Get(st.outputs, s) == Emitted(Decided(w, st))
       case FinalScript =>
         && Freeze(Get(st.outputs, ReviewNormalize), Snapshot(st.outputs)).Script?
         && Get(st.outputs, s) == Canon(Snapshot(st.outputs))
       case _ => true
  }

  // From one state to a later one, outputs are only added, and what a gate showed and
  // was told is fixed once it has an output.
  ghost predicate Grows(st: State, st': State) {
    && (forall x <- st.outputs :: x in st'.outputs && st'.outputs[x] == st.outputs[x])
    && (forall x <- st.outputs :: (x in st'.shown <==> x in st.shown) && (x in st'.replies <==> x in st.replies))
    && (forall x <- st.shown :: x in st.outputs ==> st'.shown[x] == st.shown[x])
    && (forall x <- st.replies :: x in st.outputs ==> st'.replies[x] == st.replies[x])
  }

  lemma GetKept(st: State, st': State, x: Step)
    requires Grows(st, st') && x in st.outputs
    ensures Get(st'.outputs, x) == Get(st.outputs, x) && x in st'.outputs
    ensures Reply(st', x) == Reply(st, x)
    ensures x in st'.shown <==> x in st.shown
    ensures x in st'.replies <==> x in st.replies
    ensures x in st.shown ==> st'.shown[x] == st.shown[x]
  {
  }

  // An explanation stays true.
  lemma StaysExplained(w: World, st: State, st': State, s: Step)
    requires Explained(w, st, s) && s in st.outputs && Grows(st, st')
    ensures Explained(w, st', s)
  {
    hide Explained, Grows;
    match s {
      case ReviewGate | ReviewIntent | ScriptRevised | ScriptDraft | ScriptReread => EarlyStays(w, st, st', s);
      case RevisionGate => RevisionStays(w, st, st');
      case ReviewNormalize => NormalizeStays(w, st, st');
      case FinalScript => FinalStays(w, st, st');
      case _ => NothingToExplain(w, st', s);
    }
  }

  lemma NothingToExplain(w: World, st: State, s: Step)
    requires s !in {ReviewGate, ReviewIntent, ScriptRevised, ScriptDraft, ScriptReread, RevisionGate,
                    ReviewNormalize, FinalScript}
    ensures Explained(w, st, s)
  {
  }

  lemma EarlyStays(w: World, st: State, st': State, s: Step)
    requires s in {ReviewGate, ReviewIntent, ScriptRevised, ScriptDraft, ScriptReread}
    requires Explained(w, st, s) && s in st.outputs && Grows(st, st')
    ensures Explained(w, st', s)
  {
    hide Grows, Get, Reply, Emitted, Canon, DraftReview, Says, Trimmed;
    GetKept(st, st', s);
    if s == ReviewGate { GetKept(st, st', ScriptDraft); }
    if s == ReviewIntent { GetKept(st, st', ReviewGate); }
    if s == ScriptRevised { GetKept(st, st', ReviewIntent); }
  }

  lemma RevisionStays(w: World, st: State, st': State)
    requires Explained(w, st, RevisionGate) && RevisionGate in st.outputs && Grows(st, st')
    ensures Explained(w, st', RevisionGate)
  {
    hide Grows, Get, Reply, Says;
    GetKept(st, st', RevisionGate);
    GetKept(st, st', ReviewIntent);
    GetKept(st, st', ScriptDraft);
    GetKept(st, st', ScriptReread);
    GetKept(st, st', ScriptRevised);
  }

  lemma NormalizeStays(w: World, st: State, st': State)
    requires Explained(w, st, ReviewNormalize) && ReviewNormalize in st.outputs && Grows(st, st')
    ensures Explained(w, st', ReviewNormalize)
  {
    hide Grows, Get, Reply, Emitted, MediaApproval;
    GetKept(st, st', ReviewNormalize);
    GetKept(st, st', ReviewGate);
    GetKept(st, st', RevisionGate);
    GetKept(st, st', ScriptDraft);
    GetKept(st, st', ScriptReread);
  }

  lemma FinalStays(w: World, st: State, st': State)
    requires Explained(w, st, FinalScript) && FinalScript in st.outputs && Grows(st, st')
    ensures Explained(w, st', FinalScript)
  {
    hide Grows, Get, Reply, Canon, Freeze;
    GetKept(st, st', FinalScript);
    GetKept(st, st', ReviewNormalize);
    GetKept(st, st', ScriptReread);
    GetKept(st, st', ScriptRevised);
  }

  // A step that has started has its inputs.
  lemma InputsReady(w: World, st: State, s: Step)
    requires Books(w, st) && s in st.stage
    ensures Inputs(s) <= st.outputs.Keys
  {
    hide Books;
    match s {
      case ReviewGate => DependencySettled(w, st, s, ScriptDraft);
      case ReviewIntent => DependencySettled(w, st, s, ReviewGate);
      case ScriptRevised => DependencySettled(w, st, s, ReviewIntent);
      case RevisionGate => RevisionInputs(w, st);
      case ReviewNormalize => NormalizeInputs(w, st);
      case FinalScript => FinalInputs(w, st);
      case _ =>
    }
  }

  lemma NormalizeInputs(w: World, st: State)
    requires Books(w, st) && ReviewNormalize in st.stage
    ensures Inputs(ReviewNormalize) <= st.outputs.Keys
  {
    hide Books;
    DependencySettled(w, st, ReviewNormalize, RevisionGate);
    DependencySettled(w, st, ReviewNormalize, ReviewIntent);
    DependencySettled(w, st, ReviewIntent, ReviewGate);
    RevisionInputs(w, st);
  }

  lemma FinalInputs(w: World, st: State)
    requires Books(w, st) && FinalScript in st.stage
    ensures Inputs(FinalScript) <= st.outputs.Keys
  {
    hide Books;
    DependencySettled(w, st, FinalScript, ReviewNormalize);
    DependencySettled(w, st, FinalScript, ScriptSave);
    DependencySettled(w, st, ScriptSave, ScriptReread);
    DependencySettled(w, st, ScriptSave, ScriptRevised);
  }

  lemma RevisionInputs(w: World, st: State)
    requires Books(w, st) && RevisionGate in st.stage
    ensures Inputs(RevisionGate) <= st.outputs.Keys
  {
    hide Books;
    DependencySettled(w, st, RevisionGate, ReviewIntent);
    DependencySettled(w, st, RevisionGate, ScriptDraft);
    DependencySettled(w, st, RevisionGate, ScriptReread);
    DependencySettled(w, st, RevisionGate, ScriptRevised);
  }

  // ---------------------------------------------------------------- guards, gates, payments

  predicate Agrees(o: map<Step, string>, o': map<Step, string>, xs: set<Step>) {
    forall x <- xs :: x in o && x in o' && o'[x] == o[x]
  }

  lemma GuardKept(w: World, o: map<Step, string>, o': map<Step, string>, s: Step)
    requires Agrees(o, o', GuardReads(s))
    ensures Guard(w, o', s) == Guard(w, o, s)
  {
    if s.Shot? {
      var prompt := Shot(s.n, if s.part == Image then ImagePrompt else VideoPrompt);
      assert prompt in GuardReads(s) ==> Get(o', prompt) == Get(o, prompt);
    }
    assert ReviewNormalize in GuardReads(s) ==> Get(o', ReviewNormalize) == Get(o, ReviewNormalize);
    assert FinalScript in GuardReads(s) ==> Get(o', FinalScript) == Get(o, FinalScript);
    assert DeliveryAudit in GuardReads(s) ==> Get(o', DeliveryAudit) == Get(o, DeliveryAudit);
    assert ReviewIntent in GuardReads(s) ==> Get(o', ReviewIntent) == Get(o, ReviewIntent);
    assert ScriptReread in GuardReads(s) ==> Get(o', ScriptReread) == Get(o, ScriptReread);
    assert ScriptDraft in GuardReads(s) ==> Get(o', ScriptDraft) == Get(o, ScriptDraft);
    hide Get, Says, HasShot, Contains;
  }

  // A step that got past its guard still would.
  ghost predicate Passed(w: World, st: State, s: Step) {
    At(st, s, Entered) || At(st, s, Dispatched) ==> GuardReads(s) <= st.outputs.Keys && Guard(w, st.outputs, s)
  }

  predicate Presented(st: State, g: Step) {
    && (g in st.shown ==> IsGate(g) && (At(st, g, Dispatched) || At(st, g, Settled)))
    && (IsGate(g) && At(st, g, Dispatched) ==> g in st.shown && st.shown[g] == Preview(st.outputs, g))
    && (g in st.replies ==> g in st.outputs && RepliedAsRead(st, g))
  }

  // What came back was not refused, and the workflow got the value it gives, unless it
  // leaves the answer to the model.
  predicate RepliedAsRead(st: State, g: Step)
    requires g in st.replies
  {
    && g in st.messages && (LeavesOpen(st.messages[g]) || Read(st.messages[g]) == Given(st.replies[g]))
  }

  // Every payment takes its arguments from the frozen script, under a passed guard.
  predicate Charged(w: World, st: State, p: Payment) {
    && IsPaid(p.step)
    && GuardReads(p.step) <= st.outputs.Keys
    && PaysFor(w, st.outputs, p.step)
    && p.script == Get(st.outputs, FinalScript)
    && p.step in st.stage && st.stage[p.step] != Spawned && st.stage[p.step] != Entered
  }

  ghost predicate Billed(w: World, st: State) {
    && (forall i :: 0 <= i < |st.paid| ==> Charged(w, st, st.paid[i]))
    && (forall i, j :: 0 <= i < j < |st.paid| ==> st.paid[i].step != st.paid[j].step)
  }

  ghost predicate Consistent(w: World, st: State) {
    && Books(w, st)
    && (forall s <- st.outputs :: Explained(w, st, s))
    && (forall s :: Passed(w, st, s))
    && (forall g :: Presented(st, g))
    && Billed(w, st)
  }

  // ---------------------------------------------------------------- every event

  lemma NoOutputYet(w: World, st: State, s: Step)
    requires Books(w, st)
    ensures InFlight(st, s) ==> s !in st.outputs
    ensures IsSubstitute(s) && At(st, s, Returned) ==> Shot(s.n, Video) !in st.outputs
  {
    hide Books, Deps, Booked, Phased;
    if s in st.stage {
      StartedIsTimely(w, st, s);
      BookedOutputs(st, s);
    }
  }

  lemma BookedOutputs(st: State, s: Step)
    requires Booked(st, s)
    ensures InFlight(st, s) ==> s !in st.outputs
    ensures IsSubstitute(s) && At(st, s, Returned) ==> Shot(s.n, Video) !in st.outputs
  {
    if IsPaired(s) { PairOutputs(st, s.n); }
  }

  lemma PairOutputs(st: State, n: int)
    requires Pair(st, n)
    ensures InFlight(st, Shot(n, Video)) ==> Shot(n, Video) !in st.outputs
    ensures InFlight(st, Shot(n, Fallback)) ==> Shot(n, Fallback) !in st.outputs
    ensures At(st, Shot(n, Fallback), Returned) ==> Shot(n, Video) !in st.outputs
  {
  }

  lemma SettleGrows(st: State, s: Step)
    requires IsSubstitute(s) ==> Shot(s.n, Video) !in st.outputs
    ensures Grows(st, AfterSettle(st, s))
    ensures AfterSettle(st, s).shown == st.shown && AfterSettle(st, s).replies == st.replies
    ensures AfterSettle(st, s).paid == st.paid
    ensures forall x <- AfterSettle(st, s).outputs :: x in st.outputs || IsVideo(x)
  {
  }

  // An event of the step s, which has no output yet, is none of the other steps'.
  ghost predicate OnlyAt(st: State, st': State, s: Step) {
    && (forall x :: x != s ==>
          && (x in st'.outputs <==> x in st.outputs) && (x in st'.shown <==> x in st.shown)
          && (x in st'.replies <==> x in st.replies))
    && (forall x <- st.outputs :: x != s ==> st'.outputs[x] == st.outputs[x])
    && (forall x <- st.shown :: x != s ==> st'.shown[x] == st.shown[x])
    && (forall x <- st.replies :: x != s ==> st'.replies[x] == st.replies[x])
  }

  lemma OnlyAtGrows(st: State, st': State, s: Step)
    requires OnlyAt(st, st', s) && s !in st.outputs
    ensures Grows(st, st')
  {
  }

  lemma EnterIsOnlyAt(w: World, st: State, s: Step)
    ensures OnlyAt(st, AfterEnter(w, st, s), s)
  {
    hide Guard, OnlyAt;
    AdvanceIsOnlyAt(st, s);
    ReturnIsOnlyAt(st, s, "");
  }

  lemma AdvanceIsOnlyAt(st: State, s: Step)
    ensures OnlyAt(st, st.(stage := st.stage[s := Entered]), s)
  {
  }

  lemma DispatchIsOnlyAt(st: State, s: Step)
    ensures OnlyAt(st, AfterDispatch(st, s), s)
  {
    hide Written, Preview, Get;
  }

  lemma ContinuedIsOnlyAt(st: State, s: Step, message: Message, reply: string, summary: string)
    ensures OnlyAt(st, Continued(st, s, message, reply, summary), s)
  {
  }

  lemma ReturnIsOnlyAt(st: State, s: Step, out: string)
    ensures OnlyAt(st, st.(stage := st.stage[s := Returned], outputs := st.outputs[s := out]), s)
  {
  }

  // What no event but a gate's own changes.
  lemma EventGrows(w: World, st: State, e: Event)
    requires Books(w, st) && Enabled(w, st, e)
    ensures Grows(st, After(w, st, e))
  {
    hide Books, AfterEnter, AfterDispatch, AfterSettle, AfterFail, AfterResume, Arrives, Delivered, Produces,
      GuardReads, Deps, OnlyAt, Grows;
    match e {
      case Enter(s) => NoOutputYet(w, st, s); EnterIsOnlyAt(w, st, s); OnlyAtGrows(st, AfterEnter(w, st, s), s);
      case Dispatch(s) => NoOutputYet(w, st, s); DispatchIsOnlyAt(st, s); OnlyAtGrows(st, AfterDispatch(st, s), s);
      case Return(s, out) => NoOutputYet(w, st, s); ReturnIsOnlyAt(st, s, out); OnlyAtGrows(st, After(w, st, e), s);
      case Settle(s) => NoOutputYet(w, st, s); SettleGrows(st, s);
      case Resume(answer, summary) =>
        ResumeContinues(w, st, answer, summary);
        GateWaits(w, st);
        ContinuedIsOnlyAt(st, st.phase.gate, answer.message, Delivered(answer), summary);
        OnlyAtGrows(st, After(w, st, e), st.phase.gate);
      case _ => NothingGrows(w, st, e);
    }
  }

  lemma NothingGrows(w: World, st: State, e: Event)
    requires Enabled(w, st, e) && (e.Edit? || e.Spawn? || e.Fail?)
    ensures Grows(st, After(w, st, e))
  {
    hide Deps, Produces, GuardReads;
  }

  lemma SkippedIsExplained(w: World, st: State, s: Step)
    requires Books(w, st) && At(st, s, Spawned) && !Guard(w, st.outputs, s) && Presented(st, s)
    ensures Explained(w, AfterEnter(w, st, s), s)
  {
    InputsReady(w, st, s);
    NoOutputYet(w, st, s);
    assert s != ReviewIntent && s != ReviewNormalize && s != FinalScript && s != ScriptDraft && s != ScriptReread
      && s != ReviewGate;
    if s == RevisionGate { SkippedGate(w, st); }
    hide Books, Deps, InFlight, Says, Emitted, Freeze, MediaApproval, DraftReview, Contains, HasShot, Canon;
  }

  lemma SkippedGate(w: World, st: State)
    requires !AsksAgain(st.outputs) && RevisionGate !in st.outputs
    ensures !AsksAgain(st.outputs[RevisionGate := ""])
  {
    assert forall x :: x != RevisionGate ==> Get(st.outputs[RevisionGate := ""], x) == Get(st.outputs, x);
    hide Says;
  }

  lemma GateDoesNotReturn(w: World, st: State, s: Step)
    requires Books(w, st) && st.phase.Active? && At(st, s, Dispatched)
    ensures !IsGate(s)
  {
    StartedIsTimely(w, st, s);
    hide Books, Deps, Booked;
  }

  lemma FrozenIsExplained(st: State, out: string)
    requires Freeze(Get(st.outputs, ReviewNormalize), Snapshot(st.outputs)).Script?
    requires out == Canon(Freeze(Get(st.outputs, ReviewNormalize), Snapshot(st.outputs)).text + "\n")
    ensures
      var o := st.outputs[FinalScript := out];
      Freeze(Get(o, ReviewNormalize), Snapshot(o)).Script? && out == Canon(Snapshot(o))
  {
    hide Canon, Lines, DecisionLines, Strip, Utf8Bytes, Marker;
    CanonOfEnd(Snapshot(st.outputs));
    var o := st.outputs[FinalScript := out];
    assert Get(o, ReviewNormalize) == Get(st.outputs, ReviewNormalize) && Snapshot(o) == Snapshot(st.outputs);
  }

  lemma DecidedBefore(w: World, st: State, st': State)
    requires st'.replies == st.replies && Changed(st'.outputs) == Changed(st.outputs)
    ensures Decided(w, st') == Decided(w, st)
  {
  }

  // An output added beside those an explanation is about.
  lemma Beside(st: State, s: Step, out: string, x: Step)
    requires x != s
    ensures Get(st.outputs[s := out], x) == Get(st.outputs, x)
  {
  }

  lemma NormalizedIsExplained(w: World, st: State, st': State, s: Step, out: string)
    requires s == ReviewIntent || s == ReviewNormalize
    requires Inputs(s) <= st.outputs.Keys && Produces(w, st, s, out)
    requires st'.outputs == st.outputs[s := out] && st'.replies == st.replies
    ensures Explained(w, st', s)
  {
    hide Emitted, Decided, DraftReview;
    if s == ReviewNormalize {
      Beside(st, s, out, ScriptReread);
      Beside(st, s, out, ScriptDraft);
      DecidedBefore(w, st, st');
    }
  }

  lemma ScriptIsExplained(w: World, st: State, st': State, s: Step, out: string)
    requires s == ScriptDraft || s == ScriptReread || s == ScriptRevised || s == FinalScript
    requires Inputs(s) <= st.outputs.Keys && Produces(w, st, s, out) && Guard(w, st.outputs, s)
    requires st'.outputs == st.outputs[s := out]
    ensures Explained(w, st', s)
  {
    hide Canon, Says, Strip, Freeze, Contains;
    match s {
      case ScriptDraft => StripTrims(out);
      case ScriptReread => CanonFixes(st.file);
      case ScriptRevised => Beside(st, s, out, ReviewIntent);
      case FinalScript => FrozenIsExplained(st, out);
    }
  }

  lemma ReturnedIsExplained(w: World, st: State, s: Step, out: string)
    requires Books(w, st) && st.phase.Active? && At(st, s, Dispatched) && Passed(w, st, s) && Produces(w, st, s, out)
    ensures Explained(w, st.(stage := st.stage[s := Returned], outputs := st.outputs[s := out]), s)
  {
    hide Books, Produces, Guard, GuardReads;
    var st' := st.(stage := st.stage[s := Returned], outputs := st.outputs[s := out]);
    GateDoesNotReturn(w, st, s);
    InputsReady(w, st, s);
    match s {
      case ReviewIntent | ReviewNormalize => NormalizedIsExplained(w, st, st', s, out);
      case ScriptDraft | ScriptReread | ScriptRevised | FinalScript => ScriptIsExplained(w, st, st', s, out);
      case _ =>
    }
  }

  // The gate's output is the user's reply to what it showed.
  lemma ReplyIsExplained(w: World, st: State, message: Message, reply: string, summary: string)
    requires Books(w, st) && st.phase.Paused? && Presented(st, st.phase.gate) && Passed(w, st, st.phase.gate)
    ensures Explained(w, Continued(st, st.phase.gate, message, reply, summary), st.phase.gate)
  {
    hide Books, Says, PaysFor, Emitted, Decided, DraftReview, Canon, Freeze, Contains, Trimmed;
    var g := st.phase.gate;
    GateWaits(w, st);
    InputsReady(w, st, g);
    GateReplied(w, st, Continued(st, g, message, reply, summary), g, summary);
  }

  lemma GateReplied(w: World, st: State, st': State, g: Step, summary: string)
    requires IsGate(g) && g in st.shown && st.shown[g] == Preview(st.outputs, g) && Guard(w, st.outputs, g)
    requires Inputs(g) <= st.outputs.Keys && st'.outputs == st.outputs[g := summary]
    requires st'.shown == st.shown && g in st'.replies
    ensures Explained(w, st', g)
  {
    hide Says, PaysFor, Contains, AsksAgain, Snapshot, Get;
    Beside(st, g, summary, ScriptDraft);
    if g == RevisionGate { AskedBeside(st.outputs, summary); }
  }

  // The second gate's own output changes neither what it showed nor why it was due.
  lemma AskedBeside(o: map<Step, string>, summary: string)
    ensures AsksAgain(o[RevisionGate := summary]) == AsksAgain(o)
    ensures Snapshot(o[RevisionGate := summary]) == Snapshot(o)
  {
    hide Says;
    assert forall x :: x != RevisionGate ==> Get(o[RevisionGate := summary], x) == Get(o, x);
  }

  // The step whose output an event adds, if any.
  function Adds(st: State, e: Event): set<Step> {
    match e
    case Enter(s) => {s}
    case Return(s, _) => {s}
    case Settle(s) => if IsSubstitute(s) then {Shot(s.n, Video)} else {}
    case Resume(_, _) => if st.phase.Paused? then {st.phase.gate} else {}
    case _ => {}
  }

  lemma NothingElseAdded(w: World, st: State, e: Event)
    requires Books(w, st) && Enabled(w, st, e)
    ensures After(w, st, e).outputs.Keys <= st.outputs.Keys + Adds(st, e)
  {
    hide Books, AfterResume, Arrives, Delivered, Produces, Guard, GuardReads, Written, Preview, Deps;
    if e.Resume? { ResumeContinues(w, st, e.answer, e.summary); }
  }

  lemma AddedIsExplained(w: World, st: State, e: Event, s: Step)
    requires Consistent(w, st) && Enabled(w, st, e) && s in Adds(st, e) && s !in st.outputs
      && s in After(w, st, e).outputs
    ensures Explained(w, After(w, st, e), s)
  {
    hide Consistent, Explained, After, Enabled;
    match e {
      case Enter(_) => AddedOnEnter(w, st, s);
      case Return(_, out) => AddedOnReturn(w, st, s, out);
      case Settle(_) => VideoIsExplained(w, After(w, st, e), s);
      case Resume(answer, summary) => AddedOnResume(w, st, answer, summary);
    }
  }

  lemma AddedOnEnter(w: World, st: State, s: Step)
    requires Consistent(w, st) && Enabled(w, st, Enter(s)) && s !in st.outputs && s in After(w, st, Enter(s)).outputs
    ensures Explained(w, After(w, st, Enter(s)), s)
  {
    ConsistentAt(w, st, s);
    hide Consistent, Books, Passed, Presented, Explained, AfterEnter, GuardReads;
    EnteredWithOutput(w, st, s);
    SkippedIsExplained(w, st, s);
  }

  lemma AddedOnReturn(w: World, st: State, s: Step, out: string)
    requires Consistent(w, st) && Enabled(w, st, Return(s, out))
    ensures Explained(w, After(w, st, Return(s, out)), s)
  {
    ConsistentAt(w, st, s);
    hide Consistent, Books, Passed, Presented, Explained, Produces;
    ReturnedIsExplained(w, st, s, out);
  }

  lemma AddedOnResume(w: World, st: State, answer: Answer, summary: string)
    requires Consistent(w, st) && Enabled(w, st, Resume(answer, summary))
    ensures Explained(w, After(w, st, Resume(answer, summary)), st.phase.gate)
  {
    ConsistentAt(w, st, st.phase.gate);
    hide Consistent, Books, Passed, Presented, Explained, Arrives, Delivered, After, Continued;
    ReplyIsExplained(w, st, answer.message, Delivered(answer), summary);
    ResumedState(w, st, answer, summary);
  }

  lemma ResumedState(w: World, st: State, answer: Answer, summary: string)
    requires Books(w, st) && Enabled(w, st, Resume(answer, summary))
    ensures After(w, st, Resume(answer, summary))
      == Continued(st, st.phase.gate, answer.message, Delivered(answer), summary)
  {
    hide Books, Arrives, Delivered, Continued, AfterResume;
    ResumeContinues(w, st, answer, summary);
  }

  lemma ConsistentAt(w: World, st: State, s: Step)
    requires Consistent(w, st)
    ensures Books(w, st) && Presented(st, s) && Passed(w, st, s)
    ensures st.phase.Paused? ==> Presented(st, st.phase.gate) && Passed(w, st, st.phase.gate)
  {
    hide Books, Presented, Passed, Explained, Billed;
  }

  lemma EnteredWithOutput(w: World, st: State, s: Step)
    requires s !in st.outputs && s in AfterEnter(w, st, s).outputs
    ensures !Guard(w, st.outputs, s)
  {
    hide Guard;
  }

  lemma VideoIsExplained(w: World, st: State, s: Step)
    requires IsVideo(s)
    ensures Explained(w, st, s)
  {
  }

  lemma OutputsStayExplained(w: World, st: State, e: Event, s: Step)
    requires Consistent(w, st) && Enabled(w, st, e) && s in After(w, st, e).outputs
    ensures Explained(w, After(w, st, e), s)
  {
    NothingElseAdded(w, st, e);
    if s in st.outputs {
      EventGrows(w, st, e);
      StaysExplained(w, st, After(w, st, e), s);
    } else {
      AddedIsExplained(w, st, e, s);
    }
    hide Books, Explained, After, Enabled, Grows, Passed, Presented, Billed;
  }

  // What an event makes of the stages.
  function StagesAfter(w: World, st: State, e: Event): map<Step, Stage> {
    match e
    case Edit(_) => st.stage
    case Spawn(s) => st.stage[s := Spawned]
    case Enter(s) => st.stage[s := if Guard(w, st.outputs, s) then Entered else Returned]
    case Dispatch(s) => st.stage[s := Dispatched]
    case Return(s, _) => st.stage[s := Returned]
    case Settle(s) => st.stage[s := Settled]
    case Fail(s) => st.stage[s := Failed]
    case Resume(_, _) => if st.phase.Paused? then st.stage[st.phase.gate := Settled] else st.stage
  }

  lemma StagesMove(w: World, st: State, e: Event)
    requires Books(w, st) && Enabled(w, st, e)
    ensures After(w, st, e).stage == StagesAfter(w, st, e)
  {
    hide Books, AfterSettle, AfterFail, AfterResume, Arrives, Delivered, Produces, Guard, GuardReads, Written,
      Preview, Deps;
    match e {
      case Settle(s) => SettleMoves(st, s);
      case Fail(s) => FailMoves(st, s);
      case Resume(answer, summary) => ResumeContinues(w, st, answer, summary);
      case _ =>
    }
  }

  lemma StaysPassed(w: World, st: State, st': State, x: Step)
    requires GuardReads(x) <= st.outputs.Keys && Guard(w, st.outputs, x) && Grows(st, st')
    ensures GuardReads(x) <= st'.outputs.Keys && Guard(w, st'.outputs, x)
  {
    GuardKept(w, st.outputs, st'.outputs, x);
    hide Guard, GuardReads;
  }

  lemma PassedAfter(w: World, st: State, e: Event, x: Step)
    requires Books(w, st) && Passed(w, st, x) && Enabled(w, st, e)
    ensures Passed(w, After(w, st, e), x)
  {
    hide Books, Enabled, After, StagesAfter, Guard, GuardReads, Grows;
    EventGrows(w, st, e);
    StagesMove(w, st, e);
    if At(After(w, st, e), x, Entered) || At(After(w, st, e), x, Dispatched) {
      HasPassed(w, st, e, x);
      StaysPassed(w, st, After(w, st, e), x);
    }
  }

  lemma HasPassed(w: World, st: State, e: Event, x: Step)
    requires Passed(w, st, x) && Enabled(w, st, e)
    requires x in StagesAfter(w, st, e) && StagesAfter(w, st, e)[x] in {Entered, Dispatched}
    ensures GuardReads(x) <= st.outputs.Keys && Guard(w, st.outputs, x)
  {
    hide Produces, Guard, GuardReads, Deps;
  }

  lemma ShownAfter(w: World, st: State, e: Event)
    requires Books(w, st) && Enabled(w, st, e)
    ensures
      var st' := After(w, st, e);
      && st'.shown == (if e.Dispatch? && IsGate(e.s) then st.shown[e.s := Preview(st.outputs, e.s)] else st.shown)
      && st'.paid == (if e.Dispatch? && IsPaid(e.s) then st.paid + [Payment(e.s, Get(st.outputs, FinalScript))]
                      else st.paid)
      && (e.Dispatch? || e.Edit? ==> st'.outputs == st.outputs)
      && (e.Resume? ==> st.phase.gate in st'.outputs)
  {
    hide Books, AfterEnter, AfterSettle, AfterFail, AfterResume, Arrives, Delivered, Produces, GuardReads, Written,
      Preview, Deps;
    match e {
      case Enter(s) => EnterKeeps(w, st, s);
      case Settle(s) => SettleKeeps(st, s);
      case Fail(s) => FailKeeps(st, s);
      case Resume(answer, summary) => ResumeContinues(w, st, answer, summary);
      case _ =>
    }
  }

  predicate Quiet(st: State, st': State) {
    st'.shown == st.shown && st'.paid == st.paid && st'.messages == st.messages && st'.replies == st.replies
  }

  lemma EnterKeeps(w: World, st: State, s: Step)
    ensures Quiet(st, AfterEnter(w, st, s))
  {
    hide Guard;
  }

  lemma SettleKeeps(st: State, s: Step)
    ensures Quiet(st, AfterSettle(st, s))
  {
  }

  lemma FailKeeps(st: State, s: Step)
    ensures Quiet(st, AfterFail(st, s))
  {
  }

  lemma RepliesAfter(w: World, st: State, e: Event)
    requires Books(w, st) && Enabled(w, st, e)
    ensures
      var st' := After(w, st, e);
      if e.Resume? then
        && st'.messages == st.messages[st.phase.gate := e.answer.message]
        && st'.replies == st.replies[st.phase.gate := Delivered(e.answer)]
      else st'.messages == st.messages && st'.replies == st.replies
  {
    hide Books, AfterEnter, AfterSettle, AfterFail, AfterResume, Arrives, Delivered, Produces, GuardReads, Written,
      Preview, Deps;
    match e {
      case Enter(s) => EnterKeeps(w, st, s);
      case Settle(s) => SettleKeeps(st, s);
      case Fail(s) => FailKeeps(st, s);
      case Resume(answer, summary) => ResumeContinues(w, st, answer, summary);
      case _ =>
    }
  }

  lemma ShownIsPresented(w: World, st: State, e: Event, g: Step)
    requires Books(w, st) && Presented(st, g) && Enabled(w, st, e)
    ensures
      var st' := After(w, st, e);
      g in st'.shown ==> IsGate(g) && (At(st', g, Dispatched) || At(st', g, Settled))
  {
    hide Books, After, Produces, Guard, GuardReads, Deps, Preview;
    ShownAfter(w, st, e);
    StagesMove(w, st, e);
    if IsGate(g) && At(st, g, Dispatched) { GatesWait(w, st, e, g); }
    StartsOnce(w, st, g);
  }

  lemma WaitingIsPresented(w: World, st: State, e: Event, g: Step)
    requires Books(w, st) && Presented(st, g) && Enabled(w, st, e) && IsGate(g) && At(After(w, st, e), g, Dispatched)
    ensures g in After(w, st, e).shown && After(w, st, e).shown[g] == Preview(After(w, st, e).outputs, g)
  {
    hide Books, After, Produces, Guard, GuardReads, Deps, Preview;
    ShownAfter(w, st, e);
    StagesMove(w, st, e);
    if At(st, g, Dispatched) { GatesWait(w, st, e, g); }
  }

  lemma RepliesArePresented(w: World, st: State, e: Event, g: Step)
    requires Books(w, st) && Presented(st, g) && Enabled(w, st, e) && g in After(w, st, e).replies
    ensures g in After(w, st, e).outputs && RepliedAsRead(After(w, st, e), g)
  {
    hide Books, After, Enabled, Read, Delivered, Arrives, LeavesOpen;
    RepliesAfter(w, st, e);
    RepliesKeepOutputs(w, st, e, g);
    ShownAfter(w, st, e);
    if e.Resume? { DeliveredIsRead(w, st, e); }
  }

  lemma PresentedAfter(w: World, st: State, e: Event, g: Step)
    requires Books(w, st) && Presented(st, g) && Enabled(w, st, e)
    ensures Presented(After(w, st, e), g)
  {
    hide Books, After, Enabled, Preview, RepliedAsRead, Arrives, Delivered;
    ShownIsPresented(w, st, e, g);
    if IsGate(g) && At(After(w, st, e), g, Dispatched) { WaitingIsPresented(w, st, e, g); }
    if g in After(w, st, e).replies { RepliesArePresented(w, st, e, g); }
  }

  lemma DeliveredIsRead(w: World, st: State, e: Event)
    requires Enabled(w, st, e) && e.Resume?
    ensures Arrives(e.answer) && st.phase.Paused?
    ensures LeavesOpen(e.answer.message) || Read(e.answer.message) == Given(Delivered(e.answer))
  {
    hide Read, Cancels, Delegated;
  }

  // A step that has started does not start again.
  lemma StartsOnce(w: World, st: State, s: Step)
    requires Books(w, st)
    ensures s in st.stage ==> s !in st.unstarted
  {
    if s in st.stage { StartedIsTimely(w, st, s); }
    hide Books;
  }

  lemma RepliesKeepOutputs(w: World, st: State, e: Event, g: Step)
    requires Books(w, st) && Enabled(w, st, e)
    ensures g in st.outputs ==> g in After(w, st, e).outputs
  {
    EventGrows(w, st, e);
    hide Books, Enabled, After;
  }

  // While a gate waits only the file and the reply can change anything.
  lemma GatesWait(w: World, st: State, e: Event, g: Step)
    requires Books(w, st) && Enabled(w, st, e) && IsGate(g) && At(st, g, Dispatched)
    ensures e.Edit? || (e.Resume? && st.phase == Paused(g))
  {
    hide Produces, GuardReads, Deps;
    StartedIsTimely(w, st, g);
    hide Books, Booked;
  }

  lemma StaysCharged(w: World, st: State, e: Event, p: Payment)
    requires Books(w, st) && Enabled(w, st, e) && Charged(w, st, p)
    ensures Charged(w, After(w, st, e), p)
  {
    hide Books, After, Produces, Guard, GuardReads, Deps, Grows, PaysFor;
    EventGrows(w, st, e);
    StagesMove(w, st, e);
    StartsOnce(w, st, p.step);
    PaidGuard(w, st.outputs, p.step);
    PaidGuard(w, After(w, st, e).outputs, p.step);
    StaysPassed(w, st, After(w, st, e), p.step);
    GetKept(st, After(w, st, e), FinalScript);
  }

  lemma PaidGuard(w: World, o: map<Step, string>, s: Step)
    requires IsPaid(s)
    ensures Guard(w, o, s) == PaysFor(w, o, s) && FinalScript in GuardReads(s) && ReviewNormalize in GuardReads(s)
  {
  }

  lemma NewCharge(w: World, st: State, s: Step)
    requires Passed(w, st, s) && At(st, s, Entered) && IsPaid(s)
    ensures Charged(w, AfterDispatch(st, s), Payment(s, Get(st.outputs, FinalScript)))
  {
    hide PaysFor, Guard, GuardReads, Written;
    PaidGuard(w, st.outputs, s);
  }

  lemma BilledAfter(w: World, st: State, e: Event)
    requires Consistent(w, st) && Enabled(w, st, e)
    ensures Billed(w, After(w, st, e))
  {
    hide Explained, Books, Presented, After, Produces, GuardReads, Deps, Preview, PaysFor, Guard;
    var st' := After(w, st, e);
    ShownAfter(w, st, e);
    forall i | 0 <= i < |st.paid| ensures Charged(w, st', st.paid[i]) { StaysCharged(w, st, e, st.paid[i]); }
    if e.Dispatch? && IsPaid(e.s) {
      assert Passed(w, st, e.s);
      NewCharge(w, st, e.s);
      DispatchedState(w, st, e.s);
      forall i | 0 <= i < |st.paid| ensures st.paid[i].step != e.s { assert Charged(w, st, st.paid[i]); }
    }
  }

  lemma DispatchedState(w: World, st: State, s: Step)
    requires Enabled(w, st, Dispatch(s))
    ensures After(w, st, Dispatch(s)) == AfterDispatch(st, s)
  {
    hide AfterDispatch;
  }

  // Consistency is kept by every event.
  lemma StaysConsistent(w: World, st: State, e: Event)
    requires Consistent(w, st) && Enabled(w, st, e)
    ensures Consistent(w, After(w, st, e))
  {
    hide Explained, Passed, Presented, Billed, Books, After, Enabled;
    var st' := After(w, st, e);
    BooksStayInOrder(w, st, e);
    forall s | s in st'.outputs ensures Explained(w, st', s) { OutputsStayExplained(w, st, e, s); }
    forall s ensures Passed(w, st', s) { PassedAfter(w, st, e, s); }
    forall g ensures Presented(st', g) { PresentedAfter(w, st, e, g); }
    BilledAfter(w, st, e);
  }

  lemma StartsConsistent(w: World, file: string)
    ensures Consistent(w, Initial(w, file))
  {
    InitialBooks(w, file);
    hide Books, AllSteps, AllShots, Explained, PaysFor, Guard, GuardReads;
  }
}
