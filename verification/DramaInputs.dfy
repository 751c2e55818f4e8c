// What a step finds when it starts: its condition, the outputs its templates name, and the
// files that other steps made for it.
module DramaInputs {
  import opened Texts
  import opened ReviewNormalizer
  import opened DramaGraph
  import opened DramaScheduler
  import opened DramaBooks
  import opened DramaConsent

  // The outputs that the step's condition and arguments name.
  function TemplateReads(s: Step): set<Step> {
    match s
    case ScriptDraft => {IntakeExtract}
    case ScriptSaveDraft => {ScriptDraft}
    case ReviewGate => {IntakeExtract, ScriptDraft}
    case ScriptRevised => {ReviewIntent, ScriptReread}
    case RevisionGate => {ReviewIntent, ScriptDraft, ScriptReread, ScriptRevised}
    case ReviewNormalize => {ScriptDraft, ScriptReread}
    case ScriptSave => {ScriptReread, ScriptRevised}
    case FinalScript => {ReviewNormalize, ScriptReread, ScriptRevised}
    case TitleExtract | SubtitleExtract | EndingTextExtract | ReferencePromptExtract => {FinalScript, ReviewNormalize}
    case ReferenceImage => {FinalScript, ReferencePromptExtract, ReviewNormalize}
    case CoverImage => {ReviewNormalize, SubtitleExtract, TitleExtract}
    case EndingImage => {EndingTextExtract, ReviewNormalize}
    case CoverVideo | EndingVideo | Merge | SubtitledFinal | DeliveryAudit => {ReviewNormalize}
    case SubtitlesSrt => {FinalScript, ReviewNormalize}
    case PublishFinalVideo => {DeliveryAudit, ReviewNormalize}
    case Deliver =>
      {DeliveryAudit, FinalScript, Merge, PublishFinalVideo, PublishScript, ReviewNormalize, ScriptSave, SubtitledFinal}
    case Shot(n, part) => (
      match part
      case ImagePrompt => {FinalScript, ReviewNormalize}
      case VideoPrompt => {FinalScript, ReviewNormalize}
      case Image => {FinalScript, ReviewNormalize, Shot(n, ImagePrompt)}
      case Video => {FinalScript, ReviewNormalize, Shot(n, VideoPrompt)}
      case Fallback => {FinalScript})
    case _ => {}
  }

  // The steps that make the files it takes.
  function FilesFrom(shots: nat, s: Step): set<Step> {
    match s
    case ScriptReread => {ScriptSaveDraft}
    case CoverVideo => {CoverImage}
    case EndingVideo => {EndingImage}
    case Shot(n, part) => (
      match part
      case Video => {ReferenceImage, Shot(n, Image)}
      case Fallback => {Shot(n, Image)}
      case _ => {})
    case Merge => {CoverVideo, EndingVideo} + AllShots(shots, Video)
    case SubtitledFinal => {Merge, SubtitlesSrt}
    case DeliveryAudit => {ReferenceImage, SubtitledFinal} + AllShots(shots, Image) + AllShots(shots, Video)
    case PublishFinalVideo => {SubtitledFinal}
    case PublishScript => {ScriptSave}
    case _ => {}
  }

  // ---------------------------------------------------------------- conditions

  predicate Approved(o: map<Step, string>) { Contains(Get(o, ReviewNormalize), "DECISION: proceed") }

  predicate HasHeader(o: map<Step, string>, n: int) {
    n >= 0 && "=== SHOT_" + Digits(n) + " ===" in Lines(Get(o, FinalScript))
  }

  // The steps' conditions, as the workflow states them.
  predicate When(w: World, o: map<Step, string>, s: Step) {
    match s
    case ScriptRevised =>
      Contains(Get(o, ReviewIntent), "DECISION: revise") && Contains(Get(o, ReviewIntent), "HAS_OVERRIDES: yes")
    case RevisionGate =>
      || Contains(Get(o, ReviewIntent), "DECISION: revise")
      || (Contains(Get(o, ReviewIntent), "DECISION: proceed") && Get(o, ScriptReread) != Get(o, ScriptDraft))
    case TitleExtract | SubtitleExtract | EndingTextExtract | ReferencePromptExtract => Approved(o)
    case CoverImage | CoverVideo | EndingImage | EndingVideo => Approved(o)
    case Merge | SubtitlesSrt | SubtitledFinal | DeliveryAudit => Approved(o)
    case ReferenceImage => Approved(o) && w.durationOk(Get(o, FinalScript))
    case Shot(n, part) => (
      match part
      case ImagePrompt => Approved(o) && HasHeader(o, n)
      case VideoPrompt => Approved(o) && HasHeader(o, n)
      case Image =>
        && Approved(o) && w.durationOk(Get(o, FinalScript)) && HasHeader(o, n)
        && !Contains(Get(o, Shot(n, ImagePrompt)), "__SHOT_ABSENT__")
      case Video =>
        && Approved(o) && w.durationOk(Get(o, FinalScript)) && HasHeader(o, n)
        && !Contains(Get(o, Shot(n, VideoPrompt)), "__SHOT_ABSENT__")
      case Fallback => true)
    case PublishFinalVideo => Approved(o) && !Contains(Get(o, DeliveryAudit), "\"status\": \"blocked\"")
    case _ => true
  }

  lemma MarkersAre()
    ensures Marker(Proceed) == "DECISION: proceed" && Marker(Revise) == "DECISION: revise"
  {
  }

  lemma GuardIsWhen(w: World, o: map<Step, string>, s: Step)
    ensures Guard(w, o, s) <==> When(w, o, s)
  {
    MarkersAre();
    hide Contains, Marker, Lines, Digits, Get;
  }

  // A step that is dispatched meets its condition, in the state it is dispatched in and
  // as long as it runs.
  lemma StepsRunUnderTheirConditions(w: World, st: State, s: Step)
    requires Consistent(w, st) && (At(st, s, Entered) || At(st, s, Dispatched))
    ensures When(w, st.outputs, s)
  {
    hide Consistent, Books, Presented, Guard, When, GuardReads;
    GuardIsWhen(w, st.outputs, s);
    ConsistentAt(w, st, s);
  }

  // One that does not meet it when it gets to run is skipped, with an empty output; any
  // other goes on.
  lemma EnteringDecides(w: World, st: State, s: Step)
    requires Enabled(w, st, Enter(s))
    ensures
      var st' := After(w, st, Enter(s));
      if When(w, st.outputs, s) then At(st', s, Entered) && st'.outputs == st.outputs
      else At(st', s, Returned) && st'.outputs == st.outputs[s := ""]
  {
    hide Guard, When, GuardReads, Deps, Produces;
    GuardIsWhen(w, st.outputs, s);
  }

  // ---------------------------------------------------------------- one dependency back

  lemma DependencyIsDone(w: World, st: State, s: Step, d: Step)
    requires Books(w, st) && s in st.stage && d in Deps(w.shots, s)
    ensures d in st.resolved && Known(w.shots, d)
    ensures !IsSubstitute(d) ==> d in st.stage && d in st.outputs
  {
    StartedIsTimely(w, st, s);
    DependenciesComeBefore(w.shots, s, d);
    assert Booked(st, d);
    hide Books, Deps;
  }

  // A substitute starts only after its video step has failed.
  lemma SubstituteIsAfterVideo(w: World, st: State, n: int)
    requires Books(w, st) && Shot(n, Fallback) in st.stage
    ensures Shot(n, Video) in st.stage
  {
    StartedIsTimely(w, st, Shot(n, Fallback));
    assert Known(w.shots, Shot(n, Video));
    assert Booked(st, Shot(n, Video));
    hide Books, Deps;
  }

  // What stands one dependency behind a dependency.
  lemma BehindDependency(w: World, st: State, s: Step, d: Step, e: Step)
    requires Books(w, st) && s in st.stage && d in Deps(w.shots, s) && !IsSubstitute(d) && e in Deps(w.shots, d)
    ensures d in st.stage && e in st.resolved && (!IsSubstitute(e) ==> e in st.stage && e in st.outputs)
  {
    hide Books, Deps;
    DependencyIsDone(w, st, s, d);
    DependencyIsDone(w, st, d, e);
  }

  // ---------------------------------------------------------------- templates

  // The step that waits for an output which another step reads: itself, or a dependency.
  function Waiting(s: Step, d: Step): Step {
    if s == ReviewNormalize then RevisionGate
    else if s == FinalScript && d != ReviewNormalize then ScriptSave
    else if s == ReferenceImage && d == FinalScript then ReferencePromptExtract
    else if s.Shot? && s.part == Image && d == FinalScript then Shot(s.n, ImagePrompt)
    else if s.Shot? && s.part == Video && d == FinalScript then Shot(s.n, VideoPrompt)
    else s
  }

  predicate IsAwaited(shots: nat, s: Step, d: Step) {
    var v := Waiting(s, d);
    && !IsSubstitute(d) && d in Deps(shots, v)
    && (v == s || (v in Deps(shots, s) && !IsSubstitute(v)))
  }

  lemma ShotReadsAreAwaited(shots: nat, s: Step, d: Step)
    requires s.Shot? && s.part != Fallback && d in TemplateReads(s)
    ensures IsAwaited(shots, s, d)
  {
  }

  lemma ScriptReadsAreAwaited(shots: nat, s: Step, d: Step)
    requires s in {ReviewNormalize, FinalScript, ReferenceImage} && d in TemplateReads(s)
    ensures IsAwaited(shots, s, d)
  {
  }

  lemma DeliverReadsAreAwaited(shots: nat, d: Step)
    requires d in TemplateReads(Deliver)
    ensures IsAwaited(shots, Deliver, d)
  {
  }

  predicate IsEarly(s: Step) {
    s in {ScriptDraft, ScriptSaveDraft, ReviewGate, ScriptRevised, RevisionGate, ScriptSave}
  }

  lemma EarlyReadsAreAwaited(shots: nat, s: Step, d: Step)
    requires IsEarly(s) && d in TemplateReads(s)
    ensures IsAwaited(shots, s, d)
  {
  }

  lemma MediaReadsAreAwaited(shots: nat, s: Step, d: Step)
    requires !s.Shot? && !IsEarly(s) && s !in {ReviewNormalize, FinalScript, ReferenceImage, Deliver}
    requires d in TemplateReads(s)
    ensures IsAwaited(shots, s, d)
  {
  }

  lemma ReadsAreAwaited(shots: nat, s: Step, d: Step)
    requires d in TemplateReads(s) && !IsSubstitute(s)
    ensures IsAwaited(shots, s, d)
  {
    hide TemplateReads, IsAwaited, IsEarly;
    if s.Shot? { ShotReadsAreAwaited(shots, s, d); }
    else if s in {ReviewNormalize, FinalScript, ReferenceImage} { ScriptReadsAreAwaited(shots, s, d); }
    else if s == Deliver { DeliverReadsAreAwaited(shots, d); }
    else if IsEarly(s) { EarlyReadsAreAwaited(shots, s, d); }
    else { MediaReadsAreAwaited(shots, s, d); }
  }

  // Every output that a step's condition or arguments name is there when it starts.
  lemma TemplatesAreFilled(w: World, st: State, s: Step)
    requires Books(w, st) && s in st.stage
    ensures TemplateReads(s) <= st.outputs.Keys
  {
    if IsSubstitute(s) {
      SubstituteIsAfterVideo(w, st, s.n);
      BehindDependency(w, st, Shot(s.n, Video), Shot(s.n, VideoPrompt), FinalScript);
    } else {
      hide Books, Deps, TemplateReads, Waiting;
      forall d | d in TemplateReads(s) ensures d in st.outputs {
        ReadsAreAwaited(w.shots, s, d);
        if Waiting(s, d) == s { DependencyIsDone(w, st, s, d); } else { BehindDependency(w, st, s, Waiting(s, d), d); }
      }
    }
  }

  // ---------------------------------------------------------------- files

  // And every step whose file it takes is done, or another is in its place.
  lemma FilesAreMade(w: World, st: State, s: Step)
    requires Books(w, st) && s in st.stage
    ensures FilesFrom(w.shots, s) <= st.resolved
  {
    hide Books;
    forall d | d in FilesFrom(w.shots, s) && d in Deps(w.shots, s) ensures d in st.resolved {
      DependencyIsDone(w, st, s, d);
    }
    if IsSubstitute(s) {
      SubstituteIsAfterVideo(w, st, s.n);
      DependencyIsDone(w, st, Shot(s.n, Video), Shot(s.n, Image));
    }
  }

  // ---------------------------------------------------------------- the last step

  // What everything but the last step leads to.
  function TowardsDeliver(s: Step): Step
    requires s != Deliver
  {
    match s
    case IntakeExtract => ScriptDraft
    case ScriptDraft => ScriptSaveDraft
    case ScriptSaveDraft => ReviewGate
    case ReviewGate => ReviewIntent
    case ReviewIntent => ReviewNormalize
    case ScriptReread => ScriptSave
    case ScriptRevised => ScriptSave
    case RevisionGate => ReviewNormalize
    case TitleExtract => CoverImage
    case SubtitleExtract => CoverImage
    case EndingTextExtract => EndingImage
    case ReferencePromptExtract => ReferenceImage
    case ReferenceImage => DeliveryAudit
    case CoverImage => CoverVideo
    case CoverVideo => Merge
    case EndingImage => EndingVideo
    case EndingVideo => Merge
    case Shot(n, part) => (
      match part
      case ImagePrompt => Shot(n, Image)
      case VideoPrompt => Shot(n, Video)
      case _ => DeliveryAudit)
    case _ => Deliver
  }

  // When the last step starts, nothing else is open.
  lemma {:induction false} DeliverIsLast(w: World, st: State, s: Step)
    requires Books(w, st) && Deliver in st.stage && Known(w.shots, s) && s != Deliver
    ensures s in st.resolved && (!IsSubstitute(s) ==> s in st.stage)
    decreases Rank(Deliver) - Rank(s)
  {
    hide Books;
    var next := TowardsDeliver(s);
    LeadsOn(w.shots, s);
    if next != Deliver { DeliverIsLast(w, st, next); }
    DependencyIsDone(w, st, next, s);
    hide Deps;
  }

  lemma LeadsOn(shots: nat, s: Step)
    requires Known(shots, s) && s != Deliver
    ensures
      var next := TowardsDeliver(s);
      Known(shots, next) && s in Deps(shots, next) && !IsSubstitute(next) && Rank(s) < Rank(next) <= Rank(Deliver)
  {
  }
}
