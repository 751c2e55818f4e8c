// The step graph of the short-drama workflow, for any number of shot slots.
module DramaGraph {
  datatype ShotPart = ImagePrompt | VideoPrompt | Image | Video | Fallback

  datatype Step =
    | IntakeExtract | ScriptDraft | ScriptSaveDraft | ReviewGate | ReviewIntent | ScriptReread
    | ScriptRevised | RevisionGate | ReviewNormalize | ScriptSave | FinalScript
    | TitleExtract | SubtitleExtract | EndingTextExtract | ReferencePromptExtract | ReferenceImage
    | CoverImage | CoverVideo | Shot(n: int, part: ShotPart) | EndingImage | EndingVideo
    | Merge | SubtitlesSrt | SubtitledFinal | DeliveryAudit | PublishFinalVideo | PublishScript | Deliver

  predicate Known(shots: nat, s: Step) { s.Shot? ==> 1 <= s.n <= shots }

  predicate IsGate(s: Step) { s == ReviewGate || s == RevisionGate }

  predicate IsVideo(s: Step) { s.Shot? && s.part == Video }

  // A step that only runs in place of another that failed.
  predicate IsSubstitute(s: Step) { s.Shot? && s.part == Fallback }

  // side_effect: external_paid_submit
  predicate IsPaid(s: Step) { s == ReferenceImage || (s.Shot? && (s.part == Image || s.part == Video)) }

  function AllShots(shots: nat, part: ShotPart): set<Step> {
    set n | 1 <= n <= shots :: Shot(n, part)
  }

  function Deps(shots: nat, s: Step): set<Step> {
    match s
    case IntakeExtract => {}
    case ScriptDraft => {IntakeExtract}
    case ScriptSaveDraft => {ScriptDraft}
    case ReviewGate => {ScriptSaveDraft, ScriptDraft, IntakeExtract}
    case ReviewIntent => {ReviewGate}
    case ScriptReread => {ReviewGate, ScriptSaveDraft}
    case ScriptRevised => {ReviewIntent, ScriptReread}
    case RevisionGate => {ReviewIntent, ScriptDraft, ScriptReread, ScriptRevised}
    case ReviewNormalize => {ReviewIntent, RevisionGate}
    case ScriptSave => {ReviewNormalize, ScriptReread, ScriptRevised}
    case FinalScript => {ScriptSave, ReviewNormalize}
    case TitleExtract => {FinalScript, ReviewNormalize}
    case SubtitleExtract => {FinalScript, ReviewNormalize}
    case EndingTextExtract => {FinalScript, ReviewNormalize}
    case ReferencePromptExtract => {FinalScript, ReviewNormalize}
    case ReferenceImage => {ReferencePromptExtract, ReviewNormalize}
    case CoverImage => {TitleExtract, SubtitleExtract, ReviewNormalize}
    case CoverVideo => {CoverImage, ReviewNormalize}
    case Shot(n, part) => (
      match part
      case ImagePrompt => {FinalScript, ReviewNormalize}
      case VideoPrompt => {FinalScript, ReviewNormalize}
      case Image => {Shot(n, ImagePrompt), ReviewNormalize}
      case Video => {Shot(n, VideoPrompt), ReferenceImage, Shot(n, Image), ReviewNormalize}
      case Fallback => {})
    case EndingImage => {EndingTextExtract, ReviewNormalize}
    case EndingVideo => {EndingImage, ReviewNormalize}
    case Merge => {CoverVideo, EndingVideo, ReviewNormalize} + AllShots(shots, Video)
    case SubtitlesSrt => {FinalScript, ReviewNormalize}
    case SubtitledFinal => {Merge, SubtitlesSrt, ReviewNormalize}
    case DeliveryAudit =>
      {FinalScript, ReferenceImage, SubtitledFinal, ReviewNormalize}
      + AllShots(shots, Image) + AllShots(shots, Video) + AllShots(shots, Fallback)
    case PublishFinalVideo => {SubtitledFinal, DeliveryAudit, ReviewNormalize}
    case PublishScript => {ScriptSave}
    case Deliver =>
      {FinalScript, ReviewNormalize, ScriptSave, Merge, SubtitlesSrt, SubtitledFinal, DeliveryAudit,
       PublishFinalVideo, PublishScript}
  }

  function Rank(s: Step): nat {
    match s
    case IntakeExtract => 0
    case ScriptDraft => 1
    case ScriptSaveDraft => 2
    case ReviewGate => 3
    case ReviewIntent => 4
    case ScriptReread => 4
    case ScriptRevised => 5
    case RevisionGate => 6
    case ReviewNormalize => 7
    case ScriptSave => 8
    case FinalScript => 9
    case TitleExtract => 10
    case SubtitleExtract => 10
    case EndingTextExtract => 10
    case ReferencePromptExtract => 10
    case ReferenceImage => 11
    case CoverImage => 11
    case CoverVideo => 12
    case Shot(n, part) => (
      match part
      case ImagePrompt => 10
      case VideoPrompt => 10
      case Image => 11
      case Video => 12
      case Fallback => 13)
    case EndingImage => 11
    case EndingVideo => 12
    case Merge => 13
    case SubtitlesSrt => 10
    case SubtitledFinal => 14
    case DeliveryAudit => 15
    case PublishFinalVideo => 16
    case PublishScript => 9
    case Deliver => 17
  }

  // Every dependency is a step of the plan that comes before; so is the step that a
  // substitute stands in for.
  lemma DependenciesComeBefore(shots: nat, s: Step, d: Step)
    requires Known(shots, s) && d in Deps(shots, s)
    ensures Known(shots, d) && Rank(d) < Rank(s)
  {
  }

  // What comes before a gate.
  function Before(g: Step): set<Step>
    requires IsGate(g)
  {
    var start := {IntakeExtract, ScriptDraft, ScriptSaveDraft};
    if g == ReviewGate then start else start + {ReviewGate, ReviewIntent, ScriptReread, ScriptRevised}
  }

  // Every other step waits, through some dependency, for the gate.
  function TowardsGate(g: Step, s: Step): (d: Step)
    requires IsGate(g) && s != g && s !in Before(g) && !IsSubstitute(s)
    ensures forall shots :: d in Deps(shots, s)
    ensures d == g || (d !in Before(g) && !IsSubstitute(d) && Rank(d) < Rank(s))
  {
    match s
    case ReviewIntent => ReviewGate
    case ScriptReread => ReviewGate
    case ScriptRevised => ReviewIntent
    case RevisionGate => ReviewIntent
    case ReviewNormalize => RevisionGate
    case PublishScript => ScriptSave
    case _ => ReviewNormalize
  }

  // ---------------------------------------------------------------- listing the steps

  function ShotSteps(shots: nat): seq<Step> {
    if shots == 0 then [] else ShotSteps(shots - 1) + OneShot(shots)
  }

  function OneShot(n: int): seq<Step> {
    [Shot(n, ImagePrompt), Shot(n, VideoPrompt), Shot(n, Image), Shot(n, Video), Shot(n, Fallback)]
  }

  const FIXED_STEPS: seq<Step> := [
    IntakeExtract, ScriptDraft, ScriptSaveDraft, ReviewGate, ReviewIntent, ScriptReread, ScriptRevised,
    RevisionGate, ReviewNormalize, ScriptSave, FinalScript, TitleExtract, SubtitleExtract,
    EndingTextExtract, ReferencePromptExtract, ReferenceImage, CoverImage, CoverVideo, EndingImage,
    EndingVideo, Merge, SubtitlesSrt, SubtitledFinal, DeliveryAudit, PublishFinalVideo, PublishScript, Deliver]

  function Plan(shots: nat): seq<Step> { FIXED_STEPS + ShotSteps(shots) }

  lemma OneShotIs(n: int, s: Step)
    ensures s in OneShot(n) <==> s.Shot? && s.n == n
  {
    if s.Shot? {
      match s.part {
        case ImagePrompt => assert OneShot(n)[0] == Shot(n, ImagePrompt);
        case VideoPrompt => assert OneShot(n)[1] == Shot(n, VideoPrompt);
        case Image => assert OneShot(n)[2] == Shot(n, Image);
        case Video => assert OneShot(n)[3] == Shot(n, Video);
        case Fallback => assert OneShot(n)[4] == Shot(n, Fallback);
      }
    }
  }

  lemma {:induction false} ShotStepsAre(shots: nat, s: Step)
    ensures s in ShotSteps(shots) <==> s.Shot? && 1 <= s.n <= shots
    ensures |ShotSteps(shots)| == 5 * shots
  {
    if shots > 0 {
      ShotStepsAre(shots - 1, s);
      OneShotIs(shots, s);
    }
  }

  lemma PlanIsKnown(shots: nat, s: Step)
    ensures s in Plan(shots) <==> Known(shots, s)
    ensures |Plan(shots)| == 27 + 5 * shots
  {
    ShotStepsAre(shots, s);
    assert !s.Shot? ==> s in FIXED_STEPS;
  }
}
