// How the MetaSkill scheduler runs the short-drama graph: steps are spawned when their
// dependencies are resolved, guards are evaluated when a step gets to run, gates end
// the run until a reply resumes it from the outputs so far. Any task may be at any
// point while others move, and script.txt may be edited at any moment. What comes back
// for a gate is parsed, and filled in by a model where it says nothing, before the run
// goes on.
module DramaScheduler {
  import opened Texts
  import opened ReviewNormalizer
  import opened DramaGraph
  import opened ClarifyForm

  // How many shot slots the plan declares, how the normalizer reads replies, and which
  // scripts meet the duration contract.
  datatype World = World(shots: nat, reader: Reader, durationOk: string -> bool)

  datatype Stage = Spawned | Entered | Dispatched | Returned | Settled | Failed

  datatype Phase = Active | Paused(gate: Step) | Ended

  datatype Payment = Payment(step: Step, script: string)

  // resolved is what has been taken out of every pending dependency set; shown is what
  // each gate presented, messages what came back for it, replies what the
  // workflow got to read of that.
  datatype State = State(
    stage: map<Step, Stage>,
    unstarted: set<Step>,
    parked: set<Step>,
    resolved: set<Step>,
    outputs: map<Step, string>,
    shown: map<Step, string>,
    messages: map<Step, Message>,
    replies: map<Step, string>,
    file: string,
    paid: seq<Payment>,
    phase: Phase)

  function AllSteps(shots: nat): set<Step> {
    set s | s in Plan(shots)
  }

  function Initial(w: World, file: string): State {
    State(map[], AllSteps(w.shots) - AllShots(w.shots, Fallback), AllShots(w.shots, Fallback),
          {}, map[], map[], map[], map[], file, [], Active)
  }

  // ---------------------------------------------------------------- templates and guards

  function Get(o: map<Step, string>, s: Step): string { if s in o then o[s] else "" }

  // outputs.get('script_revised', '') or outputs.script_reread
  function Snapshot(o: map<Step, string>): string {
    if Get(o, ScriptRevised) != "" then Get(o, ScriptRevised) else Get(o, ScriptReread)
  }

  predicate Changed(o: map<Step, string>) { Get(o, ScriptReread) != Get(o, ScriptDraft) }

  predicate Proceeds(o: map<Step, string>) { Says(Get(o, ReviewNormalize), Proceed) }

  predicate Revises(o: map<Step, string>) {
    Says(Get(o, ReviewIntent), Revise) && Contains(Get(o, ReviewIntent), "HAS_OVERRIDES: yes")
  }

  predicate AsksAgain(o: map<Step, string>) {
    Says(Get(o, ReviewIntent), Revise) || (Says(Get(o, ReviewIntent), Proceed) && Changed(o))
  }

  predicate HasShot(script: string, n: int) {
    n >= 0 && "=== SHOT_" + Digits(n) + " ===" in Lines(script)
  }

  predicate PaysFor(w: World, o: map<Step, string>, s: Step)
    requires IsPaid(s)
  {
    && Proceeds(o)
    && w.durationOk(Get(o, FinalScript))
    && (s.Shot? ==> HasShot(Get(o, FinalScript), s.n))
    && (s.Shot? ==>
          !Contains(Get(o, Shot(s.n, if s.part == Image then ImagePrompt else VideoPrompt)), "__SHOT_ABSENT__"))
  }

  predicate Unguarded(s: Step) {
    || s in {IntakeExtract, ScriptDraft, ScriptSaveDraft, ReviewGate, ReviewIntent, ScriptReread}
    || s in {ReviewNormalize, ScriptSave, FinalScript, PublishScript, Deliver}
    || IsSubstitute(s)
  }

  // The step's when expression.
  predicate Guard(w: World, o: map<Step, string>, s: Step) {
    if Unguarded(s) then true
    else if s == ScriptRevised then Revises(o)
    else if s == RevisionGate then AsksAgain(o)
    else if IsPaid(s) then PaysFor(w, o, s)
    else if s.Shot? then Proceeds(o) && HasShot(Get(o, FinalScript), s.n)
    else if s == PublishFinalVideo then
      Proceeds(o) && !Contains(Get(o, DeliveryAudit), "\"status\": \"blocked\"")
    else Proceeds(o)
  }

  // The outputs a when expression names; a missing one is an error, not an empty text.
  function GuardReads(s: Step): set<Step> {
    if Unguarded(s) then {}
    else if s == ScriptRevised then {ReviewIntent}
    else if s == RevisionGate then {ReviewIntent, ScriptReread, ScriptDraft}
    else if s == ReferenceImage then {ReviewNormalize, FinalScript}
    else if IsPaid(s) then
      {ReviewNormalize, FinalScript, Shot(s.n, if s.part == Image then ImagePrompt else VideoPrompt)}
    else if s.Shot? then {ReviewNormalize, FinalScript}
    else if s == PublishFinalVideo then {ReviewNormalize, DeliveryAudit}
    else {ReviewNormalize}
  }

  // What a gate shows for approval.
  function Preview(o: map<Step, string>, g: Step): string {
    if g == ReviewGate then Get(o, ScriptDraft) else Snapshot(o)
  }

  function Reply(st: State, g: Step): string { if g in st.replies then st.replies[g] else "" }

  function Decided(w: World, st: State): Block {
    MediaApproval(w.reader, Reply(st, ReviewGate), Reply(st, RevisionGate), Changed(st.outputs))
  }

  // What a dispatched step may return. Agent output is stripped and never
  // empty; a skill's output is made canonical; what the language models write is theirs
  // to choose.
  predicate Produces(w: World, st: State, s: Step, out: string) {
    if s == ScriptDraft || s == ScriptRevised then Strip(out) == out && out != ""
    else if s == ScriptReread then out == Canon(st.file)
    else if s == ReviewIntent then out == Emitted(DraftReview(w.reader, Reply(st, ReviewGate)))
    else if s == ReviewNormalize then out == Emitted(Decided(w, st))
    else if s == FinalScript then
      var f := Freeze(Get(st.outputs, ReviewNormalize), Snapshot(st.outputs));
      f.Script? && out == Canon(f.text + "\n")
    else true
  }

  // ---------------------------------------------------------------- events

  datatype Event =
    | Edit(text: string)
    | Spawn(s: Step)
    | Enter(s: Step)
    | Dispatch(s: Step)
    | Return(s: Step, output: string)
    | Settle(s: Step)
    | Fail(s: Step)
    | Resume(answer: Answer, summary: string)

  predicate At(st: State, s: Step, stage: Stage) { s in st.stage && st.stage[s] == stage }

  predicate Enabled(w: World, st: State, e: Event) {
    match e
    case Edit(_) => true
    case Resume(answer, _) => st.phase.Paused? && Arrives(answer)
    case Spawn(s) => st.phase.Active? && s in st.unstarted && Deps(w.shots, s) <= st.resolved
    case Enter(s) => st.phase.Active? && At(st, s, Spawned) && GuardReads(s) <= st.outputs.Keys
    case Dispatch(s) => st.phase.Active? && At(st, s, Entered)
    case Return(s, out) => st.phase.Active? && At(st, s, Dispatched) && Produces(w, st, s, out)
    case Settle(s) => st.phase.Active? && At(st, s, Returned)
    case Fail(s) => st.phase.Active? && (At(st, s, Spawned) || At(st, s, Entered) || At(st, s, Dispatched))
  }

  function Written(st: State, s: Step): string {
    if s == ScriptSaveDraft then Get(st.outputs, ScriptDraft)
    else if s == ScriptSave then Snapshot(st.outputs)
    else st.file
  }

  function AfterEnter(w: World, st: State, s: Step): State {
    if Guard(w, st.outputs, s) then st.(stage := st.stage[s := Entered])
    else st.(stage := st.stage[s := Returned], outputs := st.outputs[s := ""])
  }

  // A gate presents its preview and ends this run; a paid step submits; the two saving
  // steps write the file.
  function AfterDispatch(st: State, s: Step): State {
    st.(stage := st.stage[s := Dispatched],
        phase := if IsGate(s) then Paused(s) else st.phase,
        shown := if IsGate(s) then st.shown[s := Preview(st.outputs, s)] else st.shown,
        paid := if IsPaid(s) then st.paid + [Payment(s, Get(st.outputs, FinalScript))] else st.paid,
        file := Written(st, s))
  }

  // A settled substitute also settles the step it stands in for; a settled video step
  // takes its substitute out of every dependency set.
  function AfterSettle(st: State, s: Step): State {
    if IsSubstitute(s) then
      var video := Shot(s.n, Video);
      st.(stage := st.stage[s := Settled], resolved := st.resolved + {s, video},
          outputs := st.outputs[video := Get(st.outputs, s)])
    else if IsVideo(s) && Shot(s.n, Fallback) in st.parked then
      var fallback := Shot(s.n, Fallback);
      st.(stage := st.stage[s := Settled], resolved := st.resolved + {s, fallback}, parked := st.parked - {fallback})
    else st.(stage := st.stage[s := Settled], resolved := st.resolved + {s})
  }

  // A failed video step hands over to its substitute; any other failure ends the run.
  function AfterFail(st: State, s: Step): State {
    if IsVideo(s) then
      var fallback := Shot(s.n, Fallback);
      st.(stage := st.stage[s := Failed], parked := st.parked - {fallback}, unstarted := st.unstarted + {fallback})
    else st.(stage := st.stage[s := Failed], phase := Ended)
  }

  // The next run starts from nothing but the plan and the outputs of the last one, once
  // the answer has been made a reply.
  function AfterResume(w: World, st: State, answer: Answer, summary: string): State
    requires st.phase.Paused? && Arrives(answer)
  {
    var g := st.phase.gate;
    var outputs := st.outputs[g := summary];
    st.(stage := map s | s in outputs :: Settled,
        unstarted := AllSteps(w.shots) - AllShots(w.shots, Fallback) - outputs.Keys,
        parked := AllShots(w.shots, Fallback),
        resolved := outputs.Keys,
        outputs := outputs,
        messages := st.messages[g := answer.message],
        replies := st.replies[g := Delivered(answer)],
        phase := Active)
  }

  function After(w: World, st: State, e: Event): State
    requires Enabled(w, st, e)
  {
    match e
    case Edit(text) => st.(file := text)
    case Spawn(s) => st.(stage := st.stage[s := Spawned], unstarted := st.unstarted - {s})
    case Enter(s) => AfterEnter(w, st, s)
    case Dispatch(s) => AfterDispatch(st, s)
    case Return(s, out) => st.(stage := st.stage[s := Returned], outputs := st.outputs[s := out])
    case Settle(s) => AfterSettle(st, s)
    case Fail(s) => AfterFail(st, s)
    case Resume(answer, summary) => AfterResume(w, st, answer, summary)
  }

  // ---------------------------------------------------------------- bookkeeping

  predicate IsPaired(s: Step) { s.Shot? && (s.part == Video || s.part == Fallback) }

  // A step on its own is waiting or has started, and is resolved by settling.
  predicate Solo(st: State, s: Step) {
    && s !in st.parked
    && (s in st.stage <==> s !in st.unstarted)
    && (s in st.resolved <==> At(st, s, Settled))
    && (s in st.outputs <==> At(st, s, Returned) || At(st, s, Settled))
  }

  // A video step and its substitute. Until the video step fails, the substitute stays
  // parked; if the video step settles, it counts as resolved without having run. Once
  // the video step has failed, it is resolved by the substitute's settling.
  predicate Pair(st: State, n: int) {
    var video, fallback := Shot(n, Video), Shot(n, Fallback);
    && video !in st.parked && (video in st.stage <==> video !in st.unstarted)
    && if At(st, video, Failed) then
      && Solo(st, fallback)
      && (video in st.resolved <==> At(st, fallback, Settled))
      && (video in st.outputs <==> At(st, fallback, Settled))
    else
      && Solo(st, video)
      && fallback !in st.stage && fallback !in st.unstarted && fallback !in st.outputs
      && (fallback in st.parked <==> !At(st, video, Settled))
      && (fallback in st.resolved <==> At(st, video, Settled))
  }

  // Where the books have a step.
  predicate Booked(st: State, s: Step) { if IsPaired(s) then Pair(st, s.n) else Solo(st, s) }

  // What a step's stage says about the run.
  predicate Phased(st: State, s: Step) {
    && (At(st, s, Failed) && !IsVideo(s) ==> st.phase.Ended?)
    && (IsGate(s) && At(st, s, Dispatched) ==> st.phase == Paused(s) || st.phase.Ended?)
  }

  predicate IsPlanned(w: World, st: State, s: Step) {
    s in st.stage || s in st.unstarted || s in st.parked || s in st.outputs || s in st.resolved ==> Known(w.shots, s)
  }

  ghost predicate AllBooked(w: World, st: State) {
    && (forall s :: Known(w.shots, s) ==> Booked(st, s))
    && (forall s :: IsPlanned(w, st, s))
  }

  // Nothing starts before its dependencies are resolved, a gate that was presented is
  // what the run waits for, and only failing video steps are survived.
  ghost predicate Timely(w: World, st: State) {
    && (forall s <- st.stage :: Deps(w.shots, s) <= st.resolved)
    && (forall s :: Phased(st, s))
    && (st.phase.Paused? ==> IsGate(st.phase.gate) && At(st, st.phase.gate, Dispatched))
  }

  ghost predicate Books(w: World, st: State) { AllBooked(w, st) && Timely(w, st) }
}
