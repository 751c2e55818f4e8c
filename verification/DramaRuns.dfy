// What holds in every run of the short-drama workflow: the script that is paid for is
// the one that was shown last, the reply to it approves it, payments are bounded by its
// shots, and the run ends. Whose words the reply is, is said too.
module DramaRuns {
  import opened Texts
  import opened ReviewNormalizer
  import opened ClarifyForm
  import opened DramaGraph
  import opened DurationContract
  import opened DramaScheduler
  import opened DramaBooks
  import opened DramaConsent

  ghost predicate IsRun(w: World, states: seq<State>, events: seq<Event>) {
    && |states| == |events| + 1
    && states[0] == Initial(w, states[0].file)
    && (forall i :: 0 <= i < |events| ==>
          Enabled(w, states[i], events[i]) && states[i + 1] == After(w, states[i], events[i]))
  }

  lemma {:induction false} RunIsConsistent(w: World, states: seq<State>, events: seq<Event>, i: nat)
    requires IsRun(w, states, events) && i < |states|
    ensures Consistent(w, states[i])
  {
    hide Consistent, Enabled, After;
    if i == 0 {
      StartsConsistent(w, states[0].file);
    } else {
      RunIsConsistent(w, states, events, i - 1);
      assert states[i - 1 + 1] == After(w, states[i - 1], events[i - 1]);
      StaysConsistent(w, states[i - 1], events[i - 1]);
    }
  }

  // ---------------------------------------------------------------- consent

  // The last gate that ran.
  function LastGate(st: State): Step { if RevisionGate in st.shown then RevisionGate else ReviewGate }

  function LastPreview(st: State): string { if LastGate(st) in st.shown then st.shown[LastGate(st)] else "" }

  lemma SettledConsent(w: World, st: State)
    requires Consistent(w, st) && ReviewNormalize in st.outputs && Proceeds(st.outputs)
    ensures LastGate(st) in st.shown && LastGate(st) in st.replies
    ensures Approves(w.reader, Reply(st, LastGate(st)))
    ensures LastPreview(st) == Snapshot(st.outputs)
  {
    hide Approves, AsksForChanges, MediaApproval, DraftReview, Emitted, Says, Books, Passed, Presented, Billed, Canon,
      Freeze;
    var o, review, confirmation := st.outputs, Reply(st, ReviewGate), Reply(st, RevisionGate);
    assert Explained(w, st, ReviewNormalize);
    assert Explained(w, st, RevisionGate) && Explained(w, st, ReviewGate);
    assert Explained(w, st, ReviewIntent) && Explained(w, st, ScriptRevised);
    FinalMarker(w.reader, review, confirmation, Changed(o));
    DraftMarkers(w.reader, review);
    ApprovalIsExplicit(w.reader, review, confirmation, Changed(o));
  }

  lemma PaymentIsCharged(w: World, st: State, p: Payment)
    requires Consistent(w, st) && p in st.paid
    ensures Charged(w, st, p)
  {
    hide Books, Explained, Passed, Presented, Charged;
  }

  lemma OutputIsExplained(w: World, st: State, s: Step)
    requires Consistent(w, st)
    ensures s in st.outputs ==> Explained(w, st, s)
  {
    hide Books, Explained, Passed, Presented, Billed;
  }

  lemma ChargedFrom(w: World, st: State, p: Payment)
    requires Charged(w, st, p)
    ensures ReviewNormalize in st.outputs && FinalScript in st.outputs && Proceeds(st.outputs)
    ensures p.script == Get(st.outputs, FinalScript)
  {
    hide Says, Contains, HasShot;
    PaidGuard(w, st.outputs, p.step);
  }

  // Payments draw on the snapshot that was confirmed.
  lemma PaidFromSnapshot(w: World, st: State, p: Payment)
    requires Consistent(w, st) && p in st.paid
    ensures ReviewNormalize in st.outputs && Proceeds(st.outputs)
    ensures p.script == Canon(Snapshot(st.outputs))
    ensures Get(st.outputs, ScriptRevised) == "" ==> p.script == Snapshot(st.outputs)
  {
    PaymentIsCharged(w, st, p);
    hide Consistent, Canon, Says, Charged, Explained;
    ChargedFrom(w, st, p);
    OutputIsExplained(w, st, FinalScript);
    FinalIsCanon(w, st);
    OutputIsExplained(w, st, ScriptReread);
    RereadIsCanon(w, st);
  }

  lemma FinalIsCanon(w: World, st: State)
    requires Explained(w, st, FinalScript)
    ensures ScriptReread in st.outputs && Get(st.outputs, FinalScript) == Canon(Snapshot(st.outputs))
  {
    hide Canon, Freeze, Snapshot;
  }

  lemma RereadIsCanon(w: World, st: State)
    requires Explained(w, st, ScriptReread)
    ensures Canon(Get(st.outputs, ScriptReread)) == Get(st.outputs, ScriptReread)
  {
    hide Canon;
  }

  // Every paid step takes its arguments from the canonical form of what the last gate
  // showed, and the reply to that gate, as the workflow got it, was an approval.
  lemma PaidScriptIsTheLastPreview(w: World, states: seq<State>, events: seq<Event>, i: nat, p: Payment)
    requires IsRun(w, states, events) && i < |states| && p in states[i].paid
    ensures
      var st := states[i];
      && LastGate(st) in st.shown && LastGate(st) in st.replies
      && Approves(w.reader, st.replies[LastGate(st)])
      && p.script == Canon(LastPreview(st))
  {
    hide IsRun, Consistent, Approves, Canon, Proceeds, Snapshot;
    RunIsConsistent(w, states, events, i);
    PaidFromSnapshot(w, states[i], p);
    SettledConsent(w, states[i]);
  }

  // What came back for the last gate gives an approval as its review, unless it leaves
  // the answer to the model.
  lemma PaymentsFollowTheUsersWords(w: World, states: seq<State>, events: seq<Event>, i: nat, p: Payment)
    requires IsRun(w, states, events) && i < |states| && p in states[i].paid
    ensures
      var st := states[i];
      && LastGate(st) in st.messages
      && var m := st.messages[LastGate(st)];
         LeavesOpen(m) || (Read(m).Given? && Approves(w.reader, Read(m).value))
  {
    hide IsRun, Books, Explained, Passed, Billed, Approves, Canon, LeavesOpen, Read;
    PaidScriptIsTheLastPreview(w, states, events, i, p);
    RunIsConsistent(w, states, events, i);
    assert Presented(states[i], LastGate(states[i]));
  }

  // So it is what the gate showed, word for word, exactly when that is canonical text;
  // and it always is unless the script was redrafted.
  lemma WhenPreviewIsPaidVerbatim(w: World, states: seq<State>, events: seq<Event>, i: nat, p: Payment)
    requires IsRun(w, states, events) && i < |states| && p in states[i].paid
    ensures
      var preview := LastPreview(states[i]);
      && (p.script == preview <==> '\r' !in preview && Trimmed(preview))
      && (Get(states[i].outputs, ScriptRevised) == "" ==> p.script == preview)
  {
    hide IsRun, Consistent, Canon, Proceeds, Snapshot, Approves, Trimmed;
    RunIsConsistent(w, states, events, i);
    PaidFromSnapshot(w, states[i], p);
    SettledConsent(w, states[i]);
    CanonFixes(LastPreview(states[i]));
  }

  // ---------------------------------------------------------------- what is paid

  // How many of the first k shot slots have their header in the script.
  function ShotCount(script: string, k: nat): nat {
    if k == 0 then 0 else ShotCount(script, k - 1) + if HasShot(script, k) then 1 else 0
  }

  // The paid steps of those slots, and the one for the whole cast.
  function PaidSteps(script: string, k: nat): set<Step> {
    if k == 0 then {ReferenceImage}
    else PaidSteps(script, k - 1) + if HasShot(script, k) then {Shot(k, Image), Shot(k, Video)} else {}
  }

  lemma {:induction false} PaidStepsAre(script: string, k: nat, s: Step)
    ensures IsPaid(s) && (s.Shot? ==> 1 <= s.n <= k && HasShot(script, s.n)) ==> s in PaidSteps(script, k)
  {
    hide HasShot;
    if k > 0 { PaidStepsAre(script, k - 1, s); }
  }

  lemma AddTwo<T>(all: set<T>, x: T, y: T)
    ensures |all + {x, y}| <= |all| + 2
  {
    assert all + {x, y} == all + {x} + {y};
  }

  lemma {:induction false} PaidStepsFit(script: string, k: nat)
    ensures |PaidSteps(script, k)| <= 1 + 2 * ShotCount(script, k)
  {
    hide HasShot;
    if k > 0 {
      PaidStepsFit(script, k - 1);
      AddTwo(PaidSteps(script, k - 1), Shot(k, Image), Shot(k, Video));
    }
  }

  lemma {:induction false} DistinctFit(paid: seq<Payment>, all: set<Step>)
    requires forall i :: 0 <= i < |paid| ==> paid[i].step in all
    requires forall i, j :: 0 <= i < j < |paid| ==> paid[i].step != paid[j].step
    ensures |paid| <= |all|
  {
    if paid != [] {
      var last := paid[|paid| - 1].step;
      DistinctFit(paid[..|paid| - 1], all - {last});
    }
  }

  // No paid step is submitted twice, none for a shot the approved script does not have,
  // and so there are at most one payment for the cast and two for each shot.
  lemma PaymentsAreBounded(w: World, states: seq<State>, events: seq<Event>, i: nat)
    requires IsRun(w, states, events) && i < |states|
    ensures
      var st := states[i];
      && (forall j, k :: 0 <= j < k < |st.paid| ==> st.paid[j].step != st.paid[k].step)
      && |st.paid| <= 1 + 2 * ShotCount(Get(st.outputs, FinalScript), w.shots)
  {
    hide IsRun, Books, Passed, Presented, Explained, HasShot, Says, Contains, GuardReads;
    var st := states[i];
    RunIsConsistent(w, states, events, i);
    var script := Get(st.outputs, FinalScript);
    forall j | 0 <= j < |st.paid| ensures st.paid[j].step in PaidSteps(script, w.shots) {
      assert Charged(w, st, st.paid[j]);
      MovesAreKnown(w, st, st.paid[j].step);
      PaidStepsAre(script, w.shots, st.paid[j].step);
    }
    DistinctFit(st.paid, PaidSteps(script, w.shots));
    PaidStepsFit(script, w.shots);
  }

  lemma {:induction false} ShotCountAtMost(script: string, k: nat, n: nat)
    requires forall j :: n < j <= k ==> !HasShot(script, j)
    ensures ShotCount(script, k) <= n
  {
    hide HasShot;
    if k > 0 {
      if k > n { ShotCountAtMost(script, k - 1, n); } else { ShotCountAtMost(script, k - 1, k - 1); }
    }
  }

  lemma GuardsReadLines(script: string, n: nat)
    ensures HasShot(script, n) <==> HasShotLine(script, n)
  {
    hide Lines, Digits;
    assert "=== SHOT_" + Digits(n) + " ===" == "=== " + ShotName(n) + " ===";
  }

  lemma ShotsAreDeclared(script: string, k: nat, n: nat)
    requires Declares(script, n) && HeadersAgree(script)
    ensures ShotCount(script, k) <= n
  {
    hide HasShot, HasShotLine, Declares, ShotCount;
    HeadersAreDeclared(script, n);
    forall j | n < j <= k ensures !HasShot(script, j) {
      GuardsReadLines(script, j);
    }
    hide HeadersAgree;
    ShotCountAtMost(script, k, n);
  }

  // Under the contract as the code has it, payments number at most one plus twice the
  // shots that the script itself declares, which are at most ten, if the guards find no
  // other shot in it.
  lemma PaymentsFitTheDeclaredShots(w: World, states: seq<State>, events: seq<Event>, i: nat)
    requires IsRun(w, states, events) && i < |states|
    requires forall text :: w.durationOk(text) ==> MeetsContract(text)
    requires HeadersAgree(Get(states[i].outputs, FinalScript))
    ensures
      states[i].paid != [] ==>
        exists n :: 1 <= n <= 10 && Declares(Get(states[i].outputs, FinalScript), n) && |states[i].paid| <= 1 + 2 * n
  {
    hide IsRun, Consistent, Declares, HeadersAgree, ShotCount;
    var st, script := states[i], Get(states[i].outputs, FinalScript);
    if st.paid != [] {
      RunIsConsistent(w, states, events, i);
      PaymentsAreBounded(w, states, events, i);
      PaymentIsCharged(w, st, st.paid[0]);
      ContractHeld(w, st, st.paid[0]);
      var n :| 1 <= n <= 10 && Declares(script, n);
      ShotsAreDeclared(script, w.shots, n);
    }
  }

  lemma ContractHeld(w: World, st: State, p: Payment)
    requires Charged(w, st, p)
    ensures w.durationOk(Get(st.outputs, FinalScript))
  {
    hide Says, HasShot, Contains, GuardReads;
  }

  // ---------------------------------------------------------------- progress

  // No guard reads an output that is not there yet.
  lemma GuardsAreDefined(w: World, st: State, s: Step)
    requires Books(w, st) && s in st.stage
    ensures GuardReads(s) <= st.outputs.Keys
  {
    if Unguarded(s) {
    } else if s == ScriptRevised || s == RevisionGate {
      DependencySettled(w, st, s, ReviewIntent);
      if s == RevisionGate { RevisionInputs(w, st); }
    } else {
      DependencySettled(w, st, s, ReviewNormalize);
      if s == ReferenceImage {
        DependencySettled(w, st, s, ReferencePromptExtract);
        DependencySettled(w, st, ReferencePromptExtract, FinalScript);
      } else if IsPaid(s) {
        var prompt := Shot(s.n, if s.part == Image then ImagePrompt else VideoPrompt);
        DependencySettled(w, st, s, prompt);
        DependencySettled(w, st, prompt, FinalScript);
      } else if s.Shot? {
        DependencySettled(w, st, s, FinalScript);
      } else if s == PublishFinalVideo {
        DependencySettled(w, st, s, DeliveryAudit);
      }
    }
    hide Books;
  }

  // As long as a step is not resolved and the run neither waits nor has ended, some
  // task can move: nothing is silently dropped.
  lemma {:induction false} SomethingCanMove(w: World, st: State, s: Step) returns (e: Event)
    requires Books(w, st) && st.phase.Active? && Known(w.shots, s) && s !in st.resolved
    ensures Enabled(w, st, e) && !e.Edit?
    decreases Rank(s)
  {
    assert Booked(st, s) && Phased(st, s);
    if s in st.stage {
      e := NextMove(w, st, s);
    } else if IsSubstitute(s) && !At(st, Shot(s.n, Video), Failed) {
      e := SomethingCanMove(w, st, Shot(s.n, Video));
    } else if Deps(w.shots, s) <= st.resolved {
      e := Spawn(s);
    } else {
      var d: Step :| d in Deps(w.shots, s) && d !in st.resolved;
      DependenciesComeBefore(w.shots, s, d);
      e := SomethingCanMove(w, st, d);
    }
    hide Deps, Rank, Produces, Guard, GuardReads;
  }

  lemma NextMove(w: World, st: State, s: Step) returns (e: Event)
    requires Books(w, st) && st.phase.Active? && s in st.stage && s !in st.resolved
    ensures Enabled(w, st, e) && !e.Edit?
  {
    hide Books, Produces, GuardReads, Deps, Booked, Phased;
    StartedIsTimely(w, st, s);
    UnresolvedIsOpen(st, s);
    match st.stage[s] {
      case Spawned => GuardsAreDefined(w, st, s); e := Enter(s);
      case Entered => e := Dispatch(s);
      case Dispatched => e := Fail(s);
      case Returned => e := Settle(s);
      case Settled => assert false;
      case Failed => e := SubstituteMove(w, st, s);
    }
  }

  lemma UnresolvedIsOpen(st: State, s: Step)
    requires Booked(st, s) && s !in st.resolved
    ensures !At(st, s, Settled)
  {
  }

  lemma SubstituteMove(w: World, st: State, s: Step) returns (e: Event)
    requires Books(w, st) && st.phase.Active? && At(st, s, Failed) && s !in st.resolved
    ensures Enabled(w, st, e) && !e.Edit?
  {
    hide Produces, GuardReads;
    StartedIsTimely(w, st, s);
    var fallback := Shot(s.n, Fallback);
    assert Known(w.shots, fallback) && Phased(st, fallback);
    if fallback in st.unstarted {
      e := Spawn(fallback);
    } else {
      match st.stage[fallback] {
        case Spawned => GuardsAreDefined(w, st, fallback); e := Enter(fallback);
        case Entered => e := Dispatch(fallback);
        case Dispatched => e := Fail(fallback);
        case Returned => e := Settle(fallback);
        case _ =>
      }
    }
  }

  // ---------------------------------------------------------------- termination

  function Weight(stage: map<Step, Stage>, s: Step): nat {
    if s !in stage then 5
    else match stage[s]
      case Spawned => 4
      case Entered => 3
      case Dispatched => 2
      case Returned => 1
      case Settled => 0
      case Failed => 0
  }

  function Potential(stage: map<Step, Stage>, steps: seq<Step>): nat {
    if steps == [] then 0 else Weight(stage, steps[0]) + Potential(stage, steps[1..])
  }

  lemma {:induction false} PotentialFalls(stage: map<Step, Stage>, steps: seq<Step>, s: Step, k: Stage)
    requires Weight(stage[s := k], s) < Weight(stage, s)
    ensures Potential(stage[s := k], steps) <= Potential(stage, steps)
    ensures s in steps ==> Potential(stage[s := k], steps) < Potential(stage, steps)
  {
    if steps != [] { PotentialFalls(stage, steps[1..], s, k); }
  }

  lemma {:induction false} PotentialAtMost(stage: map<Step, Stage>, steps: seq<Step>)
    ensures Potential(stage, steps) <= 5 * |steps|
  {
    if steps != [] { PotentialAtMost(stage, steps[1..]); }
  }

  lemma EventsUseUp(w: World, st: State, e: Event)
    requires Books(w, st) && Enabled(w, st, e) && !e.Edit?
    ensures Potential(After(w, st, e).stage, Plan(w.shots)) < Potential(st.stage, Plan(w.shots))
  {
    hide Produces, Guard, GuardReads, Deps, After, Plan, Potential;
    StagesMove(w, st, e);
    var s := if e.Resume? then st.phase.gate else e.s;
    if e.Resume? { GateWaits(w, st); }
    MovesAreKnown(w, st, s);
    PlanIsKnown(w.shots, s);
    PotentialFalls(st.stage, Plan(w.shots), s, StagesAfter(w, st, e)[s]);
  }

  lemma MovesAreKnown(w: World, st: State, s: Step)
    requires Books(w, st) && (s in st.stage || s in st.unstarted)
    ensures Known(w.shots, s) && (s in st.unstarted ==> s !in st.stage)
  {
    assert IsPlanned(w, st, s) && Booked(st, s);
    hide Deps;
  }

  function Moves(events: seq<Event>): nat {
    if events == [] then 0 else Moves(events[..|events| - 1]) + if events[|events| - 1].Edit? then 0 else 1
  }

  lemma {:induction false} MovesUseUp(w: World, states: seq<State>, events: seq<Event>, i: nat)
    requires IsRun(w, states, events) && i <= |events|
    ensures Moves(events[..i]) + Potential(states[i].stage, Plan(w.shots)) <= Potential(states[0].stage, Plan(w.shots))
  {
    hide Consistent, Enabled, After, Plan, Potential;
    if i > 0 {
      MovesUseUp(w, states, events, i - 1);
      RunIsConsistent(w, states, events, i - 1);
      assert events[..i][..i - 1] == events[..i - 1];
      assert states[i - 1 + 1] == After(w, states[i - 1], events[i - 1]);
      OneMove(w, states[i - 1], events[i - 1]);
    }
  }

  lemma OneMove(w: World, st: State, e: Event)
    requires Consistent(w, st) && Enabled(w, st, e)
    ensures
      Potential(After(w, st, e).stage, Plan(w.shots)) + (if e.Edit? then 0 else 1) <= Potential(st.stage, Plan(w.shots))
  {
    hide Potential, Plan, Books, Produces, Guard, GuardReads, Deps;
    if !e.Edit? { EventsUseUp(w, st, e); }
  }

  // However often the user edits the file, every run is over after at most five moves a
  // step.
  lemma RunsEnd(w: World, states: seq<State>, events: seq<Event>)
    requires IsRun(w, states, events)
    ensures Moves(events) <= 5 * (27 + 5 * w.shots)
  {
    hide Enabled, After;
    MovesUseUp(w, states, events, |events|);
    assert events[..|events|] == events;
    PotentialAtMost(states[0].stage, Plan(w.shots));
    PlanIsKnown(w.shots, Deliver);
  }
}
