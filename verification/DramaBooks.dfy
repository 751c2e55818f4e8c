// The scheduler's books stay in order over every run: what that means for gates, for
// resuming, for progress and for termination.
module DramaBooks {
  import opened ClarifyForm
  import opened DramaGraph
  import opened DramaScheduler

  lemma InPlan(shots: nat, s: Step)
    ensures s in AllSteps(shots) <==> Known(shots, s)
  {
    PlanIsKnown(shots, s);
  }

  lemma InitialBooks(w: World, file: string)
    ensures Books(w, Initial(w, file))
  {
    var st := Initial(w, file);
    forall s: Step ensures s in AllSteps(w.shots) <==> Known(w.shots, s) { InPlan(w.shots, s); }
    forall s | Known(w.shots, s) ensures Booked(st, s) { }
    forall s: Step ensures IsPlanned(w, st, s) { }
  }

  // ---------------------------------------------------------------- one event at a time

  predicate SameAt(st: State, st': State, x: Step) {
    && (x in st'.stage <==> x in st.stage) && (x in st.stage ==> st'.stage[x] == st.stage[x])
    && (x in st'.unstarted <==> x in st.unstarted) && (x in st'.parked <==> x in st.parked)
    && (x in st'.resolved <==> x in st.resolved) && (x in st'.outputs <==> x in st.outputs)
  }

  predicate Together(s: Step, x: Step) { x == s || (IsPaired(s) && IsPaired(x) && x.n == s.n) }

  // Nothing is booked differently but the step and, for a video step or a substitute,
  // the other one of the pair.
  ghost predicate OnlyTouches(st: State, st': State, s: Step) {
    forall x :: !Together(s, x) ==> SameAt(st, st', x)
  }

  lemma UntouchedIsBooked(st: State, st': State, s: Step, x: Step)
    requires Booked(st, x) && OnlyTouches(st, st', s) && !Together(s, x)
    ensures Booked(st', x)
  {
    assert SameAt(st, st', x);
    if IsPaired(x) {
      assert SameAt(st, st', Shot(x.n, Video)) && SameAt(st, st', Shot(x.n, Fallback));
      PairKept(st, st', x.n);
    } else {
      SoloKept(st, st', x);
    }
    hide Pair, Solo, SameAt;
  }

  lemma PairKept(st: State, st': State, n: int)
    requires SameAt(st, st', Shot(n, Video)) && SameAt(st, st', Shot(n, Fallback)) && Pair(st, n)
    ensures Pair(st', n)
  {
    hide Solo, SameAt;
    SoloKept(st, st', Shot(n, Video));
    SoloKept(st, st', Shot(n, Fallback));
    StageKept(st, st', Shot(n, Video));
    StageKept(st, st', Shot(n, Fallback));
  }

  lemma SoloKept(st: State, st': State, x: Step)
    requires SameAt(st, st', x)
    ensures Solo(st', x) <==> Solo(st, x)
  {
  }

  lemma StageKept(st: State, st': State, x: Step)
    requires SameAt(st, st', x)
    ensures At(st', x, Failed) <==> At(st, x, Failed)
    ensures At(st', x, Settled) <==> At(st, x, Settled)
    ensures (x in st'.stage <==> x in st.stage) && (x in st'.unstarted <==> x in st.unstarted)
    ensures (x in st'.parked <==> x in st.parked) && (x in st'.resolved <==> x in st.resolved)
    ensures x in st'.outputs <==> x in st.outputs
  {
  }

  predicate InFlight(st: State, s: Step) { At(st, s, Spawned) || At(st, s, Entered) || At(st, s, Dispatched) }

  // A waiting step starts.
  lemma SpawnBooks(st: State, s: Step)
    requires Booked(st, s) && s in st.unstarted
    ensures Booked(st.(stage := st.stage[s := Spawned], unstarted := st.unstarted - {s}), s)
  {
  }

  lemma SpawnTouches(st: State, s: Step)
    ensures OnlyTouches(st, st.(stage := st.stage[s := Spawned], unstarted := st.unstarted - {s}), s)
  {
  }

  lemma AdvanceBooks(st: State, s: Step, stage: Stage)
    requires Booked(st, s) && InFlight(st, s) && stage in {Entered, Dispatched}
    ensures Booked(st.(stage := st.stage[s := stage]), s)
  {
  }

  lemma AdvanceTouches(st: State, s: Step, stage: Stage)
    ensures OnlyTouches(st, st.(stage := st.stage[s := stage]), s)
  {
  }

  lemma ReturnBooks(st: State, s: Step, out: string)
    requires Booked(st, s) && InFlight(st, s)
    ensures Booked(st.(stage := st.stage[s := Returned], outputs := st.outputs[s := out]), s)
  {
  }

  lemma ReturnTouches(st: State, s: Step, out: string)
    ensures OnlyTouches(st, st.(stage := st.stage[s := Returned], outputs := st.outputs[s := out]), s)
  {
  }

  lemma SettleSolo(st: State, s: Step)
    requires !IsPaired(s) && Solo(st, s) && At(st, s, Returned)
    ensures Solo(AfterSettle(st, s), s)
  {
  }

  lemma SettleVideo(st: State, s: Step)
    requires IsVideo(s) && Pair(st, s.n) && At(st, s, Returned)
    ensures Pair(AfterSettle(st, s), s.n)
  {
  }

  lemma SettleSubstitute(st: State, s: Step)
    requires IsSubstitute(s) && Pair(st, s.n) && At(st, s, Returned)
    ensures Pair(AfterSettle(st, s), s.n)
  {
  }

  lemma SettleBooks(st: State, s: Step)
    requires Booked(st, s) && At(st, s, Returned)
    ensures Booked(AfterSettle(st, s), s)
  {
    if IsVideo(s) { SettleVideo(st, s); }
    else if IsSubstitute(s) { SettleSubstitute(st, s); }
    else { SettleSolo(st, s); }
    hide AfterSettle, Pair, Solo;
  }

  lemma SettleTouches(st: State, s: Step)
    ensures OnlyTouches(st, AfterSettle(st, s), s)
  {
  }

  lemma FailVideo(st: State, s: Step)
    requires IsVideo(s) && Pair(st, s.n) && InFlight(st, s)
    ensures Pair(AfterFail(st, s), s.n)
  {
  }

  lemma FailOther(st: State, s: Step)
    requires !IsVideo(s) && Booked(st, s) && InFlight(st, s)
    ensures Booked(AfterFail(st, s), s)
  {
  }

  lemma FailBooks(st: State, s: Step)
    requires Booked(st, s) && InFlight(st, s)
    ensures Booked(AfterFail(st, s), s)
  {
    if IsVideo(s) { FailVideo(st, s); } else { FailOther(st, s); }
    hide AfterFail, Pair, Solo;
  }

  lemma FailTouches(st: State, s: Step)
    ensures OnlyTouches(st, AfterFail(st, s), s)
  {
  }

  lemma TouchedStaysBooked(w: World, st: State, st': State, s: Step)
    requires AllBooked(w, st) && Known(w.shots, s) && Booked(st', s) && OnlyTouches(st, st', s)
    ensures AllBooked(w, st')
  {
    forall x | Known(w.shots, x) ensures Booked(st', x) {
      assert Booked(st, x);
      if !Together(s, x) { UntouchedIsBooked(st, st', s, x); }
    }
    forall x ensures IsPlanned(w, st', x) {
      assert IsPlanned(w, st, x);
      if !Together(s, x) { assert SameAt(st, st', x); }
    }
    hide Pair, Solo;
  }

  // ---------------------------------------------------------------- gates

  lemma ResolvedHasStarted(w: World, st: State, d: Step)
    requires AllBooked(w, st) && d in st.resolved && !IsSubstitute(d)
    ensures d in st.stage && Known(w.shots, d)
    ensures !IsPaired(d) ==> At(st, d, Settled) && d in st.outputs
  {
    assert IsPlanned(w, st, d) && Booked(st, d);
  }

  // Whatever comes after a gate has not started before the gate is resolved.
  lemma {:induction false} BehindGate(w: World, st: State, g: Step, s: Step)
    requires Books(w, st) && IsGate(g) && s in st.stage && s != g && s !in Before(g) && !IsSubstitute(s)
    ensures g in st.resolved
    decreases Rank(s)
  {
    var d := TowardsGate(g, s);
    assert d in Deps(w.shots, s);
    if d != g {
      ResolvedHasStarted(w, st, d);
      BehindGate(w, st, g, d);
    }
    hide Deps, Rank, Before;
  }

  lemma DependencySettled(w: World, st: State, s: Step, d: Step)
    requires Books(w, st) && s in st.stage && d in Deps(w.shots, s) && !IsPaired(d)
    ensures At(st, d, Settled) && d in st.outputs && d in st.resolved
  {
    ResolvedHasStarted(w, st, d);
    hide Deps;
  }

  lemma BeforeReviewIsSettled(w: World, st: State)
    requires Books(w, st) && ReviewGate in st.stage
    ensures At(st, IntakeExtract, Settled) && At(st, ScriptDraft, Settled) && At(st, ScriptSaveDraft, Settled)
  {
    hide Books;
    DependencySettled(w, st, ReviewGate, ScriptDraft);
    DependencySettled(w, st, ReviewGate, ScriptSaveDraft);
    DependencySettled(w, st, ReviewGate, IntakeExtract);
  }

  lemma BeforeRevisionIsSettled(w: World, st: State)
    requires Books(w, st) && RevisionGate in st.stage
    ensures At(st, ReviewGate, Settled) && At(st, ReviewIntent, Settled) && At(st, ScriptReread, Settled)
    ensures At(st, ScriptRevised, Settled)
  {
    hide Books;
    DependencySettled(w, st, RevisionGate, ReviewIntent);
    DependencySettled(w, st, RevisionGate, ScriptReread);
    DependencySettled(w, st, RevisionGate, ScriptRevised);
    DependencySettled(w, st, ReviewIntent, ReviewGate);
  }

  lemma BeforeIsSettled(w: World, st: State, g: Step, s: Step)
    requires Books(w, st) && IsGate(g) && g in st.stage && s in Before(g)
    ensures At(st, s, Settled)
  {
    hide Books, Deps, Rank;
    if g == RevisionGate { BeforeRevisionIsSettled(w, st); }
    BeforeReviewIsSettled(w, st);
  }

  lemma StandsInForFailed(w: World, st: State, s: Step)
    requires AllBooked(w, st) && IsSubstitute(s) && s in st.stage
    ensures At(st, Shot(s.n, Video), Failed)
  {
    assert IsPlanned(w, st, s) && Booked(st, s);
  }

  // While a gate waits, nothing else is in flight: everything that started has settled.
  lemma AloneAtGate(w: World, st: State, g: Step, s: Step)
    requires Books(w, st) && IsGate(g) && g in st.stage && g !in st.resolved && s in st.stage && s != g
    ensures s in Before(g) && At(st, s, Settled)
  {
    hide AllBooked, Timely, Deps, Rank;
    if s !in Before(g) {
      if IsSubstitute(s) { StandsInForFailed(w, st, s); }
      BehindGate(w, st, g, if IsSubstitute(s) then Shot(s.n, Video) else s);
    }
    BeforeIsSettled(w, st, g, s);
  }

  // ---------------------------------------------------------------- resuming

  // What settling the waiting gate by hand would give.
  function Continued(st: State, g: Step, message: Message, reply: string, summary: string): State {
    st.(stage := st.stage[g := Settled], resolved := st.resolved + {g},
        outputs := st.outputs[g := summary], messages := st.messages[g := message], replies := st.replies[g := reply],
        phase := Active)
  }

  lemma GateWaits(w: World, st: State)
    requires Books(w, st) && st.phase.Paused?
    ensures
      var g := st.phase.gate;
      IsGate(g) && At(st, g, Dispatched) && g !in st.outputs && g !in st.unstarted && g !in st.parked
        && g !in st.resolved
  {
    assert IsPlanned(w, st, st.phase.gate) && Booked(st, st.phase.gate);
    hide Deps;
  }

  // A waiting run has, for every step, settled it or not touched it.
  lemma Waits(w: World, st: State, s: Step)
    requires Books(w, st) && st.phase.Paused?
    ensures s != st.phase.gate ==>
      && (s in st.stage <==> s in st.outputs)
      && (s in st.stage ==> At(st, s, Settled))
      && (s in st.resolved <==> s in st.outputs)
      && (s in st.parked <==> Known(w.shots, s) && IsSubstitute(s))
      && (s in st.unstarted <==> Known(w.shots, s) && !IsSubstitute(s) && s !in st.outputs)
  {
    hide Timely, Deps, Rank, Before;
    GateWaits(w, st);
    var g := st.phase.gate;
    assert IsPlanned(w, st, s);
    if Known(w.shots, s) && s != g {
      assert Booked(st, s);
      if s in st.stage { AloneAtGate(w, st, g, s); }
      if IsPaired(s) { PairWaits(w, st, s.n); }
    }
  }

  lemma PairWaits(w: World, st: State, n: int)
    requires Books(w, st) && st.phase.Paused?
    ensures Shot(n, Video) !in st.stage && Shot(n, Fallback) !in st.stage
  {
    hide AllBooked, Timely, Deps, Rank;
    GateWaits(w, st);
    if Shot(n, Video) in st.stage { AloneAtGate(w, st, st.phase.gate, Shot(n, Video)); }
    if Shot(n, Fallback) in st.stage { AloneAtGate(w, st, st.phase.gate, Shot(n, Fallback)); }
  }

  // Rebuilding the run from its outputs loses nothing and repeats nothing.
  lemma ResumeContinues(w: World, st: State, answer: Answer, summary: string)
    requires Books(w, st) && st.phase.Paused? && Arrives(answer)
    ensures AfterResume(w, st, answer, summary)
      == Continued(st, st.phase.gate, answer.message, Delivered(answer), summary)
  {
    hide Books, Deps, Rank, Delivered, Arrives;
    var g := st.phase.gate;
    var a := AfterResume(w, st, answer, summary);
    var b := Continued(st, g, answer.message, Delivered(answer), summary);
    GateWaits(w, st);
    forall s ensures s in a.stage <==> s in b.stage { Waits(w, st, s); }
    forall s | s in a.stage ensures a.stage[s] == b.stage[s] { Waits(w, st, s); }
    assert a.stage == b.stage;
    forall s ensures s in a.unstarted <==> s in b.unstarted { Waits(w, st, s); InPlan(w.shots, s); }
    forall s ensures s in a.parked <==> s in b.parked { Waits(w, st, s); }
    forall s ensures s in a.resolved <==> s in b.resolved { Waits(w, st, s); }
    assert a.unstarted == b.unstarted && a.parked == b.parked && a.resolved == b.resolved;
  }

  // ---------------------------------------------------------------- every event

  lemma StaysTimely(w: World, st: State, st': State, s: Step)
    requires Timely(w, st) && (st.phase.Active? || st.phase == Paused(s))
    requires st.resolved <= st'.resolved && Deps(w.shots, s) <= st'.resolved
    requires st'.stage.Keys == st.stage.Keys + {s} && forall x <- st.stage :: x != s ==> st'.stage[x] == st.stage[x]
    requires Phased(st', s)
    requires st'.phase.Paused? ==> IsGate(s) && st'.phase == Paused(s) && At(st', s, Dispatched)
    ensures Timely(w, st')
  {
    forall x ensures Phased(st', x) {
      assert Phased(st, x);
    }
    hide Deps;
  }

  // The same for a step that moves on while the run does.
  lemma MovesTimely(w: World, st: State, st': State, s: Step, stage: Stage)
    requires Timely(w, st) && st.phase.Active? && st'.phase == st.phase
    requires st'.stage == st.stage[s := stage] && st.resolved <= st'.resolved && Deps(w.shots, s) <= st.resolved
    requires stage == Failed ==> IsVideo(s)
    requires stage == Dispatched ==> !IsGate(s)
    ensures Timely(w, st')
  {
    hide Timely, Deps;
    StaysTimely(w, st, st', s);
  }

  lemma StartedIsTimely(w: World, st: State, s: Step)
    requires Books(w, st) && s in st.stage
    ensures Known(w.shots, s) && Booked(st, s) && Deps(w.shots, s) <= st.resolved && Phased(st, s)
  {
    assert IsPlanned(w, st, s);
    hide Deps;
  }

  lemma SpawnKeepsBooks(w: World, st: State, s: Step)
    requires Books(w, st) && st.phase.Active? && s in st.unstarted && Deps(w.shots, s) <= st.resolved
    ensures Books(w, st.(stage := st.stage[s := Spawned], unstarted := st.unstarted - {s}))
  {
    hide AllBooked, Timely, Deps;
    SpawnStaysBooked(w, st, s);
    MovesTimely(w, st, st.(stage := st.stage[s := Spawned], unstarted := st.unstarted - {s}), s, Spawned);
  }

  lemma SpawnStaysBooked(w: World, st: State, s: Step)
    requires AllBooked(w, st) && s in st.unstarted
    ensures AllBooked(w, st.(stage := st.stage[s := Spawned], unstarted := st.unstarted - {s}))
  {
    assert IsPlanned(w, st, s);
    assert Booked(st, s);
    SpawnBooks(st, s);
    SpawnTouches(st, s);
    hide AllBooked, Booked, OnlyTouches;
    TouchedStaysBooked(w, st, st.(stage := st.stage[s := Spawned], unstarted := st.unstarted - {s}), s);
  }

  lemma AdvanceStaysBooked(w: World, st: State, s: Step, stage: Stage)
    requires Books(w, st) && InFlight(st, s) && stage in {Entered, Dispatched}
    ensures AllBooked(w, st.(stage := st.stage[s := stage]))
    ensures Known(w.shots, s) && Deps(w.shots, s) <= st.resolved
  {
    StartedIsTimely(w, st, s);
    AdvanceBooks(st, s, stage);
    AdvanceTouches(st, s, stage);
    hide Timely, Booked, OnlyTouches, Deps;
    TouchedStaysBooked(w, st, st.(stage := st.stage[s := stage]), s);
  }

  lemma AdvanceKeepsBooks(w: World, st: State, s: Step, stage: Stage)
    requires Books(w, st) && st.phase.Active? && InFlight(st, s) && stage in {Entered, Dispatched}
    requires stage == Dispatched ==> !IsGate(s)
    ensures Books(w, st.(stage := st.stage[s := stage]))
  {
    AdvanceStaysBooked(w, st, s, stage);
    hide AllBooked, Timely, Deps;
    MovesTimely(w, st, st.(stage := st.stage[s := stage]), s, stage);
  }

  lemma PresentKeepsBooks(w: World, st: State, s: Step)
    requires Books(w, st) && st.phase.Active? && InFlight(st, s) && IsGate(s)
    ensures Books(w, st.(stage := st.stage[s := Dispatched], phase := Paused(s)))
  {
    var mid := st.(stage := st.stage[s := Dispatched]);
    var st' := mid.(phase := Paused(s));
    AdvanceStaysBooked(w, st, s, Dispatched);
    hide AllBooked, Timely, Deps;
    StaysTimely(w, st, st', s);
    SameBooks(w, mid, st');
  }

  // The books do not depend on what was shown, replied, written or paid.
  lemma SameBooks(w: World, st: State, st': State)
    requires AllBooked(w, st) && st'.stage == st.stage && st'.unstarted == st.unstarted && st'.parked == st.parked
    requires st'.resolved == st.resolved && st'.outputs.Keys == st.outputs.Keys
    ensures AllBooked(w, st')
  {
    forall x | Known(w.shots, x) ensures Booked(st', x) {
      assert Booked(st, x);
    }
    forall x ensures IsPlanned(w, st', x) {
      assert IsPlanned(w, st, x);
    }
  }

  lemma SameTimes(w: World, st: State, st': State)
    requires Timely(w, st) && st'.stage == st.stage && st'.resolved == st.resolved && st'.phase == st.phase
    ensures Timely(w, st')
  {
    forall x ensures Phased(st', x) {
      assert Phased(st, x);
    }
    hide Deps;
  }

  lemma ReturnKeepsBooks(w: World, st: State, s: Step, out: string)
    requires Books(w, st) && st.phase.Active? && InFlight(st, s)
    ensures Books(w, st.(stage := st.stage[s := Returned], outputs := st.outputs[s := out]))
  {
    var st' := st.(stage := st.stage[s := Returned], outputs := st.outputs[s := out]);
    StartedIsTimely(w, st, s);
    ReturnBooks(st, s, out);
    ReturnTouches(st, s, out);
    hide AllBooked, Timely, Booked, OnlyTouches, Deps;
    TouchedStaysBooked(w, st, st', s);
    MovesTimely(w, st, st', s, Returned);
  }

  lemma SettleMoves(st: State, s: Step)
    ensures
      var st' := AfterSettle(st, s);
      st'.stage == st.stage[s := Settled] && st.resolved + {s} <= st'.resolved && st'.phase == st.phase
  {
    hide Get;
    if IsSubstitute(s) {
      assert AfterSettle(st, s).resolved == st.resolved + {s, Shot(s.n, Video)};
    } else if IsVideo(s) && Shot(s.n, Fallback) in st.parked {
      assert AfterSettle(st, s).resolved == st.resolved + {s, Shot(s.n, Fallback)};
    }
  }

  lemma FailMoves(st: State, s: Step)
    ensures
      var st' := AfterFail(st, s);
      && st'.stage == st.stage[s := Failed] && st'.resolved == st.resolved
      && st'.phase == if IsVideo(s) then st.phase else Ended
  {
  }

  lemma SettleKeepsBooks(w: World, st: State, s: Step)
    requires Books(w, st) && st.phase.Active? && At(st, s, Returned)
    ensures Books(w, AfterSettle(st, s))
  {
    StartedIsTimely(w, st, s);
    SettleBooks(st, s);
    SettleTouches(st, s);
    SettleMoves(st, s);
    hide AllBooked, Timely, Booked, OnlyTouches, Deps, AfterSettle;
    TouchedStaysBooked(w, st, AfterSettle(st, s), s);
    MovesTimely(w, st, AfterSettle(st, s), s, Settled);
  }

  lemma FailKeepsBooks(w: World, st: State, s: Step)
    requires Books(w, st) && st.phase.Active? && InFlight(st, s)
    ensures Books(w, AfterFail(st, s))
  {
    StartedIsTimely(w, st, s);
    FailBooks(st, s);
    FailTouches(st, s);
    FailMoves(st, s);
    hide AllBooked, Timely, Booked, OnlyTouches, Deps, AfterFail;
    TouchedStaysBooked(w, st, AfterFail(st, s), s);
    if IsVideo(s) { MovesTimely(w, st, AfterFail(st, s), s, Failed); } else { StaysTimely(w, st, AfterFail(st, s), s); }
  }

  lemma ContinuedKeepsBooks(w: World, st: State, message: Message, reply: string, summary: string)
    requires Books(w, st) && st.phase.Paused?
    ensures Books(w, Continued(st, st.phase.gate, message, reply, summary))
  {
    var g := st.phase.gate;
    var st' := Continued(st, g, message, reply, summary);
    GateWaits(w, st);
    StartedIsTimely(w, st, g);
    assert Solo(st', g);
    assert OnlyTouches(st, st', g);
    hide Timely, Booked, OnlyTouches, Deps;
    TouchedStaysBooked(w, st, st', g);
    StaysTimely(w, st, st', g);
  }

  // The books stay in order, whatever happens.
  lemma BooksStayInOrder(w: World, st: State, e: Event)
    requires Books(w, st) && Enabled(w, st, e)
    ensures Books(w, After(w, st, e))
  {
    hide AllBooked, Timely, Arrives, Delivered, AfterSettle, AfterFail, AfterResume, Produces, Guard, GuardReads,
      Written, Preview, Deps;
    match e {
      case Edit(text) => SameBooks(w, st, After(w, st, e)); SameTimes(w, st, After(w, st, e));
      case Spawn(s) => SpawnKeepsBooks(w, st, s);
      case Enter(s) =>
        if Guard(w, st.outputs, s) { AdvanceKeepsBooks(w, st, s, Entered); } else { ReturnKeepsBooks(w, st, s, ""); }
      case Dispatch(s) =>
        if IsGate(s) { PresentKeepsBooks(w, st, s); } else { AdvanceKeepsBooks(w, st, s, Dispatched); }
        var mid := st.(stage := st.stage[s := Dispatched], phase := if IsGate(s) then Paused(s) else st.phase);
        SameBooks(w, mid, After(w, st, e));
        SameTimes(w, mid, After(w, st, e));
      case Return(s, out) => ReturnKeepsBooks(w, st, s, out);
      case Settle(s) => SettleKeepsBooks(w, st, s);
      case Fail(s) => FailKeepsBooks(w, st, s);
      case Resume(answer, summary) =>
        ResumeContinues(w, st, answer, summary);
        ContinuedKeepsBooks(w, st, answer.message, Delivered(answer), summary);
    }
  }
}
