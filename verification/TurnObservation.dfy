// The event observer of the live case driver: what it knows after any frames is a
// function of the frames it accepted.
module TurnObservation {
  import opened Options
  import opened Texts

  datatype EventName =
    | TextDelta | Thinking | ToolUse | ToolUseDelta | ProviderActivity | Compaction | Done | Error | Other

  // An integer field of a payload: absent, an integer, or something else.
  datatype RawInt = Missing | Int(value: int) | NotInt

  // A frame, with what the observer looks up in its payload. compacted says that the
  // payload reports an applied or completed compaction.
  datatype Frame = Frame(
    event: EventName,
    session: string,
    text: string,
    toolId: string,
    phase: string,
    heartbeat: bool,
    emittedAt: RawInt,
    startedAt: RawInt,
    compacted: bool,
    reason: string)

  // An accepted frame and when it came.
  datatype Seen = Seen(frame: Frame, now: real)

  datatype Phase = Phase(name: string, now: real, emittedAt: int, heartbeat: bool)

  const TAIL_CHARS: nat := 1024

  // ---------------------------------------------------------------- frames

  predicate IsText(f: Frame) { f.event == TextDelta && f.text != "" }

  predicate IsThought(f: Frame) { f.event == Thinking && f.text != "" }

  predicate IsPulse(f: Frame) { f.event == ProviderActivity && f.phase == "reasoning" }

  predicate IsActivity(f: Frame) { f.event == ProviderActivity }

  predicate IsCompaction(f: Frame) { f.event == Compaction && f.compacted }

  predicate IsReasoning(f: Frame) { IsThought(f) || IsPulse(f) }

  predicate IsTerminal(f: Frame) { f.event == Done || f.event == Error }

  predicate IsTool(f: Frame) { (f.event == ToolUse || f.event == ToolUseDelta) && f.toolId != "" }

  predicate BadInt(x: RawInt) { x.NotInt? || (x.Int? && x.value < 0) }

  // _nonnegative_int(..., default=0)
  function IntOr0(x: RawInt): int
    requires !BadInt(x)
  {
    if x.Int? then x.value else 0
  }

  // A frame that makes the observer raise.
  predicate Malformed(f: Frame) { f.event == ProviderActivity && !(IsStamp(f.emittedAt) && IsStamp(f.startedAt)) }

  // Absent, or an integer from 0 on.
  predicate IsStamp(x: RawInt) { x == Missing || (x.Int? && x.value >= 0) }

  // When a payload says something was; 0 where it does not.
  function Stamp(x: RawInt): int {
    match x
    case Int(value) => value
    case _ => 0
  }

  predicate Foreign(f: Frame, session: string) { f.session != "" && f.session != session }

  // ---------------------------------------------------------------- what a history says

  // In milliseconds, and never negative.
  function Elapsed(now: real, started: real): real { if now <= started then 0.0 else 1000.0 * now - 1000.0 * started }

  function TextOf(h: seq<Seen>): string {
    if h == [] then ""
    else TextOf(h[..|h| - 1]) + if IsText(h[|h| - 1].frame) then h[|h| - 1].frame.text else ""
  }

  function Count(h: seq<Seen>, p: Frame -> bool): nat {
    if h == [] then 0 else Count(h[..|h| - 1], p) + if p(h[|h| - 1].frame) then 1 else 0
  }

  // When the first frame of a kind came.
  function First(h: seq<Seen>, p: Frame -> bool, started: real): Option<real> {
    if h == [] then None
    else if First(h[..|h| - 1], p, started).Some? then First(h[..|h| - 1], p, started)
    else if p(h[|h| - 1].frame) then Some(Elapsed(h[|h| - 1].now, started))
    else None
  }

  function Times(h: seq<Seen>, p: Frame -> bool): seq<real> {
    if h == [] then [] else Times(h[..|h| - 1], p) + if p(h[|h| - 1].frame) then [h[|h| - 1].now] else []
  }

  function Phases(h: seq<Seen>): seq<Phase> {
    if h == [] then []
    else
      var s := h[|h| - 1];
      Phases(h[..|h| - 1])
      + if s.frame.event == ProviderActivity && !Malformed(s.frame) then
          [Phase(s.frame.phase, s.now, Stamp(s.frame.emittedAt), s.frame.heartbeat)]
        else []
  }

  function Tools(h: seq<Seen>): set<string> {
    if h == [] then {} else Tools(h[..|h| - 1]) + if IsTool(h[|h| - 1].frame) then {h[|h| - 1].frame.toolId} else {}
  }

  // The latency a reasoning pulse reports, when it says both when it started and when it
  // was emitted; zero says neither.
  function Reported(f: Frame): Option<real> {
    var emitted, began := Stamp(f.emittedAt), Stamp(f.startedAt);
    if !IsPulse(f) || Malformed(f) || emitted == 0 || began == 0 then None
    else if emitted <= began then Some(0.0)
    else Some((emitted - began) as real)
  }

  predicate IsLatency(h: seq<Seen>, latency: Option<real>) {
    match latency
    case None => forall i :: 0 <= i < |h| ==> Reported(h[i].frame).None?
    case Some(x) =>
      && (exists i :: 0 <= i < |h| && Reported(h[i].frame) == Some(x))
      && (forall i :: 0 <= i < |h| && Reported(h[i].frame).Some? ==> x <= Reported(h[i].frame).value)
  }

  function LastTerminal(h: seq<Seen>): Option<Frame> {
    if h == [] then None
    else if IsTerminal(h[|h| - 1].frame) then Some(h[|h| - 1].frame)
    else LastTerminal(h[..|h| - 1])
  }

  lemma SuffixAppend(s: string, x: string, n: nat)
    requires n > 0
    ensures Suffix(Suffix(s, n) + x, n) == Suffix(s + x, n)
  {
  }

  lemma {:induction false} Utf8Append(s: string, x: string)
    ensures Utf8Bytes(s + x) == Utf8Bytes(s) + Utf8Bytes(x)
  {
    if x == "" {
      assert s + x == s;
    } else {
      assert (s + x)[..|s + x| - 1] == s + x[..|x| - 1];
      Utf8Append(s, x[..|x| - 1]);
    }
  }

  // What one more frame does to everything a history says.
  lemma Extends(h: seq<Seen>, s: Seen, started: real, latency: Option<real>)
    ensures TextOf(h + [s]) == if IsText(s.frame) then TextOf(h) + s.frame.text else TextOf(h)
    ensures Count(h + [s], IsText) == Count(h, IsText) + if IsText(s.frame) then 1 else 0
    ensures Count(h + [s], IsThought) == Count(h, IsThought) + if IsThought(s.frame) then 1 else 0
    ensures Count(h + [s], IsActivity) == Count(h, IsActivity) + if IsActivity(s.frame) then 1 else 0
    ensures Count(h + [s], IsCompaction) == Count(h, IsCompaction) + if IsCompaction(s.frame) then 1 else 0
    ensures First(h + [s], IsText, started)
      == if First(h, IsText, started).None? && IsText(s.frame) then Some(Elapsed(s.now, started))
         else First(h, IsText, started)
    ensures First(h + [s], IsReasoning, started)
      == if First(h, IsReasoning, started).None? && IsReasoning(s.frame) then Some(Elapsed(s.now, started))
         else First(h, IsReasoning, started)
    ensures Times(h + [s], IsPulse) == if IsPulse(s.frame) then Times(h, IsPulse) + [s.now] else Times(h, IsPulse)
    ensures Phases(h + [s])
      == if IsActivity(s.frame) && !Malformed(s.frame) then
           Phases(h) + [Phase(s.frame.phase, s.now, Stamp(s.frame.emittedAt), s.frame.heartbeat)]
         else Phases(h)
    ensures Tools(h + [s]) == if IsTool(s.frame) then Tools(h) + {s.frame.toolId} else Tools(h)
    ensures LastTerminal(h + [s]) == if IsTerminal(s.frame) then Some(s.frame) else LastTerminal(h)
    ensures IsLatency(h, latency) ==> IsLatency(h + [s], Lower(latency, Reported(s.frame)))
  {
    assert (h + [s])[..|h|] == h;
    if IsLatency(h, latency) { LatencyExtends(h, s, latency); }
    hide IsLatency, Lower, Reported;
  }

  // ---------------------------------------------------------------- the observer

  function Max0(x: real): real { if x < 0.0 then 0.0 else x }

  lemma Milliseconds(now: real, started: real)
    ensures Max0((now - started) * 1000.0) == Elapsed(now, started)
  {
  }

  class TurnObservation {
    const session: string
    const marker: string
    const started: real
    var terminal: Option<EventName>
    var terminalReason: string
    var textBytes: nat
    var textChunks: nat
    var markerSeen: bool
    var thinkingChunks: nat
    var toolIds: set<string>
    var activityEvents: nat
    var activityPhases: seq<Phase>
    var reasoningPulses: seq<real>
    var firstReasoning: Option<real>
    var firstToken: Option<real>
    var activityLatency: Option<real>
    var compactions: nat
    var markerTail: string
    ghost var history: seq<Seen>

    // Every field is what the accepted frames make it.
    ghost predicate Valid()
      reads this
    {
      && markerTail == Suffix(TextOf(history), TAIL_CHARS)
      && textBytes == Utf8Bytes(TextOf(history))
      && textChunks == Count(history, IsText)
      && markerSeen == (textChunks > 0 && Contains(markerTail, marker))
      && firstToken == First(history, IsText, started)
      && Thoughts()
      && Activity()
      && toolIds == Tools(history)
      && compactions == Count(history, IsCompaction)
      && (match LastTerminal(history)
          case None => terminal.None?
          case Some(f) => terminal == Some(f.event) && terminalReason == f.reason)
    }

    ghost predicate Thoughts()
      reads this
    {
      && thinkingChunks == Count(history, IsThought)
      && firstReasoning == First(history, IsReasoning, started)
    }

    ghost predicate Activity()
      reads this
    {
      && activityEvents == Count(history, IsActivity)
      && activityPhases == Phases(history)
      && reasoningPulses == Times(history, IsPulse)
      && IsLatency(history, activityLatency)
    }

    constructor (session: string, marker: string, started: real)
      ensures Valid() && history == []
      ensures this.session == session && this.marker == marker && this.started == started
    {
      this.session, this.marker, this.started := session, marker, started;
      terminal, terminalReason, textBytes, textChunks, markerSeen := None, "", 0, 0, false;
      thinkingChunks, toolIds, activityEvents, activityPhases, reasoningPulses := 0, {}, 0, [], [];
      firstReasoning, firstToken, activityLatency, compactions, markerTail := None, None, None, 0, "";
      history := [];
    }

    // A frame of another session changes nothing; one with a bad integer raises before
    // anything is changed.
    method Consume(frame: Frame, now: real) returns (raised: bool)
      requires Valid()
      modifies this
      ensures Valid()
      ensures raised <==> !Foreign(frame, session) && Malformed(frame)
      ensures history ==
        if Foreign(frame, session) || Malformed(frame) then old(history) else old(history) + [Seen(frame, now)]
      ensures Foreign(frame, session) || Malformed(frame) ==>
        && terminal == old(terminal) && terminalReason == old(terminalReason)
        && textBytes == old(textBytes) && textChunks == old(textChunks) && markerSeen == old(markerSeen)
        && thinkingChunks == old(thinkingChunks) && toolIds == old(toolIds)
        && activityEvents == old(activityEvents) && activityPhases == old(activityPhases)
        && reasoningPulses == old(reasoningPulses) && firstReasoning == old(firstReasoning)
        && firstToken == old(firstToken) && activityLatency == old(activityLatency)
        && compactions == old(compactions) && markerTail == old(markerTail)
    {
      raised := false;
      if frame.session != "" && frame.session != session { return; }
      if frame.event == TextDelta {
        ConsumeText(frame, now);
      } else if frame.event == Thinking {
        ConsumeThought(frame, now);
      } else if frame.event == ToolUse || frame.event == ToolUseDelta {
        ConsumeTool(frame, now);
      } else if frame.event == ProviderActivity {
        if BadInt(frame.emittedAt) || BadInt(frame.startedAt) { return true; }
        ConsumeActivity(frame, now);
      } else if frame.event == Compaction {
        ConsumeCompaction(frame, now);
      } else {
        ConsumeOther(frame, now);
      }
    }

    // The text_delta branch.
    method ConsumeText(frame: Frame, now: real)
      requires Valid() && frame.event == TextDelta
      modifies `textBytes, `textChunks, `firstToken, `markerTail, `markerSeen, `history
      ensures Valid() && history == old(history) + [Seen(frame, now)]
    {
      hide TextOf, Count, First, Times, Phases, Tools, LastTerminal, IsLatency, Contains, Utf8Bytes, Suffix, Elapsed,
        Max0;
      Extends(history, Seen(frame, now), started, activityLatency);
      if frame.text != "" {
        Utf8Append(TextOf(history), frame.text);
        SuffixAppend(TextOf(history), frame.text, TAIL_CHARS);
        Milliseconds(now, started);
        ObserveText(frame.text, Max0((now - started) * 1000.0));
      } else {
        assert !IsText(frame);
      }
      history := history + [Seen(frame, now)];
    }

    method ObserveText(text: string, elapsed: real)
      modifies `textBytes, `textChunks, `firstToken, `markerTail, `markerSeen
      ensures textBytes == old(textBytes) + Utf8Bytes(text)
      ensures textChunks == old(textChunks) + 1
      ensures firstToken == if old(firstToken).None? then Some(elapsed) else old(firstToken)
      ensures markerTail == Suffix(old(markerTail) + text, TAIL_CHARS)
      ensures markerSeen == Contains(markerTail, marker)
    {
      textBytes := textBytes + Utf8Bytes(text);
      textChunks := textChunks + 1;
      if firstToken.None? { firstToken := Some(elapsed); }
      markerTail := Suffix(markerTail + text, TAIL_CHARS);
      markerSeen := Contains(markerTail, marker);
    }

    // The thinking branch.
    method ConsumeThought(frame: Frame, now: real)
      requires Valid() && frame.event == Thinking
      modifies `thinkingChunks, `firstReasoning, `history
      ensures Valid() && history == old(history) + [Seen(frame, now)]
    {
      var elapsed := Max0((now - started) * 1000.0);
      Milliseconds(now, started);
      hide Max0, Elapsed;
      Extends(history, Seen(frame, now), started, activityLatency);
      hide TextOf, Count, First, Times, Phases, Tools, LastTerminal, IsLatency, Contains, Utf8Bytes, Suffix, BadInt,
        IntOr0;
      if frame.text != "" {
        thinkingChunks := thinkingChunks + 1;
        if firstReasoning.None? { firstReasoning := Some(elapsed); }
      }
      history := history + [Seen(frame, now)];
    }

    // The tool_use branch.
    method ConsumeTool(frame: Frame, now: real)
      requires Valid() && (frame.event == ToolUse || frame.event == ToolUseDelta)
      modifies `toolIds, `history
      ensures Valid() && history == old(history) + [Seen(frame, now)]
    {
      Extends(history, Seen(frame, now), started, activityLatency);
      hide TextOf, Count, First, Times, Phases, Tools, LastTerminal, IsLatency, Contains, Utf8Bytes, Suffix, BadInt,
        IntOr0;
      if frame.toolId != "" { toolIds := toolIds + {frame.toolId}; }
      history := history + [Seen(frame, now)];
    }

    // The compaction branch.
    method ConsumeCompaction(frame: Frame, now: real)
      requires Valid() && frame.event == Compaction
      modifies `compactions, `history
      ensures Valid() && history == old(history) + [Seen(frame, now)]
    {
      Extends(history, Seen(frame, now), started, activityLatency);
      hide TextOf, Count, First, Times, Phases, Tools, LastTerminal, IsLatency, Contains, Utf8Bytes, Suffix, BadInt,
        IntOr0;
      if frame.compacted { compactions := compactions + 1; }
      history := history + [Seen(frame, now)];
    }

    // A terminal event, or one the observer knows nothing about.
    method ConsumeOther(frame: Frame, now: real)
      requires Valid() && frame.event in {Done, Error, Other}
      modifies `terminal, `terminalReason, `history
      ensures Valid() && history == old(history) + [Seen(frame, now)]
    {
      Extends(history, Seen(frame, now), started, activityLatency);
      hide TextOf, Count, First, Times, Phases, Tools, LastTerminal, IsLatency, Contains, Utf8Bytes, Suffix, BadInt,
        IntOr0;
      if frame.event == Done || frame.event == Error {
        terminal := Some(frame.event);
        terminalReason := frame.reason;
      }
      history := history + [Seen(frame, now)];
    }

    // The provider_activity branch.
    method ConsumeActivity(frame: Frame, now: real)
      requires Valid() && IsActivity(frame) && !Malformed(frame)
      modifies `activityEvents, `activityPhases, `reasoningPulses, `firstReasoning, `activityLatency, `history
      ensures Valid() && history == old(history) + [Seen(frame, now)]
    {
      Extends(history, Seen(frame, now), started, activityLatency);
      hide TextOf, Count, First, Times, Phases, Tools, LastTerminal, IsLatency, Contains, Utf8Bytes, Suffix, BadInt,
        IntOr0, Reported;
      Milliseconds(now, started);
      hide Max0, Elapsed;
      ObserveActivity(frame, now, Max0((now - started) * 1000.0));
      history := history + [Seen(frame, now)];
    }

    method ObserveActivity(frame: Frame, now: real, elapsed: real)
      requires IsActivity(frame) && !Malformed(frame)
      modifies `activityEvents, `activityPhases, `reasoningPulses, `firstReasoning, `activityLatency
      ensures activityEvents == old(activityEvents) + 1
      ensures activityPhases ==
        old(activityPhases) + [Phase(frame.phase, now, Stamp(frame.emittedAt), frame.heartbeat)]
      ensures reasoningPulses == if IsPulse(frame) then old(reasoningPulses) + [now] else old(reasoningPulses)
      ensures firstReasoning ==
        if IsPulse(frame) && old(firstReasoning).None? then Some(elapsed) else old(firstReasoning)
      ensures activityLatency == Lower(old(activityLatency), Reported(frame))
    {
      var emitted, began := IntOr0(frame.emittedAt), IntOr0(frame.startedAt);
      activityEvents := activityEvents + 1;
      activityPhases := activityPhases + [Phase(frame.phase, now, emitted, frame.heartbeat)];
      if frame.phase == "reasoning" {
        reasoningPulses := reasoningPulses + [now];
        if firstReasoning.None? { firstReasoning := Some(elapsed); }
        if emitted != 0 && began != 0 {
          var candidate := Max0((emitted - began) as real);
          if activityLatency.None? {
            activityLatency := Some(candidate);
          } else if candidate < activityLatency.value {
            activityLatency := Some(candidate);
          }
        }
      }
    }
  }

  // ---------------------------------------------------------------- what follows

  // The lower of two latencies, where there are any.
  function Lower(a: Option<real>, b: Option<real>): Option<real> {
    if a.None? then b else if b.None? then a else if b.value < a.value then b else a
  }

  lemma LatencyExtends(h: seq<Seen>, s: Seen, latency: Option<real>)
    requires IsLatency(h, latency)
    ensures IsLatency(h + [s], Lower(latency, Reported(s.frame)))
  {
    var g := h + [s];
    assert g[|h|] == s;
    forall i | 0 <= i < |h| ensures g[i] == h[i] { }
    var lower := Lower(latency, Reported(s.frame));
    if lower.Some? {
      if latency.Some? && lower == latency {
        var i :| 0 <= i < |h| && Reported(h[i].frame) == latency;
        assert Reported(g[i].frame) == lower;
      } else {
        assert Reported(g[|h|].frame) == lower;
      }
    }
  }

  // The flag says that the marker occurs in all the text so far, no further back than
  // the tail reaches.
  lemma MarkerInTail(text: string, marker: string, n: nat)
    requires n > 0
    ensures Contains(Suffix(text, n), marker)
      <==> exists i {:trigger OccursAt(text, marker, i)} :: |text| - n <= i <= |text| && OccursAt(text, marker, i)
  {
    var tail := Suffix(text, n);
    var from := |text| - |tail|;
    assert tail == text[from..|text|];
    if Contains(tail, marker) {
      var i :| 0 <= i <= |tail| && OccursAt(tail, marker, i);
      OccursInPart(text, marker, from, |text|, from + i);
    }
    if i :| |text| - n <= i <= |text| && OccursAt(text, marker, i) {
      OccursInPart(text, marker, from, |text|, i);
    }
  }

  // So it can fall back: enough further text without the marker pushes it out, and less
  // does not.
  lemma MarkerScrollsOut(text: string, marker: string, more: string)
    requires |more| >= 1024 && !Contains(more, marker)
    ensures !Contains(Suffix(text + more, TAIL_CHARS), marker)
  {
    var all := text + more;
    assert all[|text|..|all|] == more;
    MarkerInTail(all, marker, TAIL_CHARS);
    forall i | |all| - TAIL_CHARS <= i <= |all| ensures !OccursAt(all, marker, i) {
      if i + |marker| <= |all| { OccursInPart(all, marker, |text|, |all|, i); }
    }
  }

  lemma MarkerStaysSeen(text: string, marker: string, more: string)
    requires |marker| + |more| <= 1024
    ensures Contains(Suffix(text + marker + more, TAIL_CHARS), marker)
  {
    var all := text + marker + more;
    MarkerInTail(all, marker, TAIL_CHARS);
    assert all[|text|..|text| + |marker|] == marker;
    assert OccursAt(all, marker, |text|);
  }

  lemma {:induction false} PulsesAreActivity(h: seq<Seen>)
    ensures |Times(h, IsPulse)| <= Count(h, IsActivity)
  {
    if h != [] { PulsesAreActivity(h[..|h| - 1]); }
  }

  // Whatever comes later, the first of a kind stays the first.
  lemma {:induction false} FirstIsKept(h: seq<Seen>, more: seq<Seen>, p: Frame -> bool, started: real)
    requires First(h, p, started).Some?
    ensures First(h + more, p, started) == First(h, p, started)
  {
    if more == [] {
      assert h + more == h;
    } else {
      var init := more[..|more| - 1];
      FirstIsKept(h, init, p, started);
      assert (h + more)[..|h + more| - 1] == h + init;
    }
  }

  // ---------------------------------------------------------------- reasoning gaps

  // _max_reasoning_gap_ms: the longest wait between two pulses, 0 for fewer than two.
  function MaxGap(times: seq<real>): (gap: real)
    ensures |times| < 2 ==> gap == 0.0
    ensures forall i :: 0 <= i < |times| - 1 ==> (times[i + 1] - times[i]) * 1000.0 <= gap
    ensures |times| >= 2 ==> exists i :: 0 <= i < |times| - 1 && gap == (times[i + 1] - times[i]) * 1000.0
  {
    if |times| < 2 then 0.0
    else
      var n := |times|;
      var last := (times[n - 1] - times[n - 2]) * 1000.0;
      if n == 2 then last
      else
        var before := MaxGap(times[..n - 1]);
        assert forall i :: 0 <= i < n - 2 ==> times[..n - 1][i + 1] - times[..n - 1][i] == times[i + 1] - times[i];
        if before < last then last else before
  }
}
