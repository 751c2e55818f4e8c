// The deterministic consent normalizer of the short-drama workflow. What its regular
// expressions recognise in a reply is a parameter; everything it makes of that is here.
module ReviewNormalizer {
  import opened Texts

  // How the classifiers read a cleaned reply. shotCount is 0 where no count is found.
  datatype Reader = Reader(
    emptySentinel: string -> bool,
    refusesTransfer: string -> bool,
    cancels: string -> bool,
    defers: string -> bool,
    approves: string -> bool,
    adjusts: string -> bool,
    shotCount: string -> nat)

  datatype Decision = Proceed | Hold | Cancel | Revise

  datatype Basis =
    | UnclearOrOffTopic | ExternalTransferRefused | ExplicitCancel | GenerationDeferred
    | ExplicitApproval | MeaningfulAdjustment | RevisionConfirmationRequired
    | ExplicitApprovalAfterRevision | ExplicitApprovalAfterScriptSnapshotChange

  datatype Block = Block(decision: Decision, basis: Basis, notes: string, shotCount: string)

  datatype Frozen = Script(text: string) | NoFinalDecision | EmptyScript | TooLong

  const UNCHANGED := "unchanged"
  const MAX_SCRIPT_BYTES := 200000

  // ---------------------------------------------------------------- cleaning a reply

  function Blanked(s: string): string {
    seq(|s|, i requires 0 <= i < |s| =>
      if s[i] <= '\U{1F}' || '\U{7F}' <= s[i] <= '\U{9F}' then ' ' else s[i])
  }

  function Collapsed(s: string): string
    decreases |s|
  {
    if s == "" then ""
    else if IsSpace(s[0]) then
      StripLeftIsSuffix(s[1..]);
      " " + Collapsed(StripLeft(s[1..]))
    else [s[0]] + Collapsed(s[1..])
  }

  function Take(s: string, n: nat): string { if |s| <= n then s else s[..n] }

  function CleanReview(s: string): string { Take(Strip(Collapsed(Blanked(s))), 4000) }

  lemma {:induction false} CollapsedSpaces(s: string)
    ensures forall c <- Collapsed(s) :: IsSpace(c) ==> c == ' '
    decreases |s|
  {
    if s != "" {
      StripLeftIsSuffix(s[1..]);
      if IsSpace(s[0]) { CollapsedSpaces(StripLeft(s[1..])); } else { CollapsedSpaces(s[1..]); }
    }
  }

  // A cleaned reply is one line and starts with something visible, so nothing the user
  // writes can start a line of the block it is quoted in.
  lemma CleanIsOneLine(s: string)
    ensures OneLine(CleanReview(s))
    ensures CleanReview(s) != "" ==> !IsSpace(CleanReview(s)[0])
  {
    CollapsedSpaces(Blanked(s));
    StripTrims(Collapsed(Blanked(s)));
    var r := CleanReview(s);
    forall c | c in r ensures !IsLineBreak(c) {
      assert c in Strip(Collapsed(Blanked(s)));
    }
  }

  lemma WordsTail(s: string)
    requires IsWord(s) && s != ""
    ensures IsWord(s[1..]) && !IsSpace(s[0])
  {
    assert s[0] in s;
    assert forall c <- s[1..] :: c in s;
  }

  lemma {:induction false} CollapsedWord(s: string)
    requires IsWord(s)
    ensures Collapsed(s) == s
    decreases |s|
  {
    if s != "" {
      WordsTail(s);
      hide IsWord;
      CollapsedWord(s[1..]);
      assert s == [s[0]] + s[1..];
    }
  }

  // A word is a reply as it stands.
  lemma WordIsClean(s: string)
    requires IsWord(s) && |s| <= 4000
    ensures CleanReview(s) == s
  {
    assert forall i :: 0 <= i < |s| ==> s[i] in s;
    assert Blanked(s) == s;
    CollapsedWord(s);
    WordsArePlain(s);
    StripTrims(s);
    hide Blanked, Collapsed, Strip;
  }

  lemma {:induction false} CollapsedText(word: string, s: string)
    requires forall c <- word :: !IsSpace(c)
    ensures Collapsed(word + s) == word + Collapsed(s)
  {
    if word == "" {
      assert word + s == s;
    } else {
      assert word[0] in word && forall c <- word[1..] :: c in word;
      assert (word + s)[1..] == word[1..] + s;
      CollapsedText(word[1..], s);
      hide IsSpace;
      assert [word[0]] + (word[1..] + Collapsed(s)) == word + Collapsed(s);
    }
  }

  lemma BlankedWords(a: string, b: string)
    requires IsWord(a) && IsWord(b)
    ensures Blanked(a + "\n" + b) == a + (" " + b)
  {
    assert forall i :: 0 <= i < |a| ==> a[i] in a;
    assert forall i :: 0 <= i < |b| ==> b[i] in b;
  }

  lemma CollapsedWords(a: string, b: string)
    requires IsWord(a) && IsWord(b)
    ensures Collapsed(a + (" " + b)) == a + (" " + b)
  {
    WordsArePlain(a);
    WordsArePlain(b);
    CollapsedText(a, " " + b);
    CollapsedWord(b);
    hide IsSpace, IsWord;
    assert (" " + b)[1..] == b;
    assert IsSpace(' ') by { BlankIsSpace(); }
    assert StripLeft(b) == b;
  }

  lemma BlankIsSpace()
    ensures IsSpace(' ')
  {
  }

  // Two words on two lines are cleaned to two words on one.
  lemma WordsAreClean(a: string, b: string)
    requires IsWord(a) && IsWord(b) && a != "" && b != "" && |a| + |b| < 4000
    ensures CleanReview(a + "\n" + b) == a + (" " + b)
  {
    var line := a + (" " + b);
    BlankedWords(a, b);
    CollapsedWords(a, b);
    WordsArePlain(a);
    WordsArePlain(b);
    assert line[0] == a[0] && line[|line| - 1] == b[|b| - 1];
    assert a[0] in a && b[|b| - 1] in b;
    hide Blanked, Collapsed, Strip, IsWord, IsSpace;
    StripTrims(line);
  }

  // ---------------------------------------------------------------- decisions

  predicate IsEmpty(w: Reader, text: string) { text == "" || w.emptySentinel(text) }

  function ShotCountText(n: nat): string {
    if n == 10 then "10" else if 1 <= n <= 9 then ['0' + n as char] else UNCHANGED
  }

  function Plain(d: Decision, b: Basis): Block { Block(d, b, UNCHANGED, UNCHANGED) }

  function InitialReview(w: Reader, review: string): Block {
    if IsEmpty(w, review) then Plain(Hold, UnclearOrOffTopic)
    else if w.refusesTransfer(review) then Plain(Hold, ExternalTransferRefused)
    else if w.cancels(review) then Plain(Cancel, ExplicitCancel)
    else if w.defers(review) then Plain(Hold, GenerationDeferred)
    else if w.approves(review) then Plain(Proceed, ExplicitApproval)
    else if w.adjusts(review) then
      Block(Revise, MeaningfulAdjustment, Take(review, 1000), ShotCountText(w.shotCount(review)))
    else Plain(Hold, UnclearOrOffTopic)
  }

  function RevisionConfirmation(w: Reader, confirmation: string, revision: string, basis: Basis): Block {
    if IsEmpty(w, confirmation) then Plain(Hold, RevisionConfirmationRequired)
    else if w.refusesTransfer(confirmation) then Plain(Hold, ExternalTransferRefused)
    else if w.cancels(confirmation) then Plain(Cancel, ExplicitCancel)
    else if w.defers(confirmation) then Plain(Hold, GenerationDeferred)
    else if !w.approves(confirmation) then Plain(Hold, RevisionConfirmationRequired)
    else Block(Proceed, basis, Take(revision, 1000), ShotCountText(w.shotCount(revision)))
  }

  // The default phase.
  function DraftReview(w: Reader, review: string): Block { InitialReview(w, CleanReview(review)) }

  // The media_approval phase.
  function MediaApproval(w: Reader, review: string, confirmation: string, changed: bool): Block {
    var initial := DraftReview(w, review);
    if initial.decision == Revise then
      RevisionConfirmation(w, CleanReview(confirmation), CleanReview(review), ExplicitApprovalAfterRevision)
    else if initial.decision == Proceed && changed then
      RevisionConfirmation(w, CleanReview(confirmation), UNCHANGED, ExplicitApprovalAfterScriptSnapshotChange)
    else initial
  }

  // The reply is a standalone approval: no refusal, cancellation or postponement in it.
  predicate Approves(w: Reader, reply: string) {
    var text := CleanReview(reply);
    !IsEmpty(w, text) && !w.refusesTransfer(text) && !w.cancels(text) && !w.defers(text) && w.approves(text)
  }

  predicate AsksForChanges(w: Reader, reply: string) {
    var text := CleanReview(reply);
    && !IsEmpty(w, text) && !w.refusesTransfer(text) && !w.cancels(text) && !w.defers(text)
    && !w.approves(text) && w.adjusts(text)
  }

  // A second approval is due after a requested edit, and after an approval of a draft
  // that is no longer what is on disk.
  predicate NeedsConfirmation(w: Reader, review: string, changed: bool) {
    AsksForChanges(w, review) || (Approves(w, review) && changed)
  }

  // The reply cancels, and does not refuse the transfer as well.
  predicate Withdraws(w: Reader, reply: string) {
    var text := CleanReview(reply);
    !IsEmpty(w, text) && !w.refusesTransfer(text) && w.cancels(text)
  }

  // Cancelling is told apart from holding by the reply that counts, and a refused
  // transfer is always named as the reason.
  lemma CancellingIsExplicit(w: Reader, review: string, confirmation: string, changed: bool)
    ensures
      var b := MediaApproval(w, review, confirmation, changed);
      var reply := if NeedsConfirmation(w, review, changed) then confirmation else review;
      && (b.decision == Cancel <==> Withdraws(w, reply))
      && (b.basis == ExternalTransferRefused
          <==> !IsEmpty(w, CleanReview(reply)) && w.refusesTransfer(CleanReview(reply)))
      && (b.decision == Hold <==> !Withdraws(w, reply) && !Approves(w, reply))
  {
    hide CleanReview, Take, ShotCountText;
  }

  lemma ApprovalIsExplicit(w: Reader, review: string, confirmation: string, changed: bool)
    ensures MediaApproval(w, review, confirmation, changed).decision != Revise
    ensures MediaApproval(w, review, confirmation, changed).decision == Proceed
      <==> if NeedsConfirmation(w, review, changed) then Approves(w, confirmation) else Approves(w, review)
    ensures DraftReview(w, review).decision == Proceed <==> Approves(w, review)
    ensures DraftReview(w, review).decision == Revise <==> AsksForChanges(w, review)
  {
  }

  // ---------------------------------------------------------------- the block as text

  datatype Key = DECISION | CONSENT_BASIS | HAS_OVERRIDES | NEW_RENDER_STYLE | NEW_IDENTITY_ANCHOR | NEW_N_SHOTS
    | NEW_NOTES

  function KeyText(k: Key): string {
    match k
    case DECISION => "DECISION"
    case CONSENT_BASIS => "CONSENT_BASIS"
    case HAS_OVERRIDES => "HAS_OVERRIDES"
    case NEW_RENDER_STYLE => "NEW_RENDER_STYLE"
    case NEW_IDENTITY_ANCHOR => "NEW_IDENTITY_ANCHOR"
    case NEW_N_SHOTS => "NEW_N_SHOTS"
    case NEW_NOTES => "NEW_NOTES"
  }

  function DecisionText(d: Decision): string {
    match d
    case Proceed => "proceed"
    case Hold => "hold"
    case Cancel => "cancel"
    case Revise => "revise"
  }

  function BasisText(b: Basis): string {
    match b
    case UnclearOrOffTopic => "unclear_or_off_topic"
    case ExternalTransferRefused => "external_transfer_refused"
    case ExplicitCancel => "explicit_cancel"
    case GenerationDeferred => "generation_deferred"
    case ExplicitApproval => "explicit_approval"
    case MeaningfulAdjustment => "meaningful_adjustment"
    case RevisionConfirmationRequired => "revision_confirmation_required"
    case ExplicitApprovalAfterRevision => "explicit_approval" + "_after_revision"
    case ExplicitApprovalAfterScriptSnapshotChange => "explicit_approval" + "_after_script_snapshot_change"
  }

  predicate HasOverrides(b: Block) { b.decision in {Proceed, Revise} && b.notes != UNCHANGED }

  function Value(b: Block, k: Key): string {
    match k
    case DECISION => DecisionText(b.decision)
    case CONSENT_BASIS => BasisText(b.basis)
    case HAS_OVERRIDES => if HasOverrides(b) then "yes" else "no"
    case NEW_RENDER_STYLE => UNCHANGED
    case NEW_IDENTITY_ANCHOR => UNCHANGED
    case NEW_N_SHOTS => if HasOverrides(b) then b.shotCount else UNCHANGED
    case NEW_NOTES => if HasOverrides(b) then b.notes else UNCHANGED
  }

  const KEYS := [DECISION, CONSENT_BASIS, HAS_OVERRIDES, NEW_RENDER_STYLE, NEW_IDENTITY_ANCHOR, NEW_N_SHOTS, NEW_NOTES]

  function Line(b: Block, k: Key): string { KeyText(k) + [':'] + (" " + Value(b, k)) }

  function BlockLines(b: Block): seq<string> { seq(|KEYS|, i requires 0 <= i < |KEYS| => Line(b, KEYS[i])) }

  // _block
  function BlockText(b: Block): string { Join(BlockLines(b)) }

  // What the scheduler keeps of the process's output.
  function Emitted(b: Block): string { Canon(BlockText(b) + "\n") }

  // "DECISION: proceed" in output, and the like
  predicate Says(output: string, d: Decision) {
    Contains(output, Marker(d))
  }

  function Marker(d: Decision): string { "DECISION" + [':'] + (" " + DecisionText(d)) }

  // A block the normalizer produces: the user's words are quoted on one line.
  predicate Quotes(b: Block) {
    && OneLine(b.notes) && b.notes != "" && !IsSpace(b.notes[0])
    && IsWord(b.shotCount) && b.shotCount != ""
  }

  lemma ShotCountIsWord(n: nat)
    ensures IsWord(ShotCountText(n)) && ShotCountText(n) != ""
    ensures IsWord(UNCHANGED) && OneLine(UNCHANGED) && !IsSpace(UNCHANGED[0])
  {
    WordsArePlain(UNCHANGED);
    if 1 <= n <= 9 { assert '0' < '0' + n as char <= '9'; }
  }

  lemma EveryBlockQuotes(w: Reader, review: string, confirmation: string, changed: bool)
    ensures Quotes(DraftReview(w, review))
    ensures Quotes(MediaApproval(w, review, confirmation, changed))
  {
    hide Quotes, DraftReview, RevisionConfirmation;
    DraftQuotes(w, review);
    CleanIsOneLine(review);
    ShotCountIsWord(0);
    ReviewsDiffer(w, review);
    ConfirmationQuotes(w, CleanReview(confirmation), CleanReview(review), ExplicitApprovalAfterRevision);
    ConfirmationQuotes(w, CleanReview(confirmation), UNCHANGED, ExplicitApprovalAfterScriptSnapshotChange);
  }

  // A review that asks for changes is not empty.
  lemma ReviewsDiffer(w: Reader, review: string)
    ensures DraftReview(w, review).decision == Revise ==> CleanReview(review) != ""
  {
    hide CleanReview, Take, ShotCountText;
  }

  lemma DraftQuotes(w: Reader, review: string)
    ensures Quotes(DraftReview(w, review))
  {
    var text := CleanReview(review);
    CleanIsOneLine(review);
    hide CleanReview, ShotCountText, Take;
    ShotCountIsWord(w.shotCount(text));
    QuotedNotes(text);
  }

  lemma ConfirmationQuotes(w: Reader, confirmation: string, revision: string, basis: Basis)
    requires OneLine(revision) && (revision != "" ==> !IsSpace(revision[0]))
    ensures revision != "" ==> Quotes(RevisionConfirmation(w, confirmation, revision, basis))
  {
    hide ShotCountText, Take;
    ShotCountIsWord(w.shotCount(revision));
    QuotedNotes(revision);
  }

  lemma QuotedNotes(text: string)
    requires OneLine(text)
    ensures OneLine(Take(text, 1000))
    ensures text != "" ==> Take(text, 1000) != "" && Take(text, 1000)[0] == text[0]
  {
  }

  lemma KeyIsWord(k: Key)
    ensures IsWord(KeyText(k)) && KeyText(k) != ""
    ensures k != DECISION ==> KeyText(k)[|KeyText(k)| - 1] != 'N'
  {
  }

  lemma RefusalIsWord(b: Basis)
    requires b in {UnclearOrOffTopic, ExternalTransferRefused, ExplicitCancel, GenerationDeferred}
    ensures IsWord(BasisText(b)) && BasisText(b) != ""
  {
  }

  lemma RequestIsWord(b: Basis)
    requires b in {ExplicitApproval, MeaningfulAdjustment, RevisionConfirmationRequired}
    ensures IsWord(BasisText(b)) && BasisText(b) != ""
  {
  }

  lemma ConfirmationIsWord(b: Basis)
    requires b in {ExplicitApprovalAfterRevision, ExplicitApprovalAfterScriptSnapshotChange}
    ensures IsWord(BasisText(b)) && BasisText(b) != ""
  {
  }

  lemma BasisIsWord(b: Basis)
    ensures IsWord(BasisText(b)) && BasisText(b) != ""
  {
    hide BasisText;
    match b {
      case UnclearOrOffTopic | ExternalTransferRefused | ExplicitCancel | GenerationDeferred => RefusalIsWord(b);
      case ExplicitApproval | MeaningfulAdjustment | RevisionConfirmationRequired => RequestIsWord(b);
      case ExplicitApprovalAfterRevision | ExplicitApprovalAfterScriptSnapshotChange => ConfirmationIsWord(b);
    }
  }

  lemma DecisionIsWord(d: Decision)
    ensures IsWord(DecisionText(d)) && DecisionText(d) != ""
  {
  }

  lemma ValueIsPlain(b: Block, k: Key)
    requires Quotes(b)
    ensures OneLine(Value(b, k)) && Value(b, k) != "" && !IsSpace(Value(b, k)[0])
    ensures k != NEW_NOTES || !HasOverrides(b) ==> IsWord(Value(b, k))
  {
    BasisIsWord(b.basis);
    DecisionIsWord(b.decision);
    hide DecisionText, BasisText;
    if k != NEW_NOTES || !HasOverrides(b) {
      assert IsWord(Value(b, k));
      WordsArePlain(Value(b, k));
    }
  }

  // One decision word is never the beginning of another.
  lemma DecisionWordsDiffer(d: Decision, e: Decision)
    ensures StartsWith(" " + DecisionText(d), " " + DecisionText(e)) <==> d == e
  {
    if StartsWith(" " + DecisionText(d), " " + DecisionText(e)) {
      assert (" " + DecisionText(d))[1] == (" " + DecisionText(d))[..|" " + DecisionText(e)|][1]
        == (" " + DecisionText(e))[1];
    }
  }

  // A line says a decision only if it is the decision's own line; what follows
  // NEW_NOTES is the user's.
  lemma LineSays(b: Block, k: Key, d: Decision)
    requires Quotes(b) && (k != NEW_NOTES || !HasOverrides(b))
    ensures Contains(Line(b, k), Marker(d)) <==> k == DECISION && b.decision == d
  {
    var key, value, word := KeyText(k), " " + Value(b, k), " " + DecisionText(d);
    KeyIsWord(k);
    KeyIsWord(DECISION);
    DecisionIsWord(d);
    ValueIsPlain(b, k);
    DecisionWordsDiffer(b.decision, d);
    ContainsAroundSeparator(key, ':', value, "DECISION", word);
    if k != DECISION { LastCharsDiffer(key, "DECISION"); }
  }

  // The lines of the block as the scheduler keeps it: spaces that end the notes are gone.
  function KeptLines(b: Block): seq<string> {
    BlockLines(b)[6 := KeyText(NEW_NOTES) + [':'] + (" " + StripRight(Value(b, NEW_NOTES)))]
  }

  lemma LineIsOneLine(b: Block, k: Key)
    requires Quotes(b)
    ensures OneLine(Line(b, k)) && Line(b, k) != "" && !IsSpace(Line(b, k)[0])
  {
    KeyIsWord(k);
    ValueIsPlain(b, k);
    hide KeyText, Value;
  }

  lemma KeptLineIsOneLine(b: Block, i: int)
    requires Quotes(b) && 0 <= i < 7
    ensures OneLine(KeptLines(b)[i]) && KeptLines(b)[i] != ""
  {
    LineIsOneLine(b, KEYS[i]);
    ValueIsPlain(b, NEW_NOTES);
    StripRightIsPrefix(Value(b, NEW_NOTES));
    KeyIsWord(NEW_NOTES);
    hide Line, Value, StripRight;
  }

  lemma StripRightOfJoin(init: seq<string>, key: string, value: string)
    requires init != [] && value != "" && !IsSpace(value[0])
    ensures StripRight(Join(init + [key + value])) == Join(init + [key + StripRight(value)])
  {
    JoinLast(init, key + value);
    JoinLast(init, key + StripRight(value));
    var prefix := Join(init) + "\n" + key;
    assert Join(init) + "\n" + (key + value) == prefix + value;
    assert Join(init) + "\n" + (key + StripRight(value)) == prefix + StripRight(value);
    StripRightOfTail(prefix, value);
  }

  lemma EmittedIsJoined(b: Block)
    requires Quotes(b)
    ensures Emitted(b) == Join(KeptLines(b))
  {
    var lines, init := BlockLines(b), BlockLines(b)[..6];
    var key, value := KeyText(NEW_NOTES) + [':'] + " ", Value(b, NEW_NOTES);
    forall i | 0 <= i < 7 ensures OneLine(lines[i]) { LineIsOneLine(b, KEYS[i]); }
    LineIsOneLine(b, DECISION);
    ValueIsPlain(b, NEW_NOTES);
    assert Line(b, NEW_NOTES) == key + value;
    assert KeyText(NEW_NOTES) + [':'] + (" " + StripRight(value)) == key + StripRight(value);
    assert lines == init + [key + value];
    assert KeptLines(b) == init + [key + StripRight(value)];
    EmittedFrom(lines, init, key, value);
  }

  lemma EmittedFrom(lines: seq<string>, init: seq<string>, key: string, value: string)
    requires |init| > 1 && init[0] != "" && !IsSpace(init[0][0])
    requires lines == init + [key + value] && value != "" && !IsSpace(value[0])
    requires forall i :: 0 <= i < |lines| ==> OneLine(lines[i])
    ensures Canon(Join(lines) + "\n") == Join(init + [key + StripRight(value)])
  {
    var text := Join(lines);
    CanonOfEnd(text);
    NotInJoin(lines, '\r');
    NewlinesKept(text);
    assert text[0] == lines[0][0];
    StripRightOfJoin(init, key, value);
  }

  // The block says its own decision, and no other one unless the user's words do.
  lemma MarkerIsDecision(b: Block, d: Decision)
    requires Quotes(b)
    ensures Says(Emitted(b), b.decision)
    ensures !HasOverrides(b) ==> (Says(Emitted(b), d) <==> d == b.decision)
  {
    hide Emitted, Line, Marker, Quotes;
    SaysInLine(b, d);
    SaysInLine(b, b.decision);
    LineSays(b, DECISION, b.decision);
    assert KeptLines(b)[0] == Line(b, DECISION);
    if !HasOverrides(b) { PlainBlockSays(b, d); }
  }

  lemma SaysInLine(b: Block, d: Decision)
    requires Quotes(b)
    ensures Says(Emitted(b), d) <==> exists i :: 0 <= i < 7 && Contains(KeptLines(b)[i], Marker(d))
  {
    hide Emitted, Line, Marker, Quotes, Contains;
    EmittedIsJoined(b);
    MarkerIsOneLine(d);
    ContainsInJoin(KeptLines(b), Marker(d));
  }

  lemma PlainBlockSays(b: Block, d: Decision)
    requires Quotes(b) && !HasOverrides(b)
    ensures forall i :: 0 <= i < 7 ==> (Contains(KeptLines(b)[i], Marker(d)) <==> i == 0 && b.decision == d)
  {
    hide Emitted, Line, Marker, Quotes, Contains;
    PlainNotesKept(b);
    forall i | 0 <= i < 7
      ensures Contains(KeptLines(b)[i], Marker(d)) <==> i == 0 && b.decision == d
    {
      assert KeptLines(b)[i] == Line(b, KEYS[i]);
      LineSays(b, KEYS[i], d);
    }
  }

  lemma OverridesLine(b: Block)
    requires HasOverrides(b)
    ensures Line(b, HAS_OVERRIDES) == "HAS_OVERRIDES: yes"
  {
    hide HasOverrides;
    assert KeyText(HAS_OVERRIDES) + [':'] + (" " + "yes") == "HAS_OVERRIDES: yes";
  }

  // A block with notes says that it has overrides.
  lemma OverridesAreMarked(b: Block)
    requires Quotes(b) && HasOverrides(b)
    ensures Contains(Emitted(b), "HAS_OVERRIDES: yes")
  {
    hide Emitted, Line, Quotes, HasOverrides, Contains, KeptLines;
    var line := Line(b, HAS_OVERRIDES);
    OverridesLine(b);
    LineIsOneLine(b, HAS_OVERRIDES);
    EmittedIsJoined(b);
    assert |KeptLines(b)| == 7 && KeptLines(b)[2] == line by { KeptOverrides(b); }
    ContainsItself(line);
    ContainsInJoin(KeptLines(b), line);
  }

  lemma KeptOverrides(b: Block)
    ensures |KeptLines(b)| == 7 && KeptLines(b)[2] == Line(b, HAS_OVERRIDES)
  {
    hide Line;
  }

  lemma MarkerIsOneLine(d: Decision)
    ensures Marker(d) != "" && '\n' !in Marker(d)
  {
    DecisionIsWord(d);
    KeyIsWord(DECISION);
  }

  lemma PlainNotesKept(b: Block)
    requires !HasOverrides(b)
    ensures KeptLines(b) == BlockLines(b)
  {
    assert UNCHANGED[..|UNCHANGED|] == UNCHANGED;
  }

  // The guard of the paid steps is the decision, whatever the user wrote.
  lemma FinalMarker(w: Reader, review: string, confirmation: string, changed: bool)
    ensures
      var b := MediaApproval(w, review, confirmation, changed);
      Says(Emitted(b), Proceed) <==> b.decision == Proceed
  {
    var b := MediaApproval(w, review, confirmation, changed);
    EveryBlockQuotes(w, review, confirmation, changed);
    MarkerIsDecision(b, Proceed);
    hide Emitted, Says, Quotes;
  }

  lemma DraftMarkers(w: Reader, review: string)
    ensures
      var b := DraftReview(w, review);
      && (Says(Emitted(b), Revise) <==> b.decision == Revise)
      && (b.decision != Revise ==> (Says(Emitted(b), Proceed) <==> b.decision == Proceed))
  {
    var b := DraftReview(w, review);
    EveryBlockQuotes(w, review, review, false);
    MarkerIsDecision(b, Proceed);
    MarkerIsDecision(b, Revise);
    hide Emitted, Says, Quotes;
  }

  // ---------------------------------------------------------------- freezing the script

  function DecisionLines(lines: seq<string>): seq<string> {
    if lines == [] then []
    else (if StartsWith(lines[0], "DECISION: ") then [lines[0]] else []) + DecisionLines(lines[1..])
  }

  // The canonical_script_snapshot phase.
  function Freeze(approval: string, script: string): Frozen {
    var decisions := DecisionLines(Lines(approval));
    if |decisions| != 1 || decisions[0] !in {Marker(Proceed), Marker(Hold), Marker(Cancel)} then NoFinalDecision
    else if Strip(script) == "" then EmptyScript
    else if Utf8Bytes(script) > MAX_SCRIPT_BYTES then TooLong
    else Script(script)
  }

  lemma {:induction false} OnlyFirstDecides(lines: seq<string>)
    requires forall i :: 0 <= i < |lines| ==> lines[i] != "" && lines[i][0] != 'D'
    ensures DecisionLines(lines) == []
  {
    if lines != [] {
      FirstCharsDiffer(lines[0], "DECISION: ");
      OnlyFirstDecides(lines[1..]);
    }
  }

  lemma OneDecisionLine(b: Block)
    requires Quotes(b)
    ensures DecisionLines(Lines(Emitted(b))) == [Marker(b.decision)]
  {
    EmittedIsJoined(b);
    var lines := KeptLines(b);
    forall i | 0 <= i < 7 ensures OneLine(lines[i]) && lines[i] != "" { KeptLineIsOneLine(b, i); }
    LinesOfJoin(lines);
    forall i | 0 <= i < 6 ensures lines[1..][i] != "" && lines[1..][i][0] != 'D' { OtherLine(b, i + 1); }
    OnlyFirstDecides(lines[1..]);
    FirstLine(b);
    hide Emitted, KeptLines, Marker;
  }

  lemma OtherLine(b: Block, i: int)
    requires 1 <= i < 7
    ensures KeptLines(b)[i] != "" && KeptLines(b)[i][0] != 'D'
  {
    KeyIsWord(KEYS[i]);
    assert KeptLines(b)[i][0] == KeyText(KEYS[i])[0];
  }

  lemma FirstLine(b: Block)
    ensures KeptLines(b)[0] == Marker(b.decision)
    ensures StartsWith(Marker(b.decision), "DECISION: ")
  {
    assert Marker(b.decision) == "DECISION: " + DecisionText(b.decision);
  }

  // The block can be read back line by line: each field stands on a line of its own,
  // the user's words last and without the spaces that end them.
  lemma BlockReadsBack(b: Block, k: int)
    requires Quotes(b) && 0 <= k < 7
    ensures |Lines(Emitted(b))| == 7
    ensures Lines(Emitted(b))[k]
      == KeyText(KEYS[k]) + [':'] + (" " + if k == 6 then StripRight(Value(b, NEW_NOTES)) else Value(b, KEYS[k]))
  {
    EmittedIsJoined(b);
    forall i | 0 <= i < 7 ensures OneLine(KeptLines(b)[i]) && KeptLines(b)[i] != "" { KeptLineIsOneLine(b, i); }
    LinesOfJoin(KeptLines(b));
    hide Emitted, KeyText, Value, StripRight, Quotes;
  }

  // A final block always freezes, unless the script is blank or too long; a block that
  // still asks for a revision never does.
  lemma FreezeAcceptsFinalBlocks(w: Reader, review: string, confirmation: string, changed: bool, script: string)
    ensures
      Freeze(Emitted(MediaApproval(w, review, confirmation, changed)), script)
      == if Strip(script) == "" then EmptyScript
         else if Utf8Bytes(script) > 200000 then TooLong
         else Script(script)
    ensures DraftReview(w, review).decision == Revise
      ==> Freeze(Emitted(DraftReview(w, review)), script) == NoFinalDecision
  {
    EveryBlockQuotes(w, review, confirmation, changed);
    OneDecisionLine(MediaApproval(w, review, confirmation, changed));
    OneDecisionLine(DraftReview(w, review));
    ApprovalIsExplicit(w, review, confirmation, changed);
    MarkersDiffer(Revise, Proceed);
    MarkersDiffer(Revise, Hold);
    MarkersDiffer(Revise, Cancel);
    hide MediaApproval, DraftReview, Emitted, Marker, Quotes, Strip;
  }

  lemma MarkersDiffer(d: Decision, e: Decision)
    ensures Marker(d) == Marker(e) <==> d == e
  {
    if Marker(d) == Marker(e) {
      assert Marker(d)[9..] == " " + DecisionText(d) && Marker(e)[9..] == " " + DecisionText(e);
      var word := " " + DecisionText(d);
      assert word[..|word|] == word;
      DecisionWordsDiffer(d, e);
    }
  }
}
