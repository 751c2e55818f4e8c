// What the normalizer tells the workflow, line by line, in terms of the replies alone.
module ReviewBlocks {
  import opened Texts
  import opened ReviewNormalizer

  // The lines of a block, as the steps that read it find them.
  function SevenLines(decision: string, basis: string, overrides: string, shots: string, notes: string): seq<string> {
    ["DECISION: " + decision, "CONSENT_BASIS: " + basis, "HAS_OVERRIDES: " + overrides,
     "NEW_RENDER_STYLE: unchanged", "NEW_IDENTITY_ANCHOR: unchanged", "NEW_N_SHOTS: " + shots, "NEW_NOTES: " + notes]
  }

  function WithoutChanges(decision: string, basis: string): seq<string> {
    SevenLines(decision, basis, "no", "unchanged", "unchanged")
  }

  // With the number of shots that the reply asks for, and its first thousand characters;
  // a reply that says "unchanged" changes nothing.
  function WithChanges(w: Reader, decision: string, basis: string, reply: string): seq<string> {
    var text := CleanReview(reply);
    var notes := if |text| <= 1000 then text else text[..1000];
    var n := w.shotCount(text);
    if notes == "unchanged" then WithoutChanges(decision, basis)
    else SevenLines(decision, basis, "yes", if 1 <= n <= 10 then Digits(n) else "unchanged", StripRight(notes))
  }

  // ---------------------------------------------------------------- a cleaned reply

  // Control characters, and what else counts as space.
  predicate IsGap(c: char) { c as int < 32 || 127 <= c as int <= 159 || IsSpace(c) }

  // Words with something between them, and perhaps before and after.
  predicate AreWords(words: seq<string>, gaps: seq<string>) {
    && |gaps| == |words| + 1
    && (forall k :: 0 <= k < |words| ==> words[k] != "" && forall c <- words[k] :: !IsGap(c))
    && (forall k :: 0 <= k < |gaps| ==> forall c <- gaps[k] :: IsGap(c))
    && (forall k :: 0 < k < |words| ==> gaps[k] != "")
  }

  function Spread(words: seq<string>, gaps: seq<string>): string
    requires |gaps| == |words| + 1
  {
    if words == [] then gaps[0] else gaps[0] + (words[0] + Spread(words[1..], gaps[1..]))
  }

  // The words with one space between them.
  function Spaced(words: seq<string>): string {
    if words == [] then "" else if |words| == 1 then words[0] else words[0] + (" " + Spaced(words[1..]))
  }

  lemma GapBefore(c: char, words: seq<string>, gaps: seq<string>)
    requires AreWords(words, gaps) && IsGap(c)
    ensures
      var more := [[c] + gaps[0]] + gaps[1..];
      AreWords(words, more) && Spread(words, more) == [c] + Spread(words, gaps)
  {
    hide IsGap;
    var more := [[c] + gaps[0]] + gaps[1..];
    assert more[1..] == gaps[1..];
    if words != [] { assert [c] + (gaps[0] + (words[0] + Spread(words[1..], gaps[1..]))) == [c] + Spread(words, gaps); }
  }

  lemma LetterBefore(c: char, words: seq<string>, gaps: seq<string>)
    requires AreWords(words, gaps) && !IsGap(c) && words != [] && gaps[0] == ""
    ensures
      var more := [[c] + words[0]] + words[1..];
      AreWords(more, gaps) && Spread(more, gaps) == [c] + Spread(words, gaps)
  {
    hide IsGap;
    var more := [[c] + words[0]] + words[1..];
    var rest := Spread(words[1..], gaps[1..]);
    assert more[1..] == words[1..];
    assert gaps[0] + (([c] + words[0]) + rest) == [c] + (gaps[0] + (words[0] + rest));
  }

  lemma WordBefore(c: char, words: seq<string>, gaps: seq<string>)
    requires AreWords(words, gaps) && !IsGap(c) && (words != [] ==> gaps[0] != "")
    ensures AreWords([[c]] + words, [""] + gaps) && Spread([[c]] + words, [""] + gaps) == [c] + Spread(words, gaps)
  {
    hide IsGap;
    assert ([[c]] + words)[1..] == words && ([""] + gaps)[1..] == gaps;
    assert "" + ([c] + Spread(words, gaps)) == [c] + Spread(words, gaps);
  }

  // Every text is words and gaps.
  lemma {:induction false} WordsOf(s: string) returns (words: seq<string>, gaps: seq<string>)
    ensures AreWords(words, gaps) && s == Spread(words, gaps)
  {
    if s == "" {
      words, gaps := [], [""];
    } else {
      var w, g := WordsOf(s[1..]);
      assert |g| == |w| + 1 && s == [s[0]] + s[1..];
      hide IsGap, Spread, AreWords;
      if IsGap(s[0]) {
        GapBefore(s[0], w, g);
        words, gaps := w, [[s[0]] + g[0]] + g[1..];
      } else if w != [] && g[0] == "" {
        LetterBefore(s[0], w, g);
        words, gaps := [[s[0]] + w[0]] + w[1..], g;
      } else {
        WordBefore(s[0], w, g);
        words, gaps := [[s[0]]] + w, [""] + g;
      }
    }
  }

  lemma TailsAreWords(words: seq<string>, gaps: seq<string>)
    requires AreWords(words, gaps) && words != []
    ensures AreWords(words[1..], gaps[1..])
  {
    hide IsGap;
  }

  // Blanking touches the gaps alone.
  lemma {:induction false} BlankedSpread(words: seq<string>, gaps: seq<string>)
    requires AreWords(words, gaps)
    ensures |BlankedAll(gaps)| == |words| + 1 && Blanked(Spread(words, gaps)) == Spread(words, BlankedAll(gaps))
  {
    if words != [] {
      TailsAreWords(words, gaps);
      BlankedSpread(words[1..], gaps[1..]);
      assert BlankedAll(gaps)[1..] == BlankedAll(gaps[1..]);
      assert Blanked(words[0]) == words[0] by {
        assert forall k :: 0 <= k < |words[0]| ==> words[0][k] in words[0];
      }
      var rest := Spread(words[1..], gaps[1..]);
      hide IsGap, Spread, AreWords;
      BlankedBoth(words[0], rest);
      BlankedBoth(gaps[0], words[0] + rest);
    }
  }

  function BlankedAll(gaps: seq<string>): seq<string> {
    seq(|gaps|, k requires 0 <= k < |gaps| => Blanked(gaps[k]))
  }

  lemma BlankedBoth(a: string, b: string)
    ensures Blanked(a + b) == Blanked(a) + Blanked(b)
  {
  }

  lemma GapsAreBlanked(gap: string)
    requires forall c <- gap :: IsGap(c)
    ensures |Blanked(gap)| == |gap| && AllSpace(Blanked(gap))
  {
    forall i | 0 <= i < |gap| ensures IsSpace(Blanked(gap)[i]) { assert gap[i] in gap; }
  }

  function Lead(gap: string): string { if gap == "" then "" else " " }

  lemma CollapsedGap(gap: string, s: string)
    requires AllSpace(gap) && (s != "" ==> !IsSpace(s[0]))
    ensures Collapsed(gap + s) == Lead(gap) + Collapsed(s)
  {
    if gap == "" {
      assert gap + s == s;
    } else {
      assert gap[0] in gap && forall c <- gap[1..] :: c in gap;
      assert (gap + s)[1..] == gap[1..] + s;
      StripLeftOf(gap[1..], s);
    }
  }

  // Words between gaps of nothing but space.
  predicate AreSpaced(words: seq<string>, gaps: seq<string>) {
    && |gaps| == |words| + 1
    && (forall k :: 0 <= k < |words| ==> words[k] != "" && forall c <- words[k] :: !IsSpace(c))
    && (forall k :: 0 <= k < |gaps| ==> AllSpace(gaps[k]))
    && (forall k :: 0 < k < |words| ==> gaps[k] != "")
  }

  lemma BlankedAreSpaced(words: seq<string>, gaps: seq<string>)
    requires AreWords(words, gaps)
    ensures AreSpaced(words, BlankedAll(gaps)) && (BlankedAll(gaps)[|words|] == "" <==> gaps[|words|] == "")
  {
    forall k | 0 <= k < |gaps| ensures AllSpace(BlankedAll(gaps)[k]) && (BlankedAll(gaps)[k] == "" <==> gaps[k] == "") {
      GapsAreBlanked(gaps[k]);
    }
    hide Blanked, AllSpace;
  }

  lemma {:induction false} CollapsedSpread(words: seq<string>, gaps: seq<string>)
    requires AreSpaced(words, gaps)
    ensures
      Collapsed(Spread(words, gaps))
      == Lead(gaps[0]) + if words == [] then "" else Spaced(words) + Lead(gaps[|words|])
  {
    hide IsSpace, Collapsed, AllSpace;
    if words == [] {
      NothingCollapsed();
      CollapsedGap(gaps[0], "");
      assert gaps[0] + "" == gaps[0];
    } else {
      var rest := Spread(words[1..], gaps[1..]);
      assert words[0][0] in words[0];
      CollapsedGap(gaps[0], words[0] + rest);
      CollapsedText(words[0], rest);
      CollapsedSpread(words[1..], gaps[1..]);
    }
  }

  lemma NothingCollapsed()
    ensures Collapsed("") == ""
  {
  }

  lemma {:induction false} SpacedEnds(words: seq<string>)
    requires words != []
    requires forall k :: 0 <= k < |words| ==> words[k] != "" && forall c <- words[k] :: !IsSpace(c)
    ensures Spaced(words) != "" && !IsSpace(Spaced(words)[0]) && !IsSpace(Spaced(words)[|Spaced(words)| - 1])
  {
    hide IsSpace;
    var first := words[0];
    assert first[0] in first && first[|first| - 1] in first;
    if |words| > 1 { SpacedEnds(words[1..]); }
  }

  lemma LeadIsBlank(gap: string)
    ensures AllSpace(Lead(gap))
  {
  }

  // A cleaned reply is its words with one space between them, of at most 4000 characters.
  lemma CleanIsSpaced(words: seq<string>, gaps: seq<string>)
    requires AreWords(words, gaps)
    ensures
      var text := Spaced(words);
      CleanReview(Spread(words, gaps)) == if |text| <= 4000 then text else text[..4000]
  {
    var blanked, text := BlankedAll(gaps), Spaced(words);
    BlankedSpread(words, gaps);
    BlankedAreSpaced(words, gaps);
    CollapsedSpread(words, blanked);
    LeadIsBlank(blanked[0]);
    LeadIsBlank(blanked[|words|]);
    hide Blanked, Collapsed, AreWords, Spread, AllSpace, Lead, BlankedAll;
    if words == [] {
      StripLeftOf(Lead(blanked[0]), "");
      assert Lead(blanked[0]) + "" == Lead(blanked[0]);
      NothingStripped();
    } else {
      SpacedEnds(words);
      StripLeftOf(Lead(blanked[0]), text + Lead(blanked[|words|]));
      StripRightOfSpace(text, Lead(blanked[|words|]));
    }
    hide Spaced, IsSpace, StripLeft;
  }

  lemma NothingStripped()
    ensures StripRight("") == ""
  {
  }

  // ---------------------------------------------------------------- what a reply is

  predicate Refuses(w: Reader, reply: string) {
    !IsEmpty(w, CleanReview(reply)) && w.refusesTransfer(CleanReview(reply))
  }

  predicate Postpones(w: Reader, reply: string) {
    var text := CleanReview(reply);
    !IsEmpty(w, text) && !w.refusesTransfer(text) && !w.cancels(text) && w.defers(text)
  }

  // Why a reply that approves nothing does not.
  function Reason(w: Reader, reply: string, otherwise: string): string {
    if Refuses(w, reply) then "external_transfer_refused"
    else if Withdraws(w, reply) then "explicit_cancel"
    else if Postpones(w, reply) then "generation_deferred"
    else otherwise
  }

  function Refusal(w: Reader, reply: string, otherwise: string): seq<string> {
    WithoutChanges(if Withdraws(w, reply) then "cancel" else "hold", Reason(w, reply, otherwise))
  }

  // ---------------------------------------------------------------- the block, read

  lemma ShotCountIsDigits(n: nat)
    ensures ShotCountText(n) == if 1 <= n <= 10 then Digits(n) else "unchanged"
  {
    if n == 10 { assert Digits(10) == Digits(1) + ['0' + 0 as char]; }
  }

  lemma ShotsLine(value: string)
    ensures KeyText(NEW_N_SHOTS) + [':'] + (" " + value) == "NEW_N_SHOTS: " + value
    ensures KeyText(NEW_NOTES) + [':'] + (" " + value) == "NEW_NOTES: " + value
  {
  }

  lemma HeadLine(value: string)
    ensures KeyText(DECISION) + [':'] + (" " + value) == "DECISION: " + value
    ensures KeyText(CONSENT_BASIS) + [':'] + (" " + value) == "CONSENT_BASIS: " + value
    ensures KeyText(HAS_OVERRIDES) + [':'] + (" " + value) == "HAS_OVERRIDES: " + value
  {
  }

  lemma FixedLines()
    ensures KeyText(NEW_RENDER_STYLE) + [':'] + (" " + UNCHANGED) == "NEW_RENDER_STYLE: unchanged"
    ensures KeyText(NEW_IDENTITY_ANCHOR) + [':'] + (" " + UNCHANGED) == "NEW_IDENTITY_ANCHOR: unchanged"
  {
  }

  lemma PlainNotes()
    ensures StripRight(UNCHANGED) == UNCHANGED
  {
  }

  lemma ReadsAsKept(b: Block)
    requires Quotes(b)
    ensures Lines(Emitted(b)) == KeptLines(b)
  {
    EmittedIsJoined(b);
    forall i | 0 <= i < 7 ensures OneLine(KeptLines(b)[i]) && KeptLines(b)[i] != "" { KeptLineIsOneLine(b, i); }
    hide Emitted, Quotes, Line, Value;
    LinesOfJoin(KeptLines(b));
  }

  lemma KeptLinesAre(b: Block)
    ensures KeptLines(b) ==
      [Line(b, DECISION), Line(b, CONSENT_BASIS), Line(b, HAS_OVERRIDES), Line(b, NEW_RENDER_STYLE),
       Line(b, NEW_IDENTITY_ANCHOR), Line(b, NEW_N_SHOTS),
       KeyText(NEW_NOTES) + [':'] + (" " + StripRight(Value(b, NEW_NOTES)))]
  {
    hide Line, Value, KeyText, StripRight;
  }

  lemma BlockSays(b: Block)
    requires Quotes(b)
    ensures Lines(Emitted(b)) ==
      if HasOverrides(b) then
        SevenLines(DecisionText(b.decision), BasisText(b.basis), "yes", b.shotCount, StripRight(b.notes))
      else WithoutChanges(DecisionText(b.decision), BasisText(b.basis))
  {
    ReadsAsKept(b);
    KeptLinesAre(b);
    HeadLinesSay(b);
    ChangeLinesSay(b);
    FixedLines();
    hide Emitted, Line, DecisionText, BasisText, StripRight, Quotes, HasOverrides, Lines, KeptLines, KeyText;
  }

  lemma HeadLinesSay(b: Block)
    ensures Line(b, DECISION) == "DECISION: " + DecisionText(b.decision)
    ensures Line(b, CONSENT_BASIS) == "CONSENT_BASIS: " + BasisText(b.basis)
    ensures Line(b, HAS_OVERRIDES) == "HAS_OVERRIDES: " + if HasOverrides(b) then "yes" else "no"
    ensures Line(b, NEW_RENDER_STYLE) == "NEW_RENDER_STYLE: unchanged"
    ensures Line(b, NEW_IDENTITY_ANCHOR) == "NEW_IDENTITY_ANCHOR: unchanged"
  {
    HeadLine(DecisionText(b.decision));
    HeadLine(BasisText(b.basis));
    HeadLine(if HasOverrides(b) then "yes" else "no");
    FixedLines();
    hide KeyText, DecisionText, BasisText, HasOverrides;
  }

  lemma ChangeLinesSay(b: Block)
    ensures Line(b, NEW_N_SHOTS) == "NEW_N_SHOTS: " + if HasOverrides(b) then b.shotCount else "unchanged"
    ensures KeyText(NEW_NOTES) + [':'] + (" " + StripRight(Value(b, NEW_NOTES)))
      == "NEW_NOTES: " + if HasOverrides(b) then StripRight(b.notes) else "unchanged"
  {
    ShotsLine(if HasOverrides(b) then b.shotCount else "unchanged");
    ShotsLine(if HasOverrides(b) then StripRight(b.notes) else "unchanged");
    PlainNotes();
    hide KeyText, HasOverrides, StripRight;
  }

  lemma PlainSays(d: Decision, basis: Basis)
    ensures Quotes(Plain(d, basis))
    ensures Lines(Emitted(Plain(d, basis))) == WithoutChanges(DecisionText(d), BasisText(basis))
  {
    ShotCountIsWord(0);
    hide Emitted, DecisionText, BasisText, Lines, SevenLines, IsWord, OneLine, IsSpace;
    BlockSays(Plain(d, basis));
  }

  lemma UnchangedSays(b: Block)
    requires Quotes(b) && b.notes == "unchanged"
    ensures Lines(Emitted(b)) == WithoutChanges(DecisionText(b.decision), BasisText(b.basis))
  {
    hide Emitted, DecisionText, BasisText, Lines, SevenLines, Quotes;
    BlockSays(b);
  }

  // The block that hands a reply on.
  function Handing(w: Reader, d: Decision, basis: Basis, text: string): Block {
    Block(d, basis, Take(text, 1000), ShotCountText(w.shotCount(text)))
  }

  lemma HandingSays(w: Reader, d: Decision, basis: Basis, reply: string)
    requires d == Proceed || d == Revise
    requires CleanReview(reply) != ""
    ensures Lines(Emitted(Handing(w, d, basis, CleanReview(reply)))) ==
      WithChanges(w, DecisionText(d), BasisText(basis), reply)
  {
    var text := CleanReview(reply);
    CleanIsOneLine(reply);
    QuotedNotes(text);
    ShotCountIsWord(w.shotCount(text));
    ShotCountIsDigits(w.shotCount(text));
    hide Emitted, CleanReview, DecisionText, BasisText, Lines, SevenLines, ShotCountText, Digits, StripRight, IsWord,
      OneLine, IsSpace;
    BlockSays(Handing(w, d, basis, text));
  }

  // ---------------------------------------------------------------- the two phases

  lemma RefusalSays(w: Reader, reply: string, d: Decision, basis: Basis, otherwise: Basis)
    requires d == if Withdraws(w, reply) then Cancel else Hold
    requires basis == if Refuses(w, reply) then ExternalTransferRefused
                      else if Withdraws(w, reply) then ExplicitCancel
                      else if Postpones(w, reply) then GenerationDeferred
                      else otherwise
    requires otherwise == UnclearOrOffTopic || otherwise == RevisionConfirmationRequired
    ensures Lines(Emitted(Plain(d, basis))) == Refusal(w, reply, BasisText(otherwise))
  {
    PlainSays(d, basis);
    hide Emitted, Lines, SevenLines, Refuses, Withdraws, Postpones, Plain;
  }

  lemma BasisNames()
    ensures BasisText(UnclearOrOffTopic) == "unclear_or_off_topic"
    ensures BasisText(RevisionConfirmationRequired) == "revision_confirmation_required"
    ensures BasisText(ExplicitApproval) == "explicit_approval"
    ensures BasisText(MeaningfulAdjustment) == "meaningful_adjustment"
  {
  }

  lemma RevisionName()
    ensures BasisText(ExplicitApprovalAfterRevision) == "explicit_approval_after_revision"
  {
  }

  lemma SnapshotName()
    ensures BasisText(ExplicitApprovalAfterScriptSnapshotChange) == "explicit_approval_after_script_snapshot_change"
  {
  }

  // The first block: a reply that asks for changes hands them on, in its own words and
  // with its number of shots; any other changes nothing.
  lemma DraftSays(w: Reader, review: string)
    ensures Lines(Emitted(DraftReview(w, review))) ==
      if AsksForChanges(w, review) then WithChanges(w, "revise", "meaningful_adjustment", review)
      else if Approves(w, review) then WithoutChanges("proceed", "explicit_approval")
      else Refusal(w, review, "unclear_or_off_topic")
  {
    hide Emitted, CleanReview, Lines, WithChanges, WithoutChanges, Refusal, Quotes, ShotCountText, Take;
    var b := DraftReview(w, review);
    if AsksForChanges(w, review) {
      HandingSays(w, Revise, MeaningfulAdjustment, review);
    } else if Approves(w, review) {
      PlainSays(Proceed, ExplicitApproval);
    } else {
      RefusalSays(w, review, b.decision, b.basis, UnclearOrOffTopic);
    }
  }

  // The final block: after a confirmed revision it repeats the changes that the first
  // reply asked for, whatever the confirmation says besides; in every other case it
  // changes nothing.
  lemma FinalSays(w: Reader, review: string, confirmation: string, changed: bool)
    ensures Lines(Emitted(MediaApproval(w, review, confirmation, changed))) ==
      if !NeedsConfirmation(w, review, changed) then
        if Approves(w, review) then WithoutChanges("proceed", "explicit_approval")
        else Refusal(w, review, "unclear_or_off_topic")
      else if !Approves(w, confirmation) then Refusal(w, confirmation, "revision_confirmation_required")
      else if AsksForChanges(w, review) then
        WithChanges(w, "proceed", "explicit_approval_after_revision", review)
      else WithoutChanges("proceed", "explicit_approval_after_script_snapshot_change")
  {
    BasisNames();
    RevisionName();
    SnapshotName();
    hide Emitted, CleanReview, Lines, WithChanges, WithoutChanges, Refusal, Quotes, ShotCountText, BasisText;
    var b := MediaApproval(w, review, confirmation, changed);
    if !NeedsConfirmation(w, review, changed) {
      DraftSays(w, review);
    } else if !Approves(w, confirmation) {
      RefusalSays(w, confirmation, b.decision, b.basis, RevisionConfirmationRequired);
    } else if AsksForChanges(w, review) {
      HandingSays(w, Proceed, ExplicitApprovalAfterRevision, review);
    } else {
      EveryBlockQuotes(w, review, confirmation, changed);
      assert b.notes == "unchanged";
      UnchangedSays(b);
    }
  }
}
