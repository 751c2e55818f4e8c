// The label injection of the short-drama generator: two lines after every step-id
// line, and how to take them out again.
module StepLabels {
  import opened Texts

  datatype Pair = Pair(zh: string, en: string)

  datatype Labels = Some(pair: Pair) | None

  datatype Rendered = Text(text: string) | MissingLabels(stepId: string)

  // The label tables: by step id, and by what follows a shot's number.
  datatype Tables = Tables(fixed: map<string, Pair>, shot: map<string, Pair>)

  const STEP_ID := "    - id: "

  // ---------------------------------------------------------------- lines with their ends

  // How long the line end at position n is.
  function EndWidth(s: string, n: nat): (width: nat)
    requires n < |s|
    ensures 1 <= width <= |s| - n
  {
    if s[n] == '\r' && n + 1 < |s| && s[n + 1] == '\n' then 2 else 1
  }

  // str.splitlines(keepends=True)
  function KeptLines(s: string): seq<string> {
    if s == "" then []
    else
      var n := FirstBreak(s);
      if n == |s| then [s] else [s[..n + EndWidth(s, n)]] + KeptLines(s[n + EndWidth(s, n)..])
  }

  function Concat(lines: seq<string>): string {
    if lines == [] then "" else lines[0] + Concat(lines[1..])
  }

  // One whole line with its end.
  predicate Ended(line: string) {
    exists n :: 0 <= n < |line| && OneLine(line[..n]) && IsLineBreak(line[n]) && n + EndWidth(line, n) == |line|
  }

  // A line and the next are not parted inside a carriage return and newline.
  predicate Apart(a: string, b: string) {
    !(a != "" && b != "" && a[|a| - 1] == '\r' && b[0] == '\n')
  }

  // What splitlines can return: all lines but perhaps the last have their end, and a
  // carriage return ends a line only if no newline follows.
  predicate Split(lines: seq<string>) {
    lines != [] ==>
      && lines[0] != ""
      && if |lines| == 1 then Ended(lines[0]) || OneLine(lines[0])
         else Ended(lines[0]) && Apart(lines[0], lines[1]) && Split(lines[1..])
  }

  lemma EndedAt(line: string, n: nat, rest: string)
    requires n < |line| && OneLine(line[..n]) && IsLineBreak(line[n]) && n + EndWidth(line, n) == |line|
    requires line[|line| - 1] == '\r' && rest != "" ==> rest[0] != '\n'
    ensures FirstBreak(line + rest) == n && n + EndWidth(line + rest, n) == |line|
  {
    assert (line + rest)[..n] == line[..n];
    FirstBreakIs(line + rest, n);
  }

  lemma {:induction false} ConcatStarts(lines: seq<string>)
    requires lines != [] && lines[0] != ""
    ensures Concat(lines) != "" && Concat(lines)[0] == lines[0][0]
  {
  }

  lemma SplitOne(line: string, rest: string)
    requires Ended(line) && (line[|line| - 1] == '\r' && rest != "" ==> rest[0] != '\n')
    ensures KeptLines(line + rest) == [line] + KeptLines(rest)
  {
    hide IsLineBreak;
    var n :| 0 <= n < |line| && OneLine(line[..n]) && IsLineBreak(line[n]) && n + EndWidth(line, n) == |line|;
    EndedAt(line, n, rest);
    assert (line + rest)[..|line|] == line && (line + rest)[|line|..] == rest;
  }

  lemma SplitLast(line: string)
    requires OneLine(line) && line != ""
    ensures KeptLines(line) == [line]
  {
    hide IsLineBreak;
    assert line[..|line|] == line;
    FirstBreakIs(line, |line|);
  }

  // Splitting what was split gives the same lines.
  lemma {:induction false} SplitConcat(lines: seq<string>)
    requires Split(lines)
    ensures KeptLines(Concat(lines)) == lines
  {
    hide IsLineBreak, KeptLines, Ended, OneLine;
    if lines == [] {
      NoLines();
    } else {
      TailIsSplit(lines);
      SplitConcat(lines[1..]);
      if |lines| > 1 { ConcatStarts(lines[1..]); }
      if Ended(lines[0]) {
        SplitOne(lines[0], Concat(lines[1..]));
        assert lines == [lines[0]] + lines[1..];
      } else {
        assert lines == [lines[0]] && lines[0] + "" == lines[0];
        SplitLast(lines[0]);
      }
    }
  }

  lemma NoLines()
    ensures KeptLines("") == []
  {
  }

  lemma TailIsSplit(lines: seq<string>)
    requires Split(lines) && lines != []
    ensures Split(lines[1..]) && lines[0] != ""
    ensures |lines| > 1 ==> Ended(lines[0]) && Apart(lines[0], lines[1]) && lines[1] != ""
  {
    hide Ended, OneLine, Apart;
  }

  lemma SplitMore(line: string, tail: seq<string>)
    requires Ended(line) && line != "" && Split(tail) && (tail != [] ==> Apart(line, tail[0]))
    ensures Split([line] + tail)
  {
    hide Ended, OneLine, Apart;
    assert ([line] + tail)[1..] == tail;
  }

  // The first line of a text and what follows it.
  lemma FirstLineEnded(s: string, width: int)
    requires s != "" && FirstBreak(s) < |s| && width == FirstBreak(s) + EndWidth(s, FirstBreak(s))
    ensures 0 < width <= |s| && Ended(s[..width]) && !(s[width - 1] == '\r' && width < |s| && s[width] == '\n')
  {
    hide IsLineBreak;
    var n := FirstBreak(s);
    var line := s[..width];
    assert line[..n] == s[..n] && line[n] == s[n];
    assert EndWidth(line, n) == EndWidth(s, n);
  }

  // And what splitlines gives is split, and joins up to the text.
  lemma {:induction false} KeptLinesSplit(s: string)
    ensures Split(KeptLines(s)) && Concat(KeptLines(s)) == s
  {
    hide IsLineBreak, Ended, Split, EndWidth;
    if s == "" {
      EmptyIsSplit();
    } else if FirstBreak(s) == |s| {
      assert s[..|s|] == s;
      OneIsSplit(s);
      assert s + "" == s;
    } else {
      var width := FirstBreak(s) + EndWidth(s, FirstBreak(s));
      var line, tail := s[..width], KeptLines(s[width..]);
      KeptLinesSplit(s[width..]);
      FirstLineEnded(s, width);
      if tail != [] { SplitStarts(tail); }
      SplitMore(line, tail);
      assert ([line] + tail)[1..] == tail;
      assert s == line + s[width..];
    }
  }

  lemma EmptyIsSplit()
    ensures Split([])
  {
  }

  lemma OneIsSplit(s: string)
    requires s != "" && OneLine(s)
    ensures Split([s])
  {
  }

  lemma SplitStarts(lines: seq<string>)
    requires Split(lines) && lines != []
    ensures Concat(lines) != "" && lines[0] != "" && Concat(lines)[0] == lines[0][0]
  {
    ConcatStarts(lines);
  }

  // ---------------------------------------------------------------- labels

  predicate IsStepLine(line: string) { StartsWith(line, STEP_ID) }

  function StepId(line: string): string
    requires IsStepLine(line)
  {
    Strip(line[|STEP_ID|..])
  }

  // What follows shot(10|[1-9])_ in a shot's step id.
  function ShotSuffix(id: string): (suffix: string)
  {
    if StartsWith(id, "shot10_") then id[7..]
    else if StartsWith(id, "shot") && |id| > 6 && '1' <= id[4] <= '9' && id[5] == '_' then id[6..]
    else ""
  }

  function ShotNumber(id: string): string
    requires ShotSuffix(id) != ""
  {
    if StartsWith(id, "shot10_") then "10" else [id[4]]
  }

  // _step_labels
  function LabelsOf(t: Tables, id: string): Labels {
    if id in t.fixed then Some(t.fixed[id])
    else if ShotSuffix(id) != "" && ShotSuffix(id) in t.shot then
      var names := t.shot[ShotSuffix(id)];
      Some(Pair("镜头" + ShotNumber(id) + names.zh, "Shot " + ShotNumber(id) + " " + names.en))
    else None
  }

  // A step-id line says its step's id after the prefix.
  lemma StepLineIs(line: string)
    ensures IsStepLine(line) <==> |line| >= 10 && line[..10] == "    - id: "
    ensures IsStepLine(line) ==> StepId(line) == Strip(line[10..])
  {
    hide Strip;
  }

  predicate IsShotId(id: string, n: nat, suffix: string) {
    1 <= n <= 10 && suffix != "" && id == "shot" + Digits(n) + "_" + suffix
  }

  lemma ShotIdIs(id: string, n: nat, suffix: string)
    requires IsShotId(id, n, suffix)
    ensures ShotSuffix(id) == suffix && ShotNumber(id) == Digits(n)
  {
    if n == 10 {
      assert Digits(10) == Digits(1) + ['0' + 0 as char];
      assert "shot" + "10" + "_" == "shot10_";
      assert id[..7] == "shot10_";
      assert id[7..] == suffix;
    } else {
      assert Digits(n) == ['0' + n as char];
      assert id[..4] == "shot" && id[4] == '0' + n as char && id[5] == '_';
      assert "shot10_"[5] == '0' && (|id| >= 7 ==> id[..7][5] == '_');
      assert id[6..] == suffix;
    }
  }

  lemma ShotIdSplits(id: string) returns (n: nat)
    requires ShotSuffix(id) != ""
    ensures IsShotId(id, n, ShotSuffix(id))
  {
    if StartsWith(id, "shot10_") {
      n := 10;
      assert Digits(10) == Digits(1) + ['0' + 0 as char];
      assert "shot" + "10" + "_" == "shot10_";
      assert id == id[..7] + id[7..];
    } else {
      n := id[4] as int - '0' as int;
      assert Digits(n) == [id[4]];
      assert id == id[..4] + [id[4]] + [id[5]] + id[6..];
    }
  }

  // A step's own labels come first; a shot's name the shot; no other step has any.
  lemma LabelsAre(t: Tables, id: string, n: nat, suffix: string)
    ensures id in t.fixed ==> LabelsOf(t, id) == Some(t.fixed[id])
    ensures id !in t.fixed && IsShotId(id, n, suffix) && suffix in t.shot ==>
      LabelsOf(t, id)
      == Some(Pair("镜头" + Digits(n) + t.shot[suffix].zh, "Shot " + Digits(n) + " " + t.shot[suffix].en))
    ensures id !in t.fixed && (forall k: nat, s <- t.shot :: !IsShotId(id, k, s)) ==> LabelsOf(t, id).None?
  {
    if IsShotId(id, n, suffix) { ShotIdIs(id, n, suffix); }
    hide ShotNumber, IsShotId;
    if ShotSuffix(id) != "" && ShotSuffix(id) in t.shot {
      var k := ShotIdSplits(id);
      assert IsShotId(id, k, ShotSuffix(id));
    }
  }

  function LabelLines(p: Pair): seq<string> {
    ["      label: \"" + p.zh + "\"\n", "      label_en: \"" + p.en + "\"\n"]
  }

  // The tables hold one-line labels.
  predicate OneLiners(t: Tables) {
    && (forall id <- t.fixed :: OneLine(t.fixed[id].zh) && OneLine(t.fixed[id].en))
    && (forall id <- t.shot :: OneLine(t.shot[id].zh) && OneLine(t.shot[id].en))
  }

  predicate HasLabels(t: Tables, line: string) { IsStepLine(line) ==> LabelsOf(t, StepId(line)).Some? }

  predicate AllLabelled(t: Tables, lines: seq<string>) {
    forall i :: 0 <= i < |lines| ==> HasLabels(t, lines[i])
  }

  function WithLabels(t: Tables, line: string): seq<string>
    requires HasLabels(t, line)
  {
    if IsStepLine(line) then [line] + LabelLines(LabelsOf(t, StepId(line)).pair) else [line]
  }

  function Labelled(t: Tables, lines: seq<string>): seq<string>
    requires AllLabelled(t, lines)
  {
    if lines == [] then [] else Labelled(t, lines[..|lines| - 1]) + WithLabels(t, lines[|lines| - 1])
  }

  // _inject_step_labels: fails exactly when some step id has no labels.
  method InjectStepLabels(t: Tables, rendered: string) returns (r: Rendered)
    ensures r.Text? <==> AllLabelled(t, KeptLines(rendered))
    ensures r.Text? ==> r.text == Concat(Labelled(t, KeptLines(rendered)))
    ensures r.MissingLabels? ==>
      exists i :: 0 <= i < |KeptLines(rendered)| && IsStepLine(KeptLines(rendered)[i])
        && StepId(KeptLines(rendered)[i]) == r.stepId && LabelsOf(t, r.stepId).None?
  {
    hide IsSpace, ShotNumber, ShotSuffix, Strip, LabelsOf;
    var lines := KeptLines(rendered);
    var output: seq<string> := [];
    for i := 0 to |lines|
      invariant AllLabelled(t, lines[..i]) && output == Labelled(t, lines[..i])
    {
      var line := lines[i];
      assert lines[..i + 1][..i] == lines[..i];
      output := output + [line];
      assert HasLabels(t, line) ==> Labelled(t, lines[..i + 1]) == Labelled(t, lines[..i]) + WithLabels(t, line);
      if IsStepLine(line) {
        var id := StepId(line);
        var labels := LabelsOf(t, id);
        if labels.None? {
          assert !HasLabels(t, lines[i]);
          return MissingLabels(id);
        }
        output := output + ["      label: \"" + labels.pair.zh + "\"\n"];
        output := output + ["      label_en: \"" + labels.pair.en + "\"\n"];
      }
    }
    assert lines[..|lines|] == lines;
    return Text(Concat(output));
  }

  // ---------------------------------------------------------------- taking labels out

  // Drop the two lines after every step-id line.
  function Unlabelled(lines: seq<string>): seq<string>
    decreases |lines|
  {
    if lines == [] then []
    else if IsStepLine(lines[0]) then [lines[0]] + Unlabelled(if |lines| > 3 then lines[3..] else [])
    else [lines[0]] + Unlabelled(lines[1..])
  }

  function RemoveStepLabels(text: string): string { Concat(Unlabelled(KeptLines(text))) }

  function StepLines(lines: seq<string>): nat {
    if lines == [] then 0 else StepLines(lines[..|lines| - 1]) + if IsStepLine(lines[|lines| - 1]) then 1 else 0
  }

  // One pair of labels for every step-id line.
  lemma {:induction false} OnePairEach(t: Tables, lines: seq<string>)
    requires AllLabelled(t, lines)
    ensures |Labelled(t, lines)| == |lines| + 2 * StepLines(lines)
  {
    hide LabelsOf, IsStepLine;
    if lines != [] { OnePairEach(t, lines[..|lines| - 1]); }
  }

  // Labelled, taken apart from the front.
  lemma {:induction false} LabelledFront(t: Tables, lines: seq<string>)
    requires AllLabelled(t, lines) && lines != []
    ensures Labelled(t, lines) == WithLabels(t, lines[0]) + Labelled(t, lines[1..])
  {
    hide LabelsOf, IsStepLine, WithLabels;
    if |lines| == 1 {
      assert lines[..0] == [] && lines[1..] == [];
    } else {
      var init := lines[..|lines| - 1];
      LabelledFront(t, init);
      assert init[1..] == lines[1..][..|lines| - 2];
      assert lines[1..][|lines| - 2] == lines[|lines| - 1];
    }
  }

  lemma {:induction false} UnlabelledInverts(t: Tables, lines: seq<string>, more: seq<string>)
    requires AllLabelled(t, lines)
    ensures Unlabelled(Labelled(t, lines) + more) == lines + Unlabelled(more)
  {
    hide LabelsOf, IsStepLine, LabelLines, Unlabelled, WithLabels;
    if lines == [] {
      assert Labelled(t, lines) + more == more && lines + Unlabelled(more) == Unlabelled(more);
    } else {
      LabelledFront(t, lines);
      var rest := Labelled(t, lines[1..]) + more;
      UnlabelledInverts(t, lines[1..], more);
      assert Labelled(t, lines) + more == WithLabels(t, lines[0]) + rest;
      UnlabelledFirst(t, lines[0], rest);
    }
  }

  lemma UnlabelledFirst(t: Tables, line: string, rest: seq<string>)
    requires HasLabels(t, line)
    ensures Unlabelled(WithLabels(t, line) + rest) == [line] + Unlabelled(rest)
  {
    hide LabelsOf, IsStepLine, LabelLines;
    var all := WithLabels(t, line) + rest;
    assert all[0] == line;
    if IsStepLine(line) {
      LabelLinesAre(LabelsOf(t, StepId(line)).pair);
      assert (if |all| > 3 then all[3..] else []) == rest;
    } else {
      assert all[1..] == rest;
    }
  }

  lemma LabelLinesAre(p: Pair)
    ensures |LabelLines(p)| == 2
  {
  }

  // ---------------------------------------------------------------- the labelled text

  lemma LabelLineEnds(a: string, name: string, b: string)
    requires OneLine(a) && OneLine(name) && OneLine(b)
    ensures Ended(a + name + b + "\n")
  {
    hide IsLineBreak;
    var line := a + name + b + "\n";
    assert line[..|line| - 1] == a + name + b;
    assert IsLineBreak('\n') by { LineFeed(); }
    assert EndWidth(line, |line| - 1) == 1;
  }

  lemma LineFeed()
    ensures IsLineBreak('\n')
  {
  }

  // Labels are whole lines that start with a space.
  predicate IsLabelLine(line: string) {
    Ended(line) && line != "" && line[0] == ' ' && line[|line| - 1] == '\n'
  }

  lemma LabelsAreLines(t: Tables, id: string)
    requires OneLiners(t) && LabelsOf(t, id).Some?
    ensures
      var lines := LabelLines(LabelsOf(t, id).pair);
      IsLabelLine(lines[0]) && IsLabelLine(lines[1])
  {
    LabelTextsAreLines(t, id);
    var p := LabelsOf(t, id).pair;
    LabelLineEnds("      label: \"", p.zh, "\"");
    LabelLineEnds("      label_en: \"", p.en, "\"");
    hide Ended, IsLineBreak, LabelsOf;
    assert LabelLines(p)[0] == "      label: \"" + p.zh + "\"" + "\n";
    assert LabelLines(p)[1] == "      label_en: \"" + p.en + "\"" + "\n";
  }

  lemma LabelTextsAreLines(t: Tables, id: string)
    requires OneLiners(t) && LabelsOf(t, id).Some?
    ensures OneLine(LabelsOf(t, id).pair.zh) && OneLine(LabelsOf(t, id).pair.en)
    ensures OneLine("      label: \"") && OneLine("      label_en: \"") && OneLine("\"")
  {
    if id !in t.fixed {
      assert OneLine(ShotNumber(id));
      assert OneLine("镜头") && OneLine("Shot ");
    }
  }

  // A text whose last line is whole, or no step-id line.
  predicate EndsWell(lines: seq<string>) {
    lines == [] || Ended(lines[|lines| - 1]) || !IsStepLine(lines[|lines| - 1])
  }

  lemma {:induction false} SplitAppend(a: seq<string>, b: seq<string>)
    requires Split(a) && Split(b) && (a != [] ==> Ended(a[|a| - 1]))
    requires a != [] && b != [] ==> Apart(a[|a| - 1], b[0])
    ensures Split(a + b)
  {
    hide Ended, OneLine, Split, Apart;
    if a == [] {
      assert a + b == b;
    } else {
      TailIsSplit(a);
      SplitAppend(a[1..], b);
      SplitMore(a[0], a[1..] + b);
      assert [a[0]] + (a[1..] + b) == a + b;
    }
  }

  lemma SplitBoth(a: seq<string>, b: seq<string>)
    requires Split(a) && Split(b) && a != [] && b != [] && Ended(a[|a| - 1])
    requires Apart(a[|a| - 1], b[0])
    ensures Split(a + b) && (a + b)[0] == a[0] && (a + b)[|a + b| - 1] == b[|b| - 1]
  {
    hide Ended, OneLine, Split, Apart;
    SplitAppend(a, b);
  }

  lemma OneLineLabelled(t: Tables, line: string)
    requires OneLiners(t) && HasLabels(t, line) && Split([line]) && (IsStepLine(line) ==> Ended(line))
    ensures
      var lines := WithLabels(t, line);
      && Split(lines) && lines != [] && lines[0] == line
      && (Ended(line) ==> Ended(lines[|lines| - 1]))
      && (IsStepLine(line) ==> lines[|lines| - 1][|lines[|lines| - 1]| - 1] == '\n')
  {
    hide Ended, OneLine, LabelsOf, IsStepLine, LabelLines, OneLiners;
    if IsStepLine(line) {
      var id := StepId(line);
      LabelLinesAre(LabelsOf(t, id).pair);
      LabelsAreLines(t, id);
      var labels := LabelLines(LabelsOf(t, id).pair);
      assert labels == [labels[0]] + [labels[1]];
      WholeIsSplit(labels[0]);
      WholeIsSplit(labels[1]);
      SplitAppend([labels[0]], [labels[1]]);
      SplitAppend([line], labels);
    }
  }

  lemma WholeIsSplit(line: string)
    requires Ended(line) && line != ""
    ensures Split([line])
  {
    hide Ended;
  }

  // A labelled line may be followed by what followed the line.
  lemma LabelledMeetsNext(t: Tables, line: string, next: string)
    requires OneLiners(t) && Ended(line) && line != "" && Apart(line, next) && HasLabels(t, line)
    ensures
      var first := WithLabels(t, line);
      Split(first) && first != [] && first[0] == line && Ended(first[|first| - 1]) && Apart(first[|first| - 1], next)
  {
    hide Ended, OneLine, LabelsOf, IsStepLine, LabelLines, OneLiners, WithLabels, HasLabels, Split;
    WholeIsSplit(line);
    OneLineLabelled(t, line);
    NotStepIsItself(t, line);
  }

  // Labelling keeps the lines lines, unless it glues a label to an unfinished one.
  lemma {:induction false} LabelledIsSplit(t: Tables, lines: seq<string>)
    requires OneLiners(t) && AllLabelled(t, lines) && Split(lines) && EndsWell(lines)
    ensures
      var all := Labelled(t, lines);
      && Split(all)
      && (lines != [] ==> all != [] && all[0] == lines[0])
      && (lines != [] && Ended(lines[|lines| - 1]) ==> Ended(all[|all| - 1]))
  {
    hide Ended, OneLine, LabelsOf, IsStepLine, LabelLines, OneLiners, WithLabels, Split, Apart, Labelled;
    if lines == [] {
      NothingLabelled(t);
      EmptyIsSplit();
    } else {
      LabelledFront(t, lines);
      var first, rest := WithLabels(t, lines[0]), Labelled(t, lines[1..]);
      if |lines| == 1 {
        assert lines == [lines[0]];
        OneLineLabelled(t, lines[0]);
        NothingLabelled(t);
        assert first + rest == first;
      } else {
        TailIsSplit(lines);
        LabelledIsSplit(t, lines[1..]);
        LabelledMeetsNext(t, lines[0], lines[1]);
        SplitBoth(first, rest);
      }
    }
  }

  lemma NotStepIsItself(t: Tables, line: string)
    requires HasLabels(t, line)
    ensures !IsStepLine(line) ==> WithLabels(t, line) == [line]
  {
    hide LabelsOf;
  }

  lemma {:induction false} ConcatAppend(a: seq<string>, b: seq<string>)
    ensures Concat(a + b) == Concat(a) + Concat(b)
  {
    if a == [] {
      assert a + b == b;
    } else {
      assert (a + b)[1..] == a[1..] + b;
      ConcatAppend(a[1..], b);
    }
  }

  lemma RemoveUndoes(t: Tables, lines: seq<string>)
    requires OneLiners(t) && AllLabelled(t, lines) && Split(lines) && EndsWell(lines)
    ensures RemoveStepLabels(Concat(Labelled(t, lines))) == Concat(lines)
  {
    hide Ended, OneLine, LabelsOf, OneLiners, Split, KeptLines, Labelled, Unlabelled, AllLabelled, EndsWell;
    LabelledIsSplit(t, lines);
    SplitConcat(Labelled(t, lines));
    UnlabelledInverts(t, lines, []);
    NothingUnlabelled();
    assert Labelled(t, lines) + [] == Labelled(t, lines) && lines + [] == lines;
  }

  lemma NothingUnlabelled()
    ensures Unlabelled([]) == []
  {
  }

  lemma {:induction false} InitIsSplit(lines: seq<string>)
    requires Split(lines) && lines != []
    ensures Split(lines[..|lines| - 1])
    ensures |lines| > 1 ==> Ended(lines[|lines| - 2])
  {
    hide Ended, OneLine, Apart, Split;
    var init := lines[..|lines| - 1];
    TailIsSplit(lines);
    if |lines| == 1 {
      EmptyIsSplit();
    } else if |lines| == 2 {
      assert init == [lines[0]];
      WholeIsSplit(lines[0]);
    } else {
      InitIsSplit(lines[1..]);
      SplitMore(lines[0], lines[1..][..|lines| - 2]);
      assert init == [lines[0]] + lines[1..][..|lines| - 2];
    }
  }

  lemma GluedEnds(t: Tables, last: string)
    requires OneLiners(t) && IsStepLine(last) && LabelsOf(t, StepId(last)).Some? && OneLine(last)
    ensures Ended(last + LabelLines(LabelsOf(t, StepId(last)).pair)[0])
  {
    hide LabelsOf, OneLiners, IsLineBreak;
    var p := LabelsOf(t, StepId(last)).pair;
    LabelTextsAreLines(t, StepId(last));
    LabelLineEnds(last + "      label: \"", p.zh, "\"");
    assert last + LabelLines(p)[0] == last + "      label: \"" + p.zh + "\"" + "\n";
  }

  lemma GluedSplit(t: Tables, init: seq<string>, last: string, labels: seq<string>)
    requires OneLiners(t) && AllLabelled(t, init) && Split(init) && EndsWell(init)
    requires (init != [] ==> Ended(init[|init| - 1])) && IsStepLine(last)
    requires |labels| == 2 && Ended(last + labels[0]) && IsLabelLine(labels[1]) && IsLabelLine(labels[0])
    ensures Split(Labelled(t, init) + [last + labels[0], labels[1]])
  {
    hide LabelsOf, OneLiners, IsLineBreak, Ended, OneLine, Labelled, AllLabelled, EndsWell, Split;
    var glued := [last + labels[0], labels[1]];
    assert last[0] == last[..|STEP_ID|][0] == ' ';
    LabelledIsSplit(t, init);
    WholeIsSplit(last + labels[0]);
    WholeIsSplit(labels[1]);
    SplitAppend([last + labels[0]], [labels[1]]);
    assert [last + labels[0]] + [labels[1]] == glued;
    if init == [] { NothingLabelled(t); }
    SplitAppend(Labelled(t, init), glued);
  }

  lemma NothingLabelled(t: Tables)
    ensures Labelled(t, []) == []
  {
  }

  // An unfinished step-id line gets its first label glued to it, and removal keeps that.
  lemma GluedLabelStays(t: Tables, lines: seq<string>)
    requires OneLiners(t) && AllLabelled(t, lines) && Split(lines) && !EndsWell(lines)
    ensures RemoveStepLabels(Concat(Labelled(t, lines))) != Concat(lines)
  {
    hide LabelsOf, OneLiners, Ended, OneLine, KeptLines, IsStepLine, Split, LabelLines, Unlabelled;
    var init, last := lines[..|lines| - 1], lines[|lines| - 1];
    InitIsSplit(lines);
    LastIsOneLine(lines);
    assert HasLabels(t, last);
    var labels := LabelLines(LabelsOf(t, StepId(last)).pair);
    LabelLinesAre(LabelsOf(t, StepId(last)).pair);
    var glued := [last + labels[0], labels[1]];
    LabelsAreLines(t, StepId(last));
    GluedIsStep(last, labels[0]);
    GluedEnds(t, last);
    GluedSplit(t, init, last, labels);
    GluedTexts(Labelled(t, init), init, last, labels);
    SplitConcat(Labelled(t, init) + glued);
    UnlabelledInverts(t, init, glued);
    UnlabelledGlued(glued);
    assert Labelled(t, lines) == Labelled(t, init) + ([last] + labels);
    assert lines == init + [last];
  }

  lemma {:induction false} LastIsOneLine(lines: seq<string>)
    requires Split(lines) && lines != []
    ensures Ended(lines[|lines| - 1]) || OneLine(lines[|lines| - 1])
  {
    hide OneLine, Ended, Apart;
    if |lines| > 1 { LastIsOneLine(lines[1..]); }
  }

  lemma UnlabelledGlued(glued: seq<string>)
    requires |glued| == 2 && IsStepLine(glued[0])
    ensures Unlabelled(glued) == [glued[0]]
  {
    hide IsStepLine;
    NothingUnlabelled();
  }

  // The same text, whether the label is on its own or glued; and it is not the original.
  lemma GluedTexts(labelled: seq<string>, init: seq<string>, last: string, labels: seq<string>)
    requires |labels| == 2 && labels[0] != ""
    ensures Concat(labelled + ([last] + labels)) == Concat(labelled + [last + labels[0], labels[1]])
    ensures Concat(init + [last + labels[0]]) != Concat(init + [last])
  {
    ConcatAppend(labelled, [last] + labels);
    ConcatAppend(labelled, [last + labels[0], labels[1]]);
    ConcatAppend(init, [last + labels[0]]);
    ConcatAppend(init, [last]);
    ConcatPair(labels[0], labels[1]);
    ConcatPair(last + labels[0], labels[1]);
    assert labels == [labels[0], labels[1]] && ([last] + labels)[1..] == labels;
    assert last + (labels[0] + labels[1]) == last + labels[0] + labels[1];
    assert |Concat(init + [last + labels[0]])| == |Concat(init + [last])| + |labels[0]|;
  }

  lemma ConcatPair(a: string, b: string)
    ensures Concat([a, b]) == a + b
  {
    assert [a, b][1..] == [b] && [b][1..] == [];
    assert Concat([b]) == b + "" == b;
  }

  lemma GluedIsStep(line: string, more: string)
    requires IsStepLine(line)
    ensures IsStepLine(line + more)
  {
    assert (line + more)[..|STEP_ID|] == line[..|STEP_ID|];
  }

  // Removing the two lines after each step-id line gives the input back exactly when
  // the input does not end in a step-id line that lacks its line end.
  lemma RemoveUndoesInject(t: Tables, rendered: string)
    requires OneLiners(t) && AllLabelled(t, KeptLines(rendered))
    ensures RemoveStepLabels(Concat(Labelled(t, KeptLines(rendered)))) == rendered <==> EndsWell(KeptLines(rendered))
  {
    hide KeptLines, Labelled, Split, EndsWell, AllLabelled, OneLiners, RemoveStepLabels;
    KeptLinesSplit(rendered);
    if EndsWell(KeptLines(rendered)) {
      RemoveUndoes(t, KeptLines(rendered));
    } else {
      GluedLabelStays(t, KeptLines(rendered));
    }
  }
}
