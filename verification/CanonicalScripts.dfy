// Scripts of the form that the workflow asks its writer for, with any numbers in them:
// which of them meet the duration contract.
module CanonicalScripts {
  import opened Options
  import opened Texts
  import opened DurationContract

  function ShotLines(durations: seq<nat>, k: nat): seq<string> {
    if durations == [] then []
    else [Header(ShotName(k)), Field("DURATION_S", Digits(durations[0]))] + ShotLines(durations[1..], k + 1)
  }

  // An overview that announces a number of shots and a duration, and then the shots.
  function ScriptLines(announced: nat, total: nat, durations: seq<nat>): seq<string> {
    [Header("OVERVIEW")] + Announcement(announced, total) + ShotLines(durations, 1)
  }

  function Announcement(announced: nat, total: nat): seq<string> {
    [Field("N_SHOTS", Digits(announced)), Field("DURATION_S", Digits(total))]
  }

  function Script(announced: nat, total: nat, durations: seq<nat>): string {
    Join(ScriptLines(announced, total, durations))
  }

  function Sum(durations: seq<nat>): nat { if durations == [] then 0 else durations[0] + Sum(durations[1..]) }

  // ---------------------------------------------------------------- fields

  lemma NumberField(key: string, n: nat)
    requires key != "" && !IsBlank(key[0])
    ensures FieldValue(Field(key, Digits(n)), key) == Some(Digits(n))
    ensures Digits(n) != "" && AreDigits(Digits(n)) && Number(Digits(n)) == n
  {
    NumberOfDigits(n);
    hide Digits, Number, IsBlank;
    FieldIs(key, Digits(n));
  }

  lemma DurationIs(n: nat)
    ensures TheNumber([Field("DURATION_S", Digits(n))], "DURATION_S") == Some(n)
  {
    NumberField("DURATION_S", n);
    hide FieldValue, Field, TheNumber, Number, AreDigits, Digits;
    NumberOfOne(Field("DURATION_S", Digits(n)), "DURATION_S", Digits(n));
  }

  lemma OverviewIs(announced: nat, total: nat)
    ensures
      var fields := Announcement(announced, total);
      TheNumber(fields, "N_SHOTS") == Some(announced) && TheNumber(fields, "DURATION_S") == Some(total)
  {
    NumberField("N_SHOTS", announced);
    NumberField("DURATION_S", total);
    FieldDiffers("N_SHOTS", Digits(announced), "DURATION_S");
    FieldDiffers("DURATION_S", Digits(total), "N_SHOTS");
    hide FieldValue, Field, TheNumber, Number, AreDigits, Digits;
    var shots, duration := Field("N_SHOTS", Digits(announced)), Field("DURATION_S", Digits(total));
    NumberOfTwo(shots, duration, "N_SHOTS", Digits(announced));
    NumberOfTwo(shots, duration, "DURATION_S", Digits(total));
  }

  // ---------------------------------------------------------------- lines and sections

  lemma PlainLines(name: string, key: string, n: nat)
    requires '\n' !in name && '\n' !in key
    ensures '\n' !in Header(name) && '\n' !in Field(key, Digits(n))
  {
    NumberOfDigits(n);
    NoNewlineIn(Digits(n));
    hide Digits;
  }

  lemma NoNewlineIn(digits: string)
    requires AreDigits(digits)
    ensures '\n' !in digits
  {
    assert !IsDigit('\n');
  }

  lemma PlainNames(k: nat)
    ensures '\n' !in ShotName(k) && '\n' !in "OVERVIEW" && '\n' !in "N_SHOTS" && '\n' !in "DURATION_S"
  {
    ShotIsName(k);
    assert !IsDigit('\n');
    hide ShotName;
  }

  lemma {:induction false} ShotLinesArePlain(durations: seq<nat>, k: nat)
    ensures forall i :: 0 <= i < |ShotLines(durations, k)| ==> '\n' !in ShotLines(durations, k)[i]
  {
    hide Header, Field, Digits, ShotName;
    if durations != [] {
      PlainNames(k);
      PlainLines(ShotName(k), "DURATION_S", durations[0]);
      ShotLinesArePlain(durations[1..], k + 1);
    }
  }

  lemma ShotHeaders(k: nat, n: nat)
    ensures HeaderOf(Header(ShotName(k))) == Some(ShotName(k))
    ensures HeaderOf(Field("DURATION_S", Digits(n))).None? && HeaderOf(Field("N_SHOTS", Digits(n))).None?
  {
    ShotHeader(k);
    NoHeader(Field("DURATION_S", Digits(n)));
    NoHeader(Field("N_SHOTS", Digits(n)));
    hide HeaderOf, ShotName, Digits;
  }

  function ShotSections(durations: seq<nat>, k: nat): (sections: seq<Section>)
    ensures |sections| == |durations|
    ensures forall i :: 0 <= i < |durations| ==>
      sections[i] == Section(ShotName(k + i), [Field("DURATION_S", Digits(durations[i]))])
  {
    if durations == [] then []
    else [Section(ShotName(k), [Field("DURATION_S", Digits(durations[0]))])] + ShotSections(durations[1..], k + 1)
  }

  lemma {:induction false} ShotSectionsAre(durations: seq<nat>, k: nat)
    ensures Sections(ShotLines(durations, k)) == ShotSections(durations, k)
    ensures ShotLines(durations, k) != [] ==> HeaderOf(ShotLines(durations, k)[0]).Some?
    decreases |durations|
  {
    hide HeaderOf, Header, Field, Digits, ShotName;
    if durations != [] {
      var field, rest := Field("DURATION_S", Digits(durations[0])), ShotLines(durations[1..], k + 1);
      ShotHeaders(k, durations[0]);
      ShotSectionsAre(durations[1..], k + 1);
      assert [Header(ShotName(k))] + [field] + rest == ShotLines(durations, k);
      SectionIs(Header(ShotName(k)), [field], rest);
    }
  }

  lemma OneOverview(lines: seq<string>, header: string, fields: seq<string>, shots: seq<string>)
    requires lines == [header] + fields + shots && HeaderOf(header).Some?
    requires forall i :: 0 <= i < |lines| ==> '\n' !in lines[i]
    requires forall i :: 0 <= i < |fields| ==> HeaderOf(fields[i]).None?
    requires shots != [] ==> HeaderOf(shots[0]).Some?
    ensures NewlineLines(Join(lines)) == lines && Body(lines) == []
    ensures Sections(lines) == [Section(HeaderOf(header).value, fields)] + Sections(shots)
  {
    hide HeaderOf, Sections, Body, NewlineLines, Join;
    NewlineLinesOfJoin(lines);
    SectionIs(header, fields, shots);
  }

  lemma OverviewHeader()
    ensures HeaderOf(Header("OVERVIEW")) == Some("OVERVIEW")
  {
    HeaderLine("OVERVIEW");
    hide HeaderOf;
  }

  lemma AnnouncementIsPlain(announced: nat, total: nat)
    ensures forall i :: 0 <= i < |Announcement(announced, total)| ==>
      '\n' !in Announcement(announced, total)[i] && HeaderOf(Announcement(announced, total)[i]).None?
  {
    PlainNames(1);
    PlainLines("OVERVIEW", "N_SHOTS", announced);
    PlainLines("OVERVIEW", "DURATION_S", total);
    ShotHeaders(1, announced);
    ShotHeaders(1, total);
    hide HeaderOf, Field, Digits, ShotName;
  }

  lemma OverviewIsPlain()
    ensures '\n' !in Header("OVERVIEW")
  {
    PlainNames(1);
    PlainLines("OVERVIEW", "N_SHOTS", 1);
    hide Field, Digits, ShotName;
  }

  lemma ScriptSections(announced: nat, total: nat, durations: seq<nat>)
    ensures
      var lines := ScriptLines(announced, total, durations);
      && NewlineLines(Script(announced, total, durations)) == lines && Body(lines) == []
      && Sections(lines) == [Section("OVERVIEW", Announcement(announced, total))] + ShotSections(durations, 1)
  {
    hide HeaderOf, Announcement, Sections, Body, ShotLines, ShotSections, NewlineLines, Join, Header;
    AnnouncementIsPlain(announced, total);
    OverviewIsPlain();
    OverviewHeader();
    ShotLinesArePlain(durations, 1);
    ShotSectionsAre(durations, 1);
    var fields, shots := Announcement(announced, total), ShotLines(durations, 1);
    var lines := ScriptLines(announced, total, durations);
    forall i | 0 <= i < |lines| ensures '\n' !in lines[i] {
      if 0 < i <= |fields| {
        assert lines[i] == fields[i - 1];
      } else if i > |fields| {
        assert lines[i] == shots[i - 1 - |fields|];
      }
    }
    OneOverview(lines, Header("OVERVIEW"), fields, shots);
  }

  // ---------------------------------------------------------------- the condition

  predicate InRange(durations: seq<nat>) { forall i :: 0 <= i < |durations| ==> 3 <= durations[i] <= 15 }

  lemma ShotDuration(durations: seq<nat>, k: nat, i: nat)
    requires i < |durations|
    ensures IsDuration(ShotSections(durations, k)[i]) <==> 3 <= durations[i] <= 15
    ensures IsDuration(ShotSections(durations, k)[i]) ==> Duration(ShotSections(durations, k)[i]) == durations[i]
  {
    DurationIs(durations[i]);
    hide TheNumber, Field, Digits, ShotName;
  }

  predicate AreDurations(sections: seq<Section>) { forall i :: 0 <= i < |sections| ==> IsDuration(sections[i]) }

  lemma SectionDurations(durations: seq<nat>, k: nat)
    ensures AreDurations(ShotSections(durations, k)) <==> InRange(durations)
  {
    hide IsDuration;
    var sections := ShotSections(durations, k);
    if AreDurations(sections) {
      forall i | 0 <= i < |durations| ensures 3 <= durations[i] <= 15 {
        assert IsDuration(sections[i]);
        ShotDuration(durations, k, i);
      }
    }
    if InRange(durations) {
      forall i | 0 <= i < |sections| ensures IsDuration(sections[i]) { ShotDuration(durations, k, i); }
    }
  }

  lemma {:induction false} TotalIsSum(durations: seq<nat>, k: nat)
    requires InRange(durations)
    ensures AreDurations(ShotSections(durations, k))
    ensures TotalDuration(ShotSections(durations, k)) == Sum(durations)
    decreases |durations|
  {
    hide IsDuration, Duration, Field, ShotName;
    SectionDurations(durations, k);
    if durations != [] {
      ShotDuration(durations, k, 0);
      TotalIsSum(durations[1..], k + 1);
      assert ShotSections(durations, k)[1..] == ShotSections(durations[1..], k + 1);
    }
  }

  // Such a script meets the contract exactly when it has one to ten shots of three to
  // fifteen seconds, as many as it announces, and announces the sum of their durations.
  lemma ScriptMeetsContractIff(announced: nat, total: nat, durations: seq<nat>)
    ensures MeetsContract(Script(announced, total, durations)) <==>
      && announced == |durations| && 1 <= announced <= 10
      && InRange(durations) && total == Sum(durations)
  {
    var text, lines := Script(announced, total, durations), ScriptLines(announced, total, durations);
    var sections := Sections(lines);
    hide Script, ScriptLines, Sections, Body, NewlineLines, TheNumber, Field, Digits, ShotName, TotalDuration, Sum,
      IsStructured, IsTimed, ShotSections, Announcement, InRange, IsDuration;
    ScriptSections(announced, total, durations);
    OverviewIs(announced, total);
    SectionDurations(durations, 1);
    if InRange(durations) { TotalIsSum(durations, 1); }
    assert sections[1..] == ShotSections(durations, 1);
    forall shots: nat
      ensures Declares(text, shots) <==>
        shots == announced == |durations| && 1 <= shots <= 10 && InRange(durations) && total == Sum(durations)
    {
      DeclaresIff(lines, sections, shots, announced, total, durations);
    }
    assert Declares(text, announced) ==> MeetsContract(text);
  }

  lemma StructuredIff(lines: seq<string>, sections: seq<Section>, shots: nat, announced: nat, durations: seq<nat>)
    requires sections == Sections(lines) && Body(lines) == [] && sections != []
    requires sections[0].name == "OVERVIEW" && sections[1..] == ShotSections(durations, 1)
    requires TheNumber(sections[0].lines, "N_SHOTS") == Some(announced)
    ensures IsStructured(lines, shots) <==> shots == announced == |durations| && 1 <= shots <= 10
  {
    hide Sections, Body, TheNumber, Field, Digits, ShotName;
    forall k | 1 <= k < |sections| ensures sections[k].name == ShotName(k) {
      assert sections[k] == sections[1..][k - 1];
    }
  }

  lemma DeclaresIff(lines: seq<string>, sections: seq<Section>, shots: nat, announced: nat, total: nat,
      durations: seq<nat>)
    requires sections == Sections(lines) && Body(lines) == [] && sections != []
    requires sections[0].name == "OVERVIEW" && sections[1..] == ShotSections(durations, 1)
    requires TheNumber(sections[0].lines, "N_SHOTS") == Some(announced)
    requires TheNumber(sections[0].lines, "DURATION_S") == Some(total)
    requires AreDurations(ShotSections(durations, 1)) <==> InRange(durations)
    requires InRange(durations) ==> TotalDuration(ShotSections(durations, 1)) == Sum(durations)
    ensures IsStructured(lines, shots) && IsTimed(sections) <==>
      shots == announced == |durations| && 1 <= shots <= 10 && InRange(durations) && total == Sum(durations)
  {
    StructuredIff(lines, sections, shots, announced, durations);
    hide Sections, Body, TheNumber, IsStructured, ShotSections, TotalDuration, Sum, IsDuration, InRange;
  }
}
