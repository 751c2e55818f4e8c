// The duration contract of a short-drama script, and how many shots it declares. Paid
// steps run only under it.
module DurationContract {
  import opened Options
  import opened Texts

  // ---------------------------------------------------------------- lines

  // What the expressions take for lines: they go by newlines alone.
  function NewlineLines(s: string): (lines: seq<string>)
    ensures lines != []
  {
    if s == "" then [""]
    else
      var rest := NewlineLines(s[1..]);
      if s[0] == '\n' then [""] + rest else [[s[0]] + rest[0]] + rest[1..]
  }

  predicate IsBlank(c: char) { c == ' ' || c == '\t' }

  function SkipBlanks(s: string): string { if s != "" && IsBlank(s[0]) then SkipBlanks(s[1..]) else s }

  function DropBlanks(s: string): string {
    if s != "" && IsBlank(s[|s| - 1]) then DropBlanks(s[..|s| - 1]) else s
  }

  // Without what [ \t]*\r?$ matches.
  function WithoutEnd(line: string): string {
    DropBlanks(if line != "" && line[|line| - 1] == '\r' then line[..|line| - 1] else line)
  }

  // ---------------------------------------------------------------- sections

  predicate IsName(s: string) {
    && s != "" && 'A' <= s[0] <= 'Z'
    && forall c <- s :: 'A' <= c <= 'Z' || c == '_' || IsDigit(c)
  }

  // The name in a line === NAME ===
  function HeaderOf(line: string): Option<string> {
    var t := WithoutEnd(line);
    if |t| > 8 && t[..4] == "=== " && t[|t| - 4..] == " ===" && IsName(t[4..|t| - 4]) then Some(t[4..|t| - 4]) else None
  }

  datatype Section = Section(name: string, lines: seq<string>)

  // The lines before the first header.
  function Body(lines: seq<string>): seq<string> {
    if lines == [] || HeaderOf(lines[0]).Some? then [] else [lines[0]] + Body(lines[1..])
  }

  function Sections(lines: seq<string>): seq<Section> {
    if lines == [] then []
    else
      match HeaderOf(lines[0])
      case None => Sections(lines[1..])
      case Some(name) => [Section(name, Body(lines[1..]))] + Sections(lines[1..])
  }

  function ShotName(n: nat): string { "SHOT_" + Digits(n) }

  // ---------------------------------------------------------------- fields

  function FieldValue(line: string, key: string): Option<string> {
    var s := SkipBlanks(line);
    if StartsWith(s, key + ":") then Some(WithoutEnd(SkipBlanks(s[|key| + 1..]))) else None
  }

  function Values(lines: seq<string>, key: string): seq<string> {
    if lines == [] then []
    else
      match FieldValue(lines[0], key)
      case None => Values(lines[1..], key)
      case Some(v) => [v] + Values(lines[1..], key)
  }

  // The field's number, if it stands there exactly once.
  function TheNumber(lines: seq<string>, key: string): Option<nat> {
    var values := Values(lines, key);
    if |values| == 1 && values[0] != "" && AreDigits(values[0]) then Some(Number(values[0])) else None
  }

  predicate IsDuration(section: Section) {
    var d := TheNumber(section.lines, "DURATION_S");
    d.Some? && 3 <= d.value <= 15
  }

  function Duration(section: Section): nat
    requires IsDuration(section)
  {
    TheNumber(section.lines, "DURATION_S").value
  }

  function TotalDuration(sections: seq<Section>): nat
    requires forall k :: 0 <= k < |sections| ==> IsDuration(sections[k])
  {
    if sections == [] then 0 else Duration(sections[0]) + TotalDuration(sections[1..])
  }

  // ---------------------------------------------------------------- the contract

  // The sections are the overview and as many shots, in order, as it declares. Other
  // headers are errors; so is text before the overview.
  predicate IsStructured(lines: seq<string>, shots: nat) {
    var sections := Sections(lines);
    && (forall k :: 0 <= k < |Body(lines)| ==> Strip(Body(lines)[k]) == "")
    && 1 <= shots <= 10 && |sections| == shots + 1
    && sections[0].name == "OVERVIEW" && TheNumber(sections[0].lines, "N_SHOTS") == Some(shots)
    && forall k :: 1 <= k < |sections| ==> sections[k].name == ShotName(k)
  }

  predicate IsTimed(sections: seq<Section>) {
    && sections != []
    && (forall k :: 0 <= k < |sections[1..]| ==> IsDuration(sections[1..][k]))
    && TheNumber(sections[0].lines, "DURATION_S") == Some(TotalDuration(sections[1..]))
  }

  predicate Declares(text: string, shots: nat) {
    IsStructured(NewlineLines(text), shots) && IsTimed(Sections(NewlineLines(text)))
  }

  // short_drama_duration_contract_valid
  predicate MeetsContract(text: string) { exists shots :: 1 <= shots <= 10 && Declares(text, shots) }

  // ---------------------------------------------------------------- shots beyond the declared

  lemma NewlineFirst(line: string, rest: string)
    requires '\n' !in line
    ensures NewlineLines(line + "\n" + rest) == [line] + NewlineLines(rest)
  {
    var s := line + "\n" + rest;
    if line == "" {
      assert s[1..] == rest;
    } else {
      assert line[0] in line && forall c <- line[1..] :: c in line;
      NewlineFirst(line[1..], rest);
      assert s[1..] == line[1..] + "\n" + rest;
      assert [line[0]] + line[1..] == line;
    }
  }

  lemma {:induction false} NewlineOnly(line: string)
    requires '\n' !in line
    ensures NewlineLines(line) == [line]
  {
    if line != "" {
      assert line[0] in line && forall c <- line[1..] :: c in line;
      NewlineOnly(line[1..]);
      assert [line[0]] + line[1..] == line;
    }
  }

  // No line ends but at a newline.
  predicate PlainBreaks(s: string) { forall c <- s :: IsLineBreak(c) ==> c == '\n' }

  lemma {:induction false} LinesAreNewlineLines(s: string, line: string)
    requires PlainBreaks(s) && line in Lines(s)
    ensures line in NewlineLines(s)
    decreases |s|
  {
    hide IsLineBreak;
    var n := FirstBreak(s);
    var first := s[..n];
    NoNewline(s, n);
    if n == |s| {
      NewlineOnly(first);
      assert s == first;
    } else {
      assert s[n] in s;
      LineFeedAlone(s[n]);
      var rest := s[n + 1..];
      assert s == first + "\n" + rest;
      NewlineFirst(first, rest);
      assert forall c <- rest :: c in s;
      if line != first { LinesAreNewlineLines(rest, line); }
    }
  }

  lemma NoNewline(s: string, n: nat)
    requires n <= |s| && OneLine(s[..n])
    ensures '\n' !in s[..n]
  {
  }

  lemma LineFeedAlone(c: char)
    requires c == '\n'
    ensures c != '\r'
  {
  }

  lemma HeaderLine(name: string)
    requires IsName(name)
    ensures HeaderOf("=== " + name + " ===") == Some(name)
  {
    var line := "=== " + name + " ===";
    assert line[|line| - 1] == '=';
    assert line[..4] == "=== " && line[|line| - 4..] == " ===" && line[4..|line| - 4] == name;
  }

  lemma ShotIsName(n: nat)
    ensures IsName(ShotName(n))
  {
    NumberOfDigits(n);
    var name := ShotName(n);
    assert name[0] == 'S' && forall c <- name :: c in "SHOT_" || c in Digits(n);
    hide Digits;
  }

  lemma ShotHeader(n: nat)
    ensures HeaderOf("=== " + ShotName(n) + " ===") == Some(ShotName(n))
  {
    ShotIsName(n);
    hide ShotName, HeaderOf, IsName;
    HeaderLine(ShotName(n));
  }

  lemma {:induction false} HeaderIsSection(lines: seq<string>, line: string) returns (k: nat)
    requires line in lines && HeaderOf(line).Some?
    ensures k < |Sections(lines)| && Sections(lines)[k].name == HeaderOf(line).value
  {
    hide HeaderOf, Body;
    if lines[0] == line {
      k := 0;
    } else {
      k := HeaderIsSection(lines[1..], line);
      if HeaderOf(lines[0]).Some? { k := k + 1; }
    }
  }

  lemma ShotNamesDiffer(m: nat, n: nat)
    ensures ShotName(m) == ShotName(n) ==> m == n
    ensures ShotName(m) != "OVERVIEW"
  {
    NumberOfDigits(m);
    NumberOfDigits(n);
    assert ShotName(m)[0] == 'S' && "OVERVIEW"[0] == 'O';
    assert ShotName(m)[5..] == Digits(m) && ShotName(n)[5..] == Digits(n);
    hide Digits;
  }

  lemma {:induction false} SectionHasHeader(lines: seq<string>, k: nat)
    requires k < |Sections(lines)|
    ensures HasHeader(lines, Sections(lines)[k].name)
  {
    hide HeaderOf, Body;
    if HeaderOf(lines[0]).None? {
      SectionHasHeader(lines[1..], k);
      HeaderFurtherOn(lines, Sections(lines)[k].name);
    } else if k > 0 {
      SectionHasHeader(lines[1..], k - 1);
      HeaderFurtherOn(lines, Sections(lines)[k].name);
    }
  }

  lemma HeaderFurtherOn(lines: seq<string>, name: string)
    requires lines != [] && HasHeader(lines[1..], name)
    ensures HasHeader(lines, name)
  {
    hide HeaderOf;
    var k :| 0 <= k < |lines[1..]| && HeaderOf(lines[1..][k]) == Some(name);
    assert HeaderOf(lines[k + 1]) == Some(name);
  }

  predicate HasHeader(lines: seq<string>, name: string) {
    exists k :: 0 <= k < |lines| && HeaderOf(lines[k]) == Some(name)
  }

  // Where the workflow's guards look for a shot: among the lines of splitlines.
  predicate HasShotLine(text: string, n: nat) { "=== " + ShotName(n) + " ===" in Lines(text) }

  // Every shot the guards find has a header for the contract too.
  ghost predicate HeadersAgree(text: string) {
    forall n: nat :: HasShotLine(text, n) ==> HasHeader(NewlineLines(text), ShotName(n))
  }

  lemma ShotIsDeclared(text: string, shots: nat, n: nat)
    requires Declares(text, shots)
    ensures HasHeader(NewlineLines(text), ShotName(n)) <==> 1 <= n <= shots
  {
    hide HeaderOf, NewlineLines, ShotName, IsTimed;
    var lines := NewlineLines(text);
    if 1 <= n <= shots { SectionHasHeader(lines, n); }
    if HasHeader(lines, ShotName(n)) {
      var i :| 0 <= i < |lines| && HeaderOf(lines[i]) == Some(ShotName(n));
      var k := HeaderIsSection(lines, lines[i]);
      ShotNamesDiffer(n, k);
    }
  }

  // The shots that the guards find are all declared exactly when the two ways of taking
  // lines agree on the headers.
  lemma HeadersAreDeclared(text: string, shots: nat)
    requires Declares(text, shots)
    ensures HeadersAgree(text) <==> forall n: nat :: HasShotLine(text, n) ==> 1 <= n <= shots
  {
    hide HasShotLine, HasHeader, Declares, ShotName;
    forall n: nat | HasShotLine(text, n)
      ensures HasHeader(NewlineLines(text), ShotName(n)) <==> 1 <= n <= shots
    {
      ShotIsDeclared(text, shots, n);
    }
  }

  // They do where lines end at newlines alone.
  lemma PlainHeadersAgree(text: string)
    requires PlainBreaks(text)
    ensures HeadersAgree(text)
  {
    hide HeaderOf, Lines, NewlineLines, ShotName, PlainBreaks;
    forall n: nat | HasShotLine(text, n) ensures HasHeader(NewlineLines(text), ShotName(n)) {
      var line := "=== " + ShotName(n) + " ===";
      LinesAreNewlineLines(text, line);
      ShotHeader(n);
      var k :| 0 <= k < |NewlineLines(text)| && NewlineLines(text)[k] == line;
      assert HeaderOf(NewlineLines(text)[k]) == Some(ShotName(n));
    }
  }

  // ---------------------------------------------------------------- a script that meets it

  lemma {:induction false} DropBlanksIsPrefix(s: string)
    ensures |DropBlanks(s)| <= |s| && DropBlanks(s) == s[..|DropBlanks(s)|]
  {
    if s != "" && IsBlank(s[|s| - 1]) { DropBlanksIsPrefix(s[..|s| - 1]); }
  }

  lemma NoHeader(line: string)
    requires line != "" && line[0] != '='
    ensures HeaderOf(line).None?
  {
    DropBlanksIsPrefix(line);
    DropBlanksIsPrefix(line[..|line| - 1]);
    var t := WithoutEnd(line);
    if |t| > 8 { assert t[..4][0] == line[0] && "=== "[0] == '='; }
    hide IsName;
  }

  function Field(key: string, value: string): string { key + ":" + (" " + value) }

  lemma DigitIsVisible(c: char)
    ensures IsDigit(c) ==> !IsBlank(c) && c != '\r'
  {
  }

  // A number is kept as it is.
  lemma NumberIsKept(value: string)
    requires value != "" && AreDigits(value)
    ensures SkipBlanks(" " + value) == value && WithoutEnd(value) == value
  {
    assert value[0] in value && value[|value| - 1] in value;
    DigitIsVisible(value[0]);
    DigitIsVisible(value[|value| - 1]);
    hide IsBlank, IsDigit;
    assert (" " + value)[1..] == value;
    assert IsBlank(' ') by { BlankSpace(); }
  }

  lemma BlankSpace()
    ensures IsBlank(' ')
  {
  }

  lemma FieldIs(key: string, value: string)
    requires key != "" && !IsBlank(key[0]) && value != "" && AreDigits(value)
    ensures FieldValue(Field(key, value), key) == Some(value)
  {
    var line := Field(key, value);
    NumberIsKept(value);
    assert line[..|key| + 1] == key + ":" && line[|key| + 1..] == " " + value;
    assert line[0] == key[0];
    hide IsBlank, WithoutEnd, AreDigits;
    assert SkipBlanks(line) == line;
  }

  lemma FieldDiffers(key: string, value: string, other: string)
    requires key != "" && other != "" && key[0] != other[0] && !IsBlank(key[0])
    ensures FieldValue(Field(key, value), other).None?
  {
    var line := Field(key, value);
    FirstCharsDiffer(line, other + ":");
    hide IsBlank, StartsWith;
    assert line[0] == key[0] && SkipBlanks(line) == line;
  }

  lemma NumberOfOne(f: string, key: string, value: string)
    requires FieldValue(f, key) == Some(value) && value != "" && AreDigits(value)
    ensures TheNumber([f], key) == Some(Number(value))
  {
    hide FieldValue, Number;
    assert [f][1..] == [];
    assert Values([f], key) == [value] + Values([], key);
  }

  lemma NumberOfTwo(f: string, g: string, key: string, value: string)
    requires (FieldValue(f, key) == Some(value) && FieldValue(g, key).None?)
          || (FieldValue(f, key).None? && FieldValue(g, key) == Some(value))
    requires value != "" && AreDigits(value)
    ensures TheNumber([f, g], key) == Some(Number(value))
  {
    hide FieldValue, Number;
    assert [f, g][1..] == [g] && [g][1..] == [];
    assert Values([], key) == [];
    if FieldValue(f, key).None? {
      assert Values([f, g], key) == Values([g], key) == [value] + Values([], key);
    } else {
      assert Values([g], key) == Values([], key);
      assert Values([f, g], key) == [value] + Values([g], key);
    }
  }

  // ---------------------------------------------------------------- one shot

  function Header(name: string): string { "=== " + name + " ===" }

  const ONE := "1"
  const SECONDS := "5"

  lemma ExampleNumbers()
    ensures AreDigits(ONE) && AreDigits(SECONDS) && Number(ONE) == 1 && Number(SECONDS) == 5
    ensures Digits(1) == ONE
  {
    LastDigit("", 1);
    LastDigit("", 5);
    assert "" + ['0' + 1 as char] == ONE && "" + ['0' + 5 as char] == SECONDS;
  }

  // One shot, said to take five seconds.
  function OneShot(shot: seq<string>): seq<string> {
    [Header("OVERVIEW"), Field("N_SHOTS", ONE), Field("DURATION_S", SECONDS), Header(ShotName(1))] + shot
  }

  function Example(): seq<string> { OneShot([Field("DURATION_S", SECONDS)]) }

  lemma OverviewFields(shots: string, duration: string)
    requires shots == Field("N_SHOTS", ONE) && duration == Field("DURATION_S", SECONDS)
    ensures TheNumber([shots, duration], "N_SHOTS") == Some(1)
    ensures TheNumber([shots, duration], "DURATION_S") == Some(5)
    ensures TheNumber([duration], "DURATION_S") == Some(5)
  {
    ExampleNumbers();
    FieldIs("N_SHOTS", ONE);
    FieldIs("DURATION_S", SECONDS);
    FieldDiffers("N_SHOTS", ONE, "DURATION_S");
    FieldDiffers("DURATION_S", SECONDS, "N_SHOTS");
    hide FieldValue, Field, TheNumber, Number, AreDigits;
    NumberOfTwo(shots, duration, "N_SHOTS", ONE);
    NumberOfTwo(shots, duration, "DURATION_S", SECONDS);
    NumberOfOne(duration, "DURATION_S", SECONDS);
  }

  lemma {:induction false} BodyIs(body: seq<string>, rest: seq<string>)
    requires forall k :: 0 <= k < |body| ==> HeaderOf(body[k]).None?
    requires rest != [] ==> HeaderOf(rest[0]).Some?
    ensures Body(body + rest) == body && Sections(body + rest) == Sections(rest)
  {
    hide HeaderOf;
    if body == [] {
      assert body + rest == rest;
    } else {
      assert (body + rest)[1..] == body[1..] + rest;
      BodyIs(body[1..], rest);
    }
  }

  lemma FirstSection(lines: seq<string>)
    requires lines != [] && HeaderOf(lines[0]).Some?
    ensures Sections(lines) == [Section(HeaderOf(lines[0]).value, Body(lines[1..]))] + Sections(lines[1..])
    ensures Body(lines) == []
  {
    hide HeaderOf;
  }

  lemma SectionIs(header: string, body: seq<string>, rest: seq<string>)
    requires HeaderOf(header).Some? && forall k :: 0 <= k < |body| ==> HeaderOf(body[k]).None?
    requires rest != [] ==> HeaderOf(rest[0]).Some?
    ensures Sections([header] + body + rest) == [Section(HeaderOf(header).value, body)] + Sections(rest)
    ensures Body([header] + body + rest) == []
  {
    hide HeaderOf, Sections, Body;
    var lines := [header] + body + rest;
    BodyIs(body, rest);
    assert lines[0] == header && lines[1..] == body + rest;
    FirstSection(lines);
  }

  lemma TwoSections(h: string, overview: seq<string>, h': string, shot: seq<string>)
    requires HeaderOf(h).Some? && HeaderOf(h').Some?
    requires forall k :: 0 <= k < |overview| ==> HeaderOf(overview[k]).None?
    requires forall k :: 0 <= k < |shot| ==> HeaderOf(shot[k]).None?
    ensures
      var lines := [h] + overview + ([h'] + shot);
      && Sections(lines) == [Section(HeaderOf(h).value, overview), Section(HeaderOf(h').value, shot)]
      && Body(lines) == []
  {
    var rest := [h'] + shot;
    assert Sections([]) == [];
    hide HeaderOf, Sections, Body;
    SectionIs(h', shot, []);
    assert rest + [] == rest;
    SectionIs(h, overview, rest);
  }

  lemma {:induction false} NewlineLinesOfJoin(lines: seq<string>)
    requires lines != [] && forall k :: 0 <= k < |lines| ==> '\n' !in lines[k]
    ensures NewlineLines(Join(lines)) == lines
  {
    if |lines| == 1 {
      NewlineOnly(lines[0]);
    } else {
      NewlineLinesOfJoin(lines[1..]);
      NewlineFirst(lines[0], Join(lines[1..]));
    }
  }

  lemma ExampleIsPlain(k: nat)
    requires k < |Example()|
    ensures '\n' !in Example()[k] && '\r' !in Example()[k] && |Example()[k]| <= 20 && Example()[k] != ""
  {
    ExampleNumbers();
    hide Digits, Number, AreDigits;
  }

  lemma ExampleHeaders()
    ensures HeaderOf(Header("OVERVIEW")) == Some("OVERVIEW") && HeaderOf(Header(ShotName(1))) == Some(ShotName(1))
    ensures HeaderOf(Field("N_SHOTS", ONE)).None? && HeaderOf(Field("DURATION_S", SECONDS)).None?
  {
    HeaderLine("OVERVIEW");
    ShotHeader(1);
    NoHeader(Field("N_SHOTS", ONE));
    NoHeader(Field("DURATION_S", SECONDS));
    hide HeaderOf, ShotName;
  }

  // What the shot's section holds besides its duration is up to the writer.
  lemma OneShotMeetsContract(shot: seq<string>)
    requires forall k :: 0 <= k < |shot| ==> '\n' !in shot[k] && HeaderOf(shot[k]).None?
    requires TheNumber(shot, "DURATION_S") == Some(5)
    ensures Declares(Join(OneShot(shot)), 1) && MeetsContract(Join(OneShot(shot)))
  {
    OpeningIsPlain();
    ExampleHeaders();
    var shots, duration := Field("N_SHOTS", ONE), Field("DURATION_S", SECONDS);
    OverviewFields(shots, duration);
    var lines := OneShot(shot);
    hide Field, Header, HeaderOf, NewlineLines, Join, ShotName, Sections, Body, TheNumber;
    OneShotDeclares(lines, Header("OVERVIEW"), shots, duration, Header(ShotName(1)), shot);
  }

  lemma OpeningIsPlain()
    ensures '\n' !in Header("OVERVIEW") && '\n' !in Header(ShotName(1))
    ensures '\n' !in Field("N_SHOTS", ONE) && '\n' !in Field("DURATION_S", SECONDS)
  {
    ExampleNumbers();
    hide Digits, Number, AreDigits;
  }

  lemma OneShotDeclares(lines: seq<string>, h: string, shots: string, duration: string, h': string, shot: seq<string>)
    requires lines == [h, shots, duration, h'] + shot
    requires forall k :: 0 <= k < |shot| ==> '\n' !in shot[k] && HeaderOf(shot[k]).None?
    requires '\n' !in h && '\n' !in shots && '\n' !in duration && '\n' !in h'
    requires HeaderOf(h) == Some("OVERVIEW") && HeaderOf(h') == Some(ShotName(1))
    requires HeaderOf(shots).None? && HeaderOf(duration).None?
    requires TheNumber([shots, duration], "N_SHOTS") == Some(1)
    requires TheNumber([shots, duration], "DURATION_S") == Some(5) == TheNumber(shot, "DURATION_S")
    ensures Declares(Join(lines), 1)
  {
    hide HeaderOf, NewlineLines, Join, ShotName, Sections, Body, TheNumber, IsStructured, IsTimed;
    NewlineLinesOfJoin(lines);
    var overview := [shots, duration];
    TwoSections(h, overview, h', shot);
    assert [h] + overview + ([h'] + shot) == lines;
    ExampleDeclares(lines, Sections(lines), overview, shot);
  }

  lemma ExampleMeetsContract()
    ensures Declares(Join(Example()), 1) && MeetsContract(Join(Example()))
  {
    var duration := Field("DURATION_S", SECONDS);
    OpeningIsPlain();
    ExampleHeaders();
    OverviewFields(Field("N_SHOTS", ONE), duration);
    hide Field, Header, HeaderOf, NewlineLines, ShotName, Declares, TheNumber, OneShot, Join;
    OneShotMeetsContract([duration]);
  }

  lemma ExampleDeclares(lines: seq<string>, sections: seq<Section>, overview: seq<string>, shot: seq<string>)
    requires sections == Sections(lines) && Body(lines) == []
    requires sections == [Section("OVERVIEW", overview), Section(ShotName(1), shot)]
    requires TheNumber(overview, "N_SHOTS") == Some(1)
    requires TheNumber(overview, "DURATION_S") == Some(5) == TheNumber(shot, "DURATION_S")
    ensures IsStructured(lines, 1) && IsTimed(sections)
  {
    hide Body, Sections, TheNumber, ShotName;
    assert sections[1..] == [sections[1]] && sections[1..][1..] == [];
    assert TotalDuration([]) == 0;
  }

  // ---------------------------------------------------------------- a shot it does not count

  // A second shot's header, on a line that a vertical tab begins.
  function HiddenHeader(): string { "\U{0B}" + Header(ShotName(2)) }

  lemma {:induction false} LastLinesStay(lines: seq<string>, last: string, line: string)
    requires lines != [] && (forall k :: 0 <= k < |lines| ==> OneLine(lines[k])) && line in Lines(last)
    ensures line in Lines(Join(lines + [last]))
  {
    var all := lines + [last];
    assert all[1..] == lines[1..] + [last];
    LinesOfFirst(lines[0], Join(all[1..]));
    if |lines| > 1 { LastLinesStay(lines[1..], last, line); }
  }

  lemma LineAfterBreak(c: char, line: string)
    requires IsLineBreak(c) && c != '\r' && OneLine(line) && line != ""
    ensures line in Lines([c] + line)
  {
    var s := [c] + line;
    hide IsLineBreak;
    LinesOfOne(line);
    assert s[1..] == line && FirstBreak(s) == 0;
    assert Lines(s) == [s[..0]] + Lines(line);
  }

  lemma TwoIsTwo()
    ensures Header(ShotName(2)) == "=== SHOT_2 ==="
  {
    LastDigit("", 2);
    assert "" + ['0' + 2 as char] == "2";
  }

  // For the contract that line is neither a header nor a field.
  lemma HiddenIsNothing(c: char, rest: string)
    requires c == '\U{0B}'
    ensures HeaderOf([c] + rest).None? && FieldValue([c] + rest, "DURATION_S").None?
  {
    var line := [c] + rest;
    NoHeader(line);
    FirstCharsDiffer(line, "DURATION_S" + ":");
    hide HeaderOf, StartsWith;
    assert SkipBlanks(line) == line;
  }

  lemma OpeningIsOneLine(name: string, key: string, value: string)
    requires OneLine(name) && OneLine(key) && OneLine(value)
    ensures OneLine(Header(name)) && OneLine(Field(key, value))
  {
  }

  lemma NamesAreOneLine()
    ensures OneLine("OVERVIEW") && OneLine(ShotName(1)) && OneLine("N_SHOTS") && OneLine("DURATION_S")
    ensures OneLine(ONE) && OneLine(SECONDS)
  {
    ExampleNumbers();
    hide Digits, Number, AreDigits;
  }

  // The contract counts one shot in a script, and the guards find a second one.
  lemma ShotMayBeHidden() returns (text: string)
    ensures Declares(text, 1) && MeetsContract(text) && HasShotLine(text, 2) && !HeadersAgree(text)
  {
    var hidden := HiddenHeader();
    var shot := [Field("DURATION_S", SECONDS), hidden];
    text := Join(OneShot(shot));
    hide Declares, HeadersAgree, HasShotLine, OneShot, Join, Field, HiddenHeader;
    HiddenIsNotCounted(shot[0], hidden);
    HiddenIsFound(shot[0], hidden);
    HeadersAreDeclared(text, 1);
  }

  lemma HiddenIsNotCounted(duration: string, hidden: string)
    requires duration == Field("DURATION_S", SECONDS) && hidden == HiddenHeader()
    ensures Declares(Join(OneShot([duration, hidden])), 1) && MeetsContract(Join(OneShot([duration, hidden])))
  {
    OpeningIsPlain();
    ExampleHeaders();
    ExampleNumbers();
    FieldIs("DURATION_S", SECONDS);
    HiddenIsPlain(hidden);
    hide Declares, HeaderOf, FieldValue, TheNumber, Digits, Number, AreDigits, Join, OneShot, Field, HiddenHeader;
    NumberOfTwo(duration, hidden, "DURATION_S", SECONDS);
    OneShotMeetsContract([duration, hidden]);
  }

  lemma HiddenIsPlain(hidden: string)
    requires hidden == HiddenHeader()
    ensures '\n' !in hidden && HeaderOf(hidden).None? && FieldValue(hidden, "DURATION_S").None?
  {
    TwoIsTwo();
    HiddenIsNothing('\U{0B}', Header(ShotName(2)));
    hide HeaderOf, FieldValue, Digits;
  }

  lemma HiddenLineIs(hidden: string, shown: string)
    requires hidden == HiddenHeader() && shown == Header(ShotName(2))
    ensures shown in Lines(hidden)
  {
    TwoIsTwo();
    assert OneLine(shown);
    hide Lines, Digits, Header, ShotName;
    LineAfterBreak('\U{0B}', shown);
  }

  lemma OneShotIsOneLine(lines: seq<string>)
    requires lines == Example()
    ensures lines != [] && forall k :: 0 <= k < |lines| ==> OneLine(lines[k])
  {
    NamesAreOneLine();
    OpeningIsOneLine("OVERVIEW", "N_SHOTS", ONE);
    OpeningIsOneLine(ShotName(1), "DURATION_S", SECONDS);
    hide Header, Field, ShotName, OneLine;
  }

  lemma ShotLine(text: string, n: nat)
    requires Header(ShotName(n)) in Lines(text)
    ensures HasShotLine(text, n)
  {
    hide Lines, ShotName;
  }

  lemma HiddenIsFound(duration: string, hidden: string)
    requires duration == Field("DURATION_S", SECONDS) && hidden == HiddenHeader()
    ensures HasShotLine(Join(OneShot([duration, hidden])), 2)
  {
    var lines, shown := OneShot([duration]), Header(ShotName(2));
    assert lines + [hidden] == OneShot([duration, hidden]);
    hide Lines, Join, HasShotLine, OneShot, Header, Field, ShotName, HiddenHeader, OneLine;
    OneShotIsOneLine(lines);
    HiddenLineIs(hidden, shown);
    LastLinesStay(lines, hidden, shown);
    ShotLine(Join(lines + [hidden]), 2);
  }
}
