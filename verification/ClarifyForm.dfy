// What becomes of the reply to a gate before the workflow sees it: its lines are parsed
// into the form's fields, and where the one required field says nothing, a language
// model fills it in.
module ClarifyForm {
  import opened Options
  import opened Texts

  // What came back, and whether a form composed it from its fields.
  datatype Message = Message(text: string, isForm: bool)

  // A message, what the model would put in the user's place, and whether the request
  // was in English.
  datatype Answer = Answer(message: Message, candidate: string, english: bool)

  // ---------------------------------------------------------------- delegating

  // str.lower, as far as the phrases below can tell: nothing but their own letters'
  // capitals is lowered to one of them.
  function Lower(s: string): string {
    seq(|s|, i requires 0 <= i < |s| => if 'A' <= s[i] <= 'Z' then s[i] - 'A' + 'a' else s[i])
  }

  const UNINFORMATIVE: set<string> := {
    "", "n/a", "na", "none", "null", "any", "anything", "whatever", "no preference", "no preferences",
    "up to you", "you decide", "not sure",
    "都可以", "都行", "随便", "无所谓", "不限", "任意", "看着办", "你决定", "帮我决定", "不确定", "不知道"}

  const CANCEL_KEYWORDS: seq<string> := ["cancel", "取消", "算了", "停止", "stop", "abort"]

  const MAX_REPLY: nat := 4000
  const MAX_NOTES: nat := 2000

  // The value is empty or leaves the answer to the model.
  predicate Delegated(value: string) { Lower(Strip(value)) in UNINFORMATIVE }

  // The message ends the run.
  predicate Cancels(m: Message) {
    exists k :: 0 <= k < |CANCEL_KEYWORDS| && Contains(Lower(m.text), CANCEL_KEYWORDS[k])
  }

  // ---------------------------------------------------------------- the shape of a line

  // "key: value", "1) value" or "1. value", or anything else.
  datatype Shape = Keyed(key: string, value: string) | Numbered(index: nat, value: string) | Bare(value: string)

  predicate IsLetter(c: char) { 'a' <= c <= 'z' || 'A' <= c <= 'Z' || c == '_' }

  // How many characters at the start of the text are digits, or letters and digits.
  function Span(s: string, letters: bool): (n: nat)
    ensures n <= |s|
  {
    if s != "" && (IsDigit(s[0]) || (letters && IsLetter(s[0]))) then 1 + Span(s[1..], letters) else 0
  }

  function ShapeOf(line: string): Shape {
    var s := Strip(line);
    var name, digits := Span(s, true), Span(s, false);
    var afterName, afterDigits := StripLeft(s[name..]), StripLeft(s[digits..]);
    if name > 0 && IsLetter(s[0]) && afterName != "" && afterName[0] in {':', '：'} then
      Keyed(s[..name], Strip(afterName[1..]))
    else if digits > 0 && afterDigits != "" && afterDigits[0] in {')', '.'} then
      Numbered(Number(s[..digits]), Strip(afterDigits[1..]))
    else Bare(s)
  }

  // ---------------------------------------------------------------- the fields

  // A gate's form has two fields: the review, which is required, and the notes that
  // every form has.
  datatype Slot = Review(value: string) | Notes(value: string) | NoField

  // What one line is for. A bare line goes by where it stands.
  function SlotOf(shape: Shape, place: nat): Slot {
    match shape
    case Keyed(key, v) => if key == "review" then Review(v) else if key == "additional_notes" then Notes(v) else NoField
    case Numbered(n, v) => if n == 1 then Review(v) else if n == 2 then Notes(v) else NoField
    case Bare(v) => if place == 0 then Review(v) else if place == 1 then Notes(v) else NoField
  }

  function Shapes(text: string): seq<Shape> { ShapesOf(Lines(text)) }

  // The lines that are not blank.
  function ShapesOf(lines: seq<string>): seq<Shape> {
    if lines == [] then [] else (if Strip(lines[0]) == "" then [] else [ShapeOf(lines[0])]) + ShapesOf(lines[1..])
  }

  predicate OneFormat(shapes: seq<Shape>) {
    || (forall k :: 0 <= k < |shapes| ==> shapes[k].Keyed?)
    || (forall k :: 0 <= k < |shapes| ==> shapes[k].Numbered?)
    || (forall k :: 0 <= k < |shapes| ==> shapes[k].Bare?)
  }

  function Slots(shapes: seq<Shape>): seq<Slot> {
    seq(|shapes|, k requires 0 <= k < |shapes| => SlotOf(shapes[k], k))
  }

  // An unknown field, or a value that is too long.
  predicate IsInvalid(slot: Slot) {
    match slot
    case Review(v) => |v| > MAX_REPLY
    case Notes(v) => |v| > MAX_NOTES
    case NoField => true
  }

  function LastReview(slots: seq<Slot>): Option<string> {
    if slots == [] then None
    else if slots[|slots| - 1].Review? then Some(slots[|slots| - 1].value)
    else LastReview(slots[..|slots| - 1])
  }

  // What is made of a message: a value for the review, no value, which a model may
  // supply, or a message to the user to try again.
  datatype Reading = Given(value: string) | Open | Refused

  predicate IsValid(shapes: seq<Shape>) {
    OneFormat(shapes) && forall k :: 0 <= k < |shapes| ==> !IsInvalid(Slots(shapes)[k])
  }

  // parse_clarify_reply and what its caller makes of its errors. A form's invalid
  // submission counts as an empty one.
  function Read(m: Message): Reading {
    var shapes := Shapes(m.text);
    if shapes == [] then Open
    else if !IsValid(shapes) then (if m.isForm then Open else Refused)
    else
      match LastReview(Slots(shapes))
      case None => Open
      case Some(v) =>
        if Review("") !in Slots(shapes) then Given(v)
        else if Delegated(v) then Open
        else Refused
  }

  // The answer is left to the model.
  predicate LeavesOpen(m: Message) { Read(m).Open? || (Read(m).Given? && Delegated(Read(m).value)) }

  // ---------------------------------------------------------------- filling it in

  // What stands in where the model has nothing to say either.
  function Fallback(english: bool): string {
    if english then "Automatically inferred from context" else "由系统根据上下文自动补全"
  }

  function Inferred(candidate: string, english: bool): string {
    if Delegated(candidate) then Fallback(english)
    else if |Strip(candidate)| <= MAX_REPLY then Strip(candidate)
    else Strip(candidate)[..MAX_REPLY]
  }

  // The message resumes the run.
  predicate Arrives(a: Answer) { !Cancels(a.message) && !Read(a.message).Refused? }

  // What the workflow gets to read.
  function Delivered(a: Answer): string
    requires Arrives(a)
  {
    if LeavesOpen(a.message) then Inferred(a.candidate, a.english) else Read(a.message).value
  }

  // ---------------------------------------------------------------- what is read

  lemma OneShape(text: string)
    requires OneLine(text) && Strip(text) != ""
    ensures Shapes(text) == [ShapeOf(text)]
  {
    assert text != "" by { StripTrims(""); }
    LinesOfOne(text);
    NoShapes([text][1..]);
    assert [ShapeOf(text)] + [] == [ShapeOf(text)];
    hide ShapeOf, Strip, Lines;
  }

  lemma NoShapes(lines: seq<string>)
    requires lines == []
    ensures ShapesOf(lines) == []
  {
  }

  lemma ReadOne(text: string, isForm: bool)
    requires OneLine(text) && Strip(text) != ""
    ensures
      var slot := SlotOf(ShapeOf(text), 0);
      Read(Message(text, isForm)) ==
        if IsInvalid(slot) then (if isForm then Open else Refused)
        else if slot.Review? && slot.value != "" then Given(slot.value)
        else Open
  {
    OneShape(text);
    OpenDelegates();
    var shapes, slot := Shapes(text), SlotOf(ShapeOf(text), 0);
    hide ShapeOf, Strip, SlotOf, Shapes, Delegated;
    assert Slots(shapes) == [slot];
    OneReview(Slots(shapes), slot);
  }

  lemma OneReview(slots: seq<Slot>, slot: Slot)
    requires slots == [slot]
    ensures LastReview(slots) == if slot.Review? then Some(slot.value) else None
  {
    assert LastReview(slots[..0]) == None;
  }

  // An empty value leaves the answer to the model.
  lemma OpenDelegates()
    ensures Delegated("")
  {
    StripTrims("");
    assert Lower("") == "";
  }

  // A prefix costs at least the character that makes it one.
  lemma PrefixedIsShorter(line: string)
    ensures !ShapeOf(line).Bare? ==> |ShapeOf(line).value| < |Strip(line)|
    ensures ShapeOf(line).Bare? ==> ShapeOf(line).value == Strip(line)
  {
    var s := Strip(line);
    var name, digits := Span(s, true), Span(s, false);
    StripLeftIsSuffix(s[name..]);
    StripLeftIsSuffix(s[digits..]);
    var afterName, afterDigits := StripLeft(s[name..]), StripLeft(s[digits..]);
    if afterName != "" { StripShortens(afterName[1..]); }
    if afterDigits != "" { StripShortens(afterDigits[1..]); }
    hide Strip, StripLeft, Span;
  }

  lemma StripShortens(s: string)
    ensures |Strip(s)| <= |s|
  {
    StripLeftIsSuffix(s);
    StripRightIsPrefix(StripLeft(s));
  }

  // A message of one line is read as it is, but for the space around it, exactly when it
  // has no prefix and is not too long.
  lemma OneLineIsReadWhole(text: string, isForm: bool)
    requires OneLine(text) && Strip(text) != ""
    ensures Read(Message(text, isForm)) == Given(Strip(text)) <==> ShapeOf(text).Bare? && |Strip(text)| <= MAX_REPLY
  {
    ReadOne(text, isForm);
    PrefixedIsShorter(text);
    hide ShapeOf, Strip, Read;
  }

  // A prefix that names the review is taken off; with nothing after it, the answer is
  // left to the model.
  lemma PrefixIsTakenOff(text: string, v: string, isForm: bool)
    requires OneLine(text) && Strip(text) != "" && |v| <= MAX_REPLY
    requires ShapeOf(text) == Keyed("review", v) || ShapeOf(text) == Numbered(1, v)
    ensures Read(Message(text, isForm)) == if v == "" then Open else Given(v)
  {
    ReadOne(text, isForm);
    hide ShapeOf, Strip, Read;
  }

  lemma FirstShape(a: string, rest: string)
    requires OneLine(a) && Strip(a) != ""
    ensures Shapes(a + "\n" + rest) == [ShapeOf(a)] + Shapes(rest)
  {
    LinesOfFirst(a, rest);
    assert ([a] + Lines(rest))[1..] == Lines(rest);
    hide ShapeOf, Strip, Lines;
  }

  lemma ReviewThenNotes(review: string, notes: string)
    ensures LastReview([Review(review), Notes(notes)]) == Some(review)
  {
    var slots := [Review(review), Notes(notes)];
    assert slots[..1] == [Review(review)];
    assert LastReview(slots) == LastReview(slots[..1]) == Some(review);
  }

  lemma ReadTwo(m: Message, x: Shape, y: Shape)
    requires Shapes(m.text) == [x, y] && x.Bare? && y.Bare? && x.value != ""
    requires |x.value| <= MAX_REPLY && |y.value| <= MAX_NOTES
    ensures Read(m) == Given(x.value)
  {
    hide Shapes, Delegated, LastReview;
    assert Slots([x, y]) == [Review(x.value), Notes(y.value)];
    ReviewThenNotes(x.value, y.value);
  }

  lemma ReadThree(m: Message, x: Shape, y: Shape, z: Shape)
    requires Shapes(m.text) == [x, y, z] && x.Bare? && y.Bare? && z.Bare? && !m.isForm
    ensures Read(m) == Refused
  {
    hide Shapes, Delegated, LastReview;
    assert Slots([x, y, z])[2] == NoField;
  }

  // Of a message of two lines without prefixes the first alone is the review: the second
  // goes to the notes.
  lemma SecondLineIsNotRead(a: string, b: string, isForm: bool)
    requires OneLine(a) && OneLine(b) && Strip(a) != "" && Strip(b) != ""
    requires ShapeOf(a).Bare? && ShapeOf(b).Bare? && |Strip(a)| <= MAX_REPLY && |Strip(b)| <= MAX_NOTES
    ensures Read(Message(a + "\n" + b, isForm)) == Given(Strip(a))
  {
    PrefixedIsShorter(a);
    PrefixedIsShorter(b);
    FirstShape(a, b);
    OneShape(b);
    hide ShapeOf, Strip, Shapes, Read;
    assert [ShapeOf(a)] + [ShapeOf(b)] == [ShapeOf(a), ShapeOf(b)];
    ReadTwo(Message(a + "\n" + b, isForm), ShapeOf(a), ShapeOf(b));
  }

  // One line more, and the user is asked again.
  lemma ThreeLinesAreRefused(a: string, b: string, c: string)
    requires OneLine(a) && OneLine(b) && OneLine(c) && Strip(a) != "" && Strip(b) != "" && Strip(c) != ""
    requires ShapeOf(a).Bare? && ShapeOf(b).Bare? && ShapeOf(c).Bare?
    ensures Read(Message(a + "\n" + (b + "\n" + c), false)) == Refused
  {
    FirstShape(a, b + "\n" + c);
    FirstShape(b, c);
    OneShape(c);
    hide ShapeOf, Strip, Shapes, Read;
    assert [ShapeOf(a)] + ([ShapeOf(b)] + [ShapeOf(c)]) == [ShapeOf(a), ShapeOf(b), ShapeOf(c)];
    ReadThree(Message(a + "\n" + (b + "\n" + c), false), ShapeOf(a), ShapeOf(b), ShapeOf(c));
  }

  lemma {:induction false} SpanIs(word: string, rest: string, letters: bool)
    requires forall c <- word :: IsDigit(c) || (letters && IsLetter(c))
    requires rest != "" ==> !IsDigit(rest[0]) && !(letters && IsLetter(rest[0]))
    ensures Span(word + rest, letters) == |word|
  {
    if word == "" {
      assert word + rest == rest;
    } else {
      assert word[0] in word;
      assert forall c <- word[1..] :: c in word;
      assert (word + rest)[1..] == word[1..] + rest;
      SpanIs(word[1..], rest, letters);
    }
  }

  lemma NumberedShape()
    ensures ShapeOf("1.") == Numbered(1, "")
  {
    StripTrims("1.");
    StripTrims("");
    SpanIs("1", ".", true);
    SpanIs("1", ".", false);
    assert "1" + "." == "1." && "1."[1..] == "." && "."[1..] == "" && "1."[..1] == "1" && "1"[..0] == "";
    assert StripLeft(".") == ".";
    hide Strip, Span;
  }

  lemma StripOfSpace(value: string)
    ensures Strip(" " + value) == Strip(value)
  {
    assert (" " + value)[1..] == value;
    hide StripRight;
  }

  lemma LettersAreVisible(c: char)
    ensures IsLetter(c) ==> !IsSpace(c)
    ensures !IsSpace(':') && !IsLetter(':') && !IsDigit(':')
  {
  }

  lemma KeyedShape(word: string, value: string)
    requires word != "" && value != "" && Trimmed(value) && forall c <- word :: IsLetter(c)
    ensures ShapeOf(word + (": " + value)) == Keyed(word, value)
  {
    var rest := ": " + value;
    var line := word + rest;
    assert word[0] in word;
    LettersAreVisible(word[0]);
    hide IsSpace, IsLetter, IsDigit;
    assert line[0] == word[0] && line[|line| - 1] == value[|value| - 1];
    StripTrims(line);
    SpanIs(word, rest, true);
    assert line[|word|..] == rest && line[..|word|] == word && rest[1..] == " " + value;
    assert StripLeft(rest) == rest;
    StripOfSpace(value);
    StripTrims(value);
    hide Strip, StripLeft, Span;
  }

  // A form's own line, or the same line typed, gives the value after the key.
  lemma PrefixedReviewIsRead(value: string, isForm: bool)
    requires OneLine(value) && value != "" && Trimmed(value) && |value| <= MAX_REPLY
    ensures Read(Message("review" + (": " + value), isForm)) == Given(value)
  {
    var word, line := "review", "review" + (": " + value);
    KeyedShape(word, value);
    assert OneLine(word) && OneLine(": ");
    KeyedIsOneLine(word, value);
    hide ShapeOf, Strip, Read, OneLine;
    PrefixIsTakenOff(line, value, isForm);
  }

  lemma KeyedIsOneLine(word: string, value: string)
    requires word != "" && value != "" && Trimmed(value) && OneLine(value) && OneLine(word) && !IsSpace(word[0])
    ensures OneLine(word + (": " + value)) && Strip(word + (": " + value)) != ""
  {
    var line := word + (": " + value);
    StripTrims(line);
    assert forall c <- line :: c in word || c in value || c == ':' || c == ' ';
    hide Strip, IsSpace;
  }

  // A review that is too long is refused when typed; from a form it counts as none.
  lemma TooLongIsOpenInAForm(value: string)
    requires OneLine(value) && Trimmed(value) && |value| > MAX_REPLY
    ensures Read(Message("review" + (": " + value), false)) == Refused
    ensures Read(Message("review" + (": " + value), true)) == Open
  {
    var word, line := "review", "review" + (": " + value);
    KeyedShape(word, value);
    KeyedIsOneLine(word, value);
    hide ShapeOf, Strip, Read, OneLine;
    ReadOne(line, false);
    ReadOne(line, true);
  }

  // A number alone gives none, although it is no phrase that delegates.
  lemma OneDotIsOpen(isForm: bool)
    ensures Read(Message("1.", isForm)) == Open
  {
    NumberedShape();
    StripTrims("1.");
    hide ShapeOf, Strip, Read;
    PrefixIsTakenOff("1.", "", isForm);
  }
}
