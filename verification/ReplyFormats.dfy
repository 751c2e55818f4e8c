// Which replies have a key or a number in front, and what a reply of any number of lines
// says: the patterns and the rules of the forms, put apart from the code that applies
// them.
module ReplyFormats {
  import opened Options
  import opened Texts
  import opened ClarifyForm

  // ---------------------------------------------------------------- the two patterns

  // A letter or an underscore, and then any of letters, digits and underscores.
  predicate IsName(s: string) { s != "" && IsWord(s) && !('0' <= s[0] <= '9') }

  predicate IsNumber(s: string) { s != "" && forall c <- s :: '0' <= c <= '9' }

  // space name space colon value
  predicate IsKeyed(line: string, a: string, name: string, b: string, colon: char, rest: string) {
    line == a + name + b + [colon] + rest && AllSpace(a) && IsName(name) && AllSpace(b) && colon in {':', '：'}
  }

  // space number space mark value
  predicate IsNumbered(line: string, a: string, digits: string, b: string, mark: char, rest: string) {
    line == a + digits + b + [mark] + rest && AllSpace(a) && IsNumber(digits) && AllSpace(b) && mark in {')', '.'}
  }

  // ---------------------------------------------------------------- stripping

  // What ends a line after something visible is stripped alone.
  lemma {:induction false} StripRightAfter(x: string, c: string)
    requires x != "" && !IsSpace(x[|x| - 1])
    ensures StripRight(x + c) == x + StripRight(c)
    decreases |c|
  {
    if c == "" {
      assert x + c == x;
    } else if IsSpace(c[|c| - 1]) {
      assert (x + c)[..|x + c| - 1] == x + c[..|c| - 1];
      StripRightAfter(x, c[..|c| - 1]);
    }
  }

  lemma StripOfRight(c: string)
    ensures Strip(StripRight(c)) == Strip(c)
  {
    StripLeftIsSuffix(c);
    StripRightIsPrefix(c);
    var x := StripLeft(c);
    if x == "" {
      AllSpaceStrips(c);
    } else {
      var a := c[..|c| - |x|];
      assert c == a + x;
      LeadIsSpace(c);
      StripRightOfTail(a, x);
      StripRightIsPrefix(x);
      assert StripRight(x)[0] == x[0];
      StripLeftOf(a, StripRight(x));
      StripTwice(x);
    }
  }

  lemma {:induction false} LeadIsSpace(c: string)
    ensures |StripLeft(c)| <= |c| && AllSpace(c[..|c| - |StripLeft(c)|])
  {
    StripLeftIsSuffix(c);
    if c != "" && IsSpace(c[0]) {
      StripLeftIsSuffix(c[1..]);
      LeadIsSpace(c[1..]);
      var n := |c| - |StripLeft(c)|;
      assert c[..n] == [c[0]] + c[1..][..n - 1];
    }
  }

  lemma {:induction false} AllSpaceStrips(c: string)
    requires StripLeft(c) == ""
    ensures StripRight(c) == ""
  {
    LeadIsSpace(c);
    assert c[..|c|] == c;
    SpaceStrips(c);
  }

  lemma {:induction false} SpaceStrips(c: string)
    requires AllSpace(c)
    ensures StripRight(c) == ""
  {
    if c != "" {
      assert c[|c| - 1] in c && forall d <- c[..|c| - 1] :: d in c;
      SpaceStrips(c[..|c| - 1]);
    }
  }

  lemma StripTwice(x: string)
    ensures StripRight(StripRight(x)) == StripRight(x)
  {
    StripRightIsPrefix(x);
  }

  // ---------------------------------------------------------------- from a pattern to a shape

  // The line without the space around it.
  lemma PrefixedStrips(a: string, word: string, b: string, mark: char, rest: string)
    requires AllSpace(a) && word != "" && !IsSpace(word[0]) && !IsSpace(mark)
    ensures Strip(a + word + b + [mark] + rest) == word + (b + [mark] + StripRight(rest))
  {
    hide IsSpace, StripLeft, StripRight, AllSpace;
    var front := word + b + [mark];
    var x := front + rest;
    assert a + word + b + [mark] + rest == a + x;
    assert x[0] == word[0] && front[|front| - 1] == mark;
    StripLeftOf(a, x);
    StripRightAfter(front, rest);
    assert front + StripRight(rest) == word + (b + [mark] + StripRight(rest));
  }

  lemma AfterWord(b: string, mark: char, rest: string)
    requires AllSpace(b) && !IsSpace(mark)
    ensures
      var tail := b + [mark] + StripRight(rest);
      && tail != "" && (tail[0] == mark || IsSpace(tail[0]))
      && StripLeft(tail) == [mark] + StripRight(rest) && Strip(StripLeft(tail)[1..]) == Strip(rest)
  {
    var x := [mark] + StripRight(rest);
    assert b + [mark] + StripRight(rest) == b + x;
    StripLeftOf(b, x);
    assert x[1..] == StripRight(rest);
    StripOfRight(rest);
    hide StripLeft, StripRight, IsSpace;
    if b != "" { assert b[0] in b; }
  }

  lemma MarksAreVisible(mark: char)
    requires mark in {':', '：', ')', '.'}
    ensures !IsSpace(mark) && !IsLetter(mark) && !IsDigit(mark)
  {
  }

  lemma SpacesAreNoWords(c: char)
    ensures IsSpace(c) ==> !IsLetter(c) && !IsDigit(c)
  {
  }

  lemma WordCharacters(word: string)
    requires IsWord(word)
    ensures forall c <- word :: IsDigit(c) || IsLetter(c)
  {
  }

  lemma NameStarts(name: string)
    requires IsName(name)
    ensures IsLetter(name[0]) && !IsSpace(name[0])
  {
    assert name[0] in name;
  }

  // A line that matches the first pattern has its key and its value.
  lemma KeyedIs(line: string, a: string, name: string, b: string, colon: char, rest: string)
    requires IsKeyed(line, a, name, b, colon, rest)
    ensures ShapeOf(line) == Keyed(name, Strip(rest))
  {
    MarksAreVisible(colon);
    NameStarts(name);
    PrefixedStrips(a, name, b, colon, rest);
    AfterWord(b, colon, rest);
    WordCharacters(name);
    var tail := b + [colon] + StripRight(rest);
    var s := name + tail;
    SpacesAreNoWords(tail[0]);
    hide IsSpace, IsLetter, IsDigit, IsWord;
    SpanIs(name, tail, true);
    assert s[..|name|] == name && s[|name|..] == tail && s[0] == name[0];
    hide Strip, StripLeft, StripRight, Span;
  }

  lemma DigitCharacters(digits: string)
    requires IsNumber(digits)
    ensures forall c <- digits :: IsDigit(c)
    ensures IsDigit(digits[0]) && !IsLetter(digits[0]) && !IsSpace(digits[0])
  {
    assert digits[0] in digits;
  }

  // A line that matches the second has its number and its value.
  lemma NumberedIs(line: string, a: string, digits: string, b: string, mark: char, rest: string)
    requires IsNumbered(line, a, digits, b, mark, rest)
    ensures ShapeOf(line) == Numbered(Number(digits), Strip(rest))
  {
    MarksAreVisible(mark);
    DigitCharacters(digits);
    PrefixedStrips(a, digits, b, mark, rest);
    AfterWord(b, mark, rest);
    var tail := b + [mark] + StripRight(rest);
    var s := digits + tail;
    SpacesAreNoWords(tail[0]);
    hide IsSpace, IsLetter, IsDigit;
    SpanIs(digits, tail, true);
    SpanIs(digits, tail, false);
    assert s[..|digits|] == digits && s[|digits|..] == tail && s[0] == digits[0];
    hide Strip, StripLeft, StripRight, Span, Number;
  }

  // ---------------------------------------------------------------- and back

  lemma {:induction false} SpanHolds(s: string, letters: bool)
    ensures forall c <- s[..Span(s, letters)] :: IsDigit(c) || (letters && IsLetter(c))
  {
    var n := Span(s, letters);
    if n > 0 {
      SpanHolds(s[1..], letters);
      assert s[..n] == [s[0]] + s[1..][..n - 1];
    }
  }

  lemma {:induction false} TrailIsSpace(s: string)
    ensures |StripRight(s)| <= |s| && AllSpace(s[|StripRight(s)|..])
  {
    StripRightIsPrefix(s);
    if s != "" && IsSpace(s[|s| - 1]) {
      var t := s[..|s| - 1];
      StripRightIsPrefix(t);
      TrailIsSpace(t);
      var n := |StripRight(s)|;
      assert s[n..] == t[n..] + [s[|s| - 1]];
    }
  }

  // A line is the space before it, what is left of it, and the space behind it.
  lemma LineSplits(line: string) returns (a: string, z: string)
    ensures line == a + Strip(line) + z && AllSpace(a) && AllSpace(z)
  {
    var x := StripLeft(line);
    var y := StripRight(x);
    StripLeftIsSuffix(line);
    LeadIsSpace(line);
    StripRightIsPrefix(x);
    TrailIsSpace(x);
    assert Strip(line) == y;
    hide AllSpace, Strip, StripLeft, StripRight;
    a, z := line[..|line| - |x|], x[|y|..];
    assert x == y + z;
    assert line == a + (y + z) == a + y + z;
  }

  lemma StripOfTrail(x: string, z: string)
    requires AllSpace(z)
    ensures Strip(x + z) == Strip(x)
  {
    StripOfRight(x + z);
    StripOfRight(x);
    StripRightOfSpace(x, z);
    hide Strip, StripRight, AllSpace;
  }

  // What stands in a word, its space and its mark.
  lemma WordSplits(line: string, n: nat) returns (a: string, b: string, rest: string)
    requires n <= |Strip(line)| && StripLeft(Strip(line)[n..]) != ""
    ensures
      var s, after := Strip(line), StripLeft(Strip(line)[n..]);
      && line == a + s[..n] + b + [after[0]] + rest && AllSpace(a) && AllSpace(b)
      && Strip(rest) == Strip(after[1..])
  {
    var s := Strip(line);
    var tail := s[n..];
    var after := StripLeft(tail);
    var z: string;
    a, z := LineSplits(line);
    StripLeftIsSuffix(tail);
    LeadIsSpace(tail);
    b := tail[..|tail| - |after|];
    rest := after[1..] + z;
    StripOfTrail(after[1..], z);
    hide IsSpace, Strip, StripLeft, AllSpace;
    assert tail == b + after;
    Reassembled(line, a, s, z, n, b, after);
  }

  lemma Reassembled(line: string, a: string, s: string, z: string, n: nat, b: string, after: string)
    requires n <= |s| && line == a + s + z && s[n..] == b + after && after != ""
    ensures line == a + s[..n] + b + [after[0]] + (after[1..] + z)
  {
    var front := a + s[..n] + b;
    assert s == s[..n] + (b + after);
    assert line == front + (after + z);
    assert after + z == [after[0]] + (after[1..] + z);
  }

  lemma SpanIsName(s: string)
    requires s != "" && IsLetter(s[0])
    ensures IsName(s[..Span(s, true)])
  {
    SpanHolds(s, true);
    var word := s[..Span(s, true)];
    assert word[0] == s[0];
    forall c | c in word ensures 'a' <= c <= 'z' || 'A' <= c <= 'Z' || c == '_' || '0' <= c <= '9' {
    }
  }

  lemma SpanIsNumber(s: string)
    requires Span(s, false) > 0
    ensures IsNumber(s[..Span(s, false)])
  {
    SpanHolds(s, false);
  }

  // A shape comes of its pattern and of nothing else.
  lemma ShapeSplits(line: string) returns (a: string, word: string, b: string, mark: char, rest: string)
    ensures
      match ShapeOf(line)
      case Keyed(key, value) => IsKeyed(line, a, key, b, mark, rest) && value == Strip(rest)
      case Numbered(n, value) =>
        IsNumbered(line, a, word, b, mark, rest) && n == Number(word) && value == Strip(rest)
      case Bare(value) => value == Strip(line)
  {
    var s, shape := Strip(line), ShapeOf(line);
    a, word, b, mark, rest := "", "", "", ':', "";
    hide IsSpace, IsLetter, IsDigit, IsWord, Strip, StripLeft, Number;
    if shape.Keyed? {
      word := s[..Span(s, true)];
      SpanIsName(s);
      a, b, rest := WordSplits(line, |word|);
      mark := StripLeft(s[|word|..])[0];
    } else if shape.Numbered? {
      word := s[..Span(s, false)];
      SpanIsNumber(s);
      a, b, rest := WordSplits(line, |word|);
      mark := StripLeft(s[|word|..])[0];
    }
  }

  // ---------------------------------------------------------------- whole replies

  // Whether a line is for the field, which is the form's n-th.
  predicate IsFor(shape: Shape, place: nat, field: string, n: nat) {
    match shape
    case Keyed(key, _) => key == field
    case Numbered(index, _) => index == n
    case Bare(_) => place == n - 1
  }

  predicate IsReview(shapes: seq<Shape>, k: nat)
    requires k < |shapes|
  {
    IsFor(shapes[k], k, "review", 1)
  }

  // A line no field takes: it is for none, or it is too long for its own.
  predicate IsWrong(shapes: seq<Shape>, k: nat)
    requires k < |shapes|
  {
    && (IsFor(shapes[k], k, "review", 1) ==> |shapes[k].value| > 4000)
    && (IsFor(shapes[k], k, "additional_notes", 2) ==> |shapes[k].value| > 2000)
  }

  predicate SameFormat(x: Shape, y: Shape) { x.Keyed? == y.Keyed? && x.Numbered? == y.Numbered? }

  // The reply mixes formats, or has a line that no field takes.
  predicate IsMistaken(shapes: seq<Shape>) {
    || (exists j, k :: 0 <= j < k < |shapes| && !SameFormat(shapes[j], shapes[k]))
    || (exists k: nat :: k < |shapes| && IsWrong(shapes, k))
  }

  lemma SlotIs(shape: Shape, place: nat)
    ensures IsFor(shape, place, "review", 1) ==> SlotOf(shape, place) == Review(shape.value)
    ensures IsFor(shape, place, "additional_notes", 2) ==> SlotOf(shape, place) == Notes(shape.value)
    ensures !IsFor(shape, place, "review", 1) && !IsFor(shape, place, "additional_notes", 2) ==>
      SlotOf(shape, place) == NoField
  {
    assert "review" != "additional_notes" by { assert |"review"| == 6; }
  }

  lemma InvalidIsWrong(shapes: seq<Shape>, k: nat)
    requires k < |shapes|
    ensures IsInvalid(Slots(shapes)[k]) <==> IsWrong(shapes, k)
  {
    SlotIs(shapes[k], k);
    NotBoth(shapes[k], k);
    hide SlotOf, IsFor;
  }

  lemma NotBoth(shape: Shape, place: nat)
    ensures !(IsFor(shape, place, "review", 1) && IsFor(shape, place, "additional_notes", 2))
  {
    assert "review" != "additional_notes" by { assert |"review"| == 6; }
  }

  lemma FormatsAgree(shapes: seq<Shape>)
    ensures OneFormat(shapes) <==> forall j, k :: 0 <= j < k < |shapes| ==> SameFormat(shapes[j], shapes[k])
  {
    if forall j, k :: 0 <= j < k < |shapes| ==> SameFormat(shapes[j], shapes[k]) {
      forall k | 0 <= k < |shapes| ensures SameFormat(shapes[0], shapes[k]) {
      }
    }
  }

  lemma ValidIsNotMistaken(shapes: seq<Shape>)
    ensures IsValid(shapes) <==> !IsMistaken(shapes)
  {
    FormatsAgree(shapes);
    forall k: nat | k < |shapes| ensures IsInvalid(Slots(shapes)[k]) <==> IsWrong(shapes, k) {
      InvalidIsWrong(shapes, k);
    }
    hide OneFormat, IsInvalid, IsWrong, SameFormat, Slots;
  }

  lemma {:induction false} LastReviewIs(shapes: seq<Shape>, slots: seq<Slot>, n: nat)
    requires slots == Slots(shapes) && n <= |shapes|
    ensures LastReview(slots[..n]) == None <==> forall k: nat :: k < n ==> !IsReview(shapes, k)
    ensures forall k: nat :: k < n && IsReview(shapes, k) && (forall j: nat :: k < j < n ==> !IsReview(shapes, j)) ==>
      LastReview(slots[..n]) == Some(shapes[k].value)
    decreases n
  {
    if n > 0 {
      SlotIs(shapes[n - 1], n - 1);
      var last := slots[..n][n - 1];
      assert last == slots[n - 1] == SlotOf(shapes[n - 1], n - 1);
      assert last.Review? <==> IsReview(shapes, n - 1);
      hide SlotOf, IsFor, IsReview;
      assert slots[..n][..n - 1] == slots[..n - 1];
      LastReviewIs(shapes, slots, n - 1);
    }
  }

  // The line is the last one for the review.
  predicate IsLastReview(shapes: seq<Shape>, k: nat) {
    && k < |shapes| && IsReview(shapes, k)
    && forall j: nat :: k < j < |shapes| ==> !IsReview(shapes, j)
  }

  predicate HasEmptyReview(shapes: seq<Shape>) {
    exists j: nat :: j < |shapes| && IsReview(shapes, j) && shapes[j].value == ""
  }

  // A reply of any lines. Mistaken ones are refused, or count as empty if a form sent
  // them; the review is what the last line for it says. An empty line for it is an error:
  // only where the last one says nothing either is it made good by the model.
  lemma ReadIs(m: Message, k: nat)
    ensures
      var shapes := Shapes(m.text);
      && (shapes == [] ==> Read(m) == Open)
      && (shapes != [] && IsMistaken(shapes) ==> Read(m) == if m.isForm then Open else Refused)
      && (!IsMistaken(shapes) && (forall j: nat :: j < |shapes| ==> !IsReview(shapes, j)) ==> Read(m) == Open)
      && (!IsMistaken(shapes) && IsLastReview(shapes, k) && !HasEmptyReview(shapes) ==>
            Read(m) == Given(shapes[k].value))
      && (!IsMistaken(shapes) && IsLastReview(shapes, k) && HasEmptyReview(shapes) ==>
            Read(m) == if Delegated(shapes[k].value) then Open else Refused)
  {
    var shapes := Shapes(m.text);
    var slots := Slots(shapes);
    ValidIsNotMistaken(shapes);
    LastReviewIs(shapes, slots, |shapes|);
    assert slots[..|shapes|] == slots;
    EmptyReviews(shapes, slots);
    hide IsValid, IsMistaken, Shapes, Slots, LastReview, Delegated, IsReview, HasEmptyReview;
  }

  lemma EmptyReviews(shapes: seq<Shape>, slots: seq<Slot>)
    requires slots == Slots(shapes)
    ensures Review("") in slots <==> HasEmptyReview(shapes)
  {
    forall j: nat | j < |shapes| ensures slots[j] == Review("") <==> IsReview(shapes, j) && shapes[j].value == "" {
      SlotIs(shapes[j], j);
      hide SlotOf, IsFor;
    }
    hide SlotOf, IsReview;
    if j: nat :| j < |shapes| && IsReview(shapes, j) && shapes[j].value == "" { assert slots[j] == Review(""); }
  }

  // ---------------------------------------------------------------- words

  lemma CapitalsAre(c: char)
    ensures 'A' <= c <= 'Z' ==> c in CAPITALS
  {
    if 'A' <= c <= 'Z' { assert CAPITALS[c as int - 'A' as int] == c; }
  }

  const CAPITALS := "ABCDEFGHIJKLMNOPQRSTUVWXYZ"
  const LETTERS := "abcdefghijklmnopqrstuvwxyz"

  // Lowering takes each capital to its letter, and leaves every other character alone.
  lemma LowerIs(s: string, i: nat)
    requires i < |s|
    ensures |Lower(s)| == |s|
    ensures s[i] !in CAPITALS ==> Lower(s)[i] == s[i]
    ensures forall k :: 0 <= k < 26 && s[i] == CAPITALS[k] ==> Lower(s)[i] == LETTERS[k]
  {
    CapitalsAre(s[i]);
    forall k | 0 <= k < 26 ensures CAPITALS[k] == 'A' + k as char && LETTERS[k] == 'a' + k as char { NthLetter(k); }
  }

  lemma NthLetter(k: nat)
    requires k < 26
    ensures CAPITALS[k] == 'A' + k as char && LETTERS[k] == 'a' + k as char
  {
  }

  // A reply cancels the run wherever one of these words stands in it.
  lemma CancelsIff(m: Message)
    ensures
      var text := Lower(m.text);
      Cancels(m) <==>
        || Contains(text, "cancel") || Contains(text, "stop") || Contains(text, "abort")
        || Contains(text, "取消") || Contains(text, "算了") || Contains(text, "停止")
  {
    var text := Lower(m.text);
    assert CANCEL_KEYWORDS[0] == "cancel" && CANCEL_KEYWORDS[1] == "取消" && CANCEL_KEYWORDS[2] == "算了";
    assert CANCEL_KEYWORDS[3] == "停止" && CANCEL_KEYWORDS[4] == "stop" && CANCEL_KEYWORDS[5] == "abort";
    hide Lower, Contains;
  }

  // What the workflow gets: the value that is given, if it says anything; else what the
  // model says, if that does, cut to the field's length; else a fixed remark.
  lemma DeliveredIs(a: Answer)
    requires Arrives(a)
    ensures
      var reading, said := Read(a.message), Strip(a.candidate);
      Delivered(a) ==
        if reading.Given? && !Delegated(reading.value) then reading.value
        else if Delegated(a.candidate) then
          (if a.english then "Automatically inferred from context" else "由系统根据上下文自动补全")
        else if |said| < 4000 then said else said[..4000]
  {
    assert |Strip(a.candidate)| == 4000 ==> Strip(a.candidate)[..4000] == Strip(a.candidate);
    hide Read, Delegated, Cancels, Strip;
  }
}
