// Python text operations that the short-drama workflow's steps apply to each
// other's outputs.
module Texts {
  // str.isspace
  predicate IsSpace(c: char) {
    || c in {' ', '\t', '\n', '\r', '\U{0B}', '\U{0C}', '\U{1C}', '\U{1D}', '\U{1E}', '\U{1F}'}
    || c in {'\U{85}', '\U{A0}', '\U{1680}', '\U{2028}', '\U{2029}', '\U{202F}', '\U{205F}', '\U{3000}'}
    || '\U{2000}' <= c <= '\U{200A}'
  }

  // The characters at which str.splitlines ends a line.
  predicate IsLineBreak(c: char) {
    c in {'\n', '\r', '\U{0B}', '\U{0C}', '\U{1C}', '\U{1D}', '\U{1E}', '\U{85}', '\U{2028}', '\U{2029}'}
  }

  predicate OneLine(s: string) {
    forall c <- s :: !IsLineBreak(c)
  }

  // Letters, digits and underscores only.
  predicate IsWord(s: string) {
    forall c <- s :: 'a' <= c <= 'z' || 'A' <= c <= 'Z' || c == '_' || '0' <= c <= '9'
  }

  lemma WordsArePlain(s: string)
    requires IsWord(s)
    ensures OneLine(s) && ':' !in s && '\r' !in s && forall c <- s :: !IsSpace(c)
  {
  }

  // ---------------------------------------------------------------- searching

  predicate OccursAt<T(==)>(s: seq<T>, sub: seq<T>, i: int) {
    0 <= i && i + |sub| <= |s| && s[i..i + |sub|] == sub
  }

  // sub in s
  predicate Contains<T(==)>(s: seq<T>, sub: seq<T>) {
    exists i {:trigger OccursAt(s, sub, i)} :: 0 <= i <= |s| && OccursAt(s, sub, i)
  }

  predicate StartsWith(s: string, prefix: string) {
    |prefix| <= |s| && s[..|prefix|] == prefix
  }

  lemma FirstCharsDiffer(s: string, prefix: string)
    requires s != "" && prefix != "" && s[0] != prefix[0]
    ensures !StartsWith(s, prefix)
  {
    if |prefix| <= |s| { assert s[..|prefix|][0] == s[0]; }
  }

  lemma LastCharsDiffer(s: string, suffix: string)
    requires s != "" && suffix != "" && s[|s| - 1] != suffix[|suffix| - 1]
    ensures |suffix| <= |s| ==> s[|s| - |suffix|..] != suffix
  {
    if |suffix| <= |s| { assert s[|s| - |suffix|..][|suffix| - 1] == s[|s| - 1]; }
  }

  lemma OccursInPart<T>(s: seq<T>, sub: seq<T>, lo: int, hi: int, i: int)
    requires 0 <= lo <= i && i + |sub| <= hi <= |s|
    ensures OccursAt(s[lo..hi], sub, i - lo) <==> OccursAt(s, sub, i)
  {
    var part := s[lo..hi][i - lo..i - lo + |sub|];
    forall k | 0 <= k < |sub| ensures part[k] == s[i..i + |sub|][k] {
    }
    assert part == s[i..i + |sub|];
  }

  lemma ContainsItself<T>(s: seq<T>)
    ensures Contains(s, s)
  {
    assert s[0..|s|] == s;
    assert OccursAt(s, s, 0);
  }

  lemma OccursElement<T>(s: seq<T>, sub: seq<T>, i: int, k: nat)
    requires OccursAt(s, sub, i) && k < |sub|
    ensures s[i + k] == sub[k]
  {
    assert s[i..i + |sub|][k] == s[i + k];
  }

  // A needle without the separator occurs on one of its sides.
  lemma ContainsBesideSeparator(a: string, c: char, b: string, sub: string)
    requires c !in sub && sub != ""
    ensures Contains(a + [c] + b, sub) <==> Contains(a, sub) || Contains(b, sub)
  {
    var s := a + [c] + b;
    assert s[0..|a|] == a && s[|a| + 1..|s|] == b;
    if Contains(s, sub) {
      var i :| 0 <= i <= |s| && OccursAt(s, sub, i);
      if i <= |a| < i + |sub| {
        OccursElement(s, sub, i, |a| - i);
        assert false;
      } else if i + |sub| <= |a| {
        OccursInPart(s, sub, 0, |a|, i);
      } else {
        OccursInPart(s, sub, |a| + 1, |s|, i);
      }
    }
    if Contains(a, sub) {
      var i :| 0 <= i <= |a| && OccursAt(a, sub, i);
      OccursInPart(s, sub, 0, |a|, i);
    }
    if Contains(b, sub) {
      var i :| 0 <= i <= |b| && OccursAt(b, sub, i);
      OccursInPart(s, sub, |a| + 1, |s|, i + |a| + 1);
    }
  }

  // What lies around the separator where a needle that holds it occurs.
  lemma AroundSeparator(a: string, c: char, b: string, left: string, right: string, i: nat)
    requires OccursAt(a + [c] + b, left + [c] + right, i) && i + |left| == |a|
    ensures a[i..] == left && StartsWith(b, right)
  {
    var s, sub := a + [c] + b, left + [c] + right;
    forall k | 0 <= k < |left| ensures a[i..][k] == left[k] {
      OccursElement(s, sub, i, k);
    }
    forall k | 0 <= k < |right| ensures b[..|right|][k] == right[k] {
      OccursElement(s, sub, i, |left| + 1 + k);
    }
  }

  // A needle holding the separator once lines up with the only one in the text.
  lemma SeparatorLinesUp(a: string, c: char, b: string, left: string, right: string, i: nat)
    requires c !in a && c !in b && OccursAt(a + [c] + b, left + [c] + right, i)
    ensures i + |left| == |a|
  {
    OccursElement(a + [c] + b, left + [c] + right, i, |left|);
  }

  lemma OccursAroundSeparator(a: string, c: char, b: string, left: string, right: string)
    requires |left| <= |a| && a[|a| - |left|..] == left && StartsWith(b, right)
    ensures OccursAt(a + [c] + b, left + [c] + right, |a| - |left|)
  {
    var i, s, sub := |a| - |left|, a + [c] + b, left + [c] + right;
    var part := s[i..i + |sub|];
    forall k | 0 <= k < |sub| ensures part[k] == sub[k] {
      if k < |left| {
        assert part[k] == a[i..][k];
      } else if k > |left| {
        assert part[k] == b[..|right|][k - |left| - 1];
      }
    }
    assert part == sub;
  }

  // So such a needle occurs exactly where both sides fit.
  lemma ContainsAroundSeparator(a: string, c: char, b: string, left: string, right: string)
    requires c !in a && c !in b
    ensures Contains(a + [c] + b, left + [c] + right)
      <==> |left| <= |a| && a[|a| - |left|..] == left && StartsWith(b, right)
  {
    hide StartsWith, OccursAt;
    var s, sub := a + [c] + b, left + [c] + right;
    if i :| 0 <= i <= |s| && OccursAt(s, sub, i) {
      SeparatorLinesUp(a, c, b, left, right, i);
      AroundSeparator(a, c, b, left, right, i);
    }
    if |left| <= |a| && a[|a| - |left|..] == left && StartsWith(b, right) {
      OccursAroundSeparator(a, c, b, left, right);
    }
  }

  // ---------------------------------------------------------------- ends

  // s[-n:]
  function Suffix<T>(s: seq<T>, n: int): seq<T> {
    if n < 0 then (if -n <= |s| then s[-n..] else [])
    else if 0 < n < |s| then s[|s| - n..]
    else s
  }

  // ---------------------------------------------------------------- lines

  // str.splitlines
  function Lines(s: string): seq<string> {
    if s == "" then []
    else
      var n := FirstBreak(s);
      if n == |s| then [s]
      else
        var width := if s[n] == '\r' && n + 1 < |s| && s[n + 1] == '\n' then 2 else 1;
        [s[..n]] + Lines(s[n + width..])
  }

  function FirstBreak(s: string): (n: nat)
    ensures n <= |s| && OneLine(s[..n]) && (n < |s| ==> IsLineBreak(s[n]))
  {
    if s == "" || IsLineBreak(s[0]) then 0
    else
      var n := FirstBreak(s[1..]);
      assert s[..n + 1] == [s[0]] + s[1..][..n];
      n + 1
  }

  lemma {:induction false} FirstBreakIs(s: string, n: nat)
    requires n <= |s| && OneLine(s[..n]) && (n < |s| ==> IsLineBreak(s[n]))
    ensures FirstBreak(s) == n
  {
    if n > 0 {
      assert s[..n][0] == s[0];
      assert s[1..][..n - 1] == s[..n][1..];
      FirstBreakIs(s[1..], n - 1);
    }
  }

  lemma LinesOfFirst(line: string, rest: string)
    requires OneLine(line)
    ensures Lines(line + "\n" + rest) == [line] + Lines(rest)
  {
    var s := line + "\n" + rest;
    assert s[..|line|] == line && s[|line| + 1..] == rest;
    FirstBreakIs(s, |line|);
  }

  lemma LinesOfOne(line: string)
    requires OneLine(line) && line != ""
    ensures Lines(line) == [line]
  {
    assert line[..|line|] == line;
    FirstBreakIs(line, |line|);
  }

  // "\n".join
  function Join(lines: seq<string>): string
    requires lines != []
  {
    if |lines| == 1 then lines[0] else lines[0] + "\n" + Join(lines[1..])
  }

  lemma {:induction false} JoinLast(init: seq<string>, last: string)
    requires init != []
    ensures Join(init + [last]) == Join(init) + "\n" + last
  {
    assert (init + [last])[1..] == init[1..] + [last];
    if |init| > 1 { JoinLast(init[1..], last); }
  }

  lemma {:induction false} NotInJoin(lines: seq<string>, c: char)
    requires lines != [] && c != '\n' && forall i :: 0 <= i < |lines| ==> c !in lines[i]
    ensures c !in Join(lines)
  {
    if |lines| > 1 { NotInJoin(lines[1..], c); }
  }

  // Lines that a join puts together are the lines splitlines takes apart.
  lemma {:induction false} LinesOfJoin(lines: seq<string>)
    requires lines != [] && lines[|lines| - 1] != ""
    requires forall i :: 0 <= i < |lines| ==> OneLine(lines[i])
    ensures Lines(Join(lines)) == lines
  {
    if |lines| == 1 {
      LinesOfOne(lines[0]);
    } else {
      LinesOfJoin(lines[1..]);
      LinesOfFirst(lines[0], Join(lines[1..]));
    }
  }

  lemma {:induction false} ContainsInJoin(lines: seq<string>, sub: string)
    requires lines != [] && sub != "" && '\n' !in sub
    ensures Contains(Join(lines), sub) <==> exists i :: 0 <= i < |lines| && Contains(lines[i], sub)
  {
    if |lines| > 1 {
      ContainsInJoin(lines[1..], sub);
      ContainsBesideSeparator(lines[0], '\n', Join(lines[1..]), sub);
      if i :| 0 <= i < |lines| && Contains(lines[i], sub) {
        if i > 0 { assert lines[1..][i - 1] == lines[i]; }
      }
      if i :| 0 <= i < |lines| - 1 && Contains(lines[1..][i], sub) {
        assert lines[1..][i] == lines[i + 1];
      }
    }
  }

  // ---------------------------------------------------------------- numbers

  predicate IsDigit(c: char) { '0' <= c <= '9' }

  predicate AreDigits(s: string) { forall c <- s :: IsDigit(c) }

  // str(n)
  function Digits(n: nat): string {
    if n < 10 then ['0' + n as char] else Digits(n / 10) + ['0' + (n % 10) as char]
  }

  // int(digits)
  function Number(digits: string): nat {
    if digits == "" then 0
    else
      var c := digits[|digits| - 1];
      10 * Number(digits[..|digits| - 1]) + if IsDigit(c) then c as int - '0' as int else 0
  }

  lemma LastDigit(init: string, d: nat)
    requires d < 10
    ensures Number(init + ['0' + d as char]) == 10 * Number(init) + d
  {
    var s := init + ['0' + d as char];
    assert s[..|s| - 1] == init;
  }

  lemma {:induction false} NumberOfDigits(n: nat)
    ensures Number(Digits(n)) == n && AreDigits(Digits(n)) && Digits(n) != ""
  {
    if n < 10 {
      assert Digits(n) == "" + ['0' + n as char];
      LastDigit("", n);
    } else {
      NumberOfDigits(n / 10);
      LastDigit(Digits(n / 10), n % 10);
    }
  }

  // len(s.encode("utf-8"))
  function Utf8Bytes(s: string): nat {
    if s == "" then 0
    else
      var c := s[|s| - 1];
      Utf8Bytes(s[..|s| - 1])
      + (if c < '\U{80}' then 1 else if c < '\U{800}' then 2 else if c < '\U{10000}' then 3 else 4)
  }

  // ---------------------------------------------------------------- canonical text

  // value.replace("\r\n", "\n").replace("\r", "\n")
  function UniversalNewlines(s: string): (t: string)
    ensures '\r' !in t
  {
    if s == "" then ""
    else if s[0] == '\r' then
      "\n" + UniversalNewlines(if |s| > 1 && s[1] == '\n' then s[2..] else s[1..])
    else [s[0]] + UniversalNewlines(s[1..])
  }

  function StripLeft(s: string): string {
    if s != "" && IsSpace(s[0]) then StripLeft(s[1..]) else s
  }

  function StripRight(s: string): string {
    if s != "" && IsSpace(s[|s| - 1]) then StripRight(s[..|s| - 1]) else s
  }

  // str.strip
  function Strip(s: string): string { StripRight(StripLeft(s)) }

  predicate AllSpace(s: string) { forall c <- s :: IsSpace(c) }

  lemma {:induction false} StripLeftOf(a: string, x: string)
    requires AllSpace(a) && (x != "" ==> !IsSpace(x[0]))
    ensures StripLeft(a + x) == x
  {
    if a == "" {
      assert a + x == x;
    } else {
      assert a[0] in a && forall c <- a[1..] :: c in a;
      assert (a + x)[1..] == a[1..] + x;
      StripLeftOf(a[1..], x);
    }
  }

  lemma {:induction false} StripRightOfSpace(x: string, z: string)
    requires AllSpace(z)
    ensures StripRight(x + z) == StripRight(x)
    decreases |z|
  {
    if z == "" {
      assert x + z == x;
    } else {
      assert z[|z| - 1] in z && forall c <- z[..|z| - 1] :: c in z;
      assert (x + z)[..|x + z| - 1] == x + z[..|z| - 1];
      StripRightOfSpace(x, z[..|z| - 1]);
    }
  }

  // What a skill_exec step makes of its process's output.
  function Canon(s: string): string { Strip(UniversalNewlines(s)) }

  predicate Trimmed(s: string) {
    s != "" ==> !IsSpace(s[0]) && !IsSpace(s[|s| - 1])
  }

  lemma {:induction false} StripLeftIsSuffix(s: string)
    ensures |StripLeft(s)| <= |s| && StripLeft(s) == s[|s| - |StripLeft(s)|..]
    ensures StripLeft(s) != "" ==> !IsSpace(StripLeft(s)[0])
  {
    if s != "" && IsSpace(s[0]) { StripLeftIsSuffix(s[1..]); }
  }

  lemma {:induction false} StripRightIsPrefix(s: string)
    ensures |StripRight(s)| <= |s| && StripRight(s) == s[..|StripRight(s)|]
    ensures StripRight(s) != "" ==> !IsSpace(StripRight(s)[|StripRight(s)| - 1])
  {
    if s != "" && IsSpace(s[|s| - 1]) { StripRightIsPrefix(s[..|s| - 1]); }
  }

  lemma StripTrims(s: string)
    ensures Trimmed(Strip(s))
    ensures Trimmed(s) ==> Strip(s) == s
    ensures forall c <- Strip(s) :: c in s
  {
    StripLeftIsSuffix(s);
    StripRightIsPrefix(StripLeft(s));
  }

  lemma {:induction false} NewlinesKept(s: string)
    ensures UniversalNewlines(s) == s <==> '\r' !in s
  {
    if s != "" && s[0] != '\r' {
      NewlinesKept(s[1..]);
      assert s == [s[0]] + s[1..];
    }
  }

  // Canonical texts are those without carriage returns and without space around them.
  lemma CanonFixes(s: string)
    ensures Canon(s) == s <==> '\r' !in s && Trimmed(s)
    ensures Canon(Canon(s)) == Canon(s)
  {
    NewlinesKept(s);
    StripTrims(s);
    StripTrims(UniversalNewlines(s));
    NewlinesKept(Canon(s));
    StripTrims(Canon(s));
  }

  lemma {:induction false} NewlinesOfEnd(s: string)
    ensures
      var t, u := UniversalNewlines(s), UniversalNewlines(s + "\n");
      u == t + "\n" || (u == t && t != "" && t[|t| - 1] == '\n')
    decreases |s|
  {
    if s == "" {
      assert s + "\n" == "\n";
    } else if s[0] != '\r' {
      NewlinesOfTail(s, 1, [s[0]]);
    } else if |s| > 1 && s[1] == '\n' {
      NewlinesOfTail(s, 2, "\n");
    } else if |s| > 1 {
      NewlinesOfTail(s, 1, "\n");
    } else {
      assert (s + "\n")[2..] == "" && s[1..] == "";
    }
  }

  lemma {:induction false} NewlinesOfTail(s: string, width: nat, head: string)
    requires 1 <= width <= |s|
    requires UniversalNewlines(s) == head + UniversalNewlines(s[width..])
    requires UniversalNewlines(s + "\n") == head + UniversalNewlines((s + "\n")[width..])
    ensures
      var t, u := UniversalNewlines(s), UniversalNewlines(s + "\n");
      u == t + "\n" || (u == t && t != "" && t[|t| - 1] == '\n')
    decreases |s|, 0
  {
    assert (s + "\n")[width..] == s[width..] + "\n";
    NewlinesOfEnd(s[width..]);
  }

  lemma {:induction false} StripLeftOfEnd(s: string)
    ensures StripLeft(s + "\n") == if StripLeft(s) == "" then "" else StripLeft(s) + "\n"
  {
    if s == "" {
      assert s + "\n" == "\n";
    } else if IsSpace(s[0]) {
      assert (s + "\n")[1..] == s[1..] + "\n";
      StripLeftOfEnd(s[1..]);
    }
  }

  lemma StripOfEnd(s: string)
    ensures Strip(s + "\n") == Strip(s)
  {
    StripLeftOfEnd(s);
    var t := StripLeft(s);
    if t != "" { assert (t + "\n")[..|t|] == t; }
  }

  // The newline that ends a process's output does not survive.
  lemma CanonOfEnd(s: string)
    ensures Canon(s + "\n") == Canon(s)
  {
    NewlinesOfEnd(s);
    StripOfEnd(UniversalNewlines(s));
  }

  lemma {:induction false} StripRightOfTail(a: string, b: string)
    requires b != "" && !IsSpace(b[0])
    ensures StripRight(a + b) == a + StripRight(b) && StripRight(b) != ""
    decreases |b|
  {
    if IsSpace(b[|b| - 1]) {
      assert (a + b)[..|a + b| - 1] == a + b[..|b| - 1];
      StripRightOfTail(a, b[..|b| - 1]);
    }
  }
}
