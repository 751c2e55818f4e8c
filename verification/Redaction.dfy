// Redacting credentials from the live harness's texts and reports: known values are
// replaced by a marker, then regular expressions replace further spans by it.
module Redaction {
  import opened Options
  import opened Texts

  const MARKER := "[REDACTED]"

  // Wherever the text is laid over the marker, the two disagree somewhere on the part
  // they share. at is where the text starts, counted from the marker's start.
  predicate DisagreesAt(s: string, at: int) {
    exists k :: 0 <= k < |s| && 0 <= at + k < |MARKER| && s[k] != MARKER[at + k]
  }

  predicate Untouchable(s: string) {
    s != "" && forall at :: -|s| < at < |MARKER| ==> DisagreesAt(s, at)
  }

  // Putting the marker in place of a span.
  function Splice(text: string, start: int, end: int): string
    requires 0 <= start <= end <= |text|
  {
    text[..start] + MARKER + text[end..]
  }

  // Where a text lies over a marker, it agrees with it.
  lemma OverlapAgrees(a: string, b: string, s: string, i: int)
    requires OccursAt(a + MARKER + b, s, i)
    ensures !DisagreesAt(s, i - |a|)
  {
    var at := i - |a|;
    forall k | 0 <= k < |s| && 0 <= at + k < |MARKER| ensures s[k] == MARKER[at + k] {
      OccursElement(a + MARKER + b, s, i, k);
    }
  }

  // So an untouchable text occurs on either side of it.
  lemma OccursBesideMarker(a: string, b: string, s: string, i: int)
    requires Untouchable(s) && OccursAt(a + MARKER + b, s, i)
    ensures i + |s| <= |a| || |a| + |MARKER| <= i
  {
    OverlapAgrees(a, b, s, i);
    hide DisagreesAt;
  }

  lemma MarkerHidesNothing(a: string, b: string, s: string)
    requires Untouchable(s) && Contains(a + MARKER + b, s)
    ensures Contains(a, s) || Contains(b, s)
  {
    var t := a + MARKER + b;
    var i :| 0 <= i <= |t| && OccursAt(t, s, i);
    OccursBesideMarker(a, b, s, i);
    assert t[0..|a|] == a && t[|a| + |MARKER|..|t|] == b;
    if i + |s| <= |a| {
      OccursInPart(t, s, 0, |a|, i);
    } else {
      OccursInPart(t, s, |a| + |MARKER|, |t|, i);
    }
  }

  lemma ContainsMore(a: string, b: string, c: string, s: string)
    requires Contains(b, s)
    ensures Contains(a + b + c, s)
  {
    var i :| 0 <= i <= |b| && OccursAt(b, s, i);
    var t := a + b + c;
    assert t[|a|..|a| + |b|] == b;
    OccursInPart(t, s, |a|, |a| + |b|, i + |a|);
  }

  lemma PartContains(text: string, s: string, lo: int, hi: int)
    requires 0 <= lo <= hi <= |text|
    ensures Contains(text[lo..hi], s) ==> Contains(text, s)
  {
    if Contains(text[lo..hi], s) {
      ContainsMore(text[..lo], text[lo..hi], text[hi..], s);
      assert text[..lo] + text[lo..hi] + text[hi..] == text;
    }
  }

  // No splice brings an untouchable text into being, over any span of any text.
  lemma SpliceKeepsFree(s: string, text: string, start: int, end: int)
    requires Untouchable(s) && 0 <= start <= end <= |text|
    ensures Contains(Splice(text, start, end), s) ==> Contains(text, s)
  {
    if Contains(Splice(text, start, end), s) {
      MarkerHidesNothing(text[..start], text[end..], s);
      assert text[0..start] == text[..start] && text[end..|text|] == text[end..];
      PartContains(text, s, 0, start);
      PartContains(text, s, end, |text|);
    }
  }

  // What a text has before and after the marker, when it is laid over it at d.
  function Left(s: string, d: int): string
    requires -|s| < d
  {
    if d < 0 then s[..-d] else ""
  }

  function Right(m: string, s: string, d: int): string
    requires d < |m|
  {
    if d + |s| > |m| then s[if d < 0 && |m| - d > |s| then |s| else |m| - d..] else ""
  }

  lemma OverlapBuilds(m: string, s: string, d: int)
    requires m != "" && -|s| < d < |m| && forall k :: 0 <= k < |s| && 0 <= d + k < |m| ==> s[k] == m[d + k]
    ensures OccursAt(Left(s, d) + m + Right(m, s, d), s, if d < 0 then 0 else d)
    ensures |Left(s, d) + Right(m, s, d)| < |s| || s == ""
  {
    var t, i := Left(s, d) + m + Right(m, s, d), if d < 0 then 0 else d;
    forall k | 0 <= k < |s| ensures t[i + k] == s[k] {
      if d + k < 0 {
        assert t[i + k] == Left(s, d)[k];
      } else if d + k < |m| {
        assert t[i + k] == m[d + k];
      } else {
        assert t[i + k] == Right(m, s, d)[d + k - |m|];
      }
    }
    assert t[i..i + |s|] == s;
  }

  // Only the untouchable are safe: for any other text there is one without it that a
  // splice makes contain it.
  lemma TouchableSplice(s: string) returns (text: string, at: int)
    requires s != "" && !Untouchable(s)
    ensures 0 <= at <= |text| && !Contains(text, s) && Contains(Splice(text, at, at), s)
  {
    var d :| -|s| < d < |MARKER| && !DisagreesAt(s, d);
    OverlapBuilds(MARKER, s, d);
    var left, right := Left(s, d), Right(MARKER, s, d);
    text, at := left + right, |left|;
    assert text[..at] == left && text[at..] == right;
    hide DisagreesAt, Left, Right;
  }

  // So a text survives no splice anywhere exactly when it is untouchable.
  lemma SpliceSafeIffUntouchable(s: string)
    requires s != ""
    ensures Untouchable(s) <==>
      forall text: string, start: int, end: int ::
        0 <= start <= end <= |text| && Contains(Splice(text, start, end), s) ==> Contains(text, s)
  {
    if Untouchable(s) {
      forall text: string, start: int, end: int | 0 <= start <= end <= |text| && Contains(Splice(text, start, end), s)
        ensures Contains(text, s)
      {
        SpliceKeepsFree(s, text, start, end);
      }
    } else {
      var text, at := TouchableSplice(s);
      assert Contains(Splice(text, at, at), s) && !Contains(text, s);
    }
    hide Untouchable, Splice;
  }

  // The texts without brackets that are not part of the marker's word are untouchable.
  lemma BracketFreeIsUntouchable(s: string)
    requires s != "" && '[' !in s && ']' !in s && !Contains("REDACTED", s)
    ensures Untouchable(s)
  {
    forall at | -|s| < at < |MARKER| ensures DisagreesAt(s, at) {
      if at <= 0 {
        assert s[-at] != MARKER[0];
      } else if at + |s| >= |MARKER| {
        assert s[|MARKER| - 1 - at] != MARKER[|MARKER| - 1];
      } else if !DisagreesAt(s, at) {
        var word := "REDACTED";
        assert MARKER[1..9] == word;
        forall k | 0 <= k < |s| ensures word[at - 1 + k] == s[k] {
          assert word[at - 1 + k] == MARKER[at + k];
        }
        assert word[at - 1..at - 1 + |s|] == s;
        assert OccursAt(word, s, at - 1);
        assert false;
      }
    }
  }

  // ---------------------------------------------------------------- str.replace

  // Where the text first occurs, or -1.
  function Find(text: string, s: string, from: nat): (i: int)
    requires from <= |text|
    ensures i >= 0 ==> from <= i && OccursAt(text, s, i) && forall k :: from <= k < i ==> !OccursAt(text, s, k)
    ensures i < 0 ==> forall k :: from <= k <= |text| ==> !OccursAt(text, s, k)
    decreases |text| - from
  {
    if OccursAt(text, s, from) then from
    else if from == |text| then -1
    else Find(text, s, from + 1)
  }

  // text.replace(s, "[REDACTED]")
  function Replace(text: string, s: string): string
    requires s != ""
    decreases |text|
  {
    var i := Find(text, s, 0);
    if i < 0 then text else text[..i] + MARKER + Replace(text[i + |s|..], s)
  }

  lemma BeforeFirst(text: string, s: string)
    requires s != "" && Find(text, s, 0) >= 0
    ensures !Contains(text[..Find(text, s, 0)], s)
  {
    var i := Find(text, s, 0);
    forall k | 0 <= k <= i ensures !OccursAt(text[..i], s, k) {
      if k + |s| <= i {
        assert text[0..i] == text[..i];
        OccursInPart(text, s, 0, i, k);
      }
    }
  }

  // Replacing a secret removes it and brings back no other.
  lemma {:induction false} ReplaceFrees(text: string, s: string, t: string)
    requires s != "" && Untouchable(t)
    ensures Contains(Replace(text, s), t) ==> t != s && Contains(text, t)
    decreases |text|
  {
    var i := Find(text, s, 0);
    if i >= 0 {
      var rest := text[i + |s|..];
      assert text[0..i] == text[..i] && text[i + |s|..|text|] == rest;
      PartContains(text, t, 0, i);
      PartContains(text, t, i + |s|, |text|);
      BeforeFirst(text, s);
      ReplaceFrees(rest, s, t);
      if Contains(Replace(text, s), t) { MarkerHidesNothing(text[..i], Replace(rest, s), t); }
    }
    hide Untouchable;
  }

  // ---------------------------------------------------------------- what survives replacement

  // Laid over the marker at d, the secret agrees with it; and where it starts before
  // the marker, replacing does not already meet it earlier.
  predicate SurvivesAt(s: string, d: int)
    requires -|s| < d
  {
    && d < |MARKER| && !DisagreesAt(s, d)
    && (d < 0 ==> Find(Left(s, d) + s, s, 0) == |Left(s, d)|)
  }

  predicate Survives(s: string) {
    exists d :: -|s| < d < |MARKER| && SurvivesAt(s, d)
  }

  lemma {:induction false} FindIs(text: string, s: string, from: nat, i: nat)
    requires from <= i <= |text| && OccursAt(text, s, i) && forall k :: from <= k < i ==> !OccursAt(text, s, k)
    ensures Find(text, s, from) == i
    decreases i - from
  {
    if from < i { FindIs(text, s, from + 1, i); }
  }

  // An occurrence near the start of a text, with and without what follows.
  lemma OccursBefore(a: string, b: string, s: string, k: int)
    requires 0 <= k && k + |s| <= |a|
    ensures OccursAt(a + b, s, k) <==> OccursAt(a, s, k)
  {
    assert (a + b)[0..|a|] == a;
    OccursInPart(a + b, s, 0, |a|, k);
  }

  lemma FindIgnoresEnd(left: string, s: string, right: string)
    requires s != "" && Find(left + s, s, 0) == |left|
    ensures Find(left + s + right, s, 0) == |left|
  {
    forall k | 0 <= k <= |left| ensures OccursAt(left + s + right, s, k) <==> OccursAt(left + s, s, k) {
      OccursBefore(left + s, right, s, k);
    }
    FindIs(left + s + right, s, 0, |left|);
  }

  lemma ShortIsKept(text: string, s: string)
    requires |text| < |s|
    ensures !Contains(text, s) && Replace(text, s) == text
  {
    FoundIsContained(text, s);
  }

  // A surviving secret: replacing it between what it has on both sides of the marker
  // puts it together again.
  lemma SurvivorStays(s: string, d: int)
    requires s != "" && -|s| < d < |MARKER| && SurvivesAt(s, d)
    ensures
      var text := Left(s, d) + s + Right(MARKER, s, d);
      && Replace(text, s) == Left(s, d) + MARKER + Right(MARKER, s, d)
      && Contains(Replace(text, s), s)
  {
    OverlapBuilds(MARKER, s, d);
    FoundAtLeft(s, d);
    hide SurvivesAt, DisagreesAt, Left, Right, Find;
    ReplaceAt(Left(s, d), s, Right(MARKER, s, d));
    assert Contains(Left(s, d) + MARKER + Right(MARKER, s, d), s);
  }

  lemma FoundAtLeft(s: string, d: int)
    requires s != "" && -|s| < d < |MARKER| && SurvivesAt(s, d)
    ensures Find(Left(s, d) + s, s, 0) == |Left(s, d)|
  {
    if d >= 0 {
      assert (Left(s, d) + s)[0..|s|] == s;
      FindIs(Left(s, d) + s, s, 0, 0);
    }
  }

  lemma ReplaceAt(left: string, s: string, right: string)
    requires s != "" && Find(left + s, s, 0) == |left| && |right| < |s|
    ensures Replace(left + s + right, s) == left + MARKER + right
  {
    var text := left + s + right;
    FindIgnoresEnd(left, s, right);
    assert text[..|left|] == left && text[|left| + |s|..] == right;
    ShortIsKept(right, s);
  }

  // A secret that starts d before its first occurrence and agrees with the text there
  // is not met earlier.
  lemma FirstStaysFirst(text: string, s: string, p: int, i: int)
    requires s != "" && 0 <= p < i && OccursAt(text, s, i) && forall k :: 0 <= k < i ==> !OccursAt(text, s, k)
    ensures Find(text[p..i] + s, s, 0) == i - p
  {
    var window := text[p..i + |s|];
    assert window == text[p..i] + text[i..i + |s|];
    forall k | 0 <= k <= i - p ensures OccursAt(window, s, k) <==> OccursAt(text, s, p + k) {
      OccursInPart(text, s, p, i + |s|, p + k);
    }
    FindIs(window, s, 0, i - p);
  }

  // Where a secret lies over the first marker of its own replacement, it survives.
  lemma OverlapSurvives(text: string, s: string, rest: string, p: int)
    requires s != "" && Find(text, s, 0) >= 0
    requires OccursAt(text[..Find(text, s, 0)] + MARKER + rest, s, p)
    requires Find(text, s, 0) < p + |s| && p < Find(text, s, 0) + |MARKER|
    ensures -|s| < p - Find(text, s, 0) && SurvivesAt(s, p - Find(text, s, 0))
  {
    hide DisagreesAt, Left;
    var i := Find(text, s, 0);
    OverlapAgrees(text[..i], rest, s, p);
    if p < i {
      LeftIsBefore(text[..i], rest, s, p, i);
      assert text[..i][p..] == text[p..i];
      FirstStaysFirst(text, s, p, i);
    }
  }

  lemma LeftIsBefore(a: string, rest: string, s: string, p: int, i: int)
    requires OccursAt(a + MARKER + rest, s, p) && p < i == |a| < p + |s|
    ensures Left(s, p - i) == a[p..] && |Left(s, p - i)| == i - p
  {
    forall k | 0 <= k < i - p ensures s[k] == a[p + k] { OccursElement(a + MARKER + rest, s, p, k); }
  }

  lemma NotFoundIsFree(text: string, s: string)
    ensures Find(text, s, 0) < 0 ==> !Contains(text, s)
  {
  }

  lemma {:induction false} OnlySurvivorsStay(text: string, s: string)
    requires s != ""
    ensures Contains(Replace(text, s), s) ==> Survives(s)
    decreases |text|
  {
    hide SurvivesAt, DisagreesAt;
    NotFoundIsFree(text, s);
    var i := Find(text, s, 0);
    if i >= 0 {
      var a, rest := text[..i], Replace(text[i + |s|..], s);
      BeforeFirst(text, s);
      OnlySurvivorsStay(text[i + |s|..], s);
      if Contains(Replace(text, s), s) { AroundMarker(a, rest, s); }
      if p :| LiesOver(a, rest, s, p) { OverlapSurvives(text, s, rest, p); }
    }
  }

  // An occurrence that shares some of the marker's place.
  predicate LiesOver(a: string, b: string, s: string, p: int) {
    OccursAt(a + MARKER + b, s, p) && |a| < p + |s| && p < |a| + |MARKER|
  }

  // An occurrence around a marker lies before it, after it, or over it.
  lemma AroundMarker(a: string, b: string, s: string)
    requires Contains(a + MARKER + b, s)
    ensures Contains(a, s) || Contains(b, s)
      || exists p :: LiesOver(a, b, s, p)
  {
    var t := a + MARKER + b;
    var p :| 0 <= p <= |t| && OccursAt(t, s, p);
    assert t[0..|a|] == a && t[|a| + |MARKER|..|t|] == b;
    if p + |s| <= |a| {
      OccursInPart(t, s, 0, |a|, p);
    } else if |a| + |MARKER| <= p {
      OccursInPart(t, s, |a| + |MARKER|, |t|, p);
    } else {
      assert LiesOver(a, b, s, p);
    }
  }

  // Replacing a secret can leave it behind, for some text, exactly when it survives.
  lemma ReplaceLeavesIffSurvives(s: string)
    requires s != ""
    ensures (exists text :: Contains(Replace(text, s), s)) <==> Survives(s)
  {
    hide Contains, Replace, Survives;
    if text :| Contains(Replace(text, s), s) { OnlySurvivorsStay(text, s); }
    if Survives(s) { var _ := SurvivorIsLeft(s); }
  }

  lemma SurvivorIsLeft(s: string) returns (text: string)
    requires s != "" && Survives(s)
    ensures Contains(Replace(text, s), s)
  {
    hide SurvivesAt, Contains, Replace, Left, Right;
    var d :| -|s| < d < |MARKER| && SurvivesAt(s, d);
    text := Left(s, d) + s + Right(MARKER, s, d);
    SurvivorStays(s, d);
  }

  // ---------------------------------------------------------------- redact_text

  datatype Match = Match(start: nat, end: nat)

  // What a pattern's matches in a text can be: spans from left to right.
  predicate Matches(text: string, ms: seq<Match>) {
    && (forall k :: 0 <= k < |ms| ==> ms[k].start <= ms[k].end <= |text|)
    && (forall j, k :: 0 <= j < k < |ms| ==> ms[j].end <= ms[k].start)
  }

  // pattern.sub: the marker in place of what each match does not keep; the last first,
  // so that the earlier spans still count.
  function Sub(text: string, ms: seq<Match>): string
    requires Matches(text, ms)
    decreases |ms|
  {
    if ms == [] then text
    else
      var last := ms[|ms| - 1];
      Sub(Splice(text, last.start, last.end), ms[..|ms| - 1])
  }

  type Pattern = string -> seq<Match>

  ghost predicate IsPattern(p: Pattern) { forall text :: Matches(text, p(text)) }

  function Replaced(text: string, secrets: seq<string>): string
    requires forall k :: 0 <= k < |secrets| ==> secrets[k] != ""
  {
    if secrets == [] then text else Replace(Replaced(text, secrets[..|secrets| - 1]), secrets[|secrets| - 1])
  }

  function Subbed(text: string, patterns: seq<Pattern>): string
    requires forall k :: 0 <= k < |patterns| ==> IsPattern(patterns[k])
  {
    if patterns == [] then text
    else
      var t := Subbed(text, patterns[..|patterns| - 1]);
      assert IsPattern(patterns[|patterns| - 1]);
      Sub(t, patterns[|patterns| - 1](t))
  }

  predicate Named(secrets: seq<string>) { forall k :: 0 <= k < |secrets| ==> secrets[k] != "" }

  ghost predicate ArePatterns(patterns: seq<Pattern>) { forall k :: 0 <= k < |patterns| ==> IsPattern(patterns[k]) }

  ghost predicate FreeOfAll(text: string, secrets: seq<string>) {
    forall k :: 0 <= k < |secrets| ==> !Contains(text, secrets[k])
  }

  ghost predicate AllUntouchable(secrets: seq<string>) {
    forall k :: 0 <= k < |secrets| ==> Untouchable(secrets[k])
  }

  lemma {:induction false} SubKeepsFree(text: string, ms: seq<Match>, s: string)
    requires Matches(text, ms) && Untouchable(s)
    ensures Contains(Sub(text, ms), s) ==> Contains(text, s)
    decreases |ms|
  {
    hide Untouchable, Contains;
    if ms != [] {
      var last := ms[|ms| - 1];
      SpliceKeepsFree(s, text, last.start, last.end);
      SubKeepsFree(Splice(text, last.start, last.end), ms[..|ms| - 1], s);
    }
  }

  lemma {:induction false} ReplacedIsFree(text: string, secrets: seq<string>, s: string)
    requires Named(secrets) && Untouchable(s)
    ensures Contains(Replaced(text, secrets), s) ==> s !in secrets
  {
    hide Untouchable, Contains;
    if secrets != [] {
      var init, last := secrets[..|secrets| - 1], secrets[|secrets| - 1];
      ReplacedIsFree(text, init, s);
      ReplaceFrees(Replaced(text, init), last, s);
      assert secrets == init + [last];
    }
  }

  lemma {:induction false} SubbedIsFree(text: string, patterns: seq<Pattern>, s: string)
    requires ArePatterns(patterns) && Untouchable(s)
    ensures Contains(Subbed(text, patterns), s) ==> Contains(text, s)
  {
    hide Untouchable, Contains;
    if patterns != [] {
      var init, last := patterns[..|patterns| - 1], patterns[|patterns| - 1];
      SubbedIsFree(text, init, s);
      assert IsPattern(last);
      SubKeepsFree(Subbed(text, init), last(Subbed(text, init)), s);
    }
  }

  function Redacted(text: string, secrets: seq<string>, patterns: seq<Pattern>): string
    requires Named(secrets) && ArePatterns(patterns)
  {
    Subbed(Replaced(text, secrets), patterns)
  }

  // Whatever the text, the patterns and the order of the secrets: no untouchable secret
  // is left.
  lemma RedactedIsFree(text: string, secrets: seq<string>, patterns: seq<Pattern>, s: string)
    requires Named(secrets) && ArePatterns(patterns) && s in secrets && Untouchable(s)
    ensures !Contains(Redacted(text, secrets, patterns), s)
  {
    hide Untouchable, Contains;
    ReplacedIsFree(text, secrets, s);
    SubbedIsFree(Replaced(text, secrets), patterns, s);
  }

  lemma ReplaceLeavesFree(text: string, s: string)
    requires s != "" && !Contains(text, s)
    ensures Replace(text, s) == text
  {
    FoundIsContained(text, s);
  }

  lemma FoundIsContained(text: string, s: string)
    ensures Find(text, s, 0) >= 0 ==> Contains(text, s)
  {
    if Find(text, s, 0) >= 0 { assert OccursAt(text, s, Find(text, s, 0)); }
  }

  // Redaction is not overdone: a text with no secret and no match stays as it is.
  lemma {:induction false} NothingToReplace(text: string, secrets: seq<string>)
    requires Named(secrets) && FreeOfAll(text, secrets)
    ensures Replaced(text, secrets) == text
  {
    hide Contains;
    if secrets != [] {
      NothingToReplace(text, secrets[..|secrets| - 1]);
      ReplaceLeavesFree(text, secrets[|secrets| - 1]);
    }
  }

  lemma {:induction false} NothingToSub(text: string, patterns: seq<Pattern>)
    requires ArePatterns(patterns) && forall k :: 0 <= k < |patterns| ==> patterns[k](text) == []
    ensures Subbed(text, patterns) == text
  {
    if patterns != [] { NothingToSub(text, patterns[..|patterns| - 1]); }
  }

  lemma NothingToRedact(text: string, secrets: seq<string>, patterns: seq<Pattern>)
    requires Named(secrets) && ArePatterns(patterns) && FreeOfAll(text, secrets)
    requires forall k :: 0 <= k < |patterns| ==> patterns[k](text) == []
    ensures Redacted(text, secrets, patterns) == text
  {
    NothingToReplace(text, secrets);
    NothingToSub(text, patterns);
  }

  // ---------------------------------------------------------------- a secret alone, exactly

  predicate IsSeparator(c: char) { c in {':', '=', '"', '\''} || IsSpace(c) }

  // What all the patterns of the harness keep before the span they replace: a colon or
  // an equals sign, a space, or a quote.
  predicate AfterSeparators(text: string, ms: seq<Match>) {
    forall k :: 0 <= k < |ms| ==> 0 < ms[k].start <= |text| && IsSeparator(text[ms[k].start - 1])
  }

  ghost predicate IsSeparated(p: Pattern) { forall text :: Matches(text, p(text)) && AfterSeparators(text, p(text)) }

  ghost predicate AreSeparated(patterns: seq<Pattern>) {
    forall k :: 0 <= k < |patterns| ==> IsSeparated(patterns[k])
  }

  // A separator stands in the secret right before the marker that it agrees with.
  predicate Leans(s: string) {
    exists d {:trigger DisagreesAt(s, d)} :: -|s| < d < 0 && !DisagreesAt(s, d) && IsSeparator(s[-d - 1])
  }

  lemma OverlapLeans(a: string, b: string, s: string, p: int)
    requires OccursAt(a + MARKER + b, s, p) && p < |a| < p + |s| && IsSeparator(a[|a| - 1])
    ensures Leans(s)
  {
    OverlapAgrees(a, b, s, p);
    OccursElement(a + MARKER + b, s, p, |a| - 1 - p);
    assert !DisagreesAt(s, p - |a|) && IsSeparator(s[-(p - |a|) - 1]);
    hide DisagreesAt, IsSeparator;
  }

  lemma OverlapFromInside(a: string, b: string, s: string, p: int)
    requires s != "" && OccursAt(a + MARKER + b, s, p) && |a| <= p < |a| + |MARKER|
    ensures Survives(s)
  {
    OverlapAgrees(a, b, s, p);
    assert SurvivesAt(s, p - |a|);
    hide DisagreesAt;
  }

  // A marker put after a separator completes no secret that neither survives nor leans.
  lemma SeparatedSpliceFrees(s: string, text: string, start: int, end: int)
    requires s != "" && !Survives(s) && !Leans(s)
    requires 0 < start <= end <= |text| && IsSeparator(text[start - 1])
    ensures Contains(Splice(text, start, end), s) ==> Contains(text, s)
  {
    hide Survives, Leans, IsSeparator;
    if Contains(Splice(text, start, end), s) {
      var a, b := text[..start], text[end..];
      AroundMarker(a, b, s);
      assert text[0..start] == a && text[end..|text|] == b;
      PartContains(text, s, 0, start);
      PartContains(text, s, end, |text|);
      if p :| LiesOver(a, b, s, p) {
        if p < |a| { OverlapLeans(a, b, s, p); } else { OverlapFromInside(a, b, s, p); }
      }
    }
  }

  lemma {:induction false} SeparatedSubFrees(s: string, text: string, ms: seq<Match>)
    requires s != "" && !Survives(s) && !Leans(s)
    requires Matches(text, ms) && AfterSeparators(text, ms)
    ensures Contains(Sub(text, ms), s) ==> Contains(text, s)
    decreases |ms|
  {
    hide Survives, Leans, Contains, IsSeparator;
    if ms != [] {
      var last := ms[|ms| - 1];
      var next := Splice(text, last.start, last.end);
      SeparatedSpliceFrees(s, text, last.start, last.end);
      forall k | 0 <= k < |ms| - 1 ensures next[ms[k].start - 1] == text[ms[k].start - 1] {
        assert ms[k].end <= last.start;
      }
      SeparatedSubFrees(s, next, ms[..|ms| - 1]);
    }
  }

  lemma {:induction false} SeparatedPassesFree(s: string, text: string, patterns: seq<Pattern>)
    requires s != "" && !Survives(s) && !Leans(s) && ArePatterns(patterns) && AreSeparated(patterns)
    ensures Contains(Subbed(text, patterns), s) ==> Contains(text, s)
  {
    hide Survives, Leans, Contains, AfterSeparators;
    if patterns != [] {
      var init, last := patterns[..|patterns| - 1], patterns[|patterns| - 1];
      SeparatedPassesFree(s, text, init);
      assert IsSeparated(last);
      SeparatedSubFrees(s, Subbed(text, init), last(Subbed(text, init)));
    }
  }

  lemma ReplacedOne(text: string, s: string)
    requires s != ""
    ensures Replaced(text, [s]) == Replace(text, s)
  {
    assert [s][..0] == [];
  }

  // One match in one text.
  function Only(text: string, at: nat): Pattern { t => if t == text then [Match(at, at)] else [] }

  lemma OnlyIsSeparated(text: string, at: nat)
    requires 0 < at <= |text| && IsSeparator(text[at - 1])
    ensures IsPattern(Only(text, at)) && IsSeparated(Only(text, at))
  {
    hide IsSeparator;
  }

  lemma OnlySubs(text: string, at: nat, s: string)
    requires 0 < at <= |text| && IsSeparator(text[at - 1]) && |text| < |s|
    ensures ArePatterns([Only(text, at)]) && AreSeparated([Only(text, at)])
    ensures Redacted(text, [s], [Only(text, at)]) == Splice(text, at, at)
  {
    OnlyIsSeparated(text, at);
    hide IsSeparator, IsPattern, IsSeparated, Sub, Replaced, Matches, Contains;
    ReplacedOne(text, s);
    ShortIsKept(text, s);
    OneMatch(text, Match(at, at));
    assert [Only(text, at)][..0] == [];
    assert Subbed(text, []) == text;
  }

  lemma OneMatch(text: string, m: Match)
    requires m.start <= m.end <= |text|
    ensures Sub(text, [m]) == Splice(text, m.start, m.end)
  {
    assert [m][..0] == [];
    assert Sub(Splice(text, m.start, m.end), []) == Splice(text, m.start, m.end);
  }

  // A leaning secret: a marker put after its separator completes it.
  lemma LeanerIsCompleted(s: string) returns (text: string, patterns: seq<Pattern>)
    requires s != "" && Leans(s)
    ensures ArePatterns(patterns) && AreSeparated(patterns) && Contains(Redacted(text, [s], patterns), s)
  {
    var d :| -|s| < d < 0 && !DisagreesAt(s, d) && IsSeparator(s[-d - 1]);
    OverlapBuilds(MARKER, s, d);
    var left, right := Left(s, d), Right(MARKER, s, d);
    text := left + right;
    patterns := [Only(text, |left|)];
    assert text[|left| - 1] == s[-d - 1] && text[..|left|] == left && text[|left|..] == right;
    hide DisagreesAt, Leans, Left, Right, IsSeparator, ArePatterns, AreSeparated, Redacted, Only;
    OnlySubs(text, |left|, s);
    assert Contains(left + MARKER + right, s);
  }

  // For a secret alone and patterns that put the marker after a separator: some text
  // keeps it exactly when it survives its own replacement or leans on a separator.
  lemma SecretStaysIff(s: string)
    requires s != ""
    ensures Survives(s) || Leans(s) <==>
      exists text: string, patterns: seq<Pattern> ::
        ArePatterns(patterns) && AreSeparated(patterns) && Contains(Redacted(text, [s], patterns), s)
  {
    if !Survives(s) && !Leans(s) {
      forall text: string, patterns: seq<Pattern> | ArePatterns(patterns) && AreSeparated(patterns)
        ensures !Contains(Redacted(text, [s], patterns), s)
      {
        ReplacedOne(text, s);
        SeparatedPassesFree(s, Replace(text, s), patterns);
        OnlySurvivorsStay(text, s);
      }
    } else if Survives(s) {
      ReplaceLeavesIffSurvives(s);
      var text :| Contains(Replace(text, s), s);
      ReplacedOne(text, s);
      assert Redacted(text, [s], []) == Replace(text, s);
      assert ArePatterns([]) && AreSeparated([]);
    } else {
      var text, patterns := LeanerIsCompleted(s);
    }
    hide Survives, Leans, Contains, Replace;
  }

  // What the first of the harness's expressions keeps in an authorization header, after
  // a bracket that is no part of it.
  const HEADER := "[authorization="

  lemma HeaderLeans()
    ensures Leans(HEADER + "[")
  {
    var s := HEADER + "[";
    assert s[|HEADER|] == MARKER[0] && s[|HEADER| - 1] == '=';
    assert !DisagreesAt(s, -|HEADER|) && IsSeparator(s[|HEADER| - 1]);
  }

  // So a secret may lean on a header: where the first expression matches the value after
  // it and the other two match nothing, the marker completes the secret.
  lemma HeaderStays(p: Pattern, q: Pattern, r: Pattern)
    requires IsPattern(p) && IsPattern(q) && IsPattern(r)
    requires p(HEADER + "x") == [Match(|HEADER|, |HEADER| + 1)]
    requires q(HEADER + MARKER) == [] && r(HEADER + MARKER) == []
    ensures Leans(HEADER + "[") && !Contains(HEADER + "x", HEADER + "[")
    ensures Redacted(HEADER + "x", [HEADER + "["], [p, q, r]) == HEADER + MARKER
    ensures Contains(HEADER + MARKER, HEADER + "[")
  {
    HeaderLeans();
    var text, s := HEADER + "x", HEADER + "[";
    assert text[|HEADER|] != s[|HEADER|];
    forall i | 0 <= i <= |text| ensures !OccursAt(text, s, i) {
      if OccursAt(text, s, i) { OccursElement(text, s, i, |HEADER|); }
    }
    assert OccursAt(HEADER + MARKER, s, 0) by { assert (HEADER + MARKER)[..|s|] == s; }
    hide Contains, Leans, Sub, IsPattern, Replaced;
    ReplacedOne(text, s);
    ReplaceLeavesFree(text, s);
    OneMatch(text, Match(|HEADER|, |HEADER| + 1));
    assert Splice(text, |HEADER|, |HEADER| + 1) == HEADER + MARKER;
    HeaderPasses(text, HEADER + MARKER, p, q, r);
  }

  lemma HeaderPasses(text: string, result: string, p: Pattern, q: Pattern, r: Pattern)
    requires IsPattern(p) && IsPattern(q) && IsPattern(r)
    requires Sub(text, p(text)) == result && q(result) == [] && r(result) == []
    ensures Subbed(text, [p, q, r]) == result
  {
    assert [p, q, r][..2] == [p, q] && [p, q][..1] == [p] && [p][..0] == [];
    assert Subbed(text, []) == text;
    assert Subbed(text, [p]) == result;
    assert Subbed(text, [p, q]) == result;
  }

  // RED, a part of the marker, survives: even its own redaction contains it.
  lemma RedStays()
    ensures Survives("RED") && Contains(Redacted("RED", ["RED"], []), "RED")
  {
    assert forall k :: 0 <= k < 3 ==> "RED"[k] == MARKER[1 + k];
    assert !DisagreesAt("RED", 1);
    assert SurvivesAt("RED", 1);
    SurvivorStays("RED", 1);
    assert Left("RED", 1) + "RED" + Right(MARKER, "RED", 1) == "RED";
    ReplacedOne("RED", "RED");
  }

  // Two opening brackets are never left by their own redaction: the marker that could
  // complete them would have to follow a bracket, and is met earlier. A second secret
  // may put the marker there.
  lemma BracketsNeedAnother()
    ensures !Survives("[[") && !Leans("[[")
    ensures !Contains("[x", "[[") && Replaced("[x", ["[[", "x"]) == "[" + MARKER && Contains("[" + MARKER, "[[")
  {
    var s := "[[";
    assert !DisagreesAt(s, -1);
    forall d | 0 <= d < |MARKER| ensures DisagreesAt(s, d) {
      if d < |MARKER| - 1 { assert s[1] != MARKER[d + 1]; } else { assert s[0] != MARKER[d]; }
    }
    assert Left(s, -1) == "[" && (Left(s, -1) + s)[0..2] == s;
    FindIs(Left(s, -1) + s, s, 0, 0);
    forall d | -2 < d < |MARKER| ensures !SurvivesAt(s, d) {
      if !DisagreesAt(s, d) { assert d == -1; }
    }
    assert Right(MARKER, s, -1) == "" && "[" + ['x'] + "" == "[x";
    ReplacedBeside(s, -1, 'x');
    assert "[" + MARKER + "" == "[" + MARKER;
  }

  // ---------------------------------------------------------------- all the secrets, exactly

  // How the harness orders its secrets: the longest first, none empty, none twice.
  predicate AsSorted(secrets: seq<string>) {
    && Named(secrets)
    && forall j, k :: 0 <= j < k < |secrets| ==> |secrets[j]| >= |secrets[k]| && secrets[j] != secrets[k]
  }

  // Whatever the text and the other secrets, the replacements leave no s.
  ghost predicate SafeInReplacement(s: string) {
    forall text: string, secrets: seq<string> ::
      AsSorted(secrets) && s in secrets ==> !Contains(Replaced(text, secrets), s)
  }

  // And whatever the passes match, redact_text leaves none.
  ghost predicate SafeInRedaction(s: string) {
    forall text: string, secrets: seq<string>, patterns: seq<Pattern> ::
      AsSorted(secrets) && s in secrets && ArePatterns(patterns) ==> !Contains(Redacted(text, secrets, patterns), s)
  }

  lemma SidesAreWithout(s: string, d: int, c: char)
    requires s != "" && c !in s && -|s| < d < |MARKER|
    ensures c !in Left(s, d) && c !in Right(MARKER, s, d) && |Left(s, d)| + |Right(MARKER, s, d)| < |s|
  {
    forall x | x in Left(s, d) || x in Right(MARKER, s, d) ensures x in s { }
  }

  lemma AbsentIsKept(text: string, c: char)
    requires c !in text
    ensures Replace(text, [c]) == text
  {
    forall i | 0 <= i <= |text| ensures !OccursAt(text, [c], i) {
      if OccursAt(text, [c], i) { OccursElement(text, [c], i, 0); }
    }
    ReplaceLeavesFree(text, [c]);
  }

  // A character that stands between what the secret has on both sides of the marker
  // keeps the secret from being seen.
  lemma HiddenByCharacter(s: string, left: string, right: string, c: char)
    requires c !in s && |left| + |right| < |s|
    ensures !Contains(left + [c] + right, s)
  {
    var text := left + [c] + right;
    forall i | 0 <= i <= |text| ensures !OccursAt(text, s, i) {
      if OccursAt(text, s, i) { OccursElement(text, s, i, |left| - i); }
    }
  }

  lemma CharacterReplaced(left: string, c: char, right: string)
    requires c !in left && c !in right
    ensures Replace(left + [c] + right, [c]) == left + MARKER + right
  {
    var text := left + [c] + right;
    forall i | 0 <= i < |left| ensures !OccursAt(text, [c], i) {
      if OccursAt(text, [c], i) { OccursElement(text, [c], i, 0); }
    }
    assert text[|left|..|left| + 1] == [c];
    FindIs(text, [c], 0, |left|);
    assert text[..|left|] == left && text[|left| + 1..] == right;
    AbsentIsKept(right, c);
  }

  lemma ReplacedTwo(text: string, s: string, u: string)
    requires s != "" && u != ""
    ensures Replaced(text, [s, u]) == Replace(Replace(text, s), u)
  {
    assert [s, u][..1] == [s];
    ReplacedOne(text, s);
  }

  // Beside a secret of one character, replacing that character completes any secret
  // that agrees with the marker.
  lemma ReplacedBeside(s: string, d: int, c: char)
    requires |s| >= 2 && c !in s && -|s| < d < |MARKER| && !DisagreesAt(s, d)
    ensures
      var text := Left(s, d) + [c] + Right(MARKER, s, d);
      && !Contains(text, s)
      && Replaced(text, [s, [c]]) == Left(s, d) + MARKER + Right(MARKER, s, d)
      && Contains(Replaced(text, [s, [c]]), s)
  {
    var left, right := Left(s, d), Right(MARKER, s, d);
    SidesAreWithout(s, d, c);
    OverlapBuilds(MARKER, s, d);
    assert Contains(left + MARKER + right, s);
    hide DisagreesAt, Left, Right, Contains, Replace;
    HiddenByCharacter(s, left, right, c);
    ReplaceLeavesFree(left + [c] + right, s);
    CharacterReplaced(left, c, right);
    ReplacedTwo(left + [c] + right, s, [c]);
  }

  // A secret of one character cannot lean out over the marker's left end.
  lemma ShortSurvives(s: string, d: int)
    requires |s| == 1 && -|s| < d < |MARKER| && !DisagreesAt(s, d)
    ensures Survives(s)
  {
    assert SurvivesAt(s, d);
  }

  lemma TouchableStays(s: string, c: char) returns (text: string, secrets: seq<string>)
    requires s != "" && c !in s && !Untouchable(s)
    ensures AsSorted(secrets) && s in secrets && Contains(Replaced(text, secrets), s)
  {
    hide DisagreesAt, Left, Right, Contains, Replaced, Survives;
    var d :| -|s| < d < |MARKER| && !DisagreesAt(s, d);
    if |s| == 1 {
      ShortSurvives(s, d);
      text := SurvivorIsLeft(s);
      secrets := [s];
      ReplacedOne(text, s);
    } else {
      text, secrets := Left(s, d) + [c] + Right(MARKER, s, d), [s, [c]];
      assert secrets[0] == s;
      ReplacedBeside(s, d, c);
    }
  }

  // A secret is safe, beside any others and in any text, exactly when it is untouchable:
  // no character's worth of it may agree with the marker. The passes add nothing to that.
  lemma SafeIffUntouchable(s: string, c: char)
    requires s != "" && c !in s
    ensures SafeInReplacement(s) <==> Untouchable(s)
    ensures SafeInRedaction(s) <==> Untouchable(s)
  {
    hide Untouchable, Contains, Replaced, Redacted;
    if Untouchable(s) {
      forall text: string, secrets: seq<string>, patterns: seq<Pattern>
        | AsSorted(secrets) && s in secrets && ArePatterns(patterns)
        ensures !Contains(Redacted(text, secrets, patterns), s)
      {
        RedactedIsFree(text, secrets, patterns, s);
      }
      forall text: string, secrets: seq<string> | AsSorted(secrets) && s in secrets
        ensures !Contains(Replaced(text, secrets), s)
      {
        NoPasses(text, secrets);
        assert !Contains(Redacted(text, secrets, []), s);
      }
    } else {
      var text, secrets := TouchableStays(s, c);
      NoPasses(text, secrets);
      assert !SafeInReplacement(s);
      assert Contains(Redacted(text, secrets, []), s);
    }
  }

  lemma NoPasses(text: string, secrets: seq<string>)
    requires AsSorted(secrets)
    ensures ArePatterns([]) && Redacted(text, secrets, []) == Replaced(text, secrets)
  {
  }

  // redact_text
  method RedactText(text: string, secrets: seq<string>, patterns: seq<Pattern>) returns (redacted: string)
    requires Named(secrets) && ArePatterns(patterns)
    ensures redacted == Redacted(text, secrets, patterns)
    ensures AllUntouchable(secrets) ==> FreeOfAll(redacted, secrets)
  {
    redacted := text;
    for i := 0 to |secrets|
      invariant redacted == Replaced(text, secrets[..i])
    {
      assert secrets[..i + 1][..i] == secrets[..i];
      redacted := Replace(redacted, secrets[i]);
    }
    assert secrets[..|secrets|] == secrets;
    ghost var replaced := redacted;
    for i := 0 to |patterns|
      invariant redacted == Subbed(replaced, patterns[..i])
    {
      assert patterns[..i + 1][..i] == patterns[..i];
      assert IsPattern(patterns[i]);
      redacted := Sub(redacted, patterns[i](redacted));
    }
    assert patterns[..|patterns|] == patterns;
    forall k | 0 <= k < |secrets| && AllUntouchable(secrets) ensures !Contains(redacted, secrets[k]) {
      RedactedIsFree(text, secrets, patterns, secrets[k]);
    }
  }

  // ---------------------------------------------------------------- sanitize_report

  datatype Value =
    | Null
    | Scalar(number: real)
    | Text(text: string)
    | List(items: Values)
    | Mapping(members: Members)

  datatype Values = NoValues | Item(value: Value, rest: Values)

  datatype Members = NoMembers | Member(key: string, value: Value, rest: Members)

  // A key names a credential field, and is not env_key.
  type Sensitive = string -> bool

  function Sanitized(v: Value, secrets: seq<string>, patterns: seq<Pattern>, sensitive: Sensitive): Value
    requires Named(secrets) && ArePatterns(patterns)
  {
    match v
    case Text(text) => Text(Redacted(text, secrets, patterns))
    case List(items) => List(SanitizedItems(items, secrets, patterns, sensitive))
    case Mapping(members) => Mapping(SanitizedMembers(members, secrets, patterns, sensitive))
    case _ => v
  }

  function SanitizedItems(vs: Values, secrets: seq<string>, patterns: seq<Pattern>, sensitive: Sensitive): Values
    requires Named(secrets) && ArePatterns(patterns)
  {
    match vs
    case NoValues => NoValues
    case Item(v, rest) =>
      Item(Sanitized(v, secrets, patterns, sensitive), SanitizedItems(rest, secrets, patterns, sensitive))
  }

  function SanitizedMembers(ms: Members, secrets: seq<string>, patterns: seq<Pattern>, sensitive: Sensitive): Members
    requires Named(secrets) && ArePatterns(patterns)
  {
    match ms
    case NoMembers => NoMembers
    case Member(key, v, rest) =>
      Member(
        key,
        if !sensitive(key) then Sanitized(v, secrets, patterns, sensitive)
        else if v == Null || v == Text("") then v
        else Text(MARKER),
        SanitizedMembers(rest, secrets, patterns, sensitive))
  }

  // No string anywhere in the value but its keys contains the secret.
  predicate LeavesFree(v: Value, s: string) {
    match v
    case Text(text) => !Contains(text, s)
    case List(items) => ItemsFree(items, s)
    case Mapping(members) => MembersFree(members, s)
    case _ => true
  }

  predicate ItemsFree(vs: Values, s: string) { vs.Item? ==> LeavesFree(vs.value, s) && ItemsFree(vs.rest, s) }

  predicate MembersFree(ms: Members, s: string) { ms.Member? ==> LeavesFree(ms.value, s) && MembersFree(ms.rest, s) }

  lemma MarkerIsFree(s: string)
    requires Untouchable(s)
    ensures !Contains(MARKER, s) && !Contains("", s)
  {
    assert "" + MARKER + "" == MARKER;
    if Contains(MARKER, s) { MarkerHidesNothing("", "", s); }
    hide DisagreesAt;
  }

  lemma {:induction false} SanitizedIsFree(v: Value, secrets: seq<string>, patterns: seq<Pattern>,
      sensitive: Sensitive, s: string)
    requires Named(secrets) && ArePatterns(patterns) && s in secrets && Untouchable(s)
    ensures LeavesFree(Sanitized(v, secrets, patterns, sensitive), s)
    decreases v
  {
    hide Untouchable, Contains, Redacted, Named, ArePatterns;
    match v {
      case Text(text) => RedactedIsFree(text, secrets, patterns, s);
      case List(items) => ItemsAreFree(items, secrets, patterns, sensitive, s);
      case Mapping(members) => MembersAreFree(members, secrets, patterns, sensitive, s);
      case _ =>
    }
  }

  lemma {:induction false} ItemsAreFree(vs: Values, secrets: seq<string>, patterns: seq<Pattern>,
      sensitive: Sensitive, s: string)
    requires Named(secrets) && ArePatterns(patterns) && s in secrets && Untouchable(s)
    ensures ItemsFree(SanitizedItems(vs, secrets, patterns, sensitive), s)
    decreases vs
  {
    hide Untouchable, Contains, Redacted, Named, ArePatterns;
    if vs.Item? {
      SanitizedIsFree(vs.value, secrets, patterns, sensitive, s);
      ItemsAreFree(vs.rest, secrets, patterns, sensitive, s);
    }
  }

  lemma {:induction false} MembersAreFree(ms: Members, secrets: seq<string>, patterns: seq<Pattern>,
      sensitive: Sensitive, s: string)
    requires Named(secrets) && ArePatterns(patterns) && s in secrets && Untouchable(s)
    ensures MembersFree(SanitizedMembers(ms, secrets, patterns, sensitive), s)
    decreases ms
  {
    hide Untouchable, Contains, Redacted, Named, ArePatterns;
    MarkerIsFree(s);
    if ms.Member? {
      SanitizedIsFree(ms.value, secrets, patterns, sensitive, s);
      MembersAreFree(ms.rest, secrets, patterns, sensitive, s);
    }
  }

  // No key anywhere in the value contains the secret.
  predicate KeysFree(v: Value, s: string) {
    match v
    case List(items) => ItemKeysFree(items, s)
    case Mapping(members) => MemberKeysFree(members, s)
    case _ => true
  }

  predicate ItemKeysFree(vs: Values, s: string) { vs.Item? ==> KeysFree(vs.value, s) && ItemKeysFree(vs.rest, s) }

  predicate MemberKeysFree(ms: Members, s: string) {
    ms.Member? ==> !Contains(ms.key, s) && KeysFree(ms.value, s) && MemberKeysFree(ms.rest, s)
  }

  // No key outside the values of sensitive keys does.
  predicate OpenKeysFree(v: Value, s: string, sensitive: Sensitive) {
    match v
    case List(items) => OpenItemKeysFree(items, s, sensitive)
    case Mapping(members) => OpenMemberKeysFree(members, s, sensitive)
    case _ => true
  }

  predicate OpenItemKeysFree(vs: Values, s: string, sensitive: Sensitive) {
    vs.Item? ==> OpenKeysFree(vs.value, s, sensitive) && OpenItemKeysFree(vs.rest, s, sensitive)
  }

  predicate OpenMemberKeysFree(ms: Members, s: string, sensitive: Sensitive) {
    ms.Member? ==>
      && !Contains(ms.key, s)
      && (!sensitive(ms.key) ==> OpenKeysFree(ms.value, s, sensitive))
      && OpenMemberKeysFree(ms.rest, s, sensitive)
  }

  lemma {:induction false} KeysStay(v: Value, secrets: seq<string>, patterns: seq<Pattern>, sensitive: Sensitive,
      s: string)
    requires Named(secrets) && ArePatterns(patterns)
    ensures KeysFree(Sanitized(v, secrets, patterns, sensitive), s) <==> OpenKeysFree(v, s, sensitive)
    decreases v
  {
    hide Contains, Redacted, Named, ArePatterns;
    match v {
      case List(items) => ItemKeysStay(items, secrets, patterns, sensitive, s);
      case Mapping(members) => MemberKeysStay(members, secrets, patterns, sensitive, s);
      case _ =>
    }
  }

  lemma {:induction false} ItemKeysStay(vs: Values, secrets: seq<string>, patterns: seq<Pattern>,
      sensitive: Sensitive, s: string)
    requires Named(secrets) && ArePatterns(patterns)
    ensures ItemKeysFree(SanitizedItems(vs, secrets, patterns, sensitive), s) <==> OpenItemKeysFree(vs, s, sensitive)
    decreases vs
  {
    hide Contains, Redacted, Named, ArePatterns;
    if vs.Item? {
      KeysStay(vs.value, secrets, patterns, sensitive, s);
      ItemKeysStay(vs.rest, secrets, patterns, sensitive, s);
    }
  }

  lemma {:induction false} MemberKeysStay(ms: Members, secrets: seq<string>, patterns: seq<Pattern>,
      sensitive: Sensitive, s: string)
    requires Named(secrets) && ArePatterns(patterns)
    ensures MemberKeysFree(SanitizedMembers(ms, secrets, patterns, sensitive), s)
      <==> OpenMemberKeysFree(ms, s, sensitive)
    decreases ms
  {
    hide Contains, Redacted, Named, ArePatterns;
    if ms.Member? {
      KeysStay(ms.value, secrets, patterns, sensitive, s);
      MemberKeysStay(ms.rest, secrets, patterns, sensitive, s);
    }
  }

  // Keys are kept as they are: a sanitized report is free of an untouchable secret
  // exactly when no key that stays in it contains the secret. The scan that
  // write_safe_report makes afterwards is for these.
  lemma ReportIsFreeIff(v: Value, secrets: seq<string>, patterns: seq<Pattern>, sensitive: Sensitive, s: string)
    requires Named(secrets) && ArePatterns(patterns) && s in secrets && Untouchable(s)
    ensures
      var r := Sanitized(v, secrets, patterns, sensitive);
      LeavesFree(r, s) && KeysFree(r, s) <==> OpenKeysFree(v, s, sensitive)
  {
    hide Untouchable, Contains;
    SanitizedIsFree(v, secrets, patterns, sensitive, s);
    KeysStay(v, secrets, patterns, sensitive, s);
  }

  // ---------------------------------------------------------------- a report, place by place

  // How many items or members a value has, and the i-th of them, with its key.
  function Width(v: Value): nat {
    match v
    case List(items) => ItemCount(items)
    case Mapping(members) => MemberCount(members)
    case _ => 0
  }

  function ItemCount(vs: Values): nat { if vs.Item? then 1 + ItemCount(vs.rest) else 0 }

  function MemberCount(ms: Members): nat { if ms.Member? then 1 + MemberCount(ms.rest) else 0 }

  function Child(v: Value, i: nat): Value
    requires i < Width(v)
  {
    match v
    case List(items) => NthItem(items, i)
    case Mapping(members) => NthMember(members, i).value
  }

  function Key(v: Value, i: nat): Option<string>
    requires i < Width(v)
  {
    if v.Mapping? then Some(NthMember(v.members, i).key) else None
  }

  function NthItem(vs: Values, i: nat): Value
    requires i < ItemCount(vs)
  {
    if i == 0 then vs.value else NthItem(vs.rest, i - 1)
  }

  function NthMember(ms: Members, i: nat): Members
    requires i < MemberCount(ms)
    ensures NthMember(ms, i).Member?
  {
    if i == 0 then ms else NthMember(ms.rest, i - 1)
  }

  // What a path leads to: something in the open, the value of a sensitive key, or nothing;
  // nothing is reached through the value of a sensitive key.
  datatype Place = Open(value: Value) | Covered(value: Value) | Nowhere

  function At(v: Value, path: seq<nat>, sensitive: Sensitive): Place {
    if path == [] then Open(v)
    else
      var before, i := At(v, path[..|path| - 1], sensitive), path[|path| - 1];
      if !before.Open? || i >= Width(before.value) then Nowhere
      else
        var key, child := Key(before.value, i), Child(before.value, i);
        if key.Some? && sensitive(key.value) then Covered(child) else Open(child)
  }

  // Two values of the same kind and width, with the same keys in the same order.
  ghost predicate Alike(u: Value, w: Value) {
    && u.List? == w.List? && u.Mapping? == w.Mapping? && u.Text? == w.Text?
    && (u.Null? || u.Scalar? || w.Null? || w.Scalar? ==> u == w)
    && Width(u) == Width(w)
    && forall i: nat :: i < Width(u) ==> Key(u, i) == Key(w, i)
  }

  lemma {:induction false} SanitizedItem(vs: Values, secrets: seq<string>, patterns: seq<Pattern>,
      sensitive: Sensitive, i: nat)
    requires Named(secrets) && ArePatterns(patterns)
    ensures ItemCount(SanitizedItems(vs, secrets, patterns, sensitive)) == ItemCount(vs)
    ensures i < ItemCount(vs) ==>
      NthItem(SanitizedItems(vs, secrets, patterns, sensitive), i)
      == Sanitized(NthItem(vs, i), secrets, patterns, sensitive)
    decreases vs
  {
    hide Sanitized;
    if vs.Item? { SanitizedItem(vs.rest, secrets, patterns, sensitive, if i == 0 then 0 else i - 1); }
  }

  function Hidden(v: Value): Value { if v in {Null, Text("")} then v else Text("[REDACTED]") }

  lemma {:induction false} SanitizedMember(ms: Members, secrets: seq<string>, patterns: seq<Pattern>,
      sensitive: Sensitive, i: nat)
    requires Named(secrets) && ArePatterns(patterns)
    ensures MemberCount(SanitizedMembers(ms, secrets, patterns, sensitive)) == MemberCount(ms)
    ensures i < MemberCount(ms) ==>
      var m, n := NthMember(ms, i), NthMember(SanitizedMembers(ms, secrets, patterns, sensitive), i);
      && n.key == m.key
      && n.value == if sensitive(m.key) then Hidden(m.value) else Sanitized(m.value, secrets, patterns, sensitive)
    decreases ms
  {
    hide Sanitized;
    if ms.Member? { SanitizedMember(ms.rest, secrets, patterns, sensitive, if i == 0 then 0 else i - 1); }
  }

  lemma SanitizedIsAlike(v: Value, secrets: seq<string>, patterns: seq<Pattern>, sensitive: Sensitive)
    requires Named(secrets) && ArePatterns(patterns)
    ensures Alike(v, Sanitized(v, secrets, patterns, sensitive))
  {
    hide Redacted, Named, ArePatterns;
    var w := Sanitized(v, secrets, patterns, sensitive);
    if v.List? { SanitizedItem(v.items, secrets, patterns, sensitive, 0); }
    if v.Mapping? {
      SanitizedMember(v.members, secrets, patterns, sensitive, 0);
      forall i: nat | i < Width(v) ensures Key(v, i) == Key(w, i) {
        SanitizedMember(v.members, secrets, patterns, sensitive, i);
      }
    }
  }

  lemma SanitizedChild(v: Value, secrets: seq<string>, patterns: seq<Pattern>, sensitive: Sensitive, i: nat)
    requires Named(secrets) && ArePatterns(patterns) && i < Width(v)
    ensures Alike(v, Sanitized(v, secrets, patterns, sensitive))
    ensures
      var child := Child(v, i);
      Child(Sanitized(v, secrets, patterns, sensitive), i)
      == if Key(v, i).Some? && sensitive(Key(v, i).value) then Hidden(child)
         else Sanitized(child, secrets, patterns, sensitive)
  {
    SanitizedIsAlike(v, secrets, patterns, sensitive);
    if v.List? { SanitizedItem(v.items, secrets, patterns, sensitive, i); }
    if v.Mapping? { SanitizedMember(v.members, secrets, patterns, sensitive, i); }
    hide Redacted, Named, ArePatterns, Hidden;
  }

  lemma {:induction false} SanitizedAt(v: Value, secrets: seq<string>, patterns: seq<Pattern>, sensitive: Sensitive,
      path: seq<nat>)
    requires Named(secrets) && ArePatterns(patterns)
    ensures
      At(Sanitized(v, secrets, patterns, sensitive), path, sensitive) ==
      match At(v, path, sensitive)
      case Nowhere => Nowhere
      case Covered(u) => Covered(Hidden(u))
      case Open(u) => Open(Sanitized(u, secrets, patterns, sensitive))
    decreases |path|
  {
    hide Sanitized, Named, ArePatterns, Hidden;
    if path != [] {
      var up, i := path[..|path| - 1], path[|path| - 1];
      SanitizedAt(v, secrets, patterns, sensitive, up);
      var before := At(v, up, sensitive);
      if before.Open? {
        SanitizedIsAlike(before.value, secrets, patterns, sensitive);
        if i < Width(before.value) { SanitizedChild(before.value, secrets, patterns, sensitive, i); }
      }
    }
  }

  // A report, place by place. In the open everything is of the kind, the width and the
  // keys it was, numbers are untouched and texts are redacted; the value of a sensitive
  // key is the marker alone, unless it was null or empty; and there is nothing else.
  lemma ReportAt(v: Value, secrets: seq<string>, patterns: seq<Pattern>, sensitive: Sensitive, path: seq<nat>)
    requires Named(secrets) && ArePatterns(patterns)
    ensures
      var r := At(Sanitized(v, secrets, patterns, sensitive), path, sensitive);
      match At(v, path, sensitive)
      case Nowhere => r == Nowhere
      case Covered(u) => r == Covered(if u == Null || u == Text("") then u else Text("[REDACTED]"))
      case Open(u) =>
        && r.Open? && Alike(u, r.value)
        && (u.Text? ==> r.value == Text(Redacted(u.text, secrets, patterns)))
  {
    SanitizedAt(v, secrets, patterns, sensitive, path);
    var place := At(v, path, sensitive);
    if place.Open? { SanitizedIsAlike(place.value, secrets, patterns, sensitive); }
    hide Redacted, Named, ArePatterns, Alike, At;
  }
}
