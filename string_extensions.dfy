/** StringExtensions: repeated prefix and suffix trimming, null-for-empty,
    and the M:SS / H:M:SS clock format. A C# string that may be null is an
    Option<string>; comparisons are ordinal. */
module Strings {
  import opened Common
  import opened Numerals

  predicate StartsWith(s: string, t: string)
  {
    |t| <= |s| && s[..|t|] == t
  }

  predicate EndsWith(s: string, t: string)
  {
    |t| <= |s| && s[|s| - |t|..] == t
  }

  /** t written k times. */
  function Repeat(t: string, k: nat): string
    decreases k
  {
    if k == 0 then "" else t + Repeat(t, k - 1)
  }

  /** What TrimStart's loop leaves: s with every leading copy of t cut off. */
  function StripLeading(s: string, t: string): string
    requires |t| > 0
    decreases |s|
  {
    if StartsWith(s, t) then StripLeading(s[|t|..], t) else s
  }

  /** How many leading copies of t there are. */
  function LeadingCount(s: string, t: string): nat
    requires |t| > 0
    decreases |s|
  {
    if StartsWith(s, t) then 1 + LeadingCount(s[|t|..], t) else 0
  }

  /** The stripped string no longer starts with t, and putting the copies
      back rebuilds s. */
  lemma {:induction false} StripLeadingMeaning(s: string, t: string)
    requires |t| > 0
    ensures s == Repeat(t, LeadingCount(s, t)) + StripLeading(s, t)
    ensures !StartsWith(StripLeading(s, t), t)
    decreases |s|
  {
    if StartsWith(s, t) {
      StripLeadingMeaning(s[|t|..], t);
      assert s == t + s[|t|..];
      assert Repeat(t, LeadingCount(s, t)) == t + Repeat(t, LeadingCount(s[|t|..], t));
    }
  }

  function StripTrailing(s: string, t: string): string
    requires |t| > 0
    decreases |s|
  {
    if EndsWith(s, t) then StripTrailing(s[..|s| - |t|], t) else s
  }

  function TrailingCount(s: string, t: string): nat
    requires |t| > 0
    decreases |s|
  {
    if EndsWith(s, t) then 1 + TrailingCount(s[..|s| - |t|], t) else 0
  }

  /** t repeated k times can be built from either end. */
  lemma {:induction false} RepeatSnoc(t: string, k: nat)
    ensures Repeat(t, k + 1) == Repeat(t, k) + t
    decreases k
  {
    if k > 0 {
      RepeatSnoc(t, k - 1);
    }
  }

  lemma {:induction false} StripTrailingMeaning(s: string, t: string)
    requires |t| > 0
    ensures s == StripTrailing(s, t) + Repeat(t, TrailingCount(s, t))
    ensures !EndsWith(StripTrailing(s, t), t)
    decreases |s|
  {
    if EndsWith(s, t) {
      var rest := s[..|s| - |t|];
      StripTrailingMeaning(rest, t);
      assert s == rest + t;
      RepeatSnoc(t, TrailingCount(rest, t));
    }
  }

  /** The value TrimStart returns: the target itself for a null or empty
      trim string or target. */
  function TrimmedStart(target: Option<string>, trimString: Option<string>): Option<string>
  {
    if trimString.None? || |trimString.value| == 0 || target.None? || |target.value| == 0 then target
    else Some(StripLeading(target.value, trimString.value))
  }

  function TrimmedEnd(target: Option<string>, trimString: Option<string>): Option<string>
  {
    if trimString.None? || |trimString.value| == 0 || target.None? || |target.value| == 0 then target
    else Some(StripTrailing(target.value, trimString.value))
  }

  /** TrimStart and TrimEnd remove whole copies of the trim string only, all
      of them, and trimming again changes nothing. */
  lemma TrimMeaning(target: string, trimString: string)
    requires |trimString| > 0 && |target| > 0
    ensures var r := TrimmedStart(Some(target), Some(trimString)).value;
      && target == Repeat(trimString, LeadingCount(target, trimString)) + r
      && !StartsWith(r, trimString)
      && (|r| > 0 ==> TrimmedStart(Some(r), Some(trimString)) == Some(r))
    ensures var r := TrimmedEnd(Some(target), Some(trimString)).value;
      && target == r + Repeat(trimString, TrailingCount(target, trimString))
      && !EndsWith(r, trimString)
      && (|r| > 0 ==> TrimmedEnd(Some(r), Some(trimString)) == Some(r))
  {
    StripLeadingMeaning(target, trimString);
    StripTrailingMeaning(target, trimString);
  }

  method TrimStart(target: Option<string>, trimString: Option<string>) returns (r: Option<string>)
    ensures r == TrimmedStart(target, trimString)
  {
    if trimString.None? || |trimString.value| == 0 || target.None? || |target.value| == 0 {
      return target;
    }
    var t := trimString.value;
    var result := target.value;
    while StartsWith(result, t)
      invariant StripLeading(result, t) == StripLeading(target.value, t)
      decreases |result|
    {
      result := result[|t|..];
    }
    return Some(result);
  }

  method TrimEnd(target: Option<string>, trimString: Option<string>) returns (r: Option<string>)
    ensures r == TrimmedEnd(target, trimString)
  {
    if trimString.None? || |trimString.value| == 0 || target.None? || |target.value| == 0 {
      return target;
    }
    var t := trimString.value;
    var result := target.value;
    while EndsWith(result, t)
      invariant StripTrailing(result, t) == StripTrailing(target.value, t)
      decreases |result|
    {
      result := result[..|result| - |t|];
    }
    return Some(result);
  }

  function NullifyIfEmpty(str: Option<string>): (r: Option<string>)
    ensures r.Some? <==> str.Some? && |str.value| > 0
    ensures r.Some? ==> r == str
  {
    if str.None? || |str.value| == 0 then None else str
  }

  /** C#'s integer division and remainder, which truncate toward zero. */
  function TruncDiv(a: int, b: int): int
    requires b > 0
  {
    if a >= 0 then a / b else -((-a) / b)
  }

  function TruncMod(a: int, b: int): int
    requires b > 0
  {
    a - TruncDiv(a, b) * b
  }

  /** The Hours, Minutes and Seconds components of TimeSpan.FromSeconds;
      whole days are not a component of the format. */
  function Hours(seconds: int): int { TruncMod(TruncDiv(seconds, 3600), 24) }
  function Minutes(seconds: int): int { TruncMod(TruncDiv(seconds, 60), 60) }
  function Seconds(seconds: int): int { TruncMod(seconds, 60) }

  /** FormatSeconds(int) through FormatTimeSpan. The monospace width is
      passed already written out as text (the default is "0.6"); None is the
      null width, which leaves the tag out. */
  function FormatSeconds(seconds: int, monospacedSecondsEm: Option<string>): string
  {
    var secondsText := IntToD2(Seconds(seconds));
    var text :=
      if monospacedSecondsEm.None? then IntToDecimal(Minutes(seconds)) + ":" + secondsText
      else IntToDecimal(Minutes(seconds)) + ":<mspace=" + monospacedSecondsEm.value + "em>" + secondsText;
    if Hours(seconds) > 0 then IntToDecimal(Hours(seconds)) + ":" + text else text
  }

  /** Mathf.CeilToInt: the least integer not below x. */
  function CeilToInt(x: real): (r: int)
    ensures x <= r as real < x + 1.0
  {
    -((-x).Floor)
  }

  /** FormatSeconds(float): rounded up to whole seconds first. */
  function FormatSecondsReal(seconds: real, monospacedSecondsEm: Option<string>): string
  {
    FormatSeconds(CeilToInt(seconds), monospacedSecondsEm)
  }

  /** The pieces of s between the separators c. */
  function SplitOn(s: string, c: char): (parts: seq<string>)
    ensures |parts| >= 1
    decreases |s|
  {
    if c !in s then [s]
    else
      var i := IndexOf(s, c);
      [s[..i]] + SplitOn(s[i + 1..], c)
  }

  lemma SplitJoin(a: string, c: char, b: string)
    requires c !in a
    ensures SplitOn(a + [c] + b, c) == [a] + SplitOn(b, c)
  {
    IndexOfAfter(a, c, b);
    var s := a + [c] + b;
    assert s[..|a|] == a && s[|a| + 1..] == b;
  }

  /** Reads a clock text written without the monospace tag back into
      seconds. */
  function ParseClock(text: string): Option<int>
  {
    ParseClockParts(SplitOn(text, ':'))
  }

  /** The clock's pieces read as M, SS or as H, M, SS. */
  function ParseClockParts(parts: seq<string>): Option<int>
  {
    if |parts| == 2 then
      match (ParseInt(parts[0]), ParseInt(parts[1]))
      case (Some(m), Some(s)) => Some(m * 60 + s)
      case _ => None
    else if |parts| == 3 then
      match (ParseInt(parts[0]), ParseInt(parts[1]), ParseInt(parts[2]))
      case (Some(h), Some(m), Some(s)) => Some(h * 3600 + m * 60 + s)
      case _ => None
    else None
  }

  /** The components of a time of day, non-negative and under a day. */
  lemma ClockParts(seconds: int)
    requires 0 <= seconds < 86400
    ensures 0 <= Hours(seconds) < 24 && 0 <= Minutes(seconds) < 60 && 0 <= Seconds(seconds) < 60
    ensures Hours(seconds) * 3600 + Minutes(seconds) * 60 + Seconds(seconds) == seconds
    ensures Hours(seconds) > 0 <==> seconds >= 3600
  {
    var totalMinutes := seconds / 60;
    var m := totalMinutes % 60;
    var h := totalMinutes / 60;
    var s := seconds % 60;
    assert seconds == totalMinutes * 60 + s;
    assert totalMinutes == h * 60 + m;
    EuclideanUnique(seconds, 3600, h, m * 60 + s);
    EuclideanUnique(h, 24, 0, h);
  }

  lemma ParseD2(n: int)
    requires 0 <= n < 100
    ensures ParseInt(IntToD2(n)) == Some(n)
  {
    D2TwoDigits(n);
  }

  /** For a time under a day the format is M:SS, or H:M:SS once there is an
      hour, with the seconds always two digits, and it reads back to the
      same number of seconds. */
  lemma FormatSecondsRoundTrip(seconds: int)
    requires 0 <= seconds < 86400
    ensures ParseClock(FormatSeconds(seconds, None)) == Some(seconds)
    ensures |SplitOn(FormatSeconds(seconds, None), ':')| == (if seconds >= 3600 then 3 else 2)
    ensures |SplitOn(FormatSeconds(seconds, None), ':')[|SplitOn(FormatSeconds(seconds, None), ':')| - 1]| == 2
  {
    ClockParts(seconds);
    var h, m, s := Hours(seconds), Minutes(seconds), Seconds(seconds);
    IntToDecimalRoundTrip(h);
    IntToDecimalRoundTrip(m);
    ParseD2(s);
    D2TwoDigits(s);
    NoSeparatorInDecimal(h, ':');
    NoSeparatorInDecimal(m, ':');
    FormatShape(seconds, h, m, s);
    if h > 0 {
      ParseThree(IntToDecimal(h), IntToDecimal(m), IntToD2(s), h, m, s);
    } else {
      ParseTwo(IntToDecimal(m), IntToD2(s), m, s);
    }
  }

  /** The unformatted text, spelled out piece by piece. */
  lemma FormatShape(seconds: int, h: int, m: int, s: int)
    requires h == Hours(seconds) && m == Minutes(seconds) && s == Seconds(seconds)
    ensures FormatSeconds(seconds, None) ==
      if h > 0 then IntToDecimal(h) + [':'] + (IntToDecimal(m) + [':'] + IntToD2(s))
      else IntToDecimal(m) + [':'] + IntToD2(s)
  {
  }

  /** M:SS text splits in two and reads back as minutes and seconds. */
  lemma ParseTwo(mText: string, sText: string, m: int, s: int)
    requires ':' !in mText && ':' !in sText
    requires ParseInt(mText) == Some(m) && ParseInt(sText) == Some(s)
    ensures SplitOn(mText + [':'] + sText, ':') == [mText, sText]
    ensures ParseClock(mText + [':'] + sText) == Some(m * 60 + s)
  {
    SplitTwo(mText, sText);
    ReadTwo(mText, sText, m, s);
  }

  /** H:M:SS text splits in three and reads back as hours, minutes and
      seconds. */
  lemma ParseThree(hText: string, mText: string, sText: string, h: int, m: int, s: int)
    requires ':' !in hText && ':' !in mText && ':' !in sText
    requires ParseInt(hText) == Some(h) && ParseInt(mText) == Some(m) && ParseInt(sText) == Some(s)
    ensures SplitOn(hText + [':'] + (mText + [':'] + sText), ':') == [hText, mText, sText]
    ensures ParseClock(hText + [':'] + (mText + [':'] + sText)) == Some(h * 3600 + m * 60 + s)
  {
    SplitThree(hText, mText, sText);
    ReadThree(hText, mText, sText, h, m, s);
  }

  lemma SplitTwo(a: string, b: string)
    requires ':' !in a && ':' !in b
    ensures SplitOn(a + [':'] + b, ':') == [a, b]
  {
    SplitJoin(a, ':', b);
    assert SplitOn(b, ':') == [b];
  }

  lemma SplitThree(a: string, b: string, d: string)
    requires ':' !in a && ':' !in b && ':' !in d
    ensures SplitOn(a + [':'] + (b + [':'] + d), ':') == [a, b, d]
  {
    SplitJoin(a, ':', b + [':'] + d);
    SplitTwo(b, d);
    assert [a] + [b, d] == [a, b, d];
  }

  lemma ReadTwo(mText: string, sText: string, m: int, s: int)
    requires ParseInt(mText) == Some(m) && ParseInt(sText) == Some(s)
    ensures ParseClockParts([mText, sText]) == Some(m * 60 + s)
  {
  }

  lemma ReadThree(hText: string, mText: string, sText: string, h: int, m: int, s: int)
    requires ParseInt(hText) == Some(h) && ParseInt(mText) == Some(m) && ParseInt(sText) == Some(s)
    ensures ParseClockParts([hText, mText, sText]) == Some(h * 3600 + m * 60 + s)
  {
  }

  /** Whole days are dropped: a time a day later formats the same. */
  lemma FormatDropsDays(seconds: int, monospacedSecondsEm: Option<string>)
    requires 0 <= seconds
    ensures FormatSeconds(seconds + 86400, monospacedSecondsEm) == FormatSeconds(seconds, monospacedSecondsEm)
  {
    var later := seconds + 86400;
    EuclideanUnique(later, 3600, seconds / 3600 + 24, seconds % 3600);
    EuclideanUnique(seconds / 3600 + 24, 24, seconds / 3600 / 24 + 1, seconds / 3600 % 24);
    EuclideanUnique(later, 60, seconds / 60 + 1440, seconds % 60);
    EuclideanUnique(seconds / 60 + 1440, 60, seconds / 60 / 60 + 24, seconds / 60 % 60);
    assert Hours(later) == Hours(seconds) && Minutes(later) == Minutes(seconds) && Seconds(later) == Seconds(seconds);
  }
}
