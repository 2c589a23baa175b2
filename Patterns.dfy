/**
  The two regular expressions of index.js as explicit matchers over text:

    duration pattern:   ^duration: (\d+\.\d+)\s*ms\s+plan:\s*([\s\S]*)$
    query text pattern: ^Query Text:\s*([\s\S]*)$

  Each matcher returns the capture groups the regular expression engine
  returns (backtracking, greedy quantifiers), and is related by lemmas to a
  declarative description of the strings the expression accepts.
 */
module Patterns {
  import opened Wrappers

  /** JavaScript's `\s`: the WhiteSpace and LineTerminator code points. */
  predicate IsSpace(c: char) {
    || c == '\t' || c == '\n' || c == '\U{000B}' || c == '\U{000C}' || c == '\r'
    || c == ' ' || c == '\U{00A0}' || c == '\U{1680}'
    || ('\U{2000}' <= c <= '\U{200A}')
    || c == '\U{2028}' || c == '\U{2029}' || c == '\U{202F}' || c == '\U{205F}'
    || c == '\U{3000}' || c == '\U{FEFF}'
  }

  /** JavaScript's `\d`: ASCII digits only. */
  predicate IsDigit(c: char) {
    '0' <= c <= '9'
  }

  /** The two character classes the patterns quantify over. */
  datatype CharClass = Space | Digit

  predicate In(c: char, p: CharClass) {
    match p
    case Space => IsSpace(c)
    case Digit => IsDigit(c)
  }

  /** Every character of `s` is in the class `p`. */
  predicate All(s: string, p: CharClass) {
    forall i :: 0 <= i < |s| ==> In(s[i], p)
  }

  /** The length of the longest prefix of `s` in the class `p`: what a
      greedy `p*` consumes when nothing after it forces a backtrack. */
  function LeadingRun(s: string, p: CharClass): (n: nat)
    ensures n <= |s|
    ensures All(s[..n], p)
    ensures n == |s| || !In(s[n], p)
  {
    if s == [] || !In(s[0], p) then 0 else 1 + LeadingRun(s[1..], p)
  }

  /** A maximal run is unique: any prefix of `p` characters that is not
      followed by another `p` character is the one LeadingRun finds. */
  lemma {:induction false} RunUnique(s: string, p: CharClass, n: nat)
    requires n <= |s| && All(s[..n], p)
    requires n == |s| || !In(s[n], p)
    ensures LeadingRun(s, p) == n
  {
    if n > 0 {
      assert s[..n][0] == s[0];
      assert s[1..][..n - 1] == s[..n][1..];
      RunUnique(s[1..], p, n - 1);
    }
  }

  /** `w + t` where `w` is all `p` and `t` does not start with a `p`
      character: the run is exactly `w`. */
  lemma RunOfConcat(w: string, t: string, p: CharClass)
    requires All(w, p)
    requires t == [] || !In(t[0], p)
    ensures LeadingRun(w + t, p) == |w|
  {
    assert (w + t)[..|w|] == w;
    RunUnique(w + t, p, |w|);
  }

  /** A run in front of a run: all of `w` is consumed before `t` is looked at. */
  lemma RunOfPrefix(w: string, t: string, p: CharClass)
    requires All(w, p)
    ensures LeadingRun(w + t, p) == |w| + LeadingRun(t, p)
  {
    var n := LeadingRun(t, p);
    var s := w + t;
    assert s[..|w| + n] == w + t[..n];
    assert |w| + n < |s| ==> s[|w| + n] == t[n];
    RunUnique(s, p, |w| + n);
  }

  /** Text with its leading `\s` characters removed: what remains for a
      capture group that follows a greedy `\s*`. */
  function TrimStart(s: string): (r: string)
    ensures |r| <= |s| && r == s[|s| - |r|..]
    ensures All(s[..|s| - |r|], Space)
    ensures r == [] || !IsSpace(r[0])
  {
    s[LeadingRun(s, Space)..]
  }

  /** The text is the trimmed whitespace followed by what remains. */
  lemma TrimStartSplit(s: string) returns (sp: string)
    ensures s == sp + TrimStart(s) && All(sp, Space)
  {
    var r := TrimStart(s);
    sp := s[..|s| - |r|];
    assert s == sp + r;
  }

  /** Leading whitespace in front of more text is all trimmed. */
  lemma TrimStartOfSpaces(sp: string, t: string)
    requires All(sp, Space)
    ensures TrimStart(sp + t) == TrimStart(t)
  {
    RunOfPrefix(sp, t, Space);
    assert (sp + t)[|sp| + LeadingRun(t, Space)..] == t[LeadingRun(t, Space)..];
  }

  /** Text that does not start with whitespace is left as it is. */
  lemma TrimStartNoSpace(t: string)
    requires t == [] || !IsSpace(t[0])
    ensures TrimStart(t) == t
  {
    RunOfConcat([], t, Space);
    assert [] + t == t;
  }

  // ----- the stages a match goes through -----

  /** Consuming a literal token: the text after it, if the text starts
      with it. */
  function Literal(s: string, lit: string): (r: Option<string>)
    ensures r.Some? <==> lit <= s
    ensures r.Some? ==> s == lit + r.value
  {
    if lit <= s then Some(s[|lit|..]) else None
  }

  lemma LiteralOf(lit: string, t: string)
    ensures Literal(lit + t, lit) == Some(t)
  {
    assert (lit + t)[|lit|..] == t;
  }

  /** `\d+`: the maximal non-empty digit run at the front and the text
      after it (the run is maximal because what follows is never a digit
      that could belong to it). */
  function Digits(s: string): (r: Option<(string, string)>)
    ensures r.Some? ==> s == r.value.0 + r.value.1
    ensures r.Some? ==> |r.value.0| > 0 && All(r.value.0, Digit)
    ensures r.Some? ==> r.value.1 == [] || !IsDigit(r.value.1[0])
    ensures r.None? <==> s == [] || !IsDigit(s[0])
  {
    var i := LeadingRun(s, Digit);
    if i == 0 then None else Some((s[..i], s[i..]))
  }

  lemma DigitsOf(w: string, t: string)
    requires |w| > 0 && All(w, Digit)
    requires t == [] || !IsDigit(t[0])
    ensures Digits(w + t) == Some((w, t))
  {
    RunOfConcat(w, t, Digit);
    assert (w + t)[..|w|] == w && (w + t)[|w|..] == t;
  }

  /** `\s+`: the maximal whitespace run at the front, if it is non-empty,
      and the text after it. */
  function Spaces(s: string): (r: Option<(string, string)>)
    ensures r.Some? ==> s == r.value.0 + r.value.1
    ensures r.Some? ==> |r.value.0| > 0 && All(r.value.0, Space)
    ensures r.Some? ==> r.value.1 == [] || !IsSpace(r.value.1[0])
    ensures r.None? <==> s == [] || !IsSpace(s[0])
  {
    var i := LeadingRun(s, Space);
    if i == 0 then None else Some((s[..i], s[i..]))
  }

  lemma SpacesOf(w: string, t: string)
    requires |w| > 0 && All(w, Space)
    requires t == [] || !IsSpace(t[0])
    ensures Spaces(w + t) == Some((w, t))
  {
    RunOfConcat(w, t, Space);
    assert (w + t)[..|w|] == w && (w + t)[|w|..] == t;
  }

  // ----- the duration pattern -----

  const DurationLabel := "duration: "

  /** The two capture groups of the duration pattern; the first, `\d+\.\d+`,
      is kept as its digits before and after the decimal point. */
  datatype DurationMatch = DurationMatch(whole: string, frac: string, rest: string)

  /** The strings the duration pattern accepts, with every part named:
      `duration: ` whole `.` frac s1 `ms` s2 `plan:` s3 rest, where whole and
      frac are non-empty digit strings, s1 and s3 are whitespace, s2 is
      non-empty whitespace and rest is anything. */
  ghost predicate DurationShape(m: string, whole: string, frac: string,
                                s1: string, s2: string, s3: string, rest: string)
  {
    && m == DurationLabel + (whole + ("." + (frac + (s1 + ("ms" + (s2 + ("plan:" + (s3 + rest))))))))
    && |whole| > 0 && All(whole, Digit)
    && |frac| > 0 && All(frac, Digit)
    && All(s1, Space)
    && |s2| > 0 && All(s2, Space)
    && All(s3, Space)
  }

  /** The `\d+\.\d+` part: the digits before and after the point, and the
      text after the number. */
  function MatchNumber(a: string): (r: Option<(string, string, string)>)
    ensures r.Some? ==> a == r.value.0 + ("." + (r.value.1 + r.value.2))
    ensures r.Some? ==> |r.value.0| > 0 && All(r.value.0, Digit) && |r.value.1| > 0 && All(r.value.1, Digit)
    ensures r.Some? ==> r.value.2 == [] || !IsDigit(r.value.2[0])
  {
    match Digits(a)
    case None => None
    case Some((whole, a1)) =>
      match Literal(a1, ".")
      case None => None
      case Some(b) =>
        match Digits(b)
        case None => None
        case Some((frac, t)) => Some((whole, frac, t))
  }

  /** The `\s*ms\s+plan:\s*` part: the second capture group, the text after
      it. */
  function MatchUnit(t: string): (r: Option<string>)
    ensures r.Some? ==> |r.value| + 7 < |t| && r.value == t[|t| - |r.value|..]
    ensures r.Some? ==> r.value == [] || !IsSpace(r.value[0])
  {
    match Literal(TrimStart(t), "ms")
    case None => None
    case Some(e) =>
      match Spaces(e)
      case None => None
      case Some((_, e1)) =>
        match Literal(e1, "plan:")
        case None => None
        case Some(g) => Some(TrimStart(g))
  }

  /** `message.match(_durationPattern)`: None when the message does not
      match, otherwise the two captured groups. The greedy quantifiers never
      need to backtrack: each run is followed by a character outside its
      class or by the end of the text. */
  function MatchDuration(m: string): (r: Option<DurationMatch>)
    ensures r.Some? ==> |r.value.whole| > 0 && All(r.value.whole, Digit)
    ensures r.Some? ==> |r.value.frac| > 0 && All(r.value.frac, Digit)
    ensures r.Some? ==> r.value.rest == [] || !IsSpace(r.value.rest[0])
  {
    match Literal(m, DurationLabel)
    case None => None
    case Some(a) =>
      match MatchNumber(a)
      case None => None
      case Some((whole, frac, t)) =>
        match MatchUnit(t)
        case None => None
        case Some(rest) => Some(DurationMatch(whole, frac, rest))
  }

  lemma MatchUnitSound(t: string) returns (s1: string, s2: string, s3: string)
    requires MatchUnit(t).Some?
    ensures t == s1 + ("ms" + (s2 + ("plan:" + (s3 + MatchUnit(t).value))))
    ensures All(s1, Space) && |s2| > 0 && All(s2, Space) && All(s3, Space)
  {
    var c := TrimStart(t);
    s1 := TrimStartSplit(t);
    var e := Literal(c, "ms").value;
    var e1;
    s2, e1 := Spaces(e).value.0, Spaces(e).value.1;
    var g := Literal(e1, "plan:").value;
    s3 := TrimStartSplit(g);
    assert c == "ms" + (s2 + ("plan:" + (s3 + TrimStart(g))));
  }

  /** Every match the matcher reports is a string of the accepted shape,
      with the captured groups as its digit strings and remainder. */
  lemma MatchDurationSound(m: string)
    requires MatchDuration(m).Some?
    ensures var d := MatchDuration(m).value;
            exists s1, s2, s3 :: DurationShape(m, d.whole, d.frac, s1, s2, s3, d.rest)
  {
    var d := MatchDuration(m).value;
    var a := Literal(m, DurationLabel).value;
    var (whole, frac, t) := MatchNumber(a).value;
    var s1, s2, s3 := MatchUnitSound(t);
    assert DurationShape(m, d.whole, d.frac, s1, s2, s3, d.rest);
  }

  lemma MatchNumberComplete(whole: string, frac: string, t: string)
    requires |whole| > 0 && All(whole, Digit)
    requires |frac| > 0 && All(frac, Digit)
    requires t == [] || !IsDigit(t[0])
    ensures MatchNumber(whole + ("." + (frac + t))) == Some((whole, frac, t))
  {
    DigitsOf(whole, "." + (frac + t));
    LiteralOf(".", frac + t);
    DigitsOf(frac, t);
  }

  lemma MatchUnitComplete(s1: string, s2: string, s3: string, rest: string)
    requires All(s1, Space) && |s2| > 0 && All(s2, Space) && All(s3, Space)
    ensures MatchUnit(s1 + ("ms" + (s2 + ("plan:" + (s3 + rest))))) == Some(TrimStart(s3 + rest))
  {
    var g := s3 + rest;
    var e1 := "plan:" + g;
    var e := s2 + e1;
    var c := "ms" + e;
    TrimStartOfSpaces(s1, c);
    TrimStartNoSpace(c);
    LiteralOf("ms", e);
    SpacesOf(s2, e1);
    LiteralOf("plan:", g);
  }

  /** Every string of the accepted shape matches, and the captures are the
      digit strings and the remainder with all its leading whitespace
      removed (the greedy `\s*` before the second group takes all of it). */
  lemma MatchDurationComplete(m: string, whole: string, frac: string,
                              s1: string, s2: string, s3: string, rest: string)
    requires DurationShape(m, whole, frac, s1, s2, s3, rest)
    ensures MatchDuration(m) == Some(DurationMatch(whole, frac, TrimStart(s3 + rest)))
  {
    var t := s1 + ("ms" + (s2 + ("plan:" + (s3 + rest))));
    var a := whole + ("." + (frac + t));
    LiteralOf(DurationLabel, a);
    assert t == [] || !IsDigit(t[0]) by {
      if s1 != [] { assert t[0] == s1[0]; } else { assert t[0] == 'm'; }
    }
    MatchNumberComplete(whole, frac, t);
    MatchUnitComplete(s1, s2, s3, rest);
  }

  /** A duration written without a decimal point (`duration: 12 ms ...`)
      never matches: the digits after the label must be followed by `.`. */
  lemma IntegerDurationNeverMatches(whole: string, t: string)
    requires |whole| > 0 && All(whole, Digit)
    requires t == [] || (t[0] != '.' && !IsDigit(t[0]))
    ensures MatchDuration(DurationLabel + (whole + t)).None?
  {
    LiteralOf(DurationLabel, whole + t);
    DigitsOf(whole, t);
    assert Literal(t, ".").None?;
  }

  // ----- the query text pattern -----

  const QueryTextLabel := "Query Text:"

  /** The strings the query text pattern accepts: `Query Text:`, then
      whitespace `sp`, then anything. */
  ghost predicate QueryTextShape(s: string, sp: string, rest: string) {
    s == QueryTextLabel + sp + rest && All(sp, Space)
  }

  /** `text.match(_textPattern)`: the captured query, if the text starts
      with the label. */
  function MatchQueryText(s: string): (r: Option<string>)
    ensures r.Some? ==> r.value == [] || !IsSpace(r.value[0])
    ensures r.Some? <==> QueryTextLabel <= s
  {
    if QueryTextLabel <= s then Some(TrimStart(s[|QueryTextLabel|..])) else None
  }

  /** Every reported match is of the accepted shape with the capture as its
      tail. */
  lemma MatchQueryTextSound(s: string)
    requires MatchQueryText(s).Some?
    ensures exists sp :: QueryTextShape(s, sp, MatchQueryText(s).value)
  {
    var t := s[|QueryTextLabel|..];
    var q := TrimStart(t);
    var sp := t[..|t| - |q|];
    assert t == sp + q;
    assert s == QueryTextLabel + t;
    assert QueryTextShape(s, sp, q);
  }

  /** Every string of the accepted shape matches, capturing the text after
      the label with its leading whitespace stripped. */
  lemma MatchQueryTextComplete(s: string, sp: string, rest: string)
    requires QueryTextShape(s, sp, rest)
    ensures MatchQueryText(s) == Some(TrimStart(sp + rest))
  {
    assert s == QueryTextLabel + (sp + rest);
    assert s[|QueryTextLabel|..] == sp + rest;
  }

  // ----- the value of the captured duration -----

  function DigitValue(c: char): (d: nat)
    requires IsDigit(c)
    ensures d < 10
  {
    c as int - '0' as int
  }

  /** The natural number a non-empty-or-empty digit string denotes. */
  function DigitsValue(s: string): (n: nat)
    requires All(s, Digit)
    ensures n < Pow10(|s|)
  {
    if s == [] then 0
    else 10 * DigitsValue(s[..|s| - 1]) + DigitValue(s[|s| - 1])
  }

  function Pow10(k: nat): (p: nat)
    ensures p >= 1
  {
    if k == 0 then 1 else 10 * Pow10(k - 1)
  }

  /** Appending digits shifts the value left by their count:
      the positional notation read left to right. */
  lemma {:induction false} DigitsValueConcat(w: string, f: string)
    requires All(w, Digit) && All(f, Digit)
    ensures All(w + f, Digit)
    ensures DigitsValue(w + f) == DigitsValue(w) * Pow10(|f|) + DigitsValue(f)
  {
    if f == [] {
      assert w + f == w;
    } else {
      var f' := f[..|f| - 1];
      var last := f[|f| - 1];
      assert All(f', Digit);
      DigitsValueConcat(w, f');
      assert (w + f)[..|w + f| - 1] == w + f';
      assert w + f == (w + f') + [last];
      ShiftLeft(DigitsValue(w), Pow10(|f'|), DigitsValue(f'), DigitValue(last));
    }
  }

  lemma ShiftLeft(w: nat, p: nat, x: nat, d: nat)
    ensures 10 * (w * p + x) + d == w * (10 * p) + (10 * x + d)
  {
    assert w * (10 * p) == 10 * (w * p);
  }

  /** The exact value of the decimal text `whole.frac` captured by the
      duration pattern. */
  function DecimalValue(whole: string, frac: string): (r: real)
    requires All(whole, Digit) && All(frac, Digit)
    ensures DigitsValue(whole) as real <= r < DigitsValue(whole) as real + 1.0
  {
    FractionBelowOne(DigitsValue(frac), Pow10(|frac|));
    DigitsValue(whole) as real + DigitsValue(frac) as real / Pow10(|frac|) as real
  }

  /** Scaled up by ten for every digit after the point, the decimal is the
      number its digits denote once the point is dropped. */
  lemma DecimalValueScaled(whole: string, frac: string)
    requires All(whole, Digit) && All(frac, Digit)
    ensures All(whole + frac, Digit)
    ensures DecimalValue(whole, frac) == DigitsValue(whole + frac) as real / Pow10(|frac|) as real
  {
    DigitsValueConcat(whole, frac);
    ScaledFraction(DigitsValue(whole), DigitsValue(frac), Pow10(|frac|),
                   DigitsValue(whole + frac), DecimalValue(whole, frac));
  }

  lemma ScaledFraction(w: nat, x: nat, p: nat, n: nat, r: real)
    requires p >= 1 && n == w * p + x && r == w as real + x as real / p as real
    ensures r == n as real / p as real
  {
    assert x as real / p as real * p as real == x as real;
    assert r * p as real == n as real;
  }

  lemma FractionBelowOne(x: nat, p: nat)
    requires x < p
    ensures 0.0 <= x as real / p as real < 1.0
  {
    var q := x as real / p as real;
    assert q * p as real == x as real;
  }
}
