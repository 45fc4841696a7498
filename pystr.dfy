/** Python string semantics used by the relay and its tools: whitespace and
    line-break classes, strip, find/rfind, replace-by-empty, splitlines,
    readlines, join, slicing with Python's negative bounds, int()/str() for
    decimal integers. */
module PyStr {

  datatype Option<T> = None | Some(value: T)

  function Min(a: int, b: int): int { if a < b then a else b }
  function Max(a: int, b: int): int { if a < b then b else a }

  /** `c.isspace()` in Python 3 (the characters `str.strip()` removes). */
  predicate IsSpace(c: char) {
    c == ' ' || ('\t' <= c <= '\r') || ('\U{1c}' <= c <= '\U{1f}') || c == '\U{85}'
    || c == '\U{a0}' || c == '\U{1680}' || ('\U{2000}' <= c <= '\U{200a}')
    || c == '\U{2028}' || c == '\U{2029}' || c == '\U{202f}' || c == '\U{205f}'
    || c == '\U{3000}'
  }

  /** The line boundaries of `str.splitlines()`. */
  predicate IsLineBreak(c: char) {
    c == '\n' || c == '\r' || c == '\U{0b}' || c == '\U{0c}' || c == '\U{1c}'
    || c == '\U{1d}' || c == '\U{1e}' || c == '\U{85}' || c == '\U{2028}' || c == '\U{2029}'
  }

  // ---------------------------------------------------------------- strip

  /** `s.lstrip()`: the longest suffix of `s` that does not start with whitespace. */
  function LStrip(s: string): (r: string)
    ensures |r| <= |s| && r == s[|s| - |r|..]
    ensures r == [] || !IsSpace(r[0])
  {
    if s != [] && IsSpace(s[0]) then LStrip(s[1..]) else s
  }

  /** What `lstrip()` drops is whitespace. */
  lemma {:induction false} LStripDrops(s: string)
    ensures forall k :: 0 <= k < |s| - |LStrip(s)| ==> IsSpace(s[k])
  {
    if s != [] && IsSpace(s[0]) {
      LStripDrops(s[1..]);
      forall k | 1 <= k < |s| - |LStrip(s)| ensures IsSpace(s[k]) {
        assert s[k] == s[1..][k - 1];
      }
    }
  }

  /** `s.rstrip()`: the longest prefix of `s` that does not end with whitespace. */
  function RStrip(s: string): (r: string)
    ensures |r| <= |s| && r == s[..|r|]
    ensures r == [] || !IsSpace(r[|r| - 1])
  {
    if s != [] && IsSpace(s[|s| - 1]) then RStrip(s[..|s| - 1]) else s
  }

  /** What `rstrip()` drops is whitespace. */
  lemma {:induction false} RStripDrops(s: string)
    ensures forall k :: |RStrip(s)| <= k < |s| ==> IsSpace(s[k])
  {
    if s != [] && IsSpace(s[|s| - 1]) {
      RStripDrops(s[..|s| - 1]);
      forall k | |RStrip(s)| <= k < |s| - 1 ensures IsSpace(s[k]) {
        assert s[k] == s[..|s| - 1][k];
      }
    }
  }

  /** `r` is `s[i..]` cut short, with only whitespace around it in `s`. */
  predicate StrippedAt(s: string, r: string, i: nat) {
    && i + |r| <= |s| && r == s[i..i + |r|]
    && (forall k :: 0 <= k < i ==> IsSpace(s[k]))
    && (forall k :: i + |r| <= k < |s| ==> IsSpace(s[k]))
  }

  /** `s.strip()`: `s` without its leading and trailing whitespace. */
  function Strip(s: string): (r: string)
    ensures |r| <= |s|
    ensures r == [] || (!IsSpace(r[0]) && !IsSpace(r[|r| - 1]))
  {
    var l := LStrip(s);
    var r := RStrip(l);
    assert r != [] ==> r[0] == l[0];
    r
  }

  /** `strip()` keeps a contiguous part of `s` and drops only whitespace
      around it. */
  lemma StripSpec(s: string)
    ensures exists i :: StrippedAt(s, Strip(s), i)
  {
    var l := LStrip(s);
    var r := RStrip(l);
    LStripDrops(s);
    RStripDrops(l);
    StripWitness(s, l, r);
    assert Strip(s) == r;
    assert StrippedAt(s, Strip(s), |s| - |l|);
  }

  lemma StripWitness(s: string, l: string, r: string)
    requires |l| <= |s| && l == s[|s| - |l|..]
    requires forall k :: 0 <= k < |s| - |l| ==> IsSpace(s[k])
    requires |r| <= |l| && r == l[..|r|]
    requires forall k :: |r| <= k < |l| ==> IsSpace(l[k])
    ensures StrippedAt(s, r, |s| - |l|)
  {
    var i := |s| - |l|;
    assert l == s[i..];
    assert r == l[..|r|];
    assert r == s[i..i + |r|];
    forall k | i + |r| <= k < |s| ensures IsSpace(s[k]) {
      assert s[k] == l[k - i];
      assert |r| <= k - i < |l|;
    }
  }

  // ---------------------------------------------------------------- search

  /** `t` occurs in `s` at index `i`. */
  predicate OccursAt(s: string, t: string, i: nat) {
    i + |t| <= |s| && s[i..i + |t|] == t
  }

  /** `s.find(t, from)`: the first index at or after `from` where `t` occurs. */
  function FindFrom(s: string, t: string, from: nat): (r: Option<nat>)
    decreases |s| - from
    ensures r.Some? ==> from <= r.value && OccursAt(s, t, r.value)
    ensures r.Some? ==> forall j :: from <= j < r.value ==> !OccursAt(s, t, j)
    ensures r.None? ==> forall j :: from <= j ==> !OccursAt(s, t, j)
  {
    if from + |t| > |s| then None
    else if OccursAt(s, t, from) then Some(from)
    else FindFrom(s, t, from + 1)
  }

  /** Python's `t in s` for strings. */
  predicate Contains(s: string, t: string) {
    FindFrom(s, t, 0).Some?
  }

  lemma ContainsAt(s: string, t: string, i: nat)
    requires OccursAt(s, t, i)
    ensures Contains(s, t)
  {
  }

  /** `s.startswith(t)`. */
  predicate StartsWith(s: string, t: string) {
    |t| <= |s| && s[..|t|] == t
  }

  /** `i` is the index of the first `c` in `s`. */
  predicate IsFirst(s: string, c: char, i: nat) {
    i < |s| && s[i] == c && forall j :: 0 <= j < i ==> s[j] != c
  }

  /** `i` is the index of the last `c` in `s`. */
  predicate IsLast(s: string, c: char, i: nat) {
    i < |s| && s[i] == c && forall j :: i < j < |s| ==> s[j] != c
  }

  /** `s.find(c)` for one character; `None` stands for Python's -1. */
  function FindChar(s: string, c: char): (r: Option<nat>)
    ensures r.Some? ==> IsFirst(s, c, r.value)
    ensures r.None? ==> forall j :: 0 <= j < |s| ==> s[j] != c
  {
    if s == [] then None
    else if s[0] == c then Some(0)
    else
      var r := FindChar(s[1..], c);
      assert forall j :: 1 <= j < |s| ==> s[j] == s[1..][j - 1];
      if r.Some? then Some(r.value + 1) else None
  }

  /** `s.rfind(c)` for one character; `None` stands for Python's -1. */
  function RFindChar(s: string, c: char): (r: Option<nat>)
    ensures r.Some? ==> IsLast(s, c, r.value)
    ensures r.None? ==> forall j :: 0 <= j < |s| ==> s[j] != c
  {
    if s == [] then None
    else if s[|s| - 1] == c then Some(|s| - 1)
    else
      var r := RFindChar(s[..|s| - 1], c);
      assert forall j :: 0 <= j < |s| - 1 ==> s[j] == s[..|s| - 1][j];
      r
  }

  /** The bounds of the text from the first `{` of `s` to its last `}`, when
      that `}` comes after the `{`: what the greedy, dot-all pattern `\{.*\}`
      spans, and the slice `text[start:end+1]` of a JSON repair. */
  function BraceSpan(s: string): (r: Option<(nat, nat)>)
    ensures r.Some? ==> r.value.0 < r.value.1 && IsFirst(s, '{', r.value.0) && IsLast(s, '}', r.value.1)
    ensures r.None? ==> forall i, j :: 0 <= i < j < |s| ==> !(s[i] == '{' && s[j] == '}')
  {
    match (FindChar(s, '{'), RFindChar(s, '}'))
    case (Some(a), Some(b)) => if b > a then Some((a, b)) else None
    case _ => None
  }

  // ---------------------------------------------------------------- replace

  /** `s.replace(t, "")`: every non-overlapping occurrence of `t`, scanned
      left to right, removed (Python returns `s` itself when `t` is empty). */
  function RemoveAll(s: string, t: string): (r: string)
    decreases |s|
    ensures |r| <= |s|
    ensures (forall i :: !OccursAt(s, t, i)) ==> r == s
  {
    if t == [] || |s| < |t| then s
    else if s[..|t|] == t then
      assert OccursAt(s, t, 0);
      RemoveAll(s[|t|..], t)
    else
      assert !OccursAt(s, t, 0);
      assert forall i: nat :: OccursAt(s[1..], t, i) ==> OccursAt(s, t, i + 1) by {
        forall i: nat | OccursAt(s[1..], t, i) ensures OccursAt(s, t, i + 1) {
          assert s[1..][i..i + |t|] == s[i + 1..i + 1 + |t|];
        }
      }
      [s[0]] + RemoveAll(s[1..], t)
  }

  /** `s.replace(a, b)` for single characters. */
  function ReplaceChar(s: string, a: char, b: char): (r: string)
    ensures |r| == |s|
    ensures forall i :: 0 <= i < |s| ==> r[i] == (if s[i] == a then b else s[i])
  {
    if s == [] then [] else [if s[0] == a then b else s[0]] + ReplaceChar(s[1..], a, b)
  }

  /** The number of occurrences of `c` in `s` (`s.count(c)`). */
  function CountChar(s: string, c: char): nat {
    if s == [] then 0 else (if s[0] == c then 1 else 0) + CountChar(s[1..], c)
  }

  lemma {:induction false} CountCharAppend(a: string, b: string, c: char)
    ensures CountChar(a + b, c) == CountChar(a, c) + CountChar(b, c)
  {
    if a == [] {
      assert a + b == b;
    } else {
      assert (a + b)[0] == a[0];
      assert (a + b)[1..] == a[1..] + b;
      CountCharAppend(a[1..], b, c);
    }
  }

  /** Removing a text that does not hold `c` leaves every `c` in place. */
  lemma {:induction false} RemoveAllKeepsCount(s: string, t: string, c: char)
    requires forall i :: 0 <= i < |t| ==> t[i] != c
    ensures CountChar(RemoveAll(s, t), c) == CountChar(s, c)
    decreases |s|
  {
    if t == [] || |s| < |t| {
    } else if s[..|t|] == t {
      assert s == t + s[|t|..];
      CountCharAppend(t, s[|t|..], c);
      NoCount(t, c);
      RemoveAllKeepsCount(s[|t|..], t, c);
    } else {
      RemoveAllKeepsCount(s[1..], t, c);
      var rest := RemoveAll(s[1..], t);
      assert ([s[0]] + rest)[1..] == rest;
    }
  }

  lemma {:induction false} NoCount(s: string, c: char)
    requires forall i :: 0 <= i < |s| ==> s[i] != c
    ensures CountChar(s, c) == 0
  {
    if s != [] {
      NoCount(s[1..], c);
    }
  }

  // ---------------------------------------------------------------- slicing

  /** `s[:n]` with Python's bounds: a negative `n` counts from the end. */
  function Take<T>(s: seq<T>, n: int): (r: seq<T>)
    ensures |r| <= |s| && r == s[..|r|]
    ensures n >= 0 ==> |r| == Min(n, |s|)
    ensures n < 0 ==> |r| == Max(0, |s| + n)
  {
    if n >= 0 then s[..Min(n, |s|)] else s[..Max(0, |s| + n)]
  }

  /** `s[-n:]`: the last `n` elements (all of them when there are fewer). */
  function LastN<T>(s: seq<T>, n: nat): (r: seq<T>)
    ensures |r| == Min(n, |s|)
    ensures r == s[|s| - |r|..]
  {
    if |s| <= n then s else s[|s| - n..]
  }

  // ---------------------------------------------------------------- lines

  /** `sep.join(xs)`. */
  function Join(sep: string, xs: seq<string>): string {
    if xs == [] then "" else if |xs| == 1 then xs[0] else xs[0] + sep + Join(sep, xs[1..])
  }

  /** `"".join(xs)`. */
  function Concat(xs: seq<string>): string {
    if xs == [] then "" else xs[0] + Concat(xs[1..])
  }

  lemma {:induction false} ConcatAppend(xs: seq<string>, ys: seq<string>)
    ensures Concat(xs + ys) == Concat(xs) + Concat(ys)
  {
    if xs == [] {
      assert xs + ys == ys;
    } else {
      assert (xs + ys)[0] == xs[0];
      assert (xs + ys)[1..] == xs[1..] + ys;
      ConcatAppend(xs[1..], ys);
    }
  }

  /** The index of the first line boundary in `s`. */
  function FirstBreak(s: string): (r: Option<nat>)
    ensures r.Some? ==> r.value < |s| && IsLineBreak(s[r.value])
    ensures r.Some? ==> forall j :: 0 <= j < r.value ==> !IsLineBreak(s[j])
    ensures r.None? ==> forall j :: 0 <= j < |s| ==> !IsLineBreak(s[j])
  {
    if s == [] then None
    else if IsLineBreak(s[0]) then Some(0)
    else
      var r := FirstBreak(s[1..]);
      assert forall j :: 1 <= j < |s| ==> s[j] == s[1..][j - 1];
      if r.Some? then Some(r.value + 1) else None
  }

  /** `s.splitlines()`: the lines of `s` without their boundaries; `\r\n`
      is one boundary and a final boundary does not open an empty line. */
  function SplitLines(s: string): (r: seq<string>)
    decreases |s|
    ensures forall i, k :: 0 <= i < |r| && 0 <= k < |r[i]| ==> !IsLineBreak(r[i][k])
    ensures s == [] <==> r == []
  {
    match FirstBreak(s)
    case None => if s == [] then [] else [s]
    case Some(i) =>
      var next := if s[i] == '\r' && i + 1 < |s| && s[i + 1] == '\n' then i + 2 else i + 1;
      [s[..i]] + SplitLines(s[next..])
  }

  /** `f.readlines()` on a file opened in text mode: the text cut after every
      `\n`, each piece keeping its `\n`. */
  function ReadLines(s: string): (r: seq<string>)
    decreases |s|
    ensures Concat(r) == s
    ensures forall i :: 0 <= i < |r| ==> r[i] != []
    ensures forall i :: 0 <= i < |r| - 1 ==> r[i][|r[i]| - 1] == '\n'
    ensures forall i, k :: 0 <= i < |r| && 0 <= k < |r[i]| - 1 ==> r[i][k] != '\n'
  {
    match FindChar(s, '\n')
    case None => if s == [] then [] else [s]
    case Some(i) =>
      var rest := ReadLines(s[i + 1..]);
      ReadLinesCons(s, i, rest);
      [s[..i + 1]] + rest
  }

  /** The first line of `s`, up to its first `\n`, followed by the lines of
      the rest. */
  lemma ReadLinesCons(s: string, i: nat, rest: seq<string>)
    requires IsFirst(s, '\n', i)
    requires Concat(rest) == s[i + 1..]
    requires forall j :: 0 <= j < |rest| ==> rest[j] != []
    requires forall j :: 0 <= j < |rest| - 1 ==> rest[j][|rest[j]| - 1] == '\n'
    requires forall j, k :: 0 <= j < |rest| && 0 <= k < |rest[j]| - 1 ==> rest[j][k] != '\n'
    ensures var r := [s[..i + 1]] + rest;
      && Concat(r) == s
      && (forall j :: 0 <= j < |r| ==> r[j] != [])
      && (forall j :: 0 <= j < |r| - 1 ==> r[j][|r[j]| - 1] == '\n')
      && (forall j, k :: 0 <= j < |r| && 0 <= k < |r[j]| - 1 ==> r[j][k] != '\n')
  {
    var head := s[..i + 1];
    var r := [head] + rest;
    assert s == head + s[i + 1..];
    assert Concat(r) == head + Concat(rest) by { assert r[1..] == rest; }
    assert forall j :: 1 <= j < |r| ==> r[j] == rest[j - 1];
  }

  /** The text after its line breaks were cut: `\n` when it ends with one. */
  function FinalBreak(s: string): string {
    if s != [] && s[|s| - 1] == '\n' then "\n" else ""
  }

  /** On text whose only line boundaries are `\n`, the lines joined by `\n`,
      with the final break put back, are the text again. */
  lemma {:induction false} SplitLinesRebuild(s: string)
    requires forall k :: 0 <= k < |s| && IsLineBreak(s[k]) ==> s[k] == '\n'
    ensures Join("\n", SplitLines(s)) + FinalBreak(s) == s
    decreases |s|
  {
    match FirstBreak(s)
    case None =>
      RebuildUnbroken(s);
    case Some(i) =>
      var rest := s[i + 1..];
      assert forall k :: 0 <= k < |rest| && IsLineBreak(rest[k]) ==> rest[k] == '\n' by {
        forall k | 0 <= k < |rest| ensures rest[k] == s[i + 1 + k] { }
      }
      SplitAtNewline(s, i);
      if rest != [] {
        SplitLinesRebuild(rest);
      }
      RebuildJoined(s, i, SplitLines(rest));
  }

  /** Text without a boundary is one line. */
  lemma RebuildUnbroken(s: string)
    requires FirstBreak(s).None?
    ensures Join("\n", SplitLines(s)) + FinalBreak(s) == s
  {
    if s != [] {
      assert SplitLines(s) == [s];
      assert !IsLineBreak(s[|s| - 1]);
    }
  }

  /** A first boundary that is `\n` ends the first line. */
  lemma SplitAtNewline(s: string, i: nat)
    requires FirstBreak(s) == Some(i) && s[i] == '\n'
    ensures SplitLines(s) == [s[..i]] + SplitLines(s[i + 1..])
  {
  }

  lemma RebuildJoined(s: string, i: nat, lines: seq<string>)
    requires i < |s| && s[i] == '\n'
    requires lines == [] <==> s[i + 1..] == []
    requires lines != [] ==> Join("\n", lines) + FinalBreak(s[i + 1..]) == s[i + 1..]
    ensures Join("\n", [s[..i]] + lines) + FinalBreak(s) == s
  {
    var rest := s[i + 1..];
    if rest == [] {
      assert s == s[..i] + "\n";
    } else {
      JoinCons(s[..i], lines);
      assert FinalBreak(s) == FinalBreak(rest);
      assert s == s[..i] + "\n" + rest;
    }
  }

  lemma JoinCons(head: string, lines: seq<string>)
    requires lines != []
    ensures Join("\n", [head] + lines) == head + "\n" + Join("\n", lines)
  {
    assert ([head] + lines)[1..] == lines;
  }

  // ---------------------------------------------------------------- integers

  function DigitChar(d: nat): char
    requires d < 10
  {
    "0123456789"[d]
  }

  predicate IsDigit(c: char) { '0' <= c <= '9' }

  predicate AllDigits(s: string) {
    forall i :: 0 <= i < |s| ==> IsDigit(s[i])
  }

  /** The decimal digits of `n`, without leading zeros. */
  function Digits(n: nat): (r: string)
    ensures |r| >= 1 && AllDigits(r)
  {
    if n < 10 then [DigitChar(n)] else Digits(n / 10) + [DigitChar(n % 10)]
  }

  /** `str(n)` for an integer. */
  function IntToStr(n: int): string {
    if n < 0 then "-" + Digits(-n) else Digits(n)
  }

  /** The value of a non-empty run of decimal digits. */
  function DigitsValue(s: string): nat
    requires AllDigits(s)
  {
    if s == [] then 0
    else
      assert IsDigit(s[|s| - 1]);
      DigitsValue(s[..|s| - 1]) * 10 + (s[|s| - 1] as int - '0' as int)
  }

  /** The part of the stripped text after an optional sign. */
  function SignCount(t: string): (r: nat)
    ensures r <= |t|
  {
    if t != [] && (t[0] == '-' || t[0] == '+') then 1 else 0
  }

  /** `int(s)` for a string: surrounding whitespace, an optional sign and at
      least one ASCII digit; anything else is Python's ValueError (`None`). */
  function ParseInt(s: string): (r: Option<int>)
    ensures r.Some? ==> exists i :: 0 <= i < |Strip(s)| && IsDigit(Strip(s)[i])
  {
    ParseSigned(Strip(s))
  }

  /** The stripped text `t` read as an optionally signed run of digits. */
  function ParseSigned(t: string): (r: Option<int>)
    ensures r.Some? ==> exists i :: 0 <= i < |t| && IsDigit(t[i])
  {
    var sign := SignCount(t);
    var body := t[sign..];
    if body != [] && AllDigits(body) then
      assert body[0] == t[sign] && IsDigit(body[0]);
      var v: int := DigitsValue(body);
      Some(if sign == 1 && t[0] == '-' then -v else v)
    else None
  }

  lemma {:induction false} DigitsRoundTrip(n: nat, d: string)
    requires d == Digits(n)
    ensures DigitsValue(d) == n
  {
    if n >= 10 {
      assert d[..|d| - 1] == Digits(n / 10);
      DigitsRoundTrip(n / 10, d[..|d| - 1]);
    }
  }

  /** Reading back what `str()` printed gives the integer: `int(str(n)) == n`. */
  lemma IntRoundTrip(n: int)
    ensures ParseInt(IntToStr(n)) == Some(n)
  {
    if n < 0 {
      ParseNegative(n);
    } else {
      ParseNatural(n);
    }
  }

  lemma ParseNatural(n: nat)
    ensures ParseInt(IntToStr(n)) == Some(n)
  {
    var s := IntToStr(n);
    NaturalText(n, s);
    ParseDigitRun(s, n);
  }

  lemma NaturalText(n: nat, s: string)
    requires s == IntToStr(n)
    ensures s != [] && AllDigits(s) && DigitsValue(s) == n
  {
    assert s == Digits(n);
    DigitsRoundTrip(n, s);
  }

  lemma ParseNegative(n: int)
    requires n < 0
    ensures ParseInt(IntToStr(n)) == Some(n)
  {
    var s := IntToStr(n);
    var d := Digits(-n);
    NegativeText(n, s, d);
    ParseSignedRun(s, d, -n);
  }

  lemma NegativeText(n: int, s: string, d: string)
    requires n < 0 && s == IntToStr(n) && d == Digits(-n)
    ensures s == "-" + d && d != [] && AllDigits(d) && DigitsValue(d) == -n
  {
    DigitsRoundTrip(-n, d);
  }

  /** `int()` of a bare run of digits is its value. */
  lemma ParseDigitRun(d: string, m: nat)
    requires d != [] && AllDigits(d) && DigitsValue(d) == m
    ensures ParseInt(d) == Some(m)
  {
    assert IsDigit(d[0]) && IsDigit(d[|d| - 1]);
    DigitNotSpace(d[0]);
    DigitNotSpace(d[|d| - 1]);
    StripUnpadded(d);
    assert d[0..] == d;
    ParseClean(d, 0);
  }

  /** `int()` of a minus sign and a run of digits is the negated value. */
  lemma ParseSignedRun(s: string, d: string, m: nat)
    requires s == "-" + d && d != [] && AllDigits(d) && DigitsValue(d) == m
    ensures ParseInt(s) == Some(-(m as int))
  {
    SignedText(s, d);
    var c := d[|d| - 1];
    assert IsDigit(c);
    DigitNotSpace(c);
    StripUnpadded(s);
    ParseClean(s, 1);
  }

  lemma SignedText(s: string, d: string)
    requires s == "-" + d && d != []
    ensures s[0] == '-' && s[|s| - 1] == d[|d| - 1] && s[1..] == d
    ensures SignCount(s) == 1
  {
  }

  lemma DigitNotSpace(c: char)
    requires IsDigit(c)
    ensures !IsSpace(c)
  {
  }

  /** `int()` of a text that needs no stripping. */
  lemma ParseClean(t: string, sign: nat)
    requires Strip(t) == t && sign == SignCount(t)
    requires t[sign..] != [] && AllDigits(t[sign..])
    ensures var v: int := DigitsValue(t[sign..]); ParseInt(t) == Some(if sign == 1 && t[0] == '-' then -v else v)
  {
    assert ParseInt(t) == ParseSigned(t);
  }

  /** Text with no whitespace at either end is left as it is by `strip()`. */
  lemma StripUnpadded(s: string)
    requires s != [] && !IsSpace(s[0]) && !IsSpace(s[|s| - 1])
    ensures Strip(s) == s
  {
    assert LStrip(s) == s;
    assert RStrip(s) == s;
  }
}
