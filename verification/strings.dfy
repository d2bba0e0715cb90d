/** The Python `str` built-ins the core relies on: `strip`, `lower`, `join`,
    `split`, `splitlines` and `int(...)` on a decimal string. */
module PyStrings {
  import opened Results

  /** `str.isspace()`: the characters `strip()` removes and the regex class `\s` matches. */
  predicate IsSpace(c: char) {
    c == ' ' || ('\t' <= c <= '\r') || ('\U{1C}' <= c <= '\U{1F}') || c == '\U{85}' || c == '\U{A0}'
    || c == '\U{1680}' || ('\U{2000}' <= c <= '\U{200A}') || c == '\U{2028}' || c == '\U{2029}'
    || c == '\U{202F}' || c == '\U{205F}' || c == '\U{3000}'
  }

  /** The line boundaries of `str.splitlines()`. */
  predicate IsLineBreak(c: char) {
    c == '\n' || c == '\r' || c == '\U{0B}' || c == '\U{0C}' || ('\U{1C}' <= c <= '\U{1E}')
    || c == '\U{85}' || c == '\U{2028}' || c == '\U{2029}'
  }

  predicate IsPeriod(c: char) { c == '.' }

  predicate NotLineBreak(c: char) { !IsLineBreak(c) }

  lemma LineBreakIsSpace(c: char)
    ensures IsLineBreak(c) ==> IsSpace(c)
  {
  }

  /** How many leading characters of `s` satisfy `drop`. */
  function LeadCount(s: string, drop: char -> bool): (k: nat)
    ensures k <= |s|
    ensures forall i :: 0 <= i < k ==> drop(s[i])
    ensures k < |s| ==> !drop(s[k])
    decreases |s|
  {
    if |s| > 0 && drop(s[0]) then 1 + LeadCount(s[1..], drop) else 0
  }

  /** How many trailing characters of `s` satisfy `drop`. */
  function TrailCount(s: string, drop: char -> bool): (k: nat)
    ensures k <= |s|
    ensures forall i :: |s| - k <= i < |s| ==> drop(s[i])
    ensures k < |s| ==> !drop(s[|s| - 1 - k])
    decreases |s|
  {
    if |s| > 0 && drop(s[|s| - 1]) then 1 + TrailCount(s[..|s| - 1], drop) else 0
  }

  /** `s.strip(chars)`: remove the longest prefix and suffix made of characters satisfying `drop`. */
  function StripBy(s: string, drop: char -> bool): (r: string)
    ensures |r| <= |s|
    ensures r != [] ==> !drop(r[0]) && !drop(r[|r| - 1])
    ensures r == [] ==> forall i :: 0 <= i < |s| ==> drop(s[i])
    ensures forall c :: c in r ==> c in s
  {
    var a := LeadCount(s, drop);
    var t := s[a..];
    var b := TrailCount(t, drop);
    StripByFacts(s, drop, a, b);
    if b == |t| then [] else t[..|t| - b]
  }

  lemma StripByFacts(s: string, drop: char -> bool, a: nat, b: nat)
    requires a == LeadCount(s, drop) && b == TrailCount(s[a..], drop)
    ensures forall c :: c in s[a..][..|s| - a - b] ==> c in s
    ensures b == |s| - a ==> forall i :: 0 <= i < |s| ==> drop(s[i])
  {
    var t := s[a..];
    assert forall c :: c in t[..|t| - b] ==> c in t;
    assert |t| > 0 ==> t[0] == s[a];
    if b == |t| {
      assert a == |s|;
    }
  }

  /** `s.strip()` */
  function Strip(s: string): string { StripBy(s, IsSpace) }

  /** Leading whitespace followed by a non-space character is exactly what `lstrip` removes. */
  lemma {:induction false} LeadSpaces(pad: string, rest: string)
    requires forall i :: 0 <= i < |pad| ==> IsSpace(pad[i])
    requires |rest| > 0 && !IsSpace(rest[0])
    ensures LeadCount(pad + rest, IsSpace) == |pad|
    decreases |pad|
  {
    if pad != [] {
      assert (pad + rest)[1..] == pad[1..] + rest;
      LeadSpaces(pad[1..], rest);
    } else {
      assert pad + rest == rest;
    }
  }

  /** Stripping whitespace never reaches into a head that starts and ends with a non-space
      character, whatever surrounds it. */
  lemma StripKeepsHead(pad: string, head: string, tail: string)
    requires forall i :: 0 <= i < |pad| ==> IsSpace(pad[i])
    requires |head| > 0 && !IsSpace(head[0]) && !IsSpace(head[|head| - 1])
    ensures head <= Strip(pad + head + tail)
  {
    var s := pad + head + tail;
    LeadSpaces(pad, head + tail);
    assert pad + (head + tail) == s;
    var t := s[|pad|..];
    assert t == head + tail;
    assert t[|head| - 1] == head[|head| - 1];
  }

  /** The normalisation every classifier applies to the agent's reply: `.strip().strip(".")`. */
  function NormalizeReply(reply: string): string { StripBy(Strip(reply), IsPeriod) }

  function LowerChar(c: char): char {
    if 'A' <= c <= 'Z' then (c as int - 'A' as int + 'a' as int) as char else c
  }

  /** `s.lower()`, on the ASCII letters. */
  function Lower(s: string): (r: string)
    ensures |r| == |s|
  {
    seq(|s|, i requires 0 <= i < |s| => LowerChar(s[i]))
  }

  /** The classifiers' `resp.lower() == "none"` test. */
  predicate IsNoneWord(s: string) { Lower(s) == "none" }

  /** The test accepts exactly the sixteen ways of writing "none" in upper and lower case:
      no other character lowers to one of its letters. */
  lemma NoneWordCases(s: string)
    ensures IsNoneWord(s) <==>
              |s| == 4 && (s[0] == 'n' || s[0] == 'N') && (s[1] == 'o' || s[1] == 'O')
                       && (s[2] == 'n' || s[2] == 'N') && (s[3] == 'e' || s[3] == 'E')
  {
    if IsNoneWord(s) {
      assert Lower(s)[0] == 'n' && Lower(s)[1] == 'o' && Lower(s)[2] == 'n' && Lower(s)[3] == 'e';
    } else if |s| == 4 {
      var i :| 0 <= i < 4 && Lower(s)[i] != "none"[i];
    }
  }

  /** `sep.join(parts)` */
  function Join(parts: seq<string>, sep: string): string
    decreases |parts|
  {
    if |parts| == 0 then "" else if |parts| == 1 then parts[0] else parts[0] + sep + Join(parts[1..], sep)
  }

  /** Whether `sep` occurs in `s` at position `j`. */
  predicate OccursAt(s: string, sep: string, j: int) {
    0 <= j && j + |sep| <= |s| && s[j..j + |sep|] == sep
  }

  /** The first position at which `sep` occurs in `s`, and `None` when it occurs nowhere. */
  function IndexOf(s: string, sep: string): (r: Option<nat>)
    requires |sep| > 0
    ensures r.Some? ==> OccursAt(s, sep, r.value) && forall j :: 0 <= j < r.value ==> !OccursAt(s, sep, j)
    ensures r.None? ==> forall j :: !OccursAt(s, sep, j)
    ensures r.None? && |sep| == 1 ==> sep[0] !in s
    decreases |s|
  {
    if |s| < |sep| then None
    else if s[..|sep|] == sep then Some(0)
    else
      SlideWindow(s, sep);
      match IndexOf(s[1..], sep)
      case None => None
      case Some(k) => Some(k + 1)
  }

  /** Past position 0, `sep` occurs in `s` where it occurs in `s[1..]`, one position later. */
  lemma SlideWindow(s: string, sep: string)
    requires 1 <= |s|
    ensures OccursAt(s, sep, 0) <==> |sep| <= |s| && s[..|sep|] == sep
    ensures forall j :: 1 <= j ==> (OccursAt(s, sep, j) <==> OccursAt(s[1..], sep, j - 1))
  {
    if |sep| <= |s| {
      assert s[0..|sep|] == s[..|sep|];
    }
    forall j | 1 <= j
      ensures OccursAt(s, sep, j) <==> OccursAt(s[1..], sep, j - 1)
    {
      if j + |sep| <= |s| {
        var a, b := s[j..j + |sep|], s[1..][j - 1..j - 1 + |sep|];
        assert |a| == |b| && forall i :: 0 <= i < |a| ==> a[i] == b[i];
      }
    }
  }

  /** `s.split(sep)` for a non-empty separator. */
  function Split(s: string, sep: string): (r: seq<string>)
    requires |sep| > 0
    ensures |r| >= 1
    decreases |s|
  {
    match IndexOf(s, sep)
    case None => [s]
    case Some(k) => [s[..k]] + Split(s[k + |sep|..], sep)
  }

  /** Splitting on a separator and joining the pieces back gives the original string. */
  lemma {:induction false} JoinSplit(s: string, sep: string)
    requires |sep| > 0
    ensures Join(Split(s, sep), sep) == s
    decreases |s|
  {
    var r := IndexOf(s, sep);
    if r.Some? {
      var k := r.value;
      var rest := s[k + |sep|..];
      var tail := Split(rest, sep);
      JoinSplit(rest, sep);
      assert Split(s, sep) == [s[..k]] + tail;
      JoinCons(s[..k], tail, sep);
      assert s == s[..k] + sep + rest by {
        assert s[k..k + |sep|] == sep;
        assert s == s[..k] + s[k..k + |sep|] + s[k + |sep|..];
      }
    }
  }

  lemma JoinCons(p: string, parts: seq<string>, sep: string)
    requires |parts| >= 1
    ensures Join([p] + parts, sep) == p + sep + Join(parts, sep)
  {
    assert ([p] + parts)[1..] == parts;
  }

  /** Joining pieces that do not contain the first character of the separator, then
      splitting on it, gives the pieces back. */
  lemma {:induction false} SplitJoin(parts: seq<string>, sep: string)
    requires |parts| >= 1 && |sep| > 0
    requires forall i :: 0 <= i < |parts| ==> sep[0] !in parts[i]
    ensures Split(Join(parts, sep), sep) == parts
    decreases |parts|
  {
    if |parts| == 1 {
      assert IndexOf(parts[0], sep) == None by { NoIndexOfAbsent(parts[0], sep); }
    } else {
      var s := Join(parts, sep);
      var tail := Join(parts[1..], sep);
      assert s == parts[0] + sep + tail;
      IndexOfAfterPrefix(parts[0], sep, tail);
      assert s[|parts[0]| + |sep|..] == tail;
      assert s[..|parts[0]|] == parts[0];
      SplitJoin(parts[1..], sep);
    }
  }

  lemma {:induction false} NoIndexOfAbsent(s: string, sep: string)
    requires |sep| > 0 && sep[0] !in s
    ensures IndexOf(s, sep) == None
    decreases |s|
  {
    if |s| >= |sep| {
      assert s[..|sep|] != sep by { assert s[..|sep|][0] == s[0] != sep[0]; }
      NoIndexOfAbsent(s[1..], sep);
    }
  }

  lemma {:induction false} IndexOfAfterPrefix(p: string, sep: string, t: string)
    requires |sep| > 0 && sep[0] !in p
    ensures IndexOf(p + sep + t, sep) == Some(|p|)
    decreases |p|
  {
    var s := p + sep + t;
    if |p| == 0 {
      assert s[..|sep|] == sep;
    } else {
      assert s[..|sep|] != sep by { assert s[..|sep|][0] == p[0] != sep[0]; }
      assert s[1..] == p[1..] + sep + t;
      IndexOfAfterPrefix(p[1..], sep, t);
    }
  }

  /** `s.splitlines()` */
  function SplitLines(s: string): (r: seq<string>)
    ensures forall i, j :: 0 <= i < |r| && 0 <= j < |r[i]| ==> !IsLineBreak(r[i][j])
    ensures s == [] <==> r == []
    decreases |s|
  {
    if s == [] then []
    else
      var k := LeadCount(s, NotLineBreak);
      if k == |s| then [s]
      else
        var w := if s[k] == '\r' && k + 1 < |s| && s[k + 1] == '\n' then 2 else 1;
        [s[..k]] + SplitLines(s[k + w..])
  }

  function DigitValue(c: char): nat
    requires '0' <= c <= '9'
  {
    c as int - '0' as int
  }

  predicate AllDigits(s: string) {
    forall i :: 0 <= i < |s| ==> '0' <= s[i] <= '9'
  }

  /** The value of a string of decimal digits, most significant first. */
  function DigitsValue(s: string): nat
    requires AllDigits(s)
    decreases |s|
  {
    if s == [] then 0 else DigitsValue(s[..|s| - 1]) * 10 + DigitValue(s[|s| - 1])
  }

  /** `int(s)` for an optionally signed decimal literal surrounded by optional whitespace;
      `None` is the `ValueError` Python raises for anything else. */
  function ParseInt(s: string): Option<int> {
    ParseTrimmed(Strip(s))
  }

  /** `int` once the surrounding whitespace is gone: an optional sign, then one or more digits. */
  function ParseTrimmed(t: string): Option<int> {
    var signed := |t| > 0 && (t[0] == '-' || t[0] == '+');
    var digits := if signed then t[1..] else t;
    if |digits| == 0 || !AllDigits(digits) then None
    else
      var v: int := DigitsValue(digits);
      if signed && t[0] == '-' then Some(-v) else Some(v)
  }

  /** `str(n)` for a natural number. */
  function Decimal(n: nat): (r: string)
    ensures |r| >= 1 && AllDigits(r)
  {
    if n < 10 then [('0' as int + n) as char] else Decimal(n / 10) + [('0' as int + n % 10) as char]
  }

  lemma {:induction false} DecimalValue(n: nat)
    ensures DigitsValue(Decimal(n)) == n
  {
    if n >= 10 {
      var d := Decimal(n);
      assert d[..|d| - 1] == Decimal(n / 10);
      DecimalValue(n / 10);
    }
  }

  /** `int(str(n)) == n` for every integer `n`. */
  lemma ParseIntDecimal(n: int)
    ensures ParseInt(if n < 0 then "-" + Decimal(-n) else Decimal(n)) == Some(n)
  {
    var m: nat := if n < 0 then -n else n;
    DecimalValue(m);
    if n < 0 {
      ParseIntNegative(Decimal(m));
    } else {
      ParseIntDigits(Decimal(m));
    }
  }

  /** `int` of a digit string. */
  lemma ParseIntDigits(d: string)
    requires |d| > 0 && AllDigits(d)
    ensures ParseInt(d) == Some(DigitsValue(d))
  {
    StripUnchanged(d);
    assert d[0] != '-' && d[0] != '+';
  }

  /** `int` of a minus sign and a digit string. */
  lemma ParseIntNegative(d: string)
    requires |d| > 0 && AllDigits(d)
    ensures ParseInt("-" + d) == Some(-(DigitsValue(d) as int))
  {
    var s := "-" + d;
    assert s[|s| - 1] == d[|d| - 1];
    StripUnchanged(s);
    TrimmedNegative(d);
  }

  lemma TrimmedNegative(d: string)
    requires |d| > 0 && AllDigits(d)
    ensures ParseTrimmed("-" + d) == Some(-(DigitsValue(d) as int))
  {
    DropFirst('-', d);
  }

  lemma DropFirst(c: char, d: string)
    ensures ([c] + d)[1..] == d
  {
  }

  lemma StripUnchanged(s: string)
    requires |s| > 0 && !IsSpace(s[0]) && !IsSpace(s[|s| - 1])
    ensures Strip(s) == s
  {
    assert LeadCount(s, IsSpace) == 0;
    assert s[0..] == s;
    assert TrailCount(s, IsSpace) == 0;
  }
}
