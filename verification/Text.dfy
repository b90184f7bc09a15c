// Splitting and joining strings (strings.Split of the Go library), and decimal integers (strconv).
module Text {

  function Split(s: string, sep: char): (parts: seq<string>)
    ensures |parts| >= 1
  {
    if s == "" then [""]
    else if s[0] == sep then [""] + Split(s[1..], sep)
    else
      var rest := Split(s[1..], sep);
      [[s[0]] + rest[0]] + rest[1..]
  }

  function Join(parts: seq<string>, sep: char): string
    requires |parts| >= 1
  {
    if |parts| == 1 then parts[0] else parts[0] + [sep] + Join(parts[1..], sep)
  }

  lemma {:induction false} SplitFirst(word: string, rest: string, sep: char)
    requires sep !in word
    ensures Split(word, sep) == [word]
    ensures Split(word + [sep] + rest, sep) == [word] + Split(rest, sep)
  {
    if word == "" {
      assert word + [sep] + rest == [sep] + rest;
    } else {
      var s := word + [sep] + rest;
      assert s[1..] == word[1..] + [sep] + rest;
      SplitFirst(word[1..], rest, sep);
      assert [word[0]] + word[1..] == word;
    }
  }

  /** The first part is what comes before the first separator. */
  lemma {:induction false} FirstPart(s: string, sep: char)
    ensures var first := Split(s, sep)[0];
            first <= s && sep !in first && (|first| < |s| ==> s[|first|] == sep)
  {
    if s != "" && s[0] != sep { FirstPart(s[1..], sep); }
  }

  /** Splitting undoes joining of parts free of the separator. */
  lemma {:induction false} SplitOfJoin(parts: seq<string>, sep: char)
    requires |parts| >= 1 && forall i :: 0 <= i < |parts| ==> sep !in parts[i]
    ensures Split(Join(parts, sep), sep) == parts
  {
    if |parts| == 1 {
      SplitFirst(parts[0], "", sep);
    } else {
      SplitOfJoin(parts[1..], sep);
      SplitFirst(parts[0], Join(parts[1..], sep), sep);
    }
  }

  /** unicode.IsSpace. */
  predicate IsSpace(c: char) {
    || '\t' <= c <= '\r' || c == ' ' || c == '\U{85}' || c == '\U{A0}' || c == '\U{1680}'
        || '\U{2000}' <= c <= '\U{200A}'
    || c == '\U{2028}' || c == '\U{2029}' || c == '\U{202F}' || c == '\U{205F}' || c == '\U{3000}'
  }

  ghost predicate SpaceOutside(s: string, from: nat, to: nat) {
    forall i :: 0 <= i < |s| && !(from <= i < to) ==> IsSpace(s[i])
  }

  /** t is a contiguous part of s, and the rest of s is white space. */
  ghost predicate CutFrom(s: string, t: string) {
    exists from: nat, to: nat :: from <= to <= |s| && SpaceOutside(s, from, to) && t == s[from..to]
  }

  lemma CutAtTheStart(s: string, t: string)
    requires s != "" && IsSpace(s[0]) && CutFrom(s[1..], t)
    ensures CutFrom(s, t)
  {
    var from: nat, to: nat :| from <= to <= |s| - 1 && SpaceOutside(s[1..], from, to) && t == s[1..][from..to];
    forall i | 0 <= i < |s| && !(from + 1 <= i < to + 1) ensures IsSpace(s[i]) {
      if i > 0 { assert s[i] == s[1..][i - 1]; }
    }
    assert SpaceOutside(s, from + 1, to + 1) && t == s[from + 1..to + 1];
  }

  lemma CutAtTheEnd(s: string, t: string)
    requires s != "" && IsSpace(s[|s| - 1]) && CutFrom(s[..|s| - 1], t)
    ensures CutFrom(s, t)
  {
    var n := |s| - 1;
    var from: nat, to: nat :| from <= to <= n && SpaceOutside(s[..n], from, to) && t == s[..n][from..to];
    forall i | 0 <= i < |s| && !(from <= i < to) ensures IsSpace(s[i]) {
      if i < n { assert s[i] == s[..n][i]; }
    }
    assert SpaceOutside(s, from, to) && t == s[from..to];
  }

  lemma CutNothing(s: string)
    ensures CutFrom(s, s)
  {
    assert SpaceOutside(s, 0, |s|) && s == s[0..|s|];
  }

  /** strings.TrimSpace */
  function TrimSpace(s: string): (t: string)
    ensures CutFrom(s, t)
    ensures t == "" || (!IsSpace(t[0]) && !IsSpace(t[|t| - 1]))
    ensures s == "" || (!IsSpace(s[0]) && !IsSpace(s[|s| - 1])) ==> t == s
  {
    hide IsSpace, CutFrom;
    if s == "" then
      CutNothing(s);
      ""
    else if IsSpace(s[0]) then
      var t := TrimSpace(s[1..]);
      CutAtTheStart(s, t);
      t
    else if IsSpace(s[|s| - 1]) then
      var t := TrimSpace(s[..|s| - 1]);
      CutAtTheEnd(s, t);
      t
    else
      CutNothing(s);
      s
  }

  /** t is s without the white space at its ends. */
  ghost predicate IsTrimmed(s: string, t: string) {
    CutFrom(s, t) && (t == "" || (!IsSpace(t[0]) && !IsSpace(t[|t| - 1])))
  }

  /** There is only one such text ... */
  lemma OneTrim(s: string, t: string, u: string)
    requires IsTrimmed(s, t) && IsTrimmed(s, u)
    ensures t == u
  {
    hide IsSpace;
    var i: nat, j: nat :| i <= j <= |s| && SpaceOutside(s, i, j) && t == s[i..j];
    var k: nat, l: nat :| k <= l <= |s| && SpaceOutside(s, k, l) && u == s[k..l];
    if t != "" { assert t[0] == s[i] && t[|t| - 1] == s[j - 1]; }
    if u != "" { assert u[0] == s[k] && u[|u| - 1] == s[l - 1]; }
  }

  predicate AllSpace(s: string) { forall i :: 0 <= i < |s| ==> IsSpace(s[i]) }

  /** ... so whatever white space is put around a text is trimmed off again. */
  lemma TrimUndoesPadding(before: string, t: string, after: string)
    requires AllSpace(before) && AllSpace(after)
    requires t == "" || (!IsSpace(t[0]) && !IsSpace(t[|t| - 1]))
    ensures TrimSpace(before + t + after) == t
  {
    hide IsSpace;
    var s := before + t + after;
    assert t == s[|before|..|before| + |t|] && SpaceOutside(s, |before|, |before| + |t|);
    OneTrim(s, TrimSpace(s), t);
  }

  lemma TrimmedOff(s: string) returns (before: string, t: string, after: string)
    ensures t == TrimSpace(s) && IsTrimmed(s, t) && AllSpace(before) && AllSpace(after) && s == before + t + after
  {
    t := TrimSpace(s);
    hide TrimSpace, IsSpace;
    var from: nat, to: nat :| from <= to <= |s| && SpaceOutside(s, from, to) && t == s[from..to];
    before, after := s[..from], s[to..];
    forall i | 0 <= i < |after| ensures IsSpace(after[i]) { assert IsSpace(s[to + i]); }
  }

  // ----------------------------------------------------- decimal integers

  const MAX_INT: int := 0x7FFF_FFFF_FFFF_FFFF
  const MIN_INT: int := -0x8000_0000_0000_0000

  predicate IsInt64(n: int) { MIN_INT <= n <= MAX_INT }

  function Digit(d: nat): char
    requires d < 10
  {
    '0' + d as char
  }

  function Digits(n: nat): (s: string)
    ensures |s| >= 1
  {
    if n < 10 then [Digit(n)] else Digits(n / 10) + [Digit(n % 10)]
  }

  /** strconv.Itoa */
  function Itoa(n: int): string {
    if n < 0 then "-" + Digits(-n) else Digits(n)
  }

  predicate IsDigit(c: char) { '0' <= c <= '9' }

  predicate AllDigits(s: string) { forall i :: 0 <= i < |s| ==> IsDigit(s[i]) }

  function ValueOf(s: string): nat
    requires AllDigits(s)
  {
    if s == "" then 0
    else ValueOf(s[..|s| - 1]) * 10 + (s[|s| - 1] as int - '0' as int)
  }

  datatype Parsed = Number(n: int) | SyntaxError | RangeError

  function InRange(n: int): Parsed { if IsInt64(n) then Number(n) else RangeError }

  /** strconv.Atoi with a 64-bit int: an optional sign, then decimal digits only. */
  function Atoi(s: string): Parsed {
    if s == "" then SyntaxError
    else
      var digits := if s[0] == '-' || s[0] == '+' then s[1..] else s;
      if digits == "" || !AllDigits(digits) then SyntaxError
      else InRange(if s[0] == '-' then 0 - ValueOf(digits) else ValueOf(digits))
  }

  lemma {:induction false} DigitsRoundTrip(n: nat)
    ensures AllDigits(Digits(n))
    ensures ValueOf(Digits(n)) == n
  {
    if n < 10 {
      assert Digits(n)[..0] == "";
    } else {
      DigitsRoundTrip(n / 10);
      assert Digits(n)[..|Digits(n)| - 1] == Digits(n / 10);
    }
  }

  /** Reading back a printed int gives that int. */
  lemma AtoiOfItoa(n: int)
    requires IsInt64(n)
    ensures Atoi(Itoa(n)) == Number(n)
  {
    hide ValueOf, Digits;
    if n >= 0 {
      DigitsRoundTrip(n);
      assert IsDigit(Digits(n)[0]);
      assert Itoa(n) == Digits(n);
    } else {
      DigitsRoundTrip(-n);
      assert Itoa(n)[0] == '-' && Itoa(n)[1..] == Digits(-n);
    }
  }
}
