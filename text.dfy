/** The string primitives the client and the server lean on: `trim`,
    `toLowerCase`, `includes`, `startsWith`, `split` on one character,
    `parseInt` and the decimal text of an integer. */
module Text {
  import opened Wrappers

  /** The white space and line terminators that JavaScript's `trim` and
      `parseInt` skip. */
  predicate IsSpace(c: char) {
    || c == ' ' || c == '\t' || c == '\n' || c == '\r' || c == '\U{0B}' || c == '\U{0C}'
    || c == '\U{A0}' || c == '\U{1680}' || ('\U{2000}' <= c <= '\U{200A}')
    || c == '\U{2028}' || c == '\U{2029}' || c == '\U{202F}' || c == '\U{205F}'
    || c == '\U{3000}' || c == '\U{FEFF}'
  }

  function TrimStart(s: string): (r: string)
    ensures |r| <= |s| && r == s[|s| - |r|..]
    ensures r == [] || !IsSpace(r[0])
    ensures forall i :: 0 <= i < |s| - |r| ==> IsSpace(s[i])
  {
    if s != [] && IsSpace(s[0]) then TrimStart(s[1..]) else s
  }

  function TrimEnd(s: string): (r: string)
    ensures |r| <= |s| && r == s[..|r|]
    ensures r == [] || !IsSpace(r[|r| - 1])
    ensures forall i :: |r| <= i < |s| ==> IsSpace(s[i])
  {
    if s != [] && IsSpace(s[|s| - 1]) then TrimEnd(s[..|s| - 1]) else s
  }

  /** `s.trim()`: the text between the first and the last non-space character. */
  function Trim(s: string): (r: string)
    ensures |r| <= |s|
    ensures r == [] || (!IsSpace(r[0]) && !IsSpace(r[|r| - 1]))
    ensures r == [] <==> forall i :: 0 <= i < |s| ==> IsSpace(s[i])
  {
    TrimBlankExactly(s);
    TrimEnd(TrimStart(s))
  }

  /** Trimming both ends leaves nothing exactly when every character is white space. */
  lemma TrimBlankExactly(s: string)
    ensures TrimEnd(TrimStart(s)) == [] <==> forall i :: 0 <= i < |s| ==> IsSpace(s[i])
  {
    var t := TrimStart(s);
    var r := TrimEnd(t);
    var d := |s| - |t|;
    if r == [] {
      forall i | 0 <= i < |s| ensures IsSpace(s[i]) {
        if i >= d {
          assert s[i] == s[d..][i - d] == t[i - d];
        }
      }
    } else {
      assert r[0] == t[0] && s[d] == t[0];
    }
  }

  /** `!s.trim()`: the text is empty or all white space. */
  predicate IsBlank(s: string) {
    Trim(s) == []
  }

  /** A text that is not blank trims to a non-empty text with no white space
      at either end. */
  lemma TrimNotBlank(s: string)
    requires !IsBlank(s)
    ensures var t := Trim(s); t != [] && !IsSpace(t[0]) && !IsSpace(t[|t| - 1])
  {
  }

  /** `toLowerCase` on the ASCII letters. */
  function Lower(c: char): char {
    if 'A' <= c <= 'Z' then (c as int + 32) as char else c
  }

  function LowerStr(s: string): (r: string)
    ensures |r| == |s| && forall i :: 0 <= i < |s| ==> r[i] == Lower(s[i])
  {
    seq(|s|, i requires 0 <= i < |s| => Lower(s[i]))
  }

  /** `s.includes(sub)`: `sub` occurs in `s` at some position. */
  predicate Contains(s: string, sub: string)
    decreases |s|
  {
    sub <= s || (s != [] && Contains(s[1..], sub))
  }

  /** `s.toLowerCase().includes(sub.toLowerCase())`. */
  predicate ContainsIgnoringCase(s: string, sub: string) {
    Contains(LowerStr(s), LowerStr(sub))
  }

  /** A text starting with `sub` contains it, whatever the case. */
  lemma PrefixContainedIgnoringCase(s: string, sub: string)
    requires sub <= s
    ensures ContainsIgnoringCase(s, sub)
  {
    assert LowerStr(sub) == LowerStr(s)[..|sub|];
  }

  /** `s.split(sep)` for a one-character separator: the pieces between
      the separators, empty ones included. */
  function Split(s: string, sep: char): (parts: seq<string>)
    ensures |parts| >= 1
    ensures forall i :: 0 <= i < |parts| ==> sep !in parts[i]
  {
    if s == [] then [""]
    else
      var rest := Split(s[1..], sep);
      if s[0] == sep then [""] + rest
      else [[s[0]] + rest[0]] + rest[1..]
  }

  /** `parts.join(sep)`. */
  function Join(parts: seq<string>, sep: char): string
    requires |parts| >= 1
  {
    if |parts| == 1 then parts[0] else parts[0] + [sep] + Join(parts[1..], sep)
  }

  /** Splitting loses nothing: joining the pieces gives the text back. */
  lemma {:induction false} JoinSplit(s: string, sep: char)
    ensures Join(Split(s, sep), sep) == s
  {
    if s != [] {
      var rest := Split(s[1..], sep);
      JoinSplit(s[1..], sep);
      if s[0] == sep {
        assert Split(s, sep) == [""] + rest;
        assert (([""] + rest)[1..]) == rest;
      } else {
        var parts := Split(s, sep);
        assert parts == [[s[0]] + rest[0]] + rest[1..];
        if |rest| == 1 {
          assert parts == [[s[0]] + rest[0]];
        } else {
          assert parts[1..] == rest[1..];
        }
      }
    }
  }

  /** A text holding the separator splits into at least two pieces. */
  lemma SplitAtSeparator(s: string, sep: char)
    requires sep in s
    ensures |Split(s, sep)| >= 2
  {
    JoinSplit(s, sep);
  }

  /** A separator-free text is one piece. */
  lemma {:induction false} SplitWithoutSeparator(s: string, sep: char)
    requires sep !in s
    ensures Split(s, sep) == [s]
  {
    if s != [] {
      assert s[0] != sep;
      SplitWithoutSeparator(s[1..], sep);
      assert [s[0]] + s[1..] == s;
    }
  }

  /** A separator-free head followed by the separator is split off as the first piece. */
  lemma {:induction false} SplitAfterHead(head: string, sep: char, rest: string)
    requires sep !in head
    ensures Split(head + [sep] + rest, sep) == [head] + Split(rest, sep)
  {
    if head == [] {
      assert head + [sep] + rest == [sep] + rest;
      assert ([sep] + rest)[1..] == rest;
    } else {
      var s := head + [sep] + rest;
      assert s[0] == head[0];
      assert s[1..] == head[1..] + [sep] + rest;
      SplitAfterHead(head[1..], sep, rest);
      assert [head[0]] + head[1..] == head;
    }
  }

  // ----- parseInt -------------------------------------------------------

  /** The value of a digit in base 16 (so also in base 10), or -1. */
  function DigitOf(c: char): int {
    if '0' <= c <= '9' then c as int - '0' as int
    else if 'a' <= c <= 'f' then c as int - 'a' as int + 10
    else if 'A' <= c <= 'F' then c as int - 'A' as int + 10
    else -1
  }

  predicate IsDigitIn(c: char, radix: nat) {
    0 <= DigitOf(c) < radix
  }

  predicate AllDigitsIn(ds: string, radix: nat) {
    forall i :: 0 <= i < |ds| ==> IsDigitIn(ds[i], radix)
  }

  /** The length of the longest prefix of `s` made of digits of `radix`. */
  function DigitRun(s: string, radix: nat): (n: nat)
    ensures n <= |s|
    ensures forall i :: 0 <= i < n ==> IsDigitIn(s[i], radix)
    ensures n == |s| || !IsDigitIn(s[n], radix)
  {
    if s != [] && IsDigitIn(s[0], radix) then 1 + DigitRun(s[1..], radix) else 0
  }

  /** The value of a digit string, most significant digit first. */
  function DigitsValue(ds: string, radix: nat): nat
    requires AllDigitsIn(ds, radix)
  {
    if ds == [] then 0
    else
      assert IsDigitIn(ds[|ds| - 1], radix);
      radix * DigitsValue(ds[..|ds| - 1], radix) + DigitOf(ds[|ds| - 1])
  }

  /** JavaScript's `parseInt(s)` with no radix: leading white space, an optional
      sign, a `0x` prefix for base 16, then the longest run of digits; `None`
      stands for `NaN` (no digit at all). */
  function ParseInt(s: string): (r: Option<int>)
    ensures r.None? <==> DigitRun(ParseBody(s), ParseRadix(s)) == 0
  {
    var body := ParseBody(s);
    var n := DigitRun(body, ParseRadix(s));
    if n == 0 then None
    else
      var v: int := DigitsValue(body[..n], ParseRadix(s));
      Some(if ParseNegative(s) then -v else v)
  }

  /** `parseInt(s) || fallback`: both `NaN` and `0` are falsy, so either gives the fallback. */
  function ParseIntOr(s: string, fallback: int): (r: int)
    ensures ParseInt(s).None? || ParseInt(s) == Some(0) ==> r == fallback
    ensures ParseInt(s).Some? && ParseInt(s).value != 0 ==> r == ParseInt(s).value
  {
    match ParseInt(s)
    case Some(v) => if v != 0 then v else fallback
    case None => fallback
  }

  /** The decimal text of a non-zero number reads back as that number. */
  lemma ParseIntOrOfDecimal(n: int, fallback: int)
    ensures ParseIntOr(IntToDecimal(n), fallback) == if n == 0 then fallback else n
  {
    ParseIntOfDecimal(n);
  }

  function Unsigned(s: string): string {
    var t := TrimStart(s);
    if t != [] && (t[0] == '-' || t[0] == '+') then t[1..] else t
  }

  predicate ParseNegative(s: string) {
    var t := TrimStart(s);
    t != [] && t[0] == '-'
  }

  predicate HexPrefixed(s: string) {
    var u := Unsigned(s);
    |u| >= 2 && u[0] == '0' && (u[1] == 'x' || u[1] == 'X')
  }

  function ParseRadix(s: string): nat {
    if HexPrefixed(s) then 16 else 10
  }

  function ParseBody(s: string): string {
    if HexPrefixed(s) then Unsigned(s)[2..] else Unsigned(s)
  }

  // ----- decimal text ---------------------------------------------------

  function DigitChar(d: nat): char
    requires d < 10
  {
    ('0' as int + d) as char
  }

  /** The decimal text of a natural number, as JavaScript prints it. */
  function NatToDecimal(n: nat): (r: string)
    ensures |r| >= 1
    ensures AllDecimal(r)
  {
    if n < 10 then [DigitChar(n)] else NatToDecimal(n / 10) + [DigitChar(n % 10)]
  }

  /** `String(n)` for an integer `n`. */
  function IntToDecimal(n: int): string {
    if n < 0 then "-" + NatToDecimal(-n) else NatToDecimal(n)
  }

  lemma {:induction false} NatToDecimalValue(n: nat)
    ensures AllDigitsIn(NatToDecimal(n), 10)
    ensures DigitsValue(NatToDecimal(n), 10) == n
  {
    if n >= 10 {
      NatToDecimalValue(n / 10);
      var r := NatToDecimal(n);
      assert r[..|r| - 1] == NatToDecimal(n / 10);
    }
  }

  /** Two natural numbers with the same decimal text are the same number. */
  lemma NatToDecimalInjective()
    ensures forall i: nat, j: nat :: NatToDecimal(i) == NatToDecimal(j) ==> i == j
  {
    forall i: nat, j: nat | NatToDecimal(i) == NatToDecimal(j) ensures i == j {
      NatToDecimalValue(i);
      NatToDecimalValue(j);
    }
  }

  /** Reading back the decimal text of an integer gives the integer:
      `parseInt(String(n)) == n`. */
  lemma ParseIntOfDecimal(n: int)
    ensures ParseInt(IntToDecimal(n)) == Some(n)
  {
    if n < 0 {
      ParseNegativeDecimal(n);
    } else {
      ParseNatDecimal(n);
    }
  }

  lemma ParseNatDecimal(n: nat)
    ensures ParseInt(IntToDecimal(n)) == Some(n)
  {
    NatToDecimalValue(n);
    ParseDigits(NatToDecimal(n));
  }

  lemma ParseNegativeDecimal(n: int)
    requires n < 0
    ensures ParseInt(IntToDecimal(n)) == Some(n)
  {
    var m: nat := -n;
    var d := NatToDecimal(m);
    assert IntToDecimal(n) == "-" + d;
    NatToDecimalValue(m);
    ParseNegativeDigits(d);
  }

  predicate AllDecimal(d: string) {
    forall i :: 0 <= i < |d| ==> '0' <= d[i] <= '9'
  }

  lemma ParseDigits(d: string)
    requires |d| >= 1 && AllDecimal(d)
    ensures AllDigitsIn(d, 10)
    ensures ParseInt(d) == Some(DigitsValue(d, 10))
  {
    assert !IsSpace(d[0]);
    assert TrimStart(d) == d;
    ParseBodyOfDigits(d, d);
  }

  lemma ParseNegativeDigits(d: string)
    requires |d| >= 1 && AllDecimal(d)
    ensures AllDigitsIn(d, 10)
    ensures ParseInt("-" + d) == Some(-(DigitsValue(d, 10) as int))
  {
    var s := "-" + d;
    assert !IsSpace(s[0]);
    assert TrimStart(s) == s;
    assert s[1..] == d;
    assert Unsigned(s) == d;
    ParseBodyOfDigits(s, d);
  }

  /** Once the sign is read, a run of decimal digits is read whole. */
  lemma ParseBodyOfDigits(s: string, d: string)
    requires |d| >= 1 && AllDecimal(d) && Unsigned(s) == d
    ensures AllDigitsIn(d, 10)
    ensures ParseInt(s) == Some(if ParseNegative(s) then -(DigitsValue(d, 10) as int) else DigitsValue(d, 10))
  {
    DecimalIsNotHex(s, d);
    DecimalDigits(d);
    DigitRunAll(d, 10);
    ReadWholeRun(s, d);
  }

  lemma DecimalIsNotHex(s: string, d: string)
    requires |d| >= 1 && AllDecimal(d) && Unsigned(s) == d
    ensures ParseBody(s) == d && ParseRadix(s) == 10
  {
    if |d| >= 2 { assert '0' <= d[1] <= '9'; }
  }

  lemma DecimalDigits(d: string)
    requires AllDecimal(d)
    ensures AllDigitsIn(d, 10)
  {
  }

  lemma ReadWholeRun(s: string, d: string)
    requires ParseBody(s) == d && ParseRadix(s) == 10 && |d| >= 1
    requires AllDigitsIn(d, 10)
    requires DigitRun(d, 10) == |d|
    ensures ParseInt(s) == Some(if ParseNegative(s) then -(DigitsValue(d, 10) as int) else DigitsValue(d, 10))
  {
    assert d[..|d|] == d;
  }

  lemma {:induction false} DigitRunAll(s: string, radix: nat)
    requires AllDigitsIn(s, radix)
    ensures DigitRun(s, radix) == |s|
  {
    if s != [] {
      assert IsDigitIn(s[0], radix);
      DigitRunAll(s[1..], radix);
    }
  }
}
