/** The parts of Go's strings, strconv and fmt packages that money parsing and printing rest on. */
module Text {
  import opened Basics

  // ---- strings ----

  /** unicode.IsSpace. */
  predicate IsSpace(c: char) {
    || '\t' <= c <= '\r'
    || c == ' ' || c == '\U{0085}' || c == '\U{00A0}' || c == '\U{1680}'
    || '\U{2000}' <= c <= '\U{200A}'
    || c == '\U{2028}' || c == '\U{2029}' || c == '\U{202F}' || c == '\U{205F}' || c == '\U{3000}'
  }

  function TrimLeft(s: string): string {
    if s != [] && IsSpace(s[0]) then TrimLeft(s[1..]) else s
  }

  function TrimRight(s: string): string {
    if s != [] && IsSpace(s[|s| - 1]) then TrimRight(s[..|s| - 1]) else s
  }

  /** strings.TrimSpace. */
  function TrimSpace(s: string): string {
    TrimRight(TrimLeft(s))
  }

  predicate Blank(s: string) {
    forall k :: 0 <= k < |s| ==> IsSpace(s[k])
  }

  /** Nonempty, and with no space at either end. */
  predicate Tight(s: string) {
    |s| > 0 && !IsSpace(s[0]) && !IsSpace(s[|s| - 1])
  }

  lemma {:induction false} TrimLeftPadding(pad: string, s: string)
    requires Blank(pad) && (s == [] || !IsSpace(s[0]))
    ensures TrimLeft(pad + s) == s
  {
    if pad == [] {
      assert pad + s == s;
    } else {
      assert (pad + s)[1..] == pad[1..] + s;
      TrimLeftPadding(pad[1..], s);
    }
  }

  lemma {:induction false} TrimRightPadding(s: string, pad: string)
    requires Blank(pad) && (s == [] || !IsSpace(s[|s| - 1]))
    ensures TrimRight(s + pad) == s
    decreases |pad|
  {
    if pad == [] {
      assert s + pad == s;
    } else {
      var n := |pad| - 1;
      assert (s + pad)[..|s + pad| - 1] == s + pad[..n];
      TrimRightPadding(s, pad[..n]);
    }
  }

  /** Trimming takes off the padding and nothing else. */
  lemma {:induction false} TrimPadding(lead: string, s: string, trail: string)
    requires Blank(lead) && Blank(trail) && Tight(s)
    ensures TrimSpace(lead + s + trail) == s
  {
    assert lead + s + trail == lead + (s + trail);
    TrimLeftPadding(lead, s + trail);
    TrimRightPadding(s, trail);
  }

  lemma {:induction false} TrimLeftIsClean(s: string)
    ensures var t := TrimLeft(s); t == [] || !IsSpace(t[0])
  {
    if s == [] || !IsSpace(s[0]) {
    } else {
      TrimLeftIsClean(s[1..]);
    }
  }

  lemma {:induction false} TrimRightIsClean(s: string)
    ensures var t := TrimRight(s); t <= s && (t == [] || !IsSpace(t[|t| - 1]))
  {
    if s == [] || !IsSpace(s[|s| - 1]) {
    } else {
      TrimRightIsClean(s[..|s| - 1]);
    }
  }

  /** A blank, a tab, a line feed or a carriage return. */
  predicate IsPlainSpace(c: char) {
    c == ' ' || c == '\t' || c == '\n' || c == '\r'
  }

  lemma {:induction false} PlainSpacesAreBlank(pad: string)
    requires forall k :: 0 <= k < |pad| ==> IsPlainSpace(pad[k])
    ensures Blank(pad)
  {
  }

  /** In ASCII exactly the blank and the characters 9 to 13 are spaces; no visible character is. */
  lemma {:induction false} AsciiSpaces(c: char)
    requires c < 128 as char
    ensures IsSpace(c) <==> c == ' ' || 9 <= c as int <= 13
    ensures 33 <= c as int <= 126 ==> !IsSpace(c)
  {
  }

  lemma {:induction false} TrimLeftBlank(s: string)
    requires Blank(s)
    ensures TrimLeft(s) == ""
  {
    if s == [] {
    } else {
      TrimLeftBlank(s[1..]);
    }
  }

  /** Nothing but spaces trims to nothing. */
  lemma {:induction false} BlankTrimsAway(s: string)
    requires Blank(s)
    ensures TrimSpace(s) == ""
  {
    TrimLeftBlank(s);
  }

  /** Nothing is left to trim. */
  lemma {:induction false} TrimSpaceIsTight(s: string)
    ensures TrimSpace(s) == [] || Tight(TrimSpace(s))
  {
    TrimLeftIsClean(s);
    TrimRightIsClean(TrimLeft(s));
  }

  /** strings.Split for a one-character separator. */
  function Split(s: string, sep: char): (parts: seq<string>)
    ensures |parts| >= 1
  {
    if s == [] then [[]]
    else
      var rest := Split(s[1..], sep);
      if s[0] == sep then [[]] + rest else [[s[0]] + rest[0]] + rest[1..]
  }

  lemma {:induction false} SplitNone(s: string, sep: char)
    requires sep !in s
    ensures Split(s, sep) == [s]
  {
    if s == [] {
    } else {
      SplitNone(s[1..], sep);
      assert s == [s[0]] + s[1..];
    }
  }

  lemma {:induction false} SplitOnce(a: string, sep: char, b: string)
    requires sep !in a
    ensures Split(a + [sep] + b, sep) == [a] + Split(b, sep)
  {
    var s := a + [sep] + b;
    if a == [] {
      assert s[1..] == b;
    } else {
      SplitOnce(a[1..], sep, b);
      assert s[1..] == a[1..] + [sep] + b;
      assert a == [a[0]] + a[1..];
    }
  }

  /** The parts, joined by the separator again, and each without it. */
  function Join(parts: seq<string>, sep: char): string
    requires |parts| >= 1
  {
    if |parts| == 1 then parts[0] else parts[0] + [sep] + Join(parts[1..], sep)
  }

  lemma {:induction false} JoinSplit(s: string, sep: char)
    ensures Join(Split(s, sep), sep) == s
    ensures forall k :: 0 <= k < |Split(s, sep)| ==> sep !in Split(s, sep)[k]
  {
    if s == [] {
    } else {
      JoinSplit(s[1..], sep);
      var rest := Split(s[1..], sep);
      assert s == [s[0]] + s[1..];
      if s[0] == sep {
        assert ([[]] + rest)[1..] == rest;
      } else {
        var parts := [[s[0]] + rest[0]] + rest[1..];
        assert parts[1..] == rest[1..];
        if |rest| > 1 {
          assert [s[0]] + rest[0] + [sep] + Join(rest[1..], sep) == [s[0]] + (rest[0] + [sep] + Join(rest[1..], sep));
        }
      }
    }
  }

  // ---- Decimal digits ----

  predicate IsDigit(c: char) {
    '0' <= c <= '9'
  }

  function DigitValue(c: char): (d: nat)
    requires IsDigit(c)
    ensures d < 10
  {
    c as int - '0' as int
  }

  predicate AllDigits(s: string) {
    forall k :: 0 <= k < |s| ==> IsDigit(s[k])
  }

  function DigitOf(d: nat): (c: char)
    requires d < 10
    ensures IsDigit(c) && DigitValue(c) == d
    ensures c == '0' <==> d == 0
  {
    ('0' as int + d) as char
  }

  /** Digits stand for their places in the usual row. */
  lemma DigitsInOrder(d: nat)
    requires d < 10
    ensures DigitOf(d) == "0123456789"[d]
  {
  }

  /** The number that a string of digits stands for. */
  function ValueOf(s: string): nat
    requires AllDigits(s)
  {
    if s == [] then 0 else 10 * ValueOf(s[..|s| - 1]) + DigitValue(s[|s| - 1])
  }

  /** %d of a non-negative number. */
  function Digits(n: nat): (s: string)
    ensures |s| >= 1 && AllDigits(s)
    ensures |s| == 1 <==> n < 10
    ensures s[0] == '0' <==> n == 0
  {
    if n < 10 then [DigitOf(n)] else Digits(n / 10) + [DigitOf(n % 10)]
  }

  lemma {:induction false} ValueOfDigits(n: nat)
    ensures ValueOf(Digits(n)) == n
  {
    if n < 10 {
      assert Digits(n)[..0] == [];
    } else {
      ValueOfDigits(n / 10);
      assert Digits(n)[..|Digits(n)| - 1] == Digits(n / 10);
    }
  }

  lemma {:induction false} ValueOfAppend(s: string, c: char)
    requires AllDigits(s) && IsDigit(c)
    ensures AllDigits(s + [c]) && ValueOf(s + [c]) == 10 * ValueOf(s) + DigitValue(c)
  {
    assert (s + [c])[..|s|] == s;
  }

  /** %d. */
  function ShowInt(n: int): string {
    if n < 0 then "-" + Digits(-n) else Digits(n)
  }

  /** %02d: at least two characters, the sign included, padded with zeros behind the sign. */
  function ShowPadded(n: int): string {
    if n < 0 then "-" + Digits(-n) else if n < 10 then "0" + Digits(n) else Digits(n)
  }

  // ---- strconv ----

  /** An optional sign and at least one digit. */
  predicate IsSignedDigits(s: string) {
    |s| > 0 && var rest := if s[0] == '-' || s[0] == '+' then s[1..] else s; |rest| > 0 && AllDigits(rest)
  }

  function SignedValue(s: string): int
    requires IsSignedDigits(s)
  {
    if s[0] == '-' then -(ValueOf(s[1..]) as int) else if s[0] == '+' then ValueOf(s[1..]) else ValueOf(s)
  }

  /** strconv.ParseInt(s, 10, 64): a signed decimal number in range, or an error. */
  function ParseInt(s: string): Option<Int64> {
    if IsSignedDigits(s) && FitsInt64(SignedValue(s)) then Some(SignedValue(s)) else None
  }

  lemma {:induction false} ParseDigits(d: string)
    requires |d| >= 1 && AllDigits(d)
    ensures FitsInt64(ValueOf(d)) ==> ParseInt(d) == Some(ValueOf(d))
    ensures FitsInt64(-(ValueOf(d) as int)) ==> ParseInt("-" + d) == Some(-(ValueOf(d) as int))
  {
    assert ("-" + d)[1..] == d;
  }

  /** What %d prints, ParseInt reads back. */
  lemma {:induction false} ParseShown(n: int)
    requires FitsInt64(n)
    ensures ParseInt(ShowInt(n)) == Some(n)
  {
    var m: nat := if n < 0 then -n else n;
    ValueOfDigits(m);
    ParseDigits(Digits(m));
  }

  lemma {:induction false} PadOneDigit(d: string)
    requires |d| == 1 && AllDigits(d)
    ensures AllDigits("0" + d) && ValueOf("0" + d) == ValueOf(d)
  {
    assert "0"[..0] == [] && d[..0] == [];
    ValueOfAppend("0", d[0]);
    assert "0" + d == "0" + [d[0]];
  }

  lemma {:induction false} ParsePadded(n: int)
    requires -10 < n < 100
    ensures ParseInt(ShowPadded(n)) == Some(n)
    ensures |ShowPadded(n)| == 2
  {
    var m: nat := if n < 0 then -n else n;
    ValueOfDigits(m);
    if 0 <= n < 10 {
      PadOneDigit(Digits(m));
      ParseDigits("0" + Digits(m));
    } else {
      ParseDigits(Digits(m));
      assert n >= 10 ==> Digits(m) == Digits(m / 10) + [DigitOf(m % 10)];
    }
  }
}
