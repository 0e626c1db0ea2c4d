/** Amounts in cents and their decimal text (internal/money/money.go). */
module Money {
  import opened Basics
  import opened Text

  const MIN_INT64: Int64 := -TWO_63

  // ---- Go's division truncates toward zero ----

  function TruncDiv(a: int, b: int): int
    requires b > 0
  {
    if a < 0 then -(-a / b) else a / b
  }

  function TruncRem(a: int, b: int): int
    requires b > 0
  {
    a - b * TruncDiv(a, b)
  }

  function Negate(x: Int64): Int64 {
    Wrap(-(x as int))
  }

  // ---- Parsing ----

  /** The fraction after the point, read as cents: one digit counts as tenths. */
  function ParseFraction(f: string): Option<Int64> {
    if f == "" || |f| > 2 then None
    else ParseInt(if |f| == 1 then f + "0" else f)
  }

  /** What is left after trimming and after one leading minus sign. */
  function ParseBody(body: string): Option<Int64> {
    var parts := Split(body, '.');
    if body == "" || |parts| > 2 then None
    else
      var dollars := ParseInt(parts[0]);
      var frac := if |parts| == 2 then ParseFraction(parts[1]) else Some(0);
      if dollars == None || frac == None then None
      else Some(Wrap(Wrap(dollars.value * 100) + frac.value))
  }

  /** A minus sign in front negates what was read. */
  function Signed(negative: bool, cents: Option<Int64>): Option<Int64> {
    if negative && cents.Some? then Some(Negate(cents.value)) else cents
  }

  function ParseTrimmed(s: string): Option<Int64> {
    if s == "" then None
    else if s[0] == '-' then Signed(true, ParseBody(s[1..]))
    else ParseBody(s)
  }

  /** The amount that ParseString reads, None standing for ErrInvalid. */
  function Parse(raw: string): Option<Int64> {
    ParseTrimmed(TrimSpace(raw))
  }

  method ParseString(raw: string) returns (r: Option<Int64>)
    ensures r == Parse(raw)
  {
    var s := TrimSpace(raw);
    if s == "" {
      return None;
    }
    var negative := false;
    if s[0] == '-' {
      negative := true;
      s := s[1..];
    }
    assert Parse(raw) == Signed(negative, ParseBody(s));
    if s == "" {
      return None;
    }
    var parts := Split(s, '.');
    if |parts| > 2 {
      return None;
    }
    var dollars := ParseInt(parts[0]);
    if dollars == None {
      return None;
    }
    var frac: Int64 := 0;
    if |parts| == 2 {
      var fracPart := parts[1];
      if fracPart == "" {
        return None;
      }
      if |fracPart| > 2 {
        return None;
      }
      if |fracPart| == 1 {
        fracPart := fracPart + "0";
      }
      var parsed := ParseInt(fracPart);
      if parsed == None {
        return None;
      }
      frac := parsed.value;
      assert ParseFraction(parts[1]) == Some(frac);
    }
    var cents := Wrap(Wrap(dollars.value * 100) + frac);
    assert ParseBody(s) == Some(cents);
    if negative {
      cents := Negate(cents);
    }
    return Some(cents);
  }

  // ---- Printing ----

  function Magnitude(m: Int64): Int64 {
    if m < 0 then Negate(m) else m
  }

  function Sign(m: Int64): string {
    if m < 0 then "-" else ""
  }

  function Dollars(m: Int64): int {
    TruncDiv(Magnitude(m), 100)
  }

  function Cents(m: Int64): int {
    TruncRem(Magnitude(m), 100)
  }

  /** The fixed two-decimal text, as stored in numeric columns. */
  function Decimal(m: Int64): string {
    Sign(m) + (ShowInt(Dollars(m)) + "." + ShowPadded(Cents(m)))
  }

  /** The JSON text: whole amounts without a fraction. */
  function Marshal(m: Int64): string {
    if Cents(m) == 0 then Sign(m) + ShowInt(Dollars(m)) else Decimal(m)
  }

  // ---- Round trips ----

  /** Splitting the magnitude in dollars and cents, also where negation overflowed. */
  lemma {:induction false} DollarsAndCents(m: Int64)
    ensures Magnitude(m) == Dollars(m) * 100 + Cents(m)
    ensures -10 < Cents(m) < 100 && FitsInt64(Dollars(m)) && FitsInt64(Dollars(m) * 100)
    ensures m != MIN_INT64 ==> Dollars(m) >= 0 && Cents(m) >= 0
    ensures m == MIN_INT64 ==> Dollars(m) == -92233720368547758 && Cents(m) == -8
  {
  }

  lemma {:induction false} NoPoint(s: string)
    requires IsSignedDigits(s)
    ensures '.' !in s
  {
  }

  lemma {:induction false} ShownIsSigned(n: int)
    ensures IsSignedDigits(ShowInt(n)) && Tight(ShowInt(n))
    ensures n >= 0 ==> AllDigits(ShowInt(n))
    ensures ShowInt(n)[0] == '-' <==> n < 0
  {
    if n < 0 {
      assert ShowInt(n)[1..] == Digits(-n);
    }
  }

  lemma {:induction false} PaddedIsSigned(n: int)
    requires -10 < n < 100
    ensures IsSignedDigits(ShowPadded(n)) && Tight(ShowPadded(n))
  {
    ParsePadded(n);
    if n < 0 {
      assert ShowPadded(n)[1..] == Digits(-n);
    } 
  }

  lemma {:induction false} ParseWhole(w: string)
    requires IsSignedDigits(w)
    ensures ParseBody(w) == if FitsInt64(SignedValue(w)) then Some(Wrap(SignedValue(w) * 100)) else None
  {
    NoPoint(w);
    SplitNone(w, '.');
  }

  lemma {:induction false} ParsePoint(w: string, f: string)
    requires '.' !in w && '.' !in f
    ensures ParseBody(w + "." + f)
         == if ParseInt(w) == None || ParseFraction(f) == None then None
            else Some(Wrap(ParseInt(w).value * 100 + ParseFraction(f).value))
  {
    SplitOnce(w, '.', f);
    SplitNone(f, '.');
    if ParseInt(w) != None && ParseFraction(f) != None {
      WrapLeft(ParseInt(w).value * 100, ParseFraction(f).value);
    }
  }

  /** A tight text parses as itself. */
  lemma {:induction false} TightParses(s: string)
    requires Tight(s)
    ensures Parse(s) == ParseTrimmed(s)
  {
    TrimPadding("", s, "");
    assert "" + s + "" == s;
  }

  lemma {:induction false} SignTakenBack(negative: bool, body: string)
    requires |body| >= 1 && (!negative ==> body[0] != '-')
    ensures ParseTrimmed((if negative then "-" else "") + body)
         == if ParseBody(body) == None then None
            else if negative then Some(Negate(ParseBody(body).value)) else ParseBody(body)
  {
    var s := (if negative then "-" else "") + body;
    if negative {
      assert s[1..] == body;
    } else {
      assert s == body;
    }
  }

  lemma {:induction false} MagnitudeSigned(m: Int64)
    ensures m < 0 ==> Negate(Magnitude(m)) == m
  {
  }

  lemma {:induction false} SignedText(m: Int64, body: string)
    requires Tight(body) && ParseBody(body) == Some(Magnitude(m))
    requires m >= 0 ==> body[0] != '-'
    ensures Parse(Sign(m) + body) == Some(m)
  {
    TightParses(Sign(m) + body);
    SignTakenBack(m < 0, body);
    MagnitudeSigned(m);
  }

  lemma {:induction false} PointText(w: string, whole: Int64, f: string, frac: Int64)
    requires ParseInt(w) == Some(whole) && ParseInt(f) == Some(frac) && |f| == 2
    ensures ParseBody(w + "." + f) == Some(Wrap(whole * 100 + frac))
  {
    NoPoint(w);
    NoPoint(f);
    ParsePoint(w, f);
  }

  /** The printed text of a split magnitude is read back with the sign restored. */
  lemma {:induction false} SignedPointText(m: Int64, w: string, whole: Int64, f: string, frac: Int64)
    requires ParseInt(w) == Some(whole) && ParseInt(f) == Some(frac) && |f| == 2
    requires Tight(w) && Tight(f) && (m >= 0 ==> w[0] != '-')
    requires FitsInt64(whole * 100) && Magnitude(m) == whole * 100 + frac
    ensures Parse(Sign(m) + (w + "." + f)) == Some(m)
  {
    PointText(w, whole, f, frac);
    assert Tight(w + "." + f);
    SignedText(m, w + "." + f);
  }

  /** Every amount survives the way to the database and back, the smallest int64 included. */
  lemma {:induction false} DecimalRoundTrip(m: Int64)
    ensures Parse(Decimal(m)) == Some(m)
  {
    DollarsAndCents(m);
    ParseShown(Dollars(m));
    ShownIsSigned(Dollars(m));
    ParsePadded(Cents(m));
    PaddedIsSigned(Cents(m));
    SignedPointText(m, ShowInt(Dollars(m)), Dollars(m), ShowPadded(Cents(m)), Cents(m));
  }

  /** Every amount survives the way through JSON. */
  lemma {:induction false} MarshalRoundTrip(m: Int64)
    ensures Parse(Marshal(m)) == Some(m)
  {
    DollarsAndCents(m);
    if Cents(m) == 0 {
      ParseShown(Dollars(m));
      ShownIsSigned(Dollars(m));
      ParseWhole(ShowInt(Dollars(m)));
      SignedText(m, ShowInt(Dollars(m)));
    } else {
      DecimalRoundTrip(m);
    }
  }

  /** Different amounts have different texts. */
  lemma {:induction false} PrintersAreInjective(m: Int64, n: Int64)
    requires Decimal(m) == Decimal(n) || Marshal(m) == Marshal(n)
    ensures m == n
  {
    DecimalRoundTrip(m);
    DecimalRoundTrip(n);
    MarshalRoundTrip(m);
    MarshalRoundTrip(n);
  }

  // ---- Valid JSON numbers (RFC 8259, section 6) ----

  predicate IsJsonInt(s: string) {
    |s| >= 1 && AllDigits(s) && (s[0] == '0' ==> |s| == 1)
  }

  predicate IsJsonFrac(s: string) {
    s == "" || (|s| >= 2 && s[0] == '.' && AllDigits(s[1..]))
  }

  predicate IsJsonExp(s: string) {
    s == "" || (|s| >= 2 && (s[0] == 'e' || s[0] == 'E')
                && var rest := if s[1] == '+' || s[1] == '-' then s[2..] else s[1..]; |rest| >= 1 && AllDigits(rest))
  }

  predicate IsMinus(s: string) {
    s == "" || s == "-"
  }

  ghost predicate IsJsonNumber(s: string) {
    exists minus, whole, frac, exp :: IsMinus(minus) && IsJsonInt(whole) && IsJsonFrac(frac) && IsJsonExp(exp)
                                      && s == minus + whole + frac + exp
  }

  lemma {:induction false} JsonNumber(minus: string, whole: string, frac: string)
    requires IsMinus(minus) && IsJsonInt(whole) && IsJsonFrac(frac)
    ensures IsJsonNumber(minus + whole + frac)
  {
    assert minus + whole + frac == minus + whole + frac + "";
    assert IsJsonExp("");
  }

  lemma {:induction false} TwoMinusesAreNoNumber(s: string)
    requires |s| >= 2 && s[0] == '-' && s[1] == '-'
    ensures !IsJsonNumber(s)
  {
  }

  lemma {:induction false} WholeIsJson(minus: string, whole: nat)
    requires IsMinus(minus)
    ensures IsJsonNumber(minus + ShowInt(whole))
  {
    ShownIsSigned(whole);
    JsonNumber(minus, ShowInt(whole), "");
    assert minus + ShowInt(whole) + "" == minus + ShowInt(whole);
  }

  lemma {:induction false} PointIsJson(minus: string, whole: string, frac: string)
    requires IsMinus(minus) && IsJsonInt(whole) && |frac| == 2 && AllDigits(frac)
    ensures IsJsonNumber(minus + (whole + "." + frac))
  {
    var f := "." + frac;
    assert f[1..] == frac;
    JsonNumber(minus, whole, f);
    assert minus + whole + f == minus + (whole + "." + frac);
  }

  /** The JSON text is a valid number for every amount but the smallest int64, which prints two minus signs. */
  lemma {:induction false} MarshalIsJson(m: Int64)
    ensures IsJsonNumber(Marshal(m)) <==> m != MIN_INT64
  {
    DollarsAndCents(m);
    if m == MIN_INT64 {
      ShownIsSigned(Dollars(m));
      TwoMinusesAreNoNumber(Marshal(m));
    } else if Cents(m) == 0 {
      WholeIsJson(Sign(m), Dollars(m));
    } else {
      ShownIsSigned(Dollars(m));
      PaddedDigits(Cents(m));
      PointIsJson(Sign(m), ShowInt(Dollars(m)), ShowPadded(Cents(m)));
    }
  }

  lemma {:induction false} PaddedDigits(n: nat)
    requires n < 100
    ensures AllDigits(ShowPadded(n)) && |ShowPadded(n)| == 2
  {
    ParsePadded(n);
  }

  // ---- Exactness of the parser ----

  /** The decimal texts one would write: an optional minus, digits, and at most two digits behind a point. */
  datatype Numeral = Numeral(negative: bool, whole: string, frac: Option<string>)

  predicate Canonical(n: Numeral) {
    && |n.whole| >= 1 && AllDigits(n.whole)
    && (n.frac.Some? ==> 1 <= |n.frac.value| <= 2 && AllDigits(n.frac.value))
  }

  function BodyOf(n: Numeral): string {
    if n.frac == None then n.whole else n.whole + "." + n.frac.value
  }

  function TextOf(n: Numeral): string {
    (if n.negative then "-" else "") + BodyOf(n)
  }

  /** What the fraction of a numeral stands for, in cents. */
  function FractionCents(n: Numeral): nat
    requires Canonical(n)
  {
    if n.frac == None then 0
    else if |n.frac.value| == 1 then 10 * ValueOf(n.frac.value)
    else ValueOf(n.frac.value)
  }

  /** Its exact value in cents, without and with the sign. */
  function MagnitudeOf(n: Numeral): nat
    requires Canonical(n)
  {
    ValueOf(n.whole) * 100 + FractionCents(n)
  }

  function CentsOf(n: Numeral): int
    requires Canonical(n)
  {
    if n.negative then -(MagnitudeOf(n) as int) else MagnitudeOf(n)
  }

  lemma {:induction false} FractionValue(f: string)
    requires 1 <= |f| <= 2 && AllDigits(f)
    ensures ParseFraction(f) == Some(if |f| == 1 then 10 * ValueOf(f) else ValueOf(f))
    ensures (if |f| == 1 then 10 * ValueOf(f) else ValueOf(f)) < 100
  {
    FewDigits(f);
    if |f| == 1 {
      ValueOfAppend(f, '0');
      ParseDigits(f + "0");
    } else {
      ParseDigits(f);
    }
  }

  lemma {:induction false} UnsignedPoint(w: string, f: string, frac: nat)
    requires |w| >= 1 && AllDigits(w) && '.' !in f && ParseFraction(f) == Some(frac)
    ensures ParseBody(w + "." + f) == if ValueOf(w) < TWO_63 then Some(Wrap(ValueOf(w) * 100 + frac)) else None
  {
    NoPoint(w);
    ParseDigits(w);
    ParsePoint(w, f);
  }

  lemma {:induction false} UnsignedBody(n: Numeral)
    requires Canonical(n)
    ensures ParseBody(BodyOf(n)) == if ValueOf(n.whole) < TWO_63 then Some(Wrap(MagnitudeOf(n))) else None
  {
    if n.frac == None {
      ParseWhole(n.whole);
    } else {
      FractionValue(n.frac.value);
      UnsignedPoint(n.whole, n.frac.value, FractionCents(n));
    }
  }

  lemma {:induction false} NegateWrapped(x: int)
    ensures Negate(Wrap(x)) == Wrap(-x)
  {
    var k := WrapQuotient(x);
    WrapCongruent(-(Wrap(x) as int), -x, -k);
  }

  lemma {:induction false} CanonicalBody(n: Numeral)
    requires Canonical(n)
    ensures |BodyOf(n)| >= 1 && IsDigit(BodyOf(n)[0]) && IsDigit(BodyOf(n)[|BodyOf(n)| - 1])
  {
  }

  lemma {:induction false} ParseSigned(lead: string, negative: bool, body: string, trail: string)
    requires |body| >= 1 && !IsSpace(body[0]) && !IsSpace(body[|body| - 1]) && (!negative ==> body[0] != '-')
    requires Blank(lead) && Blank(trail)
    ensures Parse(lead + ((if negative then "-" else "") + body) + trail)
         == if ParseBody(body) == None then None
            else if negative then Some(Negate(ParseBody(body).value)) else ParseBody(body)
  {
    TrimPadding(lead, (if negative then "-" else "") + body, trail);
    SignTakenBack(negative, body);
  }

  /**
   * On canonical text, padded or not, the parser is exact up to int64 wrap-around: it fails when
   * the whole part alone does not fit, and otherwise returns the exact number of cents, wrapped.
   */
  lemma {:induction false} ParseCanonical(n: Numeral, lead: string, trail: string)
    requires Canonical(n) && Blank(lead) && Blank(trail)
    ensures Parse(lead + TextOf(n) + trail)
         == if ValueOf(n.whole) < TWO_63 then Some(Wrap(CentsOf(n))) else None
  {
    CanonicalBody(n);
    ParseSigned(lead, n.negative, BodyOf(n), trail);
    UnsignedBody(n);
    SignOfCents(n);
  }

  lemma {:induction false} SignOfCents(n: Numeral)
    requires Canonical(n)
    ensures Wrap(CentsOf(n)) == if n.negative then Negate(Wrap(MagnitudeOf(n))) else Wrap(MagnitudeOf(n))
  {
    NegateWrapped(MagnitudeOf(n));
  }

  /** Canonical text is read exactly if and only if its value in cents fits an int64. */
  lemma {:induction false} ParseExactIffFits(n: Numeral, lead: string, trail: string)
    requires Canonical(n) && Blank(lead) && Blank(trail)
    ensures Parse(lead + TextOf(n) + trail) == Some(CentsOf(n)) <==> FitsInt64(CentsOf(n))
  {
    ParseCanonical(n, lead, trail);
    if n.frac.Some? {
      FractionValue(n.frac.value);
    }
  }

  /** Where the magnitude fits, nothing wraps on the way either. */
  lemma {:induction false} NoIntermediateWrap(n: Numeral)
    requires Canonical(n) && FitsInt64(MagnitudeOf(n))
    ensures FitsInt64(ValueOf(n.whole)) && FitsInt64(ValueOf(n.whole) * 100) && FitsInt64(-CentsOf(n))
  {
    if n.frac.Some? {
      FractionValue(n.frac.value);
    }
  }

  /** Cents that are left out are zeros: 12 reads as 12.00, and 12.5 as 12.50. */
  lemma {:induction false} MissingCentsAreZero(n: Numeral, full: string)
    requires Canonical(n) && full == TextOf(n) + if n.frac == None then ".00" else "0"
    requires n.frac.Some? ==> |n.frac.value| == 1
    ensures Parse(full) == Parse(TextOf(n))
  {
    var m := n.(frac := Some(if n.frac == None then "00" else n.frac.value + "0"));
    assert full == TextOf(m);
    SameCents(n, m);
    ParseBare(n);
    ParseBare(m);
  }

  lemma {:induction false} ParseBare(n: Numeral)
    requires Canonical(n)
    ensures Parse(TextOf(n)) == if ValueOf(n.whole) < TWO_63 then Some(Wrap(CentsOf(n))) else None
  {
    ParseCanonical(n, "", "");
    assert "" + TextOf(n) + "" == TextOf(n);
  }

  lemma {:induction false} SameCents(n: Numeral, m: Numeral)
    requires Canonical(n) && Canonical(m) && m.whole == n.whole && m.negative == n.negative
    requires m.frac == Some(if n.frac == None then "00" else n.frac.value + "0")
    ensures CentsOf(m) == CentsOf(n)
  {
    if n.frac == None {
      ValueOfAppend("", '0');
      ValueOfAppend("0", '0');
      assert "" + "0" == "0" && "0" + "0" == "00";
    } else {
      ValueOfAppend(n.frac.value, '0');
    }
  }

  // ---- What is accepted ----

  /** A fraction that the parser takes: one or two characters that are a number once filled up. */
  predicate IsFraction(f: string) {
    1 <= |f| <= 2 && IsSignedDigits(if |f| == 1 then f + "0" else f)
  }

  /** A body that the parser takes. */
  ghost predicate Readable(body: string) {
    || (IsSignedDigits(body) && FitsInt64(SignedValue(body)))
    || exists w, f :: body == w + "." + f && IsSignedDigits(w) && FitsInt64(SignedValue(w)) && IsFraction(f)
  }

  lemma {:induction false} FractionReadable(f: string)
    ensures ParseFraction(f) != None <==> IsFraction(f)
  {
    if IsFraction(f) {
      var g := if |f| == 1 then f + "0" else f;
      SmallValue(g);
    }
  }

  lemma {:induction false} FewDigits(s: string)
    requires 1 <= |s| <= 2 && AllDigits(s)
    ensures ValueOf(s) < if |s| == 1 then 10 else 100
  {
    assert "" + [s[0]] == [s[0]];
    ValueOfAppend("", s[0]);
    if |s| == 2 {
      ValueOfAppend([s[0]], s[1]);
      assert s == [s[0]] + [s[1]];
    } else {
      assert s == [s[0]];
    }
  }

  lemma {:induction false} SmallValue(g: string)
    requires |g| <= 2 && IsSignedDigits(g)
    ensures -100 < SignedValue(g) < 100
  {
    FewDigits(if g[0] == '-' || g[0] == '+' then g[1..] else g);
  }

  lemma {:induction false} ReadableIsParsed(body: string)
    requires Readable(body)
    ensures ParseBody(body) != None
  {
    if IsSignedDigits(body) && FitsInt64(SignedValue(body)) {
      ParseWhole(body);
    } else {
      var w, f :| body == w + "." + f && IsSignedDigits(w) && FitsInt64(SignedValue(w)) && IsFraction(f);
      NoPoint(w);
      NoPoint(if |f| == 1 then f + "0" else f);
      FractionReadable(f);
      ParsePoint(w, f);
    }
  }

  lemma {:induction false} ParsedIsReadable(body: string)
    requires ParseBody(body) != None
    ensures Readable(body)
  {
    var parts := Split(body, '.');
    JoinSplit(body, '.');
    if |parts| == 1 {
      assert body == parts[0];
    } else {
      assert parts[1..] == [parts[1]];
      assert body == parts[0] + "." + parts[1];
      FractionReadable(parts[1]);
    }
  }

  /**
   * Exactly what ParseString accepts: after trimming, an optional minus, a signed number in range,
   * and possibly a point with one or two characters that read as a number. Everything else is
   * rejected: empty parts, a second point, three or more fraction digits.
   */
  lemma {:induction false} AcceptedExactly(raw: string)
    ensures var s := TrimSpace(raw);
      Parse(raw) != None <==> s != "" && Readable(if s[0] == '-' then s[1..] else s)
  {
    var s := TrimSpace(raw);
    if s != "" {
      var body := if s[0] == '-' then s[1..] else s;
      if Readable(body) {
        ReadableIsParsed(body);
      }
      if ParseBody(body) != None {
        ParsedIsReadable(body);
      }
    }
  }

  /** A number, and possibly a point and a fraction behind it. */
  function Joined(w: string, f: Option<string>): string {
    if f == None then w else w + "." + f.value
  }

  /** What the parser makes of the fraction: one character counts as tenths, and a sign counts. */
  function FractionOf(f: Option<string>): int
    requires f.Some? ==> IsFraction(f.value)
  {
    if f == None then 0 else SignedValue(if |f.value| == 1 then f.value + "0" else f.value)
  }

  lemma {:induction false} FractionParses(f: string)
    requires IsFraction(f)
    ensures '.' !in f && ParseFraction(f) == Some(FractionOf(Some(f)))
  {
    var g := if |f| == 1 then f + "0" else f;
    NoPoint(g);
    SmallValue(g);
    assert '.' in f ==> '.' in g;
  }

  lemma {:induction false} JoinedValue(w: string, f: Option<string>)
    requires IsSignedDigits(w) && FitsInt64(SignedValue(w)) && (f.Some? ==> IsFraction(f.value))
    ensures ParseBody(Joined(w, f)) == Some(Wrap(SignedValue(w) * 100 + FractionOf(f)))
  {
    if f == None {
      ParseWhole(w);
    } else {
      NoPoint(w);
      FractionParses(f.value);
      ParsePoint(w, f.value);
    }
  }

  /**
   * The value of every accepted text: a hundred times the whole part, with its own sign, plus the
   * fraction, with its own sign, the sum negated behind a leading minus; wrapped once.
   */
  lemma {:induction false} ValueOfAccepted(raw: string, w: string, f: Option<string>)
    requires IsSignedDigits(w) && FitsInt64(SignedValue(w)) && (f.Some? ==> IsFraction(f.value))
    requires var s := TrimSpace(raw); s != "" && Joined(w, f) == if s[0] == '-' then s[1..] else s
    ensures var cents := SignedValue(w) * 100 + FractionOf(f);
      Parse(raw) == Some(Wrap(if TrimSpace(raw)[0] == '-' then -cents else cents))
  {
    JoinedValue(w, f);
    NegateWrapped(SignedValue(w) * 100 + FractionOf(f));
  }

  lemma {:induction false} OnePoint(v: string, g: string, w: string, f: string)
    requires v + "." + g == w + "." + f
    requires '.' !in v && '.' !in w
    ensures v == w && g == f
  {
    var s := v + "." + g;
    assert s[|v|] == '.' && s[|w|] == '.';
    assert forall k :: 0 <= k < |v| ==> s[k] == v[k];
    assert forall k :: 0 <= k < |w| ==> s[k] == w[k];
    assert |v| == |w|;
    assert v == s[..|v|] && g == s[|v| + 1..];
    assert w == s[..|v|] && f == s[|v| + 1..];
  }

  /** Second points, empty fractions and long fractions are never readable. */
  lemma {:induction false} MalformedIsRejected(body: string, w: string, f: string)
    requires body == w + "." + f && '.' !in w
    requires f == "" || |f| > 2 || '.' in f || w == ""
    ensures !Readable(body)
  {
    assert body[|w|] == '.';
    if IsSignedDigits(body) {
      NoPoint(body);
    }
    forall v, g | body == v + "." + g && IsSignedDigits(v) && IsFraction(g) ensures v == w && g == f {
      NoPoint(v);
      NoPoint(if |g| == 1 then g + "0" else g);
      OnePoint(v, g, w, f);
    }
  }

  lemma {:induction false} NegativeParses(w: string)
    requires |w| >= 1 && AllDigits(w)
    ensures IsSignedDigits("-" + w) && SignedValue("-" + w) == -(ValueOf(w) as int)
    ensures ParseInt("-" + w) == if ValueOf(w) <= TWO_63 then Some(-(ValueOf(w) as int)) else None
  {
    assert ("-" + w)[1..] == w;
  }

  lemma {:induction false} NegativePoint(w: string, f: string, frac: nat)
    requires |w| >= 1 && AllDigits(w) && '.' !in f && ParseFraction(f) == Some(frac)
    ensures ParseBody("-" + (w + "." + f))
         == if ValueOf(w) <= TWO_63 then Some(Wrap(frac - ValueOf(w) * 100)) else None
  {
    assert "-" + (w + "." + f) == "-" + w + "." + f;
    NegativeParses(w);
    NoPoint("-" + w);
    ParsePoint("-" + w, f);
  }

  lemma {:induction false} NegativeBody(n: Numeral)
    requires Canonical(n)
    ensures ParseBody("-" + BodyOf(n))
         == if ValueOf(n.whole) <= TWO_63 then Some(Wrap(FractionCents(n) - ValueOf(n.whole) * 100)) else None
  {
    if n.frac == None {
      NegativeParses(n.whole);
      ParseWhole("-" + n.whole);
    } else {
      FractionValue(n.frac.value);
      NegativePoint(n.whole, n.frac.value, FractionCents(n));
    }
  }

  lemma {:induction false} DoubleMinus(n: Numeral)
    requires Canonical(n) && n.negative
    ensures Tight("-" + TextOf(n))
    ensures ParseTrimmed("-" + TextOf(n))
         == if ValueOf(n.whole) <= TWO_63 then Some(Wrap(ValueOf(n.whole) * 100 - FractionCents(n))) else None
  {
    CanonicalBody(n);
    NegativeBody(n);
    SignTakenBack(true, "-" + BodyOf(n));
    NegateWrapped(FractionCents(n) - ValueOf(n.whole) * 100);
  }

  /**
   * A second minus sign gets through. It takes the first one back for the whole part only, so that
   * --5.25 is 475 cents.
   */
  lemma {:induction false} SignInFront(n: Numeral, lead: string, trail: string)
    requires Canonical(n) && n.negative && Blank(lead) && Blank(trail)
    ensures Parse(lead + ("-" + TextOf(n)) + trail)
         == if ValueOf(n.whole) <= TWO_63 then Some(Wrap(ValueOf(n.whole) * 100 - FractionCents(n))) else None
  {
    DoubleMinus(n);
    TrimPadding(lead, "-" + TextOf(n), trail);
  }

  lemma {:induction false} MinusBehindPoint(w: string, d: string)
    requires |w| >= 1 && AllDigits(w) && |d| == 1 && AllDigits(d)
    ensures ParseBody(w + "." + ("-" + d))
         == if ValueOf(w) < TWO_63 then Some(Wrap(ValueOf(w) * 100 - ValueOf(d))) else None
  {
    FewDigits(d);
    NegativeParses(d);
    NoPoint("-" + d);
    NoPoint(w);
    ParseDigits(w);
    ParsePoint(w, "-" + d);
  }

  /** A minus sign behind the point gets through too: 1.-5 is 95 cents, and -1.-5 is -95. */
  lemma {:induction false} SignBehindPoint(negative: bool, w: string, d: string, lead: string, trail: string)
    requires |w| >= 1 && AllDigits(w) && |d| == 1 && AllDigits(d) && Blank(lead) && Blank(trail)
    ensures var cents := ValueOf(w) * 100 - ValueOf(d);
      Parse(lead + ((if negative then "-" else "") + (w + "." + ("-" + d))) + trail)
      == if ValueOf(w) < TWO_63 then Some(Wrap(if negative then -cents else cents)) else None
  {
    MinusBehindPoint(w, d);
    ParseSigned(lead, negative, w + "." + ("-" + d), trail);
    NegateWrapped(ValueOf(w) * 100 - ValueOf(d));
  }

  lemma {:induction false} TwoDigits(a: char, b: char)
    requires IsDigit(a) && IsDigit(b)
    ensures AllDigits([a, b]) && ValueOf([a, b]) == 10 * DigitValue(a) + DigitValue(b)
  {
    ValueOfAppend([], a);
    ValueOfAppend([a], b);
    assert [] + [a] == [a] && [a] + [b] == [a, b];
  }

  lemma {:induction false} UnsignedText(body: string, cents: Int64)
    requires Tight(body) && body[0] != '-' && ParseBody(body) == Some(cents)
    ensures Parse(body) == Some(cents)
  {
    TightParses(body);
  }

  /** Two digits, a point and two digits. */
  lemma {:induction false} PlainAmount(a: char, b: char, x: char, y: char)
    requires IsDigit(a) && IsDigit(b) && IsDigit(x) && IsDigit(y)
    ensures Parse([a, b] + "." + [x, y])
         == Some(1000 * DigitValue(a) + 100 * DigitValue(b) + 10 * DigitValue(x) + DigitValue(y))
  {
    var s := [a, b] + "." + [x, y];
    TwoDigits(a, b);
    TwoDigits(x, y);
    ParseDigits([a, b]);
    ParseDigits([x, y]);
    PointText([a, b], ValueOf([a, b]), [x, y], ValueOf([x, y]));
    UnsignedText(s, 100 * ValueOf([a, b]) + ValueOf([x, y]));
  }

  // ---- Padding, on literal characters ----

  lemma {:induction false} CanonicalIsTight(n: Numeral)
    requires Canonical(n)
    ensures Tight(TextOf(n)) && "" + TextOf(n) + "" == TextOf(n)
  {
    CanonicalBody(n);
  }

  /** Any number of blanks, tabs and line ends around a canonical number makes no difference. */
  lemma {:induction false} PaddingIsIgnored(n: Numeral, lead: string, trail: string)
    requires Canonical(n)
    requires forall k :: 0 <= k < |lead| ==>
      lead[k] == ' ' || lead[k] == '\t' || lead[k] == '\n' || lead[k] == '\r'
    requires forall k :: 0 <= k < |trail| ==>
      trail[k] == ' ' || trail[k] == '\t' || trail[k] == '\n' || trail[k] == '\r'
    ensures Parse(lead + TextOf(n) + trail) == Parse(TextOf(n))
    ensures FitsInt64(CentsOf(n)) ==> Parse(lead + TextOf(n) + trail) == Some(CentsOf(n))
  {
    PlainSpacesAreBlank(lead);
    PlainSpacesAreBlank(trail);
    CanonicalIsTight(n);
    ParseCanonical(n, lead, trail);
    ParseCanonical(n, "", "");
    ParseExactIffFits(n, lead, trail);
  }

  /** A text of nothing but blanks, tabs and line ends, or of nothing at all, is no amount. */
  lemma {:induction false} BlankIsNoAmount(s: string)
    requires forall k :: 0 <= k < |s| ==> s[k] == ' ' || s[k] == '\t' || s[k] == '\n' || s[k] == '\r'
    ensures Parse(s) == None
  {
    PlainSpacesAreBlank(s);
    BlankTrimsAway(s);
  }

  /** A visible character around a number is not trimmed away: the number is refused. */
  lemma {:induction false} VisibleIsNotPadding(c: char, d: char)
    requires 33 <= c as int <= 126 && !IsDigit(c) && c != '+' && c != '-' && IsDigit(d)
    ensures Parse([c, d]) == None && Parse([d, c]) == None
  {
    AsciiSpaces(c);
    TightParses([c, d]);
    TightParses([d, c]);
    assert [c, d][0] == c && [d, c][1] == c;
    UnreadablePair(c, d);
  }

  lemma {:induction false} UnreadablePair(c: char, d: char)
    requires !IsDigit(c) && c != '+' && c != '-' && IsDigit(d)
    ensures ParseBody([c, d]) == None && ParseBody([d, c]) == None
  {
    if c == '.' {
      assert "" + "." + [d] == [c, d] && [d] + "." + "" == [d, c];
      ParsePoint("", [d]);
      ParsePoint([d], "");
    } else {
      SplitNone([c, d], '.');
      SplitNone([d, c], '.');
      assert [c, d][0] == c && [d, c][1] == c;
    }
  }

  /** A leading plus sign is accepted and changes nothing, padded or not. */
  lemma {:induction false} PlusIsIgnored(n: Numeral, lead: string, trail: string)
    requires Canonical(n) && !n.negative && Blank(lead) && Blank(trail)
    ensures Parse(lead + ("+" + TextOf(n)) + trail) == Parse(lead + TextOf(n) + trail)
  {
    CanonicalBody(n);
    PlusBody(n);
    ParseSigned(lead, false, "+" + BodyOf(n), trail);
    ParseSigned(lead, false, BodyOf(n), trail);
    UnsignedTexts(n);
  }

  lemma {:induction false} UnsignedTexts(n: Numeral)
    requires !n.negative
    ensures TextOf(n) == BodyOf(n) && "" + BodyOf(n) == BodyOf(n) && "" + ("+" + BodyOf(n)) == "+" + TextOf(n)
  {
  }

  lemma {:induction false} PlusParses(w: string)
    requires |w| >= 1 && AllDigits(w)
    ensures IsSignedDigits("+" + w) && SignedValue("+" + w) == ValueOf(w) && ParseInt("+" + w) == ParseInt(w)
  {
    assert ("+" + w)[1..] == w;
  }

  lemma {:induction false} PlusBody(n: Numeral)
    requires Canonical(n)
    ensures ParseBody("+" + BodyOf(n)) == ParseBody(BodyOf(n))
  {
    PlusParses(n.whole);
    if n.frac == None {
      ParseWhole("+" + n.whole);
      ParseWhole(n.whole);
    } else {
      var f := n.frac.value;
      assert "+" + (n.whole + "." + f) == "+" + n.whole + "." + f;
      NoPoint("+" + n.whole);
      NoPoint(n.whole);
      ParsePoint("+" + n.whole, f);
      ParsePoint(n.whole, f);
    }
  }

  // ---- The shape of the printed texts ----

  /** Digits that stand for a number, without leading zeros. */
  ghost predicate IsNumeral(w: string, value: int) {
    |w| >= 1 && AllDigits(w) && ValueOf(w) == value && (w[0] == '0' ==> |w| == 1)
  }

  lemma {:induction false} ShownValue(n: nat)
    ensures IsNumeral(ShowInt(n), n)
  {
    ValueOfDigits(n);
  }

  lemma {:induction false} PaddedValue(n: nat)
    requires n < 100
    ensures |ShowPadded(n)| == 2 && AllDigits(ShowPadded(n)) && ValueOf(ShowPadded(n)) == n
  {
    ParsePadded(n);
  }

  lemma {:induction false} PartsOf(m: Int64)
    requires m != MIN_INT64
    ensures var a := if m < 0 then -m else m;
      0 <= Cents(m) < 100 && Dollars(m) >= 0 && Dollars(m) == a / 100 && Cents(m) == a % 100
  {
  }

  /** The decimal text: a minus for negative amounts, the whole units, a point, and exactly two digits for the cents. */
  lemma {:induction false} DecimalShape(m: Int64) returns (w: string, f: string)
    requires m != MIN_INT64
    ensures var a := if m < 0 then -m else m;
      && IsNumeral(w, a / 100)
      && |f| == 2 && AllDigits(f) && ValueOf(f) == a % 100
      && Decimal(m) == (if m < 0 then "-" else "") + (w + "." + f)
  {
    PartsOf(m);
    w, f := ShowInt(Dollars(m)), ShowPadded(Cents(m));
    ShownValue(Dollars(m));
    PaddedValue(Cents(m));
  }

  /** The JSON text is the decimal text, but for the point and the zeros of a whole amount. */
  lemma {:induction false} MarshalShape(m: Int64) returns (w: string, f: string)
    requires m != MIN_INT64
    ensures var a := if m < 0 then -m else m;
      && IsNumeral(w, a / 100)
      && |f| == 2 && AllDigits(f) && ValueOf(f) == a % 100
      && Marshal(m) == (if m < 0 then "-" else "") + (if a % 100 == 0 then w else w + "." + f)
  {
    PartsOf(m);
    w, f := ShowInt(Dollars(m)), ShowPadded(Cents(m));
    ShownValue(Dollars(m));
    PaddedValue(Cents(m));
  }
}
