/** The order of UUIDs: as numbers, as the bytes a database compares, and as the text Go compares. */
module Ordering {
  import opened Basics

  /** Lexicographic order on sequences of codes. */
  predicate Below(a: seq<int>, b: seq<int>) {
    |b| > 0 && (|a| == 0 || a[0] < b[0] || (a[0] == b[0] && Below(a[1..], b[1..])))
  }

  lemma {:induction false} BelowConcat(a: seq<int>, c: seq<int>, b: seq<int>, d: seq<int>)
    requires |a| == |b|
    ensures Below(a + c, b + d) <==> Below(a, b) || (a == b && Below(c, d))
    decreases |a|
  {
    if a == [] {
      assert a + c == c && b + d == d;
    } else {
      assert (a + c)[1..] == a[1..] + c && (b + d)[1..] == b[1..] + d;
      BelowConcat(a[1..], c, b[1..], d);
      assert a == b <==> a[0] == b[0] && a[1..] == b[1..] by {
        assert a == [a[0]] + a[1..] && b == [b[0]] + b[1..];
      }
    }
  }

  // ---- Hexadecimal numerals of fixed width ----

  function Power16(n: nat): nat {
    if n == 0 then 1 else 16 * Power16(n - 1)
  }

  predicate AreHex(digits: seq<int>) {
    forall k :: 0 <= k < |digits| ==> 0 <= digits[k] < 16
  }

  /** The n hexadecimal digits of u, most significant first. */
  function HexDigits(u: nat, n: nat): (r: seq<int>)
    ensures |r| == n && AreHex(r)
  {
    if n == 0 then [] else HexDigits(u / 16, n - 1) + [u % 16]
  }

  lemma AppendCompare(a: seq<int>, x: int, b: seq<int>, y: int)
    requires |a| == |b|
    ensures Below(a + [x], b + [y]) <==> Below(a, b) || (a == b && x < y)
    ensures a + [x] == b + [y] <==> a == b && x == y
  {
    BelowConcat(a, [x], b, [y]);
    assert [x][1..] == [] && [y][1..] == [];
    assert (a + [x])[..|a|] == a && (b + [y])[..|b|] == b;
    assert (a + [x])[|a|] == x && (b + [y])[|b|] == y;
  }

  /** Numerals of equal width compare like the numbers they stand for. */
  lemma {:induction false} HexDigitsCompare(u: nat, v: nat, n: nat)
    requires u < Power16(n) && v < Power16(n)
    ensures Below(HexDigits(u, n), HexDigits(v, n)) <==> u < v
    ensures HexDigits(u, n) == HexDigits(v, n) <==> u == v
  {
    if n == 0 {
    } else {
      HexDigitsCompare(u / 16, v / 16, n - 1);
      AppendCompare(HexDigits(u / 16, n - 1), u % 16, HexDigits(v / 16, n - 1), v % 16);
    }
  }

  /** The bytes that pairs of hexadecimal digits make. */
  function Octets(digits: seq<int>): seq<int> {
    if |digits| < 2 then [] else [16 * digits[0] + digits[1]] + Octets(digits[2..])
  }

  lemma {:induction false} OctetsCompare(a: seq<int>, b: seq<int>)
    requires |a| == |b| && |a| % 2 == 0 && AreHex(a) && AreHex(b)
    ensures Below(Octets(a), Octets(b)) <==> Below(a, b)
    decreases |a|
  {
    if a == [] {
    } else {
      assert Octets(a)[1..] == Octets(a[2..]) && Octets(b)[1..] == Octets(b[2..]);
      OctetsCompare(a[2..], b[2..]);
      assert a[1..][1..] == a[2..] && b[1..][1..] == b[2..];
    }
  }

  // ---- Hyphens ----

  const HYPHEN: int := 45

  /** Hyphens behind groups of the given sizes. */
  function Grouped(a: seq<int>, sizes: seq<nat>): seq<int>
    requires Total(sizes) <= |a|
  {
    if sizes == [] then a
    else a[..sizes[0]] + ([HYPHEN] + Grouped(a[sizes[0]..], sizes[1..]))
  }

  function Total(sizes: seq<nat>): nat {
    if sizes == [] then 0 else sizes[0] + Total(sizes[1..])
  }

  /** Hyphens at fixed places change no comparison. */
  lemma {:induction false} GroupedCompare(a: seq<int>, b: seq<int>, sizes: seq<nat>)
    requires |a| == |b| && Total(sizes) <= |a|
    ensures Below(Grouped(a, sizes), Grouped(b, sizes)) <==> Below(a, b)
    decreases |sizes|
  {
    if sizes == [] {
    } else {
      var k := sizes[0];
      var a', b' := Grouped(a[k..], sizes[1..]), Grouped(b[k..], sizes[1..]);
      GroupedCompare(a[k..], b[k..], sizes[1..]);
      BelowConcat([HYPHEN], a', [HYPHEN], b');
      BelowConcat(a[..k], [HYPHEN] + a', b[..k], [HYPHEN] + b');
      BelowConcat(a[..k], a[k..], b[..k], b[k..]);
      assert a[..k] + a[k..] == a && b[..k] + b[k..] == b;
      assert [HYPHEN][1..] == [];
    }
  }

  // ---- UUIDs ----

  /** The 32 hexadecimal digits of a UUID. */
  function UuidDigits(u: Uuid): (r: seq<int>)
    ensures |r| == 32 && AreHex(r)
  {
    HexDigits(u, 32)
  }

  /** The sixteen bytes, most significant first. */
  function Bytes(u: Uuid): seq<int> {
    Octets(UuidDigits(u))
  }

  /** The character code of a lowercase hexadecimal digit. */
  function HexCode(d: int): int {
    if d < 10 then 48 + d else 87 + d
  }

  function HexCodes(digits: seq<int>): (r: seq<int>)
    ensures |r| == |digits|
  {
    seq(|digits|, k requires 0 <= k < |digits| => HexCode(digits[k]))
  }

  lemma GroupsFit()
    ensures Total([8, 4, 4, 4]) == 20
  {
    assert [8, 4, 4, 4][1..] == [4, 4, 4] && [4, 4, 4][1..] == [4, 4] && [4, 4][1..] == [4] && [4][1..] == [];
  }

  /** The canonical text, as character codes: 32 lowercase digits in groups of 8-4-4-4-12. */
  function TextCodes(u: Uuid): seq<int> {
    GroupsFit();
    Grouped(HexCodes(UuidDigits(u)), [8, 4, 4, 4])
  }

  lemma {:induction false} HexCompare(a: seq<int>, b: seq<int>)
    requires |a| == |b| && AreHex(a) && AreHex(b)
    ensures Below(HexCodes(a), HexCodes(b)) <==> Below(a, b)
    decreases |a|
  {
    if a == [] {
    } else {
      assert HexCodes(a)[1..] == HexCodes(a[1..]) && HexCodes(b)[1..] == HexCodes(b[1..]);
      HexCompare(a[1..], b[1..]);
    }
  }

  const LOWERCASE_HEX := "0123456789abcdef"

  function Value16(digits: seq<int>): int {
    if digits == [] then 0 else 16 * Value16(digits[..|digits| - 1]) + digits[|digits| - 1]
  }

  lemma {:induction false} HexDigitsValue(u: nat, n: nat)
    requires u < Power16(n)
    ensures Value16(HexDigits(u, n)) == u
  {
    if n == 0 {
    } else {
      HexDigitsValue(u / 16, n - 1);
      assert HexDigits(u, n)[..n - 1] == HexDigits(u / 16, n - 1);
    }
  }

  lemma FourGroups(a: seq<int>)
    requires |a| == 32
    ensures Total([8, 4, 4, 4]) == 20
    ensures Grouped(a, [8, 4, 4, 4])
         == a[..8] + [HYPHEN] + a[8..12] + [HYPHEN] + a[12..16] + [HYPHEN] + a[16..20] + [HYPHEN] + a[20..]
  {
    GroupsFit();
    var b, c, d, e := a[8..], a[12..], a[16..], a[20..];
    assert [8, 4, 4, 4][1..] == [4, 4, 4] && [4, 4, 4][1..] == [4, 4] && [4, 4][1..] == [4] && [4][1..] == [];
    assert b[4..] == c && c[4..] == d && d[4..] == e;
    assert Grouped(e, []) == e;
    assert Grouped(d, [4]) == d[..4] + ([HYPHEN] + e);
    assert Grouped(c, [4, 4]) == c[..4] + ([HYPHEN] + Grouped(d, [4]));
    assert Grouped(b, [4, 4, 4]) == b[..4] + ([HYPHEN] + Grouped(c, [4, 4]));
    assert b[..4] == a[8..12] && c[..4] == a[12..16] && d[..4] == a[16..20];
  }

  lemma {:induction false} OctetAt(digits: seq<int>, k: nat)
    requires |digits| % 2 == 0 && 2 * k + 1 < |digits|
    ensures |Octets(digits)| == |digits| / 2
    ensures Octets(digits)[k] == 16 * digits[2 * k] + digits[2 * k + 1]
  {
    if k == 0 {
      OctetCount(digits);
    } else {
      OctetAt(digits[2..], k - 1);
    }
  }

  lemma {:induction false} OctetCount(digits: seq<int>)
    requires |digits| % 2 == 0
    ensures |Octets(digits)| == |digits| / 2
  {
    if digits == [] {
    } else {
      OctetCount(digits[2..]);
    }
  }

  /**
   * The canonical text of a UUID: its 32 hexadecimal digits, which stand for its number, with
   * hyphens behind the first 8, 12, 16 and 20.
   */
  lemma TextIsCanonical(u: Uuid)
    ensures Value16(UuidDigits(u)) == u
    ensures var codes := HexCodes(UuidDigits(u));
      && TextCodes(u) == codes[..8] + [HYPHEN] + codes[8..12] + [HYPHEN] + codes[12..16] + [HYPHEN]
                         + codes[16..20] + [HYPHEN] + codes[20..]
      && HYPHEN == '-' as int
  {
    Powers();
    HexDigitsValue(u, 32);
    FourGroups(HexCodes(UuidDigits(u)));
  }

  /** The digits are written in lowercase. */
  lemma DigitsAreLowercase(u: Uuid, k: nat)
    requires k < 32
    ensures 0 <= UuidDigits(u)[k] < 16
    ensures HexCodes(UuidDigits(u))[k] == LOWERCASE_HEX[UuidDigits(u)[k]] as int
  {
  }

  /** The sixteen bytes are the digits in pairs. */
  lemma BytesArePairs(u: Uuid, k: nat)
    requires k < 16
    ensures |Bytes(u)| == 16 && Bytes(u)[k] == 16 * UuidDigits(u)[2 * k] + UuidDigits(u)[2 * k + 1]
  {
    OctetAt(UuidDigits(u), k);
  }

  lemma Powers()
    ensures Power16(32) == TWO_128
  {
    assert Power16(8) == 0x1_0000_0000;
    assert Power16(16) == 0x1_0000_0000_0000_0000;
    assert Power16(24) == 0x1_0000_0000_0000_0000_0000_0000;
  }

  /** Byte order and text order of UUIDs are the same order, that of the numbers. */
  lemma UuidOrders(u: Uuid, v: Uuid)
    ensures Below(Bytes(u), Bytes(v)) <==> u < v
    ensures Below(TextCodes(u), TextCodes(v)) <==> u < v
  {
    Powers();
    HexDigitsCompare(u, v, 32);
    OctetsCompare(UuidDigits(u), UuidDigits(v));
    HexCompare(UuidDigits(u), UuidDigits(v));
    GroupsFit();
    GroupedCompare(HexCodes(UuidDigits(u)), HexCodes(UuidDigits(v)), [8, 4, 4, 4]);
  }
}
