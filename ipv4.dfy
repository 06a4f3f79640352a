/** IPv4 addresses as four raw bytes: their numeric ordering (the byte-wise
    comparison a range check uses) and their dotted-decimal text form
    (the form `net.ParseIP` reads). */
module Ipv4 {
  import opened Wrappers
  import opened Text

  type byte = x: int | 0 <= x < 256
  type Ip = s: seq<byte> | |s| == 4 witness [0, 0, 0, 0]

  function Pow256(n: nat): (p: nat)
    ensures p >= 1
  {
    if n == 0 then 1 else 256 * Pow256(n - 1)
  }

  /** The number a byte string denotes, most significant byte first. */
  function Value(s: seq<byte>): nat
    decreases |s|
  {
    if s == [] then 0 else s[0] * Pow256(|s| - 1) + Value(s[1..])
  }

  /** A smaller leading byte means a smaller value, whatever follows. */
  lemma LeadingByteDecides(x: int, y: int, p: nat, u: nat, v: nat)
    requires x < y && u < p
    ensures x * p + u < y * p + v
  {
    var d := y - x - 1;
    assert d >= 0;
    assert d * p >= 0;
    assert y * p == x * p + d * p + p;
  }

  lemma {:induction false} ValueBound(s: seq<byte>)
    ensures Value(s) < Pow256(|s|)
    decreases |s|
  {
    if s != [] {
      ValueBound(s[1..]);
      LeadingByteDecides(s[0], 256, Pow256(|s| - 1), Value(s[1..]), 0);
    }
  }

  /** Byte-wise comparison from the most significant byte: negative, zero or
      positive as `a` sorts before, equal to or after `b`. */
  function Compare(a: seq<byte>, b: seq<byte>): int
    requires |a| == |b|
    decreases |a|
  {
    if a == [] then 0
    else if a[0] < b[0] then -1
    else if a[0] > b[0] then 1
    else Compare(a[1..], b[1..])
  }

  /** Byte-wise comparison is numeric comparison of the denoted values, and
      only equal byte strings compare equal. */
  lemma {:induction false} CompareIsNumeric(a: seq<byte>, b: seq<byte>)
    requires |a| == |b|
    ensures Compare(a, b) < 0 <==> Value(a) < Value(b)
    ensures Compare(a, b) == 0 <==> a == b
    ensures Compare(a, b) > 0 <==> Value(a) > Value(b)
    decreases |a|
  {
    if a != [] {
      var p := Pow256(|a| - 1);
      ValueBound(a[1..]);
      ValueBound(b[1..]);
      assert Value(a) == a[0] * p + Value(a[1..]);
      assert Value(b) == b[0] * p + Value(b[1..]);
      if a[0] < b[0] {
        LeadingByteDecides(a[0], b[0], p, Value(a[1..]), Value(b[1..]));
      } else if a[0] > b[0] {
        LeadingByteDecides(b[0], a[0], p, Value(b[1..]), Value(a[1..]));
      } else {
        CompareIsNumeric(a[1..], b[1..]);
        assert a == [a[0]] + a[1..];
        assert b == [b[0]] + b[1..];
      }
    }
  }

  /** One byte in decimal, without leading zeros. */
  function OctetText(b: byte): string {
    if b < 10 then [DigitChar(b)]
    else if b < 100 then [DigitChar(b / 10), DigitChar(b % 10)]
    else [DigitChar(b / 100), DigitChar(b / 10 % 10), DigitChar(b % 10)]
  }

  /** One dotted field as Go's IPv4 parser accepts it: at least one digit,
      no leading zero, a value of at most 255. */
  predicate ValidOctetText(f: string) {
    && |f| >= 1
    && AllDigits(f)
    && (|f| == 1 || f[0] != '0')
    && DecimalValue(f) <= 255
  }

  /** Dotted-decimal text `a.b.c.d` of an address. */
  function FormatIPv4(ip: Ip): string {
    OctetText(ip[0]) + "." + OctetText(ip[1]) + "." + OctetText(ip[2]) + "." + OctetText(ip[3])
  }

  /** The dotted text is the four octet texts joined with dots. */
  lemma FormatIsJoin(ip: Ip)
    ensures FormatIPv4(ip) == Join([OctetText(ip[0]), OctetText(ip[1]), OctetText(ip[2]), OctetText(ip[3])], '.')
  {
    JoinFour(OctetText(ip[0]), OctetText(ip[1]), OctetText(ip[2]), OctetText(ip[3]), '.');
  }

  /** The address a dotted-decimal text denotes, or None when it is not one:
      not four fields, an empty or non-decimal field, a leading zero, a field above 255. */
  function ParseIPv4(s: string): Option<Ip> {
    var f := Split(s, '.');
    if |f| == 4 && ValidOctetText(f[0]) && ValidOctetText(f[1])
       && ValidOctetText(f[2]) && ValidOctetText(f[3])
    then Some([DecimalValue(f[0]), DecimalValue(f[1]), DecimalValue(f[2]), DecimalValue(f[3])])
    else None
  }

  lemma OctetTextIsValid(b: byte)
    ensures ValidOctetText(OctetText(b)) && DecimalValue(OctetText(b)) == b
    ensures '.' !in OctetText(b)
  {
    var s := OctetText(b);
    if b < 10 {
      assert s[..0] == [];
    } else if b < 100 {
      DecimalValueOfTwo(s);
      assert b == 10 * (b / 10) + b % 10;
    } else {
      DecimalValueOfThree(s);
      assert b == 100 * (b / 100) + 10 * (b / 10 % 10) + b % 10;
    }
  }

  /** A valid field has one to three digits. */
  lemma ValidOctetTextIsShort(f: string)
    requires ValidOctetText(f)
    ensures |f| <= 3
  {
    DecimalValueOfLong(f);
  }

  /** A valid field is the canonical decimal text of its value. */
  lemma OctetTextIsCanonical(f: string)
    requires ValidOctetText(f)
    ensures OctetText(DecimalValue(f)) == f
  {
    ValidOctetTextIsShort(f);
    var v := DecimalValue(f);
    if |f| == 1 {
      assert f[..0] == [];
      assert f == [f[0]];
    } else if |f| == 2 {
      DecimalValueOfTwo(f);
      assert v / 10 == DigitValue(f[0]) && v % 10 == DigitValue(f[1]);
      assert f == [f[0], f[1]];
    } else {
      DecimalValueOfThree(f);
      assert v / 100 == DigitValue(f[0]) && v / 10 % 10 == DigitValue(f[1]) && v % 10 == DigitValue(f[2]);
      assert f == [f[0], f[1], f[2]];
    }
  }

  /** Formatting then parsing gives the address back. */
  lemma ParseFormat(ip: Ip)
    ensures ParseIPv4(FormatIPv4(ip)) == Some(ip)
  {
    FormatIsJoin(ip);
    ParseJoinedOctets(ip);
  }

  lemma ParseJoinedOctets(ip: Ip)
    ensures ParseIPv4(Join([OctetText(ip[0]), OctetText(ip[1]), OctetText(ip[2]), OctetText(ip[3])], '.')) == Some(ip)
  {
    OctetTextIsValid(ip[0]);
    OctetTextIsValid(ip[1]);
    OctetTextIsValid(ip[2]);
    OctetTextIsValid(ip[3]);
    ParseJoinedFields(OctetText(ip[0]), OctetText(ip[1]), OctetText(ip[2]), OctetText(ip[3]));
    assert ip == [ip[0], ip[1], ip[2], ip[3]];
  }

  /** Four valid fields joined with dots parse to the address of their values. */
  lemma ParseJoinedFields(a: string, b: string, c: string, d: string)
    requires ValidOctetText(a) && ValidOctetText(b) && ValidOctetText(c) && ValidOctetText(d)
    requires '.' !in a && '.' !in b && '.' !in c && '.' !in d
    ensures ParseIPv4(Join([a, b, c, d], '.')) == Some([DecimalValue(a), DecimalValue(b), DecimalValue(c), DecimalValue(d)])
  {
    var parts := [a, b, c, d];
    SplitJoin(parts, '.');
    ParseOfFields(Join(parts, '.'), parts);
  }

  lemma ParseOfFields(s: string, f: seq<string>)
    requires Split(s, '.') == f && |f| == 4
    requires ValidOctetText(f[0]) && ValidOctetText(f[1]) && ValidOctetText(f[2]) && ValidOctetText(f[3])
    ensures ParseIPv4(s) == Some([DecimalValue(f[0]), DecimalValue(f[1]), DecimalValue(f[2]), DecimalValue(f[3])])
  {
  }

  /** A text parses only if it is exactly the canonical text of the result,
      so parsing and formatting are inverse bijections. */
  lemma FormatParse(s: string, ip: Ip)
    requires ParseIPv4(s) == Some(ip)
    ensures FormatIPv4(ip) == s
  {
    var f := Split(s, '.');
    JoinSplit(s, '.');
    FormatIsJoin(ip);
    OctetTextIsCanonical(f[0]);
    OctetTextIsCanonical(f[1]);
    OctetTextIsCanonical(f[2]);
    OctetTextIsCanonical(f[3]);
    assert f == [f[0], f[1], f[2], f[3]];
  }
}
