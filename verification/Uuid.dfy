/** UUIDs and their text: the hyphenated form of section 4 of RFC 9562 in full,
    any other spelling the parser accepts as a parameter. */
module Uuid {
  import opened Options

  type Byte = b: int | 0 <= b < 256

  type Uuid = u: seq<Byte> | |u| == 16 witness [0, 0, 0, 0, 0, 0, 0, 0, 0, 0, 0, 0, 0, 0, 0, 0]

  function HexDigit(n: int): char
    requires 0 <= n < 16
  {
    if n < 10 then '0' + n as char else 'a' + (n - 10) as char
  }

  function HexValue(c: char): Option<int> {
    if '0' <= c <= '9' then Some(c as int - '0' as int)
    else if 'a' <= c <= 'f' then Some(c as int - 'a' as int + 10)
    else if 'A' <= c <= 'F' then Some(c as int - 'A' as int + 10)
    else None
  }

  function Hex(bytes: seq<Byte>): (s: string)
    ensures |s| == 2 * |bytes|
  {
    if bytes == [] then [] else [HexDigit(bytes[0] / 16), HexDigit(bytes[0] % 16)] + Hex(bytes[1..])
  }

  function ParseHex(s: string): (r: Option<seq<Byte>>)
    requires |s| % 2 == 0
    ensures r.Some? ==> |r.value| == |s| / 2
  {
    if s == [] then Some([])
    else
      var hi, lo, rest := HexValue(s[0]), HexValue(s[1]), ParseHex(s[2..]);
      if hi.Some? && lo.Some? && rest.Some? then Some([16 * hi.value + lo.value] + rest.value) else None
  }

  /** 8-4-4-4-12 lower-case digits. */
  function Print(u: Uuid): (s: string)
    ensures |s| == 36
  {
    Hex(u[0..4]) + "-" + Hex(u[4..6]) + "-" + Hex(u[6..8]) + "-" + Hex(u[8..10]) + "-" + Hex(u[10..16])
  }

  function ParseHyphenated(s: string): Option<Uuid>
    requires |s| == 36
  {
    if s[8] == '-' && s[13] == '-' && s[18] == '-' && s[23] == '-'
    then ParseHex(s[0..8] + s[9..13] + s[14..18] + s[19..23] + s[24..36])
    else None
  }

  /** `alt` reads the spellings of other lengths. */
  function Parse(s: string, alt: string -> Option<Uuid>): Option<Uuid> {
    if |s| == 36 then ParseHyphenated(s) else alt(s)
  }

  lemma {:induction false} HexAppend(a: seq<Byte>, b: seq<Byte>)
    ensures Hex(a + b) == Hex(a) + Hex(b)
  {
    if a == [] {
      assert a + b == b;
    } else {
      assert (a + b)[1..] == a[1..] + b;
      HexAppend(a[1..], b);
    }
  }

  lemma {:induction false} ParseHexOfHex(bytes: seq<Byte>)
    ensures ParseHex(Hex(bytes)) == Some(bytes)
  {
    if bytes != [] {
      ParseHexOfHex(bytes[1..]);
      assert Hex(bytes)[2..] == Hex(bytes[1..]);
      assert bytes == [bytes[0]] + bytes[1..];
    }
  }

  lemma HexOfPieces(u: Uuid)
    ensures Hex(u[0..4]) + Hex(u[4..6]) + Hex(u[6..8]) + Hex(u[8..10]) + Hex(u[10..16]) == Hex(u)
  {
    var a, b, c, d, e := u[0..4], u[4..6], u[6..8], u[8..10], u[10..16];
    HexAppend(a, b);
    HexAppend(a + b, c);
    HexAppend(a + b + c, d);
    HexAppend(a + b + c + d, e);
    assert a + b + c + d + e == u;
  }

  lemma Hyphenated(a: string, b: string, c: string, d: string, e: string)
    requires |a| == 8 && |b| == |c| == |d| == 4 && |e| == 12
    ensures var s := a + "-" + b + "-" + c + "-" + d + "-" + e;
            && s[0..8] == a && s[9..13] == b && s[14..18] == c && s[19..23] == d && s[24..36] == e
            && s[8] == '-' && s[13] == '-' && s[18] == '-' && s[23] == '-'
  {
  }

  /** Parsing the printed form gives the UUID back. */
  lemma ParsePrint(u: Uuid, alt: string -> Option<Uuid>)
    ensures Parse(Print(u), alt) == Some(u)
  {
    Hyphenated(Hex(u[0..4]), Hex(u[4..6]), Hex(u[6..8]), Hex(u[8..10]), Hex(u[10..16]));
    HexOfPieces(u);
    ParseHexOfHex(u);
  }

  lemma {:induction false} ParsedHexIsHex(s: string)
    requires |s| % 2 == 0 && ParseHex(s).Some?
    ensures forall c :: c in s ==> HexValue(c).Some?
  {
    if s != [] {
      ParsedHexIsHex(s[2..]);
      assert s == [s[0], s[1]] + s[2..];
    }
  }

  /** A 36-character UUID text contains no '/'. */
  lemma HyphenatedHasNoSlash(s: string)
    requires |s| == 36 && ParseHyphenated(s).Some?
    ensures '/' !in s
  {
    var digits := s[0..8] + s[9..13] + s[14..18] + s[19..23] + s[24..36];
    ParsedHexIsHex(digits);
    assert s == s[0..8] + "-" + s[9..13] + "-" + s[14..18] + "-" + s[19..23] + "-" + s[24..36];
    assert HexValue('/') == None;
    assert '/' in s ==> '/' in digits;
  }

  lemma PrintHasNoSlash(u: Uuid)
    ensures '/' !in Print(u)
  {
    ParsePrint(u, _ => None);
    HyphenatedHasNoSlash(Print(u));
  }

  /** Two digits per byte, the high one first, in lower case. */
  lemma {:induction false} HexDigits(bytes: seq<Byte>, i: nat)
    requires i < |bytes|
    ensures Hex(bytes)[2 * i] == "0123456789abcdef"[bytes[i] / 16]
    ensures Hex(bytes)[2 * i + 1] == "0123456789abcdef"[bytes[i] % 16]
  {
    if i > 0 {
      HexDigits(bytes[1..], i - 1);
      assert Hex(bytes)[2..] == Hex(bytes[1..]);
      assert Hex(bytes)[2 * i] == Hex(bytes)[2..][2 * (i - 1)];
      assert Hex(bytes)[2 * i + 1] == Hex(bytes)[2..][2 * (i - 1) + 1];
    }
  }

  /** The digits of a printed UUID are those of its 16 bytes, in groups of
      8, 4, 4, 4 and 12 with hyphens between. */
  lemma PrintedGroups(u: Uuid)
    ensures var s := Print(u);
            && s[8] == '-' && s[13] == '-' && s[18] == '-' && s[23] == '-'
            && s[0..8] + s[9..13] + s[14..18] + s[19..23] + s[24..36] == Hex(u)
  {
    Hyphenated(Hex(u[0..4]), Hex(u[4..6]), Hex(u[6..8]), Hex(u[8..10]), Hex(u[10..16]));
    HexOfPieces(u);
  }

  /** Digits are read in either case. */
  lemma DigitValues(v: nat)
    requires v < 16
    ensures HexValue("0123456789abcdef"[v]) == Some(v) && HexValue("0123456789ABCDEF"[v]) == Some(v)
  {
  }
}
