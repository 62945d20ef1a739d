/**
 UUIDs as the driver stores them (16 bytes), the text the proxy prints for them, and the text the
 driver accepts back. The driver takes 36 characters, whatever stands in the four separator
 positions, or 32 characters, with hexadecimal digits of either case.
 */
module Uuids {
  import opened Wrappers

  type Byte = b: int | 0 <= b < 256

  type Uuid = bytes: seq<Byte> | |bytes| == 16 witness seq(16, _ => 0)

  const DIGITS := "0123456789abcdef"

  function HexByte(b: Byte): (s: string)
    ensures |s| == 2
  {
    [DIGITS[b / 16], DIGITS[b % 16]]
  }

  /** Lower-case hexadecimal, two digits a byte. */
  function Hex(bytes: seq<Byte>): (s: string)
    ensures |s| == 2 * |bytes|
  {
    if bytes == [] then "" else HexByte(bytes[0]) + Hex(bytes[1..])
  }

  function DigitValue(c: char): (v: Option<int>)
    ensures v.Some? ==> 0 <= v.value < 16
  {
    if '0' <= c <= '9' then Some(c as int - '0' as int)
    else if 'a' <= c <= 'f' then Some(c as int - 'a' as int + 10)
    else if 'A' <= c <= 'F' then Some(c as int - 'A' as int + 10)
    else None
  }

  function UnHexByte(s: string): (r: Option<Byte>)
    requires |s| == 2
  {
    match (DigitValue(s[0]), DigitValue(s[1]))
    case (Some(high), Some(low)) => Some(16 * high + low)
    case _ => None
  }

  function UnHex(s: string): (r: Option<seq<Byte>>)
    ensures r.Some? ==> |s| == 2 * |r.value|
  {
    if s == "" then Some([])
    else if |s| == 1 then None
    else
      match (UnHexByte(s[..2]), UnHex(s[2..]))
      case (Some(first), Some(rest)) => Some([first] + rest)
      case _ => None
  }

  function Joined(a: string, b: string, c: string, d: string, e: string): string {
    a + "-" + b + "-" + c + "-" + d + "-" + e
  }

  /** The 8-4-4-4-12 form. */
  function Print(id: Uuid): (s: string)
    ensures |s| == 36
  {
    Joined(Hex(id[0..4]), Hex(id[4..6]), Hex(id[6..8]), Hex(id[8..10]), Hex(id[10..16]))
  }

  /** The 32-digit form, which the driver accepts as well. */
  function PrintPlain(id: Uuid): (s: string)
    ensures |s| == 32
  {
    Hex(id)
  }

  function Scan(s: string): (r: Option<Uuid>)
    ensures r.Some? ==> |s| == 36 || |s| == 32
  {
    if |s| == 36 then UnHex(s[0..8] + s[9..13] + s[14..18] + s[19..23] + s[24..])
    else if |s| == 32 then UnHex(s)
    else None
  }

  lemma DigitRoundTrip(n: int)
    requires 0 <= n < 16
    ensures DigitValue(DIGITS[n]) == Some(n)
  {
  }

  lemma ByteRoundTrip(b: Byte)
    ensures UnHexByte(HexByte(b)) == Some(b)
  {
    DigitRoundTrip(b / 16);
    DigitRoundTrip(b % 16);
  }

  lemma {:induction false} UnHexHex(bytes: seq<Byte>)
    ensures UnHex(Hex(bytes)) == Some(bytes)
  {
    if bytes != [] {
      var first, rest := HexByte(bytes[0]), Hex(bytes[1..]);
      assert (first + rest)[..2] == first && (first + rest)[2..] == rest;
      UnHexHex(bytes[1..]);
      ByteRoundTrip(bytes[0]);
      assert [bytes[0]] + bytes[1..] == bytes;
    }
  }

  lemma {:induction false} HexConcat(a: seq<Byte>, b: seq<Byte>)
    ensures Hex(a + b) == Hex(a) + Hex(b)
  {
    if a == [] {
      assert a + b == b;
    } else {
      assert (a + b)[1..] == a[1..] + b;
      HexConcat(a[1..], b);
    }
  }

  lemma Middle(before: string, part: string, after: string)
    ensures (before + part + after)[|before|..|before| + |part|] == part
  {
  }

  lemma JoinedSecond(a: string, b: string, c: string, d: string, e: string)
    requires |a| == 8 && |b| == 4
    ensures |Joined(a, b, c, d, e)| >= 13
    ensures Joined(a, b, c, d, e)[0..8] == a && Joined(a, b, c, d, e)[9..13] == b
  {
    Middle(a + "-", b, "-" + c + "-" + d + "-" + e);
    assert Joined(a, b, c, d, e) == a + "-" + b + ("-" + c + "-" + d + "-" + e);
  }

  lemma JoinedThird(a: string, b: string, c: string, d: string, e: string)
    requires |a| == 8 && |b| == 4 && |c| == 4
    ensures |Joined(a, b, c, d, e)| >= 18
    ensures Joined(a, b, c, d, e)[14..18] == c
  {
    Middle(a + "-" + b + "-", c, "-" + d + "-" + e);
    assert Joined(a, b, c, d, e) == a + "-" + b + "-" + c + ("-" + d + "-" + e);
  }

  lemma JoinedRest(a: string, b: string, c: string, d: string, e: string)
    requires |a| == 8 && |b| == 4 && |c| == 4 && |d| == 4
    ensures |Joined(a, b, c, d, e)| >= 24
    ensures Joined(a, b, c, d, e)[19..23] == d && Joined(a, b, c, d, e)[24..] == e
  {
    Middle(a + "-" + b + "-" + c + "-", d, "-" + e);
    assert Joined(a, b, c, d, e) == a + "-" + b + "-" + c + "-" + d + ("-" + e);
  }

  /** Dropping the separators of a printed UUID leaves its 32 digits. */
  lemma PrintWithoutSeparators(id: Uuid)
    ensures var s := Print(id); s[0..8] + s[9..13] + s[14..18] + s[19..23] + s[24..] == Hex(id)
  {
    var a, b, c, d, e := Hex(id[0..4]), Hex(id[4..6]), Hex(id[6..8]), Hex(id[8..10]), Hex(id[10..16]);
    JoinedSecond(a, b, c, d, e);
    JoinedThird(a, b, c, d, e);
    JoinedRest(a, b, c, d, e);
    HexOfPieces(id);
  }

  lemma HexOfPieces(id: Uuid)
    ensures Hex(id) == Hex(id[0..4]) + Hex(id[4..6]) + Hex(id[6..8]) + Hex(id[8..10]) + Hex(id[10..16])
  {
    HexConcat(id[0..4], id[4..6]);
    assert id[0..4] + id[4..6] == id[0..6];
    HexConcat(id[0..6], id[6..8]);
    assert id[0..6] + id[6..8] == id[0..8];
    HexConcat(id[0..8], id[8..10]);
    assert id[0..8] + id[8..10] == id[0..10];
    HexConcat(id[0..10], id[10..16]);
    assert id[0..10] + id[10..16] == id;
  }

  /** Scanning back a printed UUID is the identity, in both spellings. */
  lemma ScanPrint(id: Uuid)
    ensures Scan(Print(id)) == Some(id)
    ensures Scan(PrintPlain(id)) == Some(id)
  {
    PrintWithoutSeparators(id);
    UnHexHex(id);
  }

  predicate HexDigit(c: char) {
    '0' <= c <= '9' || 'a' <= c <= 'f' || 'A' <= c <= 'F'
  }

  lemma {:induction false} UnHexIff(s: string)
    ensures UnHex(s).Some? <==> |s| % 2 == 0 && forall i :: 0 <= i < |s| ==> HexDigit(s[i])
  {
    if |s| >= 2 {
      UnHexIff(s[2..]);
      forall i | 2 <= i < |s| ensures s[i] == s[2..][i - 2] {
      }
      if UnHex(s[2..]).Some? && UnHexByte(s[..2]).Some? {
        forall i | 0 <= i < |s| ensures HexDigit(s[i]) {
          assert i >= 2 ==> HexDigit(s[2..][i - 2]);
        }
      }
    }
  }

  /** The places of the separators in the printed form. */
  predicate Separates(i: nat) {
    i == 8 || i == 13 || i == 18 || i == 23
  }

  /** The texts the driver takes for a UUID: 32 digits, or 36 characters with digits between the separators. */
  lemma ScansIff(s: string)
    ensures Scan(s).Some? <==>
      || (|s| == 32 && forall i :: 0 <= i < 32 ==> HexDigit(s[i]))
      || (|s| == 36 && forall i :: 0 <= i < 36 && !Separates(i) ==> HexDigit(s[i]))
  {
    if |s| == 32 {
      UnHexIff(s);
    } else if |s| == 36 {
      var digits := s[0..8] + s[9..13] + s[14..18] + s[19..23] + s[24..];
      UnHexIff(digits);
      assert forall i :: 0 <= i < 36 && !Separates(i) ==>
        s[i] == digits[i - (if i < 8 then 0 else if i < 13 then 1 else if i < 18 then 2 else if i < 23 then 3 else 4)];
      assert forall k :: 0 <= k < 32 ==>
        digits[k] == s[k + (if k < 8 then 0 else if k < 12 then 1 else if k < 16 then 2 else if k < 20 then 3 else 4)];
    }
  }

  /** The second text is the first with some of its letters a to f in upper case. */
  predicate Raises(s: string, t: string) {
    |s| == |t| && forall i :: 0 <= i < |s| ==> t[i] == s[i] || ('a' <= s[i] <= 'f' && t[i] as int == s[i] as int - 32)
  }

  lemma {:induction false} UnHexCaseless(s: string, t: string)
    requires Raises(s, t)
    ensures UnHex(s) == UnHex(t)
  {
    if |s| >= 2 {
      assert UnHexByte(s[..2]) == UnHexByte(t[..2]);
      UnHexCaseless(s[2..], t[2..]);
    }
  }

  /** The case of the digits does not matter. */
  lemma ScanCaseless(s: string, t: string)
    requires Raises(s, t)
    ensures Scan(s) == Scan(t)
  {
    if |s| == 32 {
      UnHexCaseless(s, t);
    } else if |s| == 36 {
      UnHexCaseless(s[0..8] + s[9..13] + s[14..18] + s[19..23] + s[24..],
                    t[0..8] + t[9..13] + t[14..18] + t[19..23] + t[24..]);
    }
  }

  lemma PrintInjective(x: Uuid, y: Uuid)
    requires Print(x) == Print(y)
    ensures x == y
  {
    ScanPrint(x);
    ScanPrint(y);
  }
}
