// Hexadecimal text: the decoder of Go's encoding/hex, the decoder and encoder
// of PostgreSQL's decode(..., 'hex') and encode(..., 'hex').
module Hex {
  import opened Wrappers

  newtype Byte = x: int | 0 <= x < 256
  type Bytes = seq<Byte>

  function DigitValue(c: char): (r: Option<int>)
    ensures r.Some? ==> 0 <= r.value < 16
  {
    if '0' <= c <= '9' then Some(c as int - '0' as int)
    else if 'a' <= c <= 'f' then Some(c as int - 'a' as int + 10)
    else if 'A' <= c <= 'F' then Some(c as int - 'A' as int + 10)
    else None
  }

  function Digit(v: int): (c: char)
    requires 0 <= v < 16
    ensures DigitValue(c) == Some(v) && Lower(c) == c
  {
    if v < 10 then (v + '0' as int) as char else (v - 10 + 'a' as int) as char
  }

  function Lower(c: char): char {
    if 'A' <= c <= 'Z' then (c as int - 'A' as int + 'a' as int) as char else c
  }

  function LowerAll(s: string): string {
    Map(Lower, s)
  }

  predicate IsHex(s: string) {
    |s| % 2 == 0 && forall c :: c in s ==> DigitValue(c).Some?
  }

  // Text that PostgreSQL's encode can have produced: digits and small letters a to f, in pairs.
  predicate Canonical(s: string) {
    IsHex(s) && forall c :: c in s ==> !('A' <= c <= 'F')
  }

  predicate IsBlank(c: char) {
    c == ' ' || c == '\n' || c == '\t' || c == '\r'
  }

  // The two digits at the head of s, as one byte.
  function Pair(s: string): (r: Option<Byte>)
    requires |s| >= 2
  {
    match (DigitValue(s[0]), DigitValue(s[1]))
    case (Some(h), Some(l)) => Some((16 * h + l) as Byte)
    case _ => None
  }

  // hex.DecodeString: pairs of digits in either case, nothing else.
  function GoDecode(s: string): Option<Bytes> {
    if s == "" then Some([])
    else if |s| == 1 then None
    else match (Pair(s), GoDecode(s[2..]))
      case (Some(b), Some(rest)) => Some([b] + rest)
      case _ => None
  }

  // decode(s, 'hex'): the same, except that blanks between pairs are skipped.
  function PgDecode(s: string): Option<Bytes> {
    if s == "" then Some([])
    else if IsBlank(s[0]) then PgDecode(s[1..])
    else if |s| == 1 then None
    else match (Pair(s), PgDecode(s[2..]))
      case (Some(b), Some(rest)) => Some([b] + rest)
      case _ => None
  }

  function Encode(b: Bytes): string {
    if b == [] then "" else [Digit(b[0] as int / 16), Digit(b[0] as int % 16)] + Encode(b[1..])
  }

  lemma {:induction false} EncodeCanonical(b: Bytes)
    ensures Canonical(Encode(b)) && |Encode(b)| == 2 * |b|
    ensures PgDecode(Encode(b)) == Some(b) && GoDecode(Encode(b)) == Some(b)
  {
    if b != [] {
      EncodeCanonical(b[1..]);
      var s := Encode(b);
      assert s[2..] == Encode(b[1..]);
      assert s == [s[0], s[1]] + s[2..];
      assert b == [b[0]] + b[1..];
    }
  }

  // Go accepts exactly the even-length digit strings.
  lemma {:induction false} GoDecodeAccepts(s: string)
    ensures GoDecode(s).Some? <==> IsHex(s)
    ensures GoDecode(s).Some? ==> 2 * |GoDecode(s).value| == |s|
  {
    if |s| >= 2 {
      GoDecodeAccepts(s[2..]);
      assert s == [s[0], s[1]] + s[2..];
    } else if |s| == 1 {
    }
  }

  lemma PairEncodes(s: string)
    requires |s| >= 2 && Pair(s).Some?
    ensures Digit(Pair(s).value as int / 16) == Lower(s[0])
    ensures Digit(Pair(s).value as int % 16) == Lower(s[1])
  {
  }

  // The values of the digits.
  lemma DigitTable(v: int)
    requires 0 <= v < 16
    ensures DigitValue("0123456789abcdef"[v]) == Some(v) && DigitValue("0123456789ABCDEF"[v]) == Some(v)
  {
  }

  // Byte k is sixteen times the value of digit 2k plus that of the next.
  lemma {:induction false} ByteAt(s: string, k: nat, h: nat, l: nat)
    requires IsHex(s) && 2 * k + 1 < |s| && DigitValue(s[2 * k]) == Some(h) && DigitValue(s[2 * k + 1]) == Some(l)
    ensures GoDecode(s).Some? && k < |GoDecode(s).value| && GoDecode(s).value[k] as int == 16 * h + l
    decreases k
  {
    hide DigitValue;
    GoDecodeAccepts(s);
    if k > 0 {
      assert s[2..][2 * (k - 1)] == s[2 * k] && s[2..][2 * (k - 1) + 1] == s[2 * k + 1];
      ByteAt(s[2..], k - 1, h, l);
    }
  }

  ghost predicate IsDigit(c: char) {
    '0' <= c <= '9' || 'a' <= c <= 'f' || 'A' <= c <= 'F'
  }

  // PostgreSQL's decoder passes over blanks, tabs and line ends before a pair of digits, and stops
  // at anything else that is no digit.
  lemma PgBlanks(c: char, s: string)
    ensures c in " \n\t\r" ==> PgDecode([c] + s) == PgDecode(s)
    ensures c !in " \n\t\r" && !IsDigit(c) ==> PgDecode([c] + s).None?
    ensures IsDigit(c) && (s == "" || !IsDigit(s[0])) ==> PgDecode([c] + s).None?
  {
    assert ([c] + s)[1..] == s;
  }

  // Decoding then encoding is lower-casing.
  lemma {:induction false} GoDecodeEncodes(s: string)
    requires IsHex(s)
    ensures GoDecode(s).Some? && Encode(GoDecode(s).value) == LowerAll(s)
  {
    GoDecodeAccepts(s);
    if s != "" {
      assert s == [s[0], s[1]] + s[2..];
      GoDecodeEncodes(s[2..]);
      PairEncodes(s);
      var b := GoDecode(s).value;
      assert b[1..] == GoDecode(s[2..]).value;
      assert LowerAll(s) == [Lower(s[0]), Lower(s[1])] + LowerAll(s[2..]);
    }
  }

  // On digit strings the two decoders agree.
  lemma {:induction false} DecodersAgree(s: string)
    requires IsHex(s)
    ensures PgDecode(s) == GoDecode(s)
  {
    if s != "" {
      assert s[0] in s && DigitValue(s[0]).Some?;
      assert s == [s[0], s[1]] + s[2..];
      DecodersAgree(s[2..]);
    }
  }

  // The text the database returns for a decoded digest is the text that was sent
  // exactly when that text was canonical.
  lemma CanonicalRoundTrip(s: string)
    requires PgDecode(s).Some?
    ensures Encode(PgDecode(s).value) == s <==> Canonical(s)
  {
    EncodeCanonical(PgDecode(s).value);
    if Canonical(s) {
      DecodersAgree(s);
      GoDecodeEncodes(s);
      assert forall i :: 0 <= i < |s| ==> s[i] in s;
      assert LowerAll(s) == s;
    }
  }

  // Canonical text always decodes.
  lemma CanonicalDecodes(s: string)
    requires Canonical(s)
    ensures PgDecode(s).Some? && Encode(PgDecode(s).value) == s
  {
    DecodersAgree(s);
    GoDecodeAccepts(s);
    CanonicalRoundTrip(s);
  }
}
