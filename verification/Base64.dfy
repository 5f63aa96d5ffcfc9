// Checksum re-encoding: hexadecimal text to standard padded base64, sections 4 and 8 of RFC 4648.
module Base64 {
  import opened Wrappers
  import opened Hex

  const PAD := 64
  const INVALID := 65

  // The alphabet of section 4, with '=' as the symbol of padding.
  function Symbol(v: int): (c: char)
    ensures 0 <= v <= PAD ==> SymbolValue(c) == v
  {
    if v < 0 then '!'
    else if v < 26 then (v + 'A' as int) as char
    else if v < 52 then (v - 26 + 'a' as int) as char
    else if v < 62 then (v - 52 + '0' as int) as char
    else if v == 62 then '+'
    else if v == 63 then '/'
    else '='
  }

  function SymbolValue(c: char): int {
    if 'A' <= c <= 'Z' then c as int - 'A' as int
    else if 'a' <= c <= 'z' then c as int - 'a' as int + 26
    else if '0' <= c <= '9' then c as int - '0' as int + 52
    else if c == '+' then 62
    else if c == '/' then 63
    else if c == '=' then PAD
    else INVALID
  }

  // The four six-bit values of three bytes.
  function Group(x: Byte, y: Byte, z: Byte): (g: seq<int>)
    ensures |g| == 4 && forall i :: 0 <= i < 4 ==> 0 <= g[i] < PAD
  {
    var (a, b, c) := (x as int, y as int, z as int);
    [a / 4, a % 4 * 16 + b / 16, b % 16 * 4 + c / 64, c % 64]
  }

  // The three bytes can be read off their group.
  lemma GroupReads(x: Byte, y: Byte, z: Byte)
    ensures var g := Group(x, y, z);
            && g[0] * 4 + g[1] / 16 == x as int
            && g[1] % 16 * 16 + g[2] / 4 == y as int
            && g[2] % 4 * 64 + g[3] == z as int
  {
  }

  // Three bytes become four six-bit values; a short last group is padded.
  function Sextets(b: Bytes): (r: seq<int>)
    ensures forall v :: v in r ==> 0 <= v <= PAD
    ensures |r| == (|b| + 2) / 3 * 4
  {
    if b == [] then []
    else if |b| == 1 then
      var g := Group(b[0], 0, 0);
      [g[0], g[1], PAD, PAD]
    else if |b| == 2 then
      var g := Group(b[0], b[1], 0);
      [g[0], g[1], g[2], PAD]
    else Group(b[0], b[1], b[2]) + Sextets(b[3..])
  }

  // The inverse: padding only in the last group, and only over zero bits.
  function FromSextets(v: seq<int>): Option<Bytes> {
    if v == [] then Some([])
    else if |v| < 4 || !(0 <= v[0] < PAD && 0 <= v[1] < PAD) then None
    else
      var first := (v[0] * 4 + v[1] / 16) as Byte;
      if v[2] == PAD then
        if |v| == 4 && v[3] == PAD && v[1] % 16 == 0 then Some([first]) else None
      else if !(0 <= v[2] < PAD) then None
      else
        var second := (v[1] % 16 * 16 + v[2] / 4) as Byte;
        if v[3] == PAD then
          if |v| == 4 && v[2] % 4 == 0 then Some([first, second]) else None
        else if !(0 <= v[3] < PAD) then None
        else match FromSextets(v[4..])
          case Some(rest) => Some([first, second, (v[2] % 4 * 64 + v[3]) as Byte] + rest)
          case None => None
  }

  // base64.StdEncoding.EncodeToString
  function Encode64(b: Bytes): string {
    Map(Symbol, Sextets(b))
  }

  // The strict decoder of section 4.
  function Decode64(s: string): Option<Bytes> {
    FromSextets(Map(SymbolValue, s))
  }

  lemma GroupDecodes(g: seq<int>, more: seq<int>, rest: Bytes)
    requires |g| == 4 && (forall i :: 0 <= i < 4 ==> 0 <= g[i] < PAD) && FromSextets(more) == Some(rest)
    ensures FromSextets(g + more) ==
            Some([(g[0] * 4 + g[1] / 16) as Byte, (g[1] % 16 * 16 + g[2] / 4) as Byte, (g[2] % 4 * 64 + g[3]) as Byte] + rest)
  {
    assert (g + more)[4..] == more;
  }

  lemma PaddedGroupDecodes(p: int, q: int, r: int)
    requires 0 <= p < PAD && 0 <= q < PAD && 0 <= r < PAD
    ensures q % 16 == 0 ==> FromSextets([p, q, PAD, PAD]) == Some([(p * 4 + q / 16) as Byte])
    ensures r % 4 == 0 ==> FromSextets([p, q, r, PAD]) == Some([(p * 4 + q / 16) as Byte, (q % 16 * 16 + r / 4) as Byte])
  {
  }

  // A zero byte leaves only zero bits behind.
  lemma ZeroBits(x: Byte, y: Byte)
    ensures Group(x, 0, 0)[1] % 16 == 0 && Group(x, y, 0)[2] % 4 == 0
  {
  }

  lemma OneByteDecodes(x: Byte)
    ensures FromSextets([Group(x, 0, 0)[0], Group(x, 0, 0)[1], PAD, PAD]) == Some([x])
  {
    hide FromSextets;
    GroupReads(x, 0, 0);
    ZeroBits(x, 0);
    hide Group;
    var g := Group(x, 0, 0);
    PaddedGroupDecodes(g[0], g[1], 0);
  }

  lemma TwoBytesDecode(x: Byte, y: Byte)
    ensures FromSextets([Group(x, y, 0)[0], Group(x, y, 0)[1], Group(x, y, 0)[2], PAD]) == Some([x, y])
  {
    hide FromSextets;
    GroupReads(x, y, 0);
    ZeroBits(x, y);
    hide Group;
    var g := Group(x, y, 0);
    PaddedGroupDecodes(g[0], g[1], g[2]);
  }

  lemma OneByte(b: Bytes)
    requires |b| == 1
    ensures FromSextets(Sextets(b)) == Some(b)
  {
    hide FromSextets, Group;
    OneByteDecodes(b[0]);
    assert b == [b[0]];
  }

  lemma TwoBytes(b: Bytes)
    requires |b| == 2
    ensures FromSextets(Sextets(b)) == Some(b)
  {
    hide FromSextets, Group;
    TwoBytesDecode(b[0], b[1]);
    assert b == [b[0], b[1]];
  }

  lemma NoByte()
    ensures FromSextets(Sextets([])) == Some([])
  {
  }

  lemma {:induction false} SextetsRoundTrip(b: Bytes)
    ensures FromSextets(Sextets(b)) == Some(b)
  {
    hide FromSextets, Group;
    if b == [] {
      NoByte();
    } else if |b| == 1 {
      OneByte(b);
    } else if |b| == 2 {
      TwoBytes(b);
    } else {
      SextetsRoundTrip(b[3..]);
      GroupReads(b[0], b[1], b[2]);
      GroupDecodes(Group(b[0], b[1], b[2]), Sextets(b[3..]), b[3..]);
      assert b == [b[0], b[1], b[2]] + b[3..];
    }
  }

  lemma Base64RoundTrip(b: Bytes)
    ensures Decode64(Encode64(b)) == Some(b)
    ensures |Encode64(b)| == (|b| + 2) / 3 * 4
  {
    var v := Sextets(b);
    forall i | 0 <= i < |v|
      ensures Map(SymbolValue, Map(Symbol, v))[i] == v[i]
    {
      assert v[i] in v;
    }
    assert Map(SymbolValue, Map(Symbol, v)) == v;
    SextetsRoundTrip(b);
  }

  // The alphabet, symbol by symbol.
  lemma SymbolTable(v: int)
    requires 0 <= v < 64
    ensures v < 26 ==> Symbol(v) as int == 'A' as int + v
    ensures 26 <= v < 52 ==> Symbol(v) as int == 'a' as int + (v - 26)
    ensures 52 <= v < 62 ==> Symbol(v) as int == '0' as int + (v - 52)
    ensures v == 62 ==> Symbol(v) == '+'
    ensures v == 63 ==> Symbol(v) == '/'
  {
  }

  // The text of the standard: characters 4k to 4k+3 are the symbols of four six-bit numbers that
  // together make the 24 bits of bytes 3k to 3k+2, most significant first.
  lemma {:induction false} FullGroup(b: Bytes, k: nat) returns (p: int, q: int, r: int, t: int)
    requires 3 * k + 2 < |b|
    ensures 0 <= p < 64 && 0 <= q < 64 && 0 <= r < 64 && 0 <= t < 64 && 4 * k + 3 < |Encode64(b)|
    ensures Encode64(b)[4 * k..4 * k + 4] == [Symbol(p), Symbol(q), Symbol(r), Symbol(t)]
    ensures p * 262144 + q * 4096 + r * 64 + t == b[3 * k] as int * 65536 + b[3 * k + 1] as int * 256 + b[3 * k + 2] as int
    decreases k
  {
    if k > 0 {
      p, q, r, t := FullGroup(b[3..], k - 1);
      TextOfRest(b);
      assert Encode64(b)[4 * k..4 * k + 4] == Encode64(b)[4..][4 * (k - 1)..4 * (k - 1) + 4];
    } else {
      var g := Group(b[0], b[1], b[2]);
      p, q, r, t := g[0], g[1], g[2], g[3];
      GroupBits(b[0], b[1], b[2]);
      assert Sextets(b)[..4] == g;
    }
  }

  lemma GroupBits(x: Byte, y: Byte, z: Byte)
    ensures var g := Group(x, y, z);
            g[0] * 262144 + g[1] * 4096 + g[2] * 64 + g[3] == x as int * 65536 + y as int * 256 + z as int
  {
    GroupReads(x, y, z);
  }

  // One byte at the end makes two symbols and two signs of padding; two bytes make three and one.
  ghost predicate Padded(b: Bytes, text: string, p: int, q: int, r: int)
    requires |b| % 3 != 0
  {
    && 0 <= p < 64 && 0 <= q < 64 && 0 <= r < 64
    && if |b| % 3 == 1 then text == [Symbol(p), Symbol(q), '=', '='] && p * 64 + q == b[|b| - 1] as int * 16
       else text == [Symbol(p), Symbol(q), Symbol(r), '='] && p * 4096 + q * 64 + r == (b[|b| - 2] as int * 256 + b[|b| - 1] as int) * 4
  }

  lemma ShortGroup(b: Bytes) returns (p: int, q: int, r: int)
    requires 0 < |b| < 3
    ensures Padded(b, Encode64(b), p, q, r)
  {
    var x, y := b[0], if |b| == 1 then 0 else b[1];
    var g := Group(x, y, 0);
    p, q, r := g[0], g[1], g[2];
    GroupBits(x, y, 0);
    ZeroBits(x, y);
  }

  lemma TextOfRest(b: Bytes)
    requires |b| >= 3
    ensures |Encode64(b)| == 4 + |Encode64(b[3..])| && Encode64(b)[4..] == Encode64(b[3..])
  {
    hide Symbol, Group;
    assert Sextets(b)[4..] == Sextets(b[3..]);
  }

  lemma {:induction false} LastGroup(b: Bytes) returns (p: int, q: int, r: int)
    requires |b| % 3 != 0
    ensures |Encode64(b)| >= 4 && Padded(b, Encode64(b)[|Encode64(b)| - 4..], p, q, r)
    decreases |b|
  {
    hide Symbol, Group, Encode64;
    if |b| >= 3 {
      p, q, r := LastGroup(b[3..]);
      var text, rest := Encode64(b), Encode64(b[3..]);
      TextOfRest(b);
      assert text[|text| - 4..] == text[4..][|rest| - 4..];
    } else {
      p, q, r := ShortGroup(b);
    }
  }

  function HexToBase64(s: string): Option<string> {
    match GoDecode(s)
    case Some(b) => Some(Encode64(b))
    case None => None
  }

  // Re-encoding succeeds exactly on pairs of hexadecimal digits, and the base64 text
  // decodes to the very bytes the hexadecimal text denotes.  A 64-digit digest
  // becomes 44 characters.
  lemma HexToBase64Preserves(s: string)
    ensures HexToBase64(s).Some? <==> IsHex(s)
    ensures HexToBase64(s).Some? ==>
              && GoDecode(s).Some?
              && Decode64(HexToBase64(s).value) == GoDecode(s)
              && |HexToBase64(s).value| == (|s| / 2 + 2) / 3 * 4
  {
    GoDecodeAccepts(s);
    if GoDecode(s).Some? {
      Base64RoundTrip(GoDecode(s).value);
    }
  }

  // Two digests share a checksum text exactly when they differ in letter case only.
  lemma HexToBase64Injective(s: string, t: string)
    requires IsHex(s) && IsHex(t)
    ensures HexToBase64(s) == HexToBase64(t) <==> LowerAll(s) == LowerAll(t)
  {
    HexToBase64Preserves(s);
    HexToBase64Preserves(t);
    GoDecodeEncodes(s);
    GoDecodeEncodes(t);
    if LowerAll(s) == LowerAll(t) {
      EncodeCanonical(GoDecode(s).value);
      EncodeCanonical(GoDecode(t).value);
    }
  }
}
