/** Unpadded base64 with the URL-safe alphabet (section 5 of RFC 4648), and its lenient decoder. */
module Base64Url {
  import opened Basics

  type Byte = n: nat | n < 256

  type Sextet = n: nat | n < 64

  function Digit(n: Sextet): char {
    if n < 26 then 'A' + n as char
    else if n < 52 then 'a' + (n - 26) as char
    else if n < 62 then '0' + (n - 52) as char
    else if n == 62 then '-' else '_'
  }

  function Value(c: char): Option<Sextet> {
    if 'A' <= c <= 'Z' then Some((c - 'A') as nat)
    else if 'a' <= c <= 'z' then Some((c - 'a') as nat + 26)
    else if '0' <= c <= '9' then Some((c - '0') as nat + 52)
    else if c == '-' then Some(62)
    else if c == '_' then Some(63)
    else None
  }

  /** Three bytes become four 6-bit values; one or two trailing bytes become two or three. */
  function Sextets(b: seq<Byte>): seq<Sextet> {
    if |b| == 0 then []
    else if |b| == 1 then [b[0] / 4, b[0] % 4 * 16]
    else if |b| == 2 then [b[0] / 4, b[0] % 4 * 16 + b[1] / 16, b[1] % 16 * 4]
    else [b[0] / 4, b[0] % 4 * 16 + b[1] / 16, b[1] % 16 * 4 + b[2] / 64, b[2] % 64] + Sextets(b[3..])
  }

  /** Bytes of a run of 6-bit values; surplus low bits of a short last group are ignored. */
  function Bytes(v: seq<Sextet>): Option<seq<Byte>> {
    if |v| == 0 then Some([])
    else if |v| == 1 then None
    else if |v| == 2 then Some([First(v[0], v[1])])
    else if |v| == 3 then Some([First(v[0], v[1]), Second(v[1], v[2])])
    else if Bytes(v[4..]).None? then None
    else Some([First(v[0], v[1]), Second(v[1], v[2]), Third(v[2], v[3])] + Bytes(v[4..]).value)
  }

  function First(a: Sextet, b: Sextet): Byte { a * 4 + b / 16 }

  function Second(b: Sextet, c: Sextet): Byte { b % 16 * 16 + c / 4 }

  function Third(c: Sextet, d: Sextet): Byte { c % 4 * 64 + d }

  function Digits(v: seq<Sextet>): string {
    if v == [] then "" else [Digit(v[0])] + Digits(v[1..])
  }

  /** The alphabet of section 5 of RFC 4648: three ranges, a dash and an underscore. */
  lemma AlphabetIs(n: Sextet)
    ensures Digit(0) == 'A' && Digit(26) == 'a' && Digit(52) == '0' && Digit(62) == '-' && Digit(63) == '_'
    ensures n !in {25, 51, 61, 62, 63} ==> Digit(n + 1) as int == Digit(n) as int + 1
  {
  }

  /** Digits of a base as one number, most significant digit first. */
  function Number(digits: seq<nat>, base: nat): int {
    if digits == [] then 0 else base * Number(digits[..|digits| - 1], base) + digits[|digits| - 1]
  }

  lemma NumberOfOne(d: seq<nat>, base: nat)
    requires |d| == 1
    ensures Number(d, base) == d[0]
  {
    assert d[..0] == [];
  }

  lemma NumberOfTwo(d: seq<nat>, base: nat)
    requires |d| == 2
    ensures Number(d, base) == base * d[0] + d[1]
  {
    NumberOfOne(d[..1], base);
  }

  lemma NumberOfThree(d: seq<nat>, base: nat)
    requires |d| == 3
    ensures Number(d, base) == base * (base * d[0] + d[1]) + d[2]
  {
    NumberOfTwo(d[..2], base);
  }

  lemma NumberOfFour(d: seq<nat>, base: nat)
    requires |d| == 4
    ensures Number(d, base) == base * (base * (base * d[0] + d[1]) + d[2]) + d[3]
  {
    NumberOfThree(d[..3], base);
  }

  lemma GroupOfThree(b: seq<Byte>)
    requires |b| == 3
    ensures |Sextets(b)| == 4 && Number(Sextets(b), 64) == Number(b, 256)
  {
    assert b[3..] == [] && Sextets(b[3..]) == [];
    var v := Sextets(b);
    assert v == v[..4];
    NumberOfThree(b, 256);
    NumberOfFour(v, 64);
  }

  lemma GroupOfTwo(b: seq<Byte>)
    requires |b| == 2
    ensures |Sextets(b)| == 3 && Number(Sextets(b), 64) == Number(b, 256) * 4
  {
    NumberOfTwo(b, 256);
    NumberOfThree(Sextets(b), 64);
  }

  lemma GroupOfOne(b: seq<Byte>)
    requires |b| == 1
    ensures |Sextets(b)| == 2 && Number(Sextets(b), 64) == Number(b, 256) * 16
  {
    NumberOfOne(b, 256);
    NumberOfTwo(Sextets(b), 64);
  }

  /** Three bytes and their four 6-bit values are one number; a short last group is filled with zero bits. */
  lemma GroupsAreBigEndian(b: seq<Byte>)
    ensures |b| >= 3 ==>
              && |Sextets(b[..3])| == 4 && Number(Sextets(b[..3]), 64) == Number(b[..3], 256)
              && Sextets(b) == Sextets(b[..3]) + Sextets(b[3..])
    ensures |b| == 2 ==> |Sextets(b)| == 3 && Number(Sextets(b), 64) == Number(b, 256) * 4
    ensures |b| == 1 ==> |Sextets(b)| == 2 && Number(Sextets(b), 64) == Number(b, 256) * 16
    ensures b == [] ==> Sextets(b) == []
  {
    if |b| >= 3 {
      GroupOfThree(b[..3]);
      assert b[..3][3..] == [];
    } else if |b| == 2 {
      GroupOfTwo(b);
    } else if |b| == 1 {
      GroupOfOne(b);
    }
  }

  /** Values of the digits, or None when some character is not in the alphabet. */
  function Values(s: string): Option<seq<Sextet>> {
    if s == "" then Some([])
    else if Value(s[0]).None? || Values(s[1..]).None? then None
    else Some([Value(s[0]).value] + Values(s[1..]).value)
  }

  /** The decoder skips line breaks. */
  function WithoutLineBreaks(s: string): string {
    if s == "" then ""
    else if s[0] == '\n' || s[0] == '\r' then WithoutLineBreaks(s[1..])
    else [s[0]] + WithoutLineBreaks(s[1..])
  }

  function Encode(b: seq<Byte>): string {
    Digits(Sextets(b))
  }

  function Decode(s: string): Option<seq<Byte>> {
    if Values(WithoutLineBreaks(s)).None? then None else Bytes(Values(WithoutLineBreaks(s)).value)
  }

  /** Digits add neither a dot nor a line break, and read back as their values. */
  lemma {:induction false} DigitsRoundTrip(v: seq<Sextet>)
    ensures '.' !in Digits(v) && WithoutLineBreaks(Digits(v)) == Digits(v) && Values(Digits(v)) == Some(v)
  {
    if v != [] {
      DigitsRoundTrip(v[1..]);
      assert Digits(v)[1..] == Digits(v[1..]);
      assert Value(Digit(v[0])) == Some(v[0]);
      assert v == [v[0]] + v[1..];
    }
  }

  lemma {:induction false} SextetsRoundTrip(b: seq<Byte>)
    ensures Bytes(Sextets(b)) == Some(b)
  {
    var v := Sextets(b);
    if |b| == 1 {
      assert First(v[0], v[1]) == b[0] && b == [b[0]];
    } else if |b| == 2 {
      assert First(v[0], v[1]) == b[0] && Second(v[1], v[2]) == b[1] && b == [b[0], b[1]];
    } else if |b| > 2 {
      SextetsRoundTrip(b[3..]);
      assert v[4..] == Sextets(b[3..]);
      assert First(v[0], v[1]) == b[0] && Second(v[1], v[2]) == b[1] && Third(v[2], v[3]) == b[2];
      assert b == [b[0], b[1], b[2]] + b[3..];
    }
  }

  /** Decoding an encoding gives the bytes back, and an encoding contains no dot. */
  lemma RoundTrip(b: seq<Byte>)
    ensures Decode(Encode(b)) == Some(b) && '.' !in Encode(b)
  {
    DigitsRoundTrip(Sextets(b));
    SextetsRoundTrip(b);
  }
}
