/** Values shared by every component: optional values, results and identifiers. */
module Basics {

  datatype Option<+T> = None | Some(value: T)

  datatype Result<+T, +E> = Ok(value: T) | Err(error: E)

  const UUID_BOUND: nat := 0x1_00000000_00000000_00000000_00000000

  /** A UUID is a 128-bit value; its byte order is the numeric order. */
  type Uuid = n: nat | n < UUID_BOUND

  /** The zero UUID, which the program reads as "no identifier". */
  const NIL_UUID: Uuid := 0
}

/** The text a UUID prints as: 32 lower-case hexadecimal digits in five dash-separated groups. */
module UuidText {
  import opened Basics

  function HexDigit(d: nat): char
    requires d < 16
  {
    "0123456789abcdef"[d]
  }

  function Hex(n: nat, width: nat): (r: string)
    ensures |r| == width
  {
    if width == 0 then "" else Hex(n / 16, width - 1) + [HexDigit(n % 16)]
  }

  function Text(u: Uuid): (r: string)
    ensures |r| == 36
  {
    var h := Hex(u, 32);
    h[..8] + "-" + h[8..12] + "-" + h[12..16] + "-" + h[16..20] + "-" + h[20..]
  }

  /** The value of a hexadecimal digit in lower case; no other character has one. */
  function DigitValue(c: char): Option<nat> {
    if '0' <= c <= '9' then Some((c - '0') as nat)
    else if 'a' <= c <= 'f' then Some((c - 'a') as nat + 10)
    else None
  }

  /** The number a text of such digits stands for, most significant digit first. */
  function ReadHex(s: string): Option<nat> {
    if s == "" then Some(0)
    else
      var high, low := ReadHex(s[..|s| - 1]), DigitValue(s[|s| - 1]);
      if high.None? || low.None? then None else Some(16 * high.value + low.value)
  }

  lemma HexDigitReadsBack(d: nat)
    requires d < 16
    ensures DigitValue(HexDigit(d)) == Some(d)
  {
  }

  lemma {:induction false} HexReadsBack(n: nat, width: nat)
    requires n < Pow16(width)
    ensures ReadHex(Hex(n, width)) == Some(n)
  {
    if width > 0 {
      var h := Hex(n, width);
      assert h[..|h| - 1] == Hex(n / 16, width - 1) && h[|h| - 1] == HexDigit(n % 16);
      HexReadsBack(n / 16, width - 1);
      HexDigitReadsBack(n % 16);
    }
  }

  /** The text has dashes at its four places, and its other digits read back as the identifier. */
  lemma TextReadsBack(u: Uuid)
    ensures var s := Text(u);
            && s[8] == s[13] == s[18] == s[23] == '-'
            && ReadHex(s[..8] + s[9..13] + s[14..18] + s[19..23] + s[24..]) == Some(u)
  {
    Pow16Of32();
    HexReadsBack(u, 32);
    var h := Hex(u, 32);
    Dashed(h[..8], h[8..12], h[12..16], h[16..20], h[20..]);
    assert h[..8] + h[8..12] + h[12..16] + h[16..20] + h[20..] == h;
  }

  lemma Dashed(a: string, b: string, c: string, d: string, e: string)
    requires |a| == 8 && |b| == |c| == |d| == 4
    ensures var s := a + "-" + b + "-" + c + "-" + d + "-" + e;
            && s[8] == s[13] == s[18] == s[23] == '-'
            && s[..8] == a && s[9..13] == b && s[14..18] == c && s[19..23] == d && s[24..] == e
  {
  }

  function Pow16(width: nat): nat {
    if width == 0 then 1 else 16 * Pow16(width - 1)
  }

  lemma HexDigitInjective(a: nat, b: nat)
    requires a < 16 && b < 16 && HexDigit(a) == HexDigit(b)
    ensures a == b
  {
  }

  lemma {:induction false} HexInjective(a: nat, b: nat, width: nat)
    requires a < Pow16(width) && b < Pow16(width) && Hex(a, width) == Hex(b, width)
    ensures a == b
  {
    if width > 0 {
      var ha, hb := Hex(a, width), Hex(b, width);
      assert ha[..width - 1] == Hex(a / 16, width - 1) && hb[..width - 1] == Hex(b / 16, width - 1);
      assert ha[width - 1] == HexDigit(a % 16) && hb[width - 1] == HexDigit(b % 16);
      HexDigitInjective(a % 16, b % 16);
      HexInjective(a / 16, b / 16, width - 1);
    }
  }

  lemma Pow16Of32()
    ensures Pow16(32) == UUID_BOUND
  {
    assert Pow16(4) == 0x1_0000;
    assert Pow16(8) == 0x1_0000_0000;
    assert Pow16(12) == 0x1_0000_0000_0000;
    assert Pow16(16) == 0x1_0000_0000_0000_0000;
    assert Pow16(20) == 0x1_0000_0000_0000_0000_0000;
    assert Pow16(24) == 0x1_0000_0000_0000_0000_0000_0000;
    assert Pow16(28) == 0x1_0000_0000_0000_0000_0000_0000_0000;
  }

  /** Distinct UUIDs print differently. */
  lemma TextInjective(a: Uuid, b: Uuid)
    requires Text(a) == Text(b)
    ensures a == b
  {
    var ha, hb := Hex(a, 32), Hex(b, 32);
    var ta, tb := Text(a), Text(b);
    assert ha[..8] == ta[..8] && hb[..8] == tb[..8];
    assert ha[8..12] == ta[9..13] && hb[8..12] == tb[9..13];
    assert ha[12..16] == ta[14..18] && hb[12..16] == tb[14..18];
    assert ha[16..20] == ta[19..23] && hb[16..20] == tb[19..23];
    assert ha[20..] == ta[24..] && hb[20..] == tb[24..];
    assert ha == ha[..8] + ha[8..12] + ha[12..16] + ha[16..20] + ha[20..];
    assert hb == hb[..8] + hb[8..12] + hb[12..16] + hb[16..20] + hb[20..];
    Pow16Of32();
    HexInjective(a, b, 32);
  }
}
