/**
  Identifiers as text: `format!("{:032x}", u128::from_be_bytes(..))` and its 64-bit sibling.
  The number is read big-endian from the bytes and printed in lowercase hexadecimal, padded
  with zeros on the left. The trace-id and parent-id of section 3.2.2 of W3C Trace Context are
  this text at 16 and 8 bytes.
 */
module Hex {
  import opened Prelude

  type Byte = x: int | 0 <= x < 256

  const DIGITS: string := "0123456789abcdef"

  /** `from_be_bytes` */
  function BigEndian(bytes: seq<Byte>): nat {
    if bytes == [] then 0 else 256 * BigEndian(bytes[..|bytes| - 1]) + bytes[|bytes| - 1]
  }

  /** `{:x}`: no leading zero, and a single `0` for zero. */
  function LowerHex(v: nat): (s: string)
    ensures s != ""
  {
    if v < 16 then [DIGITS[v]] else LowerHex(v / 16) + [DIGITS[v % 16]]
  }

  function PadLeft(s: string, width: nat): (r: string)
    ensures |r| >= |s|
    decreases width - |s|
  {
    if |s| >= width then s else PadLeft("0" + s, width)
  }

  /** `{:0widthx}` */
  function FormatHex(v: nat, width: nat): string {
    PadLeft(LowerHex(v), width)
  }

  /** The reference text: two digits for each byte, in order. */
  function BytewiseHex(bytes: seq<Byte>): string {
    if bytes == [] then []
    else BytewiseHex(bytes[..|bytes| - 1]) + [DIGITS[bytes[|bytes| - 1] / 16], DIGITS[bytes[|bytes| - 1] % 16]]
  }

  function DigitValue(c: char): Option<nat> {
    if '0' <= c <= '9' then Some(c as int - '0' as int)
    else if 'a' <= c <= 'f' then Some(c as int - 'a' as int + 10)
    else None
  }

  /** A base-16 parser that refuses any other character. */
  function ParseHex(s: string): Option<nat> {
    if s == "" then Some(0)
    else match (ParseHex(s[..|s| - 1]), DigitValue(s[|s| - 1]))
      case (Some(high), Some(low)) => Some(16 * high + low)
      case _ => None
  }

  function Pow16(n: nat): nat {
    if n == 0 then 1 else 16 * Pow16(n - 1)
  }

  /** The `width` low digits of `v`. */
  function FixedHex(v: nat, width: nat): string {
    if width == 0 then [] else FixedHex(v / 16, width - 1) + [DIGITS[v % 16]]
  }

  lemma DigitRoundTrip(d: nat)
    requires d < 16
    ensures DigitValue(DIGITS[d]) == Some(d)
  {
  }

  lemma {:induction false} PadLeftAppend(s: string, c: char, width: nat)
    ensures PadLeft(s + [c], width + 1) == PadLeft(s, width) + [c]
    decreases width - |s|
  {
    if |s| < width {
      assert "0" + (s + [c]) == ("0" + s) + [c];
      PadLeftAppend("0" + s, c, width);
    }
  }

  lemma {:induction false} FixedHexZero(width: nat)
    ensures FixedHex(0, width + 1) == PadLeft("0", width + 1)
  {
    if width > 0 {
      FixedHexZero(width - 1);
      assert "0" + "0" == "0" + ['0'];
      PadLeftAppend("0", '0', width);
    }
  }

  /** Padding the minimal text gives exactly the fixed-width digits. */
  lemma {:induction false} FormatIsFixed(v: nat, width: nat)
    requires 0 < width && v < Pow16(width)
    ensures FormatHex(v, width) == FixedHex(v, width)
  {
    if v >= 16 {
      assert Pow16(1) == 16 * Pow16(0);
      assert width > 1;
      FormatIsFixed(v / 16, width - 1);
      PadLeftAppend(LowerHex(v / 16), DIGITS[v % 16], width - 1);
    } else if width == 1 {
      assert FixedHex(v / 16, 0) == [];
    } else {
      FixedHexZero(width - 2);
      assert v / 16 == 0 && v % 16 == v;
      assert [DIGITS[v]] == "" + [DIGITS[v]];
      PadLeftAppend("", DIGITS[v], width - 1);
      assert "0" + "" == "0";
    }
  }

  lemma TwoDigits(high: nat, b: nat)
    requires b < 256
    ensures var v := 256 * high + b;
      && v % 16 == b % 16 && (v / 16) % 16 == b / 16 && (v / 16) / 16 == high
  {
    var v := 256 * high + b;
    assert v / 16 == 16 * high + b / 16;
  }

  lemma FixedTwice(high: nat, b: nat, m: nat)
    requires b < 256
    ensures FixedHex(256 * high + b, m + 2) == FixedHex(high, m) + [DIGITS[b / 16], DIGITS[b % 16]]
  {
    TwoDigits(high, b);
    var v := 256 * high + b;
    assert FixedHex(v, m + 2) == FixedHex(v / 16, m + 1) + [DIGITS[v % 16]];
    assert FixedHex(v / 16, m + 1) == FixedHex(high, m) + [DIGITS[b / 16]];
  }

  lemma PowTwice(high: nat, b: nat, m: nat)
    requires b < 256 && high < Pow16(m)
    ensures 256 * high + b < Pow16(m + 2)
  {
    assert Pow16(m + 2) == 16 * Pow16(m + 1) && Pow16(m + 1) == 16 * Pow16(m);
  }

  lemma {:induction false} FixedSplitsBytes(bytes: seq<Byte>)
    ensures FixedHex(BigEndian(bytes), 2 * |bytes|) == BytewiseHex(bytes)
    ensures BigEndian(bytes) < Pow16(2 * |bytes|)
  {
    hide FixedHex, Pow16;
    if bytes == [] {
      assert FixedHex(0, 0) == [] && Pow16(0) > 0 by { FixedNothing(); }
    } else {
      var front, b := bytes[..|bytes| - 1], bytes[|bytes| - 1];
      FixedSplitsBytes(front);
      FixedTwice(BigEndian(front), b, 2 * |front|);
      PowTwice(BigEndian(front), b, 2 * |front|);
      assert BigEndian(bytes) == 256 * BigEndian(front) + b && 2 * |bytes| == 2 * |front| + 2;
    }
  }

  lemma FixedNothing()
    ensures FixedHex(0, 0) == [] && Pow16(0) > 0
  {
  }

  /** The printed identifier is the bytes, two digits each, for every length. */
  lemma PaddedHexIsBytewise(bytes: seq<Byte>)
    requires bytes != []
    ensures FormatHex(BigEndian(bytes), 2 * |bytes|) == BytewiseHex(bytes)
    ensures |FormatHex(BigEndian(bytes), 2 * |bytes|)| == 2 * |bytes|
  {
    FixedSplitsBytes(bytes);
    FormatIsFixed(BigEndian(bytes), 2 * |bytes|);
    BytewiseLength(bytes);
  }

  /** Digit by digit: two lower-case digits a byte, the high one first, the bytes in order. */
  lemma IdentifierSpelled(bytes: seq<Byte>, i: nat)
    requires i < |bytes|
    ensures |FormatHex(BigEndian(bytes), 2 * |bytes|)| == 2 * |bytes|
    ensures FormatHex(BigEndian(bytes), 2 * |bytes|)[2 * i] == "0123456789abcdef"[bytes[i] / 16]
    ensures FormatHex(BigEndian(bytes), 2 * |bytes|)[2 * i + 1] == "0123456789abcdef"[bytes[i] % 16]
  {
    hide FormatHex, BigEndian, BytewiseHex;
    PaddedHexIsBytewise(bytes);
    BytewiseAt(bytes, i);
  }

  lemma {:induction false} BytewiseAt(bytes: seq<Byte>, i: nat)
    requires i < |bytes|
    ensures |BytewiseHex(bytes)| == 2 * |bytes|
    ensures BytewiseHex(bytes)[2 * i] == "0123456789abcdef"[bytes[i] / 16]
    ensures BytewiseHex(bytes)[2 * i + 1] == "0123456789abcdef"[bytes[i] % 16]
  {
    var front := bytes[..|bytes| - 1];
    BytewiseLength(front);
    BytewiseLength(bytes);
    if i < |front| {
      BytewiseAt(front, i);
    }
  }

  lemma {:induction false} BytewiseLength(bytes: seq<Byte>)
    ensures |BytewiseHex(bytes)| == 2 * |bytes|
  {
    if bytes != [] { BytewiseLength(bytes[..|bytes| - 1]); }
  }

  lemma {:induction false} ParseBytewise(bytes: seq<Byte>)
    ensures ParseHex(BytewiseHex(bytes)) == Some(BigEndian(bytes))
  {
    if bytes != [] {
      var s, b := BytewiseHex(bytes), bytes[|bytes| - 1];
      var front := BytewiseHex(bytes[..|bytes| - 1]);
      ParseBytewise(bytes[..|bytes| - 1]);
      DigitRoundTrip(b / 16);
      DigitRoundTrip(b % 16);
      assert s[..|s| - 1] == front + [DIGITS[b / 16]];
      assert s[..|s| - 1][..|s| - 2] == front;
    }
  }

  lemma {:induction false} BigEndianInjective(a: seq<Byte>, b: seq<Byte>)
    requires |a| == |b| && BigEndian(a) == BigEndian(b)
    ensures a == b
  {
    if a != [] {
      BigEndianInjective(a[..|a| - 1], b[..|b| - 1]);
      assert a == a[..|a| - 1] + [a[|a| - 1]] && b == b[..|b| - 1] + [b[|b| - 1]];
    }
  }

  /** Reading the printed identifier in base 16 gives the number back. */
  lemma HexRoundTrip(bytes: seq<Byte>)
    requires bytes != []
    ensures ParseHex(FormatHex(BigEndian(bytes), 2 * |bytes|)) == Some(BigEndian(bytes))
  {
    PaddedHexIsBytewise(bytes);
    ParseBytewise(bytes);
  }

  /** Two identifiers of one length print alike only when they are the same bytes. */
  lemma HexInjective(a: seq<Byte>, b: seq<Byte>)
    requires |a| == |b| && a != []
    ensures FormatHex(BigEndian(a), 2 * |a|) == FormatHex(BigEndian(b), 2 * |b|) <==> a == b
  {
    HexRoundTrip(a);
    HexRoundTrip(b);
    if FormatHex(BigEndian(a), 2 * |a|) == FormatHex(BigEndian(b), 2 * |b|) {
      BigEndianInjective(a, b);
    }
  }

  lemma {:induction false} ParseFixed(v: nat, width: nat)
    requires v < Pow16(width)
    ensures |FixedHex(v, width)| == width && ParseHex(FixedHex(v, width)) == Some(v)
  {
    if width > 0 {
      var s := FixedHex(v, width);
      ParseFixed(v / 16, width - 1);
      DigitRoundTrip(v % 16);
      assert s[..|s| - 1] == FixedHex(v / 16, width - 1);
    }
  }

  /** Any number that fits is printed at the full width and read back from its text. */
  lemma FormatRoundTrip(v: nat, width: nat)
    requires 0 < width && v < Pow16(width)
    ensures |FormatHex(v, width)| == width && ParseHex(FormatHex(v, width)) == Some(v)
  {
    FormatIsFixed(v, width);
    ParseFixed(v, width);
  }
}
