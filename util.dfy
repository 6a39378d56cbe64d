// Shared vocabulary of the model: optional values, bytes, Java's 32-bit
// int arithmetic and the few string helpers the engine relies on.

module Util {

  datatype Option<T> = None | Some(value: T)

  /** An unsigned octet, as it travels on the wire. */
  type byte = x: int | 0 <= x < 256

  /**
   * A java.nio buffer reduced to what the engine looks at: its bytes, the
   * read position and the limit.
   */
  datatype RawBuffer = RawBuffer(data: seq<byte>, position: nat, limit: nat)
  type ByteBuffer = b: RawBuffer | b.position <= b.limit <= |b.data|
    witness RawBuffer([], 0, 0)

  /** The bytes between position and limit. */
  function Remaining(b: ByteBuffer): seq<byte>
  {
    b.data[b.position..b.limit]
  }

  /** `flip`: the limit moves to the position and the position to 0. */
  function Flip(b: ByteBuffer): (r: ByteBuffer)
    ensures Remaining(r) == b.data[..b.position]
  {
    RawBuffer(b.data, 0, b.position)
  }

  const Int32Min: int := -0x8000_0000
  const Int32Max: int := 0x7FFF_FFFF

  predicate IsInt32(x: int) { Int32Min <= x <= Int32Max }

  /** Java's two's-complement wrap-around of an int result. */
  function WrapInt32(x: int): (r: int)
    ensures IsInt32(r)
    ensures (r - x) % 0x1_0000_0000 == 0
    ensures IsInt32(x) ==> r == x
  {
    (x - Int32Min) % 0x1_0000_0000 + Int32Min
  }

  /** Java's `(byte)` narrowing cast: keeps the low 8 bits, read as signed. */
  function ToJavaByte(x: int): (r: int)
    ensures -128 <= r <= 127
    ensures (r - x) % 256 == 0
    ensures -128 <= x <= 127 ==> r == x
    ensures 128 <= x < 384 ==> r == x - 256
  {
    if -128 <= x <= 127 then x
    else if 128 <= x < 384 then x - 256
    else (x + 128) % 256 - 128
  }

  /** Java's `/` on ints: truncates toward zero (Dafny's `/` is Euclidean). */
  function JavaDiv(a: int, b: int): (q: int)
    requires b != 0
    ensures a >= 0 && b > 0 ==> q == a / b
    ensures a < 0 && b > 0 ==> q == -((-a) / b)
  {
    var q0 := JavaAbs(a) / JavaAbs(b);
    if (a < 0) == (b < 0) then q0 else -q0
  }

  function JavaAbs(a: int): nat { if a < 0 then -a else a }

  function Max(a: int, b: int): int { if a >= b then a else b }
  function Min(a: int, b: int): int { if a <= b then a else b }

  /**
   * The characters a blank test skips: the ASCII whitespace Java's
   * Character.isWhitespace reports, plus the no-break, ideographic and
   * byte-order-mark spaces. The exact helper is outside this model.
   */
  predicate IsBlankChar(c: char)
  {
    ('\U{9}' <= c <= '\U{D}') || ('\U{1C}' <= c <= ' ') ||
    c == '\U{A0}' || c == '\U{3000}' || c == '\U{FEFF}' || c == '\U{202A}'
  }

  /** A missing or all-blank string. */
  predicate IsBlank(s: Option<string>)
  {
    s.None? || forall i :: 0 <= i < |s.value| ==> IsBlankChar(s.value[i])
  }

  /** Java's String.trim: drops every char up to U+0020 at both ends. */
  function Trim(s: string): (r: string)
    ensures |r| <= |s|
    ensures r != [] ==> r[0] > ' ' && r[|r| - 1] > ' '
  {
    TrimEnd(TrimStart(s))
  }

  function TrimStart(s: string): (r: string)
    ensures |r| <= |s| && r == s[|s| - |r|..]
    ensures r != [] ==> r[0] > ' '
  {
    if s != [] && s[0] <= ' ' then TrimStart(s[1..]) else s
  }

  function TrimEnd(s: string): (r: string)
    ensures |r| <= |s| && r == s[..|r|]
    ensures r != [] ==> r[|r| - 1] > ' '
    ensures s != [] && s[0] > ' ' ==> r != [] && r[0] == s[0]
  {
    if s != [] && s[|s| - 1] <= ' ' then TrimEnd(s[..|s| - 1]) else s
  }

  /** The ASCII digit for `d`. */
  function DigitChar(d: nat): (c: char)
    requires d < 10
    ensures '0' <= c <= '9'
  {
    (d + '0' as int) as char
  }

  function NatToString(n: nat): (r: string)
    ensures |r| >= 1
    ensures forall i :: 0 <= i < |r| ==> '0' <= r[i] <= '9'
  {
    if n < 10 then [DigitChar(n)] else NatToString(n / 10) + [DigitChar(n % 10)]
  }

  /** Appending to a log in two steps is appending the two parts at once. */
  lemma AppendTwice<T>(a: seq<T>, b: seq<T>, c: seq<T>)
    ensures a + b + c == a + (b + c)
  {
  }

  /** The value of an ASCII decimal digit. */
  function DigitValue(c: char): (d: nat)
    requires '0' <= c <= '9'
    ensures d < 10
  {
    c as int - '0' as int
  }

  lemma DigitValueOfDigitChar(d: nat)
    requires d < 10
    ensures '0' <= DigitChar(d) <= '9' && DigitValue(DigitChar(d)) == d
  {
  }

  predicate AllDigits(s: string)
  {
    forall i :: 0 <= i < |s| ==> '0' <= s[i] <= '9'
  }

  /** The number a string of decimal digits denotes, most significant first. */
  function DigitsValue(s: string): (v: nat)
    requires AllDigits(s)
  {
    if s == [] then 0 else DigitsValue(s[..|s| - 1]) * 10 + DigitValue(s[|s| - 1])
  }

  /** Reading the decimal rendering of a number back gives the number. */
  lemma {:induction false} DigitsOfNat(n: nat)
    ensures AllDigits(NatToString(n))
    ensures DigitsValue(NatToString(n)) == n
  {
    var s := NatToString(n);
    if n < 10 {
      DigitValueOfDigitChar(n);
      assert s[..|s| - 1] == [];
    } else {
      DigitsOfNat(n / 10);
      DigitValueOfDigitChar(n % 10);
      assert s[..|s| - 1] == NatToString(n / 10);
    }
  }

  /** Java's rendering of an int in a string concatenation. */
  function IntToString(x: int): (r: string)
    ensures |r| >= 1
    ensures forall i :: 0 <= i < |r| ==> r[i] == '-' || '0' <= r[i] <= '9'
  {
    if x < 0 then "-" + NatToString(-x) else NatToString(x)
  }

  /** Joins the strings with the separator between neighbours. */
  function Join(parts: seq<string>, sep: string): string
  {
    if |parts| == 0 then ""
    else if |parts| == 1 then parts[0]
    else parts[0] + sep + Join(parts[1..], sep)
  }

  predicate StartsWith(s: string, prefix: string)
  {
    |prefix| <= |s| && s[..|prefix|] == prefix
  }

  predicate ContainsAt(s: string, sub: string, i: int)
  {
    0 <= i && i + |sub| <= |s| && s[i..i + |sub|] == sub
  }

  predicate Contains(s: string, sub: string)
  {
    exists i | 0 <= i <= |s| :: ContainsAt(s, sub, i)
  }

  /** Java's String.indexOf: the first position of `sub`, or -1. */
  function IndexOf(s: string, sub: string): (r: int)
    ensures r == -1 || ContainsAt(s, sub, r)
    ensures r == -1 <==> !Contains(s, sub)
    ensures r >= 0 ==> forall j :: 0 <= j < r ==> !ContainsAt(s, sub, j)
  {
    IndexFrom(s, sub, 0)
  }

  function IndexFrom(s: string, sub: string, from: nat): (r: int)
    requires forall j :: 0 <= j < from ==> !ContainsAt(s, sub, j)
    ensures r == -1 || (from <= r && ContainsAt(s, sub, r))
    ensures r == -1 <==> !Contains(s, sub)
    ensures r >= 0 ==> forall j :: 0 <= j < r ==> !ContainsAt(s, sub, j)
    decreases |s| + 1 - from
  {
    if from + |sub| > |s| then
      assert forall j :: from <= j ==> !ContainsAt(s, sub, j);
      -1
    else if s[from..from + |sub|] == sub then from
    else IndexFrom(s, sub, from + 1)
  }
}
