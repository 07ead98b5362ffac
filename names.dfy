/** Unique job names: the template's name, a dash and the random bytes in lower-case hex. */
module Names {

  newtype byte = x: int | 0 <= x < 256

  /** How many random bytes a generated name carries (128 bits). */
  const RANDOM_BYTES: nat := 16

  predicate IsLowerHexDigit(c: char)
  {
    '0' <= c <= '9' || 'a' <= c <= 'f'
  }

  function DigitValue(c: char): (d: nat)
    requires IsLowerHexDigit(c)
    ensures d < 16
  {
    if c <= '9' then c as int - '0' as int else c as int - 'a' as int + 10
  }

  /** The lower-case hex digit of a value below 16. */
  function HexDigit(d: nat): (c: char)
    requires d < 16
    ensures IsLowerHexDigit(c) && DigitValue(c) == d
  {
    if d < 10 then ('0' as int + d) as char else ('a' as int + d - 10) as char
  }

  lemma DigitValueInverse(c: char)
    requires IsLowerHexDigit(c)
    ensures HexDigit(DigitValue(c)) == c
  {
  }

  /** Go's `%x` on a byte slice: two lower-case hex digits per byte, high nibble first. */
  function Hex(bs: seq<byte>): (s: string)
    ensures |s| == 2 * |bs|
    ensures forall i :: 0 <= i < |s| ==> IsLowerHexDigit(s[i])
    ensures forall k :: 0 <= k < |bs| ==>
      s[2 * k] == HexDigit(bs[k] as int / 16) && s[2 * k + 1] == HexDigit(bs[k] as int % 16)
  {
    if bs == [] then ""
    else [HexDigit(bs[0] as int / 16), HexDigit(bs[0] as int % 16)] + Hex(bs[1..])
  }

  /** Reads back a string of lower-case hex digit pairs; it is the inverse of Hex. */
  function Unhex(s: string): (bs: seq<byte>)
    requires |s| % 2 == 0
    requires forall i :: 0 <= i < |s| ==> IsLowerHexDigit(s[i])
    ensures Hex(bs) == s
  {
    if s == [] then []
    else
      var hi, lo := DigitValue(s[0]), DigitValue(s[1]);
      DigitValueInverse(s[0]);
      DigitValueInverse(s[1]);
      var rest := Unhex(s[2..]);
      assert s == [s[0], s[1]] + s[2..];
      [(hi * 16 + lo) as byte] + rest
  }

  lemma {:induction false} UnhexHex(bs: seq<byte>)
    ensures Unhex(Hex(bs)) == bs
  {
    if bs != [] {
      var s := Hex(bs);
      assert s[2..] == Hex(bs[1..]);
      UnhexHex(bs[1..]);
      assert bs == [bs[0]] + bs[1..];
    }
  }

  /**
   * generateRandomName with secureRandomStr(16) inlined: `random` stands for the bytes that
   * crypto/rand supplies, so the formatting is a function of the base name and those bytes.
   */
  function GenerateRandomName(name: string, random: seq<byte>): (r: string)
    requires |random| == RANDOM_BYTES
    ensures |r| == |name| + 1 + 2 * RANDOM_BYTES
    ensures r[..|name|] == name && r[|name|] == '-'
    ensures forall i :: |name| < i < |r| ==> IsLowerHexDigit(r[i])
  {
    name + "-" + Hex(random)
  }

  /** The random part can be read back from a generated name. */
  lemma RandomPartOfName(name: string, random: seq<byte>)
    requires |random| == RANDOM_BYTES
    ensures (var r := GenerateRandomName(name, random); Unhex(r[|name| + 1..]) == random)
  {
    var r := GenerateRandomName(name, random);
    assert r[|name| + 1..] == Hex(random);
    UnhexHex(random);
  }

  /** Two names generated from one base name coincide only when their random bytes do. */
  lemma GenerateRandomNameInjective(name: string, a: seq<byte>, b: seq<byte>)
    requires |a| == RANDOM_BYTES && |b| == RANDOM_BYTES
    requires GenerateRandomName(name, a) == GenerateRandomName(name, b)
    ensures a == b
  {
    RandomPartOfName(name, a);
    RandomPartOfName(name, b);
  }
}
