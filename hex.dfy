/**
 * Upload keys: six random bytes rendered with `Buffer#toString('hex')`,
 * two lower-case hexadecimal digits per byte, high nibble first.
 */
module Hex {
  import opened Common

  /** The random bytes behind one key (`randomBytes(6)`), supplied from outside. */
  type KeyBytes = b: Bytes | |b| == 6 witness [0, 0, 0, 0, 0, 0]

  predicate IsHexDigit(c: char)
  {
    '0' <= c <= '9' || 'a' <= c <= 'f'
  }

  /** A key as handed to clients: matches `^[0-9a-f]{12}$`. */
  predicate IsKey(s: string)
  {
    |s| == 12 && forall i :: 0 <= i < |s| ==> IsHexDigit(s[i])
  }

  function Digit(n: int): (c: char)
    requires 0 <= n < 16
    ensures IsHexDigit(c)
  {
    if n < 10 then ('0' as int + n) as char else ('a' as int + n - 10) as char
  }

  function DigitValue(c: char): (n: int)
    requires IsHexDigit(c)
    ensures 0 <= n < 16 && Digit(n) == c
  {
    if c <= '9' then c as int - '0' as int else c as int - 'a' as int + 10
  }

  /** `Buffer.from(bs).toString('hex')` */
  function Encode(bs: Bytes): (s: string)
    ensures |s| == 2 * |bs|
    ensures forall i :: 0 <= i < |s| ==> IsHexDigit(s[i])
  {
    if bs == [] then ""
    else [Digit(bs[0] / 16), Digit(bs[0] % 16)] + Encode(bs[1..])
  }

  /** `Buffer.from(s, 'hex')` on well-formed input: the inverse of `Encode`. */
  function Decode(s: string): (bs: Bytes)
    requires |s| % 2 == 0
    requires forall i :: 0 <= i < |s| ==> IsHexDigit(s[i])
    ensures 2 * |bs| == |s|
  {
    if s == [] then []
    else [DigitValue(s[0]) * 16 + DigitValue(s[1])] + Decode(s[2..])
  }

  lemma {:induction false} DecodeEncode(bs: Bytes)
    ensures Decode(Encode(bs)) == bs
  {
    if bs != [] {
      var s := Encode(bs);
      assert s[2..] == Encode(bs[1..]);
      assert DigitValue(s[0]) == bs[0] / 16;
      assert DigitValue(s[1]) == bs[0] % 16;
      DecodeEncode(bs[1..]);
    }
  }

  /** Distinct random bytes give distinct keys, and equal ones equal keys. */
  lemma EncodeInjective(a: Bytes, b: Bytes)
    ensures Encode(a) == Encode(b) <==> a == b
  {
    DecodeEncode(a);
    DecodeEncode(b);
  }

  /** The key for one upload: twelve lower-case hexadecimal digits. */
  function Key(kb: KeyBytes): (k: string)
    ensures IsKey(k)
    ensures |Decode(k)| == 6 && Decode(k) == kb
  {
    DecodeEncode(kb);
    Encode(kb)
  }
}
