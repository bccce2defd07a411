/**
 * Identifier derivation of the secret store: the id of a secret is the MD5
 * digest of its plaintext, rendered as lowercase hexadecimal, two digits per
 * byte, most significant nibble first (Go's `%x` verb on a byte array).
 *
 * MD5 itself is not modelled: every member that needs it takes the digest
 * function as a parameter of type `string -> Digest`, i.e. any total function
 * that yields 16 bytes. Nothing here depends on collision resistance.
 */
module Ids {

  type Byte = b: int | 0 <= b < 256

  /** A 16-byte digest, the size of an MD5 sum. */
  type Digest = d: seq<Byte> | |d| == 16
    witness [0, 0, 0, 0, 0, 0, 0, 0, 0, 0, 0, 0, 0, 0, 0, 0]

  datatype Option<T> = None | Some(value: T)

  predicate IsLowerHex(c: char) {
    ('0' <= c <= '9') || ('a' <= c <= 'f')
  }

  predicate IsLowerHexString(s: string) {
    forall i :: 0 <= i < |s| ==> IsLowerHex(s[i])
  }

  /** The lowercase hex digit of a nibble. */
  function HexDigit(n: int): (c: char)
    requires 0 <= n < 16
    ensures IsLowerHex(c)
  {
    if n < 10 then ('0' as int + n) as char else ('a' as int + n - 10) as char
  }

  /** The nibble a lowercase hex digit stands for; inverse of HexDigit. */
  function DigitValue(c: char): (n: int)
    requires IsLowerHex(c)
    ensures 0 <= n < 16 && HexDigit(n) == c
  {
    if c <= '9' then c as int - '0' as int else c as int - 'a' as int + 10
  }

  /** Go's `fmt.Sprintf("%x", bytes)`: two lowercase hex digits per byte. */
  function Hex(bytes: seq<Byte>): (s: string)
    ensures |s| == 2 * |bytes|
    ensures IsLowerHexString(s)
  {
    if bytes == [] then ""
    else [HexDigit(bytes[0] / 16), HexDigit(bytes[0] % 16)] + Hex(bytes[1..])
  }

  /**
   * Reads a string of lowercase hex digit pairs back into bytes; fails on an
   * odd length or on any character that `%x` never produces.
   */
  function HexDecode(s: string): (r: Option<seq<Byte>>)
    ensures r.Some? ==> Hex(r.value) == s
    ensures r.Some? ==> 2 * |r.value| == |s|
    decreases |s|
  {
    if s == [] then Some([])
    else if |s| == 1 || !IsLowerHex(s[0]) || !IsLowerHex(s[1]) then None
    else match HexDecode(s[2..])
      case None => None
      case Some(rest) => Some([DigitValue(s[0]) * 16 + DigitValue(s[1])] + rest)
  }

  lemma NibblesOfByte(b: Byte)
    ensures DigitValue(HexDigit(b / 16)) * 16 + DigitValue(HexDigit(b % 16)) == b
  {
  }

  /** Decoding what `%x` printed gives the bytes back. */
  lemma {:induction false} HexRoundTrip(bytes: seq<Byte>)
    ensures HexDecode(Hex(bytes)) == Some(bytes)
  {
    if bytes != [] {
      var s := Hex(bytes);
      assert s[2..] == Hex(bytes[1..]);
      HexRoundTrip(bytes[1..]);
      NibblesOfByte(bytes[0]);
      assert [bytes[0]] + bytes[1..] == bytes;
    }
  }

  /** Two byte strings print to the same hex text only if they are equal. */
  lemma HexInjective(a: seq<Byte>, b: seq<Byte>)
    ensures Hex(a) == Hex(b) <==> a == b
  {
    if Hex(a) == Hex(b) {
      HexRoundTrip(a);
      HexRoundTrip(b);
    }
  }

  /** The id `SaveSecret` derives for a plaintext: `%x` of its MD5 sum. */
  function SecretId(md5: string -> Digest, plainText: string): (id: string)
    ensures |id| == 32
    ensures IsLowerHexString(id)
    ensures HexDecode(id).Some? && HexDecode(id).value == md5(plainText)
  {
    HexRoundTrip(md5(plainText));
    Hex(md5(plainText))
  }

  /** Two plaintexts get the same id exactly when their digests collide. */
  lemma SameIdIffSameDigest(md5: string -> Digest, p: string, q: string)
    ensures SecretId(md5, p) == SecretId(md5, q) <==> md5(p) == md5(q)
  {
    HexInjective(md5(p), md5(q));
  }
}
