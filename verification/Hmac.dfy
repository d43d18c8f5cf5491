/** HMAC computed in place on one block, for any hash with a 32-byte result. */
module Hmac {

  type Byte = bv8
  type Hash = seq<Byte> -> seq<Byte>

  const BLOCK: nat := 64
  const DIGEST: nat := 32
  const IPAD: Byte := 0x36
  const OPAD: Byte := 0x5c

  ghost predicate Digests(h: Hash) {
    forall s :: |h(s)| == DIGEST
  }

  // ----- section 2 of RFC 2104

  // Step (1): the key with zeros appended up to the block size.
  function Padded(key: seq<Byte>): (r: seq<Byte>)
    requires |key| <= BLOCK
    ensures |r| == BLOCK
  {
    key + seq(BLOCK - |key|, i => 0)
  }

  function Xor(s: seq<Byte>, pad: Byte): (r: seq<Byte>)
    ensures |r| == |s|
  {
    seq(|s|, i requires 0 <= i < |s| => s[i] ^ pad)
  }

  // H(K xor opad, H(K xor ipad, text))
  function Mac(h: Hash, key: seq<Byte>, text: seq<Byte>): seq<Byte>
    requires |key| <= BLOCK
  {
    h(Xor(Padded(key), OPAD) + h(Xor(Padded(key), IPAD) + text))
  }

  function HexDigit(n: nat): char
    requires n < 16
  {
    "0123456789abcdef"[n]
  }

  function Hex(s: seq<Byte>): string {
    if s == [] then "" else [HexDigit(s[0] as nat / 16), HexDigit(s[0] as nat % 16)] + Hex(s[1..])
  }

  function DigitValue(c: char): nat {
    if '0' <= c <= '9' then (c - '0') as nat else if 'a' <= c <= 'f' then 10 + (c - 'a') as nat else 0
  }

  // The bytes that a text of hexadecimal digits stands for.
  function Unhex(s: string): seq<nat> {
    if |s| < 2 then [] else [16 * DigitValue(s[0]) + DigitValue(s[1])] + Unhex(s[2..])
  }

  function Values(s: seq<Byte>): seq<nat> {
    seq(|s|, i requires 0 <= i < |s| => s[i] as nat)
  }

  lemma DigitRoundTrip(n: nat)
    requires n < 16
    ensures DigitValue(HexDigit(n)) == n
  {
  }

  lemma ByteRoundTrip(b: Byte)
    ensures 16 * DigitValue(HexDigit(b as nat / 16)) + DigitValue(HexDigit(b as nat % 16)) == b as nat
  {
    hide HexDigit, DigitValue;
    DigitRoundTrip(b as nat / 16);
    DigitRoundTrip(b as nat % 16);
  }

  /** Two digits are printed per byte, the upper half first, and reading them gives the bytes back. */
  lemma {:induction false} HexRoundTrip(s: seq<Byte>)
    ensures |Hex(s)| == 2 * |s| && Unhex(Hex(s)) == Values(s)
    decreases |s|
  {
    hide HexDigit, DigitValue;
    if s != [] {
      HexRoundTrip(s[1..]);
      ByteRoundTrip(s[0]);
      assert Hex(s)[2..] == Hex(s[1..]);
      assert Values(s) == [s[0] as nat] + Values(s[1..]);
    }
  }

  /** Both hashes of section 2 of RFC 2104, byte by byte: 64 bytes of the key padded with zeros, each with 0x5c or 0x36
      on it, and behind them the inner digest or the text. */
  lemma MacMeans(h: Hash, key: seq<Byte>, text: seq<Byte>) returns (outer: seq<Byte>, inner: seq<Byte>)
    requires |key| <= 64
    ensures |outer| == |inner| == 64 && Mac(h, key, text) == h(outer + h(inner + text))
    ensures forall i :: 0 <= i < 64 ==> outer[i] == (if i < |key| then key[i] else 0) ^ 0x5c
    ensures forall i :: 0 <= i < 64 ==> inner[i] == (if i < |key| then key[i] else 0) ^ 0x36
  {
    outer, inner := Xor(Padded(key), OPAD), Xor(Padded(key), IPAD);
  }

  // ----- the code

  lemma XorTwice(x: Byte)
    ensures x ^ IPAD ^ IPAD == x
  {
  }

  // do_sha256: the digest goes into the global buffer, and a copy of it is returned.
  method DoSha256(h: Hash, digest: array<Byte>, input: seq<Byte>) returns (r: seq<Byte>)
    requires Digests(h) && digest.Length == DIGEST
    modifies digest
    ensures r == h(input) && digest[..] == h(input)
  {
    var d := h(input);
    forall i | 0 <= i < DIGEST {
      digest[i] := d[i];
    }
    r := digest[..];
  }

  // One loop over the block.
  method XorBlock(buffer: array<Byte>, pad: Byte)
    requires buffer.Length == BLOCK
    modifies buffer
    ensures buffer[..] == Xor(old(buffer[..]), pad)
  {
    for i := 0 to BLOCK
      invariant forall k :: 0 <= k < i ==> buffer[k] == old(buffer[k]) ^ pad
      invariant forall k :: i <= k < BLOCK ==> buffer[k] == old(buffer[k])
    {
      buffer[i] := buffer[i] ^ pad;
    }
  }

  // The second loop takes the first pad off and puts the other on.
  method SwapPad(buffer: array<Byte>, ghost plain: seq<Byte>)
    requires buffer.Length == BLOCK && |plain| == BLOCK && buffer[..] == Xor(plain, IPAD)
    modifies buffer
    ensures buffer[..] == Xor(plain, OPAD)
  {
    for i := 0 to BLOCK
      invariant forall k :: 0 <= k < i ==> buffer[k] == plain[k] ^ OPAD
      invariant forall k :: i <= k < BLOCK ==> buffer[k] == plain[k] ^ IPAD
    {
      XorTwice(plain[i]);
      buffer[i] := buffer[i] ^ IPAD; // back to the original value
      buffer[i] := buffer[i] ^ OPAD;
    }
  }

  /** The loops in place compute the HMAC of section 2 of RFC 2104, printed in hexadecimal. */
  method DoMyHmac(h: Hash, digest: array<Byte>, key: seq<Byte>, data: seq<Byte>) returns (r: string)
    requires Digests(h) && digest.Length == DIGEST && |key| <= BLOCK
    modifies digest
    ensures r == Hex(Mac(h, key, data)) && digest[..] == Mac(h, key, data)
    ensures |r| == 64 && Unhex(r) == Values(Mac(h, key, data))
  {
    var buffer := new Byte[BLOCK](i => if 0 <= i < |key| then key[i] else 0);
    ghost var plain := Padded(key);
    assert buffer[..] == plain;
    XorBlock(buffer, IPAD);
    var inner := DoSha256(h, digest, buffer[..] + data);
    SwapPad(buffer, plain);
    var result := DoSha256(h, digest, buffer[..] + inner);
    r := Hex(result);
    HexRoundTrip(result);
  }
}
