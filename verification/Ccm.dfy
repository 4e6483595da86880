/**
 Counter mode with CBC-MAC (RFC 3610, with a thirteen-octet nonce) over an arbitrary block
 cipher. The methods run the program's loops; the lemmas show that decryption accepts
 exactly what encryption produces, that no keystream block serves twice, and that the
 authenticated octets determine what was authenticated.
 */
module Ccm {
  import opened Common
  import opened KeyData
  import KeyWrap

  type Nonce = b: Bytes | |b| == 13 witness [0, 0, 0, 0, 0, 0, 0, 0, 0, 0, 0, 0, 0]
  type BlockCipher = (Bytes, Octets16) -> Octets16

  function BigEndian16(n: u16): (b: Bytes)
    ensures |b| == 2
  {
    [n / 256, n % 256]
  }

  // ---- counter blocks ----------------------------------------------------------------------

  function FirstBlock(nonce: Nonce): Octets16 {
    [1] + nonce + [0, 0]
  }

  function Reversed(b: Octets16): Octets16 {
    seq(16, i requires 0 <= i < 16 => b[15 - i])
  }

  // Block zero read as a 128-bit number, plus j, wrapping.
  function CounterBlock(nonce: Nonce, j: nat): Octets16 {
    Reversed(LittleEndian(FromLittleEndian(Reversed(FirstBlock(nonce))) + j, 16))
  }

  lemma {:induction false} LowOctet(v: nat, width: nat)
    ensures LittleEndian(v, width + 1) == [v % 256] + LittleEndian(v / 256, width)
  {
  }

  lemma {:induction false} DigitSplits(digit: byte, rest: nat)
    ensures (digit + 256 * rest) % 256 == digit && (digit + 256 * rest) / 256 == rest
  {
  }

  lemma {:induction false} OctetsOfNumber(b: Bytes)
    ensures LittleEndian(FromLittleEndian(b), |b|) == b
  {
    hide LittleEndian;
    if b == [] {
      NoOctets();
    } else {
      OctetsOfNumber(b[1..]);
      LowOctet(FromLittleEndian(b), |b| - 1);
      DigitSplits(b[0], FromLittleEndian(b[1..]));
      assert b == [b[0]] + b[1..];
    }
  }

  lemma {:induction false} NoOctets()
    ensures LittleEndian(0, 0) == [] && FromLittleEndian([]) == 0
  {
  }

  lemma {:induction false} LowOctets(high: nat, j: nat)
    requires j < 0x1_0000
    ensures LittleEndian(0x1_0000 * high + j, 16) == [j % 256, j / 256] + LittleEndian(high, 14)
  {
    hide LittleEndian;
    var v := 0x1_0000 * high + j;
    assert v / 256 == 256 * high + j / 256 && v % 256 == j % 256;
    assert (v / 256) / 256 == high && (v / 256) % 256 == j / 256;
    LowOctet(v, 15);
    LowOctet(v / 256, 14);
  }

  lemma {:induction false} HighOctets(rest: Bytes)
    ensures FromLittleEndian([0, 0] + rest) == 0x1_0000 * FromLittleEndian(rest)
  {
    var r: Bytes := [0, 0] + rest;
    assert r[1..][0] == 0 && r[1..][1..] == rest;
  }

  // The first 65536 blocks count in the last two octets and leave the nonce alone.
  lemma {:induction false} CounterBlockIs(nonce: Nonce, j: nat)
    requires j < 0x1_0000
    ensures CounterBlock(nonce, j) == [1] + nonce + BigEndian16(j)
  {
    hide LittleEndian, FromLittleEndian;
    var r := Reversed(FirstBlock(nonce));
    assert r == [0, 0] + r[2..];
    HighOctets(r[2..]);
    OctetsOfNumber(r[2..]);
    LowOctets(FromLittleEndian(r[2..]), j);
    var octets := [j % 256, j / 256] + r[2..];
    assert CounterBlock(nonce, j) == Reversed(octets);
    forall i | 0 <= i < 16 ensures Reversed(octets)[i] == ([1] + nonce + BigEndian16(j))[i] {
      if i < 14 {
        assert octets[15 - i] == r[15 - i] == FirstBlock(nonce)[i];
      }
    }
  }

  // Distinct positions and distinct nonces have distinct counter blocks, so a key whose
  // nonces never repeat never repeats a keystream block.
  lemma {:induction false} CounterBlocksDistinct(n: Nonce, i: nat, m: Nonce, j: nat)
    requires i < 0x1_0000 && j < 0x1_0000
    ensures CounterBlock(n, i) == CounterBlock(m, j) <==> n == m && i == j
  {
    CounterBlockIs(n, i);
    CounterBlockIs(m, j);
    hide CounterBlock;
    if CounterBlock(n, i) == CounterBlock(m, j) {
      var a, b := [1] + n + BigEndian16(i), [1] + m + BigEndian16(j);
      assert a[1..14] == n && b[1..14] == m;
      assert a[14] == i / 256 && a[15] == i % 256 && b[14] == j / 256 && b[15] == j % 256;
    }
  }

  // ---- counter mode --------------------------------------------------------------------------

  function KeyOctet(enc: BlockCipher, key: Bytes, nonce: Nonce, j: nat): byte {
    enc(key, CounterBlock(nonce, j / 16 + 1))[j % 16]
  }

  // Octet j of the text is combined with octet j of the keystream.
  function Ctr(enc: BlockCipher, key: Bytes, nonce: Nonce, data: Bytes): (out: Bytes)
    ensures |out| == |data|
  {
    if data == [] then []
    else
      var last := |data| - 1;
      Ctr(enc, key, nonce, data[..last]) + [KeyWrap.XorByte(data[last], KeyOctet(enc, key, nonce, last))]
  }

  lemma {:induction false} CtrTwice(enc: BlockCipher, key: Bytes, nonce: Nonce, data: Bytes)
    ensures Ctr(enc, key, nonce, Ctr(enc, key, nonce, data)) == data
  {
    if data != [] {
      var last := |data| - 1;
      var c := Ctr(enc, key, nonce, data);
      assert c[..last] == Ctr(enc, key, nonce, data[..last]);
      CtrTwice(enc, key, nonce, data[..last]);
      KeyWrap.XorByteCancels(data[last], KeyOctet(enc, key, nonce, last));
      assert data == data[..last] + [data[last]];
    }
  }

  lemma {:induction false} BlockIndex(i: nat, k: nat)
    requires k < 16
    ensures (16 * i + k) / 16 == i && (16 * i + k) % 16 == k
  {
  }

  lemma {:induction false} CtrSnoc(enc: BlockCipher, key: Bytes, nonce: Nonce, data: Bytes, j: nat)
    requires j < |data|
    ensures Ctr(enc, key, nonce, data[..j + 1])
         == Ctr(enc, key, nonce, data[..j]) + [KeyWrap.XorByte(data[j], KeyOctet(enc, key, nonce, j))]
  {
    assert data[..j + 1][..j] == data[..j];
  }

  lemma {:induction false} KeyOctetAt(enc: BlockCipher, key: Bytes, nonce: Nonce, i: nat, k: nat)
    requires k < 16
    ensures KeyOctet(enc, key, nonce, 16 * i + k) == enc(key, CounterBlock(nonce, i + 1))[k]
  {
    hide CounterBlock;
    BlockIndex(i, k);
    var j := 16 * i + k;
    assert j / 16 == i && j % 16 == k;
  }

  // The program's form: blocks of sixteen, each with its own keystream block.
  method CtrEncrypt(enc: BlockCipher, key: Bytes, nonce: Nonce, data: Bytes) returns (out: Bytes)
    ensures out == Ctr(enc, key, nonce, data)
  {
    out := [];
    var i := 0;
    assert out == Ctr(enc, key, nonce, data[..0]);
    hide Ctr, KeyOctet, CounterBlock, KeyWrap.XorByte;
    while |out| < |data|
      invariant |out| <= |data| && (|out| == 16 * i || |out| == |data|)
      invariant out == Ctr(enc, key, nonce, data[..|out|])
      decreases |data| - |out|
    {
      var block := enc(key, CounterBlock(nonce, i + 1));
      var start := |out|;
      var k := 0;
      while k < 16 && start + k < |data|
        invariant k <= 16 && start == 16 * i && |out| == start + k <= |data|
        invariant out == Ctr(enc, key, nonce, data[..|out|])
      {
        CtrSnoc(enc, key, nonce, data, start + k);
        KeyOctetAt(enc, key, nonce, i, k);
        out := out + [KeyWrap.XorByte(data[start + k], block[k])];
        k := k + 1;
      }
      i := i + 1;
    }
    assert data[..|data|] == data;
  }

  // ---- CBC-MAC ----------------------------------------------------------------------------------

  predicate TagLength(n: nat) {
    4 <= n <= 16 && n % 2 == 0
  }

  function Filler(n: nat): nat {
    (16 - n % 16) % 16
  }

  function Pad16(b: Bytes): (p: Bytes)
    ensures |p| % 16 == 0 && |b| <= |p| && p[..|b|] == b
  {
    b + Zeros(Filler(|b|))
  }

  // The block format: flags, nonce and length, then the associated data with its length,
  // then the text, each part filled up with zeros.
  function Flags(hasAad: bool, tagLen: nat): byte
    requires TagLength(tagLen)
  {
    (if hasAad then 64 else 0) + 8 * ((tagLen - 2) / 2) + 1
  }

  function Preamble(plain: Bytes, aad: Bytes, nonce: Nonce, tagLen: nat): (b: Bytes)
    requires TagLength(tagLen)
    ensures |b| == 16
  {
    [Flags(aad != [], tagLen)] + nonce + BigEndian16(|plain| % 0x1_0000)
  }

  function Format(plain: Bytes, aad: Bytes, nonce: Nonce, tagLen: nat): (b: Bytes)
    requires TagLength(tagLen)
    ensures |b| % 16 == 0
  {
    Pad16(Preamble(plain, aad, nonce, tagLen) + Pad16(BigEndian16(|aad| % 0x1_0000) + aad) + plain)
  }

  function XorBlock(a: Octets16, b: Octets16): Octets16 {
    seq(16, i requires 0 <= i < 16 => KeyWrap.XorByte(a[i], b[i]))
  }

  const ZERO_BLOCK: Octets16 := [0, 0, 0, 0, 0, 0, 0, 0, 0, 0, 0, 0, 0, 0, 0, 0]

  // Block n chains from the ones before it.
  function Chain(enc: BlockCipher, key: Bytes, blocks: Bytes, n: nat): Octets16
    requires 16 * n <= |blocks|
  {
    if n == 0 then ZERO_BLOCK
    else enc(key, XorBlock(blocks[16 * n - 16..16 * n], Chain(enc, key, blocks, n - 1)))
  }

  function Mac(enc: BlockCipher, key: Bytes, plain: Bytes, aad: Bytes, nonce: Nonce, tagLen: nat): (t: Bytes)
    ensures |t| == if TagLength(tagLen) then tagLen else 0
  {
    if !TagLength(tagLen) then [] else
      var blocks := Format(plain, aad, nonce, tagLen);
      XorBlock(enc(key, FirstBlock(nonce)), Chain(enc, key, blocks, |blocks| / 16))[..tagLen]
  }

  lemma {:induction false} ZerosGrow(n: nat)
    ensures Zeros(n) + [0] == Zeros(n + 1)
  {
    ZerosSnoc(n);
  }

  method PadTo16(b: Bytes) returns (p: Bytes)
    ensures p == Pad16(b)
  {
    p := b;
    ghost var n := 0;
    while |p| % 16 != 0
      invariant p == b + Zeros(n) && n <= Filler(|b|)
      decreases Filler(|b|) - n
    {
      ZerosGrow(n);
      assert b + Zeros(n) + [0] == b + (Zeros(n) + [0]);
      assert (|b| + n) % 16 != 0 ==> n < Filler(|b|) by { FillerBound(|b|, n); }
      p := p + [0];
      n := n + 1;
    }
    FillerBound(|b|, n);
  }

  lemma {:induction false} FillerBound(len: nat, n: nat)
    requires n <= Filler(len)
    ensures (len + n) % 16 == 0 <==> n == Filler(len)
  {
    var q, r := len / 16, len % 16;
    assert len == 16 * q + r;
    if r == 0 {
      assert n == 0;
    } else if n == 16 - r {
      assert len + n == 16 * (q + 1);
    } else {
      BlockIndex(q, r + n);
    }
  }

  lemma {:induction false} ChainStep(enc: BlockCipher, key: Bytes, blocks: Bytes, i: nat)
    requires 16 * i + 16 <= |blocks|
    ensures Chain(enc, key, blocks, i + 1)
         == enc(key, XorBlock(blocks[16 * i..16 * i + 16], Chain(enc, key, blocks, i)))
  {
  }

  method ChainBlocks(enc: BlockCipher, key: Bytes, blocks: Bytes) returns (prev: Octets16)
    requires |blocks| % 16 == 0
    ensures prev == Chain(enc, key, blocks, |blocks| / 16)
  {
    prev := ZERO_BLOCK;
    assert prev == Chain(enc, key, blocks, 0);
    hide Chain, XorBlock;
    var i := 0;
    while 16 * i < |blocks|
      invariant 16 * i <= |blocks|
      invariant prev == Chain(enc, key, blocks, i)
    {
      ChainStep(enc, key, blocks, i);
      prev := enc(key, XorBlock(blocks[16 * i..16 * i + 16], prev));
      i := i + 1;
    }
  }

  // The program's form: build the blocks, then chain them sixteen octets at a time.
  method CbcMac(enc: BlockCipher, key: Bytes, plain: Bytes, aad: Bytes, nonce: Nonce, tagLen: nat) returns (t: Bytes)
    ensures t == Mac(enc, key, plain, aad, nonce, tagLen)
  {
    hide Pad16, Chain, XorBlock, BigEndian16, FirstBlock;
    if !TagLength(tagLen) {
      return [];
    }
    var mp := (tagLen - 2) / 2;
    var blocks: Bytes := [(if |aad| > 0 then 64 else 0) + 8 * mp + 1];
    blocks := blocks + nonce + BigEndian16(|plain| % 0x1_0000);
    assert blocks == Preamble(plain, aad, nonce, tagLen);
    var a := PadTo16(BigEndian16(|aad| % 0x1_0000) + aad);
    blocks := PadTo16(blocks + a + plain);
    assert blocks == Format(plain, aad, nonce, tagLen);
    var prev := ChainBlocks(enc, key, blocks);
    t := XorBlock(enc(key, FirstBlock(nonce)), prev)[..tagLen];
  }

  // ---- what the tag covers -----------------------------------------------------------------------

  lemma {:induction false} FlagsInjective(h: bool, m: nat, g: bool, n: nat)
    requires TagLength(m) && TagLength(n) && Flags(h, m) == Flags(g, n)
    ensures h == g && m == n
  {
    var x, y := (m - 2) / 2, (n - 2) / 2;
    assert m == 2 * x + 2 && n == 2 * y + 2;
    assert 1 <= x <= 7 && 1 <= y <= 7;
  }

  lemma {:induction false} BigEndian16Injective(m: u16, n: u16)
    requires BigEndian16(m) == BigEndian16(n)
    ensures m == n
  {
    assert BigEndian16(m)[0] == BigEndian16(n)[0] && BigEndian16(m)[1] == BigEndian16(n)[1];
    assert m == 256 * (m / 256) + m % 256 && n == 256 * (n / 256) + n % 256;
  }

  lemma {:induction false} SameParts(x: Bytes, y: Bytes, v: Bytes, w: Bytes)
    requires |x| == |v| && x + y == v + w
    ensures x == v && y == w
  {
    assert (x + y)[..|x|] == x && (v + w)[..|v|] == v;
    assert (x + y)[|x|..] == y && (v + w)[|v|..] == w;
  }

  lemma {:induction false} PreambleParts(p: Bytes, a: Bytes, n: Nonce, l: nat)
    requires TagLength(l) && |p| < 0x1_0000
    ensures var x := Preamble(p, a, n, l); x[0] == Flags(a != [], l) && x[1..14] == n && x[14..] == BigEndian16(|p|)
  {
    hide Flags, BigEndian16;
  }

  lemma {:induction false} PreambleInjective(p: Bytes, a: Bytes, n: Nonce, l: nat, q: Bytes, b: Bytes, m: Nonce, k: nat)
    requires TagLength(l) && TagLength(k) && |p| < 0x1_0000 && |q| < 0x1_0000
    requires Preamble(p, a, n, l) == Preamble(q, b, m, k)
    ensures |p| == |q| && n == m && l == k
  {
    hide Preamble, Flags, BigEndian16;
    PreambleParts(p, a, n, l);
    PreambleParts(q, b, m, k);
    FlagsInjective(a != [], l, b != [], k);
    BigEndian16Injective(|p|, |q|);
  }

  lemma {:induction false} AssociatedInjective(a: Bytes, b: Bytes, y: Bytes, w: Bytes)
    requires |a| < 0x1_0000 && |b| < 0x1_0000
    requires Pad16(BigEndian16(|a|) + a) + y == Pad16(BigEndian16(|b|) + b) + w
    ensures a == b && y == w
  {
    var x, v := BigEndian16(|a|) + a, BigEndian16(|b|) + b;
    var s, t := Pad16(x) + y, Pad16(v) + w;
    assert s[..2] == BigEndian16(|a|) && t[..2] == BigEndian16(|b|) by {
      assert s[0] == Pad16(x)[..|x|][0] && s[1] == Pad16(x)[..|x|][1];
      assert t[0] == Pad16(v)[..|v|][0] && t[1] == Pad16(v)[..|v|][1];
    }
    BigEndian16Injective(|a|, |b|);
    SameParts(Pad16(x), y, Pad16(v), w);
    assert x == v;
    SameParts(BigEndian16(|a|), a, BigEndian16(|b|), b);
  }

  lemma {:induction false} PadSplit(x: Bytes, s: Bytes, p: Bytes)
    ensures Pad16(x + s + p) == x + (s + (p + Zeros(Filler(|x + s + p|))))
  {
  }

  lemma {:induction false} FormatInjective(
    p: Bytes, a: Bytes, n: Nonce, l: nat, q: Bytes, b: Bytes, m: Nonce, k: nat)
    requires TagLength(l) && TagLength(k)
    requires |p| < 0x1_0000 && |q| < 0x1_0000 && |a| < 0x1_0000 && |b| < 0x1_0000
    requires Format(p, a, n, l) == Format(q, b, m, k)
    ensures p == q && a == b && n == m && l == k
  {
    hide Preamble, Pad16, Filler, Zeros, BigEndian16;
    var x, y := Preamble(p, a, n, l), Preamble(q, b, m, k);
    var s, t := Pad16(BigEndian16(|a|) + a), Pad16(BigEndian16(|b|) + b);
    var fillF, fillG := Zeros(Filler(|x + s + p|)), Zeros(Filler(|y + t + q|));
    PadSplit(x, s, p);
    PadSplit(y, t, q);
    SameParts(x, s + (p + fillF), y, t + (q + fillG));
    PreambleInjective(p, a, n, l, q, b, m, k);
    AssociatedInjective(a, b, p + fillF, q + fillG);
    SameParts(p, fillF, q, fillG);
  }

  // For lengths the two-octet fields can hold, equal authenticated blocks come from equal
  // texts, associated data, nonces and tag lengths: nothing can be moved between them.
  lemma {:induction false} FormatDetermines(
    p: Bytes, a: Bytes, n: Nonce, l: nat, q: Bytes, b: Bytes, m: Nonce, k: nat)
    requires TagLength(l) && TagLength(k)
    requires |p| < 0x1_0000 && |q| < 0x1_0000 && |a| < 0x1_0000 && |b| < 0x1_0000
    ensures Format(p, a, n, l) == Format(q, b, m, k) <==> (p == q && a == b && n == m && l == k)
  {
    if Format(p, a, n, l) == Format(q, b, m, k) {
      FormatInjective(p, a, n, l, q, b, m, k);
    }
  }

  // ---- authenticated encryption -------------------------------------------------------------------

  function Seal(enc: BlockCipher, key: Bytes, nonce: Nonce, aad: Bytes, plain: Bytes, tagLen: nat): (Bytes, Bytes) {
    if !TagLength(tagLen) then ([], [])
    else (Ctr(enc, key, nonce, plain), Mac(enc, key, plain, aad, nonce, tagLen))
  }

  function Open(enc: BlockCipher, key: Bytes, nonce: Nonce, aad: Bytes, c: Bytes, t: Bytes, tagLen: nat): Option<Bytes> {
    var plain := Ctr(enc, key, nonce, c);
    if TagLength(tagLen) && |t| == tagLen && Mac(enc, key, plain, aad, nonce, tagLen) == t then Some(plain) else None
  }

  // Decryption accepts exactly the pairs that encryption produces, with the text they came from.
  lemma {:induction false} OpensExactly(
    enc: BlockCipher, key: Bytes, nonce: Nonce, aad: Bytes, c: Bytes, t: Bytes, tagLen: nat, plain: Bytes)
    requires TagLength(tagLen)
    ensures Open(enc, key, nonce, aad, c, t, tagLen) == Some(plain) <==>
            Seal(enc, key, nonce, aad, plain, tagLen) == (c, t)
  {
    CtrTwice(enc, key, nonce, c);
    CtrTwice(enc, key, nonce, plain);
    hide Ctr, Mac;
  }
}
