/**
 Protected data frames: the packet number's octets, the nonces and the associated data,
 building the frame, parsing its header, and taking the frame apart again.

 AES is an arbitrary block cipher. GCM is an arbitrary pair of functions; what is assumed of
 it is GcmExact, which lemma Ccm.OpensExactly proves for CCM.
 */
module DataFrames {
  import opened Common
  import opened KeyData
  import Ccm

  type Addr = Octets6
  type KeyId = k: nat | k < 4

  datatype DataCipher = Ccmp128 | Gcmp128 | Ccmp256 | Gcmp256

  function KeyLength(c: DataCipher): nat {
    match c
    case Ccmp128 => 16
    case Gcmp128 => 16
    case Ccmp256 => 32
    case Gcmp256 => 32
  }

  function TagLength(c: DataCipher): nat {
    if c.Ccmp128? then 8 else 16
  }

  datatype Crypto = Crypto(
    block: Ccm.BlockCipher,
    gcmSeal: (Bytes, Bytes, Bytes, Bytes) -> (Bytes, Octets16),
    gcmOpen: (Bytes, Bytes, Bytes, Bytes, Octets16) -> Option<Bytes>)

  ghost predicate GcmExact(x: Crypto) {
    forall key, nonce, aad, c, t, p {:trigger x.gcmOpen(key, nonce, aad, c, t), x.gcmSeal(key, nonce, aad, p)} ::
      x.gcmOpen(key, nonce, aad, c, t) == Some(p) <==> x.gcmSeal(key, nonce, aad, p) == (c, t)
  }

  // ---- the packet number -------------------------------------------------------------------

  function PnOctets(pn: nat): Octets6 {
    LittleEndian(pn, 6)
  }

  function PnBigEndian(pn: nat): Octets6 {
    var p := PnOctets(pn);
    [p[5], p[4], p[3], p[2], p[1], p[0]]
  }

  // PN0 PN1 reserved flags PN2 PN3 PN4 PN5.
  function CcmpHeader(pn: nat, keyId: KeyId): (h: Bytes)
    ensures |h| == 8
  {
    var p := PnOctets(pn);
    [p[0], p[1], 0, 64 * keyId + 32, p[2], p[3], p[4], p[5]]
  }

  // The receiver's reading takes the last four octets most significant first.
  function ReadPn(h: Bytes): nat
    requires |h| >= 8
  {
    FromLittleEndian([h[0], h[1], h[7], h[6], h[5], h[4]])
  }

  function ReadKeyId(h: Bytes): KeyId {
    if |h| < 4 then 0 else (h[3] / 64) % 4
  }

  // The packet numbers that survive: octets 2 to 5 read the same in both directions.
  predicate PnSurvives(pn: nat) {
    var p := PnOctets(pn);
    p[2] == p[5] && p[3] == p[4]
  }

  lemma {:induction false} FromLittleEndianUnique(a: Bytes, b: Bytes)
    requires |a| == |b| && FromLittleEndian(a) == FromLittleEndian(b)
    ensures a == b
  {
    if a != [] {
      FromLittleEndianUnique(a[1..], b[1..]);
      assert a == [a[0]] + a[1..] && b == [b[0]] + b[1..];
    }
  }

  lemma {:induction false} PnOctetsRead(pn: nat)
    requires pn <= MAX_PACKET_NUMBER
    ensures FromLittleEndian(PnOctets(pn)) == pn
  {
    LittleEndianRoundTrip(pn, 6);
    assert Pow256(6) == 0x1_0000_0000_0000;
  }

  // The receiver reads the number that was sent exactly when its last four octets are
  // symmetric.
  lemma {:induction false} PnReadsBackIff(pn: nat, keyId: KeyId)
    requires pn <= MAX_PACKET_NUMBER
    ensures ReadPn(CcmpHeader(pn, keyId)) == pn <==> PnSurvives(pn)
  {
    hide FromLittleEndian, LittleEndian;
    var p := PnOctets(pn);
    var read: Bytes := [p[0], p[1], p[5], p[4], p[3], p[2]];
    PnOctetsRead(pn);
    if FromLittleEndian(read) == pn {
      FromLittleEndianUnique(read, p);
    }
    if PnSurvives(pn) {
      assert read == p;
    }
  }

  lemma {:induction false} FromLittleEndianBound(b: Bytes)
    ensures FromLittleEndian(b) < Pow256(|b|)
  {
    if b != [] {
      FromLittleEndianBound(b[1..]);
    }
  }

  lemma {:induction false} ReadPnBound(h: Bytes)
    requires |h| >= 8
    ensures ReadPn(h) <= MAX_PACKET_NUMBER
  {
    FromLittleEndianBound([h[0], h[1], h[7], h[6], h[5], h[4]]);
    assert Pow256(6) == 0x1_0000_0000_0000;
  }

  lemma {:induction false} ZeroOctets(width: nat, i: nat)
    requires i < width
    ensures LittleEndian(0, width)[i] == 0
  {
    if i > 0 {
      ZeroOctets(width - 1, i - 1);
    }
  }

  lemma {:induction false} PnDigits(pn: nat)
    ensures PnOctets(pn) == [pn % 256, (pn / 256) % 256] + LittleEndian(pn / 0x1_0000, 4)
  {
    Ccm.LowOctet(pn, 5);
    Ccm.LowOctet(pn / 256, 4);
    assert (pn / 256) / 256 == pn / 0x1_0000;
  }

  // Every number below 65536 survives.
  lemma {:induction false} SmallPnSurvives(pn: nat)
    requires pn < 0x1_0000
    ensures PnSurvives(pn)
  {
    PnDigits(pn);
    ZeroOctets(4, 0);
    ZeroOctets(4, 1);
    ZeroOctets(4, 2);
    ZeroOctets(4, 3);
  }

  // The next one does not: octet 2 is one and octet 5 is zero.
  lemma {:induction false} FirstLostPn()
    ensures !PnSurvives(0x1_0000)
  {
    PnDigits(0x1_0000);
    Ccm.LowOctet(1, 3);
    ZeroOctets(3, 2);
  }

  // ---- nonces and associated data ---------------------------------------------------------------

  function CcmNonce(priority: byte, transmitter: Addr, pn: nat): Ccm.Nonce {
    [priority] + transmitter + PnBigEndian(pn)
  }

  function GcmNonce(transmitter: Addr, pn: nat): Bytes {
    transmitter + PnBigEndian(pn)
  }

  lemma {:induction false} PnOctetsDetermine(m: nat, n: nat)
    requires m <= MAX_PACKET_NUMBER && n <= MAX_PACKET_NUMBER
    requires PnBigEndian(m) == PnBigEndian(n)
    ensures m == n
  {
    hide FromLittleEndian, LittleEndian;
    var p, q := PnOctets(m), PnOctets(n);
    var b, c := PnBigEndian(m), PnBigEndian(n);
    assert p == [b[5], b[4], b[3], b[2], b[1], b[0]] && q == [c[5], c[4], c[3], c[2], c[1], c[0]];
    PnOctetsRead(m);
    PnOctetsRead(n);
  }

  // A nonce repeats only if transmitter and packet number do (and, for CCM, the priority).
  lemma {:induction false} NoncesDetermine(priority: byte, a: Addr, m: nat, other: byte, b: Addr, n: nat)
    requires m <= MAX_PACKET_NUMBER && n <= MAX_PACKET_NUMBER
    ensures CcmNonce(priority, a, m) == CcmNonce(other, b, n) <==> priority == other && a == b && m == n
    ensures GcmNonce(a, m) == GcmNonce(b, n) <==> a == b && m == n
  {
    hide PnBigEndian;
    var x, y := CcmNonce(priority, a, m), CcmNonce(other, b, n);
    assert x[0] == priority && x[1..7] == a && x[7..] == PnBigEndian(m);
    assert y[0] == other && y[1..7] == b && y[7..] == PnBigEndian(n);
    var v, w := GcmNonce(a, m), GcmNonce(b, n);
    assert v[..6] == a && v[6..] == PnBigEndian(m) && w[..6] == b && w[6..] == PnBigEndian(n);
    if PnBigEndian(m) == PnBigEndian(n) {
      PnOctetsDetermine(m, n);
    }
  }

  datatype Addresses = Addresses(a1: Addr, a2: Addr, a3: Addr)

  const FC_TODS: byte := 1
  const FC_FROMDS: byte := 2
  const FC_PROTECTED: byte := 64

  // Data frames mask the subtype bits; the flags keep bits 0 to 2 and 6 and 7, the sequence
  // control its fragment number.
  function Aad(fc0: byte, fc1: byte, a: Addresses, sc: u16, tid: Option<byte>): Bytes {
    [if (fc0 / 4) % 4 == 2 then fc0 % 16 + 128 * (fc0 / 128) else fc0, fc1 % 8 + 64 * (fc1 / 64)]
    + a.a1 + a.a2 + a.a3 + [sc % 16, 0] + (if tid.Some? then [tid.value, 0] else [])
  }

  // ---- sealing a payload -----------------------------------------------------------------------------

  datatype Context = Context(
    cipher: DataCipher, tk: Bytes, priority: byte, transmitter: Addr, pn: nat, aad: Bytes)

  function SealPayload(x: Crypto, k: Context, plain: Bytes): Option<(Bytes, Bytes)> {
    if |k.tk| != KeyLength(k.cipher) then None
    else if k.cipher.Ccmp128? || k.cipher.Ccmp256? then
      Some(Ccm.Seal(x.block, k.tk, CcmNonce(k.priority, k.transmitter, k.pn), k.aad, plain, TagLength(k.cipher)))
    else
      Some(x.gcmSeal(k.tk, GcmNonce(k.transmitter, k.pn), k.aad, plain))
  }

  function OpenPayload(x: Crypto, k: Context, c: Bytes, t: Bytes): Option<Bytes> {
    if |k.tk| != KeyLength(k.cipher) then None
    else if k.cipher.Ccmp128? || k.cipher.Ccmp256? then
      Ccm.Open(x.block, k.tk, CcmNonce(k.priority, k.transmitter, k.pn), k.aad, c, t, TagLength(k.cipher))
    else if |t| != 16 then None
    else x.gcmOpen(k.tk, GcmNonce(k.transmitter, k.pn), k.aad, c, t)
  }

  // What is sealed opens again in the same context, with a tag of the cipher's length.
  lemma {:induction false} SealedOpens(x: Crypto, k: Context, plain: Bytes)
    requires GcmExact(x) && |k.tk| == KeyLength(k.cipher)
    ensures var s := SealPayload(x, k, plain);
            s.Some? && |s.value.1| == TagLength(k.cipher) && OpenPayload(x, k, s.value.0, s.value.1) == Some(plain)
  {
    var s := SealPayload(x, k, plain);
    if k.cipher.Ccmp128? || k.cipher.Ccmp256? {
      var nonce := CcmNonce(k.priority, k.transmitter, k.pn);
      Ccm.OpensExactly(x.block, k.tk, nonce, k.aad, s.value.0, s.value.1, TagLength(k.cipher), plain);
      hide Ccm.Ctr, Ccm.Open, CcmNonce;
    }
  }

  // ---- the frame ------------------------------------------------------------------------------------------

  datatype Dot11 = Dot11(fc0: byte, fc1: byte, addr: Addresses, sc: u16, qos: Option<u16>, body: Bytes)

  function Type(f: Dot11): nat { (f.fc0 / 4) % 4 }
  predicate ToDs(f: Dot11) { f.fc1 % 2 == 1 }
  predicate FromDs(f: Dot11) { (f.fc1 / 2) % 2 == 1 }
  predicate IsProtected(f: Dot11) { (f.fc1 / 64) % 2 == 1 }
  predicate IsAmsdu(f: Dot11) { f.qos.Some? && (f.qos.value / 128) % 2 == 1 }
  predicate IsFragment(f: Dot11) { (f.fc1 / 4) % 2 == 1 || f.sc % 16 != 0 }

  function Tid(f: Dot11): Option<byte> {
    if f.qos.Some? then Some(f.qos.value % 16) else None
  }

  // The replay slot: a traffic identifier, or 16 for frames without one.
  function ReplaySlot(tid: Option<byte>): (slot: nat)
    requires tid.Some? ==> tid.value < 16
    ensures slot < 17
  {
    if tid.Some? then tid.value else 16
  }

  function Parse(b: Bytes): Option<Dot11> {
    if |b| < 24 then None else
      var addr := Addresses(b[4..10], b[10..16], b[16..22]);
      var sc := Word(b[22], b[23]);
      var off := if b[1] % 2 == 1 && (b[1] / 2) % 2 == 1 then 30 else 24;
      var isQos := (b[0] / 4) % 4 == 2 && b[0] / 128 == 1;
      if isQos && |b| < off + 2 then None
      else if isQos then Some(Dot11(b[0], b[1], addr, sc, Some(Word(b[off], b[off + 1])), b[off + 2..]))
      else if |b| < off then None
      else Some(Dot11(b[0], b[1], addr, sc, None, b[off..]))
  }

  // One frame to be protected: the addresses in its header and those in its security context.
  datatype Mpdu = Mpdu(
    cipher: DataCipher, tk: Bytes, hdr: Addresses, sec: Addresses, flags: byte, sc: u16, pn: nat,
    keyId: KeyId, tid: Option<byte>)

  function Fc0(tid: Option<byte>): byte {
    if tid.Some? then 0x88 else 0x08
  }

  function Masked(tid: Option<byte>): Option<byte> {
    if tid.Some? then Some(tid.value % 16) else None
  }

  function SenderContext(m: Mpdu): Context {
    Context(m.cipher, m.tk, m.tid.GetOr(0), m.sec.a2, m.pn, Aad(Fc0(m.tid), m.flags, m.sec, m.sc, Masked(m.tid)))
  }

  const LLC_SNAP: Bytes := [0xAA, 0xAA, 0x03, 0, 0, 0]

  function Header(m: Mpdu): (h: Bytes)
    ensures |h| == 24
  {
    [Fc0(m.tid), m.flags, 0, 0] + m.hdr.a1 + m.hdr.a2 + m.hdr.a3 + [m.sc % 256, m.sc / 256]
  }

  function QosControl(tid: Option<byte>): Bytes {
    if tid.Some? then [tid.value % 16, 0] else []
  }

  // `rest` is the Ethernet frame from its type field on.
  function Body(x: Crypto, m: Mpdu, rest: Bytes): Bytes
    requires |m.tk| == KeyLength(m.cipher)
  {
    var s := SealPayload(x, SenderContext(m), LLC_SNAP + rest).value;
    CcmpHeader(m.pn, m.keyId) + s.0 + s.1
  }

  function BuildProtected(x: Crypto, m: Mpdu, rest: Bytes): Bytes
    requires |m.tk| == KeyLength(m.cipher)
  {
    Header(m) + QosControl(m.tid) + Body(x, m, rest)
  }

  function ReceiverContext(cipher: DataCipher, f: Dot11, tk: Bytes, sec: Addresses): Context
    requires |f.body| >= 8
  {
    Context(cipher, tk, Tid(f).GetOr(0), sec.a2, ReadPn(f.body), Aad(f.fc0, f.fc1, sec, f.sc, Tid(f)))
  }

  // Strip the LLC/SNAP header and put an Ethernet header in its place.
  function Ethernet(f: Dot11, plain: Bytes, fromAp: bool): Option<Bytes> {
    if |plain| < 8 || plain[..6] != LLC_SNAP then None
    else if fromAp then Some(f.addr.a1 + f.addr.a3 + plain[6..8] + plain[8..])
    else Some(f.addr.a3 + f.addr.a2 + plain[6..8] + plain[8..])
  }

  function Decapsulate(x: Crypto, cipher: DataCipher, f: Dot11, tk: Bytes, fromAp: bool, sec: Option<Addresses>)
    : Option<Bytes>
  {
    if |f.body| < 8 then None else
      var data := f.body[8..];
      if |data| < TagLength(cipher) then None else
        var cut := |data| - TagLength(cipher);
        var plain := OpenPayload(x, ReceiverContext(cipher, f, tk, sec.GetOr(f.addr)), data[..cut], data[cut..]);
        if plain.None? then None else Ethernet(f, plain.value, fromAp)
  }

  // ---- building and parsing -------------------------------------------------------------------------------

  // What the header parser makes of a built frame.
  function Parsed(x: Crypto, m: Mpdu, rest: Bytes): Dot11
    requires |m.tk| == KeyLength(m.cipher)
  {
    Dot11(Fc0(m.tid), m.flags, m.hdr, m.sc, Masked(m.tid), Body(x, m, rest))
  }

  predicate OneWay(m: Mpdu) {
    m.flags % 2 == 0 || (m.flags / 2) % 2 == 0
  }

  lemma {:induction false} HeaderParses(m: Mpdu, rest: Bytes)
    requires OneWay(m)
    ensures Parse(Header(m) + QosControl(m.tid) + rest)
         == Some(Dot11(Fc0(m.tid), m.flags, m.hdr, m.sc, Masked(m.tid), rest))
  {
    var b := Header(m) + QosControl(m.tid) + rest;
    assert b[0] == Fc0(m.tid) && b[1] == m.flags && b[22] == m.sc % 256 && b[23] == m.sc / 256;
    assert b[4..10] == m.hdr.a1 && b[10..16] == m.hdr.a2 && b[16..22] == m.hdr.a3;
    assert m.sc == m.sc % 256 + 256 * (m.sc / 256);
    if m.tid.Some? {
      assert b[24] == m.tid.value % 16 && b[25] == 0 && b[26..] == rest;
    } else {
      assert b[24..] == rest;
    }
  }

  lemma {:induction false} BuiltParses(x: Crypto, m: Mpdu, rest: Bytes)
    requires |m.tk| == KeyLength(m.cipher) && OneWay(m)
    ensures Parse(BuildProtected(x, m, rest)) == Some(Parsed(x, m, rest))
  {
    hide Parse, Header, QosControl, Body, Masked, Fc0;
    HeaderParses(m, Body(x, m, rest));
  }

  lemma {:induction false} ContextOf(m: Mpdu)
    ensures var k := SenderContext(m); k.pn == m.pn && k.tk == m.tk && k.cipher == m.cipher
  {
  }

  // The receiver's context is the sender's, but for the number it reads.
  lemma {:induction false} ContextsAgree(x: Crypto, m: Mpdu, rest: Bytes, sec: Option<Addresses>)
    requires |m.tk| == KeyLength(m.cipher) && (m.tid.Some? ==> m.tid.value < 16)
    requires sec.GetOr(m.hdr) == m.sec
    ensures var f := Parsed(x, m, rest);
            |f.body| >= 8
            && ReceiverContext(m.cipher, f, m.tk, sec.GetOr(f.addr))
            == SenderContext(m).(pn := ReadPn(CcmpHeader(m.pn, m.keyId)))
            && ReadPn(f.body) == ReadPn(CcmpHeader(m.pn, m.keyId)) && ReadKeyId(f.body) == m.keyId
  {
    hide FromLittleEndian, LittleEndian, SealPayload, Aad;
    var f := Parsed(x, m, rest);
    assert f.body[..8] == CcmpHeader(m.pn, m.keyId);
    assert (64 * m.keyId + 32) / 64 == m.keyId;
    assert Tid(f) == Masked(m.tid);
  }

  // What opening the sealed payload under another packet number gives.
  function Misopened(x: Crypto, m: Mpdu, rest: Bytes, pn: nat): Option<Bytes>
    requires |m.tk| == KeyLength(m.cipher)
  {
    var s := SealPayload(x, SenderContext(m), LLC_SNAP + rest).value;
    OpenPayload(x, SenderContext(m).(pn := pn), s.0, s.1)
  }

  lemma {:induction false} BodySplits(x: Crypto, m: Mpdu, rest: Bytes)
    requires |m.tk| == KeyLength(m.cipher) && GcmExact(x)
    ensures var s := SealPayload(x, SenderContext(m), LLC_SNAP + rest).value;
            var b := Body(x, m, rest);
            |b| >= 8 && |b[8..]| >= TagLength(m.cipher)
            && b[8..][..|b[8..]| - TagLength(m.cipher)] == s.0 && b[8..][|b[8..]| - TagLength(m.cipher)..] == s.1
  {
    hide SealPayload, CcmpHeader, SenderContext;
    ContextOf(m);
    SealedOpens(x, SenderContext(m), LLC_SNAP + rest);
  }

  // A receiver with the sender's key and security addresses gets out of a built frame what
  // opening under the number it reads gives: the sender's Ethernet frame whenever the number
  // survives.
  lemma {:induction false} BuiltDecapsulates(
    x: Crypto, m: Mpdu, rest: Bytes, fromAp: bool, sec: Option<Addresses>)
    requires GcmExact(x) && |m.tk| == KeyLength(m.cipher) && m.pn <= MAX_PACKET_NUMBER && |rest| >= 2
    requires m.tid.Some? ==> m.tid.value < 16
    requires sec.GetOr(m.hdr) == m.sec
    ensures var got := Decapsulate(x, m.cipher, Parsed(x, m, rest), m.tk, fromAp, sec);
            && (PnSurvives(m.pn) ==>
                  got == Some((if fromAp then m.hdr.a1 + m.hdr.a3 else m.hdr.a3 + m.hdr.a2) + rest))
            && (Misopened(x, m, rest, ReadPn(CcmpHeader(m.pn, m.keyId))).None? ==> got.None?)
  {
    hide SealPayload, OpenPayload, Body, GcmExact, ReadPn, CcmpHeader, SenderContext, ReceiverContext, PnSurvives;
    var f := Parsed(x, m, rest);
    var plain := LLC_SNAP + rest;
    ContextOf(m);
    ContextsAgree(x, m, rest, sec);
    BodySplits(x, m, rest);
    SealedOpens(x, SenderContext(m), plain);
    PnReadsBackIff(m.pn, m.keyId);
    assert plain[..6] == LLC_SNAP && plain[6..8] + plain[8..] == rest;
    assert f.body == Body(x, m, rest) && f.addr == m.hdr;
    if PnSurvives(m.pn) {
      assert SenderContext(m).(pn := m.pn) == SenderContext(m);
      EthernetOf(f, rest, fromAp);
    }
  }

  lemma {:induction false} EthernetOf(f: Dot11, rest: Bytes, fromAp: bool)
    requires |rest| >= 2
    ensures Ethernet(f, LLC_SNAP + rest, fromAp)
         == Some((if fromAp then f.addr.a1 + f.addr.a3 else f.addr.a3 + f.addr.a2) + rest)
  {
    var plain := LLC_SNAP + rest;
    assert plain[..6] == LLC_SNAP && plain[6..8] + plain[8..] == rest;
    assert f.addr.a1 + f.addr.a3 + plain[6..8] + plain[8..] == f.addr.a1 + f.addr.a3 + (plain[6..8] + plain[8..]);
    assert f.addr.a3 + f.addr.a2 + plain[6..8] + plain[8..] == f.addr.a3 + f.addr.a2 + (plain[6..8] + plain[8..]);
  }
}
