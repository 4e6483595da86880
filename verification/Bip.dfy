/**
 BIP protection of group-addressed management frames (section 12.5.4 of IEEE 802.11-2020):
 the Management MIC element at the end of the body, its verification, and the packet number
 it carries. The CMAC is an arbitrary function.
 */
module Bip {
  import opened Common
  import opened KeyData

  type Cmac = (Octets16, Bytes) -> Octets16

  datatype Header = Header(fc0: byte, fc1: byte, a1: Octets6, a2: Octets6, a3: Octets6)

  const EID_MME: byte := 76

  function Aad(h: Header): Bytes {
    [h.fc0, h.fc1 % 8 + 64 * (h.fc1 / 64)] + h.a1 + h.a2 + h.a3
  }

  // The element without its MIC.
  function Unsigned(keyId: u16, ipn: Octets6): (b: Bytes)
    ensures |b| == 10
  {
    [EID_MME, 16] + [keyId % 256, keyId / 256] + ipn
  }

  // The MIC covers the header, the body and the element with zeros for the MIC.
  function Mic(cmac: Cmac, igtk: Octets16, h: Header, unsigned: Bytes): (m: Bytes)
    ensures |m| == 8
  {
    cmac(igtk, Aad(h) + (unsigned + Zeros(8)))[..8]
  }

  function Protect(cmac: Cmac, igtk: Octets16, keyId: u16, ipn: Octets6, h: Header, body: Bytes): (b: Bytes)
    ensures |b| == |body| + 18
  {
    var unsigned := body + Unsigned(keyId, ipn);
    unsigned + Mic(cmac, igtk, h, unsigned)
  }

  method BipProtect(cmac: Cmac, igtk: Octets16, keyId: u16, ipn: Octets6, h: Header, body: Bytes) returns (b: Bytes)
    ensures b == Protect(cmac, igtk, keyId, ipn, h, body)
  {
    var at := |body|;
    b := body;
    b := b + [EID_MME, 16];
    b := b + [keyId % 256, keyId / 256];
    b := b + ipn;
    ghost var unsigned := b;
    assert unsigned == body + Unsigned(keyId, ipn);
    b := b + Zeros(8);
    var mic := cmac(igtk, Aad(h) + b);
    b := b[..at + 10] + mic[..8];
    assert b[..at + 10] == unsigned;
  }

  predicate HasMme(b: Bytes) {
    |b| >= 18 && b[|b| - 18] == EID_MME && b[|b| - 17] == 16
  }

  method BipVerify(cmac: Cmac, igtk: Octets16, h: Header, b: Bytes) returns (ok: bool)
    ensures ok == Verifies(cmac, igtk, h, b)
  {
    if |b| < 18 {
      return false;
    }
    var at := |b| - 18;
    if b[at] != EID_MME || b[at + 1] != 16 {
      return false;
    }
    var given := b[at + 10..];
    var cleared := b[..at + 10] + Zeros(8);
    ok := cmac(igtk, Aad(h) + cleared)[..8] == given;
  }

  predicate Verifies(cmac: Cmac, igtk: Octets16, h: Header, b: Bytes) {
    HasMme(b) && b[|b| - 8..] == Mic(cmac, igtk, h, b[..|b| - 8])
  }

  function Ipn(b: Bytes): Option<nat> {
    if !HasMme(b) then None else Some(FromLittleEndian(b[|b| - 14..|b| - 8]))
  }

  // Verification accepts exactly what protection produces: the body in front of the element,
  // under the key id and packet number the element names.
  lemma {:induction false} VerifiesIffProtected(cmac: Cmac, igtk: Octets16, h: Header, b: Bytes)
    ensures Verifies(cmac, igtk, h, b) <==>
            |b| >= 18
            && b == Protect(cmac, igtk, Word(b[|b| - 16], b[|b| - 15]), b[|b| - 14..|b| - 8], h, b[..|b| - 18])
  {
    if |b| >= 18 {
      var body, keyId, ipn := b[..|b| - 18], Word(b[|b| - 16], b[|b| - 15]), b[|b| - 14..|b| - 8];
      var p := Protect(cmac, igtk, keyId, ipn, h, body);
      var head := b[..|b| - 8];
      var mme: Bytes := b[|b| - 18..|b| - 8];
      WordParts(b[|b| - 16], b[|b| - 15]);
      assert head == body + mme;
      assert mme == [b[|b| - 18], b[|b| - 17]] + [keyId % 256, keyId / 256] + ipn;
      assert HasMme(b) ==> mme == Unsigned(keyId, ipn);
      assert p[|b| - 18] == EID_MME && p[|b| - 17] == 16;
      assert b == head + b[|b| - 8..];
      assert HasMme(b) ==> p == head + Mic(cmac, igtk, h, head);
      assert HasMme(b) && p == b ==> p[|b| - 8..] == Mic(cmac, igtk, h, head);
    }
  }

  lemma {:induction false} WordParts(low: byte, high: byte)
    ensures Word(low, high) % 256 == low && Word(low, high) / 256 == high
  {
  }

  // What is protected verifies, and its packet number reads back.
  lemma {:induction false} ProtectedVerifies(
    cmac: Cmac, igtk: Octets16, keyId: u16, ipn: Octets6, h: Header, body: Bytes)
    ensures var b := Protect(cmac, igtk, keyId, ipn, h, body);
            Verifies(cmac, igtk, h, b) && Ipn(b) == Some(FromLittleEndian(ipn)) && b[..|body|] == body
  {
    var unsigned := body + Unsigned(keyId, ipn);
    var b := Protect(cmac, igtk, keyId, ipn, h, body);
    assert b[..|b| - 8] == unsigned && b[|b| - 8..] == Mic(cmac, igtk, h, unsigned);
    assert b[|body|..|body| + 10] == Unsigned(keyId, ipn);
    assert b[|b| - 14..|b| - 8] == Unsigned(keyId, ipn)[4..] == ipn;
    assert b[|b| - 18] == Unsigned(keyId, ipn)[0] && b[|b| - 17] == Unsigned(keyId, ipn)[1];
  }

  // ---- the packet number ---------------------------------------------------------------------

  // Add one to the least significant octet and carry.
  function Incremented(b: Bytes): (c: Bytes)
    ensures |c| == |b|
  {
    if b == [] then []
    else if b[0] == 255 then [0] + Incremented(b[1..])
    else [b[0] + 1] + b[1..]
  }

  // The octets below i were all 255, octet i is the one that takes the carry.
  lemma {:induction false} CarryStops(was: Bytes, now: Bytes, i: nat)
    requires i < |was| == |now| && was[i] < 255 && now[i] == was[i] + 1
    requires forall k :: 0 <= k < i ==> was[k] == 255 && now[k] == 0
    requires forall k :: i < k < |was| ==> now[k] == was[k]
    ensures now == Incremented(was)
  {
    if i == 0 {
      assert now == [was[0] + 1] + was[1..];
    } else {
      CarryStops(was[1..], now[1..], i - 1);
      assert now == [0] + now[1..];
    }
  }

  lemma {:induction false} CarryWraps(was: Bytes, now: Bytes)
    requires |was| == |now| && forall k :: 0 <= k < |was| ==> was[k] == 255 && now[k] == 0
    ensures now == Incremented(was)
  {
    if was != [] {
      CarryWraps(was[1..], now[1..]);
      assert now == [0] + now[1..];
    }
  }

  method IncIpn(ipn: array<byte>)
    modifies ipn
    ensures ipn[..] == Incremented(old(ipn[..]))
  {
    hide Incremented;
    var i := 0;
    while i < ipn.Length
      invariant 0 <= i <= ipn.Length
      invariant forall k :: 0 <= k < i ==> old(ipn[k]) == 255 && ipn[k] == 0
      invariant forall k :: i <= k < ipn.Length ==> ipn[k] == old(ipn[k])
    {
      ipn[i] := if ipn[i] == 255 then 0 else ipn[i] + 1;
      if ipn[i] != 0 {
        CarryStops(old(ipn[..]), ipn[..], i);
        return;
      }
      i := i + 1;
    }
    CarryWraps(old(ipn[..]), ipn[..]);
  }

  // The octets count modulo their width, so below 2^48 - 1 each increment gives a number one
  // higher: the next frame's packet number is new and accepted.
  lemma {:induction false} IncrementAddsOne(b: Bytes)
    ensures FromLittleEndian(b) < Pow256(|b|)
    ensures FromLittleEndian(Incremented(b))
         == if FromLittleEndian(b) + 1 == Pow256(|b|) then 0 else FromLittleEndian(b) + 1
  {
    if b != [] {
      IncrementAddsOne(b[1..]);
      var c := Incremented(b);
      assert c[1..] == if b[0] == 255 then Incremented(b[1..]) else b[1..];
    }
  }
}
