/**
 The cryptography of the handshakes, taken symbolically. A key is a term naming what it
 was derived from, a MIC is a term naming the key and everything it covers, and wrapped
 key data names its key-encryption key. Two derived keys are equal only when they come
 from the same PMK, address pair, nonce pair and hash.
 */
module Symbols {
  import opened Common

  type Nonce = nat
  type Pmk = nat
  type GroupKey = nat

  // The all-zero nonce field of messages that carry none.
  const NO_NONCE: Nonce := 0

  // ---- key derivation ------------------------------------------------------------

  datatype Suite = Sha1Prf | Sha256Kdf(tkLength: nat)

  datatype Ptk = Ptk(pmk: Pmk, addressLow: Mac, addressHigh: Mac, nonceLow: Nonce, nonceHigh: Nonce, suite: Suite)
  {
    predicate Uses(n: Nonce) {
      n == nonceLow || n == nonceHigh
    }
  }

  // Both ends sort the addresses and the nonces before they are hashed.
  function Derive(pmk: Pmk, aa: Mac, spa: Mac, anonce: Nonce, snonce: Nonce, suite: Suite): Ptk {
    var low, high := if aa <= spa then aa else spa, if aa <= spa then spa else aa;
    if anonce <= snonce then Ptk(pmk, low, high, anonce, snonce, suite)
    else Ptk(pmk, low, high, snonce, anonce, suite)
  }

  // The three parts a PTK is cut into, and the all-zero value of a key not yet installed.
  datatype Secret = Zero | Kck(ptk: Ptk) | Kek(ptk: Ptk) | Tk(ptk: Ptk)

  // ---- EAPOL-Key frames ----------------------------------------------------------------

  datatype MicAlgorithm = HmacSha1 | AesCmac | HmacSha256 | AesCmacV3

  function Version(a: MicAlgorithm): nat {
    match a
    case HmacSha1 => 2
    case AesCmacV3 => 3
    case _ => 0
  }

  // The bits of Key Information; `other` is the key index and SMK bits.
  datatype KeyInfo = KeyInfo(
    version: nat, pairwise: bool, install: bool, ack: bool, mic: bool, secure: bool,
    error: bool, request: bool, encrypted: bool, other: nat)

  datatype Oci = Oci(operatingClass: nat, channel: nat)

  // Group keys as key data delivers them. A legacy GTK takes its packet number from the
  // frame's key RSC, a Multi-Link one carries its own.
  datatype GtkDelivery = NoGtk | LegacyGtk(keyId: nat, key: GroupKey) | MloGtk(keyId: nat, pn: nat, key: GroupKey)
  datatype IgtkDelivery = IgtkDelivery(keyId: nat, ipn: nat, key: GroupKey)
  datatype Delivery = Delivery(
    gtk: GtkDelivery, igtk: Option<IgtkDelivery>, bigtk: Option<GroupKey>, oci: Option<Oci>)

  datatype KeyData =
    | Empty
    | Plain(rsn: nat, mldMac: Option<Mac>, oci: Option<Oci>)
    | Wrapped(kek: Secret, keys: Delivery)

  function Unwrap(kek: Secret, data: KeyData): Option<Delivery> {
    if data.Wrapped? && data.kek == kek then Some(data.keys) else None
  }

  // Everything the MIC covers.
  datatype Body = Body(info: KeyInfo, keyLength: nat, replay: nat, nonce: Nonce, rsc: nat, data: KeyData)

  datatype Mic = Mic(algorithm: MicAlgorithm, kck: Secret, body: Body) | OtherMic(octets: nat)

  datatype EapolKey = EapolKey(body: Body, mic: Mic)

  predicate MicValid(a: MicAlgorithm, kck: Secret, f: EapolKey) {
    f.mic == Mic(a, kck, f.body)
  }

  function Signed(a: MicAlgorithm, kck: Secret, body: Body): EapolKey {
    EapolKey(body, Mic(a, kck, body))
  }

  // ---- the messages, by the bits their builders set ------------------------------------------

  function Info1(v: nat): KeyInfo {
    KeyInfo(v, true, false, true, false, false, false, false, false, 0)
  }
  function Info2(v: nat): KeyInfo {
    KeyInfo(v, true, false, false, true, false, false, false, false, 0)
  }
  function Info3(v: nat): KeyInfo {
    KeyInfo(v, true, true, true, true, true, false, false, true, 0)
  }
  function Info4(v: nat): KeyInfo {
    KeyInfo(v, true, false, false, true, true, false, false, false, 0)
  }
  function InfoGroup1(v: nat): KeyInfo {
    KeyInfo(v, false, false, true, true, true, false, false, true, 0)
  }
  function InfoGroup2(v: nat): KeyInfo {
    KeyInfo(v, false, false, false, true, true, false, false, false, 0)
  }

  function Message1(v: nat, keyLength: nat, replay: nat, anonce: Nonce, data: KeyData): EapolKey {
    EapolKey(Body(Info1(v), keyLength, replay, anonce, 0, data), OtherMic(0))
  }

  function Message2(a: MicAlgorithm, kck: Secret, replay: nat, snonce: Nonce, data: KeyData): EapolKey {
    Signed(a, kck, Body(Info2(Version(a)), 0, replay, snonce, 0, data))
  }

  function Message3(a: MicAlgorithm, kck: Secret, kek: Secret, keyLength: nat, replay: nat, anonce: Nonce,
                    rsc: nat, keys: Delivery): EapolKey {
    Signed(a, kck, Body(Info3(Version(a)), keyLength, replay, anonce, rsc, Wrapped(kek, keys)))
  }

  function Message4(a: MicAlgorithm, kck: Secret, replay: nat, mldMac: Option<Mac>): EapolKey {
    Signed(a, kck, Body(Info4(Version(a)), 0, replay, NO_NONCE, 0,
                        if mldMac.None? then Empty else Plain(0, mldMac, None)))
  }

  function GroupMessage1(a: MicAlgorithm, kck: Secret, kek: Secret, replay: nat, rsc: nat, keys: Delivery): EapolKey {
    Signed(a, kck, Body(InfoGroup1(Version(a)), 0, replay, NO_NONCE, rsc, Wrapped(kek, keys)))
  }

  function GroupMessage2(a: MicAlgorithm, kck: Secret, replay: nat): EapolKey {
    Signed(a, kck, Body(InfoGroup2(Version(a)), 0, replay, NO_NONCE, 0, Empty))
  }

  // ---- replay windows and protected frames -----------------------------------------------------

  datatype Content = Ethernet(octets: nat) | Eapol(frame: EapolKey) | Reason(code: nat)
    | SaQueryRequest(id: nat) | SaQueryResponse(id: nat) | BtmRequest(imminent: bool) | OtherAction

  datatype SealKey = Pairwise(tk: Secret) | Group(gtk: GroupKey) | Integrity(igtk: GroupKey) | Unknown

  // A replay counter lives with the key it belongs to.
  datatype Counter = Data(tk: Secret, slot: Slot) | Management(tk: Secret)
    | GroupData(gtk: GroupKey, slot: Slot) | Bip(igtk: GroupKey)
}
