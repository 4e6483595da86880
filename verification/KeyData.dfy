/**
 EAPOL key data: the key-data encapsulations (KDEs) of message 3 and of the group-key
 message 1, the padding before key wrap, and the walk that reads them back.
 */
module KeyData {
  import opened Common
  import KeyWrap

  // ---- elements ---------------------------------------------------------------

  datatype Element = Element(id: byte, body: Bytes)

  predicate Sendable(es: seq<Element>) {
    forall e :: e in es ==> |e.body| <= 255
  }

  function Encode(es: seq<Element>): Bytes
    requires Sendable(es)
  {
    if es == [] then [] else [es[0].id, |es[0].body|] + es[0].body + Encode(es[1..])
  }

  const OUI: Bytes := [0x00, 0x0f, 0xac]

  predicate IsKde(id: byte, body: Bytes, kdeType: byte) {
    id == 0xdd && |body| >= 4 && body[..3] == OUI && body[3] == kdeType
  }

  // What a reader of the element list is meant to find: the first KDE of the type.
  function FirstKde(es: seq<Element>, kdeType: byte): Option<Bytes> {
    if es == [] then None
    else if IsKde(es[0].id, es[0].body, kdeType) then Some(es[0].body)
    else FirstKde(es[1..], kdeType)
  }

  // ---- the walk over octets ------------------------------------------------------

  function Walk(b: Bytes, kdeType: byte): Option<Bytes>
    decreases |b|
  {
    if |b| < 2 || 2 + b[1] > |b| then None
    else if IsKde(b[0], b[2..2 + b[1]], kdeType) then Some(b[2..2 + b[1]])
    else Walk(b[2 + b[1]..], kdeType)
  }

  method FindVendorKde(keyData: Bytes, kdeType: byte) returns (found: Option<Bytes>)
    ensures found == Walk(keyData, kdeType)
  {
    var offset := 0;
    while offset + 2 <= |keyData|
      invariant 0 <= offset <= |keyData|
      invariant Walk(keyData, kdeType) == Walk(keyData[offset..], kdeType)
    {
      var id, len := keyData[offset], keyData[offset + 1];
      var end := offset + 2 + len;
      ghost var rest := keyData[offset..];
      assert rest[0] == id && rest[1] == len;
      if end > |keyData| {
        return None;
      }
      var body := keyData[offset + 2..end];
      assert rest[2..2 + len] == body;
      if IsKde(id, body, kdeType) {
        return Some(body);
      }
      assert rest[2 + len..] == keyData[end..];
      offset := end;
    }
    found := None;
  }

  // ---- padding ---------------------------------------------------------------------

  function Zeros(n: nat): (z: Bytes)
    ensures |z| == n && forall i :: 0 <= i < n ==> z[i] == 0
  {
    if n == 0 then [] else [0] + Zeros(n - 1)
  }

  function Padding(n: nat): Bytes {
    if n % 8 == 0 then [] else [0xdd] + Zeros(7 - n % 8)
  }

  method PadKeyData(plain: Bytes) returns (padded: Bytes)
    ensures padded == plain + Padding(|plain|)
    ensures |padded| % 8 == 0
  {
    padded := plain;
    if |padded| % 8 != 0 {
      padded := padded + [0xdd];
      ghost var zeros := 7 - |plain| % 8;
      while |padded| % 8 != 0
        invariant |plain| + 1 <= |padded| <= |plain| + 1 + zeros
        invariant padded == plain + [0xdd] + Zeros(|padded| - |plain| - 1)
        decreases |plain| + 1 + zeros - |padded|
      {
        ZerosSnoc(|padded| - |plain| - 1);
        padded := padded + [0];
      }
    }
  }

  lemma {:induction false} ZerosSnoc(n: nat)
    ensures Zeros(n) + [0] == Zeros(n + 1)
  {
    assert |Zeros(n) + [0]| == |Zeros(n + 1)|;
  }

  lemma {:induction false} WalkZeros(n: nat, kdeType: byte)
    ensures Walk(Zeros(n), kdeType) == None
  {
    if n >= 2 {
      assert Zeros(n)[2..] == Zeros(n - 2);
      WalkZeros(n - 2, kdeType);
    }
  }

  lemma {:induction false} WalkPadding(n: nat, kdeType: byte)
    ensures Walk(Padding(n), kdeType) == None
  {
    var p := Padding(n);
    if |p| >= 2 {
      assert p[2..] == Zeros(|p| - 2);
      WalkZeros(|p| - 2, kdeType);
    }
  }

  // The walk over padded octets finds exactly what the element list holds first, for
  // every element list and every amount of padding it needs.
  lemma {:induction false} WalkFindsFirst(es: seq<Element>, pad: nat, kdeType: byte)
    requires Sendable(es)
    ensures Walk(Encode(es) + Padding(pad), kdeType) == FirstKde(es, kdeType)
  {
    if es == [] {
      WalkPadding(pad, kdeType);
      assert Encode(es) + Padding(pad) == Padding(pad);
    } else {
      var b, rest := Encode(es) + Padding(pad), Encode(es[1..]) + Padding(pad);
      assert b == [es[0].id, |es[0].body|] + es[0].body + rest;
      assert b[2..2 + b[1]] == es[0].body && b[2 + b[1]..] == rest;
      WalkFindsFirst(es[1..], pad, kdeType);
    }
  }

  lemma {:induction false} EncodeCons(e: Element, es: seq<Element>)
    requires |e.body| <= 255 && Sendable(es)
    ensures Sendable([e] + es) && Encode([e] + es) == [e.id, |e.body|] + e.body + Encode(es)
  {
    assert ([e] + es)[1..] == es;
  }

  lemma {:induction false} EncodeAppend(xs: seq<Element>, ys: seq<Element>)
    requires Sendable(xs) && Sendable(ys)
    ensures Sendable(xs + ys) && Encode(xs + ys) == Encode(xs) + Encode(ys)
  {
    if xs == [] {
      assert xs + ys == ys;
    } else {
      EncodeAppend(xs[1..], ys);
      EncodeCons(xs[0], xs[1..]);
      EncodeCons(xs[0], xs[1..] + ys);
      assert xs == [xs[0]] + xs[1..] && xs + ys == [xs[0]] + (xs[1..] + ys);
      hide Encode, Sendable;
      var head: Bytes := [xs[0].id, |xs[0].body|] + xs[0].body;
      assert head + (Encode(xs[1..]) + Encode(ys)) == head + Encode(xs[1..]) + Encode(ys);
    }
  }

  lemma {:induction false} FirstAppend(xs: seq<Element>, ys: seq<Element>, kdeType: byte)
    ensures FirstKde(xs + ys, kdeType)
         == if FirstKde(xs, kdeType).Some? then FirstKde(xs, kdeType) else FirstKde(ys, kdeType)
  {
    if xs == [] {
      assert xs + ys == ys;
    } else {
      FirstAppend(xs[1..], ys, kdeType);
      assert (xs + ys)[1..] == xs[1..] + ys;
    }
  }

  // ---- the KDEs ----------------------------------------------------------------------

  const GTK_KDE: byte := 0x01
  const IGTK_KDE: byte := 0x09
  const OCI_KDE: byte := 0x0d
  const BIGTK_KDE: byte := 0x0e
  const MLO_GTK_KDE: byte := 0x10
  const MLO_IGTK_KDE: byte := 0x11
  const MLO_BIGTK_KDE: byte := 0x12

  type Octets6 = b: Bytes | |b| == 6 witness [0, 0, 0, 0, 0, 0]
  type Octets16 = b: Bytes | |b| == 16 witness [0, 0, 0, 0, 0, 0, 0, 0, 0, 0, 0, 0, 0, 0, 0, 0]
  type u16 = x: int | 0 <= x < 0x1_0000

  function Word(low: byte, high: byte): u16 {
    low as int + 256 * (high as int)
  }

  // An integrity group key: its key id, packet number octets and key material.
  datatype ManagementKey = ManagementKey(keyId: u16, ipn: Octets6, key: Octets16)
  datatype Oci = Oci(operatingClass: byte, channel: byte)

  function Kde(kdeType: byte, data: Bytes): Element {
    Element(0xdd, OUI + [kdeType] + data)
  }

  function GtkKde(keyId: byte, gtk: Octets16): Element {
    Kde(GTK_KDE, [keyId % 4, 0] + gtk)
  }

  function MloGtkKde(linkId: byte, keyId: byte, pn: Octets6, gtk: Octets16): Element {
    Kde(MLO_GTK_KDE, [keyId % 4 + 16 * (linkId % 16)] + pn + gtk)
  }

  function ManagementKde(kdeType: byte, k: ManagementKey): Element {
    Kde(kdeType, [k.keyId % 256, k.keyId / 256] + k.ipn + k.key)
  }

  function MloManagementKde(kdeType: byte, linkId: byte, k: ManagementKey): Element {
    Kde(kdeType, [k.keyId % 256, k.keyId / 256] + k.ipn + [16 * (linkId % 16)] + k.key)
  }

  function OciKde(oci: Oci): Element {
    Kde(OCI_KDE, [oci.operatingClass, oci.channel, 0])
  }

  datatype Gtk = Gtk(keyId: nat, rsc: nat, key: Bytes)

  function GtkFrom(body: Bytes, keyRsc: nat): Option<Gtk> {
    if |body| < 22 || |body[6..]| != 16 then None else Some(Gtk(body[4] % 4, keyRsc, body[6..]))
  }

  function MloGtkFrom(body: Bytes): Option<Gtk> {
    if |body| < 12 || |body[11..]| != 16 then None
    else Some(Gtk(body[4] % 4, FromLittleEndian(body[5..11]), body[11..]))
  }

  function ManagementFrom(body: Bytes, mlo: bool): Option<ManagementKey> {
    var at := if mlo then 13 else 12;
    if |body| < at + 16 then None
    else Some(ManagementKey(Word(body[4], body[5]), body[6..12], body[at..at + 16]))
  }

  function Read<T>(found: Option<Bytes>, f: Bytes -> Option<T>): Option<T> {
    if found.None? then None else f(found.value)
  }

  function OrElse<T>(a: Option<T>, b: Option<T>): Option<T> {
    if a.Some? then a else b
  }

  // What the supplicant reads from unwrapped key data: legacy KDEs first, MLO otherwise.
  function ReadGtk(b: Bytes, keyRsc: nat): Option<Gtk> {
    OrElse(Read(Walk(b, GTK_KDE), body => GtkFrom(body, keyRsc)), Read(Walk(b, MLO_GTK_KDE), MloGtkFrom))
  }

  function ReadManagement(b: Bytes, kdeType: byte, mloType: byte): Option<ManagementKey> {
    OrElse(Read(Walk(b, kdeType), body => ManagementFrom(body, false)),
           Read(Walk(b, mloType), body => ManagementFrom(body, true)))
  }

  // The OCI reader has its own walk: a short OCI body is passed over, not returned.
  function WalkOci(b: Bytes): Option<Oci>
    decreases |b|
  {
    if |b| < 2 || 2 + b[1] > |b| then None
    else
      var body := b[2..2 + b[1]];
      if |body| >= 7 && IsKde(b[0], body, OCI_KDE) then Some(Oci(body[4], body[5]))
      else WalkOci(b[2 + b[1]..])
  }

  // The two walks agree whenever the first OCI element is long enough to be one.
  lemma {:induction false} OciWalkAgrees(b: Bytes)
    requires Walk(b, OCI_KDE).Some? ==> |Walk(b, OCI_KDE).value| >= 7
    ensures WalkOci(b) == Read(Walk(b, OCI_KDE), body =>
              if |body| >= 7 then Some(Oci(body[4], body[5])) else None)
    decreases |b|
  {
    if |b| >= 2 && 2 + b[1] <= |b| && !IsKde(b[0], b[2..2 + b[1]], OCI_KDE) {
      OciWalkAgrees(b[2 + b[1]..]);
    }
  }

  // ---- message 3 and group-key message 1 ------------------------------------------------

  datatype GroupKeys = GroupKeys(
    keyId: byte, gtk: Octets16, igtk: Option<ManagementKey>, bigtk: Option<ManagementKey>, oci: Option<Oci>)

  function Optional<T>(o: Option<T>, f: T -> Element): seq<Element> {
    if o.None? then [] else [f(o.value)]
  }

  // Legacy layout: the advertised RSN elements, then GTK, IGTK, BIGTK and OCI.
  function LegacyElements(rsn: seq<Element>, g: GroupKeys): seq<Element> {
    rsn
    + ([GtkKde(g.keyId, g.gtk)]
       + (Optional(g.igtk, k => ManagementKde(IGTK_KDE, k))
          + (Optional(g.bigtk, k => ManagementKde(BIGTK_KDE, k)) + Optional(g.oci, OciKde))))
  }

  const MAC_KDE: byte := 0x03
  const LINK_KDE: byte := 0x13

  // One link of a Multi-Link station: its id, flags, address and RSN elements.
  datatype Link = Link(id: byte, info: byte, mac: Octets6, rsne: Bytes)

  function PerLink(links: seq<Link>, f: Link -> Element): (es: seq<Element>)
    ensures |es| == |links|
  {
    if links == [] then [] else [f(links[0])] + PerLink(links[1..], f)
  }

  function LinkKde(l: Link): Element {
    Kde(LINK_KDE, [l.info] + l.mac + l.rsne)
  }

  // Each group key once for each link: the whole of a Multi-Link group-key message 1.
  function MloGroupElements(links: seq<Link>, rsc: nat, g: GroupKeys): seq<Element> {
    PerLink(links, (l: Link) => MloGtkKde(l.id, g.keyId, LittleEndian(rsc, 6), g.gtk))
    + ((if g.igtk.None? then []
        else PerLink(links, (l: Link) => MloManagementKde(MLO_IGTK_KDE, l.id, g.igtk.value)))
       + (if g.bigtk.None? then []
          else PerLink(links, (l: Link) => MloManagementKde(MLO_BIGTK_KDE, l.id, g.bigtk.value))))
  }

  // A Multi-Link message 3 has OCI, the AP MLD address and a link KDE for each link in front;
  // a group-key message 1 (no address) has nothing.
  function MloElements(apMld: Option<Octets6>, links: seq<Link>, rsc: nat, g: GroupKeys): seq<Element> {
    if apMld.None? then MloGroupElements(links, rsc, g)
    else
      Optional(g.oci, OciKde)
      + ([Kde(MAC_KDE, apMld.value)] + (PerLink(links, LinkKde) + MloGroupElements(links, rsc, g)))
  }

  predicate NoKdes(es: seq<Element>) {
    forall e, t :: e in es ==> !IsKde(e.id, e.body, t)
  }

  // Every key reads back exactly as it was sent.
  ghost predicate ReadsBack(b: Bytes, keyRsc: nat, g: GroupKeys) {
    && ReadGtk(b, keyRsc) == Some(Gtk(g.keyId % 4, keyRsc, g.gtk))
    && ReadManagement(b, IGTK_KDE, MLO_IGTK_KDE) == g.igtk
    && ReadManagement(b, BIGTK_KDE, MLO_BIGTK_KDE) == g.bigtk
    && WalkOci(b) == g.oci
  }

  function Padded(b: Bytes): (p: Bytes)
    ensures |p| % 8 == 0
  {
    b + Padding(|b|)
  }

  // ---- single KDEs -----------------------------------------------------------------------

  lemma {:induction false} KdeType(t: byte, data: Bytes, u: byte)
    ensures var e := Kde(t, data); IsKde(e.id, e.body, u) <==> t == u
    ensures Kde(t, data).body[4..] == data
  {
    var e := Kde(t, data);
    assert e.body[..3] == OUI;
  }

  lemma {:induction false} GtkReads(keyId: byte, gtk: Octets16, rsc: nat)
    ensures GtkFrom(GtkKde(keyId, gtk).body, rsc) == Some(Gtk(keyId % 4, rsc, gtk))
  {
    var b := GtkKde(keyId, gtk).body;
    assert b == OUI + [GTK_KDE, keyId % 4, 0] + gtk;
    assert b[6..] == gtk;
  }

  lemma {:induction false} MloGtkReads(linkId: byte, keyId: byte, rsc: nat, gtk: Octets16)
    requires rsc <= MAX_PACKET_NUMBER
    ensures MloGtkFrom(MloGtkKde(linkId, keyId, LittleEndian(rsc, 6), gtk).body) == Some(Gtk(keyId % 4, rsc, gtk))
  {
    var pn := LittleEndian(rsc, 6);
    var b := MloGtkKde(linkId, keyId, pn, gtk).body;
    assert b == OUI + [MLO_GTK_KDE, keyId % 4 + 16 * (linkId % 16)] + pn + gtk;
    assert b[5..11] == pn && b[11..] == gtk;
    LittleEndianRoundTrip(rsc, 6);
    assert Pow256(6) == 0x1_0000_0000_0000;
  }

  lemma {:induction false} KeyIdReads(k: u16)
    ensures k % 256 + 256 * (k / 256) == k
  {
  }

  lemma {:induction false} ManagementReads(t: byte, k: ManagementKey)
    ensures ManagementFrom(ManagementKde(t, k).body, false) == Some(k)
  {
    var b := ManagementKde(t, k).body;
    assert b == OUI + [t, k.keyId % 256, k.keyId / 256] + k.ipn + k.key;
    assert b[6..12] == k.ipn && b[12..28] == k.key;
    KeyIdReads(k.keyId);
  }

  lemma {:induction false} MloManagementReads(t: byte, linkId: byte, k: ManagementKey)
    ensures ManagementFrom(MloManagementKde(t, linkId, k).body, true) == Some(k)
  {
    var b := MloManagementKde(t, linkId, k).body;
    assert b == OUI + [t, k.keyId % 256, k.keyId / 256] + k.ipn + [16 * (linkId % 16)] + k.key;
    assert b[6..12] == k.ipn && b[13..29] == k.key;
    KeyIdReads(k.keyId);
  }

  // ---- what the lists hold first -----------------------------------------------------------

  lemma {:induction false} FirstOfNone(es: seq<Element>, t: byte)
    requires NoKdes(es)
    ensures FirstKde(es, t) == None
  {
    if es != [] {
      FirstOfNone(es[1..], t);
    }
  }

  lemma {:induction false} FirstOfOne(u: byte, data: Bytes, t: byte)
    ensures FirstKde([Kde(u, data)], t) == if t == u then Some(Kde(u, data).body) else None
  {
    KdeType(u, data, t);
    assert [Kde(u, data)][1..] == [];
  }

  // Elements of one type repeated for each link: the first link's is found.
  lemma {:induction false} FirstOfLinks(links: seq<Link>, f: Link -> Element, u: byte, t: byte)
    requires forall l: Link :: IsKde(f(l).id, f(l).body, t) <==> t == u
    ensures FirstKde(PerLink(links, f), t) == if t == u && links != [] then Some(f(links[0]).body) else None
  {
    if links != [] {
      FirstOfLinks(links[1..], f, u, t);
      assert PerLink(links, f)[1..] == PerLink(links[1..], f);
    }
  }

  // What a KDE type finds in the legacy layout.
  function LegacyFirst(g: GroupKeys, t: byte): Option<Bytes> {
    if t == GTK_KDE then Some(GtkKde(g.keyId, g.gtk).body)
    else if t == IGTK_KDE && g.igtk.Some? then Some(ManagementKde(IGTK_KDE, g.igtk.value).body)
    else if t == BIGTK_KDE && g.bigtk.Some? then Some(ManagementKde(BIGTK_KDE, g.bigtk.value).body)
    else if t == OCI_KDE && g.oci.Some? then Some(OciKde(g.oci.value).body)
    else None
  }

  lemma {:induction false} FirstOfManagement(u: byte, k: Option<ManagementKey>, t: byte)
    ensures FirstKde(Optional(k, x => ManagementKde(u, x)), t)
         == if t == u && k.Some? then Some(ManagementKde(u, k.value).body) else None
  {
    if k.Some? {
      FirstOfOne(u, [k.value.keyId % 256, k.value.keyId / 256] + k.value.ipn + k.value.key, t);
    }
  }

  lemma {:induction false} FirstOfOci(oci: Option<Oci>, t: byte)
    ensures FirstKde(Optional(oci, OciKde), t)
         == if t == OCI_KDE && oci.Some? then Some(OciKde(oci.value).body) else None
  {
    if oci.Some? {
      FirstOfOne(OCI_KDE, [oci.value.operatingClass, oci.value.channel, 0], t);
    }
  }

  lemma {:induction false} LegacyFinds(rsn: seq<Element>, g: GroupKeys, t: byte)
    requires NoKdes(rsn)
    ensures FirstKde(LegacyElements(rsn, g), t) == LegacyFirst(g, t)
  {
    hide FirstKde, Kde, NoKdes, Optional, GtkKde, OciKde, ManagementKde;
    var gtk := [GtkKde(g.keyId, g.gtk)];
    var igtk := Optional(g.igtk, k => ManagementKde(IGTK_KDE, k));
    var bigtk := Optional(g.bigtk, k => ManagementKde(BIGTK_KDE, k));
    var oci := Optional(g.oci, OciKde);
    FirstAppend(rsn, gtk + (igtk + (bigtk + oci)), t);
    FirstAppend(gtk, igtk + (bigtk + oci), t);
    FirstAppend(igtk, bigtk + oci, t);
    FirstAppend(bigtk, oci, t);
    FirstOfNone(rsn, t);
    FirstOfGtk(g.keyId, g.gtk, t);
    FirstOfManagement(IGTK_KDE, g.igtk, t);
    FirstOfManagement(BIGTK_KDE, g.bigtk, t);
    FirstOfOci(g.oci, t);
  }

  lemma {:induction false} FirstOfGtk(keyId: byte, gtk: Octets16, t: byte)
    ensures FirstKde([GtkKde(keyId, gtk)], t) == if t == GTK_KDE then Some(GtkKde(keyId, gtk).body) else None
  {
    FirstOfOne(GTK_KDE, [keyId % 4, 0] + gtk, t);
  }

  // ---- reading the legacy layout -----------------------------------------------------------------

  lemma {:induction false} PaddedWalk(es: seq<Element>, t: byte)
    requires Sendable(es)
    ensures Walk(Padded(Encode(es)), t) == FirstKde(es, t)
  {
    WalkFindsFirst(es, |Encode(es)|, t);
  }

  lemma {:induction false} OciReads(b: Bytes, oci: Option<Oci>)
    requires Walk(b, OCI_KDE) == if oci.Some? then Some(OciKde(oci.value).body) else None
    ensures WalkOci(b) == oci
  {
    if oci.Some? {
      assert OciKde(oci.value).body == OUI + [OCI_KDE, oci.value.operatingClass, oci.value.channel, 0];
    }
    OciWalkAgrees(b);
  }

  // Message 3 and, with no RSN elements, BIGTK or OCI, group-key message 1: whatever the RSN
  // elements and the amount of padding, exactly the keys that were sent are read back.
  lemma {:induction false} LegacyReadsBack(rsn: seq<Element>, g: GroupKeys, keyRsc: nat)
    requires NoKdes(rsn) && Sendable(rsn)
    ensures Sendable(LegacyElements(rsn, g))
    ensures ReadsBack(Padded(Encode(LegacyElements(rsn, g))), keyRsc, g)
  {
    LegacySendable(rsn, g);
    var es := LegacyElements(rsn, g);
    var b := Padded(Encode(es));
    forall t: byte ensures Walk(b, t) == LegacyFirst(g, t) {
      PaddedWalk(es, t);
      LegacyFinds(rsn, g, t);
    }
    hide Walk, Padded, LegacyElements, Encode, Sendable;
    GtkReads(g.keyId, g.gtk, keyRsc);
    if g.igtk.Some? {
      ManagementReads(IGTK_KDE, g.igtk.value);
    }
    if g.bigtk.Some? {
      ManagementReads(BIGTK_KDE, g.bigtk.value);
    }
    hide GtkFrom, ManagementFrom, GtkKde, ManagementKde;
    OciReads(b, g.oci);
  }

  lemma {:induction false} KdesFit(g: GroupKeys)
    ensures |GtkKde(g.keyId, g.gtk).body| <= 255
    ensures g.igtk.Some? ==> |ManagementKde(IGTK_KDE, g.igtk.value).body| <= 255
    ensures g.bigtk.Some? ==> |ManagementKde(BIGTK_KDE, g.bigtk.value).body| <= 255
    ensures g.oci.Some? ==> |OciKde(g.oci.value).body| <= 255
  {
  }

  lemma {:induction false} LegacySendable(rsn: seq<Element>, g: GroupKeys)
    requires Sendable(rsn)
    ensures Sendable(LegacyElements(rsn, g))
  {
    hide GtkKde, ManagementKde, OciKde;
    KdesFit(g);
  }
}
