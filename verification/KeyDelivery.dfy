/**
 Key data from one end to the other: built, padded, wrapped, unwrapped, walked and
 installed, in the legacy layout and in the Multi-Link one.
 */
module KeyDelivery {
  import opened Common
  import opened KeyData
  import KeyWrap
  import Y = Symbols
  import S = Supplicant

  // ---- the Multi-Link layout -------------------------------------------------------------

  // What a KDE type finds in the Multi-Link layout: the first link's copy of each key.
  function MloFirst(apMld: Option<Octets6>, links: seq<Link>, rsc: nat, g: GroupKeys, t: byte): Option<Bytes> {
    if apMld.Some? && t == OCI_KDE && g.oci.Some? then Some(OciKde(g.oci.value).body)
    else if apMld.Some? && t == MAC_KDE then Some(Kde(MAC_KDE, apMld.value).body)
    else if links == [] then None
    else if apMld.Some? && t == LINK_KDE then Some(LinkKde(links[0]).body)
    else if t == MLO_GTK_KDE then Some(MloGtkKde(links[0].id, g.keyId, LittleEndian(rsc, 6), g.gtk).body)
    else if t == MLO_IGTK_KDE && g.igtk.Some? then Some(MloManagementKde(MLO_IGTK_KDE, links[0].id, g.igtk.value).body)
    else if t == MLO_BIGTK_KDE && g.bigtk.Some? then Some(MloManagementKde(MLO_BIGTK_KDE, links[0].id, g.bigtk.value).body)
    else None
  }

  lemma {:induction false} FirstOfMloGtk(links: seq<Link>, keyId: byte, pn: Octets6, gtk: Octets16, t: byte)
    ensures FirstKde(PerLink(links, (l: Link) => MloGtkKde(l.id, keyId, pn, gtk)), t)
         == if t == MLO_GTK_KDE && links != [] then Some(MloGtkKde(links[0].id, keyId, pn, gtk).body) else None
  {
    var f := (l: Link) => MloGtkKde(l.id, keyId, pn, gtk);
    forall l: Link ensures IsKde(f(l).id, f(l).body, t) <==> t == MLO_GTK_KDE {
      KdeType(MLO_GTK_KDE, [keyId % 4 + 16 * (l.id % 16)] + pn + gtk, t);
    }
    hide Kde, IsKde, MloGtkKde, FirstKde;
    FirstOfLinks(links, f, MLO_GTK_KDE, t);
  }

  lemma {:induction false} FirstOfMloManagement(links: seq<Link>, u: byte, k: ManagementKey, t: byte)
    ensures FirstKde(PerLink(links, (l: Link) => MloManagementKde(u, l.id, k)), t)
         == if t == u && links != [] then Some(MloManagementKde(u, links[0].id, k).body) else None
  {
    var f := (l: Link) => MloManagementKde(u, l.id, k);
    forall l: Link ensures IsKde(f(l).id, f(l).body, t) <==> t == u {
      KdeType(u, [k.keyId % 256, k.keyId / 256] + k.ipn + [16 * (l.id % 16)] + k.key, t);
    }
    hide Kde, IsKde, MloManagementKde, FirstKde;
    FirstOfLinks(links, f, u, t);
  }

  lemma {:induction false} FirstOfLinkKdes(links: seq<Link>, t: byte)
    ensures FirstKde(PerLink(links, LinkKde), t) == if t == LINK_KDE && links != [] then Some(LinkKde(links[0]).body) else None
  {
    forall l: Link ensures IsKde(LinkKde(l).id, LinkKde(l).body, t) <==> t == LINK_KDE {
      KdeType(LINK_KDE, [l.info] + l.mac + l.rsne, t);
    }
    hide Kde, IsKde, LinkKde, FirstKde;
    FirstOfLinks(links, LinkKde, LINK_KDE, t);
  }

  function MloIgtks(links: seq<Link>, g: GroupKeys): seq<Element> {
    if g.igtk.None? then [] else PerLink(links, (l: Link) => MloManagementKde(MLO_IGTK_KDE, l.id, g.igtk.value))
  }

  function MloBigtks(links: seq<Link>, g: GroupKeys): seq<Element> {
    if g.bigtk.None? then [] else PerLink(links, (l: Link) => MloManagementKde(MLO_BIGTK_KDE, l.id, g.bigtk.value))
  }

  function MloGtks(links: seq<Link>, rsc: nat, g: GroupKeys): seq<Element> {
    var pn := LittleEndian(rsc, 6);
    PerLink(links, (l: Link) => MloGtkKde(l.id, g.keyId, pn, g.gtk))
  }

  lemma {:induction false} PerLinkSame(links: seq<Link>, f: Link -> Element, h: Link -> Element)
    requires forall l: Link :: f(l) == h(l)
    ensures PerLink(links, f) == PerLink(links, h)
  {
    if links != [] {
      PerLinkSame(links[1..], f, h);
    }
  }

  lemma {:induction false} MloParts(links: seq<Link>, rsc: nat, g: GroupKeys)
    ensures MloGroupElements(links, rsc, g) == MloGtks(links, rsc, g) + (MloIgtks(links, g) + MloBigtks(links, g))
  {
    hide MloGtkKde, MloManagementKde, LittleEndian;
    var pn := LittleEndian(rsc, 6);
    PerLinkSame(links, (l: Link) => MloGtkKde(l.id, g.keyId, LittleEndian(rsc, 6), g.gtk),
                (l: Link) => MloGtkKde(l.id, g.keyId, pn, g.gtk));
    if g.igtk.Some? {
      PerLinkSame(links, (l: Link) => MloManagementKde(MLO_IGTK_KDE, l.id, g.igtk.value),
                  (l: Link) => MloManagementKde(MLO_IGTK_KDE, l.id, g.igtk.value));
    }
    if g.bigtk.Some? {
      PerLinkSame(links, (l: Link) => MloManagementKde(MLO_BIGTK_KDE, l.id, g.bigtk.value),
                  (l: Link) => MloManagementKde(MLO_BIGTK_KDE, l.id, g.bigtk.value));
    }
  }

  lemma {:induction false} MloGroupFinds(links: seq<Link>, rsc: nat, g: GroupKeys, t: byte)
    ensures FirstKde(MloGroupElements(links, rsc, g), t) == MloFirst(None, links, rsc, g, t)
  {
    MloParts(links, rsc, g);
    if g.igtk.Some? {
      FirstOfMloManagement(links, MLO_IGTK_KDE, g.igtk.value, t);
    }
    if g.bigtk.Some? {
      FirstOfMloManagement(links, MLO_BIGTK_KDE, g.bigtk.value, t);
    }
    FirstOfMloGtk(links, g.keyId, LittleEndian(rsc, 6), g.gtk, t);
    NoneOfNone(t);
    var gtks, igtks, bigtks := MloGtks(links, rsc, g), MloIgtks(links, g), MloBigtks(links, g);
    hide MloGroupElements, FirstKde, MloGtks, Kde, LinkKde, OciKde, Optional, PerLink, MloGtkKde, MloManagementKde;
    assert FirstKde(gtks, t) == (if t == MLO_GTK_KDE && links != []
                                 then Some(MloGtkKde(links[0].id, g.keyId, LittleEndian(rsc, 6), g.gtk).body) else None)
      by { GtksAre(links, rsc, g); }
    FirstAppend(gtks, igtks + bigtks, t);
    FirstAppend(igtks, bigtks, t);
  }

  lemma {:induction false} MloFinds(apMld: Option<Octets6>, links: seq<Link>, rsc: nat, g: GroupKeys, t: byte)
    ensures FirstKde(MloElements(apMld, links, rsc, g), t) == MloFirst(apMld, links, rsc, g, t)
  {
    hide FirstKde, Kde, LinkKde, OciKde, Optional, PerLink, MloGtkKde, MloManagementKde, MloGroupElements;
    MloGroupFinds(links, rsc, g, t);
    if apMld.Some? {
      var group := MloGroupElements(links, rsc, g);
      var oci, mac, kdes := Optional(g.oci, OciKde), [Kde(MAC_KDE, apMld.value)], PerLink(links, LinkKde);
      FirstOfOci(g.oci, t);
      FirstOfOne(MAC_KDE, apMld.value, t);
      FirstOfLinkKdes(links, t);
      FirstAppend(oci, mac + (kdes + group), t);
      FirstAppend(mac, kdes + group, t);
      FirstAppend(kdes, group, t);
    }
  }

  lemma {:induction false} NoneOfNone(t: byte)
    ensures FirstKde([], t) == None
  {
  }

  lemma {:induction false} GtksAre(links: seq<Link>, rsc: nat, g: GroupKeys)
    ensures var pn := LittleEndian(rsc, 6);
            MloGtks(links, rsc, g) == PerLink(links, (l: Link) => MloGtkKde(l.id, g.keyId, pn, g.gtk))
  {
  }

  predicate LinksFit(links: seq<Link>) {
    forall l :: l in links ==> |l.rsne| <= 244
  }

  lemma {:induction false} PerLinkSendable(links: seq<Link>, f: Link -> Element)
    requires forall l :: l in links ==> |f(l).body| <= 255
    ensures Sendable(PerLink(links, f))
  {
    if links != [] {
      assert links[0] in links;
      PerLinkSendable(links[1..], f);
    }
  }

  lemma {:induction false} MloSendable(apMld: Option<Octets6>, links: seq<Link>, rsc: nat, g: GroupKeys)
    requires LinksFit(links)
    ensures Sendable(MloElements(apMld, links, rsc, g))
  {
    MloParts(links, rsc, g);
    var pn := LittleEndian(rsc, 6);
    PerLinkSendable(links, LinkKde);
    PerLinkSendable(links, (l: Link) => MloGtkKde(l.id, g.keyId, pn, g.gtk));
    if g.igtk.Some? {
      PerLinkSendable(links, (l: Link) => MloManagementKde(MLO_IGTK_KDE, l.id, g.igtk.value));
    }
    if g.bigtk.Some? {
      PerLinkSendable(links, (l: Link) => MloManagementKde(MLO_BIGTK_KDE, l.id, g.bigtk.value));
    }
    hide MloGroupElements, PerLink;
  }

  lemma {:induction false} ReadsMloGtk(b: Bytes, linkId: byte, keyId: byte, rsc: nat, gtk: Octets16)
    requires rsc <= MAX_PACKET_NUMBER
    requires Walk(b, GTK_KDE) == None
    requires Walk(b, MLO_GTK_KDE) == Some(MloGtkKde(linkId, keyId, LittleEndian(rsc, 6), gtk).body)
    ensures ReadGtk(b, rsc) == Some(Gtk(keyId % 4, rsc, gtk))
  {
    MloGtkReads(linkId, keyId, rsc, gtk);
    hide Walk, MloGtkFrom, MloGtkKde, LittleEndian;
  }

  lemma {:induction false} ReadsMloManagement(b: Bytes, legacy: byte, mlo: byte, linkId: byte, k: Option<ManagementKey>)
    requires Walk(b, legacy) == None
    requires Walk(b, mlo) == if k.None? then None else Some(MloManagementKde(mlo, linkId, k.value).body)
    ensures ReadManagement(b, legacy, mlo) == k
  {
    if k.Some? {
      MloManagementReads(mlo, linkId, k.value);
    }
    hide Walk, ManagementFrom, MloManagementKde;
  }

  lemma {:induction false} MloWalks(apMld: Option<Octets6>, links: seq<Link>, rsc: nat, g: GroupKeys, t: byte)
    requires LinksFit(links)
    ensures Sendable(MloElements(apMld, links, rsc, g))
    ensures Walk(Padded(Encode(MloElements(apMld, links, rsc, g))), t) == MloFirst(apMld, links, rsc, g, t)
  {
    hide Walk, Padded, MloElements, Encode, Sendable, FirstKde, MloFirst;
    MloSendable(apMld, links, rsc, g);
    PaddedWalk(MloElements(apMld, links, rsc, g), t);
    MloFinds(apMld, links, rsc, g, t);
  }

  function MloKeyData(apMld: Option<Octets6>, links: seq<Link>, rsc: nat, g: GroupKeys): Bytes
    requires LinksFit(links)
  {
    MloSendable(apMld, links, rsc, g);
    Padded(Encode(MloElements(apMld, links, rsc, g)))
  }

  lemma {:induction false} MloGtkBack(apMld: Option<Octets6>, links: seq<Link>, rsc: nat, g: GroupKeys)
    requires LinksFit(links) && links != [] && rsc <= MAX_PACKET_NUMBER
    ensures ReadGtk(MloKeyData(apMld, links, rsc, g), rsc) == Some(Gtk(g.keyId % 4, rsc, g.gtk))
    ensures WalkOci(MloKeyData(apMld, links, rsc, g)) == if apMld.None? then None else g.oci
  {
    hide Walk, WalkOci, Padded, MloElements, Encode, Sendable, LittleEndian, ReadGtk, MloGtkKde, MloManagementKde, Kde, OciKde;
    var b := MloKeyData(apMld, links, rsc, g);
    MloWalks(apMld, links, rsc, g, GTK_KDE);
    MloWalks(apMld, links, rsc, g, MLO_GTK_KDE);
    ReadsMloGtk(b, links[0].id, g.keyId, rsc, g.gtk);
    MloWalks(apMld, links, rsc, g, OCI_KDE);
    OciReads(b, if apMld.None? then None else g.oci);
  }

  lemma {:induction false} MloManagementBack(apMld: Option<Octets6>, links: seq<Link>, rsc: nat, g: GroupKeys)
    requires LinksFit(links) && links != []
    ensures ReadManagement(MloKeyData(apMld, links, rsc, g), IGTK_KDE, MLO_IGTK_KDE) == g.igtk
    ensures ReadManagement(MloKeyData(apMld, links, rsc, g), BIGTK_KDE, MLO_BIGTK_KDE) == g.bigtk
  {
    hide Walk, Padded, MloElements, Encode, Sendable, LittleEndian, ReadManagement, MloGtkKde, MloManagementKde, Kde, OciKde;
    var b := MloKeyData(apMld, links, rsc, g);
    MloWalks(apMld, links, rsc, g, IGTK_KDE);
    MloWalks(apMld, links, rsc, g, MLO_IGTK_KDE);
    ReadsMloManagement(b, IGTK_KDE, MLO_IGTK_KDE, links[0].id, g.igtk);
    MloWalks(apMld, links, rsc, g, BIGTK_KDE);
    MloWalks(apMld, links, rsc, g, MLO_BIGTK_KDE);
    ReadsMloManagement(b, BIGTK_KDE, MLO_BIGTK_KDE, links[0].id, g.bigtk);
  }

  // What a Multi-Link message delivers: a group-key message 1 carries no OCI.
  function MloSent(apMld: Option<Octets6>, g: GroupKeys): GroupKeys {
    if apMld.None? then g.(oci := None) else g
  }

  // With at least one link, the Multi-Link key data too reads back as it was sent, in message 3
  // and in group-key message 1; the RSC of the frame is then not used.
  lemma {:induction false} MloReadsBack(apMld: Option<Octets6>, links: seq<Link>, rsc: nat, g: GroupKeys)
    requires LinksFit(links) && links != [] && rsc <= MAX_PACKET_NUMBER
    ensures ReadsBack(MloKeyData(apMld, links, rsc, g), rsc, MloSent(apMld, g))
  {
    hide MloKeyData, ReadGtk, ReadManagement, WalkOci;
    MloGtkBack(apMld, links, rsc, g);
    MloManagementBack(apMld, links, rsc, g);
  }

  // ---- the builders ---------------------------------------------------------------------------

  // Append one KDE for every link, in order.
  method AppendForLinks(plain: Bytes, links: seq<Link>, f: Link -> Element) returns (out: Bytes)
    requires forall l :: l in links ==> |f(l).body| <= 255
    ensures Sendable(PerLink(links, f)) && out == plain + Encode(PerLink(links, f))
  {
    PerLinkSendable(links, f);
    out := plain;
    var i := 0;
    while i < |links|
      invariant i <= |links|
      invariant Sendable(PerLink(links[i..], f))
      invariant plain + Encode(PerLink(links, f)) == out + Encode(PerLink(links[i..], f))
    {
      var e := f(links[i]);
      assert links[i] in links;
      assert links[i..][0] == links[i] && links[i..][1..] == links[i + 1..];
      PerLinkSendable(links[i + 1..], f);
      ghost var rest := PerLink(links[i + 1..], f);
      assert PerLink(links[i..], f) == [e] + rest;
      EncodeCons(e, rest);
      hide Encode, PerLink;
      assert out + ([e.id, |e.body|] + e.body + Encode(rest)) == out + ([e.id, |e.body|] + e.body) + Encode(rest);
      out := out + ([e.id, |e.body|] + e.body);
      i := i + 1;
    }
    assert links[i..] == [] && Encode(PerLink([], f)) == [];
  }

  // ---- the whole way ------------------------------------------------------------------------------

  // The keys as the supplicant's group-key installation sees them; `name` identifies material.
  function ToDelivery(b: Bytes, name: Bytes -> nat): Y.Delivery {
    var legacy := Read(Walk(b, GTK_KDE), body => GtkFrom(body, 0));
    var mlo := Read(Walk(b, MLO_GTK_KDE), MloGtkFrom);
    var igtk := ReadManagement(b, IGTK_KDE, MLO_IGTK_KDE);
    var bigtk := ReadManagement(b, BIGTK_KDE, MLO_BIGTK_KDE);
    var oci := WalkOci(b);
    Y.Delivery(
      if legacy.Some? then Y.LegacyGtk(legacy.value.keyId, name(legacy.value.key))
      else if mlo.Some? then Y.MloGtk(mlo.value.keyId, mlo.value.rsc, name(mlo.value.key))
      else Y.NoGtk,
      if igtk.Some? then Some(Y.IgtkDelivery(igtk.value.keyId, FromLittleEndian(igtk.value.ipn), name(igtk.value.key))) else None,
      if bigtk.Some? then Some(name(bigtk.value.key)) else None,
      if oci.Some? then Some(Y.Oci(oci.value.operatingClass, oci.value.channel)) else None)
  }

  // A supplicant that held no group keys holds exactly those that were sent, with its windows
  // at the RSC and IPN that were sent with them.
  predicate HoldsSent(s: S.State, t: S.State, g: GroupKeys, rsc: nat, name: Bytes -> nat) {
    && t.gtkSet && t.gtk == name(g.gtk) && t.gtkKeyId == g.keyId % 4 && t.rxGroupPn == Uniform(rsc)
    && (if g.igtk.None? then t.igtk.None?
        else t.igtk == Some(name(g.igtk.value.key)) && t.igtkKeyId == Some(g.igtk.value.keyId)
             && t.rxIgtkIpn == FromLittleEndian(g.igtk.value.ipn))
    && (t.bigtk == if g.bigtk.None? then s.bigtk else Some(name(g.bigtk.value.key)))
  }

  lemma {:induction false} DeliveryFits(b: Bytes, g: GroupKeys, rsc: nat, name: Bytes -> nat)
    requires ReadsBack(b, rsc, g)
    ensures S.DeliveredGtk(ToDelivery(b, name), rsc) == Some((g.keyId % 4, rsc, name(g.gtk)))
    ensures var d := ToDelivery(b, name);
            && (d.igtk == if g.igtk.None? then None
                          else Some(Y.IgtkDelivery(g.igtk.value.keyId, FromLittleEndian(g.igtk.value.ipn), name(g.igtk.value.key))))
            && (d.bigtk == if g.bigtk.None? then None else Some(name(g.bigtk.value.key)))
            && (d.oci == if g.oci.None? then None else Some(Y.Oci(g.oci.value.operatingClass, g.oci.value.channel)))
  {
    hide Walk, WalkOci, ManagementFrom, FromLittleEndian;
    var found := Walk(b, GTK_KDE);
    if found.Some? {
      assert GtkFrom(found.value, 0).Some? <==> GtkFrom(found.value, rsc).Some?;
    }
  }

  lemma {:induction false} DeliveredIsHeld(s: S.State, b: Bytes, g: GroupKeys, rsc: nat, name: Bytes -> nat)
    requires ReadsBack(b, rsc, g) && rsc <= MAX_PACKET_NUMBER
    requires !s.gtkSet && s.igtk.None?
    ensures var i := S.InstallGroupKeys(s, ToDelivery(b, name), rsc);
            (i.Refused? <==> s.saePmk.Some? && g.igtk.None?) && (i.Granted? ==> HoldsSent(s, i.s, g, rsc, name))
  {
    DeliveryFits(b, g, rsc, name);
    hide ToDelivery, ReadsBack, FromLittleEndian;
  }

  // Pad, wrap, unwrap, walk and install: legacy message 3 and group-key message 1.
  lemma {:induction false} LegacyKeysArrive(enc: KeyWrap.Cipher, dec: KeyWrap.Cipher, kek: Bytes, rsn: seq<Element>, g: GroupKeys, rsc: nat,
                         s: S.State, name: Bytes -> nat)
    requires KeyWrap.Permutation(enc, dec)
    requires NoKdes(rsn) && Sendable(rsn) && rsc <= MAX_PACKET_NUMBER
    requires !s.gtkSet && s.igtk.None? && (s.saePmk.Some? ==> g.igtk.Some?)
    ensures Sendable(LegacyElements(rsn, g))
    ensures var unwrapped := KeyWrap.Unwrap(dec, kek, KeyWrap.Wrap(enc, kek, Padded(Encode(LegacyElements(rsn, g)))));
            && unwrapped.Some? && WalkOci(unwrapped.value) == g.oci
            && S.InstallGroupKeys(s, ToDelivery(unwrapped.value, name), rsc).Granted?
            && HoldsSent(s, S.InstallGroupKeys(s, ToDelivery(unwrapped.value, name), rsc).s, g, rsc, name)
  {
    LegacySendable(rsn, g);
    var b := Padded(Encode(LegacyElements(rsn, g)));
    NotEmpty(LegacyElements(rsn, g), GtkKde(g.keyId, g.gtk));
    LegacyReadsBack(rsn, g, rsc);
    hide LegacyElements, Encode, Padded, Sendable, HoldsSent, S.InstallGroupKeys, ToDelivery;
    KeyWrap.UnwrapIffWrapped(enc, dec, kek, KeyWrap.Wrap(enc, kek, b), b);
    DeliveredIsHeld(s, b, g, rsc, name);
  }

  // The same for a Multi-Link station, message 3 and group-key message 1.
  lemma {:induction false} MloKeysArrive(enc: KeyWrap.Cipher, dec: KeyWrap.Cipher, kek: Bytes, apMld: Option<Octets6>, links: seq<Link>,
                      g: GroupKeys, rsc: nat, s: S.State, name: Bytes -> nat)
    requires KeyWrap.Permutation(enc, dec)
    requires LinksFit(links) && links != [] && rsc <= MAX_PACKET_NUMBER
    requires !s.gtkSet && s.igtk.None? && (s.saePmk.Some? ==> g.igtk.Some?)
    ensures var unwrapped := KeyWrap.Unwrap(dec, kek, KeyWrap.Wrap(enc, kek, MloKeyData(apMld, links, rsc, g)));
            && unwrapped.Some? && WalkOci(unwrapped.value) == MloSent(apMld, g).oci
            && S.InstallGroupKeys(s, ToDelivery(unwrapped.value, name), rsc).Granted?
            && HoldsSent(s, S.InstallGroupKeys(s, ToDelivery(unwrapped.value, name), rsc).s, g, rsc, name)
  {
    MloReadsBack(apMld, links, rsc, g);
    var b := MloKeyData(apMld, links, rsc, g);
    MloSendable(apMld, links, rsc, g);
    NotEmpty(MloElements(apMld, links, rsc, g), MloGtkKde(links[0].id, g.keyId, LittleEndian(rsc, 6), g.gtk));
    hide MloElements, Encode, Padded, Sendable, S.InstallGroupKeys, ToDelivery;
    KeyWrap.UnwrapIffWrapped(enc, dec, kek, KeyWrap.Wrap(enc, kek, b), b);
    DeliveredIsHeld(s, b, MloSent(apMld, g), rsc, name);
  }

  lemma {:induction false} NotEmpty(es: seq<Element>, e: Element)
    requires Sendable(es) && e in es
    ensures |Padded(Encode(es))| > 0
  {
  }
}
