/**
 The two data paths, each end as the program runs it: Ethernet to protected frame and back,
 from client to access point and from access point to client. The two ends translate link
 addresses to MLD addresses independently; the theorems say that they agree, and that an
 in-order frame arrives unchanged exactly when its packet number survives the header.

 Classes ClientData and ApData perform the operations by assignment.
 */
module DataPlane {
  import opened Common
  import opened KeyData
  import opened DataFrames

  type Octets32 = b: Bytes | |b| == 32 witness Zeros(32)
  type UserPriority = t: byte | t < 8

  const ETHERTYPE_EAPOL: Bytes := [0x88, 0x8E]

  predicate IsMulticast(a: Addr) { a[0] % 2 == 1 }

  // The packet's IP precedence: ToS, or the IPv6 traffic class, shifted down by five.
  function WmmTid(eth: Bytes): UserPriority {
    if |eth| < 16 then 0
    else if eth[12] == 0x08 && eth[13] == 0x00 then eth[15] / 32
    else if eth[12] == 0x86 && eth[13] == 0xDD then (16 * ((eth[14] as int) % 16) + eth[15] as int / 16) / 32
    else 0
  }

  function NextSc(sc: nat): nat {
    (sc + 1) % 4096
  }

  // ---- the client ------------------------------------------------------------------------

  datatype ClientLink = ClientLink(
    mac: Addr, bssid: Option<Addr>, connected: nat, cipher: DataCipher, tk: Octets32,
    wmm: bool, tidOverride: Option<UserPriority>, mld: Option<Addr>, apMld: Option<Addr>,
    gtk: Octets16, gtkKeyId: nat)

  datatype ClientState = ClientState(link: ClientLink, pn: nat, sc: nat, rxPn: Window, rxGroupPn: Window)

  predicate IsMlo(k: ClientLink) {
    k.mld.Some? && k.apMld.Some?
  }

  function UplinkTid(k: ClientLink, eth: Bytes): Option<byte> {
    if !k.wmm then None else Some(k.tidOverride.GetOr(WmmTid(eth)))
  }

  function UplinkSec(k: ClientLink, bssid: Addr, dst: Addr): Addresses {
    if IsMlo(k) then Addresses(k.apMld.value, k.mld.value, if dst == bssid then k.apMld.value else dst)
    else Addresses(bssid, k.mac, dst)
  }

  function UplinkMpdu(c: ClientState, eth: Bytes): (m: Mpdu)
    requires c.link.bssid.Some? && |eth| >= 14
    ensures |m.tk| == KeyLength(m.cipher)
  {
    var k, bssid, dst := c.link, c.link.bssid.value, eth[..6];
    Mpdu(k.cipher, k.tk[..KeyLength(k.cipher)], Addresses(bssid, k.mac, dst), UplinkSec(k, bssid, dst),
         FC_TODS + FC_PROTECTED, NextSc(c.sc) * 16, c.pn, 0, UplinkTid(k, eth))
  }

  predicate MaySend(c: ClientState, eth: Bytes) {
    c.link.bssid.Some? && c.link.connected >= 4 && |eth| >= 14 && c.pn <= MAX_PACKET_NUMBER
  }

  function EncryptUplink(x: Crypto, c: ClientState, eth: Bytes): (ClientState, Option<Bytes>) {
    if !MaySend(c, eth) then (c, None)
    else (c.(pn := c.pn + 1, sc := NextSc(c.sc)), Some(BuildProtected(x, UplinkMpdu(c, eth), eth[12..])))
  }

  datatype Received = Ignored | Network(eth: Bytes) | ControlledPort(eth: Bytes, pairwise: bool)

  function DownlinkSec(k: ClientLink, f: Dot11): Option<Addresses> {
    if !IsMlo(k) || k.bssid.None? then None
    else Some(Addresses(k.mld.value, k.apMld.value, if f.addr.a3 == k.bssid.value then k.apMld.value else f.addr.a3))
  }

  predicate IsGroupKey(k: ClientLink, f: Dot11) {
    ReadKeyId(f.body) == k.gtkKeyId && ReadKeyId(f.body) != 0
  }

  // The guards that stand before any decryption.
  predicate ClientAdmits(k: ClientLink, f: Dot11) {
    var groupRa := IsMulticast(f.addr.a1);
    && f.addr.a2 != k.mac
    && k.connected > 3 && Type(f) == 2 && IsProtected(f) && FromDs(f)
    && !IsFragment(f) && !IsAmsdu(f)
    && (groupRa || f.addr.a1 == k.mac)
    && (IsGroupKey(k, f) ==> groupRa)
    && (!IsGroupKey(k, f) ==> !groupRa && ReadKeyId(f.body) == 0)
    && |f.body| >= 8
  }

  function ClientOpens(x: Crypto, k: ClientLink, f: Dot11): Option<Bytes> {
    if IsGroupKey(k, f) then Decapsulate(x, Ccmp128, f, k.gtk, true, None)
    else Decapsulate(x, k.cipher, f, k.tk[..KeyLength(k.cipher)], true, DownlinkSec(k, f))
  }

  function Sort(eth: Bytes, pairwise: bool): Received {
    if |eth| >= 14 && eth[12..14] == ETHERTYPE_EAPOL then ControlledPort(eth, pairwise) else Network(eth)
  }

  function ReceiveDownlink(x: Crypto, c: ClientState, wire: Bytes): (ClientState, Received) {
    var parsed := Parse(wire);
    if parsed.None? || !ClientAdmits(c.link, parsed.value) then (c, Ignored) else
      var f := parsed.value;
      var pn, slot := ReadPn(f.body), ReplaySlot(Tid(f));
      var group := IsGroupKey(c.link, f);
      if pn <= (if group then c.rxGroupPn[slot] else c.rxPn[slot]) then (c, Ignored) else
        var plain := ClientOpens(x, c.link, f);
        if plain.None? then (c, Ignored)
        else if group then (c.(rxGroupPn := c.rxGroupPn[slot := pn]), Sort(plain.value, false))
        else (c.(rxPn := c.rxPn[slot := pn]), Sort(plain.value, true))
  }

  // ---- the access point -----------------------------------------------------------------------

  datatype Station = Station(
    associated: bool, cipher: DataCipher, tk: Octets32, wmm: bool, clientMld: Option<Addr>, rxPn: Window, pn: nat)

  datatype ApConfig = ApConfig(mac: Addr, mld: bool, mldMac: Addr, guest: bool, gtk: Octets16, gtkKeyId: KeyId)

  datatype ApState = ApState(cfg: ApConfig, stations: map<Addr, Station>, groupPn: nat, sc: nat)

  predicate Associated(a: ApState, mac: Addr) {
    mac in a.stations && a.stations[mac].associated
  }

  function TranslateA3(cfg: ApConfig, a3: Addr): Addr {
    if a3 == cfg.mac || a3 == cfg.mldMac then cfg.mldMac else a3
  }

  function RxSec(cfg: ApConfig, s: Station, f: Dot11): Option<Addresses> {
    if !cfg.mld || s.clientMld.None? then None
    else Some(Addresses(cfg.mldMac, s.clientMld.value, TranslateA3(cfg, f.addr.a3)))
  }

  function TxSec(cfg: ApConfig, s: Station, src: Addr): Option<Addresses> {
    if !cfg.mld || s.clientMld.None? then None
    else Some(Addresses(s.clientMld.value, cfg.mldMac, TranslateA3(cfg, src)))
  }

  datatype Uplinked = Dropped | Deauth(sta: Addr) | Undecryptable(sta: Addr) | Forwarded(eth: Bytes)

  function Forward(a: ApState, eth: Bytes): Uplinked
    requires |eth| >= 6
  {
    if a.cfg.guest && Associated(a, eth[..6]) then Dropped else Forwarded(eth)
  }

  function HandleDataUplink(x: Crypto, a: ApState, f: Dot11): (ApState, Uplinked) {
    var sta := f.addr.a2;
    if f.addr.a1 != a.cfg.mac || IsAmsdu(f) || IsFragment(f) || ReadKeyId(f.body) != 0 then (a, Dropped)
    else if sta !in a.stations then (a, Deauth(sta))
    else
      var s := a.stations[sta];
      if !s.associated || |f.body| < 8 then (a, Dropped) else
        var pn, slot := ReadPn(f.body), ReplaySlot(Tid(f));
        if pn <= s.rxPn[slot] then (a, Dropped) else
          var plain := Decapsulate(x, s.cipher, f, s.tk[..KeyLength(s.cipher)], false, RxSec(a.cfg, s, f));
          if plain.None? then (a, Undecryptable(sta))
          else if |plain.value| < 12 || plain.value[6..12] != sta then (a, Dropped)
          else (a.(stations := a.stations[sta := s.(rxPn := s.rxPn[slot := pn])]), Forward(a, plain.value))
  }

  // Protected data towards the distribution system; everything else is handled elsewhere.
  function ReceiveUplink(x: Crypto, a: ApState, wire: Bytes): (ApState, Uplinked) {
    var parsed := Parse(wire);
    if parsed.None? || Type(parsed.value) != 2 || !IsProtected(parsed.value) || !ToDs(parsed.value) then (a, Dropped)
    else HandleDataUplink(x, a, parsed.value)
  }

  function GroupMpdu(a: ApState, eth: Bytes): (m: Mpdu)
    requires |eth| >= 14
    ensures |m.tk| == KeyLength(m.cipher)
  {
    var hdr := Addresses(eth[..6], a.cfg.mac, eth[6..12]);
    Mpdu(Ccmp128, a.cfg.gtk, hdr, hdr, FC_FROMDS + FC_PROTECTED, NextSc(a.sc) * 16, a.groupPn, a.cfg.gtkKeyId, None)
  }

  function StationMpdu(a: ApState, s: Station, eth: Bytes): (m: Mpdu)
    requires |eth| >= 14
    ensures |m.tk| == KeyLength(m.cipher)
  {
    var hdr := Addresses(eth[..6], a.cfg.mac, eth[6..12]);
    Mpdu(s.cipher, s.tk[..KeyLength(s.cipher)], hdr, TxSec(a.cfg, s, eth[6..12]).GetOr(hdr),
         FC_FROMDS + FC_PROTECTED, NextSc(a.sc) * 16, s.pn, 0, if s.wmm then Some(WmmTid(eth)) else None)
  }

  function DeliverToStation(x: Crypto, a: ApState, eth: Bytes): (ApState, Option<Bytes>) {
    if |eth| < 14 || (a.cfg.guest && Associated(a, eth[6..12])) then (a, None)
    else if IsMulticast(eth[..6]) then
      if a.groupPn > MAX_PACKET_NUMBER then (a, None)
      else (a.(groupPn := a.groupPn + 1, sc := NextSc(a.sc)), Some(BuildProtected(x, GroupMpdu(a, eth), eth[12..])))
    else
      var dst := eth[..6];
      if !Associated(a, dst) || a.stations[dst].pn > MAX_PACKET_NUMBER then (a, None) else
        var s := a.stations[dst];
        (a.(stations := a.stations[dst := s.(pn := s.pn + 1)], sc := NextSc(a.sc)),
         Some(BuildProtected(x, StationMpdu(a, s, eth), eth[12..])))
  }

  // ---- the two ends of one association ------------------------------------------------------------

  // Both ends hold the same key, cipher and addresses, and both are MLO or neither is.
  predicate Paired(c: ClientState, a: ApState) {
    var k := c.link;
    && k.bssid == Some(a.cfg.mac) && k.connected >= 4 && k.mac != a.cfg.mac && !IsMulticast(k.mac)
    && Associated(a, k.mac)
    && var s := a.stations[k.mac];
    && s.cipher == k.cipher && s.tk == k.tk
    && (IsMlo(k) <==> a.cfg.mld && s.clientMld.Some?)
    && (IsMlo(k) ==> s.clientMld == k.mld && k.apMld == Some(a.cfg.mldMac))
  }

  // Whatever the address, the client's and the access point's translations are the same.
  lemma {:induction false} TranslationsAgree(c: ClientState, a: ApState, other: Addr, f: Dot11)
    requires Paired(c, a)
    requires f.addr.a3 == other
    ensures RxSec(a.cfg, a.stations[c.link.mac], f).GetOr(Addresses(a.cfg.mac, c.link.mac, other))
         == UplinkSec(c.link, a.cfg.mac, other)
    ensures TxSec(a.cfg, a.stations[c.link.mac], other).GetOr(Addresses(c.link.mac, a.cfg.mac, other))
         == DownlinkSec(c.link, f).GetOr(Addresses(c.link.mac, a.cfg.mac, other))
  {
  }

  // No other packet number opens this frame: what authentication leaves to chance.
  ghost predicate Authentic(x: Crypto, m: Mpdu, rest: Bytes)
    requires |m.tk| == KeyLength(m.cipher)
  {
    forall pn: nat :: pn <= MAX_PACKET_NUMBER && pn != m.pn ==> Misopened(x, m, rest, pn).None?
  }

  lemma {:induction false} AuthenticMisread(x: Crypto, m: Mpdu, rest: Bytes)
    requires |m.tk| == KeyLength(m.cipher) && Authentic(x, m, rest) && m.pn <= MAX_PACKET_NUMBER && !PnSurvives(m.pn)
    ensures Misopened(x, m, rest, ReadPn(CcmpHeader(m.pn, m.keyId))).None?
  {
    hide Misopened, ReadPn, CcmpHeader, PnSurvives;
    PnReadsBackIff(m.pn, m.keyId);
    ReadPnBound(CcmpHeader(m.pn, m.keyId));
  }

  // What an end that opens a frame with security addresses `sec` gets.
  lemma {:induction false} Arrives(x: Crypto, m: Mpdu, rest: Bytes, fromAp: bool, sec: Option<Addresses>)
    requires GcmExact(x) && |m.tk| == KeyLength(m.cipher) && m.pn <= MAX_PACKET_NUMBER && |rest| >= 2
    requires m.tid.Some? ==> m.tid.value < 16
    requires sec.GetOr(m.hdr) == m.sec && OneWay(m)
    ensures Parse(BuildProtected(x, m, rest)) == Some(Parsed(x, m, rest))
    ensures var f := Parsed(x, m, rest);
            var got := Decapsulate(x, m.cipher, f, m.tk, fromAp, sec);
            && |f.body| >= 8 && ReadKeyId(f.body) == m.keyId
            && (PnSurvives(m.pn) ==>
                  ReadPn(f.body) == m.pn
                  && got == Some((if fromAp then m.hdr.a1 + m.hdr.a3 else m.hdr.a3 + m.hdr.a2) + rest))
            && (!PnSurvives(m.pn) && Authentic(x, m, rest) ==> got.None?)
  {
    hide GcmExact, Parse, BuildProtected, Parsed, Decapsulate, ReadPn, CcmpHeader, PnSurvives, Misopened, Authentic;
    BuiltParses(x, m, rest);
    BuiltDecapsulates(x, m, rest, fromAp, sec);
    ContextsAgree(x, m, rest, sec);
    PnReadsBackIff(m.pn, m.keyId);
    if !PnSurvives(m.pn) && Authentic(x, m, rest) {
      AuthenticMisread(x, m, rest);
    }
  }

  // ---- uplink ---------------------------------------------------------------------------------------

  predicate UplinkInOrder(c: ClientState, a: ApState, eth: Bytes) {
    Associated(a, c.link.mac) && a.stations[c.link.mac].rxPn[ReplaySlot(UplinkTid(c.link, eth))] < c.pn
  }

  // The frame with the client's link address as its source.
  function FromClient(c: ClientState, eth: Bytes): Bytes
    requires |eth| >= 14
  {
    eth[..6] + c.link.mac + eth[12..]
  }

  function WindowMoved(a: ApState, sta: Addr, slot: nat, pn: nat): ApState
    requires sta in a.stations && slot < 17
  {
    var s := a.stations[sta];
    a.(stations := a.stations[sta := s.(rxPn := s.rxPn[slot := pn])])
  }

  lemma {:induction false} UplinkFlags(x: Crypto, c: ClientState, eth: Bytes)
    requires MaySend(c, eth)
    ensures var m := UplinkMpdu(c, eth);
            var f := Parsed(x, m, eth[12..]);
            && Type(f) == 2 && IsProtected(f) && ToDs(f) && !IsAmsdu(f) && !IsFragment(f)
            && Tid(f) == UplinkTid(c.link, eth) && f.addr == m.hdr && OneWay(m)
  {
    hide Body;
  }

  lemma {:induction false} UplinkOpens(x: Crypto, c: ClientState, a: ApState, eth: Bytes)
    requires GcmExact(x) && Paired(c, a) && MaySend(c, eth)
    ensures var m := UplinkMpdu(c, eth);
            var f := Parsed(x, m, eth[12..]);
            var s := a.stations[c.link.mac];
            var got := Decapsulate(x, s.cipher, f, s.tk[..KeyLength(s.cipher)], false, RxSec(a.cfg, s, f));
            && Parse(BuildProtected(x, m, eth[12..])) == Some(f)
            && |f.body| >= 8 && ReadKeyId(f.body) == 0
            && (PnSurvives(c.pn) ==> ReadPn(f.body) == c.pn && got == Some(FromClient(c, eth)))
            && (!PnSurvives(c.pn) && Authentic(x, m, eth[12..]) ==> got.None?)
  {
    hide GcmExact, Parse, BuildProtected, Decapsulate, ReadPn, PnSurvives, Authentic, Body, Misopened;
    var m := UplinkMpdu(c, eth);
    var f := Parsed(x, m, eth[12..]);
    var s := a.stations[c.link.mac];
    UplinkFlags(x, c, eth);
    TranslationsAgree(c, a, eth[..6], f);
    Arrives(x, m, eth[12..], false, RxSec(a.cfg, s, f));
  }

  // An in-order frame of the client's: the access point moves the window and passes it on
  // unchanged but for its source, or, when its packet number does not survive, does nothing.
  lemma {:induction false} UplinkArrives(x: Crypto, c: ClientState, a: ApState, eth: Bytes)
    requires GcmExact(x) && Paired(c, a) && MaySend(c, eth) && UplinkInOrder(c, a, eth)
    ensures var sent := EncryptUplink(x, c, eth);
            && sent.0 == c.(pn := c.pn + 1, sc := NextSc(c.sc)) && sent.1.Some?
            && var r := ReceiveUplink(x, a, sent.1.value);
            && (PnSurvives(c.pn) ==>
                  r == (WindowMoved(a, c.link.mac, ReplaySlot(UplinkTid(c.link, eth)), c.pn), Forward(a, FromClient(c, eth))))
            && (!PnSurvives(c.pn) && Authentic(x, UplinkMpdu(c, eth), eth[12..]) ==> r.0 == a && !r.1.Forwarded?)
  {
    hide GcmExact, Parse, BuildProtected, Decapsulate, ReadPn, PnSurvives, Authentic, Parsed, RxSec, ReadKeyId,
         Type, IsProtected, ToDs, IsAmsdu, IsFragment, Tid, UplinkTid;
    UplinkFlags(x, c, eth);
    UplinkOpens(x, c, a, eth);
    var arrived := FromClient(c, eth);
    assert arrived[6..12] == c.link.mac;
  }

  // So it is delivered exactly when its number survives, unless a guest network isolates it.
  lemma {:induction false} UplinkDeliversIff(x: Crypto, c: ClientState, a: ApState, eth: Bytes)
    requires GcmExact(x) && Paired(c, a) && MaySend(c, eth) && UplinkInOrder(c, a, eth)
    requires Authentic(x, UplinkMpdu(c, eth), eth[12..])
    ensures var wire := EncryptUplink(x, c, eth).1;
            wire.Some?
            && (ReceiveUplink(x, a, wire.value).1 == Forwarded(FromClient(c, eth)) <==>
                PnSurvives(c.pn) && !(a.cfg.guest && Associated(a, eth[..6])))
  {
    hide EncryptUplink, ReceiveUplink, PnSurvives, GcmExact, Authentic, Paired, Associated, UplinkInOrder,
         WindowMoved;
    UplinkArrives(x, c, a, eth);
    assert FromClient(c, eth)[..6] == eth[..6];
  }

  // ---- downlink -------------------------------------------------------------------------------------------

  function DownlinkTid(s: Station, eth: Bytes): Option<byte> {
    if s.wmm then Some(WmmTid(eth)) else None
  }

  predicate ForClient(c: ClientState, a: ApState, eth: Bytes) {
    && |eth| >= 14 && eth[..6] == c.link.mac
    && !(a.cfg.guest && Associated(a, eth[6..12]))
    && Associated(a, c.link.mac)
    && var s := a.stations[c.link.mac];
    && s.pn <= MAX_PACKET_NUMBER && c.rxPn[ReplaySlot(DownlinkTid(s, eth))] < s.pn
  }

  lemma {:induction false} DownlinkFlags(x: Crypto, c: ClientState, a: ApState, eth: Bytes)
    requires Paired(c, a) && ForClient(c, a, eth)
    ensures var s := a.stations[c.link.mac];
            var m := StationMpdu(a, s, eth);
            var f := Parsed(x, m, eth[12..]);
            && Type(f) == 2 && IsProtected(f) && FromDs(f) && !IsAmsdu(f) && !IsFragment(f)
            && Tid(f) == DownlinkTid(s, eth) && f.addr == Addresses(c.link.mac, a.cfg.mac, eth[6..12])
            && m.sec == DownlinkSec(c.link, f).GetOr(m.hdr) && m.hdr == f.addr && OneWay(m) && m.pn == s.pn
  {
    hide Body;
    var s := a.stations[c.link.mac];
    TranslationsAgree(c, a, eth[6..12], Parsed(x, StationMpdu(a, s, eth), eth[12..]));
  }

  lemma {:induction false} DownlinkOpens(x: Crypto, c: ClientState, a: ApState, eth: Bytes)
    requires GcmExact(x) && Paired(c, a) && ForClient(c, a, eth)
    ensures var s := a.stations[c.link.mac];
            var m := StationMpdu(a, s, eth);
            var f := Parsed(x, m, eth[12..]);
            && Parse(BuildProtected(x, m, eth[12..])) == Some(f)
            && |f.body| >= 8 && ReadKeyId(f.body) == 0
            && (PnSurvives(s.pn) ==> ReadPn(f.body) == s.pn && ClientOpens(x, c.link, f) == Some(eth))
            && (!PnSurvives(s.pn) && Authentic(x, m, eth[12..]) ==> ClientOpens(x, c.link, f).None?)
  {
    hide GcmExact, Parse, BuildProtected, Decapsulate, ReadPn, PnSurvives, Authentic, Body, Misopened, Parsed, ReadKeyId,
         DownlinkSec, TxSec;
    var s := a.stations[c.link.mac];
    var m := StationMpdu(a, s, eth);
    DownlinkFlags(x, c, a, eth);
    var f := Parsed(x, m, eth[12..]);
    Arrives(x, m, eth[12..], true, DownlinkSec(c.link, f));
    assert eth[..6] + eth[6..12] + eth[12..] == eth;
  }

  // An in-order frame for the client: the client moves its window and hands over the very
  // frame, or, when its packet number does not survive, ignores it.
  lemma {:induction false} DownlinkArrives(x: Crypto, c: ClientState, a: ApState, eth: Bytes)
    requires GcmExact(x) && Paired(c, a) && ForClient(c, a, eth)
    ensures var s := a.stations[c.link.mac];
            var slot := ReplaySlot(DownlinkTid(s, eth));
            var sent := DeliverToStation(x, a, eth);
            && sent.0 == a.(stations := a.stations[c.link.mac := s.(pn := s.pn + 1)], sc := NextSc(a.sc)) && sent.1.Some?
            && var r := ReceiveDownlink(x, c, sent.1.value);
            && (PnSurvives(s.pn) ==> r == (c.(rxPn := c.rxPn[slot := s.pn]), Sort(eth, true)))
            && (!PnSurvives(s.pn) && Authentic(x, StationMpdu(a, s, eth), eth[12..]) ==> r == (c, Ignored))
  {
    hide GcmExact, Parse, BuildProtected, ReadPn, PnSurvives, Authentic, Parsed, ReadKeyId, Sort, ClientOpens,
         Type, IsProtected, FromDs, IsAmsdu, IsFragment, Tid, DownlinkSec, TxSec;
    DownlinkFlags(x, c, a, eth);
    DownlinkOpens(x, c, a, eth);
  }

  // ---- group frames -------------------------------------------------------------------------------------------

  predicate ForGroup(c: ClientState, a: ApState, eth: Bytes) {
    && |eth| >= 14 && IsMulticast(eth[..6])
    && !(a.cfg.guest && Associated(a, eth[6..12]))
    && c.link.connected >= 4 && c.link.mac != a.cfg.mac
    && c.link.gtk == a.cfg.gtk && c.link.gtkKeyId == a.cfg.gtkKeyId != 0
    && a.groupPn <= MAX_PACKET_NUMBER && c.rxGroupPn[16] < a.groupPn
  }

  lemma {:induction false} GroupOpens(x: Crypto, c: ClientState, a: ApState, eth: Bytes)
    requires GcmExact(x) && ForGroup(c, a, eth)
    ensures var m := GroupMpdu(a, eth);
            var f := Parsed(x, m, eth[12..]);
            && Parse(BuildProtected(x, m, eth[12..])) == Some(f)
            && |f.body| >= 8 && ReadKeyId(f.body) == a.cfg.gtkKeyId
            && (PnSurvives(a.groupPn) ==> ReadPn(f.body) == a.groupPn && ClientOpens(x, c.link, f) == Some(eth))
            && (!PnSurvives(a.groupPn) && Authentic(x, m, eth[12..]) ==> ClientOpens(x, c.link, f).None?)
  {
    hide GcmExact, Parse, BuildProtected, Decapsulate, ReadPn, PnSurvives, Authentic, Body, Misopened, Parsed, ReadKeyId;
    Arrives(x, GroupMpdu(a, eth), eth[12..], true, None);
    assert eth[..6] + eth[6..12] + eth[12..] == eth;
  }

  lemma {:induction false} GroupFlags(x: Crypto, a: ApState, eth: Bytes)
    requires |eth| >= 14
    ensures var m := GroupMpdu(a, eth);
            var f := Parsed(x, m, eth[12..]);
            && Type(f) == 2 && IsProtected(f) && FromDs(f) && !IsAmsdu(f) && !IsFragment(f)
            && Tid(f) == None && f.addr == m.hdr
  {
    hide Body;
  }

  // The same for a group-addressed frame and every client that holds the group key.
  lemma {:induction false} GroupArrives(x: Crypto, c: ClientState, a: ApState, eth: Bytes)
    requires GcmExact(x) && ForGroup(c, a, eth)
    ensures var sent := DeliverToStation(x, a, eth);
            && sent.0 == a.(groupPn := a.groupPn + 1, sc := NextSc(a.sc)) && sent.1.Some?
            && var r := ReceiveDownlink(x, c, sent.1.value);
            && (PnSurvives(a.groupPn) ==> r == (c.(rxGroupPn := c.rxGroupPn[16 := a.groupPn]), Sort(eth, false)))
            && (!PnSurvives(a.groupPn) && Authentic(x, GroupMpdu(a, eth), eth[12..]) ==> r == (c, Ignored))
  {
    hide GcmExact, Parse, BuildProtected, ReadPn, PnSurvives, Authentic, Parsed, ReadKeyId, Sort, ClientOpens,
         Type, IsProtected, FromDs, IsAmsdu, IsFragment, Tid;
    GroupFlags(x, a, eth);
    GroupOpens(x, c, a, eth);
  }

  // ---- traffic in both directions -----------------------------------------------------------------------------

  datatype Transfer = Up(eth: Bytes) | Down(eth: Bytes)

  // Both ends and what each has handed on so far.
  datatype Association = Association(c: ClientState, a: ApState, up: seq<Bytes>, down: seq<Received>)

  function CarryUp(x: Crypto, p: Association, eth: Bytes): Association {
    var sent := EncryptUplink(x, p.c, eth);
    if sent.1.None? then p.(c := sent.0) else
      var r := ReceiveUplink(x, p.a, sent.1.value);
      Association(sent.0, r.0, if r.1.Forwarded? then p.up + [r.1.eth] else p.up, p.down)
  }

  function CarryDown(x: Crypto, p: Association, eth: Bytes): Association {
    var sent := DeliverToStation(x, p.a, eth);
    if sent.1.None? then p.(a := sent.0) else
      var r := ReceiveDownlink(x, p.c, sent.1.value);
      Association(r.0, sent.0, p.up, if r.1.Ignored? then p.down else p.down + [r.1])
  }

  function Carry(x: Crypto, p: Association, ts: seq<Transfer>): Association {
    if ts == [] then p else
      var before, t := Carry(x, p, ts[..|ts| - 1]), ts[|ts| - 1];
      if t.Up? then CarryUp(x, before, t.eth) else CarryDown(x, before, t.eth)
  }

  function UpFrames(c: ClientState, ts: seq<Transfer>): seq<Bytes>
    requires forall t :: t in ts ==> |t.eth| >= 14
  {
    if ts == [] then [] else
      UpFrames(c, ts[..|ts| - 1]) + (if ts[|ts| - 1].Up? then [FromClient(c, ts[|ts| - 1].eth)] else [])
  }

  function DownFrames(ts: seq<Transfer>): seq<Received> {
    if ts == [] then [] else
      DownFrames(ts[..|ts| - 1]) + (if ts[|ts| - 1].Down? then [Sort(ts[|ts| - 1].eth, true)] else [])
  }

  predicate InStep(c: ClientState, a: ApState) {
    && c.link.mac in a.stations
    && (forall i :: 0 <= i < 17 ==> a.stations[c.link.mac].rxPn[i] < c.pn)
    && (forall i :: 0 <= i < 17 ==> c.rxPn[i] < a.stations[c.link.mac].pn)
  }

  predicate Open(p: Association, up: nat, down: nat) {
    && Paired(p.c, p.a) && InStep(p.c, p.a) && !p.a.cfg.guest
    && p.c.pn <= up <= 0x1_0000 && p.a.stations[p.c.link.mac].pn <= down <= 0x1_0000
  }

  lemma {:induction false} WindowRises(w: Window, slot: nat, pn: nat, bound: nat)
    requires slot < 17 && pn < bound && forall i :: 0 <= i < 17 ==> w[i] < bound
    ensures var v: Window := w[slot := pn]; forall i :: 0 <= i < 17 ==> v[i] < bound
  {
  }

  lemma {:induction false} CarryUpStep(x: Crypto, p: Association, eth: Bytes, up: nat, down: nat)
    requires GcmExact(x) && Open(p, up, down) && up < 0x1_0000 && |eth| >= 14
    ensures var q := CarryUp(x, p, eth);
            && Open(q, up + 1, down) && q.c.link == p.c.link
            && q.up == p.up + [FromClient(p.c, eth)] && q.down == p.down
  {
    hide EncryptUplink, ReceiveUplink, PnSurvives, GcmExact, Authentic;
    SmallPnSurvives(p.c.pn);
    UplinkArrives(x, p.c, p.a, eth);
    var s := p.a.stations[p.c.link.mac];
    WindowRises(s.rxPn, ReplaySlot(UplinkTid(p.c.link, eth)), p.c.pn, p.c.pn + 1);
  }

  lemma {:induction false} CarryDownStep(x: Crypto, p: Association, eth: Bytes, up: nat, down: nat)
    requires GcmExact(x) && Open(p, up, down) && down < 0x1_0000 && |eth| >= 14 && eth[..6] == p.c.link.mac
    ensures var q := CarryDown(x, p, eth);
            && Open(q, up, down + 1) && q.c.link == p.c.link
            && q.up == p.up && q.down == p.down + [Sort(eth, true)]
  {
    hide DeliverToStation, ReceiveDownlink, PnSurvives, GcmExact, Authentic;
    var s := p.a.stations[p.c.link.mac];
    SmallPnSurvives(s.pn);
    DownlinkArrives(x, p.c, p.a, eth);
    WindowRises(p.c.rxPn, ReplaySlot(DownlinkTid(s, eth)), s.pn, s.pn + 1);
  }

  // While both counters stay below 65536, an ordered channel loses, changes and duplicates
  // nothing in either direction, whatever the interleaving.
  lemma {:induction false} NothingLost(x: Crypto, p: Association, ts: seq<Transfer>, up: nat, down: nat)
    requires GcmExact(x) && Open(p, up, down) && up + |ts| <= 0x1_0000 && down + |ts| <= 0x1_0000
    requires forall t :: t in ts ==> |t.eth| >= 14 && (t.Down? ==> t.eth[..6] == p.c.link.mac)
    ensures var q := Carry(x, p, ts);
            && Open(q, up + |ts|, down + |ts|) && q.c.link == p.c.link
            && q.up == p.up + UpFrames(p.c, ts) && q.down == p.down + DownFrames(ts)
  {
    hide CarryUp, CarryDown, GcmExact, Sort;
    if ts == [] {
      assert p.up + [] == p.up && p.down + [] == p.down;
    } else {
      var init, t := ts[..|ts| - 1], ts[|ts| - 1];
      NothingLost(x, p, init, up, down);
      var q := Carry(x, p, init);
      if t.Up? {
        CarryUpStep(x, q, t.eth, up + |init|, down + |init|);
      } else {
        CarryDownStep(x, q, t.eth, up + |init|, down + |init|);
      }
      assert q.up + [] == q.up && q.down + [] == q.down;
    }
  }

  // ---- the two ends as the program runs them ---------------------------------------------------------------------

  class ClientData {
    var link: ClientLink
    var pn: nat
    var sc: nat
    var rxPn: Window
    var rxGroupPn: Window

    ghost function View(): ClientState
      reads this
    {
      ClientState(link, pn, sc, rxPn, rxGroupPn)
    }

    constructor (link: ClientLink)
      ensures View().link == link && View().pn == 1
      ensures forall i :: 0 <= i < 17 ==> View().rxPn[i] == View().rxGroupPn[i] == 0
    {
      this.link := link;
      pn, sc := 1, 0;
      rxPn := seq(17, _ => 0);
      rxGroupPn := seq(17, _ => 0);
    }

    method Encrypt(x: Crypto, eth: Bytes) returns (wire: Option<Bytes>)
      modifies this`pn, this`sc
      ensures (View(), wire) == EncryptUplink(x, old(View()), eth)
    {
      if link.bssid.None? || link.connected < 4 || |eth| < 14 || pn > MAX_PACKET_NUMBER {
        return None;
      }
      var m := UplinkMpdu(ClientState(link, pn, sc, rxPn, rxGroupPn), eth);
      pn := pn + 1;
      sc := NextSc(sc);
      wire := Some(BuildProtected(x, m, eth[12..]));
    }

    method Receive(x: Crypto, wire: Bytes) returns (r: Received)
      modifies this`rxPn, this`rxGroupPn
      ensures (View(), r) == ReceiveDownlink(x, old(View()), wire)
    {
      hide Parse, ClientAdmits, ClientOpens, ReadPn, Sort;
      var parsed := Parse(wire);
      if parsed.None? || !ClientAdmits(link, parsed.value) {
        return Ignored;
      }
      var f := parsed.value;
      AdmittedHasHeader(link, f);
      var slot := ReplaySlot(Tid(f));
      var group := IsGroupKey(link, f);
      var number := ReadPn(f.body);
      var last := if group then rxGroupPn[slot] else rxPn[slot];
      if number <= last {
        return Ignored;
      }
      var plain := ClientOpens(x, link, f);
      if plain.None? {
        return Ignored;
      }
      if group {
        rxGroupPn := rxGroupPn[slot := number];
      } else {
        rxPn := rxPn[slot := number];
      }
      r := Sort(plain.value, !group);
    }
  }

  lemma {:induction false} AdmittedHasHeader(k: ClientLink, f: Dot11)
    requires ClientAdmits(k, f)
    ensures |f.body| >= 8
  {
  }

  class ApData {
    var cfg: ApConfig
    var stations: map<Addr, Station>
    var groupPn: nat
    var sc: nat

    ghost function View(): ApState
      reads this
    {
      ApState(cfg, stations, groupPn, sc)
    }

    constructor (cfg: ApConfig)
      ensures View() == ApState(cfg, map[], 1, 0)
    {
      this.cfg := cfg;
      stations, groupPn, sc := map[], 1, 0;
    }

    method HandleUplink(x: Crypto, f: Dot11) returns (r: Uplinked)
      modifies this`stations
      ensures (View(), r) == HandleDataUplink(x, old(View()), f)
    {
      hide Decapsulate, ReadPn;
      var sta := f.addr.a2;
      if f.addr.a1 != cfg.mac || IsAmsdu(f) || IsFragment(f) || ReadKeyId(f.body) != 0 {
        return Dropped;
      }
      if sta !in stations {
        return Deauth(sta);
      }
      var s := stations[sta];
      if !s.associated || |f.body| < 8 {
        return Dropped;
      }
      var number, slot := ReadPn(f.body), ReplaySlot(Tid(f));
      if number <= s.rxPn[slot] {
        return Dropped;
      }
      var plain := Decapsulate(x, s.cipher, f, s.tk[..KeyLength(s.cipher)], false, RxSec(cfg, s, f));
      if plain.None? {
        return Undecryptable(sta);
      }
      var eth := plain.value;
      if |eth| < 12 || eth[6..12] != sta {
        return Dropped;
      }
      stations := stations[sta := s.(rxPn := s.rxPn[slot := number])];
      if cfg.guest && eth[..6] in stations && stations[eth[..6]].associated {
        return Dropped;
      }
      r := Forwarded(eth);
    }

    method Deliver(x: Crypto, eth: Bytes) returns (wire: Option<Bytes>)
      modifies this`stations, this`groupPn, this`sc
      ensures (View(), wire) == DeliverToStation(x, old(View()), eth)
    {
      hide BuildProtected;
      if |eth| < 14 {
        return None;
      }
      var dst, src := eth[..6], eth[6..12];
      if cfg.guest && src in stations && stations[src].associated {
        return None;
      }
      var m: Mpdu;
      if IsMulticast(dst) {
        if groupPn > MAX_PACKET_NUMBER {
          return None;
        }
        m := GroupMpdu(ApState(cfg, stations, groupPn, sc), eth);
        groupPn := groupPn + 1;
      } else {
        if dst !in stations || !stations[dst].associated {
          return None;
        }
        var s := stations[dst];
        if s.pn > MAX_PACKET_NUMBER {
          return None;
        }
        m := StationMpdu(ApState(cfg, stations, groupPn, sc), s, eth);
        stations := stations[dst := s.(pn := s.pn + 1)];
      }
      sc := NextSc(sc);
      wire := Some(BuildProtected(x, m, eth[12..]));
    }
  }
}
