/**
 The authenticator: what each received frame, each request of the host and each timer does
 to the access point's state, and what it transmits. Random ANonces and group keys, the
 clock, and the outcome of parsing an association request are parameters; a request that
 the rate limiter drops is no event here.

 Besides what is transmitted, the output records when a PTK candidate is retained, when a
 temporal key is installed and when a protected frame's counter is accepted.
 */
module Authenticator {
  import opened Common
  import opened Symbols

  datatype SecurityMode = Wpa2 | Wpa2PskSha256 | Transition | Wpa3Sae | Owe

  datatype Config = Config(
    mac: Mac, mld: bool, mldMac: Mac, mode: SecurityMode, perStation: bool, ocv: bool, oci: Oci, bandClasses: set<nat>,
    beaconProtection: bool, bigtk: GroupKey, btm: bool, rsn: nat,
    pmk: Pmk, byMac: map<Mac, seq<Pmk>>, wildcard: seq<Pmk>, authoritative: bool)

  datatype PtkCandidate = PtkCandidate(m3Replay: nat, kck: Secret, kek: Secret, tk: Secret)

  datatype Sae = NoSae | SaeCommitted(pmk: Pmk) | SaeConfirmed(pmk: Pmk)

  datatype SaQuery = SaQuery(id: nat, started: nat)

  datatype Station = Station(
    associated: bool, eapolReady: bool, awaitingM4: bool, anonce: Option<Nonce>,
    kck: Secret, kek: Secret, tk: Secret, tkLength: nat,
    clientPn: nat, rxPn: Window, rxMgmtPn: nat,
    eapolReplay: nat, m1Replay: nat, candidates: seq<PtkCandidate>, pendingEapol: Option<EapolKey>,
    lastAuth: Option<nat>, lastAssoc: Option<nat>,
    pmk: Option<Pmk>, sae: Sae, saeH2e: bool, sha256: bool, owe: bool, pskSha256: bool, pmf: bool,
    mldMac: Option<Mac>, linkMac: Option<Mac>, rsn: nat,
    gtk: GroupKey, gtkKeyId: nat, gtkRsc: nat, igtk: GroupKey, igtkKeyId: nat, igtkIpn: nat,
    groupRekeying: bool, saQuery: Option<SaQuery>)

  datatype Held = Held(anonce: Nonce, replay: nat, created: nat)

  datatype Pmksa = Pmksa(pmk: Pmk, sha256: bool, expires: nat)

  datatype State = State(
    stations: map<Mac, Station>, pendingAnonce: map<Mac, Held>, pmksa: map<(nat, Mac), Pmksa>,
    replayCounter: nat, gtk: GroupKey, gtkKeyId: nat, groupPn: nat, igtk: GroupKey, igtkKeyId: nat, igtkIpn: nat,
    saQueryId: nat)

  datatype Response = AuthOk | AssocOk | Comeback | Rejected(status: nat) | Deauth(reason: nat) | BtmSteer

  datatype Out =
    | Answer(to: Mac, response: Response)
    | Sent(to: Mac, frame: EapolKey)
    | Sealed(to: Mac, tk: Secret, pn: nat, content: Content)
    | GroupSealed(gtk: GroupKey, pn: nat, octets: nat)
    | Accepted(from: Mac, counter: Counter, number: nat)
    | Delivered(octets: nat)
    | Retained(at: Mac, ptk: Ptk)
    | Installed(at: Mac, key: Secret)

  datatype Step = Step(s: State, out: seq<Out>)

  const BACKOFF: nat := 250
  const SA_QUERY_TIMEOUT: nat := 1024
  const ANONCE_HOLD: nat := 10_000
  const MAX_CANDIDATES: nat := 8
  const STATUS_UNSPECIFIED: nat := 1
  const STATUS_INVALID_IE: nat := 40
  const STATUS_INVALID_PMKID: nat := 53
  const STATUS_GROUP_NOT_SUPPORTED: nat := 77
  const U64: nat := 0x1_0000_0000_0000_0000

  function Initial(replayCounter: nat, gtk: GroupKey, igtk: GroupKey): State {
    State(map[], map[], map[], replayCounter, gtk, 1, 1, igtk, 4, 0, 0)
  }

  // A station record is created with its own VLAN group keys.
  function NewStation(gtk: GroupKey, igtk: GroupKey): Station {
    Station(false, false, false, None, Zero, Zero, Zero, 16, 1, Uniform(0), 0, 0, 0, [], None, None, None,
            None, NoSae, false, false, false, false, false, None, None, 0, gtk, 1, 0, igtk, 4, 0, false, None)
  }

  function Put(a: State, sta: Mac, s: Station): State {
    a.(stations := a.stations[sta := s])
  }

  function NextReplay(c: nat): nat {
    if (c + 1) % U64 == 0 then 1 else (c + 1) % U64
  }

  function StationMic(s: Station): MicAlgorithm {
    if !s.sha256 then HmacSha1 else if s.owe then HmacSha256 else if s.pskSha256 then AesCmacV3 else AesCmac
  }

  // ---- protected transmission -----------------------------------------------------------

  function SealNext(a: State, sta: Mac, c: Content): Step {
    if sta !in a.stations || !a.stations[sta].associated || a.stations[sta].clientPn > MAX_PACKET_NUMBER then Step(a, [])
    else
      var s := a.stations[sta];
      Step(Put(a, sta, s.(clientPn := s.clientPn + 1)), [Sealed(sta, s.tk, s.clientPn, c)])
  }

  function SealGroup(a: State, octets: nat): Step {
    if a.groupPn > MAX_PACKET_NUMBER then Step(a, [])
    else Step(a.(groupPn := a.groupPn + 1), [GroupSealed(a.gtk, a.groupPn, octets)])
  }

  // ---- teardown ----------------------------------------------------------------------------

  function Disconnect(a: State, sta: Mac): State {
    a.(stations := a.stations - {sta})
  }

  // ---- PMF session protection ------------------------------------------------------------------

  predicate PmfProtected(a: State, sta: Mac) {
    sta in a.stations && a.stations[sta].associated && a.stations[sta].pmf
  }

  // Challenge once: an outstanding query keeps its identifier and its start.
  function SaQueryChallenge(a: State, sta: Mac, now: nat): Step {
    if sta !in a.stations || !a.stations[sta].associated then Step(a, []) else
      var query := a.stations[sta].saQuery;
      var id := if query.Some? then query.value.id else (a.saQueryId + 1) % 0x1_0000;
      var r := SealNext(a.(saQueryId := if query.Some? then a.saQueryId else id), sta, SaQueryRequest(id));
      if r.out == [] then r
      else Step(Put(r.s, sta, r.s.stations[sta].(saQuery := if query.Some? then query else Some(SaQuery(id, now)))), r.out)
  }

  // ---- authentication -----------------------------------------------------------------------------

  predicate Recent(last: Option<nat>, now: nat) {
    last.Some? && now < last.value + BACKOFF
  }

  // A new open authentication retires the session, but not a handshake between message 1
  // and message 2.
  function RestartSession(s: Station, now: nat, gtk: GroupKey): Station {
    s.(lastAuth := Some(now), anonce := None, eapolReady := false, awaitingM4 := false, associated := false,
       eapolReplay := 0, m1Replay := 0, candidates := [], rxPn := Uniform(0), rxMgmtPn := 0, saQuery := None,
       sha256 := false, owe := false, pskSha256 := false, pmf := false, saeH2e := false,
       kck := Zero, kek := Zero, tk := Zero, gtk := gtk, groupRekeying := false, pendingEapol := None, pmk := None)
  }

  function OpenAuth(s: Station, now: nat, gtk: GroupKey): Station {
    if Recent(s.lastAuth, now) then s
    else if s.anonce.Some? && s.eapolReady && !s.awaitingM4 then s.(lastAuth := Some(now))
    else RestartSession(s, now, gtk)
  }

  function HandleAuth(a: State, sta: Mac, sae: bool, now: nat, gtk: GroupKey, igtk: GroupKey): Step {
    if PmfProtected(a, sta) then SaQueryChallenge(a, sta, now)
    else if sae then Step(a, [])
    else
      var s := if sta in a.stations then a.stations[sta] else NewStation(gtk, igtk);
      Step(Put(a, sta, OpenAuth(s, now, gtk)), [Answer(sta, AuthOk)])
  }

  // The SAE worker finished a commit for this station, or its confirm was verified.
  function SaeCommitFinished(a: State, sta: Mac, pmk: Pmk, h2e: bool, peerMld: Option<Mac>, gtk: GroupKey, igtk: GroupKey): State {
    var s := if sta in a.stations then a.stations[sta] else NewStation(gtk, igtk);
    Put(a, sta, s.(sae := SaeCommitted(pmk), pmk := Some(pmk), saeH2e := h2e, sha256 := true, pskSha256 := false, pmf := true,
                   mldMac := if peerMld.Some? then peerMld else s.mldMac))
  }

  function SaeConfirmFinished(a: State, sta: Mac, pmkid: nat, expires: nat): State {
    if sta !in a.stations || a.stations[sta].sae.NoSae? then a else
      var s := a.stations[sta];
      Put(a, sta, s.(sae := SaeConfirmed(s.sae.pmk)))
      .(pmksa := a.pmksa[(pmkid, s.mldMac.GetOr(sta)) := Pmksa(s.sae.pmk, true, expires)])
  }

  // ---- association ------------------------------------------------------------------------------------

  datatype Rsnxe = NoRsnxe | RsnxeH2e | RsnxeOther | RsnxeInconsistent
  datatype MldRequest = NotMld | MalformedMld | Mld(address: Mac, linksValid: bool)
  datatype DhElement = NoDh | OtherGroup | Dh(pmk: Option<Pmk>)

  // An association request after parsing: `tkLength` is the negotiated cipher's key length,
  // or the status with which negotiation failed.
  datatype Negotiation = Suite(tkLength: nat) | Failed(status: nat)
  datatype AssocRequest = AssocRequest(
    reloading: bool, rsnePresent: bool, negotiation: Negotiation, sae: bool, akm6: bool, mfpc: bool, rsnxe: Rsnxe,
    mld: MldRequest, linkMac: Mac, rsn: nat, pmkids: seq<nat>, dh: DhElement)

  function SelectsPskSha256(cfg: Config, q: AssocRequest): Option<bool> {
    if cfg.mode.Wpa2PskSha256? || (cfg.mode.Transition? && !q.sae) then Some(q.akm6) else None
  }

  // The status a request is turned down with before any station state is touched.
  function Refusal(cfg: Config, a: State, sta: Mac, q: AssocRequest): Option<nat> {
    if !q.rsnePresent then Some(STATUS_INVALID_IE)
    else if q.negotiation.Failed? then Some(q.negotiation.status)
    else
      var h2e := sta in a.stations && a.stations[sta].saeH2e;
      if q.sae && (if h2e then q.rsnxe != RsnxeH2e else q.rsnxe == RsnxeInconsistent) then Some(STATUS_INVALID_IE)
      else if cfg.mld && q.mld.MalformedMld? then Some(STATUS_INVALID_IE)
      else if cfg.mld && q.mld.Mld?
              && ((sta in a.stations && a.stations[sta].mldMac.Some? && a.stations[sta].mldMac.value != q.mld.address)
                  || !q.mld.linksValid)
      then Some(STATUS_UNSPECIFIED)
      else None
  }

  // The key hierarchy and PMF that the request selects, and the cipher and link it uses.
  function WithHierarchy(cfg: Config, s: Station, q: AssocRequest): Station {
    var psk := SelectsPskSha256(cfg, q);
    var pmf := if cfg.mode.Transition? then q.mfpc else if psk.Some? then false else s.pmf;
    s.(sha256 := psk.GetOr(s.sha256), pskSha256 := psk.GetOr(s.pskSha256), owe := s.owe && psk.None?, pmf := pmf)
  }

  function WithLink(cfg: Config, s: Station, q: AssocRequest): Station
    requires q.negotiation.Suite?
  {
    s.(rsn := q.rsn, tkLength := q.negotiation.tkLength, linkMac := if cfg.mld then Some(q.linkMac) else None,
       mldMac := if cfg.mld && q.mld.Mld? then Some(q.mld.address) else s.mldMac)
  }

  function Negotiated(cfg: Config, s: Station, q: AssocRequest): Station
    requires q.negotiation.Suite?
  {
    WithLink(cfg, WithHierarchy(cfg, s, q), q)
  }

  function CachedPmksa(cache: map<(nat, Mac), Pmksa>, pmkids: seq<nat>, identity: Mac, now: nat): Option<Pmksa> {
    if pmkids == [] then None
    else if (pmkids[0], identity) in cache && cache[(pmkids[0], identity)].expires > now
    then Some(cache[(pmkids[0], identity)])
    else CachedPmksa(cache, pmkids[1..], identity, now)
  }

  function WithPmksa(s: Station, cached: Option<Pmksa>): Station {
    if cached.None? then s
    else s.(pmk := Some(cached.value.pmk), sha256 := cached.value.sha256, pmf := cached.value.sha256)
  }

  function WithOwe(s: Station, pmk: Option<Pmk>): Station {
    if pmk.None? then s else s.(pmk := pmk, sha256 := true, owe := true, pskSha256 := false, pmf := true)
  }

  predicate RequiresPmk(cfg: Config) {
    cfg.mode.Wpa3Sae? || cfg.mode.Owe?
  }

  // The credentials of the request: the station they leave, and the status if it is refused.
  function Authorized(cfg: Config, a: State, sta: Mac, s: Station, q: AssocRequest, now: nat): (Station, Option<nat>) {
    var s1 := WithPmksa(s, CachedPmksa(a.pmksa, q.pmkids, s.mldMac.GetOr(sta), now));
    if q.sae && q.pmkids != [] && s1.pmk.None? then (s1, Some(STATUS_INVALID_PMKID))
    else if cfg.mode.Owe? && q.dh.OtherGroup? then (s1, Some(STATUS_GROUP_NOT_SUPPORTED))
    else
      var s2 := if cfg.mode.Owe? && q.dh.Dh? then WithOwe(s1, q.dh.pmk) else s1;
      if RequiresPmk(cfg) && s2.pmk.None? then (s2, Some(STATUS_UNSPECIFIED)) else (s2, None)
  }

  function DropExpired(held: map<Mac, Held>, now: nat): map<Mac, Held> {
    map m | m in held && now < held[m].created + ANONCE_HOLD :: held[m]
  }

  // The ANonce of an unanswered message 1 is used again: first the station's own, then the
  // one held for its address; otherwise a fresh one is drawn.
  function ChooseAnonce(a: State, sta: Mac, s: Station, random: Nonce): (Nonce, nat, bool) {
    if s.eapolReady && s.anonce.Some? then (s.anonce.value, s.eapolReplay, false)
    else if sta in a.pendingAnonce then (a.pendingAnonce[sta].anonce, a.pendingAnonce[sta].replay, false)
    else (random, NextReplay(a.replayCounter), true)
  }

  function FirstMessage(cfg: Config, s: Station, anonce: Nonce, replay: nat): EapolKey {
    var mld := cfg.mld && s.mldMac.Some?;
    Message1(Version(StationMic(s)), if mld then 16 else s.tkLength, replay, anonce,
             if mld then Plain(0, Some(cfg.mldMac), None) else Empty)
  }

  function StartHandshake(cfg: Config, a: State, sta: Mac, s: Station, random: Nonce, now: nat): Step {
    var b := a.(pendingAnonce := DropExpired(a.pendingAnonce, now));
    var (anonce, replay, drawn) := ChooseAnonce(b, sta, s, random);
    var m1 := FirstMessage(cfg, s, anonce, replay);
    var t := s.(anonce := Some(anonce), eapolReady := true, eapolReplay := replay, m1Replay := replay,
                candidates := [], pendingEapol := Some(m1));
    Step(Put(b, sta, t).(pendingAnonce := b.pendingAnonce[sta := Held(anonce, replay, now)],
                         replayCounter := if drawn then replay else b.replayCounter),
         [Answer(sta, AssocOk), Sent(sta, m1)])
  }

  function HandleAssoc(cfg: Config, a: State, sta: Mac, q: AssocRequest, now: nat, random: Nonce,
                       gtk: GroupKey, igtk: GroupKey): Step {
    if q.reloading then Step(a, [Answer(sta, Rejected(STATUS_UNSPECIFIED))])
    else if PmfProtected(a, sta) then
      var c := SaQueryChallenge(a, sta, now);
      Step(c.s, [Answer(sta, Comeback)] + c.out)
    else if Refusal(cfg, a, sta, q).Some? then Step(a, [Answer(sta, Rejected(Refusal(cfg, a, sta, q).value))])
    else
      var s := Negotiated(cfg, if sta in a.stations then a.stations[sta] else NewStation(gtk, igtk), q);
      if s.sae.SaeCommitted? || Recent(s.lastAssoc, now) then Step(Put(a, sta, s), [])
      else
        var (t, refused) := Authorized(cfg, a, sta, s.(lastAssoc := Some(now)), q, now);
        if refused.Some? then Step(Put(a, sta, t), [Answer(sta, Rejected(refused.value))])
        else if t.awaitingM4 && t.pendingEapol.Some? then
          Step(Put(a, sta, t), [Answer(sta, AssocOk), Sent(sta, t.pendingEapol.value)])
        else StartHandshake(cfg, a, sta, t, random, now)
  }

  // ---- EAPOL: group message 2 ----------------------------------------------------------------------------

  function HandleGroup2(a: State, sta: Mac, s: Station, f: EapolKey): State {
    var b := f.body;
    if b.info == InfoGroup2(Version(StationMic(s))) && b.keyLength == 0 && b.nonce == NO_NONCE && b.data == Empty
       && MicValid(StationMic(s), s.kck, f)
    then Put(a, sta, s.(groupRekeying := false, pendingEapol := None))
    else a
  }

  // ---- EAPOL: message 4 -------------------------------------------------------------------------------------

  predicate MldDataValid(cfg: Config, s: Station, data: KeyData) {
    !cfg.mld || s.mldMac.None? || (data.Plain? && data.mldMac == s.mldMac)
  }

  // The first retained candidate that the message 4 selects.
  function SelectCandidate(cfg: Config, s: Station, cs: seq<PtkCandidate>, f: EapolKey): Option<PtkCandidate> {
    if cs == [] then None
    else if cs[0].m3Replay == f.body.replay && MicValid(StationMic(s), cs[0].kck, f) && MldDataValid(cfg, s, f.body.data)
    then Some(cs[0])
    else SelectCandidate(cfg, s, cs[1..], f)
  }

  // The packet number and the receive windows restart with a new temporal key only.
  function CommitCandidate(s: Station, c: PtkCandidate): Station {
    var same := s.associated && s.tk == c.tk;
    s.(kck := c.kck, kek := c.kek, tk := c.tk, candidates := [], associated := true, awaitingM4 := false,
       pendingEapol := None, clientPn := if same then s.clientPn else 1, rxPn := if same then s.rxPn else Uniform(0),
       rxMgmtPn := if same then s.rxMgmtPn else 0)
  }

  function HandleM4(cfg: Config, a: State, sta: Mac, s: Station, f: EapolKey): Step {
    var c := SelectCandidate(cfg, s, s.candidates, f);
    if c.None? then Step(a, [])
    else Step(Put(a, sta, CommitCandidate(s, c.value)).(pendingAnonce := a.pendingAnonce - {sta}),
              if s.associated && s.tk == c.value.tk then [] else [Installed(sta, c.value.tk)])
  }

  // ---- EAPOL: message 2 ----------------------------------------------------------------------------------------

  // The PMKs a message 2 is tried against, in order.
  function Credentials(cfg: Config, sta: Mac, s: Station): seq<Pmk> {
    if s.pmk.Some? then [s.pmk.value]
    else (if sta in cfg.byMac then cfg.byMac[sta] else []) + cfg.wildcard + (if cfg.authoritative then [] else [cfg.pmk])
  }

  function StationPtk(cfg: Config, sta: Mac, s: Station, pmk: Pmk, snonce: Nonce): Ptk {
    var mld := cfg.mld && s.mldMac.Some?;
    Derive(pmk, if mld then cfg.mldMac else s.linkMac.GetOr(cfg.mac), if mld then s.mldMac.value else sta,
           s.anonce.GetOr(0), snonce, if s.sha256 then Sha256Kdf(s.tkLength) else Sha1Prf)
  }

  function MatchingPmk(cfg: Config, sta: Mac, s: Station, pmks: seq<Pmk>, f: EapolKey): Option<Pmk> {
    if pmks == [] then None
    else if MicValid(StationMic(s), Kck(StationPtk(cfg, sta, s, pmks[0], f.body.nonce)), f) then Some(pmks[0])
    else MatchingPmk(cfg, sta, s, pmks[1..], f)
  }

  // Retain a new candidate, dropping the oldest beyond the bound.
  function Retain(cs: seq<PtkCandidate>, c: PtkCandidate): seq<PtkCandidate> {
    if exists d :: d in cs && d.m3Replay == c.m3Replay && d.kck == c.kck then cs
    else (if |cs| >= MAX_CANDIDATES then cs[1..] else cs) + [c]
  }

  function GroupDelivery(cfg: Config, a: State, s: Station, message3: bool): (Delivery, nat) {
    var mld := cfg.mld && s.mldMac.Some?;
    var own := cfg.perStation;
    var rsc := if own && message3 then s.gtkRsc else a.groupPn - (if a.groupPn > 0 then 1 else 0);
    var key, id := if own then s.gtk else a.gtk, if own then s.gtkKeyId else a.gtkKeyId;
    var igtk := if own then IgtkDelivery(s.igtkKeyId, s.igtkIpn, s.igtk) else IgtkDelivery(a.igtkKeyId, a.igtkIpn, a.igtk);
    (Delivery(if mld then MloGtk(id, rsc, key) else LegacyGtk(id, key),
              if s.pmf then Some(igtk) else None,
              if message3 && s.pmf && cfg.beaconProtection then Some(cfg.bigtk) else None,
              if message3 && cfg.ocv then Some(cfg.oci) else None),
     rsc)
  }

  function ThirdMessage(cfg: Config, a: State, s: Station, ptk: Ptk, replay: nat): EapolKey {
    var (keys, rsc) := GroupDelivery(cfg, a, s, true);
    Message3(StationMic(s), Kck(ptk), Kek(ptk), if cfg.mld && s.mldMac.Some? then 16 else s.tkLength, replay,
             s.anonce.GetOr(0), rsc, keys)
  }

  predicate M2Expected(cfg: Config, s: Station, b: Body) {
    && (s.eapolReady || s.awaitingM4) && s.anonce.Some?
    && b.replay == s.m1Replay
    && b.info == Info2(Version(StationMic(s))) && b.keyLength == 0
    && !(RequiresPmk(cfg) && s.pmk.None?)
  }

  predicate M2OciAccepted(cfg: Config, data: KeyData) {
    !cfg.ocv || (data.Plain? && data.oci.Some? && data.oci.value.channel == cfg.oci.channel
                 && data.oci.value.operatingClass in cfg.bandClasses)
  }

  // A message 2 that verified: pin its PMK, retain its PTK and issue message 3.
  function IssueM3(cfg: Config, a: State, sta: Mac, s: Station, pmk: Pmk, snonce: Nonce): Step {
    var ptk := StationPtk(cfg, sta, s, pmk, snonce);
    var replay := if s.awaitingM4 then s.eapolReplay else NextReplay(a.replayCounter);
    var m3 := ThirdMessage(cfg, a, s, ptk, replay);
    var t := s.(pmk := Some(pmk), candidates := Retain(s.candidates, PtkCandidate(replay, Kck(ptk), Kek(ptk), Tk(ptk))),
                eapolReady := false, eapolReplay := replay, awaitingM4 := true, pendingEapol := Some(m3));
    Step(Put(a, sta, t).(pendingAnonce := if s.awaitingM4 then a.pendingAnonce else a.pendingAnonce - {sta},
                         replayCounter := if s.awaitingM4 then a.replayCounter else replay),
         [Retained(sta, ptk), Sent(sta, m3)] + if cfg.btm && !s.pmf then [Answer(sta, BtmSteer)] else [])
  }

  function HandleM2(cfg: Config, a: State, sta: Mac, s: Station, f: EapolKey, rsnMatches: bool): Step {
    if !M2Expected(cfg, s, f.body) then Step(a, []) else
      var pmk := MatchingPmk(cfg, sta, s, Credentials(cfg, sta, s), f);
      if pmk.None? then
        if s.awaitingM4 then Step(a, []) else Step(Disconnect(a, sta), [Answer(sta, Deauth(1))])
      else if !rsnMatches then Step(a, [])
      else if !M2OciAccepted(cfg, f.body.data) then Step(Put(a, sta, s.(pmk := pmk)), [])
      else IssueM3(cfg, a, sta, s, pmk.value, f.body.nonce)
  }

  function HandleEapol(cfg: Config, a: State, sta: Mac, f: EapolKey, rsnMatches: bool): Step {
    if sta !in a.stations then Step(a, []) else
      var s, b := a.stations[sta], f.body;
      if s.groupRekeying && b.replay == s.eapolReplay then Step(HandleGroup2(a, sta, s, f), [])
      else if s.awaitingM4 && b.info == Info4(Version(StationMic(s))) && b.keyLength == 0 && b.nonce == NO_NONCE
      then HandleM4(cfg, a, sta, s, f)
      else HandleM2(cfg, a, sta, s, f, rsnMatches)
  }

  // ---- protected reception ----------------------------------------------------------------------------------------

  datatype UplinkFrame = UplinkFrame(
    aggregated: bool, keyId: nat, pn: Option<nat>, slot: Slot, key: SealKey, octets: nat, sourceMatches: bool)

  function HandleData(a: State, sta: Mac, d: UplinkFrame): Step {
    if d.aggregated || d.keyId != 0 then Step(a, [])
    else if sta !in a.stations then Step(a, [Answer(sta, Deauth(7))])
    else
      var s := a.stations[sta];
      if !s.associated || d.pn.None? || d.pn.value <= s.rxPn[d.slot] || d.key != Pairwise(s.tk) || !d.sourceMatches
      then Step(a, [])
      else Step(Put(a, sta, s.(rxPn := s.rxPn[d.slot := d.pn.value])),
                [Accepted(sta, Data(s.tk, d.slot), d.pn.value), Delivered(d.octets)])
  }

  datatype MgmtFrame = MgmtFrame(action: bool, protected: bool, pn: Option<nat>, key: SealKey, content: Content)

  predicate MgmtOpens(a: State, sta: Mac, m: MgmtFrame) {
    m.protected && sta in a.stations && a.stations[sta].associated && m.pn.Some?
    && m.pn.value > a.stations[sta].rxMgmtPn && m.key == Pairwise(a.stations[sta].tk)
  }

  function AcceptMgmt(a: State, sta: Mac, m: MgmtFrame): Step
    requires MgmtOpens(a, sta, m)
  {
    var s := a.stations[sta];
    Step(Put(a, sta, s.(rxMgmtPn := m.pn.value)), [Accepted(sta, Management(s.tk), m.pn.value)])
  }

  function HandleDeauth(a: State, sta: Mac, m: MgmtFrame): Step {
    if sta !in a.stations then Step(a, [])
    else if !a.stations[sta].pmf then Step(Disconnect(a, sta), [])
    else if !MgmtOpens(a, sta, m) then Step(a, [])
    else Step(Disconnect(a, sta), AcceptMgmt(a, sta, m).out)
  }

  function HandleAction(a: State, sta: Mac, m: MgmtFrame): Step {
    if !MgmtOpens(a, sta, m) then Step(a, []) else
      var r := AcceptMgmt(a, sta, m);
      match m.content
      case SaQueryResponse(id) =>
        var s := r.s.stations[sta];
        if s.saQuery.Some? && s.saQuery.value.id == id then Step(Put(r.s, sta, s.(saQuery := None)), r.out) else r
      case SaQueryRequest(id) =>
        var t := SealNext(r.s, sta, SaQueryResponse(id));
        Step(t.s, r.out + t.out)
      case _ => r
  }

  // ---- group rekey --------------------------------------------------------------------------------------------------

  // Stations in the order the table is walked, each with its new VLAN group keys.
  datatype Target = Target(sta: Mac, gtk: GroupKey, igtk: GroupKey)

  function Toggle(id: nat, first: nat, second: nat): nat {
    if id == first then second else first
  }

  function RekeyStation(cfg: Config, a: State, t: Target): Step {
    if t.sta !in a.stations || !a.stations[t.sta].associated || a.stations[t.sta].groupRekeying then Step(a, []) else
      var s0 := a.stations[t.sta];
      var s := if !cfg.perStation then s0
               else s0.(gtk := t.gtk, gtkKeyId := Toggle(s0.gtkKeyId, 1, 2), gtkRsc := 0,
                        igtk := t.igtk, igtkKeyId := Toggle(s0.igtkKeyId, 4, 5), igtkIpn := 0);
      var replay := NextReplay(a.replayCounter);
      var (keys, rsc) := GroupDelivery(cfg, a, s, false);
      var m1 := GroupMessage1(StationMic(s), s.kck, s.kek, replay, rsc, keys);
      Step(Put(a, t.sta, s.(eapolReplay := replay, pendingEapol := Some(m1), groupRekeying := true))
           .(replayCounter := replay),
           [Sent(t.sta, m1)])
  }

  function RekeyStations(cfg: Config, a: State, ts: seq<Target>): Step
    decreases |ts|
  {
    if ts == [] then Step(a, []) else
      var r := RekeyStation(cfg, a, ts[0]);
      var rest := RekeyStations(cfg, r.s, ts[1..]);
      Step(rest.s, r.out + rest.out)
  }

  // A new GTK and its packet number always change together.
  function RotateGroup(cfg: Config, a: State, gtk: GroupKey, igtk: GroupKey): State {
    a.(gtk := gtk, groupPn := 1, gtkKeyId := if cfg.perStation then a.gtkKeyId else Toggle(a.gtkKeyId, 1, 2),
       igtk := igtk, igtkKeyId := Toggle(a.igtkKeyId, 4, 5), igtkIpn := 0)
  }

  function Rekey(cfg: Config, a: State, gtk: GroupKey, igtk: GroupKey, ts: seq<Target>): Step {
    if exists m :: m in a.stations && a.stations[m].groupRekeying then Step(a, [])
    else RekeyStations(cfg, RotateGroup(cfg, a, gtk, igtk), ts)
  }

  // ---- timers and the host ----------------------------------------------------------------------------------------------

  // The Association Response was never acknowledged: the handshake prepared for it is off.
  function AssocNotAcked(a: State, sta: Mac): State {
    if sta !in a.stations then a else
      var s := a.stations[sta];
      var t := s.(pendingEapol := None, eapolReady := false, awaitingM4 := false, candidates := []);
      Put(a, sta, if s.associated then t else t.(kck := Zero, kek := Zero, tk := Zero))
  }

  predicate QueryExpired(s: Station, now: nat) {
    s.saQuery.Some? && now >= s.saQuery.value.started + SA_QUERY_TIMEOUT
  }

  // Maintenance: held ANonces and unanswered SA Queries expire.
  function Maintain(a: State, now: nat): State {
    var silent := set m | m in a.stations && QueryExpired(a.stations[m], now);
    a.(pendingAnonce := DropExpired(a.pendingAnonce, now), stations := a.stations - silent)
  }

  function Retransmit(a: State, sta: Mac): Step {
    if sta in a.stations && a.stations[sta].pendingEapol.Some? then Step(a, [Sent(sta, a.stations[sta].pendingEapol.value)])
    else Step(a, [])
  }

  datatype Event =
    | AuthReceived(sta: Mac, isSae: bool, now: nat, gtk: GroupKey, igtk: GroupKey)
    | SaeCommitDone(sta: Mac, pmk: Pmk, h2e: bool, peerMld: Option<Mac>, gtk: GroupKey, igtk: GroupKey)
    | SaeConfirmDone(sta: Mac, pmkid: nat, expires: nat)
    | AssocReceived(sta: Mac, request: AssocRequest, now: nat, random: Nonce, gtk: GroupKey, igtk: GroupKey)
    | EapolReceived(sta: Mac, frame: EapolKey, rsnMatches: bool)
    | DataReceived(sta: Mac, data: UplinkFrame)
    | MgmtReceived(sta: Mac, mgmt: MgmtFrame)
    | ToStation(sta: Mac, content: Content)
    | ToGroup(octets: nat)
    | RekeyTimer(gtk: GroupKey, igtk: GroupKey, targets: seq<Target>)
    | NotAcked(sta: Mac)
    | Maintenance(now: nat)
    | RetryTimer(sta: Mac)
    | Dropped(sta: Mac)

  function Handle(cfg: Config, a: State, e: Event): Step {
    match e
    case AuthReceived(sta, sae, now, gtk, igtk) => HandleAuth(a, sta, sae, now, gtk, igtk)
    case SaeCommitDone(sta, pmk, h2e, mld, gtk, igtk) => Step(SaeCommitFinished(a, sta, pmk, h2e, mld, gtk, igtk), [])
    case SaeConfirmDone(sta, pmkid, expires) => Step(SaeConfirmFinished(a, sta, pmkid, expires), [])
    case AssocReceived(sta, q, now, random, gtk, igtk) => HandleAssoc(cfg, a, sta, q, now, random, gtk, igtk)
    case EapolReceived(sta, f, rsnMatches) => HandleEapol(cfg, a, sta, f, rsnMatches)
    case DataReceived(sta, d) => HandleData(a, sta, d)
    case MgmtReceived(sta, m) => if m.action then HandleAction(a, sta, m) else HandleDeauth(a, sta, m)
    case ToStation(sta, c) => SealNext(a, sta, c)
    case ToGroup(octets) => SealGroup(a, octets)
    case RekeyTimer(gtk, igtk, ts) => Rekey(cfg, a, gtk, igtk, ts)
    case NotAcked(sta) => Step(AssocNotAcked(a, sta), [])
    case Maintenance(now) => Step(Maintain(a, now), [])
    case RetryTimer(sta) => Retransmit(a, sta)
    case Dropped(sta) => Step(Disconnect(a, sta), [])
  }

  // ---- runs -----------------------------------------------------------------------------------------------------------

  function RunFrom(cfg: Config, a: State, es: seq<Event>): Step {
    if es == [] then Step(a, []) else
      var before := RunFrom(cfg, a, es[..|es| - 1]);
      var h := Handle(cfg, before.s, es[|es| - 1]);
      Step(h.s, before.out + h.out)
  }

  // Nonces an event draws or receives.
  function EventNonces(e: Event): set<Nonce> {
    match e
    case AssocReceived(_, _, _, random, _, _) => {random}
    case EapolReceived(_, f, _) => {f.body.nonce}
    case _ => {}
  }

  function NoncesSeen(es: seq<Event>): set<Nonce> {
    if es == [] then {} else NoncesSeen(es[..|es| - 1]) + EventNonces(es[|es| - 1])
  }

  function GtksSeen(gtk: GroupKey, es: seq<Event>): set<GroupKey> {
    if es == [] then {gtk}
    else GtksSeen(gtk, es[..|es| - 1]) + (if es[|es| - 1].RekeyTimer? then {es[|es| - 1].gtk} else {})
  }

  // The random source never repeats a nonce drawn or received, nor a GTK drawn before.
  predicate FreshRandom(gtk: GroupKey, es: seq<Event>) {
    es == [] ||
    var e, before := es[|es| - 1], es[..|es| - 1];
    && FreshRandom(gtk, before)
    && (e.AssocReceived? ==> e.random !in NoncesSeen(before))
    && (e.RekeyTimer? ==> e.gtk !in GtksSeen(gtk, before))
  }
}
