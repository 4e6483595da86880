/**
 The supplicant: what each received frame and each local event does to the client's state
 and what it puts on the air. Every operation is a function from the old state to the new
 one; class Client in module ClientObject performs the same operations by assignment and is
 proved to compute exactly these functions.

 Random SNonces are parameters. Besides frames, the output of an operation records when a
 temporal key is installed and when a protected frame's counter is accepted.
 */
module Supplicant {
  import opened Common
  import opened Symbols

  datatype Config = Config(
    mac: Mac, pmk: Pmk, mldMac: Option<Mac>, apMldMac: Option<Mac>, keyLength: nat,
    pskSha256: bool, owe: bool, saeEnabled: bool, ocv: bool, oci: Oci, bandClasses: set<nat>, rsn: nat)

  // A PTK derived from a message 1 and not yet authenticated by its message 3.
  datatype PendingPtk = PendingPtk(anonce: Nonce, snonce: Nonce, replay: nat, kck: Secret, kek: Secret, tk: Secret)

  // `connected` is 0 idle, 1 authenticating, 2 associated, 4 fully authenticated;
  // `eapolState` is 0 awaiting message 1, 1 awaiting message 3, 2 done.
  datatype State = State(
    bssid: Option<Mac>, connected: nat, eapolState: nat,
    anonce: Nonce, snonce: Nonce, kck: Secret, kek: Secret, tk: Secret, installed: bool,
    pending: Option<PendingPtk>,
    gtk: GroupKey, gtkSet: bool, gtkKeyId: nat, igtk: Option<GroupKey>, igtkKeyId: Option<nat>, bigtk: Option<GroupKey>,
    clientPn: nat, rxPn: Window, rxGroupPn: Window, rxMgmtPn: nat, rxIgtkIpn: nat,
    eapolReplay: nat, saePmk: Option<Pmk>, pmksaReconnect: bool)

  datatype Out =
    | Sent(frame: EapolKey)
    | Sealed(tk: Secret, pn: nat, content: Content)
    | Accepted(counter: Counter, number: nat)
    | Delivered(octets: nat)
    | Installed(key: Secret)

  datatype Step = Step(s: State, out: seq<Out>)

  function Initial(): State {
    State(None, 0, 0, 0, 0, Zero, Zero, Zero, false, None, 0, false, 1, None, None, None,
          1, Uniform(0), Uniform(0), 0, 0, 0, None, false)
  }

  // ---- algorithms -----------------------------------------------------------------

  function KeyMic(cfg: Config, s: State): MicAlgorithm {
    if cfg.pskSha256 then AesCmacV3
    else if s.saePmk.None? then HmacSha1
    else if cfg.owe then HmacSha256
    else AesCmac
  }

  function DerivePtk(cfg: Config, s: State, anonce: Nonce, snonce: Nonce): Ptk {
    var sha256 := s.saePmk.Some? || cfg.pskSha256;
    Derive(s.saePmk.GetOr(cfg.pmk), cfg.apMldMac.GetOr(s.bssid.GetOr(0)), cfg.mldMac.GetOr(cfg.mac),
           anonce, snonce, if sha256 then Sha256Kdf(cfg.keyLength) else Sha1Prf)
  }

  // ---- classification of EAPOL-Key frames -----------------------------------------------

  predicate ValidM1(cfg: Config, s: State, b: Body) {
    var i := b.info;
    && i.pairwise && i.ack && !i.install && !i.mic && !i.secure && !i.error && !i.request && !i.encrypted
    && i.version == Version(KeyMic(cfg, s))
    && b.keyLength == cfg.keyLength
    && b.nonce != NO_NONCE
  }

  predicate ValidM3(cfg: Config, s: State, b: Body) {
    var i := b.info;
    && i.pairwise && i.ack && i.install && i.mic && i.secure && !i.error && !i.request && i.encrypted
    && i.version == Version(KeyMic(cfg, s))
    && b.keyLength == cfg.keyLength
    && ((s.pending.Some? && b.nonce == s.pending.value.anonce) || (s.installed && b.nonce == s.anonce))
    && b.data != Empty
  }

  predicate M1Retry(s: State, b: Body) {
    s.pending.Some? && b.replay >= s.pending.value.replay && b.nonce == s.pending.value.anonce
  }

  predicate M1Fresh(s: State, b: Body) {
    b.replay > s.eapolReplay
  }

  predicate ValidGroupM1(cfg: Config, s: State, b: Body) {
    var i := b.info;
    && !i.pairwise && i.ack && !i.install && i.mic && i.secure && !i.error && !i.request && i.encrypted
    && i.version == Version(KeyMic(cfg, s))
    && b.nonce == NO_NONCE
    && b.data != Empty
  }

  // ---- sending -------------------------------------------------------------------------------

  // Encapsulate with the next packet number, while there is one.
  function SealNext(s: State, c: Content): Step {
    if s.clientPn > MAX_PACKET_NUMBER then Step(s, [])
    else Step(s.(clientPn := s.clientPn + 1), [Sealed(s.tk, s.clientPn, c)])
  }

  function EncryptUplink(s: State, c: Content): Step {
    if s.bssid.None? || s.connected < 4 then Step(s, []) else SealNext(s, c)
  }

  function TxEapol(s: State, f: EapolKey, protected: bool): Step {
    if !protected then Step(s, [Sent(f)])
    else if s.bssid.None? then Step(s, [])
    else EncryptUplink(s, Eapol(f))
  }

  function Candidate(cfg: Config, s: State, anonce: Nonce, snonce: Nonce, replay: nat): PendingPtk {
    var ptk := DerivePtk(cfg, s, anonce, snonce);
    PendingPtk(anonce, snonce, replay, Kck(ptk), Kek(ptk), Tk(ptk))
  }

  function SecondMessage(cfg: Config, s: State, p: PendingPtk): EapolKey {
    Message2(KeyMic(cfg, s), p.kck, p.replay, p.snonce,
             Plain(cfg.rsn, cfg.mldMac, if cfg.ocv then Some(cfg.oci) else None))
  }

  function SendEapol2(cfg: Config, s: State, b: Body, protected: bool, snonce: Nonce): Step {
    if s.bssid.None? then Step(s, []) else
      var p := Candidate(cfg, s, b.nonce, snonce, b.replay);
      var t := TxEapol(s.(pending := Some(p)), SecondMessage(cfg, s, p), protected);
      Step(t.s.(eapolState := 1), t.out)
  }

  function SendEapol2Retry(cfg: Config, s: State, b: Body, protected: bool, random: Nonce): Step {
    SendEapol2(cfg, s, b, protected, if s.pending.Some? then s.pending.value.snonce else random)
  }

  // ---- group keys -----------------------------------------------------------------------------

  datatype Install = Refused | Granted(s: State)

  function DeliveredGtk(k: Delivery, rsc: nat): Option<(nat, nat, GroupKey)> {
    match k.gtk
    case NoGtk => None
    case LegacyGtk(id, key) => Some((id, rsc, key))
    case MloGtk(id, pn, key) => Some((id, pn, key))
  }

  // A key already installed keeps its window whatever the message says.
  function WithGtk(s: State, id: nat, rsc: nat, key: GroupKey): State {
    if s.gtkSet && s.gtk == key then s
    else s.(gtk := key, gtkSet := true, gtkKeyId := id, rxGroupPn := Uniform(rsc))
  }

  function WithIgtk(s: State, k: Option<IgtkDelivery>): State {
    if k.None? || s.igtk == Some(k.value.key) then s
    else s.(igtk := Some(k.value.key), igtkKeyId := Some(k.value.keyId), rxIgtkIpn := k.value.ipn)
  }

  function InstallGroupKeys(s: State, k: Delivery, rsc: nat): Install {
    var gtk := DeliveredGtk(k, rsc);
    if rsc > MAX_PACKET_NUMBER || gtk.None? || (s.saePmk.Some? && k.igtk.None?) then Refused else
      var (id, from, key) := gtk.value;
      var t := WithIgtk(WithGtk(s, id, from, key), k.igtk);
      Granted(if k.bigtk.Some? then t.(bigtk := k.bigtk) else t)
  }

  // ---- message 3 -----------------------------------------------------------------------------------

  function WithKeys(s: State, p: PendingPtk): State {
    s.(pending := None, anonce := p.anonce, snonce := p.snonce, kck := p.kck, kek := p.kek, tk := p.tk)
  }

  function WithCountersRestarted(s: State): State {
    s.(clientPn := 1, rxPn := Uniform(0), rxMgmtPn := 0)
  }

  // The packet number and the receive windows restart with a new temporal key only.
  function CommitPending(s: State): Step {
    if s.pending.None? then Step(s, []) else
      var p := s.pending.value;
      var t := WithKeys(s, p);
      if s.installed && s.tk == p.tk then Step(t, [])
      else Step(WithCountersRestarted(t), [Out.Installed(p.tk)])
  }

  predicate RetryM3(s: State, b: Body) {
    s.eapolState == 2 && s.installed && b.replay >= s.eapolReplay
  }

  predicate FreshM3(s: State, b: Body) {
    s.pending.Some? && b.replay >= s.pending.value.replay && b.replay > s.eapolReplay
  }

  predicate OciAccepted(cfg: Config, k: Delivery) {
    !cfg.ocv || (k.oci.Some? && k.oci.value.channel == cfg.oci.channel && k.oci.value.operatingClass in cfg.bandClasses)
  }

  // What an authenticated message 3 does before its reply: None when it is dropped.
  function TakeM3(cfg: Config, s: State, f: EapolKey): Option<Step> {
    var b := f.body;
    if RetryM3(s, b) then
      if MicValid(KeyMic(cfg, s), s.kck, f) then Some(Step(s.(eapolReplay := b.replay), [])) else None
    else if !FreshM3(s, b) || !MicValid(KeyMic(cfg, s), s.pending.value.kck, f) then None
    else
      var keys := Unwrap(s.pending.value.kek, b.data);
      if keys.None? || !OciAccepted(cfg, keys.value) then None
      else
        var i := InstallGroupKeys(s, keys.value, b.rsc);
        if i.Refused? then None else Some(CommitPending(i.s.(eapolReplay := b.replay)))
  }

  function SendEapol4(cfg: Config, s: State, f: EapolKey, protected: bool): Step {
    var taken := TakeM3(cfg, s, f);
    if s.bssid.None? || taken.None? then Step(s, []) else
      var t := taken.value.s;
      var r := TxEapol(t, Message4(KeyMic(cfg, t), t.kck, t.eapolReplay, cfg.mldMac), protected);
      Step(r.s.(connected := 4, installed := true, eapolState := 2), taken.value.out + r.out)
  }

  // ---- group-key message 1 ----------------------------------------------------------------------------

  function TakeGroupM1(cfg: Config, s: State, f: EapolKey): Option<State> {
    var b := f.body;
    if !MicValid(KeyMic(cfg, s), s.kck, f) || b.replay < s.eapolReplay then None
    else if b.replay == s.eapolReplay then Some(s)
    else
      var keys := Unwrap(s.kek, b.data);
      if keys.None? then None else
        var i := InstallGroupKeys(s, keys.value, b.rsc);
        if i.Refused? then None else Some(i.s.(eapolReplay := b.replay))
  }

  function HandleGroupRekey(cfg: Config, s: State, f: EapolKey, protected: bool): Step {
    var taken := TakeGroupM1(cfg, s, f);
    if s.bssid.None? || taken.None? then Step(s, [])
    else TxEapol(taken.value, GroupMessage2(KeyMic(cfg, s), s.kck, f.body.replay), protected)
  }

  // ---- dispatch ------------------------------------------------------------------------------------------

  predicate RefusedByPmf(s: State, b: Body, protected: bool) {
    !protected && s.installed && s.saePmk.Some? && b.info.pairwise && !b.info.mic
  }

  function HandleEapolKey(cfg: Config, s: State, f: EapolKey, protected: bool, random: Nonce): Step {
    var b := f.body;
    if RefusedByPmf(s, b, protected) then Step(s, [])
    else if s.connected >= 4 && !b.info.pairwise then
      if ValidGroupM1(cfg, s, b) then HandleGroupRekey(cfg, s, f, protected) else Step(s, [])
    else if s.connected >= 4 && s.eapolState == 2 then
      if ValidM3(cfg, s, b) then SendEapol4(cfg, s, f, protected)
      else if ValidM1(cfg, s, b) && M1Fresh(s, b) then SendEapol2(cfg, s, b, protected, random)
      else Step(s, [])
    else if s.eapolState == 0 then
      if ValidM1(cfg, s, b) then SendEapol2(cfg, s, b, protected, random) else Step(s, [])
    else if s.eapolState == 1 then
      if ValidM3(cfg, s, b) then SendEapol4(cfg, s, f, protected)
      else if ValidM1(cfg, s, b) && M1Retry(s, b) then SendEapol2Retry(cfg, s, b, protected, random)
      else if ValidM1(cfg, s, b) && M1Fresh(s, b) then SendEapol2(cfg, s, b, protected, random)
      else Step(s, [])
    else Step(s, [])
  }

  // ---- protected data -----------------------------------------------------------------------------------------

  datatype DataFrame = DataFrame(
    aggregated: bool, groupRa: bool, toUs: bool, keyId: nat, pn: Option<nat>, slot: Slot, key: SealKey, content: Content)

  predicate UsesGroupKey(s: State, d: DataFrame) {
    d.keyId == s.gtkKeyId && d.keyId != 0
  }

  predicate DataOpens(s: State, d: DataFrame) {
    && !d.aggregated
    && (d.groupRa || d.toUs)
    && (if UsesGroupKey(s, d) then d.groupRa else !d.groupRa && d.keyId == 0)
    && d.pn.Some?
    && d.pn.value > (if UsesGroupKey(s, d) then s.rxGroupPn else s.rxPn)[d.slot]
    && d.key == (if UsesGroupKey(s, d) then Group(s.gtk) else Pairwise(s.tk))
    && (d.content.Ethernet? || d.content.Eapol?)
  }

  function AcceptData(s: State, d: DataFrame): Step
    requires DataOpens(s, d)
  {
    if UsesGroupKey(s, d) then
      Step(s.(rxGroupPn := s.rxGroupPn[d.slot := d.pn.value]), [Accepted(GroupData(s.gtk, d.slot), d.pn.value)])
    else
      Step(s.(rxPn := s.rxPn[d.slot := d.pn.value]), [Accepted(Data(s.tk, d.slot), d.pn.value)])
  }

  function ReceiveData(cfg: Config, s: State, d: DataFrame, random: Nonce): Step {
    if s.connected <= 3 || !DataOpens(s, d) then Step(s, []) else
      var a := AcceptData(s, d);
      if d.content.Ethernet? then Step(a.s, a.out + [Delivered(d.content.octets)])
      else if UsesGroupKey(s, d) then a
      else
        var h := HandleEapolKey(cfg, a.s, d.content.frame, true, random);
        Step(h.s, a.out + h.out)
  }

  // ---- robust management ------------------------------------------------------------------------------------------

  datatype MgmtFrame = MgmtFrame(
    fromAp: bool, action: bool, group: bool, protected: bool, pn: Option<nat>, key: SealKey, content: Content)

  function ResetSessionKeys(s: State): State {
    State(s.bssid, s.connected, 0, 0, 0, Zero, Zero, Zero, false, None, 0, false, s.gtkKeyId, None, None, None,
          1, Uniform(0), Uniform(0), 0, 0, 0, s.saePmk, false)
  }

  function Disconnect(s: State): State {
    ResetSessionKeys(s.(connected := 0)).(bssid := None, gtkKeyId := 1, saePmk := None)
  }

  predicate MgmtOpens(s: State, m: MgmtFrame) {
    m.protected && s.installed && m.key == Pairwise(s.tk) && m.pn.Some? && m.pn.value > s.rxMgmtPn
  }

  function AcceptMgmt(s: State, m: MgmtFrame): Step
    requires MgmtOpens(s, m)
  {
    Step(s.(rxMgmtPn := m.pn.value), [Accepted(Management(s.tk), m.pn.value)])
  }

  predicate BipVerifies(s: State, m: MgmtFrame) {
    s.igtk.Some? && m.key == Integrity(s.igtk.value) && m.pn.Some? && m.pn.value > s.rxIgtkIpn
  }

  function HandleAction(s: State, m: MgmtFrame): Step {
    if s.saePmk.None? || !MgmtOpens(s, m) then Step(s, []) else
      var a := AcceptMgmt(s, m);
      match m.content
      case BtmRequest(imminent) => if imminent then Step(Disconnect(a.s), a.out) else a
      case SaQueryRequest(id) =>
        if s.bssid.None? then a else
          var r := SealNext(a.s, SaQueryResponse(id));
          Step(r.s, a.out + r.out)
      case _ => a
  }

  function HandleDeauth(s: State, m: MgmtFrame): Step {
    if s.saePmk.None? then Step(Disconnect(s), [])
    else if m.group then
      if BipVerifies(s, m) then Step(Disconnect(s), [Accepted(Bip(s.igtk.value), m.pn.value)]) else Step(s, [])
    else if MgmtOpens(s, m) then Step(Disconnect(s), AcceptMgmt(s, m).out)
    else Step(s, [])
  }

  function HandleRobustMgmt(s: State, m: MgmtFrame): Step {
    if s.connected < 2 || !m.fromAp then Step(s, [])
    else if m.action then HandleAction(s, m)
    else HandleDeauth(s, m)
  }

  // ---- connection -------------------------------------------------------------------------------------------------

  // A matching beacon starts a connection; `cached` is the PMK of a live PMKSA for that BSS.
  function HandleBeacon(s: State, bssid: Mac, cached: Option<Pmk>): State {
    if s.connected != 0 then s else
      var t := ResetSessionKeys(s).(bssid := Some(bssid), connected := 1);
      if cached.Some? then t.(saePmk := cached, pmksaReconnect := true) else t
  }

  function SaeConfirmed(cfg: Config, s: State, pmk: Pmk): State {
    if s.connected == 1 && cfg.saeEnabled then s.(saePmk := Some(pmk)) else s
  }

  // `owePmk` is what the AP's Diffie-Hellman element yields.
  function AssociationAccepted(cfg: Config, s: State, owePmk: Option<Pmk>): State {
    if s.connected != 1 || (cfg.owe && owePmk.None?) then s else
      var t := if cfg.owe then s.(saePmk := owePmk) else s;
      if cfg.saeEnabled && t.saePmk.None? then t else t.(connected := 2)
  }

  function AssociationRefused(s: State, invalidPmkid: bool): State {
    if s.connected == 1 && invalidPmkid && s.pmksaReconnect then Disconnect(s) else s
  }

  datatype Event =
    | BeaconSeen(bssid: Mac, cached: Option<Pmk>)
    | SaeDone(pmk: Pmk)
    | AssocAccepted(owePmk: Option<Pmk>)
    | AssocRefused(invalidPmkid: bool)
    | EapolReceived(frame: EapolKey, random: Nonce)
    | DataReceived(data: DataFrame, random: Nonce)
    | MgmtReceived(mgmt: MgmtFrame)
    | Uplink(octets: nat)
    | TimedOut

  function Handle(cfg: Config, s: State, e: Event): Step {
    match e
    case BeaconSeen(bssid, cached) => Step(HandleBeacon(s, bssid, cached), [])
    case SaeDone(pmk) => Step(SaeConfirmed(cfg, s, pmk), [])
    case AssocAccepted(owePmk) => Step(AssociationAccepted(cfg, s, owePmk), [])
    case AssocRefused(invalidPmkid) => Step(AssociationRefused(s, invalidPmkid), [])
    case EapolReceived(f, random) => if s.connected > 1 then HandleEapolKey(cfg, s, f, false, random) else Step(s, [])
    case DataReceived(d, random) => ReceiveData(cfg, s, d, random)
    case MgmtReceived(m) => HandleRobustMgmt(s, m)
    case Uplink(octets) => EncryptUplink(s, Ethernet(octets))
    case TimedOut => if s.connected == 0 then Step(s, []) else Step(Disconnect(s), [])
  }

  // ---- runs ----------------------------------------------------------------------------------------------------------

  function RunFrom(cfg: Config, s: State, es: seq<Event>): Step {
    if es == [] then Step(s, []) else
      var before := RunFrom(cfg, s, es[..|es| - 1]);
      var h := Handle(cfg, before.s, es[|es| - 1]);
      Step(h.s, before.out + h.out)
  }

  function Run(cfg: Config, es: seq<Event>): Step {
    RunFrom(cfg, Initial(), es)
  }

  function EventFrame(e: Event): Option<EapolKey> {
    match e
    case EapolReceived(f, _) => Some(f)
    case DataReceived(d, _) => if d.content.Eapol? then Some(d.content.frame) else None
    case _ => None
  }

  function EventRandom(e: Event): Option<Nonce> {
    match e
    case EapolReceived(_, r) => Some(r)
    case DataReceived(_, r) => Some(r)
    case _ => None
  }

  // Every nonce a run has drawn or received.
  function NoncesSeen(es: seq<Event>): set<Nonce> {
    if es == [] then {} else
      var e := es[|es| - 1];
      NoncesSeen(es[..|es| - 1])
      + (if EventFrame(e).Some? then {EventFrame(e).value.body.nonce} else {})
      + (if EventRandom(e).Some? then {EventRandom(e).value} else {})
  }

  // The random source never repeats a value that has been drawn or received before.
  predicate FreshRandom(es: seq<Event>) {
    es == [] ||
    var e, before := es[|es| - 1], es[..|es| - 1];
    && FreshRandom(before)
    && (EventRandom(e).Some? ==>
          EventRandom(e).value !in NoncesSeen(before)
          && (EventFrame(e).Some? ==> EventRandom(e).value != EventFrame(e).value.body.nonce))
  }
}
