/**
 The supplicant as an object: fields assigned in the order the program assigns them, one
 method per handler, each proved to compute the operation of the same name in Supplicant.
 */
module ClientObject {
  import opened Common
  import opened Symbols
  import S = Supplicant
  import opened Supplicant
  import opened ReplayWindows
  import opened SupplicantRuns

  class Client {
    const cfg: Config
    var bssid: Option<Mac>
    var connected: nat
    var eapolState: nat
    var anonce: Nonce
    var snonce: Nonce
    var kck: Secret
    var kek: Secret
    var tk: Secret
    var installed: bool
    var pending: Option<PendingPtk>
    var gtk: GroupKey
    var gtkSet: bool
    var gtkKeyId: nat
    var igtk: Option<GroupKey>
    var igtkKeyId: Option<nat>
    var bigtk: Option<GroupKey>
    var clientPn: nat
    var rxPn: Window
    var rxGroupPn: Window
    var rxMgmtPn: nat
    var rxIgtkIpn: nat
    var eapolReplay: nat
    var saePmk: Option<Pmk>
    var pmksaReconnect: bool

    ghost function View(): State
      reads this
    {
      State(bssid, connected, eapolState, anonce, snonce, kck, kek, tk, installed, pending,
            gtk, gtkSet, gtkKeyId, igtk, igtkKeyId, bigtk,
            clientPn, rxPn, rxGroupPn, rxMgmtPn, rxIgtkIpn, eapolReplay, saePmk, pmksaReconnect)
    }

    constructor (cfg: Config)
      ensures this.cfg == cfg && View() == Initial()
    {
      this.cfg := cfg;
      bssid, connected, eapolState, anonce, snonce := None, 0, 0, 0, 0;
      kck, kek, tk, installed, pending := Zero, Zero, Zero, false, None;
      gtk, gtkSet, gtkKeyId, igtk, igtkKeyId, bigtk := 0, false, 1, None, None, None;
      clientPn, rxPn, rxGroupPn, rxMgmtPn, rxIgtkIpn := 1, Uniform(0), Uniform(0), 0, 0;
      eapolReplay, saePmk, pmksaReconnect := 0, None, false;
    }

    function Mic(): (a: MicAlgorithm)
      reads this
      ensures a == KeyMic(cfg, View())
    {
      if cfg.pskSha256 then AesCmacV3 else if saePmk.None? then HmacSha1 else if cfg.owe then HmacSha256 else AesCmac
    }

    // ---- sending --------------------------------------------------------------------------

    method NextClientPn() returns (pn: Option<nat>)
      modifies this`clientPn
      ensures pn == if old(clientPn) > MAX_PACKET_NUMBER then None else Some(old(clientPn))
      ensures clientPn == old(clientPn) + (if pn.Some? then 1 else 0)
    {
      if clientPn > MAX_PACKET_NUMBER {
        return None;
      }
      pn := Some(clientPn);
      clientPn := clientPn + 1;
    }

    method EncryptUplink(c: Content) returns (out: seq<Out>)
      modifies this
      ensures Step(View(), out) == S.EncryptUplink(old(View()), c)
    {
      if bssid.None? || connected < 4 {
        return [];
      }
      var pn := NextClientPn();
      out := if pn.None? then [] else [Sealed(tk, pn.value, c)];
    }

    method TxEapol(f: EapolKey, protected: bool) returns (out: seq<Out>)
      modifies this
      ensures Step(View(), out) == S.TxEapol(old(View()), f, protected)
    {
      if !protected {
        return [Sent(f)];
      }
      if bssid.None? {
        return [];
      }
      out := EncryptUplink(Eapol(f));
    }

    method SendEapol2(b: Body, protected: bool, random: Nonce) returns (out: seq<Out>)
      modifies this
      ensures Step(View(), out) == S.SendEapol2(cfg, old(View()), b, protected, random)
    {
      if bssid.None? {
        return [];
      }
      var sha256 := saePmk.Some? || cfg.pskSha256;
      var aa, spa := cfg.apMldMac.GetOr(bssid.value), cfg.mldMac.GetOr(cfg.mac);
      var suite := if sha256 then Sha256Kdf(cfg.keyLength) else Sha1Prf;
      var ptk := Derive(saePmk.GetOr(cfg.pmk), aa, spa, b.nonce, random, suite);
      pending := Some(PendingPtk(b.nonce, random, b.replay, Kck(ptk), Kek(ptk), Tk(ptk)));
      var oci := if cfg.ocv then Some(cfg.oci) else None;
      var m2 := Message2(Mic(), Kck(ptk), b.replay, random, Plain(cfg.rsn, cfg.mldMac, oci));
      out := TxEapol(m2, protected);
      eapolState := 1;
    }

    method SendEapol2Retry(b: Body, protected: bool, random: Nonce) returns (out: seq<Out>)
      modifies this
      ensures Step(View(), out) == S.SendEapol2Retry(cfg, old(View()), b, protected, random)
    {
      var override := if pending.Some? then pending.value.snonce else random;
      out := SendEapol2(b, protected, override);
    }

    // ---- key installation --------------------------------------------------------------------

    method InstallGtk(id: nat, from: nat, key: GroupKey)
      modifies this
      ensures View() == WithGtk(old(View()), id, from, key)
    {
      if !(gtkSet && gtk == key) {
        gtk := key;
        gtkSet := true;
        gtkKeyId := id;
        rxGroupPn := Uniform(from);
      }
    }

    method InstallIgtk(k: Option<IgtkDelivery>)
      modifies this
      ensures View() == WithIgtk(old(View()), k)
    {
      if k.Some? && igtk != Some(k.value.key) {
        igtk := Some(k.value.key);
        igtkKeyId := Some(k.value.keyId);
        rxIgtkIpn := k.value.ipn;
      }
    }

    method InstallGroupKeys(k: Delivery, rsc: nat) returns (ok: bool)
      modifies this
      ensures S.InstallGroupKeys(old(View()), k, rsc) == if ok then Granted(View()) else Refused
      ensures !ok ==> View() == old(View())
    {
      hide WithGtk, WithIgtk, DeliveredGtk;
      if rsc > MAX_PACKET_NUMBER {
        return false;
      }
      var found := DeliveredGtk(k, rsc);
      if found.None? || (saePmk.Some? && k.igtk.None?) {
        return false;
      }
      InstallGtk(found.value.0, found.value.1, found.value.2);
      InstallIgtk(k.igtk);
      if k.bigtk.Some? && bigtk != k.bigtk {
        bigtk := k.bigtk;
      }
      return true;
    }

    method TakeNonces(p: PendingPtk)
      modifies this
      ensures View() == old(View()).(pending := None, anonce := p.anonce, snonce := p.snonce)
    {
      pending := None;
      anonce, snonce := p.anonce, p.snonce;
    }

    method TakeKeys(p: PendingPtk)
      modifies this
      ensures View() == old(View()).(kck := p.kck, kek := p.kek, tk := p.tk)
    {
      kck, kek, tk := p.kck, p.kek, p.tk;
    }

    method RestartCounters()
      modifies this
      ensures View() == WithCountersRestarted(old(View()))
    {
      clientPn := 1;
      rxPn := Uniform(0);
      rxMgmtPn := 0;
    }

    method CommitPendingPtk() returns (out: seq<Out>)
      modifies this
      ensures Step(View(), out) == CommitPending(old(View()))
    {
      hide WithCountersRestarted;
      if pending.None? {
        return [];
      }
      var p := pending.value;
      var sameTemporalKey := installed && tk == p.tk;
      TakeNonces(p);
      TakeKeys(p);
      if sameTemporalKey {
        return [];
      }
      RestartCounters();
      out := [Out.Installed(p.tk)];
    }

    method AcceptM3(f: EapolKey) returns (ok: bool, out: seq<Out>)
      modifies this
      ensures TakeM3(cfg, old(View()), f) == if ok then Some(Step(View(), out)) else None
      ensures !ok ==> View() == old(View())
    {
      var b := f.body;
      var retry := eapolState == 2 && installed && b.replay >= eapolReplay;
      var freshM3 := pending.Some? && b.replay >= pending.value.replay && b.replay > eapolReplay;
      if !retry && !freshM3 {
        return false, [];
      }
      var verifying := if retry then kck else pending.value.kck;
      if !MicValid(Mic(), verifying, f) {
        return false, [];
      }
      if retry {
        eapolReplay := b.replay;
        return true, [];
      }
      var keys := Unwrap(pending.value.kek, b.data);
      if keys.None? || !OciAccepted(cfg, keys.value) {
        return false, [];
      }
      var granted := InstallGroupKeys(keys.value, b.rsc);
      if !granted {
        return false, [];
      }
      eapolReplay := b.replay;
      out := CommitPendingPtk();
      ok := true;
    }

    method SendEapol4(f: EapolKey, protected: bool) returns (out: seq<Out>)
      modifies this
      ensures Step(View(), out) == S.SendEapol4(cfg, old(View()), f, protected)
    {
      hide TakeM3;
      if bssid.None? {
        return [];
      }
      var ok, committed := AcceptM3(f);
      if !ok {
        return [];
      }
      var m4 := Message4(Mic(), kck, eapolReplay, cfg.mldMac);
      var reply := TxEapol(m4, protected);
      CompleteHandshake();
      out := committed + reply;
    }

    method CompleteHandshake()
      modifies this`connected, this`installed, this`eapolState
      ensures View() == old(View()).(connected := 4, installed := true, eapolState := 2)
    {
      connected := 4;
      installed := true;
      eapolState := 2;
    }

    // ---- dispatch --------------------------------------------------------------------------------

    method AcceptGroupM1(f: EapolKey) returns (ok: bool)
      modifies this
      ensures TakeGroupM1(cfg, old(View()), f) == if ok then Some(View()) else None
      ensures !ok ==> View() == old(View())
    {
      hide S.InstallGroupKeys;
      var b := f.body;
      if !MicValid(Mic(), kck, f) || b.replay < eapolReplay {
        return false;
      }
      if b.replay > eapolReplay {
        var keys := Unwrap(kek, b.data);
        if keys.None? {
          return false;
        }
        var granted := InstallGroupKeys(keys.value, b.rsc);
        if !granted {
          return false;
        }
        eapolReplay := b.replay;
      }
      ok := true;
    }

    method HandleGroupRekey(f: EapolKey, protected: bool) returns (out: seq<Out>)
      modifies this
      ensures Step(View(), out) == S.HandleGroupRekey(cfg, old(View()), f, protected)
    {
      hide TakeGroupM1, S.TxEapol;
      if bssid.None? {
        return [];
      }
      var algorithm, key := Mic(), kck;
      var ok := AcceptGroupM1(f);
      if !ok {
        return [];
      }
      out := TxEapol(GroupMessage2(algorithm, key, f.body.replay), protected);
    }

    predicate M1(b: Body)
      reads this
      ensures M1(b) == ValidM1(cfg, View(), b)
    {
      var i := b.info;
      && i.pairwise && i.ack && !i.install && !i.mic && !i.secure && !i.error && !i.request && !i.encrypted
      && i.version == Version(Mic()) && b.keyLength == cfg.keyLength && b.nonce != NO_NONCE
    }

    predicate M3(b: Body)
      reads this
      ensures M3(b) == ValidM3(cfg, View(), b)
    {
      var i := b.info;
      && i.pairwise && i.ack && i.install && i.mic && i.secure && !i.error && !i.request && i.encrypted
      && i.version == Version(Mic()) && b.keyLength == cfg.keyLength && b.data != Empty
      && ((pending.Some? && b.nonce == pending.value.anonce) || (installed && b.nonce == anonce))
    }

    predicate GroupM1(b: Body)
      reads this
      ensures GroupM1(b) == ValidGroupM1(cfg, View(), b)
    {
      var i := b.info;
      && !i.pairwise && i.ack && !i.install && i.mic && i.secure && !i.error && !i.request && i.encrypted
      && i.version == Version(Mic()) && b.nonce == NO_NONCE && b.data != Empty
    }

    method HandleEapolKey(f: EapolKey, protected: bool, random: Nonce) returns (out: seq<Out>)
      modifies this
      ensures Step(View(), out) == S.HandleEapolKey(cfg, old(View()), f, protected, random)
    {
      hide S.SendEapol2, S.SendEapol2Retry, S.SendEapol4, S.HandleGroupRekey, ValidM1, ValidM3, ValidGroupM1, M1, M3, GroupM1;
      var b := f.body;
      if !protected && installed && saePmk.Some? && b.info.pairwise && !b.info.mic {
        return [];
      }
      out := [];
      if connected >= 4 {
        if !b.info.pairwise {
          if GroupM1(b) {
            out := HandleGroupRekey(f, protected);
          }
          return;
        }
        if eapolState == 2 {
          if M3(b) {
            out := SendEapol4(f, protected);
          } else if M1(b) && b.replay > eapolReplay {
            out := SendEapol2(b, protected, random);
          }
          return;
        }
      }
      if eapolState == 0 {
        if M1(b) {
          out := SendEapol2(b, protected, random);
        }
      } else if eapolState == 1 {
        if M3(b) {
          out := SendEapol4(f, protected);
        } else if M1(b) && pending.Some? && b.replay >= pending.value.replay && b.nonce == pending.value.anonce {
          out := SendEapol2Retry(b, protected, random);
        } else if M1(b) && b.replay > eapolReplay {
          out := SendEapol2(b, protected, random);
        }
      }
    }

    // ---- protected frames --------------------------------------------------------------------------

    method ReceiveData(d: DataFrame, random: Nonce) returns (out: seq<Out>)
      modifies this
      ensures Step(View(), out) == S.ReceiveData(cfg, old(View()), d, random)
    {
      hide S.HandleEapolKey;
      if connected <= 3 || d.aggregated || (!d.groupRa && !d.toUs) {
        return [];
      }
      var useGroup := d.keyId == gtkKeyId && d.keyId != 0;
      if useGroup && !d.groupRa {
        return [];
      }
      if !useGroup && (d.groupRa || d.keyId != 0) {
        return [];
      }
      if d.pn.None? {
        return [];
      }
      var last := if useGroup then rxGroupPn[d.slot] else rxPn[d.slot];
      if d.pn.value <= last {
        return [];
      }
      var opening := if useGroup then Group(gtk) else Pairwise(tk);
      if d.key != opening || (!d.content.Ethernet? && !d.content.Eapol?) {
        return [];
      }
      if useGroup {
        rxGroupPn := rxGroupPn[d.slot := d.pn.value];
        out := [Accepted(GroupData(gtk, d.slot), d.pn.value)];
      } else {
        rxPn := rxPn[d.slot := d.pn.value];
        out := [Accepted(Data(tk, d.slot), d.pn.value)];
      }
      if d.content.Ethernet? {
        out := out + [Delivered(d.content.octets)];
      } else if !useGroup {
        var reply := HandleEapolKey(d.content.frame, true, random);
        out := out + reply;
      }
    }

    method ClearPairwise()
      modifies this`anonce, this`snonce, this`kck, this`kek, this`tk, this`installed, this`pending
      ensures anonce == 0 && snonce == 0 && kck == Zero && kek == Zero && tk == Zero && !installed && pending == None
    {
      anonce, snonce := 0, 0;
      kck, kek, tk := Zero, Zero, Zero;
      installed, pending := false, None;
    }

    method ClearGroup()
      modifies this`gtk, this`gtkSet, this`igtk, this`igtkKeyId, this`bigtk
      ensures gtk == 0 && !gtkSet && igtk == None && igtkKeyId == None && bigtk == None
    {
      gtk, gtkSet, igtk, igtkKeyId, bigtk := 0, false, None, None, None;
    }

    method ClearCounters()
      modifies this`clientPn, this`rxPn, this`rxGroupPn, this`rxMgmtPn, this`rxIgtkIpn, this`eapolReplay
      ensures clientPn == 1 && rxPn == Uniform(0) && rxGroupPn == Uniform(0) && rxMgmtPn == 0 && rxIgtkIpn == 0
      ensures eapolReplay == 0
    {
      clientPn, rxPn, rxGroupPn, rxMgmtPn, rxIgtkIpn, eapolReplay := 1, Uniform(0), Uniform(0), 0, 0, 0;
    }

    method ResetSessionKeys()
      modifies this
      ensures View() == S.ResetSessionKeys(old(View()))
    {
      ClearPairwise();
      ClearGroup();
      ClearCounters();
      eapolState, pmksaReconnect := 0, false;
    }

    method Disconnect()
      modifies this
      ensures View() == S.Disconnect(old(View()))
    {
      hide S.ResetSessionKeys;
      connected := 0;
      ResetSessionKeys();
      bssid := None;
      ForgetNetwork();
    }

    method ForgetNetwork()
      modifies this
      ensures View() == old(View()).(gtkKeyId := 1, saePmk := None)
    {
      gtkKeyId := 1;
      saePmk := None;
    }

    method AcceptMgmtPn(m: MgmtFrame) returns (ok: bool, out: seq<Out>)
      modifies this
      ensures ok == MgmtOpens(old(View()), m)
      ensures if ok then Step(View(), out) == AcceptMgmt(old(View()), m) else View() == old(View()) && out == []
    {
      ok, out := false, [];
      if m.protected && installed && m.key == Pairwise(tk) && m.pn.Some? && m.pn.value > rxMgmtPn {
        rxMgmtPn := m.pn.value;
        ok, out := true, [Accepted(Management(tk), m.pn.value)];
      }
    }

    method HandleAction(m: MgmtFrame) returns (out: seq<Out>)
      modifies this
      ensures Step(View(), out) == S.HandleAction(old(View()), m)
    {
      hide S.Disconnect, MgmtOpens;
      if saePmk.None? {
        return [];
      }
      var ok;
      ok, out := AcceptMgmtPn(m);
      if ok && m.content == BtmRequest(true) {
        Disconnect();
      } else if ok && m.content.SaQueryRequest? && bssid.Some? {
        var pn := NextClientPn();
        if pn.Some? {
          out := out + [Sealed(tk, pn.value, SaQueryResponse(m.content.id))];
        }
      }
    }

    method HandleDeauth(m: MgmtFrame) returns (out: seq<Out>)
      modifies this
      ensures Step(View(), out) == S.HandleDeauth(old(View()), m)
    {
      hide S.Disconnect;
      var accept := saePmk.None?;
      out := [];
      if saePmk.Some? {
        if m.group {
          accept := igtk.Some? && m.key == Integrity(igtk.value) && m.pn.Some? && m.pn.value > rxIgtkIpn;
          if accept {
            out := [Accepted(Bip(igtk.value), m.pn.value)];
          }
        } else {
          accept, out := AcceptMgmtPn(m);
          DisconnectIgnoresMgmtPn(old(View()), rxMgmtPn);
        }
      }
      if accept {
        Disconnect();
      }
    }

    lemma {:induction false} DisconnectIgnoresMgmtPn(s: State, n: nat)
      ensures S.Disconnect(s.(rxMgmtPn := n)) == S.Disconnect(s)
    {
    }

    method HandleRobustMgmt(m: MgmtFrame) returns (out: seq<Out>)
      modifies this
      ensures Step(View(), out) == S.HandleRobustMgmt(old(View()), m)
    {
      hide S.HandleAction, S.HandleDeauth;
      if connected < 2 || !m.fromAp {
        return [];
      }
      if m.action {
        out := HandleAction(m);
      } else {
        out := HandleDeauth(m);
      }
    }

    // ---- connection ------------------------------------------------------------------------------

    method RestorePmksa(cached: Option<Pmk>)
      modifies this
      ensures View() == if cached.Some? then old(View()).(saePmk := cached, pmksaReconnect := true) else old(View())
    {
      if cached.Some? {
        saePmk := cached;
        pmksaReconnect := true;
      }
    }

    method HandleBeacon(from: Mac, cached: Option<Pmk>)
      modifies this
      ensures View() == S.HandleBeacon(old(View()), from, cached)
    {
      hide S.ResetSessionKeys;
      if connected != 0 {
        return;
      }
      ResetSessionKeys();
      bssid := Some(from);
      connected := 1;
      RestorePmksa(cached);
    }

    method Handle(e: Event) returns (out: seq<Out>)
      modifies this
      ensures Step(View(), out) == S.Handle(cfg, old(View()), e)
    {
      hide S.HandleEapolKey, S.ReceiveData, S.HandleRobustMgmt, S.HandleBeacon, S.Disconnect;
      out := [];
      match e {
        case BeaconSeen(from, cached) => HandleBeacon(from, cached);
        case SaeDone(pmk) =>
          if connected == 1 && cfg.saeEnabled {
            saePmk := Some(pmk);
          }
        case AssocAccepted(owePmk) =>
          if connected == 1 && !(cfg.owe && owePmk.None?) {
            if cfg.owe {
              saePmk := owePmk;
            }
            if !(cfg.saeEnabled && saePmk.None?) {
              connected := 2;
            }
          }
        case AssocRefused(invalidPmkid) =>
          if connected == 1 && invalidPmkid && pmksaReconnect {
            Disconnect();
          }
        case EapolReceived(f, random) =>
          if connected > 1 {
            out := HandleEapolKey(f, false, random);
          }
        case DataReceived(d, random) => out := ReceiveData(d, random);
        case MgmtReceived(m) => out := HandleRobustMgmt(m);
        case Uplink(octets) => out := EncryptUplink(Ethernet(octets));
        case TimedOut =>
          if connected != 0 {
            Disconnect();
          }
      }
    }

    // One event after another. The log is that of the specification's run; from the start, and
    // with fresh SNonces, packet numbers and accepted numbers climb under every key; and from any
    // live state each counter climbs while its key stays installed.
    method Run(es: seq<Event>) returns (log: seq<Out>)
      modifies this
      ensures Step(View(), log) == RunFrom(cfg, old(View()), es)
      ensures old(View()) == Initial() && FreshRandom(es) ==> SealedInOrder(log) && AcceptedInOrder(log)
      ensures Live(old(View())) ==> WindowsClimb(cfg, old(View()), es, View(), log)
    {
      log := [];
      assert es[..0] == [];
      hide S.Handle;
      for i := 0 to |es|
        invariant Step(View(), log) == RunFrom(cfg, old(View()), es[..i])
      {
        assert es[..i + 1][..i] == es[..i];
        var out := Handle(es[i]);
        log := log + out;
      }
      assert es[..|es|] == es;
      RunPromises(cfg, old(View()), es);
    }
  }

  ghost predicate WindowsClimb(cfg: Config, s: State, es: seq<Event>, t: State, log: seq<Out>) {
    forall c: Counter :: StaysInstalled(cfg, s, es, c) ==>
      CounterOf(s, c).Some? && CounterOf(t, c).Some?
      && Climbs(CounterOf(s, c).value, Numbers(log, c), CounterOf(t, c).value)
  }

  lemma {:induction false} RunPromises(cfg: Config, s: State, es: seq<Event>)
    ensures var r := RunFrom(cfg, s, es);
            && (s == Initial() && FreshRandom(es) ==> SealedInOrder(r.out) && AcceptedInOrder(r.out))
            && (Live(s) ==> WindowsClimb(cfg, s, es, r.s, r.out))
  {
    hide SealedInOrder, AcceptedInOrder, FreshRandom, Live, Climbs, Numbers;
    if s == Initial() && FreshRandom(es) {
      NoPacketNumberTwice(cfg, es);
    }
    if Live(s) {
      forall c: Counter | StaysInstalled(cfg, s, es, c)
        ensures CounterOf(s, c).Some? && CounterOf(RunFrom(cfg, s, es).s, c).Some?
        ensures Climbs(CounterOf(s, c).value, Numbers(RunFrom(cfg, s, es).out, c), CounterOf(RunFrom(cfg, s, es).s, c).value)
      {
        AcceptedNumbersClimb(cfg, s, es, c);
      }
    }
  }
}
