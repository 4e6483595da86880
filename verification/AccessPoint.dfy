/**
 The authenticator as an object: the station table and the group state are fields that the
 handlers reassign, credentials and PTK candidates are tried in loops, and every method is
 proved to compute the operation of the same name in Authenticator.
 */
module AccessPointObject {
  import opened Common
  import opened Symbols
  import A = Authenticator
  import opened Authenticator
  import opened AuthenticatorRuns
  import opened AuthenticatorWindows

  class AccessPoint {
    const cfg: Config
    var stations: map<Mac, Station>
    var pendingAnonce: map<Mac, Held>
    var pmksa: map<(nat, Mac), Pmksa>
    var replayCounter: nat
    var gtk: GroupKey
    var gtkKeyId: nat
    var groupPn: nat
    var igtk: GroupKey
    var igtkKeyId: nat
    var igtkIpn: nat
    var saQueryId: nat

    ghost function View(): State
      reads this
    {
      State(stations, pendingAnonce, pmksa, replayCounter, gtk, gtkKeyId, groupPn, igtk, igtkKeyId, igtkIpn, saQueryId)
    }

    constructor (cfg: Config, replayCounter: nat, gtk: GroupKey, igtk: GroupKey)
      ensures this.cfg == cfg && View() == Initial(replayCounter, gtk, igtk)
    {
      this.cfg := cfg;
      stations, pendingAnonce, pmksa := map[], map[], map[];
      this.replayCounter, this.gtk, gtkKeyId, groupPn := replayCounter, gtk, 1, 1;
      this.igtk, igtkKeyId, igtkIpn, saQueryId := igtk, 4, 0, 0;
    }

    // ---- counters ------------------------------------------------------------------------

    method NextEapolReplay() returns (r: nat)
      modifies this`replayCounter
      ensures r == NextReplay(old(replayCounter)) == replayCounter
    {
      replayCounter := (replayCounter + 1) % U64;
      if replayCounter == 0 {
        replayCounter := 1;
      }
      r := replayCounter;
    }

    // The station's next packet number, while there is one.
    method NextClientPn(sta: Mac) returns (pn: Option<nat>)
      requires sta in stations
      modifies this`stations
      ensures var s := old(stations)[sta];
              && pn == (if s.clientPn > MAX_PACKET_NUMBER then None else Some(s.clientPn))
              && stations == if pn.None? then old(stations) else old(stations)[sta := s.(clientPn := s.clientPn + 1)]
    {
      var s := stations[sta];
      if s.clientPn > MAX_PACKET_NUMBER {
        return None;
      }
      stations := stations[sta := s.(clientPn := s.clientPn + 1)];
      pn := Some(s.clientPn);
    }

    method ProtectedFrame(sta: Mac, c: Content) returns (out: seq<Out>)
      modifies this`stations
      ensures Step(View(), out) == SealNext(old(View()), sta, c)
    {
      if sta !in stations || !stations[sta].associated {
        return [];
      }
      var key := stations[sta].tk;
      var pn := NextClientPn(sta);
      out := if pn.None? then [] else [Sealed(sta, key, pn.value, c)];
    }

    method GroupFrame(octets: nat) returns (out: seq<Out>)
      modifies this`groupPn
      ensures Step(View(), out) == SealGroup(old(View()), octets)
    {
      if groupPn > MAX_PACKET_NUMBER {
        return [];
      }
      out := [GroupSealed(gtk, groupPn, octets)];
      groupPn := groupPn + 1;
    }

    // ---- PMF sessions and authentication --------------------------------------------------------

    method ChallengeStation(sta: Mac, now: nat) returns (out: seq<Out>)
      modifies this`stations, this`saQueryId
      ensures Step(View(), out) == SaQueryChallenge(old(View()), sta, now)
    {
      if sta !in stations || !stations[sta].associated {
        return [];
      }
      var query := stations[sta].saQuery;
      var id := if query.Some? then query.value.id else (saQueryId + 1) % 0x1_0000;
      saQueryId := if query.Some? then saQueryId else id;
      out := ProtectedFrame(sta, SaQueryRequest(id));
      if out != [] {
        var s := stations[sta];
        stations := stations[sta := s.(saQuery := if query.Some? then query else Some(SaQuery(id, now)))];
      }
    }

    method HandleAuth(sta: Mac, sae: bool, now: nat, newGtk: GroupKey, newIgtk: GroupKey) returns (out: seq<Out>)
      modifies this`stations, this`saQueryId
      ensures Step(View(), out) == A.HandleAuth(old(View()), sta, sae, now, newGtk, newIgtk)
    {
      hide SaQueryChallenge, RestartSession, NewStation;
      if sta in stations && stations[sta].associated && stations[sta].pmf {
        out := ChallengeStation(sta, now);
        return;
      }
      if sae {
        return [];
      }
      var s := if sta in stations then stations[sta] else NewStation(newGtk, newIgtk);
      var retransmit := s.lastAuth.Some? && now < s.lastAuth.value + BACKOFF;
      var midHandshake := s.anonce.Some? && s.eapolReady && !s.awaitingM4;
      if !retransmit && !midHandshake {
        s := RestartSession(s, now, newGtk);
      } else if !retransmit {
        s := s.(lastAuth := Some(now));
      }
      stations := stations[sta := s];
      out := [Answer(sta, AuthOk)];
    }

    // ---- association ----------------------------------------------------------------------------------

    // The PMKIDs of the request are looked up in order.
    method FindPmksa(pmkids: seq<nat>, identity: Mac, now: nat) returns (found: Option<Pmksa>)
      ensures found == CachedPmksa(pmksa, pmkids, identity, now)
    {
      var i := 0;
      while i < |pmkids|
        invariant i <= |pmkids|
        invariant CachedPmksa(pmksa, pmkids, identity, now) == CachedPmksa(pmksa, pmkids[i..], identity, now)
      {
        assert pmkids[i..][0] == pmkids[i] && pmkids[i..][1..] == pmkids[i + 1..];
        if (pmkids[i], identity) in pmksa && pmksa[(pmkids[i], identity)].expires > now {
          return Some(pmksa[(pmkids[i], identity)]);
        }
        i := i + 1;
      }
      found := None;
    }

    method Authorize(sta: Mac, s: Station, q: AssocRequest, now: nat) returns (t: Station, refused: Option<nat>)
      ensures (t, refused) == Authorized(cfg, View(), sta, s, q, now)
    {
      hide WithPmksa, WithOwe, CachedPmksa;
      var cached := FindPmksa(q.pmkids, s.mldMac.GetOr(sta), now);
      t := WithPmksa(s, cached);
      refused := None;
      if q.sae && q.pmkids != [] && t.pmk.None? {
        return t, Some(STATUS_INVALID_PMKID);
      }
      if cfg.mode.Owe? && q.dh.OtherGroup? {
        return t, Some(STATUS_GROUP_NOT_SUPPORTED);
      }
      if cfg.mode.Owe? && q.dh.Dh? {
        t := WithOwe(t, q.dh.pmk);
      }
      if (cfg.mode.Wpa3Sae? || cfg.mode.Owe?) && t.pmk.None? {
        refused := Some(STATUS_UNSPECIFIED);
      }
    }

    method BeginHandshake(sta: Mac, s: Station, random: Nonce, now: nat) returns (out: seq<Out>)
      modifies this`stations, this`pendingAnonce, this`replayCounter
      ensures Step(View(), out) == StartHandshake(cfg, old(View()), sta, s, random, now)
    {
      hide NextReplay, FirstMessage;
      pendingAnonce := DropExpired(pendingAnonce, now);
      var anonce, replay;
      if s.eapolReady && s.anonce.Some? {
        anonce, replay := s.anonce.value, s.eapolReplay;
      } else if sta in pendingAnonce {
        anonce, replay := pendingAnonce[sta].anonce, pendingAnonce[sta].replay;
      } else {
        anonce := random;
        replay := NextEapolReplay();
      }
      pendingAnonce := pendingAnonce[sta := Held(anonce, replay, now)];
      var m1 := FirstMessage(cfg, s, anonce, replay);
      stations := stations[sta := s.(anonce := Some(anonce), eapolReady := true, eapolReplay := replay, m1Replay := replay,
                                     candidates := [], pendingEapol := Some(m1))];
      out := [Answer(sta, AssocOk), Sent(sta, m1)];
    }

    method HandleAssoc(sta: Mac, q: AssocRequest, now: nat, random: Nonce, newGtk: GroupKey, newIgtk: GroupKey)
      returns (out: seq<Out>)
      modifies this`stations, this`pendingAnonce, this`replayCounter, this`saQueryId
      ensures Step(View(), out) == A.HandleAssoc(cfg, old(View()), sta, q, now, random, newGtk, newIgtk)
    {
      hide SaQueryChallenge, NewStation, Negotiated, Authorized, StartHandshake;
      ghost var a := View();
      if q.reloading {
        return [Answer(sta, Rejected(STATUS_UNSPECIFIED))];
      }
      if sta in stations && stations[sta].associated && stations[sta].pmf {
        var challenge := ChallengeStation(sta, now);
        return [Answer(sta, Comeback)] + challenge;
      }
      var refusal := Refused(sta, q);
      if refusal.Some? {
        return [Answer(sta, Rejected(refusal.value))];
      }
      NegotiationSucceeded(sta, q);
      var s := Negotiated(cfg, if sta in stations then stations[sta] else NewStation(newGtk, newIgtk), q);
      if s.sae.SaeCommitted? || (s.lastAssoc.Some? && now < s.lastAssoc.value + BACKOFF) {
        stations := stations[sta := s];
        return [];
      }
      var t, refused := Authorize(sta, s.(lastAssoc := Some(now)), q, now);
      if refused.Some? {
        stations := stations[sta := t];
        return [Answer(sta, Rejected(refused.value))];
      }
      if t.awaitingM4 && t.pendingEapol.Some? {
        stations := stations[sta := t];
        return [Answer(sta, AssocOk), Sent(sta, t.pendingEapol.value)];
      }
      assert View() == a;
      out := BeginHandshake(sta, t, random, now);
    }

    method Refused(sta: Mac, q: AssocRequest) returns (status: Option<nat>)
      ensures status == Refusal(cfg, View(), sta, q)
    {
      if !q.rsnePresent {
        return Some(STATUS_INVALID_IE);
      }
      if q.negotiation.Failed? {
        return Some(q.negotiation.status);
      }
      if q.sae {
        var h2e := sta in stations && stations[sta].saeH2e;
        if (h2e && q.rsnxe != RsnxeH2e) || (!h2e && q.rsnxe == RsnxeInconsistent) {
          return Some(STATUS_INVALID_IE);
        }
      }
      if cfg.mld {
        if q.mld.MalformedMld? {
          return Some(STATUS_INVALID_IE);
        }
        if q.mld.Mld? {
          if sta in stations && stations[sta].mldMac.Some? && stations[sta].mldMac.value != q.mld.address {
            return Some(STATUS_UNSPECIFIED);
          }
          if !q.mld.linksValid {
            return Some(STATUS_UNSPECIFIED);
          }
        }
      }
      status := None;
    }

    lemma {:induction false} NegotiationSucceeded(sta: Mac, q: AssocRequest)
      requires Refusal(cfg, View(), sta, q).None?
      ensures q.negotiation.Suite?
    {
    }

    // ---- EAPOL ---------------------------------------------------------------------------------------------

    // Message 4 is tried against the retained candidates in order.
    method FindCandidate(s: Station, f: EapolKey) returns (selected: Option<PtkCandidate>)
      ensures selected == SelectCandidate(cfg, s, s.candidates, f)
    {
      var i := 0;
      while i < |s.candidates|
        invariant i <= |s.candidates|
        invariant SelectCandidate(cfg, s, s.candidates, f) == SelectCandidate(cfg, s, s.candidates[i..], f)
      {
        var c := s.candidates[i];
        assert s.candidates[i..][0] == c && s.candidates[i..][1..] == s.candidates[i + 1..];
        if c.m3Replay == f.body.replay && MicValid(StationMic(s), c.kck, f) && MldDataValid(cfg, s, f.body.data) {
          return Some(c);
        }
        i := i + 1;
      }
      selected := None;
    }

    // Message 2 is tried against the credentials in order.
    method FindPmk(sta: Mac, s: Station, f: EapolKey) returns (matched: Option<Pmk>)
      ensures matched == MatchingPmk(cfg, sta, s, Credentials(cfg, sta, s), f)
    {
      hide StationPtk, Credentials;
      var pmks := Credentials(cfg, sta, s);
      var i := 0;
      while i < |pmks|
        invariant i <= |pmks|
        invariant MatchingPmk(cfg, sta, s, pmks, f) == MatchingPmk(cfg, sta, s, pmks[i..], f)
      {
        assert pmks[i..][0] == pmks[i] && pmks[i..][1..] == pmks[i + 1..];
        if MicValid(StationMic(s), Kck(StationPtk(cfg, sta, s, pmks[i], f.body.nonce)), f) {
          return Some(pmks[i]);
        }
        i := i + 1;
      }
      matched := None;
    }

    // Whether an equal candidate is retained already.
    method AlreadyRetained(cs: seq<PtkCandidate>, c: PtkCandidate) returns (found: bool)
      ensures found == exists d :: d in cs && d.m3Replay == c.m3Replay && d.kck == c.kck
    {
      var i := 0;
      while i < |cs|
        invariant i <= |cs|
        invariant forall k :: 0 <= k < i ==> !(cs[k].m3Replay == c.m3Replay && cs[k].kck == c.kck)
      {
        if cs[i].m3Replay == c.m3Replay && cs[i].kck == c.kck {
          assert cs[i] in cs;
          return true;
        }
        i := i + 1;
      }
      found := false;
    }

    method RetainCandidate(cs: seq<PtkCandidate>, c: PtkCandidate) returns (kept: seq<PtkCandidate>)
      ensures kept == Retain(cs, c)
      ensures |cs| <= MAX_CANDIDATES ==> |kept| <= MAX_CANDIDATES
    {
      var found := AlreadyRetained(cs, c);
      kept := cs;
      if !found {
        if |kept| >= MAX_CANDIDATES {
          kept := kept[1..];
        }
        kept := kept + [c];
      }
    }

    method SendM3(sta: Mac, pmk: Pmk, snonce: Nonce) returns (out: seq<Out>)
      requires sta in stations
      modifies this`stations, this`pendingAnonce, this`replayCounter
      ensures Step(View(), out) == IssueM3(cfg, old(View()), sta, old(stations)[sta], pmk, snonce)
    {
      hide StationPtk, ThirdMessage, Retain, NextReplay;
      ghost var a := View();
      var s := stations[sta];
      var ptk := StationPtk(cfg, sta, s, pmk, snonce);
      var replay := s.eapolReplay;
      if !s.awaitingM4 {
        pendingAnonce := pendingAnonce - {sta};
        replay := NextEapolReplay();
      }
      var kept := RetainCandidate(s.candidates, PtkCandidate(replay, Kck(ptk), Kek(ptk), Tk(ptk)));
      ThirdMessageIgnores(a, View(), s, ptk, replay);
      var m3 := ThirdMessage(cfg, GroupView(), s, ptk, replay);
      ThirdMessageIgnores(GroupView(), View(), s, ptk, replay);
      stations := stations[sta := s.(pmk := Some(pmk), candidates := kept, eapolReady := false, eapolReplay := replay,
                                     awaitingM4 := true, pendingEapol := Some(m3))];
      out := [Retained(sta, ptk), Sent(sta, m3)];
      if cfg.btm && !s.pmf {
        out := out + [Answer(sta, BtmSteer)];
      } else {
        assert out == out + [];
      }
    }

    // The group state as a value.
    function GroupView(): State
      reads this
    {
      State(map[], map[], map[], 0, gtk, gtkKeyId, groupPn, igtk, igtkKeyId, igtkIpn, 0)
    }

    // Message 3 depends on the group state only.
    lemma {:induction false} ThirdMessageIgnores(a: State, b: State, s: Station, ptk: Ptk, replay: nat)
      requires a.gtk == b.gtk && a.gtkKeyId == b.gtkKeyId && a.groupPn == b.groupPn
      requires a.igtk == b.igtk && a.igtkKeyId == b.igtkKeyId && a.igtkIpn == b.igtkIpn
      ensures ThirdMessage(cfg, a, s, ptk, replay) == ThirdMessage(cfg, b, s, ptk, replay)
    {
    }

    method HandleM2(sta: Mac, f: EapolKey, rsnMatches: bool) returns (out: seq<Out>)
      requires sta in stations
      modifies this`stations, this`pendingAnonce, this`replayCounter
      ensures Step(View(), out) == A.HandleM2(cfg, old(View()), sta, old(stations)[sta], f, rsnMatches)
    {
      hide IssueM3, MatchingPmk, Credentials;
      var s, b := stations[sta], f.body;
      if (!s.eapolReady && !s.awaitingM4) || s.anonce.None? || b.replay != s.m1Replay {
        return [];
      }
      if b.info != Info2(Version(StationMic(s))) || b.keyLength != 0 {
        return [];
      }
      if (cfg.mode.Wpa3Sae? || cfg.mode.Owe?) && s.pmk.None? {
        return [];
      }
      var pmk := FindPmk(sta, s, f);
      if pmk.None? {
        if s.awaitingM4 {
          return [];
        }
        stations := stations - {sta};
        return [Answer(sta, Deauth(1))];
      }
      if !rsnMatches {
        return [];
      }
      if !M2OciAccepted(cfg, b.data) {
        stations := stations[sta := s.(pmk := pmk)];
        return [];
      }
      out := SendM3(sta, pmk.value, b.nonce);
    }

    method HandleM4(sta: Mac, f: EapolKey) returns (out: seq<Out>)
      requires sta in stations
      modifies this`stations, this`pendingAnonce
      ensures Step(View(), out) == A.HandleM4(cfg, old(View()), sta, old(stations)[sta], f)
    {
      hide SelectCandidate, CommitCandidate;
      var s := stations[sta];
      var c := FindCandidate(s, f);
      if c.None? {
        return [];
      }
      var sameTemporalKey := s.associated && s.tk == c.value.tk;
      var t := CommitSelected(s, c.value);
      stations := stations[sta := t];
      pendingAnonce := pendingAnonce - {sta};
      out := if sameTemporalKey then [] else [Installed(sta, c.value.tk)];
    }

    method CommitSelected(s: Station, c: PtkCandidate) returns (t: Station)
      ensures t == CommitCandidate(s, c)
    {
      var sameTemporalKey := s.associated && s.tk == c.tk;
      var pn, window, mgmt := s.clientPn, s.rxPn, s.rxMgmtPn;
      if !sameTemporalKey {
        pn, window, mgmt := 1, Uniform(0), 0;
      }
      t := s.(kck := c.kck, kek := c.kek, tk := c.tk, clientPn := pn, rxPn := window, rxMgmtPn := mgmt,
              candidates := [], associated := true, awaitingM4 := false, pendingEapol := None);
    }

    method HandleEapol(sta: Mac, f: EapolKey, rsnMatches: bool) returns (out: seq<Out>)
      modifies this`stations, this`pendingAnonce, this`replayCounter
      ensures Step(View(), out) == A.HandleEapol(cfg, old(View()), sta, f, rsnMatches)
    {
      hide A.HandleM2, A.HandleM4;
      if sta !in stations {
        return [];
      }
      var s, b := stations[sta], f.body;
      if s.groupRekeying && b.replay == s.eapolReplay {
        if b.info == InfoGroup2(Version(StationMic(s))) && b.keyLength == 0 && b.nonce == NO_NONCE && b.data == Empty
          && MicValid(StationMic(s), s.kck, f) {
          stations := stations[sta := s.(groupRekeying := false, pendingEapol := None)];
        }
        return [];
      }
      if s.awaitingM4 && b.info == Info4(Version(StationMic(s))) && b.keyLength == 0 && b.nonce == NO_NONCE {
        out := HandleM4(sta, f);
        return;
      }
      out := HandleM2(sta, f, rsnMatches);
    }

    // ---- protected reception -----------------------------------------------------------------------------------

    method HandleData(sta: Mac, d: UplinkFrame) returns (out: seq<Out>)
      modifies this`stations
      ensures Step(View(), out) == A.HandleData(old(View()), sta, d)
    {
      if d.aggregated || d.keyId != 0 {
        return [];
      }
      if sta !in stations {
        return [Answer(sta, Deauth(7))];
      }
      var s := stations[sta];
      if !s.associated || d.pn.None? || d.pn.value <= s.rxPn[d.slot] {
        return [];
      }
      if d.key != Pairwise(s.tk) || !d.sourceMatches {
        return [];
      }
      stations := stations[sta := s.(rxPn := s.rxPn[d.slot := d.pn.value])];
      out := [Accepted(sta, Data(s.tk, d.slot), d.pn.value), Delivered(d.octets)];
    }

    method ProtectedBody(sta: Mac, m: MgmtFrame) returns (ok: bool, out: seq<Out>)
      modifies this`stations
      ensures ok == MgmtOpens(old(View()), sta, m)
      ensures if ok then Step(View(), out) == AcceptMgmt(old(View()), sta, m) else View() == old(View()) && out == []
    {
      if !m.protected || sta !in stations || !stations[sta].associated || m.pn.None? {
        return false, [];
      }
      var s := stations[sta];
      if m.pn.value <= s.rxMgmtPn || m.key != Pairwise(s.tk) {
        return false, [];
      }
      stations := stations[sta := s.(rxMgmtPn := m.pn.value)];
      return true, [Accepted(sta, Management(s.tk), m.pn.value)];
    }

    method HandleDeauth(sta: Mac, m: MgmtFrame) returns (out: seq<Out>)
      modifies this`stations
      ensures Step(View(), out) == A.HandleDeauth(old(View()), sta, m)
    {
      if sta !in stations {
        return [];
      }
      if !stations[sta].pmf {
        stations := stations - {sta};
        return [];
      }
      ghost var before := stations;
      var ok;
      ok, out := ProtectedBody(sta, m);
      if ok {
        assert stations - {sta} == before - {sta};
        stations := stations - {sta};
      }
    }

    method HandleAction(sta: Mac, m: MgmtFrame) returns (out: seq<Out>)
      modifies this`stations
      ensures Step(View(), out) == A.HandleAction(old(View()), sta, m)
    {
      var ok;
      ok, out := ProtectedBody(sta, m);
      if !ok {
        return;
      }
      if m.content.SaQueryResponse? {
        var s := stations[sta];
        if s.saQuery.Some? && s.saQuery.value.id == m.content.id {
          stations := stations[sta := s.(saQuery := None)];
        }
      } else if m.content.SaQueryRequest? {
        var reply := ProtectedFrame(sta, SaQueryResponse(m.content.id));
        out := out + reply;
      }
    }

    // ---- group rekey -----------------------------------------------------------------------------------------------

    method RekeyOne(t: Target) returns (out: seq<Out>)
      modifies this`stations, this`replayCounter
      ensures Step(View(), out) == RekeyStation(cfg, old(View()), t)
    {
      hide NextReplay;
      if t.sta !in stations || !stations[t.sta].associated || stations[t.sta].groupRekeying {
        return [];
      }
      ghost var a := View();
      var s := stations[t.sta];
      if cfg.perStation {
        s := s.(gtk := t.gtk, gtkKeyId := Toggle(s.gtkKeyId, 1, 2), gtkRsc := 0,
                igtk := t.igtk, igtkKeyId := Toggle(s.igtkKeyId, 4, 5), igtkIpn := 0);
      }
      var replay := NextEapolReplay();
      var (keys, rsc) := GroupDelivery(cfg, GroupView(), s, false);
      assert (keys, rsc) == GroupDelivery(cfg, a, s, false);
      var m1 := GroupMessage1(StationMic(s), s.kck, s.kek, replay, rsc, keys);
      hide GroupDelivery, GroupMessage1;
      stations := stations[t.sta := s.(eapolReplay := replay, pendingEapol := Some(m1), groupRekeying := true)];
      out := [Sent(t.sta, m1)];
    }

    method RekeyAll(ts: seq<Target>) returns (out: seq<Out>)
      modifies this`stations, this`replayCounter
      ensures Step(View(), out) == RekeyStations(cfg, old(View()), ts)
    {
      hide RekeyStation;
      out := [];
      ghost var a := View();
      var i := 0;
      while i < |ts|
        invariant i <= |ts|
        invariant unchanged(this`pendingAnonce, this`pmksa, this`gtk, this`gtkKeyId, this`groupPn, this`igtk,
                            this`igtkKeyId, this`igtkIpn, this`saQueryId)
        invariant RekeyStations(cfg, a, ts)
                  == (var rest := RekeyStations(cfg, View(), ts[i..]); Step(rest.s, out + rest.out))
      {
        ghost var v := View();
        assert ts[i..][0] == ts[i] && ts[i..][1..] == ts[i + 1..];
        var more := RekeyOne(ts[i]);
        assert out + (more + RekeyStations(cfg, View(), ts[i + 1..]).out)
            == out + more + RekeyStations(cfg, View(), ts[i + 1..]).out;
        out := out + more;
        i := i + 1;
      }
    }

    method RekeyGtk(newGtk: GroupKey, newIgtk: GroupKey, ts: seq<Target>) returns (out: seq<Out>)
      modifies this
      ensures Step(View(), out) == Rekey(cfg, old(View()), newGtk, newIgtk, ts)
    {
      hide RekeyStations;
      if exists m :: m in stations && stations[m].groupRekeying {
        return [];
      }
      gtk, groupPn := newGtk, 1;
      if !cfg.perStation {
        gtkKeyId := Toggle(gtkKeyId, 1, 2);
      }
      igtk, igtkKeyId, igtkIpn := newIgtk, Toggle(igtkKeyId, 4, 5), 0;
      out := RekeyAll(ts);
    }

    // ---- timers -----------------------------------------------------------------------------------------------------

    method NoteAssocNotAcked(sta: Mac)
      modifies this`stations
      ensures View() == AssocNotAcked(old(View()), sta)
    {
      if sta in stations {
        var s := stations[sta];
        var t := s.(pendingEapol := None, eapolReady := false, awaitingM4 := false, candidates := []);
        if !s.associated {
          t := t.(kck := Zero, kek := Zero, tk := Zero);
        }
        stations := stations[sta := t];
      }
    }

    method RunMaintenance(now: nat)
      modifies this`stations, this`pendingAnonce
      ensures View() == Maintain(old(View()), now)
    {
      pendingAnonce := DropExpired(pendingAnonce, now);
      var silent := set m | m in stations && QueryExpired(stations[m], now);
      stations := stations - silent;
    }

    // ---- SAE results, retransmission and the host -----------------------------------------------------------------

    method SaeCommitDone(sta: Mac, pmk: Pmk, h2e: bool, peerMld: Option<Mac>, newGtk: GroupKey, newIgtk: GroupKey)
      modifies this`stations
      ensures View() == SaeCommitFinished(old(View()), sta, pmk, h2e, peerMld, newGtk, newIgtk)
    {
      var s := if sta in stations then stations[sta] else NewStation(newGtk, newIgtk);
      s := s.(sae := SaeCommitted(pmk), pmk := Some(pmk), saeH2e := h2e, sha256 := true, pskSha256 := false, pmf := true);
      if peerMld.Some? {
        s := s.(mldMac := peerMld);
      }
      stations := stations[sta := s];
    }

    // A verified confirm also fills the PMKSA cache.
    method SaeConfirmDone(sta: Mac, pmkid: nat, expires: nat)
      modifies this`stations, this`pmksa
      ensures View() == SaeConfirmFinished(old(View()), sta, pmkid, expires)
    {
      if sta in stations && !stations[sta].sae.NoSae? {
        var s := stations[sta];
        var key := s.sae.pmk;
        stations := stations[sta := s.(sae := SaeConfirmed(key))];
        pmksa := pmksa[(pmkid, s.mldMac.GetOr(sta)) := Pmksa(key, true, expires)];
      }
    }

    method RetransmitPending(sta: Mac) returns (out: seq<Out>)
      ensures Step(View(), out) == Retransmit(View(), sta)
    {
      if sta in stations && stations[sta].pendingEapol.Some? {
        out := [Sent(sta, stations[sta].pendingEapol.value)];
      } else {
        out := [];
      }
    }

    method Drop(sta: Mac)
      modifies this`stations
      ensures View() == Disconnect(old(View()), sta)
    {
      stations := stations - {sta};
    }

    // ---- every event, and runs of them ------------------------------------------------------------------------------

    method Handle(e: Event) returns (out: seq<Out>)
      modifies this
      ensures Step(View(), out) == A.Handle(cfg, old(View()), e)
    {
      hide A.HandleAuth, A.HandleAssoc, A.HandleEapol, A.HandleData, A.HandleDeauth, A.HandleAction, SealNext, SealGroup, Rekey,
           AssocNotAcked, Maintain, Retransmit, Disconnect, SaeCommitFinished, SaeConfirmFinished;
      out := [];
      match e {
        case AuthReceived(sta, sae, now, newGtk, newIgtk) => out := HandleAuth(sta, sae, now, newGtk, newIgtk);
        case SaeCommitDone(sta, pmk, h2e, mld, newGtk, newIgtk) => SaeCommitDone(sta, pmk, h2e, mld, newGtk, newIgtk);
        case SaeConfirmDone(sta, pmkid, expires) => SaeConfirmDone(sta, pmkid, expires);
        case AssocReceived(sta, q, now, random, newGtk, newIgtk) => out := HandleAssoc(sta, q, now, random, newGtk, newIgtk);
        case EapolReceived(sta, f, rsnMatches) => out := HandleEapol(sta, f, rsnMatches);
        case DataReceived(sta, d) => out := HandleData(sta, d);
        case MgmtReceived(sta, m) =>
          if m.action {
            out := HandleAction(sta, m);
          } else {
            out := HandleDeauth(sta, m);
          }
        case ToStation(sta, c) => out := ProtectedFrame(sta, c);
        case ToGroup(octets) => out := GroupFrame(octets);
        case RekeyTimer(newGtk, newIgtk, ts) => out := RekeyGtk(newGtk, newIgtk, ts);
        case NotAcked(sta) => NoteAssocNotAcked(sta);
        case Maintenance(now) => RunMaintenance(now);
        case RetryTimer(sta) => out := RetransmitPending(sta);
        case Dropped(sta) => Drop(sta);
      }
    }

    // One event after another. The log is that of the specification's run; from the start, and
    // with fresh nonces and group keys, the numbers of every station and of the group climb; and
    // from any state every stream of a station climbs while its key stays installed.
    method Run(es: seq<Event>) returns (log: seq<Out>)
      modifies this
      ensures Step(View(), log) == RunFrom(cfg, old(View()), es)
      ensures FromStart(old(View()), es) ==> AllInOrder(log)
      ensures StreamsClimb(cfg, old(View()), es, View(), log)
    {
      log := [];
      assert es[..0] == [];
      hide A.Handle;
      for i := 0 to |es|
        invariant Step(View(), log) == RunFrom(cfg, old(View()), es[..i])
      {
        assert es[..i + 1][..i] == es[..i];
        var out := Handle(es[i]);
        log := log + out;
      }
      assert es[..|es|] == es;
      RunPromises(cfg, old(View()), es);
    }
  }

  predicate FromStart(a: State, es: seq<Event>) {
    a == Initial(a.replayCounter, a.gtk, a.igtk) && FreshRandom(a.gtk, es)
  }

  ghost predicate AllInOrder(log: seq<Out>) {
    GroupSealedInOrder(log) && forall m: Mac :: SealedInOrder(m, log) && AcceptedInOrder(m, log)
  }

  ghost predicate StreamsClimb(cfg: Config, a: State, es: seq<Event>, b: State, log: seq<Out>) {
    forall m: Mac, x: Stream :: StaysInstalled(cfg, m, a, es, x) ==>
      LevelOf(At(a, m), x).Some? && LevelOf(At(b, m), x).Some?
      && Climbs(LevelOf(At(a, m), x).value, Numbers(m, log, x), LevelOf(At(b, m), x).value)
  }

  lemma {:induction false} RunPromises(cfg: Config, a: State, es: seq<Event>)
    ensures var r := RunFrom(cfg, a, es);
            (FromStart(a, es) ==> AllInOrder(r.out)) && StreamsClimb(cfg, a, es, r.s, r.out)
  {
    hide SealedInOrder, AcceptedInOrder, GroupSealedInOrder, FreshRandom, Climbs, Numbers, RunFrom, Initial;
    var r := RunFrom(cfg, a, es);
    if FromStart(a, es) {
      NoGroupPacketNumberTwice(cfg, a.replayCounter, a.gtk, a.igtk, es);
      forall m: Mac ensures SealedInOrder(m, r.out) && AcceptedInOrder(m, r.out) {
        NoPacketNumberTwice(cfg, m, a.replayCounter, a.gtk, a.igtk, es);
      }
    }
    forall m: Mac, x: Stream | StaysInstalled(cfg, m, a, es, x)
      ensures LevelOf(At(a, m), x).Some? && LevelOf(At(r.s, m), x).Some?
      ensures Climbs(LevelOf(At(a, m), x).value, Numbers(m, r.out, x), LevelOf(At(r.s, m), x).value)
    {
      NumbersClimb(cfg, m, a, es, x);
    }
  }
}
