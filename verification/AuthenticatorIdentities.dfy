/**
 Packet numbers over the whole transmission log, Multi-Link identities included. The
 authenticator does not keep MLD addresses unique across stations; where the stations do,
 each claiming its own, no two of them are ever sent one packet number under one key.
 */
module AuthenticatorIdentities {
  import opened Common
  import opened Symbols
  import opened Authenticator
  import opened AuthenticatorRuns

  // To whom the addresses belong: `own` are the access point's, and `owner` gives for every
  // other address, link or MLD, the link address of the station that claims it.
  datatype Claims = Claims(own: set<Mac>, owner: Mac -> Mac)

  predicate Claimed(k: Claims, address: Mac, m: Mac) {
    address !in k.own && k.owner(address) == m
  }

  // No event claims an address for a second station.
  predicate Exclusive(k: Claims, e: Event) {
    && (EventStation(e).Some? ==> Claimed(k, EventStation(e).value, EventStation(e).value))
    && (e.SaeCommitDone? && e.peerMld.Some? ==> Claimed(k, e.peerMld.value, e.sta))
    && (e.AssocReceived? ==> e.request.linkMac in k.own && (e.request.mld.Mld? ==> Claimed(k, e.request.mld.address, e.sta)))
  }

  predicate OwnAddresses(cfg: Config, k: Claims) {
    cfg.mac in k.own && cfg.mldMac in k.own
  }

  // A key between the access point and an address of m.
  predicate Between(k: Claims, m: Mac, p: Ptk) {
    (p.addressLow in k.own && Claimed(k, p.addressHigh, m)) || (p.addressHigh in k.own && Claimed(k, p.addressLow, m))
  }

  lemma {:induction false} BetweenIsUnique(k: Claims, m: Mac, n: Mac, p: Ptk)
    requires Between(k, m, p) && Between(k, n, p)
    ensures m == n
  {
  }

  // ---- the invariant of one address ------------------------------------------------------------

  ghost predicate IdentityInv(k: Claims, m: Mac, s: Station) {
    && (s.mldMac.Some? ==> Claimed(k, s.mldMac.value, m))
    && (s.linkMac.Some? ==> s.linkMac.value in k.own)
    && forall c :: c in s.candidates ==> c.tk.Tk? && Between(k, m, c.tk.ptk)
  }

  ghost predicate StationsInv(k: Claims, m: Mac, a: State) {
    m in a.stations ==> IdentityInv(k, m, a.stations[m]) && Claimed(k, m, m)
  }

  ghost predicate InstalledInv(k: Claims, m: Mac, out: seq<Out>) {
    && (forall o :: o in out && o.Installed? && o.at == m ==> o.key.Tk? && Between(k, m, o.key.ptk))
    && (forall o :: o in out && o.Retained? && o.at == m ==> Between(k, m, o.ptk))
  }

  // A step that leaves the identity and adds no candidate.
  predicate SameIdentity(s: Station, t: Station) {
    t.mldMac == s.mldMac && t.linkMac == s.linkMac && (t.candidates == s.candidates || t.candidates == [])
  }

  predicate NoNewKeys(out: seq<Out>) {
    forall o :: o in out ==> !o.Installed? && !o.Retained?
  }

  predicate Tame(m: Mac, a: State, r: Step) {
    && NoNewKeys(r.out)
    && (m in r.s.stations ==> m in a.stations && SameIdentity(a.stations[m], r.s.stations[m]))
  }

  lemma {:induction false} TameKeeps(k: Claims, m: Mac, a: State, r: Step)
    requires StationsInv(k, m, a) && Tame(m, a, r)
    ensures StationsInv(k, m, r.s) && InstalledInv(k, m, r.out)
  {
  }

  lemma {:induction false} FreshRecord(k: Claims, m: Mac, a: State, gtk: GroupKey, igtk: GroupKey)
    requires StationsInv(k, m, a)
    ensures IdentityInv(k, m, Record(a, m, gtk, igtk))
  {
  }

  // ---- the handlers -------------------------------------------------------------------------------

  lemma {:induction false} TrafficTame(m: Mac, a: State, c: Content, now: nat, d: UplinkFrame)
    ensures Tame(m, a, SealNext(a, m, c)) && Tame(m, a, SaQueryChallenge(a, m, now)) && Tame(m, a, HandleData(a, m, d))
  {
  }

  lemma {:induction false} MgmtTame(m: Mac, a: State, f: MgmtFrame)
    ensures Tame(m, a, HandleAction(a, m, f)) && Tame(m, a, HandleDeauth(a, m, f))
  {
    if MgmtOpens(a, m, f) && f.content.SaQueryRequest? {
      TrafficTame(m, AcceptMgmt(a, m, f).s, SaQueryResponse(f.content.id), 0, UplinkFrame(true, 0, None, 0, Unknown, 0, false));
      hide SealNext;
    }
  }

  lemma {:induction false} AuthKeepsIdentity(k: Claims, m: Mac, a: State, sae: bool, now: nat, gtk: GroupKey, igtk: GroupKey)
    requires StationsInv(k, m, a) && Claimed(k, m, m)
    ensures var r := HandleAuth(a, m, sae, now, gtk, igtk); StationsInv(k, m, r.s) && InstalledInv(k, m, r.out)
  {
    hide SaQueryChallenge, NewStation, Between;
    TrafficTame(m, a, SaQueryRequest(0), now, UplinkFrame(true, 0, None, 0, Unknown, 0, false));
    TameKeeps(k, m, a, SaQueryChallenge(a, m, now));
    FreshRecord(k, m, a, gtk, igtk);
  }

  lemma {:induction false} SaeKeepsIdentity(cfg: Config, k: Claims, m: Mac, a: State, e: Event)
    requires StationsInv(k, m, a) && Exclusive(k, e) && (e.SaeCommitDone? || e.SaeConfirmDone?) && e.sta == m
    ensures var r := Handle(cfg, a, e); StationsInv(k, m, r.s) && InstalledInv(k, m, r.out)
  {
    hide NewStation, Between;
    if e.SaeCommitDone? {
      FreshRecord(k, m, a, e.gtk, e.igtk);
    }
  }

  lemma {:induction false} NegotiatedIdentity(cfg: Config, k: Claims, m: Mac, s: Station, q: AssocRequest)
    requires IdentityInv(k, m, s) && q.negotiation.Suite?
    requires q.linkMac in k.own && (q.mld.Mld? ==> Claimed(k, q.mld.address, m))
    ensures IdentityInv(k, m, Negotiated(cfg, s, q))
  {
    hide SelectsPskSha256, Between, Claimed;
  }

  lemma {:induction false} CredentialsIdentity(s: Station, cached: Option<Pmksa>, pmk: Option<Pmk>)
    ensures SameIdentity(s, WithPmksa(s, cached)) && SameIdentity(s, WithOwe(s, pmk))
  {
  }

  lemma {:induction false} AuthorizedIdentity(cfg: Config, a: State, sta: Mac, s: Station, q: AssocRequest, now: nat)
    ensures SameIdentity(s, Authorized(cfg, a, sta, s, q, now).0)
  {
    hide CachedPmksa, WithPmksa, WithOwe;
    var cached := CachedPmksa(a.pmksa, q.pmkids, s.mldMac.GetOr(sta), now);
    CredentialsIdentity(s, cached, None);
    if q.dh.Dh? {
      CredentialsIdentity(WithPmksa(s, cached), None, q.dh.pmk);
    }
  }

  lemma {:induction false} StartTame(cfg: Config, m: Mac, a: State, s: Station, random: Nonce, now: nat)
    ensures var r := StartHandshake(cfg, a, m, s, random, now);
            NoNewKeys(r.out) && m in r.s.stations && SameIdentity(s, r.s.stations[m])
  {
    hide FirstMessage, ChooseAnonce;
  }

  // The identity that a request which reaches negotiation leaves behind.
  lemma {:induction false} AssocIdentity(cfg: Config, k: Claims, m: Mac, a: State, q: AssocRequest, now: nat, random: Nonce,
                                         gtk: GroupKey, igtk: GroupKey)
    requires IdentityInv(k, m, Record(a, m, gtk, igtk)) && q.linkMac in k.own && (q.mld.Mld? ==> Claimed(k, q.mld.address, m))
    requires !q.reloading && !PmfProtected(a, m) && Refusal(cfg, a, m, q).None?
    ensures var r := HandleAssoc(cfg, a, m, q, now, random, gtk, igtk);
            NoNewKeys(r.out) && m in r.s.stations && IdentityInv(k, m, r.s.stations[m])
  {
    hide NewStation, Negotiated, Authorized, StartHandshake, Recent, IdentityInv, Claimed;
    var s := Record(a, m, gtk, igtk);
    NegotiatedIdentity(cfg, k, m, s, q);
    var s1 := Negotiated(cfg, s, q).(lastAssoc := Some(now));
    TouchedIdentity(k, m, Negotiated(cfg, s, q), now);
    var t := Authorized(cfg, a, m, s1, q, now).0;
    AuthorizedIdentity(cfg, a, m, s1, q, now);
    StartTame(cfg, m, a, t, random, now);
    SameIdentityKeeps(k, m, s1, t);
    SameIdentityKeeps(k, m, t, StartHandshake(cfg, a, m, t, random, now).s.stations[m]);
  }

  lemma {:induction false} TouchedIdentity(k: Claims, m: Mac, s: Station, now: nat)
    requires IdentityInv(k, m, s)
    ensures IdentityInv(k, m, s.(lastAssoc := Some(now)))
  {
  }

  lemma {:induction false} SameIdentityKeeps(k: Claims, m: Mac, s: Station, t: Station)
    requires IdentityInv(k, m, s) && SameIdentity(s, t)
    ensures IdentityInv(k, m, t)
  {
  }

  lemma {:induction false} AssocKeepsIdentity(cfg: Config, k: Claims, m: Mac, a: State, q: AssocRequest, now: nat, random: Nonce,
                                              gtk: GroupKey, igtk: GroupKey)
    requires StationsInv(k, m, a) && Claimed(k, m, m) && q.linkMac in k.own && (q.mld.Mld? ==> Claimed(k, q.mld.address, m))
    ensures var r := HandleAssoc(cfg, a, m, q, now, random, gtk, igtk); StationsInv(k, m, r.s) && InstalledInv(k, m, r.out)
  {
    if !q.reloading && !PmfProtected(a, m) && Refusal(cfg, a, m, q).None? {
      hide HandleAssoc, IdentityInv;
      FreshRecord(k, m, a, gtk, igtk);
      AssocIdentity(cfg, k, m, a, q, now, random, gtk, igtk);
    } else {
      hide SaQueryChallenge, IdentityInv, Negotiated, Authorized, StartHandshake;
      TrafficTame(m, a, SaQueryRequest(0), now, UplinkFrame(true, 0, None, 0, Unknown, 0, false));
      TameKeeps(k, m, a, SaQueryChallenge(a, m, now));
    }
  }

  lemma {:induction false} DerivedBetween(cfg: Config, k: Claims, m: Mac, s: Station, pmk: Pmk, snonce: Nonce)
    requires OwnAddresses(cfg, k) && IdentityInv(k, m, s) && Claimed(k, m, m)
    ensures Between(k, m, StationPtk(cfg, m, s, pmk, snonce))
  {
  }

  lemma {:induction false} IssueM3KeepsIdentity(cfg: Config, k: Claims, m: Mac, a: State, pmk: Pmk, snonce: Nonce)
    requires OwnAddresses(cfg, k) && StationsInv(k, m, a) && m in a.stations
    ensures var r := IssueM3(cfg, a, m, a.stations[m], pmk, snonce); StationsInv(k, m, r.s) && InstalledInv(k, m, r.out)
  {
    hide StationPtk, ThirdMessage, NextReplay, Between, Claimed;
    DerivedBetween(cfg, k, m, a.stations[m], pmk, snonce);
  }

  lemma {:induction false} M2KeepsIdentity(cfg: Config, k: Claims, m: Mac, a: State, f: EapolKey, rsnMatches: bool)
    requires OwnAddresses(cfg, k) && StationsInv(k, m, a) && m in a.stations
    ensures var r := HandleM2(cfg, a, m, a.stations[m], f, rsnMatches); StationsInv(k, m, r.s) && InstalledInv(k, m, r.out)
  {
    hide IssueM3, MatchingPmk, Credentials, M2OciAccepted, M2Expected, Between, Claimed;
    var pmk := MatchingPmk(cfg, m, a.stations[m], Credentials(cfg, m, a.stations[m]), f);
    if pmk.Some? {
      IssueM3KeepsIdentity(cfg, k, m, a, pmk.value, f.body.nonce);
    }
  }

  lemma {:induction false} M4KeepsIdentity(cfg: Config, k: Claims, m: Mac, a: State, f: EapolKey)
    requires StationsInv(k, m, a) && m in a.stations
    ensures var r := HandleM4(cfg, a, m, a.stations[m], f); StationsInv(k, m, r.s) && InstalledInv(k, m, r.out)
  {
    hide SelectCandidate, Between, Claimed;
    SelectedIsRetained(cfg, a.stations[m], a.stations[m].candidates, f);
  }

  lemma {:induction false} EapolKeepsIdentity(cfg: Config, k: Claims, m: Mac, a: State, f: EapolKey, rsnMatches: bool)
    requires OwnAddresses(cfg, k) && StationsInv(k, m, a)
    ensures var r := HandleEapol(cfg, a, m, f, rsnMatches); StationsInv(k, m, r.s) && InstalledInv(k, m, r.out)
  {
    hide HandleM2, HandleM4, Between, Claimed;
    if m in a.stations {
      M2KeepsIdentity(cfg, k, m, a, f, rsnMatches);
      M4KeepsIdentity(cfg, k, m, a, f);
    }
  }

  lemma {:induction false} RekeyTame(cfg: Config, m: Mac, a: State, ts: seq<Target>)
    ensures Tame(m, a, RekeyStations(cfg, a, ts))
    decreases |ts|
  {
    hide GroupDelivery, NextReplay;
    if ts != [] {
      var r := RekeyStation(cfg, a, ts[0]);
      assert Tame(m, a, r);
      hide RekeyStation;
      RekeyTame(cfg, m, r.s, ts[1..]);
    }
  }

  lemma {:induction false} OthersTame(cfg: Config, m: Mac, a: State, e: Event)
    requires e.NotAcked? || e.Maintenance? || e.RetryTimer? || e.Dropped? || e.ToGroup?
    requires EventStation(e).Some? ==> EventStation(e).value == m
    ensures Tame(m, a, Handle(cfg, a, e))
  {
  }

  predicate RetainsOnlyAt(sta: Mac, out: seq<Out>) {
    forall o :: o in out && o.Retained? ==> o.at == sta
  }

  lemma {:induction false} EapolRetains(cfg: Config, a: State, sta: Mac, f: EapolKey, rsnMatches: bool)
    ensures RetainsOnlyAt(sta, HandleEapol(cfg, a, sta, f, rsnMatches).out)
  {
    hide StationPtk, ThirdMessage, Retain, MatchingPmk, M2Expected, NextReplay, Credentials, M2OciAccepted, SelectCandidate,
         CommitCandidate, HandleGroup2;
  }

  // A candidate is retained for the station whose message 2 it is.
  lemma {:induction false} HandleRetains(cfg: Config, a: State, e: Event, sta: Mac)
    requires EventStation(e) == Some(sta)
    ensures RetainsOnlyAt(sta, Handle(cfg, a, e).out)
  {
    hide HandleEapol, SealNext, FirstMessage, ChooseAnonce, Negotiated, Authorized, Refusal, NewStation;
    if e.EapolReceived? {
      EapolRetains(cfg, a, sta, e.frame, e.rsnMatches);
    } else if e.MgmtReceived? {
      MgmtTame(sta, a, e.mgmt);
      hide HandleAction, HandleDeauth;
    } else {
      TrafficTame(sta, a, if e.ToStation? then e.content else OtherAction, if e.AuthReceived? || e.AssocReceived? then e.now else 0,
                  if e.DataReceived? then e.data else UplinkFrame(true, 0, None, 0, Unknown, 0, false));
      hide SaQueryChallenge, HandleData;
    }
  }

  lemma {:induction false} ElsewhereKeepsIdentity(k: Claims, m: Mac, a: State, r: Step, sta: Mac)
    requires StationsInv(k, m, a) && Elsewhere(m, a, r) && RetainsOnlyAt(sta, r.out) && sta != m
    ensures StationsInv(k, m, r.s) && InstalledInv(k, m, r.out)
  {
    hide IdentityInv;
    assert At(r.s, m) == At(a, m);
  }

  lemma {:induction false} HandleKeepsIdentity(cfg: Config, k: Claims, m: Mac, a: State, e: Event)
    requires OwnAddresses(cfg, k) && StationsInv(k, m, a) && Exclusive(k, e)
    ensures var r := Handle(cfg, a, e); StationsInv(k, m, r.s) && InstalledInv(k, m, r.out)
  {
    hide HandleAuth, HandleAssoc, HandleEapol, HandleData, HandleDeauth, HandleAction, SealNext, RekeyStations, SaeCommitFinished,
         SaeConfirmFinished, Maintain, AssocNotAcked, Retransmit, Elsewhere, Tame, StationsInv, InstalledInv, OwnAddresses, Claimed;
    var r := Handle(cfg, a, e);
    if EventStation(e).Some? && EventStation(e).value != m {
      HandleElsewhere(cfg, m, a, e);
      HandleRetains(cfg, a, e, EventStation(e).value);
      ElsewhereKeepsIdentity(k, m, a, r, EventStation(e).value);
    } else {
      match e {
        case AuthReceived(_, sae, now, gtk, igtk) => AuthKeepsIdentity(k, m, a, sae, now, gtk, igtk);
        case SaeCommitDone(_, _, _, _, _, _) => SaeKeepsIdentity(cfg, k, m, a, e);
        case SaeConfirmDone(_, _, _) => SaeKeepsIdentity(cfg, k, m, a, e);
        case AssocReceived(_, q, now, random, gtk, igtk) => AssocKeepsIdentity(cfg, k, m, a, q, now, random, gtk, igtk);
        case EapolReceived(_, f, rsnMatches) => EapolKeepsIdentity(cfg, k, m, a, f, rsnMatches);
        case DataReceived(_, d) =>
          TrafficTame(m, a, SaQueryRequest(0), 0, d);
          TameKeeps(k, m, a, r);
        case MgmtReceived(_, f) =>
          MgmtTame(m, a, f);
          TameKeeps(k, m, a, r);
        case ToStation(_, c) =>
          TrafficTame(m, a, c, 0, UplinkFrame(true, 0, None, 0, Unknown, 0, false));
          TameKeeps(k, m, a, r);
        case RekeyTimer(gtk, igtk, ts) =>
          RekeyIsTame(cfg, m, a, gtk, igtk, ts);
          TameKeeps(k, m, a, r);
        case _ =>
          OthersTame(cfg, m, a, e);
          TameKeeps(k, m, a, r);
      }
    }
  }

  lemma {:induction false} RekeyIsTame(cfg: Config, m: Mac, a: State, gtk: GroupKey, igtk: GroupKey, ts: seq<Target>)
    ensures Tame(m, a, Rekey(cfg, a, gtk, igtk, ts))
  {
    hide RekeyStations;
    RekeyTame(cfg, m, RotateGroup(cfg, a, gtk, igtk), ts);
  }

  // ---- every run -----------------------------------------------------------------------------------------

  lemma {:induction false} RunKeepsIdentity(cfg: Config, k: Claims, m: Mac, replay: nat, gtk: GroupKey, igtk: GroupKey, es: seq<Event>)
    requires OwnAddresses(cfg, k) && forall e :: e in es ==> Exclusive(k, e)
    ensures var r := RunFrom(cfg, Initial(replay, gtk, igtk), es); StationsInv(k, m, r.s) && InstalledInv(k, m, r.out)
  {
    if es != [] {
      var front := es[..|es| - 1];
      assert forall e :: e in front ==> e in es;
      RunKeepsIdentity(cfg, k, m, replay, gtk, igtk, front);
      hide Handle, StationsInv, OwnAddresses, Exclusive, Between;
      HandleKeepsIdentity(cfg, k, m, RunFrom(cfg, Initial(replay, gtk, igtk), front).s, es[|es| - 1]);
    }
  }

  // Where no address is claimed for two stations, no two frames leave under one temporal key
  // with one packet number, whatever stations they are for: under each key the numbers climb
  // over the whole log.
  lemma {:induction false} NoPacketNumberTwiceWithMlds(
    cfg: Config, k: Claims, replay: nat, gtk: GroupKey, igtk: GroupKey, es: seq<Event>, i: nat, j: nat)
    requires FreshRandom(gtk, es) && OwnAddresses(cfg, k) && forall e :: e in es ==> Exclusive(k, e)
    requires var log := RunFrom(cfg, Initial(replay, gtk, igtk), es).out;
             i < j < |log| && log[i].Sealed? && log[j].Sealed? && log[i].tk == log[j].tk
    ensures var log := RunFrom(cfg, Initial(replay, gtk, igtk), es).out;
            log[i].to == log[j].to && log[i].pn < log[j].pn
  {
    var log := RunFrom(cfg, Initial(replay, gtk, igtk), es).out;
    var m, n := log[i].to, log[j].to;
    RunKeeps(cfg, m, replay, gtk, igtk, es);
    RunKeeps(cfg, n, replay, gtk, igtk, es);
    RunKeepsIdentity(cfg, k, m, replay, gtk, igtk, es);
    RunKeepsIdentity(cfg, k, n, replay, gtk, igtk, es);
    hide RunFrom, StationInv, HeldInv, SealedInOrder, AcceptedInOrder, Between, StationsInv;
    assert log[i] in log && log[j] in log;
    assert Installed(m, log[i].tk) in log && Installed(n, log[i].tk) in log;
    BetweenIsUnique(k, m, n, log[i].tk.ptk);
    NoPacketNumberTwice(cfg, m, replay, gtk, igtk, es);
    assert SealedInOrder(m, log);
    InOrderAt(m, log, i, j);
  }

  lemma {:induction false} InOrderAt(m: Mac, log: seq<Out>, i: nat, j: nat)
    requires SealedInOrder(m, log) && i < j < |log| && log[i].Sealed? && log[j].Sealed?
    requires log[i].to == m == log[j].to && log[i].tk == log[j].tk
    ensures log[i].pn < log[j].pn
  {
  }
}
