/**
 The lazy deadline and the authenticator together. The tables that the deadline is about are
 the authenticator's: its stations with their associations, SAE exchanges and SA Queries, and
 its held ANonces. So while the deadline is true, maintenance that waits for it does to the
 authenticator what maintenance at every tick would do.
 */
module LazyMaintenance {
  import opened Common
  import opened Symbols
  import A = Authenticator
  import R = AuthenticatorRuns
  import M = Maintenance

  datatype World = World(a: A.State, s: M.State)

  datatype Event =
    | Happens(event: A.Event, now: nat)
    | Heard(sta: Mac, now: nat)
    | Tick(now: nat)

  function Kind(x: A.Sae): M.Sae {
    match x
    case NoSae => M.NoSae
    case SaeCommitted(_) => M.Incomplete
    case SaeConfirmed(_) => M.Confirmed
  }

  function Started(q: Option<A.SaQuery>): Option<nat> {
    if q.None? then None else Some(q.value.started)
  }

  predicate Matches(s: A.Station, t: M.Station) {
    t.associated == s.associated && t.pmf == s.pmf && t.sae == Kind(s.sae) && t.saQuery == Started(s.saQuery)
  }

  function HeldTimes(held: map<Mac, A.Held>): map<Mac, nat> {
    map m | m in held :: held[m].created
  }

  predicate TracksAt(s: Option<A.Station>, t: M.State, m: Mac) {
    (s.Some? <==> m in t.stations) && (s.Some? && m in t.stations ==> Matches(s.value, t.stations[m]))
  }

  ghost predicate Tracks(a: A.State, s: M.State) {
    s.held == HeldTimes(a.pendingAnonce) && forall m: Mac :: TracksAt(R.At(a, m), s, m)
  }

  // ---- what a handler tells the deadline --------------------------------------------------------

  predicate KeepsSession(s: A.Station, now: nat) {
    A.Recent(s.lastAuth, now) || (s.anonce.Some? && s.eapolReady && !s.awaitingM4)
  }

  function Contested(a: A.State, m: Mac, now: nat): seq<M.Event> {
    if A.SaQueryChallenge(a, m, now).out == [] then [] else [M.Challenge(m, now)]
  }

  predicate Associated(a: A.State, m: Mac) {
    m in a.stations && a.stations[m].associated
  }

  predicate Pmf(a: A.State, m: Mac) {
    m in a.stations && a.stations[m].pmf
  }

  predicate Queried(a: A.State, m: Mac) {
    m in a.stations && a.stations[m].saQuery.Some?
  }

  // The station's part of it.
  function Told(cfg: A.Config, a: A.State, e: A.Event, now: nat): seq<M.Event> {
    var b := A.Handle(cfg, a, e).s;
    match e
    case AuthReceived(m, sae, at, _, _) =>
      if A.PmfProtected(a, m) then Contested(a, m, at)
      else if sae || (m in a.stations && KeepsSession(a.stations[m], at)) then []
      else [M.OpenAuthReset(m, at)]
    case SaeCommitDone(m, _, _, _, _, _) => [M.CommitFinished(m, now)]
    case SaeConfirmDone(m, pmkid, _) => [M.ConfirmFinished(m, pmkid, now)]
    case AssocReceived(m, q, at, _, _, _) =>
      if q.reloading then []
      else if A.PmfProtected(a, m) then Contested(a, m, at)
      else if A.Refusal(cfg, a, m, q).Some? then []
      else [M.PmfNegotiated(m, Pmf(b, m), at)]
    case EapolReceived(m, _, _) =>
      if m in a.stations && m !in b.stations then [M.Disconnected(m, now)]
      else if !Associated(a, m) && Associated(b, m) then [M.FourWayDone(m, now)]
      else []
    case MgmtReceived(m, _) =>
      if m in a.stations && m !in b.stations then [M.Disconnected(m, now)]
      else if Queried(a, m) && !Queried(b, m) then [M.QueryAnswered(m, now)]
      else []
    case Dropped(m) => [M.Disconnected(m, now)]
    case _ => []
  }

  // And that of the held ANonces.
  function ToldHeld(cfg: A.Config, a: A.State, e: A.Event, now: nat): seq<M.Event> {
    if A.Handle(cfg, a, e).s.pendingAnonce == a.pendingAnonce then []
    else
      match e
      case AssocReceived(m, _, at, _, _, _) => [M.HoldAnonce(m, at)]
      case EapolReceived(m, _, _) => [M.ReleaseAnonce(m, now)]
      case _ => []
  }

  function Tell(s: M.State, es: seq<M.Event>): M.State
    decreases |es|
  {
    if es == [] then s else Tell(M.Handle(s, es[0]), es[1..])
  }

  lemma {:induction false} TellOne(s: M.State, es: seq<M.Event>)
    requires |es| <= 1
    ensures Tell(s, es) == if es == [] then s else M.Handle(s, es[0])
  {
    hide M.Handle;
  }

  // ---- one station's record --------------------------------------------------------------------------

  // The fields that maintenance reads.
  predicate Alike(s: A.Station, t: A.Station) {
    t.associated == s.associated && t.pmf == s.pmf && t.sae == s.sae && Started(t.saQuery) == Started(s.saQuery)
  }

  predicate AlikeAt(a: A.State, b: A.State, m: Mac) {
    (m in b.stations <==> m in a.stations) && (m in a.stations && m in b.stations ==> Alike(a.stations[m], b.stations[m]))
  }

  lemma {:induction false} AlikeTracks(a: A.State, b: A.State, s: M.State, m: Mac)
    requires TracksAt(R.At(a, m), s, m) && AlikeAt(a, b, m)
    ensures TracksAt(R.At(b, m), s, m)
  {
  }

  // What is told of one station leaves the others.
  lemma {:induction false} ActElsewhere(s: M.State, x: M.Event, n: Mac)
    requires !x.TimerTick? && !x.PmksaEvicted? && x.mac != n
    ensures var t := M.Handle(s, x); (n in t.stations <==> n in s.stations) && (n in s.stations ==> t.stations[n] == s.stations[n])
  {
  }

  lemma {:induction false} ActKeepsHeld(s: M.State, x: M.Event)
    requires !x.TimerTick? && !x.HoldAnonce? && !x.ReleaseAnonce?
    ensures M.Handle(s, x).held == s.held
  {
  }

  lemma {:induction false} SealAlike(a: A.State, m: Mac, c: Content)
    ensures AlikeAt(a, A.SealNext(a, m, c).s, m)
  {
  }

  lemma {:induction false} ContestedTracks(a: A.State, s: M.State, m: Mac, now: nat)
    requires TracksAt(R.At(a, m), s, m)
    ensures var r := A.SaQueryChallenge(a, m, now);
            TracksAt(R.At(r.s, m), Tell(s, Contested(a, m, now)), m) && r.s.pendingAnonce == a.pendingAnonce
  {
    TellOne(s, Contested(a, m, now));
  }

  lemma {:induction false} OpenAuthTracks(a: A.State, s: M.State, m: Mac, now: nat, gtk: GroupKey, igtk: GroupKey)
    requires TracksAt(R.At(a, m), s, m) && !A.PmfProtected(a, m)
    ensures var b := A.HandleAuth(a, m, false, now, gtk, igtk).s;
            var told := if m in a.stations && KeepsSession(a.stations[m], now) then [] else [M.OpenAuthReset(m, now)];
            TracksAt(R.At(b, m), Tell(s, told), m)
  {
    var told := if m in a.stations && KeepsSession(a.stations[m], now) then [] else [M.OpenAuthReset(m, now)];
    TellOne(s, told);
  }

  lemma {:induction false} AuthTracks(cfg: A.Config, a: A.State, s: M.State, e: A.Event, now: nat)
    requires e.AuthReceived? && TracksAt(R.At(a, e.sta), s, e.sta)
    ensures var b := A.Handle(cfg, a, e).s;
            TracksAt(R.At(b, e.sta), Tell(s, Told(cfg, a, e, now)), e.sta) && b.pendingAnonce == a.pendingAnonce
  {
    hide A.SaQueryChallenge, Contested, A.OpenAuth, KeepsSession, TracksAt, Tell, A.NewStation;
    ContestedTracks(a, s, e.sta, e.now);
    if !A.PmfProtected(a, e.sta) {
      if e.isSae {
        NothingTold(s);
      } else {
        OpenAuthTracks(a, s, e.sta, e.now, e.gtk, e.igtk);
      }
    }
  }

  lemma {:induction false} NothingTold(s: M.State)
    ensures Tell(s, []) == s
  {
  }

  lemma {:induction false} CommitTracks(a: A.State, s: M.State, m: Mac, pmk: Pmk, h2e: bool, mld: Option<Mac>, gtk: GroupKey, igtk: GroupKey, now: nat)
    requires TracksAt(R.At(a, m), s, m)
    ensures var b := A.SaeCommitFinished(a, m, pmk, h2e, mld, gtk, igtk);
            TracksAt(R.At(b, m), M.Handle(s, M.CommitFinished(m, now)), m) && b.pendingAnonce == a.pendingAnonce
  {
  }

  lemma {:induction false} ConfirmTracks(a: A.State, s: M.State, m: Mac, pmkid: nat, expires: nat, now: nat)
    requires TracksAt(R.At(a, m), s, m)
    ensures var b := A.SaeConfirmFinished(a, m, pmkid, expires);
            TracksAt(R.At(b, m), M.Handle(s, M.ConfirmFinished(m, pmkid, now)), m) && b.pendingAnonce == a.pendingAnonce
  {
  }

  lemma {:induction false} SaeTracks(cfg: A.Config, a: A.State, s: M.State, e: A.Event, now: nat)
    requires (e.SaeCommitDone? || e.SaeConfirmDone?) && TracksAt(R.At(a, e.sta), s, e.sta)
    ensures var b := A.Handle(cfg, a, e).s;
            TracksAt(R.At(b, e.sta), Tell(s, Told(cfg, a, e, now)), e.sta) && b.pendingAnonce == a.pendingAnonce
  {
    TellOne(s, Told(cfg, a, e, now));
    hide M.Handle, A.SaeCommitFinished, A.SaeConfirmFinished, TracksAt;
    if e.SaeCommitDone? {
      CommitTracks(a, s, e.sta, e.pmk, e.h2e, e.peerMld, e.gtk, e.igtk, now);
    } else {
      ConfirmTracks(a, s, e.sta, e.pmkid, e.expires, now);
    }
  }

  // ---- association ------------------------------------------------------------------------------------------

  predicate SameButPmf(s: A.Station, t: A.Station) {
    t.associated == s.associated && t.sae == s.sae && Started(t.saQuery) == Started(s.saQuery)
  }

  lemma {:induction false} NegotiatedSame(cfg: A.Config, s: A.Station, q: A.AssocRequest)
    requires q.negotiation.Suite?
    ensures SameButPmf(s, A.Negotiated(cfg, s, q))
  {
    hide A.SelectsPskSha256;
  }

  lemma {:induction false} CredentialsSame(s: A.Station, cached: Option<A.Pmksa>, pmk: Option<Pmk>)
    ensures SameButPmf(s, A.WithPmksa(s, cached)) && SameButPmf(s, A.WithOwe(s, pmk))
  {
  }

  lemma {:induction false} AuthorizedSame(cfg: A.Config, a: A.State, m: Mac, s: A.Station, q: A.AssocRequest, now: nat)
    ensures SameButPmf(s, A.Authorized(cfg, a, m, s, q, now).0)
  {
    hide A.CachedPmksa, A.WithPmksa, A.WithOwe;
    var cached := A.CachedPmksa(a.pmksa, q.pmkids, s.mldMac.GetOr(m), now);
    CredentialsSame(s, cached, None);
    if q.dh.Dh? {
      CredentialsSame(A.WithPmksa(s, cached), None, q.dh.pmk);
    }
  }

  // What a request that reaches negotiation does to the station and to the held ANonces.
  lemma {:induction false} NegotiationChanges(cfg: A.Config, a: A.State, m: Mac, q: A.AssocRequest, now: nat, random: Nonce,
                                              gtk: GroupKey, igtk: GroupKey)
    requires !q.reloading && !A.PmfProtected(a, m) && A.Refusal(cfg, a, m, q).None?
    ensures var b := A.HandleAssoc(cfg, a, m, q, now, random, gtk, igtk).s;
            && m in b.stations && SameButPmf(R.Record(a, m, gtk, igtk), b.stations[m])
            && (b.pendingAnonce == a.pendingAnonce
                || exists h: A.Held :: h.created == now && b.pendingAnonce == A.DropExpired(a.pendingAnonce, now)[m := h])
  {
    hide A.Negotiated, A.Authorized, A.Recent, A.FirstMessage, A.ChooseAnonce, A.NewStation, A.DropExpired;
    assert q.negotiation.Suite?;
    var s0 := R.Record(a, m, gtk, igtk);
    NegotiatedSame(cfg, s0, q);
    var s1 := A.Negotiated(cfg, s0, q).(lastAssoc := Some(now));
    AuthorizedSame(cfg, a, m, s1, q, now);
    var t := A.Authorized(cfg, a, m, s1, q, now).0;
    var b := A.HandleAssoc(cfg, a, m, q, now, random, gtk, igtk).s;
    if b.pendingAnonce != a.pendingAnonce {
      StartChanges(cfg, a, m, t, random, now);
    }
  }

  lemma {:induction false} StartChanges(cfg: A.Config, a: A.State, m: Mac, s: A.Station, random: Nonce, now: nat)
    ensures var b := A.StartHandshake(cfg, a, m, s, random, now).s;
            && m in b.pendingAnonce && b.pendingAnonce[m].created == now
            && b.pendingAnonce == A.DropExpired(a.pendingAnonce, now)[m := b.pendingAnonce[m]]
  {
    hide A.FirstMessage, A.ChooseAnonce, A.DropExpired;
  }

  lemma {:induction false} PmfTracks(s: M.State, before: Option<A.Station>, t: A.Station, m: Mac, gtk: GroupKey, igtk: GroupKey, now: nat)
    requires TracksAt(before, s, m) && SameButPmf(if before.Some? then before.value else A.NewStation(gtk, igtk), t)
    requires !M.Protected(s, m)
    ensures TracksAt(Some(t), M.Handle(s, M.PmfNegotiated(m, t.pmf, now)), m)
  {
  }

  lemma {:induction false} AssocTracks(cfg: A.Config, a: A.State, s: M.State, e: A.Event, now: nat)
    requires e.AssocReceived? && TracksAt(R.At(a, e.sta), s, e.sta)
    ensures var b := A.Handle(cfg, a, e).s; TracksAt(R.At(b, e.sta), Tell(s, Told(cfg, a, e, now)), e.sta)
  {
    var m, q := e.sta, e.request;
    var b := A.Handle(cfg, a, e).s;
    hide A.SaQueryChallenge, Contested, A.Refusal, Tell, A.NewStation;
    NothingTold(s);
    if !q.reloading && A.PmfProtected(a, m) {
      ContestedTracks(a, s, m, e.now);
      hide TracksAt;
    } else if !q.reloading && A.Refusal(cfg, a, m, q).None? {
      NegotiationChanges(cfg, a, m, q, e.now, e.random, e.gtk, e.igtk);
      hide A.HandleAssoc;
      TellOne(s, Told(cfg, a, e, now));
      PmfTracks(s, R.At(a, m), b.stations[m], m, e.gtk, e.igtk, e.now);
    }
  }

  // ---- EAPOL and management frames -------------------------------------------------------------------------

  lemma {:induction false} M2Changes(cfg: A.Config, a: A.State, m: Mac, f: EapolKey, rsnMatches: bool)
    requires m in a.stations
    ensures var b := A.HandleM2(cfg, a, m, a.stations[m], f, rsnMatches).s;
            && (m in b.stations ==> Alike(a.stations[m], b.stations[m]))
            && (b.pendingAnonce == a.pendingAnonce || b.pendingAnonce == a.pendingAnonce - {m})
  {
    hide A.StationPtk, A.ThirdMessage, A.Retain, A.MatchingPmk, A.M2Expected, A.NextReplay, A.Credentials, A.M2OciAccepted;
  }

  lemma {:induction false} CommitChanges(s: A.Station, c: A.PtkCandidate)
    ensures var t := A.CommitCandidate(s, c); t.associated && Alike(s.(associated := true), t)
  {
  }

  lemma {:induction false} M4Changes(cfg: A.Config, a: A.State, m: Mac, f: EapolKey)
    requires m in a.stations
    ensures var b := A.HandleM4(cfg, a, m, a.stations[m], f).s;
            && m in b.stations && Alike(a.stations[m].(associated := b.stations[m].associated), b.stations[m])
            && (a.stations[m].associated ==> b.stations[m].associated)
            && (b.pendingAnonce == a.pendingAnonce || b.pendingAnonce == a.pendingAnonce - {m})
  {
    hide A.SelectCandidate, A.CommitCandidate;
    var c := A.SelectCandidate(cfg, a.stations[m], a.stations[m].candidates, f);
    if c.Some? {
      CommitChanges(a.stations[m], c.value);
    }
  }

  lemma {:induction false} Group2Changes(a: A.State, m: Mac, f: EapolKey)
    requires m in a.stations
    ensures var b := A.HandleGroup2(a, m, a.stations[m], f);
            m in b.stations && Alike(a.stations[m], b.stations[m]) && b.pendingAnonce == a.pendingAnonce
  {
  }

  lemma {:induction false} EapolChanges(cfg: A.Config, a: A.State, m: Mac, f: EapolKey, rsnMatches: bool)
    ensures var b := A.HandleEapol(cfg, a, m, f, rsnMatches).s;
            && (m in b.stations ==> m in a.stations
                                    && Alike(a.stations[m].(associated := b.stations[m].associated), b.stations[m])
                                    && (a.stations[m].associated ==> b.stations[m].associated))
            && (b.pendingAnonce == a.pendingAnonce || b.pendingAnonce == a.pendingAnonce - {m})
  {
    hide A.HandleM2, A.HandleM4, A.HandleGroup2;
    if m in a.stations {
      M2Changes(cfg, a, m, f, rsnMatches);
      M4Changes(cfg, a, m, f);
      Group2Changes(a, m, f);
    }
  }

  lemma {:induction false} EapolTracks(cfg: A.Config, a: A.State, s: M.State, e: A.Event, now: nat)
    requires e.EapolReceived? && TracksAt(R.At(a, e.sta), s, e.sta)
    ensures TracksAt(R.At(A.Handle(cfg, a, e).s, e.sta), Tell(s, Told(cfg, a, e, now)), e.sta)
  {
    EapolChanges(cfg, a, e.sta, e.frame, e.rsnMatches);
    hide A.HandleEapol;
    TellOne(s, Told(cfg, a, e, now));
  }

  lemma {:induction false} AcceptChanges(a: A.State, m: Mac, f: A.MgmtFrame)
    requires A.MgmtOpens(a, m, f)
    ensures var b := A.AcceptMgmt(a, m, f).s;
            && b.pendingAnonce == a.pendingAnonce && m in a.stations && m in b.stations && b.stations[m].saQuery == a.stations[m].saQuery
            && Alike(a.stations[m], b.stations[m])
  {
  }

  lemma {:induction false} SealChanges(a: A.State, m: Mac, c: Content)
    requires m in a.stations
    ensures var b := A.SealNext(a, m, c).s;
            && b.pendingAnonce == a.pendingAnonce && m in b.stations && b.stations[m].saQuery == a.stations[m].saQuery
            && Alike(a.stations[m], b.stations[m])
  {
  }

  // Nothing but the query, which may be over.
  predicate QueryMayEnd(s: A.Station, t: A.Station) {
    (t.saQuery == s.saQuery || t.saQuery.None?) && Alike(s.(saQuery := t.saQuery), t)
  }

  predicate OnlyQuery(a: A.State, b: A.State, m: Mac) {
    && b.pendingAnonce == a.pendingAnonce && (m in b.stations <==> m in a.stations)
    && (m in a.stations && m in b.stations ==> QueryMayEnd(a.stations[m], b.stations[m]))
  }

  lemma {:induction false} QueryEnds(a: A.State, b: A.State, m: Mac)
    requires OnlyQuery(a, b, m) && m in b.stations
    ensures OnlyQuery(a, A.Put(b, m, b.stations[m].(saQuery := None)), m)
  {
  }

  lemma {:induction false} SealsAfter(a: A.State, b: A.State, m: Mac, c: Content)
    requires OnlyQuery(a, b, m) && m in b.stations
    ensures OnlyQuery(a, A.SealNext(b, m, c).s, m)
  {
    SealChanges(b, m, c);
    hide A.SealNext;
  }

  lemma {:induction false} ActionChanges(a: A.State, m: Mac, f: A.MgmtFrame)
    ensures OnlyQuery(a, A.HandleAction(a, m, f).s, m)
  {
    if A.MgmtOpens(a, m, f) {
      var b := A.AcceptMgmt(a, m, f).s;
      AcceptChanges(a, m, f);
      assert OnlyQuery(a, b, m);
      hide A.SealNext, A.AcceptMgmt, A.MgmtOpens, OnlyQuery;
      QueryEnds(a, b, m);
      if f.content.SaQueryRequest? {
        SealsAfter(a, b, m, SaQueryResponse(f.content.id));
      }
    }
  }

  lemma {:induction false} DeauthChanges(a: A.State, m: Mac, f: A.MgmtFrame)
    ensures var b := A.HandleDeauth(a, m, f).s;
            && b.pendingAnonce == a.pendingAnonce
            && (m in b.stations ==> m in a.stations && b.stations[m] == a.stations[m])
  {
  }

  lemma {:induction false} MgmtTracks(cfg: A.Config, a: A.State, s: M.State, e: A.Event, now: nat)
    requires e.MgmtReceived? && TracksAt(R.At(a, e.sta), s, e.sta)
    ensures var b := A.Handle(cfg, a, e).s;
            TracksAt(R.At(b, e.sta), Tell(s, Told(cfg, a, e, now)), e.sta) && b.pendingAnonce == a.pendingAnonce
  {
    ActionChanges(a, e.sta, e.mgmt);
    DeauthChanges(a, e.sta, e.mgmt);
    hide A.HandleAction, A.HandleDeauth;
    TellOne(s, Told(cfg, a, e, now));
  }

  lemma {:induction false} QuietTracks(cfg: A.Config, a: A.State, s: M.State, e: A.Event, now: nat)
    requires (e.DataReceived? || e.ToStation? || e.NotAcked? || e.RetryTimer? || e.Dropped?) && TracksAt(R.At(a, e.sta), s, e.sta)
    ensures var b := A.Handle(cfg, a, e).s;
            TracksAt(R.At(b, e.sta), Tell(s, Told(cfg, a, e, now)), e.sta) && b.pendingAnonce == a.pendingAnonce
  {
    if e.ToStation? {
      SealAlike(a, e.sta, e.content);
    }
    TellOne(s, Told(cfg, a, e, now));
  }

  // The station an event is about.
  lemma {:induction false} OwnTracks(cfg: A.Config, a: A.State, s: M.State, e: A.Event, m: Mac, now: nat)
    requires R.EventStation(e) == Some(m) && TracksAt(R.At(a, m), s, m)
    ensures TracksAt(R.At(A.Handle(cfg, a, e).s, m), Tell(s, Told(cfg, a, e, now)), m)
  {
    hide TracksAt, Tell, Told, A.Handle;
    if e.AuthReceived? {
      AuthTracks(cfg, a, s, e, now);
    } else if e.AssocReceived? {
      AssocTracks(cfg, a, s, e, now);
    } else if e.SaeCommitDone? || e.SaeConfirmDone? {
      SaeTracks(cfg, a, s, e, now);
    } else if e.EapolReceived? {
      EapolTracks(cfg, a, s, e, now);
    } else if e.MgmtReceived? {
      MgmtTracks(cfg, a, s, e, now);
    } else {
      QuietTracks(cfg, a, s, e, now);
    }
  }

  lemma {:induction false} ToldIsAbout(cfg: A.Config, a: A.State, e: A.Event, now: nat)
    ensures var told := Told(cfg, a, e, now);
            |told| <= 1 && (told == [] || (R.EventStation(e) == Some(told[0].mac) && !told[0].TimerTick? && !told[0].PmksaEvicted?
                                           && !told[0].HoldAnonce? && !told[0].ReleaseAnonce?))
  {
    hide A.Handle, A.SaQueryChallenge, A.Refusal, KeepsSession;
  }

  // ---- the held ANonces -------------------------------------------------------------------------------------------

  lemma {:induction false} HoldTimes(held: map<Mac, A.Held>, m: Mac, h: A.Held, now: nat)
    ensures HeldTimes(A.DropExpired(held, now)[m := h])
            == (map x | x in HeldTimes(held) && now < HeldTimes(held)[x] + M.ANONCE_HOLD :: HeldTimes(held)[x])[m := h.created]
    ensures HeldTimes(held - {m}) == HeldTimes(held) - {m}
  {
  }

  lemma {:induction false} SameHeld(cfg: A.Config, a: A.State, e: A.Event)
    requires R.EventStation(e).Some? && !e.AssocReceived? && !e.EapolReceived?
    ensures A.Handle(cfg, a, e).s.pendingAnonce == a.pendingAnonce
  {
    hide A.OpenAuth, A.NewStation, A.SealNext, A.HandleAction, A.HandleDeauth, A.SaQueryChallenge;
    if e.MgmtReceived? {
      ActionChanges(a, e.sta, e.mgmt);
      DeauthChanges(a, e.sta, e.mgmt);
    } else {
      SealHeld(a, e.sta, if e.ToStation? then e.content else OtherAction, if e.AuthReceived? then e.now else 0);
    }
  }

  lemma {:induction false} SealHeld(a: A.State, m: Mac, c: Content, now: nat)
    ensures A.SealNext(a, m, c).s.pendingAnonce == a.pendingAnonce
    ensures A.SaQueryChallenge(a, m, now).s.pendingAnonce == a.pendingAnonce
  {
  }

  lemma {:induction false} AssocHeld(cfg: A.Config, a: A.State, e: A.Event)
    requires e.AssocReceived?
    ensures var b := A.Handle(cfg, a, e).s;
            b.pendingAnonce == a.pendingAnonce
            || exists h: A.Held :: h.created == e.now && b.pendingAnonce == A.DropExpired(a.pendingAnonce, e.now)[e.sta := h]
  {
    if !e.request.reloading && !A.PmfProtected(a, e.sta) && A.Refusal(cfg, a, e.sta, e.request).None? {
      NegotiationChanges(cfg, a, e.sta, e.request, e.now, e.random, e.gtk, e.igtk);
    } else {
      SealHeld(a, e.sta, OtherAction, e.now);
      hide A.SaQueryChallenge, A.Refusal;
    }
  }

  lemma {:induction false} HeldTracks(cfg: A.Config, a: A.State, s: M.State, e: A.Event, now: nat)
    requires R.EventStation(e).Some? && s.held == HeldTimes(a.pendingAnonce)
    ensures var t := Tell(s, ToldHeld(cfg, a, e, now));
            t.held == HeldTimes(A.Handle(cfg, a, e).s.pendingAnonce) && t.stations == s.stations
  {
    var b := A.Handle(cfg, a, e).s;
    TellOne(s, ToldHeld(cfg, a, e, now));
    if b.pendingAnonce != a.pendingAnonce {
      if e.AssocReceived? {
        AssocHeld(cfg, a, e);
        var h: A.Held :| h.created == e.now && b.pendingAnonce == A.DropExpired(a.pendingAnonce, e.now)[e.sta := h];
        HoldTimes(a.pendingAnonce, e.sta, h, e.now);
        hide A.Handle, HeldTimes, A.DropExpired;
      } else if e.EapolReceived? {
        EapolChanges(cfg, a, e.sta, e.frame, e.rsnMatches);
        hide A.HandleEapol, HeldTimes;
        HoldTimes(a.pendingAnonce, e.sta, A.Held(0, 0, 0), now);
      } else {
        SameHeld(cfg, a, e);
      }
    }
  }

  // ---- group rekey -------------------------------------------------------------------------------------------------

  lemma {:induction false} RekeyAlike(cfg: A.Config, a: A.State, ts: seq<A.Target>, m: Mac)
    ensures var b := A.RekeyStations(cfg, a, ts).s; AlikeAt(a, b, m) && b.pendingAnonce == a.pendingAnonce
    decreases |ts|
  {
    hide A.RekeyStation;
    if ts != [] {
      RekeyOneAlike(cfg, a, ts[0], m);
      RekeyAlike(cfg, A.RekeyStation(cfg, a, ts[0]).s, ts[1..], m);
    }
  }

  lemma {:induction false} RekeyOneAlike(cfg: A.Config, a: A.State, t: A.Target, m: Mac)
    ensures var b := A.RekeyStation(cfg, a, t).s; AlikeAt(a, b, m) && b.pendingAnonce == a.pendingAnonce
  {
    hide A.GroupDelivery, A.NextReplay, A.Toggle;
  }

  lemma {:induction false} GroupEventAlike(cfg: A.Config, a: A.State, e: A.Event, m: Mac)
    requires e.RekeyTimer? || e.ToGroup?
    ensures var b := A.Handle(cfg, a, e).s; AlikeAt(a, b, m) && b.pendingAnonce == a.pendingAnonce
  {
    hide A.RekeyStations, A.Toggle;
    if e.RekeyTimer? {
      RekeyAlike(cfg, A.RotateGroup(cfg, a, e.gtk, e.igtk), e.targets, m);
    }
  }

  // ---- a handler's step ------------------------------------------------------------------------------------------------

  function After(cfg: A.Config, w: World, e: A.Event, now: nat): M.State {
    Tell(Tell(w.s, Told(cfg, w.a, e, now)), ToldHeld(cfg, w.a, e, now))
  }

  lemma {:induction false} ToldLeaves(cfg: A.Config, a: A.State, s: M.State, e: A.Event, now: nat, n: Mac)
    ensures var t := Tell(s, Told(cfg, a, e, now));
            && t.held == s.held
            && (R.EventStation(e) != Some(n) ==>
                  (n in t.stations <==> n in s.stations) && (n in s.stations ==> t.stations[n] == s.stations[n]))
  {
    hide Told, M.Handle, A.Handle;
    ToldIsAbout(cfg, a, e, now);
    var told := Told(cfg, a, e, now);
    TellOne(s, told);
    if told != [] {
      ActKeepsHeld(s, told[0]);
      if told[0].mac != n {
        ActElsewhere(s, told[0], n);
      }
    }
  }

  lemma {:induction false} HappensTracks(cfg: A.Config, w: World, e: A.Event, now: nat)
    requires Tracks(w.a, w.s) && !e.Maintenance?
    ensures Tracks(A.Handle(cfg, w.a, e).s, After(cfg, w, e, now))
  {
    var b, t := A.Handle(cfg, w.a, e).s, After(cfg, w, e, now);
    if R.EventStation(e).Some? {
      var m := R.EventStation(e).value;
      var t1 := Tell(w.s, Told(cfg, w.a, e, now));
      hide A.Handle, Told, ToldHeld, Tell, Matches;
      ToldLeaves(cfg, w.a, w.s, e, now, m);
      HeldTracks(cfg, w.a, t1, e, now);
      forall n: Mac ensures TracksAt(R.At(b, n), t, n)
      {
        assert TracksAt(R.At(w.a, n), w.s, n);
        if n == m {
          OwnTracks(cfg, w.a, w.s, e, m, now);
        } else {
          R.HandleElsewhere(cfg, n, w.a, e);
          ToldLeaves(cfg, w.a, w.s, e, now, n);
        }
      }
    } else {
      hide A.Handle, Matches;
      forall n: Mac ensures TracksAt(R.At(b, n), t, n)
      {
        assert TracksAt(R.At(w.a, n), w.s, n);
        GroupEventAlike(cfg, w.a, e, n);
        AlikeTracks(w.a, b, w.s, n);
      }
      GroupEventAlike(cfg, w.a, e, 0);
    }
  }

  // When an event happens, by its own account.
  function Time(e: A.Event, now: nat): nat {
    if e.AuthReceived? || e.AssocReceived? then e.now else now
  }

  // An open authentication that ends an association whose SAE exchange is incomplete, with no
  // deadline to cover the expiry it starts.
  predicate Corner(cfg: A.Config, w: World, e: A.Event, now: nat) {
    var told := Told(cfg, w.a, e, now);
    told != [] && M.Unscheduled(w.s, told[0])
  }

  lemma {:induction false} ToldTime(cfg: A.Config, a: A.State, e: A.Event, now: nat)
    ensures forall x :: x in Told(cfg, a, e, now) ==> x.now == Time(e, now)
    ensures forall x :: x in ToldHeld(cfg, a, e, now) ==> x.now == Time(e, now) && (x.HoldAnonce? || x.ReleaseAnonce?)
    ensures |ToldHeld(cfg, a, e, now)| <= 1
  {
    hide A.Handle, A.SaQueryChallenge, A.Refusal, KeepsSession;
  }

  lemma {:induction false} TellKeeps(s: M.State, told: seq<M.Event>, now: nat)
    requires M.Inv(s) && s.clock <= now && |told| <= 1
    requires told != [] ==> told[0].now == now && !M.Unscheduled(s, told[0])
    ensures var t := Tell(s, told); M.Inv(t) && t.clock <= now
  {
    hide M.Inv, M.Unscheduled, M.Act;
    TellOne(s, told);
    if told != [] {
      M.HandleKeepsIff(s, told[0]);
    }
  }

  lemma {:induction false} HappensKeeps(cfg: A.Config, w: World, e: A.Event, now: nat)
    requires M.Inv(w.s) && w.s.clock <= Time(e, now) && !Corner(cfg, w, e, now)
    ensures M.Inv(After(cfg, w, e, now)) && After(cfg, w, e, now).clock <= Time(e, now)
  {
    hide M.Inv, A.Handle, Told, ToldHeld, Tell;
    var told, more := Told(cfg, w.a, e, now), ToldHeld(cfg, w.a, e, now);
    ToldTime(cfg, w.a, e, now);
    ToldIsAbout(cfg, w.a, e, now);
    assert told != [] ==> told[0] in told;
    TellKeeps(w.s, told, Time(e, now));
    assert more != [] ==> more[0] in more;
    TellKeeps(Tell(w.s, told), more, Time(e, now));
  }

  // ---- ticks -----------------------------------------------------------------------------------------------------------------

  // The unassociated stations with an SAE exchange that have been inactive too long.
  function Inactive(s: M.State, now: nat): set<Mac> {
    set m | m in s.stations && !s.stations[m].associated && s.stations[m].sae != M.NoSae
            && now >= s.stations[m].lastActivity + M.SAE_TIMEOUT
  }

  // Maintenance by a full scan, whatever the deadline says.
  function Scanned(w: World, now: nat): A.State {
    var b := A.Maintain(w.a, now);
    b.(stations := b.stations - Inactive(w.s, now))
  }

  function TickAt(w: World, now: nat): World {
    World(if M.Covers(w.s.deadline, now) then Scanned(w, now) else w.a, M.Handle(w.s, M.TimerTick(now)))
  }

  lemma {:induction false} ScanTracks(w: World, now: nat)
    requires Tracks(w.a, w.s)
    ensures Tracks(Scanned(w, now), M.Swept(w.s, now))
  {
    var b, t := Scanned(w, now), M.Swept(w.s, now);
    assert t.held == HeldTimes(b.pendingAnonce);
    forall m: Mac ensures TracksAt(R.At(b, m), t, m)
    {
      assert TracksAt(R.At(w.a, m), w.s, m);
    }
  }

  lemma {:induction false} TickTracks(w: World, now: nat)
    requires Tracks(w.a, w.s)
    ensures Tracks(TickAt(w, now).a, TickAt(w, now).s)
  {
    hide M.Expiries, M.Earliest, Scanned, Matches, M.Swept;
    var v := TickAt(w, now);
    if M.Covers(w.s.deadline, now) {
      ScanTracks(w, now);
      TablesTrack(v.a, M.Swept(w.s, now), v.s);
    } else {
      TablesTrack(w.a, w.s, v.s);
    }
  }

  lemma {:induction false} TablesTrack(a: A.State, s: M.State, t: M.State)
    requires Tracks(a, s) && t.held == s.held && t.stations == s.stations
    ensures Tracks(a, t)
  {
    forall m: Mac ensures TracksAt(R.At(a, m), t, m)
    {
      assert TracksAt(R.At(a, m), s, m);
    }
  }

  ghost predicate Synchronized(w: World) {
    Tracks(w.a, w.s) && M.Inv(w.s)
  }

  // A tick that the deadline lets pass would have found nothing: maintenance at every tick does
  // the same, except that it would give up stations whose exchange is complete but which have
  // been inactive, and which the scan takes with it when it comes.
  lemma {:induction false} SkippedTickIsIdle(w: World, now: nat)
    requires Synchronized(w) && w.s.clock <= now && !M.Covers(w.s.deadline, now)
    ensures A.Maintain(w.a, now) == w.a
    ensures forall m :: m in Inactive(w.s, now) ==> w.s.stations[m].sae == M.Confirmed
  {
    M.InvIsScheduled(w.s);
    forall m | m in w.a.stations ensures !A.QueryExpired(w.a.stations[m], now)
    {
      assert TracksAt(R.At(w.a, m), w.s, m);
      assert M.StationScheduled(w.s.stations[m], w.s.deadline);
    }
    forall m | m in w.a.pendingAnonce ensures now < w.a.pendingAnonce[m].created + A.ANONCE_HOLD
    {
      assert HeldTimes(w.a.pendingAnonce)[m] == w.s.held[m];
    }
    assert A.DropExpired(w.a.pendingAnonce, now) == w.a.pendingAnonce;
    forall m | m in Inactive(w.s, now) ensures w.s.stations[m].sae == M.Confirmed
    {
      assert M.StationScheduled(w.s.stations[m], w.s.deadline);
    }
  }

  // After any tick the authenticator has no SA Query past its time, no ANonce held too long and
  // no incomplete exchange of an unassociated station that has expired.
  lemma {:induction false} TickLeavesNoneExpired(w: World, now: nat, m: Mac)
    requires Synchronized(w) && w.s.clock <= now
    ensures var v := TickAt(w, now);
            && (m in v.a.stations ==> !A.QueryExpired(v.a.stations[m], now))
            && (m in v.a.pendingAnonce ==> now < v.a.pendingAnonce[m].created + A.ANONCE_HOLD)
            && (m in v.a.stations && m in v.s.stations && v.a.stations[m].sae.SaeCommitted? && !v.a.stations[m].associated ==>
                  now < v.s.stations[m].lastActivity + M.SAE_TIMEOUT)
  {
    TickTracks(w, now);
    M.TickLeavesNoneExpired(w.s, now);
    var v := TickAt(w, now);
    hide TickAt, M.Tick, M.Inv;
    assert TracksAt(R.At(v.a, m), v.s, m);
    NoneExpiredAt(w.s, v.s, now, m);
    if m in v.a.pendingAnonce {
      assert HeldTimes(v.a.pendingAnonce)[m] == v.s.held[m];
    }
  }

  lemma {:induction false} NoneExpiredAt(s: M.State, t: M.State, now: nat, m: Mac)
    requires M.NoneExpired(M.Tick(s, now), now) && t == M.Handle(s, M.TimerTick(now))
    ensures m in t.held ==> now < t.held[m] + M.ANONCE_HOLD
    ensures m in t.stations && M.Expiring(t.stations[m]) ==> now < t.stations[m].lastActivity + M.SAE_TIMEOUT
    ensures m in t.stations && t.stations[m].saQuery.Some? ==> now < t.stations[m].saQuery.value + M.SA_QUERY_TIMEOUT
  {
    hide M.Tick;
    var u := M.Tick(s, now);
    if m in u.held {
      assert u.held[m] + M.ANONCE_HOLD in M.HeldExpiries(u);
      assert u.held[m] + M.ANONCE_HOLD in M.Expiries(u);
    }
    if m in u.stations && M.Expiring(u.stations[m]) {
      assert u.stations[m].lastActivity + M.SAE_TIMEOUT in M.SaeExpiries(u);
      assert u.stations[m].lastActivity + M.SAE_TIMEOUT in M.Expiries(u);
    }
    if m in u.stations && u.stations[m].saQuery.Some? {
      assert u.stations[m].saQuery.value + M.SA_QUERY_TIMEOUT in M.QueryExpiries(u);
      assert u.stations[m].saQuery.value + M.SA_QUERY_TIMEOUT in M.Expiries(u);
    }
  }

  // ---- runs ----------------------------------------------------------------------------------------------------------------------

  function Next(cfg: A.Config, w: World, e: Event): World {
    match e
    case Happens(event, now) => World(A.Handle(cfg, w.a, event).s, After(cfg, w, event, now))
    case Heard(m, now) => World(w.a, M.Handle(w.s, M.Activity(m, now)))
    case Tick(now) => TickAt(w, now)
  }

  function Run(cfg: A.Config, w: World, es: seq<Event>): World {
    if es == [] then w else Next(cfg, Run(cfg, w, es[..|es| - 1]), es[|es| - 1])
  }

  // Maintenance comes by ticks only, the clock does not go back, and no event is the corner.
  predicate Ordinary(cfg: A.Config, w: World, e: Event) {
    match e
    case Happens(event, now) => !event.Maintenance? && w.s.clock <= Time(event, now) && !Corner(cfg, w, event, now)
    case _ => w.s.clock <= e.now
  }

  ghost predicate OrdinaryRun(cfg: A.Config, w: World, es: seq<Event>) {
    es == [] ||
    (OrdinaryRun(cfg, w, es[..|es| - 1]) && Ordinary(cfg, Run(cfg, w, es[..|es| - 1]), es[|es| - 1]))
  }

  lemma {:induction false} HeardKeeps(w: World, m: Mac, now: nat)
    requires Synchronized(w) && w.s.clock <= now
    ensures Synchronized(World(w.a, M.Handle(w.s, M.Activity(m, now))))
  {
    M.HandleKeepsIff(w.s, M.Activity(m, now));
    var t := M.Handle(w.s, M.Activity(m, now));
    hide M.Inv;
    forall n: Mac ensures TracksAt(R.At(w.a, n), t, n)
    {
      assert TracksAt(R.At(w.a, n), w.s, n);
    }
  }

  lemma {:induction false} NextKeeps(cfg: A.Config, w: World, e: Event)
    requires Synchronized(w) && Ordinary(cfg, w, e)
    ensures Synchronized(Next(cfg, w, e))
  {
    hide Tracks, M.Inv, After, Corner, A.Handle, M.Act;
    match e {
      case Happens(event, now) =>
        HappensTracks(cfg, w, event, now);
        HappensKeeps(cfg, w, event, now);
      case Heard(m, now) => HeardKeeps(w, m, now);
      case Tick(now) =>
        TickTracks(w, now);
        M.HandleKeepsIff(w.s, M.TimerTick(now));
    }
  }

  // In every state that a run without the corner reaches, the tables of the deadline are the
  // authenticator's and nothing in them expires before it.
  lemma {:induction false} RunKeeps(cfg: A.Config, replay: nat, gtk: GroupKey, igtk: GroupKey, es: seq<Event>)
    requires OrdinaryRun(cfg, World(A.Initial(replay, gtk, igtk), M.Initial()), es)
    ensures Synchronized(Run(cfg, World(A.Initial(replay, gtk, igtk), M.Initial()), es))
  {
    if es != [] {
      RunKeeps(cfg, replay, gtk, igtk, es[..|es| - 1]);
      hide Synchronized, Next, Ordinary;
      NextKeeps(cfg, Run(cfg, World(A.Initial(replay, gtk, igtk), M.Initial()), es[..|es| - 1]), es[|es| - 1]);
    }
  }

  // ---- a scan as events of the authenticator ------------------------------------------------------------------------------

  function Drops(ms: seq<Mac>): seq<A.Event> {
    if ms == [] then [] else Drops(ms[..|ms| - 1]) + [A.Dropped(ms[|ms| - 1])]
  }

  // What a scan does is what the authenticator's maintenance and teardown do, in any order of
  // the stations given up.
  lemma {:induction false} ScanIsEvents(cfg: A.Config, w: World, now: nat, ms: seq<Mac>)
    requires forall m :: m in ms <==> m in Inactive(w.s, now)
    ensures A.RunFrom(cfg, A.Maintain(w.a, now), Drops(ms)).s == Scanned(w, now)
  {
    hide A.Maintain, Inactive;
    DropsRun(cfg, A.Maintain(w.a, now), ms);
    assert (set m | m in ms) == Inactive(w.s, now);
  }

  lemma {:induction false} DropsRun(cfg: A.Config, a: A.State, ms: seq<Mac>)
    ensures A.RunFrom(cfg, a, Drops(ms)).s == a.(stations := a.stations - set m | m in ms)
  {
    hide A.Handle;
    if ms == [] {
      assert a.stations - {} == a.stations;
      assert (set m | m in ms) == {};
    } else {
      var front, last := ms[..|ms| - 1], ms[|ms| - 1];
      DropsRun(cfg, a, front);
      var all := Drops(ms);
      assert all[..|all| - 1] == Drops(front) && all[|all| - 1] == A.Dropped(last);
      assert (set m | m in ms) == (set m | m in front) + {last};
      DropOne(cfg, a, (set m | m in front), last);
    }
  }

  lemma {:induction false} DropOne(cfg: A.Config, a: A.State, gone: set<Mac>, last: Mac)
    ensures A.Handle(cfg, a.(stations := a.stations - gone), A.Dropped(last)).s == a.(stations := a.stations - (gone + {last}))
  {
    assert a.stations - gone - {last} == a.stations - (gone + {last});
  }
}
