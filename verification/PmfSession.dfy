/**
 Integrity of a settled session with management frame protection: nothing an attacker can
 send without the station's keys disturbs it, and a challenge once made stays the same
 challenge until it is answered or runs out.
 */
module PmfSession {
  import opened Common
  import opened Symbols
  import opened Authenticator
  import opened AuthenticatorRuns

  // Associated, protected, and with no handshake in progress.
  predicate Settled(s: Station) {
    s.associated && s.pmf && !s.eapolReady && !s.awaitingM4
  }

  // Events about m that do not carry proof of its keys: every authentication and association
  // request, and EAPOL, data and management frames not made with them. Events about other
  // stations, group rekeys, maintenance and what the host sends are here too.
  predicate WithoutKeys(m: Mac, kck: Secret, tk: Secret, e: Event) {
    match e
    case EapolReceived(sta, f, _) => sta == m ==> forall alg :: !MicValid(alg, kck, f)
    case DataReceived(sta, d) => sta == m ==> d.key != Pairwise(tk)
    case MgmtReceived(sta, f) => sta == m ==> !f.protected || f.key != Pairwise(tk)
    case Dropped(sta) => sta != m
    case _ => true
  }

  // t is the session s, with packet numbers spent and perhaps a challenge added.
  predicate SameSession(s: Station, t: Station) {
    && Settled(t)
    && t.tk == s.tk && t.kck == s.kck && t.kek == s.kek
    && t.rxPn == s.rxPn && t.rxMgmtPn == s.rxMgmtPn
    && s.clientPn <= t.clientPn
    && (s.saQuery.Some? ==> t.saQuery == s.saQuery)
  }

  predicate Undisturbed(m: Mac, a: State, b: State) {
    m in a.stations && m in b.stations && SameSession(a.stations[m], b.stations[m])
  }

  lemma {:induction false} ChallengeUndisturbed(m: Mac, a: State, now: nat)
    requires m in a.stations && Settled(a.stations[m])
    ensures Undisturbed(m, a, SaQueryChallenge(a, m, now).s)
  {
  }

  lemma {:induction false} FramesUndisturbed(cfg: Config, m: Mac, a: State, e: Event)
    requires m in a.stations && Settled(a.stations[m])
    requires e.EapolReceived? || e.DataReceived? || e.MgmtReceived?
    requires e.sta == m && WithoutKeys(m, a.stations[m].kck, a.stations[m].tk, e)
    ensures Handle(cfg, a, e).s == a
  {
    hide HandleM4, IssueM3, MatchingPmk;
  }

  lemma {:induction false} RekeyStationUndisturbed(cfg: Config, m: Mac, a: State, t: Target)
    requires m in a.stations && Settled(a.stations[m])
    ensures Undisturbed(m, a, RekeyStation(cfg, a, t).s)
  {
    hide GroupDelivery, NextReplay;
  }

  lemma {:induction false} RekeyUndisturbed(cfg: Config, m: Mac, a: State, ts: seq<Target>)
    requires m in a.stations && Settled(a.stations[m])
    ensures Undisturbed(m, a, RekeyStations(cfg, a, ts).s)
    decreases |ts|
  {
    if ts != [] {
      RekeyStationUndisturbed(cfg, m, a, ts[0]);
      var b := RekeyStation(cfg, a, ts[0]).s;
      hide RekeyStation;
      RekeyUndisturbed(cfg, m, b, ts[1..]);
    }
  }

  lemma {:induction false} StepUndisturbed(cfg: Config, m: Mac, a: State, e: Event)
    requires m in a.stations && Settled(a.stations[m])
    requires WithoutKeys(m, a.stations[m].kck, a.stations[m].tk, e)
    ensures Undisturbed(m, a, Handle(cfg, a, e).s) <==> !TimesOut(m, a, e)
  {
    hide SaQueryChallenge, RekeyStations, HandleEapol, HandleData, HandleDeauth, HandleAction;
    if TimesOut(m, a, e) {
      hide Undisturbed;
      MaintainUndisturbed(m, a, e.now);
    } else if EventStation(e).Some? && EventStation(e).value != m {
      hide Handle;
      HandleElsewhere(cfg, m, a, e);
    } else if e.EapolReceived? || e.DataReceived? || e.MgmtReceived? {
      hide Handle;
      FramesUndisturbed(cfg, m, a, e);
    } else if e.RekeyTimer? {
      RekeyUndisturbed(cfg, m, RotateGroup(cfg, a, e.gtk, e.igtk), e.targets);
    } else if e.AuthReceived? {
      ChallengeUndisturbed(m, a, e.now);
    } else if e.AssocReceived? {
      AssocUndisturbed(cfg, m, a, e);
    } else {
      OthersUndisturbed(cfg, m, a, e);
    }
  }

  lemma {:induction false} AssocUndisturbed(cfg: Config, m: Mac, a: State, e: Event)
    requires m in a.stations && Settled(a.stations[m]) && e.AssocReceived? && e.sta == m
    ensures Undisturbed(m, a, Handle(cfg, a, e).s)
  {
    hide SaQueryChallenge, Negotiated, Authorized, StartHandshake, Refusal;
    ChallengeUndisturbed(m, a, e.now);
  }

  lemma {:induction false} SealUndisturbed(m: Mac, a: State, c: Content, octets: nat)
    requires m in a.stations && Settled(a.stations[m])
    ensures Undisturbed(m, a, SealNext(a, m, c).s) && Undisturbed(m, a, SealGroup(a, octets).s)
  {
  }

  lemma {:induction false} TimersUndisturbed(m: Mac, a: State)
    requires m in a.stations && Settled(a.stations[m])
    ensures Undisturbed(m, a, AssocNotAcked(a, m)) && Undisturbed(m, a, Retransmit(a, m).s)
  {
  }

  lemma {:induction false} MaintainUndisturbed(m: Mac, a: State, now: nat)
    requires m in a.stations && Settled(a.stations[m])
    ensures Undisturbed(m, a, Maintain(a, now)) <==> !QueryExpired(a.stations[m], now)
  {
  }

  // What the host sends, an unacknowledged association response, retransmission, maintenance
  // and SAE results.
  lemma {:induction false} OthersUndisturbed(cfg: Config, m: Mac, a: State, e: Event)
    requires m in a.stations && Settled(a.stations[m]) && WithoutKeys(m, a.stations[m].kck, a.stations[m].tk, e)
    requires !TimesOut(m, a, e)
    requires EventStation(e).Some? ==> EventStation(e).value == m
    requires !e.EapolReceived? && !e.DataReceived? && !e.MgmtReceived? && !e.RekeyTimer? && !e.AuthReceived? && !e.AssocReceived?
    ensures Undisturbed(m, a, Handle(cfg, a, e).s)
  {
    hide Undisturbed, Settled, SealNext, SealGroup, AssocNotAcked, Retransmit, SaeCommitFinished, SaeConfirmFinished,
         HandleEapol, HandleData, HandleDeauth, HandleAction, HandleAssoc, HandleAuth, Rekey, Maintain, Disconnect;
    match e {
      case ToStation(_, c) => SealUndisturbed(m, a, c, 0);
      case ToGroup(octets) => SealUndisturbed(m, a, SaQueryRequest(0), octets);
      case NotAcked(_) => TimersUndisturbed(m, a);
      case RetryTimer(_) => TimersUndisturbed(m, a);
      case Maintenance(now) => MaintainUndisturbed(m, a, now);
      case _ => SaeUndisturbed(cfg, m, a, e);
    }
  }

  lemma {:induction false} SaeUndisturbed(cfg: Config, m: Mac, a: State, e: Event)
    requires m in a.stations && Settled(a.stations[m]) && (e.SaeCommitDone? || e.SaeConfirmDone?)
    ensures Undisturbed(m, a, Handle(cfg, a, e).s)
  {
  }

  // Maintenance that finds m's query unanswered past its time.
  predicate TimesOut(m: Mac, a: State, e: Event) {
    e.Maintenance? && m in a.stations && QueryExpired(a.stations[m], e.now)
  }

  // No event of the run times out.
  ghost predicate NoneTimesOut(cfg: Config, m: Mac, a: State, es: seq<Event>) {
    es == [] ||
    (NoneTimesOut(cfg, m, a, es[..|es| - 1]) && !TimesOut(m, RunFrom(cfg, a, es[..|es| - 1]).s, es[|es| - 1]))
  }

  // The session is undisturbed after every event of the run.
  ghost predicate Throughout(cfg: Config, m: Mac, a: State, es: seq<Event>) {
    && Undisturbed(m, a, RunFrom(cfg, a, es).s)
    && (es != [] ==> Throughout(cfg, m, a, es[..|es| - 1]))
  }

  // Any sequence of events without proof of the station's keys, forged authentications and
  // associations included, leaves the session as it was: still associated, the same keys
  // and windows, no packet number lowered, and an outstanding challenge unchanged. It lasts
  // exactly until maintenance finds a challenge unanswered past its time.
  lemma {:induction false} ForgeriesLeaveSession(cfg: Config, m: Mac, a: State, es: seq<Event>)
    requires m in a.stations && Settled(a.stations[m])
    requires forall e :: e in es ==> WithoutKeys(m, a.stations[m].kck, a.stations[m].tk, e)
    ensures Throughout(cfg, m, a, es) <==> NoneTimesOut(cfg, m, a, es)
  {
    if es != [] {
      var front := es[..|es| - 1];
      assert forall e :: e in front ==> e in es;
      hide WithoutKeys, TimesOut, Handle;
      ForgeriesLeaveSession(cfg, m, a, front);
      if Throughout(cfg, m, a, front) {
        var b := RunFrom(cfg, a, front).s;
        var c := Handle(cfg, b, es[|es| - 1]).s;
        StepUndisturbed(cfg, m, b, es[|es| - 1]);
        if TimesOut(m, b, es[|es| - 1]) {
          TimedOutIsGone(cfg, m, b, es[|es| - 1]);
        }
      }
    }
  }

  lemma {:induction false} TimedOutIsGone(cfg: Config, m: Mac, a: State, e: Event)
    requires TimesOut(m, a, e)
    ensures m !in Handle(cfg, a, e).s.stations
  {
  }

  // The events that end an outstanding challenge.
  predicate EndsQuery(m: Mac, s: Station, e: Event)
    requires s.saQuery.Some?
  {
    match e
    case MgmtReceived(sta, f) =>
      && sta == m && f.protected && f.key == Pairwise(s.tk) && f.pn.Some? && f.pn.value > s.rxMgmtPn
      && (f.action ==> f.content == Content.SaQueryResponse(s.saQuery.value.id))
    case Maintenance(now) => now >= s.saQuery.value.started + SA_QUERY_TIMEOUT
    case Dropped(sta) => sta == m
    case _ => false
  }

  // An outstanding challenge of a settled session ends exactly by the protected response with
  // its identifier, a protected deauthentication, its own timeout, or the host's teardown.
  lemma {:induction false} QueryEndsOnlyBy(cfg: Config, m: Mac, a: State, e: Event)
    requires m in a.stations && Settled(a.stations[m]) && a.stations[m].saQuery.Some?
    ensures var b := Handle(cfg, a, e).s;
            (m in b.stations && b.stations[m].saQuery == a.stations[m].saQuery) <==> !EndsQuery(m, a.stations[m], e)
  {
    var s := a.stations[m];
    if EventStation(e).Some? && EventStation(e).value != m {
      hide Handle;
      HandleElsewhere(cfg, m, a, e);
    } else if e.EapolReceived? {
      EapolKeepsQuery(cfg, m, a, e.frame, e.rsnMatches);
    } else if e.MgmtReceived? {
      MgmtKeepsQuery(m, a, e.mgmt);
      hide HandleAction, HandleDeauth;
    } else if e.DataReceived? || e.ToStation? || e.Dropped? || e.Maintenance? || e.NotAcked? {
    } else {
      hide Handle;
      StepUndisturbed(cfg, m, a, e);
    }
  }

  lemma {:induction false} EapolKeepsQuery(cfg: Config, m: Mac, a: State, f: EapolKey, rsnMatches: bool)
    requires m in a.stations && Settled(a.stations[m])
    ensures var b := HandleEapol(cfg, a, m, f, rsnMatches).s; m in b.stations && b.stations[m].saQuery == a.stations[m].saQuery
  {
    hide HandleM4, IssueM3, MatchingPmk;
  }

  lemma {:induction false} MgmtKeepsQuery(m: Mac, a: State, f: MgmtFrame)
    requires m in a.stations && Settled(a.stations[m]) && a.stations[m].saQuery.Some?
    ensures var b := (if f.action then HandleAction(a, m, f) else HandleDeauth(a, m, f)).s;
            (m in b.stations && b.stations[m].saQuery == a.stations[m].saQuery)
            <==> !EndsQuery(m, a.stations[m], MgmtReceived(m, f))
  {
    if f.action {
      hide HandleDeauth;
      ActionKeepsQuery(m, a, f);
    } else {
      hide HandleAction;
    }
  }

  lemma {:induction false} ActionKeepsQuery(m: Mac, a: State, f: MgmtFrame)
    requires m in a.stations && Settled(a.stations[m]) && a.stations[m].saQuery.Some? && f.action
    ensures var b := HandleAction(a, m, f).s;
            (m in b.stations && b.stations[m].saQuery == a.stations[m].saQuery)
            <==> !EndsQuery(m, a.stations[m], MgmtReceived(m, f))
  {
  }

  // A contested session is challenged with the identifier of the outstanding query, as long
  // as packet numbers last, so the genuine answer to any of the challenges matches.
  lemma {:induction false} ContestedIsChallenged(cfg: Config, m: Mac, a: State, e: Event)
    requires m in a.stations && Settled(a.stations[m]) && a.stations[m].clientPn <= MAX_PACKET_NUMBER
    requires (e.AuthReceived? && e.sta == m) || (e.AssocReceived? && e.sta == m && !e.request.reloading)
    ensures var r := Handle(cfg, a, e);
            && m in r.s.stations && r.s.stations[m].saQuery.Some?
            && Sealed(m, a.stations[m].tk, a.stations[m].clientPn,
                      Content.SaQueryRequest(r.s.stations[m].saQuery.value.id)) in r.out
            && (a.stations[m].saQuery.None? ==> r.s.stations[m].saQuery.value.started == e.now)
  {
  }
}
