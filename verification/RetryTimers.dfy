/**
 The retry timers and the authenticator together. A handler that makes a message pending
 transmits it and arms its timer, a handler that ends the wait settles it, and what a tick
 gives up is disconnected. So the timers' stations are the authenticator's, with the same
 messages pending: whatever the authenticator waits for has its deadline in the heap.
 */
module RetryTimers {
  import opened Common
  import opened Symbols
  import A = Authenticator
  import R = AuthenticatorRuns
  import T = EapolTimers

  datatype World = World(a: A.State, t: T.State)

  datatype Event =
    | Happens(event: A.Event, now: nat)
    | Tick(now: nat)
    | Acked(sta: Mac, now: nat)
    | Transmitted(sta: Mac, now: nat)

  predicate Matches(s: A.Station, t: T.Timer) {
    t.pending == s.pendingEapol.Some? && t.awaitingM4 == s.awaitingM4 && t.groupRekeying == s.groupRekeying
  }

  predicate TracksAt(s: Option<A.Station>, t: T.State, m: Mac) {
    (s.Some? <==> m in t.stations) && (s.Some? && m in t.stations ==> Matches(s.value, t.stations[m]))
  }

  ghost predicate Tracks(a: A.State, t: T.State) {
    forall m: Mac :: TracksAt(R.At(a, m), t, m)
  }

  // ---- what a handler tells the timers --------------------------------------------------------

  predicate Transmits(m: Mac, out: seq<A.Out>) {
    exists o :: o in out && o.Sent? && o.to == m
  }

  // One station's record before and after a handler. It joins or leaves; a message it is sent
  // is armed; an unacknowledged association response cancels; where nothing is pending the
  // wait is over.
  datatype Change = Change(before: Option<A.Station>, after: Option<A.Station>, sent: bool, cancelled: bool)

  function Tell(t: T.State, m: Mac, c: Change, now: nat): T.State {
    if c.after.None? then (if c.before.None? then t else T.Leave(t, {m})) else
      var s := c.after.value;
      var j := if c.before.None? then T.Join(t, m, now) else t;
      if c.sent then T.Send(j, m, now, s.awaitingM4, s.groupRekeying)
      else if c.cancelled then T.Cancel(j, m)
      else if s.pendingEapol.None? then T.Settle(j, m, s.awaitingM4, s.groupRekeying)
      else j
  }

  predicate SameWait(s: A.Station, t: A.Station) {
    t.pendingEapol == s.pendingEapol && t.awaitingM4 == s.awaitingM4 && t.groupRekeying == s.groupRekeying
  }

  // What a handler owes the timers for that to be the whole story: no message becomes pending
  // without being sent.
  predicate Honest(c: Change) {
    c.after.Some? ==>
      var t := c.after.value;
      if c.sent then t.pendingEapol.Some?
      else if c.cancelled then
        c.before.Some? && t.pendingEapol.None? && !t.awaitingM4 && t.groupRekeying == c.before.value.groupRekeying
      else t.pendingEapol.Some? ==> c.before.Some? && SameWait(c.before.value, t)
  }

  function ChangeAt(a: A.State, r: A.Step, m: Mac, cancelled: bool): Change {
    Change(R.At(a, m), R.At(r.s, m), Transmits(m, r.out), cancelled)
  }

  lemma {:induction false} TellTracks(t: T.State, m: Mac, c: Change, now: nat)
    requires TracksAt(c.before, t, m) && Honest(c)
    ensures TracksAt(c.after, Tell(t, m, c, now), m)
  {
    hide T.Push;
  }

  lemma {:induction false} TellElsewhere(t: T.State, m: Mac, c: Change, now: nat, n: Mac)
    requires n != m
    ensures var u := Tell(t, m, c, now).stations;
            (n in u <==> n in t.stations) && (n in u ==> u[n] == t.stations[n])
  {
    hide T.Push;
  }

  lemma {:induction false} TellKeeps(t: T.State, m: Mac, c: Change, now: nat)
    requires T.Inv(t)
    ensures T.Inv(Tell(t, m, c, now))
  {
    hide T.Inv;
    if c.after.None? {
      T.HandleKeeps(t, T.Leaves({m}));
    } else {
      var s := c.after.value;
      var j := if c.before.None? then T.Join(t, m, now) else t;
      T.HandleKeeps(t, T.Joins(m, now));
      T.HandleKeeps(j, T.Sends(m, now, s.awaitingM4, s.groupRekeying));
      T.HandleKeeps(j, T.Cancels(m));
      T.HandleKeeps(j, T.Settles(m, s.awaitingM4, s.groupRekeying));
    }
  }

  // One station's step, all others as they were.
  lemma {:induction false} StepTracks(a: A.State, r: A.Step, t: T.State, m: Mac, cancelled: bool, now: nat)
    requires Tracks(a, t) && Honest(ChangeAt(a, r, m, cancelled))
    requires forall n: Mac :: n != m ==> R.At(r.s, n) == R.At(a, n)
    ensures Tracks(r.s, Tell(t, m, ChangeAt(a, r, m, cancelled), now))
  {
    hide Tell, Honest, Matches, Transmits;
    var c := ChangeAt(a, r, m, cancelled);
    forall n: Mac ensures TracksAt(R.At(r.s, n), Tell(t, m, c, now), n)
    {
      assert TracksAt(R.At(a, n), t, n);
      if n == m {
        TellTracks(t, m, c, now);
      } else {
        TellElsewhere(t, m, c, now, n);
      }
    }
  }

  // ---- every handler is honest ---------------------------------------------------------------------

  // A step that neither sends m a message of the handshake nor changes what it waits for.
  predicate LeavesWait(a: A.State, r: A.Step, m: Mac) {
    && !Transmits(m, r.out) && (m in r.s.stations <==> m in a.stations)
    && (m in a.stations ==> SameWait(a.stations[m], r.s.stations[m]))
  }

  lemma {:induction false} LeavesWaitHonest(m: Mac, a: A.State, r: A.Step)
    requires LeavesWait(a, r, m)
    ensures Honest(ChangeAt(a, r, m, false))
  {
  }

  lemma {:induction false} SealWaits(m: Mac, a: A.State, c: Content)
    ensures LeavesWait(a, A.SealNext(a, m, c), m)
  {
  }

  lemma {:induction false} ChallengeWaits(m: Mac, a: A.State, now: nat)
    ensures LeavesWait(a, A.SaQueryChallenge(a, m, now), m)
  {
  }

  lemma {:induction false} AuthHonest(m: Mac, a: A.State, sae: bool, now: nat, gtk: GroupKey, igtk: GroupKey)
    ensures Honest(ChangeAt(a, A.HandleAuth(a, m, sae, now, gtk, igtk), m, false))
  {
    hide A.SaQueryChallenge;
    ChallengeWaits(m, a, now);
  }

  lemma {:induction false} SaeHonest(cfg: A.Config, m: Mac, a: A.State, e: A.Event)
    requires (e.SaeCommitDone? || e.SaeConfirmDone?) && e.sta == m
    ensures Honest(ChangeAt(a, A.Handle(cfg, a, e), m, false))
  {
  }

  lemma {:induction false} NegotiatedWaits(cfg: A.Config, s: A.Station, q: A.AssocRequest)
    requires q.negotiation.Suite?
    ensures SameWait(s, A.Negotiated(cfg, s, q))
  {
    hide A.SelectsPskSha256;
  }

  lemma {:induction false} AuthorizedWaits(cfg: A.Config, a: A.State, m: Mac, s: A.Station, q: A.AssocRequest, now: nat)
    ensures SameWait(s, A.Authorized(cfg, a, m, s, q, now).0)
  {
    hide A.CachedPmksa, A.WithPmksa, A.WithOwe;
    var cached := A.CachedPmksa(a.pmksa, q.pmkids, s.mldMac.GetOr(m), now);
    CredentialsWait(s, cached, None);
    if q.dh.Dh? {
      CredentialsWait(A.WithPmksa(s, cached), None, q.dh.pmk);
    }
  }

  lemma {:induction false} CredentialsWait(s: A.Station, cached: Option<A.Pmksa>, pmk: Option<Pmk>)
    ensures SameWait(s, A.WithPmksa(s, cached)) && SameWait(s, A.WithOwe(s, pmk))
  {
  }

  lemma {:induction false} StartHonest(cfg: A.Config, m: Mac, a: A.State, s: A.Station, random: Nonce, now: nat)
    ensures Honest(ChangeAt(a, A.StartHandshake(cfg, a, m, s, random, now), m, false))
  {
    hide A.FirstMessage, A.ChooseAnonce;
    var r := A.StartHandshake(cfg, a, m, s, random, now);
    assert r.out[1].Sent?;
  }

  lemma {:induction false} AssocHonest(cfg: A.Config, m: Mac, a: A.State, q: A.AssocRequest, now: nat, random: Nonce, gtk: GroupKey, igtk: GroupKey)
    ensures Honest(ChangeAt(a, A.HandleAssoc(cfg, a, m, q, now, random, gtk, igtk), m, false))
  {
    hide A.SaQueryChallenge, A.Negotiated, A.Authorized, A.StartHandshake, A.Recent, A.Refusal;
    var r := A.HandleAssoc(cfg, a, m, q, now, random, gtk, igtk);
    if q.reloading {
    } else if A.PmfProtected(a, m) {
      ChallengeWaits(m, a, now);
      assert forall o :: o in r.out ==> o == A.Answer(m, A.Comeback) || o in A.SaQueryChallenge(a, m, now).out;
    } else if A.Refusal(cfg, a, m, q).None? {
      RequestNegotiates(cfg, a, m, q);
      var s0 := R.Record(a, m, gtk, igtk);
      NegotiatedWaits(cfg, s0, q);
      var s1 := A.Negotiated(cfg, s0, q).(lastAssoc := Some(now));
      AuthorizedWaits(cfg, a, m, s1, q, now);
      var t := A.Authorized(cfg, a, m, s1, q, now).0;
      StartHonest(cfg, m, a, t, random, now);
      if |r.out| == 2 && t.pendingEapol.Some? && r.out[1] == A.Sent(m, t.pendingEapol.value) {
        assert r.out[1] in r.out && Transmits(m, r.out);
      }
    }
  }

  lemma {:induction false} RequestNegotiates(cfg: A.Config, a: A.State, m: Mac, q: A.AssocRequest)
    requires A.Refusal(cfg, a, m, q).None?
    ensures q.negotiation.Suite?
  {
  }

  lemma {:induction false} M2Honest(cfg: A.Config, m: Mac, a: A.State, f: EapolKey, rsnMatches: bool)
    requires m in a.stations
    ensures Honest(ChangeAt(a, A.HandleM2(cfg, a, m, a.stations[m], f, rsnMatches), m, false))
  {
    hide A.StationPtk, A.ThirdMessage, A.Retain, A.MatchingPmk, A.M2Expected, A.NextReplay, A.Credentials, A.M2OciAccepted;
    var s := a.stations[m];
    var r := A.HandleM2(cfg, a, m, s, f, rsnMatches);
    var pmk := A.MatchingPmk(cfg, m, s, A.Credentials(cfg, m, s), f);
    if pmk.Some? && r == A.IssueM3(cfg, a, m, s, pmk.value, f.body.nonce) {
      assert r.out[1].Sent? && r.out[1].to == m;
    }
  }

  lemma {:induction false} M4Honest(cfg: A.Config, m: Mac, a: A.State, f: EapolKey)
    requires m in a.stations
    ensures Honest(ChangeAt(a, A.HandleM4(cfg, a, m, a.stations[m], f), m, false))
  {
    hide A.SelectCandidate;
  }

  lemma {:induction false} EapolHonest(cfg: A.Config, m: Mac, a: A.State, f: EapolKey, rsnMatches: bool)
    ensures Honest(ChangeAt(a, A.HandleEapol(cfg, a, m, f, rsnMatches), m, false))
  {
    hide A.HandleM2, A.HandleM4;
    if m in a.stations {
      M2Honest(cfg, m, a, f, rsnMatches);
      M4Honest(cfg, m, a, f);
    }
  }

  lemma {:induction false} ReceiveHonest(m: Mac, a: A.State, d: A.UplinkFrame, f: A.MgmtFrame)
    ensures Honest(ChangeAt(a, A.HandleData(a, m, d), m, false))
    ensures Honest(ChangeAt(a, A.HandleDeauth(a, m, f), m, false))
  {
  }

  lemma {:induction false} AcceptWaits(m: Mac, a: A.State, f: A.MgmtFrame)
    requires A.MgmtOpens(a, m, f)
    ensures m in a.stations && LeavesWait(a, A.AcceptMgmt(a, m, f), m)
  {
  }

  lemma {:induction false} BothWait(m: Mac, a: A.State, r: A.Step, t: A.Step)
    requires LeavesWait(a, r, m) && LeavesWait(r.s, t, m)
    ensures LeavesWait(a, A.Step(t.s, r.out + t.out), m)
  {
  }

  lemma {:induction false} ActionHonest(m: Mac, a: A.State, f: A.MgmtFrame)
    ensures Honest(ChangeAt(a, A.HandleAction(a, m, f), m, false))
  {
    hide A.SealNext, A.AcceptMgmt, Honest, ChangeAt, A.MgmtOpens;
    if A.MgmtOpens(a, m, f) {
      var r := A.AcceptMgmt(a, m, f);
      AcceptWaits(m, a, f);
      match f.content {
        case SaQueryRequest(id) =>
          SealWaits(m, r.s, SaQueryResponse(id));
          BothWait(m, a, r, A.SealNext(r.s, m, SaQueryResponse(id)));
        case _ =>
      }
    }
    LeavesWaitHonest(m, a, A.HandleAction(a, m, f));
  }

  // The retry timer itself is the tick's; everything else that concerns one station.
  predicate OneStation(e: A.Event) {
    R.EventStation(e).Some? && !e.RetryTimer?
  }

  predicate Cancelling(a: A.State, e: A.Event) {
    e.NotAcked? && e.sta in a.stations
  }

  lemma {:induction false} HandleHonest(cfg: A.Config, a: A.State, e: A.Event)
    requires OneStation(e)
    ensures Honest(ChangeAt(a, A.Handle(cfg, a, e), R.EventStation(e).value, Cancelling(a, e)))
  {
    hide A.HandleAuth, A.HandleAssoc, A.HandleEapol, A.HandleData, A.HandleDeauth, A.HandleAction, A.SealNext, A.SaeCommitFinished,
         A.SaeConfirmFinished, Honest, ChangeAt;
    match e {
      case AuthReceived(m, sae, now, gtk, igtk) => AuthHonest(m, a, sae, now, gtk, igtk);
      case SaeCommitDone(m, _, _, _, _, _) => SaeHonest(cfg, m, a, e);
      case SaeConfirmDone(m, _, _) => SaeHonest(cfg, m, a, e);
      case AssocReceived(m, q, now, random, gtk, igtk) => AssocHonest(cfg, m, a, q, now, random, gtk, igtk);
      case EapolReceived(m, f, rsnMatches) => EapolHonest(cfg, m, a, f, rsnMatches);
      case DataReceived(m, d) => ReceiveHonest(m, a, d, A.MgmtFrame(false, false, None, Unknown, OtherAction));
      case MgmtReceived(m, f) =>
        ReceiveHonest(m, a, A.UplinkFrame(true, 0, None, 0, Unknown, 0, false), f);
        ActionHonest(m, a, f);
      case ToStation(m, c) =>
        SealWaits(m, a, c);
        LeavesWaitHonest(m, a, A.SealNext(a, m, c));
      case NotAcked(m) => NotAckedHonest(cfg, m, a);
      case Dropped(m) => DroppedHonest(cfg, m, a);
    }
  }

  lemma {:induction false} NotAckedHonest(cfg: A.Config, m: Mac, a: A.State)
    ensures Honest(ChangeAt(a, A.Handle(cfg, a, A.NotAcked(m)), m, m in a.stations))
  {
  }

  lemma {:induction false} DroppedHonest(cfg: A.Config, m: Mac, a: A.State)
    ensures Honest(ChangeAt(a, A.Handle(cfg, a, A.Dropped(m)), m, false))
  {
  }

  lemma {:induction false} OneStationTracks(cfg: A.Config, w: World, e: A.Event, now: nat)
    requires Tracks(w.a, w.t) && T.Inv(w.t) && OneStation(e)
    ensures var r, m := A.Handle(cfg, w.a, e), R.EventStation(e).value;
            var t := Tell(w.t, m, ChangeAt(w.a, r, m, Cancelling(w.a, e)), now);
            Tracks(r.s, t) && T.Inv(t)
  {
    hide A.Handle, Tracks, T.Inv, Tell, Honest, ChangeAt, Cancelling;
    var r, m := A.Handle(cfg, w.a, e), R.EventStation(e).value;
    forall n: Mac | n != m ensures R.At(r.s, n) == R.At(w.a, n)
    {
      R.HandleElsewhere(cfg, n, w.a, e);
    }
    HandleHonest(cfg, w.a, e);
    StepTracks(w.a, r, w.t, m, Cancelling(w.a, e), now);
    TellKeeps(w.t, m, ChangeAt(w.a, r, m, Cancelling(w.a, e)), now);
  }

  // ---- group rekey and maintenance -------------------------------------------------------------------

  function TellRekey(cfg: A.Config, a: A.State, t: T.State, ts: seq<A.Target>, now: nat): T.State
    decreases |ts|
  {
    if ts == [] then t else
      var r := A.RekeyStation(cfg, a, ts[0]);
      TellRekey(cfg, r.s, Tell(t, ts[0].sta, ChangeAt(a, r, ts[0].sta, false), now), ts[1..], now)
  }

  lemma {:induction false} RekeyStationHonest(cfg: A.Config, a: A.State, t: A.Target)
    ensures var r := A.RekeyStation(cfg, a, t);
            Honest(ChangeAt(a, r, t.sta, false)) && forall n: Mac :: n != t.sta ==> R.At(r.s, n) == R.At(a, n)
  {
    hide A.GroupDelivery, A.NextReplay, A.Toggle;
    var r := A.RekeyStation(cfg, a, t);
    if r.out != [] {
      assert r.out[0].Sent? && r.out[0] in r.out;
    }
  }

  lemma {:induction false} RekeyTracks(cfg: A.Config, a: A.State, t: T.State, ts: seq<A.Target>, now: nat)
    requires Tracks(a, t) && T.Inv(t)
    ensures var u := TellRekey(cfg, a, t, ts, now); Tracks(A.RekeyStations(cfg, a, ts).s, u) && T.Inv(u)
    decreases |ts|
  {
    hide A.RekeyStation, Tracks, T.Inv, Tell, Honest, ChangeAt;
    if ts != [] {
      var r, m := A.RekeyStation(cfg, a, ts[0]), ts[0].sta;
      RekeyStationHonest(cfg, a, ts[0]);
      StepTracks(a, r, t, m, false, now);
      TellKeeps(t, m, ChangeAt(a, r, m, false), now);
      RekeyTracks(cfg, r.s, Tell(t, m, ChangeAt(a, r, m, false), now), ts[1..], now);
    }
  }

  lemma {:induction false} RotatedTracks(cfg: A.Config, a: A.State, t: T.State, gtk: GroupKey, igtk: GroupKey)
    requires Tracks(a, t)
    ensures Tracks(A.RotateGroup(cfg, a, gtk, igtk), t)
  {
    var b := A.RotateGroup(cfg, a, gtk, igtk);
    forall m: Mac ensures TracksAt(R.At(b, m), t, m)
    {
      assert R.At(b, m) == R.At(a, m);
    }
  }

  function Silent(a: A.State, at: nat): set<Mac> {
    set m | m in a.stations && A.QueryExpired(a.stations[m], at)
  }

  lemma {:induction false} MaintainTracks(a: A.State, t: T.State, at: nat)
    requires Tracks(a, t) && T.Inv(t)
    ensures Tracks(A.Maintain(a, at), T.Leave(t, Silent(a, at))) && T.Inv(T.Leave(t, Silent(a, at)))
  {
    hide A.QueryExpired, Matches, A.DropExpired;
    var b, u := A.Maintain(a, at), T.Leave(t, Silent(a, at));
    forall m: Mac ensures TracksAt(R.At(b, m), u, m)
    {
      assert TracksAt(R.At(a, m), t, m);
    }
    T.HandleKeeps(t, T.Leaves(Silent(a, at)));
  }

  // ---- ticks ---------------------------------------------------------------------------------------------

  // What a tick does with a station, as an event of the authenticator.
  function Action(o: T.Out): A.Event {
    match o
    case Retransmitted(m) => A.RetryTimer(m)
    case DeauthSent(m) => A.Dropped(m)
  }

  function Actions(out: seq<T.Out>): seq<A.Event> {
    if out == [] then [] else [Action(out[0])] + Actions(out[1..])
  }

  function AfterTick(cfg: A.Config, a: A.State, out: seq<T.Out>): A.State
    decreases |out|
  {
    if out == [] then a else AfterTick(cfg, A.Handle(cfg, a, Action(out[0])).s, out[1..])
  }

  predicate PendingAt(a: A.State, m: Mac) {
    m in a.stations && a.stations[m].pendingEapol.Some?
  }

  // Each station that a tick acts on is there, with a message pending, when it does.
  predicate FindsPending(cfg: A.Config, a: A.State, out: seq<T.Out>)
    decreases |out|
  {
    out == [] ||
    (PendingAt(a, out[0].mac) && FindsPending(cfg, A.Handle(cfg, a, Action(out[0])).s, out[1..]))
  }

  lemma {:induction false} FireActs(cfg: A.Config, a: A.State, t: T.State, now: nat)
    requires Tracks(a, t) && t.heap != []
    ensures var f := T.Fire(t, now);
            && |f.1| <= 1
            && (f.1 == [] ==> Tracks(a, f.0))
            && (f.1 != [] ==> PendingAt(a, f.1[0].mac) && Tracks(A.Handle(cfg, a, Action(f.1[0])).s, f.0))
  {
    hide T.Push;
    var f, m := T.Fire(t, now), t.heap[0].mac;
    var b := if f.1 == [] then a else A.Handle(cfg, a, Action(f.1[0])).s;
    assert TracksAt(R.At(a, m), t, m);
    forall n: Mac ensures TracksAt(R.At(b, n), f.0, n)
    {
      assert TracksAt(R.At(a, n), t, n);
    }
  }

  lemma {:induction false} DrainTracks(cfg: A.Config, a: A.State, t: T.State, now: nat)
    requires Tracks(a, t)
    ensures var r := T.Drain(t, now); FindsPending(cfg, a, r.1) && Tracks(AfterTick(cfg, a, r.1), r.0)
    decreases T.DueCount(t.heap, now)
  {
    hide T.Fire, Tracks, PendingAt, A.Handle;
    if t.heap != [] && t.heap[0].deadline <= now {
      var f := T.Fire(t, now);
      T.FireShrinks(t, now);
      FireActs(cfg, a, t, now);
      var rest := T.Drain(f.0, now);
      if f.1 == [] {
        DrainTracks(cfg, a, f.0, now);
        assert f.1 + rest.1 == rest.1;
      } else {
        DrainTracks(cfg, A.Handle(cfg, a, Action(f.1[0])).s, f.0, now);
        assert (f.1 + rest.1)[1..] == rest.1 && (f.1 + rest.1)[0] == f.1[0];
      }
    }
  }

  // ---- runs of the authenticator and its timers ----------------------------------------------------------------

  function TimersAfter(cfg: A.Config, w: World, e: A.Event, now: nat): T.State {
    match e
    case RekeyTimer(gtk, igtk, ts) =>
      if exists m :: m in w.a.stations && w.a.stations[m].groupRekeying then w.t
      else TellRekey(cfg, A.RotateGroup(cfg, w.a, gtk, igtk), w.t, ts, now)
    case Maintenance(at) => T.Leave(w.t, Silent(w.a, at))
    case _ =>
      if !OneStation(e) then w.t else
        var m := R.EventStation(e).value;
        Tell(w.t, m, ChangeAt(w.a, A.Handle(cfg, w.a, e), m, Cancelling(w.a, e)), now)
  }

  // A step, and the authenticator's events it amounts to.
  function Next(cfg: A.Config, w: World, e: Event): (World, seq<A.Event>) {
    match e
    case Happens(event, now) => (World(A.Handle(cfg, w.a, event).s, TimersAfter(cfg, w, event, now)), [event])
    case Tick(now) =>
      var r := T.Drain(w.t, now);
      (World(AfterTick(cfg, w.a, r.1), r.0), Actions(r.1))
    case Acked(m, now) => (World(w.a, T.NoteAcked(w.t, m, now)), [])
    case Transmitted(m, now) => (World(w.a, T.NoteTransmitted(w.t, m, now)), [])
  }

  function Run(cfg: A.Config, w: World, es: seq<Event>): (World, seq<A.Event>) {
    if es == [] then (w, []) else
      var before := Run(cfg, w, es[..|es| - 1]);
      var n := Next(cfg, before.0, es[|es| - 1]);
      (n.0, before.1 + n.1)
  }

  ghost predicate Synchronized(w: World) {
    Tracks(w.a, w.t) && T.Inv(w.t)
  }

  lemma {:induction false} HappensKeeps(cfg: A.Config, w: World, e: A.Event, now: nat)
    requires Synchronized(w)
    ensures Synchronized(World(A.Handle(cfg, w.a, e).s, TimersAfter(cfg, w, e, now)))
  {
    hide Tracks, T.Inv, Tell, TellRekey;
    if OneStation(e) {
      hide A.Handle;
      OneStationTracks(cfg, w, e, now);
    } else {
      match e {
        case RekeyTimer(gtk, igtk, ts) =>
          RotatedTracks(cfg, w.a, w.t, gtk, igtk);
          RekeyTracks(cfg, A.RotateGroup(cfg, w.a, gtk, igtk), w.t, ts, now);
        case Maintenance(at) => MaintainTracks(w.a, w.t, at);
        case ToGroup(octets) => SealGroupTracks(w.a, w.t, octets);
        case RetryTimer(m) =>
      }
    }
  }

  lemma {:induction false} SealGroupTracks(a: A.State, t: T.State, octets: nat)
    requires Tracks(a, t)
    ensures Tracks(A.SealGroup(a, octets).s, t)
  {
    forall m: Mac ensures TracksAt(R.At(A.SealGroup(a, octets).s, m), t, m)
    {
      assert TracksAt(R.At(a, m), t, m);
    }
  }

  lemma {:induction false} NoteTracks(a: A.State, t: T.State, m: Mac, now: nat)
    requires Tracks(a, t)
    ensures Tracks(a, T.NoteAcked(t, m, now)) && Tracks(a, T.NoteTransmitted(t, m, now))
  {
    hide T.Push;
    forall n: Mac ensures TracksAt(R.At(a, n), T.NoteAcked(t, m, now), n) && TracksAt(R.At(a, n), T.NoteTransmitted(t, m, now), n)
    {
      assert TracksAt(R.At(a, n), t, n);
    }
  }

  lemma {:induction false} NextKeeps(cfg: A.Config, w: World, e: Event)
    requires Synchronized(w)
    ensures Synchronized(Next(cfg, w, e).0)
  {
    hide Tracks, T.Inv, TimersAfter, A.Handle;
    match e {
      case Happens(event, now) => HappensKeeps(cfg, w, event, now);
      case Tick(now) =>
        DrainTracks(cfg, w.a, w.t, now);
        T.HandleKeeps(w.t, T.Tick(now));
      case Acked(m, now) =>
        NoteTracks(w.a, w.t, m, now);
        T.HandleKeeps(w.t, T.Acked(m, now));
      case Transmitted(m, now) =>
        NoteTracks(w.a, w.t, m, now);
        T.HandleKeeps(w.t, T.Transmitted(m, now));
    }
  }

  lemma {:induction false} RunThen(cfg: A.Config, a: A.State, es: seq<A.Event>, fs: seq<A.Event>)
    ensures A.RunFrom(cfg, a, es + fs).s == A.RunFrom(cfg, A.RunFrom(cfg, a, es).s, fs).s
  {
    hide A.Handle;
    if fs == [] {
      assert es + fs == es;
    } else {
      var all := es + fs;
      assert all[..|all| - 1] == es + fs[..|fs| - 1] && all[|all| - 1] == fs[|fs| - 1];
      RunThen(cfg, a, es, fs[..|fs| - 1]);
    }
  }

  lemma {:induction false} RunOne(cfg: A.Config, a: A.State, e: A.Event)
    ensures A.RunFrom(cfg, a, [e]).s == A.Handle(cfg, a, e).s
  {
    hide A.Handle;
    assert [e][..0] == [];
  }

  lemma {:induction false} ActionsRun(cfg: A.Config, a: A.State, out: seq<T.Out>)
    ensures A.RunFrom(cfg, a, Actions(out)).s == AfterTick(cfg, a, out)
    decreases |out|
  {
    hide A.Handle, A.RunFrom;
    if out == [] {
      NoEvents(cfg, a);
    } else {
      var e := Action(out[0]);
      RunOne(cfg, a, e);
      RunThen(cfg, a, [e], Actions(out[1..]));
      ActionsRun(cfg, A.Handle(cfg, a, e).s, out[1..]);
    }
  }

  function Start(replay: nat, gtk: GroupKey, igtk: GroupKey): World {
    World(A.Initial(replay, gtk, igtk), T.State(map[], []))
  }

  // The timers change nothing of what the authenticator does: its part of a run is a run of
  // its own, in which each tick's retransmissions and disconnections are events.
  lemma {:induction false} RunProjects(cfg: A.Config, w: World, es: seq<Event>)
    ensures var r := Run(cfg, w, es); r.0.a == A.RunFrom(cfg, w.a, r.1).s
  {
    hide A.Handle, A.RunFrom, TimersAfter, AfterTick, Actions;
    if es == [] {
      NoEvents(cfg, w.a);
    } else {
      var front, e := es[..|es| - 1], es[|es| - 1];
      RunProjects(cfg, w, front);
      var b := Run(cfg, w, front);
      RunThen(cfg, w.a, b.1, Next(cfg, b.0, e).1);
      match e {
        case Happens(event, now) => RunOne(cfg, b.0.a, event);
        case Tick(now) => ActionsRun(cfg, b.0.a, T.Drain(b.0.t, now).1);
        case _ => NoEvents(cfg, b.0.a);
      }
    }
  }

  lemma {:induction false} NoEvents(cfg: A.Config, a: A.State)
    ensures A.RunFrom(cfg, a, []).s == a
  {
  }

  lemma {:induction false} RunKeeps(cfg: A.Config, w: World, es: seq<Event>)
    requires Synchronized(w)
    ensures Synchronized(Run(cfg, w, es).0)
  {
    hide Synchronized, Next;
    if es != [] {
      RunKeeps(cfg, w, es[..|es| - 1]);
      NextKeeps(cfg, Run(cfg, w, es[..|es| - 1]).0, es[|es| - 1]);
    }
  }

  // In every reachable state exactly the stations with a message pending are armed: each has
  // its deadline in the heap, under its current generation, and at most the limit of retries.
  lemma {:induction false} PendingIsArmed(cfg: A.Config, replay: nat, gtk: GroupKey, igtk: GroupKey, es: seq<Event>, m: Mac)
    ensures var w := Run(cfg, Start(replay, gtk, igtk), es).0;
            && (PendingAt(w.a, m) <==> m in w.t.stations && w.t.stations[m].pending)
            && (PendingAt(w.a, m) ==>
                  && T.Entry(T.Due(w.t.stations[m]), w.t.stations[m].generation, m) in w.t.heap
                  && w.t.stations[m].retries <= T.MAX_RETRIES)
  {
    hide Run;
    RunKeeps(cfg, Start(replay, gtk, igtk), es);
    var w := Run(cfg, Start(replay, gtk, igtk), es).0;
    assert TracksAt(R.At(w.a, m), w.t, m);
  }

  // A tick acts only on stations with a message pending, and leaves none of them overdue.
  lemma {:induction false} TickActs(cfg: A.Config, w: World, now: nat, m: Mac)
    requires Synchronized(w)
    ensures FindsPending(cfg, w.a, T.Drain(w.t, now).1)
    ensures var v := Next(cfg, w, Tick(now)).0;
            PendingAt(v.a, m) ==> m in v.t.stations && now < T.Due(v.t.stations[m])
  {
    hide FindsPending, AfterTick, Actions;
    DrainTracks(cfg, w.a, w.t, now);
    T.TickLeavesNoneDue(w.t, now, m);
    var v := Next(cfg, w, Tick(now)).0;
    hide T.Drain;
    assert TracksAt(R.At(v.a, m), v.t, m);
  }

  // ---- the timers' part of a run --------------------------------------------------------------------------

  // What Tell does, as events of the timers.
  function Told(m: Mac, c: Change, now: nat): seq<T.Event> {
    if c.after.None? then (if c.before.None? then [] else [T.Leaves({m})]) else
      var s := c.after.value;
      (if c.before.None? then [T.Joins(m, now)] else [])
      + (if c.sent then [T.Sends(m, now, s.awaitingM4, s.groupRekeying)]
         else if c.cancelled then [T.Cancels(m)]
         else if s.pendingEapol.None? then [T.Settles(m, s.awaitingM4, s.groupRekeying)]
         else [])
  }

  function RekeyTold(cfg: A.Config, a: A.State, ts: seq<A.Target>, now: nat): seq<T.Event>
    decreases |ts|
  {
    if ts == [] then [] else
      var r := A.RekeyStation(cfg, a, ts[0]);
      Told(ts[0].sta, ChangeAt(a, r, ts[0].sta, false), now) + RekeyTold(cfg, r.s, ts[1..], now)
  }

  function ToldOf(cfg: A.Config, w: World, e: A.Event, now: nat): seq<T.Event> {
    match e
    case RekeyTimer(gtk, igtk, ts) =>
      if exists m :: m in w.a.stations && w.a.stations[m].groupRekeying then []
      else RekeyTold(cfg, A.RotateGroup(cfg, w.a, gtk, igtk), ts, now)
    case Maintenance(at) => [T.Leaves(Silent(w.a, at))]
    case _ =>
      if !OneStation(e) then [] else
        var m := R.EventStation(e).value;
        Told(m, ChangeAt(w.a, A.Handle(cfg, w.a, e), m, Cancelling(w.a, e)), now)
  }

  // What reaches the timers directly.
  function Clock(e: Event): seq<T.Event> {
    match e
    case Happens(_, _) => []
    case Tick(now) => [T.Tick(now)]
    case Acked(m, now) => [T.Acked(m, now)]
    case Transmitted(m, now) => [T.Transmitted(m, now)]
  }

  function ClockOf(es: seq<Event>): seq<T.Event> {
    if es == [] then [] else ClockOf(es[..|es| - 1]) + Clock(es[|es| - 1])
  }

  function TimerEvents(cfg: A.Config, w: World, e: Event): seq<T.Event> {
    if e.Happens? then ToldOf(cfg, w, e.event, e.now) else Clock(e)
  }

  function TimerRun(cfg: A.Config, w: World, es: seq<Event>): seq<T.Event> {
    if es == [] then []
    else TimerRun(cfg, w, es[..|es| - 1]) + TimerEvents(cfg, Run(cfg, w, es[..|es| - 1]).0, es[|es| - 1])
  }

  lemma {:induction false} TimersThen(t: T.State, es: seq<T.Event>, fs: seq<T.Event>)
    ensures T.Run(t, es + fs).0 == T.Run(T.Run(t, es).0, fs).0
  {
    hide T.Handle;
    if fs == [] {
      assert es + fs == es;
    } else {
      var all := es + fs;
      assert all[..|all| - 1] == es + fs[..|fs| - 1] && all[|all| - 1] == fs[|fs| - 1];
      TimersThen(t, es, fs[..|fs| - 1]);
    }
  }

  lemma {:induction false} TimersOne(t: T.State, e: T.Event)
    ensures T.Run(t, [e]).0 == T.Handle(t, e).0
  {
    hide T.Handle;
    assert [e][..0] == [];
  }

  lemma {:induction false} StayingIsTold(t: T.State, m: Mac, c: Change, now: nat)
    requires c.before.Some? && c.after.Some?
    ensures Tell(t, m, c, now) == T.Run(t, Told(m, c, now)).0
  {
    hide T.Run, T.Send, T.Cancel, T.Settle;
    var s := c.after.value;
    NoTimers(t);
    TimersOne(t, T.Sends(m, now, s.awaitingM4, s.groupRekeying));
    TimersOne(t, T.Cancels(m));
    TimersOne(t, T.Settles(m, s.awaitingM4, s.groupRekeying));
    assert Told(m, c, now) == if c.sent then [T.Sends(m, now, s.awaitingM4, s.groupRekeying)]
                              else if c.cancelled then [T.Cancels(m)]
                              else if s.pendingEapol.None? then [T.Settles(m, s.awaitingM4, s.groupRekeying)]
                              else [];
  }

  lemma {:induction false} TellIsTold(t: T.State, m: Mac, c: Change, now: nat)
    ensures Tell(t, m, c, now) == T.Run(t, Told(m, c, now)).0
  {
    hide T.Run, T.Join, T.Send, T.Cancel, T.Settle, T.Leave;
    NoTimers(t);
    if c.after.None? {
      TimersOne(t, T.Leaves({m}));
    } else if c.before.Some? {
      StayingIsTold(t, m, c, now);
    } else {
      var stays := c.(before := c.after);
      TimersOne(t, T.Joins(m, now));
      StayingIsTold(T.Join(t, m, now), m, stays, now);
      TimersThen(t, [T.Joins(m, now)], Told(m, stays, now));
      assert Told(m, c, now) == [T.Joins(m, now)] + Told(m, stays, now);
    }
  }

  lemma {:induction false} NoTimers(t: T.State)
    ensures T.Run(t, []).0 == t
  {
  }

  lemma {:induction false} RekeyIsTold(cfg: A.Config, a: A.State, t: T.State, ts: seq<A.Target>, now: nat)
    ensures TellRekey(cfg, a, t, ts, now) == T.Run(t, RekeyTold(cfg, a, ts, now)).0
    decreases |ts|
  {
    hide T.Run, Tell, Told, A.RekeyStation, ChangeAt;
    if ts == [] {
      NoTimers(t);
    } else {
      var r, m := A.RekeyStation(cfg, a, ts[0]), ts[0].sta;
      var c := ChangeAt(a, r, m, false);
      TellIsTold(t, m, c, now);
      RekeyIsTold(cfg, r.s, Tell(t, m, c, now), ts[1..], now);
      TimersThen(t, Told(m, c, now), RekeyTold(cfg, r.s, ts[1..], now));
    }
  }

  lemma {:induction false} NextIsTold(cfg: A.Config, w: World, e: Event)
    ensures Next(cfg, w, e).0.t == T.Run(w.t, TimerEvents(cfg, w, e)).0
  {
    hide T.Run, Tell, Told, TellRekey, RekeyTold, A.Handle, AfterTick, Actions, ChangeAt, T.Drain, T.NoteAcked, T.NoteTransmitted;
    NoTimers(w.t);
    match e {
      case Happens(event, now) =>
        if OneStation(event) {
          var m := R.EventStation(event).value;
          TellIsTold(w.t, m, ChangeAt(w.a, A.Handle(cfg, w.a, event), m, Cancelling(w.a, event)), now);
        } else if event.RekeyTimer? {
          RekeyIsTold(cfg, A.RotateGroup(cfg, w.a, event.gtk, event.igtk), w.t, event.targets, now);
        } else if event.Maintenance? {
          TimersOne(w.t, T.Leaves(Silent(w.a, event.now)));
        }
      case Tick(now) => TimersOne(w.t, T.Tick(now));
      case Acked(m, now) => TimersOne(w.t, T.Acked(m, now));
      case Transmitted(m, now) => TimersOne(w.t, T.Transmitted(m, now));
    }
  }

  // And the timers' part of a run is a run of the timers alone, in which each handler's effect
  // on them is a few of their events.
  lemma {:induction false} TimersProject(cfg: A.Config, w: World, es: seq<Event>)
    ensures Run(cfg, w, es).0.t == T.Run(w.t, TimerRun(cfg, w, es)).0
  {
    hide T.Run, Next, TimerEvents;
    if es == [] {
      NoTimers(w.t);
    } else {
      var front := es[..|es| - 1];
      TimersProject(cfg, w, front);
      NextIsTold(cfg, Run(cfg, w, front).0, es[|es| - 1]);
      TimersThen(w.t, TimerRun(cfg, w, front), TimerEvents(cfg, Run(cfg, w, front).0, es[|es| - 1]));
    }
  }

  // ---- a handler tells no time -------------------------------------------------------------------------------

  predicate Timeless(es: seq<T.Event>) {
    forall e :: e in es ==> !e.Tick? && !e.Acked?
  }

  lemma {:induction false} RekeyTimeless(cfg: A.Config, a: A.State, ts: seq<A.Target>, now: nat)
    ensures Timeless(RekeyTold(cfg, a, ts, now))
    decreases |ts|
  {
    hide A.RekeyStation, ChangeAt;
    if ts != [] {
      RekeyTimeless(cfg, A.RekeyStation(cfg, a, ts[0]).s, ts[1..], now);
    }
  }

  lemma {:induction false} ToldTimeless(cfg: A.Config, w: World, e: A.Event, now: nat)
    ensures Timeless(ToldOf(cfg, w, e, now))
  {
    hide A.Handle, ChangeAt, RekeyTold;
    if e.RekeyTimer? {
      RekeyTimeless(cfg, A.RotateGroup(cfg, w.a, e.gtk, e.igtk), e.targets, now);
    }
  }

  // The clock of two event sequences is the same.
  predicate SameClock(m: Mac, past: bool, from: nat, gap: nat, due: nat, es: seq<T.Event>, fs: seq<T.Event>) {
    && T.Latest(m, past, from, es) == T.Latest(m, past, from, fs)
    && T.Forward(m, past, from, es) == T.Forward(m, past, from, fs)
    && T.Waited(m, past, due, es) == T.Waited(m, past, due, fs)
    && T.Polled(m, past, from, gap, es) == T.Polled(m, past, from, gap, fs)
  }

  lemma {:induction false} TimelessClock(m: Mac, past: bool, from: nat, gap: nat, due: nat, es: seq<T.Event>, fs: seq<T.Event>)
    requires Timeless(fs)
    ensures SameClock(m, past, from, gap, due, es + fs, es)
  {
    if fs == [] {
      assert es + fs == es;
    } else {
      var all, front := es + fs, fs[..|fs| - 1];
      assert all[..|all| - 1] == es + front && all[|all| - 1] == fs[|fs| - 1];
      TimelessClock(m, past, from, gap, due, es, front);
    }
  }

  lemma {:induction false} OneMore(m: Mac, past: bool, from: nat, gap: nat, due: nat, es: seq<T.Event>, fs: seq<T.Event>, e: T.Event)
    requires SameClock(m, past, from, gap, due, es, fs)
    ensures SameClock(m, past, from, gap, due, es + [e], fs + [e])
  {
    assert (es + [e])[..|es + [e]| - 1] == es && (fs + [e])[..|fs + [e]| - 1] == fs;
  }

  // The timers' run has the clock of the ticks and reports themselves.
  lemma {:induction false} RunClock(cfg: A.Config, w: World, es: seq<Event>, m: Mac, past: bool, from: nat, gap: nat, due: nat)
    ensures SameClock(m, past, from, gap, due, TimerRun(cfg, w, es), ClockOf(es))
  {
    hide SameClock, ToldOf, Run, Timeless;
    if es == [] {
      SameRefl(m, past, from, gap, due, []);
    } else {
      var front, e := es[..|es| - 1], es[|es| - 1];
      var b := Run(cfg, w, front).0;
      var ts, cs := TimerRun(cfg, w, front), ClockOf(front);
      RunClock(cfg, w, front, m, past, from, gap, due);
      if e.Happens? {
        ToldTimeless(cfg, b, e.event, e.now);
        TimelessClock(m, past, from, gap, due, ts, ToldOf(cfg, b, e.event, e.now));
        assert cs + [] == cs;
        SameTrans(m, past, from, gap, due, ts + ToldOf(cfg, b, e.event, e.now), ts, cs);
      } else {
        OneMore(m, past, from, gap, due, ts, cs, Clock(e)[0]);
        assert Clock(e) == [Clock(e)[0]];
      }
    }
  }

  lemma {:induction false} SameRefl(m: Mac, past: bool, from: nat, gap: nat, due: nat, es: seq<T.Event>)
    ensures SameClock(m, past, from, gap, due, es, es)
  {
  }

  lemma {:induction false} SameTrans(m: Mac, past: bool, from: nat, gap: nat, due: nat, a: seq<T.Event>, b: seq<T.Event>, c: seq<T.Event>)
    requires SameClock(m, past, from, gap, due, a, b) && SameClock(m, past, from, gap, due, b, c)
    ensures SameClock(m, past, from, gap, due, a, c)
  {
  }

  // ---- a station that never answers ----------------------------------------------------------------------------

  // No answer of m's and nothing that starts its wait anew. Its data, management frames and
  // link acknowledgements are not answers; a group rekey passes it by when it is not
  // associated, has one outstanding, or is not among those rekeyed.
  predicate Unanswered(m: Mac, s: A.Station, e: Event) {
    match e
    case Tick(_) => true
    case Acked(_, _) => true
    case Transmitted(sta, _) => sta != m
    case Happens(event, _) =>
      match event
      case RekeyTimer(_, _, ts) => s.associated && !s.groupRekeying ==> forall t :: t in ts ==> t.sta != m
      case AuthReceived(sta, _, _, _, _) => sta != m
      case SaeCommitDone(sta, _, _, _, _, _) => sta != m
      case SaeConfirmDone(sta, _, _) => sta != m
      case AssocReceived(sta, _, _, _, _, _) => sta != m
      case EapolReceived(sta, _, _) => sta != m
      case NotAcked(sta) => sta != m
      case _ => true
  }

  // What can remove it other than its timer: its own deauthentication, an SA Query it does not
  // answer either, the host.
  predicate MayRemove(m: Mac, s: A.Station, e: Event) {
    match e
    case Happens(event, _) =>
      (match event
       case MgmtReceived(sta, f) => sta == m && !f.action
       case Maintenance(at) => A.QueryExpired(s, at)
       case Dropped(sta) => sta == m
       case _ => false)
    case _ => false
  }

  // What the wait of m is about has not changed, if m is still there.
  predicate StillWaits(s: A.Station, a: A.State, m: Mac) {
    m in a.stations ==>
      var t := a.stations[m];
      SameWait(s, t) && t.associated == s.associated && (t.saQuery == s.saQuery || t.saQuery.None?)
  }

  predicate Undisturbed(s: A.Station, a: A.State, r: A.Step, m: Mac) {
    && !Transmits(m, r.out) && StillWaits(s, r.s, m)
    && (m in r.s.stations ==> m in a.stations)
  }

  lemma {:induction false} DataUndisturbed(s: A.Station, a: A.State, m: Mac, d: A.UplinkFrame, c: Content)
    requires StillWaits(s, a, m)
    ensures Undisturbed(s, a, A.HandleData(a, m, d), m) && (m in a.stations ==> m in A.HandleData(a, m, d).s.stations)
    ensures Undisturbed(s, a, A.SealNext(a, m, c), m) && (m in a.stations ==> m in A.SealNext(a, m, c).s.stations)
  {
  }

  lemma {:induction false} DeauthUndisturbed(s: A.Station, a: A.State, m: Mac, f: A.MgmtFrame)
    requires StillWaits(s, a, m)
    ensures Undisturbed(s, a, A.HandleDeauth(a, m, f), m)
  {
  }

  lemma {:induction false} AcceptUndisturbed(s: A.Station, a: A.State, m: Mac, f: A.MgmtFrame)
    requires StillWaits(s, a, m) && A.MgmtOpens(a, m, f)
    ensures var r := A.AcceptMgmt(a, m, f); Undisturbed(s, a, r, m) && m in a.stations && m in r.s.stations
  {
  }

  lemma {:induction false} ActionUndisturbed(s: A.Station, a: A.State, m: Mac, f: A.MgmtFrame)
    requires StillWaits(s, a, m)
    ensures var r := A.HandleAction(a, m, f); Undisturbed(s, a, r, m) && (m in a.stations ==> m in r.s.stations)
  {
    hide A.SealNext, A.AcceptMgmt, A.MgmtOpens;
    if A.MgmtOpens(a, m, f) {
      var r := A.AcceptMgmt(a, m, f);
      AcceptUndisturbed(s, a, m, f);
      if f.content.SaQueryRequest? {
        DataUndisturbed(s, r.s, m, A.UplinkFrame(true, 0, None, 0, Unknown, 0, false), SaQueryResponse(f.content.id));
      }
    }
  }

  // An event of m's that is no answer.
  lemma {:induction false} OwnUndisturbed(cfg: A.Config, s: A.Station, w: World, m: Mac, e: A.Event, now: nat)
    requires StillWaits(s, w.a, m) && OneStation(e) && R.EventStation(e).value == m && Unanswered(m, s, Happens(e, now))
    ensures var r := A.Handle(cfg, w.a, e);
            && Undisturbed(s, w.a, r, m) && !Cancelling(w.a, e)
            && (!MayRemove(m, s, Happens(e, now)) && m in w.a.stations ==> m in r.s.stations)
  {
    hide A.HandleAction, A.HandleDeauth, A.HandleData, A.SealNext;
    match e {
      case DataReceived(_, d) => DataUndisturbed(s, w.a, m, d, OtherAction);
      case ToStation(_, c) => DataUndisturbed(s, w.a, m, A.UplinkFrame(true, 0, None, 0, Unknown, 0, false), c);
      case MgmtReceived(_, f) =>
        ActionUndisturbed(s, w.a, m, f);
        DeauthUndisturbed(s, w.a, m, f);
      case Dropped(_) =>
    }
  }

  predicate LeavesAlone(m: Mac, es: seq<T.Event>) {
    forall e :: e in es ==> T.Unanswered(m, e)
  }

  predicate NoneRemoves(m: Mac, es: seq<T.Event>) {
    forall e :: e in es ==> !T.Removes(m, e)
  }

  lemma {:induction false} ToldOthers(m: Mac, n: Mac, c: Change, now: nat)
    requires n != m
    ensures LeavesAlone(m, Told(n, c, now)) && NoneRemoves(m, Told(n, c, now))
  {
  }

  lemma {:induction false} ToldUndisturbed(s: A.Station, a: A.State, r: A.Step, m: Mac, now: nat)
    requires s.pendingEapol.Some? && Undisturbed(s, a, r, m)
    ensures var ts := Told(m, ChangeAt(a, r, m, false), now);
            LeavesAlone(m, ts) && ((m in a.stations ==> m in r.s.stations) ==> NoneRemoves(m, ts))
  {
    hide Transmits;
  }

  lemma {:induction false} RekeySpares(cfg: A.Config, s: A.Station, a: A.State, ts: seq<A.Target>, m: Mac, now: nat)
    requires StillWaits(s, a, m) && s.pendingEapol.Some?
    requires s.associated && !s.groupRekeying ==> forall t :: t in ts ==> t.sta != m
    ensures StillWaits(s, A.RekeyStations(cfg, a, ts).s, m)
    ensures LeavesAlone(m, RekeyTold(cfg, a, ts, now)) && NoneRemoves(m, RekeyTold(cfg, a, ts, now))
    decreases |ts|
  {
    hide A.RekeyStation, Told, ChangeAt;
    if ts != [] {
      var r := A.RekeyStation(cfg, a, ts[0]);
      RekeyOneSpares(cfg, s, a, ts[0], m, now);
      assert forall t :: t in ts[1..] ==> t in ts;
      RekeySpares(cfg, s, r.s, ts[1..], m, now);
    }
  }

  lemma {:induction false} RekeyOneSpares(cfg: A.Config, s: A.Station, a: A.State, t: A.Target, m: Mac, now: nat)
    requires StillWaits(s, a, m) && s.pendingEapol.Some? && (s.associated && !s.groupRekeying ==> t.sta != m)
    ensures var r := A.RekeyStation(cfg, a, t);
            var ts := Told(t.sta, ChangeAt(a, r, t.sta, false), now);
            StillWaits(s, r.s, m) && LeavesAlone(m, ts) && NoneRemoves(m, ts)
  {
    hide A.GroupDelivery, A.NextReplay, A.Toggle;
    var r := A.RekeyStation(cfg, a, t);
    if t.sta == m {
      ToldUndisturbed(s, a, r, m, now);
    } else {
      ToldOthers(m, t.sta, ChangeAt(a, r, t.sta, false), now);
    }
  }

  lemma {:induction false} ElsewhereWaits(s: A.Station, a: A.State, b: A.State, m: Mac)
    requires StillWaits(s, a, m) && R.At(b, m) == R.At(a, m)
    ensures StillWaits(s, b, m)
  {
  }

  lemma {:induction false} TickWaits(cfg: A.Config, s: A.Station, a: A.State, out: seq<T.Out>, m: Mac)
    requires StillWaits(s, a, m)
    ensures StillWaits(s, AfterTick(cfg, a, out), m)
    decreases |out|
  {
    if out != [] {
      TickWaits(cfg, s, A.Handle(cfg, a, Action(out[0])).s, out[1..], m);
    }
  }

  lemma {:induction false} HappensWaits(cfg: A.Config, s: A.Station, w: World, m: Mac, e: A.Event, now: nat)
    requires StillWaits(s, w.a, m) && s.pendingEapol.Some? && Unanswered(m, s, Happens(e, now))
    ensures StillWaits(s, A.Handle(cfg, w.a, e).s, m)
    ensures LeavesAlone(m, ToldOf(cfg, w, e, now))
    ensures !MayRemove(m, s, Happens(e, now)) ==> NoneRemoves(m, ToldOf(cfg, w, e, now))
  {
    if OneStation(e) {
      hide StillWaits, Told, A.Handle, ChangeAt, LeavesAlone, NoneRemoves;
      var n, r := R.EventStation(e).value, A.Handle(cfg, w.a, e);
      if n == m {
        OwnUndisturbed(cfg, s, w, m, e, now);
        ToldUndisturbed(s, w.a, r, m, now);
      } else {
        R.HandleElsewhere(cfg, m, w.a, e);
        ElsewhereWaits(s, w.a, r.s, m);
        ToldOthers(m, n, ChangeAt(w.a, r, n, Cancelling(w.a, e)), now);
      }
    } else if e.RekeyTimer? {
      hide A.RekeyStations, RekeyTold, A.Toggle, LeavesAlone, NoneRemoves;
      var b := A.RotateGroup(cfg, w.a, e.gtk, e.igtk);
      ElsewhereWaits(s, w.a, b, m);
      RekeySpares(cfg, s, b, e.targets, m, now);
      NoneToldAlone(m);
    } else {
      OtherWaits(cfg, s, w, m, e, now);
    }
  }

  lemma {:induction false} NoneToldAlone(m: Mac)
    ensures LeavesAlone(m, []) && NoneRemoves(m, [])
  {
  }

  lemma {:induction false} OtherWaits(cfg: A.Config, s: A.Station, w: World, m: Mac, e: A.Event, now: nat)
    requires StillWaits(s, w.a, m) && (e.Maintenance? || e.ToGroup? || e.RetryTimer?)
    ensures StillWaits(s, A.Handle(cfg, w.a, e).s, m)
    ensures LeavesAlone(m, ToldOf(cfg, w, e, now))
    ensures !MayRemove(m, s, Happens(e, now)) ==> NoneRemoves(m, ToldOf(cfg, w, e, now))
  {
  }

  lemma {:induction false} RunWaits(cfg: A.Config, w: World, es: seq<Event>, m: Mac)
    requires PendingAt(w.a, m)
    requires forall e :: e in es ==> Unanswered(m, w.a.stations[m], e)
    ensures StillWaits(w.a.stations[m], Run(cfg, w, es).0.a, m)
    ensures LeavesAlone(m, TimerRun(cfg, w, es))
    ensures (forall e :: e in es ==> !MayRemove(m, w.a.stations[m], e)) ==> NoneRemoves(m, TimerRun(cfg, w, es))
  {
    if es != [] {
      var front, e, s := es[..|es| - 1], es[|es| - 1], w.a.stations[m];
      assert forall x :: x in front ==> x in es;
      RunWaits(cfg, w, front, m);
      var b := Run(cfg, w, front).0;
      assert e in es;
      hide StillWaits, Unanswered, MayRemove, A.Handle, AfterTick, ToldOf;
      match e {
        case Happens(event, now) => HappensWaits(cfg, s, b, m, event, now);
        case Tick(now) => TickWaits(cfg, s, b.a, T.Drain(b.t, now).1, m);
        case Acked(_, _) =>
        case Transmitted(n, _) => ReportOfOther(m, s, n, e);
      }
    }
  }

  lemma {:induction false} ReportOfOther(m: Mac, s: A.Station, n: Mac, e: Event)
    requires e.Transmitted? && e.sta == n && Unanswered(m, s, e)
    ensures n != m
  {
  }

  // A station that does not answer a pending message is disconnected once its timeouts
  // outnumber its retries, whatever others do in between, however often the timers are polled
  // and whatever else it sends or acknowledges. Unless something else removes it, it was
  // deauthenticated once, after all its remaining retries.
  lemma {:induction false} SilentIsDisconnected(cfg: A.Config, w: World, es: seq<Event>, m: Mac)
    requires Synchronized(w) && PendingAt(w.a, m) && m in w.t.stations
    requires forall e :: e in es ==> Unanswered(m, w.a.stations[m], e)
    requires T.Forward(m, T.PastM1(w.t.stations[m]), 0, ClockOf(es))
    requires var t := w.t.stations[m]; t.retries + T.Waited(m, T.PastM1(t), T.Due(t), ClockOf(es)).0 > T.MAX_RETRIES
    ensures m !in Run(cfg, w, es).0.a.stations
    ensures (forall e :: e in es ==> !MayRemove(m, w.a.stations[m], e)) ==>
              var out := T.Run(w.t, TimerRun(cfg, w, es)).1;
              T.Deauths(out, m) == 1 && T.Retransmissions(out, m) == T.MAX_RETRIES - w.t.stations[m].retries
  {
    var t := w.t.stations[m];
    assert TracksAt(R.At(w.a, m), w.t, m);
    RunWaits(cfg, w, es, m);
    RunClock(cfg, w, es, m, T.PastM1(t), 0, 0, T.Due(t));
    hide T.Run, T.Waited, T.Forward, T.Polled, T.Latest, T.Inv, T.Due, Run, TimerRun, Unanswered, MayRemove, ClockOf, T.Unanswered, T.Removes;
    T.SilentIsDropped(w.t, TimerRun(cfg, w, es), m);
    GoneFromBoth(cfg, w, es, m);
  }

  lemma {:induction false} GoneFromBoth(cfg: A.Config, w: World, es: seq<Event>, m: Mac)
    requires Synchronized(w) && m !in T.Run(w.t, TimerRun(cfg, w, es)).0.stations
    ensures m !in Run(cfg, w, es).0.a.stations
  {
    hide T.Run, Run, TimerRun, T.Inv;
    TimersProject(cfg, w, es);
    RunKeeps(cfg, w, es);
    var v := Run(cfg, w, es).0;
    assert TracksAt(R.At(v.a, m), v.t, m);
  }

  // Polled at most `gap` apart, it is out of the authenticator's table by its remaining retries
  // after its deadline, each a timeout and a gap long.
  lemma {:induction false} SilentIsGoneBy(cfg: A.Config, w: World, es: seq<Event>, m: Mac, from: nat, gap: nat)
    requires Synchronized(w) && PendingAt(w.a, m) && m in w.t.stations && from < T.Due(w.t.stations[m])
    requires forall e :: e in es ==>
               Unanswered(m, w.a.stations[m], e) && (e.Acked? && e.sta == m ==> T.PastM1(w.t.stations[m]))
    requires T.Polled(m, T.PastM1(w.t.stations[m]), from, gap, ClockOf(es))
    requires var t := w.t.stations[m];
             T.Latest(m, T.PastM1(t), from, ClockOf(es)) >= T.Due(t) + (T.MAX_RETRIES - t.retries) * (T.TIMEOUT + gap)
    ensures m !in Run(cfg, w, es).0.a.stations
    ensures (forall e :: e in es ==> !MayRemove(m, w.a.stations[m], e)) ==>
              var out := T.Run(w.t, TimerRun(cfg, w, es)).1;
              T.Deauths(out, m) == 1 && T.Retransmissions(out, m) == T.MAX_RETRIES - w.t.stations[m].retries
  {
    var t := w.t.stations[m];
    var past := T.PastM1(t);
    hide Run, TimerRun, Unanswered, MayRemove, ClockOf, T.Run, T.Waited, T.Forward, T.Polled, T.Latest, T.Inv, T.Due, T.Unanswered, T.Removes,
         T.PastM1, StillWaits;
    assert t.pending by {
      assert TracksAt(R.At(w.a, m), w.t, m);
    }
    hide Tracks;
    RunWaits(cfg, w, es, m);
    RunClock(cfg, w, es, m, past, from, gap, T.Due(t));
    AcksOfOthers(cfg, w, es, m, past);
    T.SilentIsGoneBy(w.t, TimerRun(cfg, w, es), m, from, gap);
    GoneFromBoth(cfg, w, es, m);
  }

  lemma {:induction false} AcksOfOthers(cfg: A.Config, w: World, es: seq<Event>, m: Mac, past: bool)
    requires forall e :: e in es ==> (e.Acked? && e.sta == m ==> past)
    ensures forall e :: e in TimerRun(cfg, w, es) ==> (e.Acked? && e.mac == m ==> past)
  {
    if es != [] {
      var front, e := es[..|es| - 1], es[|es| - 1];
      assert forall x :: x in front ==> x in es;
      AcksOfOthers(cfg, w, front, m, past);
      assert e in es;
      var b := Run(cfg, w, front).0;
      hide ToldOf;
      if e.Happens? {
        ToldTimeless(cfg, b, e.event, e.now);
      }
    }
  }
}
