/**
 Packet numbers and receive windows of the authenticator follow the key: while a station's
 temporal key stays installed, the numbers sent and the numbers accepted under it strictly
 increase, whatever is retransmitted, renegotiated or committed again in between. Nothing
 here depends on random nonces being fresh or on how the state arose.
 */
module AuthenticatorWindows {
  import opened Common
  import opened Symbols
  import opened Authenticator
  import opened AuthenticatorRuns

  // A station's numbered streams: what is accepted on a counter, what is sent under a key.
  datatype Stream = Received(counter: Counter) | Transmitted(tk: Secret)

  function StreamKey(x: Stream): Option<Secret> {
    match x
    case Received(c) => CounterKey(c)
    case Transmitted(tk) => Some(tk)
  }

  // The highest number of the stream so far.
  function Level(s: Station, x: Stream): int {
    match x
    case Received(c) => WindowOf(s, c)
    case Transmitted(_) => s.clientPn - 1
  }

  predicate Carried(s: Option<Station>, x: Stream) {
    s.Some? && s.value.associated && StreamKey(x) == Some(s.value.tk)
  }

  // The level of a stream, while its key is installed.
  function LevelOf(s: Option<Station>, x: Stream): Option<int> {
    if Carried(s, x) then Some(Level(s.value, x)) else None
  }

  predicate Counts(m: Mac, o: Out, x: Stream) {
    match x
    case Received(c) => o.Accepted? && o.from == m && o.counter == c
    case Transmitted(tk) => o.Sealed? && o.to == m && o.tk == tk
  }

  function NumberOf(o: Out): int {
    if o.Accepted? then o.number else if o.Sealed? then o.pn else 0
  }

  ghost predicate WindowAtMost(v: Window, w: Window) {
    forall i: Slot :: v[i] <= w[i]
  }

  // If the key of s survives in t, nothing that belongs to it is lowered.
  ghost predicate NoneLowered(s: Station, t: Station) {
    s.associated && t.associated && s.tk == t.tk ==>
      s.clientPn <= t.clientPn && WindowAtMost(s.rxPn, t.rxPn) && s.rxMgmtPn <= t.rxMgmtPn
  }

  // What one event does to a stream of m: its level does not fall, at most one number is
  // added to it, and that number is above the level before and not above the one after.
  ghost predicate StepSound(m: Mac, a: State, r: Step, x: Stream) {
    var before, after := LevelOf(At(a, m), x), LevelOf(At(r.s, m), x);
    && (before.Some? && after.Some? ==> before.value <= after.value)
    && (forall i, j :: 0 <= i < j < |r.out| && Counts(m, r.out[i], x) ==> !Counts(m, r.out[j], x))
    && (forall o :: o in r.out && Counts(m, o, x) ==>
          before.Some? && before.value < NumberOf(o) && (after.Some? ==> NumberOf(o) <= after.value))
  }

  // ---- steps that add nothing -------------------------------------------------------------

  predicate NoTraffic(m: Mac, out: seq<Out>) {
    forall o :: o in out ==> !(o.Sealed? && o.to == m) && !(o.Accepted? && o.from == m)
  }

  lemma {:induction false} QuietSound(m: Mac, a: State, r: Step, x: Stream)
    requires NoTraffic(m, r.out)
    requires m in a.stations && m in r.s.stations ==> NoneLowered(a.stations[m], r.s.stations[m])
    ensures StepSound(m, a, r, x)
  {
  }

  lemma {:induction false} SameLowersNone(s: Station, t: Station)
    requires SameTraffic(s, t)
    ensures NoneLowered(s, t)
  {
  }

  // Committing a candidate, of whatever temporal key, lowers nothing of a key that stays: the
  // same key delivered again keeps its packet number and both windows.
  lemma {:induction false} CommitLowersNone(s: Station, c: PtkCandidate)
    ensures NoneLowered(s, CommitCandidate(s, c))
    ensures s.associated && s.tk == c.tk ==>
              var t := CommitCandidate(s, c);
              t.clientPn == s.clientPn && t.rxPn == s.rxPn && t.rxMgmtPn == s.rxMgmtPn
    ensures !(s.associated && s.tk == c.tk) ==>
              var t := CommitCandidate(s, c);
              t.clientPn == 1 && t.rxPn == Uniform(0) && t.rxMgmtPn == 0
  {
  }

  // ---- the handlers --------------------------------------------------------------------------

  lemma {:induction false} SealSound(m: Mac, a: State, c: Content, x: Stream)
    ensures StepSound(m, a, SealNext(a, m, c), x)
  {
  }

  lemma {:induction false} ChallengeSound(m: Mac, a: State, now: nat, x: Stream)
    ensures StepSound(m, a, SaQueryChallenge(a, m, now), x)
  {
  }

  lemma {:induction false} AuthSound(m: Mac, a: State, sae: bool, now: nat, gtk: GroupKey, igtk: GroupKey, x: Stream)
    ensures StepSound(m, a, HandleAuth(a, m, sae, now, gtk, igtk), x)
  {
    hide SaQueryChallenge, NewStation, StepSound;
    var r := HandleAuth(a, m, sae, now, gtk, igtk);
    if PmfProtected(a, m) {
      ChallengeSound(m, a, now, x);
    } else {
      QuietSound(m, a, r, x);
    }
  }

  lemma {:induction false} SaeSound(m: Mac, a: State, e: Event, cfg: Config, x: Stream)
    requires e.SaeCommitDone? || e.SaeConfirmDone?
    requires e.sta == m
    ensures StepSound(m, a, Handle(cfg, a, e), x)
  {
    hide NewStation, StepSound;
    QuietSound(m, a, Handle(cfg, a, e), x);
  }

  lemma {:induction false} StartQuiet(cfg: Config, m: Mac, a: State, s: Station, random: Nonce, now: nat)
    ensures var r := StartHandshake(cfg, a, m, s, random, now);
            m in r.s.stations && SameTraffic(s, r.s.stations[m]) && NoTraffic(m, r.out)
  {
    hide FirstMessage, ChooseAnonce;
  }

  // The station that an association request which reaches negotiation leaves behind.
  lemma {:induction false} AssocKeepsTraffic(cfg: Config, m: Mac, a: State, q: AssocRequest, now: nat, random: Nonce, gtk: GroupKey, igtk: GroupKey)
    requires !q.reloading && !PmfProtected(a, m) && Refusal(cfg, a, m, q).None?
    ensures var r := HandleAssoc(cfg, a, m, q, now, random, gtk, igtk);
            m in r.s.stations && SameTraffic(Record(a, m, gtk, igtk), r.s.stations[m]) && NoTraffic(m, r.out)
  {
    hide NewStation, Negotiated, Authorized, StartHandshake, Recent;
    var s := Record(a, m, gtk, igtk);
    NegotiatedSame(cfg, s, q);
    var s1 := Negotiated(cfg, s, q).(lastAssoc := Some(now));
    AuthorizedSame(cfg, a, m, s1, q, now);
    StartQuiet(cfg, m, a, Authorized(cfg, a, m, s1, q, now).0, random, now);
  }

  lemma {:induction false} AssocSound(cfg: Config, m: Mac, a: State, q: AssocRequest, now: nat, random: Nonce, gtk: GroupKey, igtk: GroupKey,
                                      x: Stream)
    ensures StepSound(m, a, HandleAssoc(cfg, a, m, q, now, random, gtk, igtk), x)
  {
    var r := HandleAssoc(cfg, a, m, q, now, random, gtk, igtk);
    if !q.reloading && PmfProtected(a, m) {
      var c := SaQueryChallenge(a, m, now);
      ChallengeSound(m, a, now, x);
      hide SaQueryChallenge;
      assert r.out[1..] == c.out;
      assert forall i :: 0 < i < |r.out| ==> r.out[i] == c.out[i - 1];
    } else if q.reloading || Refusal(cfg, a, m, q).Some? {
      hide StepSound;
      QuietSound(m, a, r, x);
    } else {
      AssocKeepsTraffic(cfg, m, a, q, now, random, gtk, igtk);
      hide HandleAssoc, StepSound;
      if m in a.stations {
        SameLowersNone(a.stations[m], r.s.stations[m]);
      }
      QuietSound(m, a, r, x);
    }
  }

  lemma {:induction false} M2Sound(cfg: Config, m: Mac, a: State, f: EapolKey, rsnMatches: bool, x: Stream)
    requires m in a.stations
    ensures StepSound(m, a, HandleM2(cfg, a, m, a.stations[m], f, rsnMatches), x)
  {
    hide StationPtk, ThirdMessage, Retain, MatchingPmk, M2Expected, NextReplay, Credentials, M2OciAccepted, StepSound;
    QuietSound(m, a, HandleM2(cfg, a, m, a.stations[m], f, rsnMatches), x);
  }

  lemma {:induction false} EapolSound(cfg: Config, m: Mac, a: State, f: EapolKey, rsnMatches: bool, x: Stream)
    ensures StepSound(m, a, HandleEapol(cfg, a, m, f, rsnMatches), x)
  {
    hide HandleM2, SelectCandidate, CommitCandidate, StepSound;
    var r := HandleEapol(cfg, a, m, f, rsnMatches);
    if m in a.stations {
      var s := a.stations[m];
      var c := SelectCandidate(cfg, s, s.candidates, f);
      if c.Some? {
        CommitLowersNone(s, c.value);
      }
      if r == HandleM2(cfg, a, m, s, f, rsnMatches) {
        M2Sound(cfg, m, a, f, rsnMatches, x);
      } else {
        QuietSound(m, a, r, x);
      }
    } else {
      QuietSound(m, a, r, x);
    }
  }

  lemma {:induction false} DataSound(m: Mac, a: State, d: UplinkFrame, x: Stream)
    ensures StepSound(m, a, HandleData(a, m, d), x)
  {
  }

  lemma {:induction false} DeauthSound(m: Mac, a: State, f: MgmtFrame, x: Stream)
    ensures StepSound(m, a, HandleDeauth(a, m, f), x)
  {
  }

  lemma {:induction false} AcceptMgmtSound(m: Mac, a: State, f: MgmtFrame, x: Stream)
    requires MgmtOpens(a, m, f)
    ensures StepSound(m, a, AcceptMgmt(a, m, f), x)
  {
  }

  lemma {:induction false} ClearQuerySound(m: Mac, a: State, r: Step, x: Stream)
    requires StepSound(m, a, r, x) && m in r.s.stations
    ensures StepSound(m, a, Step(Put(r.s, m, r.s.stations[m].(saQuery := None)), r.out), x)
  {
  }

  // An accepted query and the sealed answer belong to different streams.
  lemma {:induction false} AnswerSound(m: Mac, a: State, f: MgmtFrame, c: Content, x: Stream)
    requires MgmtOpens(a, m, f)
    ensures var r := AcceptMgmt(a, m, f);
            var t := SealNext(r.s, m, c);
            StepSound(m, a, Step(t.s, r.out + t.out), x)
  {
    var r := AcceptMgmt(a, m, f);
    var t := SealNext(r.s, m, c);
    if t.out == [] {
      assert r.out + t.out == r.out;
      AcceptMgmtSound(m, a, f, x);
    }
  }

  lemma {:induction false} ActionSound(m: Mac, a: State, f: MgmtFrame, x: Stream)
    ensures StepSound(m, a, HandleAction(a, m, f), x)
  {
    hide StepSound, SealNext;
    if MgmtOpens(a, m, f) {
      AcceptMgmtSound(m, a, f, x);
      ClearQuerySound(m, a, AcceptMgmt(a, m, f), x);
      if f.content.SaQueryRequest? {
        AnswerSound(m, a, f, SaQueryResponse(f.content.id), x);
      }
    } else {
      QuietSound(m, a, HandleAction(a, m, f), x);
    }
  }

  lemma {:induction false} RekeyStationsKeep(cfg: Config, m: Mac, a: State, ts: seq<Target>)
    ensures var r := RekeyStations(cfg, a, ts);
            && NoTraffic(m, r.out) && (m in a.stations <==> m in r.s.stations)
            && (m in a.stations ==> SameTraffic(a.stations[m], r.s.stations[m]))
    decreases |ts|
  {
    hide GroupDelivery, NextReplay;
    if ts != [] {
      var r := RekeyStation(cfg, a, ts[0]);
      assert NoTraffic(m, r.out) && (m in a.stations <==> m in r.s.stations);
      assert m in a.stations ==> SameTraffic(a.stations[m], r.s.stations[m]);
      hide RekeyStation;
      RekeyStationsKeep(cfg, m, r.s, ts[1..]);
    }
  }

  lemma {:induction false} RekeySound(cfg: Config, m: Mac, a: State, gtk: GroupKey, igtk: GroupKey, ts: seq<Target>, x: Stream)
    ensures StepSound(m, a, Rekey(cfg, a, gtk, igtk, ts), x)
  {
    hide RekeyStations, StepSound;
    RekeyStationsKeep(cfg, m, RotateGroup(cfg, a, gtk, igtk), ts);
    QuietSound(m, a, Rekey(cfg, a, gtk, igtk, ts), x);
  }

  lemma {:induction false} OthersSound(cfg: Config, m: Mac, a: State, e: Event, x: Stream)
    requires e.NotAcked? || e.Maintenance? || e.RetryTimer? || e.Dropped? || e.ToGroup?
    requires EventStation(e).Some? ==> EventStation(e).value == m
    ensures StepSound(m, a, Handle(cfg, a, e), x)
  {
    hide StepSound;
    QuietSound(m, a, Handle(cfg, a, e), x);
  }

  // Every event, of this station or another, is sound for every stream.
  lemma {:induction false} HandleSound(cfg: Config, m: Mac, a: State, e: Event, x: Stream)
    ensures StepSound(m, a, Handle(cfg, a, e), x)
  {
    hide HandleAuth, HandleAssoc, HandleEapol, HandleData, HandleDeauth, HandleAction, SealNext, Rekey, SaeCommitFinished,
         SaeConfirmFinished, Maintain, AssocNotAcked, Retransmit, StepSound, Elsewhere;
    if EventStation(e).Some? && EventStation(e).value != m {
      HandleElsewhere(cfg, m, a, e);
      ElsewhereSound(m, a, Handle(cfg, a, e), x);
    } else {
      match e {
        case AuthReceived(_, sae, now, gtk, igtk) => AuthSound(m, a, sae, now, gtk, igtk, x);
        case SaeCommitDone(_, _, _, _, _, _) => SaeSound(m, a, e, cfg, x);
        case SaeConfirmDone(_, _, _) => SaeSound(m, a, e, cfg, x);
        case AssocReceived(_, q, now, random, gtk, igtk) => AssocSound(cfg, m, a, q, now, random, gtk, igtk, x);
        case EapolReceived(_, f, rsnMatches) => EapolSound(cfg, m, a, f, rsnMatches, x);
        case DataReceived(_, d) => DataSound(m, a, d, x);
        case MgmtReceived(_, f) =>
          ActionSound(m, a, f, x);
          DeauthSound(m, a, f, x);
        case ToStation(_, c) => SealSound(m, a, c, x);
        case RekeyTimer(gtk, igtk, ts) => RekeySound(cfg, m, a, gtk, igtk, ts, x);
        case _ => OthersSound(cfg, m, a, e, x);
      }
    }
  }

  lemma {:induction false} ElsewhereSound(m: Mac, a: State, r: Step, x: Stream)
    requires Elsewhere(m, a, r)
    ensures StepSound(m, a, r, x)
  {
    hide StepSound;
    QuietSound(m, a, r, x);
  }

  // ---- every stretch of a run ---------------------------------------------------------------------

  // The numbers of a stream, in order.
  function Numbers(m: Mac, log: seq<Out>, x: Stream): seq<int> {
    if log == [] then []
    else Numbers(m, log[..|log| - 1], x) + (if Counts(m, log[|log| - 1], x) then [NumberOf(log[|log| - 1])] else [])
  }

  // low < ns[0] < ns[1] < ... <= high
  predicate Climbs(low: int, ns: seq<int>, high: int) {
    if ns == [] then low <= high
    else Climbs(low, ns[..|ns| - 1], ns[|ns| - 1] - 1) && ns[|ns| - 1] <= high
  }

  // The stream's key is installed before and after every one of the events.
  ghost predicate StaysInstalled(cfg: Config, m: Mac, a: State, es: seq<Event>, x: Stream) {
    && LevelOf(At(RunFrom(cfg, a, es).s, m), x).Some?
    && (es != [] ==> StaysInstalled(cfg, m, a, es[..|es| - 1], x))
  }

  lemma {:induction false} NumbersConcat(m: Mac, a: seq<Out>, b: seq<Out>, x: Stream)
    ensures Numbers(m, a + b, x) == Numbers(m, a, x) + Numbers(m, b, x)
  {
    if b == [] {
      assert a + b == a;
    } else {
      NumbersConcat(m, a, b[..|b| - 1], x);
      assert (a + b)[..|a + b| - 1] == a + b[..|b| - 1];
    }
  }

  lemma {:induction false} NumbersOfStep(m: Mac, out: seq<Out>, x: Stream)
    requires forall i, j :: 0 <= i < j < |out| && Counts(m, out[i], x) ==> !Counts(m, out[j], x)
    ensures var ns := Numbers(m, out, x);
            |ns| <= 1 && (ns != [] ==> exists o :: o in out && Counts(m, o, x) && ns == [NumberOf(o)])
    ensures (forall o :: o in out ==> !Counts(m, o, x)) ==> Numbers(m, out, x) == []
  {
    if out != [] {
      var front, last := out[..|out| - 1], out[|out| - 1];
      assert last in out && forall o :: o in front ==> o in out;
      NumbersOfStep(m, front, x);
      if Counts(m, last, x) {
        assert forall o :: o in front ==> !Counts(m, o, x);
      }
    }
  }

  lemma {:induction false} ClimbsOn(low: int, ns: seq<int>, mid: int, more: seq<int>, high: int)
    requires Climbs(low, ns, mid) && |more| <= 1 && mid <= high
    requires more != [] ==> mid < more[0] <= high
    ensures Climbs(low, ns + more, high)
  {
    if more == [] {
      assert ns + more == ns;
    } else {
      assert (ns + more)[..|ns + more| - 1] == ns;
    }
  }

  // While its key stays installed, every stream of a station climbs strictly, all above its
  // level at the start and none above its level at the end: over any events, from any state.
  lemma {:induction false} NumbersClimb(cfg: Config, m: Mac, a: State, es: seq<Event>, x: Stream)
    requires StaysInstalled(cfg, m, a, es, x)
    ensures LevelOf(At(a, m), x).Some?
    ensures var r := RunFrom(cfg, a, es);
            Climbs(LevelOf(At(a, m), x).value, Numbers(m, r.out, x), LevelOf(At(r.s, m), x).value)
  {
    if es != [] {
      var front := es[..|es| - 1];
      NumbersClimb(cfg, m, a, front, x);
      var b := RunFrom(cfg, a, front);
      var h := Handle(cfg, b.s, es[|es| - 1]);
      HandleSound(cfg, m, b.s, es[|es| - 1], x);
      hide Handle;
      NumbersConcat(m, b.out, h.out, x);
      NumbersOfStep(m, h.out, x);
      ClimbsOn(LevelOf(At(a, m), x).value, Numbers(m, b.out, x), LevelOf(At(b.s, m), x).value,
               Numbers(m, h.out, x), LevelOf(At(h.s, m), x).value);
    }
  }
}
