/**
 The four messages delivered in order between ends that hold the same PMK and negotiated the
 same suite: both install the same temporal key, each end restarts its packet number and
 windows exactly if that key is not the one it had installed before, and the supplicant ends
 up with the group key the authenticator is using.
 */
module HonestExchange {
  import opened Common
  import opened Symbols
  import S = Supplicant
  import A = Authenticator
  import opened ForgedMessages
  import R = SupplicantRuns

  // The ends agree on everything that enters the PTK, the MIC and the checks of both sides.
  ghost predicate Compatible(scfg: S.Config, acfg: A.Config, s: S.State, m: Mac, st: A.Station, pmk: Pmk) {
    && S.KeyMic(scfg, s) == A.StationMic(st)
    && scfg.keyLength == st.tkLength && (acfg.mld && st.mldMac.Some? ==> scfg.keyLength == 16)
    && (forall n, x :: S.DerivePtk(scfg, s, n, x) == A.StationPtk(acfg, m, st.(anonce := Some(n)), pmk, x))
    && pmk in A.Credentials(acfg, m, st)
    && (A.RequiresPmk(acfg) ==> st.pmk.Some?)
    && (acfg.mld && st.mldMac.Some? ==> scfg.mldMac == st.mldMac)
    && (s.saePmk.Some? ==> st.pmf)
    && scfg.ocv == acfg.ocv && scfg.oci.channel == acfg.oci.channel
    && scfg.oci.operatingClass in acfg.bandClasses && acfg.oci.operatingClass in scfg.bandClasses
  }

  // Message 1 is out and unanswered, and the supplicant would take it.
  predicate Ready(scfg: S.Config, acfg: A.Config, s: S.State, a: A.State, m: Mac) {
    && R.Shape(s) && s.connected >= 2
    && m in a.stations
    && var st := a.stations[m];
       && st.eapolReady && !st.awaitingM4 && !st.groupRekeying && st.candidates == []
       && st.anonce.Some? && st.anonce.value != NO_NONCE
       && st.m1Replay > s.eapolReplay
       && st.m1Replay <= A.NextReplay(a.replayCounter)
       && !(s.installed && s.saePmk.Some?)
       && a.groupPn <= MAX_PACKET_NUMBER && st.gtkRsc <= MAX_PACKET_NUMBER
  }

  function M1Of(acfg: A.Config, st: A.Station): EapolKey {
    A.FirstMessage(acfg, st, st.anonce.GetOr(0), st.m1Replay)
  }

  lemma {:induction false} MatchingPmkFinds(acfg: A.Config, m: Mac, st: A.Station, pmks: seq<Pmk>, pmk: Pmk, f: EapolKey)
    requires pmk in pmks && MicValid(A.StationMic(st), Kck(A.StationPtk(acfg, m, st, pmk, f.body.nonce)), f)
    ensures A.MatchingPmk(acfg, m, st, pmks, f) == Some(pmk)
  {
    if pmks[0] != pmk {
      assert A.StationPtk(acfg, m, st, pmks[0], f.body.nonce).pmk == pmks[0];
      assert A.StationPtk(acfg, m, st, pmk, f.body.nonce).pmk == pmk;
      MatchingPmkFinds(acfg, m, st, pmks[1..], pmk, f);
    }
  }

  // The supplicant answers with the message 2 of its candidate.
  lemma {:induction false} SupplicantAnswers(scfg: S.Config, acfg: A.Config, s: S.State, a: A.State, m: Mac, pmk: Pmk, random: Nonce)
    requires Ready(scfg, acfg, s, a, m) && Compatible(scfg, acfg, s, m, a.stations[m], pmk)
    ensures var r := S.HandleEapolKey(scfg, s, M1Of(acfg, a.stations[m]), false, random);
            && r.s == s.(pending := r.s.pending, eapolState := 1) && r.s.pending.Some?
            && r.s.pending.value == S.Candidate(scfg, s, a.stations[m].anonce.value, r.s.pending.value.snonce, a.stations[m].m1Replay)
            && r.out == [S.Sent(S.SecondMessage(scfg, s, r.s.pending.value))]
  {
    var m1 := M1Of(acfg, a.stations[m]);
    assert HonestM1(scfg, s, m1) && !S.RefusedByPmf(s, m1.body, false);
    HonestM1Pends(scfg, s, m1, false, random);
    assert S.ValidM1(scfg, s, m1.body) && S.M1Fresh(s, m1.body) && !S.ValidM3(scfg, s, m1.body);
    hide S.DerivePtk, S.KeyMic, HonestM1, S.ValidM1, S.ValidM3, A.FirstMessage;
  }

  // The authenticator retains that candidate and sends its message 3.
  lemma {:induction false} AuthenticatorAnswers(scfg: S.Config, acfg: A.Config, s: S.State, a: A.State, m: Mac, pmk: Pmk, p: S.PendingPtk)
    requires Ready(scfg, acfg, s, a, m) && Compatible(scfg, acfg, s, m, a.stations[m], pmk)
    requires p == S.Candidate(scfg, s, a.stations[m].anonce.value, p.snonce, a.stations[m].m1Replay)
    ensures A.HandleEapol(acfg, a, m, S.SecondMessage(scfg, s, p), true)
            == A.IssueM3(acfg, a, m, a.stations[m], pmk, p.snonce)
    ensures A.StationPtk(acfg, m, a.stations[m], pmk, p.snonce) == p.tk.ptk
  {
    var st := a.stations[m];
    var m2 := S.SecondMessage(scfg, s, p);
    assert st.(anonce := Some(st.anonce.value)) == st;
    assert A.StationPtk(acfg, m, st, pmk, p.snonce) == S.DerivePtk(scfg, s, st.anonce.value, p.snonce);
    assert MicValid(A.StationMic(st), Kck(A.StationPtk(acfg, m, st, pmk, p.snonce)), m2);
    MatchingPmkFinds(acfg, m, st, A.Credentials(acfg, m, st), pmk, m2);
    assert A.M2Expected(acfg, st, m2.body);
    assert A.M2OciAccepted(acfg, m2.body.data);
    hide A.StationPtk, S.DerivePtk, A.Credentials, A.IssueM3, A.M2Expected, A.MatchingPmk, S.SecondMessage, S.KeyMic;
    assert !st.groupRekeying && !st.awaitingM4;
  }

  // What message 3 delivers is acceptable, and its group key is the one in use.
  lemma {:induction false} DeliveryIsAcceptable(scfg: S.Config, acfg: A.Config, s: S.State, a: A.State, m: Mac, pmk: Pmk)
    requires Ready(scfg, acfg, s, a, m) && Compatible(scfg, acfg, s, m, a.stations[m], pmk)
    ensures var d := A.GroupDelivery(acfg, a, a.stations[m], true);
            && AcceptableKeys(scfg, s, d.0, d.1)
            && S.DeliveredGtk(d.0, d.1).Some?
            && S.DeliveredGtk(d.0, d.1).value.2 == (if acfg.perStation then a.stations[m].gtk else a.gtk)
  {
  }

  lemma {:induction false} AcceptableAreInstalled(scfg: S.Config, s: S.State, keys: Delivery, rsc: nat)
    requires AcceptableKeys(scfg, s, keys, rsc)
    ensures var i := S.InstallGroupKeys(s, keys, rsc);
            && i.Granted? && i.s.gtkSet && S.DeliveredGtk(keys, rsc).Some?
            && i.s.gtk == S.DeliveredGtk(keys, rsc).value.2
            && i.s.pending == s.pending && i.s.bssid == s.bssid && i.s.saePmk == s.saePmk
            && i.s.installed == s.installed && i.s.tk == s.tk
            && i.s.clientPn == s.clientPn && i.s.rxPn == s.rxPn && i.s.rxMgmtPn == s.rxMgmtPn
  {
  }

  // The packet number and the windows after the exchange: those of the key if it was installed
  // already, fresh ones if it is new.
  predicate SupplicantCounters(before: S.State, after: S.State) {
    if before.installed && before.tk == after.tk then
      after.clientPn == before.clientPn && after.rxPn == before.rxPn && after.rxMgmtPn == before.rxMgmtPn
    else
      after.clientPn == 1 && after.rxPn == Uniform(0) && after.rxMgmtPn == 0
  }

  predicate StationCounters(before: A.Station, after: A.Station) {
    if before.associated && before.tk == after.tk then
      after.clientPn == before.clientPn && after.rxPn == before.rxPn && after.rxMgmtPn == before.rxMgmtPn
    else
      after.clientPn == 1 && after.rxPn == Uniform(0) && after.rxMgmtPn == 0
  }

  lemma {:induction false} CommitInstallsGtk(scfg: S.Config, s: S.State, f: EapolKey, random: Nonce, keys: Delivery)
    requires s.connected >= 2 && s.bssid.Some? && s.eapolState == 1 && s.pending.Some?
    requires S.FreshM3(s, f.body) && S.ValidM3(scfg, s, f.body)
    requires MicValid(S.KeyMic(scfg, s), s.pending.value.kck, f)
    requires f.body.data == Wrapped(s.pending.value.kek, keys) && AcceptableKeys(scfg, s, keys, f.body.rsc)
    ensures var r := S.HandleEapolKey(scfg, s, f, false, random);
            && S.DeliveredGtk(keys, f.body.rsc).Some? && r.s.gtk == S.DeliveredGtk(keys, f.body.rsc).value.2
            && SupplicantCounters(s, r.s)
            && S.Sent(Message4(S.KeyMic(scfg, s), s.pending.value.kck, f.body.replay, scfg.mldMac)) in r.out
  {
    hide S.InstallGroupKeys, S.ValidM3, S.DeliveredGtk, S.KeyMic, S.ValidM1, S.ValidGroupM1, S.SendEapol2, S.HandleGroupRekey;
    PairwiseM3(scfg, s, f.body);
    assert S.HandleEapolKey(scfg, s, f, false, random) == S.SendEapol4(scfg, s, f, false);
    hide S.HandleEapolKey;
    AcceptableAreInstalled(scfg, s, keys, f.body.rsc);
    OciFine(scfg, s, keys, f.body.rsc);
    var i := S.InstallGroupKeys(s, keys, f.body.rsc).s.(eapolReplay := f.body.replay);
    assert S.TakeM3(scfg, s, f) == Some(S.CommitPending(i));
    SameMic(scfg, s, S.CommitPending(i).s);
  }

  lemma {:induction false} PairwiseM3(scfg: S.Config, s: S.State, b: Body)
    requires S.ValidM3(scfg, s, b)
    ensures b.info.pairwise && b.info.mic
  {
  }

  lemma {:induction false} OciFine(scfg: S.Config, s: S.State, keys: Delivery, rsc: nat)
    requires AcceptableKeys(scfg, s, keys, rsc)
    ensures S.OciAccepted(scfg, keys)
  {
  }

  lemma {:induction false} SameMic(scfg: S.Config, s: S.State, t: S.State)
    requires s.saePmk == t.saePmk
    ensures S.KeyMic(scfg, s) == S.KeyMic(scfg, t)
  {
  }

  lemma {:induction false} AuthenticatorCompletes(acfg: A.Config, a: A.State, m: Mac, mac: Option<Mac>, c: A.PtkCandidate)
    requires m in a.stations
    requires var st := a.stations[m];
             && st.awaitingM4 && !st.groupRekeying && st.candidates == [c]
             && (acfg.mld && st.mldMac.Some? ==> mac == st.mldMac)
    ensures var f := Message4(A.StationMic(a.stations[m]), c.kck, c.m3Replay, mac);
            A.HandleEapol(acfg, a, m, f, true).s.stations == a.stations[m := A.CommitCandidate(a.stations[m], c)]
  {
    var st := a.stations[m];
    var f := Message4(A.StationMic(st), c.kck, c.m3Replay, mac);
    assert A.SelectCandidate(acfg, st, [c], f) == Some(c);
    hide A.CommitCandidate, A.SelectCandidate;
  }

  // The outcome: both ends connected under the same keys, each with the counters that follow
  // from what it had installed before, and the group key in use delivered.
  predicate Agreed(before: S.State, station: A.Station, s: S.State, a: A.State, m: Mac, gtk: GroupKey) {
    && SupplicantCounters(before, s) && s.connected == 4 && s.installed && s.tk.Tk? && s.gtk == gtk
    && m in a.stations && a.stations[m].associated
    && s.tk == a.stations[m].tk && s.kck == a.stations[m].kck && s.kek == a.stations[m].kek
    && StationCounters(station, a.stations[m])
  }

  // Each end is given the frame the other sent in answer.
  lemma {:induction false} FourMessagesAgree(scfg: S.Config, acfg: A.Config, s: S.State, a: A.State, m: Mac, pmk: Pmk, r1: Nonce, r3: Nonce)
    requires Ready(scfg, acfg, s, a, m) && Compatible(scfg, acfg, s, m, a.stations[m], pmk)
    ensures var s1 := S.HandleEapolKey(scfg, s, M1Of(acfg, a.stations[m]), false, r1);
            exists m2, m3, m4 ::
              && S.Sent(m2) in s1.out
              && A.Sent(m, m3) in A.HandleEapol(acfg, a, m, m2, true).out
              && S.Sent(m4) in S.HandleEapolKey(scfg, s1.s, m3, false, r3).out
              && Agreed(s, a.stations[m], S.HandleEapolKey(scfg, s1.s, m3, false, r3).s,
                        A.HandleEapol(acfg, A.HandleEapol(acfg, a, m, m2, true).s, m, m4, true).s,
                        m, if acfg.perStation then a.stations[m].gtk else a.gtk)
  {
    var st := a.stations[m];
    var s1 := S.HandleEapolKey(scfg, s, M1Of(acfg, st), false, r1);
    SupplicantAnswers(scfg, acfg, s, a, m, pmk, r1);
    var p := s1.s.pending.value;
    AuthenticatorAnswers(scfg, acfg, s, a, m, pmk, p);
    var m2 := S.SecondMessage(scfg, s, p);
    var a1 := A.IssueM3(acfg, a, m, st, pmk, p.snonce);
    var (keys, rsc) := A.GroupDelivery(acfg, a, st, true);
    DeliveryIsAcceptable(scfg, acfg, s, a, m, pmk);
    var replay := A.NextReplay(a.replayCounter);
    var m3 := a1.out[1].frame;
    assert m3 == Message3(S.KeyMic(scfg, s), p.kck, p.kek, scfg.keyLength, replay, p.anonce, rsc, keys);
    assert a1.s.stations[m].candidates == [A.PtkCandidate(replay, p.kck, p.kek, p.tk)];
    hide *;
    var m4 := Finish(scfg, acfg, s1.s, m3, r3, a1.s, m, p, replay, rsc, keys);
    assert S.Sent(m2) in s1.out;
    assert A.Sent(m, m3) in A.HandleEapol(acfg, a, m, m2, true).out;
  }

  lemma {:induction false} Finish(scfg: S.Config, acfg: A.Config, s: S.State, m3: EapolKey, random: Nonce, a: A.State, m: Mac,
               p: S.PendingPtk, replay: nat, rsc: nat, keys: Delivery) returns (m4: EapolKey)
    requires s.connected >= 2 && s.bssid.Some? && s.eapolState == 1 && s.pending == Some(p) && p.tk.Tk?
    requires replay >= p.replay && replay > s.eapolReplay
    requires m3 == Message3(S.KeyMic(scfg, s), p.kck, p.kek, scfg.keyLength, replay, p.anonce, rsc, keys)
    requires AcceptableKeys(scfg, s, keys, rsc)
    requires m in a.stations
    requires var st := a.stations[m];
             && st.awaitingM4 && !st.groupRekeying && A.StationMic(st) == S.KeyMic(scfg, s)
             && st.candidates == [A.PtkCandidate(replay, p.kck, p.kek, p.tk)]
             && (acfg.mld && st.mldMac.Some? ==> scfg.mldMac == st.mldMac)
    ensures S.DeliveredGtk(keys, rsc).Some?
    ensures var s2 := S.HandleEapolKey(scfg, s, m3, false, random);
            && S.Sent(m4) in s2.out
            && Agreed(s, a.stations[m], s2.s, A.HandleEapol(acfg, a, m, m4, true).s, m, S.DeliveredGtk(keys, rsc).value.2)
  {
    HonestM3Commits(scfg, s, m3, false, random, replay, rsc, keys);
    assert S.ValidM3(scfg, s, m3.body);
    CommitInstallsGtk(scfg, s, m3, random, keys);
    m4 := Message4(S.KeyMic(scfg, s), p.kck, replay, scfg.mldMac);
    AuthenticatorCompletes(acfg, a, m, scfg.mldMac, A.PtkCandidate(replay, p.kck, p.kek, p.tk));
    hide S.HandleEapolKey, A.HandleEapol, S.ValidM3, AcceptableKeys, S.DeliveredGtk;
  }
}
