/**
 What the supplicant keeps over every run: the packet numbers sent under one temporal key and
 the numbers accepted on one pairwise counter strictly increase, because a packet number and
 a window restart only with a key that was never used before.
 */
module SupplicantRuns {
  import opened Common
  import opened Symbols
  import opened Supplicant

  // ---- transmissions and acceptances of a log -----------------------------------------

  // Of two sealed frames under one key the later has the higher packet number.
  ghost predicate SealedInOrder(log: seq<Out>) {
    forall i, j :: 0 <= i < j < |log| && log[i].Sealed? && log[j].Sealed? && log[i].tk == log[j].tk
      ==> log[i].pn < log[j].pn
  }

  predicate PairwiseCounter(c: Counter) {
    c.Data? || c.Management?
  }

  function CounterKey(c: Counter): Secret
    requires PairwiseCounter(c)
  {
    match c
    case Data(tk, _) => tk
    case Management(tk) => tk
  }

  // Of two frames accepted on one pairwise counter the later has the higher number.
  ghost predicate AcceptedInOrder(log: seq<Out>) {
    forall i, j :: (0 <= i < j < |log| && log[i].Accepted? && log[j].Accepted? && log[i].counter == log[j].counter
                    && PairwiseCounter(log[i].counter)) ==> log[i].number < log[j].number
  }

  // ---- the invariant ----------------------------------------------------------------------

  predicate Shape(s: State) {
    && s.connected in {0, 1, 2, 4}
    && (s.installed <==> s.connected == 4)
    && (s.connected >= 1 ==> s.bssid.Some?)
    && s.eapolState <= 2
    && (s.connected == 2 ==> s.eapolState <= 1)
    && (s.connected < 2 ==> s.eapolState == 0 && s.pending.None?)
    && (s.connected == 4 ==> s.eapolState >= 1)
    && (s.eapolState == 1 ==> s.pending.Some?)
    && (s.eapolState == 2 ==> s.pending.None?)
  }

  function PairwiseWindow(s: State, c: Counter): nat
    requires PairwiseCounter(c)
  {
    match c
    case Data(_, slot) => s.rxPn[slot]
    case Management(_) => s.rxMgmtPn
  }

  ghost predicate LogInv(s: State, log: seq<Out>) {
    && (s.installed ==> Out.Installed(s.tk) in log)
    && (forall o :: o in log && o.Sealed? ==>
          Out.Installed(o.tk) in log && (s.installed && o.tk == s.tk ==> o.pn < s.clientPn))
    && (forall o :: o in log && o.Accepted? && PairwiseCounter(o.counter) ==>
          Out.Installed(CounterKey(o.counter)) in log
          && (s.installed && CounterKey(o.counter) == s.tk ==> o.number <= PairwiseWindow(s, o.counter)))
    && SealedInOrder(log)
    && AcceptedInOrder(log)
  }

  ghost predicate Unused(log: seq<Out>, n: Nonce) {
    forall o :: o in log && o.Installed? ==> o.key.Tk? && !o.key.ptk.Uses(n)
  }

  // A candidate's SNonce has never been part of an installed key.
  ghost predicate NonceInv(s: State, log: seq<Out>, seen: set<Nonce>) {
    && (forall o :: o in log && o.Installed? ==> o.key.Tk? && o.key.ptk.nonceLow in seen && o.key.ptk.nonceHigh in seen)
    && (s.pending.Some? ==>
          var p := s.pending.value;
          && p.tk.Tk? && p.kck == Kck(p.tk.ptk) && p.kek == Kek(p.tk.ptk)
          && p.tk.ptk.nonceLow in seen && p.tk.ptk.nonceHigh in seen
          && p.tk.ptk.Uses(p.snonce) && p.snonce in seen
          && Unused(log, p.snonce))
  }

  ghost predicate Inv(s: State, log: seq<Out>, seen: set<Nonce>) {
    Shape(s) && LogInv(s, log) && NonceInv(s, log, seen)
  }

  // ---- what the primitives keep -----------------------------------------------------------------

  lemma {:induction false} NoteKeeps(s: State, log: seq<Out>, seen: set<Nonce>, o: Out)
    requires Inv(s, log, seen) && (o.Sent? || o.Delivered?)
    ensures Inv(s, log + [o], seen)
  {
  }

  lemma {:induction false} SeenMore(s: State, log: seq<Out>, seen: set<Nonce>, more: set<Nonce>)
    requires Inv(s, log, seen) && seen <= more
    ensures Inv(s, log, more)
  {
  }

  lemma {:induction false} SealKeeps(s: State, log: seq<Out>, seen: set<Nonce>, c: Content)
    requires Inv(s, log, seen) && s.installed
    ensures Inv(SealNext(s, c).s, log + SealNext(s, c).out, seen)
  {
  }

  lemma {:induction false} TxKeeps(s: State, log: seq<Out>, seen: set<Nonce>, f: EapolKey, protected: bool)
    requires Inv(s, log, seen)
    ensures Inv(TxEapol(s, f, protected).s, log + TxEapol(s, f, protected).out, seen)
  {
    hide Inv;
    if !protected {
      NoteKeeps(s, log, seen, Sent(f));
    } else {
      EncryptKeeps(s, log, seen, Eapol(f));
    }
  }

  lemma {:induction false} EncryptKeeps(s: State, log: seq<Out>, seen: set<Nonce>, c: Content)
    requires Inv(s, log, seen)
    ensures Inv(EncryptUplink(s, c).s, log + EncryptUplink(s, c).out, seen)
  {
    if s.bssid.Some? && s.connected >= 4 {
      SealKeeps(s, log, seen, c);
    } else {
      assert log + EncryptUplink(s, c).out == log;
    }
  }

  // Fields the invariant does not read.
  predicate SameSession(s: State, t: State) {
    && t.connected == s.connected && t.installed == s.installed && t.bssid == s.bssid
    && t.eapolState == s.eapolState && t.pending == s.pending && t.tk == s.tk
    && t.clientPn == s.clientPn && t.rxPn == s.rxPn && t.rxMgmtPn == s.rxMgmtPn
  }

  lemma {:induction false} SameSessionKeeps(s: State, t: State, log: seq<Out>, seen: set<Nonce>)
    requires Inv(s, log, seen) && SameSession(s, t)
    ensures Inv(t, log, seen)
  {
  }

  lemma {:induction false} ResetKeeps(s: State, t: State, log: seq<Out>, seen: set<Nonce>)
    requires Inv(s, log, seen)
    requires !t.installed && t.pending.None? && Shape(t)
    ensures Inv(t, log, seen)
  {
  }

  lemma {:induction false} SendEapol2Keeps(cfg: Config, s: State, log: seq<Out>, seen: set<Nonce>, b: Body, protected: bool, snonce: Nonce)
    requires Inv(s, log, seen) && s.connected >= 2
    requires {b.nonce, snonce} <= seen
    requires Unused(log, snonce)
    ensures var r := SendEapol2(cfg, s, b, protected, snonce); Inv(r.s, log + r.out, seen)
  {
    var p := Candidate(cfg, s, b.nonce, snonce, b.replay);
    var t := s.(pending := Some(p), eapolState := 1);
    assert Inv(t, log, seen);
    TxKeeps(t, log, seen, SecondMessage(cfg, s, p), protected);
    hide Inv;
  }

  // ---- message 3 -----------------------------------------------------------------------------------

  function Connected(s: State): State {
    s.(connected := 4, installed := true, eapolState := 2)
  }

  lemma {:induction false} CommitKeeps(s: State, log: seq<Out>, seen: set<Nonce>)
    requires Inv(s, log, seen) && s.pending.Some?
    ensures var r := CommitPending(s); Inv(Connected(r.s), log + r.out, seen)
  {
    var p := s.pending.value;
    assert Out.Installed(p.tk) !in log;
    var r := CommitPending(s);
    assert r.out == [Out.Installed(p.tk)];
    assert forall o :: o in log + r.out <==> o in log || o == Out.Installed(p.tk);
  }

  lemma {:induction false} ReplyKeeps(s: State, log: seq<Out>, seen: set<Nonce>, f: EapolKey, protected: bool)
    requires Inv(Connected(s), log, seen)
    ensures var r := TxEapol(s, f, protected); Inv(Connected(r.s), log + r.out, seen)
  {
    var r := TxEapol(s, f, protected);
    if r.out == [] {
      assert log + r.out == log;
    } else if !protected {
      NoteKeeps(Connected(s), log, seen, Sent(f));
    } else {
      SealKeeps(Connected(s), log, seen, Eapol(f));
    }
  }

  lemma {:induction false} GroupInstallSameSession(s: State, k: Delivery, rsc: nat)
    ensures InstallGroupKeys(s, k, rsc).Granted? ==> SameSession(s, InstallGroupKeys(s, k, rsc).s)
  {
  }

  lemma {:induction false} SendEapol4Keeps(cfg: Config, s: State, log: seq<Out>, seen: set<Nonce>, f: EapolKey, protected: bool)
    requires Inv(s, log, seen) && s.connected >= 2
    ensures var r := SendEapol4(cfg, s, f, protected); Inv(r.s, log + r.out, seen)
  {
    var taken := TakeM3(cfg, s, f);
    if taken.Some? && s.bssid.Some? {
      var t := taken.value;
      assert Inv(Connected(t.s), log + t.out, seen) by {
        if RetryM3(s, f.body) {
          SameSessionKeeps(s, Connected(t.s), log, seen);
          assert log + t.out == log;
        } else {
          var keys := Unwrap(s.pending.value.kek, f.body.data).value;
          GroupInstallSameSession(s, keys, f.body.rsc);
          var i := InstallGroupKeys(s, keys, f.body.rsc).s.(eapolReplay := f.body.replay);
          SameSessionKeeps(s, i, log, seen);
          CommitKeeps(i, log, seen);
        }
      }
      hide Inv;
      var m4 := Message4(KeyMic(cfg, t.s), t.s.kck, t.s.eapolReplay, cfg.mldMac);
      ReplyKeeps(t.s, log + t.out, seen, m4, protected);
      assert log + (t.out + TxEapol(t.s, m4, protected).out) == log + t.out + TxEapol(t.s, m4, protected).out;
    } else {
      assert log + SendEapol4(cfg, s, f, protected).out == log;
    }
  }

  lemma {:induction false} GroupRekeyKeeps(cfg: Config, s: State, log: seq<Out>, seen: set<Nonce>, f: EapolKey, protected: bool)
    requires Inv(s, log, seen)
    ensures var r := HandleGroupRekey(cfg, s, f, protected); Inv(r.s, log + r.out, seen)
  {
    var taken := TakeGroupM1(cfg, s, f);
    if s.bssid.None? || taken.None? {
      assert log + HandleGroupRekey(cfg, s, f, protected).out == log;
    } else {
      var keys := Unwrap(s.kek, f.body.data);
      if keys.Some? {
        GroupInstallSameSession(s, keys.value, f.body.rsc);
      }
      SameSessionKeeps(s, taken.value, log, seen);
      TxKeeps(taken.value, log, seen, GroupMessage2(KeyMic(cfg, s), s.kck, f.body.replay), protected);
    }
  }

  lemma {:induction false} InvFacts(s: State, log: seq<Out>, seen: set<Nonce>)
    requires Inv(s, log, seen)
    ensures Shape(s)
    ensures s.pending.Some? ==> s.pending.value.snonce in seen && Unused(log, s.pending.value.snonce)
  {
  }

  lemma {:induction false} EapolKeeps(cfg: Config, s: State, log: seq<Out>, seen: set<Nonce>, f: EapolKey, protected: bool, random: Nonce)
    requires Inv(s, log, seen) && s.connected >= 2
    requires f.body.nonce in seen && random in seen
    requires Unused(log, random)
    ensures var r := HandleEapolKey(cfg, s, f, protected, random); Inv(r.s, log + r.out, seen)
  {
    hide Inv, Unused, SendEapol2, SendEapol4, HandleGroupRekey, ValidM1, ValidM3, ValidGroupM1, M1Fresh;
    InvFacts(s, log, seen);
    var r := HandleEapolKey(cfg, s, f, protected, random);
    if r == SendEapol2(cfg, s, f.body, protected, random) {
      SendEapol2Keeps(cfg, s, log, seen, f.body, protected, random);
    } else if r == SendEapol4(cfg, s, f, protected) {
      SendEapol4Keeps(cfg, s, log, seen, f, protected);
    } else if r == HandleGroupRekey(cfg, s, f, protected) {
      GroupRekeyKeeps(cfg, s, log, seen, f, protected);
    } else if r == SendEapol2Retry(cfg, s, f.body, protected, random) {
      SendEapol2Keeps(cfg, s, log, seen, f.body, protected, s.pending.value.snonce);
    } else {
      assert r == Step(s, []);
      assert log + r.out == log;
    }
  }

  // ---- protected frames -----------------------------------------------------------------------------

  lemma {:induction false} AcceptKeeps(s: State, t: State, log: seq<Out>, seen: set<Nonce>, c: Counter, n: nat)
    requires Inv(s, log, seen)
    requires PairwiseCounter(c) ==>
               s.installed && CounterKey(c) == s.tk && PairwiseWindow(s, c) < n
               && (t == match c
                        case Data(_, slot) => s.(rxPn := s.rxPn[slot := n])
                        case Management(_) => s.(rxMgmtPn := n))
    requires !PairwiseCounter(c) ==> SameSession(s, t)
    ensures Inv(t, log + [Accepted(c, n)], seen)
  {
    var next := log + [Accepted(c, n)];
    assert forall o :: o in next <==> o in log || o == Accepted(c, n);
    assert forall i :: 0 <= i < |log| ==> log[i] in log;
    if PairwiseCounter(c) {
      assert forall d :: PairwiseCounter(d) ==> PairwiseWindow(t, d) >= PairwiseWindow(s, d);
    }
  }

  lemma {:induction false} AcceptDataKeeps(s: State, log: seq<Out>, seen: set<Nonce>, d: DataFrame)
    requires Inv(s, log, seen) && s.connected > 3 && DataOpens(s, d)
    ensures var a := AcceptData(s, d); Inv(a.s, log + a.out, seen)
  {
    var a := AcceptData(s, d);
    InvFacts(s, log, seen);
    hide Inv;
    AcceptKeeps(s, a.s, log, seen, a.out[0].counter, d.pn.value);
  }

  lemma {:induction false} DataKeeps(cfg: Config, s: State, log: seq<Out>, seen: set<Nonce>, d: DataFrame, random: Nonce)
    requires Inv(s, log, seen)
    requires random in seen && (d.content.Eapol? ==> d.content.frame.body.nonce in seen)
    requires Unused(log, random)
    ensures var r := ReceiveData(cfg, s, d, random); Inv(r.s, log + r.out, seen)
  {
    hide Inv, DataOpens, HandleEapolKey;
    var r := ReceiveData(cfg, s, d, random);
    if s.connected <= 3 || !DataOpens(s, d) {
      assert log + r.out == log;
    } else {
      AcceptDataKeeps(s, log, seen, d);
      var a := AcceptData(s, d);
      var next := log + a.out;
      if d.content.Ethernet? {
        NoteKeeps(a.s, next, seen, Delivered(d.content.octets));
        assert log + r.out == next + [Delivered(d.content.octets)];
      } else if !UsesGroupKey(s, d) {
        assert d.content.Eapol? by { DataContent(s, d); }
        assert Unused(next, random);
        EapolKeeps(cfg, a.s, next, seen, d.content.frame, true, random);
        var h := HandleEapolKey(cfg, a.s, d.content.frame, true, random);
        assert log + r.out == next + h.out;
      }
    }
  }

  lemma {:induction false} DataContent(s: State, d: DataFrame)
    requires DataOpens(s, d)
    ensures d.content.Ethernet? || d.content.Eapol?
  {
  }

  lemma {:induction false} AcceptMgmtKeeps(s: State, log: seq<Out>, seen: set<Nonce>, m: MgmtFrame)
    requires Inv(s, log, seen) && MgmtOpens(s, m)
    ensures var a := AcceptMgmt(s, m); Inv(a.s, log + a.out, seen) && Inv(Disconnect(a.s), log + a.out, seen)
  {
    var a := AcceptMgmt(s, m);
    AcceptKeeps(s, a.s, log, seen, Management(s.tk), m.pn.value);
    ResetKeeps(a.s, Disconnect(a.s), log + a.out, seen);
    hide Inv;
  }

  lemma {:induction false} ActionKeeps(s: State, log: seq<Out>, seen: set<Nonce>, m: MgmtFrame)
    requires Inv(s, log, seen)
    ensures var r := HandleAction(s, m); Inv(r.s, log + r.out, seen)
  {
    hide Inv;
    var r := HandleAction(s, m);
    if s.saePmk.None? || !MgmtOpens(s, m) {
      assert log + r.out == log;
    } else {
      var a := AcceptMgmt(s, m);
      AcceptMgmtKeeps(s, log, seen, m);
      if m.content.SaQueryRequest? && s.bssid.Some? {
        SealKeeps(a.s, log + a.out, seen, SaQueryResponse(m.content.id));
        assert log + r.out == log + a.out + SealNext(a.s, SaQueryResponse(m.content.id)).out;
      }
    }
  }

  lemma {:induction false} DeauthKeeps(s: State, log: seq<Out>, seen: set<Nonce>, m: MgmtFrame)
    requires Inv(s, log, seen)
    ensures var r := HandleDeauth(s, m); Inv(r.s, log + r.out, seen)
  {
    ResetKeeps(s, Disconnect(s), log, seen);
    hide Inv;
    var r := HandleDeauth(s, m);
    if r.out == [] {
      assert log + r.out == log;
    } else if m.group {
      AcceptKeeps(Disconnect(s), Disconnect(s), log, seen, Bip(s.igtk.value), m.pn.value);
    } else {
      AcceptMgmtKeeps(s, log, seen, m);
    }
  }

  lemma {:induction false} MgmtKeeps(s: State, log: seq<Out>, seen: set<Nonce>, m: MgmtFrame)
    requires Inv(s, log, seen)
    ensures var r := HandleRobustMgmt(s, m); Inv(r.s, log + r.out, seen)
  {
    hide Inv, HandleAction, HandleDeauth;
    if s.connected < 2 || !m.fromAp {
      assert log + HandleRobustMgmt(s, m).out == log;
    } else if m.action {
      ActionKeeps(s, log, seen, m);
    } else {
      DeauthKeeps(s, log, seen, m);
    }
  }

  // ---- every run ------------------------------------------------------------------------------------

  lemma {:induction false} HandleKeeps(cfg: Config, s: State, log: seq<Out>, seen: set<Nonce>, e: Event)
    requires Inv(s, log, seen)
    requires EventFrame(e).Some? ==> EventFrame(e).value.body.nonce in seen
    requires EventRandom(e).Some? ==> EventRandom(e).value in seen && Unused(log, EventRandom(e).value)
    ensures var r := Handle(cfg, s, e); Inv(r.s, log + r.out, seen)
  {
    hide Inv, Unused, HandleEapolKey, ReceiveData, HandleRobustMgmt, EncryptUplink;
    var r := Handle(cfg, s, e);
    InvFacts(s, log, seen);
    match e {
      case EapolReceived(f, random) =>
        if s.connected > 1 {
          EapolKeeps(cfg, s, log, seen, f, false, random);
        } else {
          assert log + r.out == log;
        }
      case DataReceived(d, random) => DataKeeps(cfg, s, log, seen, d, random);
      case MgmtReceived(m) => MgmtKeeps(s, log, seen, m);
      case Uplink(octets) => EncryptKeeps(s, log, seen, Ethernet(octets));
      case _ =>
        assert log + r.out == log;
        ConnectionKeeps(cfg, s, log, seen, e);
    }
  }

  lemma {:induction false} ConnectionKeeps(cfg: Config, s: State, log: seq<Out>, seen: set<Nonce>, e: Event)
    requires Inv(s, log, seen)
    requires e.BeaconSeen? || e.SaeDone? || e.AssocAccepted? || e.AssocRefused? || e.TimedOut?
    ensures Inv(Handle(cfg, s, e).s, log, seen)
  {
    var t := Handle(cfg, s, e).s;
    InvFacts(s, log, seen);
    if s.connected <= 1 || e.TimedOut? {
      ResetKeeps(s, if t.installed then s else t, log, seen);
    } else {
      assert t == s;
    }
    hide Inv;
  }

  // Freshness against everything seen is freshness against the installed keys.
  lemma {:induction false} UnseenIsUnused(s: State, log: seq<Out>, seen: set<Nonce>, n: Nonce)
    requires Inv(s, log, seen) && n !in seen
    ensures Unused(log, n)
  {
  }

  lemma {:induction false} RunKeeps(cfg: Config, es: seq<Event>)
    requires FreshRandom(es)
    ensures Inv(Run(cfg, es).s, Run(cfg, es).out, NoncesSeen(es))
  {
    if es == [] {
      assert Inv(Initial(), [], {});
    } else {
      var front, e := es[..|es| - 1], es[|es| - 1];
      RunKeeps(cfg, front);
      var r := Run(cfg, front);
      hide Inv, Handle, Unused;
      if EventRandom(e).Some? {
        UnseenIsUnused(r.s, r.out, NoncesSeen(front), EventRandom(e).value);
      }
      SeenMore(r.s, r.out, NoncesSeen(front), NoncesSeen(es));
      HandleKeeps(cfg, r.s, r.out, NoncesSeen(es), e);
    }
  }

  // Over any run, message 3 retries, rekeys and reconnects included, the packet numbers sent
  // under one temporal key strictly increase, so none is sent twice, and so do the numbers
  // accepted on each pairwise counter.
  lemma {:induction false} NoPacketNumberTwice(cfg: Config, es: seq<Event>)
    requires FreshRandom(es)
    ensures SealedInOrder(Run(cfg, es).out)
    ensures AcceptedInOrder(Run(cfg, es).out)
  {
    RunKeeps(cfg, es);
  }
}
