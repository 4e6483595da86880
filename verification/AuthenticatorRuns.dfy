/**
 What the authenticator keeps over every run: an ANonce leads to at most one installed key,
 so the packet numbers sent under one temporal key and the numbers accepted on one counter
 strictly increase, across reassociation, new authentications, changed SNonces and teardown;
 and so do the group packet numbers under one GTK.
 */
module AuthenticatorRuns {
  import opened Common
  import opened Symbols
  import opened Authenticator

  // ---- transmissions and acceptances of a log ---------------------------------------------

  // Of two frames to one station under one key the later has the higher packet number.
  ghost predicate SealedInOrder(m: Mac, log: seq<Out>) {
    forall i, j :: (0 <= i < j < |log| && log[i].Sealed? && log[j].Sealed? && log[i].to == m == log[j].to
                    && log[i].tk == log[j].tk) ==> log[i].pn < log[j].pn
  }

  // Of two frames from one station accepted on one counter the later has the higher number.
  ghost predicate AcceptedInOrder(m: Mac, log: seq<Out>) {
    forall i, j :: (0 <= i < j < |log| && log[i].Accepted? && log[j].Accepted? && log[i].from == m == log[j].from
                    && log[i].counter == log[j].counter) ==> log[i].number < log[j].number
  }

  // What the log must not gain for station m without a step of that station.
  predicate Concerns(m: Mac, o: Out) {
    (o.Sealed? && o.to == m) || (o.Accepted? && o.from == m) || (o.Installed? && o.at == m)
  }

  // ---- the invariant of one address ------------------------------------------------------------

  ghost predicate Unused(m: Mac, log: seq<Out>, n: Nonce) {
    forall o :: o in log && o.Installed? && o.at == m ==> o.key.Tk? && !o.key.ptk.Uses(n)
  }

  // On a link without MLD identities the address pair of a key is the AP's and the station's.
  predicate Addressed(cfg: Config, m: Mac, p: Ptk) {
    cfg.mld || (p.addressLow + p.addressHigh == cfg.mac + m && (p.addressLow == m || p.addressHigh == m))
  }

  function CounterKey(c: Counter): Option<Secret> {
    match c
    case Data(tk, _) => Some(tk)
    case Management(tk) => Some(tk)
    case _ => None
  }

  function WindowOf(s: Station, c: Counter): nat {
    match c
    case Data(_, slot) => s.rxPn[slot]
    case Management(_) => s.rxMgmtPn
    case _ => 0
  }

  ghost predicate KeysInv(cfg: Config, m: Mac, log: seq<Out>, seen: set<Nonce>) {
    forall o :: o in log && o.Installed? && o.at == m ==>
      o.key.Tk? && o.key.ptk.nonceLow in seen && o.key.ptk.nonceHigh in seen && Addressed(cfg, m, o.key.ptk)
  }

  ghost predicate TrafficInv(m: Mac, st: Option<Station>, log: seq<Out>) {
    && (forall o :: o in log && o.Sealed? && o.to == m ==>
          Installed(m, o.tk) in log
          && (st.Some? && st.value.associated && o.tk == st.value.tk ==> o.pn < st.value.clientPn))
    && (forall o :: o in log && o.Accepted? && o.from == m ==>
          CounterKey(o.counter).Some? && Installed(m, CounterKey(o.counter).value) in log
          && (st.Some? && st.value.associated && CounterKey(o.counter).value == st.value.tk ==>
                o.number <= WindowOf(st.value, o.counter)))
    && SealedInOrder(m, log)
    && AcceptedInOrder(m, log)
  }

  ghost predicate CandidateInv(cfg: Config, m: Mac, s: Station, seen: set<Nonce>, c: PtkCandidate) {
    && c.tk.Tk? && c.kck == Kck(c.tk.ptk) && c.kek == Kek(c.tk.ptk)
    && c.tk.ptk.nonceLow in seen && c.tk.ptk.nonceHigh in seen && Addressed(cfg, m, c.tk.ptk)
    && s.anonce.Some? && c.tk.ptk.Uses(s.anonce.value)
  }

  // The ANonce of a handshake in progress has never been part of an installed key.
  ghost predicate StationInv(cfg: Config, m: Mac, s: Station, log: seq<Out>, seen: set<Nonce>) {
    && (s.associated ==> Installed(m, s.tk) in log)
    && ((s.eapolReady || s.awaitingM4) && s.anonce.Some? ==> s.anonce.value in seen && Unused(m, log, s.anonce.value))
    && (s.candidates != [] ==> s.awaitingM4 && !s.eapolReady)
    && (forall c :: c in s.candidates ==> CandidateInv(cfg, m, s, seen, c))
    && (!cfg.mld ==> s.linkMac.None?)
  }

  ghost predicate HeldInv(m: Mac, held: Option<Nonce>, log: seq<Out>, seen: set<Nonce>) {
    held.Some? ==> held.value in seen && Unused(m, log, held.value)
  }

  function At(a: State, m: Mac): Option<Station> {
    if m in a.stations then Some(a.stations[m]) else None
  }

  function HeldAt(a: State, m: Mac): Option<Nonce> {
    if m in a.pendingAnonce then Some(a.pendingAnonce[m].anonce) else None
  }

  ghost predicate Inv(cfg: Config, m: Mac, st: Option<Station>, held: Option<Nonce>, log: seq<Out>, seen: set<Nonce>) {
    && KeysInv(cfg, m, log, seen)
    && TrafficInv(m, st, log)
    && (st.Some? ==> StationInv(cfg, m, st.value, log, seen))
    && HeldInv(m, held, log, seen)
  }

  // ---- what the primitives keep -----------------------------------------------------------------------

  predicate Unconcerned(m: Mac, out: seq<Out>) {
    forall o :: o in out ==> !Concerns(m, o)
  }

  lemma {:induction false} NoteKeeps(cfg: Config, m: Mac, st: Option<Station>, held: Option<Nonce>, log: seq<Out>, seen: set<Nonce>,
                  out: seq<Out>, more: set<Nonce>)
    requires Inv(cfg, m, st, held, log, seen) && Unconcerned(m, out) && seen <= more
    ensures Inv(cfg, m, st, held, log + out, more)
  {
    var next := log + out;
    assert forall o :: o in next && Concerns(m, o) ==> o in log;
    assert forall i :: |log| <= i < |next| ==> next[i] in out;
  }

  // Fields the traffic invariant reads.
  predicate SameTraffic(s: Station, t: Station) {
    (t.associated ==> s.associated && t.tk == s.tk && t.clientPn == s.clientPn && t.rxPn == s.rxPn && t.rxMgmtPn == s.rxMgmtPn)
  }

  predicate SameHandshake(s: Station, t: Station) {
    && t.eapolReady == s.eapolReady && t.awaitingM4 == s.awaitingM4 && t.anonce == s.anonce
    && t.candidates == s.candidates
  }

  lemma {:induction false} SameKeeps(cfg: Config, m: Mac, s: Station, t: Station, held: Option<Nonce>, log: seq<Out>, seen: set<Nonce>)
    requires Inv(cfg, m, Some(s), held, log, seen)
    requires SameTraffic(s, t) && SameHandshake(s, t) && (!cfg.mld ==> t.linkMac.None?)
    ensures Inv(cfg, m, Some(t), held, log, seen)
  {
  }

  lemma {:induction false} GoneKeeps(cfg: Config, m: Mac, st: Option<Station>, held: Option<Nonce>, log: seq<Out>, seen: set<Nonce>)
    requires Inv(cfg, m, st, held, log, seen)
    ensures Inv(cfg, m, None, held, log, seen)
    ensures Inv(cfg, m, st, None, log, seen)
  {
  }

  // A session without handshake and without key, as a new record or a restarted one.
  lemma {:induction false} IdleKeeps(cfg: Config, m: Mac, st: Option<Station>, t: Station, held: Option<Nonce>, log: seq<Out>, seen: set<Nonce>)
    requires Inv(cfg, m, st, held, log, seen)
    requires !t.associated && !t.eapolReady && !t.awaitingM4 && t.candidates == [] && (!cfg.mld ==> t.linkMac.None?)
    ensures Inv(cfg, m, Some(t), held, log, seen)
  {
  }

  lemma {:induction false} SealTraffic(m: Mac, s: Station, log: seq<Out>, c: Content)
    requires TrafficInv(m, Some(s), log) && s.associated && Installed(m, s.tk) in log
    ensures TrafficInv(m, Some(s.(clientPn := s.clientPn + 1)), log + [Sealed(m, s.tk, s.clientPn, c)])
  {
    var o := Sealed(m, s.tk, s.clientPn, c);
    assert forall x :: x in log + [o] <==> x in log || x == o;
    assert forall i :: 0 <= i < |log| ==> log[i] in log;
  }

  // An entry that installs nothing leaves everything but the traffic as it was.
  lemma {:induction false} TrafficEntryKeeps(cfg: Config, m: Mac, s: Station, t: Station, held: Option<Nonce>, log: seq<Out>, seen: set<Nonce>, o: Out)
    requires Inv(cfg, m, Some(s), held, log, seen) && !o.Installed?
    requires SameHandshake(s, t) && t.associated == s.associated && t.tk == s.tk && t.linkMac == s.linkMac
    requires TrafficInv(m, Some(t), log + [o])
    ensures Inv(cfg, m, Some(t), held, log + [o], seen)
  {
    hide TrafficInv;
    assert forall x :: x in log + [o] <==> x in log || x == o;
  }

  lemma {:induction false} SealKeeps(cfg: Config, m: Mac, s: Station, held: Option<Nonce>, log: seq<Out>, seen: set<Nonce>, c: Content)
    requires Inv(cfg, m, Some(s), held, log, seen) && s.associated
    ensures Inv(cfg, m, Some(s.(clientPn := s.clientPn + 1)), held, log + [Sealed(m, s.tk, s.clientPn, c)], seen)
  {
    hide TrafficInv;
    SealTraffic(m, s, log, c);
    TrafficEntryKeeps(cfg, m, s, s.(clientPn := s.clientPn + 1), held, log, seen, Sealed(m, s.tk, s.clientPn, c));
  }

  function Accepting(s: Station, c: Counter, n: nat): Station {
    match c
    case Data(_, slot) => s.(rxPn := s.rxPn[slot := n])
    case _ => s.(rxMgmtPn := n)
  }

  lemma {:induction false} AcceptTraffic(m: Mac, s: Station, log: seq<Out>, c: Counter, n: nat)
    requires TrafficInv(m, Some(s), log) && s.associated && Installed(m, s.tk) in log
    requires CounterKey(c) == Some(s.tk) && WindowOf(s, c) < n
    ensures TrafficInv(m, Some(Accepting(s, c, n)), log + [Accepted(m, c, n)])
  {
    var o := Accepted(m, c, n);
    assert forall x :: x in log + [o] <==> x in log || x == o;
    assert forall i :: 0 <= i < |log| ==> log[i] in log;
    assert forall d :: WindowOf(Accepting(s, c, n), d) >= WindowOf(s, d);
  }

  lemma {:induction false} AcceptKeeps(cfg: Config, m: Mac, s: Station, held: Option<Nonce>, log: seq<Out>, seen: set<Nonce>, c: Counter, n: nat)
    requires Inv(cfg, m, Some(s), held, log, seen) && s.associated
    requires CounterKey(c) == Some(s.tk) && WindowOf(s, c) < n
    ensures Inv(cfg, m, Some(Accepting(s, c, n)), held, log + [Accepted(m, c, n)], seen)
  {
    hide TrafficInv;
    AcceptTraffic(m, s, log, c, n);
    TrafficEntryKeeps(cfg, m, s, Accepting(s, c, n), held, log, seen, Accepted(m, c, n));
  }

  lemma {:induction false} OtherKeepsOrder(m: Mac, log: seq<Out>, o: Out)
    requires SealedInOrder(m, log) && AcceptedInOrder(m, log) && !o.Sealed? && !o.Accepted?
    ensures SealedInOrder(m, log + [o]) && AcceptedInOrder(m, log + [o])
  {
  }

  lemma {:induction false} CommitTraffic(m: Mac, s: Station, log: seq<Out>, c: PtkCandidate)
    requires TrafficInv(m, Some(s), log) && Installed(m, c.tk) !in log && !(s.associated && s.tk == c.tk)
    ensures TrafficInv(m, Some(CommitCandidate(s, c)), log + [Installed(m, c.tk)])
  {
    var o := Installed(m, c.tk);
    OtherKeepsOrder(m, log, o);
    hide SealedInOrder, AcceptedInOrder;
    assert forall x :: x in log + [o] <==> x in log || x == o;
  }

  lemma {:induction false} CandidateIsNew(cfg: Config, m: Mac, s: Station, log: seq<Out>, seen: set<Nonce>, c: PtkCandidate)
    requires StationInv(cfg, m, s, log, seen) && c in s.candidates
    ensures CandidateInv(cfg, m, s, seen, c)
    ensures Installed(m, c.tk) !in log && !(s.associated && s.tk == c.tk)
  {
    hide Addressed;
  }

  // The heart of the argument: a candidate's key was never installed before, so the packet
  // number and the windows may restart with it.
  lemma {:induction false} CommitKeeps(cfg: Config, m: Mac, s: Station, held: Option<Nonce>, log: seq<Out>, seen: set<Nonce>, c: PtkCandidate)
    requires Inv(cfg, m, Some(s), held, log, seen) && c in s.candidates
    ensures Installed(m, c.tk) !in log && !(s.associated && s.tk == c.tk)
    ensures Inv(cfg, m, Some(CommitCandidate(s, c)), None, log + [Installed(m, c.tk)], seen)
  {
    hide TrafficInv, Addressed;
    CandidateIsNew(cfg, m, s, log, seen, c);
    var o := Installed(m, c.tk);
    CommitTraffic(m, s, log, c);
    assert forall x :: x in log + [o] <==> x in log || x == o;
  }

  // ---- the handshake -----------------------------------------------------------------------------------

  // A handshake with an ANonce that no installed key uses.
  lemma {:induction false} StartKeeps(cfg: Config, m: Mac, s: Station, t: Station, held: Option<Nonce>, log: seq<Out>, seen: set<Nonce>, n: Nonce)
    requires Inv(cfg, m, Some(s), held, log, seen) && n in seen && Unused(m, log, n)
    requires SameTraffic(s, t) && t.anonce == Some(n) && t.candidates == [] && (!cfg.mld ==> t.linkMac.None?)
    ensures Inv(cfg, m, Some(t), Some(n), log, seen)
  {
  }

  lemma {:induction false} RetainKeeps(cfg: Config, m: Mac, s: Station, t: Station, held: Option<Nonce>, log: seq<Out>, seen: set<Nonce>, c: PtkCandidate)
    requires Inv(cfg, m, Some(s), held, log, seen) && (s.eapolReady || s.awaitingM4)
    requires CandidateInv(cfg, m, s, seen, c)
    requires SameTraffic(s, t) && t.anonce == s.anonce && t.candidates == Retain(s.candidates, c)
    requires !t.eapolReady && t.awaitingM4 && t.linkMac == s.linkMac
    ensures Inv(cfg, m, Some(t), held, log, seen)
  {
    hide TrafficInv;
    TrafficSame(m, s, t, log);
    forall d | d in t.candidates ensures CandidateInv(cfg, m, t, seen, d) {
      if d in s.candidates {
        assert CandidateInv(cfg, m, s, seen, d);
      }
    }
  }

  lemma {:induction false} TrafficSame(m: Mac, s: Station, t: Station, log: seq<Out>)
    requires TrafficInv(m, Some(s), log) && SameTraffic(s, t)
    ensures TrafficInv(m, Some(t), log)
  {
  }

  lemma {:induction false} SelectedIsRetained(cfg: Config, s: Station, cs: seq<PtkCandidate>, f: EapolKey)
    ensures SelectCandidate(cfg, s, cs, f).Some? ==> SelectCandidate(cfg, s, cs, f).value in cs
  {
    if cs != [] {
      SelectedIsRetained(cfg, s, cs[1..], f);
    }
  }

  // ---- the handlers, for the station they are about ------------------------------------------------------

  ghost predicate InvAt(cfg: Config, m: Mac, a: State, log: seq<Out>, seen: set<Nonce>) {
    Inv(cfg, m, At(a, m), HeldAt(a, m), log, seen)
  }

  lemma {:induction false} SealNextKeeps(cfg: Config, m: Mac, a: State, log: seq<Out>, seen: set<Nonce>, c: Content)
    requires InvAt(cfg, m, a, log, seen)
    ensures var r := SealNext(a, m, c); InvAt(cfg, m, r.s, log + r.out, seen)
  {
    hide Inv;
    var r := SealNext(a, m, c);
    if r.out == [] {
      assert log + r.out == log;
    } else {
      SealKeeps(cfg, m, a.stations[m], HeldAt(a, m), log, seen, c);
    }
  }

  lemma {:induction false} ChallengeKeeps(cfg: Config, m: Mac, a: State, log: seq<Out>, seen: set<Nonce>, now: nat)
    requires InvAt(cfg, m, a, log, seen)
    ensures var r := SaQueryChallenge(a, m, now); InvAt(cfg, m, r.s, log + r.out, seen)
  {
    hide Inv, StationInv;
    var r := SaQueryChallenge(a, m, now);
    if m !in a.stations || !a.stations[m].associated {
      assert log + r.out == log;
    } else {
      var query := a.stations[m].saQuery;
      var id := if query.Some? then query.value.id else (a.saQueryId + 1) % 0x1_0000;
      var b := a.(saQueryId := if query.Some? then a.saQueryId else id);
      SealNextKeeps(cfg, m, b, log, seen, SaQueryRequest(id));
      var t := SealNext(b, m, SaQueryRequest(id));
      if t.out != [] {
        LinkFact(cfg, m, t.s.stations[m], HeldAt(t.s, m), log + t.out, seen);
        SameKeeps(cfg, m, t.s.stations[m], r.s.stations[m], HeldAt(t.s, m), log + t.out, seen);
      }
    }
  }

  lemma {:induction false} LinkFact(cfg: Config, m: Mac, s: Station, held: Option<Nonce>, log: seq<Out>, seen: set<Nonce>)
    requires Inv(cfg, m, Some(s), held, log, seen)
    ensures !cfg.mld ==> s.linkMac.None?
    ensures s.associated ==> Installed(m, s.tk) in log
  {
  }

  lemma {:induction false} NoteAt(cfg: Config, m: Mac, a: State, log: seq<Out>, seen: set<Nonce>, out: seq<Out>)
    requires InvAt(cfg, m, a, log, seen) && Unconcerned(m, out)
    ensures InvAt(cfg, m, a, log + out, seen)
  {
    hide Inv;
    NoteKeeps(cfg, m, At(a, m), HeldAt(a, m), log, seen, out, seen);
  }

  // The record a handler starts from: the station's, or a new one.
  function Record(a: State, m: Mac, gtk: GroupKey, igtk: GroupKey): Station {
    if m in a.stations then a.stations[m] else NewStation(gtk, igtk)
  }

  lemma {:induction false} RecordKeeps(cfg: Config, m: Mac, a: State, log: seq<Out>, seen: set<Nonce>, gtk: GroupKey, igtk: GroupKey)
    requires InvAt(cfg, m, a, log, seen)
    ensures Inv(cfg, m, Some(Record(a, m, gtk, igtk)), HeldAt(a, m), log, seen)
  {
    if m !in a.stations {
      IdleKeeps(cfg, m, None, NewStation(gtk, igtk), HeldAt(a, m), log, seen);
    }
  }

  lemma {:induction false} AuthKeeps(cfg: Config, m: Mac, a: State, log: seq<Out>, seen: set<Nonce>, sae: bool, now: nat, gtk: GroupKey, igtk: GroupKey)
    requires InvAt(cfg, m, a, log, seen)
    ensures var r := HandleAuth(a, m, sae, now, gtk, igtk); InvAt(cfg, m, r.s, log + r.out, seen)
  {
    hide Inv, SaQueryChallenge, NewStation;
    var r := HandleAuth(a, m, sae, now, gtk, igtk);
    if PmfProtected(a, m) {
      ChallengeKeeps(cfg, m, a, log, seen, now);
    } else if sae {
      assert log + r.out == log;
    } else {
      var s := Record(a, m, gtk, igtk);
      RecordKeeps(cfg, m, a, log, seen, gtk, igtk);
      LinkFact(cfg, m, s, HeldAt(a, m), log, seen);
      var t := OpenAuth(s, now, gtk);
      if t == RestartSession(s, now, gtk) {
        IdleKeeps(cfg, m, Some(s), t, HeldAt(a, m), log, seen);
      } else {
        SameKeeps(cfg, m, s, t, HeldAt(a, m), log, seen);
      }
      NoteAt(cfg, m, r.s, log, seen, r.out);
    }
  }

  lemma {:induction false} SaeCommitKeeps(cfg: Config, m: Mac, a: State, log: seq<Out>, seen: set<Nonce>, pmk: Pmk, h2e: bool, mld: Option<Mac>,
                       gtk: GroupKey, igtk: GroupKey)
    requires InvAt(cfg, m, a, log, seen)
    ensures InvAt(cfg, m, SaeCommitFinished(a, m, pmk, h2e, mld, gtk, igtk), log, seen)
  {
    hide Inv, NewStation;
    var s := Record(a, m, gtk, igtk);
    RecordKeeps(cfg, m, a, log, seen, gtk, igtk);
    LinkFact(cfg, m, s, HeldAt(a, m), log, seen);
    SameKeeps(cfg, m, s, SaeCommitFinished(a, m, pmk, h2e, mld, gtk, igtk).stations[m], HeldAt(a, m), log, seen);
  }

  lemma {:induction false} SaeConfirmKeeps(cfg: Config, m: Mac, a: State, log: seq<Out>, seen: set<Nonce>, pmkid: nat, expires: nat)
    requires InvAt(cfg, m, a, log, seen)
    ensures InvAt(cfg, m, SaeConfirmFinished(a, m, pmkid, expires), log, seen)
  {
    hide Inv;
    if m in a.stations {
      LinkFact(cfg, m, a.stations[m], HeldAt(a, m), log, seen);
      SameKeeps(cfg, m, a.stations[m], SaeConfirmFinished(a, m, pmkid, expires).stations[m], HeldAt(a, m), log, seen);
    }
  }

  // ---- association ------------------------------------------------------------------------------------------

  predicate Same(s: Station, t: Station) {
    SameTraffic(s, t) && SameHandshake(s, t) && t.associated == s.associated
  }

  lemma {:induction false} HierarchySame(cfg: Config, s: Station, q: AssocRequest)
    ensures Same(s, WithHierarchy(cfg, s, q))
  {
    hide SelectsPskSha256;
  }

  lemma {:induction false} NegotiatedSame(cfg: Config, s: Station, q: AssocRequest)
    requires q.negotiation.Suite?
    ensures var t := Negotiated(cfg, s, q); Same(s, t) && (!cfg.mld ==> t.linkMac.None?)
  {
    hide WithHierarchy;
    HierarchySame(cfg, s, q);
  }

  lemma {:induction false} WithPmksaSame(s: Station, cached: Option<Pmksa>)
    ensures Same(s, WithPmksa(s, cached)) && WithPmksa(s, cached).linkMac == s.linkMac
  {
  }

  lemma {:induction false} WithOweSame(s: Station, pmk: Option<Pmk>)
    ensures Same(s, WithOwe(s, pmk)) && WithOwe(s, pmk).linkMac == s.linkMac
  {
  }

  lemma {:induction false} AuthorizedSame(cfg: Config, a: State, sta: Mac, s: Station, q: AssocRequest, now: nat)
    ensures var t := Authorized(cfg, a, sta, s, q, now).0; Same(s, t) && t.linkMac == s.linkMac
  {
    hide CachedPmksa, WithPmksa, WithOwe;
    var s1 := WithPmksa(s, CachedPmksa(a.pmksa, q.pmkids, s.mldMac.GetOr(sta), now));
    WithPmksaSame(s, CachedPmksa(a.pmksa, q.pmkids, s.mldMac.GetOr(sta), now));
    if q.dh.Dh? {
      WithOweSame(s1, q.dh.pmk);
    }
  }

  lemma {:induction false} StartHandshakeKeeps(cfg: Config, m: Mac, a: State, s: Station, log: seq<Out>, seen: set<Nonce>, random: Nonce, now: nat)
    requires Inv(cfg, m, Some(s), HeldAt(a, m), log, seen)
    requires random in seen && Unused(m, log, random)
    ensures var r := StartHandshake(cfg, a, m, s, random, now); InvAt(cfg, m, r.s, log + r.out, seen)
  {
    var b := a.(pendingAnonce := DropExpired(a.pendingAnonce, now));
    var (n, replay, drawn) := ChooseAnonce(b, m, s, random);
    assert n in seen && Unused(m, log, n);
    LinkFact(cfg, m, s, HeldAt(a, m), log, seen);
    var r := StartHandshake(cfg, a, m, s, random, now);
    hide Inv, FirstMessage;
    StartKeeps(cfg, m, s, r.s.stations[m], HeldAt(a, m), log, seen, n);
    NoteAt(cfg, m, r.s, log, seen, r.out);
  }

  lemma {:induction false} AssocKeeps(cfg: Config, m: Mac, a: State, log: seq<Out>, seen: set<Nonce>, q: AssocRequest, now: nat, random: Nonce,
                   gtk: GroupKey, igtk: GroupKey)
    requires InvAt(cfg, m, a, log, seen)
    requires random in seen && Unused(m, log, random)
    ensures var r := HandleAssoc(cfg, a, m, q, now, random, gtk, igtk); InvAt(cfg, m, r.s, log + r.out, seen)
  {
    hide Inv, SaQueryChallenge, NewStation, Negotiated, Authorized, StartHandshake, Unused, Recent;
    var r := HandleAssoc(cfg, a, m, q, now, random, gtk, igtk);
    if !q.reloading && PmfProtected(a, m) {
      NoteAt(cfg, m, a, log, seen, [Answer(m, Comeback)]);
      ChallengeKeeps(cfg, m, a, log + [Answer(m, Comeback)], seen, now);
      assert log + r.out == log + [Answer(m, Comeback)] + SaQueryChallenge(a, m, now).out;
    } else if q.reloading || Refusal(cfg, a, m, q).Some? {
      NoteAt(cfg, m, a, log, seen, r.out);
    } else {
      var s0 := Record(a, m, gtk, igtk);
      RecordKeeps(cfg, m, a, log, seen, gtk, igtk);
      NegotiatedSame(cfg, s0, q);
      var s := Negotiated(cfg, s0, q);
      SameKeeps(cfg, m, s0, s, HeldAt(a, m), log, seen);
      var s1 := s.(lastAssoc := Some(now));
      SameKeeps(cfg, m, s, s1, HeldAt(a, m), log, seen);
      AuthorizedSame(cfg, a, m, s1, q, now);
      var t := Authorized(cfg, a, m, s1, q, now).0;
      SameKeeps(cfg, m, s1, t, HeldAt(a, m), log, seen);
      if r == StartHandshake(cfg, a, m, t, random, now) {
        StartHandshakeKeeps(cfg, m, a, t, log, seen, random, now);
      } else {
        assert At(r.s, m) == Some(s) || At(r.s, m) == Some(t);
        NoteAt(cfg, m, r.s, log, seen, r.out);
      }
    }
  }

  // ---- EAPOL ------------------------------------------------------------------------------------------------

  lemma {:induction false} M4Keeps(cfg: Config, m: Mac, a: State, log: seq<Out>, seen: set<Nonce>, f: EapolKey)
    requires InvAt(cfg, m, a, log, seen) && m in a.stations
    ensures var r := HandleM4(cfg, a, m, a.stations[m], f); InvAt(cfg, m, r.s, log + r.out, seen)
  {
    hide Inv, CommitCandidate, SelectCandidate;
    var s := a.stations[m];
    var c := SelectCandidate(cfg, s, s.candidates, f);
    SelectedIsRetained(cfg, s, s.candidates, f);
    if c.Some? {
      CommitKeeps(cfg, m, s, HeldAt(a, m), log, seen, c.value);
    } else {
      assert log + HandleM4(cfg, a, m, s, f).out == log;
    }
  }

  lemma {:induction false} IssueM3Keeps(cfg: Config, m: Mac, a: State, log: seq<Out>, seen: set<Nonce>, pmk: Pmk, snonce: Nonce)
    requires InvAt(cfg, m, a, log, seen) && m in a.stations && snonce in seen
    requires var s := a.stations[m]; (s.eapolReady || s.awaitingM4) && s.anonce.Some?
    ensures var r := IssueM3(cfg, a, m, a.stations[m], pmk, snonce); InvAt(cfg, m, r.s, log + r.out, seen)
  {
    var s := a.stations[m];
    var r := IssueM3(cfg, a, m, s, pmk, snonce);
    var ptk := StationPtk(cfg, m, s, pmk, snonce);
    var replay := if s.awaitingM4 then s.eapolReplay else NextReplay(a.replayCounter);
    var c := PtkCandidate(replay, Kck(ptk), Kek(ptk), Tk(ptk));
    assert CandidateInv(cfg, m, s, seen, c);
    hide Inv, ThirdMessage, StationPtk, NextReplay, CandidateInv, Retain;
    RetainKeeps(cfg, m, s, r.s.stations[m], HeldAt(a, m), log, seen, c);
    if !s.awaitingM4 {
      GoneKeeps(cfg, m, At(r.s, m), HeldAt(a, m), log, seen);
    }
    NoteAt(cfg, m, r.s, log, seen, r.out);
  }

  lemma {:induction false} M2Keeps(cfg: Config, m: Mac, a: State, log: seq<Out>, seen: set<Nonce>, f: EapolKey, rsnMatches: bool)
    requires InvAt(cfg, m, a, log, seen) && m in a.stations && f.body.nonce in seen
    ensures var r := HandleM2(cfg, a, m, a.stations[m], f, rsnMatches); InvAt(cfg, m, r.s, log + r.out, seen)
  {
    hide Inv, IssueM3, MatchingPmk, Credentials, M2OciAccepted, M2Expected;
    var s := a.stations[m];
    var r := HandleM2(cfg, a, m, s, f, rsnMatches);
    var pmk := MatchingPmk(cfg, m, s, Credentials(cfg, m, s), f);
    if !M2Expected(cfg, s, f.body) || (pmk.None? && s.awaitingM4) || (pmk.Some? && !rsnMatches) {
      assert log + r.out == log;
    } else if pmk.None? {
      GoneKeeps(cfg, m, At(a, m), HeldAt(a, m), log, seen);
      NoteAt(cfg, m, r.s, log, seen, r.out);
    } else if !M2OciAccepted(cfg, f.body.data) {
      assert log + r.out == log;
      LinkFact(cfg, m, s, HeldAt(a, m), log, seen);
      SameKeeps(cfg, m, s, s.(pmk := pmk), HeldAt(a, m), log, seen);
    } else {
      M2HasAnonce(cfg, s, f.body);
      IssueM3Keeps(cfg, m, a, log, seen, pmk.value, f.body.nonce);
    }
  }

  lemma {:induction false} M2HasAnonce(cfg: Config, s: Station, b: Body)
    requires M2Expected(cfg, s, b)
    ensures (s.eapolReady || s.awaitingM4) && s.anonce.Some?
  {
  }

  lemma {:induction false} EapolKeeps(cfg: Config, m: Mac, a: State, log: seq<Out>, seen: set<Nonce>, f: EapolKey, rsnMatches: bool)
    requires InvAt(cfg, m, a, log, seen) && f.body.nonce in seen
    ensures var r := HandleEapol(cfg, a, m, f, rsnMatches); InvAt(cfg, m, r.s, log + r.out, seen)
  {
    hide Inv, HandleM2, HandleM4;
    assert log + [] == log;
    if m in a.stations {
      M2Keeps(cfg, m, a, log, seen, f, rsnMatches);
      M4Keeps(cfg, m, a, log, seen, f);
      var s := a.stations[m];
      LinkFact(cfg, m, s, HeldAt(a, m), log, seen);
      SameKeeps(cfg, m, s, s.(groupRekeying := false, pendingEapol := None), HeldAt(a, m), log, seen);
    }
  }

  // ---- protected frames ----------------------------------------------------------------------------------------

  lemma {:induction false} DataKeeps(cfg: Config, m: Mac, a: State, log: seq<Out>, seen: set<Nonce>, d: UplinkFrame)
    requires InvAt(cfg, m, a, log, seen)
    ensures var r := HandleData(a, m, d); InvAt(cfg, m, r.s, log + r.out, seen)
  {
    hide Inv;
    var r := HandleData(a, m, d);
    if |r.out| == 2 {
      var s := a.stations[m];
      var c := Data(s.tk, d.slot);
      AcceptKeeps(cfg, m, s, HeldAt(a, m), log, seen, c, d.pn.value);
      NoteAt(cfg, m, r.s, log + [Accepted(m, c, d.pn.value)], seen, [Delivered(d.octets)]);
      assert log + r.out == log + [Accepted(m, c, d.pn.value)] + [Delivered(d.octets)];
    } else {
      NoteAt(cfg, m, a, log, seen, r.out);
    }
  }

  lemma {:induction false} AcceptMgmtKeeps(cfg: Config, m: Mac, a: State, log: seq<Out>, seen: set<Nonce>, f: MgmtFrame)
    requires InvAt(cfg, m, a, log, seen) && MgmtOpens(a, m, f)
    ensures var r := AcceptMgmt(a, m, f); InvAt(cfg, m, r.s, log + r.out, seen)
  {
    hide Inv;
    AcceptKeeps(cfg, m, a.stations[m], HeldAt(a, m), log, seen, Management(a.stations[m].tk), f.pn.value);
  }

  lemma {:induction false} MgmtKeeps(cfg: Config, m: Mac, a: State, log: seq<Out>, seen: set<Nonce>, f: MgmtFrame)
    requires InvAt(cfg, m, a, log, seen)
    ensures var r := HandleDeauth(a, m, f); InvAt(cfg, m, r.s, log + r.out, seen)
    ensures var r := HandleAction(a, m, f); InvAt(cfg, m, r.s, log + r.out, seen)
  {
    hide Inv, SealNext;
    assert log + [] == log;
    if MgmtOpens(a, m, f) {
      AcceptMgmtKeeps(cfg, m, a, log, seen, f);
      var r := AcceptMgmt(a, m, f);
      GoneKeeps(cfg, m, At(r.s, m), HeldAt(r.s, m), log + r.out, seen);
      if f.content.SaQueryRequest? {
        var t := SealNext(r.s, m, SaQueryResponse(f.content.id));
        SealNextKeeps(cfg, m, r.s, log + r.out, seen, SaQueryResponse(f.content.id));
        assert log + (r.out + t.out) == log + r.out + t.out;
      }
      var s := r.s.stations[m];
      LinkFact(cfg, m, s, HeldAt(r.s, m), log + r.out, seen);
      SameKeeps(cfg, m, s, s.(saQuery := None), HeldAt(r.s, m), log + r.out, seen);
    }
    GoneKeeps(cfg, m, At(a, m), HeldAt(a, m), log, seen);
  }

  // ---- all stations at once --------------------------------------------------------------------------------------

  lemma {:induction false} RekeyStationKeeps(cfg: Config, m: Mac, a: State, log: seq<Out>, seen: set<Nonce>, t: Target)
    requires InvAt(cfg, m, a, log, seen)
    ensures var r := RekeyStation(cfg, a, t); InvAt(cfg, m, r.s, log + r.out, seen)
  {
    hide Inv, GroupDelivery, NextReplay;
    var r := RekeyStation(cfg, a, t);
    if At(r.s, m) != At(a, m) {
      LinkFact(cfg, m, a.stations[m], HeldAt(a, m), log, seen);
      SameKeeps(cfg, m, a.stations[m], r.s.stations[m], HeldAt(a, m), log, seen);
    }
    NoteAt(cfg, m, r.s, log, seen, r.out);
  }

  lemma {:induction false} RekeyStationsKeeps(cfg: Config, m: Mac, a: State, log: seq<Out>, seen: set<Nonce>, ts: seq<Target>)
    requires InvAt(cfg, m, a, log, seen)
    ensures var r := RekeyStations(cfg, a, ts); InvAt(cfg, m, r.s, log + r.out, seen)
    decreases |ts|
  {
    hide InvAt, RekeyStation;
    if ts == [] {
      assert log + [] == log;
    } else {
      RekeyStationKeeps(cfg, m, a, log, seen, ts[0]);
      var r := RekeyStation(cfg, a, ts[0]);
      RekeyStationsKeeps(cfg, m, r.s, log + r.out, seen, ts[1..]);
      assert log + RekeyStations(cfg, a, ts).out == log + r.out + RekeyStations(cfg, r.s, ts[1..]).out;
    }
  }

  lemma {:induction false} RekeyKeeps(cfg: Config, m: Mac, a: State, log: seq<Out>, seen: set<Nonce>, gtk: GroupKey, igtk: GroupKey, ts: seq<Target>)
    requires InvAt(cfg, m, a, log, seen)
    ensures var r := Rekey(cfg, a, gtk, igtk, ts); InvAt(cfg, m, r.s, log + r.out, seen)
  {
    hide Inv, RekeyStations;
    assert log + [] == log;
    RekeyStationsKeeps(cfg, m, RotateGroup(cfg, a, gtk, igtk), log, seen, ts);
  }

  lemma {:induction false} TimersKeep(cfg: Config, m: Mac, a: State, log: seq<Out>, seen: set<Nonce>, now: nat)
    requires InvAt(cfg, m, a, log, seen)
    ensures InvAt(cfg, m, Maintain(a, now), log, seen)
    ensures InvAt(cfg, m, AssocNotAcked(a, m), log, seen)
    ensures InvAt(cfg, m, Disconnect(a, m), log, seen)
  {
    GoneKeeps(cfg, m, At(a, m), HeldAt(a, m), log, seen);
    if m in a.stations {
      LinkFact(cfg, m, a.stations[m], HeldAt(a, m), log, seen);
      var s := a.stations[m];
      var t := AssocNotAcked(a, m).stations[m];
      if s.associated {
        CancelKeeps(cfg, m, s, t, HeldAt(a, m), log, seen);
      } else {
        IdleKeeps(cfg, m, Some(s), t, HeldAt(a, m), log, seen);
      }
    }
    hide KeysInv, TrafficInv, StationInv;
  }

  lemma {:induction false} CancelKeeps(cfg: Config, m: Mac, s: Station, t: Station, held: Option<Nonce>, log: seq<Out>, seen: set<Nonce>)
    requires Inv(cfg, m, Some(s), held, log, seen) && SameTraffic(s, t) && t.linkMac == s.linkMac
    requires !t.eapolReady && !t.awaitingM4 && t.candidates == []
    ensures Inv(cfg, m, Some(t), held, log, seen)
  {
  }

  // ---- a step of another station ------------------------------------------------------------------------------

  // Nothing of m's changes, except that its held ANonce may expire.
  predicate Elsewhere(m: Mac, a: State, r: Step) {
    && At(r.s, m) == At(a, m)
    && (HeldAt(r.s, m) == HeldAt(a, m) || HeldAt(r.s, m).None?)
    && Unconcerned(m, r.out)
  }

  lemma {:induction false} ElsewhereKeeps(cfg: Config, m: Mac, a: State, r: Step, log: seq<Out>, seen: set<Nonce>)
    requires InvAt(cfg, m, a, log, seen) && Elsewhere(m, a, r)
    ensures InvAt(cfg, m, r.s, log + r.out, seen)
  {
    hide Inv;
    GoneKeeps(cfg, m, At(a, m), HeldAt(a, m), log, seen);
    NoteAt(cfg, m, r.s, log, seen, r.out);
  }

  lemma {:induction false} SealElsewhere(m: Mac, a: State, sta: Mac, c: Content)
    requires sta != m
    ensures Elsewhere(m, a, SealNext(a, sta, c))
  {
  }

  lemma {:induction false} ChallengeElsewhere(m: Mac, a: State, sta: Mac, now: nat)
    requires sta != m
    ensures Elsewhere(m, a, SaQueryChallenge(a, sta, now))
  {
  }

  lemma {:induction false} AuthElsewhere(m: Mac, a: State, sta: Mac, sae: bool, now: nat, gtk: GroupKey, igtk: GroupKey)
    requires sta != m
    ensures Elsewhere(m, a, HandleAuth(a, sta, sae, now, gtk, igtk))
  {
    hide SaQueryChallenge, OpenAuth, NewStation;
    ChallengeElsewhere(m, a, sta, now);
  }

  lemma {:induction false} AssocElsewhere(cfg: Config, m: Mac, a: State, sta: Mac, q: AssocRequest, now: nat, random: Nonce, gtk: GroupKey, igtk: GroupKey)
    requires sta != m
    ensures Elsewhere(m, a, HandleAssoc(cfg, a, sta, q, now, random, gtk, igtk))
  {
    hide SaQueryChallenge, NewStation, Negotiated, Authorized, Recent, ChooseAnonce, FirstMessage, Refusal;
    ChallengeElsewhere(m, a, sta, now);
  }

  lemma {:induction false} M2Elsewhere(cfg: Config, m: Mac, a: State, sta: Mac, f: EapolKey, rsnMatches: bool)
    requires sta != m && sta in a.stations
    ensures Elsewhere(m, a, HandleM2(cfg, a, sta, a.stations[sta], f, rsnMatches))
  {
    hide StationPtk, ThirdMessage, Retain, MatchingPmk, M2Expected, NextReplay, Credentials, M2OciAccepted;
  }

  lemma {:induction false} M4Elsewhere(cfg: Config, m: Mac, a: State, sta: Mac, f: EapolKey)
    requires sta != m && sta in a.stations
    ensures Elsewhere(m, a, HandleM4(cfg, a, sta, a.stations[sta], f))
  {
    hide SelectCandidate, CommitCandidate;
  }

  lemma {:induction false} EapolElsewhere(cfg: Config, m: Mac, a: State, sta: Mac, f: EapolKey, rsnMatches: bool)
    requires sta != m
    ensures Elsewhere(m, a, HandleEapol(cfg, a, sta, f, rsnMatches))
  {
    hide HandleM2, HandleM4;
    if sta in a.stations {
      M2Elsewhere(cfg, m, a, sta, f, rsnMatches);
      M4Elsewhere(cfg, m, a, sta, f);
    }
  }

  lemma {:induction false} ReceiveElsewhere(m: Mac, a: State, sta: Mac, d: UplinkFrame, f: MgmtFrame)
    requires sta != m
    ensures Elsewhere(m, a, HandleData(a, sta, d))
    ensures Elsewhere(m, a, HandleDeauth(a, sta, f))
  {
  }

  lemma {:induction false} ActionElsewhere(m: Mac, a: State, sta: Mac, f: MgmtFrame)
    requires sta != m
    ensures Elsewhere(m, a, HandleAction(a, sta, f))
  {
    hide SealNext;
    if MgmtOpens(a, sta, f) && f.content.SaQueryRequest? {
      SealElsewhere(m, AcceptMgmt(a, sta, f).s, sta, SaQueryResponse(f.content.id));
    }
  }

  // ---- every run ------------------------------------------------------------------------------------------------

  function EventStation(e: Event): Option<Mac> {
    match e
    case AuthReceived(sta, _, _, _, _) => Some(sta)
    case SaeCommitDone(sta, _, _, _, _, _) => Some(sta)
    case SaeConfirmDone(sta, _, _) => Some(sta)
    case AssocReceived(sta, _, _, _, _, _) => Some(sta)
    case EapolReceived(sta, _, _) => Some(sta)
    case DataReceived(sta, _) => Some(sta)
    case MgmtReceived(sta, _) => Some(sta)
    case ToStation(sta, _) => Some(sta)
    case NotAcked(sta) => Some(sta)
    case RetryTimer(sta) => Some(sta)
    case Dropped(sta) => Some(sta)
    case _ => None
  }

  lemma {:induction false} HandleElsewhere(cfg: Config, m: Mac, a: State, e: Event)
    requires EventStation(e).Some? && EventStation(e).value != m
    ensures Elsewhere(m, a, Handle(cfg, a, e))
  {
    hide HandleAuth, HandleAssoc, HandleEapol, HandleData, HandleDeauth, HandleAction, SealNext;
    match e {
      case AuthReceived(sta, sae, now, gtk, igtk) => AuthElsewhere(m, a, sta, sae, now, gtk, igtk);
      case AssocReceived(sta, q, now, random, gtk, igtk) => AssocElsewhere(cfg, m, a, sta, q, now, random, gtk, igtk);
      case EapolReceived(sta, f, rsnMatches) => EapolElsewhere(cfg, m, a, sta, f, rsnMatches);
      case DataReceived(sta, d) => ReceiveElsewhere(m, a, sta, d, MgmtFrame(false, false, None, Unknown, OtherAction));
      case MgmtReceived(sta, f) =>
        ReceiveElsewhere(m, a, sta, UplinkFrame(true, 0, None, 0, Unknown, 0, false), f);
        ActionElsewhere(m, a, sta, f);
      case ToStation(sta, c) => SealElsewhere(m, a, sta, c);
      case _ =>
    }
  }

  lemma {:induction false} HandleKeeps(cfg: Config, m: Mac, a: State, e: Event, log: seq<Out>, seen: set<Nonce>)
    requires InvAt(cfg, m, a, log, seen)
    requires EventNonces(e) <= seen
    requires e.AssocReceived? ==> Unused(m, log, e.random)
    ensures var r := Handle(cfg, a, e); InvAt(cfg, m, r.s, log + r.out, seen)
  {
    hide InvAt, Unused, HandleAuth, HandleAssoc, HandleEapol, HandleData, HandleDeauth, HandleAction, SealNext, Rekey,
      Maintain, AssocNotAcked, SaeCommitFinished, SaeConfirmFinished, Disconnect;
    var r := Handle(cfg, a, e);
    if EventStation(e).Some? && EventStation(e).value != m {
      HandleElsewhere(cfg, m, a, e);
      ElsewhereKeeps(cfg, m, a, r, log, seen);
    } else {
      assert log + [] == log;
      match e {
        case AuthReceived(_, sae, now, gtk, igtk) => AuthKeeps(cfg, m, a, log, seen, sae, now, gtk, igtk);
        case SaeCommitDone(_, pmk, h2e, mld, gtk, igtk) => SaeCommitKeeps(cfg, m, a, log, seen, pmk, h2e, mld, gtk, igtk);
        case SaeConfirmDone(_, pmkid, expires) => SaeConfirmKeeps(cfg, m, a, log, seen, pmkid, expires);
        case AssocReceived(_, q, now, random, gtk, igtk) =>
          AssocKeeps(cfg, m, a, log, seen, q, now, random, gtk, igtk);
        case EapolReceived(_, f, rsnMatches) => EapolKeeps(cfg, m, a, log, seen, f, rsnMatches);
        case DataReceived(_, d) => DataKeeps(cfg, m, a, log, seen, d);
        case MgmtReceived(_, f) => MgmtKeeps(cfg, m, a, log, seen, f);
        case ToStation(_, c) => SealNextKeeps(cfg, m, a, log, seen, c);
        case ToGroup(octets) => ElsewhereKeeps(cfg, m, a, r, log, seen);
        case RekeyTimer(gtk, igtk, ts) => RekeyKeeps(cfg, m, a, log, seen, gtk, igtk, ts);
        case NotAcked(_) => TimersKeep(cfg, m, a, log, seen, 0);
        case Maintenance(now) => TimersKeep(cfg, m, a, log, seen, now);
        case RetryTimer(_) => NoteAt(cfg, m, a, log, seen, r.out);
        case Dropped(_) => TimersKeep(cfg, m, a, log, seen, 0);
      }
    }
  }

  lemma {:induction false} UnseenIsUnused(cfg: Config, m: Mac, a: State, log: seq<Out>, seen: set<Nonce>, n: Nonce)
    requires InvAt(cfg, m, a, log, seen) && n !in seen
    ensures Unused(m, log, n)
  {
  }

  lemma {:induction false} SeenMore(cfg: Config, m: Mac, a: State, log: seq<Out>, seen: set<Nonce>, more: set<Nonce>)
    requires InvAt(cfg, m, a, log, seen) && seen <= more
    ensures InvAt(cfg, m, a, log, more)
  {
    assert log + [] == log;
    NoteKeeps(cfg, m, At(a, m), HeldAt(a, m), log, seen, [], more);
    hide Inv;
  }

  lemma {:induction false} RunKeeps(cfg: Config, m: Mac, replay: nat, gtk: GroupKey, igtk: GroupKey, es: seq<Event>)
    requires FreshRandom(gtk, es)
    ensures var r := RunFrom(cfg, Initial(replay, gtk, igtk), es); InvAt(cfg, m, r.s, r.out, NoncesSeen(es))
  {
    if es != [] {
      var front, e := es[..|es| - 1], es[|es| - 1];
      RunKeeps(cfg, m, replay, gtk, igtk, front);
      var r := RunFrom(cfg, Initial(replay, gtk, igtk), front);
      hide InvAt, Handle, Unused;
      if e.AssocReceived? {
        UnseenIsUnused(cfg, m, r.s, r.out, NoncesSeen(front), e.random);
      }
      SeenMore(cfg, m, r.s, r.out, NoncesSeen(front), NoncesSeen(es));
      HandleKeeps(cfg, m, r.s, e, r.out, NoncesSeen(es));
    }
  }

  // Over any run, for every station: under one temporal key the packet numbers sent strictly
  // increase, so none is sent twice, and so do the numbers accepted on each counter.
  lemma {:induction false} NoPacketNumberTwice(cfg: Config, m: Mac, replay: nat, gtk: GroupKey, igtk: GroupKey, es: seq<Event>)
    requires FreshRandom(gtk, es)
    ensures SealedInOrder(m, RunFrom(cfg, Initial(replay, gtk, igtk), es).out)
    ensures AcceptedInOrder(m, RunFrom(cfg, Initial(replay, gtk, igtk), es).out)
  {
    RunKeeps(cfg, m, replay, gtk, igtk, es);
    hide SealedInOrder, AcceptedInOrder, KeysInv, StationInv;
  }

  // Every ANonce leads to at most one installed key: when a message 4 installs a key, no key
  // this station had before was derived with the handshake's ANonce, and the new one was.
  lemma {:induction false} AnonceInstallsOnce(cfg: Config, m: Mac, replay: nat, gtk: GroupKey, igtk: GroupKey, es: seq<Event>,
                           f: EapolKey, rsnMatches: bool, k: Secret)
    requires FreshRandom(gtk, es)
    requires var a := RunFrom(cfg, Initial(replay, gtk, igtk), es).s;
             Installed(m, k) in HandleEapol(cfg, a, m, f, rsnMatches).out
    ensures var r := RunFrom(cfg, Initial(replay, gtk, igtk), es);
            && m in r.s.stations && r.s.stations[m].anonce.Some?
            && k.Tk? && k.ptk.Uses(r.s.stations[m].anonce.value)
            && Unused(m, r.out, r.s.stations[m].anonce.value)
  {
    hide RunFrom, SelectCandidate, HandleEapol;
    RunKeeps(cfg, m, replay, gtk, igtk, es);
    var r := RunFrom(cfg, Initial(replay, gtk, igtk), es);
    OnlyM4Installs(cfg, r.s, m, f, rsnMatches, k);
    var s := r.s.stations[m];
    var c := SelectCandidate(cfg, s, s.candidates, f);
    SelectedIsRetained(cfg, s, s.candidates, f);
    assert CandidateInv(cfg, m, s, NoncesSeen(es), c.value);
  }

  lemma {:induction false} OnlyM4Installs(cfg: Config, a: State, m: Mac, f: EapolKey, rsnMatches: bool, k: Secret)
    requires Installed(m, k) in HandleEapol(cfg, a, m, f, rsnMatches).out
    ensures m in a.stations && a.stations[m].awaitingM4
    ensures var c := SelectCandidate(cfg, a.stations[m], a.stations[m].candidates, f); c.Some? && k == c.value.tk
  {
    hide SelectCandidate, MatchingPmk, ThirdMessage, StationPtk;
  }

  // Without MLD identities, not even two different stations are ever sent frames under one key:
  // over the whole transmission log the numbers of each key climb.
  lemma {:induction false} NoPacketNumberTwiceAnywhere(cfg: Config, replay: nat, gtk: GroupKey, igtk: GroupKey, es: seq<Event>, i: nat, j: nat)
    requires FreshRandom(gtk, es) && !cfg.mld
    requires var log := RunFrom(cfg, Initial(replay, gtk, igtk), es).out;
             i < j < |log| && log[i].Sealed? && log[j].Sealed? && log[i].tk == log[j].tk
    ensures var log := RunFrom(cfg, Initial(replay, gtk, igtk), es).out;
            log[i].to == log[j].to && log[i].pn < log[j].pn
  {
    var log := RunFrom(cfg, Initial(replay, gtk, igtk), es).out;
    var m, n := log[i].to, log[j].to;
    RunKeeps(cfg, m, replay, gtk, igtk, es);
    RunKeeps(cfg, n, replay, gtk, igtk, es);
    hide RunFrom, StationInv, HeldInv, SealedInOrder, AcceptedInOrder;
    assert log[i] in log && log[j] in log;
    assert Installed(m, log[i].tk) in log && Installed(n, log[i].tk) in log;
    assert m == n;
  }

  // ---- group traffic -----------------------------------------------------------------------------------------------

  ghost predicate GroupSealedInOrder(log: seq<Out>) {
    forall i, j :: (0 <= i < j < |log| && log[i].GroupSealed? && log[j].GroupSealed? && log[i].gtk == log[j].gtk)
      ==> log[i].pn < log[j].pn
  }

  ghost predicate GroupInv(a: State, log: seq<Out>, gtks: set<GroupKey>) {
    && a.gtk in gtks
    && (forall o :: o in log && o.GroupSealed? ==> o.gtk in gtks && (o.gtk == a.gtk ==> o.pn < a.groupPn))
    && GroupSealedInOrder(log)
  }

  predicate NoGroupTraffic(out: seq<Out>) {
    forall o :: o in out ==> !o.GroupSealed?
  }

  lemma {:induction false} QuietKeepsGroup(a: State, t: State, log: seq<Out>, out: seq<Out>, gtks: set<GroupKey>)
    requires GroupInv(a, log, gtks) && NoGroupTraffic(out) && t.gtk == a.gtk && t.groupPn == a.groupPn
    ensures GroupInv(t, log + out, gtks)
  {
    var next := log + out;
    assert forall o :: o in next && o.GroupSealed? ==> o in log;
    assert forall i :: |log| <= i < |next| ==> next[i] in out;
  }

  lemma {:induction false} SealGroupKeeps(a: State, log: seq<Out>, gtks: set<GroupKey>, octets: nat)
    requires GroupInv(a, log, gtks)
    ensures var r := SealGroup(a, octets); GroupInv(r.s, log + r.out, gtks)
  {
    var r := SealGroup(a, octets);
    if r.out == [] {
      assert log + r.out == log;
    } else {
      assert forall x :: x in log + r.out <==> x in log || x == r.out[0];
      assert forall i :: 0 <= i < |log| ==> log[i] in log;
    }
  }

  lemma {:induction false} RekeyStationsQuiet(cfg: Config, a: State, ts: seq<Target>)
    ensures var r := RekeyStations(cfg, a, ts); NoGroupTraffic(r.out) && r.s.gtk == a.gtk && r.s.groupPn == a.groupPn
    decreases |ts|
  {
    if ts != [] {
      hide GroupDelivery, NextReplay;
      RekeyStationsQuiet(cfg, RekeyStation(cfg, a, ts[0]).s, ts[1..]);
    }
  }

  predicate GroupKept(a: State, r: Step) {
    NoGroupTraffic(r.out) && r.s.gtk == a.gtk && r.s.groupPn == a.groupPn
  }

  lemma {:induction false} SealQuiet(a: State, sta: Mac, c: Content, now: nat)
    ensures GroupKept(a, SealNext(a, sta, c)) && GroupKept(a, SaQueryChallenge(a, sta, now))
  {
  }

  lemma {:induction false} AssocQuiet(cfg: Config, a: State, sta: Mac, q: AssocRequest, now: nat, random: Nonce, gtk: GroupKey, igtk: GroupKey)
    ensures GroupKept(a, HandleAssoc(cfg, a, sta, q, now, random, gtk, igtk))
  {
    hide SaQueryChallenge, NewStation, Negotiated, Authorized, Recent, ChooseAnonce, FirstMessage, Refusal;
    SealQuiet(a, sta, OtherAction, now);
  }

  lemma {:induction false} EapolQuiet(cfg: Config, a: State, sta: Mac, f: EapolKey, rsnMatches: bool)
    ensures GroupKept(a, HandleEapol(cfg, a, sta, f, rsnMatches))
  {
    hide StationPtk, ThirdMessage, Retain, MatchingPmk, SelectCandidate, CommitCandidate, M2Expected, NextReplay,
      Credentials, M2OciAccepted;
  }

  lemma {:induction false} ReceiveQuiet(a: State, sta: Mac, d: UplinkFrame, f: MgmtFrame)
    ensures GroupKept(a, HandleData(a, sta, d)) && GroupKept(a, HandleDeauth(a, sta, f)) && GroupKept(a, HandleAction(a, sta, f))
  {
    hide SealNext;
    if MgmtOpens(a, sta, f) && f.content.SaQueryRequest? {
      SealQuiet(AcceptMgmt(a, sta, f).s, sta, SaQueryResponse(f.content.id), 0);
    }
  }

  lemma {:induction false} OtherEventsQuiet(cfg: Config, a: State, e: Event)
    requires !e.ToGroup? && !e.RekeyTimer?
    ensures GroupKept(a, Handle(cfg, a, e))
  {
    hide SealNext, SaQueryChallenge, HandleAssoc, HandleEapol, HandleData, HandleDeauth, HandleAction, NewStation, OpenAuth;
    match e {
      case AuthReceived(sta, _, now, _, _) => SealQuiet(a, sta, OtherAction, now);
      case AssocReceived(sta, q, now, random, gtk, igtk) => AssocQuiet(cfg, a, sta, q, now, random, gtk, igtk);
      case EapolReceived(sta, f, rsnMatches) => EapolQuiet(cfg, a, sta, f, rsnMatches);
      case DataReceived(sta, d) => ReceiveQuiet(a, sta, d, MgmtFrame(false, false, None, Unknown, OtherAction));
      case MgmtReceived(sta, f) => ReceiveQuiet(a, sta, UplinkFrame(true, 0, None, 0, Unknown, 0, false), f);
      case ToStation(sta, c) => SealQuiet(a, sta, c, 0);
      case _ =>
    }
  }

  lemma {:induction false} GroupRunKeeps(cfg: Config, replay: nat, gtk: GroupKey, igtk: GroupKey, es: seq<Event>)
    requires FreshRandom(gtk, es)
    ensures var r := RunFrom(cfg, Initial(replay, gtk, igtk), es); GroupInv(r.s, r.out, GtksSeen(gtk, es))
  {
    if es != [] {
      var front, e := es[..|es| - 1], es[|es| - 1];
      GroupRunKeeps(cfg, replay, gtk, igtk, front);
      var r := RunFrom(cfg, Initial(replay, gtk, igtk), front);
      var h := Handle(cfg, r.s, e);
      var gtks := GtksSeen(gtk, front);
      if e.ToGroup? {
        SealGroupKeeps(r.s, r.out, gtks, e.octets);
      } else if e.RekeyTimer? && h.s.gtk == e.gtk {
        RekeyStationsQuiet(cfg, RotateGroup(cfg, r.s, e.gtk, e.igtk), e.targets);
        RotatedKeeps(r.s, h.s, r.out, h.out, gtks, e.gtk);
      } else {
        if e.RekeyTimer? {
          RekeyStationsQuiet(cfg, RotateGroup(cfg, r.s, e.gtk, e.igtk), e.targets);
        } else {
          OtherEventsQuiet(cfg, r.s, e);
        }
        hide Handle;
        QuietKeepsGroup(r.s, h.s, r.out, h.out, gtks);
        MoreGtks(h.s, r.out + h.out, gtks, GtksSeen(gtk, es));
      }
    }
  }

  lemma {:induction false} MoreGtks(a: State, log: seq<Out>, gtks: set<GroupKey>, more: set<GroupKey>)
    requires GroupInv(a, log, gtks) && gtks <= more
    ensures GroupInv(a, log, more)
  {
  }

  lemma {:induction false} RotatedKeeps(a: State, t: State, log: seq<Out>, out: seq<Out>, gtks: set<GroupKey>, gtk: GroupKey)
    requires GroupInv(a, log, gtks) && gtk !in gtks
    requires t.gtk == gtk && NoGroupTraffic(out)
    ensures GroupInv(t, log + out, gtks + {gtk})
  {
    var next := log + out;
    assert forall o :: o in next && o.GroupSealed? ==> o in log;
    assert forall i :: |log| <= i < |next| ==> next[i] in out;
  }

  // Over any run, the packet numbers of group frames under one GTK strictly increase: the GTK
  // and its counter always change together, per-station mode included.
  lemma {:induction false} NoGroupPacketNumberTwice(cfg: Config, replay: nat, gtk: GroupKey, igtk: GroupKey, es: seq<Event>)
    requires FreshRandom(gtk, es)
    ensures GroupSealedInOrder(RunFrom(cfg, Initial(replay, gtk, igtk), es).out)
  {
    GroupRunKeeps(cfg, replay, gtk, igtk, es);
  }
}
