/**
 Supplicants and authenticator together, over a network that loses, repeats and reorders
 frames and on which an attacker sends whatever it can build: any frame at all whose MIC was
 not made with a key of an uncompromised PMK, and any MIC already on the air. There are any
 number of honest stations, which may share a PMK.

 The ends then agree on keys in every reachable state: a supplicant installs only what the
 authenticator retained, the authenticator only what a supplicant of that address installed,
 and the group key of an honest session is one the authenticator sent.
 */
module Handshake {
  import opened Common
  import opened Symbols
  import S = Supplicant
  import A = Authenticator
  import I = AuthenticatorIdentities

  // One station: its supplicant and what that has put out.
  datatype End = End(s: S.State, log: seq<S.Out>)

  // The stations by their link addresses.
  datatype World = World(ends: map<Mac, End>, a: A.State, alog: seq<A.Out>)

  datatype Event = AtSupplicant(sta: Mac, se: S.Event) | AtAuthenticator(ae: A.Event)

  // The ends' configurations and the PMKs the attacker knows.
  datatype Setting = Setting(clients: map<Mac, S.Config>, acfg: A.Config, compromised: set<Pmk>)

  // What concerns one station.
  datatype Client = Client(scfg: S.Config, compromised: set<Pmk>)

  function At(g: Setting, x: Mac): Client
    requires x in g.clients
  {
    Client(g.clients[x], g.compromised)
  }

  function Next(g: Setting, w: World, e: Event): World {
    match e
    case AtSupplicant(x, se) =>
      if x !in g.clients || x !in w.ends then w else
        var r := S.Handle(g.clients[x], w.ends[x].s, se);
        w.(ends := w.ends[x := End(r.s, w.ends[x].log + r.out)])
    case AtAuthenticator(ae) =>
      var r := A.Handle(g.acfg, w.a, ae);
      w.(a := r.s, alog := w.alog + r.out)
  }

  // ---- the air ------------------------------------------------------------------------------

  predicate Carries(o: S.Out, f: EapolKey) {
    o == S.Sent(f) || (o.Sealed? && o.content == Eapol(f))
  }

  ghost predicate SentBySupplicant(slog: seq<S.Out>, f: EapolKey) {
    exists o :: o in slog && Carries(o, f)
  }

  ghost predicate SentBySome(ends: map<Mac, End>, f: EapolKey) {
    exists x :: x in ends && SentBySupplicant(ends[x].log, f)
  }

  ghost predicate SentByAuthenticator(alog: seq<A.Out>, f: EapolKey) {
    exists to :: A.Sent(to, f) in alog
  }

  predicate HonestKey(compromised: set<Pmk>, k: Secret) {
    k.Kck? && k.ptk.pmk !in compromised
  }

  // What the network can deliver: a MIC under an honest key must have been sent by one of the ends.
  ghost predicate Deliverable(g: Setting, w: World, f: EapolKey) {
    f.mic.Mic? && HonestKey(g.compromised, f.mic.kck) ==>
      var original := EapolKey(f.mic.body, f.mic);
      SentBySome(w.ends, original) || SentByAuthenticator(w.alog, original)
  }

  ghost predicate Admissible(g: Setting, w: World, e: Event) {
    match e
    case AtSupplicant(_, se) => S.EventFrame(se).Some? ==> Deliverable(g, w, S.EventFrame(se).value)
    case AtAuthenticator(ae) => ae.EapolReceived? ==> Deliverable(g, w, ae.frame)
  }

  function Start(g: Setting, replay: nat, gtk: GroupKey, igtk: GroupKey): World {
    World(map x | x in g.clients :: End(S.Initial(), []), A.Initial(replay, gtk, igtk), [])
  }

  function Run(g: Setting, w: World, es: seq<Event>): World {
    if es == [] then w else Next(g, Run(g, w, es[..|es| - 1]), es[|es| - 1])
  }

  ghost predicate AdmissibleRun(g: Setting, w: World, es: seq<Event>) {
    es == [] || (AdmissibleRun(g, w, es[..|es| - 1]) && Admissible(g, Run(g, w, es[..|es| - 1]), es[|es| - 1]))
  }

  // ---- what is agreed -----------------------------------------------------------------------------

  ghost predicate RetainedBy(alog: seq<A.Out>, p: Ptk) {
    exists m :: A.Retained(m, p) in alog
  }

  // Whatever honest key the supplicant installed, the authenticator had retained.
  ghost predicate SupplicantAgrees(g: Client, slog: seq<S.Out>, alog: seq<A.Out>) {
    forall p: Ptk :: S.Out.Installed(Tk(p)) in slog && p.pmk !in g.compromised ==> RetainedBy(alog, p)
  }

  ghost predicate InstalledBySome(ends: map<Mac, End>, k: Secret) {
    exists x :: x in ends && S.Out.Installed(k) in ends[x].log
  }

  // Whatever honest key the authenticator installed, a supplicant had installed.
  ghost predicate AuthenticatorAgrees(g: Setting, ends: map<Mac, End>, alog: seq<A.Out>) {
    forall m, p: Ptk :: A.Installed(m, Tk(p)) in alog && p.pmk !in g.compromised ==> InstalledBySome(ends, Tk(p))
  }

  // The address a supplicant derives its keys with.
  function Address(cfg: S.Config): Mac {
    cfg.mldMac.GetOr(cfg.mac)
  }

  // A key is of the station whose address is in it.
  predicate Names(p: Ptk, address: Mac) {
    p.addressLow == address || p.addressHigh == address
  }

  ghost predicate InstallsItsOwn(cfg: S.Config, slog: seq<S.Out>) {
    forall p: Ptk :: S.Out.Installed(Tk(p)) in slog ==> Names(p, Address(cfg))
  }

  // The PMK that the supplicant derives its keys from.
  function PmkInUse(g: Client, s: S.State): Pmk {
    s.saePmk.GetOr(g.scfg.pmk)
  }

  predicate DeliversGtk(b: Body, keyId: nat, gtk: GroupKey) {
    b.data.Wrapped? &&
    match b.data.keys.gtk
    case NoGtk => false
    case LegacyGtk(id, key) => id == keyId && key == gtk
    case MloGtk(id, _, key) => id == keyId && key == gtk
  }

  ghost predicate GtkSent(alog: seq<A.Out>, keyId: nat, gtk: GroupKey) {
    exists f :: SentByAuthenticator(alog, f) && DeliversGtk(f.body, keyId, gtk)
  }

  // A supplicant on an honest PMK holds a group key, under a key id, that the authenticator sent.
  ghost predicate GroupKeyAuthentic(g: Client, s: S.State, alog: seq<A.Out>) {
    s.gtkSet && PmkInUse(g, s) !in g.compromised ==> GtkSent(alog, s.gtkKeyId, s.gtk)
  }

  // ---- the invariant ----------------------------------------------------------------------------------

  // What the supplicant's frames look like: never an acknowledgement request, and a secure
  // pairwise frame (message 4) only under an installed key.
  ghost predicate SupplicantFrame(slog: seq<S.Out>, f: EapolKey) {
    && f.mic.Mic? && f.mic.body == f.body && !f.body.info.ack
    && (f.body.info.pairwise && f.body.info.secure && f.mic.kck.Kck? ==> S.Out.Installed(Tk(f.mic.kck.ptk)) in slog)
  }

  // What the authenticator's frames look like: an acknowledgement request, and an install
  // request (message 3) only under a retained candidate.
  ghost predicate AuthenticatorFrame(alog: seq<A.Out>, f: EapolKey) {
    f.mic.Mic? ==>
      && f.mic.body == f.body && f.body.info.ack
      && (f.body.info.install && f.mic.kck.Kck? ==> RetainedBy(alog, f.mic.kck.ptk))
  }

  predicate KeysOf(g: Client, s: S.State, kck: Secret, kek: Secret, tk: Secret) {
    tk.Tk? && kck == Kck(tk.ptk) && kek == Kek(tk.ptk) && tk.ptk.pmk == PmkInUse(g, s)
    && Names(tk.ptk, Address(g.scfg))
  }

  ghost predicate StateInv(g: Client, s: S.State, slog: seq<S.Out>) {
    && (s.connected < 2 ==> s.pending.None? && !s.installed && !s.gtkSet)
    && (s.pending.Some? ==> KeysOf(g, s, s.pending.value.kck, s.pending.value.kek, s.pending.value.tk))
    && (s.installed ==> KeysOf(g, s, s.kck, s.kek, s.tk) && S.Out.Installed(s.tk) in slog)
    && (s.connected >= 4 ==> s.installed)
  }

  ghost predicate SupplicantInv(g: Client, s: S.State, slog: seq<S.Out>, alog: seq<A.Out>) {
    && StateInv(g, s, slog)
    && GroupKeyAuthentic(g, s, alog)
    && SupplicantAgrees(g, slog, alog)
    && InstallsItsOwn(g.scfg, slog)
    && (forall o, f :: o in slog && Carries(o, f) ==> SupplicantFrame(slog, f))
  }

  predicate CandidatesOf(s: A.Station) {
    forall c :: c in s.candidates ==> c.tk.Tk? && c.kck == Kck(c.tk.ptk)
  }

  ghost predicate StationsInv(a: A.State, alog: seq<A.Out>) {
    forall m :: m in a.stations ==>
      CandidatesOf(a.stations[m])
      && (a.stations[m].pendingEapol.Some? ==> SentByAuthenticator(alog, a.stations[m].pendingEapol.value))
  }

  ghost predicate AuthenticatorInv(g: Setting, a: A.State, ends: map<Mac, End>, alog: seq<A.Out>) {
    && StationsInv(a, alog)
    && AuthenticatorAgrees(g, ends, alog)
    && (forall o :: o in alog && o.Sent? ==> AuthenticatorFrame(alog, o.frame))
  }

  ghost predicate EndsInv(g: Setting, ends: map<Mac, End>, alog: seq<A.Out>) {
    && ends.Keys == g.clients.Keys
    && forall x :: x in ends ==> SupplicantInv(At(g, x), ends[x].s, ends[x].log, alog)
  }

  ghost predicate Inv(g: Setting, w: World) {
    EndsInv(g, w.ends, w.alog) && AuthenticatorInv(g, w.a, w.ends, w.alog)
  }

  // ---- what a verified MIC proves ----------------------------------------------------------------------------

  // A verified frame that asks for acknowledgement under an honest key came from the
  // authenticator, and if it asks for installation its key was retained.
  lemma {:induction false} FromAuthenticator(g: Setting, w: World, alg: MicAlgorithm, k: Secret, f: EapolKey)
    requires Inv(g, w) && Deliverable(g, w, f) && MicValid(alg, k, f) && HonestKey(g.compromised, k) && f.body.info.ack
    ensures SentByAuthenticator(w.alog, f)
    ensures f.body.info.install ==> RetainedBy(w.alog, k.ptk)
  {
    assert f == EapolKey(f.mic.body, f.mic);
  }

  // A verified message 4 under an honest key came from a supplicant that had installed it.
  lemma {:induction false} FromSupplicant(g: Setting, w: World, alg: MicAlgorithm, k: Secret, f: EapolKey)
    requires Inv(g, w) && Deliverable(g, w, f) && MicValid(alg, k, f) && HonestKey(g.compromised, k)
    requires f.body.info.pairwise && f.body.info.secure && !f.body.info.ack
    ensures InstalledBySome(w.ends, Tk(k.ptk))
  {
    assert f == EapolKey(f.mic.body, f.mic);
    if SentBySome(w.ends, f) {
      var x :| x in w.ends && SentBySupplicant(w.ends[x].log, f);
      assert SupplicantInv(At(g, x), w.ends[x].s, w.ends[x].log, w.alog);
      assert SupplicantFrame(w.ends[x].log, f);
    }
  }

  // What that means to the supplicant that checks the MIC.
  ghost predicate Vouched(g: Client, alog: seq<A.Out>, f: EapolKey) {
    f.mic.Mic? && f.mic.body == f.body && HonestKey(g.compromised, f.mic.kck) && f.body.info.ack ==>
      SentByAuthenticator(alog, f) && (f.body.info.install ==> RetainedBy(alog, f.mic.kck.ptk))
  }

  lemma {:induction false} DeliverableVouched(g: Setting, w: World, x: Mac, f: EapolKey)
    requires Inv(g, w) && Deliverable(g, w, f) && x in g.clients
    ensures Vouched(At(g, x), w.alog, f)
  {
    if f.mic.Mic? && f.mic.body == f.body && HonestKey(g.compromised, f.mic.kck) && f.body.info.ack {
      FromAuthenticator(g, w, f.mic.algorithm, f.mic.kck, f);
    }
  }

  // ---- steps of the supplicant ---------------------------------------------------------------------------------

  // Outputs that carry no EAPOL frame and install nothing.
  predicate Silent(out: seq<S.Out>) {
    forall o :: o in out ==> !o.Sent? && !o.Installed? && !(o.Sealed? && o.content.Eapol?)
  }

  lemma {:induction false} SilentKeeps(g: Client, s: S.State, slog: seq<S.Out>, alog: seq<A.Out>, out: seq<S.Out>)
    requires SupplicantInv(g, s, slog, alog) && Silent(out)
    ensures SupplicantInv(g, s, slog + out, alog)
  {
    assert forall o :: o in slog + out <==> o in slog || o in out;
  }

  lemma {:induction false} FrameKeeps(g: Client, s: S.State, slog: seq<S.Out>, alog: seq<A.Out>, o: S.Out, f: EapolKey)
    requires SupplicantInv(g, s, slog, alog) && Carries(o, f) && SupplicantFrame(slog, f)
    ensures SupplicantInv(g, s, slog + [o], alog)
  {
    assert forall x :: x in slog + [o] <==> x in slog || x == o;
  }

  // Fields that the invariant does not read.
  predicate SameKeys(s: S.State, t: S.State) {
    && t.connected == s.connected && t.pending == s.pending && t.installed == s.installed && t.saePmk == s.saePmk
    && t.gtkSet == s.gtkSet && t.gtk == s.gtk && t.gtkKeyId == s.gtkKeyId
    && t.kck == s.kck && t.kek == s.kek && t.tk == s.tk
  }

  lemma {:induction false} SameKeysKeeps(g: Client, s: S.State, t: S.State, slog: seq<S.Out>, alog: seq<A.Out>)
    requires SupplicantInv(g, s, slog, alog) && SameKeys(s, t)
    ensures SupplicantInv(g, t, slog, alog)
  {
    hide SupplicantAgrees, SupplicantFrame, GtkSent;
  }

  lemma {:induction false} ResetKeeps(g: Client, s: S.State, t: S.State, slog: seq<S.Out>, alog: seq<A.Out>)
    requires SupplicantInv(g, s, slog, alog)
    requires t.connected <= 2 && t.pending.None? && !t.installed && !t.gtkSet
    ensures SupplicantInv(g, t, slog, alog)
  {
    hide SupplicantAgrees, SupplicantFrame, GtkSent;
  }

  lemma {:induction false} TxKeeps(g: Client, s: S.State, slog: seq<S.Out>, alog: seq<A.Out>, f: EapolKey, protected: bool)
    requires SupplicantInv(g, s, slog, alog) && SupplicantFrame(slog, f)
    ensures var r := S.TxEapol(s, f, protected); SupplicantInv(g, r.s, slog + r.out, alog)
  {
    hide SupplicantInv, SupplicantFrame;
    var r := S.TxEapol(s, f, protected);
    if r.out == [] {
      assert slog + r.out == slog;
    } else {
      FrameKeeps(g, s, slog, alog, r.out[0], f);
      assert r.out == [r.out[0]];
    }
    SameKeysKeeps(g, s, r.s, slog + r.out, alog);
  }

  lemma {:induction false} SendEapol2Keeps(g: Client, s: S.State, slog: seq<S.Out>, alog: seq<A.Out>, b: Body, protected: bool, snonce: Nonce)
    requires SupplicantInv(g, s, slog, alog) && s.connected >= 2
    ensures var r := S.SendEapol2(g.scfg, s, b, protected, snonce); SupplicantInv(g, r.s, slog + r.out, alog)
  {
    var r := S.SendEapol2(g.scfg, s, b, protected, snonce);
    if s.bssid.None? {
      assert slog + r.out == slog;
    } else {
      var p := S.Candidate(g.scfg, s, b.nonce, snonce, b.replay);
      var t := s.(pending := Some(p));
      var m2 := S.SecondMessage(g.scfg, s, p);
      PendingKeeps(g, s, slog, alog, p);
      assert SupplicantFrame(slog, m2);
      hide SupplicantInv, SupplicantFrame, S.Candidate, S.SecondMessage;
      TxKeeps(g, t, slog, alog, m2, protected);
      SameKeysKeeps(g, S.TxEapol(t, m2, protected).s, r.s, slog + r.out, alog);
    }
  }

  lemma {:induction false} PendingKeeps(g: Client, s: S.State, slog: seq<S.Out>, alog: seq<A.Out>, p: S.PendingPtk)
    requires SupplicantInv(g, s, slog, alog) && s.connected >= 2 && KeysOf(g, s, p.kck, p.kek, p.tk)
    ensures SupplicantInv(g, s.(pending := Some(p)), slog, alog)
  {
    hide SupplicantAgrees, SupplicantFrame, GtkSent;
  }

  // The group keys of a frame verified under the session's keys.
  lemma {:induction false} GroupInstallKeeps(g: Client, s: S.State, slog: seq<S.Out>, alog: seq<A.Out>, k: Secret, f: EapolKey, keys: Delivery, rsc: nat)
    requires SupplicantInv(g, s, slog, alog) && s.connected >= 2 && k.Kck? && k.ptk.pmk == PmkInUse(g, s)
    requires Vouched(g, alog, f) && MicValid(S.KeyMic(g.scfg, s), k, f) && f.body.info.ack
    requires f.body.data.Wrapped? && f.body.data.keys == keys
    requires S.InstallGroupKeys(s, keys, rsc).Granted?
    ensures SupplicantInv(g, S.InstallGroupKeys(s, keys, rsc).s, slog, alog)
    ensures SameButGroup(s, S.InstallGroupKeys(s, keys, rsc).s)
  {
    var t := S.InstallGroupKeys(s, keys, rsc).s;
    InstalledGtkIsDelivered(s, keys, rsc);
    if HonestKey(g.compromised, k) {
      if (t.gtkKeyId, t.gtk) != (s.gtkKeyId, s.gtk) {
        assert DeliversGtk(f.body, t.gtkKeyId, t.gtk);
      }
    }
    assert GroupKeyAuthentic(g, t, alog);
    hide SupplicantAgrees, SupplicantFrame, GtkSent, S.InstallGroupKeys;
  }

  predicate SameButGroup(s: S.State, t: S.State) {
    && t.connected == s.connected && t.pending == s.pending && t.installed == s.installed && t.saePmk == s.saePmk
    && t.kck == s.kck && t.kek == s.kek && t.tk == s.tk && t.bssid == s.bssid
  }

  lemma {:induction false} InstalledGtkIsDelivered(s: S.State, k: Delivery, rsc: nat)
    ensures var i := S.InstallGroupKeys(s, k, rsc);
            i.Granted? ==>
              && SameButGroup(s, i.s) && i.s.gtkSet
              && ((s.gtkSet && i.s.gtk == s.gtk && i.s.gtkKeyId == s.gtkKeyId)
                  || k.gtk == LegacyGtk(i.s.gtkKeyId, i.s.gtk)
                  || (k.gtk.MloGtk? && k.gtk.keyId == i.s.gtkKeyId && k.gtk.key == i.s.gtk))
  {
  }

  function Connected(s: S.State): S.State {
    s.(connected := 4, installed := true, eapolState := 2)
  }

  lemma {:induction false} CommitKeeps(g: Client, s: S.State, slog: seq<S.Out>, alog: seq<A.Out>)
    requires SupplicantInv(g, s, slog, alog) && s.connected >= 2 && s.pending.Some?
    requires HonestKey(g.compromised, s.pending.value.kck) ==> RetainedBy(alog, s.pending.value.tk.ptk)
    ensures var r := S.CommitPending(s); SupplicantInv(g, Connected(r.s), slog + r.out, alog)
  {
    var p := s.pending.value;
    var r := S.CommitPending(s);
    var next := slog + r.out;
    if r.out == [] {
      assert next == slog;
    } else {
      assert r.out == [S.Out.Installed(p.tk)];
      assert forall x :: x in next <==> x in slog || x == S.Out.Installed(p.tk);
    }
    assert StateInv(g, Connected(r.s), next);
    assert SupplicantAgrees(g, next, alog);
    assert GroupKeyAuthentic(g, Connected(r.s), alog);
    hide GtkSent, SupplicantAgrees, StateInv, GroupKeyAuthentic, S.CommitPending;
    forall o, f | o in next && Carries(o, f) ensures SupplicantFrame(next, f) {
      assert SupplicantFrame(slog, f);
    }
  }

  lemma {:induction false} TakeM3Keeps(g: Client, s: S.State, slog: seq<S.Out>, alog: seq<A.Out>, f: EapolKey)
    requires SupplicantInv(g, s, slog, alog) && Vouched(g, alog, f) && s.connected >= 2
    requires f.body.info.ack && f.body.info.install
    requires S.TakeM3(g.scfg, s, f).Some?
    ensures var t := S.TakeM3(g.scfg, s, f).value; SupplicantInv(g, Connected(t.s), slog + t.out, alog)
  {
    var t := S.TakeM3(g.scfg, s, f).value;
    if S.RetryM3(s, f.body) {
      assert slog + t.out == slog;
      hide SupplicantFrame, SupplicantAgrees, GtkSent;
      assert SupplicantInv(g, Connected(t.s), slog, alog);
    } else {
      var p := s.pending.value;
      var alg := S.KeyMic(g.scfg, s);
      assert KeysOf(g, s, p.kck, p.kek, p.tk);
      assert MicValid(alg, p.kck, f);
      if HonestKey(g.compromised, p.kck) {
      }
      var keys := Unwrap(p.kek, f.body.data).value;
      GroupInstallKeeps(g, s, slog, alog, p.kck, f, keys, f.body.rsc);
      var i := S.InstallGroupKeys(s, keys, f.body.rsc).s;
      hide SupplicantInv, S.InstallGroupKeys, S.OciAccepted, RetainedBy;
      SameKeysKeeps(g, i, i.(eapolReplay := f.body.replay), slog, alog);
      CommitKeeps(g, i.(eapolReplay := f.body.replay), slog, alog);
    }
  }

  // The reply goes out under keys that are installed by then.
  lemma {:induction false} ReplyKeeps(g: Client, s: S.State, slog: seq<S.Out>, alog: seq<A.Out>, f: EapolKey, protected: bool)
    requires SupplicantInv(g, Connected(s), slog, alog) && SupplicantFrame(slog, f)
    ensures var r := S.TxEapol(s, f, protected); SupplicantInv(g, Connected(r.s), slog + r.out, alog)
  {
    hide SupplicantInv, SupplicantFrame;
    var r := S.TxEapol(s, f, protected);
    if r.out == [] {
      assert slog + r.out == slog;
    } else {
      FrameKeeps(g, Connected(s), slog, alog, r.out[0], f);
      assert r.out == [r.out[0]];
    }
    SameKeysKeeps(g, Connected(s), Connected(r.s), slog + r.out, alog);
  }

  lemma {:induction false} SendEapol4Keeps(g: Client, s: S.State, slog: seq<S.Out>, alog: seq<A.Out>, f: EapolKey, protected: bool)
    requires SupplicantInv(g, s, slog, alog) && Vouched(g, alog, f) && s.connected >= 2
    requires f.body.info.ack && f.body.info.install
    ensures var r := S.SendEapol4(g.scfg, s, f, protected); SupplicantInv(g, r.s, slog + r.out, alog)
  {
    var taken := S.TakeM3(g.scfg, s, f);
    var r := S.SendEapol4(g.scfg, s, f, protected);
    if s.bssid.None? || taken.None? {
      assert slog + r.out == slog;
    } else {
      TakeM3Keeps(g, s, slog, alog, f);
      var t := taken.value;
      var m4 := Message4(S.KeyMic(g.scfg, t.s), t.s.kck, t.s.eapolReplay, g.scfg.mldMac);
      assert SupplicantFrame(slog + t.out, m4) by {
        assert StateInv(g, Connected(t.s), slog + t.out);
      }
      hide SupplicantInv, SupplicantFrame, S.TakeM3;
      ReplyKeeps(g, t.s, slog + t.out, alog, m4, protected);
      assert slog + (t.out + S.TxEapol(t.s, m4, protected).out) == slog + t.out + S.TxEapol(t.s, m4, protected).out;
    }
  }

  lemma {:induction false} GroupRekeyKeeps(g: Client, s: S.State, slog: seq<S.Out>, alog: seq<A.Out>, f: EapolKey, protected: bool)
    requires SupplicantInv(g, s, slog, alog) && Vouched(g, alog, f) && s.connected >= 4 && f.body.info.ack
    ensures var r := S.HandleGroupRekey(g.scfg, s, f, protected); SupplicantInv(g, r.s, slog + r.out, alog)
  {
    var taken := S.TakeGroupM1(g.scfg, s, f);
    var r := S.HandleGroupRekey(g.scfg, s, f, protected);
    if s.bssid.None? || taken.None? {
      assert slog + r.out == slog;
    } else {
      assert KeysOf(g, s, s.kck, s.kek, s.tk);
      var g2 := GroupMessage2(S.KeyMic(g.scfg, s), s.kck, f.body.replay);
      assert SupplicantFrame(slog, g2);
      if f.body.replay > s.eapolReplay {
        var keys := Unwrap(s.kek, f.body.data).value;
        GroupInstallKeeps(g, s, slog, alog, s.kck, f, keys, f.body.rsc);
        var i := S.InstallGroupKeys(s, keys, f.body.rsc).s;
        hide SupplicantInv, S.InstallGroupKeys, SupplicantFrame;
        SameKeysKeeps(g, i, i.(eapolReplay := f.body.replay), slog, alog);
      }
      hide SupplicantInv, S.InstallGroupKeys, SupplicantFrame;
      TxKeeps(g, taken.value, slog, alog, g2, protected);
    }
  }

  lemma {:induction false} EapolKeeps(g: Client, s: S.State, slog: seq<S.Out>, alog: seq<A.Out>, f: EapolKey, protected: bool, random: Nonce)
    requires SupplicantInv(g, s, slog, alog) && Vouched(g, alog, f) && s.connected >= 2
    ensures var r := S.HandleEapolKey(g.scfg, s, f, protected, random); SupplicantInv(g, r.s, slog + r.out, alog)
  {
    hide SupplicantInv, Vouched, S.SendEapol2, S.SendEapol4, S.HandleGroupRekey, S.ValidM1, S.ValidM3,
      S.ValidGroupM1, S.M1Fresh, S.M1Retry;
    var r := S.HandleEapolKey(g.scfg, s, f, protected, random);
    if r == S.SendEapol2(g.scfg, s, f.body, protected, random) {
      SendEapol2Keeps(g, s, slog, alog, f.body, protected, random);
    } else if S.ValidM3(g.scfg, s, f.body) && r == S.SendEapol4(g.scfg, s, f, protected) {
      M3Asks(g, s, f.body);
      SendEapol4Keeps(g, s, slog, alog, f, protected);
    } else if s.connected >= 4 && S.ValidGroupM1(g.scfg, s, f.body) && r == S.HandleGroupRekey(g.scfg, s, f, protected) {
      M3Asks(g, s, f.body);
      GroupRekeyKeeps(g, s, slog, alog, f, protected);
    } else if r == S.SendEapol2Retry(g.scfg, s, f.body, protected, random) {
      SendEapol2Keeps(g, s, slog, alog, f.body, protected,
                      if s.pending.Some? then s.pending.value.snonce else random);
    } else {
      assert r == S.Step(s, []);
      assert slog + r.out == slog;
    }
  }

  lemma {:induction false} M3Asks(g: Client, s: S.State, b: Body)
    ensures S.ValidM3(g.scfg, s, b) ==> b.info.ack && b.info.install
    ensures S.ValidGroupM1(g.scfg, s, b) ==> b.info.ack
  {
  }

  lemma {:induction false} DataKeeps(g: Client, s: S.State, slog: seq<S.Out>, alog: seq<A.Out>, d: S.DataFrame, random: Nonce)
    requires SupplicantInv(g, s, slog, alog) && (d.content.Eapol? ==> Vouched(g, alog, d.content.frame))
    ensures var r := S.ReceiveData(g.scfg, s, d, random); SupplicantInv(g, r.s, slog + r.out, alog)
  {
    hide SupplicantInv, Vouched, S.HandleEapolKey, S.DataOpens;
    var r := S.ReceiveData(g.scfg, s, d, random);
    if s.connected <= 3 || !S.DataOpens(s, d) {
      assert slog + r.out == slog;
    } else {
      var a := S.AcceptData(s, d);
      SilentKeeps(g, s, slog, alog, a.out);
      SameKeysKeeps(g, s, a.s, slog + a.out, alog);
      if d.content.Ethernet? {
        SilentKeeps(g, a.s, slog + a.out, alog, [S.Delivered(d.content.octets)]);
        assert slog + r.out == slog + a.out + [S.Delivered(d.content.octets)];
      } else if !S.UsesGroupKey(s, d) {
        assert d.content.Eapol? by { OpenContent(s, d); }
        EapolKeeps(g, a.s, slog + a.out, alog, d.content.frame, true, random);
        var h := S.HandleEapolKey(g.scfg, a.s, d.content.frame, true, random);
        assert slog + r.out == slog + a.out + h.out;
      }
    }
  }

  lemma {:induction false} OpenContent(s: S.State, d: S.DataFrame)
    requires S.DataOpens(s, d)
    ensures d.content.Ethernet? || d.content.Eapol?
  {
  }

  lemma {:induction false} ActionKeeps(g: Client, s: S.State, slog: seq<S.Out>, alog: seq<A.Out>, m: S.MgmtFrame)
    requires SupplicantInv(g, s, slog, alog)
    ensures var r := S.HandleAction(s, m); SupplicantInv(g, r.s, slog + r.out, alog)
  {
    hide SupplicantInv;
    var r := S.HandleAction(s, m);
    SilentKeeps(g, s, slog, alog, r.out);
    if r.s.bssid.None? && s.bssid.Some? {
      ResetKeeps(g, s, r.s, slog + r.out, alog);
    } else if r.s.connected == 0 && s.connected != 0 {
      ResetKeeps(g, s, r.s, slog + r.out, alog);
    } else if SameKeys(s, r.s) {
      SameKeysKeeps(g, s, r.s, slog + r.out, alog);
    } else {
      ResetKeeps(g, s, r.s, slog + r.out, alog);
    }
  }

  lemma {:induction false} DeauthKeeps(g: Client, s: S.State, slog: seq<S.Out>, alog: seq<A.Out>, m: S.MgmtFrame)
    requires SupplicantInv(g, s, slog, alog)
    ensures var r := S.HandleDeauth(s, m); SupplicantInv(g, r.s, slog + r.out, alog)
  {
    hide SupplicantInv;
    var r := S.HandleDeauth(s, m);
    SilentKeeps(g, s, slog, alog, r.out);
    if r.s != s {
      ResetKeeps(g, s, r.s, slog + r.out, alog);
    }
  }

  lemma {:induction false} ConnectionKeeps(g: Client, s: S.State, slog: seq<S.Out>, alog: seq<A.Out>, e: S.Event)
    requires SupplicantInv(g, s, slog, alog)
    requires e.BeaconSeen? || e.SaeDone? || e.AssocAccepted? || e.AssocRefused? || e.TimedOut?
    ensures SupplicantInv(g, S.Handle(g.scfg, s, e).s, slog, alog)
  {
    var t := S.Handle(g.scfg, s, e).s;
    assert StateInv(g, s, slog);
    hide SupplicantInv;
    if t != s {
      ResetKeeps(g, s, t, slog, alog);
    }
  }

  lemma {:induction false} StepKeeps(g: Client, s: S.State, slog: seq<S.Out>, alog: seq<A.Out>, e: S.Event)
    requires SupplicantInv(g, s, slog, alog)
    requires S.EventFrame(e).Some? ==> Vouched(g, alog, S.EventFrame(e).value)
    ensures var r := S.Handle(g.scfg, s, e); SupplicantInv(g, r.s, slog + r.out, alog)
  {
    hide SupplicantInv, Vouched, S.HandleEapolKey, S.ReceiveData, S.HandleAction, S.HandleDeauth;
    var r := S.Handle(g.scfg, s, e);
    assert slog + [] == slog;
    match e {
      case EapolReceived(f, random) =>
        if s.connected > 1 {
          EapolKeeps(g, s, slog, alog, f, false, random);
        }
      case DataReceived(d, random) => DataKeeps(g, s, slog, alog, d, random);
      case MgmtReceived(m) =>
        ActionKeeps(g, s, slog, alog, m);
        DeauthKeeps(g, s, slog, alog, m);
      case Uplink(octets) =>
        SilentKeeps(g, s, slog, alog, r.out);
        SameKeysKeeps(g, s, r.s, slog + r.out, alog);
      case _ => ConnectionKeeps(g, s, slog, alog, e);
    }
  }

  // More output of one supplicant takes nothing from the authenticator's side.
  lemma {:induction false} MoreFromSupplicant(g: Setting, w: World, x: Mac, s: S.State, out: seq<S.Out>)
    requires Inv(g, w) && x in w.ends && SupplicantInv(At(g, x), s, w.ends[x].log + out, w.alog)
    ensures Inv(g, w.(ends := w.ends[x := End(s, w.ends[x].log + out)]))
  {
    var ends := w.ends[x := End(s, w.ends[x].log + out)];
    forall k | InstalledBySome(w.ends, k) ensures InstalledBySome(ends, k)
    {
      var y :| y in w.ends && S.Out.Installed(k) in w.ends[y].log;
      assert S.Out.Installed(k) in ends[y].log;
    }
    hide SupplicantInv, StationsInv, AuthenticatorFrame, InstalledBySome;
  }

  lemma {:induction false} SupplicantStepKeeps(g: Setting, w: World, x: Mac, e: S.Event)
    requires Inv(g, w) && Admissible(g, w, AtSupplicant(x, e))
    ensures Inv(g, Next(g, w, AtSupplicant(x, e)))
  {
    if x in g.clients && x in w.ends {
      var r := S.Handle(g.clients[x], w.ends[x].s, e);
      if S.EventFrame(e).Some? {
        DeliverableVouched(g, w, x, S.EventFrame(e).value);
      }
      hide SupplicantInv, Vouched, S.Handle;
      assert SupplicantInv(At(g, x), w.ends[x].s, w.ends[x].log, w.alog);
      StepKeeps(At(g, x), w.ends[x].s, w.ends[x].log, w.alog, e);
      hide Inv;
      MoreFromSupplicant(g, w, x, r.s, r.out);
    }
  }

  // ---- steps of the authenticator -----------------------------------------------------------------------------

  ghost predicate StationOk(s: A.Station, alog: seq<A.Out>) {
    CandidatesOf(s) && (s.pendingEapol.Some? ==> SentByAuthenticator(alog, s.pendingEapol.value))
  }

  // Outputs that send no EAPOL frame and install nothing.
  predicate Quiet(out: seq<A.Out>) {
    forall o :: o in out ==> !o.Sent? && !o.Installed?
  }

  lemma {:induction false} QuietKeeps(g: Setting, a: A.State, ends: map<Mac, End>, alog: seq<A.Out>, out: seq<A.Out>)
    requires AuthenticatorInv(g, a, ends, alog) && Quiet(out)
    ensures AuthenticatorInv(g, a, ends, alog + out)
  {
    var next := alog + out;
    assert forall o :: o in next <==> o in alog || o in out;
    assert forall f :: SentByAuthenticator(alog, f) ==> SentByAuthenticator(next, f);
    forall o | o in next && o.Sent? ensures AuthenticatorFrame(next, o.frame) {
      assert AuthenticatorFrame(alog, o.frame);
      assert forall p :: RetainedBy(alog, p) ==> RetainedBy(next, p);
    }
  }

  lemma {:induction false} SendKeeps(g: Setting, a: A.State, ends: map<Mac, End>, alog: seq<A.Out>, to: Mac, f: EapolKey)
    requires AuthenticatorInv(g, a, ends, alog) && AuthenticatorFrame(alog, f)
    ensures AuthenticatorInv(g, a, ends, alog + [A.Sent(to, f)])
    ensures SentByAuthenticator(alog + [A.Sent(to, f)], f)
  {
    var next := alog + [A.Sent(to, f)];
    assert forall o :: o in next <==> o in alog || o == A.Sent(to, f);
    assert forall h :: SentByAuthenticator(alog, h) ==> SentByAuthenticator(next, h);
    assert forall p :: RetainedBy(alog, p) ==> RetainedBy(next, p);
    forall o | o in next && o.Sent? ensures AuthenticatorFrame(next, o.frame) {
      assert AuthenticatorFrame(alog, o.frame);
    }
  }

  lemma {:induction false} InstallKeeps(g: Setting, a: A.State, ends: map<Mac, End>, alog: seq<A.Out>, m: Mac, k: Secret)
    requires AuthenticatorInv(g, a, ends, alog)
    requires k.Tk? && (k.ptk.pmk !in g.compromised ==> InstalledBySome(ends, k))
    ensures AuthenticatorInv(g, a, ends, alog + [A.Installed(m, k)])
  {
    var next := alog + [A.Installed(m, k)];
    assert forall o :: o in next <==> o in alog || o == A.Installed(m, k);
    assert forall h :: SentByAuthenticator(alog, h) ==> SentByAuthenticator(next, h);
    assert forall p :: RetainedBy(alog, p) ==> RetainedBy(next, p);
    forall o | o in next && o.Sent? ensures AuthenticatorFrame(next, o.frame) {
      assert AuthenticatorFrame(alog, o.frame);
    }
  }

  lemma {:induction false} StationsKeep(g: Setting, a: A.State, b: A.State, ends: map<Mac, End>, alog: seq<A.Out>)
    requires AuthenticatorInv(g, a, ends, alog)
    requires forall m :: m in b.stations ==> (m in a.stations && b.stations[m] == a.stations[m]) || StationOk(b.stations[m], alog)
    ensures AuthenticatorInv(g, b, ends, alog)
  {
    hide AuthenticatorFrame, AuthenticatorAgrees, SentByAuthenticator;
  }

  lemma {:induction false} PutKeeps(g: Setting, a: A.State, b: A.State, ends: map<Mac, End>, alog: seq<A.Out>, sta: Mac, t: A.Station)
    requires AuthenticatorInv(g, a, ends, alog) && StationOk(t, alog)
    requires b.stations == a.stations[sta := t]
    ensures AuthenticatorInv(g, b, ends, alog)
  {
    hide AuthenticatorInv, StationOk;
    StationsKeep(g, a, b, ends, alog);
  }

  lemma {:induction false} StationIsOk(g: Setting, a: A.State, ends: map<Mac, End>, alog: seq<A.Out>, m: Mac)
    requires AuthenticatorInv(g, a, ends, alog) && m in a.stations
    ensures StationOk(a.stations[m], alog)
  {
  }

  // A record with the same candidates and pending frame, or fewer, is as good.
  lemma {:induction false} FewerOk(s: A.Station, t: A.Station, alog: seq<A.Out>)
    requires StationOk(s, alog)
    requires t.candidates == s.candidates || t.candidates == []
    requires t.pendingEapol == s.pendingEapol || t.pendingEapol.None?
    ensures StationOk(t, alog)
  {
  }

  function Record(a: A.State, m: Mac, gtk: GroupKey, igtk: GroupKey): A.Station {
    if m in a.stations then a.stations[m] else A.NewStation(gtk, igtk)
  }

  lemma {:induction false} RecordOk(g: Setting, a: A.State, ends: map<Mac, End>, alog: seq<A.Out>, m: Mac, gtk: GroupKey, igtk: GroupKey)
    requires AuthenticatorInv(g, a, ends, alog)
    ensures StationOk(Record(a, m, gtk, igtk), alog)
  {
    if m in a.stations {
      StationIsOk(g, a, ends, alog, m);
    }
  }

  lemma {:induction false} SealNextKeeps(g: Setting, a: A.State, ends: map<Mac, End>, alog: seq<A.Out>, m: Mac, c: Content)
    requires AuthenticatorInv(g, a, ends, alog)
    ensures var r := A.SealNext(a, m, c); AuthenticatorInv(g, r.s, ends, alog + r.out)
  {
    hide AuthenticatorInv, StationOk;
    var r := A.SealNext(a, m, c);
    QuietKeeps(g, a, ends, alog, r.out);
    if r.out != [] {
      StationIsOk(g, a, ends, alog + r.out, m);
      FewerOk(a.stations[m], r.s.stations[m], alog + r.out);
      PutKeeps(g, a, r.s, ends, alog + r.out, m, r.s.stations[m]);
    }
  }

  lemma {:induction false} ChallengeKeeps(g: Setting, a: A.State, ends: map<Mac, End>, alog: seq<A.Out>, m: Mac, now: nat)
    requires AuthenticatorInv(g, a, ends, alog)
    ensures var r := A.SaQueryChallenge(a, m, now); AuthenticatorInv(g, r.s, ends, alog + r.out)
  {
    hide AuthenticatorInv, StationOk;
    var r := A.SaQueryChallenge(a, m, now);
    QuietKeeps(g, a, ends, alog, r.out);
    if m in a.stations && a.stations[m].associated {
      StationIsOk(g, a, ends, alog + r.out, m);
      FewerOk(a.stations[m], r.s.stations[m], alog + r.out);
      PutKeeps(g, a, r.s, ends, alog + r.out, m, r.s.stations[m]);
    }
  }

  lemma {:induction false} AuthKeeps(g: Setting, a: A.State, ends: map<Mac, End>, alog: seq<A.Out>, m: Mac, sae: bool, now: nat,
                   gtk: GroupKey, igtk: GroupKey)
    requires AuthenticatorInv(g, a, ends, alog)
    ensures var r := A.HandleAuth(a, m, sae, now, gtk, igtk); AuthenticatorInv(g, r.s, ends, alog + r.out)
  {
    hide AuthenticatorInv, StationOk, A.SaQueryChallenge, A.NewStation;
    var r := A.HandleAuth(a, m, sae, now, gtk, igtk);
    if A.PmfProtected(a, m) {
      ChallengeKeeps(g, a, ends, alog, m, now);
    } else {
      QuietKeeps(g, a, ends, alog, r.out);
      if !sae {
        RecordOk(g, a, ends, alog + r.out, m, gtk, igtk);
        FewerOk(Record(a, m, gtk, igtk), r.s.stations[m], alog + r.out);
        PutKeeps(g, a, r.s, ends, alog + r.out, m, r.s.stations[m]);
      }
    }
  }

  lemma {:induction false} SaeCommitKeeps(g: Setting, a: A.State, ends: map<Mac, End>, alog: seq<A.Out>, m: Mac, pmk: Pmk, h2e: bool,
                       mld: Option<Mac>, gtk: GroupKey, igtk: GroupKey)
    requires AuthenticatorInv(g, a, ends, alog)
    ensures AuthenticatorInv(g, A.SaeCommitFinished(a, m, pmk, h2e, mld, gtk, igtk), ends, alog)
  {
    hide AuthenticatorInv, StationOk, A.NewStation;
    var b := A.SaeCommitFinished(a, m, pmk, h2e, mld, gtk, igtk);
    RecordOk(g, a, ends, alog, m, gtk, igtk);
    FewerOk(Record(a, m, gtk, igtk), b.stations[m], alog);
    PutKeeps(g, a, b, ends, alog, m, b.stations[m]);
  }

  lemma {:induction false} SaeConfirmKeeps(g: Setting, a: A.State, ends: map<Mac, End>, alog: seq<A.Out>, m: Mac, pmkid: nat, expires: nat)
    requires AuthenticatorInv(g, a, ends, alog)
    ensures AuthenticatorInv(g, A.SaeConfirmFinished(a, m, pmkid, expires), ends, alog)
  {
    hide AuthenticatorInv, StationOk;
    var b := A.SaeConfirmFinished(a, m, pmkid, expires);
    if m in a.stations {
      StationIsOk(g, a, ends, alog, m);
      FewerOk(a.stations[m], b.stations[m], alog);
      PutKeeps(g, a, b, ends, alog, m, b.stations[m]);
    }
  }

  lemma {:induction false} NotAckedKeeps(g: Setting, a: A.State, ends: map<Mac, End>, alog: seq<A.Out>, m: Mac)
    requires AuthenticatorInv(g, a, ends, alog)
    ensures AuthenticatorInv(g, A.AssocNotAcked(a, m), ends, alog)
  {
    hide AuthenticatorInv, StationOk;
    var b := A.AssocNotAcked(a, m);
    if m in a.stations {
      StationIsOk(g, a, ends, alog, m);
      FewerOk(a.stations[m], b.stations[m], alog);
      PutKeeps(g, a, b, ends, alog, m, b.stations[m]);
    }
  }

  // ---- association --------------------------------------------------------------------------------------------

  predicate SameFrames(s: A.Station, t: A.Station) {
    t.candidates == s.candidates && t.pendingEapol == s.pendingEapol
  }

  lemma {:induction false} NegotiatedFrames(g: Setting, s: A.Station, q: A.AssocRequest)
    requires q.negotiation.Suite?
    ensures SameFrames(s, A.Negotiated(g.acfg, s, q))
  {
    hide A.SelectsPskSha256;
  }

  lemma {:induction false} PmksaFrames(s: A.Station, cached: Option<A.Pmksa>)
    ensures SameFrames(s, A.WithPmksa(s, cached))
  {
  }

  lemma {:induction false} OweFrames(s: A.Station, pmk: Option<Pmk>)
    ensures SameFrames(s, A.WithOwe(s, pmk))
  {
  }

  lemma {:induction false} AuthorizedFrames(g: Setting, a: A.State, m: Mac, s: A.Station, q: A.AssocRequest, now: nat)
    ensures SameFrames(s, A.Authorized(g.acfg, a, m, s, q, now).0)
  {
    hide A.CachedPmksa, A.WithPmksa, A.WithOwe;
    var cached := A.CachedPmksa(a.pmksa, q.pmkids, s.mldMac.GetOr(m), now);
    PmksaFrames(s, cached);
    if q.dh.Dh? {
      OweFrames(A.WithPmksa(s, cached), q.dh.pmk);
    }
  }

  lemma {:induction false} StartHandshakeKeeps(g: Setting, a: A.State, ends: map<Mac, End>, alog: seq<A.Out>, m: Mac, s: A.Station,
                   random: Nonce, now: nat)
    requires AuthenticatorInv(g, a, ends, alog)
    ensures var r := A.StartHandshake(g.acfg, a, m, s, random, now); AuthenticatorInv(g, r.s, ends, alog + r.out)
  {
    hide AuthenticatorInv, A.ChooseAnonce;
    var r := A.StartHandshake(g.acfg, a, m, s, random, now);
    var m1 := r.out[1].frame;
    QuietKeeps(g, a, ends, alog, [r.out[0]]);
    assert AuthenticatorFrame(alog + [r.out[0]], m1);
    SendKeeps(g, a, ends, alog + [r.out[0]], m, m1);
    assert alog + r.out == alog + [r.out[0]] + [A.Sent(m, m1)];
    PutKeeps(g, a, r.s, ends, alog + r.out, m, r.s.stations[m]);
  }

  lemma {:induction false} PendingFrame(g: Setting, a: A.State, ends: map<Mac, End>, alog: seq<A.Out>, s: A.Station)
    requires AuthenticatorInv(g, a, ends, alog) && StationOk(s, alog) && s.pendingEapol.Some?
    ensures AuthenticatorFrame(alog, s.pendingEapol.value)
  {
  }

  lemma {:induction false} ResendKeeps(g: Setting, a: A.State, b: A.State, ends: map<Mac, End>, alog: seq<A.Out>, m: Mac, t: A.Station)
    requires AuthenticatorInv(g, a, ends, alog) && StationOk(t, alog) && t.pendingEapol.Some?
    requires b.stations == a.stations[m := t]
    ensures AuthenticatorInv(g, b, ends, alog + [A.Answer(m, A.AssocOk), A.Sent(m, t.pendingEapol.value)])
  {
    hide AuthenticatorInv, StationOk, SentByAuthenticator, AuthenticatorFrame;
    var first := [A.Answer(m, A.AssocOk)];
    PutKeeps(g, a, b, ends, alog, m, t);
    PendingFrame(g, a, ends, alog, t);
    QuietKeeps(g, b, ends, alog, first);
    StationIsOk(g, b, ends, alog + first, m);
    PendingFrame(g, b, ends, alog + first, t);
    SendKeeps(g, b, ends, alog + first, m, t.pendingEapol.value);
    assert alog + [A.Answer(m, A.AssocOk), A.Sent(m, t.pendingEapol.value)]
        == alog + first + [A.Sent(m, t.pendingEapol.value)];
  }

  lemma {:induction false} AssocKeeps(g: Setting, a: A.State, ends: map<Mac, End>, alog: seq<A.Out>, m: Mac, q: A.AssocRequest, now: nat,
                   random: Nonce, gtk: GroupKey, igtk: GroupKey)
    requires AuthenticatorInv(g, a, ends, alog)
    ensures var r := A.HandleAssoc(g.acfg, a, m, q, now, random, gtk, igtk); AuthenticatorInv(g, r.s, ends, alog + r.out)
  {
    hide AuthenticatorInv, StationOk, A.SaQueryChallenge, A.NewStation, A.Negotiated, A.Authorized, A.StartHandshake,
      A.Recent, A.Refusal;
    var r := A.HandleAssoc(g.acfg, a, m, q, now, random, gtk, igtk);
    if !q.reloading && A.PmfProtected(a, m) {
      QuietKeeps(g, a, ends, alog, [A.Answer(m, A.Comeback)]);
      ChallengeKeeps(g, a, ends, alog + [A.Answer(m, A.Comeback)], m, now);
      assert alog + r.out == alog + [A.Answer(m, A.Comeback)] + A.SaQueryChallenge(a, m, now).out;
    } else if q.reloading || A.Refusal(g.acfg, a, m, q).Some? {
      QuietKeeps(g, a, ends, alog, r.out);
    } else {
      NegotiationKnown(g, a, m, q);
      var s0 := Record(a, m, gtk, igtk);
      RecordOk(g, a, ends, alog, m, gtk, igtk);
      var s := A.Negotiated(g.acfg, s0, q);
      NegotiatedFrames(g, s0, q);
      FewerOk(s0, s, alog);
      var s1 := s.(lastAssoc := Some(now));
      var t := A.Authorized(g.acfg, a, m, s1, q, now).0;
      AuthorizedFrames(g, a, m, s1, q, now);
      FewerOk(s, t, alog);
      if r == A.StartHandshake(g.acfg, a, m, t, random, now) {
        StartHandshakeKeeps(g, a, ends, alog, m, t, random, now);
      } else if |r.out| == 2 {
        ResendKeeps(g, a, r.s, ends, alog, m, t);
      } else {
        var u := r.s.stations[m];
        assert u == s || u == t;
        PutKeeps(g, a, r.s, ends, alog, m, u);
        QuietKeeps(g, r.s, ends, alog, r.out);
      }
    }
  }

  lemma {:induction false} NegotiationKnown(g: Setting, a: A.State, m: Mac, q: A.AssocRequest)
    ensures A.Refusal(g.acfg, a, m, q).None? ==> q.negotiation.Suite?
  {
  }

  // ---- EAPOL at the authenticator ------------------------------------------------------------------------------

  lemma {:induction false} SelectedVerifies(g: Setting, s: A.Station, cs: seq<A.PtkCandidate>, f: EapolKey)
    ensures var c := A.SelectCandidate(g.acfg, s, cs, f);
            c.Some? ==> c.value in cs && MicValid(A.StationMic(s), c.value.kck, f)
  {
    if cs != [] {
      SelectedVerifies(g, s, cs[1..], f);
    }
  }

  lemma {:induction false} CommitFrames(s: A.Station, c: A.PtkCandidate)
    ensures A.CommitCandidate(s, c).candidates == [] && A.CommitCandidate(s, c).pendingEapol.None?
  {
  }

  // A selected candidate's key, if honest, is one the supplicant had installed.
  lemma {:induction false} SelectedIsInstalled(g: Setting, w: World, m: Mac, f: EapolKey, c: A.PtkCandidate)
    requires Inv(g, w) && Deliverable(g, w, f) && m in w.a.stations
    requires f.body.info.pairwise && f.body.info.secure && !f.body.info.ack
    requires A.SelectCandidate(g.acfg, w.a.stations[m], w.a.stations[m].candidates, f) == Some(c)
    ensures c.tk.Tk? && (c.tk.ptk.pmk !in g.compromised ==> InstalledBySome(w.ends, c.tk))
  {
    var s := w.a.stations[m];
    SelectedVerifies(g, s, s.candidates, f);
    assert CandidatesOf(s);
    if HonestKey(g.compromised, c.kck) {
      FromSupplicant(g, w, A.StationMic(s), c.kck, f);
    }
    hide Inv, A.SelectCandidate;
  }

  lemma {:induction false} M4Keeps(g: Setting, w: World, m: Mac, f: EapolKey)
    requires Inv(g, w) && Deliverable(g, w, f) && m in w.a.stations
    requires f.body.info.pairwise && f.body.info.secure && !f.body.info.ack
    ensures var r := A.HandleM4(g.acfg, w.a, m, w.a.stations[m], f); AuthenticatorInv(g, r.s, w.ends, w.alog + r.out)
  {
    hide Inv, AuthenticatorInv, Deliverable, StationOk, A.SelectCandidate, A.CommitCandidate;
    AuthenticatorPart(g, w);
    var s := w.a.stations[m];
    var c := A.SelectCandidate(g.acfg, s, s.candidates, f);
    var r := A.HandleM4(g.acfg, w.a, m, s, f);
    assert w.alog + [] == w.alog;
    if c.Some? {
      SelectedIsInstalled(g, w, m, f, c.value);
      StationIsOk(g, w.a, w.ends, w.alog, m);
      CommitFrames(s, c.value);
      FewerOk(s, r.s.stations[m], w.alog);
      PutKeeps(g, w.a, r.s, w.ends, w.alog, m, r.s.stations[m]);
      InstallKeeps(g, r.s, w.ends, w.alog, m, c.value.tk);
    }
  }

  lemma {:induction false} IssueM3Keeps(g: Setting, a: A.State, ends: map<Mac, End>, alog: seq<A.Out>, m: Mac, pmk: Pmk, snonce: Nonce)
    requires AuthenticatorInv(g, a, ends, alog) && m in a.stations
    ensures var r := A.IssueM3(g.acfg, a, m, a.stations[m], pmk, snonce); AuthenticatorInv(g, r.s, ends, alog + r.out)
  {
    var s := a.stations[m];
    var r := A.IssueM3(g.acfg, a, m, s, pmk, snonce);
    var t := r.s.stations[m];
    var retained, sent, rest := [r.out[0]], [r.out[1]], r.out[2..];
    var m3 := r.out[1].frame;
    StationIsOk(g, a, ends, alog, m);
    assert CandidatesOf(t);
    QuietKeeps(g, a, ends, alog, retained);
    assert AuthenticatorFrame(alog + retained, m3) by {
      assert A.Retained(m, m3.mic.kck.ptk) in alog + retained;
    }
    hide AuthenticatorInv, A.StationPtk, A.ThirdMessage, AuthenticatorFrame, SentByAuthenticator;
    SendKeeps(g, a, ends, alog + retained, m, m3);
    assert t.pendingEapol == Some(m3);
    PutKeeps(g, a, r.s, ends, alog + retained + sent, m, t);
    QuietKeeps(g, r.s, ends, alog + retained + sent, rest);
    assert alog + r.out == alog + retained + sent + rest;
  }

  lemma {:induction false} M2Keeps(g: Setting, a: A.State, ends: map<Mac, End>, alog: seq<A.Out>, m: Mac, f: EapolKey, rsnMatches: bool)
    requires AuthenticatorInv(g, a, ends, alog) && m in a.stations
    ensures var r := A.HandleM2(g.acfg, a, m, a.stations[m], f, rsnMatches); AuthenticatorInv(g, r.s, ends, alog + r.out)
  {
    hide AuthenticatorInv, StationOk, A.IssueM3, A.MatchingPmk, A.Credentials, A.M2OciAccepted, A.M2Expected;
    var s := a.stations[m];
    var r := A.HandleM2(g.acfg, a, m, s, f, rsnMatches);
    var pmk := A.MatchingPmk(g.acfg, m, s, A.Credentials(g.acfg, m, s), f);
    if pmk.Some? && r == A.IssueM3(g.acfg, a, m, s, pmk.value, f.body.nonce) {
      IssueM3Keeps(g, a, ends, alog, m, pmk.value, f.body.nonce);
    } else {
      QuietKeeps(g, a, ends, alog, r.out);
      if m in r.s.stations {
        StationIsOk(g, a, ends, alog + r.out, m);
        FewerOk(s, r.s.stations[m], alog + r.out);
        PutKeeps(g, a, r.s, ends, alog + r.out, m, r.s.stations[m]);
      } else {
        StationsKeep(g, a, r.s, ends, alog + r.out);
      }
    }
  }

  lemma {:induction false} EapolAtAuthenticator(g: Setting, w: World, m: Mac, f: EapolKey, rsnMatches: bool)
    requires Inv(g, w) && Deliverable(g, w, f)
    ensures var r := A.HandleEapol(g.acfg, w.a, m, f, rsnMatches); AuthenticatorInv(g, r.s, w.ends, w.alog + r.out)
  {
    hide Inv, AuthenticatorInv, Deliverable, StationOk, A.HandleM2, A.HandleM4;
    AuthenticatorPart(g, w);
    var r := A.HandleEapol(g.acfg, w.a, m, f, rsnMatches);
    if m !in w.a.stations {
      assert w.alog + r.out == w.alog;
    } else {
      var s := w.a.stations[m];
      if r == A.HandleM2(g.acfg, w.a, m, s, f, rsnMatches) {
        M2Keeps(g, w.a, w.ends, w.alog, m, f, rsnMatches);
      } else if f.body.info == Info4(Version(A.StationMic(s))) && r == A.HandleM4(g.acfg, w.a, m, s, f) {
        M4Keeps(g, w, m, f);
      } else {
        assert w.alog + r.out == w.alog;
        StationIsOk(g, w.a, w.ends, w.alog, m);
        FewerOk(s, r.s.stations[m], w.alog);
        PutKeeps(g, w.a, r.s, w.ends, w.alog, m, r.s.stations[m]);
      }
    }
  }

  lemma {:induction false} ReceiveKeeps(g: Setting, a: A.State, ends: map<Mac, End>, alog: seq<A.Out>, m: Mac, d: A.UplinkFrame, f: A.MgmtFrame)
    requires AuthenticatorInv(g, a, ends, alog)
    ensures var r := A.HandleData(a, m, d); AuthenticatorInv(g, r.s, ends, alog + r.out)
    ensures var r := A.HandleDeauth(a, m, f); AuthenticatorInv(g, r.s, ends, alog + r.out)
  {
    hide AuthenticatorInv, StationOk;
    var r := A.HandleData(a, m, d);
    QuietKeeps(g, a, ends, alog, r.out);
    if r.s != a {
      StationIsOk(g, a, ends, alog + r.out, m);
      FewerOk(a.stations[m], r.s.stations[m], alog + r.out);
      PutKeeps(g, a, r.s, ends, alog + r.out, m, r.s.stations[m]);
    }
    var t := A.HandleDeauth(a, m, f);
    QuietKeeps(g, a, ends, alog, t.out);
    StationsKeep(g, a, t.s, ends, alog + t.out);
  }

  lemma {:induction false} ActionAtAuthenticator(g: Setting, a: A.State, ends: map<Mac, End>, alog: seq<A.Out>, m: Mac, f: A.MgmtFrame)
    requires AuthenticatorInv(g, a, ends, alog)
    ensures var r := A.HandleAction(a, m, f); AuthenticatorInv(g, r.s, ends, alog + r.out)
  {
    hide AuthenticatorInv, StationOk, A.SealNext;
    if !A.MgmtOpens(a, m, f) {
      assert alog + A.HandleAction(a, m, f).out == alog;
    } else {
      var r := A.AcceptMgmt(a, m, f);
      var next := alog + r.out;
      QuietKeeps(g, a, ends, alog, r.out);
      StationIsOk(g, a, ends, next, m);
      FewerOk(a.stations[m], r.s.stations[m], next);
      PutKeeps(g, a, r.s, ends, next, m, r.s.stations[m]);
      if f.content.SaQueryRequest? {
        var c := Content.SaQueryResponse(f.content.id);
        SealNextKeeps(g, r.s, ends, next, m, c);
        assert alog + (r.out + A.SealNext(r.s, m, c).out) == next + A.SealNext(r.s, m, c).out;
      } else if f.content.SaQueryResponse? {
        var t := r.s.stations[m].(saQuery := None);
        StationIsOk(g, r.s, ends, next, m);
        FewerOk(r.s.stations[m], t, next);
        PutKeeps(g, r.s, A.Put(r.s, m, t), ends, next, m, t);
      }
    }
  }

  // ---- group rekey, timers and the run ---------------------------------------------------------------------------

  lemma {:induction false} RekeyStationKeeps(g: Setting, a: A.State, ends: map<Mac, End>, alog: seq<A.Out>, t: A.Target)
    requires AuthenticatorInv(g, a, ends, alog)
    ensures var r := A.RekeyStation(g.acfg, a, t); AuthenticatorInv(g, r.s, ends, alog + r.out)
  {
    hide AuthenticatorInv, A.GroupDelivery, A.NextReplay;
    var r := A.RekeyStation(g.acfg, a, t);
    if r.out == [] {
      assert alog + r.out == alog;
    } else {
      var m1 := r.out[0].frame;
      StationIsOk(g, a, ends, alog, t.sta);
      SendKeeps(g, a, ends, alog, t.sta, m1);
      assert r.out == [A.Sent(t.sta, m1)];
      PutKeeps(g, a, r.s, ends, alog + r.out, t.sta, r.s.stations[t.sta]);
    }
  }

  lemma {:induction false} RekeyStationsKeeps(g: Setting, a: A.State, ends: map<Mac, End>, alog: seq<A.Out>, ts: seq<A.Target>)
    requires AuthenticatorInv(g, a, ends, alog)
    ensures var r := A.RekeyStations(g.acfg, a, ts); AuthenticatorInv(g, r.s, ends, alog + r.out)
    decreases |ts|
  {
    hide AuthenticatorInv, A.RekeyStation;
    if ts == [] {
      assert alog + [] == alog;
    } else {
      RekeyStationKeeps(g, a, ends, alog, ts[0]);
      var r := A.RekeyStation(g.acfg, a, ts[0]);
      RekeyStationsKeeps(g, r.s, ends, alog + r.out, ts[1..]);
      assert alog + A.RekeyStations(g.acfg, a, ts).out == alog + r.out + A.RekeyStations(g.acfg, r.s, ts[1..]).out;
    }
  }

  lemma {:induction false} RetransmitKeeps(g: Setting, a: A.State, ends: map<Mac, End>, alog: seq<A.Out>, m: Mac)
    requires AuthenticatorInv(g, a, ends, alog)
    ensures var r := A.Retransmit(a, m); AuthenticatorInv(g, r.s, ends, alog + r.out)
  {
    hide AuthenticatorInv, StationOk;
    var r := A.Retransmit(a, m);
    if r.out == [] {
      assert alog + r.out == alog;
    } else {
      StationIsOk(g, a, ends, alog, m);
      PendingFrame(g, a, ends, alog, a.stations[m]);
      SendKeeps(g, a, ends, alog, m, a.stations[m].pendingEapol.value);
    }
  }

  lemma {:induction false} AuthenticatorStepKeeps(g: Setting, w: World, e: A.Event)
    requires Inv(g, w) && Admissible(g, w, AtAuthenticator(e))
    ensures Inv(g, Next(g, w, AtAuthenticator(e)))
  {
    hide Inv, AuthenticatorInv, EndsInv, StationOk, Deliverable, A.HandleAuth, A.HandleAssoc, A.HandleEapol, A.HandleData,
      A.HandleDeauth, A.HandleAction, A.SealNext, A.RekeyStations, A.Retransmit,
      A.SaeCommitFinished, A.SaeConfirmFinished, A.AssocNotAcked;
    AuthenticatorPart(g, w);
    var r := A.Handle(g.acfg, w.a, e);
    assert w.alog + [] == w.alog;
    match e {
      case AuthReceived(m, sae, now, gtk, igtk) => AuthKeeps(g, w.a, w.ends, w.alog, m, sae, now, gtk, igtk);
      case AssocReceived(m, q, now, random, gtk, igtk) => AssocKeeps(g, w.a, w.ends, w.alog, m, q, now, random, gtk, igtk);
      case EapolReceived(m, f, rsnMatches) => EapolAtAuthenticator(g, w, m, f, rsnMatches);
      case DataReceived(m, d) => ReceiveKeeps(g, w.a, w.ends, w.alog, m, d, A.MgmtFrame(false, false, None, Unknown, OtherAction));
      case MgmtReceived(m, f) =>
        ReceiveKeeps(g, w.a, w.ends, w.alog, m, A.UplinkFrame(true, 0, None, 0, Unknown, 0, false), f);
        ActionAtAuthenticator(g, w.a, w.ends, w.alog, m, f);
      case ToStation(m, c) => SealNextKeeps(g, w.a, w.ends, w.alog, m, c);
      case ToGroup(_) =>
        StationsKeep(g, w.a, r.s, w.ends, w.alog);
        QuietKeeps(g, r.s, w.ends, w.alog, r.out);
      case RekeyTimer(gtk, igtk, ts) =>
        var b := A.RotateGroup(g.acfg, w.a, gtk, igtk);
        StationsKeep(g, w.a, b, w.ends, w.alog);
        RekeyStationsKeeps(g, b, w.ends, w.alog, ts);
      case RetryTimer(m) => RetransmitKeeps(g, w.a, w.ends, w.alog, m);
      case Maintenance(_) => StationsKeep(g, w.a, r.s, w.ends, w.alog);
      case Dropped(_) => StationsKeep(g, w.a, r.s, w.ends, w.alog);
      case SaeCommitDone(m, pmk, h2e, mld, gtk, igtk) => SaeCommitKeeps(g, w.a, w.ends, w.alog, m, pmk, h2e, mld, gtk, igtk);
      case SaeConfirmDone(m, pmkid, expires) => SaeConfirmKeeps(g, w.a, w.ends, w.alog, m, pmkid, expires);
      case NotAcked(m) => NotAckedKeeps(g, w.a, w.ends, w.alog, m);
    }
    MoreFromAuthenticator(g, w, r.s, r.out);
  }

  lemma {:induction false} AuthenticatorPart(g: Setting, w: World)
    requires Inv(g, w)
    ensures EndsInv(g, w.ends, w.alog) && AuthenticatorInv(g, w.a, w.ends, w.alog)
  {
  }

  // More output of the authenticator takes nothing from a supplicant's side.
  lemma {:induction false} MoreForSupplicant(g: Client, s: S.State, slog: seq<S.Out>, alog: seq<A.Out>, out: seq<A.Out>)
    requires SupplicantInv(g, s, slog, alog)
    ensures SupplicantInv(g, s, slog, alog + out)
  {
    var next := alog + out;
    assert forall o :: o in alog ==> o in next;
    assert forall p :: RetainedBy(alog, p) ==> RetainedBy(next, p);
    assert forall f :: SentByAuthenticator(alog, f) ==> SentByAuthenticator(next, f);
    if GtkSent(alog, s.gtkKeyId, s.gtk) {
      assert GtkSent(next, s.gtkKeyId, s.gtk);
    }
    hide StateInv, SupplicantFrame, GtkSent, InstallsItsOwn;
  }

  lemma {:induction false} MoreFromAuthenticator(g: Setting, w: World, a: A.State, out: seq<A.Out>)
    requires EndsInv(g, w.ends, w.alog) && AuthenticatorInv(g, a, w.ends, w.alog + out)
    ensures Inv(g, w.(a := a, alog := w.alog + out))
  {
    hide SupplicantInv, AuthenticatorInv;
    forall x | x in w.ends ensures SupplicantInv(At(g, x), w.ends[x].s, w.ends[x].log, w.alog + out)
    {
      MoreForSupplicant(At(g, x), w.ends[x].s, w.ends[x].log, w.alog, out);
    }
  }

  lemma {:induction false} RunKeeps(g: Setting, replay: nat, gtk: GroupKey, igtk: GroupKey, es: seq<Event>)
    requires AdmissibleRun(g, Start(g, replay, gtk, igtk), es)
    ensures Inv(g, Run(g, Start(g, replay, gtk, igtk), es))
  {
    var start := Start(g, replay, gtk, igtk);
    if es == [] {
      assert start.ends.Keys == g.clients.Keys;
      assert Inv(g, start);
    } else {
      var w := Run(g, start, es[..|es| - 1]);
      RunKeeps(g, replay, gtk, igtk, es[..|es| - 1]);
      hide Inv, Admissible, Next;
      match es[|es| - 1] {
        case AtSupplicant(x, e) => SupplicantStepKeeps(g, w, x, e);
        case AtAuthenticator(e) => AuthenticatorStepKeeps(g, w, e);
      }
    }
  }

  // Key agreement in every reachable world, so at the moment of each installation: what a
  // supplicant installs under an uncompromised PMK the authenticator had retained, what the
  // authenticator installs a supplicant had installed, under its own address, and each
  // supplicant's group key is one the authenticator sent.
  lemma {:induction false} KeyAgreement(g: Setting, replay: nat, gtk: GroupKey, igtk: GroupKey, es: seq<Event>)
    requires AdmissibleRun(g, Start(g, replay, gtk, igtk), es)
    ensures var w := Run(g, Start(g, replay, gtk, igtk), es);
            && w.ends.Keys == g.clients.Keys
            && AuthenticatorAgrees(g, w.ends, w.alog)
            && forall x :: x in w.ends ==>
                 && SupplicantAgrees(At(g, x), w.ends[x].log, w.alog)
                 && InstallsItsOwn(g.clients[x], w.ends[x].log)
                 && GroupKeyAuthentic(At(g, x), w.ends[x].s, w.alog)
  {
    RunKeeps(g, replay, gtk, igtk, es);
    hide Run, SupplicantAgrees, InstallsItsOwn, GroupKeyAuthentic, AuthenticatorAgrees;
  }

  // ---- station by station -----------------------------------------------------------------------------------------

  function AuthenticatorEvents(es: seq<Event>): seq<A.Event> {
    if es == [] then []
    else AuthenticatorEvents(es[..|es| - 1]) + (if es[|es| - 1].AtAuthenticator? then [es[|es| - 1].ae] else [])
  }

  // The authenticator's part of a run is a run of its own.
  lemma {:induction false} AuthenticatorProjects(g: Setting, replay: nat, gtk: GroupKey, igtk: GroupKey, es: seq<Event>)
    ensures var w := Run(g, Start(g, replay, gtk, igtk), es);
            A.Step(w.a, w.alog) == A.RunFrom(g.acfg, A.Initial(replay, gtk, igtk), AuthenticatorEvents(es))
  {
    if es != [] {
      var front := es[..|es| - 1];
      AuthenticatorProjects(g, replay, gtk, igtk, front);
      hide A.Handle, S.Handle, A.Initial;
      var before := AuthenticatorEvents(front);
      if es[|es| - 1].AtAuthenticator? {
        var all := before + [es[|es| - 1].ae];
        assert all[..|all| - 1] == before;
      } else {
        assert before + [] == before;
      }
    }
  }

  // Each station derives its keys with an address that only it claims.
  predicate StationsClaim(g: Setting, k: I.Claims) {
    forall x :: x in g.clients ==> I.Claimed(k, Address(g.clients[x]), x)
  }

  lemma {:induction false} BetweenNames(k: I.Claims, m: Mac, x: Mac, address: Mac, p: Ptk)
    requires I.Between(k, m, p) && Names(p, address) && I.Claimed(k, address, x)
    ensures m == x
  {
  }

  // Where no address is claimed for two stations, the ends agree station by station: what the
  // authenticator installs for a station that station had installed, and what a station
  // installs the authenticator had retained for it, though all share a PMK.
  lemma {:induction false} StationAgreement(
    g: Setting, k: I.Claims, replay: nat, gtk: GroupKey, igtk: GroupKey, es: seq<Event>, m: Mac, p: Ptk)
    requires AdmissibleRun(g, Start(g, replay, gtk, igtk), es)
    requires I.OwnAddresses(g.acfg, k) && StationsClaim(g, k) && forall e :: e in AuthenticatorEvents(es) ==> I.Exclusive(k, e)
    requires p.pmk !in g.compromised
    ensures var w := Run(g, Start(g, replay, gtk, igtk), es);
            && (A.Installed(m, Tk(p)) in w.alog ==> m in w.ends && S.Out.Installed(Tk(p)) in w.ends[m].log)
            && (m in w.ends && S.Out.Installed(Tk(p)) in w.ends[m].log ==> A.Retained(m, p) in w.alog)
  {
    var w := Run(g, Start(g, replay, gtk, igtk), es);
    var events := AuthenticatorEvents(es);
    KeyAgreement(g, replay, gtk, igtk, es);
    AuthenticatorProjects(g, replay, gtk, igtk, es);
    hide Run, A.RunFrom, A.Initial, AuthenticatorEvents, I.OwnAddresses, I.Exclusive, GroupKeyAuthentic, I.Between, Names, I.Claimed, AdmissibleRun,
         I.StationsInv;
    if A.Installed(m, Tk(p)) in w.alog {
      I.RunKeepsIdentity(g.acfg, k, m, replay, gtk, igtk, events);
      var x :| x in w.ends && S.Out.Installed(Tk(p)) in w.ends[x].log;
      BetweenNames(k, m, x, Address(g.clients[x]), p);
    }
    if m in w.ends && S.Out.Installed(Tk(p)) in w.ends[m].log {
      assert SupplicantAgrees(At(g, m), w.ends[m].log, w.alog);
      var n :| A.Retained(n, p) in w.alog;
      I.RunKeepsIdentity(g.acfg, k, n, replay, gtk, igtk, events);
      BetweenNames(k, n, m, Address(g.clients[m]), p);
    }
  }
}
