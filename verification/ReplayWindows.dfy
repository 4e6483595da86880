/**
 Receive windows of the supplicant follow the key: while a key stays installed the numbers
 accepted under it strictly increase, whatever is retransmitted or delivered again in
 between. Nothing here depends on random nonces being fresh or on how the state arose.
 */
module ReplayWindows {
  import opened Common
  import opened Symbols
  import opened Supplicant

  // The window of a counter, while the key it belongs to is installed.
  function CounterOf(s: State, c: Counter): Option<nat> {
    match c
    case Data(tk, slot) => if s.installed && s.tk == tk then Some(s.rxPn[slot]) else None
    case Management(tk) => if s.installed && s.tk == tk then Some(s.rxMgmtPn) else None
    case GroupData(gtk, slot) => if s.gtkSet && s.gtk == gtk then Some(s.rxGroupPn[slot]) else None
    case Bip(igtk) => if s.igtk == Some(igtk) then Some(s.rxIgtkIpn) else None
  }

  ghost predicate WindowAtMost(v: Window, w: Window) {
    forall i: Slot :: v[i] <= w[i]
  }

  // No counter whose key survives from s to t is lowered, and neither is the packet number.
  ghost predicate NoneLowered(s: State, t: State) {
    && (s.installed && t.installed && s.tk == t.tk ==>
          s.clientPn <= t.clientPn && WindowAtMost(s.rxPn, t.rxPn) && s.rxMgmtPn <= t.rxMgmtPn)
    && (s.gtkSet && t.gtkSet && s.gtk == t.gtk ==> WindowAtMost(s.rxGroupPn, t.rxGroupPn))
    && (s.igtk.Some? && s.igtk == t.igtk ==> s.rxIgtkIpn <= t.rxIgtkIpn)
  }

  lemma {:induction false} NoneLoweredMeans(s: State, t: State, c: Counter)
    requires NoneLowered(s, t) && CounterOf(s, c).Some? && CounterOf(t, c).Some?
    ensures CounterOf(s, c).value <= CounterOf(t, c).value
  {
  }

  predicate NothingAccepted(out: seq<Out>) {
    forall o :: o in out ==> !o.Accepted?
  }

  // An accepted number is above the window before, and the window after is at least it.
  predicate AcceptsAbove(s: State, t: State, o: Out) {
    o.Accepted? ==>
      && CounterOf(s, o.counter).Some? && CounterOf(s, o.counter).value < o.number
      && (CounterOf(t, o.counter).Some? ==> o.number <= CounterOf(t, o.counter).value)
  }

  // ---- EAPOL processing accepts no counter and lowers none --------------------------------

  lemma {:induction false} WithGtkLowersNone(s: State, id: nat, rsc: nat, key: GroupKey)
    ensures NoneLowered(s, WithGtk(s, id, rsc, key)) && PairwiseStateKept(s, WithGtk(s, id, rsc, key))
    ensures WithGtk(s, id, rsc, key).igtk == s.igtk && WithGtk(s, id, rsc, key).rxIgtkIpn == s.rxIgtkIpn
  {
  }

  lemma {:induction false} WithIgtkLowersNone(s: State, k: Option<IgtkDelivery>)
    ensures NoneLowered(s, WithIgtk(s, k)) && PairwiseStateKept(s, WithIgtk(s, k))
    ensures var t := WithIgtk(s, k); t.gtkSet == s.gtkSet && t.gtk == s.gtk && t.rxGroupPn == s.rxGroupPn
  {
  }

  lemma {:induction false} InstallLowersNone(s: State, k: Delivery, rsc: nat)
    ensures var i := InstallGroupKeys(s, k, rsc); i.Granted? ==> NoneLowered(s, i.s) && PairwiseStateKept(s, i.s)
  {
    hide WithGtk, WithIgtk, DeliveredGtk;
    var gtk := DeliveredGtk(k, rsc);
    if gtk.Some? {
      var t := WithGtk(s, gtk.value.0, gtk.value.1, gtk.value.2);
      WithGtkLowersNone(s, gtk.value.0, gtk.value.1, gtk.value.2);
      WithIgtkLowersNone(t, k.igtk);
    }
  }

  lemma {:induction false} CommitLowersNone(s: State)
    ensures NoneLowered(s, CommitPending(s).s) && NothingAccepted(CommitPending(s).out)
    ensures CommitPending(s).s.installed == s.installed && GroupStateKept(s, CommitPending(s).s)
  {
  }

  predicate GroupStateKept(s: State, t: State) {
    && t.gtkSet == s.gtkSet && t.gtk == s.gtk && t.rxGroupPn == s.rxGroupPn
    && t.igtk == s.igtk && t.rxIgtkIpn == s.rxIgtkIpn
  }

  predicate PairwiseStateKept(s: State, t: State) {
    && t.installed == s.installed && t.tk == s.tk && t.clientPn == s.clientPn
    && t.rxPn == s.rxPn && t.rxMgmtPn == s.rxMgmtPn
  }

  lemma {:induction false} TakeM3LowersNone(cfg: Config, s: State, f: EapolKey)
    ensures var t := TakeM3(cfg, s, f);
            t.Some? ==> NoneLowered(s, t.value.s) && NothingAccepted(t.value.out) && t.value.s.installed == s.installed
  {
    hide InstallGroupKeys, CommitPending, OciAccepted, FreshM3, KeyMic;
    var taken := TakeM3(cfg, s, f);
    if taken.Some? && !RetryM3(s, f.body) {
      FreshHasPending(s, f.body);
      var keys := Unwrap(s.pending.value.kek, f.body.data).value;
      InstallLowersNone(s, keys, f.body.rsc);
      CommitLowersNone(InstallGroupKeys(s, keys, f.body.rsc).s.(eapolReplay := f.body.replay));
    }
  }

  lemma {:induction false} FreshHasPending(s: State, b: Body)
    ensures FreshM3(s, b) ==> s.pending.Some?
  {
  }

  lemma {:induction false} NothingAcceptedConcat(a: seq<Out>, b: seq<Out>)
    requires NothingAccepted(a) && NothingAccepted(b)
    ensures NothingAccepted(a + b)
  {
  }

  lemma {:induction false} SendEapol4Quiet(cfg: Config, s: State, f: EapolKey, protected: bool)
    ensures var r := SendEapol4(cfg, s, f, protected); NoneLowered(s, r.s) && NothingAccepted(r.out)
  {
    hide TakeM3, KeyMic, EncryptUplink;
    TakeM3LowersNone(cfg, s, f);
    var taken := TakeM3(cfg, s, f);
    if taken.Some? {
      var t := taken.value.s;
      var m4 := Message4(KeyMic(cfg, t), t.kck, t.eapolReplay, cfg.mldMac);
      TxChanges(t, m4, protected);
      NothingAcceptedConcat(taken.value.out, TxEapol(t, m4, protected).out);
    }
  }

  lemma {:induction false} TxChanges(s: State, f: EapolKey, protected: bool)
    ensures var r := TxEapol(s, f, protected);
            r.s == s.(clientPn := r.s.clientPn) && r.s.clientPn >= s.clientPn && NothingAccepted(r.out)
  {
  }

  lemma {:induction false} GroupRekeyQuiet(cfg: Config, s: State, f: EapolKey, protected: bool)
    ensures var r := HandleGroupRekey(cfg, s, f, protected); NoneLowered(s, r.s) && NothingAccepted(r.out)
  {
    var taken := TakeGroupM1(cfg, s, f);
    if taken.Some? && f.body.replay != s.eapolReplay {
      InstallLowersNone(s, Unwrap(s.kek, f.body.data).value, f.body.rsc);
    }
    hide TakeGroupM1, InstallGroupKeys;
  }

  lemma {:induction false} SendEapol2Quiet(cfg: Config, s: State, b: Body, protected: bool, snonce: Nonce)
    ensures var r := SendEapol2(cfg, s, b, protected, snonce); NoneLowered(s, r.s) && NothingAccepted(r.out)
  {
    hide KeyMic, DerivePtk, SecondMessage;
  }

  lemma {:induction false} EapolQuiet(cfg: Config, s: State, f: EapolKey, protected: bool, random: Nonce)
    ensures var r := HandleEapolKey(cfg, s, f, protected, random); NoneLowered(s, r.s) && NothingAccepted(r.out)
  {
    hide SendEapol2, SendEapol4, HandleGroupRekey, ValidM1, ValidM3, ValidGroupM1, M1Fresh, M1Retry;
    SendEapol2Quiet(cfg, s, f.body, protected, random);
    SendEapol2Quiet(cfg, s, f.body, protected, if s.pending.Some? then s.pending.value.snonce else random);
    SendEapol4Quiet(cfg, s, f, protected);
    GroupRekeyQuiet(cfg, s, f, protected);
  }

  // ---- one event accepts at most one counter value -------------------------------------------

  predicate AcceptsAtMostOne(out: seq<Out>) {
    out == [] || NothingAccepted(out[1..])
  }

  // What one event does to the windows.
  ghost predicate SoundAcceptance(s: State, t: State, out: seq<Out>) {
    && NoneLowered(s, t)
    && AcceptsAtMostOne(out)
    && (out != [] ==> AcceptsAbove(s, t, out[0]))
  }

  lemma {:induction false} QuietIsSound(s: State, t: State, out: seq<Out>)
    requires NoneLowered(s, t) && NothingAccepted(out)
    ensures SoundAcceptance(s, t, out)
  {
    if out != [] {
      assert out[0] in out;
      assert forall o :: o in out[1..] ==> o in out;
    }
  }

  lemma {:induction false} AcceptDataSound(s: State, d: DataFrame)
    requires s.connected > 3 && DataOpens(s, d) && s.installed && (UsesGroupKey(s, d) ==> s.gtkSet)
    ensures var a := AcceptData(s, d); SoundAcceptance(s, a.s, a.out)
  {
  }

  lemma {:induction false} SoundThenQuiet(s: State, m: State, t: State, accepted: seq<Out>, out: seq<Out>)
    requires SoundAcceptance(s, m, accepted) && |accepted| == 1 && accepted[0].Accepted?
    requires CounterOf(m, accepted[0].counter).Some?
    requires NoneLowered(m, t) && NothingAccepted(out)
    requires m.installed == s.installed && m.tk == s.tk && m.gtkSet == s.gtkSet && m.gtk == s.gtk && m.igtk == s.igtk
    ensures SoundAcceptance(s, t, accepted + out)
  {
    assert (accepted + out)[1..] == out;
  }

  lemma {:induction false} ReceiveDataSound(cfg: Config, s: State, d: DataFrame, random: Nonce)
    requires Live(s)
    ensures var r := ReceiveData(cfg, s, d, random); SoundAcceptance(s, r.s, r.out)
  {
    hide HandleEapolKey, SoundAcceptance, NoneLowered;
    var r := ReceiveData(cfg, s, d, random);
    if s.connected > 3 && DataOpens(s, d) {
      AcceptDataSound(s, d);
      var a := AcceptData(s, d);
      if d.content.Ethernet? {
        SameStateLowersNone(a.s);
        SoundThenQuiet(s, a.s, a.s, a.out, [Delivered(d.content.octets)]);
      } else if !UsesGroupKey(s, d) {
        EapolQuiet(cfg, a.s, d.content.frame, true, random);
        SoundThenQuiet(s, a.s, r.s, a.out, HandleEapolKey(cfg, a.s, d.content.frame, true, random).out);
      }
    } else {
      SameStateLowersNone(s);
      QuietIsSound(s, s, []);
    }
  }

  lemma {:induction false} SameStateLowersNone(s: State)
    ensures NoneLowered(s, s)
  {
  }

  lemma {:induction false} DisconnectClears(s: State)
    ensures var t := Disconnect(s); !t.installed && !t.gtkSet && t.igtk.None?
  {
  }

  lemma {:induction false} ActionSound(s: State, m: MgmtFrame)
    ensures var r := HandleAction(s, m); SoundAcceptance(s, r.s, r.out)
  {
    hide Disconnect;
    if s.saePmk.Some? && MgmtOpens(s, m) {
      DisconnectClears(AcceptMgmt(s, m).s);
    }
  }

  lemma {:induction false} DeauthSound(s: State, m: MgmtFrame)
    ensures var r := HandleDeauth(s, m); SoundAcceptance(s, r.s, r.out)
  {
    hide Disconnect;
    DisconnectClears(s);
  }

  lemma {:induction false} MgmtSound(s: State, m: MgmtFrame)
    ensures var r := HandleRobustMgmt(s, m); SoundAcceptance(s, r.s, r.out)
  {
    hide HandleAction, HandleDeauth;
    ActionSound(s, m);
    DeauthSound(s, m);
  }

  // A fully connected client has its pairwise key and a group key, and no other has one.
  predicate Live(s: State) {
    (s.connected >= 4 <==> s.installed) && (s.installed ==> s.gtkSet)
  }

  lemma {:induction false} HandleSound(cfg: Config, s: State, e: Event)
    requires Live(s)
    ensures var r := Handle(cfg, s, e); SoundAcceptance(s, r.s, r.out)
  {
    hide HandleEapolKey, ReceiveData, HandleRobustMgmt;
    match e {
      case EapolReceived(f, random) =>
        EapolQuiet(cfg, s, f, false, random);
        QuietIsSound(s, HandleEapolKey(cfg, s, f, false, random).s, HandleEapolKey(cfg, s, f, false, random).out);
      case DataReceived(d, random) => ReceiveDataSound(cfg, s, d, random);
      case MgmtReceived(m) => MgmtSound(s, m);
      case _ =>
    }
  }

  // ---- Live holds in every reachable state ------------------------------------------------------

  lemma {:induction false} InstallSetsGtk(s: State, k: Delivery, rsc: nat)
    ensures var i := InstallGroupKeys(s, k, rsc);
            i.Granted? ==> i.s.gtkSet && i.s.installed == s.installed && i.s.connected == s.connected
  {
  }

  lemma {:induction false} SendEapol4Live(cfg: Config, s: State, f: EapolKey, protected: bool)
    requires Live(s)
    ensures Live(SendEapol4(cfg, s, f, protected).s)
  {
    hide InstallGroupKeys, KeyMic, OciAccepted;
    var taken := TakeM3(cfg, s, f);
    if taken.Some? && !RetryM3(s, f.body) {
      InstallSetsGtk(s, Unwrap(s.pending.value.kek, f.body.data).value, f.body.rsc);
    }
  }

  lemma {:induction false} GroupRekeyLive(cfg: Config, s: State, f: EapolKey, protected: bool)
    requires Live(s)
    ensures Live(HandleGroupRekey(cfg, s, f, protected).s)
  {
    hide InstallGroupKeys, KeyMic;
    var keys := Unwrap(s.kek, f.body.data);
    if keys.Some? {
      InstallSetsGtk(s, keys.value, f.body.rsc);
    }
  }

  lemma {:induction false} SendEapol2Live(cfg: Config, s: State, b: Body, protected: bool, snonce: Nonce)
    requires Live(s)
    ensures Live(SendEapol2(cfg, s, b, protected, snonce).s)
  {
    hide KeyMic, DerivePtk, SecondMessage;
  }

  lemma {:induction false} EapolLive(cfg: Config, s: State, f: EapolKey, protected: bool, random: Nonce)
    requires Live(s)
    ensures Live(HandleEapolKey(cfg, s, f, protected, random).s)
  {
    hide SendEapol2, SendEapol4, HandleGroupRekey, ValidM1, ValidM3, ValidGroupM1, M1Fresh, M1Retry;
    SendEapol2Live(cfg, s, f.body, protected, random);
    SendEapol2Live(cfg, s, f.body, protected, if s.pending.Some? then s.pending.value.snonce else random);
    SendEapol4Live(cfg, s, f, protected);
    GroupRekeyLive(cfg, s, f, protected);
  }

  lemma {:induction false} MgmtLive(s: State, m: MgmtFrame)
    requires Live(s)
    ensures Live(HandleRobustMgmt(s, m).s)
  {
  }

  lemma {:induction false} HandleKeepsLive(cfg: Config, s: State, e: Event)
    requires Live(s)
    ensures Live(Handle(cfg, s, e).s)
  {
    hide HandleEapolKey, HandleRobustMgmt;
    match e {
      case EapolReceived(f, random) => EapolLive(cfg, s, f, false, random);
      case DataReceived(d, random) =>
        if s.connected > 3 && DataOpens(s, d) && d.content.Eapol? {
          EapolLive(cfg, AcceptData(s, d).s, d.content.frame, true, random);
        }
      case MgmtReceived(m) => MgmtLive(s, m);
      case _ =>
    }
  }

  // ---- every stretch of a run -----------------------------------------------------------------------

  // The numbers accepted on a counter, in order.
  function Numbers(log: seq<Out>, c: Counter): seq<nat> {
    if log == [] then []
    else Numbers(log[..|log| - 1], c)
         + (if log[|log| - 1].Accepted? && log[|log| - 1].counter == c then [log[|log| - 1].number] else [])
  }

  // low < ns[0] < ns[1] < ... <= high
  predicate Climbs(low: nat, ns: seq<nat>, high: nat) {
    if ns == [] then low <= high
    else Climbs(low, ns[..|ns| - 1], ns[|ns| - 1]) && ns[|ns| - 1] <= high
         && (if |ns| == 1 then low else ns[|ns| - 2]) < ns[|ns| - 1]
  }

  // The counter's key is installed before and after every one of the events.
  ghost predicate StaysInstalled(cfg: Config, s: State, es: seq<Event>, c: Counter) {
    && CounterOf(RunFrom(cfg, s, es).s, c).Some?
    && (es != [] ==> StaysInstalled(cfg, s, es[..|es| - 1], c))
  }

  lemma {:induction false} NumbersConcat(a: seq<Out>, b: seq<Out>, c: Counter)
    ensures Numbers(a + b, c) == Numbers(a, c) + Numbers(b, c)
  {
    if b == [] {
      assert a + b == a;
    } else {
      NumbersConcat(a, b[..|b| - 1], c);
      assert (a + b)[..|a + b| - 1] == a + b[..|b| - 1];
    }
  }

  lemma {:induction false} NoNumbers(log: seq<Out>, c: Counter)
    requires NothingAccepted(log)
    ensures Numbers(log, c) == []
  {
    if log != [] {
      assert log[|log| - 1] in log;
      assert NothingAccepted(log[..|log| - 1]);
      NoNumbers(log[..|log| - 1], c);
    }
  }

  lemma {:induction false} NumbersOfOne(out: seq<Out>, c: Counter)
    requires AcceptsAtMostOne(out)
    ensures Numbers(out, c) == if out != [] && out[0].Accepted? && out[0].counter == c then [out[0].number] else []
  {
    if out != [] {
      assert out == [out[0]] + out[1..];
      NumbersConcat([out[0]], out[1..], c);
      NoNumbers(out[1..], c);
      assert Numbers([out[0]][..0], c) == [];
    }
  }

  lemma {:induction false} ClimbsOn(low: nat, ns: seq<nat>, mid: nat, more: seq<nat>, high: nat)
    requires Climbs(low, ns, mid) && |more| <= 1 && mid <= high
    requires more != [] ==> mid < more[0] <= high
    ensures Climbs(low, ns + more, high)
  {
    if more == [] {
      assert ns + more == ns;
    } else {
      assert (ns + more)[..|ns + more| - 1] == ns;
      ClimbsTo(low, ns, mid, more[0]);
    }
  }

  lemma {:induction false} ClimbsTo(low: nat, ns: seq<nat>, high: nat, higher: nat)
    requires Climbs(low, ns, high) && high <= higher
    ensures Climbs(low, ns, higher)
    ensures (if ns == [] then low else ns[|ns| - 1]) <= high
  {
  }

  // While its key stays installed, a counter accepts strictly increasing numbers, all above
  // its window at the start and none above its window at the end: over any events, from any
  // state, for pairwise data, group data, protected management and BIP alike.
  lemma {:induction false} AcceptedNumbersClimb(cfg: Config, s: State, es: seq<Event>, c: Counter)
    requires Live(s) && StaysInstalled(cfg, s, es, c)
    ensures CounterOf(s, c).Some?
    ensures var r := RunFrom(cfg, s, es);
            Climbs(CounterOf(s, c).value, Numbers(r.out, c), CounterOf(r.s, c).value) && Live(r.s)
  {
    if es != [] {
      var front := es[..|es| - 1];
      AcceptedNumbersClimb(cfg, s, front, c);
      var m := RunFrom(cfg, s, front);
      var e := es[|es| - 1];
      var h := Handle(cfg, m.s, e);
      HandleSound(cfg, m.s, e);
      HandleKeepsLive(cfg, m.s, e);
      hide Live, Handle;
      NumbersConcat(m.out, h.out, c);
      NumbersOfOne(h.out, c);
      NoneLoweredMeans(m.s, h.s, c);
      hide NoneLowered;
      ClimbsOn(CounterOf(s, c).value, Numbers(m.out, c), CounterOf(m.s, c).value, Numbers(h.out, c), CounterOf(h.s, c).value);
    }
  }
}
