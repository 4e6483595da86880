/**
 What an attacker without keys can do to the supplicant's handshake: frames it cannot
 authenticate change nothing but the pending candidate, and whatever candidate it leaves,
 the next honest handshake is committed unless another message 1 overtakes it.
 */
module ForgedMessages {
  import opened Common
  import opened Symbols
  import opened Supplicant
  import opened SupplicantRuns

  // ---- a message 1 alone -----------------------------------------------------------------

  // The MIC of f verifies under no key the supplicant holds.
  predicate Unauthenticated(cfg: Config, s: State, f: EapolKey) {
    && !MicValid(KeyMic(cfg, s), s.kck, f)
    && (s.pending.Some? ==> !MicValid(KeyMic(cfg, s), s.pending.value.kck, f))
  }

  lemma {:induction false} SendEapol2Changes(cfg: Config, s: State, b: Body, protected: bool, snonce: Nonce)
    ensures var r := SendEapol2(cfg, s, b, protected, snonce);
            && r.s == s.(pending := r.s.pending, eapolState := r.s.eapolState, clientPn := r.s.clientPn)
            && s.clientPn <= r.s.clientPn <= s.clientPn + 1
            && (!protected ==> r.s.clientPn == s.clientPn)
            && (s.bssid.Some? ==> r.s.eapolState == 1
                                  && r.s.pending == Some(Candidate(cfg, s, b.nonce, snonce, b.replay)))
  {
    hide KeyMic, DerivePtk, SecondMessage;
  }

  lemma {:induction false} UnauthenticatedTakesNothing(cfg: Config, s: State, f: EapolKey, protected: bool)
    requires Unauthenticated(cfg, s, f)
    ensures SendEapol4(cfg, s, f, protected) == Step(s, [])
    ensures HandleGroupRekey(cfg, s, f, protected) == Step(s, [])
  {
  }

  // A frame without a valid MIC touches no installed key, window, packet number of the past
  // or replay counter: at most it replaces the candidate and spends one packet number on a
  // protected reply. Unless it is a message 1 it changes nothing at all.
  lemma {:induction false} UnauthenticatedKeepsSession(cfg: Config, s: State, f: EapolKey, protected: bool, random: Nonce)
    requires Unauthenticated(cfg, s, f)
    ensures var r := HandleEapolKey(cfg, s, f, protected, random);
            && r.s == s.(pending := r.s.pending, eapolState := r.s.eapolState, clientPn := r.s.clientPn)
            && s.clientPn <= r.s.clientPn <= s.clientPn + 1
            && (!ValidM1(cfg, s, f.body) ==> r == Step(s, []))
  {
    hide SendEapol2, SendEapol4, HandleGroupRekey, ValidM1, ValidM3, ValidGroupM1, M1Retry, M1Fresh, Unauthenticated;
    UnauthenticatedTakesNothing(cfg, s, f, protected);
    SendEapol2Changes(cfg, s, f.body, protected, random);
    SendEapol2Changes(cfg, s, f.body, protected, if s.pending.Some? then s.pending.value.snonce else random);
  }

  // ---- an honest handshake after any attack ----------------------------------------------------

  // Message 1 as the authenticator builds it for this association.
  predicate HonestM1(cfg: Config, s: State, f: EapolKey) {
    && f.body.info == Info1(Version(KeyMic(cfg, s)))
    && f.body.keyLength == cfg.keyLength
    && f.body.nonce != NO_NONCE
    && f.body.replay > s.eapolReplay
  }

  // Keys that a supplicant of this association accepts.
  predicate AcceptableKeys(cfg: Config, s: State, k: Delivery, rsc: nat) {
    rsc <= MAX_PACKET_NUMBER && !k.gtk.NoGtk? && (s.saePmk.Some? ==> k.igtk.Some?) && OciAccepted(cfg, k)
  }

  lemma {:induction false} HonestM1Pends(cfg: Config, s: State, m1: EapolKey, protected: bool, random: Nonce)
    requires Shape(s) && s.connected >= 2
    requires HonestM1(cfg, s, m1) && !RefusedByPmf(s, m1.body, protected)
    ensures var t := HandleEapolKey(cfg, s, m1, protected, random).s;
            && t == s.(pending := t.pending, eapolState := 1, clientPn := t.clientPn)
            && t.pending.Some?
            && t.pending.value == Candidate(cfg, s, m1.body.nonce, t.pending.value.snonce, m1.body.replay)
            && (t.pending.value.snonce == random
                || (s.pending.Some? && t.pending.value.snonce == s.pending.value.snonce))
  {
    assert ValidM1(cfg, s, m1.body) && M1Fresh(s, m1.body) && !ValidM3(cfg, s, m1.body);
    SendEapol2Changes(cfg, s, m1.body, protected, random);
    SendEapol2Changes(cfg, s, m1.body, protected, if s.pending.Some? then s.pending.value.snonce else random);
    hide SendEapol2, SendEapol4, HandleGroupRekey, ValidM1, ValidM3, ValidGroupM1, DerivePtk, KeyMic;
  }

  lemma {:induction false} HonestM3Commits(cfg: Config, s: State, m3: EapolKey, protected: bool, random: Nonce, replay: nat,
                        rsc: nat, keys: Delivery)
    requires s.connected >= 2 && s.bssid.Some? && s.eapolState == 1 && s.pending.Some?
    requires replay >= s.pending.value.replay && replay > s.eapolReplay
    requires m3 == Message3(KeyMic(cfg, s), s.pending.value.kck, s.pending.value.kek, cfg.keyLength, replay,
                            s.pending.value.anonce, rsc, keys)
    requires AcceptableKeys(cfg, s, keys, rsc)
    ensures Committed(s.pending.value, replay, HandleEapolKey(cfg, s, m3, protected, random).s)
  {
    hide InstallGroupKeys, ValidM3, HandleEapolKey, KeyMic;
    M3IsTaken(cfg, s, m3, protected, random, replay, rsc, keys);
    AcceptableAreGranted(cfg, s, keys, rsc);
  }

  lemma {:induction false} M3IsTaken(cfg: Config, s: State, m3: EapolKey, protected: bool, random: Nonce, replay: nat,
                        rsc: nat, keys: Delivery)
    requires s.eapolState == 1 && s.pending.Some? && keys.gtk != NoGtk
    requires m3 == Message3(KeyMic(cfg, s), s.pending.value.kck, s.pending.value.kek, cfg.keyLength, replay,
                            s.pending.value.anonce, rsc, keys)
    ensures HandleEapolKey(cfg, s, m3, protected, random) == SendEapol4(cfg, s, m3, protected)
  {
    hide SendEapol4, SendEapol2, SendEapol2Retry, HandleGroupRekey, KeyMic;
    assert ValidM3(cfg, s, m3.body);
  }

  lemma {:induction false} AcceptableAreGranted(cfg: Config, s: State, keys: Delivery, rsc: nat)
    requires AcceptableKeys(cfg, s, keys, rsc)
    ensures var i := InstallGroupKeys(s, keys, rsc); i.Granted? && i.s.pending == s.pending
  {
  }

  // The candidate is the installed key and the handshake is done.
  predicate Committed(p: PendingPtk, replay: nat, t: State) {
    && t.connected == 4 && t.installed && t.eapolState == 2 && t.pending.None?
    && t.kck == p.kck && t.kek == p.kek && t.tk == p.tk
    && t.anonce == p.anonce && t.snonce == p.snonce
    && t.eapolReplay == replay
  }

  // ---- noise between message 1 and message 3 -----------------------------------------------------

  // An unauthenticated frame, how it arrives, and the SNonce drawn if it is answered.
  datatype Noise = Noise(frame: EapolKey, protected: bool, random: Nonce)

  function AfterNoise(cfg: Config, s: State, noise: seq<Noise>): State
    decreases |noise|
  {
    if noise == [] then s
    else AfterNoise(cfg, HandleEapolKey(cfg, s, noise[0].frame, noise[0].protected, noise[0].random).s, noise[1..])
  }

  // Every frame is unauthenticated in the state it finds, and its SNonce is neither of the two
  // nonces of the handshake it meets.
  predicate Unproven(cfg: Config, s: State, noise: seq<Noise>, anonce: Nonce, snonce: Nonce)
    decreases |noise|
  {
    noise == [] ||
    var n := noise[0];
    && Unauthenticated(cfg, s, n.frame) && n.random != anonce && n.random != snonce
    && Unproven(cfg, HandleEapolKey(cfg, s, n.frame, n.protected, n.random).s, noise[1..], anonce, snonce)
  }

  // The frames that are answered at all: message 1, past the PMF gate, with a fresh counter.
  predicate Answered(cfg: Config, s: State, n: Noise) {
    ValidM1(cfg, s, n.frame.body) && M1Fresh(s, n.frame.body) && !RefusedByPmf(s, n.frame.body, n.protected)
  }

  // The counter of the candidate for `anonce` after the noise, or None once a frame replaces
  // that candidate: an answered message 1 with another ANonce or an older counter does.
  function SparedCounter(cfg: Config, s: State, noise: seq<Noise>, anonce: Nonce, replay: nat): Option<nat>
    decreases |noise|
  {
    if noise == [] then Some(replay)
    else if !Answered(cfg, s, noise[0]) then SparedCounter(cfg, s, noise[1..], anonce, replay)
    else if noise[0].frame.body.nonce == anonce && noise[0].frame.body.replay >= replay then
      SparedCounter(cfg, s, noise[1..], anonce, noise[0].frame.body.replay)
    else None
  }

  // The states that noise can lead to from s: it changes the candidate and spends numbers.
  predicate Awaiting(s: State, t: State) {
    && t == s.(pending := t.pending, clientPn := t.clientPn)
    && t.eapolState == 1 && t.pending.Some? && t.bssid.Some? && t.connected >= 2
  }

  lemma {:induction false} NoiseStep(cfg: Config, s: State, t: State, n: Noise)
    requires Awaiting(s, t) && Unauthenticated(cfg, t, n.frame) && t.pending.value.replay > s.eapolReplay
    ensures var u := HandleEapolKey(cfg, t, n.frame, n.protected, n.random).s;
            var b, p := n.frame.body, t.pending.value;
            && Awaiting(s, u)
            && u.pending.value ==
               if !Answered(cfg, s, n) then p
               else Candidate(cfg, s, b.nonce, if b.nonce == p.anonce && b.replay >= p.replay then p.snonce else n.random, b.replay)
  {
    hide SendEapol2, SendEapol4, HandleGroupRekey, ValidM1, ValidM3, ValidGroupM1, Unauthenticated, DerivePtk, KeyMic;
    UnauthenticatedTakesNothing(cfg, t, n.frame, n.protected);
    SendEapol2Changes(cfg, t, n.frame.body, n.protected, n.random);
    SendEapol2Changes(cfg, t, n.frame.body, n.protected, t.pending.value.snonce);
    SameClassification(cfg, s, t, n.frame.body, n.random);
    SameClassification(cfg, s, t, n.frame.body, t.pending.value.snonce);
  }

  lemma {:induction false} SameClassification(cfg: Config, s: State, t: State, b: Body, snonce: Nonce)
    requires Awaiting(s, t)
    ensures ValidM1(cfg, t, b) == ValidM1(cfg, s, b)
    ensures ValidM1(cfg, t, b) ==> b.info.pairwise && !ValidM3(cfg, t, b)
    ensures Candidate(cfg, t, b.nonce, snonce, b.replay) == Candidate(cfg, s, b.nonce, snonce, b.replay)
  {
  }

  // What the noise leaves of a candidate with these nonces: the candidate itself under its
  // last counter, or another one with another SNonce.
  predicate Outcome(cfg: Config, s: State, t: State, anonce: Nonce, snonce: Nonce, spared: Option<nat>) {
    && Awaiting(s, t) && t.pending.value.replay > s.eapolReplay
    && (if spared.Some? then t.pending.value == Candidate(cfg, s, anonce, snonce, spared.value)
        else
          var p := t.pending.value;
          p.snonce != snonce && p.snonce != anonce && p == Candidate(cfg, s, p.anonce, p.snonce, p.replay))
  }

  lemma {:induction false} LostStaysLost(cfg: Config, s: State, t: State, noise: seq<Noise>, anonce: Nonce, snonce: Nonce)
    requires Outcome(cfg, s, t, anonce, snonce, None) && Unproven(cfg, t, noise, anonce, snonce)
    ensures Outcome(cfg, s, AfterNoise(cfg, t, noise), anonce, snonce, None)
    decreases |noise|
  {
    if noise != [] {
      var u := HandleEapolKey(cfg, t, noise[0].frame, noise[0].protected, noise[0].random).s;
      NoiseStep(cfg, s, t, noise[0]);
      hide HandleEapolKey, Unauthenticated, DerivePtk, ValidM1;
      assert Outcome(cfg, s, u, anonce, snonce, None);
      LostStaysLost(cfg, s, u, noise[1..], anonce, snonce);
    }
  }

  lemma {:induction false} NoiseOutcome(cfg: Config, s: State, t: State, noise: seq<Noise>, anonce: Nonce, snonce: Nonce, replay: nat)
    requires Outcome(cfg, s, t, anonce, snonce, Some(replay)) && Unproven(cfg, t, noise, anonce, snonce)
    ensures Outcome(cfg, s, AfterNoise(cfg, t, noise), anonce, snonce, SparedCounter(cfg, s, noise, anonce, replay))
    decreases |noise|
  {
    if noise != [] {
      var n := noise[0];
      var u := HandleEapolKey(cfg, t, n.frame, n.protected, n.random).s;
      NoiseStep(cfg, s, t, n);
      hide HandleEapolKey, Unauthenticated, DerivePtk, ValidM1;
      if !Answered(cfg, s, n) {
        NoiseOutcome(cfg, s, u, noise[1..], anonce, snonce, replay);
      } else if n.frame.body.nonce == anonce && n.frame.body.replay >= replay {
        NoiseOutcome(cfg, s, u, noise[1..], anonce, snonce, n.frame.body.replay);
      } else {
        assert Outcome(cfg, s, u, anonce, snonce, None);
        LostStaysLost(cfg, s, u, noise[1..], anonce, snonce);
      }
    }
  }

  // ---- exactly when message 3 is committed -----------------------------------------------------------

  // The message 3 of the handshake with these nonces.
  function ThirdMessage(cfg: Config, s: State, anonce: Nonce, snonce: Nonce, replay: nat, rsc: nat, keys: Delivery): EapolKey {
    var ptk := DerivePtk(cfg, s, anonce, snonce);
    Message3(KeyMic(cfg, s), Kck(ptk), Kek(ptk), cfg.keyLength, replay, anonce, rsc, keys)
  }

  lemma {:induction false} OtherNoncesOtherKey(cfg: Config, s: State, a: Nonce, x: Nonce, anonce: Nonce, snonce: Nonce)
    requires x != snonce && x != anonce
    ensures DerivePtk(cfg, s, a, x) != DerivePtk(cfg, s, anonce, snonce)
  {
  }

  // A lost candidate or one whose counter has been raised past message 3 does not take it.
  lemma {:induction false} M3IsDropped(cfg: Config, s: State, t: State, anonce: Nonce, snonce: Nonce, spared: Option<nat>,
                        replay: nat, rsc: nat, keys: Delivery, protected: bool, random: Nonce)
    requires Outcome(cfg, s, t, anonce, snonce, spared) && (spared.Some? ==> replay < spared.value)
    ensures HandleEapolKey(cfg, t, ThirdMessage(cfg, s, anonce, snonce, replay, rsc, keys), protected, random) == Step(t, [])
  {
    var m3 := ThirdMessage(cfg, s, anonce, snonce, replay, rsc, keys);
    if spared.None? {
      OtherNoncesOtherKey(cfg, s, t.pending.value.anonce, t.pending.value.snonce, anonce, snonce);
      assert m3.mic.kck != t.pending.value.kck;
    }
    assert TakeM3(cfg, t, m3).None?;
    hide TakeM3, SendEapol2, SendEapol2Retry, HandleGroupRekey, DerivePtk, KeyMic;
  }

  lemma {:induction false} M3IsCommitted(cfg: Config, s: State, t: State, anonce: Nonce, snonce: Nonce, counter: nat,
                        replay: nat, rsc: nat, keys: Delivery, protected: bool, random: Nonce)
    requires Outcome(cfg, s, t, anonce, snonce, Some(counter)) && counter <= replay && AcceptableKeys(cfg, s, keys, rsc)
    ensures Committed(Candidate(cfg, s, anonce, snonce, counter), replay,
                      HandleEapolKey(cfg, t, ThirdMessage(cfg, s, anonce, snonce, replay, rsc, keys), protected, random).s)
  {
    hide HandleEapolKey, DerivePtk;
    HonestM3Commits(cfg, t, ThirdMessage(cfg, s, anonce, snonce, replay, rsc, keys), protected, random, replay, rsc, keys);
  }

  // From every associated state, with whatever candidate forged frames left behind, an honest
  // message 1 pends; then, after any unauthenticated frames, message 1 among them, its
  // message 3 is committed if and only if no frame replaced the candidate or raised its
  // counter past message 3. Otherwise message 3 changes nothing.
  lemma {:induction false} HonestHandshakeCommitsIff(
    cfg: Config, s: State, m1: EapolKey, protected1: bool, random: Nonce, noise: seq<Noise>,
    replay3: nat, rsc: nat, keys: Delivery, protected3: bool, random3: Nonce)
    requires Shape(s) && s.connected >= 2
    requires HonestM1(cfg, s, m1) && !RefusedByPmf(s, m1.body, protected1)
    requires AcceptableKeys(cfg, s, keys, rsc)
    requires var t := HandleEapolKey(cfg, s, m1, protected1, random).s;
             t.pending.Some? ==> Unproven(cfg, t, noise, m1.body.nonce, t.pending.value.snonce)
    ensures var t := HandleEapolKey(cfg, s, m1, protected1, random).s;
            t.pending.Some?
            && (t.pending.value.snonce == random || (s.pending.Some? && t.pending.value.snonce == s.pending.value.snonce))
            && var p, spared := t.pending.value, SparedCounter(cfg, s, noise, m1.body.nonce, m1.body.replay);
               var m3 := ThirdMessage(cfg, s, m1.body.nonce, p.snonce, replay3, rsc, keys);
               var u := AfterNoise(cfg, t, noise);
               var r := HandleEapolKey(cfg, u, m3, protected3, random3);
               && (Committed(p, replay3, r.s) <==> spared.Some? && spared.value <= replay3)
               && (!Committed(p, replay3, r.s) ==> r == Step(u, []))
               && p.tk == Tk(DerivePtk(cfg, s, m1.body.nonce, p.snonce))
  {
    HonestM1Pends(cfg, s, m1, protected1, random);
    var t := HandleEapolKey(cfg, s, m1, protected1, random).s;
    var p := t.pending.value;
    var s1 := s.(eapolState := 1);
    SameSpared(cfg, s, s1, noise, m1.body.nonce, m1.body.replay);
    hide HandleEapolKey, DerivePtk, Unproven, SparedCounter, AfterNoise;
    SameDerivation(cfg, s, s1, m1.body.nonce, p.snonce, m1.body.replay);
    NoiseOutcome(cfg, s1, t, noise, m1.body.nonce, p.snonce, m1.body.replay);
    var spared := SparedCounter(cfg, s, noise, m1.body.nonce, m1.body.replay);
    var u := AfterNoise(cfg, t, noise);
    if spared.Some? && spared.value <= replay3 {
      M3IsCommitted(cfg, s1, u, m1.body.nonce, p.snonce, spared.value, replay3, rsc, keys, protected3, random3);
    } else {
      M3IsDropped(cfg, s1, u, m1.body.nonce, p.snonce, spared, replay3, rsc, keys, protected3, random3);
    }
  }

  lemma {:induction false} SameSpared(cfg: Config, s: State, t: State, noise: seq<Noise>, anonce: Nonce, replay: nat)
    requires t == s.(eapolState := t.eapolState)
    ensures SparedCounter(cfg, s, noise, anonce, replay) == SparedCounter(cfg, t, noise, anonce, replay)
    decreases |noise|
  {
    if noise != [] {
      SameSpared(cfg, s, t, noise[1..], anonce, replay);
      SameSpared(cfg, s, t, noise[1..], anonce, noise[0].frame.body.replay);
    }
  }

  lemma {:induction false} SameDerivation(cfg: Config, s: State, t: State, anonce: Nonce, snonce: Nonce, replay: nat)
    requires t == s.(eapolState := t.eapolState)
    ensures DerivePtk(cfg, s, anonce, snonce) == DerivePtk(cfg, t, anonce, snonce) && KeyMic(cfg, s) == KeyMic(cfg, t)
    ensures Candidate(cfg, s, anonce, snonce, replay) == Candidate(cfg, t, anonce, snonce, replay)
  {
  }

  // In every reachable associated state: noise that spares the candidate leaves the handshake
  // to be committed, with the PTK of that message 1 and the SNonce it was answered with.
  lemma {:induction false} HonestHandshakeCommits(
    cfg: Config, es: seq<Event>, m1: EapolKey, protected1: bool, random: Nonce, noise: seq<Noise>,
    replay3: nat, rsc: nat, keys: Delivery, protected3: bool, random3: Nonce)
    requires FreshRandom(es) && Run(cfg, es).s.connected >= 2
    requires HonestM1(cfg, Run(cfg, es).s, m1) && !RefusedByPmf(Run(cfg, es).s, m1.body, protected1)
    requires AcceptableKeys(cfg, Run(cfg, es).s, keys, rsc)
    requires var s := Run(cfg, es).s;
             var t := HandleEapolKey(cfg, s, m1, protected1, random).s;
             t.pending.Some? ==> Unproven(cfg, t, noise, m1.body.nonce, t.pending.value.snonce)
    requires var spared := SparedCounter(cfg, Run(cfg, es).s, noise, m1.body.nonce, m1.body.replay);
             spared.Some? && spared.value <= replay3
    ensures var s := Run(cfg, es).s;
            var t := HandleEapolKey(cfg, s, m1, protected1, random).s;
            t.pending.Some?
            && var p := t.pending.value;
               var m3 := ThirdMessage(cfg, s, m1.body.nonce, p.snonce, replay3, rsc, keys);
               && Committed(p, replay3, HandleEapolKey(cfg, AfterNoise(cfg, t, noise), m3, protected3, random3).s)
               && p.tk == Tk(DerivePtk(cfg, s, m1.body.nonce, p.snonce))
  {
    RunKeeps(cfg, es);
    var s := Run(cfg, es).s;
    InvFacts(s, Run(cfg, es).out, NoncesSeen(es));
    hide *;
    HonestHandshakeCommitsIff(cfg, s, m1, protected1, random, noise, replay3, rsc, keys, protected3, random3);
  }

  // ---- a forged message 1 costs the handshake in flight, and only that one -------------------------

  // A message 1 that anyone can build.
  function ForgedM1(cfg: Config, s: State, nonce: Nonce, replay: nat): EapolKey {
    Message1(Version(KeyMic(cfg, s)), cfg.keyLength, replay, nonce, Empty)
  }

  lemma {:induction false} ForgedM1IsAnswered(cfg: Config, s: State, n: Noise, nonce: Nonce, replay: nat)
    requires n.frame == ForgedM1(cfg, s, nonce, replay) && nonce != NO_NONCE && replay > s.eapolReplay
    requires n.protected || !s.installed || s.saePmk.None?
    ensures Answered(cfg, s, n)
    ensures forall t: State :: Unauthenticated(cfg, t, n.frame)
  {
  }

  // Between message 1 and message 3 it breaks the exchange: message 3 is dropped.
  lemma {:induction false} ForgedM1Breaks(
    cfg: Config, s: State, m1: EapolKey, protected1: bool, random: Nonce, n: Noise, nonce: Nonce, replay: nat,
    replay3: nat, rsc: nat, keys: Delivery, protected3: bool, random3: Nonce)
    requires Shape(s) && s.connected >= 2
    requires HonestM1(cfg, s, m1) && !RefusedByPmf(s, m1.body, protected1)
    requires AcceptableKeys(cfg, s, keys, rsc) && replay3 >= m1.body.replay
    requires n.frame == ForgedM1(cfg, s, nonce, replay) && nonce != NO_NONCE && nonce != m1.body.nonce && replay > s.eapolReplay
    requires n.protected || !s.installed || s.saePmk.None?
    requires n.random != m1.body.nonce && n.random != random
    requires s.pending.Some? ==> n.random != s.pending.value.snonce
    ensures var t := HandleEapolKey(cfg, s, m1, protected1, random).s;
            var u := HandleEapolKey(cfg, t, n.frame, n.protected, n.random).s;
            t.pending.Some?
            && var p := t.pending.value;
               var m3 := ThirdMessage(cfg, s, m1.body.nonce, p.snonce, replay3, rsc, keys);
               HandleEapolKey(cfg, u, m3, protected3, random3) == Step(u, [])
               && !Committed(p, replay3, u)
               && Shape(u) && u.connected == s.connected && u.eapolReplay == s.eapolReplay && u.saePmk == s.saePmk
  {
    HonestM1Pends(cfg, s, m1, protected1, random);
    var t := HandleEapolKey(cfg, s, m1, protected1, random).s;
    var snonce := t.pending.value.snonce;
    ForgedM1IsAnswered(cfg, s, n, nonce, replay);
    NoiseStep(cfg, s.(eapolState := 1), t, n);
    assert AfterNoise(cfg, t, [n]) == HandleEapolKey(cfg, t, n.frame, n.protected, n.random).s;
    assert SparedCounter(cfg, s, [n], m1.body.nonce, m1.body.replay).None?;
    assert Unproven(cfg, t, [n], m1.body.nonce, snonce);
    hide HandleEapolKey, Unproven, AfterNoise, SparedCounter, DerivePtk, ForgedM1, Answered, HonestM1, RefusedByPmf;
    HonestHandshakeCommitsIff(cfg, s, m1, protected1, random, [n], replay3, rsc, keys, protected3, random3);
  }

  // And the next honest handshake is committed: from the state that the broken one leaves, as
  // from every associated one, message 1 and its message 3 in turn complete it.
  lemma {:induction false} NextHandshakeCommits(
    cfg: Config, u: State, m1: EapolKey, protected1: bool, random: Nonce,
    replay3: nat, rsc: nat, keys: Delivery, protected3: bool, random3: Nonce)
    requires Shape(u) && u.connected >= 2
    requires HonestM1(cfg, u, m1) && !RefusedByPmf(u, m1.body, protected1)
    requires AcceptableKeys(cfg, u, keys, rsc) && replay3 >= m1.body.replay
    ensures var t := HandleEapolKey(cfg, u, m1, protected1, random).s;
            t.pending.Some?
            && var m3 := ThirdMessage(cfg, u, m1.body.nonce, t.pending.value.snonce, replay3, rsc, keys);
               Committed(t.pending.value, replay3, HandleEapolKey(cfg, t, m3, protected3, random3).s)
  {
    var t := HandleEapolKey(cfg, u, m1, protected1, random).s;
    assert AfterNoise(cfg, t, []) == t;
    assert SparedCounter(cfg, u, [], m1.body.nonce, m1.body.replay) == Some(m1.body.replay);
    assert t.pending.Some? ==> Unproven(cfg, t, [], m1.body.nonce, t.pending.value.snonce);
    hide *;
    HonestHandshakeCommitsIff(cfg, u, m1, protected1, random, [], replay3, rsc, keys, protected3, random3);
  }
}
