/**
 Retransmission of message 1, message 3 and group-key message 1: a heap of deadlines, each
 stamped with the generation of the arming it belongs to, drained by every tick.

 Times are in milliseconds.
 */
module EapolTimers {
  import opened Common

  const FIRST_TIMEOUT: nat := 100
  const TIMEOUT: nat := 1000
  const MAX_RETRIES: nat := 3

  datatype Timer = Timer(pending: bool, tx: nat, retries: nat, acked: bool, generation: nat, awaitingM4: bool, groupRekeying: bool)

  datatype Entry = Entry(deadline: nat, generation: nat, mac: Mac)

  // The heap as the order in which its entries are popped.
  datatype State = State(stations: map<Mac, Timer>, heap: seq<Entry>)

  datatype Out = Retransmitted(mac: Mac) | DeauthSent(mac: Mac)

  function Timeout(t: Timer): nat {
    if t.retries == 0 && !t.acked then FIRST_TIMEOUT else TIMEOUT
  }

  function Due(t: Timer): nat {
    t.tx + Timeout(t)
  }

  // ---- the heap ------------------------------------------------------------------------------

  predicate Before(a: Entry, b: Entry) {
    a.deadline < b.deadline
    || (a.deadline == b.deadline
        && (a.generation < b.generation || (a.generation == b.generation && a.mac <= b.mac)))
  }

  predicate Ordered(h: seq<Entry>) {
    forall i, j :: 0 <= i < j < |h| ==> Before(h[i], h[j])
  }

  function Push(h: seq<Entry>, e: Entry): seq<Entry> {
    if h == [] || Before(e, h[0]) then [e] + h else [h[0]] + Push(h[1..], e)
  }

  lemma {:induction false} PushOrdered(h: seq<Entry>, e: Entry)
    requires Ordered(h)
    ensures Ordered(Push(h, e)) && forall x :: x in Push(h, e) <==> x in h || x == e
  {
    if h != [] && !Before(e, h[0]) {
      PushOrdered(h[1..], e);
      assert forall x :: x in h <==> x == h[0] || x in h[1..];
      var p := Push(h[1..], e);
      forall j | 0 <= j < |p| ensures Before(h[0], p[j]) {
        assert p[j] in p;
      }
    } else {
      assert forall x :: x in [e] + h <==> x == e || x in h;
    }
  }

  // How many entries are due.
  function DueCount(h: seq<Entry>, now: nat): nat {
    if h == [] then 0 else (if h[0].deadline <= now then 1 else 0) + DueCount(h[1..], now)
  }

  lemma {:induction false} PushLater(h: seq<Entry>, e: Entry, now: nat)
    requires e.deadline > now
    ensures DueCount(Push(h, e), now) == DueCount(h, now)
  {
    if h == [] || Before(e, h[0]) {
      assert ([e] + h)[1..] == h;
    } else {
      PushLater(h[1..], e, now);
      assert ([h[0]] + Push(h[1..], e))[1..] == Push(h[1..], e);
    }
  }

  // ---- arming ----------------------------------------------------------------------------------------

  function Arm(s: State, m: Mac): State {
    if m !in s.stations then s else
      var t := s.stations[m].(generation := s.stations[m].generation + 1);
      State(s.stations[m := t], if t.pending then Push(s.heap, Entry(Due(t), t.generation, m)) else s.heap)
  }

  function Update(s: State, m: Mac, t: Timer): State {
    s.(stations := s.stations[m := t])
  }

  // A message is sent and awaits its answer.
  function Send(s: State, m: Mac, now: nat, awaitingM4: bool, groupRekeying: bool): State {
    if m !in s.stations then s else
      Arm(Update(s, m, s.stations[m].(pending := true, tx := now, retries := 0, acked := false,
                                     awaitingM4 := awaitingM4, groupRekeying := groupRekeying)), m)
  }

  // The answer arrived, or the handshake was reset: nothing to retransmit.
  function Settle(s: State, m: Mac, awaitingM4: bool, groupRekeying: bool): State {
    if m !in s.stations then s
    else Update(s, m, s.stations[m].(pending := false, awaitingM4 := awaitingM4, groupRekeying := groupRekeying))
  }

  function NoteAcked(s: State, m: Mac, now: nat): State {
    if m !in s.stations then s else
      var t := s.stations[m];
      Arm(Update(s, m, if !t.awaitingM4 && !t.groupRekeying then t.(acked := true, tx := now) else t), m)
  }

  function NoteTransmitted(s: State, m: Mac, now: nat): State {
    if m !in s.stations then s else
      Arm(Update(s, m, s.stations[m].(tx := now, retries := 0, acked := false)), m)
  }

  function Cancel(s: State, m: Mac): State {
    if m !in s.stations then s else
      var t := s.stations[m];
      Update(s, m, t.(pending := false, awaitingM4 := false, retries := 0, acked := false, generation := t.generation + 1))
  }

  function Join(s: State, m: Mac, now: nat): State {
    if m in s.stations then s else Update(s, m, Timer(false, now, 0, false, 0, false, false))
  }

  // The heap entries of removed stations stay behind.
  function Leave(s: State, ms: set<Mac>): State {
    s.(stations := s.stations - ms)
  }

  // ---- the tick -------------------------------------------------------------------------------------------

  // One due entry is popped and acted on.
  function Fire(s: State, now: nat): (State, seq<Out>)
    requires s.heap != []
  {
    var e, rest := s.heap[0], s.(heap := s.heap[1..]);
    if e.mac !in s.stations || s.stations[e.mac].generation != e.generation || !s.stations[e.mac].pending then (rest, [])
    else
      var t := s.stations[e.mac];
      if t.retries >= MAX_RETRIES then (Leave(rest, {e.mac}), [DeauthSent(e.mac)])
      else
        var u := t.(tx := now, retries := t.retries + 1, acked := false, generation := t.generation + 1);
        (State(s.stations[e.mac := u], Push(rest.heap, Entry(now + TIMEOUT, u.generation, e.mac))), [Retransmitted(e.mac)])
  }

  lemma {:induction false} FireShrinks(s: State, now: nat)
    requires s.heap != [] && s.heap[0].deadline <= now
    ensures DueCount(Fire(s, now).0.heap, now) < DueCount(s.heap, now)
  {
    if Fire(s, now).1 != [] && Fire(s, now).1[0].Retransmitted? {
      var e := s.heap[0];
      PushLater(s.heap[1..], Entry(now + TIMEOUT, s.stations[e.mac].generation + 1, e.mac), now);
    }
  }

  // The loop terminates: what it pushes is not due yet.
  function Drain(s: State, now: nat): (State, seq<Out>)
    decreases DueCount(s.heap, now)
  {
    if s.heap == [] || s.heap[0].deadline > now then (s, []) else
      var f := Fire(s, now);
      FireShrinks(s, now);
      var r := Drain(f.0, now);
      (r.0, f.1 + r.1)
  }

  datatype Event =
    | Sends(mac: Mac, now: nat, awaitingM4: bool, groupRekeying: bool)
    | Settles(mac: Mac, awaitingM4: bool, groupRekeying: bool)
    | Acked(mac: Mac, now: nat)
    | Transmitted(mac: Mac, now: nat)
    | Cancels(mac: Mac)
    | Joins(mac: Mac, now: nat)
    | Leaves(macs: set<Mac>)
    | Tick(now: nat)

  function Handle(s: State, e: Event): (State, seq<Out>) {
    match e
    case Sends(m, now, awaitingM4, groupRekeying) => (Send(s, m, now, awaitingM4, groupRekeying), [])
    case Settles(m, awaitingM4, groupRekeying) => (Settle(s, m, awaitingM4, groupRekeying), [])
    case Acked(m, now) => (NoteAcked(s, m, now), [])
    case Transmitted(m, now) => (NoteTransmitted(s, m, now), [])
    case Cancels(m) => (Cancel(s, m), [])
    case Joins(m, now) => (Join(s, m, now), [])
    case Leaves(ms) => (Leave(s, ms), [])
    case Tick(now) => Drain(s, now)
  }

  function Run(s: State, es: seq<Event>): (State, seq<Out>) {
    if es == [] then (s, []) else
      var before := Run(s, es[..|es| - 1]);
      var h := Handle(before.0, es[|es| - 1]);
      (h.0, before.1 + h.1)
  }

  // ---- the invariant -----------------------------------------------------------------------------------------

  // Every armed station has an entry of its current generation at its deadline.
  ghost predicate Inv(s: State) {
    && Ordered(s.heap)
    && forall m :: m in s.stations ==>
         s.stations[m].retries <= MAX_RETRIES
         && (s.stations[m].pending ==> Entry(Due(s.stations[m]), s.stations[m].generation, m) in s.heap)
  }

  lemma {:induction false} ArmKeeps(s: State, m: Mac)
    requires Ordered(s.heap)
    requires forall n :: n in s.stations ==>
               s.stations[n].retries <= MAX_RETRIES
               && (n != m && s.stations[n].pending ==> Entry(Due(s.stations[n]), s.stations[n].generation, n) in s.heap)
    ensures Inv(Arm(s, m))
  {
    if m in s.stations {
      var t := s.stations[m].(generation := s.stations[m].generation + 1);
      PushOrdered(s.heap, Entry(Due(t), t.generation, m));
    }
  }

  lemma {:induction false} FireKeeps(s: State, now: nat)
    requires Inv(s) && s.heap != []
    ensures Inv(Fire(s, now).0)
  {
    var e := s.heap[0];
    assert forall x :: x in s.heap <==> x == e || x in s.heap[1..];
    var f := Fire(s, now);
    if f.1 != [] && f.1[0].Retransmitted? {
      PushOrdered(s.heap[1..], Entry(now + TIMEOUT, s.stations[e.mac].generation + 1, e.mac));
    }
  }

  lemma {:induction false} DrainKeeps(s: State, now: nat)
    requires Inv(s)
    ensures Inv(Drain(s, now).0)
    ensures forall e :: e in Drain(s, now).0.heap ==> e.deadline > now
    decreases DueCount(s.heap, now)
  {
    if s.heap != [] && s.heap[0].deadline <= now {
      FireShrinks(s, now);
      FireKeeps(s, now);
      hide Fire, Inv;
      DrainKeeps(Fire(s, now).0, now);
    }
  }

  lemma {:induction false} HandleKeeps(s: State, e: Event)
    requires Inv(s)
    ensures Inv(Handle(s, e).0)
  {
    match e {
      case Sends(m, now, a, g) =>
        if m in s.stations {
          ArmKeeps(Update(s, m, s.stations[m].(pending := true, tx := now, retries := 0, acked := false,
                                              awaitingM4 := a, groupRekeying := g)), m);
        }
      case Acked(m, now) =>
        if m in s.stations {
          var t := s.stations[m];
          ArmKeeps(Update(s, m, if !t.awaitingM4 && !t.groupRekeying then t.(acked := true, tx := now) else t), m);
        }
      case Transmitted(m, now) =>
        if m in s.stations {
          ArmKeeps(Update(s, m, s.stations[m].(tx := now, retries := 0, acked := false)), m);
        }
      case Tick(now) => DrainKeeps(s, now);
      case _ =>
    }
  }

  // In every reachable state each station awaiting an answer has its deadline in the heap, and
  // none has been retransmitted to more than the limit.
  lemma {:induction false} RunKeeps(es: seq<Event>)
    ensures Inv(Run(State(map[], []), es).0)
  {
    if es != [] {
      RunKeeps(es[..|es| - 1]);
      hide Inv, Handle;
      HandleKeeps(Run(State(map[], []), es[..|es| - 1]).0, es[|es| - 1]);
    }
  }

  // No tick leaves a deadline behind it: whoever still waits is due later.
  lemma {:induction false} TickLeavesNoneDue(s: State, now: nat, m: Mac)
    requires Inv(s)
    ensures var t := Drain(s, now).0; m in t.stations && t.stations[m].pending ==> now < Due(t.stations[m])
  {
    DrainKeeps(s, now);
  }

  // ---- a silent station ---------------------------------------------------------------------------------------

  function Retransmissions(out: seq<Out>, m: Mac): nat {
    if out == [] then 0 else (if out[0] == Retransmitted(m) then 1 else 0) + Retransmissions(out[1..], m)
  }

  function Deauths(out: seq<Out>, m: Mac): nat {
    if out == [] then 0 else (if out[0] == DeauthSent(m) then 1 else 0) + Deauths(out[1..], m)
  }

  lemma {:induction false} CountsAppend(a: seq<Out>, b: seq<Out>, m: Mac)
    ensures Retransmissions(a + b, m) == Retransmissions(a, m) + Retransmissions(b, m)
    ensures Deauths(a + b, m) == Deauths(a, m) + Deauths(b, m)
  {
    if a == [] {
      assert a + b == b;
    } else {
      assert (a + b)[1..] == a[1..] + b;
      CountsAppend(a[1..], b, m);
    }
  }

  // Ticks, and anything about other stations.
  predicate SilentFor(m: Mac, e: Event) {
    e.Tick? || (if e.Leaves? then m !in e.macs else e.mac != m)
  }

  // Every retransmission to m is one of its retries; it is removed with one deauthentication
  // after the last of them and not before.
  predicate Accounted(s: State, t: State, out: seq<Out>, m: Mac)
    requires m in s.stations
  {
    if m in t.stations then
      && t.stations[m].pending && Deauths(out, m) == 0
      && t.stations[m].retries == s.stations[m].retries + Retransmissions(out, m)
      && (Retransmissions(out, m) == 0 ==> t.stations[m] == s.stations[m])
    else
      Deauths(out, m) == 1 && Retransmissions(out, m) + s.stations[m].retries == MAX_RETRIES
  }

  predicate NothingAbout(m: Mac, t: State, out: seq<Out>) {
    m !in t.stations && Retransmissions(out, m) == 0 && Deauths(out, m) == 0
  }

  lemma {:induction false} FireAccounted(s: State, now: nat, m: Mac)
    requires Inv(s) && s.heap != []
    ensures var f := Fire(s, now);
            if m in s.stations then s.stations[m].pending ==> Accounted(s, f.0, f.1, m) else NothingAbout(m, f.0, f.1)
  {
    var f := Fire(s, now);
    assert |f.1| <= 1 && (f.1 != [] ==> f.1[1..] == []);
  }

  // Accounting adds up over two stretches.
  lemma {:induction false} AccountedThen(s: State, u: State, t: State, a: seq<Out>, b: seq<Out>, m: Mac)
    requires m in s.stations && Accounted(s, u, a, m)
    requires if m in u.stations then Accounted(u, t, b, m) else NothingAbout(m, t, b)
    ensures Accounted(s, t, a + b, m)
  {
    CountsAppend(a, b, m);
  }

  lemma {:induction false} NothingThen(m: Mac, t: State, a: seq<Out>, b: seq<Out>)
    requires Retransmissions(a, m) == 0 && Deauths(a, m) == 0 && NothingAbout(m, t, b)
    ensures NothingAbout(m, t, a + b)
  {
    CountsAppend(a, b, m);
  }

  lemma {:induction false} DrainAccounted(s: State, now: nat, m: Mac)
    requires Inv(s)
    ensures var r := Drain(s, now);
            if m in s.stations then s.stations[m].pending ==> Accounted(s, r.0, r.1, m) else NothingAbout(m, r.0, r.1)
    decreases DueCount(s.heap, now)
  {
    if s.heap != [] && s.heap[0].deadline <= now {
      var f := Fire(s, now);
      FireShrinks(s, now);
      FireKeeps(s, now);
      FireAccounted(s, now, m);
      hide Fire, Inv;
      DrainAccounted(f.0, now, m);
      var r := Drain(f.0, now);
      if m !in s.stations {
        NothingThen(m, r.0, f.1, r.1);
      } else if s.stations[m].pending {
        AccountedThen(s, f.0, r.0, f.1, r.1, m);
      }
    }
  }

  lemma {:induction false} HandleAccounted(s: State, e: Event, m: Mac)
    requires Inv(s) && SilentFor(m, e)
    ensures var r := Handle(s, e);
            if m in s.stations then s.stations[m].pending ==> Accounted(s, r.0, r.1, m) else NothingAbout(m, r.0, r.1)
  {
    if e.Tick? {
      DrainAccounted(s, e.now, m);
    }
  }

  // A station that stays silent and is not re-armed is retransmitted to at most its remaining
  // retries; if it is removed, then after exactly that many and with one deauthentication.
  lemma {:induction false} SilentIsAccounted(s: State, es: seq<Event>, m: Mac)
    requires Inv(s) && m in s.stations && s.stations[m].pending
    requires forall e :: e in es ==> SilentFor(m, e)
    ensures var r := Run(s, es);
            && Inv(r.0) && Accounted(s, r.0, r.1, m)
            && Retransmissions(r.1, m) <= MAX_RETRIES - s.stations[m].retries
  {
    if es != [] {
      var front, e := es[..|es| - 1], es[|es| - 1];
      assert forall x :: x in front ==> x in es;
      SilentIsAccounted(s, front, m);
      var b := Run(s, front);
      HandleKeeps(b.0, e);
      HandleAccounted(b.0, e, m);
      hide Handle;
      AccountedThen(s, b.0, Handle(b.0, e).0, b.1, Handle(b.0, e).1, m);
    }
  }

  // A tick at or after its deadline retransmits to a waiting station or removes it.
  lemma {:induction false} LateTickActs(s: State, now: nat, m: Mac)
    requires Inv(s) && m in s.stations && s.stations[m].pending && Due(s.stations[m]) <= now
    ensures var t := Drain(s, now).0;
            m in t.stations ==> t.stations[m].pending && t.stations[m].retries > s.stations[m].retries
                                && Due(t.stations[m]) == now + TIMEOUT
  {
    DrainAccounted(s, now, m);
    TickLeavesNoneDue(s, now, m);
    DrainSetsDue(s, now, m);
    hide Drain;
  }

  // What a tick leaves of a timer: the timer as it was, or one armed anew for the same wait.
  predicate Rearmed(t: Timer, u: Timer, now: nat) {
    u == t || (Due(u) == now + TIMEOUT && u.awaitingM4 == t.awaitingM4 && u.groupRekeying == t.groupRekeying)
  }

  lemma {:induction false} DrainSetsDue(s: State, now: nat, m: Mac)
    requires Inv(s) && m in s.stations
    ensures var t := Drain(s, now).0; m in t.stations ==> Rearmed(s.stations[m], t.stations[m], now)
    decreases DueCount(s.heap, now)
  {
    if s.heap != [] && s.heap[0].deadline <= now {
      var f := Fire(s, now);
      FireShrinks(s, now);
      FireKeeps(s, now);
      DrainAccounted(f.0, now, m);
      if m in f.0.stations {
        DrainSetsDue(f.0, now, m);
      }
    }
  }

  // ---- a station that never answers --------------------------------------------------------------------------

  // Nothing arms m anew and nothing ends its wait with an answer: ticks, link acknowledgements,
  // its removal, and anything about other stations.
  predicate Unanswered(m: Mac, e: Event) {
    e.Tick? || e.Leaves? || e.Acked? || e.mac != m
  }

  predicate Removes(m: Mac, e: Event) {
    e.Leaves? && m in e.macs
  }

  // Past message 1 an acknowledgement does not restart the wait.
  predicate PastM1(t: Timer) {
    t.awaitingM4 || t.groupRekeying
  }

  // The events whose time matters to a wait.
  predicate Clocked(m: Mac, past: bool, e: Event) {
    e.Tick? || (e.Acked? && e.mac == m && !past)
  }

  function Latest(m: Mac, past: bool, from: nat, es: seq<Event>): nat {
    if es == [] then from
    else if Clocked(m, past, es[|es| - 1]) then es[|es| - 1].now
    else Latest(m, past, from, es[..|es| - 1])
  }

  // The clock does not go back.
  predicate Forward(m: Mac, past: bool, from: nat, es: seq<Event>) {
    es == [] ||
    (Forward(m, past, from, es[..|es| - 1])
     && (Clocked(m, past, es[|es| - 1]) ==> Latest(m, past, from, es[..|es| - 1]) <= es[|es| - 1].now))
  }

  // How many timeouts a wait that is due at `due` has seen, and when the next one is due. A tick
  // that finds it due begins the next; an acknowledged message 1 is given a full timeout.
  function Waited(m: Mac, past: bool, due: nat, es: seq<Event>): (nat, nat) {
    if es == [] then (0, due) else
      var before, e := Waited(m, past, due, es[..|es| - 1]), es[|es| - 1];
      if !Clocked(m, past, e) then before
      else if e.Acked? then (before.0, if before.1 < e.now + TIMEOUT then e.now + TIMEOUT else before.1)
      else if before.1 <= e.now then (before.0 + 1, e.now + TIMEOUT)
      else before
  }

  // Waiting with `low` retransmissions and due by `due`, or one ahead of that; or gone.
  predicate Waits(s: State, m: Mac, past: bool, low: nat, due: nat, latest: nat) {
    m in s.stations ==>
      var t := s.stations[m];
      && t.pending && PastM1(t) == past
      && ((t.retries >= low && Due(t) <= due) || (t.retries >= low + 1 && Due(t) <= latest + TIMEOUT))
  }

  lemma {:induction false} TickWaits(s: State, now: nat, m: Mac, past: bool, low: nat, due: nat, latest: nat)
    requires Inv(s) && Waits(s, m, past, low, due, latest) && latest <= now
    ensures var t := Drain(s, now).0;
            if due <= now then Waits(t, m, past, low + 1, now + TIMEOUT, now) else Waits(t, m, past, low, due, now)
  {
    hide Drain, Inv, Fire;
    DrainAccounted(s, now, m);
    if m in s.stations {
      DrainSetsDue(s, now, m);
      TickLeavesNoneDue(s, now, m);
      if Due(s.stations[m]) <= now {
        LateTickActs(s, now, m);
      }
    }
  }

  lemma {:induction false} AckWaits(s: State, now: nat, m: Mac, past: bool, low: nat, due: nat, latest: nat)
    requires Waits(s, m, past, low, due, latest) && (past || latest <= now)
    ensures var t := NoteAcked(s, m, now);
            if past then Waits(t, m, past, low, due, latest)
            else Waits(t, m, past, low, if due < now + TIMEOUT then now + TIMEOUT else due, now)
  {
    hide Push;
  }

  // A step that no answer makes.
  lemma {:induction false} StepWaits(s: State, e: Event, m: Mac, past: bool, low: nat, due: nat, latest: nat)
    requires Inv(s) && Waits(s, m, past, low, due, latest) && Unanswered(m, e)
    requires Clocked(m, past, e) ==> latest <= e.now
    ensures var t := Handle(s, e).0;
            if !Clocked(m, past, e) then Waits(t, m, past, low, due, latest)
            else if e.Acked? then Waits(t, m, past, low, if due < e.now + TIMEOUT then e.now + TIMEOUT else due, e.now)
            else if due <= e.now then Waits(t, m, past, low + 1, e.now + TIMEOUT, e.now)
            else Waits(t, m, past, low, due, e.now)
  {
    hide Drain, Push, Inv, Waits, NoteAcked;
    if e.Tick? {
      TickWaits(s, e.now, m, past, low, due, latest);
    } else if e.Acked? && e.mac == m {
      AckWaits(s, e.now, m, past, low, due, latest);
    } else {
      OthersWait(s, e, m, past, low, due, latest);
    }
  }

  lemma {:induction false} OthersWait(s: State, e: Event, m: Mac, past: bool, low: nat, due: nat, latest: nat)
    requires Waits(s, m, past, low, due, latest) && Unanswered(m, e) && !e.Tick? && !(e.Acked? && e.mac == m)
    ensures Waits(Handle(s, e).0, m, past, low, due, latest)
  {
    hide Push;
  }

  // The retransmissions and deauthentications that its retries account for.
  predicate Counted(retries: nat, s: State, out: seq<Out>, m: Mac) {
    if m in s.stations then Deauths(out, m) == 0 && s.stations[m].retries == retries + Retransmissions(out, m)
    else Deauths(out, m) == 1 && Retransmissions(out, m) + retries == MAX_RETRIES
  }

  lemma {:induction false} StepCounted(s: State, e: Event, m: Mac, retries: nat, out: seq<Out>)
    requires Inv(s) && Counted(retries, s, out, m) && Unanswered(m, e) && !Removes(m, e)
    requires m in s.stations ==> s.stations[m].pending
    ensures Counted(retries, Handle(s, e).0, out + Handle(s, e).1, m)
  {
    hide Drain, Push, Inv;
    CountsAppend(out, Handle(s, e).1, m);
    if !(e.Acked? && e.mac == m) {
      HandleAccounted(s, e, m);
    }
  }

  // One more event of a run, as the definitions take it.
  lemma {:induction false} RunSnoc(s: State, es: seq<Event>)
    requires es != []
    ensures var b, e := Run(s, es[..|es| - 1]), es[|es| - 1];
            Run(s, es) == (Handle(b.0, e).0, b.1 + Handle(b.0, e).1)
  {
    hide Handle;
  }

  lemma {:induction false} WaitedSnoc(m: Mac, past: bool, due: nat, es: seq<Event>)
    requires es != []
    ensures var b, e := Waited(m, past, due, es[..|es| - 1]), es[|es| - 1];
            Waited(m, past, due, es) ==
              if !Clocked(m, past, e) then b
              else if e.Acked? then (b.0, if b.1 < e.now + TIMEOUT then e.now + TIMEOUT else b.1)
              else if b.1 <= e.now then (b.0 + 1, e.now + TIMEOUT)
              else b
  {
    hide Clocked;
  }

  lemma {:induction false} SilentWaits(s: State, es: seq<Event>, m: Mac)
    requires Inv(s) && m in s.stations && s.stations[m].pending
    requires forall e :: e in es ==> Unanswered(m, e)
    requires Forward(m, PastM1(s.stations[m]), 0, es)
    ensures var t, past := s.stations[m], PastM1(s.stations[m]);
            var r, w := Run(s, es), Waited(m, past, Due(t), es);
            Inv(r.0) && Waits(r.0, m, past, t.retries + w.0, w.1, Latest(m, past, 0, es))
  {
    if es != [] {
      hide Run, Waited, Inv, Handle, Waits, Unanswered, Clocked, Due;
      var front, e := es[..|es| - 1], es[|es| - 1];
      var t, past := s.stations[m], PastM1(s.stations[m]);
      assert forall x :: x in front ==> x in es;
      assert e in es;
      SilentWaits(s, front, m);
      var b, w := Run(s, front).0, Waited(m, past, Due(t), front);
      RunSnoc(s, es);
      WaitedSnoc(m, past, Due(t), es);
      HandleKeeps(b, e);
      StepWaits(b, e, m, past, t.retries + w.0, w.1, Latest(m, past, 0, front));
    }
  }

  lemma {:induction false} SilentCounted(s: State, es: seq<Event>, m: Mac)
    requires Inv(s) && m in s.stations && s.stations[m].pending
    requires forall e :: e in es ==> Unanswered(m, e) && !Removes(m, e)
    requires Forward(m, PastM1(s.stations[m]), 0, es)
    ensures Counted(s.stations[m].retries, Run(s, es).0, Run(s, es).1, m)
  {
    if es != [] {
      var front, e := es[..|es| - 1], es[|es| - 1];
      var t, past := s.stations[m], PastM1(s.stations[m]);
      assert forall x :: x in front ==> x in es;
      assert e in es;
      hide Run, Waited, Inv, Handle, Waits, Counted, Unanswered, Removes, Clocked, Due;
      RunSnoc(s, es);
      SilentCounted(s, front, m);
      SilentWaits(s, front, m);
      var b, w := Run(s, front), Waited(m, past, Due(t), front);
      WaitsPending(b.0, m, past, t.retries + w.0, w.1, Latest(m, past, 0, front));
      StepCounted(b.0, e, m, t.retries, b.1);
    }
  }

  lemma {:induction false} WaitsPending(s: State, m: Mac, past: bool, low: nat, due: nat, latest: nat)
    requires Waits(s, m, past, low, due, latest)
    ensures m in s.stations ==> s.stations[m].pending
  {
  }

  lemma {:induction false} TooManyIsGone(s: State, m: Mac, past: bool, low: nat, due: nat, latest: nat)
    requires Inv(s) && Waits(s, m, past, low, due, latest) && low > MAX_RETRIES
    ensures m !in s.stations
  {
  }

  // A station that never answers is gone once its timeouts outnumber its retries, whatever
  // happens to other stations, however often the timers are polled and whatever it
  // acknowledges. Unless it was removed otherwise, it was retransmitted to for each of its
  // remaining retries and then deauthenticated, once.
  lemma {:induction false} SilentIsDropped(s: State, es: seq<Event>, m: Mac)
    requires Inv(s) && m in s.stations && s.stations[m].pending
    requires forall e :: e in es ==> Unanswered(m, e)
    requires Forward(m, PastM1(s.stations[m]), 0, es)
    requires s.stations[m].retries + Waited(m, PastM1(s.stations[m]), Due(s.stations[m]), es).0 > MAX_RETRIES
    ensures m !in Run(s, es).0.stations
    ensures (forall e :: e in es ==> !Removes(m, e)) ==>
              var out := Run(s, es).1;
              Deauths(out, m) == 1 && Retransmissions(out, m) == MAX_RETRIES - s.stations[m].retries
  {
    SilentWaits(s, es, m);
    hide Run, Inv, Waited, Forward, Due, Unanswered, Removes;
    var t, past := s.stations[m], PastM1(s.stations[m]);
    var w := Waited(m, past, Due(t), es);
    TooManyIsGone(Run(s, es).0, m, past, t.retries + w.0, w.1, Latest(m, past, 0, es));
    if forall e :: e in es ==> !Removes(m, e) {
      SilentCounted(s, es, m);
    }
  }

  // The timers are polled from `from` on, at most `gap` apart.
  predicate Polled(m: Mac, past: bool, from: nat, gap: nat, es: seq<Event>) {
    es == [] ||
    (Polled(m, past, from, gap, es[..|es| - 1])
     && (es[|es| - 1].Tick? ==>
           var last := Latest(m, past, from, es[..|es| - 1]); last <= es[|es| - 1].now <= last + gap))
  }

  // Each timeout is noticed by the poll after it.
  lemma {:induction false} PolledWaits(m: Mac, past: bool, from: nat, gap: nat, due: nat, es: seq<Event>)
    requires from < due && Polled(m, past, from, gap, es)
    requires forall e :: e in es && Clocked(m, past, e) ==> e.Tick?
    ensures var w := Waited(m, past, due, es);
            Latest(m, past, from, es) < w.1 <= due + w.0 * (TIMEOUT + gap)
    ensures Forward(m, past, from, es)
  {
    if es != [] {
      var front, e := es[..|es| - 1], es[|es| - 1];
      assert forall x :: x in front ==> x in es;
      assert e in es;
      PolledWaits(m, past, from, gap, due, front);
      var n := Waited(m, past, due, front).0;
      assert (n + 1) * (TIMEOUT + gap) == n * (TIMEOUT + gap) + TIMEOUT + gap;
    }
  }

  lemma {:induction false} ForwardFrom(m: Mac, past: bool, from: nat, es: seq<Event>)
    requires Forward(m, past, from, es)
    ensures Forward(m, past, 0, es)
    ensures Latest(m, past, 0, es) <= Latest(m, past, from, es)
  {
    if es != [] {
      ForwardFrom(m, past, from, es[..|es| - 1]);
    }
  }

  // So with the timers polled at most `gap` apart, it is gone at the latest by the first poll
  // that comes its remaining retries after its deadline, each a timeout and a gap long.
  lemma {:induction false} SilentIsGoneBy(s: State, es: seq<Event>, m: Mac, from: nat, gap: nat)
    requires Inv(s) && m in s.stations && s.stations[m].pending && from < Due(s.stations[m])
    requires forall e :: e in es ==> Unanswered(m, e) && (e.Acked? && e.mac == m ==> PastM1(s.stations[m]))
    requires Polled(m, PastM1(s.stations[m]), from, gap, es)
    requires Latest(m, PastM1(s.stations[m]), from, es)
             >= Due(s.stations[m]) + (MAX_RETRIES - s.stations[m].retries) * (TIMEOUT + gap)
    ensures m !in Run(s, es).0.stations
    ensures (forall e :: e in es ==> !Removes(m, e)) ==>
              var out := Run(s, es).1;
              Deauths(out, m) == 1 && Retransmissions(out, m) == MAX_RETRIES - s.stations[m].retries
  {
    var t, past := s.stations[m], PastM1(s.stations[m]);
    PolledWaits(m, past, from, gap, Due(t), es);
    ForwardFrom(m, past, from, es);
    var n, left := Waited(m, past, Due(t), es).0, MAX_RETRIES - t.retries;
    if n <= left {
      FewerTimeouts(n, left, TIMEOUT + gap);
      assert false;
    }
    hide Inv, Run, Waited, Polled, Forward, Due;
    SilentIsDropped(s, es, m);
  }

  lemma {:induction false} FewerTimeouts(n: nat, left: nat, each: nat)
    requires n <= left
    ensures n * each <= left * each
  {
  }

  // ---- the drain as a loop ---------------------------------------------------------------------------------------

  function Prepend(out: seq<Out>, r: (State, seq<Out>)): (State, seq<Out>) {
    (r.0, out + r.1)
  }

  lemma {:induction false} PrependNothing(r: (State, seq<Out>))
    ensures Prepend([], r) == r
  {
    assert [] + r.1 == r.1;
  }

  lemma {:induction false} PrependNone(out: seq<Out>, s: State)
    ensures Prepend(out, (s, [])) == (s, out)
  {
    assert out + [] == out;
  }

  lemma {:induction false} PrependTwice(a: seq<Out>, b: seq<Out>, r: (State, seq<Out>))
    ensures Prepend(a, Prepend(b, r)) == Prepend(a + b, r)
  {
    assert a + (b + r.1) == a + b + r.1;
  }

  lemma {:induction false} DrainStep(s: State, now: nat)
    ensures if s.heap != [] && s.heap[0].deadline <= now
            then Drain(s, now) == Prepend(Fire(s, now).1, Drain(Fire(s, now).0, now))
            else Drain(s, now) == (s, [])
  {
    hide Fire;
  }

  // ---- the timers as an object -------------------------------------------------------------------------------------

  class EapolTimers {
    var stations: map<Mac, Timer>
    var deadlines: seq<Entry>

    ghost function View(): State
      reads this
    {
      State(stations, deadlines)
    }

    method ArmEapolTimer(m: Mac)
      modifies this
      ensures View() == Arm(old(View()), m)
    {
      if m !in stations {
        return;
      }
      var t := stations[m].(generation := stations[m].generation + 1);
      stations := stations[m := t];
      if !t.pending {
        return;
      }
      var timeout := if t.retries == 0 && !t.acked then FIRST_TIMEOUT else TIMEOUT;
      deadlines := Push(deadlines, Entry(t.tx + timeout, t.generation, m));
    }

    method NoteEapolAcked(m: Mac, now: nat)
      modifies this
      ensures View() == NoteAcked(old(View()), m, now)
    {
      if m in stations {
        var t := stations[m];
        if !t.awaitingM4 && !t.groupRekeying {
          stations := stations[m := t.(acked := true, tx := now)];
        }
        assert stations == old(stations)[m := stations[m]];
      }
      ArmEapolTimer(m);
    }

    // The retransmission loop of a tick.
    method DrainDeadlines(now: nat) returns (out: seq<Out>)
      modifies this
      ensures (View(), out) == Drain(old(View()), now)
    {
      hide Fire, Drain, Prepend;
      out := [];
      ghost var start := View();
      PrependNothing(Drain(start, now));
      while deadlines != [] && deadlines[0].deadline <= now
        invariant Drain(start, now) == Prepend(out, Drain(View(), now))
        decreases DueCount(deadlines, now)
      {
        FireShrinks(View(), now);
        DrainStep(View(), now);
        var sent := FireFirst(now);
        PrependTwice(out, sent, Drain(View(), now));
        out := out + sent;
      }
      DrainStep(View(), now);
      PrependNone(out, View());
    }

    method FireFirst(now: nat) returns (out: seq<Out>)
      requires deadlines != []
      modifies this
      ensures (View(), out) == Fire(old(View()), now)
    {
      var e := deadlines[0];
      deadlines := deadlines[1..];
      if e.mac !in stations {
        return [];
      }
      var t := stations[e.mac];
      if t.generation != e.generation || !t.pending {
        return [];
      }
      if t.retries >= MAX_RETRIES {
        stations := stations - {e.mac};
        return [DeauthSent(e.mac)];
      }
      t := t.(tx := now, retries := t.retries + 1, acked := false, generation := t.generation + 1);
      stations := stations[e.mac := t];
      deadlines := Push(deadlines, Entry(now + TIMEOUT, t.generation, e.mac));
      out := [Retransmitted(e.mac)];
    }
  }
}
