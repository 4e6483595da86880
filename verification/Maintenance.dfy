/**
 Lazy expiry: one deadline stands for the earliest expiry of held ANonces, SA Queries,
 incomplete SAE exchanges, PMKSA entries and queued SAE commits, and the tables are scanned
 only when it is reached.

 Times are in milliseconds.
 */
module Maintenance {
  import opened Common

  const ANONCE_HOLD: nat := 10_000
  const SA_QUERY_TIMEOUT: nat := 1024
  const SAE_TIMEOUT: nat := 5_000
  const PMKSA_LIFETIME: nat := 43_200_000

  datatype Sae = NoSae | Incomplete | Confirmed

  datatype Station = Station(associated: bool, pmf: bool, sae: Sae, lastActivity: nat, saQuery: Option<nat>)

  // `held` and `queued` give creation times, `pmksa` expiry times; `clock` is the last time seen.
  datatype State = State(
    held: map<Mac, nat>, stations: map<Mac, Station>, pmksa: map<nat, nat>, queued: map<Mac, nat>,
    deadline: Option<nat>, clock: nat)

  function Initial(): State {
    State(map[], map[], map[], map[], None, 0)
  }

  // ---- what expires when ----------------------------------------------------------------------

  predicate Expiring(st: Station) {
    !st.associated && st.sae == Incomplete
  }

  function HeldExpiries(s: State): set<nat> {
    set m | m in s.held :: s.held[m] + ANONCE_HOLD
  }

  function QueryExpiries(s: State): set<nat> {
    set m | m in s.stations && s.stations[m].saQuery.Some? :: s.stations[m].saQuery.value + SA_QUERY_TIMEOUT
  }

  function SaeExpiries(s: State): set<nat> {
    set m | m in s.stations && Expiring(s.stations[m]) :: s.stations[m].lastActivity + SAE_TIMEOUT
  }

  function PmksaExpiries(s: State): set<nat> {
    set k | k in s.pmksa :: s.pmksa[k]
  }

  function QueuedExpiries(s: State): set<nat> {
    set m | m in s.queued :: s.queued[m] + SAE_TIMEOUT
  }

  function Expiries(s: State): set<nat> {
    HeldExpiries(s) + SaeExpiries(s) + QueryExpiries(s) + PmksaExpiries(s) + QueuedExpiries(s)
  }

  // The deadline is set and not later than d.
  predicate Covers(deadline: Option<nat>, d: nat) {
    deadline.Some? && deadline.value <= d
  }

  // Nothing can expire before the deadline: the lazy scan misses nothing that a full one sees.
  ghost predicate Inv(s: State) {
    && (forall d :: d in Expiries(s) ==> Covers(s.deadline, d))
    && (forall m :: m in s.stations ==> s.stations[m].lastActivity <= s.clock)
  }

  ghost predicate NoneExpired(s: State, now: nat) {
    forall d :: d in Expiries(s) ==> now < d
  }

  // ---- scheduling ---------------------------------------------------------------------------------

  function Schedule(s: State, d: nat): State {
    if s.deadline.None? || d < s.deadline.value then s.(deadline := Some(d)) else s
  }

  function Earliest(ds: set<nat>): (d: Option<nat>)
    ensures ds == {} <==> d.None?
    ensures d.Some? ==> d.value in ds && forall x :: x in ds ==> d.value <= x
  {
    if ds == {} then None else
      LeastExists(ds);
      var d :| d in ds && forall x :: x in ds ==> d <= x;
      Some(d)
  }

  lemma {:induction false} Least(ds: set<nat>) returns (d: nat)
    requires ds != {}
    ensures d in ds && forall x :: x in ds ==> d <= x
  {
    var y :| y in ds;
    var rest := ds - {y};
    if rest == {} {
      d := y;
      assert ds == {y} + rest;
    } else {
      d := Least(rest);
      d := if d <= y then d else y;
      assert forall x :: x in ds ==> x == y || x in rest;
    }
  }

  lemma {:induction false} LeastExists(ds: set<nat>)
    requires ds != {}
    ensures exists d :: d in ds && forall x :: x in ds ==> d <= x
  {
    var d := Least(ds);
  }

  // ---- events ----------------------------------------------------------------------------------------

  function Touch(s: State, m: Mac, now: nat): State {
    if m in s.stations then s.(stations := s.stations[m := s.stations[m].(lastActivity := now)]) else s
  }

  function Put(s: State, m: Mac, st: Station): State {
    s.(stations := s.stations[m := st])
  }

  function Record(s: State, m: Mac, now: nat): Station {
    if m in s.stations then s.stations[m] else Station(false, false, NoSae, now, None)
  }

  // What the scan drops.
  function Swept(s: State, now: nat): State {
    s.(held := map m | m in s.held && now < s.held[m] + ANONCE_HOLD :: s.held[m],
       queued := map m | m in s.queued && now < s.queued[m] + SAE_TIMEOUT :: s.queued[m],
       stations := map m | m in s.stations && !Stale(s.stations[m], now) :: s.stations[m],
       pmksa := map k | k in s.pmksa && now < s.pmksa[k] :: s.pmksa[k])
  }

  predicate Stale(st: Station, now: nat) {
    || (!st.associated && st.sae != NoSae && now >= st.lastActivity + SAE_TIMEOUT)
    || (st.saQuery.Some? && now >= st.saQuery.value + SA_QUERY_TIMEOUT)
  }

  // A full scan: drop what has expired and look for the next deadline after now.
  function Scan(s: State, now: nat): State {
    var t := Swept(s, now);
    t.(deadline := Earliest(set d | d in Expiries(t) && d > now))
  }

  function Tick(s: State, now: nat): State {
    if Covers(s.deadline, now) then Scan(s, now) else s
  }

  datatype Event =
    | HoldAnonce(mac: Mac, now: nat)
    | ReleaseAnonce(mac: Mac, now: nat)
    | Activity(mac: Mac, now: nat)
    | Challenge(mac: Mac, now: nat)
    | QueryAnswered(mac: Mac, now: nat)
    | CommitQueued(mac: Mac, now: nat)
    | ResultTaken(mac: Mac, now: nat)
    | CommitFinished(mac: Mac, now: nat)
    | ConfirmFinished(mac: Mac, pmksa: nat, now: nat)
    | PmksaEvicted(key: nat, now: nat)
    | PmfNegotiated(mac: Mac, pmf: bool, now: nat)
    | FourWayDone(mac: Mac, now: nat)
    | OpenAuthReset(mac: Mac, now: nat)
    | Disconnected(mac: Mac, now: nat)
    | TimerTick(now: nat)

  // A frame of a session under management protection is challenged instead of handled.
  predicate Protected(s: State, m: Mac) {
    m in s.stations && s.stations[m].associated && s.stations[m].pmf
  }

  function CachePmksa(s: State, key: nat, now: nat): State {
    var live: map<nat, nat> := map k | k in s.pmksa && now < s.pmksa[k] :: s.pmksa[k];
    Schedule(s.(pmksa := live[key := now + PMKSA_LIFETIME]), now + PMKSA_LIFETIME)
  }

  function Act(s: State, e: Event): State {
    match e
    case HoldAnonce(m, now) =>
      Schedule(s.(held := (map x | x in s.held && now < s.held[x] + ANONCE_HOLD :: s.held[x])[m := now]), now + ANONCE_HOLD)
    case ReleaseAnonce(m, _) => s.(held := s.held - {m})
    case Activity(m, now) => Touch(s, m, now)
    case Challenge(m, now) =>
      if m !in s.stations || !s.stations[m].associated then s else
        var started := s.stations[m].saQuery.GetOr(now);
        Schedule(Put(s, m, s.stations[m].(saQuery := Some(started))), started + SA_QUERY_TIMEOUT)
    case QueryAnswered(m, _) => if m in s.stations then Put(s, m, s.stations[m].(saQuery := None)) else s
    case CommitQueued(m, now) => Schedule(s.(queued := s.queued[m := now]), now + SAE_TIMEOUT)
    case ResultTaken(m, _) => s.(queued := s.queued - {m})
    case CommitFinished(m, now) =>
      Schedule(Put(s, m, Record(s, m, now).(sae := Incomplete, pmf := true, lastActivity := now)), now + SAE_TIMEOUT)
    case ConfirmFinished(m, key, now) =>
      if m !in s.stations || s.stations[m].sae == NoSae then s
      else CachePmksa(Put(s, m, s.stations[m].(sae := Confirmed)), key, now)
    case PmksaEvicted(key, _) => s.(pmksa := s.pmksa - {key})
    case PmfNegotiated(m, pmf, now) => if Protected(s, m) then s else Put(s, m, Record(s, m, now).(pmf := pmf))
    case FourWayDone(m, _) => if m in s.stations then Put(s, m, s.stations[m].(associated := true)) else s
    case OpenAuthReset(m, now) =>
      if Protected(s, m) then s
      else Put(s, m, Record(s, m, now).(associated := false, saQuery := None, pmf := false, lastActivity := now))
    case Disconnected(m, _) => s.(stations := s.stations - {m})
    case TimerTick(now) => Tick(s, now)
  }

  function Handle(s: State, e: Event): State {
    Act(s, e).(clock := e.now)
  }

  // ---- when the deadline stays true ---------------------------------------------------------------------

  // An associated station with an incomplete exchange loses its association: from now on the
  // exchange can expire, and nothing schedules that.
  predicate ExposesExchange(s: State, e: Event) {
    e.OpenAuthReset? && !Protected(s, e.mac) && e.mac in s.stations
    && s.stations[e.mac].associated && s.stations[e.mac].sae == Incomplete
  }

  // The corner in which the deadline may come too late.
  predicate Unscheduled(s: State, e: Event) {
    ExposesExchange(s, e) && !Covers(s.deadline, e.now + SAE_TIMEOUT)
  }

  // The invariant, class by class.
  ghost predicate Scheduled(s: State) {
    && (forall m :: m in s.held ==> Covers(s.deadline, s.held[m] + ANONCE_HOLD))
    && (forall m :: m in s.stations ==> StationScheduled(s.stations[m], s.deadline))
    && (forall k :: k in s.pmksa ==> Covers(s.deadline, s.pmksa[k]))
    && (forall m :: m in s.queued ==> Covers(s.deadline, s.queued[m] + SAE_TIMEOUT))
  }

  predicate StationScheduled(st: Station, deadline: Option<nat>) {
    && (Expiring(st) ==> Covers(deadline, st.lastActivity + SAE_TIMEOUT))
    && (st.saQuery.Some? ==> Covers(deadline, st.saQuery.value + SA_QUERY_TIMEOUT))
  }

  ghost predicate PastActivity(s: State) {
    forall m :: m in s.stations ==> s.stations[m].lastActivity <= s.clock
  }

  lemma {:induction false} ScheduledCovers(s: State)
    requires Scheduled(s)
    ensures forall d :: d in Expiries(s) ==> Covers(s.deadline, d)
  {
    hide Covers;
    forall d | d in Expiries(s) ensures Covers(s.deadline, d) {
      if d in HeldExpiries(s) {
      } else if d in SaeExpiries(s) {
        var m :| m in s.stations && Expiring(s.stations[m]) && d == s.stations[m].lastActivity + SAE_TIMEOUT;
        assert StationScheduled(s.stations[m], s.deadline);
      } else if d in QueryExpiries(s) {
        var m :| m in s.stations && s.stations[m].saQuery.Some? && d == s.stations[m].saQuery.value + SA_QUERY_TIMEOUT;
        assert StationScheduled(s.stations[m], s.deadline);
      }
    }
  }

  lemma {:induction false} CoveredIsScheduled(s: State)
    requires forall d :: d in Expiries(s) ==> Covers(s.deadline, d)
    ensures Scheduled(s)
  {
    hide Covers;
    forall m | m in s.stations ensures StationScheduled(s.stations[m], s.deadline) {
      var st := s.stations[m];
      if Expiring(st) {
        assert st.lastActivity + SAE_TIMEOUT in SaeExpiries(s);
      }
      if st.saQuery.Some? {
        assert st.saQuery.value + SA_QUERY_TIMEOUT in QueryExpiries(s);
      }
    }
    forall m | m in s.held ensures Covers(s.deadline, s.held[m] + ANONCE_HOLD) {
      assert s.held[m] + ANONCE_HOLD in HeldExpiries(s);
    }
    forall m | m in s.queued ensures Covers(s.deadline, s.queued[m] + SAE_TIMEOUT) {
      assert s.queued[m] + SAE_TIMEOUT in QueuedExpiries(s);
    }
    forall k | k in s.pmksa ensures Covers(s.deadline, s.pmksa[k]) {
      assert s.pmksa[k] in PmksaExpiries(s);
    }
  }

  lemma {:induction false} InvIsScheduled(s: State)
    ensures Inv(s) <==> Scheduled(s) && PastActivity(s)
  {
    if Scheduled(s) {
      ScheduledCovers(s);
    }
    if Inv(s) {
      CoveredIsScheduled(s);
    }
    hide Expiries, Scheduled, Covers;
  }

  lemma {:induction false} ScanSchedules(s: State, now: nat)
    requires PastActivity(s)
    ensures NoneExpired(Scan(s, now), now) && Scheduled(Scan(s, now)) && PastActivity(Scan(s, now))
  {
    var t, u := Swept(s, now), Scan(s, now);
    assert Expiries(t) == Expiries(u);
    assert NoneExpired(t, now);
    hide Expiries;
    var later := set d | d in Expiries(t) && d > now;
    assert u.deadline == Earliest(later);
    forall d | d in Expiries(u) ensures Covers(u.deadline, d) {
      assert d in later;
    }
    CoveredIsScheduled(u);
  }

  lemma {:induction false} ScheduleEarlier(s: State, d: nat)
    ensures Covers(Schedule(s, d).deadline, d)
    ensures forall x :: Covers(s.deadline, x) ==> Covers(Schedule(s, d).deadline, x)
  {
  }

  // An earlier deadline covers as much.
  lemma {:induction false} EarlierSchedules(s: State, t: State)
    requires Scheduled(s) && t == s.(deadline := t.deadline)
    requires forall x :: Covers(s.deadline, x) ==> Covers(t.deadline, x)
    ensures Scheduled(t)
  {
    hide Covers;
    forall m | m in t.stations ensures StationScheduled(t.stations[m], t.deadline) {
      assert StationScheduled(s.stations[m], s.deadline);
    }
  }

  // One station's record is replaced; d, if given, is scheduled with it.
  lemma {:induction false} PutSchedules(s: State, m: Mac, st: Station)
    requires Scheduled(s) && StationScheduled(st, s.deadline)
    ensures Scheduled(Put(s, m, st))
  {
    hide Covers;
  }

  lemma {:induction false} ActKeepsActivity(s: State, e: Event)
    requires PastActivity(s) && s.clock <= e.now
    ensures PastActivity(Handle(s, e))
  {
    hide Earliest, Expiries;
  }

  // Exactly when an event keeps the deadline true: always, but for an open authentication that
  // ends the association of a station whose SAE exchange is incomplete and whose new expiry
  // the current deadline does not cover.
  lemma {:induction false} HandleKeepsIff(s: State, e: Event)
    requires Inv(s) && s.clock <= e.now
    ensures Inv(Handle(s, e)) <==> !Unscheduled(s, e)
  {
    InvIsScheduled(s);
    InvIsScheduled(Handle(s, e));
    hide Inv;
    ActKeepsActivity(s, e);
    hide PastActivity;
    if Unscheduled(s, e) {
      assert !StationScheduled(Handle(s, e).stations[e.mac], s.deadline);
    } else {
      ActSchedules(s, e);
      assert Scheduled(Handle(s, e)) by { ClockIsFree(Act(s, e), e.now); }
    }
  }

  lemma {:induction false} ClockIsFree(s: State, now: nat)
    requires Scheduled(s)
    ensures Scheduled(s.(clock := now))
  {
  }

  lemma {:induction false} ActSchedules(s: State, e: Event)
    requires Scheduled(s) && PastActivity(s) && s.clock <= e.now && !Unscheduled(s, e)
    ensures Scheduled(Act(s, e))
  {
    hide Act, Scheduled, Unscheduled, PastActivity;
    match e {
      case HoldAnonce(m, now) => HoldActs(s, m, now);
      case CommitQueued(m, now) => QueueSchedules(s, m, now);
      case Challenge(m, now) => ChallengeSchedules(s, m, now);
      case CommitFinished(m, now) => CommitSchedules(s, m, now);
      case ConfirmFinished(m, key, now) => ConfirmSchedules(s, m, key, now);
      case TimerTick(now) => TickSchedules(s, now);
      case OpenAuthReset(m, now) => ResetSchedules(s, m, now);
      case Activity(m, now) => RecordSchedules(s, e);
      case QueryAnswered(m, _) => RecordSchedules(s, e);
      case PmfNegotiated(m, pmf, now) => RecordSchedules(s, e);
      case FourWayDone(m, _) => RecordSchedules(s, e);
      case _ => RemovalSchedules(s, e);
    }
  }

  lemma {:induction false} RemovalSchedules(s: State, e: Event)
    requires Scheduled(s) && (e.ReleaseAnonce? || e.ResultTaken? || e.PmksaEvicted? || e.Disconnected?)
    ensures Scheduled(Act(s, e))
  {
    hide Covers, StationScheduled;
  }

  lemma {:induction false} RecordSchedules(s: State, e: Event)
    requires Scheduled(s) && PastActivity(s) && s.clock <= e.now
    requires e.Activity? || e.QueryAnswered? || e.PmfNegotiated? || e.FourWayDone?
    ensures Scheduled(Act(s, e))
  {
    var t := Act(s, e);
    if t != s {
      var st := t.stations[e.mac];
      assert t == Put(s, e.mac, st);
      assert e.mac in s.stations ==> StationScheduled(s.stations[e.mac], s.deadline);
      assert StationScheduled(st, s.deadline);
      hide Scheduled, Act;
      PutSchedules(s, e.mac, st);
    }
  }

  lemma {:induction false} TickSchedules(s: State, now: nat)
    requires Scheduled(s) && PastActivity(s)
    ensures Scheduled(Act(s, TimerTick(now)))
  {
    if Covers(s.deadline, now) {
      ScanSchedules(s, now);
    }
    hide Scan, Scheduled;
  }

  lemma {:induction false} HoldActs(s: State, m: Mac, now: nat)
    requires Scheduled(s)
    ensures Scheduled(Act(s, HoldAnonce(m, now)))
  {
    hide Scheduled;
    HoldSchedules(s, s.(held := (map x | x in s.held && now < s.held[x] + ANONCE_HOLD :: s.held[x])[m := now]), m, now);
  }

  lemma {:induction false} HoldSchedules(s: State, t: State, m: Mac, now: nat)
    requires Scheduled(s) && t == s.(held := t.held)
    requires forall x :: x in t.held ==> (x == m && t.held[x] == now) || (x in s.held && t.held[x] == s.held[x])
    ensures Scheduled(Schedule(t, now + ANONCE_HOLD))
  {
    ScheduleEarlier(t, now + ANONCE_HOLD);
    EarlierSchedules(s, s.(deadline := Schedule(t, now + ANONCE_HOLD).deadline));
    hide Covers;
  }

  lemma {:induction false} QueuedSchedules(s: State, t: State, m: Mac, now: nat)
    requires Scheduled(s) && t == s.(queued := s.queued[m := now])
    ensures Scheduled(Schedule(t, now + SAE_TIMEOUT))
  {
    ScheduleEarlier(t, now + SAE_TIMEOUT);
    EarlierSchedules(s, s.(deadline := Schedule(t, now + SAE_TIMEOUT).deadline));
    hide Covers;
  }

  lemma {:induction false} QueueSchedules(s: State, m: Mac, now: nat)
    requires Scheduled(s)
    ensures Scheduled(Act(s, CommitQueued(m, now)))
  {
    hide Scheduled, Schedule;
    QueuedSchedules(s, s.(queued := s.queued[m := now]), m, now);
  }

  lemma {:induction false} ChallengeSchedules(s: State, m: Mac, now: nat)
    requires Scheduled(s)
    ensures Scheduled(Act(s, Challenge(m, now)))
  {
    if m in s.stations && s.stations[m].associated {
      var started := s.stations[m].saQuery.GetOr(now);
      var u := Schedule(s, started + SA_QUERY_TIMEOUT);
      ScheduleEarlier(s, started + SA_QUERY_TIMEOUT);
      EarlierSchedules(s, u);
      PutSchedules(u, m, s.stations[m].(saQuery := Some(started)));
    }
  }

  lemma {:induction false} CommitSchedules(s: State, m: Mac, now: nat)
    requires Scheduled(s)
    ensures Scheduled(Act(s, CommitFinished(m, now)))
  {
    var u := Schedule(s, now + SAE_TIMEOUT);
    ScheduleEarlier(s, now + SAE_TIMEOUT);
    EarlierSchedules(s, u);
    assert m in u.stations ==> StationScheduled(u.stations[m], u.deadline);
    PutSchedules(u, m, Record(s, m, now).(sae := Incomplete, pmf := true, lastActivity := now));
  }

  lemma {:induction false} CacheSchedules(s: State, key: nat, now: nat)
    requires Scheduled(s)
    ensures Scheduled(CachePmksa(s, key, now))
  {
    var live: map<nat, nat> := map k | k in s.pmksa && now < s.pmksa[k] :: s.pmksa[k];
    var t := s.(pmksa := live[key := now + PMKSA_LIFETIME]);
    ScheduleEarlier(t, now + PMKSA_LIFETIME);
    EarlierSchedules(s, s.(deadline := Schedule(t, now + PMKSA_LIFETIME).deadline));
    hide Covers;
  }

  lemma {:induction false} ConfirmSchedules(s: State, m: Mac, key: nat, now: nat)
    requires Scheduled(s)
    ensures Scheduled(Act(s, ConfirmFinished(m, key, now)))
  {
    hide CachePmksa;
    if m in s.stations && s.stations[m].sae != NoSae {
      assert StationScheduled(s.stations[m], s.deadline);
      PutSchedules(s, m, s.stations[m].(sae := Confirmed));
      CacheSchedules(Put(s, m, s.stations[m].(sae := Confirmed)), key, now);
    }
  }

  lemma {:induction false} ResetSchedules(s: State, m: Mac, now: nat)
    requires Scheduled(s) && PastActivity(s) && s.clock <= now
    requires !Unscheduled(s, OpenAuthReset(m, now))
    ensures Scheduled(Act(s, OpenAuthReset(m, now)))
  {
    if !Protected(s, m) {
      assert m in s.stations ==> StationScheduled(s.stations[m], s.deadline);
      PutSchedules(s, m, Record(s, m, now).(associated := false, saQuery := None, pmf := false, lastActivity := now));
    }
  }

  // After a tick under a true deadline nothing in any of the five classes has expired.
  lemma {:induction false} TickLeavesNoneExpired(s: State, now: nat)
    requires Inv(s) && s.clock <= now
    ensures NoneExpired(Tick(s, now), now)
  {
    if Covers(s.deadline, now) {
      InvIsScheduled(s);
      ScanSchedules(s, now);
    }
    hide Expiries, Scan;
  }

  // ---- runs ---------------------------------------------------------------------------------------------------

  function Run(s: State, es: seq<Event>): State {
    if es == [] then s else Handle(Run(s, es[..|es| - 1]), es[|es| - 1])
  }

  // The clock does not go back and no event is the corner.
  ghost predicate Ordinary(s: State, es: seq<Event>) {
    es == [] ||
    (Ordinary(s, es[..|es| - 1])
     && Run(s, es[..|es| - 1]).clock <= es[|es| - 1].now
     && !Unscheduled(Run(s, es[..|es| - 1]), es[|es| - 1]))
  }

  // Over any run without the corner the lazy deadline agrees with a full scan.
  lemma {:induction false} RunKeeps(es: seq<Event>)
    requires Ordinary(Initial(), es)
    ensures Inv(Run(Initial(), es))
  {
    if es != [] {
      RunKeeps(es[..|es| - 1]);
      hide Inv, Handle, Unscheduled;
      HandleKeepsIff(Run(Initial(), es[..|es| - 1]), es[|es| - 1]);
    }
  }

  lemma {:induction false} CornerStates(m: Mac)
    ensures var s3 := Handle(Handle(Handle(Initial(), CommitFinished(m, 0)), PmfNegotiated(m, false, 1)), FourWayDone(m, 2));
            Handle(Handle(Handle(s3, TimerTick(5_000)), OpenAuthReset(m, 100_000)), TimerTick(200_000))
            == State(map[], map[m := Station(false, false, Incomplete, 100_000, None)], map[], map[], None, 200_000)
  {
    var s1 := Handle(Initial(), CommitFinished(m, 0));
    var s2 := Handle(s1, PmfNegotiated(m, false, 1));
    var s3 := Handle(s2, FourWayDone(m, 2));
    assert s3 == State(map[], map[m := Station(true, false, Incomplete, 0, None)], map[], map[], Some(5_000), 2);
    CornerTicks(m, s3);
  }

  lemma {:induction false} CornerTicks(m: Mac, s3: State)
    requires s3 == State(map[], map[m := Station(true, false, Incomplete, 0, None)], map[], map[], Some(5_000), 2)
    ensures Handle(Handle(Handle(s3, TimerTick(5_000)), OpenAuthReset(m, 100_000)), TimerTick(200_000))
            == State(map[], map[m := Station(false, false, Incomplete, 100_000, None)], map[], map[], None, 200_000)
  {
    var s4 := Handle(s3, TimerTick(5_000));
    assert Swept(s3, 5_000) == s3;
    assert Expiries(s3) == {};
    assert (set d | d in Expiries(s3) && d > 5_000) == {};
    assert s4 == s3.(deadline := None, clock := 5_000);
    var s5 := Handle(s4, OpenAuthReset(m, 100_000));
    var s6 := Handle(s5, TimerTick(200_000));
    assert s5 == State(map[], map[m := Station(false, false, Incomplete, 100_000, None)], map[], map[], None, 100_000);
  }

  // The corner is reachable on a transition-mode BSS: a station completes the SAE commit while
  // its message 4 is outstanding, drops management protection in another association request,
  // finishes the handshake and later authenticates openly. Its exchange then outlives every
  // later tick.
  lemma {:induction false} CornerIsReachable(m: Mac)
    ensures var es := [CommitFinished(m, 0), PmfNegotiated(m, false, 1), FourWayDone(m, 2), TimerTick(5_000),
                       OpenAuthReset(m, 100_000), TimerTick(200_000)];
            var s := Run(Initial(), es);
            && s.clock == 200_000 && m in s.stations && Expiring(s.stations[m])
            && s.stations[m].lastActivity + SAE_TIMEOUT < 200_000 && s.deadline.None?
  {
    CornerStates(m);
    hide Handle, Expiries, Act;
    RunSnoc(Initial(), [], CommitFinished(m, 0));
    RunSnoc(Initial(), [CommitFinished(m, 0)], PmfNegotiated(m, false, 1));
    RunSnoc(Initial(), [CommitFinished(m, 0), PmfNegotiated(m, false, 1)], FourWayDone(m, 2));
    var three := [CommitFinished(m, 0), PmfNegotiated(m, false, 1), FourWayDone(m, 2)];
    RunSnoc(Initial(), three, TimerTick(5_000));
    RunSnoc(Initial(), three + [TimerTick(5_000)], OpenAuthReset(m, 100_000));
    RunSnoc(Initial(), three + [TimerTick(5_000)] + [OpenAuthReset(m, 100_000)], TimerTick(200_000));
    hide Run;
    assert [] + [CommitFinished(m, 0)] == [CommitFinished(m, 0)];
    assert [CommitFinished(m, 0)] + [PmfNegotiated(m, false, 1)] == [CommitFinished(m, 0), PmfNegotiated(m, false, 1)];
    assert [CommitFinished(m, 0), PmfNegotiated(m, false, 1)] + [FourWayDone(m, 2)] == three;
    assert three + [TimerTick(5_000)] + [OpenAuthReset(m, 100_000)] + [TimerTick(200_000)]
        == [CommitFinished(m, 0), PmfNegotiated(m, false, 1), FourWayDone(m, 2), TimerTick(5_000),
            OpenAuthReset(m, 100_000), TimerTick(200_000)];
  }

  lemma {:induction false} RunSnoc(s: State, es: seq<Event>, e: Event)
    ensures Run(s, es + [e]) == Handle(Run(s, es), e)
    ensures Run(s, []) == s
  {
    assert (es + [e])[..|es + [e]| - 1] == es;
  }

  // ---- the tables as an object -------------------------------------------------------------------------------

  // The least of the deadlines in ds after now.
  ghost predicate IsNext(next: Option<nat>, ds: set<nat>, now: nat) {
    && (next.None? <==> forall d :: d in ds ==> d <= now)
    && (next.Some? ==> next.value in ds && next.value > now && forall d :: d in ds && d > now ==> next.value <= d)
  }

  function Consider(next: Option<nat>, d: nat, now: nat): Option<nat> {
    if d > now && (next.None? || d < next.value) then Some(d) else next
  }

  lemma {:induction false} ConsiderKeeps(next: Option<nat>, ds: set<nat>, d: nat, now: nat)
    requires IsNext(next, ds, now)
    ensures IsNext(Consider(next, d, now), ds + {d}, now)
  {
  }

  lemma {:induction false} NextIsEarliest(next: Option<nat>, ds: set<nat>, now: nat)
    requires IsNext(next, ds, now)
    ensures next == Earliest(set d | d in ds && d > now)
  {
    var later := set d | d in ds && d > now;
    if next.Some? {
      assert next.value in later;
    } else {
      assert later == {};
    }
  }

  class Tables {
    var held: map<Mac, nat>
    var stations: map<Mac, Station>
    var pmksa: map<nat, nat>
    var queued: map<Mac, nat>
    var deadline: Option<nat>
    ghost var clock: nat

    ghost function View(): State
      reads this
    {
      State(held, stations, pmksa, queued, deadline, clock)
    }

    method ConsiderAll(times: map<Mac, nat>, span: nat, now: nat, before: Option<nat>, ghost ds: set<nat>)
      returns (next: Option<nat>)
      requires IsNext(before, ds, now)
      ensures IsNext(next, ds + (set m | m in times :: times[m] + span), now)
    {
      hide IsNext;
      next := before;
      var keys := times.Keys;
      ghost var seen := ds;
      assert times.Keys - keys == {};
      while keys != {}
        invariant keys <= times.Keys
        invariant seen == ds + (set m | m in times.Keys - keys :: times[m] + span)
        invariant IsNext(next, seen, now)
        decreases keys
      {
        var m :| m in keys;
        ConsiderKeeps(next, seen, times[m] + span, now);
        next := Consider(next, times[m] + span, now);
        assert times.Keys - (keys - {m}) == (times.Keys - keys) + {m};
        seen := seen + {times[m] + span};
        keys := keys - {m};
      }
      assert times.Keys - keys == times.Keys;
      assert seen == ds + (set m | m in times :: times[m] + span);
    }

    method RunDeadlineMaintenance(now: nat)
      modifies this
      ensures View() == Scan(old(View()), now)
    {
      held := map m | m in held && now < held[m] + ANONCE_HOLD :: held[m];
      queued := map m | m in queued && now < queued[m] + SAE_TIMEOUT :: queued[m];
      stations := map m | m in stations && !Stale(stations[m], now) :: stations[m];
      pmksa := map k | k in pmksa && now < pmksa[k] :: pmksa[k];
      ghost var t := View();
      assert t == Swept(old(View()), now);
      var exchanges := map m | m in stations && Expiring(stations[m]) :: stations[m].lastActivity;
      var queries := map m | m in stations && stations[m].saQuery.Some? :: stations[m].saQuery.value;
      SetsAgree(t, exchanges, queries);
      hide Swept, Expiries, HeldExpiries, SaeExpiries, QueryExpiries, PmksaExpiries, QueuedExpiries;
      var next := ConsiderAll(held, ANONCE_HOLD, now, None, {});
      next := ConsiderAll(exchanges, SAE_TIMEOUT, now, next, HeldExpiries(t));
      next := ConsiderAll(queries, SA_QUERY_TIMEOUT, now, next, HeldExpiries(t) + SaeExpiries(t));
      next := ConsiderAll(pmksa, 0, now, next, HeldExpiries(t) + SaeExpiries(t) + QueryExpiries(t));
      next := ConsiderAll(queued, SAE_TIMEOUT, now, next, HeldExpiries(t) + SaeExpiries(t) + QueryExpiries(t) + PmksaExpiries(t));
      NextIsEarliest(next, Expiries(t), now);
      hide IsNext;
      deadline := next;
    }

    lemma {:induction false} SetsAgree(t: State, exchanges: map<Mac, nat>, queries: map<Mac, nat>)
      requires exchanges == map m | m in t.stations && Expiring(t.stations[m]) :: t.stations[m].lastActivity
      requires queries == map m | m in t.stations && t.stations[m].saQuery.Some? :: t.stations[m].saQuery.value
      ensures {} + (set m | m in t.held :: t.held[m] + ANONCE_HOLD) == HeldExpiries(t)
      ensures (set m | m in exchanges :: exchanges[m] + SAE_TIMEOUT) == SaeExpiries(t)
      ensures (set m | m in queries :: queries[m] + SA_QUERY_TIMEOUT) == QueryExpiries(t)
      ensures (set k | k in t.pmksa :: t.pmksa[k] + 0) == PmksaExpiries(t)
      ensures (set m | m in t.queued :: t.queued[m] + SAE_TIMEOUT) == QueuedExpiries(t)
      ensures HeldExpiries(t) + SaeExpiries(t) + QueryExpiries(t) + PmksaExpiries(t) + QueuedExpiries(t) == Expiries(t)
    {
      assert forall k :: k in t.pmksa ==> t.pmksa[k] + 0 == t.pmksa[k];
      forall d | d in SaeExpiries(t) ensures d in set m | m in exchanges :: exchanges[m] + SAE_TIMEOUT {
        var m :| m in t.stations && Expiring(t.stations[m]) && d == t.stations[m].lastActivity + SAE_TIMEOUT;
        assert m in exchanges;
      }
      forall d | d in QueryExpiries(t) ensures d in set m | m in queries :: queries[m] + SA_QUERY_TIMEOUT {
        var m :| m in t.stations && t.stations[m].saQuery.Some? && d == t.stations[m].saQuery.value + SA_QUERY_TIMEOUT;
        assert m in queries;
      }
    }
  }
}
