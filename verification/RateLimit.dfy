/**
 The limiter of authentication and association requests: one window and count per source
 and kind, in a table that is bounded and swept only when full.
 */
module RateLimit {
  import opened Common

  datatype Kind = Auth | Assoc

  datatype RateWindow = RateWindow(start: nat, count: nat)

  datatype Rate = Rate(auth: RateWindow, assoc: RateWindow, lastSeen: nat) {
    function Get(k: Kind): RateWindow {
      match k case Auth => auth case Assoc => assoc
    }

    function With(k: Kind, w: RateWindow): Rate {
      match k case Auth => this.(auth := w) case Assoc => this.(assoc := w)
    }
  }

  type Table = map<Mac, Rate>

  // Times are in milliseconds.
  const WINDOW: nat := 1000
  const ENTRY_MAX: nat := 1024

  function Burst(k: Kind): nat {
    match k case Auth => 16 case Assoc => 8
  }

  // ---- one request -------------------------------------------------------------------------

  function Allow(w: RateWindow, burst: nat, now: nat): (RateWindow, bool) {
    var v := if now >= w.start + WINDOW then RateWindow(now, 0) else w;
    if v.count >= burst then (v, false) else (v.(count := v.count + 1), true)
  }

  function Sweep(t: Table, now: nat): Table {
    map m | m in t && now < t[m].lastSeen + WINDOW :: t[m]
  }

  // The table with the source's entry brought up to date, unless there is no room for one.
  function Entry(t: Table, sta: Mac, now: nat): Option<Table> {
    var u := if sta !in t && |t| >= ENTRY_MAX then Sweep(t, now) else t;
    if sta !in u && |u| >= ENTRY_MAX then None
    else
      var rate := if sta in u then u[sta] else Rate(RateWindow(now, 0), RateWindow(now, 0), now);
      Some(u[sta := rate.(lastSeen := now)])
  }

  datatype Request = Request(sta: Mac, kind: Kind, now: nat)

  function Handle(t: Table, r: Request): (Table, bool) {
    var e := Entry(t, r.sta, r.now);
    if e.None? then (if r.sta !in t && |t| >= ENTRY_MAX then Sweep(t, r.now) else t, false)
    else
      var rate := e.value[r.sta];
      var (w, ok) := Allow(rate.Get(r.kind), Burst(r.kind), r.now);
      (e.value[r.sta := rate.With(r.kind, w)], ok)
  }

  // ---- the limiter as an object ----------------------------------------------------------------

  class Limiter {
    var rates: Table

    constructor ()
      ensures rates == map[]
    {
      rates := map[];
    }

    method RequestRateEntry(sta: Mac, now: nat) returns (ok: bool)
      modifies this
      ensures ok == Entry(old(rates), sta, now).Some?
      ensures rates == if ok then Entry(old(rates), sta, now).value
                       else if sta !in old(rates) && |old(rates)| >= ENTRY_MAX then Sweep(old(rates), now) else old(rates)
    {
      if sta !in rates && |rates| >= ENTRY_MAX {
        rates := Sweep(rates, now);
        if |rates| >= ENTRY_MAX {
          return false;
        }
      }
      if sta !in rates {
        rates := rates[sta := Rate(RateWindow(now, 0), RateWindow(now, 0), now)];
      }
      rates := rates[sta := rates[sta].(lastSeen := now)];
      ok := true;
    }

    method AllowRequest(r: Request) returns (ok: bool)
      modifies this
      ensures (rates, ok) == Handle(old(rates), r)
    {
      var found := RequestRateEntry(r.sta, r.now);
      if !found {
        return false;
      }
      hide Entry, Sweep;
      var rate := rates[r.sta];
      var window := rate.Get(r.kind);
      if r.now >= window.start + WINDOW {
        window := RateWindow(r.now, 0);
      }
      ok := window.count < Burst(r.kind);
      if ok {
        window := window.(count := window.count + 1);
      }
      rates := rates[r.sta := rate.With(r.kind, window)];
    }
  }

  // ---- runs -------------------------------------------------------------------------------------------

  datatype Decision = Decision(request: Request, allowed: bool)

  predicate Monotone(rs: seq<Request>) {
    forall i, j :: 0 <= i < j < |rs| ==> rs[i].now <= rs[j].now
  }

  function Run(rs: seq<Request>): (Table, seq<Decision>) {
    if rs == [] then (map[], []) else
      var (t, log) := Run(rs[..|rs| - 1]);
      var (u, ok) := Handle(t, rs[|rs| - 1]);
      (u, log + [Decision(rs[|rs| - 1], ok)])
  }

  predicate Counts(d: Decision, m: Mac, k: Kind, low: int, high: int) {
    d.allowed && d.request.sta == m && d.request.kind == k && low <= d.request.now < high
  }

  // How many requests of m and kind k were allowed at times in [low, high).
  function CountIn(log: seq<Decision>, m: Mac, k: Kind, low: int, high: int): nat {
    if log == [] then 0
    else CountIn(log[..|log| - 1], m, k, low, high) + (if Counts(log[|log| - 1], m, k, low, high) then 1 else 0)
  }

  lemma {:induction false} CountSnoc(log: seq<Decision>, d: Decision, m: Mac, k: Kind, low: int, high: int)
    ensures CountIn(log + [d], m, k, low, high) == CountIn(log, m, k, low, high) + (if Counts(d, m, k, low, high) then 1 else 0)
  {
    assert (log + [d])[..|log + [d]| - 1] == log;
  }

  lemma {:induction false} CountSplit(log: seq<Decision>, m: Mac, k: Kind, low: int, mid: int, high: int)
    requires low <= mid <= high
    ensures CountIn(log, m, k, low, high) == CountIn(log, m, k, low, mid) + CountIn(log, m, k, mid, high)
  {
    if log != [] {
      CountSplit(log[..|log| - 1], m, k, low, mid, high);
    }
  }

  lemma {:induction false} CountBeyond(log: seq<Decision>, m: Mac, k: Kind, low: int, high: int)
    requires forall d :: d in log ==> d.request.now < low
    ensures CountIn(log, m, k, low, high) == 0
  {
    if log != [] {
      assert log[|log| - 1] in log;
      CountBeyond(log[..|log| - 1], m, k, low, high);
    }
  }

  // ---- the invariant of one source and kind ------------------------------------------------------------

  // `s` starts the latest window, `before` the one before it; both hold at most a burst.
  // `now` is the time reached.
  ghost predicate Inv(t: Table, log: seq<Decision>, m: Mac, k: Kind, before: int, s: int, now: nat) {
    && before + WINDOW <= s <= now
    && (forall d :: d in log ==> d.request.now <= now)
    && (forall d :: d in log && d.allowed && d.request.sta == m && d.request.kind == k ==> d.request.now < s + WINDOW)
    && CountIn(log, m, k, before, s) <= Burst(k)
    && CountIn(log, m, k, s, now + 1) <= Burst(k)
    && (if m in t then
          && t[m].Get(k).start == s && t[m].Get(k).count == CountIn(log, m, k, s, now + 1)
          && s <= t[m].lastSeen <= now && t[m].Get(if k == Auth then Assoc else Auth).start <= t[m].lastSeen
        else s + WINDOW <= now)
  }

  ghost predicate Bounded(log: seq<Decision>, m: Mac, k: Kind) {
    forall low: int, high: int :: high == low + WINDOW ==> CountIn(log, m, k, low, high) <= 2 * Burst(k)
  }

  lemma {:induction false} CountExtends(log: seq<Decision>, m: Mac, k: Kind, low: int, high: int, higher: int)
    requires low <= high <= higher && forall d :: d in log ==> d.request.now < high
    ensures CountIn(log, m, k, low, higher) == CountIn(log, m, k, low, high)
  {
    CountSplit(log, m, k, low, high, higher);
    CountBeyond(log, m, k, high, higher);
  }

  // Time passes.
  lemma {:induction false} Later(t: Table, log: seq<Decision>, m: Mac, k: Kind, before: int, s: int, now: nat, later: nat)
    requires Inv(t, log, m, k, before, s, now) && now <= later
    ensures Inv(t, log, m, k, before, s, later)
  {
    CountExtends(log, m, k, s, now + 1, later + 1);
  }

  // A window opens now: at least one window length after the latest.
  lemma {:induction false} NewWindow(log: seq<Decision>, m: Mac, k: Kind, s: int, now: nat)
    requires s <= now && CountIn(log, m, k, s, now + 1) <= Burst(k)
    requires s + WINDOW <= now
    requires forall d :: d in log && d.allowed && d.request.sta == m && d.request.kind == k ==> d.request.now < s + WINDOW
    ensures CountIn(log, m, k, s, now) <= Burst(k) && CountIn(log, m, k, now, now + 1) == 0
  {
    CountSplit(log, m, k, s, now, now + 1);
    NoneFrom(log, m, k, now, now + 1);
  }

  lemma {:induction false} NoneFrom(log: seq<Decision>, m: Mac, k: Kind, low: int, high: int)
    requires forall d :: d in log && d.allowed && d.request.sta == m && d.request.kind == k ==> d.request.now < low
    ensures CountIn(log, m, k, low, high) == 0
  {
    if log != [] {
      assert log[|log| - 1] in log;
      NoneFrom(log[..|log| - 1], m, k, low, high);
    }
  }

  // The entry of m after its table entry has been brought up to date at this moment.
  lemma {:induction false} EntryKeeps(t: Table, log: seq<Decision>, m: Mac, k: Kind, before: int, s: int, now: nat, sta: Mac)
    returns (b: int, r: int)
    requires Inv(t, log, m, k, before, s, now)
    requires Entry(t, sta, now).Some?
    ensures Inv(Entry(t, sta, now).value, log, m, k, b, r, now)
    ensures sta == m ==> m in Entry(t, sta, now).value
  {
    b, r := before, s;
    if sta == m && m !in t {
      NewWindow(log, m, k, s, now);
      b, r := s, now;
    }
  }

  lemma {:induction false} SweepKeeps(t: Table, log: seq<Decision>, m: Mac, k: Kind, before: int, s: int, now: nat)
    requires Inv(t, log, m, k, before, s, now)
    ensures Inv(Sweep(t, now), log, m, k, before, s, now)
  {
  }

  // A decision that counts for nothing here.
  lemma {:induction false} OtherDecision(t: Table, log: seq<Decision>, m: Mac, k: Kind, before: int, s: int, now: nat, d: Decision)
    requires Inv(t, log, m, k, before, s, now) && d.request.now == now
    requires !(d.allowed && d.request.sta == m && d.request.kind == k)
    ensures Inv(t, log + [d], m, k, before, s, now)
  {
    CountSnoc(log, d, m, k, before, s);
    CountSnoc(log, d, m, k, s, now + 1);
    assert forall e :: e in log + [d] <==> e in log || e == d;
  }

  lemma {:induction false} OtherBounded(log: seq<Decision>, m: Mac, k: Kind, d: Decision)
    requires Bounded(log, m, k) && !(d.allowed && d.request.sta == m && d.request.kind == k)
    ensures Bounded(log + [d], m, k)
  {
    forall low: int, high: int | high == low + WINDOW ensures CountIn(log + [d], m, k, low, high) <= 2 * Burst(k) {
      CountSnoc(log, d, m, k, low, high);
    }
  }

  // The window of m and k after its own request.
  lemma {:induction false} OwnDecision(t: Table, log: seq<Decision>, m: Mac, k: Kind, before: int, s: int, now: nat) returns (b: int, r: int)
    requires Inv(t, log, m, k, before, s, now) && m in t && t[m].lastSeen == now
    ensures var (w, ok) := Allow(t[m].Get(k), Burst(k), now);
            Inv(t[m := t[m].With(k, w)], log + [Decision(Request(m, k, now), ok)], m, k, b, r, now)
  {
    var (w, ok) := Allow(t[m].Get(k), Burst(k), now);
    var d := Decision(Request(m, k, now), ok);
    b, r := before, s;
    if now >= s + WINDOW {
      NewWindow(log, m, k, s, now);
      b, r := s, now;
    }
    CountSnoc(log, d, m, k, b, r);
    CountSnoc(log, d, m, k, r, now + 1);
    assert forall e :: e in log + [d] <==> e in log || e == d;
  }

  // Any interval of one window length meets at most the two latest windows.
  lemma {:induction false} OwnBounded(t: Table, log: seq<Decision>, m: Mac, k: Kind, b: int, r: int, now: nat, d: Decision)
    requires Bounded(log, m, k) && d.request.now == now
    requires Inv(t, log + [d], m, k, b, r, now) && d in log + [d] && d.request.sta == m && d.request.kind == k
    ensures Bounded(log + [d], m, k)
  {
    forall low: int, high: int | high == low + WINDOW ensures CountIn(log + [d], m, k, low, high) <= 2 * Burst(k) {
      CountSnoc(log, d, m, k, low, high);
      if Counts(d, m, k, low, high) {
        CountSplit(log + [d], m, k, b, r, now + 1);
        CountSplit(log + [d], m, k, b, low, now + 1);
        CountExtends(log + [d], m, k, low, now + 1, high);
      }
    }
  }

  lemma {:induction false} HandleKeeps(t: Table, log: seq<Decision>, m: Mac, k: Kind, before: int, s: int, now: nat, q: Request)
    returns (b: int, r: int)
    requires Inv(t, log, m, k, before, s, now) && now <= q.now && Bounded(log, m, k)
    ensures var (u, ok) := Handle(t, q);
            Inv(u, log + [Decision(q, ok)], m, k, b, r, q.now) && Bounded(log + [Decision(q, ok)], m, k)
  {
    var (u, ok) := Handle(t, q);
    var d := Decision(q, ok);
    Later(t, log, m, k, before, s, now, q.now);
    b, r := before, s;
    var e := Entry(t, q.sta, q.now);
    if e.None? {
      SweepKeeps(t, log, m, k, before, s, q.now);
      OtherDecision(u, log, m, k, b, r, q.now, d);
      OtherBounded(log, m, k, d);
    } else {
      b, r := EntryKeeps(t, log, m, k, before, s, q.now, q.sta);
      hide Inv, Bounded;
      if q.sta == m && q.kind == k {
        b, r := OwnDecision(e.value, log, m, k, b, r, q.now);
        OwnBounded(u, log, m, k, b, r, q.now, d);
      } else {
        SameWindow(e.value, u, log, m, k, b, r, q);
        OtherDecision(u, log, m, k, b, r, q.now, d);
        OtherBounded(log, m, k, d);
      }
    }
  }

  // Another source's or another kind's window changes nothing of this one.
  lemma {:induction false} SameWindow(t: Table, u: Table, log: seq<Decision>, m: Mac, k: Kind, b: int, r: int, q: Request)
    requires Inv(t, log, m, k, b, r, q.now) && q.sta in t && (q.sta != m || q.kind != k) && t[q.sta].lastSeen == q.now
    requires u == t[q.sta := t[q.sta].With(q.kind, Allow(t[q.sta].Get(q.kind), Burst(q.kind), q.now).0)]
    ensures Inv(u, log, m, k, b, r, q.now)
  {
  }

  lemma {:induction false} RunKeeps(rs: seq<Request>, m: Mac, k: Kind) returns (b: int, r: int)
    requires Monotone(rs)
    ensures var (t, log) := Run(rs);
            Inv(t, log, m, k, b, r, if rs == [] then 0 else rs[|rs| - 1].now) && Bounded(log, m, k)
  {
    if rs == [] {
      var w: int := WINDOW;
      b, r := -2 * w, -w;
    } else {
      var front := rs[..|rs| - 1];
      b, r := RunKeeps(front, m, k);
      hide Inv, Bounded, Handle;
      var (t, log) := Run(front);
      b, r := HandleKeeps(t, log, m, k, b, r, if front == [] then 0 else front[|front| - 1].now, rs[|rs| - 1]);
    }
  }

  // Over any run with a clock that does not go back, each source is allowed at most two
  // bursts of one kind in any interval of the window's length, even when its entry was swept
  // and made again in between.
  lemma {:induction false} AtMostTwoBursts(rs: seq<Request>, m: Mac, k: Kind, from: int)
    requires Monotone(rs)
    ensures CountIn(Run(rs).1, m, k, from, from + WINDOW) <= 2 * Burst(k)
  {
    var b, r := RunKeeps(rs, m, k);
    assert Bounded(Run(rs).1, m, k);
  }

  // The table never outgrows its bound, whatever the clock does.
  lemma {:induction false} TableBounded(rs: seq<Request>)
    ensures |Run(rs).0| <= ENTRY_MAX
  {
    if rs != [] {
      TableBounded(rs[..|rs| - 1]);
      var t := Run(rs[..|rs| - 1]).0;
      SweepShrinks(t, rs[|rs| - 1].now);
    }
  }

  lemma {:induction false} SweepShrinks(t: Table, now: nat)
    ensures |Sweep(t, now)| <= |t|
  {
    assert Sweep(t, now).Keys <= t.Keys;
    SubsetSize(Sweep(t, now).Keys, t.Keys);
  }
}
