/**
 Admission of SAE commits: which are answered from the cache, which must first prove
 reachability with a token, which are refused while too many exchanges are open, and how
 those that are let in travel through the worker and come back.
 */
module SaeAdmission {
  import opened Common

  type Commit = nat

  const THRESHOLD: nat := 5
  const INCOMPLETE_MAX: nat := 64
  const QUEUE_MAX: nat := 15
  const SAE_TIMEOUT: nat := 5_000

  // What the access point knows of a station's exchange; the commit is the one it answered.
  datatype Exchange = NoExchange | Incomplete(commit: Commit) | Confirmed(commit: Commit)

  // A confirm that arrives before the commit is computed is held; `confirm` says whether it
  // will verify.
  datatype Pending = Pending(id: nat, commit: Commit, queuedAt: nat, confirm: Option<bool>)

  datatype Job = Job(id: nat, sta: Mac, commit: Commit)

  datatype Result = Result(job: Job, complete: bool)

  // Without a worker commits are computed at once. A worker that has stopped is noticed only
  // when its channels are used.
  datatype Worker = NoWorker | Running | Stopped

  // `jobs` is the bounded channel to the worker, `inHand` the job it is computing, `results`
  // the channel back.
  datatype State = State(
    stations: map<Mac, Exchange>, worker: Worker, pending: map<Mac, Pending>, nextId: nat,
    jobs: seq<Job>, inHand: Option<Job>, results: seq<Result>)

  datatype Out = TokenRequested(sta: Mac) | Resent(sta: Mac) | Answered(sta: Mac) | FailureRecorded(sta: Mac)

  datatype Step = Step(s: State, out: seq<Out>)

  function Initial(worker: bool): State {
    State(map[], if worker then Running else NoWorker, map[], 1, [], None, [])
  }

  // ---- counting ------------------------------------------------------------------------------

  function IncompleteStations(s: State): set<Mac> {
    set m | m in s.stations && s.stations[m].Incomplete?
  }

  // The count that admission goes by: a station that is both incomplete and queued counts twice.
  function IncompleteCount(s: State): nat {
    |IncompleteStations(s)| + |s.pending|
  }

  // The addresses with an exchange in progress, each once.
  function Busy(s: State): set<Mac> {
    IncompleteStations(s) + s.pending.Keys
  }

  // ---- a commit arrives ------------------------------------------------------------------------

  datatype Request = Request(sta: Mac, commit: Commit, validToken: bool, credentialFound: bool, computes: bool, now: nat)

  predicate Existing(s: State, sta: Mac) {
    (sta in s.stations && s.stations[sta].Incomplete?) || sta in s.pending
  }

  datatype Admission = Coalesced | FromCache | NeedsToken | InFlight | Rejected | Admitted

  function Admit(s: State, q: Request): Admission {
    if q.sta in s.pending && s.pending[q.sta].commit == q.commit then Coalesced
    else if q.sta in s.stations && s.stations[q.sta] == Incomplete(q.commit) then FromCache
    else if !Existing(s, q.sta) && IncompleteCount(s) >= INCOMPLETE_MAX then NeedsToken
    else if (Existing(s, q.sta) || IncompleteCount(s) >= THRESHOLD) && !q.validToken then NeedsToken
    else if q.sta in s.pending then InFlight
    else if !q.credentialFound then Rejected
    else Admitted
  }

  function Finish(s: State, job: Job, complete: bool): Step {
    if !complete then Step(s, [FailureRecorded(job.sta)])
    else Step(s.(stations := s.stations[job.sta := Incomplete(job.commit)]), [Answered(job.sta)])
  }

  // The worker and everything that is queued is given up.
  function DropWorker(s: State): State {
    s.(worker := NoWorker, pending := map[], jobs := [], inHand := None, results := [])
  }

  // The queue may be full, and the worker may turn out to have stopped.
  function Queue(s: State, q: Request): Step {
    match s.worker
    case NoWorker => Finish(s, Job(0, q.sta, q.commit), q.computes)
    case Stopped => Step(DropWorker(s.(nextId := s.nextId + 1)), [FailureRecorded(q.sta)])
    case Running =>
      var job := Job(s.nextId, q.sta, q.commit);
      var t := s.(nextId := s.nextId + 1);
      if |s.jobs| >= QUEUE_MAX then Step(t, [TokenRequested(q.sta)])
      else Step(t.(jobs := s.jobs + [job], pending := s.pending[q.sta := Pending(job.id, q.commit, q.now, None)]), [])
  }

  function HandleCommit(s: State, q: Request): Step {
    match Admit(s, q)
    case Coalesced => Step(s, [])
    case FromCache => Step(s, [Resent(q.sta)])
    case NeedsToken => Step(s, [TokenRequested(q.sta)])
    case InFlight => Step(s, [])
    case Rejected => Step(s, [FailureRecorded(q.sta)])
    case Admitted => Queue(s, q)
  }

  // ---- the worker and its results -----------------------------------------------------------------

  predicate Matches(s: State, job: Job) {
    job.sta in s.pending && s.pending[job.sta].id == job.id && s.pending[job.sta].commit == job.commit
  }

  function Confirm(s: State, sta: Mac, verifies: bool): State {
    if sta !in s.stations || s.stations[sta].NoExchange? || !verifies then s
    else s.(stations := s.stations[sta := Confirmed(s.stations[sta].commit)])
  }

  // One result is taken; a stale one is dropped. A held confirm follows its commit.
  function TakeResult(s: State): Step
    requires s.results != []
  {
    var r, t := s.results[0], s.(results := s.results[1..]);
    if !Matches(t, r.job) then Step(t, []) else
      var held := t.pending[r.job.sta].confirm;
      var f := Finish(t.(pending := t.pending - {r.job.sta}), r.job, r.complete);
      Step(if r.complete && held.Some? then Confirm(f.s, r.job.sta, held.value) else f.s, f.out)
  }

  function Poll(s: State): Step
    decreases |s.results|
  {
    if s.worker.NoWorker? then Step(s, [])
    else if s.results == [] then Step(if s.worker.Stopped? then DropWorker(s) else s, [])
    else
      var r := TakeResult(s);
      var rest := Poll(r.s);
      Step(rest.s, r.out + rest.out)
  }

  datatype Event =
    | CommitReceived(request: Request)
    | ConfirmReceived(sta: Mac, verifies: bool)
    | WorkerTakes
    | WorkerFinishes(complete: bool)
    | WorkerStops
    | ResultsPolled
    | QueueExpires(now: nat)
    | StationLeaves(sta: Mac)
    | StationJoins(sta: Mac)

  function Handle(s: State, e: Event): Step {
    match e
    case CommitReceived(q) => HandleCommit(s, q)
    case ConfirmReceived(sta, verifies) =>
      if sta in s.pending then Step(s.(pending := s.pending[sta := s.pending[sta].(confirm := Some(verifies))]), [])
      else Step(Confirm(s, sta, verifies), [])
    case WorkerTakes =>
      if s.jobs == [] || s.inHand.Some? then Step(s, []) else Step(s.(jobs := s.jobs[1..], inHand := Some(s.jobs[0])), [])
    case WorkerFinishes(complete) =>
      if s.inHand.None? then Step(s, [])
      else Step(s.(inHand := None, results := s.results + [Result(s.inHand.value, complete)]), [])
    case WorkerStops => Step(if s.worker.Running? then s.(worker := Stopped, jobs := [], inHand := None) else s, [])
    case ResultsPolled => Poll(s)
    case QueueExpires(now) =>
      Step(s.(pending := map m | m in s.pending && now < s.pending[m].queuedAt + SAE_TIMEOUT :: s.pending[m]), [])
    case StationLeaves(sta) => Step(s.(stations := s.stations - {sta}), [])
    case StationJoins(sta) => if sta in s.stations then Step(s, []) else Step(s.(stations := s.stations[sta := NoExchange]), [])
  }

  function Run(s: State, es: seq<Event>): Step {
    if es == [] then Step(s, []) else
      var before := Run(s, es[..|es| - 1]);
      var h := Handle(before.s, es[|es| - 1]);
      Step(h.s, before.out + h.out)
  }

  // ---- the bound -----------------------------------------------------------------------------------

  lemma {:induction false} UnionSize(a: set<Mac>, b: set<Mac>)
    ensures |a + b| <= |a| + |b|
  {
    assert a + b == a + (b - a);
    SubsetSize(b - a, b);
  }

  lemma {:induction false} BusyAtMostCount(s: State)
    ensures |Busy(s)| <= IncompleteCount(s)
  {
    UnionSize(IncompleteStations(s), s.pending.Keys);
    assert |s.pending.Keys| == |s.pending|;
  }

  // An admitted commit is a replacement, or there is room for one more.
  lemma {:induction false} AdmittedFits(s: State, q: Request)
    requires Admit(s, q) == Admitted && |Busy(s)| <= INCOMPLETE_MAX
    ensures |Busy(s) + {q.sta}| <= INCOMPLETE_MAX
  {
    if Existing(s, q.sta) {
      assert Busy(s) + {q.sta} == Busy(s);
    } else {
      BusyAtMostCount(s);
    }
  }

  lemma {:induction false} FinishBusy(s: State, job: Job, complete: bool)
    ensures Busy(Finish(s, job, complete).s) <= Busy(s) + {job.sta}
  {
  }

  lemma {:induction false} TakeBusy(s: State)
    requires s.results != []
    ensures Busy(TakeResult(s).s) <= Busy(s)
  {
    var r, t := s.results[0], s.(results := s.results[1..]);
    if Matches(t, r.job) {
      FinishBusy(t.(pending := t.pending - {r.job.sta}), r.job, r.complete);
      assert r.job.sta in Busy(s);
      assert Busy(t.(pending := t.pending - {r.job.sta})) <= Busy(s);
    }
  }

  lemma {:induction false} PollBusy(s: State)
    ensures Busy(Poll(s).s) <= Busy(s)
    decreases |s.results|
  {
    if !s.worker.NoWorker? && s.results != [] {
      TakeBusy(s);
      PollBusy(TakeResult(s).s);
    }
  }

  lemma {:induction false} QueueBusy(s: State, q: Request)
    ensures Busy(Queue(s, q).s) <= Busy(s) + {q.sta}
  {
    FinishBusy(s, Job(0, q.sta, q.commit), q.computes);
  }

  lemma {:induction false} CommitBusy(s: State, q: Request)
    ensures Busy(HandleCommit(s, q).s) <= if Admit(s, q) == Admitted then Busy(s) + {q.sta} else Busy(s)
  {
    hide Busy, Queue, Admit;
    QueueBusy(s, q);
  }

  lemma {:induction false} HandleKeepsBound(s: State, e: Event)
    requires |Busy(s)| <= INCOMPLETE_MAX
    ensures |Busy(Handle(s, e).s)| <= INCOMPLETE_MAX
  {
    var t := Handle(s, e).s;
    if e.CommitReceived? {
      CommitBusy(s, e.request);
      if Admit(s, e.request) == Admitted {
        AdmittedFits(s, e.request);
        SubsetSize(Busy(t), Busy(s) + {e.request.sta});
      } else {
        SubsetSize(Busy(t), Busy(s));
      }
    } else {
      if e.ResultsPolled? {
        PollBusy(s);
      }
      assert Busy(t) <= Busy(s);
      SubsetSize(Busy(t), Busy(s));
    }
  }

  // In every reachable state, under any interleaving, at most INCOMPLETE_MAX addresses have an
  // exchange in progress, and the double count is at most twice that.
  lemma {:induction false} AdmissionBound(worker: bool, es: seq<Event>)
    ensures |Busy(Run(Initial(worker), es).s)| <= INCOMPLETE_MAX
    ensures IncompleteCount(Run(Initial(worker), es).s) <= 2 * INCOMPLETE_MAX
  {
    var s := Run(Initial(worker), es).s;
    if es == [] {
      assert Busy(s) == {};
    } else {
      AdmissionBound(worker, es[..|es| - 1]);
      hide Handle, Busy;
      HandleKeepsBound(Run(Initial(worker), es[..|es| - 1]).s, es[|es| - 1]);
    }
    SubsetSize(IncompleteStations(s), Busy(s));
    SubsetSize(s.pending.Keys, Busy(s));
    assert |s.pending.Keys| == |s.pending|;
  }

  // ---- nothing queued is lost ---------------------------------------------------------------------------

  // Every job on its way: waiting, being computed, or computed.
  function Pipeline(s: State): set<Job> {
    (set i | 0 <= i < |s.jobs| :: s.jobs[i])
    + (if s.inHand.Some? then {s.inHand.value} else {})
    + (set i | 0 <= i < |s.results| :: s.results[i].job)
  }

  ghost predicate Inv(s: State) {
    && |s.jobs| <= QUEUE_MAX
    && (forall j :: j in Pipeline(s) ==> j.id < s.nextId)
    && (s.worker.Running? ==>
          forall m :: m in s.pending ==> Job(s.pending[m].id, m, s.pending[m].commit) in Pipeline(s))
    && (s.worker.NoWorker? ==> s.pending == map[] && Pipeline(s) == {})
  }

  lemma {:induction false} InPipeline(s: State, j: Job)
    ensures j in Pipeline(s) <==> j in s.jobs || s.inHand == Some(j) || exists r :: r in s.results && r.job == j
  {
    if j in s.jobs {
      var i :| 0 <= i < |s.jobs| && s.jobs[i] == j;
    }
    if r :| r in s.results && r.job == j {
      var i :| 0 <= i < |s.results| && s.results[i] == r;
    }
  }

  lemma {:induction false} TakeKeeps(s: State)
    requires Inv(s) && s.results != [] && !s.worker.NoWorker?
    ensures Inv(TakeResult(s).s)
  {
    var t := TakeResult(s).s;
    assert s.results == [s.results[0]] + t.results;
    forall m | s.worker.Running? && m in t.pending
      ensures Job(t.pending[m].id, m, t.pending[m].commit) in Pipeline(t)
    {
      var j := Job(s.pending[m].id, m, s.pending[m].commit);
      InPipeline(s, j);
      InPipeline(t, j);
      assert j != s.results[0].job;
    }
    forall j | j in Pipeline(t) ensures j.id < t.nextId {
      InPipeline(s, j);
      InPipeline(t, j);
    }
  }

  lemma {:induction false} PollKeeps(s: State)
    requires Inv(s)
    ensures Inv(Poll(s).s)
    decreases |s.results|
  {
    if !s.worker.NoWorker? && s.results != [] {
      TakeKeeps(s);
      hide Inv;
      PollKeeps(TakeResult(s).s);
    }
  }

  lemma {:induction false} EnqueueKeeps(s: State, q: Request)
    requires Inv(s) && s.worker.Running? && |s.jobs| < QUEUE_MAX
    ensures Inv(Queue(s, q).s)
  {
    var t := Queue(s, q).s;
    var job := Job(s.nextId, q.sta, q.commit);
    forall j ensures j in Pipeline(t) <==> j in Pipeline(s) || j == job {
      InPipeline(s, j);
      InPipeline(t, j);
    }
    hide Pipeline;
  }

  lemma {:induction false} QueueKeeps(s: State, q: Request)
    requires Inv(s)
    ensures Inv(Queue(s, q).s)
  {
    if s.worker.Running? && |s.jobs| < QUEUE_MAX {
      EnqueueKeeps(s, q);
    } else {
      assert s.worker.Stopped? || Pipeline(Queue(s, q).s) == Pipeline(s);
    }
  }

  lemma {:induction false} WorkerKeeps(s: State, e: Event)
    requires Inv(s) && (e.WorkerTakes? || e.WorkerFinishes?)
    ensures Inv(Handle(s, e).s)
  {
    var t := Handle(s, e).s;
    if e.WorkerTakes? && t != s {
      assert s.jobs == [s.jobs[0]] + t.jobs;
    }
    forall j ensures j in Pipeline(t) <==> j in Pipeline(s) {
      InPipeline(s, j);
      InPipeline(t, j);
      if e.WorkerFinishes? && s.inHand == Some(j) {
        assert Result(j, e.complete) in t.results;
      }
    }
    assert Pipeline(t) == Pipeline(s);
  }

  lemma {:induction false} OthersKeep(s: State, e: Event)
    requires Inv(s) && !e.CommitReceived? && !e.WorkerTakes? && !e.WorkerFinishes? && !e.ResultsPolled?
    ensures Inv(Handle(s, e).s)
  {
    var t := Handle(s, e).s;
    if e.WorkerStops? {
      forall j | j in Pipeline(t) ensures j in Pipeline(s) {
        InPipeline(s, j);
        InPipeline(t, j);
      }
    } else {
      assert Pipeline(t) == Pipeline(s);
    }
    hide Pipeline;
  }

  lemma {:induction false} HandleKeeps(s: State, e: Event)
    requires Inv(s)
    ensures Inv(Handle(s, e).s)
  {
    hide Inv, Queue, Poll, Admit;
    match e {
      case CommitReceived(q) => QueueKeeps(s, q);
      case WorkerTakes => WorkerKeeps(s, e);
      case WorkerFinishes(_) => WorkerKeeps(s, e);
      case ResultsPolled => PollKeeps(s);
      case _ => OthersKeep(s, e);
    }
  }

  // Over any run, while the worker runs every queued commit has its job on the way, with the
  // identifier that its result will be recognized by, and the channel to the worker stays
  // within its bound; without a worker nothing is queued.
  lemma {:induction false} NothingQueuedIsLost(worker: bool, es: seq<Event>)
    ensures Inv(Run(Initial(worker), es).s)
  {
    if es == [] {
      assert Pipeline(Initial(worker)) == {};
    } else {
      NothingQueuedIsLost(worker, es[..|es| - 1]);
      hide Inv, Handle;
      HandleKeeps(Run(Initial(worker), es[..|es| - 1]).s, es[|es| - 1]);
    }
  }

  // A worker that has stopped is given up by the next poll, once its last results are taken.
  lemma {:induction false} StoppedIsNoticed(s: State)
    requires s.worker.Stopped?
    ensures Poll(s).s.worker.NoWorker? && Poll(s).s.pending == map[]
    decreases |s.results|
  {
    if s.results != [] {
      StoppedIsNoticed(TakeResult(s).s);
    }
  }

  // A confirm that overtakes its commit has the effect it would have had after it.
  lemma {:induction false} EarlyConfirmApplies(s: State, verifies: bool)
    requires s.results != [] && s.results[0].complete && Matches(s, s.results[0].job)
    requires s.pending[s.results[0].job.sta].confirm.None?
    ensures var sta := s.results[0].job.sta;
            TakeResult(Handle(s, ConfirmReceived(sta, verifies)).s)
            == Step(Confirm(TakeResult(s).s, sta, verifies), TakeResult(s).out)
  {
    var sta := s.results[0].job.sta;
    var t := Handle(s, ConfirmReceived(sta, verifies)).s;
    assert t.pending - {sta} == s.pending - {sta};
  }

  // A result whose commit has expired or been replaced changes nothing but the channel.
  lemma {:induction false} StaleResultIgnored(s: State)
    requires s.results != [] && !Matches(s, s.results[0].job)
    ensures TakeResult(s) == Step(s.(results := s.results[1..]), [])
  {
  }

  // ---- polling one result at a time -----------------------------------------------------------------------

  function After(out: seq<Out>, t: Step): Step {
    Step(t.s, out + t.out)
  }

  lemma {:induction false} AfterNothing(t: Step)
    ensures After([], t) == t
  {
    assert [] + t.out == t.out;
  }

  lemma {:induction false} AfterAll(out: seq<Out>, s: State)
    ensures After(out, Step(s, [])) == Step(s, out)
  {
    assert out + [] == out;
  }

  lemma {:induction false} AfterTwice(a: seq<Out>, b: seq<Out>, t: Step)
    ensures After(a, After(b, t)) == After(a + b, t)
  {
    assert a + (b + t.out) == a + b + t.out;
  }

  lemma {:induction false} PollStep(s: State)
    ensures s.worker.NoWorker? ==> Poll(s) == Step(s, [])
    ensures !s.worker.NoWorker? && s.results == [] ==> Poll(s) == Step(if s.worker.Stopped? then DropWorker(s) else s, [])
    ensures !s.worker.NoWorker? && s.results != [] ==> Poll(s) == After(TakeResult(s).out, Poll(TakeResult(s).s))
  {
    hide TakeResult;
  }

  // ---- the admission as an object ------------------------------------------------------------------------

  class SaeWorker {
    var stations: map<Mac, Exchange>
    var worker: Worker
    var pending: map<Mac, Pending>
    var nextId: nat
    var jobs: seq<Job>
    var inHand: Option<Job>
    var results: seq<Result>

    ghost function View(): State
      reads this
    {
      State(stations, worker, pending, nextId, jobs, inHand, results)
    }

    method FinishSaeCommit(job: Job, complete: bool) returns (out: seq<Out>)
      modifies this`stations
      ensures Step(View(), out) == Finish(old(View()), job, complete)
    {
      if !complete {
        return [FailureRecorded(job.sta)];
      }
      stations := stations[job.sta := Incomplete(job.commit)];
      out := [Answered(job.sta)];
    }

    method QueueSaeCommit(q: Request) returns (out: seq<Out>)
      modifies this
      ensures Step(View(), out) == Queue(old(View()), q)
    {
      if worker.NoWorker? {
        out := FinishSaeCommit(Job(0, q.sta, q.commit), q.computes);
        return;
      }
      var job := Job(nextId, q.sta, q.commit);
      nextId := nextId + 1;
      if worker.Stopped? {
        GiveUpWorker();
        return [FailureRecorded(q.sta)];
      }
      if |jobs| >= QUEUE_MAX {
        return [TokenRequested(q.sta)];
      }
      jobs := jobs + [job];
      pending := pending[q.sta := Pending(job.id, q.commit, q.now, None)];
      out := [];
    }

    method GiveUpWorker()
      modifies this
      ensures View() == DropWorker(old(View()))
    {
      worker, pending := NoWorker, map[];
      jobs, inHand, results := [], None, [];
    }

    method FinishSaeConfirm(sta: Mac, verifies: bool)
      modifies this`stations
      ensures View() == Confirm(old(View()), sta, verifies)
    {
      if sta in stations && !stations[sta].NoExchange? && verifies {
        stations := stations[sta := Confirmed(stations[sta].commit)];
      }
    }

    method HandleSaeCommit(q: Request) returns (out: seq<Out>)
      modifies this
      ensures Step(View(), out) == HandleCommit(old(View()), q)
    {
      hide Queue;
      if q.sta in pending && pending[q.sta].commit == q.commit {
        return [];
      }
      if q.sta in stations && stations[q.sta] == Incomplete(q.commit) {
        return [Resent(q.sta)];
      }
      var incomplete := set m | m in stations && stations[m].Incomplete?;
      assert incomplete == IncompleteStations(View());
      var count := |incomplete| + |pending|;
      var existing := (q.sta in stations && stations[q.sta].Incomplete?) || q.sta in pending;
      if !existing && count >= INCOMPLETE_MAX {
        return [TokenRequested(q.sta)];
      }
      if (existing || count >= THRESHOLD) && !q.validToken {
        return [TokenRequested(q.sta)];
      }
      if q.sta in pending {
        return [];
      }
      if !q.credentialFound {
        return [FailureRecorded(q.sta)];
      }
      out := QueueSaeCommit(q);
    }

    method TakeOne() returns (out: seq<Out>)
      requires results != []
      modifies this
      ensures Step(View(), out) == TakeResult(old(View()))
    {
      var r := results[0];
      results := results[1..];
      if r.job.sta !in pending || pending[r.job.sta].id != r.job.id || pending[r.job.sta].commit != r.job.commit {
        return [];
      }
      var held := pending[r.job.sta].confirm;
      pending := pending - {r.job.sta};
      out := FinishSaeCommit(r.job, r.complete);
      if r.complete && held.Some? {
        FinishSaeConfirm(r.job.sta, held.value);
      }
    }

    method PollSaeWork() returns (out: seq<Out>)
      modifies this
      ensures Step(View(), out) == Poll(old(View()))
    {
      hide Poll, TakeResult, After;
      out := [];
      ghost var start := View();
      AfterNothing(Poll(start));
      while !worker.NoWorker?
        invariant Poll(start) == After(out, Poll(View()))
        decreases !worker.NoWorker?, |results|
      {
        PollStep(View());
        if results == [] {
          AfterAll(out, View());
          AfterAll(out, DropWorker(View()));
          if worker.Stopped? {
            GiveUpWorker();
          }
          return;
        }
        ResultsShrink(View());
        var finished := TakeOne();
        AfterTwice(out, finished, Poll(View()));
        out := out + finished;
      }
      PollStep(View());
      AfterAll(out, View());
    }

    lemma {:induction false} ResultsShrink(s: State)
      requires s.results != []
      ensures |TakeResult(s).s.results| < |s.results| && TakeResult(s).s.worker == s.worker
    {
    }
  }
}
