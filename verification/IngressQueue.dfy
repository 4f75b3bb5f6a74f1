/** The ingress queue with its workers, and the jobs they run. */
module IngressQueue {
  import opened Wrappers

  type JobId = nat

  /** What is on the queue: a job, or the end marker that stop puts there once per worker. */
  datatype Item = Job(id: JobId) | Marker

  /** Where a worker stands. */
  datatype Worker =
    | Waiting                    // in queue.get
    | Handling(job: JobId)       // in the handler, which is run_event
    | Recovering(job: JobId)     // in the failure handler, which is mark_failed
    | Exited                     // took a marker and returned

  datatype JobStatus = Queued | Running | Finished | Failed

  /** `enqueued` and `dequeued` are the histories of jobs put on and taken off the queue; `stops`
      counts the calls of stop since the workers were started and `stopAt` says how many jobs were
      enqueued when the first of them came. */
  datatype System = System(
    queue: seq<Item>, workers: seq<Worker>, stops: nat, stopAt: nat,
    enqueued: seq<JobId>, dequeued: seq<JobId>,
    status: map<JobId, JobStatus>, okCount: nat, failCount: nat)

  const INIT := System([], [], 0, 0, [], [], map[], 0, 0)

  datatype Step =
    | Start(workers: int)
    | Submit(job: JobId)
    | Get(worker: nat)
    | HandlerReturns(worker: nat, ok: bool)
    | HandlerRaises(worker: nat)
    | FailureMarked(worker: nat)
    | Stop
    | StopReturns

  function Repeat(n: nat): seq<Item> { seq(n, _ => Marker) }

  function WorkersFor(n: int): nat { if n < 1 then 1 else n }

  predicate AllExited(s: System) { forall i :: 0 <= i < |s.workers| ==> s.workers[i].Exited? }

  predicate Enabled(s: System, step: Step) {
    match step
    case Start(n) => true
    case Submit(j) => j !in s.status
    case Get(w) => w < |s.workers| && s.workers[w].Waiting? && s.queue != []
    case HandlerReturns(w, ok) => w < |s.workers| && s.workers[w].Handling?
    case HandlerRaises(w) => w < |s.workers| && s.workers[w].Handling?
    case FailureMarked(w) => w < |s.workers| && s.workers[w].Recovering?
    case Stop => true
    case StopReturns => s.stops > 0 && AllExited(s)
  }

  function Next(s: System, step: Step): System
    requires Enabled(s, step)
  {
    match step
    case Start(n) =>
      if s.workers != [] then s
      else s.(workers := seq(WorkersFor(n), _ => Waiting), stops := 0, stopAt := 0)
    case Submit(j) =>
      s.(queue := s.queue + [Job(j)], enqueued := s.enqueued + [j], status := s.status[j := Queued])
    case Get(w) =>
      var s1 := s.(queue := s.queue[1..]);
      if s.queue[0].Marker? then s1.(workers := s.workers[w := Exited])
      else
        var j := s.queue[0].id;
        s1.(workers := s.workers[w := Handling(j)], dequeued := s.dequeued + [j], status := s.status[j := Running])
    case HandlerReturns(w, ok) =>
      var j := s.workers[w].job;
      s.(workers := s.workers[w := Waiting], status := s.status[j := if ok then Finished else Failed],
         okCount := s.okCount + (if ok then 1 else 0), failCount := s.failCount + (if ok then 0 else 1))
    case HandlerRaises(w) => s.(workers := s.workers[w := Recovering(s.workers[w].job)])
    case FailureMarked(w) =>
      s.(workers := s.workers[w := Waiting], status := s.status[s.workers[w].job := Failed],
        failCount := s.failCount + 1)
    case Stop =>
      if s.workers == [] then s
      else s.(queue := s.queue + Repeat(|s.workers|), stops := s.stops + 1,
              stopAt := if s.stops == 0 then |s.enqueued| else s.stopAt)
    case StopReturns => s.(workers := [], stops := 0)
  }

  function Taken(s: System, step: Step): System { if Enabled(s, step) then Next(s, step) else s }

  function Run(steps: seq<Step>): System {
    if steps == [] then INIT else Taken(Run(steps[..|steps| - 1]), steps[|steps| - 1])
  }

  // ---- counting ----

  function Jobs(queue: seq<Item>): seq<JobId> {
    if queue == [] then []
    else
      var x := queue[|queue| - 1];
      Jobs(queue[..|queue| - 1]) + (if x.Job? then [x.id] else [])
  }

  function Markers(queue: seq<Item>): nat {
    if queue == [] then 0 else Markers(queue[..|queue| - 1]) + (if queue[|queue| - 1].Marker? then 1 else 0)
  }

  function ExitedCount(workers: seq<Worker>): (n: nat)
    ensures n <= |workers|
    ensures n == |workers| <==> forall i :: 0 <= i < |workers| ==> workers[i].Exited?
  {
    if workers == [] then 0
    else
      var rest := workers[..|workers| - 1];
      assert forall i :: 0 <= i < |rest| ==> rest[i] == workers[i];
      ExitedCount(rest) + (if workers[|workers| - 1].Exited? then 1 else 0)
  }

  lemma {:induction false} QueueAppend(a: seq<Item>, b: seq<Item>)
    ensures Jobs(a + b) == Jobs(a) + Jobs(b) && Markers(a + b) == Markers(a) + Markers(b)
  {
    if b == [] {
      assert a + b == a;
    } else {
      assert (a + b)[..|a + b| - 1] == a + b[..|b| - 1];
      QueueAppend(a, b[..|b| - 1]);
    }
  }

  lemma QueueHead(queue: seq<Item>)
    requires queue != []
    ensures Jobs(queue) == (if queue[0].Job? then [queue[0].id] else []) + Jobs(queue[1..])
    ensures Markers(queue) == (if queue[0].Marker? then 1 else 0) + Markers(queue[1..])
  {
    assert queue == [queue[0]] + queue[1..];
    One(queue[0]);
    hide Jobs, Markers;
    QueueAppend([queue[0]], queue[1..]);
  }

  lemma One(x: Item)
    ensures Jobs([x]) == (if x.Job? then [x.id] else []) && Markers([x]) == (if x.Marker? then 1 else 0)
  {
    assert [x][..0] == [];
  }

  lemma {:induction false} RepeatCounts(n: nat)
    ensures Jobs(Repeat(n)) == [] && Markers(Repeat(n)) == n
  {
    if n > 0 {
      RepeatCounts(n - 1);
      assert Repeat(n)[..n - 1] == Repeat(n - 1);
    }
  }

  lemma {:induction false} ExitedUpdate(workers: seq<Worker>, w: nat, x: Worker)
    requires w < |workers|
    ensures ExitedCount(workers[w := x]) ==
            ExitedCount(workers) - (if workers[w].Exited? then 1 else 0) + (if x.Exited? then 1 else 0)
  {
    var n := |workers| - 1;
    if w < n {
      assert workers[w := x][..n] == workers[..n][w := x];
      ExitedUpdate(workers[..n], w, x);
    } else {
      assert workers[w := x][..n] == workers[..n];
    }
  }

  // ---- the queue ----

  /** How many markers that many calls of stop put. */
  function PutBy(stops: nat, workers: nat): nat { if stops == 0 then 0 else PutBy(stops - 1, workers) + workers }

  /** Jobs come off in the order they were put on.  Markers are put on once per worker and stop,
      and each exit took one.  While a stop is pending, the jobs from before its call are first in
      the queue, and the markers that are left of it come right behind them. */
  ghost predicate QueueInv(s: System) {
    && s.enqueued == s.dequeued + Jobs(s.queue)
    && Markers(s.queue) + ExitedCount(s.workers) == PutBy(s.stops, |s.workers|)
    && (s.stops > 0 ==>
          var ahead, left := s.stopAt - |s.dequeued|, |s.workers| - ExitedCount(s.workers);
          && s.workers != [] && 0 <= ahead && s.stopAt <= |s.enqueued| && ahead + left <= |s.queue|
          && (ExitedCount(s.workers) > 0 ==> ahead == 0)
          && (forall i :: 0 <= i < ahead ==> s.queue[i].Job?)
          && (forall i :: ahead <= i < ahead + left ==> s.queue[i].Marker?))
  }

  lemma InitQueue()
    ensures QueueInv(INIT)
  {
  }

  lemma StartKeeps(s: System, n: int)
    requires QueueInv(s)
    ensures QueueInv(Next(s, Start(n)))
  {
    var s' := Next(s, Start(n));
    if s.workers == [] { NoneExited(s'.workers); }
  }

  lemma {:induction false} NoneExited(workers: seq<Worker>)
    requires forall i :: 0 <= i < |workers| ==> !workers[i].Exited?
    ensures ExitedCount(workers) == 0
  {
    if workers != [] { NoneExited(workers[..|workers| - 1]); }
  }

  lemma SubmitKeeps(s: System, j: JobId)
    requires QueueInv(s) && Enabled(s, Submit(j))
    ensures QueueInv(Next(s, Submit(j)))
  {
    hide Jobs, Markers;
    QueueAppend(s.queue, [Job(j)]);
    One(Job(j));
  }

  lemma StopKeeps(s: System)
    requires QueueInv(s)
    ensures QueueInv(Next(s, Stop))
  {
    var n := |s.workers|;
    if n > 0 {
      assert |Repeat(n)| == n && forall i :: 0 <= i < n ==> Repeat(n)[i] == Marker;
      hide Jobs, Markers, ExitedCount, Repeat;
      var s' := Next(s, Stop);
      QueueAppend(s.queue, Repeat(n));
      RepeatCounts(n);
      assert PutBy(s'.stops, n) == PutBy(s.stops, n) + n;
      assert s.dequeued + (Jobs(s.queue) + []) == s.dequeued + Jobs(s.queue);
      if s.stops == 0 {
        NoMarkers(s.queue);
        JobsCounted(s.queue);
      }
    }
  }

  lemma {:induction false} NoMarkers(queue: seq<Item>)
    requires Markers(queue) == 0
    ensures forall i :: 0 <= i < |queue| ==> queue[i].Job?
  {
    if queue != [] { NoMarkers(queue[..|queue| - 1]); }
  }

  lemma JobTakenKeeps(s: System, w: nat)
    requires QueueInv(s) && Enabled(s, Get(w)) && s.queue[0].Job?
    ensures QueueInv(Next(s, Get(w)))
  {
    hide Jobs, Markers, ExitedCount, PutBy;
    var s' := Next(s, Get(w));
    QueueHead(s.queue);
    ExitedUpdate(s.workers, w, s'.workers[w]);
    assert forall i :: 0 <= i < |s'.queue| ==> s'.queue[i] == s.queue[i + 1];
    assert s.dequeued + ([s.queue[0].id] + Jobs(s'.queue)) == s'.dequeued + Jobs(s'.queue);
  }

  lemma MarkerTakenKeeps(s: System, w: nat)
    requires QueueInv(s) && Enabled(s, Get(w)) && s.queue[0].Marker?
    ensures QueueInv(Next(s, Get(w)))
  {
    hide Jobs, Markers, PutBy;
    var s' := Next(s, Get(w));
    QueueHead(s.queue);
    ExitedUpdate(s.workers, w, Exited);
    assert forall i :: 0 <= i < |s'.queue| ==> s'.queue[i] == s.queue[i + 1];
    assert Jobs(s.queue) == Jobs(s'.queue);
  }

  lemma WorkerKeeps(s: System, s': System, w: nat)
    requires QueueInv(s) && w < |s.workers| && !s.workers[w].Exited?
    requires |s'.workers| == |s.workers| && s'.workers == s.workers[w := s'.workers[w]] && !s'.workers[w].Exited?
    requires s'.queue == s.queue && s'.enqueued == s.enqueued && s'.dequeued == s.dequeued
    requires s'.stops == s.stops && s'.stopAt == s.stopAt
    ensures QueueInv(s')
  {
    ExitedUpdate(s.workers, w, s'.workers[w]);
  }

  /** Every step keeps the order, except a return of stop that was called more than once. */
  lemma StepKeepsQueue(s: System, step: Step)
    requires QueueInv(s) && Enabled(s, step) && (step.StopReturns? ==> s.stops <= 1)
    ensures QueueInv(Next(s, step))
  {
    match step {
      case Start(n) => StartKeeps(s, n);
      case Submit(j) => SubmitKeeps(s, j);
      case Get(w) => if s.queue[0].Job? { JobTakenKeeps(s, w); } else { MarkerTakenKeeps(s, w); }
      case HandlerReturns(w, ok) => WorkerKeeps(s, Next(s, step), w);
      case HandlerRaises(w) => WorkerKeeps(s, Next(s, step), w);
      case FailureMarked(w) => WorkerKeeps(s, Next(s, step), w);
      case Stop => StopKeeps(s);
      case StopReturns => ReturnFacts(s);
    }
  }

  /** What a pending stop leaves when it returns: all that was enqueued before it was taken off,
      nothing else was, each worker took one marker, and the markers of further calls stay behind. */
  lemma ReturnFacts(s: System)
    requires QueueInv(s) && Enabled(s, StopReturns)
    ensures s.stopAt <= |s.enqueued| && s.dequeued == s.enqueued[..s.stopAt] && Jobs(s.queue) == s.enqueued[s.stopAt..]
    ensures ExitedCount(s.workers) == |s.workers| > 0 && Markers(s.queue) == PutBy(s.stops - 1, |s.workers|)
    ensures QueueInv(Next(s, StopReturns)) <==> s.stops == 1
  {
    assert s.stops > 1 ==> PutBy(s.stops - 1, |s.workers|) >= |s.workers|;
  }

  // ---- the jobs ----

  predicate Holds(x: Worker, j: JobId) { (x.Handling? || x.Recovering?) && x.job == j }

  function WithStatus(s: System, st: JobStatus): set<JobId> { set j | j in s.status && s.status[j] == st }

  ghost predicate Held(s: System, j: JobId) { exists w :: 0 <= w < |s.workers| && Holds(s.workers[w], j) }

  /** Job identifiers are new when they are submitted, and a job is QUEUED exactly while it is on
      the queue. */
  ghost predicate IdsInv(s: System) {
    && Distinct(s.enqueued) && (forall j :: j in s.status <==> j in s.enqueued)
    && (forall j :: j in s.status ==> (s.status[j] == Queued <==> j in Jobs(s.queue)))
  }

  predicate HoldersDiffer(workers: seq<Worker>) {
    forall v, w :: 0 <= v < w < |workers| && (workers[v].Handling? || workers[v].Recovering?) ==>
      !Holds(workers[w], workers[v].job)
  }

  /** A job is RUNNING exactly while a worker has it, and one worker only. */
  ghost predicate HeldInv(s: System) {
    && (forall j {:trigger Held(s, j)} :: Held(s, j) <==> j in s.status && s.status[j] == Running)
    && HoldersDiffer(s.workers)
  }

  /** The counters count the finished and the failed jobs. */
  predicate CountInv(s: System) {
    s.okCount == |WithStatus(s, Finished)| && s.failCount == |WithStatus(s, Failed)|
  }

  ghost predicate JobInv(s: System) { IdsInv(s) && HeldInv(s) && CountInv(s) }

  lemma InitJobs()
    ensures JobInv(INIT)
  {
    assert WithStatus(INIT, Finished) == {} && WithStatus(INIT, Failed) == {};
  }

  lemma IdsSame(s: System, s': System)
    requires IdsInv(s) && s'.enqueued == s.enqueued && Jobs(s'.queue) == Jobs(s.queue)
               && s'.status.Keys == s.status.Keys
    requires forall j :: j in s.status ==> (s'.status[j] == Queued <==> s.status[j] == Queued)
    ensures IdsInv(s')
  {
  }

  predicate StatusIs(s: System, j: JobId, st: JobStatus) { j in s.status && s.status[j] == st }

  lemma CountsSame(s: System, s': System)
    requires CountInv(s) && s'.okCount == s.okCount && s'.failCount == s.failCount
    requires forall j :: StatusIs(s', j, Finished) <==> StatusIs(s, j, Finished)
    requires forall j :: StatusIs(s', j, Failed) <==> StatusIs(s, j, Failed)
    ensures CountInv(s')
  {
    forall j ensures j in WithStatus(s', Finished) <==> j in WithStatus(s, Finished) {
      assert StatusIs(s', j, Finished) <==> StatusIs(s, j, Finished);
    }
    forall j ensures j in WithStatus(s', Failed) <==> j in WithStatus(s, Failed) {
      assert StatusIs(s', j, Failed) <==> StatusIs(s, j, Failed);
    }
    assert WithStatus(s', Finished) == WithStatus(s, Finished) && WithStatus(s', Failed) == WithStatus(s, Failed);
  }

  /** Neither the jobs nor what the workers hold changed. */
  lemma JobsSame(s: System, s': System)
    requires JobInv(s) && s'.enqueued == s.enqueued && s'.status == s.status && Jobs(s'.queue) == Jobs(s.queue)
    requires (forall j :: Held(s', j) <==> Held(s, j)) && HoldersDiffer(s'.workers)
    requires s'.okCount == s.okCount && s'.failCount == s.failCount
    ensures JobInv(s')
  {
    IdsSame(s, s');
    CountsSame(s, s');
  }

  lemma SnocDistinct(js: seq<JobId>, j: JobId)
    requires Distinct(js) && j !in js
    ensures Distinct(js + [j])
  {
  }

  lemma SubmitIds(s: System, j: JobId)
    requires IdsInv(s) && j !in s.status
    ensures IdsInv(Next(s, Submit(j)))
  {
    hide Jobs;
    One(Job(j));
    QueueAppend(s.queue, [Job(j)]);
    assert j !in s.enqueued;
    SnocDistinct(s.enqueued, j);
    hide Distinct;
  }

  lemma SubmitJobs(s: System, j: JobId)
    requires JobInv(s) && Enabled(s, Submit(j))
    ensures JobInv(Next(s, Submit(j)))
  {
    var s' := Next(s, Submit(j));
    SubmitIds(s, j);
    assert !Held(s, j);
    forall x ensures Held(s', x) <==> Held(s, x) {}
    CountsSame(s, s');
  }

  /** What a worker holds after its entry changed. */
  lemma HeldAfter(s: System, s': System, w: nat, x: JobId)
    requires w < |s.workers| == |s'.workers| && s'.workers == s.workers[w := s'.workers[w]] && HoldersDiffer(s.workers)
    ensures Held(s', x) <==> (Held(s, x) && !Holds(s.workers[w], x)) || Holds(s'.workers[w], x)
  {
    if Held(s, x) {
      var v :| 0 <= v < |s.workers| && Holds(s.workers[v], x);
      if v != w { assert Holds(s'.workers[v], x); }
    }
    if Held(s', x) {
      var v :| 0 <= v < |s'.workers| && Holds(s'.workers[v], x);
      if v != w { assert Holds(s.workers[v], x); }
    }
  }

  lemma StillDiffer(s: System, s': System, w: nat)
    requires w < |s.workers| == |s'.workers| && s'.workers == s.workers[w := s'.workers[w]] && HoldersDiffer(s.workers)
    requires forall j :: Holds(s'.workers[w], j) ==> Holds(s.workers[w], j) || !Held(s, j)
    ensures HoldersDiffer(s'.workers)
  {
    forall u, v | 0 <= u < v < |s'.workers| && (s'.workers[u].Handling? || s'.workers[u].Recovering?)
      ensures !Holds(s'.workers[v], s'.workers[u].job)
    {
      var j := s'.workers[u].job;
      if Holds(s'.workers[v], j) {
        var other := if u == w then v else u;
        assert Holds(s.workers[other], j) && Held(s, j);
      }
    }
  }

  ghost predicate Apart(a: seq<JobId>, b: seq<JobId>) { forall j :: j in a ==> j !in b }

  lemma DistinctParts(a: seq<JobId>, b: seq<JobId>)
    requires Distinct(a + b)
    ensures Apart(a, b) && Distinct(a) && Distinct(b)
  {
    var all := a + b;
    forall j | j in a ensures j !in b {
      var x :| 0 <= x < |a| && a[x] == j;
      forall y | 0 <= y < |b| ensures b[y] != j { assert all[x] == j && all[|a| + y] == b[y]; }
    }
    forall x, y | 0 <= x < y < |a| ensures a[x] != a[y] { assert all[x] == a[x] && all[y] == a[y]; }
    forall x, y | 0 <= x < y < |b| ensures b[x] != b[y] { assert all[|a| + x] == b[x] && all[|a| + y] == b[y]; }
  }

  lemma GetOrder(s: System)
    requires QueueInv(s) && s.queue != [] && s.queue[0].Job?
    ensures var j, rest := s.queue[0].id, Jobs(s.queue[1..]);
            Jobs(s.queue) == [j] + rest && s.enqueued == (s.dequeued + [j]) + rest
  {
    QueueHead(s.queue);
  }

  lemma GetIds(s: System, w: nat)
    requires QueueInv(s) && IdsInv(s) && Enabled(s, Get(w)) && s.queue[0].Job?
    ensures IdsInv(Next(s, Get(w)))
    ensures s.queue[0].id in s.status && s.status[s.queue[0].id] == Queued
  {
    hide QueueInv, Jobs;
    var j, rest := s.queue[0].id, Jobs(s.queue[1..]);
    GetOrder(s);
    DistinctParts(s.dequeued + [j], rest);
    assert (s.dequeued + [j])[|s.dequeued|] == j;
    assert j in s.enqueued && j in Jobs(s.queue) && j !in rest;
    forall x | x in s.status && x != j ensures s.status[x] == Queued <==> x in rest {
      assert x in [j] + rest <==> x in rest;
    }
  }

  lemma GetJobs(s: System, w: nat)
    requires QueueInv(s) && JobInv(s) && Enabled(s, Get(w)) && s.queue[0].Job?
    ensures JobInv(Next(s, Get(w)))
  {
    hide QueueInv, IdsInv;
    var s', j := Next(s, Get(w)), s.queue[0].id;
    GetIds(s, w);
    assert !Held(s, j);
    forall x ensures Held(s', x) <==> Held(s, x) || x == j { HeldAfter(s, s', w, x); }
    StillDiffer(s, s', w);
    CountsSame(s, s');
  }

  lemma CountDone(s: System, s': System, j: JobId, ok: bool)
    requires CountInv(s) && j in s.status && s.status[j] == Running
    requires s'.status == s.status[j := if ok then Finished else Failed]
    requires s'.okCount == s.okCount + (if ok then 1 else 0) && s'.failCount == s.failCount + (if ok then 0 else 1)
    ensures CountInv(s')
  {
    var st := if ok then Finished else Failed;
    StatusSet(s, s', j, Finished, st);
    StatusSet(s, s', j, Failed, st);
  }

  lemma StatusSet(s: System, s': System, j: JobId, st: JobStatus, now: JobStatus)
    requires j in s.status && s.status[j] == Running && s'.status == s.status[j := now] && st != Running
    ensures |WithStatus(s', st)| == |WithStatus(s, st)| + (if st == now then 1 else 0)
  {
    var A, B := WithStatus(s, st), WithStatus(s', st);
    assert j !in A;
    if st == now {
      assert B == A + {j};
    } else {
      assert B == A;
    }
  }

  /** A worker is done with its job, which is now finished or failed and counted. */
  lemma JobDone(s: System, s': System, w: nat, j: JobId, ok: bool)
    requires JobInv(s) && w < |s.workers| && Holds(s.workers[w], j)
    requires s' == s.(workers := s.workers[w := Waiting], status := s.status[j := if ok then Finished else Failed],
                      okCount := s.okCount + (if ok then 1 else 0), failCount := s.failCount + (if ok then 0 else 1))
    ensures JobInv(s')
  {
    hide CountInv, IdsInv;
    assert Held(s, j);
    forall x ensures Held(s', x) <==> Held(s, x) && x != j { HeldAfter(s, s', w, x); }
    StillDiffer(s, s', w);
    CountDone(s, s', j, ok);
    IdsSame(s, s');
  }

  lemma MarkerTaken(s: System, w: nat)
    requires JobInv(s) && Enabled(s, Get(w)) && s.queue[0].Marker?
    ensures JobInv(Next(s, Get(w)))
  {
    var s' := Next(s, Get(w));
    QueueHead(s.queue);
    assert [] + Jobs(s.queue[1..]) == Jobs(s'.queue);
    forall x ensures Held(s', x) <==> Held(s, x) { HeldAfter(s, s', w, x); }
    StillDiffer(s, s', w);
    JobsSame(s, s');
  }

  lemma RaisedKept(s: System, w: nat)
    requires JobInv(s) && Enabled(s, HandlerRaises(w))
    ensures JobInv(Next(s, HandlerRaises(w)))
  {
    var s' := Next(s, HandlerRaises(w));
    forall x ensures Held(s', x) <==> Held(s, x) { HeldAfter(s, s', w, x); }
    StillDiffer(s, s', w);
    JobsSame(s, s');
  }

  /** Steps that start or end the workers: none of them holds a job. */
  lemma WorkersSwapped(s: System, s': System)
    requires JobInv(s) && (forall i :: 0 <= i < |s.workers| ==> s.workers[i].Exited?)
    requires forall i :: 0 <= i < |s'.workers| ==> s'.workers[i].Waiting?
    requires s'.queue == s.queue && s'.enqueued == s.enqueued && s'.status == s.status
    requires s'.okCount == s.okCount && s'.failCount == s.failCount
    ensures JobInv(s')
  {
    forall x ensures !Held(s', x) && !Held(s, x) {}
    JobsSame(s, s');
  }

  lemma StopJobs(s: System)
    requires JobInv(s)
    ensures JobInv(Next(s, Stop))
  {
    if s.workers != [] {
      QueueAppend(s.queue, Repeat(|s.workers|));
      RepeatCounts(|s.workers|);
      assert Jobs(s.queue) + [] == Jobs(s.queue);
      forall x ensures Held(Next(s, Stop), x) <==> Held(s, x) {}
      JobsSame(s, Next(s, Stop));
    }
  }

  lemma StepKeepsJobs(s: System, step: Step)
    requires QueueInv(s) && JobInv(s) && Enabled(s, step)
    ensures JobInv(Next(s, step))
  {
    match step {
      case Start(n) => if s.workers == [] { WorkersSwapped(s, Next(s, step)); }
      case Submit(j) => SubmitJobs(s, j);
      case Get(w) => if s.queue[0].Job? { GetJobs(s, w); } else { MarkerTaken(s, w); }
      case HandlerReturns(w, ok) => JobDone(s, Next(s, step), w, s.workers[w].job, ok);
      case HandlerRaises(w) => RaisedKept(s, w);
      case FailureMarked(w) => JobDone(s, Next(s, step), w, s.workers[w].job, false);
      case Stop => StopJobs(s);
      case StopReturns => WorkersSwapped(s, Next(s, step));
    }
  }

  // ---- the theorems ----

  /** stop is not called again while a call of it is pending. */
  predicate Orderly(steps: seq<Step>) {
    steps == [] ||
    var rest, step := steps[..|steps| - 1], steps[|steps| - 1];
    Orderly(rest) && (step.Stop? ==> Run(rest).stops == 0)
  }

  lemma StopsBound(s: System, step: Step)
    requires s.stops <= 1 && Enabled(s, step) && (step.Stop? ==> s.stops == 0)
    ensures Next(s, step).stops <= 1
  {
  }

  lemma {:induction false} OrderlyRuns(steps: seq<Step>)
    requires Orderly(steps)
    ensures QueueInv(Run(steps)) && JobInv(Run(steps)) && Run(steps).stops <= 1
  {
    if steps == [] {
      InitQueue();
      InitJobs();
    } else {
      var rest, step := steps[..|steps| - 1], steps[|steps| - 1];
      OrderlyRuns(rest);
      hide QueueInv, JobInv;
      assert Run(steps) == Taken(Run(rest), step);
      if Enabled(Run(rest), step) {
        StepKeepsQueue(Run(rest), step);
        StepKeepsJobs(Run(rest), step);
        StopsBound(Run(rest), step);
      }
    }
  }

  function SetOf(js: seq<JobId>): set<JobId> { set j | j in js }

  lemma {:induction false} DistinctSize(js: seq<JobId>)
    requires Distinct(js)
    ensures |SetOf(js)| == |js|
  {
    if js == [] {
      assert SetOf(js) == {};
    } else {
      var rest, x := js[..|js| - 1], js[|js| - 1];
      assert js == rest + [x];
      DistinctSize(rest);
      assert x !in SetOf(rest);
      assert SetOf(js) == SetOf(rest) + {x};
    }
  }

  /** When all workers have exited, every job that was taken off the queue is finished or failed. */
  lemma DoneJobs(s: System)
    requires QueueInv(s) && JobInv(s) && AllExited(s)
    ensures forall j :: j in s.dequeued ==> j in s.status && s.status[j] in {Finished, Failed}
    ensures s.okCount + s.failCount == |s.dequeued|
  {
    DistinctParts(s.dequeued, Jobs(s.queue));
    forall j ensures j in s.dequeued <==> j in s.status && s.status[j] in {Finished, Failed} {
      assert !Held(s, j);
      assert j in s.enqueued <==> j in s.dequeued || j in Jobs(s.queue);
    }
    DistinctSize(s.dequeued);
    FinalSplit(s);
  }

  lemma FinalSplit(s: System)
    requires forall j :: j in s.dequeued <==> j in s.status && s.status[j] in {Finished, Failed}
    ensures |SetOf(s.dequeued)| == |WithStatus(s, Finished)| + |WithStatus(s, Failed)|
  {
    var ok, failed := WithStatus(s, Finished), WithStatus(s, Failed);
    assert SetOf(s.dequeued) == ok + failed && ok * failed == {};
  }

  /** Graceful drain: when stop returns, every job enqueued before it was called has been handed to
      the handler once, in the order it was enqueued, and no later one has; each worker has taken one
      end marker and none is left; each of those jobs is finished or failed, and counted once. */
  lemma GracefulDrain(steps: seq<Step>)
    requires Orderly(steps) && Enabled(Run(steps), StopReturns)
    ensures var s := Run(steps);
            && s.stopAt <= |s.enqueued| && s.dequeued == s.enqueued[..s.stopAt] && Distinct(s.enqueued)
                 && Jobs(s.queue) == s.enqueued[s.stopAt..]
            && ExitedCount(s.workers) == |s.workers| && Markers(s.queue) == 0
            && (forall j :: j in s.enqueued[..s.stopAt] ==> j in s.status && s.status[j] in {Finished, Failed})
            && s.okCount == |WithStatus(s, Finished)| && s.failCount == |WithStatus(s, Failed)|
            && s.okCount + s.failCount == s.stopAt
  {
    OrderlyRuns(steps);
    ReturnFacts(Run(steps));
    DoneJobs(Run(steps));
  }

  predicate WorkerStep(step: Step) { step.Get? || step.HandlerReturns? || step.HandlerRaises? || step.FailureMarked? }

  /** While a stop is pending something can always happen until it can return. */
  lemma StopCannotHang(s: System)
    requires QueueInv(s) && s.stops > 0
    ensures exists step :: Enabled(s, step) && (WorkerStep(step) || step.StopReturns?)
  {
    if AllExited(s) {
      assert Enabled(s, StopReturns);
    } else {
      var w :| 0 <= w < |s.workers| && !s.workers[w].Exited?;
      assert ExitedCount(s.workers) < |s.workers|;
      match s.workers[w] {
        case Waiting => assert Enabled(s, Get(w));
        case Handling(j) => assert Enabled(s, HandlerReturns(w, true));
        case Recovering(j) => assert Enabled(s, FailureMarked(w));
        case Exited => assert false;
      }
    }
  }

  /** How many steps the workers can still take. */
  function Work(s: System): nat { 3 * |s.queue| + Busy(s.workers) }

  function Busy(workers: seq<Worker>): nat {
    if workers == [] then 0
    else
      var x := workers[|workers| - 1];
      Busy(workers[..|workers| - 1]) + (if x.Handling? then 2 else if x.Recovering? then 1 else 0)
  }

  lemma {:induction false} BusyUpdate(workers: seq<Worker>, w: nat, x: Worker)
    requires w < |workers|
    ensures Busy(workers[w := x]) == Busy(workers) - Busy([workers[w]]) + Busy([x])
  {
    assert [x][..0] == [] && [workers[w]][..0] == [];
    var n := |workers| - 1;
    if w < n {
      assert workers[w := x][..n] == workers[..n][w := x];
      BusyUpdate(workers[..n], w, x);
    } else {
      assert workers[w := x][..n] == workers[..n];
    }
  }

  /** Each of their steps leaves less to do. */
  lemma WorkShrinks(s: System, step: Step)
    requires Enabled(s, step) && WorkerStep(step)
    ensures Work(Next(s, step)) < Work(s)
  {
    BusyUpdate(s.workers, step.worker, Next(s, step).workers[step.worker]);
  }

  /** Steps of workers only, each possible where it is taken. */
  predicate Working(s: System, steps: seq<Step>) {
    steps == [] ||
    var rest, step := steps[..|steps| - 1], steps[|steps| - 1];
    Working(s, rest) && WorkerStep(step) && Enabled(Continue(s, rest), step)
  }

  /** A pending stop without new jobs returns: at most Work(s) worker steps can be taken, and where
      none can be taken any more the stop is able to return. */
  lemma {:induction false} StopReturnsInTime(s: System, steps: seq<Step>)
    requires QueueInv(s) && s.stops > 0 && Working(s, steps)
    ensures var t := Continue(s, steps);
            && |steps| + Work(t) <= Work(s) && QueueInv(t) && t.stops == s.stops
            && ((exists step :: WorkerStep(step) && Enabled(t, step)) || Enabled(t, StopReturns))
  {
    hide QueueInv;
    if steps != [] {
      var rest, step := steps[..|steps| - 1], steps[|steps| - 1];
      StopReturnsInTime(s, rest);
      WorkShrinks(Continue(s, rest), step);
      StepKeepsQueue(Continue(s, rest), step);
    }
    StopCannotHang(Continue(s, steps));
  }

  // ---- a second call of stop ----

  /** How many items were taken off the queue. */
  function TakenOff(s: System): nat { |s.dequeued| + ExitedCount(s.workers) }

  /** The queue `q` from before has lost `d` items at the front and gained some behind. */
  ghost predicate Moved(q: seq<Item>, d: int, queue: seq<Item>) {
    0 <= d && |q| <= d + |queue| && forall i {:trigger q[i]} :: d <= i < |q| ==> queue[i - d] == q[i]
  }

  lemma MovedSlice(a: seq<Item>, b: seq<Item>, d: nat, queue: seq<Item>)
    requires Moved(a + b, d, queue) && d <= |a|
    ensures |a + b| - d <= |queue| && queue[..|a| - d] == a[d..] && queue[|a| - d..|a| - d + |b|] == b
  {
    var q := a + b;
    forall i | 0 <= i < |a| - d ensures queue[i] == a[d + i] { assert q[d + i] == a[d + i]; }
    forall i | 0 <= i < |b| ensures queue[|a| - d + i] == b[i] { assert q[|a| + i] == b[i]; }
  }

  predicate NoStops(step: Step) { !step.Stop? && !step.StopReturns? && !step.Start? }

  lemma MovedOn(q: seq<Item>, d: int, queue: seq<Item>, x: Item)
    requires Moved(q, d, queue)
    ensures queue != [] ==> Moved(q, d + 1, queue[1..])
    ensures Moved(q, d, queue + [x])
  {
  }

  lemma TakenByStep(s: System, step: Step)
    requires Enabled(s, step) && NoStops(step)
    ensures TakenOff(Next(s, step)) == TakenOff(s) + (if step.Get? then 1 else 0)
  {
    if !step.Submit? { ExitedUpdate(s.workers, step.worker, Next(s, step).workers[step.worker]); }
    hide ExitedCount;
  }

  lemma QueueMoves(s: System, step: Step, q: seq<Item>, d: int)
    requires Enabled(s, step) && NoStops(step) && Moved(q, d, s.queue)
    ensures Moved(q, d + TakenOff(Next(s, step)) - TakenOff(s), Next(s, step).queue)
  {
    TakenByStep(s, step);
    MovedOn(q, d, s.queue, if step.Submit? then Job(step.job) else Marker);
    hide Moved, TakenOff;
  }

  /** While one stop is pending: behind the jobs from before its call and the markers that are left
      of it, the queue holds the jobs enqueued since. */
  lemma BehindTheStop(s: System)
    requires QueueInv(s) && s.stops == 1
    ensures var cut, since := AheadOf(s), |s.enqueued| - s.stopAt;
            && 0 <= cut && 0 <= since && |s.queue| == cut + since
            && Jobs(s.queue[cut..]) == s.enqueued[s.stopAt..] && Markers(s.queue[cut..]) == 0
  {
    var ahead, left := s.stopAt - |s.dequeued|, |s.workers| - ExitedCount(s.workers);
    assert PutBy(1, |s.workers|) == PutBy(0, |s.workers|) + |s.workers|;
    hide Jobs, Markers, ExitedCount, PutBy;
    assert s.enqueued == s.dequeued + Jobs(s.queue) && Markers(s.queue) == left && ahead + left <= |s.queue|;
    JobsThenMarkers(s.queue, ahead, left);
    hide QueueInv;
    JobsBehind(s.dequeued, Jobs(s.queue[..ahead]), Jobs(s.queue[ahead + left..]));
  }

  lemma JobsBehind(a: seq<JobId>, b: seq<JobId>, c: seq<JobId>)
    ensures (a + (b + c))[|a| + |b|..] == c && |a + (b + c)| == |a| + |b| + |c|
  {
  }

  /** A queue that starts with `x` jobs and `y` markers and holds no other marker. */
  lemma JobsThenMarkers(queue: seq<Item>, x: nat, y: nat)
    requires x + y <= |queue| && Markers(queue) == y
    requires (forall i :: 0 <= i < x ==> queue[i].Job?) && (forall i :: x <= i < x + y ==> queue[i].Marker?)
    ensures Jobs(queue) == Jobs(queue[..x]) + Jobs(queue[x + y..]) && |Jobs(queue[..x])| == x
    ensures |Jobs(queue[x + y..])| == |queue| - x - y && Markers(queue[x + y..]) == 0
  {
    hide Jobs, Markers;
    assert queue == queue[..x] + (queue[x..x + y] + queue[x + y..]);
    ThreeParts(queue[..x], queue[x..x + y], queue[x + y..]);
  }

  lemma ThreeParts(a: seq<Item>, b: seq<Item>, rest: seq<Item>)
    requires forall i :: 0 <= i < |a| ==> a[i].Job?
    requires forall i :: 0 <= i < |b| ==> b[i].Marker?
    requires Markers(a + (b + rest)) == |b|
    ensures Jobs(a + (b + rest)) == Jobs(a) + Jobs(rest) && |Jobs(a)| == |a| && |Jobs(rest)| == |rest|
              && Markers(rest) == 0
  {
    JobsCounted(a);
    QueueAppend(a, b + rest);
    MarkersFirst(b, rest);
    hide Jobs, Markers;
    NoMarkers(rest);
    JobsCounted(rest);
  }

  lemma {:induction false} MarkersOnly(queue: seq<Item>)
    requires forall i :: 0 <= i < |queue| ==> queue[i].Marker?
    ensures Jobs(queue) == [] && Markers(queue) == |queue|
  {
    if queue != [] { MarkersOnly(queue[..|queue| - 1]); }
  }

  lemma MarkersFirst(b: seq<Item>, rest: seq<Item>)
    requires forall i :: 0 <= i < |b| ==> b[i].Marker?
    ensures Jobs(b + rest) == Jobs(rest) && Markers(b + rest) == |b| + Markers(rest)
  {
    hide Jobs, Markers;
    MarkersOnly(b);
    QueueAppend(b, rest);
    assert [] + Jobs(rest) == Jobs(rest);
  }

  lemma {:induction false} JobsCounted(queue: seq<Item>)
    requires forall i :: 0 <= i < |queue| ==> queue[i].Job?
    ensures |Jobs(queue)| == |queue| && Markers(queue) == 0
  {
    if queue != [] { JobsCounted(queue[..|queue| - 1]); }
  }

  /** Jobs, then `n` markers, then only jobs. */
  ghost predicate LeftOver(t: System, between: seq<JobId>, n: nat) {
    && |between| + n <= |t.queue| && Markers(t.queue) == n
    && Jobs(t.queue[..|between|]) == between && Markers(t.queue[..|between|]) == 0
    && t.queue[|between|..|between| + n] == Repeat(n)
  }

  /** A second call of stop while the first is pending: when both can return, the queue holds the jobs
      that were enqueued between the two calls, then one marker per worker, then later jobs.  So with
      no job in between the next workers end before they get to any. */
  lemma SecondStopLeavesMarkers(s: System, steps: seq<Step>)
    requires QueueInv(s) && s.stops == 1
    requires forall i :: 0 <= i < |steps| ==> NoStops(steps[i])
    ensures var t := Continue(Next(s, Stop), steps);
            && QueueInv(t) && t.stops == 2 && |t.workers| == |s.workers| > 0
            && (AllExited(t) ==> s.stopAt <= |s.enqueued| && LeftOver(t, s.enqueued[s.stopAt..], |s.workers|))
  {
    hide QueueInv, Continue, Next;
    SecondStopRuns(s, steps);
    HasWorkers(s);
    var t := Continue(Next(s, Stop), steps);
    if AllExited(t) { BothReturn(s, t); }
  }

  lemma BothReturn(s: System, t: System)
    requires QueueInv(s) && s.stops == 1 && QueueInv(t) && t.stops == 2 && AllExited(t)
    requires |t.workers| == |s.workers| && t.stopAt == s.stopAt
    requires Moved(s.queue + Repeat(|s.workers|), TakenOff(t) - TakenOff(s), t.queue)
    ensures s.stopAt <= |s.enqueued| && LeftOver(t, s.enqueued[s.stopAt..], |s.workers|)
  {
    ReturnFacts(t);
    assert PutBy(1, |s.workers|) == PutBy(0, |s.workers|) + |s.workers|;
    assert TakenOff(t) - TakenOff(s) == AheadOf(s);
    hide QueueInv, PutBy, ExitedCount, Moved, LeftOver, TakenOff, AheadOf;
    QueueLeft(s, t);
  }

  /** How many items stand before the jobs enqueued since the pending stop. */
  function AheadOf(s: System): int { s.stopAt - |s.dequeued| + |s.workers| - ExitedCount(s.workers) }

  lemma QueueLeft(s: System, t: System)
    requires QueueInv(s) && s.stops == 1 && Markers(t.queue) == |s.workers|
    requires Moved(s.queue + Repeat(|s.workers|), AheadOf(s), t.queue)
    ensures s.stopAt <= |s.enqueued| && LeftOver(t, s.enqueued[s.stopAt..], |s.workers|)
  {
    BehindTheStop(s);
    hide QueueInv, Jobs, Markers, ExitedCount, Repeat, Moved;
    var n, cut := |s.workers|, AheadOf(s);
    RepeatLength(n);
    MovedSlice(s.queue, Repeat(n), cut, t.queue);
    hide LeftOver, AheadOf;
    LeftOverOf(t, s.queue[cut..], s.enqueued[s.stopAt..], n);
  }

  lemma RepeatLength(n: nat)
    ensures |Repeat(n)| == n
  {
  }

  lemma LeftOverOf(t: System, rest: seq<Item>, between: seq<JobId>, n: nat)
    requires |rest| == |between| && |rest| + n <= |t.queue| && Markers(t.queue) == n
    requires t.queue[..|rest|] == rest && t.queue[|rest|..|rest| + n] == Repeat(n)
    requires Jobs(rest) == between && Markers(rest) == 0
    ensures LeftOver(t, between, n)
  {
    hide Jobs, Markers, Repeat;
  }

  lemma {:induction false} SecondStopRuns(s: System, steps: seq<Step>)
    requires QueueInv(s) && s.stops == 1
    requires forall i :: 0 <= i < |steps| ==> NoStops(steps[i])
    ensures var t := Continue(Next(s, Stop), steps);
            && QueueInv(t) && t.stops == 2 && |t.workers| == |s.workers| && t.stopAt == s.stopAt
            && Moved(s.queue + Repeat(|s.workers|), TakenOff(t) - TakenOff(s), t.queue)
  {
    hide QueueInv, Moved, TakenOff, Repeat;
    if steps == [] {
      StopKeeps(s);
      SecondStopStarts(s);
    } else {
      var rest, step := steps[..|steps| - 1], steps[|steps| - 1];
      SecondStopRuns(s, rest);
      var t := Continue(Next(s, Stop), rest);
      if Enabled(t, step) {
        StepKeepsQueue(t, step);
        SameStop(t, step);
        QueueMoves(t, step, s.queue + Repeat(|s.workers|), TakenOff(t) - TakenOff(s));
        hide Next, Enabled;
      }
    }
  }

  lemma SecondStopStarts(s: System)
    requires QueueInv(s) && s.stops == 1
    ensures var t := Next(s, Stop);
            && t.stops == 2 && |t.workers| == |s.workers| && t.stopAt == s.stopAt
            && Moved(s.queue + Repeat(|s.workers|), TakenOff(t) - TakenOff(s), t.queue)
  {
    HasWorkers(s);
    hide QueueInv, ExitedCount, Repeat;
  }

  lemma SameStop(t: System, step: Step)
    requires Enabled(t, step) && NoStops(step)
    ensures var t' := Next(t, step);
            t'.stops == t.stops && |t'.workers| == |t.workers| && t'.stopAt == t.stopAt
  {
  }

  /** One worker, two calls of stop: when the worker has exited a marker is left. */
  lemma SecondStopReached()
    ensures var t := Run([Start(1), Stop, Stop, Get(0)]);
            t.stops == 2 && AllExited(t) && t.queue == [Marker]
  {
    var steps := [Start(1), Stop, Stop, Get(0)];
    assert steps[..3] == [Start(1), Stop, Stop] && steps[..3][..2] == [Start(1), Stop];
    assert steps[..3][..2][..1] == [Start(1)] && steps[..3][..2][..1][..0] == [];
    var s1 := Run([Start(1)]);
    assert s1.workers == [Waiting] && s1.queue == [];
    var s2 := Run([Start(1), Stop]);
    assert s2.queue == [Marker];
    var s3 := Run([Start(1), Stop, Stop]);
    assert s3.queue == [Marker, Marker];
  }

  lemma HasWorkers(s: System)
    requires QueueInv(s) && s.stops > 0
    ensures s.workers != []
  {
  }

  function Continue(s: System, steps: seq<Step>): System {
    if steps == [] then s else Taken(Continue(s, steps[..|steps| - 1]), steps[|steps| - 1])
  }

  // ---- the objects ----

  /** The queue with its worker tasks, and the runner's job documents and counters. */
  class IngressRunner {
    const configured: int
    var queue: seq<Item>
    var tasks: seq<Worker>
    var status: map<JobId, JobStatus>
    var okCount: nat
    var failCount: nat
    ghost var stops: nat
    ghost var stopAt: nat
    ghost var enqueued: seq<JobId>
    ghost var dequeued: seq<JobId>

    constructor (workers: int)
      ensures View() == INIT && configured == workers
    {
      configured := workers;
      queue, tasks, status, okCount, failCount := [], [], map[], 0, 0;
      stops, stopAt, enqueued, dequeued := 0, 0, [], [];
    }

    ghost function View(): System
      reads this
    {
      System(queue, tasks, stops, stopAt, enqueued, dequeued, status, okCount, failCount)
    }

    method StartWorkers()
      modifies this
      ensures View() == Next(old(View()), Start(configured))
    {
      if tasks != [] { return; }
      var n := if configured < 1 then 1 else configured;
      for i := 0 to n
        invariant tasks == seq(i, _ => Waiting)
        invariant View() == old(View()).(workers := tasks)
      {
        tasks := tasks + [Waiting];
      }
      stops, stopAt := 0, 0;
    }

    /** submit: the QUEUED document first, then the queue. */
    method SubmitJob(j: JobId)
      requires Enabled(View(), Submit(j))
      modifies this
      ensures View() == Next(old(View()), Submit(j))
    {
      status := status[j := Queued];
      queue := queue + [Job(j)];
      enqueued := enqueued + [j];
    }

    /** One turn of a worker: a marker ends it, a job goes to run_event, which marks it RUNNING. */
    method TakeItem(w: nat)
      requires Enabled(View(), Get(w))
      modifies this
      ensures View() == Next(old(View()), Get(w))
    {
      var item := queue[0];
      queue := queue[1..];
      match item {
        case Marker => tasks := tasks[w := Exited];
        case Job(j) =>
          dequeued := dequeued + [j];
          tasks := tasks[w := Handling(j)];
          status := status[j := Running];
      }
    }

    /** The end of run_event: the final document, then the counter. */
    method FinishJob(w: nat, ok: bool)
      requires Enabled(View(), HandlerReturns(w, ok))
      modifies this
      ensures View() == Next(old(View()), HandlerReturns(w, ok))
    {
      status := status[tasks[w].job := if ok then Finished else Failed];
      if ok { okCount := okCount + 1; } else { failCount := failCount + 1; }
      tasks := tasks[w := Waiting];
    }

    /** An exception out of run_event. */
    method RaiseInJob(w: nat)
      requires Enabled(View(), HandlerRaises(w))
      modifies this
      ensures View() == Next(old(View()), HandlerRaises(w))
    {
      tasks := tasks[w := Recovering(tasks[w].job)];
    }

    /** mark_failed */
    method MarkFailed(w: nat)
      requires Enabled(View(), FailureMarked(w))
      modifies this
      ensures View() == Next(old(View()), FailureMarked(w))
    {
      status := status[tasks[w].job := Failed];
      failCount := failCount + 1;
      tasks := tasks[w := Waiting];
    }

    /** stop, up to its wait: one marker per worker. */
    method PutMarkers()
      modifies this
      ensures View() == Next(old(View()), Stop)
    {
      if tasks == [] { return; }
      for i := 0 to |tasks|
        invariant queue == old(queue) + Repeat(i)
        invariant View() == old(View()).(queue := queue)
      {
        queue := queue + [Marker];
      }
      if stops == 0 { stopAt := |enqueued|; }
      stops := stops + 1;
    }

    /** The rest of stop, once every worker has exited. */
    method ClearTasks()
      requires Enabled(View(), StopReturns)
      modifies this
      ensures View() == Next(old(View()), StopReturns)
    {
      tasks := [];
      stops := 0;
    }
  }
}
