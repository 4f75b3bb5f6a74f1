/** What the run store and the event store keep, as one value, and each store operation as a
    function on it.  The classes in Stores.dfy are proved against these functions. */
module RunDb {
  import opened Wrappers
  import opened RunModel
  import opened ZSets

  type RunKey = (string, string)     // (project id, run id)
  type IndexKey = (string, string)   // (project id, uid) or (project id, chat id)

  datatype Runs = Runs(
    clock: Time,
    runs: map<RunKey, Run>,
    byUser: map<IndexKey, ZSet>,
    byChat: map<IndexKey, ZSet>,
    log: map<RunKey, seq<EventBody>>,
    recovered: set<RunKey>)   // bookkeeping of the model: the runs that restart recovery failed

  const EMPTY_RUNS := Runs(0, map[], map[], map[], map[], {})

  function LogOf(d: Runs, k: RunKey): seq<EventBody> { if k in d.log then d.log[k] else [] }

  function Tick(d: Runs): Runs { d.(clock := d.clock + 1) }

  function ZSetAt(index: map<IndexKey, ZSet>, k: IndexKey): ZSet { if k in index then index[k] else map[] }

  function ZAdd(index: map<IndexKey, ZSet>, k: IndexKey, member: string, score: int): map<IndexKey, ZSet> {
    index[k := ZSetAt(index, k)[member := score]]
  }

  /** _save: the document, then both indexes, scored by updated_at. */
  function Save(d: Runs, run: Run): Runs {
    d.(runs := d.runs[(run.projectId, run.runId) := run],
       byUser := ZAdd(d.byUser, (run.projectId, run.uid), run.runId, run.updatedAt),
       byChat := if run.chatId.None? then d.byChat
                 else ZAdd(d.byChat, (run.projectId, run.chatId.value), run.runId, run.updatedAt))
  }

  function NewRun(now: Time, pid: string, runId: string, uid: string, source: RunSource,
                  chatId: Option<string>, job: Option<string>, ticket: Option<string>): Run {
    Run(runId, pid, uid, source, Created, now, now, chatId, job, ticket, None, None, None, None, 0, 0)
  }

  function CreateRun(d: Runs, pid: string, runId: string, uid: string, source: RunSource,
                     chatId: Option<string>, job: Option<string>, ticket: Option<string>): Runs {
    Save(Tick(d), NewRun(d.clock, pid, runId, uid, source, chatId, job, ticket))
  }

  /** bump_event_stats */
  function BumpEventStats(d: Runs, k: RunKey, e: EventBody): Runs {
    if k !in d.runs then d
    else
      Save(Tick(d), Bumped(d.runs[k], e, d.clock))
  }

  function Bumped(run: Run, e: EventBody, now: Time): Run {
    run.(eventCount := run.eventCount + 1,
         toolCallCount := run.toolCallCount + (if e.ToolCall? then 1 else 0),
         updatedAt := now)
  }

  function Logged(d: Runs, k: RunKey, e: EventBody): Runs {
    Tick(d).(log := d.log[k := LogOf(d, k) + [e]])
  }

  /** RunEventStore.append: the timestamp, the entry, then the counters of the run. */
  function AppendEvent(d: Runs, k: RunKey, e: EventBody): Runs {
    BumpEventStats(Logged(d, k, e), k, e)
  }

  function Truncated(s: string, n: nat): string { if |s| <= n then s else s[..n] }

  /** The fields a transition writes into the document. */
  function Moved(run: Run, to: RunStatus, now: Time, error: string): Run {
    run.(status := to,
         updatedAt := now,
         startedAt := if to == Running && run.startedAt.None? then Some(now) else run.startedAt,
         finishedAt := if IsTerminal(to) then Some(now) else run.finishedAt,
         errorMessage := if error != "" then Some(Truncated(error, 500))
                         else if to in {Failed, Blocked, Cancelled} then run.errorMessage
                         else None)
  }

  /** The audit events of a transition, appended to what `d` holds. */
  function Audited(d: Runs, k: RunKey, from: RunStatus, to: RunStatus): Runs {
    var d2 := AppendEvent(d, k, RunStatusChanged(from, to));
    if IsTerminal(to) then AppendEvent(d2, k, RunCompleted(to)) else d2
  }

  /** transition: validate, write, and leave the audit events when an event store is given. */
  function Transition(d: Runs, k: RunKey, to: RunStatus, error: string, audited: bool): Result<Runs> {
    if k !in d.runs then Err(RunNotFound)
    else
      var run := d.runs[k];
      match ValidateTransition(run.status, to)
      case Err(e) => Err(e)
      case Ok(_) =>
        var d1 := Save(Tick(d), Moved(run, to, d.clock, error));
        if !audited then Ok(d1)
        else Ok(Audited(d1, k, run.status, to))
  }

  /** A transition whose RunTransitionError the caller logs and swallows. */
  function TryTransition(d: Runs, k: RunKey, to: RunStatus, error: string): Runs {
    match Transition(d, k, to, error, true) case Ok(d') => d' case Err(_) => d
  }

  function SetOhConversationId(d: Runs, k: RunKey, conv: string): Runs {
    if k !in d.runs then d
    else Save(Tick(d), d.runs[k].(ohConversationId := Some(conv), updatedAt := d.clock))
  }

  /** begin_investigation_run */
  function BeginRun(d: Runs, pid: string, runId: string, uid: string, source: RunSource,
                    chatId: Option<string>, job: Option<string>, ticket: Option<string>): Runs {
    var k := (pid, runId);
    var d1 := CreateRun(d, pid, runId, uid, source, chatId, job, ticket);
    TryTransition(AppendEvent(d1, k, RunCreated(source, chatId, job)), k, Running, "")
  }

  /** One pass of the recovery loop: a run that is not terminal is failed where the table allows it. */
  function FailOrphan(d: Runs, k: RunKey, reason: string): Runs {
    match Transition(d, k, Failed, reason, false)
    case Ok(d') => d'.(recovered := d'.recovered + {k})
    case Err(_) => d
  }

  function FailOrphans(d: Runs, ks: seq<RunKey>, reason: string): Runs {
    if ks == [] then d else FailOrphan(FailOrphans(d, ks[..|ks| - 1], reason), ks[|ks| - 1], reason)
  }

  // ---- listing ----

  function Loaded(d: Runs, pid: string, ids: seq<string>): seq<Run> {
    if ids == [] then []
    else (if (pid, ids[0]) in d.runs then [d.runs[(pid, ids[0])]] else []) + Loaded(d, pid, ids[1..])
  }

  ghost function ListRunsForChat(d: Runs, pid: string, chatId: string, limit: nat): seq<Run> {
    Loaded(d, pid, ZRevRange(ZSetAt(d.byChat, (pid, chatId)), 0, if limit == 0 then 0 else limit - 1))
  }

  function FirstActive(runs: seq<Run>, uid: string): Option<Run> {
    if runs == [] then None
    else if runs[0].uid == uid && !IsTerminal(runs[0].status) then Some(runs[0])
    else FirstActive(runs[1..], uid)
  }

  ghost function GetActiveRunForChat(d: Runs, pid: string, uid: string, chatId: string): Option<Run> {
    FirstActive(ListRunsForChat(d, pid, chatId, 50), uid)
  }

  // ---- what every operation keeps ----

  predicate Started(s: RunStatus) { s == Running || s == WaitingApproval }

  /** The audit trail of one run tells its whole life.  Only restart recovery makes the status
      differ from the trail: it fails a started run without writing an event. */
  ghost predicate AuditOk(run: Run, log: seq<EventBody>, recovered: bool) {
    var cs := Changes(log);
    && IsPath(cs)
    && (if recovered then run.status == Failed && Started(PathEnd(cs)) else run.status == PathEnd(cs))
    && CompletedEvents(log) == (if IsTerminal(PathEnd(cs)) then 1 else 0)
    && (run.finishedAt.Some? <==> IsTerminal(run.status))
    && (run.startedAt.Some? <==> exists c :: c in cs && c.to == Running)
    && run.eventCount == |log|
    && run.toolCallCount == ToolCalls(log)
  }

  /** The score an index holds for a member. */
  function Score(index: map<IndexKey, ZSet>, i: IndexKey, member: string): Option<int> {
    if i in index && member in index[i] then Some(index[i][member]) else None
  }

  /** The stored run under `k` is listed in both indexes with its updated_at. */
  ghost predicate Listed(d: Runs, k: RunKey)
    requires k in d.runs
  {
    var r := d.runs[k];
    && r.projectId == k.0 && r.runId == k.1 && r.updatedAt < d.clock
    && Score(d.byUser, (k.0, r.uid), k.1) == Some(r.updatedAt)
    && (r.chatId.Some? ==> Score(d.byChat, (k.0, r.chatId.value), k.1) == Some(r.updatedAt))
  }

  /** The indexes list nothing else. */
  ghost predicate OnlyUserRuns(d: Runs) {
    forall i, m :: Score(d.byUser, i, m).Some? ==> (i.0, m) in d.runs && d.runs[(i.0, m)].uid == i.1
  }

  ghost predicate OnlyChatRuns(d: Runs) {
    forall i, m :: Score(d.byChat, i, m).Some? ==> (i.0, m) in d.runs && d.runs[(i.0, m)].chatId == Some(i.1)
  }

  ghost predicate IndexOk(d: Runs) {
    && (forall k {:trigger Listed(d, k)} :: k in d.runs ==> Listed(d, k))
    && OnlyUserRuns(d) && OnlyChatRuns(d)
  }

  ghost predicate AuditsOk(d: Runs) {
    forall k {:trigger AuditAt(d, k)} :: k in d.runs ==> AuditAt(d, k)
  }

  ghost predicate AuditAt(d: Runs, k: RunKey)
    requires k in d.runs
  {
    AuditOk(d.runs[k], LogOf(d, k), k in d.recovered)
  }

  ghost predicate RunsInv(d: Runs) { AuditsOk(d) && IndexOk(d) && d.recovered <= d.runs.Keys }

  lemma ZAddScore(index: map<IndexKey, ZSet>, i: IndexKey, member: string, score: int, j: IndexKey, x: string)
    ensures Score(ZAdd(index, i, member, score), j, x) ==
            if j == i && x == member then Some(score) else Score(index, j, x)
  {
  }

  /** A run saved at the current time under its own key, with the owner and chat it had. */
  predicate Saveable(d: Runs, run: Run) {
    && run.updatedAt == d.clock
    && var k := (run.projectId, run.runId);
       k in d.runs ==> d.runs[k].uid == run.uid && d.runs[k].chatId == run.chatId
  }

  lemma SaveScores(d: Runs, run: Run, i: IndexKey, m: string)
    ensures Score(Save(d, run).byUser, i, m) ==
            if i == (run.projectId, run.uid) && m == run.runId then Some(run.updatedAt) else Score(d.byUser, i, m)
    ensures Score(Save(d, run).byChat, i, m) ==
            if run.chatId.Some? && i == (run.projectId, run.chatId.value) && m == run.runId
            then Some(run.updatedAt) else Score(d.byChat, i, m)
  {
    ZAddScore(d.byUser, (run.projectId, run.uid), run.runId, run.updatedAt, i, m);
    if run.chatId.Some? {
      ZAddScore(d.byChat, (run.projectId, run.chatId.value), run.runId, run.updatedAt, i, m);
    }
  }

  lemma SaveKeepsIndex(d: Runs, run: Run)
    requires IndexOk(d) && Saveable(d, run)
    ensures IndexOk(Save(Tick(d), run))
  {
    var t := Tick(d);
    var d' := Save(t, run);
    forall k | k in d'.runs ensures Listed(d', k) {
      var r := d'.runs[k];
      SaveScores(t, run, (k.0, r.uid), k.1);
      if r.chatId.Some? { SaveScores(t, run, (k.0, r.chatId.value), k.1); }
      if k != (run.projectId, run.runId) { assert Listed(d, k); }
    }
    forall i, m | Score(d'.byUser, i, m).Some?
      ensures (i.0, m) in d'.runs && d'.runs[(i.0, m)].uid == i.1
    {
      SaveScores(t, run, i, m);
    }
    forall i, m | Score(d'.byChat, i, m).Some?
      ensures (i.0, m) in d'.runs && d'.runs[(i.0, m)].chatId == Some(i.1)
    {
      SaveScores(t, run, i, m);
    }
  }

  // ---- one lemma an operation: what it leaves, and that it keeps the invariant ----

  /** Every operation leaves the entries of the other runs as they are. */
  ghost predicate OthersKept(d: Runs, d': Runs, k: RunKey) {
    && (forall j :: j != k ==> (j in d'.runs <==> j in d.runs))
    && (forall j :: j != k && j in d.runs ==> d'.runs[j] == d.runs[j])
    && (forall j :: j != k ==> LogOf(d', j) == LogOf(d, j) && (j in d'.recovered <==> j in d.recovered))
    && d.clock <= d'.clock
  }

  lemma AuditsKept(d: Runs, d': Runs, k: RunKey)
    requires AuditsOk(d) && OthersKept(d, d', k)
    requires k in d'.runs ==> AuditAt(d', k)
    ensures AuditsOk(d')
  {
    forall j | j in d'.runs ensures AuditAt(d', j) {
      if j != k { assert AuditAt(d, j); }
    }
  }

  lemma BumpFacts(d: Runs, k: RunKey, e: EventBody)
    requires IndexOk(d)
    ensures var d' := BumpEventStats(d, k, e);
            && OthersKept(d, d', k) && d'.log == d.log && d'.recovered == d.recovered
            && d'.runs == (if k in d.runs then d.runs[k := Bumped(d.runs[k], e, d.clock)] else d.runs)
            && IndexOk(d')
  {
    if k in d.runs {
      assert Listed(d, k);
      SaveKeepsIndex(d, Bumped(d.runs[k], e, d.clock));
    }
  }

  lemma LoggedFacts(d: Runs, k: RunKey, e: EventBody)
    requires IndexOk(d)
    ensures var d' := Logged(d, k, e);
            OthersKept(d, d', k) && LogOf(d', k) == LogOf(d, k) + [e] && d'.recovered == d.recovered && IndexOk(d')
  {
    var d1 := Logged(d, k, e);
    forall j | j in d1.runs ensures Listed(d1, j) { assert Listed(d, j); }
  }

  lemma AppendFacts(d: Runs, k: RunKey, e: EventBody)
    requires IndexOk(d)
    ensures var d' := AppendEvent(d, k, e);
            && OthersKept(d, d', k)
            && d'.runs == (if k in d.runs then d.runs[k := Bumped(d.runs[k], e, d.clock + 1)] else d.runs)
            && LogOf(d', k) == LogOf(d, k) + [e] && d'.recovered == d.recovered
            && IndexOk(d')
  {
    LoggedFacts(d, k, e);
    BumpFacts(Logged(d, k, e), k, e);
  }

  lemma AppendAudit(run: Run, log: seq<EventBody>, e: EventBody, now: Time, recovered: bool)
    requires AuditOk(run, log, recovered) && !e.RunStatusChanged? && !e.RunCompleted?
    ensures AuditOk(Bumped(run, e, now), log + [e], recovered)
  {
    LogSnoc(log, e);
    assert Changes(log) + [] == Changes(log);
  }

  lemma AppendKeeps(d: Runs, k: RunKey, e: EventBody)
    requires RunsInv(d) && !e.RunStatusChanged? && !e.RunCompleted?
    ensures RunsInv(AppendEvent(d, k, e))
  {
    var d' := AppendEvent(d, k, e);
    AppendFacts(d, k, e);
    if k in d'.runs {
      assert AuditAt(d, k);
      AppendAudit(d.runs[k], LogOf(d, k), e, d.clock + 1, k in d.recovered);
    }
    AuditsKept(d, d', k);
  }

  lemma NewRunAudit(run: Run)
    requires run.status == Created && run.eventCount == 0 && run.toolCallCount == 0
    requires run.startedAt.None? && run.finishedAt.None?
    ensures AuditOk(run, [], false)
  {
  }

  lemma CreateKeeps(d: Runs, pid: string, runId: string, uid: string, source: RunSource,
                    chatId: Option<string>, job: Option<string>, ticket: Option<string>)
    requires RunsInv(d) && (pid, runId) !in d.runs && LogOf(d, (pid, runId)) == []
    ensures var d', k := CreateRun(d, pid, runId, uid, source, chatId, job, ticket), (pid, runId);
            && RunsInv(d') && OthersKept(d, d', k) && d'.log == d.log && k in d'.runs
            && d'.runs[k] == NewRun(d.clock, pid, runId, uid, source, chatId, job, ticket)
            && d'.clock == d.clock + 1
  {
    var run := NewRun(d.clock, pid, runId, uid, source, chatId, job, ticket);
    SaveKeepsIndex(d, run);
    NewRunAudit(run);
    AuditsKept(d, CreateRun(d, pid, runId, uid, source, chatId, job, ticket), (pid, runId));
  }

  lemma SetOhKeeps(d: Runs, k: RunKey, conv: string)
    requires RunsInv(d)
    ensures RunsInv(SetOhConversationId(d, k, conv))
    ensures OthersKept(d, SetOhConversationId(d, k, conv), k)
  {
    if k in d.runs {
      assert Listed(d, k) && AuditAt(d, k);
      SaveKeepsIndex(d, d.runs[k].(ohConversationId := Some(conv), updatedAt := d.clock));
      AuditsKept(d, SetOhConversationId(d, k, conv), k);
    }
  }

  lemma SavedFacts(d: Runs, k: RunKey, run: Run)
    requires IndexOk(d) && k in d.runs
    requires run.projectId == k.0 && run.runId == k.1 && run.updatedAt == d.clock
    requires run.uid == d.runs[k].uid && run.chatId == d.runs[k].chatId
    ensures var d' := Save(Tick(d), run);
            && OthersKept(d, d', k) && d'.log == d.log && d'.recovered == d.recovered
            && d'.runs == d.runs[k := run] && IndexOk(d')
  {
    SaveKeepsIndex(d, run);
  }

  function TransitionEvents(from: RunStatus, to: RunStatus, audited: bool): seq<EventBody> {
    if !audited then []
    else if IsTerminal(to) then [RunStatusChanged(from, to), RunCompleted(to)]
    else [RunStatusChanged(from, to)]
  }

  /** `r` is the document `m`, up to the counters and times that the audit events bump. */
  predicate SameButCounters(r: Run, m: Run) {
    r == m.(updatedAt := r.updatedAt, eventCount := r.eventCount)
  }

  /** One audit event on a stored run. */
  lemma AuditEventFacts(d: Runs, k: RunKey, e: EventBody)
    requires IndexOk(d) && k in d.runs && !e.ToolCall?
    ensures var d' := AppendEvent(d, k, e);
            && OthersKept(d, d', k) && d'.runs.Keys == d.runs.Keys && d'.recovered == d.recovered && IndexOk(d')
            && LogOf(d', k) == LogOf(d, k) + [e] && d'.runs[k].updatedAt > d.clock
            && SameButCounters(d'.runs[k], d.runs[k]) && d'.runs[k].eventCount == d.runs[k].eventCount + 1
  {
    AppendFacts(d, k, e);
  }

  lemma AuditedFacts(d: Runs, k: RunKey, from: RunStatus, to: RunStatus)
    requires IndexOk(d) && k in d.runs
    ensures var d' := Audited(d, k, from, to);
            && OthersKept(d, d', k) && d'.runs.Keys == d.runs.Keys && d'.recovered == d.recovered && IndexOk(d')
            && LogOf(d', k) == LogOf(d, k) + TransitionEvents(from, to, true)
            && d'.runs[k].updatedAt > d.clock
            && SameButCounters(d'.runs[k], d.runs[k])
            && d'.runs[k].eventCount == d.runs[k].eventCount + |TransitionEvents(from, to, true)|
  {
    hide AppendEvent, IndexOk, LogOf;
    var e1, e2 := RunStatusChanged(from, to), RunCompleted(to);
    var d1 := AppendEvent(d, k, e1);
    AuditEventFacts(d, k, e1);
    if IsTerminal(to) {
      AuditEventFacts(d1, k, e2);
      OthersKeptTwice(d, d1, AppendEvent(d1, k, e2), k);
      assert LogOf(d, k) + [e1] + [e2] == LogOf(d, k) + [e1, e2];
    }
  }

  lemma OthersKeptTwice(d: Runs, d1: Runs, d2: Runs, k: RunKey)
    requires OthersKept(d, d1, k) && OthersKept(d1, d2, k)
    ensures OthersKept(d, d2, k)
  {
  }

  /** What a successful transition leaves. */
  lemma TransitionFacts(d: Runs, k: RunKey, to: RunStatus, error: string, audited: bool)
    requires IndexOk(d) && Transition(d, k, to, error, audited).Ok?
    ensures var d' := Transition(d, k, to, error, audited).value;
            && OthersKept(d, d', k) && d'.runs.Keys == d.runs.Keys && d'.recovered == d.recovered && IndexOk(d')
            && k in d.runs && Allowed(d.runs[k].status, to)
            && SameButCounters(d'.runs[k], Moved(d.runs[k], to, d.clock, error))
            && d'.runs[k].updatedAt >= d.clock
            && d'.runs[k].eventCount == d.runs[k].eventCount + |TransitionEvents(d.runs[k].status, to, audited)|
            && LogOf(d', k) == LogOf(d, k) + TransitionEvents(d.runs[k].status, to, audited)
  {
    var run := d.runs[k];
    assert Listed(d, k);
    SavedFacts(d, k, Moved(run, to, d.clock, error));
    if audited {
      AuditedFacts(Save(Tick(d), Moved(run, to, d.clock, error)), k, run.status, to);
    }
  }

  lemma TransitionAudit(run: Run, log: seq<EventBody>, run': Run, to: RunStatus)
    requires AuditOk(run, log, false) && Allowed(run.status, to)
    requires run'.status == to && run'.toolCallCount == run.toolCallCount
    requires run'.eventCount == run.eventCount + |TransitionEvents(run.status, to, true)|
    requires run'.startedAt.Some? <==> run.startedAt.Some? || to == Running
    requires run'.finishedAt.Some? <==> run.finishedAt.Some? || IsTerminal(to)
    ensures AuditOk(run', log + TransitionEvents(run.status, to, true), false)
  {
    TableFacts(run.status, to);
    TransitionTrail(log, run.status, to);
    var c := Change(run.status, to);
    var cs' := Changes(log) + [c];
    assert c in cs';
    assert forall x :: x in cs' <==> x in Changes(log) || x == c;
  }

  /** What the audit events of one transition add to a trail that ends at its source. */
  lemma TransitionTrail(log: seq<EventBody>, from: RunStatus, to: RunStatus)
    requires IsPath(Changes(log)) && PathEnd(Changes(log)) == from && Allowed(from, to)
    ensures var log' := log + TransitionEvents(from, to, true);
            && Changes(log') == Changes(log) + [Change(from, to)]
            && IsPath(Changes(log')) && PathEnd(Changes(log')) == to
            && CompletedEvents(log') == CompletedEvents(log) + (if IsTerminal(to) then 1 else 0)
            && ToolCalls(log') == ToolCalls(log)
  {
    var e := RunStatusChanged(from, to);
    var cs, c := Changes(log), Change(from, to);
    LogSnoc(log, e);
    PathSnoc(cs, c);
    if IsTerminal(to) {
      LogSnoc(log + [e], RunCompleted(to));
      assert log + [e] + [RunCompleted(to)] == log + TransitionEvents(from, to, true);
      assert cs + [c] + [] == cs + [c];
    }
  }

  lemma TransitionKeeps(d: Runs, k: RunKey, to: RunStatus, error: string)
    requires RunsInv(d) && Transition(d, k, to, error, true).Ok?
    ensures RunsInv(Transition(d, k, to, error, true).value)
  {
    TransitionFacts(d, k, to, error, true);
    var d' := Transition(d, k, to, error, true).value;
    TableFacts(d.runs[k].status, to);
    assert AuditAt(d, k);
    TransitionAudit(d.runs[k], LogOf(d, k), d'.runs[k], to);
    AuditsKept(d, d', k);
  }

  // ---- one summary for all operations on one run ----

  ghost function ResumptionsOf(d: Runs, k: RunKey): nat { Resumptions(Changes(LogOf(d, k))) }

  /** What a run never loses: its owner and chat, the times once set, and a terminal status. */
  predicate Stamped(r: Run, r': Run) {
    && r'.uid == r.uid && r'.chatId == r.chatId && r'.createdAt == r.createdAt
    && (r.startedAt.Some? ==> r'.startedAt == r.startedAt)
    && (r.finishedAt.Some? ==> r'.finishedAt == r.finishedAt)
    && (IsTerminal(r.status) ==> r'.status == r.status)
  }

  predicate Extends(log: seq<EventBody>, log': seq<EventBody>) { |log| <= |log'| && log'[..|log|] == log }

  lemma ExtendsAdded(log: seq<EventBody>, more: seq<EventBody>)
    ensures Extends(log, log + more) && Extends(log, log)
  {
  }

  lemma ExtendsTwice(a: seq<EventBody>, b: seq<EventBody>, c: seq<EventBody>)
    requires Extends(a, b) && Extends(b, c)
    ensures Extends(a, c)
  {
    assert c[..|a|] == c[..|b|][..|a|];
  }

  /** From `d` to `d'` only the run `k` was worked on: its log was only added to, and it was
      resumed `resumed` times. */
  ghost predicate Worked(d: Runs, d': Runs, k: RunKey, resumed: nat) {
    && RunsInv(d') && OthersKept(d, d', k)
    && (k in d.runs ==> k in d'.runs && Stamped(d.runs[k], d'.runs[k]))
    && (k in d'.runs ==>
          d'.runs[k].updatedAt >= d.clock || (k in d.runs && d'.runs[k].updatedAt == d.runs[k].updatedAt))
    && Extends(LogOf(d, k), LogOf(d', k))
    && ResumptionsOf(d', k) == ResumptionsOf(d, k) + resumed
  }

  lemma WorkedTwice(d: Runs, d1: Runs, d2: Runs, k: RunKey, r1: nat, r2: nat)
    requires Worked(d, d1, k, r1) && Worked(d1, d2, k, r2)
    ensures Worked(d, d2, k, r1 + r2)
  {
    ExtendsTwice(LogOf(d, k), LogOf(d1, k), LogOf(d2, k));
  }

  lemma ResumptionsAfter(log: seq<EventBody>, from: RunStatus, to: RunStatus)
    ensures Resumptions(Changes(log + TransitionEvents(from, to, true))) ==
            Resumptions(Changes(log)) + (if from == WaitingApproval && to == Running then 1 else 0)
  {
    var e := RunStatusChanged(from, to);
    LogSnoc(log, e);
    CountSnoc(Changes(log), Change(from, to), Some(WaitingApproval), Running);
    if IsTerminal(to) {
      LogSnoc(log + [e], RunCompleted(to));
      assert log + [e] + [RunCompleted(to)] == log + TransitionEvents(from, to, true);
      assert Changes(log + [e]) + [] == Changes(log + [e]);
    }
  }

  lemma AppendWorks(d: Runs, k: RunKey, e: EventBody)
    requires RunsInv(d) && !e.RunStatusChanged? && !e.RunCompleted?
    ensures Worked(d, AppendEvent(d, k, e), k, 0)
    ensures AppendEvent(d, k, e).runs.Keys == d.runs.Keys
    ensures k in d.runs ==> AppendEvent(d, k, e).runs[k].status == d.runs[k].status
    ensures k in d.runs ==> AppendEvent(d, k, e).runs[k].updatedAt > d.clock
  {
    AppendKeeps(d, k, e);
    AppendFacts(d, k, e);
    ExtendsAdded(LogOf(d, k), [e]);
    LogSnoc(LogOf(d, k), e);
    assert Changes(LogOf(d, k)) + [] == Changes(LogOf(d, k));
  }

  lemma SetOhWorks(d: Runs, k: RunKey, conv: string)
    requires RunsInv(d)
    ensures Worked(d, SetOhConversationId(d, k, conv), k, 0)
    ensures SetOhConversationId(d, k, conv).runs.Keys == d.runs.Keys
    ensures k in d.runs ==> SetOhConversationId(d, k, conv).runs[k].status == d.runs[k].status
    ensures k in d.runs ==> SetOhConversationId(d, k, conv).runs[k].updatedAt >= d.clock
  {
    SetOhKeeps(d, k, conv);
    if k in d.runs { assert Listed(d, k); }
  }

  lemma TransitionWorks(d: Runs, k: RunKey, to: RunStatus, error: string)
    requires RunsInv(d) && Transition(d, k, to, error, true).Ok?
    ensures var d' := Transition(d, k, to, error, true).value;
            && k in d.runs && Allowed(d.runs[k].status, to) && d'.runs.Keys == d.runs.Keys
            && Worked(d, d', k, if d.runs[k].status == WaitingApproval && to == Running then 1 else 0)
            && d'.runs[k].status == to && d'.runs[k].updatedAt >= d.clock
  {
    var d' := Transition(d, k, to, error, true).value;
    TransitionKeeps(d, k, to, error);
    TransitionFacts(d, k, to, error, true);
    TransitionStamps(d, k, to, error, d'.runs[k]);
    ExtendsAdded(LogOf(d, k), TransitionEvents(d.runs[k].status, to, true));
    ResumptionsAfter(LogOf(d, k), d.runs[k].status, to);
  }

  lemma TransitionStamps(d: Runs, k: RunKey, to: RunStatus, error: string, r: Run)
    requires AuditsOk(d) && k in d.runs && Allowed(d.runs[k].status, to)
    requires SameButCounters(r, Moved(d.runs[k], to, d.clock, error))
    ensures Stamped(d.runs[k], r) && r.status == to
  {
    assert AuditAt(d, k);
    TableFacts(d.runs[k].status, to);
  }

  lemma TransitionRuns(d: Runs, k: RunKey, to: RunStatus, error: string)
    requires k in d.runs
    ensures Transition(d, k, to, error, true).Ok? <==> Allowed(d.runs[k].status, to)
  {
    if Allowed(d.runs[k].status, to) { TableFacts(d.runs[k].status, to); }
  }

  /** A swallowed transition to any status but RUNNING. */
  lemma TryWorks(d: Runs, k: RunKey, to: RunStatus, error: string)
    requires RunsInv(d) && to != Running
    ensures var d' := TryTransition(d, k, to, error);
            && Worked(d, d', k, 0) && d'.runs.Keys == d.runs.Keys
            && (k in d.runs && Allowed(d.runs[k].status, to) ==>
                 d'.runs[k].status == to && d'.runs[k].updatedAt >= d.clock)
            && (k in d.runs && !Allowed(d.runs[k].status, to) ==> d' == d)
            && (k !in d.runs ==> d' == d)
  {
    if k in d.runs {
      TransitionRuns(d, k, to, error);
      if Transition(d, k, to, error, true).Ok? { TransitionWorks(d, k, to, error); }
    }
  }

  lemma BeginWorks(d: Runs, pid: string, runId: string, uid: string, source: RunSource,
                   chatId: Option<string>, job: Option<string>, ticket: Option<string>)
    requires RunsInv(d) && (pid, runId) !in d.runs && LogOf(d, (pid, runId)) == []
    ensures var k, d' := (pid, runId), BeginRun(d, pid, runId, uid, source, chatId, job, ticket);
            && Worked(d, d', k, 0)
            && k in d'.runs && d'.runs[k].status == Running
            && d'.runs[k].uid == uid && d'.runs[k].chatId == chatId
            && d'.runs[k].updatedAt >= d.clock
  {
    hide RunsInv, OthersKept, Extends, ResumptionsOf, CreateRun, AppendEvent, Transition;
    var k := (pid, runId);
    var d1 := CreateRun(d, pid, runId, uid, source, chatId, job, ticket);
    CreateWorks(d, pid, runId, uid, source, chatId, job, ticket);
    var e := RunCreated(source, chatId, job);
    AppendWorks(d1, k, e);
    var d2 := AppendEvent(d1, k, e);
    TransitionRuns(d2, k, Running, "");
    TransitionWorks(d2, k, Running, "");
    WorkedTwice(d, d1, d2, k, 0, 0);
    WorkedTwice(d, d2, TryTransition(d2, k, Running, ""), k, 0, 0);
  }

  lemma CreateWorks(d: Runs, pid: string, runId: string, uid: string, source: RunSource,
                    chatId: Option<string>, job: Option<string>, ticket: Option<string>)
    requires RunsInv(d) && (pid, runId) !in d.runs && LogOf(d, (pid, runId)) == []
    ensures var d', k := CreateRun(d, pid, runId, uid, source, chatId, job, ticket), (pid, runId);
            && Worked(d, d', k, 0) && k in d'.runs && d'.runs[k].status == Created
            && d'.runs[k].uid == uid && d'.runs[k].chatId == chatId && d'.runs[k].updatedAt >= d.clock
  {
    hide RunsInv, CreateRun;
    CreateKeeps(d, pid, runId, uid, source, chatId, job, ticket);
  }

  // ---- restart recovery ----

  lemma FailOrphanFacts(d: Runs, k: RunKey, reason: string)
    requires RunsInv(d)
    ensures var d' := FailOrphan(d, k, reason);
            && RunsInv(d') && OthersKept(d, d', k) && d'.log == d.log && d'.runs.Keys == d.runs.Keys
            && (k in d.runs ==>
                 && Stamped(d.runs[k], d'.runs[k])
                 && d'.runs[k].status == if Started(d.runs[k].status) then Failed else d.runs[k].status)
  {
    if Transition(d, k, Failed, reason, false).Ok? {
      TransitionFacts(d, k, Failed, reason, false);
      var t := Transition(d, k, Failed, reason, false).value;
      assert AuditAt(d, k);
      assert LogOf(d, k) + [] == LogOf(d, k);
      MarkedRecovered(d, t, k);
    }
  }

  /** A run failed without an audit event, then noted as recovered. */
  lemma MarkedRecovered(d: Runs, t: Runs, k: RunKey)
    requires AuditsOk(d) && d.recovered <= d.runs.Keys && IndexOk(t) && OthersKept(d, t, k) && k in d.runs
               && k in t.runs
    requires t.recovered == d.recovered && t.runs.Keys == d.runs.Keys && LogOf(t, k) == LogOf(d, k)
    requires AuditOk(t.runs[k], LogOf(t, k), true)
    ensures var d' := t.(recovered := t.recovered + {k}); RunsInv(d') && OthersKept(d, d', k)
  {
    var d' := t.(recovered := t.recovered + {k});
    RecoveredIndex(t, t.recovered + {k});
    hide AuditOk, IndexOk;
    assert LogOf(d', k) == LogOf(t, k);
    AuditsKept(d, d', k);
  }

  lemma RecoveredIndex(d: Runs, recovered: set<RunKey>)
    requires IndexOk(d)
    ensures IndexOk(d.(recovered := recovered))
  {
    var d' := d.(recovered := recovered);
    forall j | j in d'.runs ensures Listed(d', j) { assert Listed(d, j); }
    hide Listed;
  }

  /** What recovery makes of one run. */
  predicate Recovery(r: Run, r': Run, listed: bool) {
    && Stamped(r, r')
    && r'.status == if listed && Started(r.status) then Failed else r.status
  }

  /** Every started run among the keys ends FAILED, and no other changes status. */
  ghost predicate Recovers(d: Runs, d': Runs, ks: seq<RunKey>) {
    && d'.runs.Keys == d.runs.Keys && d'.log == d.log && d.clock <= d'.clock
    && (forall k :: k in d.runs ==> Recovery(d.runs[k], d'.runs[k], k in ks))
  }

  lemma RecoversNext(d: Runs, d1: Runs, ks: seq<RunKey>, k: RunKey, reason: string)
    requires Recovers(d, d1, ks) && RunsInv(d1)
    ensures Recovers(d, FailOrphan(d1, k, reason), ks + [k])
  {
    FailOrphanFacts(d1, k, reason);
    hide RunsInv, FailOrphan;
    forall j | j in d.runs ensures Recovery(d.runs[j], FailOrphan(d1, k, reason).runs[j], j in ks + [k]) {
      assert j in ks + [k] <==> j in ks || j == k;
    }
  }

  /** Restart recovery over any listing of the runs: every started run ends FAILED, and nothing
      else changes status.  So a run is left unfinished exactly when it was CREATED or QUEUED. */
  lemma {:induction false} RecoveryExact(d: Runs, ks: seq<RunKey>, reason: string)
    requires RunsInv(d)
    ensures RunsInv(FailOrphans(d, ks, reason)) && Recovers(d, FailOrphans(d, ks, reason), ks)
  {
    if ks != [] {
      var n := |ks| - 1;
      var d1 := FailOrphans(d, ks[..n], reason);
      RecoveryExact(d, ks[..n], reason);
      FailOrphanFacts(d1, ks[n], reason);
      RecoversNext(d, d1, ks[..n], ks[n], reason);
      assert ks == ks[..n] + [ks[n]];
    }
  }

  lemma RecoveryLeavesUnstarted(d: Runs, ks: seq<RunKey>, reason: string, k: RunKey)
    requires RunsInv(d) && k in d.runs && k in ks
    ensures k in FailOrphans(d, ks, reason).runs
    ensures !IsTerminal(FailOrphans(d, ks, reason).runs[k].status) <==> d.runs[k].status in {Created, Queued}
  {
    RecoveryExact(d, ks, reason);
  }

  // ---- the active run of a chat ----

  predicate ActiveIn(d: Runs, k: RunKey, uid: string, chatId: string) {
    k in d.runs && d.runs[k].uid == uid && d.runs[k].chatId == Some(chatId) && !IsTerminal(d.runs[k].status)
  }

  lemma {:induction false} FirstActiveSound(d: Runs, pid: string, ids: seq<string>, uid: string)
    ensures var r := FirstActive(Loaded(d, pid, ids), uid);
            && (r.Some? ==> exists m :: m in ids && (pid, m) in d.runs && d.runs[(pid, m)] == r.value
                                     && r.value.uid == uid && !IsTerminal(r.value.status))
            && (r.None? ==> forall m :: m in ids && (pid, m) in d.runs ==>
                  d.runs[(pid, m)].uid != uid || IsTerminal(d.runs[(pid, m)].status))
  {
    if ids != [] {
      FirstActiveSound(d, pid, ids[1..], uid);
      var l, t := Loaded(d, pid, ids), Loaded(d, pid, ids[1..]);
      assert ids[0] in ids && forall m :: m in ids <==> m == ids[0] || m in ids[1..];
      if (pid, ids[0]) in d.runs {
        assert l[0] == d.runs[(pid, ids[0])] && l[1..] == t;
      } else {
        assert l == t;
      }
    }
  }

  /** Whatever the 50-entry window holds, a run it reports is active in the chat. */
  lemma ActiveRunSound(d: Runs, pid: string, uid: string, chatId: string)
    requires RunsInv(d)
    ensures var r := GetActiveRunForChat(d, pid, uid, chatId);
            r.Some? ==> ActiveIn(d, (pid, r.value.runId), uid, chatId) && d.runs[(pid, r.value.runId)] == r.value
  {
    var z := ZSetAt(d.byChat, (pid, chatId));
    var ids := ZRevRange(z, 0, 49);
    FirstActiveSound(d, pid, ids, uid);
    var r := GetActiveRunForChat(d, pid, uid, chatId);
    if r.Some? {
      var m :| m in ids && (pid, m) in d.runs && d.runs[(pid, m)] == r.value
               && r.value.uid == uid && !IsTerminal(r.value.status);
      ZRevRangeMembers(z, 49, m);
      assert Score(d.byChat, (pid, chatId), m).Some?;
      assert Listed(d, (pid, m));
    }
  }

  /** When the active run has the greatest score of its chat, the window reports it; so the
      window then agrees with a scan of all runs. */
  lemma ActiveRunFound(d: Runs, k: RunKey, uid: string, chatId: string)
    requires RunsInv(d) && ActiveIn(d, k, uid, chatId)
    requires forall j :: j in d.runs && j != k && j.0 == k.0 && d.runs[j].chatId == Some(chatId) ==>
               d.runs[j].updatedAt < d.runs[k].updatedAt
    ensures GetActiveRunForChat(d, k.0, uid, chatId) == Some(d.runs[k])
  {
    var z := ZSetAt(d.byChat, (k.0, chatId));
    assert Listed(d, k);
    forall m | m in z && m != k.1 ensures z[m] < z[k.1] {
      assert Score(d.byChat, (k.0, chatId), m).Some?;
      assert Listed(d, (k.0, m));
    }
    ZRevRangeHead(z, 49, k.1);
    var ids := ZRevRange(z, 0, 49);
    assert Loaded(d, k.0, ids)[0] == d.runs[k];
  }
}
