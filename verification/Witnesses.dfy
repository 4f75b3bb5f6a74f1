/** Runs of the protocol that reach the states which the exact conditions single out. */
module Witnesses {
  import opened Wrappers
  import opened RunModel
  import opened RunDb
  import opened Approvals
  import opened Policy
  import opened World
  import opened Settling
  import opened Safety
  import opened SingleFlight
  import opened StuckTasks
  import opened Tickets
  import opened Theorems
  import opened Decisions

  /** A step that is neither a resume nor an audit event keeps single flight. */
  lemma PlainStep(gov: Governance, steps: seq<Step>, step: Step)
    requires FlightInv(Exec(gov, steps)) && !step.ApproveInChat? && !step.ToolCallHook? && !step.AgentEvent?
    ensures Exec(gov, steps + [step]) == Next(gov, Exec(gov, steps), step) && FlightInv(Exec(gov, steps + [step]))
  {
    hide FlightInv;
    ExecSnoc(gov, steps, step);
    forall k ensures !EventRun(step, k) {}
    QuietStepFlight(gov, Exec(gov, steps), step);
  }

  // ---- a chat with one task ----

  function Task(c: ChatKey, conv: Option<string>): ChatRun { ChatRun(c, None, None, false, Scheduled, false, conv, "") }

  function Opening(c: ChatKey, o: nat, conv: Option<string>): seq<Step> { [CreateChat(c), StartTask(c, o, conv)] }

  lemma OpeningState(gov: Governance, c: ChatKey, o: nat, conv: Option<string>)
    ensures var s := Exec(gov, Opening(c, o, conv));
            && FlightInv(s)
            && s == State(EMPTY_RUNS, EMPTY_LEDGER, map[c := Idle], map[(c.0, c.2) := c.1], map[o := Task(c, conv)],
                 map[c := o])
  {
    InitSafe();
    assert Exec(gov, []) == INIT && FlightInv(INIT);
    OpeningSteps(gov, c, o, conv);
    hide Exec, FlightInv, Next;
    PlainStep(gov, [], CreateChat(c));
    assert [] + [CreateChat(c)] == [CreateChat(c)];
    PlainStep(gov, [CreateChat(c)], StartTask(c, o, conv));
    assert [CreateChat(c)] + [StartTask(c, o, conv)] == Opening(c, o, conv);
  }

  lemma OpeningSteps(gov: Governance, c: ChatKey, o: nat, conv: Option<string>)
    ensures Next(gov, Next(gov, INIT, CreateChat(c)), StartTask(c, o, conv)) ==
            State(EMPTY_RUNS, EMPTY_LEDGER, map[c := Idle], map[(c.0, c.2) := c.1], map[o := Task(c, conv)],
              map[c := o])
  {
    assert Next(gov, INIT, CreateChat(c)) == State(EMPTY_RUNS, EMPTY_LEDGER, map[c := Idle], map[(c.0, c.2) := c.1],
      map[], map[]);
    ActiveRunSound(EMPTY_RUNS, c.0, c.1, c.2);
    hide GetActiveRunForChat;
  }

  /** The chat of a task that is cancelled before its first step: every message that follows is
      refused until the server restarts. */
  lemma StuckReached(gov: Governance, c: ChatKey, o: nat, conv: Option<string>, more: seq<Step>)
    requires NoRestart(more)
    ensures var s := Exec(gov, Opening(c, o, conv) + [CancelTask(c)] + [CancelledBeforeFirstStep(o)] + more);
            Stuck(s, c, o) && forall n: nat, v {:trigger StartTask(c, n, v)} :: Next(gov, s, StartTask(c, n, v)) == s
  {
    var steps, step := Opening(c, o, conv) + [CancelTask(c)], CancelledBeforeFirstStep(o);
    OpeningState(gov, c, o, conv);
    PlainStep(gov, Opening(c, o, conv), CancelTask(c));
    CancelledIsStuck(gov, Exec(gov, steps), o);
    ExecSnoc(gov, steps, step);
    StuckForGood(gov, steps + [step], more, c, o);
  }

  // ---- its run ----

  function Investigating(c: ChatKey, o: nat, conv: Option<string>, id: string): seq<Step> {
    Opening(c, o, conv) + [FirstStep(o, id)]
  }

  /** One run of the chat, and nothing else is stored. */
  ghost predicate OneRun(d: Runs, c: ChatKey, id: string, status: RunStatus) {
    && d.runs.Keys == {(c.0, id)} && d.runs[(c.0, id)].status == status
    && d.runs[(c.0, id)].uid == c.1 && d.runs[(c.0, id)].chatId == Some(c.2)
    && (forall k :: k != (c.0, id) ==> LogOf(d, k) == [])
  }

  /** Its task is suspended in the engine. */
  predicate OneTask(s: State, c: ChatKey, o: nat, id: string) {
    && s.registry == map[c := o] && s.objs.Keys == {o} && c in s.chats
    && s.objs[o].chat == c && s.objs[o].runId == Some(id) && s.objs[o].phase == AwaitingChunk
  }

  lemma BegunState(s: State, c: ChatKey, o: nat, conv: Option<string>, id: string)
    requires s == State(EMPTY_RUNS, EMPTY_LEDGER, map[c := Idle], map[(c.0, c.2) := c.1], map[o := Task(c, conv)],
               map[c := o])
    ensures Enabled(s, FirstStep(o, id))
    ensures var s' := Begin(s, o, id);
            && OneTask(s', c, o, id) && s'.ledger == EMPTY_LEDGER
            && s'.runs == BeginRun(EMPTY_RUNS, c.0, id, c.1, Chat, Some(c.2), None, None)
  {
    hide BeginRun;
  }

  lemma BegunRun(d: Runs, c: ChatKey, id: string)
    requires RunsInv(d) && d.runs == map[] && d.log == map[]
    ensures OneRun(BeginRun(d, c.0, id, c.1, Chat, Some(c.2), None, None), c, id, Running)
  {
    hide RunsInv, BeginRun, ResumptionsOf, Extends;
    BeginWorks(d, c.0, id, c.1, Chat, Some(c.2), None, None);
  }

  lemma RunningReached(gov: Governance, c: ChatKey, o: nat, conv: Option<string>, id: string)
    ensures var s := Exec(gov, Investigating(c, o, conv, id));
            FlightInv(s) && OneTask(s, c, o, id) && OneRun(s.runs, c, id, Running) && s.ledger == EMPTY_LEDGER
  {
    hide Exec, FlightInv, Begin, OneTask, OneRun;
    OpeningState(gov, c, o, conv);
    var s := Exec(gov, Opening(c, o, conv));
    PlainStep(gov, Opening(c, o, conv), FirstStep(o, id));
    BegunState(s, c, o, conv, id);
    SafeStores(s) by { AlwaysSafe(gov, Opening(c, o, conv)); }
    BegunRun(s.runs, c, id);
  }

  // ---- a resume that takes over a live task ----

  /** A deployment whose rules ask for an approval of every call. */
  const ASKING := Governance([], GovernanceConfig(ServerRule(RequireApproval, AllowUnknown), map[], map[]), None)

  lemma AsksAlways(ctx: ToolContext)
    ensures Verdict(ASKING, ctx).decision == RequireApproval
  {
    FirstMatchDecides(ASKING, ctx, 0);
  }

  lemma OneRequest(pid: string, id: string, runId: string, tool: string, server: string, arguments: string, length: nat)
    ensures var a := CreateRequest(EMPTY_LEDGER, pid, id, runId, tool, server, arguments, length);
            GetPendingForRun(a, pid, runId).Some?
  {
    var a := CreateRequest(EMPTY_LEDGER, pid, id, runId, tool, server, arguments, length);
    CreateKeepsLedger(EMPTY_LEDGER, pid, id, runId, tool, server, arguments, length);
    PendingMissedExactly(a, pid, runId);
    assert (pid, id) in a.requests && a.requests[(pid, id)].status == Pending;
    assert ZSetAt(a.byRun, (pid, runId)) == map[id := length];
  }

  /** The gate asks for an approval, and the request it creates is found. */
  lemma FirstAsked(gov: Governance, d: Runs, ctx: ToolContext, f: Fresh)
    requires ctx.runId != "" && Verdict(gov, WithRegistry(gov, ctx)).decision == RequireApproval
    ensures var (d', a, r) := Gate(gov, d, EMPTY_LEDGER, ctx, f);
            r.waitingApproval && GetPendingForRun(a, ctx.projectId, ctx.runId).Some?
  {
    hide AppendEvent, GetPendingForRun, Verdict;
    OneRequest(ctx.projectId, f.approvalId, ctx.runId, ctx.toolName, ctx.mcpServer, ctx.arguments, f.createdAtLength);
  }

  lemma MarkedLedger(s: State, ctx: ToolContext, message: string)
    ensures MarkWaiting(s, ctx, message).ledger == s.ledger && MarkWaiting(s, ctx, message).chats.Keys == s.chats.Keys
  {
    hide MarkedWaiting;
  }

  /** The first call of a run that the rules hold back: the run waits, its request is found, and its
      task is still suspended in the engine. */
  lemma HeldBack(gov: Governance, s: State, c: ChatKey, o: nat, id: string, ctx: ToolContext, f: Fresh)
    requires SafeInv(s) && OneTask(s, c, o, id) && OneRun(s.runs, c, id, Running) && s.ledger == EMPTY_LEDGER
    requires id != "" && ctx.toolName != "" && KeyOf(ctx) == (c.0, id)
    requires Verdict(gov, WithRegistry(gov, ctx)).decision == RequireApproval
    ensures var s' := Hook(gov, s, ctx, f);
            OneTask(s', c, o, id) && OneRun(s'.runs, c, id, WaitingApproval) && AwaitsDecision(s', (c.0, id))
  {
    hide SafeInv, Gate, Hook, Verdict, MarkWaiting, GetPendingForRun, RunsInv, Extends, ResumptionsOf;
    var (d, a, r) := Gate(gov, s.runs, s.ledger, ctx, f);
    FirstAsked(gov, s.runs, ctx, f);
    assert Enabled(s, ToolCallHook(ctx, f));
    HeldCallPauses(gov, s, ctx, f);
    SafeStores(s);
    HookWorks(gov, s, ctx, f);
    HookMarks(gov, s, ctx, f);
    MarkedLedger(s.(runs := d, ledger := a), ctx, r.message);
  }

  /** Held back, then approved while the task is still suspended: the resume takes over a live task,
      and the chat has two. */
  lemma TakeoverReached(gov: Governance, c: ChatKey, o: nat, conv: Option<string>, id: string, ctx: ToolContext,
                        f: Fresh, o2: nat, why: Option<string>, conv2: Option<string>)
    requires id != "" && ctx.toolName != "" && KeyOf(ctx) == (c.0, id) && o2 != o
    requires Verdict(gov, WithRegistry(gov, ctx)).decision == RequireApproval
    ensures var steps := Investigating(c, o, conv, id) + [ToolCallHook(ctx, f)];
            var step := ApproveInChat((c.0, id), o2, why, conv2);
            TakesOverLive(Exec(gov, steps), step) && !AtMostOneLive(Exec(gov, steps + [step]))
  {
    hide Exec, SafeInv, FlightInv, Hook, Verdict, GetPendingForRun;
    var before, held := Investigating(c, o, conv, id), ToolCallHook(ctx, f);
    var step := ApproveInChat((c.0, id), o2, why, conv2);
    RunningReached(gov, c, o, conv, id);
    AlwaysSafe(gov, before);
    HeldBack(gov, Exec(gov, before), c, o, id, ctx, f);
    ExecSnoc(gov, before, held);
    var s := Exec(gov, before + [held]);
    assert LiveObj(s, o);
    AlwaysSafe(gov, before + [held]);
    TakeoverBreaks(gov, s, step);
    ExecSnoc(gov, before + [held], step);
  }

  /** So not every run is quiet. */
  lemma TakeoverHappens()
    ensures exists steps, step {:trigger TakesOverLive(Exec(ASKING, steps), step)} ::
              TakesOverLive(Exec(ASKING, steps), step) && !AtMostOneLive(Exec(ASKING, steps + [step]))
  {
    var ctx := ToolContext("p", "", "shell", "{}", true, "r", "u", Some("c"));
    AsksAlways(WithRegistry(ASKING, ctx));
    TakeoverReached(ASKING, ("p", "u", "c"), 0, None, "r", ctx, NewIds("a", 32), 1, None, None);
    hide Exec, TakesOverLive, AtMostOneLive;
    var steps := Investigating(("p", "u", "c"), 0, None, "r") + [ToolCallHook(ctx, NewIds("a", 32))];
    var step := ApproveInChat(("p", "r"), 1, None, None);
    assert TakesOverLive(Exec(ASKING, steps), step);
  }

  // ---- a late event ----

  /** A swallowed transition of the only run. */
  lemma OneRunTried(d: Runs, c: ChatKey, id: string, from: RunStatus, to: RunStatus, text: string)
    requires RunsInv(d) && OneRun(d, c, id, from) && to != Running && Allowed(from, to)
    ensures OneRun(TryTransition(d, (c.0, id), to, text), c, id, to)
  {
    hide RunsInv, TryTransition;
    TryWorks(d, (c.0, id), to, text);
  }

  /** A task that is left by an exception: its run has the status of the handler, its entry is gone. */
  lemma RaisedState(s: State, c: ChatKey, o: nat, id: string, from: RunStatus, f: Failure, m: string)
    requires RunsInv(s.runs) && OneRun(s.runs, c, id, from) && Allowed(from, FailureStatus(f))
    requires o in s.objs && s.objs[o].chat == c && s.objs[o].runId == Some(id) && c in s.chats
    ensures var s' := Raised(s, o, f, m);
            && OneRun(s'.runs, c, id, FailureStatus(f)) && s'.registry == s.registry - {c}
            && s'.objs == s.objs[o := s.objs[o].(phase := Ended)] && c in s'.chats
  {
    hide RunsInv, TryTransition, OneRun;
    OneRunTried(s.runs, c, id, from, FailureStatus(f), if f == CancelledError then "" else m);
  }

  lemma FailedReached(gov: Governance, c: ChatKey, o: nat, conv: Option<string>, id: string, m: string)
    ensures var s := Exec(gov, Investigating(c, o, conv, id) + [TaskStep(o, Raise(OtherError, m))]);
            && FlightInv(s) && OneRun(s.runs, c, id, Failed)
            && s.registry == map[] && s.objs.Keys == {o} && c in s.chats
  {
    hide Exec, FlightInv, OneRun, Raised;
    var before, step := Investigating(c, o, conv, id), TaskStep(o, Raise(OtherError, m));
    RunningReached(gov, c, o, conv, id);
    PlainStep(gov, before, step);
    AlwaysSafe(gov, before);
    SafeStores(Exec(gov, before));
    RaisedState(Exec(gov, before), c, o, id, Running, OtherError, m);
  }

  /** A new message where the only run is over: its task is registered. */
  lemma NewTask(s: State, c: ChatKey, o: nat, conv: Option<string>, id: string, over: RunStatus)
    requires RunsInv(s.runs) && OneRun(s.runs, c, id, over) && IsTerminal(over)
    requires c !in s.registry && o !in s.objs && c in s.chats
    ensures Enabled(s, StartTask(c, o, conv))
    ensures Start(s, c, o, conv) == s.(objs := s.objs[o := Task(c, conv)], registry := s.registry[c := o])
  {
    hide RunsInv;
    ActiveRunSound(s.runs, c.0, c.1, c.2);
    hide GetActiveRunForChat;
  }

  lemma SecondBegun(s: State, c: ChatKey, o: nat, conv: Option<string>, id: string, id1: string)
    requires RunsInv(s.runs) && OneRun(s.runs, c, id1, Failed) && id != id1
    requires o in s.objs && s.objs[o] == Task(c, conv) && c in s.chats
    ensures Enabled(s, FirstStep(o, id))
    ensures var d := Begin(s, o, id).runs;
            SameChat(d, (c.0, id1), (c.0, id)) && Unfinished(d, (c.0, id))
  {
    hide RunsInv, BeginRun;
    BeginWorks(s.runs, c.0, id, c.1, Chat, Some(c.2), None, None);
  }

  function SecondMessage(c: ChatKey, o: nat, conv: Option<string>, id: string): seq<Step> {
    [StartTask(c, o, conv), FirstStep(o, id)]
  }

  lemma SecondReached(gov: Governance, steps: seq<Step>, c: ChatKey, o: nat, conv: Option<string>, id: string,
                      id1: string)
    requires var s := Exec(gov, steps);
             FlightInv(s) && OneRun(s.runs, c, id1, Failed) && s.registry == map[] && o !in s.objs && c in s.chats
    requires id != id1
    ensures var d := Exec(gov, steps + SecondMessage(c, o, conv, id)).runs;
            SameChat(d, (c.0, id1), (c.0, id)) && Unfinished(d, (c.0, id))
  {
    hide Exec, FlightInv, OneRun, Start, Begin;
    var start := StartTask(c, o, conv);
    AlwaysSafe(gov, steps);
    SafeStores(Exec(gov, steps));
    NewTask(Exec(gov, steps), c, o, conv, id1, Failed);
    ExecSnoc(gov, steps, start);
    SecondBegun(Exec(gov, steps + [start]), c, o, conv, id, id1);
    ExecSnoc(gov, steps + [start], FirstStep(o, id));
    assert steps + [start] + [FirstStep(o, id)] == steps + SecondMessage(c, o, conv, id);
  }

  /** A failed run, a new message and then an event of the old run: the new one, unfinished, no longer
      has the greatest score of its chat. */
  lemma LateEventReached(gov: Governance, c: ChatKey, o: nat, conv: Option<string>, id: string, m: string,
                         o2: nat, conv2: Option<string>, id2: string, e: EventBody)
    requires o2 != o && id2 != id && IsAgentEvent(e)
    ensures var steps := Investigating(c, o, conv, id) + [TaskStep(o, Raise(OtherError, m))]
              + SecondMessage(c, o2, conv2, id2);
            var step := AgentEvent((c.0, id), e);
            LateEvent(Exec(gov, steps), step) && !ChatOrder(Exec(gov, steps + [step]).runs)
  {
    hide FlightInv, OneRun, Begin, Start, SafeInv, ChatOrder;
    var failed := Investigating(c, o, conv, id) + [TaskStep(o, Raise(OtherError, m))];
    var steps, step := failed + SecondMessage(c, o2, conv2, id2), AgentEvent((c.0, id), e);
    FailedReached(gov, c, o, conv, id, m);
    SecondReached(gov, failed, c, o2, conv2, id2, id);
    AlwaysSafe(gov, steps);
    assert EventRun(step, (c.0, id));
    LateEventBreaks(gov, Exec(gov, steps), step);
    ExecSnoc(gov, steps, step);
  }

  // ---- a cancel that is met at a chunk ----

  lemma CancelledState(s: State, c: ChatKey, o: nat, id: string)
    requires RunsInv(s.runs) && OneTask(s, c, o, id) && OneRun(s.runs, c, id, Running)
    ensures var s' := CancelChat(s, c);
            OneTask(s', c, o, id) && s'.objs[o].cancelRequested && OneRun(s'.runs, c, id, Cancelled)
  {
    hide RunsInv, TryTransition, OneRun;
    OneRunTried(s.runs, c, id, Running, Cancelled, "");
  }

  /** A cancelled task that meets its next chunk: the run is cancelled and the chat shown as failed. */
  lemma CancelShownReached(gov: Governance, c: ChatKey, o: nat, conv: Option<string>, id: string,
                           v: Option<string>, delta: bool, denied: Option<string>)
    ensures var s := Exec(gov, Investigating(c, o, conv, id) + [CancelTask(c)]
              + [TaskStep(o, Chunk(v, delta, denied))]);
            && c in s.chats && s.chats[c] == Errored
            && (c.0, id) in s.runs.runs && s.runs.runs[(c.0, id)].status == Cancelled
  {
    hide Exec, FlightInv, CancelChat, OnChunk;
    var before, step := Investigating(c, o, conv, id), TaskStep(o, Chunk(v, delta, denied));
    RunningReached(gov, c, o, conv, id);
    AlwaysSafe(gov, before);
    SafeStores(Exec(gov, before));
    CancelledState(Exec(gov, before), c, o, id);
    ExecSnoc(gov, before, CancelTask(c));
    CancelShownAsFailed(Exec(gov, before + [CancelTask(c)]), o, v, delta, denied);
    ExecSnoc(gov, before + [CancelTask(c)], step);
  }

  // ---- a resumed task that is cancelled before its first step ----

  /** The first task left for the approval, and the resumed one has been created. */
  predicate Resuming(s: State, c: ChatKey, o: nat, o2: nat, id: string) {
    && c in s.chats && s.registry == map[c := o2] && o2 != o && s.objs.Keys == {o, o2} && s.objs[o].phase.Ended?
    && s.objs[o2].chat == c && s.objs[o2].runId == Some(id) && s.objs[o2].resumes == Some(id)
         && s.objs[o2].phase.Scheduled?
  }

  /** A waiting run whose task leaves by the exception for a held call. */
  lemma LeftWaiting(s: State, c: ChatKey, o: nat, id: string, m: string)
    requires RunsInv(s.runs) && OneTask(s, c, o, id) && OneRun(s.runs, c, id, WaitingApproval)
    ensures var s' := Raised(s, o, ApprovalRequiredError, m);
            && s'.runs == s.runs && s'.ledger == s.ledger && c in s'.chats && s'.registry == map[]
            && s'.objs == s.objs[o := s.objs[o].(phase := Ended)]
  {
    TryWorks(s.runs, (c.0, id), WaitingApproval, m);
    assert TryTransition(s.runs, (c.0, id), WaitingApproval, m) == s.runs;
    hide RunsInv, OneRun, TryTransition;
  }

  lemma ApprovedAfterLeaving(s: State, c: ChatKey, o: nat, id: string, o2: nat, why: Option<string>,
                             conv: Option<string>)
    requires OneRun(s.runs, c, id, WaitingApproval) && AwaitsDecision(s, (c.0, id)) && o2 != o
    requires c in s.chats && s.registry == map[] && s.objs.Keys == {o} && s.objs[o].phase.Ended?
    ensures var s' := ApproveChat(s, (c.0, id), o2, why, conv);
            Resuming(s', c, o, o2, id) && OneRun(s'.runs, c, id, WaitingApproval)
  {
    hide GetPendingForRun, Granted;
    var s1 := Granted(s, (c.0, id), c.1, why);
    DecisionFrame(s, (c.0, id), c.1, why);
    forall k ensures LogOf(s1.runs, k) == LogOf(s.runs, k) {}
  }

  lemma ResumingCancelled(gov: Governance, s: State, c: ChatKey, o: nat, o2: nat, id: string)
    requires RunsInv(s.runs) && Resuming(s, c, o, o2, id) && OneRun(s.runs, c, id, WaitingApproval)
    ensures var s' := Next(gov, Next(gov, s, CancelTask(c)), CancelledBeforeFirstStep(o2));
            Stuck(s', c, o2) && NoTaskOf(s', c) && s'.objs[o2].runId == Some(id) && OneRun(s'.runs, c, id, Cancelled)
  {
    hide RunsInv, TryTransition, OneRun;
    OneRunTried(s.runs, c, id, WaitingApproval, Cancelled, "");
    var s1 := CancelChat(s, c);
    assert Next(gov, s, CancelTask(c)) == s1;
    assert Next(gov, s1, CancelledBeforeFirstStep(o2)) == s1.(objs := s1.objs[o2 := s1.objs[o2].(phase := NeverRan)]);
  }

  function ApprovedThenCancelled(c: ChatKey, o: nat, id: string, m: string, o2: nat, why: Option<string>,
                                 conv: Option<string>): seq<Step> {
    [TaskStep(o, Raise(ApprovalRequiredError, m)), ApproveInChat((c.0, id), o2, why, conv), CancelTask(c),
      CancelledBeforeFirstStep(o2)]
  }

  lemma ApprovedThenStuck(gov: Governance, steps: seq<Step>, c: ChatKey, o: nat, id: string, m: string,
                          o2: nat, why: Option<string>, conv: Option<string>)
    requires var s := Exec(gov, steps);
             OneTask(s, c, o, id) && OneRun(s.runs, c, id, WaitingApproval) && AwaitsDecision(s, (c.0, id))
    requires o2 != o
    ensures var s := Exec(gov, steps + ApprovedThenCancelled(c, o, id, m, o2, why, conv));
            Stuck(s, c, o2) && NoTaskOf(s, c) && s.objs[o2].runId == Some(id) && OneRun(s.runs, c, id, Cancelled)
  {
    var now := steps + ApprovedAgain(c, o, id, m, o2, why, conv);
    hide Exec, Next, SafeInv, RunsInv, OneRun, OneTask, Resuming, Stuck, NoTaskOf, AwaitsDecision;
    ApprovedResumes(gov, steps, c, o, id, m, o2, why, conv);
    AlwaysSafe(gov, now);
    SafeStores(Exec(gov, now));
    ResumingCancelled(gov, Exec(gov, now), c, o, o2, id);
    ExecTwo(gov, now, CancelTask(c), CancelledBeforeFirstStep(o2));
    assert now + [CancelTask(c), CancelledBeforeFirstStep(o2)]
      == steps + ApprovedThenCancelled(c, o, id, m, o2, why, conv);
  }

  function ApprovedAgain(c: ChatKey, o: nat, id: string, m: string, o2: nat, why: Option<string>,
                         conv: Option<string>): seq<Step> {
    [TaskStep(o, Raise(ApprovalRequiredError, m)), ApproveInChat((c.0, id), o2, why, conv)]
  }

  lemma ApprovedResumes(gov: Governance, steps: seq<Step>, c: ChatKey, o: nat, id: string, m: string,
                        o2: nat, why: Option<string>, conv: Option<string>)
    requires var s := Exec(gov, steps);
             OneTask(s, c, o, id) && OneRun(s.runs, c, id, WaitingApproval) && AwaitsDecision(s, (c.0, id))
    requires o2 != o
    ensures var s := Exec(gov, steps + ApprovedAgain(c, o, id, m, o2, why, conv));
            Resuming(s, c, o, o2, id) && OneRun(s.runs, c, id, WaitingApproval)
  {
    var left, approved := TaskStep(o, Raise(ApprovalRequiredError, m)), ApproveInChat((c.0, id), o2, why, conv);
    var s := Exec(gov, steps);
    hide Exec, SafeInv, RunsInv, OneRun, Raised, ApproveChat, GetPendingForRun;
    AlwaysSafe(gov, steps);
    SafeStores(s);
    LeftWaiting(s, c, o, id, m);
    ApprovedAfterLeaving(Raised(s, o, ApprovalRequiredError, m), c, o, id, o2, why, conv);
    assert Next(gov, s, left) == Raised(s, o, ApprovalRequiredError, m);
    ExecTwo(gov, steps, left, approved);
  }

  /** A call is held back, its task leaves, the approval creates a new task, and that one is cancelled
      before its first step: the chat is blocked until the server restarts, its run being cancelled. */
  lemma ResumedStuckReached(gov: Governance, c: ChatKey, o: nat, conv: Option<string>, id: string, ctx: ToolContext,
                            f: Fresh, m: string, o2: nat, why: Option<string>, conv2: Option<string>, more: seq<Step>)
    requires id != "" && ctx.toolName != "" && KeyOf(ctx) == (c.0, id) && o2 != o && NoRestart(more)
    requires Verdict(gov, WithRegistry(gov, ctx)).decision == RequireApproval
    ensures var steps := Investigating(c, o, conv, id) + [ToolCallHook(ctx, f)]
              + ApprovedThenCancelled(c, o, id, m, o2, why, conv2);
            && Exec(gov, steps).objs.Keys >= {o2} && Exec(gov, steps).objs[o2].runId == Some(id)
            && Stuck(Exec(gov, steps + more), c, o2)
  {
    hide Exec, SafeInv, FlightInv, Hook, Verdict, AwaitsDecision, OneRun, NoTaskOf;
    var before, held := Investigating(c, o, conv, id), ToolCallHook(ctx, f);
    RunningReached(gov, c, o, conv, id);
    AlwaysSafe(gov, before);
    HeldBack(gov, Exec(gov, before), c, o, id, ctx, f);
    ExecSnoc(gov, before, held);
    ApprovedThenStuck(gov, before + [held], c, o, id, m, o2, why, conv2);
    StuckForGood(gov, before + [held] + ApprovedThenCancelled(c, o, id, m, o2, why, conv2), more, c, o2);
  }

  // ---- a stuck chat that is freed by a task of the chat ----

  /** After the takeover: `o` has been told to end, `o2` waits for it. */
  predicate TwoTasks(s: State, c: ChatKey, o: nat, o2: nat, id: string) {
    && c in s.chats && s.registry == map[c := o2] && o2 != o && s.objs.Keys == {o, o2}
    && s.objs[o].chat == c && s.objs[o].runId == Some(id) && s.objs[o].phase == AwaitingChunk
    && s.objs[o2].chat == c && s.objs[o2].runId == Some(id) && s.objs[o2].resumes == Some(id)
    && s.objs[o2].phase == Unscheduled(Some(o))
  }

  lemma TakenOverState(s: State, c: ChatKey, o: nat, id: string, o2: nat, why: Option<string>, conv: Option<string>)
    requires OneTask(s, c, o, id) && OneRun(s.runs, c, id, WaitingApproval) && AwaitsDecision(s, (c.0, id)) && o2 != o
    ensures var s' := ApproveChat(s, (c.0, id), o2, why, conv);
            TwoTasks(s', c, o, o2, id) && OneRun(s'.runs, c, id, WaitingApproval)
  {
    hide GetPendingForRun, Granted, Resumed;
    var s1 := Granted(s, (c.0, id), c.1, why);
    DecisionFrame(s, (c.0, id), c.1, why);
    assert ApproveChat(s, (c.0, id), o2, why, conv) == Resumed(s1, (c.0, id), c, o2, conv);
    forall k ensures LogOf(s1.runs, k) == LogOf(s.runs, k) {}
    ResumedTwo(s1, c, o, id, o2, conv);
  }

  lemma ResumedTwo(s: State, c: ChatKey, o: nat, id: string, o2: nat, conv: Option<string>)
    requires OneTask(s, c, o, id) && o2 != o
    ensures var s' := Resumed(s, (c.0, id), c, o2, conv);
            TwoTasks(s', c, o, o2, id) && s'.runs == s.runs
  {
  }

  /** Those two tasks after the older one met its cancellation and the chat was given a third. */
  predicate ThirdTask(s: State, c: ChatKey, o: nat, o2: nat, id: string, o3: nat, conv: Option<string>) {
    && c in s.chats && s.registry == map[c := o3] && s.objs.Keys == {o, o2, o3} && o2 != o && o3 != o && o3 != o2
    && s.objs[o].phase.Ended? && s.objs[o3] == Task(c, conv)
    && s.objs[o2].chat == c && s.objs[o2].runId == Some(id) && s.objs[o2].resumes == Some(id)
    && s.objs[o2].phase == Unscheduled(Some(o))
  }

  function ThirdMessage(c: ChatKey, o: nat, o3: nat, conv: Option<string>): seq<Step> {
    [TaskStep(o, Raise(CancelledError, "")), StartTask(c, o3, conv)]
  }

  lemma ThirdReached(gov: Governance, steps: seq<Step>, c: ChatKey, o: nat, id: string, o2: nat, o3: nat,
                     conv: Option<string>)
    requires TwoTasks(Exec(gov, steps), c, o, o2, id) && OneRun(Exec(gov, steps).runs, c, id, WaitingApproval)
    requires o3 != o && o3 != o2
    ensures var s := Exec(gov, steps + ThirdMessage(c, o, o3, conv));
            ThirdTask(s, c, o, o2, id, o3, conv) && OneRun(s.runs, c, id, Cancelled)
  {
    hide Exec, OneRun, RunsInv, Raised, Start, SafeInv;
    var s, end, start := Exec(gov, steps), TaskStep(o, Raise(CancelledError, "")), StartTask(c, o3, conv);
    AlwaysSafe(gov, steps);
    SafeStores(s);
    RaisedState(s, c, o, id, WaitingApproval, CancelledError, "");
    ExecSnoc(gov, steps, end);
    var s1 := Exec(gov, steps + [end]);
    AlwaysSafe(gov, steps + [end]);
    SafeStores(s1);
    NewTask(s1, c, o3, conv, id, Cancelled);
    ExecSnoc(gov, steps + [end], start);
    assert steps + [end] + [start] == steps + ThirdMessage(c, o, o3, conv);
  }

  /** The waiting resume goes on and its task exits. */
  function ResumedExit(o2: nat, m: string): seq<Step> {
    [ResumeTail(o2), FirstStep(o2, ""), TaskStep(o2, Raise(OtherError, m))]
  }

  function ThirdCancel(c: ChatKey, o3: nat): seq<Step> { [CancelTask(c), CancelledBeforeFirstStep(o3)] }

  /** The third task is cancelled and the waiting resume creates its own. */
  predicate BesideResumed(s: State, c: ChatKey, o2: nat, id: string, o3: nat) {
    && Stuck(s, c, o3) && c in s.chats && o2 != o3 && o2 in s.objs && s.objs[o2].phase.Scheduled?
    && s.objs[o2].chat == c && s.objs[o2].runId == Some(id) && s.objs[o2].resumes == Some(id)
  }

  lemma ThirdCancelled(gov: Governance, s: State, c: ChatKey, o: nat, id: string, o2: nat, o3: nat,
                       conv: Option<string>)
    requires ThirdTask(s, c, o, o2, id, o3, conv)
    ensures var s1 := Next(gov, Next(gov, s, CancelTask(c)), CancelledBeforeFirstStep(o3));
            && Stuck(s1, c, o3) && BesideResumed(Next(gov, s1, ResumeTail(o2)), c, o2, id, o3)
            && Next(gov, s1, ResumeTail(o2)).runs == s.runs
  {
    var s0 := s.(objs := s.objs[o3 := s.objs[o3].(cancelRequested := true)]);
    assert Next(gov, s, CancelTask(c)) == s0;
    var s1 := s0.(objs := s0.objs[o3 := s0.objs[o3].(phase := NeverRan)]);
    assert Next(gov, s0, CancelledBeforeFirstStep(o3)) == s1;
    assert Enabled(s1, ResumeTail(o2));
  }

  /** The resumed task begins, finds its run over and goes on; the stuck entry is still there. */
  lemma ResumedBegins(gov: Governance, s: State, c: ChatKey, o2: nat, id: string, o3: nat)
    requires BesideResumed(s, c, o2, id, o3) && OneRun(s.runs, c, id, Cancelled)
    ensures InEngine(Next(gov, s, FirstStep(o2, "")), c, o2, o3)
  {
    hide TryTransition;
    assert Next(gov, s, FirstStep(o2, "")) == Begin(s, o2, "");
  }

  /** The entry of `o3` is stuck while `o2` is suspended in the engine. */
  predicate InEngine(s: State, c: ChatKey, o2: nat, o3: nat) {
    Stuck(s, c, o3) && HasRun(s, o2) && s.objs[o2].phase.AwaitingChunk? && s.objs[o2].chat == c
  }

  lemma ExitFrees(gov: Governance, s: State, c: ChatKey, o2: nat, o3: nat, m: string)
    requires SafeInv(s) && CancelsNoted(s) && InEngine(s, c, o2, o3)
    ensures !Stuck(Next(gov, s, TaskStep(o2, Raise(OtherError, m))), c, o3)
  {
    FreedExactly(gov, s, TaskStep(o2, Raise(OtherError, m)), c, o3);
  }

  lemma ResumedFrees(gov: Governance, steps: seq<Step>, c: ChatKey, o: nat, id: string, o2: nat, o3: nat,
                     conv: Option<string>, m: string)
    requires ThirdTask(Exec(gov, steps), c, o, o2, id, o3, conv) && OneRun(Exec(gov, steps).runs, c, id, Cancelled)
    ensures var now := steps + ThirdCancel(c, o3);
            Stuck(Exec(gov, now), c, o3) && !Stuck(Exec(gov, now + ResumedExit(o2, m)), c, o3)
  {
    var now, last := steps + ThirdCancel(c, o3), TaskStep(o2, Raise(OtherError, m));
    var begun := now + [ResumeTail(o2), FirstStep(o2, "")];
    var s := Exec(gov, steps);
    hide Exec, Next, OneRun, ThirdTask, Stuck, InEngine, SafeInv, CancelsNoted;
    ThirdCancelled(gov, s, c, o, id, o2, o3, conv);
    ExecTwo(gov, steps, CancelTask(c), CancelledBeforeFirstStep(o3));
    ResumedBegins(gov, Next(gov, Exec(gov, now), ResumeTail(o2)), c, o2, id, o3);
    ExecTwo(gov, now, ResumeTail(o2), FirstStep(o2, ""));
    ExecSnoc(gov, begun, last);
    assert begun + [last] == now + ResumedExit(o2, m);
    AlwaysSafe(gov, begun);
    AlwaysNoted(gov, begun);
    ExitFrees(gov, Exec(gov, begun), c, o2, o3, m);
  }

  lemma ExecTwo(gov: Governance, steps: seq<Step>, a: Step, b: Step)
    ensures Exec(gov, steps + [a, b]) == Next(gov, Next(gov, Exec(gov, steps), a), b)
  {
    assert steps + [a, b] == (steps + [a]) + [b];
    hide Exec, Next;
    ExecSnoc(gov, steps, a);
    ExecSnoc(gov, steps + [a], b);
  }

  /** The steps up to the takeover, then a third task that is cancelled before its first step. */
  function StuckBesideResume(c: ChatKey, o: nat, conv: Option<string>, id: string, ctx: ToolContext, f: Fresh,
                             o2: nat, why: Option<string>, o3: nat): seq<Step> {
    Investigating(c, o, conv, id) + [ToolCallHook(ctx, f)] + [ApproveInChat((c.0, id), o2, why, conv)]
    + ThirdMessage(c, o, o3, conv) + ThirdCancel(c, o3)
  }

  /** A stuck chat is not stuck for good while a task of it is alive: here the resumed task, which is
      no longer registered, takes the entry out when it exits. */
  lemma FreedReached(gov: Governance, c: ChatKey, o: nat, conv: Option<string>, id: string, ctx: ToolContext, f: Fresh,
                     o2: nat, why: Option<string>, o3: nat, m: string)
    requires id != "" && ctx.toolName != "" && KeyOf(ctx) == (c.0, id) && o2 != o && o3 != o && o3 != o2
    requires Verdict(gov, WithRegistry(gov, ctx)).decision == RequireApproval
    ensures var steps := StuckBesideResume(c, o, conv, id, ctx, f, o2, why, o3);
            Stuck(Exec(gov, steps), c, o3) && NoRestart(ResumedExit(o2, m))
              && !Stuck(Exec(gov, steps + ResumedExit(o2, m)), c, o3)
  {
    var before, held, taken := Investigating(c, o, conv, id), ToolCallHook(ctx, f),
      ApproveInChat((c.0, id), o2, why, conv);
    RunningReached(gov, c, o, conv, id);
    hide Exec, FlightInv, SafeInv, Hook, Verdict, AwaitsDecision, ApproveChat, OneRun, Stuck;
    AlwaysSafe(gov, before);
    HeldBack(gov, Exec(gov, before), c, o, id, ctx, f);
    ExecSnoc(gov, before, held);
    TakenOverState(Exec(gov, before + [held]), c, o, id, o2, why, conv);
    ExecSnoc(gov, before + [held], taken);
    var steps := before + [held] + [taken];
    ThirdReached(gov, steps, c, o, id, o2, o3, conv);
    ResumedFrees(gov, steps + ThirdMessage(c, o, o3, conv), c, o, id, o2, o3, conv, m);
  }

  // ---- a ticket run that nothing drives ----

  lemma TicketHeld(gov: Governance, s: State, k: RunKey, ctx: ToolContext, f: Fresh)
    requires SafeInv(s) && TicketRun(s, k) && s.runs.runs[k].status == Running && s.ledger == EMPTY_LEDGER
    requires k.1 != "" && ctx.toolName != "" && KeyOf(ctx) == k
               && Verdict(gov, WithRegistry(gov, ctx)).decision == RequireApproval
    ensures TicketRun(Hook(gov, s, ctx, f), k) && AwaitsDecision(Hook(gov, s, ctx, f), k)
  {
    hide SafeInv, Gate, Hook, Verdict, MarkWaiting, GetPendingForRun, RunsInv, Extends, ResumptionsOf;
    var (d, a, r) := Gate(gov, s.runs, s.ledger, ctx, f);
    FirstAsked(gov, s.runs, ctx, f);
    assert Enabled(s, ToolCallHook(ctx, f));
    HeldCallPauses(gov, s, ctx, f);
    SafeStores(s);
    HookWorks(gov, s, ctx, f);
    HookMarks(gov, s, ctx, f);
    MarkedLedger(s.(runs := d, ledger := a), ctx, r.message);
  }

  lemma WaitingStays(d: Runs, k: RunKey)
    requires k in d.runs && d.runs[k].status == WaitingApproval
    ensures TryTransition(d, k, Completed, "") == d
  {
    TransitionRuns(d, k, Completed, "");
    hide Transition;
  }

  /** The end of its stream leaves a waiting run waiting. */
  lemma EndedWaiting(s: State, k: RunKey)
    requires RunsInv(s.runs) && AwaitsDecision(s, k)
    ensures s.(runs := TryTransition(s.runs, k, Completed, "")) == s
  {
    hide RunsInv, TryTransition, GetPendingForRun;
    WaitingStays(s.runs, k);
    assert s.(runs := s.runs) == s;
  }

  function TicketOpening(k: RunKey, uid: string, src: RunSource, ctx: ToolContext, f: Fresh): seq<Step> {
    [TicketBegin(k, uid, src, None, None), ToolCallHook(ctx, f)]
  }

  lemma TicketAsked(gov: Governance, k: RunKey, uid: string, src: RunSource, ctx: ToolContext, f: Fresh)
    requires k.1 != "" && ctx.toolName != "" && KeyOf(ctx) == k
               && Verdict(gov, WithRegistry(gov, ctx)).decision == RequireApproval
    ensures var s := Exec(gov, TicketOpening(k, uid, src, ctx, f)); TicketRun(s, k) && AwaitsDecision(s, k)
  {
    var begin, held := TicketBegin(k, uid, src, None, None), ToolCallHook(ctx, f);
    hide Hook, Verdict, SafeInv, GetPendingForRun, Exec;
    TicketBegun(gov, k, uid, src);
    AlwaysSafe(gov, [begin]);
    TicketHeld(gov, Exec(gov, [begin]), k, ctx, f);
    ExecSnoc(gov, [begin], held);
    assert [begin] + [held] == TicketOpening(k, uid, src, ctx, f);
  }

  /** Its first call is held back and its stream ends. */
  lemma TicketWaits(gov: Governance, k: RunKey, uid: string, src: RunSource, ctx: ToolContext, f: Fresh)
    requires k.1 != "" && ctx.toolName != "" && KeyOf(ctx) == k
               && Verdict(gov, WithRegistry(gov, ctx)).decision == RequireApproval
    ensures var steps := TicketOpening(k, uid, src, ctx, f) + [TicketEnd(k, Completed, "")];
            StreamOver(gov, steps, k) && AwaitsDecision(Exec(gov, steps), k)
  {
    var two, end := TicketOpening(k, uid, src, ctx, f), TicketEnd(k, Completed, "");
    hide Verdict, SafeInv, RunsInv, TryTransition, GetPendingForRun, Exec;
    TicketAsked(gov, k, uid, src, ctx, f);
    AlwaysSafe(gov, two);
    SafeStores(Exec(gov, two));
    EndedWaiting(Exec(gov, two), k);
    ExecSnoc(gov, two, end);
    assert (two + [end])[..|two|] == two;
  }

  /** A ticket run whose first call is held back, whose stream then ends, and which is approved after
      that: it is RUNNING, and LeftRunningExactly says until when. */
  lemma LeftRunningReached(gov: Governance, k: RunKey, uid: string, src: RunSource, ctx: ToolContext, f: Fresh,
                           who: string, why: Option<string>)
    requires k.1 != "" && ctx.toolName != "" && KeyOf(ctx) == k
               && Verdict(gov, WithRegistry(gov, ctx)).decision == RequireApproval
    ensures var steps := TicketOpening(k, uid, src, ctx, f) + [TicketEnd(k, Completed, "")]
              + [ApproveDirect(k, who, why)];
            StreamOver(gov, steps, k) && Reopened(gov, steps, k) && TicketRun(Exec(gov, steps), k)
            && Exec(gov, steps).runs.runs[k].status == Running
  {
    var steps, approve := TicketOpening(k, uid, src, ctx, f) + [TicketEnd(k, Completed, "")],
      ApproveDirect(k, who, why);
    hide Exec, Verdict, AwaitsDecision;
    TicketWaits(gov, k, uid, src, ctx, f);
    ApprovedLast(gov, steps, approve, k);
    assert (steps + [approve])[..|steps|] == steps;
    LeftRunningExactly(gov, steps + [approve], k);
    StreamStored(gov, steps + [approve], k);
  }

  lemma ApprovedLast(gov: Governance, steps: seq<Step>, step: Step, k: RunKey)
    requires Approves(Exec(gov, steps), step, k)
    ensures Reopened(gov, steps + [step], k)
  {
    assert (steps + [step])[..|steps|] == steps;
  }

  lemma TicketBegun(gov: Governance, k: RunKey, uid: string, src: RunSource)
    ensures var s := Exec(gov, [TicketBegin(k, uid, src, None, None)]);
            TicketRun(s, k) && s.runs.runs[k].status == Running && s.ledger == EMPTY_LEDGER
  {
    var begin := TicketBegin(k, uid, src, None, None);
    InitSafe();
    SafeStores(INIT);
    TicketNext(gov, INIT, k, uid, src);
    FirstTicket(INIT.runs, k, uid, src);
    assert Exec(gov, []) == INIT;
    ExecSnoc(gov, [], begin);
    assert [] + [begin] == [begin];
    hide Exec, Next, BeginRun, RunsInv, SafeInv;
  }

  lemma TicketNext(gov: Governance, s: State, k: RunKey, uid: string, src: RunSource)
    requires FreshRun(s, k)
    ensures Next(gov, s, TicketBegin(k, uid, src, None, None))
              == s.(runs := BeginRun(s.runs, k.0, k.1, uid, src, None, None, None))
  {
    hide BeginRun, FreshRun;
  }

  lemma FirstTicket(d: Runs, k: RunKey, uid: string, src: RunSource)
    requires RunsInv(d) && k !in d.runs && LogOf(d, k) == []
    ensures var d' := BeginRun(d, k.0, k.1, uid, src, None, None, None);
            k in d'.runs && d'.runs[k].status == Running && d'.runs[k].chatId.None?
  {
    BeginWorks(d, k.0, k.1, uid, src, None, None, None);
    hide BeginRun, RunsInv;
  }
}
