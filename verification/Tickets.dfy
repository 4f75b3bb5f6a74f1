/** Runs without a chat: their stream is not a task of the manager, so an approval that comes after
    it has ended makes a run RUNNING that nothing drives. */
module Tickets {
  import opened Wrappers
  import opened RunModel
  import opened RunDb
  import opened Approvals
  import opened Policy
  import opened World
  import opened Settling
  import opened Safety
  import opened SingleFlight
  import opened Theorems
  import opened Decisions

  predicate TicketRun(s: State, k: RunKey) { k in s.runs.runs && s.runs.runs[k].chatId.None? }

  /** The `finally` of the run's stream has run. */
  ghost predicate StreamOver(gov: Governance, steps: seq<Step>, k: RunKey) {
    steps != [] &&
    var n := |steps| - 1;
    || StreamOver(gov, steps[..n], k)
    || (steps[n].TicketEnd? && steps[n].run == k && Enabled(Exec(gov, steps[..n]), steps[n]))
  }

  /** The step approves the waiting run. */
  ghost predicate Approves(s: State, step: Step, k: RunKey) {
    step.ApproveDirect? && step.run == k && AwaitsDecision(s, k)
  }

  /** The step stops a RUNNING run: a cancel, the end of its stream, a restart, or a call held back. */
  ghost predicate Stops(gov: Governance, s: State, step: Step, k: RunKey) {
    Enabled(s, step) &&
    (match step
     case CancelDirect(j) => j == k
     case TicketEnd(j, _, _) => j == k
     case Restart(_, _) => true
     case ToolCallHook(ctx, f) =>
       KeyOf(ctx) == k && ctx.toolName != "" && ctx.runId != "" && Gate(gov, s.runs, s.ledger, ctx, f).2.waitingApproval
     case _ => false)
  }

  /** It was approved, and nothing has stopped it since. */
  ghost predicate Reopened(gov: Governance, steps: seq<Step>, k: RunKey) {
    steps != [] &&
    var n := |steps| - 1;
    var s, step := Exec(gov, steps[..n]), steps[n];
    Approves(s, step, k) || (Reopened(gov, steps[..n], k) && !Stops(gov, s, step, k))
  }

  // ---- one step ----

  predicate StatusKept(s: State, s': State, k: RunKey)
    requires k in s.runs.runs
  {
    k in s'.runs.runs && s'.runs.runs[k].status == s.runs.runs[k].status
  }

  /** What a step makes of the question whether the run is RUNNING. */
  ghost predicate RunningAfter(gov: Governance, s: State, s': State, step: Step, k: RunKey)
    requires k in s.runs.runs
  {
    && k in s'.runs.runs
    && (s'.runs.runs[k].status == Running <==>
         Approves(s, step, k) || (s.runs.runs[k].status == Running && !Stops(gov, s, step, k)))
  }

  lemma WorkKeeps(s: State, s': State, k: RunKey, j: RunKey, resumed: nat)
    requires k in s.runs.runs && j != k && Worked(s.runs, s'.runs, j, resumed)
    ensures StatusKept(s, s', k)
  {
  }

  /** The run of a task belongs to a chat. */
  lemma NotOfTask(s: State, o: nat, k: RunKey)
    requires ObjsFine(s) && TicketRun(s, k) && HasRun(s, o)
    ensures RunOf(s, o) != k
  {
    assert ObjFine(s, o);
  }

  lemma OutcomeKeeps(s: State, o: nat, out: Outcome, k: RunKey)
    requires SafeInv(s) && TicketRun(s, k) && HasRun(s, o) && Suspended(s.objs[o])
    ensures StatusKept(s, TaskOutcome(s, o, out), k)
  {
    TaskStepSafe(s, o, out);
    NotOfTask(s, o, k);
    hide SafeInv, TaskOutcome, Worked, StatusKept;
    WorkKeeps(s, TaskOutcome(s, o, out), k, RunOf(s, o), 0);
  }

  lemma OpenedKeeps(s: State, o: nat, d: Runs, runId: string, k: RunKey)
    requires RunsInv(d) && k in s.runs.runs && o in s.objs && k != (s.objs[o].chat.0, runId)
    requires k in d.runs && d.runs[k].status == s.runs.runs[k].status
    ensures StatusKept(s, Opened(s.(runs := d), o, runId), k)
  {
    var j, r := (s.objs[o].chat.0, runId), s.objs[o].(runId := Some(runId), phase := AwaitingChunk);
    var s1 := s.(runs := d, objs := s.objs[o := r]);
    if s.objs[o].chat in s.chats {
      ViewKeeps(s, s1, s.objs[o].chat, InProgress, k);
    } else {
      TryWorks(d, j, Failed, Missing(s.objs[o].chat));
      RaisedRuns(s1, o, OtherError, Missing(s.objs[o].chat));
    }
    hide RunsInv, TryTransition, Raised, WithChatStatus;
  }

  lemma RaisedRuns(s: State, o: nat, f: Failure, message: string)
    requires HasRun(s, o)
    ensures Raised(s, o, f, message).runs
            == TryTransition(s.runs, RunOf(s, o), FailureStatus(f), if f == CancelledError then "" else message)
  {
    hide TryTransition;
  }

  lemma BeginKeeps(s: State, o: nat, id: string, k: RunKey)
    requires SafeInv(s) && TicketRun(s, k) && Enabled(s, FirstStep(o, id))
    ensures StatusKept(s, Begin(s, o, id), k)
  {
    var r := s.objs[o];
    var (pid, uid, chat) := r.chat;
    assert ObjFine(s, o);
    SafeStores(s);
    hide SafeInv, RunsInv, Opened;
    if r.resumes.Some? {
      var j := (pid, r.resumes.value);
      if s.runs.runs[j].status == WaitingApproval {
        TransitionRuns(s.runs, j, Running, "");
        TransitionWorks(s.runs, j, Running, "");
        OpenedKeeps(s, o, TryTransition(s.runs, j, Running, ""), j.1, k);
      } else {
        OpenedKeeps(s, o, s.runs, j.1, k);
      }
    } else {
      BeginWorks(s.runs, pid, id, uid, Chat, Some(chat), None, None);
      OpenedKeeps(s, o, BeginRun(s.runs, pid, id, uid, Chat, Some(chat), None, None), id, k);
    }
  }

  lemma CancelKeeps(s: State, c: ChatKey, k: RunKey)
    requires SafeInv(s) && TicketRun(s, k)
    ensures StatusKept(s, CancelChat(s, c), k)
  {
    if c in s.registry && HasRun(s, s.registry[c]) {
      assert EntryFine(s, c);
      NotOfTask(s, s.registry[c], k);
      TryWorks(s.runs, RunOf(s, s.registry[c]), Cancelled, "");
    }
    hide SafeInv, TryTransition;
  }

  lemma ApproveChatKeeps(s: State, j: RunKey, o: nat, why: Option<string>, conv: Option<string>, k: RunKey)
    requires k in s.runs.runs
    ensures StatusKept(s, ApproveChat(s, j, o, why, conv), k)
  {
    hide Granted, Resumed, GetPendingForRun;
    if AwaitsDecision(s, j) && ChatOf(s, j).Some? {
      DecisionFrame(s, j, s.runs.runs[j].uid, why);
      ResumedStores(Granted(s, j, s.runs.runs[j].uid, why), j, ChatOf(s, j).value, o, conv);
    }
  }

  lemma TaskKeeps(gov: Governance, s: State, step: Step, k: RunKey)
    requires SafeInv(s) && TicketRun(s, k) && Enabled(s, step) && IsTaskStep(step)
    ensures StatusKept(s, Effect(gov, s, step), k)
  {
    hide SafeInv, Begin, TaskOutcome, CancelChat, ApproveChat, GetActiveRunForChat;
    match step {
      case FirstStep(o, id) => BeginKeeps(s, o, id, k);
      case TaskStep(o, out) => OutcomeKeeps(s, o, out, k);
      case CancelTask(c) => CancelKeeps(s, c, k);
      case ApproveInChat(j, o, why, conv) => ApproveChatKeeps(s, j, o, why, conv, k);
      case _ =>
    }
  }

  // ---- decisions ----

  lemma MovedAfterDecision(s: State, s1: State, j: RunKey, to: RunStatus, text: string, k: RunKey)
    requires RunsInv(s1.runs) && s1.runs.runs == s.runs.runs && k in s.runs.runs && j != k
    ensures StatusKept(s, s1.(runs := TryTransition(s1.runs, j, to, text)), k)
  {
    if Transition(s1.runs, j, to, text, true).Ok? { TransitionWorks(s1.runs, j, to, text); }
    hide RunsInv, Transition;
  }

  lemma ApproveDirectStatus(s: State, j: RunKey, who: string, why: Option<string>, k: RunKey)
    requires SafeInv(s) && TicketRun(s, k)
    ensures var s' := ApprovePlain(s, j, who, why);
            if j == k && AwaitsDecision(s, k) then k in s'.runs.runs && s'.runs.runs[k].status == Running
            else StatusKept(s, s', k)
  {
    if AwaitsDecision(s, j) && ChatOf(s, j).None? {
      if j == k {
        ApprovalContinues(s, k, who, why);
      } else {
        GrantedSafe(s, j, who, why);
        SafeStores(Granted(s, j, who, why));
        DecisionFrame(s, j, who, why);
        hide SafeInv, RunsInv, Granted, TryTransition, GetPendingForRun;
        MovedAfterDecision(s, Granted(s, j, who, why), j, Running, "", k);
      }
    }
  }

  /** A rejection for a chat moves a run of a chat. */
  lemma RejectChatKeeps(s: State, j: RunKey, text: string, k: RunKey)
    requires SafeInv(s) && TicketRun(s, k)
    ensures StatusKept(s, RejectChat(s, j, text), k)
  {
    if AwaitsDecision(s, j) && ChatOf(s, j).Some? {
      var decider, why := s.runs.runs[j].uid, if text == "" then None else Some(text);
      var s1 := Refused(s, j, decider, why);
      RefusedSafe(s, j, decider, why);
      SafeStores(s1);
      DecisionFrame(s, j, decider, why);
      hide SafeInv, RunsInv, Refused, TryTransition, GetPendingForRun, RejectionText, WithChatStatus;
      var s2 := s1.(runs := TryTransition(s1.runs, j, Blocked, RejectionText(text)));
      MovedAfterDecision(s, s1, j, Blocked, RejectionText(text), k);
      ViewKeeps(s, s2, ChatOf(s, j).value, Idle, k);
    }
  }

  lemma ViewKeeps(s: State, s2: State, c: ChatKey, view: AgentRunStatus, k: RunKey)
    requires k in s.runs.runs && StatusKept(s, s2, k)
    ensures StatusKept(s, WithChatStatus(s2, c, view), k)
  {
  }

  /** Another rejection: a run that it moves was waiting, and is then blocked. */
  lemma RejectDirectStatus(s: State, j: RunKey, who: string, text: string, k: RunKey)
    requires SafeInv(s) && TicketRun(s, k)
    ensures var s' := RejectPlain(s, j, who, text);
            k in s'.runs.runs && (s'.runs.runs[k].status == Running <==> s.runs.runs[k].status == Running)
  {
    if AwaitsDecision(s, j) && ChatOf(s, j).None? {
      if j == k {
        RejectionBlocks(s, k, who, text);
      } else {
        var why := if text == "" then None else Some(text);
        RefusedSafe(s, j, who, why);
        SafeStores(Refused(s, j, who, why));
        DecisionFrame(s, j, who, why);
        hide SafeInv, RunsInv, Refused, TryTransition, GetPendingForRun, RejectionText;
        MovedAfterDecision(s, Refused(s, j, who, why), j, Blocked, RejectionText(text), k);
      }
    }
  }

  // ---- the hook ----

  lemma HookStatus(gov: Governance, s: State, ctx: ToolContext, f: Fresh, k: RunKey)
    requires SafeInv(s) && TicketRun(s, k) && Enabled(s, ToolCallHook(ctx, f))
    ensures RunningAfter(gov, s, Hook(gov, s, ctx, f), ToolCallHook(ctx, f), k)
  {
    if ctx.toolName != "" && ctx.runId != "" {
      if KeyOf(ctx) == k {
        OwnCall(gov, s, ctx, f, k);
      } else {
        SafeStores(s);
        HookWorks(gov, s, ctx, f);
        hide SafeInv, Gate, Hook;
        WorkKeeps(s, Hook(gov, s, ctx, f), k, KeyOf(ctx), 0);
      }
    }
  }

  /** A call of the run itself: held back, the run is not RUNNING afterwards; else its status stays. */
  lemma OwnCall(gov: Governance, s: State, ctx: ToolContext, f: Fresh, k: RunKey)
    requires SafeInv(s) && k in s.runs.runs && KeyOf(ctx) == k && ctx.toolName != "" && ctx.runId != ""
    ensures var s' := Hook(gov, s, ctx, f);
            && k in s'.runs.runs
            && (s'.runs.runs[k].status == Running <==>
                 s.runs.runs[k].status == Running && !Gate(gov, s.runs, s.ledger, ctx, f).2.waitingApproval)
  {
    SafeStores(s);
    hide SafeInv, RunsInv, Gate, Hook, MarkWaiting;
    var (d, a, r) := Gate(gov, s.runs, s.ledger, ctx, f);
    GateKeepsStatus(gov, s.runs, s.ledger, ctx, f);
    GateWorks(gov, s.runs, s.ledger, ctx, f);
    if r.waitingApproval {
      HookMarks(gov, s, ctx, f);
      MarkStops(s.(runs := d, ledger := a), ctx, r.message);
    } else {
      HookPasses(gov, s, ctx, f);
    }
  }

  lemma HookPasses(gov: Governance, s: State, ctx: ToolContext, f: Fresh)
    requires ctx.toolName != "" && ctx.runId != "" && !Gate(gov, s.runs, s.ledger, ctx, f).2.waitingApproval
    ensures Hook(gov, s, ctx, f).runs == Gate(gov, s.runs, s.ledger, ctx, f).0
  {
    hide Gate;
  }

  lemma MarkStops(s: State, ctx: ToolContext, message: string)
    requires RunsInv(s.runs) && KeyOf(ctx) in s.runs.runs
    ensures var d := MarkWaiting(s, ctx, message).runs; KeyOf(ctx) in d.runs && d.runs[KeyOf(ctx)].status != Running
  {
    TryWorks(s.runs, KeyOf(ctx), WaitingApproval, Truncated(message, 500));
    MarkedChatFrame(s, MarkedWaiting(s.runs, KeyOf(ctx), message), ctx);
    hide RunsInv, TryTransition, MarkedChat;
  }

  // ---- the stores ----

  lemma AfterKept(gov: Governance, s: State, s': State, step: Step, k: RunKey)
    requires k in s.runs.runs && StatusKept(s, s', k) && !step.ApproveDirect? && !Stops(gov, s, step, k)
    ensures RunningAfter(gov, s, s', step, k)
  {
    hide Stops;
  }

  lemma AfterStopped(gov: Governance, s: State, s': State, step: Step, k: RunKey)
    requires k in s.runs.runs && k in s'.runs.runs && s'.runs.runs[k].status != Running
    requires !step.ApproveDirect? && Stops(gov, s, step, k)
    ensures RunningAfter(gov, s, s', step, k)
  {
    hide Stops;
  }

  /** An event or the begin of a run leaves every stored status. */
  lemma EventStatus(gov: Governance, s: State, j: RunKey, e: EventBody, k: RunKey)
    requires RunsInv(s.runs) && k in s.runs.runs && IsAgentEvent(e)
    ensures RunningAfter(gov, s, s.(runs := AppendEvent(s.runs, j, e)), AgentEvent(j, e), k)
  {
    AppendWorks(s.runs, j, e);
    hide RunsInv, AppendEvent, RunningAfter;
    AfterKept(gov, s, s.(runs := AppendEvent(s.runs, j, e)), AgentEvent(j, e), k);
  }

  lemma BeginStatus(gov: Governance, s: State, j: RunKey, uid: string, src: RunSource, job: Option<string>,
                    ticket: Option<string>, k: RunKey)
    requires RunsInv(s.runs) && k in s.runs.runs && FreshRun(s, j)
    ensures RunningAfter(gov, s, s.(runs := BeginRun(s.runs, j.0, j.1, uid, src, None, job, ticket)),
                         TicketBegin(j, uid, src, job, ticket), k)
  {
    BeginWorks(s.runs, j.0, j.1, uid, src, None, job, ticket);
    hide RunsInv, BeginRun, RunningAfter;
    AfterKept(gov, s, s.(runs := BeginRun(s.runs, j.0, j.1, uid, src, None, job, ticket)),
              TicketBegin(j, uid, src, job, ticket), k);
  }

  /** A transition that a RUNNING run can always take. */
  lemma TryStops(s: State, j: RunKey, to: RunStatus, text: string, k: RunKey)
    requires RunsInv(s.runs) && k in s.runs.runs && to != Running && Allowed(Running, to)
    ensures var s' := s.(runs := TryTransition(s.runs, j, to, text));
            if j == k then k in s'.runs.runs && s'.runs.runs[k].status != Running else StatusKept(s, s', k)
  {
    TryWorks(s.runs, j, to, text);
    hide RunsInv, TryTransition;
  }

  lemma EndStatus(gov: Governance, s: State, j: RunKey, to: RunStatus, text: string, k: RunKey)
    requires RunsInv(s.runs) && k in s.runs.runs && Enabled(s, TicketEnd(j, to, text))
    ensures RunningAfter(gov, s, s.(runs := TryTransition(s.runs, j, to, text)), TicketEnd(j, to, text), k)
  {
    hide RunsInv, TryTransition, RunningAfter, StatusKept;
    TryStops(s, j, to, text, k);
    var s' := s.(runs := TryTransition(s.runs, j, to, text));
    if j == k {
      AfterStopped(gov, s, s', TicketEnd(j, to, text), k);
    } else {
      AfterKept(gov, s, s', TicketEnd(j, to, text), k);
    }
  }

  lemma CancelStatus(gov: Governance, s: State, j: RunKey, k: RunKey)
    requires RunsInv(s.runs) && k in s.runs.runs && Enabled(s, CancelDirect(j))
    ensures RunningAfter(gov, s, s.(runs := TryTransition(s.runs, j, Cancelled, "")), CancelDirect(j), k)
  {
    hide RunsInv, TryTransition, RunningAfter, StatusKept;
    TryStops(s, j, Cancelled, "", k);
    var s' := s.(runs := TryTransition(s.runs, j, Cancelled, ""));
    if j == k { AfterStopped(gov, s, s', CancelDirect(j), k); } else { AfterKept(gov, s, s', CancelDirect(j), k); }
  }

  lemma RestartStatus(gov: Governance, s: State, ks: seq<RunKey>, text: string, k: RunKey)
    requires RunsInv(s.runs) && k in s.runs.runs && Enabled(s, Restart(ks, text))
    ensures RunningAfter(gov, s, Effect(gov, s, Restart(ks, text)), Restart(ks, text), k)
  {
    RecoveryExact(s.runs, ks, text);
    assert k in ks;
    hide RunsInv, FailOrphans, RunningAfter;
    AfterStopped(gov, s, Effect(gov, s, Restart(ks, text)), Restart(ks, text), k);
  }

  lemma StoreStatus(gov: Governance, s: State, step: Step, k: RunKey)
    requires SafeInv(s) && TicketRun(s, k) && Enabled(s, step)
    requires step.AgentEvent? || step.TicketBegin? || step.TicketEnd? || step.CancelDirect? || step.Restart?
    ensures RunningAfter(gov, s, Effect(gov, s, step), step, k)
  {
    SafeStores(s);
    hide SafeInv, RunsInv, AppendEvent, BeginRun, TryTransition, RunningAfter;
    match step {
      case AgentEvent(j, e) => EventStatus(gov, s, j, e, k);
      case TicketBegin(j, uid, src, job, ticket) => BeginStatus(gov, s, j, uid, src, job, ticket, k);
      case TicketEnd(j, to, text) => EndStatus(gov, s, j, to, text, k);
      case CancelDirect(j) => CancelStatus(gov, s, j, k);
      case Restart(ks, text) => RestartStatus(gov, s, ks, text, k);
    }
  }

  lemma StepStatus(gov: Governance, s: State, step: Step, k: RunKey)
    requires SafeInv(s) && TicketRun(s, k)
    ensures RunningAfter(gov, s, Next(gov, s, step), step, k)
  {
    if Enabled(s, step) {
      if IsTaskStep(step) {
        TaskKeeps(gov, s, step, k);
      } else {
        hide SafeInv, Hook, Gate, ApprovePlain, RejectPlain, RejectChat;
        match step {
          case ApproveDirect(j, who, why) => ApproveDirectStatus(s, j, who, why, k);
          case RejectDirect(j, who, text) => RejectDirectStatus(s, j, who, text, k);
          case RejectInChat(j, text) => RejectChatKeeps(s, j, text, k);
          case ToolCallHook(ctx, f) => HookStatus(gov, s, ctx, f, k);
          case CreateChat(_) =>
          case DeleteChat(_) =>
          case _ => StoreStatus(gov, s, step, k);
        }
      }
    }
  }

  // ---- every run ----

  lemma {:induction false} StreamStored(gov: Governance, steps: seq<Step>, k: RunKey)
    requires StreamOver(gov, steps, k)
    ensures TicketRun(Exec(gov, steps), k)
  {
    var n := |steps| - 1;
    if StreamOver(gov, steps[..n], k) { StreamStored(gov, steps[..n], k); }
    AlwaysSafe(gov, steps[..n]);
    StepGrew(gov, Exec(gov, steps[..n]), steps[n]);
    hide Next, SafeInv;
  }

  /** A run without a chat whose stream has ended is RUNNING exactly when it was approved and neither a
      cancel nor a restart nor a call held back has stopped it since: nothing drives it. */
  lemma {:induction false} LeftRunningExactly(gov: Governance, steps: seq<Step>, k: RunKey)
    requires StreamOver(gov, steps, k)
    ensures k in Exec(gov, steps).runs.runs
    ensures Exec(gov, steps).runs.runs[k].status == Running <==> Reopened(gov, steps, k)
  {
    var n := |steps| - 1;
    var s := Exec(gov, steps[..n]);
    StreamStored(gov, steps, k);
    AlwaysSafe(gov, steps[..n]);
    if StreamOver(gov, steps[..n], k) {
      LeftRunningExactly(gov, steps[..n], k);
      StreamStored(gov, steps[..n], k);
    }
    StepStatus(gov, s, steps[n], k);
    hide Next, SafeInv, Approves, AwaitsDecision;
  }
}
