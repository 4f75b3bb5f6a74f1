/** The gate, the hook, the chat-run manager and the operators' actions as they change the stores.
    Each method is one atomic stretch and is proved against the step of World.dfy it takes. */
module Service {
  import opened Wrappers
  import opened RunModel
  import opened ZSets
  import opened RunDb
  import opened Approvals
  import opened Policy
  import opened World
  import opened Stores
  import opened ApprovalBook

  // ---- the gate ----

  class ToolGovernanceGate {
    const gov: Governance
    const events: Storage
    const approvals: ApprovalStore

    constructor (gov: Governance, events: Storage, approvals: ApprovalStore)
      ensures this.gov == gov && this.events == events && this.approvals == approvals
    {
      this.gov, this.events, this.approvals := gov, events, approvals;
    }

    /** An audit event, for calls that belong to a run. */
    method Record(ctx: ToolContext, e: EventBody)
      requires events.Valid()
      modifies events
      ensures events.Valid() && events.Db() == GateEvent(old(events.Db()), ctx, e)
    {
      if ctx.runId != "" { events.Append(KeyOf(ctx), e); }
    }

    /** Reuse the pending request of this tool or create one. */
    method RequestApproval(ctx: ToolContext, f: Fresh)
      modifies approvals
      ensures approvals.Book() == EnsureRequest(old(approvals.Book()), ctx, f)
    {
      if ctx.runId != "" {
        var pending := approvals.PendingForRun(ctx.projectId, ctx.runId);
        if pending.None? || pending.value.toolName != ctx.toolName {
          approvals.Create(ctx.projectId, f.approvalId, ctx.runId, ctx.toolName, ctx.mcpServer, ctx.arguments,
            f.createdAtLength);
        }
      }
    }

    /** evaluate_context */
    method EvaluateContext(ctx0: ToolContext, f: Fresh) returns (r: GateResult)
      requires events.Valid()
      modifies events, approvals
      ensures events.Valid()
      ensures (events.Db(), approvals.Book(), r) == Gate(gov, old(events.Db()), old(approvals.Book()), ctx0, f)
    {
      var ctx := ctx0.(toolKnown := IsKnownTool(gov, ctx0.projectId, ctx0.mcpServer, ctx0.toolName));
      var g := GrantKeyOf(ctx);
      ghost var verdict := Verdict(gov, ctx).decision;
      ghost var was := approvals.Book();
      var granted := false;
      if ctx.runId != "" { granted := approvals.ConsumeToolGrant(g); }
      if granted {
        Record(ctx, DecisionEvent(ctx, Evaluation(Allow, GRANT_RULE)));
        approvals.Note(g.0, g.1, g.2, verdict, Some(was.grants[g].approvalId));
        return GateResult(Allow, false, false, "");
      }
      r := Judge(ctx, f);
    }

    /** The policy's verdict and what follows from it. */
    method Judge(ctx: ToolContext, f: Fresh) returns (r: GateResult)
      requires events.Valid() && !(ctx.runId != "" && GrantKeyOf(ctx) in approvals.grants)
      requires ctx == WithRegistry(gov, ctx)
      modifies events, approvals
      ensures events.Valid()
      ensures (events.Db(), approvals.Book(), r) == Gate(gov, old(events.Db()), old(approvals.Book()), ctx, f)
    {
      var v := EvaluateChain(Chain(gov), ctx);
      Record(ctx, DecisionEvent(ctx, v));
      match v.decision {
        case Allow =>
          approvals.Note(ctx.projectId, ctx.runId, ctx.toolName, Allow, None);
          return GateResult(Allow, false, false, "");
        case Deny =>
          var m := DenyMessage(ctx.toolName, v.matchedRule);
          Record(ctx, ErrorEvent(POLICY_DENIED, m));
          return GateResult(Deny, true, false, m);
        case RequireApproval =>
          var m := ApprovalMessage(ctx.toolName, v.matchedRule);
          RequestApproval(ctx, f);
          Record(ctx, ErrorEvent(APPROVAL_REQUIRED, m));
          return GateResult(RequireApproval, true, true, m);
      }
    }
  }

  // ---- the chat-run manager ----

  /** `_runs` is `registry`; the _ChatRun objects are entries of `objs`, named by their identity. */
  class ChatRunManager {
    const gate: ToolGovernanceGate
    const storage: Storage
    const approvals: ApprovalStore
    var chats: map<ChatKey, AgentRunStatus>
    ghost var owners: map<(string, string), string>
    var objs: map<nat, ChatRun>
    var registry: map<ChatKey, nat>

    constructor (gov: Governance)
      ensures Valid() && St() == INIT && gate.gov == gov
      ensures fresh(storage) && fresh(approvals)
    {
      var db := new Storage();
      var book := new ApprovalStore();
      storage, approvals := db, book;
      gate := new ToolGovernanceGate(gov, db, book);
      chats, owners, objs, registry := map[], map[], map[], map[];
    }

    ghost predicate Valid()
      reads this, storage
    {
      gate.events == storage && gate.approvals == approvals && storage.Valid()
    }

    ghost function St(): State
      reads this, storage, approvals
    {
      State(storage.Db(), approvals.Book(), chats, owners, objs, registry)
    }

    /** set_agent_run_status; false stands for its KeyError. */
    method SetStatus(c: ChatKey, st: AgentRunStatus) returns (found: bool)
      modifies this`chats
      ensures St() == WithChatStatus(old(St()), c, st)
      ensures found <==> c in old(chats)
    {
      if c !in chats { return false; }
      chats := chats[c := st];
      return true;
    }

    // -- the hook --

    /** mark_run_waiting_approval */
    method MarkRunWaiting(ctx: ToolContext, message: string)
      requires Valid()
      modifies this`chats, storage
      ensures Valid() && St() == MarkWaiting(old(St()), ctx, message)
    {
      var k := KeyOf(ctx);
      if k !in storage.runs { return; }
      if storage.runs[k].status != WaitingApproval {
        storage.TryMove(k, WaitingApproval, Truncated(message, 500));
      }
      if ctx.chatId.Some? && ctx.uid != "" {
        var found := SetStatus((ctx.projectId, ctx.uid, ctx.chatId.value), AwaitingApproval);
      }
    }

    /** evaluate_hook_event: whether the tool may run. */
    method EvaluateHookEvent(ctx: ToolContext, f: Fresh) returns (allow: bool)
      requires Valid()
      modifies this`chats, storage, approvals
      ensures Valid() && St() == Hook(gate.gov, old(St()), ctx, f)
      ensures ctx.toolName != "" && ctx.runId != "" ==>
                (allow <==> !Gate(gate.gov, old(St()).runs, old(St()).ledger, ctx, f).2.blocked)
    {
      if ctx.toolName == "" { return true; }
      if ctx.runId == "" {
        var v := EvaluateChain(Chain(gate.gov), ctx.(toolKnown := true));
        if v.decision == Allow { approvals.Note(ctx.projectId, "", ctx.toolName, Allow, None); }
        return v.decision == Allow;
      }
      var r := gate.EvaluateContext(ctx, f);
      if r.waitingApproval { MarkRunWaiting(ctx, r.message); }
      return !r.blocked;
    }

    // -- starting, cancelling, deciding --

    /** start; false stands for its RuntimeError. */
    method StartTask(c: ChatKey, o: nat, conv: Option<string>) returns (ok: bool)
      requires Valid()
      modifies this`objs, this`registry
      ensures Valid() && St() == Start(old(St()), c, o, conv)
      ensures ok <==> c !in old(registry) && GetActiveRunForChat(old(St()).runs, c.0, c.1, c.2).None?
    {
      if c in registry { return false; }
      var active := storage.ActiveRunForChat(c.0, c.1, c.2);
      if active.Some? { return false; }
      objs := objs[o := ChatRun(c, None, None, false, Scheduled, false, conv, "")];
      registry := registry[c := o];
      return true;
    }

    /** cancel_chat, up to its first await */
    method Cancel(c: ChatKey)
      requires Valid()
      modifies this`objs, storage
      ensures Valid() && St() == CancelChat(old(St()), c)
    {
      if c !in registry || registry[c] !in objs { return; }
      var o := registry[c];
      if objs[o].runId.Some? { storage.TryMove((c.0, objs[o].runId.value), Cancelled, ""); }
      objs := objs[o := objs[o].(cancelRequested := true)];
    }

    method TimeTwice() returns (t: Time)
      requires Valid()
      modifies storage`clock
      ensures Valid() && t == old(storage.clock) && St() == old(St()).(runs := Ticks(old(St()).runs, 2))
    {
      t := storage.Now();
      var t2 := storage.Now();
    }

    /** The approval: the pending request resolved and the grant issued. */
    method GrantRequest(k: RunKey, pending: ApprovalRequest, who: string, reason: Option<string>)
      requires Valid() && AwaitsDecision(St(), k) && pending == PendingOf(St(), k)
      modifies storage`clock, approvals
      ensures Valid() && St() == Granted(old(St()), k, who, reason)
    {
      var now := TimeTwice();
      approvals.ApproveRequest(pending, who, reason, now);
    }

    method RefuseRequest(k: RunKey, pending: ApprovalRequest, who: string, reason: Option<string>)
      requires Valid() && AwaitsDecision(St(), k) && pending == PendingOf(St(), k)
      modifies storage`clock, approvals
      ensures Valid() && St() == Refused(old(St()), k, who, reason)
    {
      var now := storage.Now();
      var ok := approvals.ResolveRequest(pending.projectId, pending.approvalId, false, who, reason, now);
    }

    /** The guards of both decisions; None stands for their errors. */
    method FindPending(k: RunKey) returns (pending: Option<ApprovalRequest>)
      requires Valid()
      ensures pending.Some? <==> AwaitsDecision(St(), k)
      ensures pending.Some? ==> pending.value == PendingOf(St(), k)
    {
      if k !in storage.runs || storage.runs[k].status != WaitingApproval { return None; }
      pending := approvals.PendingForRun(k.0, k.1);
    }

    /** resume_after_approval(approved=False) */
    method RejectInChat(k: RunKey, reason: string)
      requires Valid()
      modifies this`chats, storage, approvals
      ensures Valid() && St() == RejectChat(old(St()), k, reason)
    {
      var pending := FindPending(k);
      if pending.None? || storage.runs[k].chatId.None? { return; }
      var uid, c := storage.runs[k].uid, (k.0, storage.runs[k].uid, storage.runs[k].chatId.value);
      RefuseRequest(k, pending.value, uid, if reason == "" then None else Some(reason));
      storage.TryMove(k, Blocked, RejectionText(reason));
      var found := SetStatus(c, Idle);
    }

    /** resume_after_approval(approved=True), up to its first await */
    method ApproveInChat(k: RunKey, o: nat, reason: Option<string>, conv: Option<string>)
      requires Valid() && o !in objs
      modifies this`objs, this`registry, storage`clock, approvals
      ensures Valid() && St() == ApproveChat(old(St()), k, o, reason, conv)
    {
      var pending := FindPending(k);
      if pending.None? || storage.runs[k].chatId.None? { return; }
      var uid, c := storage.runs[k].uid, (k.0, storage.runs[k].uid, storage.runs[k].chatId.value);
      GrantRequest(k, pending.value, uid, reason);
      Resume(k, c, o, conv);
    }

    /** What follows the grant: the task that continues the run is registered. */
    method Resume(k: RunKey, c: ChatKey, o: nat, conv: Option<string>)
      requires Valid() && o !in objs
      modifies this`objs, this`registry
      ensures Valid() && St() == Resumed(old(St()), k, c, o, conv)
    {
      if c !in chats { return; }
      var phase := Scheduled;
      if c in registry && registry[c] in objs {
        var prev := registry[c];
        if objs[prev].runId != Some(k.1) { return; }
        objs := objs[prev := objs[prev].(cancelRequested := true)];
        phase := Unscheduled(if objs[prev].phase.Unscheduled? then None else Some(prev));
      }
      objs := objs[o := ChatRun(c, Some(k.1), Some(k.1), false, phase, false, conv, "")];
      registry := registry[c := o];
    }

    /** approve_run for a run without a chat */
    method ApproveRun(k: RunKey, who: string, reason: Option<string>)
      requires Valid()
      modifies storage, approvals
      ensures Valid() && St() == ApprovePlain(old(St()), k, who, reason)
    {
      var pending := FindPending(k);
      if pending.None? || storage.runs[k].chatId.Some? { return; }
      GrantRequest(k, pending.value, who, reason);
      storage.TryMove(k, Running, "");
    }

    /** reject_run for a run without a chat */
    method RejectRun(k: RunKey, who: string, reason: string)
      requires Valid()
      modifies storage, approvals
      ensures Valid() && St() == RejectPlain(old(St()), k, who, reason)
    {
      var pending := FindPending(k);
      if pending.None? || storage.runs[k].chatId.Some? { return; }
      RefuseRequest(k, pending.value, who, if reason == "" then None else Some(reason));
      storage.TryMove(k, Blocked, RejectionText(reason));
    }

    // -- the chat task --

    /** `finally` */
    method ExitTask(o: nat)
      requires Valid() && o in objs
      modifies this`objs, this`registry
      ensures Valid() && St() == Exit(old(St()), o)
    {
      var c := objs[o].chat;
      objs := objs[o := objs[o].(phase := Ended)];
      registry := registry - {c};
    }

    /** The exception handlers. */
    method HandleFailure(o: nat, f: Failure, message: string)
      requires Valid() && HasRun(St(), o)
      modifies this`objs, this`registry, this`chats, storage
      ensures Valid() && St() == Raised(old(St()), o, f, message)
    {
      var c := objs[o].chat;
      storage.TryMove((c.0, objs[o].runId.value), FailureStatus(f), if f == CancelledError then "" else message);
      var found := SetStatus(c, FailureView(f));
      ExitTask(o);
    }

    /** A chat status set inside the try block, then `return`. */
    method LeaveTask(o: nat, view: AgentRunStatus)
      requires Valid() && HasRun(St(), o)
      modifies this`objs, this`registry, this`chats, storage
      ensures Valid() && St() == Leave(old(St()), o, view)
    {
      var c := objs[o].chat;
      if c !in chats { HandleFailure(o, OtherError, Missing(c)); return; }
      var found := SetStatus(c, view);
      ExitTask(o);
    }

    method MoveAndLeaveTask(o: nat, to: RunStatus, error: string)
      requires Valid() && HasRun(St(), o)
      modifies this`objs, this`registry, this`chats, storage
      ensures Valid() && St() == MoveAndLeave(old(St()), o, to, error)
    {
      var r := storage.Move((objs[o].chat.0, objs[o].runId.value), to, error, true);
      if r.Err? { HandleFailure(o, OtherError, ILLEGAL); return; }
      LeaveTask(o, Idle);
    }

    /** The body of the loop over the engine stream. */
    method OnStreamChunk(o: nat, conv: Option<string>, delta: bool, denied: Option<string>)
      requires Valid() && HasRun(St(), o)
      modifies this`objs, this`registry, this`chats, storage
      ensures Valid() && St() == OnChunk(old(St()), o, conv, delta, denied)
    {
      var k := (objs[o].chat.0, objs[o].runId.value);
      if objs[o].cancelRequested { MoveAndLeaveTask(o, Cancelled, ""); return; }
      if k in storage.runs && storage.runs[k].status == WaitingApproval { LeaveTask(o, AwaitingApproval); return; }
      var r := objs[o];
      if conv.Some? {
        r := r.(conversation := conv);
        var found := storage.SetOhConversation(k, conv.value);
      }
      if delta { r := r.(produced := true); }
      if denied.Some? && denied.value != "" { r := r.(denied := denied.value); }
      objs := objs[o := r];
    }

    /** What follows the stream, up to the token-usage call. */
    method OnStreamClosed(o: nat)
      requires Valid() && HasRun(St(), o)
      modifies this`objs, this`registry, this`chats, storage
      ensures Valid() && St() == OnStreamEnd(old(St()), o)
    {
      var r := objs[o];
      if r.cancelRequested { MoveAndLeaveTask(o, Cancelled, ""); return; }
      if r.produced || r.conversation.Some? {
        if r.chat !in chats { HandleFailure(o, OtherError, Missing(r.chat)); return; }
      }
      if r.conversation.Some? { objs := objs[o := r.(phase := AwaitingUsage)]; return; }
      FinishTask(o);
    }

    /** The last stretch of the try block. */
    method FinishTask(o: nat)
      requires Valid() && HasRun(St(), o)
      modifies this`objs, this`registry, this`chats, storage
      ensures Valid() && St() == Finish(old(St()), o)
    {
      var k := (objs[o].chat.0, objs[o].runId.value);
      if k in storage.runs && storage.runs[k].status == WaitingApproval {
        LeaveTask(o, AwaitingApproval);
      } else if k in storage.runs && IsTerminal(storage.runs[k].status) {
        LeaveTask(o, Idle);
      } else {
        MoveAndLeaveTask(o, Completed, objs[o].denied);
      }
    }

    /** The first stretch of _execute. */
    method BeginTask(o: nat) returns (ghost freshId: string)
      requires Valid() && o in objs
      modifies this`objs, this`registry, this`chats, storage
      ensures Valid() && St() == Begin(old(St()), o, freshId)
    {
      var r := objs[o];
      var (pid, uid, chat) := r.chat;
      freshId := "";
      var runId: string;
      if r.resumes.Some? {
        runId := r.resumes.value;
        if (pid, runId) !in storage.runs {
          objs := objs[o := r.(phase := NeverRan)];
          return;
        }
        if storage.runs[(pid, runId)].status == WaitingApproval { storage.TryMove((pid, runId), Running, ""); }
      } else {
        runId := storage.Begin(pid, uid, Chat, Some(chat), None, None);
        freshId := runId;
      }
      OpenTask(o, runId);
    }

    method OpenTask(o: nat, runId: string)
      requires Valid() && o in objs
      modifies this`objs, this`registry, this`chats, storage
      ensures Valid() && St() == Opened(old(St()), o, runId)
    {
      var c := objs[o].chat;
      objs := objs[o := objs[o].(runId := Some(runId), phase := AwaitingChunk)];
      if c !in chats { HandleFailure(o, OtherError, Missing(c)); return; }
      var found := SetStatus(c, InProgress);
    }
  }
}
