/** What the actions of operators, users and the hook come to, from any state the protocol reaches. */
module Decisions {
  import opened Wrappers
  import opened RunModel
  import opened ZSets
  import opened RunDb
  import opened Approvals
  import opened Policy
  import opened World
  import opened Settling
  import opened Safety

  predicate RequestHas(a: Ledger, q: ApprovalRequest, st: ApprovalStatus) {
    (q.projectId, q.approvalId) in a.requests && a.requests[(q.projectId, q.approvalId)].status == st
  }

  /** The grant that an approval of `q` issues. */
  predicate GrantOutstanding(a: Ledger, q: ApprovalRequest) {
    var g := (q.projectId, q.runId, q.toolName);
    g in a.grants && a.grants[g].approvalId == q.approvalId
  }

  lemma GrantedEffect(s: State, k: RunKey, who: string, why: Option<string>)
    requires SafeInv(s) && AwaitsDecision(s, k)
    ensures var q, s1 := PendingOf(s, k), Granted(s, k, who, why);
            && q.projectId == k.0 && q.runId == k.1 && RequestHas(s1.ledger, q, Approved)
                 && GrantOutstanding(s1.ledger, q)
            && s1.runs.runs == s.runs.runs
  {
    PendingSound(s.ledger, k.0, k.1);
  }

  lemma RefusedEffect(s: State, k: RunKey, who: string, why: Option<string>)
    requires SafeInv(s) && AwaitsDecision(s, k)
    ensures var q, s1 := PendingOf(s, k), Refused(s, k, who, why);
            RequestHas(s1.ledger, q, Rejected) && s1.ledger.grants == s.ledger.grants && s1.runs.runs == s.runs.runs
  {
    PendingSound(s.ledger, k.0, k.1);
  }

  /** Approving a waiting run without a chat: its request is approved, the grant for its tool is
      outstanding and the run is RUNNING. */
  lemma ApprovalContinues(s: State, k: RunKey, who: string, why: Option<string>)
    requires SafeInv(s) && AwaitsDecision(s, k) && ChatOf(s, k).None?
    ensures var q, s' := PendingOf(s, k), ApprovePlain(s, k, who, why);
            && RequestHas(s'.ledger, q, Approved) && GrantOutstanding(s'.ledger, q)
            && k in s'.runs.runs && s'.runs.runs[k].status == Running
  {
    GrantedEffect(s, k, who, why);
    GrantedSafe(s, k, who, why);
    var s1 := Granted(s, k, who, why);
    TransitionRuns(s1.runs, k, Running, "");
    TransitionWorks(s1.runs, k, Running, "");
  }

  /** Rejecting one, with a chat or without: its request is rejected, no grant is issued, the run is
      BLOCKED for the given reason, and its chat, if it exists, is idle. */
  lemma RejectionBlocks(s: State, k: RunKey, who: string, text: string)
    requires SafeInv(s) && AwaitsDecision(s, k)
    ensures var q := PendingOf(s, k);
            var s' := if ChatOf(s, k).Some? then RejectChat(s, k, text) else RejectPlain(s, k, who, text);
            && RequestHas(s'.ledger, q, Rejected) && s'.ledger.grants == s.ledger.grants
            && k in s'.runs.runs && s'.runs.runs[k].status == Blocked
            && s'.runs.runs[k].errorMessage == Some(Truncated(RejectionText(text), 500))
            && (ChatOf(s, k).Some? && ChatOf(s, k).value in s.chats ==>
                  ChatOf(s, k).value in s'.chats && s'.chats[ChatOf(s, k).value] == Idle)
  {
    var why := if text == "" then None else Some(text);
    var decider := if ChatOf(s, k).Some? then s.runs.runs[k].uid else who;
    var s1 := Refused(s, k, decider, why);
    RefusedEffect(s, k, decider, why);
    RefusedSafe(s, k, decider, why);
    SafeStores(s1);
    DecisionFrame(s, k, decider, why);
    BlockedWith(s1.runs, k, RejectionText(text));
    RejectedState(s, k, who, text);
    hide RejectChat, RejectPlain, TryTransition, SafeInv, RunsInv, RequestHas, GetPendingForRun, Refused;
  }

  /** Both ways of rejecting refuse the request and block the run. */
  lemma RejectedState(s: State, k: RunKey, who: string, text: string)
    requires AwaitsDecision(s, k)
    ensures var chat := ChatOf(s, k);
            var s' := if chat.Some? then RejectChat(s, k, text) else RejectPlain(s, k, who, text);
            var decider := if chat.Some? then s.runs.runs[k].uid else who;
            var s1 := Refused(s, k, decider, if text == "" then None else Some(text));
            && s'.ledger == s1.ledger && s'.runs == TryTransition(s1.runs, k, Blocked, RejectionText(text))
            && (chat.Some? && chat.value in s1.chats ==> chat.value in s'.chats && s'.chats[chat.value] == Idle)
  {
    hide Refused, TryTransition, GetPendingForRun, RejectionText;
  }

  lemma BlockedWith(d: Runs, k: RunKey, text: string)
    requires RunsInv(d) && k in d.runs && d.runs[k].status == WaitingApproval && text != ""
    ensures var d' := TryTransition(d, k, Blocked, text);
            k in d'.runs && d'.runs[k].status == Blocked && d'.runs[k].errorMessage == Some(Truncated(text, 500))
  {
    TransitionRuns(d, k, Blocked, text);
    TransitionFacts(d, k, Blocked, text, true);
  }

  /** Approving a waiting chat run leaves it waiting until its new task takes its first step, which
      makes it RUNNING and shows the chat as running. */
  lemma ApprovedTaskResumes(s: State, o: nat, id: string)
    requires SafeInv(s) && Enabled(s, FirstStep(o, id)) && s.objs[o].resumes.Some? && s.objs[o].chat in s.chats
    ensures var k, s' := (s.objs[o].chat.0, s.objs[o].resumes.value), Begin(s, o, id);
            && k in s.runs.runs && k in s'.runs.runs && s.objs[o].chat in s'.chats
            && (s.runs.runs[k].status == WaitingApproval ==> s'.runs.runs[k].status == Running)
            && s'.chats[s.objs[o].chat] == InProgress && Drives(s', o, k)
  {
    var k := (s.objs[o].chat.0, s.objs[o].resumes.value);
    assert ObjFine(s, o) && RunOfChat(s, k, s.objs[o].chat);
    if s.runs.runs[k].status == WaitingApproval {
      TransitionRuns(s.runs, k, Running, "");
      TransitionWorks(s.runs, k, Running, "");
    }
  }

  /** Cancelling a chat whose task has a run: the run is CANCELLED where the table allows it, the
      task is told, and nothing is unregistered. */
  lemma CancelTellsTask(s: State, c: ChatKey)
    requires SafeInv(s) && c in s.registry && HasRun(s, s.registry[c])
    ensures var o := s.registry[c];
            var k, s' := RunOf(s, o), CancelChat(s, c);
            && k in s.runs.runs && k in s'.runs.runs && o in s'.objs && s'.registry == s.registry
            && s'.runs.runs[k].status == (if IsTerminal(s.runs.runs[k].status) then s.runs.runs[k].status
                 else Cancelled)
            && s'.objs[o] == s.objs[o].(cancelRequested := true)
  {
    assert EntryFine(s, c);
    var o := s.registry[c];
    assert ObjFine(s, o) && RunFine(s, RunOf(s, o));
    TryWorks(s.runs, RunOf(s, o), Cancelled, "");
  }

  /** A call that the gate holds back for approval pauses its run, when that is RUNNING, and the chat
      it was made for, and leaves the message with the run. */
  lemma HeldCallPauses(gov: Governance, s: State, ctx: ToolContext, f: Fresh)
    requires SafeInv(s) && Enabled(s, ToolCallHook(ctx, f)) && ctx.toolName != "" && ctx.runId != ""
    requires Gate(gov, s.runs, s.ledger, ctx, f).2.waitingApproval && KeyOf(ctx) in s.runs.runs
    requires s.runs.runs[KeyOf(ctx)].status == Running
    ensures var k, s' := KeyOf(ctx), Hook(gov, s, ctx, f);
            && k in s'.runs.runs && s'.runs.runs[k].status == WaitingApproval
            && (ctx.chatId.Some? && ctx.uid != "" && (k.0, ctx.uid, ctx.chatId.value) in s.chats ==>
                  && (k.0, ctx.uid, ctx.chatId.value) in s'.chats
                  && s'.chats[(k.0, ctx.uid, ctx.chatId.value)] == AwaitingApproval)
  {
    var (d, a, r) := Gate(gov, s.runs, s.ledger, ctx, f);
    GateSafe(gov, s, ctx, f);
    GateKeepsStatus(gov, s.runs, s.ledger, ctx, f);
    HookMarks(gov, s, ctx, f);
    MarkPauses(s.(runs := d, ledger := a), ctx, r.message);
  }

  lemma HookMarks(gov: Governance, s: State, ctx: ToolContext, f: Fresh)
    requires ctx.toolName != "" && ctx.runId != "" && Gate(gov, s.runs, s.ledger, ctx, f).2.waitingApproval
    ensures var (d, a, r) := Gate(gov, s.runs, s.ledger, ctx, f);
            Hook(gov, s, ctx, f) == MarkWaiting(s.(runs := d, ledger := a), ctx, r.message)
  {
    hide Gate, MarkWaiting;
  }

  lemma MarkPauses(s: State, ctx: ToolContext, message: string)
    requires RunsInv(s.runs) && KeyOf(ctx) in s.runs.runs && s.runs.runs[KeyOf(ctx)].status == Running
    ensures var k, s' := KeyOf(ctx), MarkWaiting(s, ctx, message);
            && k in s'.runs.runs && s'.runs.runs[k].status == WaitingApproval
            && (ctx.chatId.Some? && ctx.uid != "" && (k.0, ctx.uid, ctx.chatId.value) in s.chats ==>
                  && (k.0, ctx.uid, ctx.chatId.value) in s'.chats
                  && s'.chats[(k.0, ctx.uid, ctx.chatId.value)] == AwaitingApproval)
  {
    hide TryTransition, RunsInv;
    TryWorks(s.runs, KeyOf(ctx), WaitingApproval, Truncated(message, 500));
  }

  lemma GateKeepsStatus(gov: Governance, d: Runs, a: Ledger, ctx: ToolContext, f: Fresh)
    requires RunsInv(d) && KeyOf(ctx) in d.runs
    ensures var d' := Gate(gov, d, a, ctx, f).0;
            KeyOf(ctx) in d'.runs && d'.runs[KeyOf(ctx)].status == d.runs[KeyOf(ctx)].status
  {
    hide AppendEvent, RunsInv, OthersKept, Extends, Stamped;
    var c := WithRegistry(gov, ctx);
    var v, k := Verdict(gov, c), KeyOf(ctx);
    var e := if GrantKeyOf(ctx) in a.grants && ctx.runId != "" then DecisionEvent(c, Evaluation(Allow, GRANT_RULE))
      else DecisionEvent(c, v);
    AppendWorks(d, k, e);
    var d1 := AppendEvent(d, k, e);
    AppendWorks(d1, k, ErrorEvent(POLICY_DENIED, DenyMessage(ctx.toolName, v.matchedRule)));
    AppendWorks(d1, k, ErrorEvent(APPROVAL_REQUIRED, ApprovalMessage(ctx.toolName, v.matchedRule)));
  }
}
