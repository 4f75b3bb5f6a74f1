/** The whole protocol as a step system.  A step is one stretch of code between two suspension
    points: store methods and the code around them never await, and the manager's lock is never
    held across an await, so an exit of a task (handler, `finally`, removal) is one stretch too. */
module World {
  import opened Wrappers
  import opened RunModel
  import opened RunDb
  import opened Approvals
  import opened Policy


  datatype AgentRunStatus = Idle | InProgress | AwaitingApproval | Errored

  /** Where the task of a _ChatRun stands. */
  datatype Phase =
    | Unscheduled(stale: Option<nat>)   // registered by a resume that has still to create the task
    | Scheduled                         // task created, first step not taken
    | AwaitingChunk                     // suspended in the engine stream
    | AwaitingUsage                     // suspended in the token-usage call
    | Ended                             // `finally` has run
    | NeverRan                          // cancelled before its first step: no `finally`

  datatype ChatRun = ChatRun(
    chat: ChatKey, resumes: Option<string>, runId: Option<string>, cancelRequested: bool, phase: Phase,
    produced: bool, conversation: Option<string>, denied: string)

  datatype State = State(
    runs: Runs, ledger: Ledger,
    chats: map<ChatKey, AgentRunStatus>,
    owners: map<(string, string), string>,   // every chat id ever used, with its user
    objs: map<nat, ChatRun>,
    registry: map<ChatKey, nat>)

  const INIT := State(EMPTY_RUNS, EMPTY_LEDGER, map[], map[], map[], map[])

  predicate Suspended(r: ChatRun) { r.phase.AwaitingChunk? || r.phase.AwaitingUsage? }

  /** Not done: the _ChatRun counts as a running task of its chat. */
  predicate Live(r: ChatRun) { Suspended(r) || r.phase.Scheduled? || r.phase.Unscheduled? }

  // ---- the gate and the hook ----

  datatype GateResult = GateResult(decision: Decision, blocked: bool, waitingApproval: bool, message: string)

  function DenyMessage(tool: string, rule: string): string { "Tool " + tool + " denied by policy (" + rule + ")" }
  function ApprovalMessage(tool: string, rule: string): string {
    "Tool " + tool + " requires approval (" + rule + "); waiting for operator decision"
  }
  const GRANT_RULE := "approval.grant"
  const POLICY_DENIED := "policy_denied"
  const APPROVAL_REQUIRED := "approval_required"

  function DecisionText(d: Decision): string {
    match d case Allow => "allow" case Deny => "deny" case RequireApproval => "require_approval"
  }

  function DecisionEvent(ctx: ToolContext, e: Evaluation): EventBody {
    PolicyDecision(ctx.toolName, ctx.mcpServer, DecisionText(e.decision), e.matchedRule)
  }

  /** The identifiers and the clock text that a request created by this call would get. */
  datatype Fresh = NewIds(approvalId: string, createdAtLength: nat)

  function KeyOf(ctx: ToolContext): RunKey { (ctx.projectId, ctx.runId) }
  function GrantKeyOf(ctx: ToolContext): GrantKey { (ctx.projectId, ctx.runId, ctx.toolName) }

  /** An audit event of the gate, for calls that belong to a run. */
  function GateEvent(d: Runs, ctx: ToolContext, e: EventBody): Runs {
    if ctx.runId == "" then d else AppendEvent(d, KeyOf(ctx), e)
  }

  /** Reuse the pending request when it is for this tool, else create one. */
  ghost function EnsureRequest(a: Ledger, ctx: ToolContext, f: Fresh): Ledger {
    var pending := GetPendingForRun(a, ctx.projectId, ctx.runId);
    if ctx.runId == "" || (pending.Some? && pending.value.toolName == ctx.toolName) then a
    else CreateRequest(a, ctx.projectId, f.approvalId, ctx.runId, ctx.toolName, ctx.mcpServer, ctx.arguments,
      f.createdAtLength)
  }

  /** evaluate_context */
  ghost function Gate(gov: Governance, d: Runs, a: Ledger, ctx0: ToolContext, f: Fresh): (Runs, Ledger, GateResult) {
    var ctx := WithRegistry(gov, ctx0);
    var v := Verdict(gov, ctx);
    var g := GrantKeyOf(ctx);
    if ctx.runId != "" && g in a.grants then
      (GateEvent(d, ctx, DecisionEvent(ctx, Evaluation(Allow, GRANT_RULE))),
       UseGrant(a, g, v.decision),
       GateResult(Allow, false, false, ""))
    else
      var d1 := GateEvent(d, ctx, DecisionEvent(ctx, v));
      match v.decision
      case Allow =>
        (d1, Pass(a, ctx.projectId, ctx.runId, ctx.toolName, Allow, None), GateResult(Allow, false, false, ""))
      case Deny =>
        var m := DenyMessage(ctx.toolName, v.matchedRule);
        (GateEvent(d1, ctx, ErrorEvent(POLICY_DENIED, m)), a, GateResult(Deny, true, false, m))
      case RequireApproval =>
        var m := ApprovalMessage(ctx.toolName, v.matchedRule);
        (GateEvent(d1, ctx, ErrorEvent(APPROVAL_REQUIRED, m)), EnsureRequest(a, ctx, f),
         GateResult(RequireApproval, true, true, m))
  }

  function WithChatStatus(s: State, c: ChatKey, st: AgentRunStatus): State {
    if c in s.chats then s.(chats := s.chats[c := st]) else s
  }

  /** The run's part of mark_run_waiting_approval: a refused transition is swallowed. */
  function MarkedWaiting(d: Runs, k: RunKey, message: string): Runs {
    if k !in d.runs || d.runs[k].status == WaitingApproval then d
    else TryTransition(d, k, WaitingApproval, Truncated(message, 500))
  }

  /** The chat's part: its status, for a run that exists. */
  function MarkedChat(s: State, d: Runs, ctx: ToolContext): State {
    if KeyOf(ctx) in s.runs.runs && ctx.chatId.Some? && ctx.uid != "" then
      WithChatStatus(s.(runs := d), (ctx.projectId, ctx.uid, ctx.chatId.value), AwaitingApproval)
    else s.(runs := d)
  }

  /** mark_run_waiting_approval */
  function MarkWaiting(s: State, ctx: ToolContext, message: string): State {
    MarkedChat(s, MarkedWaiting(s.runs, KeyOf(ctx), message), ctx)
  }

  /** One hook process, from the tool call to its exit code.  A call of no run is only judged. */
  ghost function Hook(gov: Governance, s: State, ctx: ToolContext, f: Fresh): State {
    if ctx.toolName == "" then s
    else if ctx.runId == "" then
      var v := Verdict(gov, ctx.(toolKnown := true));
      if v.decision == Allow then s.(ledger := Pass(s.ledger, ctx.projectId, "", ctx.toolName, Allow, None)) else s
    else
      var (d, a, r) := Gate(gov, s.runs, s.ledger, ctx, f);
      var s1 := s.(runs := d, ledger := a);
      if r.waitingApproval then MarkWaiting(s1, ctx, r.message) else s1
  }

  // ---- the chat task ----

  datatype Failure = CancelledError | ApprovalRequiredError | DeniedError | OtherError

  function FailureStatus(f: Failure): RunStatus {
    match f
    case CancelledError => Cancelled
    case ApprovalRequiredError => WaitingApproval
    case DeniedError => Blocked
    case OtherError => Failed
  }

  function FailureView(f: Failure): AgentRunStatus {
    match f
    case CancelledError => Idle
    case ApprovalRequiredError => AwaitingApproval
    case DeniedError => Idle
    case OtherError => Errored
  }

  function Missing(c: ChatKey): string { "chat not found: " + c.2 }
  const ILLEGAL := "run already terminal"

  function RunOf(s: State, o: nat): RunKey
    requires o in s.objs && s.objs[o].runId.Some?
  {
    (s.objs[o].chat.0, s.objs[o].runId.value)
  }

  predicate HasRun(s: State, o: nat) { o in s.objs && s.objs[o].runId.Some? }

  /** The `finally` block. */
  function Exit(s: State, o: nat): State
    requires o in s.objs
  {
    s.(objs := s.objs[o := s.objs[o].(phase := Ended)], registry := s.registry - {s.objs[o].chat})
  }

  /** The handlers of _execute.  The transition comes first and a refused one is only logged; the
      chat status follows, and its KeyError for a deleted chat leaves through `finally`. */
  function Raised(s: State, o: nat, f: Failure, message: string): State
    requires HasRun(s, o)
  {
    var d := TryTransition(s.runs, RunOf(s, o), FailureStatus(f), if f == CancelledError then "" else message);
    Exit(WithChatStatus(s.(runs := d), s.objs[o].chat, FailureView(f)), o)
  }

  /** Setting the chat status inside the try block, then leaving. */
  function Leave(s: State, o: nat, view: AgentRunStatus): State
    requires HasRun(s, o)
  {
    var c := s.objs[o].chat;
    if c in s.chats then Exit(WithChatStatus(s, c, view), o) else Raised(s, o, OtherError, Missing(c))
  }

  /** A transition inside the try block: a refused one is an exception like any other. */
  function MoveAndLeave(s: State, o: nat, to: RunStatus, error: string): State
    requires HasRun(s, o)
  {
    match Transition(s.runs, RunOf(s, o), to, error, true)
    case Ok(d) => Leave(s.(runs := d), o, Idle)
    case Err(_) => Raised(s, o, OtherError, ILLEGAL)
  }

  predicate Waits(s: State, o: nat)
    requires HasRun(s, o)
  {
    RunOf(s, o) in s.runs.runs && s.runs.runs[RunOf(s, o)].status == WaitingApproval
  }

  predicate IsOver(s: State, o: nat)
    requires HasRun(s, o)
  {
    RunOf(s, o) in s.runs.runs && IsTerminal(s.runs.runs[RunOf(s, o)].status)
  }

  /** The first step: build or continue the run, then mark the chat as running. */
  function Begin(s: State, o: nat, freshRunId: string): State
    requires o in s.objs
  {
    var r := s.objs[o];
    var (pid, uid, chat) := r.chat;
    if r.resumes.Some? then
      var k := (pid, r.resumes.value);
      if k !in s.runs.runs then s.(objs := s.objs[o := r.(phase := NeverRan)])
      else
        var d := if s.runs.runs[k].status == WaitingApproval then TryTransition(s.runs, k, Running, "") else s.runs;
        Opened(s.(runs := d), o, r.resumes.value)
    else
      Opened(s.(runs := BeginRun(s.runs, pid, freshRunId, uid, Chat, Some(chat), None, None)), o, freshRunId)
  }

  function Opened(s: State, o: nat, runId: string): State
    requires o in s.objs
  {
    var r := s.objs[o].(runId := Some(runId), phase := AwaitingChunk);
    var s1 := s.(objs := s.objs[o := r]);
    if r.chat in s.chats then WithChatStatus(s1, r.chat, InProgress) else Raised(s1, o, OtherError, Missing(r.chat))
  }

  /** One chunk of the engine stream. */
  function OnChunk(s: State, o: nat, conv: Option<string>, delta: bool, denied: Option<string>): State
    requires HasRun(s, o)
  {
    if s.objs[o].cancelRequested then MoveAndLeave(s, o, Cancelled, "")
    else if Waits(s, o) then Leave(s, o, AwaitingApproval)
    else
      var d := if conv.Some? then SetOhConversationId(s.runs, RunOf(s, o), conv.value) else s.runs;
      var r := s.objs[o];
      var r' := r.(conversation := if conv.Some? then conv else r.conversation,
                   produced := r.produced || delta,
                   denied := if denied.Some? && denied.value != "" then denied.value else r.denied);
      s.(runs := d, objs := s.objs[o := r'])
  }

  /** The end of the stream: the reply is stored, then the token usage is asked for. */
  function OnStreamEnd(s: State, o: nat): State
    requires HasRun(s, o)
  {
    var r := s.objs[o];
    if r.cancelRequested then MoveAndLeave(s, o, Cancelled, "")
    else if (r.produced || r.conversation.Some?) && r.chat !in s.chats then Raised(s, o, OtherError, Missing(r.chat))
    else if r.conversation.Some? then s.(objs := s.objs[o := r.(phase := AwaitingUsage)])
    else Finish(s, o)
  }

  /** The last stretch: the final status of the run. */
  function Finish(s: State, o: nat): State
    requires HasRun(s, o)
  {
    if Waits(s, o) then Leave(s, o, AwaitingApproval)
    else if IsOver(s, o) then Leave(s, o, Idle)
    else MoveAndLeave(s, o, Completed, s.objs[o].denied)
  }

  // ---- operators ----

  /** start; `conv` is the agent conversation that the chat continues, if any. */
  ghost function Start(s: State, c: ChatKey, o: nat, conv: Option<string>): State {
    if c in s.registry then s
    else if GetActiveRunForChat(s.runs, c.0, c.1, c.2).Some? then s
    else s.(objs := s.objs[o := ChatRun(c, None, None, false, Scheduled, false, conv, "")],
      registry := s.registry[c := o])
  }

  /** cancel_chat, up to its first await */
  function CancelChat(s: State, c: ChatKey): State {
    if c !in s.registry || s.registry[c] !in s.objs then s
    else
      var o := s.registry[c];
      var r := s.objs[o];
      var d := if r.runId.Some? then TryTransition(s.runs, (c.0, r.runId.value), Cancelled, "") else s.runs;
      s.(runs := d, objs := s.objs[o := r.(cancelRequested := true)])
  }

  /** Time read twice by a resolution and its grant. */
  function Ticks(d: Runs, n: nat): Runs { d.(clock := d.clock + n) }

  /** The guards shared by approving and rejecting. */
  ghost predicate AwaitsDecision(s: State, k: RunKey) {
    && k in s.runs.runs && s.runs.runs[k].status == WaitingApproval
    && GetPendingForRun(s.ledger, k.0, k.1).Some?
  }

  ghost function PendingOf(s: State, k: RunKey): ApprovalRequest
    requires AwaitsDecision(s, k)
  {
    GetPendingForRun(s.ledger, k.0, k.1).value
  }

  /** The approval itself: the request resolved and its grant issued. */
  ghost function Granted(s: State, k: RunKey, who: string, reason: Option<string>): State
    requires AwaitsDecision(s, k)
  {
    s.(ledger := Approve(s.ledger, PendingOf(s, k), who, reason, s.runs.clock), runs := Ticks(s.runs, 2))
  }

  ghost function Refused(s: State, k: RunKey, who: string, reason: Option<string>): State
    requires AwaitsDecision(s, k)
  {
    s.(ledger := Reject(s.ledger, PendingOf(s, k), who, reason, s.runs.clock), runs := Ticks(s.runs, 1))
  }

  function ChatOf(s: State, k: RunKey): Option<ChatKey>
    requires k in s.runs.runs
  {
    var r := s.runs.runs[k];
    if r.chatId.Some? then Some((k.0, r.uid, r.chatId.value)) else None
  }

  /** What a resume that takes over an entry will wait for: its task, if it has been created. */
  function TaskOf(s: State, o: nat): Option<nat>
    requires o in s.objs
  {
    if s.objs[o].phase.Unscheduled? then None else Some(o)
  }

  /** resume_after_approval(approved=True), up to its first await. */
  ghost function ApproveChat(s: State, k: RunKey, o: nat, reason: Option<string>, conv: Option<string>): State {
    if !AwaitsDecision(s, k) || ChatOf(s, k).None? then s
    else
      Resumed(Granted(s, k, s.runs.runs[k].uid, reason), k, ChatOf(s, k).value, o, conv)
  }

  /** What follows the grant: a deleted chat or a task of another run is an error. */
  function Resumed(s: State, k: RunKey, c: ChatKey, o: nat, conv: Option<string>): State {
    if c !in s.chats then s
    else if c in s.registry && s.registry[c] in s.objs then
      var prev := s.registry[c];
      if s.objs[prev].runId != Some(k.1) then s
      else Registered(s.(objs := s.objs[prev := s.objs[prev].(cancelRequested := true)]), c, o, k.1,
        Unscheduled(TaskOf(s, prev)), conv)
    else Registered(s, c, o, k.1, Scheduled, conv)
  }

  function Registered(s: State, c: ChatKey, o: nat, runId: string, phase: Phase, conv: Option<string>): State {
    s.(objs := s.objs[o := ChatRun(c, Some(runId), Some(runId), false, phase, false, conv, "")],
       registry := s.registry[c := o])
  }

  /** resume_after_approval(approved=False) */
  ghost function RejectChat(s: State, k: RunKey, reason: string): State {
    if !AwaitsDecision(s, k) || ChatOf(s, k).None? then s
    else
      var s1 := Refused(s, k, s.runs.runs[k].uid, if reason == "" then None else Some(reason));
      WithChatStatus(s1.(runs := TryTransition(s1.runs, k, Blocked, RejectionText(reason))), ChatOf(s, k).value, Idle)
  }

  /** approve_run and reject_run for a run without a chat. */
  ghost function ApprovePlain(s: State, k: RunKey, who: string, reason: Option<string>): State {
    if !AwaitsDecision(s, k) || ChatOf(s, k).Some? then s
    else var s1 := Granted(s, k, who, reason); s1.(runs := TryTransition(s1.runs, k, Running, ""))
  }

  ghost function RejectPlain(s: State, k: RunKey, who: string, reason: string): State {
    if !AwaitsDecision(s, k) || ChatOf(s, k).Some? then s
    else
      var s1 := Refused(s, k, who, if reason == "" then None else Some(reason));
      s1.(runs := TryTransition(s1.runs, k, Blocked, RejectionText(reason)))
  }

  const REJECTED := "审批已拒绝"

  function RejectionText(reason: string): string { if reason != "" then reason else REJECTED }

  // ---- steps ----

  datatype Outcome =
    | Chunk(conv: Option<string>, delta: bool, denied: Option<string>)
    | StreamEnd
    | UsageRecorded
    | Raise(failure: Failure, message: string)

  datatype Step =
    | CreateChat(chat: ChatKey)
    | DeleteChat(chat: ChatKey)
    | StartTask(chat: ChatKey, obj: nat, conv: Option<string>)
    | FirstStep(obj: nat, freshRunId: string)
    | CancelledBeforeFirstStep(obj: nat)
    | TaskStep(obj: nat, outcome: Outcome)
    | CancelTask(chat: ChatKey)
    | ApproveInChat(run: RunKey, obj: nat, why: Option<string>, conv: Option<string>)
    | ResumeTail(obj: nat)
    | RejectInChat(run: RunKey, text: string)
    | ApproveDirect(run: RunKey, who: string, why: Option<string>)
    | RejectDirect(run: RunKey, who: string, text: string)
    | CancelDirect(run: RunKey)
    | ToolCallHook(ctx: ToolContext, ids: Fresh)
    | AgentEvent(run: RunKey, event: EventBody)
    | TicketBegin(run: RunKey, uid: string, source: RunSource, job: Option<string>, ticket: Option<string>)
    | TicketEnd(run: RunKey, to: RunStatus, error: string)
    | Restart(keys: seq<RunKey>, text: string)

  predicate FreshRun(s: State, k: RunKey) { k !in s.runs.runs && LogOf(s.runs, k) == [] }

  /** What the surroundings guarantee of a step: new identifiers are new, a task continues from
      where it is suspended, and a chat is used by the user it belongs to. */
  predicate Enabled(s: State, step: Step) {
    match step
    case CreateChat(c) => (c.0, c.2) !in s.owners
    case DeleteChat(c) => true
    case StartTask(c, o, conv) => o !in s.objs && c in s.chats
    case FirstStep(o, id) =>
      o in s.objs && s.objs[o].phase.Scheduled? && (s.objs[o].resumes.None? ==> FreshRun(s, (s.objs[o].chat.0, id)))
    case CancelledBeforeFirstStep(o) => o in s.objs && s.objs[o].phase.Scheduled? && s.objs[o].cancelRequested
    case TaskStep(o, out) =>
      && HasRun(s, o)
      && (match out
          case Chunk(_, _, _) => s.objs[o].phase.AwaitingChunk?
          case StreamEnd => s.objs[o].phase.AwaitingChunk?
          case UsageRecorded => s.objs[o].phase.AwaitingUsage?
          case Raise(_, _) => Suspended(s.objs[o]))
    case CancelTask(c) => true
    case ApproveInChat(k, o, why, conv) => o !in s.objs
    case ResumeTail(o) =>
      && o in s.objs && s.objs[o].phase.Unscheduled?
      && var stale := s.objs[o].phase.stale;
      && (stale.Some? && stale.value in s.objs ==> !Live(s.objs[stale.value]))
    case RejectInChat(k, text) => true
    case ApproveDirect(k, who, why) => true
    case RejectDirect(k, who, text) => true
    case CancelDirect(k) => k in s.runs.runs && s.runs.runs[k].chatId.None?
    case ToolCallHook(ctx, f) => (ctx.projectId, f.approvalId) !in s.ledger.requests
    case AgentEvent(k, e) => IsAgentEvent(e)
    case TicketBegin(k, uid, src, job, ticket) => FreshRun(s, k)
    case TicketEnd(k, st, err) =>
      k in s.runs.runs && s.runs.runs[k].chatId.None? && (st == Completed || st == WaitingApproval || st == Failed)
    case Restart(ks, text) => forall k :: k in s.runs.runs ==> k in ks
  }

  ghost function TaskOutcome(s: State, o: nat, out: Outcome): State
    requires HasRun(s, o)
  {
    match out
    case Chunk(conv, delta, denied) => OnChunk(s, o, conv, delta, denied)
    case StreamEnd => OnStreamEnd(s, o)
    case UsageRecorded => Finish(s, o)
    case Raise(f, m) => Raised(s, o, f, m)
  }

  ghost function Effect(gov: Governance, s: State, step: Step): State
    requires Enabled(s, step)
  {
    match step
    case CreateChat(c) => s.(chats := s.chats[c := Idle], owners := s.owners[(c.0, c.2) := c.1])
    case DeleteChat(c) => s.(chats := s.chats - {c})
    case StartTask(c, o, conv) => Start(s, c, o, conv)
    case FirstStep(o, id) => Begin(s, o, id)
    case CancelledBeforeFirstStep(o) => s.(objs := s.objs[o := s.objs[o].(phase := NeverRan)])
    case TaskStep(o, out) => TaskOutcome(s, o, out)
    case CancelTask(c) => CancelChat(s, c)
    case ApproveInChat(k, o, why, conv) => ApproveChat(s, k, o, why, conv)
    case ResumeTail(o) => s.(objs := s.objs[o := s.objs[o].(phase := Scheduled)])
    case RejectInChat(k, text) => RejectChat(s, k, text)
    case ApproveDirect(k, who, why) => ApprovePlain(s, k, who, why)
    case RejectDirect(k, who, text) => RejectPlain(s, k, who, text)
    case CancelDirect(k) => s.(runs := TryTransition(s.runs, k, Cancelled, ""))
    case ToolCallHook(ctx, f) => Hook(gov, s, ctx, f)
    case AgentEvent(k, e) => s.(runs := AppendEvent(s.runs, k, e))
    case TicketBegin(k, uid, src, job, ticket) => s.(runs := BeginRun(s.runs, k.0, k.1, uid, src, None, job, ticket))
    case TicketEnd(k, st, err) => s.(runs := TryTransition(s.runs, k, st, err))
    case Restart(ks, text) => s.(runs := FailOrphans(s.runs, ks, text), objs := map[], registry := map[])
  }

  /** A step that is not enabled does not happen. */
  ghost function Next(gov: Governance, s: State, step: Step): State {
    if Enabled(s, step) then Effect(gov, s, step) else s
  }

  /** The state after a run of the system; every list of steps is a run. */
  ghost function Exec(gov: Governance, steps: seq<Step>): State {
    if steps == [] then INIT else Next(gov, Exec(gov, steps[..|steps| - 1]), steps[|steps| - 1])
  }
}
