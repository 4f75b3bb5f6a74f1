/** The investigation run as an entity, its status graph and its audit events. */
module RunModel {
  import opened Wrappers

  datatype RunStatus =
    | Created | Queued | Running | WaitingApproval
    | Completed | Failed | Blocked | Cancelled

  predicate IsTerminal(s: RunStatus) {
    s.Completed? || s.Failed? || s.Blocked? || s.Cancelled?
  }

  /** The table of allowed transitions. */
  predicate Allowed(from: RunStatus, to: RunStatus) {
    match from
    case Created => to.Queued? || to.Running? || to.Cancelled?
    case Queued => to.Running? || to.Cancelled?
    case Running => to.WaitingApproval? || IsTerminal(to)
    case WaitingApproval => to.Running? || to.Failed? || to.Blocked? || to.Cancelled?
    case _ => false
  }

  lemma TableFacts(from: RunStatus, to: RunStatus)
    requires Allowed(from, to)
    ensures !IsTerminal(from) && to != Created && from != to
    ensures to == WaitingApproval ==> from == Running
    ensures from == WaitingApproval ==> to == Running || IsTerminal(to)
  {
  }

  datatype TransitionError = RunNotFound | AlreadyTerminal(at: RunStatus) | NotAllowed(from: RunStatus, to: RunStatus)
  datatype Result<+T> = Ok(value: T) | Err(error: TransitionError)

  function ValidateTransition(from: RunStatus, to: RunStatus): Result<RunStatus> {
    if IsTerminal(from) then Err(AlreadyTerminal(from))
    else if !Allowed(from, to) then Err(NotAllowed(from, to))
    else Ok(to)
  }

  datatype RunSource = Chat | Ingress | Ticket

  /** Time is a strictly increasing counter; every reading of the clock advances it. */
  type Time = nat

  datatype Run = Run(
    runId: string, projectId: string, uid: string, source: RunSource, status: RunStatus,
    createdAt: Time, updatedAt: Time,
    chatId: Option<string>, ingressJobId: Option<string>, ticketId: Option<string>,
    ohConversationId: Option<string>,
    startedAt: Option<Time>, finishedAt: Option<Time>, errorMessage: Option<string>,
    toolCallCount: nat, eventCount: nat)

  /** One audit event: its type with the payload the code writes for that type. */
  datatype EventBody =
    | RunCreated(source: RunSource, chatId: Option<string>, ingressJobId: Option<string>)
    | RunStatusChanged(from: RunStatus, to: RunStatus)
    | AgentMessage(text: string)
    | ToolCall(tool: string, arguments: string)
    | ToolResult(tool: string, summary: string)
    | PolicyDecision(tool: string, server: string, decision: string, rule: string)
    | ErrorEvent(code: string, message: string)
    | RunCompleted(status: RunStatus)

  /** The kinds that agent activity is mapped to; the other kinds are written by the stores and the gate. */
  predicate IsAgentEvent(e: EventBody) {
    e.AgentMessage? || e.ToolCall? || e.ToolResult? || e.ErrorEvent?
  }

  // ---- reading an event log ----

  datatype Change = Change(from: RunStatus, to: RunStatus)

  /** The status changes of a log, in order. */
  function Changes(log: seq<EventBody>): (cs: seq<Change>) {
    if log == [] then []
    else
      var e := log[|log| - 1];
      Changes(log[..|log| - 1]) + (if e.RunStatusChanged? then [Change(e.from, e.to)] else [])
  }

  function CompletedEvents(log: seq<EventBody>): nat {
    if log == [] then 0
    else CompletedEvents(log[..|log| - 1]) + (if log[|log| - 1].RunCompleted? then 1 else 0)
  }

  function ToolCalls(log: seq<EventBody>): nat {
    if log == [] then 0
    else ToolCalls(log[..|log| - 1]) + (if log[|log| - 1].ToolCall? then 1 else 0)
  }

  lemma LogSnoc(log: seq<EventBody>, e: EventBody)
    ensures Changes(log + [e]) == Changes(log) + (if e.RunStatusChanged? then [Change(e.from, e.to)] else [])
    ensures CompletedEvents(log + [e]) == CompletedEvents(log) + (if e.RunCompleted? then 1 else 0)
    ensures ToolCalls(log + [e]) == ToolCalls(log) + (if e.ToolCall? then 1 else 0)
  {
    assert (log + [e])[..|log|] == log;
  }

  /** Where a run that starts CREATED is after the changes. */
  function PathEnd(cs: seq<Change>): RunStatus { if cs == [] then Created else cs[|cs| - 1].to }

  /** The changes form a walk in the transition table that starts at CREATED. */
  predicate IsPath(cs: seq<Change>) {
    cs == [] ||
    var rest, c := cs[..|cs| - 1], cs[|cs| - 1];
    IsPath(rest) && c.from == PathEnd(rest) && Allowed(c.from, c.to)
  }

  lemma PathSnoc(cs: seq<Change>, c: Change)
    ensures IsPath(cs + [c]) <==> IsPath(cs) && c.from == PathEnd(cs) && Allowed(c.from, c.to)
    ensures PathEnd(cs + [c]) == c.to
  {
    assert (cs + [c])[..|cs|] == cs;
  }

  /** Change by change: each is allowed and starts where the one before it ended, and only the
      last can reach a terminal status. */
  lemma {:induction false} PathPointwise(cs: seq<Change>, i: nat)
    requires IsPath(cs) && i < |cs|
    ensures Allowed(cs[i].from, cs[i].to)
    ensures cs[i].from == if i == 0 then Created else cs[i - 1].to
    ensures IsTerminal(cs[i].to) ==> i == |cs| - 1
  {
    var rest := cs[..|cs| - 1];
    if i < |rest| {
      PathPointwise(rest, i);
      assert rest[i] == cs[i];
    }
  }

  /** How many of the changes go from one status to another; None stands for any status. */
  function CountChanges(cs: seq<Change>, from: Option<RunStatus>, to: RunStatus): nat {
    if cs == [] then 0
    else
      var c := cs[|cs| - 1];
      CountChanges(cs[..|cs| - 1], from, to) +
      (if c.to == to && (from == None || from == Some(c.from)) then 1 else 0)
  }

  lemma CountSnoc(cs: seq<Change>, c: Change, from: Option<RunStatus>, to: RunStatus)
    ensures CountChanges(cs + [c], from, to) ==
            CountChanges(cs, from, to) + (if c.to == to && (from == None || from == Some(c.from)) then 1 else 0)
  {
    assert (cs + [c])[..|cs|] == cs;
  }

  function Pauses(cs: seq<Change>): nat { CountChanges(cs, None, WaitingApproval) }
  function Resumptions(cs: seq<Change>): nat { CountChanges(cs, Some(WaitingApproval), Running) }

  /** The run ended while it waited for an approval. */
  predicate EndedWaiting(cs: seq<Change>) {
    cs != [] && cs[|cs| - 1].from == WaitingApproval && IsTerminal(cs[|cs| - 1].to)
  }

  /** On every walk, pauses and resumptions alternate: a run pauses once more than it resumes
      exactly when it waits now or ended while it waited. */
  lemma {:induction false} PausesAlternate(cs: seq<Change>)
    requires IsPath(cs)
    ensures Pauses(cs) - Resumptions(cs) ==
            if PathEnd(cs) == WaitingApproval || EndedWaiting(cs) then 1 else 0
  {
    if cs != [] {
      var rest, c := cs[..|cs| - 1], cs[|cs| - 1];
      assert cs == rest + [c];
      PathSnoc(rest, c);
      PausesAlternate(rest);
      PausesStep(rest, c);
    }
  }

  lemma PausesStep(rest: seq<Change>, c: Change)
    requires c.from == PathEnd(rest) && Allowed(c.from, c.to)
    requires Pauses(rest) - Resumptions(rest) == if PathEnd(rest) == WaitingApproval || EndedWaiting(rest) then 1 else 0
    ensures var cs := rest + [c];
            Pauses(cs) - Resumptions(cs) == if PathEnd(cs) == WaitingApproval || EndedWaiting(cs) then 1 else 0
  {
    TableFacts(c.from, c.to);
    assert !EndedWaiting(rest);
    CountSnoc(rest, c, None, WaitingApproval);
    CountSnoc(rest, c, Some(WaitingApproval), Running);
  }
}
