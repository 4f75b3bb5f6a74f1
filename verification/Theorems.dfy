/** What holds in every run of the protocol. */
module Theorems {
  import opened Wrappers
  import opened RunModel
  import opened ZSets
  import opened RunDb
  import opened Approvals
  import opened Policy
  import opened World
  import opened Settling
  import opened Safety
  import SF = SingleFlight

  // ---- what no step ever takes back ----

  /** Runs are never lost, what is stamped on them stays, and logs are only added to. */
  ghost predicate RunsGrew(d: Runs, d': Runs) {
    && (forall k :: k in d.runs ==> k in d'.runs && Stamped(d.runs[k], d'.runs[k]))
    && (forall k {:trigger LogOf(d', k)} :: Extends(LogOf(d, k), LogOf(d', k)))
  }

  predicate HistoryGrew(a: Ledger, a': Ledger) {
    |a.history| <= |a'.history| && a'.history[..|a.history|] == a.history
  }

  ghost predicate Grew(s: State, s': State) { RunsGrew(s.runs, s'.runs) && HistoryGrew(s.ledger, s'.ledger) }

  lemma WorkedGrew(d: Runs, d': Runs, k: RunKey, resumed: nat)
    requires Worked(d, d', k, resumed)
    ensures RunsGrew(d, d')
  {
    forall j ensures Extends(LogOf(d, j), LogOf(d', j)) {
      if j != k { assert LogOf(d', j) == LogOf(d, j); }
    }
  }

  lemma RunsGrewTwice(d: Runs, d1: Runs, d2: Runs)
    requires RunsGrew(d, d1) && RunsGrew(d1, d2)
    ensures RunsGrew(d, d2)
  {
    forall k ensures Extends(LogOf(d, k), LogOf(d2, k)) {
      ExtendsTwice(LogOf(d, k), LogOf(d1, k), LogOf(d2, k));
    }
  }

  lemma GrewTwice(s: State, s1: State, s2: State)
    requires Grew(s, s1) && Grew(s1, s2)
    ensures Grew(s, s2)
  {
    RunsGrewTwice(s.runs, s1.runs, s2.runs);
    var a, b, c := s.ledger.history, s1.ledger.history, s2.ledger.history;
    assert c[..|a|] == c[..|b|][..|a|];
  }

  lemma SameGrew(s: State)
    ensures Grew(s, s)
  {
    forall k ensures Extends(LogOf(s.runs, k), LogOf(s.runs, k)) { ExtendsAdded(LogOf(s.runs, k), []); }
  }

  lemma ChatStatusGrew(s: State, s1: State, c: ChatKey, st: AgentRunStatus)
    requires Grew(s, s1)
    ensures Grew(s, WithChatStatus(s1, c, st))
  {
  }

  lemma FirstStepGrew(s: State, o: nat, id: string)
    requires SafeInv(s) && Enabled(s, FirstStep(o, id))
    ensures var s' := Begin(s, o, id);
            && Grew(s, s') && o in s'.objs && !s'.objs[o].phase.NeverRan?
            && (s'.objs[o].phase.Ended? <==> s.objs[o].chat !in s.chats)
            && (s'.objs[o].phase.Ended? ==> s'.objs[o].runId.Some? && Settled(s', RunOf(s', o)))
  {
    var r := s.objs[o];
    var (pid, uid, chat) := r.chat;
    assert ObjFine(s, o);
    if r.resumes.Some? {
      var k := (pid, r.resumes.value);
      assert RunOfChat(s, k, r.chat) && RunFine(s, k);
      if s.runs.runs[k].status == WaitingApproval {
        TransitionRuns(s.runs, k, Running, "");
        TransitionWorks(s.runs, k, Running, "");
        OpenedGrew(s, o, TryTransition(s.runs, k, Running, ""), r.resumes.value, 1);
        OpenedSettles(s, o, TryTransition(s.runs, k, Running, ""), r.resumes.value);
      } else {
        NothingWorked(s.runs, k);
        OpenedGrew(s, o, s.runs, r.resumes.value, 0);
        OpenedSettles(s, o, s.runs, r.resumes.value);
      }
    } else {
      BeginWorks(s.runs, pid, id, uid, Chat, Some(chat), None, None);
      OpenedGrew(s, o, BeginRun(s.runs, pid, id, uid, Chat, Some(chat), None, None), id, 0);
      OpenedSettles(s, o, BeginRun(s.runs, pid, id, uid, Chat, Some(chat), None, None), id);
    }
  }

  lemma OpenedGrew(s: State, o: nat, d: Runs, runId: string, resumed: nat)
    requires o in s.objs && Worked(s.runs, d, (s.objs[o].chat.0, runId), resumed)
    requires Begun(s.(runs := d), (s.objs[o].chat.0, runId))
    ensures Grew(s, Opened(s.(runs := d), o, runId))
  {
    var s1, c := TakenOver(s, o, d, runId), s.objs[o].chat;
    WorkedGrew(s.runs, d, (c.0, runId), resumed);
    if c in s.chats {
      ChatStatusGrew(s, s1, c, InProgress);
    } else {
      var s2 := Raised(s1, o, OtherError, Missing(c));
      RaisedMoves(s1, o, OtherError, Missing(c));
      WorkedGrew(d, s2.runs, (c.0, runId), 0);
      RunsGrewTwice(s.runs, d, s2.runs);
    }
  }

  /** A task ends in its first step exactly when its chat was deleted; its run is then settled. */
  lemma OpenedSettles(s: State, o: nat, d: Runs, runId: string)
    requires o in s.objs && RunsInv(d) && Begun(s.(runs := d), (s.objs[o].chat.0, runId))
    ensures var s' := Opened(s.(runs := d), o, runId);
            && o in s'.objs && s'.objs[o].runId == Some(runId) && s'.objs[o].chat == s.objs[o].chat
            && !s'.objs[o].phase.NeverRan? && (s'.objs[o].phase.Ended? <==> s.objs[o].chat !in s.chats)
            && (s'.objs[o].phase.Ended? ==> Settled(s', (s.objs[o].chat.0, runId)))
  {
    if s.objs[o].chat !in s.chats {
      RaisedMoves(TakenOver(s, o, d, runId), o, OtherError, Missing(s.objs[o].chat));
    }
  }

  lemma TryGrew(s: State, k: RunKey, to: RunStatus, text: string)
    requires RunsInv(s.runs)
    ensures RunsGrew(s.runs, TryTransition(s.runs, k, to, text))
  {
    SameGrew(s);
    if Transition(s.runs, k, to, text, true).Ok? {
      TransitionWorks(s.runs, k, to, text);
      WorkedGrew(s.runs, TryTransition(s.runs, k, to, text), k,
                 if s.runs.runs[k].status == WaitingApproval && to == Running then 1 else 0);
    }
  }

  lemma TicksGrew(s: State, n: nat)
    requires RunsInv(s.runs)
    ensures RunsGrew(s.runs, Ticks(s.runs, n))
  {
    TicksWork(s.runs, n, ("", ""));
    WorkedGrew(s.runs, Ticks(s.runs, n), ("", ""), 0);
  }

  /** A decision, then a transition of its run. */
  lemma DecidedGrew(s: State, a: Ledger, n: nat, k: RunKey, to: RunStatus, text: string)
    requires RunsInv(s.runs) && HistoryGrew(s.ledger, a)
    ensures var s1 := s.(ledger := a, runs := Ticks(s.runs, n));
            Grew(s, s1) && Grew(s, s1.(runs := TryTransition(s1.runs, k, to, text)))
  {
    var s1 := s.(ledger := a, runs := Ticks(s.runs, n));
    TicksGrew(s, n);
    TicksWork(s.runs, n, k);
    TryGrew(s1, k, to, text);
    RunsGrewTwice(s.runs, s1.runs, TryTransition(s1.runs, k, to, text));
  }

  lemma DecisionHistory(s: State, k: RunKey, who: string, why: Option<string>)
    requires LedgerInv(s.ledger) && AwaitsDecision(s, k)
    ensures HistoryGrew(s.ledger, Granted(s, k, who, why).ledger)
              && HistoryGrew(s.ledger, Refused(s, k, who, why).ledger)
  {
    PendingSound(s.ledger, k.0, k.1);
  }

  lemma GateHistory(gov: Governance, d: Runs, a: Ledger, ctx: ToolContext, f: Fresh)
    ensures HistoryGrew(a, Gate(gov, d, a, ctx, f).1)
  {
  }

  lemma HookGrew(gov: Governance, s: State, ctx: ToolContext, f: Fresh)
    requires RunsInv(s.runs)
    ensures Grew(s, Hook(gov, s, ctx, f))
  {
    SameGrew(s);
    if ctx.toolName != "" && ctx.runId != "" {
      SF.HookWorks(gov, s, ctx, f);
      WorkedGrew(s.runs, Hook(gov, s, ctx, f).runs, KeyOf(ctx), 0);
      GateHistory(gov, s.runs, s.ledger, ctx, f);
    }
  }

  lemma RestartGrew(s: State, ks: seq<RunKey>, text: string)
    requires RunsInv(s.runs)
    ensures RunsGrew(s.runs, FailOrphans(s.runs, ks, text))
  {
    RecoveryExact(s.runs, ks, text);
    var d' := FailOrphans(s.runs, ks, text);
    forall k | k in s.runs.runs ensures Stamped(s.runs.runs[k], d'.runs[k]) {
      assert Recovery(s.runs.runs[k], d'.runs[k], k in ks);
    }
    forall k ensures Extends(LogOf(s.runs, k), LogOf(d', k)) { ExtendsAdded(LogOf(s.runs, k), []); }
  }

  lemma CancelGrew(s: State, c: ChatKey)
    requires RunsInv(s.runs)
    ensures Grew(s, CancelChat(s, c))
  {
    SameGrew(s);
    if c in s.registry && s.registry[c] in s.objs && s.objs[s.registry[c]].runId.Some? {
      TryGrew(s, (c.0, s.objs[s.registry[c]].runId.value), Cancelled, "");
    }
  }

  lemma RejectInChatGrew(s: State, k: RunKey, text: string)
    requires SafeInv(s)
    ensures Grew(s, RejectChat(s, k, text))
  {
    SameGrew(s);
    if AwaitsDecision(s, k) && ChatOf(s, k).Some? {
      var why := if text == "" then None else Some(text);
      var s1 := Refused(s, k, s.runs.runs[k].uid, why);
      DecisionHistory(s, k, s.runs.runs[k].uid, why);
      DecidedGrew(s, s1.ledger, 1, k, Blocked, RejectionText(text));
      ChatStatusGrew(s, s1.(runs := TryTransition(s1.runs, k, Blocked, RejectionText(text))), ChatOf(s, k).value, Idle);
    }
  }

  lemma ApproveDirectGrew(s: State, k: RunKey, who: string, why: Option<string>)
    requires SafeInv(s)
    ensures Grew(s, ApprovePlain(s, k, who, why))
  {
    SameGrew(s);
    if AwaitsDecision(s, k) {
      DecisionHistory(s, k, who, why);
      DecidedGrew(s, Granted(s, k, who, why).ledger, 2, k, Running, "");
    }
  }

  lemma RejectDirectGrew(s: State, k: RunKey, who: string, text: string)
    requires SafeInv(s)
    ensures Grew(s, RejectPlain(s, k, who, text))
  {
    SameGrew(s);
    if AwaitsDecision(s, k) {
      var why := if text == "" then None else Some(text);
      DecisionHistory(s, k, who, why);
      DecidedGrew(s, Refused(s, k, who, why).ledger, 1, k, Blocked, RejectionText(text));
    }
  }

  lemma ApproveInChatGrew(s: State, k: RunKey, o: nat, why: Option<string>, conv: Option<string>)
    requires SafeInv(s) && o !in s.objs
    ensures Grew(s, ApproveChat(s, k, o, why, conv))
  {
    SameGrew(s);
    if AwaitsDecision(s, k) && ChatOf(s, k).Some? {
      var s1 := Granted(s, k, s.runs.runs[k].uid, why);
      DecisionHistory(s, k, s.runs.runs[k].uid, why);
      hide SafeInv, Approve, RunsGrew, HistoryGrew, Resumed;
      TicksGrew(s, 2);
      ResumedStores(s1, k, ChatOf(s, k).value, o, conv);
    }
  }

  lemma ResumedStores(s: State, k: RunKey, c: ChatKey, o: nat, conv: Option<string>)
    ensures Resumed(s, k, c, o, conv).runs == s.runs && Resumed(s, k, c, o, conv).ledger == s.ledger
  {
  }

  lemma TaskSideGrew(gov: Governance, s: State, step: Step)
    requires SafeInv(s) && Enabled(s, step) && IsTaskStep(step)
    ensures Grew(s, Effect(gov, s, step))
  {
    SafeStores(s);
    hide SafeInv, Grew, Begin, TaskOutcome, CancelChat, ApproveChat, GetActiveRunForChat, FreshRun;
    match step {
      case StartTask(c, o, conv) => SameRunsGrew(s, Effect(gov, s, step));
      case CancelledBeforeFirstStep(o) => SameRunsGrew(s, Effect(gov, s, step));
      case ResumeTail(o) => SameRunsGrew(s, Effect(gov, s, step));
      case FirstStep(o, id) => FirstStepGrew(s, o, id);
      case TaskStep(o, out) => OutcomeGrew(s, o, out);
      case CancelTask(c) => CancelGrew(s, c);
      case ApproveInChat(k, o, why, conv) => ApproveInChatGrew(s, k, o, why, conv);
    }
  }

  lemma OutcomeGrew(s: State, o: nat, out: Outcome)
    requires SafeInv(s) && HasRun(s, o) && Suspended(s.objs[o])
    ensures Grew(s, TaskOutcome(s, o, out))
  {
    TaskStepSafe(s, o, out);
    hide TaskOutcome, SafeInv;
    WorkedGrew(s.runs, TaskOutcome(s, o, out).runs, RunOf(s, o), 0);
  }

  lemma SameRunsGrew(s: State, s': State)
    requires s'.runs == s.runs && s'.ledger == s.ledger
    ensures Grew(s, s')
  {
    SameGrew(s);
  }

  lemma EventGrew(s: State, k: RunKey, e: EventBody)
    requires RunsInv(s.runs) && IsAgentEvent(e)
    ensures RunsGrew(s.runs, AppendEvent(s.runs, k, e))
  {
    AppendWorks(s.runs, k, e);
    hide AppendEvent, Worked;
    WorkedGrew(s.runs, AppendEvent(s.runs, k, e), k, 0);
  }

  lemma TicketGrew(s: State, k: RunKey, uid: string, src: RunSource, job: Option<string>, ticket: Option<string>)
    requires RunsInv(s.runs) && FreshRun(s, k)
    ensures RunsGrew(s.runs, BeginRun(s.runs, k.0, k.1, uid, src, None, job, ticket))
  {
    BeginWorks(s.runs, k.0, k.1, uid, src, None, job, ticket);
    hide BeginRun, Worked;
    WorkedGrew(s.runs, BeginRun(s.runs, k.0, k.1, uid, src, None, job, ticket), k, 0);
  }

  lemma StoresGrew(gov: Governance, s: State, step: Step)
    requires SafeInv(s) && Enabled(s, step)
    requires step.AgentEvent? || step.TicketBegin? || step.TicketEnd? || step.CancelDirect? || step.Restart?
    ensures Grew(s, Effect(gov, s, step))
  {
    SafeStores(s);
    hide SafeInv, RunsInv, LedgerInv, BeginRun, AppendEvent, TryTransition, FailOrphans, RunsGrew;
    match step {
      case AgentEvent(k, e) => EventGrew(s, k, e);
      case TicketBegin(k, uid, src, job, ticket) => TicketGrew(s, k, uid, src, job, ticket);
      case TicketEnd(k, st, err) => TryGrew(s, k, st, err);
      case CancelDirect(k) => TryGrew(s, k, Cancelled, "");
      case Restart(ks, text) => RestartGrew(s, ks, text);
      case _ => assert false;
    }
  }

  lemma StepGrew(gov: Governance, s: State, step: Step)
    requires SafeInv(s)
    ensures Grew(s, Next(gov, s, step))
  {
    if !Enabled(s, step) {
      SameGrew(s);
    } else if IsTaskStep(step) {
      TaskSideGrew(gov, s, step);
    } else {
      match step {
        case RejectInChat(k, text) => RejectInChatGrew(s, k, text);
        case ApproveDirect(k, who, why) => ApproveDirectGrew(s, k, who, why);
        case RejectDirect(k, who, text) => RejectDirectGrew(s, k, who, text);
        case ToolCallHook(ctx, f) => HookGrew(gov, s, ctx, f);
        case CreateChat(c) => SameGrew(s);
        case DeleteChat(c) => SameGrew(s);
        case _ => StoresGrew(gov, s, step);
      }
    }
  }

  /** Whatever happens later: no run disappears or changes its owner or chat, a start or finish
      time once set is never written again, a terminal status is final, and neither an audit log
      nor the record of approvals and calls loses or changes an entry. */
  lemma {:induction false} NothingTakenBack(gov: Governance, steps: seq<Step>, more: seq<Step>)
    ensures Grew(Exec(gov, steps), Exec(gov, steps + more))
  {
    if more == [] {
      assert steps + more == steps;
      SameGrew(Exec(gov, steps));
    } else {
      var n := |more| - 1;
      var now := steps + more[..n];
      NothingTakenBack(gov, steps, more[..n]);
      AlwaysSafe(gov, now);
      StepGrew(gov, Exec(gov, now), more[n]);
      ExecSnoc(gov, now, more[n]);
      assert steps + more == now + [more[n]];
      GrewTwice(Exec(gov, steps), Exec(gov, now), Exec(gov, now + [more[n]]));
    }
  }

  lemma ExecSnoc(gov: Governance, steps: seq<Step>, step: Step)
    ensures Exec(gov, steps + [step]) == Next(gov, Exec(gov, steps), step)
  {
    assert (steps + [step])[..|steps|] == steps;
  }

  // ---- approvals ----

  /** In every run of the system: each call that the policy would only let through with an
      approval was matched with an earlier request of its project, run and tool that was resolved
      APPROVED, no two calls with the same one; so uses never exceed approvals.  No request is
      resolved twice, and stored requests say what their resolution said. */
  lemma GrantsMatched(gov: Governance, steps: seq<Step>)
    ensures var h := Exec(gov, steps).ledger.history;
      && (forall i: nat :: i < |h| && h[i].Passed? && h[i].verdict == RequireApproval ==>
            && HistoryOk(h) && var j := ApprovalUsed(h, i);
               && j < i && h[i].via.Some?
               && h[j] == Resolved(h[i].projectId, h[i].via.value, h[i].runId, h[i].toolName, true))
      && (forall i: nat, k: nat :: (i < k < |h| && h[i].Passed? && h[i].verdict == RequireApproval
            && h[k].Passed? && h[k].verdict == RequireApproval) ==> ApprovalUsed(h, i) != ApprovalUsed(h, k))
      && (forall g: GrantKey :: |GatedPasses(h, g)| <= |ApprovalsFor(h, g)|)
      && ResolvedOnce(h)
  {
    AlwaysSafe(gov, steps);
    var h := Exec(gov, steps).ledger.history;
    forall i: nat, k: nat | i < k < |h| && h[i].Passed? && h[i].verdict == RequireApproval
                            && h[k].Passed? && h[k].verdict == RequireApproval
      ensures ApprovalUsed(h, i) != ApprovalUsed(h, k)
    {
      ApprovalUsedInjective(h, i, k);
    }
    forall g: GrantKey ensures |GatedPasses(h, g)| <= |ApprovalsFor(h, g)| { UsesBounded(h, g); }
  }

  predicate PendingFor(a: Ledger, id: ApprovalKey, ctx: ToolContext) {
    id in a.requests && a.requests[id].status == Pending && id.0 == ctx.projectId
    && a.requests[id].runId == ctx.runId && a.requests[id].toolName == ctx.toolName
  }

  /** One call of the gate: it lets the tool through exactly when a grant is outstanding or the
      policy allows it, and exactly then the call is recorded, with the policy's verdict and the
      grant it used up.  A call held back for approval leaves a pending request for its tool. */
  lemma GateDecides(gov: Governance, d: Runs, a: Ledger, ctx: ToolContext, f: Fresh)
    requires LedgerInv(a) && ctx.runId != "" && (ctx.projectId, f.approvalId) !in a.requests
    ensures var (d', a', r) := Gate(gov, d, a, ctx, f);
      var v := Verdict(gov, WithRegistry(gov, ctx)).decision;
      var g := GrantKeyOf(ctx);
      && (!r.blocked <==> g in a.grants || v == Allow)
      && (r.waitingApproval <==> r.blocked && v == RequireApproval)
      && (r.blocked ==> a'.history == a.history && a'.grants == a.grants)
      && (!r.blocked ==>
            && a'.history == a.history + [Passed(ctx.projectId, ctx.runId, ctx.toolName, v,
                                                 if g in a.grants then Some(a.grants[g].approvalId) else None)]
            && a'.grants == a.grants - {g} && a'.requests == a.requests)
      && (r.waitingApproval ==> exists id :: PendingFor(a', id, ctx))
  {
    var (d', a', r) := Gate(gov, d, a, ctx, f);
    var v := Verdict(gov, WithRegistry(gov, ctx)).decision;
    if GrantKeyOf(ctx) !in a.grants && v == RequireApproval {
      PendingSound(a, ctx.projectId, ctx.runId);
      var p := GetPendingForRun(a, ctx.projectId, ctx.runId);
      if p.Some? && p.value.toolName == ctx.toolName {
        assert PendingFor(a', (ctx.projectId, p.value.approvalId), ctx);
      } else {
        assert PendingFor(a', (ctx.projectId, f.approvalId), ctx);
      }
    }
  }

  /** A request is created exactly where the search finds none pending for the tool; otherwise the
      requests stay as they are. */
  lemma RequestReused(gov: Governance, d: Runs, a: Ledger, ctx: ToolContext, f: Fresh)
    requires ctx.runId != "" && (ctx.projectId, f.approvalId) !in a.requests
    requires Gate(gov, d, a, ctx, f).2.waitingApproval
    ensures var a', p := Gate(gov, d, a, ctx, f).1, GetPendingForRun(a, ctx.projectId, ctx.runId);
            if p.Some? && p.value.toolName == ctx.toolName then a' == a
            else a'.requests.Keys == a.requests.Keys + {(ctx.projectId, f.approvalId)}
                 && PendingFor(a', (ctx.projectId, f.approvalId), ctx)
  {
    hide AppendEvent, GetPendingForRun;
  }

  /** What one call of the gate leaves in the audit log of its run: the decision it took, which is
      the policy's unless a grant was used, and behind it, for a call that was held back, the error
      with its reason. */
  lemma GateAudits(gov: Governance, d: Runs, a: Ledger, ctx: ToolContext, f: Fresh)
    requires IndexOk(d) && ctx.runId != ""
    ensures var (d', a', r) := Gate(gov, d, a, ctx, f);
      var v := Verdict(gov, WithRegistry(gov, ctx));
      var k := KeyOf(ctx);
      LogOf(d', k) == LogOf(d, k) +
        (if GrantKeyOf(ctx) in a.grants
         then [PolicyDecision(ctx.toolName, ctx.mcpServer, "allow", GRANT_RULE)]
         else [PolicyDecision(ctx.toolName, ctx.mcpServer, DecisionText(v.decision), v.matchedRule)] +
              (match v.decision
               case Allow => []
               case Deny => [ErrorEvent(POLICY_DENIED, r.message)]
               case RequireApproval => [ErrorEvent(APPROVAL_REQUIRED, r.message)]))
  {
    var c := WithRegistry(gov, ctx);
    var v, k := Verdict(gov, c), KeyOf(ctx);
    var e := if GrantKeyOf(ctx) in a.grants then DecisionEvent(c, Evaluation(Allow, GRANT_RULE))
      else DecisionEvent(c, v);
    AppendFacts(d, k, e);
    var d1 := AppendEvent(d, k, e);
    AppendFacts(d1, k, ErrorEvent(POLICY_DENIED, DenyMessage(ctx.toolName, v.matchedRule)));
    AppendFacts(d1, k, ErrorEvent(APPROVAL_REQUIRED, ApprovalMessage(ctx.toolName, v.matchedRule)));
  }

  /** An approval is good for one call: the next call of its tool in its run goes through whatever
      the policy says, and the one after that only if the policy allows it. */
  lemma OneTimeGrant(gov: Governance, d: Runs, d2: Runs, a: Ledger, q: ApprovalRequest, who: string,
                     why: Option<string>, now: Time, ctx: ToolContext, f: Fresh, f2: Fresh)
    requires LedgerInv(a) && (q.projectId, q.approvalId) in a.requests && a.requests[(q.projectId, q.approvalId)] == q
    requires q.status == Pending && q.runId != "" && GrantKeyOf(ctx) == (q.projectId, q.runId, q.toolName)
    ensures var (d1, a1, r1) := Gate(gov, d, Approve(a, q, who, why, now), ctx, f);
            var r2 := Gate(gov, d2, a1, ctx, f2).2;
            !r1.blocked && (r2.blocked <==> Verdict(gov, WithRegistry(gov, ctx)).decision != Allow)
  {
  }

  // ---- resumptions ----

  /** A run never goes from WAITING_APPROVAL back to RUNNING more often than requests of its own
      were approved; and its pauses exceed its resumptions by one exactly while it waits or when it
      ended waiting, and by nothing otherwise. */
  lemma ResumeEarned(gov: Governance, steps: seq<Step>, k: RunKey)
    requires k in Exec(gov, steps).runs.runs
    ensures var s := Exec(gov, steps);
            var cs := Changes(LogOf(s.runs, k));
            && Resumptions(cs) <= |ApprovedRequests(s.ledger, k)|
            && Pauses(cs) - Resumptions(cs) == (if PathEnd(cs) == WaitingApproval || EndedWaiting(cs) then 1 else 0)
  {
    AlwaysSafe(gov, steps);
    var s := Exec(gov, steps);
    assert ResumeFine(s, k) && AuditAt(s.runs, k);
    PausesAlternate(Changes(LogOf(s.runs, k)));
  }

  // ---- audit ----

  /** The audit log replays every run: its status changes are a walk through the transition table
      from CREATED to the stored status, one completion event stands in it exactly when that status
      is terminal, and the counters count it.  A run that restart recovery failed is the exception:
      its log ends at the started status it was found in, without a completion event. */
  lemma AuditReplay(gov: Governance, steps: seq<Step>, k: RunKey)
    requires k in Exec(gov, steps).runs.runs
    ensures var d := Exec(gov, steps).runs;
            var run, log, cs := d.runs[k], LogOf(d, k), Changes(LogOf(d, k));
            && IsPath(cs)
            && (k !in d.recovered ==>
                  run.status == PathEnd(cs) && CompletedEvents(log) == if IsTerminal(run.status) then 1 else 0)
            && (k in d.recovered ==>
                  run.status == Failed && Started(PathEnd(cs)) && CompletedEvents(log) == 0)
            && (run.finishedAt.Some? <==> IsTerminal(run.status))
            && (run.startedAt.Some? <==> exists c :: c in cs && c.to == Running)
            && run.eventCount == |log| && run.toolCallCount == ToolCalls(log)
  {
    AlwaysSafe(gov, steps);
    assert AuditAt(Exec(gov, steps).runs, k);
  }

  // ---- settling ----

  /** Whatever a suspended task meets, once its `finally` has run its run is terminal or waits for
      an approval, the task is gone from the registry and its chat is not shown as running. */
  lemma TaskSettles(gov: Governance, steps: seq<Step>, o: nat, out: Outcome)
    requires Enabled(Exec(gov, steps), TaskStep(o, out))
    ensures var s, s' := Exec(gov, steps), Next(gov, Exec(gov, steps), TaskStep(o, out));
            && o in s'.objs
            && RunOf(s, o) in s.runs.runs && RunOf(s, o) in s'.runs.runs
            && (if s'.objs[o].phase.Ended?
                then Settled(s', RunOf(s, o)) && s.objs[o].chat !in s'.registry
                     && (s.objs[o].chat in s'.chats ==> s'.chats[s.objs[o].chat] != InProgress)
                else Suspended(s'.objs[o]) && s'.runs.runs[RunOf(s, o)].status == s.runs.runs[RunOf(s, o)].status)
  {
    AlwaysSafe(gov, steps);
    assert ObjFine(Exec(gov, steps), o);
    TaskStepSafe(Exec(gov, steps), o, out);
  }

  /** The same for a task that ends in its first step, which it does when its chat was deleted. */
  lemma FirstStepSettles(gov: Governance, steps: seq<Step>, o: nat, id: string)
    requires Enabled(Exec(gov, steps), FirstStep(o, id))
    ensures var s, s' := Exec(gov, steps), Next(gov, Exec(gov, steps), FirstStep(o, id));
            && o in s'.objs && !s'.objs[o].phase.NeverRan?
            && (s'.objs[o].phase.Ended? <==> s.objs[o].chat !in s.chats)
            && (s'.objs[o].phase.Ended? ==> s'.objs[o].runId.Some? && Settled(s', RunOf(s', o)))
  {
    AlwaysSafe(gov, steps);
    FirstStepGrew(Exec(gov, steps), o, id);
  }

  /** The status a run has when its task ends at `out`, by the status it had before. */
  function EndStatus(before: RunStatus, cancelRequested: bool, out: Outcome): RunStatus {
    var wanted :=
      if out.Raise? then FailureStatus(out.failure)
      else if cancelRequested && !out.UsageRecorded? then Cancelled
      else if before == WaitingApproval then WaitingApproval
      else Completed;
    if Allowed(before, wanted) then wanted else before
  }

  /** How the chat is shown then. */
  function EndView(before: RunStatus, cancelRequested: bool, out: Outcome): AgentRunStatus {
    if out.Raise? then FailureView(out.failure)
    else if cancelRequested && !out.UsageRecorded? then (if IsTerminal(before) then Errored else Idle)
    else if before == WaitingApproval then AwaitingApproval
    else Idle
  }

  /** If the task ended, its run and its chat are as the tables say. */
  predicate EndsAs(s: State, s': State, o: nat, out: Outcome)
    requires HasRun(s, o) && RunOf(s, o) in s.runs.runs
  {
    var k, c := RunOf(s, o), s.objs[o].chat;
    && k in s'.runs.runs && o in s'.objs && c in s'.chats
    && (s'.objs[o].phase.Ended? ==>
          && s'.runs.runs[k].status == EndStatus(s.runs.runs[k].status, s.objs[o].cancelRequested, out)
          && s'.chats[c] == EndView(s.runs.runs[k].status, s.objs[o].cancelRequested, out))
  }

  /** For a chat that still exists, what a task leaves when it ends depends only on the run's status,
      on whether a cancel was requested, and on where the task stood. */
  lemma TaskEndsAs(s: State, o: nat, out: Outcome)
    requires SafeInv(s) && Enabled(s, TaskStep(o, out)) && s.objs[o].chat in s.chats
    ensures RunOf(s, o) in s.runs.runs
    ensures EndsAs(s, TaskOutcome(s, o, out), o, out)
  {
    assert ObjFine(s, o) && RunFine(s, RunOf(s, o));
    SafeStores(s);
    hide SafeInv, RunsInv, Raised, Finish, OnChunk, OnStreamEnd, EndStatus, EndView;
    match out
    case Raise(f, m) => RaisedEnd(s, o, f, m);
    case Chunk(conv, delta, denied) => ChunkEnd(s, o, conv, delta, denied);
    case StreamEnd => StreamEndEnd(s, o);
    case UsageRecorded => FinishEnd(s, o);
  }

  lemma ChunkEnd(s: State, o: nat, conv: Option<string>, delta: bool, denied: Option<string>)
    requires RunsInv(s.runs) && HasRun(s, o) && Suspended(s.objs[o]) && Begun(s, RunOf(s, o))
               && s.objs[o].chat in s.chats
    ensures EndsAs(s, OnChunk(s, o, conv, delta, denied), o, Chunk(conv, delta, denied))
  {
    hide MoveAndLeave;
    if s.objs[o].cancelRequested { MovedEnd(s, o, Cancelled, ""); }
  }

  lemma StreamEndEnd(s: State, o: nat)
    requires RunsInv(s.runs) && HasRun(s, o) && Suspended(s.objs[o]) && Begun(s, RunOf(s, o))
               && s.objs[o].chat in s.chats
    ensures EndsAs(s, OnStreamEnd(s, o), o, StreamEnd)
  {
    hide MoveAndLeave, Finish;
    if s.objs[o].cancelRequested { MovedEnd(s, o, Cancelled, ""); } else { FinishEnd(s, o); }
  }

  lemma RaisedEnd(s: State, o: nat, f: Failure, m: string)
    requires RunsInv(s.runs) && HasRun(s, o) && Begun(s, RunOf(s, o)) && s.objs[o].chat in s.chats
    ensures var s', k := Raised(s, o, f, m), RunOf(s, o);
            var before := s.runs.runs[k].status;
            && k in s'.runs.runs && o in s'.objs && s'.objs[o].phase.Ended? && s.objs[o].chat in s'.chats
            && s'.runs.runs[k].status == (if Allowed(before, FailureStatus(f)) then FailureStatus(f) else before)
            && s'.chats[s.objs[o].chat] == FailureView(f)
  {
    TryWorks(s.runs, RunOf(s, o), FailureStatus(f), if f == CancelledError then "" else m);
  }

  lemma MovedEnd(s: State, o: nat, to: RunStatus, error: string)
    requires RunsInv(s.runs) && HasRun(s, o) && Begun(s, RunOf(s, o)) && IsTerminal(to) && s.objs[o].chat in s.chats
    requires to == Cancelled || to == Completed
    ensures var s', k := MoveAndLeave(s, o, to, error), RunOf(s, o);
            var before := s.runs.runs[k].status;
            && k in s'.runs.runs && o in s'.objs && s'.objs[o].phase.Ended? && s.objs[o].chat in s'.chats
            && (Allowed(before, to) ==> s'.runs.runs[k].status == to && s'.chats[s.objs[o].chat] == Idle)
            && (IsTerminal(before) ==> s'.runs.runs[k].status == before && s'.chats[s.objs[o].chat] == Errored)
  {
    var k := RunOf(s, o);
    TransitionRuns(s.runs, k, to, error);
    if Transition(s.runs, k, to, error, true).Ok? {
      TransitionWorks(s.runs, k, to, error);
    } else {
      RaisedEnd(s, o, OtherError, ILLEGAL);
    }
  }

  lemma FinishEnd(s: State, o: nat)
    requires RunsInv(s.runs) && HasRun(s, o) && Begun(s, RunOf(s, o)) && s.objs[o].chat in s.chats
    ensures var s', k := Finish(s, o), RunOf(s, o);
            var before := s.runs.runs[k].status;
            && k in s'.runs.runs && o in s'.objs && s.objs[o].chat in s'.chats
            && s'.runs.runs[k].status == EndStatus(before, false, StreamEnd)
            && s'.chats[s.objs[o].chat] == EndView(before, false, StreamEnd)
  {
    var before := s.runs.runs[RunOf(s, o)].status;
    if before != WaitingApproval && !IsTerminal(before) { MovedEnd(s, o, Completed, s.objs[o].denied); }
  }

  /** No run is ever stranded: between steps no run is CREATED or QUEUED, and a chat run that is
      RUNNING has a task suspended in the engine on its behalf.  (Tickets.dfy has the runs without one.) */
  lemma NeverStranded(gov: Governance, steps: seq<Step>, k: RunKey)
    requires k in Exec(gov, steps).runs.runs
    ensures var s := Exec(gov, steps);
            && Begun(s, k)
            && (s.runs.runs[k].chatId.Some? && !Settled(s, k) ==> exists o :: Drives(s, o, k))
  {
    AlwaysSafe(gov, steps);
    assert RunFine(Exec(gov, steps), k);
  }

  /** A task that sees the cancel request at its next chunk, instead of being interrupted, finds its
      run CANCELLED already: the second transition is refused like any error, and the chat ends up
      shown as failed while the run stays cancelled. */
  lemma CancelShownAsFailed(s: State, o: nat, conv: Option<string>, delta: bool, denied: Option<string>)
    requires HasRun(s, o) && s.objs[o].cancelRequested && s.objs[o].chat in s.chats
    requires RunOf(s, o) in s.runs.runs && s.runs.runs[RunOf(s, o)].status == Cancelled
    ensures var s' := OnChunk(s, o, conv, delta, denied);
            && s'.runs == s.runs && o in s'.objs && s'.objs[o].phase.Ended?
            && s.objs[o].chat in s'.chats && s'.chats[s.objs[o].chat] == Errored
  {
  }
}
