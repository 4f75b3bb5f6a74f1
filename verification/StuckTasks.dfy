/** A task that is cancelled before its first step: its chat is blocked, and what frees it again. */
module StuckTasks {
  import opened Wrappers
  import opened RunModel
  import opened RunDb
  import opened Approvals
  import opened Policy
  import opened World
  import opened Settling
  import opened Safety
  import opened SingleFlight
  import opened Theorems
  import opened Decisions

  /** The `finally` of the task never runs, so nothing of its own takes its entry out. */
  predicate Stuck(s: State, c: ChatKey, o: nat) {
    c in s.registry && s.registry[c] == o && o in s.objs && s.objs[o].phase.NeverRan? && s.objs[o].chat == c
  }

  /** The step in which the `finally` of a task runs. */
  predicate Exits(s: State, step: Step)
    requires Enabled(s, step)
  {
    match step
    case FirstStep(p, id) => s.objs[p].chat !in s.chats
    case TaskStep(p, out) => (
      var r := s.objs[p];
      match out
      case Chunk(_, _, _) => r.cancelRequested || Waits(s, p)
      case StreamEnd => r.cancelRequested || r.conversation.None? || r.chat !in s.chats
      case UsageRecorded => true
      case Raise(_, _) => true)
    case _ => false
  }

  /** A restart, or the end of any task of the chat: it pops the entry of the chat, whosever it is. */
  predicate Frees(s: State, step: Step, c: ChatKey) {
    && Enabled(s, step)
    && (step.Restart? || (Exits(s, step) && s.objs[step.obj].chat == c))
  }

  // ---- the run of a cancelled task ----

  predicate Over(s: State, k: RunKey) { k in s.runs.runs && IsTerminal(s.runs.runs[k].status) }

  /** The task has not taken its first step. */
  predicate NotBegun(r: ChatRun) { r.phase.Unscheduled? || r.phase.Scheduled? || r.phase.NeverRan? }

  /** A registered task that never ran was told to cancel, and one that was told so before its first
      step has no run, or one that was cancelled or over before. */
  predicate CancelNoted(s: State, c: ChatKey)
    requires c in s.registry
  {
    s.registry[c] in s.objs ==>
      var r := s.objs[s.registry[c]];
      && (r.phase.NeverRan? ==> r.cancelRequested)
      && (r.cancelRequested && NotBegun(r) && r.runId.Some? ==> Over(s, (r.chat.0, r.runId.value)))
  }

  ghost predicate CancelsNoted(s: State) {
    forall c {:trigger CancelNoted(s, c)} :: c in s.registry ==> CancelNoted(s, c)
  }

  ghost predicate OversStay(s: State, s': State) { forall k :: Over(s, k) ==> Over(s', k) }

  lemma OverStays(gov: Governance, s: State, step: Step)
    requires SafeInv(s)
    ensures OversStay(s, Next(gov, s, step))
  {
    StepGrew(gov, s, step);
    hide Next, SafeInv;
  }

  /** Only the object `p` changed, and no entry joined. */
  lemma NotedFrame(s: State, s': State, p: nat)
    requires CancelsNoted(s) && OversStay(s, s') && OnlyObj(s, s', p)
    requires forall c :: c in s'.registry ==> c in s.registry && s'.registry[c] == s.registry[c]
    requires p in s'.objs ==> forall c :: c in s'.registry && s'.registry[c] == p ==> CancelNoted(s', c)
    ensures CancelsNoted(s')
  {
    hide Over, NotBegun;
    forall c | c in s'.registry ensures CancelNoted(s', c) { assert CancelNoted(s, c); }
  }

  /** Cancelling ends the run of a registered task, and a task that waits for its first step is told. */
  lemma CancelEndsRun(s: State, c: ChatKey)
    requires SafeInv(s) && c in s.registry && HasRun(s, s.registry[c])
    ensures s.registry[c] in CancelChat(s, c).objs && Over(CancelChat(s, c), RunOf(s, s.registry[c]))
    ensures CancelChat(s, c).objs[s.registry[c]] == s.objs[s.registry[c]].(cancelRequested := true)
  {
    assert EntryFine(s, c) && ObjFine(s, s.registry[c]) && RunFine(s, RunOf(s, s.registry[c]));
    CancelTellsTask(s, c);
  }

  lemma CancelNotes(s: State, c: ChatKey)
    requires SafeInv(s) && CancelsNoted(s) && OversStay(s, CancelChat(s, c))
    ensures CancelsNoted(CancelChat(s, c))
  {
    if c in s.registry {
      assert EntryFine(s, c);
      var o, s' := s.registry[c], CancelChat(s, c);
      if HasRun(s, o) { CancelEndsRun(s, c); }
      hide SafeInv, Over, TryTransition;
      NotedFrame(s, s', o);
    }
  }

  /** A new entry, whose task was told nothing yet. */
  lemma NewEntryNoted(s: State, s': State, c: ChatKey, o: nat)
    requires CancelsNoted(s) && OversStay(s, s') && o !in s.objs && EntriesFine(s)
    requires o in s'.objs && !s'.objs[o].cancelRequested && !s'.objs[o].phase.NeverRan?
    requires s'.registry == s.registry[c := o]
    requires forall p :: p in s.objs && s.objs[p].chat != c ==> p in s'.objs && s'.objs[p] == s.objs[p]
    ensures CancelsNoted(s')
  {
    hide Over, NotBegun;
    forall d | d in s'.registry ensures CancelNoted(s', d) {
      if d != c { assert CancelNoted(s, d) && EntryFine(s, d); }
    }
  }

  lemma ResumedNotes(s: State, k: RunKey, c: ChatKey, n: nat, conv: Option<string>)
    requires EntriesFine(s) && CancelsNoted(s) && n !in s.objs
    ensures CancelsNoted(Resumed(s, k, c, n, conv))
  {
    var s' := Resumed(s, k, c, n, conv);
    assert c in s.registry ==> EntryFine(s, c);
    assert OversStay(s, s');
    hide EntriesFine, CancelsNoted, Over;
    if n in s'.objs { NewEntryNoted(s, s', c, n); }
  }

  lemma ApprovalNotes(s: State, k: RunKey, n: nat, why: Option<string>, conv: Option<string>)
    requires SafeInv(s) && CancelsNoted(s) && n !in s.objs
    ensures CancelsNoted(ApproveChat(s, k, n, why, conv))
  {
    hide Granted, Resumed, GetPendingForRun;
    if AwaitsDecision(s, k) && ChatOf(s, k).Some? {
      var s1 := Granted(s, k, s.runs.runs[k].uid, why);
      DecisionFrame(s, k, s.runs.runs[k].uid, why);
      NotedFrame(s, s1, n);
      assert EntriesFine(s1) by { forall c | c in s1.registry ensures EntryFine(s1, c) { assert EntryFine(s, c); } }
      hide SafeInv, CancelsNoted;
      ResumedNotes(s1, k, ChatOf(s, k).value, n, conv);
    }
  }

  // ---- what each step does to the registry ----

  /** Nothing but the object `p`, which has begun, and the entry of its chat when it exits. */
  ghost predicate EntryTouched(s: State, s': State, p: nat, exits: bool)
    requires p in s.objs
  {
    && p in s'.objs && s'.objs[p].chat == s.objs[p].chat && !NotBegun(s'.objs[p]) && OnlyObj(s, s', p)
    && s'.registry == if exits then s.registry - {s.objs[p].chat} else s.registry
  }

  lemma RaisedEntry(s: State, p: nat, f: Failure, message: string)
    requires HasRun(s, p)
    ensures EntryTouched(s, Raised(s, p, f, message), p, true)
  {
    hide TryTransition;
  }

  lemma LeaveEntry(s: State, d: Runs, p: nat, view: AgentRunStatus)
    requires HasRun(s, p)
    ensures EntryTouched(s, Leave(s.(runs := d), p, view), p, true)
  {
    hide Raised;
    RaisedEntry(s.(runs := d), p, OtherError, Missing(s.objs[p].chat));
  }

  lemma MoveAndLeaveEntry(s: State, p: nat, to: RunStatus, error: string)
    requires HasRun(s, p)
    ensures EntryTouched(s, MoveAndLeave(s, p, to, error), p, true)
  {
    hide Transition, Raised, Leave, EntryTouched;
    match Transition(s.runs, RunOf(s, p), to, error, true)
    case Ok(d) => LeaveEntry(s, d, p, Idle);
    case Err(_) => RaisedEntry(s, p, OtherError, ILLEGAL);
  }

  lemma FinishEntry(s: State, p: nat)
    requires HasRun(s, p)
    ensures EntryTouched(s, Finish(s, p), p, true)
  {
    hide MoveAndLeave, Leave, EntryTouched, Waits, IsOver;
    assert s.(runs := s.runs) == s;
    LeaveEntry(s, s.runs, p, AwaitingApproval);
    LeaveEntry(s, s.runs, p, Idle);
    MoveAndLeaveEntry(s, p, Completed, s.objs[p].denied);
  }

  lemma ChunkEntry(s: State, p: nat, conv: Option<string>, delta: bool, denied: Option<string>)
    requires HasRun(s, p) && Suspended(s.objs[p])
    ensures EntryTouched(s, OnChunk(s, p, conv, delta, denied), p, s.objs[p].cancelRequested || Waits(s, p))
  {
    hide MoveAndLeave, Leave, Waits, SetOhConversationId;
    assert s.(runs := s.runs) == s;
    if s.objs[p].cancelRequested {
      MoveAndLeaveEntry(s, p, Cancelled, "");
    } else if Waits(s, p) {
      LeaveEntry(s, s.runs, p, AwaitingApproval);
    }
  }

  lemma EndEntry(s: State, p: nat)
    requires HasRun(s, p)
    ensures var r := s.objs[p];
            EntryTouched(s, OnStreamEnd(s, p), p, r.cancelRequested || r.conversation.None? || r.chat !in s.chats)
  {
    hide MoveAndLeave, Raised, Finish;
    MoveAndLeaveEntry(s, p, Cancelled, "");
    RaisedEntry(s, p, OtherError, Missing(s.objs[p].chat));
    FinishEntry(s, p);
  }

  lemma TaskStepEntry(s: State, p: nat, out: Outcome)
    requires Enabled(s, TaskStep(p, out))
    ensures EntryTouched(s, TaskOutcome(s, p, out), p, Exits(s, TaskStep(p, out)))
  {
    hide EntryTouched, Waits;
    match out
    case Chunk(conv, delta, denied) => ChunkEntry(s, p, conv, delta, denied);
    case StreamEnd => EndEntry(s, p);
    case UsageRecorded => FinishEntry(s, p);
    case Raise(f, m) => RaisedEntry(s, p, f, m);
  }

  lemma OpenedEntry(s: State, p: nat, runId: string)
    requires p in s.objs
    ensures EntryTouched(s, Opened(s, p, runId), p, s.objs[p].chat !in s.chats)
  {
    hide TryTransition;
  }

  lemma FirstStepEntry(s: State, p: nat, id: string)
    requires Enabled(s, FirstStep(p, id)) && ObjFine(s, p)
    ensures EntryTouched(s, Begin(s, p, id), p, Exits(s, FirstStep(p, id)))
  {
    hide TryTransition, BeginRun, Opened;
    var (pid, uid, chat) := s.objs[p].chat;
    var r := s.objs[p];
    if r.resumes.Some? {
      var k := (pid, r.resumes.value);
      var d := if s.runs.runs[k].status == WaitingApproval then TryTransition(s.runs, k, Running, "") else s.runs;
      OpenedEntry(s.(runs := d), p, k.1);
    } else {
      OpenedEntry(s.(runs := BeginRun(s.runs, pid, id, uid, Chat, Some(chat), None, None)), p, id);
    }
  }

  /** A decision without a resume touches no task object and no entry. */
  lemma DecisionEntry(gov: Governance, s: State, step: Step)
    requires Enabled(s, step)
    requires step.RejectInChat? || step.ApproveDirect? || step.RejectDirect?
    ensures Effect(gov, s, step).objs == s.objs && Effect(gov, s, step).registry == s.registry
  {
    hide Approve, Reject, Ticks, TryTransition, GetPendingForRun;
  }

  /** Steps that are about no task: neither objects nor entries change. */
  lemma SameEntries(gov: Governance, s: State, step: Step)
    requires SafeInv(s) && Enabled(s, step) && !IsTaskStep(step) && !step.Restart?
    ensures Effect(gov, s, step).objs == s.objs && Effect(gov, s, step).registry == s.registry
  {
    hide SafeInv, TryTransition, AppendEvent, BeginRun, RejectChat, ApprovePlain, RejectPlain, Hook, FreshRun;
    match step {
      case ToolCallHook(ctx, f) => HookEntry(gov, s, ctx, f);
      case RejectInChat(_, _) => DecisionEntry(gov, s, step);
      case ApproveDirect(_, _, _) => DecisionEntry(gov, s, step);
      case RejectDirect(_, _, _) => DecisionEntry(gov, s, step);
      case _ =>
    }
  }

  lemma HookEntry(gov: Governance, s: State, ctx: ToolContext, f: Fresh)
    requires SafeInv(s)
    ensures var s' := Hook(gov, s, ctx, f);
            s'.objs == s.objs && s'.registry == s.registry
  {
    if ctx.toolName != "" && ctx.runId != "" { HookWorks(gov, s, ctx, f); }
  }

  /** An approval finds the stuck entry and refuses: its task has no run or one that is over, so it
      is not the run that waits. */
  lemma ApprovalEntry(s: State, k: RunKey, n: nat, why: Option<string>, conv: Option<string>, c: ChatKey, o: nat)
    requires n !in s.objs && Stuck(s, c, o) && CancelNoted(s, c)
    ensures var s' := ApproveChat(s, k, n, why, conv);
            && Stuck(s', c, o) && (NoTaskOf(s, c) ==> NoTaskOf(s', c))
  {
    hide Granted, Resumed, GetPendingForRun;
    if AwaitsDecision(s, k) && ChatOf(s, k).Some? {
      var s1 := Granted(s, k, s.runs.runs[k].uid, why);
      DecisionFrame(s, k, s.runs.runs[k].uid, why);
      assert !Over(s, k) && (ChatOf(s, k).value == c ==> k.0 == c.0);
      assert Stuck(s1, c, o) && (NoTaskOf(s, c) ==> NoTaskOf(s1, c));
      ResumedEntry(s1, k, ChatOf(s, k).value, n, conv, c, o);
    }
  }

  lemma ResumedEntry(s: State, k: RunKey, d: ChatKey, n: nat, conv: Option<string>, c: ChatKey, o: nat)
    requires n !in s.objs && Stuck(s, c, o) && (d == c ==> s.objs[o].runId != Some(k.1))
    ensures var s' := Resumed(s, k, d, n, conv);
            && Stuck(s', c, o) && (NoTaskOf(s, c) ==> NoTaskOf(s', c))
  {
  }

  /** A task's own step. */
  lemma OwnEntry(gov: Governance, s: State, step: Step)
    requires SafeInv(s) && Enabled(s, step) && (step.TaskStep? || step.FirstStep?)
    ensures LiveObj(s, step.obj)
    ensures EntryTouched(s, Effect(gov, s, step), step.obj, Exits(s, step))
  {
    assert ObjFine(s, step.obj);
    hide SafeInv, EntryTouched, ObjFine, Begin, TaskOutcome, Exits;
    match step {
      case TaskStep(p, out) => TaskStepEntry(s, p, out);
      case FirstStep(p, id) => FirstStepEntry(s, p, id);
    }
  }

  // ---- every run keeps the record of cancels ----

  lemma NotedStep(gov: Governance, s: State, step: Step)
    requires SafeInv(s) && CancelsNoted(s)
    ensures CancelsNoted(Next(gov, s, step))
  {
    if Enabled(s, step) {
      OverStays(gov, s, step);
      if step.TaskStep? || step.FirstStep? {
        OwnEntry(gov, s, step);
        OwnNoted(s, Effect(gov, s, step), step.obj, Exits(s, step));
      } else {
        OtherNoted(gov, s, step);
      }
    }
  }

  lemma OwnNoted(s: State, s': State, p: nat, exits: bool)
    requires CancelsNoted(s) && OversStay(s, s') && p in s.objs && EntryTouched(s, s', p, exits)
    ensures CancelsNoted(s')
  {
    hide Over;
    NotedFrame(s, s', p);
  }

  lemma OtherNoted(gov: Governance, s: State, step: Step)
    requires SafeInv(s) && CancelsNoted(s) && Enabled(s, step) && !step.TaskStep? && !step.FirstStep?
    requires OversStay(s, Effect(gov, s, step))
    ensures CancelsNoted(Effect(gov, s, step))
  {
    if !IsTaskStep(step) && !step.Restart? {
      SameEntries(gov, s, step);
      hide SafeInv, CancelNoted, Effect;
      NotedFrame(s, Effect(gov, s, step), FreshObj(s));
    } else {
      TaskNoted(gov, s, step);
    }
  }

  lemma TaskNoted(gov: Governance, s: State, step: Step)
    requires SafeInv(s) && CancelsNoted(s) && Enabled(s, step) && !step.TaskStep? && !step.FirstStep?
    requires (IsTaskStep(step) || step.Restart?) && OversStay(s, Effect(gov, s, step))
    ensures CancelsNoted(Effect(gov, s, step))
  {
    hide SafeInv, CancelNoted, Start, CancelChat, ApproveChat, FailOrphans, Over;
    match step {
      case StartTask(c, o, conv) => StartNotes(s, c, o, conv);
      case CancelledBeforeFirstStep(o) => PhaseNoted(s, o, NeverRan);
      case CancelTask(c) => CancelNotes(s, c);
      case ApproveInChat(k, n, why, conv) => ApprovalNotes(s, k, n, why, conv);
      case ResumeTail(o) => PhaseNoted(s, o, Scheduled);
      case Restart(_, _) =>
    }
  }

  lemma StartNotes(s: State, c: ChatKey, o: nat, conv: Option<string>)
    requires SafeInv(s) && CancelsNoted(s) && o !in s.objs
    ensures CancelsNoted(Start(s, c, o, conv))
  {
    var s' := Start(s, c, o, conv);
    if s' != s {
      hide RunsInv, LedgerInv, CancelsNoted, GetActiveRunForChat;
      NewEntryNoted(s, s', c, o);
    }
  }

  /** The next phase of a task that has not begun. */
  lemma PhaseNoted(s: State, o: nat, phase: Phase)
    requires CancelsNoted(s) && o in s.objs && NotBegun(s.objs[o])
    requires phase == Scheduled || (phase == NeverRan && s.objs[o].cancelRequested)
    ensures CancelsNoted(s.(objs := s.objs[o := s.objs[o].(phase := phase)]))
  {
    var s' := s.(objs := s.objs[o := s.objs[o].(phase := phase)]);
    forall c | c in s'.registry ensures CancelNoted(s', c) { assert CancelNoted(s, c); }
  }

  lemma {:induction false} AlwaysNoted(gov: Governance, steps: seq<Step>)
    ensures CancelsNoted(Exec(gov, steps))
  {
    if steps != [] {
      var n := |steps| - 1;
      AlwaysNoted(gov, steps[..n]);
      AlwaysSafe(gov, steps[..n]);
      NotedStep(gov, Exec(gov, steps[..n]), steps[n]);
    }
  }

  /** In every run: the task of an entry that stays behind was told to cancel, and the run it was to
      continue, if any, is over. */
  lemma StuckRunIsOver(gov: Governance, steps: seq<Step>, c: ChatKey, o: nat)
    requires Stuck(Exec(gov, steps), c, o)
    ensures var s := Exec(gov, steps);
            s.objs[o].cancelRequested && (s.objs[o].runId.Some? ==> Over(s, (c.0, s.objs[o].runId.value)))
  {
    AlwaysNoted(gov, steps);
    assert CancelNoted(Exec(gov, steps), c);
  }

  // ---- exactly what frees the chat ----

  /** A step takes the entry out if and only if it is a restart or some task of that chat exits; while
      it is there `start` leaves the state as it is. */
  lemma FreedExactly(gov: Governance, s: State, step: Step, c: ChatKey, o: nat)
    requires SafeInv(s) && CancelsNoted(s) && Stuck(s, c, o)
    ensures !Stuck(Next(gov, s, step), c, o) <==> Frees(s, step, c)
    ensures step.StartTask? && step.chat == c ==> Next(gov, s, step) == s
  {
    hide SafeInv, CancelsNoted, TaskOutcome, Begin, Waits;
    assert step.StartTask? && step.chat == c ==> Next(gov, s, step) == s;
    hide Effect;
    if Enabled(s, step) {
      if step.TaskStep? || step.FirstStep? { OwnEntry(gov, s, step); } else { OtherEntry(gov, s, step, c, o); }
    }
  }

  lemma OtherEntry(gov: Governance, s: State, step: Step, c: ChatKey, o: nat)
    requires SafeInv(s) && CancelsNoted(s) && Stuck(s, c, o) && Enabled(s, step) && !step.TaskStep? && !step.FirstStep?
    ensures var s' := Effect(gov, s, step);
            && (!step.Restart? ==> Stuck(s', c, o) && (NoTaskOf(s, c) ==> NoTaskOf(s', c)))
            && (step.Restart? ==> !Stuck(s', c, o))
  {
    if !IsTaskStep(step) && !step.Restart? {
      SameEntries(gov, s, step);
      hide SafeInv, CancelsNoted, Effect;
    } else {
      TaskEntry(gov, s, step, c, o);
    }
  }

  lemma TaskEntry(gov: Governance, s: State, step: Step, c: ChatKey, o: nat)
    requires CancelsNoted(s) && Stuck(s, c, o) && Enabled(s, step) && !step.TaskStep? && !step.FirstStep?
    requires IsTaskStep(step) || step.Restart?
    ensures var s' := Effect(gov, s, step);
            && (!step.Restart? ==> Stuck(s', c, o) && (NoTaskOf(s, c) ==> NoTaskOf(s', c)))
            && (step.Restart? ==> !Stuck(s', c, o))
  {
    assert CancelNoted(s, c);
    hide CancelNoted, CancelsNoted, TryTransition, FailOrphans, GetActiveRunForChat, ApproveChat;
    if step.ApproveInChat? { ApprovalEntry(s, step.run, step.obj, step.why, step.conv, c, o); }
  }

  lemma StepAt(gov: Governance, steps: seq<Step>, more: seq<Step>, i: nat, c: ChatKey, o: nat)
    requires i < |more| && Stuck(Exec(gov, steps + more[..i]), c, o)
    ensures Stuck(Exec(gov, steps + more[..i + 1]), c, o) <==> !Frees(Exec(gov, steps + more[..i]), more[i], c)
  {
    assert steps + more[..i + 1] == (steps + more[..i]) + [more[i]];
    hide Exec, Stuck, Frees;
    AlwaysSafe(gov, steps + more[..i]);
    AlwaysNoted(gov, steps + more[..i]);
    ExecSnoc(gov, steps + more[..i], more[i]);
    FreedExactly(gov, Exec(gov, steps + more[..i]), more[i], c, o);
  }

  lemma {:induction false} StuckUpTo(gov: Governance, steps: seq<Step>, more: seq<Step>, i: nat, c: ChatKey, o: nat)
    requires i <= |more| && Stuck(Exec(gov, steps), c, o)
    requires forall j :: 0 <= j < i ==> !Frees(Exec(gov, steps + more[..j]), more[j], c)
    ensures Stuck(Exec(gov, steps + more[..i]), c, o)
  {
    hide Exec, Stuck, Frees;
    if i == 0 {
      assert steps + more[..0] == steps;
    } else {
      StuckUpTo(gov, steps, more, i - 1, c, o);
      StepAt(gov, steps, more, i - 1, c, o);
    }
  }

  /** Over any continuation: the entry is there all along if and only if no step of it frees the chat. */
  lemma StuckUntilFreed(gov: Governance, steps: seq<Step>, more: seq<Step>, c: ChatKey, o: nat)
    requires Stuck(Exec(gov, steps), c, o)
    ensures (forall i :: 0 <= i <= |more| ==> Stuck(Exec(gov, steps + more[..i]), c, o))
            <==> (forall i :: 0 <= i < |more| ==> !Frees(Exec(gov, steps + more[..i]), more[i], c))
  {
    hide Stuck, Frees, Exec;
    if forall i :: 0 <= i < |more| ==> !Frees(Exec(gov, steps + more[..i]), more[i], c) {
      forall i | 0 <= i <= |more| ensures Stuck(Exec(gov, steps + more[..i]), c, o) {
        StuckUpTo(gov, steps, more, i, c, o);
      }
    }
    if forall i :: 0 <= i <= |more| ==> Stuck(Exec(gov, steps + more[..i]), c, o) {
      forall i | 0 <= i < |more| ensures !Frees(Exec(gov, steps + more[..i]), more[i], c) {
        StepAt(gov, steps, more, i, c, o);
      }
    }
  }

  // ---- a chat that nothing frees but a restart ----

  /** No task of the chat is alive, registered or not. */
  ghost predicate NoTaskOf(s: State, c: ChatKey) { forall p :: LiveObj(s, p) ==> s.objs[p].chat != c }

  predicate NoRestart(steps: seq<Step>) { forall i :: 0 <= i < |steps| ==> !steps[i].Restart? }

  /** Then none comes to life either, and `start` leaves the state as it is. */
  lemma StuckStep(gov: Governance, s: State, step: Step, c: ChatKey, o: nat)
    requires SafeInv(s) && CancelsNoted(s) && Stuck(s, c, o) && NoTaskOf(s, c) && !step.Restart?
    ensures Stuck(Next(gov, s, step), c, o) && NoTaskOf(Next(gov, s, step), c)
    ensures step.StartTask? && step.chat == c ==> Next(gov, s, step) == s
  {
    hide SafeInv, CancelsNoted, TaskOutcome, Begin, Exits, FreshRun;
    if Enabled(s, step) {
      if step.TaskStep? || step.FirstStep? { OwnEntry(gov, s, step); } else { OtherEntry(gov, s, step, c, o); }
    }
  }

  /** A stuck chat without a live task stays so in every continuation without a restart, whatever
      happens in it, and every message of the chat is refused: `start` leaves the state as it is. */
  lemma {:induction false} StuckForGood(gov: Governance, steps: seq<Step>, more: seq<Step>, c: ChatKey, o: nat)
    requires Stuck(Exec(gov, steps), c, o) && NoTaskOf(Exec(gov, steps), c) && NoRestart(more)
    ensures var s := Exec(gov, steps + more);
            && Stuck(s, c, o) && NoTaskOf(s, c)
            && (forall n: nat, conv {:trigger StartTask(c, n, conv)} :: Next(gov, s, StartTask(c, n, conv)) == s)
  {
    hide Exec, Next, Stuck, NoTaskOf, SafeInv, CancelsNoted;
    if more == [] {
      assert steps + more == steps;
    } else {
      var n := |more| - 1;
      StuckForGood(gov, steps, more[..n], c, o);
      AlwaysSafe(gov, steps + more[..n]);
      AlwaysNoted(gov, steps + more[..n]);
      StuckStep(gov, Exec(gov, steps + more[..n]), more[n], c, o);
      assert steps + more == (steps + more[..n]) + [more[n]];
      ExecSnoc(gov, steps + more[..n], more[n]);
    }
    AlwaysSafe(gov, steps + more);
    AlwaysNoted(gov, steps + more);
    forall n: nat, conv ensures Next(gov, Exec(gov, steps + more), StartTask(c, n, conv)) == Exec(gov, steps + more) {
      StuckStep(gov, Exec(gov, steps + more), StartTask(c, n, conv), c, o);
    }
  }

  /** Where single flight holds, a task that is cancelled before its first step, be it that of a message
      or of an approval, leaves its chat stuck without a live task. */
  lemma CancelledIsStuck(gov: Governance, s: State, o: nat)
    requires FlightInv(s) && Enabled(s, CancelledBeforeFirstStep(o))
    ensures var s', c := Next(gov, s, CancelledBeforeFirstStep(o)), s.objs[o].chat;
            Stuck(s', c, o) && NoTaskOf(s', c)
  {
    assert ObjFine(s, o) && LiveObj(s, o) && IsRegistered(s, o);
    OneLive(s);
    var s' := Next(gov, s, CancelledBeforeFirstStep(o));
    forall p | LiveObj(s', p) ensures s'.objs[p].chat != s.objs[o].chat { assert LiveObj(s, p); }
  }

  /** So in every quiet run: from then on every message of the chat is refused until a restart. */
  lemma CancelledForGood(gov: Governance, steps: seq<Step>, o: nat, more: seq<Step>)
    requires Quiet(gov, steps) && Enabled(Exec(gov, steps), CancelledBeforeFirstStep(o)) && NoRestart(more)
    ensures var c, s := Exec(gov, steps).objs[o].chat, Exec(gov, steps + [CancelledBeforeFirstStep(o)] + more);
            && Stuck(s, c, o)
            && (forall n: nat, conv {:trigger StartTask(c, n, conv)} :: Next(gov, s, StartTask(c, n, conv)) == s)
  {
    QuietFlight(gov, steps);
    CancelledIsStuck(gov, Exec(gov, steps), o);
    ExecSnoc(gov, steps, CancelledBeforeFirstStep(o));
    StuckForGood(gov, steps + [CancelledBeforeFirstStep(o)], more, Exec(gov, steps).objs[o].chat, o);
  }
}
