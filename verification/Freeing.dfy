/** A stuck chat is stuck for good exactly when no task of it is alive. */
module Freeing {
  import opened Wrappers
  import opened RunModel
  import opened RunDb
  import opened Approvals
  import opened Policy
  import opened World
  import opened Settling
  import opened Safety
  import opened SingleFlight
  import opened StuckTasks
  import opened Theorems

  // ---- what a resume waits for ----

  /** A resume waits for a task of its own chat, and for none that waits itself. */
  predicate StaleFine(s: State, p: nat)
    requires p in s.objs
  {
    s.objs[p].phase.Unscheduled? && s.objs[p].phase.stale.Some? ==>
      var q := s.objs[p].phase.stale.value;
      q in s.objs && s.objs[q].chat == s.objs[p].chat && !s.objs[q].phase.Unscheduled?
  }

  ghost predicate StalesFine(s: State) { forall p {:trigger StaleFine(s, p)} :: p in s.objs ==> StaleFine(s, p) }

  /** Objects stay with their chat, and none goes back to waiting. */
  ghost predicate PhasesGrow(s: State, s': State) {
    forall p :: p in s.objs ==>
      p in s'.objs && s'.objs[p].chat == s.objs[p].chat
        && (s'.objs[p].phase.Unscheduled? ==> s'.objs[p].phase == s.objs[p].phase)
  }

  lemma StaleFrame(s: State, s': State, n: nat)
    requires StalesFine(s) && PhasesGrow(s, s')
    requires forall p :: p in s'.objs ==> p in s.objs || p == n
    requires n in s'.objs && n !in s.objs ==> StaleFine(s', n)
    ensures StalesFine(s')
  {
    forall p | p in s'.objs ensures StaleFine(s', p) {
      if p in s.objs { assert StaleFine(s, p); }
    }
  }

  lemma ResumedStale(s: State, k: RunKey, c: ChatKey, n: nat, conv: Option<string>)
    requires EntriesFine(s) && StalesFine(s) && n !in s.objs
    ensures StalesFine(Resumed(s, k, c, n, conv))
  {
    assert c in s.registry ==> EntryFine(s, c);
    hide EntriesFine;
    StaleFrame(s, Resumed(s, k, c, n, conv), n);
  }

  lemma ApprovalStale(s: State, k: RunKey, n: nat, why: Option<string>, conv: Option<string>)
    requires SafeInv(s) && StalesFine(s) && n !in s.objs
    ensures StalesFine(ApproveChat(s, k, n, why, conv))
  {
    hide Granted, Resumed, GetPendingForRun;
    if AwaitsDecision(s, k) && ChatOf(s, k).Some? {
      var s1 := Granted(s, k, s.runs.runs[k].uid, why);
      DecisionFrame(s, k, s.runs.runs[k].uid, why);
      StaleFrame(s, s1, n);
      assert EntriesFine(s1) by { forall c | c in s1.registry ensures EntryFine(s1, c) { assert EntryFine(s, c); } }
      hide SafeInv, StalesFine;
      ResumedStale(s1, k, ChatOf(s, k).value, n, conv);
    }
  }

  lemma StaleStep(gov: Governance, s: State, step: Step)
    requires SafeInv(s) && StalesFine(s)
    ensures StalesFine(Next(gov, s, step))
  {
    hide StaleFine, Begin, TaskOutcome, Exits;
    if Enabled(s, step) {
      if step.TaskStep? || step.FirstStep? {
        OwnEntry(gov, s, step);
        hide SafeInv, Effect;
        StaleFrame(s, Effect(gov, s, step), step.obj);
      } else if !IsTaskStep(step) && !step.Restart? {
        SameEntries(gov, s, step);
        hide SafeInv, Effect;
        StaleFrame(s, Effect(gov, s, step), FreshObj(s));
      } else {
        TaskStale(gov, s, step);
      }
    }
  }

  lemma TaskStale(gov: Governance, s: State, step: Step)
    requires SafeInv(s) && StalesFine(s) && Enabled(s, step) && !step.TaskStep? && !step.FirstStep?
    requires IsTaskStep(step) || step.Restart?
    ensures StalesFine(Effect(gov, s, step))
  {
    hide SafeInv, TryTransition, FailOrphans, GetActiveRunForChat, ApproveChat;
    match step {
      case ApproveInChat(k, n, why, conv) => ApprovalStale(s, k, n, why, conv);
      case StartTask(c, o, conv) => StaleFrame(s, Effect(gov, s, step), o);
      case CancelledBeforeFirstStep(o) => StaleFrame(s, Effect(gov, s, step), o);
      case CancelTask(_) => StaleFrame(s, Effect(gov, s, step), FreshObj(s));
      case ResumeTail(o) => StaleFrame(s, Effect(gov, s, step), o);
      case Restart(_, _) =>
    }
  }

  lemma {:induction false} AlwaysStale(gov: Governance, steps: seq<Step>)
    ensures StalesFine(Exec(gov, steps))
  {
    if steps != [] {
      var n := |steps| - 1;
      AlwaysStale(gov, steps[..n]);
      AlwaysSafe(gov, steps[..n]);
      StaleStep(gov, Exec(gov, steps[..n]), steps[n]);
    }
  }

  // ---- the way out ----

  /** Identifiers do not run out. */
  lemma FreshIdExists(s: State, pid: string) returns (id: string)
    ensures FreshRun(s, (pid, id))
  {
    var lengths := set k | k in s.runs.runs.Keys + s.runs.log.Keys :: |k.1|;
    var n := Above(lengths);
    id := seq(n, _ => 'x');
    assert (pid, id) in s.runs.runs.Keys + s.runs.log.Keys ==> |(pid, id).1| in lengths;
  }

  lemma FirstStepPossible(s: State, p: nat) returns (id: string)
    requires p in s.objs && s.objs[p].phase.Scheduled?
    ensures Enabled(s, FirstStep(p, id))
  {
    id := FreshIdExists(s, s.objs[p].chat.0);
  }

  /** A suspended task of the chat can always be left by an exception, which frees the chat. */
  lemma SuspendedFrees(gov: Governance, steps: seq<Step>, c: ChatKey, o: nat, p: nat)
    requires var s := Exec(gov, steps); Stuck(s, c, o) && p in s.objs && Suspended(s.objs[p]) && s.objs[p].chat == c
    ensures !Stuck(Exec(gov, steps + [TaskStep(p, Raise(OtherError, ""))]), c, o)
  {
    hide Exec, CancelsNoted;
    var s, step := Exec(gov, steps), TaskStep(p, Raise(OtherError, ""));
    AlwaysSafe(gov, steps);
    AlwaysNoted(gov, steps);
    assert ObjFine(s, p);
    hide SafeInv;
    assert Frees(s, step, c);
    FreedExactly(gov, s, step, c, o);
    ExecSnoc(gov, steps, step);
  }

  /** The first step of a task of the chat frees the chat, or leaves the task suspended. */
  lemma FirstStepFrees(gov: Governance, s: State, c: ChatKey, o: nat, p: nat, id: string)
    requires SafeInv(s) && CancelsNoted(s) && Stuck(s, c, o) && Enabled(s, FirstStep(p, id)) && s.objs[p].chat == c
    ensures var s' := Next(gov, s, FirstStep(p, id));
            !Stuck(s', c, o) || (Stuck(s', c, o) && p in s'.objs && Suspended(s'.objs[p]) && s'.objs[p].chat == c)
  {
    FreedExactly(gov, s, FirstStep(p, id), c, o);
    OwnEntry(gov, s, FirstStep(p, id));
    hide CancelsNoted;
    if c in s.chats { Suspends(gov, s, p, id); }
    hide SafeInv, Begin;
  }

  lemma Suspends(gov: Governance, s: State, p: nat, id: string)
    requires SafeInv(s) && Enabled(s, FirstStep(p, id)) && s.objs[p].chat in s.chats
    ensures var s' := Next(gov, s, FirstStep(p, id)); p in s'.objs && Suspended(s'.objs[p])
  {
    assert ObjFine(s, p);
    hide SafeInv, TryTransition, BeginRun;
  }

  /** One that waits for its first step takes it, and is then done or suspended. */
  lemma ScheduledFrees(gov: Governance, steps: seq<Step>, c: ChatKey, o: nat, p: nat) returns (more: seq<Step>)
    requires var s := Exec(gov, steps);
             Stuck(s, c, o) && p in s.objs && s.objs[p].phase.Scheduled? && s.objs[p].chat == c
    ensures NoRestart(more) && !Stuck(Exec(gov, steps + more), c, o)
  {
    var s := Exec(gov, steps);
    var id := FirstStepPossible(s, p);
    var first := FirstStep(p, id);
    hide Exec, Next, Enabled, SafeInv, CancelsNoted, Stuck, FreshRun;
    AlwaysSafe(gov, steps);
    AlwaysNoted(gov, steps);
    FirstStepFrees(gov, s, c, o, p, id);
    ExecSnoc(gov, steps, first);
    more := [first];
    if Stuck(Exec(gov, steps + [first]), c, o) {
      more := [first, TaskStep(p, Raise(OtherError, ""))];
      SuspendedFrees(gov, steps + [first], c, o, p);
      assert steps + [first] + [TaskStep(p, Raise(OtherError, ""))] == steps + more;
    }
  }

  lemma CreatedFrees(gov: Governance, steps: seq<Step>, c: ChatKey, o: nat, p: nat) returns (more: seq<Step>)
    requires var s := Exec(gov, steps);
             Stuck(s, c, o) && LiveObj(s, p) && !s.objs[p].phase.Unscheduled? && s.objs[p].chat == c
    ensures NoRestart(more) && !Stuck(Exec(gov, steps + more), c, o)
  {
    hide Exec, Stuck;
    if Suspended(Exec(gov, steps).objs[p]) {
      more := [TaskStep(p, Raise(OtherError, ""))];
      SuspendedFrees(gov, steps, c, o, p);
    } else {
      more := ScheduledFrees(gov, steps, c, o, p);
    }
  }

  /** Whatever live task the chat has, some continuation without a restart frees the chat. */
  lemma LiveFrees(gov: Governance, steps: seq<Step>, c: ChatKey, o: nat, p: nat) returns (more: seq<Step>)
    requires var s := Exec(gov, steps); Stuck(s, c, o) && LiveObj(s, p) && s.objs[p].chat == c
    ensures NoRestart(more) && !Stuck(Exec(gov, steps + more), c, o)
  {
    var s := Exec(gov, steps);
    AlwaysStale(gov, steps);
    assert StaleFine(s, p);
    hide Exec, StalesFine;
    if !s.objs[p].phase.Unscheduled? {
      more := CreatedFrees(gov, steps, c, o, p);
    } else if Enabled(s, ResumeTail(p)) {
      ExecSnoc(gov, steps, ResumeTail(p));
      var rest := CreatedFrees(gov, steps + [ResumeTail(p)], c, o, p);
      more := [ResumeTail(p)] + rest;
      assert steps + [ResumeTail(p)] + rest == steps + more;
    } else {
      more := CreatedFrees(gov, steps, c, o, s.objs[p].phase.stale.value);
    }
  }

  /** The entry stays in every continuation without a restart if and only if no task of the chat is
      alive, registered or not. */
  lemma StuckForGoodExactly(gov: Governance, steps: seq<Step>, c: ChatKey, o: nat)
    requires Stuck(Exec(gov, steps), c, o)
    ensures (forall more :: NoRestart(more) ==> Stuck(Exec(gov, steps + more), c, o)) <==> NoTaskOf(Exec(gov, steps), c)
  {
    hide Exec, Stuck;
    if NoTaskOf(Exec(gov, steps), c) {
      forall more | NoRestart(more) ensures Stuck(Exec(gov, steps + more), c, o) {
        StuckForGood(gov, steps, more, c, o);
      }
    } else {
      var p :| LiveObj(Exec(gov, steps), p) && Exec(gov, steps).objs[p].chat == c;
      var more := LiveFrees(gov, steps, c, o, p);
    }
  }
}
