/** One task and one unfinished run per chat, and the exact step that breaks it. */
module SingleFlight {
  import opened Wrappers
  import opened RunModel
  import opened ZSets
  import opened RunDb
  import opened Approvals
  import opened Policy
  import opened World
  import opened Settling
  import opened Safety

  // ---- runs of one chat ----

  predicate SameChat(d: Runs, k: RunKey, j: RunKey) {
    k in d.runs && j in d.runs && k.0 == j.0 && d.runs[k].chatId.Some? && d.runs[j].chatId == d.runs[k].chatId
  }

  predicate Unfinished(d: Runs, k: RunKey) { k in d.runs && !IsTerminal(d.runs[k].status) }

  /** An unfinished run is the only one of its chat, and the last one written. */
  ghost predicate ChatOrder(d: Runs) {
    forall k, j :: Unfinished(d, k) && k != j && SameChat(d, k, j) ==>
      !Unfinished(d, j) && d.runs[j].updatedAt < d.runs[k].updatedAt
  }

  /** No run of the chat of `k` but `k` itself is unfinished. */
  ghost predicate AloneIn(d: Runs, d': Runs, k: RunKey) {
    forall j :: j != k && SameChat(d', k, j) ==> !Unfinished(d, j)
  }

  lemma WorkedOrder(d: Runs, d': Runs, k: RunKey, resumed: nat)
    requires RunsInv(d) && ChatOrder(d) && Worked(d, d', k, resumed) && AloneIn(d, d', k)
    ensures ChatOrder(d')
  {
    forall j | SameChat(d', j, k) ensures SameChat(d', k, j) {}
    forall i, j | Unfinished(d', i) && i != j && SameChat(d', i, j)
      ensures !Unfinished(d', j) && d'.runs[j].updatedAt < d'.runs[i].updatedAt
    {
      if i == k {
        assert j in d.runs && Listed(d, j);
        assert SameChat(d', k, j);
        if k in d.runs { assert SameChat(d, k, j); }
      } else if j != k {
        assert SameChat(d, i, j);
      }
    }
  }

  // ---- tasks of one chat ----

  predicate LiveObj(s: State, o: nat) { o in s.objs && Live(s.objs[o]) }

  predicate IsRegistered(s: State, o: nat)
    requires o in s.objs
  {
    s.objs[o].chat in s.registry && s.registry[s.objs[o].chat] == o
  }

  ghost predicate TasksRegistered(s: State) { forall o :: LiveObj(s, o) ==> IsRegistered(s, o) }

  /** The live task of a chat works on its unfinished run, if there is one. */
  ghost predicate OwnsUnfinished(s: State, o: nat)
    requires o in s.objs
  {
    forall k :: RunOfChat(s, k, s.objs[o].chat) && Unfinished(s.runs, k) ==> s.objs[o].runId == Some(k.1)
  }

  ghost predicate TasksOwn(s: State) {
    forall o {:trigger OwnsUnfinished(s, o)} :: LiveObj(s, o) ==> OwnsUnfinished(s, o)
  }

  ghost predicate FlightInv(s: State) {
    SafeInv(s) && ChatOrder(s.runs) && TasksRegistered(s) && TasksOwn(s)
  }

  ghost predicate AtMostOneLive(s: State) {
    forall o, p :: LiveObj(s, o) && LiveObj(s, p) && s.objs[o].chat == s.objs[p].chat ==> o == p
  }

  // ---- the steps that are excluded ----

  /** A resume that finds the task of the same run still running. */
  ghost predicate TakesOverLive(s: State, step: Step) {
    && Enabled(s, step) && step.ApproveInChat? && AwaitsDecision(s, step.run) && ChatOf(s, step.run).Some?
    && var c := ChatOf(s, step.run).value;
    && c in s.chats && c in s.registry && LiveObj(s, s.registry[c])
    && s.objs[s.registry[c]].runId == Some(step.run.1)
  }

  /** The step appends an audit event for run `k`. */
  predicate EventRun(step: Step, k: RunKey) {
    || (step.ToolCallHook? && step.ctx.toolName != "" && step.ctx.runId != "" && KeyOf(step.ctx) == k)
    || (step.AgentEvent? && step.run == k)
  }

  /** An event for a run while another run of its chat is unfinished. */
  ghost predicate LateEvent(s: State, step: Step) {
    Enabled(s, step) && exists k, j :: EventRun(step, k) && k != j && SameChat(s.runs, k, j) && Unfinished(s.runs, j)
  }

  ghost predicate QuietStep(s: State, step: Step) { !TakesOverLive(s, step) && !LateEvent(s, step) }

  /** Every step of the run is quiet where it is taken. */
  ghost predicate Quiet(gov: Governance, steps: seq<Step>) {
    steps == [] ||
    var n := |steps| - 1;
    Quiet(gov, steps[..n]) && QuietStep(Exec(gov, steps[..n]), steps[n])
  }

  // ---- frames ----

  lemma FlightFrame(s: State, s': State, k: RunKey, o: nat, resumed: nat)
    requires FlightInv(s) && SafeInv(s') && Worked(s.runs, s'.runs, k, resumed) && OnlyObj(s, s', o)
    requires ChatOrder(s'.runs) && TasksRegistered(s')
    requires LiveObj(s', o) ==> OwnsUnfinished(s', o)
    requires k in s'.runs.runs && k !in s.runs.runs && s'.runs.runs[k].chatId.Some? ==>
               LiveObj(s, o) && RunOfChat(s', k, s.objs[o].chat)
    ensures FlightInv(s')
  {
    forall p | LiveObj(s', p) ensures OwnsUnfinished(s', p) {
      if p != o {
        assert LiveObj(s, p) && OwnsUnfinished(s, p);
        assert IsRegistered(s, p) && (LiveObj(s, o) ==> IsRegistered(s, o));
        forall j | RunOfChat(s', j, s'.objs[p].chat) && Unfinished(s'.runs, j) ensures s'.objs[p].runId == Some(j.1) {
          assert j in s.runs.runs ==> RunOfChat(s, j, s.objs[p].chat) && Unfinished(s.runs, j);
        }
      }
    }
  }

  /** Work on one run that is alone in its chat, no task touched. */
  lemma RunOnlyFlight(s: State, s': State, k: RunKey, resumed: nat)
    requires FlightInv(s) && SafeInv(s') && Worked(s.runs, s'.runs, k, resumed)
    requires s'.objs == s.objs && s'.registry == s.registry
    requires k in s'.runs.runs && s'.runs.runs[k].chatId.Some? ==> k in s.runs.runs && AloneIn(s.runs, s'.runs, k)
    ensures FlightInv(s')
  {
    var o := FreshObj(s);
    assert AloneIn(s.runs, s'.runs, k);
    WorkedOrder(s.runs, s'.runs, k, resumed);
    assert TasksRegistered(s') by { forall p | LiveObj(s', p) ensures IsRegistered(s', p) { assert LiveObj(s, p); } }
    FlightFrame(s, s', k, o, resumed);
  }

  /** An unfinished run is alone in its chat. */
  lemma UnfinishedAlone(s: State, d': Runs, k: RunKey)
    requires FlightInv(s) && Unfinished(s.runs, k)
    requires k in d'.runs && d'.runs[k].chatId == s.runs.runs[k].chatId
    requires forall j :: j != k && j in d'.runs ==> j in s.runs.runs && d'.runs[j] == s.runs.runs[j]
    ensures AloneIn(s.runs, d', k)
  {
    forall j | j != k && SameChat(d', k, j) ensures !Unfinished(s.runs, j) { assert SameChat(s.runs, k, j); }
  }

  /** So is the run a live task works on. */
  lemma TaskRunAlone(s: State, d': Runs, k: RunKey, o: nat)
    requires FlightInv(s) && LiveObj(s, o) && s.objs[o].runId == Some(k.1) && s.objs[o].chat.0 == k.0
    requires k in d'.runs && k in s.runs.runs && d'.runs[k].chatId == s.runs.runs[k].chatId
    requires forall j :: j != k && j in d'.runs ==> j in s.runs.runs && d'.runs[j] == s.runs.runs[j]
    ensures AloneIn(s.runs, d', k)
  {
    var c := s.objs[o].chat;
    assert ObjFine(s, o) && OwnsUnfinished(s, o);
    assert RunOfChat(s, k, c);
    forall j | j != k && SameChat(d', k, j) ensures !Unfinished(s.runs, j) {
      assert RunFine(s, j) && RunFine(s, k);
      assert RunOfChat(s, j, c);
    }
  }

  // ---- the steps ----

  lemma TaskStepFlight(s: State, o: nat, out: Outcome)
    requires FlightInv(s) && HasRun(s, o) && Suspended(s.objs[o])
    ensures FlightInv(TaskOutcome(s, o, out))
  {
    TaskStepSafe(s, o, out);
    MovedFlight(s, TaskOutcome(s, o, out), o);
  }

  lemma MovedFlight(s: State, s': State, o: nat)
    requires FlightInv(s) && SafeInv(s') && TaskMoved(s, s', o) && Suspended(s.objs[o])
    ensures FlightInv(s')
  {
    var k := RunOf(s, o);
    assert LiveObj(s, o) && IsRegistered(s, o) && OwnsUnfinished(s, o);
    TaskRunAlone(s, s'.runs, k, o);
    WorkedOrder(s.runs, s'.runs, k, 0);
    forall p | LiveObj(s', p) ensures IsRegistered(s', p) { assert LiveObj(s, p) && IsRegistered(s, p); }
    OwnsAfterWork(s, s', k, o, 0);
    FlightFrame(s, s', k, o, 0);
  }

  /** Work on a run leaves what its task owns. */
  lemma OwnsAfterWork(s: State, s': State, k: RunKey, o: nat, resumed: nat)
    requires o in s.objs && OwnsUnfinished(s, o) && Worked(s.runs, s'.runs, k, resumed)
    requires o in s'.objs && s'.objs[o].chat == s.objs[o].chat
    requires s.objs[o].runId == s'.objs[o].runId || s.objs[o].runId.None?
    requires s'.objs[o].runId == Some(k.1)
    ensures OwnsUnfinished(s', o)
  {
    forall j | RunOfChat(s', j, s'.objs[o].chat) && Unfinished(s'.runs, j) ensures s'.objs[o].runId == Some(j.1) {
      if j != k {
        assert RunOfChat(s, j, s.objs[o].chat) && Unfinished(s.runs, j);
      }
    }
  }

  /** Neither runs nor tasks changed. */
  lemma SameTasksFlight(s: State, s': State)
    requires FlightInv(s) && SafeInv(s') && s'.runs.runs == s.runs.runs
    requires s'.objs == s.objs && s'.registry == s.registry
    ensures FlightInv(s')
  {
    forall i, j | Unfinished(s'.runs, i) && i != j && SameChat(s'.runs, i, j)
      ensures !Unfinished(s'.runs, j) && s'.runs.runs[j].updatedAt < s'.runs.runs[i].updatedAt
    {
      assert SameChat(s.runs, i, j) && Unfinished(s.runs, i);
    }
    forall p | LiveObj(s', p) ensures IsRegistered(s', p) && OwnsUnfinished(s', p) {
      assert LiveObj(s, p) && IsRegistered(s, p) && OwnsUnfinished(s, p);
      forall j | RunOfChat(s', j, s'.objs[p].chat) && Unfinished(s'.runs, j) ensures s'.objs[p].runId == Some(j.1) {
        assert RunOfChat(s, j, s.objs[p].chat) && Unfinished(s.runs, j);
      }
    }
  }

  lemma ChatStatusFlight(s: State, c: ChatKey, st: AgentRunStatus)
    requires FlightInv(s)
    ensures FlightInv(WithChatStatus(s, c, st))
  {
    ChatStatusSafe(s, c, st);
    SameTasksFlight(s, WithChatStatus(s, c, st));
  }

  lemma TakenOverFlight(s: State, o: nat, d: Runs, runId: string, resumed: nat)
    requires FlightInv(s) && LiveObj(s, o) && s.objs[o].phase.Scheduled?
    requires var k := (s.objs[o].chat.0, runId);
             && Worked(s.runs, d, k, resumed) && k in d.runs
             && RunOfChat(s.(runs := d), k, s.objs[o].chat)
             && ((s.objs[o].runId == Some(runId) && k in s.runs.runs) || (s.objs[o].runId.None? && k !in s.runs.runs))
    requires SafeInv(TakenOver(s, o, d, runId))
    ensures FlightInv(TakenOver(s, o, d, runId))
  {
    var s', k, c := TakenOver(s, o, d, runId), (s.objs[o].chat.0, runId), s.objs[o].chat;
    assert IsRegistered(s, o) && OwnsUnfinished(s, o) && ObjFine(s, o);
    forall j | j != k && SameChat(d, k, j) ensures !Unfinished(s.runs, j) {
      assert RunFine(s, j) && RunFine(s', j) && RunFine(s', k);
      assert RunOfChat(s, j, c);
    }
    WorkedOrder(s.runs, d, k, resumed);
    forall p | LiveObj(s', p) ensures IsRegistered(s', p) { assert LiveObj(s, p) && IsRegistered(s, p); }
    OwnsAfterWork(s, s', k, o, resumed);
    FlightFrame(s, s', k, o, resumed);
  }

  lemma FirstStepFlight(s: State, o: nat, id: string)
    requires FlightInv(s) && Enabled(s, FirstStep(o, id))
    ensures FlightInv(Begin(s, o, id))
  {
    var r := s.objs[o];
    var (pid, uid, chat) := r.chat;
    assert ObjFine(s, o) && LiveObj(s, o);
    FirstStepSafe(s, o, id);
    if r.resumes.Some? {
      var k := (pid, r.resumes.value);
      assert RunOfChat(s, k, r.chat) && RunFine(s, k);
      if s.runs.runs[k].status == WaitingApproval {
        TransitionRuns(s.runs, k, Running, "");
        TransitionWorks(s.runs, k, Running, "");
        OpenedFlight(s, o, TryTransition(s.runs, k, Running, ""), r.resumes.value, 1);
      } else {
        NothingWorked(s.runs, k);
        OpenedFlight(s, o, s.runs, r.resumes.value, 0);
      }
    } else {
      BeginWorks(s.runs, pid, id, uid, Chat, Some(chat), None, None);
      OpenedFlight(s, o, BeginRun(s.runs, pid, id, uid, Chat, Some(chat), None, None), id, 0);
    }
  }

  lemma OpenedFlight(s: State, o: nat, d: Runs, runId: string, resumed: nat)
    requires FlightInv(s) && LiveObj(s, o) && s.objs[o].phase.Scheduled?
    requires s.objs[o].resumes.Some? ==> s.objs[o].resumes == Some(runId)
    requires resumed <= (if s.objs[o].resumes.Some? then 1 else 0)
    requires var k := (s.objs[o].chat.0, runId);
             && Worked(s.runs, d, k, resumed) && k in d.runs
             && d.runs[k].status != Created && d.runs[k].status != Queued
             && RunOfChat(s.(runs := d), k, s.objs[o].chat)
             && ((s.objs[o].runId == Some(runId) && k in s.runs.runs) || (s.objs[o].runId.None? && k !in s.runs.runs))
    ensures FlightInv(Opened(s.(runs := d), o, runId))
  {
    var s1, c := TakenOver(s, o, d, runId), s.objs[o].chat;
    TakenOverSafe(s, o, d, runId, resumed);
    TakenOverFlight(s, o, d, runId, resumed);
    if c in s.chats {
      ChatStatusSafe(s1, c, InProgress);
      SameTasksFlight(s1, WithChatStatus(s1, c, InProgress));
    } else {
      var s2 := Raised(s1, o, OtherError, Missing(c));
      assert RunFine(s1, RunOf(s1, o));
      RaisedMoves(s1, o, OtherError, Missing(c));
      MovedSafe(s1, s2, o);
      MovedFlight(s1, s2, o);
    }
  }

  /** A change of a task object that keeps its chat, its run and whether it is live. */
  lemma ObjFlight(s: State, o: nat, r: ChatRun)
    requires FlightInv(s) && o in s.objs && SafeInv(s.(objs := s.objs[o := r]))
    requires r.chat == s.objs[o].chat && r.runId == s.objs[o].runId && (Live(r) ==> Live(s.objs[o]))
    ensures FlightInv(s.(objs := s.objs[o := r]))
  {
    var s' := s.(objs := s.objs[o := r]);
    var k: RunKey := (r.chat.0, "");
    NothingWorked(s.runs, k);
    forall p | LiveObj(s', p) ensures IsRegistered(s', p) { assert LiveObj(s, p) && IsRegistered(s, p); }
    if Live(r) {
      assert LiveObj(s, o) && OwnsUnfinished(s, o);
      forall j | RunOfChat(s', j, r.chat) && Unfinished(s'.runs, j) ensures r.runId == Some(j.1) {
        assert RunOfChat(s, j, s.objs[o].chat);
      }
    }
    FlightFrame(s, s', k, o, 0);
  }

  /** A new task object, where no live task of the chat is registered. */
  lemma AddedFlight(s: State, c: ChatKey, o: nat, r: ChatRun)
    requires FlightInv(s) && o !in s.objs && r.chat == c
    requires c in s.registry ==> !LiveObj(s, s.registry[c])
    requires forall k :: RunOfChat(s, k, c) && Unfinished(s.runs, k) ==> r.runId == Some(k.1)
    requires SafeInv(s.(objs := s.objs[o := r], registry := s.registry[c := o]))
    ensures FlightInv(s.(objs := s.objs[o := r], registry := s.registry[c := o]))
  {
    var s' := s.(objs := s.objs[o := r], registry := s.registry[c := o]);
    var k: RunKey := (c.0, "");
    NothingWorked(s.runs, k);
    forall p | LiveObj(s', p) ensures IsRegistered(s', p) {
      if p != o { assert LiveObj(s, p) && IsRegistered(s, p); }
    }
    forall j | RunOfChat(s', j, c) && Unfinished(s'.runs, j) ensures r.runId == Some(j.1) {
      assert RunOfChat(s, j, c);
    }
    FlightFrame(s, s', k, o, 0);
  }

  /** Where the invariant holds, the 50-entry window misses no unfinished run. */
  lemma WindowExact(s: State, c: ChatKey)
    requires FlightInv(s)
    ensures var r := GetActiveRunForChat(s.runs, c.0, c.1, c.2);
            && (r.Some? <==> exists k :: RunOfChat(s, k, c) && Unfinished(s.runs, k))
            && (forall k :: RunOfChat(s, k, c) && Unfinished(s.runs, k) ==> r == Some(s.runs.runs[k]))
  {
    var r := GetActiveRunForChat(s.runs, c.0, c.1, c.2);
    ActiveRunSound(s.runs, c.0, c.1, c.2);
    if r.Some? { assert RunOfChat(s, (c.0, r.value.runId), c); }
    forall k | RunOfChat(s, k, c) && Unfinished(s.runs, k) ensures r == Some(s.runs.runs[k]) {
      forall j | j in s.runs.runs && j != k && j.0 == k.0 && s.runs.runs[j].chatId == Some(c.2)
        ensures s.runs.runs[j].updatedAt < s.runs.runs[k].updatedAt
      {
        assert SameChat(s.runs, k, j);
      }
      ActiveRunFound(s.runs, k, c.1, c.2);
    }
  }

  lemma StartFlight(s: State, c: ChatKey, o: nat, conv: Option<string>)
    requires FlightInv(s) && o !in s.objs && c in s.chats
    ensures FlightInv(Start(s, c, o, conv))
  {
    StartSafe(s, c, o, conv);
    WindowExact(s, c);
    if c !in s.registry && GetActiveRunForChat(s.runs, c.0, c.1, c.2).None? {
      AddedFlight(s, c, o, ChatRun(c, None, None, false, Scheduled, false, conv, ""));
    }
  }

  lemma TryFlight(s: State, k: RunKey, to: RunStatus, text: string)
    requires FlightInv(s) && to != Running && to != Created && to != Queued
    ensures FlightInv(s.(runs := TryTransition(s.runs, k, to, text)))
  {
    var d := TryTransition(s.runs, k, to, text);
    TrySafe(s, k, to, text);
    TryWorks(s.runs, k, to, text);
    if Unfinished(s.runs, k) {
      UnfinishedAlone(s, d, k);
      RunOnlyFlight(s, s.(runs := d), k, 0);
    } else {
      assert d == s.runs && s.(runs := d) == s;
    }
  }

  lemma CancelTaskFlight(s: State, c: ChatKey)
    requires FlightInv(s)
    ensures FlightInv(CancelChat(s, c))
  {
    CancelTaskSafe(s, c);
    if c in s.registry && s.registry[c] in s.objs {
      var o := s.registry[c];
      var r := s.objs[o];
      if r.runId.Some? {
        TryFlight(s, (c.0, r.runId.value), Cancelled, "");
        ObjFlight(s.(runs := TryTransition(s.runs, (c.0, r.runId.value), Cancelled, "")), o,
          r.(cancelRequested := true));
      } else {
        assert s.(runs := s.runs) == s;
        ObjFlight(s, o, r.(cancelRequested := true));
      }
    }
  }

  lemma OnlyUnfinished(s: State, k: RunKey, c: ChatKey)
    requires FlightInv(s) && Unfinished(s.runs, k) && RunOfChat(s, k, c)
    ensures forall j :: RunOfChat(s, j, c) && Unfinished(s.runs, j) ==> j == k
  {
    forall j | RunOfChat(s, j, c) && Unfinished(s.runs, j) ensures j == k {
      if j != k { assert SameChat(s.runs, k, j); }
    }
  }

  lemma ApproveInChatFlight(s: State, k: RunKey, o: nat, why: Option<string>, conv: Option<string>)
    requires FlightInv(s) && o !in s.objs && !TakesOverLive(s, ApproveInChat(k, o, why, conv))
    ensures FlightInv(ApproveChat(s, k, o, why, conv))
  {
    hide FlightInv, SafeInv, Granted, Resumed;
    if AwaitsDecision(s, k) && ChatOf(s, k).Some? {
      var c, s1 := ChatOf(s, k).value, Granted(s, k, s.runs.runs[k].uid, why);
      FlightIsSafe(s);
      GrantedSafe(s, k, s.runs.runs[k].uid, why);
      DecisionFrame(s, k, s.runs.runs[k].uid, why);
      SameTasksFlight(s, s1);
      NotTakenOver(s, s1, ApproveInChat(k, o, why, conv));
      ResumedBranches(s1, k, c, o, conv);
    }
  }

  lemma FlightIsSafe(s: State)
    requires FlightInv(s)
    ensures SafeInv(s)
  {
  }

  lemma NotTakenOver(s: State, s1: State, step: Step)
    requires step.ApproveInChat? && Enabled(s, step) && !TakesOverLive(s, step) && SameTasks(s, s1)
    requires AwaitsDecision(s, step.run) && ChatOf(s, step.run).Some?
    ensures var c := ChatOf(s, step.run).value;
            c in s1.chats && c in s1.registry && LiveObj(s1, s1.registry[c]) ==>
              s1.objs[s1.registry[c]].runId != Some(step.run.1)
  {
    hide AwaitsDecision;
  }

  lemma ResumedBranches(s: State, k: RunKey, c: ChatKey, o: nat, conv: Option<string>)
    requires FlightInv(s) && o !in s.objs && RunOfChat(s, k, c) && Unfinished(s.runs, k)
    requires c in s.chats && c in s.registry && LiveObj(s, s.registry[c]) ==> s.objs[s.registry[c]].runId != Some(k.1)
    requires ResumptionsOf(s.runs, k) + |PendingResumes(s, k)| + 1 <= |ApprovedRequests(s.ledger, k)|
    ensures FlightInv(Resumed(s, k, c, o, conv))
  {
    assert c in s.registry ==> EntryFine(s, c);
    hide FlightInv, SafeInv, Registered;
    if c in s.chats && (c in s.registry ==> s.objs[s.registry[c]].runId == Some(k.1)) {
      OnlyUnfinished(s, k, c);
      ResumedFlight(s, k, c, o, conv);
    }
  }

  /** Registering the resumed task over no entry, or over one whose task is dead. */
  lemma ResumedFlight(s: State, k: RunKey, c: ChatKey, o: nat, conv: Option<string>)
    requires FlightInv(s) && o !in s.objs && RunOfChat(s, k, c)
    requires c in s.registry ==> s.registry[c] in s.objs && !LiveObj(s, s.registry[c])
    requires c in s.registry ==> !s.objs[s.registry[c]].phase.Ended?
    requires forall j :: RunOfChat(s, j, c) && Unfinished(s.runs, j) ==> j == k
    requires ResumptionsOf(s.runs, k) + |PendingResumes(s, k)| + 1 <= |ApprovedRequests(s.ledger, k)|
    ensures c !in s.registry ==> FlightInv(Registered(s, c, o, k.1, Scheduled, conv))
    ensures c in s.registry ==>
              var prev := s.registry[c];
              FlightInv(Registered(s.(objs := s.objs[prev := s.objs[prev].(cancelRequested := true)]), c, o, k.1,
                Unscheduled(TaskOf(s, prev)), conv))
  {
    if c in s.registry {
      var prev := s.registry[c];
      var r := s.objs[prev].(cancelRequested := true);
      var s2 := s.(objs := s.objs[prev := r]);
      ObjOnlySafe(s, prev, r);
      ObjFlight(s, prev, r);
      TakeoverSafe(s, k, c, prev, o, conv);
      forall j | RunOfChat(s2, j, c) && Unfinished(s2.runs, j) ensures j == k { assert RunOfChat(s, j, c); }
      AddedFlight(s2, c, o, ChatRun(c, Some(k.1), Some(k.1), false, Unscheduled(TaskOf(s, prev)), false, conv, ""));
    } else {
      RegisteredSafe(s, k, c, o, Scheduled, conv);
      AddedFlight(s, c, o, ChatRun(c, Some(k.1), Some(k.1), false, Scheduled, false, conv, ""));
    }
  }

  lemma RejectFlight(s: State, k: RunKey, who: string, why: Option<string>, text: string)
    requires FlightInv(s) && AwaitsDecision(s, k)
    ensures var s1 := Refused(s, k, who, why);
            FlightInv(s1.(runs := TryTransition(s1.runs, k, Blocked, text)))
  {
    var s1 := Refused(s, k, who, why);
    RefusedSafe(s, k, who, why);
    SameTasksFlight(s, s1);
    TryFlight(s1, k, Blocked, text);
  }

  lemma RejectInChatFlight(s: State, k: RunKey, text: string)
    requires FlightInv(s)
    ensures FlightInv(RejectChat(s, k, text))
  {
    RejectInChatSafe(s, k, text);
    if AwaitsDecision(s, k) && ChatOf(s, k).Some? {
      var why := if text == "" then None else Some(text);
      var s1 := Refused(s, k, s.runs.runs[k].uid, why);
      RejectFlight(s, k, s.runs.runs[k].uid, why, RejectionText(text));
      ChatStatusFlight(s1.(runs := TryTransition(s1.runs, k, Blocked, RejectionText(text))), ChatOf(s, k).value, Idle);
    }
  }

  lemma DirectFlight(s: State, step: Step)
    requires FlightInv(s) && (step.ApproveDirect? || step.RejectDirect?)
    ensures step.ApproveDirect? ==> FlightInv(ApprovePlain(s, step.run, step.who, step.why))
    ensures step.RejectDirect? ==> FlightInv(RejectPlain(s, step.run, step.who, step.text))
  {
    match step {
      case ApproveDirect(k, who, why) =>
        ApproveDirectSafe(s, k, who, why);
        if AwaitsDecision(s, k) && ChatOf(s, k).None? {
          var s1 := Granted(s, k, who, why);
          GrantedSafe(s, k, who, why);
          SameTasksFlight(s, s1);
          TransitionRuns(s1.runs, k, Running, "");
          TransitionWorks(s1.runs, k, Running, "");
          RunOnlyFlight(s1, ApprovePlain(s, k, who, why), k, 1);
        }
      case RejectDirect(k, who, text) =>
        if AwaitsDecision(s, k) && ChatOf(s, k).None? {
          RejectFlight(s, k, who, if text == "" then None else Some(text), RejectionText(text));
        }
      case _ => assert false;
    }
  }

  // ---- the hook works on one run ----

  /** Work on `k` that stores no new run. */
  ghost predicate Noted(d: Runs, d': Runs, k: RunKey) { Worked(d, d', k, 0) && d'.runs.Keys == d.runs.Keys }

  /** The run was saved again, so it has a score that no other run had. */
  predicate Touched(d: Runs, d': Runs, k: RunKey) {
    k in d.runs ==> k in d'.runs && d.clock <= d'.runs[k].updatedAt
  }

  lemma NotedTwice(d: Runs, d1: Runs, d2: Runs, k: RunKey)
    requires Noted(d, d1, k) && Noted(d1, d2, k)
    ensures Noted(d, d2, k)
    ensures Touched(d, d1, k) ==> Touched(d, d2, k)
  {
    WorkedTwice(d, d1, d2, k, 0, 0);
  }

  lemma GateEventWorks(d: Runs, ctx: ToolContext, e: EventBody)
    requires RunsInv(d) && !e.RunStatusChanged? && !e.RunCompleted? && ctx.runId != ""
    ensures Noted(d, GateEvent(d, ctx, e), KeyOf(ctx)) && Touched(d, GateEvent(d, ctx, e), KeyOf(ctx))
  {
    AppendWorks(d, KeyOf(ctx), e);
  }

  lemma TwoGateEvents(d: Runs, ctx: ToolContext, e1: EventBody, e2: EventBody)
    requires RunsInv(d) && ctx.runId != ""
    requires !e1.RunStatusChanged? && !e1.RunCompleted? && !e2.RunStatusChanged? && !e2.RunCompleted?
    ensures var d' := GateEvent(GateEvent(d, ctx, e1), ctx, e2);
            Noted(d, d', KeyOf(ctx)) && Touched(d, d', KeyOf(ctx))
  {
    GateEventWorks(d, ctx, e1);
    GateEventWorks(GateEvent(d, ctx, e1), ctx, e2);
    NotedTwice(d, GateEvent(d, ctx, e1), GateEvent(GateEvent(d, ctx, e1), ctx, e2), KeyOf(ctx));
  }

  lemma GateWorks(gov: Governance, d: Runs, a: Ledger, ctx0: ToolContext, f: Fresh)
    requires RunsInv(d) && ctx0.runId != ""
    ensures var d' := Gate(gov, d, a, ctx0, f).0;
            Noted(d, d', KeyOf(ctx0)) && Touched(d, d', KeyOf(ctx0))
  {
    var ctx := WithRegistry(gov, ctx0);
    assert KeyOf(ctx) == KeyOf(ctx0);
    var v := Verdict(gov, ctx);
    if GrantKeyOf(ctx) in a.grants {
      GateEventWorks(d, ctx, DecisionEvent(ctx, Evaluation(Allow, GRANT_RULE)));
    } else {
      match v.decision
      case Allow => GateEventWorks(d, ctx, DecisionEvent(ctx, v));
      case Deny =>
        TwoGateEvents(d, ctx, DecisionEvent(ctx, v), ErrorEvent(POLICY_DENIED,
          DenyMessage(ctx.toolName, v.matchedRule)));
      case RequireApproval =>
        TwoGateEvents(d, ctx, DecisionEvent(ctx, v), ErrorEvent(APPROVAL_REQUIRED,
          ApprovalMessage(ctx.toolName, v.matchedRule)));
    }
  }

  lemma MarkedChatFrame(s: State, d: Runs, ctx: ToolContext)
    ensures var s' := MarkedChat(s, d, ctx);
            s'.objs == s.objs && s'.registry == s.registry && s'.runs == d
  {
  }

  lemma MarkWaitingWorks(s: State, ctx: ToolContext, message: string)
    requires RunsInv(s.runs)
    ensures var s' := MarkWaiting(s, ctx, message);
            Noted(s.runs, s'.runs, KeyOf(ctx)) && s'.objs == s.objs && s'.registry == s.registry
  {
    MarkedChatFrame(s, MarkedWaiting(s.runs, KeyOf(ctx), message), ctx);
    NothingWorked(s.runs, KeyOf(ctx));
    TryWorks(s.runs, KeyOf(ctx), WaitingApproval, Truncated(message, 500));
    assert Noted(s.runs, MarkedWaiting(s.runs, KeyOf(ctx), message), KeyOf(ctx));
  }

  lemma HookWorks(gov: Governance, s: State, ctx: ToolContext, f: Fresh)
    requires RunsInv(s.runs) && ctx.toolName != "" && ctx.runId != ""
    ensures var s' := Hook(gov, s, ctx, f);
            && Noted(s.runs, s'.runs, KeyOf(ctx)) && Touched(s.runs, s'.runs, KeyOf(ctx))
            && s'.objs == s.objs && s'.registry == s.registry
  {
    var (d, a, r) := Gate(gov, s.runs, s.ledger, ctx, f);
    var s1 := s.(runs := d, ledger := a);
    GateWorks(gov, s.runs, s.ledger, ctx, f);
    if r.waitingApproval {
      MarkWaitingWorks(s1, ctx, r.message);
      NotedTwice(s.runs, d, MarkWaiting(s1, ctx, r.message).runs, KeyOf(ctx));
    }
  }

  /** An event step works on one run, whose score it renews. */
  lemma EventStepWorks(gov: Governance, s: State, step: Step, k: RunKey)
    requires RunsInv(s.runs) && Enabled(s, step) && EventRun(step, k)
    ensures var s' := Effect(gov, s, step);
            && Noted(s.runs, s'.runs, k) && Touched(s.runs, s'.runs, k)
            && s'.objs == s.objs && s'.registry == s.registry
  {
    if step.ToolCallHook? {
      HookWorks(gov, s, step.ctx, step.ids);
    } else {
      AppendWorks(s.runs, step.run, step.event);
    }
  }

  lemma EventFlight(gov: Governance, s: State, step: Step, k: RunKey)
    requires FlightInv(s) && Enabled(s, step) && EventRun(step, k) && SafeInv(Effect(gov, s, step))
    requires !LateEvent(s, step)
    ensures FlightInv(Effect(gov, s, step))
  {
    var s' := Effect(gov, s, step);
    EventStepWorks(gov, s, step, k);
    forall j | j != k && SameChat(s'.runs, k, j) ensures !Unfinished(s.runs, j) {
      assert SameChat(s.runs, k, j);
    }
    RunOnlyFlight(s, s', k, 0);
  }

  // ---- the remaining steps ----

  /** A restart drops every task and, since no run is CREATED or QUEUED, leaves none unfinished. */
  lemma RestartFlight(s: State, ks: seq<RunKey>, text: string)
    requires FlightInv(s) && forall k :: k in s.runs.runs ==> k in ks
    ensures FlightInv(s.(runs := FailOrphans(s.runs, ks, text), objs := map[], registry := map[]))
  {
    var s' := s.(runs := FailOrphans(s.runs, ks, text), objs := map[], registry := map[]);
    RestartSafe(s, ks, text);
    RecoveryExact(s.runs, ks, text);
    forall k ensures !Unfinished(s'.runs, k) {
      if k in s'.runs.runs { assert RunFine(s, k) && Recovery(s.runs.runs[k], s'.runs.runs[k], k in ks); }
    }
  }

  lemma TicketBeginFlight(s: State, k: RunKey, uid: string, src: RunSource, job: Option<string>, ticket: Option<string>)
    requires FlightInv(s) && FreshRun(s, k)
    ensures FlightInv(s.(runs := BeginRun(s.runs, k.0, k.1, uid, src, None, job, ticket)))
  {
    TicketBeginSafe(s, k, uid, src, job, ticket);
    BeginWorks(s.runs, k.0, k.1, uid, src, None, job, ticket);
    RunOnlyFlight(s, s.(runs := BeginRun(s.runs, k.0, k.1, uid, src, None, job, ticket)), k, 0);
  }

  lemma HookFlight(gov: Governance, s: State, step: Step)
    requires FlightInv(s) && Enabled(s, step) && step.ToolCallHook? && !LateEvent(s, step)
    ensures FlightInv(Effect(gov, s, step))
  {
    HookSafe(gov, s, step.ctx, step.ids);
    if step.ctx.toolName != "" && step.ctx.runId != "" {
      EventFlight(gov, s, step, KeyOf(step.ctx));
    } else {
      SameTasksFlight(s, Effect(gov, s, step));
    }
  }

  lemma TaskSideFlight(gov: Governance, s: State, step: Step)
    requires FlightInv(s) && Enabled(s, step) && IsTaskStep(step) && !TakesOverLive(s, step)
    ensures FlightInv(Effect(gov, s, step))
  {
    TaskSideSafe(gov, s, step);
    match step {
      case StartTask(c, o, conv) => StartFlight(s, c, o, conv);
      case FirstStep(o, id) => FirstStepFlight(s, o, id);
      case CancelledBeforeFirstStep(o) => ObjFlight(s, o, s.objs[o].(phase := NeverRan));
      case TaskStep(o, out) => assert ObjFine(s, o); TaskStepFlight(s, o, out);
      case CancelTask(c) => CancelTaskFlight(s, c);
      case ApproveInChat(k, o, why, conv) => ApproveInChatFlight(s, k, o, why, conv);
      case ResumeTail(o) => ObjFlight(s, o, s.objs[o].(phase := Scheduled));
      case _ => assert false;
    }
  }

  lemma OtherSideFlight(gov: Governance, s: State, step: Step)
    requires FlightInv(s) && Enabled(s, step) && !IsTaskStep(step) && !LateEvent(s, step)
    ensures FlightInv(Effect(gov, s, step))
  {
    match step {
      case CreateChat(c) => ChatsSafe(s, c); SameTasksFlight(s, Effect(gov, s, step));
      case DeleteChat(c) => ChatsSafe(s, c); SameTasksFlight(s, Effect(gov, s, step));
      case RejectInChat(k, text) => RejectInChatFlight(s, k, text);
      case ApproveDirect(k, who, why) => DirectFlight(s, step);
      case RejectDirect(k, who, text) => DirectFlight(s, step);
      case CancelDirect(k) => TryFlight(s, k, Cancelled, "");
      case ToolCallHook(ctx, f) => HookFlight(gov, s, step);
      case AgentEvent(k, e) => EventSafe(s, k, e); EventFlight(gov, s, step, k);
      case TicketBegin(k, uid, src, job, ticket) => TicketBeginFlight(s, k, uid, src, job, ticket);
      case TicketEnd(k, st, err) => TryFlight(s, k, st, err);
      case Restart(ks, text) => RestartFlight(s, ks, text);
      case _ => assert false;
    }
  }

  lemma QuietStepFlight(gov: Governance, s: State, step: Step)
    requires FlightInv(s) && QuietStep(s, step)
    ensures FlightInv(Next(gov, s, step))
  {
    if Enabled(s, step) {
      if IsTaskStep(step) { TaskSideFlight(gov, s, step); } else { OtherSideFlight(gov, s, step); }
    }
  }

  // ---- the theorems ----

  lemma OneLive(s: State)
    requires FlightInv(s)
    ensures AtMostOneLive(s)
  {
    forall o, p | LiveObj(s, o) && LiveObj(s, p) && s.objs[o].chat == s.objs[p].chat ensures o == p {
      assert IsRegistered(s, o) && IsRegistered(s, p);
    }
  }

  lemma {:induction false} QuietFlight(gov: Governance, steps: seq<Step>)
    requires Quiet(gov, steps)
    ensures FlightInv(Exec(gov, steps))
  {
    if steps == [] {
      InitSafe();
    } else {
      var n := |steps| - 1;
      QuietFlight(gov, steps[..n]);
      QuietStepFlight(gov, Exec(gov, steps[..n]), steps[n]);
    }
  }

  /** Single flight: in every run of the system in which no resume finds a live task and no event
      reaches an old run of a chat that has an unfinished one, a chat has at most one live task and
      at most one unfinished run, that run has the greatest score of its chat, and the 50-entry
      window finds exactly what a scan of all runs would find. */
  lemma AlwaysSingleFlight(gov: Governance, steps: seq<Step>)
    requires Quiet(gov, steps)
    ensures var s := Exec(gov, steps);
            && AtMostOneLive(s) && ChatOrder(s.runs)
            && (forall c: ChatKey ::
                  var r := GetActiveRunForChat(s.runs, c.0, c.1, c.2);
                  && (r.Some? <==> exists k :: RunOfChat(s, k, c) && Unfinished(s.runs, k))
                  && (forall k :: RunOfChat(s, k, c) && Unfinished(s.runs, k) ==> r == Some(s.runs.runs[k])))
  {
    QuietFlight(gov, steps);
    var s := Exec(gov, steps);
    OneLive(s);
    forall c: ChatKey
      ensures var r := GetActiveRunForChat(s.runs, c.0, c.1, c.2);
              && (r.Some? <==> exists k :: RunOfChat(s, k, c) && Unfinished(s.runs, k))
              && (forall k :: RunOfChat(s, k, c) && Unfinished(s.runs, k) ==> r == Some(s.runs.runs[k]))
    {
      WindowExact(s, c);
    }
  }

  /** The resume that finds a live task leaves two live tasks in the chat. */
  lemma TakeoverBreaks(gov: Governance, s: State, step: Step)
    requires SafeInv(s) && TakesOverLive(s, step)
    ensures !AtMostOneLive(Next(gov, s, step))
  {
    var k, o := step.run, step.obj;
    var c := ChatOf(s, k).value;
    var prev := s.registry[c];
    assert EntryFine(s, c);
    var s' := Next(gov, s, step);
    assert s' == ApproveChat(s, k, o, step.why, step.conv);
    assert LiveObj(s', prev) && LiveObj(s', o) && s'.objs[prev].chat == c == s'.objs[o].chat;
  }

  /** The late event gives the old run a greater score than the unfinished one. */
  lemma LateEventBreaks(gov: Governance, s: State, step: Step)
    requires SafeInv(s) && LateEvent(s, step)
    ensures !ChatOrder(Next(gov, s, step).runs)
  {
    var k, j :| EventRun(step, k) && k != j && SameChat(s.runs, k, j) && Unfinished(s.runs, j);
    EventStepWorks(gov, s, step, k);
    var d' := Next(gov, s, step).runs;
    assert Listed(s.runs, j);
    assert SameChat(d', j, k) && Unfinished(d', j);
  }

  /** Where single flight holds, a step keeps it exactly when it is quiet. */
  lemma FlightKeptExactly(gov: Governance, s: State, step: Step)
    requires FlightInv(s)
    ensures var s' := Next(gov, s, step);
            AtMostOneLive(s') && ChatOrder(s'.runs) <==> QuietStep(s, step)
  {
    if TakesOverLive(s, step) {
      TakeoverBreaks(gov, s, step);
    } else if LateEvent(s, step) {
      LateEventBreaks(gov, s, step);
    } else {
      QuietStepFlight(gov, s, step);
      OneLive(Next(gov, s, step));
    }
  }
}
