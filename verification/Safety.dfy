/** What every step of the protocol keeps, whoever takes it and in whatever order. */
module Safety {
  import opened Wrappers
  import opened RunModel
  import opened ZSets
  import opened RunDb
  import opened Approvals
  import opened Policy
  import opened World
  import opened Settling

  // ---- the invariant, part by part ----

  /** The task of `o` is suspended inside the engine with run `k`. */
  predicate Drives(s: State, o: nat, k: RunKey) {
    o in s.objs && Suspended(s.objs[o]) && s.objs[o].chat.0 == k.0 && s.objs[o].runId == Some(k.1)
  }

  /** A run is begun, a chat run belongs to the user of its chat, and one that is RUNNING is
      driven by a task. */
  ghost predicate RunFine(s: State, k: RunKey) {
    && Begun(s, k)
    && var r := s.runs.runs[k];
       (r.chatId.Some? ==>
         && (k.0, r.chatId.value) in s.owners && s.owners[(k.0, r.chatId.value)] == r.uid
         && (r.status == Running ==> exists o :: Drives(s, o, k)))
  }

  predicate RunOfChat(s: State, k: RunKey, c: ChatKey) {
    k in s.runs.runs && k.0 == c.0 && s.runs.runs[k].uid == c.1 && s.runs.runs[k].chatId == Some(c.2)
  }

  predicate OwnedChat(s: State, c: ChatKey) { (c.0, c.2) in s.owners && s.owners[(c.0, c.2)] == c.1 }

  predicate ObjFine(s: State, o: nat)
    requires o in s.objs
  {
    var r := s.objs[o];
    && OwnedChat(s, r.chat)
    && (Suspended(r) ==> r.runId.Some?)
    && (r.resumes.Some? ==> r.runId == r.resumes)
    && (r.resumes.None? && (r.phase.Scheduled? || r.phase.Unscheduled?) ==> r.runId.None?)
    && (r.runId.Some? ==> RunOfChat(s, (r.chat.0, r.runId.value), r.chat))
  }

  predicate EntryFine(s: State, c: ChatKey)
    requires c in s.registry
  {
    s.registry[c] in s.objs && s.objs[s.registry[c]].chat == c && !s.objs[s.registry[c]].phase.Ended?
  }

  function ApprovedRequests(a: Ledger, k: RunKey): set<ApprovalKey> {
    set q | q in a.requests && a.requests[q].status == Approved && q.0 == k.0 && a.requests[q].runId == k.1
  }

  /** Tasks created by an approval of run `k` that have not taken their first step. */
  function PendingResumes(s: State, k: RunKey): set<nat> {
    set o | o in s.objs && s.objs[o].resumes == Some(k.1) && s.objs[o].chat.0 == k.0
            && (s.objs[o].phase.Scheduled? || s.objs[o].phase.Unscheduled?)
  }

  /** Every resumption of a run was earned by an approval of its own. */
  ghost predicate ResumeFine(s: State, k: RunKey) {
    ResumptionsOf(s.runs, k) + |PendingResumes(s, k)| <= |ApprovedRequests(s.ledger, k)|
  }

  ghost predicate RunsFine(s: State) { forall k {:trigger RunFine(s, k)} :: k in s.runs.runs ==> RunFine(s, k) }
  ghost predicate ObjsFine(s: State) { forall o {:trigger ObjFine(s, o)} :: o in s.objs ==> ObjFine(s, o) }
  ghost predicate EntriesFine(s: State) { forall c {:trigger EntryFine(s, c)} :: c in s.registry ==> EntryFine(s, c) }
  ghost predicate ChatsFine(s: State) { forall c :: c in s.chats ==> OwnedChat(s, c) }
  ghost predicate ResumesFine(s: State) { forall k {:trigger ResumeFine(s, k)} :: ResumeFine(s, k) }

  ghost predicate SafeInv(s: State) {
    && RunsInv(s.runs) && LedgerInv(s.ledger)
    && RunsFine(s) && ObjsFine(s) && EntriesFine(s) && ChatsFine(s) && ResumesFine(s)
  }

  lemma SafeStores(s: State)
    requires SafeInv(s)
    ensures RunsInv(s.runs) && LedgerInv(s.ledger)
  {
  }

  lemma InitSafe()
    ensures SafeInv(INIT)
  {
  }

  // ---- frames ----

  /** Every run stays as it is, and what drives it drives it still. */
  lemma SameRunsFine(s: State, s': State)
    requires RunsFine(s) && s'.runs.runs == s.runs.runs && OwnersGrow(s, s')
    requires forall o, k :: Drives(s, o, k) ==> Drives(s', o, k)
    ensures RunsFine(s')
  {
    forall k | k in s'.runs.runs ensures RunFine(s', k) {
      assert RunFine(s, k);
      if s.runs.runs[k].chatId.Some? && s.runs.runs[k].status == Running {
        var o :| Drives(s, o, k);
        assert Drives(s', o, k);
      }
    }
  }

  ghost predicate OwnersGrow(s: State, s': State) {
    forall x :: x in s.owners ==> x in s'.owners && s'.owners[x] == s.owners[x]
  }

  /** A step that works on run `k` and task object `o` and on no other. */
  ghost predicate Touches(s: State, s': State, k: RunKey, o: nat, resumed: nat) {
    && Worked(s.runs, s'.runs, k, resumed) && OnlyObj(s, s', o) && OwnersGrow(s, s')
    && (o in s.objs ==> o in s'.objs && s'.objs[o].chat == s.objs[o].chat)
    // if `o` drove a run, it drives it still, or that run is the one worked on
    && (o in s.objs && Suspended(s.objs[o]) ==>
         (Suspended(s'.objs[o]) && s'.objs[o].runId == s.objs[o].runId) || Drives(s, o, k))
  }

  lemma TouchedRuns(s: State, s': State, k: RunKey, o: nat, resumed: nat)
    requires RunsFine(s) && Touches(s, s', k, o, resumed)
    requires k in s'.runs.runs ==> RunFine(s', k)
    ensures RunsFine(s')
  {
    forall j | j in s'.runs.runs ensures RunFine(s', j) {
      if j != k {
        assert RunFine(s, j);
        var r := s.runs.runs[j];
        if r.chatId.Some? && r.status == Running {
          var p :| Drives(s, p, j);
          assert Drives(s', p, j);
        }
      }
    }
  }

  lemma TouchedObjs(s: State, s': State, k: RunKey, o: nat, resumed: nat)
    requires ObjsFine(s) && Touches(s, s', k, o, resumed)
    requires o in s'.objs ==> ObjFine(s', o)
    ensures ObjsFine(s')
  {
    forall p | p in s'.objs ensures ObjFine(s', p) {
      if p != o {
        assert ObjFine(s, p);
        var r := s.objs[p];
        if r.runId.Some? { assert RunOfChat(s, (r.chat.0, r.runId.value), r.chat); }
      }
    }
  }

  lemma TouchedResumes(s: State, s': State, k: RunKey, o: nat)
    requires ResumesFine(s) && Touches(s, s', k, o, 0)
    requires s'.ledger == s.ledger
    requires o in s'.objs && s'.objs[o].resumes.Some? ==> o in s.objs && s'.objs[o].resumes == s.objs[o].resumes
    requires o in s'.objs && s'.objs[o].resumes.Some? && s'.objs[o].phase.Scheduled? ==>
               s.objs[o].phase.Scheduled? || s.objs[o].phase.Unscheduled?
    requires o in s'.objs && s'.objs[o].resumes.Some? ==> !s'.objs[o].phase.Unscheduled? || s.objs[o].phase.Unscheduled?
    ensures ResumesFine(s')
  {
    forall j ensures ResumeFine(s', j) {
      assert ResumeFine(s, j);
      SubsetSize(PendingResumes(s', j), PendingResumes(s, j));
    }
  }

  lemma {:induction false} SubsetSize<T>(A: set<T>, B: set<T>)
    requires A <= B
    ensures |A| <= |B|
    decreases A
  {
    if A != {} {
      var x :| x in A;
      SubsetSize(A - {x}, B - {x});
    }
  }

  // ---- the steps of a task ----

  lemma TaskStepSafe(s: State, o: nat, out: Outcome)
    requires SafeInv(s) && HasRun(s, o) && Suspended(s.objs[o])
    ensures SafeInv(TaskOutcome(s, o, out)) && TaskMoved(s, TaskOutcome(s, o, out), o)
  {
    assert ObjFine(s, o);
    assert RunFine(s, RunOf(s, o));
    TaskOutcomeMoves(s, o, out);
    MovedSafe(s, TaskOutcome(s, o, out), o);
  }

  lemma MovedSafe(s: State, s': State, o: nat)
    requires SafeInv(s) && TaskMoved(s, s', o) && Suspended(s.objs[o])
    ensures SafeInv(s')
  {
    var k := RunOf(s, o);
    assert ObjFine(s, o) && RunFine(s, k) && RunsInv(s'.runs);
    hide RunsInv, LedgerInv, AuditsOk, IndexOk;
    assert Drives(s, o, k);
    assert Touches(s, s', k, o, 0);
    hide Worked;
    assert RunFine(s', k) by {
      if s'.objs[o].phase != Ended { assert Drives(s', o, k); }
    }
    TouchedRuns(s, s', k, o, 0);
    TouchedObjs(s, s', k, o, 0);
    TouchedResumes(s, s', k, o);
    hide Touches, RunFine, ObjFine;
    forall c | c in s'.registry ensures EntryFine(s', c) { assert EntryFine(s, c); }
  }

  /** A chat's status is no part of the invariant. */
  lemma ChatStatusSafe(s: State, c: ChatKey, st: AgentRunStatus)
    requires SafeInv(s)
    ensures SafeInv(WithChatStatus(s, c, st))
  {
    var s' := WithChatStatus(s, c, st);
    SameStores(s, s');
  }

  /** Only the chats changed. */
  lemma SameStores(s: State, s': State)
    requires SafeInv(s) && ChatsFine(s')
    requires s'.runs == s.runs && s'.ledger == s.ledger && OwnersGrow(s, s')
    requires s'.objs == s.objs && s'.registry == s.registry
    ensures SafeInv(s')
  {
    SameRunsFine(s, s');
    forall o | o in s'.objs ensures ObjFine(s', o) { assert ObjFine(s, o); }
    forall c | c in s'.registry ensures EntryFine(s', c) { assert EntryFine(s, c); }
    forall k ensures ResumeFine(s', k) {
      assert ResumeFine(s, k);
      assert PendingResumes(s', k) == PendingResumes(s, k);
    }
  }

  /** The state in which `o` has just taken its run over. */
  function TakenOver(s: State, o: nat, d: Runs, runId: string): State
    requires o in s.objs
  {
    s.(runs := d, objs := s.objs[o := s.objs[o].(runId := Some(runId), phase := AwaitingChunk)])
  }

  /** A task that takes its run over was pending until now. */
  lemma PendingTaken(s: State, o: nat, d: Runs, runId: string, j: RunKey)
    requires o in s.objs && s.objs[o].phase.Scheduled?
    requires s.objs[o].resumes.Some? ==> s.objs[o].resumes == Some(runId)
    ensures var s', k := TakenOver(s, o, d, runId), (s.objs[o].chat.0, runId);
            |PendingResumes(s', j)| + (if j == k && s.objs[o].resumes.Some? then 1 else 0) <= |PendingResumes(s, j)|
  {
    var s', k := TakenOver(s, o, d, runId), (s.objs[o].chat.0, runId);
    if j == k && s.objs[o].resumes.Some? {
      assert o in PendingResumes(s, j);
      SubsetSize(PendingResumes(s', j), PendingResumes(s, j) - {o});
    } else {
      SubsetSize(PendingResumes(s', j), PendingResumes(s, j));
    }
  }

  lemma TakenOverSafe(s: State, o: nat, d: Runs, runId: string, resumed: nat)
    requires SafeInv(s) && o in s.objs && s.objs[o].phase.Scheduled?
    requires s.objs[o].resumes.Some? ==> s.objs[o].resumes == Some(runId)
    requires resumed <= (if s.objs[o].resumes.Some? then 1 else 0)
    requires Worked(s.runs, d, (s.objs[o].chat.0, runId), resumed)
    requires var k := (s.objs[o].chat.0, runId);
             k in d.runs && d.runs[k].status != Created && d.runs[k].status != Queued
             && d.runs[k].uid == s.objs[o].chat.1 && d.runs[k].chatId == Some(s.objs[o].chat.2)
    ensures SafeInv(TakenOver(s, o, d, runId))
  {
    var s', k, c := TakenOver(s, o, d, runId), (s.objs[o].chat.0, runId), s.objs[o].chat;
    assert ObjFine(s, o);
    assert Touches(s, s', k, o, resumed);
    assert Drives(s', o, k);
    assert RunFine(s', k);
    TouchedRuns(s, s', k, o, resumed);
    TouchedObjs(s, s', k, o, resumed);
    forall e | e in s'.registry ensures EntryFine(s', e) { assert EntryFine(s, e); }
    forall j ensures ResumeFine(s', j) {
      assert ResumeFine(s, j);
      PendingTaken(s, o, d, runId, j);
    }
  }

  lemma FirstStepSafe(s: State, o: nat, id: string)
    requires SafeInv(s) && Enabled(s, FirstStep(o, id))
    ensures SafeInv(Begin(s, o, id))
  {
    var r := s.objs[o];
    var (pid, uid, chat) := r.chat;
    assert ObjFine(s, o);
    if r.resumes.Some? {
      var k := (pid, r.resumes.value);
      assert RunOfChat(s, k, r.chat) && RunFine(s, k);
      if s.runs.runs[k].status == WaitingApproval {
        TransitionRuns(s.runs, k, Running, "");
        TransitionWorks(s.runs, k, Running, "");
        OpenedSafe(s, o, TryTransition(s.runs, k, Running, ""), r.resumes.value, 1);
      } else {
        OpenedSafe(s, o, s.runs, r.resumes.value, 0);
      }
    } else {
      BeginWorks(s.runs, pid, id, uid, Chat, Some(chat), None, None);
      OpenedSafe(s, o, BeginRun(s.runs, pid, id, uid, Chat, Some(chat), None, None), id, 0);
    }
  }

  lemma OpenedSafe(s: State, o: nat, d: Runs, runId: string, resumed: nat)
    requires SafeInv(s) && o in s.objs && s.objs[o].phase.Scheduled?
    requires s.objs[o].resumes.Some? ==> s.objs[o].resumes == Some(runId)
    requires resumed <= (if s.objs[o].resumes.Some? then 1 else 0)
    requires Worked(s.runs, d, (s.objs[o].chat.0, runId), resumed)
    requires var k := (s.objs[o].chat.0, runId);
             k in d.runs && d.runs[k].status != Created && d.runs[k].status != Queued
             && d.runs[k].uid == s.objs[o].chat.1 && d.runs[k].chatId == Some(s.objs[o].chat.2)
    ensures SafeInv(Opened(s.(runs := d), o, runId))
  {
    var s1, c := TakenOver(s, o, d, runId), s.objs[o].chat;
    TakenOverSafe(s, o, d, runId, resumed);
    if c in s.chats {
      ChatStatusSafe(s1, c, InProgress);
    } else {
      assert RunFine(s1, RunOf(s1, o));
      RaisedMoves(s1, o, OtherError, Missing(c));
      MovedSafe(s1, Raised(s1, o, OtherError, Missing(c)), o);
    }
  }

  // ---- the steps of operators and of the surroundings ----

  /** Work on the run `k` alone. */
  lemma RunOnlyFine(s: State, s': State, k: RunKey, resumed: nat)
    requires SafeInv(s) && Worked(s.runs, s'.runs, k, resumed) && s' == s.(runs := s'.runs)
    requires k in s'.runs.runs ==> RunFine(s', k)
    ensures RunsInv(s'.runs) && RunsFine(s') && ObjsFine(s') && EntriesFine(s')
    ensures exists o :: o !in s.objs && Touches(s, s', k, o, resumed)
  {
    var o: nat := FreshObj(s);
    assert Touches(s, s', k, o, resumed);
    hide RunsInv, LedgerInv, RunFine, ObjFine;
    TouchedRuns(s, s', k, o, resumed);
    TouchedObjs(s, s', k, o, resumed);
    hide Touches;
    forall c | c in s'.registry ensures EntryFine(s', c) { assert EntryFine(s, c); }
  }

  lemma RunOnlySafe(s: State, s': State, k: RunKey)
    requires SafeInv(s) && Worked(s.runs, s'.runs, k, 0) && s' == s.(runs := s'.runs)
    requires k in s'.runs.runs ==> Begun(s', k)
    requires k in s'.runs.runs ==> s'.runs.runs[k].chatId.None? || k in s.runs.runs
    requires k in s'.runs.runs && k in s.runs.runs && s'.runs.runs[k].status == Running ==>
               s.runs.runs[k].status == Running || s.runs.runs[k].chatId.None?
    ensures SafeInv(s')
  {
    if k in s'.runs.runs {
      if k in s.runs.runs { assert RunFine(s, k); }
      assert RunFine(s', k) by {
        if s'.runs.runs[k].chatId.Some? && s'.runs.runs[k].status == Running {
          var p :| Drives(s, p, k);
          assert Drives(s', p, k);
        }
      }
    }
    RunOnlyFine(s, s', k, 0);
    var o :| o !in s.objs && Touches(s, s', k, o, 0);
    TouchedResumes(s, s', k, o);
  }

  ghost function FreshObj(s: State): (o: nat)
    ensures o !in s.objs
  {
    var n := Above(s.objs.Keys); n
  }

  ghost function Above(A: set<nat>): (n: nat)
    ensures forall x :: x in A ==> x < n
    decreases A
  {
    if A == {} then 0
    else
      var x :| x in A;
      var m := Above(A - {x});
      assert forall y :: y in A ==> y == x || y in A - {x};
      if x < m then m else x + 1
  }

  /** Only the ledger changed, and no approval was lost. */
  lemma LedgerOnlySafe(s: State, s': State)
    requires SafeInv(s) && LedgerInv(s'.ledger) && s' == s.(ledger := s'.ledger)
    requires forall k :: |ApprovedRequests(s.ledger, k)| <= |ApprovedRequests(s'.ledger, k)|
    ensures SafeInv(s')
  {
    SameRunsFine(s, s');
    forall o | o in s'.objs ensures ObjFine(s', o) { assert ObjFine(s, o); }
    forall c | c in s'.registry ensures EntryFine(s', c) { assert EntryFine(s, c); }
    forall k ensures ResumeFine(s', k) {
      assert ResumeFine(s, k);
      assert PendingResumes(s', k) == PendingResumes(s, k);
    }
  }

  lemma TicksWork(d: Runs, n: nat, k: RunKey)
    requires RunsInv(d)
    ensures Worked(d, Ticks(d, n), k, 0)
  {
    var d' := Ticks(d, n);
    forall j | j in d'.runs ensures Listed(d', j) && AuditAt(d', j) { assert Listed(d, j) && AuditAt(d, j); }
  }

  /** The flag and the phase of a task that is not suspended are no part of what it drives. */
  lemma ObjOnlySafe(s: State, o: nat, r: ChatRun)
    requires SafeInv(s) && o in s.objs
    requires r.chat == s.objs[o].chat && r.resumes == s.objs[o].resumes && r.runId == s.objs[o].runId && !r.phase.Ended?
    requires Suspended(s.objs[o]) <==> Suspended(r)
    requires (r.phase.Scheduled? || r.phase.Unscheduled?) ==>
               (s.objs[o].phase.Scheduled? || s.objs[o].phase.Unscheduled?)
    ensures SafeInv(s.(objs := s.objs[o := r]))
  {
    var s' := s.(objs := s.objs[o := r]);
    hide RunsInv, LedgerInv;
    SameRunsFine(s, s');
    hide RunsFine, Drives;
    forall p | p in s'.objs ensures ObjFine(s', p) { assert ObjFine(s, p); }
    forall c | c in s'.registry ensures EntryFine(s', c) { assert EntryFine(s, c); }
    hide ObjFine, EntryFine;
    ObjResumes(s, o, r);
  }

  lemma ObjResumes(s: State, o: nat, r: ChatRun)
    requires ResumesFine(s) && o in s.objs && r.chat == s.objs[o].chat && r.resumes == s.objs[o].resumes
    requires (r.phase.Scheduled? || r.phase.Unscheduled?) ==>
               (s.objs[o].phase.Scheduled? || s.objs[o].phase.Unscheduled?)
    ensures ResumesFine(s.(objs := s.objs[o := r]))
  {
    var s' := s.(objs := s.objs[o := r]);
    forall k ensures ResumeFine(s', k) {
      assert ResumeFine(s, k);
      SubsetSize(PendingResumes(s', k), PendingResumes(s, k));
    }
  }

  lemma CancelTaskSafe(s: State, c: ChatKey)
    requires SafeInv(s)
    ensures SafeInv(CancelChat(s, c))
  {
    if c in s.registry && s.registry[c] in s.objs {
      var o := s.registry[c];
      var r := s.objs[o];
      assert EntryFine(s, c) && ObjFine(s, o);
      var d := if r.runId.Some? then TryTransition(s.runs, (c.0, r.runId.value), Cancelled, "") else s.runs;
      var s1 := s.(runs := d);
      if r.runId.Some? {
        var k := (c.0, r.runId.value);
        assert RunFine(s, k);
        TryWorks(s.runs, k, Cancelled, "");
        RunOnlySafe(s, s1, k);
      }
      ObjOnlySafe(s1, o, r.(cancelRequested := true));
    }
  }

  /** Approving a pending request adds it to the approved ones of its run. */
  lemma ApprovedGrows(a: Ledger, q: ApprovalRequest, who: string, why: Option<string>, now: Time, j: RunKey)
    requires var key := (q.projectId, q.approvalId); key in a.requests && a.requests[key] == q && q.status == Pending
    ensures var a', key := Approve(a, q, who, why, now), (q.projectId, q.approvalId);
            && key !in ApprovedRequests(a, j)
            && ApprovedRequests(a', j) == ApprovedRequests(a, j) + (if j == (q.projectId, q.runId) then {key} else {})
            && |ApprovedRequests(a', j)| == |ApprovedRequests(a, j)| + (if j == (q.projectId, q.runId) then 1 else 0)
  {
    var a' := Approve(a, q, who, why, now);
    var q' := q.(status := Approved, resolvedAt := Some(now), resolvedBy := Some(who), reason := why);
    assert a'.requests == a.requests[(q.projectId, q.approvalId) := q'];
  }

  /** The ledger after an approval: one more approved request for the run, none lost. */
  lemma GrantedLedger(s: State, k: RunKey, who: string, why: Option<string>)
    requires LedgerInv(s.ledger) && AwaitsDecision(s, k)
    ensures var a := Approve(s.ledger, PendingOf(s, k), who, why, s.runs.clock);
            && LedgerInv(a)
            && (forall j :: |ApprovedRequests(s.ledger, j)| <= |ApprovedRequests(a, j)|)
            && |ApprovedRequests(s.ledger, k)| + 1 == |ApprovedRequests(a, k)|
  {
    var q := PendingOf(s, k);
    PendingSound(s.ledger, k.0, k.1);
    ApproveKeepsLedger(s.ledger, q, who, why, s.runs.clock);
    hide LedgerInv, Approve, ApprovedRequests, GetPendingForRun;
    var a := Approve(s.ledger, q, who, why, s.runs.clock);
    forall j ensures |ApprovedRequests(s.ledger, j)| <= |ApprovedRequests(a, j)| {
      ApprovedGrows(s.ledger, q, who, why, s.runs.clock, j);
    }
    ApprovedGrows(s.ledger, q, who, why, s.runs.clock, k);
  }

  predicate SameTasks(s: State, s': State) {
    && s'.objs == s.objs && s'.registry == s.registry && s'.chats == s.chats && s'.owners == s.owners
    && s'.runs.runs == s.runs.runs && s'.runs.log == s.runs.log
  }

  /** A decision touches the ledger and the clock, and nothing else. */
  lemma DecisionFrame(s: State, k: RunKey, who: string, why: Option<string>)
    requires AwaitsDecision(s, k)
    ensures SameTasks(s, Granted(s, k, who, why)) && SameTasks(s, Refused(s, k, who, why))
  {
    hide Approve, Reject, GetPendingForRun;
  }

  /** A resolution with its grant: the invariant is kept, and the approval leaves room for one
      more resumption of the run. */
  lemma GrantedSafe(s: State, k: RunKey, who: string, why: Option<string>)
    requires SafeInv(s) && AwaitsDecision(s, k)
    ensures var s1 := Granted(s, k, who, why);
            && SafeInv(s1)
            && ResumptionsOf(s1.runs, k) + |PendingResumes(s1, k)| + 1 <= |ApprovedRequests(s1.ledger, k)|
  {
    var a := Approve(s.ledger, PendingOf(s, k), who, why, s.runs.clock);
    GrantedLedger(s, k, who, why);
    LedgerOnlySafe(s, s.(ledger := a));
    assert ResumeFine(s, k);
    TicksSafe(s.(ledger := a), 2, k);
    assert PendingResumes(Granted(s, k, who, why), k) == PendingResumes(s, k);
  }

  lemma TicksSafe(s: State, n: nat, k: RunKey)
    requires SafeInv(s)
    ensures SafeInv(s.(runs := Ticks(s.runs, n)))
    ensures ResumptionsOf(Ticks(s.runs, n), k) == ResumptionsOf(s.runs, k)
  {
    TicksWork(s.runs, n, k);
    if k in s.runs.runs { assert RunFine(s, k); }
    RunOnlySafe(s, s.(runs := Ticks(s.runs, n)), k);
  }

  lemma RefusedLedger(s: State, k: RunKey, who: string, why: Option<string>)
    requires LedgerInv(s.ledger) && AwaitsDecision(s, k)
    ensures var a := Reject(s.ledger, PendingOf(s, k), who, why, s.runs.clock);
            LedgerInv(a) && forall j :: ApprovedRequests(s.ledger, j) == ApprovedRequests(a, j)
  {
    var q := PendingOf(s, k);
    PendingSound(s.ledger, k.0, k.1);
    ResolveKeepsLedger(s.ledger, k.0, q.approvalId, false, who, why, s.runs.clock);
  }

  lemma RefusedSafe(s: State, k: RunKey, who: string, why: Option<string>)
    requires SafeInv(s) && AwaitsDecision(s, k)
    ensures SafeInv(Refused(s, k, who, why))
  {
    hide LedgerInv, Reject, ApprovedRequests, GetPendingForRun;
    var a := Reject(s.ledger, PendingOf(s, k), who, why, s.runs.clock);
    RefusedLedger(s, k, who, why);
    LedgerOnlySafe(s, s.(ledger := a));
    hide SafeInv;
    TicksSafe(s.(ledger := a), 1, k);
  }

  lemma RegisteredSafe(s: State, k: RunKey, c: ChatKey, o: nat, phase: Phase, conv: Option<string>)
    requires SafeInv(s) && o !in s.objs && RunOfChat(s, k, c) && (phase.Scheduled? || phase.Unscheduled?)
    requires ResumptionsOf(s.runs, k) + |PendingResumes(s, k)| + 1 <= |ApprovedRequests(s.ledger, k)|
    ensures SafeInv(Registered(s, c, o, k.1, phase, conv))
  {
    var s' := Registered(s, c, o, k.1, phase, conv);
    assert RunFine(s, k);
    AddedObjSafe(s, s', c, o);
    assert ObjFine(s', o);
    forall j ensures ResumeFine(s', j) {
      assert ResumeFine(s, j);
      PendingAdded(s, c, o, k.1, phase, conv, j);
    }
  }

  lemma PendingAdded(s: State, c: ChatKey, o: nat, runId: string, phase: Phase, conv: Option<string>, j: RunKey)
    requires o !in s.objs
    ensures var s' := Registered(s, c, o, runId, phase, conv);
            |PendingResumes(s', j)| <= |PendingResumes(s, j)| + (if j == (c.0, runId) then 1 else 0)
  {
    var s' := Registered(s, c, o, runId, phase, conv);
    if j == (c.0, runId) {
      SubsetSize(PendingResumes(s', j), PendingResumes(s, j) + {o});
    } else {
      SubsetSize(PendingResumes(s', j), PendingResumes(s, j));
    }
  }

  /** A new task object registered for its chat. */
  lemma AddedObjSafe(s: State, s': State, c: ChatKey, o: nat)
    requires SafeInv(s) && o !in s.objs && o in s'.objs && s'.objs[o].chat == c && !s'.objs[o].phase.Ended?
    requires s' == s.(objs := s.objs[o := s'.objs[o]], registry := s.registry[c := o])
    ensures RunsFine(s') && EntriesFine(s') && ChatsFine(s')
    ensures ObjFine(s', o) ==> ObjsFine(s')
  {
    SameRunsFine(s, s');
    forall p | p in s'.objs && p != o ensures ObjFine(s', p) { assert ObjFine(s, p); }
    forall e | e in s'.registry ensures EntryFine(s', e) { if e != c { assert EntryFine(s, e); } }
  }

  /** The branch of a resume that finds the task of the same run still registered. */
  lemma TakeoverSafe(s: State, k: RunKey, c: ChatKey, prev: nat, o: nat, conv: Option<string>)
    requires SafeInv(s) && o !in s.objs && prev in s.objs && RunOfChat(s, k, c) && !s.objs[prev].phase.Ended?
    requires ResumptionsOf(s.runs, k) + |PendingResumes(s, k)| + 1 <= |ApprovedRequests(s.ledger, k)|
    ensures SafeInv(Registered(s.(objs := s.objs[prev := s.objs[prev].(cancelRequested := true)]), c, o, k.1,
              Unscheduled(TaskOf(s, prev)), conv))
  {
    ObjOnlySafe(s, prev, s.objs[prev].(cancelRequested := true));
    var s2 := s.(objs := s.objs[prev := s.objs[prev].(cancelRequested := true)]);
    assert PendingResumes(s2, k) == PendingResumes(s, k);
    RegisteredSafe(s2, k, c, o, Unscheduled(TaskOf(s, prev)), conv);
  }

  lemma ResumedSafe(s: State, k: RunKey, c: ChatKey, o: nat, conv: Option<string>)
    requires SafeInv(s) && o !in s.objs && RunOfChat(s, k, c)
    requires ResumptionsOf(s.runs, k) + |PendingResumes(s, k)| + 1 <= |ApprovedRequests(s.ledger, k)|
    ensures SafeInv(Resumed(s, k, c, o, conv))
  {
    assert c in s.registry ==> EntryFine(s, c);
    hide SafeInv, Registered;
    if c in s.chats {
      if c in s.registry {
        if s.objs[s.registry[c]].runId == Some(k.1) { TakeoverSafe(s, k, c, s.registry[c], o, conv); }
      } else {
        RegisteredSafe(s, k, c, o, Scheduled, conv);
      }
    }
  }

  lemma ApproveInChatSafe(s: State, k: RunKey, o: nat, why: Option<string>, conv: Option<string>)
    requires SafeInv(s) && o !in s.objs
    ensures SafeInv(ApproveChat(s, k, o, why, conv))
  {
    hide SafeInv, Granted, Resumed, GetPendingForRun;
    if AwaitsDecision(s, k) && ChatOf(s, k).Some? {
      GrantedSafe(s, k, s.runs.runs[k].uid, why);
      DecisionFrame(s, k, s.runs.runs[k].uid, why);
      ResumedSafe(Granted(s, k, s.runs.runs[k].uid, why), k, ChatOf(s, k).value, o, conv);
    }
  }

  lemma RejectSafe(s: State, k: RunKey, who: string, why: Option<string>, text: string)
    requires SafeInv(s) && AwaitsDecision(s, k)
    ensures var s1 := Refused(s, k, who, why);
            SafeInv(s1.(runs := TryTransition(s1.runs, k, Blocked, text)))
  {
    RefusedSafe(s, k, who, why);
    var s1 := Refused(s, k, who, why);
    TrySafe(s1, k, Blocked, text);
  }

  /** A swallowed transition to a status that is no begin and no resumption. */
  lemma TrySafe(s: State, k: RunKey, to: RunStatus, text: string)
    requires SafeInv(s) && to != Running && to != Created && to != Queued
    ensures SafeInv(s.(runs := TryTransition(s.runs, k, to, text)))
  {
    TryWorks(s.runs, k, to, text);
    if k in s.runs.runs { assert RunFine(s, k); }
    RunOnlySafe(s, s.(runs := TryTransition(s.runs, k, to, text)), k);
  }

  lemma ApproveDirectSafe(s: State, k: RunKey, who: string, why: Option<string>)
    requires SafeInv(s)
    ensures SafeInv(ApprovePlain(s, k, who, why))
  {
    if AwaitsDecision(s, k) && ChatOf(s, k).None? {
      GrantedSafe(s, k, who, why);
      var s1 := Granted(s, k, who, why);
      TransitionRuns(s1.runs, k, Running, "");
      TransitionWorks(s1.runs, k, Running, "");
      ResumedDirectly(s1, ApprovePlain(s, k, who, why), k);
    }
  }

  /** A run without a chat continues on the account of the approval just given. */
  lemma ResumedDirectly(s: State, s': State, k: RunKey)
    requires SafeInv(s) && k in s.runs.runs && s.runs.runs[k].chatId.None?
    requires Worked(s.runs, s'.runs, k, 1) && s' == s.(runs := s'.runs) && s'.runs.runs[k].status == Running
    requires ResumptionsOf(s.runs, k) + |PendingResumes(s, k)| + 1 <= |ApprovedRequests(s.ledger, k)|
    ensures SafeInv(s')
  {
    assert RunFine(s, k) && RunFine(s', k);
    RunOnlyFine(s, s', k, 1);
    forall j ensures ResumeFine(s', j) {
      assert ResumeFine(s, j);
      EarnedOnce(s, s', k, j);
    }
  }

  /** One resumption more, on the account of an approval that had room for it. */
  lemma EarnedOnce(s: State, s': State, k: RunKey, j: RunKey)
    requires ResumeFine(s, j) && Worked(s.runs, s'.runs, k, 1) && s' == s.(runs := s'.runs)
    requires ResumptionsOf(s.runs, k) + |PendingResumes(s, k)| + 1 <= |ApprovedRequests(s.ledger, k)|
    ensures ResumeFine(s', j)
  {
    hide RunsInv;
    assert PendingResumes(s', j) == PendingResumes(s, j);
  }

  // ---- the hook ----

  lemma GateEventSafe(s: State, ctx: ToolContext, e: EventBody)
    requires SafeInv(s) && !e.RunStatusChanged? && !e.RunCompleted?
    ensures SafeInv(s.(runs := GateEvent(s.runs, ctx, e)))
  {
    if ctx.runId != "" { EventSafe(s, KeyOf(ctx), e); }
  }

  lemma EventSafe(s: State, k: RunKey, e: EventBody)
    requires SafeInv(s) && !e.RunStatusChanged? && !e.RunCompleted?
    ensures SafeInv(s.(runs := AppendEvent(s.runs, k, e)))
  {
    AppendWorks(s.runs, k, e);
    if k in s.runs.runs { assert RunFine(s, k); }
    RunOnlySafe(s, s.(runs := AppendEvent(s.runs, k, e)), k);
  }

  lemma EnsureRequestKeeps(a: Ledger, ctx: ToolContext, f: Fresh)
    requires LedgerInv(a) && (ctx.projectId, f.approvalId) !in a.requests
    ensures LedgerInv(EnsureRequest(a, ctx, f))
    ensures forall k :: ApprovedRequests(EnsureRequest(a, ctx, f), k) == ApprovedRequests(a, k)
  {
    CreateKeepsLedger(a, ctx.projectId, f.approvalId, ctx.runId, ctx.toolName, ctx.mcpServer, ctx.arguments,
      f.createdAtLength);
  }

  lemma LedgerStepSafe(s: State, a: Ledger)
    requires SafeInv(s) && LedgerInv(a)
    requires forall k :: ApprovedRequests(a, k) == ApprovedRequests(s.ledger, k)
    ensures SafeInv(s.(ledger := a))
  {
    LedgerOnlySafe(s, s.(ledger := a));
  }

  lemma GateSafe(gov: Governance, s: State, ctx0: ToolContext, f: Fresh)
    requires SafeInv(s) && (ctx0.projectId, f.approvalId) !in s.ledger.requests
    ensures var (d, a, r) := Gate(gov, s.runs, s.ledger, ctx0, f);
            SafeInv(s.(runs := d, ledger := a))
  {
    var ctx := WithRegistry(gov, ctx0);
    var v := Verdict(gov, ctx);
    if ctx.runId != "" && GrantKeyOf(ctx) in s.ledger.grants {
      GrantedCallSafe(s, ctx, v.decision);
    } else {
      GateEventSafe(s, ctx, DecisionEvent(ctx, v));
      JudgedCallSafe(s.(runs := GateEvent(s.runs, ctx, DecisionEvent(ctx, v))), ctx, v, f);
    }
  }

  lemma GrantedCallSafe(s: State, ctx: ToolContext, verdict: Decision)
    requires SafeInv(s) && GrantKeyOf(ctx) in s.ledger.grants
    ensures SafeInv(s.(runs := GateEvent(s.runs, ctx, DecisionEvent(ctx, Evaluation(Allow, GRANT_RULE))),
                       ledger := UseGrant(s.ledger, GrantKeyOf(ctx), verdict)))
  {
    var a := UseGrant(s.ledger, GrantKeyOf(ctx), verdict);
    UseKeepsLedger(s.ledger, GrantKeyOf(ctx), verdict);
    LedgerStepSafe(s, a);
    GateEventSafe(s.(ledger := a), ctx, DecisionEvent(ctx, Evaluation(Allow, GRANT_RULE)));
  }

  lemma JudgedCallSafe(s: State, ctx: ToolContext, v: Evaluation, f: Fresh)
    requires SafeInv(s) && (ctx.projectId, f.approvalId) !in s.ledger.requests
    ensures v.decision == Allow ==>
              SafeInv(s.(ledger := Pass(s.ledger, ctx.projectId, ctx.runId, ctx.toolName, Allow, None)))
    ensures v.decision == Deny ==>
              SafeInv(s.(runs := GateEvent(s.runs, ctx, ErrorEvent(POLICY_DENIED,
                DenyMessage(ctx.toolName, v.matchedRule)))))
    ensures v.decision == RequireApproval ==>
              SafeInv(s.(runs := GateEvent(s.runs, ctx, ErrorEvent(APPROVAL_REQUIRED,
                ApprovalMessage(ctx.toolName, v.matchedRule))),
                         ledger := EnsureRequest(s.ledger, ctx, f)))
  {
    match v.decision
    case Allow =>
      PassKeepsLedger(s.ledger, ctx.projectId, ctx.runId, ctx.toolName, Allow);
      LedgerStepSafe(s, Pass(s.ledger, ctx.projectId, ctx.runId, ctx.toolName, Allow, None));
    case Deny =>
      GateEventSafe(s, ctx, ErrorEvent(POLICY_DENIED, DenyMessage(ctx.toolName, v.matchedRule)));
    case RequireApproval =>
      EnsureRequestKeeps(s.ledger, ctx, f);
      LedgerStepSafe(s, EnsureRequest(s.ledger, ctx, f));
      GateEventSafe(s.(ledger := EnsureRequest(s.ledger, ctx, f)), ctx,
                    ErrorEvent(APPROVAL_REQUIRED, ApprovalMessage(ctx.toolName, v.matchedRule)));
  }

  lemma MarkWaitingSafe(s: State, ctx: ToolContext, message: string)
    requires SafeInv(s)
    ensures SafeInv(MarkWaiting(s, ctx, message))
  {
    var k := KeyOf(ctx);
    var d := MarkedWaiting(s.runs, k, message);
    TrySafe(s, k, WaitingApproval, Truncated(message, 500));
    assert SafeInv(s.(runs := d)) by { assert s.(runs := s.runs) == s; }
    MarkedChatSafe(s, d, ctx);
  }

  lemma MarkedChatSafe(s: State, d: Runs, ctx: ToolContext)
    requires SafeInv(s.(runs := d))
    ensures SafeInv(MarkedChat(s, d, ctx))
  {
    if ctx.chatId.Some? && ctx.uid != "" {
      ChatStatusSafe(s.(runs := d), (ctx.projectId, ctx.uid, ctx.chatId.value), AwaitingApproval);
    }
  }

  lemma HookSafe(gov: Governance, s: State, ctx: ToolContext, f: Fresh)
    requires SafeInv(s) && (ctx.projectId, f.approvalId) !in s.ledger.requests
    ensures SafeInv(Hook(gov, s, ctx, f))
  {
    if ctx.toolName == "" {
    } else if ctx.runId == "" {
      PassKeepsLedger(s.ledger, ctx.projectId, "", ctx.toolName, Allow);
      LedgerStepSafe(s, Pass(s.ledger, ctx.projectId, "", ctx.toolName, Allow, None));
    } else {
      var (d, a, r) := Gate(gov, s.runs, s.ledger, ctx, f);
      GateSafe(gov, s, ctx, f);
      MarkWaitingSafe(s.(runs := d, ledger := a), ctx, r.message);
    }
  }

  // ---- the rest ----

  lemma RestartSafe(s: State, ks: seq<RunKey>, text: string)
    requires SafeInv(s) && forall k :: k in s.runs.runs ==> k in ks
    ensures SafeInv(s.(runs := FailOrphans(s.runs, ks, text), objs := map[], registry := map[]))
  {
    var s' := s.(runs := FailOrphans(s.runs, ks, text), objs := map[], registry := map[]);
    RecoveryExact(s.runs, ks, text);
    forall k | k in s'.runs.runs ensures RunFine(s', k) { assert RunFine(s, k); }
    forall k ensures ResumeFine(s', k) {
      assert ResumeFine(s, k);
      assert PendingResumes(s', k) == {};
    }
  }

  lemma StartSafe(s: State, c: ChatKey, o: nat, conv: Option<string>)
    requires SafeInv(s) && o !in s.objs && c in s.chats
    ensures SafeInv(Start(s, c, o, conv))
  {
    hide RunsInv, LedgerInv, GetActiveRunForChat;
    var s' := Start(s, c, o, conv);
    if s' != s {
      AddedObjSafe(s, s', c, o);
      assert ObjFine(s', o);
      forall j ensures ResumeFine(s', j) {
        assert ResumeFine(s, j);
        assert PendingResumes(s', j) == PendingResumes(s, j);
      }
    }
  }

  lemma TicketBeginSafe(s: State, k: RunKey, uid: string, src: RunSource, job: Option<string>, ticket: Option<string>)
    requires SafeInv(s) && FreshRun(s, k)
    ensures SafeInv(s.(runs := BeginRun(s.runs, k.0, k.1, uid, src, None, job, ticket)))
  {
    BeginWorks(s.runs, k.0, k.1, uid, src, None, job, ticket);
    RunOnlySafe(s, s.(runs := BeginRun(s.runs, k.0, k.1, uid, src, None, job, ticket)), k);
  }

  lemma ChatsSafe(s: State, c: ChatKey)
    requires SafeInv(s)
    ensures (c.0, c.2) !in s.owners ==> SafeInv(s.(chats := s.chats[c := Idle], owners := s.owners[(c.0, c.2) := c.1]))
    ensures SafeInv(s.(chats := s.chats - {c}))
  {
    SameStores(s, s.(chats := s.chats - {c}));
    if (c.0, c.2) !in s.owners {
      SameStores(s, s.(chats := s.chats[c := Idle], owners := s.owners[(c.0, c.2) := c.1]));
    }
  }

  // ---- every step, every run ----

  predicate IsTaskStep(step: Step) {
    step.StartTask? || step.FirstStep? || step.CancelledBeforeFirstStep? || step.TaskStep? || step.CancelTask?
    || step.ApproveInChat? || step.ResumeTail?
  }

  lemma TaskSideSafe(gov: Governance, s: State, step: Step)
    requires SafeInv(s) && Enabled(s, step) && IsTaskStep(step)
    ensures SafeInv(Effect(gov, s, step))
  {
    match step {
      case StartTask(c, o, conv) => StartSafe(s, c, o, conv);
      case FirstStep(o, id) => FirstStepSafe(s, o, id);
      case CancelledBeforeFirstStep(o) => ObjOnlySafe(s, o, s.objs[o].(phase := NeverRan));
      case TaskStep(o, out) => TaskStepSafe(s, o, out);
      case CancelTask(c) => CancelTaskSafe(s, c);
      case ApproveInChat(k, o, why, conv) => ApproveInChatSafe(s, k, o, why, conv);
      case ResumeTail(o) => ObjOnlySafe(s, o, s.objs[o].(phase := Scheduled));
      case _ => assert false;
    }
  }

  lemma OtherSideSafe(gov: Governance, s: State, step: Step)
    requires SafeInv(s) && Enabled(s, step) && !IsTaskStep(step)
    ensures SafeInv(Effect(gov, s, step))
  {
    match step {
      case CreateChat(c) => ChatsSafe(s, c);
      case DeleteChat(c) => ChatsSafe(s, c);
      case RejectInChat(k, text) => RejectInChatSafe(s, k, text);
      case ApproveDirect(k, who, why) => ApproveDirectSafe(s, k, who, why);
      case RejectDirect(k, who, text) => RejectDirectSafe(s, k, who, text);
      case CancelDirect(k) => TrySafe(s, k, Cancelled, "");
      case ToolCallHook(ctx, f) => HookSafe(gov, s, ctx, f);
      case AgentEvent(k, e) => EventSafe(s, k, e);
      case TicketBegin(k, uid, src, job, ticket) => TicketBeginSafe(s, k, uid, src, job, ticket);
      case TicketEnd(k, st, err) => TrySafe(s, k, st, err);
      case Restart(ks, text) => RestartSafe(s, ks, text);
      case _ => assert false;
    }
  }

  lemma StepSafe(gov: Governance, s: State, step: Step)
    requires SafeInv(s)
    ensures SafeInv(Next(gov, s, step))
  {
    if Enabled(s, step) {
      if IsTaskStep(step) { TaskSideSafe(gov, s, step); } else { OtherSideSafe(gov, s, step); }
    }
  }

  lemma RejectDirectSafe(s: State, k: RunKey, who: string, text: string)
    requires SafeInv(s)
    ensures SafeInv(RejectPlain(s, k, who, text))
  {
    if AwaitsDecision(s, k) && ChatOf(s, k).None? {
      RejectSafe(s, k, who, if text == "" then None else Some(text), RejectionText(text));
    }
  }

  lemma RejectInChatSafe(s: State, k: RunKey, text: string)
    requires SafeInv(s)
    ensures SafeInv(RejectChat(s, k, text))
  {
    if AwaitsDecision(s, k) && ChatOf(s, k).Some? {
      var why := if text == "" then None else Some(text);
      var s1 := Refused(s, k, s.runs.runs[k].uid, why);
      RejectSafe(s, k, s.runs.runs[k].uid, why, RejectionText(text));
      ChatStatusSafe(s1.(runs := TryTransition(s1.runs, k, Blocked, RejectionText(text))), ChatOf(s, k).value, Idle);
    }
  }

  /** The invariant holds after every list of steps. */
  lemma {:induction false} AlwaysSafe(gov: Governance, steps: seq<Step>)
    ensures SafeInv(Exec(gov, steps))
  {
    if steps == [] {
      InitSafe();
    } else {
      AlwaysSafe(gov, steps[..|steps| - 1]);
      StepSafe(gov, Exec(gov, steps[..|steps| - 1]), steps[|steps| - 1]);
    }
  }
}
