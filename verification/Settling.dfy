/** How a task leaves: whatever happens at its suspension points, it moves only its own run, and
    once its `finally` has run that run is terminal or waits for an approval. */
module Settling {
  import opened Wrappers
  import opened RunModel
  import opened RunDb
  import opened World

  predicate Settled(s: State, k: RunKey) {
    k in s.runs.runs && (IsTerminal(s.runs.runs[k].status) || s.runs.runs[k].status == WaitingApproval)
  }

  /** Since begin_investigation_run is one stretch, no step finds its run CREATED or QUEUED. */
  predicate Begun(s: State, k: RunKey) {
    k in s.runs.runs && s.runs.runs[k].status != Created && s.runs.runs[k].status != Queued
  }

  ghost predicate OnlyObj(s: State, s': State, o: nat) {
    && (forall p :: p != o ==> (p in s'.objs <==> p in s.objs))
    && (forall p :: p != o && p in s.objs ==> s'.objs[p] == s.objs[p])
  }

  /** What a step of the task of `o` may do. */
  ghost predicate TaskMoved(s: State, s': State, o: nat) {
    && HasRun(s, o) && o in s'.objs
    && var k, c := RunOf(s, o), s.objs[o].chat;
    && Worked(s.runs, s'.runs, k, 0) && s'.runs.runs.Keys == s.runs.runs.Keys
    && s'.ledger == s.ledger && s'.owners == s.owners && s'.chats.Keys == s.chats.Keys
    && OnlyObj(s, s', o)
    && s'.objs[o].chat == c && s'.objs[o].runId == s.objs[o].runId && s'.objs[o].resumes == s.objs[o].resumes
    && k in s.runs.runs
    && (if s'.objs[o].phase == Ended
        then Settled(s', k) && s'.registry == s.registry - {c} && (c in s'.chats ==> s'.chats[c] != InProgress)
        else Suspended(s'.objs[o]) && s'.registry == s.registry
             && s'.runs.runs[k].status == s.runs.runs[k].status
             && s'.runs.runs[k].updatedAt >= s.runs.runs[k].updatedAt)
  }

  /** The common shape of every exit: new run documents, the chat's status, `finally`. */
  function Left(s: State, d: Runs, o: nat, view: AgentRunStatus): State
    requires o in s.objs
  {
    Exit(WithChatStatus(s.(runs := d), s.objs[o].chat, view), o)
  }

  lemma LeftMoves(s: State, d: Runs, o: nat, view: AgentRunStatus)
    requires HasRun(s, o) && RunOf(s, o) in s.runs.runs && view != InProgress
    requires Worked(s.runs, d, RunOf(s, o), 0) && d.runs.Keys == s.runs.runs.Keys
    requires Settled(s.(runs := d), RunOf(s, o))
    ensures var s' := Left(s, d, o, view);
            TaskMoved(s, s', o) && s'.objs[o].phase == Ended
  {
    var s', c := Left(s, d, o, view), s.objs[o].chat;
    assert s'.runs == d && s'.registry == s.registry - {c};
    assert s'.chats.Keys == s.chats.Keys;
  }

  lemma RaisedMoves(s: State, o: nat, f: Failure, message: string)
    requires RunsInv(s.runs) && HasRun(s, o) && Begun(s, RunOf(s, o))
    ensures var s' := Raised(s, o, f, message);
            TaskMoved(s, s', o) && s'.objs[o].phase == Ended
  {
    var text := if f == CancelledError then "" else message;
    TryWorks(s.runs, RunOf(s, o), FailureStatus(f), text);
    LeftMoves(s, TryTransition(s.runs, RunOf(s, o), FailureStatus(f), text), o, FailureView(f));
  }

  lemma NothingWorked(d: Runs, k: RunKey)
    requires RunsInv(d)
    ensures Worked(d, d, k, 0)
  {
  }

  lemma LeaveMoves(s: State, o: nat, view: AgentRunStatus)
    requires RunsInv(s.runs) && HasRun(s, o) && Settled(s, RunOf(s, o)) && view != InProgress
    ensures var s' := Leave(s, o, view);
            TaskMoved(s, s', o) && s'.objs[o].phase == Ended
  {
    if s.objs[o].chat in s.chats {
      NothingWorked(s.runs, RunOf(s, o));
      LeftMoves(s, s.runs, o, view);
      assert s.(runs := s.runs) == s;
    } else {
      RaisedMoves(s, o, OtherError, Missing(s.objs[o].chat));
    }
  }

  /** Work before a step of the same task is part of the step. */
  lemma MovedAfterWork(s: State, d: Runs, s': State, o: nat)
    requires HasRun(s, o) && RunOf(s, o) in s.runs.runs
    requires Worked(s.runs, d, RunOf(s, o), 0) && d.runs.Keys == s.runs.runs.Keys
    requires TaskMoved(s.(runs := d), s', o) && s'.objs[o].phase == Ended
    ensures TaskMoved(s, s', o)
  {
    WorkedTwice(s.runs, d, s'.runs, RunOf(s, o), 0, 0);
  }

  lemma MoveAndLeaveMoves(s: State, o: nat, to: RunStatus, error: string)
    requires RunsInv(s.runs) && HasRun(s, o) && Begun(s, RunOf(s, o)) && IsTerminal(to)
    ensures var s' := MoveAndLeave(s, o, to, error);
            TaskMoved(s, s', o) && s'.objs[o].phase == Ended
  {
    var k := RunOf(s, o);
    if Transition(s.runs, k, to, error, true).Ok? {
      var d := Transition(s.runs, k, to, error, true).value;
      TransitionWorks(s.runs, k, to, error);
      LeaveMoves(s.(runs := d), o, Idle);
      MovedAfterWork(s, d, Leave(s.(runs := d), o, Idle), o);
    } else {
      RaisedMoves(s, o, OtherError, ILLEGAL);
    }
  }

  lemma FinishMoves(s: State, o: nat)
    requires RunsInv(s.runs) && HasRun(s, o) && Begun(s, RunOf(s, o))
    ensures TaskMoved(s, Finish(s, o), o) && Finish(s, o).objs[o].phase == Ended
  {
    var k := RunOf(s, o);
    if s.runs.runs[k].status == WaitingApproval {
      LeaveMoves(s, o, AwaitingApproval);
    } else if IsTerminal(s.runs.runs[k].status) {
      LeaveMoves(s, o, Idle);
    } else {
      MoveAndLeaveMoves(s, o, Completed, s.objs[o].denied);
    }
  }

  lemma OnChunkMoves(s: State, o: nat, conv: Option<string>, delta: bool, denied: Option<string>)
    requires RunsInv(s.runs) && HasRun(s, o) && Suspended(s.objs[o]) && Begun(s, RunOf(s, o))
    ensures TaskMoved(s, OnChunk(s, o, conv, delta, denied), o)
  {
    var k := RunOf(s, o);
    if s.objs[o].cancelRequested {
      MoveAndLeaveMoves(s, o, Cancelled, "");
    } else if s.runs.runs[k].status == WaitingApproval {
      LeaveMoves(s, o, AwaitingApproval);
    } else {
      var d := if conv.Some? then SetOhConversationId(s.runs, k, conv.value) else s.runs;
      NothingWorked(s.runs, k);
      if conv.Some? { SetOhWorks(s.runs, k, conv.value); }
      assert Listed(s.runs, k);
      ContinuedMoves(s, d, o, OnChunk(s, o, conv, delta, denied).objs[o]);
    }
  }

  lemma ContinuedMoves(s: State, d: Runs, o: nat, r: ChatRun)
    requires HasRun(s, o) && Suspended(s.objs[o]) && RunOf(s, o) in s.runs.runs
    requires Worked(s.runs, d, RunOf(s, o), 0) && d.runs.Keys == s.runs.runs.Keys
    requires d.runs[RunOf(s, o)].status == s.runs.runs[RunOf(s, o)].status
    requires d.runs[RunOf(s, o)].updatedAt >= s.runs.runs[RunOf(s, o)].updatedAt
    requires Suspended(r) && r.chat == s.objs[o].chat && r.runId == s.objs[o].runId && r.resumes == s.objs[o].resumes
    ensures TaskMoved(s, s.(runs := d, objs := s.objs[o := r]), o)
  {
  }

  lemma OnStreamEndMoves(s: State, o: nat)
    requires RunsInv(s.runs) && HasRun(s, o) && Suspended(s.objs[o]) && Begun(s, RunOf(s, o))
    ensures TaskMoved(s, OnStreamEnd(s, o), o)
  {
    var r := s.objs[o];
    if r.cancelRequested {
      MoveAndLeaveMoves(s, o, Cancelled, "");
    } else if (r.produced || r.conversation.Some?) && r.chat !in s.chats {
      RaisedMoves(s, o, OtherError, Missing(r.chat));
    } else if r.conversation.Some? {
      NothingWorked(s.runs, RunOf(s, o));
      ContinuedMoves(s, s.runs, o, r.(phase := AwaitingUsage));
      assert s.(runs := s.runs) == s;
    } else {
      FinishMoves(s, o);
    }
  }

  lemma TaskOutcomeMoves(s: State, o: nat, out: Outcome)
    requires RunsInv(s.runs) && HasRun(s, o) && Suspended(s.objs[o]) && Begun(s, RunOf(s, o))
    ensures TaskMoved(s, TaskOutcome(s, o, out), o)
  {
    match out
    case Chunk(conv, delta, denied) => OnChunkMoves(s, o, conv, delta, denied);
    case StreamEnd => OnStreamEndMoves(s, o);
    case UsageRecorded => FinishMoves(s, o);
    case Raise(f, m) => RaisedMoves(s, o, f, m);
  }
}
