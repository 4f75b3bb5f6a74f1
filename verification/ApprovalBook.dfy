/** The approval store, field by field; its methods are proved against Approvals.dfy. */
module ApprovalBook {
  import opened Wrappers
  import opened RunModel
  import opened ZSets
  import opened RunDb
  import opened Approvals

  class ApprovalStore {
    var requests: map<ApprovalKey, ApprovalRequest>
    var byRun: map<IndexKey, ZSet>
    var grants: map<GrantKey, Grant>
    ghost var history: seq<Record>

    constructor ()
      ensures Book() == EMPTY_LEDGER
    {
      requests, byRun, grants, history := map[], map[], map[], [];
    }

    ghost function Book(): Ledger
      reads this
    {
      Ledger(requests, byRun, grants, history)
    }

    /** _save */
    method Save(r: ApprovalRequest)
      modifies this`requests, this`byRun
      ensures Book() == SaveRequest(old(Book()), r)
    {
      requests := requests[(r.projectId, r.approvalId) := r];
      byRun := ZAdd(byRun, (r.projectId, r.runId), r.approvalId, r.createdAtLength);
    }

    method Create(pid: string, id: string, runId: string, tool: string, server: string, arguments: string,
                  createdAtLength: nat)
      modifies this`requests, this`byRun
      ensures Book() == CreateRequest(old(Book()), pid, id, runId, tool, server, arguments, createdAtLength)
    {
      Save(ApprovalRequest(id, pid, runId, tool, server, arguments, Pending, createdAtLength, None, None, None));
    }

    method PendingForRun(pid: string, runId: string) returns (r: Option<ApprovalRequest>)
      ensures r == GetPendingForRun(Book(), pid, runId)
    {
      var members := SortedMembers(ZSetAt(byRun, (pid, runId)), true);
      var approvalIds := Slice(members, 0, 20);
      for i := 0 to |approvalIds|
        invariant FirstPending(Book(), pid, approvalIds) == FirstPending(Book(), pid, approvalIds[i..])
      {
        assert approvalIds[i..][1..] == approvalIds[i + 1..];
        var key := (pid, approvalIds[i]);
        if key in requests && requests[key].status == Pending { return Some(requests[key]); }
      }
      return None;
    }

    /** resolve: a missing request and one that is already resolved are errors, and change nothing. */
    method ResolveRequest(pid: string, id: string, approve: bool, who: string, reason: Option<string>, now: Time)
      returns (ok: bool)
      modifies this`requests, this`byRun, this`history
      ensures match Resolve(old(Book()), pid, id, approve, who, reason, now)
              case Done(a) => ok && Book() == a
              case _ => !ok && Book() == old(Book())
    {
      if (pid, id) !in requests { return false; }
      var request := requests[(pid, id)];
      if request.status != Pending { return false; }
      request := request.(status := if approve then Approved else Rejected);
      request := request.(resolvedAt := Some(now), resolvedBy := Some(who), reason := reason);
      Save(request);
      history := history + [Resolved(pid, id, request.runId, request.toolName, approve)];
      return true;
    }

    method IssueToolGrant(pid: string, runId: string, tool: string, id: string, now: Time)
      modifies this`grants
      ensures Book() == IssueGrant(old(Book()), pid, runId, tool, id, now)
    {
      grants := grants[(pid, runId, tool) := Grant(id, runId, tool, now)];
    }

    /** consume_tool_grant: the grant is deleted as it is used. */
    method ConsumeToolGrant(k: GrantKey) returns (ok: bool)
      modifies this`grants
      ensures ok <==> k in old(grants)
      ensures Book() == if k in old(grants) then ConsumeGrant(old(Book()), k) else old(Book())
    {
      if k !in grants { return false; }
      grants := grants - {k};
      return true;
    }

    /** The model's note that a call went through. */
    ghost method Note(pid: string, runId: string, tool: string, verdict: Decision, via: Option<string>)
      modifies this`history
      ensures Book() == Pass(old(Book()), pid, runId, tool, verdict, via)
    {
      history := history + [Passed(pid, runId, tool, verdict, via)];
    }

    /** Resolve as approved, then issue the grant for the tool. */
    method ApproveRequest(r: ApprovalRequest, who: string, reason: Option<string>, now: Time)
      modifies this`requests, this`byRun, this`grants, this`history
      ensures Book() == Approve(old(Book()), r, who, reason, now)
    {
      var ok := ResolveRequest(r.projectId, r.approvalId, true, who, reason, now);
      if ok { IssueToolGrant(r.projectId, r.runId, r.toolName, r.approvalId, now + 1); }
    }
  }
}
