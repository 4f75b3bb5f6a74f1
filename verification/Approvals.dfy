/** Approval requests, one-time grants and the history of what was resolved and let through. */
module Approvals {
  import opened Wrappers
  import opened RunModel
  import opened ZSets
  import opened RunDb

  type ApprovalKey = (string, string)          // (project id, approval id)
  type GrantKey = (string, string, string)     // (project id, run id, tool name)

  datatype ApprovalStatus = Pending | Approved | Rejected

  datatype ApprovalRequest = ApprovalRequest(
    approvalId: string, projectId: string, runId: string, toolName: string, mcpServer: string,
    arguments: string, status: ApprovalStatus, createdAtLength: nat,
    resolvedAt: Option<Time>, resolvedBy: Option<string>, reason: Option<string>)

  datatype Grant = Grant(approvalId: string, runId: string, toolName: string, issuedAt: Time)

  datatype Decision = Allow | Deny | RequireApproval

  /** What happened, in order: a request was resolved, or the gate let a tool call through.
      `verdict` is the policy's own decision for the call, `via` the grant it consumed. */
  datatype Record =
    | Resolved(projectId: string, approvalId: string, runId: string, toolName: string, approved: bool)
    | Passed(projectId: string, runId: string, toolName: string, verdict: Decision, via: Option<string>)

  datatype Ledger = Ledger(
    requests: map<ApprovalKey, ApprovalRequest>,
    byRun: map<IndexKey, ZSet>,
    grants: map<GrantKey, Grant>,
    history: seq<Record>)

  const EMPTY_LEDGER := Ledger(map[], map[], map[], [])

  /** _save: the score is the length of the created_at text, so the index order is (length, id). */
  function SaveRequest(a: Ledger, r: ApprovalRequest): Ledger {
    a.(requests := a.requests[(r.projectId, r.approvalId) := r],
       byRun := ZAdd(a.byRun, (r.projectId, r.runId), r.approvalId, r.createdAtLength))
  }

  function CreateRequest(a: Ledger, pid: string, id: string, runId: string, tool: string, server: string,
                         arguments: string, createdAtLength: nat): Ledger {
    SaveRequest(a, ApprovalRequest(id, pid, runId, tool, server, arguments, Pending, createdAtLength, None, None, None))
  }

  function FirstPending(a: Ledger, pid: string, ids: seq<string>): Option<ApprovalRequest> {
    if ids == [] then None
    else if (pid, ids[0]) in a.requests && a.requests[(pid, ids[0])].status == Pending
    then Some(a.requests[(pid, ids[0])])
    else FirstPending(a, pid, ids[1..])
  }

  /** get_pending_for_run looks at the top 21 entries of the index and no further. */
  ghost function GetPendingForRun(a: Ledger, pid: string, runId: string): Option<ApprovalRequest> {
    FirstPending(a, pid, ZRevRange(ZSetAt(a.byRun, (pid, runId)), 0, 20))
  }

  datatype ResolveOutcome = NoSuchRequest | AlreadyResolved(status: ApprovalStatus) | Done(ledger: Ledger)

  function Resolve(a: Ledger, pid: string, id: string, approve: bool, who: string, reason: Option<string>,
                   now: Time): ResolveOutcome {
    if (pid, id) !in a.requests then NoSuchRequest
    else
      var r := a.requests[(pid, id)];
      if r.status != Pending then AlreadyResolved(r.status)
      else
        var r' := r.(status := if approve then Approved else Rejected,
                     resolvedAt := Some(now), resolvedBy := Some(who), reason := reason);
        Done(SaveRequest(a, r').(history := a.history + [Resolved(pid, id, r.runId, r.toolName, approve)]))
  }

  function IssueGrant(a: Ledger, pid: string, runId: string, tool: string, id: string, now: Time): Ledger {
    a.(grants := a.grants[(pid, runId, tool) := Grant(id, runId, tool, now)])
  }

  /** consume_tool_grant */
  function ConsumeGrant(a: Ledger, k: GrantKey): Ledger { a.(grants := a.grants - {k}) }

  function Pass(a: Ledger, pid: string, runId: string, tool: string, verdict: Decision, via: Option<string>): Ledger {
    a.(history := a.history + [Passed(pid, runId, tool, verdict, via)])
  }

  /** Approving a pending request: resolve it, then issue the grant for its tool. */
  function Approve(a: Ledger, r: ApprovalRequest, who: string, reason: Option<string>, now: Time): Ledger {
    match Resolve(a, r.projectId, r.approvalId, true, who, reason, now)
    case Done(a') => IssueGrant(a', r.projectId, r.runId, r.toolName, r.approvalId, now + 1)
    case _ => a
  }

  function Reject(a: Ledger, r: ApprovalRequest, who: string, reason: Option<string>, now: Time): Ledger {
    match Resolve(a, r.projectId, r.approvalId, false, who, reason, now)
    case Done(a') => a'
    case _ => a
  }

  // ---- the invariant ----

  predicate IsResolutionOf(e: Record, pid: string, id: string) {
    e.Resolved? && e.projectId == pid && e.approvalId == id
  }

  /** The request `id` was resolved APPROVED at position `i`, for this run and tool. */
  predicate ApprovedAt(h: seq<Record>, i: nat, pid: string, id: string, runId: string, tool: string) {
    i < |h| && h[i] == Resolved(pid, id, runId, tool, true)
  }

  predicate UsedAt(h: seq<Record>, i: nat, pid: string, id: string) {
    i < |h| && h[i].Passed? && h[i].projectId == pid && h[i].via == Some(id)
  }

  predicate Unresolved(h: seq<Record>, k: ApprovalKey) { forall i :: 0 <= i < |h| ==> !IsResolutionOf(h[i], k.0, k.1) }

  ghost predicate RequestOk(a: Ledger, k: ApprovalKey)
    requires k in a.requests
  {
    var r := a.requests[k];
    && r.projectId == k.0 && r.approvalId == k.1
    && Score(a.byRun, (k.0, r.runId), k.1) == Some(r.createdAtLength)
    && (r.status == Pending <==> Unresolved(a.history, k))
  }

  ghost predicate RequestsOk(a: Ledger) {
    && (forall k {:trigger RequestOk(a, k)} :: k in a.requests ==> RequestOk(a, k))
    && (forall i, m :: Score(a.byRun, i, m).Some? ==> (i.0, m) in a.requests && a.requests[(i.0, m)].runId == i.1)
  }

  /** A resolution in the history agrees with the stored request. */
  ghost predicate ResolutionOk(a: Ledger, i: nat)
    requires i < |a.history|
  {
    var e := a.history[i];
    e.Resolved? ==>
      && (e.projectId, e.approvalId) in a.requests
      && var r := a.requests[(e.projectId, e.approvalId)];
         r.runId == e.runId && r.toolName == e.toolName && r.status == if e.approved then Approved else Rejected
  }

  /** No request is resolved twice. */
  ghost predicate ResolvedOnce(h: seq<Record>) {
    forall i, j :: 0 <= i < j < |h| && h[i].Resolved? ==> !IsResolutionOf(h[j], h[i].projectId, h[i].approvalId)
  }

  /** A call let through by a grant had its request approved earlier, for that project, run and
      tool; a call whose verdict is require_approval always went through a grant. */
  ghost predicate PassOk(h: seq<Record>, i: nat)
    requires i < |h|
  {
    h[i].Passed? ==>
      && (h[i].verdict == RequireApproval ==> h[i].via.Some?)
      && (h[i].via.Some? ==>
            exists j: nat :: j < i && ApprovedAt(h, j, h[i].projectId, h[i].via.value, h[i].runId, h[i].toolName))
  }

  /** No approval lets two calls through. */
  ghost predicate UsedOnce(h: seq<Record>) {
    forall i, j :: 0 <= i < j < |h| && h[i].Passed? && h[i].via.Some? ==> !UsedAt(h, j, h[i].projectId, h[i].via.value)
  }

  /** An outstanding grant stands for one approval that has not been used. */
  ghost predicate GrantOk(a: Ledger, g: GrantKey)
    requires g in a.grants
  {
    && (exists j: nat :: ApprovedAt(a.history, j, g.0, a.grants[g].approvalId, g.1, g.2))
    && (forall i: nat :: !UsedAt(a.history, i, g.0, a.grants[g].approvalId))
  }

  ghost predicate HistoryOk(h: seq<Record>) {
    && ResolvedOnce(h) && UsedOnce(h)
    && (forall i {:trigger PassOk(h, i)} :: 0 <= i < |h| ==> PassOk(h, i))
  }

  ghost predicate LedgerInv(a: Ledger) {
    && RequestsOk(a)
    && (forall i {:trigger ResolutionOk(a, i)} :: 0 <= i < |a.history| ==> ResolutionOk(a, i))
    && HistoryOk(a.history)
    && (forall g {:trigger GrantOk(a, g)} :: g in a.grants ==> GrantOk(a, g))
  }

  // ---- each operation keeps it ----

  lemma UsedOnceGrows(h: seq<Record>, e: Record)
    requires UsedOnce(h)
    requires e.Passed? && e.via.Some? ==> forall i: nat :: !UsedAt(h, i, e.projectId, e.via.value)
    ensures UsedOnce(h + [e])
  {
    var h' := h + [e];
    forall i, j | 0 <= i < j < |h'| && h'[i].Passed? && h'[i].via.Some?
      ensures !UsedAt(h', j, h'[i].projectId, h'[i].via.value)
    {
      assert h'[i] == h[i];
      if j < |h| {
        assert !UsedAt(h, j, h[i].projectId, h[i].via.value);
      } else {
        assert e.Passed? && e.via.Some? ==> !UsedAt(h, i, e.projectId, e.via.value);
      }
    }
  }

  lemma CreateKeepsLedger(a: Ledger, pid: string, id: string, runId: string, tool: string, server: string,
                          arguments: string, createdAtLength: nat)
    requires LedgerInv(a) && (pid, id) !in a.requests
    ensures LedgerInv(CreateRequest(a, pid, id, runId, tool, server, arguments, createdAtLength))
  {
    var a' := CreateRequest(a, pid, id, runId, tool, server, arguments, createdAtLength);
    forall k | k in a'.requests ensures RequestOk(a', k) {
      if k == (pid, id) {
        forall i | 0 <= i < |a.history| ensures !IsResolutionOf(a.history[i], pid, id) { assert ResolutionOk(a, i); }
      } else {
        assert RequestOk(a, k);
      }
    }
    forall i | 0 <= i < |a'.history| ensures ResolutionOk(a', i) { assert ResolutionOk(a, i); }
    forall g | g in a'.grants ensures GrantOk(a', g) { assert GrantOk(a, g); }
  }

  lemma ResolveKeepsLedger(a: Ledger, pid: string, id: string, approve: bool, who: string, reason: Option<string>,
                           now: Time)
    requires LedgerInv(a) && Resolve(a, pid, id, approve, who, reason, now).Done?
    ensures LedgerInv(Resolve(a, pid, id, approve, who, reason, now).ledger)
  {
    var a' := Resolve(a, pid, id, approve, who, reason, now).ledger;
    var h, h', n := a.history, a'.history, |a.history|;
    ResolvedRequests(a, pid, id, approve, who, reason, now);
    hide RequestsOk;
    forall i | 0 <= i < n ensures PassOk(h', i) { assert PassOk(h, i); PassStays(h, h'[n], i); }
    hide PassOk;
    UsedOnceGrows(h, h'[n]);
    hide UsedOnce, ResolvedOnce;
    forall g | g in a'.grants ensures GrantOk(a', g) { assert GrantOk(a, g); GrantStays(a, a', g); }
  }

  /** The stored requests and the resolutions of the history still agree. */
  lemma ResolvedRequests(a: Ledger, pid: string, id: string, approve: bool, who: string, reason: Option<string>,
                         now: Time)
    requires LedgerInv(a) && Resolve(a, pid, id, approve, who, reason, now).Done?
    ensures var a' := Resolve(a, pid, id, approve, who, reason, now).ledger;
            && RequestsOk(a') && ResolvedOnce(a'.history)
            && (forall i {:trigger ResolutionOk(a', i)} :: 0 <= i < |a'.history| ==> ResolutionOk(a', i))
  {
    var a' := Resolve(a, pid, id, approve, who, reason, now).ledger;
    var r := a.requests[(pid, id)];
    var h, h', n := a.history, a'.history, |a.history|;
    assert RequestOk(a, (pid, id));
    assert h'[n] == Resolved(pid, id, r.runId, r.toolName, approve);
    FirstResolution(a, h'[n], pid, id);
    hide HistoryOk, ResolvedOnce;
    forall k | k in a'.requests ensures RequestOk(a', k) {
      assert RequestOk(a, k);
      RecordAdded(h, h'[n], k);
      assert k != (pid, id) ==> !IsResolutionOf(h'[n], k.0, k.1);
    }
    hide RequestOk;
    forall i | 0 <= i < |h'| ensures ResolutionOk(a', i) {
      if i < n { assert ResolutionOk(a, i); assert !IsResolutionOf(h[i], pid, id); }
    }
  }

  lemma RecordAdded(h: seq<Record>, e: Record, k: ApprovalKey)
    ensures Unresolved(h + [e], k) <==> Unresolved(h, k) && !IsResolutionOf(e, k.0, k.1)
  {
    var h' := h + [e];
    assert h'[|h|] == e;
    assert forall i :: 0 <= i < |h| ==> h'[i] == h[i];
  }

  /** A pending request has no resolution yet. */
  lemma FirstResolution(a: Ledger, e: Record, pid: string, id: string)
    requires LedgerInv(a) && (pid, id) in a.requests && a.requests[(pid, id)].status == Pending
    requires e.Resolved? && IsResolutionOf(e, pid, id)
    ensures ResolvedOnce(a.history + [e])
  {
    assert RequestOk(a, (pid, id));
    var h' := a.history + [e];
    forall i, j | 0 <= i < j < |h'| && h'[i].Resolved?
      ensures !IsResolutionOf(h'[j], h'[i].projectId, h'[i].approvalId)
    {
      assert h'[i] == a.history[i] && !IsResolutionOf(h'[i], pid, id);
    }
  }

  lemma PassStays(h: seq<Record>, e: Record, i: nat)
    requires i < |h| && PassOk(h, i)
    ensures PassOk(h + [e], i)
  {
    var h' := h + [e];
    if h[i].Passed? && h[i].via.Some? {
      var j: nat :| j < i && ApprovedAt(h, j, h[i].projectId, h[i].via.value, h[i].runId, h[i].toolName);
      assert ApprovedAt(h', j, h[i].projectId, h[i].via.value, h[i].runId, h[i].toolName);
    }
  }

  lemma GrantStays(a: Ledger, a': Ledger, g: GrantKey)
    requires g in a.grants && g in a'.grants && a.grants[g] == a'.grants[g] && GrantOk(a, g)
    requires |a'.history| == |a.history| + 1 && a'.history[..|a.history|] == a.history
    requires !UsedAt(a'.history, |a.history|, g.0, a.grants[g].approvalId)
    ensures GrantOk(a', g)
  {
    var h, h' := a.history, a'.history;
    assert forall i :: 0 <= i < |h| ==> h'[i] == h[i];
    var j: nat :| ApprovedAt(h, j, g.0, a.grants[g].approvalId, g.1, g.2);
    assert ApprovedAt(h', j, g.0, a.grants[g].approvalId, g.1, g.2);
    forall i: nat ensures !UsedAt(h', i, g.0, a.grants[g].approvalId) {
      assert !UsedAt(h, i, g.0, a.grants[g].approvalId);
    }
  }

  lemma IssueKeepsLedger(a: Ledger, pid: string, id: string, runId: string, tool: string, now: Time)
    requires LedgerInv(a)
    requires |a.history| > 0 && a.history[|a.history| - 1] == Resolved(pid, id, runId, tool, true)
    ensures LedgerInv(IssueGrant(a, pid, runId, tool, id, now))
  {
    var a', h := IssueGrant(a, pid, runId, tool, id, now), a.history;
    forall k | k in a'.requests ensures RequestOk(a', k) { assert RequestOk(a, k); }
    forall i | 0 <= i < |h| ensures ResolutionOk(a', i) { assert ResolutionOk(a, i); }
    forall g | g in a'.grants ensures GrantOk(a', g) {
      if g == (pid, runId, tool) {
        assert ApprovedAt(h, |h| - 1, pid, id, runId, tool);
        forall i: nat ensures !UsedAt(h, i, pid, id) {
          // a use before the last record would need an earlier approval of the same request
          assert i < |h| ==> PassOk(h, i);
          assert forall j :: 0 <= j < |h| - 1 && h[j].Resolved? ==>
              !IsResolutionOf(h[|h| - 1], h[j].projectId, h[j].approvalId);
        }
      } else {
        assert GrantOk(a, g);
      }
    }
  }

  lemma PassKeepsLedger(a: Ledger, pid: string, runId: string, tool: string, verdict: Decision)
    requires LedgerInv(a) && verdict != RequireApproval
    ensures LedgerInv(Pass(a, pid, runId, tool, verdict, None))
  {
    var a' := Pass(a, pid, runId, tool, verdict, None);
    HistoryGrows(a, a', Passed(pid, runId, tool, verdict, None));
    var h, h' := a.history, a'.history;
    assert PassOk(h', |h|);
    UsedOnceGrows(h, h'[|h|]);
    forall g | g in a'.grants ensures GrantOk(a', g) { assert GrantOk(a, g); GrantStays(a, a', g); }
  }

  /** Adding a record of a call keeps what is known of the requests. */
  lemma HistoryGrows(a: Ledger, a': Ledger, e: Record)
    requires LedgerInv(a) && e.Passed? && a'.history == a.history + [e]
    requires a'.requests == a.requests && a'.byRun == a.byRun
    ensures RequestsOk(a') && ResolvedOnce(a'.history)
    ensures forall i {:trigger ResolutionOk(a', i)} :: 0 <= i < |a'.history| ==> ResolutionOk(a', i)
    ensures forall i {:trigger PassOk(a'.history, i)} :: 0 <= i < |a.history| ==> PassOk(a'.history, i)
  {
    var h, h' := a.history, a'.history;
    assert forall i {:trigger h[i]} :: 0 <= i < |h| ==> h'[i] == h[i];
    forall k | k in a'.requests ensures RequestOk(a', k) { assert RequestOk(a, k); }
    forall i | 0 <= i < |h'| ensures ResolutionOk(a', i) { if i < |h| { assert ResolutionOk(a, i); } }
    forall i | 0 <= i < |h| ensures PassOk(h', i) { assert PassOk(h, i); PassStays(h, e, i); }
  }

  /** The gate's first branch: the grant is deleted and the call goes through on its account. */
  function UseGrant(a: Ledger, g: GrantKey, verdict: Decision): Ledger
    requires g in a.grants
  {
    Pass(ConsumeGrant(a, g), g.0, g.1, g.2, verdict, Some(a.grants[g].approvalId))
  }

  lemma UseKeepsLedger(a: Ledger, g: GrantKey, verdict: Decision)
    requires LedgerInv(a) && g in a.grants
    ensures LedgerInv(UseGrant(a, g, verdict))
  {
    var a', id := UseGrant(a, g, verdict), a.grants[g].approvalId;
    var h, h' := a.history, a'.history;
    var e := Passed(g.0, g.1, g.2, verdict, Some(id));
    assert GrantOk(a, g);
    HistoryGrows(a, a', e);
    var j: nat :| ApprovedAt(h, j, g.0, id, g.1, g.2);
    assert ApprovedAt(h', j, g.0, id, g.1, g.2);
    assert PassOk(h', |h|);
    UsedOnceGrows(h, e);
    forall f | f in a'.grants ensures GrantOk(a', f) {
      assert GrantOk(a, f);
      if UsedAt(h', |h|, f.0, a.grants[f].approvalId) {
        SameApprovalSameGrant(a, f, g);
        assert false;
      }
      GrantStays(a, a', f);
    }
  }

  lemma SameApprovalSameGrant(a: Ledger, f: GrantKey, g: GrantKey)
    requires LedgerInv(a) && f in a.grants && g in a.grants
    requires f.0 == g.0 && a.grants[f].approvalId == a.grants[g].approvalId
    ensures f == g
  {
    assert GrantOk(a, f) && GrantOk(a, g);
    var h, id := a.history, a.grants[f].approvalId;
    var i: nat :| ApprovedAt(h, i, f.0, id, f.1, f.2);
    var j: nat :| ApprovedAt(h, j, g.0, id, g.1, g.2);
    assert ResolutionOk(a, i) && ResolutionOk(a, j);
  }

  lemma ApproveKeepsLedger(a: Ledger, r: ApprovalRequest, who: string, reason: Option<string>, now: Time)
    requires LedgerInv(a)
    requires (r.projectId, r.approvalId) in a.requests && a.requests[(r.projectId, r.approvalId)] == r
    requires r.status == Pending
    ensures LedgerInv(Approve(a, r, who, reason, now))
  {
    ResolveKeepsLedger(a, r.projectId, r.approvalId, true, who, reason, now);
    var a' := Resolve(a, r.projectId, r.approvalId, true, who, reason, now).ledger;
    IssueKeepsLedger(a', r.projectId, r.approvalId, r.runId, r.toolName, now + 1);
  }

  /** A request can be resolved exactly while it is pending, and once: the next attempt is refused
      with the status it got.  No other request is touched. */
  lemma ResolvedForGood(a: Ledger, pid: string, id: string, approve: bool, who: string, reason: Option<string>, now: Time,
                        again: bool, who2: string, reason2: Option<string>, later: Time)
    requires LedgerInv(a)
    ensures var r := Resolve(a, pid, id, approve, who, reason, now);
            && (r.Done? <==> (pid, id) in a.requests && a.requests[(pid, id)].status == Pending)
            && (r.Done? ==>
                  && Resolve(r.ledger, pid, id, again, who2, reason2, later)
                       == AlreadyResolved(if approve then Approved else Rejected)
                  && r.ledger.requests.Keys == a.requests.Keys && r.ledger.grants == a.grants
                  && forall k :: k in a.requests && k != (pid, id) ==> r.ledger.requests[k] == a.requests[k])
  {
    if (pid, id) in a.requests { assert RequestOk(a, (pid, id)); }
  }

  // ---- what the invariant says of the history ----

  predicate IsApprovalFor(e: Record, g: GrantKey) {
    e.Resolved? && e.approved && e.projectId == g.0 && e.runId == g.1 && e.toolName == g.2
  }

  predicate IsGatedPass(e: Record, g: GrantKey) {
    e.Passed? && e.verdict == RequireApproval && e.projectId == g.0 && e.runId == g.1 && e.toolName == g.2
  }

  ghost function Positions(h: seq<Record>, p: Record -> bool): set<nat> { set i: nat | i < |h| && p(h[i]) }

  ghost function ApprovalsFor(h: seq<Record>, g: GrantKey): set<nat> { Positions(h, e => IsApprovalFor(e, g)) }
  ghost function GatedPasses(h: seq<Record>, g: GrantKey): set<nat> { Positions(h, e => IsGatedPass(e, g)) }

  /** The approval that a gated call used: an earlier record for the same project, run and tool. */
  ghost function ApprovalUsed(h: seq<Record>, i: nat): (j: nat)
    requires HistoryOk(h) && i < |h| && h[i].Passed? && h[i].verdict == RequireApproval
    ensures h[i].via.Some?
    ensures j < i && ApprovedAt(h, j, h[i].projectId, h[i].via.value, h[i].runId, h[i].toolName)
  {
    assert PassOk(h, i);
    var j: nat :| j < i && ApprovedAt(h, j, h[i].projectId, h[i].via.value, h[i].runId, h[i].toolName);
    j
  }

  /** Two gated calls never use the same approval. */
  lemma ApprovalUsedInjective(h: seq<Record>, i: nat, k: nat)
    requires HistoryOk(h) && i < k < |h|
    requires h[i].Passed? && h[i].verdict == RequireApproval && h[k].Passed? && h[k].verdict == RequireApproval
    ensures ApprovalUsed(h, i) != ApprovalUsed(h, k)
  {
    assert PassOk(h, i) && PassOk(h, k);
    if ApprovalUsed(h, i) == ApprovalUsed(h, k) {
      assert UsedAt(h, k, h[i].projectId, h[i].via.value);
    }
  }

  lemma {:induction false} InjectionBounds(A: set<nat>, B: set<nat>, f: map<nat, nat>)
    requires A <= f.Keys && forall x :: x in A ==> f[x] in B
    requires forall x, y :: x in A && y in A && x != y ==> f[x] != f[y]
    ensures |A| <= |B|
    decreases A
  {
    if A != {} {
      var x :| x in A;
      InjectionBounds(A - {x}, B - {f[x]}, f);
    }
  }

  /** Allowed uses never exceed approvals: of one project, run and tool, at most as many gated
      calls went through as requests were approved. */
  lemma UsesBounded(h: seq<Record>, g: GrantKey)
    requires HistoryOk(h)
    ensures |GatedPasses(h, g)| <= |ApprovalsFor(h, g)|
  {
    var A, B := GatedPasses(h, g), ApprovalsFor(h, g);
    var f := map i | i in A :: ApprovalUsed(h, i);
    forall i | i in A ensures f[i] in B { assert h[i].Passed?; }
    forall i, k | i in A && k in A && i != k ensures f[i] != f[k] {
      if i < k { ApprovalUsedInjective(h, i, k); } else { ApprovalUsedInjective(h, k, i); }
    }
    InjectionBounds(A, B, f);
  }

  // ---- the pending request of a run ----

  lemma {:induction false} FirstPendingExact(a: Ledger, pid: string, ids: seq<string>)
    ensures var r := FirstPending(a, pid, ids);
            && (r.Some? ==> r.value.status == Pending
                            && exists m :: m in ids && (pid, m) in a.requests && a.requests[(pid, m)] == r.value)
            && (r.None? ==> forall m :: m in ids && (pid, m) in a.requests ==> a.requests[(pid, m)].status != Pending)
  {
    if ids != [] {
      FirstPendingExact(a, pid, ids[1..]);
      assert ids[0] in ids && forall m :: m in ids <==> m == ids[0] || m in ids[1..];
    }
  }

  /** A request the search reports is a stored pending request of that very run. */
  lemma PendingSound(a: Ledger, pid: string, runId: string)
    requires LedgerInv(a)
    ensures var r := GetPendingForRun(a, pid, runId);
            r.Some? ==> var q := r.value;
              && q.projectId == pid && q.runId == runId && q.status == Pending
              && (pid, q.approvalId) in a.requests && a.requests[(pid, q.approvalId)] == q
  {
    var z := ZSetAt(a.byRun, (pid, runId));
    FirstPendingExact(a, pid, ZRevRange(z, 0, 20));
    var r := GetPendingForRun(a, pid, runId);
    if r.Some? {
      var m :| m in ZRevRange(z, 0, 20) && (pid, m) in a.requests && a.requests[(pid, m)] == r.value;
      ZRevRangeMembers(z, 20, m);
      assert Score(a.byRun, (pid, runId), m).Some?;
      assert RequestOk(a, (pid, m));
    }
  }

  /** The search finds nothing exactly when the top 21 entries of the run's index are all resolved;
      for a run with at most 21 requests, exactly when no request of it is pending. */
  lemma PendingMissedExactly(a: Ledger, pid: string, runId: string)
    requires LedgerInv(a)
    ensures var z := ZSetAt(a.byRun, (pid, runId));
            && (GetPendingForRun(a, pid, runId).None? <==>
                 forall m :: m in ZRevRange(z, 0, 20) ==>
                   (pid, m) in a.requests && a.requests[(pid, m)].status != Pending)
            && (|z| <= 21 ==> (GetPendingForRun(a, pid, runId).None? <==>
                 forall k :: k in a.requests && k.0 == pid && a.requests[k].runId == runId ==>
                   a.requests[k].status != Pending))
  {
    var z := ZSetAt(a.byRun, (pid, runId));
    var ids := ZRevRange(z, 0, 20);
    FirstPendingExact(a, pid, ids);
    forall m | m in ids ensures (pid, m) in a.requests && a.requests[(pid, m)].runId == runId {
      ZRevRangeMembers(z, 20, m);
      assert Score(a.byRun, (pid, runId), m).Some?;
    }
    if |z| <= 21 {
      forall k | k in a.requests && k.0 == pid && a.requests[k].runId == runId ensures k.1 in ids {
        assert RequestOk(a, k);
        ZRevRangeAll(z, 20, k.1);
      }
    }
  }

  // ---- a pending request that is missed ----

  function Later(n: nat): string { seq(n + 2, _ => 'b') }

  function AskedAndApproved(a: Ledger, pid: string, runId: string, id: string): Ledger {
    var a1 := CreateRequest(a, pid, id, runId, id, "", "", 32);
    Approve(a1, a1.requests[(pid, id)], "admin", None, 0)
  }

  /** One request is left pending, and `n` more of the same run, each for another tool, are created
      and approved one after the other. */
  function Crowded(pid: string, runId: string, n: nat): Ledger {
    if n == 0 then CreateRequest(EMPTY_LEDGER, pid, "a", runId, "a", "", "", 32)
    else AskedAndApproved(Crowded(pid, runId, n - 1), pid, runId, Later(n))
  }

  /** `n` later requests, all resolved, stand above the pending one in the index of the run. */
  predicate BuriedIn(requests: map<ApprovalKey, ApprovalRequest>, z: ZSet, pid: string, n: nat) {
    && |z| == n + 1 && "a" in z && z["a"] == 32
    && (pid, "a") in requests && requests[(pid, "a")].status == Pending
    && (forall x :: x in z && x != "a" ==>
          1 < |x| < n + 3 && x[0] == 'b' && z[x] == 32 && (pid, x) in requests && requests[(pid, x)].status != Pending)
    && (forall k :: k in requests ==> k.1 in z)
  }

  ghost predicate Buried(a: Ledger, pid: string, runId: string, n: nat) {
    LedgerInv(a) && BuriedIn(a.requests, ZSetAt(a.byRun, (pid, runId)), pid, n)
  }

  lemma AskedKeeps(a: Ledger, pid: string, runId: string, id: string)
    requires LedgerInv(a) && (pid, id) !in a.requests
    ensures LedgerInv(AskedAndApproved(a, pid, runId, id))
  {
    hide LedgerInv;
    var a1 := CreateRequest(a, pid, id, runId, id, "", "", 32);
    CreateKeepsLedger(a, pid, id, runId, id, "", "", 32);
    ApproveKeepsLedger(a1, a1.requests[(pid, id)], "admin", None, 0);
  }

  lemma AskedFacts(a: Ledger, pid: string, runId: string, id: string)
    ensures var a', z := AskedAndApproved(a, pid, runId, id), ZSetAt(a.byRun, (pid, runId));
            && ZSetAt(a'.byRun, (pid, runId)) == z[id := 32]
            && a'.requests.Keys == a.requests.Keys + {(pid, id)} && a'.requests[(pid, id)].status == Approved
            && forall k :: k in a.requests && k != (pid, id) ==> a'.requests[k] == a.requests[k]
  {
    assert ZSetAt(a.byRun, (pid, runId))[id := 32][id := 32] == ZSetAt(a.byRun, (pid, runId))[id := 32];
  }

  lemma OneMoreAbove(requests: map<ApprovalKey, ApprovalRequest>, z: ZSet, requests': map<ApprovalKey, ApprovalRequest>,
                     pid: string, id: string, n: nat)
    requires BuriedIn(requests, z, pid, n) && id !in z && |id| == n + 3 && id[0] == 'b'
    requires requests'.Keys == requests.Keys + {(pid, id)} && requests'[(pid, id)].status == Approved
    requires forall k :: k in requests && k != (pid, id) ==> requests'[k] == requests[k]
    ensures BuriedIn(requests', z[id := 32], pid, n + 1)
  {
    var z' := z[id := 32];
    assert |z'| == |z| + 1 by { assert z'.Keys == z.Keys + {id}; }
    assert |id| > 1 && id != "a";
    forall x | x in z' && x != "a"
      ensures 1 < |x| < n + 4 && x[0] == 'b' && z'[x] == 32 && (pid, x) in requests'
                && requests'[(pid, x)].status != Pending
    {
      assert x != id ==> x in z && (pid, x) != (pid, id);
    }
  }

  lemma BuriedDeeper(a: Ledger, pid: string, runId: string, n: nat)
    requires Buried(a, pid, runId, n)
    ensures Buried(AskedAndApproved(a, pid, runId, Later(n + 1)), pid, runId, n + 1)
  {
    var id, z := Later(n + 1), ZSetAt(a.byRun, (pid, runId));
    assert id !in z && (pid, id) !in a.requests;
    hide LedgerInv, AskedAndApproved, ZSetAt, BuriedIn;
    AskedFacts(a, pid, runId, id);
    AskedKeeps(a, pid, runId, id);
    OneMoreAbove(a.requests, z, AskedAndApproved(a, pid, runId, id).requests, pid, id, n);
  }

  lemma FirstBuried(pid: string, runId: string)
    ensures Buried(Crowded(pid, runId, 0), pid, runId, 0)
  {
    CreateKeepsLedger(EMPTY_LEDGER, pid, "a", runId, "a", "", "", 32);
    assert ZSetAt(Crowded(pid, runId, 0).byRun, (pid, runId)) == map["a" := 32];
    hide LedgerInv;
  }

  lemma {:induction false} CrowdedBuries(pid: string, runId: string, n: nat)
    ensures Buried(Crowded(pid, runId, n), pid, runId, n)
  {
    hide Buried, AskedAndApproved, Later;
    if n == 0 {
      FirstBuried(pid, runId);
    } else {
      CrowdedBuries(pid, runId, n - 1);
      BuriedDeeper(Crowded(pid, runId, n - 1), pid, runId, n - 1);
    }
  }

  /** With 21 or more of them the search finds nothing, although a request is pending. */
  lemma PendingMissedReached(pid: string, runId: string, n: nat)
    requires n >= 21
    ensures var a := Crowded(pid, runId, n);
            && LedgerInv(a) && GetPendingForRun(a, pid, runId).None?
            && (pid, "a") in a.requests && a.requests[(pid, "a")].status == Pending
                 && a.requests[(pid, "a")].runId == runId
  {
    var a := Crowded(pid, runId, n);
    var z := ZSetAt(a.byRun, (pid, runId));
    CrowdedBuries(pid, runId, n);
    LowestNotListed(z, 20, "a");
    forall m | m in ZRevRange(z, 0, 20) ensures (pid, m) in a.requests && a.requests[(pid, m)].status != Pending {
      ZRevRangeMembers(z, 20, m);
    }
    PendingMissedExactly(a, pid, runId);
    assert RequestOk(a, (pid, "a"));
  }
}
