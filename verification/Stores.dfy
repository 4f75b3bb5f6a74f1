/** The run store and the event store over one storage, field by field as the code keeps them.
    Each method is proved against the operation of the same name in RunDb.dfy. */
module Stores {
  import opened Wrappers
  import opened RunModel
  import opened ZSets
  import opened RunDb
  import Text

  datatype EventDoc = EventDoc(
    eventId: string, projectId: string, runId: string, seqNo: nat, body: EventBody, timestamp: Time)

  // ---- the event documents of one run ----

  type EventDocs = map<(string, string), EventDoc>   // (project id, event id)

  /** One turn of the loop that loads runs. */
  lemma LoadedNext(d: Runs, pid: string, ids: seq<string>, i: nat)
    requires i < |ids|
    ensures Loaded(d, pid, ids[i..]) ==
            (if (pid, ids[i]) in d.runs then [d.runs[(pid, ids[i])]] else []) + Loaded(d, pid, ids[i + 1..])
  {
    assert ids[i..][1..] == ids[i + 1..];
  }

  predicate IsEventAt(docs: EventDocs, k: RunKey, id: string, i: nat, e: EventBody) {
    && (k.0, id) in docs
    && var d := docs[(k.0, id)];
       d.eventId == id && d.projectId == k.0 && d.runId == k.1 && d.seqNo == i + 1 && d.body == e
  }

  /** The documents, the index and the counter of a run hold exactly this log: the i-th event has
      sequence number i + 1, which is also its score. */
  ghost predicate HoldsLog(docs: EventDocs, z: ZSet, n: nat, k: RunKey, log: seq<EventBody>, ids: seq<string>) {
    && |ids| == |log| == n
    && (forall i {:trigger ids[i]} :: 0 <= i < n ==>
          IsEventAt(docs, k, ids[i], i, log[i]) && ids[i] in z && z[ids[i]] == i + 1)
    && (forall m {:trigger m in ids} :: m in z ==> m in ids)
  }

  lemma IndexOrder(docs: EventDocs, z: ZSet, n: nat, k: RunKey, log: seq<EventBody>, ids: seq<string>)
    requires HoldsLog(docs, z, n, k, log, ids)
    ensures Ordered(z) == ids
  {
    forall x ensures x in z <==> x in ids {
      if x in ids { var i :| 0 <= i < |ids| && ids[i] == x; }
    }
    OrderingUnique(z, Ordered(z), ids);
  }

  /** One more event with a new identifier. */
  lemma LogGrows(docs: EventDocs, z: ZSet, n: nat, k: RunKey, log: seq<EventBody>, ids: seq<string>, d: EventDoc)
    requires HoldsLog(docs, z, n, k, log, ids)
    requires (k.0, d.eventId) !in docs && d.projectId == k.0 && d.runId == k.1 && d.seqNo == n + 1
    ensures HoldsLog(docs[(k.0, d.eventId) := d], z[d.eventId := n + 1], n + 1, k, log + [d.body], ids + [d.eventId])
  {
    var docs', ids' := docs[(k.0, d.eventId) := d], ids + [d.eventId];
    forall i | 0 <= i < n + 1
      ensures IsEventAt(docs', k, ids'[i], i, (log + [d.body])[i])
      ensures ids'[i] in z[d.eventId := n + 1] && z[d.eventId := n + 1][ids'[i]] == i + 1
    {
      if i < n { assert ids'[i] == ids[i]; assert IsEventAt(docs, k, ids[i], i, log[i]); }
    }
    forall m | m in z[d.eventId := n + 1] ensures m in ids' {
      if m == d.eventId { assert ids'[n] == m; } else { assert m in ids; }
    }
  }

  /** A document of another run or project changes nothing. */
  lemma LogKept(docs: EventDocs, z: ZSet, n: nat, k: RunKey, log: seq<EventBody>, ids: seq<string>,
                key: (string, string), d: EventDoc)
    requires HoldsLog(docs, z, n, k, log, ids) && key !in docs
    ensures HoldsLog(docs[key := d], z, n, k, log, ids)
  {
    forall i | 0 <= i < n ensures IsEventAt(docs[key := d], k, ids[i], i, log[i]) && ids[i] in z && z[ids[i]] == i + 1 {
      assert IsEventAt(docs, k, ids[i], i, log[i]);
    }
  }

  /** All event tables, with the log and the identifiers they stand for. */
  datatype Events = Events(
    docs: EventDocs, index: map<RunKey, ZSet>, seqs: map<RunKey, nat>,
    log: map<RunKey, seq<EventBody>>, ids: map<RunKey, seq<string>>)

  function IndexOf(index: map<RunKey, ZSet>, k: RunKey): ZSet { if k in index then index[k] else map[] }
  function CountOf(seqs: map<RunKey, nat>, k: RunKey): nat { if k in seqs then seqs[k] else 0 }
  function EntriesOf<T>(m: map<RunKey, seq<T>>, k: RunKey): seq<T> { if k in m then m[k] else [] }

  ghost predicate RunHeld(t: Events, k: RunKey) {
    HoldsLog(t.docs, IndexOf(t.index, k), CountOf(t.seqs, k), k, EntriesOf(t.log, k), EntriesOf(t.ids, k))
  }

  ghost predicate EventsOk(t: Events, uuids: nat) {
    && (forall k {:trigger RunHeld(t, k)} :: RunHeld(t, k))
    && (forall key :: key in t.docs ==> |key.1| < uuids)
  }

  function Appended(t: Events, k: RunKey, d: EventDoc): Events {
    Events(t.docs[(k.0, d.eventId) := d],
           t.index[k := IndexOf(t.index, k)[d.eventId := d.seqNo]],
           t.seqs[k := CountOf(t.seqs, k) + 1],
           t.log[k := EntriesOf(t.log, k) + [d.body]],
           t.ids[k := EntriesOf(t.ids, k) + [d.eventId]])
  }

  lemma AppendedOk(t: Events, uuids: nat, k: RunKey, d: EventDoc)
    requires EventsOk(t, uuids) && |d.eventId| == uuids
    requires d.projectId == k.0 && d.runId == k.1 && d.seqNo == CountOf(t.seqs, k) + 1
    ensures EventsOk(Appended(t, k, d), uuids + 1)
  {
    var t' := Appended(t, k, d);
    forall j ensures RunHeld(t', j) {
      assert RunHeld(t, j);
      if j == k {
        LogGrows(t.docs, IndexOf(t.index, k), CountOf(t.seqs, k), k, EntriesOf(t.log, k), EntriesOf(t.ids, k), d);
      } else {
        LogKept(t.docs, IndexOf(t.index, j), CountOf(t.seqs, j), j, EntriesOf(t.log, j), EntriesOf(t.ids, j),
          (k.0, d.eventId), d);
      }
    }
  }

  lemma IdDrawn(t: Events, uuids: nat)
    requires EventsOk(t, uuids)
    ensures EventsOk(t, uuids + 1)
  {
  }

  // ---- sorting by sequence number ----

  predicate AscendingSeqs(s: seq<EventDoc>) { forall i, j :: 0 <= i < j < |s| ==> s[i].seqNo < s[j].seqNo }

  function InsertBySeq(s: seq<EventDoc>, d: EventDoc): seq<EventDoc> {
    if s == [] then [d]
    else if s[|s| - 1].seqNo <= d.seqNo then s + [d]
    else InsertBySeq(s[..|s| - 1], d) + [s[|s| - 1]]
  }

  function SortBySeq(s: seq<EventDoc>): seq<EventDoc> {
    if s == [] then [] else InsertBySeq(SortBySeq(s[..|s| - 1]), s[|s| - 1])
  }

  lemma {:induction false} SortLeavesSorted(s: seq<EventDoc>)
    requires AscendingSeqs(s)
    ensures SortBySeq(s) == s
  {
    if s != [] {
      SortLeavesSorted(s[..|s| - 1]);
      assert s == s[..|s| - 1] + [s[|s| - 1]];
    }
  }

  // ---- paging ----

  function PageSize(limit: int): nat { if limit < 1 then 1 else if limit > 500 then 500 else limit }

  function PageStart(after: int, n: nat): nat { if after < 0 then 0 else if after > n then n else after }

  /** Documents that stand for consecutive events of the log. */
  ghost predicate IsStretch(out: seq<EventDoc>, log: seq<EventBody>, k: RunKey, from: nat) {
    from + |out| <= |log| &&
    forall i {:trigger out[i]} :: 0 <= i < |out| ==>
      && out[i].projectId == k.0 && out[i].runId == k.1
      && out[i].seqNo == from + i + 1 && out[i].body == log[from + i]
  }

  lemma StretchAscends(out: seq<EventDoc>, log: seq<EventBody>, k: RunKey, from: nat)
    requires IsStretch(out, log, k, from)
    ensures AscendingSeqs(out)
  {
  }

  function FirstOf(s: seq<EventDoc>, n: nat): seq<EventDoc> { if |s| <= n then s else s[..n] }

  /** A page: the events that follow a sequence number, as many as there are or as asked for. */
  ghost predicate IsPage(out: seq<EventDoc>, log: seq<EventBody>, k: RunKey, after: int, limit: int) {
    var from := PageStart(after, |log|);
    IsStretch(out, log, k, from) && |out| == if |log| - from < PageSize(limit) then |log| - from else PageSize(limit)
  }

  lemma PageTaken(events: seq<EventDoc>, log: seq<EventBody>, k: RunKey, after: int, limit: int)
    requires var from := PageStart(after, |log|); IsStretch(events, log, k, from) && |events| == |log| - from
    ensures IsPage(FirstOf(events, PageSize(limit)), log, k, after, limit)
  {
    var n := PageSize(limit);
    assert forall i :: 0 <= i < |FirstOf(events, n)| ==> FirstOf(events, n)[i] == events[i];
  }

  // ---- counting what recovery fails ----

  ghost function StartedAmong(runs: map<RunKey, Run>, ks: seq<RunKey>): set<RunKey> {
    set k | k in ks && k in runs && Started(runs[k].status)
  }

  lemma StartedOneMore(runs: map<RunKey, Run>, ks: seq<RunKey>, k: RunKey)
    requires k in runs && k !in ks
    ensures |StartedAmong(runs, ks + [k])| == |StartedAmong(runs, ks)| + (if Started(runs[k].status) then 1 else 0)
  {
    assert StartedAmong(runs, ks + [k]) == StartedAmong(runs, ks) + (if Started(runs[k].status) then {k} else {});
  }

  lemma OnlyStartedFail(d: Runs, k: RunKey, reason: string)
    requires k in d.runs
    ensures Transition(d, k, Failed, reason, false).Ok? <==> Started(d.runs[k].status)
  {
  }

  class Storage {
    var clock: Time
    var uuids: nat
    var runs: map<RunKey, Run>
    var byUser: map<IndexKey, ZSet>
    var byChat: map<IndexKey, ZSet>
    var eventDocs: EventDocs
    var eventIndex: map<RunKey, ZSet>
    var seqs: map<RunKey, nat>
    ghost var log: map<RunKey, seq<EventBody>>
    ghost var ids: map<RunKey, seq<string>>
    ghost var recovered: set<RunKey>

    constructor ()
      ensures Valid() && Db() == EMPTY_RUNS
    {
      clock, uuids := 0, 0;
      runs, byUser, byChat := map[], map[], map[];
      eventDocs, eventIndex, seqs := map[], map[], map[];
      log, ids, recovered := map[], map[], {};
    }

    ghost function Db(): Runs
      reads this
    {
      Runs(clock, runs, byUser, byChat, log, recovered)
    }

    ghost predicate Valid()
      reads this`eventDocs, this`eventIndex, this`seqs, this`log, this`ids, this`uuids
    {
      EventsOk(Events(eventDocs, eventIndex, seqs, log, ids), uuids)
    }

    method Now() returns (t: Time)
      modifies this`clock
      ensures t == old(clock) && clock == t + 1
    {
      t := clock;
      clock := clock + 1;
    }

    method NewId() returns (id: string)
      requires Valid()
      modifies this`uuids
      ensures Valid() && |id| == old(uuids) && uuids == old(uuids) + 1
    {
      IdDrawn(Events(eventDocs, eventIndex, seqs, log, ids), uuids);
      id := Text.IdText(uuids);
      uuids := uuids + 1;
    }

    /** _save */
    method SaveRun(run: Run)
      modifies this`runs, this`byUser, this`byChat
      ensures Db() == Save(old(Db()), run)
    {
      runs := runs[(run.projectId, run.runId) := run];
      byUser := ZAdd(byUser, (run.projectId, run.uid), run.runId, run.updatedAt);
      if run.chatId.Some? {
        byChat := ZAdd(byChat, (run.projectId, run.chatId.value), run.runId, run.updatedAt);
      }
    }

    /** _next_seq */
    method NextSeq(k: RunKey) returns (n: nat)
      modifies this`seqs
      ensures n == CountOf(old(seqs), k) + 1 && seqs == old(seqs)[k := n]
    {
      n := CountOf(seqs, k) + 1;
      seqs := seqs[k := n];
    }

    method BumpStats(k: RunKey, e: EventBody)
      modifies this`clock, this`runs, this`byUser, this`byChat
      ensures Db() == BumpEventStats(old(Db()), k, e)
    {
      if k in runs {
        var run := runs[k];
        var now := Now();
        SaveRun(run.(eventCount := run.eventCount + 1,
                     toolCallCount := if e.ToolCall? then run.toolCallCount + 1 else run.toolCallCount,
                     updatedAt := now));
      }
    }

    /** The document, its index entry and, in the model, what they stand for. */
    method WriteEntry(ghost was: Events, k: RunKey, doc: EventDoc)
      requires EventsOk(was, |doc.eventId|) && uuids == |doc.eventId| + 1
      requires was == Events(eventDocs, eventIndex, was.seqs, log, ids) && seqs == was.seqs[k := doc.seqNo]
      requires doc.projectId == k.0 && doc.runId == k.1 && doc.seqNo == CountOf(was.seqs, k) + 1
      modifies this`eventDocs, this`eventIndex, this`log, this`ids
      ensures Valid() && log == old(log)[k := EntriesOf(old(log), k) + [doc.body]]
    {
      AppendedOk(was, |doc.eventId|, k, doc);
      eventDocs := eventDocs[(k.0, doc.eventId) := doc];
      eventIndex := eventIndex[k := IndexOf(eventIndex, k)[doc.eventId := doc.seqNo]];
      log := log[k := EntriesOf(log, k) + [doc.body]];
      ids := ids[k := EntriesOf(ids, k) + [doc.eventId]];
      assert Events(eventDocs, eventIndex, seqs, log, ids) == Appended(was, k, doc);
    }

    /** RunEventStore.append, up to the counters of the run. */
    method AddEntry(k: RunKey, e: EventBody)
      requires Valid()
      modifies this`clock, this`uuids, this`eventDocs, this`eventIndex, this`seqs, this`log, this`ids
      ensures Valid() && Db() == Logged(old(Db()), k, e)
    {
      ghost var was := Events(eventDocs, eventIndex, seqs, log, ids);
      var id := NewId();
      var n := NextSeq(k);
      var now := Now();
      WriteEntry(was, k, EventDoc(id, k.0, k.1, n, e, now));
      assert Db() == Tick(old(Db())).(log := log);
    }

    method Append(k: RunKey, e: EventBody)
      requires Valid()
      modifies this
      ensures Valid() && Db() == AppendEvent(old(Db()), k, e)
    {
      AddEntry(k, e);
      BumpStats(k, e);
    }

    method Create(pid: string, uid: string, source: RunSource, chatId: Option<string>, job: Option<string>,
                  ticket: Option<string>)
      returns (run: Run)
      requires Valid()
      modifies this
      ensures Valid() && Db() == CreateRun(old(Db()), pid, run.runId, uid, source, chatId, job, ticket)
      ensures run == runs[(pid, run.runId)] && |run.runId| == old(uuids) < uuids
    {
      var now := Now();
      var id := NewId();
      run := Run(id, pid, uid, source, Created, now, now, chatId, job, ticket, None, None, None, None, 0, 0);
      assert run == NewRun(old(clock), pid, id, uid, source, chatId, job, ticket);
      assert Db() == Tick(old(Db()));
      SaveRun(run);
    }

    /** The fields that a transition writes, one after another. */
    static method Written(run: Run, to: RunStatus, now: Time, error: string) returns (r: Run)
      ensures r == Moved(run, to, now, error)
    {
      r := run.(status := to, updatedAt := now);
      if to == Running && r.startedAt.None? { r := r.(startedAt := Some(now)); }
      if IsTerminal(to) { r := r.(finishedAt := Some(now)); }
      if error != "" {
        r := r.(errorMessage := Some(Truncated(error, 500)));
      } else if to !in {Failed, Blocked, Cancelled} {
        r := r.(errorMessage := None);
      }
    }

    /** transition: an error is reported before anything is written. */
    method Move(k: RunKey, to: RunStatus, error: string, audited: bool) returns (r: Result<Run>)
      requires Valid()
      modifies this
      ensures Valid()
      ensures match Transition(old(Db()), k, to, error, audited)
              case Ok(d) => Db() == d && r.Ok?
              case Err(e) => Db() == old(Db()) && r == Err(e)
    {
      if k !in runs { return Err(RunNotFound); }
      var run := runs[k];
      var from := run.status;
      var v := ValidateTransition(from, to);
      if v.Err? { return Err(v.error); }
      var now := Now();
      run := Written(run, to, now, error);
      assert Db() == Tick(old(Db()));
      Commit(run, k, from, audited);
      return Ok(run);
    }

    method Commit(run: Run, k: RunKey, from: RunStatus, audited: bool)
      requires Valid()
      modifies this
      ensures Valid()
      ensures Db() == if audited then Audited(Save(old(Db()), run), k, from, run.status) else Save(old(Db()), run)
    {
      SaveRun(run);
      if audited { MoveAudit(k, from, run.status); }
    }

    method MoveAudit(k: RunKey, from: RunStatus, to: RunStatus)
      requires Valid()
      modifies this
      ensures Valid() && Db() == Audited(old(Db()), k, from, to)
    {
      Append(k, RunStatusChanged(from, to));
      if IsTerminal(to) { Append(k, RunCompleted(to)); }
    }

    method SetOhConversation(k: RunKey, conv: string) returns (found: bool)
      requires Valid()
      modifies this`clock, this`runs, this`byUser, this`byChat
      ensures Valid() && Db() == SetOhConversationId(old(Db()), k, conv)
      ensures found <==> k in old(runs)
    {
      if k !in runs { return false; }
      var now := Now();
      SaveRun(runs[k].(ohConversationId := Some(conv), updatedAt := now));
      return true;
    }

    /** A transition whose refusal the caller only logs. */
    method TryMove(k: RunKey, to: RunStatus, error: string)
      requires Valid()
      modifies this
      ensures Valid() && Db() == TryTransition(old(Db()), k, to, error)
    {
      var r := Move(k, to, error, true);
    }

    /** begin_investigation_run: create, record, start. */
    method Begin(pid: string, uid: string, source: RunSource, chatId: Option<string>, job: Option<string>,
                 ticket: Option<string>)
      returns (runId: string)
      requires Valid()
      modifies this
      ensures Valid() && Db() == BeginRun(old(Db()), pid, runId, uid, source, chatId, job, ticket)
      ensures |runId| == old(uuids)
    {
      var run := Create(pid, uid, source, chatId, job, ticket);
      runId := run.runId;
      Append((pid, runId), RunCreated(source, chatId, job));
      var r := Move((pid, runId), Running, "", true);
    }

    /** list_runs_for_chat: the ids from the top of the index, those that are stored. */
    method RunsForChat(pid: string, chatId: string, limit: nat) returns (out: seq<Run>)
      ensures out == ListRunsForChat(Db(), pid, chatId, limit)
    {
      var z := ZSetAt(byChat, (pid, chatId));
      var members := SortedMembers(z, true);
      out := LoadRuns(pid, Slice(members, 0, if limit == 0 then 0 else limit - 1));
    }

    method LoadRuns(pid: string, runIds: seq<string>) returns (out: seq<Run>)
      ensures out == Loaded(Db(), pid, runIds)
    {
      ghost var d := Db();
      assert runIds[0..] == runIds && runIds[|runIds|..] == [] && Loaded(d, pid, []) == [];
      hide Loaded;
      out := [];
      for i := 0 to |runIds|
        invariant Loaded(d, pid, runIds) == out + Loaded(d, pid, runIds[i..])
      {
        LoadedNext(d, pid, runIds, i);
        if (pid, runIds[i]) in runs { out := out + [runs[(pid, runIds[i])]]; }
      }
    }

    method ActiveRunForChat(pid: string, uid: string, chatId: string) returns (r: Option<Run>)
      ensures r == GetActiveRunForChat(Db(), pid, uid, chatId)
    {
      var listed := RunsForChat(pid, chatId, 50);
      for i := 0 to |listed|
        invariant FirstActive(listed, uid) == FirstActive(listed[i..], uid)
      {
        assert listed[i..][1..] == listed[i + 1..];
        if listed[i].uid == uid && !IsTerminal(listed[i].status) { return Some(listed[i]); }
      }
      return None;
    }

    /** One pass of the recovery loop. */
    method FailOne(k: RunKey, reason: string) returns (did: bool)
      requires Valid() && k in runs
      modifies this
      ensures Valid() && Db() == FailOrphan(old(Db()), k, reason)
      ensures did <==> Started(old(runs)[k].status)
    {
      OnlyStartedFail(Db(), k, reason);
      if IsTerminal(runs[k].status) { return false; }
      var r := Move(k, Failed, reason, false);
      if r.Ok? { recovered := recovered + {k}; }
      return r.Ok?;
    }

    /** fail_orphaned_runs, over the stored keys in any order; it counts what it failed. */
    method FailOrphanedRuns(reason: string) returns (failed: nat, ghost ks: seq<RunKey>)
      requires Valid() && RunsInv(Db())
      modifies this
      ensures Valid() && RunsInv(Db()) && Db() == FailOrphans(old(Db()), ks, reason)
      ensures forall k :: k in old(runs) <==> k in ks
      ensures failed == |StartedAmong(old(runs), ks)|
    {
      failed, ks := 0, [];
      var todo := runs.Keys;
      ghost var d0 := Db();
      while todo != {}
        invariant Valid() && Db() == FailOrphans(d0, ks, reason)
        invariant forall k :: k in d0.runs <==> k in todo || k in ks
        invariant forall k :: k in ks ==> k !in todo
        invariant failed == |StartedAmong(d0.runs, ks)|
      {
        var k :| k in todo;
        RecoveryExact(d0, ks, reason);
        assert Recovery(d0.runs[k], runs[k], k in ks);
        StartedOneMore(d0.runs, ks, k);
        assert (ks + [k])[..|ks|] == ks;
        var did := FailOne(k, reason);
        if did { failed := failed + 1; }
        ks := ks + [k];
        todo := todo - {k};
      }
      RecoveryExact(d0, ks, reason);
    }

    /** The loop of list_events. */
    method EventsAfter(k: RunKey, after: int) returns (events: seq<EventDoc>)
      requires Valid()
      ensures var l, from := LogOf(Db(), k), PageStart(after, |LogOf(Db(), k)|);
              IsStretch(events, l, k, from) && |events| == |l| - from
    {
      ghost var l, i0 := EntriesOf(log, k), EntriesOf(ids, k);
      var z := IndexOf(eventIndex, k);
      assert RunHeld(Events(eventDocs, eventIndex, seqs, log, ids), k);
      IndexOrder(eventDocs, z, CountOf(seqs, k), k, l, i0);
      var eventIds := SortedMembers(z, false);
      hide RunHeld, HoldsLog, Ordered;
      events := [];
      for i := 0 to |eventIds|
        invariant |events| == if i <= PageStart(after, |l|) then 0 else i - PageStart(after, |l|)
        invariant IsStretch(events, l, k, PageStart(after, |l|))
      {
        assert IsEventAt(eventDocs, k, eventIds[i], i, l[i]);
        var key := (k.0, eventIds[i]);
        if key in eventDocs && eventDocs[key].seqNo > after { events := events + [eventDocs[key]]; }
      }
    }

    /** list_events */
    method ListEvents(k: RunKey, after: int, limit: int) returns (out: seq<EventDoc>)
      requires Valid()
      ensures IsPage(out, LogOf(Db(), k), k, after, limit)
    {
      var events := EventsAfter(k, after);
      StretchAscends(events, LogOf(Db(), k), k, PageStart(after, |LogOf(Db(), k)|));
      SortLeavesSorted(events);
      events := SortBySeq(events);
      out := FirstOf(events, PageSize(limit));
      PageTaken(events, LogOf(Db(), k), k, after, limit);
    }

    /** A reader that asks for the events after the last one it has seen, with any page size each
        time, until a page is empty. */
    method ReadAll(k: RunKey, limits: nat -> int) returns (all: seq<EventDoc>)
      requires Valid()
      ensures |all| == |LogOf(Db(), k)| && IsStretch(all, LogOf(Db(), k), k, 0)
    {
      ghost var l := LogOf(Db(), k);
      all := [];
      var after, round := 0, 0;
      while true
        invariant |all| <= |l| && IsStretch(all, l, k, 0) && after == |all|
        decreases |l| - |all|
      {
        var page := ListEvents(k, after, limits(round));
        if page == [] { return; }
        all := all + page;
        after := page[|page| - 1].seqNo;
        round := round + 1;
      }
    }
  }
}
