/** One chat turn: the user's message is stored, then the history to replay is read back. */
module ChatOrchestrator {
  import opened Wrappers
  import opened Text
  import opened ChatHistory
  import opened Replay

  function Entries(ms: seq<Message>): (es: seq<Entry>)
    ensures |es| == |ms| && forall i :: 0 <= i < |ms| ==> es[i] == Entry(ms[i].role, ms[i].content)
  {
    if ms == [] then [] else Entries(ms[..|ms| - 1]) + [Entry(ms[|ms| - 1].role, ms[|ms| - 1].content)]
  }

  /** The newest n messages. */
  function Newest(ms: seq<Message>, n: nat): seq<Message> { if |ms| <= n then ms else ms[|ms| - n..] }

  /** The history replayed with a message: the usable ones among the newest 199 before it. */
  lemma ReplayedHistory(said: seq<Message>, m: Message, message: string)
    requires m.role == "user" && m.content == Strip(message)
    ensures WithoutLast(Usable(Entries(Last(said + [m]))), Strip(message))
              == Usable(Entries(Newest(said, MAX_MESSAGES - 1)))
  {
    var earlier := Newest(said, MAX_MESSAGES - 1);
    assert Last(said + [m]) == earlier + [m];
    assert Entries(earlier + [m]) == Entries(earlier) + [Entry("user", Strip(message))];
    CurrentMessageLeftOut(Entries(earlier), message);
  }

  /** run_chat_stream, up to the start of the run; None stands for its error on a missing chat. */
  method PrepareTurn(store: ChatHistoryStore, c: ChatKey, message: string, now: string,
                     imageUrls: Option<ChatHistory.Json>)
    returns (history: Option<seq<Entry>>)
    requires store.Valid()
    modifies store
    ensures store.Valid()
    ensures history.Some? <==> c in old(store.metas)
    ensures history.Some? ==> history.value == Usable(Entries(Newest(SaidOf(old(store.T()), c), MAX_MESSAGES - 1)))
    ensures history.Some? ==> OthersSame(old(store.T()), store.T(), c)
  {
    ghost var said := SaidOf(store.T(), c);
    var ok, m := store.AppendMessage(c, "user", Strip(message), now, None, None, [], None, imageUrls, None);
    if !ok { return None; }
    var thread := store.GetThread(c);
    if thread.None? { return None; }
    var entries := Entries(thread.value);
    var replay := HistoryFromThread(entries, Strip(message));
    ReplayedHistory(said, m, message);
    return Some(replay);
  }
}
