/** The history replayed to the agent, and whether the agent already has it. */
module Replay {
  import opened Text

  /** A stored message, as far as replaying looks at it; also one entry of a history. */
  datatype Entry = Entry(role: string, content: string)

  predicate Replayable(role: string) { role == "user" || role == "assistant" }

  /** The messages that can be replayed: user or assistant, with some text. */
  function Usable(messages: seq<Entry>): seq<Entry> {
    if messages == [] then []
    else
      var m := messages[|messages| - 1];
      Usable(messages[..|messages| - 1]) +
      (if Replayable(m.role) && Strip(m.content) != "" then [Entry(m.role, Strip(m.content))] else [])
  }

  function WithoutLast(history: seq<Entry>, current: string): seq<Entry> {
    if history == [] then []
    else
      var last := history[|history| - 1];
      if last.role == "user" && Normalize(last.content) == Normalize(current) then history[..|history| - 1] else history
  }

  /** _history_from_thread; an absent thread has no messages. */
  method HistoryFromThread(messages: seq<Entry>, currentUserMessage: string) returns (history: seq<Entry>)
    ensures history == WithoutLast(Usable(messages), currentUserMessage)
  {
    history := [];
    for i := 0 to |messages|
      invariant history == Usable(messages[..i])
    {
      assert messages[..i + 1][..i] == messages[..i];
      var content := Strip(messages[i].content);
      if !Replayable(messages[i].role) || content == "" { continue; }
      history := history + [Entry(messages[i].role, content)];
    }
    assert messages[..|messages|] == messages;
    if history == [] { return; }
    var last := history[|history| - 1];
    if last.role == "user" && Normalize(last.content) == Normalize(currentUserMessage) {
      history := history[..|history| - 1];
    }
  }

  lemma {:induction false} UsableEntries(messages: seq<Entry>, i: nat)
    requires i < |Usable(messages)|
    ensures Replayable(Usable(messages)[i].role) && Usable(messages)[i].content != ""
    ensures Trimmed(Usable(messages)[i].content)
  {
    var rest, m := messages[..|messages| - 1], messages[|messages| - 1];
    if i < |Usable(rest)| { UsableEntries(rest, i); } else { StripTrims(m.content); }
  }

  lemma UsableSnoc(earlier: seq<Entry>, m: Entry)
    ensures Usable(earlier + [m]) ==
            Usable(earlier) + (if Replayable(m.role) && Strip(m.content) != "" then [Entry(m.role, Strip(m.content))]
              else [])
  {
    assert (earlier + [m])[..|earlier|] == earlier;
  }

  lemma UsableNotBlank(messages: seq<Entry>, i: nat)
    requires i < |Usable(messages)|
    ensures Normalize(Usable(messages)[i].content) != ""
  {
    UsableEntries(messages, i);
    var c := Usable(messages)[i].content;
    NormalizeEmpty(c);
    assert !IsSpace(c[0]);
  }

  /** Storing the current message first and leaving it out afterwards gives exactly the usable
      messages that were there before, blank or not, and also when the same text was sent before. */
  lemma CurrentMessageLeftOut(earlier: seq<Entry>, message: string)
    ensures var current := Strip(message);
            WithoutLast(Usable(earlier + [Entry("user", current)]), current) == Usable(earlier)
  {
    var current, u := Strip(message), Usable(earlier);
    StripTrims(message);
    UsableSnoc(earlier, Entry("user", current));
    if current != "" {
      LastDropped(u, current);
    } else {
      assert u + [] == u;
      NormalizeEmpty("");
      if u != [] { UsableNotBlank(earlier, |u| - 1); }
      NoneDropped(u, current);
    }
  }

  lemma LastDropped(u: seq<Entry>, current: string)
    ensures WithoutLast(u + [Entry("user", current)], current) == u
  {
    assert (u + [Entry("user", current)])[..|u|] == u;
  }

  lemma NoneDropped(u: seq<Entry>, current: string)
    requires u != [] ==> Normalize(u[|u| - 1].content) != Normalize(current)
    ensures WithoutLast(u, current) == u
  {
  }

  // ---- synchronisation with the agent's own messages ----

  /** The (role, normalised text) pairs of a history. */
  function Pairs(history: seq<Entry>): seq<Entry> {
    if history == [] then []
    else
      var m := history[|history| - 1];
      Pairs(history[..|history| - 1]) +
      (if Replayable(m.role) && Normalize(m.content) != "" then [Entry(m.role, Normalize(m.content))] else [])
  }

  /** filter_chat_history */
  method FilterChatHistory(history: seq<Entry>) returns (pairs: seq<Entry>)
    ensures pairs == Pairs(history)
  {
    pairs := [];
    for i := 0 to |history|
      invariant pairs == Pairs(history[..i])
    {
      assert history[..i + 1][..i] == history[..i];
      var content := Normalize(history[i].content);
      if Replayable(history[i].role) && content != "" { pairs := pairs + [Entry(history[i].role, content)]; }
    }
    assert history[..|history|] == history;
  }

  /** The length of the longest common beginning. */
  predicate IsCommonPrefix(a: seq<Entry>, b: seq<Entry>, n: nat) {
    && n <= |a| && n <= |b| && a[..n] == b[..n]
    && (n == |a| || n == |b| || a[n] != b[n])
  }

  /** history_prefix_match_len */
  method HistoryPrefixMatchLen(openhands: seq<Entry>, history: seq<Entry>) returns (matched: nat)
    ensures IsCommonPrefix(openhands, Pairs(history), matched)
  {
    var pairs := FilterChatHistory(history);
    matched := 0;
    for i := 0 to |pairs|
      invariant matched == i <= |openhands| && openhands[..i] == pairs[..i]
    {
      if i >= |openhands| { break; }
      if openhands[i] == pairs[i] {
        matched := i + 1;
      } else {
        break;
      }
    }
  }

  /** history_is_synced: exactly when the filtered history is the beginning of the agent's
      messages. */
  method HistoryIsSynced(openhands: seq<Entry>, history: seq<Entry>) returns (synced: bool)
    ensures synced <==> Pairs(history) <= openhands
  {
    var pairs := FilterChatHistory(history);
    if pairs == [] { return true; }
    var n := HistoryPrefixMatchLen(openhands, history);
    synced := n >= |pairs|;
    CommonPrefixDecides(openhands, pairs, n);
  }

  lemma CommonPrefixDecides(a: seq<Entry>, b: seq<Entry>, n: nat)
    requires IsCommonPrefix(a, b, n)
    ensures n >= |b| <==> b <= a
  {
    if n < |b| { assert |b| <= |a| ==> a[..|b|][n] == a[n]; }
  }
}
