/** Decoding the visible reply out of a growing JSON buffer, token by token. */
module StreamReply {
  import opened Wrappers
  import opened Text

  // ---- reading a JSON string value that may be cut short ----

  /** What stands for the character after a backslash. */
  function Decoded(c: char): char {
    if c == 'n' then '\n' else if c == 't' then '\t' else if c == 'r' then '\r' else c
  }

  /** The value that starts at `i`, as far as the buffer goes. */
  function ReadFrom(raw: string, i: nat): string
    requires i <= |raw|
    decreases |raw| - i
  {
    if i == |raw| then ""
    else if raw[i] == '\\' && i + 1 < |raw| then [Decoded(raw[i + 1])] + ReadFrom(raw, i + 2)
    else if raw[i] == '"' then ""
    else [raw[i]] + ReadFrom(raw, i + 1)
  }

  /** _read_json_string_value */
  method ReadJsonStringValue(raw: string, start: nat) returns (value: string)
    requires start <= |raw|
    ensures value == ReadFrom(raw, start)
  {
    value := "";
    var i := start;
    while i < |raw|
      invariant i <= |raw| && value + ReadFrom(raw, i) == ReadFrom(raw, start)
      decreases |raw| - i
    {
      var ch := raw[i];
      if ch == '\\' {
        if i + 1 < |raw| {
          value := value + [Decoded(raw[i + 1])];
          i := i + 2;
          continue;
        }
      }
      if ch == '"' { break; }
      value := value + [ch];
      i := i + 1;
    }
  }

  // ---- finding the value ----

  predicate At(raw: string, marker: string, i: nat) { i + |marker| <= |raw| && raw[i..i + |marker|] == marker }

  /** str.find */
  function Find(raw: string, marker: string, i: nat): Option<nat>
    requires i <= |raw|
    ensures Find(raw, marker, i).Some? ==> Find(raw, marker, i).value + |marker| <= |raw|
    decreases |raw| - i
  {
    if At(raw, marker, i) then Some(i)
    else if i == |raw| then None
    else Find(raw, marker, i + 1)
  }

  const MARKERS: seq<string> := ["\"message\":\"", "\"message\": \"", "\"message\":\n\"", "\"message\": \n\""]

  /** The value after the first of the markers that occurs at all. */
  function AfterMarker(raw: string, markers: seq<string>): Option<string> {
    if markers == [] then None
    else
      var at := Find(raw, markers[0], 0);
      if at.Some? then Some(ReadFrom(raw, at.value + |markers[0]|)) else AfterMarker(raw, markers[1..])
  }

  /** extract_visible_reply */
  function ExtractVisible(raw: string): Option<string> {
    var found := AfterMarker(raw, MARKERS);
    if found.Some? then found
    else
      var stripped := LStrip(raw);
      if stripped == "" then None
      else if stripped[0] in {'{', '[', '<'} then None
      else if stripped[0] == '"' && ':' in (if |stripped| <= 24 then stripped else stripped[..24]) then None
      else Some(raw)
  }

  // ---- the state ----

  datatype Reply = Reply(buffer: string, emitted: string, deltaCount: nat)

  const FRESH := Reply("", "", 0)

  /** consume_stream_content: the new state and the new text. */
  function Consume(st: Reply, content: string): (Reply, string) {
    if content == "" then (st, "")
    else
      var st1 := st.(buffer := st.buffer + content);
      var visible := ExtractVisible(st1.buffer);
      if visible.None? || |visible.value| <= |st.emitted| then (st1, "")
      else (st1.(emitted := visible.value, deltaCount := st.deltaCount + 1), visible.value[|st.emitted|..])
  }

  function ResetTurn(st: Reply): Reply { st.(buffer := "", emitted := "") }

  class ReplyStreamState {
    var llmBuffer: string
    var emitted: string
    var deltaCount: nat

    constructor ()
      ensures View() == FRESH
    {
      llmBuffer, emitted, deltaCount := "", "", 0;
    }

    function View(): Reply
      reads this
    {
      Reply(llmBuffer, emitted, deltaCount)
    }

    method Reset()
      modifies this
      ensures View() == ResetTurn(old(View()))
    {
      llmBuffer := "";
      emitted := "";
    }

    method ConsumeStreamContent(content: string) returns (delta: string)
      modifies this
      ensures (View(), delta) == Consume(old(View()), content)
    {
      if content == "" { return ""; }
      llmBuffer := llmBuffer + content;
      var visible := ExtractVisible(llmBuffer);
      if visible.None? { return ""; }
      if |visible.value| <= |emitted| { return ""; }
      delta := visible.value[|emitted|..];
      emitted := visible.value;
      deltaCount := deltaCount + 1;
    }
  }

  /** The state after a list of tokens, and all the text given out for them. */
  function After(st: Reply, chunks: seq<string>): Reply {
    if chunks == [] then st
    else Consume(After(st, chunks[..|chunks| - 1]), chunks[|chunks| - 1]).0
  }

  function Output(st: Reply, chunks: seq<string>): string {
    if chunks == [] then ""
    else
      var rest := chunks[..|chunks| - 1];
      Output(st, rest) + Consume(After(st, rest), chunks[|chunks| - 1]).1
  }

  // ---- the encoder's side ----

  /** The escapes of section 7 of RFC 8259 for newline, tab, carriage return, quote and backslash. */
  function Escape(c: char): string {
    if c == '\n' then "\\n" else if c == '\t' then "\\t" else if c == '\r' then "\\r"
    else if c == '"' then "\\\"" else if c == '\\' then "\\\\" else [c]
  }

  function EscapeAll(s: string): string { if s == "" then "" else Escape(s[0]) + EscapeAll(s[1..]) }

  const HEAD := "{\"message\":\""

  /** The length of HEAD: where the value starts. */
  const START := 12

  /** What the model streams: a JSON object whose first member is the message. */
  function Wire(s: string, tail: string): string { HEAD + EscapeAll(s) + "\"" + tail }

  /** Where the encoding of the j-th character starts in the value. */
  function Offset(s: string, j: nat): nat
    requires j <= |s|
  {
    |EscapeAll(s[..j])|
  }

  /** What is visible of `s` when `m` characters of its encoding have arrived: the characters that
      are there in full, and a backslash for one whose escape is cut in two. */
  function Shown(s: string, m: nat): string {
    if s == "" || m == 0 then ""
    else if m < |Escape(s[0])| then "\\"
    else [s[0]] + Shown(s[1..], m - |Escape(s[0])|)
  }

  lemma EscapeDecodes(c: char)
    ensures |Escape(c)| == 2 ==> Escape(c)[0] == '\\' && Decoded(Escape(c)[1]) == c
    ensures |Escape(c)| == 1 ==> Escape(c) == [c] && c != '\\' && c != '"'
    ensures 1 <= |Escape(c)| <= 2
  {
  }

  /** Two texts that agree still agree behind their first `n` characters. */
  lemma SliceBehind(raw: string, i: nat, t: string, m: nat, n: nat)
    requires i + m == |raw| && n <= m <= |t| && raw[i..] == t[..m]
    ensures raw[i + n..] == t[n..][..m - n]
    ensures forall k: nat {:trigger t[k]} :: k < m ==> raw[i + k] == t[k]
  {
    assert raw[i..][n..] == raw[i + n..];
    assert t[..m][n..] == t[n..][..m - n];
    forall k: nat | k < m ensures raw[i + k] == t[k] { assert raw[i + k] == raw[i..][k] == t[..m][k]; }
  }

  /** The value as it is streamed, with what follows it. */
  function Body(s: string, rest: string): string { EscapeAll(s) + "\"" + rest }

  lemma BodySplit(s: string, rest: string)
    requires s != ""
    ensures Body(s, rest) == Escape(s[0]) + Body(s[1..], rest)
  {
    assert EscapeAll(s) == Escape(s[0]) + EscapeAll(s[1..]);
  }

  /** One turn of the reader at the start of a character's encoding. */
  lemma ReadOne(raw: string, i: nat, c: char)
    requires i < |raw| && raw[i] == Escape(c)[0]
    requires |Escape(c)| == 2 && i + 1 < |raw| ==> raw[i + 1] == Escape(c)[1]
    ensures |Escape(c)| > |raw| - i ==> ReadFrom(raw, i) == "\\"
    ensures |Escape(c)| <= |raw| - i ==> ReadFrom(raw, i) == [c] + ReadFrom(raw, i + |Escape(c)|)
  {
    EscapeDecodes(c);
    assert |raw| - i == 1 ==> ReadFrom(raw, i + 1) == "";
  }

  /** Reading any prefix of an encoded value shows exactly `Shown`. */
  lemma {:induction false} ReadShows(s: string, rest: string, raw: string, i: nat, m: nat)
    requires i + m == |raw| && m <= |Body(s, rest)|
    requires raw[i..] == Body(s, rest)[..m]
    ensures ReadFrom(raw, i) == Shown(s, m)
    decreases |s|
  {
    if s == "" {
      assert m > 0 ==> raw[i] == raw[i..][0] == Body(s, rest)[0] == '"';
    } else if m > 0 {
      hide Body, ReadFrom, Escape, EscapeAll;
      var e := Escape(s[0]);
      EscapeDecodes(s[0]);
      BodySplit(s, rest);
      SliceBehind(raw, i, Body(s, rest), m, if m >= |e| then |e| else 0);
      assert Body(s, rest)[0] == e[0] && (|e| == 2 ==> Body(s, rest)[1] == e[1]);
      ReadOne(raw, i, s[0]);
      if m >= |e| {
        assert Body(s, rest)[|e|..] == Body(s[1..], rest);
        ReadShows(s[1..], rest, raw, i + |e|, m - |e|);
      }
    }
  }

  lemma {:induction false} FindNone(raw: string, marker: string, i: nat)
    requires i <= |raw| && forall k :: i <= k <= |raw| ==> !At(raw, marker, k)
    ensures Find(raw, marker, i).None?
    decreases |raw| - i
  {
    if i < |raw| { FindNone(raw, marker, i + 1); }
  }

  lemma {:induction false} NoneFound(raw: string, markers: seq<string>)
    requires forall k: nat :: k < |markers| ==> Find(raw, markers[k], 0).None?
    ensures AfterMarker(raw, markers).None?
  {
    if markers != [] {
      assert Find(raw, markers[0], 0).None?;
      forall k: nat | k < |markers[1..]| ensures Find(raw, markers[1..][k], 0).None? {
        assert markers[1..][k] == markers[k + 1];
      }
      NoneFound(raw, markers[1..]);
    }
  }

  lemma MarkerFacts()
    ensures |MARKERS| == 4 && |HEAD| == START && HEAD[0] == '{' && |MARKERS[0]| == 11 && HEAD[1..] == MARKERS[0]
    ensures forall k: nat :: k < 4 ==> |MARKERS[k]| >= 11 && MARKERS[k][0] == '"'
  {
    assert HEAD[1..] == "\"message\":\"";
    assert MARKERS[0][0] == '"' && MARKERS[1][0] == '"' && MARKERS[2][0] == '"' && MARKERS[3][0] == '"';
    assert |MARKERS[1]| == 12 && |MARKERS[2]| == 12 && |MARKERS[3]| == 13;
  }

  lemma MarkerNotAt(raw: string, marker: string, i: nat)
    requires |raw| < START && (raw != "" ==> raw[0] == '{') && |marker| >= 11 && marker[0] == '"'
    ensures !At(raw, marker, i)
  {
    if i + |marker| <= |raw| { assert raw[i..i + |marker|][0] == raw[i] == raw[0]; }
  }

  /** Nothing is visible before the value starts. */
  lemma HeadHidden(n: nat)
    requires n < START <= |HEAD|
    ensures ExtractVisible(HEAD[..n]).None?
  {
    MarkerFacts();
    var raw := HEAD[..n];
    forall k: nat, i: nat | k < 4 ensures !At(raw, MARKERS[k], i) { MarkerNotAt(raw, MARKERS[k], i); }
    forall k: nat | k < 4 ensures Find(raw, MARKERS[k], 0).None? { FindNone(raw, MARKERS[k], 0); }
    NoneFound(raw, MARKERS);
  }

  lemma HeadFound(raw: string)
    requires START <= |raw| && raw[..START] == HEAD
    ensures ExtractVisible(raw) == Some(ReadFrom(raw, START))
  {
    MarkerFacts();
    var m := MARKERS[0];
    assert raw[1..1 + |m|] == raw[..START][1..] == m;
    assert At(raw, m, 1);
    assert raw[0..|m|][0] == raw[0] == raw[..START][0] == '{';
    assert !At(raw, m, 0);
    assert Find(raw, m, 0) == Some(1);
  }

  /** What is visible of any prefix of the wire. */
  lemma PrefixShows(s: string, tail: string, n: nat)
    requires n <= |Wire(s, tail)|
    ensures ExtractVisible(Wire(s, tail)[..n]) == if n < START then None else Some(Shown(s, n - START))
  {
    var w := Wire(s, tail);
    var raw, body := w[..n], EscapeAll(s) + "\"" + tail;
    MarkerFacts();
    assert w == HEAD + body;
    if n < START {
      assert raw == HEAD[..n];
      HeadHidden(n);
    } else {
      HeadFound(raw);
      assert raw[START..] == body[..n - START];
      ReadShows(s, tail, raw, START, n - START);
    }
  }

  // ---- what is shown, character by character ----

  lemma OffsetNext(s: string, j: nat)
    requires 0 < j <= |s|
    ensures Offset(s, j) == |Escape(s[0])| + Offset(s[1..], j - 1)
  {
    assert s[..j][1..] == s[1..][..j - 1];
  }

  /** A boundary after `m` characters of the encoding cuts the escape of `s[j]` in two. */
  predicate Cuts(s: string, m: int, j: nat)
    requires j < |s|
  {
    |Escape(s[j])| == 2 && m == Offset(s, j) + 1
  }

  lemma {:induction false} ShownAt(s: string, m: nat, j: nat)
    requires j < |s|
    ensures j < |Shown(s, m)| <==> Offset(s, j) < m
    ensures j < |Shown(s, m)| ==> Shown(s, m)[j] == if Cuts(s, m, j) then '\\' else s[j]
    ensures |Shown(s, m)| <= |s|
    decreases |s|
  {
    EscapeDecodes(s[0]);
    if j > 0 { OffsetNext(s, j); } else { assert s[..0] == ""; }
    if m >= |Escape(s[0])| {
      if j > 0 {
        ShownAt(s[1..], m - |Escape(s[0])|, j - 1);
      } else if |s| > 1 {
        ShownAt(s[1..], m - |Escape(s[0])|, 0);
      }
    }
  }

  lemma {:induction false} ShownAll(s: string, m: nat)
    requires m >= |EscapeAll(s)|
    ensures Shown(s, m) == s
  {
    if s != "" {
      EscapeDecodes(s[0]);
      ShownAll(s[1..], m - |Escape(s[0])|);
    }
  }

  lemma ShownGrows(s: string, m: nat, m': nat)
    requires m <= m'
    ensures |Shown(s, m)| <= |Shown(s, m')| <= |s|
  {
    var k := |Shown(s, m)|;
    if s != "" {
      ShownAt(s, m, 0);
      ShownAt(s, m', 0);
      if k > 0 {
        ShownAt(s, m, k - 1);
        ShownAt(s, m', k - 1);
      }
    }
  }

  // ---- chunk independence ----

  /** A boundary between tokens cuts the escape of `s[j]` in two. */
  ghost predicate CutAt(chunks: seq<string>, s: string, j: nat)
    requires j < |s|
  {
    exists i :: 0 <= i <= |chunks| && Cuts(s, |Concat(chunks[..i])| - START, j)
  }

  lemma {:induction false} BoundaryBefore(chunks: seq<string>, i: nat)
    requires i <= |chunks|
    ensures |Concat(chunks[..i])| <= |Concat(chunks)|
    decreases |chunks| - i
  {
    if i < |chunks| {
      BoundaryBefore(chunks, i + 1);
      assert chunks[..i + 1] == chunks[..i] + [chunks[i]];
      ConcatSnoc(chunks[..i], chunks[i]);
    } else {
      assert chunks[..i] == chunks;
    }
  }

  lemma CutSnoc(chunks: seq<string>, c: string, s: string, j: nat)
    requires j < |s|
    ensures CutAt(chunks + [c], s, j) <==> CutAt(chunks, s, j) || Cuts(s, |Concat(chunks + [c])| - START, j)
  {
    var all := chunks + [c];
    forall i | 0 <= i <= |chunks| ensures all[..i] == chunks[..i] {}
    assert all[..|all|] == all;
    if CutAt(chunks, s, j) {
      var i :| 0 <= i <= |chunks| && Cuts(s, |Concat(chunks[..i])| - START, j);
      assert Cuts(s, |Concat(all[..i])| - START, j);
    }
  }

  /** The tokens so far are the beginning of the wire. */
  predicate Streams(chunks: seq<string>, s: string, tail: string) {
    |Concat(chunks)| <= |Wire(s, tail)| && Concat(chunks) == Wire(s, tail)[..|Concat(chunks)|]
  }

  function ShownLength(s: string, n: nat): nat { if n < START then 0 else |Shown(s, n - START)| }

  /** How much was given out. */
  ghost predicate StreamCore(chunks: seq<string>, s: string) {
    var st, out := After(FRESH, chunks), Output(FRESH, chunks);
    && st.buffer == Concat(chunks)
    && |out| == |st.emitted| == ShownLength(s, |Concat(chunks)|) <= |s|
    && (st.deltaCount == 0 <==> out == "")
  }

  /** What is known after any tokens: the text given out is what is visible, except for a backslash
      where a boundary cut an escape. */
  ghost predicate StreamInv(chunks: seq<string>, s: string, tail: string) {
    var st, out := After(FRESH, chunks), Output(FRESH, chunks);
    && StreamCore(chunks, s)
    && (forall j :: 0 <= j < |out| ==> out[j] == if CutAt(chunks, s, j) then '\\' else s[j])
    && (forall j :: 0 <= j < |out| ==> st.emitted[j] == s[j] || CutAt(chunks, s, j))
  }

  lemma StreamsRest(chunks: seq<string>, c: string, s: string, tail: string)
    requires Streams(chunks + [c], s, tail)
    ensures Streams(chunks, s, tail) && Concat(chunks + [c]) == Concat(chunks) + c
  {
    ConcatSnoc(chunks, c);
  }

  lemma {:induction false} StreamHolds(chunks: seq<string>, s: string, tail: string)
    requires Streams(chunks, s, tail)
    ensures StreamInv(chunks, s, tail)
  {
    if chunks != [] {
      var rest, c := chunks[..|chunks| - 1], chunks[|chunks| - 1];
      assert chunks == rest + [c];
      StreamsRest(rest, c, s, tail);
      StreamHolds(rest, s, tail);
      StreamStep(rest, c, s, tail);
    }
  }

  /** A character that was given out before is cut by no new boundary, and one given out now was
      cut by no earlier one. */
  lemma CutsOnce(chunks: seq<string>, c: string, s: string, tail: string, j: nat)
    requires Streams(chunks + [c], s, tail) && j < |s|
    ensures j < ShownLength(s, |Concat(chunks)|) ==> (CutAt(chunks + [c], s, j) <==> CutAt(chunks, s, j))
    ensures j >= ShownLength(s, |Concat(chunks)|) ==>
              (CutAt(chunks + [c], s, j) <==> Cuts(s, |Concat(chunks + [c])| - START, j))
  {
    CutSnoc(chunks, c, s, j);
    StreamsRest(chunks, c, s, tail);
    var n := |Concat(chunks)|;
    if n >= START { ShownAt(s, n - START, j); }
    if j < ShownLength(s, n) {
      assert chunks[..|chunks|] == chunks;
      assert Cuts(s, n - START, j) ==> CutAt(chunks, s, j);
    } else if CutAt(chunks, s, j) {
      var i :| 0 <= i <= |chunks| && Cuts(s, |Concat(chunks[..i])| - START, j);
      BoundaryBefore(chunks, i);
      assert false;
    }
  }

  function VisibleAt(s: string, n: nat): string { if n < START then "" else Shown(s, n - START) }

  /** One token: when more is visible than was given out, the rest of it is given out now. */
  lemma ConsumeShape(st: Reply, c: string, v: string)
    requires |st.emitted| <= |v|
    requires c == "" ==> |v| == |st.emitted|
    requires c != "" ==> ExtractVisible(st.buffer + c) == Some(v) || (v == "" && ExtractVisible(st.buffer + c).None?)
    ensures Consume(st, c) ==
            if |v| > |st.emitted|
            then (Reply(st.buffer + c, v, st.deltaCount + 1), v[|st.emitted|..])
            else (st.(buffer := st.buffer + c), "")
  {
    assert st.buffer + "" == st.buffer;
  }

  lemma AfterSnoc(rest: seq<string>, c: string)
    ensures var (st', delta) := Consume(After(FRESH, rest), c);
            After(FRESH, rest + [c]) == st' && Output(FRESH, rest + [c]) == Output(FRESH, rest) + delta
  {
    assert (rest + [c])[..|rest|] == rest;
  }

  lemma StreamShows(chunks: seq<string>, s: string, tail: string)
    requires Streams(chunks, s, tail)
    ensures var v := VisibleAt(s, |Concat(chunks)|);
            ExtractVisible(Concat(chunks)) == Some(v) || (v == "" && ExtractVisible(Concat(chunks)).None?)
  {
    PrefixShows(s, tail, |Concat(chunks)|);
  }

  /** What the token `c` makes of the state and of the text given out. */
  ghost predicate Stepped(rest: seq<string>, c: string, v: string) {
    var st, st', out, out' := After(FRESH, rest), After(FRESH, rest + [c]), Output(FRESH, rest),
      Output(FRESH, rest + [c]);
    && st'.buffer == Concat(rest + [c]) && |out| <= |v|
    && (if |v| > |out|
        then st' == Reply(st'.buffer, v, st.deltaCount + 1) && out' == out + v[|out|..]
        else st' == st.(buffer := st'.buffer) && out' == out)
  }

  lemma StepShape(rest: seq<string>, c: string, s: string, tail: string)
    requires Streams(rest + [c], s, tail) && StreamCore(rest, s)
    ensures Stepped(rest, c, VisibleAt(s, |Concat(rest + [c])|))
  {
    hide Consume, ExtractVisible, Wire, Shown, Concat;
    var n := |Concat(rest + [c])|;
    StreamShows(rest + [c], s, tail);
    StreamsRest(rest, c, s, tail);
    VisibleGrows(s, |Concat(rest)|, n);
    AfterSnoc(rest, c);
    ConsumeShape(After(FRESH, rest), c, VisibleAt(s, n));
  }

  lemma VisibleGrows(s: string, n: nat, n': nat)
    requires n <= n'
    ensures |VisibleAt(s, n)| == ShownLength(s, n) <= |VisibleAt(s, n')| <= |s|
  {
    if n >= START { ShownGrows(s, n - START, n' - START); }
    if n' >= START { ShownGrows(s, 0, n' - START); }
  }

  lemma StreamStep(rest: seq<string>, c: string, s: string, tail: string)
    requires Streams(rest + [c], s, tail) && StreamInv(rest, s, tail)
    ensures StreamInv(rest + [c], s, tail)
  {
    var chunks := rest + [c];
    StepShape(rest, c, s, tail);
    StreamsRest(rest, c, s, tail);
    var n := |Concat(chunks)|;
    VisibleGrows(s, |Concat(rest)|, n);
    var v := VisibleAt(s, n);
    var st', out, out' := After(FRESH, chunks), Output(FRESH, rest), Output(FRESH, chunks);
    forall j | 0 <= j < |out'|
      ensures out'[j] == if CutAt(chunks, s, j) then '\\' else s[j]
      ensures st'.emitted[j] == s[j] || CutAt(chunks, s, j)
    {
      CharShown(rest, c, s, tail, j);
      assert j >= |out| ==> out'[j] == v[j];
    }
  }

  /** The j-th visible character after the token, against what was given out before it. */
  lemma CharShown(rest: seq<string>, c: string, s: string, tail: string, j: nat)
    requires Streams(rest + [c], s, tail) && j < |VisibleAt(s, |Concat(rest + [c])|)| <= |s|
    ensures var chunks, v := rest + [c], VisibleAt(s, |Concat(rest + [c])|);
            && (v[j] == s[j] || CutAt(chunks, s, j))
            && (if j < ShownLength(s, |Concat(rest)|) then CutAt(chunks, s, j) <==> CutAt(rest, s, j)
                else v[j] == if CutAt(chunks, s, j) then '\\' else s[j])
  {
    CutsOnce(rest, c, s, tail, j);
    CutSnoc(rest, c, s, j);
    ShownAt(s, |Concat(rest + [c])| - START, j);
  }

  /** Chunk independence: however the wire of any text is cut into tokens, the text given out has
      the length of the message and equals it everywhere, except that a backslash stands where a
      boundary cut an escape in two.  So it is the message exactly when every escape that was cut
      is that of a backslash. */
  lemma ChunkIndependence(chunks: seq<string>, s: string, tail: string)
    requires Concat(chunks) == Wire(s, tail)
    ensures var out := Output(FRESH, chunks);
            && |out| == |s|
            && (forall j :: 0 <= j < |s| ==> out[j] == if CutAt(chunks, s, j) then '\\' else s[j])
            && (out == s <==> forall j :: 0 <= j < |s| && CutAt(chunks, s, j) ==> s[j] == '\\')
  {
    StreamHolds(chunks, s, tail);
    WholeShown(s, tail);
    SameExactly(Output(FRESH, chunks), s, set j | 0 <= j < |s| && CutAt(chunks, s, j));
  }

  /** Cutting the wire in two within the escape of `s[j]` puts a backslash in its place. */
  lemma CutShows(s: string, tail: string, j: nat)
    requires j < |s| && |Escape(s[j])| == 2
    ensures var n := START + Offset(s, j) + 1;
            && n <= |Wire(s, tail)|
            && var chunks := [Wire(s, tail)[..n], Wire(s, tail)[n..]];
               && Concat(chunks) == Wire(s, tail)
               && |Output(FRESH, chunks)| == |s| && Output(FRESH, chunks)[j] == '\\'
  {
    var w, n := Wire(s, tail), START + Offset(s, j) + 1;
    MarkerFacts();
    OffsetBound(s, j);
    var a, b := w[..n], w[n..];
    assert [a, b][1..] == [b] && [b][1..] == [] && Concat([b]) == b;
    assert a + b == w;
    assert [a, b][..1] == [a] && [a][1..] == [] && Concat([a]) == a;
    assert Cuts(s, |Concat([a, b][..1])| - START, j);
    ChunkIndependence([a, b], s, tail);
  }

  lemma {:induction false} OffsetBound(s: string, j: nat)
    requires j < |s|
    ensures Offset(s, j) + |Escape(s[j])| <= |EscapeAll(s)|
  {
    if j > 0 {
      OffsetBound(s[1..], j - 1);
      OffsetNext(s, j);
    } else {
      assert s[..0] == "";
    }
  }

  /** Some cutting of the wire gives a wrong text exactly when the text has a character that is
      escaped and is not a backslash. */
  lemma WrongCutExists(s: string, tail: string)
    ensures (exists chunks {:trigger Output(FRESH, chunks)} ::
              Concat(chunks) == Wire(s, tail) && Output(FRESH, chunks) != s)
            <==> (exists j :: 0 <= j < |s| && s[j] in {'\n', '\t', '\r', '"'})
  {
    if chunks {:trigger Output(FRESH, chunks)} :| Concat(chunks) == Wire(s, tail) && Output(FRESH, chunks) != s {
      ChunkIndependence(chunks, s, tail);
      var j :| 0 <= j < |s| && CutAt(chunks, s, j) && s[j] != '\\';
      EscapeDecodes(s[j]);
      assert s[j] in {'\n', '\t', '\r', '"'};
    }
    if j :| 0 <= j < |s| && s[j] in {'\n', '\t', '\r', '"'} {
      CutShows(s, tail, j);
      var n := START + Offset(s, j) + 1;
      var chunks := [Wire(s, tail)[..n], Wire(s, tail)[n..]];
      assert Concat(chunks) == Wire(s, tail) && Output(FRESH, chunks) != s;
    }
  }

  lemma WholeShown(s: string, tail: string)
    ensures ShownLength(s, |Wire(s, tail)|) == |s|
  {
    MarkerFacts();
    ShownAll(s, |Wire(s, tail)| - START);
  }

  lemma SameExactly(out: string, s: string, cut: set<int>)
    requires |out| == |s| && forall j :: 0 <= j < |s| ==> out[j] == if j in cut then '\\' else s[j]
    ensures out == s <==> forall j :: 0 <= j < |s| && j in cut ==> s[j] == '\\'
  {
    if forall j :: 0 <= j < |s| && j in cut ==> s[j] == '\\' {
      assert forall j :: 0 <= j < |s| ==> out[j] == s[j];
    }
  }

  /** The state is started over by a reset: what is given out afterwards is what a new state
      would give out. */
  lemma {:induction false} ResetStartsOver(st: Reply, chunks: seq<string>)
    ensures Output(ResetTurn(st), chunks) == Output(FRESH, chunks)
    ensures var a, b := After(ResetTurn(st), chunks), After(FRESH, chunks);
            a.buffer == b.buffer && a.emitted == b.emitted && a.deltaCount == st.deltaCount + b.deltaCount
  {
    if chunks != [] { ResetStartsOver(st, chunks[..|chunks| - 1]); }
  }

  // ---- the end of the stream ----

  /** _stream_text_deltas: pieces of 10 characters, or of 48 when not paced. */
  method StreamTextDeltas(text: string, paced: bool, queue: seq<string>) returns (queue': seq<string>)
    ensures queue' == queue + Pieces(text, if paced then 10 else 48)
  {
    queue' := queue;
    var step := if paced then 10 else 48;
    var start := 0;
    while start < |text|
      invariant queue' + Pieces(From(text, start), step) == queue + Pieces(text, step)
    {
      var end := if start + step < |text| then start + step else |text|;
      PiecesNext(text, start, step);
      assert queue' + Pieces(From(text, start), step) == queue' + [text[start..end]]
        + Pieces(From(text, start + step), step);
      queue' := queue' + [text[start..end]];
      start := start + step;
    }
  }

  function Pieces(text: string, step: nat): seq<string>
    requires step > 0
  {
    if text == "" then []
    else if |text| <= step then [text]
    else [text[..step]] + Pieces(text[step..], step)
  }

  /** text[start:] */
  function From(text: string, start: nat): string { if start < |text| then text[start..] else "" }

  lemma PiecesNext(text: string, start: nat, step: nat)
    requires start < |text| && step > 0
    ensures var end := if start + step < |text| then start + step else |text|;
            Pieces(From(text, start), step) == [text[start..end]] + Pieces(From(text, start + step), step)
  {
    var rest := text[start..];
    if |rest| > step {
      assert rest[..step] == text[start..start + step] && rest[step..] == text[start + step..];
    } else {
      assert rest == text[start..|text|] && Pieces(From(text, start + step), step) == [];
    }
  }

  lemma {:induction false} PiecesWhole(text: string, step: nat)
    requires step > 0
    ensures Concat(Pieces(text, step)) == text
    ensures forall p :: p in Pieces(text, step) ==> 0 < |p| <= step
  {
    if |text| > step { PiecesWhole(text[step..], step); }
  }

  predicate StartsWith(s: string, prefix: string) { |prefix| <= |s| && s[..|prefix|] == prefix }

  /** _emit_final_reply */
  method EmitFinalReply(finalText: string, st: Reply, queue: seq<string>) returns (queue': seq<string>)
    ensures queue' == queue + FinalPieces(finalText, st)
  {
    queue' := queue;
    assert queue + [] == queue;
    if Strip(finalText) == "" { return; }
    if st.deltaCount == 0 {
      queue' := StreamTextDeltas(finalText, true, queue);
      return;
    }
    if StartsWith(finalText, st.emitted) {
      var remainder := finalText[|st.emitted|..];
      if remainder != "" { queue' := StreamTextDeltas(remainder, false, queue); }
      return;
    }
    if |finalText| > |st.emitted| { queue' := StreamTextDeltas(finalText, true, queue); }
  }

  function FinalPieces(finalText: string, st: Reply): seq<string> {
    if Strip(finalText) == "" then []
    else if st.deltaCount == 0 then Pieces(finalText, 10)
    else if StartsWith(finalText, st.emitted) then Pieces(finalText[|st.emitted|..], 48)
    else if |finalText| > |st.emitted| then Pieces(finalText, 10)
    else []
  }

  /** The whole reply: if the stream carried the final text, or broke off anywhere inside it, and
      no boundary cut an escape, the text given out for the tokens followed by the final pieces is
      exactly the final text. */
  lemma EndToEndText(chunks: seq<string>, s: string, tail: string)
    requires Streams(chunks, s, tail) && !Blank(s)
    requires forall j :: 0 <= j < |s| ==> !CutAt(chunks, s, j)
    ensures Output(FRESH, chunks) + Concat(FinalPieces(s, After(FRESH, chunks))) == s
  {
    StreamHolds(chunks, s, tail);
    FinalCompletes(s, Output(FRESH, chunks), After(FRESH, chunks));
  }

  lemma FinalChoice(s: string, st: Reply)
    requires !Blank(s) && StartsWith(s, st.emitted)
    ensures FinalPieces(s, st) == if st.deltaCount == 0 then Pieces(s, 10) else Pieces(s[|st.emitted|..], 48)
  {
    StripTrims(s);
    hide Pieces, Strip, Trimmed, Blank;
  }

  /** Where the text given out is the beginning of the final text, the pieces are the rest. */
  lemma FinalCompletes(s: string, out: string, st: Reply)
    requires !Blank(s) && |out| == |st.emitted| <= |s| && (st.deltaCount == 0 <==> out == "")
    requires forall j :: 0 <= j < |out| ==> out[j] == s[j] && st.emitted[j] == s[j]
    ensures out + Concat(FinalPieces(s, st)) == s
  {
    assert out == s[..|out|] && st.emitted == s[..|out|];
    hide Concat, Blank, FinalPieces;
    RestCompletes(s, |out|, st);
  }

  lemma RestCompletes(s: string, n: nat, st: Reply)
    requires !Blank(s) && n <= |s| && st.emitted == s[..n] && (st.deltaCount == 0 <==> n == 0)
    ensures s[..n] + Concat(FinalPieces(s, st)) == s
  {
    FinalChoice(s, st);
    hide Pieces, Concat, Blank, FinalPieces;
    PiecesWhole(s, 10);
    PiecesWhole(s[n..], 48);
    assert s[0..] == s;
    assert Concat(FinalPieces(s, st)) == s[n..];
    Rejoined(s, n);
  }

  lemma Rejoined(s: string, n: nat)
    requires n <= |s|
    ensures s[..n] + s[n..] == s
  {
  }
}
