/** The chat store: message hashes, a trimmed message index, and the list of a user's chats. */
module ChatHistory {
  import opened Wrappers
  import opened Text
  import opened ZSets

  type UserKey = (string, string)           // (project id, uid)
  type Hash = map<string, string>

  /** The text of a JSON value, which is never empty. */
  type Json = s: string | s != "" witness "null"

  const MAX_MESSAGES := 200

  // ---- messages as hashes ----

  datatype Message = Message(
    msgId: string, role: string, content: string, createdAt: string, senderUid: string,
    imageUrls: Option<string>, activities: Option<string>, confidence: Option<string>, runId: Option<string>)

  function WithField(h: Hash, field: string, v: Option<string>): Hash { if v.Some? then h[field := v.value] else h }

  function Base(m: Message, c: ChatKey): Hash {
    map["msg_id" := m.msgId, "project_id" := c.0, "uid" := c.1, "chat_id" := c.2,
        "role" := m.role, "content" := m.content, "created_at" := m.createdAt, "sender_uid" := m.senderUid]
  }

  /** _message_to_hash */
  function MessageToHash(m: Message, c: ChatKey): Hash {
    var h1 := WithField(Base(m, c), "image_urls", m.imageUrls);
    var h2 := WithField(h1, "activities", m.activities);
    var h3 := WithField(h2, "confidence", m.confidence);
    if m.runId.Some? && m.runId.value != "" then h3["run_id" := m.runId.value] else h3
  }

  function Get(h: Hash, field: string): string { if field in h then h[field] else "" }

  function Optional(h: Hash, field: string): Option<string> { if Get(h, field) != "" then Some(h[field]) else None }

  /** _hash_to_message */
  function HashToMessage(h: Hash, fallbackId: string): Message {
    Message(if Get(h, "msg_id") != "" then h["msg_id"] else fallbackId,
            Get(h, "role"), Get(h, "content"), Get(h, "created_at"), Get(h, "sender_uid"),
            Optional(h, "image_urls"), Optional(h, "activities"), Optional(h, "confidence"), Optional(h, "run_id"))
  }

  predicate NotEmptyText(v: Option<string>) { v != Some("") }

  predicate WellFormed(m: Message) {
    m.msgId != "" && NotEmptyText(m.imageUrls) && NotEmptyText(m.activities) && NotEmptyText(m.confidence)
      && NotEmptyText(m.runId)
  }

  lemma BaseRead(m: Message, c: ChatKey)
    ensures var h := MessageToHash(m, c);
            && Get(h, "msg_id") == m.msgId && Get(h, "role") == m.role && Get(h, "content") == m.content
            && Get(h, "created_at") == m.createdAt && Get(h, "sender_uid") == m.senderUid
  {
  }

  function Present(v: Option<string>): Option<string> { if v == Some("") then None else v }

  lemma OptionalRead(m: Message, c: ChatKey)
    ensures var h := MessageToHash(m, c);
            && Optional(h, "image_urls") == Present(m.imageUrls) && Optional(h, "activities") == Present(m.activities)
            && Optional(h, "confidence") == Present(m.confidence) && Optional(h, "run_id") == Present(m.runId)
  {
  }

  /** A message comes back from its hash as it was exactly when its identifier and its optional
      parts are no empty texts. */
  lemma HashRoundTrip(m: Message, c: ChatKey, fallbackId: string)
    requires fallbackId != ""
    ensures HashToMessage(MessageToHash(m, c), fallbackId) == m <==> WellFormed(m)
  {
    BaseRead(m, c);
    OptionalRead(m, c);
  }

  // ---- the tables ----

  datatype Tables = Tables(
    metas: map<ChatKey, Hash>, index: map<ChatKey, ZSet>, msgs: map<(ChatKey, string), Hash>,
    chats: map<UserKey, ZSet>,
    said: map<ChatKey, seq<Message>>)   // bookkeeping of the model: all that was ever appended

  function IndexAt(t: Tables, c: ChatKey): ZSet { if c in t.index then t.index[c] else map[] }
  function ChatsAt(t: Tables, u: UserKey): ZSet { if u in t.chats then t.chats[u] else map[] }
  function SaidOf(t: Tables, c: ChatKey): seq<Message> { if c in t.said then t.said[c] else [] }
  function UserOf(c: ChatKey): UserKey { (c.0, c.1) }

  function Last<T>(s: seq<T>): seq<T> { if |s| <= MAX_MESSAGES then s else s[|s| - MAX_MESSAGES..] }

  function Ids(ms: seq<Message>): (ids: seq<string>)
    ensures |ids| == |ms| && forall i :: 0 <= i < |ms| ==> ids[i] == ms[i].msgId
  {
    if ms == [] then [] else Ids(ms[..|ms| - 1]) + [ms[|ms| - 1].msgId]
  }

  /** The message has its hash. */
  predicate Encoded(t: Tables, c: ChatKey, m: Message) {
    WellFormed(m) && (c, m.msgId) in t.msgs && t.msgs[(c, m.msgId)] == MessageToHash(m, c)
  }

  predicate HashedExactly(t: Tables, c: ChatKey, id: string) { (c, id) in t.msgs <==> id in IndexAt(t, c) }

  /** The index lists the newest messages in order, and there is a hash for exactly the listed ones,
      each the encoding of its message. */
  ghost predicate MessagesHeld(t: Tables, c: ChatKey) {
    var window := Last(SaidOf(t, c));
    && Ordered(IndexAt(t, c)) == Ids(window)
    && (forall id {:trigger HashedExactly(t, c, id)} :: HashedExactly(t, c, id))
    && (forall m {:trigger Encoded(t, c, m)} :: m in window ==> Encoded(t, c, m))
  }

  /** Every score of the index was read from the clock before now. */
  predicate Earlier(z: ZSet, now: int) { forall id :: id in z ==> z[id] < now }

  predicate ListsEarlier(chats: map<UserKey, ZSet>, now: int) { forall u :: u in chats ==> Earlier(chats[u], now) }

  // ---- appending ----

  function Stored(t: Tables, c: ChatKey, m: Message, score: int): Tables {
    t.(msgs := t.msgs[(c, m.msgId) := MessageToHash(m, c)],
       index := t.index[c := IndexAt(t, c)[m.msgId := score]],
       said := t.said[c := SaidOf(t, c) + [m]])
  }

  /** What _trim_messages removes: the oldest messages beyond the newest 200. */
  ghost function Overflow(t: Tables, c: ChatKey): seq<string> {
    var ordered := Ordered(IndexAt(t, c));
    if |ordered| <= MAX_MESSAGES then [] else ordered[..|ordered| - MAX_MESSAGES]
  }

  ghost function AfterTrim(t: Tables, c: ChatKey): Tables {
    if Overflow(t, c) == [] then t else Removed(t, c, set id | id in Overflow(t, c))
  }

  function Removed(t: Tables, c: ChatKey, gone: set<string>): Tables {
    t.(index := t.index[c := IndexAt(t, c) - gone],
       msgs := t.msgs - (set id | id in gone :: (c, id)))
  }

  lemma IdsSnoc(ms: seq<Message>, m: Message)
    ensures Ids(ms + [m]) == Ids(ms) + [m.msgId]
  {
    assert (ms + [m])[..|ms|] == ms;
  }

  lemma IdsTail(ms: seq<Message>)
    requires ms != []
    ensures Ids(ms[1..]) == Ids(ms)[1..]
  {
  }

  lemma StoredOrder(t: Tables, c: ChatKey, m: Message, score: int)
    requires MessagesHeld(t, c) && Earlier(IndexAt(t, c), score) && m.msgId !in IndexAt(t, c)
    ensures Ordered(IndexAt(Stored(t, c, m, score), c)) == Ids(Last(SaidOf(t, c)) + [m])
  {
    var z := IndexAt(t, c);
    assert z - {m.msgId} == z;
    OrderedAddLast(z, m.msgId, score);
    IdsSnoc(Last(SaidOf(t, c)), m);
  }

  lemma LastSnoc<T>(s: seq<T>, x: T)
    ensures Last(s + [x]) == if |s| < MAX_MESSAGES then Last(s) + [x] else (Last(s) + [x])[1..]
  {
  }

  lemma TrimOrder(t: Tables, c: ChatKey, m: Message, score: int)
    requires MessagesHeld(t, c) && Earlier(IndexAt(t, c), score) && m.msgId !in IndexAt(t, c)
    ensures var t2 := AfterTrim(Stored(t, c, m, score), c);
            Ordered(IndexAt(t2, c)) == Ids(Last(SaidOf(t2, c)))
  {
    var t1, w := Stored(t, c, m, score), Last(SaidOf(t, c)) + [m];
    var z1 := IndexAt(t1, c);
    StoredOrder(t, c, m, score);
    LastSnoc(SaidOf(t, c), m);
    SaidAfter(t, c, m, score);
    hide MessagesHeld, MessageToHash, WellFormed;
    assert |Ordered(z1)| == |w|;
    if |w| > MAX_MESSAGES {
      TrimmedOne(t1, c);
      IdsTail(w);
    }
  }

  /** One message too many: the first of the order goes. */
  lemma TrimmedOne(t: Tables, c: ChatKey)
    requires |Ordered(IndexAt(t, c))| == MAX_MESSAGES + 1
    ensures Ordered(IndexAt(AfterTrim(t, c), c)) == Ordered(IndexAt(t, c))[1..]
  {
    var z := IndexAt(t, c);
    var s := Ordered(z);
    assert Overflow(t, c) == s[..1] == s[0..1];
    OrderedDropRange(z, 0, 1);
    assert (set id | id in Overflow(t, c)) == set x | x in s[0..1];
    assert s[..0] + s[1..] == s[1..];
  }

  lemma TrimHashes(t: Tables, c: ChatKey, id: string)
    requires HashedExactly(t, c, id)
    ensures HashedExactly(AfterTrim(t, c), c, id)
    ensures (c, id) in AfterTrim(t, c).msgs ==> AfterTrim(t, c).msgs[(c, id)] == t.msgs[(c, id)]
  {
    var gone := set x | x in Overflow(t, c);
    var keys := set x | x in gone :: (c, x);
    assert (c, id) in keys <==> id in gone;
  }

  lemma SaidAfter(t: Tables, c: ChatKey, m: Message, score: int)
    ensures SaidOf(AfterTrim(Stored(t, c, m, score), c), c) == SaidOf(t, c) + [m]
  {
  }

  lemma StoredHashes(t: Tables, c: ChatKey, m: Message, score: int, id: string)
    requires HashedExactly(t, c, id)
    ensures HashedExactly(Stored(t, c, m, score), c, id)
  {
  }

  /** A message of the new window is the appended one or one of the old window, and keeps its hash. */
  lemma WindowMember(t: Tables, c: ChatKey, m: Message, score: int, x: Message)
    requires MessagesHeld(t, c) && m.msgId !in IndexAt(t, c) && WellFormed(m) && x in Last(SaidOf(t, c)) + [m]
    ensures Encoded(Stored(t, c, m, score), c, x)
  {
    var w := Last(SaidOf(t, c));
    if x in w {
      assert Encoded(t, c, x) && HashedExactly(t, c, x.msgId) && HashedExactly(t, c, m.msgId);
    }
  }

  lemma EncodedAfter(t: Tables, c: ChatKey, m: Message, score: int, x: Message)
    requires MessagesHeld(t, c) && m.msgId !in IndexAt(t, c) && WellFormed(m) && x in Last(SaidOf(t, c)) + [m]
    requires x.msgId in IndexAt(AfterTrim(Stored(t, c, m, score), c), c)
    ensures Encoded(AfterTrim(Stored(t, c, m, score), c), c, x)
  {
    hide MessageToHash, WellFormed, Stored, AfterTrim;
    WindowMember(t, c, m, score, x);
    assert HashedExactly(t, c, x.msgId);
    StoredHashes(t, c, m, score, x.msgId);
    TrimHashes(Stored(t, c, m, score), c, x.msgId);
  }

  /** Storing a message and trimming keeps exactly the newest 200. */
  lemma AppendHolds(t: Tables, c: ChatKey, m: Message, score: int)
    requires MessagesHeld(t, c) && Earlier(IndexAt(t, c), score) && m.msgId !in IndexAt(t, c) && WellFormed(m)
    ensures MessagesHeld(AfterTrim(Stored(t, c, m, score), c), c)
  {
    hide MessageToHash, WellFormed, Stored, AfterTrim, Encoded;
    var t2 := AfterTrim(Stored(t, c, m, score), c);
    SaidAfter(t, c, m, score);
    var w2 := Last(SaidOf(t2, c));
    TrimOrder(t, c, m, score);
    LastSnoc(SaidOf(t, c), m);
    forall id ensures HashedExactly(t2, c, id) {
      assert HashedExactly(t, c, id);
      StoredHashes(t, c, m, score, id);
      TrimHashes(Stored(t, c, m, score), c, id);
    }
    forall x | x in w2 ensures Encoded(t2, c, x) {
      var i :| 0 <= i < |w2| && w2[i] == x;
      assert Ids(w2)[i] == x.msgId && Ids(w2)[i] in Ordered(IndexAt(t2, c));
      EncodedAfter(t, c, m, score, x);
    }
  }

  /** The tables after any number of messages, each stored and trimmed in turn. */
  ghost function AfterAll(t: Tables, c: ChatKey, ms: seq<Message>, scores: seq<int>): Tables
    requires |scores| == |ms|
  {
    if ms == [] then t
    else
      var n := |ms| - 1;
      AfterTrim(Stored(AfterAll(t, c, ms[..n], scores[..n]), c, ms[n], scores[n]), c)
  }

  predicate DistinctIds(ms: seq<Message>) { forall i, j :: 0 <= i < j < |ms| ==> ms[i].msgId != ms[j].msgId }

  const EMPTY := Tables(map[], map[], map[], map[], map[])

  lemma {:induction false} HeldThroughout(c: ChatKey, ms: seq<Message>, scores: seq<int>)
    requires |scores| == |ms| && forall i, j :: 0 <= i < j < |scores| ==> scores[i] < scores[j]
    requires DistinctIds(ms) && forall i :: 0 <= i < |ms| ==> WellFormed(ms[i])
    ensures var t := AfterAll(EMPTY, c, ms, scores);
            MessagesHeld(t, c) && SaidOf(t, c) == ms && (ms != [] ==> Earlier(IndexAt(t, c), scores[|ms| - 1] + 1))
  {
    hide Stored, AfterTrim, MessagesHeld, WellFormed;
    if ms == [] {
      EmptyHeld(c);
    } else {
      var n := |ms| - 1;
      HeldThroughout(c, ms[..n], scores[..n]);
      var t1 := AfterAll(EMPTY, c, ms[..n], scores[..n]);
      assert Earlier(IndexAt(t1, c), scores[n]) by { if n == 0 { assert IndexAt(t1, c) == map[]; } }
      HeldStep(t1, c, ms[..n], ms[n], scores[n]);
      assert ms == ms[..n] + [ms[n]];
    }
  }

  lemma EmptyHeld(c: ChatKey)
    ensures MessagesHeld(EMPTY, c)
  {
    OrderedLength(map[]);
  }

  lemma HeldStep(t: Tables, c: ChatKey, ms: seq<Message>, m: Message, score: int)
    requires MessagesHeld(t, c) && SaidOf(t, c) == ms && Earlier(IndexAt(t, c), score) && WellFormed(m)
    requires forall i :: 0 <= i < |ms| ==> ms[i].msgId != m.msgId
    ensures var t' := AfterTrim(Stored(t, c, m, score), c);
            MessagesHeld(t', c) && SaidOf(t', c) == ms + [m] && Earlier(IndexAt(t', c), score + 1)
  {
    IdNotListed(t, c, ms, m);
    AppendHolds(t, c, m, score);
    SaidAfter(t, c, m, score);
    TrimmedEarlier(t, c, m, score);
  }

  /** After any n appends with increasing scores the index lists the last min(n, 200) messages in
      order, and there is a hash, the encoding of its message, for exactly the listed ids. */
  lemma NewestKept(c: ChatKey, ms: seq<Message>, scores: seq<int>)
    requires |scores| == |ms| && forall i, j :: 0 <= i < j < |scores| ==> scores[i] < scores[j]
    requires DistinctIds(ms) && forall i :: 0 <= i < |ms| ==> WellFormed(ms[i])
    ensures var t := AfterAll(EMPTY, c, ms, scores);
            && Ordered(IndexAt(t, c)) == Ids(Last(ms))
            && |IndexAt(t, c)| == (if |ms| <= MAX_MESSAGES then |ms| else MAX_MESSAGES)
            && (forall id :: (c, id) in t.msgs <==> id in IndexAt(t, c))
            && (forall m :: m in Last(ms) ==> (c, m.msgId) in t.msgs && t.msgs[(c, m.msgId)] == MessageToHash(m, c))
  {
    hide Stored, AfterTrim, AfterAll, MessageToHash, WellFormed;
    var t := AfterAll(EMPTY, c, ms, scores);
    HeldThroughout(c, ms, scores);
    OrderedLength(IndexAt(t, c));
    forall id ensures (c, id) in t.msgs <==> id in IndexAt(t, c) { assert HashedExactly(t, c, id); }
    forall m | m in Last(ms) ensures (c, m.msgId) in t.msgs && t.msgs[(c, m.msgId)] == MessageToHash(m, c) {
      assert Encoded(t, c, m);
    }
  }

  lemma IdNotListed(t: Tables, c: ChatKey, ms: seq<Message>, m: Message)
    requires Ordered(IndexAt(t, c)) == Ids(Last(ms)) && forall i :: 0 <= i < |ms| ==> ms[i].msgId != m.msgId
    ensures m.msgId !in IndexAt(t, c)
  {
    var ids := Ids(Last(ms));
    forall i | 0 <= i < |ids| ensures ids[i] != m.msgId { assert Last(ms)[i] in ms; }
  }

  lemma TrimmedEarlier(t: Tables, c: ChatKey, m: Message, score: int)
    requires Earlier(IndexAt(t, c), score)
    ensures Earlier(IndexAt(AfterTrim(Stored(t, c, m, score), c), c), score + 1)
  {
  }

  // ---- titles and search text ----

  const NEW_CHAT := "新会话"
  const TITLE_MAX := 48
  const SEARCH_MAX := 4000

  function TitleFromMessage(message: string): string {
    var text := Normalize(Strip(message));
    if text == "" then NEW_CHAT else FirstN(text, TITLE_MAX)
  }

  /** The title after a message: the first user message with some text names a new chat. */
  function NextTitle(before: string, role: string, content: string): string {
    var title := if before != "" then before else NEW_CHAT;
    if role == "user" && (title == NEW_CHAT || Strip(title) == "") then TitleFromMessage(content) else title
  }

  function Retitled(title: string, m: Message): string { FirstN(NextTitle(title, m.role, m.content), TITLE_MAX) }

  function TitleAfter(title: string, ms: seq<Message>): string {
    if ms == [] then title else Retitled(TitleAfter(title, ms[..|ms| - 1]), ms[|ms| - 1])
  }

  /** The message gives a new chat its name. */
  predicate Names(m: Message) { m.role == "user" && TitleFromMessage(m.content) != NEW_CHAT }

  lemma NamedTitle(content: string)
    ensures var t := TitleFromMessage(content);
            |t| <= TITLE_MAX && t != "" && (t != NEW_CHAT ==> Strip(t) != "")
  {
    StripTrims(content);
    StripTrims(TitleFromMessage(content));
    NormalizeEmpty(Strip(content));
    if !Blank(Strip(content)) { NormalizeFirst(Strip(content)); }
  }

  /** The first message that names a chat stands at `i`, or none does. */
  ghost predicate FirstNamed(ms: seq<Message>, i: nat) {
    i <= |ms| && (forall j :: 0 <= j < i ==> !Names(ms[j])) && (i < |ms| ==> Names(ms[i]))
  }

  /** A new chat is named by the first user message that has a name to give, and keeps that name
      whatever follows. */
  lemma NamedOnce(ms: seq<Message>, i: nat)
    requires FirstNamed(ms, i)
    ensures TitleAfter(NEW_CHAT, ms) == if i < |ms| then TitleFromMessage(ms[i].content) else NEW_CHAT
  {
    NamedFrom(NEW_CHAT, ms, i);
  }

  lemma FirstNamedPrefix(ms: seq<Message>, i: nat)
    requires FirstNamed(ms, i) && ms != []
    ensures var n := |ms| - 1;
            && FirstNamed(ms[..n], if i < n then i else n)
            && (i < n ==> ms[..n][i] == ms[i]) && (i == n ==> Names(ms[n])) && (i > n ==> !Names(ms[n]))
  {
    hide Names;
  }

  /** The same for any way to write the title of a new chat. */
  lemma {:induction false} NamedFrom(base: string, ms: seq<Message>, i: nat)
    requires base == NEW_CHAT && FirstNamed(ms, i)
    ensures TitleAfter(base, ms) == if i < |ms| then TitleFromMessage(ms[i].content) else base
  {
    hide TitleFromMessage, Retitled, Names, FirstNamed;
    if ms != [] {
      var n := |ms| - 1;
      FirstNamedPrefix(ms, i);
      NamedFrom(base, ms[..n], if i < n then i else n);
      if i < n {
        assert Names(ms[i]) by { NameAt(ms, i); }
        NameKept(ms[i], ms[n]);
      } else {
        NameGiven(base, ms[n]);
      }
    }
  }

  lemma NameAt(ms: seq<Message>, i: nat)
    requires FirstNamed(ms, i) && i < |ms|
    ensures Names(ms[i])
  {
  }

  /** A chat without a name takes what the message gives. */
  lemma NameGiven(base: string, m: Message)
    requires base == NEW_CHAT
    ensures Retitled(base, m) == if Names(m) then TitleFromMessage(m.content) else base
  {
    NamedTitle(m.content);
    hide TitleFromMessage, Strip;
  }

  /** A name stays. */
  lemma NameKept(named: Message, m: Message)
    requires Names(named)
    ensures Retitled(TitleFromMessage(named.content), m) == TitleFromMessage(named.content)
  {
    NamedTitle(named.content);
    hide TitleFromMessage, Strip;
  }

  function SearchParts(title: Option<string>, content: string, activityTexts: seq<string>): seq<string> {
    (if title.Some? && title.value != "" then [title.value] else []) +
    (if Strip(content) != "" then [Strip(content)] else []) + Stripped(activityTexts)
  }

  function Stripped(texts: seq<string>): seq<string> {
    if texts == [] then []
    else (if Strip(texts[0]) != "" then [Strip(texts[0])] else []) + Stripped(texts[1..])
  }

  /** _append_search_text */
  function SearchText(existing: string, parts: seq<string>): string {
    FirstN(if parts == [] then existing
           else if existing != "" then Strip(existing + " " + JoinWords(parts)) else JoinWords(parts), SEARCH_MAX)
  }

  /** What a message adds: a new title, its own text and the texts of its activities. */
  function SearchAfter(meta: Hash, role: string, content: string, activityTexts: seq<string>): (text: string)
    ensures |text| <= SEARCH_MAX
  {
    var title := NextTitle(Get(meta, "title"), role, content);
    var added := if title != Get(meta, "title") then Some(title) else None;
    SearchText(Get(meta, "search_text"), SearchParts(added, content, activityTexts))
  }

  // ---- one chat, all chats ----

  /** The meta hash of a chat belongs to its user and project and counts its messages; the chat is
      in the user's list exactly while it exists; a chat that does not exist holds no messages. */
  ghost predicate MetaHeld(t: Tables, c: ChatKey) {
    && (c in t.metas <==> c.2 in ChatsAt(t, UserOf(c)))
    && (c in t.metas ==>
          && Get(t.metas[c], "uid") == c.1 && Get(t.metas[c], "project_id") == c.0
          && Get(t.metas[c], "msg_count") == Decimal(|IndexAt(t, c)|))
    && (c !in t.metas ==> SaidOf(t, c) == [])
  }

  ghost predicate Bounded(t: Tables, c: ChatKey, now: int, uuids: nat) {
    && Earlier(IndexAt(t, c), now) && Earlier(ChatsAt(t, UserOf(c)), now)
    && (forall id :: id in IndexAt(t, c) ==> |id| < uuids)
    && (c in t.metas ==> |c.2| < uuids)
  }

  ghost predicate ChatOk(t: Tables, c: ChatKey, now: int, uuids: nat) {
    MessagesHeld(t, c) && MetaHeld(t, c) && Bounded(t, c, now, uuids)
  }

  ghost predicate AllOk(t: Tables, now: int, uuids: nat) {
    forall c {:trigger ChatOk(t, c, now, uuids)} :: ChatOk(t, c, now, uuids)
  }

  predicate MetaSame(t: Tables, t': Tables, c: ChatKey) {
    (c in t'.metas <==> c in t.metas) && (c in t.metas ==> t'.metas[c] == t.metas[c])
  }

  predicate HashSame(t: Tables, t': Tables, c: ChatKey, id: string) {
    ((c, id) in t'.msgs <==> (c, id) in t.msgs) && ((c, id) in t.msgs ==> t'.msgs[(c, id)] == t.msgs[(c, id)])
  }

  ghost predicate MessagesSame(t: Tables, t': Tables, c: ChatKey) {
    && IndexAt(t', c) == IndexAt(t, c) && SaidOf(t', c) == SaidOf(t, c)
    && (forall id {:trigger HashSame(t, t', c, id)} {:trigger (c, id) in t'.msgs} :: HashSame(t, t', c, id))
  }

  predicate PlaceSame(t: Tables, t': Tables, c: ChatKey) {
    var z, z' := ChatsAt(t, UserOf(c)), ChatsAt(t', UserOf(c));
    (c.2 in z' <==> c.2 in z) && (c.2 in z ==> z'[c.2] == z[c.2])
  }

  /** What every table holds for the chat. */
  ghost predicate ChatSame(t: Tables, t': Tables, c: ChatKey) {
    MetaSame(t, t', c) && MessagesSame(t, t', c) && PlaceSame(t, t', c)
  }

  /** No operation on one chat changes another. */
  ghost predicate OthersSame(t: Tables, t': Tables, c: ChatKey) {
    forall d {:trigger ChatSame(t, t', d)} :: d != c ==> ChatSame(t, t', d)
  }

  lemma SameHeld(t: Tables, t': Tables, c: ChatKey)
    requires MessagesHeld(t, c) && MetaHeld(t, c) && ChatSame(t, t', c)
    ensures MessagesHeld(t', c) && MetaHeld(t', c)
  {
    hide MessageToHash, WellFormed;
    forall id ensures HashedExactly(t', c, id) { assert HashedExactly(t, c, id) && HashSame(t, t', c, id); }
    forall m | m in Last(SaidOf(t', c)) ensures Encoded(t', c, m) {
      assert Encoded(t, c, m) && HashSame(t, t', c, m.msgId);
    }
  }

  /** Work on the chat `c` alone, with the clock and the identifiers moving on. */
  lemma StepOk(t: Tables, t': Tables, c: ChatKey, now: int, uuids: nat, now': int, uuids': nat)
    requires AllOk(t, now, uuids) && OthersSame(t, t', c) && ChatOk(t', c, now', uuids') && now <= now'
               && uuids <= uuids'
    requires ListsEarlier(t'.chats, now')
    ensures AllOk(t', now', uuids')
  {
    hide MessagesHeld, MetaHeld;
    forall d ensures ChatOk(t', d, now', uuids') {
      if d != c {
        assert ChatOk(t, d, now, uuids) && ChatSame(t, t', d);
        SameHeld(t, t', d);
      }
    }
  }

  // ---- frames of the single writes ----

  function MetaWritten(t: Tables, c: ChatKey, update: Hash): Tables {
    t.(metas := t.metas[c := (if c in t.metas then t.metas[c] else map[]) + update])
  }

  function ListedAt(t: Tables, c: ChatKey, score: int): Tables {
    t.(chats := t.chats[UserOf(c) := ChatsAt(t, UserOf(c))[c.2 := score]])
  }

  /** A write to the message tables of one chat is no write to those of another. */
  lemma StoredSame(t: Tables, c: ChatKey, m: Message, score: int, d: ChatKey)
    requires d != c
    ensures MessagesSame(t, Stored(t, c, m, score), d)
  {
    hide MessageToHash, WellFormed;
    forall id ensures HashSame(t, Stored(t, c, m, score), d, id) {}
  }

  lemma StoredOthers(t: Tables, c: ChatKey, m: Message, score: int)
    ensures OthersSame(t, Stored(t, c, m, score), c)
  {
    hide MessageToHash, WellFormed, MessagesSame;
    forall d | d != c ensures ChatSame(t, Stored(t, c, m, score), d) { StoredSame(t, c, m, score, d); }
  }

  lemma RemovedSame(t: Tables, c: ChatKey, gone: set<string>, d: ChatKey)
    requires d != c
    ensures MessagesSame(t, Removed(t, c, gone), d)
  {
    forall id ensures HashSame(t, Removed(t, c, gone), d, id) {}
  }

  lemma RemovedOthers(t: Tables, c: ChatKey, gone: set<string>)
    ensures OthersSame(t, Removed(t, c, gone), c)
  {
    hide MessagesSame;
    forall d | d != c ensures ChatSame(t, Removed(t, c, gone), d) { RemovedSame(t, c, gone, d); }
  }

  /** The message tables are left alone. */
  lemma NoMessages(t: Tables, t': Tables, d: ChatKey)
    requires t'.msgs == t.msgs && IndexAt(t', d) == IndexAt(t, d) && SaidOf(t', d) == SaidOf(t, d)
    ensures MessagesSame(t, t', d)
  {
  }

  lemma MetaOthers(t: Tables, c: ChatKey, update: Hash)
    ensures OthersSame(t, MetaWritten(t, c, update), c)
  {
    hide MessagesSame;
    forall d | d != c ensures ChatSame(t, MetaWritten(t, c, update), d) { NoMessages(t, MetaWritten(t, c, update), d); }
  }

  lemma ListedOthers(t: Tables, c: ChatKey, score: int)
    ensures OthersSame(t, ListedAt(t, c, score), c)
  {
    hide MessagesSame;
    forall d | d != c ensures ChatSame(t, ListedAt(t, c, score), d) { NoMessages(t, ListedAt(t, c, score), d); }
  }

  lemma SameTwice(t: Tables, t1: Tables, t2: Tables, d: ChatKey)
    requires MessagesSame(t, t1, d) && MessagesSame(t1, t2, d)
    ensures MessagesSame(t, t2, d)
  {
    forall id ensures HashSame(t, t2, d, id) { assert HashSame(t, t1, d, id) && HashSame(t1, t2, d, id); }
  }

  lemma OthersTwice(t: Tables, t1: Tables, t2: Tables, c: ChatKey)
    requires OthersSame(t, t1, c) && OthersSame(t1, t2, c)
    ensures OthersSame(t, t2, c)
  {
    hide MessagesSame;
    forall d | d != c ensures ChatSame(t, t2, d) {
      assert ChatSame(t, t1, d) && ChatSame(t1, t2, d);
      SameTwice(t, t1, t2, d);
    }
  }

  /** The tables after a message was appended. */
  ghost function Appended(t: Tables, c: ChatKey, m: Message, score: int, update: Hash): Tables {
    ListedAt(MetaWritten(AfterTrim(Stored(t, c, m, score), c), c, update), c, score)
  }

  lemma AppendedOthers(t: Tables, c: ChatKey, m: Message, score: int, update: Hash)
    ensures OthersSame(t, Appended(t, c, m, score, update), c)
  {
    var t1 := Stored(t, c, m, score);
    var t2 := AfterTrim(t1, c);
    var t3 := MetaWritten(t2, c, update);
    StoredOthers(t, c, m, score);
    if Overflow(t1, c) != [] { RemovedOthers(t1, c, set id | id in Overflow(t1, c)); }
    MetaOthers(t2, c, update);
    ListedOthers(t3, c, score);
    OthersTwice(t, t1, t2, c);
    OthersTwice(t, t2, t3, c);
    OthersTwice(t, t3, ListedAt(t3, c, score), c);
  }

  lemma AppendedOk(t: Tables, c: ChatKey, m: Message, now: int, uuids: nat, update: Hash)
    requires ChatOk(t, c, now, uuids) && c in t.metas && |m.msgId| == uuids && WellFormed(m)
    requires "uid" !in update && "project_id" !in update && "msg_count" in update
    requires update["msg_count"] == Decimal(|IndexAt(AfterTrim(Stored(t, c, m, now), c), c)|)
    ensures ChatOk(Appended(t, c, m, now, update), c, now + 1, uuids + 1)
  {
    var t2 := AfterTrim(Stored(t, c, m, now), c);
    AppendHolds(t, c, m, now);
    IndexBounded(t, c, m, now, uuids);
    MetaAppended(t2, c, now, uuids, update);
  }

  lemma IndexBounded(t: Tables, c: ChatKey, m: Message, now: int, uuids: nat)
    requires Bounded(t, c, now, uuids) && |m.msgId| == uuids
    ensures var t2 := AfterTrim(Stored(t, c, m, now), c);
            && Earlier(IndexAt(t2, c), now + 1) && (forall id :: id in IndexAt(t2, c) ==> |id| < uuids + 1)
            && t2.metas == t.metas && t2.chats == t.chats && SaidOf(t2, c) != []
  {
    hide MessageToHash;
    var t1 := Stored(t, c, m, now);
    var t2 := AfterTrim(t1, c);
    assert forall id :: id in IndexAt(t2, c) ==> id in IndexAt(t1, c) && IndexAt(t2, c)[id] == IndexAt(t1, c)[id];
  }

  lemma MetaAppended(t: Tables, c: ChatKey, now: int, uuids: nat, update: Hash)
    requires MessagesHeld(t, c) && c in t.metas && |c.2| < uuids
    requires Get(t.metas[c], "uid") == c.1 && Get(t.metas[c], "project_id") == c.0
    requires "uid" !in update && "project_id" !in update && "msg_count" in update
    requires update["msg_count"] == Decimal(|IndexAt(t, c)|)
    requires Earlier(IndexAt(t, c), now + 1) && (forall id :: id in IndexAt(t, c) ==> |id| < uuids + 1)
    requires Earlier(ChatsAt(t, UserOf(c)), now)
    ensures ChatOk(ListedAt(MetaWritten(t, c, update), c, now), c, now + 1, uuids + 1)
  {
    var t1 := MetaWritten(t, c, update);
    var t' := ListedAt(t1, c, now);
    MessagesAgree(t, t', c);
    MergedMeta(t, c, update);
    ListedBounds(t1, c, now, uuids);
    MetaStays(t1, c, now);
  }

  lemma MergedMeta(t: Tables, c: ChatKey, update: Hash)
    requires c in t.metas && Get(t.metas[c], "uid") == c.1 && Get(t.metas[c], "project_id") == c.0
    requires "uid" !in update && "project_id" !in update && "msg_count" in update
    ensures var h := MetaWritten(t, c, update).metas[c];
            Get(h, "uid") == c.1 && Get(h, "project_id") == c.0 && Get(h, "msg_count") == update["msg_count"]
  {
    FieldsMerged(t.metas[c], update);
  }

  lemma ListedBounds(t: Tables, c: ChatKey, now: int, uuids: nat)
    requires Earlier(IndexAt(t, c), now + 1) && (forall id :: id in IndexAt(t, c) ==> |id| < uuids + 1)
    requires Earlier(ChatsAt(t, UserOf(c)), now) && |c.2| < uuids
    ensures Bounded(ListedAt(t, c, now), c, now + 1, uuids + 1)
  {
    var t' := ListedAt(t, c, now);
    assert IndexAt(t', c) == IndexAt(t, c) && ChatsAt(t', UserOf(c)) == ChatsAt(t, UserOf(c))[c.2 := now];
  }

  lemma MetaStays(t: Tables, c: ChatKey, now: int)
    requires c in t.metas && Get(t.metas[c], "uid") == c.1 && Get(t.metas[c], "project_id") == c.0
    requires Get(t.metas[c], "msg_count") == Decimal(|IndexAt(t, c)|)
    ensures MetaHeld(ListedAt(t, c, now), c)
  {
    assert c.2 in ChatsAt(ListedAt(t, c, now), UserOf(c));
  }

  lemma FieldsMerged(h: Hash, update: Hash)
    ensures forall f {:trigger Get(h + update, f)} :: Get(h + update, f) == if f in update then update[f] else Get(h, f)
  {
  }

  lemma MessagesAgree(t: Tables, t': Tables, c: ChatKey)
    requires MessagesHeld(t, c) && IndexAt(t', c) == IndexAt(t, c) && SaidOf(t', c) == SaidOf(t, c) && t'.msgs == t.msgs
    ensures MessagesHeld(t', c)
  {
    hide MessageToHash, WellFormed;
    forall id ensures HashedExactly(t', c, id) { assert HashedExactly(t, c, id); }
    forall m | m in Last(SaidOf(t', c)) ensures Encoded(t', c, m) { assert Encoded(t, c, m); }
  }

  /** The newest of its user's chats. */
  predicate NewestListed(t: Tables, c: ChatKey) {
    var z := ChatsAt(t, UserOf(c));
    c.2 in z && forall d :: d in z && d != c.2 ==> z[d] < z[c.2]
  }

  lemma AppendedFacts(t: Tables, c: ChatKey, m: Message, now: int, update: Hash)
    requires ListsEarlier(t.chats, now)
    ensures var t' := Appended(t, c, m, now, update);
            && c in t'.metas && SaidOf(t', c) == SaidOf(t, c) + [m] && NewestListed(t', c)
            && ListsEarlier(t'.chats, now + 1)
  {
    var t2 := AfterTrim(Stored(t, c, m, now), c);
    assert t2.said == t.said[c := SaidOf(t, c) + [m]] && t2.chats == t.chats;
    ListedLast(MetaWritten(t2, c, update), c, now);
  }

  /** The fields of the chat after a message: those of the update, else the old ones. */
  lemma AppendedMeta(t: Tables, c: ChatKey, m: Message, score: int, update: Hash)
    requires c in t.metas
    ensures var t' := Appended(t, c, m, score, update);
            c in t'.metas && forall f {:trigger Get(t'.metas[c], f)} ::
              Get(t'.metas[c], f) == if f in update then update[f] else Get(t.metas[c], f)
  {
    hide MessageToHash, Overflow;
    var t2 := AfterTrim(Stored(t, c, m, score), c);
    assert t2.metas == t.metas;
    FieldsMerged(t.metas[c], update);
  }

  lemma ListedLast(t: Tables, c: ChatKey, now: int)
    requires ListsEarlier(t.chats, now)
    ensures var t' := ListedAt(t, c, now);
            NewestListed(t', c) && t'.said == t.said && ListsEarlier(t'.chats, now + 1)
  {
  }

  lemma AppendedAll(t: Tables, c: ChatKey, m: Message, now: int, uuids: nat, update: Hash)
    requires AllOk(t, now, uuids) && c in t.metas && |m.msgId| == uuids && WellFormed(m)
    requires ListsEarlier(t.chats, now)
    requires "uid" !in update && "project_id" !in update && "msg_count" in update
    requires update["msg_count"] == Decimal(|IndexAt(AfterTrim(Stored(t, c, m, now), c), c)|)
    ensures var t' := Appended(t, c, m, now, update);
            && AllOk(t', now + 1, uuids + 1) && ListsEarlier(t'.chats, now + 1)
            && c in t'.metas && SaidOf(t', c) == SaidOf(t, c) + [m] && OthersSame(t, t', c) && NewestListed(t', c)
  {
    hide Appended, Stored, AfterTrim, MessagesHeld, MetaHeld, Bounded, ListsEarlier, OthersSame, WellFormed,
         NewestListed;
    assert ChatOk(t, c, now, uuids);
    AppendedOk(t, c, m, now, uuids, update);
    AppendedOthers(t, c, m, now, update);
    AppendedFacts(t, c, m, now, update);
    StepOk(t, Appended(t, c, m, now, update), c, now, uuids, now + 1, uuids + 1);
  }

  lemma LoadsBack(t: Tables, c: ChatKey, i: nat)
    requires MessagesHeld(t, c) && i < |Last(SaidOf(t, c))|
    ensures var m := Last(SaidOf(t, c))[i];
            && Ordered(IndexAt(t, c)) == Ids(Last(SaidOf(t, c)))
            && (c, m.msgId) in t.msgs && t.msgs[(c, m.msgId)] != map[]
                 && HashToMessage(t.msgs[(c, m.msgId)], m.msgId) == m
  {
    var m := Last(SaidOf(t, c))[i];
    assert m in Last(SaidOf(t, c)) && Encoded(t, c, m);
    BaseRead(m, c);
    HashRoundTrip(m, c, m.msgId);
  }

  /** A new chat. */
  lemma CreatedOk(t: Tables, c: ChatKey, mapping: Hash, now: int, uuids: nat)
    requires AllOk(t, now, uuids) && ListsEarlier(t.chats, now) && |c.2| == uuids
    requires Get(mapping, "uid") == c.1 && Get(mapping, "project_id") == c.0 && Get(mapping, "msg_count") == Decimal(0)
    ensures var t' := ListedAt(MetaWritten(t, c, mapping), c, now);
            && c !in t.metas && c in t'.metas && SaidOf(t', c) == []
            && AllOk(t', now + 1, uuids + 1) && ListsEarlier(t'.chats, now + 1)
            && OthersSame(t, t', c) && NewestListed(t', c)
  {
    hide AllOk, MessagesHeld, MetaHeld, Bounded, OthersSame, NewestListed, ListsEarlier;
    var t1 := MetaWritten(t, c, mapping);
    var t' := ListedAt(t1, c, now);
    NewChatFacts(t, c, now, uuids);
    CreatedChatOk(t, c, mapping, now, uuids);
    MetaOthers(t, c, mapping);
    ListedOthers(t1, c, now);
    OthersTwice(t, t1, t', c);
    ListedLast(t1, c, now);
    StepOk(t, t', c, now, uuids, now + 1, uuids + 1);
  }

  lemma NewChatFacts(t: Tables, c: ChatKey, now: int, uuids: nat)
    requires AllOk(t, now, uuids) && |c.2| == uuids
    ensures c !in t.metas && SaidOf(t, c) == [] && MessagesHeld(t, c) && IndexAt(t, c) == map[]
    ensures Earlier(ChatsAt(t, UserOf(c)), now)
  {
    assert ChatOk(t, c, now, uuids);
    EmptyIndex(t, c);
  }

  lemma CreatedChatOk(t: Tables, c: ChatKey, mapping: Hash, now: int, uuids: nat)
    requires c !in t.metas && MessagesHeld(t, c) && IndexAt(t, c) == map[] && |c.2| == uuids
    requires Earlier(ChatsAt(t, UserOf(c)), now)
    requires Get(mapping, "uid") == c.1 && Get(mapping, "project_id") == c.0 && Get(mapping, "msg_count") == Decimal(0)
    ensures ChatOk(ListedAt(MetaWritten(t, c, mapping), c, now), c, now + 1, uuids + 1)
  {
    hide MessagesHeld, Get;
    var t1 := MetaWritten(t, c, mapping);
    assert t1.metas[c] == mapping by { assert map[] + mapping == mapping; }
    assert |IndexAt(t1, c)| == 0;
    MessagesAgree(t, ListedAt(t1, c, now), c);
    MetaStays(t1, c, now);
    NewListedBounds(t1, c, now, uuids);
  }

  lemma NewListedBounds(t: Tables, c: ChatKey, now: int, uuids: nat)
    requires IndexAt(t, c) == map[] && Earlier(ChatsAt(t, UserOf(c)), now) && |c.2| == uuids
    ensures Bounded(ListedAt(t, c, now), c, now + 1, uuids + 1)
  {
    var t' := ListedAt(t, c, now);
    assert IndexAt(t', c) == IndexAt(t, c) && ChatsAt(t', UserOf(c)) == ChatsAt(t, UserOf(c))[c.2 := now];
  }

  /** Nothing was said, so nothing is listed. */
  lemma EmptyIndex(t: Tables, c: ChatKey)
    requires MessagesHeld(t, c) && SaidOf(t, c) == []
    ensures IndexAt(t, c) == map[] && |IndexAt(t, c)| == 0 && forall id :: (c, id) !in t.msgs
  {
    OrderedLength(IndexAt(t, c));
    forall id ensures (c, id) !in t.msgs { assert HashedExactly(t, c, id); }
  }

  /** Fields of an existing chat that neither identify it nor count its messages. */
  lemma UpdatedOk(t: Tables, c: ChatKey, update: Hash, now: int, uuids: nat)
    requires AllOk(t, now, uuids) && ListsEarlier(t.chats, now) && c in t.metas
    requires "uid" !in update && "project_id" !in update && "msg_count" !in update
    ensures var t' := MetaWritten(t, c, update);
            AllOk(t', now, uuids) && OthersSame(t, t', c) && SaidOf(t', c) == SaidOf(t, c)
  {
    hide MessagesHeld, MetaHeld, Bounded, OthersSame, ListsEarlier, Decimal;
    assert ChatOk(t, c, now, uuids);
    UpdatedChat(t, c, update, now, uuids);
    MetaOthers(t, c, update);
    StepOk(t, MetaWritten(t, c, update), c, now, uuids, now, uuids);
  }

  lemma UpdatedChat(t: Tables, c: ChatKey, update: Hash, now: int, uuids: nat)
    requires ChatOk(t, c, now, uuids) && c in t.metas
    requires "uid" !in update && "project_id" !in update && "msg_count" !in update
    ensures ChatOk(MetaWritten(t, c, update), c, now, uuids)
  {
    hide MessagesHeld, MetaHeld, Bounded;
    var t' := MetaWritten(t, c, update);
    MessagesAgree(t, t', c);
    BoundedSame(t, t', c, now, uuids);
    MetaUpdatedHeld(t, t', c, update);
  }

  lemma MetaUpdatedHeld(t: Tables, t': Tables, c: ChatKey, update: Hash)
    requires MetaHeld(t, c) && c in t.metas && t' == t.(metas := t.metas[c := t.metas[c] + update])
    requires "uid" !in update && "project_id" !in update && "msg_count" !in update
    ensures MetaHeld(t', c)
  {
    hide Get, Decimal;
    var h := t.metas[c];
    FieldsMerged(h, update);
    assert Get(h + update, "uid") == Get(h, "uid") && Get(h + update, "project_id") == Get(h, "project_id");
    assert Get(h + update, "msg_count") == Get(h, "msg_count");
  }

  lemma BoundedSame(t: Tables, t': Tables, c: ChatKey, now: int, uuids: nat)
    requires Bounded(t, c, now, uuids) && t'.chats == t.chats && t'.index == t.index && (c in t'.metas ==> c in t.metas)
    ensures Bounded(t', c, now, uuids)
  {
  }

  ghost function Deleted(t: Tables, c: ChatKey): Tables {
    Erased(Removed(t, c, set id | id in Ordered(IndexAt(t, c))), c)
  }

  function Erased(t: Tables, c: ChatKey): Tables {
    Tables(t.metas - {c}, t.index - {c}, t.msgs, t.chats[UserOf(c) := ChatsAt(t, UserOf(c)) - {c.2}], t.said - {c})
  }

  lemma DeletedOk(t: Tables, c: ChatKey, now: int, uuids: nat)
    requires AllOk(t, now, uuids) && ListsEarlier(t.chats, now)
    ensures var t' := Deleted(t, c);
            && AllOk(t', now, uuids) && ListsEarlier(t'.chats, now) && OthersSame(t, t', c)
            && (forall id :: (c, id) !in t'.msgs)
    ensures c !in t.metas ==> SaidOf(t, c) == [] && IndexAt(t, c) == map[] && c.2 !in ChatsAt(t, UserOf(c))
                              && (forall id :: (c, id) !in t.msgs) && OthersSame(t, t, c)
  {
    hide OthersSame, MessagesHeld, MetaHeld;
    var t' := Deleted(t, c);
    assert ChatOk(t, c, now, uuids);
    if c !in t.metas { NothingHeld(t, c); SameOthers(t, c); }
    DeletedMessages(t, c);
    DeletedOthers(t, c);
    DeletedMeta(t, c);
    StepOk(t, t', c, now, uuids, now, uuids);
  }

  lemma NothingHeld(t: Tables, c: ChatKey)
    requires MessagesHeld(t, c) && MetaHeld(t, c) && c !in t.metas
    ensures SaidOf(t, c) == [] && IndexAt(t, c) == map[] && c.2 !in ChatsAt(t, UserOf(c))
    ensures forall id :: (c, id) !in t.msgs
  {
    EmptyIndex(t, c);
  }

  lemma DeletedMeta(t: Tables, c: ChatKey)
    ensures MetaHeld(Deleted(t, c), c)
  {
  }

  lemma SameOthers(t: Tables, c: ChatKey)
    ensures OthersSame(t, t, c)
  {
  }

  lemma DeletedMessages(t: Tables, c: ChatKey)
    requires MessagesHeld(t, c)
    ensures MessagesHeld(Deleted(t, c), c) && forall id :: (c, id) !in Deleted(t, c).msgs
  {
    var gone := set id | id in Ordered(IndexAt(t, c));
    var t1 := Removed(t, c, gone);
    forall id ensures (c, id) !in t1.msgs {
      assert HashedExactly(t, c, id);
      assert id in gone ==> (c, id) in (set x | x in gone :: (c, x));
    }
    NothingLeft(Erased(t1, c), c);
  }

  lemma NothingLeft(t: Tables, c: ChatKey)
    requires SaidOf(t, c) == [] && IndexAt(t, c) == map[] && forall id :: (c, id) !in t.msgs
    ensures MessagesHeld(t, c)
  {
    OrderedLength(map[]);
  }

  lemma ErasedOthers(t: Tables, c: ChatKey)
    ensures OthersSame(t, Erased(t, c), c)
  {
    hide MessagesSame;
    forall d | d != c ensures ChatSame(t, Erased(t, c), d) { NoMessages(t, Erased(t, c), d); }
  }

  lemma DeletedOthers(t: Tables, c: ChatKey)
    ensures OthersSame(t, Deleted(t, c), c)
  {
    var t1 := Removed(t, c, set id | id in Ordered(IndexAt(t, c)));
    RemovedOthers(t, c, set id | id in Ordered(IndexAt(t, c)));
    ErasedOthers(t1, c);
    OthersTwice(t, t1, Erased(t1, c), c);
  }

  lemma ListedExist(t: Tables, u: UserKey, now: int, uuids: nat)
    requires AllOk(t, now, uuids)
    ensures forall id {:trigger id in Reversed(Ordered(ChatsAt(t, u)))} ::
              id in Reversed(Ordered(ChatsAt(t, u))) <==> (u.0, u.1, id) in t.metas
  {
    ReversedMembers(Ordered(ChatsAt(t, u)));
    forall id ensures id in Reversed(Ordered(ChatsAt(t, u))) <==> (u.0, u.1, id) in t.metas {
      assert ChatOk(t, (u.0, u.1, id), now, uuids);
      assert UserOf((u.0, u.1, id)) == u;
    }
  }

  class ChatHistoryStore {
    var clock: int
    var uuids: nat
    var metas: map<ChatKey, Hash>
    var index: map<ChatKey, ZSet>
    var msgs: map<(ChatKey, string), Hash>
    var chats: map<UserKey, ZSet>
    ghost var said: map<ChatKey, seq<Message>>

    constructor ()
      ensures Valid()
    {
      clock, uuids := 0, 1;
      metas, index, msgs, chats, said := map[], map[], map[], map[], map[];
      new;
      forall c ensures ChatOk(T(), c, clock, uuids) { OrderedLength(map[]); }
    }

    ghost function T(): Tables
      reads this
    {
      Tables(metas, index, msgs, chats, said)
    }

    ghost predicate Valid()
      reads this
    {
      uuids > 0 && AllOk(T(), clock, uuids) && ListsEarlier(chats, clock)
    }

    /** _load_chat_meta */
    method LoadMeta(c: ChatKey) returns (meta: Option<Hash>)
      requires Valid()
      ensures meta == if c in metas then Some(metas[c]) else None
    {
      assert ChatOk(T(), c, clock, uuids);
      if c !in metas || metas[c] == map[] || Get(metas[c], "uid") != c.1 { return None; }
      if Get(metas[c], "project_id") != "" && Get(metas[c], "project_id") != c.0 { return None; }
      return Some(metas[c]);
    }

    /** hset and zadd of one message */
    method StoreMessage(c: ChatKey, m: Message, score: int)
      modifies this`msgs, this`index, this`said
      ensures T() == Stored(old(T()), c, m, score)
    {
      msgs := msgs[(c, m.msgId) := MessageToHash(m, c)];
      index := index[c := (if c in index then index[c] else map[])[m.msgId := score]];
      said := said[c := (if c in said then said[c] else []) + [m]];
    }

    /** _trim_messages */
    method TrimMessages(c: ChatKey)
      modifies this`msgs, this`index
      ensures T() == AfterTrim(old(T()), c)
    {
      var z := if c in index then index[c] else map[];
      OrderedLength(z);
      var overflow := |z| - MAX_MESSAGES;
      if overflow <= 0 { return; }
      var ordered := SortedMembers(z, false);
      var removed := Slice(ordered, 0, overflow - 1);
      assert removed == Overflow(T(), c);
      RemoveMessages(c, z, removed);
    }

    /** zremrangebyrank has found the messages; they and their hashes go. */
    method RemoveMessages(c: ChatKey, z: ZSet, removed: seq<string>)
      requires z == IndexAt(T(), c)
      modifies this`msgs, this`index
      ensures T() == Removed(old(T()), c, set id | id in removed)
    {
      index := index[c := z - (set id | id in removed)];
      for i := 0 to |removed|
        invariant msgs == old(msgs) - (set id | id in removed[..i] :: (c, id))
        invariant index == old(index)[c := z - (set id | id in removed)]
      {
        msgs := msgs - {(c, removed[i])};
        assert removed[..i + 1] == removed[..i] + [removed[i]];
      }
      assert removed[..|removed|] == removed;
      ghost var gone := set id | id in removed;
      assert msgs == old(msgs) - (set id | id in gone :: (c, id)) by {
        assert (set id | id in removed :: (c, id)) == (set id | id in gone :: (c, id));
      }
      assert index == old(index)[c := IndexAt(old(T()), c) - gone];
    }

    /** hset of the chat, and its place in the user's list */
    method WriteMeta(c: ChatKey, update: Hash)
      modifies this`metas
      ensures T() == MetaWritten(old(T()), c, update)
    {
      metas := metas[c := (if c in metas then metas[c] else map[]) + update];
    }

    method WriteListed(c: ChatKey, score: int)
      modifies this`chats
      ensures T() == ListedAt(old(T()), c, score)
    {
      var u := (c.0, c.1);
      chats := chats[u := (if u in chats then chats[u] else map[])[c.2 := score]];
    }

    /** append_message; false stands for its KeyError.  The message joins what was said in the chat,
        nothing else changes in any other chat, and the chat is now the newest of its user's list. */
    method AppendMessage(c: ChatKey, role: string, content: string, now: string, conv: Option<string>,
                         activities: Option<Json>, activityTexts: seq<string>, confidence: Option<Json>,
                         imageUrls: Option<Json>, runId: Option<string>)
      returns (ok: bool, ghost m: Message)
      requires Valid()
      modifies this
      ensures Valid()
      ensures ok <==> c in old(metas)
      ensures !ok ==> T() == old(T())
      ensures ok ==> c in metas && SaidOf(T(), c) == SaidOf(old(T()), c) + [m] && OthersSame(old(T()), T(), c)
      ensures ok ==> m.role == role && m.content == content && m.createdAt == now && m.activities == activities
                       && m.confidence == confidence && m.imageUrls == imageUrls && m.runId == Present(runId)
      ensures ok ==> NewestListed(T(), c)
      ensures ok ==>
                && c in metas
                && Get(metas[c], "title") == FirstN(NextTitle(Get(old(metas)[c], "title"), role, content), TITLE_MAX)
                       && Get(metas[c], "search_text") == SearchAfter(old(metas)[c], role, content, activityTexts)
    {
      hide Stored, AfterTrim, MetaWritten, ListedAt, AllOk, ListsEarlier, OthersSame, NewestListed, WellFormed,
           ChatHistoryStore.MetaUpdate, NextTitle, SearchAfter, Decimal, FirstN, Get;
      ghost var t := T();
      var score, msgId := clock, IdText(uuids);
      var message := NewMessage(c, msgId, role, content, now, activities, confidence, imageUrls, runId);
      m := message;
      var meta := LoadMeta(c);
      if meta.None? { return false, m; }
      clock, uuids := clock + 1, uuids + 1;
      var count := WriteMessage(c, message, score);
      var update := MetaUpdate(meta.value, role, content, now, conv, activityTexts, count);
      WriteChat(c, update, score);
      AppendedAll(t, c, message, score, |msgId|, update);
      AppendedMeta(t, c, message, score, update);
      return true, m;
    }

    static method NewMessage(c: ChatKey, msgId: string, role: string, content: string, now: string,
                             activities: Option<Json>, confidence: Option<Json>, imageUrls: Option<Json>,
                             runId: Option<string>)
      returns (m: Message)
      requires msgId != ""
      ensures WellFormed(m) && m.msgId == msgId
      ensures m.role == role && m.content == content && m.createdAt == now && m.activities == activities
              && m.confidence == confidence && m.imageUrls == imageUrls && m.runId == Present(runId)
    {
      m := Message(msgId, role, content, now, if role == "user" then c.1 else "assistant",
                   imageUrls, activities, confidence, Present(runId));
    }

    method WriteMessage(c: ChatKey, message: Message, score: int) returns (count: nat)
      modifies this`msgs, this`index, this`said
      ensures T() == AfterTrim(Stored(old(T()), c, message, score), c) && count == |IndexAt(T(), c)|
    {
      StoreMessage(c, message, score);
      TrimMessages(c);
      count := |if c in index then index[c] else map[]|;
    }

    method WriteChat(c: ChatKey, update: Hash, score: int)
      modifies this`metas, this`chats
      ensures T() == ListedAt(MetaWritten(old(T()), c, update), c, score)
    {
      WriteMeta(c, update);
      WriteListed(c, score);
    }

    /** The fields of the chat that a message changes. */
    static function MetaUpdate(meta: Hash, role: string, content: string, now: string, conv: Option<string>,
                               activityTexts: seq<string>, count: nat): (update: Hash)
      ensures "uid" !in update && "project_id" !in update
      ensures "msg_count" in update && update["msg_count"] == Decimal(count)
      ensures "title" in update && update["title"] == FirstN(NextTitle(Get(meta, "title"), role, content), TITLE_MAX)
      ensures "search_text" in update && update["search_text"] == SearchAfter(meta, role, content, activityTexts)
    {
      var title := NextTitle(Get(meta, "title"), role, content);
      var update := map["title" := FirstN(title, TITLE_MAX), "updated_at" := now,
                        "search_text" := SearchAfter(meta, role, content, activityTexts),
                          "msg_count" := Decimal(count)];
      if conv.Some? && conv.value != "" then update["agent_conversation_id" := conv.value] else update
    }

    /** get_thread: the newest messages, at most 200, in the order they were said. */
    method GetThread(c: ChatKey) returns (messages: Option<seq<Message>>)
      requires Valid()
      ensures messages.Some? <==> c in metas
      ensures messages.Some? ==> messages.value == Last(SaidOf(T(), c))
    {
      var meta := LoadMeta(c);
      if meta.None? { return None; }
      assert ChatOk(T(), c, clock, uuids);
      var msgIds := SortedMembers(if c in index then index[c] else map[], false);
      var out := LoadMessages(c, msgIds);
      return Some(out);
    }

    method LoadMessages(c: ChatKey, msgIds: seq<string>) returns (out: seq<Message>)
      requires MessagesHeld(T(), c) && msgIds == Ids(Last(SaidOf(T(), c)))
      ensures out == Last(SaidOf(T(), c))
    {
      hide HashToMessage, MessageToHash, MessagesHeld, Last, SaidOf, IndexAt, Ids;
      ghost var w := Last(SaidOf(T(), c));
      out := [];
      for i := 0 to |msgIds|
        invariant out == w[..i]
      {
        LoadsBack(T(), c, i);
        if (c, msgIds[i]) in msgs && msgs[(c, msgIds[i])] != map[] {
          out := out + [HashToMessage(msgs[(c, msgIds[i])], msgIds[i])];
        }
      }
    }

    /** create_thread: a new empty chat at the top of its user's list. */
    method CreateThread(pid: string, uid: string, title: string, now: string) returns (chatId: string)
      requires Valid()
      modifies this
      ensures Valid()
      ensures var c := (pid, uid, chatId);
              && c !in old(metas) && c in metas && SaidOf(T(), c) == []
              && OthersSame(old(T()), T(), c) && NewestListed(T(), c)
    {
      hide AllOk, OthersSame, ListsEarlier, NewestListed, MessagesHeld, MetaHeld;
      ghost var t := T();
      var score := clock;
      chatId := IdText(uuids);
      clock, uuids := clock + 1, uuids + 1;
      var c := (pid, uid, chatId);
      var mapping := NewMeta(c, title, now);
      CreatedOk(t, c, mapping, score, |chatId|);
      WriteChat(c, mapping, score);
    }

    static function NewMeta(c: ChatKey, title: string, now: string): (h: Hash)
      ensures Get(h, "uid") == c.1 && Get(h, "project_id") == c.0 && Get(h, "msg_count") == Decimal(0)
    {
      map["chat_id" := c.2, "project_id" := c.0, "uid" := c.1, "title" := FirstN(title, TITLE_MAX),
          "agent_conversation_id" := "", "agent_run_status" := "idle", "created_at" := now, "updated_at" := now,
          "search_text" := "", "msg_count" := "0"]
    }

    /** set_agent_run_status; false stands for its KeyError. */
    method SetAgentRunStatus(c: ChatKey, status: string, error: string, now: string) returns (ok: bool)
      requires Valid()
      modifies this`metas
      ensures Valid() && (ok <==> c in old(metas))
      ensures !ok ==> T() == old(T())
      ensures ok ==> SaidOf(T(), c) == SaidOf(old(T()), c) && OthersSame(old(T()), T(), c)
      ensures ok ==> c in metas && Get(metas[c], "agent_run_status") == status
      ensures ok ==> c in metas && Get(metas[c], "agent_run_error") == FirstN(error, 500)
    {
      hide AllOk, OthersSame, ListsEarlier, MessagesHeld, MetaHeld;
      var meta := LoadMeta(c);
      if meta.None? { return false; }
      ghost var t := T();
      var mapping := map["agent_run_status" := status, "updated_at" := now, "agent_run_error" := FirstN(error, 500)];
      UpdatedOk(t, c, mapping, clock, uuids);
      FieldsMerged(metas[c], mapping);
      WriteMeta(c, mapping);
      return true;
    }

    /** delete_thread: the chat is gone with all its messages, and no other chat is touched. */
    method DeleteThread(c: ChatKey) returns (ok: bool)
      requires Valid()
      modifies this`metas, this`index, this`msgs, this`chats, this`said
      ensures Valid() && (ok <==> c in old(metas))
      ensures c !in metas && SaidOf(T(), c) == [] && IndexAt(T(), c) == map[] && c.2 !in ChatsAt(T(), UserOf(c))
      ensures forall id :: (c, id) !in msgs
      ensures OthersSame(old(T()), T(), c)
    {
      hide AllOk, OthersSame, ListsEarlier, MessagesHeld, MetaHeld;
      ghost var t := T();
      DeletedOk(t, c, clock, uuids);
      var meta := LoadMeta(c);
      if meta.None? { return false; }
      EraseThread(c);
      return true;
    }

    /** The deletions of delete_thread, one after another. */
    method EraseThread(c: ChatKey)
      modifies this`metas, this`index, this`msgs, this`chats, this`said
      ensures T() == Deleted(old(T()), c)
    {
      var z := if c in index then index[c] else map[];
      var msgIds := SortedMembers(z, false);
      RemoveMessages(c, z, msgIds);
      index := index - {c};
      metas := metas - {c};
      var u := (c.0, c.1);
      chats := chats[u := (if u in chats then chats[u] else map[]) - {c.2}];
      said := said - {c};
    }

    /** list_threads, newest first: every chat of the user that exists, once. */
    method ListThreads(pid: string, uid: string) returns (chatIds: seq<string>)
      requires Valid()
      ensures chatIds == Reversed(Ordered(ChatsAt(T(), (pid, uid))))
      ensures forall id {:trigger id in chatIds} :: id in chatIds <==> (pid, uid, id) in metas
    {
      hide AllOk, ListsEarlier, Reversed;
      var z := if (pid, uid) in chats then chats[(pid, uid)] else map[];
      var listed := SortedMembers(z, true);
      ListedExist(T(), (pid, uid), clock, uuids);
      chatIds := KeepExisting(pid, uid, listed);
    }

    /** The loop of list_threads: a chat whose hash is missing would be left out. */
    method KeepExisting(pid: string, uid: string, listed: seq<string>) returns (chatIds: seq<string>)
      requires Valid() && forall id :: id in listed ==> (pid, uid, id) in metas
      ensures chatIds == listed
    {
      hide ChatHistoryStore.Valid;
      chatIds := [];
      for i := 0 to |listed|
        invariant chatIds == listed[..i]
      {
        assert listed[i] in listed;
        var meta := LoadMeta((pid, uid, listed[i]));
        if meta.Some? { chatIds := chatIds + [listed[i]]; }
      }
    }
  }
}
