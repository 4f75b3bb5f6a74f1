/** The tables of the chat store in the file storage: hashes and sorted sets under joined keys.  What
    the chat store does to its tables, these methods do to the files. */
module ChatFiles {
  import opened Wrappers
  import opened ZSets
  import opened ChatHistory
  import opened LocalFiles

  // ---- joined keys ----

  predicate Plain(s: string) { ':' !in s }
  predicate PlainChat(c: ChatKey) { Plain(c.0) && Plain(c.1) && Plain(c.2) }
  predicate PlainUser(u: UserKey) { Plain(u.0) && Plain(u.1) }

  function Join(a: string, b: string): string { a + ":" + b }

  function UserName(u: UserKey): string { Join(u.0, u.1) }
  function ChatName(c: ChatKey): string { Join(c.0, Join(c.1, c.2)) }
  function MessageName(c: ChatKey, id: string): string { Join(c.0, Join(c.1, Join(c.2, id))) }

  /** The first part of a joined key ends at the first colon. */
  lemma JoinUnique(a: string, b: string, x: string, y: string)
    requires Plain(a) && Plain(x) && Join(a, b) == Join(x, y)
    ensures a == x && b == y
  {
    ColonFirst(a, b, |x|);
    ColonFirst(x, y, |a|);
    var j := Join(a, b);
    assert a == j[..|a|] && x == j[..|x|] && b == j[|a| + 1..] && y == j[|x| + 1..];
  }

  lemma ColonFirst(a: string, b: string, i: nat)
    requires Plain(a) && i < |Join(a, b)| && Join(a, b)[i] == ':'
    ensures |a| <= i
  {
    forall k | 0 <= k < |a| ensures Join(a, b)[k] != ':' { assert Join(a, b)[k] == a[k] && a[k] in a; }
  }

  lemma UserNameUnique(u: UserKey, v: UserKey)
    requires PlainUser(u) && PlainUser(v) && UserName(u) == UserName(v)
    ensures u == v
  {
    JoinUnique(u.0, u.1, v.0, v.1);
  }

  lemma ChatNameUnique(c: ChatKey, d: ChatKey)
    requires PlainChat(c) && PlainChat(d) && ChatName(c) == ChatName(d)
    ensures c == d
  {
    JoinUnique(c.0, Join(c.1, c.2), d.0, Join(d.1, d.2));
    JoinUnique(c.1, c.2, d.1, d.2);
  }

  lemma MessageNameUnique(c: ChatKey, id: string, d: ChatKey, x: string)
    requires PlainChat(c) && PlainChat(d) && MessageName(c, id) == MessageName(d, x)
    ensures c == d && id == x
  {
    JoinUnique(c.0, Join(c.1, Join(c.2, id)), d.0, Join(d.1, Join(d.2, x)));
    JoinUnique(c.1, Join(c.2, id), d.1, Join(d.2, x));
    JoinUnique(c.2, id, d.2, x);
  }

  // ---- what the files hold ----

  const CHATS := "chats"
  const CHAT := "chat"
  const CHAT_MSGS := "chat_msgs"
  const MSG := "msg"

  function Entry<K, V>(m: map<K, V>, k: K): Option<V> { if k in m then Some(m[k]) else None }

  predicate MetaIn(f: Files, t: Tables, c: ChatKey) { HashOf(AtIn(f, CHAT, ChatName(c))) == Entry(t.metas, c) }
  predicate IndexIn(f: Files, t: Tables, c: ChatKey) { ZSetOf(AtIn(f, CHAT_MSGS, ChatName(c))) == IndexAt(t, c) }
  predicate ChatsIn(f: Files, t: Tables, u: UserKey) { ZSetOf(AtIn(f, CHATS, UserName(u))) == ChatsAt(t, u) }

  predicate MessageIn(f: Files, t: Tables, c: ChatKey, id: string) {
    HashOf(AtIn(f, MSG, MessageName(c, id))) == Entry(t.msgs, (c, id))
  }

  /** The files hold the tables, for all keys whose parts have no colon. */
  ghost predicate Holds(f: Files, t: Tables) {
    && (forall c {:trigger MetaIn(f, t, c)} :: PlainChat(c) ==> MetaIn(f, t, c))
    && (forall c {:trigger IndexIn(f, t, c)} :: PlainChat(c) ==> IndexIn(f, t, c))
    && (forall c, id {:trigger MessageIn(f, t, c, id)} :: PlainChat(c) ==> MessageIn(f, t, c, id))
    && (forall u {:trigger ChatsIn(f, t, u)} :: PlainUser(u) ==> ChatsIn(f, t, u))
  }

  /** Only the given file changed. */
  ghost predicate OnlyFile(f: Files, f': Files, ns: string, key: string) {
    forall n, k {:trigger AtIn(f', n, k)} :: (n, k) != (ns, key) ==> AtIn(f', n, k) == AtIn(f, n, k)
  }

  // ---- one write to a file, one write to a table ----

  lemma MetaFile(f: Files, f': Files, t: Tables, t': Tables, c: ChatKey)
    requires Holds(f, t) && PlainChat(c) && OnlyFile(f, f', CHAT, ChatName(c)) && MetaIn(f', t', c)
    requires t' == t.(metas := t'.metas) && forall d :: d != c ==> Entry(t'.metas, d) == Entry(t.metas, d)
    ensures Holds(f', t')
  {
    hide AtIn, HashOf, ZSetOf, ChatName, UserName, MessageName;
    forall d | PlainChat(d) ensures MetaIn(f', t', d) {
      assert MetaIn(f, t, d);
      if ChatName(d) == ChatName(c) { ChatNameUnique(c, d); }
    }
    forall d | PlainChat(d) ensures IndexIn(f', t', d) { assert IndexIn(f, t, d); }
    forall d, id | PlainChat(d) ensures MessageIn(f', t', d, id) { assert MessageIn(f, t, d, id); }
    forall u | PlainUser(u) ensures ChatsIn(f', t', u) { assert ChatsIn(f, t, u); }
  }

  lemma IndexFile(f: Files, f': Files, t: Tables, t': Tables, c: ChatKey)
    requires Holds(f, t) && PlainChat(c) && OnlyFile(f, f', CHAT_MSGS, ChatName(c)) && IndexIn(f', t', c)
    requires t' == t.(index := t'.index) && forall d :: d != c ==> IndexAt(t', d) == IndexAt(t, d)
    ensures Holds(f', t')
  {
    hide AtIn, HashOf, ZSetOf, ChatName, UserName, MessageName;
    forall d | PlainChat(d) ensures IndexIn(f', t', d) {
      assert IndexIn(f, t, d);
      if ChatName(d) == ChatName(c) { ChatNameUnique(c, d); }
    }
    forall d | PlainChat(d) ensures MetaIn(f', t', d) { assert MetaIn(f, t, d); }
    forall d, id | PlainChat(d) ensures MessageIn(f', t', d, id) { assert MessageIn(f, t, d, id); }
    forall u | PlainUser(u) ensures ChatsIn(f', t', u) { assert ChatsIn(f, t, u); }
  }

  lemma IndexShrinks(f: Files, f': Files, t: Tables, c: ChatKey, gone: set<string>)
    requires Holds(f, t) && PlainChat(c) && OnlyFile(f, f', CHAT_MSGS, ChatName(c))
    requires ZSetOf(AtIn(f', CHAT_MSGS, ChatName(c))) == IndexAt(t, c) - gone
    ensures Holds(f', t.(index := t.index[c := IndexAt(t, c) - gone]))
  {
    IndexFile(f, f', t, t.(index := t.index[c := IndexAt(t, c) - gone]), c);
    hide Holds, OnlyFile;
  }

  lemma ChatsFile(f: Files, f': Files, t: Tables, t': Tables, u: UserKey)
    requires Holds(f, t) && PlainUser(u) && OnlyFile(f, f', CHATS, UserName(u)) && ChatsIn(f', t', u)
    requires t' == t.(chats := t'.chats) && forall v :: v != u ==> ChatsAt(t', v) == ChatsAt(t, v)
    ensures Holds(f', t')
  {
    hide AtIn, HashOf, ZSetOf, ChatName, UserName, MessageName;
    forall v | PlainUser(v) ensures ChatsIn(f', t', v) {
      assert ChatsIn(f, t, v);
      if UserName(v) == UserName(u) { UserNameUnique(u, v); }
    }
    forall d | PlainChat(d) ensures MetaIn(f', t', d) { assert MetaIn(f, t, d); }
    forall d | PlainChat(d) ensures IndexIn(f', t', d) { assert IndexIn(f, t, d); }
    forall d, id | PlainChat(d) ensures MessageIn(f', t', d, id) { assert MessageIn(f, t, d, id); }
  }

  /** The files of some messages of one chat changed. */
  ghost predicate OnlyMessages(f: Files, f': Files, c: ChatKey, ids: set<string>) {
    forall n, k {:trigger AtIn(f', n, k)} ::
      (n == MSG ==> forall id :: id in ids ==> k != MessageName(c, id)) ==> AtIn(f', n, k) == AtIn(f, n, k)
  }

  lemma MessageFiles(f: Files, f': Files, t: Tables, t': Tables, c: ChatKey, ids: set<string>)
    requires Holds(f, t) && PlainChat(c) && OnlyMessages(f, f', c, ids)
    requires forall id :: id in ids ==> MessageIn(f', t', c, id)
    requires t' == t.(msgs := t'.msgs)
    requires forall d, id :: d != c || id !in ids ==> Entry(t'.msgs, (d, id)) == Entry(t.msgs, (d, id))
    ensures Holds(f', t')
  {
    hide AtIn, HashOf, ZSetOf, ChatName, UserName, MessageName;
    forall d, id | PlainChat(d) ensures MessageIn(f', t', d, id) {
      assert MessageIn(f, t, d, id);
      if d != c || id !in ids {
        forall x | x in ids ensures MessageName(d, id) != MessageName(c, x) {
          if MessageName(d, id) == MessageName(c, x) { MessageNameUnique(d, id, c, x); }
        }
      }
    }
    forall d | PlainChat(d) ensures MetaIn(f', t', d) { assert MetaIn(f, t, d); }
    forall d | PlainChat(d) ensures IndexIn(f', t', d) { assert IndexIn(f, t, d); }
    forall u | PlainUser(u) ensures ChatsIn(f', t', u) { assert ChatsIn(f, t, u); }
  }

  // ---- the storage calls of the chat store ----

  class ChatFileStore {
    const storage: LocalStorage

    constructor (storage: LocalStorage)
      ensures this.storage == storage
    {
      this.storage := storage;
    }

    // -- the calls, on the files as a value --

    method HSet(ns: string, key: string, mapping: Hash)
      requires storage.Valid() && mapping != map[] && MARK !in mapping
      modifies storage
      ensures storage.Valid() && OnlyFile(old(storage.files), storage.files, ns, key)
      ensures var before := HashOf(AtIn(old(storage.files), ns, key));
              HashOf(AtIn(storage.files, ns, key)) == Some((if before.Some? then before.value else map[]) + mapping)
    {
      ghost var f := storage.files;
      storage.HSet(ns, key, mapping);
      FilesAgree(f);
    }

    method ZAdd(ns: string, key: string, member: string, score: int)
      requires storage.Valid()
      modifies storage
      ensures storage.Valid() && OnlyFile(old(storage.files), storage.files, ns, key)
      ensures ZSetOf(AtIn(storage.files, ns, key)) == ZSetOf(AtIn(old(storage.files), ns, key))[member := score]
    {
      ghost var f := storage.files;
      storage.ZAdd(ns, key, map[member := score]);
      FilesAgree(f);
      hide HashOf, ZSetOf, AtIn;
      AddedOne(ZSetOf(AtIn(f, ns, key)), member, score);
    }

    method ZRem(ns: string, key: string, member: string)
      requires storage.Valid()
      modifies storage
      ensures storage.Valid() && OnlyFile(old(storage.files), storage.files, ns, key)
      ensures ZSetOf(AtIn(storage.files, ns, key)) == ZSetOf(AtIn(old(storage.files), ns, key)) - {member}
    {
      ghost var f := storage.files;
      storage.ZRem(ns, key, [member]);
      FilesAgree(f);
      assert (set m | m in [member]) == {member};
    }

    method ZRemRange(ns: string, key: string, start: int, end: int) returns (removed: seq<string>)
      requires storage.Valid()
      modifies storage
      ensures storage.Valid() && OnlyFile(old(storage.files), storage.files, ns, key)
      ensures removed == RedisRange(Ordered(ZSetOf(AtIn(old(storage.files), ns, key))), start, end)
      ensures ZSetOf(AtIn(storage.files, ns, key)) == ZSetOf(AtIn(old(storage.files), ns, key)) - (set m | m in removed)
    {
      ghost var f := storage.files;
      removed := storage.ZRemRangeByRank(ns, key, start, end);
      FilesAgree(f);
    }

    method Delete(ns: string, key: string)
      requires storage.Valid()
      modifies storage
      ensures storage.Valid() && OnlyFile(old(storage.files), storage.files, ns, key)
                && AtIn(storage.files, ns, key) == None
    {
      ghost var f := storage.files;
      storage.Delete(ns, key);
      FilesAgree(f);
    }

    method DeleteMany(ns: string, keys: seq<string>)
      requires storage.Valid()
      modifies storage
      ensures storage.Valid()
      ensures forall n, k {:trigger AtIn(storage.files, n, k)} ::
                AtIn(storage.files, n, k) == if n == ns && k in keys then None else AtIn(old(storage.files), n, k)
    {
      ghost var f := storage.files;
      storage.DeleteMany(ns, keys);
      FilesAgree(f);
    }

    twostate lemma FilesAgree(f: Files)
      requires f == old(storage.files)
      ensures forall n, k {:trigger AtIn(storage.files, n, k)} ::
                AtIn(storage.files, n, k) == storage.At(n, k) && AtIn(f, n, k) == old(storage.At(n, k))
    {
      forall n, k ensures AtIn(storage.files, n, k) == storage.At(n, k) {}
      forall n, k ensures AtIn(f, n, k) == old(storage.At(n, k)) {}
    }

    // -- one call, one write to the tables --

    /** hset of one message */
    method PutMessage(ghost t: Tables, c: ChatKey, m: Message)
      requires storage.Valid() && Holds(storage.files, t) && PlainChat(c) && (c, m.msgId) !in t.msgs
      modifies storage
      ensures storage.Valid() && Holds(storage.files, t.(msgs := t.msgs[(c, m.msgId) := MessageToHash(m, c)]))
    {
      ghost var f := storage.files;
      assert MessageIn(f, t, c, m.msgId);
      MessageFields(m, c);
      HSet(MSG, MessageName(c, m.msgId), MessageToHash(m, c));
      hide MessageToHash;
      ghost var f' := storage.files;
      assert map[] + MessageToHash(m, c) == MessageToHash(m, c);
      MessageFiles(f, f', t, t.(msgs := t.msgs[(c, m.msgId) := MessageToHash(m, c)]), c, {m.msgId});
    }

    /** zadd of one message */
    method PutIndex(ghost t: Tables, c: ChatKey, id: string, score: int)
      requires storage.Valid() && Holds(storage.files, t) && PlainChat(c)
      modifies storage
      ensures storage.Valid() && Holds(storage.files, t.(index := t.index[c := IndexAt(t, c)[id := score]]))
    {
      ghost var f := storage.files;
      assert IndexIn(f, t, c);
      ZAdd(CHAT_MSGS, ChatName(c), id, score);
      ghost var f' := storage.files;
      IndexFile(f, f', t, t.(index := t.index[c := IndexAt(t, c)[id := score]]), c);
    }

    /** hset and zadd of a message with a new identifier */
    method StoreMessage(ghost t: Tables, c: ChatKey, m: Message, score: int)
      requires storage.Valid() && Holds(storage.files, t) && PlainChat(c) && (c, m.msgId) !in t.msgs
      modifies storage
      ensures storage.Valid() && Holds(storage.files, Stored(t, c, m, score))
    {
      ghost var t1 := t.(msgs := t.msgs[(c, m.msgId) := MessageToHash(m, c)]);
      PutMessage(t, c, m);
      PutIndex(t1, c, m.msgId, score);
      SaidApart(storage.files, t1.(index := t1.index[c := IndexAt(t1, c)[m.msgId := score]]), Stored(t, c, m, score));
    }

    /** delete_many of messages of one chat */
    method DropMessages(ghost t: Tables, c: ChatKey, ids: seq<string>)
      requires storage.Valid() && Holds(storage.files, t) && PlainChat(c)
      modifies storage
      ensures storage.Valid() && Holds(storage.files, t.(msgs := t.msgs - (set id | id in ids :: (c, id))))
    {
      ghost var f := storage.files;
      var names := seq(|ids|, i requires 0 <= i < |ids| => MessageName(c, ids[i]));
      DeleteMany(MSG, names);
      MessagesGone(f, storage.files, t, c, ids, names);
    }

    /** _trim_messages */
    method TrimMessages(ghost t: Tables, c: ChatKey)
      requires storage.Valid() && Holds(storage.files, t) && PlainChat(c)
      modifies storage
      ensures storage.Valid() && Holds(storage.files, AfterTrim(t, c))
    {
      assert IndexIn(storage.files, t, c);
      hide Holds;
      var count := storage.ZCard(CHAT_MSGS, ChatName(c));
      var overflow := count - MAX_MESSAGES;
      if overflow <= 0 {
        assert AfterTrim(t, c) == t;
        return;
      }
      OldestRange(t, c);
      var removed := DropIndexRange(t, c, overflow);
      hide Overflow, RedisRange, Ordered;
      ghost var t1 := t.(index := t.index[c := IndexAt(t, c) - (set id | id in removed)]);
      DropMessages(t1, c, removed);
      TrimmedInSteps(t, t1.(msgs := t1.msgs - (set id | id in removed :: (c, id))), c, removed);
    }

    /** zremrangebyrank from the front */
    method DropIndexRange(ghost t: Tables, c: ChatKey, n: nat) returns (removed: seq<string>)
      requires storage.Valid() && Holds(storage.files, t) && PlainChat(c) && n > 0
      modifies storage
      ensures removed == RedisRange(Ordered(IndexAt(t, c)), 0, n - 1)
      ensures storage.Valid()
      ensures Holds(storage.files, t.(index := t.index[c := IndexAt(t, c) - (set id | id in removed)]))
    {
      ghost var f := storage.files;
      assert IndexIn(f, t, c);
      hide Holds, HashOf, ZSetOf, AtIn, OnlyFile, RedisRange, Ordered;
      removed := ZRemRange(CHAT_MSGS, ChatName(c), 0, n - 1);
      IndexShrinks(f, storage.files, t, c, set id | id in removed);
    }

    /** hset of the chat */
    method WriteMeta(ghost t: Tables, c: ChatKey, update: Hash)
      requires storage.Valid() && Holds(storage.files, t) && PlainChat(c) && update != map[] && MARK !in update
      modifies storage
      ensures storage.Valid() && Holds(storage.files, MetaWritten(t, c, update))
    {
      ghost var f := storage.files;
      assert MetaIn(f, t, c);
      HSet(CHAT, ChatName(c), update);
      ghost var f' := storage.files;
      MetaFile(f, f', t, MetaWritten(t, c, update), c);
    }

    /** zadd to the user's list */
    method WriteListed(ghost t: Tables, c: ChatKey, score: int)
      requires storage.Valid() && Holds(storage.files, t) && PlainChat(c)
      modifies storage
      ensures storage.Valid() && Holds(storage.files, ListedAt(t, c, score))
    {
      ghost var f, u := storage.files, UserOf(c);
      assert ChatsIn(f, t, u);
      ZAdd(CHATS, UserName((c.0, c.1)), c.2, score);
      ghost var f' := storage.files;
      ChatsFile(f, f', t, ListedAt(t, c, score), u);
    }

    /** The storage calls of append_message: the files hold what AppendMessage leaves in its tables. */
    method Append(ghost t: Tables, c: ChatKey, m: Message, score: int, update: Hash)
      requires storage.Valid() && Holds(storage.files, t) && PlainChat(c) && (c, m.msgId) !in t.msgs
      requires update != map[] && MARK !in update
      modifies storage
      ensures storage.Valid() && Holds(storage.files, Appended(t, c, m, score, update))
    {
      StoreMessage(t, c, m, score);
      ghost var t1 := AfterTrim(Stored(t, c, m, score), c);
      TrimMessages(Stored(t, c, m, score), c);
      WriteMeta(t1, c, update);
      WriteListed(MetaWritten(t1, c, update), c, score);
    }

    /** The storage calls of delete_thread: the files hold what DeleteThread leaves. */
    method Erase(ghost t: Tables, c: ChatKey)
      requires storage.Valid() && Holds(storage.files, t) && PlainChat(c)
      modifies storage
      ensures storage.Valid() && Holds(storage.files, Deleted(t, c))
    {
      hide Holds;
      var msgIds := ReadIndex(t, c);
      DropMessages(t, c, msgIds);
      ghost var t1 := t.(msgs := t.msgs - (set id | id in msgIds :: (c, id)));
      DropIndex(t1, c);
      ghost var t2 := t1.(index := t1.index - {c});
      DropMeta(t2, c);
      ghost var t3 := t2.(metas := t2.metas - {c});
      Unlist(t3, c);
      ghost var t4 := t3.(chats := t3.chats[UserOf(c) := ChatsAt(t3, UserOf(c)) - {c.2}]);
      DeletedInSteps(t, t4, c, msgIds);
      SaidApart(storage.files, t4, Deleted(t, c));
    }

    method DropIndex(ghost t: Tables, c: ChatKey)
      requires storage.Valid() && Holds(storage.files, t) && PlainChat(c)
      modifies storage
      ensures storage.Valid() && Holds(storage.files, t.(index := t.index - {c}))
    {
      ghost var f := storage.files;
      Delete(CHAT_MSGS, ChatName(c));
      ghost var f' := storage.files;
      IndexFile(f, f', t, t.(index := t.index - {c}), c);
    }

    method DropMeta(ghost t: Tables, c: ChatKey)
      requires storage.Valid() && Holds(storage.files, t) && PlainChat(c)
      modifies storage
      ensures storage.Valid() && Holds(storage.files, t.(metas := t.metas - {c}))
    {
      ghost var f := storage.files;
      Delete(CHAT, ChatName(c));
      ghost var f' := storage.files;
      MetaFile(f, f', t, t.(metas := t.metas - {c}), c);
    }

    /** zrem from the user's list */
    method Unlist(ghost t: Tables, c: ChatKey)
      requires storage.Valid() && Holds(storage.files, t) && PlainChat(c)
      modifies storage
      ensures storage.Valid() && Holds(storage.files, t.(chats := t.chats[UserOf(c) := ChatsAt(t, UserOf(c)) - {c.2}]))
    {
      ghost var f, u := storage.files, UserOf(c);
      assert ChatsIn(f, t, u);
      ZRem(CHATS, UserName((c.0, c.1)), c.2);
      ghost var f' := storage.files;
      ChatsFile(f, f', t, t.(chats := t.chats[u := ChatsAt(t, u) - {c.2}]), u);
    }

    // -- reading --

    method ReadMeta(ghost t: Tables, c: ChatKey) returns (h: Option<Hash>)
      requires Holds(storage.files, t) && PlainChat(c)
      ensures h == Entry(t.metas, c)
    {
      h := storage.HGetAll(CHAT, ChatName(c));
      assert MetaIn(storage.files, t, c);
    }

    method ReadMessage(ghost t: Tables, c: ChatKey, id: string) returns (h: Option<Hash>)
      requires Holds(storage.files, t) && PlainChat(c)
      ensures h == Entry(t.msgs, (c, id))
    {
      h := storage.HGetAll(MSG, MessageName(c, id));
      assert MessageIn(storage.files, t, c, id);
    }

    method ReadIndex(ghost t: Tables, c: ChatKey) returns (ids: seq<string>)
      requires Holds(storage.files, t) && PlainChat(c)
      ensures ids == Ordered(IndexAt(t, c))
    {
      ids := storage.ZRange(CHAT_MSGS, ChatName(c), 0, -1);
      assert IndexIn(storage.files, t, c);
      WholeRange(Ordered(IndexAt(t, c)));
    }

    method ReadListed(ghost t: Tables, u: UserKey) returns (ids: seq<string>)
      requires Holds(storage.files, t) && PlainUser(u)
      ensures ids == Reversed(Ordered(ChatsAt(t, u)))
    {
      ids := storage.ZRevRange(CHATS, UserName(u), 0, -1);
      assert ChatsIn(storage.files, t, u);
      WholeRange(Reversed(Ordered(ChatsAt(t, u))));
    }
  }

  // ---- helpers ----

  /** The files keep no record of what was said. */
  lemma SaidApart(f: Files, t: Tables, t': Tables)
    requires Holds(f, t) && t' == t.(said := t'.said)
    ensures Holds(f, t')
  {
    forall c | PlainChat(c) ensures MetaIn(f, t', c) { assert MetaIn(f, t, c); }
    forall c | PlainChat(c) ensures IndexIn(f, t', c) { assert IndexIn(f, t, c); }
    forall c, id | PlainChat(c) ensures MessageIn(f, t', c, id) { assert MessageIn(f, t, c, id); }
    forall u | PlainUser(u) ensures ChatsIn(f, t', u) { assert ChatsIn(f, t, u); }
  }

  lemma AddedOne(z: ZSet, member: string, score: int)
    ensures z + map[member := score] == z[member := score]
  {
  }

  lemma MessageFields(m: Message, c: ChatKey)
    ensures MARK !in MessageToHash(m, c) && MessageToHash(m, c) != map[]
  {
    assert "msg_id" in MessageToHash(m, c);
  }

  lemma RemovedKeys(c: ChatKey, ids: seq<string>)
    ensures (set x | x in (set id | id in ids) :: (c, x)) == (set id | id in ids :: (c, id))
  {
  }

  lemma MessagesGone(f: Files, f': Files, t: Tables, c: ChatKey, ids: seq<string>, names: seq<string>)
    requires Holds(f, t) && PlainChat(c)
    requires names == seq(|ids|, i requires 0 <= i < |ids| => MessageName(c, ids[i]))
    requires forall n, k {:trigger AtIn(f', n, k)} ::
               AtIn(f', n, k) == if n == MSG && k in names then None else AtIn(f, n, k)
    ensures Holds(f', t.(msgs := t.msgs - (set id | id in ids :: (c, id))))
  {
    var t', gone := t.(msgs := t.msgs - (set id | id in ids :: (c, id))), set id | id in ids;
    hide Holds, AtIn, MessageName;
    forall id | id in ids ensures MessageName(c, id) in names {
      var i :| 0 <= i < |ids| && ids[i] == id;
      assert names[i] == MessageName(c, id);
    }
    MessageFiles(f, f', t, t', c, gone);
  }

  /** The ranks that are trimmed are those of the oldest messages. */
  lemma OldestRange(t: Tables, c: ChatKey)
    requires |Ordered(IndexAt(t, c))| > MAX_MESSAGES
    ensures RedisRange(Ordered(IndexAt(t, c)), 0, |Ordered(IndexAt(t, c))| - MAX_MESSAGES - 1) == Overflow(t, c) != []
  {
  }

  lemma TrimmedInSteps(t: Tables, t2: Tables, c: ChatKey, ids: seq<string>)
    requires ids == Overflow(t, c) && ids != []
    requires t2 == t.(index := t.index[c := IndexAt(t, c) - (set id | id in ids)],
               msgs := t.msgs - (set id | id in ids :: (c, id)))
    ensures AfterTrim(t, c) == t2
  {
    RemovedKeys(c, ids);
    hide Overflow;
  }

  lemma DeletedInSteps(t: Tables, t4: Tables, c: ChatKey, ids: seq<string>)
    requires ids == Ordered(IndexAt(t, c))
    requires t4 == Tables(t.metas - {c}, t.index - {c}, t.msgs - (set id | id in ids :: (c, id)),
                          t.chats[UserOf(c) := ChatsAt(t, UserOf(c)) - {c.2}], t.said)
    ensures Deleted(t, c) == t4.(said := t.said - {c})
  {
    RemovedKeys(c, ids);
    var gone := set id | id in ids;
    assert t.index[c := IndexAt(t, c) - gone] - {c} == t.index - {c};
  }

  lemma WholeRange(items: seq<string>)
    ensures RedisRange(items, 0, -1) == items
  {
  }
}
