/** The file storage: JSON documents, hashes and sorted sets, one file a key. */
module LocalFiles {
  import opened Wrappers
  import opened KeyCodec
  import opened Names
  import opened Text
  import opened ZSets

  /** A member of a JSON object, as far as the storage looks at it.  `shown` is what str gives for
      a nested object. */
  datatype Value = Null | Str(text: string) | Num(number: int) | Nested(members: ZSet, shown: string)

  type Doc = map<string, Value>

  const MARK := "__zset__"

  /** str() of a hash value; None becomes the empty text. */
  function StrOf(v: Value): string {
    match v
    case Null => ""
    case Str(s) => s
    case Num(n) => if n < 0 then "-" + Decimal(-n) else Decimal(n)
    case Nested(_, shown) => shown
  }

  function Texts(d: Doc): map<string, string> { map k | k in d :: StrOf(d[k]) }

  function AsDoc(fields: map<string, string>): Doc { map k | k in fields :: Str(fields[k]) }

  lemma DocOfFields(fields: map<string, string>)
    ensures Texts(AsDoc(fields)) == fields
  {
  }

  /** The hash that a file holds; a sorted set is no hash. */
  function HashOf(f: Option<Doc>): Option<map<string, string>> {
    if f.None? || MARK in f.value then None else Some(Texts(f.value))
  }

  /** The sorted set that a file holds; any other file counts as an empty one. */
  function ZSetOf(f: Option<Doc>): ZSet {
    if f.None? || MARK !in f.value || !f.value[MARK].Nested? then map[] else f.value[MARK].members
  }

  function ZSetDoc(z: ZSet): Doc { map[MARK := Nested(z, "")] }

  type Files = map<(string, string), Doc>   // (namespace, file name)

  /** What is stored under a key. */
  function AtIn(files: Files, ns: string, key: string): Option<Doc> {
    if (ns, FileName(key)) in files then Some(files[(ns, FileName(key))]) else None
  }

  /** Writing or deleting the file of one key leaves what is stored under every other. */
  lemma OtherFiles(f: Files, ns: string, key: string, d: Doc)
    ensures AtIn(f[(ns, FileName(key)) := d], ns, key) == Some(d) && AtIn(f - {(ns, FileName(key))}, ns, key) == None
    ensures forall n, k :: (n, k) != (ns, key) ==> AtIn(f[(ns, FileName(key)) := d], n, k) == AtIn(f, n, k)
    ensures forall n, k :: (n, k) != (ns, key) ==> AtIn(f - {(ns, FileName(key))}, n, k) == AtIn(f, n, k)
  {
    forall k | FileName(k) == FileName(key) ensures k == key { FilesDistinct(k, key); }
    hide FileName;
  }

  class LocalStorage {
    var files: Files

    constructor ()
      ensures Valid() && files == map[]
    {
      files := map[];
    }

    /** The storage only writes files that are named after a key. */
    ghost predicate Valid()
      reads this
    {
      forall p :: p in files ==> exists key :: p.1 == FileName(key)
    }

    function At(ns: string, key: string): Option<Doc>
      reads this
    {
      AtIn(files, ns, key)
    }

    method Write(ns: string, key: string, d: Doc)
      requires Valid()
      modifies this
      ensures Valid() && At(ns, key) == Some(d)
      ensures forall n, k :: (n, k) != (ns, key) ==> At(n, k) == old(At(n, k))
    {
      OtherFiles(files, ns, key, d);
      files := files[(ns, FileName(key)) := d];
      hide AtIn;
    }

    method Delete(ns: string, key: string)
      requires Valid()
      modifies this
      ensures Valid() && At(ns, key) == None
      ensures forall n, k :: (n, k) != (ns, key) ==> At(n, k) == old(At(n, k))
    {
      OtherFiles(files, ns, key, map[]);
      files := files - {(ns, FileName(key))};
      hide AtIn;
    }

    // -- documents --

    /** get_json: a sorted set is no document. */
    method GetJson(ns: string, key: string) returns (d: Option<Doc>)
      ensures d == (if At(ns, key).Some? && MARK !in At(ns, key).value then At(ns, key) else None)
    {
      d := At(ns, key);
      if d.Some? && MARK in d.value { d := None; }
    }

    method SetJson(ns: string, key: string, d: Doc)
      requires Valid()
      modifies this
      ensures Valid() && At(ns, key) == Some(d)
      ensures forall n, k :: (n, k) != (ns, key) ==> At(n, k) == old(At(n, k))
    {
      Write(ns, key, d);
    }

    method DeleteMany(ns: string, keys: seq<string>)
      requires Valid()
      modifies this
      ensures Valid()
      ensures forall n, k :: At(n, k) == if n == ns && k in keys then None else old(At(n, k))
    {
      for i := 0 to |keys|
        invariant Valid()
        invariant forall n, k :: At(n, k) == if n == ns && k in keys[..i] then None else old(At(n, k))
      {
        Delete(ns, keys[i]);
        assert keys[..i + 1] == keys[..i] + [keys[i]];
      }
      assert keys[..|keys|] == keys;
    }

    // -- listing --

    /** What list_keys shows for a stored key. */
    function Shown(key: string): string { if key == "" then SUFFIX else key }

    ghost predicate Listable(ns: string, key: string)
      reads this
    {
      At(ns, key).Some? && MARK !in At(ns, key).value
    }

    ghost predicate ShownFor(ns: string, x: string)
      reads this
    {
      exists key :: Listable(ns, key) && Shown(key) == x
    }

    ghost predicate Processed(ns: string, todo: set<(string, string)>, x: string)
      reads this
    {
      exists key :: Listable(ns, key) && (ns, FileName(key)) !in todo && Shown(key) == x
    }

    /** list_keys: the keys of everything in the namespace that is no sorted set, in order.  The
        empty key shows as ".json"; where it is not stored, each key shows as itself and once. */
    method ListKeys(ns: string) returns (keys: seq<string>)
      requires Valid()
      ensures SortedNames(keys)
      ensures forall x {:trigger x in keys} :: x in keys <==> ShownFor(ns, x)
      ensures !Listable(ns, "") ==> StrictlySorted(keys) && forall key :: key in keys <==> Listable(ns, key)
    {
      keys := [];
      var todo := set p | p in files && p.0 == ns;
      while todo != {}
        invariant todo <= set p | p in files && p.0 == ns
        invariant SortedNames(keys)
        invariant forall x {:trigger x in keys} :: x in keys <==> Processed(ns, todo, x)
        invariant !Listable(ns, "") ==> StrictlySorted(keys)
      {
        var p :| p in todo;
        ghost var key :| p.1 == FileName(key);
        ghost var was := keys;
        KeyRoundTrip(key);
        if MARK !in files[p] {
          if !Listable(ns, "") {
            FreshName(ns, todo, key, keys);
            InsertStrict(keys, KeyOfFile(p.1));
          }
          InsertSorts(keys, KeyOfFile(p.1));
          keys := InsertName(keys, KeyOfFile(p.1));
        }
        ProcessedOne(ns, todo, p, key);
        todo := todo - {p};
      }
      forall x ensures x in keys <==> ShownFor(ns, x) {
        assert x in keys <==> Processed(ns, todo, x);
      }
      if !Listable(ns, "") {
        forall key ensures key in keys <==> Listable(ns, key) { assert key in keys <==> ShownFor(ns, key); }
      }
    }

    lemma ProcessedOne(ns: string, todo: set<(string, string)>, p: (string, string), key: string)
      requires p in todo && p == (ns, FileName(key)) && p in files
      ensures forall x :: Processed(ns, todo - {p}, x) <==>
                Processed(ns, todo, x) || (MARK !in files[p] && x == Shown(key))
    {
      forall x
        ensures Processed(ns, todo - {p}, x) <==> Processed(ns, todo, x) || (MARK !in files[p] && x == Shown(key))
      {
        if Processed(ns, todo - {p}, x) {
          var k :| Listable(ns, k) && (ns, FileName(k)) !in todo - {p} && Shown(k) == x;
          if FileName(k) == FileName(key) { FilesDistinct(k, key); }
        }
        if MARK !in files[p] && x == Shown(key) { assert Listable(ns, key); }
      }
    }

    lemma FreshName(ns: string, todo: set<(string, string)>, key: string, keys: seq<string>)
      requires !Listable(ns, "") && Listable(ns, key) && (ns, FileName(key)) in todo
      requires forall x {:trigger x in keys} :: x in keys <==> Processed(ns, todo, x)
      ensures KeyOfFile(FileName(key)) !in keys
    {
      KeyRoundTrip(key);
      forall k | Listable(ns, k) && Shown(k) == key ensures k == key {}
      assert key in keys <==> Processed(ns, todo, key);
    }

    // -- hashes --

    method HGetAll(ns: string, key: string) returns (h: Option<map<string, string>>)
      ensures h == HashOf(At(ns, key))
    {
      var d := At(ns, key);
      if d.None? || MARK in d.value { return None; }
      return Some(Texts(d.value));
    }

    /** hset: the fields of the mapping are added to the hash that is there.  A sorted set under
        the key is no hash and is lost. */
    method HSet(ns: string, key: string, mapping: map<string, string>)
      requires Valid()
      modifies this
      ensures Valid()
      ensures mapping == map[] ==> files == old(files)
      ensures mapping != map[] && MARK !in mapping ==>
                var before := HashOf(old(At(ns, key)));
                HashOf(At(ns, key)) == Some((if before.Some? then before.value else map[]) + mapping)
      ensures forall n, k :: (n, k) != (ns, key) ==> At(n, k) == old(At(n, k))
    {
      if mapping == map[] { return; }
      var current := HGetAll(ns, key);
      var fields := (if current.Some? then current.value else map[]) + mapping;
      DocOfFields(fields);
      Write(ns, key, AsDoc(fields));
    }

    // -- sorted sets --

    method SaveZSet(ns: string, key: string, z: ZSet)
      requires Valid()
      modifies this
      ensures Valid() && At(ns, key) == Some(ZSetDoc(z)) && ZSetOf(At(ns, key)) == z
      ensures forall n, k :: (n, k) != (ns, key) ==> At(n, k) == old(At(n, k))
    {
      Write(ns, key, ZSetDoc(z));
    }

    /** zadd: the scores of the mapping replace or join those that are there. */
    method ZAdd(ns: string, key: string, mapping: ZSet)
      requires Valid()
      modifies this
      ensures Valid() && ZSetOf(At(ns, key)) == ZSetOf(old(At(ns, key))) + mapping
      ensures mapping == map[] ==> files == old(files)
      ensures forall n, k :: (n, k) != (ns, key) ==> At(n, k) == old(At(n, k))
    {
      if mapping == map[] { return; }
      var members := PutMembers(ZSetOf(At(ns, key)), mapping);
      SaveZSet(ns, key, members);
    }

    static method PutMembers(z: ZSet, mapping: ZSet) returns (members: ZSet)
      ensures members == z + mapping
    {
      members := z;
      var todo := mapping.Keys;
      while todo != {}
        invariant todo <= mapping.Keys
        invariant members == z + (mapping - todo)
      {
        var m :| m in todo;
        members := members[m := mapping[m]];
        todo := todo - {m};
      }
    }

    method ZRange(ns: string, key: string, start: int, end: int) returns (out: seq<string>)
      ensures out == RedisRange(Ordered(ZSetOf(At(ns, key))), start, end)
    {
      var items := SortedMembers(ZSetOf(At(ns, key)), false);
      out := Slice(items, start, end);
      SliceIsRedisRange(items, start, end);
    }

    method ZRevRange(ns: string, key: string, start: int, end: int) returns (out: seq<string>)
      ensures out == RedisRange(Reversed(Ordered(ZSetOf(At(ns, key)))), start, end)
    {
      var items := SortedMembers(ZSetOf(At(ns, key)), true);
      out := Slice(items, start, end);
      SliceIsRedisRange(items, start, end);
    }

    method ZCard(ns: string, key: string) returns (n: nat)
      ensures n == |ZSetOf(At(ns, key))| == |Ordered(ZSetOf(At(ns, key)))|
    {
      n := |ZSetOf(At(ns, key))|;
      OrderedLength(ZSetOf(At(ns, key)));
    }

    static method DropMembers(z: ZSet, members: seq<string>) returns (data: ZSet, changed: bool)
      ensures data == z - (set m | m in members)
      ensures !changed ==> data == z
    {
      data, changed := z, false;
      for i := 0 to |members|
        invariant data == z - (set m | m in members[..i])
        invariant !changed ==> data == z
      {
        if members[i] in data {
          data := data - {members[i]};
          changed := true;
        }
        assert members[..i + 1] == members[..i] + [members[i]];
      }
      assert members[..|members|] == members;
    }

    /** zrem: the members are gone, and with the last one the file. */
    method ZRem(ns: string, key: string, members: seq<string>)
      requires Valid()
      modifies this
      ensures Valid() && ZSetOf(At(ns, key)) == ZSetOf(old(At(ns, key))) - (set m | m in members)
      ensures ZSetOf(At(ns, key)) == map[] && ZSetOf(old(At(ns, key))) != map[] ==> At(ns, key) == None
      ensures forall n, k :: (n, k) != (ns, key) ==> At(n, k) == old(At(n, k))
    {
      var data, changed := DropMembers(ZSetOf(At(ns, key)), members);
      if changed {
        if data != map[] { SaveZSet(ns, key, data); } else { Delete(ns, key); }
      }
    }

    /** zremrangebyrank: exactly the members it returns are removed, those at the given ranks, and
        the others keep their order. */
    method ZRemRangeByRank(ns: string, key: string, start: int, end: int) returns (removed: seq<string>)
      requires Valid()
      modifies this
      ensures Valid() && removed == RedisRange(Ordered(ZSetOf(old(At(ns, key)))), start, end)
      ensures ZSetOf(At(ns, key)) == ZSetOf(old(At(ns, key))) - (set m | m in removed)
      ensures exists a, b :: 0 <= a <= b <= |Ordered(ZSetOf(old(At(ns, key))))|
                && removed == Ordered(ZSetOf(old(At(ns, key))))[a..b]
                && Ordered(ZSetOf(At(ns, key))) == Ordered(ZSetOf(old(At(ns, key))))[..a]
                     + Ordered(ZSetOf(old(At(ns, key))))[b..]
      ensures forall n, k :: (n, k) != (ns, key) ==> At(n, k) == old(At(n, k))
    {
      var ordered := SortedMembers(ZSetOf(At(ns, key)), false);
      ghost var z := ZSetOf(At(ns, key));
      removed := Slice(ordered, start, end);
      SliceIsRedisRange(ordered, start, end);
      ghost var a, b := RangeBounds(ordered, start, end);
      OrderedDropRange(z, a, b);
      if removed != [] { ZRem(ns, key, removed); } else { assert z - {} == z; }
      assert ZSetOf(At(ns, key)) == z - (set m | m in ordered[a..b]);
    }
  }

  lemma RangeBounds(items: seq<string>, start: int, end: int) returns (a: nat, b: nat)
    ensures a <= b <= |items| && RedisRange(items, start, end) == items[a..b]
  {
    var n := |items|;
    var from := if start < 0 then (if start + n < 0 then 0 else start + n) else start;
    var last := if end < 0 then end + n else if end >= n then n - 1 else end;
    if from > last || from >= n { a, b := 0, 0; } else { a, b := from, last + 1; }
  }
}
