/** Recursive merging of configuration objects, and what patching a stored configuration does to
    the effective one. */
module Merge {
  import opened Wrappers

  /** A JSON value: an object, or anything else, which merging takes as a whole. */
  datatype Json = Leaf(text: string) | Obj(members: map<string, Json>)

  type Object = j: Json | j.Obj? witness Obj(map[])

  const EMPTY: Object := Obj(map[])

  function MergedAt(base: Object, over: Object, k: string): Json
    requires k in base.members || k in over.members
    decreases over, 0
  {
    if k !in over.members then base.members[k]
    else if k in base.members && base.members[k].Obj? && over.members[k].Obj?
      then Merged(base.members[k], over.members[k])
    else over.members[k]
  }

  function Merged(base: Object, over: Object): (r: Object)
    ensures r.members.Keys == base.members.Keys + over.members.Keys
    decreases over, 1
  {
    Obj(map k | k in base.members.Keys + over.members.Keys :: MergedAt(base, over, k))
  }

  /** deep_merge: a copy of the base into which the override is written, item by item. */
  method DeepMerge(base: Object, over: Object) returns (result: Object)
    ensures result == Merged(base, over)
    decreases over
  {
    var members := base.members;
    var todo := over.members.Keys;
    while todo != {}
      invariant todo <= over.members.Keys
      invariant members.Keys == base.members.Keys + (over.members.Keys - todo)
      invariant forall k :: k in members ==>
        members[k] == if k in over.members && k !in todo then MergedAt(base, over, k) else base.members[k]
    {
      var key :| key in todo;
      var value := over.members[key];
      if key in members && members[key].Obj? && value.Obj? {
        var merged := DeepMerge(members[key], value);
        members := members[key := merged];
      } else {
        members := members[key := value];
      }
      todo := todo - {key};
    }
    result := Obj(members);
  }

  lemma SameMembers(a: Object, b: Object)
    requires a.members.Keys == b.members.Keys && forall k :: k in a.members ==> a.members[k] == b.members[k]
    ensures a == b
  {
    assert a.members == b.members;
  }

  /** Merging the same override again changes nothing. */
  lemma {:induction false} MergeIdempotent(base: Object, over: Object)
    ensures Merged(Merged(base, over), over) == Merged(base, over)
    decreases over
  {
    var once := Merged(base, over);
    forall k | k in once.members ensures Merged(once, over).members[k] == once.members[k] {
      assert once.members[k] == MergedAt(base, over, k) && Merged(once, over).members[k] == MergedAt(once, over, k);
      if k in over.members && over.members[k].Obj? {
        if k in base.members && base.members[k].Obj? {
          MergeIdempotent(base.members[k], over.members[k]);
        } else {
          MergeSelf(over.members[k]);
        }
      }
    }
    SameMembers(Merged(once, over), once);
  }

  lemma {:induction false} MergeSelf(o: Object)
    ensures Merged(o, o) == o
    decreases o
  {
    forall k | k in o.members ensures Merged(o, o).members[k] == o.members[k] {
      if o.members[k].Obj? { MergeSelf(o.members[k]); }
    }
    SameMembers(Merged(o, o), o);
  }

  lemma MergeEmpty(o: Object)
    ensures Merged(o, EMPTY) == o
  {
    assert EMPTY.members.Keys == {} && o.members.Keys + {} == o.members.Keys;
    SameMembers(Merged(o, EMPTY), o);
  }

  // ---- when nothing of the base shows through ----

  /** The override names every key of the base, at every level where both have objects. */
  predicate Covers(over: Object, base: Object)
    decreases base
  {
    forall k :: k in base.members ==>
      k in over.members
      && (base.members[k].Obj? && over.members[k].Obj? ==> Covers(over.members[k], base.members[k]))
  }

  /** The merged object is the override itself exactly when the override covers the base. */
  lemma {:induction false} MergeIsOverride(base: Object, over: Object)
    ensures Merged(base, over) == over <==> Covers(over, base)
    decreases base
  {
    forall k | k in base.members && k in over.members && base.members[k].Obj? && over.members[k].Obj?
      ensures Merged(base.members[k], over.members[k]) == over.members[k] <==> Covers(over.members[k], base.members[k])
    {
      MergeIsOverride(base.members[k], over.members[k]);
    }
    var r := Merged(base, over);
    forall k | k in r.members ensures r.members[k] == MergedAt(base, over, k) {}
    if Covers(over, base) {
      assert base.members.Keys <= over.members.Keys;
      forall k | k in r.members ensures r.members[k] == over.members[k] {
        if k in base.members && base.members[k].Obj? && over.members[k].Obj? {
          assert Covers(over.members[k], base.members[k]);
        }
      }
      SameMembers(r, over);
    }
    if r == over {
      forall k | k in base.members
        ensures k in over.members && (base.members[k].Obj? && over.members[k].Obj? ==>
                  Covers(over.members[k], base.members[k]))
      {
        assert k in r.members;
      }
    }
  }

  // ---- associativity ----

  /** At every key, where a default, a stored value and a patch meet: if the stored value is no
      object while the other two are, the patch covers the default. */
  predicate Associates(a: Object, b: Object, c: Object)
    decreases c, 1
  {
    forall k :: k in c.members ==> AssociatesAt(a, b, c, k)
  }

  predicate AssociatesAt(a: Object, b: Object, c: Object, k: string)
    requires k in c.members
    decreases c, 0
  {
    k in a.members && k in b.members && a.members[k].Obj? && c.members[k].Obj? ==>
      if b.members[k].Obj? then Associates(a.members[k], b.members[k], c.members[k])
      else Covers(c.members[k], a.members[k])
  }

  /** Merging associates exactly when no default is hidden by a stored non-object and uncovered by
      an object patch. */
  lemma {:induction false} MergeAssociates(a: Object, b: Object, c: Object)
    ensures Merged(Merged(a, b), c) == Merged(a, Merged(b, c)) <==> Associates(a, b, c)
    decreases c, 1
  {
    var l, r := Merged(Merged(a, b), c), Merged(a, Merged(b, c));
    assert l.members.Keys == r.members.Keys;
    forall k | k in l.members
      ensures l.members[k] == r.members[k] <==> (k in c.members ==> AssociatesAt(a, b, c, k))
    {
      AgreesAt(a, b, c, k);
      if k in a.members && k in b.members && k in c.members && a.members[k].Obj? && c.members[k].Obj? {
        if b.members[k].Obj? {
          MergeAssociates(a.members[k], b.members[k], c.members[k]);
        } else {
          MergeIsOverride(a.members[k], c.members[k]);
        }
      }
    }
    if Associates(a, b, c) { SameMembers(l, r); }
  }

  /** The two sides at one key. */
  lemma AgreesAt(a: Object, b: Object, c: Object, k: string)
    requires k in a.members || k in b.members || k in c.members
    ensures var l, r := Merged(Merged(a, b), c), Merged(a, Merged(b, c));
            if k in a.members && k in b.members && k in c.members && a.members[k].Obj? && c.members[k].Obj? then
              if b.members[k].Obj? then
                && l.members[k] == Merged(Merged(a.members[k], b.members[k]), c.members[k])
                && r.members[k] == Merged(a.members[k], Merged(b.members[k], c.members[k]))
              else l.members[k] == c.members[k] && r.members[k] == Merged(a.members[k], c.members[k])
            else l.members[k] == r.members[k]
  {
    var l, r := Merged(Merged(a, b), c), Merged(a, Merged(b, c));
    assert l.members[k] == MergedAt(Merged(a, b), c, k) && r.members[k] == MergedAt(a, Merged(b, c), k);
    assert k in Merged(a, b).members ==> Merged(a, b).members[k] == MergedAt(a, b, k);
    assert k in Merged(b, c).members ==> Merged(b, c).members[k] == MergedAt(b, c, k);
  }

  // ---- stored and effective configurations ----

  function Member(o: Object, k: string): Option<Json> { if k in o.members then Some(o.members[k]) else None }

  function With(o: Object, k: string, v: Json): (r: Object) { Obj(o.members[k := v]) }

  function Without(o: Object, k: string): (r: Object) { Obj(o.members - {k}) }

  /** resolve, up to the validation of the record: the YAML default, then what is stored. */
  function Resolved(yaml: Object, raw: Object, pid: string): Object { With(Merged(yaml, raw), "id", Leaf(pid)) }

  /** What apply_patch stores. */
  function Patched(raw: Object, patch: Object, pid: string): Object {
    With(Merged(raw, Without(patch, "id")), "id", Leaf(pid))
  }

  lemma WithSame(a: Object, b: Object, k: string, v: Json)
    requires forall x :: x != k ==> Member(a, x) == Member(b, x)
    ensures With(a, k, v) == With(b, k, v)
  {
    forall x ensures x in With(a, k, v).members <==> x in With(b, k, v).members {
      if x != k { assert Member(a, x) == Member(b, x); }
    }
    forall x | x in With(a, k, v).members ensures With(a, k, v).members[x] == With(b, k, v).members[x] {
      if x != k { assert Member(a, x) == Member(b, x); }
    }
    SameMembers(With(a, k, v), With(b, k, v));
  }

  lemma MemberMerged(a: Object, b: Object, k: string)
    ensures Member(Merged(a, b), k) == if k in a.members || k in b.members then Some(MergedAt(a, b, k)) else None
  {
  }

  /** Setting a key that the override does not have, before the merge or after it. */
  lemma WithThenMerge(a: Object, c: Object, k: string, v: Json)
    requires k !in c.members
    ensures Merged(With(a, k, v), c) == With(Merged(a, c), k, v)
  {
    var l, r := Merged(With(a, k, v), c), With(Merged(a, c), k, v);
    forall x ensures x in l.members <==> x in r.members {}
    forall x | x in l.members ensures l.members[x] == r.members[x] {
      assert l.members[x] == MergedAt(With(a, k, v), c, x);
      if x != k { assert Merged(a, c).members[x] == MergedAt(a, c, x); }
    }
    SameMembers(l, r);
  }

  /** Patching the stored configuration and resolving it over the YAML default gives the same as
      resolving first and patching the result, exactly when the patch associates: it does except
      where a stored non-object lies between an object default and an object patch that does not
      cover that default. */
  lemma PatchThenResolve(yaml: Object, raw: Object, patch: Object, pid: string)
    ensures var c := Without(patch, "id");
            Resolved(yaml, Patched(raw, patch, pid), pid) == Patched(Resolved(yaml, raw, pid), patch, pid)
            <==> Associates(yaml, raw, c)
  {
    var c, id := Without(patch, "id"), Leaf(pid);
    var l, r := Merged(yaml, Merged(raw, c)), Merged(Merged(yaml, raw), c);
    ResolvePatched(yaml, Merged(raw, c), id);
    WithThenMerge(Merged(yaml, raw), c, "id", id);
    WithTwice(r, "id", id);
    assert Resolved(yaml, Patched(raw, patch, pid), pid) == With(l, "id", id);
    assert Patched(Resolved(yaml, raw, pid), patch, pid) == With(r, "id", id);
    AgreesAtId(yaml, raw, c);
    WithEqual(l, r, "id", id);
    MergeAssociates(yaml, raw, c);
  }

  /** A stored text lies between an object default and an empty object patch: resolving first leaves
      an empty object, patching first brings the contents of the default back. */
  lemma PatchOrderMatters(key: string, inner: string, text: string, shown: string, pid: string)
    requires key != "id"
    ensures var yaml, raw: Object := Obj(map[key := Obj(map[inner := Leaf(shown)])]), Obj(map[key := Leaf(text)]);
            var patch: Object := Obj(map[key := Obj(map[])]);
            Resolved(yaml, Patched(raw, patch, pid), pid) != Patched(Resolved(yaml, raw, pid), patch, pid)
  {
    var yaml, raw: Object := Obj(map[key := Obj(map[inner := Leaf(shown)])]), Obj(map[key := Leaf(text)]);
    var patch: Object := Obj(map[key := Obj(map[])]);
    var c := Without(patch, "id");
    assert !Covers(c.members[key], yaml.members[key]) by { assert inner in yaml.members[key].members; }
    assert !AssociatesAt(yaml, raw, c, key);
    PatchThenResolve(yaml, raw, patch, pid);
  }

  lemma ResolvePatched(yaml: Object, b: Object, id: Json)
    ensures With(Merged(yaml, With(b, "id", id)), "id", id) == With(Merged(yaml, b), "id", id)
  {
    forall x | x != "id" ensures Member(Merged(yaml, With(b, "id", id)), x) == Member(Merged(yaml, b), x) {
      MemberMerged(yaml, With(b, "id", id), x);
      MemberMerged(yaml, b, x);
    }
    WithSame(Merged(yaml, With(b, "id", id)), Merged(yaml, b), "id", id);
  }

  lemma WithTwice(o: Object, k: string, v: Json)
    ensures With(With(o, k, v), k, v) == With(o, k, v)
  {
    assert o.members[k := v][k := v] == o.members[k := v];
  }

  /** The patch has no id, so the two sides agree there. */
  lemma AgreesAtId(a: Object, b: Object, c: Object)
    requires "id" !in c.members
    ensures Member(Merged(a, Merged(b, c)), "id") == Member(Merged(Merged(a, b), c), "id")
  {
    MemberMerged(b, c, "id");
    MemberMerged(a, b, "id");
    MemberMerged(a, Merged(b, c), "id");
    MemberMerged(Merged(a, b), c, "id");
  }

  lemma WithEqual(l: Object, r: Object, k: string, v: Json)
    requires Member(l, k) == Member(r, k)
    ensures With(l, k, v) == With(r, k, v) <==> l == r
  {
    if With(l, k, v) == With(r, k, v) {
      forall x ensures Member(l, x) == Member(r, x) {
        assert x != k ==> Member(With(l, k, v), x) == Member(l, x) && Member(With(r, k, v), x) == Member(r, x);
      }
      forall x ensures x in l.members <==> x in r.members { assert Member(l, x) == Member(r, x); }
      forall x | x in l.members ensures l.members[x] == r.members[x] { assert Member(l, x) == Member(r, x); }
      SameMembers(l, r);
    }
  }

  // ---- replacing the MCP servers ----

  function Block(o: Object, k: string): Object {
    if k in o.members && o.members[k].Obj? then o.members[k] else EMPTY
  }

  /** What patch_mcp stores. */
  function McpPatched(raw: Object, servers: Object, pid: string): Object {
    var merged := Merged(raw, EMPTY);
    var block := With(Block(merged, "mcp"), "servers", servers);
    With(With(merged, "mcp", block), "id", Leaf(pid))
  }

  function Servers(config: Object): Object { Block(Block(config, "mcp"), "servers") }

  /** The stored servers are exactly the given ones and no other key is changed; the effective ones
      are those merged over the YAML servers, so replacing the servers takes effect exactly when the
      given ones cover the YAML ones: a YAML server that is left out comes back. */
  lemma McpReplacement(yaml: Object, raw: Object, servers: Object, pid: string)
    requires "mcp" in yaml.members && yaml.members["mcp"].Obj?
    requires "servers" in yaml.members["mcp"].members && yaml.members["mcp"].members["servers"].Obj?
    ensures var stored := McpPatched(raw, servers, pid);
            && Servers(stored) == servers
            && (forall k :: k != "mcp" && k != "id" ==> Member(stored, k) == Member(raw, k))
            && Servers(Resolved(yaml, stored, pid)) == Merged(Servers(yaml), servers)
            && (Servers(Resolved(yaml, stored, pid)) == servers <==> Covers(servers, Servers(yaml)))
  {
    var stored := McpPatched(raw, servers, pid);
    MergeEmpty(raw);
    assert stored.members["mcp"].Obj? && stored.members["mcp"].members["servers"] == servers;
    MemberMerged(yaml, stored, "mcp");
    MemberMerged(yaml.members["mcp"], stored.members["mcp"], "servers");
    MergeIsOverride(Servers(yaml), servers);
  }

  // ---- the store ----

  const DEFAULT_PROJECT := "default"

  class ProjectConfigStore {
    const yaml: string -> Object             // the fallback record of a project
    var configs: map<string, Object>
    var index: set<string>                   // the registered project ids

    constructor (yaml: string -> Object)
      ensures this.yaml == yaml && configs == map[] && index == {}
    {
      this.yaml, configs, index := yaml, map[], {};
    }

    function Raw(pid: string): Object
      reads this
    {
      if pid in configs then configs[pid] else EMPTY
    }

    /** get: None for a project that is neither stored nor the default one. */
    function Effective(pid: string): Option<Object>
      reads this
    {
      if pid in configs then Some(Resolved(yaml(pid), configs[pid], pid))
      else if pid == DEFAULT_PROJECT then Some(yaml(pid))
      else None
    }

    method StoreConfig(pid: string, config: Object)
      modifies this
      ensures configs == old(configs)[pid := config] && index == old(index) + {pid}
    {
      configs := configs[pid := config];
      if pid !in index { index := index + {pid}; }
    }

    /** apply_patch: what is stored, what is returned, and that no other project is touched. */
    method ApplyPatch(pid: string, patch: Object) returns (resolved: Object)
      modifies this
      ensures configs == old(configs)[pid := Patched(old(Raw(pid)), patch, pid)] && index == old(index) + {pid}
      ensures Effective(pid) == Some(resolved)
      ensures Associates(yaml(pid), old(Raw(pid)), Without(patch, "id")) ==>
                resolved == Patched(Resolved(yaml(pid), old(Raw(pid)), pid), patch, pid)
      ensures forall p :: p != pid ==> Effective(p) == old(Effective(p))
    {
      PatchThenResolve(yaml(pid), Raw(pid), patch, pid);
      var cleanPatch := Without(patch, "id");
      var mergedRaw := DeepMerge(Raw(pid), cleanPatch);
      mergedRaw := With(mergedRaw, "id", Leaf(pid));
      StoreConfig(pid, mergedRaw);
      resolved := DeepMerge(yaml(pid), mergedRaw);
      resolved := With(resolved, "id", Leaf(pid));
    }

    /** patch_mcp */
    method PatchMcp(pid: string, servers: Object) returns (resolved: Object)
      modifies this
      ensures configs == old(configs)[pid := McpPatched(old(Raw(pid)), servers, pid)] && index == old(index) + {pid}
      ensures Effective(pid) == Some(resolved)
      ensures forall p :: p != pid ==> Effective(p) == old(Effective(p))
    {
      var merged := DeepMerge(Raw(pid), EMPTY);
      var block := Block(merged, "mcp");
      block := With(block, "servers", servers);
      merged := With(With(merged, "mcp", block), "id", Leaf(pid));
      StoreConfig(pid, merged);
      resolved := DeepMerge(yaml(pid), merged);
      resolved := With(resolved, "id", Leaf(pid));
    }

    /** delete: the default project and one that is not stored cannot be deleted. */
    method Delete(pid: string) returns (ok: bool)
      modifies this
      ensures ok <==> pid != DEFAULT_PROJECT && pid in old(configs)
      ensures ok ==> configs == old(configs) - {pid} && index == old(index) - {pid} && Effective(pid) == None
      ensures !ok ==> configs == old(configs) && index == old(index)
      ensures forall p :: p != pid ==> Effective(p) == old(Effective(p))
    {
      if pid == DEFAULT_PROJECT || pid !in configs { return false; }
      configs := configs - {pid};
      index := index - {pid};
      return true;
    }
  }
}
