/** Who may use which project, kept in two indexes: the members of a project and the projects of a
    user. */
module Permissions {
  import opened Text
  import opened Names

  datatype Member = Member(uid: string, username: string)

  datatype Access = Access(members: map<string, seq<Member>>, projects: map<string, seq<string>>)

  function MembersAt(a: Access, pid: string): seq<Member> { if pid in a.members then a.members[pid] else [] }
  function ProjectsAt(a: Access, uid: string): seq<string> { if uid in a.projects then a.projects[uid] else [] }

  predicate Listable(m: Member) { Strip(m.uid) != "" && Strip(m.username) != "" }

  /** The members that list_members shows: those with an id and a name, trimmed. */
  function Shown(ms: seq<Member>): seq<Member> {
    if ms == [] then []
    else
      var m := ms[|ms| - 1];
      Shown(ms[..|ms| - 1]) + (if Listable(m) then [Member(Strip(m.uid), Strip(m.username))] else [])
  }

  function Uids(ms: seq<Member>): set<string> { set m | m in ms :: m.uid }

  /** The users that are members of the project. */
  function MemberUids(a: Access, pid: string): set<string> { Uids(Shown(MembersAt(a, pid))) }

  /** list_project_ids_for_user, as a set: blank ids are not shown. */
  predicate HasAccess(a: Access, uid: string, pid: string) { pid in ProjectsAt(a, uid) && Strip(pid) != "" }

  /** The two indexes agree: a user is a member exactly of the projects in the user's list. */
  ghost predicate AgreeAt(a: Access, uid: string, pid: string) { uid in MemberUids(a, pid) <==> HasAccess(a, uid, pid) }

  ghost predicate Consistent(a: Access) { forall uid, pid {:trigger AgreeAt(a, uid, pid)} :: AgreeAt(a, uid, pid) }

  /** What set_members leaves: the list of members, and in the other index the project granted to
      the new members and taken from the former ones. */
  ghost predicate MembersSet(a: Access, a': Access, pid: string, ms: seq<Member>) {
    && a'.members == a.members[pid := ms]
    && (forall u, p :: p in ProjectsAt(a', u) <==>
          if p != pid then p in ProjectsAt(a, u)
          else u in Uids(ms) || (pid in ProjectsAt(a, u) && u !in MemberUids(a, pid)))
  }

  /** From indexes that agree, set_members leaves indexes that agree exactly when the ids it was
      given are the ids that will be listed: every member trimmed and with a name, the project not
      blank.  A member without a name is granted access that nothing ever takes back. */
  lemma SetMembersExact(a: Access, a': Access, pid: string, ms: seq<Member>)
    requires Consistent(a) && MembersSet(a, a', pid, ms)
    requires Strip(pid) != ""
    ensures Consistent(a') <==> Uids(ms) == Uids(Shown(ms))
  {
    forall u ensures AgreeAt(a', u, pid) <==> (u in Uids(ms) <==> u in Uids(Shown(ms))) {
      assert AgreeAt(a, u, pid);
      assert pid in ProjectsAt(a', u) <==> u in Uids(ms);
    }
    forall u, p | p != pid ensures AgreeAt(a', u, p) {
      assert AgreeAt(a, u, p);
      assert p in ProjectsAt(a', u) <==> p in ProjectsAt(a, u);
    }
    if Uids(ms) == Uids(Shown(ms)) {
      forall u, p ensures AgreeAt(a', u, p) { if p == pid { assert u in Uids(ms) <==> u in Uids(Shown(ms)); } }
    }
    if Consistent(a') {
      forall u ensures u in Uids(ms) <==> u in Uids(Shown(ms)) { assert AgreeAt(a', u, pid); }
    }
  }

  predicate Clean(ms: seq<Member>) { forall m :: m in ms ==> m.uid != "" && Trimmed(m.uid) && Strip(m.username) != "" }

  lemma {:induction false} CleanShown(ms: seq<Member>)
    requires Clean(ms)
    ensures Uids(ms) == Uids(Shown(ms))
  {
    if ms != [] {
      var rest, m := ms[..|ms| - 1], ms[|ms| - 1];
      assert ms == rest + [m] && m in ms;
      forall x | x in rest ensures x in ms {}
      CleanShown(rest);
      TrimmedIsStripped(m.uid);
      var shown := [Member(m.uid, Strip(m.username))];
      assert Shown(ms) == Shown(rest) + shown;
      UidsAppend(rest, [m]);
      UidsAppend(Shown(rest), shown);
      assert Uids([m]) == {m.uid} && Uids(shown) == {m.uid} by { assert m in [m] && shown[0] in shown; }
    }
  }

  lemma UidsAppend(a: seq<Member>, b: seq<Member>)
    ensures Uids(a + b) == Uids(a) + Uids(b)
  {
    forall u ensures u in Uids(a + b) <==> u in Uids(a) || u in Uids(b) {
      if u in Uids(a) { var m :| m in a && m.uid == u; assert m in a + b; }
      if u in Uids(b) { var m :| m in b && m.uid == u; assert m in a + b; }
    }
  }

  lemma {:induction false} ShownClean(ms: seq<Member>)
    ensures Clean(Shown(ms))
  {
    if ms != [] {
      var rest, m := ms[..|ms| - 1], ms[|ms| - 1];
      ShownClean(rest);
      StripTrims(m.uid);
      StripTrims(m.username);
    }
  }

  const DEFAULT_PROJECT := "default"

  // ---- sequences of calls ----

  datatype Call = SetMembersCall(pid: string, members: seq<Member>) | EnsureDefaultCall(uid: string, username: string)

  predicate CleanCall(c: Call) {
    match c
    case SetMembersCall(pid, ms) => Strip(pid) != "" && Clean(ms)
    case EnsureDefaultCall(uid, username) => Clean([Member(uid, username)])
  }

  ghost predicate Granted(a: Access, a': Access, uid: string, pid: string) {
    && a'.members == a.members
    && forall u, p :: p in ProjectsAt(a', u) <==> p in ProjectsAt(a, u) || (u == uid && p == pid)
  }

  /** ensure_default_access adds a user that is not listed yet, and otherwise grants again. */
  ghost predicate Called(a: Access, a': Access, c: Call) {
    match c
    case SetMembersCall(pid, ms) => MembersSet(a, a', pid, ms)
    case EnsureDefaultCall(uid, username) =>
      if uid in MemberUids(a, DEFAULT_PROJECT) then Granted(a, a', uid, DEFAULT_PROJECT)
      else MembersSet(a, a', DEFAULT_PROJECT, Shown(MembersAt(a, DEFAULT_PROJECT)) + [Member(uid, username)])
  }

  lemma DefaultNotBlank()
    ensures Strip(DEFAULT_PROJECT) != ""
  {
    TrimmedIsStripped(DEFAULT_PROJECT);
  }

  lemma CallKeeps(a: Access, a': Access, c: Call)
    requires Consistent(a) && CleanCall(c) && Called(a, a', c)
    ensures Consistent(a')
  {
    match c {
      case SetMembersCall(pid, ms) =>
        CleanShown(ms);
        SetMembersExact(a, a', pid, ms);
      case EnsureDefaultCall(uid, username) =>
        DefaultNotBlank();
        if uid in MemberUids(a, DEFAULT_PROJECT) {
          GrantedAgain(a, a', uid, DEFAULT_PROJECT);
        } else {
          var ms := Shown(MembersAt(a, DEFAULT_PROJECT)) + [Member(uid, username)];
          ShownClean(MembersAt(a, DEFAULT_PROJECT));
          assert Member(uid, username) in [Member(uid, username)];
          assert Clean(ms);
          CleanShown(ms);
          SetMembersExact(a, a', DEFAULT_PROJECT, ms);
        }
    }
  }

  lemma GrantedAgain(a: Access, a': Access, uid: string, pid: string)
    requires Consistent(a) && Granted(a, a', uid, pid) && uid in MemberUids(a, pid)
    ensures Consistent(a')
  {
    assert AgreeAt(a, uid, pid);
    forall u, p ensures AgreeAt(a', u, p) {
      assert AgreeAt(a, u, p);
      assert p in ProjectsAt(a', u) <==> p in ProjectsAt(a, u);
    }
  }

  /** After every sequence of calls with trimmed, non-blank ids, a user is listed as member of a
      project exactly when that project is in the user's list. */
  lemma {:induction false} AlwaysConsistent(states: seq<Access>, calls: seq<Call>)
    requires |states| == |calls| + 1 && states[0] == Access(map[], map[])
    requires forall i :: 0 <= i < |calls| ==> CleanCall(calls[i]) && Called(states[i], states[i + 1], calls[i])
    ensures Consistent(states[|calls|])
  {
    if calls != [] {
      var n := |calls| - 1;
      AlwaysConsistent(states[..n + 1], calls[..n]);
      CallKeeps(states[n], states[n + 1], calls[n]);
    }
  }

  /** A member without a name: granted, never listed, and not revoked when the list is emptied. */
  lemma NamelessMemberStays(a: Access, a1: Access, a2: Access, uid: string, pid: string)
    requires Consistent(a) && Strip(pid) != "" && uid !in MemberUids(a, pid)
    requires MembersSet(a, a1, pid, [Member(uid, " ")]) && MembersSet(a1, a2, pid, [])
    ensures HasAccess(a2, uid, pid) && uid !in MemberUids(a2, pid)
  {
    var ms := [Member(uid, " ")];
    assert ms[0] in ms;
    assert Strip(" ") == "" by { StripTrims(" "); }
    assert Shown(ms) == [];
    assert pid in ProjectsAt(a1, uid);
  }

  class ProjectPermissionStore {
    var members: map<string, seq<Member>>
    var userProjects: map<string, seq<string>>

    constructor ()
      ensures Consistent(View())
    {
      members, userProjects := map[], map[];
    }

    function View(): Access
      reads this
    {
      Access(members, userProjects)
    }

    method ListMembers(pid: string) returns (result: seq<Member>)
      ensures result == Shown(MembersAt(View(), pid))
    {
      var stored := if pid in members then members[pid] else [];
      result := [];
      for i := 0 to |stored|
        invariant result == Shown(stored[..i])
      {
        assert stored[..i + 1][..i] == stored[..i];
        var uid, username := Strip(stored[i].uid), Strip(stored[i].username);
        if uid != "" && username != "" { result := result + [Member(uid, username)]; }
      }
      assert stored[..|stored|] == stored;
    }

    method Grant(uid: string, pid: string)
      modifies this`userProjects
      ensures forall u, p :: p in ProjectsAt(View(), u) <==> p in old(ProjectsAt(View(), u)) || (u == uid && p == pid)
    {
      var ids := if uid in userProjects then userProjects[uid] else [];
      if pid !in ids { userProjects := userProjects[uid := SortNames(ids + [pid])]; }
    }

    method Revoke(uid: string, pid: string)
      modifies this`userProjects
      ensures forall u, p :: p in ProjectsAt(View(), u) <==> p in old(ProjectsAt(View(), u)) && !(u == uid && p == pid)
    {
      var ids := if uid in userProjects then userProjects[uid] else [];
      userProjects := userProjects[uid := SortNames(Others(ids, pid))];
    }

    static function Others(ids: seq<string>, pid: string): (r: seq<string>)
      ensures forall x :: x in r <==> x in ids && x != pid
    {
      if ids == [] then []
      else
        assert forall x :: x in ids <==> x == ids[0] || x in ids[1..];
        (if ids[0] != pid then [ids[0]] else []) + Others(ids[1..], pid)
    }

    /** set_members: with trimmed members that have names, the two indexes stay in agreement. */
    method SetMembers(pid: string, ms: seq<Member>)
      modifies this
      ensures MembersSet(old(View()), View(), pid, ms)
      ensures old(Consistent(View())) && Clean(ms) && Strip(pid) != "" ==> Consistent(View())
    {
      ghost var a := View();
      var listed := ListMembers(pid);
      var previous := Uids(listed);
      members := members[pid := ms];
      for i := 0 to |ms|
        invariant members == a.members[pid := ms]
        invariant forall u, p :: p in ProjectsAt(View(), u)
                    <==> p in ProjectsAt(a, u) || (p == pid && u in Uids(ms[..i]))
      {
        Grant(ms[i].uid, pid);
        assert ms[..i + 1] == ms[..i] + [ms[i]];
        UidsAppend(ms[..i], [ms[i]]);
        assert Uids([ms[i]]) == {ms[i].uid} by { assert [ms[i]][0] in [ms[i]]; }
      }
      assert ms[..|ms|] == ms;
      var gone := previous - Uids(ms);
      var todo := gone;
      while todo != {}
        invariant todo <= gone && members == a.members[pid := ms]
        invariant forall u, p :: p in ProjectsAt(View(), u) <==>
          (p in ProjectsAt(a, u) || (p == pid && u in Uids(ms))) && !(p == pid && u in gone && u !in todo)
      {
        var uid :| uid in todo;
        Revoke(uid, pid);
        todo := todo - {uid};
      }
      if Consistent(a) && Clean(ms) && Strip(pid) != "" {
        CleanShown(ms);
        SetMembersExact(a, View(), pid, ms);
      }
    }

    /** ensure_default_access */
    method EnsureDefaultAccess(uid: string, username: string)
      modifies this
      ensures Called(old(View()), View(), EnsureDefaultCall(uid, username))
      ensures old(Consistent(View())) && Clean([Member(uid, username)]) ==> Consistent(View())
    {
      ghost var a := View();
      var listed := ListMembers(DEFAULT_PROJECT);
      if uid !in Uids(listed) {
        SetMembers(DEFAULT_PROJECT, listed + [Member(uid, username)]);
      } else {
        Grant(uid, DEFAULT_PROJECT);
      }
      if Consistent(a) && Clean([Member(uid, username)]) { CallKeeps(a, View(), EnsureDefaultCall(uid, username)); }
    }

    /** list_project_ids_for_user: sorted, without blank ids. */
    method ListProjectIds(uid: string) returns (ids: seq<string>)
      ensures SortedNames(ids) && forall p :: p in ids <==> HasAccess(View(), uid, p)
    {
      var stored := if uid in userProjects then userProjects[uid] else [];
      var seen := set p | p in stored && Strip(p) != "";
      var todo := seen;
      ids := [];
      while todo != {}
        invariant todo <= seen && forall p :: p in ids <==> p in seen && p !in todo
      {
        var p :| p in todo;
        ids := ids + [p];
        todo := todo - {p};
      }
      SortSorts(ids);
      ids := SortNames(ids);
    }
  }
}
