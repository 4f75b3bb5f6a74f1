/** Sorted sets as the storage layer keeps them: a map from member to score, listed in the
    order of (score, member).  Scores are only ever compared, so integers stand for them. */
module ZSets {
  import opened Wrappers

  type ZSet = map<string, int>

  /** Python's order on strings: by code point, a proper prefix first. */
  predicate StrLess(a: string, b: string) {
    b != [] && (a == [] || a[0] < b[0] || (a[0] == b[0] && StrLess(a[1..], b[1..])))
  }

  lemma {:induction false} StrLessIrreflexive(a: string)
    ensures !StrLess(a, a)
  {
    if a != [] { StrLessIrreflexive(a[1..]); }
  }

  lemma {:induction false} StrLessTransitive(a: string, b: string, c: string)
    requires StrLess(a, b) && StrLess(b, c)
    ensures StrLess(a, c)
  {
    if a != [] && a[0] == b[0] && b[0] == c[0] {
      StrLessTransitive(a[1..], b[1..], c[1..]);
    }
  }

  lemma {:induction false} StrLessConnected(a: string, b: string)
    requires a != b
    ensures StrLess(a, b) || StrLess(b, a)
  {
    if a != [] && b != [] && a[0] == b[0] {
      assert a == [a[0]] + a[1..] && b == [b[0]] + b[1..];
      StrLessConnected(a[1..], b[1..]);
    }
  }

  /** The sort key (item[1], item[0]) of the listing. */
  predicate Before(m: ZSet, x: string, y: string)
    requires x in m && y in m
  {
    m[x] < m[y] || (m[x] == m[y] && StrLess(x, y))
  }

  lemma BeforeTransitive(m: ZSet, x: string, y: string, z: string)
    requires x in m && y in m && z in m && Before(m, x, y) && Before(m, y, z)
    ensures Before(m, x, z)
  {
    if m[x] == m[y] == m[z] { StrLessTransitive(x, y, z); }
  }

  lemma BeforeTotal(m: ZSet, x: string, y: string)
    requires x in m && y in m
    ensures x == y ==> !Before(m, x, y)
    ensures x != y ==> Before(m, x, y) != Before(m, y, x)
  {
    StrLessIrreflexive(x);
    if x != y {
      StrLessConnected(x, y);
      if StrLess(x, y) && StrLess(y, x) { StrLessTransitive(x, y, x); }
    }
  }

  ghost predicate Ascending(m: ZSet, s: seq<string>) {
    && (forall i :: 0 <= i < |s| ==> s[i] in m)
    && (forall i, j :: 0 <= i < j < |s| ==> Before(m, s[i], s[j]))
  }

  /** `s` lists exactly the members of `m`, each before the next. */
  ghost predicate IsOrdering(m: ZSet, s: seq<string>) {
    && (forall x :: x in m <==> x in s)
    && Ascending(m, s)
  }

  /** `s` with `x` put at its place. */
  function Inserted(m: ZSet, s: seq<string>, x: string): (r: seq<string>)
    requires x in m && forall y :: y in s ==> y in m
    ensures forall y :: y in r <==> y == x || y in s
  {
    if s == [] then [x]
    else if Before(m, x, s[0]) then [x] + s
    else [s[0]] + Inserted(m, s[1..], x)
  }

  lemma AscendingCons(m: ZSet, x: string, t: seq<string>)
    requires x in m && Ascending(m, t)
    requires forall y :: y in t ==> y in m && Before(m, x, y)
    ensures Ascending(m, [x] + t)
  {
    var r := [x] + t;
    forall i, j | 0 <= i < j < |r| ensures Before(m, r[i], r[j]) {
      assert r[j] == t[j - 1] && t[j - 1] in t;
    }
  }

  lemma {:induction false} InsertedKeepsOrder(m: ZSet, s: seq<string>, x: string)
    requires x in m && x !in s && Ascending(m, s)
    ensures Ascending(m, Inserted(m, s, x))
  {
    if s == [] {
    } else if Before(m, x, s[0]) {
      forall y | y in s ensures Before(m, x, y) {
        if y != s[0] {
          var j :| 0 <= j < |s| && s[j] == y;
          BeforeTransitive(m, x, s[0], s[j]);
        }
      }
      AscendingCons(m, x, s);
    } else {
      InsertedKeepsOrder(m, s[1..], x);
      BeforeTotal(m, x, s[0]);
      forall y | y in Inserted(m, s[1..], x) ensures y in m && Before(m, s[0], y) {
        if y != x {
          var k :| 0 <= k < |s[1..]| && s[1..][k] == y;
          assert s[k + 1] == y;
        }
      }
      AscendingCons(m, s[0], Inserted(m, s[1..], x));
    }
  }

  lemma AscendingGrows(m: ZSet, m': ZSet, s: seq<string>)
    requires Ascending(m, s) && forall y :: y in s ==> y in m' && y in m && m'[y] == m[y]
    ensures Ascending(m', s)
  {
    forall i, j | 0 <= i < j < |s| ensures Before(m', s[i], s[j]) {
      assert Before(m, s[i], s[j]) && s[i] in s && s[j] in s;
    }
  }

  lemma {:induction false} OrderingExists(m: ZSet) returns (s: seq<string>)
    ensures IsOrdering(m, s)
    decreases |m|
  {
    if m == map[] {
      s := [];
    } else {
      var x :| x in m;
      var rest := m - {x};
      assert |rest.Keys| < |m.Keys| by { assert rest.Keys == m.Keys - {x}; }
      var t := OrderingExists(rest);
      assert forall y :: y in t ==> y in rest;
      AscendingGrows(rest, m, t);
      InsertedKeepsOrder(m, t, x);
      s := Inserted(m, t, x);
      forall y ensures y in m <==> y in s { assert y in m && y != x <==> y in rest; }
    }
  }

  /** Two listings start with the same member. */
  lemma SameHead(m: ZSet, s: seq<string>, t: seq<string>)
    requires IsOrdering(m, s) && IsOrdering(m, t) && s != []
    ensures t != [] && s[0] == t[0]
  {
    assert s[0] in s && s[0] in m && s[0] in t;
    var k :| 0 <= k < |t| && t[k] == s[0];
    assert t[0] in t && t[0] in m && t[0] in s;
    var j :| 0 <= j < |s| && s[j] == t[0];
    BeforeTotal(m, s[0], t[0]);
  }

  lemma {:induction false} OrderingUnique(m: ZSet, s: seq<string>, t: seq<string>)
    requires IsOrdering(m, s) && IsOrdering(m, t)
    ensures s == t
    decreases |s|
  {
    if s == [] {
      assert forall x :: x in t ==> x in s;
    } else {
      SameHead(m, s, t);
      TailIsOrdering(m, s);
      TailIsOrdering(m, t);
      hide IsOrdering;
      OrderingUnique(m - {s[0]}, s[1..], t[1..]);
      assert s == [s[0]] + s[1..] && t == [t[0]] + t[1..];
    }
  }

  lemma TailIsOrdering(m: ZSet, s: seq<string>)
    requires IsOrdering(m, s) && s != []
    ensures s[0] in m && IsOrdering(m - {s[0]}, s[1..])
  {
    assert s[0] in s;
    var rest := m - {s[0]};
    forall x ensures x in rest <==> x in s[1..] {
      if x in s[1..] {
        var k :| 0 <= k < |s[1..]| && s[1..][k] == x;
        assert s[k + 1] == x && x in s && Before(m, s[0], s[k + 1]);
        BeforeTotal(m, s[0], x);
      }
      if x in rest {
        assert x in s;
        var k :| 0 <= k < |s| && s[k] == x;
        assert s[1..][k - 1] == x;
      }
    }
    forall i, j | 0 <= i < j < |s[1..]| ensures Before(rest, s[1..][i], s[1..][j]) {
      assert s[1..][i] == s[i + 1] && s[1..][j] == s[j + 1];
      assert s[1..][i] in s[1..] && s[1..][j] in s[1..];
    }
  }

  /** The members in ascending order of (score, member). */
  ghost function Ordered(m: ZSet): (s: seq<string>)
    ensures IsOrdering(m, s)
  {
    assert exists s :: IsOrdering(m, s) by { var s := OrderingExists(m); }
    var s :| IsOrdering(m, s);
    s
  }

  function Reversed<T>(s: seq<T>): (r: seq<T>)
    ensures |r| == |s|
    ensures forall i :: 0 <= i < |s| ==> r[i] == s[|s| - 1 - i]
  {
    if s == [] then [] else Reversed(s[1..]) + [s[0]]
  }

  /** Sorting the items, as _sorted_members does. */
  method SortedMembers(m: ZSet, reverse: bool) returns (s: seq<string>)
    ensures s == if reverse then Reversed(Ordered(m)) else Ordered(m)
  {
    var todo := m.Keys;
    s := [];
    while todo != {}
      invariant todo <= m.Keys
      invariant forall x :: x in s <==> x in m && x !in todo
      invariant Ascending(m, s)
      decreases |todo|
    {
      var x :| x in todo;
      InsertedKeepsOrder(m, s, x);
      s := Inserted(m, s, x);
      todo := todo - {x};
    }
    OrderingUnique(m, s, Ordered(m));
    if reverse { s := Reversed(s); }
  }

  // ---- how one change of the map changes the listing ----

  /** A member whose new score is greater than every other goes last. */
  lemma OrderedAddLast(m: ZSet, x: string, score: int)
    requires forall y :: y in m && y != x ==> m[y] < score
    ensures Ordered(m[x := score]) == Ordered(m - {x}) + [x]
  {
    var m' := m[x := score];
    var s := Ordered(m - {x});
    var t := s + [x];
    forall y ensures y in m' <==> y in t { assert y in m - {x} <==> y in s; }
    forall i, j | 0 <= i < j < |t| ensures Before(m', t[i], t[j]) {
      assert t[i] == s[i] && s[i] in s;
      if j < |s| { assert s[j] in s && Before(m - {x}, s[i], s[j]); }
    }
    OrderingUnique(m', Ordered(m'), t);
  }

  /** Without the range from `a` to `b` an item stands at its old or at a shifted rank. */
  lemma SplicedAt<T>(s: seq<T>, a: nat, b: nat, i: nat)
    requires a <= b <= |s| && i < |s| - (b - a)
    ensures (s[..a] + s[b..])[i] == s[if i < a then i else i + (b - a)]
  {
  }

  /** Of distinct items no two parts of the list share one. */
  lemma PartsApart<T>(s: seq<T>, a: nat, b: nat, c: nat, d: nat, x: T)
    requires Distinct(s) && a <= b <= c <= d <= |s| && x in s[a..b]
    ensures x !in s[c..d]
  {
    var i :| 0 <= i < |s[a..b]| && s[a..b][i] == x;
    forall j | 0 <= j < |s[c..d]| ensures s[c..d][j] != x { assert s[a + i] != s[c + j]; }
  }

  /** An item is among the others exactly when it is not in the range. */
  lemma SplicedMember<T>(s: seq<T>, a: nat, b: nat, x: T)
    requires Distinct(s) && a <= b <= |s|
    ensures x in s[..a] + s[b..] <==> x in s && x !in s[a..b]
  {
    assert s == s[0..a] + s[a..b] + s[b..|s|] && s[..a] == s[0..a] && s[b..] == s[b..|s|];
    hide Distinct;
    if x in s[0..a] { PartsApart(s, 0, a, a, b, x); }
    if x in s[a..b] { PartsApart(s, a, b, b, |s|, x); }
  }

  /** Removing the members at the ranks `a` up to `b` leaves the others in their order. */
  lemma OrderedDropRange(m: ZSet, a: nat, b: nat)
    requires a <= b <= |Ordered(m)|
    ensures var s := Ordered(m);
            Ordered(m - (set x | x in s[a..b])) == s[..a] + s[b..]
  {
    var s := Ordered(m);
    var m' := m - (set x | x in s[a..b]);
    var t := s[..a] + s[b..];
    OrderedDistinct(m);
    forall x ensures x in m' <==> x in t { SplicedMember(s, a, b, x); }
    SplicedAscending(m, m', s, a, b);
    OrderingUnique(m', Ordered(m'), t);
  }

  lemma SplicedAscending(m: ZSet, m': ZSet, s: seq<string>, a: nat, b: nat)
    requires Ascending(m, s) && a <= b <= |s|
    requires forall x :: x in s[..a] + s[b..] ==> x in m' && x in m && m'[x] == m[x]
    ensures Ascending(m', s[..a] + s[b..])
  {
    var t := s[..a] + s[b..];
    forall i | 0 <= i < |t| ensures t[i] in m' { assert t[i] in t; }
    forall i, j | 0 <= i < j < |t| ensures Before(m', t[i], t[j]) {
      SplicedAt(s, a, b, i);
      SplicedAt(s, a, b, j);
      assert t[i] in t && t[j] in t;
      assert Before(m, s[if i < a then i else i + (b - a)], s[if j < a then j else j + (b - a)]);
    }
  }

  lemma OrderedDistinct(m: ZSet)
    ensures Distinct(Ordered(m))
  {
    var s := Ordered(m);
    forall i, j | 0 <= i < j < |s| ensures s[i] != s[j] { OrderedNoDuplicates(m, i, j); }
  }

  lemma {:induction false} OrderedLength(m: ZSet)
    ensures |Ordered(m)| == |m|
    decreases |m|
  {
    var s := Ordered(m);
    if s == [] {
      assert forall x :: x in m ==> x in s;
      assert m == map[];
    } else {
      TailIsOrdering(m, s);
      var rest := m - {s[0]};
      assert rest.Keys == m.Keys - {s[0]};
      OrderingUnique(rest, Ordered(rest), s[1..]);
      OrderedLength(rest);
    }
  }

  lemma OrderedNoDuplicates(m: ZSet, i: nat, j: nat)
    requires i < j < |Ordered(m)|
    ensures Ordered(m)[i] != Ordered(m)[j]
  {
    var s := Ordered(m);
    assert s[i] in s && s[j] in s && Before(m, s[i], s[j]);
    BeforeTotal(m, s[i], s[j]);
  }

  // ---- rank ranges ----

  datatype Bound = Upto(stop: int) | ToEnd

  /** Where Python puts a slice index in a list of length n. */
  function PyIndex(n: nat, i: int): int {
    if i < 0 then (if i + n < 0 then 0 else i + n) else if i > n then n else i
  }

  /** items[start:stop] */
  function PySlice<T>(items: seq<T>, start: int, stop: Bound): seq<T> {
    var lo := PyIndex(|items|, start);
    var hi := match stop case ToEnd => |items| case Upto(e) => PyIndex(|items|, e);
    if lo < hi then items[lo..hi] else []
  }

  /** LocalStorage._slice */
  function Slice<T>(items: seq<T>, start: int, end: int): seq<T> {
    if items == [] then []
    else PySlice(items, start, if end == -1 then ToEnd else Upto(end + 1))
  }

  /** The rank range of the Redis commands: negative ranks count from the end, the range is
      inclusive at both ends and clamped to the list. */
  function RedisRange<T>(items: seq<T>, start: int, end: int): seq<T> {
    var n := |items|;
    var from := if start < 0 then (if start + n < 0 then 0 else start + n) else start;
    var last := if end < 0 then end + n else if end >= n then n - 1 else end;
    if from > last || from >= n then [] else items[from..last + 1]
  }

  lemma SliceIsRedisRange<T>(items: seq<T>, start: int, end: int)
    ensures Slice(items, start, end) == RedisRange(items, start, end)
  {
  }

  ghost function ZRange(m: ZSet, start: int, end: int): seq<string> { Slice(Ordered(m), start, end) }
  ghost function ZRevRange(m: ZSet, start: int, end: int): seq<string> { Slice(Reversed(Ordered(m)), start, end) }

  lemma ReversedMembers(s: seq<string>)
    ensures forall x :: x in Reversed(s) <==> x in s
  {
    var r := Reversed(s);
    forall x ensures x in r <==> x in s {
      if x in s { var i :| 0 <= i < |s| && s[i] == x; assert r[|s| - 1 - i] == x; }
    }
  }

  /** The first `k + 1` members from the top hold every member when there are no more of them. */
  lemma ZRevRangeAll(m: ZSet, k: nat, x: string)
    requires |m| <= k + 1
    ensures x in ZRevRange(m, 0, k) <==> x in m
  {
    OrderedLength(m);
    var s := Ordered(m);
    var r := Reversed(s);
    assert ZRevRange(m, 0, k) == r by { if s == [] { } else { assert r[0..|r|] == r; } }
    ReversedMembers(s);
  }

  lemma ZRevRangeMembers(m: ZSet, k: nat, x: string)
    requires x in ZRevRange(m, 0, k)
    ensures x in m
  {
    assert x in Reversed(Ordered(m));
    ReversedMembers(Ordered(m));
  }

  /** The member that stands before all others is not among the first `k + 1` from the top. */
  lemma LowestNotListed(m: ZSet, k: nat, x: string)
    requires x in m && |m| > k + 1 && forall y :: y in m && y != x ==> Before(m, x, y)
    ensures x !in ZRevRange(m, 0, k)
  {
    var s := Ordered(m);
    OrderedLength(m);
    OrderedDistinct(m);
    assert s[0] == x by {
      assert s[0] in s && x in s;
      var i :| 0 <= i < |s| && s[i] == x;
      BeforeTotal(m, s[0], x);
    }
    forall i | 0 <= i <= k ensures Reversed(s)[i] != x { assert s[|s| - 1 - i] != s[0]; }
  }

  /** The member of strictly greatest score heads the descending listing. */
  lemma ZRevRangeHead(m: ZSet, k: nat, x: string)
    requires x in m && forall y :: y in m && y != x ==> m[y] < m[x]
    ensures ZRevRange(m, 0, k) != [] && ZRevRange(m, 0, k)[0] == x
  {
    OrderedAddLast(m, x, m[x]);
    assert m[x := m[x]] == m;
  }

  /** zrevrange over everything is the reverse of zrange. */
  lemma RevRangeIsReverse(m: ZSet)
    ensures ZRevRange(m, 0, -1) == Reversed(ZRange(m, 0, -1))
    ensures ZRange(m, 0, -1) == Ordered(m)
  {
    var s := Ordered(m);
    if s != [] { assert s[0..|s|] == s && Reversed(s)[0..|s|] == Reversed(s); }
  }
}
