/** Sorting texts, as Python's sorted does. */
module Names {
  import opened Wrappers
  import opened ZSets

  predicate SortedNames(s: seq<string>) { forall i, j :: 0 <= i < j < |s| ==> !StrLess(s[j], s[i]) }

  predicate StrictlySorted(s: seq<string>) { forall i, j :: 0 <= i < j < |s| ==> StrLess(s[i], s[j]) }

  function InsertName(s: seq<string>, x: string): (r: seq<string>)
    ensures |r| == |s| + 1
    ensures forall y :: y in r <==> y == x || y in s
  {
    if s == [] then [x]
    else if StrLess(x, s[0]) then [x] + s
    else [s[0]] + InsertName(s[1..], x)
  }

  lemma LeastFirst(x: string, s: seq<string>)
    requires SortedNames(s) && forall y :: y in s ==> !StrLess(y, x)
    ensures SortedNames([x] + s)
  {
    var r := [x] + s;
    forall i, j | 0 <= i < j < |r| ensures !StrLess(r[j], r[i]) { assert r[j] == s[j - 1] && s[j - 1] in s; }
  }

  lemma {:induction false} InsertSorts(s: seq<string>, x: string)
    requires SortedNames(s)
    ensures SortedNames(InsertName(s, x))
  {
    if s == [] {
    } else if StrLess(x, s[0]) {
      forall y | y in s ensures !StrLess(y, x) {
        var j :| 0 <= j < |s| && s[j] == y;
        assert j > 0 ==> !StrLess(s[j], s[0]);
        StrLessIrreflexive(s[0]);
        if StrLess(y, x) { StrLessTransitive(y, x, s[0]); }
      }
      LeastFirst(x, s);
    } else {
      InsertSorts(s[1..], x);
      forall y | y in InsertName(s[1..], x) ensures !StrLess(y, s[0]) {
        if y in s[1..] { var j :| 0 <= j < |s[1..]| && s[1..][j] == y; assert s[j + 1] == y; }
      }
      LeastFirst(s[0], InsertName(s[1..], x));
    }
  }

  lemma InsertStrict(s: seq<string>, x: string)
    requires StrictlySorted(s) && x !in s
    ensures StrictlySorted(InsertName(s, x))
  {
    forall i, j | 0 <= i < j < |s| ensures !StrLess(s[j], s[i]) {
      if StrLess(s[j], s[i]) { StrLessTransitive(s[i], s[j], s[i]); StrLessIrreflexive(s[i]); }
    }
    InsertSorts(s, x);
    InsertDistinct(s, x);
    var r := InsertName(s, x);
    forall i, j | 0 <= i < j < |r| ensures StrLess(r[i], r[j]) { StrLessConnected(r[i], r[j]); }
  }

  lemma {:induction false} InsertDistinct(s: seq<string>, x: string)
    requires StrictlySorted(s) && x !in s
    ensures Distinct(InsertName(s, x))
  {
    forall i, j | 0 <= i < j < |s| ensures s[i] != s[j] { StrLessIrreflexive(s[i]); }
    if s != [] && !StrLess(x, s[0]) {
      InsertDistinct(s[1..], x);
      assert s[0] !in s[1..];
    }
  }

  function SortNames(s: seq<string>): (r: seq<string>)
    ensures |r| == |s| && forall y :: y in r <==> y in s
  {
    if s == [] then []
    else
      assert s == s[..|s| - 1] + [s[|s| - 1]];
      InsertName(SortNames(s[..|s| - 1]), s[|s| - 1])
  }

  lemma {:induction false} SortSorts(s: seq<string>)
    ensures SortedNames(SortNames(s))
  {
    if s != [] {
      SortSorts(s[..|s| - 1]);
      InsertSorts(SortNames(s[..|s| - 1]), s[|s| - 1]);
    }
  }
}
