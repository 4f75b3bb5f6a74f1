/** The few string operations of Python that the code relies on. */
module Text {

  /** What str.strip and str.split treat as white space. */
  predicate IsSpace(c: char) {
    || '\t' <= c <= '\r' || '\U{1c}' <= c <= ' ' || c == '\U{85}' || c == '\U{a0}' || c == '\U{1680}'
    || '\U{2000}' <= c <= '\U{200a}' || c == '\U{2028}' || c == '\U{2029}' || c == '\U{202f}'
    || c == '\U{205f}' || c == '\U{3000}'
  }

  function LStrip(s: string): string {
    if s != [] && IsSpace(s[0]) then LStrip(s[1..]) else s
  }

  function RStrip(s: string): string {
    if s != [] && IsSpace(s[|s| - 1]) then RStrip(s[..|s| - 1]) else s
  }

  function Strip(s: string): string { RStrip(LStrip(s)) }

  predicate Blank(s: string) { forall i :: 0 <= i < |s| ==> IsSpace(s[i]) }

  /** Nothing to strip at either end. */
  predicate Trimmed(s: string) { s == [] || (!IsSpace(s[0]) && !IsSpace(s[|s| - 1])) }

  lemma TrimmedIsStripped(s: string)
    requires Trimmed(s)
    ensures Strip(s) == s
  {
  }

  lemma {:induction false} LStripFirst(s: string)
    ensures LStrip(s) == [] <==> Blank(s)
    ensures LStrip(s) != [] ==> !IsSpace(LStrip(s)[0])
  {
    if s != [] && IsSpace(s[0]) {
      LStripFirst(s[1..]);
      assert forall i :: 0 <= i < |s[1..]| ==> s[1..][i] == s[i + 1];
      assert Blank(s[1..]) ==> Blank(s) by {
        if Blank(s[1..]) { forall i | 0 <= i < |s| ensures IsSpace(s[i]) { if i > 0 { assert IsSpace(s[1..][i - 1]); } } }
      }
    }
  }

  lemma {:induction false} RStripLast(s: string)
    requires s != [] && !IsSpace(s[0])
    ensures RStrip(s) != [] && RStrip(s)[0] == s[0] && Trimmed(RStrip(s))
  {
    if IsSpace(s[|s| - 1]) { RStripLast(s[..|s| - 1]); }
  }

  /** Strip leaves a trimmed string, and the empty one exactly for white space alone. */
  lemma StripTrims(s: string)
    ensures Trimmed(Strip(s))
    ensures Strip(s) == [] <==> Blank(s)
    ensures Strip(Strip(s)) == Strip(s)
  {
    LStripFirst(s);
    if LStrip(s) != [] { RStripLast(LStrip(s)); }
    TrimmedIsStripped(Strip(s));
  }

  function Concat(parts: seq<string>): string {
    if parts == [] then [] else parts[0] + Concat(parts[1..])
  }

  lemma {:induction false} ConcatSnoc(parts: seq<string>, s: string)
    ensures Concat(parts + [s]) == Concat(parts) + s
  {
    if parts != [] {
      assert (parts + [s])[1..] == parts[1..] + [s];
      ConcatSnoc(parts[1..], s);
    }
  }

  // ---- " ".join(s.split()) ----

  function FirstWord(s: string): (w: string)
    ensures |w| <= |s|
    ensures s != "" && !IsSpace(s[0]) ==> w != ""
  {
    if s == "" || IsSpace(s[0]) then "" else [s[0]] + FirstWord(s[1..])
  }

  lemma LStripShortens(s: string)
    ensures |LStrip(s)| <= |s|
  {
  }

  /** str.split() */
  function Words(s: string): seq<string>
    decreases |s|
  {
    LStripShortens(s);
    var t := LStrip(s);
    if t == "" then []
    else
      LStripFirst(s);
      [FirstWord(t)] + Words(t[|FirstWord(t)|..])
  }

  function JoinWords(ws: seq<string>): string {
    if ws == [] then "" else if |ws| == 1 then ws[0] else ws[0] + " " + JoinWords(ws[1..])
  }

  function Normalize(s: string): string { JoinWords(Words(s)) }

  /** Only white space normalises to nothing. */
  lemma NormalizeEmpty(s: string)
    ensures Normalize(s) == "" <==> Blank(s)
  {
    LStripFirst(s);
    LStripShortens(s);
  }

  /** Other text normalises to something that starts with no white space. */
  lemma NormalizeFirst(s: string)
    requires !Blank(s)
    ensures Normalize(s) != "" && !IsSpace(Normalize(s)[0])
  {
    LStripFirst(s);
    LStripShortens(s);
    NormalizeEmpty(s);
  }

  function FirstN(s: string, n: nat): string { if |s| <= n then s else s[..n] }

  // ---- str(n) ----

  function Decimal(n: nat): string {
    if n < 10 then ['0' + n as char] else Decimal(n / 10) + ['0' + (n % 10) as char]
  }

  // ---- identifiers ----

  /** The n-th identifier drawn: identifiers are never drawn twice. */
  function IdText(n: nat): (id: string)
    ensures |id| == n
  {
    seq(n, _ => '0')
  }
}
