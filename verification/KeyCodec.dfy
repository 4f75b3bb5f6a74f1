/** Keys as file names: percent-encoding as in section 2.1 of RFC 3986. */
module KeyCodec {

  predicate Unsafe(c: char) { c in "<>:\"/\\|?*%" || c <= '\U{1f}' }

  function HexDigit(n: nat): char
    requires n < 16
  {
    if n < 10 then '0' + n as char else 'A' + (n - 10) as char
  }

  predicate IsHexDigit(c: char) { '0' <= c <= '9' || 'A' <= c <= 'F' || 'a' <= c <= 'f' }

  function HexValue(c: char): (n: nat)
    requires IsHexDigit(c)
    ensures n < 16
  {
    if c <= '9' then (c - '0') as nat else if c <= 'F' then 10 + (c - 'A') as nat else 10 + (c - 'a') as nat
  }

  lemma HexRoundTrip(n: nat)
    requires n < 16
    ensures IsHexDigit(HexDigit(n)) && HexValue(HexDigit(n)) == n
  {
  }

  function EncodeChar(c: char): string {
    if Unsafe(c) then ['%', HexDigit(c as nat / 16 % 16), HexDigit(c as nat % 16)] else [c]
  }

  function Encode(key: string): string {
    if key == "" then "" else EncodeChar(key[0]) + Encode(key[1..])
  }

  /** urllib.parse.unquote on ASCII escapes. */
  function Unquote(s: string): string {
    if s == "" then ""
    else if s[0] == '%' && |s| >= 3 && IsHexDigit(s[1]) && IsHexDigit(s[2])
    then [(16 * HexValue(s[1]) + HexValue(s[2])) as char] + Unquote(s[3..])
    else [s[0]] + Unquote(s[1..])
  }

  lemma UnsafeIsSmall(c: char)
    requires Unsafe(c)
    ensures c as nat < 128
  {
  }

  lemma UnquoteEscape(h: char, l: char, tail: string)
    requires IsHexDigit(h) && IsHexDigit(l)
    ensures Unquote(['%', h, l] + tail) == [(16 * HexValue(h) + HexValue(l)) as char] + Unquote(tail)
  {
    hide HexValue, IsHexDigit;
    assert (['%', h, l] + tail)[3..] == tail;
  }

  lemma UnquotePlain(c: char, tail: string)
    requires c != '%'
    ensures Unquote([c] + tail) == [c] + Unquote(tail)
  {
    assert ([c] + tail)[1..] == tail;
  }

  lemma UnquoteChar(c: char, tail: string)
    ensures Unquote(EncodeChar(c) + tail) == [c] + Unquote(tail)
  {
    hide Unquote, HexDigit, HexValue, IsHexDigit;
    var n := c as nat;
    if Unsafe(c) {
      UnsafeIsSmall(c);
      HexRoundTrip(n / 16 % 16);
      HexRoundTrip(n % 16);
      UnquoteEscape(HexDigit(n / 16 % 16), HexDigit(n % 16), tail);
    } else {
      UnquotePlain(c, tail);
    }
  }

  lemma {:induction false} DecodeEncode(key: string)
    ensures Unquote(Encode(key)) == key
  {
    hide Unquote, EncodeChar;
    if key == "" {
      assert Unquote(Encode("")) == "" by { EmptyKey(); }
    } else {
      DecodeEncode(key[1..]);
      UnquoteChar(key[0], Encode(key[1..]));
      assert key == [key[0]] + key[1..];
    }
  }

  lemma EmptyKey()
    ensures Unquote(Encode("")) == ""
  {
  }

  // ---- file names ----

  const SUFFIX := ".json"

  function FileName(key: string): string { Encode(key) + SUFFIX }

  function LastDot(name: string): int {
    if name == "" then -1 else if name[|name| - 1] == '.' then |name| - 1 else LastDot(name[..|name| - 1])
  }

  /** PurePath.stem: a name that only starts with a dot has no suffix. */
  function Stem(name: string): string {
    var i := LastDot(name);
    if 0 < i < |name| - 1 then name[..i] else name
  }

  lemma DotOfSuffix(base: string)
    ensures LastDot(base + SUFFIX) == |base|
  {
    var n := base + SUFFIX;
    assert n[..|base| + 4] == base + ".jso";
    assert n[..|base| + 4][..|base| + 3] == base + ".js";
    assert (base + ".js")[..|base| + 2] == base + ".j";
    assert (base + ".j")[..|base| + 1] == base + ".";
    assert LastDot(base + ".") == |base|;
    assert LastDot(base + ".j") == |base|;
    assert LastDot(base + ".js") == |base|;
    assert LastDot(base + ".jso") == |base|;
  }

  /** The key that list_keys makes of a file. */
  function KeyOfFile(name: string): string { Unquote(Stem(name)) }

  /** The file name gives back its key, unless the key is empty: that one is listed as ".json". */
  lemma KeyRoundTrip(key: string)
    ensures KeyOfFile(FileName(key)) == if key == "" then SUFFIX else key
    ensures KeyOfFile(FileName(key)) == key <==> key != ""
  {
    DotOfSuffix(Encode(key));
    if key == "" {
      assert Unquote(SUFFIX) == SUFFIX by {
        assert SUFFIX[1..] == "json" && "json"[1..] == "son" && "son"[1..] == "on" && "on"[1..] == "n";
      }
      assert FileName(key) == SUFFIX;
    } else {
      assert FileName(key)[..|Encode(key)|] == Encode(key);
      DecodeEncode(key);
    }
  }

  /** Distinct keys never share a file. */
  lemma FilesDistinct(a: string, b: string)
    requires FileName(a) == FileName(b)
    ensures a == b
  {
    assert FileName(a)[..|FileName(a)| - 5] == Encode(a) && FileName(b)[..|FileName(b)| - 5] == Encode(b);
    DecodeEncode(a);
    DecodeEncode(b);
  }
}
