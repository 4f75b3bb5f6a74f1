/** What several modules share: a value that may be absent, the key of a chat, lists without repetition. */
module Wrappers {
  datatype Option<+T> = None | Some(value: T)

  type ChatKey = (string, string, string)   // (project id, uid, chat id)

  predicate Distinct<T(==)>(s: seq<T>) { forall i, j :: 0 <= i < j < |s| ==> s[i] != s[j] }
}
