/** Small vocabulary shared by every model: optional values, time, and searching a string. */
module Common {

  datatype Option<+T> = None | Some(value: T)

  /** Instants and durations, in nanoseconds, as the store keeps them. */
  type Time = int

  const SECOND: Time := 1_000_000_000
  const MINUTE: Time := 60 * SECOND
  const HOUR: Time := 60 * MINUTE
  const DAY: Time := 24 * HOUR

  /** `s` without its last element. */
  function Init<T>(s: seq<T>): (r: seq<T>)
    requires s != []
  {
    s[..|s| - 1]
  }

  function Last<T>(s: seq<T>): T
    requires s != []
  {
    s[|s| - 1]
  }

  function FoldChar(c: char): char {
    if 'A' <= c <= 'Z' then (c as int + 32) as char else c
  }

  /** ASCII letters in lower case, which is also how the NOCASE collation compares. */
  function Fold(s: string): string {
    if s == [] then [] else [FoldChar(s[0])] + Fold(s[1..])
  }

  /** Letter by letter, 'A' to 'Z' become 'a' to 'z' and nothing else changes. */
  lemma {:induction false} FoldMeans(s: string)
    ensures |Fold(s)| == |s|
    ensures forall i :: 0 <= i < |s| ==>
              Fold(s)[i] == if 65 <= s[i] as int <= 90 then (s[i] as int + 32) as char else s[i]
  {
    if s != [] {
      FoldMeans(s[1..]);
    }
  }

  /** A response status that counts as delivered. */
  predicate Accepted(code: int) {
    200 <= code < 300
  }

  lemma {:induction false} InitLast<T>(s: seq<T>)
    requires s != []
    ensures Init(s) + [Last(s)] == s
  {
  }

  /** The index of the first `c`, or -1. */
  function IndexOf(s: string, c: char): (i: int)
    ensures -1 <= i < |s|
    ensures i >= 0 ==> s[i] == c && c !in s[..i]
    ensures i < 0 ==> c !in s
  {
    if s == [] then -1
    else if s[0] == c then 0
    else
      var i := IndexOf(s[1..], c);
      assert s == [s[0]] + s[1..];
      if i < 0 then -1 else assert s[..i + 1] == [s[0]] + s[1..][..i]; i + 1
  }

  lemma {:induction false} FirstAt(head: string, c: char, tail: string)
    requires c !in head
    ensures IndexOf(head + [c] + tail, c) == |head|
  {
    if head != [] {
      FirstAt(head[1..], c, tail);
      assert (head + [c] + tail)[1..] == head[1..] + [c] + tail;
    }
  }
}
