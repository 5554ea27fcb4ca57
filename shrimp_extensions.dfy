/**
 * The sequence helper that the settings configuration borrows from the
 * ShrimpExtensions library: `find(where:)`, read as "the first element that
 * satisfies the predicate, or nil when there is none".
 */
module ShrimpExtensions {
  import opened Wrappers

  /** `s.find(where: p)`: a left-to-right scan that stops at the first match. */
  function Find<T>(s: seq<T>, p: T -> bool): (r: Option<T>)
    ensures r.None? <==> forall i :: 0 <= i < |s| ==> !p(s[i])
    ensures r.Some? ==>
      exists i :: 0 <= i < |s| && s[i] == r.value && p(s[i]) &&
        forall j :: 0 <= j < i ==> !p(s[j])
  {
    if s == [] then None
    else if p(s[0]) then Some(s[0])
    else Find(s[1..], p)
  }
}
