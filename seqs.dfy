/** Searching a list the way JavaScript's `Array.prototype.findIndex` does. */
module Seqs {
  import opened Options

  /** `s.findIndex(p)`: the index of the first element satisfying `p`, `None` for -1. */
  function FindFirst<T>(s: seq<T>, p: T -> bool): (r: Option<nat>)
    ensures r.Some? ==> r.value < |s| && p(s[r.value])
    ensures r.Some? ==> forall j :: 0 <= j < r.value ==> !p(s[j])
    ensures r.None? ==> forall j :: 0 <= j < |s| ==> !p(s[j])
  {
    if s == [] then None
    else if p(s[0]) then Some(0)
    else match FindFirst(s[1..], p)
      case None => None
      case Some(i) => Some(i + 1)
  }

  /** `s.find(p)`: the first element satisfying `p`, `None` for `undefined`. */
  function Find<T>(s: seq<T>, p: T -> bool): (r: Option<T>)
    ensures r.Some? <==> exists j :: 0 <= j < |s| && p(s[j])
    ensures r.Some? ==> r.value in s && p(r.value)
  {
    match FindFirst(s, p)
    case None => None
    case Some(i) => Some(s[i])
  }

  /** What `find` returns is the first element satisfying `p`: no earlier element does. */
  lemma FindIsFirst<T>(s: seq<T>, p: T -> bool)
    ensures Find(s, p).Some? ==>
      exists j :: 0 <= j < |s| && s[j] == Find(s, p).value && forall k :: 0 <= k < j ==> !p(s[k])
  {
    var i := FindFirst(s, p);
    if i.Some? {
      assert s[i.value] == Find(s, p).value;
    }
  }
}
