/** `Array.prototype.filter` and `Array.prototype.find`, the two list
    operations the pages use on data already fetched. */
module Lists {
  import opened Domain

  /** `r` is `s` with some elements left out, in the original order. */
  predicate IsSubsequence<T(==)>(r: seq<T>, s: seq<T>)
    decreases |s|
  {
    if r == [] then true
    else if s == [] then false
    else if r[0] == s[0] then IsSubsequence(r[1..], s[1..])
    else IsSubsequence(r, s[1..])
  }

  /** `s.filter(p)`: keeps exactly the elements that satisfy `p`, in order. */
  function Filter<T(==,!new)>(s: seq<T>, p: T -> bool): (r: seq<T>)
    ensures |r| <= |s|
    ensures forall i :: 0 <= i < |r| ==> r[i] in s && p(r[i])
    ensures forall i :: 0 <= i < |s| && p(s[i]) ==> s[i] in r
    ensures IsSubsequence(r, s)
    ensures forall x :: multiset(r)[x] == if p(x) then multiset(s)[x] else 0
  {
    if s == [] then []
    else
      assert s == [s[0]] + s[1..];
      assert multiset(s) == multiset{s[0]} + multiset(s[1..]);
      if p(s[0]) then [s[0]] + Filter(s[1..], p)
      else Filter(s[1..], p)
  }

  /** When every element satisfies `p`, filtering returns the list unchanged. */
  lemma {:induction false} FilterKeepsAll<T(!new)>(s: seq<T>, p: T -> bool)
    requires forall i :: 0 <= i < |s| ==> p(s[i])
    ensures Filter(s, p) == s
  {
    if s != [] {
      FilterKeepsAll(s[1..], p);
      assert s == [s[0]] + s[1..];
    }
  }

  /** Filtering twice by the same predicate is filtering once. */
  lemma {:induction false} FilterIdempotent<T(!new)>(s: seq<T>, p: T -> bool)
    ensures Filter(Filter(s, p), p) == Filter(s, p)
  {
    var r := Filter(s, p);
    FilterKeepsAll(r, p);
  }

  /** `i` is the first index whose element satisfies `p`. */
  predicate FirstMatch<T>(s: seq<T>, p: T -> bool, i: int)
  {
    0 <= i < |s| && p(s[i]) && forall j :: 0 <= j < i ==> !p(s[j])
  }

  /** `s.find(p)`: the first element that satisfies `p`, or `undefined`. */
  function Find<T>(s: seq<T>, p: T -> bool): (r: Option<T>)
    ensures r.None? <==> forall i :: 0 <= i < |s| ==> !p(s[i])
    ensures r.Some? ==> exists i :: FirstMatch(s, p, i) && s[i] == r.value
  {
    if s == [] then None
    else if p(s[0]) then
      assert FirstMatch(s, p, 0);
      Some(s[0])
    else
      var r := Find(s[1..], p);
      assert r.Some? ==> exists i :: FirstMatch(s, p, i) && s[i] == r.value by {
        if r.Some? {
          var k :| FirstMatch(s[1..], p, k) && s[1..][k] == r.value;
          assert FirstMatch(s, p, k + 1);
        }
      }
      assert r.None? ==> forall i :: 0 <= i < |s| ==> !p(s[i]) by {
        if r.None? {
          forall i | 0 <= i < |s| ensures !p(s[i]) {
            if i > 0 { assert s[i] == s[1..][i - 1]; }
          }
        }
      }
      r
  }
}
