/** `Array.prototype.sort` with a comparison of string keys: the elements in
    ascending order of their keys. */
module Sorting {
  import opened Text

  predicate SortedBy<T>(s: seq<T>, key: T -> string)
  {
    forall i, j :: 0 <= i < j < |s| ==> StrLe(key(s[i]), key(s[j]))
  }

  /** `x` placed into the sorted `s` after every element whose key is not above its own. */
  function InsertBy<T(==)>(x: T, s: seq<T>, key: T -> string): (r: seq<T>)
    requires SortedBy(s, key)
    ensures |r| == |s| + 1
    ensures multiset(r) == multiset(s) + multiset{x}
    ensures SortedBy(r, key)
  {
    if s == [] then [x]
    else
      var init, last := s[..|s| - 1], s[|s| - 1];
      assert s == init + [last];
      if StrLe(key(last), key(x)) then
        forall i | 0 <= i < |s|
          ensures StrLe(key(s[i]), key(x))
        {
          if i < |s| - 1 {
            StrLeTrans(key(s[i]), key(last), key(x));
          }
        }
        s + [x]
      else
        var r := InsertBy(x, init, key);
        StrLeTotal(key(last), key(x));
        forall i | 0 <= i < |r|
          ensures StrLe(key(r[i]), key(last))
        {
          assert r[i] in multiset(r);
          if r[i] != x {
            assert r[i] in multiset(init);
            var k :| 0 <= k < |init| && init[k] == r[i];
          }
        }
        r + [last]
  }

  /** The elements of `s` in ascending order of their keys. */
  function SortBy<T(==)>(s: seq<T>, key: T -> string): (r: seq<T>)
    ensures |r| == |s|
    ensures multiset(r) == multiset(s)
    ensures SortedBy(r, key)
  {
    if s == [] then []
    else
      assert s == s[..|s| - 1] + [s[|s| - 1]];
      InsertBy(s[|s| - 1], SortBy(s[..|s| - 1], key), key)
  }
}
