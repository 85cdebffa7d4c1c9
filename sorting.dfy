/** `Array.prototype.sort` with a comparator of the form `key(b) - key(a)`:
    a stable sort into descending key order, written as insertion sort. */
module Sorting {

  /** `s` is ordered by `key`, largest first. */
  ghost predicate Descending<T>(s: seq<T>, key: T -> int) {
    forall i, j :: 0 <= i < j < |s| ==> key(s[i]) >= key(s[j])
  }

  /** Inserts `x` in front of the first element whose key is not larger. */
  function Insert<T>(x: T, s: seq<T>, key: T -> int): (r: seq<T>)
    ensures multiset(r) == multiset(s) + multiset{x}
    ensures Descending(s, key) ==> Descending(r, key)
    decreases |s|
  {
    if s == [] || key(x) >= key(s[0]) then [x] + s
    else
      var rest := Insert(x, s[1..], key);
      assert s == [s[0]] + s[1..];
      InsertHeadBound(s[0], x, s, rest, key);
      [s[0]] + rest
  }

  /** The step of `Insert` that keeps the head: `h` outranks everything in `rest`. */
  lemma InsertHeadBound<T>(h: T, x: T, s: seq<T>, rest: seq<T>, key: T -> int)
    requires s != [] && h == s[0] && key(x) < key(h)
    requires multiset(rest) == multiset(s[1..]) + multiset{x}
    requires Descending(s, key) ==> Descending(rest, key)
    ensures Descending(s, key) ==> Descending([h] + rest, key)
  {
    if Descending(s, key) {
      forall j | 0 <= j < |rest| ensures key(h) >= key(rest[j]) {
        assert rest[j] in multiset(rest);
        if rest[j] != x {
          assert rest[j] in multiset(s[1..]);
          var k :| 0 <= k < |s[1..]| && s[1..][k] == rest[j];
          assert s[k + 1] == rest[j];
        }
      }
    }
  }

  /** The stable descending sort of `s`. */
  function SortDescending<T>(s: seq<T>, key: T -> int): (r: seq<T>)
    ensures multiset(r) == multiset(s)
    ensures Descending(r, key)
    decreases |s|
  {
    if s == [] then []
    else
      assert s == [s[0]] + s[1..];
      Insert(s[0], SortDescending(s[1..], key), key)
  }

  /** Sorting a list that is already in descending order leaves it as it is. */
  lemma {:induction false} SortDescendingOfDescending<T>(s: seq<T>, key: T -> int)
    requires Descending(s, key)
    ensures SortDescending(s, key) == s
    decreases |s|
  {
    if s != [] {
      SortDescendingOfDescending(s[1..], key);
      assert s == [s[0]] + s[1..];
    }
  }

  /** Sorting twice is sorting once. */
  lemma SortDescendingIdempotent<T>(s: seq<T>, key: T -> int)
    ensures SortDescending(SortDescending(s, key), key) == SortDescending(s, key)
  {
    SortDescendingOfDescending(SortDescending(s, key), key);
  }
}
