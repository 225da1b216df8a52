/** Sequence helpers shared by the dashboard components: the `filter` that every
    list screen applies, the subsequence relation it establishes, key uniqueness,
    and the `Math.max(...ids, 0) + 1` rule used to number new records. */
module Seqs {

  /** `a` can be obtained from `b` by deleting elements, keeping the order. */
  predicate IsSubsequence<T(==)>(a: seq<T>, b: seq<T>)
    decreases |b|
  {
    if a == [] then true
    else if b == [] then false
    else (a[0] == b[0] && IsSubsequence(a[1..], b[1..])) || IsSubsequence(a, b[1..])
  }

  lemma {:induction false} SubsequenceRefl<T>(s: seq<T>)
    ensures IsSubsequence(s, s)
    decreases |s|
  {
    if s != [] {
      SubsequenceRefl(s[1..]);
    }
  }

  lemma {:induction false} SubsequenceTrans<T>(a: seq<T>, b: seq<T>, c: seq<T>)
    requires IsSubsequence(a, b) && IsSubsequence(b, c)
    ensures IsSubsequence(a, c)
    decreases |c|
  {
    if a == [] {
    } else if b[0] == c[0] && IsSubsequence(b[1..], c[1..]) {
      if a[0] == b[0] && IsSubsequence(a[1..], b[1..]) {
        SubsequenceTrans(a[1..], b[1..], c[1..]);
      } else {
        SubsequenceTrans(a, b[1..], c[1..]);
      }
    } else {
      SubsequenceTrans(a, b, c[1..]);
    }
  }

  /** JavaScript's `Array.prototype.filter`: the elements satisfying `keep`, in order. */
  function Filter<T>(s: seq<T>, keep: T -> bool): (r: seq<T>)
    ensures |r| <= |s|
    ensures forall x :: x in r ==> x in s && keep(x)
    ensures forall x :: x in s && keep(x) ==> x in r
    decreases |s|
  {
    if s == [] then []
    else if keep(s[0]) then [s[0]] + Filter(s[1..], keep)
    else Filter(s[1..], keep)
  }

  lemma {:induction false} FilterIsSubsequence<T>(s: seq<T>, keep: T -> bool)
    ensures IsSubsequence(Filter(s, keep), s)
    decreases |s|
  {
    if s != [] {
      FilterIsSubsequence(s[1..], keep);
      var rest := Filter(s[1..], keep);
      if keep(s[0]) {
        assert Filter(s, keep) == [s[0]] + rest;
        assert ([s[0]] + rest)[1..] == rest;
      }
    }
  }

  /** A filter that keeps every element returns its input unchanged. */
  lemma {:induction false} FilterKeepsAll<T>(s: seq<T>, keep: T -> bool)
    requires forall x :: x in s ==> keep(x)
    ensures Filter(s, keep) == s
    decreases |s|
  {
    if s != [] {
      assert s[0] in s;
      assert forall x :: x in s[1..] ==> x in s;
      FilterKeepsAll(s[1..], keep);
      assert [s[0]] + s[1..] == s;
    }
  }

  /** Replacing one element changes the number of kept elements by what the
      old and the new element contribute. */
  lemma {:induction false} FilterCountUpdate<T>(s: seq<T>, keep: T -> bool, k: int, x: T)
    requires 0 <= k < |s|
    ensures |Filter(s[k := x], keep)| ==
      |Filter(s, keep)| - (if keep(s[k]) then 1 else 0) + (if keep(x) then 1 else 0)
    decreases |s|
  {
    assert s[k := x][0] == (if k == 0 then x else s[0]);
    if k == 0 {
      assert s[k := x][1..] == s[1..];
    } else {
      FilterCountUpdate(s[1..], keep, k - 1, x);
      assert s[k := x][1..] == s[1..][k - 1 := x];
    }
  }

  /** A filter keeps every copy of a passing element and no copy of any other. */
  lemma {:induction false} FilterMultiset<T>(s: seq<T>, keep: T -> bool)
    ensures forall x :: multiset(Filter(s, keep))[x] == (if keep(x) then multiset(s)[x] else 0)
    decreases |s|
  {
    if s != [] {
      FilterMultiset(s[1..], keep);
      assert s == [s[0]] + s[1..];
      assert multiset(s) == multiset{s[0]} + multiset(s[1..]);
      if keep(s[0]) {
        assert multiset(Filter(s, keep)) == multiset{s[0]} + multiset(Filter(s[1..], keep));
      }
    }
  }

  /** A filter applied only when `active`, as in `if (cond) result = result.filter(keep)`. */
  function FilterWhen<T>(s: seq<T>, active: bool, keep: T -> bool): seq<T>
  {
    if active then Filter(s, keep) else s
  }

  lemma FilterWhenSpec<T>(s: seq<T>, active: bool, keep: T -> bool)
    ensures IsSubsequence(FilterWhen(s, active, keep), s)
    ensures forall x :: x in FilterWhen(s, active, keep) <==> x in s && (active ==> keep(x))
    ensures forall x :: multiset(FilterWhen(s, active, keep))[x] ==
              (if active ==> keep(x) then multiset(s)[x] else 0)
  {
    if active {
      FilterIsSubsequence(s, keep);
      FilterMultiset(s, keep);
    } else {
      SubsequenceRefl(s);
    }
  }

  /** No two elements of `s` share a key. */
  predicate UniqueBy<T, K(==)>(s: seq<T>, key: T -> K)
  {
    forall i, j :: 0 <= i < j < |s| ==> key(s[i]) != key(s[j])
  }

  lemma {:induction false} FilterKeepsUnique<T, K>(s: seq<T>, keep: T -> bool, key: T -> K)
    requires UniqueBy(s, key)
    ensures UniqueBy(Filter(s, keep), key)
    decreases |s|
  {
    if s != [] {
      var tail := s[1..];
      assert UniqueBy(tail, key) by {
        forall i, j | 0 <= i < j < |tail| ensures key(tail[i]) != key(tail[j]) {
          assert tail[i] == s[i + 1] && tail[j] == s[j + 1];
        }
      }
      FilterKeepsUnique(tail, keep, key);
      var rest := Filter(tail, keep);
      if keep(s[0]) {
        forall x | x in rest ensures key(x) != key(s[0]) {
          assert x in tail;
          var k :| 0 <= k < |tail| && tail[k] == x;
          assert s[k + 1] == x;
        }
        var r := [s[0]] + rest;
        forall i, j | 0 <= i < j < |r| ensures key(r[i]) != key(r[j]) {
          if i == 0 {
            assert r[j] == rest[j - 1] && r[j] in rest;
          } else {
            assert r[i] == rest[i - 1] && r[j] == rest[j - 1];
          }
        }
      }
    }
  }

  /** `s.map(x => key(x) === key(edited) ? edited : x)`: every element sharing
      the edited element's key is replaced by it. */
  function ReplacedBy<T, K(==)>(s: seq<T>, key: T -> K, edited: T): (r: seq<T>)
    ensures |r| == |s|
  {
    seq(|s|, i requires 0 <= i < |s| => if key(s[i]) == key(edited) then edited else s[i])
  }

  /** The replacement keeps every key in place, hence key uniqueness; with
      unique keys it replaces exactly the one matching element; with no match
      it changes nothing. */
  lemma ReplacedBySpec<T, K>(s: seq<T>, key: T -> K, edited: T)
    ensures forall i :: 0 <= i < |s| ==> key(ReplacedBy(s, key, edited)[i]) == key(s[i])
    ensures UniqueBy(s, key) ==> UniqueBy(ReplacedBy(s, key, edited), key)
    ensures UniqueBy(s, key) ==> forall k :: 0 <= k < |s| && key(s[k]) == key(edited) ==>
      ReplacedBy(s, key, edited) == s[k := edited]
    ensures (forall i :: 0 <= i < |s| ==> key(s[i]) != key(edited)) ==> ReplacedBy(s, key, edited) == s
  {
    var r := ReplacedBy(s, key, edited);
    if UniqueBy(s, key) {
      forall i, j | 0 <= i < j < |r| ensures key(r[i]) != key(r[j]) {
        assert key(r[i]) == key(s[i]) && key(r[j]) == key(s[j]);
      }
      forall k | 0 <= k < |s| && key(s[k]) == key(edited) ensures r == s[k := edited] {
        forall i | 0 <= i < |s| && i != k ensures key(s[i]) != key(edited) {
          if i < k {
            assert key(s[i]) != key(s[k]);
          } else {
            assert key(s[k]) != key(s[i]);
          }
        }
      }
    }
  }

  /** `s.map(key)`: the key of every element, in order. */
  function Keys<T, K>(s: seq<T>, key: T -> K): (ks: seq<K>)
    ensures |ks| == |s|
    ensures forall i :: 0 <= i < |s| ==> ks[i] == key(s[i])
  {
    seq(|s|, i requires 0 <= i < |s| => key(s[i]))
  }

  /** The test `x => key(x) !== k` of the delete and remove handlers. */
  function KeyIsNot<T, K(==)>(key: T -> K, k: K): T -> bool
  {
    (x: T) => key(x) != k
  }

  /** `Math.max(...ids, 0)`: the largest id, or 0 when there is none larger. */
  function MaxOrZero(ids: seq<int>): (m: int)
    ensures m >= 0
    ensures forall i :: 0 <= i < |ids| ==> ids[i] <= m
    ensures m == 0 || m in ids
    decreases |ids|
  {
    if ids == [] then 0
    else
      var rest := MaxOrZero(ids[1..]);
      if ids[0] > rest then ids[0] else rest
  }

  /** `Math.max(...ids, 0) + 1`, the id given to a new order or customer. */
  function NextId(ids: seq<int>): (r: int)
    ensures r >= 1
    ensures forall i :: 0 <= i < |ids| ==> ids[i] < r
    ensures r == 1 || r - 1 in ids
  {
    MaxOrZero(ids) + 1
  }
}
