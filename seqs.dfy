/**
  Sequence helpers shared by the components: the JavaScript array
  operations the panel is built from (`filter`, `findIndex`, `find`,
  `slice(-n)`), stated once with their contracts.
 */
module Seqs {

  datatype Option<+T> = None | Some(value: T)

  /** `Array.prototype.filter`: keeps exactly the elements satisfying `p`, in order. */
  function Filter<T(!new)>(p: T -> bool, s: seq<T>): (r: seq<T>)
    ensures |r| <= |s|
    ensures forall i :: 0 <= i < |r| ==> p(r[i])
    ensures forall x :: x in r <==> x in s && p(x)
    decreases |s|
  {
    if s == [] then []
    else if p(s[0]) then [s[0]] + Filter(p, s[1..])
    else Filter(p, s[1..])
  }

  /** A kept element occurs in the result as often as in the input; a rejected one not at all. */
  lemma {:induction false} FilterMultiplicity<T(!new)>(p: T -> bool, s: seq<T>)
    ensures forall x :: multiset(Filter(p, s))[x] == if p(x) then multiset(s)[x] else 0
    decreases |s|
  {
    if s != [] {
      FilterMultiplicity(p, s[1..]);
      assert s == [s[0]] + s[1..];
    }
  }

  /** `sub` can be obtained from `s` by deleting elements (order is kept). */
  predicate IsSubsequence<T(==)>(sub: seq<T>, s: seq<T>)
    decreases |s|
  {
    if sub == [] then true
    else if s == [] then false
    else if sub[0] == s[0] then IsSubsequence(sub[1..], s[1..])
    else IsSubsequence(sub, s[1..])
  }

  lemma {:induction false} SubsequenceDropHead<T>(x: T, sub: seq<T>, s: seq<T>)
    requires IsSubsequence([x] + sub, s)
    ensures IsSubsequence(sub, s)
    decreases |s|, 0
  {
    if sub != [] && s != [] {
      var xs := [x] + sub;
      assert xs[1..] == sub;
      assert [s[0]] + s[1..] == s;
      if xs[0] == s[0] {
        SubsequenceSkip(s[0], sub, s[1..]);
      } else {
        SubsequenceDropHead(x, sub, s[1..]);
        SubsequenceSkip(s[0], sub, s[1..]);
      }
    }
  }

  /** Prepending an element to the larger sequence keeps a subsequence a subsequence. */
  lemma {:induction false} SubsequenceSkip<T>(y: T, sub: seq<T>, s: seq<T>)
    requires IsSubsequence(sub, s)
    ensures IsSubsequence(sub, [y] + s)
    decreases |s|, 1
  {
    var ys := [y] + s;
    assert ys[1..] == s;
    if sub != [] && sub[0] == y {
      assert [sub[0]] + sub[1..] == sub;
      SubsequenceDropHead(sub[0], sub[1..], s);
    }
  }

  /** What `filter` returns keeps the order of its input. */
  lemma {:induction false} FilterIsSubsequence<T(!new)>(p: T -> bool, s: seq<T>)
    ensures IsSubsequence(Filter(p, s), s)
    decreases |s|
  {
    if s != [] {
      FilterIsSubsequence(p, s[1..]);
      if p(s[0]) {
        var r := Filter(p, s);
        assert r[0] == s[0] && r[1..] == Filter(p, s[1..]);
      } else {
        SubsequenceSkip(s[0], Filter(p, s[1..]), s[1..]);
        assert [s[0]] + s[1..] == s;
      }
    }
  }

  /** A subsequence never holds an element more often than the sequence does. */
  lemma {:induction false} SubsequenceMultiset<T>(sub: seq<T>, s: seq<T>)
    requires IsSubsequence(sub, s)
    ensures multiset(sub) <= multiset(s)
    decreases |s|
  {
    if sub != [] {
      assert s == [s[0]] + s[1..];
      if sub[0] == s[0] {
        SubsequenceMultiset(sub[1..], s[1..]);
        assert sub == [sub[0]] + sub[1..];
      } else {
        SubsequenceMultiset(sub, s[1..]);
      }
    }
  }

  /**
    Keeping the order of `s` and the multiplicity of each accepted element
    determines the result: the only sequence with both properties is what
    `filter` returns.
   */
  lemma {:induction false} FilterDetermined<T(!new)>(p: T -> bool, s: seq<T>, r: seq<T>)
    requires IsSubsequence(r, s)
    requires forall x :: multiset(r)[x] == if p(x) then multiset(s)[x] else 0
    ensures r == Filter(p, s)
    decreases |s|
  {
    if s != [] {
      var a, t := s[0], s[1..];
      assert s == [a] + t;
      if r != [] && r[0] == a {
        assert r == [a] + r[1..];
        assert p(a) by {
          assert multiset(r)[a] > 0;
        }
        FilterDetermined(p, t, r[1..]);
      } else {
        assert IsSubsequence(r, t);
        SubsequenceMultiset(r, t);
        assert !p(a) by {
          assert multiset(r)[a] <= multiset(t)[a] < multiset(s)[a];
        }
        FilterDetermined(p, t, r);
      }
    }
  }

  /** A filter that rejects nothing returns its input. */
  lemma {:induction false} FilterKeepsAll<T(!new)>(p: T -> bool, s: seq<T>)
    requires forall x :: x in s ==> p(x)
    ensures Filter(p, s) == s
    decreases |s|
  {
    if s != [] {
      FilterKeepsAll(p, s[1..]);
      assert [s[0]] + s[1..] == s;
    }
  }

  /** A filter that accepts nothing returns nothing. */
  lemma {:induction false} FilterKeepsNone<T(!new)>(p: T -> bool, s: seq<T>)
    requires forall x :: x in s ==> !p(x)
    ensures Filter(p, s) == []
    decreases |s|
  {
    if s != [] {
      FilterKeepsNone(p, s[1..]);
    }
  }

  /** Filtering distributes over concatenation. */
  lemma {:induction false} FilterAppend<T(!new)>(p: T -> bool, s: seq<T>, t: seq<T>)
    ensures Filter(p, s + t) == Filter(p, s) + Filter(p, t)
    decreases |s|
  {
    if s != [] {
      assert (s + t)[1..] == s[1..] + t;
      FilterAppend(p, s[1..], t);
    } else {
      assert s + t == t;
    }
  }

  /** Filtering a sequence without repetitions yields one without repetitions. */
  lemma {:induction false} FilterDistinct<T(!new)>(p: T -> bool, s: seq<T>)
    requires Distinct(s)
    ensures Distinct(Filter(p, s))
    decreases |s|
  {
    if s != [] {
      FilterDistinct(p, s[1..]);
      assert s[0] !in s[1..];
    }
  }

  /** No two elements of `s` share a key. */
  predicate KeysDistinct<T, K(==)>(key: T -> K, s: seq<T>)
  {
    forall i, j :: 0 <= i < j < |s| ==> key(s[i]) != key(s[j])
  }

  lemma KeysDistinctCons<T, K>(key: T -> K, x: T, t: seq<T>)
    requires KeysDistinct(key, t)
    requires forall y :: y in t ==> key(y) != key(x)
    ensures KeysDistinct(key, [x] + t)
  {
    var r := [x] + t;
    forall i, j | 0 <= i < j < |r|
      ensures key(r[i]) != key(r[j])
    {
      assert r[j] == t[j - 1];
      if i > 0 {
        assert r[i] == t[i - 1];
      }
    }
  }

  /** Filtering keeps a key that no two elements share unshared. */
  lemma {:induction false} FilterKeysDistinct<T(!new), K>(p: T -> bool, key: T -> K, s: seq<T>)
    requires KeysDistinct(key, s)
    ensures KeysDistinct(key, Filter(p, s))
    decreases |s|
  {
    if s != [] {
      var tail := s[1..];
      assert KeysDistinct(key, tail) by {
        forall i, j | 0 <= i < j < |tail|
          ensures key(tail[i]) != key(tail[j])
        {
          assert tail[i] == s[i + 1] && tail[j] == s[j + 1];
        }
      }
      FilterKeysDistinct(p, key, tail);
      if p(s[0]) {
        forall y | y in Filter(p, tail)
          ensures key(y) != key(s[0])
        {
          var j :| 0 <= j < |tail| && tail[j] == y;
          assert s[j + 1] == y;
        }
        KeysDistinctCons(key, s[0], Filter(p, tail));
      }
    }
  }

  /** A set of keys holds at least as many keys as there are elements with pairwise different keys in it. */
  lemma {:induction false} DistinctKeysBounded<T, K>(key: T -> K, s: seq<T>, keys: set<K>)
    requires KeysDistinct(key, s)
    requires forall i :: 0 <= i < |s| ==> key(s[i]) in keys
    ensures |s| <= |keys|
    decreases |s|
  {
    if s != [] {
      var rest := s[1..];
      forall i | 0 <= i < |rest|
        ensures key(rest[i]) in keys - {key(s[0])}
      {
        assert rest[i] == s[i + 1];
      }
      assert KeysDistinct(key, rest) by {
        forall i, j | 0 <= i < j < |rest|
          ensures key(rest[i]) != key(rest[j])
        {
          assert rest[i] == s[i + 1] && rest[j] == s[j + 1];
        }
      }
      DistinctKeysBounded(key, rest, keys - {key(s[0])});
    }
  }

  /** A weaker test keeps at least as many elements. */
  lemma {:induction false} FilterMonotone<T(!new)>(p: T -> bool, q: T -> bool, s: seq<T>)
    requires forall x :: p(x) ==> q(x)
    ensures |Filter(p, s)| <= |Filter(q, s)|
    decreases |s|
  {
    if s != [] {
      FilterMonotone(p, q, s[1..]);
    }
  }

  /** Two tests that never hold together split the elements their disjunction keeps. */
  lemma {:induction false} FilterSplit<T(!new)>(p: T -> bool, q: T -> bool, pq: T -> bool, s: seq<T>)
    requires forall x :: pq(x) == (p(x) || q(x))
    requires forall x :: !(p(x) && q(x))
    ensures |Filter(p, s)| + |Filter(q, s)| == |Filter(pq, s)|
    decreases |s|
  {
    if s != [] {
      FilterSplit(p, q, pq, s[1..]);
    }
  }

  /** The distinct elements of `s` in the order of their first occurrence. */
  function FirstOccurrences<T(==,!new)>(s: seq<T>): (r: seq<T>)
    ensures Distinct(r)
    ensures forall x :: x in r <==> x in s
  {
    if s == [] then []
    else
      var r' := FirstOccurrences(s[..|s| - 1]);
      if s[|s| - 1] in r' then r' else r' + [s[|s| - 1]]
  }

  /** One more element: it joins the first occurrences unless it was seen already. */
  lemma FirstOccurrencesAppend<T(!new)>(s: seq<T>, x: T)
    ensures FirstOccurrences(s + [x]) == if x in s then FirstOccurrences(s) else FirstOccurrences(s) + [x]
  {
    assert (s + [x])[..|s|] == s;
  }

  /** Every occurrence of `y` in `s` comes after an occurrence of `x`. */
  predicate SeenBefore<T(==)>(x: T, y: T, s: seq<T>)
  {
    forall k :: 0 <= k < |s| && s[k] == y ==> x in s[..k]
  }

  /** The first occurrences keep the order in which `s` first shows each element. */
  lemma {:induction false} FirstOccurrencesOrdered<T(!new)>(s: seq<T>)
    ensures forall i, j :: 0 <= i < j < |FirstOccurrences(s)| ==>
              SeenBefore(FirstOccurrences(s)[i], FirstOccurrences(s)[j], s)
  {
    if s != [] {
      var s', x := s[..|s| - 1], s[|s| - 1];
      assert s == s' + [x];
      FirstOccurrencesOrdered(s');
      FirstOccurrencesAppend(s', x);
      var r', r := FirstOccurrences(s'), FirstOccurrences(s);
      forall i, j | 0 <= i < j < |r|
        ensures SeenBefore(r[i], r[j], s)
      {
        assert r[i] in r' && r[i] in s';
        forall k | 0 <= k < |s| && s[k] == r[j]
          ensures r[i] in s[..k]
        {
          if k < |s'| {
            assert SeenBefore(r'[i], r'[j], s');
            assert s'[k] == s[k];
            assert s'[..k] == s[..k];
          } else if x in s' {
            var k' :| 0 <= k' < |s'| && s'[k'] == x;
            assert SeenBefore(r'[i], r'[j], s');
            assert s'[..k'] == s[..k'];
            assert s[..k'] <= s[..k];
          } else {
            assert s[..k] == s';
          }
        }
      }
    }
  }

  /** `Array.prototype.findIndex`: the first index satisfying `p`, or -1. */
  function FirstIndex<T>(p: T -> bool, s: seq<T>): (r: int)
    ensures -1 <= r < |s|
    ensures r == -1 <==> forall i :: 0 <= i < |s| ==> !p(s[i])
    ensures r >= 0 ==> p(s[r]) && forall j :: 0 <= j < r ==> !p(s[j])
    decreases |s|
  {
    if s == [] then -1
    else if p(s[0]) then 0
    else
      var k := FirstIndex(p, s[1..]);
      if k == -1 then -1 else k + 1
  }

  /** `Array.prototype.find`: the first element satisfying `p`, if any. */
  function Find<T(!new)>(p: T -> bool, s: seq<T>): (r: Option<T>)
    ensures r.None? <==> forall x :: x in s ==> !p(x)
    ensures r.Some? ==> r.value in s && p(r.value)
  {
    var k := FirstIndex(p, s);
    if k == -1 then None else Some(s[k])
  }

  /** `slice(-n)` for `n > 0`: the last `min(n, |s|)` elements. */
  function TakeLast<T>(s: seq<T>, n: nat): (r: seq<T>)
    ensures |r| == if |s| < n then |s| else n
    ensures forall i :: 0 <= i < |r| ==> r[i] == s[|s| - |r| + i]
  {
    if |s| <= n then s else s[|s| - n..]
  }

  /** The reverse of a sequence, peeling off the last element. */
  function Reverse<T>(s: seq<T>): (r: seq<T>)
    ensures |r| == |s|
    ensures forall i :: 0 <= i < |s| ==> r[i] == s[|s| - 1 - i]
  {
    if s == [] then [] else [s[|s| - 1]] + Reverse(s[..|s| - 1])
  }

  /** No element occurs twice. */
  predicate Distinct<T(==)>(s: seq<T>)
  {
    forall i, j :: 0 <= i < j < |s| ==> s[i] != s[j]
  }

  /** Appending an element not yet present keeps a sequence free of repetitions. */
  lemma DistinctAppend<T>(s: seq<T>, x: T)
    requires Distinct(s) && x !in s
    ensures Distinct(s + [x])
  {
    var r := s + [x];
    forall i, j | 0 <= i < j < |r|
      ensures r[i] != r[j]
    {
      assert r[i] == s[i];
    }
  }

  /** A sequence has at least as many positions as distinct elements. */
  lemma {:induction false} SetCardinalityAtMostLength<T>(s: seq<T>)
    ensures |set x | x in s| <= |s|
    decreases |s|
  {
    if s != [] {
      SetCardinalityAtMostLength(s[1..]);
      assert (set x | x in s) == {s[0]} + (set x | x in s[1..]);
    }
  }

  /** For a sequence without repetitions the two coincide. */
  lemma {:induction false} DistinctSetCardinality<T>(s: seq<T>)
    requires Distinct(s)
    ensures |set x | x in s| == |s|
    decreases |s|
  {
    if s != [] {
      DistinctSetCardinality(s[1..]);
      assert (set x | x in s) == {s[0]} + (set x | x in s[1..]);
      assert s[0] !in s[1..];
    }
  }
}
