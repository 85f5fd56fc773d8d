/**
  Small helpers shared by every module of the model: an Option type and sums
  over sequences, including the "sum of the group sums is the total" fact that
  every grouping report of the server relies on.
 */
module Common {

  datatype Option<T> = None | Some(value: T)

  /** The sum of f over the elements of s. */
  function SumOf<T>(s: seq<T>, f: T -> real): real
  {
    if s == [] then 0.0 else SumOf(s[..|s| - 1], f) + f(s[|s| - 1])
  }

  lemma {:induction false} SumOfAppend<T>(a: seq<T>, b: seq<T>, f: T -> real)
    ensures SumOf(a + b, f) == SumOf(a, f) + SumOf(b, f)
    decreases |b|
  {
    if b != [] {
      assert (a + b)[..|a + b| - 1] == a + b[..|b| - 1];
      SumOfAppend(a, b[..|b| - 1], f);
    } else {
      assert a + b == a;
    }
  }

  /** One more element of s adds its value to the running sum. */
  lemma SumOfStep<T>(s: seq<T>, i: nat, f: T -> real)
    requires i < |s|
    ensures SumOf(s[..i + 1], f) == SumOf(s[..i], f) + f(s[i])
  {
    assert s[..i + 1][..i] == s[..i];
  }

  /** The elements of s that satisfy p, in their order (`Array.prototype.filter`). */
  function Filter<T>(s: seq<T>, p: T -> bool): (r: seq<T>)
    ensures |r| <= |s|
    ensures forall i :: 0 <= i < |r| ==> r[i] in s && p(r[i])
    ensures forall i :: 0 <= i < |s| && p(s[i]) ==> s[i] in r
  {
    if s == [] then [] else Filter(s[..|s| - 1], p) + (if p(s[|s| - 1]) then [s[|s| - 1]] else [])
  }

  /** The filter holds exactly the elements of s that satisfy p. */
  lemma FilterMembers<T>(s: seq<T>, p: T -> bool)
    ensures forall x :: x in Filter(s, p) <==> x in s && p(x)
  {
    forall x | x in s && p(x) ensures x in Filter(s, p) {
      var i :| 0 <= i < |s| && s[i] == x;
    }
  }

  /** A filter keeps distinct elements distinct. */
  lemma {:induction false} FilterDistinct<T>(s: seq<T>, p: T -> bool)
    requires Distinct(s)
    ensures Distinct(Filter(s, p))
  {
    if s != [] {
      var init := s[..|s| - 1];
      assert Distinct(init);
      FilterDistinct(init, p);
      var x := s[|s| - 1];
      if p(x) {
        var r := Filter(s, p);
        forall i | 0 <= i < |r| - 1 ensures r[i] != x {
          assert r[i] in init;
        }
      }
    }
  }

  /** A filter drops exactly the elements that fail its predicate. */
  lemma {:induction false} FilterCount<T>(s: seq<T>, p: T -> bool)
    ensures |Filter(s, p)| + CountWhere(s, p, false) == |s|
  {
    if s != [] {
      FilterCount(s[..|s| - 1], p);
    }
  }

  /** The sum of f over the elements of s whose key is k. */
  function SumWhere<T, K(==)>(s: seq<T>, key: T -> K, k: K, f: T -> real): real
  {
    if s == [] then 0.0
    else SumWhere(s[..|s| - 1], key, k, f) + (if key(s[|s| - 1]) == k then f(s[|s| - 1]) else 0.0)
  }

  /** The number of elements of s whose key is k. */
  function CountWhere<T, K(==)>(s: seq<T>, key: T -> K, k: K): nat
  {
    if s == [] then 0
    else CountWhere(s[..|s| - 1], key, k) + (if key(s[|s| - 1]) == k then 1 else 0)
  }

  predicate Distinct<K(==)>(ks: seq<K>)
  {
    forall i, j :: 0 <= i < j < |ks| ==> ks[i] != ks[j]
  }

  /**
    The keys of the elements of s, each once, in the order of their first
    occurrence (the order in which a JavaScript object acquires its keys).
   */
  function KeysInOrder<T, K(==)>(s: seq<T>, key: T -> K): (ks: seq<K>)
    ensures Distinct(ks)
  {
    if s == [] then []
    else
      var prev := KeysInOrder(s[..|s| - 1], key);
      var x := s[|s| - 1];
      if key(x) in prev then prev else prev + [key(x)]
  }

  /** The keys listed are exactly the keys of the elements. */
  lemma {:induction false} KeysInOrderMembers<T, K>(s: seq<T>, key: T -> K)
    ensures forall i :: 0 <= i < |s| ==> key(s[i]) in KeysInOrder(s, key)
    ensures forall k :: k in KeysInOrder(s, key) ==> exists i :: 0 <= i < |s| && key(s[i]) == k
  {
    if s != [] {
      var init := s[..|s| - 1];
      KeysInOrderMembers(init, key);
      assert forall i :: 0 <= i < |init| ==> init[i] == s[i];
    }
  }

  /**
    The per-key sums of f, built one element at a time the way a JavaScript
    object accumulates `o[k] = (o[k] || 0) + f(x)`.
   */
  function GroupSums<T, K(==)>(s: seq<T>, key: T -> K, f: T -> real): map<K, real>
  {
    if s == [] then map[]
    else
      var m := GroupSums(s[..|s| - 1], key, f);
      var x := s[|s| - 1];
      m[key(x) := (if key(x) in m then m[key(x)] else 0.0) + f(x)]
  }

  /** The accumulated object holds k exactly when k was seen, and then with the sum of k's group. */
  lemma {:induction false} GroupSumsAt<T, K>(s: seq<T>, key: T -> K, f: T -> real, k: K)
    ensures k in GroupSums(s, key, f) <==> k in KeysInOrder(s, key)
    ensures k in GroupSums(s, key, f) ==> GroupSums(s, key, f)[k] == SumWhere(s, key, k, f)
  {
    if s != [] {
      var init, x := s[..|s| - 1], s[|s| - 1];
      GroupSumsAt(init, key, f, k);
      if key(x) == k && k !in GroupSums(init, key, f) {
        KeysInOrderMembers(init, key);
        forall i | 0 <= i < |init| ensures key(init[i]) != k {
          assert key(init[i]) in KeysInOrder(init, key);
        }
        SumWhereAbsent(init, key, k, f);
      }
    }
  }

  /** The accumulated object holds exactly the keys seen, each with the sum of its group. */
  lemma GroupSumsTotals<T, K>(s: seq<T>, key: T -> K, f: T -> real)
    ensures forall k :: k in GroupSums(s, key, f) <==> k in KeysInOrder(s, key)
    ensures forall k :: k in GroupSums(s, key, f) ==> GroupSums(s, key, f)[k] == SumWhere(s, key, k, f)
  {
    forall k {
      GroupSumsAt(s, key, f, k);
    }
  }

  /** One more element: its value added under its key, and the key listed when new. */
  lemma GroupSumsSnoc<T, K>(s: seq<T>, x: T, key: T -> K, f: T -> real)
    ensures var m := GroupSums(s, key, f);
      GroupSums(s + [x], key, f) == m[key(x) := (if key(x) in m then m[key(x)] else 0.0) + f(x)]
    ensures KeysInOrder(s + [x], key)
         == if key(x) in GroupSums(s, key, f) then KeysInOrder(s, key) else KeysInOrder(s, key) + [key(x)]
  {
    assert (s + [x])[..|s|] == s;
    GroupSumsTotals(s, key, f);
  }

  /** The sum, over the keys ks, of the group sums of f. */
  function SumOverKeys<T, K(==)>(ks: seq<K>, s: seq<T>, key: T -> K, f: T -> real): real
  {
    if ks == [] then 0.0
    else SumOverKeys(ks[..|ks| - 1], s, key, f) + SumWhere(s, key, ks[|ks| - 1], f)
  }

  lemma {:induction false} SumWhereAbsent<T, K>(s: seq<T>, key: T -> K, k: K, f: T -> real)
    requires forall i :: 0 <= i < |s| ==> key(s[i]) != k
    ensures SumWhere(s, key, k, f) == 0.0
  {
    if s != [] {
      assert forall i :: 0 <= i < |s| - 1 ==> s[..|s| - 1][i] == s[i];
      SumWhereAbsent(s[..|s| - 1], key, k, f);
    }
  }

  /** Adding one element x to s adds f(x) to exactly the group of key(x). */
  lemma {:induction false} SumOverKeysSnoc<T, K>(ks: seq<K>, s: seq<T>, x: T, key: T -> K, f: T -> real)
    requires Distinct(ks)
    ensures SumOverKeys(ks, s + [x], key, f)
         == SumOverKeys(ks, s, key, f) + (if key(x) in ks then f(x) else 0.0)
  {
    assert (s + [x])[..|s + [x]| - 1] == s;
    if ks != [] {
      var init := ks[..|ks| - 1];
      assert Distinct(init);
      SumOverKeysSnoc(init, s, x, key, f);
      assert key(x) in ks <==> key(x) in init || key(x) == ks[|ks| - 1];
      assert key(x) in init ==> key(x) != ks[|ks| - 1];
    }
  }

  /** Summing the group sums over all the keys gives the plain total. */
  lemma {:induction false} SumOverKeysPartition<T, K>(s: seq<T>, key: T -> K, f: T -> real)
    ensures SumOverKeys(KeysInOrder(s, key), s, key, f) == SumOf(s, f)
  {
    if s != [] {
      var s' := s[..|s| - 1];
      var x := s[|s| - 1];
      assert s == s' + [x];
      var prev := KeysInOrder(s', key);
      SumOverKeysPartition(s', key, f);
      SumOverKeysSnoc(prev, s', x, key, f);
      KeysInOrderMembers(s', key);
      if key(x) !in prev {
        var ks := prev + [key(x)];
        assert ks[..|ks| - 1] == prev;
        forall i | 0 <= i < |s'| ensures key(s'[i]) != key(x) {
          assert key(s'[i]) in prev;
        }
        SumWhereAbsent(s', key, key(x), f);
      }
    }
  }

  lemma SumOfSnoc<T>(p: seq<T>, x: T, f: T -> real)
    ensures SumOf(p + [x], f) == SumOf(p, f) + f(x)
  {
    assert (p + [x])[..|p|] == p;
  }

  /** One more element of `rows` taken into a running prefix. */
  lemma PrefixStep<T>(seen: seq<T>, rows: seq<T>, j: nat)
    requires j < |rows|
    ensures seen + rows[..j + 1] == (seen + rows[..j]) + [rows[j]]
  {
    assert rows[..j + 1] == rows[..j] + [rows[j]];
  }

  /** Taking out the element at k takes its value out of the sum. */
  lemma SumOfRemove<T>(s: seq<T>, k: nat, f: T -> real)
    requires k < |s|
    ensures SumOf(s, f) == SumOf(s[..k] + s[k + 1..], f) + f(s[k])
  {
    var p, x, q := s[..k], s[k], s[k + 1..];
    assert s == (p + [x]) + q;
    SumOfAppend(p + [x], q, f);
    SumOfSnoc(p, x, f);
    SumOfAppend(p, q, f);
  }

  lemma MultisetRemove<T>(s: seq<T>, k: nat)
    requires k < |s|
    ensures multiset(s[..k] + s[k + 1..]) + multiset{s[k]} == multiset(s)
  {
    assert s == s[..k] + [s[k]] + s[k + 1..];
  }

  /** The last element of a is somewhere in its permutation b, and the rests are permutations too. */
  lemma MatchLast<T>(a: seq<T>, b: seq<T>) returns (k: nat)
    requires a != [] && multiset(a) == multiset(b)
    ensures k < |b| && b[k] == a[|a| - 1]
    ensures multiset(a[..|a| - 1]) == multiset(b[..k] + b[k + 1..])
  {
    var x := a[|a| - 1];
    assert a == a[..|a| - 1] + [x];
    assert x in multiset(b);
    k :| 0 <= k < |b| && b[k] == x;
    MultisetRemove(b, k);
    assert multiset(a[..|a| - 1]) == multiset(a) - multiset{x};
  }

  /** A sum does not depend on the order of the elements. */
  lemma {:induction false} SumOfPermutation<T>(a: seq<T>, b: seq<T>, f: T -> real)
    requires multiset(a) == multiset(b)
    ensures SumOf(a, f) == SumOf(b, f)
    decreases |a|
  {
    if a == [] {
      assert |b| == |multiset(b)| == 0;
    } else {
      var k := MatchLast(a, b);
      SumOfPermutation(a[..|a| - 1], b[..k] + b[k + 1..], f);
      SumOfRemove(b, k, f);
    }
  }

  /** Each element of a sequence without repeats occurs in it once. */
  lemma {:induction false} DistinctCountsOne<T>(s: seq<T>, x: T)
    requires Distinct(s)
    ensures multiset(s)[x] <= 1
    decreases |s|
  {
    if s != [] {
      var s' := s[..|s| - 1];
      assert s == s' + [s[|s| - 1]];
      assert Distinct(s');
      DistinctCountsOne(s', x);
      if x == s[|s| - 1] {
        assert x !in s';
      }
    }
  }

  /** A permutation of a sequence without repeats has none either. */
  lemma DistinctPermutation<T>(a: seq<T>, b: seq<T>)
    requires multiset(a) == multiset(b) && Distinct(a)
    ensures Distinct(b)
  {
    forall i, j | 0 <= i < j < |b| ensures b[i] != b[j] {
      if b[i] == b[j] {
        assert b == b[..j] + b[j..];
        assert b[i] in b[..j] && b[j] in b[j..];
        assert multiset(b)[b[i]] == multiset(b[..j])[b[i]] + multiset(b[j..])[b[i]];
        DistinctCountsOne(a, b[i]);
        assert false;
      }
    }
  }

  /** Summing a difference is the difference of the sums. */
  lemma {:induction false} SumOfDifference<T>(s: seq<T>, f: T -> real, g: T -> real, h: T -> real)
    requires forall x :: h(x) == f(x) - g(x)
    ensures SumOf(s, h) == SumOf(s, f) - SumOf(s, g)
    decreases |s|
  {
    if s != [] {
      SumOfDifference(s[..|s| - 1], f, g, h);
    }
  }
}
