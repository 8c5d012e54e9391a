/**
 * Python's `sorted(xs, key=k, reverse=True)` and `xs.sort(key=k, reverse=True)`:
 * a stable sort into non-increasing key order. Elements with equal keys keep
 * their original relative order.
 */
module StableSort {

  ghost predicate SortedDesc<T>(s: seq<T>, key: T -> real) {
    forall i, j :: 0 <= i < j < |s| ==> key(s[i]) >= key(s[j])
  }

  /** The elements of `s` whose key is `k`, in their order in `s`. */
  function WithKey<T>(s: seq<T>, key: T -> real, k: real): (r: seq<T>)
    ensures |r| <= |s|
  {
    if s == [] then []
    else WithKey(s[..|s| - 1], key, k) + (if key(s[|s| - 1]) == k then [s[|s| - 1]] else [])
  }

  /** Where `x` goes in the sorted `s`: after every element whose key is at
      least `x`'s, so that an element sorted later never overtakes an equal one. */
  function InsertPos<T>(x: T, s: seq<T>, key: T -> real): (p: nat)
    ensures p <= |s|
    ensures forall i :: 0 <= i < p ==> key(s[i]) >= key(x)
    ensures p < |s| ==> key(s[p]) < key(x)
  {
    if s == [] || key(s[0]) < key(x) then 0 else 1 + InsertPos(x, s[1..], key)
  }

  function Insert<T>(x: T, s: seq<T>, key: T -> real): seq<T> {
    var p := InsertPos(x, s, key);
    s[..p] + [x] + s[p..]
  }

  function SortDesc<T>(s: seq<T>, key: T -> real): (r: seq<T>)
    ensures |r| == |s|
  {
    if s == [] then [] else Insert(s[|s| - 1], SortDesc(s[..|s| - 1], key), key)
  }

  lemma {:induction false} InsertSorted<T>(x: T, s: seq<T>, key: T -> real)
    requires SortedDesc(s, key)
    ensures SortedDesc(Insert(x, s, key), key)
  {
    var p := InsertPos(x, s, key);
    var r := Insert(x, s, key);
    forall i, j | 0 <= i < j < |r| ensures key(r[i]) >= key(r[j]) {
      if j < p {
      } else if j == p {
        assert r[i] == s[i];
      } else if i < p {
        assert r[j] == s[j - 1];
      } else if i == p {
        assert r[j] == s[j - 1];
        assert key(s[p]) >= key(s[j - 1]);
      } else {
        assert r[i] == s[i - 1] && r[j] == s[j - 1];
      }
    }
  }

  /** The result is in non-increasing key order. */
  lemma {:induction false} SortDescSorted<T>(s: seq<T>, key: T -> real)
    ensures SortedDesc(SortDesc(s, key), key)
  {
    if s != [] {
      SortDescSorted(s[..|s| - 1], key);
      InsertSorted(s[|s| - 1], SortDesc(s[..|s| - 1], key), key);
    }
  }

  /** The result is a permutation of the input. */
  lemma {:induction false} SortDescPermutation<T>(s: seq<T>, key: T -> real)
    ensures multiset(SortDesc(s, key)) == multiset(s)
  {
    if s != [] {
      var init := s[..|s| - 1];
      SortDescPermutation(init, key);
      var t := SortDesc(init, key);
      var p := InsertPos(s[|s| - 1], t, key);
      assert t == t[..p] + t[p..];
      assert s == init + [s[|s| - 1]];
    }
  }

  lemma {:induction false} WithKeyAppend<T>(a: seq<T>, b: seq<T>, key: T -> real, k: real)
    ensures WithKey(a + b, key, k) == WithKey(a, key, k) + WithKey(b, key, k)
    decreases |b|
  {
    if b == [] {
      assert a + b == a;
    } else {
      assert (a + b)[..|a + b| - 1] == a + b[..|b| - 1];
      WithKeyAppend(a, b[..|b| - 1], key, k);
    }
  }

  lemma {:induction false} WithKeyNone<T>(s: seq<T>, key: T -> real, k: real)
    requires forall i :: 0 <= i < |s| ==> key(s[i]) != k
    ensures WithKey(s, key, k) == []
  {
    if s != [] {
      WithKeyNone(s[..|s| - 1], key, k);
    }
  }

  lemma {:induction false} WithKeySingle<T>(x: T, key: T -> real, k: real)
    ensures WithKey([x], key, k) == if key(x) == k then [x] else []
  {
    assert [x][..0] == [];
  }

  /** Behind the insertion point no key equals the inserted one. */
  lemma {:induction false} InsertTailBelow<T>(x: T, t: seq<T>, key: T -> real)
    requires SortedDesc(t, key)
    ensures WithKey(t[InsertPos(x, t, key)..], key, key(x)) == []
  {
    var p := InsertPos(x, t, key);
    var b := t[p..];
    forall i | 0 <= i < |b| ensures key(b[i]) != key(x) {
      assert b[i] == t[p + i];
      assert key(t[p]) >= key(t[p + i]);
    }
    WithKeyNone(b, key, key(x));
  }

  /** Filtering the sequence with `x` inserted at `p`, piece by piece. */
  lemma {:induction false} WithKeyAt<T>(x: T, t: seq<T>, p: nat, key: T -> real, k: real)
    requires p <= |t|
    ensures WithKey(t[..p] + [x] + t[p..], key, k) == WithKey(t[..p], key, k) + WithKey([x], key, k) + WithKey(t[p..], key, k)
  {
    WithKeyAppend(t[..p] + [x], t[p..], key, k);
    WithKeyAppend(t[..p], [x], key, k);
  }

  /** Filtering the sequence with `x` appended, with the sequence cut at `p`. */
  lemma {:induction false} WithKeyEnd<T>(x: T, t: seq<T>, p: nat, key: T -> real, k: real)
    requires p <= |t|
    ensures WithKey(t + [x], key, k) == WithKey(t[..p], key, k) + WithKey(t[p..], key, k) + WithKey([x], key, k)
  {
    assert t == t[..p] + t[p..];
    WithKeyAppend(t, [x], key, k);
    WithKeyAppend(t[..p], t[p..], key, k);
  }

  lemma {:induction false} WithKeyInsert<T>(x: T, t: seq<T>, key: T -> real, k: real)
    requires SortedDesc(t, key)
    ensures WithKey(Insert(x, t, key), key, k) == WithKey(t + [x], key, k)
  {
    var p := InsertPos(x, t, key);
    WithKeyAt(x, t, p, key, k);
    WithKeyEnd(x, t, p, key, k);
    WithKeySingle(x, key, k);
    if key(x) == k {
      InsertTailBelow(x, t, key);
    }
  }

  /** Stability: for every key value, the elements with that key appear in
      the result in the same order as in the input. */
  lemma {:induction false} SortDescStable<T>(s: seq<T>, key: T -> real, k: real)
    ensures WithKey(SortDesc(s, key), key, k) == WithKey(s, key, k)
  {
    if s != [] {
      var init := s[..|s| - 1];
      SortDescStable(init, key, k);
      SortDescSorted(init, key);
      WithKeyInsert(s[|s| - 1], SortDesc(init, key), key, k);
      WithKeyAppend(SortDesc(init, key), [s[|s| - 1]], key, k);
      WithKeyAppend(init, [s[|s| - 1]], key, k);
      assert s == init + [s[|s| - 1]];
    }
  }

  /** Every element of the result is an element of the input and vice versa. */
  lemma {:induction false} SortDescSameElements<T>(s: seq<T>, key: T -> real)
    ensures forall x :: x in SortDesc(s, key) <==> x in s
  {
    SortDescPermutation(s, key);
    forall x ensures x in SortDesc(s, key) <==> x in s {
      assert x in SortDesc(s, key) <==> x in multiset(SortDesc(s, key));
      assert x in s <==> x in multiset(s);
    }
  }
}
