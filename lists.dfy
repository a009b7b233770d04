/**
 * The list operations that the store, the event bus and the notes pages
 * build with `Array.prototype.filter`, `map` and `findIndex`:
 * removing every occurrence of a value, and, for a key such as a record's id,
 * removing every element with that key, replacing every element with that
 * key, and finding the first position with that key.
 */
module Lists {

  /** `s.filter(e => e !== x)` */
  function Without<T(==)>(s: seq<T>, x: T): (r: seq<T>)
    ensures |r| <= |s|
  {
    if s == [] then [] else (if s[0] == x then [] else [s[0]]) + Without(s[1..], x)
  }

  /** Exactly the occurrences of `x` go; every other value keeps its number of occurrences. */
  lemma {:induction false} WithoutCounts<T>(s: seq<T>, x: T)
    ensures multiset(Without(s, x))[x] == 0
    ensures forall y :: y != x ==> multiset(Without(s, x))[y] == multiset(s)[y]
  {
    if s != [] {
      var rest := Without(s[1..], x);
      WithoutCounts(s[1..], x);
      assert multiset(s) == multiset{s[0]} + multiset(s[1..]) by {
        assert s == [s[0]] + s[1..];
      }
      if s[0] == x {
        assert Without(s, x) == rest;
      } else {
        assert multiset(Without(s, x)) == multiset{s[0]} + multiset(rest) by {
          assert Without(s, x) == [s[0]] + rest;
        }
      }
    }
  }

  /** The survivors keep their relative order: filtering distributes over concatenation. */
  lemma {:induction false} WithoutAppend<T>(a: seq<T>, b: seq<T>, x: T)
    ensures Without(a + b, x) == Without(a, x) + Without(b, x)
  {
    if a == [] {
      assert a + b == b;
    } else {
      assert (a + b)[0] == a[0] && (a + b)[1..] == a[1..] + b;
      WithoutAppend(a[1..], b, x);
    }
  }

  /** Removing a value that does not occur changes nothing. */
  lemma {:induction false} WithoutAbsent<T>(s: seq<T>, x: T)
    requires x !in s
    ensures Without(s, x) == s
  {
    if s != [] {
      WithoutAbsent(s[1..], x);
    }
  }

  /** Removing the same value twice is the same as removing it once. */
  lemma WithoutIdempotent<T>(s: seq<T>, x: T)
    ensures Without(Without(s, x), x) == Without(s, x)
  {
    WithoutCounts(s, x);
    WithoutAbsent(Without(s, x), x);
  }

  /** `s.findIndex(e => key(e) === k)`: the first position whose key is `k`, or -1. */
  function IndexOfKey<T, K(==)>(s: seq<T>, key: T -> K, k: K): (r: int)
    ensures -1 <= r < |s|
    ensures r == -1 <==> forall i :: 0 <= i < |s| ==> key(s[i]) != k
    ensures r >= 0 ==> key(s[r]) == k && forall j :: 0 <= j < r ==> key(s[j]) != k
  {
    if s == [] then -1
    else if key(s[0]) == k then 0
    else
      var i := IndexOfKey(s[1..], key, k);
      if i == -1 then -1 else i + 1
  }

  /** `s.filter(e => key(e) !== k)` */
  function RemoveByKey<T, K(==)>(s: seq<T>, key: T -> K, k: K): (r: seq<T>)
    ensures |r| <= |s|
  {
    if s == [] then [] else (if key(s[0]) == k then [] else [s[0]]) + RemoveByKey(s[1..], key, k)
  }

  /** `s.map(e => key(e) === key(x) ? x : e)` */
  function ReplaceByKey<T, K(==)>(s: seq<T>, key: T -> K, x: T): (r: seq<T>)
    ensures |r| == |s|
  {
    if s == [] then [] else [if key(s[0]) == key(x) then x else s[0]] + ReplaceByKey(s[1..], key, x)
  }

  /** Some element of `s` carries the key `k`. */
  predicate HasKey<T, K(==)>(s: seq<T>, key: T -> K, k: K) {
    exists i :: 0 <= i < |s| && key(s[i]) == k
  }

  /** No two elements of `s` carry the same key. */
  ghost predicate DistinctKeys<T, K>(s: seq<T>, key: T -> K) {
    forall i, j :: 0 <= i < j < |s| ==> key(s[i]) != key(s[j])
  }

  /** After the removal no element carries `k`, and every element with another key keeps its number of occurrences. */
  lemma {:induction false} RemoveByKeyCounts<T, K>(s: seq<T>, key: T -> K, k: K)
    ensures !HasKey(RemoveByKey(s, key, k), key, k)
    ensures forall e :: multiset(RemoveByKey(s, key, k))[e] == if key(e) == k then 0 else multiset(s)[e]
  {
    if s != [] {
      RemoveByKeyCounts(s[1..], key, k);
      assert multiset(s) == multiset{s[0]} + multiset(s[1..]) by {
        assert s == [s[0]] + s[1..];
      }
      var r := RemoveByKey(s, key, k);
      var rest := RemoveByKey(s[1..], key, k);
      if key(s[0]) == k {
        assert r == rest;
      } else {
        assert r == [s[0]] + rest;
        assert multiset(r) == multiset{s[0]} + multiset(rest);
        forall i | 0 <= i < |r| ensures key(r[i]) != k {
          if i > 0 {
            assert r[i] == rest[i - 1];
          }
        }
      }
    }
  }

  /** The survivors keep their relative order: the removal distributes over concatenation. */
  lemma {:induction false} RemoveByKeyAppend<T, K>(a: seq<T>, b: seq<T>, key: T -> K, k: K)
    ensures RemoveByKey(a + b, key, k) == RemoveByKey(a, key, k) + RemoveByKey(b, key, k)
  {
    if a == [] {
      assert a + b == b;
    } else {
      assert (a + b)[0] == a[0] && (a + b)[1..] == a[1..] + b;
      RemoveByKeyAppend(a[1..], b, key, k);
    }
  }

  /** Removing a key that no element carries changes nothing. */
  lemma {:induction false} RemoveByKeyAbsent<T, K>(s: seq<T>, key: T -> K, k: K)
    requires !HasKey(s, key, k)
    ensures RemoveByKey(s, key, k) == s
  {
    if s != [] {
      assert key(s[0]) != k;
      forall i | 0 <= i < |s[1..]| ensures key(s[1..][i]) != k {
        assert s[1..][i] == s[i + 1];
      }
      RemoveByKeyAbsent(s[1..], key, k);
    }
  }

  /** Removing the same key twice is the same as removing it once. */
  lemma RemoveByKeyIdempotent<T, K>(s: seq<T>, key: T -> K, k: K)
    ensures RemoveByKey(RemoveByKey(s, key, k), key, k) == RemoveByKey(s, key, k)
  {
    RemoveByKeyCounts(s, key, k);
    RemoveByKeyAbsent(RemoveByKey(s, key, k), key, k);
  }

  /** Every element of the result comes from `s`. */
  lemma {:induction false} RemoveByKeyFrom<T, K>(s: seq<T>, key: T -> K, k: K)
    ensures forall e :: e in RemoveByKey(s, key, k) ==> e in s
  {
    if s != [] {
      RemoveByKeyFrom(s[1..], key, k);
    }
  }

  /** An element survives removal exactly when it was in `s` with another key. */
  lemma {:induction false} RemoveByKeyElements<T, K>(s: seq<T>, key: T -> K, k: K)
    ensures forall e :: e in RemoveByKey(s, key, k) <==> e in s && key(e) != k
  {
    RemoveByKeyCounts(s, key, k);
  }

  /** Removal keeps the keys distinct. */
  lemma {:induction false} RemoveByKeyDistinct<T, K>(s: seq<T>, key: T -> K, k: K)
    requires DistinctKeys(s, key)
    ensures DistinctKeys(RemoveByKey(s, key, k), key)
  {
    if s != [] {
      var rest := RemoveByKey(s[1..], key, k);
      assert DistinctKeys(s[1..], key) by {
        forall i, j | 0 <= i < j < |s[1..]| ensures key(s[1..][i]) != key(s[1..][j]) {
          assert s[1..][i] == s[i + 1] && s[1..][j] == s[j + 1];
        }
      }
      RemoveByKeyDistinct(s[1..], key, k);
      RemoveByKeyFrom(s[1..], key, k);
      if key(s[0]) != k {
        var r := [s[0]] + rest;
        forall i, j | 0 <= i < j < |r| ensures key(r[i]) != key(r[j]) {
          if i == 0 {
            assert r[j] == rest[j - 1] && rest[j - 1] in s[1..];
            var m :| 0 <= m < |s[1..]| && s[1..][m] == rest[j - 1];
            assert s[m + 1] == r[j];
          } else {
            assert r[i] == rest[i - 1] && r[j] == rest[j - 1];
          }
        }
      }
    }
  }

  /** Element by element, the replacement is `map` with the id test. */
  lemma {:induction false} ReplaceByKeyAt<T, K>(s: seq<T>, key: T -> K, x: T, i: int)
    requires 0 <= i < |s|
    ensures ReplaceByKey(s, key, x)[i] == if key(s[i]) == key(x) then x else s[i]
  {
    if i > 0 {
      ReplaceByKeyAt(s[1..], key, x, i - 1);
    }
  }

  /** The replacement keeps the key at every position. */
  lemma ReplaceByKeyKeys<T, K>(s: seq<T>, key: T -> K, x: T)
    ensures forall i :: 0 <= i < |s| ==> key(ReplaceByKey(s, key, x)[i]) == key(s[i])
  {
    forall i | 0 <= i < |s| ensures key(ReplaceByKey(s, key, x)[i]) == key(s[i]) {
      ReplaceByKeyAt(s, key, x, i);
    }
  }

  /** Replacing a record whose id no element carries changes nothing. */
  lemma ReplaceByKeyAbsent<T, K>(s: seq<T>, key: T -> K, x: T)
    requires !HasKey(s, key, key(x))
    ensures ReplaceByKey(s, key, x) == s
  {
    forall i | 0 <= i < |s| ensures ReplaceByKey(s, key, x)[i] == s[i] {
      ReplaceByKeyAt(s, key, x, i);
    }
  }

  /** Replacing the same record twice is the same as replacing it once. */
  lemma ReplaceByKeyIdempotent<T, K>(s: seq<T>, key: T -> K, x: T)
    ensures ReplaceByKey(ReplaceByKey(s, key, x), key, x) == ReplaceByKey(s, key, x)
  {
    var r := ReplaceByKey(s, key, x);
    forall i | 0 <= i < |s| ensures ReplaceByKey(r, key, x)[i] == r[i] {
      ReplaceByKeyAt(s, key, x, i);
      ReplaceByKeyAt(r, key, x, i);
    }
  }
}
