/** Operations on a list of records keyed by one of their fields, as the
    application applies them both to stored collections and to lists held in page
    state: look up the first record with a key (`findOne`, `Array.prototype.find`),
    drop the records with a key (`findByIdAndDelete` on unique ids,
    `list.filter(x => x._id !== id)`), and rewrite the records with a key
    (`list.map(x => x._id === id ? f(x) : x)`). */
module Records {
  import opened Js

  /** Some record has key `k`. */
  predicate HasKey<T, K(==)>(s: seq<T>, key: T -> K, k: K) {
    exists i :: 0 <= i < |s| && key(s[i]) == k
  }

  /** No two records share a key (a unique index). */
  predicate DistinctBy<T, K(==)>(s: seq<T>, key: T -> K) {
    forall i, j :: 0 <= i < j < |s| ==> key(s[i]) != key(s[j])
  }

  /** The position of the first record with key `k`. */
  function FindKey<T, K(==)>(s: seq<T>, key: T -> K, k: K): (r: Option<nat>)
    ensures r.Some? ==> r.value < |s| && key(s[r.value]) == k
    ensures r.Some? ==> forall j :: 0 <= j < r.value ==> key(s[j]) != k
    ensures r.None? <==> !HasKey(s, key, k)
  {
    if s == [] then None
    else if key(s[0]) == k then Some(0)
    else match FindKey(s[1..], key, k)
      case None => None
      case Some(j) => Some(j + 1)
  }

  /** Appending a record whose key is new makes it the one found for that key. */
  lemma {:induction false} FindKeyAppended<T, K>(s: seq<T>, key: T -> K, x: T)
    requires !HasKey(s, key, key(x))
    ensures FindKey(s + [x], key, key(x)) == Some(|s|)
  {
    if s != [] {
      assert (s + [x])[1..] == s[1..] + [x];
      assert !HasKey(s[1..], key, key(x)) by {
        forall i | 0 <= i < |s[1..]| ensures key(s[1..][i]) != key(x) {
          assert s[1..][i] == s[i + 1];
        }
      }
      FindKeyAppended(s[1..], key, x);
    }
  }

  /** Appending a record with a new key keeps the keys distinct. */
  lemma AppendKeepsDistinct<T, K>(s: seq<T>, key: T -> K, x: T)
    requires DistinctBy(s, key) && !HasKey(s, key, key(x))
    ensures DistinctBy(s + [x], key)
  {
    var r := s + [x];
    forall i, j | 0 <= i < j < |r| ensures key(r[i]) != key(r[j]) {
      assert r[i] == s[i];
      if j < |s| {
        assert r[j] == s[j];
      }
    }
  }

  /** The records whose key is not `k`, in their original order. */
  function RemoveKey<T, K(==)>(s: seq<T>, key: T -> K, k: K): (r: seq<T>)
    ensures |r| <= |s|
    ensures forall i :: 0 <= i < |r| ==> r[i] in s && key(r[i]) != k
  {
    if s == [] then []
    else if key(s[0]) == k then RemoveKey(s[1..], key, k)
    else [s[0]] + RemoveKey(s[1..], key, k)
  }

  /** Every record with another key survives the removal. */
  lemma {:induction false} RemoveKeyKeepsOthers<T, K>(s: seq<T>, key: T -> K, k: K, x: T)
    requires x in s && key(x) != k
    ensures x in RemoveKey(s, key, k)
  {
    if s[0] != x {
      RemoveKeyKeepsOthers(s[1..], key, k, x);
    }
  }

  /** Removal works piecewise, so the survivors keep their relative order. */
  lemma {:induction false} RemoveKeyAppend<T, K>(a: seq<T>, b: seq<T>, key: T -> K, k: K)
    ensures RemoveKey(a + b, key, k) == RemoveKey(a, key, k) + RemoveKey(b, key, k)
  {
    if a != [] {
      assert (a + b)[1..] == a[1..] + b;
      RemoveKeyAppend(a[1..], b, key, k);
    } else {
      assert a + b == b;
    }
  }

  /** With distinct keys, removing a present key drops exactly one record and
      removing an absent key drops none. */
  lemma {:induction false} RemoveKeyCount<T, K>(s: seq<T>, key: T -> K, k: K)
    requires DistinctBy(s, key)
    ensures HasKey(s, key, k) ==> |RemoveKey(s, key, k)| == |s| - 1
    ensures !HasKey(s, key, k) ==> RemoveKey(s, key, k) == s
  {
    if s != [] {
      var tail := s[1..];
      assert DistinctBy(tail, key) by {
        forall i, j | 0 <= i < j < |tail| ensures key(tail[i]) != key(tail[j]) {
          assert tail[i] == s[i + 1] && tail[j] == s[j + 1];
        }
      }
      RemoveKeyCount(tail, key, k);
      if key(s[0]) == k {
        forall i | 0 <= i < |tail| ensures key(tail[i]) != k {
          assert tail[i] == s[i + 1];
        }
      } else if HasKey(s, key, k) {
        var i :| 0 <= i < |s| && key(s[i]) == k;
        assert tail[i - 1] == s[i];
      } else {
        forall i | 0 <= i < |tail| ensures key(tail[i]) != k {
          assert tail[i] == s[i + 1];
        }
      }
    }
  }

  /** Removal keeps any other key distinct. */
  lemma {:induction false} RemoveKeyKeepsDistinct<T, K, L>(s: seq<T>, key: T -> K, k: K, other: T -> L)
    requires DistinctBy(s, other)
    ensures DistinctBy(RemoveKey(s, key, k), other)
  {
    if s != [] {
      var tail := s[1..];
      assert DistinctBy(tail, other) by {
        forall i, j | 0 <= i < j < |tail| ensures other(tail[i]) != other(tail[j]) {
          assert tail[i] == s[i + 1] && tail[j] == s[j + 1];
        }
      }
      RemoveKeyKeepsDistinct(tail, key, k, other);
      var r := RemoveKey(tail, key, k);
      if key(s[0]) != k {
        var full := [s[0]] + r;
        assert RemoveKey(s, key, k) == full;
        forall i, j | 0 <= i < j < |full|
          ensures other(full[i]) != other(full[j])
        {
          assert full[j] == r[j - 1];
          if i == 0 {
            assert r[j - 1] in tail;
            var m :| 0 <= m < |tail| && tail[m] == r[j - 1];
            assert tail[m] == s[m + 1];
          } else {
            assert full[i] == r[i - 1];
          }
        }
      }
    }
  }

  /** Each record with key `k` rewritten by `update`, every other record as it was. */
  function UpdateKey<T, K(==)>(s: seq<T>, key: T -> K, k: K, update: T -> T): (r: seq<T>)
    ensures |r| == |s|
    ensures forall i :: 0 <= i < |s| ==> r[i] == if key(s[i]) == k then update(s[i]) else s[i]
  {
    if s == [] then []
    else [if key(s[0]) == k then update(s[0]) else s[0]] + UpdateKey(s[1..], key, k, update)
  }
}
