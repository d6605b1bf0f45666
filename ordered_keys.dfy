/**
 * The key order of a JavaScript `Map`. A `Map` remembers the order in which
 * its keys were first inserted: `set` on a key that is already present
 * overwrites the value and keeps the key where it is, `set` on a new key
 * appends it, and `delete` removes the key without disturbing the others.
 * Here the order is a sequence of keys kept beside a Dafny `map`.
 */
module OrderedKeys {

  /** No key occurs twice. */
  predicate NoDup<K(==)>(keys: seq<K>) {
    forall i, j | 0 <= i < j < |keys| :: keys[i] != keys[j]
  }

  /** `keys` lists the domain of `m`, each key once. */
  ghost predicate Valid<K(!new), V>(keys: seq<K>, m: map<K, V>) {
    NoDup(keys) && forall k :: k in keys <==> k in m
  }

  /** The key order after `m.set(k, v)`. */
  function KeysAfterSet<K(==,!new)>(keys: seq<K>, k: K): (r: seq<K>)
    ensures forall x :: x in r <==> x in keys || x == k
    ensures |keys| <= |r| <= |keys| + 1 && r[..|keys|] == keys
    ensures |r| == |keys| <==> k in keys
  {
    if k in keys then keys else keys + [k]
  }

  /** The key order after `m.delete(k)`: every other key, in the same order. */
  function KeysAfterDelete<K(==,!new)>(keys: seq<K>, k: K): (r: seq<K>)
    ensures forall x :: x in r <==> x in keys && x != k
    ensures |r| <= |keys|
    decreases |keys|
  {
    if keys == [] then []
    else if keys[0] == k then KeysAfterDelete(keys[1..], k)
    else [keys[0]] + KeysAfterDelete(keys[1..], k)
  }

  lemma NoDupTail<K>(keys: seq<K>)
    requires NoDup(keys) && keys != []
    ensures NoDup(keys[1..]) && keys[0] !in keys[1..]
  {
    forall j | 0 <= j < |keys| - 1
      ensures keys[1..][j] != keys[0]
    {
      assert keys[1..][j] == keys[j + 1];
    }
  }

  lemma NoDupCons<K>(x: K, s: seq<K>)
    requires NoDup(s) && x !in s
    ensures NoDup([x] + s)
  {
    var t := [x] + s;
    forall i, j | 0 <= i < j < |t|
      ensures t[i] != t[j]
    {
      assert t[j] == s[j - 1];
      if i > 0 {
        assert t[i] == s[i - 1];
      }
    }
  }

  /** Deleting a key that is absent leaves the order as it was. */
  lemma {:induction false} DeleteAbsent<K(!new)>(keys: seq<K>, k: K)
    requires k !in keys
    ensures KeysAfterDelete(keys, k) == keys
  {
    if keys != [] {
      assert keys[0] != k;
      DeleteAbsent(keys[1..], k);
      assert keys == [keys[0]] + keys[1..];
    }
  }

  /** Deleting the key at position `i` of a duplicate-free order cuts out exactly that position. */
  lemma {:induction false} DeleteAt<K(!new)>(keys: seq<K>, i: nat)
    requires NoDup(keys) && i < |keys|
    ensures KeysAfterDelete(keys, keys[i]) == keys[..i] + keys[i + 1..]
  {
    NoDupTail(keys);
    if i == 0 {
      DeleteAbsent(keys[1..], keys[0]);
    } else {
      var tail := keys[1..];
      assert tail[i - 1] == keys[i];
      assert keys[0] != keys[i];
      DeleteAt(tail, i - 1);
      assert tail[..i - 1] + tail[i..] == keys[1..i] + keys[i + 1..];
      assert [keys[0]] + keys[1..i] == keys[..i];
    }
  }

  /** Deletion keeps the order free of duplicates. */
  lemma {:induction false} DeleteNoDup<K(!new)>(keys: seq<K>, k: K)
    requires NoDup(keys)
    ensures NoDup(KeysAfterDelete(keys, k))
  {
    if keys != [] {
      NoDupTail(keys);
      DeleteNoDup(keys[1..], k);
      if keys[0] != k {
        NoDupCons(keys[0], KeysAfterDelete(keys[1..], k));
      }
    }
  }

  /** `set` keeps the order and the map in step. */
  lemma SetPreservesValid<K(!new), V>(keys: seq<K>, m: map<K, V>, k: K, v: V)
    requires Valid(keys, m)
    ensures Valid(KeysAfterSet(keys, k), m[k := v])
  {
    if k !in keys {
      var t := keys + [k];
      forall i, j | 0 <= i < j < |t|
        ensures t[i] != t[j]
      {
        if j == |keys| {
          assert t[i] == keys[i];
        }
      }
    }
  }

  /** `delete` keeps the order and the map in step. */
  lemma DeletePreservesValid<K(!new), V>(keys: seq<K>, m: map<K, V>, k: K)
    requires Valid(keys, m)
    ensures Valid(KeysAfterDelete(keys, k), m - {k})
  {
    DeleteNoDup(keys, k);
  }
}
