/** Insertion-ordered dictionaries: Python dicts, and JavaScript objects as
    `Object.entries` walks them when no key looks like an array index (such
    keys come first, in ascending numeric order, in JavaScript). Assigning to
    a present key keeps its place; assigning to a new key appends it. */
module OrderedMap {
  import opened Wrappers

  type Entries<V> = seq<(string, V)>

  function Keys<V>(m: Entries<V>): (ks: seq<string>)
    ensures |ks| == |m|
  {
    seq(|m|, i requires 0 <= i < |m| => m[i].0)
  }

  function Values<V>(m: Entries<V>): (vs: seq<V>)
    ensures |vs| == |m|
  {
    seq(|m|, i requires 0 <= i < |m| => m[i].1)
  }

  /** The keys of a non-empty map are those before its last entry, then that
      entry's key. */
  lemma KeysSnoc<V>(m: Entries<V>)
    requires m != []
    ensures Keys(m) == Keys(m[..|m| - 1]) + [m[|m| - 1].0]
  {
  }

  predicate UniqueKeys<V>(m: Entries<V>) {
    forall i, j :: 0 <= i < j < |m| ==> m[i].0 != m[j].0
  }

  /** `m[k]` (JavaScript, `undefined` when absent) / `m.get(k)` (Python). */
  function Lookup<V>(m: Entries<V>, k: string): Option<V>
    decreases |m|
  {
    if m == [] then None
    else if m[0].0 == k then Some(m[0].1)
    else Lookup(m[1..], k)
  }

  /** `m[k] = v`. */
  function Put<V>(m: Entries<V>, k: string, v: V): Entries<V>
    decreases |m|
  {
    if m == [] then [(k, v)]
    else if m[0].0 == k then [(k, v)] + m[1..]
    else [m[0]] + Put(m[1..], k, v)
  }

  /** A key is found exactly when it is one of the keys, and with unique keys
      it is found with the value stored beside it. */
  lemma {:induction false} LookupPresent<V>(m: Entries<V>, k: string)
    ensures Lookup(m, k).Some? <==> k in Keys(m)
    ensures UniqueKeys(m) ==> forall i :: 0 <= i < |m| && m[i].0 == k ==> Lookup(m, k) == Some(m[i].1)
    decreases |m|
  {
    if m != [] {
      LookupPresent(m[1..], k);
      assert Keys(m) == [m[0].0] + Keys(m[1..]);
      if UniqueKeys(m) {
        assert UniqueKeys(m[1..]);
        forall i | 0 <= i < |m| && m[i].0 == k
          ensures Lookup(m, k) == Some(m[i].1)
        {
          if i > 0 {
            assert m[1..][i - 1] == m[i];
          }
        }
      }
    }
  }

  /** After `m[k] = v`, `k` maps to `v` and every other key to what it did before. */
  lemma {:induction false} PutLookup<V>(m: Entries<V>, k: string, v: V, k': string)
    ensures Lookup(Put(m, k, v), k') == if k' == k then Some(v) else Lookup(m, k')
    decreases |m|
  {
    if m != [] && m[0].0 != k {
      PutLookup(m[1..], k, v, k');
      assert Put(m, k, v)[1..] == Put(m[1..], k, v);
    } else if m != [] {
      assert Put(m, k, v)[1..] == m[1..];
    }
  }

  /** `m[k] = v` keeps the key order, appending `k` only when it is new. */
  lemma {:induction false} PutKeys<V>(m: Entries<V>, k: string, v: V)
    ensures Keys(Put(m, k, v)) == if k in Keys(m) then Keys(m) else Keys(m) + [k]
    decreases |m|
  {
    if m != [] {
      assert Keys(m) == [m[0].0] + Keys(m[1..]);
      if m[0].0 == k {
        assert Keys(Put(m, k, v)) == [k] + Keys(m[1..]);
      } else {
        PutKeys(m[1..], k, v);
        assert Keys(Put(m, k, v)) == [m[0].0] + Keys(Put(m[1..], k, v));
      }
    }
  }

  /** `m[k] = v` never duplicates a key. */
  lemma PutUnique<V>(m: Entries<V>, k: string, v: V)
    requires UniqueKeys(m)
    ensures UniqueKeys(Put(m, k, v))
  {
    var r := Put(m, k, v);
    PutKeys(m, k, v);
    assert forall i :: 0 <= i < |r| ==> r[i].0 == Keys(r)[i];
    assert forall i :: 0 <= i < |m| ==> m[i].0 == Keys(m)[i];
  }

  /** The dictionary built by `m[k] = v` for each item, in order, whose value
      is present, starting from an empty one. */
  function PutPresent<V>(items: seq<(string, Option<V>)>): Entries<V>
    decreases |items|
  {
    if items == [] then []
    else
      var m := PutPresent(items[..|items| - 1]);
      var last := items[|items| - 1];
      if last.1.Some? then Put(m, last.0, last.1.value) else m
  }

  /** No key appears twice. */
  lemma {:induction false} PutPresentUnique<V>(items: seq<(string, Option<V>)>)
    ensures UniqueKeys(PutPresent(items))
    decreases |items|
  {
    if items != [] {
      var last := items[|items| - 1];
      PutPresentUnique(items[..|items| - 1]);
      if last.1.Some? {
        PutUnique(PutPresent(items[..|items| - 1]), last.0, last.1.value);
      }
    }
  }

  /** A key is present exactly when some item for it has a value, and it then
      holds the value of the last such item. */
  lemma {:induction false} PutPresentLookup<V>(items: seq<(string, Option<V>)>, k: string)
    ensures Lookup(PutPresent(items), k).None? <==>
      forall i :: 0 <= i < |items| && items[i].0 == k ==> items[i].1.None?
    ensures forall i :: (0 <= i < |items| && items[i].0 == k && items[i].1.Some? &&
      forall j :: i < j < |items| && items[j].0 == k ==> items[j].1.None?) ==>
      Lookup(PutPresent(items), k) == items[i].1
    decreases |items|
  {
    if items != [] {
      var n := |items|;
      var prefix := items[..n - 1];
      var last := items[n - 1];
      var m := PutPresent(prefix);
      PutPresentLookup(prefix, k);
      assert forall i :: 0 <= i < n - 1 ==> prefix[i] == items[i];
      if last.1.Some? {
        PutLookup(m, last.0, last.1.value, k);
      }
      if last.0 == k && last.1.Some? {
        assert Lookup(PutPresent(items), k) == last.1;
      } else {
        assert Lookup(PutPresent(items), k) == Lookup(m, k);
      }
    }
  }
}
