/** The order in which the index store goes through its keys (store_index.go). */
module KeyOrders {
  import opened HexTypes

  /** The order of byte strings. */
  predicate Below(a: Bytes, b: Bytes)
    decreases |a|
  {
    if a == [] then b != []
    else b != [] && (a[0] < b[0] || (a[0] == b[0] && Below(a[1..], b[1..])))
  }

  predicate KeyBelow(a: Key, b: Key) {
    Below(a.bytes, b.bytes)
  }

  /** `a` comes first because it ends where `b` goes on, or by its byte at the first place where the two differ. */
  ghost predicate Before(a: Bytes, b: Bytes) {
    a < b || exists i :: 0 <= i < |a| && i < |b| && a[..i] == b[..i] && a[i] < b[i]
  }

  lemma {:induction false} BelowIsLexicographic(a: Bytes, b: Bytes)
    ensures Below(a, b) <==> Before(a, b)
    decreases |a|
  {
    if a != [] && b != [] && a[0] == b[0] {
      BelowIsLexicographic(a[1..], b[1..]);
      assert a == [a[0]] + a[1..] && b == [b[0]] + b[1..];
      assert a < b <==> a[1..] < b[1..];
      if i :| 0 <= i < |a[1..]| && i < |b[1..]| && a[1..][..i] == b[1..][..i] && a[1..][i] < b[1..][i] {
        assert a[..i + 1] == [a[0]] + a[1..][..i] && b[..i + 1] == [b[0]] + b[1..][..i];
        assert a[i + 1] < b[i + 1];
      }
      if i :| 0 <= i < |a| && i < |b| && a[..i] == b[..i] && a[i] < b[i] {
        assert a[1..][..i - 1] == a[..i][1..] && b[1..][..i - 1] == b[..i][1..];
        assert a[1..][i - 1] < b[1..][i - 1];
      }
    } else if a != [] && b != [] && a[0] < b[0] {
      assert a[..0] == b[..0];
    }
  }

  lemma {:induction false} BelowIsStrict(a: Bytes, b: Bytes)
    ensures !(Below(a, b) && Below(b, a)) && (Below(a, b) || Below(b, a) <==> a != b)
    decreases |a|
  {
    if a != [] && b != [] {
      BelowIsStrict(a[1..], b[1..]);
      assert a[0] == b[0] && a[1..] == b[1..] ==> a == [a[0]] + a[1..] == b;
    }
  }

  lemma {:induction false} BelowIsTransitive(a: Bytes, b: Bytes, c: Bytes)
    requires Below(a, b) && Below(b, c)
    ensures Below(a, c)
    decreases |a|
  {
    if a != [] && a[0] == b[0] == c[0] {
      BelowIsTransitive(a[1..], b[1..], c[1..]);
    }
  }

  predicate Ascending(keys: seq<Key>) {
    forall i, j :: 0 <= i < j < |keys| ==> KeyBelow(keys[i], keys[j])
  }

  /** The keys of `ks`, each once, in ascending order. */
  ghost predicate Sorted(keys: seq<Key>, ks: set<Key>) {
    Ascending(keys) && forall k :: k in keys <==> k in ks
  }

  /** There is only one such sequence. */
  lemma {:induction false} SortedUnique(a: seq<Key>, b: seq<Key>, ks: set<Key>)
    requires Sorted(a, ks) && Sorted(b, ks)
    ensures a == b
    decreases |a|
  {
    SameEmptiness(a, b, ks);
    if a != [] {
      FirstIsFirst(a, b, ks);
      assert forall k :: k in a[1..] <==> k in ks && k != a[0] by { TailOf(a); }
      assert forall k :: k in b[1..] <==> k in ks && k != b[0] by { TailOf(b); }
      SortedUnique(a[1..], b[1..], ks - {a[0]});
      assert a == [a[0]] + a[1..] && b == [b[0]] + b[1..];
    }
  }

  lemma SameEmptiness(a: seq<Key>, b: seq<Key>, ks: set<Key>)
    requires Sorted(a, ks) && Sorted(b, ks)
    ensures a == [] <==> b == []
  {
    if a != [] {
      assert a[0] in b;
    }
    if b != [] {
      assert b[0] in a;
    }
  }

  lemma FirstIsFirst(a: seq<Key>, b: seq<Key>, ks: set<Key>)
    requires Sorted(a, ks) && Sorted(b, ks) && a != [] && b != []
    ensures a[0] == b[0]
  {
    assert a[0] in b && b[0] in a;
    BelowIsStrict(a[0].bytes, b[0].bytes);
  }

  lemma TailOf(a: seq<Key>)
    requires Ascending(a) && a != []
    ensures forall k :: k in a[1..] <==> k in a && k != a[0]
  {
    forall i | 0 < i < |a|
      ensures a[i] != a[0]
    {
      BelowIsStrict(a[0].bytes, a[i].bytes);
    }
    assert a == [a[0]] + a[1..];
  }

  /** A key at its place among others. */
  function Insert(keys: seq<Key>, k: Key): seq<Key> {
    if keys == [] then [k]
    else if KeyBelow(k, keys[0]) then [k] + keys
    else [keys[0]] + Insert(keys[1..], k)
  }

  lemma {:induction false} Inserted(keys: seq<Key>, k: Key)
    requires Ascending(keys) && k !in keys
    ensures Ascending(Insert(keys, k)) && forall j :: j in Insert(keys, k) <==> j in keys || j == k
    decreases |keys|
  {
    if keys == [] {
    } else if KeyBelow(k, keys[0]) {
      forall i | 0 <= i < |keys|
        ensures KeyBelow(k, keys[i])
      {
        if i > 0 {
          BelowIsTransitive(k.bytes, keys[0].bytes, keys[i].bytes);
        }
      }
    } else {
      Inserted(keys[1..], k);
      BelowIsStrict(k.bytes, keys[0].bytes);
      assert keys == [keys[0]] + keys[1..];
      forall j | j in Insert(keys[1..], k)
        ensures KeyBelow(keys[0], j)
      {
      }
    }
    hide KeyBelow;
  }
}
