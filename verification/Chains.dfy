/** Hash-chained logs: what one id says about the log below it. */
module Chains {
  import opened HexTypes

  /** How entries are identified: `hash` is Entry.Hash with the configured hash function, `size` the id length. */
  datatype Hashing = Hashing(hash: Entry -> Id, size: nat)

  ghost predicate IsZero(id: Id) {
    forall i :: 0 <= i < |id.bytes| ==> id.bytes[i] == 0
  }

  /** The id that stands for "no entry". */
  function ZeroId(size: nat): (id: Id)
    ensures |id.bytes| == size && IsZero(id)
  {
    Id(seq(size, _ => 0))
  }

  /** The hypothesis on hashing: within the entries in use ids do not collide, none is zero, and `previous` always
      has the length of an id. */
  ghost predicate Sound(h: Hashing, u: iset<Entry>) {
    && (forall e :: e in u ==> |h.hash(e).bytes| == h.size && !IsZero(h.hash(e)) && |e.previous.bytes| == h.size)
    && (forall a, b {:trigger SameId(h, a, b)} :: a in u && b in u && SameId(h, a, b) ==> a == b)
  }

  predicate SameId(h: Hashing, a: Entry, b: Entry) {
    h.hash(a) == h.hash(b)
  }

  lemma SameEntry(h: Hashing, u: iset<Entry>, a: Entry, b: Entry)
    requires Sound(h, u) && a in u && b in u && h.hash(a) == h.hash(b)
    ensures a == b
  {
    assert SameId(h, a, b);
  }

  /** isZeroBytes (keylogindex.go). */
  method IsZeroBytes(id: Id) returns (zero: bool)
    ensures zero <==> IsZero(id)
  {
    var b := id.bytes;
    for i := 0 to |b|
      invariant forall j :: 0 <= j < i ==> b[j] == 0
    {
      if b[i] != 0 {
        return false;
      }
    }
    return true;
  }

  lemma ZeroIdUnique(id: Id)
    ensures IsZero(id) <==> id == ZeroId(|id.bytes|)
  {
    if IsZero(id) {
      assert id.bytes == ZeroId(|id.bytes|).bytes;
    }
  }

  /** The id a next entry has to name as its previous one. */
  function LastId(h: Hashing, log: seq<Entry>): Id {
    if log == [] then ZeroId(h.size) else h.hash(log[|log| - 1])
  }

  /** A well-formed log of key `k`: every entry names the one before it. */
  ghost predicate Chain(h: Hashing, u: iset<Entry>, k: Key, log: seq<Entry>) {
    && (forall i :: 0 <= i < |log| ==> log[i] in u && log[i].key == k)
    && (forall i {:trigger log[..i]} :: 0 <= i < |log| ==> log[i].previous == LastId(h, log[..i]))
  }

  lemma ChainPrefix(h: Hashing, u: iset<Entry>, k: Key, log: seq<Entry>, n: nat)
    requires Chain(h, u, k, log) && n <= |log|
    ensures Chain(h, u, k, log[..n])
  {
    forall i | 0 <= i < n
      ensures log[..n][i].previous == LastId(h, log[..n][..i])
    {
      assert log[..n][..i] == log[..i];
    }
  }

  lemma ChainAppend(h: Hashing, u: iset<Entry>, k: Key, log: seq<Entry>, e: Entry)
    requires Chain(h, u, k, log) && e in u && e.key == k && e.previous == LastId(h, log)
    ensures Chain(h, u, k, log + [e])
  {
    var log' := log + [e];
    forall i | 0 <= i < |log'|
      ensures log'[i].previous == LastId(h, log'[..i])
    {
      if i < |log| {
        assert log'[..i] == log[..i];
      } else {
        assert log'[..i] == log;
      }
    }
  }

  /** The last id determines the whole log. */
  lemma {:induction false} SameLast(h: Hashing, u: iset<Entry>, k: Key, a: seq<Entry>, b: seq<Entry>)
    requires Sound(h, u) && Chain(h, u, k, a) && Chain(h, u, k, b)
    requires LastId(h, a) == LastId(h, b)
    ensures a == b
  {
    assert a != [] ==> !IsZero(h.hash(a[|a| - 1]));
    assert b != [] ==> !IsZero(h.hash(b[|b| - 1]));
    if a != [] && b != [] {
      var m, n := |a| - 1, |b| - 1;
      SameEntry(h, u, a[m], b[n]);
      ChainPrefix(h, u, k, a, m);
      ChainPrefix(h, u, k, b, n);
      SameLast(h, u, k, a[..m], b[..n]);
      assert a == a[..m] + [a[m]];
      assert b == b[..n] + [b[n]];
    }
  }

  /** Log matching: one id at two places means one position and one common prefix. */
  lemma LogMatching(h: Hashing, u: iset<Entry>, k: Key, a: seq<Entry>, i: nat, b: seq<Entry>, j: nat)
    requires Sound(h, u) && Chain(h, u, k, a) && Chain(h, u, k, b)
    requires i < |a| && j < |b| && h.hash(a[i]) == h.hash(b[j])
    ensures i == j && a[..i + 1] == b[..j + 1]
  {
    ChainPrefix(h, u, k, a, i + 1);
    ChainPrefix(h, u, k, b, j + 1);
    SameLast(h, u, k, a[..i + 1], b[..j + 1]);
    assert |a[..i + 1]| == |b[..j + 1]|;
  }

  /** No id occurs twice in a log. */
  lemma NoRepeats(h: Hashing, u: iset<Entry>, k: Key, log: seq<Entry>)
    requires Sound(h, u) && Chain(h, u, k, log)
    ensures forall i, j :: 0 <= i < |log| && 0 <= j < |log| && h.hash(log[i]) == h.hash(log[j]) ==> i == j
  {
    forall i, j | 0 <= i < |log| && 0 <= j < |log| && h.hash(log[i]) == h.hash(log[j])
      ensures i == j
    {
      LogMatching(h, u, k, log, i, log, j);
    }
  }

  /** An entry of log `b` can follow log `a` only if `a` is exactly what `b` holds below that entry. */
  lemma FollowsOnlyItsPrefix(h: Hashing, u: iset<Entry>, k: Key, a: seq<Entry>, b: seq<Entry>, i: nat)
    requires Sound(h, u) && Chain(h, u, k, a) && Chain(h, u, k, b) && i < |b|
    ensures b[i].previous == LastId(h, a) <==> a == b[..i]
  {
    if b[i].previous == LastId(h, a) {
      ChainPrefix(h, u, k, b, i);
      SameLast(h, u, k, a, b[..i]);
    }
  }

  /** The log has, now or at some earlier length, ended at id `prev`. */
  ghost predicate Reached(h: Hashing, log: seq<Entry>, prev: Id) {
    exists n: nat :: n <= |log| && LastId(h, log[..n]) == prev
  }

  lemma ReachedMonotone(h: Hashing, log: seq<Entry>, log': seq<Entry>, prev: Id)
    requires Reached(h, log, prev) && log <= log'
    ensures Reached(h, log', prev)
  {
    var n: nat :| n <= |log| && LastId(h, log[..n]) == prev;
    assert log'[..n] == log[..n];
  }

  /** A log whose last id another log has reached is a prefix of that log. */
  lemma ReachedIsPrefix(h: Hashing, u: iset<Entry>, k: Key, a: seq<Entry>, b: seq<Entry>)
    requires Sound(h, u) && Chain(h, u, k, a) && Chain(h, u, k, b)
    requires Reached(h, b, LastId(h, a))
    ensures a <= b
  {
    var n: nat :| n <= |b| && LastId(h, b[..n]) == LastId(h, a);
    ChainPrefix(h, u, k, b, n);
    SameLast(h, u, k, a, b[..n]);
  }
}
