/** Catching up with another node: pulling a key log (net.go, hexalog_utils.go) and seeding from a node (hexalog.go). */
module CatchUp {
  import opened HexTypes
  import opened Chains
  import opened KeylogIndexes
  import opened StoreSpec
  import opened Nodes

  /** The received entries are appended one by one; the result is the last one's future, if that one was accepted. */
  function ReceiveAll(h: Hashing, n: Node, es: seq<Entry>): (Node, Option<Entry>)
    decreases es
  {
    if es == [] then (n, None)
    else
      var e := es[|es| - 1];
      var (n', err) := AppendDirect(h, ReceiveAll(h, n, es[..|es| - 1]).0, e);
      (n', if err.None? then Some(e) else None)
  }

  /** The id a pull starts at: the last one held, none for an empty log. */
  function SeekId(h: Hashing, log: seq<Entry>): Option<Id> {
    if log == [] then None else Some(LastId(h, log))
  }

  /** What arrives of the entries another node serves: all, or those before the connection breaks. */
  function Arriving(served: (seq<Entry>, Option<Error>), cut: Option<nat>): (seq<Entry>, Option<Error>) {
    if cut.Some? && cut.value <= |served.0| then (served.0[..cut.value], Some(ErrTransport)) else served
  }

  /** PullKeylog from a node that holds `remote`. */
  function PullKeylog(h: Hashing, n: Node, k: Key, remote: View, cut: Option<nat>): (Node, Option<Error>) {
    var (es, err) := Arriving(Serve(h, remote, k, SeekId(h, LogOf(n.store, k))), cut);
    (ReceiveAll(h, n, es).0, err)
  }

  /** checkLastEntryOrPull. */
  function CheckOrPull(h: Hashing, n: Node, k: Key, otherLast: Id, remote: View, cut: Option<nat>)
    : (Node, Option<Error>)
  {
    var n' := n.(store := UpsertKey(n.store, k));
    if LastId(h, LogOf(n.store, k)) == otherLast then (n', None) else PullKeylog(h, n', k, remote, cut)
  }

  // ---- what a pull leaves behind

  ghost predicate ChainsOf(h: Hashing, u: iset<Entry>, v: View) {
    forall k :: k in v ==> Chain(h, u, k, v[k].log)
  }

  predicate Names(h: Hashing, es: seq<Entry>, id: Id) {
    id in IdsOf(h, es)
  }

  /** The marker is gone once one of the new entries has the id it names. */
  function MarkerAfter(h: Hashing, marker: Option<Id>, es: seq<Entry>): Option<Id> {
    if marker.Some? && Names(h, es, marker.value) then None else marker
  }

  /** The node with `es` added to the log of `k`, and queued to the FSM in this order. */
  function Extended(h: Hashing, n: Node, k: Key, es: seq<Entry>): Node
    requires k in n.store
  {
    n.(store := n.store[k := Keyed(n.store[k].log + es, MarkerAfter(h, n.store[k].marker, es))],
       applied := n.applied + es)
  }

  lemma NamesOneMore(h: Hashing, es: seq<Entry>, e: Entry, id: Id)
    ensures Names(h, es + [e], id) <==> Names(h, es, id) || h.hash(e) == id
  {
    assert IdsOf(h, es + [e]) == IdsOf(h, es) + [h.hash(e)];
  }

  lemma ExtendedNothing(h: Hashing, n: Node, k: Key)
    requires k in n.store
    ensures Extended(h, n, k, []) == n
  {
    assert n.store[k].log + [] == n.store[k].log && n.applied + [] == n.applied;
    assert n.store[k := n.store[k]] == n.store;
  }

  lemma ExtendedOneMore(h: Hashing, n: Node, k: Key, es: seq<Entry>, e: Entry)
    requires k in n.store && e.key == k && e.previous == LastId(h, n.store[k].log + es)
    ensures AppendDirect(h, Extended(h, n, k, es), e) == (Extended(h, n, k, es + [e]), None)
  {
    var log, m := n.store[k].log, n.store[k].marker;
    assert log + es + [e] == log + (es + [e]) && n.applied + es + [e] == n.applied + (es + [e]);
    if m.Some? {
      NamesOneMore(h, es, e, m.value);
    }
    assert ClearMarker(MarkerAfter(h, m, es), h.hash(e)) == MarkerAfter(h, m, es + [e]);
    var s1 := Extended(h, n, k, es).store;
    assert s1[k := Keyed(log + (es + [e]), MarkerAfter(h, m, es + [e]))] == Extended(h, n, k, es + [e]).store;
  }

  /** The part of a log between a length and a later one. */
  function Stretch(log: seq<Entry>, m: nat, upto: nat): seq<Entry>
    requires upto <= |log|
  {
    if m <= upto then log[m..upto] else []
  }

  function Range(log: seq<Entry>, start: nat, upto: nat): (es: seq<Entry>)
    requires start <= upto <= |log|
    ensures |es| == upto - start
  {
    log[start..upto]
  }

  lemma RangeOneMore(log: seq<Entry>, start: nat, upto: nat)
    requires start < upto <= |log|
    ensures Range(log, start, upto) == Range(log, start, upto - 1) + [log[upto - 1]]
  {
  }

  /** One received entry of a log that the own one is a prefix of: turned down if known, added if new. */
  lemma ReceiveNext(h: Hashing, u: iset<Entry>, n: Node, k: Key, log: seq<Entry>, upto: nat)
    requires Sound(h, u) && Chain(h, u, k, log) && k in n.store && n.store[k].log <= log && 0 < upto <= |log|
    ensures
      var m := |n.store[k].log|;
      AppendDirect(h, Extended(h, n, k, Stretch(log, m, upto - 1)), log[upto - 1])
      == (Extended(h, n, k, Stretch(log, m, upto)), if m < upto then None else Some(ErrPreviousHash))
  {
    var own, m, e := n.store[k].log, |n.store[k].log|, log[upto - 1];
    assert own == log[..m];
    if upto <= m {
      ExtendedNothing(h, n, k);
      ChainPrefix(h, u, k, log, m);
      FollowsOnlyItsPrefix(h, u, k, own, log, upto - 1);
      assert |own| != |log[..upto - 1]|;
      assert Stretch(log, m, upto) == [];
    } else {
      var es := log[m..upto - 1];
      assert own + es == log[..upto - 1];
      assert e.key == k && e.previous == LastId(h, log[..upto - 1]);
      ExtendedOneMore(h, n, k, es, e);
      assert es + [e] == log[m..upto];
    }
  }

  lemma ReceiveOne(h: Hashing, n: Node, es: seq<Entry>, e: Entry)
    ensures
      var (n', err) := AppendDirect(h, ReceiveAll(h, n, es).0, e);
      ReceiveAll(h, n, es + [e]) == (n', if err.None? then Some(e) else None)
  {
    assert (es + [e])[..|es|] == es;
  }

  ghost predicate Received(h: Hashing, n: Node, k: Key, log: seq<Entry>, start: nat, upto: nat)
    requires k in n.store && start <= upto <= |log|
  {
    var m := |n.store[k].log|;
    ReceiveAll(h, n, Range(log, start, upto))
    == (Extended(h, n, k, Stretch(log, m, upto)), if m < upto then Some(log[upto - 1]) else None)
  }

  lemma ReceivedOneMore(h: Hashing, u: iset<Entry>, n: Node, k: Key, log: seq<Entry>, start: nat, upto: nat)
    requires Sound(h, u) && Chain(h, u, k, log) && k in n.store && n.store[k].log <= log
    requires start < upto <= |log| && Received(h, n, k, log, start, upto - 1)
    ensures Received(h, n, k, log, start, upto)
  {
    ReceiveNext(h, u, n, k, log, upto);
    RangeOneMore(log, start, upto);
    ReceiveOne(h, n, Range(log, start, upto - 1), log[upto - 1]);
    hide Range, ReceiveAll, Extended, Stretch, AppendDirect, Chain, Sound;
  }

  /** Receiving a stretch of a log that begins at the latest where the own log, a prefix of it, ends: what is known
      already is turned down, and what is new is added. */
  lemma {:induction false} ReceiveStretch(h: Hashing, u: iset<Entry>, n: Node, k: Key, log: seq<Entry>, start: nat,
                                          upto: nat)
    requires Sound(h, u) && Chain(h, u, k, log) && k in n.store && n.store[k].log <= log
    requires start <= |n.store[k].log| && start <= upto <= |log|
    ensures Received(h, n, k, log, start, upto)
    decreases upto
  {
    if start == upto {
      ExtendedNothing(h, n, k);
      assert Range(log, start, upto) == Stretch(log, |n.store[k].log|, upto) == [];
    } else {
      ReceiveStretch(h, u, n, k, log, start, upto - 1);
      ReceivedOneMore(h, u, n, k, log, start, upto);
    }
  }

  /** The position a pull starts at in the log it is served from. */
  lemma ServedFrom(h: Hashing, u: iset<Entry>, own: seq<Entry>, remote: View, k: Key)
    requires Sound(h, u) && Chain(h, u, k, own) && ChainsOf(h, u, remote)
    requires k in remote && k.bytes != []
    ensures
      var log := remote[k].log;
      Serve(h, remote, k, SeekId(h, own)) ==
      if own == [] then (log, None)
      else if own <= log then (log[|own| - 1..], None)
      else ([], Some(ErrEntryNotFound))
  {
    var log := remote[k].log;
    if own != [] {
      var m, ids, id := |own| - 1, IdsOf(h, log), LastId(h, own);
      assert own[..m + 1] == own;
      if own <= log {
        assert ids[m] == id;
        LogMatching(h, u, k, own, m, log, First(ids, id));
      } else if id in ids {
        LogMatching(h, u, k, own, m, log, First(ids, id));
      }
    }
  }

  /** A pull over a connection that holds takes the log to exactly the remote one, or changes nothing and reports that
      the last entry is unknown there; the first just when the own log is a prefix of the remote one. */
  lemma PullDichotomy(h: Hashing, u: iset<Entry>, n: Node, k: Key, remote: View)
    requires Sound(h, u) && ChainsOf(h, u, n.store) && ChainsOf(h, u, remote)
    requires k in n.store && k in remote && k.bytes != []
    ensures
      var own, log := n.store[k].log, remote[k].log;
      var (n', err) := PullKeylog(h, n, k, remote, None);
      && (own <= log ==>
            && err.None? && LogOf(n'.store, k) == log
            && n' == Extended(h, n, k, log[|own|..]))
      && (!(own <= log) ==> n' == n && err == Some(ErrEntryNotFound))
  {
    var own, log := n.store[k].log, remote[k].log;
    assert Chain(h, u, k, own) && Chain(h, u, k, log);
    ReceiveNothing(h, n);
    ServedFrom(h, u, own, remote, k);
    hide ChainsOf, Chain, Sound, Serve, ReceiveAll, Extended;
    if own <= log {
      var start := if own == [] then 0 else |own| - 1;
      ReceiveStretch(h, u, n, k, log, start, |log|);
      Tails(log, start, |own|);
      hide Range, Stretch;
      assert own + log[|own|..] == log;
      ExtendedLog(h, n, k, log[|own|..]);
    }
  }

  lemma Tails(log: seq<Entry>, start: nat, m: nat)
    requires start <= |log| && m <= |log|
    ensures Range(log, start, |log|) == log[start..] && (start == 0 ==> log[start..] == log)
    ensures Stretch(log, m, |log|) == log[m..]
  {
  }

  lemma ExtendedLog(h: Hashing, n: Node, k: Key, es: seq<Entry>)
    requires k in n.store
    ensures LogOf(Extended(h, n, k, es).store, k) == n.store[k].log + es
  {
  }

  lemma ReceiveNothing(h: Hashing, n: Node)
    ensures ReceiveAll(h, n, []) == (n, None)
  {
  }

  /** When the connection breaks, what arrived before it counts: the log gets a part of what it lacks, all of it if no
      error is reported. */
  lemma BrokenPull(h: Hashing, u: iset<Entry>, n: Node, k: Key, remote: View, cut: nat) returns (upto: nat)
    requires Sound(h, u) && ChainsOf(h, u, n.store) && ChainsOf(h, u, remote)
    requires k in n.store && k in remote && k.bytes != []
    ensures
      var own, log := n.store[k].log, remote[k].log;
      var (n', err) := PullKeylog(h, n, k, remote, Some(cut));
      if own <= log then
        |own| <= upto <= |log| && n' == Extended(h, n, k, log[|own|..upto]) && (err.None? ==> upto == |log|)
      else n' == n && err.Some?
  {
    var own, log := n.store[k].log, remote[k].log;
    ServedFrom(h, u, own, remote, k);
    ReceiveNothing(h, n);
    upto := 0;
    if own <= log {
      var start := if own == [] then 0 else |own| - 1;
      var end := if cut <= |log| - start then start + cut else |log|;
      upto := if |own| <= end then end else |own|;
      ReceiveStretch(h, u, n, k, log, start, end);
      CutServed(log, start, cut, end);
      assert own == [] ==> log[start..] == log;
      assert log[|own|..upto] == Stretch(log, |own|, end);
    }
    hide Chain, ChainsOf, Sound, Serve, ReceiveAll, Extended, Range, Stretch;
  }

  lemma CutServed(log: seq<Entry>, start: nat, cut: nat, end: nat)
    requires start <= |log| && end == if cut <= |log| - start then start + cut else |log|
    ensures
      Arriving((log[start..], None), Some(cut))
      == (Range(log, start, end), if cut <= |log| - start then Some(ErrTransport) else None)
  {
    assert cut <= |log| - start ==> log[start..][..cut] == log[start..end];
    assert log[start..|log|] == log[start..];
  }

  /** What a pull does to markers: the one of the key goes with the entry it names, and no other key is touched. */
  lemma PullClearsMarker(h: Hashing, u: iset<Entry>, n: Node, k: Key, remote: View)
    requires Sound(h, u) && ChainsOf(h, u, n.store) && ChainsOf(h, u, remote)
    requires k in n.store && k in remote && k.bytes != [] && n.store[k].log <= remote[k].log
    ensures
      var own, log, n' := n.store[k].log, remote[k].log, PullKeylog(h, n, k, remote, None).0;
      && n'.applied == n.applied + log[|own|..]
      && (forall k' :: k' in n'.store <==> k' in n.store)
      && (forall k' :: k' in n.store && k' != k ==> n'.store[k'] == n.store[k'])
      && (n'.store[k].marker.None? <==>
            n.store[k].marker.None? || exists i :: |own| <= i < |log| && h.hash(log[i]) == n.store[k].marker.value)
  {
    var own, log := n.store[k].log, remote[k].log;
    PullDichotomy(h, u, n, k, remote);
    MarkerGone(h, n.store[k].marker, log, |own|);
    hide PullKeylog, ChainsOf, Sound, MarkerAfter;
  }

  lemma MarkerGone(h: Hashing, marker: Option<Id>, log: seq<Entry>, m: nat)
    requires m <= |log|
    ensures MarkerAfter(h, marker, log[m..]).None?
            <==> marker.None? || exists i :: m <= i < |log| && h.hash(log[i]) == marker.value
  {
    if marker.Some? {
      var ids := IdsOf(h, log[m..]);
      if i :| m <= i < |log| && h.hash(log[i]) == marker.value {
        assert ids[i - m] == marker.value;
      }
      if Names(h, log[m..], marker.value) {
        var j :| 0 <= j < |ids| && ids[j] == marker.value;
        assert h.hash(log[m + j]) == marker.value;
      }
    }
  }

  // ---- seeding

  /** Seed: every seed received from the other node is checked and pulled; a failing one is skipped. */
  function SeedAll(h: Hashing, n: Node, remote: View, seeds: seq<KeySeed>): Node
    decreases seeds
  {
    if seeds == [] then n
    else
      var s := seeds[|seeds| - 1];
      CheckOrPull(h, SeedAll(h, n, remote, seeds[..|seeds| - 1]), s.key, s.marker, remote, None).0
  }

  /** The keys of the seeds. */
  function KeysOf(seeds: seq<KeySeed>): set<Key> {
    set s | s in seeds :: s.key
  }

  /** What is left of a key at the seeded node: no marker; no entry under the empty key, which is not served; and no
      entry either if the key is marked with the id that stands for no entry, which a new log seems to end with
      already. */
  function Copied(h: Hashing, k: Key, keyed: Keyed): Keyed {
    Keyed(if k.bytes == [] || keyed.marker == Some(ZeroId(h.size)) then [] else keyed.log, None)
  }

  ghost predicate SeededSoFar(h: Hashing, u: iset<Entry>, remote: View, n: Node, keys: set<Key>) {
    && n.store.Keys == keys && keys <= remote.Keys && ChainsOf(h, u, n.store)
    && forall k :: k in keys ==> n.store[k] == Copied(h, k, remote[k])
  }

  /** If the last ids agree, nothing is pulled, and there is no error even if nothing could be: only the key exists
      afterwards. If they do not, the result is that of a pull. */
  lemma PullsWhenApart(h: Hashing, n: Node, k: Key, otherLast: Id, remote: View, cut: Option<nat>)
    ensures
      var (n', err) := CheckOrPull(h, n, k, otherLast, remote, cut);
      if LastId(h, LogOf(n.store, k)) == otherLast
      then
        && err.None? && n' == n.(store := n'.store) && n'.store.Keys == n.store.Keys + {k}
        && LogOf(n'.store, k) == LogOf(n.store, k)
        && forall j :: j in n.store ==> n'.store[j] == n.store[j]
      else (n', err) == PullKeylog(h, n.(store := UpsertKey(n.store, k)), k, remote, cut)
  {
  }

  /** From a node that has no such key nothing is pulled. */
  lemma PullUnknown(h: Hashing, n: Node, k: Key, remote: View, cut: Option<nat>)
    requires k !in remote || k.bytes == []
    ensures
      var (n', err) := PullKeylog(h, n, k, remote, cut);
      && n' == n && err.Some?
      && (cut.None? ==> err == Some(if k.bytes == [] then ErrKeyInvalid else ErrKeyNotFound))
  {
    ReceiveNothing(h, n);
  }

  lemma NothingServed(h: Hashing, n: Node, k: Key, remote: View)
    requires k.bytes == []
    ensures PullKeylog(h, n, k, remote, None) == (n, Some(ErrKeyInvalid))
  {
  }

  lemma SeededOneMore(h: Hashing, u: iset<Entry>, remote: View, n: Node, n': Node, k: Key, keys: set<Key>)
    requires SeededSoFar(h, u, remote, n, keys) && k in remote && k in n'.store
    requires n'.store == n.store[k := n'.store[k]]
    requires n'.store[k] == Copied(h, k, remote[k]) && Chain(h, u, k, n'.store[k].log)
    ensures SeededSoFar(h, u, remote, n', keys + {k})
  {
    hide Chain;
  }

  /** The first seed of a key. */
  lemma SeedOne(h: Hashing, u: iset<Entry>, n: Node, remote: View, k: Key, keys: set<Key>)
    requires Sound(h, u) && ChainsOf(h, u, remote) && SeededSoFar(h, u, remote, n, keys)
    requires k in remote && k !in keys
    ensures SeededSoFar(h, u, remote, CheckOrPull(h, n, k, SeedMarker(h, remote, k), remote, None).0, keys + {k})
  {
    var n1, log := n.(store := n.store[k := Keyed([], None)]), remote[k].log;
    var n2 := CheckOrPull(h, n, k, SeedMarker(h, remote, k), remote, None).0;
    assert Chain(h, u, k, log) && Chain(h, u, k, []);
    PullIntoNew(h, u, n1, remote, k) by {
      assert ChainsOf(h, u, n1.store);
    }
    CheckNew(h, u, n, remote, k);
    hide *;
    SeededOneMore(h, u, remote, n, n2, k, keys);
  }

  /** A key that is new to a node is pulled, unless the seed's id is the one that stands for no entry. */
  lemma CheckNew(h: Hashing, u: iset<Entry>, n: Node, remote: View, k: Key)
    requires Sound(h, u) && ChainsOf(h, u, remote) && k in remote && k !in n.store
    ensures
      var n1, n2 := n.(store := n.store[k := Keyed([], None)]),
        CheckOrPull(h, n, k, SeedMarker(h, remote, k), remote, None).0;
      if remote[k].marker == Some(ZeroId(h.size)) || (remote[k].marker.None? && remote[k].log == [] && h.size == 0)
      then n2 == n1
      else n2 == PullKeylog(h, n1, k, remote, None).0
  {
    hide PullKeylog;
    var log := remote[k].log;
    assert log != [] ==> log[|log| - 1] in u;
  }

  lemma PullIntoNew(h: Hashing, u: iset<Entry>, n: Node, remote: View, k: Key)
    requires Sound(h, u) && ChainsOf(h, u, remote) && ChainsOf(h, u, n.store)
    requires k in remote && k in n.store && n.store[k] == Keyed([], None)
    ensures PullKeylog(h, n, k, remote, None).0.store ==
            n.store[k := Keyed(if k.bytes == [] then [] else remote[k].log, None)]
  {
    var log := remote[k].log;
    if k.bytes != [] {
      PullDichotomy(h, u, n, k, remote);
      assert log[0..] == log;
    } else {
      NothingServed(h, n, k, remote);
      assert n.store[k := n.store[k]] == n.store;
    }
  }

  lemma {:induction false} SeedsSoFar(h: Hashing, u: iset<Entry>, n: Node, remote: View, seeds: seq<KeySeed>)
    requires Sound(h, u) && ChainsOf(h, u, remote) && n.store == map[]
    requires forall i :: 0 <= i < |seeds| ==>
               seeds[i].key in remote && seeds[i].marker == SeedMarker(h, remote, seeds[i].key)
    requires forall i, j :: 0 <= i < j < |seeds| ==> seeds[i].key != seeds[j].key
    ensures SeededSoFar(h, u, remote, SeedAll(h, n, remote, seeds), KeysOf(seeds))
    decreases seeds
  {
    if seeds != [] {
      var m := |seeds| - 1;
      SeedsSoFar(h, u, n, remote, seeds[..m]);
      assert seeds == seeds[..m] + [seeds[m]];
      assert KeysOf(seeds) == KeysOf(seeds[..m]) + {seeds[m].key};
      SeedOne(h, u, SeedAll(h, n, remote, seeds[..m]), remote, seeds[m].key, KeysOf(seeds[..m]));
    }
  }

  /** Seeding an empty node from a quiet one, whatever the order of the seeds, copies its map of keys to logs exactly,
      keys with empty logs included: if and only if no key is marked there and nothing is logged under the empty key. */
  lemma SeedReproduces(h: Hashing, u: iset<Entry>, n: Node, remote: View, seeds: seq<KeySeed>)
    requires Sound(h, u) && ChainsOf(h, u, remote) && n.store == map[] && SeedsOf(h, remote, seeds)
    ensures SeedAll(h, n, remote, seeds).store == remote
            <==> forall k :: k in remote ==> remote[k].marker.None? && (k.bytes == [] ==> remote[k].log == [])
  {
    SeedsSoFar(h, u, n, remote, seeds);
    assert KeysOf(seeds) == remote.Keys;
    WhenSame(h, u, remote, SeedAll(h, n, remote, seeds));
  }

  lemma WhenSame(h: Hashing, u: iset<Entry>, remote: View, n: Node)
    requires SeededSoFar(h, u, remote, n, remote.Keys)
    ensures n.store == remote
            <==> forall k :: k in remote ==> remote[k].marker.None? && (k.bytes == [] ==> remote[k].log == [])
  {
    hide Chain;
    if forall k :: k in remote ==> remote[k].marker.None? && (k.bytes == [] ==> remote[k].log == []) {
      assert forall k :: k in remote ==> n.store[k] == remote[k];
    }
  }

  /** The log of a key is copied, whatever other keys are marked, if and only if it is empty, or is served and the key
      is not marked with the id that stands for no entry. Logs of unmarked keys always are, but for the empty key. */
  lemma SeedCopies(h: Hashing, u: iset<Entry>, n: Node, remote: View, seeds: seq<KeySeed>, k: Key)
    requires Sound(h, u) && ChainsOf(h, u, remote) && n.store == map[] && SeedsOf(h, remote, seeds)
    requires k in remote
    ensures LogOf(SeedAll(h, n, remote, seeds).store, k) == remote[k].log
            <==> remote[k].log == [] || (k.bytes != [] && remote[k].marker != Some(ZeroId(h.size)))
  {
    SeedsSoFar(h, u, n, remote, seeds);
    assert KeysOf(seeds) == remote.Keys;
    hide SeedAll;
  }
}
