/** The log of a node: in-memory stores (store_entry.go, store_index.go), Keylog (keylog.go) and LogStore
    (logstore.go). */
module LogStores {
  import opened HexTypes
  import opened Chains
  import opened KeylogIndexes
  import opened KeyOrders
  import opened StoreSpec

  class InMemEntryStore {
    var m: map<Id, Entry>

    constructor ()
      ensures m == map[]
    {
      m := map[];
    }

    function Get(id: Id): Option<Entry>
      reads this
    {
      if id in m then Some(m[id]) else None
    }

    method Set(id: Id, e: Entry)
      modifies this
      ensures m == old(m)[id := e]
    {
      m := m[id := e];
    }

    method Delete(id: Id) returns (err: Option<Error>)
      modifies this
      ensures m == old(m) - {id}
      ensures err == if id in old(m) then None else Some(ErrEntryNotFound)
    {
      if id in m {
        m := m - {id};
        return None;
      }
      return Some(ErrEntryNotFound);
    }
  }

  class InMemIndexStore {
    var m: map<Key, UnsafeKeylogIndex>

    /** Every index is filed under its own key; so no index is filed twice. */
    ghost predicate Valid()
      reads this
    {
      forall k :: k in m ==> m[k].key == k
    }

    constructor ()
      ensures Valid() && m == map[]
    {
      m := map[];
    }

    method NewKey(key: Key) returns (kli: UnsafeKeylogIndex?, err: Option<Error>)
      requires Valid()
      modifies this
      ensures Valid()
      ensures key in old(m) ==> kli == null && err == Some(ErrKeyExists) && m == old(m)
      ensures key !in old(m) ==>
                && kli != null && fresh(kli) && err.None? && m == old(m)[key := kli]
                && kli.State() == IndexState(key, [], 0, 0, None)
    {
      if key in m {
        return null, Some(ErrKeyExists);
      }
      kli := new UnsafeKeylogIndex(key, None);
      m := m[key := kli];
      err := None;
    }

    /** Marks an existing index unless it holds the entry; creates a marked one otherwise. */
    method MarkKey(key: Key, marker: Id) returns (kli: UnsafeKeylogIndex)
      requires Valid()
      modifies this, if key in m then {m[key]} else {}
      ensures Valid() && key in m && kli == m[key]
      ensures key in old(m) ==>
                && m == old(m)
                && kli.State() == (if marker in old(m[key].entries) then old(m[key].State())
                                   else old(m[key].State()).(marker := Some(marker)))
      ensures key !in old(m) ==>
                fresh(kli) && m == old(m)[key := kli] && kli.State() == IndexState(key, [], 0, 0, Some(marker))
    {
      if key in m {
        kli := m[key];
        var ok := kli.SetMarker(marker);
        return;
      }
      kli := new UnsafeKeylogIndex(key, Some(marker));
      m := m[key := kli];
    }

    /** sortedKeys: the keys from the map in whatever order, put in ascending order. */
    method SortedKeys() returns (keys: seq<Key>)
      ensures Sorted(keys, m.Keys)
    {
      keys := [];
      var rest := m.Keys;
      while rest != {}
        invariant rest <= m.Keys && Sorted(keys, m.Keys - rest)
        decreases |rest|
      {
        var k :| k in rest;
        Inserted(keys, k);
        keys := Insert(keys, k);
        rest := rest - {k};
      }
    }

    method RemoveKey(key: Key) returns (err: Option<Error>)
      requires Valid()
      modifies this
      ensures Valid() && m == old(m) - {key}
      ensures err == if key in old(m) then None else Some(ErrKeyNotFound)
    {
      if key in m {
        m := m - {key};
        return None;
      }
      return Some(ErrKeyNotFound);
    }
  }

  /** The log of one key: its index together with the shared entry store. */
  class Keylog {
    const entries: InMemEntryStore
    const idx: UnsafeKeylogIndex
    const h: Hashing

    constructor (entries: InMemEntryStore, idx: UnsafeKeylogIndex, h: Hashing)
      ensures this.entries == entries && this.idx == idx && this.h == h
    {
      this.entries, this.idx, this.h := entries, idx, h;
    }

    function LastEntry(): Option<Entry>
      reads idx, entries
    {
      var lid := idx.Last();
      if lid.None? then None else entries.Get(lid.value)
    }

    method AppendEntry(e: Entry) returns (err: Option<Error>)
      modifies entries, idx
      ensures entries.m == old(entries.m)[h.hash(e) := e]
      ensures err == if old(Accepts(idx.State(), e.previous)) then None else Some(ErrPreviousHash)
      ensures idx.State() == if err.None? then Appended(old(idx.State()), h.hash(e), e.ltime) else old(idx.State())
    {
      var id := h.hash(e);
      entries.Set(id, e);
      err := idx.Append(id, e.previous, e.ltime);
    }

    method RollbackEntry(e: Entry) returns (count: int, err: Option<Error>)
      modifies entries, idx
      ensures (idx.State(), entries.m, count, err) == RollbackIndex(h, old(idx.State()), old(entries.m), e)
    {
      var id := h.hash(e);
      var lid := idx.Last();
      if lid.None? {
        return 0, Some(ErrEntryNotFound);
      }
      if id != lid.value {
        return -1, Some(ErrNotLastEntry);
      }
      err := entries.Delete(id);
      if err.Some? {
        assert entries.m == old(entries.m);
        return |idx.entries|, err;
      }
      var ltime := 0;
      var last := entries.Get(e.previous);
      if last.Some? {
        ltime := last.value.ltime;
      }
      var n, ok := idx.Rollback(ltime);
      return n, None;
    }

    /** Hands the entries from `seek` on to `cb`, until it fails; an id without a stored entry ends the iteration as
        well. */
    method Iter(seek: Option<Id>, cb: (Id, Entry) -> Option<Error>) returns (err: Option<Error>, out: seq<Entry>)
      ensures From(idx.entries, seek).None? ==> err == Some(ErrEntryNotFound) && out == []
      ensures From(idx.entries, seek).Some? ==>
                var ids := From(idx.entries, seek).value;
                && |out| <= |ids|
                && (forall i :: 0 <= i < |out| ==> ids[i] in entries.m && out[i] == entries.m[ids[i]])
                && (forall i :: 0 <= i < |out| - 1 ==> cb(ids[i], out[i]).None?)
                && (if err.None? then |out| == |ids| && LastCall(cb, ids, out).None?
                    else LastCall(cb, ids, out) == err
                         || (LastCall(cb, ids, out).None? && err == Some(ErrEntryNotFound)
                             && |out| < |ids| && ids[|out|] !in entries.m))
    {
      var m := entries.m;
      var visited;
      err, visited := idx.Iter(seek, id => if id in m then cb(id, m[id]) else Some(ErrEntryNotFound));
      out := [];
      if From(idx.entries, seek).None? {
        return;
      }
      ghost var ids := From(idx.entries, seek).value;
      assert forall i :: 0 <= i < |visited| ==> visited[i] == ids[i];
      var i := 0;
      while i < |visited| && visited[i] in m
        invariant 0 <= i <= |visited| && |out| == i
        invariant forall j :: 0 <= j < i ==> visited[j] in m && out[j] == m[visited[j]]
      {
        out := out + [m[visited[i]]];
        i := i + 1;
      }
    }
  }

  /** What the callback answered to the last entry it was given. */
  function LastCall(cb: (Id, Entry) -> Option<Error>, ids: seq<Id>, out: seq<Entry>): Option<Error>
    requires |out| <= |ids|
  {
    if out == [] then None else cb(ids[|out| - 1], out[|out| - 1])
  }

  class LogStore {
    const index: InMemIndexStore
    const entries: InMemEntryStore
    const h: Hashing
    /** The entries that hashing is assumed free of collisions on. */
    ghost const u: iset<Entry>

    constructor (entries: InMemEntryStore, index: InMemIndexStore, h: Hashing, ghost u: iset<Entry>)
      requires Sound(h, u) && entries.m == map[] && index.m == map[]
      ensures this.entries == entries && this.index == index && this.h == h && this.u == u
      ensures Valid() && View() == map[]
    {
      this.entries, this.index, this.h, this.u := entries, index, h, u;
    }

    ghost function Repr(): set<object>
      reads index
    {
      {index, entries} + index.m.Values
    }

    ghost function State(): StoreState
      reads index, entries, index.m.Values
    {
      StoreState(map k | k in index.m :: index.m[k].State(), entries.m)
    }

    ghost predicate Valid()
      reads index, entries, index.m.Values
    {
      index.Valid() && ValidStore(h, u, State())
    }

    /** The map from keys to logs that the two stores stand for. */
    ghost function View(): (v: View)
      reads index, entries, index.m.Values
      requires Valid()
      ensures v.Keys == index.m.Keys
    {
      ViewOf(h, u, State())
    }

    // Each operation that changes the stores comes twice: on the two stores as they are, for any contents, and on
    // the map from keys to logs.

    method NewKeyStores(key: Key) returns (err: Option<Error>)
      requires index.Valid()
      modifies index
      ensures index.Valid() && fresh(Repr() - old(Repr()))
      ensures (State(), err) == NewKeyStore(old(State()), key)
    {
      ghost var st := State();
      var kli;
      kli, err := index.NewKey(key);
      assert State().index == NewKeyStore(st, key).0.index;
    }

    method NewKey(key: Key) returns (err: Option<Error>)
      requires Valid()
      modifies index
      ensures Valid() && fresh(Repr() - old(Repr()))
      ensures View() == if key in old(View()) then old(View()) else old(View())[key := Keyed([], None)]
      ensures err == if key in old(View()) then Some(ErrKeyExists) else None
    {
      NewKeyRefines(h, u, State(), key);
      err := NewKeyStores(key);
    }

    function GetKey(key: Key): (r: Option<UnsafeKeylogIndex>)
      reads index
      ensures r == if key in index.m then Some(index.m[key]) else None
    {
      if key in index.m then Some(index.m[key]) else None
    }

    method LastEntry(key: Key) returns (last: Option<Entry>)
      requires Valid()
      ensures last == if LogOf(View(), key) == [] then None else Some(LogOf(View(), key)[|LogOf(View(), key)| - 1])
    {
      var idx := GetKey(key);
      if idx.None? {
        return None;
      }
      assert ValidKey(h, u, State().entries, key, State().index[key]);
      assert State().index[key] == idx.value.State();
      assert LogOf(View(), key) == Resolve(entries.m, idx.value.entries);
      var lid := idx.value.Last();
      if lid.None? {
        return None;
      }
      last := entries.Get(lid.value);
    }

    method NewEntryStores(key: Key, timestamp: uint64) returns (e: Entry)
      requires index.Valid()
      ensures e == NextEntryStore(h, State(), key, timestamp)
    {
      var prev: Option<Id> := None;
      var height: uint32 := 0;
      var idx := GetKey(key);
      if idx.Some? {
        assert State().index[key] == idx.value.State();
        prev := idx.value.Last();
        height := ToUint32(|idx.value.entries| + 1);
      }
      if prev.None? {
        prev := Some(ZeroId(h.size));
        height := 1;
      }
      e := Entry(key, prev.value, height, timestamp, 0, []);
    }

    method NewEntry(key: Key, timestamp: uint64) returns (e: Entry)
      requires Valid()
      ensures e == NextEntry(h, View(), key, timestamp)
      ensures e.key == key && e.timestamp == timestamp && e.ltime == 0 && e.data == []
      ensures MadeFrom(h, LogOf(View(), key), e)
      ensures key in View() ==> AppendView(h, View(), e).1.None?
    {
      NextIsAccepted(h, View(), key, timestamp);
      NextEntryRefines(h, u, State(), key, timestamp);
      e := NewEntryStores(key, timestamp);
    }

    method AppendStores(e: Entry) returns (err: Option<Error>)
      requires index.Valid()
      modifies entries, if e.key in index.m then {index.m[e.key]} else {}
      ensures (State(), err) == AppendStore(h, old(State()), e)
    {
      ghost var st := State();
      var idx := GetKey(e.key);
      if idx.None? {
        return Some(ErrKeyNotFound);
      }
      assert st.index[e.key] == idx.value.State();
      var keylog := new Keylog(entries, idx.value, h);
      ZeroIdUnique(e.previous);
      err := keylog.AppendEntry(e);
      assert State().index == AppendStore(h, st, e).0.index;
    }

    method AppendEntry(e: Entry) returns (err: Option<Error>)
      requires Valid() && e in u
      modifies entries, if e.key in index.m then {index.m[e.key]} else {}
      ensures Valid()
      ensures (View(), err) == AppendView(h, old(View()), e)
    {
      AppendRefines(h, u, State(), e);
      err := AppendStores(e);
    }

    method RemoveStores(key: Key) returns (err: Option<Error>)
      requires index.Valid() && Whole(State(), key)
      modifies index, entries
      ensures index.Valid()
      ensures (State(), err) == RemoveStore(old(State()), key)
    {
      ghost var st := State();
      var idx := GetKey(key);
      if idx.None? {
        return Some(ErrKeyNotFound);
      }
      var ids := idx.value.entries;
      assert ids == st.index[key].ids;
      err := index.RemoveKey(key);
      var i := 0;
      while i < |ids|
        invariant 0 <= i <= |ids|
        invariant index.m == old(index.m) - {key} && index.Valid()
        invariant entries.m == old(entries.m) - (set id | id in ids[..i])
        invariant err.None?
      {
        assert ids[i] in entries.m;
        if entries.Get(ids[i]).None? {
          return;
        }
        var failed := entries.Delete(ids[i]);
        assert ids[..i + 1] == ids[..i] + [ids[i]];
        i := i + 1;
      }
      assert ids[..i] == ids;
      assert State().index == st.index - {key};
    }

    method RemoveKey(key: Key) returns (err: Option<Error>)
      requires Valid()
      modifies index, entries
      ensures Valid()
      ensures View() == old(View()) - {key}
      ensures err == if key in old(View()) then None else Some(ErrKeyNotFound)
    {
      RemoveRefines(h, u, State(), key);
      ValidIsWhole(h, u, State(), key);
      err := RemoveStores(key);
    }

    method RollbackStores(e: Entry) returns (err: Option<Error>)
      requires index.Valid()
      modifies index, entries, if e.key in index.m then {index.m[e.key]} else {}
      ensures index.Valid()
      ensures (State(), err) == RollbackStore(h, old(State()), e)
    {
      ghost var st := State();
      var idx := GetKey(e.key);
      if idx.None? {
        return Some(ErrKeyNotFound);
      }
      var keylog := new Keylog(entries, idx.value, h);
      assert st.index[e.key] == idx.value.State();
      var count;
      count, err := keylog.RollbackEntry(e);
      assert State().index == RollbackKeylog(h, st, e).0.index;
      if count == 0 {
        assert State().index[e.key].ids == [];
        var er := RemoveStores(e.key);
      }
    }

    method RollbackEntry(e: Entry) returns (err: Option<Error>)
      requires Valid() && e in u
      modifies index, entries, if e.key in index.m then {index.m[e.key]} else {}
      ensures Valid()
      ensures (View(), err) == RollbackView(h, old(View()), e)
    {
      RollbackRefines(h, u, State(), e);
      err := RollbackStores(e);
    }

    /** The seed of a key: its marker, or else its last id, with height and time. */
    method SeedAt(k: Key) returns (seed: KeySeed)
      requires index.Valid() && k in index.m
      ensures seed == SeedOfIndex(index.m[k].State())
    {
      var idx := index.m[k];
      var marker := idx.marker;
      if marker.None? {
        marker := idx.Last();
      }
      seed := KeySeed(k, if marker.Some? then marker.value else Id([]), idx.height, idx.ltime);
    }

    method IterKeySeedStores(f: KeySeed -> Option<Error>)
      returns (err: Option<Error>, seeds: seq<KeySeed>, ghost keys: seq<Key>)
      requires index.Valid()
      ensures Sorted(keys, State().index.Keys) && Seeding(f, State().index, keys, seeds, err)
    {
      ghost var st := State().index;
      var ks := index.SortedKeys();
      keys := ks;
      seeds := [];
      err := None;
      SeedingNothing(f, st, ks);
      var i := 0;
      while i < |ks| && err.None?
        invariant i <= |ks| && Sorted(ks, index.m.Keys) && Seeding(f, st, ks[..i], seeds, err)
      {
        assert ks[i] in ks;
        var seed := SeedAt(ks[i]);
        hide Seeding, Sorted;
        SeedingMore(f, st, ks, i, seeds, seed);
        seeds := seeds + [seed];
        err := f(seed);
        i := i + 1;
      }
      SeedingEnds(f, st, ks, i, seeds, err);
    }

    /** Hands the seeds of the keys to `f`, in ascending order of the keys, until it fails. */
    method IterKeySeed(f: KeySeed -> Option<Error>) returns (err: Option<Error>, seeds: seq<KeySeed>)
      requires Valid()
      ensures err.None? ==> SeedsOf(h, View(), seeds) && forall seed :: seed in seeds ==> f(seed).None?
      ensures err.Some? ==> seeds != [] && f(seeds[|seeds| - 1]) == err && Upto(View(), seeds)
      ensures forall i :: 0 <= i < |seeds| ==> SeedOk(h, View(), seeds[i])
      ensures Timed(State().index, seeds)
      ensures forall i :: 0 <= i < |seeds| - 1 ==> f(seeds[i]).None? && KeyBelow(seeds[i].key, seeds[i + 1].key)
    {
      ghost var keys;
      ghost var st := State();
      err, seeds, keys := IterKeySeedStores(f);
      SeedsFromStore(f, h, u, st, keys, seeds, err);
      assert State() == st;
      hide Valid, State, SeedsOf, Upto, SeedOk, KeyBelow, Timed;
    }

    method PullStores(key: Key, seek: Option<Id>) returns (out: seq<Entry>, err: Option<Error>)
      requires index.Valid() && Stored(State(), key)
      ensures (out, err) == ServeStore(State(), key, seek)
    {
      if |key.bytes| == 0 {
        return [], Some(ErrKeyInvalid);
      }
      var idx := GetKey(key);
      if idx.None? {
        return [], Some(ErrKeyNotFound);
      }
      assert State().index[key].ids == idx.value.entries;
      var keylog := new Keylog(entries, idx.value, h);
      err, out := keylog.Iter(seek, (id, e) => None);
      if err.None? {
        assert out == Resolve(State().entries, From(State().index[key].ids, seek).value);
      }
    }

    /** PullKeylogRPC: the entries streamed for a request, and how the stream ends. */
    method PullKeylogRPC(key: Key, seek: Option<Id>) returns (out: seq<Entry>, err: Option<Error>)
      requires Valid()
      ensures (out, err) == Serve(h, View(), key, seek)
    {
      ServeRefines(h, u, State(), key, seek);
      out, err := PullStores(key, seek);
    }
  }

  /** `f` has been given the seeds of the first of `keys`; all but the last without an error, and all of them if the
      last one was without an error as well. */
  ghost predicate Seeding(f: KeySeed -> Option<Error>, index: map<Key, IndexState>, keys: seq<Key>, seeds: seq<KeySeed>,
                          err: Option<Error>) {
    && |seeds| <= |keys|
    && (forall i :: 0 <= i < |seeds| ==> keys[i] in index && seeds[i] == SeedOfIndex(index[keys[i]]))
    && (forall i :: 0 <= i < |seeds| - 1 ==> f(seeds[i]).None?)
    && err == (if seeds == [] then None else f(seeds[|seeds| - 1]))
    && (err.None? ==> |seeds| == |keys|)
  }

  lemma SeedingNothing(f: KeySeed -> Option<Error>, index: map<Key, IndexState>, keys: seq<Key>)
    ensures Seeding(f, index, keys[..0], [], None)
  {
  }

  lemma SeedingMore(f: KeySeed -> Option<Error>, index: map<Key, IndexState>, keys: seq<Key>, i: nat,
                    seeds: seq<KeySeed>, seed: KeySeed)
    requires i < |keys| && Seeding(f, index, keys[..i], seeds, None)
    requires keys[i] in index && seed == SeedOfIndex(index[keys[i]])
    ensures Seeding(f, index, keys[..i + 1], seeds + [seed], f(seed))
  {
  }

  lemma SeedingEnds(f: KeySeed -> Option<Error>, index: map<Key, IndexState>, keys: seq<Key>, i: nat,
                    seeds: seq<KeySeed>, err: Option<Error>)
    requires i <= |keys| && Seeding(f, index, keys[..i], seeds, err) && (err.Some? || i == |keys|)
    ensures Seeding(f, index, keys, seeds, err)
  {
  }

  /** What a seed says of the log of its key. */
  ghost predicate SeedOk(h: Hashing, v: View, seed: KeySeed) {
    seed.key in v && seed.marker == SeedMarker(h, v, seed.key) && seed.height == ToUint32(|v[seed.key].log|)
  }

  /** Each seed has the time of its key. */
  ghost predicate Timed(index: map<Key, IndexState>, seeds: seq<KeySeed>) {
    forall i :: 0 <= i < |seeds| ==> seeds[i].key in index && seeds[i].ltime == index[seeds[i].key].ltime
  }

  /** The seeds of the keys up to some point in their order. */
  ghost predicate Upto(v: View, seeds: seq<KeySeed>)
    requires seeds != []
  {
    forall k :: k in v && k != seeds[|seeds| - 1].key ==>
      (KeyBelow(k, seeds[|seeds| - 1].key) <==> exists i :: 0 <= i < |seeds| && seeds[i].key == k)
  }

  /** The seeds given to `f` are in order, tell of their keys, and are those of all keys unless `f` has failed. */
  ghost predicate Seeded(f: KeySeed -> Option<Error>, h: Hashing, v: View, seeds: seq<KeySeed>, err: Option<Error>) {
    && (err.None? ==> SeedsOf(h, v, seeds) && forall seed :: seed in seeds ==> f(seed).None?)
    && (err.Some? ==> seeds != [] && f(seeds[|seeds| - 1]) == err && Upto(v, seeds))
    && (forall i :: 0 <= i < |seeds| ==> SeedOk(h, v, seeds[i]))
    && (forall i :: 0 <= i < |seeds| - 1 ==> f(seeds[i]).None? && KeyBelow(seeds[i].key, seeds[i + 1].key))
  }

  lemma SeedsFromStore(f: KeySeed -> Option<Error>, h: Hashing, u: iset<Entry>, st: StoreState, keys: seq<Key>,
                       seeds: seq<KeySeed>, err: Option<Error>)
    requires ValidStore(h, u, st) && Sorted(keys, st.index.Keys) && Seeding(f, st.index, keys, seeds, err)
    ensures Seeded(f, h, ViewOf(h, u, st), seeds, err)
    ensures Timed(st.index, seeds)
  {
    var v := ViewOf(h, u, st);
    assert v.Keys == st.index.Keys;
    forall i | 0 <= i < |seeds|
      ensures seeds[i].key == keys[i] && SeedOk(h, v, seeds[i])
      ensures seeds[i].key in st.index && seeds[i].ltime == st.index[seeds[i].key].ltime
    {
      hide ValidStore, ViewOf, Sorted, SeedMarker;
      SeedFromIndex(h, u, st, keys[i]);
    }
    assert |seeds| <= |keys|;
    hide *;
    SeedsInOrder(f, h, v, st.index, keys, seeds, err);
  }

  lemma SeedsInOrder(f: KeySeed -> Option<Error>, h: Hashing, v: View, index: map<Key, IndexState>, keys: seq<Key>,
                     seeds: seq<KeySeed>, err: Option<Error>)
    requires Sorted(keys, v.Keys) && Seeding(f, index, keys, seeds, err)
    requires |seeds| <= |keys| && forall i :: 0 <= i < |seeds| ==> seeds[i].key == keys[i] && SeedOk(h, v, seeds[i])
    ensures Seeded(f, h, v, seeds, err)
  {
    SortedApart(keys);
    if err.None? {
      AllSeeds(h, v, keys, seeds);
      hide SeedsOf, SeedOk, KeyBelow, Upto, SeedOfIndex;
      assert forall i :: 0 <= i < |seeds| ==> f(seeds[i]).None?;
    } else {
      hide KeyBelow, SeedOk, SeedsOf, SeedOfIndex;
      UptoLast(v, keys, seeds);
    }
  }

  lemma AllSeeds(h: Hashing, v: View, keys: seq<Key>, seeds: seq<KeySeed>)
    requires Sorted(keys, v.Keys) && |seeds| == |keys|
    requires forall i :: 0 <= i < |seeds| ==> seeds[i].key == keys[i] && SeedOk(h, v, seeds[i])
    requires forall i, j :: 0 <= i < j < |keys| ==> keys[i] != keys[j]
    ensures SeedsOf(h, v, seeds)
  {
    hide KeyBelow, SeedMarker;
    forall k | k in v
      ensures exists i :: 0 <= i < |seeds| && seeds[i].key == k
    {
      var i :| 0 <= i < |keys| && keys[i] == k;
      assert seeds[i].key == k;
    }
  }

  lemma SortedApart(keys: seq<Key>)
    requires Ascending(keys)
    ensures forall i, j :: 0 <= i < j < |keys| ==> keys[i] != keys[j] && !KeyBelow(keys[j], keys[i])
  {
    forall i, j | 0 <= i < j < |keys|
      ensures keys[i] != keys[j] && !KeyBelow(keys[j], keys[i])
    {
      BelowIsStrict(keys[i].bytes, keys[j].bytes);
    }
  }

  lemma UptoLast(v: View, keys: seq<Key>, seeds: seq<KeySeed>)
    requires seeds != [] && |seeds| <= |keys| && Sorted(keys, v.Keys)
    requires forall i :: 0 <= i < |seeds| ==> seeds[i].key == keys[i]
    requires forall i, j :: 0 <= i < j < |keys| ==> keys[i] != keys[j] && !KeyBelow(keys[j], keys[i])
    ensures Upto(v, seeds)
  {
    var n := |seeds| - 1;
    forall k | k in v && k != seeds[n].key
      ensures KeyBelow(k, seeds[n].key) <==> exists i :: 0 <= i < |seeds| && seeds[i].key == k
    {
      var j :| 0 <= j < |keys| && keys[j] == k;
      if j < n {
        assert seeds[j].key == k;
      }
    }
    hide KeyBelow;
  }
}
