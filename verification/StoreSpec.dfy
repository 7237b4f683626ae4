/** What the log store holds, as values, and the map from keys to logs it stands for. */
module StoreSpec {
  import opened HexTypes
  import opened Chains
  import opened KeylogIndexes

  /** The two stores behind a LogStore: one index per key, and one id-to-entry map shared by all keys. */
  datatype StoreState = StoreState(index: map<Key, IndexState>, entries: map<Id, Entry>)

  /** A key's log as its users see it. */
  datatype Keyed = Keyed(log: seq<Entry>, marker: Option<Id>)

  type View = map<Key, Keyed>

  function LogOf(v: View, k: Key): seq<Entry> {
    if k in v then v[k].log else []
  }

  // ---- the stores, step by step as the code updates them

  function NewKeyStore(st: StoreState, k: Key): (StoreState, Option<Error>) {
    if k in st.index then (st, Some(ErrKeyExists))
    else (st.(index := st.index[k := IndexState(k, [], 0, 0, None)]), None)
  }

  /** The entry is stored before the index accepts or rejects its id. */
  function AppendStore(h: Hashing, st: StoreState, e: Entry): (r: (StoreState, Option<Error>)) {
    if e.key !in st.index then (st, Some(ErrKeyNotFound))
    else
      var id := h.hash(e);
      var st' := st.(entries := st.entries[id := e]);
      var s := st.index[e.key];
      if (s.ids == [] && e.previous == ZeroId(|e.previous.bytes|))
        || (s.ids != [] && s.ids[|s.ids| - 1] == e.previous) then
        (st'.(index := st.index[e.key := Appended(s, id, e.ltime)]), None)
      else (st', Some(ErrPreviousHash))
  }

  function RemoveStore(st: StoreState, k: Key): (StoreState, Option<Error>) {
    if k !in st.index then (st, Some(ErrKeyNotFound))
    else (StoreState(st.index - {k}, st.entries - (set id | id in st.index[k].ids)), None)
  }

  /** Keylog.RollbackEntry on one index; the number is the count LogStore.RollbackEntry looks at. */
  function RollbackIndex(h: Hashing, s: IndexState, entries: map<Id, Entry>, e: Entry)
    : (IndexState, map<Id, Entry>, int, Option<Error>)
  {
    if s.ids == [] then (s, entries, 0, Some(ErrEntryNotFound))
    else if s.ids[|s.ids| - 1] != h.hash(e) then (s, entries, -1, Some(ErrNotLastEntry))
    else if h.hash(e) !in entries then (s, entries, |s.ids|, Some(ErrEntryNotFound))
    else
      var entries' := entries - {h.hash(e)};
      var ltime := if e.previous in entries' then entries'[e.previous].ltime else 0;
      (RolledBack(s, ltime), entries', |s.ids| - 1, None)
  }

  function RollbackKeylog(h: Hashing, st: StoreState, e: Entry): (StoreState, int, Option<Error>)
    requires e.key in st.index
  {
    var (s, entries, count, err) := RollbackIndex(h, st.index[e.key], st.entries, e);
    (StoreState(st.index[e.key := s], entries), count, err)
  }

  function RollbackStore(h: Hashing, st: StoreState, e: Entry): (StoreState, Option<Error>) {
    if e.key !in st.index then (st, Some(ErrKeyNotFound))
    else
      var (st', count, err) := RollbackKeylog(h, st, e);
      (if count == 0 then RemoveStore(st', e.key).0 else st', err)
  }

  // ---- the map from keys to logs

  function Resolve(entries: map<Id, Entry>, ids: seq<Id>): (log: seq<Entry>)
    requires forall i :: 0 <= i < |ids| ==> ids[i] in entries
    ensures |log| == |ids|
  {
    seq(|ids|, i requires 0 <= i < |ids| => entries[ids[i]])
  }

  ghost predicate ValidKey(h: Hashing, u: iset<Entry>, entries: map<Id, Entry>, k: Key, s: IndexState) {
    && s.key == k
    && s.height == ToUint32(|s.ids|)
    && (forall i :: 0 <= i < |s.ids| ==> s.ids[i] in entries)
    && Chain(h, u, k, Resolve(entries, s.ids))
  }

  ghost predicate ValidStore(h: Hashing, u: iset<Entry>, st: StoreState) {
    && Sound(h, u)
    && (forall id :: id in st.entries ==> st.entries[id] in u && h.hash(st.entries[id]) == id)
    && (forall k :: k in st.index ==> ValidKey(h, u, st.entries, k, st.index[k]))
  }

  ghost function ViewOf(h: Hashing, u: iset<Entry>, st: StoreState): (v: View)
    requires ValidStore(h, u, st)
    ensures v.Keys == st.index.Keys
  {
    map k | k in st.index :: Keyed(Resolve(st.entries, st.index[k].ids), st.index[k].marker)
  }

  function AppendView(h: Hashing, v: View, e: Entry): (View, Option<Error>) {
    if e.key !in v then (v, Some(ErrKeyNotFound))
    else if e.previous != LastId(h, v[e.key].log) then (v, Some(ErrPreviousHash))
    else (v[e.key := Keyed(v[e.key].log + [e], ClearMarker(v[e.key].marker, h.hash(e)))], None)
  }

  function RollbackView(h: Hashing, v: View, e: Entry): (View, Option<Error>) {
    if e.key !in v then (v, Some(ErrKeyNotFound))
    else
      var log := v[e.key].log;
      if log == [] then (v - {e.key}, Some(ErrEntryNotFound))
      else if log[|log| - 1] != e then (v, Some(ErrNotLastEntry))
      else if |log| == 1 then (v - {e.key}, None)
      else (v[e.key := v[e.key].(log := log[..|log| - 1])], None)
  }

  /** What an append answers, and what it changes: the log of the entry's key, by the entry, if that is there and the
      entry names its last id. */
  lemma AppendOutcome(h: Hashing, v: View, e: Entry)
    ensures
      var (v', err) := AppendView(h, v, e);
      && (err == Some(ErrKeyNotFound) <==> e.key !in v)
      && (err == Some(ErrPreviousHash) <==> e.key in v && e.previous != LastId(h, LogOf(v, e.key)))
      && (err.Some? ==> v' == v && (err.value == ErrKeyNotFound || err.value == ErrPreviousHash))
      && (err.None? ==>
            && v'.Keys == v.Keys && LogOf(v', e.key) == LogOf(v, e.key) + [e] && v' - {e.key} == v - {e.key}
            && v'[e.key].marker == if v[e.key].marker == Some(h.hash(e)) then None else v[e.key].marker)
  {
  }

  /** What a rollback answers, and what it leaves of the log of the entry's key; other keys are not touched. */
  lemma RollbackOutcome(h: Hashing, v: View, e: Entry)
    ensures
      var ((v', err), log) := (RollbackView(h, v, e), LogOf(v, e.key));
      && (err == Some(ErrKeyNotFound) <==> e.key !in v)
      && (err == Some(ErrEntryNotFound) <==> e.key in v && log == [])
      && (err == Some(ErrNotLastEntry) <==> log != [] && log[|log| - 1] != e)
      && (err.None? <==> log != [] && log[|log| - 1] == e)
      && v' - {e.key} == v - {e.key}
      && (err.None? ==> LogOf(v', e.key) + [e] == log)
      && (err.Some? ==> LogOf(v', e.key) == log)
      && (e.key in v' <==> e.key in v && log != [] && (|log| > 1 || err.Some?))
      && (e.key in v' ==> v'[e.key].marker == v[e.key].marker)
  {
  }

  // ---- refinement

  /** Indexed ids are the ids of the entries they resolve to. */
  lemma ResolvedIds(h: Hashing, u: iset<Entry>, st: StoreState, k: Key)
    requires ValidStore(h, u, st) && k in st.index
    ensures
      var s, log := st.index[k], Resolve(st.entries, st.index[k].ids);
      && (forall i :: 0 <= i < |s.ids| ==> h.hash(log[i]) == s.ids[i])
      && LastId(h, log) == (if s.ids == [] then ZeroId(h.size) else s.ids[|s.ids| - 1])
  {
  }

  /** What a next entry has to follow, read off the index. */
  lemma LastFromIndex(h: Hashing, u: iset<Entry>, st: StoreState, k: Key)
    requires ValidStore(h, u, st)
    ensures
      var ids, log := if k in st.index then st.index[k].ids else [], LogOf(ViewOf(h, u, st), k);
      |log| == |ids| && LastId(h, log) == (if ids == [] then ZeroId(h.size) else ids[|ids| - 1])
  {
    if k in st.index {
      ResolvedIds(h, u, st, k);
    }
  }

  lemma ResolveSame(a: map<Id, Entry>, b: map<Id, Entry>, ids: seq<Id>)
    requires forall i :: 0 <= i < |ids| ==> ids[i] in a && ids[i] in b && a[ids[i]] == b[ids[i]]
    ensures Resolve(a, ids) == Resolve(b, ids)
  {
  }

  /** Replacing the index of one key by a valid one changes that key's log only. */
  lemma SetIndex(h: Hashing, u: iset<Entry>, st: StoreState, k: Key, s: IndexState)
    requires ValidStore(h, u, st) && ValidKey(h, u, st.entries, k, s)
    ensures
      var st' := st.(index := st.index[k := s]);
      && ValidStore(h, u, st')
      && ViewOf(h, u, st') == ViewOf(h, u, st)[k := Keyed(Resolve(st.entries, s.ids), s.marker)]
  {
  }

  /** Storing an entry under its id changes no log. */
  lemma SetEntry(h: Hashing, u: iset<Entry>, st: StoreState, e: Entry)
    requires ValidStore(h, u, st) && e in u
    ensures
      var st' := st.(entries := st.entries[h.hash(e) := e]);
      && ValidStore(h, u, st')
      && ViewOf(h, u, st') == ViewOf(h, u, st)
  {
    var st' := st.(entries := st.entries[h.hash(e) := e]);
    if h.hash(e) in st.entries {
      SameEntry(h, u, st.entries[h.hash(e)], e);
    }
    forall k | k in st.index
      ensures ValidKey(h, u, st'.entries, k, st.index[k])
      ensures Resolve(st'.entries, st.index[k].ids) == Resolve(st.entries, st.index[k].ids)
    {
      ResolveSame(st'.entries, st.entries, st.index[k].ids);
    }
  }

  /** Deleting entries that no index names changes no log. */
  lemma DropUnused(h: Hashing, u: iset<Entry>, st: StoreState, unused: set<Id>)
    requires ValidStore(h, u, st)
    requires forall k, i :: k in st.index && 0 <= i < |st.index[k].ids| ==> st.index[k].ids[i] !in unused
    ensures
      var st' := st.(entries := st.entries - unused);
      && ValidStore(h, u, st')
      && ViewOf(h, u, st') == ViewOf(h, u, st)
  {
    var st' := st.(entries := st.entries - unused);
    forall k | k in st.index
      ensures ValidKey(h, u, st'.entries, k, st.index[k])
      ensures Resolve(st'.entries, st.index[k].ids) == Resolve(st.entries, st.index[k].ids)
    {
      ResolveSame(st'.entries, st.entries, st.index[k].ids);
    }
  }

  lemma NewKeyRefines(h: Hashing, u: iset<Entry>, st: StoreState, k: Key)
    requires ValidStore(h, u, st)
    ensures
      var (st', err) := NewKeyStore(st, k);
      var v := ViewOf(h, u, st);
      && ValidStore(h, u, st')
      && ViewOf(h, u, st') == (if k in v then v else v[k := Keyed([], None)])
      && err == (if k in v then Some(ErrKeyExists) else None)
  {
    if k !in st.index {
      assert Resolve(st.entries, []) == [];
      SetIndex(h, u, st, k, IndexState(k, [], 0, 0, None));
    }
  }

  lemma AppendedValid(h: Hashing, u: iset<Entry>, st: StoreState, e: Entry)
    requires ValidStore(h, u, st) && e in u && e.key in st.index
    requires h.hash(e) in st.entries && st.entries[h.hash(e)] == e
    requires e.previous == LastId(h, Resolve(st.entries, st.index[e.key].ids))
    ensures
      var s' := Appended(st.index[e.key], h.hash(e), e.ltime);
      && ValidKey(h, u, st.entries, e.key, s')
      && Resolve(st.entries, s'.ids) == Resolve(st.entries, st.index[e.key].ids) + [e]
  {
    var s := st.index[e.key];
    ChainAppend(h, u, e.key, Resolve(st.entries, s.ids), e);
    ResolveAppend(st.entries, s.ids, h.hash(e));
  }

  lemma ResolveAppend(entries: map<Id, Entry>, ids: seq<Id>, id: Id)
    requires (forall i :: 0 <= i < |ids| ==> ids[i] in entries) && id in entries
    ensures Resolve(entries, ids + [id]) == Resolve(entries, ids) + [entries[id]]
  {
  }

  lemma ResolvePrefix(entries: map<Id, Entry>, ids: seq<Id>, n: nat)
    requires (forall i :: 0 <= i < |ids| ==> ids[i] in entries) && n <= |ids|
    ensures Resolve(entries, ids[..n]) == Resolve(entries, ids)[..n]
  {
  }

  /** AppendEntry accepts an entry exactly when it follows the last one of its key, adds nothing but that entry to
      nothing but that log, and leaves every log as it was when it refuses. */
  lemma AppendRefines(h: Hashing, u: iset<Entry>, st: StoreState, e: Entry)
    requires ValidStore(h, u, st) && e in u
    ensures
      var (st', err) := AppendStore(h, st, e);
      && ValidStore(h, u, st')
      && (ViewOf(h, u, st'), err) == AppendView(h, ViewOf(h, u, st), e)
  {
    if e.key in st.index {
      var st1 := st.(entries := st.entries[h.hash(e) := e]);
      SetEntry(h, u, st, e);
      assert ViewOf(h, u, st)[e.key] == ViewOf(h, u, st1)[e.key];
      ResolvedIds(h, u, st1, e.key);
      assert AppendStore(h, st, e).1.None? <==> e.previous == LastId(h, Resolve(st1.entries, st1.index[e.key].ids));
      if AppendStore(h, st, e).1.None? {
        AppendedValid(h, u, st1, e);
        SetIndex(h, u, st1, e.key, Appended(st1.index[e.key], h.hash(e), e.ltime));
      }
    }
  }

  /** Two keys never share an id. */
  lemma IdsOfOneKey(h: Hashing, u: iset<Entry>, st: StoreState, k: Key, k': Key)
    requires ValidStore(h, u, st) && k in st.index && k' in st.index && k != k'
    ensures forall i :: 0 <= i < |st.index[k'].ids| ==> st.index[k'].ids[i] !in st.index[k].ids
  {
    var ids, ids' := st.index[k].ids, st.index[k'].ids;
    assert forall i :: 0 <= i < |ids| ==> Resolve(st.entries, ids)[i].key == k && st.entries[ids[i]].key == k;
    assert forall i :: 0 <= i < |ids'| ==> Resolve(st.entries, ids')[i].key == k' && st.entries[ids'[i]].key == k';
  }

  /** RemoveKey deletes the key with exactly its indexed entries; the other logs stay. */
  lemma RemoveRefines(h: Hashing, u: iset<Entry>, st: StoreState, k: Key)
    requires ValidStore(h, u, st)
    ensures
      var (st', err) := RemoveStore(st, k);
      && ValidStore(h, u, st')
      && ViewOf(h, u, st') == ViewOf(h, u, st) - {k}
      && err == (if k in st.index then None else Some(ErrKeyNotFound))
      && (forall id :: id in st'.entries <==> id in st.entries && !(k in st.index && id in st.index[k].ids))
  {
    if k in st.index {
      var st1 := st.(index := st.index - {k});
      assert ViewOf(h, u, st1) == ViewOf(h, u, st) - {k};
      forall k', i | k' in st1.index && 0 <= i < |st1.index[k'].ids|
        ensures st1.index[k'].ids[i] !in (set id | id in st.index[k].ids)
      {
        IdsOfOneKey(h, u, st, k, k');
      }
      DropUnused(h, u, st1, set id | id in st.index[k].ids);
    } else {
      assert ViewOf(h, u, st) - {k} == ViewOf(h, u, st);
    }
  }

  lemma RolledBackValid(h: Hashing, u: iset<Entry>, st: StoreState, k: Key, ltime: uint64)
    requires ValidStore(h, u, st) && k in st.index && st.index[k].ids != []
    ensures
      var s, s' := st.index[k], RolledBack(st.index[k], ltime);
      && ValidKey(h, u, st.entries, k, s')
      && Resolve(st.entries, s'.ids) == Resolve(st.entries, s.ids)[..|s'.ids|]
      && s.ids[|s'.ids|] !in s'.ids
  {
    var s, n := st.index[k], |st.index[k].ids| - 1;
    var log := Resolve(st.entries, s.ids);
    ResolvedIds(h, u, st, k);
    NoRepeats(h, u, k, log);
    ChainPrefix(h, u, k, log, n);
    ResolvePrefix(st.entries, s.ids, n);
    forall i | 0 <= i < n
      ensures s.ids[i] != s.ids[n]
    {
      assert h.hash(log[i]) == s.ids[i] && h.hash(log[n]) == s.ids[n];
    }
  }

  lemma RollbackKeylogRefines(h: Hashing, u: iset<Entry>, st: StoreState, e: Entry)
    requires ValidStore(h, u, st) && e in u && e.key in st.index
    requires var ids := st.index[e.key].ids; ids != [] && ids[|ids| - 1] == h.hash(e)
    ensures
      var (st', count, err) := RollbackKeylog(h, st, e);
      var v := ViewOf(h, u, st);
      && err.None? && count == |st.index[e.key].ids| - 1
      && ValidStore(h, u, st')
      && ViewOf(h, u, st') == v[e.key := v[e.key].(log := v[e.key].log[..count])]
  {
    var k, s := e.key, st.index[e.key];
    var entries := st.entries - {h.hash(e)};
    var ltime := if e.previous in entries then entries[e.previous].ltime else 0;
    RolledBackValid(h, u, st, k, ltime);
    SetIndex(h, u, st, k, RolledBack(s, ltime));
    var st1 := st.(index := st.index[k := RolledBack(s, ltime)]);
    forall k', i | k' in st1.index && 0 <= i < |st1.index[k'].ids|
      ensures st1.index[k'].ids[i] !in {h.hash(e)}
    {
      if k' != k {
        IdsOfOneKey(h, u, st, k, k');
        assert h.hash(e) in s.ids;
      }
    }
    DropUnused(h, u, st1, {h.hash(e)});
  }

  /** RollbackEntry takes off the last entry, and the key with its last entry; on an empty log it reports an error
      and still removes the key. */
  lemma RollbackRefines(h: Hashing, u: iset<Entry>, st: StoreState, e: Entry)
    requires ValidStore(h, u, st) && e in u
    ensures
      var (st', err) := RollbackStore(h, st, e);
      && ValidStore(h, u, st')
      && (ViewOf(h, u, st'), err) == RollbackView(h, ViewOf(h, u, st), e)
  {
    if e.key in st.index {
      var k, s := e.key, st.index[e.key];
      ResolvedIds(h, u, st, k);
      if s.ids == [] {
        assert st.index[k := s] == st.index;
        RemoveRefines(h, u, st, k);
      } else if s.ids[|s.ids| - 1] != h.hash(e) {
        assert st.index[k := s] == st.index;
      } else {
        RollbackKeylogRefines(h, u, st, e);
        SameEntry(h, u, Resolve(st.entries, s.ids)[|s.ids| - 1], e);
        if |s.ids| == 1 {
          RollbackOnly(h, u, st, e);
        }
      }
    }
  }

  lemma RollbackOnly(h: Hashing, u: iset<Entry>, st: StoreState, e: Entry)
    requires ValidStore(h, u, st) && e in u && e.key in st.index && st.index[e.key].ids == [h.hash(e)]
    ensures
      var st' := RollbackStore(h, st, e).0;
      ValidStore(h, u, st') && ViewOf(h, u, st') == ViewOf(h, u, st) - {e.key}
  {
    var st1 := RollbackKeylog(h, st, e).0;
    RollbackKeylogRefines(h, u, st, e);
    RemoveRefines(h, u, st1, e.key);
    assert ViewOf(h, u, st1) - {e.key} == ViewOf(h, u, st) - {e.key};
  }

  /** Log matching between any two stores, on one node or two. */
  lemma StoresMatch(h: Hashing, u: iset<Entry>, a: StoreState, b: StoreState, k: Key, i: nat, j: nat)
    requires ValidStore(h, u, a) && ValidStore(h, u, b) && k in a.index && k in b.index
    requires i < |a.index[k].ids| && j < |b.index[k].ids| && a.index[k].ids[i] == b.index[k].ids[j]
    ensures i == j && a.index[k].ids[..i + 1] == b.index[k].ids[..j + 1]
  {
    var la, lb := Resolve(a.entries, a.index[k].ids), Resolve(b.entries, b.index[k].ids);
    ResolvedIds(h, u, a, k);
    ResolvedIds(h, u, b, k);
    LogMatching(h, u, k, la, i, lb, j);
    IdsPrefix(h, la, a.index[k].ids, i + 1);
    IdsPrefix(h, lb, b.index[k].ids, j + 1);
  }

  lemma IdsPrefix(h: Hashing, log: seq<Entry>, ids: seq<Id>, n: nat)
    requires |log| == |ids| && n <= |ids| && forall i :: 0 <= i < |ids| ==> h.hash(log[i]) == ids[i]
    ensures ids[..n] == IdsOf(h, log[..n])
  {
  }

  // ---- appends and rollbacks undo each other

  function AppendAll(h: Hashing, st: StoreState, es: seq<Entry>): StoreState
    decreases es
  {
    if es == [] then st else AppendAll(h, AppendStore(h, st, es[0]).0, es[1..])
  }

  /** Rolls back the last of `es` first. */
  function RollbackAll(h: Hashing, st: StoreState, es: seq<Entry>): StoreState
    decreases es
  {
    if es == [] then st else RollbackStore(h, RollbackAll(h, st, es[1..]), es[0]).0
  }

  /** Every append of the run is accepted, and of an entry the store does not hold. */
  ghost predicate FreshRun(h: Hashing, st: StoreState, k: Key, es: seq<Entry>)
    decreases es
  {
    es != [] ==>
      && es[0].key == k
      && h.hash(es[0]) !in st.entries
      && AppendStore(h, st, es[0]).1.None?
      && FreshRun(h, AppendStore(h, st, es[0]).0, k, es[1..])
  }

  /** One of the entries has id `id`. */
  predicate Carries(h: Hashing, es: seq<Entry>, id: Id) {
    exists i :: 0 <= i < |es| && h.hash(es[i]) == id
  }

  /** The Lamport time after appends of `es` and their rollback, for an index with time `ltime` whose last entry has
      time `before`: zero if the last appended time is; otherwise the least positive one of `before` and the appended
      times. */
  ghost predicate TimeAfter(before: uint64, ltime: uint64, es: seq<Entry>, r: uint64) {
    if es == [] then r == ltime
    else if es[|es| - 1].ltime == 0 then r == 0
    else
      && 0 < r && (r == before || exists i :: 0 <= i < |es| && es[i].ltime == r)
      && (0 < before ==> r <= before)
      && forall i :: 0 <= i < |es| && 0 < es[i].ltime ==> r <= es[i].ltime
  }

  lemma TimeOneMore(before: uint64, ltime: uint64, es: seq<Entry>, r: uint64)
    requires es != [] && TimeAfter(es[0].ltime, es[0].ltime, es[1..], r)
    ensures TimeAfter(before, ltime, es, if 0 < before < r then before else r)
  {
    var rest := es[1..];
    assert forall i :: 0 <= i < |rest| ==> rest[i] == es[i + 1];
    assert forall i :: 1 <= i < |es| ==> es[i] == rest[i - 1];
    assert es[0].ltime == r || |es| > 1;
  }

  /** When the time comes back, for an index that has the time of its last entry: exactly if the last appended time and
      the own one are both zero, or the own one is positive and no positive appended time is below it. */
  lemma TimeComesBack(ltime: uint64, es: seq<Entry>, r: uint64)
    requires es != [] && TimeAfter(ltime, ltime, es, r)
    ensures r == ltime <==>
            if es[|es| - 1].ltime == 0 then ltime == 0
            else 0 < ltime && forall i :: 0 <= i < |es| && 0 < es[i].ltime ==> ltime <= es[i].ltime
  {
  }

  /** `st'` is `st`, but for the marker and the Lamport time of key `k`. */
  ghost predicate SameButTime(st: StoreState, st': StoreState, k: Key)
    requires k in st.index
  {
    && st'.entries == st.entries && st'.index.Keys == st.index.Keys
    && (forall k' :: k' in st.index && k' != k ==> st'.index[k'] == st.index[k'])
    && st'.index[k] == st.index[k].(marker := st'.index[k].marker, ltime := st'.index[k].ltime)
  }

  /** One fresh append, then its rollback from a state that differs from the appended one in marker and time only. */
  lemma RollbackUndoesOne(h: Hashing, u: iset<Entry>, st: StoreState, e: Entry, r: StoreState)
    requires ValidStore(h, u, st) && e in u && e.key in st.index && h.hash(e) !in st.entries
    requires st.index[e.key].ids != [] && AppendStore(h, st, e).1.None?
    requires SameButTime(AppendStore(h, st, e).0, r, e.key)
    ensures
      var st', earlier := RollbackStore(h, r, e).0, st.entries[e.previous].ltime;
      && SameButTime(st, st', e.key)
      && st'.index[e.key].marker == r.index[e.key].marker
      && st'.index[e.key].ltime == (if 0 < earlier < r.index[e.key].ltime then earlier else r.index[e.key].ltime)
  {
    LastStored(h, u, st, e);
    UndoOne(h, st, e, r);
  }

  lemma UndoOne(h: Hashing, st: StoreState, e: Entry, r: StoreState)
    requires e.key in st.index && h.hash(e) !in st.entries && AppendStore(h, st, e).1.None?
    requires var s := st.index[e.key];
             s.ids != [] && e.previous in st.entries && s.height == ToUint32(|s.ids|)
    requires SameButTime(AppendStore(h, st, e).0, r, e.key)
    ensures
      var st', earlier := RollbackStore(h, r, e).0, st.entries[e.previous].ltime;
      && SameButTime(st, st', e.key)
      && st'.index[e.key].marker == r.index[e.key].marker
      && st'.index[e.key].ltime == (if 0 < earlier < r.index[e.key].ltime then earlier else r.index[e.key].ltime)
  {
    var s, k := st.index[e.key], e.key;
    assert r.index[k].ids == s.ids + [h.hash(e)];
    assert r.entries - {h.hash(e)} == st.entries;
    assert (s.ids + [h.hash(e)])[..|s.ids|] == s.ids;
    var (r', n, err) := RollbackKeylog(h, r, e);
    assert err.None? && n == |s.ids|;
  }

  lemma LastStored(h: Hashing, u: iset<Entry>, st: StoreState, e: Entry)
    requires ValidStore(h, u, st) && e.key in st.index && st.index[e.key].ids != [] && AppendStore(h, st, e).1.None?
    ensures
      var s := st.index[e.key];
      s.ids[|s.ids| - 1] == e.previous && e.previous in st.entries && s.height == ToUint32(|s.ids|)
  {
  }

  /** A run of fresh appends to a log that is not empty, rolled back in reverse, restores everything but for the marker,
      which is gone exactly if it named one of the appended entries, and the Lamport time, which comes out as the least
      positive one along the run. */
  lemma {:induction false} RunsUndone(h: Hashing, u: iset<Entry>, st: StoreState, k: Key, es: seq<Entry>)
    requires ValidStore(h, u, st) && k in st.index && st.index[k].ids != []
    requires FreshRun(h, st, k, es) && forall e :: e in es ==> e in u
    ensures
      var st', s := RollbackAll(h, AppendAll(h, st, es), es), st.index[k];
      && SameButTime(st, st', k)
      && st'.index[k].marker == (if s.marker.Some? && Carries(h, es, s.marker.value) then None else s.marker)
      && TimeAfter(LastTime(st, k), s.ltime, es, st'.index[k].ltime)
    decreases es
  {
    if es != [] {
      var e, rest := es[0], es[1..];
      var a := AppendStore(h, st, e).0;
      AppendRefines(h, u, st, e);
      RunsUndone(h, u, a, k, rest);
      var r := RollbackAll(h, AppendAll(h, a, rest), rest);
      RollbackUndoesOne(h, u, st, e, r);
      AppendFacts(h, st, e);
      LastStored(h, u, st, e);
      assert RollbackAll(h, AppendAll(h, st, es), es) == RollbackStore(h, r, e).0;
      TimeOneMore(LastTime(st, k), st.index[k].ltime, es, r.index[k].ltime);
      if st.index[k].marker.Some? {
        CarriesOneMore(h, es, st.index[k].marker.value);
      }
      hide ValidStore, AppendStore, RollbackStore, FreshRun, TimeAfter, Carries;
    }
  }

  lemma CarriesOneMore(h: Hashing, es: seq<Entry>, id: Id)
    requires es != []
    ensures Carries(h, es, id) <==> h.hash(es[0]) == id || Carries(h, es[1..], id)
  {
    var rest := es[1..];
    if i :| 0 <= i < |es| && h.hash(es[i]) == id {
      assert i > 0 ==> h.hash(rest[i - 1]) == id;
    }
    if i :| 0 <= i < |rest| && h.hash(rest[i]) == id {
      assert h.hash(es[i + 1]) == id;
    }
  }

  lemma AppendFacts(h: Hashing, st: StoreState, e: Entry)
    requires e.key in st.index && AppendStore(h, st, e).1.None?
    ensures
      var a, s := AppendStore(h, st, e).0, st.index[e.key];
      && a.index[e.key] == Appended(s, h.hash(e), e.ltime)
      && LastTime(a, e.key) == e.ltime
      && (s.ids != [] && e.previous in st.entries ==> LastTime(st, e.key) == st.entries[e.previous].ltime)
  {
  }

  function LastTime(st: StoreState, k: Key): uint64 {
    if k in st.index && st.index[k].ids != [] && st.index[k].ids[|st.index[k].ids| - 1] in st.entries then
      st.entries[st.index[k].ids[|st.index[k].ids| - 1]].ltime
    else 0
  }

  /** Starting from a key with an empty log, the same run removes the key itself. */
  lemma RunsFromEmptyRemoveKey(h: Hashing, u: iset<Entry>, st: StoreState, k: Key, es: seq<Entry>)
    requires ValidStore(h, u, st) && k in st.index && st.index[k].ids == []
    requires FreshRun(h, st, k, es) && es != [] && forall e :: e in es ==> e in u
    ensures RollbackAll(h, AppendAll(h, st, es), es) == st.(index := st.index - {k})
  {
    var e, rest := es[0], es[1..];
    var a := AppendStore(h, st, e).0;
    AppendRefines(h, u, st, e);
    RunsUndone(h, u, a, k, rest);
    var r := RollbackAll(h, AppendAll(h, a, rest), rest);
    RollbackToNothing(h, st, e, r);
    assert RollbackAll(h, AppendAll(h, st, es), es) == RollbackStore(h, r, e).0;
  }

  lemma RollbackToNothing(h: Hashing, st: StoreState, e: Entry, r: StoreState)
    requires e.key in st.index && st.index[e.key].ids == [] && h.hash(e) !in st.entries
    requires AppendStore(h, st, e).1.None? && SameButTime(AppendStore(h, st, e).0, r, e.key)
    ensures RollbackStore(h, r, e).0 == st.(index := st.index - {e.key})
  {
    var k := e.key;
    assert r.index[k].ids == [h.hash(e)];
    assert r.entries - {h.hash(e)} == st.entries;
    var (r', n, err) := RollbackKeylog(h, r, e);
    assert n == 0 && r'.index[k].ids == [];
    assert r'.index - {k} == st.index - {k};
    assert r'.entries - (set id | id in r'.index[k].ids) == st.entries;
  }

  // ---- what a node sends out about its logs

  /** The next entry of a key: it follows the key's last entry, one higher than the log is long. */
  function NextEntry(h: Hashing, v: View, k: Key, timestamp: uint64): Entry {
    Entry(k, LastId(h, LogOf(v, k)), ToUint32(|LogOf(v, k)| + 1), timestamp, 0, [])
  }

  /** The entry was created to follow the log. */
  predicate MadeFrom(h: Hashing, log: seq<Entry>, e: Entry) {
    e.previous == LastId(h, log) && e.height == ToUint32(|log| + 1)
  }

  /** The log it was made from accepts it, and ends at its height then. */
  lemma NextIsAccepted(h: Hashing, v: View, k: Key, timestamp: uint64)
    ensures
      var e := NextEntry(h, v, k, timestamp);
      && e.key == k && e.timestamp == timestamp && e.data == [] && MadeFrom(h, LogOf(v, k), e)
      && (k in v ==>
            var (v', err) := AppendView(h, v, e);
            err.None? && LogOf(v', k) == LogOf(v, k) + [e] && e.height == ToUint32(|LogOf(v', k)|))
  {
  }

  function NextEntryStore(h: Hashing, st: StoreState, k: Key, timestamp: uint64): Entry {
    var ids := if k in st.index then st.index[k].ids else [];
    Entry(k, if ids == [] then ZeroId(h.size) else ids[|ids| - 1], ToUint32(|ids| + 1), timestamp, 0, [])
  }

  lemma NextEntryRefines(h: Hashing, u: iset<Entry>, st: StoreState, k: Key, timestamp: uint64)
    requires ValidStore(h, u, st)
    ensures NextEntryStore(h, st, k, timestamp) == NextEntry(h, ViewOf(h, u, st), k, timestamp)
  {
    LastFromIndex(h, u, st, k);
  }

  function IdsOf(h: Hashing, log: seq<Entry>): (ids: seq<Id>)
    ensures |ids| == |log|
  {
    seq(|log|, i requires 0 <= i < |log| => h.hash(log[i]))
  }

  /** The entries PullKeylogRPC streams: the key's log from the entry with the requested id on, or all of it. */
  function Serve(h: Hashing, v: View, k: Key, seek: Option<Id>): (seq<Entry>, Option<Error>) {
    if k.bytes == [] then ([], Some(ErrKeyInvalid))
    else if k !in v then ([], Some(ErrKeyNotFound))
    else if seek.None? then (v[k].log, None)
    else if seek.value in IdsOf(h, v[k].log) then (v[k].log[First(IdsOf(h, v[k].log), seek.value)..], None)
    else ([], Some(ErrEntryNotFound))
  }

  /** What is streamed: nothing, with the reason, for no key, for a key that is not there, and from an id that no
      entry of the log has; else the end of the log, from the first entry with the id on, or all of it. */
  lemma ServedEnd(h: Hashing, v: View, k: Key, seek: Option<Id>)
    ensures
      var (out, err) := Serve(h, v, k, seek);
      var log := LogOf(v, k);
      && (k.bytes == [] <==> err == Some(ErrKeyInvalid))
      && (k.bytes != [] && k !in v <==> err == Some(ErrKeyNotFound))
      && (k.bytes != [] && k in v ==>
            err == if seek.Some? && forall e :: e in log ==> h.hash(e) != seek.value
                   then Some(ErrEntryNotFound) else None)
      && (err.Some? ==> out == [])
      && |out| <= |log| && out == log[|log| - |out|..]
      && (err.None? && seek.None? ==> out == log)
      && (err.None? && seek.Some? ==>
            out != [] && h.hash(out[0]) == seek.value
            && forall i :: 0 <= i < |log| - |out| ==> h.hash(log[i]) != seek.value)
  {
    var log := LogOf(v, k);
    assert log[|log|..] == [] && log[0..] == log;
    if seek.Some? {
      SeekInLog(h, log, seek.value);
      hide First, IdsOf;
    }
  }

  /** Looking for an id among those of a log. */
  lemma SeekInLog(h: Hashing, log: seq<Entry>, id: Id)
    ensures id in IdsOf(h, log) <==> exists e :: e in log && h.hash(e) == id
    ensures
      id in IdsOf(h, log) ==>
        var j := First(IdsOf(h, log), id);
        h.hash(log[j]) == id && forall i :: 0 <= i < j ==> h.hash(log[i]) != id
  {
    var ids := IdsOf(h, log);
    assert forall i :: 0 <= i < |log| ==> ids[i] == h.hash(log[i]) && log[i] in log;
    if id in ids {
      var j := First(ids, id);
      assert forall i :: 0 <= i < j ==> ids[..j][i] == ids[i];
    }
  }

  /** The seed of one key; an absent id travels as the empty byte string. */
  datatype KeySeed = KeySeed(key: Key, marker: Id, height: uint32, ltime: uint64)

  /** The id in a key's seed: its marker, or else its last id. */
  function SeedMarker(h: Hashing, v: View, k: Key): Id
    requires k in v
  {
    if v[k].marker.Some? then v[k].marker.value
    else if v[k].log != [] then LastId(h, v[k].log)
    else Id([])
  }

  function SeedOfIndex(s: IndexState): KeySeed {
    KeySeed(s.key, if s.marker.Some? then s.marker.value else if s.ids != [] then s.ids[|s.ids| - 1] else Id([]),
            s.height, s.ltime)
  }

  /** The seeds another node sends: one per key, in any order. */
  ghost predicate SeedsOf(h: Hashing, remote: View, seeds: seq<KeySeed>) {
    && (forall i :: 0 <= i < |seeds| ==>
         seeds[i].key in remote && seeds[i].marker == SeedMarker(h, remote, seeds[i].key))
    && (forall i, j :: 0 <= i < j < |seeds| ==> seeds[i].key != seeds[j].key)
    && (forall k :: k in remote ==> exists i :: 0 <= i < |seeds| && seeds[i].key == k)
  }

  /** The seed of a key, read off its index. */
  lemma SeedFromIndex(h: Hashing, u: iset<Entry>, st: StoreState, k: Key)
    requires ValidStore(h, u, st) && k in st.index
    ensures
      var seed, v := SeedOfIndex(st.index[k]), ViewOf(h, u, st);
      && seed.key == k && seed.marker == SeedMarker(h, v, k) && seed.height == ToUint32(|v[k].log|)
      && seed.marker == (if v[k].marker.Some? then v[k].marker.value
                         else if v[k].log == [] then Id([]) else h.hash(v[k].log[|v[k].log| - 1]))
  {
    ResolvedIds(h, u, st, k);
  }

  /** The entries of a pull, read off the index and the entry store. */
  function ServeStore(st: StoreState, k: Key, seek: Option<Id>): (seq<Entry>, Option<Error>)
    requires Stored(st, k)
  {
    if k.bytes == [] then ([], Some(ErrKeyInvalid))
    else if k !in st.index then ([], Some(ErrKeyNotFound))
    else
      var ids := st.index[k].ids;
      match From(ids, seek)
      case None => ([], Some(ErrEntryNotFound))
      case Some(tail) =>
        assert forall i :: 0 <= i < |tail| ==> tail[i] in ids;
        (Resolve(st.entries, tail), None)
  }

  predicate Stored(st: StoreState, k: Key) {
    k in st.index ==> forall id :: id in st.index[k].ids ==> id in st.entries
  }

  lemma ServeRefines(h: Hashing, u: iset<Entry>, st: StoreState, k: Key, seek: Option<Id>)
    requires ValidStore(h, u, st)
    ensures Stored(st, k)
    ensures Serve(h, ViewOf(h, u, st), k, seek) == ServeStore(st, k, seek)
  {
    if k in st.index {
      var ids, log := st.index[k].ids, Resolve(st.entries, st.index[k].ids);
      ResolvedIds(h, u, st, k);
      assert IdsOf(h, log) == ids;
      if seek.Some? && seek.value in ids {
        var n := First(ids, seek.value);
        assert Resolve(st.entries, ids[n..]) == log[n..];
      }
    }
  }

  /** The ids of a key are stored, and differ from each other. */
  ghost predicate Whole(st: StoreState, k: Key) {
    k in st.index ==>
      && (forall i, j :: 0 <= i < j < |st.index[k].ids| ==> st.index[k].ids[i] != st.index[k].ids[j])
      && (forall i :: 0 <= i < |st.index[k].ids| ==> st.index[k].ids[i] in st.entries)
  }

  lemma ValidIsWhole(h: Hashing, u: iset<Entry>, st: StoreState, k: Key)
    requires ValidStore(h, u, st)
    ensures Whole(st, k)
  {
    if k in st.index {
      ResolvedIds(h, u, st, k);
      NoRepeats(h, u, k, Resolve(st.entries, st.index[k].ids));
    }
  }
}
