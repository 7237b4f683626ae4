/** The index of one key: the list of its entry ids (ukeylogindex.go, wrapped unchanged by keylogindex.go). */
module KeylogIndexes {
  import opened HexTypes
  import opened Chains

  datatype IndexState = IndexState(key: Key, ids: seq<Id>, height: uint32, ltime: uint64, marker: Option<Id>)

  ghost predicate Accepts(s: IndexState, prev: Id) {
    if s.ids == [] then IsZero(prev) else s.ids[|s.ids| - 1] == prev
  }

  /** The marker is dropped once the entry it names has arrived. */
  function ClearMarker(marker: Option<Id>, id: Id): Option<Id> {
    if marker == Some(id) then None else marker
  }

  function Appended(s: IndexState, id: Id, ltime: uint64): IndexState {
    s.(ids := s.ids + [id], height := ToUint32(s.height + 1), ltime := ltime, marker := ClearMarker(s.marker, id))
  }

  function RolledBack(s: IndexState, ltime: uint64): IndexState {
    if s.ids == [] then s
    else s.(ids := s.ids[..|s.ids| - 1], height := ToUint32(s.height - 1),
            ltime := if 0 < ltime < s.ltime then ltime else s.ltime)
  }

  /** Position of the first occurrence of `id`. */
  function First(ids: seq<Id>, id: Id): (n: nat)
    requires id in ids
    ensures n < |ids| && ids[n] == id && id !in ids[..n]
  {
    if ids[0] == id then 0
    else
      var n := First(ids[1..], id);
      assert ids[..n + 1] == [ids[0]] + ids[1..][..n];
      n + 1
  }

  /** The ids an iteration delivers from a seek position; None when the position is not in the index. */
  function From(ids: seq<Id>, seek: Option<Id>): Option<seq<Id>> {
    match seek
    case None => Some(ids)
    case Some(id) => if id in ids then Some(ids[First(ids, id)..]) else None
  }

  class UnsafeKeylogIndex {
    const key: Key
    var entries: seq<Id>
    var height: uint32
    var ltime: uint64
    var marker: Option<Id>

    constructor (key: Key, marker: Option<Id>)
      ensures this.key == key && State() == IndexState(key, [], 0, 0, marker)
    {
      this.key, this.marker := key, marker;
      entries, height, ltime := [], 0, 0;
    }

    function State(): IndexState
      reads this
    {
      IndexState(key, entries, height, ltime, marker)
    }

    function Last(): Option<Id>
      reads this
    {
      if |entries| == 0 then None else Some(entries[|entries| - 1])
    }

    method Append(id: Id, prev: Id, ltime: uint64) returns (err: Option<Error>)
      modifies this
      ensures err == if old(Accepts(State(), prev)) then None else Some(ErrPreviousHash)
      ensures State() == if err.None? then Appended(old(State()), id, ltime) else old(State())
    {
      var last := Last();
      if last.None? {
        var zero := IsZeroBytes(prev);
        if !zero {
          return Some(ErrPreviousHash);
        }
      } else if last.value != prev {
        return Some(ErrPreviousHash);
      }
      entries := entries + [id];
      height := ToUint32(height + 1);
      this.ltime := ltime;
      if marker.Some? && marker.value == id {
        marker := None;
      }
      return None;
    }

    method Contains(id: Id) returns (found: bool)
      ensures found <==> id in entries
    {
      for i := 0 to |entries|
        invariant id !in entries[..i]
      {
        if entries[i] == id {
          return true;
        }
      }
      return false;
    }

    method SetMarker(id: Id) returns (ok: bool)
      modifies this
      ensures ok <==> id !in old(entries)
      ensures State() == if ok then old(State()).(marker := Some(id)) else old(State())
    {
      var found := Contains(id);
      if !found {
        marker := Some(id);
      }
      ok := !found;
    }

    method Rollback(ltime: uint64) returns (remaining: nat, ok: bool)
      modifies this
      ensures State() == RolledBack(old(State()), ltime)
      ensures ok <==> old(entries) != []
      ensures remaining == |entries|
    {
      remaining := |entries|;
      ok := false;
      if remaining > 0 {
        remaining := remaining - 1;
        entries := entries[..remaining];
        ok := true;
        height := ToUint32(height - 1);
        if ltime > 0 && ltime < this.ltime {
          this.ltime := ltime;
        }
      }
    }

    /** Calls `cb` on the ids from `seek` on, up to and including the first id it fails on. */
    method Iter(seek: Option<Id>, cb: Id -> Option<Error>) returns (err: Option<Error>, visited: seq<Id>)
      ensures From(entries, seek).None? ==> err == Some(ErrEntryNotFound) && visited == []
      ensures From(entries, seek).Some? ==>
                var all := From(entries, seek).value;
                && visited <= all
                && (forall i :: 0 <= i < |visited| - 1 ==> cb(visited[i]).None?)
                && (if err.None? then visited == all && (visited != [] ==> cb(visited[|visited| - 1]).None?)
                    else visited != [] && cb(visited[|visited| - 1]) == err)
    {
      var s := 0;
      visited := [];
      if seek.Some? {
        var i := 0;
        while i < |entries| && entries[i] != seek.value
          invariant i <= |entries|
          invariant seek.value !in entries[..i]
        {
          i := i + 1;
        }
        if i == |entries| {
          assert entries[..i] == entries;
          return Some(ErrEntryNotFound), [];
        }
        FirstUnique(entries, seek.value, i);
        s := i;
      }
      var all := From(entries, seek).value;
      assert all == entries[s..];
      err := None;
      var j := s;
      while j < |entries|
        invariant s <= j <= |entries| && err.None?
        invariant visited == entries[s..j]
        invariant forall i :: 0 <= i < |visited| ==> cb(visited[i]).None?
      {
        err := cb(entries[j]);
        visited := visited + [entries[j]];
        if err.Some? {
          assert visited == entries[s..j + 1] && visited[|visited| - 1] == entries[j];
          return err, visited;
        }
        j := j + 1;
      }
    }
  }

  lemma FirstUnique(ids: seq<Id>, id: Id, n: nat)
    requires n < |ids| && ids[n] == id && id !in ids[..n]
    ensures id in ids && First(ids, id) == n
  {
    var m := First(ids, id);
    assert forall j :: 0 <= j < n ==> ids[j] == ids[..n][j];
    assert forall j :: 0 <= j < m ==> ids[j] == ids[..m][j];
  }

  /** Rolling back an accepted append: ids and height always come back, the marker unless the append cleared it,
      and the Lamport time exactly when the earlier one is equal, or positive and smaller. */
  lemma RollbackUndoesAppend(s: IndexState, id: Id, ltime: uint64, earlier: uint64)
    ensures
      var s' := RolledBack(Appended(s, id, ltime), earlier);
      && s'.key == s.key && s'.ids == s.ids && s'.height == s.height
      && (s'.marker == s.marker <==> s.marker != Some(id))
      && (earlier == s.ltime ==> (s'.ltime == s.ltime <==> s.ltime == ltime || 0 < s.ltime < ltime))
  {
    assert (s.ids + [id])[..|s.ids|] == s.ids;
  }
}
