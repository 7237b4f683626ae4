/** Choosing the node with the tallest log (leader.go) and catching up with it (heal.go). */
module Healing {
  import opened HexTypes
  import opened Chains
  import opened StoreSpec
  import opened Nodes
  import opened CatchUp

  /** The last entries gathered for a key, the locations they come from, and which of them leads. */
  datatype KeyLeader = KeyLeader(idx: nat, locs: seq<Host>, lasts: seq<Option<Entry>>)

  function LastOf(log: seq<Entry>): Option<Entry> {
    if log == [] then None else Some(log[|log| - 1])
  }

  /** The own last entry is read from the own log; the others are what the transport returned, None for an error. */
  function Lasts(host: Host, own: Option<Entry>, locs: seq<Host>, fetched: seq<Option<Entry>>)
    : (lasts: seq<Option<Entry>>)
    requires |fetched| == |locs|
    ensures |lasts| == |locs|
  {
    seq(|locs|, i requires 0 <= i < |locs| => if locs[i] == host then own else fetched[i])
  }

  predicate NothingFetched(lasts: seq<Option<Entry>>) {
    forall i :: 0 <= i < |lasts| ==> lasts[i].None?
  }

  /** Number `i` has the greatest height, and no one before it has. */
  predicate IsTallest(lasts: seq<Option<Entry>>, i: nat) {
    && i < |lasts| && lasts[i].Some? && 0 < lasts[i].value.height
    && (forall j :: 0 <= j < |lasts| && lasts[j].Some? ==> lasts[j].value.height <= lasts[i].value.height)
    && (forall j :: 0 <= j < i && lasts[j].Some? ==> lasts[j].value.height < lasts[i].value.height)
  }

  /** The greatest height found so far, zero to begin with, and where. */
  function Tallest(lasts: seq<Option<Entry>>): (r: (Option<nat>, uint32))
    ensures r.0.Some? ==> IsTallest(lasts, r.0.value) && r.1 == lasts[r.0.value].value.height
    ensures r.0.None? ==> r.1 == 0 && forall j :: 0 <= j < |lasts| && lasts[j].Some? ==> lasts[j].value.height == 0
    decreases lasts
  {
    if lasts == [] then (None, 0)
    else
      var n := |lasts| - 1;
      var r := Tallest(lasts[..n]);
      assert forall j :: 0 <= j < n ==> lasts[..n][j] == lasts[j];
      if lasts[n].Some? && lasts[n].value.height > r.1 then (Some(n), lasts[n].value.height) else r
  }

  /** The index Leader settles on: the first when no one has an entry, else the first of the greatest height; none when
      there are entries and all heights are zero. */
  function LeaderIndex(lasts: seq<Option<Entry>>): (r: Option<nat>)
    ensures NothingFetched(lasts) ==> r == Some(0)
    ensures !NothingFetched(lasts) && r.Some? ==> IsTallest(lasts, r.value)
    ensures r.None? <==> !NothingFetched(lasts) && forall j :: 0 <= j < |lasts| && lasts[j].Some? ==>
              lasts[j].value.height == 0
  {
    if NothingFetched(lasts) then Some(0) else Tallest(lasts).0
  }

  /** Leader, given what the transport returned for each location. */
  method Leader(host: Host, own: Option<Entry>, locs: seq<Host>, fetched: seq<Option<Entry>>)
    returns (r: Option<KeyLeader>)
    requires |fetched| == |locs|
    ensures
      var lasts := Lasts(host, own, locs, fetched);
      r == match LeaderIndex(lasts) case None => None case Some(i) => Some(KeyLeader(i, locs, lasts))
  {
    var l := |locs|;
    var lasts := new Option<Entry>[l](_ => None);
    for i := 0 to l
      invariant forall j :: 0 <= j < i ==> lasts[j] == Lasts(host, own, locs, fetched)[j]
      invariant forall j :: i <= j < l ==> lasts[j] == None
    {
      if locs[i] == host {
        lasts[i] := own;
        continue;
      }
      if fetched[i].Some? {
        lasts[i] := fetched[i];
      }
    }
    ghost var all := Lasts(host, own, locs, fetched);
    assert lasts[..] == all;
    var maxIdx, max: uint32, nils := -1, 0, 0;
    for i := 0 to l
      invariant 0 <= nils <= i && (nils == i <==> NothingFetched(all[..i]))
      invariant -1 <= maxIdx < i && max == Tallest(all[..i]).1
      invariant Tallest(all[..i]).0 == if maxIdx < 0 then None else Some(maxIdx)
    {
      assert all[..i + 1][..i] == all[..i] && all[..i + 1][i] == lasts[i];
      assert forall j :: 0 <= j < i ==> all[..i + 1][j] == all[..i][j];
      if lasts[i].None? {
        nils := nils + 1;
      } else if lasts[i].value.height > max {
        maxIdx := i;
        max := lasts[i].value.height;
      }
    }
    assert all[..l] == all;
    if nils == l {
      maxIdx := 0;
    } else if maxIdx < 0 {
      return None;
    }
    return Some(KeyLeader(maxIdx, locs, lasts[..]));
  }

  /** Whether location `i` disagrees with the leader. */
  predicate Differs(h: Hashing, l: KeyLeader, i: nat)
    requires l.idx < |l.lasts| && l.lasts[l.idx].Some? && i < |l.lasts|
  {
    l.lasts[i].None? || h.hash(l.lasts[i].value) != h.hash(l.lasts[l.idx].value)
  }

  /** IsConsistent: whether all locations have the leader's last entry; and the leader's location, or the first one that
      disagrees. The leader must have an entry. */
  method IsConsistent(h: Hashing, l: KeyLeader) returns (ok: bool, loc: Host)
    requires |l.locs| == |l.lasts| && l.idx < |l.lasts| && l.lasts[l.idx].Some?
    ensures ok <==> forall i :: 0 <= i < |l.lasts| ==> !Differs(h, l, i)
    ensures ok <==> forall i :: 0 <= i < |l.lasts| ==>
                      l.lasts[i].Some? && h.hash(l.lasts[i].value) == h.hash(l.lasts[l.idx].value)
    ensures ok ==> loc == l.locs[l.idx]
    ensures !ok ==> exists i :: 0 <= i < |l.lasts| && Differs(h, l, i) && loc == l.locs[i]
                                && forall j :: 0 <= j < i ==> !Differs(h, l, j)
  {
    var id := h.hash(l.lasts[l.idx].value);
    for i := 0 to |l.lasts|
      invariant forall j :: 0 <= j < i ==> !Differs(h, l, j)
    {
      if i == l.idx {
        continue;
      }
      if l.lasts[i].None? {
        assert Differs(h, l, i);
        return false, l.locs[i];
      }
      var nid := h.hash(l.lasts[i].value);
      if nid != id {
        assert Differs(h, l, i);
        return false, l.locs[i];
      }
    }
    forall i | 0 <= i < |l.lasts|
      ensures l.lasts[i].Some? && h.hash(l.lasts[i].value) == id
    {
      assert !Differs(h, l, i);
    }
    return true, l.locs[l.idx];
  }

  /** heal: `views` is what the other nodes hold, `fetched` the last entries the transport returned from them. */
  function Heal(c: Conf, n: Node, k: Key, locs: seq<Host>, fetched: seq<Option<Entry>>, views: map<Host, View>,
                cut: Option<nat>): (Node, Option<Error>)
    requires |fetched| == |locs| && locs != [] && forall i :: 0 <= i < |locs| ==> locs[i] in views
  {
    var lasts := Lasts(c.host, LastOf(LogOf(n.store, k)), locs, fetched);
    match LeaderIndex(lasts)
    case None => (n, Some(ErrNoLeader))
    case Some(i) =>
      if lasts[i].None? || locs[i] == c.host then (n, None)
      else CheckOrPull(c.h, n, k, c.h.hash(lasts[i].value), views[locs[i]], cut)
  }

  // ---- what healing achieves

  /** When there is nothing to take from anyone, nothing is done: no one has an entry, or the leader is the node itself;
      and that is no error. If entries were heard of, but all at height zero, there is no leader, which is one. */
  lemma NothingToHeal(c: Conf, n: Node, k: Key, locs: seq<Host>, fetched: seq<Option<Entry>>, views: map<Host, View>,
                      cut: Option<nat>)
    requires |fetched| == |locs| && locs != [] && forall i :: 0 <= i < |locs| ==> locs[i] in views
    ensures
      var lasts := Lasts(c.host, LastOf(LogOf(n.store, k)), locs, fetched);
      && ((forall i :: 0 <= i < |locs| ==> lasts[i].None?) ==> Heal(c, n, k, locs, fetched, views, cut) == (n, None))
      && ((exists i: nat :: IsTallest(lasts, i) && locs[i] == c.host) ==>
            Heal(c, n, k, locs, fetched, views, cut) == (n, None))
      && ((exists i :: 0 <= i < |locs| && lasts[i].Some?)
          && (forall i :: 0 <= i < |locs| && lasts[i].Some? ==> lasts[i].value.height == 0) ==>
            Heal(c, n, k, locs, fetched, views, cut) == (n, Some(ErrNoLeader)))
  {
    var lasts := Lasts(c.host, LastOf(LogOf(n.store, k)), locs, fetched);
    if i: nat :| IsTallest(lasts, i) && locs[i] == c.host {
      assert LeaderIndex(lasts).Some? && IsTallest(lasts, LeaderIndex(lasts).value);
      assert LeaderIndex(lasts).value == i;
    }
  }

  /** The log of the location: the own one here, the one served elsewhere. */
  function LogFrom(c: Conf, n: Node, k: Key, views: map<Host, View>, y: Host): seq<Entry>
    requires y in views
  {
    if y == c.host then LogOf(n.store, k) else LogOf(views[y], k)
  }

  /** Heights are positions, below the point where they wrap around. */
  ghost predicate Numbered(log: seq<Entry>) {
    |log| < 0x1_0000_0000 && forall i :: 0 <= i < |log| ==> log[i].height == i + 1
  }

  /** The logs of `k` are quiet while the node heals: well-formed, numbered, diverged in their last entries at most, and
      what was fetched from a location, if anything, is its last entry. */
  ghost predicate Steady(c: Conf, u: iset<Entry>, n: Node, k: Key, locs: seq<Host>, fetched: seq<Option<Entry>>,
                         views: map<Host, View>)
  {
    && Sound(c.h, u) && ChainsOf(c.h, u, n.store)
    && |fetched| == |locs| && c.host in locs
    && (forall i :: 0 <= i < |locs| ==> locs[i] in views && ChainsOf(c.h, u, views[locs[i]]))
    && (forall y :: y in locs ==> Numbered(LogFrom(c, n, k, views, y)))
    && (forall i :: 0 <= i < |locs| && locs[i] != c.host && fetched[i].Some? ==>
         fetched[i] == LastOf(LogOf(views[locs[i]], k)))
    && (forall y :: y in locs ==> OneDeep(LogOf(n.store, k), LogFrom(c, n, k, views, y)))
  }

  /** The logs differ in their last entries at most. */
  ghost predicate OneDeep(a: seq<Entry>, b: seq<Entry>) {
    && (a == [] || a[..|a| - 1] <= b)
    && (b == [] || b[..|b| - 1] <= a)
  }

  /** The leader has the longest of the logs whose last entry was heard of, the own one among them. */
  lemma LeaderIsLongest(c: Conf, u: iset<Entry>, n: Node, k: Key, locs: seq<Host>, fetched: seq<Option<Entry>>,
                        views: map<Host, View>)
    requires Steady(c, u, n, k, locs, fetched, views)
    ensures
      var lasts := Lasts(c.host, LastOf(LogOf(n.store, k)), locs, fetched);
      && LeaderIndex(lasts).Some? && LeaderIndex(lasts).value < |locs|
      && var i := LeaderIndex(lasts).value;
      && (lasts[i].None? <==> NothingFetched(lasts))
      && (lasts[i].Some? ==>
            var log := LogFrom(c, n, k, views, locs[i]);
            && log != [] && lasts[i] == LastOf(log)
            && (forall j :: 0 <= j < |locs| && lasts[j].Some? ==> |LogFrom(c, n, k, views, locs[j])| <= |log|)
            && |LogOf(n.store, k)| <= |log|)
  {
    var own := LogOf(n.store, k);
    var lasts := Lasts(c.host, LastOf(own), locs, fetched);
    forall j | 0 <= j < |locs| && lasts[j].Some?
      ensures
        var log := LogFrom(c, n, k, views, locs[j]);
        log != [] && lasts[j] == LastOf(log) && lasts[j].value.height == |log|
    {
      assert locs[j] in locs;
      assert Numbered(LogFrom(c, n, k, views, locs[j]));
    }
    var s :| 0 <= s < |locs| && locs[s] == c.host;
    assert own != [] ==> lasts[s].Some?;
  }

  /** Equally long, and different in their last entries only. */
  ghost predicate Forked(a: seq<Entry>, b: seq<Entry>) {
    |a| == |b| > 0 && a[..|a| - 1] == b[..|b| - 1] && a[|a| - 1] != b[|b| - 1]
  }

  lemma LongestServes(a: seq<Entry>, b: seq<Entry>)
    requires OneDeep(a, b) && |a| <= |b|
    ensures |a| < |b| ==> a <= b
    ensures !(a <= b) <==> Forked(a, b)
  {
    if |a| < |b| {
      assert b[..|b| - 1] <= a;
      assert a == b[..|b| - 1];
    } else if !(a <= b) {
      assert a == a[..|a| - 1] + [a[|a| - 1]];
      assert b == b[..|b| - 1] + [b[|b| - 1]];
    }
  }

  /** Heal, once the leader is known. */
  lemma HealAtLeader(c: Conf, u: iset<Entry>, n: Node, k: Key, locs: seq<Host>, fetched: seq<Option<Entry>>,
                     views: map<Host, View>, cut: Option<nat>)
    requires Steady(c, u, n, k, locs, fetched, views)
    requires !NothingFetched(Lasts(c.host, LastOf(LogOf(n.store, k)), locs, fetched))
    ensures locs != [] && LeaderIndex(Lasts(c.host, LastOf(LogOf(n.store, k)), locs, fetched)).Some?
    ensures
      var i := LeaderIndex(Lasts(c.host, LastOf(LogOf(n.store, k)), locs, fetched)).value;
      i < |locs| &&
      var own, log := LogOf(n.store, k), LogFrom(c, n, k, views, locs[i]);
      && log != [] && |own| <= |log| && OneDeep(own, log) && ChainsOf(c.h, u, views[locs[i]])
      && Heal(c, n, k, locs, fetched, views, cut) ==
         if locs[i] == c.host then (n, None) else CheckOrPull(c.h, n, k, LastId(c.h, log), views[locs[i]], cut)
  {
    LeaderIsLongest(c, u, n, k, locs, fetched, views);
    var i := LeaderIndex(Lasts(c.host, LastOf(LogOf(n.store, k)), locs, fetched)).value;
    assert locs[i] in locs;
    hide CheckOrPull;
  }

  /** What a heal does to the own log, given the leader's: if the two are equally long and differ in their last entries,
      nothing, and it reports an error, over a connection that holds that the entry was not found. Else the own log
      becomes a longer part of the leader's, all of it if no error is reported, which is so if the connection holds. */
  ghost predicate Heals(own: seq<Entry>, log: seq<Entry>, cut: Option<nat>, log': seq<Entry>, err: Option<Error>) {
    if Forked(own, log) then
      && log' == own && err.Some? && (cut.None? ==> err == Some(ErrEntryNotFound))
    else
      && own <= log' <= log && (err.None? ==> log' == log) && (cut.None? ==> err.None?)
  }

  /** A heal over a connection that may break takes the node to the leader's log, or part of the way, unless both logs
      have the same length and differ in their last entries. In particular, over connections that hold a node with a
      shorter log than the leader's always catches up. */
  lemma HealOutcome(c: Conf, u: iset<Entry>, n: Node, k: Key, locs: seq<Host>, fetched: seq<Option<Entry>>,
                    views: map<Host, View>, cut: Option<nat>)
    requires Steady(c, u, n, k, locs, fetched, views) && k.bytes != []
    requires !NothingFetched(Lasts(c.host, LastOf(LogOf(n.store, k)), locs, fetched))
    ensures locs != [] && LeaderIndex(Lasts(c.host, LastOf(LogOf(n.store, k)), locs, fetched)).Some?
    ensures
      var i := LeaderIndex(Lasts(c.host, LastOf(LogOf(n.store, k)), locs, fetched)).value;
      i < |locs| &&
      var own, log := LogOf(n.store, k), LogFrom(c, n, k, views, locs[i]);
      var (n', err) := Heal(c, n, k, locs, fetched, views, cut);
      |own| <= |log| && Heals(own, log, cut, LogOf(n'.store, k), err)
  {
    HealAtLeader(c, u, n, k, locs, fetched, views, cut);
    var i := LeaderIndex(Lasts(c.host, LastOf(LogOf(n.store, k)), locs, fetched)).value;
    var own, log := LogOf(n.store, k), LogFrom(c, n, k, views, locs[i]);
    LongestServes(own, log);
    assert Sound(c.h, u) && ChainsOf(c.h, u, n.store);
    assert locs[i] == c.host ==> log == own;
    assert locs[i] != c.host ==> log == LogOf(views[locs[i]], k);
    if locs[i] != c.host {
      hide *;
      HealedBy(c.h, u, n, k, views[locs[i]], cut);
    } else {
      hide Heal, Steady, LogFrom;
    }
  }

  /** After a heal that succeeded, over a connection that may break, the second look for a leader finds one that has an
      entry, whatever the other locations answer this time, so that the check of consistency has an entry to compare
      with. */
  lemma SecondLookHasEntry(c: Conf, u: iset<Entry>, n: Node, k: Key, locs: seq<Host>, fetched: seq<Option<Entry>>,
                           views: map<Host, View>, cut: Option<nat>, again: seq<Option<Entry>>)
    requires Steady(c, u, n, k, locs, fetched, views) && k.bytes != [] && |again| == |locs|
    requires !NothingFetched(Lasts(c.host, LastOf(LogOf(n.store, k)), locs, fetched))
    requires locs != [] && Heal(c, n, k, locs, fetched, views, cut).1.None?
    ensures
      var lasts := Lasts(c.host, LastOf(LogOf(Heal(c, n, k, locs, fetched, views, cut).0.store, k)), locs, again);
      LeaderIndex(lasts).Some? ==> LeaderIndex(lasts).value < |lasts| && lasts[LeaderIndex(lasts).value].Some?
  {
    HealAtLeader(c, u, n, k, locs, fetched, views, cut);
    HealOutcome(c, u, n, k, locs, fetched, views, cut);
    var log := LogOf(Heal(c, n, k, locs, fetched, views, cut).0.store, k);
    assert log != [];
    var s :| 0 <= s < |locs| && locs[s] == c.host;
    assert Lasts(c.host, LastOf(log), locs, again)[s].Some?;
    hide Heal, Steady;
  }

  /** Checking against the last entry of another node, and pulling if it differs. */
  lemma HealedBy(h: Hashing, u: iset<Entry>, n: Node, k: Key, remote: View, cut: Option<nat>)
    requires Sound(h, u) && ChainsOf(h, u, n.store) && ChainsOf(h, u, remote) && k.bytes != [] && LogOf(remote, k) != []
    requires LogOf(n.store, k) <= LogOf(remote, k) <==> !Forked(LogOf(n.store, k), LogOf(remote, k))
    ensures
      var own, log := LogOf(n.store, k), LogOf(remote, k);
      var (n', err) := CheckOrPull(h, n, k, LastId(h, log), remote, cut);
      Heals(own, log, cut, LogOf(n'.store, k), err)
  {
    var own, log := LogOf(n.store, k), LogOf(remote, k);
    var n1 := n.(store := UpsertKey(n.store, k));
    assert Chain(h, u, k, own) && ChainsOf(h, u, n1.store) && n1.store[k].log == own;
    if LastId(h, own) == LastId(h, log) {
      SameLast(h, u, k, own, log);
    } else if cut.None? {
      PullDichotomy(h, u, n1, k, remote);
      hide PullKeylog;
    } else {
      var upto := BrokenPull(h, u, n1, k, remote, cut.value);
      hide PullKeylog, Chain, Sound, ChainsOf, LastId;
      if own <= log {
        Lengthened(own, log, upto);
      }
    }
  }

  lemma Lengthened(own: seq<Entry>, log: seq<Entry>, upto: nat)
    requires own <= log && |own| <= upto <= |log|
    ensures own + log[|own|..upto] == log[..upto] && (upto == |log| ==> log[..upto] == log)
  {
  }
}
