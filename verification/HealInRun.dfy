/** Healing in the states a cluster can reach, and as steps of the cluster. */
module HealingInRuns {
  import opened HexTypes
  import opened Chains
  import opened StoreSpec
  import opened Nodes
  import opened Clusters
  import opened Divergence
  import opened CatchUp
  import opened Healing

  function ViewsOf(s: Sys): map<Host, View> {
    map y | y in s.peers :: s.peers[y].node.store
  }

  /** What the transport may return for the last entries of `locs`: for each location the last entry or nothing. */
  ghost predicate Fetched(s: Sys, x: Host, k: Key, locs: seq<Host>, fetched: seq<Option<Entry>>) {
    && |fetched| == |locs|
    && forall i :: 0 <= i < |locs| ==> locs[i] in s.peers
                                       && (locs[i] != x && fetched[i].Some? ==>
                                            fetched[i] == LastOf(LogAt(s, locs[i], k)))
  }

  ghost predicate ShortLogs(s: Sys, k: Key) {
    forall y :: y in s.peers ==> |LogAt(s, y, k)| < 0x1_0000_0000
  }

  /** The hypotheses of a heal hold of the peers of a key in every reachable state, if every entry was created by a node
      from its log. */
  lemma ReachableIsSteady(cl: Cluster, u: iset<Entry>, states: seq<Sys>, labels: seq<Label>, k: nat, x: Host, key: Key,
                          fetched: seq<Option<Entry>>)
    requires ValidCluster(cl, u) && Run(cl, u, states, labels) && k < |states| && x in cl.peers(key)
    requires forall e :: e in u ==> MadeInRun(cl, states, e)
    requires Fetched(states[k], x, key, cl.peers(key), fetched) && ShortLogs(states[k], key)
    ensures x in states[k].peers
    ensures Steady(ConfOf(cl, x), u, states[k].peers[x].node, key, cl.peers(key), fetched, ViewsOf(states[k]))
  {
    var s, ps := states[k], cl.peers(key);
    var n, views := s.peers[x].node, ViewsOf(s);
    forall y | y in ps
      ensures y in s.peers && ChainsOf(cl.h, u, s.peers[y].node.store)
      ensures LogFrom(ConfOf(cl, x), n, key, views, y) == LogAt(s, y, key)
      ensures Numbered(LogAt(s, y, key)) && OneDeep(LogAt(s, x, key), LogAt(s, y, key))
    {
      StoreInRun(cl, u, states, labels, k, y);
      DivergenceIsOneDeep(cl, u, states, labels, k, x, y, key);
      NumberedInRun(cl, u, states, labels, k, y, key);
    }
    hide Run, ValidCluster, MadeInRun, ChainsOf, Numbered, OneDeep;
    assert Sound(cl.h, u) by { SoundHashing(cl, u); }
  }

  lemma SoundHashing(cl: Cluster, u: iset<Entry>)
    requires ValidCluster(cl, u)
    ensures Sound(cl.h, u)
  {
  }

  lemma StoreInRun(cl: Cluster, u: iset<Entry>, states: seq<Sys>, labels: seq<Label>, k: nat, y: Host)
    requires ValidCluster(cl, u) && Run(cl, u, states, labels) && k < |states| && y in cl.hosts
    ensures y in states[k].peers && ChainsOf(cl.h, u, states[k].peers[y].node.store)
  {
    RunIsSafe(cl, u, states, labels, k);
    assert PeerOk(cl, u, y, states[k].peers[y], HistoryOf(cl, states, k));
  }

  lemma NumberedInRun(cl: Cluster, u: iset<Entry>, states: seq<Sys>, labels: seq<Label>, k: nat, y: Host, key: Key)
    requires ValidCluster(cl, u) && Run(cl, u, states, labels) && k < |states| && y in cl.hosts && y in states[k].peers
    requires forall e :: e in u ==> MadeInRun(cl, states, e)
    requires |LogAt(states[k], y, key)| < 0x1_0000_0000
    ensures Numbered(LogAt(states[k], y, key))
  {
    var log := LogAt(states[k], y, key);
    forall i | 0 <= i < |log|
      ensures log[i].height == i + 1
    {
      HeightIsPosition(cl, u, states, labels, k, y, key, i);
    }
  }

  /** Peer number `i` of `ps` leads: its log is the longest one `x` has heard of, and healing takes the log of `x` to
      it, or part of the way if the connection breaks, unless the two are equally long and differ in the last entry. */
  ghost predicate HealsTo(cl: Cluster, s: Sys, x: Host, key: Key, ps: seq<Host>, fetched: seq<Option<Entry>>,
                          cut: Option<nat>, i: nat)
    requires x in s.peers && Fetched(s, x, key, ps, fetched) && i < |ps|
  {
    var own, log := LogAt(s, x, key), LogAt(s, ps[i], key);
    var lasts := Lasts(x, LastOf(own), ps, fetched);
    var (n', err) := Heal(ConfOf(cl, x), s.peers[x].node, key, ps, fetched, ViewsOf(s), cut);
    && lasts[i].Some?
    && (forall j :: 0 <= j < |ps| && lasts[j].Some? ==> |LogAt(s, ps[j], key)| <= |log|)
    && Heals(own, log, cut, LogOf(n'.store, key), err)
  }

  /** A peer that heals in a reachable state ends with the longest of the logs it heard of, or with a part of it if the
      connection breaks, or finds that log forked from its own in the last entry. */
  lemma HealInReachableState(cl: Cluster, u: iset<Entry>, states: seq<Sys>, labels: seq<Label>, k: nat, x: Host,
                             key: Key, fetched: seq<Option<Entry>>, cut: Option<nat>) returns (i: nat)
    requires ValidCluster(cl, u) && Run(cl, u, states, labels) && k < |states| && x in cl.peers(key) && key.bytes != []
    requires forall e :: e in u ==> MadeInRun(cl, states, e)
    requires Fetched(states[k], x, key, cl.peers(key), fetched) && ShortLogs(states[k], key) && x in states[k].peers
    requires !NothingFetched(Lasts(x, LastOf(LogAt(states[k], x, key)), cl.peers(key), fetched))
    ensures i < |cl.peers(key)| && HealsTo(cl, states[k], x, key, cl.peers(key), fetched, cut, i)
  {
    ReachableIsSteady(cl, u, states, labels, k, x, key, fetched);
    hide *;
    i := HealSteady(cl, u, states[k], x, key, cl.peers(key), fetched, cut);
  }

  lemma HealSteady(cl: Cluster, u: iset<Entry>, s: Sys, x: Host, key: Key, ps: seq<Host>, fetched: seq<Option<Entry>>,
                   cut: Option<nat>)
    returns (i: nat)
    requires x in s.peers && key.bytes != [] && Fetched(s, x, key, ps, fetched)
    requires Steady(ConfOf(cl, x), u, s.peers[x].node, key, ps, fetched, ViewsOf(s))
    requires !NothingFetched(Lasts(x, LastOf(LogAt(s, x, key)), ps, fetched))
    ensures i < |ps| && HealsTo(cl, s, x, key, ps, fetched, cut, i)
  {
    var c, n, views := ConfOf(cl, x), s.peers[x].node, ViewsOf(s);
    hide Steady, Heal, Heals;
    LeaderIsLongest(c, u, n, key, ps, fetched, views);
    HealOutcome(c, u, n, key, ps, fetched, views, cut);
    i := LeaderIndex(Lasts(c.host, LastOf(LogOf(n.store, key)), ps, fetched)).value;
    forall j | 0 <= j < |ps|
      ensures LogFrom(c, n, key, views, ps[j]) == LogAt(s, ps[j], key)
    {
    }
  }

  // ---- a pull is a run of Pull steps

  ghost predicate Steps(cl: Cluster, u: iset<Entry>, states: seq<Sys>, labels: seq<Label>) {
    && |states| == |labels| + 1
    && (forall k :: 0 <= k < |labels| ==> Enabled(cl, u, states[k], labels[k]))
    && (forall k :: 0 <= k < |labels| ==> states[k + 1] == Next(cl, u, states[k], labels[k]))
  }

  /** The entries `start` up to `upto` of a key log, received one by one, are as many Pull steps. */
  lemma {:induction false} ReceiveIsSteps(cl: Cluster, u: iset<Entry>, s: Sys, at: Host, other: Host, k: Key,
                                          start: nat, upto: nat) returns (states: seq<Sys>, labels: seq<Label>)
    requires at in s.peers && other in s.peers && at != other && k in s.peers[at].node.store
    requires start <= upto <= |LogAt(s, other, k)|
    ensures Steps(cl, u, states, labels) && states[0] == s && |labels| == upto - start
    ensures forall l :: l in labels ==> l.Pull? && l.at == at && l.from == other && l.key == k
    ensures states[|labels|] ==
            SetNode(s, at, ReceiveAll(cl.h, s.peers[at].node, Range(LogAt(s, other, k), start, upto)).0)
    decreases upto
  {
    var log, n := LogAt(s, other, k), s.peers[at].node;
    if start == upto {
      states, labels := [s], [];
      assert Range(log, start, upto) == [];
      assert SetNode(s, at, n) == s;
    } else {
      var before, ls := ReceiveIsSteps(cl, u, s, at, other, k, start, upto - 1);
      var s1, l := before[|ls|], Pull(at, other, k, upto - 1);
      RangeOneMore(log, start, upto);
      ReceiveOne(cl.h, n, Range(log, start, upto - 1), log[upto - 1]);
      ReceiveKeepsKey(cl.h, n, Range(log, start, upto - 1), k);
      PullsNext(cl, u, s, at, other, k, upto - 1, ReceiveAll(cl.h, n, Range(log, start, upto - 1)).0);
      StepsOneMore(cl, u, before, ls, l);
      states, labels := before + [Next(cl, u, s1, l)], ls + [l];
    }
  }

  /** A Pull step after the node has changed to `n`. */
  lemma PullsNext(cl: Cluster, u: iset<Entry>, s: Sys, at: Host, other: Host, k: Key, i: nat, n: Node)
    requires at in s.peers && other in s.peers && at != other && i < |LogAt(s, other, k)| && k in n.store
    ensures Enabled(cl, u, SetNode(s, at, n), Pull(at, other, k, i))
    ensures Next(cl, u, SetNode(s, at, n), Pull(at, other, k, i)) ==
            SetNode(s, at, AppendDirect(cl.h, n, LogAt(s, other, k)[i]).0)
  {
    hide AppendDirect;
  }

  lemma StepsOneMore(cl: Cluster, u: iset<Entry>, states: seq<Sys>, labels: seq<Label>, l: Label)
    requires Steps(cl, u, states, labels) && Enabled(cl, u, states[|labels|], l)
    ensures Steps(cl, u, states + [Next(cl, u, states[|labels|], l)], labels + [l])
  {
    hide Enabled, Next;
  }

  lemma {:induction false} ReceiveKeepsKey(h: Hashing, n: Node, es: seq<Entry>, k: Key)
    requires k in n.store
    ensures k in ReceiveAll(h, n, es).0.store
    decreases es
  {
    if es != [] {
      ReceiveKeepsKey(h, n, es[..|es| - 1], k);
    }
  }
}
