/** What the node objects demand of their callers holds in every state a cluster can reach. */
module NodeHealth {
  import opened HexTypes
  import opened Ballots
  import opened Nodes
  import opened Clusters
  import opened NodeSafety
  import opened Divergence
  import opened Hexalogs

  lemma OkIsHealthy(cl: Cluster, u: iset<Entry>, x: Host, n: Node, hist: Hist)
    requires ValidCluster(cl, u) && NodeOk(cl, u, x, n, hist)
    ensures Healthy(n)
  {
    forall id | id in n.ballots
      ensures Sane(n.ballots[id]) && (n.ballots[id].closed || n.ballots[id].timer)
    {
      assert BallotOk(cl, u, x, id, n.ballots[id], hist);
      CountBounds(n.ballots[id].proposed);
    }
  }

  /** In every reachable state every open ballot has its timer running, and Propose and Commit can be called for any
      entry with the peers of its key. */
  lemma RunIsHealthy(cl: Cluster, u: iset<Entry>, states: seq<Sys>, labels: seq<Label>, k: nat, x: Host, e: Entry,
                     source: int)
    requires ValidCluster(cl, u) && Run(cl, u, states, labels) && k < |states| && x in cl.hosts
    requires e in u && source < |cl.peers(e.key)|
    ensures x in states[k].peers && Healthy(states[k].peers[x].node)
    ensures Callable(ConfOf(cl, x), states[k].peers[x].node, e, OptsOf(cl, e, source))
    ensures forall p :: p in cl.peers(e.key) ==> p != ""
  {
    RunIsSafe(cl, u, states, labels, k);
    var hist := HistoryOf(cl, states, k);
    assert PeerOk(cl, u, x, states[k].peers[x], hist);
    OkIsHealthy(cl, u, x, states[k].peers[x].node, hist);
    AlwaysCallable(cl, u, x, states[k].peers[x].node, e, source, hist);
    assert PeersOk(cl.hosts, cl.peers(e.key));
  }

  /** What a firing timer does to a node object is the `Expire` step of a cluster, which can happen just to an open
      ballot of the node. */
  lemma ExpireIsTimeOut(cl: Cluster, u: iset<Entry>, s: Sys, hist: Hist, x: Host, id: Id)
    requires Safe(cl, u, s, hist) && x in s.peers && id in s.peers[x].node.ballots
    ensures
      var n := s.peers[x].node;
      && (Enabled(cl, u, s, Expire(x, id)) <==> !n.ballots[id].closed)
      && (Enabled(cl, u, s, Expire(x, id)) ==>
            Next(cl, u, s, Expire(x, id)) == SetNode(s, x, SetBallot(n, Ballots.Expire(n.ballots[id]))))
  {
    var n := s.peers[x].node;
    assert PeerOk(cl, u, x, s.peers[x], hist);
    assert BallotOk(cl, u, x, id, n.ballots[id], hist);
    CountBounds(n.ballots[id].proposed);
    hide Safe, PeerOk, BallotOk;
  }
}
