/** What the nodes of a cluster hand to their state machines, and what they refuse, over all runs. */
module LogsInRuns {
  import opened HexTypes
  import opened Chains
  import opened StoreSpec
  import opened Ballots
  import opened Nodes
  import opened Clusters
  import opened NodeSafety
  import opened Divergence
  import opened CommitOrder
  import opened NodeFlow
  import opened Completion
  import Replays

  /** Each key's entries have been handed to the FSM exactly as they stand in its log; and no key is marked. */
  ghost predicate InStep(n: Node) {
    && (forall k :: Replays.Of(n.applied, k) == LogOf(n.store, k))
    && (forall k :: k in n.store ==> n.store[k].marker.None?)
  }

  /** What handlers do to this: it stays so, and nothing that was handed over is taken back. */
  ghost predicate Hands(n: Node, n': Node) {
    InStep(n') && n.applied <= n'.applied
  }

  lemma AppendInStep(h: Hashing, n: Node, e: Entry)
    requires InStep(n)
    ensures Hands(n, AppendDirect(h, n, e).0)
  {
    var n' := AppendDirect(h, n, e).0;
    forall k
      ensures Replays.Of(n'.applied, k) == LogOf(n'.store, k)
    {
      Replays.OfOneMore(n.applied, e, k);
      assert Replays.Of(n.applied, k) + [] == Replays.Of(n.applied, k);
    }
  }

  lemma SameInStep(n: Node, n': Node)
    requires InStep(n) && n'.applied == n.applied
             && (n'.store == n.store || exists k :: n'.store == UpsertKey(n.store, k))
    ensures Hands(n, n')
  {
  }

  lemma CheckInStep(h: Hashing, n: Node, id: Id)
    requires InStep(n) && id in n.ballots
    ensures Hands(n, CheckVotesAndCommit(h, n, id))
  {
    AppendInStep(h, n, n.ballots[id].entry);
    hide Replays.Of;
  }

  lemma TakeProposalInStep(c: Conf, n: Node, e: Entry, peers: seq<Host>, self: nat, source: nat, prevHeight: nat)
    requires InStep(n) && c.h.hash(e) in n.ballots && source < |peers| == |n.ballots[c.h.hash(e)].proposed|
    ensures Hands(n, TakeProposal(c, n, e, peers, self, source, prevHeight).0)
  {
    var id := c.h.hash(e);
    var n1 := n.(ballots := n.ballots[id := CastPropose(n.ballots[id], id, peers[source], source).0]);
    CheckInStep(c.h, n1, id);
    hide Replays.Of, CheckVotesAndCommit;
  }

  lemma ProposeInStep(c: Conf, n: Node, e: Entry, opts: Options)
    requires InStep(n) && Callable(c, n, e, opts)
    ensures Hands(n, Propose(c, n, e, opts).0)
  {
    if EnoughPeers(c, opts.peers) && SelfIndex(opts.peers, c.host).Some? && Verify(c.h, n.store, e).1.None? {
      var self := SelfIndex(opts.peers, c.host).value;
      var source: nat := if opts.sourceIndex < 0 then self else opts.sourceIndex;
      var prevHeight := Verify(c.h, n.store, e).0;
      var n1 := OpenBallot(c, n, e, opts.peers, self, source, prevHeight);
      SameInStep(n, n1) by {
        assert n1.store == n.store || n1.store == UpsertKey(n.store, e.key);
      }
      TakeProposalInStep(c, n1, e, opts.peers, self, source, prevHeight);
      hide TakeProposal, OpenBallot, InStep;
    } else {
      hide TakeProposal, OpenBallot;
    }
  }

  lemma TakeCommitInStep(c: Conf, n: Node, id: Id, peers: seq<Host>, self: nat, i: nat)
    requires InStep(n) && id in n.ballots && i < |peers| == |n.ballots[id].committed|
    ensures Hands(n, TakeCommit(c, n, id, peers, self, i).0)
  {
    var n1 := n.(ballots := n.ballots[id := CastCommit(n.ballots[id], id, peers[i], i).0]);
    CheckInStep(c.h, n1, id);
    hide Replays.Of, CheckVotesAndCommit;
  }

  lemma CommitInStep(c: Conf, n: Node, e: Entry, opts: Options)
    requires InStep(n) && Callable(c, n, e, opts) && 0 <= opts.sourceIndex
    ensures Hands(n, Commit(c, n, e, opts).0)
  {
    var id := c.h.hash(e);
    if EnoughPeers(c, opts.peers) && SelfIndex(opts.peers, c.host).Some? && id in n.ballots {
      var self := SelfIndex(opts.peers, c.host).value;
      TakeCommitInStep(c, n, id, opts.peers, self, self);
      TakeCommitKeepsBallots(c, n, id, opts.peers, self, self);
      var n1 := TakeCommit(c, n, id, opts.peers, self, self).0;
      TakeCommitInStep(c, n1, id, opts.peers, self, opts.sourceIndex);
    }
    hide TakeCommit, InStep;
  }

  lemma HandleInStep(cl: Cluster, x: Host, n: Node, phase: Phase, e: Entry, opts: Options)
    requires InStep(n) && CanHandle(cl, x, n, phase, e, opts)
    ensures Hands(n, Handle(cl, x, n, phase, e, opts).0)
  {
    if phase.Proposing? {
      ProposeInStep(ConfOf(cl, x), n, e, opts);
    } else {
      CommitInStep(ConfOf(cl, x), n, e, opts);
    }
  }

  lemma EndInStep(cl: Cluster, x: Host, p: Peer, phase: Phase, err: Option<Error>)
    requires InStep(p.node) && CanEnd(cl, x, p, phase, err)
    ensures Hands(p.node, EndRound(cl, x, p, phase, err).node)
  {
    var req := RoundOf(p, phase).value.req;
    if err.None? && phase.Proposing? {
      HandleInStep(cl, x, p.node, Committing, req.entry, req.opts);
      hide Handle;
    }
    hide Replays.Of;
  }

  ghost predicate AllInStep(s: Sys) {
    forall x :: x in s.peers ==> InStep(s.peers[x].node)
  }

  lemma StepInStep(cl: Cluster, u: iset<Entry>, s: Sys, l: Label)
    requires AllInStep(s) && Enabled(cl, u, s, l)
    ensures AllInStep(Next(cl, u, s, l))
    ensures forall x :: x in s.peers ==> x in Next(cl, u, s, l).peers
                                         && Hands(s.peers[x].node, Next(cl, u, s, l).peers[x].node)
  {
    hide Replays.Of, LogOf;
    match l
    case ClientPropose(at, e, source) =>
      HandleInStep(cl, at, s.peers[at].node, Proposing, e, OptsOf(cl, e, source));
      hide Handle, InStep;
    case Start(phase, at) =>
      assert InStep(StartRound(cl, s.peers[at], phase, at).0.node);
      hide StartRound, InStep;
    case Deliver(m) =>
      HandleInStep(cl, m.to, s.peers[m.to].node, m.phase, m.entry, m.opts);
      hide Handle, InStep;
    case Receive(m) =>
      if Awaited(s.peers[m.to], m) && Ends(s.peers[m.to], m) {
        EndInStep(cl, m.to, s.peers[m.to], m.phase, m.err);
      }
      hide EndRound, InStep;
    case Fail(phase, at) =>
      EndInStep(cl, at, s.peers[at], phase, Some(ErrTransport));
      hide EndRound, InStep;
    case Lose(_) =>
    case Expire(at, _) =>
    case ReapBallots(at) =>
    case Crash(at) =>
    case Pull(at, other, k, i) =>
      var n := s.peers[at].node;
      SameInStep(n, n.(store := UpsertKey(n.store, k)));
      AppendInStep(cl.h, n.(store := UpsertKey(n.store, k)), LogAt(s, other, k)[i]);
      hide AppendDirect, InStep;
  }

  lemma {:induction false} RunInStep(cl: Cluster, u: iset<Entry>, states: seq<Sys>, labels: seq<Label>, k: nat)
    requires Run(cl, u, states, labels) && k < |states|
    ensures AllInStep(states[k])
  {
    if k > 0 {
      RunInStep(cl, u, states, labels, k - 1);
      StepInStep(cl, u, states[k - 1], labels[k - 1]);
    }
  }

  /** In every reachable state what the appends of a node have handed over to its FSM for a key is exactly its log of
      the key: each entry once, in order, whether voted for or pulled. What the FSM is given when the node also
      crashes, with the check after each restart, is FsmsInRuns.GivenInRuns. */
  lemma AppliedIsLog(cl: Cluster, u: iset<Entry>, states: seq<Sys>, labels: seq<Label>, k: nat, x: Host, key: Key)
    requires Run(cl, u, states, labels) && k < |states| && x in states[k].peers
    ensures Replays.Of(states[k].peers[x].node.applied, key) == LogAt(states[k], x, key)
  {
    RunInStep(cl, u, states, labels, k);
    hide Replays.Of, Run;
  }

  lemma {:induction false} FreeRunInStep(cl: Cluster, u: iset<Entry>, e: Entry, log: seq<Entry>, states: seq<Sys>,
                                         labels: seq<Label>, k: nat)
    requires FailureFree(cl, u, e, log, states, labels) && AllInStep(states[0]) && k < |states|
    ensures AllInStep(states[k])
  {
    if k > 0 {
      FreeRunInStep(cl, u, e, log, states, labels, k - 1);
      assert NothingFails(cl, e, labels[k - 1]);
      StepInStep(cl, u, states[k - 1], labels[k - 1]);
    }
  }

  /** When a failure-free run is drained, every peer has handed the entry to its FSM, once, after what comes before
      it. */
  lemma CompletedIsApplied(cl: Cluster, u: iset<Entry>, e: Entry, log: seq<Entry>, states: seq<Sys>, labels: seq<Label>,
                           j: nat, k: nat, x: Host)
    requires Setting(cl, u, e, log) && FailureFree(cl, u, e, log, states, labels) && j < k < |states|
    requires labels[j].ClientPropose? && Quiet(states[k]) && x in cl.peers(e.key) && AllInStep(states[0])
    ensures x in states[k].peers && Replays.Of(states[k].peers[x].node.applied, e.key) == log + [e]
  {
    FailureFreeCompletion(cl, u, e, log, states, labels, j, k, x);
    FreeRunInStep(cl, u, e, log, states, labels, k);
    hide Replays.Of, FailureFree, Setting, Quiet;
  }

  // ---- entries in a log stay, and are refused when proposed again

  lemma LogsGrowByStep(cl: Cluster, u: iset<Entry>, s: Sys, l: Label, hist: Hist, x: Host, key: Key)
    requires ValidCluster(cl, u) && Safe(cl, u, s, hist) && Enabled(cl, u, s, l) && x in s.peers
    ensures x in Next(cl, u, s, l).peers && LogAt(s, x, key) <= LogAt(Next(cl, u, s, l), x, key)
  {
    var s' := Next(cl, u, s, l);
    var hist' := Record(cl, hist, s, s');
    if !l.Lose? {
      BeforeStep(cl, u, s, l, hist);
      AnyStep(cl, u, s, l, hist, hist', Actor(l).value);
      if Actor(l).value == x {
        assert LogStep(cl, u, s, LogAt(s, x, key), LogAt(s', x, key), key, hist', l.Pull?);
        LogStepGrows(cl, u, s, LogAt(s, x, key), LogAt(s', x, key), key, hist', l.Pull?);
      }
    } else {
      LoseShape(cl, u, s, l);
    }
    hide Next, Enabled, Safe;
  }

  lemma {:induction false} LogsGrow(cl: Cluster, u: iset<Entry>, states: seq<Sys>, labels: seq<Label>, j: nat, k: nat,
                                    x: Host, key: Key)
    requires ValidCluster(cl, u) && Run(cl, u, states, labels) && j <= k < |states| && x in cl.hosts
    ensures x in states[j].peers && x in states[k].peers && LogAt(states[j], x, key) <= LogAt(states[k], x, key)
    decreases k
  {
    hide *;
    HostInRun(cl, u, states, labels, k, x);
    HostInRun(cl, u, states, labels, j, x);
    if j < k {
      RunIsSafe(cl, u, states, labels, k - 1);
      RunGoesOn(cl, u, states, labels, k - 1);
      LogsGrow(cl, u, states, labels, j, k - 1, x, key);
      LogsGrowByStep(cl, u, states[k - 1], labels[k - 1], HistoryOf(cl, states, k - 1), x, key);
    }
  }

  lemma HostInRun(cl: Cluster, u: iset<Entry>, states: seq<Sys>, labels: seq<Label>, k: nat, x: Host)
    requires ValidCluster(cl, u) && Run(cl, u, states, labels) && k < |states| && x in cl.hosts
    ensures x in states[k].peers
  {
    RunIsSafe(cl, u, states, labels, k);
  }

  lemma RunGoesOn(cl: Cluster, u: iset<Entry>, states: seq<Sys>, labels: seq<Label>, k: nat)
    requires Run(cl, u, states, labels)
    ensures |states| == |labels| + 1
    ensures k < |labels| ==> Enabled(cl, u, states[k], labels[k]) && states[k + 1] == Next(cl, u, states[k], labels[k])
  {
    hide Next, Enabled;
  }

  /** Once an entry is in a node's log, every later proposal of it at that node is refused, even after its ballot has
      been reaped: no ballot is opened and no heal queued, if every entry was created by a node from its log. */
  lemma RefusedForGood(cl: Cluster, u: iset<Entry>, states: seq<Sys>, labels: seq<Label>, j: nat, k: nat, x: Host,
                       e: Entry, source: int)
    requires ValidCluster(cl, u) && Run(cl, u, states, labels) && j <= k < |states| && x in cl.peers(e.key)
    requires forall e' :: e' in u ==> MadeInRun(cl, states, e')
    requires x in states[j].peers && e in LogAt(states[j], x, e.key) && source < |cl.peers(e.key)|
    requires cl.votes <= |cl.peers(e.key)|
    ensures x in states[k].peers && Callable(ConfOf(cl, x), states[k].peers[x].node, e, OptsOf(cl, e, source))
    ensures |LogAt(states[k], x, e.key)| < 0x1_0000_0000 ==>
              var n := states[k].peers[x].node;
              var (n', err) := Propose(ConfOf(cl, x), n, e, OptsOf(cl, e, source));
              && err == Some(ErrPreviousHash)
              && n'.ballots.Keys == n.ballots.Keys && n' == n.(ballots := n'.ballots)
  {
    assert PeersOk(cl.hosts, cl.peers(e.key));
    assert Sound(cl.h, u);
    hide Run, ValidCluster, MadeInRun;
    LogsGrow(cl, u, states, labels, j, k, x, e.key);
    LogsAreChains(cl, u, states, labels, k, x, e.key);
    assert e in LogAt(states[k], x, e.key) && e in u;
    RunIsSafe(cl, u, states, labels, k);
    assert PeerOk(cl, u, x, states[k].peers[x], HistoryOf(cl, states, k));
    AlwaysCallable(cl, u, x, states[k].peers[x].node, e, source, HistoryOf(cl, states, k));
    RunInStep(cl, u, states, labels, k);
    hide Safe, PeerOk, Chain, Sound;
    if |LogAt(states[k], x, e.key)| < 0x1_0000_0000 {
      forall i | 0 <= i < |LogAt(states[k], x, e.key)|
        ensures LogAt(states[k], x, e.key)[i].height == ToUint32(i + 1)
      {
        HeightIsPosition(cl, u, states, labels, k, x, e.key, i);
      }
      RefusedNow(cl, u, x, states[k].peers[x].node, e, source);
    }
  }

  lemma RefusedNow(cl: Cluster, u: iset<Entry>, x: Host, n: Node, e: Entry, source: int)
    requires Sound(cl.h, u) && Callable(ConfOf(cl, x), n, e, OptsOf(cl, e, source)) && x in cl.peers(e.key)
    requires cl.votes <= |cl.peers(e.key)| && InStep(n) && Chain(cl.h, u, e.key, LogOf(n.store, e.key))
    requires e in LogOf(n.store, e.key) && |LogOf(n.store, e.key)| < 0x1_0000_0000
    requires forall i :: 0 <= i < |LogOf(n.store, e.key)| ==> LogOf(n.store, e.key)[i].height == ToUint32(i + 1)
    ensures
      var (n', err) := Propose(ConfOf(cl, x), n, e, OptsOf(cl, e, source));
      && err == Some(ErrPreviousHash)
      && n'.ballots.Keys == n.ballots.Keys && n' == n.(ballots := n'.ballots)
  {
    var i :| 0 <= i < |LogOf(n.store, e.key)| && LogOf(n.store, e.key)[i] == e;
    hide Propose;
    NoBallotAfterCommit(ConfOf(cl, x), u, n, e, OptsOf(cl, e, source), i);
  }
}
