/** Runs end: whatever is lost, fails or times out, only so many steps can follow from a finite number of proposals, and
    some step is possible until every ballot is closed and nothing is under way. */
module Termination {
  import opened HexTypes
  import opened Chains
  import opened StoreSpec
  import opened Ballots
  import opened Nodes
  import opened Clusters
  import opened NodeSafety
  import opened Divergence
  import opened CommitOrder
  import opened Flows

  // ---- closed ballots stay closed

  ghost predicate ClosedStay(n: Node, n': Node) {
    forall id :: id in n.ballots && n.ballots[id].closed ==> id in n'.ballots && n'.ballots[id].closed
  }

  lemma CheckCloses(h: Hashing, n: Node, id: Id)
    requires id in n.ballots
    ensures ClosedStay(n, CheckVotesAndCommit(h, n, id))
  {
    hide AppendView, CountVotes;
  }

  lemma TakeProposalCloses(c: Conf, n: Node, e: Entry, peers: seq<Host>, self: nat, source: nat, prevHeight: nat)
    requires c.h.hash(e) in n.ballots && source < |peers| == |n.ballots[c.h.hash(e)].proposed|
    ensures ClosedStay(n, TakeProposal(c, n, e, peers, self, source, prevHeight).0)
  {
    var id := c.h.hash(e);
    var n1 := n.(ballots := n.ballots[id := CastPropose(n.ballots[id], id, peers[source], source).0]);
    assert ClosedStay(n, n1);
    CheckCloses(c.h, n1, id);
    hide CheckVotesAndCommit, CastPropose;
  }

  lemma ProposeCloses(c: Conf, n: Node, e: Entry, opts: Options)
    requires Callable(c, n, e, opts)
    ensures ClosedStay(n, Propose(c, n, e, opts).0)
  {
    if EnoughPeers(c, opts.peers) && SelfIndex(opts.peers, c.host).Some? && Verify(c.h, n.store, e).1.None? {
      var self := SelfIndex(opts.peers, c.host).value;
      var source: nat := if opts.sourceIndex < 0 then self else opts.sourceIndex;
      var prevHeight := Verify(c.h, n.store, e).0;
      TakeProposalCloses(c, OpenBallot(c, n, e, opts.peers, self, source, prevHeight), e, opts.peers, self, source,
        prevHeight);
    }
    hide TakeProposal;
  }

  lemma TakeCommitCloses(c: Conf, n: Node, id: Id, peers: seq<Host>, self: nat, i: nat)
    requires id in n.ballots && i < |peers| == |n.ballots[id].committed|
    ensures ClosedStay(n, TakeCommit(c, n, id, peers, self, i).0)
  {
    var n1 := n.(ballots := n.ballots[id := CastCommit(n.ballots[id], id, peers[i], i).0]);
    assert ClosedStay(n, n1);
    CheckCloses(c.h, n1, id);
    hide CheckVotesAndCommit, CastCommit;
  }

  lemma CommitCloses(c: Conf, n: Node, e: Entry, opts: Options)
    requires Callable(c, n, e, opts) && 0 <= opts.sourceIndex
    ensures ClosedStay(n, Commit(c, n, e, opts).0)
  {
    var id := c.h.hash(e);
    if EnoughPeers(c, opts.peers) && SelfIndex(opts.peers, c.host).Some? && id in n.ballots {
      var self := SelfIndex(opts.peers, c.host).value;
      TakeCommitCloses(c, n, id, opts.peers, self, self);
      TakeCommitKeepsBallots(c, n, id, opts.peers, self, self);
      TakeCommitCloses(c, TakeCommit(c, n, id, opts.peers, self, self).0, id, opts.peers, self, opts.sourceIndex);
    }
    hide TakeCommit;
  }

  lemma HandleCloses(cl: Cluster, x: Host, n: Node, phase: Phase, e: Entry, opts: Options)
    requires CanHandle(cl, x, n, phase, e, opts)
    ensures ClosedStay(n, Handle(cl, x, n, phase, e, opts).0)
  {
    if phase.Proposing? {
      ProposeCloses(ConfOf(cl, x), n, e, opts);
    } else {
      CommitCloses(ConfOf(cl, x), n, e, opts);
    }
  }

  lemma EndCloses(cl: Cluster, x: Host, p: Peer, phase: Phase, err: Option<Error>)
    requires CanEnd(cl, x, p, phase, err)
    ensures ClosedStay(p.node, EndRound(cl, x, p, phase, err).node)
  {
    var req := RoundOf(p, phase).value.req;
    if err.None? && phase.Proposing? {
      HandleCloses(cl, x, p.node, Committing, req.entry, req.opts);
      hide Handle;
    }
  }

  lemma ActingCloses(cl: Cluster, u: iset<Entry>, s: Sys, l: Label)
    requires Enabled(cl, u, s, l) && Acts(s, l)
    ensures
      var x, s' := Actor(l).value, Next(cl, u, s, l);
      x in s.peers && x in s'.peers && ClosedStay(s.peers[x].node, s'.peers[x].node)
  {
    match l {
      case ClientPropose(at, e, source) =>
        HandleCloses(cl, at, s.peers[at].node, Proposing, e, OptsOf(cl, e, source));
      case Deliver(m) =>
        HandleCloses(cl, m.to, s.peers[m.to].node, m.phase, m.entry, m.opts);
      case Receive(m) =>
        EndCloses(cl, m.to, s.peers[m.to], m.phase, m.err);
      case Fail(phase, at) =>
        EndCloses(cl, at, s.peers[at], phase, Some(ErrTransport));
    }
    hide Handle, EndRound, ClosedStay;
  }

  // ---- the measure

  function Only(es: set<Entry>): iset<Entry> {
    iset e | e in es
  }

  function AllPlaces(cl: Cluster, es: set<Entry>): set<(Host, Entry)> {
    set e, x | e in es && x in cl.peers(e.key) :: (x, e)
  }

  /** The votes of its own that a peer has yet to cast: a proposal by opening the ballot, then a commit. */
  ghost function Waiting(cl: Cluster, es: set<Entry>, s: Sys): set<(Host, Entry, Phase)> {
    set e, x, ph | e in es && x in cl.peers(e.key) && ph in BothPhases() && !Entered(cl, s, x, ph, cl.h.hash(e)) ::
      (x, e, ph)
  }

  function Queued(s: Sys): set<(Host, Phase, int)> {
    set x, ph, i | x in s.peers && ph in BothPhases() && 0 <= i < |QueueOf(s.peers[x].node, ph)| :: (x, ph, i)
  }

  function Busy(s: Sys): set<(Host, Phase)> {
    set x, ph | x in s.peers && ph in BothPhases() && RoundOf(s.peers[x], ph).Some? :: (x, ph)
  }

  predicate HasClosed(cl: Cluster, s: Sys, x: Host, e: Entry) {
    && x in s.peers && cl.h.hash(e) in s.peers[x].node.ballots && s.peers[x].node.ballots[cl.h.hash(e)].closed
  }

  /** Ballots that are still to be closed. */
  function Unclosed(cl: Cluster, es: set<Entry>, s: Sys): set<(Host, Entry)> {
    set e, x | e in es && x in cl.peers(e.key) && !HasClosed(cl, s, x, e) :: (x, e)
  }

  /** With at most `m` peers per key: an own vote to cast or a broadcast to start is worth `2m`, a request 2, and a
      reply, a round and a ballot to close 1 each. */
  ghost function Work(cl: Cluster, es: set<Entry>, m: nat, s: Sys): int {
    2 * m * (|Waiting(cl, es, s)| + |Queued(s)|) + 2 * |RequestsIn(s.net)| + |RepliesIn(s.net)| + |Busy(s)|
    + |Unclosed(cl, es, s)|
  }

  lemma TimesMore(k: nat, a: int, b: int)
    requires a <= b
    ensures k * a <= k * b
  {
    assert k * b - k * a == k * (b - a);
  }

  /** What the change of one node does: a longer queue goes with an own vote cast. */
  lemma QueueForVote(cl: Cluster, u: iset<Entry>, es: set<Entry>, s: Sys, s': Sys, x: Host, e: Entry)
    requires x in s.peers && x in s'.peers && s'.peers == s.peers[x := s'.peers[x]] && e in es
    requires Kept(s.peers[x].node, s'.peers[x].node, cl.h.hash(e))
    requires QueuesOnce(cl, x, s.peers[x].node, s'.peers[x].node, e)
    requires ReqsOk(cl, u, x, s'.peers[x].node.pch) && ReqsOk(cl, u, x, s'.peers[x].node.cch)
    ensures |Waiting(cl, es, s')| + |Queued(s')| <= |Waiting(cl, es, s)| + |Queued(s)|
  {
    var n, n' := s.peers[x].node, s'.peers[x].node;
    forall t | t in Waiting(cl, es, s')
      ensures t in Waiting(cl, es, s)
    {
      ActorEnters(cl, s, s', x, e, t.0, t.2, cl.h.hash(t.1));
    }
    SubsetSize(Waiting(cl, es, s'), Waiting(cl, es, s));
    if n'.pch != n.pch {
      LongerQueue(cl, u, es, s, s', x, e, Proposing);
    } else if n'.cch != n.cch {
      LongerQueue(cl, u, es, s, s', x, e, Committing);
    } else {
      assert Queued(s') == Queued(s);
    }
  }

  lemma LongerQueue(cl: Cluster, u: iset<Entry>, es: set<Entry>, s: Sys, s': Sys, x: Host, e: Entry, phase: Phase)
    requires x in s.peers && x in s'.peers && s'.peers == s.peers[x := s'.peers[x]] && e in es
    requires
      var n, n' := s.peers[x].node, s'.peers[x].node;
      var q, q' := QueueOf(n, phase), QueueOf(n', phase);
      && |q'| == |q| + 1 && q'[|q|].entry == e && ReqsOk(cl, u, x, q')
      && (forall ph :: ph != phase ==> QueueOf(n', ph) == QueueOf(n, ph))
      && !Entered(cl, s, x, phase, cl.h.hash(e)) && Entered(cl, s', x, phase, cl.h.hash(e))
    requires Waiting(cl, es, s') <= Waiting(cl, es, s)
    ensures |Waiting(cl, es, s')| + |Queued(s')| <= |Waiting(cl, es, s)| + |Queued(s)|
  {
    var q, t := QueueOf(s.peers[x].node, phase), (x, e, phase);
    var q' := QueueOf(s'.peers[x].node, phase);
    assert ReqOk(cl, u, x, q'[|q|]);
    assert t in Waiting(cl, es, s) && t !in Waiting(cl, es, s');
    SubsetSize(Waiting(cl, es, s') + {t}, Waiting(cl, es, s));
    OneMoreQueued(s, s', x, phase);
  }

  lemma OneMoreQueued(s: Sys, s': Sys, x: Host, phase: Phase)
    requires x in s.peers && x in s'.peers && s'.peers == s.peers[x := s'.peers[x]]
    requires |QueueOf(s'.peers[x].node, phase)| == |QueueOf(s.peers[x].node, phase)| + 1
    requires forall ph :: ph != phase ==> QueueOf(s'.peers[x].node, ph) == QueueOf(s.peers[x].node, ph)
    ensures |Queued(s')| == |Queued(s)| + 1
  {
    var t := (x, phase, |QueueOf(s.peers[x].node, phase)|);
    assert t !in Queued(s);
    forall r
      ensures r in Queued(s') <==> r in Queued(s) + {t}
    {
      assert r == (r.0, r.1, r.2);
    }
    assert Queued(s') == Queued(s) + {t};
    hide Queued, QueueOf;
  }

  lemma FewerUnclosed(cl: Cluster, es: set<Entry>, s: Sys, s': Sys, x: Host)
    requires x in s.peers && x in s'.peers && s'.peers == s.peers[x := s'.peers[x]]
    requires ClosedStay(s.peers[x].node, s'.peers[x].node)
    ensures Unclosed(cl, es, s') <= Unclosed(cl, es, s) && |Unclosed(cl, es, s')| <= |Unclosed(cl, es, s)|
  {
    assert forall y, e :: HasClosed(cl, s, y, e) ==> HasClosed(cl, s', y, e);
    SubsetSize(Unclosed(cl, es, s'), Unclosed(cl, es, s));
  }

  // ---- the steps

  /** The work does not grow with a change of one node that has `Kept` and so on, but for messages and rounds. */
  lemma NodeWork(cl: Cluster, u: iset<Entry>, es: set<Entry>, m: nat, s: Sys, s': Sys, x: Host, e: Entry)
    requires x in s.peers && x in s'.peers && s'.peers == s.peers[x := s'.peers[x]] && e in es
    requires Kept(s.peers[x].node, s'.peers[x].node, cl.h.hash(e))
    requires QueuesOnce(cl, x, s.peers[x].node, s'.peers[x].node, e)
    requires ReqsOk(cl, u, x, s'.peers[x].node.pch) && ReqsOk(cl, u, x, s'.peers[x].node.cch)
    requires ClosedStay(s.peers[x].node, s'.peers[x].node)
    ensures Work(cl, es, m, s') - 2 * |RequestsIn(s'.net)| - |RepliesIn(s'.net)| - |Busy(s')|
            <= Work(cl, es, m, s) - 2 * |RequestsIn(s.net)| - |RepliesIn(s.net)| - |Busy(s)|
  {
    QueueForVote(cl, u, es, s, s', x, e);
    FewerUnclosed(cl, es, s, s', x);
    TimesMore(2 * m, |Waiting(cl, es, s')| + |Queued(s')|, |Waiting(cl, es, s)| + |Queued(s)|);
  }

  lemma SameBusy(s: Sys, s': Sys, x: Host)
    requires x in s.peers && x in s'.peers && s'.peers == s.peers[x := s'.peers[x]]
    requires forall ph :: RoundOf(s'.peers[x], ph).Some? ==> RoundOf(s.peers[x], ph).Some?
    ensures Busy(s') <= Busy(s) && |Busy(s')| <= |Busy(s)|
  {
    forall t | t in Busy(s')
      ensures t in Busy(s)
    {
      assert RoundOf(s'.peers[t.0], t.1).Some?;
    }
    SubsetSize(Busy(s'), Busy(s));
  }

  lemma OneMoreBusy(s: Sys, s': Sys, x: Host, phase: Phase)
    requires x in s.peers && x in s'.peers && s'.peers == s.peers[x := s'.peers[x]]
    requires forall ph :: ph != phase ==> RoundOf(s'.peers[x], ph) == RoundOf(s.peers[x], ph)
    ensures |Busy(s')| <= |Busy(s)| + 1
    ensures RoundOf(s.peers[x], phase).Some? && RoundOf(s'.peers[x], phase).None? ==> |Busy(s')| <= |Busy(s)| - 1
  {
    var t := (x, phase);
    assert Busy(s') <= Busy(s) + {t};
    SubsetSize(Busy(s'), Busy(s) + {t});
    if RoundOf(s.peers[x], phase).Some? && RoundOf(s'.peers[x], phase).None? {
      assert t in Busy(s) && t !in Busy(s');
      SubsetSize(Busy(s'), Busy(s) - {t});
    }
  }

  /** Messages go, and at most one reply comes. */
  lemma OneMessageLess(s: Sys, s': Sys, m: Msg)
    requires m in s.net && s'.net <= s.net - {m}
    ensures 2 * |RequestsIn(s'.net)| + |RepliesIn(s'.net)| < 2 * |RequestsIn(s.net)| + |RepliesIn(s.net)|
  {
    SubsetSize(RequestsIn(s'.net), RequestsIn(s.net) - (if m.Request? then {m} else {}));
    SubsetSize(RepliesIn(s'.net), RepliesIn(s.net) - (if m.Reply? then {m} else {}));
  }

  lemma RequestAnswered(s: Sys, s': Sys, m: Msg, r: Msg)
    requires m in s.net && m.Request? && r.Reply? && s'.net == s.net - {m} + {r}
    ensures 2 * |RequestsIn(s'.net)| + |RepliesIn(s'.net)| < 2 * |RequestsIn(s.net)| + |RepliesIn(s.net)|
  {
    assert RequestsIn(s'.net) == RequestsIn(s.net) - {m};
    assert RepliesIn(s'.net) == RepliesIn(s.net) + {r};
  }

  /** What a step is about: the invariant, entries from `es` only, and no ballot dropped. */
  ghost predicate Tame(cl: Cluster, es: set<Entry>, m: nat, s: Sys, l: Label, hist: Hist) {
    && ValidCluster(cl, Only(es)) && Safe(cl, Only(es), s, hist) && Enabled(cl, Only(es), s, l) && DropsNoBallot(l)
    && forall e :: e in es ==> |cl.peers(e.key)| <= m
  }

  /** The node a step changes, and what remains of its queues. */
  lemma ActingWork(cl: Cluster, es: set<Entry>, m: nat, s: Sys, l: Label, hist: Hist)
    requires Tame(cl, es, m, s, l, hist) && Acts(s, l)
    ensures
      var s' := Next(cl, Only(es), s, l);
      Work(cl, es, m, s') - 2 * |RequestsIn(s'.net)| - |RepliesIn(s'.net)| - |Busy(s')|
      <= Work(cl, es, m, s) - 2 * |RequestsIn(s.net)| - |RepliesIn(s.net)| - |Busy(s)|
  {
    var u, s', x := Only(es), Next(cl, Only(es), s, l), Actor(l).value;
    var e := ActingNode(cl, u, s, l, hist);
    ActingCloses(cl, u, s, l);
    StepKeeps(cl, u, s, l, hist);
    assert e in es && x in s'.peers;
    assert PeerOk(cl, u, x, s'.peers[x], Record(cl, hist, s, s'));
    hide *;
    QueuesOfNode(cl, u, x, s'.peers[x], Record(cl, hist, s, s'));
    NodeWork(cl, u, es, m, s, s', x, e);
  }

  lemma QueuesOfNode(cl: Cluster, u: iset<Entry>, x: Host, p: Peer, hist: Hist)
    requires PeerOk(cl, u, x, p, hist)
    ensures ReqsOk(cl, u, x, p.node.pch) && ReqsOk(cl, u, x, p.node.cch)
  {
  }

  lemma DeliverWork(cl: Cluster, es: set<Entry>, m: nat, s: Sys, l: Label, hist: Hist)
    requires Tame(cl, es, m, s, l, hist) && l.Deliver?
    ensures Work(cl, es, m, Next(cl, Only(es), s, l)) < Work(cl, es, m, s)
  {
    ActingWork(cl, es, m, s, l, hist);
    var s', r := Next(cl, Only(es), s, l), l.m;
    var (n, err) := Handle(cl, r.to, s.peers[r.to].node, r.phase, r.entry, r.opts);
    assert s'.peers == s.peers[r.to := s'.peers[r.to]] && s'.peers[r.to] == s.peers[r.to].(node := n);
    assert s'.net == s.net - {r} + {Reply(r.phase, r.to, r.from, r.no, r.entry, err)};
    hide Next, Enabled, Handle, Safe, Work;
    SameBusy(s, s', r.to);
    RequestAnswered(s, s', r, Reply(r.phase, r.to, r.from, r.no, r.entry, err));
  }

  lemma ClientWork(cl: Cluster, es: set<Entry>, m: nat, s: Sys, l: Label, hist: Hist)
    requires Tame(cl, es, m, s, l, hist) && l.ClientPropose?
    ensures Work(cl, es, m, Next(cl, Only(es), s, l)) <= Work(cl, es, m, s)
  {
    ActingWork(cl, es, m, s, l, hist);
    var s', x := Next(cl, Only(es), s, l), l.at;
    assert s'.peers == s.peers[x := s'.peers[x]] && s'.peers[x] == s.peers[x].(node := s'.peers[x].node)
      && s'.net == s.net;
    hide Next, Enabled, Handle, Safe, Work;
    SameBusy(s, s', x);
  }

  lemma FailWork(cl: Cluster, es: set<Entry>, m: nat, s: Sys, l: Label, hist: Hist)
    requires Tame(cl, es, m, s, l, hist) && l.Fail?
    ensures Work(cl, es, m, Next(cl, Only(es), s, l)) < Work(cl, es, m, s)
  {
    ActingWork(cl, es, m, s, l, hist);
    var s', x := Next(cl, Only(es), s, l), l.at;
    hide Handle, Commit, Propose, CloseBallot, Safe, Work;
    assert s'.peers == s.peers[x := s'.peers[x]] && s'.net == s.net;
    assert forall ph :: ph != l.phase ==> RoundOf(s'.peers[x], ph) == RoundOf(s.peers[x], ph);
    assert RoundOf(s'.peers[x], l.phase).None? && RoundOf(s.peers[x], l.phase).Some?;
    hide Next, Enabled, EndRound;
    OneMoreBusy(s, s', x, l.phase);
  }

  lemma ReceiveWork(cl: Cluster, es: set<Entry>, m: nat, s: Sys, l: Label, hist: Hist)
    requires Tame(cl, es, m, s, l, hist) && l.Receive?
    ensures Work(cl, es, m, Next(cl, Only(es), s, l)) < Work(cl, es, m, s)
  {
    var s', x := Next(cl, Only(es), s, l), l.m.to;
    assert s'.peers == s.peers[x := s'.peers[x]] && s'.net == s.net - {l.m};
    assert forall ph :: RoundOf(s'.peers[x], ph).Some? ==> RoundOf(s.peers[x], ph).Some?;
    if Acts(s, l) {
      ActingWork(cl, es, m, s, l, hist);
    } else {
      assert s'.peers[x].node == s.peers[x].node;
      SameNodeWork(cl, es, m, s, s', x);
    }
    hide Next, Enabled, ReceiveReply, Safe, Work;
    SameBusy(s, s', x);
    OneMessageLess(s, s', l.m);
  }

  /** A node whose ballots and queues stay as they are. */
  lemma SameNodeWork(cl: Cluster, es: set<Entry>, m: nat, s: Sys, s': Sys, x: Host)
    requires x in s.peers && x in s'.peers && s'.peers == s.peers[x := s'.peers[x]]
    requires s'.peers[x].node.ballots == s.peers[x].node.ballots
    requires forall ph :: QueueOf(s'.peers[x].node, ph) == QueueOf(s.peers[x].node, ph)
    ensures Work(cl, es, m, s') - 2 * |RequestsIn(s'.net)| - |RepliesIn(s'.net)| - |Busy(s')|
            == Work(cl, es, m, s) - 2 * |RequestsIn(s.net)| - |RepliesIn(s.net)| - |Busy(s)|
  {
    assert Queued(s') == Queued(s);
    assert forall y, ph, id :: Entered(cl, s', y, ph, id) <==> Entered(cl, s, y, ph, id);
    assert Waiting(cl, es, s') == Waiting(cl, es, s);
    assert forall y, e :: HasClosed(cl, s', y, e) <==> HasClosed(cl, s, y, e);
    assert Unclosed(cl, es, s') == Unclosed(cl, es, s);
  }

  lemma LoseWork(cl: Cluster, es: set<Entry>, m: nat, s: Sys, l: Label, hist: Hist)
    requires Tame(cl, es, m, s, l, hist) && l.Lose?
    ensures Work(cl, es, m, Next(cl, Only(es), s, l)) < Work(cl, es, m, s)
  {
    var s' := Next(cl, Only(es), s, l);
    assert s'.peers == s.peers && s'.net == s.net - {l.m};
    OneMessageLess(s, s', l.m);
    SamePeersWork(cl, es, m, s, s');
    hide Work, Next, Enabled;
  }

  lemma SamePeersWork(cl: Cluster, es: set<Entry>, m: nat, s: Sys, s': Sys)
    requires s'.peers == s.peers
    ensures Busy(s') == Busy(s)
    ensures Work(cl, es, m, s') - 2 * |RequestsIn(s'.net)| - |RepliesIn(s'.net)|
            == Work(cl, es, m, s) - 2 * |RequestsIn(s.net)| - |RepliesIn(s.net)|
  {
    assert Queued(s') == Queued(s) && Busy(s') == Busy(s);
    assert forall y, ph, id :: Entered(cl, s', y, ph, id) <==> Entered(cl, s, y, ph, id);
    assert Waiting(cl, es, s') == Waiting(cl, es, s);
    assert forall y, e :: HasClosed(cl, s', y, e) <==> HasClosed(cl, s, y, e);
    assert Unclosed(cl, es, s') == Unclosed(cl, es, s);
  }

  lemma PullShape(cl: Cluster, u: iset<Entry>, s: Sys, l: Label)
    requires l.Pull? && Enabled(cl, u, s, l)
    ensures
      var x, s' := l.at, Next(cl, u, s, l);
      && x in s'.peers && s'.peers == s.peers[x := s'.peers[x]] && s'.net == s.net
      && s'.peers[x].node.ballots == s.peers[x].node.ballots
      && (forall ph :: QueueOf(s'.peers[x].node, ph) == QueueOf(s.peers[x].node, ph))
      && (forall ph :: RoundOf(s'.peers[x], ph) == RoundOf(s.peers[x], ph))
  {
    hide AppendView;
  }

  lemma PullWork(cl: Cluster, es: set<Entry>, m: nat, s: Sys, l: Label, hist: Hist)
    requires Tame(cl, es, m, s, l, hist) && l.Pull?
    ensures Work(cl, es, m, Next(cl, Only(es), s, l)) <= Work(cl, es, m, s)
  {
    PullShape(cl, Only(es), s, l);
    assert l.at in s.peers;
    hide Next, Enabled, Work, Safe;
    SameNodeWork(cl, es, m, s, Next(cl, Only(es), s, l), l.at);
    SameBusy(s, Next(cl, Only(es), s, l), l.at);
  }

  lemma ExpireWork(cl: Cluster, es: set<Entry>, m: nat, s: Sys, l: Label, hist: Hist)
    requires Tame(cl, es, m, s, l, hist) && l.Expire?
    ensures Work(cl, es, m, Next(cl, Only(es), s, l)) < Work(cl, es, m, s)
  {
    var s', x := Next(cl, Only(es), s, l), l.at;
    var n, n' := s.peers[x].node, s'.peers[x].node;
    assert s'.peers == s.peers[x := s'.peers[x]] && s'.net == s.net && s'.peers[x] == s.peers[x].(node := n');
    assert n' == n.(ballots := n.ballots[l.id := Ballots.Expire(n.ballots[l.id])]) && !n.ballots[l.id].closed;
    assert PeerOk(cl, Only(es), x, s.peers[x], hist);
    assert BallotOk(cl, Only(es), x, l.id, n.ballots[l.id], hist);
    hide Next, Enabled, Safe, PeerOk, Work;
    ExpiredWork(cl, es, m, s, s', x, n.ballots[l.id].entry);
  }

  lemma ExpiredWork(cl: Cluster, es: set<Entry>, m: nat, s: Sys, s': Sys, x: Host, e: Entry)
    requires x in s.peers && x in s'.peers && s'.peers == s.peers[x := s'.peers[x]] && s'.net == s.net && e in es
    requires
      var n, n', id := s.peers[x].node, s'.peers[x].node, cl.h.hash(e);
      && s'.peers[x] == s.peers[x].(node := n') && x in cl.peers(e.key)
      && id in n.ballots && !n.ballots[id].closed && n' == n.(ballots := n.ballots[id := Ballots.Expire(n.ballots[id])])
    ensures Work(cl, es, m, s') < Work(cl, es, m, s)
  {
    ExpiredCounts(cl, es, s, s', x, e);
    hide Waiting, Queued, Unclosed, Busy, RequestsIn, RepliesIn;
  }

  lemma ExpiredCounts(cl: Cluster, es: set<Entry>, s: Sys, s': Sys, x: Host, e: Entry)
    requires x in s.peers && x in s'.peers && s'.peers == s.peers[x := s'.peers[x]] && s'.net == s.net && e in es
    requires
      var n, n', id := s.peers[x].node, s'.peers[x].node, cl.h.hash(e);
      && s'.peers[x] == s.peers[x].(node := n') && x in cl.peers(e.key)
      && id in n.ballots && !n.ballots[id].closed && n' == n.(ballots := n.ballots[id := Ballots.Expire(n.ballots[id])])
    ensures Queued(s') == Queued(s) && Busy(s') == Busy(s) && Waiting(cl, es, s') == Waiting(cl, es, s)
    ensures |Unclosed(cl, es, s')| < |Unclosed(cl, es, s)|
  {
    assert forall y, ph, id :: Entered(cl, s', y, ph, id) <==> Entered(cl, s, y, ph, id);
    FewerUnclosed(cl, es, s, s', x);
    assert (x, e) in Unclosed(cl, es, s) && (x, e) !in Unclosed(cl, es, s');
    SubsetSize(Unclosed(cl, es, s') + {(x, e)}, Unclosed(cl, es, s));
  }

  /** A started broadcast takes one request off the queue, and sends one message to every other peer. */
  lemma StartShape(cl: Cluster, u: iset<Entry>, s: Sys, l: Label, hist: Hist)
    requires ValidCluster(cl, u) && Safe(cl, u, s, hist) && l.Start? && Enabled(cl, u, s, l)
    ensures
      var x, s', q := l.at, Next(cl, u, s, l), QueueOf(s.peers[l.at].node, l.phase);
      && x in s'.peers && s'.peers == s.peers[x := s'.peers[x]] && q != [] && q[0].entry in u
      && s'.peers[x].node.ballots == s.peers[x].node.ballots
      && QueueOf(s'.peers[x].node, l.phase) == q[1..]
      && (forall ph :: ph != l.phase ==>
            QueueOf(s'.peers[x].node, ph) == QueueOf(s.peers[x].node, ph)
            && RoundOf(s'.peers[x], ph) == RoundOf(s.peers[x], ph))
      && x in cl.peers(q[0].entry.key)
      && exists no, self :: s'.net == s.net + Requests(l.phase, x, no, q[0].entry, cl.peers(q[0].entry.key), self)
  {
    var x, s', q := l.at, Next(cl, u, s, l), QueueOf(s.peers[l.at].node, l.phase);
    assert PeerOk(cl, u, x, s.peers[x], hist);
    assert ReqOk(cl, u, x, q[0]);
    SelfIs(cl, u, q[0].entry.key, x, q[0].opts.sourceIndex);
    var self := q[0].opts.sourceIndex;
    assert s'.net == s.net + Requests(l.phase, x, s.peers[x].rounds, q[0].entry, cl.peers(q[0].entry.key), self);
  }

  lemma {:induction false} ManyRequests(ys: set<Host>, phase: Phase, x: Host, no: nat, e: Entry, opts: Options)
    ensures |set y | y in ys :: Request(phase, x, y, no, e, opts)| <= |ys|
  {
    if ys != {} {
      var z :| z in ys;
      ManyRequests(ys - {z}, phase, x, no, e, opts);
      assert (set y | y in ys :: Request(phase, x, y, no, e, opts))
             == (set y | y in ys - {z} :: Request(phase, x, y, no, e, opts)) + {Request(phase, x, z, no, e, opts)};
    }
  }

  /** As many requests as there are other peers. */
  lemma RequestsSent(s: Sys, s': Sys, phase: Phase, x: Host, no: nat, e: Entry, peers: seq<Host>, self: nat)
    requires x in peers && s'.net == s.net + Requests(phase, x, no, e, peers, self)
    ensures |RequestsIn(s'.net)| <= |RequestsIn(s.net)| + |peers| - 1 && RepliesIn(s'.net) == RepliesIn(s.net)
  {
    var sent := Requests(phase, x, no, e, peers, self);
    ManyRequests(Others(peers, x), phase, x, no, e, Options(self, peers));
    HostSetSize(peers);
    assert HostSet(peers) == Others(peers, x) + {x};
    assert RequestsIn(s'.net) == RequestsIn(s.net) + sent;
    assert RepliesIn(s'.net) == RepliesIn(s.net);
  }

  lemma OneLessQueued(s: Sys, s': Sys, x: Host, phase: Phase)
    requires x in s.peers && x in s'.peers && s'.peers == s.peers[x := s'.peers[x]]
    requires |QueueOf(s.peers[x].node, phase)| == |QueueOf(s'.peers[x].node, phase)| + 1
    requires forall ph :: ph != phase ==> QueueOf(s'.peers[x].node, ph) == QueueOf(s.peers[x].node, ph)
    ensures |Queued(s')| == |Queued(s)| - 1
  {
    OneMoreQueued(s', s, x, phase);
  }

  lemma StartWork(cl: Cluster, es: set<Entry>, m: nat, s: Sys, l: Label, hist: Hist)
    requires Tame(cl, es, m, s, l, hist) && l.Start?
    ensures Work(cl, es, m, Next(cl, Only(es), s, l)) < Work(cl, es, m, s)
  {
    var x, s', q := l.at, Next(cl, Only(es), s, l), QueueOf(s.peers[l.at].node, l.phase);
    StartShape(cl, Only(es), s, l, hist);
    var no, self :| s'.net == s.net + Requests(l.phase, x, no, q[0].entry, cl.peers(q[0].entry.key), self);
    var e := q[0].entry;
    assert e in es && |cl.peers(e.key)| <= m;
    hide Next, Enabled, Safe;
    StartedWork(cl, es, m, s, s', x, l.phase, no, e, self);
  }

  lemma StartedWork(cl: Cluster, es: set<Entry>, m: nat, s: Sys, s': Sys, x: Host, phase: Phase, no: nat, e: Entry,
                    self: nat)
    requires x in s.peers && x in s'.peers && s'.peers == s.peers[x := s'.peers[x]]
    requires s'.peers[x].node.ballots == s.peers[x].node.ballots
    requires |QueueOf(s.peers[x].node, phase)| == |QueueOf(s'.peers[x].node, phase)| + 1
    requires forall ph :: ph != phase ==>
               QueueOf(s'.peers[x].node, ph) == QueueOf(s.peers[x].node, ph)
                 && RoundOf(s'.peers[x], ph) == RoundOf(s.peers[x], ph)
    requires x in cl.peers(e.key) && |cl.peers(e.key)| <= m
    requires s'.net == s.net + Requests(phase, x, no, e, cl.peers(e.key), self)
    ensures Work(cl, es, m, s') < Work(cl, es, m, s)
  {
    OneLessQueued(s, s', x, phase);
    RequestsSent(s, s', phase, x, no, e, cl.peers(e.key), self);
    OneMoreBusy(s, s', x, phase);
    assert forall y, ph, id :: Entered(cl, s', y, ph, id) <==> Entered(cl, s, y, ph, id);
    assert Waiting(cl, es, s') == Waiting(cl, es, s);
    assert forall y, e' :: HasClosed(cl, s', y, e') <==> HasClosed(cl, s, y, e');
    assert Unclosed(cl, es, s') == Unclosed(cl, es, s);
    var k, a := 2 * m, |Waiting(cl, es, s)| + |Queued(s)|;
    assert k * (a - 1) == k * a - k;
  }

  // ---- runs

  /** Steps that are neither requests by clients nor pulls. */
  predicate Spends(l: Label) {
    !l.ClientPropose? && !l.Pull?
  }

  /** Every such step lowers the work, and no step raises it. */
  lemma StepWork(cl: Cluster, es: set<Entry>, m: nat, s: Sys, l: Label, hist: Hist)
    requires Tame(cl, es, m, s, l, hist)
    ensures Work(cl, es, m, Next(cl, Only(es), s, l)) <= Work(cl, es, m, s) - if Spends(l) then 1 else 0
  {
    assert DropsNoBallot(l);
    hide Tame, Work, Next;
    match l
    case ClientPropose(_, _, _) => ClientWork(cl, es, m, s, l, hist);
    case Start(_, _) => StartWork(cl, es, m, s, l, hist);
    case Deliver(_) => DeliverWork(cl, es, m, s, l, hist);
    case Receive(_) => ReceiveWork(cl, es, m, s, l, hist);
    case Fail(_, _) => FailWork(cl, es, m, s, l, hist);
    case Lose(_) => LoseWork(cl, es, m, s, l, hist);
    case Expire(_, _) => ExpireWork(cl, es, m, s, l, hist);
    case Pull(_, _, _, _) => PullWork(cl, es, m, s, l, hist);
  }

  function Spent(labels: seq<Label>): nat
    decreases labels
  {
    if labels == [] then 0 else Spent(labels[..|labels| - 1]) + if Spends(labels[|labels| - 1]) then 1 else 0
  }

  /** All that clients propose is among `es`. */
  ghost predicate ClientsPropose(es: set<Entry>, labels: seq<Label>) {
    forall k :: 0 <= k < |labels| && labels[k].ClientPropose? ==> labels[k].entry in es
  }

  /** Only the proposed entries matter to a run. */
  lemma NarrowRun(cl: Cluster, u: iset<Entry>, es: set<Entry>, states: seq<Sys>, labels: seq<Label>)
    requires ValidCluster(cl, u) && Run(cl, u, states, labels) && ClientsPropose(es, labels) && Only(es) <= u
    ensures ValidCluster(cl, Only(es)) && Run(cl, Only(es), states, labels)
  {
    assert Sound(cl.h, Only(es));
    forall k | 0 <= k < |labels|
      ensures Enabled(cl, Only(es), states[k], labels[k]) && states[k + 1] == Next(cl, Only(es), states[k], labels[k])
    {
      NarrowStep(cl, u, Only(es), states[k], labels[k]);
    }
  }

  lemma NarrowStep(cl: Cluster, u: iset<Entry>, u': iset<Entry>, s: Sys, l: Label)
    requires Enabled(cl, u, s, l) && (l.ClientPropose? ==> l.entry in u')
    ensures Enabled(cl, u', s, l) && Next(cl, u', s, l) == Next(cl, u, s, l)
  {
  }

  lemma WorkInStep(cl: Cluster, es: set<Entry>, m: nat, states: seq<Sys>, labels: seq<Label>, k: nat)
    requires ValidCluster(cl, Only(es)) && Run(cl, Only(es), states, labels) && NothingDropped(labels)
    requires (forall e :: e in es ==> |cl.peers(e.key)| <= m) && k < |labels| == |states| - 1
    ensures Work(cl, es, m, states[k + 1]) <= Work(cl, es, m, states[k]) - if Spends(labels[k]) then 1 else 0
  {
    hide Run, ValidCluster, Next, Enabled, Safe, Work;
    RunIsSafe(cl, Only(es), states, labels, k);
    StepOfRun(cl, Only(es), states, labels, k);
    StepWork(cl, es, m, states[k], labels[k], HistoryOf(cl, states, k));
  }

  /** So does the work of a run bound the steps that are left in it, from any point on. */
  lemma {:induction false} WorkInRun(cl: Cluster, es: set<Entry>, m: nat, states: seq<Sys>, labels: seq<Label>, j: nat,
                                     k: nat)
    requires ValidCluster(cl, Only(es)) && Run(cl, Only(es), states, labels) && NothingDropped(labels)
    requires (forall e :: e in es ==> |cl.peers(e.key)| <= m) && j <= k < |states| == |labels| + 1
    ensures Work(cl, es, m, states[k]) + Spent(labels[j..k]) <= Work(cl, es, m, states[j])
    decreases k
  {
    hide *;
    if j == k {
      assert labels[j..k] == [];
      SpentNothing();
    } else {
      WorkInRun(cl, es, m, states, labels, j, k - 1);
      WorkInStep(cl, es, m, states, labels, k - 1);
      SpentOneMore(labels, j, k);
    }
  }

  lemma SpentNothing()
    ensures Spent([]) == 0
  {
  }

  lemma SpentOneMore(labels: seq<Label>, j: nat, k: nat)
    requires j < k <= |labels|
    ensures Spent(labels[j..k]) == Spent(labels[j..k - 1]) + if Spends(labels[k - 1]) then 1 else 0
  {
    assert labels[j..k][..k - 1 - j] == labels[j..k - 1];
  }

  // ---- the bound

  lemma {:induction false} PlacesAt(hosts: set<Host>, e: Entry)
    ensures |set x | x in hosts :: (x, e)| <= |hosts|
  {
    if hosts != {} {
      var y :| y in hosts;
      PlacesAt(hosts - {y}, e);
      assert (set x | x in hosts :: (x, e)) == (set x | x in hosts - {y} :: (x, e)) + {(y, e)};
    }
  }

  lemma {:induction false} PlacesSize(cl: Cluster, es: set<Entry>, m: nat)
    requires forall e :: e in es ==> |cl.peers(e.key)| <= m
    ensures |AllPlaces(cl, es)| <= |es| * m
  {
    if es != {} {
      var e :| e in es;
      hide AllPlaces;
      PlacesSize(cl, es - {e}, m);
      HostSetSize(cl.peers(e.key));
      PlacesAt(HostSet(cl.peers(e.key)), e);
      PlacesSplit(cl, es, e);
      assert |es| == |es - {e}| + 1;
      OneTimeMore(|es - {e}|, m);
    }
  }

  lemma OneTimeMore(n: nat, m: nat)
    ensures (n + 1) * m == n * m + m
  {
  }

  lemma PlacesSplit(cl: Cluster, es: set<Entry>, e: Entry)
    requires e in es
    ensures AllPlaces(cl, es) == AllPlaces(cl, es - {e}) + set x | x in HostSet(cl.peers(e.key)) :: (x, e)
  {
    forall x, e'
      ensures (x, e') in AllPlaces(cl, es)
              <==> (x, e') in AllPlaces(cl, es - {e}) + set y | y in HostSet(cl.peers(e.key)) :: (y, e)
    {
    }
  }

  function InPhases(places: set<(Host, Entry)>): set<(Host, Entry, Phase)> {
    set t, ph | t in places && ph in BothPhases() :: (t.0, t.1, ph)
  }

  lemma {:induction false} PhasesSize(places: set<(Host, Entry)>)
    ensures |InPhases(places)| <= 2 * |places|
  {
    if places != {} {
      var t :| t in places;
      PhasesSize(places - {t});
      PhasesSplit(places, t);
    }
  }

  lemma PhasesSplit(places: set<(Host, Entry)>, t: (Host, Entry))
    requires t in places
    ensures InPhases(places) == InPhases(places - {t}) + {(t.0, t.1, Proposing), (t.0, t.1, Committing)}
  {
    forall x, e, ph
      ensures (x, e, ph) in InPhases(places)
              <==> (x, e, ph) in InPhases(places - {t}) + {(t.0, t.1, Proposing), (t.0, t.1, Committing)}
    {
      assert (x, e, ph) in InPhases(places) <==> (x, e) in places && ph in BothPhases();
      assert (x, e, ph) in InPhases(places - {t}) <==> (x, e) in places - {t} && ph in BothPhases();
    }
  }

  lemma WaitingPlaces(cl: Cluster, es: set<Entry>, s: Sys)
    ensures Waiting(cl, es, s) <= InPhases(AllPlaces(cl, es))
  {
    forall t | t in Waiting(cl, es, s)
      ensures t in InPhases(AllPlaces(cl, es))
    {
      assert (t.0, t.1) in AllPlaces(cl, es);
      var p, ph := (t.0, t.1), t.2;
      assert p in AllPlaces(cl, es) && ph in BothPhases();
      assert t == (p.0, p.1, ph);
    }
  }

  /** No more votes can be missing, and no more ballots to be closed, than there are entries and peers. */
  lemma MostWork(cl: Cluster, es: set<Entry>, m: nat, s: Sys)
    requires forall e :: e in es ==> |cl.peers(e.key)| <= m
    requires Queued(s) == {} && Busy(s) == {} && s.net == {}
    ensures Work(cl, es, m, s) <= |es| * m * (4 * m + 1)
  {
    var most := |es| * m;
    PlacesSize(cl, es, m);
    PhasesSize(AllPlaces(cl, es));
    WaitingPlaces(cl, es, s);
    SubsetSize(Waiting(cl, es, s), InPhases(AllPlaces(cl, es)));
    SubsetSize(Unclosed(cl, es, s), AllPlaces(cl, es));
    assert RequestsIn(s.net) == {} && RepliesIn(s.net) == {};
    TimesMore(2 * m, |Waiting(cl, es, s)|, 2 * most);
    assert most * (4 * m + 1) == 2 * m * (2 * most) + most;
  }

  lemma InitWork(cl: Cluster, es: set<Entry>, m: nat, s: Sys)
    requires Init(cl, s) && forall e :: e in es ==> |cl.peers(e.key)| <= m
    ensures Work(cl, es, m, s) <= |es| * m * (4 * m + 1)
  {
    assert Queued(s) == {} && Busy(s) == {};
    hide Work, Init;
    MostWork(cl, es, m, s);
  }

  lemma WorkNotNegative(cl: Cluster, es: set<Entry>, m: nat, s: Sys)
    ensures Work(cl, es, m, s) >= 0
  {
    TimesMore(2 * m, 0, |Waiting(cl, es, s)| + |Queued(s)|);
  }

  /** Whatever is lost, rejected, pulled or times out, and however often the entries are proposed again: without
      restarts and reaping, a run in which clients propose the entries of `es`, with at most `m` peers each, takes at
      most `m (4m + 1)` steps per entry, not counting the clients' requests and the pulls. */
  lemma StepsAreBounded(cl: Cluster, u: iset<Entry>, es: set<Entry>, m: nat, states: seq<Sys>, labels: seq<Label>)
    requires ValidCluster(cl, u) && Run(cl, u, states, labels) && NothingDropped(labels)
    requires Only(es) <= u && ClientsPropose(es, labels)
    requires forall e :: e in es ==> |cl.peers(e.key)| <= m
    ensures Spent(labels) <= |es| * m * (4 * m + 1)
  {
    var k := |labels|;
    NarrowRun(cl, u, es, states, labels);
    assert Init(cl, states[0]);
    hide *;
    StepOfRun(cl, Only(es), states, labels, 0);
    WorkInRun(cl, es, m, states, labels, 0, k);
    InitWork(cl, es, m, states[0]);
    WorkNotNegative(cl, es, m, states[k]);
    assert labels[0..k] == labels;
  }

  // ---- no standstill

  /** Nothing is queued, being broadcast or under way, and all ballots are closed. */
  predicate Settled(s: Sys) {
    && s.net == {}
    && forall x :: x in s.peers ==>
         && (forall ph :: QueueOf(s.peers[x].node, ph) == [] && RoundOf(s.peers[x], ph).None?)
         && (forall id :: id in s.peers[x].node.ballots ==> s.peers[x].node.ballots[id].closed)
  }

  /** What nodes and their timers do by themselves. */
  predicate Protocol(l: Label) {
    l.Start? || l.Deliver? || l.Receive? || l.Fail? || l.Expire?
  }

  /** In every reachable state, whatever has happened before, nodes and timers can make a step until all is settled. */
  lemma NeverStuck(cl: Cluster, u: iset<Entry>, states: seq<Sys>, labels: seq<Label>, k: nat) returns (l: Label)
    requires ValidCluster(cl, u) && Run(cl, u, states, labels) && k < |states| && !Settled(states[k])
    ensures Protocol(l) && Enabled(cl, u, states[k], l)
  {
    var s := states[k];
    if m :| m in s.net {
      HandlersAreCallable(cl, u, states, labels, k);
      l := if m.Request? then Deliver(m) else Receive(m);
    } else {
      RunIsSafe(cl, u, states, labels, k);
      hide Run;
      l := StepWithoutMessages(cl, u, s, HistoryOf(cl, states, k));
    }
  }

  lemma TimersRun(cl: Cluster, u: iset<Entry>, s: Sys, hist: Hist, x: Host, id: Id)
    requires Safe(cl, u, s, hist) && x in s.peers && id in s.peers[x].node.ballots
    ensures s.peers[x].node.ballots[id].timer
  {
    assert PeerOk(cl, u, x, s.peers[x], hist);
    assert BallotOk(cl, u, x, id, s.peers[x].node.ballots[id], hist);
    CountBounds(s.peers[x].node.ballots[id].proposed);
  }

  lemma StepWithoutMessages(cl: Cluster, u: iset<Entry>, s: Sys, hist: Hist) returns (l: Label)
    requires Safe(cl, u, s, hist) && s.net == {} && !Settled(s)
    ensures Protocol(l) && Enabled(cl, u, s, l)
  {
    hide Safe;
    if x, ph :| x in s.peers && RoundOf(s.peers[x], ph).Some? {
      l := Fail(ph, x);
    } else if x, ph :| x in s.peers && QueueOf(s.peers[x].node, ph) != [] {
      l := Start(ph, x);
    } else {
      var x, id :| x in s.peers && id in s.peers[x].node.ballots && !s.peers[x].node.ballots[id].closed;
      TimersRun(cl, u, s, hist, x, id);
      l := Expire(x, id);
    }
  }

  lemma StepMore(cl: Cluster, u: iset<Entry>, states: seq<Sys>, labels: seq<Label>, l: Label)
    requires |states| == |labels| + 1 && Run(cl, u, states, labels) && Enabled(cl, u, states[|labels|], l)
    ensures Run(cl, u, states + [Next(cl, u, states[|labels|], l)], labels + [l])
  {
    hide Next, Enabled, Init;
  }

  lemma SettlingStep(cl: Cluster, es: set<Entry>, m: nat, states: seq<Sys>, labels: seq<Label>, l: Label)
    requires ValidCluster(cl, Only(es)) && |states| == |labels| + 1 && Run(cl, Only(es), states, labels)
    requires forall e :: e in es ==> |cl.peers(e.key)| <= m
    requires Protocol(l) && Enabled(cl, Only(es), states[|labels|], l)
    ensures
      var s, s' := states[|labels|], Next(cl, Only(es), states[|labels|], l);
      0 <= Work(cl, es, m, s') < Work(cl, es, m, s)
  {
    var k := |labels|;
    hide Run, ValidCluster, Next, Enabled, Safe, Work;
    RunIsSafe(cl, Only(es), states, labels, k);
    StepWork(cl, es, m, states[k], l, HistoryOf(cl, states, k));
    WorkNotNegative(cl, es, m, Next(cl, Only(es), states[k], l));
  }

  /** From every reachable state, whatever has happened before, nodes and timers alone can get all ballots closed and
      all messages handled. */
  lemma {:induction false} CanSettle(cl: Cluster, es: set<Entry>, m: nat, states: seq<Sys>, labels: seq<Label>)
    returns (states': seq<Sys>, labels': seq<Label>)
    requires ValidCluster(cl, Only(es)) && |states| == |labels| + 1 && Run(cl, Only(es), states, labels)
    requires forall e :: e in es ==> |cl.peers(e.key)| <= m
    ensures |states'| == |labels'| + 1 && Run(cl, Only(es), states', labels') && states <= states' && labels <= labels'
    ensures forall i :: |labels| <= i < |labels'| ==> Protocol(labels'[i])
    ensures Settled(states'[|labels'|])
    decreases Work(cl, es, m, states[|labels|])
  {
    var u, k := Only(es), |labels|;
    hide *;
    if Settled(states[k]) {
      states', labels' := states, labels;
    } else {
      var l := NeverStuck(cl, u, states, labels, k);
      var s' := Next(cl, u, states[k], l);
      StepMore(cl, u, states, labels, l);
      SettlingStep(cl, es, m, states, labels, l);
      states', labels' := CanSettle(cl, es, m, states + [s'], labels + [l]);
    }
  }
}
