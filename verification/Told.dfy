/** What those who wait on a ballot are told, over all runs (ballot.go). */
module ToldInRuns {
  import opened HexTypes
  import opened Chains
  import opened StoreSpec
  import opened Ballots
  import opened Nodes
  import opened Clusters
  import opened NodeSafety
  import opened Divergence
  import LogsInRuns

  /** Nothing is said while a ballot is open. Then one thing is said: the error recorded, or, with none recorded, that
      time has run out. Success is said only of an entry that is in the log. */
  ghost predicate BallotTold(v: View, b: BallotState) {
    && (!b.closed ==> b.signals == [] && b.err.None?)
    && (b.closed ==> b.signals == [b.err] || (b.err.None? && b.signals == [Some(ErrBallotTimedOut)]))
    && (b.signals == [None] ==> b.entry in LogOf(v, b.entry.key))
  }

  ghost predicate Told(n: Node) {
    forall id :: id in n.ballots ==> BallotTold(n.store, n.ballots[id])
  }

  /** Nothing leaves a log. */
  ghost predicate Longer(v: View, v': View) {
    forall k, e :: e in LogOf(v, k) ==> e in LogOf(v', k)
  }

  /** A closed ballot stays as it is. */
  ghost predicate Final(n: Node, n': Node) {
    forall id :: id in n.ballots && n.ballots[id].closed && id in n'.ballots ==> n'.ballots[id] == n.ballots[id]
  }

  /** What handlers keep. */
  ghost predicate Tells(n: Node, n': Node) {
    Told(n') && Final(n, n') && n.ballots.Keys <= n'.ballots.Keys
  }

  lemma TellsTwice(n: Node, n1: Node, n2: Node)
    requires Tells(n, n1) && Tells(n1, n2)
    ensures Tells(n, n2)
  {
  }

  lemma LongerTold(n: Node, n': Node)
    requires Told(n) && n'.ballots == n.ballots && Longer(n.store, n'.store)
    ensures Tells(n, n')
  {
  }

  /** One ballot changes, as an open one may. */
  lemma OneTold(n: Node, n': Node, id: Id)
    requires Told(n) && Longer(n.store, n'.store)
    requires id in n'.ballots && n'.ballots == n.ballots[id := n'.ballots[id]] && BallotTold(n'.store, n'.ballots[id])
    requires id in n.ballots && n.ballots[id].closed ==> n'.ballots[id] == n.ballots[id]
    ensures Tells(n, n')
  {
    forall j | j in n'.ballots
      ensures BallotTold(n'.store, n'.ballots[j])
    {
      if j != id {
        assert BallotTold(n.store, n.ballots[j]);
      }
    }
  }

  lemma CloseTells(n: Node, id: Id, err: Error)
    requires Told(n)
    ensures Tells(n, CloseBallot(n, id, Some(err)))
  {
    if id in n.ballots {
      assert BallotTold(n.store, n.ballots[id]);
      OneTold(n, CloseBallot(n, id, Some(err)), id);
    }
  }

  lemma AppendLonger(h: Hashing, v: View, e: Entry)
    ensures Longer(v, AppendView(h, v, e).0)
    ensures AppendView(h, v, e).1.None? ==> e in LogOf(AppendView(h, v, e).0, e.key)
  {
  }

  /** Success is said only after the append. */
  lemma CheckTells(h: Hashing, n: Node, id: Id)
    requires Told(n) && id in n.ballots
    ensures Tells(n, CheckVotesAndCommit(h, n, id))
  {
    var b := n.ballots[id];
    AppendLonger(h, n.store, b.entry);
    assert BallotTold(n.store, b);
    var n' := CheckVotesAndCommit(h, n, id);
    if CountVotes(b.proposed) == CountVotes(b.committed) {
      var err := AppendView(h, n.store, b.entry).1;
      assert n'.ballots == n.ballots[id := CloseWith(b, err)];
      hide AppendView, LogOf, CheckVotesAndCommit;
      OneTold(n, n', id);
    }
  }

  lemma QueuedTells(n: Node, n': Node)
    requires Told(n) && n'.ballots == n.ballots && forall k :: LogOf(n'.store, k) == LogOf(n.store, k)
    ensures Tells(n, n')
  {
    LongerTold(n, n');
  }

  /** A vote changes a tally, of an open ballot. */
  lemma VoteTells(n: Node, id: Id, b: BallotState)
    requires Told(n) && id in n.ballots
    requires
      var b0 := n.ballots[id];
      && b.entry == b0.entry && b.closed == b0.closed && b.err == b0.err && b.signals == b0.signals
      && (b0.closed ==> b == b0)
    ensures Tells(n, n.(ballots := n.ballots[id := b]))
  {
    assert BallotTold(n.store, n.ballots[id]);
    OneTold(n, n.(ballots := n.ballots[id := b]), id);
  }

  lemma TakeProposalTells(c: Conf, n: Node, e: Entry, peers: seq<Host>, self: nat, source: nat, prevHeight: nat)
    requires c.h.hash(e) in n.ballots && source < |peers| && Told(n)
    requires Refusal(n.ballots[c.h.hash(e)], c.h.hash(e)).None? ==> source < |n.ballots[c.h.hash(e)].proposed|
    ensures Tells(n, TakeProposal(c, n, e, peers, self, source, prevHeight).0)
  {
    var id := c.h.hash(e);
    var (b, v) := CastPropose(n.ballots[id], id, peers[source], source);
    var n1, n' := n.(ballots := n.ballots[id := b]), TakeProposal(c, n, e, peers, self, source, prevHeight).0;
    VoteTells(n, id, b);
    if v.err.None? && v.votes == 1 {
      QueuedTells(n1, n');
    } else if v.err.None? && v.votes == |peers| {
      CheckTells(c.h, n1, id);
    }
    hide TakeProposal, Tells, CheckVotesAndCommit, CastPropose;
    if n' != n1 {
      TellsTwice(n, n1, n');
    }
  }

  lemma OpenTells(c: Conf, n: Node, e: Entry, peers: seq<Host>, self: nat, source: nat, prevHeight: nat)
    requires self < |peers| && Told(n)
    ensures Tells(n, OpenBallot(c, n, e, peers, self, source, prevHeight))
  {
    var id, n' := c.h.hash(e), OpenBallot(c, n, e, peers, self, source, prevHeight);
    if id !in n.ballots {
      OneTold(n, n', id);
    }
  }

  lemma ProposeTells(c: Conf, n: Node, e: Entry, opts: Options)
    requires Proposable(c, n, e, opts) && Told(n)
    ensures Tells(n, Propose(c, n, e, opts).0)
  {
    if EnoughPeers(c, opts.peers) && SelfIndex(opts.peers, c.host).Some? {
      var self := SelfIndex(opts.peers, c.host).value;
      var source: nat := if opts.sourceIndex < 0 then self else opts.sourceIndex;
      var (prevHeight, err) := Verify(c.h, n.store, e);
      if err.Some? {
        CloseTells(n, c.h.hash(e), err.value);
      } else {
        var n1 := OpenBallot(c, n, e, opts.peers, self, source, prevHeight);
        OpenTells(c, n, e, opts.peers, self, source, prevHeight);
        OpenedFits(c, n, e, opts.peers, self, source, prevHeight);
        assert Told(n1);
        hide Tells, TakeProposal, OpenBallot, CloseBallot;
        TakeProposalTells(c, n1, e, opts.peers, self, source, prevHeight);
        TellsTwice(n, n1, TakeProposal(c, n1, e, opts.peers, self, source, prevHeight).0);
      }
    }
  }

  lemma TakeCommitTells(c: Conf, n: Node, id: Id, peers: seq<Host>, self: nat, i: nat)
    requires id in n.ballots && i < |peers| && (Refusal(n.ballots[id], id).None? ==> i < |n.ballots[id].committed|)
    requires Told(n)
    ensures Tells(n, TakeCommit(c, n, id, peers, self, i).0)
  {
    var (b, v) := CastCommit(n.ballots[id], id, peers[i], i);
    var n1, n' := n.(ballots := n.ballots[id := b]), TakeCommit(c, n, id, peers, self, i).0;
    VoteTells(n, id, b);
    if v.err.None? && v.voted {
      if v.votes == 1 {
        QueuedTells(n1, n');
      } else if v.votes == |peers| {
        CheckTells(c.h, n1, id);
      }
    }
    hide TakeCommit, Tells, CheckVotesAndCommit, CastCommit;
    if n' != n1 {
      TellsTwice(n, n1, n');
    }
  }

  lemma CommitTells(c: Conf, n: Node, e: Entry, opts: Options)
    requires Committable(c, n, e, opts) && Told(n)
    ensures Tells(n, Commit(c, n, e, opts).0)
  {
    var id := c.h.hash(e);
    if EnoughPeers(c, opts.peers) && SelfIndex(opts.peers, c.host).Some? && id in n.ballots {
      var self := SelfIndex(opts.peers, c.host).value;
      TakeCommitTells(c, n, id, opts.peers, self, self);
      var (n1, err) := TakeCommit(c, n, id, opts.peers, self, self);
      TakeCommitKeepsBallots(c, n, id, opts.peers, self, self);
      if self != opts.sourceIndex && err.None? {
        TakeCommitTells(c, n1, id, opts.peers, self, opts.sourceIndex);
        TellsTwice(n, n1, TakeCommit(c, n1, id, opts.peers, self, opts.sourceIndex).0);
      }
      hide TakeCommit, Tells;
    }
  }

  lemma HandleTells(cl: Cluster, x: Host, n: Node, phase: Phase, e: Entry, opts: Options)
    requires CanHandle(cl, x, n, phase, e, opts) && Told(n)
    ensures Tells(n, Handle(cl, x, n, phase, e, opts).0)
  {
    if phase.Proposing? {
      ProposeTells(ConfOf(cl, x), n, e, opts);
    } else {
      CommitTells(ConfOf(cl, x), n, e, opts);
    }
    hide Propose, Commit, Tells;
  }

  lemma EndRoundTells(cl: Cluster, x: Host, p: Peer, phase: Phase, err: Option<Error>)
    requires CanEnd(cl, x, p, phase, err) && Told(p.node)
    ensures Tells(p.node, EndRound(cl, x, p, phase, err).node)
  {
    var req := RoundOf(p, phase).value.req;
    var id := cl.h.hash(req.entry);
    if err.Some? {
      CloseTells(p.node, id, err.value);
    } else if phase.Proposing? {
      var (n, err') := Handle(cl, x, p.node, Committing, req.entry, req.opts);
      HandleTells(cl, x, p.node, Committing, req.entry, req.opts);
      if err'.Some? {
        CloseTells(n, id, err'.value);
        TellsTwice(p.node, n, CloseBallot(n, id, err'));
      }
      hide Handle, Tells, CloseBallot;
    }
  }

  /** The step of the node that acts. */
  lemma StepTells(cl: Cluster, u: iset<Entry>, s: Sys, l: Label)
    requires Enabled(cl, u, s, l) && Actor(l).Some? && Told(s.peers[Actor(l).value].node)
    ensures
      var s', x := Next(cl, u, s, l), Actor(l).value;
      && x in s.peers && x in s'.peers && s'.peers == s.peers[x := s'.peers[x]]
      && Told(s'.peers[x].node) && Final(s.peers[x].node, s'.peers[x].node)
      && (!l.ReapBallots? && !l.Crash? ==> s.peers[x].node.ballots.Keys <= s'.peers[x].node.ballots.Keys)
  {
    var x := Actor(l).value;
    var n := s.peers[x].node;
    hide Told, Final;
    match l
    case ClientPropose(at, e, source) =>
      HandleTells(cl, at, n, Proposing, e, OptsOf(cl, e, source));
      hide Handle;
    case Start(phase, at) =>
      StartTells(cl, s.peers[at], phase, at);
      hide StartRound;
    case Deliver(m) =>
      HandleTells(cl, m.to, n, m.phase, m.entry, m.opts);
      hide Handle;
    case Receive(m) =>
      if Awaited(s.peers[m.to], m) && Ends(s.peers[m.to], m) {
        EndRoundTells(cl, m.to, s.peers[m.to], m.phase, m.err);
      } else {
        SameTells(n);
      }
      hide EndRound;
    case Fail(phase, at) =>
      EndRoundTells(cl, at, s.peers[at], phase, Some(ErrTransport));
      hide EndRound;
    case Expire(at, id) =>
      ExpireTells(n, id);
    case ReapBallots(at) =>
      ReapTells(n);
    case Crash(at) =>
      DroppedTells(n, Next(cl, u, s, l).peers[at].node);
    case Pull(at, other, k, i) =>
      PullTells(cl.h, n, k, LogAt(s, other, k)[i]);
      hide AppendDirect;
  }

  lemma SameTells(n: Node)
    requires Told(n)
    ensures Tells(n, n)
  {
  }

  lemma StartTells(cl: Cluster, p: Peer, phase: Phase, x: Host)
    requires QueueOf(p.node, phase) != [] && Told(p.node)
    ensures Tells(p.node, StartRound(cl, p, phase, x).0.node)
  {
    var req := QueueOf(p.node, phase)[0];
    var n := if phase.Proposing? then p.node.(pch := p.node.pch[1..]) else p.node.(cch := p.node.cch[1..]);
    QueuedTells(p.node, n);
    if SelfIndex(req.opts.peers, x).None? {
      CloseTells(n, cl.h.hash(req.entry), ErrNotInPeerSet);
      TellsTwice(p.node, n, CloseBallot(n, cl.h.hash(req.entry), Some(ErrNotInPeerSet)));
    }
    hide Tells, CloseBallot;
  }

  lemma ExpireTells(n: Node, id: Id)
    requires Told(n) && id in n.ballots && !n.ballots[id].closed
    ensures Tells(n, n.(ballots := n.ballots[id := Ballots.Expire(n.ballots[id])]))
  {
    assert BallotTold(n.store, n.ballots[id]);
    assert Ballots.Expire(n.ballots[id]).signals == [Some(ErrBallotTimedOut)];
    OneTold(n, n.(ballots := n.ballots[id := Ballots.Expire(n.ballots[id])]), id);
  }

  lemma ReapTells(n: Node)
    requires Told(n)
    ensures Told(Reap(n)) && Final(n, Reap(n))
  {
  }

  lemma DroppedTells(n: Node, n': Node)
    requires n'.ballots == map[]
    ensures Told(n') && Final(n, n')
  {
  }

  lemma PullTells(h: Hashing, n: Node, k: Key, e: Entry)
    requires Told(n)
    ensures Tells(n, AppendDirect(h, n.(store := UpsertKey(n.store, k)), e).0)
  {
    var n1 := n.(store := UpsertKey(n.store, k));
    AppendLonger(h, n1.store, e);
    assert forall k' :: LogOf(n1.store, k') == LogOf(n.store, k');
    hide LogOf, AppendView, UpsertKey;
    LongerTold(n, AppendDirect(h, n1, e).0);
  }

  lemma {:induction false} RunTold(cl: Cluster, u: iset<Entry>, states: seq<Sys>, labels: seq<Label>, k: nat)
    requires Run(cl, u, states, labels) && k < |states|
    ensures forall x :: x in states[k].peers ==> Told(states[k].peers[x].node)
  {
    if k > 0 {
      RunTold(cl, u, states, labels, k - 1);
      hide Told, Final, Next;
      var s, l := states[k - 1], labels[k - 1];
      assert Enabled(cl, u, s, l) && states[k] == Next(cl, u, s, l);
      if l.Lose? {
        LoseShape(cl, u, s, l);
      } else {
        assert Actor(l).value in s.peers;
        StepTells(cl, u, s, l);
      }
      hide Enabled;
    }
  }

  /** In every reachable state, a ballot that has told those who wait on it of success has its entry in the node's log,
      then and ever after. An open one has said nothing yet, and a closed one has said exactly one thing: the error it
      has recorded, if any, and else success or that time has run out. */
  lemma SuccessMeansLogged(cl: Cluster, u: iset<Entry>, states: seq<Sys>, labels: seq<Label>, k: nat, x: Host, id: Id,
                           j: nat)
    requires ValidCluster(cl, u) && Run(cl, u, states, labels) && k <= j < |states|
    requires x in states[k].peers && id in states[k].peers[x].node.ballots
    ensures x in states[j].peers
    ensures
      var b := states[k].peers[x].node.ballots[id];
      && cl.h.hash(b.entry) == id
      && (!b.closed ==> b.signals == [] && b.err.None?)
      && (b.closed ==> b.signals == [b.err] || (b.err.None? && b.signals == [Some(ErrBallotTimedOut)]))
      && (b.signals == [None] ==> b.entry in LogAt(states[j], x, b.entry.key))
  {
    RunTold(cl, u, states, labels, k);
    RunIsSafe(cl, u, states, labels, k);
    var b, hist := states[k].peers[x].node.ballots[id], HistoryOf(cl, states, k);
    assert PeerOk(cl, u, x, states[k].peers[x], hist) && BallotOk(cl, u, x, id, b, hist);
    assert BallotTold(states[k].peers[x].node.store, b);
    hide Run, ValidCluster, Safe;
    LogsInRuns.LogsGrow(cl, u, states, labels, k, j, x, b.entry.key);
  }

  /** What a ballot answers to any vote once it is closed. */
  ghost predicate Turned(b: BallotState, err: Error)
    requires b.closed
  {
    && (forall voter, i :: CastPropose(b, b.id, voter, i) == (b, Vote(-1, false, Some(err))))
    && (forall voter, i :: CastCommit(b, b.id, voter, i) == (b, Vote(-1, false, Some(err))))
  }

  lemma LateVotes(b: BallotState)
    requires b.closed
    ensures Turned(b, if b.err.Some? then b.err.value else ErrBallotClosed)
  {
  }

  /** When the timer of a ballot fires, the ballot is closed and has recorded no error; those who wait on it are told
      that time has run out, and nothing else, and every later vote is answered that the ballot is closed. The votes are
      kept, and nothing else changes. */
  lemma TimedOut(cl: Cluster, u: iset<Entry>, states: seq<Sys>, labels: seq<Label>, k: nat)
    requires Run(cl, u, states, labels) && k < |labels| && labels[k].Expire?
    ensures
      var x, id, s, s' := labels[k].at, labels[k].id, states[k], states[k + 1];
      && x in s.peers && x in s'.peers && id in s.peers[x].node.ballots && id in s'.peers[x].node.ballots
      && var b, b' := s.peers[x].node.ballots[id], s'.peers[x].node.ballots[id];
      && !b.closed && b.timer
      && b'.closed && b'.err.None? && b'.signals == [Some(ErrBallotTimedOut)]
      && b' == b.(closed := true, signals := b'.signals)
      && s' == SetNode(s, x, s.peers[x].node.(ballots := s.peers[x].node.ballots[id := b']))
      && Turned(b', ErrBallotClosed)
  {
    RunTold(cl, u, states, labels, k);
    var x, id := labels[k].at, labels[k].id;
    assert Enabled(cl, u, states[k], labels[k]) && states[k + 1] == Next(cl, u, states[k], labels[k]);
    assert BallotTold(states[k].peers[x].node.store, states[k].peers[x].node.ballots[id]);
    LateVotes(states[k + 1].peers[x].node.ballots[id]);
    hide Run;
  }

  /** A ballot is dropped by a crash of its node, and else just when it is closed and ballots are reaped. */
  lemma DroppedWhenClosed(cl: Cluster, u: iset<Entry>, states: seq<Sys>, labels: seq<Label>, k: nat, x: Host, id: Id)
    requires Run(cl, u, states, labels) && k < |labels| && x in states[k].peers
    requires id in states[k].peers[x].node.ballots
    ensures x in states[k + 1].peers
    ensures
      id !in states[k + 1].peers[x].node.ballots
      <==> labels[k] == Crash(x) || (labels[k] == ReapBallots(x) && states[k].peers[x].node.ballots[id].closed)
  {
    RunTold(cl, u, states, labels, k);
    var s, l := states[k], labels[k];
    assert Enabled(cl, u, s, l) && states[k + 1] == Next(cl, u, s, l);
    hide Run;
    if l.Lose? {
      LoseShape(cl, u, s, l);
    } else if !l.ReapBallots? && !l.Crash? {
      StepTells(cl, u, s, l);
      hide Next, Enabled, Told;
    }
  }

  /** A closed ballot never changes again, until it is reaped or its node crashes. */
  lemma ClosedIsFinal(cl: Cluster, u: iset<Entry>, states: seq<Sys>, labels: seq<Label>, k: nat, x: Host, id: Id)
    requires Run(cl, u, states, labels) && k < |labels| && x in states[k].peers
    requires id in states[k].peers[x].node.ballots && states[k].peers[x].node.ballots[id].closed
    ensures x in states[k + 1].peers
    ensures
      var n, n' := states[k].peers[x].node, states[k + 1].peers[x].node;
      if id in n'.ballots then n'.ballots[id] == n.ballots[id] else labels[k] in {ReapBallots(x), Crash(x)}
  {
    RunTold(cl, u, states, labels, k);
    var s, l := states[k], labels[k];
    assert Enabled(cl, u, s, l) && states[k + 1] == Next(cl, u, s, l);
    if l.Lose? {
      LoseShape(cl, u, s, l);
    } else {
      StepTells(cl, u, s, l);
    }
    hide Run, Next, Enabled, Told;
  }
}
