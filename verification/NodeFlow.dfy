/** One node's part in the failure-free flow of an entry: what each vote does to its ballot and queues. */
module NodeFlow {
  import opened HexTypes
  import opened Chains
  import opened StoreSpec
  import opened Ballots
  import opened Nodes
  import opened Clusters
  import opened NodeSafety

  /** Entry `e` comes next after `log`, and its peer set satisfies the configured minimum. */
  ghost predicate Setting(cl: Cluster, u: iset<Entry>, e: Entry, log: seq<Entry>) {
    && ValidCluster(cl, u) && e in u && Chain(cl.h, u, e.key, log) && e.previous == LastId(cl.h, log)
    && |cl.peers(e.key)| >= cl.votes
  }

  function TallyOf(b: BallotState, phase: Phase): seq<Host> {
    if phase.Proposing? then b.proposed else b.committed
  }

  /** The node has the vote of peer number `i`. */
  predicate Has(cl: Cluster, e: Entry, n: Node, phase: Phase, i: nat) {
    var id := cl.h.hash(e);
    id in n.ballots && i < |TallyOf(n.ballots[id], phase)| && TallyOf(n.ballots[id], phase)[i] != ""
  }

  ghost predicate BallotFlows(cl: Cluster, e: Entry, x: Host, b: BallotState) {
    var ps := cl.peers(e.key);
    && b.id == cl.h.hash(e) && b.entry == e && Sane(b) && |b.proposed| == |b.committed| == |ps|
    && OwnFirst(ps, x, b)
    && (b.closed <==> Full(b.proposed) && Full(b.committed))
    && (b.closed ==> b.err.None? && b.signals == [None])
  }

  /** The node's log ends before the entry until its ballot is complete, and with the entry from then on. */
  ghost predicate NodeFlows(cl: Cluster, e: Entry, log: seq<Entry>, x: Host, n: Node) {
    var id := cl.h.hash(e);
    && (e.key in n.store ==> n.store[e.key].marker.None?)
    && (id !in n.ballots ==> LogOf(n.store, e.key) == log)
    && (id in n.ballots ==>
          && BallotFlows(cl, e, x, n.ballots[id]) && e.key in n.store
          && LogOf(n.store, e.key) == if n.ballots[id].closed then log + [e] else log)
  }

  function OwnReq(cl: Cluster, e: Entry, self: nat): Req {
    Req(e, Options(self, cl.peers(e.key)))
  }

  /** The node, number `self`, has taken the vote of peer `i` in `phase`, after its own one, which it has queued for
      broadcast if it was new. */
  ghost predicate Took(cl: Cluster, e: Entry, n: Node, n': Node, phase: Phase, self: nat, i: nat) {
    && (forall j, ph :: 0 <= j < |cl.peers(e.key)| ==>
          (Has(cl, e, n', ph, j) <==> Has(cl, e, n, ph, j) || (ph == phase && (j == i || j == self))
                                      || (ph.Proposing? && j == self && cl.h.hash(e) in n'.ballots)))
    && QueueOf(n', phase) == QueueOf(n, phase) + (if Has(cl, e, n, phase, self) then [] else [OwnReq(cl, e, self)])
    && (phase.Proposing? ==> n'.cch == n.cch) && (phase.Committing? ==> n'.pch == n.pch)
  }

  /** The check after a vote that made one tally full: it appends and closes the ballot if the other is full too. */
  lemma CheckFlows(cl: Cluster, u: iset<Entry>, e: Entry, log: seq<Entry>, x: Host, n: Node, b: BallotState)
    requires Setting(cl, u, e, log) && n.ballots[cl.h.hash(e) := b] == n.ballots && cl.h.hash(e) in n.ballots
    requires b.id == cl.h.hash(e) && b.entry == e && Sane(b) && |b.proposed| == |b.committed| == |cl.peers(e.key)|
    requires OwnFirst(cl.peers(e.key), x, b) && !b.closed && b.signals == [] && (Full(b.proposed) || Full(b.committed))
    requires e.key in n.store && n.store[e.key] == Keyed(log, None)
    ensures
      var n' := CheckVotesAndCommit(cl.h, n, cl.h.hash(e));
      && NodeFlows(cl, e, log, x, n') && cl.h.hash(e) in n'.ballots
      && n'.pch == n.pch && n'.cch == n.cch
      && n'.ballots[cl.h.hash(e)].proposed == b.proposed && n'.ballots[cl.h.hash(e)].committed == b.committed
  {
    CountBounds(b.proposed);
    CountBounds(b.committed);
  }

  /** A new vote of peer `i` on the ballot, before any check. */
  lemma ProposalEntered(cl: Cluster, u: iset<Entry>, e: Entry, log: seq<Entry>, x: Host, n: Node, i: nat)
    requires Setting(cl, u, e, log) && NodeFlows(cl, e, log, x, n) && cl.h.hash(e) in n.ballots
    requires i < |cl.peers(e.key)| && !Has(cl, e, n, Proposing, i)
    ensures
      var id := cl.h.hash(e);
      var (b', v) := CastPropose(n.ballots[id], id, cl.peers(e.key)[i], i);
      && v.err.None? && v.voted && v.votes == CountVotes(b'.proposed) && v.votes != 1
      && !b'.closed && b'.signals == [] && Sane(b') && OwnFirst(cl.peers(e.key), x, b')
      && b' == n.ballots[id].(proposed := b'.proposed)
      && |b'.proposed| == |cl.peers(e.key)|
      && (forall j :: 0 <= j < |b'.proposed| ==> (b'.proposed[j] != "" <==> n.ballots[id].proposed[j] != "" || j == i))
      && n.store[e.key] == Keyed(log, None)
  {
    var id, ps := cl.h.hash(e), cl.peers(e.key);
    var b := n.ballots[id];
    assert PeersOk(cl.hosts, ps);
    CountBounds(b.proposed);
    VoteProposeCounts(b, id, ps[i], i);
  }

  lemma ProposalFlows(cl: Cluster, u: iset<Entry>, e: Entry, log: seq<Entry>, x: Host, self: nat, n: Node, i: nat,
                      prevHeight: nat)
    requires Setting(cl, u, e, log) && NodeFlows(cl, e, log, x, n) && cl.h.hash(e) in n.ballots
    requires self < |cl.peers(e.key)| && cl.peers(e.key)[self] == x
    requires i < |cl.peers(e.key)| && !Has(cl, e, n, Proposing, i)
    ensures
      var (n', err) := TakeProposal(ConfOf(cl, x), n, e, cl.peers(e.key), self, i, prevHeight);
      && err.None? && NodeFlows(cl, e, log, x, n') && Took(cl, e, n, n', Proposing, self, i)
  {
    var id, ps := cl.h.hash(e), cl.peers(e.key);
    ProposalEntered(cl, u, e, log, x, n, i);
    var (b', v) := CastPropose(n.ballots[id], id, ps[i], i);
    var n1 := n.(ballots := n.ballots[id := b']);
    var n' := TakeProposal(ConfOf(cl, x), n, e, ps, self, i, prevHeight).0;
    assert n' == (if v.votes == |ps| then CheckVotesAndCommit(cl.h, n1, id) else n1);
    assert |n.ballots[id].proposed| == |n.ballots[id].committed| == |ps| && n.ballots[id].proposed[self] != "";
    assert b'.id == id && b'.entry == e && !b'.closed;
    hide TakeProposal, CastPropose;
    if v.votes == |ps| {
      assert n1.ballots[id := b'] == n1.ballots;
      CheckFlows(cl, u, e, log, x, n1, b');
    } else {
      VotedFlows(cl, e, log, x, n, n', b');
    }
    hide CheckVotesAndCommit, NodeFlows;
    TookOnBallot(cl, e, n, n', Proposing, self, i);
  }

  lemma CommitmentEntered(cl: Cluster, u: iset<Entry>, e: Entry, log: seq<Entry>, x: Host, self: nat, n: Node, i: nat)
    requires Setting(cl, u, e, log) && NodeFlows(cl, e, log, x, n) && cl.h.hash(e) in n.ballots
    requires self < |cl.peers(e.key)| && cl.peers(e.key)[self] == x
    requires i < |cl.peers(e.key)| && !Has(cl, e, n, Committing, i) && (i == self || Has(cl, e, n, Committing, self))
    ensures
      var id := cl.h.hash(e);
      var (b', v) := CastCommit(n.ballots[id], id, cl.peers(e.key)[i], i);
      && v.err.None? && v.voted && v.votes == CountVotes(b'.committed)
      && (v.votes == 1 <==> !Has(cl, e, n, Committing, self))
      && !b'.closed && b'.signals == [] && Sane(b') && OwnFirst(cl.peers(e.key), x, b')
      && b' == n.ballots[id].(committed := b'.committed)
      && |b'.committed| == |cl.peers(e.key)|
      && (forall j :: 0 <= j < |b'.committed| ==>
           (b'.committed[j] != "" <==> n.ballots[id].committed[j] != "" || j == i))
      && n.store[e.key] == Keyed(log, None)
  {
    var id, ps := cl.h.hash(e), cl.peers(e.key);
    var b := n.ballots[id];
    assert PeersOk(cl.hosts, ps);
    CountBounds(b.committed);
    VoteCommitCounts(b, id, ps[i], i);
  }

  /** A ballot with one more vote, not complete. */
  lemma VotedFlows(cl: Cluster, e: Entry, log: seq<Entry>, x: Host, n: Node, n': Node, b': BallotState)
    requires NodeFlows(cl, e, log, x, n) && cl.h.hash(e) in n.ballots
    requires n'.store == n.store && n'.ballots == n.ballots[cl.h.hash(e) := b'] && n.store[e.key] == Keyed(log, None)
    requires b' == n.ballots[cl.h.hash(e)].(proposed := b'.proposed, committed := b'.committed)
    requires Sane(b') && |b'.proposed| == |b'.committed| == |cl.peers(e.key)| && OwnFirst(cl.peers(e.key), x, b')
    requires !b'.closed && !(Full(b'.proposed) && Full(b'.committed))
    ensures NodeFlows(cl, e, log, x, n')
  {
  }

  /** Reading `Took` off the ballots. */
  lemma TookOnBallot(cl: Cluster, e: Entry, n: Node, n': Node, phase: Phase, self: nat, i: nat)
    requires cl.h.hash(e) in n.ballots && cl.h.hash(e) in n'.ballots && self < |cl.peers(e.key)|
             && i < |cl.peers(e.key)|
    requires
      var b, b' := n.ballots[cl.h.hash(e)], n'.ballots[cl.h.hash(e)];
      && (forall ph :: |TallyOf(b, ph)| == |TallyOf(b', ph)| == |cl.peers(e.key)|)
      && (forall ph :: ph != phase ==> TallyOf(b', ph) == TallyOf(b, ph))
      && (forall j :: 0 <= j < |cl.peers(e.key)| ==>
            (TallyOf(b', phase)[j] != "" <==> TallyOf(b, phase)[j] != "" || j == i))
      && TallyOf(b, Proposing)[self] != "" && (TallyOf(b, phase)[self] != "" || i == self)
    requires QueueOf(n', phase) == QueueOf(n, phase)
             + (if Has(cl, e, n, phase, self) then [] else [OwnReq(cl, e, self)])
    requires (phase.Proposing? ==> n'.cch == n.cch) && (phase.Committing? ==> n'.pch == n.pch)
    ensures Took(cl, e, n, n', phase, self, i)
  {
  }

  lemma CommitmentShape(cl: Cluster, u: iset<Entry>, e: Entry, log: seq<Entry>, x: Host, self: nat, n: Node, i: nat)
    requires Setting(cl, u, e, log) && NodeFlows(cl, e, log, x, n) && cl.h.hash(e) in n.ballots
    requires self < |cl.peers(e.key)| && cl.peers(e.key)[self] == x
    requires i < |cl.peers(e.key)| && !Has(cl, e, n, Committing, i) && (i == self || Has(cl, e, n, Committing, self))
    ensures
      var id, ps := cl.h.hash(e), cl.peers(e.key);
      var (b', v) := CastCommit(n.ballots[id], id, ps[i], i);
      var n1 := n.(ballots := n.ballots[id := b']);
      TakeCommit(ConfOf(cl, x), n, id, ps, self, i) ==
      (if v.votes == 1 then n1.(cch := n.cch + [OwnReq(cl, e, self)])
       else if Full(b'.committed) then CheckVotesAndCommit(cl.h, n1, id) else n1, None)
  {
    CommitmentEntered(cl, u, e, log, x, self, n, i);
    assert PeersOk(cl.hosts, cl.peers(e.key));
    hide CheckVotesAndCommit, CastCommit;
  }

  lemma CommitmentFlows(cl: Cluster, u: iset<Entry>, e: Entry, log: seq<Entry>, x: Host, self: nat, n: Node, i: nat)
    requires Setting(cl, u, e, log) && NodeFlows(cl, e, log, x, n) && cl.h.hash(e) in n.ballots
    requires self < |cl.peers(e.key)| && cl.peers(e.key)[self] == x
    requires i < |cl.peers(e.key)| && !Has(cl, e, n, Committing, i) && (i == self || Has(cl, e, n, Committing, self))
    ensures
      var (n', err) := TakeCommit(ConfOf(cl, x), n, cl.h.hash(e), cl.peers(e.key), self, i);
      && err.None? && NodeFlows(cl, e, log, x, n') && cl.h.hash(e) in n'.ballots
      && Took(cl, e, n, n', Committing, self, i)
  {
    var id, ps := cl.h.hash(e), cl.peers(e.key);
    CommitmentEntered(cl, u, e, log, x, self, n, i);
    CommitmentShape(cl, u, e, log, x, self, n, i);
    var (b', v) := CastCommit(n.ballots[id], id, ps[i], i);
    var n1 := n.(ballots := n.ballots[id := b']);
    var n' := TakeCommit(ConfOf(cl, x), n, id, ps, self, i).0;
    assert |ps| >= 2 by { assert PeersOk(cl.hosts, ps); }
    assert |n.ballots[id].proposed| == |n.ballots[id].committed| == |ps| && n.ballots[id].proposed[self] != "";
    assert b'.id == id && b'.entry == e && !b'.closed;
    hide TakeCommit, CastCommit;
    if v.votes != 1 && Full(b'.committed) {
      assert n1.ballots[id := b'] == n1.ballots;
      CheckFlows(cl, u, e, log, x, n1, b');
    } else {
      assert !Full(b'.committed);
      VotedFlows(cl, e, log, x, n, n', b');
    }
    hide CheckVotesAndCommit, NodeFlows;
    TookOnBallot(cl, e, n, n', Committing, self, i);
  }

  /** The ballot is opened with the node's own vote. */
  lemma OpeningFlows(cl: Cluster, u: iset<Entry>, e: Entry, log: seq<Entry>, x: Host, self: nat, n: Node)
    requires Setting(cl, u, e, log) && NodeFlows(cl, e, log, x, n) && cl.h.hash(e) !in n.ballots
    requires self < |cl.peers(e.key)| && cl.peers(e.key)[self] == x
    ensures
      var n' := Opened(cl, n, e, self, Verify(cl.h, n.store, e).0);
      && Verify(cl.h, n.store, e).1.None?
      && NodeFlows(cl, e, log, x, n') && Took(cl, e, n, n', Proposing, self, self)
  {
    var id, ps := cl.h.hash(e), cl.peers(e.key);
    assert PeersOk(cl.hosts, ps);
    FirstVote(id, e, ps, self);
    CountBounds(NoVotes(|ps|));
    var n' := Opened(cl, n, e, self, Verify(cl.h, n.store, e).0);
    assert !Full(n'.ballots[id].proposed);
    assert log == [] || e.key in n.store;
  }

  /** The requests that reach a node in the flow can be handled. */
  lemma CanHandleFlow(cl: Cluster, u: iset<Entry>, e: Entry, log: seq<Entry>, x: Host, n: Node, phase: Phase,
                      source: int)
    requires Setting(cl, u, e, log) && NodeFlows(cl, e, log, x, n) && source < |cl.peers(e.key)|
    requires phase.Committing? ==> 0 <= source
    ensures CanHandle(cl, x, n, phase, e, OptsOf(cl, e, source))
  {
  }

  /** A propose request of another peer, whose vote is new. */
  lemma ProposeFlows(cl: Cluster, u: iset<Entry>, e: Entry, log: seq<Entry>, x: Host, self: nat, n: Node, i: nat)
    requires Setting(cl, u, e, log) && NodeFlows(cl, e, log, x, n)
    requires self < |cl.peers(e.key)| && cl.peers(e.key)[self] == x
    requires i < |cl.peers(e.key)| && i != self && !Has(cl, e, n, Proposing, i)
    ensures CanHandle(cl, x, n, Proposing, e, OptsOf(cl, e, i))
    ensures
      var (n', err) := Propose(ConfOf(cl, x), n, e, OptsOf(cl, e, i));
      && err.None? && NodeFlows(cl, e, log, x, n') && Took(cl, e, n, n', Proposing, self, i)
  {
    var id, ps := cl.h.hash(e), cl.peers(e.key);
    CanHandleFlow(cl, u, e, log, x, n, Proposing, i);
    SelfIs(cl, u, e.key, x, self);
    if id in n.ballots {
      OpenStillNext(cl, u, e, log, x, n, i);
      ProposeInSteps(cl, u, x, n, e, OptsOf(cl, e, i));
      ProposalFlows(cl, u, e, log, x, self, n, i, Verify(cl.h, n.store, e).0);
    } else {
      OpeningFlows(cl, u, e, log, x, self, n);
      ProposeInSteps(cl, u, x, n, e, OptsOf(cl, e, i));
      var prevHeight := Verify(cl.h, n.store, e).0;
      var n1 := Opened(cl, n, e, self, prevHeight);
      ProposalFlows(cl, u, e, log, x, self, n1, i, prevHeight);
    }
  }

  /** While a vote is missing the log still ends before the entry. */
  lemma OpenStillNext(cl: Cluster, u: iset<Entry>, e: Entry, log: seq<Entry>, x: Host, n: Node, i: nat)
    requires Setting(cl, u, e, log) && NodeFlows(cl, e, log, x, n) && cl.h.hash(e) in n.ballots
    requires i < |cl.peers(e.key)| && !Has(cl, e, n, Proposing, i)
    ensures Verify(cl.h, n.store, e).1.None?
  {
    CountBounds(n.ballots[cl.h.hash(e)].proposed);
  }

  /** A client's request: it opens the ballot, or changes nothing. */
  lemma ClientFlows(cl: Cluster, u: iset<Entry>, e: Entry, log: seq<Entry>, x: Host, self: nat, n: Node, source: int)
    requires Setting(cl, u, e, log) && NodeFlows(cl, e, log, x, n) && source < 0
    requires self < |cl.peers(e.key)| && cl.peers(e.key)[self] == x
    ensures CanHandle(cl, x, n, Proposing, e, OptsOf(cl, e, source))
    ensures
      var n' := Propose(ConfOf(cl, x), n, e, OptsOf(cl, e, source)).0;
      && NodeFlows(cl, e, log, x, n') && cl.h.hash(e) in n'.ballots
      && (if cl.h.hash(e) in n.ballots then n' == n else Took(cl, e, n, n', Proposing, self, self))
  {
    var id, ps := cl.h.hash(e), cl.peers(e.key);
    CanHandleFlow(cl, u, e, log, x, n, Proposing, source);
    SelfIs(cl, u, e.key, x, self);
    if id !in n.ballots {
      OpeningFlows(cl, u, e, log, x, self, n);
      ProposeInSteps(cl, u, x, n, e, OptsOf(cl, e, source));
    } else if n.ballots[id].closed {
      CommittedIsRefused(cl, u, e, log, x, n, source);
    } else {
      ProposeInSteps(cl, u, x, n, e, OptsOf(cl, e, source));
      RepeatedProposal(cl, u, e, log, x, self, n, Verify(cl.h, n.store, e).0);
    }
  }

  lemma RepeatedProposal(cl: Cluster, u: iset<Entry>, e: Entry, log: seq<Entry>, x: Host, self: nat, n: Node,
                         prevHeight: nat)
    requires Setting(cl, u, e, log) && NodeFlows(cl, e, log, x, n) && cl.h.hash(e) in n.ballots
    requires !n.ballots[cl.h.hash(e)].closed
    requires self < |cl.peers(e.key)| && cl.peers(e.key)[self] == x
    ensures TakeProposal(ConfOf(cl, x), n, e, cl.peers(e.key), self, self, prevHeight).0 == n
  {
    var id := cl.h.hash(e);
    var b := n.ballots[id];
    assert b.proposed[self] != "";
    assert n.ballots[id := b] == n.ballots;
    CountBounds(b.proposed);
    CountBounds(b.committed);
  }

  lemma CommittedIsRefused(cl: Cluster, u: iset<Entry>, e: Entry, log: seq<Entry>, x: Host, n: Node, source: int)
    requires Setting(cl, u, e, log) && NodeFlows(cl, e, log, x, n) && source < |cl.peers(e.key)|
    requires cl.h.hash(e) in n.ballots && n.ballots[cl.h.hash(e)].closed
    requires CanHandle(cl, x, n, Proposing, e, OptsOf(cl, e, source))
    ensures Propose(ConfOf(cl, x), n, e, OptsOf(cl, e, source)).0 == n
  {
    var id := cl.h.hash(e);
    ChainAppend(cl.h, u, e.key, log, e);
    assert |log| != |log + [e]|;
    if LastId(cl.h, log + [e]) == e.previous {
      SameLast(cl.h, u, e.key, log, log + [e]);
    }
    assert n.ballots[id := n.ballots[id]] == n.ballots;
    hide TakeProposal, OpenBallot;
  }

  /** A commit request of another peer, whose vote is new. */
  lemma CommitFlows(cl: Cluster, u: iset<Entry>, e: Entry, log: seq<Entry>, x: Host, self: nat, n: Node, i: nat)
    requires Setting(cl, u, e, log) && NodeFlows(cl, e, log, x, n) && cl.h.hash(e) in n.ballots
    requires self < |cl.peers(e.key)| && cl.peers(e.key)[self] == x
    requires i < |cl.peers(e.key)| && i != self && !Has(cl, e, n, Committing, i)
    ensures CanHandle(cl, x, n, Committing, e, OptsOf(cl, e, i))
    ensures
      var (n', err) := Commit(ConfOf(cl, x), n, e, OptsOf(cl, e, i));
      && err.None? && NodeFlows(cl, e, log, x, n') && Took(cl, e, n, n', Committing, self, i)
  {
    var id, ps, c := cl.h.hash(e), cl.peers(e.key), ConfOf(cl, x);
    CanHandleFlow(cl, u, e, log, x, n, Committing, i);
    SelfIs(cl, u, e.key, x, self);
    CountBounds(n.ballots[id].committed);
    if Has(cl, e, n, Committing, self) {
      assert TakeCommit(c, n, id, ps, self, self).0.ballots == n.ballots;
      assert TakeCommit(c, n, id, ps, self, self) == (n, None);
      CommitmentFlows(cl, u, e, log, x, self, n, i);
    } else {
      CommitmentFlows(cl, u, e, log, x, self, n, self);
      var n1 := TakeCommit(c, n, id, ps, self, self).0;
      CommitmentFlows(cl, u, e, log, x, self, n1, i);
    }
  }

  /** The commit vote at the end of the own proposal round: cast now, or cast before. */
  lemma OwnCommitFlows(cl: Cluster, u: iset<Entry>, e: Entry, log: seq<Entry>, x: Host, self: nat, n: Node)
    requires Setting(cl, u, e, log) && NodeFlows(cl, e, log, x, n) && cl.h.hash(e) in n.ballots
    requires self < |cl.peers(e.key)| && cl.peers(e.key)[self] == x
    ensures CanHandle(cl, x, n, Committing, e, OptsOf(cl, e, self))
    ensures
      var (n', err) := Commit(ConfOf(cl, x), n, e, OptsOf(cl, e, self));
      var n'' := if err.Some? then CloseBallot(n', cl.h.hash(e), err) else n';
      && NodeFlows(cl, e, log, x, n'')
      && (if Has(cl, e, n, Committing, self) then n'' == n else Took(cl, e, n, n'', Committing, self, self))
  {
    var id := cl.h.hash(e);
    CanHandleFlow(cl, u, e, log, x, n, Committing, self);
    SelfIs(cl, u, e.key, x, self);
    CountBounds(n.ballots[id].committed);
    assert n.ballots[id := n.ballots[id]] == n.ballots;
    if !Has(cl, e, n, Committing, self) {
      CommitmentFlows(cl, u, e, log, x, self, n, self);
    }
  }
}
