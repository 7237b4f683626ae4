/** Runs in which ballots are not dropped: no commit is sent before every peer has a ballot, and every ballot is
    broadcast once per phase. */
module CommitOrder {
  import opened HexTypes
  import opened Chains
  import opened StoreSpec
  import opened Ballots
  import opened Nodes
  import opened Clusters
  import opened NodeSafety
  import opened Divergence

  // ---- what a handler changes

  ghost predicate HasCommit(b: BallotState) {
    exists i :: 0 <= i < |b.committed| && b.committed[i] != ""
  }

  ghost predicate KeptBallot(b: BallotState, b': BallotState) {
    && b'.entry == b.entry && |b'.committed| == |b.committed|
    && forall i :: 0 <= i < |b.committed| && b.committed[i] != "" ==> b'.committed[i] != ""
  }

  /** No ballot is dropped and no commit vote taken back; only ballot `id` may be new or get commit votes. */
  ghost predicate Kept(n: Node, n': Node, id: Id) {
    && n.ballots.Keys <= n'.ballots.Keys <= n.ballots.Keys + {id}
    && (forall j :: j in n.ballots ==> KeptBallot(n.ballots[j], n'.ballots[j]))
    && (forall j :: j in n.ballots && j != id && HasCommit(n'.ballots[j]) ==> HasCommit(n.ballots[j]))
  }

  /** A propose request is queued with a new ballot only, a commit request with the own commit vote only. */
  ghost predicate QueuesOnce(cl: Cluster, x: Host, n: Node, n': Node, e: Entry) {
    var id := cl.h.hash(e);
    && (n'.pch == n.pch
        || (id !in n.ballots && id in n'.ballots && |n'.pch| == |n.pch| + 1 && n'.pch[..|n.pch|] == n.pch
            && n'.pch[|n.pch|].entry == e))
    && (n'.cch == n.cch
        || (id in n.ballots && id in n'.ballots && !OwnCommit(cl, x, n.ballots[id]) && OwnCommit(cl, x, n'.ballots[id])
            && |n'.cch| == |n.cch| + 1 && n'.cch[..|n.cch|] == n.cch && n'.cch[|n.cch|].entry == e))
  }

  /** A vote on a ballot the node has: the vote is entered, and the check may follow. */
  lemma ProposalShape(c: Conf, n: Node, e: Entry, peers: seq<Host>, self: nat, source: nat, prevHeight: nat)
    requires c.h.hash(e) in n.ballots && source < |peers| == |n.ballots[c.h.hash(e)].proposed|
    ensures
      var id := c.h.hash(e);
      var (b', v) := CastPropose(n.ballots[id], id, peers[source], source);
      var n1 := n.(ballots := n.ballots[id := b']);
      var n' := TakeProposal(c, n, e, peers, self, source, prevHeight).0;
      (v.voted && v.votes == 1) || n' == n1 || n' == CheckVotesAndCommit(c.h, n1, id)
  {
    hide CheckVotesAndCommit;
  }

  lemma CommitShape(c: Conf, n: Node, id: Id, peers: seq<Host>, self: nat, i: nat)
    requires id in n.ballots && i < |peers| == |n.ballots[id].committed|
    ensures
      var (b', v) := CastCommit(n.ballots[id], id, peers[i], i);
      var n1 := n.(ballots := n.ballots[id := b']);
      var n' := TakeCommit(c, n, id, peers, self, i).0;
      if v.voted && v.votes == 1 then n' == n1.(cch := n.cch + [Req(b'.entry, Options(self, peers))])
      else n' == n1 || n' == CheckVotesAndCommit(c.h, n1, id)
  {
    hide CheckVotesAndCommit;
  }

  /** Replacing ballot `id` by one that has gained votes, with or without the check after it. */
  lemma VoteKept(h: Hashing, n: Node, id: Id, b': BallotState, n': Node)
    requires id in n.ballots && KeptBallot(n.ballots[id], b')
    requires
      var n1 := n.(ballots := n.ballots[id := b']);
      n' == n1 || n' == CheckVotesAndCommit(h, n1, id)
    ensures Kept(n, n', id) && n'.ballots.Keys == n.ballots.Keys && n'.pch == n.pch && n'.cch == n.cch
    ensures n'.ballots[id].committed == b'.committed && n'.ballots[id].entry == b'.entry
  {
    var n1 := n.(ballots := n.ballots[id := b']);
    CheckFrame(h, n1, id);
    hide CheckVotesAndCommit;
    forall j | j in n.ballots
      ensures KeptBallot(n.ballots[j], n'.ballots[j])
      ensures j != id && HasCommit(n'.ballots[j]) ==> HasCommit(n.ballots[j])
    {
    }
  }

  lemma TakeProposalKept(cl: Cluster, u: iset<Entry>, x: Host, n: Node, e: Entry, self: nat, source: nat,
                         prevHeight: nat, hist: Hist)
    requires ValidCluster(cl, u) && NodeOk(cl, u, x, n, hist) && e in u && cl.h.hash(e) in n.ballots
    requires source < |cl.peers(e.key)|
    ensures |n.ballots[cl.h.hash(e)].proposed| == |cl.peers(e.key)|
    ensures
      var n' := TakeProposal(ConfOf(cl, x), n, e, cl.peers(e.key), self, source, prevHeight).0;
      && Kept(n, n', cl.h.hash(e)) && n'.pch == n.pch && n'.cch == n.cch
      && (HasCommit(n'.ballots[cl.h.hash(e)]) ==> HasCommit(n.ballots[cl.h.hash(e)]))
  {
    var id, ps := cl.h.hash(e), cl.peers(e.key);
    var b := n.ballots[id];
    assert BallotOk(cl, u, x, id, b, hist);
    SameEntry(cl.h, u, b.entry, e);
    ProposalBallotOk(cl, u, x, id, b, source, hist);
    ProposalShape(ConfOf(cl, x), n, e, ps, self, source, prevHeight);
    hide TakeProposal, CheckVotesAndCommit;
    VoteKept(cl.h, n, id, CastPropose(b, id, ps[source], source).0,
             TakeProposal(ConfOf(cl, x), n, e, ps, self, source, prevHeight).0);
  }

  lemma ProposeKept(cl: Cluster, u: iset<Entry>, x: Host, n: Node, e: Entry, opts: Options, hist: Hist)
    requires ValidCluster(cl, u) && NodeOk(cl, u, x, n, hist) && (x, e) in hist.balloted
    requires e in u && opts.peers == cl.peers(e.key) && Callable(ConfOf(cl, x), n, e, opts)
    ensures
      var n' := Propose(ConfOf(cl, x), n, e, opts).0;
      && Kept(n, n', cl.h.hash(e)) && QueuesOnce(cl, x, n, n', e)
      && (cl.h.hash(e) in n'.ballots && HasCommit(n'.ballots[cl.h.hash(e)]) ==>
            cl.h.hash(e) in n.ballots && HasCommit(n.ballots[cl.h.hash(e)]))
  {
    if Proceeds(ConfOf(cl, x), n, e, opts) {
      var self := SelfIndex(opts.peers, x).value;
      var source: nat := if opts.sourceIndex < 0 then self else opts.sourceIndex;
      var prevHeight := Verify(cl.h, n.store, e).0;
      ProposeInSteps(cl, u, x, n, e, opts);
      assert cl.peers(e.key)[self] == x;
      hide TakeProposal, Opened, Propose;
      if cl.h.hash(e) in n.ballots {
        TakeProposalKept(cl, u, x, n, e, self, source, prevHeight, hist);
      } else {
        NewBallotKept(cl, u, x, n, e, self, source, prevHeight, hist);
      }
    } else {
      RefusedKept(cl, x, n, e, opts);
    }
  }

  /** The entry comes next, and the request is for this node. */
  predicate Proceeds(c: Conf, n: Node, e: Entry, opts: Options) {
    EnoughPeers(c, opts.peers) && SelfIndex(opts.peers, c.host).Some? && Verify(c.h, n.store, e).1.None?
  }

  lemma RefusedKept(cl: Cluster, x: Host, n: Node, e: Entry, opts: Options)
    requires Callable(ConfOf(cl, x), n, e, opts) && !Proceeds(ConfOf(cl, x), n, e, opts)
    ensures
      var n' := Propose(ConfOf(cl, x), n, e, opts).0;
      && Kept(n, n', cl.h.hash(e)) && QueuesOnce(cl, x, n, n', e)
      && (cl.h.hash(e) in n'.ballots && HasCommit(n'.ballots[cl.h.hash(e)]) ==>
            cl.h.hash(e) in n.ballots && HasCommit(n.ballots[cl.h.hash(e)]))
  {
    hide TakeProposal, OpenBallot;
  }

  lemma NewBallotKept(cl: Cluster, u: iset<Entry>, x: Host, n: Node, e: Entry, self: nat, source: nat, prevHeight: nat,
                      hist: Hist)
    requires ValidCluster(cl, u) && NodeOk(cl, u, x, n, hist) && (x, e) in hist.balloted
    requires e in u && cl.h.hash(e) !in n.ballots && source < |cl.peers(e.key)|
    requires self < |cl.peers(e.key)| && cl.peers(e.key)[self] == x
    ensures
      var n1, id := Opened(cl, n, e, self, prevHeight), cl.h.hash(e);
      && |n1.ballots[id].proposed| == |cl.peers(e.key)|
      && Kept(n, n1, id) && QueuesOnce(cl, x, n, n1, e) && !HasCommit(n1.ballots[id])
      && var n' := TakeProposal(ConfOf(cl, x), n1, e, cl.peers(e.key), self, source, prevHeight).0;
      Kept(n, n', id) && QueuesOnce(cl, x, n, n', e) && !HasCommit(n'.ballots[id])
  {
    var n1 := Opened(cl, n, e, self, prevHeight);
    OpenedKeeps(cl, u, x, n, e, self, prevHeight, hist);
    OpenedKept(cl, x, n, e, self, prevHeight);
    TakeProposalKept(cl, u, x, n1, e, self, source, prevHeight, hist);
    hide TakeProposal, Opened;
    KeptTwice(n, n1, TakeProposal(ConfOf(cl, x), n1, e, cl.peers(e.key), self, source, prevHeight).0, cl.h.hash(e));
  }

  lemma OpenedKept(cl: Cluster, x: Host, n: Node, e: Entry, self: nat, prevHeight: nat)
    requires self < |cl.peers(e.key)| && cl.h.hash(e) !in n.ballots
    ensures
      var n', id := Opened(cl, n, e, self, prevHeight), cl.h.hash(e);
      && id in n'.ballots && !HasCommit(n'.ballots[id]) && Kept(n, n', id) && QueuesOnce(cl, x, n, n', e)
  {
  }

  lemma TakeCommitKept(cl: Cluster, u: iset<Entry>, x: Host, n: Node, e: Entry, self: nat, i: nat, hist: Hist)
    requires ValidCluster(cl, u) && NodeOk(cl, u, x, n, hist) && e in u && cl.h.hash(e) in n.ballots
    requires
      var b, ps := n.ballots[cl.h.hash(e)], cl.peers(e.key);
      && self < |ps| && ps[self] == x && i < |ps| == |b.committed|
      && (i != self ==> b.committed[self] != "" || b.closed)
    ensures
      var n' := TakeCommit(ConfOf(cl, x), n, cl.h.hash(e), cl.peers(e.key), self, i).0;
      && Kept(n, n', cl.h.hash(e)) && QueuesOnce(cl, x, n, n', e) && (i != self ==> n'.cch == n.cch)
      && n'.ballots.Keys == n.ballots.Keys && n'.pch == n.pch
  {
    var id, ps := cl.h.hash(e), cl.peers(e.key);
    var b := n.ballots[id];
    assert BallotOk(cl, u, x, id, b, hist);
    SameEntry(cl.h, u, b.entry, e);
    assert PeersOk(cl.hosts, ps);
    VoteCommitCounts(b, id, ps[i], i);
    CountBounds(b.committed);
    CommitShape(ConfOf(cl, x), n, id, ps, self, i);
    hide TakeCommit, CheckVotesAndCommit;
    var (b', v) := CastCommit(b, id, ps[i], i);
    var n' := TakeCommit(ConfOf(cl, x), n, id, ps, self, i).0;
    if v.voted && v.votes == 1 {
      assert i == self;
      FirstCommit(cl, x, n, id, b', n', self);
    } else {
      VoteKept(cl.h, n, id, b', n');
    }
  }

  lemma FirstCommit(cl: Cluster, x: Host, n: Node, id: Id, b': BallotState, n': Node, self: nat)
    requires id in n.ballots && n.ballots[id].id == id
    requires
      var b, ps := n.ballots[id], cl.peers(n.ballots[id].entry.key);
      && cl.h.hash(b.entry) == id && self < |ps| && ps[self] == x != "" && |b.committed| == |ps|
      && (forall i :: 0 <= i < |ps| && ps[i] == x ==> i == self)
      && b.committed[self] == "" && b' == b.(committed := b.committed[self := x])
      && n' == n.(ballots := n.ballots[id := b'], cch := n.cch + [Req(b'.entry, Options(self, ps))])
    ensures Kept(n, n', id) && QueuesOnce(cl, x, n, n', n.ballots[id].entry)
    ensures n'.ballots.Keys == n.ballots.Keys && n'.pch == n.pch
  {
  }

  lemma CommitKept(cl: Cluster, u: iset<Entry>, x: Host, n: Node, e: Entry, opts: Options, hist: Hist)
    requires ValidCluster(cl, u) && NodeOk(cl, u, x, n, hist) && (x, e) in hist.voted
    requires e in u && opts.peers == cl.peers(e.key) && Callable(ConfOf(cl, x), n, e, opts) && 0 <= opts.sourceIndex
    ensures
      var n' := Commit(ConfOf(cl, x), n, e, opts).0;
      Kept(n, n', cl.h.hash(e)) && QueuesOnce(cl, x, n, n', e) && n'.ballots.Keys == n.ballots.Keys
  {
    var id, ps := cl.h.hash(e), cl.peers(e.key);
    if EnoughPeers(ConfOf(cl, x), opts.peers) && SelfIndex(opts.peers, x).Some? && id in n.ballots {
      var self := SelfIndex(opts.peers, x).value;
      var b := n.ballots[id];
      assert BallotOk(cl, u, x, id, b, hist);
      SameEntry(cl.h, u, b.entry, e);
      assert PeersOk(cl.hosts, ps);
      TakeCommitKept(cl, u, x, n, e, self, self, hist);
      TakeCommitKeeps(cl, u, x, n, id, self, self, hist);
      TakeCommitSets(ConfOf(cl, x), n, id, ps, self, self);
      CommitInSteps(ConfOf(cl, x), n, e, opts);
      var (n1, err) := TakeCommit(ConfOf(cl, x), n, id, ps, self, self);
      hide TakeCommit, Commit;
      if self != opts.sourceIndex && err.None? {
        TakeCommitKept(cl, u, x, n1, e, self, opts.sourceIndex, hist);
        var n' := TakeCommit(ConfOf(cl, x), n1, id, ps, self, opts.sourceIndex).0;
        hide NodeOk, Callable, Kept;
        KeptTwice(n, n1, n', id);
        assert KeptBallot(n1.ballots[id], n'.ballots[id]) by { KeptIn(n1, n', id, id); }
        OwnCommitKept(cl, x, n1.ballots[id], n'.ballots[id]);
      }
    }
  }

  /** Commit, as a whole: the own vote, then the source's. */
  lemma CommitInSteps(c: Conf, n: Node, e: Entry, opts: Options)
    requires Callable(c, n, e, opts) && 0 <= opts.sourceIndex
    requires EnoughPeers(c, opts.peers) && SelfIndex(opts.peers, c.host).Some? && c.h.hash(e) in n.ballots
    ensures
      var id, self := c.h.hash(e), SelfIndex(opts.peers, c.host).value;
      var (n1, err) := TakeCommit(c, n, id, opts.peers, self, self);
      && id in n1.ballots && n1.ballots[id].id == id && |n1.ballots[id].committed| == |opts.peers|
      && Commit(c, n, e, opts) ==
         if self == opts.sourceIndex || err.Some? then (n1, err)
         else TakeCommit(c, n1, id, opts.peers, self, opts.sourceIndex)
  {
    var id, self := c.h.hash(e), SelfIndex(opts.peers, c.host).value;
    TakeCommitKeepsBallots(c, n, id, opts.peers, self, self);
    hide TakeCommit;
  }

  lemma KeptIn(n: Node, n': Node, id: Id, j: Id)
    requires Kept(n, n', id) && j in n.ballots
    ensures j in n'.ballots && KeptBallot(n.ballots[j], n'.ballots[j])
  {
  }

  lemma KeptTwice(n: Node, n1: Node, n2: Node, id: Id)
    requires Kept(n, n1, id) && Kept(n1, n2, id)
    ensures Kept(n, n2, id)
  {
    forall j | j in n.ballots
      ensures KeptBallot(n.ballots[j], n2.ballots[j])
      ensures j != id && HasCommit(n2.ballots[j]) ==> HasCommit(n.ballots[j])
    {
      assert KeptBallot(n.ballots[j], n1.ballots[j]) && KeptBallot(n1.ballots[j], n2.ballots[j]);
    }
  }

  lemma OwnCommitKept(cl: Cluster, x: Host, b: BallotState, b': BallotState)
    requires KeptBallot(b, b') && OwnCommit(cl, x, b)
    ensures OwnCommit(cl, x, b')
  {
  }

  // ---- the invariant

  ghost predicate HasBallot(cl: Cluster, s: Sys, x: Host, e: Entry) {
    x in s.peers && cl.h.hash(e) in s.peers[x].node.ballots
  }

  /** Every peer has a ballot for the entry. */
  ghost predicate AllHave(cl: Cluster, s: Sys, e: Entry) {
    forall p :: p in cl.peers(e.key) ==> HasBallot(cl, s, p, e)
  }

  ghost predicate PchCovered(cl: Cluster, s: Sys, x: Host, pch: seq<Req>) {
    forall i :: 0 <= i < |pch| ==> HasBallot(cl, s, x, pch[i].entry)
  }

  ghost predicate RoundCovered(cl: Cluster, s: Sys, x: Host, r: Option<Round>) {
    r.Some? ==>
      && HasBallot(cl, s, x, r.value.req.entry)
      && forall q :: q in cl.peers(r.value.req.entry.key) ==>
           q in r.value.waiting || HasBallot(cl, s, q, r.value.req.entry)
  }

  ghost predicate BallotsCovered(cl: Cluster, s: Sys, ballots: map<Id, BallotState>) {
    forall id :: id in ballots && HasCommit(ballots[id]) ==> AllHave(cl, s, ballots[id].entry)
  }

  ghost predicate CchCovered(cl: Cluster, s: Sys, cch: seq<Req>) {
    forall i :: 0 <= i < |cch| ==> AllHave(cl, s, cch[i].entry)
  }

  ghost predicate PeerCovered(cl: Cluster, s: Sys, x: Host, p: Peer) {
    && PchCovered(cl, s, x, p.node.pch)
    && RoundCovered(cl, s, x, p.proposing)
    && BallotsCovered(cl, s, p.node.ballots)
    && CchCovered(cl, s, p.node.cch)
    && (p.committing.Some? ==> AllHave(cl, s, p.committing.value.req.entry))
  }

  ghost predicate MsgCovered(cl: Cluster, s: Sys, m: Msg) {
    && (m.Request? && m.phase.Committing? ==> AllHave(cl, s, m.entry))
    && (m.Reply? && m.phase.Proposing? && m.err.None? ==> HasBallot(cl, s, m.from, m.entry))
  }

  ghost predicate Covered(cl: Cluster, s: Sys) {
    && (forall x :: x in s.peers ==> PeerCovered(cl, s, x, s.peers[x]))
    && (forall m :: m in s.net ==> MsgCovered(cl, s, m))
  }

  predicate DropsNoBallot(l: Label) {
    !l.ReapBallots? && !l.Crash?
  }

  /** All ballots of `s` are still there in `s'`. */
  ghost predicate BallotsStay(s: Sys, s': Sys) {
    s'.peers.Keys == s.peers.Keys
    && forall x :: x in s.peers ==> s.peers[x].node.ballots.Keys <= s'.peers[x].node.ballots.Keys
  }

  lemma HaveMonotone(cl: Cluster, s: Sys, s': Sys, e: Entry)
    requires BallotsStay(s, s') && AllHave(cl, s, e)
    ensures AllHave(cl, s', e)
  {
    forall p | p in cl.peers(e.key)
      ensures HasBallot(cl, s', p, e)
    {
      assert HasBallot(cl, s, p, e);
    }
  }

  lemma RoundMonotone(cl: Cluster, s: Sys, s': Sys, x: Host, r: Option<Round>)
    requires BallotsStay(s, s') && RoundCovered(cl, s, x, r)
    ensures RoundCovered(cl, s', x, r)
  {
    if r.Some? {
      forall q | q in cl.peers(r.value.req.entry.key)
        ensures q in r.value.waiting || HasBallot(cl, s', q, r.value.req.entry)
      {
        assert q in r.value.waiting || HasBallot(cl, s, q, r.value.req.entry);
      }
    }
  }

  lemma PeerCoveredMonotone(cl: Cluster, s: Sys, s': Sys, x: Host, p: Peer)
    requires BallotsStay(s, s') && PeerCovered(cl, s, x, p)
    ensures PeerCovered(cl, s', x, p)
  {
    forall e | AllHave(cl, s, e)
      ensures AllHave(cl, s', e)
    {
      HaveMonotone(cl, s, s', e);
    }
    RoundMonotone(cl, s, s', x, p.proposing);
  }

  lemma MsgCoveredMonotone(cl: Cluster, s: Sys, s': Sys, m: Msg)
    requires BallotsStay(s, s') && MsgCovered(cl, s, m)
    ensures MsgCovered(cl, s', m)
  {
    if AllHave(cl, s, m.entry) {
      HaveMonotone(cl, s, s', m.entry);
    }
  }

  /** A step at `x` only, which drops no ballots: what remains is its own part, seen with the ballots of before. */
  lemma CoveredAfter(cl: Cluster, s: Sys, s': Sys, x: Host)
    requires Covered(cl, s) && x in s.peers && x in s'.peers && s'.peers == s.peers[x := s'.peers[x]]
    requires s.peers[x].node.ballots.Keys <= s'.peers[x].node.ballots.Keys
    requires PeerCovered(cl, s', x, s'.peers[x])
    requires forall m :: m in s'.net ==> m in s.net || MsgCovered(cl, s', m)
    ensures Covered(cl, s') && BallotsStay(s, s')
  {
    forall y | y in s'.peers
      ensures PeerCovered(cl, s', y, s'.peers[y])
    {
      if y != x {
        PeerCoveredMonotone(cl, s, s', y, s.peers[y]);
      }
    }
    forall m | m in s'.net
      ensures MsgCovered(cl, s', m)
    {
      if m in s.net {
        MsgCoveredMonotone(cl, s, s', m);
      }
    }
  }

  lemma QuietCovered(cl: Cluster, s: Sys, s': Sys, x: Host)
    requires Covered(cl, s) && x in s.peers && x in s'.peers && s'.peers == s.peers[x := s'.peers[x]]
    requires s'.peers[x].node.ballots == s.peers[x].node.ballots
    requires PeerCovered(cl, s, x, s'.peers[x])
    requires forall m :: m in s'.net ==> m in s.net || MsgCovered(cl, s, m)
    ensures Covered(cl, s') && BallotsStay(s, s')
  {
    assert BallotsStay(s, s');
    PeerCoveredMonotone(cl, s, s', x, s'.peers[x]);
    forall m | m in s'.net
      ensures m in s.net || MsgCovered(cl, s', m)
    {
      if m !in s.net {
        MsgCoveredMonotone(cl, s, s', m);
      }
    }
    CoveredAfter(cl, s, s', x);
  }

  /** New commit votes and commit requests concern `e` only. */
  lemma BallotsCoveredAfter(cl: Cluster, u: iset<Entry>, s: Sys, x: Host, n: Node, n': Node, e: Entry, hist: Hist)
    requires Sound(cl.h, u) && e in u && BallotsCovered(cl, s, n.ballots) && Kept(n, n', cl.h.hash(e))
    requires BallotsOk(cl, u, x, n'.ballots, hist)
    requires
      var id := cl.h.hash(e);
      AllHave(cl, s, e)
      || (id in n'.ballots && HasCommit(n'.ballots[id]) ==> id in n.ballots && HasCommit(n.ballots[id]))
    ensures BallotsCovered(cl, s, n'.ballots)
  {
    forall j | j in n'.ballots && HasCommit(n'.ballots[j])
      ensures AllHave(cl, s, n'.ballots[j].entry)
    {
      assert BallotOk(cl, u, x, j, n'.ballots[j], hist);
      if j == cl.h.hash(e) {
        SameEntry(cl.h, u, n'.ballots[j].entry, e);
      }
      if j in n.ballots {
        assert KeptBallot(n.ballots[j], n'.ballots[j]);
      }
    }
  }

  lemma CchCoveredAfter(cl: Cluster, s: Sys, x: Host, n: Node, n': Node, e: Entry)
    requires CchCovered(cl, s, n.cch) && QueuesOnce(cl, x, n, n', e) && (n'.cch == n.cch || AllHave(cl, s, e))
    ensures CchCovered(cl, s, n'.cch)
  {
    forall i | 0 <= i < |n'.cch|
      ensures AllHave(cl, s, n'.cch[i].entry)
    {
      if i < |n.cch| {
        assert n'.cch[i] == n.cch[i];
      }
    }
  }

  lemma PchCoveredAfter(cl: Cluster, s: Sys, s': Sys, x: Host, n: Node, n': Node, e: Entry)
    requires x in s'.peers && s'.peers[x].node == n' && BallotsStay(s, s')
    requires PchCovered(cl, s, x, n.pch) && QueuesOnce(cl, x, n, n', e)
    ensures PchCovered(cl, s', x, n'.pch)
  {
    forall i | 0 <= i < |n'.pch|
      ensures HasBallot(cl, s', x, n'.pch[i].entry)
    {
      if i < |n.pch| {
        assert n'.pch[i] == n.pch[i];
        assert HasBallot(cl, s, x, n.pch[i].entry);
      }
    }
  }

  /** The node part of a step keeps its peer covered, if commit votes are cast only where everyone has a ballot. */
  lemma NodeStepCovered(cl: Cluster, u: iset<Entry>, s: Sys, s': Sys, x: Host, e: Entry, hist: Hist)
    requires Covered(cl, s)
    requires x in s.peers && x in s'.peers && s'.peers == s.peers[x := s'.peers[x]] && Sound(cl.h, u) && e in u
    requires
      var p, p', id := s.peers[x], s'.peers[x], cl.h.hash(e);
      && Kept(p.node, p'.node, id) && QueuesOnce(cl, x, p.node, p'.node, e)
      && BallotsOk(cl, u, x, p'.node.ballots, hist)
      && (p'.proposing == p.proposing || p'.proposing.None?) && (p'.committing == p.committing || p'.committing.None?)
      && (AllHave(cl, s, e)
          || (p'.node.cch == p.node.cch
              && (id in p'.node.ballots && HasCommit(p'.node.ballots[id]) ==>
                    id in p.node.ballots && HasCommit(p.node.ballots[id]))))
    ensures BallotsStay(s, s') && PeerCovered(cl, s', x, s'.peers[x])
  {
    var p, p' := s.peers[x], s'.peers[x];
    assert PeerCovered(cl, s, x, p);
    assert BallotsStay(s, s');
    BallotsCoveredAfter(cl, u, s, x, p.node, p'.node, e, hist);
    CchCoveredAfter(cl, s, x, p.node, p'.node, e);
    PchCoveredAfter(cl, s, s', x, p.node, p'.node, e);
    PeerCoveredMonotone(cl, s, s', x, p'.(node := p'.node.(pch := [])));
  }

  // ---- steps

  /** A history in which `x` may be taken to have opened a ballot and voted for `e`. */
  ghost function Allowing(hist: Hist, x: Host, e: Entry): Hist {
    Hist(hist.balloted + iset{(x, e)}, hist.voted + iset{(x, e)})
  }

  lemma HandleCovered(cl: Cluster, u: iset<Entry>, s: Sys, s': Sys, x: Host, phase: Phase, e: Entry, opts: Options,
                      hist: Hist)
    requires ValidCluster(cl, u) && Safe(cl, u, s, hist) && Covered(cl, s) && x in s.peers
    requires e in u && opts.peers == cl.peers(e.key) && CanHandle(cl, x, s.peers[x].node, phase, e, opts)
    requires phase.Committing? ==>
               && (opts.peers[opts.sourceIndex] == x || (opts.peers[opts.sourceIndex], e) in hist.voted)
               && AllHave(cl, s, e)
    requires s'.peers == s.peers[x := s.peers[x].(node := Handle(cl, x, s.peers[x].node, phase, e, opts).0)]
    ensures BallotsStay(s, s') && PeerCovered(cl, s', x, s'.peers[x])
    ensures phase.Proposing? && Handle(cl, x, s.peers[x].node, phase, e, opts).1.None? ==> HasBallot(cl, s', x, e)
  {
    var n := s.peers[x].node;
    var all := Allowing(hist, x, e);
    assert PeerOk(cl, u, x, s.peers[x], hist);
    NodeOkMonotone(cl, u, x, n, hist, all);
    HandleKeeps(cl, u, x, n, phase, e, opts, all);
    if phase.Proposing? {
      ProposeFrame(ConfOf(cl, x), n, e, opts);
      ProposeKept(cl, u, x, n, e, opts, all);
    } else {
      CommitKept(cl, u, x, n, e, opts, all);
    }
    hide Propose, Commit;
    NodeStepCovered(cl, u, s, s', x, e, all);
  }

  /** The end of a round: the own commit vote is cast only when all peers have accepted the proposal. */
  lemma EndCovered(cl: Cluster, u: iset<Entry>, s: Sys, s': Sys, x: Host, phase: Phase, err: Option<Error>, hist: Hist)
    requires ValidCluster(cl, u) && Safe(cl, u, s, hist) && Covered(cl, s) && x in s.peers
    requires CanEnd(cl, x, s.peers[x], phase, err)
    requires s'.peers == s.peers[x := EndRound(cl, x, s.peers[x], phase, err)]
    requires phase.Proposing? && err.None? ==> AllHave(cl, s, s.peers[x].proposing.value.req.entry)
    ensures BallotsStay(s, s') && PeerCovered(cl, s', x, s'.peers[x])
  {
    var p := s.peers[x];
    var req := RoundOf(p, phase).value.req;
    var e, id := req.entry, cl.h.hash(req.entry);
    var all := Allowing(hist, x, e);
    assert PeerOk(cl, u, x, p, hist);
    NodeOkMonotone(cl, u, x, p.node, hist, all);
    EndRoundKeeps(cl, u, x, p, phase, err, all);
    EndKept(cl, u, x, p, phase, err, all);
    hide EndRound;
    NodeStepCovered(cl, u, s, s', x, e, all);
  }

  lemma EndKept(cl: Cluster, u: iset<Entry>, x: Host, p: Peer, phase: Phase, err: Option<Error>, hist: Hist)
    requires ValidCluster(cl, u) && PeerOk(cl, u, x, p, hist) && CanEnd(cl, x, p, phase, err)
    requires (x, RoundOf(p, phase).value.req.entry) in hist.voted
    ensures
      var e, p' := RoundOf(p, phase).value.req.entry, EndRound(cl, x, p, phase, err);
      var id := cl.h.hash(e);
      && Kept(p.node, p'.node, id) && QueuesOnce(cl, x, p.node, p'.node, e)
      && p' == SetRound(p, phase, None).(node := p'.node)
      && ((phase.Proposing? && err.None?)
          || (p'.node.cch == p.node.cch
              && (id in p'.node.ballots && HasCommit(p'.node.ballots[id]) ==>
                    id in p.node.ballots && HasCommit(p.node.ballots[id]))))
  {
    var req := RoundOf(p, phase).value.req;
    if phase.Proposing? && err.None? {
      CommitKept(cl, u, x, p.node, req.entry, req.opts, hist);
      var (n, err') := Commit(ConfOf(cl, x), p.node, req.entry, req.opts);
      hide Commit;
      ClosedKept(cl, x, p.node, n, err', req.entry);
    } else {
      hide Commit;
      NothingKept(cl, x, p.node, req.entry);
      ClosedKept(cl, x, p.node, p.node, err, req.entry);
    }
    hide Kept, QueuesOnce;
  }

  lemma NothingKept(cl: Cluster, x: Host, n: Node, e: Entry)
    ensures Kept(n, n, cl.h.hash(e)) && QueuesOnce(cl, x, n, n, e)
  {
  }

  lemma ClosedKept(cl: Cluster, x: Host, n: Node, n': Node, err: Option<Error>, e: Entry)
    requires Kept(n, n', cl.h.hash(e)) && QueuesOnce(cl, x, n, n', e)
    ensures Kept(n, CloseBallot(n', cl.h.hash(e), err), cl.h.hash(e))
    ensures QueuesOnce(cl, x, n, CloseBallot(n', cl.h.hash(e), err), e)
  {
    var n2 := CloseBallot(n', cl.h.hash(e), err);
    assert forall j :: j in n'.ballots ==> j in n2.ballots && n2.ballots[j].committed == n'.ballots[j].committed
                                           && n2.ballots[j].entry == n'.ballots[j].entry;
  }

  lemma StartCovered(cl: Cluster, u: iset<Entry>, s: Sys, s': Sys, x: Host, phase: Phase, hist: Hist)
    requires ValidCluster(cl, u) && Safe(cl, u, s, hist) && Covered(cl, s) && x in s.peers
    requires QueueOf(s.peers[x].node, phase) != []
    requires
      var (p, out) := StartRound(cl, s.peers[x], phase, x);
      s' == Sys(s.peers[x := p], s.net + out)
    ensures Covered(cl, s') && BallotsStay(s, s')
  {
    var p, p' := s.peers[x], s'.peers[x];
    assert PeerOk(cl, u, x, p, hist);
    assert PeerCovered(cl, s, x, p);
    StartedCovered(cl, u, s, x, p, phase);
    assert p'.node.ballots == p.node.ballots;
    hide *;
    QuietCovered(cl, s, s', x);
  }

  lemma StartedCovered(cl: Cluster, u: iset<Entry>, s: Sys, x: Host, p: Peer, phase: Phase)
    requires PeerCovered(cl, s, x, p) && QueueOf(p.node, phase) != [] && ReqOk(cl, u, x, QueueOf(p.node, phase)[0])
    requires x in s.peers && s.peers[x] == p
    ensures
      var (p', out) := StartRound(cl, p, phase, x);
      && PeerCovered(cl, s, x, p')
      && forall m :: m in out ==> MsgCovered(cl, s, m)
  {
    var req := QueueOf(p.node, phase)[0];
    if phase.Committing? {
      assert AllHave(cl, s, req.entry);
    }
  }

  lemma ReceiveCovered(cl: Cluster, u: iset<Entry>, s: Sys, m: Msg, hist: Hist)
    requires ValidCluster(cl, u) && Safe(cl, u, s, hist) && Covered(cl, s) && Enabled(cl, u, s, Receive(m))
    ensures
      var s' := Next(cl, u, s, Receive(m));
      Covered(cl, s') && BallotsStay(s, s')
  {
    var x, s' := m.to, Next(cl, u, s, Receive(m));
    var p := s.peers[x];
    assert PeerCovered(cl, s, x, p) && MsgCovered(cl, s, m);
    assert s' == Sys(s.peers[x := ReceiveReply(cl, p, m)], s.net - {m});
    hide Next, Safe, Covered, PeerCovered, MsgCovered;
    if Awaited(p, m) && Ends(p, m) {
      assert s'.peers == s.peers[x := EndRound(cl, x, p, m.phase, m.err)];
      hide ReceiveReply, EndRound;
      EndedCovered(cl, u, s, s', m, hist);
    } else {
      assert s'.peers[x].node == p.node;
      if Awaited(p, m) {
        AwaitingCovered(cl, s, x, p, m);
      }
      hide ReceiveReply;
      QuietCovered(cl, s, s', x);
    }
  }

  lemma EndedCovered(cl: Cluster, u: iset<Entry>, s: Sys, s': Sys, m: Msg, hist: Hist)
    requires ValidCluster(cl, u) && Safe(cl, u, s, hist) && Covered(cl, s) && m in s.net && m.Reply? && m.to in s.peers
    requires Awaited(s.peers[m.to], m) && Ends(s.peers[m.to], m) && CanEnd(cl, m.to, s.peers[m.to], m.phase, m.err)
    requires s' == Sys(s.peers[m.to := EndRound(cl, m.to, s.peers[m.to], m.phase, m.err)], s.net - {m})
    ensures Covered(cl, s') && BallotsStay(s, s')
  {
    var x, p := m.to, s.peers[m.to];
    hide EndRound, Safe, HasBallot, ValidCluster, CanEnd;
    assert PeerCovered(cl, s, x, p) && MsgCovered(cl, s, m);
    var r := RoundOf(p, m.phase).value;
    if m.phase.Proposing? && m.err.None? {
      forall q | q in cl.peers(r.req.entry.key)
        ensures HasBallot(cl, s, q, r.req.entry)
      {
        assert q in r.waiting || HasBallot(cl, s, q, r.req.entry);
      }
    }
    EndCovered(cl, u, s, s', x, m.phase, m.err, hist);
    CoveredAfter(cl, s, s', x);
  }

  lemma AwaitingCovered(cl: Cluster, s: Sys, x: Host, p: Peer, m: Msg)
    requires PeerCovered(cl, s, x, p) && MsgCovered(cl, s, m) && m.Reply? && Awaited(p, m) && !Ends(p, m)
    ensures PeerCovered(cl, s, x, ReceiveReply(cl, p, m))
  {
    var r := RoundOf(p, m.phase).value;
    if m.phase.Proposing? {
      forall q | q in cl.peers(r.req.entry.key)
        ensures q in r.waiting - {m.from} || HasBallot(cl, s, q, r.req.entry)
      {
        assert q in r.waiting || HasBallot(cl, s, q, r.req.entry);
      }
    }
  }

  lemma HandledCovered(cl: Cluster, u: iset<Entry>, s: Sys, s': Sys, m: Msg, hist: Hist)
    requires ValidCluster(cl, u) && Safe(cl, u, s, hist) && Covered(cl, s) && m in s.net && m.Request?
             && m.to in s.peers
    requires CanHandle(cl, m.to, s.peers[m.to].node, m.phase, m.entry, m.opts)
    requires
      var (n, err) := Handle(cl, m.to, s.peers[m.to].node, m.phase, m.entry, m.opts);
      && s'.peers == s.peers[m.to := s.peers[m.to].(node := n)]
      && s'.net == s.net - {m} + {Reply(m.phase, m.to, m.from, m.no, m.entry, err)}
    ensures Covered(cl, s') && BallotsStay(s, s')
  {
    hide Handle, CanHandle, ValidCluster;
    assert MsgOk(cl, u, m, hist) && MsgCovered(cl, s, m);
    hide Safe;
    HandleCovered(cl, u, s, s', m.to, m.phase, m.entry, m.opts, hist);
    hide PeerCovered;
    CoveredAfter(cl, s, s', m.to);
  }

  lemma DeliverCovered(cl: Cluster, u: iset<Entry>, s: Sys, m: Msg, hist: Hist)
    requires ValidCluster(cl, u) && Safe(cl, u, s, hist) && Covered(cl, s) && Enabled(cl, u, s, Deliver(m))
    ensures
      var s' := Next(cl, u, s, Deliver(m));
      Covered(cl, s') && BallotsStay(s, s')
  {
    hide Handle, Safe, Covered, ValidCluster, BallotsStay;
    HandledCovered(cl, u, s, Next(cl, u, s, Deliver(m)), m, hist);
  }

  lemma ClientCovered(cl: Cluster, u: iset<Entry>, s: Sys, l: Label, hist: Hist)
    requires ValidCluster(cl, u) && Safe(cl, u, s, hist) && Covered(cl, s) && l.ClientPropose? && Enabled(cl, u, s, l)
    ensures
      var s' := Next(cl, u, s, l);
      Covered(cl, s') && BallotsStay(s, s')
  {
    var s' := Next(cl, u, s, l);
    HandleCovered(cl, u, s, s', l.at, Proposing, l.entry, OptsOf(cl, l.entry, l.source), hist);
    hide Handle;
    CoveredAfter(cl, s, s', l.at);
  }

  lemma FailCovered(cl: Cluster, u: iset<Entry>, s: Sys, l: Label, hist: Hist)
    requires ValidCluster(cl, u) && Safe(cl, u, s, hist) && Covered(cl, s) && l.Fail? && Enabled(cl, u, s, l)
    ensures
      var s' := Next(cl, u, s, l);
      Covered(cl, s') && BallotsStay(s, s')
  {
    var s' := Next(cl, u, s, l);
    EndCovered(cl, u, s, s', l.at, l.phase, Some(ErrTransport), hist);
    hide EndRound;
    CoveredAfter(cl, s, s', l.at);
  }

  lemma OtherCovered(cl: Cluster, u: iset<Entry>, s: Sys, l: Label)
    requires Covered(cl, s) && Enabled(cl, u, s, l) && (l.Lose? || l.Expire? || l.Pull?)
    ensures
      var s' := Next(cl, u, s, l);
      Covered(cl, s') && BallotsStay(s, s')
  {
    var s' := Next(cl, u, s, l);
    assert BallotsStay(s, s');
    if l.Lose? {
      forall x | x in s'.peers
        ensures PeerCovered(cl, s', x, s'.peers[x])
      {
        PeerCoveredMonotone(cl, s, s', x, s.peers[x]);
      }
      forall m | m in s'.net
        ensures MsgCovered(cl, s', m)
      {
        MsgCoveredMonotone(cl, s, s', m);
      }
    } else {
      assert PeerCovered(cl, s, l.at, s.peers[l.at]);
      assert BallotsCovered(cl, s, s'.peers[l.at].node.ballots);
      PeerCoveredMonotone(cl, s, s', l.at, s'.peers[l.at]);
      CoveredAfter(cl, s, s', l.at);
    }
  }

  lemma StepCovered(cl: Cluster, u: iset<Entry>, s: Sys, l: Label, hist: Hist)
    requires ValidCluster(cl, u) && Safe(cl, u, s, hist) && Covered(cl, s) && Enabled(cl, u, s, l) && DropsNoBallot(l)
    ensures Covered(cl, Next(cl, u, s, l)) && BallotsStay(s, Next(cl, u, s, l))
  {
    if l.Start? {
      StartCovered(cl, u, s, Next(cl, u, s, l), l.at, l.phase, hist);
    } else {
      assert !l.ReapBallots? && !l.Crash?;
      hide *;
      match l {
        case ClientPropose(_, _, _) => ClientCovered(cl, u, s, l, hist);
        case Deliver(m) => DeliverCovered(cl, u, s, m, hist);
        case Receive(m) => ReceiveCovered(cl, u, s, m, hist);
        case Fail(_, _) => FailCovered(cl, u, s, l, hist);
        case Lose(_) => OtherCovered(cl, u, s, l);
        case Expire(_, _) => OtherCovered(cl, u, s, l);
        case Pull(_, _, _, _) => OtherCovered(cl, u, s, l);
      }
    }
  }

  ghost predicate NothingDropped(labels: seq<Label>) {
    forall k :: 0 <= k < |labels| ==> DropsNoBallot(labels[k])
  }

  lemma {:induction false} RunIsCovered(cl: Cluster, u: iset<Entry>, states: seq<Sys>, labels: seq<Label>, k: nat)
    requires ValidCluster(cl, u) && Run(cl, u, states, labels) && NothingDropped(labels) && k < |states|
    ensures Covered(cl, states[k])
  {
    if k > 0 {
      RunIsCovered(cl, u, states, labels, k - 1);
      RunIsSafe(cl, u, states, labels, k - 1);
      StepCovered(cl, u, states[k - 1], labels[k - 1], HistoryOf(cl, states, k - 1));
    }
  }

  /** While no ballot is reaped and no node restarts, whatever times out or is rejected: a commit request in flight
      finds a ballot at every peer, so handling it never reports that there is none. */
  lemma CommitNeverOutrunsProposal(cl: Cluster, u: iset<Entry>, states: seq<Sys>, labels: seq<Label>, k: nat, m: Msg)
    requires ValidCluster(cl, u) && Run(cl, u, states, labels) && NothingDropped(labels) && k < |states|
    requires m in states[k].net && m.Request? && m.phase.Committing?
    ensures AllHave(cl, states[k], m.entry)
    ensures HasBallot(cl, states[k], m.to, m.entry)
  {
    RunIsCovered(cl, u, states, labels, k);
    RunIsSafe(cl, u, states, labels, k);
    assert MsgCovered(cl, states[k], m);
    assert MsgOk(cl, u, m, HistoryOf(cl, states, k));
  }

  // ---- how often a ballot is broadcast

  /** A request for entry id `id` is put on a queue of `x`. */
  ghost predicate Queues(cl: Cluster, s: Sys, s': Sys, x: Host, phase: Phase, id: Id) {
    && x in s.peers && x in s'.peers
    && var q, q' := QueueOf(s.peers[x].node, phase), QueueOf(s'.peers[x].node, phase);
    |q'| > |q| && cl.h.hash(q'[|q'| - 1].entry) == id
  }

  /** The event that comes with the broadcast of a phase: opening the ballot, or casting the own commit vote. */
  ghost predicate Entered(cl: Cluster, s: Sys, x: Host, phase: Phase, id: Id) {
    && x in s.peers && id in s.peers[x].node.ballots
    && (phase.Committing? ==> OwnCommit(cl, x, s.peers[x].node.ballots[id]))
  }

  lemma HandleEnters(cl: Cluster, u: iset<Entry>, x: Host, n: Node, phase: Phase, e: Entry, opts: Options, hist: Hist)
    requires ValidCluster(cl, u) && NodeOk(cl, u, x, n, hist)
    requires e in u && opts.peers == cl.peers(e.key) && CanHandle(cl, x, n, phase, e, opts)
    ensures
      var n' := Handle(cl, x, n, phase, e, opts).0;
      Kept(n, n', cl.h.hash(e)) && QueuesOnce(cl, x, n, n', e)
  {
    var all := Allowing(hist, x, e);
    NodeOkMonotone(cl, u, x, n, hist, all);
    if phase.Proposing? {
      ProposeKept(cl, u, x, n, e, opts, all);
    } else {
      CommitKept(cl, u, x, n, e, opts, all);
    }
  }

  /** Steps that handle something, or end a round. */
  predicate Acts(s: Sys, l: Label) {
    || l.ClientPropose? || l.Deliver? || l.Fail?
    || (l.Receive? && l.m.to in s.peers && Awaited(s.peers[l.m.to], l.m) && Ends(s.peers[l.m.to], l.m))
  }

  /** The node of such a step. */
  lemma ActingNode(cl: Cluster, u: iset<Entry>, s: Sys, l: Label, hist: Hist) returns (e: Entry)
    requires ValidCluster(cl, u) && Safe(cl, u, s, hist) && Enabled(cl, u, s, l)
    requires Acts(s, l)
    ensures e in u
    ensures
      var x, s' := Actor(l).value, Next(cl, u, s, l);
      && x in s.peers && x in s'.peers && s'.peers == s.peers[x := s'.peers[x]]
      && Kept(s.peers[x].node, s'.peers[x].node, cl.h.hash(e))
      && QueuesOnce(cl, x, s.peers[x].node, s'.peers[x].node, e)
  {
    var x := Actor(l).value;
    assert PeerOk(cl, u, x, s.peers[x], hist);
    match l {
      case ClientPropose(_, entry, source) =>
        e := entry;
        HandleEnters(cl, u, x, s.peers[x].node, Proposing, e, OptsOf(cl, e, source), hist);
      case Deliver(m) =>
        e := m.entry;
        assert MsgOk(cl, u, m, hist);
        HandleEnters(cl, u, x, s.peers[x].node, m.phase, e, m.opts, hist);
      case Receive(m) =>
        e := m.entry;
        EndEnters(cl, u, x, s.peers[x], m.phase, m.err, hist);
      case Fail(phase, _) =>
        e := RoundOf(s.peers[x], phase).value.req.entry;
        EndEnters(cl, u, x, s.peers[x], phase, Some(ErrTransport), hist);
    }
  }

  lemma EndEnters(cl: Cluster, u: iset<Entry>, x: Host, p: Peer, phase: Phase, err: Option<Error>, hist: Hist)
    requires ValidCluster(cl, u) && PeerOk(cl, u, x, p, hist) && CanEnd(cl, x, p, phase, err)
    ensures
      var e, p' := RoundOf(p, phase).value.req.entry, EndRound(cl, x, p, phase, err);
      Kept(p.node, p'.node, cl.h.hash(e)) && QueuesOnce(cl, x, p.node, p'.node, e)
  {
    var all := Allowing(hist, x, RoundOf(p, phase).value.req.entry);
    NodeOkMonotone(cl, u, x, p.node, hist, all);
    EndKept(cl, u, x, p, phase, err, all);
  }

  /** What a step must have found, and leaves, if it queues a request; and what no step takes back. */
  lemma StepEnters(cl: Cluster, u: iset<Entry>, s: Sys, l: Label, hist: Hist, x: Host, phase: Phase, id: Id)
    requires ValidCluster(cl, u) && Safe(cl, u, s, hist) && Enabled(cl, u, s, l) && DropsNoBallot(l)
    ensures Entered(cl, s, x, phase, id) ==> Entered(cl, Next(cl, u, s, l), x, phase, id)
    ensures Queues(cl, s, Next(cl, u, s, l), x, phase, id) ==>
              !Entered(cl, s, x, phase, id) && Entered(cl, Next(cl, u, s, l), x, phase, id)
  {
    if Acts(s, l) {
      var e := ActingNode(cl, u, s, l, hist);
      ActorEnters(cl, s, Next(cl, u, s, l), Actor(l).value, e, x, phase, id);
    } else {
      StepIdle(cl, u, s, l, x, phase, id);
    }
  }

  lemma ActorEnters(cl: Cluster, s: Sys, s': Sys, at: Host, e: Entry, x: Host, phase: Phase, id: Id)
    requires at in s.peers && at in s'.peers && s'.peers == s.peers[at := s'.peers[at]]
    requires Kept(s.peers[at].node, s'.peers[at].node, cl.h.hash(e))
    requires QueuesOnce(cl, at, s.peers[at].node, s'.peers[at].node, e)
    ensures Entered(cl, s, x, phase, id) ==> Entered(cl, s', x, phase, id)
    ensures Queues(cl, s, s', x, phase, id) ==> !Entered(cl, s, x, phase, id) && Entered(cl, s', x, phase, id)
  {
    if x == at && Entered(cl, s, x, phase, id) && phase.Committing? {
      OwnCommitKept(cl, x, s.peers[x].node.ballots[id], s'.peers[x].node.ballots[id]);
    }
  }

  lemma StepIdle(cl: Cluster, u: iset<Entry>, s: Sys, l: Label, x: Host, phase: Phase, id: Id)
    requires Enabled(cl, u, s, l) && DropsNoBallot(l)
    requires !Acts(s, l)
    ensures Entered(cl, s, x, phase, id) ==> Entered(cl, Next(cl, u, s, l), x, phase, id)
    ensures !Queues(cl, s, Next(cl, u, s, l), x, phase, id)
  {
  }

  lemma {:induction false} StaysEntered(cl: Cluster, u: iset<Entry>, states: seq<Sys>, labels: seq<Label>, j: nat,
                                        k: nat, x: Host, phase: Phase, id: Id)
    requires ValidCluster(cl, u) && Run(cl, u, states, labels) && NothingDropped(labels)
    requires j <= k < |states| == |labels| + 1
    requires Entered(cl, states[j], x, phase, id)
    ensures Entered(cl, states[k], x, phase, id)
  {
    hide *;
    if j < k {
      StaysEntered(cl, u, states, labels, j, k - 1, x, phase, id);
      RunIsSafe(cl, u, states, labels, k - 1);
      StepOfRun(cl, u, states, labels, k - 1);
      StepEnters(cl, u, states[k - 1], labels[k - 1], HistoryOf(cl, states, k - 1), x, phase, id);
    }
  }

  lemma StepOfRun(cl: Cluster, u: iset<Entry>, states: seq<Sys>, labels: seq<Label>, k: nat)
    requires Run(cl, u, states, labels) && NothingDropped(labels)
    ensures |states| == |labels| + 1
    ensures k < |labels| ==>
              Enabled(cl, u, states[k], labels[k]) && states[k + 1] == Next(cl, u, states[k], labels[k])
              && DropsNoBallot(labels[k])
  {
    hide Next, Enabled;
  }

  /** While no ballot is reaped and no node restarts, each ballot is queued for broadcast at most once per phase. */
  lemma OneBroadcastPerPhase(cl: Cluster, u: iset<Entry>, states: seq<Sys>, labels: seq<Label>, j: nat, k: nat,
                             x: Host, phase: Phase, id: Id)
    requires ValidCluster(cl, u) && Run(cl, u, states, labels) && NothingDropped(labels) && j < k < |labels|
    ensures !(Queues(cl, states[j], states[j + 1], x, phase, id) && Queues(cl, states[k], states[k + 1], x, phase, id))
  {
    RunIsSafe(cl, u, states, labels, j);
    RunIsSafe(cl, u, states, labels, k);
    StepEnters(cl, u, states[j], labels[j], HistoryOf(cl, states, j), x, phase, id);
    StepEnters(cl, u, states[k], labels[k], HistoryOf(cl, states, k), x, phase, id);
    if Entered(cl, states[j + 1], x, phase, id) {
      StaysEntered(cl, u, states, labels, j + 1, k, x, phase, id);
    }
  }

  // ---- entries already in the log

  /** An entry in a node's unmarked log is refused when proposed again, whether or not its ballot is still there: no
      ballot is opened, and no heal queued, if heights are positions. */
  lemma NoBallotAfterCommit(c: Conf, u: iset<Entry>, n: Node, e: Entry, opts: Options, i: nat)
    requires Sound(c.h, u) && Callable(c, n, e, opts) && EnoughPeers(c, opts.peers) && c.host in opts.peers
    requires e.key in n.store && n.store[e.key].marker.None? && Chain(c.h, u, e.key, n.store[e.key].log)
    requires i < |n.store[e.key].log| < 0x1_0000_0000 && n.store[e.key].log[i] == e
    requires forall j :: 0 <= j < |n.store[e.key].log| ==> n.store[e.key].log[j].height == ToUint32(j + 1)
    ensures
      var (n', err) := Propose(c, n, e, opts);
      && err == Some(ErrPreviousHash)
      && n'.ballots.Keys == n.ballots.Keys && n' == n.(ballots := n'.ballots)
      && forall id :: id in n.ballots ==>
           n'.ballots[id] == n.ballots[id]
           || (id == c.h.hash(e) && n'.ballots[id] == CloseWith(n.ballots[id], Some(ErrPreviousHash)))
  {
    var log := n.store[e.key].log;
    assert log[..|log|] == log;
    FollowsOnlyItsPrefix(c.h, u, e.key, log, log, i);
    assert |log[..i]| < |log|;
    assert e.height <= log[|log| - 1].height;
  }
}
