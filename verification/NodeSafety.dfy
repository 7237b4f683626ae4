/** What every handler of a node keeps, and when it lets the log grow. */
module NodeSafety {
  import opened HexTypes
  import opened Chains
  import opened StoreSpec
  import opened Ballots
  import opened Nodes
  import opened Clusters

  /** What has happened so far: who opened a ballot for which entry, and who cast its own commit vote for it. */
  datatype Hist = Hist(balloted: iset<(Host, Entry)>, voted: iset<(Host, Entry)>)

  ghost predicate Within(a: Hist, b: Hist) {
    a.balloted <= b.balloted && a.voted <= b.voted
  }

  ghost predicate BallotOk(cl: Cluster, u: iset<Entry>, x: Host, id: Id, b: BallotState, hist: Hist) {
    && Sane(b) && b.id == id && b.entry in u && cl.h.hash(b.entry) == id
    && var ps := cl.peers(b.entry.key);
    && |b.proposed| == |b.committed| == |ps|
    && (x, b.entry) in hist.balloted
    && (forall i :: 0 <= i < |ps| && b.committed[i] != "" ==> (ps[i], b.entry) in hist.voted)
    && OwnFirst(ps, x, b)
  }

  /** The node's own vote is the first one in either tally. */
  ghost predicate OwnFirst(ps: seq<Host>, x: Host, b: BallotState)
    requires |b.proposed| == |b.committed| == |ps|
  {
    && x in ps
    && (forall i :: 0 <= i < |ps| && ps[i] == x ==>
          && b.proposed[i] != ""
          && (b.committed[i] == "" ==> forall j :: 0 <= j < |ps| ==> b.committed[j] == ""))
  }

  ghost predicate ReqOk(cl: Cluster, u: iset<Entry>, x: Host, r: Req) {
    && r.entry in u && r.opts.peers == cl.peers(r.entry.key)
    && 0 <= r.opts.sourceIndex < |r.opts.peers| && r.opts.peers[r.opts.sourceIndex] == x
  }

  ghost predicate BallotsOk(cl: Cluster, u: iset<Entry>, x: Host, ballots: map<Id, BallotState>, hist: Hist) {
    forall id :: id in ballots ==> BallotOk(cl, u, x, id, ballots[id], hist)
  }

  ghost predicate ReqsOk(cl: Cluster, u: iset<Entry>, x: Host, reqs: seq<Req>) {
    forall i :: 0 <= i < |reqs| ==> ReqOk(cl, u, x, reqs[i])
  }

  ghost predicate AllVoted(x: Host, reqs: seq<Req>, hist: Hist) {
    forall i :: 0 <= i < |reqs| ==> (x, reqs[i].entry) in hist.voted
  }

  ghost predicate StoreOk(cl: Cluster, u: iset<Entry>, v: View) {
    forall k :: k in v ==> Chain(cl.h, u, k, v[k].log)
  }

  ghost predicate NodeOk(cl: Cluster, u: iset<Entry>, x: Host, n: Node, hist: Hist) {
    && BallotsOk(cl, u, x, n.ballots, hist)
    && ReqsOk(cl, u, x, n.pch)
    && ReqsOk(cl, u, x, n.cch) && AllVoted(x, n.cch, hist)
    && StoreOk(cl, u, n.store)
  }

  /** The log of `k` got one more entry, which follows the last one, and which every peer has voted to commit. */
  ghost predicate VotedGrowth(cl: Cluster, u: iset<Entry>, log: seq<Entry>, log': seq<Entry>, k: Key, hist: Hist) {
    && |log'| == |log| + 1 && log' == log + [log'[|log|]]
    && var e := log'[|log|];
    && e in u && e.key == k && e.previous == LastId(cl.h, log)
    && forall p :: p in cl.peers(k) ==> (p, e) in hist.voted
  }

  ghost predicate Grew(cl: Cluster, u: iset<Entry>, v: View, v': View, hist: Hist) {
    forall k :: LogOf(v', k) == LogOf(v, k) || VotedGrowth(cl, u, LogOf(v, k), LogOf(v', k), k, hist)
  }

  /** The step from `n` to `n'` opens a ballot for `e`, which comes right after the last entry. */
  ghost predicate Opens(h: Hashing, n: Node, n': Node, e: Entry) {
    var id := h.hash(e);
    id !in n.ballots && id in n'.ballots && n'.ballots[id].entry == e && e.previous == LastId(h, LogOf(n.store, e.key))
  }

  ghost predicate OwnCommit(cl: Cluster, x: Host, b: BallotState) {
    var ps := cl.peers(b.entry.key);
    |b.committed| == |ps| && x in ps && forall i :: 0 <= i < |ps| && ps[i] == x ==> b.committed[i] != ""
  }

  /** The step from `n` to `n'` casts the own commit vote of `x` for `e`. */
  ghost predicate Votes(cl: Cluster, x: Host, n: Node, n': Node, e: Entry) {
    var id := cl.h.hash(e);
    && id in n'.ballots && n'.ballots[id].entry == e && OwnCommit(cl, x, n'.ballots[id])
    && !(id in n.ballots && OwnCommit(cl, x, n.ballots[id]))
  }

  lemma SelfIs(cl: Cluster, u: iset<Entry>, k: Key, x: Host, i: nat)
    requires ValidCluster(cl, u) && i < |cl.peers(k)|
    ensures cl.peers(k)[i] == x <==> SelfIndex(cl.peers(k), x) == Some(i)
  {
    assert PeersOk(cl.hosts, cl.peers(k));
  }

  lemma NodeOkMonotone(cl: Cluster, u: iset<Entry>, x: Host, n: Node, hist: Hist, hist': Hist)
    requires NodeOk(cl, u, x, n, hist) && Within(hist, hist')
    ensures NodeOk(cl, u, x, n, hist')
  {
    forall id | id in n.ballots
      ensures BallotOk(cl, u, x, id, n.ballots[id], hist')
    {
      assert BallotOk(cl, u, x, id, n.ballots[id], hist);
    }
  }

  lemma CloseKeeps(cl: Cluster, u: iset<Entry>, x: Host, n: Node, id: Id, err: Option<Error>, hist: Hist)
    requires NodeOk(cl, u, x, n, hist)
    ensures NodeOk(cl, u, x, CloseBallot(n, id, err), hist)
    ensures Grew(cl, u, n.store, CloseBallot(n, id, err).store, hist)
  {
    var n' := CloseBallot(n, id, err);
    forall id' | id' in n'.ballots
      ensures BallotOk(cl, u, x, id', n'.ballots[id'], hist)
    {
      assert BallotOk(cl, u, x, id', n.ballots[id'], hist);
    }
  }

  /** Both tallies full: everyone has voted. The append, if the log accepts the entry, is the only way a ballot lets the
      log grow. */
  lemma CheckKeeps(cl: Cluster, u: iset<Entry>, x: Host, n: Node, id: Id, hist: Hist)
    requires ValidCluster(cl, u) && NodeOk(cl, u, x, n, hist) && id in n.ballots
    requires Full(n.ballots[id].proposed) || Full(n.ballots[id].committed)
    ensures
      var n' := CheckVotesAndCommit(cl.h, n, id);
      && NodeOk(cl, u, x, n', hist) && Grew(cl, u, n.store, n'.store, hist)
  {
    var b := n.ballots[id];
    assert BallotOk(cl, u, x, id, b, hist);
    if CountVotes(b.proposed) == CountVotes(b.committed) {
      var (store, err) := AppendView(cl.h, n.store, b.entry);
      CloseKeeps(cl, u, x, n, id, err, hist);
      if err.None? {
        var k, ps := b.entry.key, cl.peers(b.entry.key);
        CountBounds(b.committed);
        forall p | p in ps
          ensures (p, b.entry) in hist.voted
        {
          var i :| 0 <= i < |ps| && ps[i] == p;
          assert b.committed[i] != "";
        }
        ChainAppend(cl.h, u, k, n.store[k].log, b.entry);
        assert VotedGrowth(cl, u, LogOf(n.store, k), LogOf(store, k), k, hist);
        assert StoreOk(cl, u, store) && Grew(cl, u, n.store, store, hist);
        hide StoreOk, Grew, BallotsOk, ReqsOk, AllVoted, CloseBallot, AppendView, CountVotes;
      }
    }
  }

  /** A request for the entry to open a ballot on, and the node's own first vote. */
  function Opened(cl: Cluster, n: Node, e: Entry, self: nat, prevHeight: nat): Node
    requires self < |cl.peers(e.key)|
  {
    var id, ps := cl.h.hash(e), cl.peers(e.key);
    var b := CastPropose(NewBallot(id, e, |ps|), id, ps[self], self).0;
    QueuePropose(n.(ballots := n.ballots[id := b]), prevHeight, e, Options(self, ps))
  }

  lemma FirstVote(id: Id, e: Entry, ps: seq<Host>, self: nat)
    requires self < |ps| && ps[self] != ""
    ensures
      var (b, v) := CastPropose(NewBallot(id, e, |ps|), id, ps[self], self);
      && Sane(b) && v == Vote(1, true, None) && b.timer && !b.closed
      && b == NewBallot(id, e, |ps|).(proposed := NoVotes(|ps|)[self := ps[self]], timer := true)
      && CountVotes(b.proposed) == 1 && CountVotes(b.committed) == 0
  {
    CountBounds(NoVotes(|ps|));
    CountOneMore(NoVotes(|ps|), self, ps[self]);
  }

  lemma OpenedKeeps(cl: Cluster, u: iset<Entry>, x: Host, n: Node, e: Entry, self: nat, prevHeight: nat, hist: Hist)
    requires ValidCluster(cl, u) && NodeOk(cl, u, x, n, hist)
    requires e in u && self < |cl.peers(e.key)| && cl.peers(e.key)[self] == x && (x, e) in hist.balloted
    ensures NodeOk(cl, u, x, Opened(cl, n, e, self, prevHeight), hist)
    ensures forall k :: LogOf(Opened(cl, n, e, self, prevHeight).store, k) == LogOf(n.store, k)
  {
    var id, ps, n' := cl.h.hash(e), cl.peers(e.key), Opened(cl, n, e, self, prevHeight);
    assert PeersOk(cl.hosts, ps);
    FirstVote(id, e, ps, self);
    CountBounds(n'.ballots[id].committed);
    assert BallotOk(cl, u, x, id, n'.ballots[id], hist);
    forall id' | id' in n'.ballots && id' != id
      ensures BallotOk(cl, u, x, id', n'.ballots[id'], hist)
    {
      assert BallotOk(cl, u, x, id', n.ballots[id'], hist);
    }
  }

  lemma SetBallotKeeps(cl: Cluster, u: iset<Entry>, x: Host, n: Node, b: BallotState, hist: Hist)
    requires NodeOk(cl, u, x, n, hist) && BallotOk(cl, u, x, b.id, b, hist)
    ensures NodeOk(cl, u, x, SetBallot(n, b), hist)
  {
  }

  lemma CheckFrame(h: Hashing, n: Node, id: Id)
    requires id in n.ballots
    ensures
      var n' := CheckVotesAndCommit(h, n, id);
      && n'.pch == n.pch && n'.cch == n.cch && n'.ballots.Keys == n.ballots.Keys
      && forall id' :: id' in n.ballots ==>
           && n'.ballots[id'].entry == n.ballots[id'].entry
           && n'.ballots[id'].proposed == n.ballots[id'].proposed
           && n'.ballots[id'].committed == n.ballots[id'].committed
  {
  }

  lemma ProposalBallotOk(cl: Cluster, u: iset<Entry>, x: Host, id: Id, b: BallotState, source: nat, hist: Hist)
    requires ValidCluster(cl, u) && BallotOk(cl, u, x, id, b, hist) && source < |b.proposed|
    ensures
      var (b', v) := CastPropose(b, id, cl.peers(b.entry.key)[source], source);
      && BallotOk(cl, u, x, id, b', hist) && b'.entry == b.entry && b'.committed == b.committed
      && (v.voted ==> v.votes != 1) && (v.err.None? ==> v.votes == CountVotes(b'.proposed))
  {
    var ps := cl.peers(b.entry.key);
    assert PeersOk(cl.hosts, ps);
    VoteProposeCounts(b, id, ps[source], source);
    CountBounds(b.proposed);
  }

  /** A propose vote on a ballot that has the node's own vote. */
  lemma TakeProposalKeeps(cl: Cluster, u: iset<Entry>, x: Host, n: Node, e: Entry, self: nat, source: nat,
                          prevHeight: nat, hist: Hist)
    requires ValidCluster(cl, u) && NodeOk(cl, u, x, n, hist) && e in u && cl.h.hash(e) in n.ballots
    requires source < |cl.peers(e.key)|
    ensures n.ballots[cl.h.hash(e)].entry == e && |n.ballots[cl.h.hash(e)].proposed| == |cl.peers(e.key)|
    ensures
      var (n', err) := TakeProposal(ConfOf(cl, x), n, e, cl.peers(e.key), self, source, prevHeight);
      NodeOk(cl, u, x, n', hist) && Grew(cl, u, n.store, n'.store, hist)
  {
    var id, ps := cl.h.hash(e), cl.peers(e.key);
    var b := n.ballots[id];
    assert BallotOk(cl, u, x, id, b, hist);
    SameEntry(cl.h, u, b.entry, e);
    ProposalBallotOk(cl, u, x, id, b, source, hist);
    var (b', v) := CastPropose(b, id, ps[source], source);
    SetBallotKeeps(cl, u, x, n, b', hist);
    var n1 := SetBallot(n, b');
    if v.err.None? && v.votes != 1 && v.votes == |ps| {
      CheckKeeps(cl, u, x, n1, id, hist);
    }
  }

  /** Propose, as a whole, for an entry that comes next: the own vote if the ballot is new, then the source's vote. */
  lemma ProposeInSteps(cl: Cluster, u: iset<Entry>, x: Host, n: Node, e: Entry, opts: Options)
    requires ValidCluster(cl, u) && e in u && opts.peers == cl.peers(e.key) && Callable(ConfOf(cl, x), n, e, opts)
    requires EnoughPeers(ConfOf(cl, x), opts.peers) && SelfIndex(opts.peers, x).Some?
    requires Verify(cl.h, n.store, e).1.None?
    ensures
      var id, ps, self := cl.h.hash(e), cl.peers(e.key), SelfIndex(opts.peers, x).value;
      var source: nat := if opts.sourceIndex < 0 then self else opts.sourceIndex;
      var prevHeight := Verify(cl.h, n.store, e).0;
      var n1 := if id in n.ballots then n else Opened(cl, n, e, self, prevHeight);
      && |n1.ballots[id].proposed| == |ps|
      && Propose(ConfOf(cl, x), n, e, opts) ==
         if id !in n.ballots && source == self then (n1, None)
         else TakeProposal(ConfOf(cl, x), n1, e, ps, self, source, prevHeight)
  {
    var id, ps, self := cl.h.hash(e), cl.peers(e.key), SelfIndex(opts.peers, x).value;
    assert PeersOk(cl.hosts, ps);
    FirstVote(id, e, ps, self);
    if id !in n.ballots {
      var n0 := n.(ballots := n.ballots[id := NewBallot(id, e, |ps|)]);
      var b := CastPropose(NewBallot(id, e, |ps|), id, ps[self], self).0;
      assert n0.(ballots := n0.ballots[id := b]) == n.(ballots := n.ballots[id := b]);
    }
  }

  lemma TakeProposalFrame(c: Conf, n: Node, e: Entry, peers: seq<Host>, self: nat, source: nat, prevHeight: nat)
    requires c.h.hash(e) in n.ballots && source < |peers| == |n.ballots[c.h.hash(e)].proposed|
    ensures
      var n' := TakeProposal(c, n, e, peers, self, source, prevHeight).0;
      && n'.ballots.Keys == n.ballots.Keys && n'.cch == n.cch
      && n'.ballots[c.h.hash(e)].entry == n.ballots[c.h.hash(e)].entry
  {
    var id := c.h.hash(e);
    var n1 := n.(ballots := n.ballots[id := CastPropose(n.ballots[id], id, peers[source], source).0]);
    CheckFrame(c.h, n1, id);
  }

  /** What Propose leaves behind, whether or not the entry comes next. */
  lemma ProposeFrame(c: Conf, n: Node, e: Entry, opts: Options)
    requires Callable(c, n, e, opts)
    ensures
      var (n', err) := Propose(c, n, e, opts);
      && (err.None? ==> c.h.hash(e) in n'.ballots)
      && n.ballots.Keys <= n'.ballots.Keys <= n.ballots.Keys + {c.h.hash(e)} && n'.cch == n.cch
      && (c.h.hash(e) !in n.ballots && c.h.hash(e) in n'.ballots ==> Opens(c.h, n, n', e))
  {
    if EnoughPeers(c, opts.peers) && SelfIndex(opts.peers, c.host).Some? && Verify(c.h, n.store, e).1.None? {
      var self := SelfIndex(opts.peers, c.host).value;
      var source: nat := if opts.sourceIndex < 0 then self else opts.sourceIndex;
      var prevHeight := Verify(c.h, n.store, e).0;
      var n1 := OpenBallot(c, n, e, opts.peers, self, source, prevHeight);
      TakeProposalFrame(c, n1, e, opts.peers, self, source, prevHeight);
    }
  }

  lemma NewBallotOpens(cl: Cluster, u: iset<Entry>, x: Host, n: Node, e: Entry, opts: Options)
    requires ValidCluster(cl, u) && e in u && opts.peers == cl.peers(e.key) && Callable(ConfOf(cl, x), n, e, opts)
    requires EnoughPeers(ConfOf(cl, x), opts.peers) && SelfIndex(opts.peers, x).Some?
    requires Verify(cl.h, n.store, e).1.None? && cl.h.hash(e) !in n.ballots
    ensures Opens(cl.h, n, Propose(ConfOf(cl, x), n, e, opts).0, e)
  {
    ProposeFrame(ConfOf(cl, x), n, e, opts);
    ProposeInSteps(cl, u, x, n, e, opts);
    var self := SelfIndex(opts.peers, x).value;
    var source: nat := if opts.sourceIndex < 0 then self else opts.sourceIndex;
    if source != self {
      TakeProposalFrame(ConfOf(cl, x), Opened(cl, n, e, self, Verify(cl.h, n.store, e).0), e, opts.peers, self, source,
                        Verify(cl.h, n.store, e).0);
    }
  }

  lemma ProposeKeeps(cl: Cluster, u: iset<Entry>, x: Host, n: Node, e: Entry, opts: Options, hist: Hist)
    requires ValidCluster(cl, u) && NodeOk(cl, u, x, n, hist)
    requires e in u && opts.peers == cl.peers(e.key) && Callable(ConfOf(cl, x), n, e, opts)
    requires Opens(cl.h, n, Propose(ConfOf(cl, x), n, e, opts).0, e) ==> (x, e) in hist.balloted
    ensures
      var n' := Propose(ConfOf(cl, x), n, e, opts).0;
      NodeOk(cl, u, x, n', hist) && Grew(cl, u, n.store, n'.store, hist)
  {
    hide TakeProposal;
    if EnoughPeers(ConfOf(cl, x), opts.peers) && SelfIndex(opts.peers, x).Some? {
      var id, self := cl.h.hash(e), SelfIndex(opts.peers, x).value;
      var source: nat := if opts.sourceIndex < 0 then self else opts.sourceIndex;
      var (prevHeight, err) := Verify(cl.h, n.store, e);
      if err.Some? {
        CloseKeeps(cl, u, x, n, id, err, hist);
      } else {
        ProposeInSteps(cl, u, x, n, e, opts);
        if id in n.ballots {
          TakeProposalKeeps(cl, u, x, n, e, self, source, prevHeight, hist);
        } else {
          var n1 := Opened(cl, n, e, self, prevHeight);
          NewBallotOpens(cl, u, x, n, e, opts);
          OpenedKeeps(cl, u, x, n, e, self, prevHeight, hist);
          if source != self {
            TakeProposalKeeps(cl, u, x, n1, e, self, source, prevHeight, hist);
          }
        }
      }
    }
  }

  /** A commit vote, either the node's own or one for which its caster's own vote is on record. */
  lemma TakeCommitKeeps(cl: Cluster, u: iset<Entry>, x: Host, n: Node, id: Id, self: nat, i: nat, hist: Hist)
    requires ValidCluster(cl, u) && NodeOk(cl, u, x, n, hist) && id in n.ballots
    requires
      var ps := cl.peers(n.ballots[id].entry.key);
      && self < |ps| && ps[self] == x && i < |ps| == |n.ballots[id].committed|
      && (i != self ==> n.ballots[id].committed[self] != "" || n.ballots[id].closed)
      && (n.ballots[id].closed || n.ballots[id].committed[i] != "" || (ps[i], n.ballots[id].entry) in hist.voted)
    ensures
      var (n', err) := TakeCommit(ConfOf(cl, x), n, id, cl.peers(n.ballots[id].entry.key), self, i);
      NodeOk(cl, u, x, n', hist) && Grew(cl, u, n.store, n'.store, hist)
  {
    var b := n.ballots[id];
    var ps := cl.peers(b.entry.key);
    assert BallotOk(cl, u, x, id, b, hist);
    CommitBallotOk(cl, u, x, id, b, self, i, hist);
    var (b', v) := CastCommit(b, id, ps[i], i);
    SetBallotKeeps(cl, u, x, n, b', hist);
    var n1 := SetBallot(n, b');
    if v.err.None? && v.voted && v.votes != 1 && v.votes == |ps| {
      CheckKeeps(cl, u, x, n1, id, hist);
    }
  }

  lemma CommitBallotOk(cl: Cluster, u: iset<Entry>, x: Host, id: Id, b: BallotState, self: nat, i: nat, hist: Hist)
    requires ValidCluster(cl, u) && BallotOk(cl, u, x, id, b, hist) && i < |b.committed| && self < |b.committed|
    requires
      var ps := cl.peers(b.entry.key);
      && ps[self] == x
      && (i != self ==> b.committed[self] != "" || b.closed)
      && (b.closed || b.committed[i] != "" || (ps[i], b.entry) in hist.voted)
    ensures
      var ps := cl.peers(b.entry.key);
      var (b', v) := CastCommit(b, id, ps[i], i);
      && BallotOk(cl, u, x, id, b', hist) && b'.entry == b.entry && b'.proposed == b.proposed
      && (v.voted && v.votes == 1 ==> i == self && (x, b.entry) in hist.voted)
      && (v.err.None? ==> b'.committed[i] != "" && v.votes == CountVotes(b'.committed))
      && (forall j :: 0 <= j < |b.committed| && b.committed[j] != "" ==> b'.committed[j] != "")
  {
    var ps := cl.peers(b.entry.key);
    assert PeersOk(cl.hosts, ps);
    VoteCommitCounts(b, id, ps[i], i);
    CountBounds(b.committed);
  }

  lemma CommitKeeps(cl: Cluster, u: iset<Entry>, x: Host, n: Node, e: Entry, opts: Options, hist: Hist)
    requires ValidCluster(cl, u) && NodeOk(cl, u, x, n, hist)
    requires e in u && opts.peers == cl.peers(e.key) && Callable(ConfOf(cl, x), n, e, opts) && 0 <= opts.sourceIndex
    requires opts.peers[opts.sourceIndex] == x || (opts.peers[opts.sourceIndex], e) in hist.voted
    requires Votes(cl, x, n, Commit(ConfOf(cl, x), n, e, opts).0, e) ==> (x, e) in hist.voted
    ensures
      var (n', err) := Commit(ConfOf(cl, x), n, e, opts);
      && NodeOk(cl, u, x, n', hist) && Grew(cl, u, n.store, n'.store, hist)
      && n'.ballots.Keys == n.ballots.Keys && n'.pch == n.pch
  {
    var id, ps := cl.h.hash(e), cl.peers(e.key);
    if EnoughPeers(ConfOf(cl, x), opts.peers) && SelfIndex(opts.peers, x).Some? && id in n.ballots {
      var self := SelfIndex(opts.peers, x).value;
      var (n', err) := Commit(ConfOf(cl, x), n, e, opts);
      assert BallotOk(cl, u, x, id, n.ballots[id], hist);
      SameEntry(cl.h, u, n.ballots[id].entry, e);
      assert PeersOk(cl.hosts, ps);
      OwnVoteRecorded(cl, u, x, n, e, opts, hist);
      TakeCommitKeeps(cl, u, x, n, id, self, self, hist);
      TakeCommitSets(ConfOf(cl, x), n, id, ps, self, self);
      if self != opts.sourceIndex {
        var (n1, err1) := TakeCommit(ConfOf(cl, x), n, id, ps, self, self);
        if err1.None? {
          TakeCommitKeeps(cl, u, x, n1, id, self, opts.sourceIndex, hist);
          TakeCommitSets(ConfOf(cl, x), n1, id, ps, self, opts.sourceIndex);
          OneGrowth(cl, u, x, n, n1, n', id, self, opts.sourceIndex, hist);
        }
      }
    }
  }

  /** After Commit the own commit vote is either there, and on record, or refused. */
  lemma OwnVoteRecorded(cl: Cluster, u: iset<Entry>, x: Host, n: Node, e: Entry, opts: Options, hist: Hist)
    requires ValidCluster(cl, u) && NodeOk(cl, u, x, n, hist)
    requires e in u && opts.peers == cl.peers(e.key) && Callable(ConfOf(cl, x), n, e, opts) && 0 <= opts.sourceIndex
    requires EnoughPeers(ConfOf(cl, x), opts.peers) && SelfIndex(opts.peers, x).Some? && cl.h.hash(e) in n.ballots
    requires Votes(cl, x, n, Commit(ConfOf(cl, x), n, e, opts).0, e) ==> (x, e) in hist.voted
    ensures
      var b, self := n.ballots[cl.h.hash(e)], SelfIndex(opts.peers, x).value;
      self < |b.committed| && (b.closed || b.committed[self] != "" || (x, e) in hist.voted)
  {
    var id, ps, self := cl.h.hash(e), cl.peers(e.key), SelfIndex(opts.peers, x).value;
    var b := n.ballots[id];
    assert BallotOk(cl, u, x, id, b, hist);
    SameEntry(cl.h, u, b.entry, e);
    assert PeersOk(cl.hosts, ps);
    if !b.closed && b.committed[self] == "" {
      CommitSetsOwn(cl, u, x, n, e, opts);
      assert Votes(cl, x, n, Commit(ConfOf(cl, x), n, e, opts).0, e);
    }
  }

  /** Casting a commit vote keeps the votes already there. */
  lemma TakeCommitSets(c: Conf, n: Node, id: Id, peers: seq<Host>, self: nat, i: nat)
    requires id in n.ballots && i < |peers| == |n.ballots[id].committed| && peers[i] != "" && n.ballots[id].id == id
    ensures
      var (n', err) := TakeCommit(c, n, id, peers, self, i);
      && n'.ballots.Keys == n.ballots.Keys && n'.ballots[id].entry == n.ballots[id].entry
      && |n'.ballots[id].committed| == |peers| && n'.ballots[id].id == id && n'.pch == n.pch
      && (err.None? ==> n'.ballots[id].committed[i] != "")
      && (!n.ballots[id].closed ==> err.None?)
      && (forall j :: 0 <= j < |peers| && n.ballots[id].committed[j] != "" ==> n'.ballots[id].committed[j] != "")
  {
  }

  lemma CommitSetsOwn(cl: Cluster, u: iset<Entry>, x: Host, n: Node, e: Entry, opts: Options)
    requires ValidCluster(cl, u) && e in u && opts.peers == cl.peers(e.key)
    requires Callable(ConfOf(cl, x), n, e, opts) && 0 <= opts.sourceIndex
    requires EnoughPeers(ConfOf(cl, x), opts.peers) && SelfIndex(opts.peers, x).Some? && cl.h.hash(e) in n.ballots
    requires !n.ballots[cl.h.hash(e)].closed && n.ballots[cl.h.hash(e)].entry == e
    ensures
      var n', id := Commit(ConfOf(cl, x), n, e, opts).0, cl.h.hash(e);
      id in n'.ballots && n'.ballots[id].entry == e && OwnCommit(cl, x, n'.ballots[id])
  {
    var id, ps, self := cl.h.hash(e), cl.peers(e.key), SelfIndex(opts.peers, x).value;
    assert PeersOk(cl.hosts, ps);
    TakeCommitSets(ConfOf(cl, x), n, id, ps, self, self);
    if self != opts.sourceIndex {
      var (n1, err) := TakeCommit(ConfOf(cl, x), n, id, ps, self, self);
      TakeCommitKeepsBallots(ConfOf(cl, x), n, id, ps, self, self);
      TakeCommitSets(ConfOf(cl, x), n1, id, ps, self, opts.sourceIndex);
    }
  }

  /** Of the two votes a Commit can cast only the second can complete the tally. */
  lemma OneGrowth(cl: Cluster, u: iset<Entry>, x: Host, n: Node, n1: Node, n2: Node, id: Id, self: nat, i: nat,
                  hist: Hist)
    requires ValidCluster(cl, u) && NodeOk(cl, u, x, n, hist) && id in n.ballots
    requires
      var ps := cl.peers(n.ballots[id].entry.key);
      && self < |ps| && ps[self] == x && |ps| == |n.ballots[id].committed|
      && n1 == TakeCommit(ConfOf(cl, x), n, id, ps, self, self).0
    requires Grew(cl, u, n1.store, n2.store, hist)
    ensures forall k :: LogOf(n1.store, k) == LogOf(n.store, k)
    ensures Grew(cl, u, n.store, n2.store, hist)
  {
    var b := n.ballots[id];
    var ps := cl.peers(b.entry.key);
    assert BallotOk(cl, u, x, id, b, hist);
    assert PeersOk(cl.hosts, ps);
    VoteCommitCounts(b, id, ps[self], self);
    CountBounds(b.committed);
    assert n1.store == n.store;
  }

  /** A ballot for the peer set of its key takes any request for its entry. */
  lemma AlwaysCallable(cl: Cluster, u: iset<Entry>, x: Host, n: Node, e: Entry, source: int, hist: Hist)
    requires ValidCluster(cl, u) && NodeOk(cl, u, x, n, hist) && e in u && source < |cl.peers(e.key)|
    ensures Callable(ConfOf(cl, x), n, e, OptsOf(cl, e, source))
  {
    var id := cl.h.hash(e);
    if id in n.ballots {
      assert BallotOk(cl, u, x, id, n.ballots[id], hist);
      SameEntry(cl.h, u, n.ballots[id].entry, e);
    }
  }
}
