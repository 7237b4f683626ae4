/** What a node does with the requests it gets, as a function from its state to its state (hexalog.go,
    hexalog_utils.go). */
module Nodes {
  import opened HexTypes
  import opened Chains
  import opened KeylogIndexes
  import opened StoreSpec
  import opened Ballots

  datatype Conf = Conf(host: Host, votes: nat, h: Hashing)

  /** RequestOptions: the peer set, and the index of the voter in it. */
  datatype Options = Options(sourceIndex: int, peers: seq<Host>)

  datatype Req = Req(entry: Entry, opts: Options)

  datatype HealReq = HealReq(id: Id, entry: Entry, opts: Options)

  /** `pch`, `cch` and `hch` are the propose, commit and heal queues; `applied` is every entry that an append has handed
      over to the FSM. What the check after a restart hands over again is not in it: FsmsInRuns follows that. */
  datatype Node = Node(
    store: View, ballots: map<Id, BallotState>, pch: seq<Req>, cch: seq<Req>, hch: seq<HealReq>, applied: seq<Entry>)

  function SelfIndex(peers: seq<Host>, host: Host): (r: Option<nat>)
    ensures r.Some? ==> r.value < |peers| && peers[r.value] == host && host !in peers[..r.value]
    ensures r.None? <==> host !in peers
  {
    if peers == [] then None
    else if peers[0] == host then Some(0)
    else
      match SelfIndex(peers[1..], host)
      case None => None
      case Some(i) =>
        assert peers[..i + 1] == [peers[0]] + peers[1..][..i];
        Some(i + 1)
  }

  predicate EnoughPeers(c: Conf, peers: seq<Host>) {
    |peers| > 0 && |peers| >= c.votes
  }

  /** verifyEntry: the height of the last entry, and why the entry cannot come next, if it cannot. */
  function Verify(h: Hashing, v: View, e: Entry): (nat, Option<Error>) {
    if e.key in v && v[e.key].marker.Some? then (0, Some(ErrKeyDegraded))
    else
      var log := LogOf(v, e.key);
      (if log == [] then 0 else log[|log| - 1].height,
       if e.previous != LastId(h, log) then Some(ErrPreviousHash) else None)
  }

  function SetBallot(n: Node, b: BallotState): Node {
    n.(ballots := n.ballots[b.id := b])
  }

  /** ballotGetClose. */
  function CloseBallot(n: Node, id: Id, err: Option<Error>): Node {
    if id in n.ballots then n.(ballots := n.ballots[id := CloseWith(n.ballots[id], err)]) else n
  }

  /** NewKey, for which an existing key is no error. */
  function UpsertKey(v: View, k: Key): View {
    if k in v then v else v[k := Keyed([], None)]
  }

  /** upsertKeyAndBroadcast. */
  function QueuePropose(n: Node, prevHeight: nat, e: Entry, opts: Options): Node {
    n.(store := if prevHeight == 0 then UpsertKey(n.store, e.key) else n.store, pch := n.pch + [Req(e, opts)])
  }

  /** checkVotesAndCommit on the ballot `id`. */
  function CheckVotesAndCommit(h: Hashing, n: Node, id: Id): Node
    requires id in n.ballots
  {
    var b := n.ballots[id];
    if CountVotes(b.proposed) != CountVotes(b.committed) then n
    else
      var (store, err) := AppendView(h, n.store, b.entry);
      var n' := CloseBallot(n, id, err);
      if err.Some? then n' else n'.(store := store, applied := n.applied + [b.entry])
  }

  /** queueBroadcastOrCommit. */
  function QueueCommit(h: Hashing, n: Node, id: Id, votes: int, opts: Options): Node
    requires id in n.ballots
  {
    if votes == 1 then n.(cch := n.cch + [Req(n.ballots[id].entry, opts)])
    else if votes == |opts.peers| then CheckVotesAndCommit(h, n, id)
    else n
  }

  /** Where the votes go that Propose casts: a proposal that gets as far has to come from one of the peer set, with a
      place in the ballot if that is open. */
  predicate Proposable(c: Conf, n: Node, e: Entry, opts: Options) {
    EnoughPeers(c, opts.peers) && SelfIndex(opts.peers, c.host).Some? && Verify(c.h, n.store, e).1.None? ==>
      && opts.sourceIndex < |opts.peers|
      && (c.h.hash(e) in n.ballots ==>
            var b := n.ballots[c.h.hash(e)];
            Refusal(b, c.h.hash(e)).None? ==>
              (if opts.sourceIndex < 0 then SelfIndex(opts.peers, c.host).value else opts.sourceIndex) < |b.proposed|)
  }

  /** The same for Commit, which casts the node's own vote as well. */
  predicate Committable(c: Conf, n: Node, e: Entry, opts: Options) {
    EnoughPeers(c, opts.peers) && SelfIndex(opts.peers, c.host).Some? && c.h.hash(e) in n.ballots ==>
      var b := n.ballots[c.h.hash(e)];
      Refusal(b, c.h.hash(e)).None? ==>
        && 0 <= opts.sourceIndex < |opts.peers|
        && SelfIndex(opts.peers, c.host).value < |b.committed| && opts.sourceIndex < |b.committed|
  }

  /** What holds of all requests between peers: the source index is one of the peer set, and a ballot opened before is
      one for as many peers. */
  predicate Callable(c: Conf, n: Node, e: Entry, opts: Options) {
    && opts.sourceIndex < |opts.peers|
    && (c.h.hash(e) in n.ballots ==>
          && n.ballots[c.h.hash(e)].id == c.h.hash(e)
          && |n.ballots[c.h.hash(e)].proposed| == |n.ballots[c.h.hash(e)].committed| == |opts.peers|)
  }

  /** The part of Propose for an entry that cannot come next: heal if the entry is higher, else give up its ballot. */
  function Refuse(c: Conf, n: Node, e: Entry, opts: Options, prevHeight: nat, err: Error): Node {
    if e.height > prevHeight then n.(hch := n.hch + [HealReq(c.h.hash(e), e, opts)])
    else CloseBallot(n, c.h.hash(e), Some(err))
  }

  /** Get or create the ballot; on creation cast our own vote first, unless we are the source. */
  function OpenBallot(c: Conf, n: Node, e: Entry, peers: seq<Host>, self: nat, source: nat, prevHeight: nat): (n': Node)
    requires self < |peers|
    ensures c.h.hash(e) in n'.ballots
  {
    var id := c.h.hash(e);
    if id in n.ballots then n
    else
      var b := NewBallot(id, e, |peers|);
      if self == source then n.(ballots := n.ballots[id := b])
      else
        var (b', v) := CastPropose(b, id, peers[self], self);
        var n' := n.(ballots := n.ballots[id := b']);
        if v.voted then QueuePropose(n', prevHeight, e, Options(self, peers)) else n'
  }

  /** A ballot that has just been opened has a place for every peer. */
  lemma OpenedFits(c: Conf, n: Node, e: Entry, peers: seq<Host>, self: nat, source: nat, prevHeight: nat)
    requires self < |peers| && source < |peers|
    ensures
      var id, n1 := c.h.hash(e), OpenBallot(c, n, e, peers, self, source, prevHeight);
      if id in n.ballots then n1 == n else |n1.ballots[id].proposed| == |peers|
  {
  }

  /** The vote of `source` on an existing ballot. */
  function TakeProposal(c: Conf, n: Node, e: Entry, peers: seq<Host>, self: nat, source: nat, prevHeight: nat)
    : (Node, Option<Error>)
    requires c.h.hash(e) in n.ballots && source < |peers|
    requires Refusal(n.ballots[c.h.hash(e)], c.h.hash(e)).None? ==> source < |n.ballots[c.h.hash(e)].proposed|
  {
    var id := c.h.hash(e);
    var (b, v) := CastPropose(n.ballots[id], id, peers[source], source);
    var n' := n.(ballots := n.ballots[id := b]);
    if v.err.Some? then (n', v.err)
    else if v.votes == 1 then
      (if v.voted then QueuePropose(n', prevHeight, e, Options(self, peers)) else n', None)
    else if v.votes == |peers| then (CheckVotesAndCommit(c.h, n', id), None)
    else (n', None)
  }

  function Propose(c: Conf, n: Node, e: Entry, opts: Options): (Node, Option<Error>)
    requires Proposable(c, n, e, opts)
  {
    if !EnoughPeers(c, opts.peers) then (n, Some(ErrInsufficientPeers))
    else
      match SelfIndex(opts.peers, c.host)
      case None => (n, Some(ErrNotInPeerSet))
      case Some(self) =>
        var source: nat := if opts.sourceIndex < 0 then self else opts.sourceIndex;
        var (prevHeight, err) := Verify(c.h, n.store, e);
        if err.Some? then (Refuse(c, n, e, Options(source, opts.peers), prevHeight, err.value), err)
        else
          var n1 := OpenBallot(c, n, e, opts.peers, self, source, prevHeight);
          OpenedFits(c, n, e, opts.peers, self, source, prevHeight);
          TakeProposal(c, n1, e, opts.peers, self, source, prevHeight)
  }

  /** The commit vote of peer `i`. */
  function TakeCommit(c: Conf, n: Node, id: Id, peers: seq<Host>, self: nat, i: nat): (Node, Option<Error>)
    requires id in n.ballots && i < |peers| && (Refusal(n.ballots[id], id).None? ==> i < |n.ballots[id].committed|)
  {
    var (b, v) := CastCommit(n.ballots[id], id, peers[i], i);
    var n' := n.(ballots := n.ballots[id := b]);
    if v.err.Some? then (n', v.err)
    else if v.voted then (QueueCommit(c.h, n', id, v.votes, Options(self, peers)), None)
    else (n', None)
  }

  lemma TakeCommitKeepsBallots(c: Conf, n: Node, id: Id, peers: seq<Host>, self: nat, i: nat)
    requires id in n.ballots && i < |peers| && (Refusal(n.ballots[id], id).None? ==> i < |n.ballots[id].committed|)
    ensures
      var (n', err) := TakeCommit(c, n, id, peers, self, i);
      && n'.ballots.Keys == n.ballots.Keys
      && |n'.ballots[id].committed| == |n.ballots[id].committed|
      && |n'.ballots[id].proposed| == |n.ballots[id].proposed|
      && (err.None? <==> Refusal(n.ballots[id], id).None?)
      && n'.ballots[id].id == n.ballots[id].id
  {
  }

  /** What a vote on ballot `id` comes to, as `OnVote` has it: the vote is entered, and if it makes the node attempt the
      append, the ballot is closed with the outcome, and an accepted entry is in the log and handed to the FSM. */
  ghost predicate Attempts(c: Conf, n: Node, id: Id, ev: Event, n': Node)
    requires id in n.ballots && ev.i < |n.ballots[id].proposed| == |n.ballots[id].committed|
  {
    var (b, attempt) := OnVote(n.ballots[id], ev);
    var (store, err) := AppendView(c.h, n.store, n.ballots[id].entry);
    if attempt then
      && n'.ballots == n.ballots[id := CloseWith(b, err)]
      && n'.store == store && n'.applied == n.applied + if err.None? then [b.entry] else []
    else
      && n'.ballots == n.ballots[id := b] && n'.applied == n.applied
      && forall k :: LogOf(n'.store, k) == LogOf(n.store, k)
  }

  /** The handlers attempt the append at the very votes that `OnVote` says. */
  lemma ProposalAttempts(c: Conf, n: Node, e: Entry, peers: seq<Host>, self: nat, source: nat, prevHeight: nat)
    requires c.h.hash(e) in n.ballots && n.ballots[c.h.hash(e)].id == c.h.hash(e) && source < |peers|
    requires |n.ballots[c.h.hash(e)].proposed| == |n.ballots[c.h.hash(e)].committed| == |peers|
    ensures
      var n' := TakeProposal(c, n, e, peers, self, source, prevHeight).0;
      Attempts(c, n, c.h.hash(e), Proposal(peers[source], source), n')
  {
    var id := c.h.hash(e);
    var b := CastPropose(n.ballots[id], id, peers[source], source).0;
    assert n.ballots[id := b][id := CloseWith(b, None)] == n.ballots[id := CloseWith(b, None)];
  }

  lemma CommitAttempts(c: Conf, n: Node, id: Id, peers: seq<Host>, self: nat, i: nat)
    requires id in n.ballots && n.ballots[id].id == id && i < |peers|
    requires |n.ballots[id].proposed| == |n.ballots[id].committed| == |peers|
    ensures
      var n' := TakeCommit(c, n, id, peers, self, i).0;
      Attempts(c, n, id, Commitment(peers[i], i), n')
  {
    var b := CastCommit(n.ballots[id], id, peers[i], i).0;
    assert n.ballots[id := b][id := CloseWith(b, None)] == n.ballots[id := CloseWith(b, None)];
  }

  function Commit(c: Conf, n: Node, e: Entry, opts: Options): (Node, Option<Error>)
    requires Committable(c, n, e, opts)
  {
    if !EnoughPeers(c, opts.peers) then (n, Some(ErrInsufficientPeers))
    else
      match SelfIndex(opts.peers, c.host)
      case None => (n, Some(ErrNotInPeerSet))
      case Some(self) =>
        var id := c.h.hash(e);
        if id !in n.ballots then (n, Some(ErrBallotNotFound))
        else if self == opts.sourceIndex then TakeCommit(c, n, id, opts.peers, self, self)
        else
          var (n1, err) := TakeCommit(c, n, id, opts.peers, self, self);
          TakeCommitKeepsBallots(c, n, id, opts.peers, self, self);
          if err.Some? then (n1, err) else TakeCommit(c, n1, id, opts.peers, self, opts.sourceIndex)
  }

  /** reapBallotsOnce. */
  function Reap(n: Node): Node {
    n.(ballots := map id | id in n.ballots && !n.ballots[id].closed :: n.ballots[id])
  }

  /** append: straight to the log, past the vote. */
  function AppendDirect(h: Hashing, n: Node, e: Entry): (Node, Option<Error>) {
    var (store, err) := AppendView(h, n.store, e);
    if err.Some? then (n, err) else (n.(store := store, applied := n.applied + [e]), None)
  }
}
