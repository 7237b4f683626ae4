/** What a node answers to a proposal and to a commit, and what it has done when it answers so (hexalog.go). */
module Answers {
  import opened HexTypes
  import opened Chains
  import opened StoreSpec
  import opened Ballots
  import opened Nodes

  /** The node does not take part in the vote at all. */
  function Barred(c: Conf, peers: seq<Host>): Option<Error> {
    if |peers| == 0 || |peers| < c.votes then Some(ErrInsufficientPeers)
    else if c.host !in peers then Some(ErrNotInPeerSet)
    else None
  }

  predicate Marked(v: View, k: Key) {
    k in v && v[k].marker.Some?
  }

  /** Why the entry cannot be next in its log. */
  function Misfit(h: Hashing, v: View, e: Entry): Option<Error> {
    if Marked(v, e.key) then Some(ErrKeyDegraded)
    else if e.previous != LastId(h, LogOf(v, e.key)) then Some(ErrPreviousHash)
    else None
  }

  /** How high the log is for one who proposes an entry: not at all if the key is marked. */
  function HeightOf(v: View, k: Key): uint32 {
    var log := LogOf(v, k);
    if Marked(v, k) || log == [] then 0 else log[|log| - 1].height
  }

  /** What a closed ballot answers to votes. */
  function Verdict(b: BallotState): Error {
    if b.err.Some? then b.err.value else ErrBallotClosed
  }

  /** Ballots are filed under the ids of their entries. */
  predicate Filed(n: Node, id: Id) {
    id in n.ballots ==> n.ballots[id].id == id
  }

  /** The ballot of `id`, if there is one, is closed now; if it was open, whoever waits on it has been told `err`.
      Nothing else has changed. */
  ghost predicate GivenUp(n: Node, n': Node, id: Id, err: Error) {
    && n' == n.(ballots := n'.ballots) && n'.ballots.Keys == n.ballots.Keys
    && (forall j :: j in n.ballots && j != id ==> n'.ballots[j] == n.ballots[j])
    && (id in n.ballots ==>
          var b, b' := n.ballots[id], n'.ballots[id];
          b' == if b.closed then b else b.(closed := true, err := Some(err), signals := b.signals + [Some(err)]))
  }

  lemma GivesUp(n: Node, id: Id, err: Error)
    ensures GivenUp(n, CloseBallot(n, id, Some(err)), id, err)
  {
  }

  /** The index of the vote a proposal asks for: a client that is not a peer makes it the node's own. */
  predicate IsSource(c: Conf, opts: Options, source: int) {
    if opts.sourceIndex < 0
    then 0 <= source < |opts.peers| && opts.peers[source] == c.host && c.host !in opts.peers[..source]
    else source == opts.sourceIndex
  }

  /** An entry that cannot come next is refused with the reason. If it is higher than the log, exactly one request to
      heal is queued, for the entry and its peer set, and nothing else changes; if not, its ballot is given up, and no
      heal is asked for. */
  lemma RefusedProposal(c: Conf, n: Node, e: Entry, opts: Options) returns (source: int)
    requires Proposable(c, n, e, opts) && Barred(c, opts.peers).None? && Misfit(c.h, n.store, e).Some?
    ensures IsSource(c, opts, source)
    ensures
      var (n', err) := Propose(c, n, e, opts);
      && err == Misfit(c.h, n.store, e)
      && if e.height > HeightOf(n.store, e.key)
         then n' == n.(hch := n.hch + [HealReq(c.h.hash(e), e, Options(source, opts.peers))])
         else GivenUp(n, n', c.h.hash(e), err.value)
  {
    source := if opts.sourceIndex < 0 then SelfIndex(opts.peers, c.host).value else opts.sourceIndex;
    GivesUp(n, c.h.hash(e), Misfit(c.h, n.store, e).value);
  }

  /** The answer to every proposal. */
  lemma AnswerToProposal(c: Conf, n: Node, e: Entry, opts: Options)
    requires Proposable(c, n, e, opts) && Filed(n, c.h.hash(e))
    ensures
      var (n', err) := Propose(c, n, e, opts);
      var id := c.h.hash(e);
      && err == (if Barred(c, opts.peers).Some? then Barred(c, opts.peers)
                 else if Misfit(c.h, n.store, e).Some? then Misfit(c.h, n.store, e)
                 else if id in n.ballots && n.ballots[id].closed then Some(Verdict(n.ballots[id]))
                 else None)
      && (Barred(c, opts.peers).Some? || (Misfit(c.h, n.store, e).None? && err.Some?) ==> n' == n)
  {
    if Barred(c, opts.peers).None? && Misfit(c.h, n.store, e).None? {
      var id := c.h.hash(e);
      if id in n.ballots && n.ballots[id].closed {
        assert n.ballots[id := n.ballots[id]] == n.ballots;
      }
    }
  }

  /** A tally after the vote of number `i`, who votes once. */
  function Entered(tally: seq<Host>, i: nat, voter: Host): seq<Host>
    requires i < |tally|
  {
    if tally[i] == "" then tally[i := voter] else tally
  }

  /** The ballot of `id` has these votes now, and may have been closed; all other ballots are as they were, and the
      queues at most longer at their ends. */
  ghost predicate Fuller(n: Node, n': Node, id: Id, proposed: seq<Host>, committed: seq<Host>) {
    && n'.ballots.Keys == n.ballots.Keys && id in n.ballots
    && (forall j :: j in n.ballots && j != id ==> n'.ballots[j] == n.ballots[j])
    && n'.hch == n.hch && n.pch <= n'.pch && n.cch <= n'.cch
    && n'.ballots[id].id == n.ballots[id].id && n'.ballots[id].entry == n.ballots[id].entry
    && n'.ballots[id].proposed == proposed && n'.ballots[id].committed == committed
  }

  lemma CheckEnters(h: Hashing, n: Node, id: Id)
    requires id in n.ballots
    ensures Fuller(n, CheckVotesAndCommit(h, n, id), id, n.ballots[id].proposed, n.ballots[id].committed)
  {
  }

  lemma TakeProposalEnters(c: Conf, n: Node, e: Entry, peers: seq<Host>, self: nat, source: nat, prevHeight: nat)
    requires c.h.hash(e) in n.ballots && n.ballots[c.h.hash(e)].id == c.h.hash(e)
    requires source < |peers| && (!n.ballots[c.h.hash(e)].closed ==> source < |n.ballots[c.h.hash(e)].proposed|)
    ensures
      var id := c.h.hash(e);
      var (b, (n', err)) := (n.ballots[id], TakeProposal(c, n, e, peers, self, source, prevHeight));
      && (err.None? <==> !b.closed)
      && (err.None? ==> Fuller(n, n', id, Entered(b.proposed, source, peers[source]), b.committed))
  {
    var id := c.h.hash(e);
    var (b, v) := CastPropose(n.ballots[id], id, peers[source], source);
    CheckEnters(c.h, SetBallot(n, b), id);
    hide CheckVotesAndCommit;
  }

  lemma TakeCommitEnters(c: Conf, n: Node, id: Id, peers: seq<Host>, self: nat, i: nat)
    requires id in n.ballots && n.ballots[id].id == id
    requires i < |peers| && (!n.ballots[id].closed ==> i < |n.ballots[id].committed|)
    ensures
      var (b, (n', err)) := (n.ballots[id], TakeCommit(c, n, id, peers, self, i));
      && (err.None? <==> !b.closed)
      && (err.None? ==> Fuller(n, n', id, b.proposed, Entered(b.committed, i, peers[i])))
  {
    var (b, v) := CastCommit(n.ballots[id], id, peers[i], i);
    CheckEnters(c.h, SetBallot(n, b), id);
    hide CheckVotesAndCommit;
  }

  /** A proposal that is answered without an error has found, or opened, an open ballot for the entry, and the vote of
      its source is there; the node's own vote as well, if the ballot is new. */
  lemma AcceptedProposal(c: Conf, n: Node, e: Entry, opts: Options) returns (self: nat, source: int)
    requires Proposable(c, n, e, opts) && Filed(n, c.h.hash(e)) && Propose(c, n, e, opts).1.None?
    ensures IsSource(c, opts, source) && source < |opts.peers| && self < |opts.peers| && opts.peers[self] == c.host
    ensures
      var n', id := Propose(c, n, e, opts).0, c.h.hash(e);
      if id in n.ballots
      then
        && !n.ballots[id].closed && source < |n.ballots[id].proposed|
        && Fuller(n, n', id, Entered(n.ballots[id].proposed, source, opts.peers[source]), n.ballots[id].committed)
      else
        var none := NoVotes(|opts.peers|);
        && Fuller(SetBallot(n, NewBallot(id, e, |opts.peers|)), n', id,
                  Entered(Entered(none, self, c.host), source, opts.peers[source]), none)
  {
    var id := c.h.hash(e);
    self := SelfIndex(opts.peers, c.host).value;
    source := if opts.sourceIndex < 0 then self else opts.sourceIndex;
    var prevHeight := Verify(c.h, n.store, e).0;
    if id in n.ballots {
      TakeProposalEnters(c, n, e, opts.peers, self, source, prevHeight);
    } else {
      NewEnters(c, n, e, opts.peers, self, source, prevHeight);
    }
    hide TakeProposal, Fuller, Entered;
  }

  /** The votes on a ballot that a proposal has opened. */
  lemma NewEnters(c: Conf, n: Node, e: Entry, peers: seq<Host>, self: nat, source: nat, prevHeight: nat)
    requires c.h.hash(e) !in n.ballots && self < |peers| && source < |peers|
    ensures
      var id, n1 := c.h.hash(e), OpenBallot(c, n, e, peers, self, source, prevHeight);
      var none := NoVotes(|peers|);
      && |n1.ballots[id].proposed| == |peers|
      && Fuller(SetBallot(n, NewBallot(id, e, |peers|)), TakeProposal(c, n1, e, peers, self, source, prevHeight).0, id,
                Entered(Entered(none, self, peers[self]), source, peers[source]), none)
  {
    var n1 := OpenBallot(c, n, e, peers, self, source, prevHeight);
    OpenedEnters(c, n, e, peers, self, source, prevHeight);
    TakeProposalEnters(c, n1, e, peers, self, source, prevHeight);
    hide TakeProposal, OpenBallot;
  }

  /** The first proposal of an entry queues it for broadcast, once, with the node's own index, and makes sure that the
      key exists; no log changes. */
  lemma NewProposal(c: Conf, n: Node, e: Entry, opts: Options) returns (self: nat)
    requires Proposable(c, n, e, opts) && c.h.hash(e) !in n.ballots && Propose(c, n, e, opts).1.None?
    requires forall i :: 0 <= i < |opts.peers| ==> opts.peers[i] != ""
    ensures self < |opts.peers| && opts.peers[self] == c.host && c.host !in opts.peers[..self]
    ensures
      var n' := Propose(c, n, e, opts).0;
      && n'.pch == n.pch + [Req(e, Options(self, opts.peers))] && n'.cch == n.cch && n'.applied == n.applied
      && (HeightOf(n.store, e.key) == 0 ==> e.key in n'.store)
      && forall k :: LogOf(n'.store, k) == LogOf(n.store, k) && (k != e.key ==> (k in n'.store <==> k in n.store))
  {
    var id, ps, none := c.h.hash(e), opts.peers, NoVotes(|opts.peers|);
    self := SelfIndex(ps, c.host).value;
    var source := if opts.sourceIndex < 0 then self else opts.sourceIndex;
    CountBounds(none);
    CountOneMore(none, self, ps[self]);
    if source != self {
      CountOneMore(none[self := ps[self]], source, ps[source]);
      var n1 := OpenBallot(c, n, e, ps, self, source, Verify(c.h, n.store, e).0);
      assert n1.ballots[id].proposed == none[self := ps[self]] && n1.ballots[id].committed == none;
      SecondVote(c, n1, e, ps, self, source, Verify(c.h, n.store, e).0);
      hide TakeProposal;
    }
  }

  /** The source's vote after the own one: no commit vote is there, so nothing is appended. */
  lemma SecondVote(c: Conf, n: Node, e: Entry, peers: seq<Host>, self: nat, source: nat, prevHeight: nat)
    requires c.h.hash(e) in n.ballots && source < |peers| && n.ballots[c.h.hash(e)].id == c.h.hash(e)
    requires !n.ballots[c.h.hash(e)].closed && source < |n.ballots[c.h.hash(e)].proposed|
    requires
      var b := n.ballots[c.h.hash(e)];
      && b.proposed[source] == "" && CountVotes(b.committed) == 0
      && CountVotes(b.proposed[source := peers[source]]) == 2
    ensures
      var n' := TakeProposal(c, n, e, peers, self, source, prevHeight).0;
      n' == n.(ballots := n'.ballots)
  {
  }

  lemma OpenedEnters(c: Conf, n: Node, e: Entry, peers: seq<Host>, self: nat, source: nat, prevHeight: nat)
    requires c.h.hash(e) !in n.ballots && self < |peers| && source < |peers|
    ensures
      var id, n1 := c.h.hash(e), OpenBallot(c, n, e, peers, self, source, prevHeight);
      && !n1.ballots[id].closed
      && Fuller(SetBallot(n, NewBallot(id, e, |peers|)), n1, id,
                if self == source then NoVotes(|peers|) else Entered(NoVotes(|peers|), self, peers[self]),
                NoVotes(|peers|))
  {
  }

  /** The answer to every commit. Without a ballot, or with one that is closed already, nothing is done. */
  lemma AnswerToCommit(c: Conf, n: Node, e: Entry, opts: Options)
    requires Committable(c, n, e, opts) && Filed(n, c.h.hash(e))
    ensures
      var (n', err) := Commit(c, n, e, opts);
      var id := c.h.hash(e);
      if Barred(c, opts.peers).Some? then n' == n && err == Barred(c, opts.peers)
      else if id !in n.ballots then n' == n && err == Some(ErrBallotNotFound)
      else if n.ballots[id].closed then n' == n && err == Some(Verdict(n.ballots[id]))
      else err.Some? ==> n'.ballots[id].closed && err == Some(Verdict(n'.ballots[id]))
  {
    var id := c.h.hash(e);
    if Barred(c, opts.peers).None? && id in n.ballots && n.ballots[id].closed {
      assert n.ballots[id := n.ballots[id]] == n.ballots;
    }
  }

  /** A commit that is answered without an error has found an open ballot, and both the node's own and the source's
      commit vote are there. */
  lemma AcceptedCommit(c: Conf, n: Node, e: Entry, opts: Options) returns (self: nat)
    requires Committable(c, n, e, opts) && Filed(n, c.h.hash(e)) && Commit(c, n, e, opts).1.None?
    ensures
      var n', id := Commit(c, n, e, opts).0, c.h.hash(e);
      && Barred(c, opts.peers).None? && id in n.ballots && !n.ballots[id].closed
      && self < |opts.peers| && opts.peers[self] == c.host && 0 <= opts.sourceIndex < |opts.peers|
      && self < |n.ballots[id].committed| && opts.sourceIndex < |n.ballots[id].committed|
      && Fuller(n, n', id, n.ballots[id].proposed,
                Entered(Entered(n.ballots[id].committed, self, c.host), opts.sourceIndex,
                        opts.peers[opts.sourceIndex]))
  {
    var id := c.h.hash(e);
    self := SelfIndex(opts.peers, c.host).value;
    TakeCommitEnters(c, n, id, opts.peers, self, self);
    if self != opts.sourceIndex {
      var n1 := TakeCommit(c, n, id, opts.peers, self, self).0;
      TakeCommitKeepsBallots(c, n, id, opts.peers, self, self);
      TakeCommitEnters(c, n1, id, opts.peers, self, opts.sourceIndex);
    }
    hide TakeCommit;
  }
}
