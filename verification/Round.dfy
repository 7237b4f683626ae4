/** What the rounds of the two broadcasters begin with, and what they end with (broadcast.go). */
module Rounds {
  import opened HexTypes
  import opened Nodes
  import opened Clusters
  import opened Answers

  /** The step changes the state of `at` from `p` to `p'`, and no other node. */
  ghost predicate Alters(s: Sys, s': Sys, at: Host, p': Peer) {
    at in s.peers && s'.peers == s.peers[at := p']
  }

  /** Broadcaster `phase` of the node is idle; the other one is as before. */
  predicate Through(p: Peer, p': Peer, phase: Phase) {
    && RoundOf(p', phase).None? && p'.rounds == p.rounds
    && (if phase.Proposing? then p'.committing == p.committing else p'.proposing == p.proposing)
  }

  /** The round of broadcaster `phase` at `at` comes to its end by step `l`: with an error of the transport, with the
      first reply that is an error, or with the last reply. */
  ghost predicate Ending(cl: Cluster, u: iset<Entry>, s: Sys, l: Label, at: Host, phase: Phase, err: Option<Error>) {
    && Enabled(cl, u, s, l) && at in s.peers && RoundOf(s.peers[at], phase).Some?
    && var r := RoundOf(s.peers[at], phase).value;
    || (l == Fail(phase, at) && err == Some(ErrTransport))
    || (&& l.Receive? && l.m.Reply? && l.m.to == at && l.m.phase == phase && l.m.no == r.no && l.m.entry == r.req.entry
        && l.m.from in r.waiting && l.m.err == err && (err.Some? || r.waiting == {l.m.from}))
  }

  /** What is left in the net: a received reply is used up. */
  function NetAfter(s: Sys, l: Label): set<Msg> {
    if l.Receive? then s.net - {l.m} else s.net
  }

  /** A round that fails: the ballot of its entry is given up with the error. Nothing else changes at the node, nor
      elsewhere. */
  lemma FailedRound(cl: Cluster, u: iset<Entry>, s: Sys, l: Label, at: Host, phase: Phase, err: Error)
    requires Ending(cl, u, s, l, at, phase, Some(err))
    ensures
      var s', id := Next(cl, u, s, l), cl.h.hash(RoundOf(s.peers[at], phase).value.req.entry);
      && at in s'.peers && Alters(s, s', at, s'.peers[at]) && s'.net == NetAfter(s, l)
      && Through(s.peers[at], s'.peers[at], phase)
      && GivenUp(s.peers[at].node, s'.peers[at].node, id, err)
  {
    GivesUp(s.peers[at].node, cl.h.hash(RoundOf(s.peers[at], phase).value.req.entry), err);
  }

  /** A proposal round that succeeds: the node commits the entry itself, and if its own commit is answered with an
      error, the ballot is given up with that. */
  lemma ProposedRound(cl: Cluster, u: iset<Entry>, s: Sys, l: Label, at: Host)
    requires Ending(cl, u, s, l, at, Proposing, None)
    ensures
      var s', req, n := Next(cl, u, s, l), s.peers[at].proposing.value.req, s.peers[at].node;
      && Committable(ConfOf(cl, at), n, req.entry, req.opts)
      && at in s'.peers && Alters(s, s', at, s'.peers[at]) && s'.net == NetAfter(s, l)
      && Through(s.peers[at], s'.peers[at], Proposing)
      && var (n', err) := Commit(ConfOf(cl, at), n, req.entry, req.opts);
      if err.None? then s'.peers[at].node == n'
      else GivenUp(n', s'.peers[at].node, cl.h.hash(req.entry), err.value)
  {
    var req, n := s.peers[at].proposing.value.req, s.peers[at].node;
    var (n', err) := Commit(ConfOf(cl, at), n, req.entry, req.opts);
    if err.Some? {
      GivesUp(n', cl.h.hash(req.entry), err.value);
    }
  }

  /** A commit round that succeeds ends, and that is all. */
  lemma CommittedRound(cl: Cluster, u: iset<Entry>, s: Sys, l: Label, at: Host)
    requires Ending(cl, u, s, l, at, Committing, None)
    ensures
      var s' := Next(cl, u, s, l);
      && at in s'.peers && Alters(s, s', at, s'.peers[at]) && s'.net == NetAfter(s, l)
      && Through(s.peers[at], s'.peers[at], Committing) && s'.peers[at].node == s.peers[at].node
  {
  }

  /** Every other reply leaves the node alone: one that is not the last takes its sender off those waited for, and one
      that belongs to another round, or comes twice, does nothing. */
  lemma OtherReply(cl: Cluster, u: iset<Entry>, s: Sys, m: Msg)
    requires Enabled(cl, u, s, Receive(m)) && m.Reply?
    requires !Ending(cl, u, s, Receive(m), m.to, m.phase, m.err)
    ensures
      var s', p := Next(cl, u, s, Receive(m)), s.peers[m.to];
      && m.to in s'.peers && Alters(s, s', m.to, s'.peers[m.to]) && s'.net == s.net - {m}
      && s'.peers[m.to].node == p.node && s'.peers[m.to].rounds == p.rounds
      && (forall phase: Phase :: phase != m.phase ==> RoundOf(s'.peers[m.to], phase) == RoundOf(p, phase))
      && var r, r' := RoundOf(p, m.phase), RoundOf(s'.peers[m.to], m.phase);
      if r.Some? && r.value.no == m.no && r.value.req.entry == m.entry && m.from in r.value.waiting
      then r' == Some(Round(m.no, r.value.req, r.value.waiting - {m.from}))
      else r' == r
  {
  }

  /** A request is handled by the node it is sent to, and only there; its answer goes back to the broadcaster that has
      sent it, as the reply to this very request. */
  lemma RequestAnswered(cl: Cluster, u: iset<Entry>, s: Sys, m: Msg)
    requires Enabled(cl, u, s, Deliver(m))
    ensures
      var s', n := Next(cl, u, s, Deliver(m)), s.peers[m.to].node;
      && m.to in s'.peers && Alters(s, s', m.to, s.peers[m.to].(node := s'.peers[m.to].node))
      && (m.phase.Proposing? ==> Proposable(ConfOf(cl, m.to), n, m.entry, m.opts))
      && (m.phase.Committing? ==> Committable(ConfOf(cl, m.to), n, m.entry, m.opts))
      && var (n', err) := if m.phase.Proposing? then Propose(ConfOf(cl, m.to), n, m.entry, m.opts)
                          else Commit(ConfOf(cl, m.to), n, m.entry, m.opts);
      && s'.peers[m.to].node == n'
      && s'.net == s.net - {m} + {Reply(m.phase, m.to, m.from, m.no, m.entry, err)}
  {
  }

  /** A broadcaster takes the request that has waited longest, and sends it to all of its peer set but the node itself,
      with the node's own index as the source; it waits for the replies of all these. Were the node no peer, the ballot
      would be given up. */
  lemma RoundBegins(cl: Cluster, u: iset<Entry>, s: Sys, phase: Phase, at: Host)
    requires Enabled(cl, u, s, Start(phase, at))
    ensures
      var s', p := Next(cl, u, s, Start(phase, at)), s.peers[at];
      var req := QueueOf(p.node, phase)[0];
      && at in s'.peers && Alters(s, s', at, s'.peers[at])
      && var p' := s'.peers[at];
      && QueueOf(p.node, phase) == [req] + QueueOf(p'.node, phase)
      && (forall other: Phase :: other != phase ==>
            QueueOf(p'.node, other) == QueueOf(p.node, other) && RoundOf(p', other) == RoundOf(p, other))
      && p'.node.store == p.node.store && p'.node.hch == p.node.hch && p'.node.applied == p.node.applied
      && if at in req.opts.peers
         then
           && p'.node.ballots == p.node.ballots && p'.rounds == p.rounds + 1
           && RoundOf(p', phase).Some? && RoundOf(p', phase).value.no == p.rounds
           && RoundOf(p', phase).value.req == req
           && (forall y :: y in RoundOf(p', phase).value.waiting <==> y in req.opts.peers && y != at)
           && (forall m :: m in s'.net <==> m in s.net || Asks(m, phase, at, p.rounds, req))
         else
           && s'.net == s.net && p'.rounds == p.rounds && RoundOf(p', phase).None?
           && GivenUp(p.node.(pch := p'.node.pch, cch := p'.node.cch), p'.node, cl.h.hash(req.entry), ErrNotInPeerSet)
  {
    var p := s.peers[at];
    var req := QueueOf(p.node, phase)[0];
    var n := if phase.Proposing? then p.node.(pch := p.node.pch[1..]) else p.node.(cch := p.node.cch[1..]);
    GivesUp(n, cl.h.hash(req.entry), ErrNotInPeerSet);
    if at in req.opts.peers {
      var self := SelfIndex(req.opts.peers, at).value;
      var out := Requests(phase, at, p.rounds, req.entry, req.opts.peers, self);
      forall m
        ensures m in out <==> Asks(m, phase, at, p.rounds, req)
      {
        if Asks(m, phase, at, p.rounds, req) {
          FirstIndex(req.opts.peers, at, m.opts.sourceIndex);
          assert m.to in Others(req.opts.peers, at);
        }
      }
    }
  }

  /** Of a node that crashes its log is left, and nothing else: no ballot, no request in a queue, no round. */
  lemma LogSurvives(cl: Cluster, u: iset<Entry>, s: Sys, at: Host)
    requires Enabled(cl, u, s, Crash(at))
    ensures
      var s' := Next(cl, u, s, Crash(at));
      && at in s'.peers && Alters(s, s', at, s'.peers[at]) && s'.net == s.net
      && var (p, n, n') := (s'.peers[at], s.peers[at].node, s'.peers[at].node);
      && n'.store == n.store && n'.applied == n.applied && n'.ballots == map[]
      && n'.pch == n'.cch == [] && n'.hch == [] && p.proposing.None? && p.committing.None?
  {
  }

  /** A request to one of the other peers. */
  predicate Asks(m: Msg, phase: Phase, x: Host, no: nat, req: Req) {
    && m.Request? && m.phase == phase && m.from == x && m.no == no && m.entry == req.entry
    && m.to in req.opts.peers && m.to != x && m.opts.peers == req.opts.peers
    && 0 <= m.opts.sourceIndex < |req.opts.peers| && req.opts.peers[m.opts.sourceIndex] == x
    && x !in req.opts.peers[..m.opts.sourceIndex]
  }

  lemma {:induction false} FirstIndex(peers: seq<Host>, x: Host, i: int)
    requires 0 <= i < |peers| && peers[i] == x && x !in peers[..i]
    ensures SelfIndex(peers, x) == Some(i)
  {
    if i > 0 {
      assert peers[..i] == [peers[0]] + peers[1..][..i - 1];
      FirstIndex(peers[1..], x, i - 1);
    }
  }
}
