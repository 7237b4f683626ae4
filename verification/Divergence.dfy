/** Safety over all runs: logs of a key diverge in their last entry at most, and a committed entry had every peer's
    vote. */
module Divergence {
  import opened HexTypes
  import opened Chains
  import opened StoreSpec
  import opened Ballots
  import opened Nodes
  import opened Clusters
  import opened NodeSafety

  function ButLast(log: seq<Entry>): seq<Entry> {
    if log == [] then [] else log[..|log| - 1]
  }

  ghost predicate RoundOk(cl: Cluster, u: iset<Entry>, x: Host, r: Option<Round>) {
    r.Some? ==> ReqOk(cl, u, x, r.value.req)
  }

  ghost predicate PeerOk(cl: Cluster, u: iset<Entry>, x: Host, p: Peer, hist: Hist) {
    && NodeOk(cl, u, x, p.node, hist)
    && RoundOk(cl, u, x, p.proposing)
    && RoundOk(cl, u, x, p.committing)
    && (p.committing.Some? ==> (x, p.committing.value.req.entry) in hist.voted)
  }

  ghost predicate MsgOk(cl: Cluster, u: iset<Entry>, m: Msg, hist: Hist) {
    if m.Reply? then m.to in cl.hosts
    else
      && m.entry in u && m.to in cl.peers(m.entry.key)
      && ReqOk(cl, u, m.from, Req(m.entry, m.opts))
      && (m.phase.Committing? ==> (m.from, m.entry) in hist.voted)
  }

  /** Whoever opened a ballot has, at that time, ended at the entry before it; logs have only grown since. */
  ghost predicate BallotedReached(cl: Cluster, s: Sys, hist: Hist) {
    forall p, e :: (p, e) in hist.balloted ==> p in s.peers && Reached(cl.h, LogAt(s, p, e.key), e.previous)
  }

  /** The divergence bound between a host and a peer of the key. */
  ghost predicate Near(cl: Cluster, s: Sys, x: Host, y: Host, k: Key)
    requires x in s.peers && y in s.peers
  {
    ButLast(LogAt(s, x, k)) <= LogAt(s, y, k)
  }

  ghost predicate Bounded(cl: Cluster, s: Sys) {
    forall x, y, k :: x in s.peers && y in s.peers && y in cl.peers(k) ==> Near(cl, s, x, y, k)
  }

  ghost predicate Safe(cl: Cluster, u: iset<Entry>, s: Sys, hist: Hist) {
    && s.peers.Keys == cl.hosts
    && (forall x :: x in s.peers ==> PeerOk(cl, u, x, s.peers[x], hist))
    && (forall m :: m in s.net ==> MsgOk(cl, u, m, hist))
    && hist.voted <= hist.balloted
    && BallotedReached(cl, s, hist)
    && Bounded(cl, s)
  }

  ghost predicate OpensAt(cl: Cluster, s: Sys, s': Sys, p: Host, e: Entry) {
    p in s.peers && p in s'.peers && Opens(cl.h, s.peers[p].node, s'.peers[p].node, e)
  }

  ghost predicate VotesAt(cl: Cluster, s: Sys, s': Sys, p: Host, e: Entry) {
    p in s.peers && p in s'.peers && Votes(cl, p, s.peers[p].node, s'.peers[p].node, e)
  }

  ghost function Record(cl: Cluster, hist: Hist, s: Sys, s': Sys): Hist {
    Hist(hist.balloted + (iset t: (Host, Entry) | OpensAt(cl, s, s', t.0, t.1)),
         hist.voted + (iset t: (Host, Entry) | VotesAt(cl, s, s', t.0, t.1)))
  }

  /** How a step may change the log of one key at one node: not at all, by an entry all peers voted for, or by the next
      entry of another node's log. */
  ghost predicate PulledGrowth(cl: Cluster, s: Sys, log: seq<Entry>, log': seq<Entry>, k: Key) {
    exists r, i: nat :: r in s.peers && i < |LogAt(s, r, k)| && log == LogAt(s, r, k)[..i]
      && log' == LogAt(s, r, k)[..i + 1]
  }

  ghost predicate LogStep(cl: Cluster, u: iset<Entry>, s: Sys, log: seq<Entry>, log': seq<Entry>, k: Key, hist: Hist,
                          pull: bool)
  {
    log' == log || VotedGrowth(cl, u, log, log', k, hist) || (pull && PulledGrowth(cl, s, log, log', k))
  }

  lemma LogStepGrows(cl: Cluster, u: iset<Entry>, s: Sys, log: seq<Entry>, log': seq<Entry>, k: Key, hist: Hist,
                     pull: bool)
    requires LogStep(cl, u, s, log, log', k, hist, pull)
    ensures log <= log' && |log'| <= |log| + 1 && ButLast(log') <= log
  {
    if log' != log && !VotedGrowth(cl, u, log, log', k, hist) {
      var r, i: nat :| r in s.peers && i < |LogAt(s, r, k)| && log == LogAt(s, r, k)[..i]
        && log' == LogAt(s, r, k)[..i + 1];
      assert log == log'[..i];
    }
  }

  /** The heart of the bound: every peer has reached what comes before an entry it voted for, so all of the log below
      that entry is everywhere. */
  lemma GrowthIsNear(cl: Cluster, u: iset<Entry>, s: Sys, hist: Hist, x: Host, log': seq<Entry>, y: Host, k: Key,
                     pull: bool)
    requires ValidCluster(cl, u) && Bounded(cl, s) && x in s.peers && y in s.peers && y in cl.peers(k)
    requires hist.voted <= hist.balloted && BallotedReached(cl, s, hist)
    requires Chain(cl.h, u, k, LogAt(s, x, k)) && Chain(cl.h, u, k, LogAt(s, y, k))
    requires LogStep(cl, u, s, LogAt(s, x, k), log', k, hist, pull)
    ensures ButLast(log') <= LogAt(s, y, k)
  {
    var log := LogAt(s, x, k);
    if log' == log {
      assert Near(cl, s, x, y, k);
    } else if VotedGrowth(cl, u, log, log', k, hist) {
      var e := log'[|log|];
      assert (y, e) in hist.balloted;
      ReachedIsPrefix(cl.h, u, k, log, LogAt(s, y, k));
      assert ButLast(log') == log;
    } else {
      var r, i: nat :| r in s.peers && i < |LogAt(s, r, k)| && log == LogAt(s, r, k)[..i]
        && log' == LogAt(s, r, k)[..i + 1];
      assert Near(cl, s, r, y, k);
      assert ButLast(log') == log == ButLast(LogAt(s, r, k))[..i];
    }
  }

  /** A step that changes node `x` only, and its logs in one of the ways above. */
  ghost predicate StepOk(cl: Cluster, u: iset<Entry>, s: Sys, s': Sys, x: Host, hist': Hist, pull: bool) {
    && x in s.peers && x in s'.peers && s'.peers == s.peers[x := s'.peers[x]]
    && PeerOk(cl, u, x, s'.peers[x], hist')
    && (forall m :: m in s'.net ==> m in s.net || MsgOk(cl, u, m, hist'))
    && (forall k :: LogStep(cl, u, s, LogAt(s, x, k), LogAt(s', x, k), k, hist', pull))
  }

  lemma StepAt(cl: Cluster, u: iset<Entry>, s: Sys, hist: Hist, s': Sys, x: Host, pull: bool)
    requires ValidCluster(cl, u) && Safe(cl, u, s, hist) && StepOk(cl, u, s, s', x, Record(cl, hist, s, s'), pull)
    ensures Safe(cl, u, s', Record(cl, hist, s, s'))
  {
    var hist' := Record(cl, hist, s, s');
    forall y | y in s'.peers
      ensures PeerOk(cl, u, y, s'.peers[y], hist')
    {
      if y != x {
        assert PeerOk(cl, u, y, s.peers[y], hist);
        NodeOkMonotone(cl, u, y, s.peers[y].node, hist, hist');
      }
    }
    forall m | m in s'.net
      ensures MsgOk(cl, u, m, hist')
    {
      if m in s.net {
        assert MsgOk(cl, u, m, hist);
      }
    }
    VotedWereBalloted(cl, u, s, hist, s');
    ReachedStays(cl, u, s, hist, s', x, pull);
    BoundStays(cl, u, s, hist, s', x, pull);
  }

  lemma GrewIsStep(cl: Cluster, u: iset<Entry>, s: Sys, s': Sys, x: Host, hist: Hist)
    requires x in s.peers && x in s'.peers
    requires Grew(cl, u, s.peers[x].node.store, s'.peers[x].node.store, hist)
    ensures forall k :: LogStep(cl, u, s, LogAt(s, x, k), LogAt(s', x, k), k, hist, false)
  {
    forall k
      ensures LogStep(cl, u, s, LogAt(s, x, k), LogAt(s', x, k), k, hist, false)
    {
      assert LogOf(s'.peers[x].node.store, k) == LogOf(s.peers[x].node.store, k)
             || VotedGrowth(cl, u, LogAt(s, x, k), LogAt(s', x, k), k, hist);
    }
  }

  lemma VotedWereBalloted(cl: Cluster, u: iset<Entry>, s: Sys, hist: Hist, s': Sys)
    requires hist.voted <= hist.balloted
    requires forall y :: y in s'.peers ==> PeerOk(cl, u, y, s'.peers[y], Record(cl, hist, s, s'))
    ensures Record(cl, hist, s, s').voted <= Record(cl, hist, s, s').balloted
  {
    var hist' := Record(cl, hist, s, s');
    forall t: (Host, Entry) | t in hist'.voted
      ensures t in hist'.balloted
    {
      if t !in hist.voted {
        assert VotesAt(cl, s, s', t.0, t.1);
        assert PeerOk(cl, u, t.0, s'.peers[t.0], hist');
        var b := s'.peers[t.0].node.ballots[cl.h.hash(t.1)];
        assert BallotOk(cl, u, t.0, cl.h.hash(t.1), b, hist');
        assert t == (t.0, b.entry);
      }
    }
  }

  lemma ReachedStays(cl: Cluster, u: iset<Entry>, s: Sys, hist: Hist, s': Sys, x: Host, pull: bool)
    requires x in s.peers && x in s'.peers && s'.peers == s.peers[x := s'.peers[x]]
    requires BallotedReached(cl, s, hist)
    requires forall k :: LogStep(cl, u, s, LogAt(s, x, k), LogAt(s', x, k), k, Record(cl, hist, s, s'), pull)
    ensures BallotedReached(cl, s', Record(cl, hist, s, s'))
    ensures BallotedReached(cl, s, Record(cl, hist, s, s'))
  {
    var hist' := Record(cl, hist, s, s');
    forall p, e | (p, e) in hist'.balloted
      ensures p in s'.peers && p in s.peers && Reached(cl.h, LogAt(s, p, e.key), e.previous)
      ensures Reached(cl.h, LogAt(s', p, e.key), e.previous)
    {
      if (p, e) !in hist.balloted {
        var log := LogAt(s, p, e.key);
        assert OpensAt(cl, s, s', (p, e).0, (p, e).1);
        assert log[..|log|] == log;
        assert Reached(cl.h, log, e.previous);
      }
      if p == x {
        assert LogStep(cl, u, s, LogAt(s, x, e.key), LogAt(s', x, e.key), e.key, hist', pull);
        LogStepGrows(cl, u, s, LogAt(s, x, e.key), LogAt(s', x, e.key), e.key, hist', pull);
      }
      ReachedMonotone(cl.h, LogAt(s, p, e.key), LogAt(s', p, e.key), e.previous);
    }
  }

  lemma ChainAt(cl: Cluster, u: iset<Entry>, s: Sys, hist: Hist, x: Host, k: Key)
    requires Safe(cl, u, s, hist) && x in s.peers
    ensures Chain(cl.h, u, k, LogAt(s, x, k))
  {
    assert PeerOk(cl, u, x, s.peers[x], hist);
  }

  lemma BoundStays(cl: Cluster, u: iset<Entry>, s: Sys, hist: Hist, s': Sys, x: Host, pull: bool)
    requires ValidCluster(cl, u) && Safe(cl, u, s, hist) && x in s.peers
    requires x in s'.peers && s'.peers == s.peers[x := s'.peers[x]]
    requires
      var hist' := Record(cl, hist, s, s');
      && hist'.voted <= hist'.balloted && BallotedReached(cl, s, hist')
      && forall k :: LogStep(cl, u, s, LogAt(s, x, k), LogAt(s', x, k), k, hist', pull)
    ensures Bounded(cl, s')
  {
    var hist' := Record(cl, hist, s, s');
    forall a, b, k | a in s'.peers && b in s'.peers && b in cl.peers(k)
      ensures Near(cl, s', a, b, k)
    {
      ChainAt(cl, u, s, hist, a, k);
      ChainAt(cl, u, s, hist, b, k);
      assert Near(cl, s, a, b, k);
      assert LogStep(cl, u, s, LogAt(s, x, k), LogAt(s', x, k), k, hist', pull);
      LogStepGrows(cl, u, s, LogAt(s, x, k), LogAt(s', x, k), k, hist', pull);
      if a == x {
        GrowthIsNear(cl, u, s, hist', x, LogAt(s', x, k), b, k, pull);
      }
    }
  }

  lemma HandleKeeps(cl: Cluster, u: iset<Entry>, x: Host, n: Node, phase: Phase, e: Entry, opts: Options, hist: Hist)
    requires ValidCluster(cl, u) && NodeOk(cl, u, x, n, hist)
    requires e in u && opts.peers == cl.peers(e.key) && CanHandle(cl, x, n, phase, e, opts)
    requires phase.Committing? ==> opts.peers[opts.sourceIndex] == x || (opts.peers[opts.sourceIndex], e) in hist.voted
    requires
      var n' := Handle(cl, x, n, phase, e, opts).0;
      && (Opens(cl.h, n, n', e) ==> (x, e) in hist.balloted)
      && (Votes(cl, x, n, n', e) ==> (x, e) in hist.voted)
    ensures
      var n' := Handle(cl, x, n, phase, e, opts).0;
      NodeOk(cl, u, x, n', hist) && Grew(cl, u, n.store, n'.store, hist)
  {
    if phase.Proposing? {
      ProposeKeeps(cl, u, x, n, e, opts, hist);
    } else {
      CommitKeeps(cl, u, x, n, e, opts, hist);
    }
  }

  /** Closing a ballot on top casts no vote and takes none back. */
  lemma VotesBeforeClose(cl: Cluster, x: Host, n: Node, n': Node, id: Id, err: Option<Error>, e: Entry)
    requires Votes(cl, x, n, n', e)
    ensures Votes(cl, x, n, CloseBallot(n', id, err), e)
  {
  }

  lemma EndRoundKeeps(cl: Cluster, u: iset<Entry>, x: Host, p: Peer, phase: Phase, err: Option<Error>, hist: Hist)
    requires ValidCluster(cl, u) && PeerOk(cl, u, x, p, hist) && CanEnd(cl, x, p, phase, err)
    requires
      var e, p' := RoundOf(p, phase).value.req.entry, EndRound(cl, x, p, phase, err);
      && (Opens(cl.h, p.node, p'.node, e) ==> (x, e) in hist.balloted)
      && (Votes(cl, x, p.node, p'.node, e) ==> (x, e) in hist.voted)
    ensures
      var p' := EndRound(cl, x, p, phase, err);
      PeerOk(cl, u, x, p', hist) && Grew(cl, u, p.node.store, p'.node.store, hist)
  {
    var req := RoundOf(p, phase).value.req;
    var id := cl.h.hash(req.entry);
    if err.Some? {
      CloseKeeps(cl, u, x, p.node, id, err, hist);
    } else if phase.Proposing? {
      var (n, err') := Commit(ConfOf(cl, x), p.node, req.entry, req.opts);
      if Votes(cl, x, p.node, n, req.entry) {
        VotesBeforeClose(cl, x, p.node, n, id, err', req.entry);
      }
      CommitKeeps(cl, u, x, p.node, req.entry, req.opts, hist);
      CloseKeeps(cl, u, x, n, id, err', hist);
    }
  }

  lemma StartKeeps(cl: Cluster, u: iset<Entry>, x: Host, p: Peer, phase: Phase, hist: Hist)
    requires ValidCluster(cl, u) && PeerOk(cl, u, x, p, hist) && QueueOf(p.node, phase) != [] && x in cl.hosts
    ensures
      var (p', out) := StartRound(cl, p, phase, x);
      && PeerOk(cl, u, x, p', hist) && p'.node.store == p.node.store && p'.node.ballots == p.node.ballots
      && (forall m :: m in out ==> MsgOk(cl, u, m, hist))
  {
    var req := QueueOf(p.node, phase)[0];
    var ps := req.opts.peers;
    assert ReqOk(cl, u, x, req);
    assert PeersOk(cl.hosts, ps);
    SelfIs(cl, u, req.entry.key, x, req.opts.sourceIndex);
    var (p', out) := StartRound(cl, p, phase, x);
    forall m | m in out
      ensures MsgOk(cl, u, m, hist)
    {
      assert m.to in ps;
    }
  }

  lemma PullStep(cl: Cluster, u: iset<Entry>, s: Sys, hist: Hist, at: Host, from: Host, k: Key, i: nat)
    requires ValidCluster(cl, u) && Safe(cl, u, s, hist)
    requires at in s.peers && from in s.peers && i < |LogAt(s, from, k)|
    ensures
      var n := s.peers[at].node;
      var n' := AppendDirect(cl.h, n.(store := UpsertKey(n.store, k)), LogAt(s, from, k)[i]).0;
      && StoreOk(cl, u, n'.store) && n' == n.(store := n'.store, applied := n'.applied)
      && forall k' ::
           || LogOf(n'.store, k') == LogAt(s, at, k')
           || PulledGrowth(cl, s, LogAt(s, at, k'), LogOf(n'.store, k'), k')
  {
    var n, e, remote := s.peers[at].node, LogAt(s, from, k)[i], LogAt(s, from, k);
    ChainAt(cl, u, s, hist, at, k);
    ChainAt(cl, u, s, hist, from, k);
    assert PeerOk(cl, u, at, s.peers[at], hist);
    FollowsOnlyItsPrefix(cl.h, u, k, LogAt(s, at, k), remote, i);
    if e.previous == LastId(cl.h, LogAt(s, at, k)) {
      ChainAppend(cl.h, u, k, LogAt(s, at, k), e);
      assert remote[..i + 1] == remote[..i] + [e];
    }
  }

  /** What a step needs to know about its node, and gets from the invariant. */
  ghost predicate Before(cl: Cluster, u: iset<Entry>, s: Sys, l: Label, hist: Hist, hist': Hist) {
    && ValidCluster(cl, u) && Safe(cl, u, s, hist) && Enabled(cl, u, s, l)
    && hist' == Record(cl, hist, s, Next(cl, u, s, l))
    && Actor(l).Some? && Actor(l).value in s.peers
    && PeerOk(cl, u, Actor(l).value, s.peers[Actor(l).value], hist')
  }

  lemma ProposeStep(cl: Cluster, u: iset<Entry>, s: Sys, l: Label, hist: Hist, hist': Hist)
    requires l.ClientPropose? && Before(cl, u, s, l, hist, hist')
    ensures StepOk(cl, u, s, Next(cl, u, s, l), l.at, hist', false)
  {
    var s' := Next(cl, u, s, l);
    HistHolds(cl, hist, s, s', l.at, l.entry);
    HandleKeeps(cl, u, l.at, s.peers[l.at].node, Proposing, l.entry, OptsOf(cl, l.entry, l.source), hist');
    GrewIsStep(cl, u, s, s', l.at, hist');
  }

  /** A request handled: a step of its node, and a reply. */
  lemma HandledStep(cl: Cluster, u: iset<Entry>, s: Sys, s': Sys, m: Msg, hist: Hist, hist': Hist)
    requires ValidCluster(cl, u) && m.Request? && MsgOk(cl, u, m, hist) && Within(hist, hist') && m.to in s.peers
    requires PeerOk(cl, u, m.to, s.peers[m.to], hist') && hist' == Record(cl, hist, s, s')
    requires CanHandle(cl, m.to, s.peers[m.to].node, m.phase, m.entry, m.opts)
    requires
      var (n, err) := Handle(cl, m.to, s.peers[m.to].node, m.phase, m.entry, m.opts);
      && s'.peers == s.peers[m.to := s.peers[m.to].(node := n)]
      && s'.net == s.net - {m} + {Reply(m.phase, m.to, m.from, m.no, m.entry, err)}
    ensures StepOk(cl, u, s, s', m.to, hist', false)
  {
    HistHolds(cl, hist, s, s', m.to, m.entry);
    HandleKeeps(cl, u, m.to, s.peers[m.to].node, m.phase, m.entry, m.opts, hist');
    assert m.from in cl.hosts by { assert PeersOk(cl.hosts, cl.peers(m.entry.key)); }
    hide Handle, NodeOk;
    GrewIsStep(cl, u, s, s', m.to, hist');
  }

  lemma DeliverStep(cl: Cluster, u: iset<Entry>, s: Sys, l: Label, hist: Hist, hist': Hist)
    requires l.Deliver? && Before(cl, u, s, l, hist, hist')
    ensures StepOk(cl, u, s, Next(cl, u, s, l), l.m.to, hist', false)
  {
    var s', m := Next(cl, u, s, l), l.m;
    assert MsgOk(cl, u, m, hist);
    hide MsgOk, PeerOk, StepOk, ValidCluster, Handle;
    HandledStep(cl, u, s, s', m, hist, hist');
  }

  lemma EndStep(cl: Cluster, u: iset<Entry>, s: Sys, s': Sys, x: Host, phase: Phase, err: Option<Error>, hist: Hist)
    requires ValidCluster(cl, u) && Safe(cl, u, s, hist) && x in s.peers && CanEnd(cl, x, s.peers[x], phase, err)
    requires s'.peers == s.peers[x := EndRound(cl, x, s.peers[x], phase, err)] && s'.net <= s.net
    requires PeerOk(cl, u, x, s.peers[x], Record(cl, hist, s, s'))
    ensures StepOk(cl, u, s, s', x, Record(cl, hist, s, s'), false)
  {
    HistHolds(cl, hist, s, s', x, RoundOf(s.peers[x], phase).value.req.entry);
    EndRoundKeeps(cl, u, x, s.peers[x], phase, err, Record(cl, hist, s, s'));
    GrewIsStep(cl, u, s, s', x, Record(cl, hist, s, s'));
  }

  lemma StartStep(cl: Cluster, u: iset<Entry>, s: Sys, l: Label, hist: Hist, hist': Hist)
    requires l.Start? && Before(cl, u, s, l, hist, hist')
    ensures StepOk(cl, u, s, Next(cl, u, s, l), l.at, hist', false)
  {
    StartKeeps(cl, u, l.at, s.peers[l.at], l.phase, hist');
    GrewIsStep(cl, u, s, Next(cl, u, s, l), l.at, hist');
  }

  /** Closing or dropping ballots keeps the rest as they should be. */
  lemma FewerBallots(cl: Cluster, u: iset<Entry>, x: Host, ballots: map<Id, BallotState>,
                     ballots': map<Id, BallotState>, hist: Hist)
    requires BallotsOk(cl, u, x, ballots, hist)
    requires forall id :: id in ballots' ==>
               id in ballots && (ballots'[id] == ballots[id]
                                 || (!ballots[id].closed && ballots'[id] == Ballots.Expire(ballots[id])))
    ensures BallotsOk(cl, u, x, ballots', hist)
  {
    forall id | id in ballots'
      ensures BallotOk(cl, u, x, id, ballots'[id], hist)
    {
      assert BallotOk(cl, u, x, id, ballots[id], hist);
    }
  }

  /** Steps that drop ballots or queues, or close a ballot, and do not touch logs. */
  lemma QuietShape(cl: Cluster, u: iset<Entry>, s: Sys, l: Label)
    requires (l.Expire? || l.ReapBallots? || l.Crash?) && Enabled(cl, u, s, l)
    ensures
      var s', p := Next(cl, u, s, l), s.peers[l.at];
      && l.at in s'.peers && s' == s.(peers := s.peers[l.at := s'.peers[l.at]])
      && var p' := s'.peers[l.at];
      && p'.node.store == p.node.store
      && (forall id :: id in p'.node.ballots ==>
            id in p.node.ballots && (p'.node.ballots[id] == p.node.ballots[id]
                                     || (!p.node.ballots[id].closed
                                         && p'.node.ballots[id] == Ballots.Expire(p.node.ballots[id]))))
      && (p' == p.(node := p.node.(ballots := p'.node.ballots))
          || (p'.node.pch == p'.node.cch == [] && p'.proposing.None? && p'.committing.None?))
  {
  }

  lemma QuietStep(cl: Cluster, u: iset<Entry>, s: Sys, l: Label, hist: Hist, hist': Hist)
    requires l.Expire? || l.ReapBallots? || l.Crash?
    requires Before(cl, u, s, l, hist, hist')
    ensures StepOk(cl, u, s, Next(cl, u, s, l), l.at, hist', false)
  {
    QuietShape(cl, u, s, l);
    QuietKeeps(cl, u, s, Next(cl, u, s, l), l.at, hist');
  }

  lemma QuietKeeps(cl: Cluster, u: iset<Entry>, s: Sys, s': Sys, x: Host, hist: Hist)
    requires x in s.peers && x in s'.peers && s' == s.(peers := s.peers[x := s'.peers[x]])
    requires PeerOk(cl, u, x, s.peers[x], hist)
    requires
      var p, p' := s.peers[x], s'.peers[x];
      && p'.node.store == p.node.store
      && (forall id :: id in p'.node.ballots ==>
            id in p.node.ballots && (p'.node.ballots[id] == p.node.ballots[id]
                                     || (!p.node.ballots[id].closed
                                         && p'.node.ballots[id] == Ballots.Expire(p.node.ballots[id]))))
      && (p' == p.(node := p.node.(ballots := p'.node.ballots))
          || (p'.node.pch == p'.node.cch == [] && p'.proposing.None? && p'.committing.None?))
    ensures StepOk(cl, u, s, s', x, hist, false)
  {
    FewerBallots(cl, u, x, s.peers[x].node.ballots, s'.peers[x].node.ballots, hist);
    GrewIsStep(cl, u, s, s', x, hist);
  }

  lemma ReceiveStep(cl: Cluster, u: iset<Entry>, s: Sys, l: Label, hist: Hist, hist': Hist)
    requires l.Receive? && Before(cl, u, s, l, hist, hist')
    ensures StepOk(cl, u, s, Next(cl, u, s, l), l.m.to, hist', false)
  {
    var s', x := Next(cl, u, s, l), l.m.to;
    if Awaited(s.peers[x], l.m) && Ends(s.peers[x], l.m) {
      EndStep(cl, u, s, s', x, l.m.phase, l.m.err, hist);
    } else {
      assert s'.peers[x].node == s.peers[x].node;
      GrewIsStep(cl, u, s, s', x, hist');
    }
  }

  lemma FailStep(cl: Cluster, u: iset<Entry>, s: Sys, l: Label, hist: Hist, hist': Hist)
    requires l.Fail? && Before(cl, u, s, l, hist, hist')
    ensures StepOk(cl, u, s, Next(cl, u, s, l), l.at, hist', false)
  {
    EndStep(cl, u, s, Next(cl, u, s, l), l.at, l.phase, Some(ErrTransport), hist);
  }

  lemma PullIsStep(cl: Cluster, u: iset<Entry>, s: Sys, l: Label, hist: Hist, hist': Hist)
    requires l.Pull? && Before(cl, u, s, l, hist, hist')
    ensures StepOk(cl, u, s, Next(cl, u, s, l), l.at, hist', true)
  {
    PullStep(cl, u, s, hist, l.at, l.from, l.key, l.i);
  }

  lemma AnyStep(cl: Cluster, u: iset<Entry>, s: Sys, l: Label, hist: Hist, hist': Hist, x: Host)
    requires Before(cl, u, s, l, hist, hist') && x == Actor(l).value
    ensures StepOk(cl, u, s, Next(cl, u, s, l), x, hist', l.Pull?)
  {
    assert !l.Lose?;
    assert x == if l.Deliver? || l.Receive? then l.m.to else l.at;
    hide *;
    match l {
      case ClientPropose(_, _, _) => ProposeStep(cl, u, s, l, hist, hist');
      case Start(_, _) => StartStep(cl, u, s, l, hist, hist');
      case Deliver(_) => DeliverStep(cl, u, s, l, hist, hist');
      case Receive(_) => ReceiveStep(cl, u, s, l, hist, hist');
      case Fail(_, _) => FailStep(cl, u, s, l, hist, hist');
      case Expire(_, _) => QuietStep(cl, u, s, l, hist, hist');
      case ReapBallots(_) => QuietStep(cl, u, s, l, hist, hist');
      case Crash(_) => QuietStep(cl, u, s, l, hist, hist');
      case Pull(_, _, _, _) => PullIsStep(cl, u, s, l, hist, hist');
    }
  }

  lemma BeforeStep(cl: Cluster, u: iset<Entry>, s: Sys, l: Label, hist: Hist)
    requires ValidCluster(cl, u) && Safe(cl, u, s, hist) && Enabled(cl, u, s, l) && !l.Lose?
    ensures Before(cl, u, s, l, hist, Record(cl, hist, s, Next(cl, u, s, l)))
  {
    var x := Actor(l).value;
    assert PeerOk(cl, u, x, s.peers[x], hist);
    NodeOkMonotone(cl, u, x, s.peers[x].node, hist, Record(cl, hist, s, Next(cl, u, s, l)));
  }

  /** One step keeps everything. */
  lemma StepKeeps(cl: Cluster, u: iset<Entry>, s: Sys, l: Label, hist: Hist)
    requires ValidCluster(cl, u) && Safe(cl, u, s, hist) && Enabled(cl, u, s, l)
    ensures Safe(cl, u, Next(cl, u, s, l), Record(cl, hist, s, Next(cl, u, s, l)))
  {
    if l.Lose? {
      LoseShape(cl, u, s, l);
      hide *;
      NothingNew(cl, hist, s, Next(cl, u, s, l));
      FewerMessages(cl, u, s, Next(cl, u, s, l), hist);
    } else {
      assert Actor(l).Some?;
      hide *;
      BeforeStep(cl, u, s, l, hist);
      AnyStep(cl, u, s, l, hist, Record(cl, hist, s, Next(cl, u, s, l)), Actor(l).value);
      StepAt(cl, u, s, hist, Next(cl, u, s, l), Actor(l).value, l.Pull?);
    }
  }

  lemma LoseShape(cl: Cluster, u: iset<Entry>, s: Sys, l: Label)
    requires l.Lose? && Enabled(cl, u, s, l)
    ensures Next(cl, u, s, l).peers == s.peers && Next(cl, u, s, l).net <= s.net
  {
  }

  lemma FewerMessages(cl: Cluster, u: iset<Entry>, s: Sys, s': Sys, hist: Hist)
    requires Safe(cl, u, s, hist) && s'.peers == s.peers && s'.net <= s.net
    ensures Safe(cl, u, s', hist)
  {
    hide PeerOk, MsgOk;
    assert BallotedReached(cl, s', hist);
    forall x, y, k | x in s'.peers && y in s'.peers && y in cl.peers(k)
      ensures Near(cl, s', x, y, k)
    {
      assert Near(cl, s, x, y, k);
    }
  }

  lemma NothingNew(cl: Cluster, hist: Hist, s: Sys, s': Sys)
    requires s'.peers == s.peers
    ensures Record(cl, hist, s, s') == hist
  {
  }

  lemma HistHolds(cl: Cluster, hist: Hist, s: Sys, s': Sys, x: Host, e: Entry)
    requires x in s.peers && x in s'.peers
    ensures Opens(cl.h, s.peers[x].node, s'.peers[x].node, e) ==> (x, e) in Record(cl, hist, s, s').balloted
    ensures Votes(cl, x, s.peers[x].node, s'.peers[x].node, e) ==> (x, e) in Record(cl, hist, s, s').voted
  {
    var t := (x, e);
    assert OpensAt(cl, s, s', t.0, t.1) ==> t in Record(cl, hist, s, s').balloted;
    assert VotesAt(cl, s, s', t.0, t.1) ==> t in Record(cl, hist, s, s').voted;
  }

  // ---- runs

  /** What has happened up to the `k`-th state of a run. */
  ghost function HistoryOf(cl: Cluster, states: seq<Sys>, k: nat): Hist
    requires k < |states|
  {
    if k == 0 then Hist(iset{}, iset{}) else Record(cl, HistoryOf(cl, states, k - 1), states[k - 1], states[k])
  }

  lemma {:induction false} RunIsSafe(cl: Cluster, u: iset<Entry>, states: seq<Sys>, labels: seq<Label>, k: nat)
    requires ValidCluster(cl, u) && Run(cl, u, states, labels) && k < |states|
    ensures Safe(cl, u, states[k], HistoryOf(cl, states, k))
  {
    if k == 0 {
      forall x, y, key | x in cl.hosts && y in cl.hosts && y in cl.peers(key)
        ensures Near(cl, states[0], x, y, key)
      {
      }
    } else {
      RunIsSafe(cl, u, states, labels, k - 1);
      StepKeeps(cl, u, states[k - 1], labels[k - 1], HistoryOf(cl, states, k - 1));
    }
  }

  /** In every reachable state, whatever proposals compete, whatever is lost, times out, is reaped, crashes or is
      pulled: the logs of a key at two of its peers differ in their last entries at most. */
  lemma DivergenceIsOneDeep(cl: Cluster, u: iset<Entry>, states: seq<Sys>, labels: seq<Label>, k: nat,
                            x: Host, y: Host, key: Key)
    requires ValidCluster(cl, u) && Run(cl, u, states, labels) && k < |states|
    requires x in cl.peers(key) && y in cl.peers(key)
    ensures x in states[k].peers && y in states[k].peers
    ensures
      var a, b := LogAt(states[k], x, key), LogAt(states[k], y, key);
      && ButLast(a) <= b && ButLast(b) <= a
      && -1 <= |a| - |b| <= 1
  {
    RunIsSafe(cl, u, states, labels, k);
    assert PeersOk(cl.hosts, cl.peers(key));
    assert Near(cl, states[k], x, y, key) && Near(cl, states[k], y, x, key);
  }

  /** Two entries that compete for the same place. */
  predicate Rivals(a: Entry, b: Entry) {
    a != b && a.key == b.key && a.previous == b.previous
  }

  /** Two entries in use can come next after one and the same log of the key. */
  ghost predicate HasRivals(h: Hashing, u: iset<Entry>, key: Key) {
    exists log, a, b ::
      Chain(h, u, key, log) && a in u && b in u && a.key == key && Rivals(a, b) && a.previous == LastId(h, log)
  }

  /** Where no two entries compete for one place, of two logs of a key one is a prefix of the other. */
  lemma ComparableWithoutRivals(cl: Cluster, u: iset<Entry>, states: seq<Sys>, labels: seq<Label>, k: nat,
                                x: Host, y: Host, key: Key)
    requires ValidCluster(cl, u) && Run(cl, u, states, labels) && k < |states|
    requires x in cl.peers(key) && y in cl.peers(key) && x in states[k].peers && y in states[k].peers
    requires !HasRivals(cl.h, u, key)
    ensures LogAt(states[k], x, key) <= LogAt(states[k], y, key) || LogAt(states[k], y, key) <= LogAt(states[k], x, key)
  {
    assert PeersOk(cl.hosts, cl.peers(key));
    hide Run, ValidCluster, HasRivals;
    DivergenceIsOneDeep(cl, u, states, labels, k, x, y, key);
    LogsAreChains(cl, u, states, labels, k, x, key);
    LogsAreChains(cl, u, states, labels, k, y, key);
    NoRivalsNoFork(cl.h, u, key, LogAt(states[k], x, key), LogAt(states[k], y, key));
  }

  lemma NoRivalsNoFork(h: Hashing, u: iset<Entry>, key: Key, a: seq<Entry>, b: seq<Entry>)
    requires Chain(h, u, key, a) && Chain(h, u, key, b) && ButLast(a) <= b && ButLast(b) <= a
    requires !HasRivals(h, u, key)
    ensures a <= b || b <= a
  {
    hide HasRivals;
    if |a| == |b| > 0 && a != b {
      ForkedRivals(h, u, key, a, b);
    }
  }

  /** The last entries of two logs, alike below, are rivals if they differ. */
  lemma ForkedRivals(h: Hashing, u: iset<Entry>, key: Key, a: seq<Entry>, b: seq<Entry>)
    requires Chain(h, u, key, a) && Chain(h, u, key, b) && ButLast(a) <= b && |a| == |b| > 0 && a != b
    ensures HasRivals(h, u, key)
  {
    var n := |a| - 1;
    var log := a[..n];
    assert log == b[..n] && a == log + [a[n]] && b == log + [b[n]];
    ChainPrefix(h, u, key, a, n);
    assert Rivals(a[n], b[n]) && a[n].previous == LastId(h, log);
    var e, g := a[n], b[n];
    assert Chain(h, u, key, log) && e in u && g in u && e.key == key && Rivals(e, g) && e.previous == LastId(h, log);
  }

  /** Where a recorded event happened. */
  lemma {:induction false} WhenBalloted(cl: Cluster, states: seq<Sys>, k: nat, p: Host, e: Entry) returns (j: nat)
    requires k < |states| && (p, e) in HistoryOf(cl, states, k).balloted
    ensures j < k && OpensAt(cl, states[j], states[j + 1], p, e)
  {
    var t := (p, e);
    if t in HistoryOf(cl, states, k - 1).balloted {
      j := WhenBalloted(cl, states, k - 1, p, e);
    } else {
      assert OpensAt(cl, states[k - 1], states[k], t.0, t.1);
      j := k - 1;
    }
  }

  lemma {:induction false} WhenVoted(cl: Cluster, states: seq<Sys>, k: nat, p: Host, e: Entry) returns (j: nat)
    requires k < |states| && (p, e) in HistoryOf(cl, states, k).voted
    ensures j < k && VotesAt(cl, states[j], states[j + 1], p, e)
  {
    var t := (p, e);
    if t in HistoryOf(cl, states, k - 1).voted {
      j := WhenVoted(cl, states, k - 1, p, e);
    } else {
      assert VotesAt(cl, states[k - 1], states[k], t.0, t.1);
      j := k - 1;
    }
  }

  /** If a step lets a node's log grow other than by a pull, it grows by one entry, and every peer `p` of the key had,
      by that step, verified that this entry came right after its own last one and opened a ballot for it (step `i`),
      and cast its own commit vote (step `j`), in that order. */
  lemma Unanimity(cl: Cluster, u: iset<Entry>, states: seq<Sys>, labels: seq<Label>, k: nat, x: Host, key: Key, p: Host)
    returns (e: Entry, i: nat, j: nat)
    requires ValidCluster(cl, u) && Run(cl, u, states, labels) && k < |labels| && !labels[k].Pull?
    requires x in cl.hosts && p in cl.peers(key) && x in states[k].peers && x in states[k + 1].peers
    requires LogAt(states[k + 1], x, key) != LogAt(states[k], x, key)
    ensures LogAt(states[k + 1], x, key) == LogAt(states[k], x, key) + [e]
    ensures i <= k && OpensAt(cl, states[i], states[i + 1], p, e)
    ensures i <= j <= k && VotesAt(cl, states[j], states[j + 1], p, e)
  {
    e := UnanimousEntry(cl, u, states, labels, k, x, key);
    j := WhenVoted(cl, states, k + 1, p, e);
    RunIsSafe(cl, u, states, labels, j + 1);
    assert (p, e) in HistoryOf(cl, states, j + 1).balloted by {
      VotedNow(cl, states, j, p, e);
    }
    i := WhenBalloted(cl, states, j + 1, p, e);
  }

  lemma VotedNow(cl: Cluster, states: seq<Sys>, j: nat, p: Host, e: Entry)
    requires j + 1 < |states| && VotesAt(cl, states[j], states[j + 1], p, e)
    ensures (p, e) in HistoryOf(cl, states, j + 1).voted
  {
    var t := (p, e);
    assert VotesAt(cl, states[j], states[j + 1], t.0, t.1);
  }

  lemma UnanimousEntry(cl: Cluster, u: iset<Entry>, states: seq<Sys>, labels: seq<Label>, k: nat, x: Host, key: Key)
    returns (e: Entry)
    requires ValidCluster(cl, u) && Run(cl, u, states, labels) && k < |labels| && !labels[k].Pull?
    requires x in cl.hosts && x in states[k].peers && x in states[k + 1].peers
    requires LogAt(states[k + 1], x, key) != LogAt(states[k], x, key)
    ensures LogAt(states[k + 1], x, key) == LogAt(states[k], x, key) + [e]
    ensures forall p :: p in cl.peers(key) ==>
              (p, e) in HistoryOf(cl, states, k + 1).voted && (p, e) in HistoryOf(cl, states, k + 1).balloted
  {
    RunIsSafe(cl, u, states, labels, k);
    RunIsSafe(cl, u, states, labels, k + 1);
    GrowthNeedsVotes(cl, u, states[k], labels[k], HistoryOf(cl, states, k), x, key);
    e := LogAt(states[k + 1], x, key)[|LogAt(states[k], x, key)|];
  }

  /** Outside of pulls only the votes of all peers let a log grow. */
  lemma GrowthNeedsVotes(cl: Cluster, u: iset<Entry>, s: Sys, l: Label, hist: Hist, x: Host, k: Key)
    requires ValidCluster(cl, u) && Safe(cl, u, s, hist) && Enabled(cl, u, s, l) && !l.Pull? && x in s.peers
    ensures
      var s' := Next(cl, u, s, l);
      x in s'.peers
      && (LogAt(s', x, k) == LogAt(s, x, k)
          || VotedGrowth(cl, u, LogAt(s, x, k), LogAt(s', x, k), k, Record(cl, hist, s, s')))
  {
    var s' := Next(cl, u, s, l);
    var hist' := Record(cl, hist, s, s');
    if !l.Lose? {
      BeforeStep(cl, u, s, l, hist);
      AnyStep(cl, u, s, l, hist, hist', Actor(l).value);
      if Actor(l).value == x {
        assert LogStep(cl, u, s, LogAt(s, x, k), LogAt(s', x, k), k, hist', false);
      }
    }
  }

  /** Requests never find a ballot of another size, and broadcasters can always finish: in every reachable state the
      conditions that `Enabled` puts on handlers hold, for clients' proposals as long as the source index they carry is
      below the size of the peer set. */
  lemma HandlersAreCallable(cl: Cluster, u: iset<Entry>, states: seq<Sys>, labels: seq<Label>, k: nat)
    requires ValidCluster(cl, u) && Run(cl, u, states, labels) && k < |states|
    ensures forall m :: m in states[k].net && m.Request? ==> Enabled(cl, u, states[k], Deliver(m))
    ensures forall m :: m in states[k].net && m.Reply? ==> Enabled(cl, u, states[k], Receive(m))
    ensures forall x, e, source :: x in cl.hosts && e in u && source < |cl.peers(e.key)| ==>
              Enabled(cl, u, states[k], ClientPropose(x, e, source))
  {
    RunIsSafe(cl, u, states, labels, k);
    var s, hist := states[k], HistoryOf(cl, states, k);
    forall m | m in s.net && m.Request?
      ensures Enabled(cl, u, s, Deliver(m))
    {
      assert MsgOk(cl, u, m, hist);
      assert PeersOk(cl.hosts, cl.peers(m.entry.key));
      assert PeerOk(cl, u, m.to, s.peers[m.to], hist);
      AlwaysCallable(cl, u, m.to, s.peers[m.to].node, m.entry, m.opts.sourceIndex, hist);
    }
    forall m | m in s.net && m.Reply?
      ensures Enabled(cl, u, s, Receive(m))
    {
      assert MsgOk(cl, u, m, hist);
      var p := s.peers[m.to];
      assert PeerOk(cl, u, m.to, p, hist);
      if RoundOf(p, m.phase).Some? {
        var req := RoundOf(p, m.phase).value.req;
        AlwaysCallable(cl, u, m.to, p.node, req.entry, req.opts.sourceIndex, hist);
      }
    }
    forall x, e, source | x in cl.hosts && e in u && source < |cl.peers(e.key)|
      ensures Enabled(cl, u, s, ClientPropose(x, e, source))
    {
      assert PeerOk(cl, u, x, s.peers[x], hist);
      AlwaysCallable(cl, u, x, s.peers[x].node, e, source, hist);
    }
  }

  /** Every log is a chain, in every reachable state. */
  lemma LogsAreChains(cl: Cluster, u: iset<Entry>, states: seq<Sys>, labels: seq<Label>, k: nat, x: Host, key: Key)
    requires ValidCluster(cl, u) && Run(cl, u, states, labels) && k < |states| && x in cl.hosts
    ensures x in states[k].peers && Chain(cl.h, u, key, LogAt(states[k], x, key))
  {
    RunIsSafe(cl, u, states, labels, k);
    ChainAt(cl, u, states[k], HistoryOf(cl, states, k), x, key);
  }

  /** Entry `e` was created by NewEntry (plus the fields its caller fills in) from the log of some node at some time. */
  ghost predicate MadeInRun(cl: Cluster, states: seq<Sys>, e: Entry) {
    exists k, x :: 0 <= k < |states| && x in states[k].peers && MadeFrom(cl.h, LogAt(states[k], x, e.key), e)
  }

  /** If every entry was created from a node's log, heights are positions everywhere, although no append checks them. */
  lemma HeightIsPosition(cl: Cluster, u: iset<Entry>, states: seq<Sys>, labels: seq<Label>, k: nat,
                         x: Host, key: Key, i: nat)
    requires ValidCluster(cl, u) && Run(cl, u, states, labels) && k < |states| && x in cl.hosts
    requires forall e :: e in u ==> MadeInRun(cl, states, e)
    ensures x in states[k].peers
    ensures i < |LogAt(states[k], x, key)| ==> LogAt(states[k], x, key)[i].height == ToUint32(i + 1)
  {
    LogsAreChains(cl, u, states, labels, k, x, key);
    var log := LogAt(states[k], x, key);
    if i < |log| {
      var e := log[i];
      assert MadeInRun(cl, states, e);
      var k', x' :| 0 <= k' < |states| && x' in states[k'].peers && MadeFrom(cl.h, LogAt(states[k'], x', e.key), e);
      RunIsSafe(cl, u, states, labels, k');
      LogsAreChains(cl, u, states, labels, k', x', key);
      ChainPrefix(cl.h, u, key, log, i);
      SameLast(cl.h, u, key, log[..i], LogAt(states[k'], x', key));
    }
  }
}
