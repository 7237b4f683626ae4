/** When nothing fails, an entry proposed by a client ends up committed at every peer, after a bounded number of
    steps. */
module Completion {
  import opened HexTypes
  import opened StoreSpec
  import opened Ballots
  import opened Nodes
  import opened Clusters
  import opened NodeFlow
  import opened Flows

  ghost predicate Votes(cl: Cluster, e: Entry, s: Sys, y: Host, x: Host, phase: Phase) {
    && y in s.peers && x in cl.peers(e.key)
    && Has(cl, e, s.peers[y].node, phase, Idx(cl.peers(e.key), x))
  }

  /** The flow that a state of the system is in. */
  ghost function FlowOf(cl: Cluster, e: Entry, s: Sys): Flow {
    var hosts := HostSet(cl.peers(e.key)) * s.peers.Keys;
    Flow(set x, ph | x in hosts && ph in BothPhases() && Votes(cl, e, s, x, x, ph) :: (x, ph),
         set x, ph | x in hosts && ph in BothPhases() && QueueOf(s.peers[x].node, ph) != [] :: (x, ph),
         map x, ph | x in hosts && ph in BothPhases() && RoundOf(s.peers[x], ph).Some? ::
           (x, ph) := (RoundOf(s.peers[x], ph).value.no, RoundOf(s.peers[x], ph).value.waiting),
         set y, x, ph | y in hosts && x in hosts && ph in BothPhases() && Votes(cl, e, s, y, x, ph) :: (y, x, ph),
         s.net)
  }

  ghost predicate PeerFlows(cl: Cluster, e: Entry, log: seq<Entry>, x: Host, p: Peer)
    requires x in cl.peers(e.key)
  {
    var r := OwnReq(cl, e, Idx(cl.peers(e.key), x));
    && NodeFlows(cl, e, log, x, p.node)
    && (forall ph :: QueueOf(p.node, ph) == [] || QueueOf(p.node, ph) == [r])
    && (forall ph :: RoundOf(p, ph).Some? ==> RoundOf(p, ph).value.req == r)
  }

  /** Only this entry is being proposed; hosts that are not peers of its key are idle. */
  ghost predicate SysFlows(cl: Cluster, e: Entry, log: seq<Entry>, s: Sys) {
    && s.peers.Keys == cl.hosts
    && (forall x :: x in cl.peers(e.key) && x in s.peers ==> PeerFlows(cl, e, log, x, s.peers[x]))
    && (forall x, ph :: x in s.peers && x !in cl.peers(e.key) ==>
          QueueOf(s.peers[x].node, ph) == [] && RoundOf(s.peers[x], ph).None?)
    && FlowOk(e, cl.peers(e.key), FlowOf(cl, e, s))
  }

  /** All logs of the key end at the entry's previous one, and nothing is going on. */
  ghost predicate Fresh(cl: Cluster, e: Entry, log: seq<Entry>, s: Sys) {
    && s.peers.Keys == cl.hosts && s.net == {}
    && forall x :: x in s.peers ==>
         && var p := s.peers[x];
         && p.node.pch == p.node.cch == [] && p.proposing.None? && p.committing.None?
         && cl.h.hash(e) !in p.node.ballots
         && (x in cl.peers(e.key) ==>
               LogOf(p.node.store, e.key) == log && (e.key in p.node.store ==> p.node.store[e.key].marker.None?))
  }

  /** No transport error, no timeout, no reaping, no crash, no pull; clients propose `e` only, and leave the source
      index open. */
  predicate NothingFails(cl: Cluster, e: Entry, l: Label) {
    match l
    case ClientPropose(at, e', source) => at in cl.peers(e.key) && e' == e && source < 0
    case Start(_, _) => true
    case Deliver(m) => true
    case Receive(m) => true
    case _ => false
  }

  lemma FreshFlow(cl: Cluster, u: iset<Entry>, e: Entry, log: seq<Entry>, s: Sys)
    requires Fresh(cl, e, log, s)
    ensures FlowOf(cl, e, s) == Flow({}, {}, map[], {}, {})
  {
    var f := FlowOf(cl, e, s);
    assert f.rounds == map[];
    assert f.queued == {};
    assert forall a, b, ph :: b in s.peers ==> !Votes(cl, e, s, a, b, ph);
    hide Votes;
  }

  lemma EmptyFlowOk(e: Entry, peers: seq<Host>)
    ensures FlowOk(e, peers, Flow({}, {}, map[], {}, {}))
  {
  }

  lemma FreshFlows(cl: Cluster, u: iset<Entry>, e: Entry, log: seq<Entry>, s: Sys)
    requires Setting(cl, u, e, log) && Fresh(cl, e, log, s)
    ensures SysFlows(cl, e, log, s)
    ensures FlowOf(cl, e, s) == Flow({}, {}, map[], {}, {})
  {
    assert PeersOk(cl.hosts, cl.peers(e.key));
    FreshFlow(cl, u, e, log, s);
    EmptyFlowOk(e, cl.peers(e.key));
    hide FlowOf, FlowOk;
  }

  lemma IdxUnique(cl: Cluster, u: iset<Entry>, k: Key, i: nat)
    requires ValidCluster(cl, u) && i < |cl.peers(k)|
    ensures Idx(cl.peers(k), cl.peers(k)[i]) == i
  {
    assert PeersOk(cl.hosts, cl.peers(k));
  }

  /** The votes after one node has taken the vote of `x` in `phase`. */
  lemma TookVotes(cl: Cluster, u: iset<Entry>, e: Entry, s: Sys, s': Sys, y: Host, x: Host, phase: Phase)
    requires ValidCluster(cl, u) && y in cl.peers(e.key) && x in cl.peers(e.key) && y in s.peers
    requires y in s'.peers && s'.peers == s.peers[y := s'.peers[y]]
    requires
      var ps := cl.peers(e.key);
      && Took(cl, e, s.peers[y].node, s'.peers[y].node, phase, Idx(ps, y), Idx(ps, x))
      && (phase.Committing? ==> Has(cl, e, s.peers[y].node, Proposing, Idx(ps, y)))
    ensures forall a, b, ph ::
              Votes(cl, e, s', a, b, ph)
              <==> Votes(cl, e, s, a, b, ph) || (a == y && ph == phase && (b == x || b == y))
  {
    var ps := cl.peers(e.key);
    assert PeersOk(cl.hosts, ps);
    forall a, b, ph
      ensures Votes(cl, e, s', a, b, ph)
              <==> Votes(cl, e, s, a, b, ph) || (a == y && ph == phase && (b == x || b == y))
    {
      if a == y && b in ps {
        assert Idx(ps, b) == Idx(ps, x) ==> b == x;
        assert Idx(ps, b) == Idx(ps, y) ==> b == y;
      }
    }
  }

  /** The flow after a node has taken a vote, its rounds and the messages apart. */
  lemma TookFlow(cl: Cluster, u: iset<Entry>, e: Entry, s: Sys, s': Sys, y: Host, x: Host, phase: Phase)
    requires ValidCluster(cl, u) && s.peers.Keys == cl.hosts && y in cl.peers(e.key) && x in cl.peers(e.key)
    requires y in s.peers && y in s'.peers && s'.peers == s.peers[y := s'.peers[y]]
    requires Took(cl, e, s.peers[y].node, s'.peers[y].node, phase, Idx(cl.peers(e.key), y), Idx(cl.peers(e.key), x))
    requires phase.Committing? ==> Has(cl, e, s.peers[y].node, Proposing, Idx(cl.peers(e.key), y))
    ensures
      var f, f' := FlowOf(cl, e, s), FlowOf(cl, e, s');
      && f'.began == Begin(f, y, phase).began
      && f'.queued == f.queued + (if (y, phase) in f.began then {} else {(y, phase)})
      && f'.got == Begin(f, y, phase).got + {(y, x, phase)}
  {
    TookVotes(cl, u, e, s, s', y, x, phase);
    TookQueues(cl, e, s, s', y, phase);
    assert y in HostSet(cl.peers(e.key)) && x in cl.hosts by { assert PeersOk(cl.hosts, cl.peers(e.key)); }
    TookBegan(cl, e, s, s', y, x, phase);
    hide FlowOf, Took;
  }

  /** The sets of the flow, read off the votes. */
  lemma TookBegan(cl: Cluster, e: Entry, s: Sys, s': Sys, y: Host, x: Host, phase: Phase)
    requires s'.peers.Keys == s.peers.Keys && x in s.peers && y in s.peers
    requires x in cl.peers(e.key) && y in cl.peers(e.key)
    requires forall a, b, ph ::
               Votes(cl, e, s', a, b, ph)
               <==> Votes(cl, e, s, a, b, ph) || (a == y && ph == phase && (b == x || b == y))
    ensures
      var f, f' := FlowOf(cl, e, s), FlowOf(cl, e, s');
      && (Votes(cl, e, s, y, y, phase) <==> (y, phase) in f.began)
      && f'.began == Begin(f, y, phase).began
      && f'.got == Begin(f, y, phase).got + {(y, x, phase)}
  {
    hide Votes;
    assert Votes(cl, e, s, y, y, phase) <==> (y, phase) in FlowOf(cl, e, s).began;
    assert Votes(cl, e, s, y, y, phase) <==> (y, y, phase) in FlowOf(cl, e, s).got;
  }

  lemma TookQueues(cl: Cluster, e: Entry, s: Sys, s': Sys, y: Host, phase: Phase)
    requires y in cl.peers(e.key) && y in s.peers && y in s'.peers && s'.peers == s.peers[y := s'.peers[y]]
    requires
      var self, n, n' := Idx(cl.peers(e.key), y), s.peers[y].node, s'.peers[y].node;
      && QueueOf(n', phase) == QueueOf(n, phase) + (if Has(cl, e, n, phase, self) then [] else [OwnReq(cl, e, self)])
      && (phase.Proposing? ==> n'.cch == n.cch) && (phase.Committing? ==> n'.pch == n.pch)
    ensures FlowOf(cl, e, s').queued ==
            FlowOf(cl, e, s).queued + if Votes(cl, e, s, y, y, phase) then {} else {(y, phase)}
  {
    forall x, ph | x in s.peers
      ensures QueueOf(s'.peers[x].node, ph) != []
              <==> QueueOf(s.peers[x].node, ph) != [] || (x == y && ph == phase && !Votes(cl, e, s, y, y, phase))
    {
    }
  }

  /** The rounds after a change at one node, in one phase. */
  lemma RoundsFlow(cl: Cluster, e: Entry, s: Sys, s': Sys, x: Host, phase: Phase)
    requires x in cl.peers(e.key) && x in s.peers && x in s'.peers && s'.peers == s.peers[x := s'.peers[x]]
    requires forall ph :: ph != phase ==> RoundOf(s'.peers[x], ph) == RoundOf(s.peers[x], ph)
    ensures
      var r, k, rounds := RoundOf(s'.peers[x], phase), (x, phase), FlowOf(cl, e, s).rounds;
      FlowOf(cl, e, s').rounds == if r.None? then rounds - {k} else rounds[k := (r.value.no, r.value.waiting)]
  {
    var r, k, f, f' := RoundOf(s'.peers[x], phase), (x, phase), FlowOf(cl, e, s), FlowOf(cl, e, s');
    var rounds := if r.None? then f.rounds - {k} else f.rounds[k := (r.value.no, r.value.waiting)];
    forall y, ph
      ensures (y, ph) in f'.rounds <==> (y, ph) in rounds
      ensures (y, ph) in rounds ==> f'.rounds[(y, ph)] == rounds[(y, ph)]
    {
    }
    assert forall t :: t in f'.rounds ==> t == (t.0, t.1);
    assert forall t :: t in rounds ==> t == (t.0, t.1);
  }

  lemma SameRounds(cl: Cluster, e: Entry, s: Sys, s': Sys, x: Host)
    requires x in s.peers && x in s'.peers && s'.peers == s.peers[x := s'.peers[x]]
    requires forall ph :: RoundOf(s'.peers[x], ph) == RoundOf(s.peers[x], ph)
    ensures FlowOf(cl, e, s').rounds == FlowOf(cl, e, s).rounds
  {
  }

  /** Ballots as they were: no vote is new. */
  lemma SameVotes(cl: Cluster, e: Entry, s: Sys, s': Sys, x: Host)
    requires x in s.peers && x in s'.peers && s'.peers == s.peers[x := s'.peers[x]]
    requires s'.peers[x].node.ballots == s.peers[x].node.ballots
    ensures FlowOf(cl, e, s').began == FlowOf(cl, e, s).began && FlowOf(cl, e, s').got == FlowOf(cl, e, s).got
  {
    forall a, b, ph
      ensures Votes(cl, e, s', a, b, ph) <==> Votes(cl, e, s, a, b, ph)
    {
    }
  }

  lemma SameQueues(cl: Cluster, e: Entry, s: Sys, s': Sys, x: Host)
    requires x in s.peers && x in s'.peers && s'.peers == s.peers[x := s'.peers[x]]
    requires forall ph :: QueueOf(s'.peers[x].node, ph) == QueueOf(s.peers[x].node, ph)
    ensures FlowOf(cl, e, s').queued == FlowOf(cl, e, s).queued
  {
  }

  lemma StartedQueue(cl: Cluster, e: Entry, s: Sys, s': Sys, x: Host, phase: Phase)
    requires x in cl.peers(e.key) && x in s.peers && x in s'.peers && s'.peers == s.peers[x := s'.peers[x]]
    requires QueueOf(s'.peers[x].node, phase) == []
    requires forall ph :: ph != phase ==> QueueOf(s'.peers[x].node, ph) == QueueOf(s.peers[x].node, ph)
    ensures FlowOf(cl, e, s').queued == FlowOf(cl, e, s).queued - {(x, phase)}
  {
    forall y, ph
      ensures (y, ph) in FlowOf(cl, e, s').queued <==> (y, ph) in FlowOf(cl, e, s).queued - {(x, phase)}
    {
    }
    assert forall t :: t in FlowOf(cl, e, s').queued ==> t == (t.0, t.1);
    assert forall t :: t in FlowOf(cl, e, s).queued ==> t == (t.0, t.1);
  }

  /** What the flow says about one node. */
  lemma FlowFacts(cl: Cluster, u: iset<Entry>, e: Entry, log: seq<Entry>, s: Sys, x: Host, phase: Phase)
    requires ValidCluster(cl, u) && SysFlows(cl, e, log, s) && x in cl.peers(e.key)
    ensures x in s.peers && Others(cl.peers(e.key), x) != {}
    ensures
      var ps, f, p := cl.peers(e.key), FlowOf(cl, e, s), s.peers[x];
      && PeerFlows(cl, e, log, x, p)
      && ((x, phase) in f.began <==> Has(cl, e, p.node, phase, Idx(ps, x)))
      && ((x, phase) in f.queued <==> QueueOf(p.node, phase) != [])
      && ((x, phase) in f.rounds <==> RoundOf(p, phase).Some?)
      && ((x, phase) in f.rounds ==>
           f.rounds[(x, phase)] == (RoundOf(p, phase).value.no, RoundOf(p, phase).value.waiting))
      && (Has(cl, e, p.node, phase, Idx(ps, x)) || QueueOf(p.node, phase) == [])
      && (cl.h.hash(e) in p.node.ballots <==> (x, Proposing) in f.began)
  {
    var ps := cl.peers(e.key);
    assert PeersOk(cl.hosts, ps);
    assert ps[0] in Others(ps, x) || ps[1] in Others(ps, x);
    assert PeerFlows(cl, e, log, x, s.peers[x]);
    assert Votes(cl, e, s, x, x, phase) <==> Has(cl, e, s.peers[x].node, phase, Idx(ps, x));
    assert Votes(cl, e, s, x, x, Proposing) <==> Has(cl, e, s.peers[x].node, Proposing, Idx(ps, x));
  }

  /** Only node `x` has changed, and it still follows the flow. */
  lemma FlowsAfter(cl: Cluster, e: Entry, log: seq<Entry>, s: Sys, s': Sys, x: Host)
    requires SysFlows(cl, e, log, s) && x in s.peers && x in s'.peers && s'.peers == s.peers[x := s'.peers[x]]
    requires x in cl.peers(e.key) && PeerFlows(cl, e, log, x, s'.peers[x])
    requires FlowOk(e, cl.peers(e.key), FlowOf(cl, e, s'))
    ensures SysFlows(cl, e, log, s')
  {
    forall y | y in cl.peers(e.key) && y in s'.peers
      ensures PeerFlows(cl, e, log, y, s'.peers[y])
    {
      assert y != x ==> PeerFlows(cl, e, log, y, s.peers[y]);
    }
  }

  /** A node that takes a vote, and may end a round, stays in the flow. */
  lemma PeerAfter(cl: Cluster, e: Entry, log: seq<Entry>, x: Host, p: Peer, p': Peer, phase: Phase, i: nat)
    requires x in cl.peers(e.key) && PeerFlows(cl, e, log, x, p) && NodeFlows(cl, e, log, x, p'.node)
    requires Took(cl, e, p.node, p'.node, phase, Idx(cl.peers(e.key), x), i)
    requires Has(cl, e, p.node, phase, Idx(cl.peers(e.key), x)) || QueueOf(p.node, phase) == []
    requires forall ph :: RoundOf(p', ph).Some? ==>
               RoundOf(p, ph).Some? && RoundOf(p', ph).value.req == RoundOf(p, ph).value.req
    ensures PeerFlows(cl, e, log, x, p')
  {
    hide NodeFlows, Has;
    var r := OwnReq(cl, e, Idx(cl.peers(e.key), x));
    forall ph
      ensures QueueOf(p'.node, ph) == [] || QueueOf(p'.node, ph) == [r]
      ensures RoundOf(p', ph).Some? ==> RoundOf(p', ph).value.req == r
    {
      assert QueueOf(p.node, ph) == [] || QueueOf(p.node, ph) == [r];
      assert RoundOf(p, ph).Some? ==> RoundOf(p, ph).value.req == r;
    }
  }

  // ---- the steps

  lemma ClientStep(cl: Cluster, u: iset<Entry>, e: Entry, log: seq<Entry>, s: Sys, l: Label)
    requires Setting(cl, u, e, log) && SysFlows(cl, e, log, s) && NothingFails(cl, e, l) && l.ClientPropose?
    requires Enabled(cl, u, s, l)
    ensures SysFlows(cl, e, log, Next(cl, u, s, l))
    ensures FlowOf(cl, e, Next(cl, u, s, l)) == Begin(FlowOf(cl, e, s), l.at, Proposing)
  {
    var x, ps, s', f := l.at, cl.peers(e.key), Next(cl, u, s, l), FlowOf(cl, e, s);
    var self, p, p' := Idx(ps, x), s.peers[x], s'.peers[x];
    assert PeerFlows(cl, e, log, x, p);
    FlowFacts(cl, u, e, log, s, x, Proposing);
    ClientFlows(cl, u, e, log, x, self, p.node, l.source);
    assert s'.peers == s.peers[x := p'] && s'.net == s.net && p' == p.(node := p'.node);
    assert NodeFlows(cl, e, log, x, p'.node);
    assert if cl.h.hash(e) in p.node.ballots then p' == p
           else Took(cl, e, p.node, p'.node, Proposing, self, self);
    assert FlowOk(e, ps, f) && s.peers.Keys == cl.hosts;
    hide Next, Enabled, Handle, Propose, NodeFlows, FlowOk, FlowOf, PeerFlows, SysFlows, Took, Setting, ValidCluster;
    if cl.h.hash(e) in p.node.ballots {
      assert s'.peers == s.peers;
    } else {
      TookFlow(cl, u, e, s, s', x, x, Proposing);
      SameRounds(cl, e, s, s', x);
      PeerAfter(cl, e, log, x, p, p', Proposing, self);
      BeginKeeps(e, ps, f, x, Proposing);
      assert FlowOf(cl, e, s') == Begin(f, x, Proposing);
      FlowsAfter(cl, e, log, s, s', x);
    }
  }

  lemma StartStep(cl: Cluster, u: iset<Entry>, e: Entry, log: seq<Entry>, s: Sys, l: Label)
    requires Setting(cl, u, e, log) && SysFlows(cl, e, log, s) && l.Start? && Enabled(cl, u, s, l)
    ensures l.at in cl.peers(e.key)
    ensures
      var s', f := Next(cl, u, s, l), FlowOf(cl, e, s);
      && SysFlows(cl, e, log, s') && (l.at, l.phase) in f.queued
      && FlowOf(cl, e, s') == FlowStart(e, cl.peers(e.key), f, l.phase, l.at, s.peers[l.at].rounds)
  {
    var x, phase, ps, s', f := l.at, l.phase, cl.peers(e.key), Next(cl, u, s, l), FlowOf(cl, e, s);
    assert x in ps;
    FlowFacts(cl, u, e, log, s, x, phase);
    var p, p', self := s.peers[x], s'.peers[x], Idx(ps, x);
    assert QueueOf(p.node, phase) == [OwnReq(cl, e, self)];
    StartedRound(cl, u, e, log, x, self, p, phase);
    assert p' == StartRound(cl, p, phase, x).0 && s'.peers == s.peers[x := p']
      && s'.net == s.net + StartRound(cl, p, phase, x).1;
    assert FlowOk(e, ps, f) && s.peers.Keys == cl.hosts;
    hide Next, Enabled, StartRound, NodeFlows, FlowOk, FlowOf, PeerFlows, SysFlows, Setting, ValidCluster;
    SameVotes(cl, e, s, s', x);
    StartedQueue(cl, e, s, s', x, phase);
    RoundsFlow(cl, e, s, s', x, phase);
    StartKeepsFlow(e, ps, f, phase, x, p.rounds);
    assert FlowOf(cl, e, s') == FlowStart(e, ps, f, phase, x, p.rounds);
    FlowsAfter(cl, e, log, s, s', x);
  }

  lemma StartedRound(cl: Cluster, u: iset<Entry>, e: Entry, log: seq<Entry>, x: Host, self: nat, p: Peer, phase: Phase)
    requires ValidCluster(cl, u) && x in cl.peers(e.key) && PeerFlows(cl, e, log, x, p)
    requires self == Idx(cl.peers(e.key), x) && QueueOf(p.node, phase) == [OwnReq(cl, e, self)]
    ensures
      var (p', out) := StartRound(cl, p, phase, x);
      var ps := cl.peers(e.key);
      && PeerFlows(cl, e, log, x, p')
      && p'.node.ballots == p.node.ballots && QueueOf(p'.node, phase) == []
      && RoundOf(p', phase) == Some(Round(p.rounds, OwnReq(cl, e, self), Others(ps, x)))
      && (forall ph :: ph != phase ==>
            QueueOf(p'.node, ph) == QueueOf(p.node, ph) && RoundOf(p', ph) == RoundOf(p, ph))
      && out == set y | y in Others(ps, x) :: ReqMsg(e, ps, phase, x, y, p.rounds)
  {
    var (p', out) := StartRound(cl, p, phase, x);
    var r := OwnReq(cl, e, self);
    assert NodeFlows(cl, e, log, x, p'.node);
    forall ph
      ensures QueueOf(p'.node, ph) == [] || QueueOf(p'.node, ph) == [r]
      ensures RoundOf(p', ph).Some? ==> RoundOf(p', ph).value.req == r
    {
      assert QueueOf(p.node, ph) == [] || QueueOf(p.node, ph) == [r];
      assert RoundOf(p, ph).Some? ==> RoundOf(p, ph).value.req == r;
    }
  }

  /** Delivery as a change of one node and the messages. */
  lemma DeliverShape(cl: Cluster, u: iset<Entry>, e: Entry, log: seq<Entry>, s: Sys, l: Label)
    requires Setting(cl, u, e, log) && SysFlows(cl, e, log, s) && l.Deliver? && Enabled(cl, u, s, l)
    ensures l.m.to in s.peers && l.m.to in cl.peers(e.key) && l.m.from in cl.peers(e.key)
    ensures
      var m, ps, s' := l.m, cl.peers(e.key), Next(cl, u, s, l);
      && m.to in s'.peers && s'.peers == s.peers[m.to := s'.peers[m.to]]
      && s'.net == s.net - {m} + {AckMsg(e, m.phase, m.to, m.from, m.no)}
      && var p, p' := s.peers[m.to], s'.peers[m.to];
      && (forall ph :: RoundOf(p', ph) == RoundOf(p, ph)) && NodeFlows(cl, e, log, m.to, p'.node)
      && Took(cl, e, p.node, p'.node, m.phase, Idx(ps, m.to), Idx(ps, m.from))
      && (m.phase.Committing? ==> Has(cl, e, p.node, Proposing, Idx(ps, m.to)))
  {
    DeliveredAt(cl, u, e, log, s, l.m);
    hide Handle, NodeFlows, SysFlows, Took, Setting, CanHandle, Has;
  }

  lemma DeliveredFlow(cl: Cluster, u: iset<Entry>, e: Entry, log: seq<Entry>, s: Sys, s': Sys, m: Msg)
    requires ValidCluster(cl, u) && SysFlows(cl, e, log, s) && m in s.net && m.Request?
    requires m.to in s.peers && m.to in cl.peers(e.key) && m.from in cl.peers(e.key)
    requires m.to in s'.peers && s'.peers == s.peers[m.to := s'.peers[m.to]]
    requires s'.net == s.net - {m} + {AckMsg(e, m.phase, m.to, m.from, m.no)}
    requires
      var ps, p, p' := cl.peers(e.key), s.peers[m.to], s'.peers[m.to];
      && (forall ph :: RoundOf(p', ph) == RoundOf(p, ph)) && NodeFlows(cl, e, log, m.to, p'.node)
      && Took(cl, e, p.node, p'.node, m.phase, Idx(ps, m.to), Idx(ps, m.from))
      && (m.phase.Committing? ==> Has(cl, e, p.node, Proposing, Idx(ps, m.to)))
    ensures SysFlows(cl, e, log, s') && FlowOf(cl, e, s') == FlowDeliver(e, FlowOf(cl, e, s), m)
  {
    hide NodeFlows, FlowOk, FlowOf, PeerFlows, SysFlows, Took, ValidCluster, Has;
    var ps, f := cl.peers(e.key), FlowOf(cl, e, s);
    FlowNow(cl, e, log, s);
    NetOf(cl, e, s');
    FlowFacts(cl, u, e, log, s, m.to, m.phase);
    TookFlow(cl, u, e, s, s', m.to, m.from, m.phase);
    SameRounds(cl, e, s, s', m.to);
    PeerAfter(cl, e, log, m.to, s.peers[m.to], s'.peers[m.to], m.phase, Idx(ps, m.from));
    DeliverKeepsFlow(e, ps, f, m);
    assert FlowOf(cl, e, s') == FlowDeliver(e, f, m);
    FlowsAfter(cl, e, log, s, s', m.to);
  }

  lemma DeliverStep(cl: Cluster, u: iset<Entry>, e: Entry, log: seq<Entry>, s: Sys, l: Label)
    requires Setting(cl, u, e, log) && SysFlows(cl, e, log, s) && l.Deliver? && Enabled(cl, u, s, l)
    ensures
      var s', f := Next(cl, u, s, l), FlowOf(cl, e, s);
      && SysFlows(cl, e, log, s') && FlowOf(cl, e, s') == FlowDeliver(e, f, l.m)
  {
    DeliverShape(cl, u, e, log, s, l);
    var s' := Next(cl, u, s, l);
    hide Next, NodeFlows, FlowOf, SysFlows, Took, Has;
    DeliveredFlow(cl, u, e, log, s, s', l.m);
  }

  lemma FlowNow(cl: Cluster, e: Entry, log: seq<Entry>, s: Sys)
    requires SysFlows(cl, e, log, s)
    ensures FlowOk(e, cl.peers(e.key), FlowOf(cl, e, s)) && FlowOf(cl, e, s).net == s.net && s.peers.Keys == cl.hosts
  {
  }

  lemma NetOf(cl: Cluster, e: Entry, s: Sys)
    ensures FlowOf(cl, e, s).net == s.net
  {
  }

  /** The request can be handled, and its vote is new to the node. */
  lemma DeliveredAt(cl: Cluster, u: iset<Entry>, e: Entry, log: seq<Entry>, s: Sys, m: Msg)
    requires Setting(cl, u, e, log) && SysFlows(cl, e, log, s) && m in s.net && m.Request?
    ensures m.to in cl.peers(e.key) && m.from in cl.peers(e.key) && m.to in s.peers
    ensures
      var ps, n := cl.peers(e.key), s.peers[m.to].node;
      && m == ReqMsg(e, ps, m.phase, m.from, m.to, m.no)
      && CanHandle(cl, m.to, n, m.phase, m.entry, m.opts)
      && var (n', err) := Handle(cl, m.to, n, m.phase, m.entry, m.opts);
      && err.None? && NodeFlows(cl, e, log, m.to, n')
      && Took(cl, e, n, n', m.phase, Idx(ps, m.to), Idx(ps, m.from))
      && (m.phase.Committing? ==> Has(cl, e, n, Proposing, Idx(ps, m.to)))
  {
    var ps, f, x, y := cl.peers(e.key), FlowOf(cl, e, s), m.from, m.to;
    RequestFits(e, ps, f, m);
    FlowFacts(cl, u, e, log, s, y, m.phase);
    FlowFacts(cl, u, e, log, s, y, Proposing);
    var n, self, i := s.peers[y].node, Idx(ps, y), Idx(ps, x);
    assert !Has(cl, e, n, m.phase, i) by {
      assert !Votes(cl, e, s, y, x, m.phase);
    }
    assert NodeFlows(cl, e, log, y, n);
    hide SysFlows, FlowOf, PeerFlows, FlowOk, NodeFlows, Propose, Commit, Took;
    if m.phase.Proposing? {
      ProposeFlows(cl, u, e, log, y, self, n, i);
    } else {
      CommitFlows(cl, u, e, log, y, self, n, i);
    }
  }

  lemma ReceiveStep(cl: Cluster, u: iset<Entry>, e: Entry, log: seq<Entry>, s: Sys, l: Label)
    requires Setting(cl, u, e, log) && SysFlows(cl, e, log, s) && l.Receive? && Enabled(cl, u, s, l)
    ensures
      var s', f := Next(cl, u, s, l), FlowOf(cl, e, s);
      && SysFlows(cl, e, log, s') && (l.m.to, l.m.phase) in f.rounds && FlowOf(cl, e, s') == FlowReceive(f, l.m)
  {
    var m, ps, s', f := l.m, cl.peers(e.key), Next(cl, u, s, l), FlowOf(cl, e, s);
    var x := m.to;
    ReceivedAt(cl, u, e, log, s, m);
    var p, p', self := s.peers[x], s'.peers[x], Idx(ps, x);
    FlowFacts(cl, u, e, log, s, x, m.phase);
    FlowFacts(cl, u, e, log, s, x, Committing);
    assert p' == ReceiveReply(cl, p, m) && s'.peers == s.peers[x := p'] && s'.net == s.net - {m};
    assert FlowOk(e, ps, f) && s.peers.Keys == cl.hosts;
    hide Next, Enabled, ReceiveReply, NodeFlows, FlowOk, FlowOf, PeerFlows, SysFlows, Took, Setting, ValidCluster;
    RoundsFlow(cl, e, s, s', x, m.phase);
    if p'.node == p.node {
      SameVotes(cl, e, s, s', x);
      SameQueues(cl, e, s, s', x);
    } else {
      TookFlow(cl, u, e, s, s', x, x, Committing);
    }
    ReceiveKeepsFlow(e, ps, f, m);
    assert FlowOf(cl, e, s') == FlowReceive(f, m);
    FlowsAfter(cl, e, log, s, s', x);
  }

  /** The reply is awaited; the last one of a proposal round makes the node cast its own commit vote, unless it has. */
  lemma ReceivedAt(cl: Cluster, u: iset<Entry>, e: Entry, log: seq<Entry>, s: Sys, m: Msg)
    requires Setting(cl, u, e, log) && SysFlows(cl, e, log, s) && m in s.net && m.Reply?
    ensures m.to in cl.peers(e.key) && m.to in s.peers
    ensures
      var ps, p := cl.peers(e.key), s.peers[m.to];
      var self := Idx(ps, m.to);
      && Awaited(p, m) && m.err.None?
      && (Ends(p, m) ==> CanEnd(cl, m.to, p, m.phase, m.err))
      && var p', r := ReceiveReply(cl, p, m), RoundOf(p, m.phase).value;
      && PeerFlows(cl, e, log, m.to, p')
      && (forall ph :: ph != m.phase ==> RoundOf(p', ph) == RoundOf(p, ph))
      && RoundOf(p', m.phase) ==
         (if r.waiting - {m.from} == {} then None else Some(r.(waiting := r.waiting - {m.from})))
      && (if m.phase.Proposing? && r.waiting - {m.from} == {} && !Has(cl, e, p.node, Committing, self)
          then p'.node != p.node && Took(cl, e, p.node, p'.node, Committing, self, self)
               && Has(cl, e, p.node, Proposing, self)
          else p'.node == p.node)
  {
    var ps, f, x := cl.peers(e.key), FlowOf(cl, e, s), m.to;
    hide SysFlows, FlowOf, FlowOk, ValidCluster, Commit;
    FlowNow(cl, e, log, s);
    ReplyFits(e, ps, f, m);
    FlowFacts(cl, u, e, log, s, x, m.phase);
    FlowFacts(cl, u, e, log, s, x, Committing);
    FlowFacts(cl, u, e, log, s, x, Proposing);
    var p, self, r := s.peers[x], Idx(ps, x), RoundOf(s.peers[x], m.phase).value;
    assert RoundOf(p, m.phase).value.req == OwnReq(cl, e, self);
    assert Awaited(p, m);
    assert r.waiting == {m.from} <==> r.waiting - {m.from} == {};
    hide PeerFlows, NodeFlows, Took, EndRound;
    ReplyFlows(cl, u, e, log, p, m, self);
  }

  lemma ReplyFlows(cl: Cluster, u: iset<Entry>, e: Entry, log: seq<Entry>, p: Peer, m: Msg, self: nat)
    requires Setting(cl, u, e, log) && m.to in cl.peers(e.key) && PeerFlows(cl, e, log, m.to, p)
    requires self == Idx(cl.peers(e.key), m.to) && Awaited(p, m) && m.err.None? && cl.h.hash(e) in p.node.ballots
    requires Has(cl, e, p.node, Committing, self) || QueueOf(p.node, Committing) == []
    ensures Ends(p, m) ==> CanEnd(cl, m.to, p, m.phase, m.err)
    ensures
      var p', r := ReceiveReply(cl, p, m), RoundOf(p, m.phase).value;
      && PeerFlows(cl, e, log, m.to, p')
      && (forall ph :: ph != m.phase ==> RoundOf(p', ph) == RoundOf(p, ph))
      && RoundOf(p', m.phase) == (if Ends(p, m) then None else Some(r.(waiting := r.waiting - {m.from})))
      && (if m.phase.Proposing? && Ends(p, m) && !Has(cl, e, p.node, Committing, self)
          then p'.node != p.node && Took(cl, e, p.node, p'.node, Committing, self, self)
               && Has(cl, e, p.node, Proposing, self)
          else p'.node == p.node)
  {
    var x := m.to;
    assert RoundOf(p, m.phase).value.req == OwnReq(cl, e, self);
    if Ends(p, m) && m.phase.Proposing? {
      OwnCommitFlows(cl, u, e, log, x, self, p.node);
      assert Has(cl, e, p.node, Proposing, self);
      var p' := ReceiveReply(cl, p, m);
      hide Commit, NodeFlows;
      if !Has(cl, e, p.node, Committing, self) {
        PeerAfter(cl, e, log, x, p, p', Committing, self);
        assert Has(cl, e, p'.node, Committing, self);
      } else {
        SameReqs(cl, e, log, x, p, p');
      }
    } else {
      SameReqs(cl, e, log, x, p, ReceiveReply(cl, p, m));
    }
  }

  lemma SameReqs(cl: Cluster, e: Entry, log: seq<Entry>, x: Host, p: Peer, p': Peer)
    requires x in cl.peers(e.key) && PeerFlows(cl, e, log, x, p) && p'.node == p.node
    requires forall ph :: RoundOf(p', ph).Some? ==>
               RoundOf(p, ph).Some? && RoundOf(p', ph).value.req == RoundOf(p, ph).value.req
    ensures PeerFlows(cl, e, log, x, p')
  {
  }

  /** What every step does to the flow: votes stay, a client's request is taken up, other steps lower the measure. */
  ghost predicate Advances(cl: Cluster, e: Entry, l: Label, f: Flow, f': Flow) {
    var n := |cl.peers(e.key)|;
    && f.began <= f'.began
    && (if l.ClientPropose? then (l.at, Proposing) in f'.began && Measure(n, f') == Measure(n, f)
        else Measure(n, f') < Measure(n, f))
  }

  lemma ClientAdvances(cl: Cluster, e: Entry, l: Label, f: Flow)
    requires l.ClientPropose? && f.queued <= f.began
    ensures Advances(cl, e, l, f, Begin(f, l.at, Proposing))
  {
    BeginMeasure(|cl.peers(e.key)|, f, l.at, Proposing);
  }

  lemma StartAdvances(cl: Cluster, e: Entry, l: Label, f: Flow, no: nat)
    requires l.Start? && l.at in cl.peers(e.key) && (l.at, l.phase) in f.queued
    ensures Advances(cl, e, l, f, FlowStart(e, cl.peers(e.key), f, l.phase, l.at, no))
  {
    hide Measure;
    StartMeasure(e, cl.peers(e.key), f, l.phase, l.at, no);
  }

  lemma DeliverAdvances(cl: Cluster, e: Entry, l: Label, f: Flow)
    requires l.Deliver? && f.queued <= f.began && l.m in f.net && l.m.Request?
    ensures Advances(cl, e, l, f, FlowDeliver(e, f, l.m))
  {
    hide Measure;
    DeliverMeasure(|cl.peers(e.key)|, e, f, l.m);
  }

  lemma ReceiveAdvances(cl: Cluster, e: Entry, l: Label, f: Flow)
    requires l.Receive? && f.queued <= f.began && l.m in f.net && l.m.Reply? && (l.m.to, l.m.phase) in f.rounds
    ensures Advances(cl, e, l, f, FlowReceive(f, l.m))
  {
    hide Measure;
    ReceiveMeasure(|cl.peers(e.key)|, f, l.m);
  }

  lemma StepFlows(cl: Cluster, u: iset<Entry>, e: Entry, log: seq<Entry>, s: Sys, l: Label)
    requires Setting(cl, u, e, log) && SysFlows(cl, e, log, s) && NothingFails(cl, e, l) && Enabled(cl, u, s, l)
    ensures SysFlows(cl, e, log, Next(cl, u, s, l))
    ensures Advances(cl, e, l, FlowOf(cl, e, s), FlowOf(cl, e, Next(cl, u, s, l)))
  {
    var f := FlowOf(cl, e, s);
    FlowNow(cl, e, log, s);
    assert f.queued <= f.began;
    hide Next, FlowOf, SysFlows, Setting, FlowOk, Advances;
    match l
    case ClientPropose(at, _, _) =>
      ClientStep(cl, u, e, log, s, l);
      ClientAdvances(cl, e, l, f);
    case Start(phase, at) =>
      StartStep(cl, u, e, log, s, l);
      StartAdvances(cl, e, l, f, s.peers[at].rounds);
    case Deliver(m) =>
      DeliverStep(cl, u, e, log, s, l);
      DeliverAdvances(cl, e, l, f);
    case Receive(m) =>
      ReceiveStep(cl, u, e, log, s, l);
      ReceiveAdvances(cl, e, l, f);
  }

  // ---- runs

  ghost predicate FailureFree(cl: Cluster, u: iset<Entry>, e: Entry, log: seq<Entry>, states: seq<Sys>,
                              labels: seq<Label>) {
    && |states| == |labels| + 1
    && Fresh(cl, e, log, states[0])
    && (forall k :: 0 <= k < |labels| ==> NothingFails(cl, e, labels[k]) && Enabled(cl, u, states[k], labels[k]))
    && (forall k :: 0 <= k < |labels| ==> states[k + 1] == Next(cl, u, states[k], labels[k]))
  }

  /** The steps of a run that are not requests by clients. */
  function ProtocolSteps(labels: seq<Label>): nat
    decreases labels
  {
    if labels == [] then 0
    else ProtocolSteps(labels[..|labels| - 1]) + if labels[|labels| - 1].ClientPropose? then 0 else 1
  }

  lemma StepsOneMore(labels: seq<Label>, k: nat)
    requires 0 < k <= |labels|
    ensures ProtocolSteps(labels[..k]) == ProtocolSteps(labels[..k - 1]) + if labels[k - 1].ClientPropose? then 0 else 1
  {
    assert labels[..k][..k - 1] == labels[..k - 1];
  }

  lemma {:induction false} RunFlows(cl: Cluster, u: iset<Entry>, e: Entry, log: seq<Entry>, states: seq<Sys>,
                                    labels: seq<Label>, k: nat)
    requires Setting(cl, u, e, log) && FailureFree(cl, u, e, log, states, labels) && k < |states|
    ensures SysFlows(cl, e, log, states[k])
    ensures
      var n := |cl.peers(e.key)|;
      ProtocolSteps(labels[..k]) + Measure(n, FlowOf(cl, e, states[k])) <= 2 * n * (2 * n)
  {
    if k == 0 {
      FreshFlows(cl, u, e, log, states[0]);
    } else {
      RunFlows(cl, u, e, log, states, labels, k - 1);
      assert NothingFails(cl, e, labels[k - 1]);
      StepFlows(cl, u, e, log, states[k - 1], labels[k - 1]);
      hide Measure, Next, Enabled, Fresh, SysFlows, FlowOf, Setting;
      StepsOneMore(labels, k);
    }
  }

  lemma {:induction false} BegunStays(cl: Cluster, u: iset<Entry>, e: Entry, log: seq<Entry>, states: seq<Sys>,
                                      labels: seq<Label>, j: nat, k: nat)
    requires Setting(cl, u, e, log) && FailureFree(cl, u, e, log, states, labels) && j < k < |states|
    requires labels[j].ClientPropose?
    ensures (labels[j].at, Proposing) in FlowOf(cl, e, states[k]).began
  {
    RunFlows(cl, u, e, log, states, labels, k - 1);
    assert NothingFails(cl, e, labels[k - 1]);
    StepFlows(cl, u, e, log, states[k - 1], labels[k - 1]);
    hide Measure, Next, Enabled, Fresh, SysFlows, FlowOf, Setting;
    if j < k - 1 {
      BegunStays(cl, u, e, log, states, labels, j, k - 1);
    }
  }

  /** Nothing is queued, being broadcast or under way. */
  predicate Quiet(s: Sys) {
    s.net == {} && forall x, ph :: x in s.peers ==> QueueOf(s.peers[x].node, ph) == [] && RoundOf(s.peers[x], ph).None?
  }

  /** The entry is in the log, once, and its ballot is closed without an error and with the votes of all. */
  ghost predicate Completed(cl: Cluster, e: Entry, log: seq<Entry>, n: Node) {
    var id, ps := cl.h.hash(e), cl.peers(e.key);
    && LogOf(n.store, e.key) == log + [e]
    && id in n.ballots
    && var b := n.ballots[id];
    && b.closed && b.err.None? && b.signals == [None]
    && |b.proposed| == |b.committed| == |ps|
    && forall i :: 0 <= i < |ps| ==> b.proposed[i] != "" && b.committed[i] != ""
  }

  /** If nothing fails, then once a client has proposed the entry and everything is drained, every peer has appended the
      entry and closed its ballot with success; whatever the order of deliveries, and however often and wherever it was
      proposed. */
  lemma FailureFreeCompletion(cl: Cluster, u: iset<Entry>, e: Entry, log: seq<Entry>, states: seq<Sys>,
                              labels: seq<Label>, j: nat, k: nat, x: Host)
    requires Setting(cl, u, e, log) && FailureFree(cl, u, e, log, states, labels) && j < k < |states|
    requires labels[j].ClientPropose? && Quiet(states[k]) && x in cl.peers(e.key)
    ensures x in states[k].peers && Completed(cl, e, log, states[k].peers[x].node)
  {
    var s, ps := states[k], cl.peers(e.key);
    RunFlows(cl, u, e, log, states, labels, k);
    BegunStays(cl, u, e, log, states, labels, j, k);
    QuietFlow(cl, e, log, s);
    QuietMeansComplete(e, ps, FlowOf(cl, e, s), labels[j].at);
    AllVotesComplete(cl, u, e, log, s, x);
  }

  lemma QuietFlow(cl: Cluster, e: Entry, log: seq<Entry>, s: Sys)
    requires SysFlows(cl, e, log, s) && Quiet(s)
    ensures FlowOf(cl, e, s).queued == {} && FlowOf(cl, e, s).rounds == map[]
    ensures FlowOk(e, cl.peers(e.key), FlowOf(cl, e, s))
  {
    var f := FlowOf(cl, e, s);
    assert forall t :: t in f.rounds ==> t == (t.0, t.1);
    assert forall t :: t in f.queued ==> t == (t.0, t.1);
  }

  lemma AllVotesComplete(cl: Cluster, u: iset<Entry>, e: Entry, log: seq<Entry>, s: Sys, x: Host)
    requires ValidCluster(cl, u) && SysFlows(cl, e, log, s) && x in cl.peers(e.key)
    requires forall y, z, ph :: y in cl.peers(e.key) && z in cl.peers(e.key) ==> (y, z, ph) in FlowOf(cl, e, s).got
    ensures x in s.peers && Completed(cl, e, log, s.peers[x].node)
  {
    var ps, id := cl.peers(e.key), cl.h.hash(e);
    FlowFacts(cl, u, e, log, s, x, Proposing);
    var n := s.peers[x].node;
    forall i, ph | 0 <= i < |ps|
      ensures Has(cl, e, n, ph, i)
    {
      IdxUnique(cl, u, e.key, i);
      assert (x, ps[i], ph) in FlowOf(cl, e, s).got;
      assert Votes(cl, e, s, x, ps[i], ph);
    }
    assert |ps| > 0 by { assert PeersOk(cl.hosts, ps); }
    assert Has(cl, e, n, Proposing, 0);
    var b := n.ballots[id];
    forall i | 0 <= i < |ps|
      ensures b.proposed[i] != "" && b.committed[i] != ""
    {
      assert Has(cl, e, n, Proposing, i) && Has(cl, e, n, Committing, i);
    }
    CountBounds(b.proposed);
    CountBounds(b.committed);
  }

  /** Not counting the clients' requests, a run with `n` peers takes at most `4 n^2` steps. */
  lemma StepsAreBounded(cl: Cluster, u: iset<Entry>, e: Entry, log: seq<Entry>, states: seq<Sys>, labels: seq<Label>)
    requires Setting(cl, u, e, log) && FailureFree(cl, u, e, log, states, labels)
    ensures var n := |cl.peers(e.key)|; ProtocolSteps(labels) <= 2 * n * (2 * n)
  {
    hide SysFlows, FlowOf, Measure, Setting, Bookkeeping;
    var k := |labels|;
    RunFlows(cl, u, e, log, states, labels, k);
    FlowNow(cl, e, log, states[k]);
    MeasureNotNegative(e, cl.peers(e.key), FlowOf(cl, e, states[k]));
    assert labels[..k] == labels;
  }

  /** Until everything is drained some step is possible that is not a client's request. */
  lemma NeverStuck(cl: Cluster, u: iset<Entry>, e: Entry, log: seq<Entry>, states: seq<Sys>, labels: seq<Label>, k: nat)
    returns (l: Label)
    requires Setting(cl, u, e, log) && FailureFree(cl, u, e, log, states, labels) && k < |states|
    requires !Quiet(states[k])
    ensures NothingFails(cl, e, l) && Enabled(cl, u, states[k], l) && !l.ClientPropose?
  {
    RunFlows(cl, u, e, log, states, labels, k);
    l := NextStep(cl, u, e, log, states[k]);
  }

  lemma NextStep(cl: Cluster, u: iset<Entry>, e: Entry, log: seq<Entry>, s: Sys) returns (l: Label)
    requires Setting(cl, u, e, log) && SysFlows(cl, e, log, s) && !Quiet(s)
    ensures NothingFails(cl, e, l) && Enabled(cl, u, s, l) && !l.ClientPropose?
  {
    if m :| m in s.net {
      if m.Request? {
        DeliveredAt(cl, u, e, log, s, m);
        l := Deliver(m);
      } else {
        ReceivedAt(cl, u, e, log, s, m);
        l := Receive(m);
      }
    } else {
      assert s.net == {};
      var x, ph :| x in s.peers && (QueueOf(s.peers[x].node, ph) != [] || RoundOf(s.peers[x], ph).Some?);
      assert RoundOf(s.peers[x], ph).None? by {
        if RoundOf(s.peers[x], ph).Some? {
          RoundIsUnderWay(cl, u, e, log, s, x, ph);
        }
      }
      l := Start(ph, x);
    }
  }

  lemma RoundIsUnderWay(cl: Cluster, u: iset<Entry>, e: Entry, log: seq<Entry>, s: Sys, x: Host, ph: Phase)
    requires ValidCluster(cl, u) && SysFlows(cl, e, log, s) && x in s.peers && RoundOf(s.peers[x], ph).Some?
    ensures s.net != {}
  {
    assert x in cl.peers(e.key);
    FlowFacts(cl, u, e, log, s, x, ph);
    FlowNow(cl, e, log, s);
    WaitedExists(e, cl.peers(e.key), FlowOf(cl, e, s), x, ph);
  }

  lemma WaitedExists(e: Entry, peers: seq<Host>, f: Flow, x: Host, ph: Phase)
    requires FlowOk(e, peers, f) && (x, ph) in f.rounds
    ensures f.net != {}
  {
    var y :| y in f.rounds[(x, ph)].1;
    assert (x, ph) in f.began && x in peers;
  }
}
