/** How logs come to fork: two entries that compete for one place can both be committed, at different peers, without any
    failure. */
module Forks {
  import opened HexTypes
  import opened Chains
  import opened StoreSpec
  import opened Ballots
  import opened Nodes
  import opened Clusters
  import opened NodeFlow
  import opened Flows
  import opened Completion

  // ---- one node, several entries

  /** All ballots but `id` are as they were. */
  ghost predicate Beside(n: Node, n': Node, id: Id) {
    forall j :: j != id ==> (j in n'.ballots <==> j in n.ballots) && (j in n.ballots ==> n'.ballots[j] == n.ballots[j])
  }

  lemma ProposalBeside(c: Conf, n: Node, e: Entry, peers: seq<Host>, self: nat, source: nat, prevHeight: nat)
    requires c.h.hash(e) in n.ballots && source < |peers| == |n.ballots[c.h.hash(e)].proposed|
    ensures Beside(n, TakeProposal(c, n, e, peers, self, source, prevHeight).0, c.h.hash(e))
  {
    hide AppendView, CastPropose;
  }

  lemma ProposeBeside(c: Conf, n: Node, e: Entry, opts: Options)
    requires Callable(c, n, e, opts)
    ensures Beside(n, Propose(c, n, e, opts).0, c.h.hash(e))
  {
    if EnoughPeers(c, opts.peers) && SelfIndex(opts.peers, c.host).Some? && Verify(c.h, n.store, e).1.None? {
      var self := SelfIndex(opts.peers, c.host).value;
      var source: nat := if opts.sourceIndex < 0 then self else opts.sourceIndex;
      var prevHeight := Verify(c.h, n.store, e).0;
      var n1 := OpenBallot(c, n, e, opts.peers, self, source, prevHeight);
      OpeningBeside(c, n, e, opts.peers, self, source, prevHeight);
      OpenedFits(c, n, e, opts.peers, self, source, prevHeight);
      hide TakeProposal, OpenBallot;
      ProposalBeside(c, n1, e, opts.peers, self, source, prevHeight);
    } else {
      hide TakeProposal, OpenBallot;
    }
  }

  lemma OpeningBeside(c: Conf, n: Node, e: Entry, peers: seq<Host>, self: nat, source: nat, prevHeight: nat)
    requires self < |peers|
    ensures Beside(n, OpenBallot(c, n, e, peers, self, source, prevHeight), c.h.hash(e))
  {
    hide CastPropose;
  }

  lemma CommitmentBeside(c: Conf, n: Node, id: Id, peers: seq<Host>, self: nat, i: nat)
    requires id in n.ballots && i < |peers| == |n.ballots[id].committed|
    ensures Beside(n, TakeCommit(c, n, id, peers, self, i).0, id)
  {
    hide AppendView, CastCommit;
  }

  lemma CommitBeside(c: Conf, n: Node, e: Entry, opts: Options)
    requires Callable(c, n, e, opts) && 0 <= opts.sourceIndex
    ensures Beside(n, Commit(c, n, e, opts).0, c.h.hash(e))
  {
    var id := c.h.hash(e);
    if EnoughPeers(c, opts.peers) && SelfIndex(opts.peers, c.host).Some? && id in n.ballots {
      var self := SelfIndex(opts.peers, c.host).value;
      CommitmentBeside(c, n, id, opts.peers, self, self);
      TakeCommitKeepsBallots(c, n, id, opts.peers, self, self);
      CommitmentBeside(c, TakeCommit(c, n, id, opts.peers, self, self).0, id, opts.peers, self, opts.sourceIndex);
    }
    hide TakeCommit;
  }

  lemma HandleBeside(cl: Cluster, x: Host, n: Node, phase: Phase, e: Entry, opts: Options)
    requires CanHandle(cl, x, n, phase, e, opts)
    ensures Beside(n, Handle(cl, x, n, phase, e, opts).0, cl.h.hash(e))
  {
    if phase.Proposing? {
      ProposeBeside(ConfOf(cl, x), n, e, opts);
    } else {
      CommitBeside(ConfOf(cl, x), n, e, opts);
    }
    hide Propose, Commit, Beside;
  }

  /** The entries of `es` all come next after `log`, so that any two of them are rivals. */
  ghost predicate Rivalry(cl: Cluster, u: iset<Entry>, k: Key, es: set<Entry>, log: seq<Entry>) {
    ValidCluster(cl, u) && forall e :: e in es ==> e.key == k && Setting(cl, u, e, log)
  }

  /** While a commit vote is missing the ballot is open. */
  lemma StillOpen(cl: Cluster, e: Entry, log: seq<Entry>, y: Host, n: Node, i: nat)
    requires NodeFlows(cl, e, log, y, n) && cl.h.hash(e) in n.ballots
    requires i < |cl.peers(e.key)| && !Has(cl, e, n, Committing, i)
    ensures !n.ballots[cl.h.hash(e)].closed
  {
    CountBounds(n.ballots[cl.h.hash(e)].committed);
  }

  /** One entry's flow is left alone by what happens to the ballot of another one, as long as that stays open. */
  lemma FlowsBeside(cl: Cluster, u: iset<Entry>, k: Key, es: set<Entry>, log: seq<Entry>, y: Host, n: Node, n': Node,
                    e: Entry, g: Entry)
    requires Rivalry(cl, u, k, es, log) && e in es && g in es && g != e
    requires NodeFlows(cl, g, log, y, n) && NodeFlows(cl, e, log, y, n') && Beside(n, n', cl.h.hash(e))
    requires cl.h.hash(e) in n'.ballots && !n'.ballots[cl.h.hash(e)].closed
    requires cl.h.hash(g) in n.ballots ==> !n.ballots[cl.h.hash(g)].closed
    ensures NodeFlows(cl, g, log, y, n')
    ensures forall ph, i :: Has(cl, g, n', ph, i) <==> Has(cl, g, n, ph, i)
  {
    if cl.h.hash(g) == cl.h.hash(e) {
      SameEntry(cl.h, u, g, e);
    }
  }

  // ---- the system

  /** The one of the first two peers whose commit vote is kept back from `y`. */
  function Away(ps: seq<Host>, y: Host): Host
    requires |ps| >= 2
  {
    if y == ps[0] then ps[1] else ps[0]
  }

  function Ask(cl: Cluster, e: Entry, y: Host): Req
    requires y in cl.peers(e.key)
  {
    OwnReq(cl, e, Idx(cl.peers(e.key), y))
  }

  /** All entries of `es` are in their flows at all peers, and none can be committed yet. */
  ghost predicate Duels(cl: Cluster, k: Key, es: set<Entry>, log: seq<Entry>, s: Sys) {
    && s.peers.Keys == cl.hosts && |cl.peers(k)| >= 2
    && (forall e, y :: e in es && y in cl.peers(k) && y in s.peers ==> NodeFlows(cl, e, log, y, s.peers[y].node))
    && (forall e, y :: e in es && y in cl.peers(k) ==> !Votes(cl, e, s, y, Away(cl.peers(k), y), Committing))
  }

  /** What `y` has still to broadcast. */
  function Line(s: Sys, y: Host, ph: Phase): seq<Req>
    requires y in s.peers
  {
    QueueOf(s.peers[y].node, ph)
  }

  /** Peers `ys` have taken the vote of `x` for `e`, after their own, and queued what they had not broadcast. */
  ghost predicate Spreads(cl: Cluster, k: Key, es: set<Entry>, e: Entry, phase: Phase, x: Host, s: Sys, s': Sys,
                          ys: set<Host>)
    requires e.key == k
  {
    && s'.peers.Keys == s.peers.Keys
    && (forall g, y, z, ph :: g in es && y in cl.peers(k) && z in cl.peers(k) ==>
          (Votes(cl, g, s', y, z, ph)
           <==> Votes(cl, g, s, y, z, ph) || (g == e && ph == phase && y in ys && (z == x || z == y))))
    && (forall y, ph :: y in cl.peers(k) && y in s.peers ==>
          Line(s', y, ph) == Line(s, y, ph)
          + if ph == phase && y in ys && !Votes(cl, e, s, y, y, phase) then [Ask(cl, e, y)] else [])
  }

  lemma OthersFlow(cl: Cluster, u: iset<Entry>, k: Key, es: set<Entry>, log: seq<Entry>, s: Sys, y: Host, n': Node,
                   e: Entry)
    requires Rivalry(cl, u, k, es, log) && Duels(cl, k, es, log, s) && e in es && y in cl.peers(k) && y in s.peers
    requires NodeFlows(cl, e, log, y, n') && Beside(s.peers[y].node, n', cl.h.hash(e)) && cl.h.hash(e) in n'.ballots
    requires Away(cl.peers(k), y) in cl.peers(k)
    requires !Has(cl, e, n', Committing, Idx(cl.peers(k), Away(cl.peers(k), y)))
    ensures forall g :: g in es ==> NodeFlows(cl, g, log, y, n')
    ensures forall g :: g in es && g != e ==>
              forall ph, i :: Has(cl, g, n', ph, i) <==> Has(cl, g, s.peers[y].node, ph, i)
  {
    var n, i := s.peers[y].node, Idx(cl.peers(k), Away(cl.peers(k), y));
    StillOpen(cl, e, log, y, n', i);
    forall g | g in es && g != e
      ensures NodeFlows(cl, g, log, y, n') && forall ph, i :: Has(cl, g, n', ph, i) <==> Has(cl, g, n, ph, i)
    {
      assert NodeFlows(cl, g, log, y, n);
      if cl.h.hash(g) in n.ballots {
        assert !Votes(cl, g, s, y, Away(cl.peers(k), y), Committing);
        StillOpen(cl, g, log, y, n, i);
      }
      FlowsBeside(cl, u, k, es, log, y, n, n', e, g);
    }
  }

  lemma OthersVotes(cl: Cluster, k: Key, es: set<Entry>, e: Entry, s: Sys, s': Sys, y: Host)
    requires y in s.peers && y in s'.peers && s'.peers == s.peers[y := s'.peers[y]]
    requires forall g :: g in es && g != e ==>
               forall ph, i :: Has(cl, g, s'.peers[y].node, ph, i) <==> Has(cl, g, s.peers[y].node, ph, i)
    ensures forall g, a, b, ph :: g in es && g != e ==> (Votes(cl, g, s', a, b, ph) <==> Votes(cl, g, s, a, b, ph))
  {
    hide Has;
  }

  /** A change at one node. */
  lemma TookSpreads(cl: Cluster, u: iset<Entry>, k: Key, es: set<Entry>, log: seq<Entry>, s: Sys, s': Sys, e: Entry,
                    phase: Phase, y: Host, x: Host)
    requires Rivalry(cl, u, k, es, log) && Duels(cl, k, es, log, s) && e in es && y in cl.peers(k) && x in cl.peers(k)
    requires y in s.peers && y in s'.peers && s'.peers == s.peers[y := s'.peers[y]]
    requires
      var ps, n, n' := cl.peers(k), s.peers[y].node, s'.peers[y].node;
      && NodeFlows(cl, e, log, y, n') && Beside(n, n', cl.h.hash(e)) && cl.h.hash(e) in n'.ballots
      && Took(cl, e, n, n', phase, Idx(ps, y), Idx(ps, x))
      && (phase.Committing? ==> x != Away(ps, y) && Has(cl, e, n, Proposing, Idx(ps, y)))
    ensures Duels(cl, k, es, log, s') && Spreads(cl, k, es, e, phase, x, s, s', {y})
  {
    var ps, n, n' := cl.peers(k), s.peers[y].node, s'.peers[y].node;
    TookVotes(cl, u, e, s, s', y, x, phase);
    assert y != Away(ps, y) && Away(ps, y) in ps by { assert PeersOk(cl.hosts, ps); }
    assert !Votes(cl, e, s', y, Away(ps, y), Committing);
    OthersFlow(cl, u, k, es, log, s, y, n', e);
    OthersVotes(cl, k, es, e, s, s', y);
    TookQueue(cl, k, e, s, s', phase, y, x);
    assert e.key == k;
    hide *;
    SpreadsBy(cl, k, es, e, phase, x, s, s', y);
    DuelsBy(cl, k, es, log, e, phase, x, s, s', y);
  }

  lemma SpreadsBy(cl: Cluster, k: Key, es: set<Entry>, e: Entry, phase: Phase, x: Host, s: Sys, s': Sys, y: Host)
    requires e.key == k && x in cl.peers(k) && y in cl.peers(k) && s'.peers.Keys == s.peers.Keys
    requires forall a, b, ph ::
               Votes(cl, e, s', a, b, ph)
               <==> Votes(cl, e, s, a, b, ph) || (a == y && ph == phase && (b == x || b == y))
    requires forall g, a, b, ph :: g in es && g != e ==> (Votes(cl, g, s', a, b, ph) <==> Votes(cl, g, s, a, b, ph))
    requires forall z, ph :: z in cl.peers(k) && z in s.peers && z in s'.peers ==>
               Line(s', z, ph) == Line(s, z, ph)
               + if ph == phase && z == y && !Votes(cl, e, s, z, z, phase) then [Ask(cl, e, z)] else []
    ensures Spreads(cl, k, es, e, phase, x, s, s', {y})
  {
    hide Votes, Ask, Line;
  }

  lemma DuelsBy(cl: Cluster, k: Key, es: set<Entry>, log: seq<Entry>, e: Entry, phase: Phase, x: Host, s: Sys, s': Sys,
                y: Host)
    requires Duels(cl, k, es, log, s) && y in s.peers && y in s'.peers && s'.peers == s.peers[y := s'.peers[y]]
    requires e.key == k && Spreads(cl, k, es, e, phase, x, s, s', {y}) && y in cl.peers(k) && x in cl.peers(k)
    requires Away(cl.peers(k), y) in cl.peers(k) && y != Away(cl.peers(k), y)
    requires phase.Committing? ==> x != Away(cl.peers(k), y)
    requires forall g :: g in es ==> NodeFlows(cl, g, log, y, s'.peers[y].node)
    ensures Duels(cl, k, es, log, s')
  {
    hide NodeFlows, Votes;
    forall g, z | g in es && z in cl.peers(k)
      ensures !Votes(cl, g, s', z, Away(cl.peers(k), z), Committing)
    {
      assert !Votes(cl, g, s, z, Away(cl.peers(k), z), Committing);
      assert Away(cl.peers(k), z) in cl.peers(k);
    }
  }

  lemma TookQueue(cl: Cluster, k: Key, e: Entry, s: Sys, s': Sys, phase: Phase, y: Host, x: Host)
    requires e.key == k && y in cl.peers(k) && x in cl.peers(k)
    requires y in s.peers && y in s'.peers && s'.peers == s.peers[y := s'.peers[y]]
    requires Took(cl, e, s.peers[y].node, s'.peers[y].node, phase, Idx(cl.peers(k), y), Idx(cl.peers(k), x))
    ensures forall z, ph :: z in cl.peers(k) && z in s.peers && z in s'.peers ==>
              Line(s', z, ph) == Line(s, z, ph)
              + if ph == phase && z == y && !Votes(cl, e, s, z, z, phase) then [Ask(cl, e, z)] else []
  {
    hide Has;
  }

  // ---- steps

  /** Nothing fails in such a step, and clients leave the source index open. */
  predicate Faultless(l: Label) {
    match l
    case ClientPropose(_, _, source) => source < 0
    case Start(_, _) => true
    case Deliver(_) => true
    case Receive(_) => true
    case _ => false
  }

  ghost predicate Path(cl: Cluster, u: iset<Entry>, s: Sys, labels: seq<Label>, s': Sys)
    decreases labels
  {
    if labels == [] then s' == s
    else Faultless(labels[0]) && Enabled(cl, u, s, labels[0]) && Path(cl, u, Next(cl, u, s, labels[0]), labels[1..], s')
  }

  /** Steps without any failure lead from one state to the other. */
  ghost predicate Leads(cl: Cluster, u: iset<Entry>, s: Sys, s': Sys) {
    exists labels :: Path(cl, u, s, labels, s')
  }

  lemma OneStep(cl: Cluster, u: iset<Entry>, s: Sys, l: Label)
    requires Faultless(l) && Enabled(cl, u, s, l)
    ensures Leads(cl, u, s, Next(cl, u, s, l))
  {
    hide Enabled, Next, Faultless;
    var s' := Next(cl, u, s, l);
    assert Path(cl, u, s', [], s');
    assert [l][1..] == [];
    assert Path(cl, u, s, [l], s');
  }

  lemma {:induction false} PathsJoin(cl: Cluster, u: iset<Entry>, s: Sys, a: seq<Label>, t: Sys, b: seq<Label>, s': Sys)
    requires Path(cl, u, s, a, t) && Path(cl, u, t, b, s')
    ensures Path(cl, u, s, a + b, s')
    decreases a
  {
    hide Enabled, Next, Faultless;
    if a == [] {
      assert a + b == b;
    } else {
      PathsJoin(cl, u, Next(cl, u, s, a[0]), a[1..], t, b, s');
      assert (a + b)[1..] == a[1..] + b && (a + b)[0] == a[0];
    }
  }

  lemma Onward(cl: Cluster, u: iset<Entry>, s: Sys, t: Sys, s': Sys)
    requires Leads(cl, u, s, t) && Leads(cl, u, t, s')
    ensures Leads(cl, u, s, s')
  {
    var a :| Path(cl, u, s, a, t);
    var b :| Path(cl, u, t, b, s');
    PathsJoin(cl, u, s, a, t, b, s');
  }

  /** A vote that is new to a peer, and not the last one it needs. */
  lemma TakenAt(cl: Cluster, u: iset<Entry>, k: Key, es: set<Entry>, log: seq<Entry>, s: Sys, e: Entry, phase: Phase,
                x: Host, y: Host)
    requires Rivalry(cl, u, k, es, log) && Duels(cl, k, es, log, s) && e in es
    requires x in cl.peers(k) && y in cl.peers(k) && x != y && y in s.peers && !Votes(cl, e, s, y, x, phase)
    requires phase.Committing? ==> Votes(cl, e, s, y, y, Proposing)
    ensures
      var ps, n := cl.peers(k), s.peers[y].node;
      && CanHandle(cl, y, n, phase, e, Options(Idx(ps, x), ps))
      && var (n', err) := Handle(cl, y, n, phase, e, Options(Idx(ps, x), ps));
      && err.None? && NodeFlows(cl, e, log, y, n') && Beside(n, n', cl.h.hash(e)) && cl.h.hash(e) in n'.ballots
      && Took(cl, e, n, n', phase, Idx(ps, y), Idx(ps, x))
      && (phase.Committing? ==> Has(cl, e, n, Proposing, Idx(ps, y)))
  {
    var ps, n := cl.peers(k), s.peers[y].node;
    assert Setting(cl, u, e, log) && NodeFlows(cl, e, log, y, n);
    assert !Has(cl, e, n, phase, Idx(ps, x)) && e.key == k;
    assert phase.Committing? ==> Has(cl, e, n, Proposing, Idx(ps, y)) && cl.h.hash(e) in n.ballots;
    hide Duels, Rivalry, Votes;
    if phase.Proposing? {
      ProposeFlows(cl, u, e, log, y, Idx(ps, y), n, Idx(ps, x));
    } else {
      CommitFlows(cl, u, e, log, y, Idx(ps, y), n, Idx(ps, x));
    }
    HandleBeside(cl, y, n, phase, e, Options(Idx(ps, x), ps));
    assert Has(cl, e, Handle(cl, y, n, phase, e, Options(Idx(ps, x), ps)).0, phase, Idx(ps, x)) by {
      hide Propose, Commit, NodeFlows, Has;
    }
    hide Propose, Commit, NodeFlows, Took;
  }

  lemma Delivered(cl: Cluster, u: iset<Entry>, k: Key, es: set<Entry>, log: seq<Entry>, s: Sys, e: Entry, phase: Phase,
                  x: Host, y: Host, no: nat)
    requires Rivalry(cl, u, k, es, log) && Duels(cl, k, es, log, s) && e in es && e.key == k
    requires x in cl.peers(k) && y in cl.peers(k) && x != y && !Votes(cl, e, s, y, x, phase)
    requires phase.Committing? ==> Votes(cl, e, s, y, y, Proposing) && x != Away(cl.peers(k), y)
    requires ReqMsg(e, cl.peers(k), phase, x, y, no) in s.net
    ensures
      var m := ReqMsg(e, cl.peers(k), phase, x, y, no);
      && Enabled(cl, u, s, Deliver(m))
      && var s' := Next(cl, u, s, Deliver(m));
      && Duels(cl, k, es, log, s') && Spreads(cl, k, es, e, phase, x, s, s', {y})
      && s'.net == s.net - {m} + {AckMsg(e, phase, y, x, no)} && RoundsStay(s, s')
  {
    var m := ReqMsg(e, cl.peers(k), phase, x, y, no);
    assert y in s.peers by { assert PeersOk(cl.hosts, cl.peers(k)); }
    TakenAt(cl, u, k, es, log, s, e, phase, x, y);
    hide Handle, NodeFlows, Took, Beside, Has, Duels, Rivalry, Votes;
    var s' := Next(cl, u, s, Deliver(m));
    assert s'.peers == s.peers[y := s'.peers[y]];
    hide Next, Enabled;
    TookSpreads(cl, u, k, es, log, s, s', e, phase, y, x);
  }

  ghost predicate RoundsStay(s: Sys, s': Sys) {
    s'.peers.Keys == s.peers.Keys
    && forall x, ph :: x in s.peers ==> RoundOf(s'.peers[x], ph) == RoundOf(s.peers[x], ph)
  }

  /** Nothing that concerns `es` changes. */
  lemma NodesStay(cl: Cluster, k: Key, es: set<Entry>, log: seq<Entry>, s: Sys, s': Sys, e: Entry, phase: Phase,
                  x: Host)
    requires Duels(cl, k, es, log, s) && e.key == k && s'.peers.Keys == s.peers.Keys
    requires forall y :: y in s.peers ==> s'.peers[y].node == s.peers[y].node
    ensures Duels(cl, k, es, log, s') && Spreads(cl, k, es, e, phase, x, s, s', {})
  {
    assert forall g, y, z, ph :: Votes(cl, g, s', y, z, ph) <==> Votes(cl, g, s, y, z, ph);
    hide NodeFlows, Votes;
  }

  /** `x` waits for the replies of `waiting`, and nobody else for anything. */
  ghost predicate Waits(cl: Cluster, k: Key, s: Sys, e: Entry, phase: Phase, x: Host, no: nat, waiting: set<Host>)
    requires e.key == k && x in cl.peers(k)
  {
    forall y, ph :: y in cl.peers(k) && y in s.peers ==>
      RoundOf(s.peers[y], ph) == if y == x && ph == phase then Some(Round(no, Ask(cl, e, x), waiting)) else None
  }

  ghost predicate Idle(cl: Cluster, k: Key, s: Sys) {
    s.net == {} && forall y, ph :: y in cl.peers(k) && y in s.peers ==> RoundOf(s.peers[y], ph).None?
  }

  lemma Received(cl: Cluster, u: iset<Entry>, s: Sys, m: Msg)
    requires m in s.net && m.Reply? && m.to in s.peers
    requires Awaited(s.peers[m.to], m) && Ends(s.peers[m.to], m) ==> CanEnd(cl, m.to, s.peers[m.to], m.phase, m.err)
    ensures Enabled(cl, u, s, Receive(m))
    ensures Next(cl, u, s, Receive(m)) == Sys(s.peers[m.to := ReceiveReply(cl, s.peers[m.to], m)], s.net - {m})
  {
    hide EndRound, CanEnd, Ends, Awaited;
  }

  lemma WaitsOn(cl: Cluster, k: Key, s: Sys, s': Sys, e: Entry, phase: Phase, x: Host, no: nat, waiting: set<Host>,
                waiting': set<Host>)
    requires e.key == k && x in cl.peers(k) && x in s.peers && Waits(cl, k, s, e, phase, x, no, waiting)
    requires x in s'.peers && s'.peers == s.peers[x := s'.peers[x]]
    requires RoundOf(s'.peers[x], phase) == Some(Round(no, Ask(cl, e, x), waiting'))
    requires forall ph :: ph != phase ==> RoundOf(s'.peers[x], ph) == RoundOf(s.peers[x], ph)
    ensures Waits(cl, k, s', e, phase, x, no, waiting')
  {
    hide Ask;
  }

  lemma WaitsNoMore(cl: Cluster, k: Key, s: Sys, s': Sys, e: Entry, phase: Phase, x: Host, no: nat, waiting: set<Host>)
    requires e.key == k && x in cl.peers(k) && x in s.peers && Waits(cl, k, s, e, phase, x, no, waiting)
    requires x in s'.peers && s'.peers == s.peers[x := s'.peers[x]] && s'.net == {}
    requires RoundOf(s'.peers[x], phase).None?
    requires forall ph :: ph != phase ==> RoundOf(s'.peers[x], ph) == RoundOf(s.peers[x], ph)
    ensures Idle(cl, k, s')
  {
    hide Ask;
  }

  lemma Acknowledges(cl: Cluster, u: iset<Entry>, k: Key, es: set<Entry>, log: seq<Entry>, s: Sys, e: Entry,
                     phase: Phase, x: Host, y: Host, no: nat, waiting: set<Host>)
    requires Rivalry(cl, u, k, es, log) && Duels(cl, k, es, log, s) && e in es && e.key == k && x in cl.peers(k)
    requires Waits(cl, k, s, e, phase, x, no, waiting) && y in waiting && waiting != {y}
    requires AckMsg(e, phase, y, x, no) in s.net
    ensures
      var m := AckMsg(e, phase, y, x, no);
      && Enabled(cl, u, s, Receive(m))
      && var s' := Next(cl, u, s, Receive(m));
      && Duels(cl, k, es, log, s') && Spreads(cl, k, es, e, phase, x, s, s', {})
      && s'.net == s.net - {m} && Waits(cl, k, s', e, phase, x, no, waiting - {y})
  {
    var m := AckMsg(e, phase, y, x, no);
    assert x in s.peers by { assert PeersOk(cl.hosts, cl.peers(k)); }
    assert RoundOf(s.peers[x], phase) == Some(Round(no, Ask(cl, e, x), waiting));
    hide EndRound, Duels, Rivalry, Waits, Next, Enabled;
    Received(cl, u, s, m);
    var s' := Next(cl, u, s, Receive(m));
    WaitsOn(cl, k, s, s', e, phase, x, no, waiting, waiting - {y});
    NodesStay(cl, k, es, log, s, s', e, phase, x);
  }

  /** The last reply of a commit round. */
  lemma CommitEnds(cl: Cluster, u: iset<Entry>, k: Key, es: set<Entry>, log: seq<Entry>, s: Sys, e: Entry,
                   x: Host, y: Host, no: nat)
    requires Rivalry(cl, u, k, es, log) && Duels(cl, k, es, log, s) && e in es && e.key == k && x in cl.peers(k)
    requires Waits(cl, k, s, e, Committing, x, no, {y}) && s.net == {AckMsg(e, Committing, y, x, no)}
    ensures
      var m := AckMsg(e, Committing, y, x, no);
      && Enabled(cl, u, s, Receive(m))
      && var s' := Next(cl, u, s, Receive(m));
      && Duels(cl, k, es, log, s') && Spreads(cl, k, es, e, Committing, x, s, s', {}) && Idle(cl, k, s')
  {
    var m := AckMsg(e, Committing, y, x, no);
    assert x in s.peers by { assert PeersOk(cl.hosts, cl.peers(k)); }
    assert RoundOf(s.peers[x], Committing) == Some(Round(no, Ask(cl, e, x), {y}));
    hide Handle, Duels, Rivalry, Waits, Next, Enabled;
    Received(cl, u, s, m);
    var s' := Next(cl, u, s, Receive(m));
    WaitsNoMore(cl, k, s, s', e, Committing, x, no, {y});
    NodesStay(cl, k, es, log, s, s', e, Committing, x);
  }

  /** The own commit vote at the end of a proposal round, as a change of the node. */
  lemma CastsOwn(cl: Cluster, u: iset<Entry>, k: Key, es: set<Entry>, log: seq<Entry>, e: Entry, x: Host, p: Peer)
    requires Rivalry(cl, u, k, es, log) && e in es && e.key == k && x in cl.peers(k)
    requires NodeFlows(cl, e, log, x, p.node) && cl.h.hash(e) in p.node.ballots
    requires p.proposing.Some? && p.proposing.value.req == Ask(cl, e, x)
    requires !Has(cl, e, p.node, Committing, Idx(cl.peers(k), x))
    ensures CanEnd(cl, x, p, Proposing, None)
    ensures
      var p', self := EndRound(cl, x, p, Proposing, None), Idx(cl.peers(k), x);
      && p'.proposing.None? && p'.committing == p.committing
      && NodeFlows(cl, e, log, x, p'.node) && Beside(p.node, p'.node, cl.h.hash(e)) && cl.h.hash(e) in p'.node.ballots
      && Took(cl, e, p.node, p'.node, Committing, self, self) && Has(cl, e, p.node, Proposing, self)
  {
    var self := Idx(cl.peers(k), x);
    assert Setting(cl, u, e, log);
    OwnCommitFlows(cl, u, e, log, x, self, p.node);
    CommitBeside(ConfOf(cl, x), p.node, e, OptsOf(cl, e, self));
    var p' := EndRound(cl, x, p, Proposing, None);
    assert Has(cl, e, p.node, Proposing, self);
    hide Commit, NodeFlows, Took;
    assert Has(cl, e, p'.node, Committing, self) by { TookHas(cl, e, p.node, p'.node, Committing, self); }
    hide Has;
  }

  lemma TookHas(cl: Cluster, e: Entry, n: Node, n': Node, phase: Phase, self: nat)
    requires Took(cl, e, n, n', phase, self, self) && self < |cl.peers(e.key)|
    ensures Has(cl, e, n', phase, self)
  {
    hide Has;
  }

  /** The last reply of a proposal round. */
  lemma ProposalEnds(cl: Cluster, u: iset<Entry>, k: Key, es: set<Entry>, log: seq<Entry>, s: Sys, e: Entry,
                     x: Host, y: Host, no: nat)
    requires Rivalry(cl, u, k, es, log) && Duels(cl, k, es, log, s) && e in es && e.key == k && x in cl.peers(k)
    requires Waits(cl, k, s, e, Proposing, x, no, {y}) && s.net == {AckMsg(e, Proposing, y, x, no)}
    requires Votes(cl, e, s, x, x, Proposing) && !Votes(cl, e, s, x, x, Committing)
    ensures
      var m := AckMsg(e, Proposing, y, x, no);
      && Enabled(cl, u, s, Receive(m))
      && var s' := Next(cl, u, s, Receive(m));
      && Duels(cl, k, es, log, s') && Spreads(cl, k, es, e, Committing, x, s, s', {x}) && Idle(cl, k, s')
  {
    var m, p := AckMsg(e, Proposing, y, x, no), s.peers[x];
    assert x != Away(cl.peers(k), x) && x in s.peers by { assert PeersOk(cl.hosts, cl.peers(k)); }
    assert RoundOf(p, Proposing) == Some(Round(no, Ask(cl, e, x), {y}));
    assert NodeFlows(cl, e, log, x, p.node);
    CastsOwn(cl, u, k, es, log, e, x, p);
    hide EndRound, CanEnd, Duels, Rivalry, NodeFlows, Beside, Took, Votes, Has, Waits, Next, Enabled;
    Received(cl, u, s, m);
    var s' := Next(cl, u, s, Receive(m));
    assert s'.peers == s.peers[x := EndRound(cl, x, p, Proposing, None)] && s'.net == {};
    WaitsNoMore(cl, k, s, s', e, Proposing, x, no, {y});
    TookSpreads(cl, u, k, es, log, s, s', e, Committing, x, x);
  }

  // ---- a whole round

  function Asked(cl: Cluster, e: Entry, phase: Phase, x: Host, no: nat, waiting: set<Host>): set<Msg>
    requires x in cl.peers(e.key)
  {
    set y | y in waiting :: ReqMsg(e, cl.peers(e.key), phase, x, y, no)
  }

  /** Which of its peers have still to get the vote of `x`. */
  ghost predicate Missing(cl: Cluster, k: Key, s: Sys, e: Entry, phase: Phase, x: Host, waiting: set<Host>) {
    && x in cl.peers(k) && x !in waiting && Votes(cl, e, s, x, x, Proposing) && Votes(cl, e, s, x, x, phase)
    && (phase.Proposing? ==> !Votes(cl, e, s, x, x, Committing))
    && forall y :: y in waiting ==>
         && y in cl.peers(k) && !Votes(cl, e, s, y, x, phase)
         && (phase.Committing? ==> Votes(cl, e, s, y, y, Proposing) && |cl.peers(k)| >= 2 && x != Away(cl.peers(k), y))
  }

  /** One peer gets the request and answers; the state in between is `t`. */
  lemma Exchange(cl: Cluster, u: iset<Entry>, k: Key, es: set<Entry>, log: seq<Entry>, s: Sys, e: Entry, phase: Phase,
                 x: Host, y: Host, no: nat, waiting: set<Host>)
    returns (t: Sys, s': Sys)
    requires Rivalry(cl, u, k, es, log) && Duels(cl, k, es, log, s) && e in es && e.key == k
    requires Missing(cl, k, s, e, phase, x, waiting) && Waits(cl, k, s, e, phase, x, no, waiting)
    requires s.net == Asked(cl, e, phase, x, no, waiting) && y in waiting
    ensures Leads(cl, u, s, s') && Duels(cl, k, es, log, s') && Spreads(cl, k, es, e, phase, x, s, t, {y})
    ensures
      if waiting == {y} then
        Idle(cl, k, s') && Spreads(cl, k, es, e, Committing, x, t, s', if phase.Proposing? then {x} else {})
      else
        && s'.net == Asked(cl, e, phase, x, no, waiting - {y}) && Waits(cl, k, s', e, phase, x, no, waiting - {y})
        && Spreads(cl, k, es, e, phase, x, t, s', {})
  {
    hide *;
    t := Asks(cl, u, k, es, log, s, e, phase, x, y, no, waiting);
    s' := Answers(cl, u, k, es, log, t, e, phase, x, y, no, waiting);
    Onward(cl, u, s, t, s');
  }

  lemma Asks(cl: Cluster, u: iset<Entry>, k: Key, es: set<Entry>, log: seq<Entry>, s: Sys, e: Entry, phase: Phase,
             x: Host, y: Host, no: nat, waiting: set<Host>)
    returns (t: Sys)
    requires Rivalry(cl, u, k, es, log) && Duels(cl, k, es, log, s) && e in es && e.key == k
    requires Missing(cl, k, s, e, phase, x, waiting) && Waits(cl, k, s, e, phase, x, no, waiting)
    requires s.net == Asked(cl, e, phase, x, no, waiting) && y in waiting
    ensures Leads(cl, u, s, t) && Duels(cl, k, es, log, t) && Spreads(cl, k, es, e, phase, x, s, t, {y})
    ensures Waits(cl, k, t, e, phase, x, no, waiting) && x in cl.peers(k)
    ensures AckMsg(e, phase, y, x, no) in t.net
    ensures t.net - {AckMsg(e, phase, y, x, no)} == Asked(cl, e, phase, x, no, waiting - {y})
    ensures Votes(cl, e, t, x, x, Proposing) && (phase.Proposing? ==> !Votes(cl, e, t, x, x, Committing))
  {
    var m := ReqMsg(e, cl.peers(k), phase, x, y, no);
    hide Duels, Rivalry, Votes, Next, Enabled, Leads, Waits;
    Delivered(cl, u, k, es, log, s, e, phase, x, y, no);
    t := Next(cl, u, s, Deliver(m));
    OneStep(cl, u, s, Deliver(m));
    RoundsWait(cl, k, s, t, e, phase, x, no, waiting);
    AskedLess(cl, e, phase, x, y, no, waiting, s.net, t.net);
    hide Asked, RoundsStay;
  }

  lemma AskedLess(cl: Cluster, e: Entry, phase: Phase, x: Host, y: Host, no: nat, waiting: set<Host>, net: set<Msg>,
                  net': set<Msg>)
    requires x in cl.peers(e.key) && net == Asked(cl, e, phase, x, no, waiting) && y in waiting
    requires net' == net - {ReqMsg(e, cl.peers(e.key), phase, x, y, no)} + {AckMsg(e, phase, y, x, no)}
    ensures net' - {AckMsg(e, phase, y, x, no)} == Asked(cl, e, phase, x, no, waiting - {y})
  {
  }

  lemma Answers(cl: Cluster, u: iset<Entry>, k: Key, es: set<Entry>, log: seq<Entry>, t: Sys, e: Entry, phase: Phase,
                x: Host, y: Host, no: nat, waiting: set<Host>)
    returns (s': Sys)
    requires Rivalry(cl, u, k, es, log) && Duels(cl, k, es, log, t) && e in es && e.key == k && x in cl.peers(k)
    requires Waits(cl, k, t, e, phase, x, no, waiting) && y in waiting
    requires AckMsg(e, phase, y, x, no) in t.net
    requires t.net - {AckMsg(e, phase, y, x, no)} == Asked(cl, e, phase, x, no, waiting - {y})
    requires Votes(cl, e, t, x, x, Proposing) && (phase.Proposing? ==> !Votes(cl, e, t, x, x, Committing))
    ensures Leads(cl, u, t, s') && Duels(cl, k, es, log, s')
    ensures
      if waiting == {y} then
        Idle(cl, k, s') && Spreads(cl, k, es, e, Committing, x, t, s', if phase.Proposing? then {x} else {})
      else
        && s'.net == Asked(cl, e, phase, x, no, waiting - {y}) && Waits(cl, k, s', e, phase, x, no, waiting - {y})
        && Spreads(cl, k, es, e, phase, x, t, s', {})
  {
    var ack := AckMsg(e, phase, y, x, no);
    hide Duels, Rivalry, Votes, Next, Enabled, Leads, Waits, Spreads, Asked, Idle;
    if waiting != {y} {
      Acknowledges(cl, u, k, es, log, t, e, phase, x, y, no, waiting);
    } else {
      assert waiting - {y} == {};
      AskedNobody(cl, e, phase, x, no, t.net, ack);
      if phase.Proposing? {
        ProposalEnds(cl, u, k, es, log, t, e, x, y, no);
      } else {
        CommitEnds(cl, u, k, es, log, t, e, x, y, no);
      }
    }
    s' := Next(cl, u, t, Receive(ack));
    OneStep(cl, u, t, Receive(ack));
  }

  lemma AskedNobody(cl: Cluster, e: Entry, phase: Phase, x: Host, no: nat, net: set<Msg>, m: Msg)
    requires x in cl.peers(e.key) && m in net && net - {m} == Asked(cl, e, phase, x, no, {})
    ensures net == {m}
  {
    assert Asked(cl, e, phase, x, no, {}) == {};
  }

  lemma RoundsWait(cl: Cluster, k: Key, s: Sys, s': Sys, e: Entry, phase: Phase, x: Host, no: nat, waiting: set<Host>)
    requires e.key == k && x in cl.peers(k) && Waits(cl, k, s, e, phase, x, no, waiting) && RoundsStay(s, s')
    ensures Waits(cl, k, s', e, phase, x, no, waiting)
  {
    hide Ask;
  }

  /** Both changes in one. */
  lemma SpreadsJoin(cl: Cluster, k: Key, es: set<Entry>, e: Entry, phase: Phase, x: Host, s: Sys, t: Sys, s': Sys,
                    ys: set<Host>, ys': set<Host>)
    requires e.key == k && Spreads(cl, k, es, e, phase, x, s, t, ys) && Spreads(cl, k, es, e, phase, x, t, s', ys')
    requires e in es && ys !! ys'
    ensures Spreads(cl, k, es, e, phase, x, s, s', ys + ys')
  {
    hide Votes, Ask;
  }

  /** All peers get the vote of `x`; if it is a proposal, `x` then casts its commit vote. */
  lemma {:induction false} RoundRuns(cl: Cluster, u: iset<Entry>, k: Key, es: set<Entry>, log: seq<Entry>, s: Sys,
                                     e: Entry, phase: Phase, x: Host, no: nat, waiting: set<Host>)
    returns (t: Sys, s': Sys)
    requires Rivalry(cl, u, k, es, log) && Duels(cl, k, es, log, s) && e in es && e.key == k
    requires Missing(cl, k, s, e, phase, x, waiting) && Waits(cl, k, s, e, phase, x, no, waiting)
    requires s.net == Asked(cl, e, phase, x, no, waiting) && waiting != {}
    ensures Leads(cl, u, s, s') && Duels(cl, k, es, log, s') && Idle(cl, k, s')
    ensures Spreads(cl, k, es, e, phase, x, s, t, waiting)
    ensures Spreads(cl, k, es, e, Committing, x, t, s', if phase.Proposing? then {x} else {})
    decreases waiting
  {
    hide *;
    var y :| y in waiting;
    var t1, s1 := Exchange(cl, u, k, es, log, s, e, phase, x, y, no, waiting);
    if waiting == {y} {
      t, s' := t1, s1;
    } else {
      SpreadsJoin(cl, k, es, e, phase, x, s, t1, s1, {y}, {});
      assert {y} + {} == {y} && {y} + (waiting - {y}) == waiting;
      MissingLess(cl, k, es, s, s1, e, phase, x, y, waiting);
      t, s' := RoundRuns(cl, u, k, es, log, s1, e, phase, x, no, waiting - {y});
      SpreadsJoin(cl, k, es, e, phase, x, s, s1, t, {y}, waiting - {y});
      Onward(cl, u, s, s1, s');
    }
  }

  lemma MissingLess(cl: Cluster, k: Key, es: set<Entry>, s: Sys, s': Sys, e: Entry, phase: Phase, x: Host, y: Host,
                    waiting: set<Host>)
    requires e.key == k && e in es && Spreads(cl, k, es, e, phase, x, s, s', {y})
    requires Missing(cl, k, s, e, phase, x, waiting) && y in waiting
    ensures Missing(cl, k, s', e, phase, x, waiting - {y})
  {
    hide Votes, Ask;
  }

  /** The votes and queues after `x` has gone through a whole round, with `rest` still to broadcast. */
  ghost predicate RoundDone(cl: Cluster, k: Key, es: set<Entry>, e: Entry, phase: Phase, x: Host, rest: seq<Req>,
                            s: Sys, s': Sys)
    requires e.key == k && x in cl.peers(k)
  {
    && s'.peers.Keys == s.peers.Keys
    && (forall g, y, z, ph :: g in es && y in cl.peers(k) && z in cl.peers(k) ==>
          (Votes(cl, g, s', y, z, ph)
           <==> || Votes(cl, g, s, y, z, ph)
                || (g == e && ph == phase && y != x && (z == x || z == y))
                || (g == e && phase == Proposing && ph == Committing && y == z == x)))
    && (forall y, ph :: y in cl.peers(k) && y in s.peers ==>
          Line(s', y, ph) ==
          if y == x && ph == phase then rest
          else Line(s, y, ph)
               + if ph == phase && !Votes(cl, e, s, y, y, phase) then [Ask(cl, e, y)]
                 else if phase == Proposing && ph == Committing && y == x then [Ask(cl, e, x)] else [])
  }

  lemma QueueAfter(cl: Cluster, k: Key, es: set<Entry>, e: Entry, phase: Phase, x: Host, rest: seq<Req>, s: Sys,
                   s': Sys, y: Host, ph: Phase)
    requires e.key == k && x in cl.peers(k) && RoundDone(cl, k, es, e, phase, x, rest, s, s')
    requires y in cl.peers(k) && y in s.peers
    ensures y in s'.peers
    ensures
      Line(s', y, ph) ==
      if y == x && ph == phase then rest
      else Line(s, y, ph)
           + if ph == phase && !Votes(cl, e, s, y, y, phase) then [Ask(cl, e, y)]
             else if phase == Proposing && ph == Committing && y == x then [Ask(cl, e, x)] else []
  {
    hide Votes, Ask, Line;
  }

  lemma StoresStay(cl: Cluster, k: Key, es: set<Entry>, log: seq<Entry>, s: Sys, s': Sys)
    requires Duels(cl, k, es, log, s) && s'.peers.Keys == s.peers.Keys
    requires forall y :: y in s.peers ==>
               s'.peers[y].node.ballots == s.peers[y].node.ballots && s'.peers[y].node.store == s.peers[y].node.store
    ensures Duels(cl, k, es, log, s')
    ensures forall g, y, z, ph :: Votes(cl, g, s', y, z, ph) <==> Votes(cl, g, s, y, z, ph)
  {
    forall g, y, z, ph
      ensures Votes(cl, g, s', y, z, ph) <==> Votes(cl, g, s, y, z, ph)
    {
    }
    forall e, y | e in es && y in cl.peers(k) && y in s'.peers
      ensures NodeFlows(cl, e, log, y, s'.peers[y].node)
    {
      assert NodeFlows(cl, e, log, y, s.peers[y].node);
    }
  }

  lemma StartsRound(cl: Cluster, u: iset<Entry>, k: Key, s: Sys, e: Entry, phase: Phase, x: Host, rest: seq<Req>)
    requires e.key == k && x in cl.peers(k) && x in s.peers && Idle(cl, k, s)
    requires Line(s, x, phase) == [Ask(cl, e, x)] + rest
    ensures Enabled(cl, u, s, Start(phase, x))
    ensures
      var s', no := Next(cl, u, s, Start(phase, x)), s.peers[x].rounds;
      && s'.peers.Keys == s.peers.Keys && s'.peers == s.peers[x := s'.peers[x]]
      && s'.peers[x].node.ballots == s.peers[x].node.ballots && s'.peers[x].node.store == s.peers[x].node.store
      && Line(s', x, phase) == rest
      && (forall ph :: ph != phase ==> Line(s', x, ph) == Line(s, x, ph))
      && s'.net == Asked(cl, e, phase, x, no, Others(cl.peers(k), x))
      && Waits(cl, k, s', e, phase, x, no, Others(cl.peers(k), x))
  {
    assert RoundOf(s.peers[x], phase).None?;
    assert ([Ask(cl, e, x)] + rest)[1..] == rest;
    var s', no := Next(cl, u, s, Start(phase, x)), s.peers[x].rounds;
    assert RoundOf(s'.peers[x], phase) == Some(Round(no, Ask(cl, e, x), Others(cl.peers(k), x)));
    assert forall ph :: ph != phase ==> RoundOf(s'.peers[x], ph) == RoundOf(s.peers[x], ph);
    assert s'.peers == s.peers[x := s'.peers[x]];
    hide Next, Enabled, Ask;
  }

  /** A broadcaster's whole round, with nothing else going on. */
  lemma WholeRound(cl: Cluster, u: iset<Entry>, k: Key, es: set<Entry>, log: seq<Entry>, s: Sys, e: Entry, phase: Phase,
                   x: Host, rest: seq<Req>)
    returns (s': Sys)
    requires Rivalry(cl, u, k, es, log) && Duels(cl, k, es, log, s) && e in es && e.key == k && Idle(cl, k, s)
    requires x in cl.peers(k) && x in s.peers && Line(s, x, phase) == [Ask(cl, e, x)] + rest
    requires Missing(cl, k, s, e, phase, x, Others(cl.peers(k), x))
    ensures Leads(cl, u, s, s') && Duels(cl, k, es, log, s') && Idle(cl, k, s')
    ensures RoundDone(cl, k, es, e, phase, x, rest, s, s')
  {
    hide *;
    OthersThere(cl, u, k, es, log, x);
    var s1 := StartsOut(cl, u, k, es, log, s, e, phase, x, rest);
    var t, r := RoundRuns(cl, u, k, es, log, s1, e, phase, x, s.peers[x].rounds, Others(cl.peers(k), x));
    Onward(cl, u, s, s1, r);
    s' := r;
    RoundAdds(cl, k, es, e, phase, x, rest, s, s1, t, s');
  }

  /** `x` has taken a request off its line. */
  ghost predicate Started(cl: Cluster, k: Key, e: Entry, phase: Phase, x: Host, rest: seq<Req>, s: Sys, s': Sys) {
    && x in s.peers && s'.peers.Keys == s.peers.Keys && s'.peers == s.peers[x := s'.peers[x]]
    && Line(s', x, phase) == rest
    && (forall ph :: ph != phase ==> Line(s', x, ph) == Line(s, x, ph))
    && (forall g, y, z, ph :: Votes(cl, g, s', y, z, ph) <==> Votes(cl, g, s, y, z, ph))
    && Votes(cl, e, s, x, x, Proposing) && Votes(cl, e, s, x, x, phase)
    && (phase.Proposing? ==> !Votes(cl, e, s, x, x, Committing))
  }

  lemma StartsOut(cl: Cluster, u: iset<Entry>, k: Key, es: set<Entry>, log: seq<Entry>, s: Sys, e: Entry, phase: Phase,
                  x: Host, rest: seq<Req>)
    returns (s': Sys)
    requires Duels(cl, k, es, log, s) && e.key == k && Idle(cl, k, s)
    requires x in cl.peers(k) && x in s.peers && Line(s, x, phase) == [Ask(cl, e, x)] + rest
    requires Missing(cl, k, s, e, phase, x, Others(cl.peers(k), x))
    ensures Leads(cl, u, s, s') && Duels(cl, k, es, log, s') && Started(cl, k, e, phase, x, rest, s, s')
    ensures Missing(cl, k, s', e, phase, x, Others(cl.peers(k), x))
    ensures Waits(cl, k, s', e, phase, x, s.peers[x].rounds, Others(cl.peers(k), x))
    ensures s'.net == Asked(cl, e, phase, x, s.peers[x].rounds, Others(cl.peers(k), x))
  {
    hide Duels, Idle, Missing, Next, Enabled, Leads, Waits, Asked, Votes, Line, Ask;
    OwnVotes(cl, k, s, e, phase, x, Others(cl.peers(k), x));
    StartsRound(cl, u, k, s, e, phase, x, rest);
    OneStepFree(cl, u, s, phase, x);
    s' := Next(cl, u, s, Start(phase, x));
    StoresStay(cl, k, es, log, s, s');
    MissingStays(cl, k, s, s', e, phase, x, Others(cl.peers(k), x));
  }

  lemma OthersThere(cl: Cluster, u: iset<Entry>, k: Key, es: set<Entry>, log: seq<Entry>, x: Host)
    requires Rivalry(cl, u, k, es, log)
    ensures Others(cl.peers(k), x) != {}
  {
    assert PeersOk(cl.hosts, cl.peers(k));
    assert cl.peers(k)[0] in Others(cl.peers(k), x) || cl.peers(k)[1] in Others(cl.peers(k), x);
  }

  lemma OwnVotes(cl: Cluster, k: Key, s: Sys, e: Entry, phase: Phase, x: Host, waiting: set<Host>)
    requires Missing(cl, k, s, e, phase, x, waiting)
    ensures Votes(cl, e, s, x, x, Proposing) && Votes(cl, e, s, x, x, phase)
    ensures phase.Proposing? ==> !Votes(cl, e, s, x, x, Committing)
  {
    hide Votes;
  }

  lemma OneStepFree(cl: Cluster, u: iset<Entry>, s: Sys, phase: Phase, x: Host)
    requires Enabled(cl, u, s, Start(phase, x))
    ensures Leads(cl, u, s, Next(cl, u, s, Start(phase, x)))
  {
    hide Enabled, Next, Leads;
    OneStep(cl, u, s, Start(phase, x));
  }

  lemma MissingStays(cl: Cluster, k: Key, s: Sys, s': Sys, e: Entry, phase: Phase, x: Host, waiting: set<Host>)
    requires Missing(cl, k, s, e, phase, x, waiting)
    requires forall g, y, z, ph :: Votes(cl, g, s', y, z, ph) <==> Votes(cl, g, s, y, z, ph)
    ensures Missing(cl, k, s', e, phase, x, waiting)
  {
    hide Votes;
  }

  lemma RoundAdds(cl: Cluster, k: Key, es: set<Entry>, e: Entry, phase: Phase, x: Host, rest: seq<Req>, s: Sys, s1: Sys,
                  t: Sys, s': Sys)
    requires e.key == k && e in es && x in cl.peers(k) && Started(cl, k, e, phase, x, rest, s, s1)
    requires Spreads(cl, k, es, e, phase, x, s1, t, Others(cl.peers(k), x))
    requires Spreads(cl, k, es, e, Committing, x, t, s', if phase.Proposing? then {x} else {})
    ensures RoundDone(cl, k, es, e, phase, x, rest, s, s')
  {
    hide Votes, Ask;
  }

  lemma ClientOpens(cl: Cluster, u: iset<Entry>, k: Key, es: set<Entry>, log: seq<Entry>, s: Sys, e: Entry, x: Host)
    returns (s': Sys)
    requires Rivalry(cl, u, k, es, log) && Duels(cl, k, es, log, s) && e in es && e.key == k && Idle(cl, k, s)
    requires x in cl.peers(k) && !Votes(cl, e, s, x, x, Proposing)
    ensures Leads(cl, u, s, s') && Duels(cl, k, es, log, s') && Idle(cl, k, s')
    ensures Spreads(cl, k, es, e, Proposing, x, s, s', {x})
  {
    var l, self := ClientPropose(x, e, -1), Idx(cl.peers(k), x);
    assert x in s.peers by { assert PeersOk(cl.hosts, cl.peers(k)); }
    var n := s.peers[x].node;
    assert Setting(cl, u, e, log) && NodeFlows(cl, e, log, x, n);
    assert cl.h.hash(e) !in n.ballots;
    ClientFlows(cl, u, e, log, x, self, n, -1);
    HandleBeside(cl, x, n, Proposing, e, OptsOf(cl, e, -1));
    assert Enabled(cl, u, s, l);
    s' := Next(cl, u, s, l);
    assert s'.peers == s.peers[x := s'.peers[x]] && s'.net == s.net && RoundsStay(s, s');
    hide Next, Enabled, Propose, NodeFlows, Took, Beside, Duels, Rivalry, Votes;
    TookSpreads(cl, u, k, es, log, s, s', e, Proposing, x, x);
    OneStep(cl, u, s, l);
    hide Leads;
  }

  // ---- the schedule

  /** The two rivals in the order in which peer `y` broadcasts them. */
  function First(ps: seq<Host>, a: Entry, b: Entry, y: Host): Entry
    requires |ps| >= 2
  {
    if y == ps[1] then b else a
  }

  function Second(ps: seq<Host>, a: Entry, b: Entry, y: Host): Entry
    requires |ps| >= 2
  {
    if y == ps[1] then a else b
  }

  function Listed(cl: Cluster, k: Key, a: Entry, b: Entry, y: Host, those: set<(Entry, Host)>): seq<Req>
    requires a.key == b.key == k && y in cl.peers(k) && |cl.peers(k)| >= 2
  {
    var e, g := First(cl.peers(k), a, b, y), Second(cl.peers(k), a, b, y);
    (if (e, y) in those then [Ask(cl, e, y)] else []) + (if (g, y) in those then [Ask(cl, g, y)] else [])
  }

  /** Every peer with either entry. */
  function Everybody(ps: seq<Host>, a: Entry, b: Entry): set<(Entry, Host)> {
    set e, y | e in {a, b} && y in ps :: (e, y)
  }

  /** The same without the first two peers. */
  function Inner(ps: seq<Host>, a: Entry, b: Entry): set<(Entry, Host)>
    requires |ps| >= 2
  {
    set t | t in Everybody(ps, a, b) && t.1 != ps[0] && t.1 != ps[1]
  }

  /** Peers broadcast their first entry before their second one. */
  ghost predicate InOrder(ps: seq<Host>, a: Entry, b: Entry, those: set<(Entry, Host)>)
    requires |ps| >= 2
  {
    forall y :: y in ps && (Second(ps, a, b, y), y) in those ==> (First(ps, a, b, y), y) in those
  }

  ghost predicate StageVotes(cl: Cluster, k: Key, a: Entry, b: Entry, s: Sys, p: set<(Entry, Host)>,
                             c: set<(Entry, Host)>)
  {
    forall g, y, z :: g in {a, b} && y in cl.peers(k) && z in cl.peers(k) ==>
      && (Votes(cl, g, s, y, z, Proposing) <==> y == z || (g, z) in p)
      && (Votes(cl, g, s, y, z, Committing) <==> (y == z && (g, y) in p) || (g, z) in c)
  }

  ghost predicate StageQueues(cl: Cluster, k: Key, a: Entry, b: Entry, s: Sys, p: set<(Entry, Host)>,
                              c: set<(Entry, Host)>)
    requires a.key == b.key == k && |cl.peers(k)| >= 2
  {
    forall y :: y in cl.peers(k) && y in s.peers ==>
      && Line(s, y, Proposing) == Listed(cl, k, a, b, y, Everybody(cl.peers(k), a, b) - p)
      && Line(s, y, Committing) == Listed(cl, k, a, b, y, p - c)
  }

  /** All peers have opened both ballots; the proposals in `p` and the commits in `c` have been broadcast, the other
      ones are queued. */
  ghost predicate Stage(cl: Cluster, k: Key, a: Entry, b: Entry, s: Sys, p: set<(Entry, Host)>, c: set<(Entry, Host)>)
    requires a.key == b.key == k && |cl.peers(k)| >= 2
  {
    var ps := cl.peers(k);
    && StageVotes(cl, k, a, b, s, p, c) && StageQueues(cl, k, a, b, s, p, c)
    && c <= p <= Everybody(ps, a, b) && InOrder(ps, a, b, p) && InOrder(ps, a, b, c) && c <= Inner(ps, a, b)
  }

  /** What peer `x` broadcasts next, and then. */
  function NextOf(ps: seq<Host>, a: Entry, b: Entry, x: Host, those: set<(Entry, Host)>): Entry
    requires |ps| >= 2
  {
    if (First(ps, a, b, x), x) in those then Second(ps, a, b, x) else First(ps, a, b, x)
  }

  lemma NextListed(cl: Cluster, k: Key, a: Entry, b: Entry, x: Host, all: set<(Entry, Host)>, those: set<(Entry, Host)>)
    returns (rest: seq<Req>)
    requires a.key == b.key == k && a != b && x in cl.peers(k) && |cl.peers(k)| >= 2
    requires InOrder(cl.peers(k), a, b, those) && (a, x) in all && (b, x) in all
             && ((a, x) !in those || (b, x) !in those)
    ensures
      var e := NextOf(cl.peers(k), a, b, x, those);
      && e in {a, b} && (e, x) !in those
      && Listed(cl, k, a, b, x, all - those) == [Ask(cl, e, x)] + rest
      && Listed(cl, k, a, b, x, all - (those + {(e, x)})) == rest
      && InOrder(cl.peers(k), a, b, those + {(e, x)})
  {
    var e := NextOf(cl.peers(k), a, b, x, those);
    rest := Listed(cl, k, a, b, x, all - (those + {(e, x)}));
  }

  /** The broadcaster appends to its other queue. */
  lemma NextAppended(cl: Cluster, k: Key, a: Entry, b: Entry, x: Host, those: set<(Entry, Host)>)
    requires a.key == b.key == k && a != b && x in cl.peers(k) && |cl.peers(k)| >= 2
    requires InOrder(cl.peers(k), a, b, those) && ((a, x) !in those || (b, x) !in those)
    ensures
      var e := NextOf(cl.peers(k), a, b, x, those);
      Listed(cl, k, a, b, x, those + {(e, x)}) == Listed(cl, k, a, b, x, those) + [Ask(cl, e, x)]
  {
  }

  lemma OthersListed(cl: Cluster, k: Key, a: Entry, b: Entry, y: Host, those: set<(Entry, Host)>,
                     those': set<(Entry, Host)>)
    requires a.key == b.key == k && y in cl.peers(k) && |cl.peers(k)| >= 2
    requires forall g :: (g, y) in those <==> (g, y) in those'
    ensures Listed(cl, k, a, b, y, those) == Listed(cl, k, a, b, y, those')
  {
  }

  lemma ProposalStage(cl: Cluster, k: Key, a: Entry, b: Entry, s: Sys, s': Sys, p: set<(Entry, Host)>, e: Entry,
                      x: Host, rest: seq<Req>)
    requires a.key == b.key == k && a != b && |cl.peers(k)| >= 2 && x in cl.peers(k) && Stage(cl, k, a, b, s, p, {})
    requires e == NextOf(cl.peers(k), a, b, x, p) && ((a, x) !in p || (b, x) !in p) && e.key == k
    requires cl.peers(k)[0] in s.peers && forall y :: y in cl.peers(k) ==> y in s.peers
    requires rest == Listed(cl, k, a, b, x, Everybody(cl.peers(k), a, b) - (p + {(e, x)}))
    requires InOrder(cl.peers(k), a, b, p + {(e, x)})
    requires RoundDone(cl, k, {a, b}, e, Proposing, x, rest, s, s')
    ensures Stage(cl, k, a, b, s', p + {(e, x)}, {})
  {
    var ps, p' := cl.peers(k), p + {(e, x)};
    NextAppended(cl, k, a, b, x, p);
    assert (e, x) in Everybody(ps, a, b);
    hide *;
    ProposalVotes(cl, k, a, b, s, s', p, e, x, rest);
    ProposalQueues(cl, k, a, b, s, s', p, e, x, rest);
    StageIs(cl, k, a, b, s', p', {});
  }

  lemma StageIs(cl: Cluster, k: Key, a: Entry, b: Entry, s: Sys, p: set<(Entry, Host)>, c: set<(Entry, Host)>)
    requires a.key == b.key == k && |cl.peers(k)| >= 2
    requires StageVotes(cl, k, a, b, s, p, c) && StageQueues(cl, k, a, b, s, p, c)
    requires c <= p <= Everybody(cl.peers(k), a, b) && c <= Inner(cl.peers(k), a, b)
    requires InOrder(cl.peers(k), a, b, p) && InOrder(cl.peers(k), a, b, c)
    ensures Stage(cl, k, a, b, s, p, c)
  {
    hide StageVotes, StageQueues, InOrder, Everybody, Inner;
  }

  lemma ProposalVotes(cl: Cluster, k: Key, a: Entry, b: Entry, s: Sys, s': Sys, p: set<(Entry, Host)>, e: Entry,
                      x: Host, rest: seq<Req>)
    requires a.key == b.key == k && x in cl.peers(k) && e in {a, b} && StageVotes(cl, k, a, b, s, p, {})
    requires RoundDone(cl, k, {a, b}, e, Proposing, x, rest, s, s')
    ensures StageVotes(cl, k, a, b, s', p + {(e, x)}, {})
  {
    hide Votes, Ask, Line;
  }

  lemma ProposalQueues(cl: Cluster, k: Key, a: Entry, b: Entry, s: Sys, s': Sys, p: set<(Entry, Host)>, e: Entry,
                       x: Host, rest: seq<Req>)
    requires a.key == b.key == k && a != b && |cl.peers(k)| >= 2 && x in cl.peers(k) && e in {a, b}
    requires StageVotes(cl, k, a, b, s, p, {}) && StageQueues(cl, k, a, b, s, p, {})
    requires forall y :: y in cl.peers(k) ==> y in s.peers
    requires rest == Listed(cl, k, a, b, x, Everybody(cl.peers(k), a, b) - (p + {(e, x)}))
    requires Listed(cl, k, a, b, x, p + {(e, x)}) == Listed(cl, k, a, b, x, p) + [Ask(cl, e, x)]
    requires RoundDone(cl, k, {a, b}, e, Proposing, x, rest, s, s')
    ensures StageQueues(cl, k, a, b, s', p + {(e, x)}, {})
  {
    var ps, p' := cl.peers(k), p + {(e, x)};
    assert p - {} == p && p' - {} == p';
    hide Votes, Ask, Line, Listed, Everybody;
    forall y | y in ps
      ensures Line(s', y, Proposing) == Listed(cl, k, a, b, y, Everybody(ps, a, b) - p')
      ensures Line(s', y, Committing) == Listed(cl, k, a, b, y, p')
    {
      assert Votes(cl, e, s, y, y, Proposing);
      if y != x {
        OthersListed(cl, k, a, b, y, p, p');
        OthersListed(cl, k, a, b, y, Everybody(ps, a, b) - p, Everybody(ps, a, b) - p');
      }
    }
    hide Listed;
  }

  /** All proposals go out, one whole round after the other. */
  lemma {:induction false} ProposalsRun(cl: Cluster, u: iset<Entry>, k: Key, a: Entry, b: Entry, log: seq<Entry>,
                                        s: Sys, p: set<(Entry, Host)>)
    returns (s': Sys)
    requires a.key == b.key == k && a != b && Rivalry(cl, u, k, {a, b}, log) && |cl.peers(k)| >= 2
    requires Duels(cl, k, {a, b}, log, s) && Idle(cl, k, s) && Stage(cl, k, a, b, s, p, {})
    ensures Leads(cl, u, s, s') && Duels(cl, k, {a, b}, log, s') && Idle(cl, k, s')
    ensures Stage(cl, k, a, b, s', Everybody(cl.peers(k), a, b), {})
    decreases Everybody(cl.peers(k), a, b) - p
  {
    var ps := cl.peers(k);
    var all := Everybody(ps, a, b);
    if p == all {
      s' := s;
      Stays(cl, u, s);
    } else {
      var t :| t in all - p;
      var x := t.1;
      PeersAreThere(cl, u, k, {a, b}, log, s);
      ProposalNext(cl, k, a, b, s, p, t);
      var e := NextOf(ps, a, b, x, p);
      hide *;
      var rest := NextListed(cl, k, a, b, x, all, p);
      var s1 := WholeRound(cl, u, k, {a, b}, log, s, e, Proposing, x, rest);
      ProposalStage(cl, k, a, b, s, s1, p, e, x, rest);
      s' := ProposalsRun(cl, u, k, a, b, log, s1, p + {(e, x)});
      Onward(cl, u, s, s1, s');
    }
  }

  lemma Stays(cl: Cluster, u: iset<Entry>, s: Sys)
    ensures Leads(cl, u, s, s)
  {
    assert Path(cl, u, s, [], s);
  }

  lemma PeersAreThere(cl: Cluster, u: iset<Entry>, k: Key, es: set<Entry>, log: seq<Entry>, s: Sys)
    requires ValidCluster(cl, u) && Duels(cl, k, es, log, s)
    ensures forall y :: y in cl.peers(k) ==> y in s.peers
    ensures cl.peers(k)[0] != cl.peers(k)[1]
  {
    assert PeersOk(cl.hosts, cl.peers(k));
  }

  lemma ProposalNext(cl: Cluster, k: Key, a: Entry, b: Entry, s: Sys, p: set<(Entry, Host)>, t: (Entry, Host))
    requires a.key == b.key == k && a != b && |cl.peers(k)| >= 2
    requires Stage(cl, k, a, b, s, p, {}) && t in Everybody(cl.peers(k), a, b) - p
    requires forall y :: y in cl.peers(k) ==> y in s.peers
    ensures
      var ps, all, x := cl.peers(k), Everybody(cl.peers(k), a, b), t.1;
      var e := NextOf(ps, a, b, x, p);
      && x in ps && (a, x) in all && (b, x) in all && e in {a, b} && e.key == k && (e, x) in all - p
      && ((a, x) !in p || (b, x) !in p) && InOrder(ps, a, b, p)
      && Line(s, x, Proposing) == Listed(cl, k, a, b, x, all - p)
      && Missing(cl, k, s, e, Proposing, x, Others(ps, x))
  {
    var ps, x := cl.peers(k), t.1;
    var e := NextOf(ps, a, b, x, p);
    assert (e, x) !in p;
    forall y | y in Others(ps, x)
      ensures !Votes(cl, e, s, y, x, Proposing)
    {
    }
    hide Votes;
  }

  lemma CommitStage(cl: Cluster, k: Key, a: Entry, b: Entry, s: Sys, s': Sys, c: set<(Entry, Host)>, e: Entry, x: Host,
                    rest: seq<Req>)
    requires a.key == b.key == k && a != b && |cl.peers(k)| >= 2 && x in cl.peers(k)
    requires Stage(cl, k, a, b, s, Everybody(cl.peers(k), a, b), c)
    requires e in {a, b} && (e, x) in Inner(cl.peers(k), a, b) - c
    requires forall y :: y in cl.peers(k) ==> y in s.peers
    requires rest == Listed(cl, k, a, b, x, Everybody(cl.peers(k), a, b) - (c + {(e, x)}))
    requires InOrder(cl.peers(k), a, b, c + {(e, x)})
    requires RoundDone(cl, k, {a, b}, e, Committing, x, rest, s, s')
    ensures Stage(cl, k, a, b, s', Everybody(cl.peers(k), a, b), c + {(e, x)})
  {
    var c', all := c + {(e, x)}, Everybody(cl.peers(k), a, b);
    assert (e, x) in all && forall y :: y in cl.peers(k) ==> (e, y) in all;
    assert InOrder(cl.peers(k), a, b, all) && c' <= Inner(cl.peers(k), a, b) && c' <= all;
    hide *;
    CommitVotes(cl, k, a, b, s, s', all, c, e, x, rest);
    CommitQueues(cl, k, a, b, s, s', c, e, x, rest);
    StageIs(cl, k, a, b, s', all, c');
  }

  lemma CommitVotes(cl: Cluster, k: Key, a: Entry, b: Entry, s: Sys, s': Sys, all: set<(Entry, Host)>,
                    c: set<(Entry, Host)>, e: Entry, x: Host, rest: seq<Req>)
    requires a.key == b.key == k && x in cl.peers(k) && e in {a, b} && StageVotes(cl, k, a, b, s, all, c)
    requires forall y :: y in cl.peers(k) ==> (e, y) in all
    requires RoundDone(cl, k, {a, b}, e, Committing, x, rest, s, s')
    ensures StageVotes(cl, k, a, b, s', all, c + {(e, x)})
  {
    assert Proposing != Committing;
    hide Votes, Ask, Line;
  }

  lemma CommitQueues(cl: Cluster, k: Key, a: Entry, b: Entry, s: Sys, s': Sys, c: set<(Entry, Host)>, e: Entry, x: Host,
                     rest: seq<Req>)
    requires a.key == b.key == k && a != b && |cl.peers(k)| >= 2 && x in cl.peers(k) && e in {a, b}
    requires
      var all := Everybody(cl.peers(k), a, b);
      && StageVotes(cl, k, a, b, s, all, c) && StageQueues(cl, k, a, b, s, all, c)
      && rest == Listed(cl, k, a, b, x, all - (c + {(e, x)}))
    requires forall y :: y in cl.peers(k) ==> y in s.peers
    requires RoundDone(cl, k, {a, b}, e, Committing, x, rest, s, s')
    ensures StageQueues(cl, k, a, b, s', Everybody(cl.peers(k), a, b), c + {(e, x)})
  {
    var ps, c', all := cl.peers(k), c + {(e, x)}, Everybody(cl.peers(k), a, b);
    hide Votes, Ask, Line;
    forall y | y in ps
      ensures Line(s', y, Proposing) == Listed(cl, k, a, b, y, all - all)
      ensures Line(s', y, Committing) == Listed(cl, k, a, b, y, all - c')
    {
      assert (e, y) in all;
      assert Votes(cl, e, s, y, y, Committing);
      assert Proposing != Committing;
      if y != x {
        OthersListed(cl, k, a, b, y, all - c, all - c');
      }
    }
    hide Listed;
  }

  lemma SomeLeft(all: set<(Entry, Host)>, some: set<(Entry, Host)>) returns (t: (Entry, Host))
    requires some <= all && some != all
    ensures t in all - some
  {
    t :| t in all && t !in some;
  }

  /** All commits go out but those of the first two peers. */
  lemma {:induction false} CommitsRun(cl: Cluster, u: iset<Entry>, k: Key, a: Entry, b: Entry, log: seq<Entry>, s: Sys,
                                      c: set<(Entry, Host)>)
    returns (s': Sys)
    requires a.key == b.key == k && a != b && Rivalry(cl, u, k, {a, b}, log) && |cl.peers(k)| >= 2
    requires Duels(cl, k, {a, b}, log, s) && Idle(cl, k, s)
    requires Stage(cl, k, a, b, s, Everybody(cl.peers(k), a, b), c)
    ensures Leads(cl, u, s, s') && Duels(cl, k, {a, b}, log, s') && Idle(cl, k, s')
    ensures Stage(cl, k, a, b, s', Everybody(cl.peers(k), a, b), Inner(cl.peers(k), a, b))
    decreases Inner(cl.peers(k), a, b) - c
  {
    var ps := cl.peers(k);
    var all, inner := Everybody(ps, a, b), Inner(ps, a, b);
    if c == inner {
      s' := s;
      Stays(cl, u, s);
    } else {
      var t := SomeLeft(inner, c);
      var x := t.1;
      PeersAreThere(cl, u, k, {a, b}, log, s);
      CommitNext(cl, k, a, b, s, c, t);
      var e := NextOf(ps, a, b, x, c);
      hide *;
      var rest := NextListed(cl, k, a, b, x, all, c);
      var s1 := WholeRound(cl, u, k, {a, b}, log, s, e, Committing, x, rest);
      CommitStage(cl, k, a, b, s, s1, c, e, x, rest);
      s' := CommitsRun(cl, u, k, a, b, log, s1, c + {(e, x)});
      Onward(cl, u, s, s1, s');
    }
  }

  lemma CommitNext(cl: Cluster, k: Key, a: Entry, b: Entry, s: Sys, c: set<(Entry, Host)>, t: (Entry, Host))
    requires a.key == b.key == k && a != b && |cl.peers(k)| >= 2
    requires Stage(cl, k, a, b, s, Everybody(cl.peers(k), a, b), c) && t in Inner(cl.peers(k), a, b) - c
    requires forall y :: y in cl.peers(k) ==> y in s.peers
    ensures
      var ps, all, x := cl.peers(k), Everybody(cl.peers(k), a, b), t.1;
      var e := NextOf(ps, a, b, x, c);
      && x in ps && (a, x) in all && (b, x) in all && e in {a, b} && e.key == k && (e, x) in Inner(ps, a, b) - c
      && ((a, x) !in c || (b, x) !in c) && InOrder(ps, a, b, c)
      && Line(s, x, Committing) == Listed(cl, k, a, b, x, all - c)
      && Missing(cl, k, s, e, Committing, x, Others(ps, x))
  {
    var ps, x, all := cl.peers(k), t.1, Everybody(cl.peers(k), a, b);
    var e := NextOf(ps, a, b, x, c);
    assert (e, x) !in c && (e, x) in all;
    forall y | y in Others(ps, x)
      ensures !Votes(cl, e, s, y, x, Committing) && Votes(cl, e, s, y, y, Proposing) && x != Away(ps, y)
    {
    }
    hide Votes;
  }

  // ---- the first steps

  /** All logs of the key are `log`, and neither entry has been heard of. */
  ghost predicate Blank(cl: Cluster, k: Key, es: set<Entry>, log: seq<Entry>, s: Sys) {
    && s.peers.Keys == cl.hosts && Idle(cl, k, s)
    && forall y :: y in cl.peers(k) && y in s.peers ==>
         && var n := s.peers[y].node;
         && n.pch == n.cch == [] && (forall e :: e in es ==> cl.h.hash(e) !in n.ballots)
         && LogOf(n.store, k) == log && (k in n.store ==> n.store[k].marker.None?)
  }

  lemma BlankDuels(cl: Cluster, u: iset<Entry>, k: Key, es: set<Entry>, log: seq<Entry>, s: Sys)
    requires Rivalry(cl, u, k, es, log) && Blank(cl, k, es, log, s)
    ensures Duels(cl, k, es, log, s)
    ensures forall g, y, z, ph :: g in es && y in cl.peers(k) ==> !Votes(cl, g, s, y, z, ph)
    ensures forall y, ph :: y in cl.peers(k) && y in s.peers ==> Line(s, y, ph) == []
  {
    assert PeersOk(cl.hosts, cl.peers(k));
    forall g, y, z, ph | g in es && y in cl.peers(k)
      ensures !Votes(cl, g, s, y, z, ph)
    {
      if y in s.peers {
        assert cl.h.hash(g) !in s.peers[y].node.ballots;
      }
    }
    hide Votes;
  }

  /** The first two peers have opened their ballots. */
  ghost predicate BothOpen(cl: Cluster, k: Key, a: Entry, b: Entry, s: Sys)
    requires a.key == b.key == k && |cl.peers(k)| >= 2
  {
    var ps := cl.peers(k);
    && (forall g, y, z, ph :: g in {a, b} && y in ps && z in ps ==>
          (Votes(cl, g, s, y, z, ph)
           <==> ph == Proposing && y == z && ((g == a && y == ps[0]) || (g == b && y == ps[1]))))
    && (forall y, ph :: y in ps && y in s.peers ==>
          Line(s, y, ph) ==
          if ph == Committing then [] else if y == ps[0] then [Ask(cl, a, y)]
          else if y == ps[1] then [Ask(cl, b, y)] else [])
  }

  /** The proposal of `a` has gone round. */
  ghost predicate OneRound(cl: Cluster, k: Key, a: Entry, b: Entry, s: Sys)
    requires a.key == b.key == k && |cl.peers(k)| >= 2
  {
    OneRoundVotes(cl, k, a, b, s) && OneRoundLines(cl, k, a, b, s)
  }

  ghost predicate OneRoundVotes(cl: Cluster, k: Key, a: Entry, b: Entry, s: Sys)
    requires |cl.peers(k)| >= 2
  {
    var ps := cl.peers(k);
    forall g, y, z, ph :: g in {a, b} && y in ps && z in ps ==>
      (Votes(cl, g, s, y, z, ph)
       <==> if ph == Committing then g == a && y == z == ps[0]
            else (g == a && (y == z || z == ps[0])) || (g == b && y == z == ps[1]))
  }

  ghost predicate OneRoundLines(cl: Cluster, k: Key, a: Entry, b: Entry, s: Sys)
    requires a.key == b.key == k && |cl.peers(k)| >= 2
  {
    var ps := cl.peers(k);
    forall y, ph :: y in ps && y in s.peers ==>
      Line(s, y, ph) ==
      if ph == Committing then (if y == ps[0] then [Ask(cl, a, y)] else [])
      else if y == ps[0] then []
      else if y == ps[1] then [Ask(cl, b, y)] + [Ask(cl, a, y)] else [Ask(cl, a, y)]
  }

  lemma BothAreOpen(cl: Cluster, k: Key, a: Entry, b: Entry, s: Sys, t: Sys, s': Sys)
    requires a.key == b.key == k && a != b && |cl.peers(k)| >= 2 && cl.peers(k)[0] != cl.peers(k)[1]
    requires forall g, y, z, ph :: g in {a, b} && y in cl.peers(k) ==> !Votes(cl, g, s, y, z, ph)
    requires forall y, ph :: y in cl.peers(k) && y in s.peers ==> Line(s, y, ph) == []
    requires Spreads(cl, k, {a, b}, a, Proposing, cl.peers(k)[0], s, t, {cl.peers(k)[0]})
    requires Spreads(cl, k, {a, b}, b, Proposing, cl.peers(k)[1], t, s', {cl.peers(k)[1]})
    ensures BothOpen(cl, k, a, b, s')
  {
    var ps := cl.peers(k);
    assert Proposing != Committing;
    hide Votes, Ask, Line;
    forall g, y, z, ph | g in {a, b} && y in ps && z in ps
      ensures Votes(cl, g, t, y, z, ph) <==> ph == Proposing && y == z == ps[0] && g == a
    {
    }
  }

  lemma OneRoundDone(cl: Cluster, k: Key, a: Entry, b: Entry, s: Sys, s': Sys)
    requires a.key == b.key == k && a != b && |cl.peers(k)| >= 2 && cl.peers(k)[0] != cl.peers(k)[1]
    requires BothOpen(cl, k, a, b, s) && RoundDone(cl, k, {a, b}, a, Proposing, cl.peers(k)[0], [], s, s')
    ensures OneRound(cl, k, a, b, s')
  {
    hide *;
    OneRoundVoted(cl, k, a, b, s, s');
    OneRoundQueued(cl, k, a, b, s, s');
    OneRoundIs(cl, k, a, b, s');
  }

  lemma OneRoundIs(cl: Cluster, k: Key, a: Entry, b: Entry, s: Sys)
    requires a.key == b.key == k && |cl.peers(k)| >= 2 && OneRoundVotes(cl, k, a, b, s) && OneRoundLines(cl, k, a, b, s)
    ensures OneRound(cl, k, a, b, s)
  {
    hide OneRoundVotes, OneRoundLines;
  }

  lemma OneRoundVoted(cl: Cluster, k: Key, a: Entry, b: Entry, s: Sys, s': Sys)
    requires a.key == b.key == k && a != b && |cl.peers(k)| >= 2 && cl.peers(k)[0] != cl.peers(k)[1]
    requires BothOpen(cl, k, a, b, s) && RoundDone(cl, k, {a, b}, a, Proposing, cl.peers(k)[0], [], s, s')
    ensures OneRoundVotes(cl, k, a, b, s')
  {
    assert Proposing != Committing;
    hide Votes, Ask, Line;
  }

  lemma OneRoundQueued(cl: Cluster, k: Key, a: Entry, b: Entry, s: Sys, s': Sys)
    requires a.key == b.key == k && a != b && |cl.peers(k)| >= 2 && cl.peers(k)[0] != cl.peers(k)[1]
    requires BothOpen(cl, k, a, b, s) && RoundDone(cl, k, {a, b}, a, Proposing, cl.peers(k)[0], [], s, s')
    ensures OneRoundLines(cl, k, a, b, s')
  {
    var ps := cl.peers(k);
    assert ps[0] in ps && s'.peers.Keys == s.peers.Keys && Proposing != Committing;
    assert forall y :: y in ps ==> (Votes(cl, a, s, y, y, Proposing) <==> y == ps[0]);
    hide Votes, Ask, Line, RoundDone;
    forall y, ph | y in ps && y in s'.peers
      ensures Line(s', y, ph) ==
              if ph == Committing then (if y == ps[0] then [Ask(cl, a, y)] else [])
              else if y == ps[0] then []
              else if y == ps[1] then [Ask(cl, b, y)] + [Ask(cl, a, y)] else [Ask(cl, a, y)]
    {
      QueueAfter(cl, k, {a, b}, a, Proposing, ps[0], [], s, s', y, ph);
    }
  }

  lemma TwoRoundsDone(cl: Cluster, k: Key, a: Entry, b: Entry, s: Sys, s': Sys)
    requires a.key == b.key == k && a != b && |cl.peers(k)| >= 2 && cl.peers(k)[0] != cl.peers(k)[1]
    requires OneRound(cl, k, a, b, s)
    requires RoundDone(cl, k, {a, b}, b, Proposing, cl.peers(k)[1], [Ask(cl, a, cl.peers(k)[1])], s, s')
    ensures Stage(cl, k, a, b, s', {(a, cl.peers(k)[0]), (b, cl.peers(k)[1])}, {})
  {
    var ps := cl.peers(k);
    var p := {(a, ps[0]), (b, ps[1])};
    assert p <= Everybody(ps, a, b) && InOrder(ps, a, b, p) && InOrder(ps, a, b, {});
    hide *;
    TwoRoundsVotes(cl, k, a, b, s, s', p);
    TwoRoundsQueues(cl, k, a, b, s, s', p);
    StageIs(cl, k, a, b, s', p, {});
  }

  lemma TwoRoundsVotes(cl: Cluster, k: Key, a: Entry, b: Entry, s: Sys, s': Sys, p: set<(Entry, Host)>)
    requires a.key == b.key == k && a != b && |cl.peers(k)| >= 2 && cl.peers(k)[0] != cl.peers(k)[1]
    requires OneRound(cl, k, a, b, s) && p == {(a, cl.peers(k)[0]), (b, cl.peers(k)[1])}
    requires RoundDone(cl, k, {a, b}, b, Proposing, cl.peers(k)[1], [Ask(cl, a, cl.peers(k)[1])], s, s')
    ensures StageVotes(cl, k, a, b, s', p, {})
  {
    assert Proposing != Committing;
    hide Votes, Ask, Line;
  }

  lemma TwoRoundsQueues(cl: Cluster, k: Key, a: Entry, b: Entry, s: Sys, s': Sys, p: set<(Entry, Host)>)
    requires a.key == b.key == k && a != b && |cl.peers(k)| >= 2 && cl.peers(k)[0] != cl.peers(k)[1]
    requires OneRound(cl, k, a, b, s) && p == {(a, cl.peers(k)[0]), (b, cl.peers(k)[1])}
    requires RoundDone(cl, k, {a, b}, b, Proposing, cl.peers(k)[1], [Ask(cl, a, cl.peers(k)[1])], s, s')
    ensures StageQueues(cl, k, a, b, s', p, {})
  {
    var ps := cl.peers(k);
    assert p - {} == p && s'.peers.Keys == s.peers.Keys;
    hide Votes, Ask, Line, Listed, Everybody, RoundDone, OneRound;
    forall y | y in ps && y in s'.peers
      ensures Line(s', y, Proposing) == Listed(cl, k, a, b, y, Everybody(ps, a, b) - p)
      ensures Line(s', y, Committing) == Listed(cl, k, a, b, y, p)
    {
      OneRoundQueue(cl, k, a, b, s, y);
      QueueAfter(cl, k, {a, b}, b, Proposing, ps[1], [Ask(cl, a, ps[1])], s, s', y, Proposing);
      QueueAfter(cl, k, {a, b}, b, Proposing, ps[1], [Ask(cl, a, ps[1])], s, s', y, Committing);
      TwoListed(cl, k, a, b, y, p);
    }
  }

  lemma OneRoundQueue(cl: Cluster, k: Key, a: Entry, b: Entry, s: Sys, y: Host)
    requires a.key == b.key == k && |cl.peers(k)| >= 2 && cl.peers(k)[0] != cl.peers(k)[1] && a != b
    requires OneRound(cl, k, a, b, s) && y in cl.peers(k) && y in s.peers
    ensures Votes(cl, b, s, y, y, Proposing) <==> y == cl.peers(k)[1]
    ensures
      var x, z := cl.peers(k)[0], cl.peers(k)[1];
      && Line(s, y, Committing) == (if y == x then [Ask(cl, a, y)] else [])
      && Line(s, y, Proposing) ==
         (if y == x then [] else if y == z then [Ask(cl, b, y)] + [Ask(cl, a, y)] else [Ask(cl, a, y)])
  {
    assert Proposing != Committing;
    hide Votes, Ask, Line;
  }

  lemma TwoListed(cl: Cluster, k: Key, a: Entry, b: Entry, y: Host, p: set<(Entry, Host)>)
    requires a.key == b.key == k && a != b && |cl.peers(k)| >= 2 && cl.peers(k)[0] != cl.peers(k)[1]
    requires y in cl.peers(k) && p == {(a, cl.peers(k)[0]), (b, cl.peers(k)[1])}
    ensures
      var x, z := cl.peers(k)[0], cl.peers(k)[1];
      && Listed(cl, k, a, b, y, Everybody(cl.peers(k), a, b) - p) ==
         (if y == x then [Ask(cl, b, y)] else if y == z then [Ask(cl, a, y)] else [Ask(cl, a, y)] + [Ask(cl, b, y)])
      && Listed(cl, k, a, b, y, p) == (if y == x then [Ask(cl, a, y)] else if y == z then [Ask(cl, b, y)] else [])
  {
    assert (a, y) in Everybody(cl.peers(k), a, b) && (b, y) in Everybody(cl.peers(k), a, b);
    hide Ask, Everybody;
  }

  lemma FirstMissing(cl: Cluster, k: Key, a: Entry, b: Entry, s: Sys)
    requires a.key == b.key == k && a != b && |cl.peers(k)| >= 2 && cl.peers(k)[0] != cl.peers(k)[1]
    ensures BothOpen(cl, k, a, b, s) ==>
              Missing(cl, k, s, a, Proposing, cl.peers(k)[0], Others(cl.peers(k), cl.peers(k)[0]))
    ensures OneRound(cl, k, a, b, s) ==>
              Missing(cl, k, s, b, Proposing, cl.peers(k)[1], Others(cl.peers(k), cl.peers(k)[1]))
  {
    hide Votes, Ask, Line;
  }

  /** Clients propose one entry at each of the first two peers, and these two proposals go round. */
  lemma Opening(cl: Cluster, u: iset<Entry>, k: Key, a: Entry, b: Entry, log: seq<Entry>, s: Sys) returns (s': Sys)
    requires a.key == b.key == k && a != b && Rivalry(cl, u, k, {a, b}, log) && |cl.peers(k)| >= 2
    requires Blank(cl, k, {a, b}, log, s)
    ensures Leads(cl, u, s, s') && Duels(cl, k, {a, b}, log, s') && Idle(cl, k, s')
    ensures Stage(cl, k, a, b, s', {(a, cl.peers(k)[0]), (b, cl.peers(k)[1])}, {})
  {
    var ps := cl.peers(k);
    assert Idle(cl, k, s);
    assert ValidCluster(cl, u);
    hide *;
    BlankDuels(cl, u, k, {a, b}, log, s);
    PeersAreThere(cl, u, k, {a, b}, log, s);
    var s1 := ClientOpens(cl, u, k, {a, b}, log, s, a, ps[0]);
    assert !Votes(cl, b, s1, ps[1], ps[1], Proposing) by { NotYet(cl, k, a, b, s, s1); }
    var s2 := ClientOpens(cl, u, k, {a, b}, log, s1, b, ps[1]);
    BothAreOpen(cl, k, a, b, s, s1, s2);
    FirstMissing(cl, k, a, b, s2);
    FirstQueues(cl, k, a, b, s2);
    var s3 := WholeRound(cl, u, k, {a, b}, log, s2, a, Proposing, ps[0], []);
    OneRoundDone(cl, k, a, b, s2, s3);
    FirstMissing(cl, k, a, b, s3);
    FirstQueues(cl, k, a, b, s3);
    s' := WholeRound(cl, u, k, {a, b}, log, s3, b, Proposing, ps[1], [Ask(cl, a, ps[1])]);
    TwoRoundsDone(cl, k, a, b, s3, s');
    Onward(cl, u, s, s1, s2);
    Onward(cl, u, s, s2, s3);
    Onward(cl, u, s, s3, s');
  }

  lemma NotYet(cl: Cluster, k: Key, a: Entry, b: Entry, s: Sys, s': Sys)
    requires a.key == b.key == k && a != b && |cl.peers(k)| >= 2
    requires Spreads(cl, k, {a, b}, a, Proposing, cl.peers(k)[0], s, s', {cl.peers(k)[0]})
    requires forall g, y, z, ph :: g in {a, b} && y in cl.peers(k) ==> !Votes(cl, g, s, y, z, ph)
    ensures !Votes(cl, b, s', cl.peers(k)[1], cl.peers(k)[1], Proposing)
  {
    hide Votes, Ask, Line;
  }

  lemma FirstQueues(cl: Cluster, k: Key, a: Entry, b: Entry, s: Sys)
    requires a.key == b.key == k && |cl.peers(k)| >= 2 && cl.peers(k)[0] != cl.peers(k)[1]
    requires cl.peers(k)[0] in s.peers && cl.peers(k)[1] in s.peers
    ensures
      var x, y := cl.peers(k)[0], cl.peers(k)[1];
      && (BothOpen(cl, k, a, b, s) ==> Line(s, x, Proposing) == [Ask(cl, a, x)] + [])
      && (OneRound(cl, k, a, b, s) ==> Line(s, y, Proposing) == [Ask(cl, b, y)] + [Ask(cl, a, y)])
  {
    assert Proposing != Committing;
    hide Votes, Ask, Line;
    var x, y := cl.peers(k)[0], cl.peers(k)[1];
    assert x in cl.peers(k) && y in cl.peers(k) && [Ask(cl, a, x)] + [] == [Ask(cl, a, x)];
  }

  // ---- the last steps

  /** `y` has all votes for `e` but the commit vote of `x`. */
  ghost predicate LacksOnly(cl: Cluster, k: Key, e: Entry, log: seq<Entry>, x: Host, y: Host, n: Node) {
    && NodeFlows(cl, e, log, y, n) && e.key == k && x in cl.peers(k) && y in cl.peers(k) && x != y
    && forall z :: z in cl.peers(k) ==>
         && Has(cl, e, n, Proposing, Idx(cl.peers(k), z))
         && (Has(cl, e, n, Committing, Idx(cl.peers(k), z)) <==> z != x)
  }

  /** The last vote makes the peer append the entry. */
  lemma LastVote(cl: Cluster, u: iset<Entry>, k: Key, e: Entry, log: seq<Entry>, x: Host, y: Host, n: Node)
    requires Setting(cl, u, e, log) && LacksOnly(cl, k, e, log, x, y, n)
    ensures
      var ps := cl.peers(k);
      && CanHandle(cl, y, n, Committing, e, Options(Idx(ps, x), ps))
      && var n' := Handle(cl, y, n, Committing, e, Options(Idx(ps, x), ps)).0;
      && LogOf(n'.store, k) == log + [e] && QueueOf(n', Committing) == QueueOf(n, Committing)
  {
    var ps, id := cl.peers(k), cl.h.hash(e);
    assert Has(cl, e, n, Proposing, Idx(ps, y)) && Has(cl, e, n, Committing, Idx(ps, y)) && id in n.ballots;
    assert !Has(cl, e, n, Committing, Idx(ps, x)) && Idx(ps, x) != Idx(ps, y);
    CommitFlows(cl, u, e, log, y, Idx(ps, y), n, Idx(ps, x));
    var n' := Commit(ConfOf(cl, y), n, e, OptsOf(cl, e, Idx(ps, x))).0;
    hide Commit;
    forall i, ph | 0 <= i < |ps|
      ensures Has(cl, e, n', ph, i)
    {
      IdxUnique(cl, u, k, i);
      assert ps[i] in ps;
      hide Has;
    }
    assert Has(cl, e, n', Proposing, Idx(ps, x));
    AllHad(cl, e, log, y, n');
    hide NodeFlows, Took, Has;
  }

  lemma AllHad(cl: Cluster, e: Entry, log: seq<Entry>, y: Host, n: Node)
    requires NodeFlows(cl, e, log, y, n) && cl.h.hash(e) in n.ballots
    requires forall i, ph :: 0 <= i < |cl.peers(e.key)| ==> Has(cl, e, n, ph, i)
    ensures LogOf(n.store, e.key) == log + [e]
  {
    var b := n.ballots[cl.h.hash(e)];
    forall i | 0 <= i < |cl.peers(e.key)|
      ensures b.proposed[i] != "" && b.committed[i] != ""
    {
      assert Has(cl, e, n, Proposing, i) && Has(cl, e, n, Committing, i);
    }
    CountBounds(b.proposed);
    CountBounds(b.committed);
  }

  /** A broadcaster that is free sends out its next request. */
  lemma Sends(cl: Cluster, u: iset<Entry>, k: Key, s: Sys, e: Entry, phase: Phase, x: Host, rest: seq<Req>)
    requires e.key == k && x in cl.peers(k) && x in s.peers && RoundOf(s.peers[x], phase).None?
    requires Line(s, x, phase) == [Ask(cl, e, x)] + rest
    ensures Enabled(cl, u, s, Start(phase, x))
    ensures
      var s' := Next(cl, u, s, Start(phase, x));
      && s'.peers.Keys == s.peers.Keys && s'.peers == s.peers[x := s'.peers[x]]
      && s'.peers[x].node.ballots == s.peers[x].node.ballots && s'.peers[x].node.store == s.peers[x].node.store
      && s'.net == s.net + Asked(cl, e, phase, x, s.peers[x].rounds, Others(cl.peers(k), x))
  {
  }

  lemma Gets(cl: Cluster, u: iset<Entry>, k: Key, s: Sys, e: Entry, log: seq<Entry>, x: Host, y: Host, no: nat)
    requires Setting(cl, u, e, log) && e.key == k && y in s.peers && LacksOnly(cl, k, e, log, x, y, s.peers[y].node)
    requires ReqMsg(e, cl.peers(k), Committing, x, y, no) in s.net
    ensures
      var l := Deliver(ReqMsg(e, cl.peers(k), Committing, x, y, no));
      && Enabled(cl, u, s, l)
      && var s' := Next(cl, u, s, l);
      && s'.peers.Keys == s.peers.Keys && s'.peers == s.peers[y := s'.peers[y]] && LogAt(s', y, k) == log + [e]
      && Line(s', y, Committing) == Line(s, y, Committing)
      && RoundOf(s'.peers[y], Committing) == RoundOf(s.peers[y], Committing)
  {
    LastVote(cl, u, k, e, log, x, y, s.peers[y].node);
    hide Handle, CanHandle, LacksOnly, Setting;
  }

  /** The commit vote that `y` lacks is sent and arrives. */
  lemma Completes(cl: Cluster, u: iset<Entry>, k: Key, s: Sys, e: Entry, log: seq<Entry>, x: Host, y: Host,
                  rest: seq<Req>)
    returns (s': Sys)
    requires Setting(cl, u, e, log) && e.key == k && x in s.peers && y in s.peers
    requires x in cl.peers(k) && LacksOnly(cl, k, e, log, x, y, s.peers[y].node)
    requires RoundOf(s.peers[x], Committing).None? && Line(s, x, Committing) == [Ask(cl, e, x)] + rest
    ensures Leads(cl, u, s, s') && s'.peers.Keys == s.peers.Keys
    ensures
      var p, p' := s.peers[x], s'.peers[x];
      p'.node.ballots == p.node.ballots && p'.node.store == p.node.store
    ensures LogAt(s', y, k) == log + [e]
    ensures
      var p, p' := s.peers[y], s'.peers[y];
      Line(s', y, Committing) == Line(s, y, Committing) && RoundOf(p', Committing) == RoundOf(p, Committing)
  {
    var no, m := s.peers[x].rounds, ReqMsg(e, cl.peers(k), Committing, x, y, s.peers[x].rounds);
    assert y in Others(cl.peers(k), x) && x != y;
    assert m in Asked(cl, e, Committing, x, no, Others(cl.peers(k), x));
    hide *;
    Sends(cl, u, k, s, e, Committing, x, rest);
    var s1 := Next(cl, u, s, Start(Committing, x));
    OneStepFree(cl, u, s, Committing, x);
    assert s1.peers[y] == s.peers[y];
    Gets(cl, u, k, s1, e, log, x, y, no);
    s' := Next(cl, u, s1, Deliver(m));
    Delivers(cl, u, s1, m);
    Onward(cl, u, s, s1, s');
  }

  lemma Delivers(cl: Cluster, u: iset<Entry>, s: Sys, m: Msg)
    requires Enabled(cl, u, s, Deliver(m))
    ensures Leads(cl, u, s, Next(cl, u, s, Deliver(m)))
  {
    hide Enabled, Next, Leads;
    OneStep(cl, u, s, Deliver(m));
  }

  /** In the last stage each of the first two peers lacks only the other one's commit vote, for either entry. */
  lemma BothLack(cl: Cluster, u: iset<Entry>, k: Key, a: Entry, b: Entry, log: seq<Entry>, s: Sys)
    requires a.key == b.key == k && a != b && Rivalry(cl, u, k, {a, b}, log) && Duels(cl, k, {a, b}, log, s)
    requires Stage(cl, k, a, b, s, Everybody(cl.peers(k), a, b), Inner(cl.peers(k), a, b))
    ensures
      var x, y := cl.peers(k)[0], cl.peers(k)[1];
      && x in s.peers && y in s.peers
      && LacksOnly(cl, k, a, log, x, y, s.peers[y].node) && LacksOnly(cl, k, b, log, y, x, s.peers[x].node)
  {
    var ps := cl.peers(k);
    var x, y, all := ps[0], ps[1], Everybody(ps, a, b);
    PeersAreThere(cl, u, k, {a, b}, log, s);
    assert x in ps && y in ps;
    forall g, z | g in {a, b} && z in ps
      ensures (g, z) in all && ((g, z) in Inner(ps, a, b) <==> z != x && z != y)
    {
    }
    hide NodeFlows, Has, Inner, Everybody, Rivalry, StageQueues, InOrder, Votes, LacksOnly;
    forall z | z in ps
      ensures Votes(cl, a, s, y, z, Proposing) && (Votes(cl, a, s, y, z, Committing) <==> z != x)
      ensures Votes(cl, b, s, x, z, Proposing) && (Votes(cl, b, s, x, z, Committing) <==> z != y)
    {
      assert (a, y) in all && (b, x) in all && (a, z) in all && (b, z) in all;
    }
    hide StageVotes, Stage;
    LacksBy(cl, k, a, log, x, y, s);
    LacksBy(cl, k, b, log, y, x, s);
  }

  lemma LacksBy(cl: Cluster, k: Key, e: Entry, log: seq<Entry>, x: Host, y: Host, s: Sys)
    requires y in s.peers && NodeFlows(cl, e, log, y, s.peers[y].node) && e.key == k
    requires x in cl.peers(k) && y in cl.peers(k) && x != y
    requires forall z :: z in cl.peers(k) ==>
               Votes(cl, e, s, y, z, Proposing) && (Votes(cl, e, s, y, z, Committing) <==> z != x)
    ensures LacksOnly(cl, k, e, log, x, y, s.peers[y].node)
  {
    hide NodeFlows, Has;
    forall z | z in cl.peers(k)
      ensures Has(cl, e, s.peers[y].node, Proposing, Idx(cl.peers(k), z))
      ensures Has(cl, e, s.peers[y].node, Committing, Idx(cl.peers(k), z)) <==> z != x
    {
      assert Votes(cl, e, s, y, z, Proposing) && (Votes(cl, e, s, y, z, Committing) <==> z != x);
    }
  }

  lemma LastQueues(cl: Cluster, k: Key, a: Entry, b: Entry, s: Sys)
    requires a.key == b.key == k && a != b && |cl.peers(k)| >= 2 && cl.peers(k)[0] != cl.peers(k)[1]
    requires cl.peers(k)[0] in s.peers && cl.peers(k)[1] in s.peers
    requires Stage(cl, k, a, b, s, Everybody(cl.peers(k), a, b), Inner(cl.peers(k), a, b))
    ensures
      var x, y := cl.peers(k)[0], cl.peers(k)[1];
      && Line(s, x, Committing) == [Ask(cl, a, x)] + [Ask(cl, b, x)]
      && Line(s, y, Committing) == [Ask(cl, b, y)] + [Ask(cl, a, y)]
  {
    var ps := cl.peers(k);
    var all, inner := Everybody(ps, a, b), Inner(ps, a, b);
    assert ps[0] in ps && ps[1] in ps;
    assert forall g, z :: g in {a, b} && z in {ps[0], ps[1]} ==> (g, z) in all - inner;
    hide Everybody, Inner, Ask, Line, StageVotes, InOrder;
  }

  /** The first two peers exchange the one commit vote that each of them lacks, for different entries. */
  lemma Parting(cl: Cluster, u: iset<Entry>, k: Key, a: Entry, b: Entry, log: seq<Entry>, s: Sys) returns (s': Sys)
    requires a.key == b.key == k && a != b && Rivalry(cl, u, k, {a, b}, log) && |cl.peers(k)| >= 2
    requires Duels(cl, k, {a, b}, log, s) && Idle(cl, k, s)
    requires Stage(cl, k, a, b, s, Everybody(cl.peers(k), a, b), Inner(cl.peers(k), a, b))
    ensures Leads(cl, u, s, s') && cl.peers(k)[0] in s'.peers && cl.peers(k)[1] in s'.peers
    ensures LogAt(s', cl.peers(k)[0], k) == log + [b] && LogAt(s', cl.peers(k)[1], k) == log + [a]
  {
    var ps := cl.peers(k);
    var x, y := ps[0], ps[1];
    PeersAreThere(cl, u, k, {a, b}, log, s);
    assert x in ps && y in ps && RoundOf(s.peers[x], Committing).None? && RoundOf(s.peers[y], Committing).None?;
    assert Setting(cl, u, a, log) && Setting(cl, u, b, log);
    BothLack(cl, u, k, a, b, log, s);
    LastQueues(cl, k, a, b, s);
    hide *;
    var s1 := Completes(cl, u, k, s, a, log, x, y, [Ask(cl, b, x)]);
    LacksStill(cl, k, b, log, y, x, s.peers[x].node, s1.peers[x].node);
    s' := Completes(cl, u, k, s1, b, log, y, x, [Ask(cl, a, y)]);
    SameLog(s1, s', y, k);
    Onward(cl, u, s, s1, s');
  }

  lemma SameLog(s: Sys, s': Sys, x: Host, k: Key)
    requires x in s.peers && x in s'.peers && s'.peers[x].node.store == s.peers[x].node.store
    ensures LogAt(s', x, k) == LogAt(s, x, k)
  {
  }

  lemma LacksStill(cl: Cluster, k: Key, e: Entry, log: seq<Entry>, x: Host, y: Host, n: Node, n': Node)
    requires LacksOnly(cl, k, e, log, x, y, n) && n'.ballots == n.ballots && n'.store == n.store
    ensures LacksOnly(cl, k, e, log, x, y, n')
  {
    assert forall ph, i :: Has(cl, e, n', ph, i) <==> Has(cl, e, n, ph, i);
    assert NodeFlows(cl, e, log, y, n');
    hide NodeFlows, Has;
  }

  /** From where all logs are `log`, two rivals can be committed at different peers without any failure. */
  lemma ForkAhead(cl: Cluster, u: iset<Entry>, k: Key, a: Entry, b: Entry, log: seq<Entry>, s: Sys) returns (s': Sys)
    requires a.key == b.key == k && a != b && Rivalry(cl, u, k, {a, b}, log) && |cl.peers(k)| >= 2
    requires Blank(cl, k, {a, b}, log, s)
    ensures Leads(cl, u, s, s') && cl.peers(k)[0] in s'.peers && cl.peers(k)[1] in s'.peers
    ensures LogAt(s', cl.peers(k)[0], k) == log + [b] && LogAt(s', cl.peers(k)[1], k) == log + [a]
  {
    hide *;
    var s1 := Opening(cl, u, k, a, b, log, s);
    var s2 := ProposalsRun(cl, u, k, a, b, log, s1, {(a, cl.peers(k)[0]), (b, cl.peers(k)[1])});
    var s3 := CommitsRun(cl, u, k, a, b, log, s2, {});
    s' := Parting(cl, u, k, a, b, log, s3);
    Onward(cl, u, s, s1, s2);
    Onward(cl, u, s, s2, s3);
    Onward(cl, u, s, s3, s');
  }
}
