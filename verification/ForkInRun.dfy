/** When logs can fork: just when two entries in use compete for the place after a log that their peers can share. */
module ForksInRuns {
  import opened HexTypes
  import opened Chains
  import opened StoreSpec
  import opened Nodes
  import opened Clusters
  import opened NodeFlow
  import opened Flows
  import opened Completion
  import opened Forks
  import opened Termination
  import Divergence
  import NodeSafety

  // ---- paths and runs

  lemma {:induction false} PathWidens(cl: Cluster, u: iset<Entry>, u': iset<Entry>, s: Sys, labels: seq<Label>, s': Sys)
    requires Path(cl, u, s, labels, s') && u <= u'
    ensures Path(cl, u', s, labels, s')
    decreases labels
  {
    hide Next, Faultless;
    if labels != [] {
      NarrowStep(cl, u, u', s, labels[0]);
      PathWidens(cl, u, u', Next(cl, u, s, labels[0]), labels[1..], s');
    }
  }

  lemma LeadsWidens(cl: Cluster, u: iset<Entry>, u': iset<Entry>, s: Sys, s': Sys)
    requires Leads(cl, u, s, s') && u <= u'
    ensures Leads(cl, u', s, s')
  {
    hide Path;
    var labels :| Path(cl, u, s, labels, s');
    PathWidens(cl, u, u', s, labels, s');
  }

  /** The states along a path. */
  lemma {:induction false} PathStates(cl: Cluster, u: iset<Entry>, s: Sys, labels: seq<Label>, s': Sys)
    returns (states: seq<Sys>)
    requires Path(cl, u, s, labels, s')
    ensures |states| == |labels| + 1 && states[0] == s && states[|labels|] == s'
    ensures forall i :: 0 <= i < |labels| ==> Faultless(labels[i]) && Enabled(cl, u, states[i], labels[i])
    ensures forall i :: 0 <= i < |labels| ==> states[i + 1] == Next(cl, u, states[i], labels[i])
    decreases labels
  {
    hide Next, Enabled, Faultless;
    if labels == [] {
      states := [s];
    } else {
      var rest := PathStates(cl, u, Next(cl, u, s, labels[0]), labels[1..], s');
      states := [s] + rest;
      forall i | 0 <= i < |labels|
        ensures Faultless(labels[i]) && Enabled(cl, u, states[i], labels[i])
        ensures states[i + 1] == Next(cl, u, states[i], labels[i])
      {
        if i > 0 {
          assert labels[i] == labels[1..][i - 1];
        }
      }
    }
  }

  lemma RunFromPath(cl: Cluster, u: iset<Entry>, s: Sys, s': Sys) returns (states: seq<Sys>, labels: seq<Label>)
    requires Init(cl, s) && Leads(cl, u, s, s')
    ensures |states| == |labels| + 1 && Run(cl, u, states, labels) && states[|labels|] == s'
    ensures forall l :: l in labels ==> Faultless(l)
  {
    hide Path, Next, Enabled, Faultless;
    labels :| Path(cl, u, s, labels, s');
    states := PathStates(cl, u, s, labels, s');
  }

  // ---- to a common log

  function EntriesOf(log: seq<Entry>): set<Entry> {
    set e | e in log
  }

  /** All logs of the key are `log`, and nothing is going on. */
  ghost predicate Resting(cl: Cluster, k: Key, log: seq<Entry>, s: Sys) {
    && s.peers.Keys == cl.hosts && Quiet(s)
    && forall y :: y in cl.peers(k) && y in s.peers ==>
         && LogOf(s.peers[y].node.store, k) == log
         && (k in s.peers[y].node.store ==> s.peers[y].node.store[k].marker.None?)
  }

  /** An entry that comes after `log` has not been heard of while only the entries of `log` have been proposed. */
  lemma Unheard(cl: Cluster, u: iset<Entry>, k: Key, log: seq<Entry>, s0: Sys, s: Sys, e: Entry)
    requires ValidCluster(cl, u) && Chain(cl.h, u, k, log) && e in u && e.key == k && e.previous == LastId(cl.h, log)
    requires Init(cl, s0) && Leads(cl, Only(EntriesOf(log)), s0, s)
    ensures forall x :: x in s.peers ==> cl.h.hash(e) !in s.peers[x].node.ballots
  {
    var es := Only(EntriesOf(log));
    assert ValidCluster(cl, es) by { NarrowCluster(cl, u, es); }
    NotBelow(cl, u, k, log, e);
    var states, labels := RunFromPath(cl, es, s0, s);
    hide *;
    Divergence.RunIsSafe(cl, es, states, labels, |labels|);
    NoBallotFor(cl, u, es, s, Divergence.HistoryOf(cl, states, |labels|), e);
  }

  lemma NarrowCluster(cl: Cluster, u: iset<Entry>, u': iset<Entry>)
    requires ValidCluster(cl, u) && u' <= u
    ensures ValidCluster(cl, u')
  {
  }

  lemma NotBelow(cl: Cluster, u: iset<Entry>, k: Key, log: seq<Entry>, e: Entry)
    requires ValidCluster(cl, u) && Chain(cl.h, u, k, log) && e.previous == LastId(cl.h, log)
    ensures e !in Only(EntriesOf(log))
    ensures Only(EntriesOf(log)) <= u
  {
    forall i | 0 <= i < |log|
      ensures log[i] != e
    {
      FollowsOnlyItsPrefix(cl.h, u, k, log, log, i);
      assert |log[..i]| == i;
    }
  }

  lemma NoBallotFor(cl: Cluster, u: iset<Entry>, es: iset<Entry>, s: Sys, hist: NodeSafety.Hist, e: Entry)
    requires ValidCluster(cl, u) && es <= u && e in u && e !in es && Divergence.Safe(cl, es, s, hist)
    ensures forall x :: x in s.peers ==> cl.h.hash(e) !in s.peers[x].node.ballots
  {
    forall x | x in s.peers
      ensures cl.h.hash(e) !in s.peers[x].node.ballots
    {
      assert Divergence.PeerOk(cl, es, x, s.peers[x], hist);
      if cl.h.hash(e) in s.peers[x].node.ballots {
        var b := s.peers[x].node.ballots[cl.h.hash(e)];
        assert NodeSafety.BallotOk(cl, es, x, cl.h.hash(e), b, hist);
        SameEntry(cl.h, u, b.entry, e);
      }
    }
  }

  /** Everything under way is handled. */
  lemma {:induction false} Drains(cl: Cluster, u: iset<Entry>, e: Entry, log: seq<Entry>, s: Sys) returns (s': Sys)
    requires Setting(cl, u, e, log) && SysFlows(cl, e, log, s)
    ensures Leads(cl, u, s, s') && SysFlows(cl, e, log, s') && Quiet(s')
    ensures FlowOf(cl, e, s).began <= FlowOf(cl, e, s').began
    decreases Measure(|cl.peers(e.key)|, FlowOf(cl, e, s))
  {
    hide *;
    if Quiet(s) {
      s' := s;
      Stays(cl, u, s);
    } else {
      var l := NextStep(cl, u, e, log, s);
      var s1 := Next(cl, u, s, l);
      NotNegative(cl, e, log, s);
      Advanced(cl, u, e, log, s, l);
      s' := Drains(cl, u, e, log, s1);
      Onward(cl, u, s, s1, s');
    }
  }

  lemma NotNegative(cl: Cluster, e: Entry, log: seq<Entry>, s: Sys)
    requires SysFlows(cl, e, log, s)
    ensures Measure(|cl.peers(e.key)|, FlowOf(cl, e, s)) >= 0
  {
    hide SysFlows, FlowOf, Measure;
    FlowNow(cl, e, log, s);
    MeasureNotNegative(e, cl.peers(e.key), FlowOf(cl, e, s));
  }

  lemma Advanced(cl: Cluster, u: iset<Entry>, e: Entry, log: seq<Entry>, s: Sys, l: Label)
    requires Setting(cl, u, e, log) && SysFlows(cl, e, log, s) && NothingFails(cl, e, l) && Enabled(cl, u, s, l)
    ensures
      var s' := Next(cl, u, s, l);
      && Leads(cl, u, s, s') && SysFlows(cl, e, log, s') && FlowOf(cl, e, s).began <= FlowOf(cl, e, s').began
      && (if l.ClientPropose? then (l.at, Proposing) in FlowOf(cl, e, s').began
          else Measure(|cl.peers(e.key)|, FlowOf(cl, e, s')) < Measure(|cl.peers(e.key)|, FlowOf(cl, e, s)))
  {
    assert Faultless(l);
    hide Next, Enabled, Leads, FlowOf, SysFlows, Setting, Measure;
    OneStep(cl, u, s, l);
    StepFlows(cl, u, e, log, s, l);
  }

  /** One more entry at all peers. */
  lemma OneMore(cl: Cluster, u: iset<Entry>, e: Entry, log: seq<Entry>, s: Sys) returns (s': Sys)
    requires Setting(cl, u, e, log) && Fresh(cl, e, log, s)
    ensures Leads(cl, u, s, s') && Resting(cl, e.key, log + [e], s')
  {
    var ps := cl.peers(e.key);
    var l := ClientPropose(ps[0], e, -1);
    FreshFlows(cl, u, e, log, s);
    ClientCan(cl, u, e, log, s);
    assert NothingFails(cl, e, l);
    hide *;
    Advanced(cl, u, e, log, s, l);
    var s1 := Next(cl, u, s, l);
    s' := Drains(cl, u, e, log, s1);
    Onward(cl, u, s, s1, s');
    QuietRests(cl, u, e, log, s', ps[0]);
  }

  lemma ClientCan(cl: Cluster, u: iset<Entry>, e: Entry, log: seq<Entry>, s: Sys)
    requires Setting(cl, u, e, log) && SysFlows(cl, e, log, s)
    ensures cl.peers(e.key)[0] in cl.peers(e.key) && Enabled(cl, u, s, ClientPropose(cl.peers(e.key)[0], e, -1))
  {
    var ps := cl.peers(e.key);
    var x := ps[0];
    assert PeersOk(cl.hosts, ps);
    assert x in ps && x in s.peers && PeerFlows(cl, e, log, x, s.peers[x]);
    CanHandleFlow(cl, u, e, log, x, s.peers[x].node, Proposing, -1);
    hide CanHandle, NodeFlows, FlowOk;
  }

  lemma QuietRests(cl: Cluster, u: iset<Entry>, e: Entry, log: seq<Entry>, s: Sys, x: Host)
    requires Setting(cl, u, e, log) && SysFlows(cl, e, log, s) && Quiet(s) && (x, Proposing) in FlowOf(cl, e, s).began
    ensures Resting(cl, e.key, log + [e], s)
  {
    hide FlowOf, FlowOk;
    QuietFlow(cl, e, log, s);
    QuietMeansComplete(e, cl.peers(e.key), FlowOf(cl, e, s), x);
    forall y | y in cl.peers(e.key) && y in s.peers
      ensures LogOf(s.peers[y].node.store, e.key) == log + [e]
      ensures e.key in s.peers[y].node.store ==> s.peers[y].node.store[e.key].marker.None?
    {
      AllVotesComplete(cl, u, e, log, s, y);
      assert PeerFlows(cl, e, log, y, s.peers[y]);
    }
  }

  /** Any well-formed log can be had at all peers, with its entries proposed one after the other. */
  lemma {:induction false} LogReached(cl: Cluster, u: iset<Entry>, k: Key, log: seq<Entry>, s0: Sys) returns (s: Sys)
    requires ValidCluster(cl, u) && Chain(cl.h, u, k, log) && |cl.peers(k)| >= cl.votes && Init(cl, s0)
    ensures Leads(cl, Only(EntriesOf(log)), s0, s) && Resting(cl, k, log, s)
    decreases log
  {
    var es := Only(EntriesOf(log));
    if log == [] {
      s := s0;
      Stays(cl, es, s);
    } else {
      var n := |log| - 1;
      var below, e := log[..n], log[n];
      ChainPrefix(cl.h, u, k, log, n);
      assert e.previous == LastId(cl.h, below);
      assert e in u && e.key == k;
      NarrowSetting(cl, u, k, log, n);
      assert Only(EntriesOf(below)) <= es;
      assert log == below + [e];
      hide *;
      var s1 := LogReached(cl, u, k, below, s0);
      Unheard(cl, u, k, below, s0, s1, e);
      RestingIsFresh(cl, k, below, s1, e);
      LeadsWidens(cl, Only(EntriesOf(below)), es, s0, s1);
      s := OneMore(cl, es, e, below, s1);
      Onward(cl, es, s0, s1, s);
    }
  }

  lemma NarrowSetting(cl: Cluster, u: iset<Entry>, k: Key, log: seq<Entry>, n: nat)
    requires ValidCluster(cl, u) && Chain(cl.h, u, k, log) && |cl.peers(k)| >= cl.votes && n < |log|
    ensures Setting(cl, Only(EntriesOf(log)), log[n], log[..n])
  {
    ChainPrefix(cl.h, u, k, log, n);
    NarrowCluster(cl, u, Only(EntriesOf(log)));
  }

  lemma RestingIsFresh(cl: Cluster, k: Key, log: seq<Entry>, s: Sys, e: Entry)
    requires Resting(cl, k, log, s) && e.key == k
    requires forall x :: x in s.peers ==> cl.h.hash(e) !in s.peers[x].node.ballots
    ensures Fresh(cl, e, log, s)
  {
    forall x | x in s.peers
      ensures s.peers[x].node.pch == s.peers[x].node.cch == []
      ensures s.peers[x].proposing.None? && s.peers[x].committing.None?
    {
      assert QueueOf(s.peers[x].node, Proposing) == [] && QueueOf(s.peers[x].node, Committing) == [];
      assert RoundOf(s.peers[x], Proposing).None? && RoundOf(s.peers[x], Committing).None?;
    }
  }

  // ---- when logs fork

  /** Two peers of the key have logs of which neither is a prefix of the other. */
  predicate HasFork(cl: Cluster, k: Key, s: Sys) {
    exists x, y ::
      && x in cl.peers(k) && y in cl.peers(k) && x in s.peers && y in s.peers
      && !(LogAt(s, x, k) <= LogAt(s, y, k)) && !(LogAt(s, y, k) <= LogAt(s, x, k))
  }

  /** Any two rivals after a well-formed log can end up at the end of equally long logs, one at each of the first two
      peers, in a run in which nothing fails, is lost, times out, is reaped, restarts or is pulled. */
  lemma ForkReached(cl: Cluster, u: iset<Entry>, k: Key, log: seq<Entry>, a: Entry, b: Entry)
    returns (states: seq<Sys>, labels: seq<Label>)
    requires ValidCluster(cl, u) && Chain(cl.h, u, k, log) && |cl.peers(k)| >= cl.votes
    requires a in u && b in u && a.key == k && Divergence.Rivals(a, b) && a.previous == LastId(cl.h, log)
    ensures |states| == |labels| + 1 && Run(cl, u, states, labels) && (forall l :: l in labels ==> Faultless(l))
    ensures |cl.peers(k)| >= 2
    ensures
      var s, x, y := states[|labels|], cl.peers(k)[0], cl.peers(k)[1];
      && x in s.peers && y in s.peers
      && LogAt(s, x, k) == log + [a] && LogAt(s, y, k) == log + [b]
  {
    var s0 := Sys(map x | x in cl.hosts :: NewPeer(), {});
    var es := Only(EntriesOf(log));
    assert PeersOk(cl.hosts, cl.peers(k));
    assert Init(cl, s0);
    assert b.key == k && b.previous == LastId(cl.h, log) && a != b;
    NotBelow(cl, u, k, log, a);
    hide *;
    var s1 := LogReached(cl, u, k, log, s0);
    Unheard(cl, u, k, log, s0, s1, a);
    Unheard(cl, u, k, log, s0, s1, b);
    LeadsWidens(cl, es, u, s0, s1);
    RestingIsBlank(cl, u, k, log, s1, a, b);
    var s := ForkAhead(cl, u, k, b, a, log, s1);
    Onward(cl, u, s0, s1, s);
    states, labels := RunFromPath(cl, u, s0, s);
  }

  lemma RestingIsBlank(cl: Cluster, u: iset<Entry>, k: Key, log: seq<Entry>, s: Sys, a: Entry, b: Entry)
    requires ValidCluster(cl, u) && Chain(cl.h, u, k, log) && |cl.peers(k)| >= cl.votes && Resting(cl, k, log, s)
    requires a in u && b in u && a.key == b.key == k && a.previous == b.previous == LastId(cl.h, log)
    requires forall x :: x in s.peers ==> cl.h.hash(a) !in s.peers[x].node.ballots
    requires forall x :: x in s.peers ==> cl.h.hash(b) !in s.peers[x].node.ballots
    ensures Rivalry(cl, u, k, {b, a}, log) && Blank(cl, k, {b, a}, log, s)
  {
    forall x | x in s.peers
      ensures s.peers[x].node.pch == s.peers[x].node.cch == []
    {
      assert QueueOf(s.peers[x].node, Proposing) == [] && QueueOf(s.peers[x].node, Committing) == [];
    }
  }

  /** A ballot is opened for entries with enough peers only. */
  lemma HandledNew(cl: Cluster, x: Host, n: Node, phase: Phase, e: Entry, opts: Options)
    requires CanHandle(cl, x, n, phase, e, opts)
    ensures
      var n' := Handle(cl, x, n, phase, e, opts).0;
      n'.ballots.Keys == n.ballots.Keys
      || (n'.ballots.Keys == n.ballots.Keys + {cl.h.hash(e)} && |opts.peers| >= cl.votes)
  {
    if phase.Proposing? {
      NodeSafety.ProposeFrame(ConfOf(cl, x), n, e, opts);
      if |opts.peers| < cl.votes {
        assert Handle(cl, x, n, phase, e, opts).0 == n;
      }
    } else {
      CommittedKeys(ConfOf(cl, x), n, e, opts);
    }
    hide Propose, Commit;
  }

  lemma CommittedKeys(c: Conf, n: Node, e: Entry, opts: Options)
    requires Callable(c, n, e, opts) && 0 <= opts.sourceIndex
    ensures Commit(c, n, e, opts).0.ballots.Keys == n.ballots.Keys
  {
    var id := c.h.hash(e);
    if EnoughPeers(c, opts.peers) && SelfIndex(opts.peers, c.host).Some? && id in n.ballots {
      var self := SelfIndex(opts.peers, c.host).value;
      TakeCommitKeepsBallots(c, n, id, opts.peers, self, self);
      TakeCommitKeepsBallots(c, TakeCommit(c, n, id, opts.peers, self, self).0, id, opts.peers, self, opts.sourceIndex);
    }
    hide TakeCommit;
  }

  /** The entry of a ballot that a step opens has enough peers. */
  lemma OpensWithEnough(cl: Cluster, u: iset<Entry>, s: Sys, l: Label, hist: NodeSafety.Hist, hist': NodeSafety.Hist,
                        p: Host, e: Entry)
    requires ValidCluster(cl, u) && Divergence.Safe(cl, u, s, hist) && Enabled(cl, u, s, l)
    requires Divergence.Safe(cl, u, Next(cl, u, s, l), hist') && Divergence.OpensAt(cl, s, Next(cl, u, s, l), p, e)
    ensures |cl.peers(e.key)| >= cl.votes
  {
    var id, n' := cl.h.hash(e), Next(cl, u, s, l).peers[p].node;
    assert e in u by {
      assert Divergence.PeerOk(cl, u, p, Next(cl, u, s, l).peers[p], hist');
      assert NodeSafety.BallotOk(cl, u, p, id, n'.ballots[id], hist');
    }
    assert id !in s.peers[p].node.ballots && id in n'.ballots;
    hide *;
    if l.ClientPropose? {
      ClientOpens(cl, u, s, l, p, id);
      SameEntry(cl.h, u, e, l.entry);
    } else if l.Deliver? {
      DeliveryOpens(cl, u, s, l, hist, p, id);
      SameEntry(cl.h, u, e, l.m.entry);
    } else {
      OpensNothing(cl, u, s, l, p);
    }
  }

  lemma ClientOpens(cl: Cluster, u: iset<Entry>, s: Sys, l: Label, p: Host, id: Id)
    requires ValidCluster(cl, u) && l.ClientPropose? && Enabled(cl, u, s, l) && p in s.peers
             && p in Next(cl, u, s, l).peers
    requires id !in s.peers[p].node.ballots && id in Next(cl, u, s, l).peers[p].node.ballots
    ensures l.entry in u && cl.h.hash(l.entry) == id && |cl.peers(l.entry.key)| >= cl.votes
  {
    HandledNew(cl, l.at, s.peers[l.at].node, Proposing, l.entry, OptsOf(cl, l.entry, l.source));
    hide Handle, CanHandle;
  }

  lemma DeliveryOpens(cl: Cluster, u: iset<Entry>, s: Sys, l: Label, hist: NodeSafety.Hist, p: Host, id: Id)
    requires ValidCluster(cl, u) && l.Deliver? && Enabled(cl, u, s, l) && p in s.peers && p in Next(cl, u, s, l).peers
    requires Divergence.Safe(cl, u, s, hist)
    requires id !in s.peers[p].node.ballots && id in Next(cl, u, s, l).peers[p].node.ballots
    ensures l.m.entry in u && cl.h.hash(l.m.entry) == id && |cl.peers(l.m.entry.key)| >= cl.votes
  {
    var m := l.m;
    assert Divergence.MsgOk(cl, u, m, hist);
    HandledNew(cl, m.to, s.peers[m.to].node, m.phase, m.entry, m.opts);
    hide Handle, CanHandle, Divergence.Safe, Divergence.MsgOk;
  }

  lemma OpensNothing(cl: Cluster, u: iset<Entry>, s: Sys, l: Label, p: Host)
    requires !l.ClientPropose? && !l.Deliver? && Enabled(cl, u, s, l) && p in s.peers
    ensures p in Next(cl, u, s, l).peers && Next(cl, u, s, l).peers[p].node.ballots.Keys <= s.peers[p].node.ballots.Keys
  {
    hide EndRound, AppendView;
    if l.Receive? {
      var q := s.peers[l.m.to];
      if RoundOf(q, l.m.phase).Some? {
        EndedKeys(cl, l.m.to, q, l.m.phase, l.m.err);
      }
    } else if l.Fail? {
      EndedKeys(cl, l.at, s.peers[l.at], l.phase, Some(ErrTransport));
    }
  }

  lemma EndedKeys(cl: Cluster, x: Host, p: Peer, phase: Phase, err: Option<Error>)
    requires RoundOf(p, phase).Some?
    ensures CanEnd(cl, x, p, phase, err) ==> EndRound(cl, x, p, phase, err).node.ballots.Keys == p.node.ballots.Keys
  {
    var req := RoundOf(p, phase).value.req;
    if err.None? && phase.Proposing? && CanEnd(cl, x, p, phase, err) {
      CommittedKeys(ConfOf(cl, x), p.node, req.entry, req.opts);
      hide Commit;
    }
  }

  lemma StepOf(cl: Cluster, u: iset<Entry>, states: seq<Sys>, labels: seq<Label>, n: nat)
    requires Run(cl, u, states, labels) && n < |labels|
    ensures |states| == |labels| + 1
    ensures Enabled(cl, u, states[n], labels[n]) && states[n + 1] == Next(cl, u, states[n], labels[n])
  {
    hide Enabled, Next;
  }

  /** With fewer peers than the configured minimum nothing is ever logged. */
  lemma {:induction false} NothingLogged(cl: Cluster, u: iset<Entry>, states: seq<Sys>, labels: seq<Label>, n: nat,
                                         x: Host, k: Key)
    requires ValidCluster(cl, u) && Run(cl, u, states, labels) && n < |states| && |cl.peers(k)| < cl.votes
             && x in cl.hosts
    ensures x in states[n].peers && LogAt(states[n], x, k) == []
    decreases n
  {
    if n == 0 {
      assert Init(cl, states[0]);
      hide Run;
    } else {
      hide *;
      StepLogged(cl, u, states, labels, n - 1, x, k);
      NothingLogged(cl, u, states, labels, n - 1, x, k);
      if LogAt(states[n], x, k) != [] {
        if labels[n - 1].Pull? {
          NothingLogged(cl, u, states, labels, n - 1, labels[n - 1].from, k);
        } else {
          VotedForNothing(cl, u, states, labels, n - 1, x, k);
        }
      }
    }
  }

  /** A pull from an empty log changes no log. */
  lemma StepLogged(cl: Cluster, u: iset<Entry>, states: seq<Sys>, labels: seq<Label>, n: nat, x: Host, k: Key)
    requires ValidCluster(cl, u) && Run(cl, u, states, labels) && n < |states| - 1 && x in cl.hosts
    ensures n < |labels| == |states| - 1 && x in states[n].peers && x in states[n + 1].peers
    ensures
      labels[n].Pull? && LogAt(states[n], x, k) == [] ==>
        && labels[n].from in cl.hosts && labels[n].from in states[n].peers
        && (LogAt(states[n], labels[n].from, k) == [] ==> LogAt(states[n + 1], x, k) == [])
  {
    var l, s := labels[n], states[n];
    StepOf(cl, u, states, labels, n);
    Divergence.RunIsSafe(cl, u, states, labels, n);
    Divergence.RunIsSafe(cl, u, states, labels, n + 1);
    assert s.peers.Keys == states[n + 1].peers.Keys == cl.hosts;
    hide Run, Divergence.HistoryOf, ValidCluster;
    if l.Pull? {
      Divergence.ChainAt(cl, u, s, Divergence.HistoryOf(cl, states, n), l.from, l.key);
      hide Divergence.Safe;
      if LogAt(s, x, k) == [] && LogAt(s, l.from, k) == [] {
        PulledFromNothing(cl, u, s, l, x, k);
      }
    }
  }

  lemma PulledFromNothing(cl: Cluster, u: iset<Entry>, s: Sys, l: Label, x: Host, k: Key)
    requires l.Pull? && Enabled(cl, u, s, l) && x in s.peers && LogAt(s, x, k) == [] == LogAt(s, l.from, k)
    requires forall i :: 0 <= i < |LogAt(s, l.from, l.key)| ==> LogAt(s, l.from, l.key)[i].key == l.key
    ensures x in Next(cl, u, s, l).peers && LogAt(Next(cl, u, s, l), x, k) == []
  {
  }

  lemma VotedForNothing(cl: Cluster, u: iset<Entry>, states: seq<Sys>, labels: seq<Label>, n: nat, x: Host, k: Key)
    requires ValidCluster(cl, u) && Run(cl, u, states, labels) && n < |labels| == |states| - 1 && !labels[n].Pull?
    requires |cl.peers(k)| < cl.votes && x in cl.hosts && x in states[n].peers && x in states[n + 1].peers
    ensures LogAt(states[n + 1], x, k) == LogAt(states[n], x, k)
  {
    var p := cl.peers(k)[0];
    assert p in cl.peers(k) by { assert PeersOk(cl.hosts, cl.peers(k)); }
    hide *;
    if LogAt(states[n + 1], x, k) != LogAt(states[n], x, k) {
      var e, i, j := Divergence.Unanimity(cl, u, states, labels, n, x, k, p);
      Divergence.LogsAreChains(cl, u, states, labels, n + 1, x, k);
      LastOfChain(cl.h, u, k, LogAt(states[n + 1], x, k), LogAt(states[n], x, k), e);
      OpenedInRun(cl, u, states, labels, i, p, e);
    }
  }

  lemma LastOfChain(h: Hashing, u: iset<Entry>, k: Key, log: seq<Entry>, below: seq<Entry>, e: Entry)
    requires Chain(h, u, k, log) && log == below + [e]
    ensures e.key == k
  {
    assert log[|below|] == e;
  }

  lemma OpenedInRun(cl: Cluster, u: iset<Entry>, states: seq<Sys>, labels: seq<Label>, n: nat, p: Host, e: Entry)
    requires ValidCluster(cl, u) && Run(cl, u, states, labels) && n < |labels| == |states| - 1
    requires Divergence.OpensAt(cl, states[n], states[n + 1], p, e)
    ensures |cl.peers(e.key)| >= cl.votes
  {
    hide *;
    StepOf(cl, u, states, labels, n);
    Divergence.RunIsSafe(cl, u, states, labels, n);
    Divergence.RunIsSafe(cl, u, states, labels, n + 1);
    OpensWithEnough(cl, u, states[n], labels[n], Divergence.HistoryOf(cl, states, n),
                    Divergence.HistoryOf(cl, states, n + 1), p, e);
  }

  /** The exact condition for a fork, over all runs: some two entries in use compete for the place after one well-formed
      log, and the key has peers enough for anything to be logged. Where it holds, the fork needs no failure. */
  lemma ForksJustWithRivals(cl: Cluster, u: iset<Entry>, k: Key)
    requires ValidCluster(cl, u)
    ensures (exists states, labels, n: nat :: Run(cl, u, states, labels) && n < |states| && HasFork(cl, k, states[n]))
            <==> Divergence.HasRivals(cl.h, u, k) && |cl.peers(k)| >= cl.votes
  {
    hide Run, ValidCluster, Chain, LastId, Divergence.HasRivals, HasFork;
    if states, labels, n: nat :| Run(cl, u, states, labels) && n < |states| && HasFork(cl, k, states[n]) {
      ForkNeedsRivals(cl, u, k, states, labels, n);
    }
    if Divergence.HasRivals(cl.h, u, k) && |cl.peers(k)| >= cl.votes {
      var states, labels := ForkFromRivals(cl, u, k);
      assert HasFork(cl, k, states[|labels|]);
    }
  }

  lemma ForkNeedsRivals(cl: Cluster, u: iset<Entry>, k: Key, states: seq<Sys>, labels: seq<Label>, n: nat)
    requires ValidCluster(cl, u) && Run(cl, u, states, labels) && n < |states| && HasFork(cl, k, states[n])
    ensures Divergence.HasRivals(cl.h, u, k) && |cl.peers(k)| >= cl.votes
  {
    var s := states[n];
    var x, y :|
      && x in cl.peers(k) && y in cl.peers(k) && x in s.peers && y in s.peers
      && !(LogAt(s, x, k) <= LogAt(s, y, k)) && !(LogAt(s, y, k) <= LogAt(s, x, k));
    assert x in cl.hosts by { assert PeersOk(cl.hosts, cl.peers(k)); }
    hide *;
    if !Divergence.HasRivals(cl.h, u, k) {
      Divergence.ComparableWithoutRivals(cl, u, states, labels, n, x, y, k);
    }
    if |cl.peers(k)| < cl.votes {
      NothingLogged(cl, u, states, labels, n, x, k);
    }
  }

  lemma ForkFromRivals(cl: Cluster, u: iset<Entry>, k: Key) returns (states: seq<Sys>, labels: seq<Label>)
    requires ValidCluster(cl, u) && Divergence.HasRivals(cl.h, u, k) && |cl.peers(k)| >= cl.votes
    ensures Run(cl, u, states, labels) && (forall l :: l in labels ==> Faultless(l)) && |labels| < |states|
    ensures HasFork(cl, k, states[|labels|])
  {
    hide Run, ValidCluster, Chain, LastId;
    var log, a, b :|
      Chain(cl.h, u, k, log) && a in u && b in u && a.key == k && Divergence.Rivals(a, b)
        && a.previous == LastId(cl.h, log);
    states, labels := ForkReached(cl, u, k, log, a, b);
    var s, x, y := states[|labels|], cl.peers(k)[0], cl.peers(k)[1];
    assert x in cl.peers(k) && y in cl.peers(k);
    assert LogAt(s, x, k)[|log|] == a && LogAt(s, y, k)[|log|] == b;
    hide LogAt;
  }
}
