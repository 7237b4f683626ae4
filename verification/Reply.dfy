/** What a successful reply stands for, and a successful round, over all runs. */
module RepliesInRuns {
  import opened HexTypes
  import opened Chains
  import opened Nodes
  import opened Clusters
  import opened NodeSafety
  import opened Divergence
  import Answers
  import Rounds

  /** The peer has done what a request of this phase asks for: it has opened a ballot for the entry, or cast its own
      commit vote. */
  ghost predicate Agreed(hist: Hist, phase: Phase, x: Host, e: Entry) {
    if phase.Proposing? then (x, e) in hist.balloted else (x, e) in hist.voted
  }

  ghost predicate AgreesAt(cl: Cluster, s: Sys, s': Sys, phase: Phase, x: Host, e: Entry) {
    if phase.Proposing? then OpensAt(cl, s, s', x, e) else VotesAt(cl, s, s', x, e)
  }

  ghost predicate ReplyOk(m: Msg, hist: Hist) {
    m.Reply? && m.err.None? ==> Agreed(hist, m.phase, m.from, m.entry)
  }

  /** All peers that a round does not wait for any more have agreed. */
  ghost predicate Heard(x: Host, p: Peer, phase: Phase, hist: Hist) {
    RoundOf(p, phase).Some? ==>
      var r := RoundOf(p, phase).value;
      forall y :: y in r.req.opts.peers && y != x && y !in r.waiting ==> Agreed(hist, phase, y, r.req.entry)
  }

  ghost predicate AllHeard(s: Sys, hist: Hist) {
    && (forall m :: m in s.net ==> ReplyOk(m, hist))
    && (forall x, phase: Phase :: x in s.peers ==> Heard(x, s.peers[x], phase, hist))
  }

  lemma AgreedStays(hist: Hist, hist': Hist, phase: Phase, x: Host, e: Entry)
    requires Within(hist, hist') && Agreed(hist, phase, x, e)
    ensures Agreed(hist', phase, x, e)
  {
  }

  lemma ReplyStays(m: Msg, hist: Hist, hist': Hist)
    requires Within(hist, hist') && ReplyOk(m, hist)
    ensures ReplyOk(m, hist')
  {
  }

  lemma HeardStays(x: Host, p: Peer, p': Peer, phase: Phase, hist: Hist, hist': Hist)
    requires Within(hist, hist') && Heard(x, p, phase, hist)
    requires RoundOf(p', phase).None? || RoundOf(p', phase) == RoundOf(p, phase)
    ensures Heard(x, p', phase, hist')
  {
    if RoundOf(p', phase).Some? {
      var r := RoundOf(p, phase).value;
      forall y | y in r.req.opts.peers && y != x && y !in r.waiting
        ensures Agreed(hist', phase, y, r.req.entry)
      {
        AgreedStays(hist, hist', phase, y, r.req.entry);
      }
    }
  }

  /** A proposal answered without an error has a ballot. */
  lemma ProposalAgreed(cl: Cluster, u: iset<Entry>, s: Sys, s': Sys, x: Host, e: Entry, opts: Options, hist: Hist)
    requires ValidCluster(cl, u) && x in s.peers && x in s'.peers && NodeOk(cl, u, x, s.peers[x].node, hist)
    requires e in u && opts.peers == cl.peers(e.key) && CanHandle(cl, x, s.peers[x].node, Proposing, e, opts)
    requires (s'.peers[x].node, None) == Propose(ConfOf(cl, x), s.peers[x].node, e, opts)
    ensures Agreed(Record(cl, hist, s, s'), Proposing, x, e)
  {
    var n, id := s.peers[x].node, cl.h.hash(e);
    ProposeFrame(ConfOf(cl, x), n, e, opts);
    hide Propose;
    HistHolds(cl, hist, s, s', x, e);
    if id in n.ballots {
      assert BallotOk(cl, u, x, id, n.ballots[id], hist);
      SameEntry(cl.h, u, n.ballots[id].entry, e);
    }
  }

  /** A commit answered without an error has the own vote. */
  lemma CommitAgreed(cl: Cluster, u: iset<Entry>, s: Sys, s': Sys, x: Host, e: Entry, opts: Options, hist: Hist)
    requires ValidCluster(cl, u) && x in s.peers && x in s'.peers && NodeOk(cl, u, x, s.peers[x].node, hist)
    requires e in u && opts.peers == cl.peers(e.key) && CanHandle(cl, x, s.peers[x].node, Committing, e, opts)
    requires (s'.peers[x].node, None) == Commit(ConfOf(cl, x), s.peers[x].node, e, opts)
    ensures Agreed(Record(cl, hist, s, s'), Committing, x, e)
  {
    var n, n', id, ps := s.peers[x].node, s'.peers[x].node, cl.h.hash(e), cl.peers(e.key);
    var self := Answers.AcceptedCommit(ConfOf(cl, x), n, e, opts);
    hide Commit;
    HistHolds(cl, hist, s, s', x, e);
    assert BallotOk(cl, u, x, id, n.ballots[id], hist);
    SameEntry(cl.h, u, n.ballots[id].entry, e);
    assert PeersOk(cl.hosts, ps);
    forall i | 0 <= i < |ps| && ps[i] == x
      ensures i == self
    {
    }
    assert n'.ballots[id].committed[self] != "";
    if OwnCommit(cl, x, n.ballots[id]) {
      assert (ps[self], e) in hist.voted;
    } else {
      assert Votes(cl, x, n, n', e);
    }
  }

  lemma DeliveredHeard(cl: Cluster, u: iset<Entry>, s: Sys, l: Label, hist: Hist)
    requires ValidCluster(cl, u) && Safe(cl, u, s, hist) && Enabled(cl, u, s, l) && l.Deliver? && AllHeard(s, hist)
    ensures AllHeard(Next(cl, u, s, l), Record(cl, hist, s, Next(cl, u, s, l)))
  {
    var s', m, hist' := Next(cl, u, s, l), l.m, Record(cl, hist, s, Next(cl, u, s, l));
    var (n, err) := Handle(cl, m.to, s.peers[m.to].node, m.phase, m.entry, m.opts);
    assert MsgOk(cl, u, m, hist) && PeerOk(cl, u, m.to, s.peers[m.to], hist);
    if err.None? {
      if m.phase.Proposing? {
        ProposalAgreed(cl, u, s, s', m.to, m.entry, m.opts, hist);
      } else {
        CommitAgreed(cl, u, s, s', m.to, m.entry, m.opts, hist);
      }
    }
    var reply := Reply(m.phase, m.to, m.from, m.no, m.entry, err);
    assert s'.net == s.net - {m} + {reply} && ReplyOk(reply, hist');
    assert s'.peers == s.peers[m.to := s.peers[m.to].(node := n)];
    hide Next, Record, Handle, Safe, Enabled;
    RoundsStay(s, s', hist, hist', m.to);
    forall m' | m' in s'.net
      ensures ReplyOk(m', hist')
    {
      if m' != reply {
        ReplyStays(m', hist, hist');
      }
    }
  }

  /** The rounds go on, or end. */
  lemma RoundsStay(s: Sys, s': Sys, hist: Hist, hist': Hist, x: Host)
    requires Within(hist, hist') && AllHeard(s, hist) && x in s.peers && x in s'.peers
    requires s'.peers == s.peers[x := s'.peers[x]]
    requires forall phase: Phase ::
               RoundOf(s'.peers[x], phase).None? || RoundOf(s'.peers[x], phase) == RoundOf(s.peers[x], phase)
    ensures forall y, phase: Phase :: y in s'.peers ==> Heard(y, s'.peers[y], phase, hist')
  {
    forall y, phase: Phase | y in s'.peers
      ensures Heard(y, s'.peers[y], phase, hist')
    {
      assert Heard(y, s.peers[y], phase, hist);
      HeardStays(y, s.peers[y], s'.peers[y], phase, hist, hist');
    }
  }

  /** Fewer messages, or more requests. */
  lemma NoNewReply(s: Sys, s': Sys, hist: Hist, hist': Hist)
    requires Within(hist, hist') && AllHeard(s, hist) && forall m :: m in s'.net ==> m in s.net || m.Request?
    ensures forall m :: m in s'.net ==> ReplyOk(m, hist')
  {
    forall m | m in s'.net
      ensures ReplyOk(m, hist')
    {
      if m in s.net {
        ReplyStays(m, hist, hist');
      }
    }
  }

  /** A reply that is waited for, and not the last one. */
  lemma ReceivedHeard(cl: Cluster, u: iset<Entry>, s: Sys, l: Label, hist: Hist)
    requires Safe(cl, u, s, hist) && Enabled(cl, u, s, l) && l.Receive? && AllHeard(s, hist)
    ensures AllHeard(Next(cl, u, s, l), Record(cl, hist, s, Next(cl, u, s, l)))
  {
    var s', m, hist' := Next(cl, u, s, l), l.m, Record(cl, hist, s, Next(cl, u, s, l));
    var p := s.peers[m.to];
    NoNewReply(s, s', hist, hist');
    if Rounds.Ending(cl, u, s, l, m.to, m.phase, m.err) {
      EndingRounds(cl, u, s, l, m.to, m.phase, m.err);
      hide *;
      assert Within(hist, hist') by { Grows(cl, hist, s, s'); }
      RoundsStay(s, s', hist, hist', m.to);
      Both(s', hist');
    } else {
      Rounds.OtherReply(cl, u, s, m);
      assert ReplyOk(m, hist);
      hide Next, Enabled, Safe, Record;
      forall y, phase: Phase | y in s'.peers
        ensures Heard(y, s'.peers[y], phase, hist')
      {
        assert Heard(y, s.peers[y], phase, hist);
        if RoundOf(s'.peers[y], phase) == RoundOf(s.peers[y], phase) {
          HeardStays(y, s.peers[y], s'.peers[y], phase, hist, hist');
        }
      }
    }
  }

  lemma Grows(cl: Cluster, hist: Hist, s: Sys, s': Sys)
    ensures Within(hist, Record(cl, hist, s, s'))
  {
  }

  lemma Both(s: Sys, hist: Hist)
    requires forall m :: m in s.net ==> ReplyOk(m, hist)
    requires forall x, phase: Phase :: x in s.peers ==> Heard(x, s.peers[x], phase, hist)
    ensures AllHeard(s, hist)
  {
  }

  lemma EndingRounds(cl: Cluster, u: iset<Entry>, s: Sys, l: Label, x: Host, phase: Phase, err: Option<Error>)
    requires Rounds.Ending(cl, u, s, l, x, phase, err)
    ensures
      var s' := Next(cl, u, s, l);
      && x in s'.peers && s'.peers == s.peers[x := s'.peers[x]]
      && forall other: Phase ::
           RoundOf(s'.peers[x], other).None? || RoundOf(s'.peers[x], other) == RoundOf(s.peers[x], other)
  {
    if err.Some? {
      Rounds.FailedRound(cl, u, s, l, x, phase, err.value);
    } else if phase.Proposing? {
      Rounds.ProposedRound(cl, u, s, l, x);
    } else {
      Rounds.CommittedRound(cl, u, s, l, x);
    }
    hide Next, Commit;
  }

  lemma StartedHeard(cl: Cluster, u: iset<Entry>, s: Sys, l: Label, hist: Hist)
    requires Safe(cl, u, s, hist) && Enabled(cl, u, s, l) && l.Start? && AllHeard(s, hist)
    ensures AllHeard(Next(cl, u, s, l), Record(cl, hist, s, Next(cl, u, s, l)))
  {
    var s', hist' := Next(cl, u, s, l), Record(cl, hist, s, Next(cl, u, s, l));
    Rounds.RoundBegins(cl, u, s, l.phase, l.at);
    hide Next, Enabled, Safe, Record;
    NoNewReply(s, s', hist, hist');
    forall y, phase: Phase | y in s'.peers
      ensures Heard(y, s'.peers[y], phase, hist')
    {
      assert Heard(y, s.peers[y], phase, hist);
      if RoundOf(s'.peers[y], phase).None? || RoundOf(s'.peers[y], phase) == RoundOf(s.peers[y], phase) {
        HeardStays(y, s.peers[y], s'.peers[y], phase, hist, hist');
      }
    }
  }

  /** All other steps. */
  lemma QuietlyHeard(cl: Cluster, u: iset<Entry>, s: Sys, l: Label, hist: Hist)
    requires Safe(cl, u, s, hist) && Enabled(cl, u, s, l) && AllHeard(s, hist)
    requires !l.Deliver? && !l.Receive? && !l.Start? && !l.Lose?
    ensures AllHeard(Next(cl, u, s, l), Record(cl, hist, s, Next(cl, u, s, l)))
  {
    var s', hist', x := Next(cl, u, s, l), Record(cl, hist, s, Next(cl, u, s, l)), Actor(l).value;
    if l.Fail? {
      assert Rounds.Ending(cl, u, s, l, l.at, l.phase, Some(ErrTransport));
      EndingRounds(cl, u, s, l, l.at, l.phase, Some(ErrTransport));
    }
    QuietNet(cl, u, s, l);
    hide Next, Enabled, Safe, Record;
    NoNewReply(s, s', hist, hist');
    RoundsStay(s, s', hist, hist', x);
  }

  lemma QuietNet(cl: Cluster, u: iset<Entry>, s: Sys, l: Label)
    requires Enabled(cl, u, s, l) && !l.Deliver? && !l.Receive? && !l.Start? && !l.Lose?
    ensures
      var s', x := Next(cl, u, s, l), Actor(l).value;
      && s'.net == s.net && x in s.peers && x in s'.peers && s'.peers == s.peers[x := s'.peers[x]]
      && (!l.Fail? ==> forall phase: Phase ::
            RoundOf(s'.peers[x], phase).None? || RoundOf(s'.peers[x], phase) == RoundOf(s.peers[x], phase))
  {
    hide Handle, AppendDirect, EndRound;
  }

  lemma StepHeard(cl: Cluster, u: iset<Entry>, s: Sys, l: Label, hist: Hist)
    requires ValidCluster(cl, u) && Safe(cl, u, s, hist) && Enabled(cl, u, s, l) && AllHeard(s, hist)
    ensures AllHeard(Next(cl, u, s, l), Record(cl, hist, s, Next(cl, u, s, l)))
  {
    if l.Lose? {
      LoseShape(cl, u, s, l);
      var s' := Next(cl, u, s, l);
      hide *;
      Grows(cl, hist, s, s');
      NoNewReply(s, s', hist, Record(cl, hist, s, s'));
      SameRounds(s, s', hist, Record(cl, hist, s, s'));
      Both(s', Record(cl, hist, s, s'));
    } else {
      hide *;
      match l {
        case Deliver(_) => DeliveredHeard(cl, u, s, l, hist);
        case Receive(_) => ReceivedHeard(cl, u, s, l, hist);
        case Start(_, _) => StartedHeard(cl, u, s, l, hist);
        case _ => QuietlyHeard(cl, u, s, l, hist);
      }
    }
  }

  lemma SameRounds(s: Sys, s': Sys, hist: Hist, hist': Hist)
    requires Within(hist, hist') && AllHeard(s, hist) && s'.peers == s.peers
    ensures forall y, phase: Phase :: y in s'.peers ==> Heard(y, s'.peers[y], phase, hist')
  {
    forall y, phase: Phase | y in s'.peers
      ensures Heard(y, s'.peers[y], phase, hist')
    {
      assert Heard(y, s.peers[y], phase, hist);
      HeardStays(y, s.peers[y], s'.peers[y], phase, hist, hist');
    }
  }

  lemma {:induction false} RunHeard(cl: Cluster, u: iset<Entry>, states: seq<Sys>, labels: seq<Label>, k: nat)
    requires ValidCluster(cl, u) && Run(cl, u, states, labels) && k < |states|
    ensures AllHeard(states[k], HistoryOf(cl, states, k))
  {
    if k == 0 {
      hide ValidCluster;
    } else {
      RunHeard(cl, u, states, labels, k - 1);
      RunIsSafe(cl, u, states, labels, k - 1);
      hide AllHeard, Safe, ValidCluster, Next, Enabled, Record;
      StepHeard(cl, u, states[k - 1], labels[k - 1], HistoryOf(cl, states, k - 1));
    }
  }

  lemma WhenAgreed(cl: Cluster, states: seq<Sys>, k: nat, phase: Phase, x: Host, e: Entry) returns (j: nat)
    requires k < |states| && Agreed(HistoryOf(cl, states, k), phase, x, e)
    ensures j < k && AgreesAt(cl, states[j], states[j + 1], phase, x, e)
  {
    if phase.Proposing? {
      j := WhenBalloted(cl, states, k, x, e);
    } else {
      j := WhenVoted(cl, states, k, x, e);
    }
  }

  /** Whoever replies without an error has, at some step before, opened a ballot for the entry, or cast its own commit
      vote for it. */
  lemma ReplyMeansVote(cl: Cluster, u: iset<Entry>, states: seq<Sys>, labels: seq<Label>, k: nat, m: Msg)
    returns (j: nat)
    requires ValidCluster(cl, u) && Run(cl, u, states, labels) && k < |states|
    requires m in states[k].net && m.Reply? && m.err.None?
    ensures j < k && AgreesAt(cl, states[j], states[j + 1], m.phase, m.from, m.entry)
  {
    RunHeard(cl, u, states, labels, k);
    assert ReplyOk(m, HistoryOf(cl, states, k));
    hide *;
    j := WhenAgreed(cl, states, k, m.phase, m.from, m.entry);
  }

  /** If a broadcaster's round ends without an error, every other peer of the key has done so; and after a commit round
      the node itself has, so that all peers have voted. */
  lemma RoundMeansVotes(cl: Cluster, u: iset<Entry>, states: seq<Sys>, labels: seq<Label>, k: nat, x: Host,
                        phase: Phase, y: Host)
    returns (e: Entry, j: nat)
    requires ValidCluster(cl, u) && Run(cl, u, states, labels) && k < |labels|
    requires Rounds.Ending(cl, u, states[k], labels[k], x, phase, None)
    requires
      && y in cl.peers(RoundOf(states[k].peers[x], phase).value.req.entry.key)
      && (y != x || phase.Committing?)
    ensures e == RoundOf(states[k].peers[x], phase).value.req.entry
    ensures j < k && AgreesAt(cl, states[j], states[j + 1], phase, y, e)
  {
    var r, hist := RoundOf(states[k].peers[x], phase).value, HistoryOf(cl, states, k);
    e := r.req.entry;
    RunHeard(cl, u, states, labels, k);
    RunIsSafe(cl, u, states, labels, k);
    assert PeerOk(cl, u, x, states[k].peers[x], hist) && Heard(x, states[k].peers[x], phase, hist);
    assert ReplyOk(labels[k].m, hist);
    assert r.req.opts.peers == cl.peers(e.key);
    assert Agreed(hist, phase, y, e);
    hide *;
    j := WhenAgreed(cl, states, k, phase, y, e);
  }
}
