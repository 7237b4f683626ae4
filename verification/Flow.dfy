/** The flow of one entry through a peer set when nothing fails: who has voted, who still has to broadcast, and which
    requests and replies are under way. The same rules govern both phases. */
module Flows {
  import opened HexTypes
  import opened Nodes
  import opened Clusters

  /** `began`: has cast its own vote of that phase. `queued`: has the broadcast of that phase still before it.
      `rounds`: is broadcasting, under a round number, and waits for some peers. `got`: the first has the vote of the
      second. */
  datatype Flow = Flow(
    began: set<(Host, Phase)>, queued: set<(Host, Phase)>, rounds: map<(Host, Phase), (nat, set<Host>)>,
    got: set<(Host, Host, Phase)>, net: set<Msg>)

  function BothPhases(): set<Phase> {
    {Proposing, Committing}
  }

  function HostSet(peers: seq<Host>): set<Host> {
    set y | y in peers
  }

  /** Position in the peer set. */
  function Idx(peers: seq<Host>, x: Host): (i: nat)
    requires x in peers
    ensures i < |peers| && peers[i] == x
  {
    SelfIndex(peers, x).value
  }

  function ReqMsg(e: Entry, peers: seq<Host>, phase: Phase, x: Host, y: Host, no: nat): Msg
    requires x in peers
  {
    Request(phase, x, y, no, e, Options(Idx(peers, x), peers))
  }

  function AckMsg(e: Entry, phase: Phase, y: Host, x: Host, no: nat): Msg {
    Reply(phase, y, x, no, e, None)
  }

  // ---- the rules

  function Begin(f: Flow, x: Host, phase: Phase): Flow {
    if (x, phase) in f.began then f
    else f.(began := f.began + {(x, phase)}, queued := f.queued + {(x, phase)}, got := f.got + {(x, x, phase)})
  }

  function FlowStart(e: Entry, peers: seq<Host>, f: Flow, phase: Phase, x: Host, no: nat): Flow
    requires x in peers
  {
    f.(queued := f.queued - {(x, phase)}, rounds := f.rounds[(x, phase) := (no, Others(peers, x))],
       net := f.net + set y | y in Others(peers, x) :: ReqMsg(e, peers, phase, x, y, no))
  }

  function FlowDeliver(e: Entry, f: Flow, m: Msg): Flow
    requires m.Request?
  {
    var f' := Begin(f, m.to, m.phase);
    f'.(got := f'.got + {(m.to, m.from, m.phase)}, net := f.net - {m} + {AckMsg(e, m.phase, m.to, m.from, m.no)})
  }

  function FlowReceive(f: Flow, m: Msg): Flow
    requires m.Reply? && (m.to, m.phase) in f.rounds
  {
    var k := (m.to, m.phase);
    var waiting := f.rounds[k].1 - {m.from};
    var f' := f.(net := f.net - {m});
    if waiting != {} then f'.(rounds := f.rounds[k := (f.rounds[k].0, waiting)])
    else
      var f'' := f'.(rounds := f.rounds - {k});
      if m.phase.Proposing? then Begin(f'', m.to, Committing) else f''
  }

  // ---- the invariant

  ghost predicate Bookkeeping(peers: seq<Host>, f: Flow) {
    && (forall x, ph :: (x, ph) in f.began ==> x in peers)
    && f.queued <= f.began
    && (forall k :: k in f.rounds ==>
         k in f.began && k !in f.queued && f.rounds[k].1 <= Others(peers, k.0) && f.rounds[k].1 != {})
    && (forall y, ph :: (y, y, ph) in f.got <==> (y, ph) in f.began)
    && (forall y, x, ph :: (y, x, ph) in f.got ==> (y, ph) in f.began && (x, ph) in f.began)
  }

  ghost predicate GotWasSent(peers: seq<Host>, f: Flow) {
    forall y, x, ph :: (y, x, ph) in f.got && y != x ==> (x, ph) !in f.queued
  }

  ghost predicate SentWasGot(peers: seq<Host>, f: Flow) {
    forall y, x, ph ::
      && (x, ph) in f.began && (x, ph) !in f.queued && y in peers && y != x
      && ((x, ph) in f.rounds ==> y !in f.rounds[(x, ph)].1)
      ==> (y, x, ph) in f.got
  }

  ghost predicate WaitedIsUnderWay(e: Entry, peers: seq<Host>, f: Flow) {
    forall x, ph, y :: (x, ph) in f.rounds && x in peers && y in f.rounds[(x, ph)].1 ==>
      ReqMsg(e, peers, ph, x, y, f.rounds[(x, ph)].0) in f.net || AckMsg(e, ph, y, x, f.rounds[(x, ph)].0) in f.net
  }

  ghost predicate MsgFits(e: Entry, peers: seq<Host>, f: Flow, m: Msg) {
    match m
    case Request(ph, x, y, no, _, _) =>
      && x in peers && (x, ph) in f.rounds && no == f.rounds[(x, ph)].0 && m == ReqMsg(e, peers, ph, x, y, no)
      && y in f.rounds[(x, ph)].1 && (y, x, ph) !in f.got
    case Reply(ph, y, x, no, _, _) =>
      && x in peers && (x, ph) in f.rounds && no == f.rounds[(x, ph)].0 && m == AckMsg(e, ph, y, x, no)
      && y in f.rounds[(x, ph)].1 && (y, x, ph) in f.got
  }

  ghost predicate NetFits(e: Entry, peers: seq<Host>, f: Flow) {
    forall m :: m in f.net ==> MsgFits(e, peers, f, m)
  }

  /** Nobody commits before all have proposed, and whoever is through with its proposal has committed. */
  ghost predicate PhasesInOrder(peers: seq<Host>, f: Flow) {
    && (forall x, y :: (x, Committing) in f.began && y in peers ==> (y, Proposing) in f.began)
    && (forall x :: (x, Proposing) in f.began && (x, Proposing) !in f.queued && (x, Proposing) !in f.rounds ==>
          (x, Committing) in f.began)
  }

  ghost predicate FlowOk(e: Entry, peers: seq<Host>, f: Flow) {
    && Bookkeeping(peers, f) && GotWasSent(peers, f) && SentWasGot(peers, f)
    && WaitedIsUnderWay(e, peers, f) && NetFits(e, peers, f) && PhasesInOrder(peers, f)
  }

  lemma BeginKeeps(e: Entry, peers: seq<Host>, f: Flow, x: Host, phase: Phase)
    requires FlowOk(e, peers, f) && x in peers
    requires phase.Committing? ==> forall y :: y in peers ==> (y, Proposing) in f.began
    ensures FlowOk(e, peers, Begin(f, x, phase))
  {
    var f' := Begin(f, x, phase);
    assert Bookkeeping(peers, f');
    assert SentWasGot(peers, f');
    assert WaitedIsUnderWay(e, peers, f');
    forall m | m in f'.net
      ensures MsgFits(e, peers, f', m)
    {
      assert MsgFits(e, peers, f, m);
    }
  }

  lemma StartKeepsFlow(e: Entry, peers: seq<Host>, f: Flow, phase: Phase, x: Host, no: nat)
    requires FlowOk(e, peers, f) && x in peers && (x, phase) in f.queued && Others(peers, x) != {}
    ensures FlowOk(e, peers, FlowStart(e, peers, f, phase, x, no))
  {
    var f' := FlowStart(e, peers, f, phase, x, no);
    assert Bookkeeping(peers, f');
    assert SentWasGot(peers, f');
    assert WaitedIsUnderWay(e, peers, f');
    forall m | m in f'.net
      ensures MsgFits(e, peers, f', m)
    {
      if m in f.net {
        assert MsgFits(e, peers, f, m);
      }
    }
  }

  lemma DeliverKeepsFlow(e: Entry, peers: seq<Host>, f: Flow, m: Msg)
    requires FlowOk(e, peers, f) && m in f.net && m.Request? && m.to in peers
    ensures FlowOk(e, peers, FlowDeliver(e, f, m))
  {
    assert MsgFits(e, peers, f, m);
    BeginKeeps(e, peers, f, m.to, m.phase);
    var f1, f' := Begin(f, m.to, m.phase), FlowDeliver(e, f, m);
    assert Bookkeeping(peers, f');
    assert SentWasGot(peers, f');
    forall x, ph, y | (x, ph) in f'.rounds && x in peers && y in f'.rounds[(x, ph)].1
      ensures ReqMsg(e, peers, ph, x, y, f'.rounds[(x, ph)].0) in f'.net
              || AckMsg(e, ph, y, x, f'.rounds[(x, ph)].0) in f'.net
    {
      assert (x, ph) in f1.rounds;
    }
    forall m' | m' in f'.net
      ensures MsgFits(e, peers, f', m')
    {
      if m' in f.net {
        assert MsgFits(e, peers, f1, m');
      }
    }
  }

  /** A reply is taken off, and its sender no longer waited for. */
  function Acknowledged(f: Flow, m: Msg): Flow
    requires m.Reply? && (m.to, m.phase) in f.rounds
  {
    var k := (m.to, m.phase);
    var waiting := f.rounds[k].1 - {m.from};
    f.(net := f.net - {m}, rounds := if waiting != {} then f.rounds[k := (f.rounds[k].0, waiting)] else f.rounds - {k})
  }

  lemma AcknowledgedUnderWay(e: Entry, peers: seq<Host>, f: Flow, m: Msg)
    requires WaitedIsUnderWay(e, peers, f) && m in f.net && m.Reply? && MsgFits(e, peers, f, m)
    ensures WaitedIsUnderWay(e, peers, Acknowledged(f, m))
  {
    var f1 := Acknowledged(f, m);
    forall x, ph, y | (x, ph) in f1.rounds && x in peers && y in f1.rounds[(x, ph)].1
      ensures ReqMsg(e, peers, ph, x, y, f1.rounds[(x, ph)].0) in f1.net
              || AckMsg(e, ph, y, x, f1.rounds[(x, ph)].0) in f1.net
    {
      assert (x, ph) in f.rounds && y in f.rounds[(x, ph)].1;
    }
  }

  lemma AcknowledgedFits(e: Entry, peers: seq<Host>, f: Flow, m: Msg, m': Msg)
    requires m in f.net && m.Reply? && MsgFits(e, peers, f, m) && m' in f.net && m' != m && MsgFits(e, peers, f, m')
    ensures MsgFits(e, peers, Acknowledged(f, m), m')
  {
    var k, f1 := (m.to, m.phase), Acknowledged(f, m);
    if m'.phase == m.phase && (if m'.Request? then m'.from else m'.to) == m.to {
      var y := if m'.Request? then m'.to else m'.from;
      assert y != m.from by {
        assert m == AckMsg(e, m.phase, m.from, m.to, f.rounds[k].0);
        assert m'.Reply? ==> m' == AckMsg(e, m.phase, y, m.to, f.rounds[k].0);
      }
      assert y in f.rounds[k].1 - {m.from};
      assert k in f1.rounds && f1.rounds[k] == (f.rounds[k].0, f.rounds[k].1 - {m.from});
    }
  }

  lemma AcknowledgedNet(e: Entry, peers: seq<Host>, f: Flow, m: Msg)
    requires WaitedIsUnderWay(e, peers, f) && NetFits(e, peers, f) && m in f.net && m.Reply?
    requires (m.to, m.phase) in f.rounds
    ensures
      var f1 := Acknowledged(f, m);
      WaitedIsUnderWay(e, peers, f1) && NetFits(e, peers, f1)
  {
    assert MsgFits(e, peers, f, m);
    AcknowledgedUnderWay(e, peers, f, m);
    forall m' | m' in f.net && m' != m
      ensures MsgFits(e, peers, Acknowledged(f, m), m')
    {
      assert MsgFits(e, peers, f, m');
      AcknowledgedFits(e, peers, f, m, m');
    }
  }

  lemma AcknowledgedBooks(e: Entry, peers: seq<Host>, f: Flow, m: Msg)
    requires FlowOk(e, peers, f) && m in f.net && m.Reply? && (m.to, m.phase) in f.rounds
    ensures
      var f1 := Acknowledged(f, m);
      Bookkeeping(peers, f1) && GotWasSent(peers, f1) && SentWasGot(peers, f1)
  {
    assert MsgFits(e, peers, f, m);
    var f1, k := Acknowledged(f, m), (m.to, m.phase);
    forall y, x, ph |
      && (x, ph) in f1.began && (x, ph) !in f1.queued && y in peers && y != x
      && ((x, ph) in f1.rounds ==> y !in f1.rounds[(x, ph)].1)
      ensures (y, x, ph) in f1.got
    {
      if (x, ph) == k && y in f.rounds[k].1 {
        assert y == m.from;
      }
    }
  }

  lemma ReceiveKeepsFlow(e: Entry, peers: seq<Host>, f: Flow, m: Msg)
    requires FlowOk(e, peers, f) && m in f.net && m.Reply?
    ensures (m.to, m.phase) in f.rounds && FlowOk(e, peers, FlowReceive(f, m))
  {
    assert MsgFits(e, peers, f, m);
    AcknowledgedNet(e, peers, f, m);
    AcknowledgedBooks(e, peers, f, m);
    var f1 := Acknowledged(f, m);
    if f.rounds[(m.to, m.phase)].1 == {m.from} && m.phase.Proposing? {
      forall y | y in peers
        ensures (y, Proposing) in f1.began
      {
        if y != m.to {
          assert (y, m.to, Proposing) in f1.got;
        }
      }
      ReceivedAll(e, peers, f1, m.to);
    }
  }

  /** The node that has just ended its proposal round, before its commit vote is counted as begun. */
  lemma ReceivedAll(e: Entry, peers: seq<Host>, f: Flow, x: Host)
    requires Bookkeeping(peers, f) && GotWasSent(peers, f) && SentWasGot(peers, f)
    requires WaitedIsUnderWay(e, peers, f) && NetFits(e, peers, f) && x in peers
    requires forall y :: y in peers ==> (y, Proposing) in f.began
    requires forall y ::
               (y, Proposing) in f.began && y != x && (y, Proposing) !in f.queued && (y, Proposing) !in f.rounds ==>
                 (y, Committing) in f.began
    ensures FlowOk(e, peers, Begin(f, x, Committing))
  {
    var f' := Begin(f, x, Committing);
    assert Bookkeeping(peers, f');
    assert SentWasGot(peers, f');
    assert WaitedIsUnderWay(e, peers, f');
    forall m | m in f'.net
      ensures MsgFits(e, peers, f', m)
    {
      assert MsgFits(e, peers, f, m);
    }
  }

  /** When nothing is queued or under way, one vote in the proposal phase means all votes in both phases. */
  lemma QuietMeansComplete(e: Entry, peers: seq<Host>, f: Flow, x: Host)
    requires FlowOk(e, peers, f) && f.queued == {} && f.rounds == map[] && (x, Proposing) in f.began
    ensures forall y, z, ph :: y in peers && z in peers ==> (y, z, ph) in f.got
  {
    forall y | y in peers
      ensures (y, Proposing) in f.began && (y, Committing) in f.began
    {
      if y != x {
        assert (y, x, Proposing) in f.got;
      }
    }
    forall y, z, ph | y in peers && z in peers
      ensures (y, z, ph) in f.got
    {
      match ph
      case Proposing => assert (z, Proposing) in f.began;
      case Committing => assert (z, Committing) in f.began;
    }
  }

  /** What a request or a reply under way says about its two ends. */
  lemma RequestFits(e: Entry, peers: seq<Host>, f: Flow, m: Msg)
    requires FlowOk(e, peers, f) && m in f.net && m.Request?
    ensures m.from in peers && m.to in peers && m.to != m.from && m == ReqMsg(e, peers, m.phase, m.from, m.to, m.no)
    ensures (m.to, m.from, m.phase) !in f.got && (m.phase.Committing? ==> (m.to, Proposing) in f.began)
  {
    assert MsgFits(e, peers, f, m);
    assert (m.from, m.phase) in f.began;
    hide MsgFits, SentWasGot, GotWasSent, WaitedIsUnderWay, NetFits;
  }

  lemma ReplyFits(e: Entry, peers: seq<Host>, f: Flow, m: Msg)
    requires FlowOk(e, peers, f) && m in f.net && m.Reply?
    ensures m.to in peers && m.err.None? && m.entry == e && (m.to, Proposing) in f.began
    ensures (m.to, m.phase) in f.rounds && f.rounds[(m.to, m.phase)].0 == m.no && m.from in f.rounds[(m.to, m.phase)].1
  {
    assert MsgFits(e, peers, f, m);
    match m.phase {
      case Proposing => assert (m.to, Proposing) in f.began;
      case Committing => assert (m.to, Committing) in f.began;
    }
    hide MsgFits, SentWasGot, GotWasSent, WaitedIsUnderWay, NetFits;
  }

  // ---- the measure

  function RequestsIn(net: set<Msg>): set<Msg> {
    set m | m in net && m.Request?
  }

  function RepliesIn(net: set<Msg>): set<Msg> {
    set m | m in net && m.Reply?
  }

  /** With `n` peers: every vote not begun and every broadcast not started is worth `2n`, a request 2, a reply 1. */
  ghost function Measure(n: nat, f: Flow): int {
    2 * n * (2 * n - |f.began| + |f.queued|) + 2 * |RequestsIn(f.net)| + |RepliesIn(f.net)|
  }

  lemma BeginMeasure(n: nat, f: Flow, x: Host, phase: Phase)
    requires f.queued <= f.began
    ensures Measure(n, Begin(f, x, phase)) == Measure(n, f)
  {
  }

  lemma {:induction false} ImageSize(ys: set<Host>, e: Entry, peers: seq<Host>, phase: Phase, x: Host, no: nat)
    requires x in peers
    ensures |set y | y in ys :: ReqMsg(e, peers, phase, x, y, no)| == |ys|
  {
    if ys != {} {
      var z :| z in ys;
      ImageSize(ys - {z}, e, peers, phase, x, no);
      assert (set y | y in ys :: ReqMsg(e, peers, phase, x, y, no))
             == (set y | y in ys - {z} :: ReqMsg(e, peers, phase, x, y, no)) + {ReqMsg(e, peers, phase, x, z, no)};
    }
  }

  lemma {:induction false} HostSetSize(peers: seq<Host>)
    ensures |HostSet(peers)| <= |peers|
  {
    if peers != [] {
      HostSetSize(peers[1..]);
      assert HostSet(peers) == {peers[0]} + HostSet(peers[1..]);
    }
  }

  lemma StartMeasure(e: Entry, peers: seq<Host>, f: Flow, phase: Phase, x: Host, no: nat)
    requires x in peers && (x, phase) in f.queued
    ensures Measure(|peers|, FlowStart(e, peers, f, phase, x, no)) < Measure(|peers|, f)
  {
    var f' := FlowStart(e, peers, f, phase, x, no);
    var sent := set y | y in Others(peers, x) :: ReqMsg(e, peers, phase, x, y, no);
    ImageSize(Others(peers, x), e, peers, phase, x, no);
    HostSetSize(peers);
    assert HostSet(peers) == Others(peers, x) + {x};
    assert RequestsIn(f'.net) == RequestsIn(f.net) + sent;
    assert RepliesIn(f'.net) == RepliesIn(f.net);
    assert f'.queued == f.queued - {(x, phase)};
    assert |RequestsIn(f'.net)| <= |RequestsIn(f.net)| + |sent|;
    TimesOneLess(2 * |peers|, 2 * |peers| - |f.began| + |f.queued|);
  }

  lemma TimesOneLess(a: int, b: int)
    ensures a * (b - 1) == a * b - a
  {
  }

  lemma DeliverMeasure(n: nat, e: Entry, f: Flow, m: Msg)
    requires f.queued <= f.began && m in f.net && m.Request?
    ensures Measure(n, FlowDeliver(e, f, m)) < Measure(n, f)
  {
    BeginMeasure(n, f, m.to, m.phase);
    var f', ack := FlowDeliver(e, f, m), AckMsg(e, m.phase, m.to, m.from, m.no);
    assert RequestsIn(f'.net) == RequestsIn(f.net) - {m};
    assert RepliesIn(f'.net) == RepliesIn(f.net) + {ack};
  }

  lemma ReceiveMeasure(n: nat, f: Flow, m: Msg)
    requires f.queued <= f.began && m in f.net && m.Reply? && (m.to, m.phase) in f.rounds
    ensures Measure(n, FlowReceive(f, m)) < Measure(n, f)
  {
    var f1 := f.(net := f.net - {m}, rounds := f.rounds - {(m.to, m.phase)});
    BeginMeasure(n, f1, m.to, Committing);
    assert RequestsIn(f1.net) == RequestsIn(f.net);
    assert RepliesIn(f1.net) == RepliesIn(f.net) - {m};
  }

  lemma MeasureNotNegative(e: Entry, peers: seq<Host>, f: Flow)
    requires Bookkeeping(peers, f)
    ensures Measure(|peers|, f) >= 0
  {
    HostSetSize(peers);
    var all := set x, ph | x in HostSet(peers) && ph in {Proposing, Committing} :: (x, ph);
    BegunSize(peers, HostSet(peers), all);
    forall k | k in f.began
      ensures k in all
    {
      assert k == (k.0, k.1) && k.0 in peers;
      assert k.1 == Proposing || k.1 == Committing;
    }
    SubsetSize(f.began, all);
    var rest := 2 * |peers| - |f.began| + |f.queued|;
    assert rest >= 0;
    assert 2 * |peers| * rest >= 0;
  }

  lemma SubsetSize<T>(a: set<T>, b: set<T>)
    requires a <= b
    ensures |a| <= |b|
  {
    assert b == a + (b - a);
  }

  lemma {:induction false} BegunSize(peers: seq<Host>, hosts: set<Host>, all: set<(Host, Phase)>)
    requires all == set x, ph | x in hosts && ph in {Proposing, Committing} :: (x, ph)
    ensures |all| <= 2 * |hosts|
    decreases hosts
  {
    if hosts != {} {
      var z :| z in hosts;
      var rest := set x, ph | x in hosts - {z} && ph in {Proposing, Committing} :: (x, ph);
      BegunSize(peers, hosts - {z}, rest);
      assert all == rest + {(z, Proposing), (z, Committing)};
    }
  }
}
