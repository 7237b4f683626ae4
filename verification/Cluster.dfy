/** The nodes of a cluster, the messages between them, and the steps they take (broadcast.go and the handlers). */
module Clusters {
  import opened HexTypes
  import opened Chains
  import opened StoreSpec
  import opened Ballots
  import opened Nodes

  /** `peers` gives the fixed peer set of every key. */
  datatype Cluster = Cluster(h: Hashing, votes: nat, hosts: set<Host>, peers: Key -> seq<Host>)

  predicate PeersOk(hosts: set<Host>, peers: seq<Host>) {
    && |peers| >= 2
    && (forall i :: 0 <= i < |peers| ==> peers[i] in hosts && peers[i] != "")
    && (forall i, j :: 0 <= i < j < |peers| ==> peers[i] != peers[j])
  }

  ghost predicate ValidCluster(cl: Cluster, u: iset<Entry>) {
    Sound(cl.h, u) && forall k :: PeersOk(cl.hosts, cl.peers(k))
  }

  function ConfOf(cl: Cluster, x: Host): Conf {
    Conf(x, cl.votes, cl.h)
  }

  datatype Phase = Proposing | Committing

  /** One request a broadcaster is sending out, and the peers whose reply it waits for. */
  datatype Round = Round(no: nat, req: Req, waiting: set<Host>)

  /** A node with its two broadcasters, each busy with at most one request. */
  datatype Peer = Peer(node: Node, proposing: Option<Round>, committing: Option<Round>, rounds: nat)

  datatype Msg =
    | Request(phase: Phase, from: Host, to: Host, no: nat, entry: Entry, opts: Options)
    | Reply(phase: Phase, from: Host, to: Host, no: nat, entry: Entry, err: Option<Error>)

  datatype Sys = Sys(peers: map<Host, Peer>, net: set<Msg>)

  /** Steps of the system; what a label names is what the environment chooses. */
  datatype Label =
    | ClientPropose(at: Host, entry: Entry, source: int) // a request by a client, with whatever source index
    | Start(phase: Phase, at: Host)                      // a broadcaster takes its next request
    | Deliver(m: Msg)                                    // a request is handled by the node it is sent to
    | Receive(m: Msg)                                    // a reply reaches the broadcaster
    | Fail(phase: Phase, at: Host)                       // a broadcaster sees a transport error
    | Lose(m: Msg)
    | Expire(at: Host, id: Id)                           // a ballot's timer fires
    | ReapBallots(at: Host)
    | Crash(at: Host)                                    // only the log survives
    | Pull(at: Host, from: Host, key: Key, i: nat)       // an entry of a key log streamed by another node arrives

  function RoundOf(p: Peer, phase: Phase): Option<Round> {
    if phase.Proposing? then p.proposing else p.committing
  }

  function SetRound(p: Peer, phase: Phase, r: Option<Round>): Peer {
    if phase.Proposing? then p.(proposing := r) else p.(committing := r)
  }

  function QueueOf(n: Node, phase: Phase): seq<Req> {
    if phase.Proposing? then n.pch else n.cch
  }

  function Others(peers: seq<Host>, x: Host): set<Host> {
    set y | y in peers && y != x
  }

  function Requests(phase: Phase, x: Host, no: nat, e: Entry, peers: seq<Host>, self: nat): set<Msg> {
    set y | y in Others(peers, x) :: Request(phase, x, y, no, e, Options(self, peers))
  }

  function LogAt(s: Sys, x: Host, k: Key): seq<Entry>
    requires x in s.peers
  {
    LogOf(s.peers[x].node.store, k)
  }

  function OptsOf(cl: Cluster, e: Entry, source: int): Options {
    Options(source, cl.peers(e.key))
  }

  /** Handling a request of either phase. */
  predicate CanHandle(cl: Cluster, x: Host, n: Node, phase: Phase, e: Entry, opts: Options) {
    Callable(ConfOf(cl, x), n, e, opts) && (phase.Committing? ==> 0 <= opts.sourceIndex)
  }

  function Handle(cl: Cluster, x: Host, n: Node, phase: Phase, e: Entry, opts: Options): (Node, Option<Error>)
    requires CanHandle(cl, x, n, phase, e, opts)
  {
    if phase.Proposing? then Propose(ConfOf(cl, x), n, e, opts) else Commit(ConfOf(cl, x), n, e, opts)
  }

  /** A broadcaster is through with its round. After a successful proposal round the node casts its own commit vote;
      any error closes the ballot. */
  predicate CanEnd(cl: Cluster, x: Host, p: Peer, phase: Phase, err: Option<Error>) {
    && RoundOf(p, phase).Some?
    && var req := RoundOf(p, phase).value.req;
    (phase.Proposing? && err.None? ==> CanHandle(cl, x, p.node, Committing, req.entry, req.opts))
  }

  function EndRound(cl: Cluster, x: Host, p: Peer, phase: Phase, err: Option<Error>): Peer
    requires CanEnd(cl, x, p, phase, err)
  {
    var req := RoundOf(p, phase).value.req;
    var id := cl.h.hash(req.entry);
    var p' := SetRound(p, phase, None);
    if err.Some? then p'.(node := CloseBallot(p.node, id, err))
    else if phase.Committing? then p'
    else
      var (n, err') := Handle(cl, x, p.node, Committing, req.entry, req.opts);
      p'.(node := if err'.Some? then CloseBallot(n, id, err') else n)
  }

  /** The round a reply belongs to is still on, and waits for it. */
  predicate Awaited(p: Peer, m: Msg) {
    && m.Reply?
    && var r := RoundOf(p, m.phase);
    r.Some? && r.value.no == m.no && r.value.req.entry == m.entry && m.from in r.value.waiting
  }

  /** What an awaited reply does: an error or the last reply ends the round. */
  function Ends(p: Peer, m: Msg): bool
    requires Awaited(p, m)
  {
    m.err.Some? || RoundOf(p, m.phase).value.waiting == {m.from}
  }

  ghost predicate Enabled(cl: Cluster, u: iset<Entry>, s: Sys, l: Label) {
    match l
    case ClientPropose(at, e, source) =>
      at in s.peers && e in u && CanHandle(cl, at, s.peers[at].node, Proposing, e, OptsOf(cl, e, source))
    case Start(phase, at) =>
      at in s.peers && RoundOf(s.peers[at], phase).None? && QueueOf(s.peers[at].node, phase) != []
    case Deliver(m) =>
      m in s.net && m.Request? && m.to in s.peers && CanHandle(cl, m.to, s.peers[m.to].node, m.phase, m.entry, m.opts)
    case Receive(m) =>
      && m in s.net && m.Reply? && m.to in s.peers
      && var p := s.peers[m.to];
      (Awaited(p, m) && Ends(p, m) ==> CanEnd(cl, m.to, p, m.phase, m.err))
    case Fail(phase, at) => at in s.peers && CanEnd(cl, at, s.peers[at], phase, Some(ErrTransport))
    case Lose(m) => m in s.net
    case Expire(at, id) =>
      at in s.peers && id in s.peers[at].node.ballots
      && s.peers[at].node.ballots[id].timer && !s.peers[at].node.ballots[id].closed
    case ReapBallots(at) => at in s.peers
    case Crash(at) => at in s.peers
    case Pull(at, from, k, i) => at in s.peers && from in s.peers && i < |LogAt(s, from, k)|
  }

  function StartRound(cl: Cluster, p: Peer, phase: Phase, x: Host): (Peer, set<Msg>)
    requires QueueOf(p.node, phase) != []
  {
    var req := QueueOf(p.node, phase)[0];
    var n := if phase.Proposing? then p.node.(pch := p.node.pch[1..]) else p.node.(cch := p.node.cch[1..]);
    match SelfIndex(req.opts.peers, x)
    case None => (p.(node := CloseBallot(n, cl.h.hash(req.entry), Some(ErrNotInPeerSet))), {})
    case Some(self) =>
      (SetRound(p.(node := n, rounds := p.rounds + 1), phase,
                Some(Round(p.rounds, req, Others(req.opts.peers, x)))),
       Requests(phase, x, p.rounds, req.entry, req.opts.peers, self))
  }

  function ReceiveReply(cl: Cluster, p: Peer, m: Msg): Peer
    requires m.Reply? && (Awaited(p, m) && Ends(p, m) ==> CanEnd(cl, m.to, p, m.phase, m.err))
  {
    if !Awaited(p, m) then p
    else if Ends(p, m) then EndRound(cl, m.to, p, m.phase, m.err)
    else
      var r := RoundOf(p, m.phase).value;
      SetRound(p, m.phase, Some(r.(waiting := r.waiting - {m.from})))
  }

  function SetNode(s: Sys, x: Host, n: Node): Sys
    requires x in s.peers
  {
    s.(peers := s.peers[x := s.peers[x].(node := n)])
  }

  ghost function Next(cl: Cluster, u: iset<Entry>, s: Sys, l: Label): Sys
    requires Enabled(cl, u, s, l)
  {
    match l
    case ClientPropose(at, e, source) =>
      SetNode(s, at, Handle(cl, at, s.peers[at].node, Proposing, e, OptsOf(cl, e, source)).0)
    case Start(phase, at) =>
      var (p, out) := StartRound(cl, s.peers[at], phase, at);
      Sys(s.peers[at := p], s.net + out)
    case Deliver(m) =>
      var (n, err) := Handle(cl, m.to, s.peers[m.to].node, m.phase, m.entry, m.opts);
      SetNode(s, m.to, n).(net := s.net - {m} + {Reply(m.phase, m.to, m.from, m.no, m.entry, err)})
    case Receive(m) => Sys(s.peers[m.to := ReceiveReply(cl, s.peers[m.to], m)], s.net - {m})
    case Fail(phase, at) => s.(peers := s.peers[at := EndRound(cl, at, s.peers[at], phase, Some(ErrTransport))])
    case Lose(m) => s.(net := s.net - {m})
    case Expire(at, id) =>
      var n := s.peers[at].node;
      SetNode(s, at, n.(ballots := n.ballots[id := Ballots.Expire(n.ballots[id])]))
    case ReapBallots(at) => SetNode(s, at, Reap(s.peers[at].node))
    case Crash(at) =>
      var p := s.peers[at];
      s.(peers := s.peers[at := Peer(Node(p.node.store, map[], [], [], [], p.node.applied), None, None, p.rounds)])
    case Pull(at, from, k, i) =>
      var n := s.peers[at].node;
      SetNode(s, at, AppendDirect(cl.h, n.(store := UpsertKey(n.store, k)), LogAt(s, from, k)[i]).0)
  }

  function NewPeer(): Peer {
    Peer(Node(map[], map[], [], [], [], []), None, None, 0)
  }

  /** All logs are empty and nothing is going on. */
  ghost predicate Init(cl: Cluster, s: Sys) {
    s == Sys(map x | x in cl.hosts :: NewPeer(), {})
  }

  /** A run: the states it goes through, and the steps between them. */
  ghost predicate Run(cl: Cluster, u: iset<Entry>, states: seq<Sys>, labels: seq<Label>) {
    && |states| == |labels| + 1
    && Init(cl, states[0])
    && (forall k :: 0 <= k < |labels| ==> Enabled(cl, u, states[k], labels[k]))
    && (forall k :: 0 <= k < |labels| ==> states[k + 1] == Next(cl, u, states[k], labels[k]))
  }

  /** The host whose node a step may change; message losses change none. */
  function Actor(l: Label): Option<Host> {
    match l
    case ClientPropose(at, _, _) => Some(at)
    case Start(_, at) => Some(at)
    case Deliver(m) => Some(m.to)
    case Receive(m) => Some(m.to)
    case Fail(_, at) => Some(at)
    case Lose(_) => None
    case Expire(at, _) => Some(at)
    case ReapBallots(at) => Some(at)
    case Crash(at) => Some(at)
    case Pull(at, _, _, _) => Some(at)
  }
}
