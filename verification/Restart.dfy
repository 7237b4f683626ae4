/** A cluster with the state machines of its nodes: what the applications are given, over crashes and restarts. */
module FsmsInRuns {
  import opened HexTypes
  import opened Chains
  import opened StoreSpec
  import opened Nodes
  import opened Clusters
  import opened Replays
  import opened LogsInRuns
  import NodeSafety
  import D = Divergence

  datatype Whole = Whole(sys: Sys, fsms: map<Host, FsmState>)

  /** A step of the cluster, or one of the FSM of a node. */
  datatype Act = ByCluster(l: Label) | ByFsm(at: Host, step: Replays.Step)

  /** The check after a restart is through; until then the node takes no part in the cluster. */
  predicate Up(w: Whole, x: Host) {
    x in w.fsms && w.fsms[x].pending == {}
  }

  ghost predicate CanAct(cl: Cluster, u: iset<Entry>, w: Whole, a: Act) {
    match a
    case ByCluster(l) =>
      && Enabled(cl, u, w.sys, l)
      && (Actor(l).Some? && !l.Crash? ==> Up(w, Actor(l).value))
      && (l.Pull? ==> Up(w, l.from))
    case ByFsm(x, step) =>
      x in w.fsms && (step.Give? || step.Save? || step.Check?) && CanStep(cl.h, u, w.fsms[x], step)
  }

  /** What the node has handed to its FSM. */
  function Handed(n: Node, n': Node): seq<Entry> {
    if n.applied <= n'.applied then n'.applied[|n.applied|..] else []
  }

  function Fed(f: FsmState, n: Node, n': Node): FsmState {
    f.(log := n'.store, queue := f.queue + Handed(n, n'))
  }

  function FsmAfter(w: Whole, sys': Sys, l: Label, x: Host): FsmState
    requires x in w.fsms
  {
    if l.Crash? && l.at == x then Crashed(w.fsms[x])
    else if x in w.sys.peers && x in sys'.peers then Fed(w.fsms[x], w.sys.peers[x].node, sys'.peers[x].node)
    else w.fsms[x]
  }

  ghost function DoAct(cl: Cluster, u: iset<Entry>, w: Whole, a: Act): Whole
    requires CanAct(cl, u, w, a)
  {
    match a
    case ByCluster(l) =>
      var sys' := Next(cl, u, w.sys, l);
      Whole(sys', map x | x in w.fsms :: FsmAfter(w, sys', l, x))
    case ByFsm(x, step) => w.(fsms := w.fsms[x := DoStep(cl.h, u, w.fsms[x], step)])
  }

  ghost predicate WholeRun(cl: Cluster, u: iset<Entry>, wholes: seq<Whole>, acts: seq<Act>) {
    && |wholes| == |acts| + 1
    && Init(cl, wholes[0].sys) && wholes[0].fsms == (map x | x in cl.hosts :: NewFsm())
    && (forall i :: 0 <= i < |acts| ==> CanAct(cl, u, wholes[i], acts[i]))
    && (forall i :: 0 <= i < |acts| ==> wholes[i + 1] == DoAct(cl, u, wholes[i], acts[i]))
  }

  // ---- one node

  /** Several entries are appended and queued. */
  function CommitAll(v: KeyView, es: seq<Entry>): KeyView {
    v.(log := v.log + es, queued := v.queued + es)
  }

  lemma {:induction false} CommitsKeep(h: Hashing, u: iset<Entry>, k: Key, v: KeyView, es: seq<Entry>)
    requires Sound(h, u) && Chain(h, u, k, v.log + es) && KeyOk(h, v) && !v.pending
    ensures
      var v' := CommitAll(v, es);
      && KeyOk(h, v') && Again(h, v') == Again(h, v) && (Prompt(h, v) ==> Prompt(h, v')) && (Neat(h, v) ==> Neat(h, v'))
    decreases es
  {
    if es == [] {
      assert v.log + es == v.log && v.queued + es == v.queued;
      assert CommitAll(v, es) == v;
    } else {
      var n := |es| - 1;
      var before, e := es[..n], es[n];
      assert (v.log + es)[..|v.log| + n] == v.log + before;
      assert (v.log + before) + [e] == v.log + es && (v.queued + before) + [e] == v.queued + es;
      ChainPrefix(h, u, k, v.log + es, |v.log| + n);
      CommitsKeep(h, u, k, v, before);
      var v1 := CommitAll(v, before);
      assert CommitAll(v, es) == CommitKey(v1, e);
      hide KeyOk, Neat, Again, Chain, Sound, CommitAll, CommitKey;
      CommitOneMore(h, u, k, v1, e);
    }
  }

  lemma CommitOneMore(h: Hashing, u: iset<Entry>, k: Key, v: KeyView, e: Entry)
    requires Sound(h, u) && Chain(h, u, k, v.log + [e]) && KeyOk(h, v) && !v.pending
    ensures
      var v' := CommitKey(v, e);
      && KeyOk(h, v') && Again(h, v') == Again(h, v) && !v'.pending && v'.log == v.log + [e]
      && (Prompt(h, v) ==> Prompt(h, v')) && (Neat(h, v) ==> Neat(h, v'))
  {
    CommitKeeps(h, u, k, v, e);
    if Neat(h, v) {
      CommitNeat(h, u, k, v, e);
    }
    hide KeyOk, Neat, Again, Due, Saved;
    assert Prompt(h, v) ==> Prompt(h, CommitKey(v, e));
  }

  /** The FSM of a node follows its log, and is in order. */
  ghost predicate FollowsLog(h: Hashing, u: iset<Entry>, f: FsmState, n: Node) {
    f.log == n.store && FsmOk(h, u, f)
  }

  /** What a node appends reaches its FSM, seen from one key. */
  lemma FedSeen(f: FsmState, n: Node, n': Node, k: Key)
    requires InStep(n) && Hands(n, n') && f.log == n.store && f.pending == {}
    ensures At(Fed(f, n, n'), k) == CommitAll(At(f, k), Of(Handed(n, n'), k))
    ensures At(Fed(f, n, n'), k).log == LogOf(n'.store, k)
  {
    var es := Handed(n, n');
    assert n.applied + es == n'.applied;
    OfSum(n.applied, es, k);
    OfSum(f.queue, es, k);
    hide Of, LogOf, Get;
  }

  lemma FedKeeps(h: Hashing, u: iset<Entry>, f: FsmState, n: Node, n': Node)
    requires Sound(h, u) && FollowsLog(h, u, f, n) && f.pending == {} && InStep(n) && Hands(n, n')
    requires forall k :: k in n'.store ==> Chain(h, u, k, n'.store[k].log)
    ensures FollowsLog(h, u, Fed(f, n, n'), n')
    ensures forall k :: SameStanding(h, At(f, k), At(Fed(f, n, n'), k))
  {
    var f' := Fed(f, n, n');
    forall k
      ensures KeyOk(h, At(f', k)) && SameStanding(h, At(f, k), At(f', k))
    {
      FedSeen(f, n, n', k);
      assert KeyOk(h, At(f, k)) && Chain(h, u, k, LogOf(n'.store, k));
      hide KeyOk, Chain, FsmOk, At, Fed, InStep, Hands, Handed, Of;
      CommitsKeep(h, u, k, At(f, k), Of(Handed(n, n'), k));
    }
    hide KeyOk, Chain, SameStanding, At;
  }

  /** Nothing is given or given again, and what is in order stays so. */
  ghost predicate SameStanding(h: Hashing, v: KeyView, v': KeyView) {
    && Again(h, v') == Again(h, v) && (Prompt(h, v) ==> Prompt(h, v')) && (Neat(h, v) ==> Neat(h, v'))
  }

  // ---- all nodes

  ghost predicate WholeOk(cl: Cluster, u: iset<Entry>, w: Whole) {
    && AllInStep(w.sys) && w.fsms.Keys == w.sys.peers.Keys
    && forall x :: x in w.fsms ==> FollowsLog(cl.h, u, w.fsms[x], w.sys.peers[x].node)
  }

  /** Node `x` crashes. */
  predicate CrashesAt(a: Act, x: Host) {
    a.ByCluster? && a.l.Crash? && a.l.at == x
  }

  /** The stable store of `x` fails to record an id. */
  predicate FailsAt(a: Act, x: Host) {
    a.ByFsm? && a.at == x && a.step.Save? && a.step.err.Some?
  }

  /** What a step leaves of the standing of a key at `x`. */
  ghost predicate Stands(h: Hashing, v: KeyView, a: Act, x: Host, v': KeyView) {
    && Again(h, v') <= Again(h, v) + (if CrashesAt(a, x) then Rewind(h, v) else 0)
    && (Prompt(h, v) && !FailsAt(a, x) ==> Prompt(h, v'))
    && (Neat(h, v) && (CrashesAt(a, x) ==> !Behind(h, v)) ==> Neat(h, v'))
  }

  lemma CrashKeepsFsm(h: Hashing, u: iset<Entry>, f: FsmState, n: Node, n': Node, a: Act, x: Host)
    requires Sound(h, u) && FollowsLog(h, u, f, n) && n'.store == n.store && CrashesAt(a, x)
    ensures FollowsLog(h, u, Crashed(f), n') && forall k :: Stands(h, At(f, k), a, x, At(Crashed(f), k))
  {
    StepKeeps(h, u, f, Replays.Crash);
    hide FsmOk, At, KeyOk, Again, Rewind, Prompt, Neat, Behind;
    forall k
      ensures Stands(h, At(f, k), a, x, At(Crashed(f), k))
    {
      KeyStepFacts(h, At(f, k), Replays.Crash, At(Crashed(f), k));
    }
  }

  lemma TurnKeepsFsm(h: Hashing, u: iset<Entry>, f: FsmState, n: Node, a: Act, x: Host)
    requires Sound(h, u) && FollowsLog(h, u, f, n) && a.ByFsm? && a.at == x
    requires (a.step.Give? || a.step.Save? || a.step.Check?) && CanStep(h, u, f, a.step)
    ensures
      var f' := DoStep(h, u, f, a.step);
      FollowsLog(h, u, f', n) && forall k :: Stands(h, At(f, k), a, x, At(f', k))
  {
    var f' := DoStep(h, u, f, a.step);
    hide FsmOk, At, KeyOk, Again, Rewind, Prompt, Neat, Behind, DoStep, CanStep, KeyStep, Sound;
    StepKeeps(h, u, f, a.step);
    TurnKeepsLog(h, u, f, a.step);
    forall k
      ensures Stands(h, At(f, k), a, x, At(f', k))
    {
      KeyStepFacts(h, At(f, k), a.step, At(f', k));
    }
  }

  lemma TurnKeepsLog(h: Hashing, u: iset<Entry>, f: FsmState, step: Replays.Step)
    requires (step.Give? || step.Save? || step.Check?) && CanStep(h, u, f, step)
    ensures DoStep(h, u, f, step).log == f.log
  {
    hide Replay;
  }

  lemma FedKeepsFsm(h: Hashing, u: iset<Entry>, f: FsmState, n: Node, n': Node, a: Act, x: Host)
    requires Sound(h, u) && FollowsLog(h, u, f, n) && (n' == n || f.pending == {}) && InStep(n) && Hands(n, n')
    requires (forall k :: k in n'.store ==> Chain(h, u, k, n'.store[k].log)) && a.ByCluster? && !CrashesAt(a, x)
    ensures FollowsLog(h, u, Fed(f, n, n'), n') && forall k :: Stands(h, At(f, k), a, x, At(Fed(f, n, n'), k))
  {
    if n' == n {
      assert Fed(f, n, n') == f;
    } else {
      FedKeeps(h, u, f, n, n');
      assert forall k :: SameStanding(h, At(f, k), At(Fed(f, n, n'), k));
    }
    hide FsmOk, At, Fed, InStep, Hands, Again, Rewind, Prompt, Neat, Behind, Chain, Sound;
  }

  lemma OthersStay(cl: Cluster, u: iset<Entry>, s: Sys, l: Label, x: Host)
    requires Enabled(cl, u, s, l) && x in s.peers && Actor(l) != Some(x)
    ensures x in Next(cl, u, s, l).peers && Next(cl, u, s, l).peers[x] == s.peers[x]
  {
    hide Handle, StartRound, ReceiveReply, EndRound, AppendDirect;
  }

  lemma CrashedStore(cl: Cluster, u: iset<Entry>, s: Sys, l: Label)
    requires l.Crash? && Enabled(cl, u, s, l)
    ensures l.at in Next(cl, u, s, l).peers && Next(cl, u, s, l).peers[l.at].node.store == s.peers[l.at].node.store
  {
  }

  lemma ClusterActAt(cl: Cluster, u: iset<Entry>, w: Whole, l: Label, hist': NodeSafety.Hist, x: Host)
    requires ValidCluster(cl, u) && WholeOk(cl, u, w) && CanAct(cl, u, w, ByCluster(l)) && x in w.fsms
    requires D.Safe(cl, u, Next(cl, u, w.sys, l), hist')
    ensures
      var sys' := Next(cl, u, w.sys, l);
      var f' := FsmAfter(w, sys', l, x);
      && x in sys'.peers && FollowsLog(cl.h, u, f', sys'.peers[x].node)
      && forall k :: Stands(cl.h, At(w.fsms[x], k), ByCluster(l), x, At(f', k))
  {
    var sys', f, n := Next(cl, u, w.sys, l), w.fsms[x], w.sys.peers[x].node;
    StepInStep(cl, u, w.sys, l);
    var n' := sys'.peers[x].node;
    assert D.PeerOk(cl, u, x, sys'.peers[x], hist');
    assert Sound(cl.h, u) && forall k :: k in n'.store ==> Chain(cl.h, u, k, n'.store[k].log);
    hide FollowsLog, Next, Enabled, D.Safe, D.PeerOk, InStep, Hands, Stands, Chain, Fed;
    if Actor(l) != Some(x) {
      OthersStay(cl, u, w.sys, l, x);
      FedKeepsFsm(cl.h, u, f, n, n', ByCluster(l), x);
    } else if l.Crash? {
      CrashedStore(cl, u, w.sys, l);
      CrashKeepsFsm(cl.h, u, f, n, n', ByCluster(l), x);
    } else {
      FedKeepsFsm(cl.h, u, f, n, n', ByCluster(l), x);
    }
  }

  ghost predicate ActOk(cl: Cluster, u: iset<Entry>, w: Whole, a: Act, w': Whole) {
    && WholeOk(cl, u, w') && w'.fsms.Keys == w.fsms.Keys
    && forall x, k :: x in w.fsms ==> Stands(cl.h, At(w.fsms[x], k), a, x, At(w'.fsms[x], k))
  }

  lemma ClusterAct(cl: Cluster, u: iset<Entry>, w: Whole, l: Label, hist: NodeSafety.Hist)
    returns (hist': NodeSafety.Hist)
    requires ValidCluster(cl, u) && WholeOk(cl, u, w) && D.Safe(cl, u, w.sys, hist) && CanAct(cl, u, w, ByCluster(l))
    ensures D.Safe(cl, u, DoAct(cl, u, w, ByCluster(l)).sys, hist')
    ensures ActOk(cl, u, w, ByCluster(l), DoAct(cl, u, w, ByCluster(l)))
  {
    var sys' := Next(cl, u, w.sys, l);
    var w' := DoAct(cl, u, w, ByCluster(l));
    assert Enabled(cl, u, w.sys, l) && AllInStep(w.sys) && w.fsms.Keys == w.sys.peers.Keys;
    assert w' == Whole(sys', map x | x in w.fsms :: FsmAfter(w, sys', l, x));
    hist' := D.Record(cl, hist, w.sys, sys');
    hide *;
    D.StepKeeps(cl, u, w.sys, l, hist);
    StepInStep(cl, u, w.sys, l);
    SameHosts(cl, u, w.sys, hist, sys', hist');
    forall x | x in w.fsms
      ensures x in sys'.peers && FollowsLog(cl.h, u, FsmAfter(w, sys', l, x), sys'.peers[x].node)
      ensures forall k :: Stands(cl.h, At(w.fsms[x], k), ByCluster(l), x, At(FsmAfter(w, sys', l, x), k))
    {
      ClusterActAt(cl, u, w, l, hist', x);
    }
    AfterCluster(cl, u, w, l, w');
  }

  lemma AfterCluster(cl: Cluster, u: iset<Entry>, w: Whole, l: Label, w': Whole)
    requires w'.fsms == (map x | x in w.fsms :: FsmAfter(w, w'.sys, l, x)) && AllInStep(w'.sys)
    requires w.fsms.Keys == w.sys.peers.Keys == w'.sys.peers.Keys
    requires forall x :: x in w.fsms ==>
               FollowsLog(cl.h, u, FsmAfter(w, w'.sys, l, x), w'.sys.peers[x].node)
    requires forall x, k :: x in w.fsms ==>
               Stands(cl.h, At(w.fsms[x], k), ByCluster(l), x, At(FsmAfter(w, w'.sys, l, x), k))
    ensures ActOk(cl, u, w, ByCluster(l), w')
  {
    hide FollowsLog, AllInStep, Stands, FsmAfter, At;
  }

  lemma SameHosts(cl: Cluster, u: iset<Entry>, s: Sys, hist: NodeSafety.Hist, s': Sys, hist': NodeSafety.Hist)
    requires D.Safe(cl, u, s, hist) && D.Safe(cl, u, s', hist')
    ensures s'.peers.Keys == s.peers.Keys
  {
  }

  lemma FsmAct(cl: Cluster, u: iset<Entry>, w: Whole, a: Act)
    requires Sound(cl.h, u) && WholeOk(cl, u, w) && a.ByFsm? && CanAct(cl, u, w, a)
    ensures DoAct(cl, u, w, a).sys == w.sys && ActOk(cl, u, w, a, DoAct(cl, u, w, a))
  {
    var w' := DoAct(cl, u, w, a);
    assert w' == w.(fsms := w.fsms[a.at := DoStep(cl.h, u, w.fsms[a.at], a.step)]) && a.at in w.fsms;
    hide FollowsLog, AllInStep, DoStep, CanStep, At, Sound, Again, Prompt, Neat, Rewind, DoAct;
    TurnKeepsFsm(cl.h, u, w.fsms[a.at], w.sys.peers[a.at].node, a, a.at);
  }

  /** Every step keeps all FSMs in order. */
  lemma ActKeeps(cl: Cluster, u: iset<Entry>, w: Whole, a: Act, hist: NodeSafety.Hist) returns (hist': NodeSafety.Hist)
    requires ValidCluster(cl, u) && WholeOk(cl, u, w) && D.Safe(cl, u, w.sys, hist) && CanAct(cl, u, w, a)
    ensures D.Safe(cl, u, DoAct(cl, u, w, a).sys, hist') && ActOk(cl, u, w, a, DoAct(cl, u, w, a))
  {
    assert Sound(cl.h, u);
    hide *;
    if a.ByCluster? {
      hist' := ClusterAct(cl, u, w, a.l, hist);
    } else {
      hist' := hist;
      FsmAct(cl, u, w, a);
    }
  }

  // ---- runs

  /** How far the crashes of `x` among the first `i` steps have set key `k` back, all in all. */
  ghost function RewoundAt(h: Hashing, wholes: seq<Whole>, acts: seq<Act>, i: nat, x: Host, k: Key): nat
    requires i <= |acts| <= |wholes| && forall w :: w in wholes ==> x in w.fsms
  {
    if i == 0 then 0
    else
      RewoundAt(h, wholes, acts, i - 1, x, k)
      + if CrashesAt(acts[i - 1], x) then Rewind(h, At(wholes[i - 1].fsms[x], k)) else 0
  }

  /** The crashes of `x` among the first `i` steps, each counted once more if it comes between giving an entry of the
      key and storing its id. */
  ghost function CrashCount(wholes: seq<Whole>, acts: seq<Act>, i: nat, x: Host, k: Key): nat
    requires i <= |acts| <= |wholes| && forall w :: w in wholes ==> x in w.fsms
  {
    if i == 0 then 0
    else
      CrashCount(wholes, acts, i - 1, x, k)
      + if !CrashesAt(acts[i - 1], x) then 0
        else if At(wholes[i - 1].fsms[x], k).giving.Some? then 2 else 1
  }

  ghost predicate StoreHolds(acts: seq<Act>, i: nat, x: Host)
    requires i <= |acts|
  {
    forall j :: 0 <= j < i ==> !FailsAt(acts[j], x)
  }

  /** No crash of `x` found an entry of `k` given and not recorded. */
  ghost predicate CleanAt(h: Hashing, wholes: seq<Whole>, acts: seq<Act>, i: nat, x: Host, k: Key)
    requires i <= |acts| <= |wholes| && forall w :: w in wholes ==> x in w.fsms
  {
    forall j :: 0 <= j < i && CrashesAt(acts[j], x) ==> !Behind(h, At(wholes[j].fsms[x], k))
  }

  lemma {:induction false} HostsOfRun(cl: Cluster, u: iset<Entry>, wholes: seq<Whole>, acts: seq<Act>, i: nat)
    requires WholeRun(cl, u, wholes, acts) && i < |wholes|
    ensures wholes[i].fsms.Keys == cl.hosts
  {
    if i > 0 {
      HostsOfRun(cl, u, wholes, acts, i - 1);
    }
    hide Next, Enabled, FsmAfter, DoStep, CanStep;
  }

  lemma ActOfRun(cl: Cluster, u: iset<Entry>, wholes: seq<Whole>, acts: seq<Act>, i: nat)
    requires WholeRun(cl, u, wholes, acts) && i < |acts|
    ensures |wholes| == |acts| + 1
    ensures CanAct(cl, u, wholes[i], acts[i]) && wholes[i + 1] == DoAct(cl, u, wholes[i], acts[i])
  {
    hide CanAct, DoAct;
  }

  lemma {:induction false} WholeRunIsOk(cl: Cluster, u: iset<Entry>, wholes: seq<Whole>, acts: seq<Act>, i: nat)
    returns (hist: NodeSafety.Hist)
    requires ValidCluster(cl, u) && WholeRun(cl, u, wholes, acts) && i < |wholes|
    ensures WholeOk(cl, u, wholes[i]) && D.Safe(cl, u, wholes[i].sys, hist)
  {
    if i == 0 {
      var s := wholes[0].sys;
      hist := D.HistoryOf(cl, [s], 0);
      assert Run(cl, u, [s], []);
      D.RunIsSafe(cl, u, [s], [], 0);
      FreshWhole(cl, u, wholes[0]);
      hide Run, D.Safe, WholeOk, FollowsLog, FsmOk, AllInStep;
    } else {
      hide *;
      var before := WholeRunIsOk(cl, u, wholes, acts, i - 1);
      ActOfRun(cl, u, wholes, acts, i - 1);
      hist := ActKeeps(cl, u, wholes[i - 1], acts[i - 1], before);
      OkAfter(cl, u, wholes[i - 1], acts[i - 1], wholes[i]);
    }
  }

  lemma OkAfter(cl: Cluster, u: iset<Entry>, w: Whole, a: Act, w': Whole)
    requires ActOk(cl, u, w, a, w')
    ensures WholeOk(cl, u, w')
  {
    hide WholeOk, Stands;
  }

  lemma FreshWhole(cl: Cluster, u: iset<Entry>, w: Whole)
    requires Init(cl, w.sys) && w.fsms == (map x | x in cl.hosts :: NewFsm())
    ensures WholeOk(cl, u, w)
  {
    FreshIsOk(cl.h, u, Key([]));
    hide FsmOk;
  }

  /** How a key stands at a node, at any time. */
  lemma {:induction false} StandsInRun(cl: Cluster, u: iset<Entry>, wholes: seq<Whole>, acts: seq<Act>, i: nat, x: Host,
                                       k: Key)
    requires ValidCluster(cl, u) && WholeRun(cl, u, wholes, acts) && i < |wholes| == |acts| + 1
    requires forall w :: w in wholes ==> x in w.fsms
    ensures
      var v := At(wholes[i].fsms[x], k);
      && Again(cl.h, v) <= RewoundAt(cl.h, wholes, acts, i, x, k)
      && (StoreHolds(acts, i, x) ==> Prompt(cl.h, v))
      && (CleanAt(cl.h, wholes, acts, i, x, k) ==> Neat(cl.h, v))
  {
    if i == 0 {
      assert wholes[0] in wholes;
      FreshStands(cl, u, wholes, acts, x, k);
      hide WholeRun, Neat, At, Again, Prompt;
    } else {
      FewerActs(cl.h, wholes, acts, i, x, k);
      hide *;
      StandsInRun(cl, u, wholes, acts, i - 1, x, k);
      var hist := WholeRunIsOk(cl, u, wholes, acts, i - 1);
      ActOfRun(cl, u, wholes, acts, i - 1);
      var hist' := ActKeeps(cl, u, wholes[i - 1], acts[i - 1], hist);
      StandsAfter(cl, u, wholes[i - 1], acts[i - 1], wholes[i], x, k);
    }
  }

  lemma FewerActs(h: Hashing, wholes: seq<Whole>, acts: seq<Act>, i: nat, x: Host, k: Key)
    requires 0 < i <= |acts| <= |wholes| && forall w :: w in wholes ==> x in w.fsms
    ensures wholes[i - 1] in wholes
    ensures StoreHolds(acts, i, x) <==> StoreHolds(acts, i - 1, x) && !FailsAt(acts[i - 1], x)
    ensures CleanAt(h, wholes, acts, i, x, k)
            <==> CleanAt(h, wholes, acts, i - 1, x, k)
                 && (CrashesAt(acts[i - 1], x) ==> !Behind(h, At(wholes[i - 1].fsms[x], k)))
    ensures RewoundAt(h, wholes, acts, i, x, k) == RewoundAt(h, wholes, acts, i - 1, x, k)
            + if CrashesAt(acts[i - 1], x) then Rewind(h, At(wholes[i - 1].fsms[x], k)) else 0
    ensures CrashCount(wholes, acts, i, x, k) == CrashCount(wholes, acts, i - 1, x, k)
            + if !CrashesAt(acts[i - 1], x) then 0
              else if At(wholes[i - 1].fsms[x], k).giving.Some? then 2 else 1
  {
    hide Behind, At, Rewind, CrashesAt, FailsAt;
  }

  lemma FreshStands(cl: Cluster, u: iset<Entry>, wholes: seq<Whole>, acts: seq<Act>, x: Host, k: Key)
    requires WholeRun(cl, u, wholes, acts) && x in wholes[0].fsms
    ensures
      var v := At(wholes[0].fsms[x], k);
      Again(cl.h, v) == 0 && Prompt(cl.h, v) && Neat(cl.h, v)
  {
    FreshIsOk(cl.h, u, k);
    assert wholes[0].fsms[x] == NewFsm();
    hide WholeRun, Neat, At, FsmOk;
  }

  lemma StandsAfter(cl: Cluster, u: iset<Entry>, w: Whole, a: Act, w': Whole, x: Host, k: Key)
    requires ActOk(cl, u, w, a, w') && x in w.fsms
    ensures
      var v := At(w.fsms[x], k);
      && x in w'.fsms && var v' := At(w'.fsms[x], k);
      && Again(cl.h, v') <= Again(cl.h, v) + (if CrashesAt(a, x) then Rewind(cl.h, v) else 0)
      && (Prompt(cl.h, v) && !FailsAt(a, x) ==> Prompt(cl.h, v'))
      && (Neat(cl.h, v) && (CrashesAt(a, x) ==> !Behind(cl.h, v)) ==> Neat(cl.h, v'))
  {
    assert Stands(cl.h, At(w.fsms[x], k), a, x, At(w'.fsms[x], k));
    hide WholeOk, At, Again, Prompt, Neat, Behind, Rewind;
  }

  lemma AlwaysThere(cl: Cluster, u: iset<Entry>, wholes: seq<Whole>, acts: seq<Act>, x: Host)
    requires WholeRun(cl, u, wholes, acts) && x in cl.hosts
    ensures |wholes| == |acts| + 1 && forall w :: w in wholes ==> x in w.fsms
  {
    forall i | 0 <= i < |wholes|
      ensures x in wholes[i].fsms
    {
      HostsOfRun(cl, u, wholes, acts, i);
    }
    hide CanAct, DoAct, Init;
  }

  /** What a node's application was given for a key: later repeats removed, a part of the node's log from its start; and
      it was given no more again than crashes of the node have set it back. */
  lemma GivenInRuns(cl: Cluster, u: iset<Entry>, wholes: seq<Whole>, acts: seq<Act>, i: nat, x: Host, k: Key)
    requires ValidCluster(cl, u) && WholeRun(cl, u, wholes, acts) && i < |wholes| && x in cl.hosts
    ensures |wholes| == |acts| + 1 && (forall w :: w in wholes ==> x in w.fsms) && x in wholes[i].sys.peers
    ensures
      var given, log := Of(wholes[i].fsms[x].app, k), LogAt(wholes[i].sys, x, k);
      && Firsts(given) <= log
      && |given| <= |Firsts(given)| + RewoundAt(cl.h, wholes, acts, i, x, k)
  {
    AlwaysThere(cl, u, wholes, acts, x);
    hide WholeRun, ValidCluster;
    var v := KeyInRun(cl, u, wholes, acts, i, x, k);
    StandsInRun(cl, u, wholes, acts, i, x, k);
    hide RewoundAt, Firsts, Of, Saved, LogAt, Neat, Prompt;
  }

  lemma KeyInRun(cl: Cluster, u: iset<Entry>, wholes: seq<Whole>, acts: seq<Act>, i: nat, x: Host, k: Key)
    returns (v: KeyView)
    requires ValidCluster(cl, u) && WholeRun(cl, u, wholes, acts) && i < |wholes| && x in wholes[i].fsms
    ensures x in wholes[i].sys.peers && v == At(wholes[i].fsms[x], k) && KeyOk(cl.h, v)
    ensures v.log == LogAt(wholes[i].sys, x, k) && Chain(cl.h, u, k, v.log)
  {
    var hist := WholeRunIsOk(cl, u, wholes, acts, i);
    v := At(wholes[i].fsms[x], k);
    assert FollowsLog(cl.h, u, wholes[i].fsms[x], wholes[i].sys.peers[x].node);
    D.ChainAt(cl, u, wholes[i].sys, hist, x, k);
    hide WholeRun, ValidCluster, Chain, D.Safe, KeyOk, WholeOk, Of, Get;
  }

  /** As long as its stable store takes every id, a node is set back by one entry per crash, and by one more if the
      crash comes between giving an entry and storing its id; and while no crash finds an entry given and not
      recorded, repeats are adjacent. */
  lemma RepeatsInRuns(cl: Cluster, u: iset<Entry>, wholes: seq<Whole>, acts: seq<Act>, i: nat, x: Host, k: Key)
    requires ValidCluster(cl, u) && WholeRun(cl, u, wholes, acts) && i < |wholes| == |acts| + 1
    requires forall w :: w in wholes ==> x in w.fsms
    ensures StoreHolds(acts, i, x) ==> RewoundAt(cl.h, wholes, acts, i, x, k) <= CrashCount(wholes, acts, i, x, k)
    ensures CleanAt(cl.h, wholes, acts, i, x, k) ==>
              Dedup(Of(wholes[i].fsms[x].app, k)) == Firsts(Of(wholes[i].fsms[x].app, k))
  {
    if StoreHolds(acts, i, x) {
      RewindsInRun(cl, u, wholes, acts, i, x, k);
    }
    if CleanAt(cl.h, wholes, acts, i, x, k) {
      assert wholes[i] in wholes;
      var v := KeyInRun(cl, u, wholes, acts, i, x, k);
      StandsInRun(cl, u, wholes, acts, i, x, k);
      hide WholeRun, ValidCluster, Firsts, Dedup, Of, Saved, Chain, RewoundAt, CleanAt;
    }
  }

  lemma {:induction false} RewindsInRun(cl: Cluster, u: iset<Entry>, wholes: seq<Whole>, acts: seq<Act>, i: nat,
                                        x: Host, k: Key)
    requires ValidCluster(cl, u) && WholeRun(cl, u, wholes, acts) && i < |wholes| == |acts| + 1
    requires (forall w :: w in wholes ==> x in w.fsms) && StoreHolds(acts, i, x)
    ensures RewoundAt(cl.h, wholes, acts, i, x, k) <= CrashCount(wholes, acts, i, x, k)
  {
    if i > 0 {
      FewerActs(cl.h, wholes, acts, i, x, k);
      hide *;
      RewindsInRun(cl, u, wholes, acts, i - 1, x, k);
      StandsInRun(cl, u, wholes, acts, i - 1, x, k);
      RewindIsShort(cl.h, At(wholes[i - 1].fsms[x], k));
    } else {
      hide WholeRun, ValidCluster;
    }
  }

  /** The application of a node that has not crashed was given the entries of a key as they stand in the log, each once,
      and the others are waiting. */
  lemma OnceWithoutCrash(cl: Cluster, u: iset<Entry>, wholes: seq<Whole>, acts: seq<Act>, i: nat, x: Host, k: Key)
    requires ValidCluster(cl, u) && WholeRun(cl, u, wholes, acts) && i < |wholes| == |acts| + 1 && x in cl.hosts
    requires forall j :: 0 <= j < i ==> !CrashesAt(acts[j], x)
    ensures x in wholes[i].fsms && x in wholes[i].sys.peers
    ensures
      var f := wholes[i].fsms[x];
      Of(f.app, k) + Of(f.queue, k) == LogAt(wholes[i].sys, x, k)
  {
    AlwaysThere(cl, u, wholes, acts, x);
    assert wholes[i] in wholes;
    NoRewinds(cl.h, wholes, acts, i, x, k);
    NeverPending(cl, u, wholes, acts, i, x);
    hide WholeRun, ValidCluster;
    var v := KeyInRun(cl, u, wholes, acts, i, x, k);
    StandsInRun(cl, u, wholes, acts, i, x, k);
    hide *;
    GivenOnce(cl.h, v);
  }

  lemma GivenOnce(h: Hashing, v: KeyView)
    requires KeyOk(h, v) && !v.pending && Again(h, v) <= 0
    ensures v.given + v.queued == v.log
  {
    hide Saved;
    assert |v.given| <= Due(v) <= |Firsts(v.given)|;
    FirstsOfDistinct(v.given);
    hide Firsts;
    assert v.log[..Due(v)] + v.log[Due(v)..] == v.log;
  }

  lemma {:induction false} NoRewinds(h: Hashing, wholes: seq<Whole>, acts: seq<Act>, i: nat, x: Host, k: Key)
    requires i <= |acts| <= |wholes| && forall w :: w in wholes ==> x in w.fsms
    requires forall j :: 0 <= j < i ==> !CrashesAt(acts[j], x)
    ensures RewoundAt(h, wholes, acts, i, x, k) == 0
  {
    if i > 0 {
      NoRewinds(h, wholes, acts, i - 1, x, k);
    }
  }

  lemma {:induction false} NeverPending(cl: Cluster, u: iset<Entry>, wholes: seq<Whole>, acts: seq<Act>, i: nat,
                                        x: Host)
    requires WholeRun(cl, u, wholes, acts) && i < |wholes| == |acts| + 1 && x in cl.hosts
    requires forall j :: 0 <= j < i ==> !CrashesAt(acts[j], x)
    ensures x in wholes[i].fsms && wholes[i].fsms[x].pending == {}
  {
    if i > 0 {
      NeverPending(cl, u, wholes, acts, i - 1, x);
      ActOfRun(cl, u, wholes, acts, i - 1);
      hide WholeRun, Next, Enabled;
    }
  }

  lemma {:induction false} FirstsOfDistinct(es: seq<Entry>)
    ensures |Firsts(es)| == |es| ==> Firsts(es) == es
    decreases es
  {
    if es != [] {
      FirstsOfDistinct(es[..|es| - 1]);
      assert es == es[..|es| - 1] + [es[|es| - 1]];
    }
  }

  /** Once the check of a node is through with a key and nothing of it is waiting, its application has been given all of
      the node's log. */
  lemma DrainedInRuns(cl: Cluster, u: iset<Entry>, wholes: seq<Whole>, acts: seq<Act>, i: nat, x: Host, k: Key)
    requires ValidCluster(cl, u) && WholeRun(cl, u, wholes, acts) && i < |wholes| && x in wholes[i].fsms
    requires k !in wholes[i].fsms[x].pending && Of(wholes[i].fsms[x].queue, k) == []
    ensures x in wholes[i].sys.peers && Firsts(Of(wholes[i].fsms[x].app, k)) == LogAt(wholes[i].sys, x, k)
  {
    var v := KeyInRun(cl, u, wholes, acts, i, x, k);
    assert v.log[..|v.log|] == v.log;
    hide WholeRun, ValidCluster, Firsts, Of, Saved, LogAt, Chain;
  }

  /** The applications of two peers of a key were given the same entries in the same order, but for the last one:
      whatever competes, fails, crashes or is pulled. */
  lemma MachinesAgree(cl: Cluster, u: iset<Entry>, wholes: seq<Whole>, acts: seq<Act>, i: nat, x: Host, y: Host, k: Key,
                      j: nat)
    requires ValidCluster(cl, u) && WholeRun(cl, u, wholes, acts) && i < |wholes|
    requires x in cl.peers(k) && y in cl.peers(k) && x in wholes[i].fsms && y in wholes[i].fsms
    ensures
      var a, b := Firsts(Of(wholes[i].fsms[x].app, k)), Firsts(Of(wholes[i].fsms[y].app, k));
      j < |a| && j < |b| && (j + 1 < |a| || j + 1 < |b|) ==> a[j] == b[j]
  {
    hide WholeRun, ValidCluster, WholeOk, Firsts, Of, Saved, Chain, LogAt, D.PeerOk, D.MsgOk;
    var s := wholes[i].sys;
    var hist := WholeRunIsOk(cl, u, wholes, acts, i);
    var v := KeyInRun(cl, u, wholes, acts, i, x, k);
    var v' := KeyInRun(cl, u, wholes, acts, i, y, k);
    assert D.Near(cl, s, x, y, k) && D.Near(cl, s, y, x, k);
    assert Firsts(v.given) <= v.log && Firsts(v'.given) <= v'.log;
    hide *;
    PartsAgree(Firsts(v.given), Firsts(v'.given), v.log, v'.log, j);
  }

  /** Parts of two logs that differ in their last entries at most. */
  lemma PartsAgree(a: seq<Entry>, b: seq<Entry>, log: seq<Entry>, log': seq<Entry>, j: nat)
    requires a <= log && b <= log' && D.ButLast(log) <= log' && D.ButLast(log') <= log
    ensures j < |a| && j < |b| && (j + 1 < |a| || j + 1 < |b|) ==> a[j] == b[j]
  {
    if j < |a| && j < |b| && (j + 1 < |a| || j + 1 < |b|) {
      assert a[j] == log[j] && b[j] == log'[j];
      assert j + 1 < |log| ==> D.ButLast(log)[j] == log[j] == log'[j];
      assert j + 1 < |log'| ==> D.ButLast(log')[j] == log'[j] == log[j];
    }
  }
}
