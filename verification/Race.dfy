/** Several threads that run checkVotesAndCommit on one ballot at once (hexalog_utils.go): each has seen both tallies
    full, and each appends, hands over and closes in steps of its own, between which others take theirs. */
module Races {
  import opened HexTypes
  import opened Chains
  import opened KeylogIndexes
  import opened StoreSpec
  import opened Nodes

  /** How far a thread has come; `err` is what its append answered, `closer` whether it has closed the ballot. */
  datatype Thread =
    | Ready
    | Appended(err: Option<Error>)
    | Handed
    | Closing(err: Option<Error>)
    | Done(err: Option<Error>, closer: bool)

  /** The node as far as the threads see it: its log, what it has handed to its FSM, and the ballot; `last` is the
      thread that was the last one to set the ballot's error. */
  datatype Race = Race(node: Node, threads: seq<Thread>, closed: bool, err: Option<Error>, signals: seq<Option<Error>>,
                       last: Option<nat>)

  datatype Move =
    | Append(t: nat)
    | Hand(t: nat)       // the accepted entry goes to the FSM
    | Test(t: nat)       // the thread looks whether the ballot is closed
    | Set(t: nat)        // and closes it, if it was not
    | Fire               // the ballot's timer fires, be it while a thread stops it
    | Other(e: Entry)    // another thread appends an entry and hands it over

  ghost predicate CanMove(h: Hashing, u: iset<Entry>, r: Race, m: Move) {
    match m
    case Append(t) => t < |r.threads| && r.threads[t].Ready?
    case Hand(t) => t < |r.threads| && r.threads[t] == Appended(None)
    case Test(t) =>
      t < |r.threads| && (r.threads[t].Handed? || (r.threads[t].Appended? && r.threads[t].err.Some?))
    case Set(t) => t < |r.threads| && r.threads[t].Closing?
    case Fire => true
    case Other(e) => e in u
  }

  /** What the append of a thread answered, once it has. */
  function Answer(t: Thread): Option<Error>
    requires !t.Ready?
  {
    match t
    case Handed => None
    case Appended(err) => err
    case Closing(err) => err
    case Done(err, _) => err
  }

  function DoMove(h: Hashing, e: Entry, r: Race, m: Move): Race
    requires !m.Other? && !m.Fire? ==> m.t < |r.threads| && (!m.Append? ==> !r.threads[m.t].Ready?)
  {
    match m
    case Append(t) =>
      var (store, err) := AppendView(h, r.node.store, e);
      r.(node := r.node.(store := store), threads := r.threads[t := Appended(err)])
    case Hand(t) =>
      r.(node := r.node.(applied := r.node.applied + [e]), threads := r.threads[t := Handed])
    case Test(t) =>
      var err := Answer(r.threads[t]);
      r.(threads := r.threads[t := if r.closed then Done(err, false) else Closing(err)])
    case Set(t) =>
      var err := Answer(r.threads[t]);
      r.(threads := r.threads[t := Done(err, true)], closed := true, err := err, signals := r.signals + [err],
         last := Some(t))
    case Fire => r.(closed := true, signals := r.signals + [Some(ErrBallotTimedOut)])
    case Other(e') => r.(node := AppendDirect(h, r.node, e').0)
  }

  ghost predicate RaceRun(h: Hashing, u: iset<Entry>, e: Entry, races: seq<Race>, moves: seq<Move>) {
    && |races| == |moves| + 1
    && Starts(h, u, e, races[0])
    && (forall i :: 0 <= i < |moves| ==> CanMove(h, u, races[i], moves[i]))
    && (forall i :: 0 <= i < |moves| ==> races[i + 1] == DoMove(h, e, races[i], moves[i]))
  }

  /** All threads are about to append the entry, which has been handed over just if it is in the log. */
  ghost predicate Starts(h: Hashing, u: iset<Entry>, e: Entry, r: Race) {
    && Sound(h, u) && e in u && Chain(h, u, e.key, LogOf(r.node.store, e.key))
    && multiset(r.node.applied)[e] == (if e in LogOf(r.node.store, e.key) then 1 else 0)
    && (forall t :: 0 <= t < |r.threads| ==> r.threads[t].Ready?) && !r.closed && r.signals == []
    && r.err.None? && r.last.None?
  }

  predicate Accepted(t: Thread) {
    !t.Ready? && Answer(t).None?
  }

  /** The append of thread `t` was accepted, and the entry has still to be handed over. */
  predicate Owing(threads: seq<Thread>, t: nat) {
    t < |threads| && threads[t] == Appended(None)
  }

  ghost predicate RaceOk(h: Hashing, u: iset<Entry>, e: Entry, r: Race) {
    && Sound(h, u) && e in u && Chain(h, u, e.key, LogOf(r.node.store, e.key))
    && Counted(e, e in LogOf(r.node.store, e.key), r.node.applied, r.threads)
    && Settled(r.threads, r.closed, r.err, r.signals, r.last)
  }

  /** One append of the threads at most is accepted, and the entry is then in the log; and it is handed over as often as
      it is in the log, but for what is still owed. */
  ghost predicate Counted(e: Entry, logged: bool, applied: seq<Entry>, threads: seq<Thread>) {
    && (forall t :: 0 <= t < |threads| && Accepted(threads[t]) ==> logged)
    && (forall t, t' :: 0 <= t < |threads| && 0 <= t' < |threads| ==>
          Accepted(threads[t]) && Accepted(threads[t']) ==> t == t')
    && multiset(applied)[e] <= 1 && (e in applied ==> logged)
    && (forall t :: Owing(threads, t) ==> e !in applied)
    && (logged ==> e in applied || exists t :: Owing(threads, t))
  }

  /** The ballot has the answer of the thread that set it last, and none if just its timer has closed it. */
  ghost predicate Settled(threads: seq<Thread>, closed: bool, err: Option<Error>, signals: seq<Option<Error>>,
                          last: Option<nat>) {
    && (last.Some? ==> closed && last.value < |threads| && threads[last.value] == Done(err, true))
    && (last.None? ==> err.None? && forall s :: s in signals ==> s == Some(ErrBallotTimedOut))
    && (closed <==> signals != [])
    && (forall t :: 0 <= t < |threads| && threads[t].Done? ==> closed)
  }

  /** Once in the log, an entry is not accepted again. */
  lemma NotTwice(h: Hashing, u: iset<Entry>, e: Entry, log: seq<Entry>)
    requires Sound(h, u) && Chain(h, u, e.key, log) && e in log
    ensures e.previous != LastId(h, log)
  {
    var i :| 0 <= i < |log| && log[i] == e;
    FollowsOnlyItsPrefix(h, u, e.key, log, log, i);
    assert |log[..i]| == i;
  }

  lemma StartIsOk(h: Hashing, u: iset<Entry>, e: Entry, r: Race)
    requires Starts(h, u, e, r)
    ensures RaceOk(h, u, e, r)
  {
  }

  lemma AppendKeeps(h: Hashing, u: iset<Entry>, e: Entry, r: Race, m: Move)
    requires RaceOk(h, u, e, r) && m.Append? && CanMove(h, u, r, m)
    ensures RaceOk(h, u, e, DoMove(h, e, r, m))
  {
    var r', log := DoMove(h, e, r, m), LogOf(r.node.store, e.key);
    if e in log {
      NotTwice(h, u, e, log);
    } else if Accepted(r'.threads[m.t]) {
      ChainAppend(h, u, e.key, log, e);
      assert Owing(r'.threads, m.t) && LogOf(r'.node.store, e.key) == log + [e];
    }
    assert !Accepted(r'.threads[m.t]) ==> r'.node.store == r.node.store;
    assert Accepted(r'.threads[m.t]) ==> e !in log;
    forall t: nat | t != m.t
      ensures Owing(r'.threads, t) <==> Owing(r.threads, t)
    {
    }
    assert Owing(r'.threads, m.t) <==> Accepted(r'.threads[m.t]);
    hide Chain, Sound, LastId;
  }

  lemma HandKeeps(h: Hashing, u: iset<Entry>, e: Entry, r: Race, m: Move)
    requires RaceOk(h, u, e, r) && m.Hand? && CanMove(h, u, r, m)
    ensures RaceOk(h, u, e, DoMove(h, e, r, m))
  {
    var r' := DoMove(h, e, r, m);
    assert Owing(r.threads, m.t) && Accepted(r.threads[m.t]);
    forall t: nat
      ensures !Owing(r'.threads, t)
    {
      assert t < |r.threads| && Accepted(r.threads[t]) ==> t == m.t;
    }
    hide Chain, Sound;
  }

  lemma CloseKeeps(h: Hashing, u: iset<Entry>, e: Entry, r: Race, m: Move)
    requires RaceOk(h, u, e, r) && (m.Test? || m.Set? || m.Fire?) && CanMove(h, u, r, m)
    ensures RaceOk(h, u, e, DoMove(h, e, r, m))
  {
    var r' := DoMove(h, e, r, m);
    assert forall t :: 0 <= t < |r.threads| ==> (Accepted(r'.threads[t]) <==> Accepted(r.threads[t]));
    assert forall t :: Owing(r'.threads, t) <==> Owing(r.threads, t);
    hide Chain, Sound;
  }

  /** What another append does to the log of the entry's key, and to what was handed over. */
  lemma OtherAppends(h: Hashing, u: iset<Entry>, e: Entry, n: Node, e': Entry)
    requires Sound(h, u) && e in u && e' in u && Chain(h, u, e.key, LogOf(n.store, e.key))
    ensures
      var n', log := AppendDirect(h, n, e').0, LogOf(n.store, e.key);
      var log' := LogOf(n'.store, e.key);
      && Chain(h, u, e.key, log')
      && (e in log ==> e in log' && (n'.applied == n.applied || (n'.applied == n.applied + [e'] && e' != e)))
      && (e !in log ==>
            || (e !in log' && (n'.applied == n.applied || (n'.applied == n.applied + [e'] && e' != e)))
            || (e in log' && n'.applied == n.applied + [e]))
  {
    var log := LogOf(n.store, e.key);
    if e in log {
      NotTwice(h, u, e, log);
    }
    if e'.key == e.key && e'.previous == LastId(h, log) {
      ChainAppend(h, u, e.key, log, e');
    }
    hide Chain, Sound, LastId;
  }

  lemma OtherKeeps(h: Hashing, u: iset<Entry>, e: Entry, r: Race, m: Move)
    requires RaceOk(h, u, e, r) && m.Other? && CanMove(h, u, r, m)
    ensures RaceOk(h, u, e, DoMove(h, e, r, m))
  {
    var r' := DoMove(h, e, r, m);
    OtherAppends(h, u, e, r.node, m.e);
    hide AppendDirect, Chain, Sound, LogOf, Settled, Accepted, Owing;
    assert r'.threads == r.threads && r'.closed == r.closed;
  }

  lemma MoveKeeps(h: Hashing, u: iset<Entry>, e: Entry, r: Race, m: Move)
    requires RaceOk(h, u, e, r) && CanMove(h, u, r, m)
    ensures RaceOk(h, u, e, DoMove(h, e, r, m))
  {
    match m {
      case Append(_) => AppendKeeps(h, u, e, r, m);
      case Hand(_) => HandKeeps(h, u, e, r, m);
      case Test(_) => CloseKeeps(h, u, e, r, m);
      case Set(_) => CloseKeeps(h, u, e, r, m);
      case Fire => CloseKeeps(h, u, e, r, m);
      case Other(_) => OtherKeeps(h, u, e, r, m);
    }
    hide RaceOk, DoMove;
  }

  lemma {:induction false} RaceIsOk(h: Hashing, u: iset<Entry>, e: Entry, races: seq<Race>, moves: seq<Move>, i: nat)
    requires RaceRun(h, u, e, races, moves) && i < |races|
    ensures RaceOk(h, u, e, races[i]) && |races[i].threads| == |races[0].threads|
  {
    hide RaceOk, Starts, AppendView, AppendDirect;
    if i == 0 {
      StartIsOk(h, u, e, races[0]);
    } else {
      RaceIsOk(h, u, e, races, moves, i - 1);
      MoveKeeps(h, u, e, races[i - 1], moves[i - 1]);
    }
  }

  /** However the threads interleave, whatever others append, and whenever the timer fires: when all are through, the
      entry has been appended by one of them at most, and handed to the FSM just if it is in the log, once. The ballot
      is closed, and its error is what the append of the thread answered that set it last; it has none if only the
      timer has closed it. So an entry that one of them has committed ends with a ballot without error exactly if no
      other thread was the last one to set it. */
  lemma RaceOutcome(h: Hashing, u: iset<Entry>, e: Entry, races: seq<Race>, moves: seq<Move>, winner: nat)
    requires RaceRun(h, u, e, races, moves) && |races| == |moves| + 1 && races[0].threads != []
    requires forall t :: 0 <= t < |races[|moves|].threads| ==> races[|moves|].threads[t].Done?
    ensures
      var r := races[|moves|];
      && (forall t, t' :: 0 <= t < |r.threads| && 0 <= t' < |r.threads| ==>
            r.threads[t].err.None? && r.threads[t'].err.None? ==> t == t')
      && multiset(r.node.applied)[e] == (if e in LogOf(r.node.store, e.key) then 1 else 0)
      && r.closed
      && (r.last.Some? ==>
            r.last.value < |r.threads| && r.threads[r.last.value].closer && r.err == r.threads[r.last.value].err)
      && (r.last.None? ==> r.err.None? && Some(ErrBallotTimedOut) in r.signals)
      && (winner < |r.threads| && r.threads[winner].err.None? ==>
            e in LogOf(r.node.store, e.key) && (r.err.None? <==> r.last.None? || r.last.value == winner))
  {
    var n := |moves|;
    RaceIsOk(h, u, e, races, moves, n);
    var r := races[n];
    assert |r.threads| > 0 && r.threads[0].Done?;
    assert forall t :: 0 <= t < |r.threads| ==> (Accepted(r.threads[t]) <==> r.threads[t].err.None?);
    assert forall t :: !Owing(r.threads, t);
    assert r.signals[0] in r.signals;
    hide RaceRun, Chain, Sound;
  }

  // ---- one thread, and two

  /** A single thread, undisturbed: what it has done so far of the handler's one step. */
  ghost predicate Alone(h: Hashing, e: Entry, r0: Race, r: Race) {
    && |r.threads| == 1
    && var (n, err) := AppendDirect(h, r0.node, e);
    var appended := r0.node.(store := n.store);
    match r.threads[0]
    case Ready => r.node == r0.node && !r.closed && r.signals == []
    case Appended(err') => err' == err && r.node == appended && !r.closed && r.signals == []
    case Handed => err.None? && r.node == n && !r.closed && r.signals == []
    case Closing(err') => err' == err && r.node == n && !r.closed && r.signals == []
    case Done(err', closer) => err' == err && r.node == n && r.closed && r.err == err && r.signals == [err]
  }

  lemma AloneKeeps(h: Hashing, u: iset<Entry>, e: Entry, r0: Race, r: Race, m: Move)
    requires Alone(h, e, r0, r) && CanMove(h, u, r, m) && !m.Other? && !m.Fire?
    ensures Alone(h, e, r0, DoMove(h, e, r, m))
  {
  }

  /** One thread by itself does what the handler does in one step: the append, the hand-over and the close. */
  lemma {:induction false} OneThreadIsTheHandler(h: Hashing, u: iset<Entry>, e: Entry, races: seq<Race>,
                                                 moves: seq<Move>, i: nat)
    requires RaceRun(h, u, e, races, moves) && i < |races| && |races[0].threads| == 1
    requires forall m :: m in moves ==> !m.Other? && !m.Fire?
    ensures Alone(h, e, races[0], races[i])
    ensures races[i].threads == [] || !races[i].threads[0].Done? ||
            var (n, err) := AppendDirect(h, races[0].node, e);
            races[i].node == n && races[i].closed && races[i].err == err && races[i].signals == [err]
  {
    hide AppendDirect;
    if i > 0 {
      OneThreadIsTheHandler(h, u, e, races, moves, i - 1);
      hide Alone, DoMove, Starts, CanMove;
      AloneKeeps(h, u, e, races[0], races[i - 1], moves[i - 1]);
    }
  }

  lemma MoreMoves(h: Hashing, u: iset<Entry>, e: Entry, races: seq<Race>, moves: seq<Move>, m: Move, r: Race)
    returns (races': seq<Race>, moves': seq<Move>)
    requires |races| == |moves| + 1 && RaceRun(h, u, e, races, moves)
    requires CanMove(h, u, races[|moves|], m) && r == DoMove(h, e, races[|moves|], m)
    ensures |races'| == |moves'| + 1 && RaceRun(h, u, e, races', moves')
    ensures races'[|moves'|] == r && races'[0] == races[0]
  {
    hide CanMove, DoMove, Starts;
    races', moves' := races + [r], moves + [m];
  }

  /** With two threads a committed entry can end with a ballot closed with an error: the second one, whose append comes
      too late, closes it while the first one hands the entry over. */
  lemma LateThreadSpoils(h: Hashing, u: iset<Entry>, e: Entry, n: Node) returns (races: seq<Race>, moves: seq<Move>)
    requires Sound(h, u) && e in u && e.key in n.store && Chain(h, u, e.key, n.store[e.key].log)
    requires e.previous == LastId(h, n.store[e.key].log) && e !in n.applied
    ensures |races| == |moves| + 1 && RaceRun(h, u, e, races, moves) && |races[0].threads| == 2 && races[0].node == n
    ensures
      var r := races[|moves|];
      && (forall t :: 0 <= t < 2 ==> |r.threads| == 2 && r.threads[t].Done?)
      && LogOf(r.node.store, e.key) == n.store[e.key].log + [e] && r.node.applied == n.applied + [e]
      && r.closed && r.err == Some(ErrPreviousHash)
  {
    var log, late := n.store[e.key].log, Some(ErrPreviousHash);
    if e in log {
      NotTwice(h, u, e, log);
    }
    ChainAppend(h, u, e.key, log, e);
    NotTwice(h, u, e, log + [e]);
    var n1 := n.(store := AppendView(h, n.store, e).0);
    var n2 := n1.(applied := n.applied + [e]);
    assert AppendView(h, n.store, e).1.None? && AppendView(h, n1.store, e) == (n1.store, late);
    var r0 := Race(n, [Ready, Ready], false, None, [], None);
    var r1 := r0.(node := n1, threads := [Appended(None), Ready]);
    var r2 := r1.(threads := [Appended(None), Appended(late)]);
    assert RaceRun(h, u, e, [r0], []);
    hide Chain, Sound, LastId, AppendView, RaceRun;
    races, moves := MoreMoves(h, u, e, [r0], [], Append(0), r1);
    races, moves := MoreMoves(h, u, e, races, moves, Append(1), r2);
    var r3 := r2.(threads := [Appended(None), Closing(late)]);
    races, moves := MoreMoves(h, u, e, races, moves, Test(1), r3);
    var r4 := Race(n1, [Appended(None), Done(late, true)], true, late, [late], Some(1));
    races, moves := MoreMoves(h, u, e, races, moves, Set(1), r4);
    var r5 := r4.(node := n2, threads := [Handed, Done(late, true)]);
    races, moves := MoreMoves(h, u, e, races, moves, Hand(0), r5);
    races, moves := MoreMoves(h, u, e, races, moves, Test(0), r5.(threads := [Done(None, false), Done(late, true)]));
  }
}
