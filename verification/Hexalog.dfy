/** The node as an object (hexalog.go, hexalog_utils.go), proved against the functions of Nodes. */
module Hexalogs {
  import opened HexTypes
  import opened Chains
  import opened KeylogIndexes
  import opened StoreSpec
  import opened LogStores
  import opened Ballots
  import opened Nodes
  import CatchUp
  import Healing

  ghost function StatesOf(ballots: map<Id, Ballot>): map<Id, BallotState>
    reads ballots.Values, set id | id in ballots :: ballots[id].proposed,
          set id | id in ballots :: ballots[id].committed
  {
    map id | id in ballots :: ballots[id].State()
  }

  /** Every ballot is filed under its id, and shares no tally with another. */
  ghost predicate Apart(ballots: map<Id, Ballot>, owner: map<array<Host>, Id>, u: iset<Entry>) {
    forall id :: id in ballots ==>
      && ballots[id].Valid() && ballots[id].id == id && ballots[id].entry in u
      && ballots[id].proposed in owner && owner[ballots[id].proposed] == id
      && ballots[id].committed in owner && owner[ballots[id].committed] == id
  }

  lemma ApartLess(ballots: map<Id, Ballot>, ballots': map<Id, Ballot>, owner: map<array<Host>, Id>, u: iset<Entry>)
    requires Apart(ballots, owner, u) && ballots'.Keys <= ballots.Keys
    requires forall id :: id in ballots' ==> ballots'[id] == ballots[id]
    ensures Apart(ballots', owner, u)
  {
  }

  class Hexalog {
    const conf: Conf
    const store: LogStore
    var ballots: map<Id, Ballot>
    var pch: seq<Req>
    var cch: seq<Req>
    var hch: seq<HealReq>
    /** What was handed to the FSM. */
    var applied: seq<Entry>
    /** The ballot that each tally belongs to. */
    ghost var owner: map<array<Host>, Id>

    constructor (conf: Conf, store: LogStore)
      requires store.Valid() && store.h == conf.h
      ensures Valid() && this.conf == conf && this.store == store
      ensures State() == Node(store.View(), map[], [], [], [], [])
    {
      this.conf, this.store := conf, store;
      ballots, pch, cch, hch, applied, owner := map[], [], [], [], [], map[];
      new;
      assert StatesOf(ballots) == map[];
    }

    ghost predicate BallotsApart()
      reads this`ballots, this`owner
    {
      Apart(ballots, owner, store.u)
    }

    ghost predicate Valid()
      reads this`ballots, this`owner, store.index, store.entries, store.index.m.Values
    {
      store.Valid() && store.h == conf.h && BallotsApart()
    }

    ghost function State(): Node
      reads this, store.index, store.entries, store.index.m.Values, ballots.Values
      reads set id | id in ballots :: ballots[id].proposed
      reads set id | id in ballots :: ballots[id].committed
      requires Valid()
    {
      Node(store.View(), StatesOf(ballots), pch, cch, hch, applied)
    }

    // ---- one ballot

    ghost predicate Filed(b: Ballot)
      reads this`ballots
    {
      b.id in ballots && ballots[b.id] == b
    }

    /** A filed ballot as part of the node's state. */
    lemma FiledState(b: Ballot)
      requires Valid() && Filed(b)
      ensures b.id in State().ballots && State().ballots[b.id] == b.State()
      ensures b.State().id == b.id && b.State().entry == b.entry && b.entry in store.u && store.h == conf.h
      ensures |b.State().proposed| == |b.State().committed| == b.votes
      ensures Refusal(b.State(), b.id).None? <==> !b.closed
    {
    }

    // A vote or a close comes twice: on the ballots alone, and on the node's state.

    method VoteProposeStates(b: Ballot, voter: Host, i: nat) returns (votes: int, voted: bool, err: Option<Error>)
      requires BallotsApart() && Filed(b) && (b.closed || i < b.votes)
      modifies b, b.proposed
      ensures
        var (s, v) := CastPropose(old(b.State()), b.id, voter, i);
        StatesOf(ballots) == old(StatesOf(ballots))[b.id := s] && v == Vote(votes, voted, err) && b.State() == s
    {
      votes, voted, err := b.VotePropose(b.id, voter, i);
    }

    method VotePropose(b: Ballot, voter: Host, i: nat) returns (votes: int, voted: bool, err: Option<Error>)
      requires Valid() && Filed(b) && (b.closed || i < b.votes)
      modifies b, b.proposed
      ensures Valid()
      ensures
        var (s, v) := CastPropose(old(b.State()), b.id, voter, i);
        State() == SetBallot(old(State()), s) && v == Vote(votes, voted, err) && b.State() == s
    {
      CastKeepsId(b.State(), b.id, voter, i);
      hide StatesOf, Apart, ViewOf, ValidStore, LogStore.State, LogStore.Valid, LogStore.Repr, CastPropose,
           Ballot.State;
      votes, voted, err := VoteProposeStates(b, voter, i);
      assert store.State() == old(store.State());
    }

    method VoteCommitStates(b: Ballot, voter: Host, i: nat) returns (votes: int, voted: bool, err: Option<Error>)
      requires BallotsApart() && Filed(b) && (b.closed || i < b.votes)
      modifies b.committed
      ensures
        var (s, v) := CastCommit(old(b.State()), b.id, voter, i);
        StatesOf(ballots) == old(StatesOf(ballots))[b.id := s] && v == Vote(votes, voted, err) && b.State() == s
    {
      votes, voted, err := b.VoteCommit(b.id, voter, i);
    }

    method VoteCommit(b: Ballot, voter: Host, i: nat) returns (votes: int, voted: bool, err: Option<Error>)
      requires Valid() && Filed(b) && (b.closed || i < b.votes)
      modifies b.committed
      ensures Valid()
      ensures
        var (s, v) := CastCommit(old(b.State()), b.id, voter, i);
        State() == SetBallot(old(State()), s) && v == Vote(votes, voted, err) && b.State() == s
    {
      CastKeepsId(b.State(), b.id, voter, i);
      hide StatesOf, Apart, ViewOf, ValidStore, LogStore.State, LogStore.Valid, LogStore.Repr, CastCommit, Ballot.State;
      votes, voted, err := VoteCommitStates(b, voter, i);
      assert store.State() == old(store.State());
    }

    method CloseStates(b: Ballot, err: Option<Error>)
      requires BallotsApart() && Filed(b) && (b.closed || b.timer)
      modifies b
      ensures
        var s := CloseWith(old(b.State()), err);
        StatesOf(ballots) == old(StatesOf(ballots))[b.id := s] && b.State() == s && b.closed
    {
      b.Close(err);
    }

    method Close(b: Ballot, err: Option<Error>)
      requires Valid() && Filed(b) && (b.closed || b.timer)
      modifies b
      ensures Valid() && b.closed
      ensures State() == SetBallot(old(State()), CloseWith(old(b.State()), err))
    {
      FiledState(b);
      assert CloseWith(b.State(), err).id == b.id;
      hide StatesOf, Apart, ViewOf, ValidStore, LogStore.State, LogStore.Valid, LogStore.Repr, CloseWith, Ballot.State;
      CloseStates(b, err);
      assert store.State() == old(store.State());
    }

    method TimeOutStates(b: Ballot)
      requires BallotsApart() && Filed(b) && b.timer && !b.closed
      modifies b
      ensures
        var s := Expire(old(b.State()));
        StatesOf(ballots) == old(StatesOf(ballots))[b.id := s] && b.State() == s && s.id == b.id
    {
      b.TimeOut();
    }

    /** The timer of an open ballot fires: the change of the node in a cluster's `Expire` step. */
    method TimeOut(b: Ballot)
      requires Valid() && Filed(b) && b.timer && !b.closed
      modifies b
      ensures Valid() && State() == SetBallot(old(State()), Expire(old(b.State())))
    {
      FiledState(b);
      hide StatesOf, Apart, ViewOf, ValidStore, LogStore.State, LogStore.Valid, LogStore.Repr, Expire, Ballot.State;
      TimeOutStates(b);
      assert store.State() == old(store.State());
    }

    function GetBallot(id: Id): (b: Ballot?)
      reads this
      ensures b == null <==> id !in ballots
      ensures b != null ==> b == ballots[id]
    {
      if id in ballots then ballots[id] else null
    }

    method BallotGetClose(id: Id, err: Option<Error>)
      requires Valid() && Healthy(State())
      modifies ballots.Values
      ensures Valid() && State() == CloseBallot(old(State()), id, err)
    {
      var ballot := GetBallot(id);
      if ballot == null {
        return;
      }
      FiledState(ballot);
      assert ballot.closed || ballot.timer by { assert State().ballots[id] == ballot.State(); }
      hide StatesOf, Apart, ViewOf, ValidStore, LogStore.State, LogStore.Valid, LogStore.Repr, CloseWith, Ballot.State;
      Close(ballot, err);
    }

    // ---- proposing

    method GetSelfIndex(peers: seq<Host>) returns (r: Option<nat>)
      ensures r == SelfIndex(peers, conf.host)
    {
      for i := 0 to |peers|
        invariant conf.host !in peers[..i]
      {
        if peers[i] == conf.host {
          SelfIndexIs(peers, conf.host, i);
          return Some(i);
        }
      }
      assert peers[..|peers|] == peers;
      return None;
    }

    method VerifyEntry(e: Entry) returns (prevHeight: nat, err: Option<Error>)
      requires Valid()
      ensures (prevHeight, err) == Verify(conf.h, State().store, e)
    {
      var kl := store.GetKey(e.key);
      if kl.Some? {
        assert store.State().index[e.key] == kl.value.State();
        assert store.View()[e.key].marker == kl.value.marker;
        if kl.value.marker.Some? {
          return 0, Some(ErrKeyDegraded);
        }
      }
      prevHeight, err := 0, None;
      var lastId := ZeroId(conf.h.size);
      var last := store.LastEntry(e.key);
      if last.Some? {
        prevHeight := last.value.height;
        lastId := conf.h.hash(last.value);
      }
      if e.previous != lastId {
        err := Some(ErrPreviousHash);
      }
    }

    method UpsertKeyAndBroadcast(prevHeight: nat, e: Entry, opts: Options)
      requires Valid()
      modifies this`pch, store.index
      ensures Valid() && State() == QueuePropose(old(State()), prevHeight, e, opts)
      ensures fresh(store.index.m.Values - old(store.index.m.Values))
    {
      hide StatesOf, Apart, LogStore.View, LogStore.State, LogStore.Valid;
      if prevHeight == 0 {
        ghost var known := store.Repr();
        var er := store.NewKey(e.key);
        assert store.index.m.Values - old(store.index.m.Values) <= store.Repr() - known;
      }
      pch := pch + [Req(e, opts)];
    }

    /** append: straight to the log, and on to the FSM if accepted. */
    method Append(e: Entry) returns (err: Option<Error>)
      requires Valid() && e in store.u
      modifies this`applied, store.entries, store.index.m.Values
      ensures Valid() && (State(), err) == AppendDirect(conf.h, old(State()), e)
    {
      hide StatesOf, Apart, LogStore.View, LogStore.State, LogStore.Valid, LogStore.Repr;
      err := store.AppendEntry(e);
      if err.None? {
        applied := applied + [e];
      }
    }

    method TalliesAgree(b: Ballot) returns (agree: bool)
      requires Valid() && Filed(b)
      ensures Valid() && Filed(b) && State() == old(State())
      ensures agree <==> CountVotes(old(b.State()).proposed) == CountVotes(old(b.State()).committed)
    {
      hide StatesOf, Apart, ViewOf, ValidStore, LogStore.State, LogStore.Valid, LogStore.Repr;
      var proposals := b.Proposals();
      var commits := b.Commits();
      agree := proposals == commits;
    }

    /** What follows when both tallies agree. */
    method AppendBallot(b: Ballot)
      requires Valid() && Filed(b) && (b.closed || b.timer)
      modifies this`applied, b, store.entries, store.index.m.Values
      ensures Valid() && b.closed
      ensures
        var (n, err) := AppendDirect(conf.h, old(State()), b.entry);
        State() == SetBallot(n, CloseWith(old(b.State()), err))
    {
      FiledState(b);
      hide *;
      var err := Append(b.entry);
      Close(b, err);
    }

    method CheckVotesAndCommit(b: Ballot)
      requires Valid() && Filed(b) && (b.closed || b.timer)
      modifies this`applied, b, store.entries, store.index.m.Values
      ensures Valid() && (b.closed || b.timer)
      ensures b.id in old(State()).ballots && State() == Nodes.CheckVotesAndCommit(conf.h, old(State()), b.id)
    {
      FiledState(b);
      CheckInSteps(conf.h, State(), b.id);
      hide *;
      var agree := TalliesAgree(b);
      if agree {
        AppendBallot(b);
      }
    }

    method BroadcastCommit(b: Ballot, opts: Options)
      requires Valid() && Filed(b)
      modifies this`cch
      ensures Valid() && State() == old(State()).(cch := old(State()).cch + [Req(b.entry, opts)])
    {
      hide StatesOf, Apart, ViewOf, ValidStore, LogStore.State, LogStore.Valid, LogStore.Repr;
      cch := cch + [Req(b.entry, opts)];
    }

    method QueueBroadcastOrCommit(votes: int, b: Ballot, opts: Options)
      requires Valid() && Filed(b) && (b.closed || b.timer)
      modifies this`cch, this`applied, b, store.entries, store.index.m.Values
      ensures Valid() && (b.closed || b.timer)
      ensures b.id in old(State()).ballots && State() == QueueCommit(conf.h, old(State()), b.id, votes, opts)
    {
      FiledState(b);
      QueueCommitIs(conf.h, State(), b.id, votes, opts);
      hide *;
      if votes == 1 {
        BroadcastCommit(b, opts);
      } else if votes == |opts.peers| {
        CheckVotesAndCommit(b);
      }
    }

    method FileStates(id: Id, e: Entry, votes: nat) returns (b: Ballot)
      requires BallotsApart() && id !in ballots && e in store.u
      modifies this`ballots, this`owner
      ensures BallotsApart() && fresh(b) && fresh(b.proposed) && fresh(b.committed) && Filed(b) && b.id == id
              && b.votes == votes
      ensures StatesOf(ballots) == old(StatesOf(ballots))[id := NewBallot(id, e, votes)]
              && b.State() == NewBallot(id, e, votes)
    {
      b := new Ballot(id, e, votes);
      ballots, owner := ballots[id := b], owner[b.proposed := id][b.committed := id];
    }

    /** A new ballot is filed; it has no votes yet. */
    method FileBallot(id: Id, e: Entry, votes: nat) returns (b: Ballot)
      requires Valid() && id !in ballots && e in store.u
      modifies this`ballots, this`owner
      ensures Valid() && fresh(b) && fresh(b.proposed) && fresh(b.committed) && Filed(b) && b.id == id
              && b.votes == votes
      ensures State() == SetBallot(old(State()), NewBallot(id, e, votes)) && b.State() == NewBallot(id, e, votes)
    {
      hide StatesOf, Apart, ViewOf, ValidStore, LogStore.State, LogStore.Valid, LogStore.Repr, Ballot.State;
      b := FileStates(id, e, votes);
      assert store.State() == old(store.State());
    }

    /** A new ballot with our own vote. */
    method OpenWithVote(e: Entry, peers: seq<Host>, self: nat, prevHeight: nat) returns (b: Ballot)
      requires Valid() && e in store.u && self < |peers| && conf.h.hash(e) !in ballots
      modifies this`ballots, this`owner, this`pch, store.index
      ensures Valid() && Filed(b) && b.id == conf.h.hash(e) && fresh(b) && fresh(b.proposed) && fresh(b.committed)
      ensures fresh(store.index.m.Values - old(store.index.m.Values))
      ensures
        var id := conf.h.hash(e);
        var (s, v) := CastPropose(NewBallot(id, e, |peers|), id, peers[self], self);
        var n := SetBallot(SetBallot(old(State()), NewBallot(id, e, |peers|)), s);
        State() == if v.voted then QueuePropose(n, prevHeight, e, Options(self, peers)) else n
    {
      hide *;
      b := FileBallot(conf.h.hash(e), e, |peers|);
      var votes, voted, er := VotePropose(b, peers[self], self);
      if voted {
        UpsertKeyAndBroadcast(prevHeight, e, Options(self, peers));
      }
    }

    /** Get or create the ballot; on creation vote for ourselves, unless we are the source. */
    method OpenBallot(e: Entry, peers: seq<Host>, self: nat, source: nat, prevHeight: nat) returns (b: Ballot)
      requires Valid() && e in store.u && self < |peers|
      modifies this`ballots, this`owner, this`pch, store.index
      ensures Valid() && Filed(b) && b.id == conf.h.hash(e)
      ensures b.id in old(ballots) ==> b == old(ballots)[b.id]
      ensures b.id !in old(ballots) ==> fresh(b) && fresh(b.proposed) && fresh(b.committed)
      ensures fresh(store.index.m.Values - old(store.index.m.Values))
      ensures State() == Nodes.OpenBallot(conf, old(State()), e, peers, self, source, prevHeight)
    {
      var id := conf.h.hash(e);
      ghost var n := State();
      var known := GetBallot(id);
      if known != null {
        FiledState(known);
        return known;
      }
      NotFiled(id);
      OpenInSteps(conf, n, e, peers, self, source, prevHeight);
      hide *;
      if self == source {
        b := FileBallot(id, e, |peers|);
      } else {
        b := OpenWithVote(e, peers, self, prevHeight);
      }
    }

    lemma NotFiled(id: Id)
      requires Valid() && id !in ballots
      ensures id !in State().ballots
    {
    }

    /** The vote of the source. */
    method TakeProposal(b: Ballot, e: Entry, peers: seq<Host>, self: nat, source: nat, prevHeight: nat)
      returns (err: Option<Error>)
      requires Valid() && Filed(b) && b.id == conf.h.hash(e) && source < |peers| && (b.closed || source < b.votes)
      requires Sane(b.State())
      modifies this`pch, this`applied, b, b.proposed, store.index, store.entries, store.index.m.Values
      ensures Valid()
      ensures
        && b.id in old(State()).ballots && Open(old(State()), b.id, source)
        && (State(), err) == Nodes.TakeProposal(conf, old(State()), e, peers, self, source, prevHeight)
    {
      ghost var n := State();
      FiledState(b);
      CastStartsTimer(b.State(), b.id, peers[source], source);
      ghost var (s, v) := CastPropose(b.State(), b.id, peers[source], source);
      assert SetBallot(n, s) == n.(ballots := n.ballots[b.id := s]);
      hide StatesOf, Apart, ViewOf, ValidStore, LogStore.State, LogStore.Valid, LogStore.Repr, CastPropose,
           Hexalog.State, Hexalog.Valid, Nodes.CheckVotesAndCommit, QueuePropose, SetBallot, Sane;
      var votes, voted;
      votes, voted, err := VotePropose(b, peers[source], source);
      if err.Some? {
        return;
      }
      if votes == 1 {
        if voted {
          UpsertKeyAndBroadcast(prevHeight, e, Options(self, peers));
        }
      } else if votes == |peers| {
        CheckVotesAndCommit(b);
      }
    }

    /** An entry that cannot come next. */
    method RefuseEntry(e: Entry, opts: Options, prevHeight: nat, err: Error)
      requires Valid() && Healthy(State())
      modifies this`hch, ballots.Values
      ensures Valid() && State() == Nodes.Refuse(conf, old(State()), e, opts, prevHeight, err)
    {
      hide StatesOf, Apart, ViewOf, ValidStore, LogStore.State, LogStore.Valid, LogStore.Repr, CloseBallot, Healthy,
           Hexalog.Valid;
      if e.height > prevHeight {
        hch := hch + [HealReq(conf.h.hash(e), e, opts)];
      } else {
        BallotGetClose(conf.h.hash(e), Some(err));
      }
    }

    /** An entry that comes next. */
    method ProposeNext(e: Entry, peers: seq<Host>, self: nat, source: nat, prevHeight: nat) returns (err: Option<Error>)
      requires Valid() && e in store.u && self < |peers| && source < |peers|
      requires Healthy(State()) && Open(State(), conf.h.hash(e), source)
      modifies this, store.index, store.entries, store.index.m.Values, ballots.Values
      modifies set id | id in ballots :: ballots[id].proposed
      ensures Valid() && (State(), err) == Advanced(conf, old(State()), e, peers, self, source, prevHeight)
    {
      OpenedSane(conf, State(), e, peers, self, source, prevHeight);
      OpenIsFit(conf, State(), e, peers, self, source, prevHeight);
      hide *;
      var b := OpenBallot(e, peers, self, source, prevHeight);
      FiledState(b);
      err := TakeProposal(b, e, peers, self, source, prevHeight);
    }

    /** Propose from the verification on. */
    method ProposeVerified(e: Entry, peers: seq<Host>, self: nat, source: nat) returns (err: Option<Error>)
      requires Valid() && e in store.u && self < |peers| && Healthy(State())
      requires SourceFits(conf, State(), e, peers, source)
      modifies this, store.index, store.entries, store.index.m.Values, ballots.Values
      modifies set id | id in ballots :: ballots[id].proposed
      ensures Valid() && (State(), err) == Verified(conf, old(State()), e, peers, self, source)
    {
      hide *;
      var prevHeight;
      prevHeight, err := VerifyEntry(e);
      VerifiedIs(conf, State(), e, peers, self, source, prevHeight, err);
      if err.Some? {
        RefuseEntry(e, Options(source, peers), prevHeight, err.value);
      } else {
        err := ProposeNext(e, peers, self, source, prevHeight);
      }
    }

    method Propose(e: Entry, opts: Options) returns (err: Option<Error>)
      requires Valid() && e in store.u && Proposable(conf, State(), e, opts) && Healthy(State())
      modifies this, store.index, store.entries, store.index.m.Values, ballots.Values
      modifies set id | id in ballots :: ballots[id].proposed
      ensures Valid() && (State(), err) == Nodes.Propose(conf, old(State()), e, opts)
    {
      ProposeInParts(conf, State(), e, opts);
      hide *;
      err := Some(ErrInsufficientPeers);
      if |opts.peers| > 0 && |opts.peers| >= conf.votes {
        var self := GetSelfIndex(opts.peers);
        err := Some(ErrNotInPeerSet);
        if self.Some? {
          var source: nat := if opts.sourceIndex < 0 then self.value else opts.sourceIndex;
          err := ProposeVerified(e, opts.peers, self.value, source);
        }
      }
    }

    method TakeCommit(b: Ballot, peers: seq<Host>, self: nat, i: nat) returns (err: Option<Error>)
      requires Valid() && Filed(b) && i < |peers| && (b.closed || i < b.votes) && (b.closed || b.timer)
      modifies this`cch, this`applied, b, b.committed, store.entries, store.index.m.Values
      ensures Valid() && (b.closed || b.timer) && (err.None? <==> !old(b.closed))
      ensures
        && b.id in old(State()).ballots && Open(old(State()), b.id, i)
        && (State(), err) == Nodes.TakeCommit(conf, old(State()), b.id, peers, self, i)
    {
      ghost var n := State();
      FiledState(b);
      ghost var (s, v) := CastCommit(b.State(), b.id, peers[i], i);
      assert SetBallot(n, s) == n.(ballots := n.ballots[b.id := s]);
      assert s.entry == b.entry && s.closed == b.closed && s.timer == b.timer;
      hide StatesOf, Apart, ViewOf, ValidStore, LogStore.State, LogStore.Valid, LogStore.Repr, CastCommit,
           Nodes.CheckVotesAndCommit, SetBallot;
      var votes, voted;
      votes, voted, err := VoteCommit(b, peers[i], i);
      if err.None? && voted {
        QueueBroadcastOrCommit(votes, b, Options(self, peers));
      }
    }

    method CommitBoth(b: Ballot, peers: seq<Host>, self: nat, source: int) returns (err: Option<Error>)
      requires Valid() && Filed(b) && self < |peers| && (b.closed || b.timer) && self != source
      requires b.closed || (self < b.votes && 0 <= source < |peers| && source < b.votes)
      requires b.id in State().ballots && CommitFits(State(), b.id, peers, self, source)
      modifies this`cch, this`applied, b, b.committed, store.entries, store.index.m.Values
      ensures Valid() && (State(), err) == CommitVotes(conf, old(State()), b.id, peers, self, source)
    {
      CommitVotesIs(conf, State(), b.id, peers, self, source);
      hide *;
      err := TakeCommit(b, peers, self, self);
      if err.None? {
        err := TakeCommit(b, peers, self, source);
      }
    }

    /** The commit votes on a ballot the node has: its own, and the source's. */
    method CommitBallot(b: Ballot, peers: seq<Host>, self: nat, source: int) returns (err: Option<Error>)
      requires Valid() && Filed(b) && self < |peers| && (b.closed || b.timer)
      requires b.closed || (self < b.votes && 0 <= source < |peers| && source < b.votes)
      requires b.id in State().ballots && CommitFits(State(), b.id, peers, self, source)
      modifies this`cch, this`applied, b, b.committed, store.entries, store.index.m.Values
      ensures Valid() && (State(), err) == CommitVotes(conf, old(State()), b.id, peers, self, source)
    {
      CommitVotesIs(conf, State(), b.id, peers, self, source);
      hide *;
      if self == source {
        err := TakeCommit(b, peers, self, self);
      } else {
        err := CommitBoth(b, peers, self, source);
      }
    }

    /** Commit from the look-up of the ballot on. */
    method CommitFiled(e: Entry, peers: seq<Host>, self: nat, source: int) returns (err: Option<Error>)
      requires Valid() && self < |peers| && Healthy(State()) && CommitFits(State(), conf.h.hash(e), peers, self, source)
      modifies this`cch, this`applied, store.entries, store.index.m.Values, ballots.Values
      modifies set id | id in ballots :: ballots[id].committed
      ensures Valid() && (State(), err) == CommitLooked(conf, old(State()), e, peers, self, source)
    {
      var id := conf.h.hash(e);
      var b := GetBallot(id);
      if b == null {
        NotFiled(id);
        return Some(ErrBallotNotFound);
      }
      FiledState(b);
      hide *;
      err := CommitBallot(b, peers, self, source);
    }

    method Commit(e: Entry, opts: Options) returns (err: Option<Error>)
      requires Valid() && Committable(conf, State(), e, opts) && Healthy(State())
      modifies this`cch, this`applied, store.entries, store.index.m.Values, ballots.Values
      modifies set id | id in ballots :: ballots[id].committed
      ensures Valid() && (State(), err) == Nodes.Commit(conf, old(State()), e, opts)
    {
      CommitInParts(conf, State(), e, opts);
      hide *;
      err := Some(ErrInsufficientPeers);
      if |opts.peers| > 0 && |opts.peers| >= conf.votes {
        var self := GetSelfIndex(opts.peers);
        err := Some(ErrNotInPeerSet);
        if self.Some? {
          err := CommitFiled(e, opts.peers, self.value, opts.sourceIndex);
        }
      }
    }

    method ReapFiled() returns (c: nat)
      modifies this`ballots
      ensures ballots.Keys <= old(ballots).Keys && c == |old(ballots)| - |ballots|
      ensures forall id :: id in ballots ==> ballots[id] == old(ballots)[id]
      ensures forall id :: id in old(ballots) ==> (id in ballots <==> !old(ballots)[id].closed)
    {
      c := 0;
      var rest := ballots.Keys;
      while rest != {}
        invariant rest <= ballots.Keys <= old(ballots).Keys && c == |old(ballots)| - |ballots|
        invariant forall id :: id in ballots ==> ballots[id] == old(ballots)[id]
        invariant forall id :: id in old(ballots) && id !in rest ==> (id in ballots <==> !old(ballots)[id].closed)
        decreases |rest|
      {
        var id :| id in rest;
        if ballots[id].closed {
          OneLess(ballots, id);
          ballots := ballots - {id};
          c := c + 1;
        }
        rest := rest - {id};
      }
    }

    method ReapStates() returns (c: nat)
      requires BallotsApart()
      modifies this`ballots
      ensures BallotsApart() && c == |old(ballots)| - |ballots|
      ensures StatesOf(ballots) == OpenOnes(old(StatesOf(ballots)))
    {
      hide Apart, OpenOnes, StatesOf, Ballot.State;
      ghost var before := ballots;
      ghost var states := StatesOf(before);
      ClosedStates(before);
      c := ReapFiled();
      ApartLess(before, ballots, owner, store.u);
      assert StatesOf(before) == states;
      SomeStates(before, ballots);
      OpenIs(states, StatesOf(ballots));
    }

    /** reapBallotsOnce: closed ballots are dropped, and counted. */
    method ReapBallotsOnce() returns (c: nat)
      requires Valid()
      modifies this`ballots
      ensures Valid() && State() == Reap(old(State()))
      ensures c == |old(ballots)| - |ballots|
      ensures forall id :: id in State().ballots <==> id in old(State()).ballots && !old(State()).ballots[id].closed
    {
      hide StatesOf, Apart, ViewOf, ValidStore, LogStore.State, LogStore.Valid, LogStore.Repr;
      c := ReapStates();
      assert store.State() == old(store.State());
    }

    /** New: the next entry of a key; the clocks are read by the caller. */
    method New(key: Key, timestamp: uint64, ltime: uint64) returns (e: Entry)
      requires Valid()
      ensures e == NextEntry(conf.h, State().store, key, timestamp).(ltime := ltime)
      ensures e.key == key && e.timestamp == timestamp && e.ltime == ltime && e.data == []
      ensures MadeFrom(conf.h, LogOf(State().store, key), e)
      ensures key in State().store ==> AppendView(conf.h, State().store, e).1.None?
    {
      e := store.NewEntry(key, timestamp);
      e := e.(ltime := ltime);
    }

    // ---- catching up

    /** The own log of a key, as far as requests to others show it. */
    method SeekFrom(key: Key) returns (seek: Option<Id>)
      requires Valid()
      ensures seek == CatchUp.SeekId(conf.h, LogOf(State().store, key))
    {
      var last := store.LastEntry(key);
      seek := if last.None? then None else Some(conf.h.hash(last.value));
    }

    /** The stream of a pull is appended entry by entry; errors of single appends are passed over. */
    method AppendStream(es: seq<Entry>) returns (fentry: Option<Entry>)
      requires Valid() && forall e :: e in es ==> e in store.u
      modifies this`applied, store.entries, store.index.m.Values
      ensures Valid() && (State(), fentry) == CatchUp.ReceiveAll(conf.h, old(State()), es)
    {
      hide *;
      ghost var n := State();
      fentry := None;
      var i := 0;
      CatchUp.ReceiveNothing(conf.h, n);
      assert es[..0] == [];
      while i < |es|
        invariant 0 <= i <= |es| && Valid()
        invariant (State(), fentry) == CatchUp.ReceiveAll(conf.h, n, es[..i])
      {
        CatchUp.ReceiveOne(conf.h, n, es[..i], es[i]);
        assert es[..i + 1] == es[..i] + [es[i]];
        var err := Append(es[i]);
        fentry := if err.None? then Some(es[i]) else None;
        i := i + 1;
      }
      assert es[..i] == es;
    }

    /** PullKeylog: what another node serves from `seek` on. */
    method PullKeylog(key: Key, seek: Option<Id>, remote: View, cut: Option<nat>)
      returns (fentry: Option<Entry>, err: Option<Error>)
      requires Valid() && ServedInUse(remote, store.u)
      modifies this`applied, store.entries, store.index.m.Values
      ensures Valid()
      ensures
        var (es, end) := CatchUp.Arriving(Serve(conf.h, remote, key, seek), cut);
        (State(), fentry) == CatchUp.ReceiveAll(conf.h, old(State()), es) && err == end
    {
      var (es, end) := CatchUp.Arriving(Serve(conf.h, remote, key, seek), cut);
      ArrivingInUse(conf.h, remote, key, seek, cut, store.u);
      hide *;
      fentry := AppendStream(es);
      err := end;
    }

    /** The key is created unless it exists. */
    method EnsureKey(key: Key)
      requires Valid()
      modifies store.index
      ensures Valid() && State() == old(State()).(store := UpsertKey(old(State()).store, key))
      ensures fresh(store.index.m.Values - old(store.index.m.Values))
    {
      hide StatesOf, Apart, LogStore.View, LogStore.State, LogStore.Valid;
      var known := store.GetKey(key);
      if known.None? {
        ghost var objects := store.Repr();
        var err := store.NewKey(key);
        assert store.index.m.Values - old(store.index.m.Values) <= store.Repr() - objects;
      }
    }

    method LastOrNew(key: Key) returns (seek: Option<Id>)
      requires Valid()
      modifies store.index
      ensures Valid() && State() == old(State()).(store := UpsertKey(old(State()).store, key))
      ensures fresh(store.index.m.Values - old(store.index.m.Values))
      ensures seek == CatchUp.SeekId(conf.h, LogOf(State().store, key))
    {
      hide *;
      EnsureKey(key);
      seek := SeekFrom(key);
    }

    /** checkLastEntryOrPull, from a node that holds `remote`. */
    method CheckLastEntryOrPull(key: Key, otherLast: Id, remote: View, cut: Option<nat>) returns (err: Option<Error>)
      requires Valid() && ServedInUse(remote, store.u)
      modifies this`applied, store.index, store.entries, store.index.m.Values
      ensures Valid() && (State(), err) == CatchUp.CheckOrPull(conf.h, old(State()), key, otherLast, remote, cut)
    {
      ghost var n := State();
      CheckInParts(conf.h, n, key, otherLast, remote, cut);
      hide *;
      var seek := LastOrNew(key);
      var lid := if seek.None? then ZeroId(conf.h.size) else seek.value;
      if lid != otherLast {
        var fentry;
        fentry, err := PullKeylog(key, seek, remote, cut);
      } else {
        err := None;
      }
    }

    method FindLeader(key: Key, locs: seq<Host>, fetched: seq<Option<Entry>>) returns (r: Option<Healing.KeyLeader>)
      requires Valid() && |fetched| == |locs|
      ensures Valid() && State() == old(State())
      ensures
        var lasts := Healing.Lasts(conf.host, Healing.LastOf(LogOf(old(State()).store, key)), locs, fetched);
        r == match Healing.LeaderIndex(lasts) case None => None case Some(i) => Some(Healing.KeyLeader(i, locs, lasts))
    {
      hide *;
      var own := LastOwn(key);
      r := Healing.Leader(conf.host, own, locs, fetched);
    }

    /** heal: `fetched` is what the transport returns for the last entries, `views` what the other nodes hold. */
    method Heal(key: Key, locs: seq<Host>, fetched: seq<Option<Entry>>, views: map<Host, View>, cut: Option<nat>)
      returns (err: Option<Error>)
      requires Valid() && |fetched| == |locs| && locs != []
      requires forall i :: 0 <= i < |locs| ==> locs[i] in views && ServedInUse(views[locs[i]], store.u)
      modifies this`applied, store.index, store.entries, store.index.m.Values
      ensures Valid() && (State(), err) == Healing.Heal(conf, old(State()), key, locs, fetched, views, cut)
    {
      HealInParts(conf, State(), key, locs, fetched, views, cut);
      hide *;
      var leader := FindLeader(key, locs, fetched);
      err := Some(ErrNoLeader);
      if leader.Some? {
        var lle := leader.value.lasts[leader.value.idx];
        var host := locs[leader.value.idx];
        err := None;
        if lle.Some? && host != conf.host {
          err := CheckLastEntryOrPull(key, conf.h.hash(lle.value), views[host], cut);
        }
      }
    }

    method LastOwn(key: Key) returns (last: Option<Entry>)
      requires Valid()
      ensures Valid() && State() == old(State())
      ensures last == Healing.LastOf(LogOf(old(State()).store, key))
    {
      hide StatesOf, Apart, ViewOf, ValidStore, LogStore.State, LogStore.Valid, LogStore.Repr;
      last := store.LastEntry(key);
    }
  }

  lemma HealInParts(c: Conf, n: Node, k: Key, locs: seq<Host>, fetched: seq<Option<Entry>>, views: map<Host, View>,
                    cut: Option<nat>)
    requires |fetched| == |locs| && locs != [] && forall i :: 0 <= i < |locs| ==> locs[i] in views
    ensures
      var lasts := Healing.Lasts(c.host, Healing.LastOf(LogOf(n.store, k)), locs, fetched);
      match Healing.LeaderIndex(lasts)
      case None => Healing.Heal(c, n, k, locs, fetched, views, cut) == (n, Some(ErrNoLeader))
      case Some(i) =>
        && i < |locs|
        && Healing.Heal(c, n, k, locs, fetched, views, cut) ==
           if lasts[i].None? || locs[i] == c.host then (n, None)
           else CatchUp.CheckOrPull(c.h, n, k, c.h.hash(lasts[i].value), views[locs[i]], cut)
  {
  }

  /** checkLastEntryOrPull, by the id the pull starts at. */
  lemma CheckInParts(h: Hashing, n: Node, k: Key, otherLast: Id, remote: View, cut: Option<nat>)
    ensures
      var n' := n.(store := UpsertKey(n.store, k));
      var seek := CatchUp.SeekId(h, LogOf(n'.store, k));
      var (es, end) := CatchUp.Arriving(Serve(h, remote, k, seek), cut);
      CatchUp.CheckOrPull(h, n, k, otherLast, remote, cut) ==
      if (if seek.None? then ZeroId(h.size) else seek.value) == otherLast then (n', None)
      else (CatchUp.ReceiveAll(h, n', es).0, end)
  {
    assert LogOf(UpsertKey(n.store, k), k) == LogOf(n.store, k);
  }

  ghost predicate ServedInUse(remote: View, u: iset<Entry>) {
    forall k, e :: k in remote && e in remote[k].log ==> e in u
  }

  lemma ArrivingInUse(h: Hashing, remote: View, k: Key, seek: Option<Id>, cut: Option<nat>, u: iset<Entry>)
    requires ServedInUse(remote, u)
    ensures forall e :: e in CatchUp.Arriving(Serve(h, remote, k, seek), cut).0 ==> e in u
  {
    var es := Serve(h, remote, k, seek).0;
    assert forall e :: e in es ==> k in remote && e in remote[k].log;
  }

  function OpenOnes(ballots: map<Id, BallotState>): map<Id, BallotState> {
    map id | id in ballots && !ballots[id].closed :: ballots[id]
  }

  lemma ClosedStates(ballots: map<Id, Ballot>)
    ensures StatesOf(ballots).Keys == ballots.Keys
    ensures forall id :: id in ballots ==> StatesOf(ballots)[id].closed == ballots[id].closed
  {
  }

  lemma SomeStates(ballots: map<Id, Ballot>, ballots': map<Id, Ballot>)
    requires ballots'.Keys <= ballots.Keys && forall id :: id in ballots' ==> ballots'[id] == ballots[id]
    ensures StatesOf(ballots').Keys == ballots'.Keys && StatesOf(ballots).Keys == ballots.Keys
    ensures forall id :: id in ballots' ==> StatesOf(ballots')[id] == StatesOf(ballots)[id]
  {
  }

  lemma OpenIs(ballots: map<Id, BallotState>, ballots': map<Id, BallotState>)
    requires ballots'.Keys <= ballots.Keys
    requires forall id :: id in ballots ==> (id in ballots' <==> !ballots[id].closed)
    requires forall id :: id in ballots' ==> ballots'[id] == ballots[id]
    ensures ballots' == OpenOnes(ballots)
  {
  }

  lemma OneLess<T>(m: map<Id, T>, id: Id)
    requires id in m
    ensures |m - {id}| == |m| - 1
  {
    assert (m - {id}).Keys == m.Keys - {id};
  }

  /** The ballot is open only if it has a place for vote number `i`. */
  predicate Open(n: Node, id: Id, i: nat) {
    id in n.ballots && Refusal(n.ballots[id], id).None? ==>
        i < |n.ballots[id].proposed| && i < |n.ballots[id].committed|
  }

  /** The ballot is open only if it has places for the own and the source's commit vote, and the source is a peer. */
  predicate CommitFits(n: Node, id: Id, peers: seq<Host>, self: nat, source: int) {
    id in n.ballots && Refusal(n.ballots[id], id).None? ==>
      self < |n.ballots[id].committed| && 0 <= source < |peers| && source < |n.ballots[id].committed|
  }

  /** Commit from the look-up of the ballot on. */
  function CommitLooked(c: Conf, n: Node, e: Entry, peers: seq<Host>, self: nat, source: int): (Node, Option<Error>)
    requires self < |peers| && CommitFits(n, c.h.hash(e), peers, self, source)
  {
    if c.h.hash(e) !in n.ballots then (n, Some(ErrBallotNotFound))
    else CommitVotes(c, n, c.h.hash(e), peers, self, source)
  }

  /** The commit votes of Commit: the own one first, unless it is the source's. */
  function CommitVotes(c: Conf, n: Node, id: Id, peers: seq<Host>, self: nat, source: int): (Node, Option<Error>)
    requires id in n.ballots && self < |peers| && CommitFits(n, id, peers, self, source)
  {
    if self == source then Nodes.TakeCommit(c, n, id, peers, self, self)
    else
      var (n1, err) := Nodes.TakeCommit(c, n, id, peers, self, self);
      TakeCommitKeepsBallots(c, n, id, peers, self, self);
      if err.Some? then (n1, err) else Nodes.TakeCommit(c, n1, id, peers, self, source)
  }

  lemma CommitVotesIs(c: Conf, n: Node, id: Id, peers: seq<Host>, self: nat, source: int)
    requires id in n.ballots && self < |peers| && CommitFits(n, id, peers, self, source)
    ensures Refusal(n.ballots[id], id).None? ==> self < |n.ballots[id].committed|
    ensures
      var (n1, err) := Nodes.TakeCommit(c, n, id, peers, self, self);
      && id in n1.ballots && (err.None? ==> 0 <= source < |peers| && source < |n1.ballots[id].committed|)
      && CommitVotes(c, n, id, peers, self, source) ==
         if self == source || err.Some? then (n1, err) else Nodes.TakeCommit(c, n1, id, peers, self, source)
  {
    TakeCommitKeepsBallots(c, n, id, peers, self, self);
  }

  lemma CommitInParts(c: Conf, n: Node, e: Entry, opts: Options)
    requires Committable(c, n, e, opts)
    ensures
      var self := SelfIndex(opts.peers, c.host);
      && (EnoughPeers(c, opts.peers) && self.Some? ==>
            CommitFits(n, c.h.hash(e), opts.peers, self.value, opts.sourceIndex))
      && Nodes.Commit(c, n, e, opts) ==
         if !(|opts.peers| > 0 && |opts.peers| >= c.votes) then (n, Some(ErrInsufficientPeers))
         else if self.None? then (n, Some(ErrNotInPeerSet))
         else CommitLooked(c, n, e, opts.peers, self.value, opts.sourceIndex)
    ensures EnoughPeers(c, opts.peers) <==> |opts.peers| > 0 && |opts.peers| >= c.votes
  {
    hide Nodes.TakeCommit;
  }

  /** What every handler finds and leaves: ballots are sane, and one that is open has its timer running, so that closing
      it finds a timer to stop. */
  ghost predicate Healthy(n: Node) {
    forall id :: id in n.ballots ==> Sane(n.ballots[id]) && (n.ballots[id].closed || n.ballots[id].timer)
  }

  /** An entry that comes next has its source among the peers, with a place in the ballot if that is open. */
  predicate SourceFits(c: Conf, n: Node, e: Entry, peers: seq<Host>, source: nat) {
    Verify(c.h, n.store, e).1.None? ==> source < |peers| && Open(n, c.h.hash(e), source)
  }

  /** Propose from the verification on. */
  function Verified(c: Conf, n: Node, e: Entry, peers: seq<Host>, self: nat, source: nat): (Node, Option<Error>)
    requires self < |peers| && SourceFits(c, n, e, peers, source)
  {
    var (prevHeight, err) := Verify(c.h, n.store, e);
    if err.Some? then (Refuse(c, n, e, Options(source, peers), prevHeight, err.value), err)
    else Advanced(c, n, e, peers, self, source, prevHeight)
  }

  lemma VerifiedIs(c: Conf, n: Node, e: Entry, peers: seq<Host>, self: nat, source: nat, height: nat,
                   err: Option<Error>)
    requires self < |peers| && SourceFits(c, n, e, peers, source)
    requires (height, err) == Verify(c.h, n.store, e)
    ensures err.None? ==> source < |peers| && Open(n, c.h.hash(e), source)
    ensures Verified(c, n, e, peers, self, source) ==
            if err.Some? then (Refuse(c, n, e, Options(source, peers), height, err.value), err)
            else Advanced(c, n, e, peers, self, source, height)
  {
  }

  lemma ProposeInParts(c: Conf, n: Node, e: Entry, opts: Options)
    requires Proposable(c, n, e, opts) && Healthy(n)
    ensures
      var self := SelfIndex(opts.peers, c.host);
      EnoughPeers(c, opts.peers) && self.Some? ==>
        && self.value < |opts.peers|
        && var source: nat := if opts.sourceIndex < 0 then self.value else opts.sourceIndex;
        && SourceFits(c, n, e, opts.peers, source)
        && Nodes.Propose(c, n, e, opts) == Verified(c, n, e, opts.peers, self.value, source)
    ensures EnoughPeers(c, opts.peers) <==> |opts.peers| > 0 && |opts.peers| >= c.votes
    ensures !EnoughPeers(c, opts.peers) ==> Nodes.Propose(c, n, e, opts) == (n, Some(ErrInsufficientPeers))
    ensures EnoughPeers(c, opts.peers) && SelfIndex(opts.peers, c.host).None? ==>
              Nodes.Propose(c, n, e, opts) == (n, Some(ErrNotInPeerSet))
  {
    hide Nodes.TakeProposal, Nodes.OpenBallot, Verify, Refuse;
  }

  /** Propose for an entry that comes next. */
  function Advanced(c: Conf, n: Node, e: Entry, peers: seq<Host>, self: nat, source: nat, prevHeight: nat)
    : (Node, Option<Error>)
    requires self < |peers| && source < |peers| && Open(n, c.h.hash(e), source)
  {
    OpenIsFit(c, n, e, peers, self, source, prevHeight);
    Nodes.TakeProposal(c, Nodes.OpenBallot(c, n, e, peers, self, source, prevHeight), e, peers, self, source,
      prevHeight)
  }

  lemma OpenIsFit(c: Conf, n: Node, e: Entry, peers: seq<Host>, self: nat, source: nat, prevHeight: nat)
    requires self < |peers| && source < |peers| && Open(n, c.h.hash(e), source)
    ensures Open(Nodes.OpenBallot(c, n, e, peers, self, source, prevHeight), c.h.hash(e), source)
  {
  }

  lemma OpenedSane(c: Conf, n: Node, e: Entry, peers: seq<Host>, self: nat, source: nat, prevHeight: nat)
    requires self < |peers| && Healthy(n)
    ensures Sane(Nodes.OpenBallot(c, n, e, peers, self, source, prevHeight).ballots[c.h.hash(e)])
  {
    var id := c.h.hash(e);
    CountBounds(NoVotes(|peers|));
    if peers[self] != "" {
      VoteProposeCounts(NewBallot(id, e, |peers|), id, peers[self], self);
    } else {
      assert NoVotes(|peers|)[self := ""] == NoVotes(|peers|);
    }
  }

  lemma OpenInSteps(c: Conf, n: Node, e: Entry, peers: seq<Host>, self: nat, source: nat, prevHeight: nat)
    requires self < |peers| && c.h.hash(e) !in n.ballots
    ensures
      var id := c.h.hash(e);
      var (s, v) := CastPropose(NewBallot(id, e, |peers|), id, peers[self], self);
      var n1 := SetBallot(n, NewBallot(id, e, |peers|));
      Nodes.OpenBallot(c, n, e, peers, self, source, prevHeight) ==
      if self == source then n1
      else if v.voted then QueuePropose(SetBallot(n1, s), prevHeight, e, Options(self, peers))
      else SetBallot(n1, s)
  {
    var id := c.h.hash(e);
    var b := NewBallot(id, e, |peers|);
    var s := CastPropose(b, id, peers[self], self).0;
    assert n.ballots[id := b][id := s] == n.ballots[id := s];
  }

  lemma CastStartsTimer(b: BallotState, id: Id, voter: Host, i: nat)
    requires Sane(b) && b.id == id && (b.closed || i < |b.proposed|)
    ensures
      var (b', v) := CastPropose(b, id, voter, i);
      b'.id == id && (v.err.None? && v.votes > 0 ==> b'.timer)
  {
    if !b.closed && b.proposed[i] == "" {
      if voter != "" {
        CountOneMore(b.proposed, i, voter);
      } else {
        assert b.proposed[i := voter] == b.proposed;
      }
    }
  }

  lemma QueueCommitIs(h: Hashing, n: Node, id: Id, votes: int, opts: Options)
    requires id in n.ballots
    ensures QueueCommit(h, n, id, votes, opts) ==
            if votes == 1 then n.(cch := n.cch + [Req(n.ballots[id].entry, opts)])
            else if votes == |opts.peers| then Nodes.CheckVotesAndCommit(h, n, id)
            else n
  {
  }

  lemma CastKeepsId(b: BallotState, id: Id, voter: Host, i: nat)
    requires Refusal(b, id).None? ==> i < |b.proposed| == |b.committed|
    ensures CastPropose(b, id, voter, i).0.id == CastCommit(b, id, voter, i).0.id == b.id
  {
  }

  /** checkVotesAndCommit as an append and a close. */
  lemma CheckInSteps(h: Hashing, n: Node, id: Id)
    requires id in n.ballots && n.ballots[id].id == id
    ensures
      var (n', err) := AppendDirect(h, n, n.ballots[id].entry);
      Nodes.CheckVotesAndCommit(h, n, id) ==
      if CountVotes(n.ballots[id].proposed) != CountVotes(n.ballots[id].committed) then n
      else SetBallot(n', CloseWith(n.ballots[id], err))
  {
  }

  lemma SelfIndexIs(peers: seq<Host>, host: Host, i: nat)
    requires i < |peers| && peers[i] == host && host !in peers[..i]
    ensures SelfIndex(peers, host) == Some(i)
  {
    var j := SelfIndex(peers, host).value;
    assert forall m :: 0 <= m < i ==> peers[m] == peers[..i][m];
    assert forall m :: 0 <= m < j ==> peers[m] == peers[..j][m];
  }

  // ---- closing a ballot always finds its timer running

  /** All ballots but `id` are in good health, and that one is sane. */
  ghost predicate HealthyBut(n: Node, id: Id) {
    forall j :: j in n.ballots ==> Sane(n.ballots[j]) && (j == id || n.ballots[j].closed || n.ballots[j].timer)
  }

  lemma CheckHealthy(h: Hashing, n: Node, id: Id)
    requires Healthy(n) && id in n.ballots
    ensures Healthy(Nodes.CheckVotesAndCommit(h, n, id))
  {
    hide AppendView, CountVotes;
  }

  lemma TakeProposalHealthy(c: Conf, n: Node, e: Entry, peers: seq<Host>, self: nat, source: nat, prevHeight: nat)
    requires c.h.hash(e) in n.ballots && source < |peers| && peers[source] != "" && Open(n, c.h.hash(e), source)
    requires HealthyBut(n, c.h.hash(e)) && n.ballots[c.h.hash(e)].id == c.h.hash(e)
    ensures Healthy(Nodes.TakeProposal(c, n, e, peers, self, source, prevHeight).0)
  {
    var id := c.h.hash(e);
    if Refusal(n.ballots[id], id).None? {
      VoteProposeCounts(n.ballots[id], id, peers[source], source);
    }
    CountBounds(n.ballots[id].proposed);
    var (b, v) := CastPropose(n.ballots[id], id, peers[source], source);
    var n1 := n.(ballots := n.ballots[id := b]);
    assert Healthy(n1);
    CheckHealthy(c.h, n1, id);
    hide Nodes.CheckVotesAndCommit, CastPropose, Sane;
  }

  lemma OpenHealthy(c: Conf, n: Node, e: Entry, peers: seq<Host>, self: nat, source: nat, prevHeight: nat)
    requires self < |peers| && Healthy(n)
    ensures HealthyBut(Nodes.OpenBallot(c, n, e, peers, self, source, prevHeight), c.h.hash(e))
  {
    OpenedSane(c, n, e, peers, self, source, prevHeight);
    var id := c.h.hash(e);
    var n' := Nodes.OpenBallot(c, n, e, peers, self, source, prevHeight);
    forall j | j in n'.ballots && j != id
      ensures j in n.ballots && n'.ballots[j] == n.ballots[j]
    {
    }
  }

  /** Whatever a node is asked to propose, no handler will later close a ballot whose timer was never started, as long
      as hosts have names. */
  lemma ProposeHealthy(c: Conf, n: Node, e: Entry, opts: Options)
    requires Proposable(c, n, e, opts) && Healthy(n) && forall p :: p in opts.peers ==> p != ""
    requires c.h.hash(e) in n.ballots ==> n.ballots[c.h.hash(e)].id == c.h.hash(e)
    ensures Healthy(Nodes.Propose(c, n, e, opts).0)
  {
    ProposeInParts(c, n, e, opts);
    var self := SelfIndex(opts.peers, c.host);
    if EnoughPeers(c, opts.peers) && self.Some? {
      var source: nat := if opts.sourceIndex < 0 then self.value else opts.sourceIndex;
      var (prevHeight, err) := Verify(c.h, n.store, e);
      if err.None? {
        assert opts.peers[source] in opts.peers;
        OpenHealthy(c, n, e, opts.peers, self.value, source, prevHeight);
        OpenIsFit(c, n, e, opts.peers, self.value, source, prevHeight);
        var n1 := Nodes.OpenBallot(c, n, e, opts.peers, self.value, source, prevHeight);
        assert n1.ballots[c.h.hash(e)].id == c.h.hash(e);
        TakeProposalHealthy(c, n1, e, opts.peers, self.value, source, prevHeight);
      }
    }
    hide Nodes.Propose, Nodes.TakeProposal, Nodes.OpenBallot, Verify, Sane;
  }

  lemma TakeCommitHealthy(c: Conf, n: Node, id: Id, peers: seq<Host>, self: nat, i: nat)
    requires Healthy(n) && id in n.ballots && i < |peers| && peers[i] != ""
    requires Refusal(n.ballots[id], id).None? ==> i < |n.ballots[id].committed|
    ensures Healthy(Nodes.TakeCommit(c, n, id, peers, self, i).0)
  {
    if Refusal(n.ballots[id], id).None? {
      VoteCommitCounts(n.ballots[id], id, peers[i], i);
    }
    var (b, v) := CastCommit(n.ballots[id], id, peers[i], i);
    var n1 := n.(ballots := n.ballots[id := b]);
    assert Healthy(n1);
    CheckHealthy(c.h, n1, id);
    hide Nodes.CheckVotesAndCommit, CastCommit, Sane;
  }

  lemma CommitHealthy(c: Conf, n: Node, e: Entry, opts: Options)
    requires Committable(c, n, e, opts) && Healthy(n) && forall p :: p in opts.peers ==> p != ""
    ensures Healthy(Nodes.Commit(c, n, e, opts).0)
  {
    CommitInParts(c, n, e, opts);
    var id, self := c.h.hash(e), SelfIndex(opts.peers, c.host);
    if EnoughPeers(c, opts.peers) && self.Some? && id in n.ballots {
      assert opts.peers[self.value] in opts.peers;
      CommitVotesIs(c, n, id, opts.peers, self.value, opts.sourceIndex);
      TakeCommitHealthy(c, n, id, opts.peers, self.value, self.value);
      var (n1, err) := Nodes.TakeCommit(c, n, id, opts.peers, self.value, self.value);
      if err.None? {
        assert opts.peers[opts.sourceIndex] in opts.peers;
        TakeCommitHealthy(c, n1, id, opts.peers, self.value, opts.sourceIndex);
      }
    }
    hide Nodes.Commit, Nodes.TakeCommit, CommitVotes, Sane;
  }
}
