/** A ballot: the vote on one entry (ballot.go). */
module Ballots {
  import opened HexTypes

  /** `signals` records what the ballot sent on its two channels: None on done, an error on errc. */
  datatype BallotState = BallotState(
    id: Id, entry: Entry, proposed: seq<Host>, committed: seq<Host>,
    timer: bool, closed: bool, err: Option<Error>, signals: seq<Option<Error>>)

  datatype Vote = Vote(votes: int, voted: bool, err: Option<Error>)

  function CountVotes(v: seq<Host>): nat {
    if v == [] then 0 else CountVotes(v[..|v| - 1]) + if v[|v| - 1] != "" then 1 else 0
  }

  function NoVotes(n: nat): (v: seq<Host>)
    ensures |v| == n
  {
    seq(n, _ => "")
  }

  function NewBallot(id: Id, e: Entry, votes: nat): BallotState {
    BallotState(id, e, NoVotes(votes), NoVotes(votes), false, false, None, [])
  }

  /** Why a vote with `id` is turned down, if it is. */
  function Refusal(b: BallotState, id: Id): Option<Error> {
    if b.id != id then Some(ErrInvalidVoteID)
    else if !b.closed then None
    else if b.err.None? then Some(ErrBallotClosed)
    else b.err
  }

  function CastPropose(b: BallotState, id: Id, voter: Host, i: nat): (BallotState, Vote)
    requires Refusal(b, id).None? ==> i < |b.proposed|
  {
    if Refusal(b, id).Some? then (b, Vote(-1, false, Refusal(b, id)))
    else if b.proposed[i] != "" then (b, Vote(CountVotes(b.proposed), false, None))
    else
      var p := b.proposed[i := voter];
      (b.(proposed := p, timer := b.timer || CountVotes(p) == 1), Vote(CountVotes(p), true, None))
  }

  function CastCommit(b: BallotState, id: Id, voter: Host, i: nat): (BallotState, Vote)
    requires Refusal(b, id).None? ==> i < |b.committed|
  {
    if Refusal(b, id).Some? then (b, Vote(-1, false, Refusal(b, id)))
    else if b.committed[i] != "" then (b, Vote(CountVotes(b.committed), false, None))
    else
      var c := b.committed[i := voter];
      (b.(committed := c), Vote(CountVotes(c), true, None))
  }

  function CloseWith(b: BallotState, err: Option<Error>): BallotState {
    if b.closed then b else b.(closed := true, err := err, signals := b.signals + [err])
  }

  /** The timer fires: the ballot is closed, but its recorded error stays nil. */
  function Expire(b: BallotState): BallotState {
    b.(closed := true, signals := b.signals + [Some(ErrBallotTimedOut)])
  }

  /** What every ballot in use satisfies: the timer runs from the first proposal on, so close() finds one to stop;
      and exactly one signal has been sent once the ballot is closed, none before. */
  predicate Sane(b: BallotState) {
    && |b.proposed| == |b.committed|
    && (CountVotes(b.proposed) > 0 ==> b.timer)
    && |b.signals| == (if b.closed then 1 else 0)
    && (!b.closed ==> b.err.None?)
  }

  // ---- counting

  lemma {:induction false} CountBounds(v: seq<Host>)
    ensures CountVotes(v) <= |v|
    ensures CountVotes(v) == |v| <==> forall i :: 0 <= i < |v| ==> v[i] != ""
    ensures CountVotes(v) == 0 <==> forall i :: 0 <= i < |v| ==> v[i] == ""
  {
    if v != [] {
      var w := v[..|v| - 1];
      CountBounds(w);
      assert forall i :: 0 <= i < |w| ==> v[i] == w[i];
      assert (forall i :: 0 <= i < |w| ==> w[i] != "") && v[|v| - 1] != "" ==> forall i :: 0 <= i < |v| ==> v[i] != "";
      assert (forall i :: 0 <= i < |w| ==> w[i] == "") && v[|v| - 1] == "" ==> forall i :: 0 <= i < |v| ==> v[i] == "";
    }
  }

  lemma {:induction false} CountOneMore(v: seq<Host>, i: nat, voter: Host)
    requires i < |v| && v[i] == "" && voter != ""
    ensures CountVotes(v[i := voter]) == CountVotes(v) + 1
  {
    var n := |v| - 1;
    if i == n {
      assert v[i := voter][..n] == v[..n];
    } else {
      CountOneMore(v[..n], i, voter);
      assert v[i := voter][..n] == v[..n][i := voter];
    }
  }

  /** A vote by a named voter: it is counted once, refused votes change nothing, and the ballot stays sane. */
  lemma VoteProposeCounts(b: BallotState, id: Id, voter: Host, i: nat)
    requires Sane(b) && i < |b.proposed| && voter != ""
    ensures
      var (b', v) := CastPropose(b, id, voter, i);
      && Sane(b')
      && (v.err == Refusal(b, id))
      && (v.voted <==> v.err.None? && b.proposed[i] == "")
      && (v.voted ==> b'.timer && b' == b.(proposed := b.proposed[i := voter], timer := true)
                      && v.votes == CountVotes(b.proposed) + 1)
      && (!v.voted ==> b' == b && (v.err.None? ==> v.votes == CountVotes(b.proposed)))
  {
    if b.proposed[i] == "" {
      CountOneMore(b.proposed, i, voter);
    }
  }

  lemma VoteCommitCounts(b: BallotState, id: Id, voter: Host, i: nat)
    requires Sane(b) && i < |b.committed| && voter != ""
    ensures
      var (b', v) := CastCommit(b, id, voter, i);
      && Sane(b')
      && (v.err == Refusal(b, id))
      && (v.voted <==> v.err.None? && b.committed[i] == "")
      && (v.voted ==> b' == b.(committed := b.committed[i := voter]) && v.votes == CountVotes(b.committed) + 1)
      && (!v.voted ==> b' == b && (v.err.None? ==> v.votes == CountVotes(b.committed)))
  {
    if b.committed[i] == "" {
      CountOneMore(b.committed, i, voter);
    }
  }

  // ---- when the append is attempted

  /** One vote reaching a ballot, in either phase. */
  datatype Event = Proposal(voter: Host, i: nat) | Commitment(voter: Host, i: nat)

  predicate Full(v: seq<Host>) {
    CountVotes(v) == |v|
  }

  /** How the node handles one vote: the tallies that make it check for a commit (Propose: any propose vote that finds
      the tally full; queueBroadcastOrCommit: a new commit vote that fills it), and the check itself. */
  function OnVote(b: BallotState, ev: Event): (BallotState, bool)
    requires ev.i < |b.proposed| == |b.committed|
  {
    match ev
    case Proposal(voter, i) =>
      var (b', v) := CastPropose(b, b.id, voter, i);
      (b', v.err.None? && v.votes != 1 && v.votes == |b.proposed|
        && CountVotes(b'.proposed) == CountVotes(b'.committed))
    case Commitment(voter, i) =>
      var (b', v) := CastCommit(b, b.id, voter, i);
      (b', v.voted && v.votes != 1 && v.votes == |b.proposed| && CountVotes(b'.proposed) == CountVotes(b'.committed))
  }

  /** The votes in order; `outcome` is the error, if any, the append attempt closes the ballot with. */
  function OnVotes(b: BallotState, evs: seq<Event>, outcome: Option<Error>): (r: (BallotState, seq<nat>))
    requires |b.proposed| == |b.committed| && forall k :: 0 <= k < |evs| ==> evs[k].i < |b.proposed|
    ensures |r.0.proposed| == |r.0.committed| == |b.proposed| && r.0.id == b.id
    decreases evs
  {
    if evs == [] then (b, [])
    else
      var n := |evs| - 1;
      var (b1, attempts) := OnVotes(b, evs[..n], outcome);
      var (b2, attempt) := OnVote(b1, evs[n]);
      if attempt then (CloseWith(b2, outcome), attempts + [n]) else (b2, attempts)
  }

  ghost predicate VotersNamed(evs: seq<Event>) {
    forall ev :: ev in evs ==> ev.voter != ""
  }

  /** Peer `i` has cast a propose vote. */
  ghost predicate Proposed(evs: seq<Event>, i: nat) {
    evs != [] && var n := |evs| - 1; (evs[n].Proposal? && evs[n].i == i) || Proposed(evs[..n], i)
  }

  /** Peer `i` has cast a commit vote. */
  ghost predicate Committed(evs: seq<Event>, i: nat) {
    evs != [] && var n := |evs| - 1; (evs[n].Commitment? && evs[n].i == i) || Committed(evs[..n], i)
  }

  /** All of `n` peers have voted in both phases. */
  ghost predicate Complete(evs: seq<Event>, n: nat) {
    forall i :: 0 <= i < n ==> Proposed(evs, i) && Committed(evs, i)
  }

  ghost predicate Tallies(b: BallotState, evs: seq<Event>)
    requires |b.proposed| == |b.committed|
  {
    forall i :: 0 <= i < |b.proposed| ==>
      (b.proposed[i] != "" <==> Proposed(evs, i)) && (b.committed[i] != "" <==> Committed(evs, i))
  }

  /** The state of a new ballot after some votes: it is open exactly while some peer's vote is missing. */
  ghost predicate Tallied(b: BallotState, evs: seq<Event>, attempts: seq<nat>) {
    && Sane(b)
    && (!b.closed ==> attempts == [] && Tallies(b, evs) && !(Full(b.proposed) && Full(b.committed)))
    && (b.closed ==>
          && |attempts| == 1 && attempts[0] < |evs|
          && Complete(evs[..attempts[0] + 1], |b.proposed|)
          && !Complete(evs[..attempts[0]], |b.proposed|))
  }

  /** Whatever the order and repetition of votes on a ballot for at least two peers that does not time out: no open
      ballot has both tallies full, and the append is attempted once, at the very vote that completes both tallies. */
  lemma {:induction false} SingleAttempt(b: BallotState, evs: seq<Event>, outcome: Option<Error>)
    requires Sane(b) && b == NewBallot(b.id, b.entry, |b.proposed|) && |b.proposed| >= 2
    requires VotersNamed(evs) && forall k :: 0 <= k < |evs| ==> evs[k].i < |b.proposed|
    ensures
      var (b', attempts) := OnVotes(b, evs, outcome);
      Tallied(b', evs, attempts)
    decreases evs
  {
    if evs == [] {
      CountBounds(b.proposed);
    } else {
      var n := |evs| - 1;
      SingleAttempt(b, evs[..n], outcome);
      var (b1, attempts) := OnVotes(b, evs[..n], outcome);
      OneMoreVote(b1, evs, attempts, outcome);
    }
  }

  lemma FullMeansComplete(b: BallotState, evs: seq<Event>)
    requires |b.proposed| == |b.committed| && Tallies(b, evs)
    ensures Full(b.proposed) && Full(b.committed) <==> Complete(evs, |b.proposed|)
  {
    CountBounds(b.proposed);
    CountBounds(b.committed);
    if Complete(evs, |b.proposed|) {
      forall i | 0 <= i < |b.proposed|
        ensures b.proposed[i] != "" && b.committed[i] != ""
      {
        assert Proposed(evs, i) && Committed(evs, i);
      }
    }
  }

  lemma TalliesGrow(b: BallotState, b': BallotState, evs: seq<Event>)
    requires evs != [] && |b.proposed| == |b.committed| && Tallies(b, evs[..|evs| - 1])
    requires
      var ev := evs[|evs| - 1];
      && ev.i < |b.proposed| && ev.voter != ""
      && b'.proposed == (if ev.Proposal? && b.proposed[ev.i] == "" then b.proposed[ev.i := ev.voter] else b.proposed)
      && b'.committed ==
         (if ev.Commitment? && b.committed[ev.i] == "" then b.committed[ev.i := ev.voter] else b.committed)
    ensures Tallies(b', evs)
  {
  }

  /** One more vote on an open ballot is tallied, and triggers the attempt just when it completes both tallies. */
  lemma OneMoreTallied(b: BallotState, evs: seq<Event>)
    requires evs != [] && evs[|evs| - 1].i < |b.proposed| == |b.committed| && |b.proposed| >= 2
    requires VotersNamed(evs) && Sane(b) && !b.closed
    requires Tallies(b, evs[..|evs| - 1]) && !(Full(b.proposed) && Full(b.committed))
    ensures
      var (b', attempt) := OnVote(b, evs[|evs| - 1]);
      && Sane(b') && !b'.closed && |b'.proposed| == |b'.committed| == |b.proposed|
      && Tallies(b', evs)
      && (attempt <==> Full(b'.proposed) && Full(b'.committed))
  {
    var ev := evs[|evs| - 1];
    var b' := OnVote(b, ev).0;
    assert ev in evs;
    VoteProposeCounts(b, b.id, ev.voter, ev.i);
    VoteCommitCounts(b, b.id, ev.voter, ev.i);
    TalliesGrow(b, b', evs);
    CountBounds(b'.proposed);
    CountBounds(b'.committed);
  }

  lemma OneMoreVote(b: BallotState, evs: seq<Event>, attempts: seq<nat>, outcome: Option<Error>)
    requires evs != [] && evs[|evs| - 1].i < |b.proposed| == |b.committed| && |b.proposed| >= 2
    requires VotersNamed(evs) && Tallied(b, evs[..|evs| - 1], attempts)
    ensures
      var n := |evs| - 1;
      var (b', attempt) := OnVote(b, evs[n]);
      Tallied(if attempt then CloseWith(b', outcome) else b', evs, if attempt then attempts + [n] else attempts)
  {
    var n, ev := |evs| - 1, evs[|evs| - 1];
    var before := evs[..n];
    if b.closed {
      assert before[..attempts[0] + 1] == evs[..attempts[0] + 1];
      assert before[..attempts[0]] == evs[..attempts[0]];
    } else {
      OneMoreTallied(b, evs);
      FullMeansComplete(b, before);
      FullMeansComplete(OnVote(b, ev).0, evs);
      assert evs[..n + 1] == evs;
    }
  }

  /** With a single peer the first propose and commit votes are taken for the ones to broadcast, so no append is ever
      attempted. */
  lemma {:induction false} SinglePeerNeverAttempts(b: BallotState, evs: seq<Event>, outcome: Option<Error>)
    requires |b.proposed| == |b.committed| == 1
    requires forall k :: 0 <= k < |evs| ==> evs[k].i == 0
    ensures OnVotes(b, evs, outcome).1 == []
    decreases evs
  {
    if evs != [] {
      SinglePeerNeverAttempts(b, evs[..|evs| - 1], outcome);
    }
  }

  // ---- the object

  method CountVotesIn(arr: array<Host>) returns (c: nat)
    ensures c == CountVotes(arr[..])
  {
    c := 0;
    for i := 0 to arr.Length
      invariant c == CountVotes(arr[..i])
    {
      assert arr[..i + 1][..i] == arr[..i];
      if arr[i] != "" {
        c := c + 1;
      }
    }
    assert arr[..arr.Length] == arr[..];
  }

  class Ballot {
    const id: Id
    const entry: Entry
    const votes: nat
    const proposed: array<Host>
    const committed: array<Host>
    var timer: bool
    var closed: bool
    var err: Option<Error>
    var signals: seq<Option<Error>>

    constructor (id: Id, entry: Entry, votes: nat)
      ensures Valid() && fresh(Repr())
      ensures State() == NewBallot(id, entry, votes)
      ensures this.id == id && this.entry == entry && this.votes == votes
    {
      this.id, this.entry, this.votes := id, entry, votes;
      var p := new Host[votes](_ => "");
      var c := new Host[votes](_ => "");
      proposed, committed := p, c;
      timer, closed, err, signals := false, false, None, [];
      new;
      assert proposed[..] == NoVotes(votes);
      assert committed[..] == NoVotes(votes);
    }

    ghost function Repr(): set<object> {
      {this, proposed, committed}
    }

    ghost predicate Valid() {
      proposed != committed && proposed.Length == committed.Length == votes
    }

    function State(): BallotState
      reads this, proposed, committed
    {
      BallotState(id, entry, proposed[..], committed[..], timer, closed, err, signals)
    }

    method Proposals() returns (c: nat)
      ensures c == CountVotes(State().proposed)
    {
      c := CountVotesIn(proposed);
    }

    method Commits() returns (c: nat)
      ensures c == CountVotes(State().committed)
    {
      c := CountVotesIn(committed);
    }

    method VotePropose(entryId: Id, voter: Host, i: nat) returns (votes: int, voted: bool, e: Option<Error>)
      requires Valid() && (Refusal(State(), entryId).None? ==> i < this.votes)
      modifies this, proposed
      ensures (State(), Vote(votes, voted, e)) == CastPropose(old(State()), entryId, voter, i)
      ensures entryId != id ==> e == Some(ErrInvalidVoteID)
      ensures entryId == id && closed ==> e == if err.Some? then err else Some(ErrBallotClosed)
      ensures e.Some? ==> votes == -1 && !voted && State() == old(State())
      ensures e.None? ==> entryId == id && !closed && votes == CountVotes(proposed[..])
      ensures e.None? ==> (voted <==> old(proposed[i]) == "")
      ensures e.None? ==> proposed[..] == if voted then old(proposed[..])[i := voter] else old(proposed[..])
      ensures timer <==> old(timer) || (voted && votes == 1)
      ensures closed == old(closed) && err == old(err) && signals == old(signals)
    {
      if id != entryId {
        return -1, false, Some(ErrInvalidVoteID);
      }
      if closed {
        return -1, false, if err.None? then Some(ErrBallotClosed) else err;
      }
      if proposed[i] == "" {
        proposed[i] := voter;
      } else {
        votes := CountVotesIn(proposed);
        return votes, false, None;
      }
      assert proposed[..] == old(proposed[..])[i := voter];
      votes := CountVotesIn(proposed);
      if votes == 1 {
        timer := true;
      }
      return votes, true, None;
    }

    method VoteCommit(entryId: Id, voter: Host, i: nat) returns (votes: int, voted: bool, e: Option<Error>)
      requires Valid() && (Refusal(State(), entryId).None? ==> i < this.votes)
      modifies committed
      ensures (State(), Vote(votes, voted, e)) == CastCommit(old(State()), entryId, voter, i)
      ensures entryId != id ==> e == Some(ErrInvalidVoteID)
      ensures entryId == id && closed ==> e == if err.Some? then err else Some(ErrBallotClosed)
      ensures e.Some? ==> votes == -1 && !voted && State() == old(State())
      ensures e.None? ==> entryId == id && !closed && votes == CountVotes(committed[..])
      ensures e.None? ==> (voted <==> old(committed[i]) == "")
      ensures e.None? ==> committed[..] == if voted then old(committed[..])[i := voter] else old(committed[..])
    {
      if id != entryId {
        return -1, false, Some(ErrInvalidVoteID);
      }
      if closed {
        return -1, false, if err.None? then Some(ErrBallotClosed) else err;
      }
      if committed[i] == "" {
        committed[i] := voter;
      } else {
        votes := CountVotesIn(committed);
        return votes, false, None;
      }
      assert committed[..] == old(committed[..])[i := voter];
      votes := CountVotesIn(committed);
      return votes, true, None;
    }

    /** Closing an open ballot stops its timer, which must have been started. */
    method Close(e: Option<Error>)
      requires !closed ==> timer
      modifies this
      ensures State() == CloseWith(old(State()), e)
      ensures closed && timer == old(timer) && proposed[..] == old(proposed[..]) && committed[..] == old(committed[..])
      ensures if old(closed) then err == old(err) && signals == old(signals)
              else err == e && signals == old(signals) + [e]
    {
      if closed {
        return;
      }
      closed := true;
      err := e;
      signals := signals + [e];
    }

    /** The timer of an open ballot fires. */
    method TimeOut()
      requires timer && !closed
      modifies this
      ensures State() == Expire(old(State()))
      ensures closed && err == old(err) && signals == old(signals) + [Some(ErrBallotTimedOut)] && timer
      ensures proposed[..] == old(proposed[..]) && committed[..] == old(committed[..])
    {
      closed := true;
      signals := signals + [Some(ErrBallotTimedOut)];
    }
  }
}
