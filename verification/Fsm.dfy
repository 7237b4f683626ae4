/** The loop that applies entries and the check after a restart, on the stores (fsm.go). */
module Fsms {
  import opened HexTypes
  import opened Chains
  import opened KeylogIndexes
  import opened StoreSpec
  import opened LogStores
  import opened Replays

  /** The replay of a key read off its index and the entry store. */
  function ReplayStore(st: StoreState, k: Key, stored: Option<Id>): seq<Entry>
    requires k in st.index && Stored(st, k)
  {
    var ids := st.index[k].ids;
    if ids != [] && stored == Some(ids[|ids| - 1]) then []
    else
      match From(ids, stored)
      case None => []
      case Some(tail) =>
        assert forall i :: 0 <= i < |tail| ==> tail[i] in ids;
        Resolve(st.entries, tail)
  }

  lemma ReplayRefines(h: Hashing, u: iset<Entry>, st: StoreState, k: Key, stored: Option<Id>)
    requires ValidStore(h, u, st) && k in st.index
    ensures Stored(st, k)
    ensures ReplayStore(st, k, stored) == Replay(h, ViewOf(h, u, st)[k].log, stored)
  {
    var ids, log := st.index[k].ids, Resolve(st.entries, st.index[k].ids);
    ResolvedIds(h, u, st, k);
    assert IdsOf(h, log) == ids;
    assert forall i :: 0 <= i < |ids| ==> ids[i] in st.entries;
    assert ViewOf(h, u, st)[k].log == log;
    hide ValidStore, ViewOf, Chain, Sound, Resolve, IdsOf;
    ReplayResolved(h, st, k, log, stored);
  }

  lemma ReplayResolved(h: Hashing, st: StoreState, k: Key, log: seq<Entry>, stored: Option<Id>)
    requires k in st.index && Stored(st, k) && forall i :: 0 <= i < |st.index[k].ids| ==>
               st.index[k].ids[i] in st.entries
    requires log == Resolve(st.entries, st.index[k].ids) && IdsOf(h, log) == st.index[k].ids
    ensures ReplayStore(st, k, stored) == Replay(h, log, stored)
  {
    var ids := st.index[k].ids;
    assert ids != [] ==> ids[|ids| - 1] == LastId(h, log);
    assert log == [] <==> ids == [];
    if From(ids, stored).Some? {
      ResolvedTail(h, st.entries, ids, stored);
    }
    hide *;
    ReplayCases(h, st, k, log, stored);
  }

  /** The tail that an iteration delivers, resolved, is the tail of the log. */
  lemma ResolvedTail(h: Hashing, entries: map<Id, Entry>, ids: seq<Id>, stored: Option<Id>)
    requires From(ids, stored).Some? && forall i :: 0 <= i < |ids| ==> ids[i] in entries
    ensures
      var tail, log := From(ids, stored).value, Resolve(entries, ids);
      && |tail| <= |log| && (forall i :: 0 <= i < |tail| ==> tail[i] in entries)
      && Resolve(entries, tail) == log[|log| - |tail|..]
  {
    FromTail(ids, stored);
    ResolveTail(entries, ids, |ids| - |From(ids, stored).value|);
    hide From, Resolve;
  }

  lemma ReplayCases(h: Hashing, st: StoreState, k: Key, log: seq<Entry>, stored: Option<Id>)
    requires k in st.index && Stored(st, k)
    requires
      var ids := st.index[k].ids;
      && (log == [] <==> ids == []) && (ids != [] ==> ids[|ids| - 1] == LastId(h, log)) && IdsOf(h, log) == ids
      && (From(ids, stored).Some? ==>
            var tail := From(ids, stored).value;
            && |tail| <= |log| && (forall i :: 0 <= i < |tail| ==> tail[i] in st.entries)
            && Resolve(st.entries, tail) == log[|log| - |tail|..])
    ensures ReplayStore(st, k, stored) == Replay(h, log, stored)
  {
    hide From, Resolve, IdsOf, LastId;
  }

  lemma FromTail(ids: seq<Id>, stored: Option<Id>)
    ensures From(ids, stored).Some? ==>
              var tail := From(ids, stored).value;
              && |tail| <= |ids| && tail == ids[|ids| - |tail|..]
              && forall i :: 0 <= i < |tail| ==> tail[i] in ids
  {
  }

  lemma ResolveTail(entries: map<Id, Entry>, ids: seq<Id>, n: nat)
    requires n <= |ids| && forall i :: 0 <= i < |ids| ==> ids[i] in entries
    ensures (forall i :: 0 <= i < |ids[n..]| ==> ids[n..][i] in entries)
    ensures Resolve(entries, ids[n..]) == Resolve(entries, ids)[n..]
  {
  }

  /** One turn of the loop in start(); `saves` says what the stable store answers, which records nothing if that is an
      error. */
  function Turn(h: Hashing, saves: (map<Key, Id>, Entry) -> Option<Error>, s: FsmState): FsmState
    requires s.queue != []
  {
    SaveGiven(h, GiveFirst(s), saves(s.stable, s.queue[0]))
  }

  /** All that waits is applied, in order. */
  function TakeAll(h: Hashing, saves: (map<Key, Id>, Entry) -> Option<Error>, s: FsmState): FsmState
    decreases |s.queue|
  {
    if s.queue == [] then s else TakeAll(h, saves, Turn(h, saves, s))
  }

  /** mergeErrors, for any two errors: both are kept. */
  function MergeErrors(a: Option<Error>, b: Option<Error>): (r: seq<Error>)
    ensures (a.Some? ==> a.value in r) && (b.Some? ==> b.value in r)
    ensures forall e :: e in r ==> a == Some(e) || b == Some(e)
  {
    (if a.Some? then [a.value] else []) + (if b.Some? then [b.value] else [])
  }

  /** What the futures of waiting entries are told: the error, if any, that the application answers with, given what it
      has been given before, and the one of the stable store. */
  function Signals(h: Hashing, answer: (seq<Entry>, Entry) -> Option<Error>,
                   saves: (map<Key, Id>, Entry) -> Option<Error>, s: FsmState)
    : seq<(Entry, seq<Error>)>
    decreases |s.queue|
  {
    if s.queue == [] then []
    else
      var e := s.queue[0];
      [(e, MergeErrors(answer(s.app, e), saves(s.stable, e)))] + Signals(h, answer, saves, Turn(h, saves, s))
  }

  lemma OneTurn(h: Hashing, answer: (seq<Entry>, Entry) -> Option<Error>,
                saves: (map<Key, Id>, Entry) -> Option<Error>, s: FsmState)
    requires s.queue != []
    ensures
      var e, s' := s.queue[0], Turn(h, saves, s);
      && TakeAll(h, saves, s) == TakeAll(h, saves, s')
      && Signals(h, answer, saves, s) ==
         [(e, MergeErrors(answer(s.app, e), saves(s.stable, e)))] + Signals(h, answer, saves, s')
  {
  }

  lemma NoTurn(h: Hashing, answer: (seq<Entry>, Entry) -> Option<Error>,
               saves: (map<Key, Id>, Entry) -> Option<Error>, s: FsmState)
    requires s.queue == []
    ensures TakeAll(h, saves, s) == s && Signals(h, answer, saves, s) == []
  {
  }

  /** The state after `i` turns of the loop. */
  function AfterTurns(h: Hashing, saves: (map<Key, Id>, Entry) -> Option<Error>, s: FsmState, i: nat): (s': FsmState)
    requires i <= |s.queue|
    ensures s'.app == s.app + s.queue[..i] && s'.queue == s.queue[i..]
    decreases i
  {
    if i == 0 then s else Turn(h, saves, AfterTurns(h, saves, s, i - 1))
  }

  lemma {:induction false} TurnFirst(h: Hashing, saves: (map<Key, Id>, Entry) -> Option<Error>, s: FsmState, i: nat)
    requires i < |s.queue|
    ensures AfterTurns(h, saves, Turn(h, saves, s), i) == AfterTurns(h, saves, s, i + 1)
    decreases i
  {
    if i > 0 {
      TurnFirst(h, saves, s, i - 1);
    } else {
      assert AfterTurns(h, saves, s, 0) == s;
    }
  }

  lemma {:induction false} SignalsAt(h: Hashing, answer: (seq<Entry>, Entry) -> Option<Error>,
                                     saves: (map<Key, Id>, Entry) -> Option<Error>, s: FsmState, i: nat)
    requires i < |s.queue|
    ensures |Signals(h, answer, saves, s)| == |s.queue|
    ensures
      var e, s' := s.queue[i], AfterTurns(h, saves, s, i);
      Signals(h, answer, saves, s)[i] == (e, MergeErrors(answer(s'.app, e), saves(s'.stable, e)))
    decreases |s.queue|
  {
    var s' := Turn(h, saves, s);
    hide MergeErrors, SaveGiven;
    if i > 0 {
      TurnFirst(h, saves, s, i - 1);
      SignalsAt(h, answer, saves, s', i - 1);
    } else if |s.queue| > 1 {
      SignalsAt(h, answer, saves, s', 0);
    } else {
      assert Signals(h, answer, saves, s') == [];
    }
  }

  /** The future of the `i`-th waiting entry is told of that entry, with the error of the application, if it answers
      with one, and with the error of the stable store, if that fails; with none just if neither does. */
  lemma SignalsTell(h: Hashing, answer: (seq<Entry>, Entry) -> Option<Error>,
                    saves: (map<Key, Id>, Entry) -> Option<Error>, s: FsmState, i: nat)
    requires i < |s.queue|
    ensures |Signals(h, answer, saves, s)| == |s.queue|
    ensures
      var (e, errs) := Signals(h, answer, saves, s)[i];
      var e1, e2 := answer(s.app + s.queue[..i], e), saves(AfterTurns(h, saves, s, i).stable, e);
      && e == s.queue[i]
      && (e1.Some? ==> e1.value in errs) && (e2.Some? ==> e2.value in errs)
      && (errs == [] <==> e1.None? && e2.None?) && (forall x :: x in errs ==> e1 == Some(x) || e2 == Some(x))
  {
    SignalsAt(h, answer, saves, s, i);
    hide Signals, AfterTurns;
  }

  /** What the check queues of key `k`, `rest` not being looked at yet. */
  function DueOf(h: Hashing, log: View, ss: map<Key, Id>, rest: set<Key>, k: Key): seq<Entry> {
    if k in log && k !in rest then Replay(h, log[k].log, Get(ss, k)) else []
  }

  lemma DueOneMore(h: Hashing, log: View, ss: map<Key, Id>, rest: set<Key>, key: Key, first: seq<Entry>,
                   queued: seq<Entry>, queued': seq<Entry>)
    requires key in log && key in rest
    requires forall k :: Of(queued, k) == Of(first, k) + DueOf(h, log, ss, rest, k)
    requires forall k :: Of(queued', k) == Of(queued, k) + if k == key then Replay(h, log[k].log, Get(ss, k)) else []
    ensures forall k :: Of(queued', k) == Of(first, k) + DueOf(h, log, ss, rest - {key}, k)
  {
    hide Of, Replay, Get;
    forall k
      ensures Of(queued', k) == Of(first, k) + DueOf(h, log, ss, rest - {key}, k)
    {
      assert Of(queued, k) == Of(first, k) + DueOf(h, log, ss, rest, k);
      if k != key {
        assert Of(queued, k) + [] == Of(queued, k);
      } else {
        assert Of(first, k) + [] == Of(first, k);
      }
    }
  }

  class Fsm {
    const ls: LogStore
    /** The stable store. */
    var ss: map<Key, Id>
    var applyCh: seq<Entry>
    /** What the application's state machine has been given. */
    var app: seq<Entry>
    /** The application: whether it answers to an entry with an error. */
    const answer: (seq<Entry>, Entry) -> Option<Error>
    /** The stable store: whether it fails to record an entry's id. */
    const saves: (map<Key, Id>, Entry) -> Option<Error>
    /** The futures that have been told that their entry is applied, and with which errors. */
    var signals: seq<(Entry, seq<Error>)>

    constructor (ls: LogStore, ss: map<Key, Id>, app: seq<Entry>, answer: (seq<Entry>, Entry) -> Option<Error>,
                 saves: (map<Key, Id>, Entry) -> Option<Error>)
      ensures this.ls == ls && this.ss == ss && this.app == app && applyCh == []
      ensures this.answer == answer && this.saves == saves && signals == []
    {
      this.ls, this.ss, this.app, this.answer, this.saves := ls, ss, app, answer, saves;
      applyCh, signals := [], [];
    }

    function State(log: View): FsmState
      reads this
    {
      FsmState(log, ss, app, applyCh, None, {})
    }

    method Apply(e: Entry)
      modifies this`applyCh
      ensures applyCh == old(applyCh) + [e]
    {
      applyCh := applyCh + [e];
    }

    /** The loop of start(), until the queue is drained. */
    method Start(ghost log: View)
      modifies this
      ensures applyCh == []
      ensures State(log) == TakeAll(ls.h, saves, old(State(log)))
      ensures signals == old(signals) + Signals(ls.h, answer, saves, old(State(log)))
    {
      hide TakeAll, Signals, MergeErrors;
      while applyCh != []
        invariant TakeAll(ls.h, saves, State(log)) == TakeAll(ls.h, saves, old(State(log)))
        invariant signals + Signals(ls.h, answer, saves, State(log))
                  == old(signals) + Signals(ls.h, answer, saves, old(State(log)))
        decreases |applyCh|
      {
        ghost var s := State(log);
        OneTurn(ls.h, answer, saves, s);
        var entry := applyCh[0];
        applyCh := applyCh[1..];
        var e1 := answer(app, entry);
        app := app + [entry];
        var e2 := saves(ss, entry);
        if e2.None? {
          ss := ss[entry.key := ls.h.hash(entry)];
        }
        ghost var before := signals;
        signals := signals + [(entry, MergeErrors(e1, e2))];
        assert State(log) == Turn(ls.h, saves, s);
        assert signals + Signals(ls.h, answer, saves, State(log)) == before + Signals(ls.h, answer, saves, s);
      }
      NoTurn(ls.h, answer, saves, State(log));
    }

    /** What the check does with the ids it iterates over: an id without a stored entry is passed over. */
    method ApplyIds(ids: seq<Id>)
      requires forall i :: 0 <= i < |ids| ==> ids[i] in ls.entries.m
      modifies this`applyCh
      ensures applyCh == old(applyCh) + Resolve(ls.entries.m, ids)
    {
      for i := 0 to |ids|
        invariant applyCh == old(applyCh) + Resolve(ls.entries.m, ids[..i])
      {
        var ent := ls.entries.Get(ids[i]);
        if ent.Some? {
          ResolveAppend(ls.entries.m, ids[..i], ids[i]);
          assert ids[..i + 1] == ids[..i] + [ids[i]];
          Apply(ent.value);
        }
      }
      assert ids[..|ids|] == ids;
    }

    method CheckIndex(key: Key, ki: UnsafeKeylogIndex)
      requires ls.index.Valid() && key in ls.index.m && ls.index.m[key] == ki && Stored(ls.State(), key)
      modifies this`applyCh
      ensures applyCh == old(applyCh) + ReplayStore(ls.State(), key, Get(ss, key))
    {
      assert ls.State().index[key] == ki.State() && ls.State().entries == ls.entries.m;
      var last := ki.Last();
      var seek := Get(ss, key);
      if seek.Some? && seek == (if last.None? then Some(Id([])) else last) {
        return;
      }
      var err, ids := ki.Iter(seek, id => None);
      assert forall i :: 0 <= i < |ids| ==> ids[i] in ki.entries;
      ApplyIds(ids);
    }

    method CheckLog(key: Key)
      requires ls.Valid() && key in ls.index.m
      modifies this`applyCh
      ensures forall k :: Of(applyCh, k) == Of(old(applyCh), k)
                          + if k == key then Replay(ls.h, ls.View()[k].log, Get(ss, k)) else []
    {
      ghost var queued := applyCh;
      ReplayRefines(ls.h, ls.u, ls.State(), key, Get(ss, key));
      CheckIndex(key, ls.index.m[key]);
      assert Chain(ls.h, ls.u, key, ls.View()[key].log);
      hide ValidStore, ViewOf, Of, Replay, Chain;
      forall k
        ensures Of(applyCh, k) == Of(queued, k) + if k == key then Replay(ls.h, ls.View()[k].log, Get(ss, k)) else []
      {
        QueuedByCheck(ls.h, ls.u, key, ls.View()[key].log, Get(ss, key), queued, k);
      }
    }

    /** check(): every key is looked at once. */
    method Check()
      requires ls.Valid()
      modifies this`applyCh
      ensures forall k :: Of(applyCh, k) == Of(old(applyCh), k) + DueOf(ls.h, ls.View(), ss, {}, k)
    {
      hide *;
      ghost var log := ls.View();
      var rest := ls.index.m.Keys;
      NothingDue(ls.h, log, ss, applyCh);
      while rest != {}
        invariant rest <= log.Keys
        invariant forall k :: Of(applyCh, k) == Of(old(applyCh), k) + DueOf(ls.h, log, ss, rest, k)
        decreases |rest|
      {
        var key :| key in rest;
        ghost var queued := applyCh;
        CheckLog(key);
        DueOneMore(ls.h, log, ss, rest, key, old(applyCh), queued, applyCh);
        rest := rest - {key};
      }
    }

    method Recheck()
      requires ls.Valid() && FsmOk(ls.h, ls.u, Crashed(State(ls.View())))
      modifies this`applyCh
      ensures ls.Valid() && Sound(ls.h, ls.u) && FsmOk(ls.h, ls.u, State(ls.View()))
      ensures forall k :: Prompt(ls.h, At(State(ls.View()), k))
    {
      hide FsmOk, Of, DueOf, Replay, ValidStore, ViewOf, Get, Prompt;
      ghost var log := ls.View();
      ghost var crashed := Crashed(State(log));
      applyCh := [];
      Check();
      SoundStore(ls.h, ls.u, ls.State());
      DueAll(ls.h, log, ss, applyCh);
      CheckedAll(ls.h, ls.u, crashed, State(log));
    }

    /** A restart, on the log and the stable store as a crash left them: afterwards every key's log has been given to
        the application, repeats aside, and its last id is stored, if the stable store does not fail. */
    method Restart()
      requires ls.Valid() && FsmOk(ls.h, ls.u, Crashed(State(ls.View())))
      modifies this
      ensures applyCh == [] && ls.Valid() && ls.View() == old(ls.View())
      ensures forall k :: Firsts(Of(app, k)) == LogOf(ls.View(), k)
      ensures NeverFails(saves) ==>
                forall k :: Get(ss, k) == if LogOf(ls.View(), k) == [] then None
                                          else Some(LastId(ls.h, LogOf(ls.View(), k)))
    {
      hide FsmOk, Of, Firsts, TakeAll, ValidStore, ViewOf, LogOf, Get, Prompt, NeverFails;
      ghost var log := ls.View();
      Recheck();
      TakenAll(ls.h, ls.u, saves, State(log));
      Start(log);
    }
  }

  ghost predicate NeverFails(saves: (map<Key, Id>, Entry) -> Option<Error>) {
    forall stable, e :: saves(stable, e).None?
  }

  lemma SoundStore(h: Hashing, u: iset<Entry>, st: StoreState)
    requires ValidStore(h, u, st)
    ensures Sound(h, u)
  {
  }

  lemma NothingDue(h: Hashing, log: View, ss: map<Key, Id>, queued: seq<Entry>)
    ensures forall k :: Of(queued, k) == Of(queued, k) + DueOf(h, log, ss, log.Keys, k)
  {
  }

  lemma DueAll(h: Hashing, log: View, ss: map<Key, Id>, queued: seq<Entry>)
    requires forall k :: Of(queued, k) == Of([], k) + DueOf(h, log, ss, {}, k)
    ensures forall k :: Of(queued, k) == if k in log then Replay(h, log[k].log, Get(ss, k)) else []
  {
    forall k
      ensures Of(queued, k) == if k in log then Replay(h, log[k].log, Get(ss, k)) else []
    {
      assert Of([], k) == [];
      assert [] + DueOf(h, log, ss, {}, k) == DueOf(h, log, ss, {}, k);
    }
  }

  /** The check as a whole, whatever order it takes the keys in. */
  lemma CheckedAll(h: Hashing, u: iset<Entry>, s: FsmState, s': FsmState)
    requires Sound(h, u) && FsmOk(h, u, s) && s.queue == [] && s.giving.None? && s.pending == s.log.Keys
    requires s' == s.(queue := s'.queue, pending := {})
    requires forall k :: Of(s'.queue, k) == if k in s.log then Replay(h, s.log[k].log, Get(s.stable, k)) else []
    ensures FsmOk(h, u, s') && forall k :: Prompt(h, At(s', k))
  {
    forall k
      ensures KeyOk(h, At(s', k)) && Prompt(h, At(s', k))
    {
      CheckedOne(h, u, s, s', k);
    }
    hide KeyOk, Prompt, At;
  }

  lemma CheckedOne(h: Hashing, u: iset<Entry>, s: FsmState, s': FsmState, k: Key)
    requires Sound(h, u) && FsmOk(h, u, s) && s.queue == [] && s.giving.None? && s.pending == s.log.Keys
    requires s' == s.(queue := s'.queue, pending := {})
    requires Of(s'.queue, k) == if k in s.log then Replay(h, s.log[k].log, Get(s.stable, k)) else []
    ensures KeyOk(h, At(s', k)) && Prompt(h, At(s', k))
  {
    var v := At(s, k);
    assert KeyOk(h, v) && Chain(h, u, k, v.log);
    assert k in s.log ==> At(s', k) == Replays.CheckKey(h, v);
    NothingOf(k);
    hide Of, Replay, Chain, Sound, Firsts, Saved, FsmOk;
    if k in s.log {
      CheckKeeps(h, u, k, v);
      hide KeyOk;
    } else {
      assert At(s', k) == v;
    }
  }

  /** Nothing waits, and all is recorded. */
  lemma AllTaken(h: Hashing, s: FsmState, k: Key)
    requires KeyOk(h, At(s, k)) && s.queue == [] && k !in s.pending
    ensures Firsts(Of(s.app, k)) == LogOf(s.log, k)
    ensures s.giving.None? && Prompt(h, At(s, k)) ==>
              Get(s.stable, k) == if LogOf(s.log, k) == [] then None else Some(LastId(h, LogOf(s.log, k)))
  {
    NothingOf(k);
    DrainedKey(h, At(s, k));
    hide Of, Firsts, Saved, KeyOk, LastId;
  }

  lemma TurnKeeps(h: Hashing, u: iset<Entry>, saves: (map<Key, Id>, Entry) -> Option<Error>, s: FsmState)
    requires Sound(h, u) && FsmOk(h, u, s) && s.queue != [] && s.giving.None?
    ensures FsmOk(h, u, Turn(h, saves, s))
    ensures NeverFails(saves) && (forall k :: Prompt(h, At(s, k))) ==> forall k :: Prompt(h, At(Turn(h, saves, s), k))
  {
    var s1, err := GiveFirst(s), saves(s.stable, s.queue[0]);
    StepKeeps(h, u, s, Give);
    StepKeeps(h, u, s1, Save(err));
    forall k
      ensures Prompt(h, At(s, k)) && err.None? ==> Prompt(h, At(Turn(h, saves, s), k))
    {
      KeyStepFacts(h, At(s, k), Give, At(s1, k));
      KeyStepFacts(h, At(s1, k), Save(err), At(Turn(h, saves, s), k));
    }
    hide KeyStep, FsmOk, Prompt, At;
  }

  lemma {:induction false} TakingKeeps(h: Hashing, u: iset<Entry>, saves: (map<Key, Id>, Entry) -> Option<Error>,
                                       s: FsmState)
    requires Sound(h, u) && FsmOk(h, u, s) && s.giving.None?
    ensures
      var s' := TakeAll(h, saves, s);
      && FsmOk(h, u, s') && s' == s.(app := s'.app, stable := s'.stable, queue := [])
      && (NeverFails(saves) && (forall k :: Prompt(h, At(s, k))) ==> forall k :: Prompt(h, At(s', k)))
    decreases |s.queue|
  {
    hide FsmOk, Prompt, At, NeverFails, Sound;
    if s.queue != [] {
      TurnKeeps(h, u, saves, s);
      TakingKeeps(h, u, saves, Turn(h, saves, s));
    }
  }

  lemma TakenAll(h: Hashing, u: iset<Entry>, saves: (map<Key, Id>, Entry) -> Option<Error>, s: FsmState)
    requires Sound(h, u) && FsmOk(h, u, s) && s.pending == {} && s.giving.None? && forall k :: Prompt(h, At(s, k))
    ensures
      var s' := TakeAll(h, saves, s);
      && (forall k :: Firsts(Of(s'.app, k)) == LogOf(s.log, k))
      && (NeverFails(saves) ==>
            forall k :: Get(s'.stable, k) == if LogOf(s.log, k) == [] then None else Some(LastId(h, LogOf(s.log, k))))
  {
    TakingKeeps(h, u, saves, s);
    var s' := TakeAll(h, saves, s);
    assert forall k :: KeyOk(h, At(s', k));
    hide FsmOk, Prompt, At, KeyOk, Of, Firsts, Get, LogOf, NeverFails, TakeAll;
    forall k
      ensures Firsts(Of(s'.app, k)) == LogOf(s.log, k)
      ensures NeverFails(saves) ==>
                Get(s'.stable, k) == if LogOf(s.log, k) == [] then None else Some(LastId(h, LogOf(s.log, k)))
    {
      AllTaken(h, s', k);
    }
  }
}
