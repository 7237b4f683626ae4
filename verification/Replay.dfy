/** Applying entries to the application's state machine, and replaying them after a restart (fsm.go). The log and the
    stable store survive a crash; the queue of entries to apply does not. */
module Replays {
  import opened HexTypes
  import opened Chains
  import opened KeylogIndexes
  import opened StoreSpec

  /** `app` is everything the application's state machine was given so far, over all restarts; `queue` the entries
      waiting for it; `giving` the entry it was given last, until its id is put into the stable store; `pending` the
      keys that the check after a restart has still to look at. */
  datatype FsmState = FsmState(log: View, stable: map<Key, Id>, app: seq<Entry>, queue: seq<Entry>,
                               giving: Option<Entry>, pending: set<Key>)

  datatype Step =
    | Create(key: Key)           // a key gets an empty log
    | Commit(entry: Entry)       // an entry is appended to the log and queued
    | Give                       // the first entry of the queue is given to the application
    | Save(err: Option<Error>)   // its id is stored, or the stable store fails
    | Crash                      // and restart: the check begins
    | Check(key: Key)            // the check looks at one key

  function Get(stable: map<Key, Id>, k: Key): Option<Id> {
    if k in stable then Some(stable[k]) else None
  }

  /** The entries of a key that the check queues: none if the stored id is the last one, else all from the stored one
      on, it included. */
  function Replay(h: Hashing, log: seq<Entry>, stored: Option<Id>): seq<Entry> {
    if log != [] && stored == Some(LastId(h, log)) then []
    else
      match From(IdsOf(h, log), stored)
      case None => []
      case Some(ids) => log[|log| - |ids|..]
  }

  /** Nothing is appended before the check is through. */
  ghost predicate CanStep(h: Hashing, u: iset<Entry>, s: FsmState, l: Step) {
    match l
    case Create(k) => s.pending == {} && k !in s.log
    case Commit(e) => s.pending == {} && e in u && AppendView(h, s.log, e).1.None?
    case Give => s.queue != [] && s.giving.None?
    case Save(_) => s.giving.Some?
    case Crash => true
    case Check(k) => k in s.pending && k in s.log
  }

  /** The first half of a turn of the loop in start(): the entry is given to the application, whatever it answers. */
  function GiveFirst(s: FsmState): FsmState
    requires s.queue != []
  {
    s.(app := s.app + [s.queue[0]], giving := Some(s.queue[0]), queue := s.queue[1..])
  }

  /** The second half: the entry is recorded as the last one of its key, unless the stable store reports an error. */
  function SaveGiven(h: Hashing, s: FsmState, err: Option<Error>): FsmState
    requires s.giving.Some?
  {
    var e := s.giving.value;
    s.(giving := None, stable := if err.None? then s.stable[e.key := h.hash(e)] else s.stable)
  }

  function Crashed(s: FsmState): FsmState {
    s.(queue := [], giving := None, pending := s.log.Keys)
  }

  function Checked(h: Hashing, s: FsmState, k: Key): FsmState
    requires k in s.log
  {
    s.(queue := s.queue + Replay(h, s.log[k].log, Get(s.stable, k)), pending := s.pending - {k})
  }

  ghost function DoStep(h: Hashing, u: iset<Entry>, s: FsmState, l: Step): FsmState
    requires CanStep(h, u, s, l)
  {
    match l
    case Create(k) => s.(log := s.log[k := Keyed([], None)])
    case Commit(e) => s.(log := AppendView(h, s.log, e).0, queue := s.queue + [e])
    case Give => GiveFirst(s)
    case Save(err) => SaveGiven(h, s, err)
    case Crash => Crashed(s)
    case Check(k) => Checked(h, s, k)
  }

  function NewFsm(): FsmState {
    FsmState(map[], map[], [], [], None, {})
  }

  ghost predicate FsmRun(h: Hashing, u: iset<Entry>, states: seq<FsmState>, steps: seq<Step>) {
    && |states| == |steps| + 1
    && states[0] == NewFsm()
    && (forall i :: 0 <= i < |steps| ==> CanStep(h, u, states[i], steps[i]))
    && (forall i :: 0 <= i < |steps| ==> states[i + 1] == DoStep(h, u, states[i], steps[i]))
  }

  // ---- one key at a time

  /** The entries of key `k`, in order. */
  function Of(es: seq<Entry>, k: Key): (r: seq<Entry>)
    ensures forall e :: e in r ==> e.key == k
    decreases es
  {
    if es == [] then []
    else Of(es[..|es| - 1], k) + if es[|es| - 1].key == k then [es[|es| - 1]] else []
  }

  lemma OfOneMore(es: seq<Entry>, e: Entry, k: Key)
    ensures Of(es + [e], k) == Of(es, k) + if e.key == k then [e] else []
  {
    assert (es + [e])[..|es|] == es;
  }

  lemma {:induction false} OfSum(a: seq<Entry>, b: seq<Entry>, k: Key)
    ensures Of(a + b, k) == Of(a, k) + Of(b, k)
    decreases b
  {
    if b == [] {
      assert a + b == a;
    } else {
      var n := |b| - 1;
      OfSum(a, b[..n], k);
      assert a + b == (a + b[..n]) + [b[n]] && b == b[..n] + [b[n]];
      OfOneMore(a + b[..n], b[n], k);
      OfOneMore(b[..n], b[n], k);
    }
  }

  lemma {:induction false} OfAll(es: seq<Entry>, k: Key, k': Key)
    requires forall e :: e in es ==> e.key == k
    ensures Of(es, k') == if k == k' then es else []
    decreases es
  {
    if es != [] {
      OfAll(es[..|es| - 1], k, k');
      assert es == es[..|es| - 1] + [es[|es| - 1]];
    }
  }

  lemma OfFirst(es: seq<Entry>, k: Key)
    requires es != []
    ensures Of(es, k) == (if es[0].key == k then [es[0]] else []) + Of(es[1..], k)
  {
    assert es == [es[0]] + es[1..];
    OfSum([es[0]], es[1..], k);
    assert [es[0]][..0] == [];
  }

  lemma NoneOf(es: seq<Entry>, k: Key)
    requires forall e :: e in es ==> e.key != k
    ensures Of(es, k) == []
    decreases es
  {
    if es != [] {
      NoneOf(es[..|es| - 1], k);
    }
  }

  /** Later repeats removed. */
  function Firsts(es: seq<Entry>): (r: seq<Entry>)
    ensures |r| <= |es|
    decreases es
  {
    if es == [] then []
    else
      var n := |es| - 1;
      if es[n] in es[..n] then Firsts(es[..n]) else Firsts(es[..n]) + [es[n]]
  }

  lemma FirstsOneMore(es: seq<Entry>, e: Entry)
    ensures Firsts(es + [e]) == if e in es then Firsts(es) else Firsts(es) + [e]
  {
    assert (es + [e])[..|es|] == es;
  }

  lemma {:induction false} SameElements(es: seq<Entry>)
    ensures forall e :: e in Firsts(es) <==> e in es
    decreases es
  {
    if es != [] {
      var n := |es| - 1;
      SameElements(es[..n]);
      assert es == es[..n] + [es[n]];
    }
  }

  /** Adjacent repeats removed. */
  function Dedup(es: seq<Entry>): (r: seq<Entry>)
    ensures |r| <= |es| && (r == [] <==> es == [])
    decreases es
  {
    if es == [] then []
    else
      var n := |es| - 1;
      if n > 0 && es[n] == es[n - 1] then Dedup(es[..n]) else Dedup(es[..n]) + [es[n]]
  }

  lemma DedupOneMore(es: seq<Entry>, e: Entry)
    ensures Dedup(es + [e]) == if es != [] && es[|es| - 1] == e then Dedup(es) else Dedup(es) + [e]
  {
    assert (es + [e])[..|es|] == es;
  }

  // ---- how one key stands

  /** What the state is for one key: its log, the stored id, what was given, what is given and not stored yet, what is
      waiting, and whether the check has yet to look at the key. */
  datatype KeyView = KeyView(log: seq<Entry>, stored: Option<Id>, given: seq<Entry>, giving: Option<Entry>,
                             queued: seq<Entry>, pending: bool)

  function At(s: FsmState, k: Key): KeyView {
    KeyView(LogOf(s.log, k), Get(s.stable, k), Of(s.app, k),
            if s.giving.Some? && s.giving.value.key == k then s.giving else None, Of(s.queue, k), k in s.pending)
  }

  /** How much of the log the stored id stands for. */
  function Saved(h: Hashing, log: seq<Entry>, stored: Option<Id>): (c: nat)
    ensures c <= |log| && (0 < c ==> stored == Some(h.hash(log[c - 1])))
    decreases log
  {
    if log == [] then 0
    else if stored == Some(h.hash(log[|log| - 1])) then |log|
    else Saved(h, log[..|log| - 1], stored)
  }

  /** The position of the entry that is given next; at the end of the log there is none. */
  function Due(v: KeyView): int {
    |v.log| - |v.queued|
  }

  /** What was given is, later repeats removed, a part of the log from its start, up to the stored id at least; what
      waits takes it to the end of the log, and starts with the stored entry at the earliest; unless the check has yet
      to see to that. */
  ghost predicate KeyOk(h: Hashing, v: KeyView) {
    var c, m := Saved(h, v.log, v.stored), |Firsts(v.given)|;
    && c <= m <= |v.log| && Firsts(v.given) == v.log[..m] && (v.stored.Some? ==> 0 < c)
    && if v.pending then v.queued == [] && v.giving.None?
       else
         && 0 <= Due(v) <= m && c - 1 <= Due(v) && v.queued == v.log[Due(v)..]
         && (v.giving.Some? ==> 0 < Due(v) && c <= Due(v) && v.giving.value == v.log[Due(v) - 1])
  }

  /** How many entries a crash makes be given once more: those given and not recorded, and the recorded one. */
  function Rewind(h: Hashing, v: KeyView): nat {
    var c := Saved(h, v.log, v.stored);
    var from := if c == 0 then 0 else c - 1;
    if v.pending || Due(v) < from then 0 else Due(v) - from
  }

  /** How often entries were given again, counting those that are waiting to be. */
  function Again(h: Hashing, v: KeyView): int {
    var c := Saved(h, v.log, v.stored);
    |v.given| - if !v.pending then Due(v) else if c == 0 then 0 else c - 1
  }

  /** Some entry was given, and is not recorded: it was given just now, or the stable store has failed. */
  predicate Behind(h: Hashing, v: KeyView) {
    !v.pending && Due(v) > Saved(h, v.log, v.stored)
  }

  lemma {:induction false} SavedAt(h: Hashing, u: iset<Entry>, k: Key, log: seq<Entry>, i: nat)
    requires Sound(h, u) && Chain(h, u, k, log) && i < |log|
    ensures Saved(h, log, Some(h.hash(log[i]))) == i + 1
    decreases log
  {
    var n := |log| - 1;
    NoRepeats(h, u, k, log);
    if i < n {
      ChainPrefix(h, u, k, log, n);
      SavedAt(h, u, k, log[..n], i);
    }
  }

  lemma SavedStays(h: Hashing, u: iset<Entry>, k: Key, log: seq<Entry>, e: Entry, stored: Option<Id>)
    requires Sound(h, u) && Chain(h, u, k, log + [e]) && (stored.Some? ==> 0 < Saved(h, log, stored))
    ensures Saved(h, log + [e], stored) == Saved(h, log, stored)
  {
    var log', c := log + [e], Saved(h, log, stored);
    assert log'[..|log|] == log;
    NoRepeats(h, u, k, log');
    assert 0 < c ==> log'[c - 1] == log[c - 1];
  }

  // ---- what the steps do to it

  function GiveKey(v: KeyView): KeyView
    requires v.queued != []
  {
    v.(given := v.given + [v.queued[0]], giving := Some(v.queued[0]), queued := v.queued[1..])
  }

  function SaveKey(h: Hashing, v: KeyView, err: Option<Error>): KeyView
    requires v.giving.Some?
  {
    v.(giving := None, stored := if err.None? then Some(h.hash(v.giving.value)) else v.stored)
  }

  function CommitKey(v: KeyView, e: Entry): KeyView {
    v.(log := v.log + [e], queued := v.queued + [e])
  }

  function CrashKey(v: KeyView, known: bool): KeyView {
    v.(giving := None, queued := [], pending := known)
  }

  function CheckKey(h: Hashing, v: KeyView): KeyView {
    v.(queued := Replay(h, v.log, v.stored), pending := false)
  }

  /** The next entry is new just if all before it were given. */
  lemma NextIsNew(h: Hashing, u: iset<Entry>, k: Key, v: KeyView)
    requires Sound(h, u) && Chain(h, u, k, v.log) && KeyOk(h, v) && !v.pending && v.queued != []
    ensures v.queued[0] == v.log[Due(v)]
    ensures v.queued[0] in v.given <==> Due(v) < |Firsts(v.given)|
  {
    var m := |Firsts(v.given)|;
    SameElements(v.given);
    NoRepeats(h, u, k, v.log);
    if Due(v) < m {
      assert v.log[Due(v)] == Firsts(v.given)[Due(v)];
    }
  }

  /** What has been given once the next entry is given as well. */
  lemma FirstsAfter(h: Hashing, u: iset<Entry>, k: Key, v: KeyView)
    requires Sound(h, u) && Chain(h, u, k, v.log) && KeyOk(h, v) && !v.pending && v.queued != []
    ensures
      var w, m := Due(v), |Firsts(v.given)|;
      && w < |v.log| && v.queued[0] == v.log[w] && v.queued[1..] == v.log[w + 1..]
      && Firsts(v.given + [v.queued[0]]) == v.log[..if w < m then m else w + 1]
  {
    var w, m := Due(v), |Firsts(v.given)|;
    NextIsNew(h, u, k, v);
    FirstsOneMore(v.given, v.queued[0]);
    hide Firsts, Saved, Chain, Sound, Dedup;
    if w == m {
      assert v.log[..m] + [v.log[m]] == v.log[..m + 1];
    }
  }

  lemma GiveKeeps(h: Hashing, u: iset<Entry>, k: Key, v: KeyView)
    requires Sound(h, u) && Chain(h, u, k, v.log) && KeyOk(h, v) && !v.pending && v.queued != [] && v.giving.None?
    ensures KeyOk(h, GiveKey(v)) && Again(h, GiveKey(v)) == Again(h, v)
  {
    FirstsAfter(h, u, k, v);
    hide Firsts, Saved, Chain, Sound, Dedup;
  }

  lemma SaveKeeps(h: Hashing, u: iset<Entry>, k: Key, v: KeyView, err: Option<Error>)
    requires Sound(h, u) && Chain(h, u, k, v.log) && KeyOk(h, v) && v.giving.Some?
    ensures KeyOk(h, SaveKey(h, v, err)) && Again(h, SaveKey(h, v, err)) == Again(h, v)
    ensures err.None? ==> Saved(h, v.log, SaveKey(h, v, err).stored) == Due(v)
  {
    SavedAt(h, u, k, v.log, Due(v) - 1);
    var v' := SaveKey(h, v, err);
    assert Saved(h, v.log, v'.stored) == if err.None? then Due(v) else Saved(h, v.log, v.stored);
    assert v' == v.(giving := None, stored := v'.stored) && Due(v') == Due(v);
    hide Firsts, Chain, Sound, Saved, SaveKey, Due;
  }

  lemma CommitKeeps(h: Hashing, u: iset<Entry>, k: Key, v: KeyView, e: Entry)
    requires Sound(h, u) && Chain(h, u, k, v.log + [e]) && KeyOk(h, v) && !v.pending
    ensures KeyOk(h, CommitKey(v, e)) && Again(h, CommitKey(v, e)) == Again(h, v)
    ensures Saved(h, v.log + [e], v.stored) == Saved(h, v.log, v.stored) && Due(CommitKey(v, e)) == Due(v)
  {
    SavedStays(h, u, k, v.log, e, v.stored);
    var m := |Firsts(v.given)|;
    var v' := CommitKey(v, e);
    assert v' == v.(log := v.log + [e], queued := v.queued + [e]) && Due(v') == Due(v);
    hide Saved, Firsts, Chain, Sound, CommitKey;
    assert (v.log + [e])[..m] == v.log[..m] && (v.log + [e])[Due(v)..] == v.log[Due(v)..] + [e];
  }

  lemma CrashKeeps(h: Hashing, v: KeyView, known: bool)
    requires KeyOk(h, v) && (v.log != [] ==> known)
    ensures KeyOk(h, CrashKey(v, known)) && Again(h, CrashKey(v, known)) <= Again(h, v) + Rewind(h, v)
  {
  }

  /** Where the check makes the application go on. */
  lemma ReplayFrom(h: Hashing, u: iset<Entry>, k: Key, v: KeyView)
    requires Sound(h, u) && Chain(h, u, k, v.log) && (v.stored.Some? ==> 0 < Saved(h, v.log, v.stored))
    ensures
      var c := Saved(h, v.log, v.stored);
      Replay(h, v.log, v.stored) == if c == 0 then v.log else if c == |v.log| then [] else v.log[c - 1..]
  {
    var c := Saved(h, v.log, v.stored);
    NoRepeats(h, u, k, v.log);
    if c > 0 {
      var ids := IdsOf(h, v.log);
      assert ids[c - 1] == v.stored.value;
      FirstUnique(ids, v.stored.value, c - 1);
    } else {
      assert v.log[0..] == v.log;
    }
  }

  lemma CheckKeeps(h: Hashing, u: iset<Entry>, k: Key, v: KeyView)
    requires Sound(h, u) && Chain(h, u, k, v.log) && KeyOk(h, v) && v.pending
    ensures KeyOk(h, CheckKey(h, v)) && Again(h, CheckKey(h, v)) <= Again(h, v)
    ensures
      var c := Saved(h, v.log, v.stored);
      Due(CheckKey(h, v)) == if c == 0 || c == |v.log| then c else c - 1
  {
    ReplayFrom(h, u, k, v);
    assert v.log[0..] == v.log;
  }

  // ---- while the stable store does not fail, and no crash comes between giving and storing

  /** Every entry given is recorded, but for the one that is being given. */
  predicate Prompt(h: Hashing, v: KeyView) {
    !v.pending ==> Due(v) <= Saved(h, v.log, v.stored) + if v.giving.Some? then 1 else 0
  }

  /** Repeats are adjacent: only the recorded entry is given again, right after itself. */
  ghost predicate Neat(h: Hashing, v: KeyView) {
    var c, m := Saved(h, v.log, v.stored), |Firsts(v.given)|;
    && m <= |v.log| && Dedup(v.given) == v.log[..m]
    && (v.given != [] ==> 0 < m && v.given[|v.given| - 1] == v.log[m - 1])
    && (if v.pending then m == c else Due(v) == m || (Due(v) == m - 1 && m == c))
    && (v.giving.Some? ==> Due(v) == m)
  }

  lemma GiveNeat(h: Hashing, u: iset<Entry>, k: Key, v: KeyView)
    requires Sound(h, u) && Chain(h, u, k, v.log) && KeyOk(h, v) && !v.pending && v.queued != [] && v.giving.None?
    requires Neat(h, v)
    ensures Neat(h, GiveKey(v))
    ensures v.queued[0] in v.given ==> v.stored == Some(h.hash(v.queued[0]))
  {
    NextIsNew(h, u, k, v);
    FirstsAfter(h, u, k, v);
    assert v.given != [] ==> v.given[|v.given| - 1] in v.given;
    hide Firsts, Chain, Sound, Dedup, KeyOk, Saved;
    NeatAfter(h, v);
  }

  lemma NeatAfter(h: Hashing, v: KeyView)
    requires !v.pending && v.queued != [] && v.giving.None? && Neat(h, v)
    requires
      var w, m := Due(v), |Firsts(v.given)|;
      && 0 <= w < |v.log| && v.queued[0] == v.log[w] && v.queued[1..] == v.log[w + 1..]
      && Firsts(v.given + [v.queued[0]]) == v.log[..if w < m then m else w + 1]
      && (v.given != [] && w == m ==> v.given[|v.given| - 1] != v.queued[0])
    ensures Neat(h, GiveKey(v))
  {
    var w, m := Due(v), |Firsts(v.given)|;
    DedupOneMore(v.given, v.queued[0]);
    hide Firsts, Dedup, Saved;
    if w == m {
      assert v.log[..m] + [v.log[m]] == v.log[..m + 1];
    } else {
      assert w == m - 1 && v.given != [] && v.given[|v.given| - 1] == v.queued[0];
    }
    assert Due(GiveKey(v)) == w + 1;
  }

  lemma CommitNeat(h: Hashing, u: iset<Entry>, k: Key, v: KeyView, e: Entry)
    requires Sound(h, u) && Chain(h, u, k, v.log + [e]) && KeyOk(h, v) && !v.pending && Neat(h, v)
    ensures Neat(h, CommitKey(v, e))
  {
    CommitKeeps(h, u, k, v, e);
    var m := |Firsts(v.given)|;
    assert (v.log + [e])[..m] == v.log[..m];
  }

  // ---- all keys

  ghost predicate FsmOk(h: Hashing, u: iset<Entry>, s: FsmState) {
    && s.pending <= s.log.Keys
    && (forall k :: k in s.log ==> Chain(h, u, k, s.log[k].log))
    && (forall k :: KeyOk(h, At(s, k)))
  }

  /** A step seen from key `k`. */
  function SeenFrom(h: Hashing, s: FsmState, l: Step, k: Key): KeyView
    requires (l.Give? ==> s.queue != []) && (l.Save? ==> s.giving.Some?)
    requires l.Give? && s.queue[0].key == k ==> At(s, k).queued != []
  {
    var v := At(s, k);
    match l
    case Create(_) => v
    case Commit(e) => if e.key == k then CommitKey(v, e) else v
    case Give => if s.queue[0].key == k then GiveKey(v) else v
    case Save(err) => if s.giving.value.key == k then SaveKey(h, v, err) else v
    case Crash => CrashKey(v, k in s.log)
    case Check(k') => if k' == k then CheckKey(h, v) else v
  }

  lemma GiveMoves(s: FsmState, k: Key)
    requires s.queue != []
    ensures
      var e, s' := s.queue[0], GiveFirst(s);
      if e.key == k
      then Of(s.queue, k) != [] && Of(s.queue, k)[0] == e && Of(s'.queue, k) == Of(s.queue, k)[1..]
           && Of(s'.app, k) == Of(s.app, k) + [e]
      else Of(s'.queue, k) == Of(s.queue, k) && Of(s'.app, k) == Of(s.app, k)
  {
    var e, rest := s.queue[0], s.queue[1..];
    OfFirst(s.queue, k);
    OfOneMore(s.app, e, k);
    hide Of;
    if e.key == k {
      assert ([e] + Of(rest, k))[1..] == Of(rest, k);
    } else {
      assert [] + Of(rest, k) == Of(rest, k) && Of(s.app, k) + [] == Of(s.app, k);
    }
  }

  lemma GiveSeen(h: Hashing, s: FsmState, k: Key)
    requires s.queue != [] && s.giving.None?
    ensures
      if s.queue[0].key == k
      then At(s, k).queued != [] && At(s, k).queued[0] == s.queue[0] && At(GiveFirst(s), k) == GiveKey(At(s, k))
      else At(GiveFirst(s), k) == At(s, k)
  {
    hide Of, Get, LogOf;
    GiveMoves(s, k);
  }

  lemma CommitSeen(h: Hashing, u: iset<Entry>, s: FsmState, e: Entry, k: Key)
    requires CanStep(h, u, s, Commit(e))
    ensures At(DoStep(h, u, s, Commit(e)), k) == SeenFrom(h, s, Commit(e), k)
    ensures e.key == k ==> e.previous == LastId(h, LogOf(s.log, k)) && k !in s.pending
  {
    OfOneMore(s.queue, e, k);
    hide Of;
    assert Of(s.queue, k) + [] == Of(s.queue, k);
  }

  /** The entries a check queues, seen from any key. */
  lemma QueuedByCheck(h: Hashing, u: iset<Entry>, k: Key, log: seq<Entry>, stored: Option<Id>, queued: seq<Entry>,
                      k': Key)
    requires Chain(h, u, k, log)
    ensures Of(queued + Replay(h, log, stored), k') == Of(queued, k') + if k == k' then Replay(h, log, stored) else []
  {
    var replay := Replay(h, log, stored);
    OfSum(queued, replay, k');
    forall e | e in replay
      ensures e.key == k
    {
      assert e in log;
    }
    OfAll(replay, k, k');
  }

  lemma CheckSeen(h: Hashing, u: iset<Entry>, s: FsmState, k: Key, k': Key)
    requires FsmOk(h, u, s) && k in s.pending && k in s.log
    ensures At(Checked(h, s, k), k') == if k == k' then CheckKey(h, At(s, k)) else At(s, k')
  {
    assert KeyOk(h, At(s, k)) && Of(s.queue, k) == [];
    hide KeyOk, FsmOk, Chain, Of, Replay;
    QueuedByCheck(h, u, k, s.log[k].log, Get(s.stable, k), s.queue, k');
    var replay := Replay(h, s.log[k].log, Get(s.stable, k));
    assert Of(s.queue, k') + [] == Of(s.queue, k') && [] + replay == replay;
  }

  lemma StepSeen(h: Hashing, u: iset<Entry>, s: FsmState, l: Step, k: Key)
    requires FsmOk(h, u, s) && CanStep(h, u, s, l)
    ensures (l.Give? && s.queue[0].key == k ==> At(s, k).queued != [])
    ensures At(DoStep(h, u, s, l), k) == SeenFrom(h, s, l, k)
  {
    hide Of, Replay, FsmOk;
    match l
    case Create(_) =>
    case Commit(e) => CommitSeen(h, u, s, e, k);
    case Give => GiveSeen(h, s, k);
    case Save(_) =>
    case Crash => NothingOf(k);
    case Check(k') => CheckSeen(h, u, s, k', k);
  }

  lemma NothingOf(k: Key)
    ensures Of([], k) == []
  {
  }

  /** What a step leaves of the standing of a key. */
  ghost predicate KeyStep(h: Hashing, v: KeyView, l: Step, v': KeyView) {
    && KeyOk(h, v') && Again(h, v') <= Again(h, v) + (if l.Crash? then Rewind(h, v) else 0)
    && (Prompt(h, v) && (l.Save? ==> l.err.None?) ==> Prompt(h, v'))
    && (Neat(h, v) && (l.Crash? ==> !Behind(h, v)) ==> Neat(h, v'))
  }

  lemma GiveStep(h: Hashing, u: iset<Entry>, k: Key, v: KeyView)
    requires Sound(h, u) && Chain(h, u, k, v.log) && KeyOk(h, v) && !v.pending && v.queued != [] && v.giving.None?
    ensures KeyStep(h, v, Give, GiveKey(v))
  {
    GiveKeeps(h, u, k, v);
    if Neat(h, v) {
      GiveNeat(h, u, k, v);
    }
    hide KeyOk, Neat;
  }

  lemma SaveStep(h: Hashing, u: iset<Entry>, k: Key, v: KeyView, err: Option<Error>)
    requires Sound(h, u) && Chain(h, u, k, v.log) && KeyOk(h, v) && v.giving.Some?
    ensures KeyStep(h, v, Save(err), SaveKey(h, v, err))
  {
    SaveKeeps(h, u, k, v, err);
    hide Firsts, Dedup, Chain, Sound, Saved;
  }

  lemma CommitStep(h: Hashing, u: iset<Entry>, k: Key, v: KeyView, e: Entry)
    requires Sound(h, u) && Chain(h, u, k, v.log) && KeyOk(h, v) && !v.pending
    requires e in u && e.key == k && e.previous == LastId(h, v.log)
    ensures KeyStep(h, v, Commit(e), CommitKey(v, e))
  {
    ChainAppend(h, u, k, v.log, e);
    CommitKeeps(h, u, k, v, e);
    if Neat(h, v) {
      CommitNeat(h, u, k, v, e);
    }
    hide KeyOk, Neat;
  }

  lemma CrashStep(h: Hashing, v: KeyView, known: bool)
    requires KeyOk(h, v) && (v.log != [] ==> known)
    ensures KeyStep(h, v, Crash, CrashKey(v, known))
  {
    CrashKeeps(h, v, known);
    hide Firsts, Dedup, Saved;
  }

  lemma CheckStep(h: Hashing, u: iset<Entry>, k: Key, v: KeyView)
    requires Sound(h, u) && Chain(h, u, k, v.log) && KeyOk(h, v) && v.pending
    ensures KeyStep(h, v, Step.Check(k), CheckKey(h, v))
  {
    CheckKeeps(h, u, k, v);
    hide KeyOk, Firsts, Dedup, Chain, Sound, Saved, Replay, Again, CheckKey;
    CheckNeat(h, v, CheckKey(h, v));
  }

  lemma CheckNeat(h: Hashing, v: KeyView, v': KeyView)
    requires v' == v.(queued := v'.queued, pending := false) && v.pending && KeyOk(h, v)
    requires
      var c := Saved(h, v.log, v.stored);
      Due(v') == if c == 0 || c == |v.log| then c else c - 1
    ensures Prompt(h, v') && (Neat(h, v) ==> Neat(h, v'))
  {
    hide Firsts, Dedup, Saved;
  }

  lemma SameStep(h: Hashing, v: KeyView, l: Step)
    requires KeyOk(h, v)
    ensures KeyStep(h, v, l, v)
  {
    hide KeyOk, Neat;
  }

  lemma StepAt(h: Hashing, u: iset<Entry>, s: FsmState, l: Step, k: Key)
    requires Sound(h, u) && FsmOk(h, u, s) && CanStep(h, u, s, l)
    ensures KeyStep(h, At(s, k), l, At(DoStep(h, u, s, l), k))
  {
    var v := At(s, k);
    assert KeyOk(h, v) && Chain(h, u, k, v.log) && (v.log != [] ==> k in s.log);
    assert !v.pending <==> k !in s.pending;
    assert l.Give? || (l.Save? && s.giving.value.key == k) ==> !v.pending || v.queued == [];
    StepSeen(h, u, s, l, k);
    hide KeyStep, KeyOk, Chain, Sound, DoStep, FsmOk, Of;
    SameStep(h, v, l);
    match l
    case Create(_) =>
    case Commit(e) =>
      if e.key == k {
        CommitSeen(h, u, s, e, k);
        CommitStep(h, u, k, v, e);
      }
    case Give =>
      if s.queue[0].key == k {
        GiveStep(h, u, k, v);
      }
    case Save(err) =>
      if s.giving.value.key == k {
        SaveStep(h, u, k, v, err);
      }
    case Crash =>
      CrashStep(h, v, k in s.log);
    case Check(k') =>
      if k' == k {
        CheckStep(h, u, k, v);
      }
  }

  /** Every step keeps this. */
  lemma StepKeeps(h: Hashing, u: iset<Entry>, s: FsmState, l: Step)
    requires Sound(h, u) && FsmOk(h, u, s) && CanStep(h, u, s, l)
    ensures FsmOk(h, u, DoStep(h, u, s, l))
    ensures forall k :: KeyStep(h, At(s, k), l, At(DoStep(h, u, s, l), k))
  {
    var s' := DoStep(h, u, s, l);
    assert s'.pending <= s'.log.Keys;
    forall k
      ensures KeyStep(h, At(s, k), l, At(s', k)) && KeyOk(h, At(s', k))
    {
      StepAt(h, u, s, l, k);
    }
    forall k | k in s'.log
      ensures Chain(h, u, k, s'.log[k].log)
    {
      if l.Commit? && l.entry.key == k {
        ChainAppend(h, u, k, LogOf(s.log, k), l.entry);
      }
    }
    hide KeyStep, KeyOk, At;
  }

  // ---- runs

  function Crashes(steps: seq<Step>): nat
    decreases steps
  {
    if steps == [] then 0 else Crashes(steps[..|steps| - 1]) + if steps[|steps| - 1].Crash? then 1 else 0
  }

  /** The crashes among the first `i` steps that came between giving an entry of key `k` and storing its id. */
  function Torn(states: seq<FsmState>, steps: seq<Step>, i: nat, k: Key): nat
    requires i <= |steps| <= |states|
  {
    if i == 0 then 0
    else
      Torn(states, steps, i - 1, k)
      + if steps[i - 1].Crash? && At(states[i - 1], k).giving.Some? then 1 else 0
  }

  /** How far the crashes among the first `i` steps have set key `k` back, all in all. */
  function Rewound(h: Hashing, states: seq<FsmState>, steps: seq<Step>, i: nat, k: Key): nat
    requires i <= |steps| <= |states|
  {
    if i == 0 then 0
    else Rewound(h, states, steps, i - 1, k) + if steps[i - 1].Crash? then Rewind(h, At(states[i - 1], k)) else 0
  }

  /** No crash found an entry of `k` given and not recorded. */
  predicate CleanCrashes(h: Hashing, states: seq<FsmState>, steps: seq<Step>, i: nat, k: Key)
    requires i <= |steps| <= |states|
  {
    forall j :: 0 <= j < i && steps[j].Crash? ==> !Behind(h, At(states[j], k))
  }

  /** The stable store has taken every id. */
  predicate AllSaved(steps: seq<Step>, i: nat)
    requires i <= |steps|
  {
    forall j :: 0 <= j < i && steps[j].Save? ==> steps[j].err.None?
  }

  lemma {:induction false} RunIsOk(h: Hashing, u: iset<Entry>, states: seq<FsmState>, steps: seq<Step>, i: nat, k: Key)
    requires Sound(h, u) && FsmRun(h, u, states, steps) && i < |states| == |steps| + 1
    ensures FsmOk(h, u, states[i])
    ensures
      var v := At(states[i], k);
      && KeyOk(h, v) && Again(h, v) <= Rewound(h, states, steps, i, k)
      && (AllSaved(steps, i) ==> Prompt(h, v))
      && (CleanCrashes(h, states, steps, i, k) ==> Neat(h, v))
  {
    if i == 0 {
      FreshIsOk(h, u, k);
      assert states[i] == NewFsm() && Rewound(h, states, steps, i, k) == 0;
      hide *;
    } else {
      FewerSteps(h, states, steps, i, k);
      hide *;
      RunIsOk(h, u, states, steps, i - 1, k);
      StepOfRun(h, u, states, steps, i - 1);
      StepKeeps(h, u, states[i - 1], steps[i - 1]);
      SumsNext(h, states, steps, i, k);
      KeyStepFacts(h, At(states[i - 1], k), steps[i - 1], At(states[i], k));
    }
  }

  lemma FewerSteps(h: Hashing, states: seq<FsmState>, steps: seq<Step>, i: nat, k: Key)
    requires 0 < i <= |steps| <= |states|
    ensures AllSaved(steps, i) <==> AllSaved(steps, i - 1) && (steps[i - 1].Save? ==> steps[i - 1].err.None?)
    ensures CleanCrashes(h, states, steps, i, k)
            <==> CleanCrashes(h, states, steps, i - 1, k) && (steps[i - 1].Crash? ==> !Behind(h, At(states[i - 1], k)))
  {
    hide Behind, At;
  }

  lemma KeyStepFacts(h: Hashing, v: KeyView, l: Step, v': KeyView)
    requires KeyStep(h, v, l, v')
    ensures KeyOk(h, v') && Again(h, v') <= Again(h, v) + (if l.Crash? then Rewind(h, v) else 0)
    ensures Prompt(h, v) && (l.Save? ==> l.err.None?) ==> Prompt(h, v')
    ensures Neat(h, v) && (l.Crash? ==> !Behind(h, v)) ==> Neat(h, v')
  {
    hide KeyOk, Again, Rewind, Prompt, Neat, Behind;
  }

  lemma StepOfRun(h: Hashing, u: iset<Entry>, states: seq<FsmState>, steps: seq<Step>, i: nat)
    requires FsmRun(h, u, states, steps) && i < |steps|
    ensures CanStep(h, u, states[i], steps[i]) && states[i + 1] == DoStep(h, u, states[i], steps[i])
  {
    hide CanStep, DoStep;
  }

  lemma FreshIsOk(h: Hashing, u: iset<Entry>, k: Key)
    ensures FsmOk(h, u, NewFsm())
    ensures
      var v := At(NewFsm(), k);
      KeyOk(h, v) && Again(h, v) == 0 && Prompt(h, v) && Neat(h, v)
  {
    forall k
      ensures KeyOk(h, At(NewFsm(), k))
    {
    }
  }

  /** At any time, after any number of crashes and restarts, wherever they come and whatever the stable store fails to
      record: what the application was given for a key is, later repeats removed, a part of the key's log from its
      start, at least as far as is recorded; and it was given no more again than the crashes have set it back. */
  lemma GivenIsPrefix(h: Hashing, u: iset<Entry>, states: seq<FsmState>, steps: seq<Step>, i: nat, k: Key)
    requires Sound(h, u) && FsmRun(h, u, states, steps) && i < |states| == |steps| + 1
    ensures
      var s, given := states[i], Of(states[i].app, k);
      && Firsts(given) <= LogOf(s.log, k)
      && Saved(h, LogOf(s.log, k), Get(s.stable, k)) <= |Firsts(given)|
      && (k in s.stable ==> 0 < Saved(h, LogOf(s.log, k), Get(s.stable, k)))
      && |given| <= |Firsts(given)| + Rewound(h, states, steps, i, k)
  {
    RunIsOk(h, u, states, steps, i, k);
    hide FsmRun, FsmOk, Rewound, Of, Firsts, Saved;
  }

  lemma RewindIsShort(h: Hashing, v: KeyView)
    requires Prompt(h, v)
    ensures Rewind(h, v) <= 1 + if v.giving.Some? then 1 else 0
  {
    hide Saved;
  }

  /** As long as the stable store takes every id, a crash sets a key back by the recorded entry, and by one more if it
      comes between giving an entry and storing its id. */
  lemma {:induction false} RewindsAreShort(h: Hashing, u: iset<Entry>, states: seq<FsmState>, steps: seq<Step>, i: nat,
                                           k: Key)
    requires Sound(h, u) && FsmRun(h, u, states, steps) && i < |states| == |steps| + 1 && AllSaved(steps, i)
    ensures Rewound(h, states, steps, i, k) <= Crashes(steps[..i]) + Torn(states, steps, i, k)
  {
    if i > 0 {
      assert AllSaved(steps, i - 1);
      hide *;
      RewindsAreShort(h, u, states, steps, i - 1, k);
      RunIsOk(h, u, states, steps, i - 1, k);
      RewindIsShort(h, At(states[i - 1], k));
      SumsNext(h, states, steps, i, k);
    } else {
      hide FsmRun;
    }
  }

  lemma SumsNext(h: Hashing, states: seq<FsmState>, steps: seq<Step>, i: nat, k: Key)
    requires 0 < i <= |steps| <= |states|
    ensures
      var crash, v := steps[i - 1].Crash?, At(states[i - 1], k);
      && Rewound(h, states, steps, i, k) == Rewound(h, states, steps, i - 1, k) + (if crash then Rewind(h, v) else 0)
      && Torn(states, steps, i, k) == Torn(states, steps, i - 1, k) + (if crash && v.giving.Some? then 1 else 0)
      && Crashes(steps[..i]) == Crashes(steps[..i - 1]) + (if crash then 1 else 0)
  {
    assert steps[..i][..i - 1] == steps[..i - 1];
    hide At, Rewind;
  }

  /** While no crash finds an entry given and not recorded, repeats are adjacent, there is at most one per crash, and
      only the entry whose id is stored is given again. */
  lemma AdjacentRepeats(h: Hashing, u: iset<Entry>, states: seq<FsmState>, steps: seq<Step>, i: nat, k: Key)
    requires Sound(h, u) && FsmRun(h, u, states, steps) && i < |states| == |steps| + 1
    requires CleanCrashes(h, states, steps, i, k)
    ensures
      var given := Of(states[i].app, k);
      && Dedup(given) == Firsts(given) && Dedup(given) <= LogOf(states[i].log, k)
      && |given| <= |Dedup(given)| + Crashes(steps[..i])
  {
    RunIsOk(h, u, states, steps, i, k);
    CleanRewinds(h, states, steps, i, k);
    hide FsmRun, FsmOk, Rewound, Of, Firsts, Saved, Dedup;
  }

  lemma {:induction false} CleanRewinds(h: Hashing, states: seq<FsmState>, steps: seq<Step>, i: nat, k: Key)
    requires i <= |steps| <= |states| && CleanCrashes(h, states, steps, i, k)
    ensures Rewound(h, states, steps, i, k) <= Crashes(steps[..i])
  {
    if i > 0 {
      CleanRewinds(h, states, steps, i - 1, k);
      SumsNext(h, states, steps, i, k);
      hide At, Rewound, Crashes, Saved;
    }
  }

  /** Nothing is left to give. */
  lemma DrainedKey(h: Hashing, v: KeyView)
    requires KeyOk(h, v) && !v.pending && v.queued == []
    ensures Firsts(v.given) == v.log
    ensures v.giving.None? && Prompt(h, v) ==> v.stored == if v.log == [] then None else Some(LastId(h, v.log))
  {
    assert |v.log| <= Due(v) && v.log[..|v.log|] == v.log;
    hide Saved, Firsts;
  }

  /** Once the check is through with a key and its entries are drained, the application has been given all of its log;
      and the stored id is the last one, if the stable store has taken every id and none is being stored. */
  lemma DrainedIsWhole(h: Hashing, u: iset<Entry>, states: seq<FsmState>, steps: seq<Step>, i: nat, k: Key)
    requires Sound(h, u) && FsmRun(h, u, states, steps) && i < |states| == |steps| + 1
    requires k !in states[i].pending && forall e :: e in states[i].queue ==> e.key != k
    ensures
      var s, log := states[i], LogOf(states[i].log, k);
      && Firsts(Of(s.app, k)) == log
      && (AllSaved(steps, i) && s.giving.None? ==>
            Get(s.stable, k) == if log == [] then None else Some(LastId(h, log)))
  {
    hide FsmRun, FsmOk, Rewound, Firsts, Again, Neat, Of, Sound, CleanCrashes;
    RunIsOk(h, u, states, steps, i, k);
    NoneOf(states[i].queue, k);
    DrainedKey(h, At(states[i], k));
    hide Saved, KeyOk;
  }

  /** An entry that is given once more is in the log from the stored entry on; it is that entry itself while no crash
      has found an entry given and not recorded. */
  lemma OnlyFromTheStored(h: Hashing, u: iset<Entry>, states: seq<FsmState>, steps: seq<Step>, i: nat)
    requires Sound(h, u) && FsmRun(h, u, states, steps) && i < |steps| == |states| - 1 && steps[i].Give?
    ensures states[i].queue != []
    ensures
      var s, e := states[i], states[i].queue[0];
      var log := LogOf(s.log, e.key);
      var c := Saved(h, log, Get(s.stable, e.key));
      && Of(states[i + 1].app, e.key) == Of(s.app, e.key) + [e]
      && (exists j :: c - 1 <= j < |log| && 0 <= j && log[j] == e)
      && (e in Of(s.app, e.key) && CleanCrashes(h, states, steps, i, e.key) ==>
            Get(s.stable, e.key) == Some(h.hash(e)))
  {
    var s := states[i];
    StepOfRun(h, u, states, steps, i);
    assert s.queue != [];
    var e := s.queue[0];
    RunIsOk(h, u, states, steps, i, e.key);
    GiveSeen(h, s, e.key);
    var v := At(s, e.key);
    assert !v.pending && Chain(h, u, e.key, v.log);
    if CleanCrashes(h, states, steps, i, e.key) {
      GiveNeat(h, u, e.key, v);
    }
    OfOneMore(s.app, e, e.key);
    assert v.log[Due(v)] == e;
    hide FsmRun, FsmOk, Of, Firsts, Saved, Dedup;
  }

  /** A crash between giving an entry and storing its id breaks that: the application is then given the two entries of
      this log alternately. */
  lemma TornCrashAlternates(h: Hashing, u: iset<Entry>, k: Key, a: Entry, b: Entry)
    returns (states: seq<FsmState>, steps: seq<Step>)
    requires Sound(h, u) && Chain(h, u, k, [a, b])
    ensures FsmRun(h, u, states, steps) && |states| == |steps| + 1 && AllSaved(steps, |steps|)
    ensures
      var s := states[|steps|];
      && LogOf(s.log, k) == [a, b] && s.app == [a, b, a, b]
      && Dedup(s.app) == s.app && Firsts(s.app) == [a, b]
  {
    var log, stored := map[k := Keyed([a, b], None)], map[k := h.hash(a)];
    TwoApart(h, u, k, a, b);
    TwoLogged(h, u, k, a, b);
    TwoGiven(h, u, k, a, b);
    TwoChecked(h, u, k, a, b);
    TwoGivenAgain(h, u, k, a, b);
    AlternateGiven(a, b);
    states, steps := [NewFsm()], [];
    hide *;
    RunBegins(h, u);
    states, steps := RunMore(h, u, states, steps, Create(k), NewFsm().(log := map[k := Keyed([], None)]));
    states, steps :=
      RunMore(h, u, states, steps, Commit(a), NewFsm().(log := map[k := Keyed([a], None)], queue := [a]));
    states, steps := RunMore(h, u, states, steps, Commit(b), FsmState(log, map[], [], [a, b], None, {}));
    states, steps := RunMore(h, u, states, steps, Give, FsmState(log, map[], [a], [b], Some(a), {}));
    states, steps := RunMore(h, u, states, steps, Save(None), FsmState(log, stored, [a], [b], None, {}));
    states, steps := RunMore(h, u, states, steps, Give, FsmState(log, stored, [a, b], [], Some(b), {}));
    states, steps := RunMore(h, u, states, steps, Crash, FsmState(log, stored, [a, b], [], None, {k}));
    states, steps := RunMore(h, u, states, steps, Step.Check(k), FsmState(log, stored, [a, b], [a, b], None, {}));
    states, steps := RunMore(h, u, states, steps, Give, FsmState(log, stored, [a, b, a], [b], Some(a), {}));
    states, steps := RunMore(h, u, states, steps, Save(None), FsmState(log, stored, [a, b, a], [b], None, {}));
    states, steps := RunMore(h, u, states, steps, Give, FsmState(log, stored, [a, b, a, b], [], Some(b), {}));
    LoggedIn(k, [a, b]);
  }

  lemma LoggedIn(k: Key, log: seq<Entry>)
    ensures LogOf(map[k := Keyed(log, None)], k) == log
  {
  }

  lemma RunBegins(h: Hashing, u: iset<Entry>)
    ensures FsmRun(h, u, [NewFsm()], []) && AllSaved([], 0)
  {
  }

  lemma RunMore(h: Hashing, u: iset<Entry>, states: seq<FsmState>, steps: seq<Step>, l: Step, s': FsmState)
    returns (states': seq<FsmState>, steps': seq<Step>)
    requires |states| == |steps| + 1 && FsmRun(h, u, states, steps) && AllSaved(steps, |steps|)
    requires CanStep(h, u, states[|steps|], l) && s' == DoStep(h, u, states[|steps|], l) && (l.Save? ==> l.err.None?)
    ensures |states'| == |steps'| + 1 && FsmRun(h, u, states', steps') && AllSaved(steps', |steps'|)
    ensures states'[|steps'|] == s'
  {
    hide CanStep, DoStep;
    states', steps' := states + [s'], steps + [l];
  }

  lemma TwoApart(h: Hashing, u: iset<Entry>, k: Key, a: Entry, b: Entry)
    requires Sound(h, u) && Chain(h, u, k, [a, b])
    ensures a in u && b in u && a.key == b.key == k && a != b && h.hash(a) != h.hash(b)
    ensures a.previous == LastId(h, []) && b.previous == h.hash(a)
  {
    var log := [a, b];
    NoRepeats(h, u, k, log);
    assert log[0] == a && log[1] == b && log[..0] == [] && log[..1] == [a];
    assert log[0].previous == LastId(h, log[..0]) && log[1].previous == LastId(h, log[..1]);
  }

  lemma TwoLogged(h: Hashing, u: iset<Entry>, k: Key, a: Entry, b: Entry)
    requires a in u && b in u && a.key == b.key == k && a.previous == LastId(h, []) && b.previous == h.hash(a)
    ensures
      var s0, s1 := NewFsm(), NewFsm().(log := map[k := Keyed([], None)]);
      var s2 := NewFsm().(log := map[k := Keyed([a], None)], queue := [a]);
      var s3 := FsmState(map[k := Keyed([a, b], None)], map[], [], [a, b], None, {});
      && CanStep(h, u, s0, Create(k)) && s1 == DoStep(h, u, s0, Create(k))
      && CanStep(h, u, s1, Commit(a)) && s2 == DoStep(h, u, s1, Commit(a))
      && CanStep(h, u, s2, Commit(b)) && s3 == DoStep(h, u, s2, Commit(b))
  {
    assert [] + [a] == [a] && [a] + [b] == [a, b];
  }

  lemma TwoGiven(h: Hashing, u: iset<Entry>, k: Key, a: Entry, b: Entry)
    requires a.key == b.key == k
    ensures
      var log, stored := map[k := Keyed([a, b], None)], map[k := h.hash(a)];
      var s3, s4 := FsmState(log, map[], [], [a, b], None, {}), FsmState(log, map[], [a], [b], Some(a), {});
      var s5, s6 := FsmState(log, stored, [a], [b], None, {}), FsmState(log, stored, [a, b], [], Some(b), {});
      var s7 := FsmState(log, stored, [a, b], [], None, {k});
      && CanStep(h, u, s3, Give) && s4 == DoStep(h, u, s3, Give)
      && CanStep(h, u, s4, Save(None)) && s5 == DoStep(h, u, s4, Save(None))
      && CanStep(h, u, s5, Give) && s6 == DoStep(h, u, s5, Give)
      && CanStep(h, u, s6, Crash) && s7 == DoStep(h, u, s6, Crash)
  {
    assert [] + [a] == [a] && [a] + [b] == [a, b];
  }

  lemma TwoChecked(h: Hashing, u: iset<Entry>, k: Key, a: Entry, b: Entry)
    requires Sound(h, u) && Chain(h, u, k, [a, b]) && h.hash(a) != h.hash(b)
    ensures
      var log, stored := map[k := Keyed([a, b], None)], map[k := h.hash(a)];
      var s7, s8 := FsmState(log, stored, [a, b], [], None, {k}), FsmState(log, stored, [a, b], [a, b], None, {});
      CanStep(h, u, s7, Step.Check(k)) && s8 == DoStep(h, u, s7, Step.Check(k))
  {
    var log := [a, b];
    SavedAt(h, u, k, log, 0);
    ReplayFrom(h, u, k, KeyView(log, Some(h.hash(a)), [], None, [], true));
    assert log[0] == a && Replay(h, log, Some(h.hash(a))) == log[0..];
    hide *;
    CheckedAs(h, u, k, log, h.hash(a));
  }

  /** The check of the only key, when all of its log is due. */
  lemma CheckedAs(h: Hashing, u: iset<Entry>, k: Key, log: seq<Entry>, id: Id)
    requires Replay(h, log, Some(id)) == log[0..]
    ensures
      var s := FsmState(map[k := Keyed(log, None)], map[k := id], log, [], None, {k});
      && CanStep(h, u, s, Step.Check(k))
      && DoStep(h, u, s, Step.Check(k)) == s.(queue := log, pending := {})
  {
    hide Replay;
    assert log[0..] == log && [] + log == log;
  }

  lemma TwoGivenAgain(h: Hashing, u: iset<Entry>, k: Key, a: Entry, b: Entry)
    requires a.key == b.key == k
    ensures
      var log, stored := map[k := Keyed([a, b], None)], map[k := h.hash(a)];
      var s8, s9 := FsmState(log, stored, [a, b], [a, b], None, {}), FsmState(log, stored, [a, b, a], [b], Some(a), {});
      var s10 := FsmState(log, stored, [a, b, a], [b], None, {});
      var s11 := FsmState(log, stored, [a, b, a, b], [], Some(b), {});
      && CanStep(h, u, s8, Give) && s9 == DoStep(h, u, s8, Give)
      && CanStep(h, u, s9, Save(None)) && s10 == DoStep(h, u, s9, Save(None))
      && CanStep(h, u, s10, Give) && s11 == DoStep(h, u, s10, Give)
  {
    assert [a, b] + [a] == [a, b, a] && [a, b, a] + [b] == [a, b, a, b];
    var m := map[k := h.hash(a)];
    assert m[k := h.hash(a)] == m;
  }

  lemma AlternateGiven(a: Entry, b: Entry)
    requires a != b
    ensures Firsts([a, b, a, b]) == [a, b] && Dedup([a, b, a, b]) == [a, b, a, b]
  {
    assert [] + [a] == [a] && [a] + [b] == [a, b] && [a, b] + [a] == [a, b, a] && [a, b, a] + [b] == [a, b, a, b];
    FirstsOneMore([], a);
    FirstsOneMore([a], b);
    FirstsOneMore([a, b], a);
    FirstsOneMore([a, b, a], b);
    DedupOneMore([], a);
    DedupOneMore([a], b);
    DedupOneMore([a, b], a);
    DedupOneMore([a, b, a], b);
    hide Firsts, Dedup;
  }
}
