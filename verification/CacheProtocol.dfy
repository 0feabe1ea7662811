/**
 The lock-per-entry TTL cache of `CachedMetricsClient.get` and `CachedPredictorClient.do`, as
 interleaved steps of any number of callers. A step is one access to the shared map, one lock
 operation, one field write or one answer of the origin server.
 */
module CacheProtocol {
  import opened ProxyTypes

  /**
   A cache key: what kind of value it is for (metric type and name, or value type, which is printed
   first and separated from the rest), and everything else the key is printed from.
   */
  datatype Key = Key(kind: string, detail: string)

  type Value = string
  type Thread = nat
  type EntryId = nat

  /** How far the fill of an entry has come; a history variable. */
  datatype Status = Open | Completed | Refused

  /** A cache entry. `holder` is the mutex; `begun` and `filler` record the fill that made it. */
  datatype Entry = Entry(key: Key, begun: int, expiredAt: int, value: Option<Value>, holder: Option<Thread>,
                         filler: Thread, status: Status)

  datatype Result = Hit(entry: EntryId, at: int) | Filled(entry: EntryId) | Error

  /** Where a caller is. */
  datatype Pc =
    | Loading(key: Key)
    | Waiting(key: Key, entry: EntryId)
    | Holding(key: Key, entry: EntryId)
    | Checking(key: Key, entry: EntryId)
    | Missed(key: Key)
    | Created(key: Key, entry: EntryId)
    | Filling(key: Key, entry: EntryId)
    | Writing(key: Key, entry: EntryId, answer: Value)
    | Storing(key: Key, entry: EntryId)
    | Releasing(key: Key, entry: EntryId)
    | Failing(key: Key, entry: EntryId)
    | Dropping(key: Key, entry: EntryId)
    | Done(key: Key, result: Result)

  /** An answer of the origin to the fill of an entry. */
  datatype Answer = Answer(entry: EntryId, key: Key, value: Value)

  datatype State = State(now: int, cache: map<Key, EntryId>, entries: seq<Entry>, pcs: map<Thread, Pc>,
                         log: set<Answer>)

  datatype Action =
    | Begin(key: Key) | Load | Lock | Unlock | Check | Create | Publish
    | Reply(value: Value) | Refuse | Write | Store | Release | Abandon | Drop

  /**
   A client knows some kinds of values and asks an origin server for those; other kinds are refused.
   `predictor` tells the two clients apart: the predictor deletes a refused unknown kind by the wrong key.
   */
  datatype Client = Client(ttl: int, kinds: set<string>, predictor: bool)

  predicate Known(c: Client, k: Key) { k.kind in c.kinds }

  /** Dropping a failed fill of this key leaves the map as it is. */
  predicate Keeps(c: Client, k: Key) { c.predictor && !Known(c, k) }

  // ---- Steps ----

  function At(s: State, t: Thread, pc: Pc): State {
    s.(pcs := s.pcs[t := pc])
  }

  function SetEntry(s: State, e: EntryId, entry: Entry): State
    requires e < |s.entries|
  {
    s.(entries := s.entries[e := entry])
  }

  /** What a caller's action does, if the caller is where that action comes next. */
  function Act(c: Client, s: State, t: Thread, a: Action): Option<State> {
    if a.Begin? then
      if t !in s.pcs || s.pcs[t].Done? then Some(At(s, t, Loading(a.key))) else None
    else if t !in s.pcs then None
    else
      match (a, s.pcs[t])
      case (Load, Loading(k)) => Some(At(s, t, if k in s.cache then Waiting(k, s.cache[k]) else Missed(k)))
      case (Lock, Waiting(k, e)) =>
        if e < |s.entries| && s.entries[e].holder == None
        then Some(At(SetEntry(s, e, s.entries[e].(holder := Some(t))), t, Holding(k, e))) else None
      case (Unlock, Holding(k, e)) =>
        if e < |s.entries| then Some(At(SetEntry(s, e, s.entries[e].(holder := None)), t, Checking(k, e))) else None
      case (Check, Checking(k, e)) =>
        if e < |s.entries|
        then Some(At(s, t, if s.entries[e].expiredAt > s.now then Done(k, Hit(e, s.now)) else Missed(k))) else None
      case (Create, Missed(k)) =>
        Some(At(s.(entries := s.entries + [Entry(k, s.now, s.now + c.ttl, None, Some(t), t, Open)]), t,
                Created(k, |s.entries|)))
      case (Publish, Created(k, e)) => Some(At(s.(cache := s.cache[k := e]), t, Filling(k, e)))
      case (Reply(v), Filling(k, e)) =>
        if Known(c, k) then Some(At(s.(log := s.log + {Answer(e, k, v)}), t, Writing(k, e, v))) else None
      case (Refuse, Filling(k, e)) => Some(At(s, t, Failing(k, e)))
      case (Write, Writing(k, e, v)) =>
        if e < |s.entries| then Some(At(SetEntry(s, e, s.entries[e].(value := Some(v))), t, Storing(k, e))) else None
      case (Store, Storing(k, e)) => Some(At(s.(cache := s.cache[k := e]), t, Releasing(k, e)))
      case (Release, Releasing(k, e)) =>
        if e < |s.entries|
        then Some(At(SetEntry(s, e, s.entries[e].(holder := None, status := Completed)), t, Done(k, Filled(e))))
        else None
      case (Abandon, Failing(k, e)) =>
        if e < |s.entries|
        then Some(At(SetEntry(s, e, s.entries[e].(holder := None, status := Refused)), t, Dropping(k, e))) else None
      case (Drop, Dropping(k, e)) =>
        Some(At(s.(cache := if Keeps(c, k) then s.cache else s.cache - {k}), t, Done(k, Error)))
      case _ => None
  }

  /** One step: a caller acts, or time passes. */
  ghost predicate Step(c: Client, s: State, s': State) {
    || (exists t, a :: Act(c, s, t, a) == Some(s'))
    || (s'.now >= s.now && s' == s.(now := s'.now))
  }

  ghost predicate Initial(s: State) {
    s.cache == map[] && s.entries == [] && s.pcs == map[] && s.log == {}
  }

  ghost predicate Steps(c: Client, states: seq<State>) {
    forall i :: 0 <= i < |states| - 1 ==> Step(c, states[i], states[i + 1])
  }

  ghost predicate IsRun(c: Client, states: seq<State>) {
    states != [] && Initial(states[0]) && Steps(c, states)
  }

  // ---- The invariant ----

  /** The caller is filling the entry, and has not let go of it. */
  predicate Fills(pc: Pc, e: EntryId) {
    (pc.Created? || pc.Filling? || pc.Writing? || pc.Storing? || pc.Releasing? || pc.Failing?) && pc.entry == e
  }

  predicate Holds(pc: Pc, e: EntryId) {
    Fills(pc, e) || (pc.Holding? && pc.entry == e)
  }

  /** The entry a caller is concerned with. */
  function Concerns(pc: Pc): Option<EntryId> {
    match pc
    case Loading(_) => None
    case Missed(_) => None
    case Done(_, Hit(e, _)) => Some(e)
    case Done(_, Filled(e)) => Some(e)
    case Done(_, Error) => None
    case _ => Some(pc.entry)
  }

  /** A caller's entry is of the caller's key; past the lock, its fill is over; a hit came in time. */
  ghost predicate CallerOK(c: Client, s: State, t: Thread) {
    t in s.pcs ==>
      var pc := s.pcs[t];
      && (Concerns(pc).Some? ==> Concerns(pc).value < |s.entries| && s.entries[Concerns(pc).value].key == pc.key)
      && (pc.Holding? || pc.Checking? ==> s.entries[pc.entry].status != Open)
      && (pc.Done? && pc.result.Filled? ==> s.entries[pc.result.entry].status == Completed)
      && (pc.Done? && pc.result.Hit? ==>
            && s.entries[pc.result.entry].status != Open
            && s.entries[pc.result.entry].begun <= pc.result.at < s.entries[pc.result.entry].expiredAt
            && pc.result.at <= s.now)
      && (pc.Writing? ==> Answer(pc.entry, pc.key, pc.answer) in s.log)
      && (pc.Dropping? ==> s.entries[pc.entry].status == Refused)
  }

  /** What an entry holds follows from how far its fill has come. */
  ghost predicate EntryHolds(c: Client, s: State, e: EntryId) {
    e < |s.entries| ==>
      var x := s.entries[e];
      && x.expiredAt == x.begun + c.ttl && x.begun <= s.now
      && (x.value.Some? ==> Answer(e, x.key, x.value.value) in s.log)
      && (x.status == Completed ==> x.value.Some?)
      && (x.status == Refused ==> x.value == None)
  }

  /** An entry is open exactly while its filler fills it, and then its filler has it locked. */
  ghost predicate EntryFilled(s: State, e: EntryId) {
    e < |s.entries| ==>
      var x := s.entries[e];
      && (x.status == Open <==> x.filler in s.pcs && Fills(s.pcs[x.filler], e))
      && (x.status == Open ==>
            && x.holder == Some(x.filler)
            && (x.value.Some? <==> s.pcs[x.filler].Storing? || s.pcs[x.filler].Releasing?))
  }

  ghost predicate EntryOK(c: Client, s: State, e: EntryId) {
    EntryHolds(c, s, e) && EntryFilled(s, e)
  }

  /** The mutex: exactly the holder is inside, and only the filler fills. */
  ghost predicate MutexOK(s: State, t: Thread, e: EntryId) {
    && (e < |s.entries| ==> (s.entries[e].holder == Some(t) <==> t in s.pcs && Holds(s.pcs[t], e)))
    && (e < |s.entries| && t in s.pcs && Fills(s.pcs[t], e) ==> s.entries[e].filler == t)
  }

  /** A failed entry is in the map although its filler is done with it. */
  ghost predicate Outlives(s: State, k: Key) {
    && k in s.cache && s.cache[k] < |s.entries| && s.entries[s.cache[k]].status == Refused
    && !(s.entries[s.cache[k]].filler in s.pcs && s.pcs[s.entries[s.cache[k]].filler] == Dropping(k, s.cache[k]))
  }

  /**
   A cached entry is of its key; a failed one is cached only until its filler has dropped it,
   unless the drop misses.
   */
  ghost predicate CachedOK(c: Client, s: State, k: Key) {
    && (k in s.cache ==> s.cache[k] < |s.entries| && s.entries[s.cache[k]].key == k)
    && (Outlives(s, k) ==> Keeps(c, k))
  }

  ghost predicate Inv(c: Client, s: State) {
    && (forall t :: CallerOK(c, s, t))
    && (forall e :: EntryOK(c, s, e))
    && (forall t, e :: MutexOK(s, t, e))
    && (forall k :: CachedOK(c, s, k))
  }

  lemma OwnStep(c: Client, s: State, t: Thread, a: Action, s': State)
    requires Act(c, s, t, a) == Some(s') && CallerOK(c, s, t)
    requires forall e :: EntryHolds(c, s, e)
    requires t in s.pcs && s.pcs[t].Loading? ==> CachedOK(c, s, s.pcs[t].key)
    requires t in s.pcs && s.pcs[t].Waiting? ==> EntryFilled(s, s.pcs[t].entry)
    ensures CallerOK(c, s', t)
  {
    if t in s.pcs && Concerns(s.pcs[t]).Some? {
      assert EntryHolds(c, s, Concerns(s.pcs[t]).value);
    }
  }

  lemma OtherStep(c: Client, s: State, t: Thread, a: Action, s': State, u: Thread)
    requires Act(c, s, t, a) == Some(s') && u != t && CallerOK(c, s, t) && CallerOK(c, s, u)
    requires forall e :: EntryOK(c, s, e) && MutexOK(s, t, e)
    ensures CallerOK(c, s', u)
  {
    hide Act, EntryOK, MutexOK;
    if u in s.pcs && Concerns(s.pcs[u]).Some? {
      assert EntryOK(c, s, Concerns(s.pcs[u]).value);
      OthersEntry(c, s, t, a, s', Concerns(s.pcs[u]).value);
    } else {
      OthersKept(c, s, t, a, s');
    }
  }

  lemma OthersKept(c: Client, s: State, t: Thread, a: Action, s': State)
    requires Act(c, s, t, a) == Some(s')
    ensures forall u :: u != t ==> (u in s.pcs <==> u in s'.pcs) && (u in s.pcs ==> s'.pcs[u] == s.pcs[u])
  {
  }

  /** What a step of another caller can change about an entry. */
  lemma OthersEntry(c: Client, s: State, t: Thread, a: Action, s': State, e: EntryId)
    requires Act(c, s, t, a) == Some(s') && e < |s.entries| && EntryOK(c, s, e) && MutexOK(s, t, e) && CallerOK(c, s, t)
    ensures e < |s'.entries| && s'.entries[e].key == s.entries[e].key && s'.entries[e].begun == s.entries[e].begun
    ensures s'.entries[e].expiredAt == s.entries[e].expiredAt
    ensures s.entries[e].status != Open ==> s'.entries[e].status == s.entries[e].status
    ensures s.log <= s'.log && s'.now == s.now
    ensures forall u :: u != t ==> (u in s.pcs <==> u in s'.pcs) && (u in s.pcs ==> s'.pcs[u] == s.pcs[u])
  {
  }

  lemma CallerStep(c: Client, s: State, t: Thread, a: Action, s': State, u: Thread)
    requires Inv(c, s) && Act(c, s, t, a) == Some(s')
    ensures CallerOK(c, s', u)
  {
    hide Act, CallerOK, CachedOK, EntryHolds, EntryFilled, MutexOK;
    assert CallerOK(c, s, t) && CallerOK(c, s, u);
    if u == t {
      if t in s.pcs && s.pcs[t].Loading? {
        assert CachedOK(c, s, s.pcs[t].key);
      }
      if t in s.pcs && s.pcs[t].Waiting? {
        assert EntryOK(c, s, s.pcs[t].entry);
      }
      assert forall e :: EntryOK(c, s, e) ==> EntryHolds(c, s, e);
      assert forall e :: EntryOK(c, s, e);
      OwnStep(c, s, t, a, s');
    } else {
      OtherStep(c, s, t, a, s', u);
    }
  }

  lemma EntryHoldsStep(c: Client, s: State, t: Thread, a: Action, s': State, e: EntryId)
    requires CallerOK(c, s, t) && EntryOK(c, s, e) && MutexOK(s, t, e) && Act(c, s, t, a) == Some(s')
    ensures EntryHolds(c, s', e)
  {
  }

  lemma EntryFilledStep(c: Client, s: State, t: Thread, a: Action, s': State, e: EntryId)
    requires CallerOK(c, s, t) && EntryFilled(s, e) && MutexOK(s, t, e) && Act(c, s, t, a) == Some(s')
    ensures EntryFilled(s', e)
  {
  }

  lemma EntryStep(c: Client, s: State, t: Thread, a: Action, s': State, e: EntryId)
    requires Inv(c, s) && Act(c, s, t, a) == Some(s')
    ensures EntryOK(c, s', e)
  {
    hide Act, CallerOK, EntryHolds, EntryFilled, MutexOK;
    assert CallerOK(c, s, t) && EntryOK(c, s, e) && MutexOK(s, t, e);
    EntryHoldsStep(c, s, t, a, s', e);
    EntryFilledStep(c, s, t, a, s', e);
  }

  lemma MutexStep(c: Client, s: State, t: Thread, a: Action, s': State, u: Thread, e: EntryId)
    requires Inv(c, s) && Act(c, s, t, a) == Some(s')
    ensures MutexOK(s', u, e)
  {
    hide Act, CallerOK, CachedOK, EntryHolds, EntryFilled, MutexOK;
    assert CallerOK(c, s, t) && CallerOK(c, s, u) && MutexOK(s, u, e) && MutexOK(s, t, e) && EntryOK(c, s, e);
    MutexCore(c, s, t, a, s', u, e);
  }

  lemma MutexCore(c: Client, s: State, t: Thread, a: Action, s': State, u: Thread, e: EntryId)
    requires Act(c, s, t, a) == Some(s') && CallerOK(c, s, t) && CallerOK(c, s, u)
    requires MutexOK(s, u, e) && MutexOK(s, t, e) && EntryFilled(s, e)
    ensures MutexOK(s', u, e)
  {
  }

  lemma CachedStep(c: Client, s: State, t: Thread, a: Action, s': State, k: Key)
    requires Inv(c, s) && Act(c, s, t, a) == Some(s')
    ensures CachedOK(c, s', k)
  {
    assert CallerOK(c, s, t) && CachedOK(c, s, k);
    if k in s.cache {
      assert MutexOK(s, t, s.cache[k]) && EntryOK(c, s, s.cache[k]);
    }
    if t in s.pcs && Concerns(s.pcs[t]).Some? {
      assert EntryOK(c, s, Concerns(s.pcs[t]).value) && MutexOK(s, t, Concerns(s.pcs[t]).value);
    }
  }

  lemma TimeStep(c: Client, s: State, now: int)
    requires Inv(c, s) && now >= s.now
    ensures Inv(c, s.(now := now))
  {
    var s' := s.(now := now);
    forall t
      ensures CallerOK(c, s', t)
    {
      assert CallerOK(c, s, t);
    }
    forall e
      ensures EntryOK(c, s', e)
    {
      assert EntryOK(c, s, e);
    }
    forall t, e
      ensures MutexOK(s', t, e)
    {
      assert MutexOK(s, t, e);
    }
    forall k
      ensures CachedOK(c, s', k)
    {
      assert CachedOK(c, s, k);
    }
  }

  lemma InvStep(c: Client, s: State, s': State)
    requires Inv(c, s) && Step(c, s, s')
    ensures Inv(c, s')
  {
    if t, a :| Act(c, s, t, a) == Some(s') {
      hide *;
      forall u
        ensures CallerOK(c, s', u)
      {
        CallerStep(c, s, t, a, s', u);
      }
      forall e
        ensures EntryOK(c, s', e)
      {
        EntryStep(c, s, t, a, s', e);
      }
      forall u, e
        ensures MutexOK(s', u, e)
      {
        MutexStep(c, s, t, a, s', u, e);
      }
      forall k
        ensures CachedOK(c, s', k)
      {
        CachedStep(c, s, t, a, s', k);
      }
      InvFrom(c, s');
    } else {
      TimeStep(c, s, s'.now);
    }
  }

  lemma InvFrom(c: Client, s: State)
    requires (forall t :: CallerOK(c, s, t)) && (forall e :: EntryOK(c, s, e)) && (forall t, e :: MutexOK(s, t, e))
    requires (forall k :: CachedOK(c, s, k))
    ensures Inv(c, s)
  {
  }

  lemma {:induction false} RunInv(c: Client, states: seq<State>, i: nat)
    requires IsRun(c, states) && i < |states|
    ensures Inv(c, states[i])
  {
    hide Act, Step;
    if i > 0 {
      RunInv(c, states, i - 1);
      InvStep(c, states[i - 1], states[i]);
    }
  }

  // ---- What callers can rely on ----

  /**
   What a hit returns: the origin's answer for that key to a fill begun less than the TTL earlier,
   or the empty entry of a failed fill.
   */
  ghost predicate SoundHit(c: Client, s: State, k: Key, e: EntryId, at: int) {
    && e < |s.entries| && s.entries[e].key == k
    && s.entries[e].begun <= at < s.entries[e].begun + c.ttl
    && (|| (s.entries[e].value.Some? && Answer(e, k, s.entries[e].value.value) in s.log)
        || (s.entries[e].value == None && s.entries[e].status == Refused))
  }

  lemma HitsAreSound(c: Client, states: seq<State>, i: nat, t: Thread)
    requires IsRun(c, states) && i < |states|
    requires t in states[i].pcs && states[i].pcs[t].Done? && states[i].pcs[t].result.Hit?
    ensures SoundHit(c, states[i], states[i].pcs[t].key, states[i].pcs[t].result.entry, states[i].pcs[t].result.at)
  {
    hide IsRun;
    RunInv(c, states, i);
    assert CallerOK(c, states[i], t) && EntryOK(c, states[i], states[i].pcs[t].result.entry);
  }

  /** A caller that filled the entry itself returns the origin's answer. */
  lemma FillsAreSound(c: Client, states: seq<State>, i: nat, t: Thread)
    requires IsRun(c, states) && i < |states|
    requires t in states[i].pcs && states[i].pcs[t].Done? && states[i].pcs[t].result.Filled?
    ensures var s, e := states[i], states[i].pcs[t].result.entry;
            e < |s.entries| && s.entries[e].value.Some? && Answer(e, s.pcs[t].key, s.entries[e].value.value) in s.log
  {
    hide IsRun;
    RunInv(c, states, i);
    assert CallerOK(c, states[i], t) && EntryOK(c, states[i], states[i].pcs[t].result.entry);
  }

  /** The filler has unlocked the entry. */
  ghost predicate Settled(s: State, e: EntryId) {
    e < |s.entries| && s.entries[e].status != Open
  }

  /** An entry is never written after its filler unlocks it: what a caller was given stays as it was. */
  lemma SettledStays(c: Client, s: State, s': State, e: EntryId)
    requires Inv(c, s) && Step(c, s, s') && Settled(s, e)
    ensures Settled(s', e)
    ensures s'.entries[e] == s.entries[e].(holder := s'.entries[e].holder)
  {
    if t, a :| Act(c, s, t, a) == Some(s') {
      assert EntryOK(c, s, e) && MutexOK(s, t, e) && CallerOK(c, s, t);
    }
  }

  lemma {:induction false} SettledForever(c: Client, states: seq<State>, i: nat, j: nat, e: EntryId)
    requires IsRun(c, states) && i <= j < |states| && Settled(states[i], e)
    ensures Settled(states[j], e)
    ensures states[j].entries[e].value == states[i].entries[e].value
    ensures states[j].entries[e].expiredAt == states[i].entries[e].expiredAt
    decreases j
  {
    hide Act, Step, Inv, IsRun;
    if i < j {
      SettledForever(c, states, i, j - 1, e);
      RunInv(c, states, j - 1);
      RunStep(c, states, j - 1);
      SettledStays(c, states[j - 1], states[j], e);
    }
  }

  lemma RunStep(c: Client, states: seq<State>, i: nat)
    requires IsRun(c, states) && i < |states| - 1
    ensures Step(c, states[i], states[i + 1])
  {
    hide Step;
  }

  // ---- Unexpired entries are served ----

  /** Where the caller is, if it has called at all. */
  ghost predicate Is(s: State, t: Thread, pc: Pc) {
    t in s.pcs && s.pcs[t] == pc
  }

  /** The caller has loaded the entry for its key and not yet decided whether to use it. */
  ghost predicate Considers(s: State, t: Thread, k: Key, e: EntryId) {
    Is(s, t, Waiting(k, e)) || Is(s, t, Holding(k, e)) || Is(s, t, Checking(k, e))
  }

  /** A caller considers the entry the map has for its key, and misses only if there is none. */
  lemma LoadStep(c: Client, s: State, s': State, t: Thread, k: Key)
    requires Step(c, s, s') && Is(s, t, Loading(k)) && !Is(s', t, Loading(k))
    ensures k in s.cache ==> Considers(s', t, k, s.cache[k])
    ensures k !in s.cache ==> Is(s', t, Missed(k))
  {
    if u, a :| Act(c, s, u, a) == Some(s') {
      if u != t {
        OthersKept(c, s, u, a, s');
      }
    }
  }

  lemma ConsidersStep(c: Client, s: State, s': State, t: Thread, k: Key, e: EntryId)
    requires Inv(c, s) && Step(c, s, s') && Considers(s, t, k, e) && e < |s.entries|
    ensures e < |s'.entries| && s'.entries[e].begun == s.entries[e].begun
    ensures Considers(s', t, k, e) || s'.now == s.now
    ensures !Considers(s', t, k, e) && s.now < s.entries[e].begun + c.ttl ==> Is(s', t, Done(k, Hit(e, s.now)))
    ensures !Considers(s', t, k, e) && s.now >= s.entries[e].begun + c.ttl ==> Is(s', t, Missed(k))
    ensures !Considers(s', t, k, e) ==> Settled(s, e)
  {
    if u, a :| Act(c, s, u, a) == Some(s') {
      hide Act;
      assert EntryOK(c, s, e) && MutexOK(s, u, e) && CallerOK(c, s, u);
      hide Inv, MutexOK, EntryFilled;
      OthersEntry(c, s, u, a, s', e);
      if u == t {
        ConsidersOwn(c, s, s', t, a, k, e);
      }
    }
  }

  lemma ConsidersOwn(c: Client, s: State, s': State, t: Thread, a: Action, k: Key, e: EntryId)
    requires Act(c, s, t, a) == Some(s') && Considers(s, t, k, e) && CallerOK(c, s, t) && EntryHolds(c, s, e)
    requires e < |s.entries|
    ensures s'.now == s.now
    ensures !Considers(s', t, k, e) && s.now < s.entries[e].begun + c.ttl ==> Is(s', t, Done(k, Hit(e, s.now)))
    ensures !Considers(s', t, k, e) && s.now >= s.entries[e].begun + c.ttl ==> Is(s', t, Missed(k))
    ensures !Considers(s', t, k, e) ==> Settled(s, e)
  {
  }

  /**
   A caller that loaded an entry is served that entry if it gets past the lock before the TTL from the
   fill's beginning is over, and otherwise it goes on to fetch the value itself.
   */
  lemma {:induction false} ServedIffFresh(c: Client, states: seq<State>, i: nat, j: nat, t: Thread, k: Key, e: EntryId)
    requires IsRun(c, states) && i < j < |states|
    requires (forall m :: i <= m < j ==> Considers(states[m], t, k, e)) && !Considers(states[j], t, k, e)
    ensures e < |states[i].entries| && Settled(states[j], e)
    ensures Is(states[j], t, Done(k, Hit(e, states[j].now))) <==> states[j].now < states[i].entries[e].begun + c.ttl
    ensures Is(states[j], t, Missed(k)) <==> states[j].now >= states[i].entries[e].begun + c.ttl
    decreases j - i
  {
    hide Act, Step, Inv, IsRun, Settled;
    RunInv(c, states, i);
    RunStep(c, states, i);
    assert Considers(states[i], t, k, e);
    assert e < |states[i].entries| by { ConsideredExists(c, states[i], t, k, e); }
    ConsidersStep(c, states[i], states[i + 1], t, k, e);
    if i + 1 < j {
      ServedIffFresh(c, states, i + 1, j, t, k, e);
    } else {
      SettledStays(c, states[i], states[j], e);
    }
  }

  lemma ConsideredExists(c: Client, s: State, t: Thread, k: Key, e: EntryId)
    requires Inv(c, s) && Considers(s, t, k, e)
    ensures e < |s.entries|
  {
    assert CallerOK(c, s, t);
  }

  /** A caller is about to put another entry in the map under the key, or to drop the one that is there. */
  ghost predicate Replaces(s: State, k: Key) {
    exists t :: t in s.pcs && s.pcs[t].key == k && (s.pcs[t].Created? || s.pcs[t].Storing? || s.pcs[t].Dropping?)
  }

  /** An entry stays in the map for later callers until one of those does so. */
  lemma {:induction false} StaysCached(c: Client, states: seq<State>, i: nat, j: nat, k: Key)
    requires IsRun(c, states) && i <= j < |states| && k in states[i].cache
    requires forall m :: i <= m < j ==> !Replaces(states[m], k)
    ensures k in states[j].cache && states[j].cache[k] == states[i].cache[k]
    decreases j
  {
    hide Act, Step, IsRun;
    if i < j {
      StaysCached(c, states, i, j - 1, k);
      RunStep(c, states, j - 1);
      CacheStep(c, states[j - 1], states[j], k);
    }
  }

  lemma CacheStep(c: Client, s: State, s': State, k: Key)
    requires Step(c, s, s') && k in s.cache && !Replaces(s, k)
    ensures k in s'.cache && s'.cache[k] == s.cache[k]
  {
  }

  /** A fill puts its entry in the map twice: before it asks the origin, and once it has the answer. */
  lemma FillIsCached(c: Client, s: State, s': State, t: Thread, k: Key, e: EntryId)
    requires Step(c, s, s')
    requires Is(s, t, Created(k, e)) || Is(s, t, Storing(k, e))
    requires !Is(s', t, Created(k, e)) && !Is(s', t, Storing(k, e))
    ensures k in s'.cache && s'.cache[k] == e
  {
    if u, a :| Act(c, s, u, a) == Some(s') {
      if u != t {
        OthersKept(c, s, u, a, s');
      }
    }
  }

  /** The caller has a step to take (for a filling caller: the origin answers or refuses). */
  ghost predicate CanStep(c: Client, s: State, t: Thread) {
    exists a: Action :: !a.Begin? && Act(c, s, t, a).Some?
  }

  lemma InsideCanStep(c: Client, s: State, t: Thread, e: EntryId)
    requires Inv(c, s) && e < |s.entries| && t in s.pcs && Holds(s.pcs[t], e)
    ensures CanStep(c, s, t)
  {
    assert CallerOK(c, s, t);
    var a := match s.pcs[t] {
      case Holding(_, _) => Unlock
      case Created(_, _) => Publish
      case Filling(_, _) => Refuse
      case Writing(_, _, _) => Write
      case Storing(_, _) => Store
      case Releasing(_, _) => Release
      case _ => Abandon
    };
    assert Act(c, s, t, a).Some?;
  }

  /** No deadlock: a caller waiting for an entry can take the lock, or whoever has it can step. */
  lemma NoDeadlock(c: Client, states: seq<State>, i: nat, t: Thread)
    requires IsRun(c, states) && i < |states| && t in states[i].pcs && states[i].pcs[t].Waiting?
    ensures var s, e := states[i], states[i].pcs[t].entry;
            && e < |s.entries|
            && (s.entries[e].holder == None ==> CanStep(c, s, t))
            && (s.entries[e].holder.Some? ==>
                  s.entries[e].holder.value in s.pcs && !s.pcs[s.entries[e].holder.value].Waiting?
                  && CanStep(c, s, s.entries[e].holder.value))
  {
    RunInv(c, states, i);
    hide IsRun;
    var s, e := states[i], states[i].pcs[t].entry;
    assert CallerOK(c, s, t);
    if s.entries[e].holder == None {
      assert Act(c, s, t, Lock).Some?;
    } else {
      assert MutexOK(s, s.entries[e].holder.value, e);
      InsideCanStep(c, s, s.entries[e].holder.value, e);
    }
  }

  // ---- Failed entries that stay ----

  /** In the map a failed entry is still with its filler, or its key is one whose drop misses. */
  lemma FailuresAreDropped(c: Client, states: seq<State>, i: nat, k: Key)
    requires IsRun(c, states) && i < |states| && Outlives(states[i], k)
    ensures Keeps(c, k)
  {
    hide IsRun;
    RunInv(c, states, i);
    assert CachedOK(c, states[i], k);
  }

  /** Some run leaves a failed entry of this key behind. */
  ghost predicate Leaves(c: Client, states: seq<State>, k: Key) {
    IsRun(c, states) && Outlives(states[|states| - 1], k)
  }

  /** A failed entry can outlive its filler exactly for keys of a kind the predictor client does not know. */
  lemma FailureOutlivesIff(c: Client, k: Key)
    ensures (exists states :: Leaves(c, states, k)) <==> c.predictor && k.kind !in c.kinds
  {
    if states :| Leaves(c, states, k) {
      FailuresAreDropped(c, states, |states| - 1, k);
    }
    if Keeps(c, k) {
      var states := FailureStays(c, k, 0);
      assert Leaves(c, states, k);
    }
  }

  /** The metrics client never leaves a failed entry behind, whatever it is asked for. */
  lemma MetricsDropsFailures(c: Client, states: seq<State>, i: nat, k: Key)
    requires IsRun(c, states) && i < |states| && !c.predictor && k in states[i].cache
    ensures var s, e := states[i], states[i].cache[k];
            && e < |s.entries|
            && (s.entries[e].status == Refused ==>
                  s.entries[e].filler in s.pcs && s.pcs[s.entries[e].filler] == Dropping(k, e))
  {
    hide IsRun;
    RunInv(c, states, i);
    assert CachedOK(c, states[i], k);
  }

  const ENDPOINT_KIND := "PowerConsumptionEndpoint"
  const WATT_KIND := "Watt"

  function PredictorClient(ttl: int): Client { Client(ttl, {ENDPOINT_KIND, WATT_KIND}, true) }

  /** The two exported methods of the predictor client ask for known kinds only: nothing they fail to fetch stays. */
  lemma ExportedCallsDropFailures(ttl: int, states: seq<State>, i: nat, detail: string)
    requires IsRun(PredictorClient(ttl), states) && i < |states|
    ensures !Outlives(states[i], Key(ENDPOINT_KIND, detail)) && !Outlives(states[i], Key(WATT_KIND, detail))
  {
    hide IsRun, Outlives;
    if Outlives(states[i], Key(ENDPOINT_KIND, detail)) {
      FailuresAreDropped(PredictorClient(ttl), states, i, Key(ENDPOINT_KIND, detail));
    }
    if Outlives(states[i], Key(WATT_KIND, detail)) {
      FailuresAreDropped(PredictorClient(ttl), states, i, Key(WATT_KIND, detail));
    }
  }

  /** For every such key there is a run that leaves its failed entry in the map. */
  lemma FailureStays(c: Client, k: Key, now: int) returns (states: seq<State>)
    requires Keeps(c, k)
    ensures IsRun(c, states) && Outlives(states[|states| - 1], k)
    ensures LeftBehind(c, states[|states| - 1], k, now)
  {
    hide Steps, Act, Step;
    var x := Entry(k, now, now + c.ttl, None, Some(0), 0, Open);
    var before := FillBegins(c, k, x);
    var failing := FillFails(c, k, before[|before| - 1], x);
    Join(c, before, failing);
    states := before + failing[1..];
  }

  /** The first fill of the key has failed, its entry is still in the map, and nobody else has come yet. */
  ghost predicate LeftBehind(c: Client, s: State, k: Key, now: int) {
    && s.now == now && k in s.cache && s.cache[k] == 0
    && s.entries == [Entry(k, now, now + c.ttl, None, None, 0, Refused)]
    && 1 !in s.pcs && 0 in s.pcs && s.pcs[0] == Done(k, Error)
  }

  /** And a later caller is given that empty entry, as long as it has not expired. */
  lemma PredictorServesFailure(c: Client, k: Key, now: int) returns (states: seq<State>)
    requires Keeps(c, k) && c.ttl > 0
    ensures IsRun(c, states)
    ensures var s := states[|states| - 1];
            1 in s.pcs && s.pcs[1] == Done(k, Hit(0, now)) && |s.entries| == 1 && s.entries[0].value == None
  {
    hide Steps, Act, Step;
    var before := FailureStays(c, k, now);
    var after := ServeLeftBehind(c, before[|before| - 1], k, now);
    Join(c, before, after);
    states := before + after[1..];
  }

  lemma Join(c: Client, a: seq<State>, b: seq<State>)
    requires Steps(c, a) && Steps(c, b) && |a| > 0 && |b| > 0 && a[|a| - 1] == b[0]
    ensures Steps(c, a + b[1..]) && (a + b[1..])[|a| + |b| - 2] == b[|b| - 1]
  {
    hide Step;
    var ab := a + b[1..];
    forall i | 0 <= i < |ab| - 1
      ensures Step(c, ab[i], ab[i + 1])
    {
      if i < |a| - 1 {
        assert Step(c, a[i], a[i + 1]);
      } else {
        assert Step(c, b[i - (|a| - 1)], b[i - (|a| - 1) + 1]);
      }
    }
  }

  lemma FillBegins(c: Client, k: Key, x: Entry) returns (states: seq<State>)
    requires x == Entry(k, x.begun, x.begun + c.ttl, None, Some(0), 0, Open)
    ensures |states| > 1 && Initial(states[0]) && Steps(c, states)
    ensures var s := states[|states| - 1];
            && s.now == x.begun && k in s.cache && s.cache[k] == 0 && s.entries == [x]
            && 1 !in s.pcs && 0 in s.pcs && s.pcs[0] == Filling(k, 0)
  {
    var s0 := State(x.begun, map[], [], map[], {});
    var s1 := At(s0, 0, Loading(k));
    assert Act(c, s0, 0, Begin(k)) == Some(s1);
    var s2 := At(s1, 0, Missed(k));
    assert Act(c, s1, 0, Load) == Some(s2);
    assert [] + [x] == [x];
    var s3 := At(s2.(entries := [x]), 0, Created(k, 0));
    assert Act(c, s2, 0, Create) == Some(s3);
    var s4 := At(s3.(cache := s3.cache[k := 0]), 0, Filling(k, 0));
    assert Act(c, s3, 0, Publish) == Some(s4);
    states := [s0, s1, s2, s3, s4];
  }

  lemma FillFails(c: Client, k: Key, s: State, x: Entry) returns (states: seq<State>)
    requires Keeps(c, k) && x == Entry(k, x.begun, x.begun + c.ttl, None, Some(0), 0, Open)
    requires s.now == x.begun && k in s.cache && s.cache[k] == 0 && s.entries == [x]
    requires 1 !in s.pcs && 0 in s.pcs && s.pcs[0] == Filling(k, 0)
    ensures |states| > 1 && states[0] == s && Steps(c, states) && LeftBehind(c, states[|states| - 1], k, x.begun)
    ensures Outlives(states[|states| - 1], k)
  {
    var y := x.(holder := None, status := Refused);
    var s5 := At(s, 0, Failing(k, 0));
    assert Act(c, s, 0, Refuse) == Some(s5);
    assert [x][0 := y] == [y];
    var s6 := At(s5.(entries := [y]), 0, Dropping(k, 0));
    assert Act(c, s5, 0, Abandon) == Some(s6);
    var s7 := At(s6, 0, Done(k, Error));
    assert Act(c, s6, 0, Drop) == Some(s7);
    states := [s, s5, s6, s7];
  }

  /** A new caller of the key runs into the entry that was left behind. */
  lemma ServeLeftBehind(c: Client, s: State, k: Key, now: int) returns (states: seq<State>)
    requires LeftBehind(c, s, k, now) && c.ttl > 0
    ensures |states| > 0 && states[0] == s && Steps(c, states)
    ensures var s' := states[|states| - 1];
            1 in s'.pcs && s'.pcs[1] == Done(k, Hit(0, now)) && s'.entries == s.entries
  {
    var y := s.entries[0];
    var z := y.(holder := Some(1));
    var s1 := At(s, 1, Loading(k));
    assert Act(c, s, 1, Begin(k)) == Some(s1);
    var s2 := At(s1, 1, Waiting(k, 0));
    assert Act(c, s1, 1, Load) == Some(s2);
    assert [y][0 := z] == [z] && [z][0 := y] == [y];
    var s3 := At(s2.(entries := [z]), 1, Holding(k, 0));
    assert Act(c, s2, 1, Lock) == Some(s3);
    var s4 := At(s3.(entries := [y]), 1, Checking(k, 0));
    assert Act(c, s3, 1, Unlock) == Some(s4);
    var s5 := At(s4, 1, Done(k, Hit(0, now)));
    assert Act(c, s4, 1, Check) == Some(s5);
    states := [s, s1, s2, s3, s4, s5];
  }
}
