/** Per-key sessions with a jittered life, an opportunistic sweep, and the throttle of the init calls. */
module Session {
  import opened Text

  /** Times and durations in nanoseconds. */
  const MILLISECOND: nat := 1_000_000
  const HOUR: nat := 3_600_000 * MILLISECOND
  const SESSION_DURATION: nat := 12 * HOUR
  const SESSION_JITTER: nat := HOUR
  const INIT_REFRESH: nat := 8 * HOUR
  const INIT_JITTER: nat := 2 * HOUR
  const SWEEP_ABOVE: nat := 1024

  datatype Entry = Entry(id: string, expiresAt: int)

  type Sessions = map<string, Entry>

  /** One call of `ensureSession`: the clock, and the id and jitter it would mint with. */
  datatype Call = Call(key: string, now: int, minted: string, jitter: nat)

  /** The jitter is drawn in whole milliseconds below one hour. */
  predicate ValidCall(c: Call) {
    c.jitter * MILLISECOND < SESSION_JITTER
  }

  function Minted(c: Call): Entry {
    Entry(c.minted, c.now + SESSION_DURATION + c.jitter * MILLISECOND)
  }

  function Expired(sessions: Sessions, now: int): set<string> {
    set k | k in sessions && now > sessions[k].expiresAt
  }

  function Sweep<V>(sessions: Sessions, table: map<string, V>, now: int): map<string, V> {
    table - Expired(sessions, now)
  }

  function Swept<V>(sessions: Sessions, table: map<string, V>, now: int): map<string, V> {
    if |sessions| > SWEEP_ABOVE then Sweep(sessions, table, now) else table
  }

  /** Reuse a live entry, mint otherwise. */
  function Lookup(sessions: Sessions, c: Call): (Sessions, string) {
    if c.key in sessions && c.now < sessions[c.key].expiresAt then (sessions, sessions[c.key].id)
    else (sessions[c.key := Minted(c)], c.minted)
  }

  function EnsureStep(sessions: Sessions, c: Call): (Sessions, string) {
    Lookup(Swept(sessions, sessions, c.now), c)
  }

  // ---- The manager ----

  /** A key's init state. A nil fingerprint is `None`. */
  datatype KeyState<F> = KeyState(fingerprint: Option<F>, nextInitAt: Option<int>)

  class SessionManager<F(==)> {
    var sessions: Sessions
    var keyState: map<string, KeyState<F>>
    const generate: string -> F

    constructor (generate: string -> F)
      ensures sessions == map[] && keyState == map[] && this.generate == generate
    {
      sessions, keyState := map[], map[];
      this.generate := generate;
    }

    method EnsureSession(c: Call) returns (id: string)
      modifies this
      ensures (sessions, id) == EnsureStep(old(sessions), c)
      ensures keyState == Swept(old(sessions), old(keyState), c.now)
      ensures |old(sessions)| <= 1024 ==> keyState == old(keyState)
      ensures |old(sessions)| > 1024 ==> forall k :: k in sessions && k != c.key ==> c.now <= sessions[k].expiresAt
    {
      if |sessions| > SWEEP_ABOVE {
        var todo := sessions.Keys;
        ghost var before, states := sessions, keyState;
        while todo != {}
          invariant todo <= sessions.Keys <= before.Keys
          invariant forall k :: k in sessions ==> sessions[k] == before[k]
          invariant forall k :: k in before && k in todo ==> k in sessions
          invariant forall k :: k in before && k !in todo ==> (k in sessions <==> c.now <= before[k].expiresAt)
          invariant keyState.Keys <= states.Keys
          invariant forall k :: k in keyState ==> keyState[k] == states[k]
          invariant forall k :: k in states ==> (k !in keyState <==> k in before && k !in sessions)
          decreases todo
        {
          var key :| key in todo;
          if c.now > sessions[key].expiresAt {
            sessions := sessions - {key};
            keyState := keyState - {key};
          }
          todo := todo - {key};
        }
        assert sessions == Sweep(before, before, c.now);
        assert keyState == Sweep(before, states, c.now);
      }
      if c.key in sessions && c.now < sessions[c.key].expiresAt {
        return sessions[c.key].id;
      }
      id := c.minted;
      sessions := sessions[c.key := Entry(id, c.now + SESSION_DURATION + c.jitter * MILLISECOND)];
    }

    method StateForKey(key: string) returns (state: KeyState<F>)
      modifies `keyState
      ensures old(key in keyState) ==> state == old(keyState)[key] && keyState == old(keyState)
      ensures old(key !in keyState) ==>
                state == KeyState(Some(generate(key)), None) && keyState == old(keyState)[key := state]
    {
      if key in keyState {
        return keyState[key];
      }
      state := KeyState(Some(generate(key)), None);
      keyState := keyState[key := state];
    }

    method MarkInitialized(key: string, now: int, jitter: nat)
      modifies `keyState
      ensures keyState == MarkStep(old(keyState), key, now, jitter)
    {
      var state := KeyState(None, None);
      if key in keyState {
        state := keyState[key];
      }
      keyState := keyState[key := state.(nextInitAt := Some(DueAfter(now, jitter)))];
    }

    /** The first half of an init: whether the key is due, and with which fingerprint. */
    method CheckDue(key: string, now: int) returns (sent: Option<Option<F>>)
      modifies `keyState
      ensures (keyState, sent) == CheckStep(generate, old(keyState), key, now)
    {
      var state := StateForKey(key);
      if state.nextInitAt.Some? && now < state.nextInitAt.value {
        return None;
      }
      return Some(state.fingerprint);
    }

    /** One whole init with nothing in between. `live` says whether the context survived the two calls. */
    method EnsureInitialized(key: string, now: int, later: int, jitter: nat, live: bool) returns (sent: Option<Option<F>>)
      modifies `keyState
      ensures var (checked, due) := CheckStep(generate, old(keyState), key, now);
              && sent == due
              && keyState == if due.Some? && live then MarkStep(checked, key, later, jitter) else checked
    {
      sent := CheckDue(key, now);
      if sent == None {
        return;
      }
      if live {
        MarkInitialized(key, later, jitter);
      }
    }
  }

  /** The table after a check, which knows the key from then on, and the fingerprint that is sent if the key is due. */
  function CheckStep<F>(generate: string -> F, keyState: map<string, KeyState<F>>, key: string, now: int)
    : (map<string, KeyState<F>>, Option<Option<F>>)
  {
    var checked := if key in keyState then keyState else keyState[key := KeyState(Some(generate(key)), None)];
    var state := checked[key];
    (checked, if state.nextInitAt.Some? && now < state.nextInitAt.value then None else Some(state.fingerprint))
  }

  function DueAfter(now: int, jitter: nat): int {
    now + INIT_REFRESH + jitter * MILLISECOND
  }

  /** An absent key reads as a state without a fingerprint. */
  function MarkStep<F>(keyState: map<string, KeyState<F>>, key: string, now: int, jitter: nat): map<string, KeyState<F>> {
    var state := if key in keyState then keyState[key] else KeyState(None, None);
    keyState[key := state.(nextInitAt := Some(DueAfter(now, jitter)))]
  }

  // ---- The sweep is invisible ----

  function RunSwept(calls: seq<Call>): (Sessions, seq<string>) {
    if calls == [] then (map[], [])
    else
      var (sessions, ids) := RunSwept(calls[..|calls| - 1]);
      var (next, id) := EnsureStep(sessions, calls[|calls| - 1]);
      (next, ids + [id])
  }

  /** The same without ever deleting anything. */
  function RunKept(calls: seq<Call>): (Sessions, seq<string>) {
    if calls == [] then (map[], [])
    else
      var (sessions, ids) := RunKept(calls[..|calls| - 1]);
      var (next, id) := Lookup(sessions, calls[|calls| - 1]);
      (next, ids + [id])
  }

  predicate ClockRuns(calls: seq<Call>) {
    forall i, j :: 0 <= i < j < |calls| ==> calls[i].now <= calls[j].now
  }

  /** From `now` on the two tables have the same live entries. */
  predicate SameLive(a: Sessions, b: Sessions, now: int) {
    && (forall k :: k in a && now < a[k].expiresAt ==> k in b && b[k] == a[k])
    && (forall k :: k in b && now < b[k].expiresAt ==> k in a && a[k] == b[k])
  }

  lemma StepSameLive(a: Sessions, b: Sessions, before: int, c: Call)
    requires SameLive(a, b, before) && before <= c.now
    ensures EnsureStep(a, c).1 == Lookup(b, c).1
    ensures SameLive(EnsureStep(a, c).0, Lookup(b, c).0, c.now)
  {
    var swept := Swept(a, a, c.now);
    assert SameLive(swept, b, c.now);
  }

  lemma {:induction false} RunsSameLive(calls: seq<Call>)
    requires ClockRuns(calls)
    ensures calls != [] ==> SameLive(RunSwept(calls).0, RunKept(calls).0, calls[|calls| - 1].now)
    ensures RunSwept(calls).1 == RunKept(calls).1
  {
    if calls != [] {
      var front, last := calls[..|calls| - 1], calls[|calls| - 1];
      RunsSameLive(front);
      StepSameLive(RunSwept(front).0, RunKept(front).0, if front == [] then last.now else front[|front| - 1].now, last);
    }
  }

  /** Main result: whatever was swept, every call returns the id that a manager without a sweep would return. */
  lemma SweepIsInvisible(calls: seq<Call>)
    requires ClockRuns(calls)
    ensures RunSwept(calls).1 == RunKept(calls).1 && |RunSwept(calls).1| == |calls|
  {
    RunsSameLive(calls);
    KeptLength(calls);
  }

  lemma {:induction false} KeptLength(calls: seq<Call>)
    ensures |RunKept(calls).1| == |calls|
  {
    if calls != [] {
      KeptLength(calls[..|calls| - 1]);
    }
  }

  // ---- How long an id lives ----

  /** Which call minted the id that the i-th call returned. */
  function MintOf(calls: seq<Call>, i: nat): (m: nat)
    requires i < |calls|
    ensures m <= i && calls[m].key == calls[i].key
    decreases i
  {
    var previous := PreviousCall(calls, i, calls[i].key);
    if previous.None? then i
    else
      var m := MintOf(calls, previous.value);
      if calls[i].now < Minted(calls[m]).expiresAt then m else i
  }

  /** The latest call for `key` before position `i`. */
  function PreviousCall(calls: seq<Call>, i: nat, key: string): (p: Option<nat>)
    requires i <= |calls|
    ensures p.Some? ==> p.value < i && calls[p.value].key == key
    ensures forall j :: 0 <= j < i && calls[j].key == key ==> p.Some? && j <= p.value
  {
    if i == 0 then None
    else if calls[i - 1].key == key then Some(i - 1)
    else PreviousCall(calls, i - 1, key)
  }

  lemma {:induction false} MintOfPrefix(calls: seq<Call>, n: nat, i: nat)
    requires i < n <= |calls|
    ensures MintOf(calls[..n], i) == MintOf(calls, i)
    decreases i
  {
    PreviousPrefix(calls, n, i, calls[i].key);
    var previous := PreviousCall(calls, i, calls[i].key);
    if previous.Some? {
      MintOfPrefix(calls, n, previous.value);
    }
  }

  lemma {:induction false} PreviousPrefix(calls: seq<Call>, n: nat, i: nat, key: string)
    requires i <= n <= |calls|
    ensures PreviousCall(calls[..n], i, key) == PreviousCall(calls, i, key)
  {
    if i > 0 {
      PreviousPrefix(calls, n, i - 1, key);
    }
  }

  /** The entry that a key should have after the first `n` calls: the one its latest call used. */
  function Expected(calls: seq<Call>, n: nat, key: string): Option<Entry>
    requires n <= |calls|
  {
    match PreviousCall(calls, n, key)
    case None => None
    case Some(p) => Some(Minted(calls[MintOf(calls, p)]))
  }

  lemma ExpectedPrefix(calls: seq<Call>, n: nat, key: string)
    requires n <= |calls|
    ensures Expected(calls[..n], n, key) == Expected(calls, n, key)
  {
    PreviousPrefix(calls, n, n, key);
    var previous := PreviousCall(calls, n, key);
    if previous.Some? {
      MintOfPrefix(calls, n, previous.value);
    }
  }

  function EntryOf(sessions: Sessions, key: string): Option<Entry> {
    if key in sessions then Some(sessions[key]) else None
  }

  lemma {:induction false} TableAsExpected(calls: seq<Call>, key: string)
    ensures EntryOf(RunKept(calls).0, key) == Expected(calls, |calls|, key)
  {
    if calls != [] {
      var n := |calls| - 1;
      TableAsExpected(calls[..n], key);
      ExpectedPrefix(calls, n, key);
    }
  }

  lemma KeptStep(calls: seq<Call>, n: nat)
    requires n < |calls|
    ensures RunKept(calls[..n + 1]).1 == RunKept(calls[..n]).1 + [Lookup(RunKept(calls[..n]).0, calls[n]).1]
    ensures |RunKept(calls[..n]).1| == n
  {
    assert calls[..n + 1][..n] == calls[..n];
    KeptLength(calls[..n]);
  }

  lemma LookupAsMinted(calls: seq<Call>, n: nat)
    requires n < |calls|
    ensures Lookup(RunKept(calls[..n]).0, calls[n]).1 == calls[MintOf(calls, n)].minted
  {
    TableAsExpected(calls[..n], calls[n].key);
    ExpectedPrefix(calls, n, calls[n].key);
  }

  /** The i-th id is the one minted by the call that `MintOf` names. */
  lemma {:induction false} IdsAsMinted(calls: seq<Call>, n: nat, i: nat)
    requires i < n <= |calls|
    ensures |RunKept(calls[..n]).1| == n && RunKept(calls[..n]).1[i] == calls[MintOf(calls, i)].minted
    decreases n
  {
    KeptStep(calls, n - 1);
    if i < n - 1 {
      IdsAsMinted(calls, n - 1, i);
    } else {
      LookupAsMinted(calls, i);
    }
  }

  lemma {:induction false} MintIsRecent(calls: seq<Call>, i: nat)
    requires i < |calls| && forall k :: 0 <= k < |calls| ==> ValidCall(calls[k])
    ensures calls[i].now < calls[MintOf(calls, i)].now + SESSION_DURATION + SESSION_JITTER
    ensures MintOf(calls, MintOf(calls, i)) == MintOf(calls, i)
    decreases i
  {
    var previous := PreviousCall(calls, i, calls[i].key);
    if previous.Some? {
      MintIsRecent(calls, previous.value);
      assert ValidCall(calls[MintOf(calls, previous.value)]);
    }
  }

  lemma {:induction false} MintIsKept(calls: seq<Call>, i: nat, j: nat)
    requires i < j < |calls| && ClockRuns(calls)
    requires calls[i].key == calls[j].key && MintOf(calls, i) == i
    requires calls[j].now < calls[i].now + SESSION_DURATION
    ensures MintOf(calls, j) == i
    decreases j
  {
    var previous := PreviousCall(calls, j, calls[j].key);
    if previous.value > i {
      MintIsKept(calls, i, previous.value);
    }
  }

  /** Main result: in a run with a sweep, every call returns an id minted less than 13 hours before by a call for the
      same key, and within 12 hours of a mint every call for that key returns the minted id. */
  lemma IdLife(calls: seq<Call>, j: nat)
    requires j < |calls| && ClockRuns(calls) && forall k :: 0 <= k < |calls| ==> ValidCall(calls[k])
    ensures |RunSwept(calls).1| == |calls|
    ensures var m := MintOf(calls, j);
            && MintOf(calls, m) == m && calls[m].key == calls[j].key
            && RunSwept(calls).1[j] == calls[m].minted
            && calls[j].now < calls[m].now + 13 * 3_600_000_000_000
    ensures forall i | 0 <= i < j && calls[i].key == calls[j].key && MintOf(calls, i) == i
                       && calls[j].now < calls[i].now + 12 * 3_600_000_000_000 ::
              RunSwept(calls).1[j] == calls[i].minted
  {
    SweepIsInvisible(calls);
    IdsAsMinted(calls, |calls|, j);
    assert calls[..|calls|] == calls;
    MintIsRecent(calls, j);
    forall i | 0 <= i < j && calls[i].key == calls[j].key && MintOf(calls, i) == i
               && calls[j].now < calls[i].now + 12 * HOUR
      ensures RunSwept(calls).1[j] == calls[i].minted
    {
      MintIsKept(calls, i, j);
    }
  }

  // ---- Concurrent requests ----

  /** The manager's tables, and where the requests stand that are using it, with their keys: between the check and the mark
      of their init, or past it and about to ask for their session. */
  datatype Tables<F> = Tables(
    sessions: Sessions, keyState: map<string, KeyState<F>>, waiting: map<nat, string>, ready: map<nat, string>)

  /** What a request does without being interrupted. It checks its key; if the key was due it marks it, unless its context
      is cancelled; then it asks for its session, unless it brought a session id. After that it may start over with
      another key. */
  datatype Op =
    | Check(request: nat, key: string, now: int)
    | Mark(request: nat, now: int, jitter: nat)
    | Cancel(request: nat, now: int)
    | Ensure(request: nat, now: int, minted: string, jitter: nat)
    | Skip(request: nat, now: int)

  function StepFor<F>(t: Tables<F>, request: nat, sent: bool, key: string, checked: map<string, KeyState<F>>): Tables<F> {
    if sent then Tables(t.sessions, checked, t.waiting[request := key], t.ready)
    else Tables(t.sessions, checked, t.waiting, t.ready[request := key])
  }

  /** One step, and the fingerprint it sends, if any. A step that the request cannot take changes nothing. */
  function OpStep<F>(generate: string -> F, t: Tables<F>, op: Op): (Tables<F>, Option<Option<F>>) {
    match op
    case Check(request, key, now) =>
      if request in t.waiting || request in t.ready then (t, None)
      else
        var (checked, sent) := CheckStep(generate, t.keyState, key, now);
        (StepFor(t, request, sent.Some?, key, checked), sent)
    case Mark(request, now, jitter) =>
      if request !in t.waiting then (t, None)
      else
        var key := t.waiting[request];
        (Tables(t.sessions, MarkStep(t.keyState, key, now, jitter), t.waiting - {request}, t.ready[request := key]), None)
    case Cancel(request, _) =>
      if request !in t.waiting then (t, None)
      else (Tables(t.sessions, t.keyState, t.waiting - {request}, t.ready[request := t.waiting[request]]), None)
    case Ensure(request, now, minted, jitter) =>
      if request !in t.ready then (t, None)
      else
        var c := Call(t.ready[request], now, minted, jitter);
        (Tables(EnsureStep(t.sessions, c).0, Swept(t.sessions, t.keyState, now), t.waiting, t.ready - {request}), None)
    case Skip(request, _) =>
      (Tables(t.sessions, t.keyState, t.waiting, t.ready - {request}), None)
  }

  /** The tables after the first `n` steps of a history; every interleaving is some history. */
  function After<F>(generate: string -> F, ops: seq<Op>, n: nat): Tables<F>
    requires n <= |ops|
  {
    if n == 0 then Tables(map[], map[], map[], map[]) else OpStep(generate, After(generate, ops, n - 1), ops[n - 1]).0
  }

  /** The fingerprint that step `i` sent, if it sent one. */
  function SentBy<F>(generate: string -> F, ops: seq<Op>, i: nat): Option<Option<F>>
    requires i < |ops|
  {
    OpStep(generate, After(generate, ops, i), ops[i]).1
  }

  /** A request that checks its key, is cancelled and brings its own session id stands somewhere in between, under its key,
      and leaves nothing behind but the fingerprint of a key that was not known. */
  lemma GivesUp<F>(generate: string -> F, t: Tables<F>, request: nat, key: string, now: int, later: int, last: int)
    requires request !in t.waiting && request !in t.ready
    ensures var a := OpStep(generate, t, Check(request, key, now)).0;
            var b := OpStep(generate, a, Cancel(request, later)).0;
            var c := OpStep(generate, b, Skip(request, last)).0;
            && (request in a.waiting || request in a.ready) && request in b.ready && b.ready[request] == key
            && c == t.(keyState := a.keyState)
            && a.keyState == if key in t.keyState then t.keyState else t.keyState[key := KeyState(Some(generate(key)), None)]
  {
    var a := OpStep(generate, t, Check(request, key, now)).0;
    var b := OpStep(generate, a, Cancel(request, later)).0;
    assert t.waiting[request := key] - {request} == t.waiting;
    assert t.ready[request := key] - {request} == t.ready;
  }

  // ---- One key through a history ----

  /** What a step does to one key: checks it, marks it, sweeps it away, or none of these. */
  datatype Fate = Checked | Marked(due: int) | Forgotten | Untouched

  function FateOf<F>(t: Tables<F>, op: Op, key: string): Fate {
    match op
    case Check(request, checked, _) =>
      if checked == key && request !in t.waiting && request !in t.ready then Checked else Untouched
    case Mark(request, now, jitter) =>
      if request in t.waiting && t.waiting[request] == key then Marked(DueAfter(now, jitter)) else Untouched
    case Ensure(request, now, _, _) =>
      if request in t.ready && |t.sessions| > SWEEP_ABOVE && key in Expired(t.sessions, now) then Forgotten else Untouched
    case _ => Untouched
  }

  function KeyStep<F>(own: F, state: Option<KeyState<F>>, fate: Fate): Option<KeyState<F>> {
    match fate
    case Checked => if state == None then Some(KeyState(Some(own), None)) else state
    case Marked(due) => Some((if state.Some? then state.value else KeyState(None, None)).(nextInitAt := Some(due)))
    case Forgotten => None
    case Untouched => state
  }

  function EntryIn<V>(table: map<string, V>, key: string): Option<V> {
    if key in table then Some(table[key]) else None
  }

  lemma CheckIsFate<F>(generate: string -> F, t: Tables<F>, op: Op, key: string)
    requires op.Check?
    ensures EntryIn(OpStep(generate, t, op).0.keyState, key) ==
            KeyStep(generate(key), EntryIn(t.keyState, key), FateOf(t, op, key))
  {
  }

  lemma EnsureIsFate<F>(generate: string -> F, t: Tables<F>, op: Op, key: string)
    requires op.Ensure?
    ensures EntryIn(OpStep(generate, t, op).0.keyState, key) ==
            KeyStep(generate(key), EntryIn(t.keyState, key), FateOf(t, op, key))
  {
  }

  lemma StepIsFate<F>(generate: string -> F, t: Tables<F>, op: Op, key: string)
    ensures EntryIn(OpStep(generate, t, op).0.keyState, key) ==
            KeyStep(generate(key), EntryIn(t.keyState, key), FateOf(t, op, key))
  {
    if op.Check? {
      CheckIsFate(generate, t, op, key);
    } else if op.Ensure? {
      EnsureIsFate(generate, t, op, key);
    }
  }

  function Fates<F>(generate: string -> F, ops: seq<Op>, key: string): nat -> Fate {
    (i: nat) => if i < |ops| then FateOf(After(generate, ops, i), ops[i], key) else Untouched
  }

  function States<F>(generate: string -> F, ops: seq<Op>, key: string): nat -> Option<KeyState<F>> {
    (n: nat) => if n <= |ops| then EntryIn(After(generate, ops, n).keyState, key) else None
  }

  /** For `n` steps the key's states are what its fates make of them. */
  ghost predicate Evolves<F(!new)>(own: F, fates: nat -> Fate, states: nat -> Option<KeyState<F>>, n: nat) {
    states(0) == None && forall m: nat :: m < n ==> states(m + 1) == KeyStep(own, states(m), fates(m))
  }

  lemma StatesStep<F>(generate: string -> F, ops: seq<Op>, key: string, m: nat)
    requires m < |ops|
    ensures States(generate, ops, key)(m + 1) ==
            KeyStep(generate(key), States(generate, ops, key)(m), Fates(generate, ops, key)(m))
  {
    StepIsFate(generate, After(generate, ops, m), ops[m], key);
  }

  lemma HistoryEvolves<F(!new)>(generate: string -> F, ops: seq<Op>, key: string)
    ensures Evolves(generate(key), Fates(generate, ops, key), States(generate, ops, key), |ops|)
  {
    var fates, states := Fates(generate, ops, key), States(generate, ops, key);
    forall m: nat | m < |ops|
      ensures states(m + 1) == KeyStep(generate(key), states(m), fates(m))
    {
      StatesStep(generate, ops, key, m);
    }
    assert states(0) == None;
  }

  // ---- What a key's state tells of its fates ----

  /** Step `j` marked a key that was not known, and it has been known ever since. */
  ghost predicate BornByMark<F>(fates: nat -> Fate, states: nat -> Option<KeyState<F>>, j: nat, n: nat) {
    j < n && fates(j).Marked? && states(j) == None && forall m: nat :: j < m <= n ==> states(m).Some?
  }

  lemma BornByMarkStep<F>(fates: nat -> Fate, states: nat -> Option<KeyState<F>>, j: nat, n: nat)
    requires states(n + 1).Some?
    ensures BornByMark(fates, states, j, n + 1) <==>
            if j == n then fates(n).Marked? && states(n) == None
            else BornByMark(fates, states, j, n) && states(n).Some?
  {
  }

  lemma {:induction false} FingerprintTells<F(!new)>(own: F, fates: nat -> Fate, states: nat -> Option<KeyState<F>>, n: nat)
    requires Evolves(own, fates, states, n) && states(n).Some?
    ensures states(n).value.fingerprint == None <==> exists j :: BornByMark(fates, states, j, n)
    ensures states(n).value.fingerprint.Some? ==> states(n).value.fingerprint == Some(own)
  {
    var k := n - 1;
    assert states(k + 1) == KeyStep(own, states(k), fates(k));
    forall j
      ensures BornByMark(fates, states, j, n) <==>
              if j == k then fates(k).Marked? && states(k) == None else BornByMark(fates, states, j, k) && states(k).Some?
    {
      BornByMarkStep(fates, states, j, k);
    }
    if states(k).Some? {
      FingerprintTells(own, fates, states, k);
    } else if fates(k).Marked? {
      assert BornByMark(fates, states, k, n);
    }
  }

  /** Step `i` is the latest mark of a key that has been known ever since. */
  ghost predicate StandingMark<F>(fates: nat -> Fate, states: nat -> Option<KeyState<F>>, i: nat, n: nat) {
    && i < n && fates(i).Marked?
    && (forall m: nat :: i < m < n ==> !fates(m).Marked?)
    && (forall m: nat :: i < m <= n ==> states(m).Some?)
  }

  lemma StandingMarkStep<F>(fates: nat -> Fate, states: nat -> Option<KeyState<F>>, i: nat, n: nat)
    requires states(n + 1).Some?
    ensures StandingMark(fates, states, i, n + 1) <==>
            if i == n then fates(n).Marked?
            else StandingMark(fates, states, i, n) && !fates(n).Marked? && states(n).Some?
  {
  }

  lemma {:induction false} DueTells<F(!new)>(own: F, fates: nat -> Fate, states: nat -> Option<KeyState<F>>, n: nat)
    requires Evolves(own, fates, states, n) && states(n).Some?
    ensures states(n).value.nextInitAt.Some? ==> exists i :: StandingMark(fates, states, i, n)
    ensures forall i :: StandingMark(fates, states, i, n) ==> states(n).value.nextInitAt == Some(fates(i).due)
  {
    var k := n - 1;
    assert states(k + 1) == KeyStep(own, states(k), fates(k));
    forall i
      ensures StandingMark(fates, states, i, n) <==>
              if i == k then fates(k).Marked? else StandingMark(fates, states, i, k) && !fates(k).Marked? && states(k).Some?
    {
      StandingMarkStep(fates, states, i, k);
    }
    if states(k).Some? {
      DueTells(own, fates, states, k);
    }
    if fates(k).Marked? {
      assert StandingMark(fates, states, k, n);
    }
  }

  lemma {:induction false} KnownUnlessForgotten<F(!new)>(
      own: F, fates: nat -> Fate, states: nat -> Option<KeyState<F>>, i: nat, n: nat)
    requires Evolves(own, fates, states, n) && i <= n && states(i).Some?
    ensures (forall m: nat :: i <= m <= n ==> states(m).Some?) <==> forall m: nat :: i <= m < n ==> !fates(m).Forgotten?
  {
    if i < n {
      var k := n - 1;
      KnownUnlessForgotten(own, fates, states, i, k);
      assert states(k + 1) == KeyStep(own, states(k), fates(k));
    }
  }

  // ---- What histories show ----

  /** The key is in the table after `n` steps. */
  predicate Known<F>(generate: string -> F, ops: seq<Op>, n: nat, key: string)
    requires n <= |ops|
  {
    key in After(generate, ops, n).keyState
  }

  function FateAt<F>(generate: string -> F, ops: seq<Op>, i: nat, key: string): Fate
    requires i < |ops|
  {
    FateOf(After(generate, ops, i), ops[i], key)
  }

  /** Step `j` marks a key that the manager has forgotten. */
  predicate MarksForgotten<F>(generate: string -> F, ops: seq<Op>, j: nat, key: string)
    requires j < |ops|
  {
    FateAt(generate, ops, j, key).Marked? && !Known(generate, ops, j, key)
  }

  lemma SentReads<F>(generate: string -> F, ops: seq<Op>, i: nat)
    requires i < |ops| && SentBy(generate, ops, i).Some?
    ensures ops[i].Check?
    ensures var state := EntryIn(After(generate, ops, i).keyState, ops[i].key);
            SentBy(generate, ops, i).value == if state.Some? then state.value.fingerprint else Some(generate(ops[i].key))
  {
  }

  /** Main result, for every interleaving of requests: an init sends its key's own fingerprint, unless a mark found the key
      forgotten and the key has been in the table ever since; then it sends none. */
  lemma InitSendsOwnIff<F(!new)>(generate: string -> F, ops: seq<Op>, i: nat)
    requires i < |ops| && SentBy(generate, ops, i).Some?
    ensures ops[i].Check?
    ensures SentBy(generate, ops, i).value == None <==>
            exists j: nat :: j < i && MarksForgotten(generate, ops, j, ops[i].key)
                             && forall m: nat :: j < m <= i ==> Known(generate, ops, m, ops[i].key)
    ensures SentBy(generate, ops, i).value != None ==> SentBy(generate, ops, i).value == Some(generate(ops[i].key))
  {
    SentReads(generate, ops, i);
    var key := ops[i].key;
    var fates, states := Fates(generate, ops, key), States(generate, ops, key);
    HistoryEvolves(generate, ops, key);
    forall j: nat
      ensures BornByMark(fates, states, j, i) <==>
              j < i && MarksForgotten(generate, ops, j, key) && forall m: nat :: j < m <= i ==> Known(generate, ops, m, key)
    {
      BornByMarkReads(generate, ops, key, j, i);
    }
    if states(i).Some? {
      FingerprintTells(generate(key), fates, states, i);
    }
  }

  lemma BornByMarkReads<F>(generate: string -> F, ops: seq<Op>, key: string, j: nat, i: nat)
    requires i <= |ops|
    ensures BornByMark(Fates(generate, ops, key), States(generate, ops, key), j, i) <==>
            j < i && MarksForgotten(generate, ops, j, key) && forall m: nat :: j < m <= i ==> Known(generate, ops, m, key)
  {
    var states := States(generate, ops, key);
    assert forall m: nat :: m <= i ==> (states(m).Some? <==> Known(generate, ops, m, key));
  }

  /** Step `c` is a check by which the request comes to wait for the key. */
  predicate StartsWaiting<F>(generate: string -> F, ops: seq<Op>, c: nat, request: nat, key: string)
    requires c < |ops|
  {
    && ops[c].Check? && ops[c].request == request && ops[c].key == key
    && SentBy(generate, ops, c).Some? && Known(generate, ops, c + 1, key)
  }

  /** A request comes to wait only by a check that sends. */
  lemma WaitsByCheck<F>(generate: string -> F, t: Tables<F>, op: Op, request: nat)
    requires request in OpStep(generate, t, op).0.waiting
    ensures var (next, sent) := OpStep(generate, t, op);
            if request in t.waiting then t.waiting[request] == next.waiting[request]
            else op.Check? && op.request == request && op.key == next.waiting[request] && sent.Some?
                 && op.key in next.keyState
  {
  }

  lemma WaitsStep<F>(generate: string -> F, ops: seq<Op>, n: nat, request: nat)
    requires n < |ops| && request in After(generate, ops, n + 1).waiting
    ensures var key := After(generate, ops, n + 1).waiting[request];
            if request in After(generate, ops, n).waiting then After(generate, ops, n).waiting[request] == key
            else StartsWaiting(generate, ops, n, request, key)
  {
    AfterStep(generate, ops, n);
    WaitsByCheck(generate, After(generate, ops, n), ops[n], request);
  }

  /** Whoever is in a list that starts out empty has come into it at some step. */
  lemma {:induction false} CameToWait(
      waiting: nat -> map<nat, string>, starts: (nat, string) -> bool, n: nat, request: nat) returns (c: nat)
    requires waiting(0) == map[] && request in waiting(n)
    requires forall m: nat :: m < n && request in waiting(m + 1) ==>
               if request in waiting(m) then waiting(m)[request] == waiting(m + 1)[request]
               else starts(m, waiting(m + 1)[request])
    ensures c < n && starts(c, waiting(n)[request])
  {
    if request in waiting(n - 1) {
      assert waiting((n - 1) + 1) == waiting(n);
      c := CameToWait(waiting, starts, n - 1, request);
    } else {
      c := n - 1;
      assert waiting(c + 1) == waiting(n);
    }
  }

  function WaitingAfter<F>(generate: string -> F, ops: seq<Op>): nat -> map<nat, string> {
    (m: nat) => if m <= |ops| then After(generate, ops, m).waiting else map[]
  }

  function StartsAt<F>(generate: string -> F, ops: seq<Op>, request: nat): (nat, string) -> bool {
    (m: nat, key: string) => m < |ops| && StartsWaiting(generate, ops, m, request, key)
  }

  lemma WaitsFrom<F>(generate: string -> F, ops: seq<Op>, m: nat, request: nat)
    requires m < |ops| && request in WaitingAfter(generate, ops)(m + 1)
    ensures var waiting := WaitingAfter(generate, ops);
            if request in waiting(m) then waiting(m)[request] == waiting(m + 1)[request]
            else StartsAt(generate, ops, request)(m, waiting(m + 1)[request])
  {
    WaitsStep(generate, ops, m, request);
  }

  /** A waiting request has checked the key that it waits for, and the key was known right after. */
  lemma WaitingHasChecked<F>(generate: string -> F, ops: seq<Op>, n: nat, request: nat) returns (c: nat)
    requires n <= |ops| && request in After(generate, ops, n).waiting
    ensures c < n && StartsWaiting(generate, ops, c, request, After(generate, ops, n).waiting[request])
  {
    var waiting, starts := WaitingAfter(generate, ops), StartsAt(generate, ops, request);
    forall m: nat | m < n && request in waiting(m + 1)
      ensures if request in waiting(m) then waiting(m)[request] == waiting(m + 1)[request]
              else starts(m, waiting(m + 1)[request])
    {
      WaitsFrom(generate, ops, m, request);
    }
    NobodyWaitsAtFirst(generate, ops);
    c := CameToWait(waiting, starts, n, request);
  }

  lemma NobodyWaitsAtFirst<F>(generate: string -> F, ops: seq<Op>)
    ensures WaitingAfter(generate, ops)(0) == map[]
  {
  }

  lemma ForgottenBetween<F(!new)>(generate: string -> F, ops: seq<Op>, i: nat, j: nat, key: string) returns (m: nat)
    requires i <= j <= |ops| && Known(generate, ops, i, key) && !Known(generate, ops, j, key)
    ensures i <= m < j && FateAt(generate, ops, m, key).Forgotten?
  {
    var fates, states := Fates(generate, ops, key), States(generate, ops, key);
    HistoryEvolves(generate, ops, key);
    KnownUnlessForgotten(generate(key), fates, states, i, j);
    assert states(j) == None;
    m :| i <= m < j && fates(m).Forgotten?;
  }

  /** A mark finds its key forgotten only when a sweep found the key's session expired between the request's check and
      its mark. */
  lemma ForgottenMidInit<F(!new)>(generate: string -> F, ops: seq<Op>, j: nat, key: string) returns (c: nat, m: nat)
    requires j < |ops| && MarksForgotten(generate, ops, j, key)
    ensures c < m < j && FateAt(generate, ops, m, key).Forgotten?
    ensures ops[j].Mark? && StartsWaiting(generate, ops, c, ops[j].request, key)
  {
    c := WaitingHasChecked(generate, ops, j, ops[j].request);
    m := ForgottenBetween(generate, ops, c + 1, j, key);
  }

  /** Every mark directly follows the check it belongs to. */
  ghost predicate Sequential<F>(generate: string -> F, ops: seq<Op>) {
    forall j :: 0 <= j < |ops| && ops[j].Mark? && ops[j].request in After(generate, ops, j).waiting ==>
      j > 0 && ops[j - 1].Check? && ops[j - 1].request == ops[j].request && SentBy(generate, ops, j - 1).Some?
  }

  lemma JustChecked<F>(generate: string -> F, ops: seq<Op>, c: nat)
    requires c < |ops| && ops[c].Check? && SentBy(generate, ops, c).Some?
    ensures var t := After(generate, ops, c + 1);
            ops[c].request in t.waiting && t.waiting[ops[c].request] == ops[c].key && ops[c].key in t.keyState
  {
  }

  lemma SequentialMarkFinds<F>(generate: string -> F, ops: seq<Op>, j: nat, key: string)
    requires j < |ops| && Sequential(generate, ops)
    ensures !MarksForgotten(generate, ops, j, key)
  {
    if FateAt(generate, ops, j, key).Marked? {
      JustChecked(generate, ops, j - 1);
    }
  }

  /** In a sequential history, whatever is swept, an init sends its key's own fingerprint. */
  lemma InitsSendOwnFingerprint<F(!new)>(generate: string -> F, ops: seq<Op>, i: nat)
    requires i < |ops| && SentBy(generate, ops, i).Some? && Sequential(generate, ops)
    ensures ops[i].Check? && SentBy(generate, ops, i).value == Some(generate(ops[i].key))
  {
    InitSendsOwnIff(generate, ops, i);
    forall j: nat | j < i
      ensures !MarksForgotten(generate, ops, j, ops[i].key)
    {
      SequentialMarkFinds(generate, ops, j, ops[i].key);
    }
  }

  /** Main result, for every interleaving: a check sends nothing if and only if the latest mark of its key is not due yet
      and the key has not been forgotten since. */
  lemma QuietIff<F(!new)>(generate: string -> F, ops: seq<Op>, j: nat, key: string)
    requires j < |ops| && FateAt(generate, ops, j, key).Checked?
    ensures SentBy(generate, ops, j) == None <==>
            exists i :: StandingMark(Fates(generate, ops, key), States(generate, ops, key), i, j)
                        && ops[j].now < Fates(generate, ops, key)(i).due
  {
    HistoryEvolves(generate, ops, key);
    CheckReads(generate, ops, j, key);
    if States(generate, ops, key)(j).Some? {
      DueTells(generate(key), Fates(generate, ops, key), States(generate, ops, key), j);
    }
  }

  lemma CheckReads<F>(generate: string -> F, ops: seq<Op>, j: nat, key: string)
    requires j < |ops| && FateAt(generate, ops, j, key).Checked?
    ensures var state := States(generate, ops, key)(j);
            SentBy(generate, ops, j) == None <==>
            state.Some? && state.value.nextInitAt.Some? && ops[j].now < state.value.nextInitAt.value
  {
  }

  lemma MarkStandsUnlessForgotten<F(!new)>(own: F, fates: nat -> Fate, states: nat -> Option<KeyState<F>>, i: nat, j: nat)
    requires Evolves(own, fates, states, j)
    requires i < j && fates(i).Marked? && forall m: nat :: i < m < j ==> !fates(m).Marked?
    ensures StandingMark(fates, states, i, j) <==> forall m: nat :: i < m < j ==> !fates(m).Forgotten?
    ensures forall k: nat :: StandingMark(fates, states, k, j) ==> k == i
  {
    assert states(i + 1) == KeyStep(own, states(i), fates(i));
    KnownUnlessForgotten(own, fates, states, i + 1, j);
  }

  /** A mark keeps its key quiet for eight hours, except that a sweep which finds the key's session expired makes it due at
      once; after ten hours it is due in any case. */
  lemma InitThrottle<F(!new)>(generate: string -> F, ops: seq<Op>, i: nat, j: nat, key: string)
    requires i < j < |ops| && FateAt(generate, ops, i, key).Marked? && FateAt(generate, ops, j, key).Checked?
    requires forall m: nat :: i < m < j ==> !FateAt(generate, ops, m, key).Marked?
    requires ops[i].jitter * MILLISECOND < INIT_JITTER
    ensures ops[j].now < ops[i].now + 8 * HOUR ==>
              (SentBy(generate, ops, j).Some? <==> exists m: nat :: i < m < j && FateAt(generate, ops, m, key).Forgotten?)
    ensures ops[j].now >= ops[i].now + 10 * HOUR ==> SentBy(generate, ops, j).Some?
  {
    var fates, states := Fates(generate, ops, key), States(generate, ops, key);
    assert forall m: nat :: m < |ops| ==> fates(m) == FateAt(generate, ops, m, key);
    QuietIff(generate, ops, j, key);
    HistoryEvolves(generate, ops, key);
    MarkStandsUnlessForgotten(generate(key), fates, states, i, j);
    assert fates(i).due == DueAfter(ops[i].now, ops[i].jitter);
  }

  // ---- A history that loses a fingerprint ----

  function Name(k: nat): string {
    seq(k + 1, _ => 'k')
  }

  function Names(n: nat): set<string> {
    if n == 0 then {} else Names(n - 1) + {Name(n - 1)}
  }

  lemma {:induction false} NamesCounted(n: nat)
    ensures |Names(n)| == n && forall name :: name in Names(n) ==> |name| <= n
  {
    if n > 0 {
      NamesCounted(n - 1);
      assert |Name(n - 1)| == n;
    }
  }

  lemma {:induction false} NameIsNamed(n: nat, k: nat)
    requires k < n
    ensures Name(k) in Names(n)
  {
    if k < n - 1 {
      NameIsNamed(n - 1, k);
    }
  }

  const CROWD := SWEEP_ABOVE + 1

  /** One request for each of many keys: check, mark, session. */
  function CrowdOp(i: nat): Op {
    if i % 3 == 0 then Check(i / 3, Name(i / 3), 0) else if i % 3 == 1 then Mark(i / 3, 0, 0) else Ensure(i / 3, 0, "", 0)
  }

  /** What happens when all those sessions have just run out. One request starts an init for the first key; another one marks
      the second key and, asking for its session, sweeps; the first request marks its key and goes on. Then one more
      request checks the second key, and eight hours later another one the first key. */
  function Finale(): seq<Op> {
    var t := SESSION_DURATION;
    [Check(CROWD, Name(0), t), Check(CROWD + 1, Name(1), t), Mark(CROWD + 1, t + 1, 0), Ensure(CROWD + 1, t + 1, "", 0),
     Mark(CROWD, t + 2, 0), Ensure(CROWD, t + 2, "", 0), Check(CROWD + 2, Name(1), t + 2),
     Check(CROWD + 3, Name(0), t + 2 + INIT_REFRESH)]
  }

  function LosingHistory(): seq<Op> {
    seq(3 * CROWD, i requires 0 <= i => CrowdOp(i)) + Finale()
  }

  lemma HistoryReads()
    ensures |LosingHistory()| == 3 * CROWD + 8
    ensures forall i :: 0 <= i < 3 * CROWD ==> LosingHistory()[i] == CrowdOp(i)
    ensures forall j :: 0 <= j < 8 ==> LosingHistory()[3 * CROWD + j] == Finale()[j]
  {
    assert forall i {:trigger LosingHistory()[i]} :: 3 * CROWD <= i < 3 * CROWD + 8 ==>
        LosingHistory()[i] == Finale()[i - 3 * CROWD];
  }

  lemma FinaleOps(ops: seq<Op>)
    requires ops == LosingHistory()
    ensures var n, t := 3 * CROWD, SESSION_DURATION;
            && |ops| == n + 8
            && ops[n] == Check(CROWD, Name(0), t) && ops[n + 1] == Check(CROWD + 1, Name(1), t)
            && ops[n + 2] == Mark(CROWD + 1, t + 1, 0) && ops[n + 3] == Ensure(CROWD + 1, t + 1, "", 0)
            && ops[n + 4] == Mark(CROWD, t + 2, 0) && ops[n + 5] == Ensure(CROWD, t + 2, "", 0)
            && ops[n + 6] == Check(CROWD + 2, Name(1), t + 2)
            && ops[n + 7] == Check(CROWD + 3, Name(0), t + 2 + INIT_REFRESH)
  {
    HistoryReads();
    var last := Finale();
    assert ops[3 * CROWD + 0] == last[0] && ops[3 * CROWD + 1] == last[1] && ops[3 * CROWD + 2] == last[2];
    assert ops[3 * CROWD + 3] == last[3] && ops[3 * CROWD + 4] == last[4] && ops[3 * CROWD + 5] == last[5];
    assert ops[3 * CROWD + 6] == last[6] && ops[3 * CROWD + 7] == last[7];
  }

  ghost predicate ClockRunsThrough(ops: seq<Op>) {
    forall i, j :: 0 <= i < j < |ops| ==> ops[i].now <= ops[j].now
  }

  lemma HistoryIsTimed()
    ensures ClockRunsThrough(LosingHistory())
  {
    var ops, last := LosingHistory(), Finale();
    HistoryReads();
    assert forall i, j :: 0 <= i <= j < 8 ==> 0 <= last[i].now <= last[j].now;
    forall i, j | 0 <= i < j < |ops|
      ensures ops[i].now <= ops[j].now
    {
      assert i < 3 * CROWD ==> ops[i].now == 0;
      assert i >= 3 * CROWD ==> ops[i] == last[i - 3 * CROWD];
      assert j >= 3 * CROWD ==> ops[j] == last[j - 3 * CROWD];
    }
  }

  /** After `n` of the many requests every key has its session and is marked, and no request is left over. */
  ghost predicate Filled<F>(generate: string -> F, t: Tables<F>, n: nat) {
    && t.sessions.Keys == Names(n) && t.keyState.Keys == Names(n) && t.waiting == map[] && t.ready == map[]
    && (forall key :: key in Names(n) ==> t.sessions[key].expiresAt == SESSION_DURATION)
    && (forall key :: key in Names(n) ==> t.keyState[key] == KeyState(Some(generate(key)), Some(INIT_REFRESH)))
  }

  lemma NewKeyChecks<F>(generate: string -> F, t: Tables<F>, request: nat, key: string, now: int)
    requires t.waiting == map[] && t.ready == map[] && key !in t.keyState
    ensures OpStep(generate, t, Check(request, key, now)).0 ==
            Tables(t.sessions, t.keyState[key := KeyState(Some(generate(key)), None)], map[request := key], map[])
  {
  }

  lemma OnlyWaiterMarks<F>(generate: string -> F, t: Tables<F>, request: nat, key: string, now: int)
    requires t.waiting == map[request := key] && t.ready == map[] && key in t.keyState
    ensures OpStep(generate, t, Mark(request, now, 0)).0 ==
            Tables(t.sessions, t.keyState[key := t.keyState[key].(nextInitAt := Some(now + INIT_REFRESH))],
                   map[], map[request := key])
  {
    assert t.waiting - {request} == map[];
  }

  lemma NewKeyGetsSession<F>(generate: string -> F, t: Tables<F>, request: nat, key: string, now: int)
    requires t.waiting == map[] && t.ready == map[request := key] && key !in t.sessions && |t.sessions| <= SWEEP_ABOVE
    ensures OpStep(generate, t, Ensure(request, now, "", 0)).0 ==
            Tables(t.sessions[key := Entry("", now + SESSION_DURATION)], t.keyState, map[], map[])
  {
    assert t.ready - {request} == map[];
  }

  lemma FilledGrows<F>(generate: string -> F, t: Tables<F>, u: Tables<F>, n: nat)
    requires n <= SWEEP_ABOVE && Filled(generate, t, n)
    requires u.sessions == t.sessions[Name(n) := Entry("", SESSION_DURATION)] && u.waiting == map[] && u.ready == map[]
    requires u.keyState == t.keyState[Name(n) := KeyState(Some(generate(Name(n))), Some(INIT_REFRESH))]
    ensures Filled(generate, u, n + 1)
  {
    assert Names(n + 1) == Names(n) + {Name(n)};
  }

  lemma NewcomerFits<F>(generate: string -> F, t: Tables<F>, n: nat)
    requires n <= SWEEP_ABOVE && Filled(generate, t, n)
    ensures Name(n) !in t.sessions && Name(n) !in t.keyState && |t.sessions| <= SWEEP_ABOVE
  {
    NamesCounted(n);
    assert |Name(n)| == n + 1;
    assert |t.sessions| == |t.sessions.Keys|;
  }

  lemma AfterStep<F>(generate: string -> F, ops: seq<Op>, n: nat)
    requires n < |ops|
    ensures After(generate, ops, n + 1) == OpStep(generate, After(generate, ops, n), ops[n]).0
  {
  }

  /** Steps 3k, 3k + 1 and 3k + 2 are those of request k. */
  predicate Served(ops: seq<Op>, k: nat) {
    && 3 * k + 2 < |ops|
    && ops[3 * k] == Check(k, Name(k), 0) && ops[3 * k + 1] == Mark(k, 0, 0) && ops[3 * k + 2] == Ensure(k, 0, "", 0)
  }

  lemma CrowdIsServed(k: nat)
    requires k < CROWD
    ensures Served(LosingHistory(), k)
  {
    HistoryReads();
    assert (3 * k) / 3 == k && (3 * k + 1) / 3 == k && (3 * k + 2) / 3 == k;
  }

  /** The states of a run, one step after the other. */
  ghost predicate Runs<F(!new)>(generate: string -> F, ops: seq<Op>, after: nat -> Tables<F>) {
    forall n: nat {:trigger ops[n]} :: n < |ops| ==> after(n + 1) == OpStep(generate, after(n), ops[n]).0
  }

  lemma ServedChecks<F(!new)>(generate: string -> F, ops: seq<Op>, after: nat -> Tables<F>, k: nat)
    requires Runs(generate, ops, after) && Served(ops, k)
    requires var t := after(3 * k); t.waiting == map[] && t.ready == map[] && Name(k) !in t.keyState
    ensures var t := after(3 * k);
            after(3 * k + 2) ==
            Tables(t.sessions, t.keyState[Name(k) := KeyState(Some(generate(Name(k))), Some(INIT_REFRESH))],
                   map[], map[k := Name(k)])
  {
    var t, own := after(3 * k), Some(generate(Name(k)));
    assert after(3 * k + 1) == OpStep(generate, t, ops[3 * k]).0;
    NewKeyChecks(generate, t, k, Name(k), 0);
    var t1 := Tables(t.sessions, t.keyState[Name(k) := KeyState(own, None)], map[k := Name(k)], map[]);
    assert after((3 * k + 1) + 1) == OpStep(generate, t1, ops[3 * k + 1]).0;
    OnlyWaiterMarks(generate, t1, k, Name(k), 0);
  }

  lemma ServedEnsure<F(!new)>(generate: string -> F, ops: seq<Op>, after: nat -> Tables<F>, k: nat)
    requires Runs(generate, ops, after) && Served(ops, k)
    requires var t := after(3 * k + 2);
             t.waiting == map[] && t.ready == map[k := Name(k)] && Name(k) !in t.sessions && |t.sessions| <= SWEEP_ABOVE
    ensures var t := after(3 * k + 2);
            after(3 * k + 3) == Tables(t.sessions[Name(k) := Entry("", SESSION_DURATION)], t.keyState, map[], map[])
  {
    assert after((3 * k + 2) + 1) == OpStep(generate, after(3 * k + 2), ops[3 * k + 2]).0;
    NewKeyGetsSession(generate, after(3 * k + 2), k, Name(k), 0);
  }

  lemma ServedFills<F(!new)>(generate: string -> F, ops: seq<Op>, after: nat -> Tables<F>, k: nat)
    requires Runs(generate, ops, after) && Served(ops, k)
    requires k <= SWEEP_ABOVE && Filled(generate, after(3 * k), k)
    ensures Filled(generate, after(3 * k + 3), k + 1)
  {
    NewcomerFits(generate, after(3 * k), k);
    ServedChecks(generate, ops, after, k);
    ServedEnsure(generate, ops, after, k);
    FilledGrows(generate, after(3 * k), after(3 * k + 3), k);
  }

  lemma {:induction false} UpTo(good: nat -> bool, n: nat)
    requires good(0) && forall k: nat :: k < n && good(k) ==> good(k + 1)
    ensures good(n)
  {
    if n > 0 {
      UpTo(good, n - 1);
      assert good((n - 1) + 1);
    }
  }

  ghost function FilledBy<F>(generate: string -> F, after: nat -> Tables<F>): nat -> bool {
    (k: nat) => Filled(generate, after(3 * k), k)
  }

  lemma FilledNext<F(!new)>(generate: string -> F, ops: seq<Op>, after: nat -> Tables<F>, k: nat)
    requires Runs(generate, ops, after) && k <= SWEEP_ABOVE && Served(ops, k) && FilledBy(generate, after)(k)
    ensures FilledBy(generate, after)(k + 1)
  {
    ServedFills(generate, ops, after, k);
    assert 3 * k + 3 == 3 * (k + 1);
  }

  lemma ServedFill<F(!new)>(generate: string -> F, ops: seq<Op>, after: nat -> Tables<F>, n: nat)
    requires Runs(generate, ops, after) && FilledBy(generate, after)(0)
    requires n <= CROWD && forall k :: 0 <= k < n ==> Served(ops, k)
    ensures FilledBy(generate, after)(n)
  {
    var good := FilledBy(generate, after);
    forall k: nat | k < n && good(k)
      ensures good(k + 1)
    {
      FilledNext(generate, ops, after, k);
    }
    UpTo(good, n);
  }

  lemma DueKeyChecks<F>(generate: string -> F, t: Tables<F>, request: nat, key: string, now: int)
    requires request !in t.waiting && request !in t.ready
    requires key in t.keyState && t.keyState[key].nextInitAt.Some? && now >= t.keyState[key].nextInitAt.value
    ensures OpStep(generate, t, Check(request, key, now)).0 == t.(waiting := t.waiting[request := key])
  {
  }

  lemma WaiterMarks<F>(generate: string -> F, t: Tables<F>, request: nat, key: string, now: int)
    requires request in t.waiting && t.waiting[request] == key && t.ready == map[]
    ensures var u := OpStep(generate, t, Mark(request, now, 0)).0;
            && u.sessions == t.sessions && u.keyState.Keys == t.keyState.Keys + {key}
            && u.waiting == t.waiting - {request} && u.ready == map[request := key]
  {
  }

  /** Two requests check due keys, and the second one marks its key. */
  lemma TwoInits<F>(generate: string -> F, t: Tables<F>, a: nat, b: nat, k: string, m: string, now: int)
    requires a != b && t.waiting == map[] && t.ready == map[]
    requires k in t.keyState && t.keyState[k].nextInitAt.Some? && now >= t.keyState[k].nextInitAt.value
    requires m in t.keyState && t.keyState[m].nextInitAt.Some? && now >= t.keyState[m].nextInitAt.value
    ensures var t1 := OpStep(generate, t, Check(a, k, now)).0;
            var t2 := OpStep(generate, t1, Check(b, m, now)).0;
            var t3 := OpStep(generate, t2, Mark(b, now + 1, 0)).0;
            && t2.waiting == map[a := k, b := m]
            && t3.sessions == t.sessions && t3.keyState.Keys == t.keyState.Keys
            && t3.waiting == map[a := k] && t3.ready == map[b := m]
  {
    DueKeyChecks(generate, t, a, k, now);
    var t1 := t.(waiting := map[a := k]);
    DueKeyChecks(generate, t1, b, m, now);
    var t2 := t.(waiting := map[a := k, b := m]);
    assert t1.waiting[b := m] == t2.waiting;
    WaiterMarks(generate, t2, b, m, now + 1);
    assert t2.waiting - {b} == map[a := k];
    assert t.keyState.Keys + {m} == t.keyState.Keys;
  }

  lemma SweepsAll<V>(sessions: Sessions, table: map<string, V>, now: int)
    requires |sessions| > SWEEP_ABOVE && (forall key :: key in sessions ==> now > sessions[key].expiresAt)
    requires table.Keys <= sessions.Keys
    ensures Swept(sessions, table, now) == map[]
  {
    assert Expired(sessions, now) == sessions.Keys;
  }

  /** The sweep empties both tables. */
  lemma AllSwept<F>(generate: string -> F, t: Tables<F>, request: nat, key: string, now: int)
    requires |t.sessions| > SWEEP_ABOVE && (forall key :: key in t.sessions ==> now > t.sessions[key].expiresAt)
    requires t.keyState.Keys <= t.sessions.Keys && t.ready == map[request := key]
    ensures OpStep(generate, t, Ensure(request, now, "", 0)).0 ==
            Tables(map[key := Entry("", now + SESSION_DURATION)], map[], t.waiting, map[])
  {
    SweepsAll(t.sessions, t.sessions, now);
    SweepsAll(t.sessions, t.keyState, now);
    assert t.ready - {request} == map[];
  }

  /** The late mark finds its key forgotten; both keys are checked again, the second one within its eight hours. */
  lemma LateMark<F>(generate: string -> F, t: Tables<F>)
    requires |t.sessions| == 1 && t.keyState == map[] && t.waiting == map[CROWD := Name(0)] && t.ready == map[]
    ensures var t1 := OpStep(generate, t, Mark(CROWD, SESSION_DURATION + 2, 0)).0;
            var t2 := OpStep(generate, t1, Ensure(CROWD, SESSION_DURATION + 2, "", 0)).0;
            var (t3, again) := OpStep(generate, t2, Check(CROWD + 2, Name(1), SESSION_DURATION + 2));
            && again == Some(Some(generate(Name(1))))
            && OpStep(generate, t3, Check(CROWD + 3, Name(0), SESSION_DURATION + 2 + INIT_REFRESH)).1 == Some(None)
  {
    var bare: KeyState<F> := KeyState(None, Some(SESSION_DURATION + 2 + INIT_REFRESH));
    assert |Name(0)| != |Name(1)|;
    var t1 := OpStep(generate, t, Mark(CROWD, SESSION_DURATION + 2, 0)).0;
    assert t1 == Tables(t.sessions, map[Name(0) := bare], map[], map[CROWD := Name(0)]);
    var t2 := OpStep(generate, t1, Ensure(CROWD, SESSION_DURATION + 2, "", 0)).0;
    assert t2.keyState == map[Name(0) := bare] && t2.waiting == map[] && t2.ready == map[];
  }

  lemma CrowdIsLarge<F>(generate: string -> F, t: Tables<F>)
    requires Filled(generate, t, CROWD)
    ensures |t.sessions| > SWEEP_ABOVE
    ensures forall key :: key in t.sessions ==> SESSION_DURATION + 1 > t.sessions[key].expiresAt
  {
    NamesCounted(CROWD);
    assert |t.sessions| == |t.sessions.Keys|;
  }

  lemma FinaleSweeps<F>(generate: string -> F, u: Tables<F>)
    requires |u.sessions| > SWEEP_ABOVE
    requires forall key :: key in u.sessions ==> SESSION_DURATION + 1 > u.sessions[key].expiresAt
    requires u.keyState.Keys <= u.sessions.Keys && u.ready == map[CROWD + 1 := Name(1)]
    ensures var t := OpStep(generate, u, Ensure(CROWD + 1, SESSION_DURATION + 1, "", 0)).0;
            |t.sessions| == 1 && t.keyState == map[] && t.waiting == u.waiting && t.ready == map[]
  {
    AllSwept(generate, u, CROWD + 1, Name(1), SESSION_DURATION + 1);
  }

  lemma CrowdIsDue<F>(generate: string -> F, t: Tables<F>, k: nat)
    requires Filled(generate, t, CROWD) && k < CROWD
    ensures Name(k) in t.keyState && t.keyState[Name(k)].nextInitAt == Some(INIT_REFRESH)
  {
    NameIsNamed(CROWD, k);
  }

  lemma MarkedInFinale<F(!new)>(generate: string -> F, ops: seq<Op>, after: nat -> Tables<F>)
    requires ops == LosingHistory() && Runs(generate, ops, after) && Filled(generate, after(3 * CROWD), CROWD)
    ensures |ops| == 3 * CROWD + 8 && FateOf(after(3 * CROWD + 2), ops[3 * CROWD + 2], Name(1)).Marked?
    ensures var t, u := after(3 * CROWD), after(3 * CROWD + 3);
            && u.sessions == t.sessions && u.keyState.Keys == t.keyState.Keys
            && u.waiting == map[CROWD := Name(0)] && u.ready == map[CROWD + 1 := Name(1)]
  {
    var n := 3 * CROWD;
    FinaleOps(ops);
    CrowdIsDue(generate, after(n), 0);
    CrowdIsDue(generate, after(n), 1);
    TwoInits(generate, after(n), CROWD, CROWD + 1, Name(0), Name(1), SESSION_DURATION);
    assert after(n + 1) == OpStep(generate, after(n), ops[n]).0;
    assert after(n + 2) == OpStep(generate, after(n + 1), ops[n + 1]).0;
    assert after(n + 3) == OpStep(generate, after(n + 2), ops[n + 2]).0;
  }

  lemma SweptInFinale<F(!new)>(generate: string -> F, ops: seq<Op>, after: nat -> Tables<F>)
    requires ops == LosingHistory() && Runs(generate, ops, after) && Filled(generate, after(3 * CROWD), CROWD)
    ensures var t := after(3 * CROWD + 4);
            |t.sessions| == 1 && t.keyState == map[] && t.waiting == map[CROWD := Name(0)] && t.ready == map[]
  {
    MarkedInFinale(generate, ops, after);
    CrowdIsLarge(generate, after(3 * CROWD));
    FinaleOps(ops);
    assert after(3 * CROWD + 4) == OpStep(generate, after(3 * CROWD + 3), ops[3 * CROWD + 3]).0;
    FinaleSweeps(generate, after(3 * CROWD + 3));
  }

  lemma SentInFinale<F(!new)>(generate: string -> F, ops: seq<Op>, after: nat -> Tables<F>)
    requires ops == LosingHistory() && Runs(generate, ops, after) && Filled(generate, after(3 * CROWD), CROWD)
    ensures |ops| == 3 * CROWD + 8
    ensures OpStep(generate, after(3 * CROWD + 6), ops[3 * CROWD + 6]).1 == Some(Some(generate(Name(1))))
    ensures OpStep(generate, after(3 * CROWD + 7), ops[3 * CROWD + 7]).1 == Some(None)
  {
    var n := 3 * CROWD;
    SweptInFinale(generate, ops, after);
    FinaleOps(ops);
    assert after(n + 5) == OpStep(generate, after(n + 4), ops[n + 4]).0;
    assert after(n + 6) == OpStep(generate, after(n + 5), ops[n + 5]).0;
    assert after(n + 7) == OpStep(generate, after(n + 6), ops[n + 6]).0;
    LateMark(generate, after(n + 4));
  }

  function AfterEach<F>(generate: string -> F, ops: seq<Op>): nat -> Tables<F> {
    (n: nat) => if n <= |ops| then After(generate, ops, n) else Tables(map[], map[], map[], map[])
  }

  lemma AfterRunsAt<F>(generate: string -> F, ops: seq<Op>, n: nat)
    requires n < |ops|
    ensures AfterEach(generate, ops)(n + 1) == OpStep(generate, AfterEach(generate, ops)(n), ops[n]).0
  {
    AfterStep(generate, ops, n);
  }

  lemma AfterRuns<F(!new)>(generate: string -> F, ops: seq<Op>)
    ensures Runs(generate, ops, AfterEach(generate, ops))
  {
    forall n: nat {:trigger ops[n]} | n < |ops|
      ensures AfterEach(generate, ops)(n + 1) == OpStep(generate, AfterEach(generate, ops)(n), ops[n]).0
    {
      AfterRunsAt(generate, ops, n);
    }
  }

  lemma NothingFilled<F>(generate: string -> F, ops: seq<Op>)
    ensures Filled(generate, AfterEach(generate, ops)(0), 0)
  {
  }

  lemma CrowdFills<F(!new)>(generate: string -> F, ops: seq<Op>, after: nat -> Tables<F>)
    requires ops == LosingHistory() && Runs(generate, ops, after) && Filled(generate, after(0), 0)
    ensures Filled(generate, after(3 * CROWD), CROWD)
  {
    forall k | 0 <= k < CROWD
      ensures Served(ops, k)
    {
      CrowdIsServed(k);
    }
    ServedFill(generate, ops, after, CROWD);
  }

  lemma FinaleHappens<F(!new)>(generate: string -> F, ops: seq<Op>)
    requires ops == LosingHistory()
    ensures |ops| == 3 * CROWD + 8
    ensures var after := AfterEach(generate, ops);
            && FateOf(after(3 * CROWD + 2), ops[3 * CROWD + 2], Name(1)).Marked?
            && OpStep(generate, after(3 * CROWD + 6), ops[3 * CROWD + 6]).1 == Some(Some(generate(Name(1))))
            && OpStep(generate, after(3 * CROWD + 7), ops[3 * CROWD + 7]).1 == Some(None)
  {
    var after := AfterEach(generate, ops);
    NothingFilled(generate, ops);
    AfterRuns(generate, ops);
    CrowdFills(generate, ops, after);
    MarkedInFinale(generate, ops, after);
    SentInFinale(generate, ops, after);
  }

  /** Interleaved requests can leave a key without a fingerprint, and the next init sends none. */
  lemma FingerprintCanBeLost<F(!new)>(generate: string -> F)
    ensures ClockRunsThrough(LosingHistory())
    ensures |LosingHistory()| == 3 * CROWD + 8 && SentBy(generate, LosingHistory(), 3 * CROWD + 7) == Some(None)
  {
    HistoryIsTimed();
    FinaleHappens(generate, LosingHistory());
  }

  lemma FinaleTimes(ops: seq<Op>)
    requires ops == LosingHistory()
    ensures |ops| == 3 * CROWD + 8 && ops[3 * CROWD + 6].now == ops[3 * CROWD + 2].now + 1
  {
    FinaleOps(ops);
  }

  /** A sweep can make a key due one nanosecond after it was marked. */
  lemma QuietCanBeCutShort<F(!new)>(generate: string -> F, ops: seq<Op>)
    requires ops == LosingHistory()
    ensures |ops| == 3 * CROWD + 8
    ensures FateAt(generate, ops, 3 * CROWD + 2, Name(1)).Marked?
    ensures ops[3 * CROWD + 6].now == ops[3 * CROWD + 2].now + 1
    ensures SentBy(generate, ops, 3 * CROWD + 6) == Some(Some(generate(Name(1))))
  {
    FinaleTimes(ops);
    FinaleHappens(generate, ops);
  }
}
