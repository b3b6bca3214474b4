/** Neighbour discovery: values, the ghost record of replacements, and what a
    state keeps. */
module Neighbours {
  import opened Wrappers
  import opened Pieces
  import opened Sorting

  const REPLACEMENT_REARM_MS: nat := 20_000
  const MAX_CANDIDATES: nat := 64
  const MAX_CANDIDATE_KEYS: nat := 8
  const CONTEXT_IDLE_MS: nat := 30_000
  const CANDIDATE_FRESH_MS: nat := 60_000
  const WINDOW_MS: nat := 15_000
  const MAX_TICKET_BYTES: nat := 2048

  datatype MediaType = Main | Audio

  type Ticket = seq<byte>

  datatype Context = Context(
    id: nat, mediaType: MediaType, rendition: string, keys: seq<string>, lastDemandAt: Option<nat>, activityAt: nat,
    spent: bool, spentAt: Option<nat>)

  datatype Candidate = Candidate(pubkey: string, have: seq<string>, ticket: Option<Ticket>, at: nat)

  datatype Attempt = Attempt(id: nat, window: nat, pubkey: string, ticket: Option<Ticket>, key: string, dial: Option<nat>)

  datatype Window = Window(
    id: nat, context: nat, mediaType: MediaType, createdAt: nat, expiresAt: nat, attempt: Option<Attempt>, vacant: bool,
    victim: Option<string>)

  /** What a search brings: a candidate and the key it offers. */
  datatype Found = Found(context: nat, mediaType: MediaType, candidate: Candidate, key: string, lastDemandAt: Option<nat>)

  function ParseMedia(value: string): Option<MediaType> {
    if value == "main" then Some(Main) else if value == "audio" then Some(Audio) else None
  }

  predicate IsHex64(text: string) {
    |text| == 64 && forall k :: 0 <= k < 64 ==> '0' <= text[k] <= '9' || 'a' <= text[k] <= 'f'
  }

  predicate ValidTicket(ticket: Option<Ticket>) {
    ticket.Some? && 1 <= |ticket.value| <= MAX_TICKET_BYTES
  }

  /** Whether `since` is in the future or at least `ms` ago. */
  predicate Elapsed(now: nat, since: nat, ms: nat) {
    now < since || now - since >= ms
  }

  predicate IsLive(w: Option<Window>, now: nat) {
    w.Some? && w.value.createdAt <= now < w.value.expiresAt
  }

  /** Used and asked for within the last half minute. */
  predicate IsCurrent(c: Context, now: nat) {
    !Elapsed(now, c.activityAt, CONTEXT_IDLE_MS) && c.lastDemandAt.Some? && !Elapsed(now, c.lastDemandAt.value, CONTEXT_IDLE_MS)
  }

  // ---- lists as insertion-ordered maps ----

  /** The position of the context of that ID, or the number of contexts. */
  function Find(contexts: seq<Context>, id: nat): (k: nat)
    ensures k <= |contexts| && (k < |contexts| ==> contexts[k].id == id)
    ensures forall j :: 0 <= j < k ==> contexts[j].id != id
  {
    if contexts == [] || contexts[0].id == id then 0
    else
      var k := Find(contexts[1..], id);
      assert forall j :: 1 <= j < 1 + k ==> contexts[j] == contexts[1..][j - 1];
      1 + k
  }

  function FindMedia(contexts: seq<Context>, m: MediaType): (k: nat)
    ensures k <= |contexts| && (k < |contexts| ==> contexts[k].mediaType == m)
    ensures forall j :: 0 <= j < k ==> contexts[j].mediaType != m
  {
    if contexts == [] || contexts[0].mediaType == m then 0
    else
      var k := FindMedia(contexts[1..], m);
      assert forall j :: 1 <= j < 1 + k ==> contexts[j] == contexts[1..][j - 1];
      1 + k
  }

  /** `now` is recent enough, the candidate may be used, and it has one of `keys`. */
  predicate Offers(c: Candidate, now: nat, eligible: Candidate -> bool, keys: seq<string>) {
    !Elapsed(now, c.at, CANDIDATE_FRESH_MS) && eligible(c) && exists k :: 0 <= k < |keys| && keys[k] in c.have
  }

  /** What a search for context `c` may return: the oldest candidate that offers
      one of its keys, and the first such key. */
  ghost predicate Hinted(c: Context, candidates: seq<Candidate>, now: nat, eligible: Candidate -> bool, found: Found) {
    && found.context == c.id && found.mediaType == c.mediaType && found.lastDemandAt == c.lastDemandAt
    && exists i, k ::
         && 0 <= i < |candidates| && 0 <= k < |c.keys| && found.candidate == candidates[i] && found.key == c.keys[k]
         && Offers(candidates[i], now, eligible, c.keys) && c.keys[k] in candidates[i].have
         && (forall j :: 0 <= j < i ==> !Offers(candidates[j], now, eligible, c.keys))
         && (forall j :: 0 <= j < k ==> c.keys[j] !in candidates[i].have)
  }

  // ---- the replacements over a run ----

  /** A replacement at `now` for a context, in the window opened at `openedAt`, or
      a verified segment of a context. */
  datatype Mark = Replaced(now: nat, context: nat, window: nat, openedAt: nat) | Verified(context: nat)

  /** The times of the replacements for the context since it last verified. */
  function Replacements(log: seq<Mark>, id: nat): seq<nat>
    decreases |log|
  {
    if log == [] then []
    else
      var before, e := Replacements(log[..|log| - 1], id), log[|log| - 1];
      if e.context != id then before else if e.Verified? then [] else before + [e.now]
  }

  lemma ReplacementsNext(log: seq<Mark>, e: Mark, id: nat)
    ensures Replacements(log + [e], id) ==
      if e.context != id then Replacements(log, id) else if e.Verified? then [] else Replacements(log, id) + [e.now]
  {
    assert (log + [e])[..|log|] == log;
  }

  predicate Paced(times: seq<nat>) {
    forall k :: 0 < k < |times| ==> times[k] >= times[k - 1] + REPLACEMENT_REARM_MS
  }

  /** At every point of the run the replacements were paced, for every context. */
  ghost predicate Budget(log: seq<Mark>)
    decreases |log|
  {
    (forall id: nat :: Paced(Replacements(log, id))) && (log != [] ==> Budget(log[..|log| - 1]))
  }

  /** The `n`-th replacement after the first is at least `n` intervals later. */
  lemma {:induction false} PacedFromFirst(times: seq<nat>, n: nat)
    requires Paced(times) && n < |times|
    ensures times[n] >= times[0] + n * REPLACEMENT_REARM_MS
  {
    if n > 0 {
      PacedFromFirst(times, n - 1);
    }
  }

  lemma {:induction false} BudgetBefore(log: seq<Mark>, k: nat)
    requires Budget(log) && k <= |log|
    ensures Budget(log[..k])
    decreases |log|
  {
    if k < |log| {
      BudgetBefore(log[..|log| - 1], k);
      assert log[..|log| - 1][..k] == log[..k];
    } else {
      assert log[..k] == log;
    }
  }

  /** Among the first `k` entries of a run, the replacements for one context since
      it last verified come at least 20 seconds apart. */
  lemma BudgetSpaced(log: seq<Mark>, k: nat, id: nat, n: nat)
    requires Budget(log) && k <= |log| && n < |Replacements(log[..k], id)|
    ensures Replacements(log[..k], id)[n] >= Replacements(log[..k], id)[0] + n * REPLACEMENT_REARM_MS
  {
    BudgetBefore(log, k);
    PacedFromFirst(Replacements(log[..k], id), n);
  }

  /** Each replacement falls into its window, which lasts 15 seconds. */
  ghost predicate Windowed(log: seq<Mark>) {
    && (forall i :: 0 <= i < |log| && log[i].Replaced? ==> log[i].openedAt <= log[i].now < log[i].openedAt + WINDOW_MS)
    && (forall i, j :: 0 <= i < j < |log| && log[i].Replaced? && log[j].Replaced? && log[i].window == log[j].window ==>
          log[i].openedAt == log[j].openedAt)
  }

  /** A replacement counts until its context verifies. */
  lemma {:induction false} StillCounts(log: seq<Mark>, i: nat)
    requires Budget(log) && i < |log| && log[i].Replaced?
    requires forall k :: i < k < |log| ==> log[k] != Verified(log[i].context)
    ensures var times := Replacements(log, log[i].context); times != [] && times[|times| - 1] >= log[i].now
    decreases |log|
  {
    if i < |log| - 1 {
      StillCounts(log[..|log| - 1], i);
      assert Paced(Replacements(log, log[i].context));
    }
  }

  /** Replacements without a verified segment in between are 20 seconds apart. */
  lemma NotTooSoon(log: seq<Mark>, i: nat, j: nat)
    requires Budget(log) && i < j < |log| && log[i].Replaced? && log[j].Replaced? && log[i].context == log[j].context
    requires forall k :: i < k < j ==> log[k] != Verified(log[i].context)
    ensures log[j].now >= log[i].now + REPLACEMENT_REARM_MS
  {
    var before, c := log[..j], log[i].context;
    BudgetBefore(log, j + 1);
    BudgetBefore(log, j);
    assert before[i] == log[i];
    StillCounts(before, i);
    var times := Replacements(before, c);
    assert log[..j + 1] == before + [log[j]];
    ReplacementsNext(before, log[j], c);
    var all := Replacements(log[..j + 1], c);
    assert all == times + [log[j].now] && Paced(all);
    assert all[|times|] >= all[|times| - 1] + REPLACEMENT_REARM_MS;
  }

  /** One window gives a context at most one replacement, unless the context
      verified a segment in between. */
  lemma WindowedOnce(log: seq<Mark>, i: nat, j: nat)
    requires Budget(log) && Windowed(log) && i < j < |log| && log[i].Replaced? && log[j].Replaced?
    requires log[i].context == log[j].context && log[i].window == log[j].window
    ensures exists k :: i < k < j && log[k] == Verified(log[i].context)
  {
    if forall k :: i < k < j ==> log[k] != Verified(log[i].context) {
      NotTooSoon(log, i, j);
    }
  }

  // ---- what a state keeps ----

  ghost predicate ContextOk(c: Context, nextId: nat) {
    && 1 <= c.id <= nextId && |c.keys| <= 2 && NoDup(c.keys) && (c.keys != [] ==> c.lastDemandAt.Some?)
    && c.spent == c.spentAt.Some?
  }

  ghost predicate ContextsOk(contexts: seq<Context>, nextId: nat) {
    && (forall k :: 0 <= k < |contexts| ==> ContextOk(contexts[k], nextId))
    && (forall i, j :: 0 <= i < j < |contexts| ==> contexts[i].id != contexts[j].id && contexts[i].mediaType != contexts[j].mediaType)
  }

  ghost predicate CandidateOk(c: Candidate) {
    |c.have| <= MAX_CANDIDATE_KEYS && NoDup(c.have)
  }

  ghost predicate CandidatesOk(candidates: seq<Candidate>) {
    |candidates| <= MAX_CANDIDATES && (forall c :: c in candidates ==> CandidateOk(c)) && OnePerPeer(candidates)
  }

  predicate OnePerPeer(candidates: seq<Candidate>) {
    forall i, j :: 0 <= i < j < |candidates| ==> candidates[i].pubkey != candidates[j].pubkey
  }

  /** Only the open window has attempts, and its current one is among them. */
  ghost predicate WindowOk(w: Option<Window>, attempts: map<nat, Attempt>, nextId: nat) {
    && (w.Some? ==> w.value.id <= nextId && w.value.expiresAt <= w.value.createdAt + WINDOW_MS)
    && (w.Some? && w.value.attempt.Some? ==>
          w.value.attempt.value.id in attempts && attempts[w.value.attempt.value.id] == w.value.attempt.value)
    && (forall a :: a in attempts ==> a <= nextId && attempts[a].id == a && w.Some? && attempts[a].window == w.value.id)
  }

  /** The record knows only what existed, and the open window as it is. */
  ghost predicate LogOk(log: seq<Mark>, w: Option<Window>, nextId: nat) {
    && Windowed(log)
    && (forall k :: 0 <= k < |log| ==> log[k].context <= nextId && (log[k].Replaced? ==> log[k].window <= nextId))
    && (w.Some? ==> forall k :: 0 <= k < |log| && log[k].Replaced? && log[k].window == w.value.id ==> log[k].openedAt == w.value.createdAt)
  }

  /** A spent context was last replaced when it was spent; another one was last
      replaced long enough ago. */
  ghost predicate Rearmed(c: Context, log: seq<Mark>, clock: nat) {
    var times := Replacements(log, c.id);
    if c.spentAt.Some? then times != [] && times[|times| - 1] == c.spentAt.value <= clock
    else times == [] || clock >= times[|times| - 1] + REPLACEMENT_REARM_MS
  }

  ghost predicate ContextTimely(c: Context, log: seq<Mark>, clock: nat) {
    c.activityAt <= clock && (c.lastDemandAt.Some? ==> c.lastDemandAt.value <= c.activityAt) && Rearmed(c, log, clock)
  }

  /** What holds as long as the clock never went back. */
  ghost predicate Timely(contexts: seq<Context>, w: Option<Window>, log: seq<Mark>, clock: nat) {
    && Budget(log) && (w.Some? ==> w.value.createdAt <= clock)
    && forall k :: 0 <= k < |contexts| ==> ContextTimely(contexts[k], log, clock)
  }

  /** The window is over, or its context is demanded late enough and still demands
      the key of the attempt. */
  predicate PinnedIn(c: Context, w: Window, clock: nat) {
    || clock >= w.expiresAt
    || (c.lastDemandAt.Some? && w.expiresAt <= c.lastDemandAt.value + CONTEXT_IDLE_MS && (w.attempt.Some? ==> w.attempt.value.key in c.keys))
  }

  ghost predicate Pinned(contexts: seq<Context>, w: Option<Window>, clock: nat) {
    w.Some? ==> forall k :: 0 <= k < |contexts| && contexts[k].id == w.value.context ==> PinnedIn(contexts[k], w.value, clock)
  }

  // ---- how they are kept ----

  lemma {:induction false} ReplacementsNever(log: seq<Mark>, id: nat)
    requires forall k :: 0 <= k < |log| ==> log[k].context != id
    ensures Replacements(log, id) == []
    decreases |log|
  {
    if log != [] {
      ReplacementsNever(log[..|log| - 1], id);
    }
  }

  lemma TimelyLater(contexts: seq<Context>, w: Option<Window>, log: seq<Mark>, clock: nat, now: nat)
    requires Timely(contexts, w, log, clock) && now >= clock
    ensures Timely(contexts, w, log, now)
  {
    forall k | 0 <= k < |contexts| ensures ContextTimely(contexts[k], log, now) {
      assert ContextTimely(contexts[k], log, clock);
    }
  }

  lemma PinnedLater(contexts: seq<Context>, w: Option<Window>, clock: nat, now: nat)
    requires Pinned(contexts, w, clock) && now >= clock
    ensures Pinned(contexts, w, now)
  {
  }

  /** A replacement of a context that is not spent keeps the budget. */
  lemma ReplaceTimely(contexts: seq<Context>, k: nat, w: Window, log: seq<Mark>, now: nat, nextId: nat)
    requires k < |contexts| && ContextsOk(contexts, nextId) && Timely(contexts, Some(w), log, now) && !contexts[k].spent
    ensures var c := contexts[k];
            Timely(contexts[k := c.(spent := true, spentAt := Some(now))], Some(w), log + [Replaced(now, c.id, w.id, w.createdAt)], now)
  {
    var c, e := contexts[k], Replaced(now, contexts[k].id, w.id, w.createdAt);
    var contexts', log' := contexts[k := c.(spent := true, spentAt := Some(now))], log + [e];
    assert ContextOk(c, nextId) && ContextTimely(c, log, now);
    forall id: nat ensures Paced(Replacements(log', id)) {
      ReplacementsNext(log, e, id);
      assert Paced(Replacements(log, id));
    }
    assert log'[..|log'| - 1] == log;
    forall j | 0 <= j < |contexts'| ensures ContextTimely(contexts'[j], log', now) {
      ReplacementsNext(log, e, contexts'[j].id);
      assert ContextTimely(contexts[j], log, now);
    }
  }

  /** A verified segment, or a rearm after the interval, keeps the budget. */
  lemma VerifyTimely(contexts: seq<Context>, k: nat, w: Option<Window>, log: seq<Mark>, clock: nat)
    requires k < |contexts| && Timely(contexts, w, log, clock)
    requires forall i, j :: 0 <= i < j < |contexts| ==> contexts[i].id != contexts[j].id
    ensures var c := contexts[k];
            Timely(contexts[k := c.(spent := false, spentAt := None)], w, log + [Verified(c.id)], clock)
  {
    var c, e := contexts[k], Verified(contexts[k].id);
    var contexts', log' := contexts[k := c.(spent := false, spentAt := None)], log + [e];
    forall id: nat ensures Paced(Replacements(log', id)) {
      ReplacementsNext(log, e, id);
      assert Paced(Replacements(log, id));
    }
    assert log'[..|log'| - 1] == log;
    forall j | 0 <= j < |contexts'| ensures ContextTimely(contexts'[j], log', clock) {
      ReplacementsNext(log, e, contexts'[j].id);
      assert ContextTimely(contexts[j], log, clock);
    }
  }

  // ---- demand ----

  /** The values without their repetitions, in order. */
  function Dedup(s: seq<string>): (r: seq<string>)
    ensures NoDup(r) && |r| <= |s| && (s != [] ==> r != [] && r[0] == s[0])
    ensures forall x :: x in r <==> x in s
    decreases |s|
  {
    if s == [] then []
    else
      var r, x := Dedup(s[..|s| - 1]), s[|s| - 1];
      assert s == s[..|s| - 1] + [x];
      if x in r then r else r + [x]
  }

  lemma {:induction false} DedupPrefix(s: seq<string>, k: nat)
    requires k <= |s|
    ensures Dedup(s[..k]) <= Dedup(s)
    decreases |s|
  {
    if k < |s| {
      DedupPrefix(s[..|s| - 1], k);
      assert s[..|s| - 1][..k] == s[..k];
    } else {
      assert s[..k] == s;
    }
  }

  function PinnedFirst(pinned: Option<string>): seq<string> {
    if pinned.Some? then [pinned.value] else []
  }

  /** The keys in demand after one more request: a pinned key leads. */
  function Demanded(pinned: Option<string>, key: string, keys: seq<string>): (r: seq<string>)
    ensures 1 <= |r| <= 2 && NoDup(r) && key in r && (pinned.Some? ==> pinned.value in r)
  {
    var order := PinnedFirst(pinned) + [key] + keys;
    var all := Dedup(order);
    DemandedFirst(pinned, key, keys);
    if |all| > 2 then all[..2] else all
  }

  lemma DemandedFirst(pinned: Option<string>, key: string, keys: seq<string>)
    ensures var all := Dedup(PinnedFirst(pinned) + [key] + keys);
            all[0] == (if pinned.Some? then pinned.value else key) && (key == all[0] || (|all| > 1 && key == all[1]))
  {
    var order := PinnedFirst(pinned) + [key] + keys;
    var n := |PinnedFirst(pinned)| + 1;
    DedupPrefix(order, n);
    assert order[..n] == PinnedFirst(pinned) + [key];
    if pinned.Some? {
      assert (PinnedFirst(pinned) + [key])[..1] == [pinned.value];
    }
  }

  // ---- contexts come, go idle and are demanded ----

  function NewContext(id: nat, m: MediaType, rendition: string, now: nat): Context {
    Context(id, m, rendition, [], None, now, false, None)
  }

  /** Half a minute without activity or demand resets what the context demands. */
  function Touch(c: Context, now: nat): Context {
    var idle := Elapsed(now, c.activityAt, CONTEXT_IDLE_MS) ||
                (c.lastDemandAt.Some? && Elapsed(now, c.lastDemandAt.value, CONTEXT_IDLE_MS));
    if idle then c.(keys := [], lastDemandAt := None, activityAt := now) else c.(activityAt := now)
  }

  function Visited(contexts: seq<Context>, m: MediaType, rendition: string, now: nat, freshId: nat): (r: seq<Context>)
    ensures FindMedia(contexts, m) < |r| && r[FindMedia(contexts, m)].mediaType == m && |contexts| <= |r|
  {
    var k := FindMedia(contexts, m);
    if k == |contexts| then contexts + [NewContext(freshId, m, rendition, now)]
    else if contexts[k].rendition != rendition then contexts[k := NewContext(freshId, m, rendition, now)]
    else contexts[k := Touch(contexts[k], now)]
  }

  predicate IsNew(contexts: seq<Context>, m: MediaType, rendition: string) {
    FindMedia(contexts, m) == |contexts| || contexts[FindMedia(contexts, m)].rendition != rendition
  }

  /** A state with the record of its replacements. `steady` tells whether the clock
      never went back, and `direct` whether every attempt began with a find of the
      state it began in. */
  datatype Book = Book(
    contexts: seq<Context>, candidates: seq<Candidate>, window: Option<Window>, attempts: map<nat, Attempt>, nextId: nat,
    log: seq<Mark>, clock: nat, steady: bool, direct: bool)

  /** Everything that holds of a state. */
  ghost predicate BookOk(b: Book) {
    && ContextsOk(b.contexts, b.nextId) && CandidatesOk(b.candidates) && WindowOk(b.window, b.attempts, b.nextId)
    && LogOk(b.log, b.window, b.nextId)
    && (b.steady ==> Timely(b.contexts, b.window, b.log, b.clock))
    && (b.direct && b.window.Some? ==> b.window.value.context <= b.nextId)
    && (b.steady && b.direct ==> Pinned(b.contexts, b.window, b.clock))
  }

  /** The state at a later reading of the clock. */
  function At(b: Book, now: nat): Book {
    b.(clock := now, steady := b.steady && now >= b.clock)
  }

  lemma SoundAt(b: Book, now: nat)
    requires BookOk(b)
    ensures BookOk(At(b, now))
  {
    hide ContextsOk, CandidatesOk, WindowOk, LogOk, Timely, Pinned;
    if b.steady && now >= b.clock {
      TimelyLater(b.contexts, b.window, b.log, b.clock, now);
      if b.direct {
        PinnedLater(b.contexts, b.window, b.clock, now);
      }
    }
  }

  lemma NewFields(id: nat, m: MediaType, rendition: string, now: nat)
    requires id >= 1
    ensures var c := NewContext(id, m, rendition, now); c.id == id && c.mediaType == m && ContextOk(c, id)
  {
  }

  lemma TouchFields(c: Context, now: nat, nextId: nat)
    requires ContextOk(c, nextId)
    ensures Touch(c, now).id == c.id && Touch(c, now).mediaType == c.mediaType && ContextOk(Touch(c, now), nextId)
  {
  }

  lemma ContextOkLater(c: Context, nextId: nat, later: nat)
    requires ContextOk(c, nextId) && nextId <= later
    ensures ContextOk(c, later) && c.id <= nextId
  {
  }

  lemma VisitedOk(contexts: seq<Context>, m: MediaType, rendition: string, now: nat, nextId: nat)
    requires ContextsOk(contexts, nextId)
    ensures ContextsOk(Visited(contexts, m, rendition, now, nextId + 1), if IsNew(contexts, m, rendition) then nextId + 1 else nextId)
  {
    hide Touch, NewContext, ContextOk;
    var at := FindMedia(contexts, m);
    NewFields(nextId + 1, m, rendition, now);
    if at < |contexts| {
      TouchFields(contexts[at], now, nextId);
    }
    forall i | 0 <= i < |contexts| ensures ContextOk(contexts[i], nextId + 1) && contexts[i].id <= nextId {
      ContextOkLater(contexts[i], nextId, nextId + 1);
    }
  }

  lemma TouchTimely(c: Context, log: seq<Mark>, now: nat)
    requires ContextTimely(c, log, now)
    ensures ContextTimely(Touch(c, now), log, now)
  {
  }

  lemma NewTimely(id: nat, m: MediaType, rendition: string, now: nat, log: seq<Mark>)
    requires forall k :: 0 <= k < |log| ==> log[k].context != id
    ensures ContextTimely(NewContext(id, m, rendition, now), log, now)
  {
    ReplacementsNever(log, id);
  }

  lemma VisitedTimely(contexts: seq<Context>, w: Option<Window>, m: MediaType, rendition: string, now: nat, nextId: nat, log: seq<Mark>)
    requires LogOk(log, w, nextId) && Timely(contexts, w, log, now)
    ensures Timely(Visited(contexts, m, rendition, now, nextId + 1), w, log, now)
  {
    hide ContextTimely, Budget, Touch, NewContext, Windowed;
    var r, at := Visited(contexts, m, rendition, now, nextId + 1), FindMedia(contexts, m);
    NewTimely(nextId + 1, m, rendition, now, log);
    if at < |contexts| {
      TouchTimely(contexts[at], log, now);
    }
    forall k | 0 <= k < |r| ensures ContextTimely(r[k], log, now) {
      if k < |contexts| {
        assert ContextTimely(contexts[k], log, now);
      }
    }
  }

  /** An idle context is reset only after the window is over. */
  lemma TouchPinned(c: Context, w: Window, now: nat)
    requires PinnedIn(c, w, now) && c.activityAt <= now && (c.lastDemandAt.Some? ==> c.lastDemandAt.value <= c.activityAt)
    ensures PinnedIn(Touch(c, now), w, now)
  {
  }

  lemma VisitedPinned(contexts: seq<Context>, w: Option<Window>, m: MediaType, rendition: string, now: nat, nextId: nat, log: seq<Mark>)
    requires Timely(contexts, w, log, now) && Pinned(contexts, w, now) && (w.Some? ==> w.value.context <= nextId)
    ensures Pinned(Visited(contexts, m, rendition, now, nextId + 1), w, now)
  {
    hide PinnedIn, Touch, Budget, Rearmed;
    var r, at := Visited(contexts, m, rendition, now, nextId + 1), FindMedia(contexts, m);
    forall k | w.Some? && 0 <= k < |r| && r[k].id == w.value.context ensures PinnedIn(r[k], w.value, now) {
      if k < |contexts| && contexts[k].id == r[k].id {
        assert PinnedIn(contexts[k], w.value, now) && ContextTimely(contexts[k], log, now);
        TouchPinned(contexts[k], w.value, now);
      } else {
        TouchId(contexts, k, now);
      }
    }
  }

  lemma TouchId(contexts: seq<Context>, k: nat, now: nat)
    ensures k < |contexts| ==> Touch(contexts[k], now).id == contexts[k].id
  {
  }

  function VisitedBook(b: Book, m: MediaType, rendition: string, now: nat): Book {
    At(b, now).(contexts := Visited(b.contexts, m, rendition, now, b.nextId + 1),
                nextId := if IsNew(b.contexts, m, rendition) then b.nextId + 1 else b.nextId)
  }

  lemma VisitedSound(b: Book, m: MediaType, rendition: string, now: nat)
    requires BookOk(b)
    ensures BookOk(VisitedBook(b, m, rendition, now))
  {
    hide ContextsOk, CandidatesOk, Timely, Pinned, Visited, IsNew, Windowed;
    SoundAt(b, now);
    VisitedOk(b.contexts, m, rendition, now, b.nextId);
    if b.steady && now >= b.clock {
      VisitedTimely(b.contexts, b.window, m, rendition, now, b.nextId, b.log);
      if b.direct {
        VisitedPinned(b.contexts, b.window, m, rendition, now, b.nextId, b.log);
      }
    }
  }

  /** The key of the attempt under way for the context. */
  function PinnedKey(w: Option<Window>, id: nat, now: nat): Option<string> {
    if IsLive(w, now) && w.value.context == id && w.value.attempt.Some? then Some(w.value.attempt.value.key) else None
  }

  function DemandedContext(c: Context, w: Option<Window>, key: string, now: nat): Context {
    c.(keys := Demanded(PinnedKey(w, c.id, now), key, c.keys), lastDemandAt := Some(now))
  }

  lemma DemandSound(b: Book, k: nat, key: string)
    requires BookOk(b) && k < |b.contexts| && b.contexts[k].activityAt == b.clock
    ensures BookOk(b.(contexts := b.contexts[k := DemandedContext(b.contexts[k], b.window, key, b.clock)]))
  {
    hide CandidatesOk, LogOk, Budget, Rearmed, Demanded, WindowOk;
    var c := b.contexts[k];
    var d := DemandedContext(c, b.window, key, b.clock);
    var r := b.contexts[k := d];
    assert ContextOk(c, b.nextId);
    if b.steady {
      assert ContextTimely(c, b.log, b.clock);
      RearmedSame(c, d, b.log, b.clock);
    }
    if b.steady && b.direct && b.window.Some? && c.id == b.window.value.context {
      assert PinnedIn(c, b.window.value, b.clock);
      assert PinnedIn(d, b.window.value, b.clock);
    }
  }

  lemma RearmedSame(c: Context, d: Context, log: seq<Mark>, clock: nat)
    requires Rearmed(c, log, clock) && d.id == c.id && d.spentAt == c.spentAt
    ensures Rearmed(d, log, clock)
  {
  }

  // ---- candidates ----

  function HexOnly(have: seq<string>): (r: seq<string>)
    ensures forall x :: x in r ==> x in have && IsHex64(x)
    decreases |have|
  {
    if have == [] then []
    else HexOnly(have[..|have| - 1]) + (if IsHex64(have[|have| - 1]) then [have[|have| - 1]] else [])
  }

  /** The last eight distinct keys. */
  function LastKeys(have: seq<string>): (r: seq<string>)
    ensures |r| <= MAX_CANDIDATE_KEYS && NoDup(r)
  {
    var keys := Dedup(HexOnly(have));
    if |keys| > MAX_CANDIDATE_KEYS then keys[|keys| - MAX_CANDIDATE_KEYS..] else keys
  }

  function AllBut(candidates: seq<Candidate>, pubkey: string): (r: seq<Candidate>)
    ensures |r| <= |candidates|
    decreases |candidates|
  {
    if candidates == [] then []
    else
      var last := candidates[|candidates| - 1];
      AllBut(candidates[..|candidates| - 1], pubkey) + (if last.pubkey == pubkey then [] else [last])
  }

  /** The newest candidate goes last; the oldest leaves when there are too many. */
  function WithCandidate(candidates: seq<Candidate>, c: Candidate): seq<Candidate> {
    var all := AllBut(candidates, c.pubkey) + [c];
    if |all| > MAX_CANDIDATES then all[1..] else all
  }

  lemma {:induction false} AllButOk(candidates: seq<Candidate>, pubkey: string)
    requires OnePerPeer(candidates)
    ensures OnePerPeer(AllBut(candidates, pubkey))
    ensures forall c :: c in AllBut(candidates, pubkey) <==> c in candidates && c.pubkey != pubkey
    decreases |candidates|
  {
    if candidates != [] {
      var init, last := candidates[..|candidates| - 1], candidates[|candidates| - 1];
      AllButOk(init, pubkey);
      assert candidates == init + [last];
      OnePerPeerSnoc(AllBut(init, pubkey), last);
    }
  }

  lemma OnePerPeerSnoc(s: seq<Candidate>, c: Candidate)
    requires OnePerPeer(s) && forall x :: x in s ==> x.pubkey != c.pubkey
    ensures OnePerPeer(s + [c])
  {
  }

  lemma WithCandidateOk(candidates: seq<Candidate>, c: Candidate)
    requires CandidatesOk(candidates) && CandidateOk(c)
    ensures CandidatesOk(WithCandidate(candidates, c))
  {
    AllButOk(candidates, c.pubkey);
    OnePerPeerSnoc(AllBut(candidates, c.pubkey), c);
    var all := AllBut(candidates, c.pubkey) + [c];
    assert forall x :: x in all[1..] ==> x in all;
  }

  // ---- windows and attempts ----

  /** What a window that opens for `found` looks like. */
  function Opened(id: nat, found: Found, now: nat): Window {
    var lastDemand := if found.lastDemandAt.Some? then found.lastDemandAt.value else 0;
    Window(id, found.context, found.mediaType, now,
           Min(Min(now + WINDOW_MS, found.candidate.at + CANDIDATE_FRESH_MS), lastDemand + CONTEXT_IDLE_MS), None, false, None)
  }

  /** The find is what the state holds now. */
  predicate FoundIn(contexts: seq<Context>, found: Found) {
    var k := Find(contexts, found.context);
    k < |contexts| && contexts[k].lastDemandAt == found.lastDemandAt && found.key in contexts[k].keys
  }

  lemma OpenSound(b: Book, found: Found)
    requires BookOk(b) && b.window.None? && (b.direct ==> FoundIn(b.contexts, found))
    ensures BookOk(b.(window := Some(Opened(b.nextId + 1, found, b.clock)), nextId := b.nextId + 1))
  {
    hide CandidatesOk, Budget, Rearmed;
    forall k | 0 <= k < |b.contexts| ensures ContextOk(b.contexts[k], b.nextId + 1) {
      assert ContextOk(b.contexts[k], b.nextId);
    }
    if b.direct {
      assert ContextOk(b.contexts[Find(b.contexts, found.context)], b.nextId);
    }
    if b.steady {
      forall k | 0 <= k < |b.contexts| ensures ContextTimely(b.contexts[k], b.log, b.clock) {
      }
    }
  }

  function NewAttempt(b: Book, found: Found): Attempt
    requires b.window.Some?
  {
    Attempt(b.nextId + 1, b.window.value.id, found.candidate.pubkey, found.candidate.ticket, found.key, None)
  }

  function OnlyOf(attempts: map<nat, Attempt>, window: nat): map<nat, Attempt> {
    map a | a in attempts && attempts[a].window == window :: attempts[a]
  }

  lemma AttemptSound(b: Book, found: Found)
    requires BookOk(b) && b.window.Some? && b.window.value.context == found.context && (b.direct ==> FoundIn(b.contexts, found))
    ensures var a := NewAttempt(b, found);
            BookOk(b.(window := Some(b.window.value.(attempt := Some(a))), nextId := b.nextId + 1,
                     attempts := OnlyOf(b.attempts, b.window.value.id)[a.id := a]))
  {
    hide CandidatesOk, Budget, Rearmed;
    forall k | 0 <= k < |b.contexts| ensures ContextOk(b.contexts[k], b.nextId + 1) {
      assert ContextOk(b.contexts[k], b.nextId);
    }
    if b.steady {
      forall k | 0 <= k < |b.contexts| ensures ContextTimely(b.contexts[k], b.log, b.clock) {
      }
      if b.direct {
        var w := b.window.value.(attempt := Some(NewAttempt(b, found)));
        forall k | 0 <= k < |b.contexts| && b.contexts[k].id == w.context ensures PinnedIn(b.contexts[k], w, b.clock) {
          assert PinnedIn(b.contexts[k], b.window.value, b.clock);
        }
      }
    }
  }

  /** A window that only gives up its attempt, or a vacancy, keeps everything. */
  lemma WindowSound(b: Book, w: Window, attempts: map<nat, Attempt>)
    requires BookOk(b) && b.window.Some?
    requires w == b.window.value.(attempt := w.attempt, vacant := w.vacant, victim := w.victim)
    requires w.attempt.Some? ==> b.window.value.attempt.Some? && w.attempt.value.key == b.window.value.attempt.value.key
    requires w.attempt.Some? ==> w.attempt.value.id in attempts && attempts[w.attempt.value.id] == w.attempt.value
    requires attempts.Keys == b.attempts.Keys && forall a :: a in attempts ==> attempts[a].id == a && attempts[a].window == w.id
    ensures BookOk(b.(window := Some(w), attempts := attempts))
  {
    hide ContextsOk, CandidatesOk, Budget, ContextTimely;
    if b.steady && b.direct {
      forall k | 0 <= k < |b.contexts| && b.contexts[k].id == w.context ensures PinnedIn(b.contexts[k], w, b.clock) {
        assert PinnedIn(b.contexts[k], b.window.value, b.clock);
      }
    }
  }

  lemma EndSound(b: Book)
    requires BookOk(b)
    ensures BookOk(b.(window := None, attempts := map[]))
  {
    hide ContextsOk, CandidatesOk, Budget, ContextTimely;
  }

  function SpentAt(c: Context, now: nat): Context {
    c.(spent := true, spentAt := Some(now))
  }

  function Unspent(c: Context): Context {
    c.(spent := false, spentAt := None)
  }

  lemma ReplaceSound(b: Book, k: nat, victim: Option<string>)
    requires BookOk(b) && IsLive(b.window, b.clock) && k < |b.contexts| && !b.contexts[k].spent
    ensures var w := b.window.value;
            BookOk(b.(contexts := b.contexts[k := SpentAt(b.contexts[k], b.clock)], window := Some(w.(vacant := true, victim := victim)),
                     log := b.log + [Replaced(b.clock, b.contexts[k].id, w.id, w.createdAt)]))
  {
    hide CandidatesOk, Timely, Pinned;
    var w, c := b.window.value, b.contexts[k];
    var contexts, log := b.contexts[k := SpentAt(c, b.clock)], b.log + [Replaced(b.clock, c.id, w.id, w.createdAt)];
    forall j | 0 <= j < |contexts| ensures ContextOk(contexts[j], b.nextId) {
      assert ContextOk(b.contexts[j], b.nextId);
    }
    if b.steady {
      ReplaceTimely(b.contexts, k, w, b.log, b.clock, b.nextId);
      VacantTimely(contexts, w, victim, log, b.clock);
    }
    if b.steady && b.direct {
      PinnedSame(b.contexts, k, contexts, w, w.(vacant := true, victim := victim), b.clock);
    }
  }

  lemma VacantTimely(contexts: seq<Context>, w: Window, victim: Option<string>, log: seq<Mark>, clock: nat)
    requires Timely(contexts, Some(w), log, clock)
    ensures Timely(contexts, Some(w.(vacant := true, victim := victim)), log, clock)
  {
    hide Budget, ContextTimely;
  }

  /** Only the keys and the demand of a context, and the key of the attempt, matter. */
  lemma PinnedSame(contexts: seq<Context>, k: nat, r: seq<Context>, w: Window, w': Window, clock: nat)
    requires k < |contexts| == |r| && Pinned(contexts, Some(w), clock)
    requires r == contexts[k := contexts[k].(spent := r[k].spent, spentAt := r[k].spentAt)]
    requires w' == w.(vacant := w'.vacant, victim := w'.victim)
    ensures Pinned(r, Some(w'), clock)
  {
    forall j | 0 <= j < |r| && r[j].id == w'.context ensures PinnedIn(r[j], w', clock) {
      assert PinnedIn(contexts[j], w, clock);
    }
  }

  lemma UnspentOk(b: Book, k: nat)
    requires BookOk(b) && k < |b.contexts|
    ensures ContextsOk(b.contexts[k := Unspent(b.contexts[k])], b.nextId)
    ensures b.steady && b.direct ==> Pinned(b.contexts[k := Unspent(b.contexts[k])], b.window, b.clock)
  {
    hide CandidatesOk, Timely, LogOk, WindowOk;
    var r := b.contexts[k := Unspent(b.contexts[k])];
    forall j | 0 <= j < |r| ensures ContextOk(r[j], b.nextId) {
      assert ContextOk(b.contexts[j], b.nextId);
    }
    if b.steady && b.direct && b.window.Some? {
      PinnedSame(b.contexts, k, b.contexts[k := Unspent(b.contexts[k])], b.window.value, b.window.value, b.clock);
    }
  }

  lemma VerifySound(b: Book, k: nat)
    requires BookOk(b) && k < |b.contexts|
    ensures BookOk(b.(contexts := b.contexts[k := Unspent(b.contexts[k])], log := b.log + [Verified(b.contexts[k].id)]))
  {
    hide CandidatesOk, Timely, Pinned;
    UnspentOk(b, k);
    assert ContextOk(b.contexts[k], b.nextId);
    if b.steady {
      VerifyTimely(b.contexts, k, b.window, b.log, b.clock);
    }
  }

  lemma RearmSound(b: Book, k: nat)
    requires BookOk(b) && k < |b.contexts| && b.contexts[k].spentAt.Some?
    requires b.clock >= b.contexts[k].spentAt.value + REPLACEMENT_REARM_MS
    ensures BookOk(b.(contexts := b.contexts[k := Unspent(b.contexts[k])]))
  {
    hide CandidatesOk, Budget, Pinned, ContextsOk;
    UnspentOk(b, k);
    if b.steady {
      var r := b.contexts[k := Unspent(b.contexts[k])];
      forall j | 0 <= j < |r| ensures ContextTimely(r[j], b.log, b.clock) {
        assert ContextTimely(b.contexts[j], b.log, b.clock);
      }
    }
  }

  /** While the window is live and its context installed, the key of its attempt
      stays among the at most two demanded keys. */
  lemma KeyStaysDemanded(b: Book, now: nat, k: nat)
    requires BookOk(b) && b.steady && b.direct && now >= b.clock && IsLive(b.window, now) && b.window.value.attempt.Some?
    requires k < |b.contexts| && b.contexts[k].id == b.window.value.context
    ensures b.window.value.attempt.value.key in b.contexts[k].keys && |b.contexts[k].keys| <= 2 && NoDup(b.contexts[k].keys)
  {
    assert PinnedIn(b.contexts[k], b.window.value, b.clock) && ContextOk(b.contexts[k], b.nextId);
  }

  // ---- what the methods use ----

  /** A candidate still hints what the attempt was begun for. */
  predicate StillHints(c: Candidate, a: Attempt, now: nat) {
    c.pubkey == a.pubkey && !Elapsed(now, c.at, CANDIDATE_FRESH_MS) && c.ticket == a.ticket && a.key in c.have
  }

  lemma DedupNext(s: seq<string>, i: nat)
    requires i < |s|
    ensures Dedup(s[..i + 1]) == if s[i] in Dedup(s[..i]) then Dedup(s[..i]) else Dedup(s[..i]) + [s[i]]
  {
    assert s[..i + 1][..i] == s[..i];
  }

  lemma VisitedActive(contexts: seq<Context>, m: MediaType, rendition: string, now: nat, freshId: nat)
    ensures Visited(contexts, m, rendition, now, freshId)[FindMedia(contexts, m)].activityAt == now
  {
  }

  lemma VisitedAt(contexts: seq<Context>, m: MediaType, rendition: string, now: nat, freshId: nat)
    ensures FindMedia(Visited(contexts, m, rendition, now, freshId), m) == FindMedia(contexts, m)
  {
    var r, at := Visited(contexts, m, rendition, now, freshId), FindMedia(contexts, m);
    forall k | 0 <= k < at ensures r[k].mediaType != m {
      assert r[k] == contexts[k];
    }
  }

  lemma DirectSound(b: Book, found: bool)
    requires BookOk(b)
    ensures BookOk(b.(direct := b.direct && found))
  {
    hide ContextsOk, CandidatesOk, WindowOk, LogOk, Timely, Pinned;
  }

  /** A find is what the state holds. */
  lemma HintedFound(contexts: seq<Context>, candidates: seq<Candidate>, now: nat, eligible: Candidate -> bool, found: Found)
    requires Find(contexts, found.context) < |contexts|
    requires Hinted(contexts[Find(contexts, found.context)], candidates, now, eligible, found)
    ensures FoundIn(contexts, found)
  {
  }

  /** A context that a search may serve. */
  datatype Place = Place(id: nat, mediaType: MediaType)

  /** The contexts that a search may serve: the window's, or all of them. */
  function Served(contexts: seq<Context>, w: Option<Window>): seq<Place> {
    if w.Some? then [Place(w.value.context, w.value.mediaType)]
    else seq(|contexts|, k requires 0 <= k < |contexts| => Place(contexts[k].id, contexts[k].mediaType))
  }

  /** Over a run whose clock never goes back, the replacements for one context since
      it last verified come at least 20 seconds apart, at every point of the run. */
  lemma ReplacementBudget(b: Book, k: nat, id: nat, n: nat)
    requires BookOk(b) && b.steady && k <= |b.log| && n < |Replacements(b.log[..k], id)|
    ensures Replacements(b.log[..k], id)[n] >= Replacements(b.log[..k], id)[0] + n * REPLACEMENT_REARM_MS
  {
    BudgetSpaced(b.log, k, id, n);
  }

  /** One window gives a context at most one replacement, unless the context
      verified a segment in between. */
  lemma OncePerWindow(b: Book, i: nat, j: nat)
    requires BookOk(b) && b.steady && i < j < |b.log| && b.log[i].Replaced? && b.log[j].Replaced?
    requires b.log[i].context == b.log[j].context && b.log[i].window == b.log[j].window
    ensures exists k :: i < k < j && b.log[k] == Verified(b.log[i].context)
  {
    WindowedOnce(b.log, i, j);
  }
}
