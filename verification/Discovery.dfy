/** The discovery object: it records demand and hints, and runs one replacement
    window after another. */
module Discovery {
  import opened Wrappers
  import opened Neighbours

  class NeighbourDiscovery {
    var contexts: seq<Context>
    var candidates: seq<Candidate>
    var window: Option<Window>
    var attempts: map<nat, Attempt>
    var nextId: nat

    /** The replacements so far, the last reading of the clock, whether it never
        went back, and whether every attempt began with a find of its state. */
    ghost var log: seq<Mark>
    ghost var clock: nat
    ghost var steady: bool
    ghost var direct: bool

    ghost function View(): Book
      reads this
    {
      Book(contexts, candidates, window, attempts, nextId, log, clock, steady, direct)
    }

    ghost predicate Valid()
      reads this
    {
      BookOk(View())
    }

    constructor ()
      ensures Valid() && View() == Book([], [], None, map[], 0, [], 0, true, true)
    {
      contexts, candidates, window, attempts, nextId := [], [], None, map[], 0;
      log, clock, steady, direct := [], 0, true, true;
      new;
      assert Replacements([], 0) == [];
    }

    ghost method Tell(now: nat)
      requires Valid()
      modifies `clock, `steady
      ensures Valid() && View() == At(old(View()), now)
    {
      SoundAt(View(), now);
      steady := steady && now >= clock;
      clock := now;
    }

    method FreshId() returns (id: nat)
      modifies `nextId
      ensures id == nextId == old(nextId) + 1
    {
      nextId := nextId + 1;
      id := nextId;
    }

    // ---- demand ----

    /** Finds or makes the context; one that was idle for 30 seconds forgets its
        demand. */
    method Visit(now: nat, mediaType: string, rendition: string) returns (id: Option<nat>)
      requires Valid()
      modifies this
      ensures Valid()
      ensures ParseMedia(mediaType).None? ==> id == None && View() == old(View())
      ensures ParseMedia(mediaType).Some? ==>
                var m := ParseMedia(mediaType).value;
                View() == VisitedBook(old(View()), m, rendition, now) && id == Some(contexts[FindMedia(old(contexts), m)].id)
    {
      hide BookOk, Touch;
      if ParseMedia(mediaType).None? {
        return None;
      }
      var m := ParseMedia(mediaType).value;
      VisitedSound(View(), m, rendition, now);
      steady, clock := steady && now >= clock, now;
      var at := FindMedia(contexts, m);
      if at == |contexts| || contexts[at].rendition != rendition {
        var freshId := FreshId();
        var context := NewContext(freshId, m, rendition, now);
        contexts := if at == |contexts| then contexts + [context] else contexts[at := context];
        return Some(freshId);
      }
      contexts := contexts[at := Touch(contexts[at], now)];
      id := Some(contexts[at].id);
    }

    /** The key of the attempt under way, while the window is live and serves `id`. */
    method Pin(now: nat, id: nat) returns (key: Option<string>)
      ensures key == PinnedKey(window, id, now)
    {
      key := None;
      if IsLive(window, now) && window.value.context == id && window.value.attempt.Some? {
        key := Some(window.value.attempt.value.key);
      }
    }

    /** Records demand for `key`: the two most recent keys stay, with the key of an
        attempt under way in front. */
    method Demand(now: nat, mediaType: string, rendition: string, key: string) returns (id: Option<nat>)
      requires Valid()
      modifies this
      ensures Valid()
      ensures id.Some? <==> ParseMedia(mediaType).Some? && IsHex64(key)
      ensures ParseMedia(mediaType).None? ==> View() == old(View())
      ensures ParseMedia(mediaType).Some? ==>
                var m := ParseMedia(mediaType).value;
                var b, at := VisitedBook(old(View()), m, rendition, now), FindMedia(old(contexts), m);
                if !IsHex64(key) then View() == b
                else View() == b.(contexts := b.contexts[at := DemandedContext(b.contexts[at], b.window, key, now)])
                     && id == Some(b.contexts[at].id)
    {
      hide BookOk, IsHex64, Visited, IsNew, Demanded;
      ghost var before := contexts;
      id := Visit(now, mediaType, rendition);
      if id.None? || !IsHex64(key) {
        return None;
      }
      var m := ParseMedia(mediaType).value;
      VisitedActive(before, m, rendition, now, old(nextId) + 1);
      VisitedAt(before, m, rendition, now, old(nextId) + 1);
      var at := FindMedia(contexts, m);
      var pinned := Pin(now, id.value);
      var keys := RecentKeys(pinned, key, contexts[at].keys);
      DemandSound(View(), at, key);
      contexts := contexts[at := contexts[at].(keys := keys, lastDemandAt := Some(now))];
    }

    method RecentKeys(pinned: Option<string>, key: string, older: seq<string>) returns (keys: seq<string>)
      ensures keys == Demanded(pinned, key, older)
    {
      hide Dedup;
      var order := (if pinned.Some? then [pinned.value] else []) + [key] + older;
      keys := [];
      for i := 0 to |order|
        invariant keys == Dedup(order[..i])
      {
        DedupNext(order, i);
        if order[i] !in keys {
          keys := keys + [order[i]];
        }
      }
      assert order[..|order|] == order;
      if |keys| > 2 {
        keys := keys[..2];
      }
    }

    /** Notes what a peer offers. A newer hint replaces its older one, and the oldest
        of 65 goes. */
    method Hint(now: nat, pubkey: string, have: seq<string>, ticket: Option<Ticket>)
      requires Valid()
      modifies this
      ensures Valid()
      ensures View() == if !IsHex64(pubkey) then old(View()) else
                        At(old(View()), now).(candidates := WithCandidate(old(candidates),
                          Candidate(pubkey, LastKeys(have), if ValidTicket(ticket) then ticket else None, now)))
    {
      hide ContextsOk, WindowOk, LogOk, Timely, Pinned, IsHex64, Dedup, OnePerPeer, HexOnly;
      if !IsHex64(pubkey) {
        return;
      }
      Tell(now);
      var keys := HexKeys(have);
      if |keys| > MAX_CANDIDATE_KEYS {
        keys := keys[|keys| - MAX_CANDIDATE_KEYS..];
      }
      var candidate := Candidate(pubkey, keys, if ValidTicket(ticket) then ticket else None, now);
      WithCandidateOk(candidates, candidate);
      var others := Others(pubkey);
      candidates := others + [candidate];
      if |candidates| > MAX_CANDIDATES {
        candidates := candidates[1..];
      }
    }

    /** The distinct keys of a hint, in order. */
    method HexKeys(have: seq<string>) returns (keys: seq<string>)
      ensures keys == Dedup(HexOnly(have))
    {
      hide IsHex64;
      keys := [];
      for i := 0 to |have|
        invariant keys == Dedup(HexOnly(have[..i]))
      {
        assert have[..i + 1][..i] == have[..i];
        ghost var before := HexOnly(have[..i]);
        if IsHex64(have[i]) {
          DedupNext(before + [have[i]], |before|);
          assert (before + [have[i]])[..|before|] == before && (before + [have[i]])[..|before| + 1] == before + [have[i]];
          if have[i] !in keys {
            keys := keys + [have[i]];
          }
        } else {
          assert before + [] == before;
        }
      }
      assert have[..|have|] == have;
    }

    method Others(pubkey: string) returns (others: seq<Candidate>)
      ensures others == AllBut(candidates, pubkey)
    {
      others := [];
      for i := 0 to |candidates|
        invariant others == AllBut(candidates[..i], pubkey)
      {
        assert candidates[..i + 1][..i] == candidates[..i];
        if candidates[i].pubkey != pubkey {
          others := others + [candidates[i]];
        }
      }
      assert candidates[..|candidates|] == candidates;
    }

    // ---- finding a candidate ----

    predicate Current(now: nat, context: nat)
      reads this
    {
      var k := Find(contexts, context);
      k < |contexts| && IsCurrent(contexts[k], now)
    }

    predicate Spent(context: nat)
      reads this
    {
      var k := Find(contexts, context);
      k < |contexts| && contexts[k].spent
    }

    /** No candidate offers context `id` a key that it demands. */
    predicate NothingFor(now: nat, id: nat, eligible: Candidate -> bool)
      reads this
    {
      var k := Find(contexts, id);
      k < |contexts| ==> forall j :: 0 <= j < |candidates| ==> !Offers(candidates[j], now, eligible, contexts[k].keys)
    }

    /** A fresh eligible candidate that hints a key the context demands: the oldest
        such candidate, with the first such key. */
    method FindHinted(now: nat, context: nat, eligible: Candidate -> bool) returns (found: Option<Found>)
      ensures var k := Find(contexts, context);
              if found.Some? then
                && k < |contexts| && found.value.context == context && Hinted(contexts[k], candidates, now, eligible, found.value)
                && FoundIn(contexts, found.value)
              else NothingFor(now, context, eligible)
    {
      found := None;
      var at := Find(contexts, context);
      if at == |contexts| {
        return;
      }
      var c := contexts[at];
      for i := 0 to |candidates|
        invariant forall j :: 0 <= j < i ==> !Offers(candidates[j], now, eligible, c.keys)
      {
        var candidate := candidates[i];
        if !Elapsed(now, candidate.at, CANDIDATE_FRESH_MS) && eligible(candidate) {
          for k := 0 to |c.keys|
            invariant forall j :: 0 <= j < k ==> c.keys[j] !in candidate.have
          {
            if c.keys[k] in candidate.have {
              assert Offers(candidates[i], now, eligible, c.keys);
              found := Some(Found(c.id, c.mediaType, candidate, c.keys[k], c.lastDemandAt));
              HintedFound(contexts, candidates, now, eligible, found.value);
              return;
            }
          }
        }
      }
    }

    /** Whether context `id` wants a neighbour that may be searched for. */
    predicate Wanting(now: nat, id: nat, mediaType: MediaType, unmet: MediaType -> bool, room: bool)
      reads this
    {
      Current(now, id) && unmet(mediaType) && (room || !Spent(id) || (window.Some? && window.value.vacant))
    }

    /** Picks the context to serve and the candidate to try for it. */
    method Choose(now: nat, eligible: Candidate -> bool, unmet: MediaType -> bool, room: bool) returns (found: Option<Found>)
      ensures window.Some? && window.value.attempt.Some? ==> found.None?
      ensures found.Some? ==>
                && (exists k :: 0 <= k < |Served(contexts, window)| && Served(contexts, window)[k].id == found.value.context &&
                                Wanting(now, Served(contexts, window)[k].id, Served(contexts, window)[k].mediaType, unmet, room))
                && Find(contexts, found.value.context) < |contexts| && FoundIn(contexts, found.value)
                && Hinted(contexts[Find(contexts, found.value.context)], candidates, now, eligible, found.value)
      ensures found.None? && !(window.Some? && window.value.attempt.Some?) ==>
                forall k :: 0 <= k < |Served(contexts, window)| && Wanting(now, Served(contexts, window)[k].id, Served(contexts, window)[k].mediaType, unmet, room) ==>
                  NothingFor(now, Served(contexts, window)[k].id, eligible)
    {
      hide NothingFor, Hinted, Current, Spent, Served, FoundIn;
      found := None;
      if window.Some? && window.value.attempt.Some? {
        return;
      }
      var served := Served(contexts, window);
      for i := 0 to |served|
        invariant found.None?
        invariant forall k :: 0 <= k < i && Wanting(now, served[k].id, served[k].mediaType, unmet, room) ==>
                    NothingFor(now, served[k].id, eligible)
      {
        if Wanting(now, served[i].id, served[i].mediaType, unmet, room) {
          found := FindHinted(now, served[i].id, eligible);
          if found.Some? {
            return;
          }
        }
      }
    }

    // ---- windows and attempts ----

    /** One attempt at what was found, within a window that may have to be opened. */
    method Begin(now: nat, found: Found) returns (id: Option<nat>)
      requires Valid()
      modifies this
      ensures Valid() && contexts == old(contexts) && candidates == old(candidates) && log == old(log)
      ensures direct == (old(direct) && FoundIn(contexts, found)) && clock == now && steady == (old(steady) && now >= old(clock))
      ensures var w := if old(window).Some? then old(window).value else Opened(old(nextId) + 1, found, now);
              var n := if old(window).Some? then old(nextId) else old(nextId) + 1;
              if w.context != found.context || w.attempt.Some? || now >= w.expiresAt then
                id == None && window == Some(w) && nextId == n && attempts == old(attempts)
              else
                var a := Attempt(n + 1, w.id, found.candidate.pubkey, found.candidate.ticket, found.key, None);
                && id == Some(n + 1) && window == Some(w.(attempt := Some(a))) && nextId == n + 1
                && attempts == OnlyOf(old(attempts), w.id)[n + 1 := a]
    {
      hide BookOk, Opened, FoundIn, OnlyOf;
      Tell(now);
      DirectSound(View(), FoundIn(contexts, found));
      direct := direct && FoundIn(contexts, found);
      if window.None? {
        OpenFor(now, found);
      }
      var w := window.value;
      if w.context != found.context || w.attempt.Some? || now >= w.expiresAt {
        return None;
      }
      id := StartAttempt(found);
    }

    method OpenFor(now: nat, found: Found)
      requires Valid() && window.None? && clock == now && (direct ==> FoundIn(contexts, found))
      modifies `window, `nextId
      ensures Valid() && nextId == old(nextId) + 1 && window == Some(Opened(nextId, found, now))
    {
      hide BookOk, Opened, FoundIn;
      OpenSound(View(), found);
      var windowId := FreshId();
      window := Some(Opened(windowId, found, now));
    }

    method StartAttempt(found: Found) returns (id: Option<nat>)
      requires Valid() && window.Some? && window.value.context == found.context && (direct ==> FoundIn(contexts, found))
      modifies `window, `nextId, `attempts
      ensures Valid() && nextId == old(nextId) + 1 && id == Some(nextId)
      ensures var w := old(window).value;
              var a := Attempt(nextId, w.id, found.candidate.pubkey, found.candidate.ticket, found.key, None);
              window == Some(w.(attempt := Some(a))) && attempts == OnlyOf(old(attempts), w.id)[nextId := a]
    {
      hide BookOk, FoundIn, OnlyOf;
      AttemptSound(View(), found);
      var w := window.value;
      var attemptId := FreshId();
      var attempt := Attempt(attemptId, w.id, found.candidate.pubkey, found.candidate.ticket, found.key, None);
      // Attempts of earlier windows are forgotten.
      attempts := OnlyOf(attempts, w.id)[attemptId := attempt];
      window := Some(w.(attempt := Some(attempt)));
      id := Some(attemptId);
    }

    /** The attempt may go on: its window, its context and its hint have not lapsed. */
    predicate Attempts(now: nat, attempt: nat)
      reads this
    {
      && window.Some? && window.value.attempt.Some? && window.value.attempt.value.id == attempt
      && IsLive(window, now) && Current(now, window.value.context)
      && exists k :: 0 <= k < |candidates| && StillHints(candidates[k], window.value.attempt.value, now)
    }

    /** Spends the context's one replacement and drops `victim` for the attempt. */
    method Replace(now: nat, attempt: nat, victim: Option<string>) returns (ok: bool)
      requires Valid()
      modifies this
      ensures Valid() && ok == (old(Attempts(now, attempt)) && !old(Spent(window.value.context)))
      ensures !ok ==> View() == At(old(View()), now)
      ensures ok ==>
                var w, k := old(window).value, Find(old(contexts), old(window).value.context);
                && k < |contexts|
                && View() == At(old(View()), now).(contexts := old(contexts)[k := SpentAt(old(contexts)[k], now)],
                                                   window := Some(w.(vacant := true, victim := victim)),
                                                   log := old(log) + [Replaced(now, w.context, w.id, w.createdAt)])
    {
      hide BookOk;
      Tell(now);
      if !Attempts(now, attempt) || Spent(window.value.context) {
        return false;
      }
      var w := window.value;
      var at := Find(contexts, w.context);
      ReplaceSound(View(), at, victim);
      contexts := contexts[at := contexts[at].(spent := true, spentAt := Some(now))];
      window := Some(w.(vacant := true, victim := victim));
      log := log + [Replaced(now, w.context, w.id, w.createdAt)];
      ok := true;
    }

    /** Allows the context another replacement, 20 seconds after the last at the
        earliest. */
    method Rearm(now: nat, context: nat, allStale: bool) returns (ok: bool)
      requires Valid()
      modifies this
      ensures Valid()
      ensures var k := Find(old(contexts), context);
              && ok == (k < |old(contexts)| && old(contexts)[k].spentAt.Some? && allStale && old(Current(now, context)) &&
                        now >= old(contexts)[k].spentAt.value + REPLACEMENT_REARM_MS)
              && View() == At(old(View()), now).(contexts := if ok then old(contexts)[k := Unspent(old(contexts)[k])] else old(contexts))
    {
      hide BookOk;
      Tell(now);
      var at := Find(contexts, context);
      if at == |contexts| || contexts[at].spentAt.None? {
        return false;
      }
      var spentAt := contexts[at].spentAt.value;
      if now < spentAt || now - spentAt < REPLACEMENT_REARM_MS || !Current(now, context) || !allStale {
        return false;
      }
      RearmSound(View(), at);
      contexts := contexts[at := contexts[at].(spent := false, spentAt := None)];
      ok := true;
    }

    /** A segment from a peer proves the context served: it may replace again. */
    method Verify(context: Option<nat>) returns (ok: bool)
      requires Valid()
      modifies this
      ensures Valid()
      ensures var k := if context.Some? then Find(old(contexts), context.value) else |old(contexts)|;
              && ok == (k < |old(contexts)|)
              && View() == if !ok then old(View()) else old(View()).(contexts := old(contexts)[k := Unspent(old(contexts)[k])],
                                                                     log := old(log) + [Verified(context.value)])
    {
      hide BookOk;
      if context.None? {
        return false;
      }
      var at := Find(contexts, context.value);
      if at == |contexts| {
        return false;
      }
      VerifySound(View(), at);
      contexts := contexts[at := contexts[at].(spent := false, spentAt := None)];
      log := log + [Verified(context.value)];
      ok := true;
    }

    /** A dial was made for the attempt: the vacancy is taken. */
    method Allocated(attempt: nat, dial: nat)
      requires Valid()
      modifies `window, `attempts
      ensures Valid()
      ensures attempt !in old(attempts) ==> View() == old(View())
      ensures attempt in old(attempts) ==>
                && attempts == old(attempts)[attempt := old(attempts)[attempt].(dial := Some(dial))] && window.Some?
                && var w := old(window).value;
                   var current := w.attempt.Some? && w.attempt.value.id == attempt;
                   window == Some(w.(vacant := false, attempt := if current then Some(w.attempt.value.(dial := Some(dial))) else w.attempt))
    {
      hide ContextsOk, CandidatesOk, LogOk, Timely, Pinned;
      if attempt !in attempts {
        return;
      }
      var w := window.value;
      var current := if w.attempt.Some? && w.attempt.value.id == attempt then Some(w.attempt.value.(dial := Some(dial))) else w.attempt;
      var all := attempts[attempt := attempts[attempt].(dial := Some(dial))];
      assert all.Keys == attempts.Keys;
      WindowSound(View(), w.(vacant := false, attempt := current), all);
      attempts, window := all, Some(w.(vacant := false, attempt := current));
    }

    /** The window gives its attempt up. */
    method Abandon(attempt: nat)
      requires Valid()
      modifies `window
      ensures Valid()
      ensures window == if old(window).Some? && old(window).value.attempt.Some? && old(window).value.attempt.value.id == attempt
                        then Some(old(window).value.(attempt := None)) else old(window)
    {
      hide ContextsOk, CandidatesOk, LogOk, Timely, Pinned;
      if window.Some? && window.value.attempt.Some? && window.value.attempt.value.id == attempt {
        WindowSound(View(), window.value.(attempt := None), attempts);
        window := Some(window.value.(attempt := None));
      }
    }

    /** A dial failed: its attempt ends, and the victim's place is free again. */
    method Failed(dial: nat)
      requires Valid()
      modifies `window
      ensures Valid()
      ensures window == if old(window).Some? && old(window).value.attempt.Some? && old(window).value.attempt.value.dial == Some(dial)
                        then Some(old(window).value.(attempt := None, vacant := old(window).value.victim.Some?)) else old(window)
    {
      hide ContextsOk, CandidatesOk, LogOk, Timely, Pinned;
      if window.Some? && window.value.attempt.Some? && window.value.attempt.value.dial == Some(dial) {
        var w := window.value.(attempt := None, vacant := window.value.victim.Some?);
        WindowSound(View(), w, attempts);
        window := Some(w);
      }
    }

    /** Closes the window. */
    method End() returns (ended: bool)
      requires Valid()
      modifies `window, `attempts
      ensures Valid() && ended == old(window).Some? && window == None && attempts == map[]
    {
      hide BookOk;
      EndSound(View());
      ended := window.Some?;
      window, attempts := None, map[];
    }

    method Clear()
      requires Valid()
      modifies this
      ensures Valid() && View() == old(View()).(contexts := [], candidates := [], window := None, attempts := map[])
    {
      hide Budget, Windowed;
      EndSound(View());
      contexts, candidates, window, attempts := [], [], None, map[];
    }
  }
}
