/** Peer selection: the history of each link, what one choice does to it, and how
    long a link that was never measured can wait. */
module Choices {
  import opened Wrappers
  import opened Sorting
  import opened Estimates

  const RECENT_COMPLETIONS: nat := 16

  /** What a link did so far. */
  datatype Observation = Observation(
    attempts: nat, latencyMs: Option<real>, throughput: Option<real>, failureRate: real, consecutiveFailures: nat, lastSelected: nat)

  const UNSEEN := Observation(0, None, None, 0.0, 0, 0)

  /** What a choice sees of a link. */
  datatype LinkView = LinkView(id: nat, pubkey: string, closed: bool, busy: bool, hasKey: bool)

  datatype Completion = Completion(bytes: real, rate: real)

  /** The state of the selection. */
  datatype Record = Record(observations: map<nat, Observation>, turn: nat, order: nat, completions: seq<Completion>, lastObservedAt: nat)

  function HistoryOf(r: Record, link: nat): Observation {
    if link in r.observations then r.observations[link] else UNSEEN
  }

  /** The projected time for `size` bytes on the link, if it was ever measured. */
  function EstimateOf(r: Record, link: nat, size: real): Option<real> {
    var o := HistoryOf(r, link);
    if o.latencyMs.None? then None
    else
      var transfer := if o.throughput.Some? && size != 0.0 && o.throughput.value != 0.0 then size * 1000.0 / o.throughput.value else 0.0;
      Some(MaxR(o.latencyMs.value, transfer))
  }

  predicate Fits(r: Record, link: nat, size: real, deadlineMs: real) {
    EstimateOf(r, link, size).None? || EstimateOf(r, link, size).value * 1.25 + 25.0 <= deadlineMs
  }

  /** A choice: the links, who was tried already, how much is wanted and by when. */
  datatype Call = Call(links: seq<LinkView>, tried: seq<string>, size: real, deadlineMs: real)

  predicate Eligible(r: Record, call: Call, link: LinkView) {
    !link.closed && !link.busy && link.pubkey !in call.tried && link.hasKey && Fits(r, link.id, call.size, call.deadlineMs)
  }

  predicate Cold(r: Record, link: LinkView) {
    HistoryOf(r, link.id).attempts == 0
  }

  predicate Healthy(r: Record, link: LinkView) {
    !Cold(r, link) && HistoryOf(r, link.id).consecutiveFailures == 0
  }

  /** Whether the choice explores a link that was never measured. */
  predicate Explores(r: Record, call: Call) {
    && (exists x :: x in call.links && Eligible(r, call, x) && Cold(r, x))
    && ((r.turn == 0 && call.deadlineMs >= 100.0) || !(exists x :: x in call.links && Eligible(r, call, x) && Healthy(r, x)))
  }

  /** The links among which the choice is made. */
  predicate Contender(r: Record, call: Call, x: LinkView) {
    && x in call.links && Eligible(r, call, x)
    && if Explores(r, call) then Cold(r, x)
       else if exists y :: y in call.links && Eligible(r, call, y) && Healthy(r, y) then Healthy(r, x)
       else !Cold(r, x)
  }

  /** Lower is better: the least recently selected when exploring, and otherwise
      the quickest, with a penalty for failures. */
  function Score(r: Record, call: Call, explore: bool, x: LinkView): real {
    if explore then HistoryOf(r, x.id).lastSelected as real
    else EstimateOf(r, x.id, call.size).GetOr(1000.0) * (1.0 + HistoryOf(r, x.id).failureRate * 4.0)
  }

  /** A link is marked as the latest selected. */
  function Marked(r: Record, link: nat): Record {
    r.(order := r.order + 1, observations := r.observations[link := HistoryOf(r, link).(lastSelected := r.order + 1)])
  }

  /** What a choice may return, and the state after it: a candidate with the best
      score, and none only when nothing is eligible. */
  ghost predicate Chose(r: Record, call: Call, r': Record, chosen: Option<nat>) {
    match chosen
    case None => r' == r && forall x :: x in call.links ==> !Eligible(r, call, x)
    case Some(id) =>
      r' == Marked(r.(turn := (r.turn + 1) % 4), id) && exists i :: 0 <= i < |call.links| && call.links[i].id == id && Best(r, call, i)
  }

  /** The first candidate that no other beats. */
  predicate Best(r: Record, call: Call, i: nat)
    requires i < |call.links|
  {
    && Contender(r, call, call.links[i])
    && (forall j :: 0 <= j < |call.links| && Contender(r, call, call.links[j]) ==>
          Score(r, call, Explores(r, call), call.links[i]) <= Score(r, call, Explores(r, call), call.links[j]))
    && (forall j :: 0 <= j < i && Contender(r, call, call.links[j]) ==>
          Score(r, call, Explores(r, call), call.links[i]) < Score(r, call, Explores(r, call), call.links[j]))
  }

  // ---- bounded waiting ----

  /** The eligible links of the call that were never measured are exactly `cold`. */
  ghost predicate ColdSet(r: Record, call: Call, cold: set<nat>) {
    forall id: nat :: id in cold <==> exists x :: x in call.links && x.id == id && Eligible(r, call, x) && Cold(r, x)
  }

  /** One successful choice of a run, with the states around it. */
  datatype Choice = Choice(before: Record, call: Call, after: Record, chosen: nat)

  /** Between two choices anything may be recorded, but not of the links in `cold`,
      and nothing is selected. */
  ghost predicate Undisturbed(a: Record, b: Record, cold: set<nat>) {
    b.turn == a.turn && b.order == a.order && forall id :: id in cold ==> HistoryOf(b, id) == HistoryOf(a, id)
  }

  /** Consecutive successful choices with deadlines of at least 100 ms, while the
      links in `cold` and no others are eligible and unmeasured. */
  ghost predicate Waits(run: seq<Choice>, cold: set<nat>) {
    && (forall i :: 0 <= i < |run| ==>
          && Chose(run[i].before, run[i].call, run[i].after, Some(run[i].chosen)) && run[i].call.deadlineMs >= 100.0
          && ColdSet(run[i].before, run[i].call, cold) && run[i].before.turn < 4
          && forall id :: id in cold ==> HistoryOf(run[i].before, id).lastSelected <= run[i].before.order)
    && (forall i :: 0 < i < |run| ==> Undisturbed(run[i - 1].after, run[i].before, cold))
  }

  /** The links of `cold` that the first choices selected. */
  function ChosenIn(run: seq<Choice>, cold: set<nat>): (s: set<nat>)
    ensures s <= cold
    decreases |run|
  {
    if run == [] then {}
    else ChosenIn(run[..|run| - 1], cold) + (if run[|run| - 1].chosen in cold then {run[|run| - 1].chosen} else {})
  }

  lemma {:induction false} ChosenAt(run: seq<Choice>, cold: set<nat>, id: nat) returns (i: nat)
    requires id in ChosenIn(run, cold)
    ensures i < |run| && run[i].chosen == id
    decreases |run|
  {
    if id in ChosenIn(run[..|run| - 1], cold) {
      i := ChosenAt(run[..|run| - 1], cold, id);
    } else {
      i := |run| - 1;
    }
  }

  /** Links that were selected in the run are the more recently selected ones. */
  ghost predicate ChosenLast(r: Record, cold: set<nat>, chosen: set<nat>, start: nat) {
    && start <= r.order
    && (forall id :: id in chosen ==> HistoryOf(r, id).lastSelected > start)
    && (forall id :: id in cold - chosen ==> HistoryOf(r, id).lastSelected <= start)
  }

  /** An exploring choice takes a link that was not selected yet, if there is one. */
  lemma ExploreIsFresh(c: Choice, cold: set<nat>, chosen: set<nat>, start: nat)
    requires Chose(c.before, c.call, c.after, Some(c.chosen)) && ColdSet(c.before, c.call, cold) && Explores(c.before, c.call)
    requires ChosenLast(c.before, cold, chosen, start) && chosen < cold
    ensures c.chosen in cold - chosen
  {
    var id :| id in cold - chosen;
    var y :| y in c.call.links && y.id == id && Eligible(c.before, c.call, y) && Cold(c.before, y);
    var j :| 0 <= j < |c.call.links| && c.call.links[j] == y;
    assert Contender(c.before, c.call, c.call.links[j]);
    var i :| 0 <= i < |c.call.links| && c.call.links[i].id == c.chosen && Best(c.before, c.call, i);
    assert Contender(c.before, c.call, c.call.links[i]) && c.call.links[i].id in cold;
  }

  lemma MarkedSummary(r: Record, link: nat, id: nat)
    ensures HistoryOf(Marked(r, link), id) == if id == link then HistoryOf(r, id).(lastSelected := r.order + 1) else HistoryOf(r, id)
  {
  }

  lemma ChosenLastNext(c: Choice, cold: set<nat>, chosen: set<nat>, start: nat)
    requires Chose(c.before, c.call, c.after, Some(c.chosen)) && ChosenLast(c.before, cold, chosen, start) && chosen <= cold
    ensures ChosenLast(c.after, cold, chosen + (if c.chosen in cold then {c.chosen} else {}), start)
  {
    hide Marked, HistoryOf, Best;
    var r := c.before.(turn := (c.before.turn + 1) % 4);
    forall id: nat ensures HistoryOf(c.after, id) ==
        if id == c.chosen then HistoryOf(r, id).(lastSelected := r.order + 1) else HistoryOf(r, id)
    {
      MarkedSummary(r, c.chosen, id);
    }
    TurnSummary(c.before, r);
    assert c.after.order == c.before.order + 1 by {
      MarkedOrder(r, c.chosen);
    }
  }

  lemma MarkedOrder(r: Record, link: nat)
    ensures Marked(r, link).order == r.order + 1 && Marked(r, link).turn == r.turn
  {
  }

  lemma TurnSummary(r: Record, r': Record)
    requires r'.observations == r.observations
    ensures forall id :: HistoryOf(r', id) == HistoryOf(r, id)
  {
  }

  lemma ChosenLastStays(a: Record, b: Record, cold: set<nat>, chosen: set<nat>, start: nat)
    requires ChosenLast(a, cold, chosen, start) && Undisturbed(a, b, cold) && chosen <= cold
    ensures ChosenLast(b, cold, chosen, start)
  {
  }

  function TurnAt(turn: nat, n: nat): nat {
    (turn + n) % 4
  }

  /** How many of `n` consecutive choices from `turn` on come at turn 0. */
  function Zeros(turn: nat, n: nat): nat {
    if n == 0 then 0 else Zeros(turn, n - 1) + IsZero(turn, n - 1)
  }

  function IsZero(turn: nat, n: nat): nat {
    if TurnAt(turn, n) == 0 then 1 else 0
  }

  lemma OneInFour(turn: nat, n: nat)
    ensures IsZero(turn, n) + IsZero(turn, n + 1) + IsZero(turn, n + 2) + IsZero(turn, n + 3) == 1
  {
  }

  lemma {:induction false} ZerosOfFour(turn: nat, k: nat)
    ensures Zeros(turn, 4 * k) == k
  {
    hide IsZero;
    if k > 0 {
      var n := 4 * k - 4;
      ZerosOfFour(turn, k - 1);
      OneInFour(turn, n);
      assert Zeros(turn, n + 1) == Zeros(turn, n) + IsZero(turn, n);
      assert Zeros(turn, n + 2) == Zeros(turn, n + 1) + IsZero(turn, n + 1);
      assert Zeros(turn, n + 3) == Zeros(turn, n + 2) + IsZero(turn, n + 2);
      assert Zeros(turn, n + 4) == Zeros(turn, n + 3) + IsZero(turn, n + 3);
    }
  }

  /** As many links as there were choices at turn 0 have been selected, up to all. */
  lemma {:induction false} ColdProgress(run: seq<Choice>, cold: set<nat>)
    requires Waits(run, cold) && run != [] && cold != {}
    ensures var last := run[|run| - 1];
            && ChosenLast(last.after, cold, ChosenIn(run, cold), run[0].before.order)
            && last.after.turn == TurnAt(run[0].before.turn, |run|)
            && (ChosenIn(run, cold) == cold || |ChosenIn(run, cold)| >= Zeros(run[0].before.turn, |run|))
    decreases |run|
  {
    hide Chose, ColdSet, ChosenLast, HistoryOf, Undisturbed;
    var init, last := run[..|run| - 1], run[|run| - 1];
    var start, before, turn := run[0].before.order, ChosenIn(init, cold), run[0].before.turn;
    if init == [] {
      ChosenLastFirst(last.before, cold);
      assert before == {} && Zeros(turn, 0) == 0;
    } else {
      assert Waits(init, cold);
      ColdProgress(init, cold);
      UndisturbedTurn(init[|init| - 1].after, last.before, cold);
      ChosenLastStays(init[|init| - 1].after, last.before, cold, before, start);
    }
    ProgressNext(last, cold, before, start, turn, |init|);
  }

  lemma ChosenLastFirst(r: Record, cold: set<nat>)
    requires forall id :: id in cold ==> HistoryOf(r, id).lastSelected <= r.order
    ensures ChosenLast(r, cold, {}, r.order)
  {
  }

  lemma UndisturbedTurn(a: Record, b: Record, cold: set<nat>)
    requires Undisturbed(a, b, cold)
    ensures a.turn == b.turn
  {
  }

  lemma ProgressNext(c: Choice, cold: set<nat>, before: set<nat>, start: nat, turn: nat, n: nat)
    requires Chose(c.before, c.call, c.after, Some(c.chosen)) && c.call.deadlineMs >= 100.0 && ColdSet(c.before, c.call, cold)
    requires ChosenLast(c.before, cold, before, start) && before <= cold && cold != {} && c.before.turn == TurnAt(turn, n)
    requires before == cold || |before| >= Zeros(turn, n)
    ensures var after := before + (if c.chosen in cold then {c.chosen} else {});
            && ChosenLast(c.after, cold, after, start) && c.after.turn == TurnAt(turn, n + 1)
            && (after == cold || |after| >= Zeros(turn, n + 1))
  {
    hide ColdSet, ChosenLast, HistoryOf, Best, Marked, Explores;
    ChosenLastNext(c, cold, before, start);
    MarkedOrder(c.before.(turn := (c.before.turn + 1) % 4), c.chosen);
    var after := before + (if c.chosen in cold then {c.chosen} else {});
    if before != cold && c.before.turn == 0 {
      TurnExplores(c, cold);
      ExploreIsFresh(c, cold, before, start);
      assert |after| == |before| + 1;
    } else if before != cold && c.chosen in cold && c.chosen !in before {
      assert |after| == |before| + 1;
    } else {
      assert after == before;
    }
  }

  lemma TurnExplores(c: Choice, cold: set<nat>)
    requires ColdSet(c.before, c.call, cold) && cold != {} && c.before.turn == 0 && c.call.deadlineMs >= 100.0
    ensures Explores(c.before, c.call)
  {
    var id :| id in cold;
    assert exists x :: x in c.call.links && x.id == id && Eligible(c.before, c.call, x) && Cold(c.before, x);
  }

  /** Newest waiting: while exactly `k` unmeasured links stay eligible, any `4k`
      consecutive successful choices select each of them. */
  lemma BoundedWaiting(run: seq<Choice>, cold: set<nat>, id: nat) returns (i: nat)
    requires Waits(run, cold) && |run| == 4 * |cold| && id in cold
    ensures i < |run| && run[i].chosen == id
  {
    ColdProgress(run, cold);
    ZerosOfFour(run[0].before.turn, |cold|);
    SubsetFull(ChosenIn(run, cold), cold);
    i := ChosenAt(run, cold, id);
  }

  lemma SubsetFull(a: set<nat>, b: set<nat>)
    requires a <= b && |a| >= |b|
    ensures a == b
  {
    assert b == a + (b - a);
    assert |b| == |a| + |b - a|;
    assert b - a == {};
  }

  // ---- groups of links ----

  datatype Group = Anyone | Unmeasured | Measured | Fit

  predicate In(r: Record, call: Call, g: Group, x: LinkView) {
    Eligible(r, call, x) && match g case Anyone => true case Unmeasured => Cold(r, x) case Measured => !Cold(r, x) case Fit => Healthy(r, x)
  }

  lemma AscendingSnoc(s: seq<nat>, x: nat)
    requires Ascending(s) && forall i :: i in s ==> i < x
    ensures Ascending(s + [x])
  {
    assert forall i :: 0 <= i < |s| ==> (s + [x])[i] == s[i] && s[i] in s;
  }

  /** The positions of the group's links, in order. */
  ghost predicate Lists(r: Record, call: Call, g: Group, s: seq<nat>) {
    Ascending(s) && forall i: nat :: i in s <==> i < |call.links| && In(r, call, g, call.links[i])
  }

  /** Which group is chosen from. */
  lemma GroupsDecide(r: Record, call: Call, cold: seq<nat>, measured: seq<nat>, healthy: seq<nat>)
    requires Lists(r, call, Unmeasured, cold) && Lists(r, call, Measured, measured) && Lists(r, call, Fit, healthy)
    requires cold != [] || measured != []
    ensures var explore := cold != [] && (healthy == [] || (r.turn == 0 && call.deadlineMs >= 100.0));
            var s := if explore then cold else if healthy != [] then healthy else measured;
            && Explores(r, call) == explore && s != [] && Ascending(s)
            && forall i: nat :: i in s <==> i < |call.links| && Contender(r, call, call.links[i])
  {
    hide Eligible, Cold, HistoryOf;
    GroupEmpty(r, call, Unmeasured, cold);
    GroupEmpty(r, call, Fit, healthy);
  }

  lemma GroupEmpty(r: Record, call: Call, g: Group, s: seq<nat>)
    requires Lists(r, call, g, s)
    ensures s == [] <==> !exists x :: x in call.links && In(r, call, g, x)
  {
    if s != [] {
      assert s[0] in s && call.links[s[0]] in call.links;
    }
    if x :| x in call.links && In(r, call, g, x) {
      var i: nat :| i < |call.links| && call.links[i] == x;
      assert i in s;
    }
  }

  lemma BestIsBest(r: Record, call: Call, explore: bool, s: seq<nat>, best: nat)
    requires explore == Explores(r, call) && best in s && best < |call.links|
    requires forall i: nat :: i in s <==> i < |call.links| && Contender(r, call, call.links[i])
    requires forall j :: 0 <= j < |s| && s[j] < |call.links| ==>
               Score(r, call, explore, call.links[best]) <= Score(r, call, explore, call.links[s[j]])
    requires forall j :: 0 <= j < |s| && s[j] < best ==>
               Score(r, call, explore, call.links[best]) < Score(r, call, explore, call.links[s[j]])
    ensures Best(r, call, best)
  {
    hide Contender, Explores, Score;
    forall i: nat | i < |call.links| && Contender(r, call, call.links[i])
      ensures Score(r, call, explore, call.links[best]) <= Score(r, call, explore, call.links[i])
      ensures i < best ==> Score(r, call, explore, call.links[best]) < Score(r, call, explore, call.links[i])
    {
      assert i in s;
      var j :| 0 <= j < |s| && s[j] == i;
    }
  }

  // ---- attempts ----

  function Clamped(x: real, low: real, high: real): real {
    if x < low then low else if x > high then high else x
  }

  function Blend(previous: Option<real>, next: real): real {
    if previous.None? then next else previous.value * 0.75 + next * 0.25
  }

  function Capped(n: nat): nat {
    if n < 32 then n + 1 else 32
  }

  /** The history of a link after one more attempt; no bytes is a failure. */
  function AfterAttempt(o: Observation, elapsedMs: real, bytes: real): Observation {
    var elapsed := Clamped(elapsedMs, 1.0, 60_000.0);
    if bytes == 0.0 then
      o.(attempts := Capped(o.attempts), failureRate := o.failureRate * 0.75 + 0.25, consecutiveFailures := Capped(o.consecutiveFailures))
    else
      o.(attempts := Capped(o.attempts), failureRate := o.failureRate * 0.75, consecutiveFailures := 0,
         latencyMs := Some(Blend(o.latencyMs, elapsed)),
         throughput := Some(Blend(o.throughput, MinR(bytes * 1000.0 / elapsed, 1_000_000_000.0))))
  }

  function Newest(s: seq<Completion>, c: Completion): seq<Completion> {
    if |s| >= RECENT_COMPLETIONS then (s + [c])[1..] else s + [c]
  }

  function Recorded(r: Record, now: nat, link: nat, elapsedMs: real, bytes: real): Record {
    var r1 := r.(observations := r.observations[link := AfterAttempt(HistoryOf(r, link), elapsedMs, bytes)]);
    if bytes == 0.0 then r1
    else
      r1.(completions := Newest(r.completions, Completion(bytes, MinR(bytes / Clamped(elapsedMs, 1.0, 60_000.0), 1_000_000.0))),
          lastObservedAt := now)
  }

  // ---- what the state keeps ----

  predicate ObservationOk(o: Observation) {
    && o.attempts <= 32 && o.consecutiveFailures <= o.attempts && 0.0 <= o.failureRate < 1.0
    && o.latencyMs.Some? == o.throughput.Some? && (o.latencyMs.Some? ==> 1.0 <= o.latencyMs.value <= 60_000.0 && o.attempts > 0)
    && (o.latencyMs.None? ==> o.consecutiveFailures == o.attempts)
  }

  ghost predicate HistoryOk(r: Record) {
    && r.turn < 4 && |r.completions| <= RECENT_COMPLETIONS
    && forall link :: link in r.observations ==> ObservationOk(r.observations[link]) && r.observations[link].lastSelected <= r.order
  }

  lemma AfterAttemptOk(o: Observation, elapsedMs: real, bytes: real)
    requires ObservationOk(o)
    ensures ObservationOk(AfterAttempt(o, elapsedMs, bytes)) && AfterAttempt(o, elapsedMs, bytes).lastSelected == o.lastSelected
    ensures AfterAttempt(o, elapsedMs, bytes).attempts > 0
  {
  }

  lemma RecordedOk(r: Record, now: nat, link: nat, elapsedMs: real, bytes: real)
    requires HistoryOk(r)
    ensures HistoryOk(Recorded(r, now, link, elapsedMs, bytes))
  {
    hide ObservationOk, AfterAttempt;
    assert ObservationOk(UNSEEN) by {
      UnseenOk();
    }
    AfterAttemptOk(HistoryOf(r, link), elapsedMs, bytes);
  }

  lemma UnseenOk()
    ensures ObservationOk(UNSEEN)
  {
  }

  lemma MarkedOk(r: Record, link: nat)
    requires HistoryOk(r)
    ensures HistoryOk(Marked(r, link))
  {
  }

  /** An unmeasured link always fits: nothing is known against it. */
  lemma ColdFits(r: Record, link: LinkView, size: real, deadlineMs: real)
    requires HistoryOk(r) && Cold(r, link)
    ensures Fits(r, link.id, size, deadlineMs)
  {
    if link.id in r.observations {
      assert ObservationOk(r.observations[link.id]);
    }
  }

  lemma NobodyIn(r: Record, call: Call)
    requires !exists x :: x in call.links && In(r, call, Anyone, x)
    ensures forall x :: x in call.links ==> !Eligible(r, call, x)
  {
    forall x | x in call.links ensures !Eligible(r, call, x) {
      assert !In(r, call, Anyone, x);
    }
  }

  lemma SomebodyIn(r: Record, call: Call, eligible: seq<nat>, cold: seq<nat>, measured: seq<nat>)
    requires Lists(r, call, Anyone, eligible) && eligible != []
    requires Lists(r, call, Unmeasured, cold) && Lists(r, call, Measured, measured)
    ensures cold != [] || measured != []
  {
    assert eligible[0] in eligible;
    assert eligible[0] in cold || eligible[0] in measured;
  }

  lemma TurnOk(r: Record)
    requires HistoryOk(r)
    ensures HistoryOk(r.(turn := (r.turn + 1) % 4))
  {
  }
}
