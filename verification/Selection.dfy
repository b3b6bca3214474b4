/** Peer selection as the swarm uses it. */
module Selection {
  import opened Wrappers
  import opened Sorting
  import opened Estimates
  import opened Choices

  class PeerSelection {
    var observations: map<nat, Observation>
    var turn: nat
    var order: nat
    var completions: seq<Completion>
    var lastObservedAt: nat

    function View(): Record
      reads this
    {
      Record(observations, turn, order, completions, lastObservedAt)
    }

    ghost predicate Valid()
      reads this
    {
      HistoryOk(View())
    }

    constructor ()
      ensures Valid() && View() == Record(map[], 0, 0, [], 0)
    {
      observations, turn, order, completions, lastObservedAt := map[], 0, 0, [], 0;
    }

    /** The positions in `among` of the links of group `g`. */
    static method Narrow(r: Record, call: Call, among: seq<nat>, g: Group) returns (s: seq<nat>)
      requires Lists(r, call, Anyone, among)
      ensures Lists(r, call, g, s)
    {
      hide Eligible, Cold, Healthy;
      s := [];
      for k := 0 to |among|
        invariant Ascending(s)
        invariant forall i: nat :: i in s <==> i < |call.links| && i in among[..k] && In(r, call, g, call.links[i])
      {
        assert among[k] in among;
        if In(r, call, g, call.links[among[k]]) {
          AscendingSnoc(s, among[k]);
          s := s + [among[k]];
        }
        assert among[..k + 1] == among[..k] + [among[k]];
      }
      assert among[..|among|] == among;
    }

    static method Everyone(r: Record, call: Call) returns (s: seq<nat>)
      ensures Lists(r, call, Anyone, s)
    {
      hide Eligible;
      s := [];
      for k: nat := 0 to |call.links|
        invariant Ascending(s) && forall i: nat :: i in s <==> i < k && In(r, call, Anyone, call.links[i])
      {
        if In(r, call, Anyone, call.links[k]) {
          AscendingSnoc(s, k);
          s := s + [k];
        }
      }
    }

    /** The first of the candidates that no other beats. */
    static method BestOf(r: Record, call: Call, explore: bool, s: seq<nat>) returns (best: nat)
      requires s != [] && Ascending(s) && explore == Explores(r, call)
      requires forall i: nat :: i in s <==> i < |call.links| && Contender(r, call, call.links[i])
      ensures best < |call.links| && Best(r, call, best)
    {
      hide Contender, Explores, Score;
      forall j | 0 <= j < |s| ensures s[j] < |call.links| {
        assert s[j] in s;
      }
      best := s[0];
      for k := 1 to |s|
        invariant best in s[..k] && best < |call.links|
        invariant forall j :: 0 <= j < k ==>
                    Score(r, call, explore, call.links[best]) <= Score(r, call, explore, call.links[s[j]])
        invariant forall j :: 0 <= j < k && s[j] < best ==>
                    Score(r, call, explore, call.links[best]) < Score(r, call, explore, call.links[s[j]])
      {
        assert s[k] in s && s[..k + 1] == s[..k] + [s[k]];
        if Score(r, call, explore, call.links[s[k]]) < Score(r, call, explore, call.links[best]) {
          best := s[k];
        }
      }
      assert s[..|s|] == s;
      BestIsBest(r, call, explore, s, best);
    }

    /** The choice of a link. Every fourth prefers a link without history. */
    method Select(links: seq<LinkView>, tried: seq<string>, size: real, deadlineMs: real) returns (chosen: Option<nat>)
      requires Valid()
      modifies this
      ensures Valid() && Chose(old(View()), Call(links, tried, size, deadlineMs), View(), chosen)
    {
      hide Eligible, HistoryOk, Best, Lists, Explores, Contender;
      var r, call := View(), Call(links, tried, size, deadlineMs);
      var eligible := Everyone(r, call);
      if eligible == [] {
        GroupEmpty(r, call, Anyone, eligible);
        NobodyIn(r, call);
        return None;
      }
      var cold := Narrow(r, call, eligible, Unmeasured);
      var measured := Narrow(r, call, eligible, Measured);
      var healthy := Narrow(r, call, eligible, Fit);
      SomebodyIn(r, call, eligible, cold, measured);
      GroupsDecide(r, call, cold, measured, healthy);
      var explore := cold != [] && (healthy == [] || (turn == 0 && deadlineMs >= 100.0));
      turn := (turn + 1) % 4;
      var candidates := if explore then cold else if healthy != [] then healthy else measured;
      var best := BestOf(r, call, explore, candidates);
      TurnOk(r);
      MarkSelected(links[best].id);
      chosen := Some(links[best].id);
    }

    /** Records a trial granted by the host without inventing an observation. */
    method MarkSelected(link: nat)
      requires Valid()
      modifies this
      ensures Valid() && View() == Marked(old(View()), link)
    {
      MarkedOk(View(), link);
      order := order + 1;
      observations := observations[link := HistoryOf(View(), link).(lastSelected := order)];
    }

    /** One attempt on the link; `bytes` is 0 for a failure. */
    method RecordAttempt(now: nat, link: nat, elapsedMs: real, bytes: real)
      requires Valid()
      modifies this
      ensures Valid() && View() == Recorded(old(View()), now, link, elapsedMs, bytes)
    {
      hide HistoryOk;
      RecordedOk(View(), now, link, elapsedMs, bytes);
      var value := HistoryOf(View(), link);
      var elapsed := Clamped(elapsedMs, 1.0, 60_000.0);
      value := value.(attempts := Capped(value.attempts),
                      failureRate := value.failureRate * 0.75 + (if bytes != 0.0 then 0.0 else 0.25),
                      consecutiveFailures := if bytes != 0.0 then 0 else Capped(value.consecutiveFailures));
      if bytes != 0.0 {
        value := value.(latencyMs := Some(Blend(value.latencyMs, elapsed)),
                        throughput := Some(Blend(value.throughput, MinR(bytes * 1000.0 / elapsed, 1_000_000_000.0))));
        completions := completions + [Completion(bytes, MinR(bytes / elapsed, 1_000_000.0))];
        if |completions| > RECENT_COMPLETIONS {
          completions := completions[1..];
        }
        lastObservedAt := now;
      }
      observations := observations[link := value];
    }

    /** A link that is gone leaves no history. */
    method Forget(link: nat)
      requires Valid()
      modifies `observations
      ensures Valid() && observations == old(observations) - {link}
    {
      hide ObservationOk;
      observations := observations - {link};
    }
  }
}
