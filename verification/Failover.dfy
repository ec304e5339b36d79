// Provider selection and failover over the health records
// (LLMProviderManager and FailoverChatLLM._generate in ai/llm/llm_provider_manager.py).
module Failover {
  import opened Sequences
  import opened Wrappers
  import opened StableSort
  import opened CircuitBreaker

  const PROVIDER_PRIORITY := ["groq", "openai", "gemini", "xai"]

  type Views = map<string, Health>

  // ----- Specification -----

  // `record_success` and `record_failure` ignore a provider they do not know.
  function Recorded(views: Views, name: string, e: Event): (r: Views)
    ensures r.Keys == views.Keys
  {
    if name in views then views[name := Apply(views[name], e)] else views
  }

  // The records after the availability check of the first n names.
  function AfterChecks(views: Views, names: seq<string>, n: nat, now: real): (r: Views)
    requires n <= |names|
    ensures r.Keys == views.Keys
  {
    if n == 0 then views else Recorded(AfterChecks(views, names, n - 1, now), names[n - 1], Asked(now))
  }

  predicate Usable(views: Views, keyed: set<string>, now: real, name: string) {
    name in views && views[name].Available(now) && name in keyed
  }

  // The score the list is sorted by.
  function ScoreOf(views: Views, name: string): real {
    if name in views then views[name].Score() else 0.0
  }

  function Ranked(views: Views, names: seq<string>, keyed: set<string>, now: real): seq<string> {
    SortBy(n => ScoreOf(views, n), Filter(n => Usable(views, keyed, now, n), names))
  }

  // One provider's answer to one call, with the clock readings of the record it leads to.
  datatype Answer =
    | Succeeds(at: real, latencyMs: real)
    | FailsTransiently(at: real, again: real)
    | FailsForGood(at: real, again: real)

  function EventOf(a: Answer): Event {
    match a
    case Succeeds(at, latencyMs) => Succeeded(at, latencyMs)
    case FailsTransiently(at, again) => Event.Failed(at, again)
    case FailsForGood(at, again) => Event.Failed(at, again)
  }

  // `Winner(i)`: the result of provider i; `Stopped(i)`: provider i's error is raised;
  // `Exhausted`: every provider failed transiently.
  datatype Generated = Winner(index: nat) | Stopped(index: nat) | Exhausted

  // The number of leading transient failures.
  function Leading(answers: seq<Answer>): (n: nat)
    ensures n <= |answers|
    ensures forall i :: 0 <= i < n ==> answers[i].FailsTransiently?
    ensures n < |answers| ==> !answers[n].FailsTransiently?
  {
    if answers == [] || !answers[0].FailsTransiently? then 0 else 1 + Leading(answers[1..])
  }

  function Verdict(answers: seq<Answer>): Generated {
    var n := Leading(answers);
    if n == |answers| then Exhausted
    else if answers[n].Succeeds? then Winner(n) else Stopped(n)
  }

  // The records after the first n providers of the pool were tried.
  function AfterCalls(views: Views, pool: seq<string>, answers: seq<Answer>, n: nat): (r: Views)
    requires n <= |pool| == |answers|
    ensures r.Keys == views.Keys
  {
    if n == 0 then views
    else Recorded(AfterCalls(views, pool, answers, n - 1), pool[n - 1], EventOf(answers[n - 1]))
  }

  // How many providers a call tries.
  function Tried(answers: seq<Answer>): (n: nat)
    ensures n <= |answers|
  {
    if Leading(answers) == |answers| then |answers| else Leading(answers) + 1
  }

  // ----- The manager -----

  class LLMProviderManager {
    const health: map<string, ProviderHealth>

    // Different providers have different records.
    ghost predicate Valid() {
      forall a, b :: a in health && b in health && a != b ==> health[a] != health[b]
    }

    ghost function Parts(): set<object> {
      set n | n in health :: health[n] as object
    }

    ghost function Views(): Views
      reads Parts()
    {
      map n | n in health :: health[n].View()
    }

    constructor (health: map<string, ProviderHealth>)
      ensures this.health == health
    {
      this.health := health;
    }

    method RecordSuccess(name: string, latencyMs: real, now: real)
      requires Valid()
      modifies Parts()
      ensures Views() == Recorded(old(Views()), name, Succeeded(now, latencyMs))
    {
      if name in health {
        health[name].RecordSuccess(latencyMs, now);
      }
    }

    method RecordFailure(name: string, now: real, again: real)
      requires Valid()
      modifies Parts()
      ensures Views() == Recorded(old(Views()), name, Event.Failed(now, again))
    {
      if name in health {
        health[name].RecordFailure(now, again);
      }
    }

    method AskProvider(name: string, now: real) returns (ok: bool)
      requires Valid()
      modifies Parts()
      ensures ok == (name in old(Views()) && old(Views())[name].Available(now))
      ensures Views() == Recorded(old(Views()), name, Asked(now))
    {
      if name !in health {
        return false;
      }
      ok := health[name].IsAvailable(now);
    }

    method ScoreProvider(name: string, now: real) returns (score: Option<real>)
      requires Valid() && name in health
      modifies Parts()
      ensures score == if old(Views())[name].Available(now) then Some(old(Views())[name].Score()) else None
      ensures Views() == Recorded(old(Views()), name, Asked(now))
    {
      score := health[name].Score(now);
    }

    method CollectAvailable(priority: seq<string>, keyed: set<string>, now: real) returns (available: seq<string>)
      requires Valid() && Distinct(priority)
      modifies Parts()
      ensures Views() == AfterChecks(old(Views()), priority, |priority|, now)
      ensures available == Filter(n => Usable(old(Views()), keyed, now, n), priority)
    {
      available := [];
      ghost var before := Views();
      ghost var usable := n => Usable(before, keyed, now, n);
      for i := 0 to |priority|
        invariant Views() == AfterChecks(before, priority, i, now)
        invariant available == Filter(usable, priority[..i])
      {
        var name := priority[i];
        assert priority[..i + 1] == priority[..i] + [name];
        FilterAppend(usable, priority[..i], name);
        UncheckedUnchanged(before, priority, i, now, name);
        var ok := AskProvider(name, now);
        assert ok == (name in before && before[name].Available(now));
        if ok && name in keyed {
          available := available + [name];
        }
      }
      assert priority[..|priority|] == priority;
    }

    method GetAvailableProviders(keyed: set<string>, now: real, later: real) returns (available: seq<string>)
      requires Valid()
      modifies Parts()
      ensures Views() == AfterChecks(old(Views()), PROVIDER_PRIORITY, |PROVIDER_PRIORITY|, now)
      ensures available == Ranked(old(Views()), PROVIDER_PRIORITY, keyed, now)
    {
      PriorityIsDistinct();
      available := RankProviders(PROVIDER_PRIORITY, keyed, now, later);
    }

    // The scores are read at `later`; no circuit changes state there, so the reading does not matter.
    method RankProviders(priority: seq<string>, keyed: set<string>, now: real, later: real)
      returns (available: seq<string>)
      requires Valid() && Distinct(priority)
      modifies Parts()
      ensures Views() == AfterChecks(old(Views()), priority, |priority|, now)
      ensures available == Ranked(old(Views()), priority, keyed, now)
    {
      ghost var before := Views();
      available := CollectAvailable(priority, keyed, now);
      var scores := ReadScores(available, later, before, priority, keyed, now);
      SameKeysSameSort(n => if n in scores then scores[n] else 0.0, n => ScoreOf(before, n), available);
      available := SortBy(n => if n in scores then scores[n] else 0.0, available);
    }

    // The sort key of every available provider.
    method ReadScores(available: seq<string>, later: real, ghost before: Views, ghost priority: seq<string>, ghost keyed: set<string>, ghost now: real)
      returns (scores: map<string, real>)
      requires Valid() && Distinct(priority)
      requires Views() == AfterChecks(before, priority, |priority|, now)
      requires available == Filter(n => Usable(before, keyed, now, n), priority)
      modifies Parts()
      ensures Views() == old(Views())
      ensures forall k :: 0 <= k < |available| ==> available[k] in scores
      ensures forall n :: n in scores ==> scores[n] == ScoreOf(before, n)
    {
      ghost var checked := Views();
      scores := map[];
      for i := 0 to |available|
        invariant Views() == checked
        invariant forall k :: 0 <= k < i ==> available[k] in scores
        invariant forall n :: n in scores ==> scores[n] == ScoreOf(before, n)
      {
        var name := available[i];
        FilterMember(n => Usable(before, keyed, now, n), priority, name);
        UsableStaysUsable(before, priority, keyed, now, later, name);
        var score := ScoreProvider(name, later);
        assert Views() == checked;
        scores := scores[name := score.value];
      }
    }

    method Generate(pool: seq<string>, answers: seq<Answer>) returns (r: Generated)
      requires Valid() && |pool| == |answers|
      modifies Parts()
      ensures r == Verdict(answers)
      ensures Views() == AfterCalls(old(Views()), pool, answers, Tried(answers))
    {
      for i := 0 to |pool|
        invariant Views() == AfterCalls(old(Views()), pool, answers, i)
        invariant i <= Leading(answers)
      {
        match answers[i] {
          case Succeeds(at, latencyMs) =>
            RecordSuccess(pool[i], latencyMs, at);
            return Winner(i);
          case FailsForGood(at, again) =>
            RecordFailure(pool[i], at, again);
            return Stopped(i);
          case FailsTransiently(at, again) =>
            RecordFailure(pool[i], at, again);
        }
      }
      r := Exhausted;
    }
  }

  // ----- Selection -----

  lemma PriorityIsDistinct()
    ensures Distinct(PROVIDER_PRIORITY)
  {
    assert "openai"[0] != "gemini"[0];
  }

  lemma {:induction false} UncheckedUnchanged(views: Views, names: seq<string>, n: nat, now: real, name: string)
    requires n <= |names| && name !in names[..n]
    ensures name in views ==> AfterChecks(views, names, n, now)[name] == views[name]
  {
    if n > 0 {
      assert names[n - 1] in names[..n];
      assert forall x :: x in names[..n - 1] ==> x in names[..n];
      UncheckedUnchanged(views, names, n - 1, now, name);
    }
  }

  // A name checked and found usable keeps its score, and nothing can close it again.
  lemma UsableStaysUsable(views: Views, names: seq<string>, keyed: set<string>, now: real, later: real, name: string)
    requires name in names && Usable(views, keyed, now, name)
    requires Distinct(names)
    ensures var h := AfterChecks(views, names, |names|, now)[name];
            h.status != CircuitOpen && h.Available(later) && h.Score() == views[name].Score() && Apply(h, Asked(later)) == h
  {
    CheckedOnce(views, names, |names|, now, name);
    assert names[..|names|] == names;
  }

  lemma {:induction false} CheckedOnce(views: Views, names: seq<string>, n: nat, now: real, name: string)
    requires n <= |names| && name in views
    requires Distinct(names)
    ensures AfterChecks(views, names, n, now)[name] == if name in names[..n] then views[name].Checked(now) else views[name]
  {
    if n > 0 {
      CheckedOnce(views, names, n - 1, now, name);
      assert names[..n] == names[..n - 1] + [names[n - 1]];
    }
  }

  lemma {:induction false} SameKeysSameInsert<T>(k1: T -> real, k2: T -> real, x: T, s: seq<T>)
    requires k1(x) == k2(x) && forall y :: y in s ==> k1(y) == k2(y)
    ensures Insert(k1, x, s) == Insert(k2, x, s)
  {
    if s != [] {
      assert s[|s| - 1] in s;
      SameKeysSameInsert(k1, k2, x, s[..|s| - 1]);
    }
  }

  // A sort only looks at the keys of the elements it sorts.
  lemma {:induction false} SameKeysSameSort<T>(k1: T -> real, k2: T -> real, s: seq<T>)
    requires forall y :: y in s ==> k1(y) == k2(y)
    ensures SortBy(k1, s) == SortBy(k2, s)
  {
    if s != [] {
      var init, last := s[..|s| - 1], s[|s| - 1];
      SameKeysSameSort(k1, k2, init);
      SortSorts(k2, init);
      forall y | y in SortBy(k2, init)
        ensures k1(y) == k2(y)
      {
        assert y in multiset(init);
      }
      assert last in s;
      SameKeysSameInsert(k1, k2, last, SortBy(k2, init));
    }
  }

  // The provider list holds exactly the usable names, each as often as the priority list does, in
  // order of score, and names with equal scores keep their priority order.
  lemma RankingIsStable(views: Views, names: seq<string>, keyed: set<string>, now: real)
    ensures var r := Ranked(views, names, keyed, now);
            && IsStableSort(n => ScoreOf(views, n), Filter(n => Usable(views, keyed, now, n), names), r)
            && forall name :: name in r <==> name in names && Usable(views, keyed, now, name)
  {
    SortIsStable(n => ScoreOf(views, n), Filter(n => Usable(views, keyed, now, n), names));
    forall name
      ensures name in Ranked(views, names, keyed, now) <==> name in names && Usable(views, keyed, now, name)
    {
      RankedIffUsable(views, names, keyed, now, name);
    }
  }

  lemma RankedIffUsable(views: Views, names: seq<string>, keyed: set<string>, now: real, name: string)
    ensures name in Ranked(views, names, keyed, now) <==> name in names && Usable(views, keyed, now, name)
  {
    var usable := n => Usable(views, keyed, now, n);
    FilterMember(usable, names, name);
    SortSorts(n => ScoreOf(views, n), Filter(usable, names));
    assert name in Ranked(views, names, keyed, now) <==> name in multiset(Filter(usable, names));
  }

  lemma {:induction false} FilterIsDistinct(p: string -> bool, s: seq<string>)
    requires Distinct(s)
    ensures Distinct(Filter(p, s))
  {
    if s != [] {
      var init, last := s[..|s| - 1], s[|s| - 1];
      FilterIsDistinct(p, init);
      FilterMember(p, init, last);
      assert last !in init;
    }
  }

  // Unused providers are listed in the order of the priority list.
  lemma FreshProvidersInPriorityOrder(views: Views, keyed: set<string>, now: real)
    requires forall name :: name in ["groq", "openai", "gemini", "xai"] ==> name in views && views[name] == FRESH && name in keyed
    ensures Ranked(views, PROVIDER_PRIORITY, keyed, now) == ["groq", "openai", "gemini", "xai"]
  {
    FilterAll(n => Usable(views, keyed, now, n), PROVIDER_PRIORITY);
    SortEqualKeys(n => ScoreOf(views, n), PROVIDER_PRIORITY);
  }

  lemma {:induction false} FilterAll(p: string -> bool, s: seq<string>)
    requires forall x :: x in s ==> p(x)
    ensures Filter(p, s) == s
  {
    if s != [] {
      FilterAll(p, s[..|s| - 1]);
    }
  }

  // No provider is listed twice, so the accounting of a call below covers every pool built from the list.
  lemma ListIsDistinct(views: Views, keyed: set<string>, now: real)
    ensures Distinct(Ranked(views, PROVIDER_PRIORITY, keyed, now))
  {
    var usable := n => Usable(views, keyed, now, n);
    PriorityIsDistinct();
    FilterIsDistinct(usable, PROVIDER_PRIORITY);
    SortSorts(n => ScoreOf(views, n), Filter(usable, PROVIDER_PRIORITY));
    PermutationIsDistinct(Filter(usable, PROVIDER_PRIORITY), Ranked(views, PROVIDER_PRIORITY, keyed, now));
  }

  // A whole selection and call: the pool is the ranked list, and every provider tried is charged its
  // answer once, on top of its availability check.
  lemma SelectedCallAccounting(views: Views, keyed: set<string>, now: real, answers: seq<Answer>, i: nat)
    requires var pool := Ranked(views, PROVIDER_PRIORITY, keyed, now); |answers| == |pool| && i < |pool|
    ensures var pool := Ranked(views, PROVIDER_PRIORITY, keyed, now);
            var checked := AfterChecks(views, PROVIDER_PRIORITY, |PROVIDER_PRIORITY|, now);
            pool[i] in views &&
            var before, after := views[pool[i]].Checked(now), AfterCalls(checked, pool, answers, Tried(answers))[pool[i]];
            if i < Tried(answers) then Charged(before, after, answers[i]) else after == before
  {
    var pool := Ranked(views, PROVIDER_PRIORITY, keyed, now);
    var checked := AfterChecks(views, PROVIDER_PRIORITY, |PROVIDER_PRIORITY|, now);
    ListIsDistinct(views, keyed, now);
    RankedIffUsable(views, PROVIDER_PRIORITY, keyed, now, pool[i]);
    PriorityIsDistinct();
    CheckedOnce(views, PROVIDER_PRIORITY, |PROVIDER_PRIORITY|, now, pool[i]);
    assert PROVIDER_PRIORITY[..|PROVIDER_PRIORITY|] == PROVIDER_PRIORITY;
    FailoverAccounting(checked, pool, answers);
  }

  function ReplayAll(histories: map<string, seq<Event>>): Views {
    map n | n in histories :: Replay(histories[n])
  }

  // With records that follow their histories, a provider is listed exactly when it is one of the
  // names, has a key and a record, and fewer than three failures in a row or none in the last 60 s.
  lemma RankedExactlyByHistory(histories: map<string, seq<Event>>, names: seq<string>, keyed: set<string>, now: real, name: string)
    requires forall n :: n in histories ==> Monotone(histories[n]) && Now(histories[n]) <= now
    ensures name in Ranked(ReplayAll(histories), names, keyed, now) <==>
              && name in names && name in keyed && name in histories
              && (FailureStreak(histories[name]) < 3
                  || (LastFailure(histories[name]).Some? && now > LastFailure(histories[name]).value + 60.0))
  {
    var views := ReplayAll(histories);
    RankedIffUsable(views, names, keyed, now, name);
    if name in histories {
      assert views[name] == Replay(histories[name]);
      AvailableExactly(histories[name], now);
    }
  }

  // Of two listed providers the one that was slower and failed more often comes later.
  lemma WorseIsListedLater(histories: map<string, seq<Event>>, names: seq<string>, keyed: set<string>, now: real, i: nat, j: nat)
    requires var r := Ranked(ReplayAll(histories), names, keyed, now);
             && i < |r| && j < |r|
             && r[i] in histories && r[j] in histories && Worse(histories[r[j]], histories[r[i]])
    ensures i < j
  {
    var views := ReplayAll(histories);
    var r := Ranked(views, names, keyed, now);
    WorseScoresHigher(histories[r[j]], histories[r[i]]);
    if j <= i {
      ListedByScore(views, names, keyed, now, j, i);
    }
  }

  lemma ListedByScore(views: Views, names: seq<string>, keyed: set<string>, now: real, i: nat, j: nat)
    requires i <= j < |Ranked(views, names, keyed, now)|
    ensures var r := Ranked(views, names, keyed, now); ScoreOf(views, r[i]) <= ScoreOf(views, r[j])
  {
    SortedAt(n => ScoreOf(views, n), Filter(n => Usable(views, keyed, now, n), names), i, j);
  }

  // ----- Failover -----

  // What one answer does to the record of the provider that gave it.
  predicate Charged(before: Health, after: Health, a: Answer) {
    && after.totalCalls == before.totalCalls + 1
    && if a.Succeeds? then
         && after.status == Healthy && after.consecutiveFailures == 0 && after.totalFailures == before.totalFailures
         && after.lastSuccessTime == Some(a.at) && after.lastFailureTime == before.lastFailureTime
         && after.circuitOpenUntil == None
         && after.latencies != [] && after.latencies[|after.latencies| - 1] == a.latencyMs
       else
         && after.consecutiveFailures == before.consecutiveFailures + 1 && after.totalFailures == before.totalFailures + 1
         && after.lastFailureTime == Some(a.at) && after.lastSuccessTime == before.lastSuccessTime
         && after.latencies == before.latencies && after.avgLatencyMs == before.avgLatencyMs
         && (after.consecutiveFailures >= 3 ==> after.status == CircuitOpen && after.circuitOpenUntil == Some(a.again + 60.0))
         && (after.consecutiveFailures < 3 ==> after.status == Degraded && after.circuitOpenUntil == before.circuitOpenUntil)
  }

  lemma {:induction false} AfterCallsAt(views: Views, pool: seq<string>, answers: seq<Answer>, n: nat, i: nat)
    requires n <= |pool| == |answers| && i < |pool| && pool[i] in views
    requires Distinct(pool)
    ensures AfterCalls(views, pool, answers, n)[pool[i]] == if i < n then Apply(views[pool[i]], EventOf(answers[i])) else views[pool[i]]
  {
    if n > 0 {
      AfterCallsAt(views, pool, answers, n - 1, i);
    }
  }

  lemma {:induction false} AfterCallsElsewhere(views: Views, pool: seq<string>, answers: seq<Answer>, n: nat, name: string)
    requires n <= |pool| == |answers| && name in views && name !in pool
    ensures AfterCalls(views, pool, answers, n)[name] == views[name]
  {
    if n > 0 {
      AfterCallsElsewhere(views, pool, answers, n - 1, name);
    }
  }

  // The winner is the first provider that does not fail, and every earlier one failed transiently;
  // an error is raised exactly when the first stop is a lasting failure.
  lemma VerdictExactly(answers: seq<Answer>, w: nat)
    requires w < |answers|
    ensures Verdict(answers) == Winner(w) <==>
            answers[w].Succeeds? && forall i :: 0 <= i < w ==> answers[i].FailsTransiently?
    ensures Verdict(answers) == Stopped(w) <==>
            answers[w].FailsForGood? && forall i :: 0 <= i < w ==> answers[i].FailsTransiently?
    ensures Verdict(answers) == Exhausted <==> forall i :: 0 <= i < |answers| ==> answers[i].FailsTransiently?
  {
    var n := Leading(answers);
    if w < n {
      assert answers[w].FailsTransiently?;
    } else if n < |answers| {
      assert !answers[n].FailsTransiently?;
    }
  }

  // One call over a pool of distinct providers: each provider tried is charged its own answer, once
  // (a success for the winner, a failure for every other), and no other record changes.
  lemma FailoverAccounting(views: Views, pool: seq<string>, answers: seq<Answer>)
    requires |pool| == |answers|
    requires Distinct(pool)
    ensures var after, tried := AfterCalls(views, pool, answers, Tried(answers)), Tried(answers);
            && (forall i :: 0 <= i < |pool| && pool[i] in views ==>
                  if i < tried then Charged(views[pool[i]], after[pool[i]], answers[i]) else after[pool[i]] == views[pool[i]])
            && (forall i: nat :: i < tried ==> (answers[i].Succeeds? <==> Verdict(answers) == Winner(i)))
            && (forall name :: name in views && name !in pool ==> after[name] == views[name])
  {
    forall i | 0 <= i < |pool| && pool[i] in views
      ensures var after := AfterCalls(views, pool, answers, Tried(answers));
              if i < Tried(answers) then Charged(views[pool[i]], after[pool[i]], answers[i]) else after[pool[i]] == views[pool[i]]
    {
      AfterCallsAt(views, pool, answers, Tried(answers), i);
    }
    forall name | name in views && name !in pool
      ensures AfterCalls(views, pool, answers, Tried(answers))[name] == views[name]
    {
      AfterCallsElsewhere(views, pool, answers, Tried(answers), name);
    }
    forall i: nat | i < Tried(answers)
      ensures answers[i].Succeeds? <==> Verdict(answers) == Winner(i)
    {
      VerdictExactly(answers, i);
    }
  }
}
