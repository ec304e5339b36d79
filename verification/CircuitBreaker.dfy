// The health record of one LLM provider and its circuit breaker
// (ProviderHealth in ai/llm/llm_provider_manager.py).  The clock is a parameter; one failure
// reads it twice.
module CircuitBreaker {
  import opened Sequences
  import opened Wrappers

  const FAILURE_THRESHOLD := 3
  const CIRCUIT_TIMEOUT := 60.0
  const LATENCY_WINDOW := 10

  datatype ProviderStatus = Healthy | Degraded | CircuitOpen

  datatype Health = Health(
    status: ProviderStatus,
    consecutiveFailures: nat,
    totalCalls: nat,
    totalFailures: nat,
    lastFailureTime: Option<real>,
    lastSuccessTime: Option<real>,
    avgLatencyMs: real,
    circuitOpenUntil: Option<real>,
    latencies: seq<real>)
  {
    // The answer of `is_available`.
    predicate Available(now: real) {
      status == CircuitOpen ==> circuitOpenUntil.Some? && circuitOpenUntil.value != 0.0 && now > circuitOpenUntil.value
    }

    // `is_available` half-opens a circuit whose timeout has passed.
    function Checked(now: real): Health {
      if status == CircuitOpen && Available(now) then this.(status := Degraded) else this
    }

    function ErrorRate(): real {
      if totalCalls == 0 then 0.0 else totalFailures as real / totalCalls as real
    }

    // The finite score; an unavailable provider scores infinity instead.
    function Score(): real {
      avgLatencyMs / 1000.0 + ErrorRate() * 10.0
    }
  }

  const FRESH := Health(Healthy, 0, 0, 0, None, None, 0.0, None, [])

  // Everything that can happen to a record.
  datatype Event =
    | Succeeded(at: real, latencyMs: real)
    | Failed(at: real, again: real)
    | Asked(at: real)
    | Reset

  function Windowed(s: seq<real>): seq<real> {
    if |s| > LATENCY_WINDOW then s[1..] else s
  }

  function Apply(h: Health, e: Event): Health {
    match e
    case Succeeded(at, latencyMs) =>
      var window := Windowed(h.latencies + [latencyMs]);
      h.(consecutiveFailures := 0, totalCalls := h.totalCalls + 1, lastSuccessTime := Some(at), status := Healthy,
         circuitOpenUntil := None, latencies := window, avgLatencyMs := Mean(window))
    case Failed(at, again) =>
      var n := h.consecutiveFailures + 1;
      var h1 := h.(consecutiveFailures := n, totalCalls := h.totalCalls + 1, totalFailures := h.totalFailures + 1,
                   lastFailureTime := Some(at));
      if n >= FAILURE_THRESHOLD then h1.(status := CircuitOpen, circuitOpenUntil := Some(again + CIRCUIT_TIMEOUT))
      else h1.(status := Degraded)
    case Asked(at) => h.Checked(at)
    case Reset => h.(consecutiveFailures := 0, status := Healthy, circuitOpenUntil := None)
  }

  function Replay(events: seq<Event>): Health {
    if events == [] then FRESH else Apply(Replay(events[..|events| - 1]), events[|events| - 1])
  }

  class ProviderHealth {
    var status: ProviderStatus
    var consecutiveFailures: nat
    var totalCalls: nat
    var totalFailures: nat
    var lastFailureTime: Option<real>
    var lastSuccessTime: Option<real>
    var avgLatencyMs: real
    var circuitOpenUntil: Option<real>
    var latencies: seq<real>

    function View(): Health
      reads this
    {
      Health(status, consecutiveFailures, totalCalls, totalFailures, lastFailureTime, lastSuccessTime,
             avgLatencyMs, circuitOpenUntil, latencies)
    }

    constructor ()
      ensures View() == FRESH
    {
      status, consecutiveFailures, totalCalls, totalFailures := Healthy, 0, 0, 0;
      lastFailureTime, lastSuccessTime, circuitOpenUntil := None, None, None;
      avgLatencyMs, latencies := 0.0, [];
    }

    method RecordSuccess(latencyMs: real, now: real)
      modifies this
      ensures View() == Apply(old(View()), Succeeded(now, latencyMs))
    {
      consecutiveFailures := 0;
      totalCalls := totalCalls + 1;
      lastSuccessTime := Some(now);
      status := Healthy;
      circuitOpenUntil := None;
      latencies := latencies + [latencyMs];
      if |latencies| > LATENCY_WINDOW {
        latencies := latencies[1..];
      }
      avgLatencyMs := Mean(latencies);
    }

    method RecordFailure(now: real, again: real)
      modifies this
      ensures View() == Apply(old(View()), Failed(now, again))
    {
      consecutiveFailures := consecutiveFailures + 1;
      totalCalls := totalCalls + 1;
      totalFailures := totalFailures + 1;
      lastFailureTime := Some(now);
      if consecutiveFailures >= FAILURE_THRESHOLD {
        status := CircuitOpen;
        circuitOpenUntil := Some(again + CIRCUIT_TIMEOUT);
      } else {
        status := Degraded;
      }
    }

    method IsAvailable(now: real) returns (r: bool)
      modifies this`status
      ensures r == old(View()).Available(now)
      ensures View() == Apply(old(View()), Asked(now))
    {
      if status == CircuitOpen {
        if circuitOpenUntil.Some? && circuitOpenUntil.value != 0.0 && now > circuitOpenUntil.value {
          status := Degraded;
          return true;
        }
        return false;
      }
      r := true;
    }

    // None stands for infinity.
    method Score(now: real) returns (r: Option<real>)
      modifies this`status
      ensures r == if old(View()).Available(now) then Some(old(View()).Score()) else None
      ensures View() == Apply(old(View()), Asked(now))
    {
      var available := IsAvailable(now);
      if !available {
        return None;
      }
      var errorRate := if totalCalls == 0 then 0.0 else totalFailures as real / totalCalls as real;
      r := Some(avgLatencyMs / 1000.0 + errorRate * 10.0);
    }

    method ResetBreaker()
      modifies this
      ensures View() == Apply(old(View()), Event.Reset)
    {
      consecutiveFailures := 0;
      status := Healthy;
      circuitOpenUntil := None;
    }
  }

  // ----- What the history says -----

  // Failures since the last success or reset.
  function FailureStreak(events: seq<Event>): nat {
    if events == [] then 0
    else match events[|events| - 1]
      case Succeeded(_, _) => 0
      case Reset => 0
      case Failed(_, _) => FailureStreak(events[..|events| - 1]) + 1
      case Asked(_) => FailureStreak(events[..|events| - 1])
  }

  function SuccessLatencies(events: seq<Event>): seq<real> {
    if events == [] then []
    else
      var before := SuccessLatencies(events[..|events| - 1]);
      if events[|events| - 1].Succeeded? then before + [events[|events| - 1].latencyMs] else before
  }

  function CountFailed(events: seq<Event>): nat {
    if events == [] then 0
    else CountFailed(events[..|events| - 1]) + if events[|events| - 1].Failed? then 1 else 0
  }

  function LastSuccess(events: seq<Event>): Option<real> {
    if events == [] then None
    else if events[|events| - 1].Succeeded? then Some(events[|events| - 1].at)
    else LastSuccess(events[..|events| - 1])
  }

  // The first clock reading of the last failure ...
  function FailureTime(events: seq<Event>): Option<real> {
    if events == [] then None
    else if events[|events| - 1].Failed? then Some(events[|events| - 1].at)
    else FailureTime(events[..|events| - 1])
  }

  // ... and the second.
  function LastFailure(events: seq<Event>): Option<real> {
    if events == [] then None
    else if events[|events| - 1].Failed? then Some(events[|events| - 1].again)
    else LastFailure(events[..|events| - 1])
  }

  function LastTen(s: seq<real>): seq<real> {
    if |s| > 10 then s[|s| - 10..] else s
  }

  // 0 for a provider that never answered.
  function Average(s: seq<real>): real {
    if s == [] then 0.0 else Mean(s)
  }

  // The latest clock reading.
  function Now(events: seq<Event>): real {
    if events == [] then 0.0
    else match events[|events| - 1]
      case Failed(_, again) => again
      case Reset => Now(events[..|events| - 1])
      case e => e.at
  }

  // The clock never runs backwards and starts at or after zero.
  ghost predicate Monotone(events: seq<Event>) {
    events == [] ||
    var init, e := events[..|events| - 1], events[|events| - 1];
    Monotone(init) && (e.Reset? || Now(init) <= e.at) && (e.Failed? ==> e.at <= e.again)
  }

  // Dropping the oldest entry after each append keeps exactly the last ten.
  lemma WindowKeepsLastTen(s: seq<real>, x: real)
    ensures Windowed(LastTen(s) + [x]) == LastTen(s + [x])
  {
  }

  // The record is determined by its history: the streak, the totals, the two times, the window and
  // its mean.
  lemma {:induction false} BookkeepingEqualsHistory(events: seq<Event>)
    ensures var h := Replay(events);
            && h.consecutiveFailures == FailureStreak(events)
            && h.totalFailures == CountFailed(events)
            && h.totalCalls == CountFailed(events) + |SuccessLatencies(events)|
            && h.lastSuccessTime == LastSuccess(events)
            && h.lastFailureTime == FailureTime(events)
            && h.latencies == LastTen(SuccessLatencies(events))
            && h.avgLatencyMs == Average(LastTen(SuccessLatencies(events)))
  {
    if events != [] {
      var init := events[..|events| - 1];
      BookkeepingEqualsHistory(init);
      if events[|events| - 1].Succeeded? {
        WindowKeepsLastTen(SuccessLatencies(init), events[|events| - 1].latencyMs);
      }
    }
  }

  // Healthy exactly when the streak is empty; an open-until time exactly when it has reached the
  // threshold, and then 60 s after the last failure.
  lemma {:induction false} StatusEqualsHistory(events: seq<Event>)
    ensures var h := Replay(events);
            && h.consecutiveFailures == FailureStreak(events)
            && (h.status == Healthy <==> FailureStreak(events) == 0)
            && (h.status == CircuitOpen ==> FailureStreak(events) >= 3)
            && (h.circuitOpenUntil.Some? <==> FailureStreak(events) >= 3)
            && (h.circuitOpenUntil.Some? ==> LastFailure(events).Some?)
            && (h.circuitOpenUntil.Some? ==> h.circuitOpenUntil.value == LastFailure(events).value + 60.0)
  {
    if events != [] {
      StatusEqualsHistory(events[..|events| - 1]);
    }
  }

  lemma {:induction false} ClockBounds(events: seq<Event>)
    requires Monotone(events)
    ensures 0.0 <= Now(events)
    ensures LastFailure(events).Some? ==> 0.0 <= LastFailure(events).value <= Now(events)
  {
    if events != [] {
      ClockBounds(events[..|events| - 1]);
    }
  }

  // A provider at the threshold is half-open only once its timeout has passed.
  lemma {:induction false} HalfOpenOnlyAfterTimeout(events: seq<Event>)
    requires Monotone(events)
    ensures FailureStreak(events) >= 3 && Replay(events).status != CircuitOpen ==>
              LastFailure(events).Some? && Now(events) > LastFailure(events).value + 60.0
  {
    if events != [] {
      var init, e := events[..|events| - 1], events[|events| - 1];
      HalfOpenOnlyAfterTimeout(init);
      StatusEqualsHistory(init);
    }
  }

  // After any history, at any later time: a provider is available exactly when it has fewer than
  // three failures in a row or more than 60 s have passed since the latest of them.
  lemma AvailableExactly(events: seq<Event>, now: real)
    requires Monotone(events) && Now(events) <= now
    ensures Replay(events).Available(now) <==>
              FailureStreak(events) < 3
              || (LastFailure(events).Some? && now > LastFailure(events).value + 60.0)
  {
    StatusEqualsHistory(events);
    HalfOpenOnlyAfterTimeout(events);
    ClockBounds(events);
  }

  // The reading the record itself keeps as the failure time is never later than the one the
  // timeout starts from, so the 60 s hold for it too.
  lemma {:induction false} RecordedFailureTime(events: seq<Event>)
    requires Monotone(events)
    ensures var h := Replay(events);
            h.lastFailureTime.Some? == LastFailure(events).Some?
            && (h.lastFailureTime.Some? ==> h.lastFailureTime.value <= LastFailure(events).value)
  {
    if events != [] {
      RecordedFailureTime(events[..|events| - 1]);
    }
  }

  lemma NeverAvailableWithinTimeout(events: seq<Event>, now: real)
    requires Monotone(events) && Now(events) <= now
    requires FailureStreak(events) >= 3
    requires Replay(events).lastFailureTime.Some? ==> now <= Replay(events).lastFailureTime.value + 60.0
    ensures !Replay(events).Available(now)
  {
    AvailableExactly(events, now);
    RecordedFailureTime(events);
  }

  // ----- The score -----

  // The calls of a history.
  function Calls(events: seq<Event>): nat {
    CountFailed(events) + |SuccessLatencies(events)|
  }

  // Mean milliseconds of the last ten answers.
  function RecentLatency(events: seq<Event>): real {
    Average(LastTen(SuccessLatencies(events)))
  }

  // A share of no calls at all is 0.
  function Share(failed: nat, calls: nat): real {
    if calls == 0 then 0.0 else failed as real / calls as real
  }

  // The share of failed calls.
  function FailedShare(events: seq<Event>): real {
    Share(CountFailed(events), Calls(events))
  }

  lemma ScoreOfRecord(h: Health)
    ensures h.Score() == h.avgLatencyMs / 1000.0 + 10.0 * Share(h.totalFailures, h.totalCalls)
  {
  }

  // The score of a record, from its history: seconds of recent latency plus ten times the share of
  // failed calls.
  lemma ScoreExactly(events: seq<Event>)
    ensures Replay(events).Score() == RecentLatency(events) / 1000.0 + 10.0 * FailedShare(events)
  {
    var h := Replay(events);
    BookkeepingEqualsHistory(events);
    ScoreOfRecord(h);
    assert h.avgLatencyMs == RecentLatency(events) && h.totalFailures == CountFailed(events) && h.totalCalls == Calls(events);
  }

  // At least as slow and failing at least as often, and worse in one of the two.
  predicate Worse(bad: seq<Event>, good: seq<Event>) {
    && RecentLatency(bad) >= RecentLatency(good) && FailedShare(bad) >= FailedShare(good)
    && (RecentLatency(bad) > RecentLatency(good) || FailedShare(bad) > FailedShare(good))
  }

  // A provider that did worse has the higher score.
  lemma WorseScoresHigher(bad: seq<Event>, good: seq<Event>)
    requires Worse(bad, good)
    ensures Replay(bad).Score() > Replay(good).Score()
  {
    ScoreExactly(bad);
    ScoreExactly(good);
  }
}
