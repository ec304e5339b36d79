// Two spacing mechanisms: the cooldown of metric alerts (`_evaluate_rule`, `_fire_alert` and
// `_resolve_if_was_firing` in apps/monitoring/alerts.py) and the 24-hour deduplication of
// escalations (`create_escalation_notification` in apps/notifications/service.py).  Each call
// reads the clock when it checks and again when it stores a row.
module Alerts {
  import opened Wrappers

  // ----- Alert events of one rule -----

  datatype AlertEvent = AlertEvent(firing: bool, createdAt: int, resolvedAt: Option<int>)

  // One evaluation: whether the rule is enabled, the metric, the threshold, the two clock readings.
  datatype Evaluation = Evaluation(enabled: bool, value: real, threshold: real, now: int, stored: int)

  // The newest firing event among the first n.
  function LastFiring(events: seq<AlertEvent>, n: nat): (r: Option<nat>)
    requires n <= |events|
    ensures r.Some? ==> r.value < n && events[r.value].firing && forall i :: r.value < i < n ==> !events[i].firing
    ensures r.None? ==> forall i :: 0 <= i < n ==> !events[i].firing
  {
    if n == 0 then None else if events[n - 1].firing then Some(n - 1) else LastFiring(events, n - 1)
  }

  predicate Cooling(events: seq<AlertEvent>, cooldown: nat, now: int) {
    var last := LastFiring(events, |events|);
    last.Some? && now < events[last.value].createdAt + cooldown
  }

  function Fired(events: seq<AlertEvent>, stored: int): seq<AlertEvent> {
    events + [AlertEvent(true, stored, None)]
  }

  function Resolved(events: seq<AlertEvent>, stored: int): seq<AlertEvent> {
    var last := LastFiring(events, |events|);
    if last.Some? then events[last.value := events[last.value].(firing := false, resolvedAt := Some(stored))] else events
  }

  // `_evaluate_rule`
  function Evaluate(events: seq<AlertEvent>, cooldown: nat, e: Evaluation): seq<AlertEvent> {
    if !e.enabled then events
    else if e.value > e.threshold then (if Cooling(events, cooldown, e.now) then events else Fired(events, e.stored))
    else Resolved(events, e.stored)
  }

  class AlertRule {
    const cooldown: nat
    var events: seq<AlertEvent>

    constructor (cooldown: nat)
      ensures this.cooldown == cooldown && events == []
    {
      this.cooldown := cooldown;
      events := [];
    }

    method FindLastFiring() returns (last: Option<nat>)
      ensures last == LastFiring(events, |events|)
    {
      var i := |events|;
      while i > 0
        invariant 0 <= i <= |events|
        invariant LastFiring(events, |events|) == LastFiring(events, i)
      {
        i := i - 1;
        if events[i].firing {
          return Some(i);
        }
      }
      last := None;
    }

    method EvaluateRule(e: Evaluation) returns (fired: bool)
      modifies this
      ensures events == Evaluate(old(events), cooldown, e)
      ensures fired <==> e.enabled && e.value > e.threshold && !Cooling(old(events), cooldown, e.now)
    {
      if !e.enabled {
        return false;
      }
      var last := FindLastFiring();
      if e.value > e.threshold {
        if last.Some? && e.now < events[last.value].createdAt + cooldown {
          return false;
        }
        events := events + [AlertEvent(true, e.stored, None)];
        return true;
      }
      if last.Some? {
        events := events[last.value := events[last.value].(firing := false, resolvedAt := Some(e.stored))];
      }
      fired := false;
    }
  }

  // The readings of a run never go backwards.
  ghost predicate MonotoneRun(evals: seq<Evaluation>) {
    && (forall i :: 0 <= i < |evals| ==> evals[i].now <= evals[i].stored)
    && (forall i, j :: 0 <= i < j < |evals| ==> evals[i].stored <= evals[j].now)
  }

  function RunRule(cooldown: nat, evals: seq<Evaluation>, n: nat): seq<AlertEvent>
    requires n <= |evals|
  {
    if n == 0 then [] else Evaluate(RunRule(cooldown, evals, n - 1), cooldown, evals[n - 1])
  }

  // Rows are stored in the order of their creation, and none later than the last reading.
  ghost predicate Chronological(events: seq<AlertEvent>, latest: int) {
    && (forall i :: 0 <= i < |events| ==> events[i].createdAt <= latest)
    && (forall i, j :: 0 <= i < j < |events| ==> events[i].createdAt <= events[j].createdAt)
  }

  ghost predicate FiringSpaced(events: seq<AlertEvent>, cooldown: nat) {
    forall i, j :: 0 <= i < j < |events| && events[i].firing && events[j].firing
                   ==> events[j].createdAt - events[i].createdAt >= cooldown
  }

  // A later event within the cooldown of an earlier one exists only if the earlier one had been
  // resolved by the time the later one was created.
  ghost predicate CloseOnlyAfterResolve(events: seq<AlertEvent>, cooldown: nat) {
    forall i, j :: 0 <= i < j < |events| && events[j].createdAt - events[i].createdAt < cooldown
                   ==> !events[i].firing && events[i].resolvedAt.Some? && events[i].resolvedAt.value <= events[j].createdAt
  }

  // An event is firing exactly as long as it has not been resolved, and no resolution lies in the future.
  ghost predicate ResolvedInPast(events: seq<AlertEvent>, latest: int) {
    forall i :: 0 <= i < |events| ==>
      (if events[i].firing then events[i].resolvedAt.None? else events[i].resolvedAt.Some? && events[i].resolvedAt.value <= latest)
  }

  // The invariant of a rule's events at a moment when the clock shows `latest`.
  ghost predicate Spaced(events: seq<AlertEvent>, cooldown: nat, latest: int) {
    && Chronological(events, latest) && ResolvedInPast(events, latest)
    && FiringSpaced(events, cooldown) && CloseOnlyAfterResolve(events, cooldown)
  }

  lemma FiringKeepsSpacing(events: seq<AlertEvent>, cooldown: nat, now: int, stored: int)
    requires Spaced(events, cooldown, now) && now <= stored && !Cooling(events, cooldown, now)
    ensures Spaced(Fired(events, stored), cooldown, stored)
  {
    forall i | 0 <= i < |events| && events[i].firing
      ensures stored - events[i].createdAt >= cooldown
    {
      var last := LastFiring(events, |events|);
      assert last.Some? && i <= last.value;
    }
  }

  lemma ResolvingKeepsSpacing(events: seq<AlertEvent>, cooldown: nat, now: int, stored: int)
    requires Spaced(events, cooldown, now) && now <= stored
    ensures Spaced(Resolved(events, stored), cooldown, stored)
  {
    var last, after := LastFiring(events, |events|), Resolved(events, stored);
    forall i | 0 <= i < |events|
      ensures after[i].createdAt == events[i].createdAt
      ensures last != Some(i) ==> after[i] == events[i]
    {
    }
    if last.Some? {
      forall j | last.value < j < |events|
        ensures events[j].createdAt - events[last.value].createdAt >= cooldown
      {
      }
    }
  }

  lemma EvaluationKeepsSpacing(events: seq<AlertEvent>, cooldown: nat, e: Evaluation, latest: int)
    requires Spaced(events, cooldown, latest) && latest <= e.now <= e.stored
    ensures Spaced(Evaluate(events, cooldown, e), cooldown, e.stored)
  {
    assert Spaced(events, cooldown, e.now);
    if e.enabled && e.value > e.threshold && !Cooling(events, cooldown, e.now) {
      FiringKeepsSpacing(events, cooldown, e.now, e.stored);
    } else if e.enabled && e.value <= e.threshold {
      ResolvingKeepsSpacing(events, cooldown, e.now, e.stored);
    }
  }

  // Over every run with a clock that never runs backwards: any two events firing at the same time
  // were created at least the cooldown apart, and closer events are separated by a resolution.
  lemma {:induction false} AlertsAreSpaced(cooldown: nat, evals: seq<Evaluation>, n: nat)
    requires MonotoneRun(evals) && 0 < n <= |evals|
    ensures Spaced(RunRule(cooldown, evals, n), cooldown, evals[n - 1].stored)
  {
    var e := evals[n - 1];
    if n == 1 {
      assert Spaced([], cooldown, e.now);
      EvaluationKeepsSpacing([], cooldown, e, e.now);
    } else {
      AlertsAreSpaced(cooldown, evals, n - 1);
      EvaluationKeepsSpacing(RunRule(cooldown, evals, n - 1), cooldown, e, evals[n - 2].stored);
    }
  }

  // ----- One evaluation -----

  // An evaluation fires exactly on a breach of an enabled rule with no firing event younger than the
  // cooldown, and then adds one firing event.
  lemma FiresExactly(events: seq<AlertEvent>, cooldown: nat, e: Evaluation, latest: int)
    requires Chronological(events, latest)
    ensures var fires := e.enabled && e.value > e.threshold
                         && forall i :: 0 <= i < |events| && events[i].firing ==> e.now - events[i].createdAt >= cooldown;
            var after := Evaluate(events, cooldown, e);
            && (|after| > |events| <==> fires)
            && (fires ==> after == events + [AlertEvent(true, e.stored, None)])
            && (!fires && e.value > e.threshold ==> after == events)
  {
    var last := LastFiring(events, |events|);
    if last.Some? && e.now - events[last.value].createdAt >= cooldown {
      forall i | 0 <= i < |events| && events[i].firing
        ensures e.now - events[i].createdAt >= cooldown
      {
        assert i <= last.value;
      }
    }
  }

  // An evaluation changes an event exactly when it finds no breach and the event is the newest firing
  // one: that one is resolved.
  lemma ResolvesExactly(events: seq<AlertEvent>, cooldown: nat, e: Evaluation, i: nat)
    requires i < |events|
    ensures i < |Evaluate(events, cooldown, e)|
    ensures var after := Evaluate(events, cooldown, e)[i];
            && (after != events[i] <==>
                  e.enabled && e.value <= e.threshold && events[i].firing && forall j :: i < j < |events| ==> !events[j].firing)
            && (after != events[i] ==> after == AlertEvent(false, events[i].createdAt, Some(e.stored)))
  {
    var last := LastFiring(events, |events|);
    if last.Some? && i < last.value {
      assert events[last.value].firing;
    }
  }

  // ----- Creations -----

  ghost predicate CreationsApart(events: seq<AlertEvent>, cooldown: nat) {
    forall i, j :: 0 <= i < j < |events| ==> events[j].createdAt - events[i].createdAt >= cooldown
  }

  // The check that is missing: a breach while the newest event is resolved but still within the cooldown.
  predicate FiresTooEarly(events: seq<AlertEvent>, cooldown: nat, e: Evaluation) {
    && e.enabled && e.value > e.threshold
    && events != [] && !events[|events| - 1].firing
    && e.stored < events[|events| - 1].createdAt + cooldown
  }

  // The cooldown is no spacing of all creations: one evaluation keeps them apart exactly when it
  // does not fire too early after a resolution.
  lemma CreationsApartExactly(events: seq<AlertEvent>, cooldown: nat, e: Evaluation, latest: int)
    requires Spaced(events, cooldown, latest) && latest <= e.now <= e.stored
    requires CreationsApart(events, cooldown)
    ensures CreationsApart(Evaluate(events, cooldown, e), cooldown) <==> !FiresTooEarly(events, cooldown, e)
  {
    var after, n := Evaluate(events, cooldown, e), |events|;
    if e.enabled && e.value > e.threshold {
      CoolingMeansNewestFires(events, cooldown, latest, e.now);
      if !Cooling(events, cooldown, e.now) && n > 0 {
        assert after[n - 1] == events[n - 1] && after[n].createdAt == e.stored;
        if !events[n - 1].firing {
          AppendedApartIff(events, cooldown, e.stored);
        } else {
          FiringKeepsSpacing(events, cooldown, e.now, e.stored);
          AppendedApartIff(events, cooldown, e.stored);
        }
      }
    } else if e.enabled {
      ResolvingMovesNothing(events, e.stored);
    }
  }

  lemma AppendedApartIff(events: seq<AlertEvent>, cooldown: nat, stored: int)
    requires events != [] && CreationsApart(events, cooldown)
    ensures CreationsApart(Fired(events, stored), cooldown) <==> stored - events[|events| - 1].createdAt >= cooldown
  {
    var after, n := Fired(events, stored), |events|;
    assert after[n].createdAt == stored && after[n - 1] == events[n - 1];
    forall i | 0 <= i < n
      ensures after[i] == events[i] && events[i].createdAt <= events[n - 1].createdAt
    {
    }
  }

  // When creations are apart, only the newest event can still be cooling.
  lemma CoolingMeansNewestFires(events: seq<AlertEvent>, cooldown: nat, latest: int, now: int)
    requires Chronological(events, latest) && latest <= now && CreationsApart(events, cooldown)
    ensures Cooling(events, cooldown, now) ==> events[|events| - 1].firing
  {
    var last := LastFiring(events, |events|);
    if last.Some? && last.value < |events| - 1 {
      assert events[|events| - 1].createdAt - events[last.value].createdAt >= cooldown;
    }
  }

  lemma ResolvingMovesNothing(events: seq<AlertEvent>, stored: int)
    ensures |Resolved(events, stored)| == |events|
    ensures forall i :: 0 <= i < |events| ==> Resolved(events, stored)[i].createdAt == events[i].createdAt
  {
  }

  ghost predicate ApartAfter(cooldown: nat, evals: seq<Evaluation>, k: nat)
    requires k <= |evals|
  {
    CreationsApart(RunRule(cooldown, evals, k), cooldown)
  }

  predicate EarlyAt(cooldown: nat, evals: seq<Evaluation>, k: nat)
    requires k < |evals|
  {
    FiresTooEarly(RunRule(cooldown, evals, k), cooldown, evals[k])
  }

  lemma ApartStep(cooldown: nat, evals: seq<Evaluation>, k: nat)
    requires MonotoneRun(evals) && k < |evals| && ApartAfter(cooldown, evals, k)
    ensures ApartAfter(cooldown, evals, k + 1) <==> !EarlyAt(cooldown, evals, k)
  {
    var latest := if k > 0 then evals[k - 1].stored else evals[k].now;
    if k > 0 {
      AlertsAreSpaced(cooldown, evals, k);
    }
    CreationsApartExactly(RunRule(cooldown, evals, k), cooldown, evals[k], latest);
  }

  // Over every run: all creations are at least the cooldown apart, at every moment, exactly when no
  // evaluation of the run fired too early.
  lemma {:induction false} RunCreationsApartExactly(cooldown: nat, evals: seq<Evaluation>, n: nat)
    requires MonotoneRun(evals) && n <= |evals|
    ensures (forall k :: 0 <= k <= n ==> ApartAfter(cooldown, evals, k))
       <==> (forall k :: 0 <= k < n ==> !EarlyAt(cooldown, evals, k))
  {
    if n > 0 {
      RunCreationsApartExactly(cooldown, evals, n - 1);
      if ApartAfter(cooldown, evals, n - 1) {
        ApartStep(cooldown, evals, n - 1);
      }
      assert (forall k :: 0 <= k <= n ==> ApartAfter(cooldown, evals, k))
        <==> (forall k :: 0 <= k <= n - 1 ==> ApartAfter(cooldown, evals, k)) && ApartAfter(cooldown, evals, n);
    }
  }

  // On a concrete run: after a resolution the next breach fires at once.
  lemma ResolutionEndsCooldown(cooldown: nat)
    requires cooldown > 2
    ensures var evals := [Evaluation(true, 2.0, 1.0, 0, 0), Evaluation(true, 0.0, 1.0, 1, 1), Evaluation(true, 2.0, 1.0, 2, 2)];
            var events := RunRule(cooldown, evals, 3);
            MonotoneRun(evals) && |events| == 2 && events[1].createdAt - events[0].createdAt < cooldown
  {
    var evals := [Evaluation(true, 2.0, 1.0, 0, 0), Evaluation(true, 0.0, 1.0, 1, 1), Evaluation(true, 2.0, 1.0, 2, 2)];
    assert RunRule(cooldown, evals, 1) == [AlertEvent(true, 0, None)];
    assert RunRule(cooldown, evals, 2) == [AlertEvent(false, 0, Some(1))];
  }

  // ----- Escalations -----

  // 24 hours in microseconds, the resolution of the clock.
  const DEDUPLICATION_WINDOW := 24 * 3600 * 1000000

  datatype Escalation = Escalation(po: int, reason: string, createdAt: int)

  datatype Request = Request(po: int, reason: string, now: int, stored: int)

  predicate Recent(e: Escalation, r: Request) {
    e.po == r.po && e.reason == r.reason && e.createdAt >= r.now - DEDUPLICATION_WINDOW
  }

  predicate IsNewest(e: Escalation, rows: seq<Escalation>) {
    e in rows && forall i :: 0 <= i < |rows| && rows[i].po == e.po && rows[i].reason == e.reason ==> rows[i].createdAt <= e.createdAt
  }

  // `create_escalation_notification`
  function Escalate(rows: seq<Escalation>, r: Request): seq<Escalation> {
    if exists i :: 0 <= i < |rows| && Recent(rows[i], r) then rows else rows + [Escalation(r.po, r.reason, r.stored)]
  }

  class EscalationLog {
    var rows: seq<Escalation>

    constructor ()
      ensures rows == []
    {
      rows := [];
    }

    // Returns the row that answers the request: a new one, or the newest for its order and reason.
    method Create(r: Request) returns (row: Escalation)
      modifies this
      ensures rows == Escalate(old(rows), r)
      ensures row in rows && row.po == r.po && row.reason == r.reason
      ensures rows != old(rows) ==> row == rows[|rows| - 1] == Escalation(r.po, r.reason, r.stored)
      ensures rows == old(rows) ==> Recent(row, r) && IsNewest(row, rows)
    {
      var newest := Newest(r.po, r.reason);
      if newest.Some? && Recent(newest.value, r) {
        ghost var i :| 0 <= i < |rows| && rows[i] == newest.value;
        return newest.value;
      }
      row := Escalation(r.po, r.reason, r.stored);
      rows := rows + [row];
    }

    method Newest(po: int, reason: string) returns (newest: Option<Escalation>)
      ensures newest.None? ==> forall i :: 0 <= i < |rows| ==> rows[i].po != po || rows[i].reason != reason
      ensures newest.Some? ==> newest.value.po == po && newest.value.reason == reason && IsNewest(newest.value, rows)
    {
      newest := None;
      for i := 0 to |rows|
        invariant newest.None? ==> forall k :: 0 <= k < i ==> rows[k].po != po || rows[k].reason != reason
        invariant newest.Some? ==> newest.value.po == po && newest.value.reason == reason && IsNewest(newest.value, rows[..i])
      {
        assert rows[..i + 1] == rows[..i] + [rows[i]];
        if rows[i].po == po && rows[i].reason == reason && (newest.None? || newest.value.createdAt <= rows[i].createdAt) {
          newest := Some(rows[i]);
        }
      }
      assert rows[..|rows|] == rows;
    }
  }

  ghost predicate MonotoneRequests(requests: seq<Request>) {
    && (forall i :: 0 <= i < |requests| ==> requests[i].now <= requests[i].stored)
    && (forall i, j :: 0 <= i < j < |requests| ==> requests[i].stored <= requests[j].now)
  }

  function RunEscalations(requests: seq<Request>, n: nat): seq<Escalation>
    requires n <= |requests|
  {
    if n == 0 then [] else Escalate(RunEscalations(requests, n - 1), requests[n - 1])
  }

  // A request adds a row exactly when no row for its order and reason is at most 24 hours old.
  lemma EscalatesExactly(rows: seq<Escalation>, r: Request)
    ensures var after := Escalate(rows, r);
            if exists i :: 0 <= i < |rows| && rows[i].po == r.po && rows[i].reason == r.reason && r.now - rows[i].createdAt <= 86400000000
            then after == rows
            else after == rows + [Escalation(r.po, r.reason, r.stored)]
  {
    if i :| 0 <= i < |rows| && rows[i].po == r.po && rows[i].reason == r.reason && r.now - rows[i].createdAt <= 86400000000 {
      assert Recent(rows[i], r);
    }
  }

  // Two escalations for the same order and reason are more than 24 hours apart.
  predicate Apart(rows: seq<Escalation>) {
    forall i, j :: 0 <= i < j < |rows| && rows[i].po == rows[j].po && rows[i].reason == rows[j].reason
      ==> rows[j].createdAt - rows[i].createdAt > 86400000000
  }

  predicate CreatedBy(rows: seq<Escalation>, limit: int) {
    forall i :: 0 <= i < |rows| ==> rows[i].createdAt <= limit
  }

  // The request is answered by a row for its order and reason, created between 24 hours before it
  // and the moment it would have been stored.
  predicate Answers(e: Escalation, r: Request) {
    e.po == r.po && e.reason == r.reason && r.now - 86400000000 <= e.createdAt <= r.stored
  }

  predicate Covered(rows: seq<Escalation>, r: Request) {
    exists i :: 0 <= i < |rows| && Answers(rows[i], r)
  }

  lemma EscalateKeepsApart(rows: seq<Escalation>, r: Request)
    requires Apart(rows) && CreatedBy(rows, r.now) && r.now <= r.stored
    ensures Apart(Escalate(rows, r)) && CreatedBy(Escalate(rows, r), r.stored) && Covered(Escalate(rows, r), r)
  {
    var after := Escalate(rows, r);
    if i :| 0 <= i < |rows| && Recent(rows[i], r) {
      assert Answers(after[i], r);
    } else {
      assert Answers(after[|rows|], r);
    }
  }

  // Over every run of requests by a monotone clock, escalations for the same order and reason stay
  // more than 24 hours apart.
  lemma {:induction false} EscalationsAreSpaced(requests: seq<Request>, n: nat)
    requires MonotoneRequests(requests) && n <= |requests|
    ensures Apart(RunEscalations(requests, n))
    ensures n > 0 ==> CreatedBy(RunEscalations(requests, n), requests[n - 1].stored)
  {
    if n > 0 {
      EscalationsAreSpaced(requests, n - 1);
      EscalateKeepsApart(RunEscalations(requests, n - 1), requests[n - 1]);
    }
  }

  // No request is lost: whatever came later, each one is still answered at the end of the run.
  lemma {:induction false} EveryRequestIsCovered(requests: seq<Request>, n: nat, k: nat)
    requires MonotoneRequests(requests) && k < n <= |requests|
    ensures Covered(RunEscalations(requests, n), requests[k])
  {
    var before, r := RunEscalations(requests, n - 1), requests[n - 1];
    if k < n - 1 {
      EveryRequestIsCovered(requests, n - 1, k);
      var i :| 0 <= i < |before| && Answers(before[i], requests[k]);
      assert Escalate(before, r)[i] == before[i];
    } else {
      EscalationsAreSpaced(requests, n - 1);
      EscalateKeepsApart(before, r);
    }
  }
}
