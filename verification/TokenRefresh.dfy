// The single-flight token refresh of the HTTP client (src/lib/axios.ts).  Responses, refresh
// results and outside token writes arrive in any order; the code between two awaits is one step.
// The empty string stands for a token that is null, missing or empty: the code only tests
// tokens for truthiness and equality.
module TokenRefresh {
  import opened Sequences

  datatype Settled = Delivered | Rejected

  datatype Reply = Success | OtherError | Unauthorized

  datatype Proto = Proto(
    token: string,                    // the auth store
    lastRefreshed: string,
    isRefreshing: bool,
    queue: seq<nat>,                  // pendingQueue, by request
    awaiting: set<nat>,               // handlers suspended at the refresh call
    inFlight: set<nat>,
    settled: map<nat, Settled>,
    retry: set<nat>,                  // requests whose _retry flag is set
    exempt: set<nat>,
    sends: seq<nat>,                  // how often each request was sent
    bearers: seq<string>,             // the token it was last sent with
    refreshCalls: nat,
    refreshOks: nat)
  {
    function Issued(): nat { |sends| }

    // A 401 is not worth a refresh: the store holds the token the last refresh gave.
    predicate Sealed() {
      token != "" && token == lastRefreshed
    }
  }

  datatype Event =
    | Issue(isExempt: bool)
    | Respond(id: nat, reply: Reply)
    | RefreshOk(id: nat, newToken: string)
    | RefreshFail(id: nat)
    | Outside(newToken: string)       // login, logout, session bootstrap

  // ----- Specification -----

  predicate Formed(p: Proto) {
    |p.bearers| == |p.sends|
  }

  function Issued(p: Proto, isExempt: bool): Proto {
    var id := |p.sends|;
    p.(sends := p.sends + [1], bearers := p.bearers + [if isExempt then "" else p.token],
       inFlight := p.inFlight + {id}, exempt := if isExempt then p.exempt + {id} else p.exempt)
  }

  function Settle(p: Proto, id: nat, s: Settled): Proto {
    p.(settled := p.settled[id := s])
  }

  function Resend(p: Proto, id: nat, token: string): Proto {
    if id < |p.sends| && id < |p.bearers|
    then p.(inFlight := p.inFlight + {id}, sends := p.sends[id := p.sends[id] + 1], bearers := p.bearers[id := token])
    else p
  }

  // `processQueue`: the first n callbacks, resolved when the token is not empty, rejected otherwise.
  function Release(p: Proto, ids: seq<nat>, n: nat, token: string): Proto
    requires n <= |ids|
  {
    if n == 0 then p
    else if token != "" then Resend(Release(p, ids, n - 1, token), ids[n - 1], token)
    else Settle(Release(p, ids, n - 1, token), ids[n - 1], Rejected)
  }

  function ProcessedQueue(p: Proto, token: string): Proto {
    Release(p, p.queue, |p.queue|, token).(queue := [])
  }

  function OnUnauthorized(p: Proto, id: nat): Proto {
    if id in p.retry || id in p.exempt || p.Sealed() then Settle(p, id, Rejected)
    else if p.isRefreshing then p.(queue := p.queue + [id])
    else p.(retry := p.retry + {id}, isRefreshing := true, awaiting := p.awaiting + {id}, refreshCalls := p.refreshCalls + 1)
  }

  function OnResponse(p: Proto, id: nat, reply: Reply): Proto {
    var q := p.(inFlight := p.inFlight - {id});
    match reply
    case Success => Settle(q, id, Delivered)
    case OtherError => Settle(q, id, Rejected)
    case Unauthorized => OnUnauthorized(q, id)
  }

  function Granted(p: Proto, id: nat, newToken: string): Proto {
    p.(awaiting := p.awaiting - {id}, lastRefreshed := newToken, token := newToken, refreshOks := p.refreshOks + 1)
  }

  function OnRefreshOk(p: Proto, id: nat, newToken: string): Proto {
    Resend(ProcessedQueue(Granted(p, id, newToken), newToken), id, newToken).(isRefreshing := false)
  }

  function OnRefreshFail(p: Proto, id: nat): Proto {
    var q := p.(awaiting := p.awaiting - {id});
    Settle(ProcessedQueue(q, "").(token := ""), id, Rejected).(isRefreshing := false)
  }

  predicate Enabled(p: Proto, e: Event) {
    match e
    case Respond(id, _) => id in p.inFlight
    case RefreshOk(id, _) => id in p.awaiting
    case RefreshFail(id) => id in p.awaiting
    case _ => true
  }

  function Next(p: Proto, e: Event): Proto {
    if !Enabled(p, e) then p
    else match e
      case Issue(isExempt) => Issued(p, isExempt)
      case Respond(id, reply) => OnResponse(p, id, reply)
      case RefreshOk(id, newToken) => OnRefreshOk(p, id, newToken)
      case RefreshFail(id) => OnRefreshFail(p, id)
      case Outside(newToken) => p.(token := newToken)
  }

  function Initial(token: string): Proto {
    Proto(token, "", false, [], {}, {}, map[], {}, {}, [], [], 0, 0)
  }

  // ----- The interceptor -----

  class Interceptor {
    var token: string
    var lastRefreshed: string
    var isRefreshing: bool
    var pendingQueue: seq<nat>
    var awaiting: set<nat>
    var inFlight: set<nat>
    var settled: map<nat, Settled>
    var retry: set<nat>
    var exempt: set<nat>
    var sends: seq<nat>
    var bearers: seq<string>
    var refreshCalls: nat
    var refreshOks: nat

    function State(): Proto
      reads this
    {
      Proto(token, lastRefreshed, isRefreshing, pendingQueue, awaiting, inFlight, settled, retry, exempt,
            sends, bearers, refreshCalls, refreshOks)
    }

    constructor (token: string)
      ensures State() == Initial(token)
    {
      this.token, lastRefreshed, isRefreshing, pendingQueue := token, "", false, [];
      awaiting, inFlight, settled, retry, exempt := {}, {}, map[], {}, {};
      sends, bearers, refreshCalls, refreshOks := [], [], 0, 0;
    }

    method Send(isExempt: bool) returns (id: nat)
      modifies this
      ensures id == |old(sends)| && State() == Next(old(State()), Issue(isExempt))
    {
      id := |sends|;
      sends := sends + [1];
      if isExempt {
        exempt := exempt + {id};
        bearers := bearers + [""];
      } else {
        bearers := bearers + [token];
      }
      inFlight := inFlight + {id};
    }

    method ResendWith(id: nat, newToken: string)
      modifies this`inFlight, this`sends, this`bearers
      ensures State() == Resend(old(State()), id, newToken)
    {
      if id < |sends| && id < |bearers| {
        sends := sends[id := sends[id] + 1];
        bearers := bearers[id := newToken];
        inFlight := inFlight + {id};
      }
    }

    method ProcessQueue(newToken: string)
      modifies this`inFlight, this`sends, this`bearers, this`settled, this`pendingQueue
      ensures State() == ProcessedQueue(old(State()), newToken)
    {
      for i := 0 to |pendingQueue|
        invariant pendingQueue == old(pendingQueue)
        invariant State() == Release(old(State()), pendingQueue, i, newToken)
      {
        if newToken != "" {
          ResendWith(pendingQueue[i], newToken);
        } else {
          settled := settled[pendingQueue[i] := Rejected];
        }
      }
      pendingQueue := [];
    }

    method HandleResponse(id: nat, reply: Reply)
      requires id in inFlight
      modifies this
      ensures State() == Next(old(State()), Respond(id, reply))
    {
      inFlight := inFlight - {id};
      if reply == Success {
        settled := settled[id := Delivered];
        return;
      }
      if reply == Unauthorized && id !in retry && id !in exempt {
        if token != "" && token == lastRefreshed {
          settled := settled[id := Rejected];
          return;
        }
        if isRefreshing {
          pendingQueue := pendingQueue + [id];
          return;
        }
        retry := retry + {id};
        isRefreshing := true;
        awaiting := awaiting + {id};
        refreshCalls := refreshCalls + 1;
        return;
      }
      settled := settled[id := Rejected];
    }

    method GrantToken(id: nat, newToken: string)
      modifies this`awaiting, this`refreshOks, this`lastRefreshed, this`token
      ensures State() == Granted(old(State()), id, newToken)
    {
      awaiting := awaiting - {id};
      refreshOks := refreshOks + 1;
      lastRefreshed := newToken;
      token := newToken;
    }

    method HandleRefreshed(id: nat, newToken: string)
      requires id in awaiting
      modifies this
      ensures State() == Next(old(State()), RefreshOk(id, newToken))
    {
      GrantToken(id, newToken);
      ProcessQueue(newToken);
      ResendWith(id, newToken);
      isRefreshing := false;
    }

    method HandleRefreshFailed(id: nat)
      requires id in awaiting
      modifies this
      ensures State() == Next(old(State()), RefreshFail(id))
    {
      awaiting := awaiting - {id};
      ProcessQueue("");
      token := "";
      settled := settled[id := Rejected];
      isRefreshing := false;
    }
  }

  // ----- Single flight, nothing lost -----

  // In how many places a request is: queued, in flight, refreshing, settled.
  function Places(p: Proto, id: nat): nat {
    (if id in p.queue then 1 else 0) + (if id in p.inFlight then 1 else 0)
    + (if id in p.awaiting then 1 else 0) + (if id in p.settled then 1 else 0)
  }

  // What holds of one request: issued requests are in exactly one place, the others in none, and a
  // request that refreshed is never queued.
  ghost predicate Placed(p: Proto, id: nat) {
    && Places(p, id) == (if id < |p.sends| then 1 else 0)
    && (id in p.retry || id in p.exempt ==> id < |p.sends|)
    && (id in p.awaiting ==> id in p.retry)
    && (id in p.retry ==> id !in p.queue && id !in p.exempt)
    && (id in p.exempt ==> id !in p.queue)
  }

  // At most one refresh is in progress, and the queue is empty whenever none is.
  ghost predicate SingleFlight(p: Proto) {
    && (p.isRefreshing <==> exists id :: id in p.awaiting)
    && (forall a, b :: a in p.awaiting && b in p.awaiting ==> a == b)
    && (!p.isRefreshing ==> p.queue == [])
  }

  // Each refresh call belongs to a different request.
  ghost predicate CallsAccounted(p: Proto) {
    p.refreshCalls == |p.retry| && p.refreshOks + (if p.isRefreshing then 1 else 0) <= p.refreshCalls
  }

  ghost predicate Inv(p: Proto) {
    && Formed(p)
    && Distinct(p.queue)
    && SingleFlight(p)
    && CallsAccounted(p)
    && forall id: nat :: Placed(p, id)
  }

  // Releasing the first n queued requests with a token resends each of them once, with that token.
  lemma {:induction false} ReleaseResends(p: Proto, ids: seq<nat>, n: nat, token: string)
    requires Formed(p) && n <= |ids| && Distinct(ids) && token != ""
    requires forall i :: 0 <= i < |ids| ==> ids[i] < |p.sends|
    ensures var q := Release(p, ids, n, token);
            && |q.sends| == |p.sends| && |q.bearers| == |p.bearers|
            && q == p.(inFlight := q.inFlight, sends := q.sends, bearers := q.bearers)
            && (forall id :: id in q.inFlight <==> id in p.inFlight || id in ids[..n])
            && (forall id :: 0 <= id < |p.sends| ==> q.sends[id] == p.sends[id] + if id in ids[..n] then 1 else 0)
            && (forall id :: id in ids[..n] ==> id < |q.bearers| && q.bearers[id] == token)
  {
    if n > 0 {
      ReleaseResends(p, ids, n - 1, token);
      assert ids[..n] == ids[..n - 1] + [ids[n - 1]];
      assert ids[n - 1] !in ids[..n - 1];
    }
  }

  // Releasing them without a token rejects each of them.
  lemma {:induction false} ReleaseRejects(p: Proto, ids: seq<nat>, n: nat)
    requires n <= |ids|
    ensures var q := Release(p, ids, n, "");
            && q == p.(settled := q.settled)
            && (forall id :: id in q.settled <==> id in p.settled || id in ids[..n])
            && (forall id :: id in ids[..n] ==> q.settled[id] == Rejected)
  {
    if n > 0 {
      ReleaseRejects(p, ids, n - 1);
      assert ids[..n] == ids[..n - 1] + [ids[n - 1]];
    }
  }

  predicate EndsRefresh(p: Proto, e: Event) {
    (e.RefreshOk? || e.RefreshFail?) && e.id in p.awaiting
  }

  predicate Resends(e: Event) {
    e.RefreshOk? && e.newToken != ""
  }

  // Everything a settled refresh changes, request by request: the queue is emptied, every queued
  // request is released exactly once (resent with the new token, or rejected), the refreshing
  // request is resent or rejected, and no other request is touched.
  ghost predicate RefreshEffect(p: Proto, e: Event, q: Proto)
    requires EndsRefresh(p, e)
  {
    && Formed(q) && |q.sends| == |p.sends|
    && q.queue == [] && !q.isRefreshing && q.awaiting == p.awaiting - {e.id}
    && q.retry == p.retry && q.exempt == p.exempt && q.refreshCalls == p.refreshCalls
    && q.refreshOks == p.refreshOks + (if e.RefreshOk? then 1 else 0)
    && (e.RefreshOk? ==> q.token == e.newToken && q.lastRefreshed == e.newToken)
    && (e.RefreshFail? ==> q.token == "" && q.lastRefreshed == p.lastRefreshed)
    && (forall id :: id in q.inFlight <==>
          id in p.inFlight || (id == e.id && e.RefreshOk?) || (id in p.queue && Resends(e)))
    && (forall id :: id in q.settled <==>
          id in p.settled || (id == e.id && e.RefreshFail?) || (id in p.queue && !Resends(e)))
    && (forall id :: 0 <= id < |p.sends| ==>
          q.sends[id] == p.sends[id] + if (id == e.id && e.RefreshOk?) || (id in p.queue && Resends(e)) then 1 else 0)
    && (forall id :: id in p.queue ==>
          if Resends(e) then id < |q.bearers| && q.bearers[id] == e.newToken else q.settled[id] == Rejected)
  }

  lemma QueueIds(p: Proto)
    requires Inv(p)
    ensures forall i :: 0 <= i < |p.queue| ==> p.queue[i] < |p.sends|
  {
    forall i | 0 <= i < |p.queue|
      ensures p.queue[i] < |p.sends|
    {
      assert Placed(p, p.queue[i]);
    }
  }

  lemma QueueResent(p: Proto, token: string)
    requires Formed(p) && Distinct(p.queue) && token != ""
    requires forall i :: 0 <= i < |p.queue| ==> p.queue[i] < |p.sends|
    ensures var q := ProcessedQueue(p, token);
            && |q.sends| == |p.sends| && |q.bearers| == |p.bearers|
            && q == p.(inFlight := q.inFlight, sends := q.sends, bearers := q.bearers, queue := [])
            && (forall id :: id in q.inFlight <==> id in p.inFlight || id in p.queue)
            && (forall id :: 0 <= id < |p.sends| ==> q.sends[id] == p.sends[id] + if id in p.queue then 1 else 0)
            && (forall id :: id in p.queue ==> id < |q.bearers| && q.bearers[id] == token)
  {
    ReleaseResends(p, p.queue, |p.queue|, token);
    assert p.queue[..|p.queue|] == p.queue;
  }

  lemma QueueRejected(p: Proto)
    ensures var q := ProcessedQueue(p, "");
            && q == p.(settled := q.settled, queue := [])
            && (forall id :: id in q.settled <==> id in p.settled || id in p.queue)
            && (forall id :: id in p.queue ==> q.settled[id] == Rejected)
  {
    ReleaseRejects(p, p.queue, |p.queue|);
    assert p.queue[..|p.queue|] == p.queue;
  }

  lemma GrantedRefresh(p: Proto, id: nat, newToken: string)
    requires Inv(p) && id in p.awaiting
    ensures RefreshEffect(p, RefreshOk(id, newToken), OnRefreshOk(p, id, newToken))
  {
    assert Placed(p, id);
    QueueIds(p);
    var r := Granted(p, id, newToken);
    if newToken != "" {
      QueueResent(r, newToken);
    } else {
      QueueRejected(r);
    }
  }

  lemma RefusedRefresh(p: Proto, id: nat)
    requires Inv(p) && id in p.awaiting
    ensures RefreshEffect(p, RefreshFail(id), OnRefreshFail(p, id))
  {
    assert Placed(p, id);
    QueueRejected(p.(awaiting := p.awaiting - {id}));
  }

  lemma RefreshReleasesQueue(p: Proto, e: Event)
    requires Inv(p) && EndsRefresh(p, e)
    ensures RefreshEffect(p, e, Next(p, e))
  {
    if e.RefreshOk? {
      GrantedRefresh(p, e.id, e.newToken);
    } else {
      RefusedRefresh(p, e.id);
    }
  }

  lemma IssueKeepsInv(p: Proto, isExempt: bool)
    requires Inv(p)
    ensures Inv(Issued(p, isExempt))
  {
    var q := Issued(p, isExempt);
    forall id: nat
      ensures Placed(q, id)
    {
      assert Placed(p, id);
    }
  }

  lemma SettleKeepsInv(p: Proto, id: nat, s: Settled)
    requires Inv(p) && id in p.inFlight
    ensures Inv(Settle(p.(inFlight := p.inFlight - {id}), id, s))
  {
    var q := Settle(p.(inFlight := p.inFlight - {id}), id, s);
    forall r: nat
      ensures Placed(q, r)
    {
      assert Placed(p, r);
    }
  }

  lemma QueueingKeepsInv(p: Proto, id: nat)
    requires Inv(p) && id in p.inFlight && id !in p.retry && id !in p.exempt && p.isRefreshing
    ensures Inv(p.(inFlight := p.inFlight - {id}, queue := p.queue + [id]))
  {
    var q := p.(inFlight := p.inFlight - {id}, queue := p.queue + [id]);
    assert Placed(p, id);
    assert id !in p.queue;
    forall r: nat
      ensures Placed(q, r)
    {
      assert Placed(p, r);
    }
  }

  lemma RefreshStartKeepsInv(p: Proto, id: nat)
    requires Inv(p) && id in p.inFlight && id !in p.retry && id !in p.exempt && !p.isRefreshing
    ensures Inv(p.(inFlight := p.inFlight - {id}, retry := p.retry + {id}, isRefreshing := true,
                   awaiting := p.awaiting + {id}, refreshCalls := p.refreshCalls + 1))
  {
    var q := p.(inFlight := p.inFlight - {id}, retry := p.retry + {id}, isRefreshing := true,
                awaiting := p.awaiting + {id}, refreshCalls := p.refreshCalls + 1);
    assert id in q.awaiting;
    forall r: nat
      ensures Placed(q, r)
    {
      assert Placed(p, r);
    }
  }

  lemma RefreshEndKeepsInv(p: Proto, e: Event)
    requires Inv(p) && EndsRefresh(p, e)
    ensures Inv(Next(p, e))
  {
    RefreshReleasesQueue(p, e);
    var q := Next(p, e);
    assert p.isRefreshing && forall a :: a in p.awaiting ==> a == e.id;
    assert SingleFlight(q);
    forall r: nat
      ensures Placed(q, r)
    {
      assert Placed(p, r);
    }
  }

  lemma OutsideKeepsInv(p: Proto, newToken: string)
    requires Inv(p)
    ensures Inv(p.(token := newToken))
  {
    forall r: nat
      ensures Placed(p.(token := newToken), r)
    {
      assert Placed(p, r);
    }
  }

  lemma RespondKeepsInv(p: Proto, id: nat, reply: Reply)
    requires Inv(p) && id in p.inFlight
    ensures Inv(Next(p, Respond(id, reply)))
  {
    if reply == Success {
      SettleKeepsInv(p, id, Delivered);
    } else if reply == OtherError || id in p.retry || id in p.exempt || p.Sealed() {
      SettleKeepsInv(p, id, Rejected);
    } else if p.isRefreshing {
      QueueingKeepsInv(p, id);
    } else {
      RefreshStartKeepsInv(p, id);
    }
  }

  lemma NextKeepsInv(p: Proto, e: Event)
    requires Inv(p)
    ensures Inv(Next(p, e))
  {
    if Enabled(p, e) {
      match e {
        case Issue(isExempt) => IssueKeepsInv(p, isExempt);
        case Outside(newToken) => OutsideKeepsInv(p, newToken);
        case Respond(id, reply) => RespondKeepsInv(p, id, reply);
        case RefreshOk(_, _) => RefreshEndKeepsInv(p, e);
        case RefreshFail(_) => RefreshEndKeepsInv(p, e);
      }
    }
  }

  ghost predicate IsRun(trace: seq<Proto>, events: seq<Event>) {
    && |trace| == |events| + 1
    && forall i :: 0 <= i < |events| ==> trace[i + 1] == Next(trace[i], events[i])
  }

  lemma InitialInv(token: string)
    ensures Inv(Initial(token))
  {
  }

  // Requests that refreshed are issued requests.
  lemma {:induction false} BoundedCount(s: set<nat>, n: nat)
    requires forall x :: x in s ==> x < n
    ensures |s| <= n
  {
    if n > 0 {
      BoundedCount(s - {n - 1}, n - 1);
    }
  }

  // In every run, in every order of responses and with any outside token writes: one refresh at a
  // time, an empty queue otherwise, every request in exactly one place, and never more refresh
  // calls than requests.
  lemma {:induction false} SingleFlightNothingLost(trace: seq<Proto>, events: seq<Event>, n: nat)
    requires IsRun(trace, events) && n < |trace| && Inv(trace[0])
    ensures Inv(trace[n]) && trace[n].refreshCalls <= |trace[n].sends|
  {
    if n > 0 {
      SingleFlightNothingLost(trace, events, n - 1);
      NextKeepsInv(trace[n - 1], events[n - 1]);
      assert trace[(n - 1) + 1] == Next(trace[n - 1], events[n - 1]);
    }
    forall x | x in trace[n].retry
      ensures x < |trace[n].sends|
    {
      assert Placed(trace[n], x);
    }
    BoundedCount(trace[n].retry, |trace[n].sends|);
  }

  // ----- What a request is answered -----

  lemma {:induction false} ReleaseKeepsOthers(p: Proto, ids: seq<nat>, n: nat, token: string, id: nat)
    requires n <= |ids| && id !in ids[..n]
    ensures var q := Release(p, ids, n, token);
            && (id in q.settled <==> id in p.settled) && (id in p.settled ==> q.settled[id] == p.settled[id])
            && |q.bearers| == |p.bearers| && (id < |p.bearers| ==> q.bearers[id] == p.bearers[id])
  {
    if n > 0 {
      assert ids[..n] == ids[..n - 1] + [ids[n - 1]];
      ReleaseKeepsOthers(p, ids, n - 1, token, id);
    }
  }

  lemma QueueKeepsOthers(p: Proto, token: string, id: nat)
    requires id !in p.queue
    ensures var q := ProcessedQueue(p, token);
            && (id in q.settled <==> id in p.settled) && (id in p.settled ==> q.settled[id] == p.settled[id])
            && |q.bearers| == |p.bearers| && (id < |p.bearers| ==> q.bearers[id] == p.bearers[id])
  {
    assert p.queue[..|p.queue|] == p.queue;
    ReleaseKeepsOthers(p, p.queue, |p.queue|, token, id);
  }

  // The event answers the request with success.
  predicate Succeeds(p: Proto, e: Event, id: nat) {
    e == Respond(id, Success) && id in p.inFlight
  }

  // A settled request keeps its answer; a request that settles is delivered exactly when the event is
  // its successful response, and rejected otherwise.
  lemma SettledAsAnswered(p: Proto, e: Event, id: nat)
    requires Inv(p)
    ensures var q := Next(p, e);
            && (id in p.settled ==> id in q.settled && q.settled[id] == p.settled[id])
            && (id !in p.settled && id in q.settled ==> (q.settled[id] == Delivered <==> Succeeds(p, e, id)))
            && (Succeeds(p, e, id) ==> id in q.settled && q.settled[id] == Delivered)
  {
    assert Placed(p, id);
    if EndsRefresh(p, e) {
      RefreshReleasesQueue(p, e);
      if id !in p.queue {
        if e.RefreshOk? {
          QueueKeepsOthers(Granted(p, e.id, e.newToken), e.newToken, id);
        } else {
          QueueKeepsOthers(p.(awaiting := p.awaiting - {e.id}), "", id);
        }
      }
    }
  }

  predicate Delivers(p: Proto, id: nat) {
    id in p.settled && p.settled[id] == Delivered
  }

  predicate SucceedsAt(trace: seq<Proto>, events: seq<Event>, k: nat, id: nat)
    requires k < |events| < |trace|
  {
    Succeeds(trace[k], events[k], id)
  }

  lemma DeliveredNext(trace: seq<Proto>, events: seq<Event>, k: nat, id: nat, token: string)
    requires IsRun(trace, events) && k < |events| && trace[0] == Initial(token)
    ensures Delivers(trace[k + 1], id) <==> Delivers(trace[k], id) || SucceedsAt(trace, events, k, id)
  {
    FreshClient(trace, events, k, token);
    SettledAsAnswered(trace[k], events[k], id);
    assert Placed(trace[k], id);
    assert trace[k + 1] == Next(trace[k], events[k]);
  }

  // In every run a request is delivered exactly when some event of the run was its successful response.
  lemma {:induction false} DeliveredExactly(trace: seq<Proto>, events: seq<Event>, n: nat, id: nat, token: string)
    requires IsRun(trace, events) && n < |trace| && trace[0] == Initial(token)
    ensures Delivers(trace[n], id) <==> exists k :: 0 <= k < n && SucceedsAt(trace, events, k, id)
  {
    if n == 0 {
      assert id !in trace[0].settled;
    } else {
      DeliveredExactly(trace, events, n - 1, id, token);
      DeliveredNext(trace, events, n - 1, id, token);
    }
  }

  // Where a 401 puts its request: it is rejected when it already retried, is exempt, or the store holds
  // the token of the last refresh; otherwise it waits for the running refresh, or starts one.
  lemma UnauthorizedExactly(p: Proto, id: nat)
    requires Inv(p) && id in p.inFlight
    ensures var q := Next(p, Respond(id, Unauthorized));
            var hopeless := id in p.retry || id in p.exempt || (p.token != "" && p.token == p.lastRefreshed);
            && (id in q.settled <==> hopeless)
            && (id in q.queue <==> !hopeless && p.isRefreshing)
            && (id in q.awaiting <==> !hopeless && !p.isRefreshing)
            && q.refreshCalls == p.refreshCalls + (if !hopeless && !p.isRefreshing then 1 else 0)
  {
    assert Placed(p, id);
  }

  // A request goes out with the token that is in the store, or with none when its path is exempt.
  lemma IssuedWithStoredToken(p: Proto, isExempt: bool)
    requires Formed(p)
    ensures var q, id := Next(p, Issue(isExempt)), |p.sends|;
            && |q.bearers| == |q.sends| == id + 1 && q.sends[id] == 1 && id in q.inFlight
            && q.bearers[id] == (if isExempt then "" else p.token)
            && (forall i :: 0 <= i < id ==> q.sends[i] == p.sends[i] && q.bearers[i] == p.bearers[i])
  {
  }

  // After a granted refresh the refreshing request and, with a real token, every queued one carries
  // the new token; every other request carries what it did.
  lemma ResentWithNewToken(p: Proto, id: nat, newToken: string, other: nat)
    requires Inv(p) && id in p.awaiting && other < |p.bearers|
    ensures var q := Next(p, RefreshOk(id, newToken));
            && other < |q.bearers|
            && q.bearers[other] == if other == id || (other in p.queue && newToken != "") then newToken else p.bearers[other]
  {
    assert Placed(p, id) && Placed(p, other);
    GrantedRefresh(p, id, newToken);
    if other !in p.queue {
      QueueKeepsOthers(Granted(p, id, newToken), newToken, other);
    } else if newToken == "" {
      QueueRejected(Granted(p, id, newToken));
    }
  }

  // ----- In every run, outside writes included -----

  // Each request is sent at most once more for every refresh that succeeded.
  ghost predicate SendsBounded(p: Proto) {
    forall id: nat :: id < |p.sends| ==> p.sends[id] <= 1 + p.refreshOks
  }

  lemma SendsStayBounded(p: Proto, e: Event)
    requires Inv(p) && SendsBounded(p)
    ensures SendsBounded(Next(p, e))
  {
    if EndsRefresh(p, e) {
      RefreshReleasesQueue(p, e);
    }
  }

  // A client that starts fresh, whatever happens: single flight, nothing lost, and no request sent
  // more often than once and once again per request that refreshed.
  lemma {:induction false} FreshClient(trace: seq<Proto>, events: seq<Event>, n: nat, token: string)
    requires IsRun(trace, events) && n < |trace| && trace[0] == Initial(token)
    ensures Inv(trace[n]) && SendsBounded(trace[n])
    ensures trace[n].refreshOks <= trace[n].refreshCalls <= |trace[n].sends|
    ensures forall id: nat :: id < |trace[n].sends| ==> trace[n].sends[id] <= 1 + |trace[n].sends|
  {
    InitialInv(token);
    SingleFlightNothingLost(trace, events, n);
    if n > 0 {
      FreshClient(trace, events, n - 1, token);
      SendsStayBounded(trace[n - 1], events[n - 1]);
      assert trace[(n - 1) + 1] == Next(trace[n - 1], events[n - 1]);
    }
  }

  // The events of the first n that a request takes part in: responses to it, and its refresh.
  function Involving(trace: seq<Proto>, events: seq<Event>, n: nat, id: nat): nat
    requires n <= |events| && n <= |trace|
  {
    if n == 0 then 0
    else Involving(trace, events, n - 1, id) + if Involves(trace[n - 1], events[n - 1], id) then 1 else 0
  }

  predicate Involves(p: Proto, e: Event, id: nat) {
    (e.Respond? || e.RefreshOk? || e.RefreshFail?) && e.id == id && Enabled(p, e)
  }

  // Every response answers a send, and a request refreshes at most once.
  ghost predicate Accounted(p: Proto, involving: nat, id: nat) {
    id < |p.sends| ==>
      involving + (if id in p.inFlight then 1 else 0) + (if id in p.awaiting then 1 else 0)
      <= p.sends[id] + (if id in p.retry then 1 else 0)
  }

  lemma EventIsAccounted(p: Proto, e: Event, involving: nat, id: nat)
    requires Inv(p) && Accounted(p, involving, id)
    requires id >= |p.sends| ==> involving == 0
    ensures Accounted(Next(p, e), involving + (if Involves(p, e, id) then 1 else 0), id)
    ensures id >= |Next(p, e).sends| ==> !Involves(p, e, id) && id >= |p.sends|
  {
    assert Placed(p, id);
    if EndsRefresh(p, e) {
      RefreshReleasesQueue(p, e);
    }
  }

  lemma {:induction false} EventsAreAccounted(trace: seq<Proto>, events: seq<Event>, n: nat, id: nat, token: string)
    requires IsRun(trace, events) && n < |trace| && trace[0] == Initial(token)
    ensures Accounted(trace[n], Involving(trace, events, n, id), id)
    ensures id >= |trace[n].sends| ==> Involving(trace, events, n, id) == 0
  {
    if n > 0 {
      EventsAreAccounted(trace, events, n - 1, id, token);
      FreshClient(trace, events, n - 1, token);
      EventIsAccounted(trace[n - 1], events[n - 1], Involving(trace, events, n - 1, id), id);
      assert trace[(n - 1) + 1] == Next(trace[n - 1], events[n - 1]);
    }
  }

  // The protocol terminates in every run, outside token writes and empty tokens included: a request
  // takes part in at most two events more than refreshes succeed, and those are no more than requests.
  lemma EveryRequestTerminates(trace: seq<Proto>, events: seq<Event>, n: nat, id: nat, token: string)
    requires IsRun(trace, events) && n < |trace| && trace[0] == Initial(token)
    ensures Involving(trace, events, n, id) <= 2 + trace[n].refreshOks
    ensures Involving(trace, events, n, id) <= 2 + |trace[n].sends|
  {
    EventsAreAccounted(trace, events, n, id, token);
    FreshClient(trace, events, n, token);
  }

  // ----- Between outside token writes -----

  // The store is written only by the interceptor, and refreshes give real tokens.
  predicate Undisturbed(e: Event) {
    !e.Outside? && (e.RefreshOk? ==> e.newToken != "")
  }

  // How often a request was sent before the segment, counting the first send of a new request.
  function SentBefore(start: Proto, id: nat): nat {
    if id < |start.sends| then start.sends[id] else 1
  }

  // Before any refresh of the segment has succeeded nothing was resent; after the first success no
  // further refresh can start.
  ghost predicate SegmentInv(start: Proto, p: Proto) {
    && Inv(p)
    && |start.sends| <= |p.sends|
    && start.refreshOks <= p.refreshOks <= start.refreshOks + 1
    && (p.refreshOks > start.refreshOks ==> p.Sealed() && !p.isRefreshing)
    && forall id: nat :: id < |p.sends| ==>
         SentBefore(start, id) <= p.sends[id] <= SentBefore(start, id) + (p.refreshOks - start.refreshOks)
  }

  lemma SegmentSends(start: Proto, p: Proto, e: Event, id: nat)
    requires SegmentInv(start, p) && Undisturbed(e) && id < |Next(p, e).sends|
    ensures var q := Next(p, e);
            SentBefore(start, id) <= q.sends[id] <= SentBefore(start, id) + (q.refreshOks - start.refreshOks)
  {
    if EndsRefresh(p, e) {
      RefreshReleasesQueue(p, e);
    }
  }

  lemma SegmentStep(start: Proto, p: Proto, e: Event)
    requires SegmentInv(start, p) && Undisturbed(e)
    ensures SegmentInv(start, Next(p, e))
  {
    NextKeepsInv(p, e);
    if EndsRefresh(p, e) {
      RefreshReleasesQueue(p, e);
    }
    forall id: nat | id < |Next(p, e).sends|
      ensures var q := Next(p, e);
              SentBefore(start, id) <= q.sends[id] <= SentBefore(start, id) + (q.refreshOks - start.refreshOks)
    {
      SegmentSends(start, p, e, id);
    }
  }

  lemma {:induction false} SegmentKeeps(trace: seq<Proto>, events: seq<Event>, n: nat)
    requires IsRun(trace, events) && n < |trace| && Inv(trace[0])
    requires forall i :: 0 <= i < |events| ==> Undisturbed(events[i])
    ensures SegmentInv(trace[0], trace[n])
  {
    if n > 0 {
      SegmentKeeps(trace, events, n - 1);
      SegmentStep(trace[0], trace[n - 1], events[n - 1]);
      assert trace[(n - 1) + 1] == Next(trace[n - 1], events[n - 1]);
    }
  }

  // Between outside token writes, from any reachable point: every request is sent at most twice
  // (at most once more if it was already sent), and at most one refresh succeeds.
  lemma AtMostTwoSendsOneRefresh(trace: seq<Proto>, events: seq<Event>, n: nat)
    requires IsRun(trace, events) && n < |trace| && Inv(trace[0])
    requires forall i :: 0 <= i < |events| ==> Undisturbed(events[i])
    ensures trace[n].refreshOks <= trace[0].refreshOks + 1
    ensures |trace[0].sends| <= |trace[n].sends|
    ensures forall id: nat :: id < |trace[n].sends| ==>
              trace[n].sends[id] <= if id < |trace[0].sends| then trace[0].sends[id] + 1 else 2
  {
    SegmentKeeps(trace, events, n);
    forall id: nat | id < |trace[n].sends|
      ensures trace[n].sends[id] <= if id < |trace[0].sends| then trace[0].sends[id] + 1 else 2
    {
      assert trace[n].sends[id] <= SentBefore(trace[0], id) + 1;
    }
  }

  // ----- When a request is sent a third time -----

  ghost predicate AtMostTwice(p: Proto) {
    forall id: nat :: id < |p.sends| ==> p.sends[id] <= 2
  }

  // The running refresh succeeds and resends a request that was sent twice before: the refreshing
  // one, or with a non-empty token a queued one.
  predicate ThirdSend(p: Proto, e: Event) {
    EndsRefresh(p, e) && e.RefreshOk?
    && exists id: nat :: id < |p.sends| && (id == e.id || (id in p.queue && e.newToken != "")) && p.sends[id] >= 2
  }

  // One event keeps every request at two sends exactly when it is not such a refresh.
  lemma AtMostTwiceStep(p: Proto, e: Event)
    requires Inv(p) && AtMostTwice(p)
    ensures AtMostTwice(Next(p, e)) <==> !ThirdSend(p, e)
  {
    if EndsRefresh(p, e) {
      RefreshReleasesQueue(p, e);
      if ThirdSend(p, e) {
        var id: nat :| id < |p.sends| && (id == e.id || (id in p.queue && e.newToken != "")) && p.sends[id] >= 2;
        assert Next(p, e).sends[id] == p.sends[id] + 1;
      }
    }
  }

  ghost predicate TwiceAt(trace: seq<Proto>, k: nat)
    requires k < |trace|
  {
    AtMostTwice(trace[k])
  }

  predicate ThirdSendAt(trace: seq<Proto>, events: seq<Event>, k: nat)
    requires k < |events| < |trace|
  {
    ThirdSend(trace[k], events[k])
  }

  lemma TwiceNext(trace: seq<Proto>, events: seq<Event>, k: nat, token: string)
    requires IsRun(trace, events) && k < |events| && trace[0] == Initial(token)
    ensures TwiceAt(trace, k) ==> (TwiceAt(trace, k + 1) <==> !ThirdSendAt(trace, events, k))
  {
    FreshClient(trace, events, k, token);
    if TwiceAt(trace, k) {
      AtMostTwiceStep(trace[k], events[k]);
    }
    assert trace[k + 1] == Next(trace[k], events[k]);
  }

  // From a fresh client, in every run, outside token writes and empty tokens included: no request is
  // ever sent more than twice exactly when no refresh of the run resent one that was.
  lemma {:induction false} AtMostTwiceExactly(trace: seq<Proto>, events: seq<Event>, n: nat, token: string)
    requires IsRun(trace, events) && n < |trace| && trace[0] == Initial(token)
    ensures (forall k :: 0 <= k <= n ==> TwiceAt(trace, k)) <==> (forall k :: 0 <= k < n ==> !ThirdSendAt(trace, events, k))
  {
    if n == 0 {
      assert trace[0].sends == [];
    } else {
      AtMostTwiceExactly(trace, events, n - 1, token);
      TwiceNext(trace, events, n - 1, token);
    }
  }

  // On a concrete run: both requests fail, 0 refreshes and 1 waits, both are resent.
  function BothResent(): Proto {
    Proto("b", "b", false, [], {}, {0, 1}, map[], {0}, {}, [2, 2], ["b", "b"], 1, 1)
  }

  lemma ReachesBothResent()
    ensures var p := Next(Next(Initial("a"), Issue(false)), Issue(false));
            Next(Next(Next(p, Respond(0, Unauthorized)), Respond(1, Unauthorized)), RefreshOk(0, "b")) == BothResent()
  {
    var p1 := Next(Next(Initial("a"), Issue(false)), Issue(false));
    var p2 := Next(Next(p1, Respond(0, Unauthorized)), Respond(1, Unauthorized));
    assert p2 == Proto("a", "", true, [1], {0}, {}, map[], {0}, {}, [1, 1], ["a", "a"], 1, 0);
    var q := Granted(p2, 0, "b");
    assert Release(q, [1], 1, "b") == Resend(Release(q, [1], 0, "b"), 1, "b");
  }

  // Then a login writes another token, 1 fails again and refreshes on its own behalf: a third send.
  lemma ThirdSendAfterOutsideWrite()
    ensures Next(Next(Next(BothResent(), Outside("c")), Respond(1, Unauthorized)), RefreshOk(1, "d")).sends == [2, 3]
  {
    assert "c" != "b" by { assert "c"[0] != "b"[0]; }
    var p := Next(Next(BothResent(), Outside("c")), Respond(1, Unauthorized));
    assert p.awaiting == {1} && p.queue == [];
  }

  // ----- Termination -----

  // A 401 can no longer start or join a refresh.
  predicate Cold(p: Proto) {
    p.Sealed() && !p.isRefreshing
  }

  // How many more events a request can take part in.
  function Weight(p: Proto, id: nat): nat {
    if id in p.settled then 0
    else if id in p.inFlight then (if Cold(p) || id in p.retry || id in p.exempt then 1 else 4)
    else 3
  }

  function Work(p: Proto, n: nat): nat {
    if n == 0 then 0 else Work(p, n - 1) + Weight(p, n - 1)
  }

  lemma {:induction false} WorkDrops(p: Proto, q: Proto, n: nat, id: nat)
    requires forall i: nat :: i < n ==> Weight(q, i) <= Weight(p, i)
    ensures Work(q, n) <= Work(p, n)
    ensures id < n && Weight(q, id) < Weight(p, id) ==> Work(q, n) < Work(p, n)
  {
    if n > 0 {
      WorkDrops(p, q, n - 1, id);
    }
  }

  lemma {:induction false} WorkBounded(p: Proto, n: nat)
    ensures Work(p, n) <= 4 * n
  {
    if n > 0 {
      WorkBounded(p, n - 1);
    }
  }

  lemma IssueAddsWork(p: Proto, isExempt: bool)
    requires Inv(p)
    ensures var q := Issued(p, isExempt);
            Work(q, |q.sends|) <= Work(p, |p.sends|) + 4
  {
    var q := Issued(p, isExempt);
    forall i: nat | i < |p.sends|
      ensures Weight(q, i) <= Weight(p, i)
    {
      assert Placed(p, i);
    }
    WorkDrops(p, q, |p.sends|, 0);
  }

  lemma RespondDropsWork(p: Proto, id: nat, reply: Reply)
    requires Inv(p) && id in p.inFlight
    ensures var q := Next(p, Respond(id, reply));
            Work(q, |q.sends|) < Work(p, |p.sends|)
  {
    var q := Next(p, Respond(id, reply));
    assert Placed(p, id);
    forall i: nat | i < |p.sends|
      ensures Weight(q, i) <= Weight(p, i)
      ensures i == id ==> Weight(q, i) < Weight(p, i)
    {
      assert Placed(p, i);
    }
    WorkDrops(p, q, |p.sends|, id);
  }

  lemma RefreshDropsWork(p: Proto, e: Event)
    requires Inv(p) && EndsRefresh(p, e) && Undisturbed(e)
    ensures var q := Next(p, e);
            Work(q, |q.sends|) < Work(p, |p.sends|)
  {
    var q := Next(p, e);
    RefreshReleasesQueue(p, e);
    assert Placed(p, e.id);
    forall i: nat | i < |p.sends|
      ensures Weight(q, i) <= Weight(p, i)
      ensures i == e.id ==> Weight(q, i) < Weight(p, i)
    {
      assert Placed(p, i);
    }
    WorkDrops(p, q, |p.sends|, e.id);
  }

  // Every event other than a new request uses up work; a new request brings at most 4.
  lemma EventUsesWork(p: Proto, e: Event)
    requires Inv(p) && Enabled(p, e) && Undisturbed(e)
    ensures var q := Next(p, e);
            if e.Issue? then Work(q, |q.sends|) <= Work(p, |p.sends|) + 4 else Work(q, |q.sends|) < Work(p, |p.sends|)
  {
    match e {
      case Issue(isExempt) => IssueAddsWork(p, isExempt);
      case Respond(id, reply) => RespondDropsWork(p, id, reply);
      case _ => RefreshDropsWork(p, e);
    }
  }

  function CountIssued(events: seq<Event>, n: nat): nat
    requires n <= |events|
  {
    if n == 0 then 0 else CountIssued(events, n - 1) + if events[n - 1].Issue? then 1 else 0
  }

  lemma {:induction false} WorkOverRun(trace: seq<Proto>, events: seq<Event>, n: nat)
    requires IsRun(trace, events) && n < |trace| && Inv(trace[0])
    requires forall i :: 0 <= i < |events| ==> Undisturbed(events[i]) && Enabled(trace[i], events[i])
    ensures CountIssued(events, n) <= n
    ensures Work(trace[n], |trace[n].sends|) + (n - CountIssued(events, n))
         <= Work(trace[0], |trace[0].sends|) + 4 * CountIssued(events, n)
  {
    if n > 0 {
      WorkOverRun(trace, events, n - 1);
      SingleFlightNothingLost(trace, events, n - 1);
      EventUsesWork(trace[n - 1], events[n - 1]);
      assert trace[(n - 1) + 1] == Next(trace[n - 1], events[n - 1]);
    }
  }

  // The sharper bound between outside writes: in every order of responses, a run of enabled events
  // has at most 4 responses and refresh results per request.
  lemma RetryTerminates(trace: seq<Proto>, events: seq<Event>)
    requires IsRun(trace, events) && Inv(trace[0])
    requires forall i :: 0 <= i < |events| ==> Undisturbed(events[i]) && Enabled(trace[i], events[i])
    ensures |events| - CountIssued(events, |events|) <= 4 * (|trace[0].sends| + CountIssued(events, |events|))
  {
    WorkOverRun(trace, events, |events|);
    WorkBounded(trace[0], |trace[0].sends|);
  }
}
