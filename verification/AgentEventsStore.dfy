/**
 * The outbox service as it is written, over a table it updates in place. A dispatch that runs alone takes the
 * steps of one worker of the machine in `AgentOutbox`.
 */
module AgentEventsStore {
  import opened Results
  import opened AgentOutbox

  datatype DispatchSummary = DispatchSummary(enabled: bool, claimed: nat, delivered: nat, retried: nat, failed: nat)

  datatype DeliveryOutcome = WasDelivered | WasRetried | HasFailed

  /** The due rows, oldest first. */
  function DueIn(order: seq<EventId>, rows: map<EventId, Row>, now: nat): seq<EventId> {
    if order == [] then []
    else
      var id := order[|order| - 1];
      DueIn(order[..|order| - 1], rows, now) + if id in rows && Due(rows[id], now) then [id] else []
  }

  lemma {:induction false} DueInMembers(order: seq<EventId>, rows: map<EventId, Row>, now: nat)
    requires Distinct(order)
    ensures var due := DueIn(order, rows, now);
            Distinct(due) && forall i :: 0 <= i < |due| ==> due[i] in order && due[i] in rows && Due(rows[due[i]], now)
    ensures forall id :: id in order && id in rows && Due(rows[id], now) ==> id in DueIn(order, rows, now)
  {
    if order != [] {
      var init, last := order[..|order| - 1], order[|order| - 1];
      DueInMembers(init, rows, now);
      assert order == init + [last];
      assert forall i :: 0 <= i < |init| ==> init[i] == order[i];
      assert last !in init;
    }
  }

  /** Nothing older is left out: no due row that is not picked was created before one that is. */
  lemma OldestArePicked(order: seq<EventId>, rows: map<EventId, Row>, now: nat, ids: seq<EventId>, i: nat, id: EventId)
    requires IndexOk(order, rows, now) && ids <= DueIn(order, rows, now) && i < |ids|
    requires id in rows && Due(rows[id], now) && id !in ids
    ensures ids[i] in rows && rows[ids[i]].createdAt <= rows[id].createdAt
  {
    var due := DueIn(order, rows, now);
    DueInMembers(order, rows, now);
    DueIsAscending(order, rows, now);
    assert Listed(order, rows, now, id);
    var j :| 0 <= j < |due| && due[j] == id;
    assert ids[i] == due[i] && due[j] !in ids;
  }

  lemma {:induction false} DueIsAscending(order: seq<EventId>, rows: map<EventId, Row>, now: nat)
    requires Distinct(order)
    requires forall i, j {:trigger InOrder(order, rows, i, j)} :: 0 <= i < j < |order| ==> InOrder(order, rows, i, j)
    ensures var due := DueIn(order, rows, now);
            forall i, j :: 0 <= i < j < |due| ==>
              due[i] in rows && due[j] in rows && rows[due[i]].createdAt <= rows[due[j]].createdAt
  {
    if order != [] {
      var n := |order| - 1;
      var init := order[..n];
      forall i, j | 0 <= i < j < |init| ensures InOrder(init, rows, i, j) { assert InOrder(order, rows, i, j); }
      DueIsAscending(init, rows, now);
      DueInMembers(init, rows, now);
      if order[n] in rows {
        forall k | 0 <= k < |DueIn(init, rows, now)|
          ensures DueIn(init, rows, now)[k] in rows
                  && rows[DueIn(init, rows, now)[k]].createdAt <= rows[order[n]].createdAt
        {
          var id := DueIn(init, rows, now)[k];
          var i :| 0 <= i < |init| && init[i] == id;
          assert InOrder(order, rows, i, n);
        }
      }
    }
  }

  lemma {:induction false} DueInPrefix(order: seq<EventId>, n: nat, rows: map<EventId, Row>, now: nat)
    requires n <= |order|
    ensures DueIn(order[..n], rows, now) <= DueIn(order, rows, now)
    decreases |order|
  {
    if n < |order| {
      var init := order[..|order| - 1];
      assert init[..n] == order[..n];
      DueInPrefix(init, n, rows, now);
    } else {
      assert order[..n] == order;
    }
  }

  lemma OldestAreClaimable(order: seq<EventId>, rows: map<EventId, Row>, now: nat, ids: seq<EventId>, limit: nat)
    requires Distinct(order) && ids <= DueIn(order, rows, now) && |ids| <= ClampedLimit(limit)
    ensures Claimable(rows, ids, limit, now)
  {
    DueInMembers(order, rows, now);
    assert forall i :: 0 <= i < |ids| ==> ids[i] == DueIn(order, rows, now)[i];
  }

  /** `order` lists every row once, oldest first. */
  ghost predicate IndexOk(order: seq<EventId>, rows: map<EventId, Row>, now: nat) {
    Distinct(order)
    && (forall id {:trigger Listed(order, rows, now, id)} :: id in rows ==> Listed(order, rows, now, id))
    && (forall i, j {:trigger InOrder(order, rows, i, j)} :: 0 <= i < j < |order| ==> InOrder(order, rows, i, j))
  }

  ghost predicate Listed(order: seq<EventId>, rows: map<EventId, Row>, now: nat, id: EventId) {
    id in rows && id in order && rows[id].createdAt <= now
  }

  ghost predicate InOrder(order: seq<EventId>, rows: map<EventId, Row>, i: int, j: int) {
    0 <= i < j < |order|
    && (order[i] in rows && order[j] in rows ==> rows[order[i]].createdAt <= rows[order[j]].createdAt)
  }

  /** The index survives any rewriting of rows that keeps their creation times, and deletions. */
  lemma IndexKept(order: seq<EventId>, rows: map<EventId, Row>, now: nat, rows': map<EventId, Row>, now': nat)
    requires IndexOk(order, rows, now) && now <= now'
    requires forall id :: id in rows' ==> id in rows && rows'[id].createdAt == rows[id].createdAt
    ensures IndexOk(order, rows', now')
  {
    forall id | id in rows' ensures Listed(order, rows', now', id) { assert Listed(order, rows, now, id); }
    forall i, j | 0 <= i < j < |order| ensures InOrder(order, rows', i, j) { assert InOrder(order, rows, i, j); }
  }

  lemma IndexGrows(order: seq<EventId>, rows: map<EventId, Row>, now: nat, id: EventId, r: Row)
    requires IndexOk(order, rows, now) && id !in rows && id !in order && r.createdAt == now
    ensures IndexOk(order + [id], rows[id := r], now)
  {
    var longer, more := order + [id], rows[id := r];
    forall x | x in more ensures Listed(longer, more, now, x) {
      if x != id { assert Listed(order, rows, now, x); }
    }
    forall i, j | 0 <= i < j < |longer| ensures InOrder(longer, more, i, j) {
      if j < |order| {
        assert InOrder(order, rows, i, j);
      } else if longer[i] in rows {
        assert Listed(order, rows, now, longer[i]);
      }
    }
  }

  function OutcomeOf(r: Row): DeliveryOutcome {
    match r.status
    case Delivered => WasDelivered
    case GivenUp => HasFailed
    case _ => WasRetried
  }

  function Kept(rows: map<EventId, Row>, now: nat): map<EventId, Row> {
    map id | id in rows && !Removable(rows[id], now) :: rows[id]
  }

  function GivenUpRow(r: Row, attempts: nat, refused: bool, now: nat): Row {
    r.(status := GivenUp, attempts := attempts, gaveUpAt := Some(now),
       life := Tried(r.life, now, refused), series := Tried(r.series, now, refused))
  }

  /** How an attempt ends, from the answer and the attempts before it. */
  function Ended(c: Claim, r: Response): DeliveryOutcome {
    if r == Accepted then WasDelivered
    else if r == Retryable && c.attempts < 6 then WasRetried
    else HasFailed
  }

  /** Where the attempts of a batch stand that end in this way. */
  function EndedAt(claims: seq<Claim>, respond: EventId -> Response, o: DeliveryOutcome): set<int> {
    set i | 0 <= i < |claims| && Ended(claims[i], respond(claims[i].id)) == o
  }

  lemma OneMoreEnds(claims: seq<Claim>, i: nat, respond: EventId -> Response, o: DeliveryOutcome)
    requires i < |claims|
    ensures |EndedAt(claims[..i + 1], respond, o)|
            == |EndedAt(claims[..i], respond, o)| + if Ended(claims[i], respond(claims[i].id)) == o then 1 else 0
  {
    assert EndedAt(claims[..i + 1], respond, o)
        == EndedAt(claims[..i], respond, o) + if Ended(claims[i], respond(claims[i].id)) == o then {i} else {};
  }

  /** The counters of a dispatch tell how its attempts ended. */
  ghost predicate Tells(summary: DispatchSummary, claims: seq<Claim>, respond: EventId -> Response) {
    summary.delivered == |EndedAt(claims, respond, WasDelivered)|
    && summary.retried == |EndedAt(claims, respond, WasRetried)|
    && summary.failed == |EndedAt(claims, respond, HasFailed)|
  }

  lemma TellsMore(summary: DispatchSummary, claims: seq<Claim>, i: nat, respond: EventId -> Response)
    requires i < |claims| && Tells(summary, claims[..i], respond)
    ensures Tells(Counted(summary, Ended(claims[i], respond(claims[i].id))), claims[..i + 1], respond)
  {
    OneMoreEnds(claims, i, respond, WasDelivered);
    OneMoreEnds(claims, i, respond, WasRetried);
    OneMoreEnds(claims, i, respond, HasFailed);
  }

  function Counted(summary: DispatchSummary, outcome: DeliveryOutcome): DispatchSummary {
    match outcome
    case WasDelivered => summary.(delivered := summary.delivered + 1)
    case WasRetried => summary.(retried := summary.retried + 1)
    case HasFailed => summary.(failed := summary.failed + 1)
  }

  ghost predicate ClaimsOn(rows: map<EventId, Row>, claims: seq<Claim>) {
    forall i :: 0 <= i < |claims| ==> claims[i].id in rows
  }

  type RequestId = nat

  function OldRequests(requests: map<RequestId, nat>, now: nat): set<RequestId> {
    set r | r in requests && requests[r] + 7 * DAY_MS < now
  }

  class AgentEvents {
    var now: nat
    var rows: map<EventId, Row>
    var byAge: seq<EventId> // the index on createdAt
    var requests: map<RequestId, nat> // agentRequest: when each call of the agent was recorded

    ghost predicate Valid()
      reads this
    {
      IndexOk(byAge, rows, now)
    }

    /** The table with no worker at work. */
    ghost function Idle(): Outbox
      reads this
    {
      Outbox(now, rows, map[])
    }

    constructor (now: nat)
      ensures Valid() && Idle() == Outbox(now, map[], map[]) && requests == map[]
    {
      this.now, rows, byAge, requests := now, map[], [], map[];
    }

    /** Ids are fresh. */
    method Enqueue(id: EventId)
      requires Valid() && id !in rows && id !in byAge
      modifies this`rows, this`byAge
      ensures Valid() && Idle() == Next(old(Idle()), AgentOutbox.Enqueue(id)) && byAge == old(byAge) + [id]
    {
      IndexGrows(byAge, rows, now, id, NewRow(now));
      rows := rows[id := NewRow(now)];
      byAge := byAge + [id];
    }

    /** The inner selection: the oldest due rows up to `most`. */
    method SelectDue(most: nat) returns (ids: seq<EventId>, claims: seq<Claim>)
      requires Distinct(byAge)
      ensures var due := DueIn(byAge, rows, now); ids == due[..if |due| < most then |due| else most]
      ensures claims == Claims(rows, ids)
    {
      ids, claims := [], [];
      var i := 0;
      while i < |byAge| && |ids| < most
        invariant 0 <= i <= |byAge| && |ids| <= most
        invariant ids == DueIn(byAge[..i], rows, now) && claims == Claims(rows, ids)
      {
        var id := byAge[i];
        assert byAge[..i + 1][..i] == byAge[..i];
        if id in rows && Due(rows[id], now) {
          ids, claims := ids + [id], claims + [Claim(id, rows[id].attempts)];
        }
        i := i + 1;
      }
      DueInPrefix(byAge, i, rows, now);
      if i == |byAge| { assert byAge[..i] == byAge; }
    }

    /** Picks the oldest due rows up to the clamped limit and leases them. */
    method ClaimDue(limit: nat) returns (ids: seq<EventId>, claims: seq<Claim>)
      requires Valid()
      modifies this`rows
      ensures Valid() && rows == Leased(old(rows), ids, now) && claims == Claims(old(rows), ids)
      ensures Claimable(old(rows), ids, limit, now)
      ensures var due := DueIn(byAge, old(rows), now);
              ids == due[..if |due| < ClampedLimit(limit) then |due| else ClampedLimit(limit)]
      ensures forall i, id :: 0 <= i < |ids| && id in old(rows) && Due(old(rows)[id], now) && id !in ids ==>
                ids[i] in old(rows) && old(rows)[ids[i]].createdAt <= old(rows)[id].createdAt
    {
      ids, claims := SelectDue(ClampedLimit(limit));
      OldestAreClaimable(byAge, rows, now, ids, limit);
      forall i, id | 0 <= i < |ids| && id in rows && Due(rows[id], now) && id !in ids
        ensures ids[i] in rows && rows[ids[i]].createdAt <= rows[id].createdAt
      {
        OldestArePicked(byAge, rows, now, ids, i, id);
      }
      rows := Leased(rows, ids, now);
      IndexKept(byAge, old(rows), now, rows, now);
    }

    /** Updates one row; nothing changes its creation time. */
    method UpdateRow(id: EventId, r: Row)
      requires Valid() && id in rows && r.createdAt == rows[id].createdAt
      modifies this`rows
      ensures Valid() && rows == old(rows)[id := r]
    {
      rows := rows[id := r];
      IndexKept(byAge, old(rows), now, rows, now);
    }

    method MarkFailed(id: EventId, attempts: nat, refused: bool)
      requires Valid() && id in rows
      modifies this`rows
      ensures Valid() && rows == old(rows)[id := GivenUpRow(old(rows)[id], attempts, refused, now)]
    {
      UpdateRow(id, GivenUpRow(rows[id], attempts, refused, now));
    }

    method Deliver(c: Claim, response: Response) returns (out: DeliveryOutcome)
      requires Valid() && c.id in rows
      modifies this`rows
      ensures Valid() && rows == old(rows)[c.id := Settled(old(rows)[c.id], c.attempts + 1, response, now)]
      ensures out == OutcomeOf(rows[c.id]) == Ended(c, response)
    {
      var attempts := c.attempts + 1;
      if response == TooLarge || response == Rejected {
        MarkFailed(c.id, attempts, true);
        return HasFailed;
      }
      if response == Retryable && attempts > RETRIES {
        MarkFailed(c.id, attempts, false);
        return HasFailed;
      }
      var r := rows[c.id];
      var tried := r.(attempts := attempts, life := Tried(r.life, now, false), series := Tried(r.series, now, false));
      if response == Accepted {
        UpdateRow(c.id, tried.(status := Delivered));
        out := WasDelivered;
      } else {
        UpdateRow(c.id, tried.(status := Waiting, nextTryAt := now + RetryDelay(attempts - 1)));
        out := WasRetried;
      }
    }

    /** The network takes its time. */
    method Wait(ms: nat)
      requires Valid()
      modifies this`now
      ensures Valid() && now == old(now) + ms
    {
      IndexKept(byAge, rows, now, rows, now + ms);
      now := now + ms;
    }

    /** Delivers row i of a claimed batch, `ms` after the previous one. */
    method DeliverNext(claims: seq<Claim>, i: nat, ms: nat, response: Response, ghost claimedAt: nat,
                       ghost start: Outbox, ghost steps: seq<Step>)
      returns (out: DeliveryOutcome, ghost steps': seq<Step>)
      requires Valid() && i < |claims| && claims[i].id in rows && ms <= REQUEST_TIMEOUT_MS
      requires Run(start, steps) == Outbox(now, rows, Busy(claimedAt, now, i, claims))
      modifies this`rows, this`now
      ensures Valid() && rows.Keys == old(rows).Keys && out == Ended(claims[i], response)
      ensures Run(start, steps') == Outbox(now, rows, Busy(claimedAt, now, i + 1, claims))
    {
      DeliveryTaken(start, steps, now, rows, claimedAt, i, claims, ms, response);
      Wait(ms);
      out := Deliver(claims[i], response);
      steps' := steps + [Tick(ms), Finish(0, response)];
    }

    /** The loop over the claimed batch. */
    method DeliverAll(claims: seq<Claim>, respond: EventId -> Response, took: EventId -> nat, ghost start: Outbox,
                      ghost steps: seq<Step>)
      returns (summary: DispatchSummary, ghost steps': seq<Step>)
      requires Valid() && (forall id :: took(id) <= REQUEST_TIMEOUT_MS) && ClaimsOn(rows, claims)
      requires Run(start, steps) == Outbox(now, rows, Busy(now, now, 0, claims))
      modifies this`rows, this`now
      ensures Valid() && Run(start, steps') == Idle()
      ensures summary.enabled && summary.claimed == |claims| == summary.delivered + summary.retried + summary.failed
      ensures Tells(summary, claims, respond)
    {
      summary, steps' := DispatchSummary(true, |claims|, 0, 0, 0), steps;
      ghost var claimedAt := now;
      for i := 0 to |claims|
        invariant Valid() && ClaimsOn(rows, claims) && Tells(summary, claims[..i], respond)
        invariant summary.enabled && summary.claimed == |claims|
                  && summary.delivered + summary.retried + summary.failed == i
        invariant Run(start, steps') == Outbox(now, rows, Busy(claimedAt, now, i, claims))
      {
        var outcome;
        outcome, steps' := DeliverNext(claims, i, took(claims[i].id), respond(claims[i].id), claimedAt, start, steps');
        TellsMore(summary, claims, i, respond);
        summary := Counted(summary, outcome);
      }
      assert claims[..|claims|] == claims;
    }

    /** One worker on its own: `respond` and `took` stand for the network. */
    method DispatchDue(limit: nat, enabled: bool, respond: EventId -> Response, took: EventId -> nat)
      returns (summary: DispatchSummary, ghost steps: seq<Step>)
      requires Valid() && forall id :: took(id) <= REQUEST_TIMEOUT_MS
      modifies this`rows, this`now
      ensures Valid() && Idle() == Run(old(Idle()), steps)
      ensures summary.enabled == enabled && summary.claimed == summary.delivered + summary.retried + summary.failed
      ensures var due, most := |DueIn(old(byAge), old(rows), old(now))|, ClampedLimit(limit);
              summary.claimed == if !enabled then 0 else if due < most then due else most
      ensures !enabled ==> Idle() == old(Idle())
      ensures enabled ==>
                var due, most := DueIn(old(byAge), old(rows), old(now)), ClampedLimit(limit);
                Tells(summary, Claims(old(rows), due[..if |due| < most then |due| else most]), respond)
    {
      summary, steps := DispatchSummary(enabled, 0, 0, 0, 0), [];
      if !enabled { return; }
      ghost var start := Idle();
      var ids, claims := ClaimDue(limit);
      if claims == [] {
        assert rows == start.rows;
        return;
      }
      ClaimStarts(start, ids, limit);
      steps := [AgentOutbox.ClaimDue(0, ids, limit)];
      summary, steps := DeliverAll(claims, respond, took, start, steps);
    }

    /**
     * Deletes delivered rows after 7 days and failed rows after 30, and the agent's own requests after 7. The count
     * is what was deleted from both tables; a failure to delete the requests is swallowed.
     */
    method Cleanup(requestsFail: bool) returns (count: nat)
      requires Valid()
      modifies this`rows, this`requests
      ensures Valid() && Idle() == Next(old(Idle()), AgentOutbox.Cleanup)
      ensures forall r :: r in requests <==>
                r in old(requests) && (requestsFail || now - old(requests)[r] <= 604_800_000)
      ensures forall r :: r in requests ==> requests[r] == old(requests)[r]
      ensures count == |old(rows).Keys - rows.Keys| + |old(requests).Keys - requests.Keys|
      ensures forall id :: id in old(rows) && id !in rows ==> old(rows)[id].status in {Delivered, GivenUp}
    {
      var settled := DeleteSettled();
      var expired := DeleteOldRequests(requestsFail);
      return settled + expired;
    }

    method DeleteSettled() returns (count: nat)
      requires Valid()
      modifies this`rows
      ensures Valid() && Idle() == Next(old(Idle()), AgentOutbox.Cleanup)
      ensures count == |old(rows).Keys - rows.Keys|
      ensures forall id :: id in old(rows) && id !in rows ==> old(rows)[id].status in {Delivered, GivenUp}
    {
      var removed := set id | id in rows && Removable(rows[id], now);
      CleanupTaken(Idle());
      IndexKept(byAge, rows, now, Kept(rows, now), now);
      rows := Kept(rows, now);
      return |removed|;
    }

    method DeleteOldRequests(fails: bool) returns (count: nat)
      modifies this`requests
      ensures requests == if fails then old(requests) else old(requests) - OldRequests(old(requests), now)
      ensures count == |old(requests).Keys - requests.Keys|
    {
      if fails {
        assert old(requests).Keys - requests.Keys == {};
        return 0;
      }
      var expired := OldRequests(requests, now);
      requests := requests - expired;
      assert expired == old(requests).Keys - requests.Keys;
      return |expired|;
    }

    method Resend(id: EventId) returns (ok: bool)
      requires Valid()
      modifies this`rows
      ensures Valid() && Idle() == Next(old(Idle()), AgentOutbox.Resend(id))
      ensures ok <==> id in old(rows) && old(rows)[id].status == GivenUp
    {
      if id !in rows || rows[id].status != GivenUp { return false; }
      UpdateRow(id, Requeued(rows[id], now));
      return true;
    }
  }

  /** Worker 0 with the rest of its batch in hand. */
  function Busy(claimedAt: nat, now: nat, done: nat, claims: seq<Claim>): map<WorkerId, Worker>
    requires done <= |claims|
  {
    if done == |claims| then map[] else map[0 := Worker(claimedAt, now, done, claims[done..])]
  }

  lemma CleanupTaken(q: Outbox)
    ensures Next(q, Cleanup) == q.(rows := Kept(q.rows, q.now))
    ensures (set id | id in q.rows && Removable(q.rows[id], q.now)) == q.rows.Keys - Kept(q.rows, q.now).Keys
    ensures forall id :: id in q.rows && id !in Kept(q.rows, q.now) ==> q.rows[id].status in {Delivered, GivenUp}
  {
  }

  lemma ClaimStarts(q: Outbox, ids: seq<EventId>, limit: nat)
    requires q.workers == map[] && ids != [] && Claimable(q.rows, ids, limit, q.now)
    ensures ClaimsOn(Leased(q.rows, ids, q.now), Claims(q.rows, ids))
    ensures Run(q, [AgentOutbox.ClaimDue(0, ids, limit)])
            == Outbox(q.now, Leased(q.rows, ids, q.now), Busy(q.now, q.now, 0, Claims(q.rows, ids)))
  {
    var steps := [AgentOutbox.ClaimDue(0, ids, limit)];
    assert steps[..0] == [] && Run(q, []) == q;
    assert Claims(q.rows, ids)[0..] == Claims(q.rows, ids);
  }

  lemma TakeDelivery(q: Outbox, claimedAt: nat, i: nat, claims: seq<Claim>, ms: nat, response: Response)
    requires i < |claims| && q.workers == Busy(claimedAt, q.now, i, claims) && ms <= REQUEST_TIMEOUT_MS
    requires claims[i].id in q.rows
    ensures var c := claims[i];
            Next(Next(q, Tick(ms)), Finish(0, response))
            == Outbox(q.now + ms, q.rows[c.id := Settled(q.rows[c.id], c.attempts + 1, response, q.now + ms)],
                      Busy(claimedAt, q.now + ms, i + 1, claims))
  {
    var k := q.workers[0];
    assert k.queue[0] == claims[i] && k.queue[1..] == claims[i + 1..];
    var q1 := Next(q, Tick(ms));
    assert q1 == q.(now := q.now + ms);
    assert Advance(q1.workers, 0, q1.now) == Busy(claimedAt, q1.now, i + 1, claims);
  }

  lemma DeliveryTaken(start: Outbox, steps: seq<Step>, now: nat, rows: map<EventId, Row>, claimedAt: nat, i: nat,
                      claims: seq<Claim>, ms: nat, response: Response)
    requires i < |claims| && claims[i].id in rows && ms <= REQUEST_TIMEOUT_MS
    requires Run(start, steps) == Outbox(now, rows, Busy(claimedAt, now, i, claims))
    ensures var c := claims[i];
            Run(start, steps + [Tick(ms), Finish(0, response)])
            == Outbox(now + ms, rows[c.id := Settled(rows[c.id], c.attempts + 1, response, now + ms)],
                      Busy(claimedAt, now + ms, i + 1, claims))
  {
    TakeDelivery(Run(start, steps), claimedAt, i, claims, ms, response);
    RunTwoMore(start, steps, Tick(ms), Finish(0, response));
  }

  lemma RunTwoMore(q: Outbox, steps: seq<Step>, a: Step, b: Step)
    ensures Run(q, steps + [a, b]) == Next(Next(Run(q, steps), a), b)
  {
    RunSplit(q, steps, [a, b]);
    assert [a, b][..1] == [a] && [a][..0] == [];
    assert Run(Run(q, steps), []) == Run(q, steps);
    assert Run(Run(q, steps), [a]) == Next(Run(q, steps), a);
  }
}
