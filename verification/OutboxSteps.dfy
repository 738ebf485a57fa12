/**
 * What each step of the outbox does to the table and to the workers, with the times as numbers of milliseconds.
 * Whatever is not named stays as it was.
 */
module OutboxSteps {
  import opened Results
  import opened AgentOutbox
  import opened RetrySchedule

  /** The wait after the k-th failure of a series, in minutes. */
  function WaitMinutes(k: nat): nat {
    match k
    case 1 => 1
    case 2 => 5
    case 3 => 30
    case 4 => 120
    case 5 => 360
    case 6 => 720
    case _ => 0
  }

  /** The delays grow, and add up to 1, 6, 36, 156, 516 and 1,236 minutes. */
  lemma DelaysGrow(k: nat)
    requires 1 <= k <= 6
    ensures RetryDelay(k - 1) == WaitMinutes(k) * 60_000
    ensures k > 1 ==> RetryDelay(k - 2) < RetryDelay(k - 1)
    ensures DelaySum(k) == [0, 1, 6, 36, 156, 516, 1236][k] * 60_000
  {
    assert DelaySum(1) == 60_000 && DelaySum(2) == 360_000 && DelaySum(3) == 2_160_000;
    assert DelaySum(4) == 9_360_000 && DelaySum(5) == 30_960_000;
  }

  /**
   * The end of an attempt, the k-th counted on the claim: delivered for good; given up when the agent refused or the
   * payload is too large, or at the seventh failure; else waiting for exactly the delay that belongs to k.
   */
  lemma AttemptEnds(r: Row, k: nat, response: Response, now: nat)
    requires k >= 1
    ensures var r' := Settled(r, k, response, now);
            && r'.attempts == k && r'.createdAt == r.createdAt
            && (r'.status == Delivered <==> response == Accepted)
            && (r'.status == GivenUp
                <==> response == Rejected || response == TooLarge || (response == Retryable && k >= 7))
            && (r'.status == Waiting <==> response == Retryable && k <= 6)
            && (r'.status == Waiting ==> r'.nextTryAt == now + WaitMinutes(k) * 60_000)
            && (r'.status == GivenUp ==> r'.gaveUpAt == Some(now))
  {
    if 1 <= k <= 6 { DelaysGrow(k); }
  }

  /** A worker's delivery writes its row, and takes the worker to its next row or ends its batch. */
  lemma FinishDoes(q: Outbox, w: WorkerId, response: Response)
    requires w in q.workers && q.workers[w].queue != [] && q.workers[w].queue[0].id in q.rows
    ensures var k, n := q.workers[w], Next(q, Finish(w, response));
            var id := k.queue[0].id;
            && n.now == q.now && n.rows == q.rows[id := Settled(q.rows[id], k.queue[0].attempts + 1, response, q.now)]
            && (|k.queue| == 1 ==> n.workers == q.workers - {w})
            && (|k.queue| > 1 ==>
                  n.workers == q.workers[w := Worker(k.claimedAt, q.now, k.done + 1, k.queue[1..])])
  {
  }

  lemma LimitIsClamped(limit: nat)
    ensures 1 <= ClampedLimit(limit) <= 200
    ensures 1 <= limit <= 200 ==> ClampedLimit(limit) == limit
    ensures limit > 200 ==> ClampedLimit(limit) == 200
  {
  }

  /** A claim leases its rows for five minutes, and the worker remembers each with its attempts. */
  lemma ClaimDoes(q: Outbox, w: WorkerId, ids: seq<EventId>, limit: nat)
    requires w !in q.workers && ids != [] && Claimable(q.rows, ids, limit, q.now)
    ensures var n := Next(q, ClaimDue(w, ids, limit));
            && n.now == q.now && n.rows.Keys == q.rows.Keys
            && (forall id :: id in q.rows ==>
                  n.rows[id] == if id in ids then q.rows[id].(status := Sending, nextTryAt := q.now + 300_000)
                                else q.rows[id])
            && n.workers.Keys == q.workers.Keys + {w} && (forall u :: u in q.workers ==> n.workers[u] == q.workers[u])
            && n.workers[w].claimedAt == n.workers[w].startedAt == q.now && n.workers[w].done == 0
            && |n.workers[w].queue| == |ids|
            && forall i :: 0 <= i < |ids| ==>
                 n.workers[w].queue[i].id == ids[i] && ids[i] in q.rows
                 && n.workers[w].queue[i].attempts == q.rows[ids[i]].attempts
  {
  }

  /** What may be claimed: rows that wait or are being sent, once their time has come. */
  lemma DueMeans(r: Row, now: nat)
    ensures Due(r, now) <==> r.status != Delivered && r.status != GivenUp && r.nextTryAt <= now
  {
  }

  lemma EnqueueDoes(q: Outbox, id: EventId)
    requires id !in q.rows && !InHands(q.workers, id)
    ensures Next(q, Enqueue(id))
            == q.(rows := q.rows[id := Row(Waiting, 0, q.now, q.now, NO_HISTORY, NO_HISTORY, None)])
  {
  }

  /** A failed row waits again, at once and with a new count; any other row is left alone. */
  lemma ResendDoes(q: Outbox, id: EventId)
    ensures var n := Next(q, Resend(id));
            if id in q.rows && q.rows[id].status == GivenUp then
              n == q.(rows := n.rows) && n.rows.Keys == q.rows.Keys
              && (forall x :: x in q.rows && x != id ==> n.rows[x] == q.rows[x])
              && n.rows[id].status == Waiting && n.rows[id].attempts == 0 && n.rows[id].nextTryAt == q.now
              && n.rows[id].createdAt == q.rows[id].createdAt
            else n == q
  {
  }

  /** Cleanup removes delivered rows created more than 7 days ago and failed ones created more than 30 days ago. */
  lemma CleanupDoes(q: Outbox, id: EventId)
    ensures var n := Next(q, Cleanup);
            && n.now == q.now && n.workers == q.workers
            && (id in n.rows <==>
                  id in q.rows
                  && !(q.rows[id].status == Delivered && q.now - q.rows[id].createdAt > 604_800_000)
                  && !(q.rows[id].status == GivenUp && q.now - q.rows[id].createdAt > 2_592_000_000))
            && (id in n.rows ==> n.rows[id] == q.rows[id])
  {
  }

  /** A crash takes the worker, and nothing else. */
  lemma CrashDoes(q: Outbox, w: WorkerId)
    ensures var n := Next(q, Crash(w)); n == q.(workers := n.workers) && n.workers.Keys == q.workers.Keys - {w}
    ensures forall u :: u in q.workers && u != w ==> Next(q, Crash(w)).workers[u] == q.workers[u]
  {
  }

  /** Time passes as long as nobody is past their ten seconds. */
  lemma TickDoes(q: Outbox, ms: nat)
    ensures Next(q, Tick(ms))
            == if forall w :: w in q.workers ==> q.now + ms - q.workers[w].startedAt <= 10_000
               then q.(now := q.now + ms) else q
  {
  }

  /**
   * After the k-th failure of a series the row waits exactly 1, 5, 30, 120, 360 or 720 minutes from the end of that
   * attempt, and the seventh failure gives it up. `k` is what the worker read, plus this attempt.
   */
  lemma FailureWaits(q: Outbox, w: WorkerId)
    requires w in q.workers && q.workers[w].queue != [] && q.workers[w].queue[0].id in q.rows
    ensures var c := q.workers[w].queue[0];
            var k, r := c.attempts + 1, Next(q, Finish(w, Retryable)).rows[c.id];
            r.attempts == k
            && if k <= 6 then r.status == Waiting && r.nextTryAt == q.now + WaitMinutes(k) * 60_000
               else r.status == GivenUp && r.gaveUpAt == Some(q.now)
  {
    var c := q.workers[w].queue[0];
    FinishDoes(q, w, Retryable);
    AttemptEnds(q.rows[c.id], c.attempts + 1, Retryable, q.now);
  }
}
