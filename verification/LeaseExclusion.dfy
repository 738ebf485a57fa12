/**
 * The lease keeps two workers from delivering the same row, exactly as long as a batch cannot outlast it:
 * up to 29 rows of 10 seconds under a lease of 5 minutes. The bound is sharp.
 */
module LeaseExclusion {
  import opened Results
  import opened AgentOutbox

  const MAX_SAFE_BATCH: nat := 29

  ghost predicate Capped(s: Step, cap: nat) {
    s.ClaimDue? ==> ClampedLimit(s.limit) <= cap
  }

  ghost predicate AllCapped(steps: seq<Step>, cap: nat) {
    forall i :: 0 <= i < |steps| ==> Capped(steps[i], cap)
  }

  /** The worker is on time: its deadline lies within `cap` timeouts of its claim. */
  predicate OnTime(k: Worker, now: nat, cap: nat) {
    k.queue != [] && k.done + |k.queue| <= cap
    && k.startedAt <= now <= k.startedAt + REQUEST_TIMEOUT_MS
    && k.startedAt <= k.claimedAt + k.done * REQUEST_TIMEOUT_MS
  }

  /** The row is leased to the worker: nobody else may have written it since the claim. */
  ghost predicate HoldsLease(q: Outbox, k: Worker, i: nat)
    requires i < |k.queue|
  {
    var id := k.queue[i].id;
    id in q.rows && q.rows[id].status == Sending && q.rows[id].nextTryAt == k.claimedAt + LEASE_MS
  }

  ghost predicate WorkerOk(q: Outbox, w: WorkerId, cap: nat)
    requires w in q.workers
  {
    var k := q.workers[w];
    OnTime(k, q.now, cap)
    && (forall i :: 0 <= i < |k.queue| ==> HoldsLease(q, k, i))
    && (forall i, j :: 0 <= i < j < |k.queue| ==> k.queue[i].id != k.queue[j].id)
  }

  ghost predicate WorkersOk(q: Outbox, cap: nat) {
    forall w :: w in q.workers ==> WorkerOk(q, w, cap)
  }

  /** No row is in the hands of two live workers. */
  ghost predicate Exclusive(q: Outbox) {
    forall u, w, i, j :: u in q.workers && w in q.workers && u != w
      && 0 <= i < |q.workers[u].queue| && 0 <= j < |q.workers[w].queue|
      ==> q.workers[u].queue[i].id != q.workers[w].queue[j].id
  }

  ghost predicate LeaseInv(q: Outbox, cap: nat) {
    WorkersOk(q, cap) && Exclusive(q)
  }

  lemma LeaseOutlivesBatch(k: Worker, now: nat, cap: nat)
    requires OnTime(k, now, cap) && cap <= MAX_SAFE_BATCH
    ensures now < k.claimedAt + LEASE_MS
  {
    assert k.done + 1 <= 29;
    assert k.done * REQUEST_TIMEOUT_MS <= 28 * REQUEST_TIMEOUT_MS;
  }

  /** A row in some worker's hands is not due, so no claim can pick it. */
  lemma HeldRowsAreNotDue(q: Outbox, cap: nat, w: WorkerId, i: nat)
    requires LeaseInv(q, cap) && cap <= MAX_SAFE_BATCH && w in q.workers && i < |q.workers[w].queue|
    ensures var id := q.workers[w].queue[i].id; id in q.rows && !Due(q.rows[id], q.now)
  {
    assert WorkerOk(q, w, cap) && HoldsLease(q, q.workers[w], i);
    LeaseOutlivesBatch(q.workers[w], q.now, cap);
  }

  lemma ClaimKeepsLease(q: Outbox, w: WorkerId, ids: seq<EventId>, limit: nat, cap: nat)
    requires LeaseInv(q, cap) && cap <= MAX_SAFE_BATCH && ClampedLimit(limit) <= cap
    ensures LeaseInv(Next(q, ClaimDue(w, ids, limit)), cap)
  {
    var q' := Next(q, ClaimDue(w, ids, limit));
    if q' != q {
      var k := q'.workers[w];
      assert forall i :: 0 <= i < |k.queue| ==> k.queue[i].id == ids[i] && ids[i] in ids;
      forall u, i | u in q.workers && 0 <= i < |q.workers[u].queue|
        ensures q.workers[u].queue[i].id !in ids && HoldsLease(q', q.workers[u], i)
      {
        HeldRowsAreNotDue(q, cap, u, i);
        assert WorkerOk(q, u, cap) && HoldsLease(q, q.workers[u], i);
      }
      forall u | u in q'.workers ensures WorkerOk(q', u, cap) {
        if u != w { assert WorkerOk(q, u, cap); }
      }
    }
  }

  lemma FinishKeepsLease(q: Outbox, w: WorkerId, response: Response, cap: nat)
    requires LeaseInv(q, cap)
    ensures LeaseInv(Next(q, Finish(w, response)), cap)
  {
    var q' := Next(q, Finish(w, response));
    if w in q.workers {
      assert WorkerOk(q, w, cap) && HoldsLease(q, q.workers[w], 0);
      var k := q.workers[w];
      var id := k.queue[0].id;
      forall u | u in q'.workers ensures WorkerOk(q', u, cap) && (u != w ==> q'.workers[u] == q.workers[u]) {
        assert WorkerOk(q, u, cap);
        if u == w {
          assert q'.workers[w].queue == k.queue[1..];
          forall i | 0 <= i < |k.queue| - 1 ensures HoldsLease(q', q'.workers[w], i) {
            assert HoldsLease(q, k, i + 1) && k.queue[i + 1].id != id;
          }
        } else {
          forall i | 0 <= i < |q.workers[u].queue| ensures HoldsLease(q', q.workers[u], i) {
            assert HoldsLease(q, q.workers[u], i) && q.workers[u].queue[i].id != id;
          }
        }
      }
    }
  }

  lemma OtherStepsKeepLease(q: Outbox, s: Step, cap: nat)
    requires LeaseInv(q, cap) && !s.ClaimDue? && !s.Finish?
    ensures LeaseInv(Next(q, s), cap)
  {
    var q' := Next(q, s);
    forall u | u in q'.workers ensures WorkerOk(q', u, cap) {
      assert WorkerOk(q, u, cap);
      forall i | 0 <= i < |q.workers[u].queue| ensures HoldsLease(q', q.workers[u], i) {
        assert HoldsLease(q, q.workers[u], i);
      }
    }
  }

  lemma StepKeepsLease(q: Outbox, s: Step, cap: nat)
    requires LeaseInv(q, cap) && cap <= MAX_SAFE_BATCH && Capped(s, cap)
    ensures LeaseInv(Next(q, s), cap)
  {
    match s
    case ClaimDue(w, ids, limit) => ClaimKeepsLease(q, w, ids, limit, cap);
    case Finish(w, response) => FinishKeepsLease(q, w, response, cap);
    case _ => OtherStepsKeepLease(q, s, cap);
  }

  lemma {:induction false} RunKeepsLease(q: Outbox, steps: seq<Step>, cap: nat)
    requires LeaseInv(q, cap) && cap <= MAX_SAFE_BATCH && AllCapped(steps, cap)
    ensures LeaseInv(Run(q, steps), cap)
  {
    if steps != [] {
      RunKeepsLease(q, steps[..|steps| - 1], cap);
      assert Capped(steps[|steps| - 1], cap);
      StepKeepsLease(Run(q, steps[..|steps| - 1]), steps[|steps| - 1], cap);
    }
  }

  /** A delivered row is never written again; it can only be cleaned up. */
  lemma DeliveredIsFinal(q: Outbox, s: Step, cap: nat, id: EventId)
    requires LeaseInv(q, cap) && id in q.rows && q.rows[id].status == Delivered
    ensures id in Next(q, s).rows ==> Next(q, s).rows[id] == q.rows[id]
    ensures id !in Next(q, s).rows ==> s.Cleanup? && q.rows[id].createdAt + 7 * DAY_MS < q.now
  {
    if s.Finish? && s.worker in q.workers {
      assert WorkerOk(q, s.worker, cap) && HoldsLease(q, q.workers[s.worker], 0);
    }
  }

  lemma {:induction false} DeliveredStaysDelivered(q: Outbox, steps: seq<Step>, cap: nat, id: EventId)
    requires LeaseInv(q, cap) && cap <= MAX_SAFE_BATCH && AllCapped(steps, cap)
    requires id in q.rows && q.rows[id].status == Delivered && Enqueue(id) !in steps
    ensures id in Run(q, steps).rows ==> Run(q, steps).rows[id] == q.rows[id]
  {
    if steps != [] {
      var init, s := steps[..|steps| - 1], steps[|steps| - 1];
      assert s in steps;
      DeliveredStaysDelivered(q, init, cap, id);
      RunKeepsLease(q, init, cap);
      if id in Run(q, init).rows { DeliveredIsFinal(Run(q, init), s, cap, id); }
    }
  }

  // ---------------------------------------------------------------- crashes

  /** The row a dead worker left behind: leased, as it was, and in nobody's hands. */
  ghost predicate Orphan(q: Outbox, id: EventId, r: Row) {
    id in q.rows && q.rows[id] == r && r.status == Sending && !InHands(q.workers, id)
  }

  predicate Picks(s: Step, id: EventId) {
    s.ClaimDue? && id in s.ids
  }

  lemma CrashOrphans(q: Outbox, w: WorkerId, i: nat, cap: nat)
    requires LeaseInv(q, cap) && w in q.workers && i < |q.workers[w].queue|
    ensures var id := q.workers[w].queue[i].id; id in q.rows && Orphan(Next(q, Crash(w)), id, q.rows[id])
    ensures var id := q.workers[w].queue[i].id; q.rows[id].nextTryAt == q.workers[w].claimedAt + LEASE_MS
  {
    assert WorkerOk(q, w, cap) && HoldsLease(q, q.workers[w], i);
  }

  lemma StepKeepsOrphan(q: Outbox, s: Step, id: EventId, r: Row)
    requires Orphan(q, id, r) && !Picks(s, id)
    ensures Orphan(Next(q, s), id, r)
  {
    var q' := Next(q, s);
    forall w, i | w in q'.workers && 0 <= i < |q'.workers[w].queue| ensures q'.workers[w].queue[i].id != id {
      if w in q.workers && q'.workers[w] == q.workers[w] {
        assert !InHands(q.workers, id);
      } else if s.Finish? {
        assert q'.workers[w].queue[i] == q.workers[w].queue[i + 1];
      } else {
        assert q'.workers[w].queue[i].id == s.ids[i];
      }
    }
    if s.Finish? && s.worker in q.workers && q.workers[s.worker].queue != [] {
      assert q.workers[s.worker].queue[0].id != id;
    }
  }

  /** An orphan can be claimed exactly when its lease is over, by any idle worker, and is then in its hands. */
  lemma OrphanIsClaimable(q: Outbox, id: EventId, r: Row, w: WorkerId, ids: seq<EventId>, limit: nat)
    requires Orphan(q, id, r) && w !in q.workers && id in ids
    ensures Claimable(q.rows, [id], 1, q.now) <==> q.now >= r.nextTryAt
    ensures Claimable(q.rows, ids, limit, q.now) ==> q.now >= r.nextTryAt
    ensures Claimable(q.rows, ids, limit, q.now) <==> InHands(Next(q, ClaimDue(w, ids, limit)).workers, id)
  {
    if Claimable(q.rows, [id], 1, q.now) { assert [id][0] == id; }
    var i :| 0 <= i < |ids| && ids[i] == id;
    if Claimable(q.rows, ids, limit, q.now) {
      var n := Next(q, ClaimDue(w, ids, limit));
      assert n.workers[w].queue[i].id == id;
    }
  }

  /** The claim that took the row: after its lease, by a worker that now has it in hand. */
  ghost predicate TakenAt(q: Outbox, steps: seq<Step>, j: nat, id: EventId, r: Row)
    requires j < |steps|
  {
    Picks(steps[j], id) && Orphan(Run(q, steps[..j]), id, r) && Run(q, steps[..j]).now >= r.nextTryAt
    && InHands(Next(Run(q, steps[..j]), steps[j]).workers, id)
  }

  /** A claim on an orphan either fails, and changes nothing, or takes it after its lease. */
  lemma PickedOrphan(q: Outbox, s: Step, id: EventId, r: Row)
    requires Orphan(q, id, r) && Picks(s, id)
    ensures Orphan(Next(q, s), id, r) || (q.now >= r.nextTryAt && InHands(Next(q, s).workers, id))
  {
    if Next(q, s) != q { OrphanIsClaimable(q, id, r, s.worker, s.ids, s.limit); }
  }

  /** In every run an orphan stays as it is, in nobody's hands, unless some claim takes it after its lease. */
  lemma {:induction false} OrphanWaits(q: Outbox, steps: seq<Step>, id: EventId, r: Row)
    requires Orphan(q, id, r)
    ensures Orphan(Run(q, steps), id, r) || exists j: nat :: j < |steps| && TakenAt(q, steps, j, id, r)
  {
    if steps != [] {
      var n := |steps| - 1;
      var init := steps[..n];
      OrphanWaits(q, init, id, r);
      if j: nat :| j < n && TakenAt(q, init, j, id, r) {
        assert init[..j] == steps[..j];
        assert TakenAt(q, steps, j, id, r);
      } else if Picks(steps[n], id) {
        PickedOrphan(Run(q, init), steps[n], id, r);
        if !Orphan(Run(q, steps), id, r) { assert TakenAt(q, steps, n, id, r); }
      } else {
        StepKeepsOrphan(Run(q, init), steps[n], id, r);
      }
    }
  }

  /**
   * When a worker dies, whatever the others do: each of its rows stays in the table as it was and in nobody's
   * hands until a claim takes it, no claim takes it before the lease of the dead worker is over, and from then on
   * any idle worker's claim can.
   */
  lemma CrashedRowsComeBack(q: Outbox, w: WorkerId, i: nat, steps: seq<Step>, cap: nat)
    requires LeaseInv(q, cap) && w in q.workers && i < |q.workers[w].queue|
    ensures var id, crashed := q.workers[w].queue[i].id, Next(q, Crash(w));
            var n := Run(crashed, steps);
            id in q.rows && q.rows[id].nextTryAt == q.workers[w].claimedAt + LEASE_MS
            && ((exists j: nat :: j < |steps| && TakenAt(crashed, steps, j, id, q.rows[id]))
                || (Orphan(n, id, q.rows[id])
                    && forall other :: other !in n.workers ==>
                         (InHands(Next(n, ClaimDue(other, [id], 1)).workers, id)
                          <==> n.now >= q.workers[w].claimedAt + LEASE_MS)))
  {
    var id, crashed := q.workers[w].queue[i].id, Next(q, Crash(w));
    CrashOrphans(q, w, i, cap);
    OrphanWaits(crashed, steps, id, q.rows[id]);
    var n := Run(crashed, steps);
    if Orphan(n, id, q.rows[id]) {
      forall other | other !in n.workers
        ensures InHands(Next(n, ClaimDue(other, [id], 1)).workers, id) <==> n.now >= q.workers[w].claimedAt + LEASE_MS
      {
        OrphanIsClaimable(n, id, q.rows[id], other, [id], 1);
      }
    }
  }

  // ---------------------------------------------------------------- the bound is sharp

  ghost predicate Collision(q: Outbox) {
    exists u, w, i, j :: u in q.workers && w in q.workers && u != w
      && 0 <= i < |q.workers[u].queue| && 0 <= j < |q.workers[w].queue|
      && q.workers[u].queue[i].id == q.workers[w].queue[j].id
  }

  lemma CollisionIsNotExclusive(q: Outbox)
    requires Collision(q)
    ensures !Exclusive(q)
  {
  }

  /** Thirty due rows at time `start`; `last` is number 29, the others were never tried. */
  function ThirtyRows(start: nat, last: Row): Outbox {
    Outbox(start, map id | id in FirstThirty() :: if id == 29 then last else NewRow(0), map[])
  }

  function FirstThirty(): seq<EventId> {
    seq(30, i requires 0 <= i < 30 => i)
  }

  lemma ThirtyIds(id: EventId)
    ensures id in FirstThirty() <==> id < 30
  {
    if id < 30 { assert FirstThirty()[id] == id; }
  }

  function SlowRow(n: nat, id: EventId, start: nat, last: Row): Row {
    if id == 29 then last.(status := Sending, nextTryAt := start + LEASE_MS)
    else if id < n then
      var h := History(Some(start + (id + 1) * REQUEST_TIMEOUT_MS), false);
      Row(Delivered, 1, start + LEASE_MS, 0, h, h, None)
    else Row(Sending, 0, start + LEASE_MS, 0, NO_HISTORY, NO_HISTORY, None)
  }

  function ClaimOf(id: EventId, last: Row): Claim {
    Claim(id, if id == 29 then last.attempts else 0)
  }

  /** Worker 0 claimed all thirty at `start` and has spent the full timeout on each of the first n. */
  function SlowBatch(n: nat, start: nat, last: Row): Outbox
    requires n < 30
  {
    var queue := seq(30 - n, i requires 0 <= i < 30 - n => ClaimOf(n + i, last));
    Outbox(start + n * REQUEST_TIMEOUT_MS,
           map id | id in FirstThirty() :: SlowRow(n, id, start, last),
           map[0 := Worker(start, start + n * REQUEST_TIMEOUT_MS, n, queue)])
  }

  lemma SlowRowsAfter(n: nat, start: nat, last: Row)
    requires n < 29
    ensures var rows := SlowBatch(n, start, last).rows;
            n in rows
            && SlowBatch(n + 1, start, last).rows
               == rows[n := Settled(rows[n], 1, Accepted, start + (n + 1) * REQUEST_TIMEOUT_MS)]
  {
    ThirtyIds(n);
    assert forall id :: id != n ==> SlowRow(n + 1, id, start, last) == SlowRow(n, id, start, last);
  }

  lemma SlowWorkerAfter(n: nat, start: nat, last: Row)
    requires n < 29
    ensures var q, now := SlowBatch(n, start, last), start + (n + 1) * REQUEST_TIMEOUT_MS;
            q.workers[0].queue != [] && q.workers[0].queue[0] == Claim(n, 0)
            && Advance(q.workers, 0, now) == SlowBatch(n + 1, start, last).workers
  {
    var k := SlowBatch(n, start, last).workers[0];
    assert |k.queue| > 1 && k.queue[0] == ClaimOf(n, last);
    assert k.queue[1..] == SlowBatch(n + 1, start, last).workers[0].queue;
  }

  lemma SlowDelivery(n: nat, start: nat, last: Row)
    requires n < 29
    ensures Next(Next(SlowBatch(n, start, last), Tick(REQUEST_TIMEOUT_MS)), Finish(0, Accepted))
            == SlowBatch(n + 1, start, last)
  {
    var q := SlowBatch(n, start, last);
    SlowRowsAfter(n, start, last);
    SlowWorkerAfter(n, start, last);
    assert Next(q, Tick(REQUEST_TIMEOUT_MS)) == q.(now := start + (n + 1) * REQUEST_TIMEOUT_MS);
  }

  function SlowSteps(n: nat): seq<Step> {
    if n == 0 then [] else SlowSteps(n - 1) + [Tick(REQUEST_TIMEOUT_MS), Finish(0, Accepted)]
  }

  lemma {:induction false} SlowBatchRuns(n: nat, start: nat, last: Row)
    requires n < 30
    ensures Run(SlowBatch(0, start, last), SlowSteps(n)) == SlowBatch(n, start, last)
  {
    var q := SlowBatch(0, start, last);
    if n > 0 {
      var before := SlowBatch(n - 1, start, last);
      assert Run(q, SlowSteps(n - 1)) == before by { SlowBatchRuns(n - 1, start, last); }
      RunSplit(q, SlowSteps(n - 1), [Tick(REQUEST_TIMEOUT_MS), Finish(0, Accepted)]);
      RunTwo(before, Tick(REQUEST_TIMEOUT_MS), Finish(0, Accepted));
      SlowDelivery(n - 1, start, last);
    }
  }

  lemma {:induction false} SlowStepsClaimNothing(n: nat, cap: nat)
    ensures AllCapped(SlowSteps(n), cap)
  {
    if n > 0 { SlowStepsClaimNothing(n - 1, cap); }
  }

  lemma RunOne(q: Outbox, a: Step)
    ensures Run(q, [a]) == Next(q, a)
  {
    assert [a][..0] == [] && Run(q, []) == q;
  }

  lemma RunTwo(q: Outbox, a: Step, b: Step)
    ensures Run(q, [a, b]) == Next(Next(q, a), b)
  {
    RunOne(q, a);
    assert [a, b][..1] == [a];
  }

  lemma SlowBatchStarts(start: nat, last: Row)
    requires Due(last, start)
    ensures Next(ThirtyRows(start, last), ClaimDue(0, FirstThirty(), 30)) == SlowBatch(0, start, last)
  {
    var q, ids := ThirtyRows(start, last), FirstThirty();
    assert forall i :: 0 <= i < |ids| ==> ids[i] in ids;
    assert Claimable(q.rows, ids, 30, q.now);
    var n, slow := Next(q, ClaimDue(0, ids, 30)), SlowBatch(0, start, last);
    assert Claims(q.rows, ids) == slow.workers[0].queue;
    assert n.rows == slow.rows;
  }

  function OverlongBatch(): seq<Step> {
    [ClaimDue(0, FirstThirty(), 30)] + SlowSteps(29) + [Tick(REQUEST_TIMEOUT_MS), ClaimDue(1, [29], 1)]
  }

  /** Row 29 in the hands of both workers, when the lease of the first is over. */
  function Collided(start: nat, last: Row): Outbox {
    var slow, now := SlowBatch(29, start, last), start + LEASE_MS;
    Outbox(now, slow.rows[29 := last.(status := Sending, nextTryAt := now + LEASE_MS)],
           slow.workers[1 := Worker(now, now, 0, [ClaimOf(29, last)])])
  }

  lemma SecondWorkerCollides(start: nat, last: Row)
    ensures Next(Next(SlowBatch(29, start, last), Tick(REQUEST_TIMEOUT_MS)), ClaimDue(1, [29], 1))
            == Collided(start, last)
  {
    var q, c := Next(SlowBatch(29, start, last), Tick(REQUEST_TIMEOUT_MS)), Collided(start, last);
    assert q == SlowBatch(29, start, last).(now := start + LEASE_MS);
    ThirtyIds(29);
    assert Claimable(q.rows, [29], 1, q.now);
    var n := Next(q, ClaimDue(1, [29], 1));
    assert Claims(q.rows, [29]) == [ClaimOf(29, last)];
    assert n.rows == c.rows && n.workers == c.workers;
  }

  lemma OverlongBatchRuns(start: nat, last: Row)
    requires Due(last, start)
    ensures Run(ThirtyRows(start, last), OverlongBatch()) == Collided(start, last)
  {
    var q, first := ThirtyRows(start, last), [ClaimDue(0, FirstThirty(), 30)];
    var again := [Tick(REQUEST_TIMEOUT_MS), ClaimDue(1, [29], 1)];
    assert Run(q, first) == SlowBatch(0, start, last) by {
      RunOne(q, first[0]);
      SlowBatchStarts(start, last);
    }
    RunSplit(q, first, SlowSteps(29));
    SlowBatchRuns(29, start, last);
    RunSplit(q, first + SlowSteps(29), again);
    RunTwo(SlowBatch(29, start, last), again[0], again[1]);
    SecondWorkerCollides(start, last);
  }

  lemma OverlongBatchCapped(cap: nat)
    requires cap >= 30
    ensures AllCapped(OverlongBatch(), cap)
  {
    SlowStepsClaimNothing(29, cap);
    var steps, middle := OverlongBatch(), SlowSteps(29);
    forall i | 0 <= i < |steps| ensures Capped(steps[i], cap) {
      if 1 <= i < |middle| + 1 { assert steps[i] == middle[i - 1]; }
    }
  }

  /** With batches of 30 or more, such as the 50 of the cron endpoint, two live workers can hold the same row. */
  lemma LargeBatchesCollide(cap: nat)
    requires cap > MAX_SAFE_BATCH
    ensures AllCapped(OverlongBatch(), cap) && Collision(Run(ThirtyRows(0, NewRow(0)), OverlongBatch()))
  {
    OverlongBatchCapped(cap);
    OverlongBatchRuns(0, NewRow(0));
    CollidedIsCollision(0, NewRow(0));
  }

  lemma CollidedIsCollision(start: nat, last: Row)
    ensures Collision(Collided(start, last))
  {
    var n := Collided(start, last);
    assert n.workers[0].queue[0].id == 29 && n.workers[1].queue[0].id == 29;
  }

  /** Lease exclusion holds in every run with batches of at most `cap` rows exactly when cap is at most 29. */
  lemma ExclusionIffBatchFitsLease(cap: nat)
    requires cap >= 1
    ensures (forall q: Outbox, steps :: q.workers == map[] && AllCapped(steps, cap) ==> Exclusive(Run(q, steps)))
            <==> cap * REQUEST_TIMEOUT_MS < LEASE_MS
  {
    if cap <= MAX_SAFE_BATCH {
      forall q: Outbox, steps | q.workers == map[] && AllCapped(steps, cap) ensures Exclusive(Run(q, steps)) {
        RunKeepsLease(q, steps, cap);
      }
    } else {
      LargeBatchesCollide(cap);
      CollisionIsNotExclusive(Run(ThirtyRows(0, NewRow(0)), OverlongBatch()));
      assert ThirtyRows(0, NewRow(0)).workers == map[];
    }
  }

  // ---------------------------------------------------------------- a delivered row beyond the bound

  /** The end of a worker's last delivery. */
  lemma LastFinish(q: Outbox, w: WorkerId, response: Response)
    requires w in q.workers && |q.workers[w].queue| == 1 && q.workers[w].queue[0].id in q.rows
    ensures var c := q.workers[w].queue[0];
            Next(q, Finish(w, response))
            == q.(rows := q.rows[c.id := Settled(q.rows[c.id], c.attempts + 1, response, q.now)],
                  workers := q.workers - {w})
  {
  }

  lemma StaleWorkerQueuesAgain()
    ensures var q := Next(Collided(0, NewRow(0)), Finish(1, Accepted));
            var n := Next(q, Finish(0, Retryable));
            29 in q.rows && q.rows[29].status == Delivered && 29 in n.rows && n.rows[29].status == Waiting
  {
    LastFinish(Collided(0, NewRow(0)), 1, Accepted);
    LastFinish(Next(Collided(0, NewRow(0)), Finish(1, Accepted)), 0, Retryable);
  }

  /** The second worker of the collision delivers the row; the first, still at it, fails and queues it again. */
  lemma DeliveredRowIsSentAgain()
    ensures var q := Run(ThirtyRows(0, NewRow(0)), OverlongBatch() + [Finish(1, Accepted)]);
            29 in q.rows && q.rows[29].status == Delivered
            && 29 in Run(q, [Finish(0, Retryable)]).rows && Run(q, [Finish(0, Retryable)]).rows[29].status == Waiting
  {
    var q := Next(Collided(0, NewRow(0)), Finish(1, Accepted));
    assert Run(ThirtyRows(0, NewRow(0)), OverlongBatch() + [Finish(1, Accepted)]) == q by {
      OverlongBatchRuns(0, NewRow(0));
      RunSplit(ThirtyRows(0, NewRow(0)), OverlongBatch(), [Finish(1, Accepted)]);
      RunOne(Collided(0, NewRow(0)), Finish(1, Accepted));
    }
    RunOne(q, Finish(0, Retryable));
    StaleWorkerQueuesAgain();
  }

  /** Once a run of capped batches has delivered a row, no continuation writes it again. */
  ghost predicate DeliveredForGood(cap: nat) {
    forall q: Outbox, before, after, id ::
      q.workers == map[] && AllCapped(before, cap) && AllCapped(after, cap) && Enqueue(id) !in after
      && id in Run(q, before).rows && Run(q, before).rows[id].status == Delivered
      && id in Run(Run(q, before), after).rows
      ==> Run(Run(q, before), after).rows[id] == Run(q, before).rows[id]
  }

  /** Delivered is final in all runs with batches of at most `cap` rows exactly when cap timeouts fit the lease. */
  lemma DeliveredIsFinalIffBatchFitsLease(cap: nat)
    requires cap >= 1
    ensures DeliveredForGood(cap) <==> cap * REQUEST_TIMEOUT_MS < LEASE_MS
  {
    if cap <= MAX_SAFE_BATCH {
      forall q: Outbox, before, after, id |
        q.workers == map[] && AllCapped(before, cap) && AllCapped(after, cap) && Enqueue(id) !in after
        && id in Run(q, before).rows && Run(q, before).rows[id].status == Delivered
        && id in Run(Run(q, before), after).rows
        ensures Run(Run(q, before), after).rows[id] == Run(q, before).rows[id]
      {
        RunKeepsLease(q, before, cap);
        DeliveredStaysDelivered(Run(q, before), after, cap, id);
      }
    } else {
      OverlongBatchCapped(cap);
      DeliveredRowIsSentAgain();
      var before, after := OverlongBatch() + [Finish(1, Accepted)], [Finish(0, Retryable)];
      assert AllCapped(before, cap) && AllCapped(after, cap) && Enqueue(29) !in after;
      assert ThirtyRows(0, NewRow(0)).workers == map[];
      assert !DeliveredForGood(cap);
    }
  }
}
