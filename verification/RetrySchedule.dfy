/**
 * The retry schedule, over two spans of a row's life. Counted from its first attempt ever it is kept by every run,
 * with any batch sizes, crashes, resends and overlapping workers. Counted anew from each resend it is kept exactly
 * as long as batches fit the lease: a worker that outlasts its lease can write an old count into a new series.
 */
module RetrySchedule {
  import opened Results
  import opened AgentOutbox
  import LeaseExclusion

  /** The delays before retry number k. */
  function DelaySum(k: nat): nat
    requires k <= RETRIES
  {
    if k == 0 then 0 else DelaySum(k - 1) + RetryDelay(k - 1)
  }

  const WHOLE_SCHEDULE_MS: nat := 74_160_000 // 20 hours 36 minutes

  lemma WholeSchedule()
    ensures DelaySum(RETRIES) == WHOLE_SCHEDULE_MS
  {
    assert DelaySum(1) == 60_000 && DelaySum(2) == 360_000 && DelaySum(3) == 2_160_000;
    assert DelaySum(4) == 9_360_000 && DelaySum(5) == 30_960_000;
  }

  predicate Open(r: Row) {
    r.status == Waiting || r.status == Sending
  }

  datatype Span = Life | Series

  function Since(r: Row, span: Span): History {
    if span == Life then r.life else r.series
  }

  predicate RowOk(r: Row, span: Span, now: nat) {
    var h := Since(r, span);
    r.attempts <= RETRIES + 1 && (h.firstTry.Some? ==> h.firstTry.value <= now)
    && (Open(r) ==> r.attempts <= RETRIES
                    && (r.attempts > 0 ==> h.firstTry.Some? && r.nextTryAt >= h.firstTry.value + DelaySum(r.attempts)))
    && (r.status == GivenUp ==>
          r.gaveUpAt.Some? && h.firstTry.Some?
          && (!h.refused ==> r.attempts == RETRIES + 1 && r.gaveUpAt.value >= h.firstTry.value + DelaySum(RETRIES)))
  }

  /** What a worker remembers of a row was read no earlier than the schedule allows. */
  predicate ClaimOk(rows: map<EventId, Row>, c: Claim, span: Span, claimedAt: nat) {
    c.attempts <= RETRIES
    && (c.attempts > 0 && c.id in rows ==>
          var first := Since(rows[c.id], span).firstTry;
          first.Some? && claimedAt >= first.value + DelaySum(c.attempts))
  }

  ghost predicate ScheduleOk(q: Outbox, span: Span) {
    (forall id {:trigger RowOk(q.rows[id], span, q.now)} :: id in q.rows ==> RowOk(q.rows[id], span, q.now))
    && forall w {:trigger WorkerOk(q, q.workers[w], span)} :: w in q.workers ==> WorkerOk(q, q.workers[w], span)
  }

  ghost predicate WorkerOk(q: Outbox, k: Worker, span: Span) {
    k.claimedAt <= q.now && forall i :: 0 <= i < |k.queue| ==> ClaimOk(q.rows, k.queue[i], span, k.claimedAt)
  }

  /** A first attempt, once recorded, stays. */
  predicate FirstStays(r: Row, r': Row, span: Span) {
    Since(r, span).firstTry.Some? ==> Since(r', span).firstTry == Since(r, span).firstTry
  }

  lemma SettledOnSchedule(rows: map<EventId, Row>, c: Claim, span: Span, claimedAt: nat, response: Response, now: nat)
    requires c.id in rows && RowOk(rows[c.id], span, now) && claimedAt <= now && ClaimOk(rows, c, span, claimedAt)
    ensures var r' := Settled(rows[c.id], c.attempts + 1, response, now);
            RowOk(r', span, now) && Since(r', span).firstTry.Some? && FirstStays(rows[c.id], r', span)
  {
    var r := rows[c.id];
    var r' := Settled(r, c.attempts + 1, response, now);
    assert Since(r', span) == Tried(Since(r, span), now, response == Rejected || response == TooLarge);
    if r'.status == Waiting {
      assert DelaySum(c.attempts + 1) == DelaySum(c.attempts) + RetryDelay(c.attempts);
      assert r'.nextTryAt >= Since(r', span).firstTry.value + DelaySum(c.attempts + 1);
    } else if r'.status == GivenUp && response == Retryable {
      assert c.attempts == RETRIES;
      assert now >= Since(r', span).firstTry.value + DelaySum(RETRIES);
    }
  }

  lemma ClaimOnSchedule(q: Outbox, w: WorkerId, ids: seq<EventId>, limit: nat, span: Span)
    requires ScheduleOk(q, span)
    ensures ScheduleOk(Next(q, ClaimDue(w, ids, limit)), span)
  {
    var q' := Next(q, ClaimDue(w, ids, limit));
    if q' != q {
      forall id | id in q'.rows ensures RowOk(q'.rows[id], span, q'.now) {
        if id in ids {
          var i :| 0 <= i < |ids| && ids[i] == id;
          assert RowOk(q.rows[id], span, q.now) && Due(q.rows[ids[i]], q.now);
        }
      }
      forall u | u in q'.workers ensures WorkerOk(q', q'.workers[u], span) {
        if u == w {
          forall i | 0 <= i < |ids| ensures ClaimOk(q'.rows, q'.workers[w].queue[i], span, q.now) {
            assert RowOk(q.rows[ids[i]], span, q.now) && Due(q.rows[ids[i]], q.now);
          }
        } else {
          WorkerStaysOk(q, q', q.workers[u], span);
        }
      }
    }
  }

  lemma WorkerStaysOk(q: Outbox, q': Outbox, k: Worker, span: Span)
    requires WorkerOk(q, k, span) && q.now <= q'.now
    requires forall i :: 0 <= i < |k.queue| && k.queue[i].id in q'.rows ==>
               k.queue[i].id in q.rows && FirstStays(q.rows[k.queue[i].id], q'.rows[k.queue[i].id], span)
    ensures WorkerOk(q', k, span)
  {
    forall i | 0 <= i < |k.queue| ensures ClaimOk(q'.rows, k.queue[i], span, k.claimedAt) {
      assert ClaimOk(q.rows, k.queue[i], span, k.claimedAt);
    }
  }

  /** Rows may be rewritten as long as the first attempts of those in hand stay. */
  lemma WorkersStayOk(q: Outbox, q': Outbox, span: Span)
    requires ScheduleOk(q, span) && q.now <= q'.now
    requires forall id :: id in q'.rows && InHands(q.workers, id) ==>
               id in q.rows && FirstStays(q.rows[id], q'.rows[id], span)
    ensures forall u :: u in q.workers ==> WorkerOk(q', q.workers[u], span)
  {
    forall u | u in q.workers ensures WorkerOk(q', q.workers[u], span) {
      var k := q.workers[u];
      assert forall i :: 0 <= i < |k.queue| ==> InHands(q.workers, k.queue[i].id);
      WorkerStaysOk(q, q', k, span);
    }
  }

  lemma WriteOnSchedule(q: Outbox, k: Worker, response: Response, span: Span)
    requires ScheduleOk(q, span) && WorkerOk(q, k, span) && k.queue != [] && k.queue[0].id in q.rows
    ensures var c := k.queue[0];
            ScheduleOk(q.(rows := q.rows[c.id := Settled(q.rows[c.id], c.attempts + 1, response, q.now)]), span)
  {
    var c := k.queue[0];
    assert ClaimOk(q.rows, c, span, k.claimedAt) && RowOk(q.rows[c.id], span, q.now);
    SettledOnSchedule(q.rows, c, span, k.claimedAt, response, q.now);
    var q' := q.(rows := q.rows[c.id := Settled(q.rows[c.id], c.attempts + 1, response, q.now)]);
    forall id | id in q'.rows ensures RowOk(q'.rows[id], span, q'.now) {
      if id != c.id { assert RowOk(q.rows[id], span, q.now); }
    }
    forall w | w in q'.workers ensures WorkerOk(q', q'.workers[w], span) {
      assert WorkerOk(q, q.workers[w], span);
      WorkerStaysOk(q, q', q.workers[w], span);
    }
  }

  lemma AdvanceOnSchedule(q: Outbox, w: WorkerId, span: Span)
    requires ScheduleOk(q, span) && w in q.workers && q.workers[w].queue != []
    ensures ScheduleOk(q.(workers := Advance(q.workers, w, q.now)), span)
  {
    var q', k := q.(workers := Advance(q.workers, w, q.now)), q.workers[w];
    assert WorkerOk(q, k, span);
    forall u | u in q'.workers ensures WorkerOk(q', q'.workers[u], span) {
      assert WorkerOk(q, q.workers[u], span);
      if u == w { assert forall i :: 0 <= i < |k.queue| - 1 ==> q'.workers[w].queue[i] == k.queue[i + 1]; }
    }
  }

  lemma FinishOnSchedule(q: Outbox, w: WorkerId, response: Response, span: Span)
    requires ScheduleOk(q, span)
    ensures ScheduleOk(Next(q, Finish(w, response)), span)
  {
    if w in q.workers && q.workers[w].queue != [] {
      var c := q.workers[w].queue[0];
      if c.id in q.rows {
        WriteOnSchedule(q, q.workers[w], response, span);
        AdvanceOnSchedule(q.(rows := q.rows[c.id := Settled(q.rows[c.id], c.attempts + 1, response, q.now)]), w, span);
      } else {
        WorkersStayOk(q, q.(workers := q.workers - {w}), span);
      }
    }
  }

  lemma OtherStepOnSchedule(q: Outbox, s: Step, span: Span)
    requires ScheduleOk(q, span) && !s.ClaimDue? && !s.Finish?
    requires span == Series && s.Resend? && s.id in q.rows && q.rows[s.id].status == GivenUp ==>
               !InHands(q.workers, s.id)
    ensures ScheduleOk(Next(q, s), span)
  {
    var q' := Next(q, s);
    WorkersStayOk(q, q', span);
    forall id | id in q'.rows ensures RowOk(q'.rows[id], span, q'.now) {
      if id in q.rows { assert RowOk(q.rows[id], span, q.now); }
    }
    forall w | w in q'.workers ensures WorkerOk(q', q'.workers[w], span) { assert WorkerOk(q', q.workers[w], span); }
  }

  /** A resend starts a new series, so it must not find a worker still counting the old one. */
  lemma StepOnSchedule(q: Outbox, s: Step, span: Span)
    requires ScheduleOk(q, span)
    requires span == Series && s.Resend? && s.id in q.rows && q.rows[s.id].status == GivenUp ==>
               !InHands(q.workers, s.id)
    ensures ScheduleOk(Next(q, s), span)
  {
    match s
    case ClaimDue(w, ids, limit) => ClaimOnSchedule(q, w, ids, limit, span);
    case Finish(w, response) => FinishOnSchedule(q, w, response, span);
    case _ => OtherStepOnSchedule(q, s, span);
  }

  /** A row given up without a refusal had 7 attempts, over at least 20 h 36 min. */
  predicate GivenUpInTime(r: Row, h: History) {
    r.status == GivenUp && !h.refused ==>
      r.attempts == 7 && r.gaveUpAt.Some? && h.firstTry.Some?
      && r.gaveUpAt.value - h.firstTry.value >= WHOLE_SCHEDULE_MS
  }

  lemma ScheduleGivesTime(q: Outbox, span: Span)
    requires ScheduleOk(q, span)
    ensures forall id :: id in q.rows ==>
              var r := q.rows[id];
              r.attempts <= 7 && (Open(r) ==> r.attempts <= 6) && GivenUpInTime(r, Since(r, span))
  {
    WholeSchedule();
    forall id | id in q.rows ensures RowOk(q.rows[id], span, q.now) {}
  }

  /**
   * In every run: at most 7 attempts are recorded, and at most 6 on a row that is still to be sent, so the next
   * delay is always defined; a row that was never refused is given up after 7 attempts and no earlier than
   * 20 h 36 min after its first one ever ended.
   */
  lemma {:induction false} RetryDiscipline(q: Outbox, steps: seq<Step>)
    requires ScheduleOk(q, Life)
    ensures var n := Run(q, steps);
            ScheduleOk(n, Life)
            && forall id :: id in n.rows ==>
                 var r := n.rows[id];
                 r.attempts <= 7 && (Open(r) ==> r.attempts <= 6) && GivenUpInTime(r, r.life)
  {
    if steps != [] {
      RetryDiscipline(q, steps[..|steps| - 1]);
      StepOnSchedule(Run(q, steps[..|steps| - 1]), steps[|steps| - 1], Life);
    }
    ScheduleGivesTime(Run(q, steps), Life);
  }

  /** Under lease exclusion no worker holds a row that was given up. */
  lemma GivenUpIsInNoHands(q: Outbox, id: EventId, cap: nat)
    requires LeaseExclusion.LeaseInv(q, cap) && id in q.rows && q.rows[id].status == GivenUp
    ensures !InHands(q.workers, id)
  {
    forall w, i | w in q.workers && 0 <= i < |q.workers[w].queue| ensures q.workers[w].queue[i].id != id {
      assert LeaseExclusion.WorkerOk(q, w, cap) && LeaseExclusion.HoldsLease(q, q.workers[w], i);
    }
  }

  /**
   * In every run whose batches fit the lease, each series has the whole schedule to itself: a row none of whose
   * attempts since its last resend was refused is given up after 7 of them, and no earlier than 20 h 36 min after
   * the first of them ended.
   */
  lemma {:induction false} SeriesDiscipline(q: Outbox, steps: seq<Step>, cap: nat)
    requires ScheduleOk(q, Series) && LeaseExclusion.LeaseInv(q, cap)
    requires cap <= LeaseExclusion.MAX_SAFE_BATCH && LeaseExclusion.AllCapped(steps, cap)
    ensures var n := Run(q, steps);
            ScheduleOk(n, Series) && forall id :: id in n.rows ==> GivenUpInTime(n.rows[id], n.rows[id].series)
  {
    if steps != [] {
      var init, s := steps[..|steps| - 1], steps[|steps| - 1];
      SeriesDiscipline(q, init, cap);
      LeaseExclusion.RunKeepsLease(q, init, cap);
      var before := Run(q, init);
      if s.Resend? && s.id in before.rows && before.rows[s.id].status == GivenUp {
        GivenUpIsInNoHands(before, s.id, cap);
      }
      StepOnSchedule(before, s, Series);
    }
    ScheduleGivesTime(Run(q, steps), Series);
  }

  // ---------------------------------------------------------------- a series beyond the bound

  /** Six failures on schedule: the seventh attempt is due at the end of the whole schedule. */
  function SixFailures(): Row {
    var h := History(Some(0), false);
    Row(Waiting, 6, WHOLE_SCHEDULE_MS, 0, h, h, None)
  }

  const GIVE_UP_AND_RESEND := [Finish(1, Retryable), Resend(29), Finish(0, Retryable)]

  /** The second worker of a collision gives the row up, it is resent, and the first still writes its old count. */
  lemma StaleWorkerEndsTheSeries()
    ensures var last := SixFailures();
            var n := Run(LeaseExclusion.Collided(WHOLE_SCHEDULE_MS, last), GIVE_UP_AND_RESEND);
            29 in n.rows && n.rows[29].status == GivenUp && n.rows[29].attempts == 7 && !n.rows[29].series.refused
            && n.rows[29].gaveUpAt == n.rows[29].series.firstTry == Some(WHOLE_SCHEDULE_MS + LEASE_MS)
  {
    var q := LeaseExclusion.Collided(WHOLE_SCHEDULE_MS, SixFailures());
    var q1 := Next(q, Finish(1, Retryable));
    LeaseExclusion.LastFinish(q, 1, Retryable);
    assert q1.rows[29].status == GivenUp;
    var q2 := Next(q1, Resend(29));
    assert q2 == q1.(rows := q1.rows[29 := Requeued(q1.rows[29], q1.now)]);
    LeaseExclusion.LastFinish(q2, 0, Retryable);
    LeaseExclusion.RunTwo(q, Finish(1, Retryable), Resend(29));
    assert GIVE_UP_AND_RESEND[..2] == [Finish(1, Retryable), Resend(29)];
  }

  lemma ThirtyRowsOnSchedule()
    ensures ScheduleOk(LeaseExclusion.ThirtyRows(WHOLE_SCHEDULE_MS, SixFailures()), Series)
  {
    WholeSchedule();
  }

  /** In all runs of capped batches each series has the whole schedule to itself. */
  ghost predicate SeriesKept(cap: nat) {
    forall q: Outbox, steps, id ::
      ScheduleOk(q, Series) && q.workers == map[] && LeaseExclusion.AllCapped(steps, cap) && id in Run(q, steps).rows
      ==> GivenUpInTime(Run(q, steps).rows[id], Run(q, steps).rows[id].series)
  }

  /** The schedule is kept by every series exactly when cap timeouts fit the lease. */
  lemma SeriesKeptIffBatchFitsLease(cap: nat)
    requires cap >= 1
    ensures SeriesKept(cap) <==> cap * REQUEST_TIMEOUT_MS < LEASE_MS
  {
    if cap <= LeaseExclusion.MAX_SAFE_BATCH {
      forall q: Outbox, steps, id |
        ScheduleOk(q, Series) && q.workers == map[] && LeaseExclusion.AllCapped(steps, cap) && id in Run(q, steps).rows
        ensures GivenUpInTime(Run(q, steps).rows[id], Run(q, steps).rows[id].series)
      {
        SeriesDiscipline(q, steps, cap);
      }
    } else {
      var q := LeaseExclusion.ThirtyRows(WHOLE_SCHEDULE_MS, SixFailures());
      var steps := LeaseExclusion.OverlongBatch() + GIVE_UP_AND_RESEND;
      ThirtyRowsOnSchedule();
      LeaseExclusion.OverlongBatchCapped(cap);
      assert LeaseExclusion.AllCapped(steps, cap);
      LeaseExclusion.OverlongBatchRuns(WHOLE_SCHEDULE_MS, SixFailures());
      RunSplit(q, LeaseExclusion.OverlongBatch(), GIVE_UP_AND_RESEND);
      StaleWorkerEndsTheSeries();
      assert !GivenUpInTime(Run(q, steps).rows[29], Run(q, steps).rows[29].series);
    }
  }

  // ---------------------------------------------------------------- nothing is lost

  /** Nothing is lost: a row leaves the table only when it was delivered or given up long enough ago. */
  lemma RowsLeaveOnlyWhenSettled(q: Outbox, s: Step, id: EventId)
    requires id in q.rows && id !in Next(q, s).rows
    ensures s == Cleanup && Removable(q.rows[id], q.now) && !Open(q.rows[id])
  {
  }

  /** An open row stays in the table, run after run, until an attempt settles it. */
  lemma {:induction false} OpenRowsStay(q: Outbox, steps: seq<Step>, id: EventId)
    requires id in q.rows
    requires forall i :: 0 <= i <= |steps| && id in Run(q, steps[..i]).rows ==> Open(Run(q, steps[..i]).rows[id])
    ensures id in Run(q, steps).rows
  {
    if steps != [] {
      var init := steps[..|steps| - 1];
      assert forall i :: 0 <= i <= |init| ==> init[..i] == steps[..i];
      OpenRowsStay(q, init, id);
      assert init == steps[..|init|];
      if id !in Run(q, steps).rows { RowsLeaveOnlyWhenSettled(Run(q, init), steps[|steps| - 1], id); }
    }
  }
}
