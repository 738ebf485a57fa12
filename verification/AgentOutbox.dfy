/**
 * The transactional outbox: workers claim due rows under a lease, deliver them one by one, and retry on a fixed
 * schedule. A state machine over the clock, the table and any number of workers, at the grain of single database
 * statements. Each delivery, its write included, is taken to last at most the request timeout.
 */
module AgentOutbox {
  import opened Results

  type EventId = nat
  type WorkerId = nat

  const LEASE_MS: nat := 5 * 60_000
  const REQUEST_TIMEOUT_MS: nat := 10_000
  const MAX_LIMIT: nat := 200
  const DAY_MS: nat := 24 * 60 * 60_000
  const RETRIES: nat := 6

  function RetryDelay(i: nat): nat
    requires i < RETRIES
  {
    match i
    case 0 => 60_000
    case 1 => 5 * 60_000
    case 2 => 30 * 60_000
    case 3 => 2 * 60 * 60_000
    case 4 => 6 * 60 * 60_000
    case 5 => 12 * 60 * 60_000
  }

  datatype RowStatus = Waiting | Sending | Delivered | GivenUp

  /** What happened to a row over some span: when its first attempt ended, and whether a failure was final. */
  datatype History = History(firstTry: Option<nat>, refused: bool)

  const NO_HISTORY := History(None, false)

  /** Not stored: `life` is the history since the row was written, `series` since it was last resent. */
  datatype Row = Row(
    status: RowStatus, attempts: nat, nextTryAt: nat, createdAt: nat,
    life: History, series: History, gaveUpAt: Option<nat>)

  /** A claimed row as the worker read it. */
  datatype Claim = Claim(id: EventId, attempts: nat)

  /** A live worker: it is delivering queue[0], begun at startedAt, and has finished `done` rows of its batch. */
  datatype Worker = Worker(claimedAt: nat, startedAt: nat, done: nat, queue: seq<Claim>)

  datatype Outbox = Outbox(now: nat, rows: map<EventId, Row>, workers: map<WorkerId, Worker>)

  datatype Response = Accepted | Rejected | TooLarge | Retryable

  datatype Step =
    | Tick(ms: nat)
    | Enqueue(id: EventId)
    | ClaimDue(worker: WorkerId, ids: seq<EventId>, limit: nat)
    | Finish(worker: WorkerId, response: Response)
    | Crash(worker: WorkerId)
    | Resend(id: EventId)
    | Cleanup

  function NewRow(now: nat): Row {
    Row(Waiting, 0, now, now, NO_HISTORY, NO_HISTORY, None)
  }

  function ClampedLimit(limit: nat): nat {
    if limit < 1 then 1 else if limit > MAX_LIMIT then MAX_LIMIT else limit
  }

  predicate Due(r: Row, now: nat) {
    (r.status == Waiting || r.status == Sending) && r.nextTryAt <= now
  }

  ghost predicate Distinct(ids: seq<EventId>) {
    forall i, j :: 0 <= i < j < |ids| ==> ids[i] != ids[j]
  }

  /** What the claiming update may pick: at most `limit` due rows, each once. */
  ghost predicate Claimable(rows: map<EventId, Row>, ids: seq<EventId>, limit: nat, now: nat) {
    |ids| <= ClampedLimit(limit) && Distinct(ids)
    && forall i :: 0 <= i < |ids| ==> ids[i] in rows && Due(rows[ids[i]], now)
  }

  function Leased(rows: map<EventId, Row>, ids: seq<EventId>, now: nat): map<EventId, Row> {
    map id | id in rows :: if id in ids then rows[id].(status := Sending, nextTryAt := now + LEASE_MS) else rows[id]
  }

  function Claims(rows: map<EventId, Row>, ids: seq<EventId>): seq<Claim> {
    seq(|ids|, i requires 0 <= i < |ids| => Claim(ids[i], if ids[i] in rows then rows[ids[i]].attempts else 0))
  }

  function Tried(h: History, now: nat, isFinal: bool): History {
    History(if h.firstTry.None? then Some(now) else h.firstTry, h.refused || isFinal)
  }

  /** The write at the end of a delivery; `attempts` counts this one. */
  function Settled(r: Row, attempts: nat, response: Response, now: nat): Row
    requires attempts > 0
  {
    var isFinal := response == Rejected || response == TooLarge;
    var tried := r.(attempts := attempts, life := Tried(r.life, now, isFinal), series := Tried(r.series, now, isFinal));
    if response == Accepted then tried.(status := Delivered)
    else if isFinal || attempts > RETRIES then tried.(status := GivenUp, gaveUpAt := Some(now))
    else tried.(status := Waiting, nextTryAt := now + RetryDelay(attempts - 1))
  }

  function Requeued(r: Row, now: nat): Row {
    r.(status := Waiting, attempts := 0, nextTryAt := now, series := NO_HISTORY)
  }

  predicate Removable(r: Row, now: nat) {
    (r.status == Delivered && r.createdAt + 7 * DAY_MS < now)
    || (r.status == GivenUp && r.createdAt + 30 * DAY_MS < now)
  }

  ghost predicate InHands(workers: map<WorkerId, Worker>, id: EventId) {
    exists w, i :: w in workers && 0 <= i < |workers[w].queue| && workers[w].queue[i].id == id
  }

  /** Every live worker finishes its current delivery within the timeout, or crashes. */
  ghost predicate MayPass(q: Outbox, ms: nat) {
    forall w :: w in q.workers ==> q.now + ms <= q.workers[w].startedAt + REQUEST_TIMEOUT_MS
  }

  function Advance(workers: map<WorkerId, Worker>, w: WorkerId, now: nat): map<WorkerId, Worker>
    requires w in workers && workers[w].queue != []
  {
    var k := workers[w];
    if |k.queue| == 1 then workers - {w}
    else workers[w := k.(startedAt := now, done := k.done + 1, queue := k.queue[1..])]
  }

  /** A step that is not possible leaves the machine as it is. */
  ghost function Next(q: Outbox, s: Step): Outbox {
    match s
    case Tick(ms) => if MayPass(q, ms) then q.(now := q.now + ms) else q
    case Enqueue(id) =>
      if id !in q.rows && !InHands(q.workers, id) then q.(rows := q.rows[id := NewRow(q.now)]) else q
    case ClaimDue(w, ids, limit) =>
      if w !in q.workers && ids != [] && Claimable(q.rows, ids, limit, q.now)
      then q.(rows := Leased(q.rows, ids, q.now),
              workers := q.workers[w := Worker(q.now, q.now, 0, Claims(q.rows, ids))])
      else q
    case Finish(w, response) =>
      if w !in q.workers || q.workers[w].queue == [] then q
      else
        var c := q.workers[w].queue[0];
        if c.id !in q.rows then q.(workers := q.workers - {w}) // the update throws and ends the batch
        else q.(rows := q.rows[c.id := Settled(q.rows[c.id], c.attempts + 1, response, q.now)],
                workers := Advance(q.workers, w, q.now))
    case Crash(w) => q.(workers := q.workers - {w})
    case Resend(id) =>
      if id in q.rows && q.rows[id].status == GivenUp
      then q.(rows := q.rows[id := Requeued(q.rows[id], q.now)]) else q
    case Cleanup => q.(rows := map id | id in q.rows && !Removable(q.rows[id], q.now) :: q.rows[id])
  }

  ghost function Run(q: Outbox, steps: seq<Step>): Outbox {
    if steps == [] then q else Next(Run(q, steps[..|steps| - 1]), steps[|steps| - 1])
  }

  lemma {:induction false} RunSplit(q: Outbox, a: seq<Step>, b: seq<Step>)
    ensures Run(q, a + b) == Run(Run(q, a), b)
  {
    if b == [] {
      assert a + b == a;
    } else {
      assert (a + b)[..|a + b| - 1] == a + b[..|b| - 1];
      RunSplit(q, a, b[..|b| - 1]);
    }
  }
}
