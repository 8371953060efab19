/** The analysis table and its daily cost ledger. Every function below is one atomic
    conditional UPDATE (or one transaction whose savepoint is rolled back on refusal). */
module AnalysisRows {
  import opened Basics

  datatype Status = Pending | Processing | RetryWait | Completed | Failed | Skipped

  predicate Terminal(s: Status) { s.Completed? || s.Failed? || s.Skipped? }

  datatype Row = Row(
    status: Status,
    attempts: int,
    token: Option<nat>,        // fencing token of the current claim
    lease: Option<real>,
    nextAt: Option<real>,
    startedAt: Option<real>,   // time of the latest claim
    createdAt: real,
    lastEnqueued: Option<real>,
    budgetDay: Option<int>,
    reserved: Option<int>)

  datatype Db = Db(rows: map<nat, Row>, ledger: map<int, int>)

  datatype Settings = Settings(
    maxAttempts: int,
    leaseSeconds: real,
    base: int,                 // analysis_retry_base_seconds
    cap: int,                  // analysis_retry_max_seconds
    deadline: int,             // analysis_qa_ready_deadline_seconds
    recheck: real,
    republishAfter: real,
    budgetRequired: bool,      // false for the mock provider
    dailyCap: Option<int>,
    estimate: Option<int>,
    dayShift: real)            // fixed offset of the budget time zone

  /** What the settings validation accepts. */
  predicate Valid(st: Settings)
  {
    && st.maxAttempts > 0 && st.leaseSeconds > 0.0 && 0 < st.base <= st.cap && st.deadline > 0
    && st.recheck > 0.0 && st.republishAfter > 0.0
    && st.dailyCap.Some? == st.estimate.Some?
    && (st.dailyCap.Some? ==> st.dailyCap.value >= 0 && st.estimate.value >= 0)
  }

  function BudgetDay(st: Settings, now: real): int { ((now + st.dayShift) / 86400.0).Floor }

  // ---- claim and reservation ----------------------------------------------------------------

  predicate Claimable(st: Settings, r: Row, now: real)
  {
    && r.attempts < st.maxAttempts
    && (|| (r.status.Pending? && (r.nextAt.None? || r.nextAt.value <= now))
        || (r.status.RetryWait? && r.nextAt.Some? && r.nextAt.value <= now)
        || (r.status.Processing? && r.lease.Some? && r.lease.value < now))
  }

  function ClaimedRow(st: Settings, r: Row, now: real, token: nat): Row
  {
    r.(status := Processing, attempts := r.attempts + 1, token := Some(token),
       lease := Some(now + st.leaseSeconds), startedAt := Some(now), nextAt := None)
  }

  datatype Reservation = Reserved | NotRequired | NotConfigured | CapReached

  function LedgerOf(db: Db, day: int): int { if day in db.ledger then db.ledger[day] else 0 }

  function Reserve(st: Settings, db: Db, id: nat, now: real): (Reservation, Db)
    requires id in db.rows
  {
    if !st.budgetRequired then (NotRequired, db)
    else if db.rows[id].reserved.Some? then (Reserved, db)
    else if st.dailyCap.None? || st.estimate.None? then (NotConfigured, db)
    else
      var cost := st.estimate.value;
      var day := BudgetDay(st, now);
      // The first insert of a day is unconditional, so an estimate above the cap is refused first.
      if cost > st.dailyCap.value then (CapReached, db)
      else if day in db.ledger && db.ledger[day] + cost > st.dailyCap.value then (CapReached, db)
      else (Reserved, Db(
              db.rows[id := db.rows[id].(budgetDay := Some(day), reserved := Some(cost))],
              db.ledger[day := LedgerOf(db, day) + cost]))
  }

  datatype ClaimResult = NotClaimable | Deferred | Claimed(attempts: int)

  function ClaimTxn(st: Settings, db: Db, id: nat, now: real, token: nat): (ClaimResult, Db)
  {
    if id !in db.rows || !Claimable(st, db.rows[id], now) then (NotClaimable, db)
    else
      var claimed := ClaimedRow(st, db.rows[id], now, token);
      var (decision, after) := Reserve(st, db.(rows := db.rows[id := claimed]), id, now);
      if decision.NotConfigured? || decision.CapReached? then (Deferred, db)
      else (Claimed(claimed.attempts), after)
  }

  function DeferTxn(st: Settings, db: Db, id: nat, now: real): Db
  {
    if id in db.rows && (db.rows[id].status.Pending? || db.rows[id].status.RetryWait?)
    then db.(rows := db.rows[id := db.rows[id].(nextAt := Some(now + st.recheck))])
    else db
  }

  // ---- fenced writes ------------------------------------------------------------------------

  datatype Write =
    | Renew(until: real)
    | Complete
    | Retry(nextAt: real, refund: bool)
    | Fail
      // A skip returns the reservation it READ before its update.
    | Skip(releaseBudget: bool, readDay: Option<int>, readReserved: Option<int>)

  predicate Owns(db: Db, id: nat, token: nat)
  {
    id in db.rows && db.rows[id].token == Some(token) && db.rows[id].status.Processing?
  }

  function Unclaimed(r: Row, status: Status, nextAt: Option<real>): Row
  {
    r.(status := status, token := None, lease := None, nextAt := nextAt)
  }

  predicate Truthy(cost: Option<int>) { cost.Some? && cost.value != 0 }

  function WrittenRow(r: Row, w: Write): Row
  {
    match w
    case Renew(until) => r.(lease := Some(until))
    case Complete => Unclaimed(r, Completed, None)
    case Retry(nextAt, refund) =>
      Unclaimed(r, RetryWait, Some(nextAt)).(attempts := if refund then r.attempts - 1 else r.attempts)
    case Fail => Unclaimed(r, Failed, None)
    case Skip(release, _, readReserved) =>
      var skipped := Unclaimed(r, Skipped, None);
      if release && Truthy(readReserved) then skipped.(reserved := Some(0)) else skipped
  }

  function ClampedMinus(a: int, b: int): int { if a - b >= 0 then a - b else 0 }

  function ReleaseBudget(ledger: map<int, int>, day: Option<int>, cost: Option<int>): map<int, int>
  {
    if day.None? || !Truthy(cost) || cost.value <= 0 || day.value !in ledger then ledger
    else ledger[day.value := ClampedMinus(ledger[day.value], cost.value)]
  }

  function FencedTxn(db: Db, id: nat, token: nat, w: Write): Db
  {
    if !Owns(db, id, token) then db
    else Db(db.rows[id := WrittenRow(db.rows[id], w)],
            if w.Skip? && w.releaseBudget then ReleaseBudget(db.ledger, w.readDay, w.readReserved)
            else db.ledger)
  }

  // ---- sweeper predicates -------------------------------------------------------------------

  predicate Finalizable(st: Settings, r: Row, now: real)
  {
    && r.attempts >= st.maxAttempts
    && (|| r.status.Pending? || r.status.RetryWait?
        || (r.status.Processing? && r.lease.Some? && r.lease.value < now))
  }

  function FinalizedRow(r: Row): Row { Unclaimed(r, Failed, None) }

  /** Finalize the chosen rows; the choice models the batch limit and locked rows being skipped. */
  function FinalizeTxn(st: Settings, db: Db, chosen: set<nat>, now: real): Db
  {
    db.(rows := map id | id in db.rows ::
      if id in chosen && Finalizable(st, db.rows[id], now) then FinalizedRow(db.rows[id]) else db.rows[id])
  }

  predicate Publishable(st: Settings, r: Row, now: real)
  {
    || (&& (r.status.Pending? || r.status.RetryWait?)
        && (r.nextAt.None? || r.nextAt.value <= now)
        && (|| r.lastEnqueued.None?
            || r.lastEnqueued.value < now - st.republishAfter
            || (r.nextAt.Some? && r.lastEnqueued.value < r.nextAt.value)))
    || (r.status.Processing? && r.lease.Some? && r.lease.value < now && r.attempts < st.maxAttempts)
  }
}
