/** What the statements on an analysis row mean, field by field. The conditions and results are written out
    here once more, independently of the transactions of AnalysisRows; the repository and the worker are
    proved to meet both. */
module AnalysisFacts {
  import opened Basics
  import opened AnalysisRows
  import opened AnalysisTiming

  // ---- conditions ---------------------------------------------------------------------------

  /** PROCESSING under this very token. */
  predicate HeldUnder(rows: map<nat, Row>, id: nat, token: nat)
  {
    id in rows && rows[id].status == Processing && rows[id].token == Some(token)
  }

  predicate LeaseOver(r: Row, now: real) { r.status == Processing && r.lease.Some? && r.lease.value < now }

  /** Attempts are left, and the row waits with nothing due later, or its owner let the lease run out. */
  predicate Ready(st: Settings, r: Row, now: real)
  {
    r.attempts < st.maxAttempts
    && match r.status
       case Pending => r.nextAt.Some? ==> r.nextAt.value <= now
       case RetryWait => r.nextAt.Some? && r.nextAt.value <= now
       case Processing => LeaseOver(r, now)
       case _ => false
  }

  /** No attempt is left and nobody is at work on the row. */
  predicate Exhausted(st: Settings, r: Row, now: real)
  {
    r.attempts >= st.maxAttempts && (r.status == Pending || r.status == RetryWait || LeaseOver(r, now))
  }

  /** The row waits, is due, and was not put on the queue since it fell due or within the republish interval;
      or its owner let the lease run out with attempts left. */
  predicate WantsJob(st: Settings, r: Row, now: real)
  {
    || (LeaseOver(r, now) && r.attempts < st.maxAttempts)
    || (&& (r.status == Pending || r.status == RetryWait)
        && (r.nextAt.Some? ==> r.nextAt.value <= now)
        && (r.lastEnqueued.Some? ==>
              || now - r.lastEnqueued.value > st.republishAfter
              || (r.nextAt.Some? && r.nextAt.value > r.lastEnqueued.value)))
  }

  /** Due no later: by its due time, or if it has none since it was created. */
  predicate DueNoLater(r: Row, q: Row)
  {
    match r.nextAt
    case Some(at) => (match q.nextAt case Some(other) => at <= other case None => at <= q.createdAt)
    case None => (match q.nextAt case Some(other) => r.createdAt <= other case None => r.createdAt <= q.createdAt)
  }

  /** The budget applies, the row has no reservation yet, and there is none to be had: not configured, or above
      the day's cap. */
  predicate OutOfBudget(st: Settings, r: Row, ledger: map<int, int>, now: real)
  {
    st.budgetRequired && r.reserved.None?
    && (|| st.dailyCap.None? || st.estimate.None?
        || (if BudgetDay(st, now) in ledger then ledger[BudgetDay(st, now)] else 0) + st.estimate.value > st.dailyCap.value
        || st.estimate.value > st.dailyCap.value)
  }

  /** The budget's day holds the instant. */
  lemma BudgetDayHolds(st: Settings, now: real)
    ensures var day := BudgetDay(st, now) as real;
      86400.0 * day <= now + st.dayShift < 86400.0 * day + 86400.0
  {
    var x := (now + st.dayShift) / 86400.0;
    assert x.Floor as real <= x < x.Floor as real + 1.0;
    assert now + st.dayShift == 86400.0 * x;
  }

  /** The conditions the transactions go by are these. */
  lemma ConditionsAgree(st: Settings, r: Row, now: real)
    ensures Claimable(st, r, now) <==> Ready(st, r, now)
    ensures Finalizable(st, r, now) <==> Exhausted(st, r, now)
    ensures Publishable(st, r, now) <==> WantsJob(st, r, now)
  {
  }

  // ---- results ------------------------------------------------------------------------------

  /** Claimed: one attempt more, owned under the token for one lease. */
  predicate Taken(st: Settings, r: Row, q: Row, now: real, token: nat)
  {
    && q.status == Processing && q.attempts == r.attempts + 1 && q.token == Some(token)
    && q.lease == Some(now + st.leaseSeconds) && q.startedAt == Some(now) && q.nextAt == None
    && q.createdAt == r.createdAt && q.lastEnqueued == r.lastEnqueued
  }

  /** Let go of: no owner, no lease; the status, attempts and due time given; the history as it was. */
  predicate LetGo(r: Row, q: Row, status: Status, attempts: int, nextAt: Option<real>)
  {
    && q.status == status && q.attempts == attempts && q.token == None && q.lease == None && q.nextAt == nextAt
    && q.startedAt == r.startedAt && q.createdAt == r.createdAt && q.lastEnqueued == r.lastEnqueued
    && q.budgetDay == r.budgetDay
  }

  predicate SameExcept(before: map<nat, Row>, after: map<nat, Row>, id: nat)
  {
    id in before && id in after && after == before[id := after[id]]
  }

  /** The reservation a row carries goes back to its day, never below zero. */
  function GivenBack(ledger: map<int, int>, r: Row): (after: map<int, int>)
    ensures after.Keys == ledger.Keys
    ensures forall day :: day in ledger && r.budgetDay != Some(day) ==> after[day] == ledger[day]
    ensures forall day :: day in ledger && r.budgetDay == Some(day) && r.reserved.Some? && r.reserved.value > 0 ==>
      after[day] == if ledger[day] >= r.reserved.value then ledger[day] - r.reserved.value else 0
  {
    if r.budgetDay.None? || r.reserved.None? || r.reserved.value <= 0 || r.budgetDay.value !in ledger then ledger
    else
      var day := r.budgetDay.value;
      ledger[day := if ledger[day] - r.reserved.value < 0 then 0 else ledger[day] - r.reserved.value]
  }

  // ---- what a conclusion comes to -----------------------------------------------------------

  /** There is nothing to analyse: no usable input, no QA ever, or none within the deadline. */
  predicate NothingToAnalyse(st: Settings, unavailable: bool, notReady: bool, createdAt: real, now: real)
  {
    unavailable || (notReady && now - createdAt >= st.deadline as real)
  }

  /** The failure is final: permanent, or the last attempt. */
  predicate GivesUp(st: Settings, permanent: bool, attempts: int) { permanent || attempts >= st.maxAttempts }
}
