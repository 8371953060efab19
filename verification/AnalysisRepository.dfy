/** The repository as the code runs it: row fields and ledger entries updated in place, one
    conditional UPDATE at a time, each proved equal to its transaction of AnalysisRows. */
module AnalysisRepository {
  import opened Basics
  import opened AnalysisRows
  import opened AnalysisProtocol
  import opened AnalysisFacts

  class CallAnalysisRepository {
    const st: Settings
    var rows: map<nat, Row>
    var ledger: map<int, int>

    constructor (st: Settings)
      ensures this.st == st && Contents() == Db(map[], map[])
    {
      this.st := st;
      rows, ledger := map[], map[];
    }

    function Contents(): Db
      reads this
    {
      Db(rows, ledger)
    }

    /** One atomic conditional upsert on the day's ledger row. */
    method ReserveBudget(id: nat, now: real) returns (decision: Reservation)
      requires id in rows
      modifies this
      ensures (decision, Contents()) == Reserve(st, old(Contents()), id, now)
      ensures decision.NotConfigured? || decision.CapReached? <==> OutOfBudget(st, old(rows)[id], old(ledger), now)
      ensures st.budgetRequired && decision.Reserved? && old(rows)[id].reserved.None? ==>
        var day := BudgetDay(st, now);
        && st.estimate.Some? && rows == old(rows)[id := old(rows)[id].(budgetDay := Some(day), reserved := st.estimate)]
        && ledger == old(ledger)[day := (if day in old(ledger) then old(ledger)[day] else 0) + st.estimate.value]
      ensures !st.budgetRequired || !decision.Reserved? || old(rows)[id].reserved.Some? ==>
        rows == old(rows) && ledger == old(ledger)
    {
      if !st.budgetRequired { return NotRequired; }
      if rows[id].reserved.Some? { return Reserved; }
      if st.dailyCap.None? || st.estimate.None? { return NotConfigured; }
      var cost := st.estimate.value;
      if cost > st.dailyCap.value { return CapReached; }
      var day := BudgetDay(st, now);
      if day !in ledger {
        ledger := ledger[day := cost];
      } else if ledger[day] + cost <= st.dailyCap.value {
        ledger := ledger[day := ledger[day] + cost];
      } else {
        return CapReached;
      }
      rows := rows[id := rows[id].(budgetDay := Some(day), reserved := Some(cost))];
      return Reserved;
    }

    /** Claim and reservation share a savepoint; a refused reservation un-claims the row and then
        defers it. */
    method ClaimForProcessing(id: nat, now: real, token: nat) returns (result: ClaimResult)
      modifies this
      ensures result == ClaimTxn(st, old(Contents()), id, now, token).0
      ensures Contents() == (if result.Deferred? then DeferTxn(st, old(Contents()), id, now)
                             else ClaimTxn(st, old(Contents()), id, now, token).1)
      ensures result.NotClaimable? <==> !(id in old(rows) && Ready(st, old(rows)[id], now))
      ensures result.Deferred? <==>
        id in old(rows) && Ready(st, old(rows)[id], now) && OutOfBudget(st, old(rows)[id], old(ledger), now)
      ensures result.Claimed? ==>
        && SameExcept(old(rows), rows, id) && Taken(st, old(rows)[id], rows[id], now, token)
        && result.attempts == old(rows)[id].attempts + 1
        && (if st.budgetRequired && old(rows)[id].reserved.None? then
              var day := BudgetDay(st, now);
              && st.estimate.Some? && rows[id].budgetDay == Some(day) && rows[id].reserved == st.estimate
              && ledger == old(ledger)[day := (if day in old(ledger) then old(ledger)[day] else 0) + st.estimate.value]
            else rows[id].budgetDay == old(rows)[id].budgetDay && rows[id].reserved == old(rows)[id].reserved
                 && ledger == old(ledger))
      ensures result.Deferred? ==>
        && ledger == old(ledger) && SameExcept(old(rows), rows, id)
        && rows[id] == if old(rows)[id].status == Processing then old(rows)[id]
                       else old(rows)[id].(nextAt := Some(now + st.recheck))
      ensures result.NotClaimable? ==> rows == old(rows) && ledger == old(ledger)
    {
      var savedRows, savedLedger := rows, ledger;
      if id !in rows || !Claimable(st, rows[id], now) { return NotClaimable; }
      rows := rows[id := ClaimedRow(st, rows[id], now, token)];
      var decision := ReserveBudget(id, now);
      if decision.NotConfigured? || decision.CapReached? {
        rows, ledger := savedRows, savedLedger;
        Defer(id, now);
        return ClaimResult.Deferred;
      }
      return Claimed(rows[id].attempts);
    }

    method Defer(id: nat, now: real)
      modifies this
      ensures Contents() == DeferTxn(st, old(Contents()), id, now)
      ensures ledger == old(ledger)
      ensures rows == if id in old(rows) && old(rows)[id].status in {Pending, RetryWait}
                      then old(rows)[id := old(rows)[id].(nextAt := Some(now + st.recheck))] else old(rows)
    {
      if id in rows && (rows[id].status.Pending? || rows[id].status.RetryWait?) {
        rows := rows[id := rows[id].(nextAt := Some(now + st.recheck))];
      }
    }

    /** WHERE id AND claim_token AND status = processing; tells whether a row matched. */
    method Fenced(id: nat, token: nat, values: Row -> Row) returns (applied: bool)
      modifies this
      ensures applied == Owns(old(Contents()), id, token)
      ensures ledger == old(ledger)
      ensures rows == if applied then old(rows)[id := values(old(rows)[id])] else old(rows)
    {
      applied := id in rows && rows[id].token == Some(token) && rows[id].status.Processing?;
      if applied {
        rows := rows[id := values(rows[id])];
      }
    }

    method RenewLease(id: nat, token: nat, now: real) returns (applied: bool)
      modifies this
      ensures applied == Owns(old(Contents()), id, token)
      ensures Contents() == FencedTxn(old(Contents()), id, token, Renew(now + st.leaseSeconds))
      ensures applied <==> HeldUnder(old(rows), id, token)
      ensures ledger == old(ledger)
      ensures rows == if applied then old(rows)[id := old(rows)[id].(lease := Some(now + st.leaseSeconds))] else old(rows)
    {
      var until := now + st.leaseSeconds;
      applied := Fenced(id, token, (r: Row) => r.(lease := Some(until)));
    }

    method Complete(id: nat, token: nat) returns (applied: bool)
      modifies this
      ensures applied == Owns(old(Contents()), id, token)
      ensures Contents() == FencedTxn(old(Contents()), id, token, Write.Complete)
      ensures applied <==> HeldUnder(old(rows), id, token)
      ensures ledger == old(ledger) && (!applied ==> rows == old(rows))
      ensures applied ==>
        && SameExcept(old(rows), rows, id) && rows[id].reserved == old(rows)[id].reserved
        && LetGo(old(rows)[id], rows[id], Completed, old(rows)[id].attempts, None)
    {
      applied := Fenced(id, token, (r: Row) =>
        r.(status := Completed, token := None, lease := None, nextAt := None));
    }

    method ScheduleRetry(id: nat, token: nat, nextAt: real, refundAttempt: bool) returns (applied: bool)
      modifies this
      ensures applied == Owns(old(Contents()), id, token)
      ensures Contents() == FencedTxn(old(Contents()), id, token, Retry(nextAt, refundAttempt))
      ensures applied <==> HeldUnder(old(rows), id, token)
      ensures ledger == old(ledger) && (!applied ==> rows == old(rows))
      ensures applied ==>
        && SameExcept(old(rows), rows, id) && rows[id].reserved == old(rows)[id].reserved
        && LetGo(old(rows)[id], rows[id], RetryWait,
                 if refundAttempt then old(rows)[id].attempts - 1 else old(rows)[id].attempts, Some(nextAt))
    {
      applied := Fenced(id, token, (r: Row) =>
        r.(status := RetryWait, nextAt := Some(nextAt), token := None, lease := None,
           attempts := if refundAttempt then r.attempts - 1 else r.attempts));
    }

    method Fail(id: nat, token: nat) returns (applied: bool)
      modifies this
      ensures applied == Owns(old(Contents()), id, token)
      ensures Contents() == FencedTxn(old(Contents()), id, token, Write.Fail)
      ensures applied <==> HeldUnder(old(rows), id, token)
      ensures ledger == old(ledger) && (!applied ==> rows == old(rows))
      ensures applied ==>
        && SameExcept(old(rows), rows, id) && rows[id].reserved == old(rows)[id].reserved
        && LetGo(old(rows)[id], rows[id], Status.Failed, old(rows)[id].attempts, None)
    {
      applied := Fenced(id, token, (r: Row) =>
        r.(status := Failed, token := None, lease := None, nextAt := None));
    }

    /** Reads the reservation first, then writes, then returns what it read to the ledger. */
    method Skip(id: nat, token: nat, releaseBudget: bool) returns (applied: bool)
      modifies this
      ensures applied == Owns(old(Contents()), id, token)
      ensures id in old(rows) ==>
        Contents() == FencedTxn(old(Contents()), id, token,
          Write.Skip(releaseBudget, old(rows)[id].budgetDay, old(rows)[id].reserved))
      ensures id !in old(rows) ==> Contents() == old(Contents())
      ensures applied <==> HeldUnder(old(rows), id, token)
      ensures !applied ==> rows == old(rows) && ledger == old(ledger)
      ensures applied ==>
        && SameExcept(old(rows), rows, id)
        && LetGo(old(rows)[id], rows[id], Skipped, old(rows)[id].attempts, None)
        && (if releaseBudget
            then ledger == GivenBack(old(ledger), old(rows)[id])
                 && (old(rows)[id].reserved.Some? ==> rows[id].reserved == Some(0))
                 && (old(rows)[id].reserved.None? ==> rows[id].reserved.None?)
            else ledger == old(ledger) && rows[id].reserved == old(rows)[id].reserved)
    {
      var budgetDay: Option<int>, reserved: Option<int> := None, None;
      if id in rows {
        budgetDay, reserved := rows[id].budgetDay, rows[id].reserved;
      }
      var zero := releaseBudget && reserved.Some? && reserved.value != 0;
      applied := Fenced(id, token, (r: Row) =>
        r.(status := Skipped, token := None, lease := None, nextAt := None,
           reserved := if zero then Some(0) else r.reserved));
      if applied && releaseBudget {
        ReturnBudget(budgetDay, reserved);
      }
    }

    method ReturnBudget(day: Option<int>, cost: Option<int>)
      modifies this
      ensures rows == old(rows) && ledger == ReleaseBudget(old(ledger), day, cost)
    {
      if day.None? || cost.None? || cost.value <= 0 || day.value !in ledger { return; }
      var left := ledger[day.value] - cost.value;
      ledger := ledger[day.value := if left >= 0 then left else 0];
    }

    /** Any LIMIT rows of a query result. */
    static method TakeUpTo(matching: set<nat>, limit: nat) returns (ids: set<nat>)
      ensures ids <= matching && |ids| <= limit
      ensures |ids| < limit ==> ids == matching
    {
      ids := {};
      var left := matching;
      while left != {} && |ids| < limit
        invariant left + ids == matching && left !! ids && |ids| <= limit
        decreases left
      {
        var id :| id in left;
        left, ids := left - {id}, ids + {id};
      }
    }

    /** Picks at most `limit` matching rows that no other transaction has locked, then fails them all in
        one UPDATE. */
    method FinalizeExhausted(now: real, only: Option<nat>, limit: nat, locked: set<nat>)
      returns (count: nat, ghost chosen: set<nat>)
      modifies this
      ensures Contents() == FinalizeTxn(st, old(Contents()), chosen, now)
      ensures count == |chosen| <= limit
      ensures forall id :: id in chosen ==>
        id in old(rows) && id !in locked && Exhausted(st, old(rows)[id], now) && (only.Some? ==> id == only.value)
      ensures count < limit ==>
        forall id ::
          (id in old(rows) && id !in locked && (only.Some? ==> id == only.value)
           && Exhausted(st, old(rows)[id], now)) ==> id in chosen
      ensures ledger == old(ledger) && rows.Keys == old(rows).Keys
      ensures forall id :: id in rows ==>
        if id in chosen then LetGo(old(rows)[id], rows[id], Status.Failed, old(rows)[id].attempts, None)
                             && rows[id].reserved == old(rows)[id].reserved
        else rows[id] == old(rows)[id]
    {
      forall r: Row ensures Finalizable(st, r, now) == Exhausted(st, r, now)
        ensures LetGo(r, FinalizedRow(r), Status.Failed, r.attempts, None) && FinalizedRow(r).reserved == r.reserved {
      }
      hide Finalizable, FinalizedRow, Exhausted, LetGo;
      var matching := set id | id in rows && id !in locked && Finalizable(st, rows[id], now) && (only.Some? ==> id == only.value);
      var ids := TakeUpTo(matching, limit);
      chosen, count := ids, |ids|;
      assert Contents().rows == rows;
      if ids == {} {
        assert FinalizeTxn(st, Contents(), {}, now).rows == rows;
        return;
      }
      rows := map id | id in rows :: if id in ids then FinalizedRow(rows[id]) else rows[id];
      assert rows == FinalizeTxn(st, old(Contents()), chosen, now).rows;
    }

    /** The publish pass of a sweep, in order of due time over the rows no
        other transaction has locked. `accepts` says for which rows the queue takes
        the job; the first refusal ends the pass. A row is marked published only if its job really was
        queued. */
    method PublishDue(now: real, batch: nat, locked: set<nat>, accepts: nat -> bool)
      returns (ghost published: set<nat>, error: bool)
      modifies this
      ensures ledger == old(ledger) && rows == Published(old(rows), published, now) && |published| <= batch
      ensures rows.Keys == old(rows).Keys
      ensures forall id :: id in rows ==>
        rows[id] == if id in published then old(rows)[id].(lastEnqueued := Some(now)) else old(rows)[id]
      ensures forall id :: id in published ==>
        id in old(rows) && id !in locked && WantsJob(st, old(rows)[id], now) && accepts(id)
      ensures forall id, later ::
        (id in published && later in old(rows) && later !in locked && later !in published
         && WantsJob(st, old(rows)[later], now)) ==> DueNoLater(old(rows)[id], old(rows)[later])
      ensures !error && |published| < batch ==>
        forall id :: id in old(rows) && id !in locked && WantsJob(st, old(rows)[id], now) ==> id in published
      ensures error ==> exists id :: id in old(rows) && WantsJob(st, old(rows)[id], now) && !accepts(id)
    {
      hide WantsJob, Published;
      published, error := {}, false;
      ghost var due := set id | id in rows && id !in locked && WantsJob(st, rows[id], now);
      var left, sent := set id | id in rows && id !in locked && WantsJob(st, rows[id], now), 0;
      NonePublished(rows, now);
      while left != {} && sent < batch
        invariant ledger == old(ledger) && rows == Published(old(rows), published, now)
        invariant sent == |published| <= batch && left <= due
        invariant forall id :: id in published ==> id in due && id !in left && accepts(id)
        invariant forall id :: id in due ==> id in left || id in published
        invariant forall id, later :: id in published && later in left ==> DueNoLater(old(rows)[id], old(rows)[later])
        decreases left
      {
        SameDueTimes(old(rows), published, now);
        var id := Earliest(rows, left);
        assert id in due && id in old(rows);
        if !accepts(id) {
          error := true;
          PublishedRows(old(rows), published, now);
          return;
        }
        OneMorePublished(old(rows), published, id, now);
        rows := rows[id := rows[id].(lastEnqueued := Some(now))];
        left, published, sent := left - {id}, published + {id}, sent + 1;
      }
      PublishedRows(old(rows), published, now);
    }
  }

  /** coalesce(next_attempt_at, created_at) */
  function DueTime(r: Row): real { if r.nextAt.Some? then r.nextAt.value else r.createdAt }

  method Earliest(rows: map<nat, Row>, ids: set<nat>) returns (id: nat)
    requires ids != {} && ids <= rows.Keys
    ensures id in ids && forall other :: other in ids ==> DueNoLater(rows[id], rows[other])
  {
    id :| id in ids;
    var rest := ids - {id};
    while rest != {}
      invariant rest <= ids && id in ids
      invariant forall other :: other in ids && other !in rest ==> DueTime(rows[id]) <= DueTime(rows[other])
      decreases |rest|
    {
      var other :| other in rest;
      if DueTime(rows[other]) < DueTime(rows[id]) {
        id := other;
      }
      rest := rest - {other};
    }
  }

  lemma SameDueTimes(rows: map<nat, Row>, ids: set<nat>, now: real)
    ensures var u := Published(rows, ids, now);
      u.Keys == rows.Keys && forall id, other :: id in rows && other in rows ==>
        (DueNoLater(u[id], u[other]) <==> DueNoLater(rows[id], rows[other]))
  {
  }

  /** The rows with exactly the given ones marked as published. */
  function Published(rows: map<nat, Row>, ids: set<nat>, now: real): map<nat, Row>
  {
    map id | id in rows :: if id in ids then rows[id].(lastEnqueued := Some(now)) else rows[id]
  }

  lemma PublishedRows(rows: map<nat, Row>, ids: set<nat>, now: real)
    ensures Published(rows, ids, now).Keys == rows.Keys
    ensures forall id :: id in rows ==>
      Published(rows, ids, now)[id] == if id in ids then rows[id].(lastEnqueued := Some(now)) else rows[id]
  {
  }

  lemma NonePublished(rows: map<nat, Row>, now: real)
    ensures Published(rows, {}, now) == rows
  {
  }

  lemma OneMorePublished(rows: map<nat, Row>, ids: set<nat>, id: nat, now: real)
    requires id in rows
    ensures var u := Published(rows, ids, now);
      id in u && Published(rows, ids + {id}, now) == u[id := u[id].(lastEnqueued := Some(now))]
  {
  }
}
