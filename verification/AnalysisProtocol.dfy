/** The post-call analysis protocol: any number of workers, sweepers and crashes over one table.
    Each worker runs claim, (deferral | renewal, conclusion, fenced write), and may stop for
    ever between any two of those statements. One monotone clock; tokens come from a supply
    that never repeats. */
module AnalysisProtocol {
  import opened Basics
  import opened AnalysisRows
  import opened AnalysisTiming

  /** What happened to one row so far. A late deferral is a budget deferral that lands after
      another worker's claim got in between the refused claim and the deferral's own UPDATE. */
  datatype History = History(claims: int, refunds: int, late: int, terminals: int, reservations: int)

  datatype Pc =
    | Idle
    | Deferring(id: nat, now: real)
    | Working(id: nat, token: nat, attempts: int, createdAt: real)
    | Writing(id: nat, token: nat, attempts: int, createdAt: real, at: real, write: Write)

  datatype Sys = Sys(
    clock: real,
    nextToken: nat,
    db: Db,
    workers: map<nat, Pc>,
    history: map<nat, History>)

  datatype FailureKind = Transient | RateLimited | InvalidOutput | Permanent | QaNotReady | QaUnavailable

  datatype Outcome =
    | Success
    | UnusableInput
    | Failure(kind: FailureKind, retryAfter: Option<int>, jitter: real)

  function PcOf(s: Sys, w: nat): Pc { if w in s.workers then s.workers[w] else Idle }

  function Moved(s: Sys, w: nat, pc: Pc): Sys { s.(workers := s.workers[w := pc]) }

  /** The write a worker settles on, from what it remembers of its own claim. */
  function Decide(st: Settings, r: Row, attempts: int, createdAt: real, now: real, o: Outcome): Write
  {
    var skip := Skip(true, r.budgetDay, r.reserved);
    match o
    case Success => Complete
    case UnusableInput => skip
    case Failure(kind, retryAfter, jitter) =>
      if kind.QaUnavailable? then skip
      else if kind.QaNotReady? then
        var elapsed := now - createdAt;
        if elapsed >= st.deadline as real then skip
        else Retry(now + PollDelay(elapsed, st.base as real, st.cap as real, jitter), true)
      else if kind.Permanent? || attempts >= st.maxAttempts then Fail
      else Retry(now + BackoffDelay(attempts, st.base as real, st.cap as real, retryAfter, jitter), false)
  }

  // ---- transitions --------------------------------------------------------------------------

  datatype Step =
    | Tick(elapsed: real)
    | Register(id: nat, delay: Option<real>, published: bool)
    | TryClaim(w: nat, id: nat)
    | FinishDeferral(w: nat)
    | RenewLease(w: nat)
    | Conclude(w: nat, outcome: Outcome)
    | Commit(w: nat)
    | Crash(w: nat)
    | Finalize(chosen: set<nat>)
    | Publish(id: nat)

  ghost predicate Enabled(st: Settings, s: Sys, step: Step)
  {
    match step
    case Tick(elapsed) => elapsed >= 0.0
    case Register(id, _, _) => id !in s.db.rows
    case TryClaim(w, _) => PcOf(s, w).Idle?
    case FinishDeferral(w) => PcOf(s, w).Deferring?
    case RenewLease(w) => PcOf(s, w).Working?
    case Conclude(w, o) =>
      PcOf(s, w).Working? && PcOf(s, w).id in s.db.rows && (o.Failure? ==> 0.0 <= o.jitter <= 1.0)
    case Commit(w) => PcOf(s, w).Writing?
    case Crash(_) => true
    case Finalize(_) => true
    case Publish(id) => id in s.db.rows && Publishable(st, s.db.rows[id], s.clock)
  }

  function NewRow(now: real, delay: Option<real>, published: bool): Row
  {
    Row(Pending, 0, None, None, if delay.Some? then Some(now + delay.value) else None, None, now,
        if published then Some(now) else None, None, None)
  }

  function HistoryOf(s: Sys, id: nat): History
  {
    if id in s.history then s.history[id] else History(0, 0, 0, 0, 0)
  }

  function AfterClaim(st: Settings, s: Sys, w: nat, id: nat): Sys
  {
    var (result, db) := ClaimTxn(st, s.db, id, s.clock, s.nextToken);
    match result
    case NotClaimable => s
    case Deferred => Moved(s, w, Deferring(id, s.clock))
    case Claimed(attempts) =>
      var h := HistoryOf(s, id);
      var reserves := if db.rows[id].reserved != s.db.rows[id].reserved then 1 else 0;
      Moved(s, w, Working(id, s.nextToken, attempts, s.db.rows[id].createdAt))
        .(db := db, nextToken := s.nextToken + 1,
          history := s.history[id := h.(claims := h.claims + 1, reservations := h.reservations + reserves)])
  }

  function AfterDeferral(st: Settings, s: Sys, w: nat, pc: Pc): Sys
    requires pc.Deferring?
  {
    var db := DeferTxn(st, s.db, pc.id, pc.now);
    var h := HistoryOf(s, pc.id);
    var late := if db != s.db && s.db.rows[pc.id].reserved.Some? then 1 else 0;
    Moved(s, w, Idle).(db := db, history := s.history[pc.id := h.(late := h.late + late)])
  }

  function AfterCommit(s: Sys, w: nat, pc: Pc): Sys
    requires pc.Writing?
  {
    var h := HistoryOf(s, pc.id);
    var applied := Owns(s.db, pc.id, pc.token);
    var ends := if applied && (pc.write.Complete? || pc.write.Fail? || pc.write.Skip?) then 1 else 0;
    var refunds := if applied && pc.write.Retry? && pc.write.refund then 1 else 0;
    Moved(s, w, Idle).(
      db := FencedTxn(s.db, pc.id, pc.token, pc.write),
      history := s.history[pc.id := h.(terminals := h.terminals + ends, refunds := h.refunds + refunds)])
  }

  function AfterFinalize(st: Settings, s: Sys, chosen: set<nat>): Sys
  {
    s.(db := FinalizeTxn(st, s.db, chosen, s.clock),
       history := map id | id in s.history ::
         if id in chosen && id in s.db.rows && Finalizable(st, s.db.rows[id], s.clock)
         then s.history[id].(terminals := s.history[id].terminals + 1) else s.history[id])
  }

  function AfterRegister(s: Sys, id: nat, delay: Option<real>, published: bool): Sys
  {
    s.(db := s.db.(rows := s.db.rows[id := NewRow(s.clock, delay, published)]),
       history := s.history[id := History(0, 0, 0, 0, 0)])
  }

  function AfterRenewal(st: Settings, s: Sys, w: nat, pc: Pc): Sys
    requires pc.Working?
  {
    if Owns(s.db, pc.id, pc.token)
    then s.(db := FencedTxn(s.db, pc.id, pc.token, Renew(s.clock + st.leaseSeconds)))
    else Moved(s, w, Idle)
  }

  function AfterConclusion(st: Settings, s: Sys, w: nat, pc: Pc, o: Outcome): Sys
    requires pc.Working? && pc.id in s.db.rows
  {
    Moved(s, w, Writing(pc.id, pc.token, pc.attempts, pc.createdAt, s.clock,
                        Decide(st, s.db.rows[pc.id], pc.attempts, pc.createdAt, s.clock, o)))
  }

  function AfterPublish(s: Sys, id: nat): Sys
    requires id in s.db.rows
  {
    s.(db := s.db.(rows := s.db.rows[id := s.db.rows[id].(lastEnqueued := Some(s.clock))]))
  }

  ghost function Apply(st: Settings, s: Sys, step: Step): Sys
    requires Enabled(st, s, step)
  {
    match step
    case Tick(elapsed) => s.(clock := s.clock + elapsed)
    case Register(id, delay, published) => AfterRegister(s, id, delay, published)
    case TryClaim(w, id) => AfterClaim(st, s, w, id)
    case FinishDeferral(w) => AfterDeferral(st, s, w, PcOf(s, w))
    case RenewLease(w) => AfterRenewal(st, s, w, PcOf(s, w))
    case Conclude(w, o) => AfterConclusion(st, s, w, PcOf(s, w), o)
    case Commit(w) => AfterCommit(s, w, PcOf(s, w))
    case Crash(w) => Moved(s, w, Idle)
    case Finalize(chosen) => AfterFinalize(st, s, chosen)
    case Publish(id) => AfterPublish(s, id)
  }

  const INITIAL := Sys(0.0, 0, Db(map[], map[]), map[], map[])

  ghost predicate Next(st: Settings, s: Sys, t: Sys)
  {
    exists step :: Enabled(st, s, step) && t == Apply(st, s, step)
  }

  /** A run: states connected by steps. */
  ghost predicate Run(st: Settings, trace: seq<Sys>)
  {
    |trace| > 0 && forall i :: 0 <= i < |trace| - 1 ==> Next(st, trace[i], trace[i + 1])
  }

  // ---- invariant ----------------------------------------------------------------------------

  /** Four times the least time that `polls` refunded polls take: 3 * base * polls. */
  function Gap(st: Settings, polls: int): real
    decreases if polls >= 0 then polls else -polls
  {
    if polls == 0 then 0.0
    else if polls > 0 then Gap(st, polls - 1) + (3 * st.base) as real
    else Gap(st, polls + 1) - (3 * st.base) as real
  }

  ghost predicate StatusOk(st: Settings, nextToken: nat, r: Row)
  {
    && 0 <= r.attempts <= st.maxAttempts
    && (r.status.Pending? ==> r.attempts == 0)
    && (r.status.Processing? ==> r.token.Some? && r.lease.Some? && r.attempts >= 1)
    && (r.status.RetryWait? ==> r.nextAt.Some? && r.attempts < st.maxAttempts)
    && (r.token.Some? ==> r.status.Processing? && r.token.value < nextToken)
    && (r.startedAt.None? <==> r.status.Pending?)
  }

  ghost predicate ReservationOk(st: Settings, r: Row)
  {
    && (r.reserved.Some? <==> st.budgetRequired && !r.status.Pending?)
    && (r.reserved.Some? <==> r.budgetDay.Some?)
    && (r.reserved.Some? ==> r.reserved.value >= 0)
  }

  ghost predicate CountsOk(r: Row, h: History)
  {
    && h.claims == r.attempts + h.refunds
    && h.refunds >= 0 && h.late >= 0
    && (r.status.Pending? ==> h.refunds == 0 && h.late == 0)
    && h.terminals == (if Terminal(r.status) then 1 else 0)
    && h.reservations == (if r.reserved.Some? then 1 else 0)
  }

  ghost predicate SpacingOk(st: Settings, clock: real, r: Row, h: History)
  {
    && r.createdAt <= clock
    && (r.startedAt.Some? ==>
          && r.createdAt <= r.startedAt.value <= clock
          && 4.0 * (r.startedAt.value - r.createdAt) >= Gap(st, h.refunds - h.late - 1)
          && (r.status.Processing? ==> 4.0 * (r.startedAt.value - r.createdAt) >= Gap(st, h.refunds - h.late)))
    && (r.status.RetryWait? && r.nextAt.Some? ==>
          4.0 * (Max(r.nextAt.value, clock) - r.createdAt) >= Gap(st, h.refunds - h.late))
    && (h.refunds >= 1 ==> Gap(st, h.refunds - h.late - 1) < 4.0 * st.deadline as real)
  }

  ghost predicate RowOk(st: Settings, clock: real, nextToken: nat, r: Row, h: History)
  {
    StatusOk(st, nextToken, r) && ReservationOk(st, r) && CountsOk(r, h) && SpacingOk(st, clock, r, h)
  }

  /** A worker whose token is still current remembers the truth about its row. */
  ghost predicate WriteOk(st: Settings, r: Row, attempts: int, createdAt: real, at: real, write: Write)
  {
    && r.startedAt.Some? && r.startedAt.value <= at
    && match write
       case Renew(_) => false
       case Complete => true
       case Fail => true
       case Retry(nextAt, refund) =>
         && nextAt >= at
         && (refund ==> 4.0 * (nextAt - at) >= Gap(st, 1) && at - createdAt < st.deadline as real)
         && (!refund ==> attempts < st.maxAttempts)
       case Skip(release, day, cost) => release && day == r.budgetDay && cost == r.reserved
  }

  ghost predicate PcOk(st: Settings, s: Sys, pc: Pc)
  {
    match pc
    case Idle => true
    case Deferring(id, now) => id in s.db.rows && st.budgetRequired && now <= s.clock
    case Working(id, token, attempts, createdAt) =>
      && id in s.db.rows && token < s.nextToken && s.db.rows[id].createdAt == createdAt
      && (s.db.rows[id].token == Some(token) ==> s.db.rows[id].attempts == attempts)
    case Writing(id, token, attempts, createdAt, at, write) =>
      && id in s.db.rows && token < s.nextToken && s.db.rows[id].createdAt == createdAt && at <= s.clock
      && (s.db.rows[id].token == Some(token) ==>
            && s.db.rows[id].attempts == attempts
            && WriteOk(st, s.db.rows[id], attempts, createdAt, at, write))
  }

  function ReservedOn(day: int): Row -> int
  {
    (r: Row) => if r.budgetDay == Some(day) && r.reserved.Some? then r.reserved.value else 0
  }

  /** The ledger of every day is the sum of the reservations charged to it, within the cap. */
  ghost predicate LedgerOk(st: Settings, db: Db)
  {
    forall day ::
      && LedgerOf(db, day) == Total(db.rows, ReservedOn(day))
      && (st.dailyCap.Some? ==> LedgerOf(db, day) <= st.dailyCap.value)
  }

  ghost predicate RowsOk(st: Settings, s: Sys)
  {
    && s.db.rows.Keys == s.history.Keys
    && forall id :: id in s.db.rows ==> RowOk(st, s.clock, s.nextToken, s.db.rows[id], s.history[id])
  }

  ghost predicate WorkersOk(st: Settings, s: Sys)
  {
    forall w :: w in s.workers ==> PcOk(st, s, s.workers[w])
  }

  ghost predicate Inv(st: Settings, s: Sys)
  {
    RowsOk(st, s) && WorkersOk(st, s) && LedgerOk(st, s.db)
  }

  // ---- preservation: frames -----------------------------------------------------------------

  lemma GapStep(st: Settings, n: int)
    ensures Gap(st, n + 1) == Gap(st, n) + (3 * st.base) as real
    ensures Gap(st, 1) == (3 * st.base) as real
  {
  }

  lemma {:induction false} GapIsProduct(st: Settings, n: int)
    ensures Gap(st, n) == (3 * st.base * n) as real
    decreases if n >= 0 then n else -n
  {
    if n > 0 {
      GapIsProduct(st, n - 1);
      assert 3 * st.base * (n - 1) == 3 * st.base * n - 3 * st.base;
    } else if n < 0 {
      GapIsProduct(st, n + 1);
      assert 3 * st.base * (n + 1) == 3 * st.base * n + 3 * st.base;
    }
  }

  /** What any step may do to a row another worker is concerned with. */
  ghost predicate Advances(r: Row, q: Row, nextToken: nat)
  {
    && q.createdAt == r.createdAt
    && (|| q.token.None?
        || q.token.value >= nextToken
        || (q.token == r.token && q.attempts == r.attempts && q.startedAt == r.startedAt
            && q.budgetDay == r.budgetDay && q.reserved == r.reserved))
  }

  ghost predicate TableAdvances(s: Sys, t: Sys)
  {
    && s.clock <= t.clock && s.nextToken <= t.nextToken
    && (forall id :: id in s.db.rows ==>
          id in t.db.rows && Advances(s.db.rows[id], t.db.rows[id], s.nextToken))
  }

  lemma PcOkKept(st: Settings, s: Sys, t: Sys, pc: Pc)
    requires PcOk(st, s, pc) && TableAdvances(s, t)
    ensures PcOk(st, t, pc)
  {
  }

  lemma WorkersOkKept(st: Settings, s: Sys, t: Sys, w: nat)
    requires WorkersOk(st, s) && TableAdvances(s, t)
    requires forall v :: v in t.workers && v != w ==> v in s.workers && t.workers[v] == s.workers[v]
    requires w in t.workers ==> PcOk(st, t, t.workers[w])
    ensures WorkersOk(st, t)
  {
    forall v | v in t.workers && v != w ensures PcOk(st, t, t.workers[v]) {
      PcOkKept(st, s, t, s.workers[v]);
    }
  }

  /** The same for a step that changes one row. */
  lemma WorkersOkUpdate(st: Settings, s: Sys, t: Sys, w: nat, id: nat)
    requires WorkersOk(st, s) && s.clock <= t.clock && s.nextToken <= t.nextToken
    requires id in s.db.rows && id in t.db.rows && t.db.rows == s.db.rows[id := t.db.rows[id]]
    requires Advances(s.db.rows[id], t.db.rows[id], s.nextToken)
    requires t.workers == s.workers[w := Idle]
    ensures WorkersOk(st, t)
  {
    assert TableAdvances(s, t);
    WorkersOkKept(st, s, t, w);
  }

  lemma RowOkLater(st: Settings, s: Sys, t: Sys, r: Row, h: History)
    requires RowOk(st, s.clock, s.nextToken, r, h) && s.clock <= t.clock && s.nextToken <= t.nextToken
    ensures RowOk(st, t.clock, t.nextToken, r, h)
  {
  }

  /** One row changes: the others stay good. */
  lemma RowsOkUpdate(st: Settings, s: Sys, t: Sys, id: nat)
    requires RowsOk(st, s) && s.clock <= t.clock && s.nextToken <= t.nextToken
    requires id in t.db.rows && id in t.history
    requires t.db.rows == s.db.rows[id := t.db.rows[id]] && t.history == s.history[id := t.history[id]]
    requires RowOk(st, t.clock, t.nextToken, t.db.rows[id], t.history[id])
    ensures RowsOk(st, t)
  {
    forall j | j in t.db.rows ensures RowOk(st, t.clock, t.nextToken, t.db.rows[j], t.history[j]) {
      if j != id {
        RowOkLater(st, s, t, s.db.rows[j], s.history[j]);
      }
    }
  }

  /** One row changes without its reservation changing, ledger untouched. */
  lemma LedgerOkSameCharge(st: Settings, db: Db, id: nat, q: Row)
    requires LedgerOk(st, db)
    requires forall day :: ReservedOn(day)(q) == (if id in db.rows then ReservedOn(day)(db.rows[id]) else 0)
    ensures LedgerOk(st, db.(rows := db.rows[id := q]))
  {
    var db' := db.(rows := db.rows[id := q]);
    forall day ensures LedgerOf(db', day) == Total(db'.rows, ReservedOn(day))
                    && (st.dailyCap.Some? ==> LedgerOf(db', day) <= st.dailyCap.value) {
      TotalUpdate(db.rows, ReservedOn(day), id, q);
      assert LedgerOf(db', day) == LedgerOf(db, day);
    }
  }

  // ---- preservation: steps ------------------------------------------------------------------

  lemma TickKeepsInv(st: Settings, s: Sys, elapsed: real)
    requires Inv(st, s) && elapsed >= 0.0
    ensures Inv(st, s.(clock := s.clock + elapsed))
  {
    var t := s.(clock := s.clock + elapsed);
    forall id | id in t.db.rows ensures RowOk(st, t.clock, t.nextToken, t.db.rows[id], t.history[id]) {
      RowOkLater(st, s, t, s.db.rows[id], s.history[id]);
    }
    assert TableAdvances(s, t);
    forall w | w in t.workers ensures PcOk(st, t, t.workers[w]) {
      PcOkKept(st, s, t, s.workers[w]);
    }
  }

  lemma RegisterKeepsInv(st: Settings, s: Sys, id: nat, delay: Option<real>, published: bool)
    requires Valid(st) && Inv(st, s) && id !in s.db.rows
    ensures Inv(st, AfterRegister(s, id, delay, published))
  {
    var t := AfterRegister(s, id, delay, published);
    RowsOkUpdate(st, s, t, id);
    LedgerOkSameCharge(st, s.db, id, NewRow(s.clock, delay, published));
    forall w | w in t.workers ensures PcOk(st, t, t.workers[w]) {
      PcOkKept(st, s, t, s.workers[w]);
    }
  }

  lemma ReserveKeepsLedger(st: Settings, db: Db, id: nat, now: real)
    requires Valid(st) && LedgerOk(st, db) && id in db.rows
    requires db.rows[id].reserved.None? && db.rows[id].budgetDay.None?
    ensures LedgerOk(st, Reserve(st, db, id, now).1)
  {
    var (decision, db') := Reserve(st, db, id, now);
    if db' != db {
      var day := BudgetDay(st, now);
      forall d ensures LedgerOf(db', d) == Total(db'.rows, ReservedOn(d))
                    && (st.dailyCap.Some? ==> LedgerOf(db', d) <= st.dailyCap.value) {
        assert LedgerOf(db, d) == Total(db.rows, ReservedOn(d));
        assert LedgerOf(db, d) <= st.dailyCap.value;
        TotalUpdate(db.rows, ReservedOn(d), id, db'.rows[id]);
        assert db'.rows == db.rows[id := db'.rows[id]];
      }
    }
  }

  lemma ClaimKeepsLedger(st: Settings, db: Db, id: nat, now: real, token: nat)
    requires Valid(st) && LedgerOk(st, db)
    requires id in db.rows ==> (db.rows[id].reserved.Some? <==> db.rows[id].budgetDay.Some?)
    ensures LedgerOk(st, ClaimTxn(st, db, id, now, token).1)
  {
    if id in db.rows && Claimable(st, db.rows[id], now) {
      var claimed := ClaimedRow(st, db.rows[id], now, token);
      LedgerOkSameCharge(st, db, id, claimed);
      if claimed.reserved.None? {
        ReserveKeepsLedger(st, db.(rows := db.rows[id := claimed]), id, now);
      }
    }
  }

  lemma ClaimedRowOk(st: Settings, clock: real, token: nat, r: Row, h: History, q: Row)
    requires Valid(st) && RowOk(st, clock, token, r, h) && Claimable(st, r, clock)
    requires q == ClaimedRow(st, r, clock, token).(budgetDay := q.budgetDay, reserved := q.reserved)
    requires st.budgetRequired ==> q.reserved.Some? && q.budgetDay.Some? && q.reserved.value >= 0
    requires !st.budgetRequired || r.reserved.Some? ==> q.reserved == r.reserved && q.budgetDay == r.budgetDay
    ensures RowOk(st, clock, token + 1, q,
      h.(claims := h.claims + 1,
         reservations := h.reservations + if q.reserved != r.reserved then 1 else 0))
  {
    GapStep(st, h.refunds - h.late - 1);
  }

  lemma ClaimKeepsRows(st: Settings, s: Sys, w: nat, id: nat)
    requires Valid(st) && RowsOk(st, s) && ClaimTxn(st, s.db, id, s.clock, s.nextToken).0.Claimed?
    ensures RowsOk(st, AfterClaim(st, s, w, id))
  {
    var db := ClaimTxn(st, s.db, id, s.clock, s.nextToken).1;
    assert RowOk(st, s.clock, s.nextToken, s.db.rows[id], s.history[id]);
    assert db.rows == s.db.rows[id := db.rows[id]];
    ClaimedRowOk(st, s.clock, s.nextToken, s.db.rows[id], s.history[id], db.rows[id]);
    RowsOkUpdate(st, s, AfterClaim(st, s, w, id), id);
  }

  lemma ClaimKeepsWorkers(st: Settings, s: Sys, w: nat, id: nat)
    requires WorkersOk(st, s) && ClaimTxn(st, s.db, id, s.clock, s.nextToken).0.Claimed?
    ensures WorkersOk(st, AfterClaim(st, s, w, id))
  {
    var db := ClaimTxn(st, s.db, id, s.clock, s.nextToken).1;
    assert db.rows == s.db.rows[id := db.rows[id]];
    WorkersOkKept(st, s, AfterClaim(st, s, w, id), w);
  }

  lemma ClaimKeepsInv(st: Settings, s: Sys, w: nat, id: nat)
    requires Valid(st) && Inv(st, s) && PcOf(s, w).Idle?
    ensures Inv(st, AfterClaim(st, s, w, id))
  {
    var result := ClaimTxn(st, s.db, id, s.clock, s.nextToken).0;
    if result.Claimed? {
      ClaimKeepsRows(st, s, w, id);
      ClaimKeepsWorkers(st, s, w, id);
      assert RowOk(st, s.clock, s.nextToken, s.db.rows[id], s.history[id]);
      ClaimKeepsLedger(st, s.db, id, s.clock, s.nextToken);
    } else if result.Deferred? {
      WorkersOkKept(st, s, AfterClaim(st, s, w, id), w);
    }
  }

  lemma DeferredRowOk(st: Settings, clock: real, nextToken: nat, r: Row, h: History, now: real)
    requires Valid(st) && st.budgetRequired && RowOk(st, clock, nextToken, r, h)
    requires r.status.Pending? || r.status.RetryWait?
    ensures RowOk(st, clock, nextToken, r.(nextAt := Some(now + st.recheck)),
      h.(late := h.late + if r.reserved.Some? then 1 else 0))
  {
    GapStep(st, h.refunds - h.late - 1);
    GapStep(st, h.refunds - h.late - 2);
  }

  lemma DeferralKeepsRows(st: Settings, s: Sys, w: nat)
    requires Valid(st) && Inv(st, s) && PcOf(s, w).Deferring?
    ensures RowsOk(st, AfterDeferral(st, s, w, PcOf(s, w)))
  {
    var pc := PcOf(s, w);
    var t := AfterDeferral(st, s, w, pc);
    var r := s.db.rows[pc.id];
    assert RowOk(st, s.clock, s.nextToken, r, s.history[pc.id]);
    assert t.db.rows == s.db.rows[pc.id := t.db.rows[pc.id]];
    if r.status.Pending? || r.status.RetryWait? {
      DeferredRowOk(st, s.clock, s.nextToken, r, s.history[pc.id], pc.now);
      GapStep(st, s.history[pc.id].refunds - s.history[pc.id].late - 2);
    }
    RowsOkUpdate(st, s, t, pc.id);
  }

  lemma DeferralKeepsInv(st: Settings, s: Sys, w: nat)
    requires Valid(st) && Inv(st, s) && PcOf(s, w).Deferring?
    ensures Inv(st, AfterDeferral(st, s, w, PcOf(s, w)))
  {
    var pc := PcOf(s, w);
    var t := AfterDeferral(st, s, w, pc);
    DeferralKeepsRows(st, s, w);
    assert t.db.rows == s.db.rows[pc.id := t.db.rows[pc.id]];
    LedgerOkSameCharge(st, s.db, pc.id, t.db.rows[pc.id]);
    WorkersOkUpdate(st, s, t, w, pc.id);
  }

  lemma RenewKeepsRows(st: Settings, s: Sys, id: nat, token: nat, until: real)
    requires RowsOk(st, s) && Owns(s.db, id, token)
    ensures RowsOk(st, s.(db := FencedTxn(s.db, id, token, Renew(until))))
  {
    var t := s.(db := FencedTxn(s.db, id, token, Renew(until)));
    assert RowOk(st, s.clock, s.nextToken, s.db.rows[id], s.history[id]);
    assert t.history == s.history[id := t.history[id]];
    RowsOkUpdate(st, s, t, id);
  }

  lemma RenewKeepsWorkers(st: Settings, s: Sys, id: nat, token: nat, until: real)
    requires WorkersOk(st, s) && Owns(s.db, id, token)
    ensures WorkersOk(st, s.(db := FencedTxn(s.db, id, token, Renew(until))))
  {
    var t := s.(db := FencedTxn(s.db, id, token, Renew(until)));
    assert TableAdvances(s, t);
    forall w | w in t.workers ensures PcOk(st, t, t.workers[w]) {
      PcOkKept(st, s, t, s.workers[w]);
    }
  }

  lemma RenewKeepsInv(st: Settings, s: Sys, w: nat)
    requires Valid(st) && Inv(st, s) && PcOf(s, w).Working?
    ensures Inv(st, AfterRenewal(st, s, w, PcOf(s, w)))
  {
    hide RowsOk, WorkersOk, LedgerOk;
    var pc := PcOf(s, w);
    var until := s.clock + st.leaseSeconds;
    if Owns(s.db, pc.id, pc.token) {
      RenewKeepsRows(st, s, pc.id, pc.token, until);
      RenewKeepsWorkers(st, s, pc.id, pc.token, until);
      LedgerOkSameCharge(st, s.db, pc.id, WrittenRow(s.db.rows[pc.id], Renew(until)));
    } else {
      MoveKeepsInv(st, s, w);
    }
  }

  /** A worker that stops leaves the table alone. */
  lemma MoveKeepsInv(st: Settings, s: Sys, w: nat)
    requires Inv(st, s)
    ensures Inv(st, Moved(s, w, Idle))
  {
    WorkersOkKept(st, s, Moved(s, w, Idle), w);
  }

  lemma ConcludeKeepsInv(st: Settings, s: Sys, w: nat, o: Outcome)
    requires Valid(st) && Inv(st, s) && PcOf(s, w).Working? && PcOf(s, w).id in s.db.rows
    requires o.Failure? ==> 0.0 <= o.jitter <= 1.0
    ensures Inv(st, AfterConclusion(st, s, w, PcOf(s, w), o))
  {
    var pc := PcOf(s, w);
    var t := AfterConclusion(st, s, w, PcOf(s, w), o);
    var r := s.db.rows[pc.id];
    var b, c := st.base as real, st.cap as real;
    if o.Failure? {
      var elapsed := s.clock - pc.createdAt;
      PollDelayBounds(elapsed, elapsed, b, c, o.jitter);
      BackoffDelayBounds(pc.attempts, b, c, o.retryAfter, o.jitter);
      GapStep(st, 0);
      assert (3 * st.base) as real == 3.0 * b;
    }
    assert r.token == Some(pc.token) ==>
      WriteOk(st, r, pc.attempts, pc.createdAt, s.clock, Decide(st, r, pc.attempts, pc.createdAt, s.clock, o));
    WorkersOkKept(st, s, t, w);
  }

  lemma SkipKeepsLedger(st: Settings, db: Db, id: nat, token: nat, write: Write)
    requires LedgerOk(st, db) && Owns(db, id, token) && write.Skip? && write.releaseBudget
    requires write.readDay == db.rows[id].budgetDay && write.readReserved == db.rows[id].reserved
    requires db.rows[id].reserved.Some? <==> db.rows[id].budgetDay.Some?
    requires forall j :: j in db.rows && db.rows[j].reserved.Some? ==> db.rows[j].reserved.value >= 0
    ensures LedgerOk(st, FencedTxn(db, id, token, write))
    ensures ReleaseNeverClamps(db, id)
  {
    var r := db.rows[id];
    var db' := FencedTxn(db, id, token, write);
    forall d ensures LedgerOf(db', d) == Total(db'.rows, ReservedOn(d))
                  && (st.dailyCap.Some? ==> LedgerOf(db', d) <= st.dailyCap.value)
                  && (r.budgetDay == Some(d) ==> LedgerOf(db, d) >= r.reserved.value) {
      assert LedgerOf(db, d) == Total(db.rows, ReservedOn(d));
      TotalUpdate(db.rows, ReservedOn(d), id, db'.rows[id]);
      TotalSplit(db.rows, ReservedOn(d), id);
      TotalNonNegative(db.rows - {id}, ReservedOn(d));
    }
  }

  /** The ledger holds at least what the row has reserved, so returning it never hits zero early. */
  ghost predicate ReleaseNeverClamps(db: Db, id: nat)
    requires id in db.rows
  {
    var r := db.rows[id];
    r.budgetDay.Some? && r.reserved.Some? ==>
      ClampedMinus(LedgerOf(db, r.budgetDay.value), r.reserved.value)
        == LedgerOf(db, r.budgetDay.value) - r.reserved.value
  }

  lemma WrittenRowOk(st: Settings, clock: real, nextToken: nat, r: Row, h: History, at: real, write: Write)
    requires Valid(st) && RowOk(st, clock, nextToken, r, h) && r.status.Processing?
    requires WriteOk(st, r, r.attempts, r.createdAt, at, write)
    ensures RowOk(st, clock, nextToken, WrittenRow(r, write),
      h.(terminals := h.terminals + (if write.Retry? then 0 else 1),
         refunds := h.refunds + if write.Retry? && write.refund then 1 else 0))
  {
    GapStep(st, h.refunds - h.late);
    GapStep(st, h.refunds - h.late - 1);
  }

  lemma CommitKeepsRows(st: Settings, s: Sys, w: nat)
    requires Valid(st) && Inv(st, s) && PcOf(s, w).Writing?
    ensures RowsOk(st, AfterCommit(s, w, PcOf(s, w)))
  {
    var pc := PcOf(s, w);
    var t := AfterCommit(s, w, pc);
    assert RowOk(st, s.clock, s.nextToken, s.db.rows[pc.id], s.history[pc.id]);
    assert t.db.rows == s.db.rows[pc.id := t.db.rows[pc.id]];
    if Owns(s.db, pc.id, pc.token) {
      WrittenRowOk(st, s.clock, s.nextToken, s.db.rows[pc.id], s.history[pc.id], pc.at, pc.write);
    }
    RowsOkUpdate(st, s, t, pc.id);
  }

  lemma CommitKeepsWorkers(st: Settings, s: Sys, w: nat)
    requires WorkersOk(st, s) && PcOf(s, w).Writing?
    ensures WorkersOk(st, AfterCommit(s, w, PcOf(s, w)))
  {
    var pc := PcOf(s, w);
    var t := AfterCommit(s, w, pc);
    assert t.db.rows == s.db.rows[pc.id := t.db.rows[pc.id]];
    WorkersOkUpdate(st, s, t, w, pc.id);
  }

  lemma CommitKeepsInv(st: Settings, s: Sys, w: nat)
    requires Valid(st) && Inv(st, s) && PcOf(s, w).Writing?
    ensures Inv(st, AfterCommit(s, w, PcOf(s, w)))
  {
    CommitKeepsRows(st, s, w);
    CommitKeepsWorkers(st, s, w);
    var pc := PcOf(s, w);
    if Owns(s.db, pc.id, pc.token) {
      CommitKeepsLedger(st, s, pc);
    }
  }

  lemma CommitKeepsLedger(st: Settings, s: Sys, pc: Pc)
    requires Inv(st, s) && pc.Writing? && Owns(s.db, pc.id, pc.token)
    requires WriteOk(st, s.db.rows[pc.id], pc.attempts, pc.createdAt, pc.at, pc.write)
    ensures LedgerOk(st, FencedTxn(s.db, pc.id, pc.token, pc.write))
  {
    assert RowOk(st, s.clock, s.nextToken, s.db.rows[pc.id], s.history[pc.id]);
    if pc.write.Skip? {
      forall j | j in s.db.rows && s.db.rows[j].reserved.Some? ensures s.db.rows[j].reserved.value >= 0 {
        assert RowOk(st, s.clock, s.nextToken, s.db.rows[j], s.history[j]);
      }
      SkipKeepsLedger(st, s.db, pc.id, pc.token, pc.write);
    } else {
      LedgerOkSameCharge(st, s.db, pc.id, WrittenRow(s.db.rows[pc.id], pc.write));
    }
  }

  lemma {:induction false} TotalSame(a: map<nat, Row>, b: map<nat, Row>, weight: Row -> int)
    requires a.Keys == b.Keys
    requires forall id :: id in a ==> weight(a[id]) == weight(b[id])
    ensures Total(a, weight) == Total(b, weight)
    decreases |a|
  {
    if a == map[] {
      assert b == map[];
    } else {
      var id :| id in a;
      TotalSplit(a, weight, id);
      TotalSplit(b, weight, id);
      TotalSame(a - {id}, b - {id}, weight);
    }
  }

  lemma FinalizedRowOk(st: Settings, clock: real, nextToken: nat, r: Row, h: History)
    requires Valid(st) && RowOk(st, clock, nextToken, r, h) && Finalizable(st, r, clock)
    ensures RowOk(st, clock, nextToken, FinalizedRow(r), h.(terminals := h.terminals + 1))
  {
  }

  lemma FinalizeKeepsRows(st: Settings, s: Sys, chosen: set<nat>)
    requires Valid(st) && RowsOk(st, s)
    ensures RowsOk(st, AfterFinalize(st, s, chosen))
  {
    var t := AfterFinalize(st, s, chosen);
    forall id | id in t.db.rows ensures RowOk(st, t.clock, t.nextToken, t.db.rows[id], t.history[id]) {
      assert RowOk(st, s.clock, s.nextToken, s.db.rows[id], s.history[id]);
      if id in chosen && Finalizable(st, s.db.rows[id], s.clock) {
        FinalizedRowOk(st, s.clock, s.nextToken, s.db.rows[id], s.history[id]);
      }
    }
  }

  lemma FinalizeKeepsLedger(st: Settings, db: Db, chosen: set<nat>, now: real)
    requires LedgerOk(st, db)
    ensures LedgerOk(st, FinalizeTxn(st, db, chosen, now))
  {
    var db' := FinalizeTxn(st, db, chosen, now);
    forall day ensures LedgerOf(db', day) == Total(db'.rows, ReservedOn(day))
                    && (st.dailyCap.Some? ==> LedgerOf(db', day) <= st.dailyCap.value) {
      assert LedgerOf(db, day) == Total(db.rows, ReservedOn(day));
      TotalSame(db.rows, db'.rows, ReservedOn(day));
    }
  }

  lemma FinalizeKeepsInv(st: Settings, s: Sys, chosen: set<nat>)
    requires Valid(st) && Inv(st, s)
    ensures Inv(st, AfterFinalize(st, s, chosen))
  {
    hide RowsOk, LedgerOk;
    var t := AfterFinalize(st, s, chosen);
    FinalizeKeepsRows(st, s, chosen);
    FinalizeKeepsLedger(st, s.db, chosen, s.clock);
    assert TableAdvances(s, t);
    forall w | w in t.workers ensures PcOk(st, t, t.workers[w]) {
      PcOkKept(st, s, t, s.workers[w]);
    }
  }

  lemma PublishKeepsInv(st: Settings, s: Sys, id: nat)
    requires Valid(st) && Inv(st, s) && id in s.db.rows
    ensures Inv(st, AfterPublish(s, id))
  {
    var t := AfterPublish(s, id);
    assert t.history == s.history[id := t.history[id]];
    RowsOkUpdate(st, s, t, id);
    LedgerOkSameCharge(st, s.db, id, t.db.rows[id]);
    forall w | w in t.workers ensures PcOk(st, t, t.workers[w]) {
      PcOkKept(st, s, t, s.workers[w]);
    }
  }

  /** Every step keeps the invariant. */
  lemma StepKeepsInv(st: Settings, s: Sys, step: Step)
    requires Valid(st) && Inv(st, s) && Enabled(st, s, step)
    ensures Inv(st, Apply(st, s, step))
  {
    hide Inv;
    match step
    case Tick(elapsed) => TickKeepsInv(st, s, elapsed);
    case Register(id, delay, published) => RegisterKeepsInv(st, s, id, delay, published);
    case TryClaim(w, id) => ClaimKeepsInv(st, s, w, id);
    case FinishDeferral(w) => DeferralKeepsInv(st, s, w);
    case RenewLease(w) => RenewKeepsInv(st, s, w);
    case Conclude(w, o) => ConcludeKeepsInv(st, s, w, o);
    case Commit(w) => CommitKeepsInv(st, s, w);
    case Crash(w) => MoveKeepsInv(st, s, w);
    case Finalize(chosen) => FinalizeKeepsInv(st, s, chosen);
    case Publish(id) => PublishKeepsInv(st, s, id);
  }

  // ---- theorems over whole runs -------------------------------------------------------------

  lemma NextKeepsInv(st: Settings, s: Sys, t: Sys)
    requires Valid(st) && Inv(st, s) && Next(st, s, t)
    ensures Inv(st, t)
  {
    var step :| Enabled(st, s, step) && t == Apply(st, s, step);
    StepKeepsInv(st, s, step);
  }

  /** Every state of every run from the empty system satisfies the invariant. */
  lemma {:induction false} RunKeepsInv(st: Settings, trace: seq<Sys>, i: nat)
    requires Valid(st) && Run(st, trace) && trace[0] == INITIAL && i < |trace|
    ensures Inv(st, trace[i])
  {
    hide Next;
    if i > 0 {
      RunKeepsInv(st, trace, i - 1);
      NextKeepsInv(st, trace[i - 1], trace[i - 1 + 1]);
    }
  }

  lemma TerminalSurvivesTxns(
    st: Settings, db: Db, id: nat, other: nat, now: real, token: nat, write: Write, chosen: set<nat>)
    requires id in db.rows && Terminal(db.rows[id].status)
    ensures id in ClaimTxn(st, db, other, now, token).1.rows
         && ClaimTxn(st, db, other, now, token).1.rows[id] == db.rows[id]
    ensures id in DeferTxn(st, db, other, now).rows && DeferTxn(st, db, other, now).rows[id] == db.rows[id]
    ensures id in FencedTxn(db, other, token, write).rows
         && FencedTxn(db, other, token, write).rows[id] == db.rows[id]
    ensures id in FinalizeTxn(st, db, chosen, now).rows
         && FinalizeTxn(st, db, chosen, now).rows[id] == db.rows[id]
  {
  }

  lemma TerminalStep(st: Settings, s: Sys, step: Step, id: nat)
    requires Enabled(st, s, step)
    requires id in s.db.rows && Terminal(s.db.rows[id].status)
    ensures id in Apply(st, s, step).db.rows && Apply(st, s, step).db.rows[id] == s.db.rows[id]
  {
    match step
    case TryClaim(w, other) => TerminalSurvivesTxns(st, s.db, id, other, s.clock, s.nextToken, Fail, {});
    case FinishDeferral(w) => TerminalSurvivesTxns(st, s.db, id, PcOf(s, w).id, PcOf(s, w).now, 0, Fail, {});
    case RenewLease(w) =>
    case Commit(w) => TerminalSurvivesTxns(st, s.db, id, PcOf(s, w).id, 0.0, PcOf(s, w).token, PcOf(s, w).write, {});
    case Finalize(chosen) => TerminalSurvivesTxns(st, s.db, id, 0, s.clock, 0, Fail, chosen);
    case _ =>
  }

  lemma TerminalNext(st: Settings, s: Sys, t: Sys, id: nat)
    requires Next(st, s, t)
    requires id in s.db.rows && Terminal(s.db.rows[id].status)
    ensures id in t.db.rows && t.db.rows[id] == s.db.rows[id]
  {
    var step :| Enabled(st, s, step) && t == Apply(st, s, step);
    TerminalStep(st, s, step, id);
  }

  /** A finished analysis never changes again, in any column. */
  lemma {:induction false} TerminalIsForever(st: Settings, trace: seq<Sys>, i: nat, j: nat, id: nat)
    requires Run(st, trace) && i <= j < |trace|
    requires id in trace[i].db.rows && Terminal(trace[i].db.rows[id].status)
    ensures id in trace[j].db.rows && trace[j].db.rows[id] == trace[i].db.rows[id]
    decreases j
  {
    hide Next;
    if i < j {
      TerminalIsForever(st, trace, i, j - 1, id);
      TerminalNext(st, trace[j - 1], trace[j - 1 + 1], id);
    }
  }

  /** An issued token that is no longer the row's current token. */
  ghost predicate Superseded(s: Sys, id: nat, token: nat)
  {
    id in s.db.rows && token < s.nextToken && s.db.rows[id].token != Some(token)
  }

  lemma SupersededStep(st: Settings, s: Sys, step: Step, id: nat, token: nat)
    requires Enabled(st, s, step) && Superseded(s, id, token)
    ensures Superseded(Apply(st, s, step), id, token)
  {
    match step
    case TryClaim(w, j) =>
    case FinishDeferral(w) =>
    case Commit(w) =>
    case Finalize(chosen) =>
    case _ =>
  }

  lemma SupersededNext(st: Settings, s: Sys, t: Sys, id: nat, token: nat)
    requires Next(st, s, t) && Superseded(s, id, token)
    ensures Superseded(t, id, token)
  {
    var step :| Enabled(st, s, step) && t == Apply(st, s, step);
    SupersededStep(st, s, step, id, token);
  }

  /** Fencing: once a token is superseded, nothing written under it ever has an effect, on the
      row or on the ledger (so a stale skip returns no budget). */
  lemma {:induction false} SupersededIsForever(
    st: Settings, trace: seq<Sys>, i: nat, j: nat, id: nat, token: nat, write: Write)
    requires Run(st, trace) && i <= j < |trace| && Superseded(trace[i], id, token)
    ensures Superseded(trace[j], id, token)
    ensures FencedTxn(trace[j].db, id, token, write) == trace[j].db
    decreases j
  {
    hide Next;
    if i < j {
      SupersededIsForever(st, trace, i, j - 1, id, token, write);
      SupersededNext(st, trace[j - 1], trace[j - 1 + 1], id, token);
    }
  }

  function CeilDiv(a: int, b: int): int
    requires b > 0
  {
    (a + b - 1) / b
  }

  lemma CeilDivBound(a: int, b: int, n: int)
    requires b > 0 && b * (n - 1) < a
    ensures n <= CeilDiv(a, b)
  {
    var q := CeilDiv(a, b);
    var x := a + b - 1;
    assert x == b * q + x % b;
    assert n > q ==> b * (n - 1) >= b * q;
  }

  lemma PollsBound(st: Settings, polls: int)
    requires Valid(st) && Gap(st, polls - 1) < 4.0 * st.deadline as real
    ensures polls <= CeilDiv(4 * st.deadline, 3 * st.base)
  {
    GapIsProduct(st, polls - 1);
    var b := 3 * st.base;
    var p := b * (polls - 1);
    assert p as real < (4 * st.deadline) as real;
    CeilDivBound(4 * st.deadline, b, polls);
  }

  /** Bounded provider work. Claims (hence provider requests) of one analysis, counting crashes,
      expired leases and refunded polls, are at most
      max_attempts + ceil(4 * deadline / (3 * base)) + the number of late deferrals. */
  lemma ClaimsAreBounded(st: Settings, s: Sys, id: nat)
    requires Valid(st) && Inv(st, s) && id in s.db.rows
    ensures s.history[id].claims
         <= st.maxAttempts + CeilDiv(4 * st.deadline, 3 * st.base) + s.history[id].late
  {
    var h := s.history[id];
    assert RowOk(st, s.clock, s.nextToken, s.db.rows[id], h);
    if h.refunds >= 1 {
      PollsBound(st, h.refunds - h.late);
    }
  }

  /** What every reachable state promises about a row: one terminal write at most, one
      reservation at most, claim and wait states complete, attempts within the cap. */
  lemma ReachableRow(st: Settings, trace: seq<Sys>, i: nat, id: nat)
    requires Valid(st) && Run(st, trace) && trace[0] == INITIAL && i < |trace|
    requires id in trace[i].db.rows
    ensures id in trace[i].history
    ensures var r, h := trace[i].db.rows[id], trace[i].history[id];
      && 0 <= r.attempts <= st.maxAttempts
      && (r.status.Processing? ==> r.token.Some? && r.lease.Some?)
      && (r.status.RetryWait? ==> r.nextAt.Some? && r.attempts < st.maxAttempts)
      && h.terminals == (if Terminal(r.status) then 1 else 0)
      && h.reservations <= 1
      && h.claims <= st.maxAttempts + CeilDiv(4 * st.deadline, 3 * st.base) + h.late
  {
    RunKeepsInv(st, trace, i);
    ClaimsAreBounded(st, trace[i], id);
    assert RowOk(st, trace[i].clock, trace[i].nextToken, trace[i].db.rows[id], trace[i].history[id]);
  }

  /** Budget conservation: in every reachable state each day's ledger is exactly the sum of the
      reservations charged to it, never above the cap, and returning any row's reservation never
      reaches the clamp at zero. */
  lemma LedgerIsConserved(st: Settings, trace: seq<Sys>, i: nat, day: int, id: nat)
    requires Valid(st) && Run(st, trace) && trace[0] == INITIAL && i < |trace|
    requires id in trace[i].db.rows
    ensures LedgerOf(trace[i].db, day) == Total(trace[i].db.rows, ReservedOn(day))
    ensures st.dailyCap.Some? ==> LedgerOf(trace[i].db, day) <= st.dailyCap.value
    ensures ReleaseNeverClamps(trace[i].db, id)
  {
    RunKeepsInv(st, trace, i);
    var s := trace[i];
    var r := s.db.rows[id];
    if r.budgetDay.Some? && r.reserved.Some? {
      var d := r.budgetDay.value;
      forall j | j in s.db.rows ensures ReservedOn(d)(s.db.rows[j]) >= 0 {
        assert RowOk(st, s.clock, s.nextToken, s.db.rows[j], s.history[j]);
      }
      assert LedgerOf(s.db, d) == Total(s.db.rows, ReservedOn(d));
      TotalSplit(s.db.rows, ReservedOn(d), id);
      TotalNonNegative(s.db.rows - {id}, ReservedOn(d));
    }
  }

  /** A refused reservation leaves both the row and the ledger as they were. */
  lemma DeniedClaimChangesNothing(st: Settings, db: Db, id: nat, now: real, token: nat)
    ensures ClaimTxn(st, db, id, now, token).0.Claimed? || ClaimTxn(st, db, id, now, token).1 == db
  {
  }

  // ---- sweeper coverage ---------------------------------------------------------------------

  /** From this instant on (exclusive) the sweeper acts on a row that is left alone. */
  function DueFrom(st: Settings, r: Row): real
  {
    if r.status.Processing? && r.lease.Some? then r.lease.value
    else
      var due := if r.nextAt.Some? then r.nextAt.value else r.createdAt;
      if r.lastEnqueued.Some? then Max(due, r.lastEnqueued.value + st.republishAfter) else due
  }

  /** No unfinished analysis is ever lost: in a reachable state every non-terminal row is, at every
      instant after DueFrom, either finalized or published by a sweep; whatever a sweep publishes
      can be claimed at that instant; and finalizing never takes a row from a live lease. */
  lemma SweeperCoversEveryRow(st: Settings, trace: seq<Sys>, i: nat, id: nat, now: real)
    requires Valid(st) && Run(st, trace) && trace[0] == INITIAL && i < |trace| && id in trace[i].db.rows
    ensures var r := trace[i].db.rows[id];
      && (!Terminal(r.status) && now > DueFrom(st, r) ==>
            Finalizable(st, r, now) || Publishable(st, r, now))
      && (Publishable(st, r, now) ==> Claimable(st, r, now))
      && (Finalizable(st, r, now) ==> r.status.Processing? && r.lease.value < now)
      && !(Finalizable(st, r, now) && Publishable(st, r, now))
  {
    RunKeepsInv(st, trace, i);
    var s := trace[i];
    assert RowOk(st, s.clock, s.nextToken, s.db.rows[id], s.history[id]);
    hide Run, Inv;
  }

  /** After its due time, one sweep and one delivery settle an untouched row: it ends FAILED, or a
      claim attempt succeeds or is deferred by the budget, never refused. */
  lemma SweepThenClaim(st: Settings, trace: seq<Sys>, i: nat, id: nat)
    requires Valid(st) && Run(st, trace) && trace[0] == INITIAL && i < |trace| && id in trace[i].db.rows
    requires !Terminal(trace[i].db.rows[id].status) && trace[i].clock > DueFrom(st, trace[i].db.rows[id])
    ensures var s := trace[i];
      var swept := AfterFinalize(st, s, {id});
      || swept.db.rows[id].status.Failed?
      || (&& Enabled(st, swept, Publish(id))
          && !ClaimTxn(st, Apply(st, swept, Publish(id)).db, id, s.clock, s.nextToken).0.NotClaimable?)
  {
    hide Run;
    SweeperCoversEveryRow(st, trace, i, id, trace[i].clock);
  }
}
