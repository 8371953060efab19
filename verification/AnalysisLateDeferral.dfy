/** The claim bound promised for one analysis, max_attempts plus the polls that fit before the
    deadline, is exceeded when a budget deferral lands late. A claim refused by the budget rolls
    its savepoint back and only then writes next_attempt_at; a claim by another worker fits in
    that gap, and the late write shortens the wait that claim has earned. */
module AnalysisLateDeferral {
  import opened Basics
  import opened AnalysisRows
  import opened AnalysisProtocol

  const TIGHT := Settings(1, 10.0, 4, 4, 1, 0.5, 10.0, true, Some(5), Some(5), 0.0)

  const NOT_READY := Failure(QaNotReady, None, 0.0)

  /** A state some run from the empty system ends in. */
  ghost predicate Reachable(st: Settings, s: Sys)
  {
    exists trace :: Run(st, trace) && trace[0] == INITIAL && trace[|trace| - 1] == s
  }

  lemma ReachableStep(st: Settings, s: Sys, step: Step, t: Sys)
    requires Reachable(st, s) && Enabled(st, s, step) && t == Apply(st, s, step)
    ensures Reachable(st, t)
  {
    var trace :| Run(st, trace) && trace[0] == INITIAL && trace[|trace| - 1] == s;
    assert Next(st, s, t);
    hide Next;
    var longer := trace + [t];
    assert longer[|longer| - 1] == t;
    forall i | 0 <= i < |longer| - 1 ensures Next(st, longer[i], longer[i + 1]) {
      if i < |trace| - 1 {
        assert Next(st, trace[i], trace[i + 1]);
      }
    }
  }

  lemma ReachableStart(st: Settings)
    ensures Reachable(st, INITIAL)
  {
    assert Run(st, [INITIAL]) && [INITIAL][|[INITIAL]| - 1] == INITIAL;
  }

  lemma ReachableClaim(st: Settings, s: Sys, w: nat, id: nat, t: Sys)
    requires Reachable(st, s) && PcOf(s, w).Idle? && t == AfterClaim(st, s, w, id)
    ensures Reachable(st, t)
  {
    hide Reachable;
    ReachableStep(st, s, TryClaim(w, id), t);
  }

  lemma ReachableConclusion(st: Settings, s: Sys, w: nat, o: Outcome, t: Sys)
    requires Reachable(st, s) && PcOf(s, w).Working? && PcOf(s, w).id in s.db.rows
    requires o.Failure? ==> 0.0 <= o.jitter <= 1.0
    requires t == AfterConclusion(st, s, w, PcOf(s, w), o)
    ensures Reachable(st, t)
  {
    hide Reachable;
    ReachableStep(st, s, Conclude(w, o), t);
  }

  lemma ReachableCommit(st: Settings, s: Sys, w: nat, t: Sys)
    requires Reachable(st, s) && PcOf(s, w).Writing? && t == AfterCommit(s, w, PcOf(s, w))
    ensures Reachable(st, t)
  {
    hide Reachable;
    ReachableStep(st, s, Commit(w), t);
  }

  lemma ReachableDeferral(st: Settings, s: Sys, w: nat, t: Sys)
    requires Reachable(st, s) && PcOf(s, w).Deferring? && t == AfterDeferral(st, s, w, PcOf(s, w))
    ensures Reachable(st, t)
  {
    hide Reachable;
    ReachableStep(st, s, FinishDeferral(w), t);
  }

  const FRESH := Row(Pending, 0, None, None, None, None, 0.0, None, None, None)
  const CHARGED := Row(Processing, 1, Some(0), Some(10.0), None, Some(0.0), 0.0, None, Some(0), Some(5))
  const RELEASED := Row(Skipped, 1, None, None, None, Some(0.0), 0.0, None, Some(0), Some(0))

  /** The row being analysed after `n` claims: claimed, or refunded and waiting. */
  function Held(token: nat, at: real): Row
  {
    Row(Processing, 1, Some(token), Some(at + 10.0), None, Some(at), 0.0, None, Some(0), Some(5))
  }

  function Waiting(at: real, nextAt: real): Row
  {
    Row(RetryWait, 0, None, None, Some(nextAt), Some(at), 0.0, None, Some(0), Some(5))
  }

  function World(now: real, tokens: nat, row: Row, other: Row, spent: int,
                 w0: Pc, w1: Pc, w2: Pc, h: History, g: History): Sys
  {
    Sys(now, tokens, Db(map[0 := row, 1 := other], map[0 := spent]), map[0 := w0, 1 := w1, 2 := w2],
        map[0 := h, 1 := g])
  }

  const DENIED := Deferring(0, 0.0)
  const DONE := History(1, 0, 0, 1, 1)

  const NOTHING := History(0, 0, 0, 0, 0)
  const TAKEN := Db(map[0 := FRESH, 1 := CHARGED], map[0 := 5])
  const ONE_CLAIM: map<nat, History> := map[0 := NOTHING, 1 := History(1, 0, 0, 0, 1)]

  lemma CapTaken()
    ensures Reachable(TIGHT, Sys(0.0, 1, TAKEN, map[0 := Working(1, 0, 1, 0.0)], ONE_CLAIM))
  {
    hide Reachable;
    ReachableStart(TIGHT);
    var s1 := Sys(0.0, 0, Db(map[0 := FRESH], map[]), map[], map[0 := NOTHING]);
    ReachableStep(TIGHT, INITIAL, Register(0, None, false), s1);
    var s2 := Sys(0.0, 0, Db(map[0 := FRESH, 1 := FRESH], map[]), map[], map[0 := NOTHING, 1 := NOTHING]);
    ReachableStep(TIGHT, s1, Register(1, None, false), s2);
    assert BudgetDay(TIGHT, 0.0) == 0;
    var claim := ClaimTxn(TIGHT, s2.db, 1, 0.0, 0);
    assert claim.1.rows == TAKEN.rows && claim.1.ledger == TAKEN.ledger;
    var s3 := Sys(0.0, 1, TAKEN, map[0 := Working(1, 0, 1, 0.0)], ONE_CLAIM);
    assert AfterClaim(TIGHT, s2, 0, 1) == s3;
    ReachableClaim(TIGHT, s2, 0, 1, s3);
  }

  /** Row 1 takes the whole daily cap; workers 1 and 2 are refused row 0; row 1 is skipped and its
      reservation returned. */
  lemma CapFreedAfterRefusals()
    ensures Reachable(TIGHT, World(0.0, 1, FRESH, RELEASED, 0, Idle, DENIED, DENIED, NOTHING, DONE))
  {
    hide Reachable;
    CapTaken();
    var s3 := Sys(0.0, 1, TAKEN, map[0 := Working(1, 0, 1, 0.0)], ONE_CLAIM);
    assert BudgetDay(TIGHT, 0.0) == 0;
    assert ClaimTxn(TIGHT, TAKEN, 0, 0.0, 1) == (ClaimResult.Deferred, TAKEN);
    var s4 := s3.(workers := s3.workers[1 := DENIED]);
    ReachableClaim(TIGHT, s3, 1, 0, s4);
    var s5 := s4.(workers := s4.workers[2 := DENIED]);
    ReachableClaim(TIGHT, s4, 2, 0, s5);
    CapReturned(s5);
  }

  lemma CapReturned(s5: Sys)
    requires s5 == Sys(0.0, 1, TAKEN, map[0 := Working(1, 0, 1, 0.0), 1 := DENIED, 2 := DENIED], ONE_CLAIM)
    requires Reachable(TIGHT, s5)
    ensures Reachable(TIGHT, World(0.0, 1, FRESH, RELEASED, 0, Idle, DENIED, DENIED, NOTHING, DONE))
  {
    hide Reachable;
    var skip := Skip(true, Some(0), Some(5));
    var s6 := s5.(workers := s5.workers[0 := Writing(1, 0, 1, 0.0, 0.0, skip)]);
    ReachableConclusion(TIGHT, s5, 0, UnusableInput, s6);
    var s7 := World(0.0, 1, FRESH, RELEASED, 0, Idle, DENIED, DENIED, NOTHING, DONE);
    assert FencedTxn(TAKEN, 1, 0, skip) == s7.db;
    ReachableCommit(TIGHT, s6, 0, s7);
  }

  lemma RowZeroClaimTxn(now: real, tokens: nat, row: Row, spent: int)
    requires Claimable(TIGHT, row, now) && row.attempts == 0 && row.createdAt == 0.0 && row.lastEnqueued.None?
    requires if row.reserved.None? then now == 0.0 && spent == 0
             else row.reserved == Some(5) && row.budgetDay == Some(0) && spent == 5
    ensures ClaimTxn(TIGHT, Db(map[0 := row, 1 := RELEASED], map[0 := spent]), 0, now, tokens)
         == (Claimed(1), Db(map[0 := Held(tokens, now), 1 := RELEASED], map[0 := 5]))
  {
    assert BudgetDay(TIGHT, 0.0) == 0;
    var claim := ClaimTxn(TIGHT, Db(map[0 := row, 1 := RELEASED], map[0 := spent]), 0, now, tokens);
    assert claim.1.rows == map[0 := Held(tokens, now), 1 := RELEASED];
    assert claim.1.ledger == map[0 := 5];
  }

  lemma RowZeroAfterClaim(s: Sys, t: Sys, db: Db)
    requires ClaimTxn(TIGHT, s.db, 0, s.clock, s.nextToken) == (Claimed(1), db)
    requires 0 in s.db.rows && 0 in db.rows && s.db.rows[0].createdAt == 0.0 && 0 in s.history
    requires t == s.(db := db, nextToken := s.nextToken + 1,
      workers := s.workers[0 := Working(0, s.nextToken, 1, 0.0)],
      history := s.history[0 := s.history[0].(claims := s.history[0].claims + 1,
        reservations := s.history[0].reservations + if db.rows[0].reserved != s.db.rows[0].reserved then 1 else 0)])
    ensures AfterClaim(TIGHT, s, 0, 0) == t
  {
    hide ClaimTxn;
  }

  lemma ClaimRowZero(now: real, tokens: nat, row: Row, spent: int, w1: Pc, w2: Pc, h: History, g: History)
    requires Claimable(TIGHT, row, now) && row.attempts == 0 && row.createdAt == 0.0 && row.lastEnqueued.None?
    requires if row.reserved.None? then now == 0.0 && spent == 0
             else row.reserved == Some(5) && row.budgetDay == Some(0) && spent == 5
    requires Reachable(TIGHT, World(now, tokens, row, RELEASED, spent, Idle, w1, w2, h, DONE))
    requires g == h.(claims := h.claims + 1, reservations := h.reservations + if row.reserved.None? then 1 else 0)
    ensures Reachable(TIGHT, World(now, tokens + 1, Held(tokens, now), RELEASED, 5,
      Working(0, tokens, 1, 0.0), w1, w2, g, DONE))
  {
    hide Reachable, ClaimTxn, AfterClaim;
    var s := World(now, tokens, row, RELEASED, spent, Idle, w1, w2, h, DONE);
    var t := World(now, tokens + 1, Held(tokens, now), RELEASED, 5, Working(0, tokens, 1, 0.0), w1, w2, g, DONE);
    RowZeroClaimTxn(now, tokens, row, spent);
    assert t.workers == s.workers[0 := Working(0, tokens, 1, 0.0)];
    assert t.history == s.history[0 := g];
    RowZeroAfterClaim(s, t, t.db);
    ReachableClaim(TIGHT, s, 0, 0, t);
  }

  /** The claim is answered "not ready" and refunded: the next attempt is due 3 s later. */
  lemma Poll(now: real, tokens: nat, w1: Pc, w2: Pc, h: History)
    requires 0.0 <= now < 1.0
    requires Reachable(TIGHT, World(now, tokens + 1, Held(tokens, now), RELEASED, 5,
                                    Working(0, tokens, 1, 0.0), w1, w2, h, DONE))
    ensures Reachable(TIGHT, World(now, tokens + 1, Waiting(now, now + 3.0), RELEASED, 5, Idle, w1, w2,
      h.(refunds := h.refunds + 1), DONE))
  {
    hide Reachable;
    var s1 := World(now, tokens + 1, Held(tokens, now), RELEASED, 5, Working(0, tokens, 1, 0.0), w1, w2, h, DONE);
    var poll := Retry(now + 3.0, true);
    assert Decide(TIGHT, Held(tokens, now), 1, 0.0, now, NOT_READY) == poll;
    var s2 := World(now, tokens + 1, Held(tokens, now), RELEASED, 5,
      Writing(0, tokens, 1, 0.0, now, poll), w1, w2, h, DONE);
    assert AfterConclusion(TIGHT, s1, 0, PcOf(s1, 0), NOT_READY).workers == s2.workers;
    ReachableConclusion(TIGHT, s1, 0, NOT_READY, s2);
    PollCommit(now, tokens, w1, w2, h);
  }

  lemma PollCommit(now: real, tokens: nat, w1: Pc, w2: Pc, h: History)
    requires Reachable(TIGHT, World(now, tokens + 1, Held(tokens, now), RELEASED, 5,
                                    Writing(0, tokens, 1, 0.0, now, Retry(now + 3.0, true)), w1, w2, h, DONE))
    ensures Reachable(TIGHT, World(now, tokens + 1, Waiting(now, now + 3.0), RELEASED, 5, Idle, w1, w2,
      h.(refunds := h.refunds + 1), DONE))
  {
    hide Reachable;
    var poll := Retry(now + 3.0, true);
    var s2 := World(now, tokens + 1, Held(tokens, now), RELEASED, 5,
      Writing(0, tokens, 1, 0.0, now, poll), w1, w2, h, DONE);
    var s3 := World(now, tokens + 1, Waiting(now, now + 3.0), RELEASED, 5, Idle, w1, w2,
      h.(refunds := h.refunds + 1), DONE);
    assert FencedTxn(s2.db, 0, tokens, poll).rows == s3.db.rows;
    assert AfterCommit(s2, 0, PcOf(s2, 0)).workers == s3.workers;
    assert AfterCommit(s2, 0, PcOf(s2, 0)).history == s3.history;
    ReachableCommit(TIGHT, s2, 0, s3);
  }

  /** A refused worker's deferral lands late: the wait of 3 s becomes 0.5 s. */
  lemma LateDeferral(now: real, tokens: nat, w: nat, w1: Pc, w2: Pc, v1: Pc, v2: Pc, h: History)
    requires (w == 1 && w1 == DENIED && v1 == Idle && v2 == w2) || (w == 2 && w2 == DENIED && v2 == Idle && v1 == w1)
    requires Reachable(TIGHT, World(now, tokens, Waiting(now, now + 3.0), RELEASED, 5, Idle, w1, w2, h, DONE))
    requires now >= 0.0
    ensures Reachable(TIGHT, World(now, tokens, Waiting(now, 0.5), RELEASED, 5, Idle, v1, v2,
      h.(late := h.late + 1), DONE))
  {
    hide Reachable;
    var s3 := World(now, tokens, Waiting(now, now + 3.0), RELEASED, 5, Idle, w1, w2, h, DONE);
    var s4 := World(now, tokens, Waiting(now, 0.5), RELEASED, 5, Idle, v1, v2, h.(late := h.late + 1), DONE);
    assert now + 3.0 != 0.5 ==> s3.db != s4.db by {
      assert s3.db.rows[0].nextAt != s4.db.rows[0].nextAt || now + 3.0 == 0.5;
    }
    assert DeferTxn(TIGHT, s3.db, 0, 0.0).rows == s4.db.rows;
    var t := AfterDeferral(TIGHT, s3, w, PcOf(s3, w));
    assert t.workers == s4.workers;
    assert t.history == s4.history;
    ReachableDeferral(TIGHT, s3, w, s4);
  }

  /** A reachable state in which one analysis has been claimed three times, although
      max_attempts + ceil(4 * deadline / (3 * base)) is two. */
  lemma DocumentedBoundExceeded() returns (s: Sys)
    ensures Valid(TIGHT) && Reachable(TIGHT, s)
    ensures 0 in s.history
    ensures s.history[0].claims > TIGHT.maxAttempts + CeilDiv(4 * TIGHT.deadline, 3 * TIGHT.base)
  {
    hide Reachable;
    CapFreedAfterRefusals();
    ClaimRowZero(0.0, 1, FRESH, 0, DENIED, DENIED, NOTHING, History(1, 0, 0, 0, 1));
    Poll(0.0, 1, DENIED, DENIED, History(1, 0, 0, 0, 1));
    LateDeferral(0.0, 2, 1, DENIED, DENIED, Idle, DENIED, History(1, 1, 0, 0, 1));
    var waited := World(0.0, 2, Waiting(0.0, 0.5), RELEASED, 5, Idle, Idle, DENIED, History(1, 1, 1, 0, 1), DONE);
    ReachableStep(TIGHT, waited, Tick(0.5), waited.(clock := 0.5));
    ClaimRowZero(0.5, 2, Waiting(0.0, 0.5), 5, Idle, DENIED, History(1, 1, 1, 0, 1), History(2, 1, 1, 0, 1));
    Poll(0.5, 2, Idle, DENIED, History(2, 1, 1, 0, 1));
    LateDeferral(0.5, 3, 2, Idle, DENIED, Idle, Idle, History(2, 2, 1, 0, 1));
    ClaimRowZero(0.5, 3, Waiting(0.5, 0.5), 5, Idle, Idle, History(2, 2, 2, 0, 1), History(3, 2, 2, 0, 1));
    s := World(0.5, 4, Held(3, 0.5), RELEASED, 5, Working(0, 3, 1, 0.0), Idle, Idle, History(3, 2, 2, 0, 1), DONE);
  }

  /** Without a late deferral the documented bound holds on every run. */
  lemma DocumentedBoundWithoutLateDeferral(st: Settings, s: Sys, id: nat)
    requires Valid(st) && Reachable(st, s) && id in s.db.rows && id in s.history && s.history[id].late == 0
    ensures s.history[id].claims <= st.maxAttempts + CeilDiv(4 * st.deadline, 3 * st.base)
  {
    var trace :| Run(st, trace) && trace[0] == INITIAL && trace[|trace| - 1] == s;
    RunKeepsInv(st, trace, |trace| - 1);
    ClaimsAreBounded(st, s, id);
  }
}
