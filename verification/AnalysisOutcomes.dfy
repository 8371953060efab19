/** How analyses end, over whole runs: a row is COMPLETED, SKIPPED or FAILED exactly if its owner committed a
    conclusion that says so, or a sweep found it exhausted. */
module AnalysisOutcomes {
  import opened Basics
  import opened AnalysisRows
  import opened AnalysisTiming
  import opened AnalysisProtocol
  import opened AnalysisFacts

  ghost predicate Follows(st: Settings, trace: seq<Sys>, steps: seq<Step>)
  {
    |trace| == |steps| + 1
    && forall i :: 0 <= i < |steps| ==> Enabled(st, trace[i], steps[i]) && trace[i + 1] == Apply(st, trace[i], steps[i])
  }

  lemma FollowsIsRun(st: Settings, trace: seq<Sys>, steps: seq<Step>)
    requires Follows(st, trace, steps)
    ensures Run(st, trace)
  {
    hide Enabled, Apply;
    forall i | 0 <= i < |trace| - 1 ensures Next(st, trace[i], trace[i + 1]) {
      assert Enabled(st, trace[i], steps[i]);
    }
  }

  // ---- what a conclusion comes to -----------------------------------------------------------

  /** A success completes; unusable input, or QA that will not come, skips; a permanent failure, or any other at
      the last attempt, fails; the rest is tried again. */
  function Verdict(st: Settings, attempts: int, createdAt: real, now: real, o: Outcome): Status
  {
    match o
    case Success => Completed
    case UnusableInput => Skipped
    case Failure(kind, _, _) =>
      if NothingToAnalyse(st, kind == QaUnavailable, kind == QaNotReady, createdAt, now) then Skipped
      else if kind != QaNotReady && GivesUp(st, kind == Permanent, attempts) then Status.Failed
      else RetryWait
  }

  /** The write a worker decides on leaves the row it owns as its verdict says. */
  lemma WriteFollowsVerdict(
    st: Settings, r: Row, q: Row, attempts: int, createdAt: real, now: real, o: Outcome)
    ensures var write := Decide(st, r, attempts, createdAt, now, o);
      && WrittenRow(q, write).status == Verdict(st, attempts, createdAt, now, o)
      && !write.Renew?
  {
    hide PollDelay, BackoffDelay;
  }

  // ---- registration and renewal -------------------------------------------------------------

  /** A newly registered analysis has spent nothing and can be claimed from its initial delay on, not before;
      a sweep puts it on the queue at once only if nobody published it and it has no delay to wait for. */
  lemma RegisteredWaits(st: Settings, now: real, delay: Option<real>, published: bool, at: real)
    requires Valid(st) && (delay.Some? ==> delay.value > 0.0) && at >= now
    ensures var r := NewRow(now, delay, published);
      && r.attempts == 0 && r.token.None? && r.lease.None? && r.reserved.None? && r.createdAt == now
      && (Ready(st, r, at) <==> delay.None? || at >= now + delay.value)
      && (WantsJob(st, r, now) <==> !published && delay.None?)
  {
  }

  /** A renewal extends the lease by one lease from now if the row is still its owner's; otherwise it changes
      nothing and the worker stops. */
  lemma RenewalExactly(st: Settings, s: Sys, w: nat)
    requires PcOf(s, w).Working?
    ensures Enabled(st, s, RenewLease(w))
    ensures var t, pc := Apply(st, s, RenewLease(w)), PcOf(s, w);
      if HeldUnder(s.db.rows, pc.id, pc.token) then
        && t.db.rows == s.db.rows[pc.id := s.db.rows[pc.id].(lease := Some(s.clock + st.leaseSeconds))]
        && t.db.ledger == s.db.ledger && t.workers == s.workers
      else t.db == s.db && t.workers == s.workers[w := Idle]
  {
  }

  // ---- over runs ----------------------------------------------------------------------------

  /** Step `n` is worker `w` concluding its work on row `id`, step `m` its commit, with nothing else of that worker
      in between; the row is still its own, and the verdict is `status`. */
  ghost predicate Committed(st: Settings, trace: seq<Sys>, steps: seq<Step>, n: nat, m: nat, id: nat, status: Status)
    requires n < m < |steps| && |trace| == |steps| + 1
  {
    && steps[n].Conclude? && steps[m] == Commit(steps[n].w)
    && var w, pc := steps[n].w, PcOf(trace[n], steps[n].w);
       && pc.Working? && pc.id == id && HeldUnder(trace[m].db.rows, id, pc.token)
       && (forall j :: n < j <= m ==> PcOf(trace[j], w) == PcOf(trace[n + 1], w))
       && Verdict(st, pc.attempts, pc.createdAt, trace[n].clock, steps[n].outcome) == status
  }

  /** A sweep finds the row exhausted, with nobody at work on it. */
  ghost predicate SweptUp(st: Settings, s: Sys, step: Step, id: nat)
  {
    step.Finalize? && id in step.chosen && id in s.db.rows && Exhausted(st, s.db.rows[id], s.clock)
  }

  /** By step `m` the row ends with this status. */
  ghost predicate EndsAt(st: Settings, trace: seq<Sys>, steps: seq<Step>, m: nat, id: nat, status: Status)
    requires m < |steps| && |trace| == |steps| + 1
  {
    || (exists n: nat :: n < m && Committed(st, trace, steps, n, m, id, status))
    || (status == Status.Failed && SweptUp(st, trace[m], steps[m], id))
  }

  /** A worker that is writing concluded its work before, and has done nothing since. */
  ghost predicate WritesSince(st: Settings, trace: seq<Sys>, steps: seq<Step>, n: nat, i: nat, w: nat)
    requires n < i < |trace| && |trace| == |steps| + 1
  {
    && steps[n].Conclude? && steps[n].w == w
    && var pc, now := PcOf(trace[n], w), PcOf(trace[i], w);
       && pc.Working? && now.Writing? && now.id == pc.id && now.token == pc.token && pc.id in trace[n].db.rows
       && now.write == Decide(st, trace[n].db.rows[pc.id], pc.attempts, pc.createdAt, trace[n].clock, steps[n].outcome)
       && forall j :: n < j <= i ==> PcOf(trace[j], w) == now
  }

  lemma WritingComesFrom(st: Settings, s: Sys, step: Step, w: nat)
    requires Enabled(st, s, step) && PcOf(Apply(st, s, step), w).Writing?
    ensures var pc := PcOf(Apply(st, s, step), w);
      || pc == PcOf(s, w)
      || (&& step.Conclude? && step.w == w && PcOf(s, w).Working? && PcOf(s, w).id in s.db.rows
          && pc.id == PcOf(s, w).id && pc.token == PcOf(s, w).token
          && pc.write == Decide(st, s.db.rows[pc.id], PcOf(s, w).attempts, PcOf(s, w).createdAt, s.clock, step.outcome))
  {
    hide ClaimTxn, DeferTxn, FencedTxn, FinalizeTxn, Decide, Publishable;
  }

  lemma {:induction false} WritingWasConcluded(st: Settings, trace: seq<Sys>, steps: seq<Step>, i: nat, w: nat)
    requires Follows(st, trace, steps) && trace[0] == INITIAL && i < |trace| && PcOf(trace[i], w).Writing?
    ensures exists n: nat :: n < i && WritesSince(st, trace, steps, n, i, w)
  {
    hide Enabled, Apply, Decide;
    if i > 0 {
      assert Enabled(st, trace[i - 1], steps[i - 1]) && trace[i - 1 + 1] == Apply(st, trace[i - 1], steps[i - 1]);
      WritingComesFrom(st, trace[i - 1], steps[i - 1], w);
      if PcOf(trace[i], w) == PcOf(trace[i - 1], w) {
        WritingWasConcluded(st, trace, steps, i - 1, w);
        var n: nat :| n < i - 1 && WritesSince(st, trace, steps, n, i - 1, w);
        assert WritesSince(st, trace, steps, n, i, w);
      } else {
        assert WritesSince(st, trace, steps, i - 1, i, w);
      }
    }
  }

  /** A row ends in one of two ways. */
  lemma EndingStep(st: Settings, s: Sys, step: Step, id: nat)
    requires Enabled(st, s, step) && id in Apply(st, s, step).db.rows
    requires var q := Apply(st, s, step).db.rows[id];
      Terminal(q.status) && !(id in s.db.rows && Terminal(s.db.rows[id].status))
    ensures var q := Apply(st, s, step).db.rows[id];
      || (q.status == Status.Failed && SweptUp(st, s, step, id))
      || (&& step.Commit? && PcOf(s, step.w).Writing? && PcOf(s, step.w).id == id
          && HeldUnder(s.db.rows, id, PcOf(s, step.w).token)
          && q.status == WrittenRow(s.db.rows[id], PcOf(s, step.w).write).status)
  {
    hide Decide, Publishable, Claimable, ReleaseBudget;
  }

  /** ... and both end it. */
  lemma CommitEnds(st: Settings, s: Sys, w: nat, id: nat)
    requires PcOf(s, w).Writing? && PcOf(s, w).id == id && HeldUnder(s.db.rows, id, PcOf(s, w).token)
    ensures var t := Apply(st, s, Commit(w));
      id in t.db.rows && t.db.rows[id].status == WrittenRow(s.db.rows[id], PcOf(s, w).write).status
  {
    hide ReleaseBudget, WrittenRow;
  }

  lemma SweepEnds(st: Settings, s: Sys, step: Step, id: nat)
    requires SweptUp(st, s, step, id)
    ensures Enabled(st, s, step)
    ensures var t := Apply(st, s, step); id in t.db.rows && t.db.rows[id].status == Status.Failed
  {
  }

  lemma EndsByThen(st: Settings, trace: seq<Sys>, steps: seq<Step>, m: nat, id: nat, status: Status)
    requires Follows(st, trace, steps) && trace[0] == INITIAL && m < |steps| && Terminal(status)
    requires EndsAt(st, trace, steps, m, id, status)
    ensures id in trace[m + 1].db.rows && trace[m + 1].db.rows[id].status == status
  {
    hide Enabled, Apply, Decide, WrittenRow, Verdict, Exhausted;
    assert Enabled(st, trace[m], steps[m]) && trace[m + 1] == Apply(st, trace[m], steps[m]);
    if n: nat :| n < m && Committed(st, trace, steps, n, m, id, status) {
      var w, pc := steps[n].w, PcOf(trace[n], steps[n].w);
      assert Enabled(st, trace[n], steps[n]) && trace[n + 1] == Apply(st, trace[n], steps[n]);
      ConcludedWrite(st, trace[n], steps[n]);
      WriteFollowsVerdict(st, trace[n].db.rows[id], trace[m].db.rows[id], pc.attempts, pc.createdAt, trace[n].clock, steps[n].outcome);
      CommitEnds(st, trace[m], w, id);
    } else {
      SweepEnds(st, trace[m], steps[m], id);
    }
  }

  lemma ConcludedWrite(st: Settings, s: Sys, step: Step)
    requires Enabled(st, s, step) && step.Conclude?
    ensures var pc, now := PcOf(s, step.w), PcOf(Apply(st, s, step), step.w);
      && pc.Working? && now.Writing? && now.id == pc.id && now.token == pc.token && pc.id in s.db.rows
      && now.write == Decide(st, s.db.rows[pc.id], pc.attempts, pc.createdAt, s.clock, step.outcome)
  {
    hide Decide;
  }

  lemma {:induction false} EndedEarlier(st: Settings, trace: seq<Sys>, steps: seq<Step>, i: nat, id: nat)
    requires Follows(st, trace, steps) && trace[0] == INITIAL && i < |trace|
    requires id in trace[i].db.rows && Terminal(trace[i].db.rows[id].status)
    ensures exists m: nat :: m < i && EndsAt(st, trace, steps, m, id, trace[i].db.rows[id].status)
  {
    hide Enabled, Apply, Decide, WrittenRow, Verdict, Exhausted, Terminal;
    if i > 0 {
      var s, step := trace[i - 1], steps[i - 1];
      assert Enabled(st, s, step) && trace[i - 1 + 1] == Apply(st, s, step);
      if id in s.db.rows && Terminal(s.db.rows[id].status) {
        TerminalStep(st, s, step, id);
        EndedEarlier(st, trace, steps, i - 1, id);
      } else {
        EndingStep(st, s, step, id);
        if !(trace[i].db.rows[id].status == Status.Failed && SweptUp(st, s, step, id)) {
          WritingWasConcluded(st, trace, steps, i - 1, step.w);
          var n: nat :| n < i - 1 && WritesSince(st, trace, steps, n, i - 1, step.w);
          var pc := PcOf(trace[n], step.w);
          WriteFollowsVerdict(st, trace[n].db.rows[id], s.db.rows[id], pc.attempts, pc.createdAt, trace[n].clock, steps[n].outcome);
          assert Committed(st, trace, steps, n, i - 1, id, trace[i].db.rows[id].status);
        }
        assert EndsAt(st, trace, steps, i - 1, id, trace[i].db.rows[id].status);
      }
    }
  }

  /** In every state of every run a row is COMPLETED if and only if its owner committed a success; SKIPPED if and
      only if its owner committed that there is nothing to analyse; FAILED if and only if its owner committed a
      final failure, or a sweep found it exhausted. */
  lemma EndsIff(st: Settings, trace: seq<Sys>, steps: seq<Step>, i: nat, id: nat, status: Status)
    requires Follows(st, trace, steps) && trace[0] == INITIAL && i < |trace|
    requires status in {Completed, Skipped, Status.Failed}
    ensures (id in trace[i].db.rows && trace[i].db.rows[id].status == status) <==>
      exists m: nat :: m < i && EndsAt(st, trace, steps, m, id, status)
  {
    hide Enabled, Apply, EndsAt;
    if id in trace[i].db.rows && trace[i].db.rows[id].status == status {
      EndedEarlier(st, trace, steps, i, id);
    } else if m: nat :| m < i && EndsAt(st, trace, steps, m, id, status) {
      EndsByThen(st, trace, steps, m, id, status);
      FollowsIsRun(st, trace, steps);
      TerminalIsForever(st, trace, m + 1, i, id);
    }
  }
}
