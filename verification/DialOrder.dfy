/** In what order the attempts of a contact come about: when a retry is taken on, every earlier attempt
    stands, but for the jobs a rebuild derives from a due time without a number. */
module DialOrder {
  import opened Basics
  import opened DialRows
  import opened DialProtocol
  import opened DialSafety
  import opened DialRetries
  import opened DialLosses

  /** Whoever is owed a retry has every earlier attempt behind him. */
  ghost predicate EarlierStand(s: Sys)
  {
    forall k: Key, j: Key :: k in s.owed && j.contact == k.contact && 1 <= j.number < k.number ==> Stands(s, j)
  }

  /** The rebuild takes on the retry after an attempt that is held, or may yet be taken back. */
  ghost predicate Outruns(s: Sys, step: Step)
  {
    step.RebuildEntry? && step.k !in s.owed && step.k.number > 1
    && !Stands(s, Key(step.k.contact, step.k.number - 1))
  }

  // ---- which jobs a step takes on -----------------------------------------------------------

  function NewJobs(s: Sys, step: Step): set<Key>
  {
    var after := Schedules(s, step);
    if after.Some? then {NextKey(after.value)} else TakenOn(step)
  }

  lemma EnvOwedGrows(s: Sys, step: Step)
    requires EnvEnabled(s, step) && EnvStep(step)
    ensures ApplyEnv(s, step).owed == s.owed + NewJobs(s, step)
  {
    hide WebhookDb, SweepDb, AfterDispatch, MayHaveRun, Waiting, Rebuildable;
    if step.Dispatch? {
      DispatchShape(s, step.k, step.check, step.more);
    }
  }

  lemma WorkerOwedGrows(s: Sys, step: Step)
    requires WorkerEnabled(s, step) && !EnvStep(step)
    ensures ApplyWorker(s, step).owed == s.owed + NewJobs(s, step)
  {
    hide Look, LookDb, RecordDb, AfterLookup, ClaimDb, NoRun, Fails, Honest, AfterSettle, Holds;
    if step.Settle? {
      SettleShape(s, step.w, step.paused, step.due);
    }
  }

  lemma OwedGrows(s: Sys, step: Step)
    requires Enabled(s, step)
    ensures Apply(s, step).owed == s.owed + NewJobs(s, step)
  {
    hide EnvEnabled, WorkerEnabled, ApplyEnv, ApplyWorker, NewJobs;
    if EnvStep(step) {
      EnvOwedGrows(s, step);
    } else {
      WorkerOwedGrows(s, step);
    }
  }

  /** The attempt after which a retry is scheduled stands. */
  lemma ScheduledAfterStanding(s: Sys, step: Step)
    requires Inv(s) && Enabled(s, step) && Schedules(s, step).Some?
    ensures var k := Schedules(s, step).value; k in s.owed && k.number >= 1 && Stands(Apply(s, step), k)
  {
    hide Ordered, ColumnsOk, LogOk, WorkersOk, StreamOk, Settled, AllRejected, NoRun, Fails, RecordDb, AfterLookup, WebhookDb;
    if step.Webhook? {
      HasRunStands(s, step.k);
      hide MayHaveRun;
      EnvKeepsStanding(s, step, step.k);
    } else {
      var pc := PcOf(s, step.w);
      OwedFacts(s, step.w);
      hide Committed, Stands;
      if step.Resolve? {
        ResolvedRowStands(s.db, pc.k, step.lookup, step.d);
        CommittedStands(s, step.w, pc.m, pc.k, AfterLookup(s.db, pc.k, step.lookup, step.d), true);
      } else {
        FailsOrHolds(pc.answer, step.lookup);
        hide Holds;
        RecordedRowStands(s.db, pc.k, pc.answer, pc.status, pc.count, step.lookup, step.d);
        CommittedStands(s, step.w, pc.m, pc.k,
                        RecordDb(s.db, pc.k, pc.answer, pc.status, pc.count, step.lookup, step.d), true);
      }
    }
  }

  lemma HasRunStands(s: Sys, k: Key)
    requires Inv(s) && k in s.owed && MayHaveRun(s.log, k)
    ensures k.number >= 1 && Stands(s, k)
  {
    HasRunFacts(s.db, s.owed, s.log, k);
    hide Ordered, ColumnsOk, LogOk, StreamOk, Settled, AllRejected, MayHaveRun;
    forall w | w in s.workers && Risky(s.workers[w]) ensures s.workers[w].k != k {
      assert PcOk(s, w, s.workers[w]);
    }
  }

  /** A job the rebuild takes on anew is the one after the latest attempt. */
  lemma RebuildDerives(s: Sys, k: Key)
    requires Inv(s) && Waiting(s.db, k) && k !in s.owed
    ensures k.number > 1 && Latest(s.db, Key(k.contact, k.number - 1)) && Key(k.contact, k.number - 1) in s.owed
    ensures s.db.contacts[k.contact].retry == None
  {
    hide LogOk, WorkersOk, StreamOk, Settled;
    assert k == Key(k.contact, k.number);
  }

  // ---- exactly when the order is lost -------------------------------------------------------

  lemma StandingStays(s: Sys, step: Step, j: Key)
    requires Inv(s) && Enabled(s, step) && Stands(s, j)
    ensures Stands(Apply(s, step), j)
  {
    hide Inv, Stands, EnvEnabled, WorkerEnabled, ApplyEnv, ApplyWorker;
    if EnvStep(step) {
      EnvKeepsStanding(s, step, j);
    } else {
      WorkerKeepsStanding(s, step, j);
    }
  }

  /** Before a job that is taken on, every earlier attempt stands, unless a rebuild outruns one. */
  lemma NewJobFollows(s: Sys, step: Step, k: Key, j: Key)
    requires Inv(s) && EarlierStand(s) && Enabled(s, step) && !Outruns(s, step)
    requires k in NewJobs(s, step) && k !in s.owed && j.contact == k.contact && 1 <= j.number < k.number
    ensures Stands(Apply(s, step), j)
  {
    hide Inv, Stands, EnvEnabled, WorkerEnabled, ApplyEnv, ApplyWorker, Schedules;
    assert j == Key(k.contact, j.number);
    if Schedules(s, step).Some? {
      ScheduledAfterStanding(s, step);
      if j != Schedules(s, step).value {
        assert Schedules(s, step).value == Key(k.contact, k.number - 1);
        StandingStays(s, step, j);
      }
    } else if step.RebuildEntry? {
      assert Waiting(s.db, k) by { EnabledRebuild(s, step); }
      hide Waiting;
      RebuildDerives(s, k);
      StandingStays(s, step, j);
    }
  }

  lemma EnabledRebuild(s: Sys, step: Step)
    requires Enabled(s, step) && step.RebuildEntry?
    ensures var t := Apply(s, step);
      Waiting(s.db, step.k) && step.k in t.owed && t.db == s.db && t.workers == s.workers
  {
  }

  /** From a state in which earlier attempts stand, exactly the rebuild that outruns one leads out. */
  lemma OrderLostExactly(s: Sys, step: Step)
    requires Inv(s) && EarlierStand(s) && Enabled(s, step)
    ensures EarlierStand(Apply(s, step)) <==> !Outruns(s, step)
  {
    hide Inv, Stands, EnvEnabled, WorkerEnabled, ApplyEnv, ApplyWorker, NewJobs;
    var t := Apply(s, step);
    if Outruns(s, step) {
      EnabledRebuild(s, step);
      OutrunNeverStood(s, t, Key(step.k.contact, step.k.number - 1));
    } else {
      OwedGrows(s, step);
      forall k: Key, j: Key | k in t.owed && j.contact == k.contact && 1 <= j.number < k.number ensures Stands(t, j) {
        if k in s.owed {
          StandingStays(s, step, j);
        } else {
          NewJobFollows(s, step, k, j);
        }
      }
    }
  }

  lemma OutrunNeverStood(s: Sys, t: Sys, p: Key)
    requires t.db == s.db && t.workers == s.workers
    ensures Stands(t, p) == Stands(s, p)
  {
  }

  lemma {:induction false} OrderedUpTo(trace: seq<Sys>, steps: seq<Step>, i: nat)
    requires Follows(trace, steps) && trace[0] == INITIAL && i < |trace|
    requires forall j :: 0 <= j < i ==> !Outruns(trace[j], steps[j])
    ensures EarlierStand(trace[i])
  {
    if i > 0 {
      hide Outruns, EarlierStand, Enabled, Apply, Inv, Run;
      OrderedUpTo(trace, steps, i - 1);
      FollowsIsRun(trace, steps);
      RunKeepsInv(trace, i - 1);
      OrderLostExactly(trace[i - 1], steps[i - 1]);
      assert trace[i - 1 + 1] == Apply(trace[i - 1], steps[i - 1]);
    }
  }

  /** In a run earlier attempts stand throughout if and only if no rebuild outruns one. */
  lemma EarlierStandIff(trace: seq<Sys>, steps: seq<Step>)
    requires Follows(trace, steps) && trace[0] == INITIAL
    ensures (forall i :: 0 <= i < |trace| ==> EarlierStand(trace[i])) <==>
      (forall i :: 0 <= i < |steps| ==> !Outruns(trace[i], steps[i]))
  {
    hide Outruns, EarlierStand, Enabled, Apply, Inv, Run;
    FollowsIsRun(trace, steps);
    if i :| 0 <= i < |steps| && Outruns(trace[i], steps[i]) {
      RunKeepsInv(trace, i);
      if EarlierStand(trace[i]) {
        OrderLostExactly(trace[i], steps[i]);
        assert trace[i + 1] == Apply(trace[i], steps[i]);
      }
    } else {
      forall i | 0 <= i < |trace| ensures EarlierStand(trace[i]) {
        OrderedUpTo(trace, steps, i);
      }
    }
  }

  // ---- where a due time without a number comes from -----------------------------------------

  /** The dispatcher postpones an entry whose number has its row, while the contact waits with empty
      columns: it writes the due time alone. */
  predicate Unnumbers(s: Sys, step: Step)
  {
    step.Dispatch? && step.k.number != 1 && step.k.contact in s.db.contacts && step.k in s.db.attempts
    && !ClearsColumns(s.db, step.k, step.check) && s.db.contacts[step.k.contact].retry == None
  }

  /** A due time without a number belongs to a retry that has no row yet. */
  ghost predicate Accounted(s: Sys)
  {
    forall c :: c in s.db.contacts && s.db.contacts[c].due && s.db.contacts[c].retry == None ==>
      exists k :: OpenJob(s, c, k)
  }

  predicate OpenJob(s: Sys, c: nat, k: Key) { k in s.owed && k.contact == c && k !in s.db.attempts }

  /** What a step other than a dispatch leaves of a due time without a number: it was there before, and no
      row was added for the contact. */
  ghost predicate DueAsBefore(s: Sys, t: Sys)
  {
    && s.owed <= t.owed
    && forall c :: c in t.db.contacts && t.db.contacts[c].due && t.db.contacts[c].retry == None ==>
         && c in s.db.contacts && s.db.contacts[c].due && s.db.contacts[c].retry == None
         && forall k :: k in t.db.attempts && k.contact == c ==> k in s.db.attempts
  }

  lemma DueStaysAccounted(s: Sys, t: Sys)
    requires Accounted(s) && DueAsBefore(s, t)
    ensures Accounted(t)
  {
    forall c | c in t.db.contacts && t.db.contacts[c].due && t.db.contacts[c].retry == None
      ensures exists k :: OpenJob(t, c, k) {
      var k :| OpenJob(s, c, k);
      assert OpenJob(t, c, k);
    }
  }

  lemma DispatchStaysAccounted(s: Sys, k: Key, check: Check, more: bool)
    requires Accounted(s) && k in s.scheduled && s.scheduled <= s.owed && !Unnumbers(s, Dispatch(k, check, more))
    ensures Accounted(AfterDispatch(s, k, check, more))
  {
    DispatchShape(s, k, check, more);
    var t := AfterDispatch(s, k, check, more);
    assert t.db == DispatchDb(s.db, k, check);
    hide AfterDispatch;
    forall c | c in t.db.contacts && t.db.contacts[c].due && t.db.contacts[c].retry == None
      ensures exists j :: OpenJob(t, c, j) {
      if s.db.contacts[c].due && s.db.contacts[c].retry == None {
        var j :| OpenJob(s, c, j);
        assert OpenJob(t, c, j);
      } else {
        assert OpenJob(t, c, k);
      }
    }
  }

  lemma EnvDueAsBefore(s: Sys, step: Step)
    requires EnvEnabled(s, step) && EnvStep(step) && !step.Dispatch?
    ensures DueAsBefore(s, ApplyEnv(s, step))
  {
    hide MayHaveRun, Waiting, Rebuildable, Swept, WebhookDb;
    if step.Webhook? {
      WebhookColumns(s.db, step.k, step.run, step.connected, step.status, step.d);
    }
  }

  lemma WebhookColumns(db: Db, k: Key, run: Option<nat>, connected: bool, status: ContactStatus, d: Decision)
    requires k in db.attempts && k.contact in db.contacts
    ensures WritesColumns(db, WebhookDb(db, k, run, connected, status, d), k, d.Schedule?)
  {
  }

  lemma LookDueAsBefore(s: Sys, w: nat, m: nat, k: Key, r: LookResult)
    requires r.Expired? || r.Reopen? ==> k.contact in s.db.contacts
    requires r.Reopen? ==> k.number > 1 && Key(k.contact, k.number - 1) in s.db.attempts && r.runs != []
    ensures DueAsBefore(s, AfterLook(s, w, m, k, r))
  {
  }

  lemma CommitDueAsBefore(s: Sys, w: nat, pc: Pc, db: Db, k: Key, scheduled: bool)
    requires WritesColumns(s.db, db, k, scheduled)
    ensures DueAsBefore(s, Committed(Moved(s, w, pc), db, k, scheduled))
  {
  }

  lemma ClaimDueAsBefore(s: Sys, w: nat)
    requires WorkerEnabled(s, Claim(w))
    ensures DueAsBefore(s, AfterClaim(s, w, PcOf(s, w)))
  {
  }

  lemma WorkerDueAsBefore(s: Sys, step: Step)
    requires WorkerEnabled(s, step) && !EnvStep(step)
    ensures DueAsBefore(s, ApplyWorker(s, step))
  {
    hide DueAsBefore, Look, LookDb, RecordDb, AfterLookup, ClaimDb, NoRun, Fails, Holds, Honest, WritesColumns, Committed;
    var pc := PcOf(s, step.w);
    if step.LookAt? {
      LookFits(s, pc.k, step.view);
      hide AfterLook;
      LookDueAsBefore(s, step.w, pc.m, pc.k, Look(s.db, pc.k, s.clock, step.view));
    } else if step.Claim? {
      hide AfterClaim;
      ClaimDueAsBefore(s, step.w);
    } else if step.Resolve? {
      LookupColumns(s.db, pc.k, step.lookup, step.d);
      CommitDueAsBefore(s, step.w, Leaving(pc.m, pc.k, Acknowledge), AfterLookup(s.db, pc.k, step.lookup, step.d), pc.k,
                        NoRun(step.lookup) && step.d.Schedule?);
    } else if step.Record? {
      RecordColumns(s.db, pc.k, pc.answer, pc.status, pc.count, step.lookup, step.d);
      CommitDueAsBefore(s, step.w, Leaving(pc.m, pc.k, if Holds(pc.answer) then Keep else Acknowledge),
                        RecordDb(s.db, pc.k, pc.answer, pc.status, pc.count, step.lookup, step.d), pc.k,
                        Fails(pc.answer, step.lookup) && step.d.Schedule?);
    } else {
      MoveDueAsBefore(s, step);
    }
  }

  lemma MoveDueAsBefore(s: Sys, step: Step)
    requires WorkerEnabled(s, step) && !EnvStep(step)
    requires !step.LookAt? && !step.Claim? && !step.Resolve? && !step.Record?
    ensures DueAsBefore(s, ApplyWorker(s, step))
  {
    hide AfterLook, AfterResolve, AfterClaim, AfterRecord, AfterSettle, Look;
    if MoveStep(step, step.w) {
      MoveShape(s, step, step.w);
      hide ApplyWorker;
    }
  }

  lemma StepStaysAccounted(s: Sys, step: Step)
    requires Inv(s) && Accounted(s) && Enabled(s, step) && !Unnumbers(s, step)
    ensures Accounted(Apply(s, step))
  {
    hide Accounted, Unnumbers, DueAsBefore, Ordered, ColumnsOk, LogOk, WorkersOk;
    if step.Dispatch? {
      DispatchStaysAccounted(s, step.k, step.check, step.more);
    } else if EnvStep(step) {
      hide EnvEnabled, ApplyEnv;
      EnvDueAsBefore(s, step);
      DueStaysAccounted(s, ApplyEnv(s, step));
    } else {
      hide WorkerEnabled, ApplyWorker;
      WorkerDueAsBefore(s, step);
      DueStaysAccounted(s, ApplyWorker(s, step));
    }
  }

  lemma {:induction false} AccountedUpTo(trace: seq<Sys>, steps: seq<Step>, i: nat)
    requires Follows(trace, steps) && trace[0] == INITIAL && i < |trace|
    requires forall j :: 0 <= j < i ==> !Unnumbers(trace[j], steps[j])
    ensures Accounted(trace[i])
  {
    if i > 0 {
      hide Unnumbers, Accounted, Enabled, Apply, Inv, Run;
      AccountedUpTo(trace, steps, i - 1);
      FollowsIsRun(trace, steps);
      RunKeepsInv(trace, i - 1);
      StepStaysAccounted(trace[i - 1], steps[i - 1]);
      assert trace[i - 1 + 1] == Apply(trace[i - 1], steps[i - 1]);
    }
  }

  /** The one job of a contact that has no row yet is the one after the latest attempt. */
  lemma OpenJobIsNext(s: Sys, p: Key, j: Key)
    requires Inv(s) && Latest(s.db, p) && OpenJob(s, p.contact, j)
    ensures j == NextKey(p)
  {
    hide ColumnsOk, LogOk, WorkersOk, StreamOk, Settled;
    assert p == Key(p.contact, p.number) && j == Key(j.contact, j.number);
    assert NextKey(p) !in s.db.attempts;
    assert j.number < p.number ==> j in s.db.attempts;
    assert j.number > NextKey(p).number ==> NextKey(p) in s.db.attempts;
  }

  lemma AccountedDerivesNothing(s: Sys, k: Key)
    requires Inv(s) && Accounted(s) && Waiting(s.db, k)
    ensures k in s.owed
  {
    hide Ordered, ColumnsOk, LogOk, WorkersOk, StreamOk, Latest;
    if k !in s.owed {
      RebuildDerives(s, k);
      var j :| OpenJob(s, k.contact, j);
      OpenJobIsNext(s, Key(k.contact, k.number - 1), j);
    }
  }

  /** Unless such an entry is postponed, a rebuild takes on no job, so it outruns none. */
  lemma RebuildTakesOnNothing(trace: seq<Sys>, steps: seq<Step>, i: nat)
    requires Follows(trace, steps) && trace[0] == INITIAL && i < |steps|
    requires forall j :: 0 <= j < i ==> !Unnumbers(trace[j], steps[j])
    ensures steps[i].RebuildEntry? ==> steps[i].k in trace[i].owed
    ensures !Outruns(trace[i], steps[i])
  {
    hide Unnumbers, Accounted, Apply, Inv, Run, Waiting, OpenJob;
    assert Enabled(trace[i], steps[i]);
    AccountedUpTo(trace, steps, i);
    FollowsIsRun(trace, steps);
    RunKeepsInv(trace, i);
    if steps[i].RebuildEntry? {
      EnabledRebuild(trace[i], steps[i]);
      AccountedDerivesNothing(trace[i], steps[i].k);
    }
  }

  /** ... and once it has been postponed, the rebuild may derive the attempt after the latest at once. It
      takes on a new job exactly if that one is not owed, and outruns exactly if the latest may not stand. */
  lemma UnnumberedIsDerived(s: Sys, step: Step, p: Key)
    requires Enabled(s, step) && Unnumbers(s, step) && Latest(s.db, p) && p.contact == step.k.contact && p.number >= 1
    ensures var t := Apply(s, step);
      && Enabled(t, RebuildEntry(NextKey(p)))
      && (Outruns(t, RebuildEntry(NextKey(p))) <==> NextKey(p) !in s.owed && !Stands(s, p))
  {
    DispatchShape(s, step.k, step.check, step.more);
    var t := Apply(s, step);
    assert t.db == DispatchDb(s.db, step.k, step.check) && t.workers == s.workers && t.owed == s.owed;
    assert Key(NextKey(p).contact, NextKey(p).number - 1) == p;
    assert Latest(t.db, p);
    assert Stands(t, p) == Stands(s, p);
  }

  // ---- what the order is good for -----------------------------------------------------------

  /** While earlier attempts stand no hold uncovers a retry. */
  lemma OrderedHoldUncoversNothing(s: Sys, step: Step, k: Key)
    requires Inv(s) && EarlierStand(s) && Enabled(s, step) && Open(s, k)
    ensures !Uncovers(s, step, k)
  {
    hide ColumnsOk, LogOk, WorkersOk, StreamOk, Settled, Untaken;
    if step.Record? && PcOf(s, step.w).Triggered? && PcOf(s, step.w).k.contact == k.contact {
      var j := PcOf(s, step.w).k;
      OwedFacts(s, step.w);
      assert j == Key(j.contact, j.number) && k == Key(k.contact, k.number);
      assert j in s.db.attempts;
      assert k.number < j.number ==> k in s.db.attempts;
      assert Stands(s, j);
    }
  }
}
