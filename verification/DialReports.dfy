/** What reaches a row from outside, field by field: the provider's webhook, the dead-letter handler, the
    dispatcher; and over runs, that a call id on a row is always one the provider reported for that job. */
module DialReports {
  import opened Basics
  import opened DialRows
  import opened DialProtocol

  // ---- single steps -------------------------------------------------------------------------

  /** The webhook is taken exactly for a row that is in flight, or failed without a run after an ambiguous
      trigger. It gives the row its run, unless it has one, and ends it; the contact moves on as the webhook
      says and then as recovery decides. */
  lemma WebhookLands(s: Sys, k: Key, run: Option<nat>, connected: bool, status: ContactStatus, d: Decision)
    requires k in s.db.attempts && k in s.owed && k.contact in s.db.contacts && MayHaveRun(s.log, k)
    requires MovesOn(s.db, k, status) && DecisionOk(d)
    ensures var step, a := Webhook(k, run, connected, status, d), s.db.attempts[k];
      && (EnvEnabled(s, step) <==>
            a.state.Initiated? || (a.state.FailedToConnect? && a.callId.None? && a.ambiguous))
      && (EnvEnabled(s, step) ==>
            var t, c := ApplyEnv(s, step), s.db.contacts[k.contact];
            && k in t.db.attempts && t.db.attempts == s.db.attempts[k := t.db.attempts[k]]
            && k.contact in t.db.contacts && t.db.contacts == s.db.contacts[k.contact := t.db.contacts[k.contact]]
            && t.db.attempts[k].state == (if connected then Ended else FailedToConnect)
            && t.db.attempts[k].callId == (if a.callId.Some? then a.callId else run)
            && t.db.attempts[k].startedAt == a.startedAt && t.db.attempts[k].ambiguous == a.ambiguous
            && t.db.contacts[k.contact].count == c.count
            && t.db.contacts[k.contact].status ==
                 (match d case Schedule => RetryScheduled case Terminate(last) => last case Undecided => status)
            && (d.Schedule? ==> t.db.contacts[k.contact].due && t.db.contacts[k.contact].retry == Some(k.number + 1))
            && (!d.Schedule? ==> t.db.contacts[k.contact].due == c.due && t.db.contacts[k.contact].retry == c.retry)
            && (NextKey(k) in t.owed <==> d.Schedule? || NextKey(k) in s.owed))
  {
    hide MayHaveRun, MovesOn;
  }

  /** The sweep may take an attempt exactly if it is in flight since before the cutoff. It parks the contact;
      a row without a call id fails as ambiguous, so that a late webhook finds it open; one with a call id only
      gets an event. */
  lemma SweepLands(s: Sys, k: Key, cutoff: int)
    requires k in s.db.attempts && k.contact in s.db.contacts
    ensures var a := s.db.attempts[k];
      && (EnvEnabled(s, Sweep(k, cutoff)) <==> a.state.Initiated? && a.startedAt < cutoff)
      && (EnvEnabled(s, Sweep(k, cutoff)) ==>
            var t := ApplyEnv(s, Sweep(k, cutoff));
            && t.db.contacts == s.db.contacts[k.contact := s.db.contacts[k.contact].(status := NeedsReview)]
            && t.db.attempts == s.db.attempts[k :=
                 if a.callId.None? then Attempt(FailedToConnect, None, OtherEvent, true, a.startedAt)
                 else a.(event := OtherEvent)])
  {
  }

  /** A worker that leaves gives its lease back, then acknowledges, keeps the message, or goes on to settle the
      job, as it decided. */
  lemma LeaveGoesOn(s: Sys, w: nat)
    requires PcOf(s, w).Leaving?
    ensures var t, pc := ApplyWorker(s, Leave(w)), PcOf(s, w);
      && t.leases == s.leases - {pc.k} && t.db == s.db && t.stream == s.stream
      && t.workers == s.workers[w :=
           if pc.fate.Acknowledge? then AckOnly(pc.m, pc.k) else if pc.fate.Keep? then Idle else Got(pc.m, pc.k)]
  {
  }

  /** A poisoned message leaves the stream for the dead letters. Its contact is parked, its retry columns
      cleared, exactly if that write works and it was PENDING or RETRY_SCHEDULED; nothing else changes. */
  lemma DeadLetterParks(s: Sys, m: nat, recorded: bool)
    requires m in s.stream
    ensures var t, c := ApplyEnv(s, DeadLetter(m, recorded)), s.stream[m].contact;
      && t.stream == s.stream - {m} && t.dead == s.dead + {m} && t.guards == s.guards && t.owed == s.owed
      && t.db.attempts == s.db.attempts
      && (if recorded && c in s.db.contacts
             && (s.db.contacts[c].status.Pending? || s.db.contacts[c].status.RetryScheduled?)
          then t.db.contacts == s.db.contacts[c := Contact(NeedsReview, s.db.contacts[c].count, false, None)]
          else t.db.contacts == s.db.contacts)
  {
  }

  /** The dispatch of a retry puts it on the stream, with its guard, exactly if nothing is against it, its
      contact waits for a retry, the number has no row and no guard stands. An entry that is postponed stays. */
  lemma DispatchQueuesExactly(s: Sys, k: Key, check: Check, more: bool)
    requires k in s.scheduled && k.number > 1 && s.nextMid !in s.stream
    ensures var t := ApplyEnv(s, Dispatch(k, check, more));
      && (s.nextMid in t.stream <==>
            && check.Go? && k.contact in s.db.contacts && s.db.contacts[k.contact].status.RetryScheduled?
            && k !in s.db.attempts && k !in s.guards)
      && (s.nextMid in t.stream ==> t.stream == s.stream[s.nextMid := k] && t.guards == s.guards[k := s.nextMid])
      && (s.nextMid !in t.stream ==> t.stream == s.stream && t.guards == s.guards)
      && (check.Postponed? ==> k in t.scheduled)
  {
    hide OpenJobs;
  }

  /** Of a waiting contact the dispatch of a retry clears all three columns if the retry is not to run at all,
      or is to run now and has its row; otherwise it writes the due time. It changes nothing else. */
  lemma DispatchWritesColumns(s: Sys, k: Key, check: Check, more: bool)
    requires k in s.scheduled && k.number > 1 && k.contact in s.db.contacts
    ensures var t, c := ApplyEnv(s, Dispatch(k, check, more)), s.db.contacts[k.contact];
      && t.db.attempts == s.db.attempts && t.owed == s.owed && t.log == s.log
      && (if check.Ineligible? || c.status != RetryScheduled || (check.Go? && k in s.db.attempts)
          then t.db.contacts == s.db.contacts[k.contact := Contact(c.status, c.count, false, None)]
          else t.db.contacts == s.db.contacts[k.contact := Contact(c.status, c.count, true, c.retry)])
  {
    hide OpenJobs;
  }

  /** A deferred first attempt, and one enqueueing selects, go onto the stream exactly if the contact is PENDING,
      has spent nothing and no guard stands; no row changes. */
  lemma FirstAttemptsAreQueued(s: Sys, c: nat, more: bool)
    requires Key(c, 1) in s.owed && s.nextMid !in s.stream
    ensures var k, open := Key(c, 1), c in s.db.contacts && s.db.contacts[c].status.Pending? && s.db.contacts[c].count == 0;
      && (EnvEnabled(s, Queue(k)) <==> open && k !in s.guards)
      && (EnvEnabled(s, Queue(k)) ==>
            ApplyEnv(s, Queue(k)).stream == s.stream[s.nextMid := k] && ApplyEnv(s, Queue(k)).db == s.db)
      && (k in s.scheduled ==>
            var t := ApplyEnv(s, Dispatch(k, Go, more));
            && t.db == s.db
            && t.stream == (if open && k !in s.guards then s.stream[s.nextMid := k] else s.stream))
  {
    hide OpenJobs;
  }

  /** The rebuild reads a contact exactly if it waits for a retry and has a due time; the number is the one in
      the columns, or the one after its latest attempt if they hold none. */
  lemma RebuildReads(s: Sys, k: Key)
    requires k.number > 1
    ensures EnvEnabled(s, RebuildEntry(k)) <==>
      && k.contact in s.db.contacts && s.db.contacts[k.contact].status.RetryScheduled? && s.db.contacts[k.contact].due
      && (s.db.contacts[k.contact].retry == Some(k.number)
          || (&& s.db.contacts[k.contact].retry == None && Key(k.contact, k.number - 1) in s.db.attempts
              && forall j :: j in s.db.attempts && j.contact == k.contact ==> j.number < k.number))
  {
  }

  // ---- where a call id comes from -----------------------------------------------------------

  /** In this step the provider reports run `r` for job `k`: as the answer to its trigger, as the only run of a
      listing for it, or by webhook. */
  predicate Reports(s: Sys, step: Step, k: Key, r: nat)
  {
    match step
    case Record(w, lookup, _) =>
      PcOf(s, w).Triggered? && PcOf(s, w).k == k
      && (PcOf(s, w).answer == Accepted(r) || (PcOf(s, w).answer.Ambiguous? && lookup == Found([r])))
    case Resolve(w, lookup, _) => PcOf(s, w).Resolving? && PcOf(s, w).k == k && lookup == Found([r])
    case LookAt(w, v) => PcOf(s, w).Admitted? && PcOf(s, w).k == NextKey(k) && v.lookup == Found([r])
    case Webhook(j, run, _, _, _) => j == k && run == Some(r)
    case _ => false
  }

  ghost predicate Reported(trace: seq<Sys>, steps: seq<Step>, i: nat, k: Key, r: nat)
    requires i < |trace| && |trace| == |steps| + 1
  {
    exists n: nat :: n < i && Reports(trace[n], steps[n], k, r)
  }

  predicate HasRun(db: Db, k: Key, r: nat) { k in db.attempts && db.attempts[k].callId == Some(r) }

  lemma LookTakesReported(s: Sys, w: nat, v: View, k: Key, r: nat)
    requires WorkerEnabled(s, LookAt(w, v)) && HasRun(ApplyWorker(s, LookAt(w, v)).db, k, r)
    ensures HasRun(s.db, k, r) || Reports(s, LookAt(w, v), k, r)
  {
    hide Look, Honest;
    var pc := PcOf(s, w);
    LookFits(s, pc.k, v);
    LookRemembers(s.db, pc.k, s.clock, v);
    var answer := Look(s.db, pc.k, s.clock, v);
    assert k == Key(k.contact, k.number);
    if answer.Reopen? {
      assert k == Key(pc.k.contact, pc.k.number - 1) ==> pc.k == NextKey(k) by { assert pc.k == Key(pc.k.contact, pc.k.number); }
      assert |answer.runs| == 1 ==> answer.runs == [answer.runs[0]];
    }
  }

  lemma LookupTakes(db: Db, j: Key, lookup: Lookup, d: Decision, k: Key, r: nat)
    requires j in db.attempts && j.contact in db.contacts && HasRun(AfterLookup(db, j, lookup, d), k, r)
    ensures HasRun(db, k, r) || (j == k && lookup == Found([r]))
  {
    hide Recovered;
    assert lookup.Found? && |lookup.runs| == 1 ==> lookup.runs == [lookup.runs[0]];
  }

  lemma RecordTakes(db: Db, j: Key, a: Answer, st: ContactStatus, n: int, lookup: Lookup, d: Decision, k: Key, r: nat)
    requires j in db.attempts && j.contact in db.contacts && HasRun(RecordDb(db, j, a, st, n, lookup, d), k, r)
    ensures HasRun(db, k, r) || (j == k && (a == Accepted(r) || (a.Ambiguous? && lookup == Found([r]))))
  {
    hide Recovered, AfterLookup;
    if a.Ambiguous? {
      LookupTakes(db, j, lookup, d, k, r);
    }
  }

  lemma CommitTakesReported(s: Sys, step: Step, k: Key, r: nat)
    requires WorkerEnabled(s, step) && (step.Resolve? || step.Record?) && HasRun(ApplyWorker(s, step).db, k, r)
    ensures HasRun(s.db, k, r) || Reports(s, step, k, r)
  {
    hide AfterLookup, RecordDb, HasRun, NoRun, Fails, Holds;
    var pc := PcOf(s, step.w);
    if step.Resolve? {
      LookupTakes(s.db, pc.k, step.lookup, step.d, k, r);
    } else {
      RecordTakes(s.db, pc.k, pc.answer, pc.status, pc.count, step.lookup, step.d, k, r);
    }
  }

  lemma WorkerTakesReported(s: Sys, step: Step, k: Key, r: nat)
    requires WorkerEnabled(s, step) && !EnvStep(step) && HasRun(ApplyWorker(s, step).db, k, r)
    ensures HasRun(s.db, k, r) || Reports(s, step, k, r)
  {
    if step.LookAt? {
      hide ApplyWorker, WorkerEnabled;
      LookTakesReported(s, step.w, step.view, k, r);
    } else if step.Resolve? || step.Record? {
      hide ApplyWorker, WorkerEnabled;
      CommitTakesReported(s, step, k, r);
    } else if MoveStep(step, step.w) {
      MoveShape(s, step, step.w);
      hide ApplyWorker;
    } else {
      hide AfterLook, AfterResolve, AfterRecord, AfterSettle, Look;
    }
  }

  lemma EnvTakesReported(s: Sys, step: Step, k: Key, r: nat)
    requires EnvEnabled(s, step) && EnvStep(step) && HasRun(ApplyEnv(s, step).db, k, r)
    ensures HasRun(s.db, k, r) || Reports(s, step, k, r)
  {
    if step.Webhook? || step.Sweep? {
      hide MayHaveRun, Recovered;
    } else {
      QuietShape(s, step);
      hide ApplyEnv, EnvEnabled;
    }
  }

  /** In every state of every run, a call id on a row is one the provider reported for that very job in an
      earlier step. */
  lemma {:induction false} CallIdIsReported(trace: seq<Sys>, steps: seq<Step>, i: nat, k: Key, r: nat)
    requires Follows(trace, steps) && trace[0] == INITIAL && i < |trace| && HasRun(trace[i].db, k, r)
    ensures Reported(trace, steps, i, k, r)
  {
    hide EnvEnabled, WorkerEnabled, ApplyEnv, ApplyWorker, Reports;
    if i > 0 {
      var s, step := trace[i - 1], steps[i - 1];
      assert Enabled(s, step) && trace[i - 1 + 1] == Apply(s, step);
      if EnvStep(step) {
        EnvTakesReported(s, step, k, r);
      } else {
        WorkerTakesReported(s, step, k, r);
      }
      if HasRun(s.db, k, r) {
        CallIdIsReported(trace, steps, i - 1, k, r);
      }
    }
  }

  /** ... and an accepted answer is in the log of requests. */
  lemma {:induction false} AnswerIsLogged(trace: seq<Sys>, steps: seq<Step>, i: nat, w: nat)
    requires Follows(trace, steps) && trace[0] == INITIAL && i < |trace|
    requires PcOf(trace[i], w).Triggered? && !PcOf(trace[i], w).answer.NotSent?
    ensures Request(PcOf(trace[i], w).k, PcOf(trace[i], w).answer) in trace[i].log
  {
    hide Enabled, Apply;
    if i > 0 {
      assert Enabled(trace[i - 1], steps[i - 1]) && trace[i - 1 + 1] == Apply(trace[i - 1], steps[i - 1]);
      TriggeredComesFrom(trace[i - 1], steps[i - 1], w);
      if PcOf(trace[i - 1], w) == PcOf(trace[i], w) {
        AnswerIsLogged(trace, steps, i - 1, w);
      }
    }
  }

  lemma TriggeredComesFrom(s: Sys, step: Step, w: nat)
    requires Enabled(s, step)
    requires var pc := PcOf(Apply(s, step), w); pc.Triggered? && !pc.answer.NotSent?
    ensures var t := Apply(s, step);
      || (PcOf(s, w) == PcOf(t, w) && s.log <= t.log)
      || Request(PcOf(t, w).k, PcOf(t, w).answer) in t.log
  {
    hide Look, AfterLook, RecordDb, AfterLookup, Holds, Fails, NoRun, AfterSettle, Honest, ClaimDb;
    if EnvStep(step) {
      EnvLeavesWorkers(s, step);
      EnvKeepsLog(s, step);
      hide EnvEnabled, ApplyEnv;
    } else if step.LookAt? {
      LookFits(s, PcOf(s, step.w).k, step.view);
      LookNeverTriggered(s, step.w, step.view);
      hide ApplyWorker;
    } else if MoveStep(step, step.w) {
      MoveShape(s, step, step.w);
      hide ApplyWorker;
    }
  }

  lemma EnvKeepsLog(s: Sys, step: Step)
    requires EnvEnabled(s, step)
    ensures ApplyEnv(s, step).log == s.log
  {
    hide WebhookDb, SweepDb, AfterDispatch, MayHaveRun, Waiting, Rebuildable;
    if step.Dispatch? {
      DispatchShape(s, step.k, step.check, step.more);
    }
  }

  lemma LookNeverTriggered(s: Sys, w: nat, v: View)
    requires WorkerEnabled(s, LookAt(w, v))
    ensures var t := ApplyWorker(s, LookAt(w, v));
      t.log == s.log && w in t.workers && t.workers == s.workers[w := t.workers[w]] && !t.workers[w].Triggered?
  {
    hide Look, LookDb, Honest;
    LookFits(s, PcOf(s, w).k, v);
  }
}
