/** Whom a look at a delivered job lets through, and exactly what else it ends in, on the rows and the gates
    themselves. Nothing here goes through the look's own definition: every condition is written out. */
module DialLooks {
  import opened Basics
  import opened DialRows
  import opened DialProtocol

  // ---- what the rows and gates say ----------------------------------------------------------

  /** PENDING, DIALING or RETRY_SCHEDULED: nobody closed, parked or finished the contact. */
  predicate MayBeCalled(db: Db, c: nat)
  {
    c in db.contacts
    && (db.contacts[c].status.Pending? || db.contacts[c].status.Dialing? || db.contacts[c].status.RetryScheduled?)
  }

  /** The job's own row was taken back by a hold: failed, without a run, held last. */
  predicate TakenBack(db: Db, k: Key)
  {
    k in db.attempts && db.attempts[k].state.FailedToConnect? && db.attempts[k].callId.None?
    && db.attempts[k].event.HeldEvent?
  }

  predicate Undialled(db: Db, k: Key) { k !in db.attempts || TakenBack(db, k) }

  predicate InFlight(db: Db, k: Key)
  {
    k in db.attempts && db.attempts[k].callId.None? && db.attempts[k].state.Initiated?
  }

  /** The attempt before a retry ended ambiguously and still has no run. */
  predicate PreviousUnclear(db: Db, k: Key)
  {
    k.number > 1
    && var p := Key(k.contact, k.number - 1);
       p in db.attempts && db.attempts[p].state.FailedToConnect? && db.attempts[p].callId.None?
       && db.attempts[p].ambiguous
  }

  predicate PreviousActive(db: Db, k: Key)
  {
    k.number > 1 && Key(k.contact, k.number - 1) in db.attempts
    && db.attempts[Key(k.contact, k.number - 1)].state.Initiated?
  }

  /** A retry may go ahead: the attempt before it is not in flight, and if it ended ambiguously its listing
      answered, showed no run, and this number has no row. */
  predicate PreviousOver(db: Db, k: Key, v: View)
  {
    !PreviousActive(db, k) && (PreviousUnclear(db, k) ==> v.lookup == Found([]) && k !in db.attempts)
  }

  /** Eligible and open: the job is not paused, permitted, its contact may be called, its window open. */
  predicate Eligible(db: Db, k: Key, v: View)
  {
    Undialled(db, k) && !v.paused && v.permitted && MayBeCalled(db, k.contact) && v.windowOpen
  }

  // ---- exactly when a look ends how ---------------------------------------------------------

  /** The verdict not to dial: the contact is gone, or the job is undialled, not paused, and not permitted or
      its contact may not be called. */
  predicate Refusal(db: Db, k: Key, v: View)
  {
    k.contact !in db.contacts
    || (Undialled(db, k) && !v.paused && (!v.permitted || !MayBeCalled(db, k.contact)))
  }

  /** Not now: a trigger may be in flight, the listing before a retry failed and may be asked again, or the
      final gate is closed. */
  predicate Deferral(db: Db, k: Key, now: int, v: View)
  {
    || (k.contact in db.contacts && InFlight(db, k) && now - db.attempts[k].startedAt < v.inFlightSeconds)
    || (&& Eligible(db, k, v)
        && (|| (PreviousUnclear(db, k) && v.lookup.Unavailable? && !v.deferralsSpent)
            || (PreviousOver(db, k, v) && !v.gateOpen)))
  }

  /** What a look answers, from the rows and gates alone. */
  lemma LookAnswers(db: Db, k: Key, now: int, v: View)
    ensures var r := Look(db, k, now, v);
      && (r.Clear? <==> Eligible(db, k, v) && PreviousOver(db, k, v) && v.gateOpen)
      && (r.Clear? ==> r == Clear(k in db.attempts, db.contacts[k.contact].status, db.contacts[k.contact].count))
      && (r.ResolveClaim? <==>
            k.contact in db.contacts && InFlight(db, k) && now - db.attempts[k].startedAt >= v.inFlightSeconds)
      && (r.Refused? <==> Refusal(db, k, v))
      && (r == Stop(Fate.Settle) <==>
            && k.contact in db.contacts && Undialled(db, k)
            && (v.paused || (v.permitted && MayBeCalled(db, k.contact) && !v.windowOpen)))
      && (r == Stop(Keep) <==> Deferral(db, k, now, v))
      && (r.Expired? <==>
            Eligible(db, k, v) && PreviousUnclear(db, k) && v.lookup.Unavailable? && v.deferralsSpent)
      && (r.Reopen? <==>
            && Eligible(db, k, v) && PreviousUnclear(db, k) && k !in db.attempts
            && v.lookup.Found? && v.lookup.runs != [])
      && (r.Reopen? ==> v.lookup == Found(r.runs))
  {
  }

  function Looked(s: Sys, w: nat, v: View): Sys
    requires WorkerEnabled(s, LookAt(w, v))
  {
    ApplyWorker(s, LookAt(w, v))
  }

  /** The look clears the job, so that its worker goes on to claim and dial it, if and only if the contact may
      be called, nothing is paused or closed, every gate is open, the job is undialled and the attempt before
      it is over. What it remembers is what the contact says. */
  lemma LookClearsExactly(s: Sys, w: nat, v: View)
    requires WorkerEnabled(s, LookAt(w, v))
    ensures var t, k := Looked(s, w, v), PcOf(s, w).k;
      && w in t.workers
      && (t.workers[w].Cleared? <==> Eligible(s.db, k, v) && PreviousOver(s.db, k, v) && v.gateOpen)
      && (t.workers[w].Cleared? ==>
            && t.workers[w].k == k && t.workers[w].m == PcOf(s, w).m
            && (t.workers[w].held <==> k in s.db.attempts)
            && t.workers[w].status == s.db.contacts[k.contact].status
            && t.workers[w].count == s.db.contacts[k.contact].count)
  {
    hide Honest, Look, LookDb;
    LookFits(s, PcOf(s, w).k, v);
    LookAnswers(s.db, PcOf(s, w).k, s.clock, v);
  }

  /** It turns to an unresolved claim if and only if the row is in flight for longer than a trigger may take. */
  lemma LookResolvesExactly(s: Sys, w: nat, v: View)
    requires WorkerEnabled(s, LookAt(w, v))
    ensures var t, k := Looked(s, w, v), PcOf(s, w).k;
      t.workers[w].Resolving? <==>
        && k.contact in s.db.contacts && InFlight(s.db, k)
        && s.clock - s.db.attempts[k].startedAt >= v.inFlightSeconds
  {
    hide Honest, Look, LookDb;
    LookFits(s, PcOf(s, w).k, v);
    LookAnswers(s.db, PcOf(s, w).k, s.clock, v);
  }

  /** It sends the job to be settled if and only if it is undialled and its campaign is paused, or everything
      allows it but the window. */
  lemma LookSettlesExactly(s: Sys, w: nat, v: View)
    requires WorkerEnabled(s, LookAt(w, v))
    ensures var t, k := Looked(s, w, v), PcOf(s, w).k;
      (t.workers[w].Leaving? && t.workers[w].fate.Settle?) <==>
        && k.contact in s.db.contacts && Undialled(s.db, k)
        && (v.paused || (v.permitted && MayBeCalled(s.db, k.contact) && !v.windowOpen))
  {
    hide Honest, Look, LookDb;
    LookFits(s, PcOf(s, w).k, v);
    LookAnswers(s.db, PcOf(s, w).k, s.clock, v);
  }

  /** It keeps the message for later if and only if a trigger may be in flight, the listing before a retry
      failed and may be asked again, or the final gate is closed. */
  lemma LookKeepsExactly(s: Sys, w: nat, v: View)
    requires WorkerEnabled(s, LookAt(w, v))
    ensures var t, k := Looked(s, w, v), PcOf(s, w).k;
      (t.workers[w].Leaving? && t.workers[w].fate.Keep?) <==>
        Deferral(s.db, k, s.clock, v)
  {
    hide Honest, Look, LookDb;
    LookFits(s, PcOf(s, w).k, v);
    LookAnswers(s.db, PcOf(s, w).k, s.clock, v);
  }

  /** A verdict not to dial is given if and only if the contact is gone, or the job is undialled, not paused,
      and not permitted or its contact may not be called. It is final and changes no row. */
  lemma LookRefusesExactly(s: Sys, w: nat, v: View)
    requires WorkerEnabled(s, LookAt(w, v))
    ensures var t, k := Looked(s, w, v), PcOf(s, w).k;
      && t.refused == s.refused + (if Refusal(s.db, k, v) then {k} else {})
      && (Refusal(s.db, k, v) ==> t.workers[w].Leaving? && t.workers[w].fate.Acknowledge? && t.db == s.db)
  {
    hide Honest, Look, LookDb;
    LookFits(s, PcOf(s, w).k, v);
    LookAnswers(s.db, PcOf(s, w).k, s.clock, v);
  }

  /** It acknowledges the message if and only if the job was refused, has a row that is neither in flight nor
      taken back, or stops at the attempt before it: that one is active, has a run after all, cannot be
      cleared up any more, or is cleared up beside a row of this very number. */
  lemma LookAcknowledgesExactly(s: Sys, w: nat, v: View)
    requires WorkerEnabled(s, LookAt(w, v))
    ensures var t, k := Looked(s, w, v), PcOf(s, w).k;
      (t.workers[w].Leaving? && t.workers[w].fate.Acknowledge?) <==>
        || Refusal(s.db, k, v)
        || (!Undialled(s.db, k) && !InFlight(s.db, k))
        || (&& Eligible(s.db, k, v)
            && (|| PreviousActive(s.db, k)
                || (&& PreviousUnclear(s.db, k)
                    && (if v.lookup.Unavailable? then v.deferralsSpent
                        else k in s.db.attempts || v.lookup.runs != []))))
  {
    hide Honest, Look, LookDb;
    LookFits(s, PcOf(s, w).k, v);
    LookAnswers(s.db, PcOf(s, w).k, s.clock, v);
  }

  /** A look writes if and only if it gives up the retry or finds a run of the attempt before it. Giving up
      sets the contact to COMPLETED_PARTIAL. A run found makes contact and attempt active again; one run is
      adopted, of several none, so that the call id stays as it was. */
  lemma LookWritesExactly(s: Sys, w: nat, v: View)
    requires WorkerEnabled(s, LookAt(w, v))
    ensures var t, k := Looked(s, w, v), PcOf(s, w).k;
      var c := k.contact;
      if !(Eligible(s.db, k, v) && PreviousUnclear(s.db, k)) then t.db == s.db
      else
        var p := Key(c, k.number - 1);
        if v.lookup.Unavailable? && v.deferralsSpent then
          && t.db.attempts == s.db.attempts
          && t.db.contacts == s.db.contacts[c := s.db.contacts[c].(status := CompletedPartial)]
        else if v.lookup.Found? && v.lookup.runs != [] && k !in s.db.attempts then
          && t.db.contacts == s.db.contacts[c := s.db.contacts[c].(status := Dialing)]
          && p in t.db.attempts && t.db.attempts == s.db.attempts[p := t.db.attempts[p]]
          && t.db.attempts[p].state.Initiated? && t.db.attempts[p].startedAt == s.db.attempts[p].startedAt
          && t.db.attempts[p].callId == (if |v.lookup.runs| == 1 then Some(v.lookup.runs[0]) else s.db.attempts[p].callId)
        else t.db == s.db
  {
    hide Honest, Look;
    LookFits(s, PcOf(s, w).k, v);
    LookAnswers(s.db, PcOf(s, w).k, s.clock, v);
  }

  // ---- over runs: every request follows a look that let the job through ---------------------

  /** Step `n` is a look of worker `w` at job `k` that found everything in order. */
  ghost predicate LetThrough(trace: seq<Sys>, steps: seq<Step>, n: nat, w: nat, k: Key)
    requires n < |steps| < |trace|
  {
    && steps[n].LookAt? && steps[n].w == w && PcOf(trace[n], w).Admitted? && PcOf(trace[n], w).k == k
    && Eligible(trace[n].db, k, steps[n].view) && PreviousOver(trace[n].db, k, steps[n].view) && steps[n].view.gateOpen
  }

  /** ... and the worker has been at that job, and at nothing else, ever since. */
  ghost predicate LookedBefore(trace: seq<Sys>, steps: seq<Step>, i: nat, w: nat, k: Key)
    requires i < |trace| && |trace| == |steps| + 1
  {
    exists n: nat :: n < i && LetThrough(trace, steps, n, w, k)
      && forall j :: n < j <= i ==> OnTheWay(PcOf(trace[j], w), k)
  }

  predicate OnTheWay(pc: Pc, k: Key) { (pc.Cleared? || pc.Claimed?) && pc.k == k }

  lemma OnTheWayComesFrom(s: Sys, step: Step, w: nat)
    requires Enabled(s, step)
    requires var pc := PcOf(Apply(s, step), w); pc.Cleared? || pc.Claimed?
    ensures var pc := PcOf(Apply(s, step), w);
      || OnTheWay(PcOf(s, w), pc.k)
      || (&& step.LookAt? && step.w == w && PcOf(s, w).Admitted? && PcOf(s, w).k == pc.k
          && Eligible(s.db, pc.k, step.view) && PreviousOver(s.db, pc.k, step.view) && step.view.gateOpen)
  {
    hide EnvEnabled, ApplyEnv, ApplyWorker, Eligible, PreviousOver, Honest;
    if EnvStep(step) {
      EnvLeavesWorkers(s, step);
    } else if step.LookAt? {
      LookLeavesOthers(s, step.w, step.view);
      LookClearsExactly(s, step.w, step.view);
    } else {
      hide WorkerEnabled;
      OtherStepOnTheWay(s, step, w);
    }
  }

  lemma LookLeavesOthers(s: Sys, w: nat, v: View)
    requires WorkerEnabled(s, LookAt(w, v))
    ensures var t := ApplyWorker(s, LookAt(w, v));
      w in t.workers && t.workers == s.workers[w := t.workers[w]] && !t.workers[w].Claimed?
  {
    hide Look, LookDb, Honest;
    LookFits(s, PcOf(s, w).k, v);
  }

  lemma OtherStepOnTheWay(s: Sys, step: Step, w: nat)
    requires WorkerEnabled(s, step) && !EnvStep(step) && !step.LookAt?
    ensures var pc := PcOf(ApplyWorker(s, step), w); pc.Cleared? || pc.Claimed? ==> OnTheWay(PcOf(s, w), pc.k)
  {
    hide Look, AfterLook, RecordDb, AfterLookup, Holds, Fails, NoRun, AfterSettle, Honest, ClaimDb;
    if MoveStep(step, step.w) {
      MoveShape(s, step, step.w);
      hide ApplyWorker;
    }
  }

  lemma {:induction false} ClearedWasLookedAt(trace: seq<Sys>, steps: seq<Step>, i: nat, w: nat)
    requires Follows(trace, steps) && trace[0] == INITIAL && i < |trace|
    requires PcOf(trace[i], w).Cleared? || PcOf(trace[i], w).Claimed?
    ensures LookedBefore(trace, steps, i, w, PcOf(trace[i], w).k)
  {
    hide Enabled, Apply, LetThrough;
    if i > 0 {
      var k := PcOf(trace[i], w).k;
      assert Enabled(trace[i - 1], steps[i - 1]) && trace[i - 1 + 1] == Apply(trace[i - 1], steps[i - 1]);
      OnTheWayComesFrom(trace[i - 1], steps[i - 1], w);
      if OnTheWay(PcOf(trace[i - 1], w), k) {
        ClearedWasLookedAt(trace, steps, i - 1, w);
        var n: nat :| n < i - 1 && LetThrough(trace, steps, n, w, k)
          && forall j :: n < j <= i - 1 ==> OnTheWay(PcOf(trace[j], w), k);
        assert forall j :: n < j <= i ==> OnTheWay(PcOf(trace[j], w), k);
      } else {
        assert LetThrough(trace, steps, i - 1, w, k) by { ThatLook(trace, steps, i - 1, w, k); }
        assert forall j :: i - 1 < j <= i ==> OnTheWay(PcOf(trace[j], w), k);
      }
    }
  }

  lemma ThatLook(trace: seq<Sys>, steps: seq<Step>, n: nat, w: nat, k: Key)
    requires n < |steps| < |trace| && steps[n].LookAt? && steps[n].w == w
    requires PcOf(trace[n], w).Admitted? && PcOf(trace[n], w).k == k
    requires Eligible(trace[n].db, k, steps[n].view) && PreviousOver(trace[n].db, k, steps[n].view) && steps[n].view.gateOpen
    ensures LetThrough(trace, steps, n, w, k)
  {
  }

  /** Every request in the log was sent by a worker whose look had let the job through, and which had done
      nothing since but to claim it. */
  ghost predicate Sent(trace: seq<Sys>, steps: seq<Step>, i: nat, k: Key)
    requires i < |trace| && |trace| == |steps| + 1
  {
    exists j: nat, w: nat :: j < i && steps[j].Trigger? && steps[j].w == w && LookedBefore(trace, steps, j, w, k)
  }

  lemma LogGrowsByTriggers(s: Sys, step: Step)
    requires Enabled(s, step)
    ensures var t := Apply(s, step);
      || t.log == s.log
      || (step.Trigger? && PcOf(s, step.w).Claimed? && t.log == s.log + [Request(PcOf(s, step.w).k, step.answer)])
  {
    hide Look, LookDb, RecordDb, AfterLookup, Holds, Fails, NoRun, AfterSettle, Honest;
    if EnvStep(step) {
      if !step.Webhook? && !step.Sweep? {
        QuietShape(s, step);
        hide ApplyEnv;
      }
    } else if step.LookAt? {
      LookFits(s, PcOf(s, step.w).k, step.view);
    } else if MoveStep(step, step.w) {
      MoveShape(s, step, step.w);
      hide ApplyWorker;
    }
  }

  lemma {:induction false} RequestFollowsLook(trace: seq<Sys>, steps: seq<Step>, i: nat, n: nat)
    requires Follows(trace, steps) && trace[0] == INITIAL && i < |trace| && n < |trace[i].log|
    ensures Sent(trace, steps, i, trace[i].log[n].key)
  {
    hide Enabled, Apply, LookedBefore;
    if i > 0 {
      assert Enabled(trace[i - 1], steps[i - 1]) && trace[i - 1 + 1] == Apply(trace[i - 1], steps[i - 1]);
      LogGrowsByTriggers(trace[i - 1], steps[i - 1]);
      if n < |trace[i - 1].log| {
        RequestFollowsLook(trace, steps, i - 1, n);
        assert trace[i].log[n] == trace[i - 1].log[n];
        var j: nat, w: nat :| j < i - 1 && steps[j].Trigger? && steps[j].w == w
          && LookedBefore(trace, steps, j, w, trace[i].log[n].key);
        assert j < i;
      } else {
        ClearedWasLookedAt(trace, steps, i - 1, steps[i - 1].w);
      }
    }
  }
}
