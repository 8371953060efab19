/** No job is lost, but for the named steps; and what they lose is not dialled again. */
module DialLosses {
  import opened Basics
  import opened DialRows
  import opened DialProtocol
  import opened DialHomes
  import opened DialRetries

  /** The contact's own state no longer asks for this job: it was parked, closed or completed, or another
      attempt has taken it over. */
  predicate MovedOn(db: Db, k: Key)
  {
    k.contact in db.contacts
    && if k.number == 1 then !db.contacts[k.contact].status.Pending? else !db.contacts[k.contact].status.RetryScheduled?
  }

  /** The job has been answered: its attempt stands, it was refused, or the contact moved on. A held
      attempt is no answer. */
  predicate Answered(s: Sys, k: Key) { Settled(s.db, k) || k in s.refused || MovedOn(s.db, k) }

  /** The job will be found again: a first attempt by enqueueing, unless its guard stands, and then by
      its message; a retry in the columns PostgreSQL holds; a held retry by its message. */
  ghost predicate Findable(s: Sys, k: Key)
  {
    if k.number == 1 then Rebuildable(s.db, k) && Reachable(s, k)
    else if k in s.db.attempts then exists m :: Kept(s, m, k)
    else Waiting(s.db, k)
  }

  /** The steps that lose a retry. */
  ghost predicate Loses(s: Sys, step: Step, k: Key) { Strands(s, step, k) || Forsakes(s, step, k) }

  lemma FirstAttemptIsFindable(trace: seq<Sys>, i: nat, k: Key)
    requires Run(trace) && trace[0] == INITIAL && i < |trace| && k in trace[i].owed && k.number == 1
    ensures Answered(trace[i], k) || Findable(trace[i], k)
  {
    RunKeepsInv(trace, i);
    RunKeepsHomes(trace, i);
    hide Run;
    assert k == Key(k.contact, 1);
    assert Done(trace[i], k) || Reachable(trace[i], k);
  }

  /** No job lost: whatever is interleaved, crashes, expires or is wiped, every job ever taken on has been
      answered or will be found again, but for a retry after one of the steps that lose it. First attempts
      are never lost. */
  lemma NoJobIsLost(trace: seq<Sys>, steps: seq<Step>, i: nat, k: Key)
    requires Follows(trace, steps) && trace[0] == INITIAL && i < |trace| && k in trace[i].owed
    requires k.number > 1 ==> forall j :: 0 <= j < i ==> !Loses(trace[j], steps[j], k)
    ensures Answered(trace[i], k) || Findable(trace[i], k)
  {
    FollowsIsRun(trace, steps);
    if k.number == 1 {
      FirstAttemptIsFindable(trace, i, k);
    } else {
      RunKeepsInv(trace, i);
      assert k.number > 1 && k.contact in trace[i].db.contacts;
      if Open(trace[i], k) {
        StrandedMeans(trace[i], k);
      }
      StrandedOnlyBy(trace, steps, i, k);
      HeldRetryKeepsItsMessage(trace, steps, i, k);
      hide Run, Follows, Loses, Kept, Inv;
    }
  }

  /** ... and it can be had again at once, or when its guard has expired: a first attempt is queued, a
      retry is put back into the schedule and dispatched, a held retry is delivered. */
  lemma FindableCanBeDelivered(trace: seq<Sys>, i: nat, k: Key, w: nat)
    requires Run(trace) && trace[0] == INITIAL && i < |trace| && k in trace[i].owed && Findable(trace[i], k)
    requires PcOf(trace[i], w).Idle?
    ensures var s := trace[i];
      var u := if k in s.guards then Apply(s, GuardExpires(k)) else s;
      if k.number == 1 then Enabled(u, Queue(k)) && Apply(u, Queue(k)).stream[u.nextMid] == k
      else if k in s.db.attempts then exists m :: m in s.stream && s.stream[m] == k && Enabled(s, Take(w, m))
      else Enabled(u, RebuildEntry(k))
           && var v := Apply(u, RebuildEntry(k));
              && Enabled(v, Dispatch(k, Go, false))
              && var t := Apply(v, Dispatch(k, Go, false)); v.nextMid in t.stream && t.stream[v.nextMid] == k
  {
    hide Run;
    var s := trace[i];
    if k.number > 1 && k in s.db.attempts {
      var m :| Kept(s, m, k);
      assert Enabled(s, Take(w, m));
    }
  }

  // ---- what is lost stays undialled ---------------------------------------------------------

  /** No message carries the retry, nobody works on it, and nothing but a new decision of recovery would
      put it anywhere: a held retry has its row, which the dispatcher never enqueues; another one has no
      entry in the schedule, and the rebuild does not read it from the retry columns. */
  ghost predicate Forgotten(s: Sys, k: Key)
  {
    && k.number > 1
    && (forall m :: m in s.stream ==> s.stream[m] != k)
    && (forall w :: w in s.workers && !s.workers[w].Idle? ==> s.workers[w].k != k)
    && (k in s.db.attempts
        || (k !in s.scheduled && k.contact in s.db.contacts && !Names(s.db.contacts[k.contact], k.number)))
  }

  /** The dispatcher writes a due time into columns that hold no number (or this one): from then on the
      rebuild reads the attempt after the latest out of them. */
  predicate Redates(s: Sys, step: Step, k: Key)
  {
    step.Dispatch? && step.k.number != 1 && step.k.contact == k.contact && k.contact in s.db.contacts
    && !ClearsColumns(s.db, step.k, step.check)
    && (s.db.contacts[k.contact].retry == None || s.db.contacts[k.contact].retry == Some(k.number))
  }

  /** Recovery decides anew on this very retry, or a dispatch of another entry has it derived again. */
  predicate Revives(s: Sys, step: Step, k: Key)
  {
    k !in s.db.attempts
    && ((Schedules(s, step).Some? && NextKey(Schedules(s, step).value) == k) || Redates(s, step, k))
  }

  lemma DispatchLeavesForgotten(s: Sys, k: Key, check: Check, more: bool, j: Key)
    requires Forgotten(s, j) && k in s.scheduled
    ensures Forgotten(AfterDispatch(s, k, check, more), j) <==> !Revives(s, Dispatch(k, check, more), j)
  {
    DispatchShape(s, k, check, more);
    var t := AfterDispatch(s, k, check, more);
    assert t.db == DispatchDb(s.db, k, check) && t.workers == s.workers;
    if k == j {
      assert !Enqueues(s, k, check);
      assert t.stream == s.stream;
    }
    hide AfterDispatch, Enqueues, OpenJobs;
    assert t.db.attempts == s.db.attempts && t.scheduled <= s.scheduled;
    if j in s.db.attempts {
      assert Forgotten(t, j);
      return;
    }
    assert j.contact in s.db.contacts ==>
      (Names(t.db.contacts[j.contact], j.number) <==>
        if k.number == 1 || k.contact != j.contact then Names(s.db.contacts[j.contact], j.number)
        else !ClearsColumns(s.db, k, check)
             && (s.db.contacts[j.contact].retry == None || s.db.contacts[j.contact].retry == Some(j.number)));
  }

  lemma WebhookLeavesForgotten(s: Sys, step: Step, k: Key)
    requires EnvEnabled(s, step) && step.Webhook? && Forgotten(s, k)
    ensures (Forgotten(ApplyEnv(s, step), k) <==> !Revives(s, step, k)) && ApplyEnv(s, step).log == s.log
  {
    hide MayHaveRun, Held;
  }

  lemma RebuildLeavesForgotten(s: Sys, k: Key, j: Key)
    requires Waiting(s.db, j) && Forgotten(s, k)
    ensures Forgotten(s.(owed := s.owed + {j}, scheduled := s.scheduled + {j}), k)
  {
    assert k !in s.db.attempts ==> j != k;
  }

  lemma EnvLeavesForgotten(s: Sys, step: Step, k: Key)
    requires EnvEnabled(s, step) && EnvStep(step) && Forgotten(s, k)
    ensures (Forgotten(ApplyEnv(s, step), k) <==> !Revives(s, step, k)) && ApplyEnv(s, step).log == s.log
  {
    hide AfterDispatch, MayHaveRun, Held, WebhookDb, Committed, Waiting;
    if step.RebuildEntry? {
      RebuildLeavesForgotten(s, k, step.k);
      return;
    }
    if step.Webhook? {
      WebhookLeavesForgotten(s, step, k);
    } else if step.Dispatch? {
      DispatchLeavesForgotten(s, step.k, step.check, step.more, k);
      DispatchShape(s, step.k, step.check, step.more);
    }
  }

  /** A worker's step, as far as a forgotten retry looks. */
  ghost predicate Bystander(s: Sys, t: Sys, w: nat, k: Key)
  {
    && (forall v :: v in t.workers && v != w ==> v in s.workers && t.workers[v] == s.workers[v])
    && (w in t.workers && !t.workers[w].Idle? ==> t.workers[w].k != k)
    && (forall m :: m in t.stream ==> m in s.stream && t.stream[m] == s.stream[m])
    && (k in s.db.attempts ==> k in t.db.attempts)
    && (k in t.scheduled && k !in s.db.attempts ==> k in s.scheduled)
    && (k.contact in s.db.contacts ==> k.contact in t.db.contacts)
    && (k.contact in s.db.contacts && k !in s.db.attempts && !Names(s.db.contacts[k.contact], k.number) ==>
          !Names(t.db.contacts[k.contact], k.number))
    && s.log <= t.log && (forall i :: |s.log| <= i < |t.log| ==> t.log[i].key != k)
  }

  lemma BystanderLeavesForgotten(s: Sys, t: Sys, w: nat, k: Key)
    requires Forgotten(s, k) && Bystander(s, t, w, k)
    ensures Forgotten(t, k)
  {
  }

  /** A commit writes the retry columns of its own contact, and only to schedule the next attempt. */
  ghost predicate WritesColumns(db: Db, u: Db, j: Key, scheduled: bool)
  {
    && j.contact in db.contacts && u.contacts.Keys == db.contacts.Keys && u.attempts.Keys == db.attempts.Keys
    && (forall c :: c in db.contacts && c != j.contact ==> u.contacts[c] == db.contacts[c])
    && u.contacts[j.contact].retry == (if scheduled then Some(j.number + 1) else db.contacts[j.contact].retry)
    && u.contacts[j.contact].due == (scheduled || db.contacts[j.contact].due)
  }

  lemma LookupColumns(db: Db, j: Key, lookup: Lookup, d: Decision)
    requires j in db.attempts && j.contact in db.contacts
    ensures WritesColumns(db, AfterLookup(db, j, lookup, d), j, NoRun(lookup) && d.Schedule?)
  {
  }

  lemma RecordColumns(db: Db, j: Key, a: Answer, status: ContactStatus, count: int, lookup: Lookup, d: Decision)
    requires j in db.attempts && j.contact in db.contacts
    ensures WritesColumns(db, RecordDb(db, j, a, status, count, lookup, d), j, Fails(a, lookup) && d.Schedule?)
  {
  }

  lemma CommitIsBystander(s: Sys, w: nat, pc: Pc, db: Db, j: Key, scheduled: bool, k: Key)
    requires pc.Leaving? && pc.k == j && j != k && WritesColumns(s.db, db, j, scheduled)
    requires k in s.db.attempts || !scheduled || NextKey(j) != k
    ensures Bystander(s, Committed(Moved(s, w, pc), db, j, scheduled), w, k)
  {
  }

  lemma LookIsBystander(s: Sys, w: nat, m: nat, j: Key, r: LookResult, k: Key)
    requires j != k
    requires r.Expired? || r.Reopen? ==> j.contact in s.db.contacts
    requires r.Reopen? ==> j.number > 1 && Key(j.contact, j.number - 1) in s.db.attempts && r.runs != []
    ensures Bystander(s, AfterLook(s, w, m, j, r), w, k)
  {
  }

  lemma ClaimIsBystander(s: Sys, w: nat, k: Key)
    requires WorkerEnabled(s, Claim(w)) && PcOf(s, w).k != k
    ensures Bystander(s, AfterClaim(s, w, PcOf(s, w)), w, k)
  {
  }

  lemma WorkerLeavesForgotten(s: Sys, step: Step, k: Key)
    requires WorkerEnabled(s, step) && !EnvStep(step) && Forgotten(s, k) && !Revives(s, step, k)
    ensures Bystander(s, ApplyWorker(s, step), step.w, k)
  {
    var w := step.w;
    var pc := PcOf(s, w);
    assert !pc.Idle? ==> pc.k != k;
    if step.Resolve? {
      LookupColumns(s.db, pc.k, step.lookup, step.d);
      hide AfterLookup, WritesColumns, Bystander;
      CommitIsBystander(s, w, Leaving(pc.m, pc.k, Acknowledge), AfterLookup(s.db, pc.k, step.lookup, step.d), pc.k,
                        NoRun(step.lookup) && step.d.Schedule?, k);
    } else if step.Record? {
      RecordColumns(s.db, pc.k, pc.answer, pc.status, pc.count, step.lookup, step.d);
      hide RecordDb, WritesColumns, Bystander;
      CommitIsBystander(s, w, Leaving(pc.m, pc.k, if Holds(pc.answer) then Keep else Acknowledge),
                        RecordDb(s.db, pc.k, pc.answer, pc.status, pc.count, step.lookup, step.d), pc.k,
                        Fails(pc.answer, step.lookup) && step.d.Schedule?, k);
    } else if step.LookAt? {
      LookFits(s, pc.k, step.view);
      hide Look, AfterLook, Bystander;
      LookIsBystander(s, w, pc.m, pc.k, Look(s.db, pc.k, s.clock, step.view), k);
    } else if step.Claim? {
      hide AfterClaim, Bystander;
      ClaimIsBystander(s, w, k);
    } else {
      MoveIsBystander(s, step, k);
    }
  }

  lemma MoveIsBystander(s: Sys, step: Step, k: Key)
    requires WorkerEnabled(s, step) && Forgotten(s, k) && !EnvStep(step)
    requires !step.Resolve? && !step.Record? && !step.LookAt? && !step.Claim?
    ensures Bystander(s, ApplyWorker(s, step), step.w, k)
  {
    hide AfterLook, AfterResolve, AfterClaim, AfterRecord, AfterSettle, Look;
    if MoveStep(step, step.w) {
      MoveShape(s, step, step.w);
      hide ApplyWorker;
    }
  }

  /** A forgotten retry is not dialled again in any continuation, unless a step revives it. A held one is
      not dialled again at all. */
  lemma {:induction false} ForgottenIsNotDialled(trace: seq<Sys>, steps: seq<Step>, i: nat, j: nat, k: Key)
    requires Follows(trace, steps) && i <= j < |trace| && Forgotten(trace[i], k)
    requires forall n :: i <= n < j ==> !Revives(trace[n], steps[n], k)
    ensures Forgotten(trace[j], k) && trace[i].log <= trace[j].log
    ensures forall n :: |trace[i].log| <= n < |trace[j].log| ==> trace[j].log[n].key != k
    decreases j - i
  {
    hide Forgotten, Revives, EnvEnabled, WorkerEnabled, ApplyEnv, ApplyWorker, Bystander;
    if i < j {
      ForgottenIsNotDialled(trace, steps, i, j - 1, k);
      var s, step := trace[j - 1], steps[j - 1];
      assert Enabled(s, step) && trace[j - 1 + 1] == Apply(s, step);
      OneStepForgotten(s, step, k);
    }
  }

  lemma OneStepForgotten(s: Sys, step: Step, k: Key)
    requires Enabled(s, step) && Forgotten(s, k) && !Revives(s, step, k)
    ensures var t := Apply(s, step);
      Forgotten(t, k) && s.log <= t.log && forall n :: |s.log| <= n < |t.log| ==> t.log[n].key != k
  {
    hide Forgotten, Revives, EnvEnabled, WorkerEnabled, ApplyEnv, ApplyWorker;
    if EnvStep(step) {
      EnvLeavesForgotten(s, step, k);
    } else {
      WorkerLeavesForgotten(s, step, k);
      BystanderLeavesForgotten(s, ApplyWorker(s, step), step.w, k);
    }
  }

  lemma WorkerRevives(s: Sys, step: Step, k: Key)
    requires WorkerEnabled(s, step) && !EnvStep(step) && Revives(s, step, k)
    ensures !Forgotten(ApplyWorker(s, step), k)
  {
    var pc := PcOf(s, step.w);
    hide RecordDb, AfterLookup, Fails, NoRun;
    if step.Resolve? {
      LookupColumns(s.db, pc.k, step.lookup, step.d);
    } else {
      RecordColumns(s.db, pc.k, pc.answer, pc.status, pc.count, step.lookup, step.d);
    }
  }

  /** Exactly which steps revive a forgotten retry: all can be told before the step. */
  lemma RevivedExactly(s: Sys, step: Step, k: Key)
    requires Enabled(s, step) && Forgotten(s, k)
    ensures Forgotten(Apply(s, step), k) <==> !Revives(s, step, k)
  {
    hide Forgotten, Revives, EnvEnabled, WorkerEnabled, ApplyEnv, ApplyWorker;
    if EnvStep(step) {
      EnvLeavesForgotten(s, step, k);
    } else if Revives(s, step, k) {
      WorkerRevives(s, step, k);
    } else {
      OneStepForgotten(s, step, k);
    }
  }

  // ---- acknowledging a retry ----------------------------------------------------------------

  /** Why a worker turns to acknowledging a retry, as its step leaves things: the attempt stands for good;
      it was refused; it has an entry in the schedule; the contact was given up; the previous attempt is
      in flight; or the gate took the held row itself for another delivery's work. */
  ghost predicate RetryAckReason(t: Sys, k: Key)
    requires k.number > 1
  {
    var p := Key(k.contact, k.number - 1);
    || Stands(t, k) || k in t.refused || k in t.scheduled
    || (k.contact in t.db.contacts && t.db.contacts[k.contact].status.CompletedPartial?)
    || (p in t.db.attempts && t.db.attempts[p].state.Initiated?)
    || (HeldRetry(t, k) && p in t.db.attempts && Unresolved(t.db.attempts[p]))
  }

  /** Why a look at a retry may end in an acknowledgement. */
  lemma LookAckMeans(db: Db, k: Key, now: int, v: View)
    requires k.number > 1 && k.contact in db.contacts
    ensures var p := Key(k.contact, k.number - 1);
      Look(db, k, now, v) == Stop(Acknowledge) ==>
        || Settled(db, k)
        || (p in db.attempts && db.attempts[p].state.Initiated?)
        || (k in db.attempts && Held(db.attempts[k]) && p in db.attempts && Unresolved(db.attempts[p]))
  {
  }

  lemma LookAckReason(s: Sys, w: nat, v: View)
    requires Inv(s) && WorkerEnabled(s, LookAt(w, v)) && PcOf(s, w).k.number > 1
    ensures var t := ApplyWorker(s, LookAt(w, v));
      w in t.workers && (Acknowledging(t.workers[w]) ==> RetryAckReason(t, PcOf(s, w).k))
  {
    hide Look, Settled, Held, Ordered, ColumnsOk, LogOk, WorkersOk, StreamOk, Honest;
    var pc := PcOf(s, w);
    var k := pc.k;
    OwedFacts(s, w);
    LeasesHeld(s);
    ContactIsThere(s, k);
    LookFits(s, k, v);
    LookAckMeans(s.db, k, s.clock, v);
    var r := Look(s.db, k, s.clock, v);
    var t := AfterLook(s, w, pc.m, k, r);
    assert t == ApplyWorker(s, LookAt(w, v));
    hide ApplyWorker, WorkerEnabled;
    if r.Stop? && r.fate.Acknowledge? && Settled(s.db, k) {
      assert Stands(t, k);
    }
  }

  lemma ContactIsThere(s: Sys, k: Key)
    requires Inv(s) && k in s.owed
    ensures k.contact in s.db.contacts
  {
  }

  lemma CommittedStands(s: Sys, w: nat, m: nat, k: Key, db: Db, scheduled: bool)
    requires WorkersOk(s) && (PcOf(s, w).Resolving? || PcOf(s, w).Triggered?) && PcOf(s, w).k == k && Settled(db, k)
    ensures Stands(Committed(Moved(s, w, Leaving(m, k, Acknowledge)), db, k, scheduled), k)
  {
    PcFacts(s, w);
    LeasesHeld(s);
    hide Settled, WorkersOk;
  }

  lemma CommitAckReason(s: Sys, step: Step)
    requires Inv(s) && WorkerEnabled(s, step) && (step.Resolve? || step.Record?) && PcOf(s, step.w).k.number > 1
    ensures var t := ApplyWorker(s, step);
      Acknowledging(t.workers[step.w]) ==> RetryAckReason(t, PcOf(s, step.w).k)
  {
    var w := step.w;
    var pc := PcOf(s, w);
    var k := pc.k;
    PcFacts(s, w);
    hide Ordered, LogOk, StreamOk, WorkersOk, Settled, AfterLookup, RecordDb, Committed, Stands, Holds, Fails, NoRun;
    if step.Resolve? {
      ResolvedRowStands(s.db, k, step.lookup, step.d);
      CommittedStands(s, w, pc.m, k, AfterLookup(s.db, k, step.lookup, step.d), NoRun(step.lookup) && step.d.Schedule?);
    } else if Holds(pc.answer) {
      HoldKeepsPlace(s, step);
    } else {
      RecordedRowStands(s.db, k, pc.answer, pc.status, pc.count, step.lookup, step.d);
      CommittedStands(s, w, pc.m, k, RecordDb(s.db, k, pc.answer, pc.status, pc.count, step.lookup, step.d),
                      Fails(pc.answer, step.lookup) && step.d.Schedule?);
    }
  }

  lemma HoldKeepsPlace(s: Sys, step: Step)
    requires WorkerEnabled(s, step) && step.Record? && Holds(PcOf(s, step.w).answer)
    ensures step.w in ApplyWorker(s, step).workers
    ensures ApplyWorker(s, step).workers[step.w] == Leaving(PcOf(s, step.w).m, PcOf(s, step.w).k, Keep)
  {
    hide RecordDb;
  }

  lemma SettleAckReason(s: Sys, w: nat, paused: bool, due: bool)
    requires Inv(s) && PcOf(s, w).Got? && PcOf(s, w).k.number > 1
    ensures var t := AfterSettle(s, w, paused, due);
      Acknowledging(t.workers[w]) ==> RetryAckReason(t, PcOf(s, w).k)
  {
    var k := PcOf(s, w).k;
    if k in s.db.attempts && s.db.attempts[k].callId.Some? {
      DialledStands(s, k);
    }
    hide Inv, Settled;
  }

  lemma OtherStepsAcknowledgeNoRetry(s: Sys, step: Step)
    requires Inv(s) && HomeInv(s) && WorkerEnabled(s, step) && !EnvStep(step)
    requires !step.LookAt? && !step.Resolve? && !step.Record? && !step.Settle?
    ensures var pc := PcOf(ApplyWorker(s, step), step.w);
      Acknowledging(pc) && pc.k.number > 1 ==> Acknowledging(PcOf(s, step.w))
  {
    PlaceFacts(s, step.w);
    PcFacts(s, step.w);
    hide Inv, HomeInv, Look, AfterLook, AfterResolve, AfterRecord, AfterSettle, Held, Settled, Untaken;
  }

  /** In every run, a worker turns to acknowledging a retry for one of the named reasons only. */
  lemma RetryAckIsEarned(trace: seq<Sys>, i: nat, step: Step)
    requires Run(trace) && trace[0] == INITIAL && i < |trace|
    requires Enabled(trace[i], step) && !EnvStep(step) && !Acknowledging(PcOf(trace[i], step.w))
    ensures var t := Apply(trace[i], step);
      var pc := PcOf(t, step.w);
      Acknowledging(pc) && pc.k.number > 1 ==> RetryAckReason(t, pc.k)
  {
    RunKeepsInv(trace, i);
    RunKeepsHomes(trace, i);
    hide Run, Inv, HomeInv;
    TurnHasReason(trace[i], step);
  }

  lemma TurnHasReason(s: Sys, step: Step)
    requires Inv(s) && HomeInv(s) && WorkerEnabled(s, step) && !EnvStep(step) && !Acknowledging(PcOf(s, step.w))
    ensures var t := ApplyWorker(s, step);
      var pc := PcOf(t, step.w);
      Acknowledging(pc) && pc.k.number > 1 ==> RetryAckReason(t, pc.k)
  {
    var w := step.w;
    hide Inv, HomeInv, RetryAckReason, Acknowledging, Look, RecordDb, AfterLookup, Holds, LookDb;
    if step.LookAt? || step.Resolve? || step.Record? || step.Settle? {
      SameJob(s, step);
    }
    if !PcOf(s, w).Idle? && PcOf(s, w).k.number > 1 && (step.LookAt? || step.Resolve? || step.Record? || step.Settle?) {
      hide ApplyWorker;
      if step.LookAt? {
        LookAckReason(s, w, step.view);
      } else if step.Settle? {
        SettleAckReason(s, w, step.paused, step.due);
      } else {
        CommitAckReason(s, step);
      }
    } else if !(step.LookAt? || step.Resolve? || step.Record? || step.Settle?) {
      hide ApplyWorker;
      OtherStepsAcknowledgeNoRetry(s, step);
    }
  }

  lemma SameJob(s: Sys, step: Step)
    requires WorkerEnabled(s, step) && (step.LookAt? || step.Resolve? || step.Record? || step.Settle?)
    ensures var pc := PcOf(ApplyWorker(s, step), step.w);
      !PcOf(s, step.w).Idle? && (!pc.Idle? ==> pc.k == PcOf(s, step.w).k)
  {
    hide Look, RecordDb, AfterLookup, LookDb, Holds, Rebuildable;
  }
}
