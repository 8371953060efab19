/** No person is called twice: what the requests of one job look like over every run. */
module DialSafety {
  import opened Basics
  import opened DialRows
  import opened DialProtocol

  /** In every reachable state each job has at most one request that may have produced a call, it is
      the last one, and every request before it was definitely rejected. */
  lemma AtMostOneCall(trace: seq<Sys>, t: nat, i: nat, j: nat)
    requires Run(trace) && trace[0] == INITIAL && t < |trace|
    requires i < j < |trace[t].log| && trace[t].log[i].key == trace[t].log[j].key
    ensures trace[t].log[i].answer.ConfigRejected? || trace[t].log[i].answer.Rejected?
  {
    hide Run;
    RunKeepsInv(trace, t);
  }

  /** At the very moment of a trigger: the job has one standing attempt row without a call, this
      worker alone is dialling it, and every earlier request for it was definitely rejected. */
  lemma TriggerIsSafe(trace: seq<Sys>, t: nat, w: nat, a: Answer)
    requires Run(trace) && trace[0] == INITIAL && t < |trace| && Enabled(trace[t], Trigger(w, a))
    ensures var s := trace[t];
      var k := PcOf(s, w).k;
      && k in s.db.attempts && !Held(s.db.attempts[k]) && s.db.attempts[k].callId.None?
      && (forall i :: 0 <= i < |s.log| && s.log[i].key == k ==> !Live(s.log[i].answer))
      && (forall v :: v != w && Dialling(PcOf(s, v)) ==> PcOf(s, v).k != k)
  {
    var s := trace[t];
    hide Run;
    RunKeepsInv(trace, t);
    PcFacts(s, w);
    forall v | v != w && Dialling(PcOf(s, v)) ensures PcOf(s, v).k != PcOf(s, w).k {
      PcFacts(s, v);
    }
  }

  // ---- what stands stays undialled ------------------------------------------------------------

  /** Rows stand through every commit but the hold of their own trigger. */
  lemma CommitsKeepSettled(db: Db, k: Key, j: Key)
    requires Settled(db, j) && k.contact in db.contacts
    ensures forall l, d :: k in db.attempts ==> Settled(AfterLookup(db, k, l, d), j)
    ensures forall a, st, n, l, d :: k in db.attempts && (k != j || !Holds(a)) ==> Settled(RecordDb(db, k, a, st, n, l, d), j)
    ensures forall r, c, st, d :: k in db.attempts ==> Settled(WebhookDb(db, k, r, c, st, d), j)
    ensures k in db.attempts ==> Settled(SweepDb(db, k), j)
  {
  }

  lemma ClaimKeepsSettled(db: Db, k: Key, j: Key, held: bool, count: int, now: int)
    requires Settled(db, j) && k.contact in db.contacts && (held ==> k in db.attempts && Held(db.attempts[k]))
    ensures var u := ClaimDb(db, k, held, count, now);
      u.Some? ==> k != j && Settled(u.value, j)
  {
  }

  lemma LookKeepsSettled(db: Db, k: Key, j: Key, now: int, v: View)
    requires Settled(db, j) && k.contact in db.contacts
    ensures var r := Look(db, k, now, v);
      (r.Expired? || (r.Reopen? && k.number > 1 && Key(k.contact, k.number - 1) in db.attempts && r.runs != []) ==>
            Settled(LookDb(db, k, r), j))
  {
  }

  lemma EnvKeepsStanding(s: Sys, step: Step, k: Key)
    requires Stands(s, k) && EnvEnabled(s, step)
    ensures Stands(ApplyEnv(s, step), k) && ApplyEnv(s, step).log == s.log
  {
    hide MayHaveRun, AfterDispatch, Rebuildable, Waiting;
    if step.Webhook? || step.Sweep? {
      CommitsKeepSettled(s.db, step.k, k);
      hide WebhookDb, SweepDb, Settled;
    } else {
      QuietShape(s, step);
      hide ApplyEnv, EnvEnabled;
    }
  }

  /** A worker's step keeps an attempt standing if it keeps the row and adds no one who may take it back. */
  lemma StepKeepsStanding(s: Sys, t: Sys, w: nat, k: Key)
    requires Stands(s, k) && Settled(t.db, k)
    requires forall v :: v in t.workers && v != w ==> v in s.workers && t.workers[v] == s.workers[v]
    requires w in t.workers && Risky(t.workers[w]) ==> t.workers[w].k != k
    ensures Stands(t, k)
  {
  }

  lemma LookKeepsStanding(s: Sys, w: nat, v: View, k: Key)
    requires Inv(s) && Stands(s, k) && WorkerEnabled(s, LookAt(w, v))
    ensures Stands(ApplyWorker(s, LookAt(w, v)), k) && ApplyWorker(s, LookAt(w, v)).log == s.log
  {
    var pc := PcOf(s, w);
    PcFacts(s, w);
    LookFits(s, pc.k, v);
    LookKeepsSettled(s.db, pc.k, k, s.clock, v);
    hide Inv, Look, LookDb, Settled, Stands, PcOk;
    LookedKeepsStanding(s, w, pc.m, pc.k, Look(s.db, pc.k, s.clock, v), k);
  }

  lemma LookedKeepsStanding(s: Sys, w: nat, m: nat, j: Key, r: LookResult, k: Key)
    requires Stands(s, k) && j.contact in s.db.contacts
    requires r.Reopen? ==> j.number > 1 && Key(j.contact, j.number - 1) in s.db.attempts && r.runs != []
    requires r.Expired? || r.Reopen? ==> Settled(LookDb(s.db, j, r), k)
    ensures Stands(AfterLook(s, w, m, j, r), k) && AfterLook(s, w, m, j, r).log == s.log
  {
    hide LookDb, Settled;
    StepKeepsStanding(s, AfterLook(s, w, m, j, r), w, k);
  }

  lemma ClaimKeepsStanding(s: Sys, w: nat, k: Key)
    requires Inv(s) && Stands(s, k) && WorkerEnabled(s, Claim(w))
    ensures Stands(AfterClaim(s, w, PcOf(s, w)), k) && AfterClaim(s, w, PcOf(s, w)).log == s.log
  {
    var pc := PcOf(s, w);
    PcFacts(s, w);
    ClaimKeepsSettled(s.db, pc.k, k, pc.held, pc.count, s.clock);
    hide ClaimDb, Inv;
    StepKeepsStanding(s, AfterClaim(s, w, pc), w, k);
  }

  lemma CommitKeepsStanding(s: Sys, step: Step, k: Key)
    requires Stands(s, k) && WorkerEnabled(s, step) && (step.Resolve? || step.Record?)
    ensures Stands(ApplyWorker(s, step), k) && ApplyWorker(s, step).log == s.log
  {
    var pc := PcOf(s, step.w);
    assert step.Record? ==> pc.k != k || !Holds(pc.answer);
    CommitsKeepSettled(s.db, pc.k, k);
    hide AfterLookup, RecordDb;
    StepKeepsStanding(s, ApplyWorker(s, step), step.w, k);
  }

  lemma WorkerKeepsStanding(s: Sys, step: Step, k: Key)
    requires Inv(s) && Stands(s, k) && WorkerEnabled(s, step) && !EnvStep(step)
    ensures var t := ApplyWorker(s, step);
      Stands(t, k) && s.log <= t.log && forall i :: |s.log| <= i < |t.log| ==> t.log[i].key != k
  {
    hide Inv, Look, AfterLook, AfterResolve, AfterRecord, AfterClaim, Settled;
    var w := step.w;
    if step.Claim? {
      ClaimKeepsStanding(s, w, k);
    } else if step.Resolve? || step.Record? {
      CommitKeepsStanding(s, step, k);
    } else if step.LookAt? {
      LookKeepsStanding(s, w, step.view, k);
    } else {
      MovesKeepStanding(s, step, k);
    }
  }

  lemma MovesKeepStanding(s: Sys, step: Step, k: Key)
    requires Stands(s, k) && WorkerEnabled(s, step)
    requires !EnvStep(step)
    requires MoveStep(step, step.w) || step.Admit? || step.Leave? || step.Trigger?
    ensures var t := ApplyWorker(s, step);
      Stands(t, k) && s.log <= t.log && forall i :: |s.log| <= i < |t.log| ==> t.log[i].key != k
  {
    hide Settled;
    var w := step.w;
    if MoveStep(step, w) {
      MoveShape(s, step, w);
      hide ApplyWorker, WorkerEnabled, MoveStep;
      StepKeepsStanding(s, ApplyWorker(s, step), w, k);
    } else {
      hide Look, AfterLook, AfterResolve, AfterRecord, AfterClaim, AfterSettle;
      StepKeepsStanding(s, ApplyWorker(s, step), w, k);
    }
  }

  lemma NextKeepsStanding(s: Sys, t: Sys, k: Key)
    requires Inv(s) && Stands(s, k) && Next(s, t)
    ensures Stands(t, k) && s.log <= t.log && forall i :: |s.log| <= i < |t.log| ==> t.log[i].key != k
  {
    hide Inv, Stands, EnvEnabled, WorkerEnabled, ApplyEnv, ApplyWorker;
    var step :| Enabled(s, step) && t == Apply(s, step);
    if EnvStep(step) {
      EnvKeepsStanding(s, step, k);
    } else {
      WorkerKeepsStanding(s, step, k);
    }
  }

  /** Once a job's attempt stands, no continuation of the run sends another request for it: whatever is
      redelivered, reclaimed, rescheduled, swept or lost. */
  lemma {:induction false} NeverDialledAgain(trace: seq<Sys>, i: nat, j: nat, k: Key)
    requires Run(trace) && trace[0] == INITIAL && i <= j < |trace| && Stands(trace[i], k)
    ensures Stands(trace[j], k) && trace[i].log <= trace[j].log
    ensures forall n :: |trace[i].log| <= n < |trace[j].log| ==> trace[j].log[n].key != k
    decreases j - i
  {
    hide Next, Stands, Inv;
    if i < j {
      NeverDialledAgain(trace, i, j - 1, k);
      RunKeepsInv(trace, j - 1);
      assert Next(trace[j - 1], trace[j - 1 + 1]);
      NextKeepsStanding(trace[j - 1], trace[j], k);
    }
  }

  /** The stuck-call sweeper sends nothing and queues nothing, and what it takes over stays undialled
      unless a worker may still take back that very job. */
  lemma SweeperNeverDials(trace: seq<Sys>, i: nat, j: nat, k: Key, cutoff: int)
    requires Run(trace) && trace[0] == INITIAL && i + 1 <= j < |trace|
    requires Enabled(trace[i], Sweep(k, cutoff)) && trace[i + 1] == Apply(trace[i], Sweep(k, cutoff))
    requires forall w :: w in trace[i].workers && Risky(trace[i].workers[w]) ==> trace[i].workers[w].k != k
    ensures trace[i + 1].log == trace[i].log && trace[i + 1].stream == trace[i].stream
    ensures trace[i + 1].owed == trace[i].owed && trace[i + 1].guards == trace[i].guards
    ensures trace[i].log <= trace[j].log
    ensures forall n :: |trace[i].log| <= n < |trace[j].log| ==> trace[j].log[n].key != k
  {
    var s := trace[i];
    RunKeepsInv(trace, i);
    assert Stands(trace[i + 1], k);
    hide Run, Stands, Inv, Enabled;
    NeverDialledAgain(trace, i + 1, j, k);
  }
}
