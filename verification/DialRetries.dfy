/** Where a retry is kept, exactly which steps lose it, and that what they lost is not dialled again.
    A retry without a row lives in its contact's retry columns; a held retry, whose claim cleared them,
    in its message on the stream only. */
module DialRetries {
  import opened Basics
  import opened DialRows
  import opened DialProtocol
  import opened DialHomes

  // ---- a retry without an attempt row -------------------------------------------------------

  /** An owed retry nobody has dialled or refused. */
  predicate Open(s: Sys, k: Key)
  {
    k in s.owed && k.number > 1 && k !in s.db.attempts && k !in s.refused
  }

  /** The columns hold a due time, and no number or this one. */
  predicate Names(c: Contact, number: nat) { c.due && (c.retry == None || c.retry == Some(number)) }

  /** The contact waits for a retry, but PostgreSQL does not know this is the one. */
  predicate Stranded(s: Sys, k: Key)
  {
    Open(s, k) && k.contact in s.db.contacts
    && s.db.contacts[k.contact].status.RetryScheduled? && !Names(s.db.contacts[k.contact], k.number)
  }

  /** A retry without a row is the one after the latest attempt, so it is stranded exactly when its contact
      waits and the rebuild does not come upon it. */
  lemma StrandedMeans(s: Sys, k: Key)
    requires Inv(s) && Open(s, k)
    ensures Latest(s.db, Key(k.contact, k.number - 1))
    ensures k.contact in s.db.contacts
    ensures Stranded(s, k) <==> s.db.contacts[k.contact].status.RetryScheduled? && !Waiting(s.db, k)
  {
    hide ColumnsOk, LogOk, WorkersOk, StreamOk, Settled;
    assert k == Key(k.contact, k.number);
    forall j | j in s.db.attempts && j.contact == k.contact ensures j.number <= k.number - 1 {
      assert j.number > k.number ==> k in s.db.attempts;
      assert j.number == k.number ==> j == k;
    }
  }

  /** The attempt after which the step schedules a retry, if it does. */
  function Schedules(s: Sys, step: Step): Option<Key>
  {
    match step
    case Webhook(k, _, _, _, d) => if d.Schedule? then Some(k) else None
    case Resolve(w, lookup, d) =>
      if PcOf(s, w).Resolving? && NoRun(lookup) && d.Schedule? then Some(PcOf(s, w).k) else None
    case Record(w, lookup, d) =>
      if PcOf(s, w).Triggered? && Fails(PcOf(s, w).answer, lookup) && d.Schedule? then Some(PcOf(s, w).k) else None
    case _ => None
  }

  /** A webhook or a late commit of an earlier attempt schedules the retry after that one. */
  predicate Overtakes(s: Sys, step: Step, k: Key)
  {
    var after := Schedules(s, step);
    after.Some? && after.value.contact == k.contact && NextKey(after.value) != k
  }

  /** The dispatcher meets a stale entry: its number has a row, its contact waits for another. */
  predicate Clears(s: Sys, step: Step, k: Key)
  {
    step.Dispatch? && step.check.Go? && step.k.contact == k.contact && step.k.number > 1
    && step.k in s.db.attempts && k.contact in s.db.contacts && s.db.contacts[k.contact].status.RetryScheduled?
  }

  /** A hold of another attempt of the contact puts back that it waits, over columns that do not name this
      retry. */
  predicate Uncovers(s: Sys, step: Step, k: Key)
  {
    step.Record? && PcOf(s, step.w).Triggered? && Holds(PcOf(s, step.w).answer)
    && PcOf(s, step.w).k.contact == k.contact && PcOf(s, step.w).status.RetryScheduled?
    && k.contact in s.db.contacts && !Names(s.db.contacts[k.contact], k.number)
  }

  predicate Strands(s: Sys, step: Step, k: Key)
  {
    Open(s, k) && (Overtakes(s, step, k) || Clears(s, step, k) || Uncovers(s, step, k))
  }

  /** Recovery's decision about the contact after attempt `j`. */
  lemma RecoveryStrandsExactly(s: Sys, t: Sys, j: Key, c: Contact, d: Decision, k: Key)
    requires !Stranded(s, k) && j.contact in s.db.contacts && j.contact in t.db.contacts && DecisionOk(d)
    requires t.db.attempts.Keys == s.db.attempts.Keys && t.refused == s.refused
    requires forall i :: i in s.db.contacts && i != j.contact ==> i in t.db.contacts && t.db.contacts[i] == s.db.contacts[i]
    requires t.db.contacts.Keys == s.db.contacts.Keys && t.db.contacts[j.contact] == Recovered(c, j.number, d)
    requires c.due == s.db.contacts[j.contact].due && c.retry == s.db.contacts[j.contact].retry
    requires NotWaiting(c.status) || c.status == s.db.contacts[j.contact].status
    requires t.owed == s.owed + (if d.Schedule? then {NextKey(j)} else {})
    ensures Stranded(t, k) <==> Open(s, k) && d.Schedule? && j.contact == k.contact && NextKey(j) != k
  {
  }

  lemma WebhookStrandsExactly(s: Sys, step: Step, k: Key)
    requires EnvEnabled(s, step) && step.Webhook? && !Stranded(s, k)
    ensures Stranded(ApplyEnv(s, step), k) <==> Strands(s, step, k)
  {
    var t := ApplyEnv(s, step);
    var c := s.db.contacts[step.k.contact].(status := step.status);
    RecoveryStrandsExactly(s, t, step.k, c, step.d, k);
  }

  lemma DispatchStrandsExactly(s: Sys, step: Step, k: Key)
    requires step.Dispatch? && step.k in s.scheduled && !Stranded(s, k) && Ordered(s.db, s.owed) && s.scheduled <= s.owed
    ensures Stranded(AfterDispatch(s, step.k, step.check, step.more), k) <==> Strands(s, step, k)
  {
    var t := AfterDispatch(s, step.k, step.check, step.more);
    DispatchShape(s, step.k, step.check, step.more);
    assert t.db == DispatchDb(s.db, step.k, step.check);
    assert Open(t, k) ==> Open(s, k);
    assert step.check.Ineligible? && step.k.number > 1 && step.k.contact == k.contact ==> !Open(t, k);
    assert t.refused != s.refused ==> step.check.Ineligible?;
    hide AfterDispatch, Ordered, Enqueues;
  }

  lemma EnvStrandsExactly(s: Sys, step: Step, k: Key)
    requires Inv(s) && EnvEnabled(s, step) && EnvStep(step) && !Stranded(s, k)
    ensures Stranded(ApplyEnv(s, step), k) <==> Strands(s, step, k)
  {
    if step.Webhook? {
      WebhookStrandsExactly(s, step, k);
    } else if step.Dispatch? {
      DispatchStrandsExactly(s, step, k);
    } else {
      OtherEnvStrandsNothing(s, step, k);
    }
  }

  lemma OtherEnvStrandsNothing(s: Sys, step: Step, k: Key)
    requires EnvEnabled(s, step) && EnvStep(step) && !step.Webhook? && !step.Dispatch? && !Stranded(s, k)
    ensures !Stranded(ApplyEnv(s, step), k) && !Strands(s, step, k)
  {
    hide AfterDispatch, WebhookDb, Rebuildable, MayHaveRun, Held;
  }

  lemma ResolveStrandsExactly(s: Sys, w: nat, lookup: Lookup, d: Decision, k: Key)
    requires WorkerEnabled(s, Resolve(w, lookup, d)) && !Stranded(s, k)
    ensures Stranded(ApplyWorker(s, Resolve(w, lookup, d)), k) <==> Strands(s, Resolve(w, lookup, d), k)
  {
    var j := PcOf(s, w).k;
    var t := AfterResolve(s, w, PcOf(s, w).m, j, lookup, d);
    if NoRun(lookup) {
      RecoveryStrandsExactly(s, t, j, s.db.contacts[j.contact], d, k);
    } else {
      assert t.db.contacts == s.db.contacts && t.db.attempts.Keys == s.db.attempts.Keys;
    }
  }

  lemma RecordShape(db: Db, k: Key, a: Answer, status: ContactStatus, count: int, lookup: Lookup, d: Decision)
    requires k in db.attempts && k.contact in db.contacts
    ensures var u := RecordDb(db, k, a, status, count, lookup, d);
      && u.attempts.Keys == db.attempts.Keys && u.contacts.Keys == db.contacts.Keys
      && (forall c :: c in db.contacts && c != k.contact ==> u.contacts[c] == db.contacts[c])
      && (Holds(a) ==> u.contacts[k.contact] == db.contacts[k.contact].(status := status, count := count))
      && (Fails(a, lookup) ==> u.contacts[k.contact] == Recovered(db.contacts[k.contact], k.number, d))
      && (!Fails(a, lookup) && !Holds(a) ==> u.contacts[k.contact] == db.contacts[k.contact])
  {
  }

  lemma FailsOrHolds(a: Answer, lookup: Lookup)
    ensures !(Fails(a, lookup) && Holds(a))
  {
  }

  lemma RecordStrandsExactly(s: Sys, w: nat, lookup: Lookup, d: Decision, k: Key)
    requires Inv(s) && WorkerEnabled(s, Record(w, lookup, d)) && !Stranded(s, k)
    ensures Stranded(ApplyWorker(s, Record(w, lookup, d)), k) <==> Strands(s, Record(w, lookup, d), k)
  {
    hide Inv, RecordDb, Holds, Fails, Stranded, Strands, NoRun;
    var pc := PcOf(s, w);
    var j := pc.k;
    var t := AfterRecord(s, w, pc, lookup, d);
    FailsOrHolds(pc.answer, lookup);
    RecordShape(s.db, j, pc.answer, pc.status, pc.count, lookup, d);
    assert t.owed == s.owed + (if Fails(pc.answer, lookup) && d.Schedule? then {NextKey(j)} else {}) && t.refused == s.refused
           && t.db == RecordDb(s.db, j, pc.answer, pc.status, pc.count, lookup, d) && t == ApplyWorker(s, Record(w, lookup, d));
    hide ApplyWorker, AfterRecord;
    if Fails(pc.answer, lookup) {
      RecoveryStrandsExactly(s, t, j, s.db.contacts[j.contact], d, k);
      assert Strands(s, Record(w, lookup, d), k) <==>
        Open(s, k) && d.Schedule? && j.contact == k.contact && NextKey(j) != k by { RecordStrands(s, w, lookup, d, k); }
    } else {
      RecordStrands(s, w, lookup, d, k);
      ContactStrandsExactly(s, t, j, k);
      if !Holds(pc.answer) {
        assert t.db.contacts == s.db.contacts;
        SameContactsStrandNothing(s, t, k);
      }
    }
  }

  lemma RecordStrands(s: Sys, w: nat, lookup: Lookup, d: Decision, k: Key)
    requires PcOf(s, w).Triggered? && PcOf(s, w).k.contact in s.db.contacts
    ensures var pc := PcOf(s, w);
      Strands(s, Record(w, lookup, d), k) <==>
        Open(s, k) && pc.k.contact == k.contact
        && if Fails(pc.answer, lookup) then d.Schedule? && NextKey(pc.k) != k
           else Holds(pc.answer) && pc.status.RetryScheduled? && !Names(s.db.contacts[k.contact], k.number)
  {
    FailsOrHolds(PcOf(s, w).answer, lookup);
  }

  lemma SameContactsStrandNothing(s: Sys, t: Sys, k: Key)
    requires t.owed == s.owed && t.refused == s.refused && t.db.attempts.Keys == s.db.attempts.Keys
    requires t.db.contacts == s.db.contacts
    ensures Stranded(t, k) == Stranded(s, k)
  {
  }

  /** A step that leaves the columns of the contact and gives it a status. */
  lemma ContactStrandsExactly(s: Sys, t: Sys, j: Key, k: Key)
    requires !Stranded(s, k) && t.owed == s.owed && t.refused == s.refused && t.db.attempts.Keys == s.db.attempts.Keys
    requires j.contact in s.db.contacts && t.db.contacts.Keys == s.db.contacts.Keys
    requires forall c :: c in s.db.contacts && c != j.contact ==> t.db.contacts[c] == s.db.contacts[c]
    requires t.db.contacts[j.contact] ==
      s.db.contacts[j.contact].(status := t.db.contacts[j.contact].status, count := t.db.contacts[j.contact].count)
    ensures Stranded(t, k) <==>
      Open(s, k) && j.contact == k.contact && t.db.contacts[j.contact].status.RetryScheduled?
      && !Names(s.db.contacts[k.contact], k.number)
  {
  }

  lemma LookStrandsNothing(s: Sys, w: nat, v: View, k: Key)
    requires WorkerEnabled(s, LookAt(w, v)) && !Stranded(s, k)
    ensures !Stranded(ApplyWorker(s, LookAt(w, v)), k)
  {
    var pc := PcOf(s, w);
    LookFits(s, pc.k, v);
    var r := Look(s.db, pc.k, s.clock, v);
    assert ApplyWorker(s, LookAt(w, v)) == AfterLook(s, w, pc.m, pc.k, r);
    hide Look, ApplyWorker;
    assert r.Expired? || r.Reopen? ==> LookDb(s.db, pc.k, r).attempts.Keys == s.db.attempts.Keys;
  }

  lemma WorkerStrandsExactly(s: Sys, step: Step, k: Key)
    requires Inv(s) && WorkerEnabled(s, step) && !EnvStep(step) && !Stranded(s, k)
    ensures Stranded(ApplyWorker(s, step), k) <==> Strands(s, step, k)
  {
    hide Inv;
    if step.Resolve? {
      ResolveStrandsExactly(s, step.w, step.lookup, step.d, k);
    } else if step.Record? {
      RecordStrandsExactly(s, step.w, step.lookup, step.d, k);
    } else if step.LookAt? {
      LookStrandsNothing(s, step.w, step.view, k);
    } else if step.Claim? {
      hide Look;
    } else if MoveStep(step, step.w) {
      MoveShape(s, step, step.w);
      hide ApplyWorker, WorkerEnabled;
    } else {
      hide AfterLook, AfterResolve, AfterClaim, AfterRecord, AfterSettle, Look;
    }
  }

  /** Exactly which steps leave a retry without a home in PostgreSQL: one that schedules another retry
      of the contact while this one is open, a dispatch of a stale entry while it waits, and a hold of
      another attempt that has it wait again. All can be told before the step. */
  lemma StrandedExactly(trace: seq<Sys>, i: nat, step: Step, k: Key)
    requires Run(trace) && trace[0] == INITIAL && i < |trace| && Enabled(trace[i], step) && !Stranded(trace[i], k)
    ensures Stranded(Apply(trace[i], step), k) <==> Strands(trace[i], step, k)
  {
    hide Run, Inv, EnvEnabled, WorkerEnabled, ApplyEnv, ApplyWorker, Strands, Stranded;
    RunKeepsInv(trace, i);
    if EnvStep(step) {
      EnvStrandsExactly(trace[i], step, k);
    } else {
      WorkerStrandsExactly(trace[i], step, k);
    }
  }

  /** A retry nobody strands is never stranded. */
  lemma {:induction false} StrandedOnlyBy(trace: seq<Sys>, steps: seq<Step>, i: nat, k: Key)
    requires Follows(trace, steps) && trace[0] == INITIAL && i < |trace|
    requires forall j :: 0 <= j < i ==> !Strands(trace[j], steps[j], k)
    ensures !Stranded(trace[i], k)
  {
    if i > 0 {
      hide Run, Strands, Stranded;
      StrandedOnlyBy(trace, steps, i - 1, k);
      FollowsIsRun(trace, steps);
      StrandedExactly(trace, i - 1, steps[i - 1], k);
      hide Enabled, Apply;
      assert trace[i - 1 + 1] == Apply(trace[i - 1], steps[i - 1]);
    }
  }

  // ---- a held retry -------------------------------------------------------------------------

  predicate HeldRetry(s: Sys, k: Key) { k.number > 1 && k in s.db.attempts && Held(s.db.attempts[k]) }

  predicate Acknowledging(pc: Pc) { pc.Unguarded? || pc.AckOnly? || (pc.Leaving? && pc.fate.Acknowledge?) }

  /** The message is on the stream and nobody is about to take it away. */
  ghost predicate Kept(s: Sys, m: nat, k: Key)
  {
    m in s.stream && s.stream[m] == k
    && forall w :: w in s.workers && Acknowledging(s.workers[w]) ==> s.workers[w].m != m
  }

  ghost predicate KeptAlive(s: Sys, k: Key) { k in s.refused || exists m :: Kept(s, m, k) }

  /** The steps after which a held retry may be without a message: the hold itself, if its message is
      gone or in the hands of another delivery that acknowledges it; and on a held retry, a look whose
      retry gate acknowledges or expires it, a rescheduling at a closed window, dead-lettering, a wipe. */
  ghost predicate Forsakes(s: Sys, step: Step, k: Key)
  {
    match step
    case Record(w, _, _) =>
      PcOf(s, w).Triggered? && PcOf(s, w).k == k && Holds(PcOf(s, w).answer) && !Kept(s, PcOf(s, w).m, k)
    case LookAt(w, v) =>
      HeldRetry(s, k) && PcOf(s, w).Admitted? && PcOf(s, w).k == k
      && (Look(s.db, k, s.clock, v) == Stop(Acknowledge) || Look(s.db, k, s.clock, v).Expired?)
    case Settle(w, paused, due) => HeldRetry(s, k) && PcOf(s, w).Got? && PcOf(s, w).k == k && !paused && due
    case DeadLetter(m, _) => HeldRetry(s, k) && m in s.stream && s.stream[m] == k
    case RedisWipe => HeldRetry(s, k)
    case _ => false
  }

  /** On a held retry the gate lets go exactly when, with nothing else against the dial, the previous
      attempt is in flight, or is an unresolved ambiguous trigger whose run listing answered (whatever it
      listed: the held row itself is taken for another delivery's work) or failed once too often. */
  lemma GateLetsGoIff(db: Db, k: Key, now: int, v: View)
    requires k.contact in db.contacts && k.number > 1 && k in db.attempts && Held(db.attempts[k])
    ensures var p := Key(k.contact, k.number - 1);
      Look(db, k, now, v) == Stop(Acknowledge) || Look(db, k, now, v).Expired? <==>
        && !v.paused && v.permitted && Dialable(db.contacts[k.contact].status) && v.windowOpen && p in db.attempts
        && (db.attempts[p].state.Initiated?
            || (Unresolved(db.attempts[p]) && (v.lookup.Found? || v.deferralsSpent)))
  {
  }

  lemma KeptIsThere(s: Sys, m: nat, k: Key)
    requires Kept(s, m, k)
    ensures m in s.stream && s.stream[m] == k
  {
  }

  lemma KeptStays(s: Sys, t: Sys, w: nat, m: nat, k: Key)
    requires Kept(s, m, k) && m in t.stream && t.stream[m] == k
    requires forall v :: v in t.workers && v != w ==> v in s.workers && t.workers[v] == s.workers[v]
    requires w in t.workers && Acknowledging(t.workers[w]) && t.workers[w].m == m ==>
      w in s.workers && Acknowledging(s.workers[w]) && s.workers[w].m == m
    ensures Kept(t, m, k)
  {
  }

  // ---- rows become held by a hold only ------------------------------------------------------

  lemma CommitsHoldNothing(db: Db, j: Key, k: Key, lookup: Lookup, d: Decision)
    requires j in db.attempts && j.contact in db.contacts && k in db.attempts
    ensures Held(AfterLookup(db, j, lookup, d).attempts[k]) ==> Held(db.attempts[k])
    ensures forall a, st, n :: (k != j || !Holds(a)) && Held(RecordDb(db, j, a, st, n, lookup, d).attempts[k]) ==>
      Held(db.attempts[k])
    ensures forall r, c, st :: Held(WebhookDb(db, j, r, c, st, d).attempts[k]) ==> Held(db.attempts[k])
    ensures Held(SweepDb(db, j).attempts[k]) ==> Held(db.attempts[k])
  {
  }

  lemma LookHoldsNothing(db: Db, j: Key, k: Key, r: LookResult)
    requires k in db.attempts && j.contact in db.contacts
    requires r.Reopen? ==> j.number > 1 && Key(j.contact, j.number - 1) in db.attempts && r.runs != []
    ensures k in LookDb(db, j, r).attempts && (Held(LookDb(db, j, r).attempts[k]) ==> Held(db.attempts[k]))
  {
  }

  lemma ClaimHoldsNothing(db: Db, j: Key, k: Key, held: bool, count: int, now: int)
    requires j.contact in db.contacts && (held ==> j in db.attempts) && ClaimDb(db, j, held, count, now).Some?
    ensures var u := ClaimDb(db, j, held, count, now).value;
      k in u.attempts && Held(u.attempts[k]) ==> k in db.attempts && Held(db.attempts[k])
  {
  }

  /** A row is held after an environment step only if it was before. */
  lemma EnvHoldsNothing(s: Sys, step: Step, k: Key)
    requires EnvEnabled(s, step) && HeldRetry(ApplyEnv(s, step), k)
    ensures HeldRetry(s, k)
  {
    hide Held, AfterDispatch, MayHaveRun, Rebuildable;
    if step.Webhook? {
      assert k in s.db.attempts;
      CommitsHoldNothing(s.db, step.k, k, Unavailable, step.d);
    } else if step.Sweep? {
      CommitsHoldNothing(s.db, step.k, k, Unavailable, Undecided);
    } else {
      QuietShape(s, step);
      hide ApplyEnv, EnvEnabled;
    }
  }

  /** The same for a worker's step, but for the hold of that very job. */
  lemma WorkerHoldsNothing(s: Sys, step: Step, k: Key)
    requires WorkerEnabled(s, step) && !EnvStep(step) && HeldRetry(ApplyWorker(s, step), k)
    requires !(step.Record? && PcOf(s, step.w).Triggered? && PcOf(s, step.w).k == k && Holds(PcOf(s, step.w).answer))
    ensures HeldRetry(s, k)
  {
    hide Held, Holds, Look, RecordDb, AfterLookup, ClaimDb, LookDb, AfterSettle;
    var pc := PcOf(s, step.w);
    if step.Record? {
      RecordShape(s.db, pc.k, pc.answer, pc.status, pc.count, step.lookup, step.d);
      CommitsHoldNothing(s.db, pc.k, k, step.lookup, step.d);
    } else if step.Resolve? {
      ResolveHoldsNothing(s, step.w, step.lookup, step.d, k);
    } else if step.LookAt? {
      LookedHoldsNothing(s, step.w, step.view, k);
    } else if step.Claim? {
      ClaimedHoldsNothing(s, step.w, k);
    } else if step.Settle? {
      SettleShape(s, step.w, step.paused, step.due);
    }
  }

  lemma ResolveHoldsNothing(s: Sys, w: nat, lookup: Lookup, d: Decision, k: Key)
    requires WorkerEnabled(s, Resolve(w, lookup, d)) && HeldRetry(ApplyWorker(s, Resolve(w, lookup, d)), k)
    ensures HeldRetry(s, k)
  {
    var j := PcOf(s, w).k;
    assert AfterLookup(s.db, j, lookup, d).attempts.Keys == s.db.attempts.Keys;
    hide Held, AfterLookup;
    CommitsHoldNothing(s.db, j, k, lookup, d);
  }

  lemma LookedHoldsNothing(s: Sys, w: nat, v: View, k: Key)
    requires WorkerEnabled(s, LookAt(w, v)) && HeldRetry(ApplyWorker(s, LookAt(w, v)), k)
    ensures HeldRetry(s, k)
  {
    hide Held, Look;
    var pc := PcOf(s, w);
    LookFits(s, pc.k, v);
    var r := Look(s.db, pc.k, s.clock, v);
    if r.Expired? || r.Reopen? {
      assert LookDb(s.db, pc.k, r).attempts.Keys == s.db.attempts.Keys;
      LookHoldsNothing(s.db, pc.k, k, r);
    }
  }

  lemma ClaimedHoldsNothing(s: Sys, w: nat, k: Key)
    requires WorkerEnabled(s, Claim(w)) && HeldRetry(AfterClaim(s, w, PcOf(s, w)), k)
    ensures HeldRetry(s, k)
  {
    hide Held, ClaimDb;
    var pc := PcOf(s, w);
    if ClaimDb(s.db, pc.k, pc.held, pc.count, s.clock).Some? {
      ClaimHoldsNothing(s.db, pc.k, k, pc.held, pc.count, s.clock);
    }
  }

  // ---- its message stays --------------------------------------------------------------------

  lemma EnvKeepsMessage(s: Sys, step: Step, k: Key, m: nat)
    requires EnvEnabled(s, step) && EnvStep(step) && HeldRetry(s, k) && !Forsakes(s, step, k) && Kept(s, m, k)
    requires s.nextMid !in s.stream
    ensures Kept(ApplyEnv(s, step), m, k)
  {
    hide Held, Rebuildable, MayHaveRun, Waiting, WebhookDb, SweepDb, AfterDispatch;
    if step.Dispatch? {
      DispatchShape(s, step.k, step.check, step.more);
    }
  }

  lemma RecordKeepsMessage(s: Sys, w: nat, lookup: Lookup, d: Decision, k: Key, m: nat)
    requires Inv(s) && Places(s) && WorkerEnabled(s, Record(w, lookup, d)) && Kept(s, m, k)
    requires HeldRetry(s, k) || (PcOf(s, w).k == k && Holds(PcOf(s, w).answer))
    ensures Kept(ApplyWorker(s, Record(w, lookup, d)), m, k)
  {
    hide Ordered, ColumnsOk, LogOk, WorkersOk, StreamOk, RecordDb, Done, Kept, Fails;
    var pc := PcOf(s, w);
    var t := AfterRecord(s, w, pc, lookup, d);
    OwedFacts(s, w);
    PlaceFacts(s, w);
    assert t == ApplyWorker(s, Record(w, lookup, d)) && t.stream == s.stream && t.workers == s.workers[w := t.workers[w]];
    assert Kept(s, m, k) ==> m in s.stream && s.stream[m] == k by { KeptIsThere(s, m, k); }
    hide ApplyWorker, Committed;
    KeptStays(s, t, w, m, k);
  }

  lemma LookKeepsMessage(s: Sys, w: nat, v: View, k: Key, m: nat)
    requires Places(s) && WorkerEnabled(s, LookAt(w, v)) && Kept(s, m, k)
    requires HeldRetry(s, k) && !Forsakes(s, LookAt(w, v), k)
    ensures var t := ApplyWorker(s, LookAt(w, v)); k in t.refused || Kept(t, m, k)
  {
    var pc := PcOf(s, w);
    PlaceFacts(s, w);
    LookFits(s, pc.k, v);
    var r := Look(s.db, pc.k, s.clock, v);
    assert ApplyWorker(s, LookAt(w, v)) == AfterLook(s, w, pc.m, pc.k, r);
    assert pc.k == k ==> !r.Reopen? && !r.Expired? && r != Stop(Acknowledge);
    hide Look, ApplyWorker, Held, LookDb, PlaceOk, Places, HeldRetry, Forsakes;
    LookedKeepsMessage(s, w, pc.m, pc.k, r, k, m);
  }

  lemma LookedKeepsMessage(s: Sys, w: nat, m: nat, j: Key, r: LookResult, k: Key, kept: nat)
    requires Kept(s, kept, k) && (m in s.stream ==> s.stream[m] == j)
    requires r.Expired? || r.Reopen? ==> j.contact in s.db.contacts
    requires r.Reopen? ==> j.number > 1 && Key(j.contact, j.number - 1) in s.db.attempts && r.runs != []
    requires j == k ==> !r.Reopen? && !r.Expired? && r != Stop(Acknowledge)
    ensures var t := AfterLook(s, w, m, j, r); k in t.refused || Kept(t, kept, k)
  {
    hide LookDb;
    var t := AfterLook(s, w, m, j, r);
    if !(r.Refused? && j == k) {
      KeptStays(s, t, w, kept, k);
    }
  }

  lemma SettleKeepsMessage(s: Sys, w: nat, paused: bool, due: bool, k: Key, m: nat)
    requires Places(s) && PcOf(s, w).Got? && Kept(s, m, k)
    requires HeldRetry(s, k) && !Forsakes(s, Step.Settle(w, paused, due), k)
    ensures Kept(AfterSettle(s, w, paused, due), m, k)
  {
    var pc := PcOf(s, w);
    PlaceFacts(s, w);
    var t := AfterSettle(s, w, paused, due);
    SettleShape(s, w, paused, due);
    assert pc.k == k ==> !t.workers[w].AckOnly?;
    hide AfterSettle;
    KeptStays(s, t, w, m, k);
  }

  lemma ClaimKeepsMessage(s: Sys, w: nat, k: Key, m: nat)
    requires Inv(s) && Places(s) && WorkerEnabled(s, Claim(w)) && Kept(s, m, k) && HeldRetry(s, k)
    ensures Kept(AfterClaim(s, w, PcOf(s, w)), m, k)
  {
    hide Ordered, ColumnsOk, LogOk, WorkersOk, StreamOk, Done, Held, Untaken;
    var pc := PcOf(s, w);
    PlaceFacts(s, w);
    OwedFacts(s, w);
    assert pc.k == k ==> pc.held;
    KeptStays(s, AfterClaim(s, w, pc), w, m, k);
  }

  lemma ResolveKeepsMessage(s: Sys, w: nat, lookup: Lookup, d: Decision, k: Key, m: nat)
    requires Inv(s) && Places(s) && WorkerEnabled(s, Resolve(w, lookup, d)) && Kept(s, m, k) && HeldRetry(s, k)
    ensures Kept(ApplyWorker(s, Resolve(w, lookup, d)), m, k)
  {
    hide Ordered, ColumnsOk, LogOk, WorkersOk, StreamOk, Done, AfterLookup, Untaken;
    var pc := PcOf(s, w);
    PlaceFacts(s, w);
    OwedFacts(s, w);
    assert pc.k != k;
    hide Held;
    KeptStays(s, AfterResolve(s, w, pc.m, pc.k, lookup, d), w, m, k);
  }

  /** Taking, giving up, guards, acknowledging, admitting, triggering, leaving, stopping. */
  lemma MovesKeepMessage(s: Sys, step: Step, k: Key, m: nat)
    requires Places(s) && WorkerEnabled(s, step) && Kept(s, m, k) && k.number > 1
    requires step.Take? || step.GiveUp? || step.DropGuard? || step.Ack? || step.Admit? || step.Trigger?
             || step.Leave? || step.Crash?
    ensures Kept(ApplyWorker(s, step), m, k)
  {
    var w := step.w;
    PlaceFacts(s, w);
    hide AfterLook, AfterResolve, AfterClaim, AfterRecord, AfterSettle, Look, Done;
    KeptStays(s, ApplyWorker(s, step), w, m, k);
  }

  lemma WorkerKeepsMessage(s: Sys, step: Step, k: Key, m: nat)
    requires Inv(s) && Places(s) && WorkerEnabled(s, step) && !EnvStep(step)
    requires HeldRetry(s, k) && !Forsakes(s, step, k) && Kept(s, m, k)
    ensures k in ApplyWorker(s, step).refused || Kept(ApplyWorker(s, step), m, k)
  {
    HeldIsRetry(s, k);
    hide Inv, Places, Kept, HeldRetry;
    match step {
      case LookAt(w, v) => LookKeepsMessage(s, w, v, k, m);
      case Settle(w, paused, due) => SettleKeepsMessage(s, w, paused, due, k, m);
      case Claim(w) => ClaimKeepsMessage(s, w, k, m);
      case Resolve(w, lookup, d) => ResolveKeepsMessage(s, w, lookup, d, k, m);
      case Record(w, lookup, d) => RecordKeepsMessage(s, w, lookup, d, k, m);
      case _ => MovesKeepMessage(s, step, k, m);
    }
  }

  lemma HeldIsRetry(s: Sys, k: Key)
    requires HeldRetry(s, k)
    ensures k.number > 1
  {
  }

  lemma EnvKeepsRefused(s: Sys, step: Step)
    requires EnvEnabled(s, step)
    ensures s.refused <= ApplyEnv(s, step).refused
  {
    hide WebhookDb, SweepDb, AfterDispatch, Rebuildable, MayHaveRun, Waiting;
    if step.Dispatch? {
      DispatchShape(s, step.k, step.check, step.more);
    }
  }

  lemma WorkerKeepsRefused(s: Sys, step: Step)
    requires WorkerEnabled(s, step)
    ensures s.refused <= ApplyWorker(s, step).refused
  {
    hide Look, ClaimDb, RecordDb, AfterLookup, LookDb, AfterSettle;
    if step.Settle? {
      SettleShape(s, step.w, step.paused, step.due);
    }
  }

  /** One step. */
  lemma HeldStep(s: Sys, step: Step, k: Key)
    requires Inv(s) && HomeInv(s) && Enabled(s, step)
    requires (HeldRetry(s, k) ==> KeptAlive(s, k)) && !Forsakes(s, step, k)
    ensures HeldRetry(Apply(s, step), k) ==> KeptAlive(Apply(s, step), k)
  {
    hide Inv, HeldRetry, Kept, EnvEnabled, WorkerEnabled, ApplyEnv, ApplyWorker;
    var t := Apply(s, step);
    if HeldRetry(t, k) {
      if EnvStep(step) {
        EnvHoldsNothing(s, step, k);
        EnvKeepsRefused(s, step);
        if k !in s.refused {
          var m :| Kept(s, m, k);
          MidsAreBelow(s);
          EnvKeepsMessage(s, step, k, m);
        }
      } else if step.Record? && PcOf(s, step.w).Triggered? && PcOf(s, step.w).k == k && Holds(PcOf(s, step.w).answer) {
        HoldKeepsMessage(s, step.w, step.lookup, step.d, k);
      } else {
        WorkerHoldsNothing(s, step, k);
        WorkerKeepsRefused(s, step);
        if k !in s.refused {
          var m :| Kept(s, m, k);
          WorkerKeepsMessage(s, step, k, m);
        }
      }
    }
  }

  lemma HoldKeepsMessage(s: Sys, w: nat, lookup: Lookup, d: Decision, k: Key)
    requires Inv(s) && HomeInv(s) && WorkerEnabled(s, Record(w, lookup, d)) && !Forsakes(s, Record(w, lookup, d), k)
    requires PcOf(s, w).Triggered? && PcOf(s, w).k == k && Holds(PcOf(s, w).answer)
    ensures KeptAlive(ApplyWorker(s, Record(w, lookup, d)), k)
  {
    hide Inv, Kept, RecordDb;
    RecordKeepsMessage(s, w, lookup, d, k, PcOf(s, w).m);
  }

  /** Unless one of the named steps happens to it, a held retry keeps its message on the stream, so it is
      delivered again, or was refused. */
  lemma {:induction false} HeldRetryKeepsItsMessage(trace: seq<Sys>, steps: seq<Step>, i: nat, k: Key)
    requires Follows(trace, steps) && trace[0] == INITIAL && i < |trace|
    requires forall j :: 0 <= j < i ==> !Forsakes(trace[j], steps[j], k)
    ensures HeldRetry(trace[i], k) ==> KeptAlive(trace[i], k)
  {
    hide Run, Forsakes, KeptAlive, Inv, HomeInv, EnvEnabled, WorkerEnabled, ApplyEnv, ApplyWorker;
    if i > 0 {
      hide HeldRetry;
      HeldRetryKeepsItsMessage(trace, steps, i - 1, k);
      FollowsIsRun(trace, steps);
      RunKeepsInv(trace, i - 1);
      RunKeepsHomes(trace, i - 1);
      HeldStep(trace[i - 1], steps[i - 1], k);
      assert trace[i - 1 + 1] == Apply(trace[i - 1], steps[i - 1]);
    }
  }
}
