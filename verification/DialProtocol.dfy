/** The dial protocol: any number of workers over one database and one Redis. Every step is one
    committed transaction, one Redis command or one request to the provider; a worker may stop for
    ever between any two of its steps, and Redis may be wiped. */
module DialProtocol {
  import opened Basics
  import opened DialRows

  /** Where a worker is with message `m`, which carries job `k`. From `Admitted` to `Leaving` it holds
      the concurrency lease of the job. */
  datatype Pc =
    | Idle
    | Got(m: nat, k: Key)
    | Rebuild(m: nat, k: Key)          // first attempt sent back: scheduled if need be, guard next
    | Unguarded(m: nat, k: Key)        // ... its guard is dropped, acknowledgement next
    | AckOnly(m: nat, k: Key)
    | Admitted(m: nat, k: Key)
    | Resolving(m: nat, k: Key)
    | Cleared(m: nat, k: Key, held: bool, status: ContactStatus, count: int)
    | Claimed(m: nat, k: Key, status: ContactStatus, count: int)
    | Triggered(m: nat, k: Key, status: ContactStatus, count: int, answer: Answer)
    | Leaving(m: nat, k: Key, fate: Fate)

  predicate Dialling(pc: Pc)
  {
    pc.Admitted? || pc.Resolving? || pc.Cleared? || pc.Claimed? || pc.Triggered? || pc.Leaving?
  }

  /** A request that left for the provider, and what came back. */
  datatype Request = Request(key: Key, answer: Answer)

  /** `owed`: every job the system ever took on. `guards` maps a job's enqueue guard to the message
      put on the stream with it; `dead` is the dead-letter stream; `scheduled` the entries of the Redis
      schedule. `refused` records a verdict: the job was found not eligible. */
  datatype Sys = Sys(
    clock: int,
    db: Db,
    owed: set<Key>,
    log: seq<Request>,
    stream: map<nat, Key>,
    nextMid: nat,
    guards: map<Key, nat>,
    dead: set<nat>,
    scheduled: set<Key>,
    leases: map<Key, nat>,
    workers: map<nat, Pc>,
    refused: set<Key>)

  const INITIAL := Sys(0, Db(map[], map[]), {}, [], map[], 0, map[], {}, {}, map[], map[], {})

  function PcOf(s: Sys, w: nat): Pc { if w in s.workers then s.workers[w] else Idle }

  function Moved(s: Sys, w: nat, pc: Pc): Sys { s.(workers := s.workers[w := pc]) }

  function NextKey(k: Key): Key { Key(k.contact, k.number + 1) }

  // ---- transitions --------------------------------------------------------------------------

  /** What the dispatcher finds before it looks for an attempt row: the contact may not be called any
      more (suppressed, closed, purged, campaign over); not now (paused, window closed, stream full);
      or nothing against it. */
  datatype Check = Ineligible | Postponed | Go

  datatype Step =
    | Tick(elapsed: nat)
    | NewContact(c: nat)
    | Operator(c: nat, status: ContactStatus)
    | Queue(k: Key)
    | Dispatch(k: Key, check: Check, more: bool)
    | RebuildEntry(k: Key)
    | DropEntry(k: Key)
    | GuardExpires(k: Key)
    | LeaseExpires(k: Key)
    | RedisWipe
    | DeadLetter(m: nat, recorded: bool)
    | Webhook(k: Key, run: Option<nat>, connected: bool, status: ContactStatus, d: Decision)
    | Sweep(k: Key, cutoff: int)
    | Take(w: nat, m: nat)
    | GiveUp(w: nat)
    | Settle(w: nat, paused: bool, due: bool)
    | DropGuard(w: nat)
    | Ack(w: nat)
    | Admit(w: nat)
    | LookAt(w: nat, view: View)
    | Resolve(w: nat, lookup: Lookup, d: Decision)
    | Claim(w: nat)
    | Trigger(w: nat, answer: Answer)
    | Record(w: nat, lookup: Lookup, d: Decision)
    | Leave(w: nat)
    | Crash(w: nat)

  predicate EnvStep(step: Step)
  {
    step.Tick? || step.NewContact? || step.Operator? || step.Queue? || step.Dispatch? || step.RebuildEntry?
    || step.DropEntry? || step.GuardExpires? || step.LeaseExpires? || step.RedisWipe? || step.DeadLetter?
    || step.Webhook? || step.Sweep?
  }

  predicate NotWaiting(st: ContactStatus) { !st.Pending? && !st.RetryScheduled? }

  /** A status a decision may leave behind: one that does not wait for a dial, or no change. */
  predicate MovesOn(db: Db, k: Key, st: ContactStatus)
  {
    NotWaiting(st) || (k.contact in db.contacts && st == db.contacts[k.contact].status)
  }

  predicate DecisionOk(d: Decision) { d.Terminate? ==> NotWaiting(d.status) }

  /** The contact's latest attempt. */
  predicate Latest(db: Db, k: Key)
  {
    k in db.attempts && forall j :: j in db.attempts && j.contact == k.contact ==> j.number <= k.number
  }

  /** A retry the rebuild reads from PostgreSQL: a due time, and the number the columns hold or, if they hold
      none, the one after the latest attempt. */
  predicate Waiting(db: Db, k: Key)
  {
    && k.contact in db.contacts && db.contacts[k.contact].status.RetryScheduled? && db.contacts[k.contact].due
    && match db.contacts[k.contact].retry
       case Some(number) => number == k.number
       case None => k.number > 1 && Latest(db, Key(k.contact, k.number - 1))
  }

  /** The listing for the attempt before a retry shows a run only if there may be one. */
  predicate Honest(s: Sys, k: Key, v: View)
  {
    k.number > 1 && v.lookup.Found? && v.lookup.runs != [] ==> MayHaveRun(s.log, Key(k.contact, k.number - 1))
  }

  /** The provider has a run for the job only if a request for it was not definitely rejected. */
  predicate MayHaveRun(log: seq<Request>, k: Key)
  {
    exists i :: 0 <= i < |log| && log[i].key == k && Live(log[i].answer)
  }

  predicate EnvEnabled(s: Sys, step: Step)
  {
    match step
    case NewContact(c) => c !in s.db.contacts
    case Operator(c, status) => c in s.db.contacts && NotWaiting(status)
    case Queue(k) => k in s.owed && k !in s.guards && Rebuildable(s.db, k)
    case Dispatch(k, _, _) => k in s.scheduled
    case RebuildEntry(k) => Waiting(s.db, k)
    // No dial outlives its lease.
    case LeaseExpires(k) => k in s.leases && !(Dialling(PcOf(s, s.leases[k])) && PcOf(s, s.leases[k]).k == k)
    case RedisWipe => forall w :: w in s.workers ==> !Dialling(s.workers[w])
    case DeadLetter(m, _) => m in s.stream
    case Webhook(k, _, _, status, d) =>
      && k in s.db.attempts && k in s.owed && k.contact in s.db.contacts
      && MayHaveRun(s.log, k) && WebhookAccepts(s.db.attempts[k])
      && MovesOn(s.db, k, status) && DecisionOk(d)
    // One batch may hold two overdue attempts of one contact: the second finds it parked already.
    case Sweep(k, cutoff) => Overdue(s.db, k, cutoff)
    case _ => true
  }

  predicate WorkerEnabled(s: Sys, step: Step)
  {
    match step
    case Take(w, m) => PcOf(s, w).Idle? && m in s.stream
    case GiveUp(w) => PcOf(s, w).Got?
    case Settle(w, _, _) => PcOf(s, w).Got?
    case DropGuard(w) => PcOf(s, w).Rebuild?
    case Ack(w) => PcOf(s, w).Unguarded? || PcOf(s, w).AckOnly?
    case Admit(w) => PcOf(s, w).Got? && PcOf(s, w).k !in s.leases
    case LookAt(w, v) => PcOf(s, w).Admitted? && Honest(s, PcOf(s, w).k, v)
    case Resolve(w, _, d) =>
      PcOf(s, w).Resolving? && DecisionOk(d)
      && PcOf(s, w).k in s.db.attempts && PcOf(s, w).k.contact in s.db.contacts
    case Claim(w) =>
      PcOf(s, w).Cleared? && PcOf(s, w).k.contact in s.db.contacts
      && (PcOf(s, w).held ==> PcOf(s, w).k in s.db.attempts)
    case Trigger(w, _) => PcOf(s, w).Claimed?
    case Record(w, _, d) =>
      PcOf(s, w).Triggered? && DecisionOk(d)
      && PcOf(s, w).k in s.db.attempts && PcOf(s, w).k.contact in s.db.contacts
    case Leave(w) => PcOf(s, w).Leaving?
    case _ => true
  }

  predicate Enabled(s: Sys, step: Step) { EnvEnabled(s, step) && WorkerEnabled(s, step) }

  /** A new contact is owed its first attempt. */
  function AfterNewContact(s: Sys, c: nat): Sys
  {
    s.(db := s.db.(contacts := s.db.contacts[c := Contact(Pending, 0, false, None)]), owed := s.owed + {Key(c, 1)})
  }

  function AfterQueue(s: Sys, k: Key): Sys
  {
    s.(stream := s.stream[s.nextMid := k], guards := s.guards[k := s.nextMid], nextMid := s.nextMid + 1)
  }

  function AfterWipe(s: Sys): Sys
  {
    s.(stream := map[], guards := map[], dead := {}, scheduled := {}, leases := map[])
  }

  /** The jobs of a contact that have no attempt row yet. */
  function OpenJobs(s: Sys, c: nat): set<Key>
  {
    set j | j in s.owed && j.contact == c && j !in s.db.attempts
  }

  /** The dispatch of a retry clears the columns: it is not to run, its contact does not wait, or it is to
      run now and has a row already. The number the columns hold is not looked at. */
  predicate ClearsColumns(db: Db, k: Key, check: Check)
    requires k.contact in db.contacts
  {
    check.Ineligible? || !db.contacts[k.contact].status.RetryScheduled? || (check.Go? && k in db.attempts)
  }

  /** What the dispatcher leaves of the contact. Where it does not clear the columns it writes the due time
      only, be the number missing or that of another retry. */
  function DispatchDb(db: Db, k: Key, check: Check): Db
  {
    if k.number == 1 || k.contact !in db.contacts then db
    else
      var c := db.contacts[k.contact];
      db.(contacts := db.contacts[k.contact :=
        if ClearsColumns(db, k, check) then c.(due := false, retry := None) else c.(due := true)])
  }

  predicate Enqueues(s: Sys, k: Key, check: Check)
  {
    check.Go? && k !in s.guards && k.contact in s.db.contacts
    && if k.number == 1 then Rebuildable(s.db, k)
       else s.db.contacts[k.contact].status.RetryScheduled? && k !in s.db.attempts
  }

  /** The dispatcher takes a due entry. `more`: another entry for the same job stays (an entry the dialer
      rescheduled has its own member). */
  function AfterDispatch(s: Sys, k: Key, check: Check, more: bool): Sys
  {
    var t := s.(scheduled := if more || check.Postponed? then s.scheduled else s.scheduled - {k});
    var u := t.(db := DispatchDb(s.db, k, check),
                refused := if check.Ineligible? && k.number > 1 then s.refused + OpenJobs(s, k.contact) else s.refused);
    if Enqueues(s, k, check) then AfterQueue(u, k) else u
  }

  /** Poison: the message moves to the dead-letter stream; its contact is parked if that write works. */
  function AfterDeadLetter(s: Sys, m: nat, recorded: bool): Sys
    requires m in s.stream
  {
    var c := s.stream[m].contact;
    var t := s.(stream := s.stream - {m}, dead := s.dead + {m});
    if recorded && c in s.db.contacts && !NotWaiting(s.db.contacts[c].status)
    then t.(db := s.db.(contacts := s.db.contacts[c := s.db.contacts[c].(status := NeedsReview, due := false, retry := None)]))
    else t
  }

  /** `db` is committed; if it schedules the retry after `k`, that retry is owed and has its entry. */
  function Committed(s: Sys, db: Db, k: Key, scheduled: bool): Sys
  {
    if !scheduled then s.(db := db)
    else s.(db := db, owed := s.owed + {NextKey(k)}, scheduled := s.scheduled + {NextKey(k)})
  }

  /** A job read while its campaign is paused, or its window closed (with the next opening, if any). */
  function AfterSettle(s: Sys, w: nat, paused: bool, due: bool): Sys
    requires PcOf(s, w).Got?
  {
    var Got(m, k) := PcOf(s, w);
    var entered := s.(scheduled := s.scheduled + {k});
    if Rebuildable(s.db, k) && paused then Moved(s, w, Rebuild(m, k))
    else if Rebuildable(s.db, k) && due then Moved(entered, w, Rebuild(m, k))
    else if k in s.db.attempts && s.db.attempts[k].callId.Some? then Moved(s, w, AckOnly(m, k))
    else if !paused && k.number > 1 && due then Moved(entered, w, AckOnly(m, k))
    else Moved(s, w, Idle)
  }

  function AfterLook(s: Sys, w: nat, m: nat, k: Key, r: LookResult): Sys
    requires r.Expired? || r.Reopen? ==> k.contact in s.db.contacts
    requires r.Reopen? ==> k.number > 1 && Key(k.contact, k.number - 1) in s.db.attempts && r.runs != []
  {
    match r
    case Stop(fate) => Moved(s, w, Leaving(m, k, fate))
    case Refused => Moved(s, w, Leaving(m, k, Acknowledge)).(refused := s.refused + {k})
    case ResolveClaim => Moved(s, w, Resolving(m, k))
    case Clear(held, status, count) => Moved(s, w, Cleared(m, k, held, status, count))
    case _ => Moved(s, w, Leaving(m, k, Acknowledge)).(db := LookDb(s.db, k, r))
  }

  lemma LookFits(s: Sys, k: Key, v: View)
    ensures var r := Look(s.db, k, s.clock, v);
      && (r.Expired? || r.Reopen? ==> k.contact in s.db.contacts)
      && (r.Reopen? ==> k.number > 1 && Key(k.contact, k.number - 1) in s.db.attempts && r.runs != [])
  {
  }

  function AfterResolve(s: Sys, w: nat, m: nat, k: Key, lookup: Lookup, d: Decision): Sys
    requires k in s.db.attempts && k.contact in s.db.contacts
  {
    Committed(Moved(s, w, Leaving(m, k, Acknowledge)), AfterLookup(s.db, k, lookup, d), k, NoRun(lookup) && d.Schedule?)
  }

  /** The durable claim. Losing the insert race acknowledges. */
  function AfterClaim(s: Sys, w: nat, pc: Pc): Sys
    requires pc.Cleared? && pc.k.contact in s.db.contacts && (pc.held ==> pc.k in s.db.attempts)
  {
    var db := ClaimDb(s.db, pc.k, pc.held, pc.count, s.clock);
    if db.None? then Moved(s, w, Leaving(pc.m, pc.k, Acknowledge))
    else Moved(s, w, Claimed(pc.m, pc.k, pc.status, pc.count)).(db := db.value)
  }

  function AfterTrigger(s: Sys, w: nat, pc: Pc, a: Answer): Sys
    requires pc.Claimed?
  {
    Moved(s, w, Triggered(pc.m, pc.k, pc.status, pc.count, a))
      .(log := if a.NotSent? then s.log else s.log + [Request(pc.k, a)])
  }

  function AfterRecord(s: Sys, w: nat, pc: Pc, lookup: Lookup, d: Decision): Sys
    requires pc.Triggered? && pc.k in s.db.attempts && pc.k.contact in s.db.contacts
  {
    Committed(Moved(s, w, Leaving(pc.m, pc.k, if Holds(pc.answer) then Keep else Acknowledge)),
              RecordDb(s.db, pc.k, pc.answer, pc.status, pc.count, lookup, d), pc.k,
              Fails(pc.answer, lookup) && d.Schedule?)
  }

  function AfterLeave(s: Sys, w: nat, pc: Pc): Sys
    requires pc.Leaving?
  {
    var next := match pc.fate case Acknowledge => AckOnly(pc.m, pc.k) case Keep => Idle case Settle => Got(pc.m, pc.k);
    Moved(s, w, next).(leases := s.leases - {pc.k})
  }

  function ApplyEnv(s: Sys, step: Step): Sys
    requires EnvEnabled(s, step)
  {
    match step
    case Tick(elapsed) => s.(clock := s.clock + elapsed)
    case NewContact(c) => AfterNewContact(s, c)
    case Operator(c, status) => s.(db := s.db.(contacts := s.db.contacts[c := s.db.contacts[c].(status := status)]))
    case Queue(k) => AfterQueue(s, k)
    case Dispatch(k, check, more) => AfterDispatch(s, k, check, more)
    case RebuildEntry(k) => s.(owed := s.owed + {k}, scheduled := s.scheduled + {k})
    case DropEntry(k) => s.(scheduled := s.scheduled - {k})
    case GuardExpires(k) => s.(guards := s.guards - {k})
    case LeaseExpires(k) => s.(leases := s.leases - {k})
    case RedisWipe => AfterWipe(s)
    case DeadLetter(m, recorded) => AfterDeadLetter(s, m, recorded)
    case Webhook(k, run, connected, status, d) =>
      Committed(s, WebhookDb(s.db, k, run, connected, status, d), k, d.Schedule?)
    case Sweep(k, _) => s.(db := SweepDb(s.db, k))
    case _ => s
  }

  function ApplyWorker(s: Sys, step: Step): Sys
    requires WorkerEnabled(s, step)
  {
    match step
    case Take(w, m) => Moved(s, w, Got(m, s.stream[m]))
    case GiveUp(w) => Moved(s, w, Idle)
    case Settle(w, paused, due) => AfterSettle(s, w, paused, due)
    case DropGuard(w) =>
      Moved(s, w, Unguarded(PcOf(s, w).m, PcOf(s, w).k)).(guards := s.guards - {PcOf(s, w).k})
    case Ack(w) => Moved(s, w, Idle).(stream := s.stream - {PcOf(s, w).m})
    case Admit(w) =>
      Moved(s, w, Admitted(PcOf(s, w).m, PcOf(s, w).k)).(leases := s.leases[PcOf(s, w).k := w])
    case LookAt(w, v) =>
      LookFits(s, PcOf(s, w).k, v);
      AfterLook(s, w, PcOf(s, w).m, PcOf(s, w).k, Look(s.db, PcOf(s, w).k, s.clock, v))
    case Resolve(w, lookup, d) => AfterResolve(s, w, PcOf(s, w).m, PcOf(s, w).k, lookup, d)
    case Claim(w) => AfterClaim(s, w, PcOf(s, w))
    case Trigger(w, a) => AfterTrigger(s, w, PcOf(s, w), a)
    case Record(w, lookup, d) => AfterRecord(s, w, PcOf(s, w), lookup, d)
    case Leave(w) => AfterLeave(s, w, PcOf(s, w))
    case Crash(w) => Moved(s, w, Idle)
    case _ => s
  }

  function Apply(s: Sys, step: Step): Sys
    requires Enabled(s, step)
  {
    if EnvStep(step) then ApplyEnv(s, step) else ApplyWorker(s, step)
  }

  ghost predicate Next(s: Sys, t: Sys)
  {
    exists step :: Enabled(s, step) && t == Apply(s, step)
  }

  /** The states a list of steps goes through. */
  ghost predicate Follows(trace: seq<Sys>, steps: seq<Step>)
  {
    |trace| == |steps| + 1
    && forall i :: 0 <= i < |steps| ==> Enabled(trace[i], steps[i]) && trace[i + 1] == Apply(trace[i], steps[i])
  }

  lemma FollowsIsRun(trace: seq<Sys>, steps: seq<Step>)
    requires Follows(trace, steps)
    ensures Run(trace)
  {
    hide Enabled, Apply;
    forall i | 0 <= i < |trace| - 1 ensures Next(trace[i], trace[i + 1]) {
      assert Enabled(trace[i], steps[i]);
    }
  }

  /** A run: states connected by steps. */
  ghost predicate Run(trace: seq<Sys>)
  {
    |trace| > 0 && forall i :: 0 <= i < |trace| - 1 ==> Next(trace[i], trace[i + 1])
  }

  // ---- safety invariant ---------------------------------------------------------------------

  ghost predicate AllRejected(log: seq<Request>, k: Key)
  {
    forall i :: 0 <= i < |log| && log[i].key == k ==> !Live(log[i].answer)
  }

  /** For every job, a request that may have produced a call is the last one. */
  ghost predicate AtMostOneLive(log: seq<Request>)
  {
    forall i, j :: 0 <= i < j < |log| && log[i].key == log[j].key ==> !Live(log[i].answer)
  }

  /** A retry is owed only once every earlier attempt has its row, and the first one stands. */
  ghost predicate Ordered(db: Db, owed: set<Key>)
  {
    && (forall k :: k in db.attempts ==> k in owed)
    && (forall k :: k in owed ==> k.number >= 1 && k.contact in db.contacts)
    && (forall k: Key, j: Key :: k in owed && j.contact == k.contact && 1 <= j.number < k.number ==> j in db.attempts)
    && (forall k :: k in owed && k.number > 1 ==> Settled(db, Key(k.contact, 1)))
  }

  /** A contact waits for a retry only once one is owed, and the number in its columns is of one. */
  ghost predicate ColumnsOk(db: Db, owed: set<Key>)
  {
    forall c :: c in db.contacts ==>
      && (db.contacts[c].status.RetryScheduled? ==> Key(c, 2) in owed)
      && (db.contacts[c].retry.Some? ==> db.contacts[c].due && Key(c, db.contacts[c].retry.value) in owed)
  }

  ghost predicate LogOk(db: Db, log: seq<Request>)
  {
    && AtMostOneLive(log) && (forall k :: !Settled(db, k) ==> AllRejected(log, k))
    && (forall i :: 0 <= i < |log| ==> !log[i].answer.NotSent?)
  }

  /** What the owner of a claim knows until its trigger is answered, or was definitely rejected. */
  ghost predicate Untaken(db: Db, owed: set<Key>, log: seq<Request>, k: Key)
  {
    && Settled(db, k) && db.attempts[k].callId.None? && AllRejected(log, k)
    && (k.number == 1 ==> forall j :: j in owed && j.contact == k.contact ==> j.number <= 1)
  }

  /** The worker may still take the row of its job back. */
  predicate Risky(pc: Pc) { pc.Claimed? || (pc.Triggered? && !Live(pc.answer)) }

  /** The attempt stands for good: its row stands and nobody will take it back. */
  ghost predicate Stands(s: Sys, k: Key)
  {
    Settled(s.db, k) && forall w :: w in s.workers && Risky(s.workers[w]) ==> s.workers[w].k != k
  }

  ghost predicate PcOk(s: Sys, w: nat, pc: Pc)
  {
    && (!pc.Idle? ==> pc.k in s.owed && pc.m < s.nextMid)
    && (Dialling(pc) ==> pc.k in s.leases && s.leases[pc.k] == w)
    && (pc.Resolving? ==> Settled(s.db, pc.k))
    && (pc.Cleared? ==> if pc.held then pc.k in s.db.attempts && Held(s.db.attempts[pc.k]) else pc.k !in s.db.attempts)
    && (pc.Claimed? ==> Untaken(s.db, s.owed, s.log, pc.k))
    && (pc.Triggered? ==> Settled(s.db, pc.k))
    && (pc.Triggered? && !Live(pc.answer) ==> Untaken(s.db, s.owed, s.log, pc.k))
    && ((pc.Cleared? || pc.Claimed? || pc.Triggered?) && pc.status.RetryScheduled? ==> Key(pc.k.contact, 2) in s.owed)
  }

  ghost predicate WorkersOk(s: Sys)
  {
    forall w :: w in s.workers ==> PcOk(s, w, s.workers[w])
  }

  ghost predicate StreamOk(s: Sys)
  {
    && (forall m :: m in s.stream ==> s.stream[m] in s.owed && m < s.nextMid)
    && (forall k :: k in s.guards ==> k in s.owed && s.guards[k] < s.nextMid)
    && s.scheduled <= s.owed
  }

  ghost predicate Inv(s: Sys)
  {
    Ordered(s.db, s.owed) && ColumnsOk(s.db, s.owed) && LogOk(s.db, s.log) && WorkersOk(s) && StreamOk(s)
  }

  // ---- preservation: frames -----------------------------------------------------------------

  /** What a step on job `k` leaves to the workers of every other job. */
  ghost predicate OthersKept(s: Sys, t: Sys, k: Key)
  {
    && s.owed <= t.owed && s.nextMid <= t.nextMid
    && (forall j :: j != k && Settled(s.db, j) ==> Settled(t.db, j))
    && (forall j :: j != k && j in s.db.attempts && Held(s.db.attempts[j]) ==>
          j in t.db.attempts && Held(t.db.attempts[j]))
    && (forall j :: j != k && j !in s.db.attempts ==> j !in t.db.attempts)
    && (forall j :: j != k && Untaken(s.db, s.owed, s.log, j) ==> Untaken(t.db, t.owed, t.log, j))
    && (forall j :: j != k && j in s.leases ==> j in t.leases && t.leases[j] == s.leases[j])
  }

  /** A worker's own step on the job it holds the lease of. */
  lemma WorkersKept(s: Sys, t: Sys, w: nat, k: Key)
    requires WorkersOk(s) && OthersKept(s, t, k)
    requires k in s.leases && s.leases[k] == w
    requires forall v :: v in t.workers && v != w ==> v in s.workers && t.workers[v] == s.workers[v]
    requires w in t.workers ==> PcOk(t, w, t.workers[w])
    ensures WorkersOk(t)
  {
    forall v | v in t.workers && v != w ensures PcOk(t, v, t.workers[v]) {
      var pc := s.workers[v];
      assert PcOk(s, v, pc);
      assert Dialling(pc) ==> pc.k != k;
    }
  }

  /** What a step of the environment leaves to every worker. */
  ghost predicate AllKept(s: Sys, t: Sys)
  {
    && t.workers == s.workers && s.owed <= t.owed && s.nextMid <= t.nextMid
    && (forall j :: Settled(s.db, j) ==> Settled(t.db, j))
    && t.db.attempts.Keys == s.db.attempts.Keys
    && (forall j :: j in s.db.attempts && Held(s.db.attempts[j]) ==> Held(t.db.attempts[j]))
    && (forall j :: Untaken(s.db, s.owed, s.log, j) ==> Untaken(t.db, t.owed, t.log, j))
  }

  lemma AllWorkersKept(s: Sys, t: Sys)
    requires WorkersOk(s) && AllKept(s, t)
    requires forall w :: w in s.workers && Dialling(s.workers[w]) ==>
      s.workers[w].k in t.leases && t.leases[s.workers[w].k] == w
    ensures WorkersOk(t)
  {
    forall w | w in t.workers ensures PcOk(t, w, t.workers[w]) {
      assert PcOk(s, w, s.workers[w]);
    }
  }

  lemma PcFacts(s: Sys, w: nat)
    requires WorkersOk(s)
    ensures PcOk(s, w, PcOf(s, w))
  {
  }

  lemma OwedFacts(s: Sys, w: nat)
    requires Inv(s) && !PcOf(s, w).Idle?
    ensures PcOf(s, w).k in s.owed && PcOf(s, w).k.number >= 1 && PcOf(s, w).m < s.nextMid
    ensures Dialling(PcOf(s, w)) ==> PcOf(s, w).k in s.leases && s.leases[PcOf(s, w).k] == w
    ensures PcOf(s, w).Resolving? || PcOf(s, w).Triggered? ==> Settled(s.db, PcOf(s, w).k)
    ensures PcOf(s, w).Cleared? ==>
      if PcOf(s, w).held then PcOf(s, w).k in s.db.attempts && Held(s.db.attempts[PcOf(s, w).k])
      else PcOf(s, w).k !in s.db.attempts
    ensures Risky(PcOf(s, w)) ==> Untaken(s.db, s.owed, s.log, PcOf(s, w).k)
    ensures PcOf(s, w).Triggered? && PcOf(s, w).status.RetryScheduled? ==> Key(PcOf(s, w).k.contact, 2) in s.owed
  {
    hide ColumnsOk, LogOk, StreamOk, Settled, Held, AllRejected;
    PcFacts(s, w);
  }

  lemma StreamKept(s: Sys, t: Sys)
    requires StreamOk(s) && s.owed <= t.owed && s.nextMid <= t.nextMid
    requires t.stream == s.stream && t.guards == s.guards && t.scheduled <= s.scheduled + t.owed
    ensures StreamOk(t)
  {
  }

  // ---- preservation: retry columns ----------------------------------------------------------

  lemma ClaimKeepsColumns(db: Db, owed: set<Key>, k: Key, held: bool, count: int, now: int)
    requires ColumnsOk(db, owed) && k.contact in db.contacts && (held ==> k in db.attempts)
    ensures var u := ClaimDb(db, k, held, count, now); u.Some? ==> ColumnsOk(u.value, owed)
  {
  }

  lemma LookKeepsColumns(db: Db, owed: set<Key>, k: Key, r: LookResult)
    requires ColumnsOk(db, owed)
    requires r.Expired? || r.Reopen? ==> k.contact in db.contacts
    requires r.Reopen? ==> k.number > 1 && Key(k.contact, k.number - 1) in db.attempts && r.runs != []
    ensures ColumnsOk(LookDb(db, k, r), owed)
  {
  }

  /** Once the next attempt is owed, the contact is owed a second one. */
  lemma SecondIsOwed(db: Db, owed: set<Key>, k: Key)
    requires Ordered(db, owed) && k in owed
    ensures Key(k.contact, 2) in owed + {NextKey(k)}
  {
    assert k == Key(k.contact, k.number);
    assert k.number > 2 ==> Key(k.contact, 2) in db.attempts;
  }

  lemma RecoveredKeepsColumns(db: Db, owed: set<Key>, k: Key, u: Db, c: Contact, d: Decision)
    requires Ordered(db, owed) && ColumnsOk(db, owed) && k in owed && k.contact in db.contacts && DecisionOk(d)
    requires u.contacts == db.contacts[k.contact := Recovered(c, k.number, d)]
    requires c.due == db.contacts[k.contact].due && c.retry == db.contacts[k.contact].retry
    requires NotWaiting(c.status) || c.status == db.contacts[k.contact].status
    ensures ColumnsOk(u, owed + (if d.Schedule? then {NextKey(k)} else {}))
  {
    SecondIsOwed(db, owed, k);
  }

  lemma SameContactsKeepColumns(db: Db, owed: set<Key>, u: Db)
    requires ColumnsOk(db, owed) && u.contacts == db.contacts
    ensures ColumnsOk(u, owed)
  {
  }

  lemma LookupKeepsColumns(db: Db, owed: set<Key>, k: Key, lookup: Lookup, d: Decision)
    requires Ordered(db, owed) && ColumnsOk(db, owed) && k in owed && DecisionOk(d)
    requires k in db.attempts && k.contact in db.contacts
    ensures ColumnsOk(AfterLookup(db, k, lookup, d), owed + (if NoRun(lookup) && d.Schedule? then {NextKey(k)} else {}))
  {
    if NoRun(lookup) {
      RecoveredKeepsColumns(db, owed, k, AfterLookup(db, k, lookup, d), db.contacts[k.contact], d);
    } else {
      SameContactsKeepColumns(db, owed, AfterLookup(db, k, lookup, d));
      assert owed + {} == owed;
    }
  }

  lemma RecordKeepsColumns(
    db: Db, owed: set<Key>, k: Key, a: Answer, status: ContactStatus, count: int, lookup: Lookup, d: Decision)
    requires Ordered(db, owed) && ColumnsOk(db, owed) && k in owed && DecisionOk(d) && !Holds(a)
    requires k in db.attempts && k.contact in db.contacts
    ensures ColumnsOk(RecordDb(db, k, a, status, count, lookup, d),
                      owed + (if Fails(a, lookup) && d.Schedule? then {NextKey(k)} else {}))
  {
    assert owed + {} == owed;
    if a.Ambiguous? {
      LookupKeepsColumns(db, owed, k, lookup, d);
    } else if a.Accepted? {
      SameContactsKeepColumns(db, owed, RecordDb(db, k, a, status, count, lookup, d));
    } else {
      RecoveredKeepsColumns(db, owed, k, RecordDb(db, k, a, status, count, lookup, d), db.contacts[k.contact], d);
    }
  }

  lemma HoldKeepsColumns(
    db: Db, owed: set<Key>, k: Key, a: Answer, status: ContactStatus, count: int, lookup: Lookup, d: Decision)
    requires ColumnsOk(db, owed) && Holds(a) && k in db.attempts && k.contact in db.contacts
    requires status.RetryScheduled? ==> Key(k.contact, 2) in owed
    ensures ColumnsOk(RecordDb(db, k, a, status, count, lookup, d), owed)
  {
  }

  lemma WebhookKeepsColumns(
    db: Db, owed: set<Key>, k: Key, run: Option<nat>, connected: bool, status: ContactStatus, d: Decision)
    requires Ordered(db, owed) && ColumnsOk(db, owed) && k in owed && DecisionOk(d) && MovesOn(db, k, status)
    requires k in db.attempts && k.contact in db.contacts
    ensures ColumnsOk(WebhookDb(db, k, run, connected, status, d), owed + (if d.Schedule? then {NextKey(k)} else {}))
  {
    var u := WebhookDb(db, k, run, connected, status, d);
    RecoveredKeepsColumns(db, owed, k, u, db.contacts[k.contact].(status := status), d);
  }

  lemma SweepKeepsColumns(db: Db, owed: set<Key>, k: Key)
    requires ColumnsOk(db, owed) && k in db.attempts && k.contact in db.contacts
    ensures ColumnsOk(SweepDb(db, k), owed)
  {
  }

  lemma DispatchKeepsColumns(db: Db, owed: set<Key>, k: Key, check: Check)
    requires ColumnsOk(db, owed)
    ensures ColumnsOk(DispatchDb(db, k, check), owed)
  {
  }

  /** What the rebuild reads fits the jobs there are. */
  lemma RebuildFits(s: Sys, k: Key)
    requires Ordered(s.db, s.owed) && ColumnsOk(s.db, s.owed) && Waiting(s.db, k)
    ensures k.contact in s.db.contacts && (k.number == 1 || FollowsLatest(s, k))
  {
    assert k == Key(k.contact, k.number);
  }

  lemma QuietKeepsColumns(s: Sys, step: Step)
    requires ColumnsOk(s.db, s.owed) && EnvEnabled(s, step) && !step.Webhook? && !step.Sweep?
    ensures ColumnsOk(ApplyEnv(s, step).db, ApplyEnv(s, step).owed)
  {
    hide Rebuildable, Waiting, Committed, WebhookDb, SweepDb, MayHaveRun;
    if step.Dispatch? {
      DispatchKeepsColumns(s.db, s.owed, step.k, step.check);
      hide DispatchDb, OpenJobs;
    }
  }

  // ---- preservation: steps ------------------------------------------------------------------

  /** The claim of a job whose row does not stand. */
  lemma ClaimKeepsRows(db: Db, owed: set<Key>, log: seq<Request>, k: Key, held: bool, count: int, now: int)
    requires Ordered(db, owed) && LogOk(db, log) && k in owed
    requires held ==> k in db.attempts && Held(db.attempts[k])
    requires ClaimDb(db, k, held, count, now).Some?
    ensures var u := ClaimDb(db, k, held, count, now).value;
      && Ordered(u, owed) && LogOk(u, log) && Untaken(u, owed, log, k) && !Settled(db, k)
      && (forall j :: j != k ==> (j in u.attempts <==> j in db.attempts))
      && (forall j :: j != k && j in db.attempts ==> u.attempts[j] == db.attempts[j])
  {
    var u := ClaimDb(db, k, held, count, now).value;
    assert !Settled(db, k);
    assert forall j :: j != k ==> Settled(db, j) == Settled(u, j);
  }

  /** Rows other than `k` are as they were, and no owed job appears. */
  lemma OwnRowOnly(s: Sys, t: Sys, k: Key)
    requires t.owed == s.owed && t.nextMid == s.nextMid && t.leases == s.leases
    requires forall j :: j != k && AllRejected(s.log, j) ==> AllRejected(t.log, j)
    requires forall j :: j != k ==> (j in t.db.attempts <==> j in s.db.attempts)
    requires forall j :: j != k && j in s.db.attempts ==> t.db.attempts[j] == s.db.attempts[j]
    ensures OthersKept(s, t, k)
  {
    hide AllRejected, Held;
  }

  lemma ClaimKeepsInv(s: Sys, w: nat)
    requires Inv(s) && WorkerEnabled(s, Claim(w))
    ensures Inv(AfterClaim(s, w, PcOf(s, w)))
  {
    hide Ordered, ColumnsOk, LogOk, Untaken, Settled, Held, OthersKept, WorkersOk, StreamOk, ClaimDb, AllRejected;
    var pc := PcOf(s, w);
    var k := pc.k;
    PcFacts(s, w);
    var t := AfterClaim(s, w, pc);
    if t.workers[w].Claimed? {
      ClaimKeepsRows(s.db, s.owed, s.log, k, pc.held, pc.count, s.clock);
    }
    ClaimKeepsColumns(s.db, s.owed, k, pc.held, pc.count, s.clock);
    OwnRowOnly(s, t, k);
    WorkersKept(s, t, w, k);
    StreamKept(s, t);
  }

  lemma TriggerKeepsLog(db: Db, owed: set<Key>, log: seq<Request>, k: Key, a: Answer)
    requires LogOk(db, log) && Untaken(db, owed, log, k) && !a.NotSent?
    ensures var u := log + [Request(k, a)];
      && LogOk(db, u) && (!Live(a) ==> Untaken(db, owed, u, k))
      && (forall j :: j != k && AllRejected(log, j) ==> AllRejected(u, j))
  {
    var u := log + [Request(k, a)];
    assert forall j :: j != k && AllRejected(log, j) ==> AllRejected(u, j);
  }

  lemma TriggerKeepsInv(s: Sys, w: nat, a: Answer)
    requires Inv(s) && PcOf(s, w).Claimed?
    ensures Inv(AfterTrigger(s, w, PcOf(s, w), a))
  {
    var pc := PcOf(s, w);
    var t := AfterTrigger(s, w, pc, a);
    PcFacts(s, w);
    if !a.NotSent? {
      TriggerKeepsLog(s.db, s.owed, s.log, pc.k, a);
    }
    assert Settled(s.db, pc.k);
    hide Ordered, ColumnsOk, LogOk, Untaken, Settled, Held, OthersKept, WorkersOk, StreamOk, AllRejected;
    OwnRowOnly(s, t, pc.k);
    WorkersKept(s, t, w, pc.k);
    StreamKept(s, t);
  }

  lemma SameStandingKeepsLog(db: Db, u: Db, log: seq<Request>)
    requires LogOk(db, log) && forall j :: Settled(db, j) == Settled(u, j)
    ensures LogOk(u, log)
  {
  }

  lemma SameStandingKeepsOrder(db: Db, u: Db, owed: set<Key>)
    requires Ordered(db, owed) && forall j :: Settled(db, j) == Settled(u, j)
    requires u.attempts.Keys == db.attempts.Keys && db.contacts.Keys <= u.contacts.Keys
    ensures Ordered(u, owed)
  {
    hide Settled;
  }

  lemma NextIsOrdered(db: Db, owed: set<Key>, k: Key)
    requires Ordered(db, owed) && k in owed && Settled(db, k)
    ensures Ordered(db, owed + {NextKey(k)})
  {
    hide Settled;
    assert k == Key(k.contact, k.number) && k in db.attempts by { SettledHasRow(db, k); }
    assert forall j: Key :: j.contact == k.contact && 1 <= j.number < k.number + 1 ==> j == k || j.number < k.number;
  }

  lemma SettledHasRow(db: Db, k: Key)
    requires Settled(db, k)
    ensures k in db.attempts
  {
  }

  /** A commit on job `k` that leaves its row standing. */
  lemma CommitKeepsRows(s: Sys, db: Db, k: Key, scheduled: bool)
    requires Ordered(s.db, s.owed) && LogOk(s.db, s.log) && k in s.owed
    requires db.contacts.Keys == s.db.contacts.Keys && db.attempts.Keys == s.db.attempts.Keys
    requires forall j :: j in db.attempts && j != k ==> db.attempts[j] == s.db.attempts[j]
    requires Settled(s.db, k) && Settled(db, k)
    ensures var t := Committed(s, db, k, scheduled); Ordered(t.db, t.owed) && LogOk(t.db, t.log)
  {
    hide LogOk, Ordered;
    assert forall j :: Settled(s.db, j) == Settled(db, j);
    SameStandingKeepsLog(s.db, db, s.log);
    SameStandingKeepsOrder(s.db, db, s.owed);
    NextIsOrdered(db, s.owed, k);
  }

  /** ... and what it leaves to the workers of other jobs: nobody owns a claim on the first attempt below `k`. */
  lemma CommitKeepsOthers(s: Sys, db: Db, k: Key, scheduled: bool, w: nat, pc: Pc)
    requires k in s.owed && k.number >= 1
    requires db.attempts.Keys == s.db.attempts.Keys
    requires forall j :: j in db.attempts && j != k ==> db.attempts[j] == s.db.attempts[j]
    ensures OthersKept(s, Committed(Moved(s, w, pc), db, k, scheduled), k)
  {
    hide Held, AllRejected;
    var t := Committed(Moved(s, w, pc), db, k, scheduled);
    forall j | j != k && Untaken(s.db, s.owed, s.log, j) ensures Untaken(t.db, t.owed, t.log, j) {
      assert k == Key(k.contact, k.number) && j == Key(j.contact, j.number);
      assert j.number == 1 && k.contact == j.contact ==> k.number <= 1;
    }
  }

  /** A commit by the worker that dials the job, with the job's row standing before and after. */
  lemma CommitKeepsInv(s: Sys, w: nat, db: Db, scheduled: bool)
    requires Inv(s) && Dialling(PcOf(s, w)) && Settled(s.db, PcOf(s, w).k) && Settled(db, PcOf(s, w).k)
    requires db.contacts.Keys == s.db.contacts.Keys && db.attempts.Keys == s.db.attempts.Keys
    requires forall j :: j in db.attempts && j != PcOf(s, w).k ==> db.attempts[j] == s.db.attempts[j]
    requires ColumnsOk(db, s.owed + (if scheduled then {NextKey(PcOf(s, w).k)} else {}))
    ensures Inv(Committed(Moved(s, w, Leaving(PcOf(s, w).m, PcOf(s, w).k, Acknowledge)), db, PcOf(s, w).k, scheduled))
  {
    hide Ordered, ColumnsOk, LogOk, Untaken, Settled, Held, OthersKept, WorkersOk, StreamOk, AllRejected;
    var pc := PcOf(s, w);
    var to := Leaving(pc.m, pc.k, Acknowledge);
    OwedFacts(s, w);
    assert s.owed + {} == s.owed;
    var t := Committed(Moved(s, w, to), db, pc.k, scheduled);
    CommitKeepsRows(Moved(s, w, to), db, pc.k, scheduled);
    CommitKeepsOthers(s, db, pc.k, scheduled, w, to);
    assert t.owed == s.owed + (if scheduled then {NextKey(pc.k)} else {}) && t.scheduled <= s.scheduled + t.owed;
    assert t.workers == s.workers[w := to] && t.leases == s.leases && t.nextMid == s.nextMid && t.db == db;
    assert t.stream == s.stream && t.guards == s.guards;
    hide Committed;
    WorkersKept(s, t, w, pc.k);
    StreamKept(s, t);
  }

  lemma ResolveKeepsInv(s: Sys, w: nat, lookup: Lookup, d: Decision)
    requires Inv(s) && WorkerEnabled(s, Resolve(w, lookup, d))
    ensures Inv(AfterResolve(s, w, PcOf(s, w).m, PcOf(s, w).k, lookup, d))
  {
    hide Settled, AfterLookup, ColumnsOk, Ordered, NoRun, LogOk, WorkersOk, StreamOk;
    var pc := PcOf(s, w);
    OwedFacts(s, w);
    ResolvedRowStands(s.db, pc.k, lookup, d);
    LookupKeepsColumns(s.db, s.owed, pc.k, lookup, d);
    CommitKeepsInv(s, w, AfterLookup(s.db, pc.k, lookup, d), NoRun(lookup) && d.Schedule?);
  }

  lemma ResolvedRowStands(db: Db, k: Key, lookup: Lookup, d: Decision)
    requires k in db.attempts && k.contact in db.contacts && Settled(db, k)
    ensures var u := AfterLookup(db, k, lookup, d);
      && Settled(u, k) && u.contacts.Keys == db.contacts.Keys && u.attempts.Keys == db.attempts.Keys
      && forall j :: j in u.attempts && j != k ==> u.attempts[j] == db.attempts[j]
  {
  }

  /** A hold takes the row back: nothing it may have triggered exists. */
  lemma HoldKeepsRows(db: Db, owed: set<Key>, log: seq<Request>, k: Key, u: Db)
    requires Ordered(db, owed) && LogOk(db, log) && Untaken(db, owed, log, k)
    requires u.contacts.Keys == db.contacts.Keys && u.attempts.Keys == db.attempts.Keys
    requires forall j :: j in u.attempts && j != k ==> u.attempts[j] == db.attempts[j]
    ensures Ordered(u, owed) && LogOk(u, log)
  {
    assert forall j :: j != k ==> Settled(db, j) == Settled(u, j);
    forall i | i in owed && i.number > 1 ensures Settled(u, Key(i.contact, 1)) {
      assert Key(i.contact, 1) == k ==> i.number <= 1;
    }
  }

  lemma HoldShape(db: Db, k: Key, a: Answer, status: ContactStatus, count: int, lookup: Lookup, d: Decision)
    requires k in db.attempts && k.contact in db.contacts && Holds(a)
    ensures var u := RecordDb(db, k, a, status, count, lookup, d);
      && u.attempts.Keys == db.attempts.Keys && u.contacts.Keys == db.contacts.Keys
      && (forall c :: c in db.contacts && c != k.contact ==> u.contacts[c] == db.contacts[c])
      && u.contacts[k.contact] == db.contacts[k.contact].(status := status, count := count)
      && (forall j :: j in u.attempts && j != k ==> u.attempts[j] == db.attempts[j])
  {
  }

  lemma HoldKeepsInv(s: Sys, w: nat, lookup: Lookup, d: Decision)
    requires Inv(s) && WorkerEnabled(s, Record(w, lookup, d)) && Holds(PcOf(s, w).answer)
    ensures Inv(AfterRecord(s, w, PcOf(s, w), lookup, d))
  {
    hide Ordered, ColumnsOk, LogOk, Untaken, Settled, Held, OthersKept, WorkersOk, StreamOk, AllRejected, RecordDb;
    var pc := PcOf(s, w);
    var t := AfterRecord(s, w, pc, lookup, d);
    OwedFacts(s, w);
    HoldShape(s.db, pc.k, pc.answer, pc.status, pc.count, lookup, d);
    HoldKeepsColumns(s.db, s.owed, pc.k, pc.answer, pc.status, pc.count, lookup, d);
    assert t == Committed(Moved(s, w, Leaving(pc.m, pc.k, Keep)), t.db, pc.k, false);
    assert t.db == RecordDb(s.db, pc.k, pc.answer, pc.status, pc.count, lookup, d);
    hide AfterRecord, Committed;
    HoldKeepsRows(s.db, s.owed, s.log, pc.k, t.db);
    CommitKeepsOthers(s, t.db, pc.k, false, w, Leaving(pc.m, pc.k, Keep));
    WorkersKept(s, t, w, pc.k);
    StreamKept(s, t);
  }

  lemma RecordedRowStands(db: Db, k: Key, a: Answer, status: ContactStatus, count: int, lookup: Lookup, d: Decision)
    requires k in db.attempts && k.contact in db.contacts && Settled(db, k) && !Holds(a)
    ensures var u := RecordDb(db, k, a, status, count, lookup, d);
      && Settled(u, k) && u.contacts.Keys == db.contacts.Keys && u.attempts.Keys == db.attempts.Keys
      && forall j :: j in u.attempts && j != k ==> u.attempts[j] == db.attempts[j]
  {
  }

  lemma RecordKeepsInv(s: Sys, w: nat, lookup: Lookup, d: Decision)
    requires Inv(s) && WorkerEnabled(s, Record(w, lookup, d))
    ensures Inv(AfterRecord(s, w, PcOf(s, w), lookup, d))
  {
    hide Inv, Holds, RecordDb, Committed, Fails;
    if Holds(PcOf(s, w).answer) {
      HoldKeepsInv(s, w, lookup, d);
    } else {
      OutcomeKeepsInv(s, w, lookup, d);
    }
  }

  lemma OutcomeKeepsInv(s: Sys, w: nat, lookup: Lookup, d: Decision)
    requires Inv(s) && PcOf(s, w).Triggered? && DecisionOk(d) && !Holds(PcOf(s, w).answer)
    requires PcOf(s, w).k in s.db.attempts && PcOf(s, w).k.contact in s.db.contacts
    ensures var pc := PcOf(s, w);
      Inv(Committed(Moved(s, w, Leaving(pc.m, pc.k, Acknowledge)),
                    RecordDb(s.db, pc.k, pc.answer, pc.status, pc.count, lookup, d), pc.k,
                    Fails(pc.answer, lookup) && d.Schedule?))
  {
    hide Settled, RecordDb, ColumnsOk, Ordered, Fails, Holds, LogOk, WorkersOk, StreamOk, Committed;
    var pc := PcOf(s, w);
    OwedFacts(s, w);
    RecordedRowStands(s.db, pc.k, pc.answer, pc.status, pc.count, lookup, d);
    RecordKeepsColumns(s.db, s.owed, pc.k, pc.answer, pc.status, pc.count, lookup, d);
    CommitKeepsInv(s, w, RecordDb(s.db, pc.k, pc.answer, pc.status, pc.count, lookup, d),
                   Fails(pc.answer, lookup) && d.Schedule?);
  }

  /** Adopting a run for the attempt before `k`: nobody can own a claim on an attempt that has a run. */
  lemma ReopenKeepsRows(s: Sys, k: Key, runs: seq<nat>)
    requires Ordered(s.db, s.owed) && LogOk(s.db, s.log) && k in s.owed && runs != []
    requires k.number > 1 && Key(k.contact, k.number - 1) in s.db.attempts
    requires MayHaveRun(s.log, Key(k.contact, k.number - 1))
    ensures k.contact in s.db.contacts
    ensures var u := LookDb(s.db, k, Reopen(runs));
      && Ordered(u, s.owed) && LogOk(u, s.log) && OthersKept(s, s.(db := u), k)
  {
    var u := LookDb(s.db, k, Reopen(runs));
    var p := Key(k.contact, k.number - 1);
    assert k.contact in s.db.contacts && p in s.owed;
    hide LookDb, MayHaveRun, AllRejected, LogOk, Ordered;
    HasRunFacts(s.db, s.owed, s.log, p);
    ReopenedRow(s.db, k, runs);
    assert forall j :: Settled(s.db, j) == Settled(u, j);
    SameStandingKeepsLog(s.db, u, s.log);
    SameStandingKeepsOrder(s.db, u, s.owed);
    StandingRowOnly(s, u, p, k);
  }

  /** Only the row of `p` changes, and it stands before and after, with a request nobody owns. */
  lemma StandingRowOnly(s: Sys, u: Db, p: Key, k: Key)
    requires p in s.db.attempts && p in u.attempts && u.attempts == s.db.attempts[p := u.attempts[p]]
    requires Settled(s.db, p) && Settled(u, p) && !AllRejected(s.log, p)
    ensures OthersKept(s, s.(db := u), k)
  {
    hide AllRejected;
  }

  lemma ReopenedRow(db: Db, k: Key, runs: seq<nat>)
    requires k.contact in db.contacts && k.number > 1 && Key(k.contact, k.number - 1) in db.attempts && runs != []
    ensures var p, u := Key(k.contact, k.number - 1), LookDb(db, k, Reopen(runs));
      && u.attempts == db.attempts[p := u.attempts[p]] && u.contacts.Keys == db.contacts.Keys && !Held(u.attempts[p])
  {
  }

  lemma LookKeepsInv(s: Sys, w: nat, v: View)
    requires Inv(s) && WorkerEnabled(s, LookAt(w, v))
    ensures Inv(ApplyWorker(s, LookAt(w, v)))
  {
    hide LookDb, Look, MayHaveRun, Ordered, ColumnsOk, LogOk, WorkersOk, StreamOk, Settled, Held;
    var pc := PcOf(s, w);
    LookFits(s, pc.k, v);
    LookFinds(s.db, pc.k, s.clock, v);
    LookRemembers(s.db, pc.k, s.clock, v);
    OwedFacts(s, w);
    LookedKeepsInv(s, w, pc.m, pc.k, Look(s.db, pc.k, s.clock, v));
  }

  lemma LookRemembers(db: Db, k: Key, now: int, v: View)
    ensures var r := Look(db, k, now, v);
      && (r.Clear? ==>
            && k.contact in db.contacts && r.status == db.contacts[k.contact].status
            && r.count == db.contacts[k.contact].count)
      && (r.Reopen? ==> v.lookup == Found(r.runs) && r.runs != [])
  {
  }

  lemma LookDbShape(db: Db, k: Key, r: LookResult)
    requires r.Expired? || r.Reopen? ==> k.contact in db.contacts
    requires r.Reopen? ==> k.number > 1 && Key(k.contact, k.number - 1) in db.attempts && r.runs != []
    ensures var u := LookDb(db, k, r);
      && u.contacts.Keys == db.contacts.Keys && (!r.Reopen? ==> u.attempts == db.attempts)
      && (!r.Reopen? && !r.Expired? ==> u == db)
  {
  }

  lemma WaitsForSecond(db: Db, owed: set<Key>, c: nat)
    requires ColumnsOk(db, owed)
    ensures c in db.contacts && db.contacts[c].status.RetryScheduled? ==> Key(c, 2) in owed
  {
  }

  lemma LookedKeepsInv(s: Sys, w: nat, m: nat, k: Key, r: LookResult)
    requires Inv(s) && k in s.leases && s.leases[k] == w && k in s.owed && m < s.nextMid
    requires r.Expired? || r.Reopen? ==> k.contact in s.db.contacts
    requires r.Reopen? ==> k.number > 1 && Key(k.contact, k.number - 1) in s.db.attempts && r.runs != []
    requires r.ResolveClaim? ==> Settled(s.db, k)
    requires r.Clear? ==> if r.held then k in s.db.attempts && Held(s.db.attempts[k]) else k !in s.db.attempts
    requires r.Clear? ==> k.contact in s.db.contacts && r.status == s.db.contacts[k.contact].status
    requires r.Reopen? ==> MayHaveRun(s.log, Key(k.contact, k.number - 1))
    ensures Inv(AfterLook(s, w, m, k, r))
  {
    hide MayHaveRun, ColumnsOk, Ordered, LogOk, Untaken, Settled, Held, WorkersOk, StreamOk, AllRejected, LookDb, OthersKept;
    LookDbShape(s.db, k, r);
    LookKeepsColumns(s.db, s.owed, k, r);
    assert r.Clear? && r.status.RetryScheduled? ==> Key(k.contact, 2) in s.owed by {
      WaitsForSecond(s.db, s.owed, k.contact);
    }
    var t := AfterLook(s, w, m, k, r);
    if r.Reopen? {
      ReopenKeepsRows(s, k, r.runs);
      OthersKeptMove(s, s.(db := t.db), t, k);
    } else {
      OwnRowOnly(s, t, k);
      SameRows(s.db, t.db, s.owed, s.log);
    }
    WorkersKept(s, t, w, k);
    StreamKept(s, t);
  }

  lemma OthersKeptMove(s: Sys, u: Sys, t: Sys, k: Key)
    requires OthersKept(s, u, k)
    requires t.db == u.db && t.owed == u.owed && t.log == u.log && t.leases == u.leases && t.nextMid == u.nextMid
    ensures OthersKept(s, t, k)
  {
    hide Untaken, Settled, Held;
  }

  lemma LookFinds(db: Db, k: Key, now: int, v: View)
    ensures var r := Look(db, k, now, v);
      && (r.ResolveClaim? ==> Settled(db, k))
      && (r.Clear? ==> if r.held then k in db.attempts && Held(db.attempts[k]) else k !in db.attempts)
      && (r.Expired? && k.contact in db.contacts ==> LookDb(db, k, r).attempts == db.attempts)
  {
  }

  lemma SameRows(db: Db, u: Db, owed: set<Key>, log: seq<Request>)
    requires Ordered(db, owed) && LogOk(db, log)
    requires u.attempts == db.attempts && u.contacts.Keys == db.contacts.Keys
    ensures Ordered(u, owed) && LogOk(u, log)
  {
    assert forall j :: Settled(db, j) == Settled(u, j);
  }

  lemma OthersAndOwner(s: Sys, t: Sys, k: Key)
    requires OthersKept(s, t.(workers := s.workers[0 := Idle]), k) && t.workers == s.workers
    requires Settled(s.db, k) && Settled(t.db, k) && !AllRejected(s.log, k)
    requires t.db.attempts.Keys == s.db.attempts.Keys
    ensures AllKept(s, t)
  {
  }

  lemma HasRunFacts(db: Db, owed: set<Key>, log: seq<Request>, k: Key)
    requires Ordered(db, owed) && LogOk(db, log) && k in owed && MayHaveRun(log, k)
    ensures k.number >= 1 && !AllRejected(log, k) && Settled(db, k)
  {
  }

  lemma WebhookShape(db: Db, k: Key, run: Option<nat>, connected: bool, status: ContactStatus, d: Decision)
    requires k in db.attempts && k.contact in db.contacts && Settled(db, k)
    ensures var u := WebhookDb(db, k, run, connected, status, d);
      && Settled(u, k) && u.contacts.Keys == db.contacts.Keys && u.attempts.Keys == db.attempts.Keys
      && (forall j :: j in u.attempts && j != k ==> u.attempts[j] == db.attempts[j])
      && (forall c :: c in db.contacts && c != k.contact ==> u.contacts[c] == db.contacts[c])
  {
  }

  lemma WebhookKeepsInv(
    s: Sys, k: Key, run: Option<nat>, connected: bool, status: ContactStatus, d: Decision)
    requires Inv(s) && EnvEnabled(s, Webhook(k, run, connected, status, d))
    ensures Inv(ApplyEnv(s, Webhook(k, run, connected, status, d)))
  {
    hide ColumnsOk, Untaken, WorkersOk, StreamOk, LogOk, AllRejected, Ordered, Held, MayHaveRun, Settled, WebhookDb;
    var db := WebhookDb(s.db, k, run, connected, status, d);
    var t := Committed(s, db, k, d.Schedule?);
    HasRunFacts(s.db, s.owed, s.log, k);
    WebhookShape(s.db, k, run, connected, status, d);
    WebhookKeepsColumns(s.db, s.owed, k, run, connected, status, d);
    assert db.contacts.Keys == s.db.contacts.Keys && db.attempts.Keys == s.db.attempts.Keys;
    assert ApplyEnv(s, Webhook(k, run, connected, status, d)) == t;
    assert t.owed == s.owed + (if d.Schedule? then {NextKey(k)} else {}) && t.scheduled <= s.scheduled + t.owed;
    assert t == s.(db := db, owed := t.owed, scheduled := t.scheduled);
    hide EnvEnabled, ApplyEnv, Committed;
    CommitKeepsRows(s, db, k, d.Schedule?);
    CommitKeepsOthers(s, db, k, d.Schedule?, 0, Idle);
    OthersAndOwner(s, t, k);
    AllWorkersKept(s, t) by { hide AllKept; LeasesHeld(s); }
    StreamKept(s, t);
  }

  lemma LeasesHeld(s: Sys)
    requires WorkersOk(s)
    ensures forall w :: w in s.workers && Dialling(s.workers[w]) ==>
      s.workers[w].k in s.leases && s.leases[s.workers[w].k] == w
  {
    forall w | w in s.workers && Dialling(s.workers[w])
      ensures s.workers[w].k in s.leases && s.leases[s.workers[w].k] == w
    {
      assert PcOk(s, w, s.workers[w]);
    }
  }

  lemma SweepKeepsInv(s: Sys, k: Key, cutoff: int)
    requires Inv(s) && Overdue(s.db, k, cutoff)
    ensures Inv(s.(db := SweepDb(s.db, k)))
  {
    hide ColumnsOk, LogOk, WorkersOk, StreamOk;
    var t := s.(db := SweepDb(s.db, k));
    assert Settled(s.db, k);
    assert s.db.attempts[k].callId.None? ==> t.db.attempts[k].callId.None?;
    assert forall j :: Settled(s.db, j) == Settled(t.db, j);
    SweepKeepsColumns(s.db, s.owed, k);
    hide Ordered, Settled, Held;
    SweptKeepsInv(s, t);
  }

  lemma SweptKeepsInv(s: Sys, t: Sys)
    requires Inv(s) && t == s.(db := t.db) && ColumnsOk(t.db, t.owed)
    requires t.db.attempts.Keys == s.db.attempts.Keys && t.db.contacts.Keys == s.db.contacts.Keys
    requires forall j :: Settled(s.db, j) == Settled(t.db, j)
    requires forall j :: j in s.db.attempts && Held(s.db.attempts[j]) ==> Held(t.db.attempts[j])
    requires forall j :: j in s.db.attempts && s.db.attempts[j].callId.None? ==> t.db.attempts[j].callId.None?
    ensures Inv(t)
  {
    hide ColumnsOk, WorkersOk, Held, AllRejected, StreamOk;
    LeasesHeld(s);
    assert StreamOk(t) by { StreamKept(s, t); }
    assert LogOk(t.db, t.log) && Ordered(t.db, t.owed);
    hide LogOk, Ordered, Settled;
    assert AllKept(s, t);
    AllWorkersKept(s, t);
  }

  /** Steps that write no attempt row and no request. */
  lemma QuietStepKeepsRows(s: Sys, t: Sys, added: set<Key>)
    requires Ordered(s.db, s.owed) && LogOk(s.db, s.log)
    requires t.db.attempts == s.db.attempts && t.log == s.log
    requires s.db.contacts.Keys <= t.db.contacts.Keys && t.owed == s.owed + added
    requires forall k :: k in added ==> k.contact in t.db.contacts && (k.number == 1 || FollowsLatest(s, k))
    ensures Ordered(t.db, t.owed) && LogOk(t.db, t.log)
    ensures forall j :: Settled(s.db, j) == Settled(t.db, j)
    ensures forall j :: Untaken(s.db, s.owed, s.log, j) ==> Untaken(t.db, t.owed, t.log, j)
  {
    assert forall j :: Settled(s.db, j) == Settled(t.db, j);
    forall k | k in added && k.number > 1
      ensures Settled(s.db, Key(k.contact, 1))
      ensures forall j: Key :: j.contact == k.contact && 1 <= j.number < k.number ==> j in s.db.attempts {
      FollowsLatestFits(s.db, s.owed, s, k);
    }
    forall j | Untaken(s.db, s.owed, s.log, j) ensures Untaken(t.db, t.owed, t.log, j) {
      assert j in s.owed;
      assert j.number == 1 ==> Key(j.contact, 2) !in s.owed;
    }
  }

  /** A job the rebuild may take on: its contact is owed a second attempt, and the attempt before it has its
      row. */
  ghost predicate FollowsLatest(s: Sys, k: Key)
  {
    Key(k.contact, 2) in s.owed && k.number > 1 && (k in s.owed || Key(k.contact, k.number - 1) in s.db.attempts)
  }

  lemma FollowsLatestFits(db: Db, owed: set<Key>, s: Sys, k: Key)
    requires Ordered(db, owed) && db == s.db && owed == s.owed && FollowsLatest(s, k)
    ensures Settled(db, Key(k.contact, 1))
    ensures forall j: Key :: j.contact == k.contact && 1 <= j.number < k.number ==> j in db.attempts
  {
    var p := Key(k.contact, k.number - 1);
    forall j: Key | j.contact == k.contact && 1 <= j.number < k.number ensures j in db.attempts {
      if j.number == p.number {
        assert j == p;
      }
    }
  }

  lemma QuietStepKeepsWorkers(s: Sys, t: Sys)
    requires WorkersOk(s) && t.workers == s.workers && s.owed <= t.owed && s.nextMid <= t.nextMid
    requires t.db.attempts == s.db.attempts
    requires forall j :: Untaken(s.db, s.owed, s.log, j) ==> Untaken(t.db, t.owed, t.log, j)
    requires forall w :: w in s.workers && Dialling(s.workers[w]) ==>
      s.workers[w].k in t.leases && t.leases[s.workers[w].k] == w
    ensures WorkersOk(t)
  {
    hide Untaken, Held;
    forall w | w in t.workers ensures PcOk(t, w, t.workers[w]) {
      assert PcOk(s, w, s.workers[w]);
    }
  }

  lemma EnvKeepsInv(s: Sys, step: Step)
    requires Inv(s) && EnvEnabled(s, step)
    ensures Inv(ApplyEnv(s, step))
  {
    if step.Webhook? {
      WebhookKeepsInv(s, step.k, step.run, step.connected, step.status, step.d);
    } else if step.Sweep? {
      SweepKeepsInv(s, step.k, step.cutoff);
    } else {
      QuietShape(s, step);
      QuietKeepsStream(s, step);
      LeasesHeld(s);
      QuietKeepsColumns(s, step);
      if step.RebuildEntry? {
        RebuildFits(s, step.k);
      }
      hide ApplyEnv, EnvEnabled, ColumnsOk, Ordered, LogOk, WorkersOk, Untaken, Settled, StreamOk;
      var t := ApplyEnv(s, step);
      QuietStepKeepsRows(s, t, TakenOn(step));
      QuietStepKeepsWorkers(s, t);
    }
  }

  lemma DispatchDbShape(db: Db, k: Key, check: Check)
    ensures var u := DispatchDb(db, k, check);
      && u.attempts == db.attempts && u.contacts.Keys == db.contacts.Keys
      && (forall c :: c in db.contacts ==>
            && u.contacts[c] == db.contacts[c].(due := u.contacts[c].due, retry := u.contacts[c].retry)
            && (u.contacts[c].retry == None || (u.contacts[c].due && u.contacts[c].retry == db.contacts[c].retry)
                || u.contacts[c] == db.contacts[c]))
  {
  }

  lemma DispatchShape(s: Sys, k: Key, check: Check, more: bool)
    requires k in s.scheduled
    ensures var t := AfterDispatch(s, k, check, more);
      && t == s.(db := t.db, scheduled := t.scheduled, stream := t.stream, guards := t.guards, nextMid := t.nextMid,
                 refused := t.refused)
      && t.db.attempts == s.db.attempts && t.db.contacts.Keys == s.db.contacts.Keys && s.nextMid <= t.nextMid
      && (forall c :: c in s.db.contacts ==>
            && t.db.contacts[c] == s.db.contacts[c].(due := t.db.contacts[c].due, retry := t.db.contacts[c].retry)
            && (t.db.contacts[c].retry == None || (t.db.contacts[c].due && t.db.contacts[c].retry == s.db.contacts[c].retry)
                || t.db.contacts[c] == s.db.contacts[c]))
      && t.scheduled <= s.scheduled && s.refused <= t.refused
      && (|| (t.stream == s.stream && t.guards == s.guards && t.nextMid == s.nextMid)
          || (k !in s.guards && t.stream == s.stream[s.nextMid := k] && t.guards == s.guards[k := s.nextMid]
              && t.nextMid == s.nextMid + 1))
  {
    hide OpenJobs, Rebuildable, DispatchDb;
    DispatchDbShape(s.db, k, check);
  }

  lemma DispatchKeepsStream(s: Sys, k: Key, check: Check, more: bool)
    requires k in s.scheduled && StreamOk(s)
    ensures StreamOk(AfterDispatch(s, k, check, more))
  {
    hide AfterDispatch;
    DispatchShape(s, k, check, more);
  }

  /** The jobs a step of the environment takes on that is no commit. */
  function TakenOn(step: Step): set<Key>
  {
    match step
    case NewContact(c) => {Key(c, 1)}
    case RebuildEntry(k) => {k}
    case _ => {}
  }

  lemma QuietShape(s: Sys, step: Step)
    requires EnvEnabled(s, step) && !step.Webhook? && !step.Sweep?
    ensures var t := ApplyEnv(s, step);
      && t.db.attempts == s.db.attempts && t.log == s.log && t.workers == s.workers && s.nextMid <= t.nextMid
      && s.db.contacts.Keys <= t.db.contacts.Keys
      && t.owed == s.owed + TakenOn(step)
      && (step.NewContact? ==> step.c in t.db.contacts)
      && (forall w :: w in s.workers && Dialling(s.workers[w]) && s.workers[w].k in s.leases
                      && s.leases[s.workers[w].k] == w ==>
            s.workers[w].k in t.leases && t.leases[s.workers[w].k] == w)
  {
    hide Rebuildable, Waiting, Committed, WebhookDb, SweepDb, AfterDispatch, MayHaveRun;
    if step.Dispatch? {
      DispatchShape(s, step.k, step.check, step.more);
    }
  }

  lemma EnvLeavesWorkers(s: Sys, step: Step)
    requires EnvEnabled(s, step)
    ensures ApplyEnv(s, step).workers == s.workers
  {
    hide WebhookDb, SweepDb, AfterDispatch, MayHaveRun, Waiting, Rebuildable;
    if step.Dispatch? {
      DispatchShape(s, step.k, step.check, step.more);
    }
  }

  lemma QuietKeepsStream(s: Sys, step: Step)
    requires EnvEnabled(s, step) && !step.Webhook? && !step.Sweep? && StreamOk(s)
    ensures StreamOk(ApplyEnv(s, step))
  {
    hide Rebuildable, Waiting, Committed, WebhookDb, SweepDb, Dialling, AfterDispatch, MayHaveRun;
    if step.Dispatch? {
      DispatchKeepsStream(s, step.k, step.check, step.more);
    }
  }

  lemma WorkerKeepsInv(s: Sys, step: Step)
    requires Inv(s) && WorkerEnabled(s, step)
    ensures Inv(ApplyWorker(s, step))
  {
    hide Inv;
    match step {
      case Claim(w) => ClaimKeepsInv(s, w);
      case Trigger(w, a) => TriggerKeepsInv(s, w, a);
      case Resolve(w, lookup, d) => ResolveKeepsInv(s, w, lookup, d);
      case Record(w, lookup, d) => RecordKeepsInv(s, w, lookup, d);
      case LookAt(w, v) => LookKeepsInv(s, w, v);
      case Admit(w) => LeaseStepKeepsInv(s, step, w);
      case Leave(w) => LeaseStepKeepsInv(s, step, w);
      case Take(w, _) => OtherWorkerKeepsInv(s, step, w);
      case GiveUp(w) => OtherWorkerKeepsInv(s, step, w);
      case Settle(w, _, _) => OtherWorkerKeepsInv(s, step, w);
      case DropGuard(w) => OtherWorkerKeepsInv(s, step, w);
      case Ack(w) => OtherWorkerKeepsInv(s, step, w);
      case Crash(w) => OtherWorkerKeepsInv(s, step, w);
      case _ =>
    }
  }

  lemma LeaseStepKeepsInv(s: Sys, step: Step, w: nat)
    requires Inv(s) && WorkerEnabled(s, step) && (step == Admit(w) || step == Leave(w))
    ensures Inv(ApplyWorker(s, step))
  {
    hide ColumnsOk, Ordered, LogOk, Untaken, Settled, Held, StreamOk;
    var t := ApplyWorker(s, step);
    var k := PcOf(s, w).k;
    assert t == s.(workers := t.workers, leases := t.leases) by { hide AfterLook, AfterResolve, AfterClaim, AfterRecord; }
    assert t.workers == s.workers[w := t.workers[w]];
    assert if step.Admit? then k !in s.leases && t.leases == s.leases[k := w] && t.workers[w] == Admitted(PcOf(s, w).m, k)
           else t.leases == s.leases - {k} && PcOf(s, w).Leaving? && !Dialling(t.workers[w])
                && (!t.workers[w].Idle? ==> t.workers[w].m == PcOf(s, w).m && t.workers[w].k == k);
    PcFacts(s, w);
    hide ApplyWorker, WorkerEnabled;
    StreamKept(s, t);
    forall v | v in t.workers ensures PcOk(t, v, t.workers[v]) {
      if v != w {
        assert PcOk(s, v, s.workers[v]);
        assert Dialling(s.workers[v]) ==> s.workers[v].k != k;
      }
    }
  }

  /** A worker that only moves on, to a place where it holds no lease. */
  lemma MoveKeepsWorkers(s: Sys, t: Sys, w: nat)
    requires WorkersOk(s) && t.workers.Keys <= s.workers.Keys + {w}
    requires t.db == s.db && t.owed == s.owed && t.log == s.log && t.leases == s.leases && t.nextMid == s.nextMid
    requires forall v :: v in s.workers && v != w ==> v in t.workers && t.workers[v] == s.workers[v]
    requires w in t.workers && !Dialling(t.workers[w])
    requires !t.workers[w].Idle? ==> t.workers[w].k in s.owed && t.workers[w].m < s.nextMid
    ensures WorkersOk(t)
  {
    hide Untaken, Settled, Held;
    forall v | v in t.workers ensures PcOk(t, v, t.workers[v]) {
      if v != w {
        assert PcOk(s, v, s.workers[v]);
      }
    }
  }

  predicate MoveStep(step: Step, w: nat)
  {
    step == GiveUp(w) || step == DropGuard(w) || step == Ack(w) || step == Crash(w)
    || (step.Take? && step.w == w) || (step.Settle? && step.w == w)
  }

  lemma SettleShape(s: Sys, w: nat, paused: bool, due: bool)
    requires PcOf(s, w).Got?
    ensures var t := AfterSettle(s, w, paused, due);
      && t == s.(workers := s.workers[w := t.workers[w]], scheduled := t.scheduled)
      && (t.workers[w].Idle? || t.workers[w].Rebuild? || t.workers[w].AckOnly?)
      && (!t.workers[w].Idle? ==> t.workers[w].m == PcOf(s, w).m && t.workers[w].k == PcOf(s, w).k)
      && t.scheduled <= s.scheduled + (if t.workers[w].Idle? then {} else {PcOf(s, w).k})
  {
    hide Rebuildable;
  }

  lemma MoveShape(s: Sys, step: Step, w: nat)
    requires WorkerEnabled(s, step) && MoveStep(step, w)
    ensures var t := ApplyWorker(s, step);
      && t == s.(workers := t.workers, stream := t.stream, guards := t.guards, scheduled := t.scheduled)
      && w in t.workers && t.workers == s.workers[w := t.workers[w]]
      && t.scheduled <= s.scheduled + (if t.workers[w].Idle? then {} else {t.workers[w].k})
      && !Dialling(t.workers[w])
      && (!t.workers[w].Idle? ==>
            if step.Take? then step.m in s.stream && t.workers[w] == Got(step.m, s.stream[step.m])
            else !PcOf(s, w).Idle? && t.workers[w].m == PcOf(s, w).m && t.workers[w].k == PcOf(s, w).k)
      && (forall m :: m in t.stream ==> m in s.stream && t.stream[m] == s.stream[m])
      && (forall k :: k in t.guards ==> k in s.guards && t.guards[k] == s.guards[k])
  {
    hide AfterSettle, AfterLook, AfterResolve, AfterClaim, AfterTrigger, AfterRecord, AfterLeave, Look;
    if step.Settle? {
      SettleShape(s, w, step.paused, step.due);
    }
  }

  lemma StreamShrinks(s: Sys, t: Sys)
    requires StreamOk(s) && t.owed == s.owed && t.nextMid == s.nextMid && t.scheduled <= s.scheduled + t.owed
    requires forall m :: m in t.stream ==> m in s.stream && t.stream[m] == s.stream[m]
    requires forall k :: k in t.guards ==> k in s.guards && t.guards[k] == s.guards[k]
    ensures StreamOk(t)
  {
  }

  /** Steps of a worker that holds no lease, or stops. */
  lemma OtherWorkerKeepsInv(s: Sys, step: Step, w: nat)
    requires Inv(s) && WorkerEnabled(s, step) && MoveStep(step, w)
    ensures Inv(ApplyWorker(s, step))
  {
    hide ApplyWorker, Dialling, ColumnsOk, Ordered, LogOk, WorkersOk, Untaken, Settled;
    MoveShape(s, step, w);
    if !PcOf(s, w).Idle? {
      OwedFacts(s, w);
    }
    var t := ApplyWorker(s, step);
    assert step.Take? ==> t.workers[w].Idle? || (t.workers[w].k in s.owed && t.workers[w].m < s.nextMid);
    hide WorkerEnabled, MoveStep;
    StreamShrinks(s, t);
    hide StreamOk;
    MoveKeepsWorkers(s, t, w);
  }

  lemma StepKeepsInv(s: Sys, step: Step)
    requires Inv(s) && Enabled(s, step)
    ensures Inv(Apply(s, step))
  {
    hide Inv, EnvEnabled, WorkerEnabled, ApplyEnv, ApplyWorker;
    if EnvStep(step) {
      EnvKeepsInv(s, step);
    } else {
      WorkerKeepsInv(s, step);
    }
  }

  lemma NextKeepsInv(s: Sys, t: Sys)
    requires Inv(s) && Next(s, t)
    ensures Inv(t)
  {
    hide Inv, Enabled, Apply;
    var step :| Enabled(s, step) && t == Apply(s, step);
    StepKeepsInv(s, step);
  }

  lemma {:induction false} RunKeepsInv(trace: seq<Sys>, i: nat)
    requires Run(trace) && trace[0] == INITIAL && i < |trace|
    ensures Inv(trace[i])
  {
    hide Next;
    if i == 0 {
      assert Inv(INITIAL);
    } else {
      hide Inv;
      RunKeepsInv(trace, i - 1);
      assert Next(trace[i - 1], trace[i - 1 + 1]);
      NextKeepsInv(trace[i - 1], trace[i]);
    }
  }
}
