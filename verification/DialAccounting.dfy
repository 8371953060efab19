/** Attempt accounting: a contact's attempt count is the number of its attempt rows that are not held,
    through claims, crashes, holds, resumptions and holds again, as long as one worker at a time writes
    it; and exactly what breaks either. */
module DialAccounting {
  import opened Basics
  import opened DialRows
  import opened DialProtocol
  import opened DialOrder

  /** The attempts that count against the contact. */
  function Spent(db: Db, c: nat): set<Key>
  {
    set k | k in db.attempts && k.contact == c && !Held(db.attempts[k])
  }

  /** The worker holds a count of the contact it will write back. */
  predicate Writer(pc: Pc) { pc.Cleared? || pc.Claimed? || (pc.Triggered? && !Live(pc.answer)) }

  ghost predicate Books(db: Db)
  {
    forall c :: c in db.contacts ==> db.contacts[c].count == |Spent(db, c)|
  }

  ghost predicate Remembers(db: Db, pc: Pc)
  {
    Writer(pc) ==>
      && pc.k.contact in db.contacts
      && db.contacts[pc.k.contact].count == pc.count + (if pc.Cleared? then 0 else 1)
  }

  ghost predicate Memories(s: Sys) { forall w :: w in s.workers ==> Remembers(s.db, s.workers[w]) }

  ghost predicate CountInv(s: Sys) { Books(s.db) && Memories(s) }

  /** While earlier attempts stand only one number of a contact can be written; leases keep two workers off
      one job. */
  lemma SoleWriter(s: Sys, v: nat, w: nat)
    requires Inv(s) && EarlierStand(s)
    requires Writer(PcOf(s, v)) && Writer(PcOf(s, w)) && PcOf(s, v).k.contact == PcOf(s, w).k.contact
    ensures v == w
  {
    hide ColumnsOk, LogOk, WorkersOk, StreamOk, Held, AllRejected;
    OwedFacts(s, v);
    OwedFacts(s, w);
    var j, k := PcOf(s, v).k, PcOf(s, w).k;
    assert !Stands(s, j) by { WriterMayTakeBack(s, v); }
    assert !Stands(s, k) by { WriterMayTakeBack(s, w); }
    assert j == Key(j.contact, j.number) && k == Key(k.contact, k.number);
  }

  lemma WriterMayTakeBack(s: Sys, w: nat)
    requires WorkersOk(s) && Writer(PcOf(s, w))
    ensures !Stands(s, PcOf(s, w).k)
  {
    PcFacts(s, w);
  }

  lemma SpentIsSettled(db: Db, c: nat)
    ensures forall j :: j in Spent(db, c) <==> Settled(db, j) && j.contact == c
  {
  }

  // ---- the pieces of a step -----------------------------------------------------------------

  /** Nothing that counts changes. */
  ghost predicate SameCounts(db: Db, u: Db)
  {
    && db.contacts.Keys <= u.contacts.Keys
    && (forall c :: c in db.contacts ==> u.contacts[c].count == db.contacts[c].count)
    && (forall c :: c in u.contacts && c !in db.contacts ==> u.contacts[c].count == 0)
    && (forall j :: Settled(db, j) == Settled(u, j))
  }

  lemma SameCountsKeepBooks(db: Db, u: Db, owed: set<Key>)
    requires Books(db) && SameCounts(db, u) && Ordered(db, owed)
    ensures Books(u)
  {
    forall c | c in u.contacts ensures u.contacts[c].count == |Spent(u, c)| {
      assert Spent(u, c) == Spent(db, c) by {
        assert forall j :: j in Spent(u, c) <==> Settled(u, j) && j.contact == c;
        assert forall j :: j in Spent(db, c) <==> Settled(db, j) && j.contact == c;
      }
      if c !in db.contacts {
        assert Spent(db, c) == {};
      }
    }
  }

  lemma SameCountsKeepInv(s: Sys, t: Sys, w: nat)
    requires CountInv(s) && SameCounts(s.db, t.db) && Ordered(s.db, s.owed)
    requires forall v :: v in t.workers && v != w ==> v in s.workers && t.workers[v] == s.workers[v]
    requires w in t.workers && !(w in s.workers && t.workers[w] == s.workers[w]) ==> Remembers(t.db, t.workers[w])
    ensures CountInv(t)
  {
    SameCountsKeepBooks(s.db, t.db, s.owed);
    hide Books, Settled;
    forall v | v in t.workers ensures Remembers(t.db, t.workers[v]) {
      if v in s.workers && t.workers[v] == s.workers[v] {
        assert Remembers(s.db, s.workers[v]);
      }
    }
  }

  lemma SpentGains(db: Db, u: Db, k: Key)
    requires forall j :: j != k ==> Settled(db, j) == Settled(u, j)
    requires Settled(u, k) && !Settled(db, k)
    ensures |Spent(u, k.contact)| == |Spent(db, k.contact)| + 1
  {
    SpentIsSettled(u, k.contact);
    SpentIsSettled(db, k.contact);
    hide Spent, Settled;
    assert Spent(u, k.contact) == Spent(db, k.contact) + {k};
  }

  lemma SpentElsewhere(db: Db, u: Db, k: Key, c: nat)
    requires forall j :: j != k ==> Settled(db, j) == Settled(u, j)
    requires c != k.contact
    ensures Spent(u, c) == Spent(db, c)
  {
    SpentIsSettled(u, c);
    SpentIsSettled(db, c);
    hide Spent, Settled;
  }

  /** A claim and a hold move one attempt in or out of the books, which stay right exactly if the count
      follows. */
  lemma MovingOneBooksIff(db: Db, u: Db, k: Key, enters: bool)
    requires Books(db) && k.contact in db.contacts && u.contacts.Keys == db.contacts.Keys
    requires forall c :: c in db.contacts && c != k.contact ==> u.contacts[c] == db.contacts[c]
    requires forall j :: j != k ==> Settled(db, j) == Settled(u, j)
    requires Settled(u, k) == enters && Settled(db, k) == !enters
    ensures Books(u) <==> u.contacts[k.contact].count == db.contacts[k.contact].count + (if enters then 1 else -1)
  {
    hide Spent, Settled;
    if enters {
      SpentGains(db, u, k);
    } else {
      SpentGains(u, db, k);
    }
    forall c | c in u.contacts && c != k.contact ensures u.contacts[c].count == |Spent(u, c)| {
      SpentElsewhere(db, u, k, c);
    }
  }

  /** The sole writer's step leaves the memories of the others. */
  lemma WriterKeepsMemories(s: Sys, t: Sys, w: nat, k: Key)
    requires Inv(s) && EarlierStand(s) && Memories(s) && Writer(PcOf(s, w)) && PcOf(s, w).k == k && w in t.workers
    requires t.workers == s.workers[w := t.workers[w]] && Remembers(t.db, t.workers[w])
    requires t.db.contacts.Keys == s.db.contacts.Keys
    requires forall c :: c in s.db.contacts && c != k.contact ==> t.db.contacts[c] == s.db.contacts[c]
    ensures Memories(t)
  {
    hide Inv, EarlierStand;
    forall v | v in t.workers && v != w ensures Remembers(t.db, t.workers[v]) {
      assert Remembers(s.db, s.workers[v]);
      if Writer(s.workers[v]) && s.workers[v].k.contact == k.contact {
        SoleWriter(s, v, w);
      }
    }
  }

  // ---- steps --------------------------------------------------------------------------------

  lemma ClaimTakes(db: Db, k: Key, held: bool, count: int, now: int)
    requires k.contact in db.contacts && !Settled(db, k) && (if held then k in db.attempts else k !in db.attempts)
    ensures var o := ClaimDb(db, k, held, count, now);
      && o.Some? && o.value.contacts.Keys == db.contacts.Keys && o.value.contacts[k.contact].count == count + 1
      && (forall c :: c in db.contacts && c != k.contact ==> o.value.contacts[c] == db.contacts[c])
      && (forall j :: j != k ==> Settled(db, j) == Settled(o.value, j)) && Settled(o.value, k)
  {
  }

  lemma ClaimKeepsCounts(s: Sys, w: nat)
    requires Inv(s) && EarlierStand(s) && CountInv(s) && WorkerEnabled(s, Claim(w))
    ensures CountInv(AfterClaim(s, w, PcOf(s, w)))
  {
    hide ClaimDb, Ordered, ColumnsOk, LogOk, WorkersOk, StreamOk, EarlierStand, Books, Memories, AllRejected;
    var pc := PcOf(s, w);
    var k := pc.k;
    var t := AfterClaim(s, w, pc);
    OwedFacts(s, w);
    MemoryOf(s, w);
    assert !Settled(s.db, k);
    hide Settled, Held, Remembers;
    ClaimTakes(s.db, k, pc.held, pc.count, s.clock);
    MovingOneKeepsCounts(s, w, Claimed(pc.m, k, pc.status, pc.count), t.db, true);
  }

  lemma HoldFrees(db: Db, k: Key, a: Answer, status: ContactStatus, count: int, lookup: Lookup, d: Decision)
    requires k in db.attempts && k.contact in db.contacts && db.attempts[k].callId.None? && Holds(a)
    ensures var u := RecordDb(db, k, a, status, count, lookup, d);
      && u.contacts.Keys == db.contacts.Keys && u.contacts[k.contact].count == count
      && (forall c :: c in db.contacts && c != k.contact ==> u.contacts[c] == db.contacts[c])
      && (forall j :: j != k ==> Settled(db, j) == Settled(u, j)) && !Settled(u, k)
  {
  }

  lemma HoldKeepsCounts(s: Sys, w: nat, lookup: Lookup, d: Decision)
    requires Inv(s) && EarlierStand(s) && CountInv(s) && WorkerEnabled(s, Record(w, lookup, d)) && Holds(PcOf(s, w).answer)
    ensures CountInv(AfterRecord(s, w, PcOf(s, w), lookup, d))
  {
    hide RecordDb, Ordered, ColumnsOk, LogOk, WorkersOk, StreamOk, EarlierStand, Books, Memories, AllRejected;
    var pc := PcOf(s, w);
    var k := pc.k;
    var t := AfterRecord(s, w, pc, lookup, d);
    OwedFacts(s, w);
    MemoryOf(s, w);
    assert Settled(s.db, k) && s.db.attempts[k].callId.None?;
    hide Settled, Held, Remembers, Untaken;
    HoldFrees(s.db, k, pc.answer, pc.status, pc.count, lookup, d);
    MovingOneKeepsCounts(s, w, Leaving(pc.m, k, Keep), t.db, false);
  }

  lemma MovingOneKeepsCounts(s: Sys, w: nat, to: Pc, db: Db, enters: bool)
    requires Inv(s) && EarlierStand(s) && CountInv(s) && Writer(PcOf(s, w)) && Remembers(s.db, PcOf(s, w))
    requires var pc, k := PcOf(s, w), PcOf(s, w).k;
      && db.contacts.Keys == s.db.contacts.Keys && k.contact in s.db.contacts
      && (forall c :: c in s.db.contacts && c != k.contact ==> db.contacts[c] == s.db.contacts[c])
      && (forall j :: j != k ==> Settled(s.db, j) == Settled(db, j))
      && Settled(db, k) == enters && Settled(s.db, k) == !enters
      && (if enters then pc.Cleared? && to == Claimed(pc.m, k, pc.status, pc.count) && db.contacts[k.contact].count == pc.count + 1
          else !pc.Cleared? && to.Leaving? && db.contacts[k.contact].count == pc.count)
    ensures CountInv(Moved(s, w, to).(db := db))
  {
    var k := PcOf(s, w).k;
    var t := Moved(s, w, to).(db := db);
    hide Inv, EarlierStand, Settled, Books, Memories;
    assert Remembers(t.db, to);
    MovingOneBooksIff(s.db, db, k, enters);
    hide Remembers;
    WriterKeepsMemories(s, t, w, k);
  }

  lemma LookupCounts(db: Db, k: Key, lookup: Lookup, d: Decision)
    requires k in db.attempts && k.contact in db.contacts && Settled(db, k)
    ensures SameCounts(db, AfterLookup(db, k, lookup, d))
  {
  }

  lemma RecordCounts(db: Db, k: Key, a: Answer, status: ContactStatus, count: int, lookup: Lookup, d: Decision)
    requires k in db.attempts && k.contact in db.contacts && Settled(db, k) && !Holds(a)
    ensures SameCounts(db, RecordDb(db, k, a, status, count, lookup, d))
  {
  }

  lemma WebhookCounts(db: Db, k: Key, run: Option<nat>, connected: bool, status: ContactStatus, d: Decision)
    requires k in db.attempts && k.contact in db.contacts && Settled(db, k)
    ensures SameCounts(db, WebhookDb(db, k, run, connected, status, d))
  {
  }

  lemma SweepCounts(db: Db, k: Key)
    requires k in db.attempts && k.contact in db.contacts && Settled(db, k)
    ensures SameCounts(db, SweepDb(db, k))
  {
  }

  lemma LookedCounts(db: Db, k: Key, r: LookResult)
    requires r.Expired? || r.Reopen? ==> k.contact in db.contacts
    requires r.Reopen? ==> k.number > 1 && Settled(db, Key(k.contact, k.number - 1)) && r.runs != []
    ensures SameCounts(db, LookDb(db, k, r))
  {
  }

  lemma QuietCounts(s: Sys, step: Step)
    requires EnvEnabled(s, step) && !step.Webhook? && !step.Sweep?
    ensures SameCounts(s.db, ApplyEnv(s, step).db) && ApplyEnv(s, step).workers == s.workers
  {
    hide Rebuildable, Waiting, Committed, WebhookDb, SweepDb, Dialling;
    QuietShape(s, step);
    var t := ApplyEnv(s, step);
    assert forall j :: Settled(s.db, j) == Settled(t.db, j);
    hide Settled;
  }

  lemma EnvKeepsCounts(s: Sys, step: Step)
    requires Inv(s) && CountInv(s) && EnvEnabled(s, step)
    ensures CountInv(ApplyEnv(s, step))
  {
    hide SameCounts, CountInv, EnvEnabled, ApplyEnv, ColumnsOk, LogOk, WorkersOk, StreamOk, Ordered;
    EnvSameCounts(s, step);
    EnvLeavesWorkers(s, step);
    SameCountsKeepInv(s, ApplyEnv(s, step), 0);
  }

  /** Where a worker is after a step that takes no attempt in or out: what it remembers is right. */
  lemma OtherKeepsMemory(s: Sys, step: Step)
    requires WorkerEnabled(s, step) && !EnvStep(step) && !step.Claim? && Memories(s)
    ensures var t := ApplyWorker(s, step);
      && step.w in t.workers && t.workers == s.workers[step.w := t.workers[step.w]]
      && Remembers(t.db, t.workers[step.w])
  {
    hide Memories, Look, LookDb, AfterLookup, RecordDb, Fails, NoRun, Holds, AfterSettle, Honest;
    var w := step.w;
    if step.LookAt? {
      LookFits(s, PcOf(s, w).k, step.view);
      LookRemembers(s.db, PcOf(s, w).k, s.clock, step.view);
    } else if step.Trigger? {
      assert Remembers(s.db, PcOf(s, w)) by { MemoryOf(s, w); }
    } else if MoveStep(step, w) {
      MoveShape(s, step, w);
      hide ApplyWorker;
    }
  }

  lemma MemoryOf(s: Sys, w: nat)
    requires Memories(s)
    ensures Remembers(s.db, PcOf(s, w))
  {
  }

  lemma WorkerKeepsCounts(s: Sys, step: Step)
    requires Inv(s) && EarlierStand(s) && CountInv(s) && WorkerEnabled(s, step) && !EnvStep(step)
    ensures CountInv(ApplyWorker(s, step))
  {
    var w := step.w;
    hide Ordered, ColumnsOk, LogOk, WorkersOk, StreamOk, EarlierStand, Books, Memories, SameCounts, Holds, AfterClaim,
         AfterRecord;
    if step.Claim? {
      ClaimKeepsCounts(s, w);
    } else if step.Record? && Holds(PcOf(s, w).answer) {
      HoldKeepsCounts(s, w, step.lookup, step.d);
    } else {
      WorkerSameCounts(s, step);
      OtherKeepsMemory(s, step);
      hide ApplyWorker, WorkerEnabled, Remembers;
      SameCountsKeepInv(s, ApplyWorker(s, step), w);
    }
  }

  lemma StepKeepsCounts(s: Sys, step: Step)
    requires Inv(s) && EarlierStand(s) && CountInv(s) && Enabled(s, step)
    ensures CountInv(Apply(s, step))
  {
    hide Inv, EarlierStand, CountInv, EnvEnabled, WorkerEnabled, ApplyEnv, ApplyWorker;
    if EnvStep(step) {
      EnvKeepsCounts(s, step);
    } else {
      WorkerKeepsCounts(s, step);
    }
  }

  /** In every state of a run in which no rebuild outruns an attempt, every contact's attempt count is the
      number of its attempts that are not held. */
  lemma {:induction false} AttemptsAreCounted(trace: seq<Sys>, steps: seq<Step>, i: nat)
    requires Follows(trace, steps) && trace[0] == INITIAL && i < |trace|
    requires forall j :: 0 <= j < i ==> !Outruns(trace[j], steps[j])
    ensures CountInv(trace[i])
    ensures forall c :: c in trace[i].db.contacts ==>
      trace[i].db.contacts[c].count == |Spent(trace[i].db, c)|
  {
    hide Run, Inv, EarlierStand, Outruns, Enabled, Apply;
    if i > 0 {
      AttemptsAreCounted(trace, steps, i - 1);
      FollowsIsRun(trace, steps);
      RunKeepsInv(trace, i - 1);
      OrderedUpTo(trace, steps, i - 1);
      hide CountInv;
      StepKeepsCounts(trace[i - 1], steps[i - 1]);
      assert trace[i - 1 + 1] == Apply(trace[i - 1], steps[i - 1]);
      CountedBooks(trace[i]);
    }
  }

  lemma CountedBooks(s: Sys)
    requires CountInv(s)
    ensures forall c :: c in s.db.contacts ==> s.db.contacts[c].count == |Spent(s.db, c)|
  {
  }

  /** In every state of such a run at most one worker can still write the count of a contact. */
  lemma OneWriterPerContact(trace: seq<Sys>, steps: seq<Step>, i: nat, v: nat, w: nat)
    requires Follows(trace, steps) && trace[0] == INITIAL && i < |trace|
    requires forall j :: 0 <= j < i ==> !Outruns(trace[j], steps[j])
    requires Writer(PcOf(trace[i], v)) && Writer(PcOf(trace[i], w))
    requires PcOf(trace[i], v).k.contact == PcOf(trace[i], w).k.contact
    ensures v == w
  {
    hide Run, Inv, EarlierStand, Outruns;
    FollowsIsRun(trace, steps);
    RunKeepsInv(trace, i);
    OrderedUpTo(trace, steps, i);
    SoleWriter(trace[i], v, w);
  }

  // ---- exactly what breaks the books --------------------------------------------------------

  /** A claim, or a hold, writes a count made of one that is not the contact's any more. */
  predicate StaleWrite(s: Sys, step: Step)
  {
    match step
    case Claim(w) =>
      PcOf(s, w).Cleared? && PcOf(s, w).k.contact in s.db.contacts
      && s.db.contacts[PcOf(s, w).k.contact].count != PcOf(s, w).count
    case Record(w, _, _) =>
      PcOf(s, w).Triggered? && Holds(PcOf(s, w).answer) && PcOf(s, w).k.contact in s.db.contacts
      && s.db.contacts[PcOf(s, w).k.contact].count != PcOf(s, w).count + 1
    case _ => false
  }

  lemma ClaimBooks(s: Sys, w: nat)
    requires Inv(s) && Books(s.db) && WorkerEnabled(s, Claim(w))
    ensures Books(AfterClaim(s, w, PcOf(s, w)).db) <==> !StaleWrite(s, Claim(w))
  {
    hide Ordered, ColumnsOk, LogOk, WorkersOk, StreamOk, Books, ClaimDb, Untaken;
    var pc := PcOf(s, w);
    OwedFacts(s, w);
    assert !Settled(s.db, pc.k);
    hide Settled, Held;
    ClaimTakes(s.db, pc.k, pc.held, pc.count, s.clock);
    MovingOneBooksIff(s.db, ClaimDb(s.db, pc.k, pc.held, pc.count, s.clock).value, pc.k, true);
  }

  lemma HoldBooks(s: Sys, w: nat, lookup: Lookup, d: Decision)
    requires Inv(s) && Books(s.db) && WorkerEnabled(s, Record(w, lookup, d)) && Holds(PcOf(s, w).answer)
    ensures Books(AfterRecord(s, w, PcOf(s, w), lookup, d).db) <==> !StaleWrite(s, Record(w, lookup, d))
  {
    hide Ordered, ColumnsOk, LogOk, WorkersOk, StreamOk, Books, RecordDb, AllRejected;
    var pc := PcOf(s, w);
    OwedFacts(s, w);
    assert Settled(s.db, pc.k) && s.db.attempts[pc.k].callId.None?;
    hide Settled, Held, Untaken;
    HoldFrees(s.db, pc.k, pc.answer, pc.status, pc.count, lookup, d);
    MovingOneBooksIff(s.db, RecordDb(s.db, pc.k, pc.answer, pc.status, pc.count, lookup, d), pc.k, false);
  }

  lemma EnvSameCounts(s: Sys, step: Step)
    requires Inv(s) && EnvEnabled(s, step)
    ensures SameCounts(s.db, ApplyEnv(s, step).db)
  {
    if step.Webhook? {
      HasRunFacts(s.db, s.owed, s.log, step.k);
      hide Inv, SameCounts, WebhookDb, MayHaveRun, Settled;
      WebhookCounts(s.db, step.k, step.run, step.connected, step.status, step.d);
    } else if step.Sweep? {
      assert Settled(s.db, step.k);
      hide Inv, SameCounts, SweepDb, Settled;
      SweepCounts(s.db, step.k);
    } else {
      hide Inv;
      QuietCounts(s, step);
    }
  }

  lemma WorkerSameCounts(s: Sys, step: Step)
    requires Inv(s) && WorkerEnabled(s, step) && !EnvStep(step) && !step.Claim?
    requires step.Record? ==> !Holds(PcOf(s, step.w).answer)
    ensures SameCounts(s.db, ApplyWorker(s, step).db)
  {
    var pc := PcOf(s, step.w);
    hide Ordered, ColumnsOk, LogOk, WorkersOk, StreamOk, SameCounts, Settled, AfterLookup, RecordDb, Look, LookDb, Committed;
    if step.LookAt? {
      LookSameCounts(s, step.w, step.view);
    } else if step.Resolve? {
      OwedFacts(s, step.w);
      LookupCounts(s.db, pc.k, step.lookup, step.d);
      CommittedDb(Moved(s, step.w, Leaving(pc.m, pc.k, Acknowledge)), AfterLookup(s.db, pc.k, step.lookup, step.d), pc.k,
                  NoRun(step.lookup) && step.d.Schedule?);
    } else if step.Record? {
      OwedFacts(s, step.w);
      RecordCounts(s.db, pc.k, pc.answer, pc.status, pc.count, step.lookup, step.d);
      CommittedDb(Moved(s, step.w, Leaving(pc.m, pc.k, Acknowledge)),
                  RecordDb(s.db, pc.k, pc.answer, pc.status, pc.count, step.lookup, step.d), pc.k,
                  Fails(pc.answer, step.lookup) && step.d.Schedule?);
    } else {
      MoveSameDb(s, step);
    }
  }

  lemma CommittedDb(s: Sys, db: Db, k: Key, scheduled: bool)
    ensures Committed(s, db, k, scheduled).db == db
  {
  }

  lemma LookSameCounts(s: Sys, w: nat, v: View)
    requires Inv(s) && WorkerEnabled(s, LookAt(w, v))
    ensures SameCounts(s.db, ApplyWorker(s, LookAt(w, v)).db)
  {
    hide Look, LookDb, SameCounts, Settled, ColumnsOk, WorkersOk, StreamOk, MayHaveRun, AllRejected;
    var pc := PcOf(s, w);
    var r := Look(s.db, pc.k, s.clock, v);
    LookFits(s, pc.k, v);
    LookRemembers(s.db, pc.k, s.clock, v);
    OwedFacts(s, w);
    if r.Reopen? {
      HasRunFacts(s.db, s.owed, s.log, Key(pc.k.contact, pc.k.number - 1));
    }
    LookedCounts(s.db, pc.k, r);
    hide Ordered, LogOk;
    assert AfterLook(s, w, pc.m, pc.k, r).db == LookDb(s.db, pc.k, r) by { LookDbShape(s.db, pc.k, r); }
  }

  lemma MoveSameDb(s: Sys, step: Step)
    requires WorkerEnabled(s, step) && !EnvStep(step)
    requires !step.LookAt? && !step.Claim? && !step.Resolve? && !step.Record?
    ensures SameCounts(s.db, ApplyWorker(s, step).db)
  {
    hide AfterLook, AfterResolve, AfterClaim, AfterRecord, AfterSettle, Look;
    if MoveStep(step, step.w) {
      MoveShape(s, step, step.w);
      hide ApplyWorker;
    }
  }

  /** From right books, exactly a stale write makes wrong ones. */
  lemma BooksBreakExactly(s: Sys, step: Step)
    requires Inv(s) && Books(s.db) && Enabled(s, step)
    ensures Books(Apply(s, step).db) <==> !StaleWrite(s, step)
  {
    hide Books, SameCounts, EnvEnabled, ApplyEnv, WorkerEnabled, ApplyWorker;
    if EnvStep(step) {
      EnvSameCounts(s, step);
      hide ColumnsOk, LogOk, WorkersOk, StreamOk, Ordered;
      SameCountsKeepBooks(s.db, ApplyEnv(s, step).db, s.owed);
    } else {
      WorkerBooks(s, step);
    }
  }

  lemma WorkerBooks(s: Sys, step: Step)
    requires Inv(s) && Books(s.db) && WorkerEnabled(s, step) && !EnvStep(step)
    ensures Books(ApplyWorker(s, step).db) <==> !StaleWrite(s, step)
  {
    hide Ordered, ColumnsOk, LogOk, WorkersOk, StreamOk, Books, SameCounts, Holds, AfterClaim, AfterRecord;
    if step.Claim? {
      ClaimBooks(s, step.w);
    } else if step.Record? && Holds(PcOf(s, step.w).answer) {
      HoldBooks(s, step.w, step.lookup, step.d);
    } else {
      WorkerSameCounts(s, step);
      hide ApplyWorker, WorkerEnabled;
      SameCountsKeepBooks(s.db, ApplyWorker(s, step).db, s.owed);
    }
  }

  lemma {:induction false} BooksUpTo(trace: seq<Sys>, steps: seq<Step>, i: nat)
    requires Follows(trace, steps) && trace[0] == INITIAL && i < |trace|
    requires forall j :: 0 <= j < i ==> !StaleWrite(trace[j], steps[j])
    ensures Books(trace[i].db)
  {
    hide Run, Inv, StaleWrite, Enabled, Apply;
    if i > 0 {
      hide Books;
      BooksUpTo(trace, steps, i - 1);
      FollowsIsRun(trace, steps);
      RunKeepsInv(trace, i - 1);
      BooksBreakExactly(trace[i - 1], steps[i - 1]);
      assert trace[i - 1 + 1] == Apply(trace[i - 1], steps[i - 1]);
    }
  }

  /** In a run the books are right throughout if and only if no write is stale. */
  lemma AttemptsAreCountedIff(trace: seq<Sys>, steps: seq<Step>)
    requires Follows(trace, steps) && trace[0] == INITIAL
    ensures (forall i :: 0 <= i < |trace| ==> Books(trace[i].db)) <==>
      (forall i :: 0 <= i < |steps| ==> !StaleWrite(trace[i], steps[i]))
  {
    hide Run, Inv, StaleWrite, Enabled, Apply, Books;
    FollowsIsRun(trace, steps);
    if i :| 0 <= i < |steps| && StaleWrite(trace[i], steps[i]) {
      RunKeepsInv(trace, i);
      if Books(trace[i].db) {
        BooksBreakExactly(trace[i], steps[i]);
        assert trace[i + 1] == Apply(trace[i], steps[i]);
      }
    } else {
      forall i | 0 <= i < |trace| ensures Books(trace[i].db) {
        BooksUpTo(trace, steps, i);
      }
    }
  }

  // ---- exactly what brings a second writer --------------------------------------------------

  ghost predicate OneWriter(s: Sys)
  {
    forall v, w ::
      (v in s.workers && w in s.workers && Writer(s.workers[v]) && Writer(s.workers[w])
       && s.workers[v].k.contact == s.workers[w].k.contact) ==> v == w
  }

  predicate OtherWriter(s: Sys, w: nat, v: nat, c: nat)
  {
    v in s.workers && v != w && Writer(s.workers[v]) && s.workers[v].k.contact == c
  }

  /** A worker's look clears a job of a contact that another worker is at. */
  ghost predicate Joins(s: Sys, step: Step)
  {
    step.LookAt? && PcOf(s, step.w).Admitted? && Look(s.db, PcOf(s, step.w).k, s.clock, step.view).Clear?
    && exists v :: OtherWriter(s, step.w, v, PcOf(s, step.w).k.contact)
  }

  /** What a worker's step makes of its place. */
  lemma WriterComesFrom(s: Sys, step: Step)
    requires WorkerEnabled(s, step) && !EnvStep(step)
    ensures var t := ApplyWorker(s, step);
      && step.w in t.workers && t.workers == s.workers[step.w := t.workers[step.w]]
      && (Writer(t.workers[step.w]) ==>
            && !PcOf(s, step.w).Idle? && t.workers[step.w].k == PcOf(s, step.w).k
            && if step.LookAt? then Look(s.db, PcOf(s, step.w).k, s.clock, step.view).Clear? else Writer(PcOf(s, step.w)))
      && (step.LookAt? && Look(s.db, PcOf(s, step.w).k, s.clock, step.view).Clear? ==>
            Writer(t.workers[step.w]) && t.workers[step.w].k == PcOf(s, step.w).k)
  {
    hide Look, LookDb, AfterLookup, RecordDb, Holds, Fails, NoRun, AfterSettle, Honest, ClaimDb;
    if step.LookAt? {
      LookFits(s, PcOf(s, step.w).k, step.view);
    } else if MoveStep(step, step.w) {
      MoveShape(s, step, step.w);
      hide ApplyWorker;
    }
  }

  /** With one writer a contact at most, exactly such a look brings a second. */
  lemma SecondWriterExactly(s: Sys, step: Step)
    requires OneWriter(s) && Enabled(s, step)
    ensures OneWriter(Apply(s, step)) <==> !Joins(s, step)
  {
    hide EnvEnabled, ApplyEnv, ApplyWorker, Look, Writer, Honest;
    if EnvStep(step) {
      EnvLeavesWorkers(s, step);
    } else {
      WriterComesFrom(s, step);

      var t := ApplyWorker(s, step);
      if Joins(s, step) {
        var v :| OtherWriter(s, step.w, v, PcOf(s, step.w).k.contact);
        assert t.workers[v] == s.workers[v];
      } else {
        NoJoinNoSecond(s, t, step);
      }
    }
  }

  lemma NoJoinNoSecond(s: Sys, t: Sys, step: Step)
    requires OneWriter(s) && !Joins(s, step) && !EnvStep(step)
    requires step.LookAt? ==> PcOf(s, step.w).Admitted?
    requires step.w in t.workers && t.workers == s.workers[step.w := t.workers[step.w]]
    requires Writer(t.workers[step.w]) ==>
      && !PcOf(s, step.w).Idle? && t.workers[step.w].k == PcOf(s, step.w).k
      && if step.LookAt? then Look(s.db, PcOf(s, step.w).k, s.clock, step.view).Clear? else Writer(PcOf(s, step.w))
    ensures OneWriter(t)
  {
    hide Look;
    if Writer(t.workers[step.w]) {
      var c := t.workers[step.w].k.contact;
      assert forall v :: OtherWriter(t, step.w, v, c) <==> OtherWriter(s, step.w, v, c);
      assert forall v :: !OtherWriter(s, step.w, v, c);
      NoOtherWriter(s, t, step.w);
    }
  }

  lemma NoOtherWriter(s: Sys, t: Sys, w: nat)
    requires OneWriter(s) && w in t.workers && t.workers == s.workers[w := t.workers[w]] && Writer(t.workers[w])
    requires forall v :: !OtherWriter(t, w, v, t.workers[w].k.contact)
    ensures OneWriter(t)
  {
    forall v, u | v in t.workers && u in t.workers && Writer(t.workers[v]) && Writer(t.workers[u])
                  && t.workers[v].k.contact == t.workers[u].k.contact
      ensures v == u {
      assert !OtherWriter(t, w, v, t.workers[w].k.contact) && !OtherWriter(t, w, u, t.workers[w].k.contact);
    }
  }

  lemma {:induction false} OneWriterUpTo(trace: seq<Sys>, steps: seq<Step>, i: nat)
    requires Follows(trace, steps) && trace[0] == INITIAL && i < |trace|
    requires forall j :: 0 <= j < i ==> !Joins(trace[j], steps[j])
    ensures OneWriter(trace[i])
  {
    hide Joins, Enabled, Apply;
    if i > 0 {
      hide OneWriter;
      OneWriterUpTo(trace, steps, i - 1);
      assert Enabled(trace[i - 1], steps[i - 1]);
      SecondWriterExactly(trace[i - 1], steps[i - 1]);
      assert trace[i - 1 + 1] == Apply(trace[i - 1], steps[i - 1]);
    }
  }

  /** In a run no contact ever has two writers if and only if no look joins another. */
  lemma OneWriterIff(trace: seq<Sys>, steps: seq<Step>)
    requires Follows(trace, steps) && trace[0] == INITIAL
    ensures (forall i :: 0 <= i < |trace| ==> OneWriter(trace[i])) <==>
      (forall i :: 0 <= i < |steps| ==> !Joins(trace[i], steps[i]))
  {
    hide Joins, Enabled, Apply, OneWriter;
    if i :| 0 <= i < |steps| && Joins(trace[i], steps[i]) {
      if OneWriter(trace[i]) {
        SecondWriterExactly(trace[i], steps[i]);
        assert trace[i + 1] == Apply(trace[i], steps[i]);
      }
    } else {
      forall i | 0 <= i < |trace| ensures OneWriter(trace[i]) {
        OneWriterUpTo(trace, steps, i);
      }
    }
  }

  // ---- claim and hold -----------------------------------------------------------------------

  /** A hold undoes its claim: status and count are what they were, and so is every other contact and
      attempt. The retry columns are not put back: what the claim cleared stays cleared. */
  lemma HoldUndoesClaim(db: Db, k: Key, now: int, a: Answer, lookup: Lookup, d: Decision)
    requires k.contact in db.contacts && !Settled(db, k) && Holds(a)
    ensures var c := db.contacts[k.contact];
      var claimed := ClaimDb(db, k, k in db.attempts, c.count, now);
      && claimed.Some?
      && var u := RecordDb(claimed.value, k, a, c.status, c.count, lookup, d);
         && u.contacts == db.contacts[k.contact := c.(due := false, retry := None)]
         && u.attempts.Keys == db.attempts.Keys + {k} && Held(u.attempts[k])
         && (forall j :: j != k && j in db.attempts ==> u.attempts[j] == db.attempts[j])
         && (Rebuildable(u, k) <==> Rebuildable(db, k))
         && !Waiting(u, k)
  {
  }

  // ---- claim and hold with steps of others in between ---------------------------------------

  predicate Owning(pc: Pc) { pc.Cleared? || pc.Claimed? || pc.Triggered? }

  /** From its look to its record a worker remembers what it looked at. */
  predicate SameMemory(a: Pc, b: Pc)
  {
    Owning(a) && Owning(b) && a.k == b.k && a.status == b.status && a.count == b.count
  }

  /** A worker moves nobody else, and keeps what it remembers as long as it owns the job. */
  lemma WorkerMoves(s: Sys, step: Step, w: nat)
    requires WorkerEnabled(s, step) && !EnvStep(step)
    ensures var t := ApplyWorker(s, step);
      && (step.w != w ==> PcOf(t, w) == PcOf(s, w))
      && (step.w == w && Owning(PcOf(s, w)) && Owning(PcOf(t, w)) ==>
            && SameMemory(PcOf(s, w), PcOf(t, w)) && !PcOf(t, w).Cleared?
            && (PcOf(t, w).Claimed? ==> t.db == ClaimDb(s.db, PcOf(s, w).k, PcOf(s, w).held, PcOf(s, w).count, s.clock).value)
            && (PcOf(t, w).Triggered? ==> PcOf(s, w).Claimed? && t.db == s.db))
  {
    hide Look, AfterLook, AfterResolve, AfterRecord, AfterSettle, ClaimDb;
    if step.Settle? {
      SettleShape(s, step.w, step.paused, step.due);
    } else if step.LookAt? || step.Resolve? || step.Record? {
      CommitMoves(s, step);
    }
  }

  lemma LookMoves(s: Sys, w: nat, m: nat, k: Key, r: LookResult)
    requires PcOf(s, w).Admitted?
    requires r.Expired? || r.Reopen? ==> k.contact in s.db.contacts
    requires r.Reopen? ==> k.number > 1 && Key(k.contact, k.number - 1) in s.db.attempts && r.runs != []
    ensures var t := AfterLook(s, w, m, k, r); w in t.workers && t.workers == s.workers[w := t.workers[w]]
  {
    hide LookDb;
  }

  lemma CommitMoves(s: Sys, step: Step)
    requires WorkerEnabled(s, step) && (step.LookAt? || step.Resolve? || step.Record?)
    ensures var t := ApplyWorker(s, step);
      && step.w in t.workers && t.workers == s.workers[step.w := t.workers[step.w]]
      && !(Owning(PcOf(s, step.w)) && Owning(t.workers[step.w]))
  {
    hide Look, LookDb, AfterLookup, RecordDb, Holds, Fails, NoRun, AfterLook;
    if step.LookAt? {
      LookFits(s, PcOf(s, step.w).k, step.view);
      LookMoves(s, step.w, PcOf(s, step.w).m, PcOf(s, step.w).k, Look(s.db, PcOf(s, step.w).k, s.clock, step.view));
    }
  }

  /** A hold restores what the worker looked at: whatever others did from the look (step `i`) to the record
      (step `j`), the contact's status and count are those of the look again. If the status at the record
      is no longer the DIALING of the claim, another step changed it in between, and that newer status is
      what the hold overwrites. */
  lemma HoldRestoresWhatWasLookedAt(trace: seq<Sys>, steps: seq<Step>, i: nat, j: nat, w: nat)
    requires Follows(trace, steps) && trace[0] == INITIAL && i < j < |steps|
    requires steps[i].LookAt? && steps[i].w == w && PcOf(trace[i + 1], w).Cleared?
    requires forall n :: i < n <= j ==> Owning(PcOf(trace[n], w))
    requires steps[j].Record? && steps[j].w == w && PcOf(trace[j], w).Triggered? && Holds(PcOf(trace[j], w).answer)
    ensures var c := PcOf(trace[j], w).k.contact;
      && c in trace[i].db.contacts && c in trace[j].db.contacts && c in trace[j + 1].db.contacts
      && trace[j + 1].db.contacts[c].status == trace[i].db.contacts[c].status
      && trace[j + 1].db.contacts[c].count == trace[i].db.contacts[c].count
      && trace[j + 1].db.contacts[c].due == trace[j].db.contacts[c].due
      && trace[j + 1].db.contacts[c].retry == trace[j].db.contacts[c].retry
      && Explained(trace, steps, i, j, c, w)
  {
    hide Run, Next, Follows, Explained;
    LookedMemory(trace, steps, i, w);
    MemoryOverRun(trace, steps, i, j, w);
    HoldWrites(trace, steps, j, w);
  }

  /** Step `n`, not of worker `w`, changes the status of contact `c`. */
  ghost predicate ChangesStatus(trace: seq<Sys>, steps: seq<Step>, n: nat, c: nat, w: nat)
    requires n < |steps| && n + 1 < |trace|
  {
    && c in trace[n].db.contacts && c in trace[n + 1].db.contacts
    && trace[n].db.contacts[c].status != trace[n + 1].db.contacts[c].status
    && (EnvStep(steps[n]) || steps[n].w != w)
  }

  lemma LookedMemory(trace: seq<Sys>, steps: seq<Step>, i: nat, w: nat)
    requires Follows(trace, steps) && i < |steps|
    requires steps[i].LookAt? && steps[i].w == w && PcOf(trace[i + 1], w).Cleared?
    ensures var pc := PcOf(trace[i + 1], w);
      && pc.k.contact in trace[i].db.contacts
      && pc.status == trace[i].db.contacts[pc.k.contact].status && pc.count == trace[i].db.contacts[pc.k.contact].count
  {
    var s, step := trace[i], steps[i];
    assert Enabled(s, step) && trace[i + 1] == Apply(s, step);
    hide LookDb, Held, RetryGate;
  }

  lemma HoldWrites(trace: seq<Sys>, steps: seq<Step>, j: nat, w: nat)
    requires Follows(trace, steps) && j < |steps|
    requires steps[j].Record? && steps[j].w == w && PcOf(trace[j], w).Triggered? && Holds(PcOf(trace[j], w).answer)
    ensures var pc := PcOf(trace[j], w);
      var c := pc.k.contact;
      && c in trace[j].db.contacts && c in trace[j + 1].db.contacts
      && trace[j + 1].db.contacts[c] == trace[j].db.contacts[c].(status := pc.status, count := pc.count)
  {
    assert Enabled(trace[j], steps[j]) && trace[j + 1] == Apply(trace[j], steps[j]);
  }

  /** The contact is as the claim left it, or somebody else changed it since. */
  ghost predicate Explained(trace: seq<Sys>, steps: seq<Step>, i: nat, j: nat, c: nat, w: nat)
    requires i < j < |steps| && |trace| == |steps| + 1
  {
    c in trace[j].db.contacts
    && (trace[j].db.contacts[c].status.Dialing? || exists n :: i < n < j && ChangesStatus(trace, steps, n, c, w))
  }

  lemma ExplainedLater(trace: seq<Sys>, steps: seq<Step>, i: nat, j: nat, c: nat, w: nat)
    requires i + 1 < j < |steps| && |trace| == |steps| + 1 && Explained(trace, steps, i, j - 1, c, w)
    requires c in trace[j].db.contacts
    requires EnvStep(steps[j - 1]) || steps[j - 1].w != w || trace[j].db == trace[j - 1].db
    ensures Explained(trace, steps, i, j, c, w)
  {
    if !trace[j].db.contacts[c].status.Dialing? && trace[j - 1].db.contacts[c].status.Dialing? {
      assert ChangesStatus(trace, steps, j - 1, c, w);
    }
  }

  lemma {:induction false} MemoryOverRun(trace: seq<Sys>, steps: seq<Step>, i: nat, j: nat, w: nat)
    requires Follows(trace, steps) && trace[0] == INITIAL && i < j < |steps|
    requires PcOf(trace[i + 1], w).Cleared?
    requires forall n :: i < n <= j ==> Owning(PcOf(trace[n], w))
    ensures SameMemory(PcOf(trace[i + 1], w), PcOf(trace[j], w))
    ensures PcOf(trace[j], w).k.contact in trace[j].db.contacts
    ensures PcOf(trace[j], w).Cleared? || Explained(trace, steps, i, j, PcOf(trace[j], w).k.contact, w)
    decreases j
  {
    hide Run, Inv, Enabled, Apply, PcOk, Explained;
    ContactThere(trace, steps, j, w);
    if j > i + 1 {
      MemoryOverRun(trace, steps, i, j - 1, w);
      assert Enabled(trace[j - 1], steps[j - 1]) && trace[j - 1 + 1] == Apply(trace[j - 1], steps[j - 1]);
      OneStepOfMemory(trace[j - 1], steps[j - 1], w);
      var c := PcOf(trace[j], w).k.contact;
      if !PcOf(trace[j], w).Cleared? {
        if PcOf(trace[j - 1], w).Cleared? {
          assert Explained(trace, steps, i, j, c, w) by { DialingIsExplained(trace, steps, i, j, c, w); }
        } else {
          ExplainedLater(trace, steps, i, j, c, w);
        }
      }
    }
  }

  lemma DialingIsExplained(trace: seq<Sys>, steps: seq<Step>, i: nat, j: nat, c: nat, w: nat)
    requires i < j < |steps| && |trace| == |steps| + 1
    requires c in trace[j].db.contacts && trace[j].db.contacts[c].status.Dialing?
    ensures Explained(trace, steps, i, j, c, w)
  {
  }

  lemma ContactThere(trace: seq<Sys>, steps: seq<Step>, j: nat, w: nat)
    requires Follows(trace, steps) && trace[0] == INITIAL && j < |trace| && Owning(PcOf(trace[j], w))
    ensures PcOf(trace[j], w).k.contact in trace[j].db.contacts
  {
    FollowsIsRun(trace, steps);
    RunKeepsInv(trace, j);
    PcFacts(trace[j], w);
    hide Run, Follows;
  }

  lemma OneStepOfMemory(s: Sys, step: Step, w: nat)
    requires Enabled(s, step) && Owning(PcOf(s, w)) && Owning(PcOf(Apply(s, step), w))
    requires PcOf(s, w).k.contact in s.db.contacts
    ensures var t := Apply(s, step);
      && SameMemory(PcOf(s, w), PcOf(t, w))
      && (!PcOf(s, w).Cleared? ==> !PcOf(t, w).Cleared?)
      && (!EnvStep(step) && step.w == w ==>
            !PcOf(t, w).Cleared? && PcOf(s, w).k.contact in t.db.contacts
            && (PcOf(s, w).Cleared? ==> t.db.contacts[PcOf(s, w).k.contact].status.Dialing?)
            && (!PcOf(s, w).Cleared? ==> t.db == s.db))
      && (EnvStep(step) || step.w != w ==> PcOf(t, w) == PcOf(s, w))
  {
    if EnvStep(step) {
      EnvLeavesWorkers(s, step);
    } else {
      WorkerMoves(s, step, w);
    }
    hide Enabled, ApplyEnv, ApplyWorker;
  }
}
