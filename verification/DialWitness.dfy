/** Runs of the dial protocol that end where a reader would not expect them to. */
module DialWitness {
  import opened Basics
  import opened DialRows
  import opened DialProtocol
  import opened DialRetries
  import opened DialLosses
  import opened DialOrder
  import opened DialAccounting

  /** Some run ends in this state. */
  ghost predicate Reached(s: Sys)
  {
    exists trace :: Run(trace) && trace[0] == INITIAL && trace[|trace| - 1] == s
  }

  lemma ReachedStart()
    ensures Reached(INITIAL)
  {
    assert Run([INITIAL]);
  }

  lemma ReachedStep(s: Sys, step: Step)
    requires Reached(s) && Enabled(s, step)
    ensures Reached(Apply(s, step))
  {
    hide Enabled, Apply;
    var trace :| Run(trace) && trace[0] == INITIAL && trace[|trace| - 1] == s;
    var longer := trace + [Apply(s, step)];
    forall i | 0 <= i < |longer| - 1 ensures Next(longer[i], longer[i + 1]) {
      if i < |trace| - 1 {
        assert Next(trace[i], trace[i + 1]);
      } else {
        assert longer[i] == s;
      }
    }
    assert Run(longer);
  }

  // ---- the steps of a worker ----------------------------------------------------------------

  function At(s: Sys, w: nat, pc: Pc): Sys { s.(workers := s.workers[w := pc]) }

  lemma Takes(s: Sys, w: nat, m: nat, k: Key)
    requires Reached(s) && PcOf(s, w).Idle? && m in s.stream && s.stream[m] == k
    ensures Reached(At(s, w, Got(m, k)))
  {
    hide Reached;
    ReachedStep(s, Take(w, m));
  }

  lemma Admits(s: Sys, w: nat, m: nat, k: Key)
    requires Reached(s) && PcOf(s, w) == Got(m, k) && k !in s.leases
    ensures Reached(At(s, w, Admitted(m, k)).(leases := s.leases[k := w]))
  {
    hide Reached;
    ReachedStep(s, Admit(w));
  }

  lemma Looks(s: Sys, w: nat, m: nat, k: Key, v: View, r: LookResult)
    requires Reached(s) && PcOf(s, w) == Admitted(m, k) && v.lookup == Found([])
    requires Look(s.db, k, s.clock, v) == r && (r.Stop? || r.Clear?)
    ensures Reached(At(s, w, if r.Stop? then Leaving(m, k, r.fate) else Cleared(m, k, r.held, r.status, r.count)))
  {
    hide Reached, Look, MayHaveRun;
    ReachedStep(s, LookAt(w, v));
  }

  lemma ClaimsRow(s: Sys, w: nat, m: nat, k: Key, held: bool, status: ContactStatus, count: int)
    requires Reached(s) && PcOf(s, w) == Cleared(m, k, held, status, count)
    requires k.contact in s.db.contacts && (k in s.db.attempts <==> held)
    ensures Reached(At(s, w, Claimed(m, k, status, count)).(db := ClaimedDb(s.db, k, count, s.clock)))
  {
    hide Reached;
    ReachedStep(s, Claim(w));
  }

  function ClaimedDb(db: Db, k: Key, count: int, now: int): Db
  {
    Db(db.contacts[k.contact := Contact(Dialing, count + 1, false, None)],
       db.attempts[k := if k in db.attempts then ResumedRow(db.attempts[k], now) else NewAttempt(now)])
  }

  lemma Triggers(s: Sys, w: nat, m: nat, k: Key, status: ContactStatus, count: int, a: Answer)
    requires Reached(s) && PcOf(s, w) == Claimed(m, k, status, count) && !a.NotSent?
    ensures Reached(At(s, w, Triggered(m, k, status, count, a)).(log := s.log + [Request(k, a)]))
  {
    hide Reached;
    ReachedStep(s, Trigger(w, a));
  }

  /** A hold keeps the message. */
  lemma HoldsBack(s: Sys, m: nat, k: Key, status: ContactStatus, count: int, a: Answer)
    requires Reached(s) && PcOf(s, 0) == Triggered(m, k, status, count, a) && Holds(a)
    requires k in s.db.attempts && k.contact in s.db.contacts
    ensures Reached(At(s, 0, Leaving(m, k, Keep)).(db := HoldDb(s.db, k, status, count)))
  {
    hide Reached;
    ReachedStep(s, Record(0, Unavailable, Undecided));
  }

  function HoldDb(db: Db, k: Key, status: ContactStatus, count: int): Db
    requires k in db.attempts && k.contact in db.contacts
  {
    Db(db.contacts[k.contact := db.contacts[k.contact].(status := status, count := count)],
       db.attempts[k := HeldRow(db.attempts[k])])
  }

  /** A failure without a call schedules the next attempt. */
  lemma FailsAndSchedules(s: Sys, m: nat, k: Key, status: ContactStatus, count: int, a: Answer)
    requires Reached(s) && PcOf(s, 0) == Triggered(m, k, status, count, a) && Fails(a, Found([]))
    requires k in s.db.attempts && k.contact in s.db.contacts
    ensures Reached(At(s, 0, Leaving(m, k, Acknowledge)).(
      db := FailDb(s.db, k, a.Ambiguous?), owed := s.owed + {NextKey(k)}, scheduled := s.scheduled + {NextKey(k)}))
  {
    hide Reached;
    ReachedStep(s, Record(0, Found([]), Schedule));
  }

  function FailDb(db: Db, k: Key, ambiguous: bool): Db
    requires k in db.attempts && k.contact in db.contacts
  {
    Db(db.contacts[k.contact := db.contacts[k.contact].(status := RetryScheduled, due := true, retry := Some(k.number + 1))],
       db.attempts[k := Failed(db.attempts[k], ambiguous)])
  }

  lemma Leaves(s: Sys, m: nat, k: Key, fate: Fate)
    requires Reached(s) && PcOf(s, 0) == Leaving(m, k, fate) && !fate.Settle?
    ensures Reached(At(s, 0, if fate.Keep? then Idle else AckOnly(m, k)).(leases := s.leases - {k}))
  {
    hide Reached;
    ReachedStep(s, Leave(0));
  }

  lemma Acks(s: Sys, m: nat, k: Key)
    requires Reached(s) && PcOf(s, 0) == AckOnly(m, k)
    ensures Reached(At(s, 0, Idle).(stream := s.stream - {m}))
  {
    hide Reached;
    ReachedStep(s, Ack(0));
  }

  // ---- whole deliveries ---------------------------------------------------------------------

  /** Worker 0 takes the message of a job, is admitted, looks, claims and triggers. */
  lemma Dials(s: Sys, m: nat, k: Key, v: View, a: Answer) returns (t: Sys)
    requires Reached(s) && PcOf(s, 0).Idle? && m in s.stream && s.stream[m] == k && k !in s.leases
    requires k.contact in s.db.contacts && k !in s.db.attempts && !a.NotSent?
    requires var c := s.db.contacts[k.contact]; Look(s.db, k, s.clock, v) == Clear(false, c.status, c.count)
    requires v.lookup == Found([])
    ensures Reached(t)
    ensures var c := s.db.contacts[k.contact];
      t == At(s, 0, Triggered(m, k, c.status, c.count, a)).(
        leases := s.leases[k := 0], db := ClaimedDb(s.db, k, c.count, s.clock), log := s.log + [Request(k, a)])
  {
    hide Reached, Look, ClaimedDb;
    var c := s.db.contacts[k.contact];
    Takes(s, 0, m, k);
    t := At(s, 0, Got(m, k));
    Admits(t, 0, m, k);
    t := At(t, 0, Admitted(m, k)).(leases := s.leases[k := 0]);
    Looks(t, 0, m, k, v, Clear(false, c.status, c.count));
    t := At(t, 0, Cleared(m, k, false, c.status, c.count));
    ClaimsRow(t, 0, m, k, false, c.status, c.count);
    t := At(t, 0, Claimed(m, k, c.status, c.count)).(db := ClaimedDb(s.db, k, c.count, s.clock));
    Triggers(t, 0, m, k, c.status, c.count, a);
    t := At(t, 0, Triggered(m, k, c.status, c.count, a)).(log := s.log + [Request(k, a)]);
  }

  /** It then fails, schedules the next attempt, leaves and acknowledges. */
  lemma Failing(s: Sys, m: nat, k: Key, status: ContactStatus, count: int, a: Answer) returns (t: Sys)
    requires Reached(s) && PcOf(s, 0) == Triggered(m, k, status, count, a) && Fails(a, Found([]))
    requires k in s.db.attempts && k.contact in s.db.contacts
    ensures Reached(t)
    ensures t == At(s, 0, Idle).(
      db := FailDb(s.db, k, a.Ambiguous?), stream := s.stream - {m}, leases := s.leases - {k},
      owed := s.owed + {NextKey(k)}, scheduled := s.scheduled + {NextKey(k)})
  {
    hide Reached, FailDb, Fails;
    FailsAndSchedules(s, m, k, status, count, a);
    t := At(s, 0, Leaving(m, k, Acknowledge)).(
      db := FailDb(s.db, k, a.Ambiguous?), owed := s.owed + {NextKey(k)}, scheduled := s.scheduled + {NextKey(k)});
    Leaves(t, m, k, Acknowledge);
    t := At(t, 0, AckOnly(m, k)).(leases := s.leases - {k});
    Acks(t, m, k);
    t := At(t, 0, Idle).(stream := s.stream - {m});
  }

  lemma DialsAndFails(s: Sys, m: nat, k: Key, v: View, a: Answer) returns (t: Sys)
    requires Reached(s) && PcOf(s, 0).Idle? && m in s.stream && s.stream[m] == k && k !in s.leases
    requires k.contact in s.db.contacts && k !in s.db.attempts && Fails(a, Found([]))
    requires var c := s.db.contacts[k.contact]; Look(s.db, k, s.clock, v) == Clear(false, c.status, c.count)
    requires v.lookup == Found([])
    ensures Reached(t)
    ensures t == At(s, 0, Idle).(
      db := FailDb(ClaimedDb(s.db, k, s.db.contacts[k.contact].count, s.clock), k, a.Ambiguous?),
      log := s.log + [Request(k, a)], stream := s.stream - {m},
      owed := s.owed + {NextKey(k)}, scheduled := s.scheduled + {NextKey(k)})
  {
    hide Reached, Look, FailDb;
    var c := s.db.contacts[k.contact];
    var s1 := Dials(s, m, k, v, a);
    t := Failing(s1, m, k, c.status, c.count, a);
    assert s.leases[k := 0] - {k} == s.leases;
  }

  /** Or it is held: the message stays. */
  lemma Holding(s: Sys, m: nat, k: Key, status: ContactStatus, count: int, a: Answer) returns (t: Sys)
    requires Reached(s) && PcOf(s, 0) == Triggered(m, k, status, count, a) && Holds(a)
    requires k in s.db.attempts && k.contact in s.db.contacts
    ensures Reached(t) && t == At(s, 0, Idle).(db := HoldDb(s.db, k, status, count), leases := s.leases - {k})
  {
    hide Reached, HoldDb;
    HoldsBack(s, m, k, status, count, a);
    t := At(s, 0, Leaving(m, k, Keep)).(db := HoldDb(s.db, k, status, count));
    Leaves(t, m, k, Keep);
    t := At(t, 0, Idle).(leases := s.leases - {k});
  }

  lemma DialsAndHolds(s: Sys, m: nat, k: Key, v: View, a: Answer) returns (t: Sys)
    requires Reached(s) && PcOf(s, 0).Idle? && m in s.stream && s.stream[m] == k && k !in s.leases
    requires k.contact in s.db.contacts && k !in s.db.attempts && Holds(a) && !a.NotSent?
    requires var c := s.db.contacts[k.contact]; Look(s.db, k, s.clock, v) == Clear(false, c.status, c.count)
    requires v.lookup == Found([])
    ensures Reached(t)
    ensures var c := s.db.contacts[k.contact];
      t == At(s, 0, Idle).(db := HoldDb(ClaimedDb(s.db, k, c.count, s.clock), k, c.status, c.count),
                        log := s.log + [Request(k, a)])
  {
    hide Reached, Look, HoldDb;
    var c := s.db.contacts[k.contact];
    var s1 := Dials(s, m, k, v, a);
    t := Holding(s1, m, k, c.status, c.count, a);
    assert s.leases[k := 0] - {k} == s.leases;
  }

  /** A look that lets go of the job: the message is acknowledged, nothing else changes. */
  lemma LetsGo(s: Sys, m: nat, k: Key, v: View) returns (t: Sys)
    requires Reached(s) && PcOf(s, 0).Idle? && m in s.stream && s.stream[m] == k && k !in s.leases
    requires Look(s.db, k, s.clock, v) == Stop(Acknowledge) && v.lookup == Found([])
    ensures Reached(t) && t == At(s, 0, Idle).(stream := s.stream - {m})
  {
    hide Reached, Look;
    Takes(s, 0, m, k);
    t := At(s, 0, Got(m, k));
    Admits(t, 0, m, k);
    t := At(t, 0, Admitted(m, k)).(leases := s.leases[k := 0]);
    Looks(t, 0, m, k, v, Stop(Acknowledge));
    t := At(t, 0, Leaving(m, k, Acknowledge));
    Leaves(t, m, k, Acknowledge);
    assert s.leases[k := 0] - {k} == s.leases;
    t := At(t, 0, AckOnly(m, k)).(leases := s.leases);
    Acks(t, m, k);
    t := At(t, 0, Idle).(stream := s.stream - {m});
  }

  // ---- one contact --------------------------------------------------------------------------

  const K1 := Key(7, 1)
  const K2 := Key(7, 2)
  const K3 := Key(7, 3)

  /** Every gate open; a listing answers with no run. */
  const OPEN_VIEW := View(false, true, true, true, Found([]), false, 25)

  function World(
    c: Contact, attempts: map<Key, Attempt>, owed: set<Key>, log: seq<Request>, stream: map<nat, Key>,
    nextMid: nat, guards: map<Key, nat>, scheduled: set<Key>, workers: map<nat, Pc>): Sys
  {
    Sys(0, Db(map[7 := c], attempts), owed, log, stream, nextMid, guards, {}, scheduled, map[], workers, {})
  }

  /** Queued and waiting to be taken. */
  lemma FirstQueued() returns (s: Sys)
    ensures Reached(s)
    ensures s == World(Contact(Pending, 0, false, None), map[], {K1}, [], map[0 := K1], 1, map[K1 := 0], {}, map[])
  {
    hide Reached;
    ReachedStart();
    ReachedStep(INITIAL, NewContact(7));
    var s1 := World(Contact(Pending, 0, false, None), map[], {K1}, [], map[], 0, map[], {}, map[]);
    assert Apply(INITIAL, NewContact(7)) == s1;
    ReachedStep(s1, Queue(K1));
    s := Apply(s1, Queue(K1));
  }

  function FailedRow(a: Answer): Attempt { Attempt(FailedToConnect, None, OtherEvent, a.Ambiguous?, 0) }

  /** The first trigger failed without a run, the retry waits and was dispatched. */
  lemma SecondQueued(a: Answer) returns (s: Sys)
    requires a == Ambiguous || a == Rejected(false)
    ensures Reached(s)
    ensures s == World(Contact(RetryScheduled, 1, true, Some(2)), map[K1 := FailedRow(a)], {K1, K2}, [Request(K1, a)],
                       map[1 := K2], 2, map[K1 := 0, K2 := 1], {}, map[0 := Idle])
  {
    hide Reached;
    var s0 := FirstQueued();
    var s3 := DialsAndFails(s0, 0, K1, OPEN_VIEW, a);
    var s4 := World(Contact(RetryScheduled, 1, true, Some(2)), map[K1 := FailedRow(a)], {K1, K2}, [Request(K1, a)],
                    map[], 1, map[K1 := 0], {K2}, map[0 := Idle]);
    assert s3 == s4;
    Dispatches(s4, K2);
    s := AfterQueue(s4.(scheduled := {}), K2);
    assert s4.scheduled - {K2} == {};
  }

  /** The dispatcher puts a waiting retry on the stream. */
  lemma Dispatches(s: Sys, k: Key)
    requires Reached(s) && k in s.scheduled && k.number > 1 && k !in s.db.attempts && k !in s.guards
    requires Waiting(s.db, k)
    ensures Reached(AfterQueue(s.(scheduled := s.scheduled - {k}), k))
  {
    hide Reached;
    ReachedStep(s, Dispatch(k, Go, false));
    assert s.db.contacts[k.contact := s.db.contacts[k.contact]] == s.db.contacts;
  }

  const HELD := Attempt(FailedToConnect, None, HeldEvent, false, 0)

  // ---- a held retry is dropped --------------------------------------------------------------

  /** The second attempt is refused by the provider's configuration and held; its message stays. */
  lemma SecondHeld() returns (s: Sys)
    ensures Reached(s)
    ensures s == World(Contact(RetryScheduled, 1, false, None), map[K1 := FailedRow(Ambiguous), K2 := HELD], {K1, K2},
                       [Request(K1, Ambiguous), Request(K2, ConfigRejected)], map[1 := K2], 2,
                       map[K1 := 0, K2 := 1], {}, map[0 := Idle])
  {
    hide Reached;
    var s0 := SecondQueued(Ambiguous);
    s := DialsAndHolds(s0, 1, K2, OPEN_VIEW, ConfigRejected);
    assert s.log == [Request(K1, Ambiguous), Request(K2, ConfigRejected)];
  }

  /** A run after which a held retry is forgotten: the halt over and every gate open, the retry gate
      acknowledges its message. Nothing else remembers it. */
  lemma HeldRetryIsDropped() returns (s: Sys)
    ensures Reached(s) && HeldRetry(s, K2) && Forgotten(s, K2)
    ensures 7 in s.db.contacts && s.db.contacts[7].status.RetryScheduled?
  {
    hide Reached;
    var s0 := SecondHeld();
    s := LetsGo(s0, 1, K2, OPEN_VIEW);
  }

  // ---- a waiting retry is overwritten, or cleared -------------------------------------------

  /** The second attempt fails and the third is scheduled. */
  lemma ThirdWaits() returns (s: Sys)
    ensures Reached(s)
    ensures s == World(Contact(RetryScheduled, 2, true, Some(3)), map[K1 := FailedRow(Ambiguous), K2 := FailedRow(Rejected(false))], {K1, K2, K3},
                       [Request(K1, Ambiguous), Request(K2, Rejected(false))], map[], 2,
                       map[K1 := 0, K2 := 1], {K3}, map[0 := Idle])
  {
    hide Reached;
    var s0 := SecondQueued(Ambiguous);
    s := DialsAndFails(s0, 1, K2, OPEN_VIEW, Rejected(false));
    assert s.log == [Request(K1, Ambiguous), Request(K2, Rejected(false))];
  }

  lemma WipesAfterwards(s: Sys)
    requires Reached(s) && forall w :: w in s.workers ==> !Dialling(s.workers[w])
    ensures Reached(AfterWipe(s))
  {
    hide Reached;
    ReachedStep(s, RedisWipe);
  }

  /** A run in which a late webhook of attempt 1 overtakes the waiting attempt 3: the columns name attempt
      2, which has its row. After a wipe of Redis nothing remembers attempt 3. */
  lemma WaitingRetryIsOvertaken() returns (s: Sys, t: Sys)
    ensures Reached(s) && Stranded(s, K3) && s.db.contacts[7].retry == Some(2) && K2 in s.db.attempts
    ensures Reached(t) && t.db == s.db && Stranded(t, K3) && Forgotten(t, K3)
  {
    hide Reached;
    var s0 := ThirdWaits();
    assert s0.log[0] == Request(K1, Ambiguous);
    var late := Webhook(K1, Some(9), false, RetryScheduled, Schedule);
    ReachedStep(s0, late);
    s := Apply(s0, late);
    WipesAfterwards(s);
    t := AfterWipe(s);
  }

  /** The second attempt was put back into the schedule before it was dialled. */
  lemma SecondRescheduled(a: Answer) returns (s: Sys)
    requires a == Ambiguous || a == Rejected(false)
    ensures Reached(s)
    ensures s == World(Contact(RetryScheduled, 1, true, Some(2)), map[K1 := FailedRow(a)], {K1, K2}, [Request(K1, a)],
                       map[1 := K2], 2, map[K1 := 0, K2 := 1], {K2}, map[0 := Idle])
  {
    var s0 := SecondQueued(a);
    hide Reached;
    ReachedStep(s0, RebuildEntry(K2));
    s := Apply(s0, RebuildEntry(K2));
    assert s0.owed + {K2} == {K1, K2};
  }

  /** ... which it then is, and fails. */
  lemma ThirdWaitsToo() returns (s: Sys)
    ensures Reached(s)
    ensures s == World(Contact(RetryScheduled, 2, true, Some(3)),
                       map[K1 := FailedRow(Ambiguous), K2 := FailedRow(Rejected(false))], {K1, K2, K3},
                       [Request(K1, Ambiguous), Request(K2, Rejected(false))], map[], 2,
                       map[K1 := 0, K2 := 1], {K2, K3}, map[0 := Idle])
  {
    hide Reached;
    var s0 := SecondRescheduled(Ambiguous);
    s := DialsAndFails(s0, 1, K2, OPEN_VIEW, Rejected(false));
    assert s.log == [Request(K1, Ambiguous), Request(K2, Rejected(false))];
  }

  /** A run in which the stale entry of attempt 2 comes due while attempt 3 waits: the dispatcher finds
      the row of attempt 2 and clears the columns. After a wipe of Redis nothing remembers attempt 3. */
  lemma WaitingRetryIsCleared() returns (s: Sys, t: Sys)
    ensures Reached(s) && Stranded(s, K3) && s.db.contacts[7].retry == None
    ensures Reached(t) && t.db == s.db && Stranded(t, K3) && Forgotten(t, K3)
  {
    hide Reached;
    var s0 := ThirdWaitsToo();
    ReachedStep(s0, Dispatch(K2, Go, false));
    s := Apply(s0, Dispatch(K2, Go, false));
    WipesAfterwards(s);
    t := AfterWipe(s);
  }

  // ---- two numbers of one contact at once ---------------------------------------------------

  /** The second attempt is held while its entry stands in the schedule. */
  lemma SecondHeldInSchedule() returns (s: Sys)
    ensures Reached(s)
    ensures s == World(Contact(RetryScheduled, 1, false, None), map[K1 := FailedRow(Rejected(false)), K2 := HELD],
                       {K1, K2}, [Request(K1, Rejected(false)), Request(K2, ConfigRejected)], map[1 := K2], 2,
                       map[K1 := 0, K2 := 1], {K2}, map[0 := Idle])
  {
    hide Reached;
    var s0 := SecondRescheduled(Rejected(false));
    s := DialsAndHolds(s0, 1, K2, OPEN_VIEW, ConfigRejected);
    assert s.log == [Request(K1, Rejected(false)), Request(K2, ConfigRejected)];
  }

  /** The campaign is paused: the entry is postponed, and the due time alone makes the rebuild take on the
      third attempt. */
  lemma ThirdDerived() returns (s: Sys)
    ensures Reached(s)
    ensures s == World(Contact(RetryScheduled, 1, true, None), map[K1 := FailedRow(Rejected(false)), K2 := HELD],
                       {K1, K2, K3}, [Request(K1, Rejected(false)), Request(K2, ConfigRejected)], map[1 := K2], 2,
                       map[K1 := 0, K2 := 1], {K2, K3}, map[0 := Idle])
  {
    hide Reached;
    var s0 := SecondHeldInSchedule();
    var postponed := Dispatch(K2, Postponed, false);
    ReachedStep(s0, postponed);
    assert Unnumbers(s0, postponed);
    var s1 := s0.(db := s0.db.(contacts := map[7 := Contact(RetryScheduled, 1, true, None)]));
    assert Apply(s0, postponed) == s1;
    ReachedStep(s1, RebuildEntry(K3));
    s := Apply(s1, RebuildEntry(K3));
    assert s1.owed + {K3} == {K1, K2, K3} && s1.scheduled + {K3} == {K2, K3};
  }

  /** The campaign resumes: the third attempt is dispatched beside the message of the second. */
  lemma BothOnStream() returns (s: Sys)
    ensures Reached(s)
    ensures s == World(Contact(RetryScheduled, 1, true, None), map[K1 := FailedRow(Rejected(false)), K2 := HELD],
                       {K1, K2, K3}, [Request(K1, Rejected(false)), Request(K2, ConfigRejected)],
                       map[1 := K2, 2 := K3], 3, map[K1 := 0, K2 := 1, K3 := 2], {K2}, map[0 := Idle])
  {
    hide Reached;
    var s0 := ThirdDerived();
    Dispatches(s0, K3);
    assert s0.scheduled - {K3} == {K2};
    s := AfterQueue(s0.(scheduled := {K2}), K3);
  }

  /** A worker takes a message and its look clears the job. */
  lemma ComesToClear(s: Sys, w: nat, m: nat, k: Key, held: bool) returns (t: Sys)
    requires Reached(s) && PcOf(s, w).Idle? && m in s.stream && s.stream[m] == k && k !in s.leases
    requires k.contact in s.db.contacts
    requires var c := s.db.contacts[k.contact]; Look(s.db, k, s.clock, OPEN_VIEW) == Clear(held, c.status, c.count)
    ensures Reached(t)
    ensures var c := s.db.contacts[k.contact];
      t == At(s, w, Cleared(m, k, held, c.status, c.count)).(leases := s.leases[k := w])
  {
    hide Reached, Look;
    var c := s.db.contacts[k.contact];
    Takes(s, w, m, k);
    t := At(s, w, Got(m, k));
    Admits(t, w, m, k);
    t := At(t, w, Admitted(m, k)).(leases := s.leases[k := w]);
    Looks(t, w, m, k, OPEN_VIEW, Clear(held, c.status, c.count));
    t := At(t, w, Cleared(m, k, held, c.status, c.count));
  }

  /** It claims, and the provider accepts its trigger. */
  lemma ClaimsAndCalls(s: Sys, w: nat, m: nat, k: Key, held: bool, status: ContactStatus, count: int, run: nat)
    returns (t: Sys)
    requires Reached(s) && PcOf(s, w) == Cleared(m, k, held, status, count)
    requires k.contact in s.db.contacts && (k in s.db.attempts <==> held)
    ensures Reached(t)
    ensures t == At(s, w, Triggered(m, k, status, count, Accepted(run))).(
      db := ClaimedDb(s.db, k, count, s.clock), log := s.log + [Request(k, Accepted(run))])
  {
    hide Reached, ClaimedDb;
    ClaimsRow(s, w, m, k, held, status, count);
    t := At(s, w, Claimed(m, k, status, count)).(db := ClaimedDb(s.db, k, count, s.clock));
    Triggers(t, w, m, k, status, count, Accepted(run));
    t := At(t, w, Triggered(m, k, status, count, Accepted(run))).(log := s.log + [Request(k, Accepted(run))]);
  }

  /** Two workers look before either claims. */
  lemma BothCleared() returns (s: Sys)
    ensures Reached(s)
    ensures s == World(Contact(RetryScheduled, 1, true, None), map[K1 := FailedRow(Rejected(false)), K2 := HELD],
                       {K1, K2, K3}, [Request(K1, Rejected(false)), Request(K2, ConfigRejected)],
                       map[1 := K2, 2 := K3], 3, map[K1 := 0, K2 := 1, K3 := 2], {K2},
                       map[0 := Cleared(1, K2, true, RetryScheduled, 1), 1 := Cleared(2, K3, false, RetryScheduled, 1)])
                   .(leases := map[K2 := 0, K3 := 1])
  {
    hide Reached;
    var s0 := BothOnStream();
    var s1 := ComesToClear(s0, 0, 1, K2, true);
    s := ComesToClear(s1, 1, 2, K3, false);
  }

  /** A run in which two workers are at attempts 2 and 3 of one contact at once (`s`), and then (`t`) both
      have called: two dials under way, three attempts spent, a count of two. */
  lemma TwoDialsAtOnce() returns (s: Sys, t: Sys)
    ensures Reached(s) && Writer(PcOf(s, 0)) && Writer(PcOf(s, 1))
    ensures PcOf(s, 0).k == K2 && PcOf(s, 1).k == K3
    ensures Reached(t) && |t.log| == 4 && t.log[2] == Request(K2, Accepted(1)) && t.log[3] == Request(K3, Accepted(2))
    ensures K2 in t.db.attempts && t.db.attempts[K2].state.Initiated?
    ensures K3 in t.db.attempts && t.db.attempts[K3].state.Initiated?
    ensures 7 in t.db.contacts && t.db.contacts[7].count == 2 && |Spent(t.db, 7)| == 3 && !Books(t.db)
  {
    hide Reached;
    s := BothCleared();
    var s1 := ClaimsAndCalls(s, 0, 1, K2, true, RetryScheduled, 1, 1);
    t := ClaimsAndCalls(s1, 1, 2, K3, false, RetryScheduled, 1, 2);
    assert t.db.attempts.Keys == {K1, K2, K3};
    assert Spent(t.db, 7) == {K1, K2, K3};
  }

  // ---- a hold overwrites a newer status -----------------------------------------------------

  /** A run in which an operator closes the contact while its trigger is out, and the hold puts it back to
      PENDING: enqueueing selects it again. */
  lemma ClosedContactIsReopened() returns (s: Sys, t: Sys)
    ensures Reached(s) && s.db.contacts.Keys == {7} && s.db.contacts[7].status.Closed?
    ensures Enabled(s, Record(0, Unavailable, Undecided)) && t == Apply(s, Record(0, Unavailable, Undecided))
    ensures Reached(t) && t.db.contacts.Keys == {7} && Rebuildable(t.db, K1)
  {
    var s0 := FirstQueued();
    var s1 := Dials(s0, 0, K1, OPEN_VIEW, ConfigRejected);
    hide Reached;
    ReachedStep(s1, Operator(7, Closed));
    s := Apply(s1, Operator(7, Closed));
    ReachedStep(s, Record(0, Unavailable, Undecided));
    t := Apply(s, Record(0, Unavailable, Undecided));
  }
}
