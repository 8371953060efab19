/** No job is lost: every job ever taken on is at every moment somewhere it will be found again, or
    has been answered. */
module DialHomes {
  import opened Basics
  import opened DialRows
  import opened DialProtocol

  /** No guard stands in the way of enqueueing, or the message put on with it is still there. */
  predicate Reachable(s: Sys, k: Key)
  {
    k in s.guards ==> s.guards[k] in s.stream || s.guards[k] in s.dead
  }

  // ---- invariant ----------------------------------------------------------------------------

  /** What makes it right to acknowledge a first attempt without dropping its guard. */
  ghost predicate Done(s: Sys, k: Key) { Stands(s, k) || k in s.refused }

  ghost predicate Guarded(s: Sys)
  {
    forall k :: k in s.owed && k.number == 1 ==> Done(s, k) || Reachable(s, k)
  }

  /** A contact whose first attempt does not stand has spent nothing. */
  ghost predicate Untouched(db: Db)
  {
    forall c :: c in db.contacts && !Settled(db, Key(c, 1)) ==> db.contacts[c].count == 0
  }

  ghost predicate Messages(s: Sys)
  {
    forall k :: k in s.guards && s.guards[k] in s.stream ==> s.stream[s.guards[k]] == k
  }

  ghost predicate PlaceOk(s: Sys, pc: Pc)
  {
    && (!pc.Idle? && pc.m in s.stream ==> s.stream[pc.m] == pc.k)
    && (pc.Rebuild? || pc.Unguarded? ==> pc.k.number == 1)
    && (pc.Unguarded? && pc.k in s.guards ==> s.guards[pc.k] != pc.m)
    && (pc.Cleared? || Risky(pc) ==> pc.k.number == 1 ==> pc.count == 0)
    && (pc.AckOnly? || (pc.Leaving? && pc.fate.Acknowledge?) ==> pc.k.number == 1 ==> Done(s, pc.k))
  }

  ghost predicate Places(s: Sys) { forall w :: w in s.workers ==> PlaceOk(s, s.workers[w]) }

  ghost predicate HomeInv(s: Sys)
  {
    Guarded(s) && Untouched(s.db) && Messages(s) && Places(s)
  }

  lemma PlaceFacts(s: Sys, w: nat)
    requires Places(s)
    ensures PlaceOk(s, PcOf(s, w))
  {
  }

  // ---- the pieces of a step -----------------------------------------------------------------

  /** What any step may do: standing rows stay, new risks are only taken on rows that do not stand. */
  ghost predicate Steady(s: Sys, t: Sys, w: nat)
  {
    && s.refused <= t.refused
    && (forall j :: Stands(s, j) ==> Settled(t.db, j))
    && (forall v :: v in t.workers && v != w ==> v in s.workers && t.workers[v] == s.workers[v])
    && (w in t.workers && Risky(t.workers[w]) ==> !Stands(s, t.workers[w].k))
  }

  lemma DoneStays(s: Sys, t: Sys, w: nat, k: Key)
    requires Steady(s, t, w) && Done(s, k)
    ensures Done(t, k)
  {
  }

  lemma GuardedStays(s: Sys, t: Sys, w: nat)
    requires Guarded(s) && Steady(s, t, w) && t.guards == s.guards && t.stream == s.stream && t.dead == s.dead
    requires forall k :: k in t.owed && k.number == 1 ==> k in s.owed
    ensures Guarded(t)
  {
    hide Stands, Steady;
    forall k | k in t.owed && k.number == 1 ensures Done(t, k) || Reachable(t, k) {
      if Done(s, k) {
        DoneStays(s, t, w, k);
      }
    }
  }

  /** The worker that moved is where it may be. */
  ghost predicate NewPlaceOk(s: Sys, t: Sys, w: nat)
  {
    w in t.workers && !(w in s.workers && t.workers[w] == s.workers[w]) ==> PlaceOk(t, t.workers[w])
  }

  lemma PlacesStay(s: Sys, t: Sys, w: nat)
    requires Places(s) && Steady(s, t, w) && NewPlaceOk(s, t, w)
    requires forall m :: m in t.stream ==> m in s.stream && t.stream[m] == s.stream[m]
    requires forall k :: k in t.guards ==> k in s.guards && t.guards[k] == s.guards[k]
    ensures Places(t)
  {
    hide Stands, Done;
    forall v | v in t.workers && v in s.workers && t.workers[v] == s.workers[v] ensures PlaceOk(t, t.workers[v]) {
      var pc := t.workers[v];
      assert PlaceOk(s, pc);
      if !pc.Idle? && Done(s, pc.k) {
        DoneStays(s, t, w, pc.k);
      }
    }
  }

  /** A step that writes no row and takes no reference away. */
  lemma QuietKeepsHomes(s: Sys, t: Sys, w: nat)
    requires HomeInv(s) && t.db == s.db && t.owed == s.owed && t.dead == s.dead
    requires t.stream == s.stream && t.guards == s.guards && s.refused <= t.refused
    requires Steady(s, t, w) && NewPlaceOk(s, t, w)
    ensures HomeInv(t)
  {
    GuardedStays(s, t, w);
    PlacesStay(s, t, w);
    hide Places, Guarded, Steady, Stands;
  }

  /** A commit on job `k`. */
  ghost predicate Writes(s: Sys, t: Sys, k: Key)
  {
    && s.db.attempts.Keys <= t.db.attempts.Keys && s.refused <= t.refused
    && t.db.contacts.Keys == s.db.contacts.Keys
    && (forall c :: c in s.db.contacts && c != k.contact ==> t.db.contacts[c] == s.db.contacts[c])
    && (forall j :: j != k && Settled(s.db, j) ==> Settled(t.db, j))
    && k.contact in s.db.contacts
    && (Settled(t.db, Key(k.contact, 1)) || t.db.contacts[k.contact].count == 0)
    && t.stream == s.stream && t.guards == s.guards && t.dead == s.dead
  }

  lemma WriteKeepsUntouched(s: Sys, t: Sys, k: Key)
    requires Untouched(s.db) && Writes(s, t, k)
    ensures Untouched(t.db)
  {
    assert forall c :: c != k.contact ==> Key(c, 1) != k;
  }

  /** A commit on job `k` keeps every first attempt's home. */
  lemma WriteKeepsHomes(s: Sys, t: Sys, k: Key, w: nat)
    requires HomeInv(s) && Writes(s, t, k) && Steady(s, t, w)
    requires NewPlaceOk(s, t, w)
    requires forall j :: j in t.owed && j.number == 1 ==> j in s.owed
    ensures HomeInv(t)
  {
    assert t.stream == s.stream && t.guards == s.guards && t.dead == s.dead;
    WriteKeepsUntouched(s, t, k);
    hide Writes, Untouched, Steady, NewPlaceOk;
    GuardedStays(s, t, w);
    PlacesStay(s, t, w);
  }

  // ---- commits ------------------------------------------------------------------------------

  lemma FirstAttemptStands(db: Db, owed: set<Key>, k: Key)
    requires Ordered(db, owed) && k in owed
    ensures k.contact in db.contacts && k.number >= 1
    ensures k.number > 1 || Settled(db, k) ==> Settled(db, Key(k.contact, 1))
  {
    assert k.number == 1 ==> k == Key(k.contact, 1);
  }

  lemma ClaimShape(db: Db, k: Key, held: bool, count: int, now: int)
    requires k.contact in db.contacts && (if held then k in db.attempts else k !in db.attempts)
    ensures var o := ClaimDb(db, k, held, count, now);
      && o.Some?
      && db.attempts.Keys <= o.value.attempts.Keys && o.value.contacts.Keys == db.contacts.Keys
      && (forall c :: c in db.contacts && c != k.contact ==> o.value.contacts[c] == db.contacts[c])
      && o.value.contacts[k.contact].status.Dialing?
      && (forall j :: j != k && Settled(db, j) ==> Settled(o.value, j))
      && Settled(o.value, k)
  {
  }

  lemma ClaimKeepsHomes(s: Sys, w: nat)
    requires Inv(s) && HomeInv(s) && WorkerEnabled(s, Claim(w))
    ensures HomeInv(AfterClaim(s, w, PcOf(s, w)))
  {
    var pc := PcOf(s, w);
    var k := pc.k;
    PcFacts(s, w);
    FirstAttemptStands(s.db, s.owed, k);
    PlaceFacts(s, w);
    ClaimShape(s.db, k, pc.held, pc.count, s.clock);
    assert !Settled(s.db, k);
    assert k.number == 1 ==> k == Key(k.contact, 1);
    hide Inv, HomeInv, ClaimDb, PcOk, Settled;
    ClaimedKeepsHomes(s, w, pc, ClaimDb(s.db, k, pc.held, pc.count, s.clock).value);
  }

  lemma ClaimedKeepsHomes(s: Sys, w: nat, pc: Pc, db: Db)
    requires HomeInv(s) && PlaceOk(s, pc) && pc.Cleared? && !Settled(s.db, pc.k)
    requires s.db.attempts.Keys <= db.attempts.Keys && db.contacts.Keys == s.db.contacts.Keys
    requires forall c :: c in s.db.contacts && c != pc.k.contact ==> db.contacts[c] == s.db.contacts[c]
    requires pc.k.contact in db.contacts && db.contacts[pc.k.contact].status.Dialing?
    requires forall j :: Settled(s.db, j) ==> Settled(db, j)
    requires Settled(db, Key(pc.k.contact, 1))
    ensures HomeInv(Moved(s, w, Claimed(pc.m, pc.k, pc.status, pc.count)).(db := db))
  {
    hide Settled, Guarded, Untouched, Messages, Places;
    var t := Moved(s, w, Claimed(pc.m, pc.k, pc.status, pc.count)).(db := db);
    assert Writes(s, t, pc.k);
    assert Steady(s, t, w);
    assert PlaceOk(t, t.workers[w]);
    hide Writes, Steady, PlaceOk;
    WriteKeepsHomes(s, t, pc.k, w);
  }

  /** A commit that leaves every row standing and every count as it is. */
  ghost predicate Outcome(db: Db, u: Db, k: Key)
  {
    && k.contact in db.contacts && k in db.attempts
    && u.attempts.Keys == db.attempts.Keys && u.contacts.Keys == db.contacts.Keys
    && (forall c :: c in db.contacts && c != k.contact ==> u.contacts[c] == db.contacts[c])
    && u.contacts[k.contact].count == db.contacts[k.contact].count
    && (forall j :: Settled(db, j) ==> Settled(u, j))
  }

  lemma CommitKeepsHomes(s: Sys, w: nat, m: nat, k: Key, db: Db, scheduled: bool)
    requires HomeInv(s) && k.number >= 1 && Outcome(s.db, db, k)
    requires Settled(s.db, k) && Settled(s.db, Key(k.contact, 1))
    requires m in s.stream ==> s.stream[m] == k
    requires forall v :: v in s.workers && v != w && Risky(s.workers[v]) ==> s.workers[v].k != k
    ensures HomeInv(Committed(Moved(s, w, Leaving(m, k, Acknowledge)), db, k, scheduled))
  {
    hide HomeInv, Settled, PlaceOk, Steady;
    var pc := Leaving(m, k, Acknowledge);
    var t := Committed(Moved(s, w, pc), db, k, scheduled);
    CommitParts(s, w, pc, k, db, scheduled);
    assert Writes(s, t, k);
    hide Writes, Outcome, Committed;
    WriteKeepsHomes(s, t, k, w);
  }

  /** The mechanical part of such a commit. */
  lemma CommitParts(s: Sys, w: nat, pc: Pc, k: Key, db: Db, scheduled: bool)
    requires pc.Leaving? && pc.k == k && (pc.m in s.stream ==> s.stream[pc.m] == k)
    requires Settled(s.db, k) && forall j :: Settled(s.db, j) ==> Settled(db, j)
    requires forall v :: v in s.workers && v != w && Risky(s.workers[v]) ==> s.workers[v].k != k
    ensures var t := Committed(Moved(s, w, pc), db, k, scheduled);
      && Steady(s, t, w) && NewPlaceOk(s, t, w)
      && t == s.(db := db, workers := s.workers[w := pc], owed := t.owed, scheduled := t.scheduled)
      && t.owed == s.owed + (if scheduled then {NextKey(k)} else {})
  {
    hide Settled;
    var t := Committed(Moved(s, w, pc), db, k, scheduled);
    assert Stands(t, k);
  }

  lemma LookupOutcome(db: Db, k: Key, lookup: Lookup, d: Decision)
    requires k in db.attempts && k.contact in db.contacts
    ensures Outcome(db, AfterLookup(db, k, lookup, d), k)
  {
  }

  lemma RecordOutcome(db: Db, k: Key, a: Answer, status: ContactStatus, count: int, lookup: Lookup, d: Decision)
    requires k in db.attempts && k.contact in db.contacts && !Holds(a)
    ensures Outcome(db, RecordDb(db, k, a, status, count, lookup, d), k)
  {
  }

  lemma ResolveKeepsHomes(s: Sys, w: nat, lookup: Lookup, d: Decision)
    requires Inv(s) && HomeInv(s) && WorkerEnabled(s, Resolve(w, lookup, d))
    ensures HomeInv(AfterResolve(s, w, PcOf(s, w).m, PcOf(s, w).k, lookup, d))
  {
    var pc := PcOf(s, w);
    PcFacts(s, w);
    FirstAttemptStands(s.db, s.owed, pc.k);
    PlaceFacts(s, w);
    LeasesHeld(s);
    hide Inv, HomeInv, AfterLookup, PcOk, PlaceOk, NoRun, Committed, Outcome, Settled;
    LookupOutcome(s.db, pc.k, lookup, d);
    CommitKeepsHomes(s, w, pc.m, pc.k, AfterLookup(s.db, pc.k, lookup, d), NoRun(lookup) && d.Schedule?);
  }

  lemma RecordKeepsHomes(s: Sys, w: nat, lookup: Lookup, d: Decision)
    requires Inv(s) && HomeInv(s) && WorkerEnabled(s, Record(w, lookup, d))
    ensures HomeInv(AfterRecord(s, w, PcOf(s, w), lookup, d))
  {
    var pc := PcOf(s, w);
    var k := pc.k;
    PcFacts(s, w);
    FirstAttemptStands(s.db, s.owed, k);
    PlaceFacts(s, w);
    LeasesHeld(s);
    if Holds(pc.answer) {
      HoldKeepsHomes(s, w, lookup, d);
    } else {
      hide Inv, HomeInv, RecordDb, PcOk, PlaceOk, NoRun, Fails, Committed, Outcome, Settled;
      RecordOutcome(s.db, k, pc.answer, pc.status, pc.count, lookup, d);
      var db := RecordDb(s.db, k, pc.answer, pc.status, pc.count, lookup, d);
      CommitKeepsHomes(s, w, pc.m, k, db, Fails(pc.answer, lookup) && d.Schedule?);
    }
  }

  lemma HoldKeepsHomes(s: Sys, w: nat, lookup: Lookup, d: Decision)
    requires Inv(s) && HomeInv(s) && WorkerEnabled(s, Record(w, lookup, d)) && Holds(PcOf(s, w).answer)
    ensures HomeInv(AfterRecord(s, w, PcOf(s, w), lookup, d))
  {
    hide RecordDb, Ordered, ColumnsOk, LogOk, StreamOk, Guarded, Messages, Untouched, Done;
    var pc := PcOf(s, w);
    var k := pc.k;
    OwedFacts(s, w);
    FirstAttemptStands(s.db, s.owed, k);
    PlaceFacts(s, w);
    assert w in s.workers && !Stands(s, k);
    HoldShape(s.db, k, pc.answer, pc.status, pc.count, lookup, d);
    assert k.number == 1 ==> k == Key(k.contact, 1);
    hide Inv, HomeInv, RecordDb, PcOk, Settled, Stands, PlaceOk;
    HeldKeepsHomes(s, w, pc, RecordDb(s.db, k, pc.answer, pc.status, pc.count, lookup, d));
  }

  lemma HeldKeepsHomes(s: Sys, w: nat, pc: Pc, db: Db)
    requires HomeInv(s) && PlaceOk(s, pc) && pc.Triggered? && Risky(pc) && !Stands(s, pc.k)
    requires db.attempts.Keys == s.db.attempts.Keys && db.contacts.Keys == s.db.contacts.Keys
    requires forall c :: c in s.db.contacts && c != pc.k.contact ==> db.contacts[c] == s.db.contacts[c]
    requires pc.k.contact in db.contacts && db.contacts[pc.k.contact].count == pc.count
    requires forall j :: j != pc.k && Settled(s.db, j) ==> Settled(db, j)
    requires pc.k.number == 1 || Settled(db, Key(pc.k.contact, 1))
    ensures HomeInv(Moved(s, w, Leaving(pc.m, pc.k, Keep)).(db := db))
  {
    var k := pc.k;
    hide Guarded, Untouched, Messages, Places, Settled;
    var t := Moved(s, w, Leaving(pc.m, k, Keep)).(db := db);
    assert Steady(s, t, w);
    assert PlaceOk(t, t.workers[w]);
    hide Steady, Stands;
    assert Writes(s, t, k);
    hide PlaceOk;
    hide Writes;
    WriteKeepsHomes(s, t, k, w);
  }

  lemma LookKeepsHomes(s: Sys, w: nat, v: View)
    requires Inv(s) && HomeInv(s) && WorkerEnabled(s, LookAt(w, v))
    ensures HomeInv(ApplyWorker(s, LookAt(w, v)))
  {
    hide Look, Settled, Ordered, ColumnsOk, LogOk, StreamOk, Guarded, Messages, Honest;
    var pc := PcOf(s, w);
    var k := pc.k;
    LookFits(s, k, v);
    var r := Look(s.db, k, s.clock, v);
    assert AfterLook(s, w, pc.m, k, r) == ApplyWorker(s, LookAt(w, v));
    hide ApplyWorker, WorkerEnabled;
    OwedFacts(s, w);
    LeasesHeld(s);
    FirstAttemptStands(s.db, s.owed, k);
    PlaceFacts(s, w);
    LookMeans(s.db, k, s.clock, v);
    assert k.number == 1 ==> k == Key(k.contact, 1);
    hide HomeInv, WorkersOk;
    LookedKeepsHomes(s, w, pc.m, k, r);
  }

  /** What each answer of a look says about the row of the job, and the count it reads. */
  lemma LookMeans(db: Db, k: Key, now: int, v: View)
    requires k.contact in db.contacts
    ensures var r := Look(db, k, now, v);
      && (r.Stop? && r.fate.Acknowledge? && k.number == 1 ==> Settled(db, k))
      && (r.Expired? || r.Reopen? ==> k.number > 1)
      && (r.Clear? ==> r.count == db.contacts[k.contact].count && !Settled(db, k))
  {
  }

  lemma LookedKeepsHomes(s: Sys, w: nat, m: nat, k: Key, r: LookResult)
    requires HomeInv(s) && k.contact in s.db.contacts && (k.number > 1 ==> Settled(s.db, Key(k.contact, 1)))
    requires r.Expired? || r.Reopen? ==> k.number > 1
    requires r.Reopen? ==> Key(k.contact, k.number - 1) in s.db.attempts && r.runs != []
    requires m in s.stream ==> s.stream[m] == k
    requires r.Stop? && r.fate.Acknowledge? && k.number == 1 ==> Settled(s.db, k)
    requires r.Clear? && k.number == 1 ==> r.count == 0
    requires forall v :: v in s.workers && v != w && Risky(s.workers[v]) ==> s.workers[v].k != k
    ensures HomeInv(AfterLook(s, w, m, k, r))
  {
    hide HomeInv;
    if r.Expired? || r.Reopen? {
      PreviousKeepsHomes(s, w, m, k, r);
    } else {
      var t := AfterLook(s, w, m, k, r);
      hide Settled, LookDb;
      assert PlaceOk(t, t.workers[w]);
      assert Steady(s, t, w);
      hide Steady, PlaceOk, Stands, AfterLook;
      QuietKeepsHomes(s, t, w);
    }
  }

  lemma PreviousKeepsHomes(s: Sys, w: nat, m: nat, k: Key, r: LookResult)
    requires HomeInv(s) && k.contact in s.db.contacts && k.number > 1 && Settled(s.db, Key(k.contact, 1))
    requires r.Expired? || (r.Reopen? && Key(k.contact, k.number - 1) in s.db.attempts && r.runs != [])
    requires m in s.stream ==> s.stream[m] == k
    ensures HomeInv(AfterLook(s, w, m, k, r))
  {
    var t := AfterLook(s, w, m, k, r);
    var db := LookDb(s.db, k, r);
    assert forall j :: Settled(s.db, j) ==> Settled(db, j);
    hide Settled, HomeInv;
    assert Writes(s, t, k);
    assert t.owed == s.owed;
    hide LookDb, Writes;
    assert PlaceOk(t, t.workers[w]);
    assert Steady(s, t, w);
    hide AfterLook, Steady, PlaceOk, Stands;
    WriteKeepsHomes(s, t, k, w);
  }

  lemma WebhookOutcome(
    db: Db, k: Key, run: Option<nat>, connected: bool, status: ContactStatus, d: Decision)
    requires k in db.attempts && k.contact in db.contacts && Settled(db, k)
    ensures Outcome(db, WebhookDb(db, k, run, connected, status, d), k)
  {
  }

  lemma WebhookKeepsHomes(s: Sys, k: Key, run: Option<nat>, connected: bool, status: ContactStatus, d: Decision)
    requires Inv(s) && HomeInv(s) && EnvEnabled(s, Webhook(k, run, connected, status, d))
    ensures HomeInv(Committed(s, WebhookDb(s.db, k, run, connected, status, d), k, d.Schedule?))
  {
    FirstAttemptStands(s.db, s.owed, k);
    assert Settled(s.db, k);
    WebhookOutcome(s.db, k, run, connected, status, d);
    hide Inv, HomeInv, WebhookDb, Outcome, Settled;
    LateOutcomeKeepsHomes(s, k, WebhookDb(s.db, k, run, connected, status, d), d.Schedule?);
  }

  lemma LateOutcomeKeepsHomes(s: Sys, k: Key, db: Db, scheduled: bool)
    requires HomeInv(s) && k.number >= 1 && Outcome(s.db, db, k) && Settled(s.db, Key(k.contact, 1))
    ensures HomeInv(Committed(s, db, k, scheduled))
  {
    hide HomeInv, Settled;
    var t := Committed(s, db, k, scheduled);
    assert t.workers == s.workers;
    assert Steady(s, t, 0);
    hide Steady, Stands, PlaceOk;
    assert Writes(s, t, k);
    hide Committed, Writes;
    WriteKeepsHomes(s, t, k, 0);
  }

  lemma SweepKeepsHomes(s: Sys, k: Key, cutoff: int)
    requires Inv(s) && HomeInv(s) && Overdue(s.db, k, cutoff)
    ensures HomeInv(s.(db := SweepDb(s.db, k)))
  {
    FirstAttemptStands(s.db, s.owed, k);
    var db := SweepDb(s.db, k);
    assert forall j :: Settled(s.db, j) ==> Settled(db, j);
    assert db.attempts.Keys == s.db.attempts.Keys && db.contacts.Keys == s.db.contacts.Keys;
    assert NotWaiting(db.contacts[k.contact].status);
    hide Inv, HomeInv, SweepDb, Settled, Overdue;
    SweptKeepsHomes(s, k, db);
  }

  lemma SweptKeepsHomes(s: Sys, k: Key, db: Db)
    requires HomeInv(s) && k.contact in s.db.contacts && Settled(s.db, Key(k.contact, 1))
    requires db.attempts.Keys == s.db.attempts.Keys && db.contacts.Keys == s.db.contacts.Keys
    requires forall c :: c in s.db.contacts && c != k.contact ==> db.contacts[c] == s.db.contacts[c]
    requires forall j :: Settled(s.db, j) ==> Settled(db, j)
    requires NotWaiting(db.contacts[k.contact].status)
    ensures HomeInv(s.(db := db))
  {
    hide HomeInv, Settled;
    var t := s.(db := db);
    assert Steady(s, t, 0);
    hide Stands, Steady, PlaceOk;
    assert Writes(s, t, k);
    assert NewPlaceOk(s, t, 0);
    hide Writes, NewPlaceOk;
    WriteKeepsHomes(s, t, k, 0);
  }

  // ---- steps that write no attempt row ------------------------------------------------------

  lemma NewContactKeepsHomes(s: Sys, c: nat)
    requires Inv(s) && HomeInv(s) && c !in s.db.contacts
    ensures HomeInv(AfterNewContact(s, c))
  {
    var t := AfterNewContact(s, c);
    assert forall j :: Settled(s.db, j) == Settled(t.db, j);
    assert Key(c, 1) !in s.guards;
    assert Steady(s, t, 0);
    forall k | k in t.owed && k.number == 1 ensures Done(t, k) || Reachable(t, k) {
      if k in s.owed && Done(s, k) {
        DoneStays(s, t, 0, k);
      }
    }
    assert Untouched(t.db);
    hide Guarded, Untouched, Steady;
    PlacesStay(s, t, 0);
  }

  /** The contact moved on by hand, or was parked with a dead letter. */
  lemma ParkKeepsHomes(s: Sys, t: Sys, c: nat)
    requires HomeInv(s) && c in s.db.contacts && c in t.db.contacts && NotWaiting(t.db.contacts[c].status)
    requires t.db == s.db.(contacts := s.db.contacts[c := t.db.contacts[c]])
    requires t.db.contacts[c].count == s.db.contacts[c].count
    requires t.owed == s.owed && t.refused == s.refused && t.workers == s.workers
    requires t.guards == s.guards && s.dead <= t.dead
    requires forall m :: m in t.stream ==> m in s.stream && t.stream[m] == s.stream[m]
    requires forall m :: m in s.stream ==> m in t.stream || m in t.dead
    ensures HomeInv(t)
  {
    assert forall j :: Settled(s.db, j) == Settled(t.db, j);
    MovedMessages(s, t);
  }

  /** Messages may be dead-lettered, as far as guards and places look. */
  lemma MovedMessages(s: Sys, t: Sys)
    requires Guarded(s) && Messages(s) && Places(s)
    requires t.owed == s.owed && t.refused == s.refused && t.workers == s.workers
    requires forall j :: Settled(s.db, j) == Settled(t.db, j)
    requires t.guards == s.guards && s.dead <= t.dead
    requires forall m :: m in t.stream ==> m in s.stream && t.stream[m] == s.stream[m]
    requires forall m :: m in s.stream ==> m in t.stream || m in t.dead
    ensures Guarded(t) && Messages(t) && Places(t)
  {
    assert Steady(s, t, 0);
    forall k | k in t.owed && k.number == 1 ensures Done(t, k) || Reachable(t, k) {
      if Done(s, k) {
        DoneStays(s, t, 0, k);
      }
    }
    PlacesStay(s, t, 0);
  }

  lemma DeadLetterKeepsHomes(s: Sys, m: nat, recorded: bool)
    requires Inv(s) && HomeInv(s) && m in s.stream
    ensures HomeInv(AfterDeadLetter(s, m, recorded))
  {
    var t := AfterDeadLetter(s, m, recorded);
    var c := s.stream[m].contact;
    if t.db != s.db {
      hide HomeInv, Inv;
      ParkKeepsHomes(s, t, c);
    } else {
      MovedMessages(s, t);
    }
  }

  /** Message ids are never used twice. */
  ghost predicate MidsBelow(s: Sys)
  {
    && s.nextMid !in s.stream && (forall j :: j in s.guards ==> s.guards[j] < s.nextMid)
    && forall w :: w in s.workers && !s.workers[w].Idle? ==> s.workers[w].m < s.nextMid
  }

  lemma MidsAreBelow(s: Sys)
    requires Inv(s)
    ensures MidsBelow(s)
  {
    forall w | w in s.workers && !s.workers[w].Idle? ensures s.workers[w].m < s.nextMid {
      assert PcOk(s, w, s.workers[w]);
    }
  }

  lemma QueueKeepsHomes(s: Sys, k: Key)
    requires HomeInv(s) && MidsBelow(s) && k !in s.guards
    ensures HomeInv(AfterQueue(s, k))
  {
    var t := AfterQueue(s, k);
    assert forall j :: Done(s, j) == Done(t, j);
    hide Done;
    assert Messages(t);
    forall w | w in t.workers ensures PlaceOk(t, t.workers[w]) {
      assert PlaceOk(s, s.workers[w]);
    }
  }

  lemma ColumnsKeepHomes(s: Sys, t: Sys)
    requires HomeInv(s) && t == s.(db := t.db, scheduled := t.scheduled, refused := t.refused)
    requires t.db.attempts == s.db.attempts && t.db.contacts.Keys == s.db.contacts.Keys && s.refused <= t.refused
    requires forall c :: c in s.db.contacts ==> t.db.contacts[c].count == s.db.contacts[c].count
    ensures HomeInv(t)
  {
    assert forall j :: Settled(s.db, j) == Settled(t.db, j);
    hide Settled;
    assert Steady(s, t, 0);
    GuardedStays(s, t, 0);
    PlacesStay(s, t, 0);
  }

  /** The dispatcher changes no row but retry columns, then puts at most one message on the stream. */
  lemma DispatchKeepsHomes(s: Sys, k: Key, check: Check, more: bool)
    requires HomeInv(s) && MidsBelow(s)
    ensures HomeInv(AfterDispatch(s, k, check, more))
  {
    hide HomeInv, DispatchDb, OpenJobs, Rebuildable;
    DispatchDbShape(s.db, k, check);
    var t := AfterDispatch(s, k, check, more);
    var u := s.(db := t.db, scheduled := t.scheduled, refused := t.refused);
    ColumnsKeepHomes(s, u);
    if Enqueues(s, k, check) {
      assert t == AfterQueue(u, k);
      QueueKeepsHomes(u, k);
    } else {
      assert t == u;
    }
  }

  /** Guards that go, and a whole Redis that goes: guards, messages and dead letters together. */
  lemma LossKeepsHomes(s: Sys, t: Sys)
    requires HomeInv(s)
    requires t == s.(guards := t.guards, stream := t.stream, dead := t.dead, leases := t.leases, clock := t.clock,
                    scheduled := t.scheduled, owed := t.owed)
    requires forall j :: j in t.owed && j.number == 1 ==> j in s.owed
    requires forall j :: j in t.guards ==> j in s.guards && t.guards[j] == s.guards[j]
    requires t.guards == map[] || (t.stream == s.stream && t.dead == s.dead)
    requires t.stream == map[] || t.stream == s.stream
    ensures HomeInv(t)
  {
    assert forall j :: Done(s, j) == Done(t, j);
    hide Done;
    assert Steady(s, t, 0);
    PlacesStay(s, t, 0);
  }

  /** The rebuild takes on no first attempt. */
  lemma FirstIsOwed(s: Sys, k: Key)
    requires Inv(s) && Waiting(s.db, k)
    ensures k.number == 1 ==> k in s.owed
  {
    assert k == Key(k.contact, k.number);
    hide Ordered, LogOk, WorkersOk, StreamOk, Latest;
  }

  lemma EnvKeepsHomes(s: Sys, step: Step)
    requires Inv(s) && HomeInv(s) && EnvEnabled(s, step)
    ensures HomeInv(ApplyEnv(s, step))
  {
    hide Inv, HomeInv, Rebuildable, Waiting, MayHaveRun, Overdue, MidsBelow, AfterDispatch, WebhookDb, SweepDb;
    MidsAreBelow(s);
    match step {
      case NewContact(c) => NewContactKeepsHomes(s, c);
      case Operator(c, status) => ParkKeepsHomes(s, ApplyEnv(s, step), c);
      case Queue(k) => QueueKeepsHomes(s, k);
      case Dispatch(k, check, more) => DispatchKeepsHomes(s, k, check, more);
      case RebuildEntry(k) =>
        FirstIsOwed(s, k);
        LossKeepsHomes(s, ApplyEnv(s, step));
      case DropEntry(_) => LossKeepsHomes(s, ApplyEnv(s, step));
      case DeadLetter(m, recorded) => DeadLetterKeepsHomes(s, m, recorded);
      case Webhook(k, run, connected, status, d) => WebhookKeepsHomes(s, k, run, connected, status, d);
      case Sweep(k, cutoff) => SweepKeepsHomes(s, k, cutoff);
      case GuardExpires(_) => LossKeepsHomes(s, ApplyEnv(s, step));
      case LeaseExpires(_) => LossKeepsHomes(s, ApplyEnv(s, step));
      case RedisWipe => LossKeepsHomes(s, ApplyEnv(s, step));
      case Tick(_) => LossKeepsHomes(s, ApplyEnv(s, step));
      case _ =>
    }
  }

  /** Dropping the guard of a first attempt sent back: enqueueing will select it again. */
  lemma DropGuardKeepsHomes(s: Sys, w: nat)
    requires HomeInv(s) && PcOf(s, w).Rebuild?
    ensures HomeInv(ApplyWorker(s, DropGuard(w)))
  {
    PlaceFacts(s, w);
    var t := ApplyWorker(s, DropGuard(w));
    ReleaseKeepsHomes(s, t, w);
  }

  /** The acknowledgement: the only message it takes away is one its job no longer needs. */
  lemma AckKeepsHomes(s: Sys, w: nat)
    requires HomeInv(s) && (PcOf(s, w).Unguarded? || PcOf(s, w).AckOnly?)
    ensures HomeInv(ApplyWorker(s, Ack(w)))
  {
    PlaceFacts(s, w);
    var pc := PcOf(s, w);
    var t := ApplyWorker(s, Ack(w));
    forall j | j in s.guards && s.guards[j] == pc.m && pc.m in s.stream
      ensures j == pc.k && (j.number == 1 ==> Done(s, j))
    {
      assert s.stream[pc.m] == j;
    }
    ReleaseKeepsHomes(s, t, w);
  }

  /** A worker takes a guard or a message away. */
  lemma ReleaseKeepsHomes(s: Sys, t: Sys, w: nat)
    requires HomeInv(s)
    requires t == s.(workers := t.workers, guards := t.guards, stream := t.stream)
    requires w in t.workers && t.workers == s.workers[w := t.workers[w]] && !Risky(t.workers[w])
    requires PlaceOk(t, t.workers[w])
    requires forall m :: m in t.stream ==> m in s.stream && t.stream[m] == s.stream[m]
    requires forall k :: k in t.guards ==> k in s.guards && t.guards[k] == s.guards[k]
    requires forall k :: k in t.guards && s.guards[k] in s.stream && s.guards[k] !in t.stream ==>
      k.number == 1 ==> Done(s, k)
    ensures HomeInv(t)
  {
    assert Steady(s, t, w);
    hide Stands, PlaceOk;
    PlacesStay(s, t, w);
    forall k | k in t.owed && k.number == 1 ensures Done(t, k) || Reachable(t, k) {
      if Done(s, k) {
        DoneStays(s, t, w, k);
      } else {
        assert Reachable(s, k);
      }
    }
  }

  /** A row with a run is nobody's to take back. */
  lemma DialledStands(s: Sys, k: Key)
    requires Inv(s) && k in s.db.attempts && s.db.attempts[k].callId.Some?
    ensures Stands(s, k)
  {
    forall w | w in s.workers && Risky(s.workers[w]) ensures s.workers[w].k != k {
      assert PcOk(s, w, s.workers[w]);
    }
  }

  lemma SettleKeepsHomes(s: Sys, w: nat, paused: bool, due: bool)
    requires Inv(s) && HomeInv(s) && PcOf(s, w).Got?
    ensures HomeInv(AfterSettle(s, w, paused, due))
  {
    PlaceFacts(s, w);
    var k := PcOf(s, w).k;
    var t := AfterSettle(s, w, paused, due);
    if k in s.db.attempts && s.db.attempts[k].callId.Some? {
      DialledStands(s, k);
    }
    hide Inv, HomeInv, Settled;
    var pc := t.workers[w];
    assert t == s.(workers := s.workers[w := pc], scheduled := t.scheduled);
    assert pc.Idle? || ((pc.Rebuild? || pc.AckOnly?) && pc.k == k && pc.m == PcOf(s, w).m);
    assert pc.Rebuild? ==> k.number == 1;
    assert pc.AckOnly? && k.number == 1 ==> Stands(s, k);
    hide AfterSettle;
    PlacedKeepsHomes(s, t, w);
  }

  lemma PlacedKeepsHomes(s: Sys, t: Sys, w: nat)
    requires HomeInv(s) && w in t.workers && t == s.(workers := s.workers[w := t.workers[w]], scheduled := t.scheduled)
    requires var pc := t.workers[w];
      pc.Idle? || ((pc.Rebuild? || pc.AckOnly?) && (pc.m in s.stream ==> s.stream[pc.m] == pc.k)
                   && (pc.Rebuild? ==> pc.k.number == 1) && (pc.AckOnly? && pc.k.number == 1 ==> Stands(s, pc.k)))
    ensures HomeInv(t)
  {
    hide HomeInv, Settled;
    assert PlaceOk(t, t.workers[w]);
    assert Steady(s, t, w);
    hide PlaceOk, Steady, Stands;
    QuietKeepsHomes(s, t, w);
  }

  lemma MoveKeepsHomes(s: Sys, step: Step)
    requires HomeInv(s) && WorkerEnabled(s, step)
    requires step.Take? || step.GiveUp? || step.Admit? || step.Trigger? || step.Leave? || step.Crash?
    ensures HomeInv(ApplyWorker(s, step))
  {
    var w := step.w;
    PlaceFacts(s, w);
    hide HomeInv, AfterLook, AfterResolve, AfterClaim, AfterRecord, AfterSettle, Look, Settled, Stands;
    var t := ApplyWorker(s, step);
    if step.Leave? {
      LeaveKeepsDone(s, t, w);
    }
    assert PlaceOk(t, t.workers[w]);
    assert t == s.(workers := t.workers, leases := t.leases, log := t.log) && t.workers == s.workers[w := t.workers[w]];
    assert Risky(t.workers[w]) ==> w in s.workers && Risky(s.workers[w]) && s.workers[w].k == t.workers[w].k;
    hide ApplyWorker, WorkerEnabled, PlaceOk, Risky;
    RiskKeepsSteady(s, t, w);
    QuietKeepsHomes(s, t, w);
  }

  lemma RiskKeepsSteady(s: Sys, t: Sys, w: nat)
    requires t.db == s.db && t.refused == s.refused && w in t.workers && t.workers == s.workers[w := t.workers[w]]
    requires Risky(t.workers[w]) ==> w in s.workers && Risky(s.workers[w]) && s.workers[w].k == t.workers[w].k
    ensures Steady(s, t, w)
  {
    hide Settled;
  }

  lemma LeaveKeepsDone(s: Sys, t: Sys, w: nat)
    requires w in t.workers && t.workers == s.workers[w := t.workers[w]] && !Risky(t.workers[w])
    requires t.db == s.db && t.refused == s.refused
    ensures forall k :: Done(s, k) ==> Done(t, k)
  {
  }

  lemma WorkerKeepsHomes(s: Sys, step: Step)
    requires Inv(s) && HomeInv(s) && WorkerEnabled(s, step) && !EnvStep(step)
    ensures HomeInv(ApplyWorker(s, step))
  {
    hide Inv, HomeInv;
    match step {
      case Claim(w) => ClaimKeepsHomes(s, w);
      case Resolve(w, lookup, d) => ResolveKeepsHomes(s, w, lookup, d);
      case Record(w, lookup, d) => RecordKeepsHomes(s, w, lookup, d);
      case LookAt(w, v) => LookKeepsHomes(s, w, v);
      case DropGuard(w) => DropGuardKeepsHomes(s, w);
      case Ack(w) => AckKeepsHomes(s, w);
      case Settle(w, paused, due) => SettleKeepsHomes(s, w, paused, due);
      case _ => MoveKeepsHomes(s, step);
    }
  }

  lemma NextKeepsHomes(s: Sys, t: Sys)
    requires Inv(s) && HomeInv(s) && Next(s, t)
    ensures HomeInv(t)
  {
    hide Inv, HomeInv, EnvEnabled, WorkerEnabled, ApplyEnv, ApplyWorker;
    var step :| Enabled(s, step) && t == Apply(s, step);
    if EnvStep(step) {
      EnvKeepsHomes(s, step);
    } else {
      WorkerKeepsHomes(s, step);
    }
  }

  lemma {:induction false} RunKeepsHomes(trace: seq<Sys>, i: nat)
    requires Run(trace) && trace[0] == INITIAL && i < |trace|
    ensures HomeInv(trace[i])
  {
    hide Next, Inv;
    if i == 0 {
      assert HomeInv(INITIAL);
    } else {
      hide HomeInv;
      RunKeepsHomes(trace, i - 1);
      RunKeepsInv(trace, i - 1);
      assert Next(trace[i - 1], trace[i - 1 + 1]);
      NextKeepsHomes(trace[i - 1], trace[i]);
    }
  }

  // ---- results ------------------------------------------------------------------------------

  /** The acknowledgement comes last: when a worker may acknowledge a first attempt, its attempt stands
      and nobody will take it back, or it was refused, or its guard is not the one of this message. */
  lemma AckIsEarned(trace: seq<Sys>, i: nat, w: nat)
    requires Run(trace) && trace[0] == INITIAL && i < |trace| && Enabled(trace[i], Ack(w))
    requires PcOf(trace[i], w).k.number == 1
    ensures var s := trace[i];
      var pc := PcOf(s, w);
      Stands(s, pc.k) || pc.k in s.refused || pc.k !in s.guards || s.guards[pc.k] != pc.m
  {
    RunKeepsHomes(trace, i);
    PlaceFacts(trace[i], w);
    hide Run, Stands;
  }
}
