/** The statements the dialer worker, the attempt repository and the stuck-call sweeper run against
    the two tables, each tied to the transaction the dial protocol is made of. */
module DialStore {
  import opened Basics
  import opened DialRows

  datatype Prior = Prior(status: ContactStatus, count: int)

  datatype Resolution = AlreadyProcessed | InFlight | Reconciled | AmbiguousRecovery

  /** Oldest first, ties by key. */
  predicate Before(t: Db, j: Key, k: Key)
    requires j in t.attempts && k in t.attempts
  {
    var a, b := t.attempts[j].startedAt, t.attempts[k].startedAt;
    a < b || (a == b && (j.contact < k.contact || (j.contact == k.contact && j.number <= k.number)))
  }

  /** In flight since before the cutoff, its contact still DIALING, and not locked. */
  function Stuck(t: Db, cutoff: int, locked: set<Key>): set<Key>
  {
    set k | k in t.attempts && k !in locked && t.attempts[k].state.Initiated? && t.attempts[k].startedAt < cutoff
            && k.contact in t.contacts && t.contacts[k.contact].status.Dialing?
  }

  // ---- what a row says afterwards, field by field -------------------------------------------

  /** One run of the listing is the attempt's; of several none is chosen. */
  predicate TakesRuns(a: Attempt, b: Attempt, runs: seq<nat>)
  {
    && b.state == a.state && b.ambiguous == a.ambiguous && b.startedAt == a.startedAt && b.event == OtherEvent
    && (|runs| == 1 ==> b.callId == Some(runs[0])) && (|runs| != 1 ==> b.callId == a.callId)
  }

  /** Failed to connect, its call id as it was. */
  predicate FailsRow(a: Attempt, b: Attempt, ambiguous: bool)
  {
    b.state == FailedToConnect && b.callId == a.callId && b.startedAt == a.startedAt && b.event == OtherEvent
    && (b.ambiguous <==> ambiguous || a.ambiguous)
  }

  /** Recovery schedules the next number, stops with a status, or raised. */
  predicate Follows(c: Contact, d: Contact, number: nat, decision: Decision)
  {
    d.count == c.count
    && match decision
       case Schedule => d.status == RetryScheduled && d.due && d.retry == Some(number + 1)
       case Terminate(status) => d.status == status && d.due == c.due && d.retry == c.retry
       case Undecided => d == c
  }

  /** Only the row of `k` and its contact differ. */
  predicate OnlyJob(t: Db, u: Db, k: Key)
  {
    && u.attempts.Keys == t.attempts.Keys && u.contacts.Keys == t.contacts.Keys
    && (forall j :: j in t.attempts && j != k ==> u.attempts[j] == t.attempts[j])
    && (forall c :: c in t.contacts && c != k.contact ==> u.contacts[c] == t.contacts[c])
  }

  function Elems(rows: seq<Key>): set<Key> { set k | k in rows }

  lemma ElemsStep(rows: seq<Key>, i: nat)
    requires i < |rows|
    ensures Elems(rows[..i + 1]) == Elems(rows[..i]) + {rows[i]}
  {
    assert rows[..i + 1] == rows[..i] + [rows[i]];
  }

  /** Distinct rows of the table, oldest first. */
  predicate OldestFirst(t: Db, rows: seq<Key>)
  {
    && (forall k :: k in rows ==> k in t.attempts)
    && forall i, j :: 0 <= i < j < |rows| ==> rows[i] != rows[j] && Before(t, rows[i], rows[j])
  }

  lemma AppendYounger(t: Db, rows: seq<Key>, k: Key)
    requires OldestFirst(t, rows) && k in t.attempts && k !in rows
    requires forall j :: j in rows ==> Before(t, j, k)
    ensures OldestFirst(t, rows + [k])
  {
  }

  lemma NoneTwice(t: Db, rows: seq<Key>)
    requires OldestFirst(t, rows)
    ensures forall i :: 0 <= i < |rows| ==> rows[i] in t.attempts && rows[i] in rows && rows[i] !in rows[..i]
  {
    assert forall i :: 0 <= i < |rows| ==> rows[i] in rows;
  }

  class CallStore {
    var contacts: map<nat, Contact>
    var attempts: map<Key, Attempt>

    function Table(): Db
      reads this
    {
      Db(contacts, attempts)
    }

    /** INSERT under UNIQUE(contact, number). */
    method Insert(k: Key, row: Attempt) returns (inserted: bool)
      modifies this`attempts
      ensures inserted == (k !in old(attempts))
      ensures attempts == if inserted then old(attempts)[k := row] else old(attempts)
    {
      inserted := k !in attempts;
      if inserted {
        attempts := attempts[k := row];
      }
    }

    /** `rival` is a row another worker inserts between the look and the insert, if any. There is
        exactly one row for the key afterwards, exactly one caller created it, and a row that was
        there is returned as it is. */
    method GetOrCreate(k: Key, now: int, rival: Option<Attempt>) returns (a: Attempt, created: bool)
      modifies this`attempts
      ensures k in attempts && attempts[k] == a
      ensures created == (k !in old(attempts) && rival.None?)
      ensures created ==> attempts == old(attempts)[k := a] && a == Attempt(Initiated, None, NoEvent, false, now)
      ensures !created && k in old(attempts) ==> attempts == old(attempts)
      ensures !created && k !in old(attempts) ==> rival.Some? && attempts == old(attempts)[k := rival.value]
    {
      if k in attempts {
        return attempts[k], false;
      }
      if rival.Some? {
        attempts := attempts[k := rival.value];
      }
      created := Insert(k, NewAttempt(now));
      a := attempts[k];
    }

    /** The durable claim at the end of a look: it wins exactly when the protocol's claim does, and
        remembers what a hold has to put back. */
    method ClaimAttempt(k: Key, held: bool, now: int, rival: Option<Attempt>) returns (prior: Option<Prior>)
      requires k.contact in contacts && (held ==> k in attempts)
      modifies this
      ensures held || rival.None? ==>
        var db := ClaimDb(old(Table()), k, held, old(contacts[k.contact].count), now);
        && Table() == (if db.Some? then db.value else old(Table()))
        && prior == (if db.Some? then Some(Prior(old(contacts[k.contact].status), old(contacts[k.contact].count))) else None)
      ensures !held && rival.Some? ==> prior.None? && contacts == old(contacts)
      ensures prior.None? <==> !held && (k in old(attempts) || rival.Some?)
      ensures prior.Some? ==>
        && contacts == old(contacts)[k.contact := Contact(Dialing, old(contacts[k.contact]).count + 1, false, None)]
        && k in attempts && attempts == old(attempts)[k := attempts[k]]
        && attempts[k].state.Initiated? && attempts[k].startedAt == now
        && (held ==> attempts[k].callId == old(attempts[k]).callId && attempts[k].ambiguous == old(attempts[k]).ambiguous)
        && (!held ==> attempts[k].callId.None? && !attempts[k].ambiguous)
    {
      var c := contacts[k.contact];
      var before := Prior(c.status, c.count);
      if held {
        attempts := attempts[k := attempts[k].(state := Initiated, event := ResumedEvent, startedAt := now)];
      } else {
        var a, created := GetOrCreate(k, now, rival);
        if !created {
          return None;
        }
      }
      c := c.(count := c.count + 1);
      c := c.(status := Dialing);
      c := c.(due := false, retry := None);
      contacts := contacts[k.contact := c];
      prior := Some(before);
    }

    /** The provider's configuration is the problem: the attempt is marked held, status and count go
        back, everything else stays. */
    method HoldForProviderHalt(k: Key, prior: Prior)
      requires k in attempts && k.contact in contacts
      modifies this
      ensures attempts == old(attempts)[k := HeldRow(old(attempts[k]))]
      ensures attempts[k] == old(attempts[k]).(state := FailedToConnect, event := HeldEvent)
      ensures contacts == old(contacts)[k.contact :=
        old(contacts[k.contact]).(status := prior.status, count := prior.count)]
    {
      attempts := attempts[k := attempts[k].(state := FailedToConnect, event := HeldEvent)];
      var c := contacts[k.contact].(status := prior.status);
      contacts := contacts[k.contact := c.(count := prior.count)];
    }

    /** A trigger that yielded no run, and recovery's decision about the contact. */
    method RecordTriggerFailure(k: Key, ambiguous: bool, d: Decision)
      requires k in attempts && k.contact in contacts
      modifies this
      ensures attempts == old(attempts)[k := Failed(old(attempts[k]), ambiguous)]
      ensures contacts == old(contacts)[k.contact := Recovered(old(contacts[k.contact]), k.number, d)]
      ensures OnlyJob(old(Table()), Table(), k)
      ensures FailsRow(old(attempts[k]), attempts[k], ambiguous)
      ensures Follows(old(contacts[k.contact]), contacts[k.contact], k.number, d)
    {
      var a := attempts[k].(state := FailedToConnect);
      if ambiguous {
        a := a.(ambiguous := true);
      }
      attempts := attempts[k := a.(event := OtherEvent)];
      match d {
        case Schedule =>
          contacts := contacts[k.contact :=
            contacts[k.contact].(status := RetryScheduled, due := true, retry := Some(k.number + 1))];
        case Terminate(status) =>
          contacts := contacts[k.contact := contacts[k.contact].(status := status)];
        case Undecided =>
      }
      assert d.Undecided? ==> contacts == old(contacts)[k.contact := old(contacts[k.contact])];
    }

    /** One run: adopt it. Several: choose none. */
    method ResolveFoundRuns(k: Key, runs: seq<nat>)
      requires k in attempts && runs != []
      modifies this`attempts
      ensures attempts == old(attempts)[k := AdoptRuns(old(attempts[k]), runs)]
      ensures OnlyJob(old(Table()), Table(), k) && TakesRuns(old(attempts[k]), attempts[k], runs)
    {
      if |runs| > 1 {
        attempts := attempts[k := attempts[k].(event := OtherEvent)];
      } else {
        attempts := attempts[k := attempts[k].(callId := Some(runs[0]), event := OtherEvent)];
      }
    }

    /** The first lookup after an ambiguous trigger or an orphaned claim. */
    method Reconcile(k: Key, lookup: Lookup) returns (resolved: bool)
      requires k in attempts
      modifies this`attempts
      ensures resolved == !NoRun(lookup)
      ensures attempts == if resolved then old(attempts)[k := AdoptRuns(old(attempts[k]), lookup.runs)] else old(attempts)
      ensures resolved <==> lookup.Found? && lookup.runs != []
      ensures resolved ==> OnlyJob(old(Table()), Table(), k) && TakesRuns(old(attempts[k]), attempts[k], lookup.runs)
    {
      if lookup.Unavailable? || lookup.runs == [] {
        return false;
      }
      ResolveFoundRuns(k, lookup.runs);
      resolved := true;
    }

    /** What an answered trigger leaves behind is the protocol's record of it. The job stays on the
        stream only after a hold. */
    method RecordAnswer(k: Key, prior: Prior, a: Answer, lookup: Lookup, d: Decision) returns (held: bool)
      requires k in attempts && k.contact in contacts
      modifies this
      ensures held == Holds(a)
      ensures Table() == RecordDb(old(Table()), k, a, prior.status, prior.count, lookup, d)
      ensures held <==> a.NotSent? || a.ConfigRejected? || (a.Rejected? && a.systemic)
      ensures OnlyJob(old(Table()), Table(), k)
      ensures held ==>
        && attempts[k] == old(attempts[k]).(state := FailedToConnect, event := HeldEvent)
        && contacts[k.contact] == old(contacts[k.contact]).(status := prior.status, count := prior.count)
      ensures a.Accepted? ==>
        attempts[k] == old(attempts[k]).(callId := Some(a.run), event := OtherEvent) && contacts == old(contacts)
      ensures a.Ambiguous? && lookup.Found? && lookup.runs != [] ==>
        TakesRuns(old(attempts[k]), attempts[k], lookup.runs) && contacts == old(contacts)
      ensures a.Ambiguous? && (lookup.Found? ==> lookup.runs == []) ==>
        FailsRow(old(attempts[k]), attempts[k], true) && Follows(old(contacts[k.contact]), contacts[k.contact], k.number, d)
      ensures a.Rejected? && !a.systemic ==>
        FailsRow(old(attempts[k]), attempts[k], false) && Follows(old(contacts[k.contact]), contacts[k.contact], k.number, d)
    {
      held := false;
      match a {
        case NotSent => HoldForProviderHalt(k, prior); held := true;
        case ConfigRejected => HoldForProviderHalt(k, prior); held := true;
        case Rejected(systemic) =>
          if systemic {
            HoldForProviderHalt(k, prior);
            held := true;
          } else {
            RecordTriggerFailure(k, false, d);
          }
        case Ambiguous =>
          var resolved := Reconcile(k, lookup);
          if !resolved {
            RecordTriggerFailure(k, true, d);
          }
        case Accepted(run) =>
          attempts := attempts[k := attempts[k].(callId := Some(run), event := OtherEvent)];
      }
    }

    /** An attempt row without a run that is not held: leave it, wait for it, or treat it as an
        ambiguous trigger; never trigger again. */
    method ResolveUnresolvedClaim(k: Key, now: int, inFlightSeconds: int, lookup: Lookup, d: Decision)
      returns (outcome: Resolution)
      requires k in attempts && k.contact in contacts
      modifies this
      ensures outcome.AlreadyProcessed? <==> !old(attempts[k]).state.Initiated?
      ensures outcome.InFlight? <==>
        old(attempts[k]).state.Initiated? && now - old(attempts[k]).startedAt < inFlightSeconds
      ensures outcome.AlreadyProcessed? || outcome.InFlight? ==> Table() == old(Table())
      ensures outcome.Reconciled? ==> !NoRun(lookup)
      ensures outcome.AmbiguousRecovery? ==> NoRun(lookup)
      ensures outcome.Reconciled? || outcome.AmbiguousRecovery? ==> Table() == AfterLookup(old(Table()), k, lookup, d)
      ensures outcome.Reconciled? ==>
        && lookup.Found? && lookup.runs != [] && contacts == old(contacts)
        && OnlyJob(old(Table()), Table(), k) && TakesRuns(old(attempts[k]), attempts[k], lookup.runs)
      ensures outcome.AmbiguousRecovery? ==>
        && (lookup.Found? ==> lookup.runs == []) && OnlyJob(old(Table()), Table(), k)
        && FailsRow(old(attempts[k]), attempts[k], true)
        && Follows(old(contacts[k.contact]), contacts[k.contact], k.number, d)
    {
      if !attempts[k].state.Initiated? {
        return AlreadyProcessed;
      }
      if now - attempts[k].startedAt < inFlightSeconds {
        return InFlight;
      }
      var resolved := Reconcile(k, lookup);
      if resolved {
        return Reconciled;
      }
      RecordTriggerFailure(k, true, d);
      outcome := AmbiguousRecovery;
    }

    // ---- the stuck-call sweeper -------------------------------------------------------------

    method Oldest(candidates: set<Key>) returns (k: Key)
      requires candidates != {} && candidates <= attempts.Keys
      ensures k in candidates
      ensures forall j :: j in candidates ==> Before(Table(), k, j)
    {
      k :| k in candidates;
      var rest := candidates - {k};
      while rest != {}
        invariant rest <= candidates && k in candidates
        invariant forall j :: j in candidates && j !in rest ==> Before(Table(), k, j)
        decreases |rest|
      {
        var j :| j in rest;
        if !Before(Table(), k, j) {
          k := j;
        }
        rest := rest - {j};
      }
    }

    /** The sweeper's query: at most `limit` stuck attempts that no other transaction has locked,
        oldest first. */
    method SelectStuck(cutoff: int, limit: nat, locked: set<Key>) returns (rows: seq<Key>)
      ensures |rows| <= limit
      ensures forall k :: k in rows ==> k in Stuck(Table(), cutoff, locked)
      ensures OldestFirst(Table(), rows)
      ensures forall i, j :: 0 <= i < j < |rows| ==> attempts[rows[i]].startedAt <= attempts[rows[j]].startedAt
      ensures forall k, j :: k in Stuck(Table(), cutoff, locked) && k !in rows && j in rows ==>
        attempts[j].startedAt <= attempts[k].startedAt
      ensures |rows| < limit ==> Stuck(Table(), cutoff, locked) <= Elems(rows)
      ensures forall k, j :: k in Stuck(Table(), cutoff, locked) && k !in rows && j in rows ==> Before(Table(), j, k)
    {
      var rest := set k | k in attempts && Sweepable(Table(), k, cutoff) && k !in locked;
      assert rest == Stuck(Table(), cutoff, locked);
      rows := [];
      while |rows| < limit && rest != {}
        invariant |rows| <= limit && rest <= Stuck(Table(), cutoff, locked)
        invariant forall k :: k in Stuck(Table(), cutoff, locked) <==> (k in rest || k in rows)
        invariant forall k :: k in rest ==> k !in rows
        invariant OldestFirst(Table(), rows)
        invariant forall k, j :: k in rest && j in rows ==> Before(Table(), j, k)
        decreases |rest|
      {
        var k := Oldest(rest);
        AppendYounger(Table(), rows, k);
        rows := rows + [k];
        rest := rest - {k};
      }
    }

    method MarkForReview(k: Key)
      requires k in attempts && k.contact in contacts
      modifies this
      ensures Table() == SweepDb(old(Table()), k)
      ensures OnlyJob(old(Table()), Table(), k)
      ensures contacts[k.contact] == old(contacts[k.contact]).(status := NeedsReview)
      // A late webhook still finds the row open if it has no call id.
      ensures old(attempts[k]).callId.None? ==> FailsRow(old(attempts[k]), attempts[k], true) && WebhookAccepts(attempts[k])
      ensures old(attempts[k]).callId.Some? ==> attempts[k] == old(attempts[k]).(event := OtherEvent)
    {
      var a := attempts[k];
      if a.callId.None? {
        a := a.(state := FailedToConnect);
        a := a.(ambiguous := true);
      }
      contacts := contacts[k.contact := contacts[k.contact].(status := NeedsReview)];
      attempts := attempts[k := a.(event := OtherEvent)];
    }

    method MarkAll(rows: seq<Key>)
      requires OldestFirst(Table(), rows) && forall k :: k in rows ==> k.contact in contacts
      modifies this
      ensures Table() == SweptDb(old(Table()), Elems(rows))
    {
      hide SweptDb, SweepDb, OldestFirst;
      ghost var was := Table();
      NothingSwept(was);
      NoneTwice(was, rows);
      assert Elems(rows[..0]) == {};
      var i := 0;
      while i < |rows|
        invariant 0 <= i <= |rows|
        invariant Table() == SweptDb(was, Elems(rows[..i]))
      {
        SweptDbStep(was, Elems(rows[..i]), rows[i]);
        ElemsStep(rows, i);
        MarkForReview(rows[i]);
        i := i + 1;
      }
      assert rows[..i] == rows;
    }

    /** One sweep. Each selected attempt is taken out of flight with its contact parked; nothing else
        changes: no attempt appears, no count, no retry, no run id. */
    method SweepStuckAttempts(now: int, threshold: int, limit: nat, locked: set<Key>, blocked: bool)
      returns (rows: seq<Key>)
      modifies this
      ensures |rows| <= limit && (blocked ==> rows == [])
      ensures forall k :: k in rows ==> k in Stuck(old(Table()), now - threshold, locked)
      ensures OldestFirst(old(Table()), rows)
      ensures forall i, j :: 0 <= i < j < |rows| ==> old(attempts)[rows[i]].startedAt <= old(attempts)[rows[j]].startedAt
      ensures !blocked && |rows| < limit ==> Stuck(old(Table()), now - threshold, locked) <= Elems(rows)
      ensures forall k, j :: k in Stuck(old(Table()), now - threshold, locked) && k !in rows && j in rows ==>
        Before(old(Table()), j, k)
      ensures Table() == SweptDb(old(Table()), Elems(rows))
      // A swept row without a call id is failed and ambiguous: a late webhook finds it open.
      ensures contacts.Keys == old(contacts).Keys && attempts.Keys == old(attempts).Keys
      ensures forall c :: c in contacts ==>
        contacts[c] == if exists k :: k in rows && k.contact == c then old(contacts)[c].(status := NeedsReview)
                       else old(contacts)[c]
      ensures forall k :: k in attempts ==>
        if k !in rows then attempts[k] == old(attempts)[k]
        else if old(attempts)[k].callId.None? then FailsRow(old(attempts)[k], attempts[k], true)
        else attempts[k] == old(attempts)[k].(event := OtherEvent)
    {
      if blocked {
        rows := [];
        assert Elems(rows) == {};
        NothingSwept(Table());
        return;
      }
      rows := SelectStuck(now - threshold, limit, locked);
      MarkAll(rows);
    }
  }

  /** The tables with the given attempts out of flight and their contacts parked. */
  function SweptDb(t: Db, chosen: set<Key>): Db
  {
    Db(map c | c in t.contacts ::
         if exists k :: k in chosen && k.contact == c then t.contacts[c].(status := NeedsReview) else t.contacts[c],
       map k | k in t.attempts :: if k in chosen then Swept(t.attempts[k]) else t.attempts[k])
  }

  lemma NothingSwept(t: Db)
    ensures SweptDb(t, {}) == t
  {
  }

  lemma SweptDbStep(t: Db, chosen: set<Key>, k: Key)
    requires k in t.attempts && k.contact in t.contacts && k !in chosen
    ensures SweptDb(t, chosen).attempts.Keys == t.attempts.Keys && SweptDb(t, chosen).contacts.Keys == t.contacts.Keys
    ensures SweptDb(t, chosen + {k}) == SweepDb(SweptDb(t, chosen), k)
  {
    var u, v := SweptDb(t, chosen + {k}), SweepDb(SweptDb(t, chosen), k);
    forall c | c in t.contacts ensures u.contacts[c] == v.contacts[c] {
      if c != k.contact {
        assert (exists j :: j in chosen + {k} && j.contact == c) == (exists j :: j in chosen && j.contact == c);
      } else {
        assert k in chosen + {k};
      }
    }
  }

  /** Nothing a sweep took over is selected by a later one. */
  lemma SweptIsNotStuckAgain(t: Db, k: Key, cutoff: int, later: int, locked: set<Key>)
    requires Sweepable(t, k, cutoff)
    ensures forall j :: j in Stuck(SweepDb(t, k), later, locked) <==>
      j in Stuck(t, later, locked) && j.contact != k.contact
  {
    var u := SweepDb(t, k);
    forall j ensures j in Stuck(u, later, locked) <==> j in Stuck(t, later, locked) && j.contact != k.contact {
      if j.contact != k.contact && j in t.attempts {
        assert j != k && u.attempts[j] == t.attempts[j];
      }
    }
  }
}
