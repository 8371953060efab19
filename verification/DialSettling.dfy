/** What becomes of a job read while its campaign is paused or its calling window closed: the Redis
    statements in the order the worker sends them. `stops` is the number of statements after which the
    worker dies, so each contract speaks about every point it can stop at. */
module DialSettling {
  import opened Basics
  import opened DialRows
  import opened DialProtocol

  datatype Disposition = CampaignPaused | WindowDeferred | AlreadyProcessed | Held

  /** A first attempt whose contact is PENDING and has spent none. */
  predicate Untouched(db: Db, k: Key)
  {
    k.number == 1 && k.contact in db.contacts
    && db.contacts[k.contact].status.Pending? && db.contacts[k.contact].count == 0
  }

  predicate Dialled(db: Db, k: Key) { k in db.attempts && db.attempts[k].callId.Some? }

  class JobQueue {
    var stream: map<nat, Key>
    var guards: set<Key>
    var schedule: map<Key, int>

    /** Guard first, acknowledgement second. Wherever it stops, a first attempt whose message is gone can
        be enqueued again at once, and any other job acknowledged here has been dialled. */
    method SettlePaused(db: Db, m: nat, k: Key, stops: nat) returns (d: Disposition)
      requires m in stream && stream[m] == k
      modifies this
      ensures d.CampaignPaused? <==> Untouched(db, k)
      ensures d.AlreadyProcessed? <==> !Untouched(db, k) && Dialled(db, k)
      ensures schedule == old(schedule)
      ensures stream == old(stream) || stream == old(stream) - {m}
      ensures guards == old(guards) || (d.CampaignPaused? && guards == old(guards) - {k})
      ensures m !in stream ==> (d.CampaignPaused? && k !in guards) || (d.AlreadyProcessed? && Dialled(db, k))
      ensures d.Held? ==> m in stream && guards == old(guards)
      ensures stops >= 2 ==> (m in stream <==> d.Held?)
      ensures DispositionIs(db, m, k, true, false, d)
    {
      if Rebuildable(db, k) {
        d := CampaignPaused;
        if stops > 0 { guards := guards - {k}; }
        if stops > 1 { stream := stream - {m}; }
      } else if Dialled(db, k) {
        d := AlreadyProcessed;
        if stops > 0 { stream := stream - {m}; }
      } else {
        d := Held;
      }
    }

    /** The new home first, then the guard, then the acknowledgement. `due` is the next opening; None if
        the window cannot be evaluated. */
    method SettleOutsideWindow(db: Db, m: nat, k: Key, due: Option<int>, stops: nat) returns (d: Disposition)
      requires m in stream && stream[m] == k
      modifies this
      ensures d.WindowDeferred? <==> due.Some? && (Untouched(db, k) || (!Dialled(db, k) && k.number > 1))
      ensures d.AlreadyProcessed? <==> Dialled(db, k) && !(due.Some? && Untouched(db, k))
      ensures stream == old(stream) || stream == old(stream) - {m}
      ensures guards == old(guards) || (d.WindowDeferred? && Untouched(db, k) && guards == old(guards) - {k})
      ensures schedule == old(schedule) || (due.Some? && schedule == old(schedule)[k := due.value])
      ensures k !in guards && k in old(guards) ==> k in schedule
      ensures m !in stream ==>
        || (k in schedule && due == Some(schedule[k]) && (k.number == 1 ==> Untouched(db, k) && k !in guards))
        || (d.AlreadyProcessed? && Dialled(db, k))
      ensures d.Held? ==> m in stream && guards == old(guards) && schedule == old(schedule)
      ensures stops >= 3 ==> (m in stream <==> d.Held?)
      ensures DispositionIs(db, m, k, false, due.Some?, d)
    {
      if Rebuildable(db, k) && due.Some? {
        d := WindowDeferred;
        if stops > 0 { schedule := schedule[k := due.value]; }
        if stops > 1 { guards := guards - {k}; }
        if stops > 2 { stream := stream - {m}; }
      } else if Dialled(db, k) {
        d := AlreadyProcessed;
        if stops > 0 { stream := stream - {m}; }
      } else if k.number > 1 && due.Some? {
        d := WindowDeferred;
        if stops > 0 { schedule := schedule[k := due.value]; }
        if stops > 1 { stream := stream - {m}; }
      } else {
        d := Held;
      }
    }
  }

  /** The branch taken is the one the protocol's step takes. */
  ghost predicate DispositionIs(db: Db, m: nat, k: Key, paused: bool, due: bool, d: Disposition)
  {
    var s := INITIAL.(db := db, workers := map[0 := Got(m, k)]);
    var pc := AfterSettle(s, 0, paused, due).workers[0];
    match d
    case CampaignPaused => pc == Rebuild(m, k)
    case WindowDeferred => pc == Rebuild(m, k) || (pc == AckOnly(m, k) && k.number > 1)
    case AlreadyProcessed => pc == AckOnly(m, k)
    case Held => pc == Idle
  }
}
