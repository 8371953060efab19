/** Data and single transactions of the dial protocol (Dograh engine): contact rows, attempt rows,
    the stream and its guards, and what one delivered job does to them. */
module DialRows {
  import opened Basics

  /** The idempotency key of a job: a contact (hence its campaign) and an attempt number. */
  datatype Key = Key(contact: nat, number: nat)

  datatype ContactStatus =
    | Pending | Dialing | RetryScheduled | Disconnected | Completed | CompletedPartial | Closed | NeedsReview

  /** The three retry columns: `due` says that the due time is set, `retry` stands for the previous attempt
      and the number of the next. */
  datatype Contact = Contact(status: ContactStatus, count: int, due: bool, retry: Option<nat>)

  datatype AttemptState = Initiated | FailedToConnect | Ended

  /** The attempt's latest event, as far as any decision looks at it. */
  datatype Event = NoEvent | HeldEvent | ResumedEvent | AmbiguousEvent | OtherEvent

  /** `ambiguous`: an ambiguous-trigger event was ever recorded. */
  datatype Attempt = Attempt(state: AttemptState, callId: Option<nat>, event: Event, ambiguous: bool, startedAt: int)

  predicate Held(a: Attempt) { a.callId.None? && a.state.FailedToConnect? && a.event.HeldEvent? }

  /** An attempt row that stands: its trigger may have produced a call. */
  predicate Settled(db: Db, k: Key) { k in db.attempts && !Held(db.attempts[k]) }

  predicate Unresolved(a: Attempt) { a.state.FailedToConnect? && a.callId.None? && a.ambiguous }

  /** What the provider's answer to a trigger request means. */
  datatype Answer =
    | Accepted(run: nat)
    | NotSent              // no client configured: no request left the process
    | ConfigRejected       // 401, 402, 403, 404
    | Rejected(systemic: bool)
    | Ambiguous

  /** The request may have produced a call. */
  predicate Live(a: Answer) { a.Accepted? || a.Ambiguous? }

  /** The answers after which the contact is held rather than spent. */
  predicate Holds(a: Answer) { a.NotSent? || a.ConfigRejected? || (a.Rejected? && a.systemic) }

  /** One bounded run listing at the provider. */
  datatype Lookup = Unavailable | Found(runs: seq<nat>)

  /** RecoveryManager's decision on a failed attempt; `Undecided` when it raised. */
  datatype Decision = Schedule | Terminate(status: ContactStatus) | Undecided

  /** No run is known after the listing. */
  predicate NoRun(l: Lookup) { l.Unavailable? || l.runs == [] }

  /** The answers that spend the attempt without a call. */
  predicate Fails(a: Answer, l: Lookup) { !Holds(a) && !a.Accepted? && (a.Ambiguous? ==> NoRun(l)) }

  datatype Db = Db(contacts: map<nat, Contact>, attempts: map<Key, Attempt>)

  predicate Dialable(st: ContactStatus) { st.Pending? || st.Dialing? || st.RetryScheduled? }

  /** What the first-attempt enqueue selects. */
  predicate Rebuildable(db: Db, k: Key)
  {
    k.number == 1 && k.contact in db.contacts
    && db.contacts[k.contact].status.Pending? && db.contacts[k.contact].count == 0
  }

  function Adopted(a: Attempt, run: nat): Attempt { a.(callId := Some(run), event := OtherEvent) }

  function Reopened(a: Attempt): Attempt { a.(state := Initiated) }

  /** FAILED_TO_CONNECT with the given last event; further events of the recovery follow it. */
  function Failed(a: Attempt, ambiguous: bool): Attempt
  {
    a.(state := FailedToConnect, event := OtherEvent, ambiguous := a.ambiguous || ambiguous)
  }

  function Swept(a: Attempt): Attempt
  {
    if a.callId.None? then Failed(a, true) else a.(event := OtherEvent)
  }

  function HeldRow(a: Attempt): Attempt { a.(state := FailedToConnect, event := HeldEvent) }

  function ResumedRow(a: Attempt, now: int): Attempt
  {
    a.(state := Initiated, event := ResumedEvent, startedAt := now)
  }

  function NewAttempt(now: int): Attempt { Attempt(Initiated, None, NoEvent, false, now) }

  function Recovered(c: Contact, number: nat, d: Decision): Contact
  {
    match d
    case Schedule => c.(status := RetryScheduled, due := true, retry := Some(number + 1))
    case Terminate(status) => c.(status := status)
    case Undecided => c
  }

  // ---- the look at a delivered job, up to the durable claim ---------------------------------

  /** Everything the look takes from outside: pause, window, permanent eligibility (campaign,
      suppression, region), the final gate, the run listing and the deferral count. */
  datatype View = View(
    paused: bool, windowOpen: bool, permitted: bool, gateOpen: bool, lookup: Lookup,
    deferralsSpent: bool, inFlightSeconds: int)

  datatype Fate = Acknowledge | Keep | Settle

  datatype LookResult =
    | Stop(fate: Fate)
    | Refused                                // final no-dial verdict, acknowledged
    | ResolveClaim                           // an attempt exists, unresolved and not held
    | Clear(held: bool, status: ContactStatus, count: int)
    | Expired                                // retry abandoned: the listing kept failing
    | Reopen(runs: seq<nat>)                 // the previous attempt has a run after all

  /** The gate before a retry: is the previous attempt really over? None lets the retry proceed. */
  function RetryGate(db: Db, k: Key, v: View): Option<LookResult>
    requires k.number > 1
  {
    var previous := Key(k.contact, k.number - 1);
    if previous !in db.attempts then None
    else
      var p := db.attempts[previous];
      if p.state.Initiated? then Some(Stop(Acknowledge))
      else if p.callId.Some? || !Unresolved(p) then None
      else if v.lookup.Unavailable? then Some(if v.deferralsSpent then Expired else Stop(Keep))
        // The row lock is taken here and everything re-read, the row of this very number included.
      else if k in db.attempts then Some(Stop(Acknowledge))
      else if v.lookup.runs != [] then Some(Reopen(v.lookup.runs))
      else None
  }

  function Look(db: Db, k: Key, now: int, v: View): LookResult
  {
    if k.contact !in db.contacts then Refused
    else if k in db.attempts && db.attempts[k].callId.Some? then Stop(Acknowledge)
    else if k in db.attempts && !Held(db.attempts[k]) then
      if !db.attempts[k].state.Initiated? then Stop(Acknowledge)
      else if now - db.attempts[k].startedAt < v.inFlightSeconds then Stop(Keep)
      else ResolveClaim
    else if v.paused then Stop(Settle)
    else if !v.permitted || !Dialable(db.contacts[k.contact].status) then Refused
    else if !v.windowOpen then Stop(Settle)
    else
      var gate := if k.number > 1 then RetryGate(db, k, v) else None;
      if gate.Some? then gate.value
      else if !v.gateOpen then Stop(Keep)
      else Clear(k in db.attempts, db.contacts[k.contact].status, db.contacts[k.contact].count)
  }

  function AdoptRuns(a: Attempt, runs: seq<nat>): Attempt
    requires runs != []
  {
    if |runs| == 1 then Adopted(a, runs[0]) else a.(event := OtherEvent)
  }

  function LookDb(db: Db, k: Key, r: LookResult): Db
    requires r.Expired? || r.Reopen? ==> k.contact in db.contacts
    requires r.Reopen? ==> k.number > 1 && Key(k.contact, k.number - 1) in db.attempts && r.runs != []
  {
    var c := k.contact;
    match r
    case Expired => db.(contacts := db.contacts[c := db.contacts[c].(status := CompletedPartial)])
    case Reopen(runs) =>
      var p := Key(c, k.number - 1);
      Db(db.contacts[c := db.contacts[c].(status := Dialing)],
         db.attempts[p := AdoptRuns(Reopened(db.attempts[p]), runs)])
    case _ => db
  }

  /** The claim: unique insert, or reuse of the held row. None if another delivery was faster. */
  function ClaimDb(db: Db, k: Key, held: bool, count: int, now: int): Option<Db>
    requires k.contact in db.contacts && (held ==> k in db.attempts)
  {
    if !held && k in db.attempts then None
    else Some(Db(
      db.contacts[k.contact := Contact(Dialing, count + 1, false, None)],
      db.attempts[k := if held then ResumedRow(db.attempts[k], now) else NewAttempt(now)]))
  }

  /** An orphaned claim, or an ambiguous trigger, after its run listing. */
  function AfterLookup(db: Db, k: Key, lookup: Lookup, d: Decision): Db
    requires k in db.attempts && k.contact in db.contacts
  {
    if !NoRun(lookup) then db.(attempts := db.attempts[k := AdoptRuns(db.attempts[k], lookup.runs)])
    else Db(db.contacts[k.contact := Recovered(db.contacts[k.contact], k.number, d)],
            db.attempts[k := Failed(db.attempts[k], true)])
  }

  /** The outcome of a trigger, committed. A hold puts status and count back, not the retry columns. */
  function RecordDb(db: Db, k: Key, a: Answer, status: ContactStatus, count: int, lookup: Lookup, d: Decision): Db
    requires k in db.attempts && k.contact in db.contacts
  {
    if Holds(a) then
      Db(db.contacts[k.contact := db.contacts[k.contact].(status := status, count := count)],
         db.attempts[k := HeldRow(db.attempts[k])])
    else match a
      case Accepted(run) => db.(attempts := db.attempts[k := Adopted(db.attempts[k], run)])
      case Ambiguous => AfterLookup(db, k, lookup, d)
      case _ => Db(db.contacts[k.contact := Recovered(db.contacts[k.contact], k.number, d)],
                   db.attempts[k := Failed(db.attempts[k], false)])
  }

  predicate Overdue(db: Db, k: Key, cutoff: int)
  {
    && k in db.attempts && k.contact in db.contacts
    && db.attempts[k].state.Initiated? && db.attempts[k].startedAt < cutoff
  }

  predicate Sweepable(db: Db, k: Key, cutoff: int)
  {
    Overdue(db, k, cutoff) && db.contacts[k.contact].status.Dialing?
  }

  function SweepDb(db: Db, k: Key): Db
    requires k in db.attempts && k.contact in db.contacts
  {
    Db(db.contacts[k.contact := db.contacts[k.contact].(status := NeedsReview)],
       db.attempts[k := Swept(db.attempts[k])])
  }

  /** The provider's completion webhook, on an attempt in flight or provisionally failed. */
  predicate WebhookAccepts(a: Attempt) { a.state.Initiated? || Unresolved(a) }

  function WebhookDb(
    db: Db, k: Key, run: Option<nat>, connected: bool, status: ContactStatus, d: Decision): Db
    requires k in db.attempts && k.contact in db.contacts
  {
    var a := db.attempts[k];
    Db(db.contacts[k.contact := Recovered(db.contacts[k.contact].(status := status), k.number, d)],
       db.attempts[k := a.(callId := if a.callId.Some? then a.callId else run, event := OtherEvent,
                           state := if connected then Ended else FailedToConnect)])
  }
}
