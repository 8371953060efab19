/** Which rows retention may touch and what it makes of them, written out on the rows themselves and
    independently of the engine's selectors. */
module RetentionFacts {
  import opened Basics
  import opened LifecycleData

  /** Retention periods; None and zero both keep for ever. */
  datatype Config = Config(
    transcript: Option<int>, analysis: Option<int>, contact: Option<int>, audit: Option<int>,
    event: Option<int>, history: Option<int>)

  predicate Older(period: Option<int>, at: int, now: int)
  {
    period.Some? && period.value != 0 && at < now - period.value
  }

  /** The contact is under a legal hold of its own or of its campaign. */
  predicate OnHold(db: Db, c: nat)
  {
    c in db.contacts && db.contacts[c].campaign in db.campaigns
    && (db.contacts[c].hold || db.campaigns[db.contacts[c].campaign].hold)
  }

  /** Nobody holds the contact the attempt belongs to. */
  predicate OfFreeContact(db: Db, attempt: nat) { attempt in db.attempts && !OnHold(db, db.attempts[attempt]) }

  /** An analysis of the attempt is not finished yet: its input must stay. */
  predicate AwaitsAnalysis(db: Db, attempt: nat)
  {
    exists x :: x in db.analyses && db.analyses[x].attempt == attempt && !db.analyses[x].terminal
  }

  // ---- what may go --------------------------------------------------------------------------

  predicate MessageGoes(db: Db, cfg: Config, now: int, m: nat)
  {
    m in db.messages && Older(cfg.transcript, db.messages[m].createdAt, now)
    && db.messages[m].session in db.sessions
    && OfFreeContact(db, db.sessions[db.messages[m].session].attempt)
    && !AwaitsAnalysis(db, db.sessions[db.messages[m].session].attempt)
  }

  predicate LinkGoes(db: Db, cfg: Config, now: int, i: nat)
  {
    i in db.sessions && db.sessions[i].link.Some? && Older(cfg.transcript, db.sessions[i].startedAt, now)
    && OfFreeContact(db, db.sessions[i].attempt)
  }

  predicate SnapshotGoes(db: Db, cfg: Config, now: int, i: nat)
  {
    i in db.snapshots && db.snapshots[i].content.Some? && Older(cfg.transcript, db.snapshots[i].at, now)
    && OfFreeContact(db, db.snapshots[i].attempt)
  }

  predicate TextGoes(db: Db, cfg: Config, now: int, i: nat)
  {
    i in db.analyses && db.analyses[i].text.Some? && Older(cfg.analysis, db.analyses[i].createdAt, now)
    && db.analyses[i].terminal && !OnHold(db, db.analyses[i].contact)
  }

  predicate NumberGoes(db: Db, cfg: Config, now: int, i: nat)
  {
    i in db.contacts && db.contacts[i].purgedAt.None? && db.contacts[i].campaign in db.campaigns
    && var g := db.campaigns[db.contacts[i].campaign];
       g.completed && g.closedAt.Some? && Older(cfg.contact, g.closedAt.value, now) && !OnHold(db, i)
  }

  predicate AuditGoes(db: Db, cfg: Config, now: int, i: nat)
  {
    i in db.audit && Older(cfg.audit, db.audit[i].createdAt, now)
    && match db.audit[i].subject
       case OfContact(c) => !OnHold(db, c)
       case OfCampaign(g) => !(g in db.campaigns && db.campaigns[g].hold)
       case _ => true
  }

  predicate EventGoes(db: Db, cfg: Config, now: int, i: nat)
  {
    i in db.events && Older(cfg.event, db.events[i], now)
  }

  predicate RunGoes(db: Db, cfg: Config, now: int, run: nat, i: nat)
  {
    i in db.runs && i != run && Older(cfg.history, db.runs[i], now)
  }

  // ---- what becomes of it -------------------------------------------------------------------

  /** Rows deleted: only what may go; everything that may, once `done`. */
  ghost predicate Deleted<T>(was: map<nat, T>, left: map<nat, T>, goes: nat -> bool, done: bool)
  {
    && (forall i :: i in left ==> i in was && left[i] == was[i])
    && (forall i :: i in was && i !in left ==> goes(i))
    && (done ==> forall i :: i in left ==> !goes(i))
  }

  /** Rows cleared: as they were, or cleared if they may be; all of those, once `done`. */
  ghost predicate Cleared<T>(was: map<nat, T>, left: map<nat, T>, goes: nat -> bool, clear: (nat, T) -> T, done: bool)
  {
    && left.Keys == was.Keys
    && (forall i :: i in was ==> left[i] == was[i] || (goes(i) && left[i] == clear(i, was[i])))
    && (done ==> forall i :: i in was && goes(i) ==> left[i] == clear(i, was[i]))
  }

  /** What a run leaves, class by class. */
  ghost predicate Leaves(was: Db, left: Db, cfg: Config, now: int, run: nat, done: bool)
  {
    && left.campaigns == was.campaigns && left.attempts == was.attempts
    && Deleted(was.messages, left.messages, (i: nat) => MessageGoes(was, cfg, now, i), done)
    && Cleared(was.sessions, left.sessions, (i: nat) => LinkGoes(was, cfg, now, i),
               (i: nat, r: Session) => Session(r.attempt, r.startedAt, None), done)
    && Cleared(was.snapshots, left.snapshots, (i: nat) => SnapshotGoes(was, cfg, now, i),
               (i: nat, r: Snapshot) => Snapshot(r.attempt, r.at, None), done)
    && Cleared(was.analyses, left.analyses, (i: nat) => TextGoes(was, cfg, now, i),
               (i: nat, r: Analysis) => Analysis(r.attempt, r.contact, r.createdAt, r.terminal, None, r.score), done)
    && Cleared(was.contacts, left.contacts, (i: nat) => NumberGoes(was, cfg, now, i),
               (i: nat, r: Contact) => Contact(r.campaign, Placeholder(i), Some(now), r.hold, r.status, r.count), done)
    && Deleted(was.audit, left.audit, (i: nat) => AuditGoes(was, cfg, now, i), done)
    && Deleted(was.events, left.events, (i: nat) => EventGoes(was, cfg, now, i), done)
    && Deleted(was.runs, left.runs, (i: nat) => RunGoes(was, cfg, now, run, i), done)
  }
}
