/** The rows that retention and erasure work on, with the two scrubbing actions they share. */
module LifecycleData {
  import opened Basics

  /** A stored number: a line written in one of its forms (form 0 is the canonical one), or the
      placeholder of a scrubbed contact, made from the contact's own id. */
  datatype Phone = Number(line: nat, form: nat) | Placeholder(id: nat)

  /** Idempotent; a value that is not a number is used as it is. */
  function Canonical(p: Phone): Phone
  {
    if p.Number? then p.(form := 0) else p
  }

  datatype Status = Live | Completed | CompletedPartial | Closed

  datatype Campaign = Campaign(completed: bool, closedAt: Option<int>, hold: bool)

  datatype Contact = Contact(campaign: nat, phone: Phone, purgedAt: Option<int>, hold: bool, status: Status, count: nat)

  datatype Session = Session(attempt: nat, startedAt: int, link: Option<string>)

  datatype Message = Message(session: nat, createdAt: int)

  datatype Snapshot = Snapshot(attempt: nat, at: int, content: Option<string>)

  /** `text` stands for summary, feedback, error message and evidence; `score` for what a purge keeps. */
  datatype Analysis = Analysis(attempt: nat, contact: nat, createdAt: int, terminal: bool, text: Option<string>, score: int)

  datatype Subject = NoSubject | OfContact(id: nat) | OfCampaign(id: nat) | OfOther(id: nat)

  datatype AuditRow = AuditRow(subject: Subject, createdAt: int)

  datatype Db = Db(
    campaigns: map<nat, Campaign>,
    contacts: map<nat, Contact>,
    attempts: map<nat, nat>,            // an attempt's contact
    sessions: map<nat, Session>,
    messages: map<nat, Message>,
    snapshots: map<nat, Snapshot>,
    analyses: map<nat, Analysis>,
    audit: map<nat, AuditRow>,
    events: map<nat, int>,              // received at
    runs: map<nat, int>)                // started at

  predicate HeldCampaign(db: Db, g: nat) { g in db.campaigns && db.campaigns[g].hold }

  /** Covered by a legal hold: its own or its campaign's. */
  predicate HeldContact(db: Db, c: nat)
  {
    c in db.contacts && db.contacts[c].campaign in db.campaigns
    && (db.contacts[c].hold || db.campaigns[db.contacts[c].campaign].hold)
  }

  function ClearLinks(m: map<nat, Session>, ids: set<nat>): map<nat, Session>
  {
    map i | i in m :: if i in ids then m[i].(link := None) else m[i]
  }

  function ClearSnapshots(m: map<nat, Snapshot>, ids: set<nat>): map<nat, Snapshot>
  {
    map i | i in m :: if i in ids then m[i].(content := None) else m[i]
  }

  function ClearAnalyses(m: map<nat, Analysis>, ids: set<nat>): map<nat, Analysis>
  {
    map i | i in m :: if i in ids then m[i].(text := None) else m[i]
  }

  function Scrubbed(i: nat, c: Contact, now: int): Contact
  {
    c.(phone := Placeholder(i), purgedAt := Some(now))
  }

  function ScrubContacts(m: map<nat, Contact>, ids: set<nat>, now: int): map<nat, Contact>
  {
    map i | i in m :: if i in ids then Scrubbed(i, m[i], now) else m[i]
  }

  // ---- the unique constraint ----------------------------------------------------------------

  /** A placeholder is only ever the contact's own, and marks a purged contact. */
  ghost predicate OwnPlaceholders(m: map<nat, Contact>)
  {
    forall i :: i in m && m[i].phone.Placeholder? ==> m[i].phone.id == i && m[i].purgedAt.Some?
  }

  ghost predicate UniquePhones(m: map<nat, Contact>)
  {
    forall i, j :: i in m && j in m && i != j && m[i].campaign == m[j].campaign ==> m[i].phone != m[j].phone
  }

  /** Scrubbing any set of contacts never breaks UNIQUE(campaign, number). */
  lemma ScrubKeepsUnique(m: map<nat, Contact>, ids: set<nat>, now: int)
    requires OwnPlaceholders(m) && UniquePhones(m)
    ensures OwnPlaceholders(ScrubContacts(m, ids, now)) && UniquePhones(ScrubContacts(m, ids, now))
  {
    var u := ScrubContacts(m, ids, now);
    forall i, j | i in u && j in u && i != j && u[i].campaign == u[j].campaign ensures u[i].phone != u[j].phone {
      assert m[i].campaign == m[j].campaign;
    }
  }
}
