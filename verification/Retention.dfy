/** The retention engine: eight classes of rows, each selected by what still needs its action, worked
    off in batches under a runtime budget. */
module Retention {
  import opened Basics
  import opened LifecycleData
  import opened RetentionFacts

  datatype Step = Messages | Links | Snapshots | Analyses | Contacts | Audit | Events | Runs

  function Steps(): seq<Step> { [Messages, Links, Snapshots, Analyses, Contacts, Audit, Events, Runs] }

  function Period(cfg: Config, s: Step): Option<int>
  {
    var p := match s
      case Messages => cfg.transcript
      case Links => cfg.transcript
      case Snapshots => cfg.transcript
      case Analyses => cfg.analysis
      case Contacts => cfg.contact
      case Audit => cfg.audit
      case Events => cfg.event
      case Runs => cfg.history;
    if p == Some(0) then None else p
  }

  // ---- candidates ---------------------------------------------------------------------------

  /** An analysis of the attempt still needs its input. */
  predicate Unfinished(db: Db, attempt: nat)
  {
    exists x :: x in db.analyses && db.analyses[x].attempt == attempt && !db.analyses[x].terminal
  }

  predicate MessageDue(db: Db, m: Message, cutoff: int)
  {
    m.createdAt < cutoff && m.session in db.sessions && db.sessions[m.session].attempt in db.attempts
    && !HeldContact(db, db.attempts[db.sessions[m.session].attempt])
    && !Unfinished(db, db.sessions[m.session].attempt)
  }

  predicate LinkDue(db: Db, s: Session, cutoff: int)
  {
    s.link.Some? && s.startedAt < cutoff && s.attempt in db.attempts && !HeldContact(db, db.attempts[s.attempt])
  }

  predicate SnapshotDue(db: Db, s: Snapshot, cutoff: int)
  {
    s.at < cutoff && s.attempt in db.attempts && !HeldContact(db, db.attempts[s.attempt]) && s.content.Some?
  }

  predicate AnalysisDue(db: Db, a: Analysis, cutoff: int)
  {
    a.createdAt < cutoff && a.terminal && !HeldContact(db, a.contact) && a.text.Some?
  }

  predicate ContactDue(db: Db, c: Contact, cutoff: int)
  {
    c.campaign in db.campaigns
    && var g := db.campaigns[c.campaign];
       g.completed && g.closedAt.Some? && g.closedAt.value < cutoff && !g.hold && !c.hold && c.purgedAt.None?
  }

  predicate AuditDue(db: Db, r: AuditRow, cutoff: int)
  {
    r.createdAt < cutoff
    && (r.subject.OfContact? ==> !HeldContact(db, r.subject.id))
    && (r.subject.OfCampaign? ==> !HeldCampaign(db, r.subject.id))
  }

  /** Rows of the class still past their period; none when the class is disabled. `run` is the current
      run's own row. */
  function Due(db: Db, cfg: Config, now: int, run: nat, s: Step): set<nat>
  {
    var period := Period(cfg, s);
    if period.None? then {}
    else
      var cutoff := now - period.value;
      match s
      case Messages => set i | i in db.messages && MessageDue(db, db.messages[i], cutoff)
      case Links => set i | i in db.sessions && LinkDue(db, db.sessions[i], cutoff)
      case Snapshots => set i | i in db.snapshots && SnapshotDue(db, db.snapshots[i], cutoff)
      case Analyses => set i | i in db.analyses && AnalysisDue(db, db.analyses[i], cutoff)
      case Contacts => set i | i in db.contacts && ContactDue(db, db.contacts[i], cutoff)
      case Audit => set i | i in db.audit && AuditDue(db, db.audit[i], cutoff)
      case Events => set i | i in db.events && db.events[i] < cutoff
      case Runs => set i | i in db.runs && db.runs[i] < cutoff && i != run
  }

  function Act(db: Db, s: Step, ids: set<nat>, now: int): Db
  {
    match s
    case Messages => db.(messages := db.messages - ids)
    case Links => db.(sessions := ClearLinks(db.sessions, ids))
    case Snapshots => db.(snapshots := ClearSnapshots(db.snapshots, ids))
    case Analyses => db.(analyses := ClearAnalyses(db.analyses, ids))
    case Contacts => db.(contacts := ScrubContacts(db.contacts, ids, now))
    case Audit => db.(audit := db.audit - ids)
    case Events => db.(events := db.events - ids)
    case Runs => db.(runs := db.runs - ids)
  }

  // ---- one class ----------------------------------------------------------------------------

  /** No action touches what a hold is looked up in. */
  lemma ActKeepsHolds(db: Db, s: Step, ids: set<nat>, now: int)
    ensures forall c :: HeldContact(Act(db, s, ids, now), c) == HeldContact(db, c)
    ensures forall g :: HeldCampaign(Act(db, s, ids, now), g) == HeldCampaign(db, g)
  {
  }

  lemma ActKeepsUnfinished(db: Db, s: Step, ids: set<nat>, now: int, attempt: nat)
    ensures Unfinished(Act(db, s, ids, now), attempt) == Unfinished(db, attempt)
  {
    var u := Act(db, s, ids, now);
    assert u.analyses.Keys == db.analyses.Keys;
    assert forall x :: x in db.analyses ==>
      u.analyses[x].attempt == db.analyses[x].attempt && u.analyses[x].terminal == db.analyses[x].terminal;
  }

  /** A batch removes exactly its own rows from the candidates of its class. */
  lemma BatchShrinksItsClass(db: Db, cfg: Config, now: int, run: nat, s: Step, ids: set<nat>)
    ensures Due(Act(db, s, ids, now), cfg, now, run, s) == Due(db, cfg, now, run, s) - ids
  {
    ActKeepsHolds(db, s, ids, now);
    forall a: nat ensures Unfinished(Act(db, s, ids, now), a) == Unfinished(db, a) {
      ActKeepsUnfinished(db, s, ids, now, a);
    }
    hide HeldContact, HeldCampaign, Unfinished;
  }

  lemma ActKeepsMessagesDue(db: Db, cfg: Config, now: int, run: nat, s: Step, ids: set<nat>)
    requires !s.Messages?
    ensures Due(Act(db, s, ids, now), cfg, now, run, Messages) == Due(db, cfg, now, run, Messages)
  {
    var u := Act(db, s, ids, now);
    ActKeepsHolds(db, s, ids, now);
    forall a: nat ensures Unfinished(u, a) == Unfinished(db, a) {
      ActKeepsUnfinished(db, s, ids, now, a);
    }
    assert u.messages == db.messages && u.attempts == db.attempts && u.sessions.Keys == db.sessions.Keys;
    assert forall i :: i in db.sessions ==> u.sessions[i].attempt == db.sessions[i].attempt;
    hide HeldContact, HeldCampaign, Unfinished, Act;
    assert forall m, cutoff :: MessageDue(u, m, cutoff) == MessageDue(db, m, cutoff);
  }

  /** A batch of one class changes the candidates of no other. */
  lemma BatchKeepsOtherClasses(db: Db, cfg: Config, now: int, run: nat, s: Step, ids: set<nat>, other: Step)
    requires other != s
    ensures Due(Act(db, s, ids, now), cfg, now, run, other) == Due(db, cfg, now, run, other)
  {
    if other.Messages? {
      ActKeepsMessagesDue(db, cfg, now, run, s, ids);
    } else {
      ActKeepsHolds(db, s, ids, now);
      hide HeldContact, HeldCampaign, MessageDue;
    }
  }

  lemma ActsAddUp(db: Db, s: Step, a: set<nat>, b: set<nat>, now: int)
    ensures Act(Act(db, s, a, now), s, b, now) == Act(db, s, a + b, now)
  {
  }

  lemma ActsCommute(db: Db, s: Step, a: set<nat>, t: Step, b: set<nat>, now: int)
    requires s != t
    ensures Act(Act(db, s, a, now), t, b, now) == Act(Act(db, t, b, now), s, a, now)
  {
    hide ClearLinks, ClearSnapshots, ClearAnalyses, ScrubContacts;
  }

  // ---- the whole run ------------------------------------------------------------------------

  /** One class worked off completely. */
  function WorkedOff(db: Db, cfg: Config, now: int, run: nat, s: Step): Db
  {
    Act(db, s, Due(db, cfg, now, run, s), now)
  }

  /** Some classes worked off, one after the other: what an unbounded run does. */
  function Clean(db: Db, cfg: Config, now: int, run: nat, steps: seq<Step>): Db
    decreases |steps|
  {
    if steps == [] then db else Clean(WorkedOff(db, cfg, now, run, steps[0]), cfg, now, run, steps[1..])
  }

  predicate Distinct(steps: seq<Step>) { forall i, j :: 0 <= i < j < |steps| ==> steps[i] != steps[j] }

  lemma NothingDueNothingDone(db: Db, s: Step, now: int)
    ensures Act(db, s, {}, now) == db
  {
    assert ClearLinks(db.sessions, {}) == db.sessions;
    assert ClearSnapshots(db.snapshots, {}) == db.snapshots;
    assert ClearAnalyses(db.analyses, {}) == db.analyses;
    assert ScrubContacts(db.contacts, {}, now) == db.contacts;
    assert forall m: map<nat, Message> :: m - {} == m;
    assert forall m: map<nat, AuditRow> :: m - {} == m;
    assert forall m: map<nat, int> :: m - {} == m;
  }

  /** Whatever batch of still-due rows a run gets through before it stops, the outcome of the unbounded
      run is the same: a stopped run only has to be run again. */
  lemma {:induction false} BatchKeepsOutcome(
    db: Db, cfg: Config, now: int, run: nat, steps: seq<Step>, s: Step, ids: set<nat>)
    requires Distinct(steps) && s in steps && ids <= Due(db, cfg, now, run, s)
    ensures Clean(Act(db, s, ids, now), cfg, now, run, steps) == Clean(db, cfg, now, run, steps)
    decreases |steps|
  {
    hide Act, Due;
    var h := steps[0];
    var u := Act(db, s, ids, now);
    if s == h {
      var due := Due(db, cfg, now, run, s);
      BatchShrinksItsClass(db, cfg, now, run, s, ids);
      ActsAddUp(db, s, ids, due - ids, now);
      assert ids + (due - ids) == due;
    } else {
      var due := Due(db, cfg, now, run, h);
      BatchKeepsOtherClasses(db, cfg, now, run, s, ids, h);
      ActsCommute(db, s, ids, h, due, now);
      BatchKeepsOtherClasses(db, cfg, now, run, h, due, s);
      assert s in steps[1..];
      BatchKeepsOutcome(Act(db, h, due, now), cfg, now, run, steps[1..], s, ids);
    }
  }

  /** After an unbounded run nothing is due in any class it went through, and no other class's
      candidates changed. */
  lemma {:induction false} CleanLeavesNothingDue(db: Db, cfg: Config, now: int, run: nat, steps: seq<Step>, s: Step)
    requires Distinct(steps)
    ensures Due(Clean(db, cfg, now, run, steps), cfg, now, run, s)
         == if s in steps then {} else Due(db, cfg, now, run, s)
    decreases |steps|
  {
    hide Act, Due;
    if steps != [] {
      var h := steps[0];
      var due := Due(db, cfg, now, run, h);
      CleanLeavesNothingDue(WorkedOff(db, cfg, now, run, h), cfg, now, run, steps[1..], s);
      if s == h {
        BatchShrinksItsClass(db, cfg, now, run, h, due);
        assert s !in steps[1..];
      } else {
        BatchKeepsOtherClasses(db, cfg, now, run, h, due, s);
        assert s in steps <==> s in steps[1..];
      }
    }
  }

  // ---- row by row ---------------------------------------------------------------------------

  /** The selectors pick exactly the rows that may go. */
  lemma DueIsWhatGoes(db: Db, cfg: Config, now: int, run: nat)
    ensures forall i :: i in Due(db, cfg, now, run, Messages) <==> MessageGoes(db, cfg, now, i)
    ensures forall i :: i in Due(db, cfg, now, run, Links) <==> LinkGoes(db, cfg, now, i)
    ensures forall i :: i in Due(db, cfg, now, run, Snapshots) <==> SnapshotGoes(db, cfg, now, i)
    ensures forall i :: i in Due(db, cfg, now, run, Analyses) <==> TextGoes(db, cfg, now, i)
    ensures forall i :: i in Due(db, cfg, now, run, Contacts) <==> NumberGoes(db, cfg, now, i)
    ensures forall i :: i in Due(db, cfg, now, run, Audit) <==> AuditGoes(db, cfg, now, i)
    ensures forall i :: i in Due(db, cfg, now, run, Events) <==> EventGoes(db, cfg, now, i)
    ensures forall i :: i in Due(db, cfg, now, run, Runs) <==> RunGoes(db, cfg, now, run, i)
  {
    assert forall a: nat :: Unfinished(db, a) == AwaitsAnalysis(db, a);
    hide Unfinished, AwaitsAnalysis;
  }

  /** What a run has done so far changes nothing about what a row's fate depends on. */
  lemma LeavesKeepsConditions(was: Db, left: Db, cfg: Config, now: int, run: nat)
    requires Leaves(was, left, cfg, now, run, false)
    ensures forall c :: OnHold(left, c) == OnHold(was, c)
    ensures forall a :: OfFreeContact(left, a) == OfFreeContact(was, a)
    ensures forall a :: AwaitsAnalysis(left, a) == AwaitsAnalysis(was, a)
    ensures left.sessions.Keys == was.sessions.Keys
    ensures forall i :: i in was.sessions ==> left.sessions[i].attempt == was.sessions[i].attempt
  {
    hide MessageGoes, LinkGoes, SnapshotGoes, TextGoes, NumberGoes, AuditGoes, EventGoes, RunGoes;
    assert forall i :: i in was.contacts ==> left.contacts[i].hold == was.contacts[i].hold && left.contacts[i].campaign == was.contacts[i].campaign;
    assert forall i :: i in was.analyses ==> left.analyses[i].attempt == was.analyses[i].attempt && left.analyses[i].terminal == was.analyses[i].terminal;
  }

  lemma BatchLeaves(was: Db, left: Db, cfg: Config, now: int, run: nat, s: Step, ids: set<nat>)
    requires Leaves(was, left, cfg, now, run, false) && ids <= Due(left, cfg, now, run, s)
    ensures Leaves(was, Act(left, s, ids, now), cfg, now, run, false)
  {
    hide Leaves, Due, Act;
    if s.Messages? || s.Audit? || s.Events? || s.Runs? {
      BatchDeletes(was, left, cfg, now, run, s, ids);
    } else {
      BatchClears(was, left, cfg, now, run, s, ids);
    }
  }

  lemma BatchDeletes(was: Db, left: Db, cfg: Config, now: int, run: nat, s: Step, ids: set<nat>)
    requires Leaves(was, left, cfg, now, run, false) && ids <= Due(left, cfg, now, run, s)
    requires s.Messages? || s.Audit? || s.Events? || s.Runs?
    ensures Leaves(was, Act(left, s, ids, now), cfg, now, run, false)
  {
    LeavesKeepsConditions(was, left, cfg, now, run);
    DueIsWhatGoes(left, cfg, now, run);
    hide Due, OnHold, OfFreeContact, AwaitsAnalysis, LinkGoes, SnapshotGoes, TextGoes, NumberGoes;
  }

  lemma BatchClears(was: Db, left: Db, cfg: Config, now: int, run: nat, s: Step, ids: set<nat>)
    requires Leaves(was, left, cfg, now, run, false) && ids <= Due(left, cfg, now, run, s)
    requires s.Links? || s.Snapshots? || s.Analyses? || s.Contacts?
    ensures Leaves(was, Act(left, s, ids, now), cfg, now, run, false)
  {
    LeavesKeepsConditions(was, left, cfg, now, run);
    DueIsWhatGoes(left, cfg, now, run);
    hide Due, OnHold, OfFreeContact, AwaitsAnalysis, MessageGoes, AuditGoes, EventGoes, RunGoes;
  }

  lemma NothingDueLeaves(was: Db, left: Db, cfg: Config, now: int, run: nat)
    requires Leaves(was, left, cfg, now, run, false) && forall s :: Due(left, cfg, now, run, s) == {}
    ensures Leaves(was, left, cfg, now, run, true)
  {
    hide Due, MessageGoes, LinkGoes, SnapshotGoes, TextGoes, NumberGoes, AuditGoes, EventGoes, RunGoes;
    UntouchedStillGoes(was, left, cfg, now, run);
    NothingGoes(left, cfg, now, run);
  }

  lemma NothingGoes(db: Db, cfg: Config, now: int, run: nat)
    requires forall s :: Due(db, cfg, now, run, s) == {}
    ensures forall i :: !MessageGoes(db, cfg, now, i) && !LinkGoes(db, cfg, now, i) && !SnapshotGoes(db, cfg, now, i)
    ensures forall i :: !TextGoes(db, cfg, now, i) && !NumberGoes(db, cfg, now, i) && !AuditGoes(db, cfg, now, i)
    ensures forall i :: !EventGoes(db, cfg, now, i) && !RunGoes(db, cfg, now, run, i)
  {
    hide Due, MessageGoes, LinkGoes, SnapshotGoes, TextGoes, NumberGoes, AuditGoes, EventGoes, RunGoes;
    DueIsWhatGoes(db, cfg, now, run);
    assert Due(db, cfg, now, run, Messages) == {} && Due(db, cfg, now, run, Links) == {};
    assert Due(db, cfg, now, run, Snapshots) == {} && Due(db, cfg, now, run, Analyses) == {};
    assert Due(db, cfg, now, run, Contacts) == {} && Due(db, cfg, now, run, Audit) == {};
    assert Due(db, cfg, now, run, Events) == {} && Due(db, cfg, now, run, Runs) == {};
  }

  /** A row that may go and is as it was may still go. */
  lemma UntouchedStillGoes(was: Db, left: Db, cfg: Config, now: int, run: nat)
    requires Leaves(was, left, cfg, now, run, false)
    ensures forall i :: MessageGoes(was, cfg, now, i) && i in left.messages ==> MessageGoes(left, cfg, now, i)
    ensures forall i :: LinkGoes(was, cfg, now, i) && left.sessions[i] == was.sessions[i] ==> LinkGoes(left, cfg, now, i)
    ensures forall i :: SnapshotGoes(was, cfg, now, i) && left.snapshots[i] == was.snapshots[i] ==>
      SnapshotGoes(left, cfg, now, i)
    ensures forall i :: TextGoes(was, cfg, now, i) && left.analyses[i] == was.analyses[i] ==> TextGoes(left, cfg, now, i)
    ensures forall i :: NumberGoes(was, cfg, now, i) && left.contacts[i] == was.contacts[i] ==> NumberGoes(left, cfg, now, i)
    ensures forall i :: AuditGoes(was, cfg, now, i) && i in left.audit ==> AuditGoes(left, cfg, now, i)
    ensures forall i :: EventGoes(was, cfg, now, i) && i in left.events ==> EventGoes(left, cfg, now, i)
    ensures forall i :: RunGoes(was, cfg, now, run, i) && i in left.runs ==> RunGoes(left, cfg, now, run, i)
  {
    LeavesKeepsConditions(was, left, cfg, now, run);
    hide OnHold, OfFreeContact, AwaitsAnalysis;
  }

  lemma NothingDone(db: Db, cfg: Config, now: int, run: nat)
    ensures Leaves(db, db, cfg, now, run, false)
  {
  }

  lemma {:induction false} CleanLeavesSome(was: Db, left: Db, cfg: Config, now: int, run: nat, steps: seq<Step>)
    requires Leaves(was, left, cfg, now, run, false)
    ensures Leaves(was, Clean(left, cfg, now, run, steps), cfg, now, run, false)
    decreases |steps|
  {
    hide Leaves, Due, Act;
    if steps != [] {
      BatchLeaves(was, left, cfg, now, run, steps[0], Due(left, cfg, now, run, steps[0]));
      CleanLeavesSome(was, WorkedOff(left, cfg, now, run, steps[0]), cfg, now, run, steps[1..]);
    }
  }

  /** An unbounded run, row by row: a message, an audit row, an event or an older run is deleted, and a link, a
      snapshot, an analysis text or a number cleared, if and only if it may go. The input of an unfinished
      analysis stays, as do its text, the numbers of a campaign that is not closed, and the run's own row. */
  lemma CleanIsExact(db: Db, cfg: Config, now: int, run: nat)
    ensures Leaves(db, Clean(db, cfg, now, run, Steps()), cfg, now, run, true)
  {
    StepsAreAll();
    hide Leaves, Due, Clean, Steps;
    NothingDone(db, cfg, now, run);
    CleanLeavesSome(db, db, cfg, now, run, Steps());
    var u := Clean(db, cfg, now, run, Steps());
    forall s ensures Due(u, cfg, now, run, s) == {} {
      CleanLeavesNothingDue(db, cfg, now, run, Steps(), s);
    }
    NothingDueLeaves(db, u, cfg, now, run);
  }

  /** What no run ever touches, whatever the periods. */
  lemma AlwaysStays(db: Db, cfg: Config, now: int, run: nat)
    ensures var u := Clean(db, cfg, now, run, Steps());
      && (forall m, x :: (&& m in db.messages && db.messages[m].session in db.sessions && x in db.analyses
                          && db.analyses[x].attempt == db.sessions[db.messages[m].session].attempt
                          && !db.analyses[x].terminal) ==> m in u.messages && u.messages[m] == db.messages[m])
      && (forall x :: x in db.analyses && !db.analyses[x].terminal ==> x in u.analyses && u.analyses[x] == db.analyses[x])
      && (forall c :: (&& c in db.contacts
                       && (db.contacts[c].campaign in db.campaigns ==>
                             !db.campaigns[db.contacts[c].campaign].completed
                             || db.campaigns[db.contacts[c].campaign].closedAt.None?)) ==>
            c in u.contacts && u.contacts[c] == db.contacts[c])
      && (run in db.runs ==> run in u.runs && u.runs[run] == db.runs[run])
  {
    hide Clean, LinkGoes, SnapshotGoes, AuditGoes, EventGoes, OnHold, OfFreeContact;
    CleanIsExact(db, cfg, now, run);
  }

  // ---- legal hold and the unique constraint -------------------------------------------------

  /** Everything about contact `c`, and about its campaign if that is held, is in `u` as it is in `db`. */
  ghost predicate Protected(db: Db, c: nat, u: Db)
    requires HeldContact(db, c)
  {
    && c in u.contacts && u.contacts[c] == db.contacts[c]
    && u.attempts == db.attempts && u.campaigns == db.campaigns
    && u.sessions.Keys == db.sessions.Keys
    && (forall i :: i in db.sessions ==> u.sessions[i].attempt == db.sessions[i].attempt)
    && (forall i :: i in db.sessions && About(db, c, db.sessions[i].attempt) ==> u.sessions[i] == db.sessions[i])
    && (forall m :: m in db.messages && db.messages[m].session in db.sessions
                    && About(db, c, db.sessions[db.messages[m].session].attempt) ==>
          (m in u.messages && u.messages[m] == db.messages[m]))
    && (forall i :: i in db.snapshots && About(db, c, db.snapshots[i].attempt) ==>
          (i in u.snapshots && u.snapshots[i] == db.snapshots[i]))
    && (forall i :: i in db.analyses && db.analyses[i].contact == c ==>
          (i in u.analyses && u.analyses[i] == db.analyses[i]))
    && (forall i :: i in db.audit && AuditAbout(db, c, db.audit[i].subject) ==>
          (i in u.audit && u.audit[i] == db.audit[i]))
  }

  predicate About(db: Db, c: nat, attempt: nat) { attempt in db.attempts && db.attempts[attempt] == c }

  predicate AuditAbout(db: Db, c: nat, subject: Subject)
    requires c in db.contacts
  {
    subject == OfContact(c)
    || (HeldCampaign(db, db.contacts[c].campaign) && subject == OfCampaign(db.contacts[c].campaign))
  }

  lemma BatchSparesHeld(db: Db, cfg: Config, now: int, run: nat, s: Step, ids: set<nat>, c: nat)
    requires HeldContact(db, c) && ids <= Due(db, cfg, now, run, s)
    ensures Protected(db, c, Act(db, s, ids, now))
  {
    hide Unfinished;
  }

  lemma ProtectedStays(db: Db, c: nat, u: Db, v: Db)
    requires HeldContact(db, c) && Protected(db, c, u) && HeldContact(u, c) && Protected(u, c, v)
    ensures Protected(db, c, v)
  {
  }

  /** Rows covered by a legal hold come through every run unchanged. */
  lemma {:induction false} HeldRowsAreKept(db: Db, cfg: Config, now: int, run: nat, steps: seq<Step>, c: nat)
    requires HeldContact(db, c)
    ensures Protected(db, c, Clean(db, cfg, now, run, steps))
    decreases |steps|
  {
    if steps != [] {
      var u := WorkedOff(db, cfg, now, run, steps[0]);
      BatchSparesHeld(db, cfg, now, run, steps[0], Due(db, cfg, now, run, steps[0]), c);
      ActKeepsHolds(db, steps[0], Due(db, cfg, now, run, steps[0]), now);
      hide Act, Due, Protected, HeldContact;
      HeldRowsAreKept(u, cfg, now, run, steps[1..], c);
      ProtectedStays(db, c, u, Clean(db, cfg, now, run, steps));
    }
  }

  lemma BatchKeepsUnique(db: Db, s: Step, ids: set<nat>, now: int)
    requires OwnPlaceholders(db.contacts) && UniquePhones(db.contacts)
    ensures var u := Act(db, s, ids, now); OwnPlaceholders(u.contacts) && UniquePhones(u.contacts)
  {
    ScrubKeepsUnique(db.contacts, ids, now);
    hide OwnPlaceholders, UniquePhones, ScrubContacts;
  }

  /** UNIQUE(campaign, number) survives every run. */
  lemma {:induction false} NumbersStayUnique(db: Db, cfg: Config, now: int, run: nat, steps: seq<Step>)
    requires OwnPlaceholders(db.contacts) && UniquePhones(db.contacts)
    ensures var u := Clean(db, cfg, now, run, steps); OwnPlaceholders(u.contacts) && UniquePhones(u.contacts)
    decreases |steps|
  {
    hide Due, Act, OwnPlaceholders, UniquePhones;
    if steps != [] {
      BatchKeepsUnique(db, steps[0], Due(db, cfg, now, run, steps[0]), now);
      NumbersStayUnique(WorkedOff(db, cfg, now, run, steps[0]), cfg, now, run, steps[1..]);
    }
  }

  // ---- the run as it works ------------------------------------------------------------------

  datatype RunStatus = Completed | Partial | LockHeld | Failed

  /** The one transaction of a run that raises an error, if any, counted from here on. It is rolled back,
      unless only the answer to its commit was lost. */
  datatype Fault = Sound | FailsAt(transactions: nat, committed: bool)

  function Later(f: Fault): Fault
  {
    if f.FailsAt? && f.transactions > 0 then f.(transactions := f.transactions - 1) else f
  }

  predicate FailsNow(f: Fault) { f.FailsAt? && f.transactions == 0 }

  /** How the work on a class ends. */
  datatype End = Ran | Spent | Broke

  datatype Result = Result(status: RunStatus, counts: map<Step, nat>, disabled: set<Step>)

  lemma {:induction false} NothingDueIsClean(db: Db, cfg: Config, now: int, run: nat, steps: seq<Step>)
    requires forall s :: s in steps ==> Due(db, cfg, now, run, s) == {}
    ensures Clean(db, cfg, now, run, steps) == db
    decreases |steps|
  {
    hide Act, Due;
    if steps != [] {
      assert steps[0] in steps;
      NothingDueNothingDone(db, steps[0], now);
      NothingDueIsClean(db, cfg, now, run, steps[1..]);
    }
  }

  lemma StepsAreAll()
    ensures Distinct(Steps()) && forall s: Step :: s in Steps()
  {
    forall s: Step ensures s in Steps() {
      assert s == Steps()[0] || s == Steps()[1] || s == Steps()[2] || s == Steps()[3]
             || s == Steps()[4] || s == Steps()[5] || s == Steps()[6] || s == Steps()[7];
    }
  }

  /** A batch, for every class at once. */
  lemma BatchFacts(db: Db, cfg: Config, now: int, run: nat, s: Step, ids: set<nat>)
    requires ids <= Due(db, cfg, now, run, s)
    ensures var u := Act(db, s, ids, now);
      && Clean(u, cfg, now, run, Steps()) == Clean(db, cfg, now, run, Steps())
      && Due(u, cfg, now, run, s) == Due(db, cfg, now, run, s) - ids
      && forall other :: other != s ==> Due(u, cfg, now, run, other) == Due(db, cfg, now, run, other)
  {
    StepsAreAll();
    hide Act, Due, Clean, Steps;
    BatchKeepsOutcome(db, cfg, now, run, Steps(), s, ids);
    BatchShrinksItsClass(db, cfg, now, run, s, ids);
    forall other | other != s
      ensures Due(Act(db, s, ids, now), cfg, now, run, other) == Due(db, cfg, now, run, other)
    {
      BatchKeepsOtherClasses(db, cfg, now, run, s, ids, other);
    }
  }

  /** The first `n` classes that are switched on, or off. */
  function Classes(cfg: Config, n: nat, on: bool): set<Step>
    requires n <= |Steps()|
  {
    set s | s in Steps()[..n] && Period(cfg, s).Some? == on
  }

  lemma NoClasses(cfg: Config)
    ensures forall on :: Classes(cfg, 0, on) == {}
  {
  }

  lemma ClassesStep(cfg: Config, n: nat)
    requires n < |Steps()|
    ensures forall on :: Classes(cfg, n + 1, on)
                         == Classes(cfg, n, on) + (if Period(cfg, Steps()[n]).Some? == on then {Steps()[n]} else {})
    ensures forall on :: Steps()[n] !in Classes(cfg, n, on)
  {
    StepsAreAll();
    hide Steps;
    assert Steps()[..n + 1] == Steps()[..n] + [Steps()[n]];
  }

  class Engine {
    var db: Db
    var finished: seq<(nat, Result)>

    /** SELECT ... LIMIT size, in no particular order. */
    method TakeBatch(due: set<nat>, size: nat) returns (ids: set<nat>)
      ensures ids <= due && |ids| == if |due| < size then |due| else size
    {
      ids := {};
      while |ids| < size && ids != due
        invariant ids <= due && |ids| <= size
        decreases |due - ids|
      {
        var i :| i in due - ids;
        assert due - (ids + {i}) == (due - ids) - {i};
        ids := ids + {i};
      }
      SubsetSize(ids, due);
    }

    /** One class, until nothing is due, the runtime is spent or a transaction fails; `checks` is how many
        more looks at the monotonic clock find time left. */
    method WorkOff(cfg: Config, now: int, run: nat, s: Step, batch: nat, checks: nat, fault: Fault)
      returns (total: nat, left: nat, rest: Fault, end: End)
      requires batch >= 1
      modifies this`db
      ensures left <= checks && (end.Spent? ==> left == 0)
      ensures end.Broke? ==> fault.FailsAt?
      ensures fault.Sound? ==> rest.Sound?
      ensures Clean(db, cfg, now, run, Steps()) == Clean(old(db), cfg, now, run, Steps())
      ensures forall other :: other != s ==> Due(db, cfg, now, run, other) == Due(old(db), cfg, now, run, other)
      ensures Due(db, cfg, now, run, s) <= Due(old(db), cfg, now, run, s)
      ensures !end.Broke? ==> total == |Due(old(db), cfg, now, run, s)| - |Due(db, cfg, now, run, s)|
      ensures end.Ran? ==> Due(db, cfg, now, run, s) == {}
      ensures forall was :: Leaves(was, old(db), cfg, now, run, false) ==> Leaves(was, db, cfg, now, run, false)
    {
      hide Act, Due, Clean, Steps, Leaves;
      total, left, rest, end := 0, checks, fault, Ran;
      while true
        invariant left <= checks && end.Ran? && (fault.Sound? ==> rest.Sound?)
        invariant forall was :: Leaves(was, old(db), cfg, now, run, false) ==> Leaves(was, db, cfg, now, run, false)
        invariant Clean(db, cfg, now, run, Steps()) == Clean(old(db), cfg, now, run, Steps())
        invariant forall other :: other != s ==> Due(db, cfg, now, run, other) == Due(old(db), cfg, now, run, other)
        invariant Due(db, cfg, now, run, s) <= Due(old(db), cfg, now, run, s)
        invariant total == |Due(old(db), cfg, now, run, s)| - |Due(db, cfg, now, run, s)|
        decreases |Due(db, cfg, now, run, s)|
      {
        if left == 0 {
          end := Spent;
          break;
        }
        left := left - 1;
        var due := Due(db, cfg, now, run, s);
        var ids := TakeBatch(due, batch);
        BatchFacts(db, cfg, now, run, s, ids);
        forall was | Leaves(was, db, cfg, now, run, false)
          ensures Leaves(was, Act(db, s, ids, now), cfg, now, run, false) {
          BatchLeaves(was, db, cfg, now, run, s, ids);
        }
        if FailsNow(rest) {
          if rest.committed {
            db := Act(db, s, ids, now);
          }
          end := Broke;
          break;
        }
        rest := Later(rest);
        if ids == {} {
          break;
        }
        assert |due| == |due - ids| + |ids| by { assert due == (due - ids) + ids; }
        db := Act(db, s, ids, now);
        total := total + |ids|;
      }
    }

    /** The run's row and its one audit row, at every exit. */
    method Finish(run: nat, r: Result)
      modifies this`finished
      ensures finished == old(finished) + [(run, r)]
    {
      finished := finished + [(run, r)];
    }

    /** A dry run only counts. An applied run that completes leaves what an unbounded run leaves, and
        counted exactly the rows that were due; one that stops early or fails can be completed by another
        at the same instant. What it reports is what it removed, at every exit, except for the class a
        failed run broke off in, which it does not report. */
    method RunRetention(
        cfg: Config, now: int, run: nat, apply: bool, gotLock: bool, batch: nat, checks: nat, fault: Fault)
      returns (r: Result, ghost broken: Option<Step>)
      requires batch >= 1
      modifies this
      ensures finished == old(finished) + [(run, r)]
      ensures r.status.LockHeld? <==> !gotLock
      ensures !gotLock || !apply ==> db == old(db)
      ensures !apply ==> !r.status.Partial?
      ensures r.status.Failed? ==> fault.FailsAt?
      ensures Clean(db, cfg, now, run, Steps()) == Clean(old(db), cfg, now, run, Steps())
      ensures r.status.Completed? && apply ==> db == Clean(old(db), cfg, now, run, Steps())
      ensures r.status.Completed? ==>
        r.disabled == Classes(cfg, |Steps()|, false) && r.counts.Keys == Classes(cfg, |Steps()|, true)
        && forall s :: s in r.counts ==> r.counts[s] == |Due(old(db), cfg, now, run, s)|
      ensures Reported(Job(cfg, now, run, apply), old(db), db, r, broken)
      // Row by row, at every exit, and completely after a completed run.
      ensures Leaves(old(db), db, cfg, now, run, r.status.Completed? && apply)
      ensures broken.Some? ==> r.status.Failed? && apply && broken.value !in r.counts
    {
      hide Progress, Tally, Due, Clean, Act, Classes, Steps, Period, Reported, Leaves;
      r, broken := Result(LockHeld, map[], {}), None;
      ghost var was := db;
      ghost var job := Job(cfg, now, run, apply);
      NothingDoneYet(job, was);
      NothingDone(was, cfg, now, run);
      CleanIsExact(was, cfg, now, run);
      if !gotLock {
        SoFarReported(job, was, db, 0, r);
        Finish(run, r);
        return;
      }
      var left, rest := checks, fault;
      var i := 0;
      while i < |Steps()|
        invariant 0 <= i <= |Steps()| && r.status.LockHeld? && broken.None?
        invariant Progress(job, was, db, i) && Tally(job, was, i, r)
        invariant !apply ==> db == was
        invariant Leaves(was, db, cfg, now, run, false)
        invariant finished == old(finished) && (fault.Sound? ==> rest.Sound?)
      {
        var s := Steps()[i];
        NextIsAsFound(job, was, db, i);
        if Period(cfg, s).None? {
          SkippedKeepsProgress(job, was, db, i);
          TallyOff(job, was, i, r);
          r := r.(disabled := r.disabled + {s});
        } else if !apply {
          if FailsNow(rest) {
            SoFarReported(job, was, db, i, r);
            SameOutcome(job, was, db, i);
            r := r.(status := RunStatus.Failed);
            Finish(run, r);
            return;
          }
          rest := Later(rest);
          var due := |Due(db, cfg, now, run, s)|;
          SkippedKeepsProgress(job, was, db, i);
          TallyOn(job, was, i, r, due);
          r := r.(counts := r.counts[s := due]);
        } else {
          ghost var before := db;
          var total, end;
          total, left, rest, end := WorkOff(cfg, now, run, s, batch, left, rest);
          if !end.Ran? {
            SameOutcome(job, was, before, i);
            BrokenOffReported(job, was, before, db, i, r, total);
            if end.Spent? {
              r := r.(status := Partial, counts := r.counts[s := total]);
            } else {
              r, broken := r.(status := RunStatus.Failed), Some(s);
            }
            Finish(run, r);
            return;
          }
          WorkedKeepsProgress(job, was, before, db, i);
          assert |Due(db, cfg, now, run, s)| == 0;
          TallyOn(job, was, i, r, total);
          r := r.(counts := r.counts[s := total]);
        }
        i := i + 1;
      }
      SameOutcome(job, was, db, i);
      SoFarReported(job, was, db, i, r);
      if apply {
        AllDone(job, was, db);
      }
      TallyFacts(job, was, r);
      r := r.(status := RunStatus.Completed);
      Finish(run, r);
    }
  }

  /** A dry run reports what is due, an applied one what it removed; classes not reported are as they were,
      but for the one a failed run broke off in. */
  ghost predicate Reported(job: Job, was: Db, db: Db, r: Result, broken: Option<Step>)
  {
    var Job(cfg, now, run, apply) := job;
    && (forall s :: s in r.counts ==>
          r.counts[s] == |Due(was, cfg, now, run, s)| - (if apply then |Due(db, cfg, now, run, s)| else 0))
    && (forall s :: s !in r.counts && broken != Some(s) ==> Due(db, cfg, now, run, s) == Due(was, cfg, now, run, s))
  }

  lemma PlaceOf(cfg: Config, i: nat, s: Step) returns (j: nat)
    requires i <= |Steps()|
    ensures j < |Steps()| && Steps()[j] == s
    ensures s in Classes(cfg, i, true) <==> (j < i && Period(cfg, s).Some?)
  {
    StepsAreAll();
    hide Steps, Period;
    assert s in Steps();
    j :| 0 <= j < |Steps()| && Steps()[j] == s;
    assert s in Steps()[..i] <==> j < i;
  }

  lemma ClassReported(job: Job, was: Db, db: Db, i: nat, r: Result, s: Step)
    requires Progress(job, was, db, i) && Tally(job, was, i, r)
    ensures var Job(cfg, now, run, apply) := job;
      && (s in r.counts ==> r.counts[s] == |Due(was, cfg, now, run, s)| && (apply ==> Due(db, cfg, now, run, s) == {}))
      && (s !in r.counts ==> Due(db, cfg, now, run, s) == Due(was, cfg, now, run, s))
  {
    if Period(job.cfg, s).None? {
      DisabledIsNeverDue(db, job.cfg, job.now, job.run, s);
      DisabledIsNeverDue(was, job.cfg, job.now, job.run, s);
    }
    hide Due, Clean, Steps, Period, Classes;
    var j := PlaceOf(job.cfg, i, s);
    assert s in r.counts <==> s in r.counts.Keys;
  }

  lemma SoFarReported(job: Job, was: Db, db: Db, i: nat, r: Result)
    requires Progress(job, was, db, i) && Tally(job, was, i, r)
    ensures forall status :: Reported(job, was, db, r.(status := status), None)
    ensures Reported(job, was, db, r, None)
  {
    hide Due, Progress, Tally;
    forall s: Step
      ensures var Job(cfg, now, run, apply) := job;
        && (s in r.counts ==> r.counts[s] == |Due(was, cfg, now, run, s)| && (apply ==> Due(db, cfg, now, run, s) == {}))
        && (s !in r.counts ==> Due(db, cfg, now, run, s) == Due(was, cfg, now, run, s)) {
      ClassReported(job, was, db, i, r, s);
    }
  }

  lemma StepIsNew(job: Job, was: Db, i: nat, r: Result)
    requires i < |Steps()| && Tally(job, was, i, r)
    ensures Steps()[i] !in r.counts
  {
    hide Due, Steps, Classes;
    ClassesStep(job.cfg, i);
    assert Steps()[i] !in r.counts.Keys;
  }

  lemma BrokenOffReported(job: Job, was: Db, before: Db, db: Db, i: nat, r: Result, total: nat)
    requires i < |Steps()| && Progress(job, was, before, i) && Tally(job, was, i, r) && job.apply
    requires var Job(cfg, now, run, apply) := job;
      forall other :: other != Steps()[i] ==> Due(db, cfg, now, run, other) == Due(before, cfg, now, run, other)
    ensures Reported(job, was, db, r.(status := RunStatus.Failed), Some(Steps()[i])) && Steps()[i] !in r.counts
    ensures total == |Due(before, job.cfg, job.now, job.run, Steps()[i])| - |Due(db, job.cfg, job.now, job.run, Steps()[i])| ==>
      Reported(job, was, db, r.(status := Partial, counts := r.counts[Steps()[i] := total]), None)
  {
    hide Due, Steps, Progress, Tally, Reported;
    SoFarReported(job, was, before, i, r);
    StepIsNew(job, was, i, r);
    OneClassMoved(job, was, before, db, r, Steps()[i], total);
  }

  lemma OneClassMoved(job: Job, was: Db, before: Db, db: Db, r: Result, s: Step, total: nat)
    requires Reported(job, was, before, r, None) && job.apply && s !in r.counts
    requires var Job(cfg, now, run, apply) := job;
      forall other :: other != s ==> Due(db, cfg, now, run, other) == Due(before, cfg, now, run, other)
    ensures Reported(job, was, db, r.(status := RunStatus.Failed), Some(s))
    ensures total == |Due(before, job.cfg, job.now, job.run, s)| - |Due(db, job.cfg, job.now, job.run, s)| ==>
      Reported(job, was, db, r.(status := Partial, counts := r.counts[s := total]), None)
  {
    hide Due;
  }

  lemma TallyFacts(job: Job, was: Db, r: Result)
    requires Tally(job, was, |Steps()|, r)
    ensures r.disabled == Classes(job.cfg, |Steps()|, false) && r.counts.Keys == Classes(job.cfg, |Steps()|, true)
    ensures forall s :: s in r.counts ==> r.counts[s] == |Due(was, job.cfg, job.now, job.run, s)|
  {
  }

  lemma SameOutcome(job: Job, was: Db, db: Db, i: nat)
    requires Progress(job, was, db, i)
    ensures Clean(db, job.cfg, job.now, job.run, Steps()) == Clean(was, job.cfg, job.now, job.run, Steps())
  {
    hide Due, Clean, Steps;
  }

  datatype Job = Job(cfg: Config, now: int, run: nat, apply: bool)

  /** The first `i` classes are dealt with, the others are as they were found. */
  ghost predicate Progress(job: Job, was: Db, db: Db, i: nat)
  {
    var Job(cfg, now, run, apply) := job;
    && Clean(db, cfg, now, run, Steps()) == Clean(was, cfg, now, run, Steps())
    && (apply ==> forall j :: 0 <= j < i && j < |Steps()| ==> Due(db, cfg, now, run, Steps()[j]) == {})
    && (forall j :: i <= j < |Steps()| ==> Due(db, cfg, now, run, Steps()[j]) == Due(was, cfg, now, run, Steps()[j]))
  }

  /** ... and reported. */
  ghost predicate Tally(job: Job, was: Db, i: nat, r: Result)
  {
    && i <= |Steps()|
    && r.disabled == Classes(job.cfg, i, false) && r.counts.Keys == Classes(job.cfg, i, true)
    && (forall s :: s in r.counts ==> r.counts[s] == |Due(was, job.cfg, job.now, job.run, s)|)
  }

  lemma NothingDoneYet(job: Job, db: Db)
    ensures Progress(job, db, db, 0) && Tally(job, db, 0, Result(LockHeld, map[], {}))
  {
    hide Due, Clean;
    NoClasses(job.cfg);
  }

  lemma NextIsAsFound(job: Job, was: Db, db: Db, i: nat)
    requires i < |Steps()| && Progress(job, was, db, i)
    ensures Due(db, job.cfg, job.now, job.run, Steps()[i]) == Due(was, job.cfg, job.now, job.run, Steps()[i])
  {
    hide Due, Clean, Steps;
  }

  lemma SkippedKeepsProgress(job: Job, was: Db, db: Db, i: nat)
    requires i < |Steps()| && Progress(job, was, db, i)
    requires job.apply ==> Period(job.cfg, Steps()[i]).None?
    ensures Progress(job, was, db, i + 1)
  {
    if job.apply {
      DisabledIsNeverDue(db, job.cfg, job.now, job.run, Steps()[i]);
    }
    hide Steps, Due, Clean, Period;
  }

  lemma WorkedKeepsProgress(job: Job, was: Db, before: Db, db: Db, i: nat)
    requires i < |Steps()| && Progress(job, was, before, i)
    requires Clean(db, job.cfg, job.now, job.run, Steps()) == Clean(before, job.cfg, job.now, job.run, Steps())
    requires forall other :: other != Steps()[i] ==>
      Due(db, job.cfg, job.now, job.run, other) == Due(before, job.cfg, job.now, job.run, other)
    requires Due(db, job.cfg, job.now, job.run, Steps()[i]) == {}
    ensures Progress(job, was, db, i + 1)
  {
    StepsAreAll();
    hide Steps, Due, Clean;
  }

  lemma TallyOff(job: Job, was: Db, i: nat, r: Result)
    requires i < |Steps()| && Tally(job, was, i, r) && Period(job.cfg, Steps()[i]).None?
    ensures Tally(job, was, i + 1, r.(disabled := r.disabled + {Steps()[i]}))
  {
    ClassesStep(job.cfg, i);
    hide Steps, Due, Classes, Period;
  }

  lemma TallyOn(job: Job, was: Db, i: nat, r: Result, total: nat)
    requires i < |Steps()| && Tally(job, was, i, r) && Period(job.cfg, Steps()[i]).Some?
    requires total == |Due(was, job.cfg, job.now, job.run, Steps()[i])|
    ensures Tally(job, was, i + 1, r.(counts := r.counts[Steps()[i] := total]))
  {
    ClassesStep(job.cfg, i);
    hide Steps, Due, Classes, Period;
    var u := r.counts[Steps()[i] := total];
    assert u.Keys == r.counts.Keys + {Steps()[i]};
  }

  lemma AllDone(job: Job, was: Db, db: Db)
    requires Progress(job, was, db, |Steps()|) && job.apply
    ensures db == Clean(was, job.cfg, job.now, job.run, Steps())
  {
    StepsAreAll();
    hide Steps, Due, Clean;
    NothingDueIsClean(db, job.cfg, job.now, job.run, Steps());
  }

  lemma DisabledIsNeverDue(db: Db, cfg: Config, now: int, run: nat, s: Step)
    requires Period(cfg, s).None?
    ensures Due(db, cfg, now, run, s) == {}
  {
  }

  /** A run's own row is younger than every cutoff, so leaving it out makes no difference. */
  predicate Young(db: Db, cfg: Config, now: int, run: nat)
  {
    run in db.runs && Period(cfg, Runs).Some? ==> now - Period(cfg, Runs).value <= db.runs[run]
  }

  lemma OwnRowIsNotDue(db: Db, cfg: Config, now: int, run: nat, later: nat, s: Step)
    requires Young(db, cfg, now, run) && Young(db, cfg, now, later)
    ensures Due(db, cfg, now, later, s) == Due(db, cfg, now, run, s)
  {
  }

  lemma StaysYoung(db: Db, cfg: Config, now: int, s: Step, ids: set<nat>, run: nat)
    requires Young(db, cfg, now, run)
    ensures Young(Act(db, s, ids, now), cfg, now, run)
  {
  }

  /** A run that is completed later, under another id, at the same instant, ends where an unbounded
      run would have. */
  lemma {:induction false} RunIdDoesNotMatter(db: Db, cfg: Config, now: int, run: nat, later: nat, steps: seq<Step>)
    requires Young(db, cfg, now, run) && Young(db, cfg, now, later)
    ensures Clean(db, cfg, now, later, steps) == Clean(db, cfg, now, run, steps)
    decreases |steps|
  {
    hide Due, Act, Young, Period;
    if steps != [] {
      OwnRowIsNotDue(db, cfg, now, run, later, steps[0]);
      var due := Due(db, cfg, now, run, steps[0]);
      StaysYoung(db, cfg, now, steps[0], due, run);
      StaysYoung(db, cfg, now, steps[0], due, later);
      RunIdDoesNotMatter(Act(db, steps[0], due, now), cfg, now, run, later, steps[1..]);
    }
  }

  /** A dry run at the same instant after a completed run counts zero in every class. */
  lemma DryRunAfterwardsCountsZero(db: Db, cfg: Config, now: int, run: nat, later: nat, s: Step)
    requires Clean(db, cfg, now, run, Steps()) == db
    requires Young(db, cfg, now, run) && Young(db, cfg, now, later)
    ensures Due(db, cfg, now, later, s) == {}
  {
    StepsAreAll();
    OwnRowIsNotDue(db, cfg, now, run, later, s);
    hide Due, Clean, Steps, Act;
    CleanLeavesNothingDue(db, cfg, now, run, Steps(), s);
  }

  /** ... and a completed run is one after which another changes nothing. */
  lemma CleanIsStable(db: Db, cfg: Config, now: int, run: nat)
    ensures var u := Clean(db, cfg, now, run, Steps()); Clean(u, cfg, now, run, Steps()) == u
  {
    StepsAreAll();
    hide Due, Clean, Steps, Act;
    var u := Clean(db, cfg, now, run, Steps());
    forall s | s in Steps() ensures Due(u, cfg, now, run, s) == {} {
      CleanLeavesNothingDue(db, cfg, now, run, Steps(), s);
    }
    NothingDueIsClean(u, cfg, now, run, Steps());
  }
}
