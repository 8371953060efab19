/** Erasing one person, and re-applying the erasure log to restored data. */
module Erasure {
  import opened Basics
  import opened LifecycleData
  import opened RetentionFacts

  /** Keyed and stable: equal exactly for equal numbers. */
  datatype Fingerprint = Fingerprint(of: Phone)

  predicate KeepsStatus(st: Status) { !st.Live? }

  // ---- the two scrubs -----------------------------------------------------------------------

  predicate AttemptOf(db: Db, attempt: nat, ids: set<nat>) { attempt in db.attempts && db.attempts[attempt] in ids }

  predicate SessionOf(db: Db, session: nat, ids: set<nat>)
  {
    session in db.sessions && AttemptOf(db, db.sessions[session].attempt, ids)
  }

  /** Every content-bearing row of the given contacts deleted or cleared. */
  function ScrubContent(db: Db, ids: set<nat>): Db
  {
    db.(messages := map m | m in db.messages && !SessionOf(db, db.messages[m].session, ids) :: db.messages[m],
        sessions := ClearLinks(db.sessions, set i | i in db.sessions && SessionOf(db, i, ids)),
        snapshots := ClearSnapshots(db.snapshots, set i | i in db.snapshots && AttemptOf(db, db.snapshots[i].attempt, ids)),
        analyses := ClearAnalyses(db.analyses, set i | i in db.analyses && db.analyses[i].contact in ids))
  }

  function Closing(c: Contact): Contact { if KeepsStatus(c.status) then c else c.(status := Closed) }

  /** Numbers replaced, and nothing left that could be dialled. */
  function ScrubRows(m: map<nat, Contact>, ids: set<nat>, now: int): map<nat, Contact>
  {
    map i | i in m :: if i in ids then Closing(Scrubbed(i, m[i], now)) else m[i]
  }

  function Scrub(db: Db, ids: set<nat>, now: int): Db
  {
    var u := ScrubContent(db, ids);
    u.(contacts := ScrubRows(u.contacts, ids, now))
  }

  /** The attempt, and the conversation, is one of contact `c`. */
  predicate Dialled(db: Db, attempt: nat, c: nat) { attempt in db.attempts && db.attempts[attempt] == c }

  predicate Spoken(db: Db, session: nat, c: nat)
  {
    session in db.sessions && db.sessions[session].attempt in db.attempts && db.attempts[db.sessions[session].attempt] == c
  }

  /** Nothing of contact `c` is left. */
  predicate Gone(db: Db, c: nat, now: int)
  {
    && c in db.contacts && db.contacts[c].phone == Placeholder(c) && db.contacts[c].purgedAt == Some(now)
    && !db.contacts[c].status.Live?
    && (forall m :: m in db.messages ==> !Spoken(db, db.messages[m].session, c))
    && (forall i :: i in db.sessions && Spoken(db, i, c) ==> db.sessions[i].link.None?)
    && (forall i :: i in db.snapshots && Dialled(db, db.snapshots[i].attempt, c) ==> db.snapshots[i].content.None?)
    && (forall i :: i in db.analyses && db.analyses[i].contact == c ==> db.analyses[i].text.None?)
  }

  /** Everything of contact `c` is as it was. */
  predicate Spared(db: Db, u: Db, c: nat)
  {
    && (c in db.contacts ==> c in u.contacts && u.contacts[c] == db.contacts[c])
    && (forall m :: m in db.messages && Spoken(db, db.messages[m].session, c) ==>
          (m in u.messages && u.messages[m] == db.messages[m]))
    && (forall i :: i in db.sessions && Spoken(db, i, c) ==> i in u.sessions && u.sessions[i] == db.sessions[i])
    && (forall i :: i in db.snapshots && Dialled(db, db.snapshots[i].attempt, c) ==>
          (i in u.snapshots && u.snapshots[i] == db.snapshots[i]))
    && (forall i :: i in db.analyses && db.analyses[i].contact == c ==>
          (i in u.analyses && u.analyses[i] == db.analyses[i]))
  }

  lemma ScrubErases(db: Db, ids: set<nat>, now: int, c: nat)
    requires c in ids && c in db.contacts
    ensures Gone(Scrub(db, ids, now), c, now)
    // The rest of the contact's row stays, a status that is final included.
    ensures var u, was := Scrub(db, ids, now).contacts[c], db.contacts[c];
      && u.campaign == was.campaign && u.hold == was.hold && u.count == was.count
      && u.status == if was.status.Live? then Closed else was.status
  {
    var u := Scrub(db, ids, now);
    assert forall a :: Dialled(u, a, c) ==> AttemptOf(db, a, ids);
    assert forall i :: Spoken(u, i, c) ==> SessionOf(db, i, ids);
  }

  lemma ScrubSparesOthers(db: Db, ids: set<nat>, now: int, c: nat)
    requires c !in ids
    ensures Spared(db, Scrub(db, ids, now), c)
  {
    assert forall a :: Dialled(db, a, c) ==> !AttemptOf(db, a, ids);
    assert forall i :: Spoken(db, i, c) ==> !SessionOf(db, i, ids);
  }

  lemma MembersAddUp(db: Db, a: set<nat>, b: set<nat>, now: int)
    ensures var u := Scrub(db, a, now);
      && u.attempts == db.attempts && u.campaigns == db.campaigns && u.sessions.Keys == db.sessions.Keys
      && (forall i :: AttemptOf(u, i, b) == AttemptOf(db, i, b))
      && (forall i :: AttemptOf(db, i, a + b) == (AttemptOf(db, i, a) || AttemptOf(db, i, b)))
      && (forall i :: SessionOf(u, i, b) == SessionOf(db, i, b))
      && (forall i :: SessionOf(db, i, a + b) == (SessionOf(db, i, a) || SessionOf(db, i, b)))
  {
  }

  lemma RowsAddUp(m: map<nat, Contact>, a: set<nat>, b: set<nat>, now: int)
    ensures ScrubRows(ScrubRows(m, a, now), b, now) == ScrubRows(m, a + b, now)
  {
  }

  /** Page after page is the same as all at once. */
  lemma ScrubsAddUp(db: Db, a: set<nat>, b: set<nat>, now: int)
    ensures Scrub(Scrub(db, a, now), b, now) == Scrub(db, a + b, now)
  {
    MembersAddUp(db, a, b, now);
    RowsAddUp(db.contacts, a, b, now);
    hide AttemptOf, SessionOf, ScrubRows, ClearLinks, ClearSnapshots, ClearAnalyses;
    MessagesAddUp(db, a, b, now);
    ContentAddsUp(db, a, b, now);
  }

  lemma MessagesAddUp(db: Db, a: set<nat>, b: set<nat>, now: int)
    ensures Scrub(Scrub(db, a, now), b, now).messages == Scrub(db, a + b, now).messages
  {
    MembersAddUp(db, a, b, now);
    hide AttemptOf, SessionOf, ScrubRows, ClearLinks, ClearSnapshots, ClearAnalyses;
  }

  lemma ContentAddsUp(db: Db, a: set<nat>, b: set<nat>, now: int)
    ensures var v, w := Scrub(Scrub(db, a, now), b, now), Scrub(db, a + b, now);
      v.sessions == w.sessions && v.snapshots == w.snapshots && v.analyses == w.analyses
  {
    MembersAddUp(db, a, b, now);
    hide AttemptOf, SessionOf, ScrubRows;
    var v, w := Scrub(Scrub(db, a, now), b, now), Scrub(db, a + b, now);
    assert v.sessions == w.sessions;
    assert v.snapshots == w.snapshots;
    assert v.analyses == w.analyses;
  }

  lemma NothingToScrub(db: Db, now: int)
    ensures Scrub(db, {}, now) == db
  {
    var u := Scrub(db, {}, now);
    assert u.messages == db.messages;
    assert u.sessions == db.sessions;
    assert u.snapshots == db.snapshots;
    assert u.analyses == db.analyses;
    assert u.contacts == db.contacts;
  }

  /** A scrub changes nobody's holds and nobody else's contact row. */
  lemma ScrubKeepsRest(db: Db, ids: set<nat>, now: int)
    ensures var u := Scrub(db, ids, now);
      && u.contacts.Keys == db.contacts.Keys
      && (forall c :: c in db.contacts && c !in ids ==> u.contacts[c] == db.contacts[c])
      && (forall c :: c in db.contacts && c in ids ==> u.contacts[c].purgedAt == Some(now) && u.contacts[c].phone == Placeholder(c))
      && (forall c :: HeldContact(u, c) == HeldContact(db, c))
  {
  }

  lemma ScrubKeepsNumbersUnique(db: Db, ids: set<nat>, now: int)
    requires OwnPlaceholders(db.contacts) && UniquePhones(db.contacts)
    ensures var m := Scrub(db, ids, now).contacts; OwnPlaceholders(m) && UniquePhones(m)
  {
    var m, u := db.contacts, Scrub(db, ids, now).contacts;
    forall i, j | i in u && j in u && i != j && u[i].campaign == u[j].campaign ensures u[i].phone != u[j].phone {
      assert m[i].campaign == m[j].campaign;
    }
  }

  // ---- one person ---------------------------------------------------------------------------

  /** A number given in a request, after parsing. */
  datatype Parsed = Valid(line: nat) | Invalid

  datatype EraseResult =
    | ValidationError
    | NotFound
    | AlreadyErased
    | Refused(held: nat)
    | Erased(counts: Counts, suppressionAdded: bool)

  datatype Counts = Counts(contacts: nat, messages: nat, snapshots: nat, analyses: nat)

  /** What the log row and the audit row of an erasure both say. */
  datatype Record = Record(of: Fingerprint, counts: Counts, suppressionAdded: bool)

  /** The rows the statements of an erasure match: what they report. A session whose link is cleared is
      not counted. */
  function RowsOf(db: Db, ids: set<nat>): Counts
  {
    Counts(|set c | c in db.contacts && c in ids|,
           |set m | m in db.messages && SessionOf(db, db.messages[m].session, ids)|,
           |set i | i in db.snapshots && AttemptOf(db, db.snapshots[i].attempt, ids) && db.snapshots[i].content.Some?|,
           |set i | i in db.analyses && db.analyses[i].contact in ids && db.analyses[i].text.Some?|)
  }

  /** The rows that are gone or different afterwards. */
  function Changes(db: Db, u: Db): Counts
  {
    Counts(|set c | c in db.contacts && !(c in u.contacts && u.contacts[c] == db.contacts[c])|,
           |set m | m in db.messages && !(m in u.messages && u.messages[m] == db.messages[m])|,
           |set i | i in db.snapshots && !(i in u.snapshots && u.snapshots[i] == db.snapshots[i])|,
           |set i | i in db.analyses && !(i in u.analyses && u.analyses[i] == db.analyses[i])|)
  }

  /** Every count an erasure reports is the number of rows it changed. */
  lemma CountsAreChanges(db: Db, ids: set<nat>, now: int)
    requires forall c :: c in ids && c in db.contacts ==> db.contacts[c].phone.Number?
    ensures RowsOf(db, ids) == Changes(db, Scrub(db, ids, now))
  {
    var u := Scrub(db, ids, now);
    assert (set c | c in db.contacts && c in ids)
      == (set c | c in db.contacts && !(c in u.contacts && u.contacts[c] == db.contacts[c]));
    assert (set m | m in db.messages && SessionOf(db, db.messages[m].session, ids))
      == (set m | m in db.messages && !(m in u.messages && u.messages[m] == db.messages[m]));
    assert (set i | i in db.snapshots && AttemptOf(db, db.snapshots[i].attempt, ids) && db.snapshots[i].content.Some?)
      == (set i | i in db.snapshots && !(i in u.snapshots && u.snapshots[i] == db.snapshots[i]));
    assert (set i | i in db.analyses && db.analyses[i].contact in ids && db.analyses[i].text.Some?)
      == (set i | i in db.analyses && !(i in u.analyses && u.analyses[i] == db.analyses[i]));
  }

  lemma NothingChanged(db: Db)
    ensures Changes(db, db) == Counts(0, 0, 0, 0)
  {
    assert (set c | c in db.contacts && !(c in db.contacts && db.contacts[c] == db.contacts[c])) == {};
    assert (set m | m in db.messages && !(m in db.messages && db.messages[m] == db.messages[m])) == {};
    assert (set i | i in db.snapshots && !(i in db.snapshots && db.snapshots[i] == db.snapshots[i])) == {};
    assert (set i | i in db.analyses && !(i in db.analyses && db.analyses[i] == db.analyses[i])) == {};
  }

  function Covered(db: Db, number: Phone): set<nat>
  {
    set c | c in db.contacts && db.contacts[c].phone == number
  }

  lemma HoldsAgree(db: Db)
    ensures forall c :: HeldContact(db, c) <==> OnHold(db, c)
  {
  }

  lemma HeldAmongMeans(db: Db, ids: set<nat>)
    ensures HeldAmong(db, ids) == set c | c in ids && OnHold(db, c)
    ensures HeldAmong(db, ids) == {} <==> forall c :: c in ids ==> !OnHold(db, c)
  {
    assert forall c :: HeldContact(db, c) <==> OnHold(db, c);
    assert forall c :: c in ids && OnHold(db, c) ==> c in HeldAmong(db, ids);
  }

  function HeldAmong(db: Db, ids: set<nat>): set<nat> { set c | c in ids && HeldContact(db, c) }

  /** The number a well-formed request is about. */
  function Asked(db: Db, phone: Option<Parsed>, contact: Option<nat>): Phone
    requires phone.None? && contact.Some? ==> contact.value in db.contacts
    requires phone.Some? || contact.Some?
  {
    if phone.Some? then (if phone.value.Valid? then Number(phone.value.line, 0) else Number(0, 0))
    else Canonical(db.contacts[contact.value].phone)
  }

  /** The request is well formed and about a number. */
  predicate AsksForNumber(db: Db, phone: Option<Parsed>, contact: Option<nat>)
  {
    if phone.Some? then contact.None? && phone.value.Valid?
    else contact.Some? && contact.value in db.contacts && db.contacts[contact.value].purgedAt.None?
         && db.contacts[contact.value].phone.Number?
  }

  /** The contact stores the line, in whatever form. */
  predicate OfLine(db: Db, c: nat, line: nat)
  {
    c in db.contacts && db.contacts[c].phone.Number? && db.contacts[c].phone.line == line
  }

  /** What a granted request does to the contacts of the person, one by one: a contact of the line asked for
      is erased, number and content, exactly when it stores the line in canonical form. Any other contact,
      of the line or not, keeps everything. A repeat finds nothing to do. */
  lemma ErasedIffCanonical(db: Db, phone: Option<Parsed>, contact: Option<nat>, now: int, c: nat)
    requires AsksForNumber(db, phone, contact)
    ensures var number := Asked(db, phone, contact);
      var u := Scrub(db, Covered(db, number), now);
      && number.Number? && number.form == 0
      && (OfLine(db, c, number.line) ==> (Gone(u, c, now) <==> db.contacts[c].phone.form == 0))
      && (!(OfLine(db, c, number.line) && db.contacts[c].phone.form == 0) ==> Spared(db, u, c))
      && Covered(u, number) == {} && Scrub(u, Covered(u, number), now) == u
  {
    var number := Asked(db, phone, contact);
    var ids := Covered(db, number);
    var u := Scrub(db, ids, now);
    ScrubKeepsRest(db, ids, now);
    NothingToScrub(u, now);
    if c in ids {
      ScrubErases(db, ids, now, c);
    } else {
      ScrubSparesOthers(db, ids, now, c);
    }
    hide Scrub, Spared;
  }

  /** No contact keeps the line after a granted request exactly when every contact of the line stores it in
      canonical form. The condition can be told before the request. */
  lemma LineIsErasedIff(db: Db, phone: Option<Parsed>, contact: Option<nat>, now: int)
    requires AsksForNumber(db, phone, contact)
    ensures var number := Asked(db, phone, contact);
      var u := Scrub(db, Covered(db, number), now);
      (forall c :: !OfLine(u, c, number.line)) <==>
        (forall c :: OfLine(db, c, number.line) ==> db.contacts[c].phone.form == 0)
  {
    var number := Asked(db, phone, contact);
    var ids := Covered(db, number);
    var u := Scrub(db, ids, now);
    ScrubKeepsRest(db, ids, now);
    hide Scrub;
    forall c ensures OfLine(u, c, number.line) <==> OfLine(db, c, number.line) && db.contacts[c].phone.form != 0 {
      assert OfLine(db, c, number.line) && db.contacts[c].phone.form == 0 ==> db.contacts[c].phone == number;
    }
  }

  /** The failing input: two contacts of one person, the second stored in another form, with a message in
      its only conversation. Asked for by the number, by the first contact or by the second, the second
      keeps number and message; asked for by the second, even the contact asked for does. */
  lemma OtherFormSurvives(phone: Option<Parsed>, contact: Option<nat>) returns (db: Db)
    requires (phone == Some(Valid(5551234)) && contact == None) || (phone == None && (contact == Some(7) || contact == Some(8)))
    ensures AsksForNumber(db, phone, contact) && HeldAmong(db, Covered(db, Asked(db, phone, contact))) == {}
    ensures OfLine(db, 7, 5551234) && OfLine(db, 8, 5551234) && 30 in db.messages && Spoken(db, db.messages[30].session, 8)
    ensures var u := Scrub(db, Covered(db, Asked(db, phone, contact)), 100);
      Gone(u, 7, 100) && Spared(db, u, 8) && OfLine(u, 8, 5551234) && 30 in u.messages
  {
    db := Db(map[1 := Campaign(false, None, false)],
             map[7 := Contact(1, Number(5551234, 0), None, false, Live, 1),
                 8 := Contact(1, Number(5551234, 2), None, false, Live, 1)],
             map[10 := 8], map[20 := Session(10, 0, None)], map[30 := Message(20, 0)], map[], map[], map[], map[], map[]);
    assert Asked(db, phone, contact) == Number(5551234, 0);
    assert Covered(db, Number(5551234, 0)) == {7};
    ErasedIffCanonical(db, phone, contact, 100, 7);
    ErasedIffCanonical(db, phone, contact, 100, 8);
    assert Spoken(db, 20, 8);
    hide Scrub;
  }

  // ---- after a restore ----------------------------------------------------------------------

  datatype Report = Report(
    fingerprints: nat, scanned: nat, matched: nat, scrubbed: nat, skipped: int, missing: nat, applied: bool)

  function Unpurged(db: Db): set<nat> { set c | c in db.contacts && db.contacts[c].purgedAt.None? }

  predicate Logged(db: Db, log: set<Fingerprint>, c: nat)
  {
    c in db.contacts && db.contacts[c].purgedAt.None? && Fingerprint(Canonical(db.contacts[c].phone)) in log
  }

  /** The contacts whose number is logged as erased, and those of them no hold covers. */
  function Matched(db: Db, log: set<Fingerprint>): set<nat> { set c | c in db.contacts && Logged(db, log, c) }

  function Free(db: Db, log: set<Fingerprint>): set<nat>
  {
    set c | c in db.contacts && Logged(db, log, c) && !HeldContact(db, c)
  }

  /** Who is unpurged, who matches and whom re-application may scrub, written out. */
  lemma MatchesMean(db: Db, log: set<Fingerprint>, c: nat)
    ensures c in Unpurged(db) <==> c in db.contacts && db.contacts[c].purgedAt == None
    ensures c in Matched(db, log) <==>
      && c in db.contacts && db.contacts[c].purgedAt == None
      && match db.contacts[c].phone
         case Number(line, _) => Fingerprint(Number(line, 0)) in log
         case Placeholder(id) => Fingerprint(Placeholder(id)) in log
    ensures c in Free(db, log) <==> c in Matched(db, log) && !OnHold(db, c)
  {
  }

  /** Re-application leaves exactly the held matches, so it has nothing to do the second time; every
      erased contact is gone and every other one is as it was. */
  lemma ReapplicationIsComplete(db: Db, log: set<Fingerprint>, now: int)
    ensures var u := Scrub(db, Free(db, log), now);
      && Free(u, log) == {} && Matched(u, log) == Matched(db, log) - Free(db, log)
      && (forall c :: c in Matched(u, log) ==> OnHold(u, c) && Spared(db, u, c))
      && (forall c :: c in Free(db, log) ==> Gone(u, c, now))
      && (forall c :: c !in Free(db, log) ==> Spared(db, u, c))
  {
    hide Scrub, Gone, Spared, HeldContact, OnHold;
    var ids := Free(db, log);
    var u := Scrub(db, ids, now);
    ScrubKeepsRest(db, ids, now);
    HoldsAgree(db);
    HoldsAgree(u);
    forall c | c in ids ensures Gone(u, c, now) {
      ScrubErases(db, ids, now, c);
    }
    forall c | c !in ids ensures Spared(db, u, c) {
      ScrubSparesOthers(db, ids, now, c);
    }
    assert forall c :: Logged(u, log, c) <==> Logged(db, log, c) && c !in ids;
  }

  /** What the request missed the re-application reaches: after it, only held contacts keep a line that is
      in the log, in whatever form they store it. */
  lemma ReapplicationReachesEveryForm(db: Db, log: set<Fingerprint>, now: int, c: nat, line: nat)
    requires Fingerprint(Number(line, 0)) in log && OfLine(db, c, line) && db.contacts[c].purgedAt.None?
    ensures var u := Scrub(db, Free(db, log), now);
      (OfLine(u, c, line) <==> OnHold(db, c)) && (!OnHold(db, c) ==> Gone(u, c, now))
  {
    ReapplicationIsComplete(db, log, now);
    ScrubKeepsRest(db, Free(db, log), now);
    assert Canonical(db.contacts[c].phone) == Number(line, 0);
    hide Scrub, HeldContact;
  }

  // ---- the module as it works ---------------------------------------------------------------

  class Lifecycle {
    var db: Db
    var log: set<Fingerprint>
    var trail: seq<Record>
    var suppressed: set<Phone>

    /** Refuses outright or does everything, and then reports exactly the rows it changed. */
    method Erase(phone: Option<Parsed>, contact: Option<nat>, suppress: bool, now: int) returns (r: EraseResult)
      modifies this
      ensures r.ValidationError? <==> (phone.None? == contact.None? || phone == Some(Invalid))
      ensures r.NotFound? <==> phone.None? && contact.Some? && contact.value !in old(db).contacts
      ensures r.AlreadyErased? <==>
        (phone.None? && contact.Some? && contact.value in old(db).contacts
         && (old(db).contacts[contact.value].purgedAt.Some? || old(db).contacts[contact.value].phone.Placeholder?))
      ensures !r.Erased? ==> db == old(db) && log == old(log) && trail == old(trail) && suppressed == old(suppressed)
      ensures r.Refused? ==>
        var ids := Covered(old(db), Asked(old(db), phone, contact));
        r.held == |set c | c in ids && OnHold(old(db), c)| && r.held > 0
      ensures r.Erased? ==>
        var number := Asked(old(db), phone, contact);
        var ids := Covered(old(db), number);
        && (forall c :: c in ids ==> !OnHold(old(db), c))
        && db == Scrub(old(db), ids, now) && log == old(log) + {Fingerprint(number)}
        && suppressed == (if suppress then old(suppressed) + {number} else old(suppressed))
        && r == EraseResult.Erased(Changes(old(db), db), suppress && number !in old(suppressed))
        && trail == old(trail) + [Record(Fingerprint(number), r.counts, r.suppressionAdded)]
    {
      hide Scrub, Changes, RowsOf;
      if phone.None? == contact.None? {
        return ValidationError;
      }
      var number;
      if contact.Some? {
        if contact.value !in db.contacts {
          return NotFound;
        }
        var c := db.contacts[contact.value];
        if c.purgedAt.Some? || c.phone.Placeholder? {
          return AlreadyErased;
        }
        number := Canonical(c.phone);
      } else {
        if phone.value.Invalid? {
          return ValidationError;
        }
        number := Number(phone.value.line, 0);
      }
      var ids := Covered(db, number);
      var held := HeldAmong(db, ids);
      HeldAmongMeans(db, ids);
      if ids != {} && |held| > 0 {
        return Refused(|held|);
      }
      CountsAreChanges(db, ids, now);
      var counts := Counts(0, 0, 0, 0);
      if ids != {} {
        counts := RowsOf(db, ids);
        db := Scrub(db, ids, now);
      } else {
        NothingToScrub(db, now);
        NothingChanged(db);
      }
      var added := false;
      if suppress {
        added := number !in suppressed;
        suppressed := suppressed + {number};
      }
      log := log + {Fingerprint(number)};
      trail := trail + [Record(Fingerprint(number), counts, added)];
      r := EraseResult.Erased(counts, added);
    }

    /** The next page of unpurged contacts after `last`, in id order. */
    method NextPage(last: int, size: nat) returns (rows: set<nat>, end: int)
      requires size >= 1
      ensures |rows| <= size && NextUpIn(After(Unpurged(db), last), rows, last, end)
    {
      rows, end := FirstOf(After(Unpurged(db), last), last, size);
    }

    /** Every logged erasure re-enforced, page by page over a set the scrubbing shrinks; dry by default.
        The counts are the same either way. */
    method ReapplyErasures(now: int, apply: bool, size: nat) returns (report: Report)
      requires size >= 1
      modifies this`db
      ensures report.fingerprints == |log| && report.applied == apply
      ensures log == {} ==> report == Report(0, 0, 0, 0, 0, 0, apply) && db == old(db)
      ensures db == if apply then Scrub(old(db), Free(old(db), log), now) else old(db)
      ensures log != {} ==>
        report == Report(|log|, |Unpurged(old(db))|, |Matched(old(db), log)|, |Free(old(db), log)|,
                         |Matched(old(db), log)| - |Free(old(db), log)|,
                         |set f | f in log && !OnList(suppressed, f)|, apply)
    {
      hide Scrub, Unpurged, Matched, Free, HeldContact, After, Fingerprints, Paged, NextUp, NextUpIn, OnList;
      report := Report(|log|, 0, 0, 0, 0, 0, apply);
      ghost var was := db;
      PagesStart(was, log, now, apply);
      if log == {} {
        return;
      }
      var last := -1;
      var page, end := NextPage(last, size);
      PageIsNextUp(was, log, db, now, last, apply, report, page, end);
      while page != {}
        invariant Paged(was, log, db, now, last, apply, report)
        invariant NextUp(was, page, last, end)
        decreases |After(Unpurged(was), last)|
      {
        var matched := Matched(db, log) * page;
        var free := Free(db, log) * page;
        PageKeepsPaged(was, log, db, now, last, end, page, apply, report);
        report := report.(scanned := report.scanned + |page|, matched := report.matched + |matched|);
        report := report.(skipped := report.skipped + (|matched| - |free|), scrubbed := report.scrubbed + |free|);
        if apply && free != {} {
          db := Scrub(db, free, now);
        }
        last := end;
        page, end := NextPage(last, size);
        PageIsNextUp(was, log, db, now, last, apply, report, page, end);
      }
      PagesEnd(was, log, db, now, last, apply, report, page, end);
      report := report.(missing := |log - Fingerprints(suppressed)|);
      OnListMeans(log, suppressed);
    }
  }

  /** Everything up to `last` is dealt with and counted, everything after it as it was. */
  ghost predicate Paged(was: Db, log: set<Fingerprint>, db: Db, now: int, last: int, apply: bool, report: Report)
  {
    && (if apply then db == Scrub(was, Upto(Free(was, log), last), now) else db == was)
    && After(Unpurged(db), last) == After(Unpurged(was), last)
    && report == Report(|log|, |Upto(Unpurged(was), last)|, |Upto(Matched(was, log), last)|,
                        |Upto(Free(was, log), last)|,
                        |Upto(Matched(was, log), last)| - |Upto(Free(was, log), last)|, 0, apply)
  }

  /** `page` is the next page after `last` and `end` its last id. */
  ghost predicate NextUp(was: Db, page: set<nat>, last: int, end: int)
  {
    NextUpIn(After(Unpurged(was), last), page, last, end)
  }

  lemma PagesStart(was: Db, log: set<Fingerprint>, now: int, apply: bool)
    ensures Paged(was, log, was, now, -1, apply, Report(|log|, 0, 0, 0, 0, 0, apply))
    ensures log == {} ==> Scrub(was, Free(was, log), now) == was
  {
    NothingYet(was, log, now);
    PagesStartWhole(was, log);
    hide Scrub, Unpurged, Matched, Free;
  }

  lemma PageIsNextUp(
    was: Db, log: set<Fingerprint>, db: Db, now: int, last: int, apply: bool, report: Report, page: set<nat>, end: int)
    requires Paged(was, log, db, now, last, apply, report)
    requires NextUpIn(After(Unpurged(db), last), page, last, end)
    ensures NextUp(was, page, last, end)
  {
    hide Scrub, Unpurged, Matched, Free, Upto, After;
  }

  lemma PagesEnd(
    was: Db, log: set<Fingerprint>, db: Db, now: int, last: int, apply: bool, report: Report, page: set<nat>, end: int)
    requires Paged(was, log, db, now, last, apply, report) && NextUp(was, page, last, end) && page == {}
    ensures db == if apply then Scrub(was, Free(was, log), now) else was
    ensures report == Report(|log|, |Unpurged(was)|, |Matched(was, log)|, |Free(was, log)|,
                             |Matched(was, log)| - |Free(was, log)|, 0, apply)
  {
    hide Scrub, Upto, Unpurged, Matched, Free, After;
    PagesEndWhole(was, log, last);
  }

  lemma PageKeepsPaged(
    was: Db, log: set<Fingerprint>, db: Db, now: int, last: int, end: int, page: set<nat>, apply: bool, report: Report)
    requires Paged(was, log, db, now, last, apply, report) && NextUp(was, page, last, end) && page != {}
    ensures var matched, free := Matched(db, log) * page, Free(db, log) * page;
      var next := if apply && free != {} then Scrub(db, free, now) else db;
      Paged(was, log, next, now, end, apply,
            report.(scanned := report.scanned + |page|, matched := report.matched + |matched|,
                    skipped := report.skipped + (|matched| - |free|), scrubbed := report.scrubbed + |free|))
    ensures |After(Unpurged(was), end)| < |After(Unpurged(was), last)|
  {
    hide Scrub, Upto, Unpurged, Matched, Free, After;
    PageFacts(was, log, db, now, last, end, page, apply);
  }

  ghost predicate NextUpIn(all: set<nat>, page: set<nat>, last: int, end: int)
  {
    && page <= all && end >= last && (page == {} <==> all == {}) && (page != {} ==> end > last)
    && (forall c :: c in page ==> c <= end) && (forall c :: c in all && c !in page ==> c > end)
  }

  /** The `size` smallest of `all`, which lie after `last`. */
  method FirstOf(all: set<nat>, last: int, size: nat) returns (rows: set<nat>, end: int)
    requires size >= 1 && forall c :: c in all ==> c > last
    ensures |rows| <= size && NextUpIn(all, rows, last, end)
  {
    rows, end := {}, last;
    var rest := all;
    var n := 0;
    while rest != {} && n < size
      invariant rest <= all && n <= size && end >= last
      invariant (n == 0 ==> rows == {} && rest == all && end == last) && (n > 0 ==> rows != {} && end > last)
      invariant |rows| == n
      invariant forall c :: c in all <==> (c in rest || c in rows)
      invariant forall c :: c in rows ==> c <= end && c !in rest
      invariant forall c :: c in rest ==> c > end
      decreases |rest|
    {
      var c := Least(rest);
      rows := rows + {c};
      rest := rest - {c};
      end := c;
      n := n + 1;
    }
  }

  /** Some number of the list, in whatever form, has the fingerprint. */
  predicate OnList(numbers: set<Phone>, f: Fingerprint)
  {
    exists p :: p in numbers && f.of == if p.Number? then Number(p.line, 0) else p
  }

  lemma OnListMeans(log: set<Fingerprint>, numbers: set<Phone>)
    ensures log - Fingerprints(numbers) == set f | f in log && !OnList(numbers, f)
  {
    forall f ensures f in Fingerprints(numbers) <==> OnList(numbers, f) {
      if p :| p in numbers && f.of == if p.Number? then Number(p.line, 0) else p {
        assert Fingerprint(Canonical(p)) == f;
      }
    }
  }

  function Fingerprints(numbers: set<Phone>): set<Fingerprint> { set p | p in numbers :: Fingerprint(Canonical(p)) }

  function Upto(s: set<nat>, last: int): set<nat> { set c | c in s && c <= last }

  function After(s: set<nat>, last: int): set<nat> { set c | c in s && c > last }

  method Least(s: set<nat>) returns (c: nat)
    requires s != {}
    ensures c in s && forall d :: d in s ==> c <= d
  {
    c :| c in s;
    var rest := s - {c};
    while rest != {}
      invariant rest <= s && c in s && forall d :: d in s && d !in rest ==> c <= d
      decreases |rest|
    {
      var d :| d in rest;
      if d < c {
        c := d;
      }
      rest := rest - {d};
    }
  }

  lemma NothingYet(db: Db, log: set<Fingerprint>, now: int)
    ensures log == {} ==> Free(db, log) == {}
    ensures Scrub(db, {}, now) == db
  {
    NothingToScrub(db, now);
  }

  lemma PagesStartWhole(db: Db, log: set<Fingerprint>)
    ensures Upto(Unpurged(db), -1) == {} && Upto(Matched(db, log), -1) == {} && Upto(Free(db, log), -1) == {}
  {
  }

  lemma PagesEndWhole(db: Db, log: set<Fingerprint>, last: int)
    requires After(Unpurged(db), last) == {}
    ensures Upto(Unpurged(db), last) == Unpurged(db)
    ensures Upto(Matched(db, log), last) == Matched(db, log) && Upto(Free(db, log), last) == Free(db, log)
  {
    assert forall c :: c in Unpurged(db) ==> c !in After(Unpurged(db), last);
    assert Matched(db, log) <= Unpurged(db) && Free(db, log) <= Unpurged(db);
  }

  lemma UptoGrows(s: set<nat>, u: set<nat>, page: set<nat>, last: int, end: int)
    requires s <= u && end >= last && page <= After(u, last)
    requires (forall c :: c in page ==> c <= end) && forall c :: c in After(u, last) && c !in page ==> c > end
    ensures Upto(s, end) == Upto(s, last) + s * page
    ensures |Upto(s, end)| == |Upto(s, last)| + |s * page|
    ensures |After(u, end)| + |page| == |After(u, last)|
  {
    assert Upto(s, end) == Upto(s, last) + s * page;
    assert Upto(s, last) !! (s * page);
    assert After(u, last) == After(u, end) + page;
    assert After(u, end) !! page;
  }

  /** Scrubbing ids up to `last` leaves later contacts exactly as they were. */
  lemma LaterPagesUntouched(was: Db, log: set<Fingerprint>, db: Db, ids: set<nat>, now: int, last: int)
    requires db == Scrub(was, ids, now) && forall c :: c in ids ==> c <= last
    ensures After(Unpurged(db), last) == After(Unpurged(was), last)
    ensures After(Matched(db, log), last) == After(Matched(was, log), last)
    ensures After(Free(db, log), last) == After(Free(was, log), last)
  {
    ScrubKeepsRest(was, ids, now);
    hide Scrub, HeldContact;
  }

  lemma OnPage(s: set<nat>, t: set<nat>, page: set<nat>, last: int)
    requires After(s, last) == After(t, last) && forall c :: c in page ==> c > last
    ensures s * page == t * page
  {
    assert forall c :: c in page ==> (c in s <==> c in After(s, last));
    assert forall c :: c in page ==> (c in t <==> c in After(t, last));
  }

  /** One page: what it adds to the counts, and what is left to page over. */
  lemma PageFacts(
    was: Db, log: set<Fingerprint>, db: Db, now: int, last: int, end: int, page: set<nat>, apply: bool)
    requires apply ==> db == Scrub(was, Upto(Free(was, log), last), now)
    requires !apply ==> db == was
    requires page <= After(Unpurged(was), last) && page != {} && end > last
    requires forall c :: c in page ==> c <= end
    requires forall c :: c in After(Unpurged(was), last) && c !in page ==> c > end
    ensures Matched(db, log) * page == Matched(was, log) * page && Free(db, log) * page == Free(was, log) * page
    ensures |Upto(Unpurged(was), end)| == |Upto(Unpurged(was), last)| + |page|
    ensures |Upto(Matched(was, log), end)| == |Upto(Matched(was, log), last)| + |Matched(was, log) * page|
    ensures |Upto(Free(was, log), end)| == |Upto(Free(was, log), last)| + |Free(was, log) * page|
    ensures |Free(was, log) * page| <= |Matched(was, log) * page|
    ensures var next := if apply && Free(db, log) * page != {} then Scrub(db, Free(db, log) * page, now) else db;
      && (apply ==> next == Scrub(was, Upto(Free(was, log), end), now))
      && After(Unpurged(next), end) == After(Unpurged(was), end)
    ensures |After(Unpurged(was), end)| < |After(Unpurged(was), last)|
  {
    var free := Free(was, log) * page;
    assert Matched(was, log) <= Unpurged(was) && Free(was, log) <= Unpurged(was) && Free(was, log) <= Matched(was, log);
    hide Scrub, Unpurged, Matched, Free, HeldContact;
    UptoGrows(Unpurged(was), Unpurged(was), page, last, end);
    UptoGrows(Matched(was, log), Unpurged(was), page, last, end);
    UptoGrows(Free(was, log), Unpurged(was), page, last, end);
    assert Unpurged(was) * page == page;
    SubsetSize(free, Matched(was, log) * page);
    assert forall c :: c in page ==> c > last;
    if apply {
      LaterPagesUntouched(was, log, db, Upto(Free(was, log), last), now, last);
      OnPage(Matched(db, log), Matched(was, log), page, last);
      OnPage(Free(db, log), Free(was, log), page, last);
      ScrubsAddUp(was, Upto(Free(was, log), last), free, now);
      var next := if free != {} then Scrub(db, free, now) else db;
      NothingToScrub(db, now);
      LaterPagesUntouched(was, log, next, Upto(Free(was, log), end), now, end);
    }
  }
}
