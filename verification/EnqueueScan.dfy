/** The keyset scan that queues a campaign's first attempts while workers, imports and operators
    change the contacts under it. Contact ids are 128-bit and totally ordered. */
module EnqueueScan {
  import opened Basics

  const ID_BOUND := 0x1_00000000_00000000_00000000_00000000
  const MAX_ENQUEUE_PER_REQUEST := 100_000

  type Id = i: nat | i < 0x1_00000000_00000000_00000000_00000000

  datatype Contact = Contact(pending: bool, attemptCount: int, phone: string)

  /** What the first-attempt enqueue owns. */
  predicate Candidate(table: map<Id, Contact>, id: Id)
  {
    id in table && table[id].pending && table[id].attemptCount == 0
  }

  /** The smallest candidate id from `from` on. */
  function Smallest(table: map<Id, Contact>, from: nat): (r: Option<Id>)
    ensures r.Some? ==> r.value >= from && Candidate(table, r.value)
    ensures forall id: Id :: id >= from && Candidate(table, id) ==> r.Some? && r.value <= id
    decreases ID_BOUND - from
  {
    if from >= ID_BOUND then None
    else if Candidate(table, from) then Some(from)
    else Smallest(table, from + 1)
  }

  /** ORDER BY id LIMIT `limit`, resumed with id > cursor. */
  function EligiblePage(table: map<Id, Contact>, from: nat, limit: nat): seq<Id>
    decreases limit
  {
    if limit == 0 then []
    else
      var first := Smallest(table, from);
      if first.None? then [] else [first.value] + EligiblePage(table, first.value + 1, limit - 1)
  }

  ghost predicate Increasing(ids: seq<Id>)
  {
    forall i, j :: 0 <= i < j < |ids| ==> ids[i] < ids[j]
  }

  lemma {:induction false} PageIsSound(table: map<Id, Contact>, from: nat, limit: nat)
    ensures |EligiblePage(table, from, limit)| <= limit
    ensures Increasing(EligiblePage(table, from, limit))
    ensures forall id :: id in EligiblePage(table, from, limit) ==>
      && id >= from && Candidate(table, id)
      && id in table && table[id].pending && table[id].attemptCount == 0
    decreases limit
  {
    if limit > 0 && Smallest(table, from).Some? {
      var first: nat := Smallest(table, from).value;
      var rest := EligiblePage(table, first + 1, limit - 1);
      PageIsSound(table, first + 1, limit - 1);
      assert EligiblePage(table, from, limit) == [first] + rest;
      assert forall i :: 0 <= i < |rest| ==> rest[i] in rest;
    }
  }

  /** A page misses no candidate up to its last id, and a short page misses none at all. */
  lemma {:induction false} PageMissesNone(table: map<Id, Contact>, from: nat, limit: nat, id: Id)
    requires id >= from && id in table && table[id].pending && table[id].attemptCount == 0
    requires var page := EligiblePage(table, from, limit);
      |page| < limit || (|page| > 0 && id <= page[|page| - 1])
    ensures id in EligiblePage(table, from, limit)
    decreases limit
  {
    assert Candidate(table, id);
    var first: nat := Smallest(table, from).value;
    var rest := EligiblePage(table, first + 1, limit - 1);
    assert EligiblePage(table, from, limit) == [first] + rest;
    if id > first {
      PageMissesNone(table, first + 1, limit - 1, id);
    }
  }

  datatype Stop = RanOut | QueueDown | DatabaseDown

  datatype QueueReply = Queued | Guarded | BacklogFull | RedisDown

  datatype Report = Report(
    discovered: nat, enqueued: nat, suppressed: nat, duplicate: nat, pages: nat,
    complete: bool, backlogFull: bool)

  datatype CampaignState = Missing | Inactive | Active

  datatype Block = Unblocked | Unavailable | KillSwitch

  datatype Result =
    | NotFound
    | NotActive
    | ServiceUnavailable
    | Disabled
    | Interrupted(report: Report)
    | DatabaseFailed(report: Report)
    | Finished(report: Report)

  /** The world the scan runs in: whether PostgreSQL answers each page read, the contacts and the
      suppressed numbers that read finds, and the queue's answer to each enqueue. All are arbitrary. */
  datatype World = World(
    readable: nat -> bool,
    tables: nat -> map<Id, Contact>,
    suppressed: nat -> set<string>,
    queue: nat -> QueueReply)

  function From(cursor: Option<Id>): nat { if cursor.Some? then cursor.value + 1 else 0 }

  /** A contact that was a candidate at each of the first `rounds` page reads. */
  ghost predicate StayedCandidate(w: World, id: Id, rounds: nat)
  {
    forall n: nat :: n < rounds ==> Candidate(w.tables(n), id)
  }

  /** What was done with a contact: left out as suppressed, or offered to the queue with this answer. */
  datatype Fate = Skipped | Answered(reply: QueueReply)

  /** `page` is the number of the page the contact was read in. */
  datatype Entry = Entry(id: Id, page: nat, fate: Fate)

  ghost function Tally(log: seq<Entry>, fate: Fate): nat
  {
    if log == [] then 0 else Tally(log[..|log| - 1], fate) + (if log[|log| - 1].fate == fate then 1 else 0)
  }

  /** How many contacts were offered to the queue. */
  ghost function Offers(log: seq<Entry>): nat
  {
    if log == [] then 0 else Offers(log[..|log| - 1]) + (if log[|log| - 1].fate.Answered? then 1 else 0)
  }

  predicate Suppressed(w: World, id: Id, page: nat)
  {
    id in w.tables(page) && w.tables(page)[id].phone in w.suppressed(page)
  }

  /** The log of the handled contacts: a contact is skipped exactly if it is suppressed as its page is read, and
      any other is offered to the queue and got the queue's next answer. */
  ghost predicate LogIs(w: World, log: seq<Entry>, handled: seq<Id>)
  {
    && |log| == |handled|
    && forall i :: 0 <= i < |log| ==>
         && log[i].id == handled[i] && log[i].id in w.tables(log[i].page)
         && w.tables(log[i].page)[log[i].id].pending && w.tables(log[i].page)[log[i].id].attemptCount == 0
         && (log[i].fate.Skipped? <==> Suppressed(w, log[i].id, log[i].page))
         && (log[i].fate.Answered? ==>
               log[i].fate.reply in {Queued, Guarded} && log[i].fate.reply == w.queue(Offers(log[..i])))
  }

  /** The counters are those of the log. */
  ghost predicate Reports(log: seq<Entry>, r: Report)
  {
    && r.enqueued == Tally(log, Answered(Queued)) && r.duplicate == Tally(log, Answered(Guarded))
    && r.suppressed == Tally(log, Skipped)
  }

  /** The contact whose answer stops the scan was offered after all others, and is not suppressed. */
  ghost predicate RefusalIs(w: World, log: seq<Entry>, e: Entry)
  {
    && e.fate == Answered(w.queue(Offers(log))) && e.fate.reply in {BacklogFull, RedisDown}
    && e.id in w.tables(e.page) && !Suppressed(w, e.id, e.page)
  }

  lemma LogGrows(w: World, log: seq<Entry>, handled: seq<Id>, e: Entry)
    requires LogIs(w, log, handled)
    requires e.id in w.tables(e.page) && w.tables(e.page)[e.id].pending && w.tables(e.page)[e.id].attemptCount == 0
    requires e.fate.Skipped? <==> Suppressed(w, e.id, e.page)
    requires e.fate.Answered? ==> e.fate.reply in {Queued, Guarded} && e.fate.reply == w.queue(Offers(log))
    ensures LogIs(w, log + [e], handled + [e.id])
    ensures Offers(log + [e]) == Offers(log) + (if e.fate.Answered? then 1 else 0)
    ensures forall fate :: Tally(log + [e], fate) == Tally(log, fate) + (if e.fate == fate then 1 else 0)
  {
    var longer := log + [e];
    assert longer[..|log|] == log;
    forall i | 0 <= i < |log| ensures longer[..i] == log[..i] {
    }
  }

  ghost predicate Counted(handled: seq<Id>, r: Report)
  {
    |handled| == r.discovered == r.enqueued + r.suppressed + r.duplicate && r.enqueued <= MAX_ENQUEUE_PER_REQUEST
  }

  ghost predicate Handled(w: World, handled: seq<Id>, bound: nat, rounds: nat)
  {
    && Increasing(handled)
    && forall id :: id in handled ==> id < bound && exists n: nat :: n < rounds && Candidate(w.tables(n), id)
  }

  /** Where the scan stands after the first i contacts of a page. */
  function Past(bound: nat, page: seq<Id>, i: nat): nat
    requires i <= |page|
  {
    if i == 0 then bound else page[i - 1] as nat + 1
  }

  lemma Extend(w: World, handled: seq<Id>, id: Id, bound: nat, n: nat)
    requires Handled(w, handled, bound, n + 1) && bound <= id && Candidate(w.tables(n), id)
    ensures Handled(w, handled + [id], id + 1, n + 1)
  {
    assert forall i :: 0 <= i < |handled| ==> handled[i] in handled;
  }

  lemma Widen(w: World, handled: seq<Id>, bound: nat, wider: nat, rounds: nat, more: nat)
    requires Handled(w, handled, bound, rounds) && bound <= wider && rounds <= more
    ensures Handled(w, handled, wider, more)
  {
  }

  /** Handles each contact of one page in order, until the request limit, a full backlog or a Redis
      error stops it. Suppressed contacts are skipped, every other one is offered to the queue. */
  method HandlePage(
      w: World, n: nat, page: seq<Id>, start: Report, calls: nat,
      ghost before: seq<Id>, ghost bound: nat, ghost logBefore: seq<Entry>)
    returns (r: Report, callsAfter: nat, redisDown: bool, ghost handled: seq<Id>, ghost done: nat,
             ghost log: seq<Entry>, ghost refused: Option<Entry>)
    requires start.complete && !start.backlogFull && Counted(before, start) && Handled(w, before, bound, n)
    requires LogIs(w, logBefore, before) && Reports(logBefore, start) && calls == Offers(logBefore)
    requires Increasing(page)
    requires forall id :: id in page ==>
      && id in w.tables(n) && id >= bound && Candidate(w.tables(n), id)
      && w.tables(n)[id].pending && w.tables(n)[id].attemptCount == 0
    ensures Counted(handled, r) && r.pages == start.pages
    ensures done <= |page| && handled == before + page[..done]
    ensures Handled(w, handled, Past(bound, page, done), n + 1)
    ensures redisDown || !r.complete ==> done < |page|
    ensures !redisDown && r.complete ==> done == |page|
    ensures (r.backlogFull ==> !r.complete) && (redisDown ==> r.complete)
    ensures LogIs(w, log, handled) && Reports(log, r)
    ensures refused.Some? <==> redisDown || r.backlogFull
    ensures refused.Some? ==>
      && done < |page| && refused.value.id == page[done] && refused.value.page == n && RefusalIs(w, log, refused.value)
      && refused.value.fate == Answered(if redisDown then RedisDown else BacklogFull)
    ensures callsAfter == Offers(log) + (if refused.Some? then 1 else 0)
    ensures !r.complete && !r.backlogFull && !redisDown ==> r.enqueued == MAX_ENQUEUE_PER_REQUEST
  {
    hide LogIs, Offers, Tally;
    r, callsAfter, redisDown := start, calls, false;
    handled, done, log, refused := before, 0, logBefore, None;
    Widen(w, before, bound, bound, n, n + 1);
    for i := 0 to |page|
      invariant r.complete && !r.backlogFull && !redisDown && r.pages == start.pages
      invariant done == i && handled == before + page[..i] && Counted(handled, r)
      invariant Handled(w, handled, Past(bound, page, i), n + 1)
      invariant LogIs(w, log, handled) && Reports(log, r) && callsAfter == Offers(log) && refused.None?
    {
      if r.enqueued >= MAX_ENQUEUE_PER_REQUEST {
        r := r.(complete := false);
        return;
      }
      assert page[i] in page;
      ghost var entry := Entry(page[i], n, Skipped);
      if w.tables(n)[page[i]].phone in w.suppressed(n) {
        r := r.(suppressed := r.suppressed + 1);
      } else {
        var reply := w.queue(callsAfter);
        entry := Entry(page[i], n, Answered(reply));
        callsAfter := callsAfter + 1;
        match reply {
          case RedisDown =>
            redisDown, refused := true, Some(entry);
            return;
          case BacklogFull =>
            r, refused := r.(complete := false, backlogFull := true), Some(entry);
            return;
          case Queued => r := r.(enqueued := r.enqueued + 1);
          case Guarded => r := r.(duplicate := r.duplicate + 1);
        }
      }
      r := r.(discovered := r.discovered + 1);
      Extend(w, handled, page[i], Past(bound, page, i), n);
      LogGrows(w, log, handled, entry);
      handled, done, log := handled + [page[i]], i + 1, log + [entry];
      assert page[..i + 1] == page[..i] + [page[i]];
    }
  }

  /** What the scan has covered when it stands at `at` after `rounds` page reads. */
  ghost predicate Covered(w: World, handled: seq<Id>, at: nat, rounds: nat)
  {
    forall id: Id :: id < at && StayedCandidate(w, id, rounds) ==> id in handled
  }

  ghost predicate SomeLeft(w: World, handled: seq<Id>, n: nat)
  {
    exists id: Id :: Candidate(w.tables(n), id) && id !in handled
  }

  /** No contact that stayed a candidate is left behind a handled one. */
  ghost predicate NoneSkipped(w: World, handled: seq<Id>, rounds: nat)
  {
    forall last, id: Id :: last in handled && id <= last && StayedCandidate(w, id, rounds) ==> id in handled
  }

  /** A page handled in part extends what is covered to the last id handled. */
  lemma PartCovers(w: World, before: seq<Id>, from: nat, n: nat, pageSize: nat, done: nat)
    requires Covered(w, before, from, n) && done <= |EligiblePage(w.tables(n), from, pageSize)|
    ensures var page := EligiblePage(w.tables(n), from, pageSize);
      Covered(w, before + page[..done], Past(from, page, done), n + 1)
  {
    var page := EligiblePage(w.tables(n), from, pageSize);
    PageIsSound(w.tables(n), from, pageSize);
    forall id: Id | id < Past(from, page, done) && StayedCandidate(w, id, n + 1) ensures id in before + page[..done] {
      assert Candidate(w.tables(n), id) && StayedCandidate(w, id, n);
      if id >= from {
        PageMissesNone(w.tables(n), from, pageSize, id);
        var i :| 0 <= i < |page| && page[i] == id;
        assert i < done && page[..done][i] == id;
      }
    }
  }

  lemma EmptyPageCovers(w: World, before: seq<Id>, from: nat, n: nat, pageSize: nat)
    requires Covered(w, before, from, n) && pageSize > 0 && EligiblePage(w.tables(n), from, pageSize) == []
    ensures Covered(w, before, ID_BOUND, n + 1)
  {
    forall id: Id | StayedCandidate(w, id, n + 1) ensures id in before {
      assert Candidate(w.tables(n), id) && StayedCandidate(w, id, n);
      if id >= from {
        PageMissesNone(w.tables(n), from, pageSize, id);
      }
    }
  }

  lemma CoveredSkipsNone(w: World, handled: seq<Id>, at: nat, rounds: nat, more: nat)
    requires Covered(w, handled, at, rounds) && Handled(w, handled, at, more) && rounds <= more
    ensures NoneSkipped(w, handled, more)
  {
    forall last, id: Id | last in handled && id <= last && StayedCandidate(w, id, more) ensures id in handled {
      assert id < at && StayedCandidate(w, id, rounds);
    }
  }

  lemma SkipsNoneLater(w: World, handled: seq<Id>, rounds: nat)
    requires NoneSkipped(w, handled, rounds)
    ensures NoneSkipped(w, handled, rounds + 1)
  {
    forall last, id: Id | last in handled && id <= last && StayedCandidate(w, id, rounds + 1) ensures id in handled {
      assert StayedCandidate(w, id, rounds);
    }
  }

  lemma StoppedPageLeavesSome(w: World, before: seq<Id>, page: seq<Id>, done: nat, from: nat, n: nat)
    requires done < |page| && Increasing(page) && Handled(w, before, from, n)
    requires forall id :: id in page ==> id >= from && Candidate(w.tables(n), id)
    ensures SomeLeft(w, before + page[..done], n)
  {
    assert page[done] in page;
    assert page[done] !in page[..done];
    assert page[done] !in before;
  }

  /** What is known once a page has been handled up to `done`. */
  lemma AfterPage(w: World, before: seq<Id>, from: nat, n: nat, pageSize: nat, handled: seq<Id>, done: nat)
    requires from <= ID_BOUND && Covered(w, before, from, n) && Handled(w, before, from, n)
    requires var page := EligiblePage(w.tables(n), from, pageSize);
      done <= |page| && handled == before + page[..done] && Handled(w, handled, Past(from, page, done), n + 1)
    ensures var page := EligiblePage(w.tables(n), from, pageSize);
      && Covered(w, handled, Past(from, page, done), n + 1)
      && (done < |page| ==> SomeLeft(w, handled, n))
    ensures Handled(w, handled, ID_BOUND, n + 1) && NoneSkipped(w, handled, n + 1)
  {
    hide Covered, Handled, NoneSkipped, SomeLeft, EligiblePage, Candidate;
    var page := EligiblePage(w.tables(n), from, pageSize);
    PageIsSound(w.tables(n), from, pageSize);
    PartCovers(w, before, from, n, pageSize, done);
    CoveredSkipsNone(w, handled, Past(from, page, done), n + 1, n + 1);
    Widen(w, handled, Past(from, page, done), ID_BOUND, n + 1, n + 1);
    if done < |page| {
      StoppedPageLeavesSome(w, before, page, done, from, n);
    }
  }

  /** Where the scan stands between two pages: what it has handled and covered, ... */
  ghost predicate Placed(w: World, r: Report, from: nat, handled: seq<Id>)
  {
    && Handled(w, handled, if r.complete then from else ID_BOUND, r.pages)
    && (r.complete ==> from <= ID_BOUND && Covered(w, handled, from, r.pages))
    && (!r.complete ==> r.pages > 0 && SomeLeft(w, handled, r.pages - 1))
    && NoneSkipped(w, handled, r.pages)
    && forall n: nat :: n < r.pages ==> w.readable(n)
  }

  /** ... and what it has logged and counted. */
  ghost predicate Logged(
    w: World, r: Report, calls: nat, handled: seq<Id>, log: seq<Entry>, refused: Option<Entry>)
  {
    && Counted(handled, r) && LogIs(w, log, handled) && Reports(log, r)
    && (r.complete ==> !r.backlogFull && calls == Offers(log))
    && (refused.Some? <==> r.backlogFull)
    && (refused.Some? ==> RefusalIs(w, log, refused.value) && refused.value.fate == Answered(BacklogFull))
    && (!r.complete && !r.backlogFull ==> r.enqueued == MAX_ENQUEUE_PER_REQUEST)
  }

  lemma StartPlaced(w: World, r: Report)
    requires r == Report(0, 0, 0, 0, 0, true, false)
    ensures Placed(w, r, 0, []) && Logged(w, r, 0, [], [], None)
  {
  }

  lemma PlacedFacts(w: World, r: Report, from: nat, handled: seq<Id>)
    requires Placed(w, r, from, handled) && r.complete
    ensures Handled(w, handled, from, r.pages) && Covered(w, handled, from, r.pages) && from <= ID_BOUND
    ensures Handled(w, handled, ID_BOUND, r.pages + 1) && NoneSkipped(w, handled, r.pages + 1)
    ensures forall n: nat :: n < r.pages ==> w.readable(n)
  {
    Widen(w, handled, from, ID_BOUND, r.pages, r.pages + 1);
    SkipsNoneLater(w, handled, r.pages);
  }

  lemma PlacedEnd(w: World, r: Report, from: nat, handled: seq<Id>)
    requires Placed(w, r, from, handled) && !r.complete
    ensures Handled(w, handled, ID_BOUND, r.pages + 1) && NoneSkipped(w, handled, r.pages + 1)
    ensures r.pages > 0 && SomeLeft(w, handled, r.pages - 1)
    ensures forall n: nat :: n < r.pages ==> w.readable(n)
  {
    Widen(w, handled, ID_BOUND, ID_BOUND, r.pages, r.pages + 1);
    SkipsNoneLater(w, handled, r.pages);
  }

  lemma PagePlaced(
    w: World, before: seq<Id>, start: Report, from: nat, pageSize: nat, handled: seq<Id>, done: nat, r: Report)
    requires Placed(w, start, from, before) && start.complete && w.readable(start.pages) && r.pages == start.pages
    requires var page := EligiblePage(w.tables(start.pages), from, pageSize);
      && done <= |page| && handled == before + page[..done]
      && Handled(w, handled, Past(from, page, done), start.pages + 1)
      && (r.complete <==> done == |page|)
    ensures var page := EligiblePage(w.tables(start.pages), from, pageSize);
      && Past(from, page, done) <= ID_BOUND
      && Placed(w, r.(pages := r.pages + 1), Past(from, page, done), handled)
  {
    PlacedFacts(w, start, from, before);
    AfterPage(w, before, from, start.pages, pageSize, handled, done);
    hide Handled, Covered, NoneSkipped, SomeLeft, EligiblePage;
  }

  /** The scan itself. It ends on an empty page, at the request limit, on a full backlog, on a Redis
      error or on a page PostgreSQL does not answer; the id order is finite, so it ends. */
  method Scan(w: World, pageSize: nat)
    returns (r: Report, stop: Stop, ghost handled: seq<Id>, ghost log: seq<Entry>, ghost refused: Option<Entry>)
    requires pageSize > 0
    ensures Counted(handled, r) && Handled(w, handled, ID_BOUND, r.pages + 1)
    ensures NoneSkipped(w, handled, r.pages + 1)
    ensures stop.RanOut? && r.complete ==> Covered(w, handled, ID_BOUND, r.pages + 1)
    ensures stop.RanOut? && !r.complete ==> r.pages > 0 && SomeLeft(w, handled, r.pages - 1)
    ensures stop.QueueDown? ==> SomeLeft(w, handled, r.pages)
    ensures forall n: nat :: n < r.pages ==> w.readable(n)
    ensures stop.DatabaseDown? ==> !w.readable(r.pages)
    ensures LogIs(w, log, handled) && Reports(log, r)
    ensures refused.Some? <==> stop.QueueDown? || r.backlogFull
    ensures refused.Some? ==>
      RefusalIs(w, log, refused.value) && refused.value.fate == Answered(if stop.QueueDown? then RedisDown else BacklogFull)
    ensures stop.RanOut? && !r.complete && !r.backlogFull ==> r.enqueued == MAX_ENQUEUE_PER_REQUEST
    ensures !stop.RanOut? ==> r.complete
  {
    hide Covered, SomeLeft, Handled, EligiblePage, Candidate, NoneSkipped, Increasing, LogIs, RefusalIs, Offers, Tally, Placed;
    handled, log, refused := [], [], None;
    r := Report(0, 0, 0, 0, 0, true, false);
    stop := RanOut;
    var cursor: Option<Id> := None;
    var calls := 0;
    StartPlaced(w, r);
    while r.complete
      invariant Placed(w, r, From(cursor), handled) && Logged(w, r, calls, handled, log, refused)
      decreases if r.complete then ID_BOUND + 1 - From(cursor) else 0
    {
      ghost var start, before, from := r, handled, From(cursor);
      PlacedFacts(w, r, from, handled);
      if !w.readable(r.pages) {
        return r, DatabaseDown, handled, log, refused;
      }
      var page := EligiblePage(w.tables(r.pages), From(cursor), pageSize);
      PageIsSound(w.tables(r.pages), from, pageSize);
      if page == [] {
        EmptyPageCovers(w, before, from, r.pages, pageSize);
        return;
      }
      ghost var done;
      var redisDown;
      r, calls, redisDown, handled, done, log, refused := HandlePage(w, r.pages, page, r, calls, handled, from, log);
      if redisDown {
        AfterPage(w, before, from, start.pages, pageSize, handled, done);
        return r, QueueDown, handled, log, refused;
      }
      PagePlaced(w, before, start, from, pageSize, handled, done, r);
      if r.complete {
        assert page[|page| - 1] in page;
        cursor := Some(page[|page| - 1]);
      }
      PlacedAtCursor(w, r.(pages := r.pages + 1), Past(from, page, done), From(cursor), handled);
      r := r.(pages := r.pages + 1);
    }
    PlacedEnd(w, r, From(cursor), handled);
  }

  lemma PlacedAtCursor(w: World, r: Report, at: nat, from: nat, handled: seq<Id>)
    requires Placed(w, r, at, handled) && (r.complete ==> at == from)
    ensures Placed(w, r, from, handled)
  {
  }

  predicate Scanned(result: Result)
  {
    result.Interrupted? || result.DatabaseFailed? || result.Finished?
  }

  /** No contact is handled twice or jumped over; the counters account for exactly the contacts handled,
      at every exit; a complete run handled every contact that was a candidate at every read; one that
      stopped short leaves a candidate unhandled, unless PostgreSQL did not answer. */
  method EnqueueCampaign(w: World, campaign: CampaignState, block: Block, pageSize: nat)
    returns (result: Result, ghost handled: seq<Id>, ghost log: seq<Entry>, ghost refused: Option<Entry>)
    requires pageSize > 0
    ensures result.NotFound? <==> campaign.Missing?
    ensures result.NotActive? <==> campaign.Inactive?
    ensures campaign.Active? ==>
      (result.ServiceUnavailable? <==> block.Unavailable?) && (result.Disabled? <==> block.KillSwitch?)
    ensures !Scanned(result) ==> handled == [] && log == [] && refused == None
    ensures Scanned(result) ==>
      && Counted(handled, result.report) && Increasing(handled)
      && NoneSkipped(w, handled, result.report.pages + 1)
      && (forall id :: id in handled ==> exists n: nat :: n <= result.report.pages && Candidate(w.tables(n), id))
      && (forall n: nat :: n < result.report.pages ==> w.readable(n))
    ensures result.Finished? && result.report.complete ==>
      forall id: Id :: StayedCandidate(w, id, result.report.pages + 1) ==> id in handled
    ensures result.Finished? && !result.report.complete ==>
      result.report.pages > 0 && SomeLeft(w, handled, result.report.pages - 1)
    ensures result.Interrupted? ==> SomeLeft(w, handled, result.report.pages)
    ensures result.DatabaseFailed? ==> !w.readable(result.report.pages)
    ensures Scanned(result) ==> LogIs(w, log, handled) && Reports(log, result.report)
    ensures Scanned(result) ==> (refused.Some? <==> result.Interrupted? || result.report.backlogFull)
    ensures refused.Some? ==>
      RefusalIs(w, log, refused.value)
      && refused.value.fate == Answered(if result.Interrupted? then RedisDown else BacklogFull)
    ensures result.Finished? && !result.report.complete && !result.report.backlogFull ==>
      result.report.enqueued == MAX_ENQUEUE_PER_REQUEST
  {
    handled, log, refused := [], [], None;
    if campaign.Missing? { return NotFound, handled, log, refused; }
    if campaign.Inactive? { return NotActive, handled, log, refused; }
    if block.Unavailable? { return ServiceUnavailable, handled, log, refused; }
    if block.KillSwitch? { return Disabled, handled, log, refused; }
    hide SomeLeft, StayedCandidate, Candidate, NoneSkipped, LogIs, RefusalIs, Tally, Offers;
    var r, stop;
    r, stop, handled, log, refused := Scan(w, pageSize);
    match stop {
      case RanOut => result := Finished(r);
      case QueueDown => result := Interrupted(r);
      case DatabaseDown => result := DatabaseFailed(r);
    }
  }
}
