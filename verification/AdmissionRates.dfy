/** Calls-per-second limits under interleaving. An admission that was granted a lease bumps three shared
    per-second counters one INCR at a time; over a limit it undoes its own increments one DECR at a
    time and gives the lease back (which `AdmissionLeases` follows in the table of leases). Any number
    of admissions run at once, and each may crash, or meet a Redis error, between any two commands. */
module AdmissionRates {
  import opened Basics
  import opened LeaseStore

  /** One per-second counter: a scope and a second. */
  datatype Key = Key(scope: Scope, second: int)

  datatype Phase = Counting | RollingBack | Releasing | Admitted | Rejected | Failed

  /** `bumped` keys were incremented so far, in order; the first `undone` of them were undone. */
  datatype Ticket = Ticket(
    handle: Handle, second: int, phase: Phase, bumped: nat, undone: nat, alive: bool)

  function KeyAt(t: Ticket, i: nat): Key
    requires i < 3
  {
    Key(ScopeAt(t.handle, i), t.second)
  }

  predicate InProgress(t: Ticket) { t.alive && (t.phase.Counting? || t.phase.RollingBack?) }

  datatype Sys = Sys(clock: int, counters: map<Key, int>, expired: set<Key>, tickets: map<nat, Ticket>)

  function CounterOf(s: Sys, k: Key): int { if k in s.counters then s.counters[k] else 0 }

  datatype Step =
    | Advance(elapsed: int)
    | Begin(id: nat, handle: Handle)     // the lease was granted
    | Bump(id: nat)                      // INCR the next key, then compare with its limit
    | Finish(id: nat)                    // all three keys passed
    | Undo(id: nat)                      // DECR the next key of the rollback
    | Reject(id: nat)                    // all undone: the lease is given back
    | Error(id: nat)                     // Redis error: lease given back, counters left as they are
    | Crash(id: nat)
    | Expire(k: Key)

  ghost predicate Enabled(s: Sys, step: Step)
  {
    match step
    case Advance(elapsed) => elapsed >= 0
    case Begin(id, _) => id !in s.tickets
    case Bump(id) => id in s.tickets && s.tickets[id].alive && s.tickets[id].phase.Counting? && s.tickets[id].bumped < 3
    case Finish(id) => id in s.tickets && s.tickets[id].alive && s.tickets[id].phase.Counting? && s.tickets[id].bumped == 3
    case Undo(id) =>
      id in s.tickets && s.tickets[id].alive && s.tickets[id].phase.RollingBack?
      && s.tickets[id].undone < s.tickets[id].bumped <= 3
    case Reject(id) => id in s.tickets && s.tickets[id].alive && s.tickets[id].phase.Releasing?
    case Error(id) => id in s.tickets && InProgress(s.tickets[id])
    case Crash(id) => id in s.tickets
      // A counter key outlives every admission that uses it, and its second is over.
    case Expire(k) =>
      && k.second < s.clock
      && forall id :: id in s.tickets && InProgress(s.tickets[id]) ==> s.tickets[id].second != k.second
  }

  function AfterBump(limits: Limits, s: Sys, id: nat): Sys
    requires id in s.tickets && s.tickets[id].bumped < 3
  {
    var t := s.tickets[id];
    var k := KeyAt(t, t.bumped);
    var value := CounterOf(s, k) + 1;
    var bumped := t.(bumped := t.bumped + 1,
                     phase := if value > LimitOf(limits, k.scope) then RollingBack else Counting);
    s.(counters := s.counters[k := value], tickets := s.tickets[id := bumped])
  }

  function AfterUndo(s: Sys, id: nat): Sys
    requires id in s.tickets && s.tickets[id].undone < 3
  {
    var t := s.tickets[id];
    var k := KeyAt(t, t.undone);
    var undone := t.(undone := t.undone + 1, phase := if t.undone + 1 == t.bumped then Releasing else RollingBack);
    s.(counters := s.counters[k := CounterOf(s, k) - 1], tickets := s.tickets[id := undone])
  }

  ghost function Apply(limits: Limits, s: Sys, step: Step): Sys
    requires Enabled(s, step)
  {
    match step
    case Advance(elapsed) => s.(clock := s.clock + elapsed)
    case Begin(id, h) =>
      s.(tickets := s.tickets[id := Ticket(h, s.clock, Counting, 0, 0, true)])
    case Bump(id) => AfterBump(limits, s, id)
    case Finish(id) => s.(tickets := s.tickets[id := s.tickets[id].(phase := Admitted)])
    case Undo(id) => AfterUndo(s, id)
    case Reject(id) => s.(tickets := s.tickets[id := s.tickets[id].(phase := Rejected)])
    case Error(id) => s.(tickets := s.tickets[id := s.tickets[id].(phase := Failed)])
    case Crash(id) => s.(tickets := s.tickets[id := s.tickets[id].(alive := false)])
    case Expire(k) => s.(counters := s.counters - {k}, expired := s.expired + {k})
  }

  const INITIAL := Sys(0, map[], {}, map[])

  ghost predicate Next(limits: Limits, s: Sys, t: Sys)
  {
    exists step :: Enabled(s, step) && t == Apply(limits, s, step)
  }

  ghost predicate Run(limits: Limits, trace: seq<Sys>)
  {
    |trace| > 0 && forall i :: 0 <= i < |trace| - 1 ==> Next(limits, trace[i], trace[i + 1])
  }

  // ---- who holds an increment ---------------------------------------------------------------

  /** The ticket's increment of this key is in the counter now. */
  predicate Holds(t: Ticket, k: Key)
  {
    exists i: nat :: i < 3 && t.undone <= i < t.bumped && KeyAt(t, i) == k
  }

  /** The ticket found this key within its limit and has not given up (it may have crashed). */
  predicate Passed(t: Ticket, k: Key)
  {
    (t.phase.Counting? || t.phase.Admitted?) && Holds(t, k)
  }

  function Holders(s: Sys, k: Key): set<nat> { set id | id in s.tickets && Holds(s.tickets[id], k) }

  function Passing(s: Sys, k: Key): set<nat> { set id | id in s.tickets && Passed(s.tickets[id], k) }

  /** Admissions granted in this key's second that fall under this key. */
  function AdmittedUnder(s: Sys, k: Key): set<nat>
  {
    set id | id in s.tickets && s.tickets[id].phase.Admitted? && k.second == s.tickets[id].second
             && k.scope in ScopesOf(s.tickets[id].handle)
  }

  ghost predicate TicketOk(s: Sys, t: Ticket)
  {
    && t.undone <= t.bumped <= 3 && t.second <= s.clock
    && (t.phase.Counting? ==> t.undone == 0)
    && (t.phase.Admitted? ==> t.undone == 0 && t.bumped == 3)
    && (t.phase.RollingBack? ==> t.undone < t.bumped)
    && (t.phase.Rejected? ==> t.undone == t.bumped)
    && (t.phase.Releasing? ==> t.undone == t.bumped)
  }

  ghost predicate KeyOk(limits: Limits, s: Sys, k: Key)
  {
    && (k !in s.expired ==> CounterOf(s, k) == |Holders(s, k)|)
    && (|Passing(s, k)| <= if LimitOf(limits, k.scope) >= 0 then LimitOf(limits, k.scope) else 0)
  }

  ghost predicate ExpiredOk(s: Sys)
  {
    forall k :: k in s.expired ==>
      k.second < s.clock && forall id :: id in s.tickets && InProgress(s.tickets[id]) ==> s.tickets[id].second != k.second
  }

  ghost predicate Inv(limits: Limits, s: Sys)
  {
    && (forall id :: id in s.tickets ==> TicketOk(s, s.tickets[id]))
    && ExpiredOk(s)
    && forall k :: KeyOk(limits, s, k)
  }

  /** A ticket is replaced by one holding and passing no key it did not before. */
  lemma KeyOkShrinks(limits: Limits, s: Sys, t: Sys, k: Key, id: nat)
    requires KeyOk(limits, s, k) && id in t.tickets && t.tickets == s.tickets[id := t.tickets[id]]
    requires CounterOf(t, k) == CounterOf(s, k) && (k in s.expired ==> k in t.expired)
    requires Holds(t.tickets[id], k) <==> id in s.tickets && Holds(s.tickets[id], k)
    requires Passed(t.tickets[id], k) ==> id in s.tickets && Passed(s.tickets[id], k)
    ensures KeyOk(limits, t, k)
  {
    assert Holders(t, k) == Holders(s, k);
    SubsetSize(Passing(t, k), Passing(s, k));
  }

  lemma BumpHolders(limits: Limits, s: Sys, id: nat, k: Key)
    requires Inv(limits, s) && Enabled(s, Bump(id))
    ensures var t := AfterBump(limits, s, id);
      if k == KeyAt(s.tickets[id], s.tickets[id].bumped) then !Holds(s.tickets[id], k) && Holds(t.tickets[id], k)
      else Holds(t.tickets[id], k) <==> Holds(s.tickets[id], k)
  {
    var before, after := s.tickets[id], AfterBump(limits, s, id).tickets[id];
    assert TicketOk(s, before);
    assert forall i: nat :: i < 3 ==> KeyAt(after, i) == KeyAt(before, i);
    if k == KeyAt(before, before.bumped) {
      assert KeyAt(after, before.bumped) == k;
    }
  }

  lemma BumpOwnKey(limits: Limits, s: Sys, id: nat, k: Key)
    requires Inv(limits, s) && Enabled(s, Bump(id)) && k == KeyAt(s.tickets[id], s.tickets[id].bumped)
    ensures KeyOk(limits, AfterBump(limits, s, id), k)
  {
    BumpHolders(limits, s, id, k);
    var t := AfterBump(limits, s, id);
    assert KeyOk(limits, s, k) && k !in s.expired;
    hide Holds, Inv;
    assert Holders(t, k) == Holders(s, k) + {id};
    if t.tickets[id].phase.Counting? {
      SubsetSize(Passing(t, k), Holders(t, k));
    } else {
      SubsetSize(Passing(t, k), Passing(s, k));
    }
  }

  lemma BumpKeepsKey(limits: Limits, s: Sys, id: nat, k: Key)
    requires Inv(limits, s) && Enabled(s, Bump(id))
    ensures KeyOk(limits, AfterBump(limits, s, id), k)
  {
    if k == KeyAt(s.tickets[id], s.tickets[id].bumped) {
      BumpOwnKey(limits, s, id, k);
    } else {
      BumpHolders(limits, s, id, k);
      assert KeyOk(limits, s, k);
      hide Holds, Inv;
      KeyOkShrinks(limits, s, AfterBump(limits, s, id), k, id);
    }
  }

  lemma UndoKeepsKey(limits: Limits, s: Sys, id: nat, k: Key)
    requires Inv(limits, s) && Enabled(s, Undo(id))
    ensures KeyOk(limits, AfterUndo(s, id), k)
  {
    var t := AfterUndo(s, id);
    var before, after := s.tickets[id], t.tickets[id];
    var mine := KeyAt(before, before.undone);
    assert KeyOk(limits, s, k);
    assert forall i: nat :: i < 3 ==> KeyAt(after, i) == KeyAt(before, i);
    if k == mine {
      assert Holds(before, k) && !Holds(after, k);
      assert Holders(t, k) == Holders(s, k) - {id};
      SubsetSize(Passing(t, k), Passing(s, k));
    } else {
      assert Holds(after, k) <==> Holds(before, k);
      KeyOkShrinks(limits, s, t, k, id);
    }
  }

  lemma StepKeepsKeys(limits: Limits, s: Sys, step: Step, k: Key)
    requires Inv(limits, s) && Enabled(s, step)
    ensures KeyOk(limits, Apply(limits, s, step), k)
  {
    var t := Apply(limits, s, step);
    assert KeyOk(limits, s, k);
    match step
    case Advance(_) => assert Holders(t, k) == Holders(s, k) && Passing(t, k) == Passing(s, k);
    case Begin(id, _) =>
      assert !Holds(t.tickets[id], k);
      KeyOkShrinks(limits, s, t, k, id);
    case Bump(id) => BumpKeepsKey(limits, s, id, k);
    case Undo(id) => UndoKeepsKey(limits, s, id, k);
    case Finish(id) => ReplacedTicket(limits, s, t, k, id);
    case Reject(id) => ReplacedTicket(limits, s, t, k, id);
    case Error(id) => ReplacedTicket(limits, s, t, k, id);
    case Crash(id) => ReplacedTicket(limits, s, t, k, id);
    case Expire(j) => assert Holders(t, k) == Holders(s, k) && Passing(t, k) == Passing(s, k);
  }

  lemma ReplacedTicket(limits: Limits, s: Sys, t: Sys, k: Key, id: nat)
    requires KeyOk(limits, s, k) && id in s.tickets && id in t.tickets
    requires t == s.(tickets := s.tickets[id := t.tickets[id]])
    requires var a, b := s.tickets[id], t.tickets[id];
      && a.handle == b.handle && a.second == b.second && a.bumped == b.bumped && a.undone == b.undone
      && (b.phase.Counting? || b.phase.Admitted? ==> a.phase.Counting? || a.phase.Admitted?)
    ensures KeyOk(limits, t, k)
  {
    var a, b := s.tickets[id], t.tickets[id];
    assert forall i: nat :: i < 3 ==> KeyAt(a, i) == KeyAt(b, i);
    KeyOkShrinks(limits, s, t, k, id);
  }

  lemma StepKeepsInv(limits: Limits, s: Sys, step: Step)
    requires Inv(limits, s) && Enabled(s, step)
    ensures Inv(limits, Apply(limits, s, step))
  {
    var t := Apply(limits, s, step);
    forall k ensures KeyOk(limits, t, k) {
      StepKeepsKeys(limits, s, step, k);
    }
    hide KeyOk;
    assert ExpiredOk(t);
  }

  lemma NextKeepsInv(limits: Limits, s: Sys, t: Sys)
    requires Inv(limits, s) && Next(limits, s, t)
    ensures Inv(limits, t)
  {
    hide Inv;
    var step :| Enabled(s, step) && t == Apply(limits, s, step);
    StepKeepsInv(limits, s, step);
  }

  lemma {:induction false} RunKeepsInv(limits: Limits, trace: seq<Sys>, i: nat)
    requires Run(limits, trace) && trace[0] == INITIAL && i < |trace|
    ensures Inv(limits, trace[i])
  {
    hide Next;
    if i > 0 {
      hide Inv;
      RunKeepsInv(limits, trace, i - 1);
      NextKeepsInv(limits, trace[i - 1], trace[i - 1 + 1]);
    } else {
      forall k ensures KeyOk(limits, INITIAL, k) {
        assert Holders(INITIAL, k) == {} && Passing(INITIAL, k) == {};
      }
    }
  }

  /** An increment goes on to the next key exactly if its own counter, one higher, is within the limit; over it
      the rollback begins. Nothing else changes. */
  lemma BumpExactly(limits: Limits, s: Sys, id: nat)
    requires Enabled(s, Bump(id))
    ensures var t, was := Apply(limits, s, Bump(id)), s.tickets[id];
      var k := KeyAt(was, was.bumped);
      && t.counters == s.counters[k := CounterOf(s, k) + 1] && id in t.tickets && t.tickets == s.tickets[id := t.tickets[id]]
      && (t.tickets[id].phase.Counting? <==> CounterOf(s, k) + 1 <= LimitOf(limits, k.scope))
      && (t.tickets[id].phase.Counting? || t.tickets[id].phase.RollingBack?)
      && t.tickets[id].bumped == was.bumped + 1 && t.tickets[id].undone == was.undone && t.tickets[id].alive == was.alive
  {
  }

  /** Rate safety. In every reachable state, for every scope and second: the counter, while its key
      lives, is at least the number admitted, and no more are admitted than the scope's limit. */
  lemma RateIsSafe(limits: Limits, trace: seq<Sys>, i: nat, k: Key)
    requires Run(limits, trace) && trace[0] == INITIAL && i < |trace|
    ensures k !in trace[i].expired ==> |AdmittedUnder(trace[i], k)| <= CounterOf(trace[i], k)
    ensures |AdmittedUnder(trace[i], k)| <= if LimitOf(limits, k.scope) >= 0 then LimitOf(limits, k.scope) else 0
  {
    RunKeepsInv(limits, trace, i);
    var s := trace[i];
    assert KeyOk(limits, s, k);
    forall id | id in AdmittedUnder(s, k) ensures id in Passing(s, k) {
      var t := s.tickets[id];
      assert TicketOk(s, t);
      var j: nat := if k.scope.Global? then 0 else if k.scope.Campaign? then 1 else 2;
      assert KeyAt(t, j) == k;
      assert Holds(t, k);
    }
    SubsetSize(AdmittedUnder(s, k), Passing(s, k));
    SubsetSize(Passing(s, k), Holders(s, k));
  }
}
