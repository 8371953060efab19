/** The durable outbound controls: rows in PostgreSQL that engage and release change in one statement
    each, and one process's short read cache in front of them. */
module OutboundControl {
  import opened Basics

  type Name = string

  const MAX_REASON_LENGTH := 200
  const MAX_CATEGORY_LENGTH := 64

  datatype Control = Control(
    engaged: bool, reason: Option<string>, category: Option<string>,
    engagedBy: string, engagedAt: real, releasedBy: Option<string>, releasedAt: Option<real>)

  type Table = map<Name, Control>

  /** A transition of one control, and whether its audit event was written with it. */
  datatype Transition = Transition(name: Name, on: bool, audited: bool)

  /** Cut to the limit; an empty text is none. */
  function Clip(value: Option<string>, limit: nat): (r: Option<string>)
    ensures r.Some? <==> value.Some? && |value.value| > 0 && limit > 0
    ensures r.Some? ==> r.value <= value.value && |r.value| == if |value.value| > limit then limit else |value.value|
  {
    if value.None? || value.value == "" || limit == 0 then None
    else Some(if |value.value| <= limit then value.value else value.value[..limit])
  }

  /** What is asked to be written when a control is engaged. */
  datatype Request = Request(actor: string, reason: Option<string>, category: Option<string>)

  function NewControl(q: Request, now: real): Control
  {
    Control(true, Clip(q.reason, MAX_REASON_LENGTH), Clip(q.category, MAX_CATEGORY_LENGTH), q.actor, now, None, None)
  }

  predicate On(t: Table, name: Name) { name in t && t[name].engaged }

  /** INSERT ... ON CONFLICT DO UPDATE ... WHERE NOT engaged: the new table, and whether it changed. */
  function Engaged(t: Table, name: Name, q: Request, now: real): (r: (Table, bool))
    ensures r.1 == !On(t, name) && On(r.0, name)
    ensures forall other :: other != name ==> On(r.0, other) == On(t, other)
    ensures !r.1 ==> r.0 == t
  {
    if On(t, name) then (t, false) else (t[name := NewControl(q, now)], true)
  }

  /** UPDATE ... SET engaged = false ... WHERE engaged: who engaged it, when and why is kept. */
  function Released(t: Table, name: Name, actor: string, now: real): (r: (Table, bool))
    ensures r.1 == On(t, name) && !On(r.0, name)
    ensures forall other :: other != name ==> On(r.0, other) == On(t, other)
    ensures !r.1 ==> r.0 == t
  {
    if On(t, name) then (t[name := t[name].(engaged := false, releasedBy := Some(actor), releasedAt := Some(now))], true) else (t, false)
  }

  // ---- any number of writers, and the readers of one process --------------------------------

  /** A committed table and the instant of its commit. */
  datatype Version = Version(at: real, table: Table)

  /** `read` is the instant the value was read from the database, kept for the statement only. */
  datatype Entry = Entry(stamp: real, value: Table, read: real)

  /** A reader takes its time first, then looks at the cache, then reads, then stores. */
  datatype Reader =
    | Started(now: real, useCache: bool)
    | Missed(now: real)
    | Fetched(now: real, value: Table, read: real)
    | Returned(now: real, value: Table, read: real)

  datatype Sys = Sys(
    clock: real, versions: seq<Version>, transitions: seq<Transition>, audit: seq<Name>,
    cache: Option<Entry>, readers: map<nat, Reader>)

  const INITIAL := Sys(0.0, [Version(0.0, map[])], [], [], None, map[])

  datatype Step =
    | Tick(elapsed: real)
    | Engage(name: Name, q: Request, audited: bool)
    | Release(name: Name, actor: string)
    | Reset
    | Begin(r: nat, useCache: bool)
    | Look(r: nat)
    | Fetch(r: nat)
    | Store(r: nat)

  predicate Fresh(ttl: real, e: Entry, now: real) { 0.0 <= now - e.stamp < ttl }

  function Current(s: Sys): Table
    requires s.versions != []
  {
    s.versions[|s.versions| - 1].table
  }

  predicate Enabled(s: Sys, step: Step)
  {
    s.versions != []
    && match step
       case Tick(elapsed) => elapsed >= 0.0
       case Begin(r, _) => r !in s.readers
       case Look(r) => r in s.readers && s.readers[r].Started?
       case Fetch(r) => r in s.readers && s.readers[r].Missed?
       case Store(r) => r in s.readers && s.readers[r].Fetched?
       case _ => true
  }

  function AfterWrite(s: Sys, result: (Table, bool), t: Transition): Sys
  {
    if !result.1 then s
    else s.(versions := s.versions + [Version(s.clock, result.0)], transitions := s.transitions + [t],
            audit := if t.audited then s.audit + [t.name] else s.audit)
  }

  function Apply(ttl: real, s: Sys, step: Step): Sys
    requires Enabled(s, step)
  {
    match step
    case Tick(elapsed) => s.(clock := s.clock + elapsed)
    case Engage(name, q, audited) =>
      AfterWrite(s, Engaged(Current(s), name, q, s.clock), Transition(name, true, audited))
    case Release(name, actor) => AfterWrite(s, Released(Current(s), name, actor, s.clock), Transition(name, false, false))
    case Reset => s.(cache := None)
    case Begin(r, useCache) => s.(readers := s.readers[r := Started(s.clock, useCache)])
    case Look(r) =>
      var now := s.readers[r].now;
      if s.readers[r].useCache && ttl > 0.0 && s.cache.Some? && Fresh(ttl, s.cache.value, now)
      then s.(readers := s.readers[r := Returned(now, s.cache.value.value, s.cache.value.read)])
      else s.(readers := s.readers[r := Missed(now)])
    case Fetch(r) => s.(readers := s.readers[r := Fetched(s.readers[r].now, Current(s), s.clock)])
    case Store(r) =>
      var Fetched(now, value, read) := s.readers[r];
      s.(cache := Some(Entry(now, value, read)), readers := s.readers[r := Returned(now, value, read)])
  }

  ghost predicate Next(ttl: real, s: Sys, t: Sys)
  {
    exists step :: Enabled(s, step) && t == Apply(ttl, s, step)
  }

  ghost predicate Run(ttl: real, trace: seq<Sys>)
  {
    |trace| > 0 && forall i :: 0 <= i < |trace| - 1 ==> Next(ttl, trace[i], trace[i + 1])
  }

  // ---- invariant ----------------------------------------------------------------------------

  /** `value` was the committed table at instant `at`. */
  ghost predicate WasCurrent(versions: seq<Version>, value: Table, at: real)
  {
    exists i :: 0 <= i < |versions| && versions[i].table == value && versions[i].at <= at
                && (i + 1 < |versions| ==> at <= versions[i + 1].at)
  }

  /** The last transition of a control. */
  function LastOf(log: seq<Transition>, name: Name): Option<bool>
  {
    if log == [] then None
    else if log[|log| - 1].name == name then Some(log[|log| - 1].on)
    else LastOf(log[..|log| - 1], name)
  }

  function AuditOf(log: seq<Transition>): seq<Name>
  {
    if log == [] then []
    else AuditOf(log[..|log| - 1]) + (if log[|log| - 1].audited then [log[|log| - 1].name] else [])
  }

  ghost predicate Alternating(log: seq<Transition>)
  {
    forall i :: 0 <= i < |log| ==> log[i].on == (LastOf(log[..i], log[i].name) != Some(true))
  }

  ghost predicate Versions(s: Sys)
  {
    && s.versions != [] && s.versions[|s.versions| - 1].at <= s.clock
    && (forall name :: On(Current(s), name) == (LastOf(s.transitions, name) == Some(true)))
    && Alternating(s.transitions) && s.audit == AuditOf(s.transitions)
  }

  ghost predicate ReaderOk(ttl: real, s: Sys, rd: Reader)
  {
    && rd.now <= s.clock
    && (rd.Fetched? ==> rd.now <= rd.read <= s.clock && WasCurrent(s.versions, rd.value, rd.read))
    && (rd.Returned? ==>
          rd.read <= s.clock && WasCurrent(s.versions, rd.value, rd.read) && (rd.now <= rd.read || rd.now - ttl < rd.read))
  }

  ghost predicate Reads(ttl: real, s: Sys)
  {
    && (s.cache.Some? ==> s.cache.value.stamp <= s.cache.value.read <= s.clock
                          && WasCurrent(s.versions, s.cache.value.value, s.cache.value.read))
    && forall r :: r in s.readers ==> ReaderOk(ttl, s, s.readers[r])
  }

  ghost predicate Inv(ttl: real, s: Sys) { Versions(s) && Reads(ttl, s) }

  lemma WasCurrentLater(s: Sys, result: (Table, bool), t: Transition, value: Table, at: real)
    requires WasCurrent(s.versions, value, at) && at <= s.clock
    ensures WasCurrent(AfterWrite(s, result, t).versions, value, at)
  {
    var i :| 0 <= i < |s.versions| && s.versions[i].table == value && s.versions[i].at <= at
             && (i + 1 < |s.versions| ==> at <= s.versions[i + 1].at);
    var v := AfterWrite(s, result, t).versions;
    assert v[i].table == value && (i + 1 < |v| ==> at <= v[i + 1].at);
  }

  lemma WriteKeepsVersions(s: Sys, table: Table, t: Transition)
    requires Versions(s) && t.on == !On(Current(s), t.name) && On(table, t.name) == t.on
    requires forall other :: other != t.name ==> On(table, other) == On(Current(s), other)
    ensures Versions(AfterWrite(s, (table, true), t))
  {
    hide Alternating, LastOf, AuditOf;
    AlternatingExtends(s.transitions, t);
    LogGrows(s.transitions, t);
    var u := AfterWrite(s, (table, true), t);
    assert Current(u) == table;
  }

  lemma LogGrows(log: seq<Transition>, t: Transition)
    ensures AuditOf(log + [t]) == AuditOf(log) + (if t.audited then [t.name] else [])
    ensures forall name :: LastOf(log + [t], name) == if name == t.name then Some(t.on) else LastOf(log, name)
  {
    var u := log + [t];
    assert u[..|u| - 1] == log;
  }

  lemma AlternatingExtends(log: seq<Transition>, t: Transition)
    requires Alternating(log) && t.on == (LastOf(log, t.name) != Some(true))
    ensures Alternating(log + [t])
  {
    hide LastOf;
    var u := log + [t];
    forall i | 0 <= i < |u| ensures u[i].on == (LastOf(u[..i], u[i].name) != Some(true)) {
      assert u[..i] == if i < |log| then log[..i] else log;
    }
  }

  lemma WriteKeepsReads(ttl: real, s: Sys, result: (Table, bool), tr: Transition)
    requires Reads(ttl, s)
    ensures Reads(ttl, AfterWrite(s, result, tr))
  {
    var t := AfterWrite(s, result, tr);
    forall value, at | WasCurrent(s.versions, value, at) && at <= s.clock ensures WasCurrent(t.versions, value, at) {
      WasCurrentLater(s, result, tr, value, at);
    }
    assert t.readers == s.readers && t.cache == s.cache && t.clock == s.clock;
    hide WasCurrent, AfterWrite;
    forall r | r in t.readers ensures ReaderOk(ttl, t, t.readers[r]) {
      assert ReaderOk(ttl, s, s.readers[r]);
    }
  }

  lemma ReadStepKeepsReads(ttl: real, s: Sys, step: Step)
    requires Reads(ttl, s) && Enabled(s, step) && !step.Engage? && !step.Release?
    requires s.versions[|s.versions| - 1].at <= s.clock
    ensures Reads(ttl, Apply(ttl, s, step))
  {
    var t := Apply(ttl, s, step);
    assert WasCurrent(s.versions, Current(s), s.clock) by { assert s.versions[|s.versions| - 1].table == Current(s); }
    assert step.Look? || step.Fetch? || step.Store? ==> ReaderOk(ttl, s, s.readers[step.r]);
    hide WasCurrent;
    forall r | r in t.readers ensures ReaderOk(ttl, t, t.readers[r]) {
      if r in s.readers {
        assert ReaderOk(ttl, s, s.readers[r]);
      }
    }
  }

  lemma StepKeepsInv(ttl: real, s: Sys, step: Step)
    requires Inv(ttl, s) && Enabled(s, step)
    ensures Inv(ttl, Apply(ttl, s, step))
  {
    hide Reads, Engaged, Released, Alternating, AuditOf, LastOf;
    if step.Engage? {
      WriteKeepsInv(ttl, s, Engaged(Current(s), step.name, step.q, s.clock), Transition(step.name, true, step.audited));
    } else if step.Release? {
      WriteKeepsInv(ttl, s, Released(Current(s), step.name, step.actor, s.clock), Transition(step.name, false, false));
    } else {
      ReadStepKeepsReads(ttl, s, step);
    }
  }

  lemma WriteKeepsInv(ttl: real, s: Sys, result: (Table, bool), tr: Transition)
    requires Inv(ttl, s) && (result.1 ==> tr.on == !On(Current(s), tr.name) && On(result.0, tr.name) == tr.on)
    requires forall other :: other != tr.name ==> On(result.0, other) == On(Current(s), other)
    ensures Inv(ttl, AfterWrite(s, result, tr))
  {
    hide Reads, Versions;
    WriteKeepsReads(ttl, s, result, tr);
    if result.1 {
      WriteKeepsVersions(s, result.0, tr);
    }
  }

  lemma {:induction false} RunKeepsInv(ttl: real, trace: seq<Sys>, i: nat)
    requires Run(ttl, trace) && trace[0] == INITIAL && i < |trace|
    ensures Inv(ttl, trace[i])
  {
    if i == 0 {
      assert Inv(ttl, INITIAL);
    } else {
      hide Inv, Apply, Enabled;
      RunKeepsInv(ttl, trace, i - 1);
      assert Next(ttl, trace[i - 1], trace[i - 1 + 1]);
      var step :| Enabled(trace[i - 1], step) && trace[i] == Apply(ttl, trace[i - 1], step);
      StepKeepsInv(ttl, trace[i - 1], step);
    }
  }

  // ---- results ------------------------------------------------------------------------------

  /** Whatever a read returns was the committed state at one instant: not before the read began, or,
      from the cache, less than the cache's life before it; a slow reader that stores over a newer
      entry makes no difference. */
  lemma ReadsAreRecent(ttl: real, trace: seq<Sys>, i: nat, r: nat)
    requires Run(ttl, trace) && trace[0] == INITIAL && i < |trace|
    requires r in trace[i].readers && trace[i].readers[r].Returned?
    ensures var rd := trace[i].readers[r];
      && WasCurrent(trace[i].versions, rd.value, rd.read)
      && rd.read <= trace[i].clock && (rd.now <= rd.read || rd.now - ttl < rd.read)
  {
    RunKeepsInv(ttl, trace, i);
    hide Run;
    assert ReaderOk(ttl, trace[i], trace[i].readers[r]);
  }

  lemma {:induction false} LastIsSomewhere(log: seq<Transition>, name: Name)
    requires LastOf(log, name).Some?
    ensures exists m :: (0 <= m < |log| && log[m].name == name && log[m].on == LastOf(log, name).value
                         && forall n :: m < n < |log| ==> log[n].name != name)
  {
    var last := |log| - 1;
    if log[last].name == name {
      assert log[last].on == LastOf(log, name).value;
    } else {
      LastIsSomewhere(log[..last], name);
      var m :| 0 <= m < last && log[m].name == name && log[m].on == LastOf(log, name).value
               && forall n :: m < n < last ==> log[n].name != name;
      assert log[m].name == name;
    }
  }

  lemma {:induction false} LastExists(log: seq<Transition>, name: Name, i: nat)
    requires i < |log| && log[i].name == name
    ensures LastOf(log, name).Some?
  {
    if i < |log| - 1 {
      LastExists(log[..|log| - 1], name, i);
    }
  }

  /** Successful engages and releases of a control strictly alternate:
      between two of a kind there is one of the other. */
  lemma TransitionsAlternate(ttl: real, trace: seq<Sys>, t: nat, i: nat, j: nat)
    requires Run(ttl, trace) && trace[0] == INITIAL && t < |trace|
    requires var log := trace[t].transitions;
      i < j < |log| && log[i].name == log[j].name && log[i].on == log[j].on
    ensures var log := trace[t].transitions;
      exists m :: i < m < j && log[m].name == log[i].name && log[m].on == !log[i].on
  {
    RunKeepsInv(ttl, trace, t);
    hide Run;
    var log := trace[t].transitions;
    var name := log[j].name;
    var past := log[..j];
    assert past[i].name == name;
    LastExists(past, name, i);
    LastIsSomewhere(past, name);
    var m :| 0 <= m < |past| && past[m].name == name && past[m].on == LastOf(past, name).value
             && forall n :: m < n < |past| ==> past[n].name != name;
    assert log[m].name == log[i].name && log[m].on == !log[j].on && m >= i;
  }

  /** The audit trail is the audited engages, one event each, in order: an engage that changed nothing
      wrote none. */
  lemma AuditIsExact(ttl: real, trace: seq<Sys>, t: nat)
    requires Run(ttl, trace) && trace[0] == INITIAL && t < |trace|
    ensures trace[t].audit == AuditOf(trace[t].transitions)
  {
    RunKeepsInv(ttl, trace, t);
    hide Run;
  }

  /** The off-to-on moves of a control in the committed tables. */
  function Moves(versions: seq<Version>, name: Name): nat
  {
    if |versions| < 2 then 0
    else Moves(versions[..|versions| - 1], name)
         + if !On(versions[|versions| - 2].table, name) && On(versions[|versions| - 1].table, name) then 1 else 0
  }

  lemma MovesGrow(versions: seq<Version>, v: Version, name: Name)
    requires versions != []
    ensures Moves(versions + [v], name) == Moves(versions, name)
      + if !On(versions[|versions| - 1].table, name) && On(v.table, name) then 1 else 0
  {
    assert (versions + [v])[..|versions|] == versions;
  }

  ghost predicate Follows(ttl: real, trace: seq<Sys>, steps: seq<Step>)
  {
    |trace| == |steps| + 1
    && forall i :: 0 <= i < |steps| ==> Enabled(trace[i], steps[i]) && trace[i + 1] == Apply(ttl, trace[i], steps[i])
  }

  /** When every engage of a control is audited, its audit events are as many as the moves from off to on
      that the committed tables show. */
  lemma {:induction false} OneEventPerMove(ttl: real, trace: seq<Sys>, steps: seq<Step>, i: nat, name: Name)
    requires Follows(ttl, trace, steps) && trace[0] == INITIAL && i < |trace|
    requires forall j :: 0 <= j < i && steps[j].Engage? && steps[j].name == name ==> steps[j].audited
    ensures trace[i].versions != [] && multiset(trace[i].audit)[name] == Moves(trace[i].versions, name)
  {
    if i > 0 {
      hide Apply, Enabled, Moves;
      OneEventPerMove(ttl, trace, steps, i - 1, name);
      assert Enabled(trace[i - 1], steps[i - 1]) && trace[i - 1 + 1] == Apply(ttl, trace[i - 1], steps[i - 1]);
      StepCounts(ttl, trace[i - 1], steps[i - 1], name);
    }
  }

  lemma StepCounts(ttl: real, s: Sys, step: Step, name: Name)
    requires Enabled(s, step) && multiset(s.audit)[name] == Moves(s.versions, name)
    requires step.Engage? && step.name == name ==> step.audited
    ensures var t := Apply(ttl, s, step);
      t.versions != [] && multiset(t.audit)[name] == Moves(t.versions, name)
  {
    hide Moves;
    var t := Apply(ttl, s, step);
    if t.versions != s.versions {
      MovesGrow(s.versions, t.versions[|t.versions| - 1], name);
    }
  }

  // ---- a change made by this process --------------------------------------------------------

  /** Nothing this process holds was read before `since`: no entry, and no reader between its read and
      its store. */
  ghost predicate Since(s: Sys, since: real, before: set<nat>)
  {
    && since <= s.clock
    && (s.cache.Some? ==> s.cache.value.read >= since)
    && (forall r :: r in s.readers && s.readers[r].Fetched? ==> s.readers[r].read >= since)
    && (forall r :: r in s.readers && s.readers[r].Returned? && r !in before ==> s.readers[r].read >= since)
  }

  lemma StepKeepsSince(ttl: real, s: Sys, step: Step, since: real, before: set<nat>)
    requires Since(s, since, before) && Enabled(s, step)
    ensures Since(Apply(ttl, s, step), since, before)
  {
  }

  /** After a change is committed and the cache reset with no reader between its read and its store,
      no later read of this process returns anything older than the change. */
  lemma {:induction false} QuietResetIsSeen(ttl: real, trace: seq<Sys>, i: nat, j: nat, r: nat)
    requires Run(ttl, trace) && i <= j < |trace|
    requires trace[i].cache.None? && forall q :: q in trace[i].readers ==> !trace[i].readers[q].Fetched?
    requires r in trace[j].readers && trace[j].readers[r].Returned?
    requires !(r in trace[i].readers && trace[i].readers[r].Returned?)
    ensures trace[j].readers[r].read >= trace[i].clock
  {
    var before := set q | q in trace[i].readers && trace[i].readers[q].Returned?;
    assert Since(trace[i], trace[i].clock, before);
    hide Run;
    SinceStays(ttl, trace, i, j, before);
  }

  lemma {:induction false} SinceStays(ttl: real, trace: seq<Sys>, i: nat, j: nat, before: set<nat>)
    requires Run(ttl, trace) && i <= j < |trace| && Since(trace[i], trace[i].clock, before)
    ensures Since(trace[j], trace[i].clock, before)
    decreases j - i
  {
    hide Since, Apply, Enabled;
    if i < j {
      SinceStays(ttl, trace, i, j - 1, before);
      assert Next(ttl, trace[j - 1], trace[j - 1 + 1]);
      var step :| Enabled(trace[j - 1], step) && trace[j] == Apply(ttl, trace[j - 1], step);
      StepKeepsSince(ttl, trace[j - 1], step, trace[i].clock, before);
    }
  }

  /** With a reader between its read and its store, the reset does not help: the reader puts the old
      state back, and the next read of this process returns it, whatever was committed since. */
  lemma ResetCanBeUndone(ttl: real, s: Sys, r: nat, q: nat)
    requires s.versions != [] && r in s.readers && s.readers[r].Fetched? && q !in s.readers
    requires 0.0 <= s.clock - s.readers[r].now < ttl
    ensures var u := s.(cache := None);
      && Enabled(u, Store(r))
      && var v := Apply(ttl, u, Store(r));
         && Enabled(v, Begin(q, true))
         && var w := Apply(ttl, v, Begin(q, true));
            && Enabled(w, Look(q))
            && Apply(ttl, w, Look(q)).readers[q] == Returned(s.clock, s.readers[r].value, s.readers[r].read)
  {
  }

  // ---- a read that does not take the cache --------------------------------------------------

  /** What the reader has was read from the database no earlier than `since`. */
  predicate Uncached(readers: map<nat, Reader>, r: nat, since: real)
  {
    r in readers
    && match readers[r]
       case Started(_, useCache) => !useCache
       case Missed(_) => true
       case Fetched(_, _, read) => read >= since
       case Returned(_, _, read) => read >= since
  }

  lemma StepStaysUncached(ttl: real, s: Sys, step: Step, r: nat, since: real)
    requires Enabled(s, step) && Uncached(s.readers, r, since) && since <= s.clock
    ensures var t := Apply(ttl, s, step); Uncached(t.readers, r, since) && since <= t.clock
  {
  }

  /** A read told not to use the cache returns what the database held after it began. */
  lemma {:induction false} ForcedReadIsFresh(ttl: real, trace: seq<Sys>, i: nat, j: nat, r: nat)
    requires Run(ttl, trace) && i <= j < |trace|
    requires r in trace[i].readers && trace[i].readers[r].Started? && !trace[i].readers[r].useCache
    ensures Uncached(trace[j].readers, r, trace[i].clock) && trace[i].clock <= trace[j].clock
    ensures trace[j].readers[r].Returned? ==> trace[j].readers[r].read >= trace[i].clock
    decreases j - i
  {
    hide Apply, Enabled;
    if i < j {
      ForcedReadIsFresh(ttl, trace, i, j - 1, r);
      assert Next(ttl, trace[j - 1], trace[j - 1 + 1]);
      var step :| Enabled(trace[j - 1], step) && trace[j] == Apply(ttl, trace[j - 1], step);
      StepStaysUncached(ttl, trace[j - 1], step, r, trace[i].clock);
    }
  }

  // ---- the module of the process ------------------------------------------------------------

  datatype Outcome<T> = Done(value: T) | Unavailable

  class Controls {
    var table: Table
    var audit: seq<Name>
    var cache: Option<(real, Table)>

    /** True only if this call moved the control from off (or absent) to on; the audit event is
        written in the same transaction. A failure changes nothing. */
    method Engage(name: Name, q: Request, now: real, audited: bool, fails: bool) returns (r: Outcome<bool>)
      modifies this
      ensures fails ==> r.Unavailable? && table == old(table) && audit == old(audit) && cache == old(cache)
      ensures !fails ==> r == Done(!On(old(table), name)) && table == Engaged(old(table), name, q, now).0
      ensures !fails ==> (r == Done(false) <==> name in old(table) && old(table)[name].engaged)
      ensures r == Done(false) ==> table == old(table)
      ensures r == Done(true) ==>
        && name in table && table == old(table)[name := table[name]]
        && table[name].engaged && table[name].engagedBy == q.actor && table[name].engagedAt == now
        && table[name].releasedBy.None? && table[name].releasedAt.None?
        && table[name].reason == Clip(q.reason, 200) && table[name].category == Clip(q.category, 64)
      ensures !fails ==> cache.None? && audit == old(audit) + (if r.value && audited then [name] else [])
    {
      if fails {
        return Unavailable;
      }
      var changed := !(name in table && table[name].engaged);
      if changed {
        var row := Control(true, Clip(q.reason, MAX_REASON_LENGTH), Clip(q.category, MAX_CATEGORY_LENGTH), q.actor, now, None, None);
        table := table[name := row];
        if audited {
          audit := audit + [name];
        }
      }
      cache := None;
      r := Done(changed);
    }

    method Release(name: Name, actor: string, now: real, fails: bool) returns (r: Outcome<bool>)
      modifies this
      ensures audit == old(audit)
      ensures fails ==> r.Unavailable? && table == old(table) && cache == old(cache)
      ensures !fails ==> cache.None? && r == Done(On(old(table), name)) && table == Released(old(table), name, actor, now).0
      ensures !fails ==> (r == Done(true) <==> name in old(table) && old(table)[name].engaged)
      ensures r == Done(false) ==> table == old(table)
      ensures r == Done(true) ==>
        table == old(table)[name := old(table)[name].(engaged := false, releasedBy := Some(actor), releasedAt := Some(now))]
    {
      if fails {
        return Unavailable;
      }
      var changed := name in table && table[name].engaged;
      if changed {
        table := table[name := table[name].(engaged := false, releasedBy := Some(actor), releasedAt := Some(now))];
      }
      cache := None;
      r := Done(changed);
    }

    /** A hit returns the entry; anything else reads, and a failed read is never cached and never
        reads as off. */
    method ReadAll(useCache: bool, ttl: real, now: real, fails: bool) returns (r: Outcome<Table>)
      modifies this`cache
      ensures var hit := useCache && old(cache).Some? && 0.0 <= now - old(cache).value.0 < ttl;
        && (hit ==> r == Done(old(cache).value.1) && cache == old(cache))
        && (!hit && fails ==> r.Unavailable? && cache == old(cache))
        && (!hit && !fails ==> r == Done(table) && cache == Some((now, table)))
    {
      var life := if ttl > 0.0 then ttl else 0.0;
      if useCache && life > 0.0 {
        if cache.Some? && 0.0 <= now - cache.value.0 < life {
          return Done(cache.value.1);
        }
      }
      if fails {
        return Unavailable;
      }
      cache := Some((now, table));
      r := Done(table);
    }
  }
}
