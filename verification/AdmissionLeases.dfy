/** Admissions over the table of leases: the rate counters and the lease scripts as one system, in which any
    number of admissions, renewals and releases interleave. What an admission leaves in the table of
    leases when it ends. */
module AdmissionLeases {
  import opened Basics
  import opened LeaseStore
  import R = AdmissionRates
  import L = LeaseProtocol

  datatype Sys = Sys(rates: R.Sys, leases: L.Sys)

  /** `Acquire` runs the acquire script for ticket `id`; if its reply is lost no admission begins. `GiveBack`
      ends one, on rate or by an error, and releases its lease unless that command does not reach Redis.
      `Count` and `Table` are the steps of the counters and of the lease scripts that are neither. */
  datatype Step =
    | Acquire(id: nat, h: Handle, replyLost: bool)
    | GiveBack(id: nat, error: bool, reached: bool)
    | Count(count: R.Step)
    | Table(script: L.Step)

  ghost predicate Enabled(s: Sys, step: Step)
  {
    match step
    case Acquire(id, h, _) => id !in s.rates.tickets && L.Enabled(s.leases, L.Acquire(h))
    case GiveBack(id, error, _) => R.Enabled(s.rates, Ending(id, error))
    case Count(step) => !step.Begin? && !step.Reject? && !step.Error? && R.Enabled(s.rates, step)
    case Table(step) => !step.Acquire? && L.Enabled(s.leases, step)
  }

  function Ending(id: nat, error: bool): R.Step { if error then R.Error(id) else R.Reject(id) }

  ghost function Apply(c: L.Config, cps: Limits, s: Sys, step: Step): Sys
    requires Enabled(s, step)
  {
    match step
    case Acquire(id, h, replyLost) =>
      var granted := AcquireTxn(s.leases.store, c.limits, c.ttl, s.leases.now, h).0.Acquired?;
      Sys(if granted && !replyLost then R.Apply(cps, s.rates, R.Begin(id, h)) else s.rates,
          L.Apply(c, s.leases, L.Acquire(h)))
    case GiveBack(id, error, reached) =>
      Sys(R.Apply(cps, s.rates, Ending(id, error)),
          if reached then L.Apply(c, s.leases, L.Release(s.rates.tickets[id].handle)) else s.leases)
    case Count(step) => s.(rates := R.Apply(cps, s.rates, step))
    case Table(step) => s.(leases := L.Apply(c, s.leases, step))
  }

  const INITIAL := Sys(R.INITIAL, L.INITIAL)

  ghost predicate Follows(c: L.Config, cps: Limits, trace: seq<Sys>, steps: seq<Step>)
  {
    |trace| == |steps| + 1
    && forall i :: 0 <= i < |steps| ==> Enabled(trace[i], steps[i]) && trace[i + 1] == Apply(c, cps, trace[i], steps[i])
  }

  // ---- every ticket's lease is one the scripts issued ---------------------------------------

  ghost predicate TicketsIssued(s: Sys)
  {
    forall id :: id in s.rates.tickets ==> Issued(s.leases, s.rates.tickets[id].handle)
  }

  predicate Issued(leases: L.Sys, h: Handle) { h.lease in leases.issued && leases.issued[h.lease] == h }

  ghost predicate Inv(c: L.Config, s: Sys) { L.Refines(c, s.leases) && TicketsIssued(s) }

  /** A step of the counters keeps the handles, and adds none. */
  lemma CountKeepsHandles(cps: Limits, s: R.Sys, step: R.Step)
    requires R.Enabled(s, step) && !step.Begin?
    ensures var t := R.Apply(cps, s, step);
      && t.tickets.Keys == s.tickets.Keys
      && forall id :: id in s.tickets ==>
           && t.tickets[id].handle == s.tickets[id].handle
           && (Ended(t.tickets[id]) <==> Ended(s.tickets[id]) || step == R.Reject(id) || step == R.Error(id))
  {
    hide LimitOf, ScopeAt;
  }

  predicate Ended(t: R.Ticket) { t.phase.Rejected? || t.phase.Failed? }

  lemma StepKeepsInv(c: L.Config, cps: Limits, s: Sys, step: Step)
    requires L.Valid(c) && Inv(c, s) && Enabled(s, step)
    ensures Inv(c, Apply(c, cps, s, step))
  {
    hide L.Refines, L.Valid;
    match step {
      case Acquire(id, h, _) =>
        L.StepRefines(c, s.leases, L.Acquire(h));
        hide AcquireTxn;
      case GiveBack(id, error, reached) =>
        CountKeepsHandles(cps, s.rates, Ending(id, error));
        if reached {
          L.StepRefines(c, s.leases, L.Release(s.rates.tickets[id].handle));
        }
        hide R.Apply;
      case Count(step) =>
        CountKeepsHandles(cps, s.rates, step);
        hide R.Apply;
      case Table(step) => L.StepRefines(c, s.leases, step);
    }
  }

  lemma {:induction false} RunKeepsInv(c: L.Config, cps: Limits, trace: seq<Sys>, steps: seq<Step>, i: nat)
    requires L.Valid(c) && Follows(c, cps, trace, steps) && trace[0] == INITIAL && i < |trace|
    ensures Inv(c, trace[i])
  {
    hide L.Refines, L.Valid, Enabled, Apply;
    if i == 0 {
      L.InitialRefines(c);
    } else {
      hide Inv;
      RunKeepsInv(c, cps, trace, steps, i - 1);
      assert Enabled(trace[i - 1], steps[i - 1]) && trace[i - 1 + 1] == Apply(c, cps, trace[i - 1], steps[i - 1]);
      StepKeepsInv(c, cps, trace[i - 1], steps[i - 1]);
    }
  }

  // ---- both halves run as they do alone -----------------------------------------------------

  function RatesOf(trace: seq<Sys>): seq<R.Sys> { seq(|trace|, i requires 0 <= i < |trace| => trace[i].rates) }

  function LeasesOf(trace: seq<Sys>): seq<L.Sys> { seq(|trace|, i requires 0 <= i < |trace| => trace[i].leases) }

  lemma StepOfBoth(c: L.Config, cps: Limits, s: Sys, step: Step)
    requires TicketsIssued(s) && Enabled(s, step)
    ensures var t := Apply(c, cps, s, step); R.Next(cps, s.rates, t.rates) && L.Next(c, s.leases, t.leases)
  {
    hide AcquireTxn, RenewTxn, ReleaseTxn;
    var t := Apply(c, cps, s, step);
    var r := match step
      case Acquire(id, h, _) => if t.rates == s.rates then R.Advance(0) else R.Begin(id, h)
      case GiveBack(id, error, _) => Ending(id, error)
      case Count(count) => count
      case Table(_) => R.Advance(0);
    var l := match step
      case Acquire(_, h, _) => L.Acquire(h)
      case GiveBack(id, _, reached) => if reached then L.Release(s.rates.tickets[id].handle) else L.Advance(0)
      case Count(_) => L.Advance(0)
      case Table(script) => script;
    assert R.Enabled(s.rates, r) && t.rates == R.Apply(cps, s.rates, r);
    assert L.Enabled(s.leases, l) && t.leases == L.Apply(c, s.leases, l);
  }

  /** A run of the whole is a run of the rate counters and a run of the lease scripts: what is proved of
      either holds of it. */
  lemma RunsOfBoth(c: L.Config, cps: Limits, trace: seq<Sys>, steps: seq<Step>)
    requires L.Valid(c) && Follows(c, cps, trace, steps) && trace[0] == INITIAL
    ensures R.Run(cps, RatesOf(trace)) && L.Run(c, LeasesOf(trace))
  {
    hide Enabled, Apply, R.Next, L.Next, L.Refines, L.Valid, TicketsIssued;
    forall i | 0 <= i < |steps|
      ensures R.Next(cps, RatesOf(trace)[i], RatesOf(trace)[i + 1]) && L.Next(c, LeasesOf(trace)[i], LeasesOf(trace)[i + 1]) {
      assert Enabled(trace[i], steps[i]);
      RunKeepsInv(c, cps, trace, steps, i);
      StepOfBoth(c, cps, trace[i], steps[i]);
    }
  }

  // ---- an admission that ends without a call leaves no lease --------------------------------

  predicate IsLive(s: Sys, lease: nat) { L.IsLive(s.leases.leases, lease, s.leases.now) }

  /** The release of the admission's lease does not reach Redis. */
  predicate LosesRelease(step: Step, id: nat) { step.GiveBack? && step.id == id && !step.reached }

  lemma DeadStaysDead(c: L.Config, cps: Limits, s: Sys, step: Step, lease: nat)
    requires L.Valid(c) && Inv(c, s) && Enabled(s, step) && lease in s.leases.issued && !IsLive(s, lease)
    ensures var t := Apply(c, cps, s, step); lease in t.leases.issued && !IsLive(t, lease)
  {
    hide L.Refines, L.Valid, R.Apply, L.IsLive;
    match step {
      case Acquire(id, h, _) => L.DeadStaysDead(c, s.leases, L.Acquire(h), lease);
      case GiveBack(id, error, reached) =>
        if reached {
          L.DeadStaysDead(c, s.leases, L.Release(s.rates.tickets[id].handle), lease);
        }
      case Count(step) =>
      case Table(step) => L.DeadStaysDead(c, s.leases, step, lease);
    }
  }

  lemma EndingKills(c: L.Config, cps: Limits, s: Sys, id: nat, error: bool)
    requires Enabled(s, GiveBack(id, error, true))
    ensures id in s.rates.tickets && !IsLive(Apply(c, cps, s, GiveBack(id, error, true)), s.rates.tickets[id].handle.lease)
  {
    hide R.Apply, ReleaseTxn;
  }

  lemma StepLeavesNoLease(c: L.Config, cps: Limits, s: Sys, step: Step, id: nat)
    requires L.Valid(c) && Inv(c, s) && Enabled(s, step) && !LosesRelease(step, id)
    requires id in s.rates.tickets && Ended(s.rates.tickets[id]) ==> !IsLive(s, s.rates.tickets[id].handle.lease)
    ensures var t := Apply(c, cps, s, step);
      id in t.rates.tickets && Ended(t.rates.tickets[id]) ==> !IsLive(t, t.rates.tickets[id].handle.lease)
  {
    hide L.Refines, L.Valid, L.Apply, AcquireTxn, R.Apply, IsLive;
    var t := Apply(c, cps, s, step);
    if step.GiveBack? {
      CountKeepsHandles(cps, s.rates, Ending(step.id, step.error));
      if step.id == id {
        EndingKills(c, cps, s, id, step.error);
        return;
      }
    } else if step.Count? {
      CountKeepsHandles(cps, s.rates, step.count);
    } else if step.Acquire? {
      BeginIsUnderWay(cps, s.rates, step.id, step.h);
    }
    if id in s.rates.tickets && Ended(s.rates.tickets[id]) {
      DeadStaysDead(c, cps, s, step, s.rates.tickets[id].handle.lease);
    }
  }

  lemma BeginIsUnderWay(cps: Limits, s: R.Sys, id: nat, h: Handle)
    requires id !in s.tickets
    ensures var t := R.Apply(cps, s, R.Begin(id, h));
      && t.tickets.Keys == s.tickets.Keys + {id} && t.tickets[id].handle == h && !Ended(t.tickets[id])
      && forall j :: j in s.tickets ==> t.tickets[j] == s.tickets[j]
  {
  }

  /** In every run, an admission that ended without a call, on rate or by an error, has no live lease in the
      table, then and ever after, unless the one command that gives it back did not reach Redis. */
  lemma {:induction false} NoCallNoLease(c: L.Config, cps: Limits, trace: seq<Sys>, steps: seq<Step>, i: nat, id: nat)
    requires L.Valid(c) && Follows(c, cps, trace, steps) && trace[0] == INITIAL && i < |trace|
    requires forall j :: 0 <= j < i ==> !LosesRelease(steps[j], id)
    ensures id in trace[i].rates.tickets && Ended(trace[i].rates.tickets[id]) ==>
      !IsLive(trace[i], trace[i].rates.tickets[id].handle.lease)
  {
    if i > 0 {
      hide L.Valid, Enabled, Apply, Inv, IsLive, Ended;
      NoCallNoLease(c, cps, trace, steps, i - 1, id);
      RunKeepsInv(c, cps, trace, steps, i - 1);
      assert Enabled(trace[i - 1], steps[i - 1]) && trace[i - 1 + 1] == Apply(c, cps, trace[i - 1], steps[i - 1]);
      StepLeavesNoLease(c, cps, trace[i - 1], steps[i - 1], id);
    }
  }

  // ---- every live lease is accounted for ----------------------------------------------------

  predicate Owns(s: Sys, id: nat, lease: nat)
  {
    id in s.rates.tickets && s.rates.tickets[id].handle.lease == lease && !Ended(s.rates.tickets[id])
  }

  ghost predicate Owned(s: Sys, lease: nat) { exists id :: Owns(s, id, lease) }

  /** The step loses sight of the lease: its grant is not answered, or its release does not reach Redis. */
  ghost predicate LosesLease(s: Sys, step: Step, lease: nat)
  {
    match step
    case Acquire(_, h, replyLost) => h.lease == lease && replyLost
    case GiveBack(id, _, reached) => id in s.rates.tickets && s.rates.tickets[id].handle.lease == lease && !reached
    case _ => false
  }

  lemma AcquireLives(c: L.Config, s: Sys, h: Handle, lease: nat)
    requires L.Valid(c) && L.Refines(c, s.leases) && L.Enabled(s.leases, L.Acquire(h))
    ensures var t := L.Apply(c, s.leases, L.Acquire(h));
      L.IsLive(t.leases, lease, t.now) ==>
        IsLive(s, lease) || (lease == h.lease && AcquireTxn(s.leases.store, c.limits, c.ttl, s.leases.now, h).0.Acquired?)
  {
    hide L.Refines, AcquireTxn, L.LiveIn, L.HolderHasLive, L.Valid;
    L.AcquireAnswers(c, s.leases, h);
  }

  lemma OwnerStays(c: L.Config, cps: Limits, s: Sys, step: Step, id: nat, lease: nat)
    requires L.Valid(c) && Inv(c, s) && Enabled(s, step) && Owns(s, id, lease) && !LosesLease(s, step, lease)
    ensures var t := Apply(c, cps, s, step); IsLive(t, lease) ==> Owns(t, id, lease)
  {
    hide L.Refines, L.Valid, L.Apply, AcquireTxn, R.Apply, IsLive;
    if step.GiveBack? {
      CountKeepsHandles(cps, s.rates, Ending(step.id, step.error));
      if step.id == id {
        EndingKills(c, cps, s, id, step.error);
      }
    } else if step.Count? {
      CountKeepsHandles(cps, s.rates, step.count);
    } else if step.Acquire? {
      BeginIsUnderWay(cps, s.rates, step.id, step.h);
    }
  }

  lemma LiveStaysOwned(c: L.Config, cps: Limits, s: Sys, step: Step, lease: nat)
    requires L.Valid(c) && Inv(c, s) && Enabled(s, step) && !LosesLease(s, step, lease)
    requires IsLive(s, lease) ==> Owned(s, lease)
    ensures IsLive(Apply(c, cps, s, step), lease) ==> Owned(Apply(c, cps, s, step), lease)
  {
    hide L.Refines, L.Valid, L.Apply, AcquireTxn, R.Apply, IsLive;
    var t := Apply(c, cps, s, step);
    if IsLive(s, lease) {
      var id :| Owns(s, id, lease);
      OwnerStays(c, cps, s, step, id, lease);
      assert IsLive(t, lease) ==> Owns(t, id, lease);
    } else if step.Acquire? && step.h.lease == lease {
      assert IsLive(t, lease) == L.IsLive(t.leases.leases, lease, t.leases.now) by { LiveMeans(t, lease); }
      AcquireLives(c, s, step.h, lease);
      BeginIsUnderWay(cps, s.rates, step.id, step.h);
      assert IsLive(t, lease) ==> Owns(t, step.id, lease);
    } else {
      NotIssuedNotLive(c, s, step, cps, lease);
    }
  }

  lemma LiveMeans(s: Sys, lease: nat)
    ensures IsLive(s, lease) == L.IsLive(s.leases.leases, lease, s.leases.now)
  {
  }

  /** No other step makes a lease live. */
  lemma NotIssuedNotLive(c: L.Config, s: Sys, step: Step, cps: Limits, lease: nat)
    requires L.Valid(c) && Inv(c, s) && Enabled(s, step) && !IsLive(s, lease)
    requires step.Acquire? ==> step.h.lease != lease
    ensures !IsLive(Apply(c, cps, s, step), lease)
  {
    hide R.Apply, AcquireTxn, RenewTxn, ReleaseTxn, L.Refines, L.Valid, L.LiveIn, L.HolderHasLive;
    if lease in s.leases.issued {
      DeadStaysDead(c, cps, s, step, lease);
    }
  }

  /** In every run, a live lease belongs to an admission that is under way or was admitted, unless its grant
      was not answered or its release did not reach Redis. */
  lemma {:induction false} LiveLeaseIsOwned(
    c: L.Config, cps: Limits, trace: seq<Sys>, steps: seq<Step>, i: nat, lease: nat)
    requires L.Valid(c) && Follows(c, cps, trace, steps) && trace[0] == INITIAL && i < |trace|
    requires forall j :: 0 <= j < i ==> !LosesLease(trace[j], steps[j], lease)
    ensures IsLive(trace[i], lease) ==> Owned(trace[i], lease)
  {
    if i > 0 {
      hide L.Valid, Enabled, Apply, Inv, IsLive, Owned, LosesLease;
      LiveLeaseIsOwned(c, cps, trace, steps, i - 1, lease);
      RunKeepsInv(c, cps, trace, steps, i - 1);
      assert Enabled(trace[i - 1], steps[i - 1]) && trace[i - 1 + 1] == Apply(c, cps, trace[i - 1], steps[i - 1]);
      LiveStaysOwned(c, cps, trace[i - 1], steps[i - 1], lease);
    }
  }

  // ---- and an admission keeps its lease -----------------------------------------------------

  /** The step gives back the lease of handle `h`. */
  ghost predicate Releases(s: Sys, step: Step, h: Handle)
  {
    match step
    case GiveBack(id, _, reached) => id in s.rates.tickets && s.rates.tickets[id].handle.lease == h.lease && reached
    case Table(step) => step.Release? && step.h.lease == h.lease
    case _ => false
  }

  ghost predicate Stored(s: Sys, h: Handle)
  {
    h.lease in s.leases.leases && s.leases.leases[h.lease].handle == h
  }

  lemma StoredStays(c: L.Config, cps: Limits, s: Sys, step: Step, h: Handle)
    requires L.Refines(c, s.leases) && Enabled(s, step) && Issued(s.leases, h) && Stored(s, h) && !Releases(s, step, h)
    ensures Stored(Apply(c, cps, s, step), h)
  {
    hide R.Apply, AcquireTxn, RenewTxn, ReleaseTxn, L.Refines, L.LiveIn, L.HolderHasLive;
  }

  /** In every run, the lease of an admission stays in the table, for its handle, until somebody releases
      it: it is live as long as it is renewed in time. */
  lemma {:induction false} AdmissionKeepsLease(
    c: L.Config, cps: Limits, trace: seq<Sys>, steps: seq<Step>, i: nat, id: nat)
    requires L.Valid(c) && Follows(c, cps, trace, steps) && trace[0] == INITIAL && i < |trace|
    requires id in trace[i].rates.tickets
    requires forall j :: 0 <= j < i ==> !Releases(trace[j], steps[j], trace[i].rates.tickets[id].handle)
    ensures Stored(trace[i], trace[i].rates.tickets[id].handle)
  {
    hide L.Valid, L.Refines, R.Apply, AcquireTxn, L.Apply, Releases, Stored;
    if i > 0 {
      RunKeepsInv(c, cps, trace, steps, i - 1);
      var s, step, t := trace[i - 1], steps[i - 1], trace[i];
      assert Enabled(s, step) && trace[i - 1 + 1] == Apply(c, cps, s, step);
      if step.Acquire? {
        BeginIsUnderWay(cps, s.rates, step.id, step.h);
      } else if step.GiveBack? {
        CountKeepsHandles(cps, s.rates, Ending(step.id, step.error));
      } else if step.Count? {
        CountKeepsHandles(cps, s.rates, step.count);
      }
      if id in s.rates.tickets {
        AdmissionKeepsLease(c, cps, trace, steps, i - 1, id);
        StoredStays(c, cps, s, step, s.rates.tickets[id].handle);
      } else {
        GrantIsStored(c, s, step.h);
        assert Stored(t, step.h) by { StoredMeans(t, step.h); }
      }
    }
  }

  lemma StoredMeans(s: Sys, h: Handle)
    requires h.lease in s.leases.leases && s.leases.leases[h.lease].handle == h
    ensures Stored(s, h)
  {
  }

  lemma GrantIsStored(c: L.Config, s: Sys, h: Handle)
    requires L.Refines(c, s.leases) && L.Enabled(s.leases, L.Acquire(h))
    requires AcquireTxn(s.leases.store, c.limits, c.ttl, s.leases.now, h).0.Acquired?
    ensures var t := L.Apply(c, s.leases, L.Acquire(h)); h.lease in t.leases && t.leases[h.lease].handle == h
  {
    L.AcquireAnswers(c, s.leases, h);
    hide L.Refines, AcquireTxn;
  }
}
