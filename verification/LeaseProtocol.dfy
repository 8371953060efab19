/** What the lease store promises over any history of acquires, renewals, releases (also stale,
    repeated, or sent after a lost reply), clock advances and evictions of expired keys: it behaves
    exactly like one simple table of leases, each with an expiry. */
module LeaseProtocol {
  import opened Basics
  import opened LeaseStore

  datatype Lease = Lease(handle: Handle, expires: int)

  // ---- the simple specification -------------------------------------------------------------

  predicate IsLive(leases: map<nat, Lease>, id: nat, now: int)
  {
    id in leases && leases[id].expires > now
  }

  function LiveIn(leases: map<nat, Lease>, sc: Scope, now: int): set<nat>
  {
    set id | id in leases && leases[id].expires > now && sc in ScopesOf(leases[id].handle)
  }

  predicate HolderHasLive(leases: map<nat, Lease>, holder: nat, now: int)
  {
    exists id :: id in leases && leases[id].expires > now && leases[id].handle.holder == holder
  }

  function SpecAcquire(leases: map<nat, Lease>, limits: Limits, ttl: int, now: int, h: Handle): (Reply, map<nat, Lease>)
  {
    if HolderHasLive(leases, h.holder, now) then (Duplicate, leases)
    else if |LiveIn(leases, Global, now)| >= limits.global then (GlobalFull, leases)
    else if |LiveIn(leases, Campaign(h.campaign), now)| >= limits.campaign then (CampaignFull, leases)
    else if |LiveIn(leases, Provider(h.provider), now)| >= limits.provider then (ProviderFull, leases)
    else (Acquired, leases[h.lease := Lease(h, now + ttl)])
  }

  function SpecRenew(leases: map<nat, Lease>, ttl: int, now: int, h: Handle): (bool, map<nat, Lease>)
  {
    if IsLive(leases, h.lease, now) then (true, leases[h.lease := Lease(h, now + ttl)]) else (false, leases)
  }

  function SpecRelease(leases: map<nat, Lease>, h: Handle): map<nat, Lease> { leases - {h.lease} }

  // ---- transitions --------------------------------------------------------------------------

  datatype Config = Config(limits: Limits, ttl: int)

  predicate Valid(c: Config)
  {
    c.ttl > 0 && c.limits.global >= 0 && c.limits.campaign >= 0 && c.limits.provider >= 0
  }

  /** `store` is Redis; `leases` is the simple table; `issued` remembers every handle ever drawn. */
  datatype Sys = Sys(now: int, store: Store, leases: map<nat, Lease>, issued: map<nat, Handle>)

  datatype Step =
    | Advance(elapsed: int)
    | Acquire(h: Handle)
    | Renew(h: Handle)
    | Release(h: Handle)
    | EvictScope(sc: Scope)
    | EvictHolder(holder: nat)

  ghost predicate Enabled(s: Sys, step: Step)
  {
    match step
    case Advance(elapsed) => elapsed >= 0
    case Acquire(h) => h.lease !in s.issued
    case Renew(h) => h.lease in s.issued && s.issued[h.lease] == h
    case Release(h) => h.lease in s.issued && s.issued[h.lease] == h
    case EvictScope(sc) => sc in s.store.sets && s.store.sets[sc].keyExpiry < s.now
    case EvictHolder(hid) => hid in s.store.holders && s.store.holders[hid].keyExpiry < s.now
  }

  function AfterAcquire(c: Config, s: Sys, h: Handle): Sys
  {
    Sys(s.now, AcquireTxn(s.store, c.limits, c.ttl, s.now, h).1,
        SpecAcquire(s.leases, c.limits, c.ttl, s.now, h).1, s.issued[h.lease := h])
  }

  ghost function Apply(c: Config, s: Sys, step: Step): Sys
  {
    match step
    case Advance(elapsed) => s.(now := s.now + elapsed)
    case Acquire(h) => AfterAcquire(c, s, h)
    case Renew(h) =>
      s.(store := RenewTxn(s.store, c.ttl, s.now, h).1, leases := SpecRenew(s.leases, c.ttl, s.now, h).1)
    case Release(h) =>
      s.(store := ReleaseTxn(s.store, s.now, h).1, leases := SpecRelease(s.leases, h))
    case EvictScope(sc) => s.(store := s.store.(sets := s.store.sets - {sc}))
    case EvictHolder(hid) => s.(store := s.store.(holders := s.store.holders - {hid}))
  }

  const INITIAL := Sys(0, Store(map[], map[]), map[], map[])

  ghost predicate Next(c: Config, s: Sys, t: Sys)
  {
    exists step :: Enabled(s, step) && t == Apply(c, s, step)
  }

  ghost predicate Run(c: Config, trace: seq<Sys>)
  {
    |trace| > 0 && forall i :: 0 <= i < |trace| - 1 ==> Next(c, trace[i], trace[i + 1])
  }

  // ---- refinement relation ------------------------------------------------------------------

  ghost predicate TableOk(s: Sys)
  {
    forall id :: id in s.leases ==>
      s.leases[id].handle.lease == id && id in s.issued && s.issued[id] == s.leases[id].handle
  }

  /** A live lease is a member of all three of its scopes, with the same expiry. */
  ghost predicate InAllScopes(store: Store, lease: Lease, id: nat)
  {
    forall sc :: sc in ScopesOf(lease.handle) ==>
      sc in store.sets && id in store.sets[sc].members && store.sets[sc].members[id] == lease.expires
  }

  /** Its holder record names it. */
  ghost predicate HolderNames(store: Store, lease: Lease, id: nat)
  {
    var hid := lease.handle.holder;
    hid in store.holders && store.holders[hid].lease == id && store.holders[hid].expires == lease.expires
  }

  ghost predicate LeasesStored(s: Sys)
  {
    forall id :: IsLive(s.leases, id, s.now) ==>
      InAllScopes(s.store, s.leases[id], id) && HolderNames(s.store, s.leases[id], id)
  }

  /** Nothing else is live in the store, and no key outlives or undercuts its members. */
  ghost predicate MemberOk(c: Config, s: Sys, sc: Scope, id: nat, score: int, keyExpiry: int)
  {
    && score <= keyExpiry <= s.now + c.ttl
    && id in s.issued
    && (score > s.now ==> id in s.leases && s.leases[id].expires == score && sc in ScopesOf(s.leases[id].handle))
  }

  ghost predicate SetsOk(c: Config, s: Sys)
  {
    forall sc, id :: sc in s.store.sets && id in s.store.sets[sc].members ==>
      MemberOk(c, s, sc, id, s.store.sets[sc].members[id], s.store.sets[sc].keyExpiry)
  }

  ghost predicate HolderOk(s: Sys, hid: nat, r: HolderRecord)
  {
    && r.expires <= r.keyExpiry
    && r.lease in s.issued
    && (r.expires > s.now ==>
          r.lease in s.leases && s.leases[r.lease].expires == r.expires && s.leases[r.lease].handle.holder == hid)
  }

  ghost predicate HoldersOk(s: Sys)
  {
    forall hid :: hid in s.store.holders ==> HolderOk(s, hid, s.store.holders[hid])
  }

  ghost predicate WithinLimits(c: Config, s: Sys)
  {
    forall sc :: |LiveIn(s.leases, sc, s.now)| <= LimitOf(c.limits, sc)
  }

  ghost predicate Refines(c: Config, s: Sys)
  {
    TableOk(s) && LeasesStored(s) && SetsOk(c, s) && HoldersOk(s) && WithinLimits(c, s)
  }

  // ---- simulation ---------------------------------------------------------------------------

  /** What a script counts after pruning is the number of live leases of the scope. */
  lemma CountIsLive(c: Config, s: Sys, h: Handle, sc: Scope)
    requires Refines(c, s) && sc in ScopesOf(h)
    ensures Members(Pruned(s.store.sets, ScopesOf(h), s.now), sc, s.now).Keys == LiveIn(s.leases, sc, s.now)
    ensures |Members(Pruned(s.store.sets, ScopesOf(h), s.now), sc, s.now)| == |LiveIn(s.leases, sc, s.now)|
  {
    var m := Members(Pruned(s.store.sets, ScopesOf(h), s.now), sc, s.now);
    forall id ensures id in m <==> id in LiveIn(s.leases, sc, s.now) {
      if id in m {
        assert MemberOk(c, s, sc, id, s.store.sets[sc].members[id], s.store.sets[sc].keyExpiry);
      }
      if id in LiveIn(s.leases, sc, s.now) {
        assert IsLive(s.leases, id, s.now);
        assert MemberOk(c, s, sc, id, s.store.sets[sc].members[id], s.store.sets[sc].keyExpiry);
      }
    }
    assert |m| == |m.Keys|;
  }

  lemma HolderBusyIsLive(c: Config, s: Sys, hid: nat)
    requires Refines(c, s)
    ensures HolderBusy(s.store.holders, hid, s.now) <==> HolderHasLive(s.leases, hid, s.now)
  {
    if HolderHasLive(s.leases, hid, s.now) {
      var id :| id in s.leases && s.leases[id].expires > s.now && s.leases[id].handle.holder == hid;
      assert IsLive(s.leases, id, s.now);
      assert HolderOk(s, hid, s.store.holders[hid]);
    }
  }

  /** The acquire script gives exactly the answer the simple table gives. */
  lemma AcquireAnswers(c: Config, s: Sys, h: Handle)
    requires Refines(c, s)
    ensures AcquireTxn(s.store, c.limits, c.ttl, s.now, h).0 == SpecAcquire(s.leases, c.limits, c.ttl, s.now, h).0
  {
    HolderBusyIsLive(c, s, h.holder);
    CountIsLive(c, s, h, Global);
    CountIsLive(c, s, h, Campaign(h.campaign));
    CountIsLive(c, s, h, Provider(h.provider));
  }

  /** So does the renew script. */
  lemma RenewAnswers(c: Config, s: Sys, h: Handle)
    requires Refines(c, s) && h.lease in s.issued && s.issued[h.lease] == h
    ensures RenewTxn(s.store, c.ttl, s.now, h).0 == SpecRenew(s.leases, c.ttl, s.now, h).0
  {
    if IsLive(s.leases, h.lease, s.now) {
      forall sc | sc in ScopesOf(h) ensures HeldIn(s.store.sets, sc, h.lease, s.now) {
        assert MemberOk(c, s, sc, h.lease, s.store.sets[sc].members[h.lease], s.store.sets[sc].keyExpiry);
      }
    } else {
      assert Global in ScopesOf(h);
      assert Global in s.store.sets && h.lease in s.store.sets[Global].members ==>
        MemberOk(c, s, Global, h.lease, s.store.sets[Global].members[h.lease], s.store.sets[Global].keyExpiry);
      assert !HeldIn(s.store.sets, Global, h.lease, s.now);
    }
  }

  /** Releasing a live lease is reported as such; a lease never stored, or already released, is not. An
      expired lease that has not been pruned yet is still removed and reported. */
  lemma ReleaseAnswers(c: Config, s: Sys, h: Handle)
    requires Refines(c, s) && h.lease in s.issued && s.issued[h.lease] == h
    ensures IsLive(s.leases, h.lease, s.now) ==> ReleaseTxn(s.store, s.now, h).0
    ensures ReleaseTxn(s.store, s.now, h).0 <==>
      exists sc :: sc in ScopesOf(h) && h.lease in Members(s.store.sets, sc, s.now)
    ensures !ReleaseTxn(ReleaseTxn(s.store, s.now, h).1, s.now, h).0
  {
    if IsLive(s.leases, h.lease, s.now) {
      assert Global in ScopesOf(h);
      assert MemberOk(c, s, Global, h.lease, s.store.sets[Global].members[h.lease], s.store.sets[Global].keyExpiry);
    }
  }

  lemma PruneKeeps(c: Config, s: Sys, h: Handle)
    requires Refines(c, s)
    ensures Refines(c, s.(store := s.store.(sets := Pruned(s.store.sets, ScopesOf(h), s.now))))
  {
    var t := s.(store := s.store.(sets := Pruned(s.store.sets, ScopesOf(h), s.now)));
    forall sc, id | sc in t.store.sets && id in t.store.sets[sc].members
      ensures MemberOk(c, t, sc, id, t.store.sets[sc].members[id], t.store.sets[sc].keyExpiry) {
      assert MemberOk(c, s, sc, id, s.store.sets[sc].members[id], s.store.sets[sc].keyExpiry);
    }
    forall id | IsLive(t.leases, id, t.now)
      ensures InAllScopes(t.store, t.leases[id], id) && HolderNames(t.store, t.leases[id], id) {
      forall sc | sc in ScopesOf(t.leases[id].handle)
        ensures sc in t.store.sets && id in t.store.sets[sc].members
             && t.store.sets[sc].members[id] == t.leases[id].expires {
        assert MemberOk(c, s, sc, id, s.store.sets[sc].members[id], s.store.sets[sc].keyExpiry);
      }
    }
    assert HoldersOk(t) by {
      forall hid | hid in t.store.holders ensures HolderOk(t, hid, t.store.holders[hid]) {
        assert HolderOk(s, hid, s.store.holders[hid]);
      }
    }
  }

  /** Storing h with a fresh expiry, in its scopes and its holder record, matches adding or extending
      it in the table, provided the holder is h's to write. */
  lemma PutKeepsSets(c: Config, s: Sys, h: Handle, t: Sys)
    requires Valid(c) && Refines(c, s) && h.lease in t.issued
    requires t.store.sets == Put(s.store.sets, ScopesOf(h), h.lease, s.now, c.ttl)
    requires t.leases == s.leases[h.lease := Lease(h, s.now + c.ttl)] && t.now == s.now
    requires forall id :: id in s.issued ==> id in t.issued
    requires h.lease in s.leases ==> s.leases[h.lease].handle == h
    requires h.lease !in s.leases ==> h.lease !in s.issued
    ensures SetsOk(c, t)
  {
    forall sc, id | sc in t.store.sets && id in t.store.sets[sc].members
      ensures MemberOk(c, t, sc, id, t.store.sets[sc].members[id], t.store.sets[sc].keyExpiry) {
      if sc in s.store.sets && id in s.store.sets[sc].members {
        assert MemberOk(c, s, sc, id, s.store.sets[sc].members[id], s.store.sets[sc].keyExpiry);
      }
    }
  }

  lemma PutKeepsLeases(c: Config, s: Sys, h: Handle, t: Sys)
    requires Valid(c) && Refines(c, s)
    requires t.store == Store(Put(s.store.sets, ScopesOf(h), h.lease, s.now, c.ttl),
      s.store.holders[h.holder := HolderRecord(h.lease, s.now + c.ttl, s.now + c.ttl)])
    requires t.leases == s.leases[h.lease := Lease(h, s.now + c.ttl)] && t.now == s.now
    requires forall id :: IsLive(s.leases, id, s.now) && id != h.lease ==> s.leases[id].handle.holder != h.holder
    ensures LeasesStored(t)
  {
    forall id | IsLive(t.leases, id, t.now)
      ensures InAllScopes(t.store, t.leases[id], id) && HolderNames(t.store, t.leases[id], id) {
      if id != h.lease {
        assert IsLive(s.leases, id, s.now);
        forall sc | sc in ScopesOf(t.leases[id].handle)
          ensures sc in t.store.sets && id in t.store.sets[sc].members
               && t.store.sets[sc].members[id] == t.leases[id].expires {
          assert MemberOk(c, s, sc, id, s.store.sets[sc].members[id], s.store.sets[sc].keyExpiry);
        }
      }
    }
  }

  lemma PutKeepsHolders(c: Config, s: Sys, h: Handle, t: Sys)
    requires Valid(c) && Refines(c, s) && h.lease in t.issued
    requires t.store.holders == s.store.holders[h.holder := HolderRecord(h.lease, s.now + c.ttl, s.now + c.ttl)]
    requires t.leases == s.leases[h.lease := Lease(h, s.now + c.ttl)] && t.now == s.now
    requires forall id :: id in s.issued ==> id in t.issued
    requires h.lease in s.leases ==> s.leases[h.lease].handle == h
    requires h.lease !in s.leases ==> h.lease !in s.issued
    ensures HoldersOk(t)
  {
    forall hid | hid in t.store.holders ensures HolderOk(t, hid, t.store.holders[hid]) {
      if hid != h.holder {
        assert HolderOk(s, hid, s.store.holders[hid]);
      }
    }
  }

  lemma LimitsAfterPut(c: Config, s: Sys, h: Handle, t: Sys)
    requires WithinLimits(c, s) && Valid(c)
    requires t.leases == s.leases[h.lease := Lease(h, s.now + c.ttl)] && t.now == s.now
    requires IsLive(s.leases, h.lease, s.now) ==> s.leases[h.lease].handle == h
    requires !IsLive(s.leases, h.lease, s.now) ==>
      forall sc :: sc in ScopesOf(h) ==> |LiveIn(s.leases, sc, s.now)| < LimitOf(c.limits, sc)
    ensures WithinLimits(c, t)
  {
    forall sc ensures |LiveIn(t.leases, sc, t.now)| <= LimitOf(c.limits, sc) {
      LiveAfterPut(s.leases, h, s.now, c.ttl, sc);
    }
  }

  lemma LiveAfterPut(leases: map<nat, Lease>, h: Handle, now: int, ttl: int, sc: Scope)
    requires ttl > 0 && (IsLive(leases, h.lease, now) ==> leases[h.lease].handle == h)
    ensures LiveIn(leases[h.lease := Lease(h, now + ttl)], sc, now)
         == LiveIn(leases, sc, now) + (if sc in ScopesOf(h) then {h.lease} else {})
  {
    hide ScopesOf;
  }

  lemma NewIdKeeps(c: Config, s: Sys, h: Handle)
    requires Refines(c, s) && h.lease !in s.issued
    ensures Refines(c, s.(issued := s.issued[h.lease := h]))
  {
    var p := s.(issued := s.issued[h.lease := h]);
    forall sc, id | sc in p.store.sets && id in p.store.sets[sc].members
      ensures MemberOk(c, p, sc, id, p.store.sets[sc].members[id], p.store.sets[sc].keyExpiry) {
      assert MemberOk(c, s, sc, id, p.store.sets[sc].members[id], p.store.sets[sc].keyExpiry);
    }
    forall hid | hid in p.store.holders ensures HolderOk(p, hid, p.store.holders[hid]) {
      assert HolderOk(s, hid, p.store.holders[hid]);
    }
  }

  lemma NoLiveSibling(s: Sys, h: Handle, id: nat)
    requires !HolderHasLive(s.leases, h.holder, s.now) && IsLive(s.leases, id, s.now)
    ensures s.leases[id].handle.holder != h.holder
  {
  }

  function Granted(c: Config, s: Sys, h: Handle): Sys
  {
    Sys(s.now, Store(Put(s.store.sets, ScopesOf(h), h.lease, s.now, c.ttl),
                     s.store.holders[h.holder := HolderRecord(h.lease, s.now + c.ttl, s.now + c.ttl)]),
        s.leases[h.lease := Lease(h, s.now + c.ttl)], s.issued[h.lease := h])
  }

  lemma GrantIsStored(c: Config, s: Sys, h: Handle)
    requires Valid(c) && Refines(c, s) && h.lease !in s.issued
    requires !HolderHasLive(s.leases, h.holder, s.now)
    ensures LeasesStored(Granted(c, s, h)) && SetsOk(c, Granted(c, s, h)) && HoldersOk(Granted(c, s, h))
  {
    var t := Granted(c, s, h);
    hide Put, Members, LiveIn, HolderHasLive;
    forall id | IsLive(s.leases, id, s.now) && id != h.lease ensures s.leases[id].handle.holder != h.holder {
      NoLiveSibling(s, h, id);
    }
    PutKeepsLeases(c, s, h, t);
    PutKeepsSets(c, s, h, t);
    PutKeepsHolders(c, s, h, t);
  }

  lemma GrantWithinLimits(c: Config, s: Sys, h: Handle)
    requires Valid(c) && Refines(c, s) && h.lease !in s.issued
    requires |LiveIn(s.leases, Global, s.now)| < c.limits.global
    requires |LiveIn(s.leases, Campaign(h.campaign), s.now)| < c.limits.campaign
    requires |LiveIn(s.leases, Provider(h.provider), s.now)| < c.limits.provider
    ensures WithinLimits(c, Granted(c, s, h)) && TableOk(Granted(c, s, h))
  {
    hide Put, Members, LiveIn;
    LimitsAfterPut(c, s, h, Granted(c, s, h));
  }

  function PrunedSys(s: Sys, h: Handle): Sys
  {
    s.(store := s.store.(sets := Pruned(s.store.sets, ScopesOf(h), s.now)))
  }

  /** An acquire is a prune followed by a grant, or by nothing. */
  lemma AcquireShape(c: Config, s: Sys, h: Handle)
    requires AcquireTxn(s.store, c.limits, c.ttl, s.now, h).0 == SpecAcquire(s.leases, c.limits, c.ttl, s.now, h).0
    ensures AfterAcquire(c, s, h) ==
      if AcquireTxn(s.store, c.limits, c.ttl, s.now, h).0.Acquired? then Granted(c, PrunedSys(s, h), h)
      else PrunedSys(s, h).(issued := s.issued[h.lease := h])
  {
    hide Put, Pruned, Members, LiveIn, HolderHasLive, HolderBusy, ScopesOf;
  }

  lemma AcquireKeeps(c: Config, s: Sys, h: Handle)
    requires Valid(c) && Refines(c, s) && h.lease !in s.issued
    ensures Refines(c, AfterAcquire(c, s, h))
  {
    AcquireAnswers(c, s, h);
    AcquireShape(c, s, h);
    PruneKeeps(c, s, h);
    var p := PrunedSys(s, h);
    var answer := SpecAcquire(s.leases, c.limits, c.ttl, s.now, h).0;
    if answer.Acquired? {
      assert !HolderHasLive(p.leases, h.holder, p.now);
      hide AfterAcquire, AcquireTxn, Pruned, Put, ScopesOf, LiveIn, HolderHasLive, Granted;
      GrantIsStored(c, p, h);
      GrantWithinLimits(c, p, h);
    } else {
      hide AfterAcquire, AcquireTxn, Pruned, Put, ScopesOf, LiveIn, HolderHasLive, Refines;
      NewIdKeeps(c, p, h);
    }
  }

  lemma RenewKeeps(c: Config, s: Sys, h: Handle)
    requires Valid(c) && Refines(c, s) && h.lease in s.issued && s.issued[h.lease] == h
    ensures Refines(c, Apply(c, s, Renew(h)))
  {
    RenewAnswers(c, s, h);
    var t := Apply(c, s, Renew(h));
    if IsLive(s.leases, h.lease, s.now) {
      assert HolderNames(s.store, s.leases[h.lease], h.lease);
      assert HolderOk(s, h.holder, s.store.holders[h.holder]);
      forall id | IsLive(s.leases, id, s.now) && id != h.lease ensures s.leases[id].handle.holder != h.holder {
        assert HolderNames(s.store, s.leases[id], id);
      }
      PutKeepsSets(c, s, h, t);
      PutKeepsLeases(c, s, h, t);
      PutKeepsHolders(c, s, h, t);
      LimitsAfterPut(c, s, h, t);
    }
  }

  lemma ReleaseKeeps(c: Config, s: Sys, h: Handle)
    requires Refines(c, s) && h.lease in s.issued && s.issued[h.lease] == h
    ensures Refines(c, Apply(c, s, Release(h)))
  {
    var t := Apply(c, s, Release(h));
    forall sc, id | sc in t.store.sets && id in t.store.sets[sc].members
      ensures MemberOk(c, t, sc, id, t.store.sets[sc].members[id], t.store.sets[sc].keyExpiry) {
      assert MemberOk(c, s, sc, id, s.store.sets[sc].members[id], s.store.sets[sc].keyExpiry);
    }
    forall hid | hid in t.store.holders ensures HolderOk(t, hid, t.store.holders[hid]) {
      assert HolderOk(s, hid, s.store.holders[hid]);
    }
    forall id | IsLive(t.leases, id, t.now)
      ensures InAllScopes(t.store, t.leases[id], id) && HolderNames(t.store, t.leases[id], id) {
      assert IsLive(s.leases, id, s.now);
      forall sc | sc in ScopesOf(t.leases[id].handle)
        ensures sc in t.store.sets && id in t.store.sets[sc].members
             && t.store.sets[sc].members[id] == t.leases[id].expires {
        assert MemberOk(c, s, sc, id, s.store.sets[sc].members[id], s.store.sets[sc].keyExpiry);
      }
    }
    ShrinkingTable(c, s, t);
  }

  lemma ShrinkingTable(c: Config, s: Sys, t: Sys)
    requires WithinLimits(c, s) && s.now <= t.now
    requires forall id :: id in t.leases ==> id in s.leases && t.leases[id] == s.leases[id]
    ensures WithinLimits(c, t)
  {
    forall sc ensures |LiveIn(t.leases, sc, t.now)| <= LimitOf(c.limits, sc) {
      SubsetSize(LiveIn(t.leases, sc, t.now), LiveIn(s.leases, sc, s.now));
    }
  }

  lemma AdvanceKeeps(c: Config, s: Sys, elapsed: int)
    requires Refines(c, s) && elapsed >= 0
    ensures Refines(c, s.(now := s.now + elapsed))
  {
    var t := s.(now := s.now + elapsed);
    forall sc, id | sc in t.store.sets && id in t.store.sets[sc].members
      ensures MemberOk(c, t, sc, id, t.store.sets[sc].members[id], t.store.sets[sc].keyExpiry) {
      assert MemberOk(c, s, sc, id, s.store.sets[sc].members[id], s.store.sets[sc].keyExpiry);
    }
    forall hid | hid in t.store.holders ensures HolderOk(t, hid, t.store.holders[hid]) {
      assert HolderOk(s, hid, s.store.holders[hid]);
    }
    forall id | IsLive(t.leases, id, t.now) ensures IsLive(s.leases, id, s.now) {
    }
    ShrinkingTable(c, s, t);
  }

  /** Whole-key expiry never drops a live lease: evicting an expired key keeps the refinement. */
  lemma EvictionKeeps(c: Config, s: Sys, step: Step)
    requires Refines(c, s) && Enabled(s, step) && (step.EvictScope? || step.EvictHolder?)
    ensures Refines(c, Apply(c, s, step))
  {
    var t := Apply(c, s, step);
    forall id | IsLive(t.leases, id, t.now)
      ensures InAllScopes(t.store, t.leases[id], id) && HolderNames(t.store, t.leases[id], id) {
      assert IsLive(s.leases, id, s.now);
      assert HolderOk(s, s.leases[id].handle.holder, s.store.holders[s.leases[id].handle.holder]);
      forall sc | sc in ScopesOf(t.leases[id].handle)
        ensures sc in t.store.sets && id in t.store.sets[sc].members
             && t.store.sets[sc].members[id] == t.leases[id].expires {
        assert MemberOk(c, s, sc, id, s.store.sets[sc].members[id], s.store.sets[sc].keyExpiry);
      }
    }
    forall sc, id | sc in t.store.sets && id in t.store.sets[sc].members
      ensures MemberOk(c, t, sc, id, t.store.sets[sc].members[id], t.store.sets[sc].keyExpiry) {
      assert MemberOk(c, s, sc, id, s.store.sets[sc].members[id], s.store.sets[sc].keyExpiry);
    }
    forall hid | hid in t.store.holders ensures HolderOk(t, hid, t.store.holders[hid]) {
      assert HolderOk(s, hid, s.store.holders[hid]);
    }
  }

  lemma StepRefines(c: Config, s: Sys, step: Step)
    requires Valid(c) && Refines(c, s) && Enabled(s, step)
    ensures Refines(c, Apply(c, s, step))
  {
    hide Refines;
    match step
    case Advance(elapsed) => AdvanceKeeps(c, s, elapsed);
    case Acquire(h) => AcquireKeeps(c, s, h);
    case Renew(h) => RenewKeeps(c, s, h);
    case Release(h) => ReleaseKeeps(c, s, h);
    case EvictScope(_) => EvictionKeeps(c, s, step);
    case EvictHolder(_) => EvictionKeeps(c, s, step);
  }

  lemma NextRefines(c: Config, s: Sys, t: Sys)
    requires Valid(c) && Refines(c, s) && Next(c, s, t)
    ensures Refines(c, t)
  {
    hide Refines;
    var step :| Enabled(s, step) && t == Apply(c, s, step);
    StepRefines(c, s, step);
  }

  lemma InitialRefines(c: Config)
    requires Valid(c)
    ensures Refines(c, INITIAL)
  {
    forall sc ensures |LiveIn(INITIAL.leases, sc, 0)| <= LimitOf(c.limits, sc) {
      assert LiveIn(INITIAL.leases, sc, 0) == {};
    }
  }

  /** Every reachable store refines the simple table of leases. */
  lemma {:induction false} RunRefines(c: Config, trace: seq<Sys>, i: nat)
    requires Valid(c) && Run(c, trace) && trace[0] == INITIAL && i < |trace|
    ensures Refines(c, trace[i])
  {
    hide Next, Refines;
    if i == 0 {
      InitialRefines(c);
    } else {
      RunRefines(c, trace, i - 1);
      NextRefines(c, trace[i - 1], trace[i - 1 + 1]);
    }
  }

  /** In every reachable state: no scope holds more live leases than its limit; a live lease is in
      all three of its scopes with one expiry and its holder record names it; and a holder has at
      most one live lease. */
  lemma ReachableLeases(c: Config, trace: seq<Sys>, i: nat, sc: Scope, id: nat, other: nat)
    requires Valid(c) && Run(c, trace) && trace[0] == INITIAL && i < |trace|
    requires IsLive(trace[i].leases, id, trace[i].now)
    ensures |LiveIn(trace[i].leases, sc, trace[i].now)| <= LimitOf(c.limits, sc)
    ensures InAllScopes(trace[i].store, trace[i].leases[id], id)
    ensures HolderNames(trace[i].store, trace[i].leases[id], id)
    ensures (&& IsLive(trace[i].leases, other, trace[i].now)
             && trace[i].leases[other].handle.holder == trace[i].leases[id].handle.holder)
            ==> other == id
  {
    RunRefines(c, trace, i);
    assert HolderNames(trace[i].store, trace[i].leases[id], id);
    if IsLive(trace[i].leases, other, trace[i].now) {
      assert HolderNames(trace[i].store, trace[i].leases[other], other);
    }
  }

  /** A renewal or release under any other handle, however stale, leaves a live lease live, with its
      expiry, in all its scopes, and its holder record naming it. */
  lemma ForeignHandleIsHarmless(c: Config, trace: seq<Sys>, i: nat, step: Step, id: nat)
    requires Valid(c) && Run(c, trace) && trace[0] == INITIAL && i < |trace|
    requires Enabled(trace[i], step) && (step.Renew? || step.Release?)
    requires IsLive(trace[i].leases, id, trace[i].now) && step.h.lease != id
    ensures var t := Apply(c, trace[i], step);
      && IsLive(t.leases, id, t.now) && t.leases[id] == trace[i].leases[id]
      && InAllScopes(t.store, t.leases[id], id) && HolderNames(t.store, t.leases[id], id)
  {
    RunRefines(c, trace, i);
    hide Run;
    StepRefines(c, trace[i], step);
    var t := Apply(c, trace[i], step);
    assert IsLive(t.leases, id, t.now);
  }

  /** A lease that is not live (released, or expired) is never brought back by any later step. */
  lemma DeadStaysDead(c: Config, s: Sys, step: Step, id: nat)
    requires Valid(c) && Refines(c, s) && Enabled(s, step)
    requires id in s.issued && !IsLive(s.leases, id, s.now)
    ensures var t := Apply(c, s, step); id in t.issued && !IsLive(t.leases, id, t.now)
  {
  }

  lemma NextDead(c: Config, s: Sys, t: Sys, id: nat)
    requires Valid(c) && Refines(c, s) && Next(c, s, t)
    requires id in s.issued && !IsLive(s.leases, id, s.now)
    ensures id in t.issued && !IsLive(t.leases, id, t.now)
  {
    hide Refines, IsLive, Valid, Enabled, Apply;
    var step :| Enabled(s, step) && t == Apply(c, s, step);
    DeadStaysDead(c, s, step, id);
  }

  /** Hence over whole runs. */
  lemma {:induction false} DeadForever(c: Config, trace: seq<Sys>, i: nat, j: nat, id: nat)
    requires Valid(c) && Run(c, trace) && trace[0] == INITIAL && i <= j < |trace|
    requires id in trace[i].issued && !IsLive(trace[i].leases, id, trace[i].now)
    ensures id in trace[j].issued && !IsLive(trace[j].leases, id, trace[j].now)
    decreases j
  {
    hide Next, Refines, IsLive, Valid;
    if i < j {
      DeadForever(c, trace, i, j - 1, id);
      RunRefines(c, trace, j - 1);
      NextDead(c, trace[j - 1], trace[j - 1 + 1], id);
    }
  }
}
