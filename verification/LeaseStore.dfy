/** Concurrency leases as the Redis scripts keep them: three sorted sets (lease id -> expiry) and a
    holder record per logical attempt, every key with its own expiry. Each script is atomic. */
module LeaseStore {
  import opened Basics

  datatype Scope = Global | Campaign(campaign: nat) | Provider(provider: nat)

  datatype Handle = Handle(lease: nat, holder: nat, campaign: nat, provider: nat)

  function ScopeAt(h: Handle, i: nat): Scope
    requires i < 3
  {
    if i == 0 then Global else if i == 1 then Campaign(h.campaign) else Provider(h.provider)
  }

  function ScopesOf(h: Handle): set<Scope> { {Global, Campaign(h.campaign), Provider(h.provider)} }

  datatype SortedSet = SortedSet(members: map<nat, int>, keyExpiry: int)

  datatype HolderRecord = HolderRecord(lease: nat, expires: int, keyExpiry: int)

  datatype Store = Store(sets: map<Scope, SortedSet>, holders: map<nat, HolderRecord>)

  datatype Limits = Limits(global: int, campaign: int, provider: int)

  function LimitOf(limits: Limits, sc: Scope): int
  {
    match sc
    case Global => limits.global
    case Campaign(_) => limits.campaign
    case Provider(_) => limits.provider
  }

  /** What a command sees: an expired key reads as absent, whether or not Redis removed it yet. */
  function Members(sets: map<Scope, SortedSet>, sc: Scope, now: int): map<nat, int>
  {
    if sc in sets && now <= sets[sc].keyExpiry then sets[sc].members else map[]
  }

  predicate HolderVisible(holders: map<nat, HolderRecord>, holder: nat, now: int)
  {
    holder in holders && now <= holders[holder].keyExpiry
  }

  function Unexpired(m: map<nat, int>, now: int): map<nat, int>
  {
    map id | id in m && m[id] > now :: m[id]
  }

  function Pruned(sets: map<Scope, SortedSet>, scopes: set<Scope>, now: int): map<Scope, SortedSet>
  {
    map sc | sc in sets ::
      if sc in scopes then sets[sc].(members := Unexpired(Members(sets, sc, now), now)) else sets[sc]
  }

  /** ZADD the lease and PEXPIRE the key, in every scope given. */
  function Put(sets: map<Scope, SortedSet>, scopes: set<Scope>, lease: nat, now: int, ttl: int): map<Scope, SortedSet>
  {
    map sc | sc in sets.Keys + scopes ::
      if sc in scopes then SortedSet(Members(sets, sc, now)[lease := now + ttl], now + ttl) else sets[sc]
  }

  function Removed(sets: map<Scope, SortedSet>, scopes: set<Scope>, lease: nat, now: int): map<Scope, SortedSet>
  {
    map sc | sc in sets ::
      if sc in scopes then sets[sc].(members := Members(sets, sc, now) - {lease}) else sets[sc]
  }

  datatype Reply = Acquired | Duplicate | GlobalFull | CampaignFull | ProviderFull

  predicate HolderBusy(holders: map<nat, HolderRecord>, holder: nat, now: int)
  {
    HolderVisible(holders, holder, now) && holders[holder].expires > now
  }

  function AcquireTxn(s: Store, limits: Limits, ttl: int, now: int, h: Handle): (Reply, Store)
  {
    var sets := Pruned(s.sets, ScopesOf(h), now);
    var pruned := s.(sets := sets);
    if HolderBusy(s.holders, h.holder, now) then (Duplicate, pruned)
    else if |Members(sets, Global, now)| >= limits.global then (GlobalFull, pruned)
    else if |Members(sets, Campaign(h.campaign), now)| >= limits.campaign then (CampaignFull, pruned)
    else if |Members(sets, Provider(h.provider), now)| >= limits.provider then (ProviderFull, pruned)
    else (Acquired, Store(Put(sets, ScopesOf(h), h.lease, now, ttl),
                          s.holders[h.holder := HolderRecord(h.lease, now + ttl, now + ttl)]))
  }

  predicate HeldIn(sets: map<Scope, SortedSet>, sc: Scope, lease: nat, now: int)
  {
    lease in Members(sets, sc, now) && Members(sets, sc, now)[lease] > now
  }

  function RenewTxn(s: Store, ttl: int, now: int, h: Handle): (bool, Store)
  {
    if exists sc :: sc in ScopesOf(h) && !HeldIn(s.sets, sc, h.lease, now) then (false, s)
    else
      var mine := HolderVisible(s.holders, h.holder, now) && s.holders[h.holder].lease == h.lease;
      (true, Store(Put(s.sets, ScopesOf(h), h.lease, now, ttl),
                   if mine then s.holders[h.holder := HolderRecord(h.lease, now + ttl, now + ttl)] else s.holders))
  }

  function ReleaseTxn(s: Store, now: int, h: Handle): (bool, Store)
  {
    var any := exists sc :: sc in ScopesOf(h) && h.lease in Members(s.sets, sc, now);
    var mine := HolderVisible(s.holders, h.holder, now) && s.holders[h.holder].lease == h.lease;
    (any, Store(Removed(s.sets, ScopesOf(h), h.lease, now),
                if mine then s.holders - {h.holder} else s.holders))
  }

  // ---- the scripts --------------------------------------------------------------------------

  class RedisLeases {
    const limits: Limits
    const ttl: int
    var sets: map<Scope, SortedSet>
    var holders: map<nat, HolderRecord>

    constructor (limits: Limits, ttl: int)
      ensures this.limits == limits && this.ttl == ttl && Contents() == Store(map[], map[])
    {
      this.limits, this.ttl := limits, ttl;
      sets, holders := map[], map[];
    }

    function Contents(): Store
      reads this
    {
      Store(sets, holders)
    }

    static function FirstScopes(h: Handle, n: nat): set<Scope>
      requires n <= 3
    {
      set i: nat | i < n :: ScopeAt(h, i)
    }

    static lemma AllScopes(h: Handle)
      ensures FirstScopes(h, 0) == {} && FirstScopes(h, 3) == ScopesOf(h)
      ensures forall n: nat :: n < 3 ==> FirstScopes(h, n + 1) == FirstScopes(h, n) + {ScopeAt(h, n)}
      ensures forall n: nat :: n < 3 ==> ScopeAt(h, n) !in FirstScopes(h, n)
    {
      assert ScopeAt(h, 0) == Global && ScopeAt(h, 1) == Campaign(h.campaign) && ScopeAt(h, 2) == Provider(h.provider);
      assert FirstScopes(h, 3) == ScopesOf(h) by {
        assert forall sc :: sc in ScopesOf(h) ==> sc in FirstScopes(h, 3);
      }
    }

    /** ZREMRANGEBYSCORE -inf now on each scope. */
    method Prune(h: Handle, now: int)
      modifies this
      ensures sets == Pruned(old(sets), ScopesOf(h), now) && holders == old(holders)
    {
      AllScopes(h);
      assert sets == Pruned(sets, {}, now);
      for i := 0 to 3
        invariant sets == Pruned(old(sets), FirstScopes(h, i), now) && holders == old(holders)
      {
        var sc := ScopeAt(h, i);
        if sc in sets {
          sets := sets[sc := sets[sc].(members := Unexpired(Members(sets, sc, now), now))];
        }
        assert sets == Pruned(old(sets), FirstScopes(h, i + 1), now);
      }
    }

    /** ZADD and PEXPIRE on each scope. */
    method PutLease(h: Handle, now: int)
      modifies this
      ensures sets == Put(old(sets), ScopesOf(h), h.lease, now, ttl) && holders == old(holders)
    {
      AllScopes(h);
      assert sets == Put(sets, {}, h.lease, now, ttl);
      for i := 0 to 3
        invariant sets == Put(old(sets), FirstScopes(h, i), h.lease, now, ttl) && holders == old(holders)
      {
        var sc := ScopeAt(h, i);
        assert Members(sets, sc, now) == Members(old(sets), sc, now);
        sets := sets[sc := SortedSet(Members(sets, sc, now)[h.lease := now + ttl], now + ttl)];
        assert sets == Put(old(sets), FirstScopes(h, i + 1), h.lease, now, ttl);
      }
    }

    method Acquire(h: Handle, now: int) returns (reply: Reply)
      modifies this
      ensures (reply, Contents()) == AcquireTxn(old(Contents()), limits, ttl, now, h)
    {
      Prune(h, now);
      if HolderBusy(holders, h.holder, now) { return Duplicate; }
      for i := 0 to 3
        invariant sets == Pruned(old(sets), ScopesOf(h), now) && holders == old(holders)
        invariant forall j: nat :: j < i ==>
          |Members(sets, ScopeAt(h, j), now)| < LimitOf(limits, ScopeAt(h, j))
      {
        if |Members(sets, ScopeAt(h, i), now)| >= LimitOf(limits, ScopeAt(h, i)) {
          assert i > 0 ==> |Members(sets, ScopeAt(h, 0), now)| < LimitOf(limits, ScopeAt(h, 0));
          assert i > 1 ==> |Members(sets, ScopeAt(h, 1), now)| < LimitOf(limits, ScopeAt(h, 1));
          return if i == 0 then GlobalFull else if i == 1 then CampaignFull else ProviderFull;
        }
      }
      assert forall j: nat :: j < 3 ==> |Members(sets, ScopeAt(h, j), now)| < LimitOf(limits, ScopeAt(h, j));
      assert |Members(sets, ScopeAt(h, 0), now)| < limits.global;
      assert |Members(sets, ScopeAt(h, 1), now)| < limits.campaign;
      assert |Members(sets, ScopeAt(h, 2), now)| < limits.provider;
      PutLease(h, now);
      holders := holders[h.holder := HolderRecord(h.lease, now + ttl, now + ttl)];
      return Acquired;
    }

    method Renew(h: Handle, now: int) returns (renewed: bool)
      modifies this
      ensures (renewed, Contents()) == RenewTxn(old(Contents()), ttl, now, h)
    {
      for i := 0 to 3
        invariant forall j: nat :: j < i ==> HeldIn(sets, ScopeAt(h, j), h.lease, now)
        invariant Contents() == old(Contents())
      {
        if !HeldIn(sets, ScopeAt(h, i), h.lease, now) {
          assert ScopeAt(h, i) in ScopesOf(h);
          return false;
        }
      }
      assert HeldIn(sets, ScopeAt(h, 0), h.lease, now);
      assert HeldIn(sets, ScopeAt(h, 1), h.lease, now);
      assert HeldIn(sets, ScopeAt(h, 2), h.lease, now);
      PutLease(h, now);
      if HolderVisible(holders, h.holder, now) && holders[h.holder].lease == h.lease {
        holders := holders[h.holder := HolderRecord(h.lease, now + ttl, now + ttl)];
      }
      return true;
    }

    method Release(h: Handle, now: int) returns (released: bool)
      modifies this
      ensures (released, Contents()) == ReleaseTxn(old(Contents()), now, h)
    {
      AllScopes(h);
      var removed := 0;
      assert sets == Removed(sets, {}, h.lease, now);
      for i := 0 to 3
        invariant sets == Removed(old(sets), FirstScopes(h, i), h.lease, now) && holders == old(holders)
        invariant removed >= 0
        invariant removed > 0 <==> exists j: nat :: j < i && h.lease in Members(old(sets), ScopeAt(h, j), now)
      {
        var sc := ScopeAt(h, i);
        assert Members(sets, sc, now) == Members(old(sets), sc, now);
        if h.lease in Members(sets, sc, now) {
          removed := removed + 1;
        }
        if sc in sets {
          sets := sets[sc := sets[sc].(members := Members(sets, sc, now) - {h.lease})];
        }
        assert sets == Removed(old(sets), FirstScopes(h, i + 1), h.lease, now);
      }
      if HolderVisible(holders, h.holder, now) && holders[h.holder].lease == h.lease {
        holders := holders - {h.holder};
      }
      released := removed > 0;
      if released {
        ghost var j: nat :| j < 3 && h.lease in Members(old(sets), ScopeAt(h, j), now);
        assert ScopeAt(h, j) in ScopesOf(h);
      } else {
        assert forall j: nat :: j < 3 ==> h.lease !in Members(old(sets), ScopeAt(h, j), now);
        assert ScopesOf(h) == {ScopeAt(h, 0), ScopeAt(h, 1), ScopeAt(h, 2)};
      }
    }
  }
}
