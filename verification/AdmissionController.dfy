/** One admission, as the controller runs it: circuit breaker, lease, then three counters with
    rollback, and a Redis error at any one of its commands. */
module AdmissionControl {
  import opened LeaseStore
  import opened AdmissionRates

  datatype Admission = CircuitOpen | DuplicateLease | ConcurrencyExceeded | CpsExceeded | Granted | RedisFailed

  /** The one command of an admission that raises a Redis error, if any. A command whose reply is lost
      may still have reached Redis. The EXPIRE after an INCR is part of that INCR. */
  datatype Fault =
    | Sound
    | BreakerFails
    | AcquireFails(reached: bool)
    | IncrFails(at: nat, reached: bool)
    | DecrFails(at: nat, reached: bool)

  /** How many of an admission's INCRs (or DECRs) took effect when the fault is met at `at`. */
  function Effects(at: nat, reached: bool): nat { if reached then at + 1 else at }

  function Value(counters: map<Key, int>, k: Key): int { if k in counters then counters[k] else 0 }

  function CpsKey(h: Handle, second: int, i: nat): Key
    requires i < 3
  {
    Key(ScopeAt(h, i), second)
  }

  /** Bumping the i-th counter stays within its limit. */
  predicate Fits(counters: map<Key, int>, cps: Limits, h: Handle, second: int, i: nat)
    requires i < 3
  {
    Value(counters, CpsKey(h, second, i)) + 1 <= LimitOf(cps, ScopeAt(h, i))
  }

  /** How many of the counters, taken in order, have room before the first that has none. */
  function Fitting(counters: map<Key, int>, cps: Limits, h: Handle, second: int): (n: nat)
    ensures n <= 3
    ensures forall i: nat :: i < n ==> Fits(counters, cps, h, second, i)
    ensures n < 3 ==> !Fits(counters, cps, h, second, n)
  {
    if !Fits(counters, cps, h, second, 0) then 0
    else if !Fits(counters, cps, h, second, 1) then 1
    else if !Fits(counters, cps, h, second, 2) then 2
    else 3
  }

  predicate UsesKey(h: Handle, second: int, lo: nat, hi: nat, k: Key)
    requires hi <= 3
  {
    exists i: nat :: lo <= i < hi && CpsKey(h, second, i) == k
  }

  /** `after` is `before` with the keys lo to hi - 1 of the admission one higher. */
  ghost predicate Counted(before: map<Key, int>, after: map<Key, int>, h: Handle, second: int, lo: nat, hi: nat)
    requires hi <= 3
  {
    forall k :: Value(after, k) == Value(before, k) + (if UsesKey(h, second, lo, hi, k) then 1 else 0)
  }

  /** No key is in two parts of the range. */
  lemma UsesKeySplit(h: Handle, second: int, lo: nat, mid: nat, hi: nat, k: Key)
    requires lo <= mid <= hi <= 3
    ensures UsesKey(h, second, lo, hi, k) <==> UsesKey(h, second, lo, mid, k) || UsesKey(h, second, mid, hi, k)
    ensures !(UsesKey(h, second, lo, mid, k) && UsesKey(h, second, mid, hi, k))
  {
  }

  lemma CountNext(before: map<Key, int>, after: map<Key, int>, next: map<Key, int>, h: Handle, second: int, n: nat)
    requires n < 3 && Counted(before, after, h, second, 0, n)
    requires next == after[CpsKey(h, second, n) := Value(after, CpsKey(h, second, n)) + 1]
    ensures Counted(before, next, h, second, 0, n + 1)
    ensures Value(after, CpsKey(h, second, n)) == Value(before, CpsKey(h, second, n))
  {
    forall k ensures Value(next, k) == Value(before, k) + (if UsesKey(h, second, 0, n + 1, k) then 1 else 0) {
      UsesKeySplit(h, second, 0, n, n + 1, k);
      assert UsesKey(h, second, n, n + 1, k) <==> k == CpsKey(h, second, n);
    }
    UsesKeySplit(h, second, 0, n, n + 1, CpsKey(h, second, n));
    assert UsesKey(h, second, n, n + 1, CpsKey(h, second, n));
  }

  /** Undoing the first `undone` of `made` increments leaves the rest. */
  lemma CountLess(before: map<Key, int>, bumped: map<Key, int>, after: map<Key, int>, h: Handle, second: int, undone: nat, made: nat)
    requires undone <= made <= 3
    requires Counted(before, bumped, h, second, 0, made) && Counted(after, bumped, h, second, 0, undone)
    ensures Counted(before, after, h, second, undone, made)
  {
    forall k ensures Value(after, k) == Value(before, k) + (if UsesKey(h, second, undone, made, k) then 1 else 0) {
      UsesKeySplit(h, second, 0, undone, made, k);
    }
  }

  datatype Count = Fit | Full | Failed

  class AdmissionController {
    const cps: Limits
    const leases: RedisLeases
    var counters: map<Key, int>

    constructor (cps: Limits, leases: RedisLeases)
      ensures this.cps == cps && this.leases == leases && counters == map[]
    {
      this.cps, this.leases := cps, leases;
      counters := map[];
    }

    method Incr(k: Key) returns (value: int)
      modifies this
      ensures counters == old(counters)[k := Value(old(counters), k) + 1] && value == counters[k]
    {
      value := Value(counters, k) + 1;
      counters := counters[k := value];
    }

    method Decr(k: Key)
      modifies this
      ensures counters == old(counters)[k := Value(old(counters), k) - 1]
    {
      counters := counters[k := Value(counters, k) - 1];
    }

    /** Undoes the first `bumped` increments, in order, unless a DECR fails on the way. */
    method Rollback(h: Handle, second: int, bumped: nat, fault: Fault) returns (failed: bool)
      requires bumped <= 3
      modifies this
      ensures failed <==> fault.DecrFails? && fault.at < bumped
      ensures Counted(counters, old(counters), h, second, 0,
        if failed then Effects(fault.at, fault.reached) else bumped)
    {
      for i := 0 to bumped
        invariant fault.DecrFails? ==> i <= fault.at
        invariant Counted(counters, old(counters), h, second, 0, i)
      {
        if fault.DecrFails? && fault.at == i && !fault.reached { return true; }
        ghost var before := counters;
        Decr(CpsKey(h, second, i));
        forall k ensures Value(old(counters), k) ==
          Value(counters, k) + (if UsesKey(h, second, 0, i + 1, k) then 1 else 0) {
          UsesKeySplit(h, second, 0, i, i + 1, k);
          assert UsesKey(h, second, i, i + 1, k) <==> k == CpsKey(h, second, i);
        }
        if fault.DecrFails? && fault.at == i { return true; }
      }
      return false;
    }

    /** Counts one call in the second: all three counters, or none when one has no room. A failing
        INCR leaves what was counted until then; a failing DECR leaves what was not undone yet. */
    method CountCall(h: Handle, second: int, fault: Fault) returns (count: Count)
      modifies this
      ensures var fitting := Fitting(old(counters), cps, h, second);
        && (count.Failed? <==>
              || (fault.IncrFails? && fault.at <= fitting && fault.at < 3)
              || (fault.DecrFails? && fault.at <= fitting < 3))
        && (count.Fit? <==> fitting == 3 && !count.Failed?)
        && (count.Fit? ==> Counted(old(counters), counters, h, second, 0, 3))
        && (count.Full? ==> Counted(old(counters), counters, h, second, 0, 0))
        && (count.Failed? && fault.IncrFails? ==>
              Counted(old(counters), counters, h, second, 0, Effects(fault.at, fault.reached)))
        && (count.Failed? && fault.DecrFails? ==>
              Counted(old(counters), counters, h, second, Effects(fault.at, fault.reached), fitting + 1))
    {
      ghost var fitting := Fitting(old(counters), cps, h, second);
      for i := 0 to 3
        invariant i <= fitting && (fault.IncrFails? ==> i <= fault.at)
        invariant Counted(old(counters), counters, h, second, 0, i)
      {
        var k := CpsKey(h, second, i);
        if fault.IncrFails? && fault.at == i && !fault.reached { return Count.Failed; }
        ghost var before := counters;
        var value := Incr(k);
        CountNext(old(counters), before, counters, h, second, i);
        if fault.IncrFails? && fault.at == i { return Count.Failed; }
        if value > LimitOf(cps, ScopeAt(h, i)) {
          ghost var bumped := counters;
          var failed := Rollback(h, second, i + 1, fault);
          CountLess(old(counters), bumped, counters, h, second,
                    if failed then Effects(fault.at, fault.reached) else i + 1, i + 1);
          if failed { return Count.Failed; }
          return Full;
        }
      }
      return Fit;
    }

    /** Gives the lease back, as far as it is there; an error is swallowed and leaves it to its expiry. */
    method GiveBack(h: Handle, now: int, reached: bool)
      modifies leases
      ensures leases.Contents() ==
        if reached then ReleaseTxn(old(leases.Contents()), now, h).1 else old(leases.Contents())
    {
      hide ReleaseTxn;
      if reached {
        var released := leases.Release(h, now);
      }
    }

    /** Admitted exactly when the breaker is closed, the lease is granted, all three counters have room
        and no command fails; then each counter is one higher and the lease is kept. A rate rejection
        leaves every counter at its old value, an error at most one higher, and both give the lease
        back if the release reaches Redis. */
    method Admit(circuitOpen: bool, h: Handle, now: int, second: int, fault: Fault, releaseReached: bool)
      returns (result: Admission)
      modifies this, leases
      ensures (result.CircuitOpen? <==> circuitOpen && !fault.BreakerFails?)
      ensures circuitOpen || fault.BreakerFails? ==>
        (leases.Contents() == old(leases.Contents()) && counters == old(counters)
         && result == if fault.BreakerFails? then RedisFailed else CircuitOpen)
      ensures var (reply, granted) := AcquireTxn(old(leases.Contents()), leases.limits, leases.ttl, now, h);
        var fitting := Fitting(old(counters), cps, h, second);
        !circuitOpen && !fault.BreakerFails? ==>
          if fault.AcquireFails? then
            && result.RedisFailed? && counters == old(counters)
            && var stored := if fault.reached then granted else old(leases.Contents());
               leases.Contents() == (if releaseReached then ReleaseTxn(stored, now, h).1 else stored)
          else
            && (result.DuplicateLease? <==> reply.Duplicate?)
            && (result.ConcurrencyExceeded? <==> reply.GlobalFull? || reply.CampaignFull? || reply.ProviderFull?)
            && (result.RedisFailed? <==>
                  && reply.Acquired?
                  && (|| (fault.IncrFails? && fault.at <= fitting && fault.at < 3)
                      || (fault.DecrFails? && fault.at <= fitting < 3)))
            && (result.Granted? <==> reply.Acquired? && fitting == 3 && !result.RedisFailed?)
            && leases.Contents() ==
                 (if (result.CpsExceeded? || result.RedisFailed?) && releaseReached
                  then ReleaseTxn(granted, now, h).1 else granted)
      ensures !result.RedisFailed? ==>
        Counted(old(counters), counters, h, second, 0, if result.Granted? then 3 else 0)
      ensures result.RedisFailed? && fault.IncrFails? ==>
        fault.at < 3 && Counted(old(counters), counters, h, second, 0, Effects(fault.at, fault.reached))
      ensures result.RedisFailed? && fault.DecrFails? ==>
        var fitting := Fitting(old(counters), cps, h, second);
        fitting < 3 && Counted(old(counters), counters, h, second, Effects(fault.at, fault.reached), fitting + 1)
    {
      hide AcquireTxn, ReleaseTxn, Fits;
      if fault.BreakerFails? { return RedisFailed; }
      if circuitOpen { return CircuitOpen; }
      if fault.AcquireFails? {
        if fault.reached {
          var lost := leases.Acquire(h, now);
        }
        GiveBack(h, now, releaseReached);
        return RedisFailed;
      }
      var reply := leases.Acquire(h, now);
      if reply.Duplicate? { return DuplicateLease; }
      if !reply.Acquired? { return ConcurrencyExceeded; }
      var count := CountCall(h, second, fault);
      if count.Fit? { return Admission.Granted; }
      GiveBack(h, now, releaseReached);
      return if count.Full? then CpsExceeded else RedisFailed;
    }
  }
}
