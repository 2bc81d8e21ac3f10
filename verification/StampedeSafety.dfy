/** What every run of the cache-stampede protocol keeps. */
module StampedeSafety {
  import opened Entities
  import opened Backoff
  import opened Stampede

  // ----- lock ownership -----

  /** A caller that still owns its lease is the one named in the lock cell. */
  ghost predicate HoldersOwn(s: State) {
    forall i :: 0 <= i < |s.calls| && Holding(s.calls[i]) && !s.calls[i].lost ==>
      s.lock.Some? && s.lock.value.owner == i
  }

  /** The lock cell names a live holder, or a caller whose lock or unlock reply failed. */
  ghost predicate OwnerKnown(s: State) {
    s.lock.Some? ==>
      var i := s.lock.value.owner;
      && i < |s.calls|
      && !s.calls[i].lost
      && (Holding(s.calls[i]) || (s.calls[i].phase.Returned? && !s.calls[i].released))
  }

  ghost predicate LossesCharged(s: State) {
    forall i :: 0 <= i < |s.calls| && Guarding(s.calls[i]) && s.calls[i].lost ==> s.ledger.lostHolds > 0
  }

  /** Only a call that reached the lock can have lost it, only a finished one can have released it. */
  ghost predicate FlagsEarned(s: State) {
    forall i :: 0 <= i < |s.calls| ==>
      && (s.calls[i].lost ==> Holding(s.calls[i]) || s.calls[i].phase.Returned?)
      && (s.calls[i].released ==> s.calls[i].phase.Returned?)
  }

  ghost predicate Ownership(s: State) {
    HoldersOwn(s) && OwnerKnown(s) && LossesCharged(s) && FlagsEarned(s)
  }

  lemma OwnershipLoss(s: State)
    requires Ownership(s)
    ensures Ownership(LoseLock(s))
  {
  }

  lemma OwnershipTryLock(s: State, i: nat, reply: Reply)
    requires Ownership(s) && Enabled(s, TryLock(i, reply))
    ensures Ownership(AfterTryLock(s, i, reply))
  {
  }

  lemma OwnershipUnlock(s: State, i: nat, reply: Reply)
    requires Ownership(s) && Enabled(s, Unlock(i, reply))
    ensures Ownership(AfterUnlock(s, i, reply))
  {
  }

  /** A holder's step to another holding phase. */
  lemma OwnershipHold(s: State, s': State, i: nat)
    requires Ownership(s) && i < |s.calls| && Holding(s.calls[i])
    requires s'.lock == s.lock && s'.ledger.lostHolds == s.ledger.lostHolds
    requires |s'.calls| == |s.calls| && s'.calls == s.calls[i := s'.calls[i]]
    requires Holding(s'.calls[i]) && s'.calls[i].lost == s.calls[i].lost && !s'.calls[i].released
    requires Guarding(s.calls[i]) || !Guarding(s'.calls[i])
    ensures Ownership(s')
  {
  }

  /** A step of a caller that has not reached the lock. */
  lemma OwnershipOutside(s: State, i: nat, c: Call)
    requires Ownership(s) && i < |s.calls|
    requires !Holding(s.calls[i]) && !s.calls[i].phase.Returned?
    requires !Holding(c) && c.lost == s.calls[i].lost && c.released == s.calls[i].released
    ensures Ownership(Put(s, i, c))
  {
  }

  lemma OwnershipInvoke(s: State, cfg: Settings)
    requires Ownership(s)
    ensures Ownership(Apply(s, Invoke(cfg)))
  {
  }

  lemma TickExpires(s: State, d: nat)
    ensures Apply(s, Tick(d)) == ExpireCache(ExpireLock(s.(now := s.now + d)))
  {
  }

  lemma OwnershipCacheExpiry(s: State)
    requires Ownership(s)
    ensures Ownership(ExpireCache(s))
  {
  }

  lemma OwnershipTick(s: State, d: nat)
    requires Ownership(s)
    ensures Ownership(Apply(s, Tick(d)))
  {
    var t := s.(now := s.now + d);
    OwnershipLoss(t);
    OwnershipCacheExpiry(ExpireLock(t));
    TickExpires(s, d);
  }

  lemma OwnershipStep(s: State, e: Event)
    requires Ownership(s)
    ensures Ownership(Apply(s, e))
  {
    if Enabled(s, e) {
      match e
      case Invoke(cfg) => OwnershipInvoke(s, cfg);
      case Read(i, failed) => OwnershipOutside(s, i, AfterRead(s, i, failed).calls[i]);
      case TryLock(i, reply) => OwnershipTryLock(s, i, reply);
      case Recheck(i, failed) => OwnershipHold(s, AfterRecheck(s, i, failed), i);
      case EndFetch(i, got) => OwnershipHold(s, AfterFetch(s, i, got), i);
      case Store(i, reply) => OwnershipHold(s, AfterStore(s, i, reply), i);
      case Unlock(i, reply) => OwnershipUnlock(s, i, reply);
      case Wake(i) => OwnershipOutside(s, i, s.calls[i].(phase := Polling(s.calls[i].phase.attempt)));
      case Cancel(i) => OwnershipOutside(s, i, s.calls[i].(phase := Returned(Cancelled)));
      case Poll(i, failed) => OwnershipOutside(s, i, AfterPoll(s, i, failed).calls[i]);
      case Tick(d) => OwnershipTick(s, d);
      case EvictLock => OwnershipLoss(s);
      case EvictCache =>
    }
  }

  // ----- the amortised stampede bound -----

  /** A caller that lost its lease before looking again has prepaid for the fetch it may make. */
  function Credit(c: Call): nat {
    if c.phase.Rechecking? && c.lost then 1 else 0
  }

  function Credits(calls: seq<Call>): nat {
    if calls == [] then 0 else Credits(calls[..|calls| - 1]) + Credit(calls[|calls| - 1])
  }

  lemma {:induction false} CreditsPut(calls: seq<Call>, i: nat, c: Call)
    requires i < |calls|
    ensures Credits(calls[i := c]) == Credits(calls) - Credit(calls[i]) + Credit(c)
  {
    var n := |calls| - 1;
    if i == n {
      assert calls[i := c][..n] == calls[..n];
    } else {
      CreditsPut(calls[..n], i, c);
      assert calls[i := c][..n] == calls[..n][i := c];
    }
  }

  /** The holder of the lock is between a missed recheck and its cache write. */
  predicate FetchGuarded(s: State) {
    s.lock.Some? && s.lock.value.owner < |s.calls| &&
    (s.calls[s.lock.value.owner].phase.Fetching? || s.calls[s.lock.value.owner].phase.Storing?)
  }

  /** One fetch is free of charge as long as its result is stored or on its way. */
  function Settled(s: State): nat {
    if s.cache.Some? || FetchGuarded(s) then 1 else 0
  }

  predicate Balanced(s: State, preloaded: nat) {
    s.ledger.fetches + Credits(s.calls) + preloaded <= Faults(s.ledger) + Settled(s)
  }

  lemma BalancedLoss(s: State, p: nat)
    requires Ownership(s) && Balanced(s, p)
    ensures Balanced(LoseLock(s), p)
  {
    if s.lock.Some? {
      var i := s.lock.value.owner;
      CreditsPut(s.calls, i, s.calls[i].(lost := true));
    }
  }

  lemma BalancedTryLock(s: State, i: nat, reply: Reply, p: nat)
    requires Ownership(s) && Balanced(s, p) && Enabled(s, TryLock(i, reply))
    ensures Balanced(AfterTryLock(s, i, reply), p)
  {
    CreditsPut(s.calls, i, AfterTryLock(s, i, reply).calls[i]);
  }

  lemma BalancedRecheck(s: State, i: nat, failed: bool, p: nat)
    requires Ownership(s) && Balanced(s, p) && Enabled(s, Recheck(i, failed))
    ensures Balanced(AfterRecheck(s, i, failed), p)
  {
    CreditsPut(s.calls, i, AfterRecheck(s, i, failed).calls[i]);
  }

  lemma BalancedFetch(s: State, i: nat, got: FetchReply, p: nat)
    requires Ownership(s) && Balanced(s, p) && Enabled(s, EndFetch(i, got))
    ensures Balanced(AfterFetch(s, i, got), p)
  {
    CreditsPut(s.calls, i, AfterFetch(s, i, got).calls[i]);
  }

  lemma BalancedStore(s: State, i: nat, reply: Reply, p: nat)
    requires Ownership(s) && Balanced(s, p) && Enabled(s, Store(i, reply))
    ensures Balanced(AfterStore(s, i, reply), p)
  {
    CreditsPut(s.calls, i, AfterStore(s, i, reply).calls[i]);
  }

  lemma BalancedUnlock(s: State, i: nat, reply: Reply, p: nat)
    requires Ownership(s) && Balanced(s, p) && Enabled(s, Unlock(i, reply))
    ensures Balanced(AfterUnlock(s, i, reply), p)
  {
    CreditsPut(s.calls, i, AfterUnlock(s, i, reply).calls[i]);
  }

  /** The steps of a caller that does not hold the lock touch neither side of the balance. */
  lemma BalancedOutside(s: State, i: nat, c: Call, p: nat)
    requires Ownership(s) && Balanced(s, p) && i < |s.calls|
    requires !Holding(s.calls[i]) && !s.calls[i].phase.Returned? && !Holding(c)
    ensures Balanced(Put(s, i, c), p)
  {
    CreditsPut(s.calls, i, c);
  }

  lemma BalancedExpiry(s: State, p: nat)
    requires Ownership(s) && Balanced(s, p)
    ensures Balanced(ExpireLock(s), p)
  {
    BalancedLoss(s, p);
  }

  lemma BalancedCacheExpiry(s: State, p: nat)
    requires Balanced(s, p)
    ensures Balanced(ExpireCache(s), p)
  {
  }

  lemma BalancedTick(s: State, d: nat, p: nat)
    requires Ownership(s) && Balanced(s, p)
    ensures Balanced(Apply(s, Tick(d)), p)
  {
    var t := s.(now := s.now + d);
    BalancedExpiry(t, p);
    BalancedCacheExpiry(ExpireLock(t), p);
    TickExpires(s, d);
  }

  lemma BalancedInvoke(s: State, cfg: Settings, p: nat)
    requires Balanced(s, p) && Ownership(s)
    ensures Balanced(Apply(s, Invoke(cfg)), p)
  {
    assert Apply(s, Invoke(cfg)).calls[..|s.calls|] == s.calls;
  }

  lemma BalancedWake(s: State, i: nat, p: nat)
    requires Ownership(s) && Balanced(s, p) && Enabled(s, Wake(i))
    ensures Balanced(Apply(s, Wake(i)), p)
  {
    BalancedOutside(s, i, Apply(s, Wake(i)).calls[i], p);
  }

  lemma BalancedCancel(s: State, i: nat, p: nat)
    requires Ownership(s) && Balanced(s, p) && Enabled(s, Cancel(i))
    ensures Balanced(Apply(s, Cancel(i)), p)
  {
    BalancedOutside(s, i, Apply(s, Cancel(i)).calls[i], p);
  }

  lemma BalancedLook(s: State, e: Event, p: nat)
    requires Ownership(s) && Balanced(s, p) && Enabled(s, e) && (e.Read? || e.Poll?)
    ensures Balanced(Apply(s, e), p)
  {
    BalancedOutside(s, e.i, Apply(s, e).calls[e.i], p);
  }

  lemma BalancedStep(s: State, e: Event, p: nat)
    requires Ownership(s) && Balanced(s, p)
    ensures Balanced(Apply(s, e), p)
  {
    if Enabled(s, e) {
      match e
      case Invoke(cfg) => BalancedInvoke(s, cfg, p);
      case Read(_, _) => BalancedLook(s, e, p);
      case TryLock(i, reply) => BalancedTryLock(s, i, reply, p);
      case Recheck(i, failed) => BalancedRecheck(s, i, failed, p);
      case EndFetch(i, got) => BalancedFetch(s, i, got, p);
      case Store(i, reply) => BalancedStore(s, i, reply, p);
      case Unlock(i, reply) => BalancedUnlock(s, i, reply, p);
      case Wake(i) => BalancedWake(s, i, p);
      case Cancel(i) => BalancedCancel(s, i, p);
      case Poll(_, _) => BalancedLook(s, e, p);
      case Tick(d) => BalancedTick(s, d, p);
      case EvictLock => BalancedLoss(s, p);
      case EvictCache => assert Apply(s, e) == LoseCache(s);
    }
  }
}
