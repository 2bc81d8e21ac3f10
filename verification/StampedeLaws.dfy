/**
  What single calls do, told from the commands' replies: which reply ends a call
  and how, what a call costs when it gives up, how long leases and entries last,
  and that the ledger counts exactly the events it is named after.
 */
module StampedeLaws {
  import opened Entities
  import opened Backoff
  import opened Stampede
  import opened StampedeSafety
  import opened StampedeRuns

  // ----- giving up -----

  /** What a call has asked for in sleep has passed, up to the sleep it is in. */
  predicate SleptThrough(s: State, c: Call) {
    match c.phase
    case Sleeping(_, wake) => c.began + c.slept <= wake
    case Returned(Cancelled) => true
    case _ => c.began + c.slept <= s.now
  }

  lemma SleptTryLock(s: State, i: nat, reply: Reply)
    requires Enabled(s, TryLock(i, reply)) && SleptThrough(s, s.calls[i])
    ensures SleptThrough(AfterTryLock(s, i, reply), AfterTryLock(s, i, reply).calls[i])
  {
  }

  lemma SleptStep(s: State, e: Event, i: nat)
    requires i < |s.calls| && SleptThrough(s, s.calls[i])
    requires !s.calls[i].phase.Releasing? || s.calls[i].phase.outcome != Cancelled
    ensures i < |Apply(s, e).calls| && SleptThrough(Apply(s, e), Apply(s, e).calls[i])
  {
    if Actor(e) != Some(i) {
      OthersSpareCall(s, e, i);
    } else if Enabled(s, e) {
      match e
      case Read(_, _) =>
      case TryLock(_, reply) => SleptTryLock(s, i, reply);
      case Recheck(_, _) =>
      case EndFetch(_, _) =>
      case Store(_, _) =>
      case Unlock(_, _) =>
      case Wake(_) =>
      case Cancel(_) =>
      case Poll(_, _) =>
    }
  }

  /** A call under the lock is never on its way to one of the outcomes of the waiting loop. */
  predicate ReleasesProperly(c: Call) {
    c.phase.Releasing? ==> c.phase.outcome != Cancelled && c.phase.outcome != Exhausted && c.phase.outcome != LockFailed
  }

  lemma ReleasesProperlyStep(s: State, e: Event, i: nat)
    requires i < |s.calls| && ReleasesProperly(s.calls[i])
    ensures i < |Apply(s, e).calls| && ReleasesProperly(Apply(s, e).calls[i])
  {
    if Actor(e) != Some(i) {
      OthersSpareCall(s, e, i);
    } else if Enabled(s, e) {
      match e
      case Read(_, _) =>
      case TryLock(_, _) =>
      case Recheck(_, _) =>
      case EndFetch(_, _) =>
      case Store(_, _) =>
      case Unlock(_, _) =>
      case Wake(_) =>
      case Cancel(_) =>
      case Poll(_, _) =>
    }
  }

  /** Every call has slept through what it asked for. */
  ghost predicate AllSlept(s: State) {
    forall i: nat :: i < |s.calls| ==> SleptThrough(s, s.calls[i]) && ReleasesProperly(s.calls[i])
  }

  lemma AllSleptStep(s: State, e: Event)
    requires AllSlept(s)
    ensures AllSlept(Apply(s, e))
  {
    var s' := Apply(s, e);
    forall i: nat | i < |s'.calls|
      ensures SleptThrough(s', s'.calls[i]) && ReleasesProperly(s'.calls[i])
    {
      if i < |s.calls| {
        SleptStep(s, e, i);
        ReleasesProperlyStep(s, e, i);
      } else {
        InvokeOnly(s, e);
      }
    }
  }

  /** Only an invocation adds a call, and it is fresh. */
  lemma InvokeOnly(s: State, e: Event)
    ensures |s.calls| <= |Apply(s, e).calls|
    ensures |Apply(s, e).calls| > |s.calls| ==>
      e.Invoke? && Apply(s, e) == s.(calls := s.calls + [FreshCall(e.cfg, s.now)])
  {
    if Enabled(s, e) {
      match e
      case Invoke(_) =>
      case Read(_, _) =>
      case TryLock(_, _) =>
      case Recheck(_, _) =>
      case EndFetch(_, _) =>
      case Store(_, _) =>
      case Unlock(_, _) =>
      case Wake(_) =>
      case Cancel(_) =>
      case Poll(_, _) =>
      case Tick(_) =>
      case EvictLock =>
      case EvictCache =>
    }
  }

  lemma {:induction false} RunSleeps(s0: State, es: seq<Event>)
    requires Init(s0)
    ensures AllSlept(Exec(s0, es))
  {
    if es != [] {
      var n := |es| - 1;
      RunSleeps(s0, es[..n]);
      AllSleptStep(Exec(s0, es[..n]), es[n]);
    }
  }

  /**
    Exactly maxRetries+1 lock attempts and maxRetries+2 reads, no fetch, and, if
    the delays fit in 64 bits, exactly retryDelay * (2^(maxRetries+1) - 1) of
    sleep, which has passed.
   */
  predicate GaveUp(c: Call, now: nat) {
    var n := if c.cfg.maxRetries < 0 then 0 else c.cfg.maxRetries + 1;
    && c.tries == n && c.lookups == n + 1 && c.fetches == 0
    && c.began + c.slept <= now
    && (0 <= c.cfg.retryDelay && (n == 0 || c.cfg.retryDelay * Pow2(n - 1) < TWO_63) ==>
          c.slept == c.cfg.retryDelay * (Pow2(n) - 1))
  }

  lemma ExhaustedExactly(s0: State, es: seq<Event>, i: nat)
    requires Init(s0) && i < |Exec(s0, es).calls| && Exec(s0, es).calls[i].phase == Returned(Exhausted)
    ensures GaveUp(Exec(s0, es).calls[i], Exec(s0, es).now)
  {
    var c := Exec(s0, es).calls[i];
    RunKeepsCosts(s0, es);
    RunSleeps(s0, es);
    assert CostExact(c) && SleptThrough(Exec(s0, es), c);
    if 0 <= c.cfg.retryDelay && (c.tries == 0 || c.cfg.retryDelay * Pow2(c.tries - 1) < TWO_63) {
      TotalWaitExact(c.cfg.retryDelay, c.tries);
    }
  }

  // ----- which reply ends a call, and how -----

  /** The reply in `e` decides outcome `o` for its call. */
  predicate Decides(s: State, e: Event, o: Outcome) {
    match o
    case Success(r) =>
      || ((e.Read? || e.Recheck? || e.Poll?) && !e.failed && s.cache.Some? && s.cache.value.value == r)
      || (e.Store? && e.reply == Acked && e.i < |s.calls| && s.calls[e.i].phase == Storing(r))
    case LockFailed => e.TryLock? && e.reply != Acked
    case FetchFailed => e.EndFetch? && e.got == FetchError
    case BadType => e.EndFetch? && e.got == WrongType
    case SetFailed => e.Store? && e.reply != Acked
    case Cancelled => e.Cancel?
    case Exhausted => (e.Read? || e.Poll?) && (e.failed || s.cache.None?)
  }

  predicate Has(c: Call, o: Outcome) {
    c.phase == Releasing(o) || c.phase == Returned(o)
  }

  /** A reply that decides an outcome settles its call with it; giving up takes the last attempt as well. */
  lemma DecidedAtOnce(s: State, e: Event, o: Outcome)
    requires Enabled(s, e) && Actor(e).Some? && Decides(s, e, o)
    requires o == Exhausted ==> (if e.Read? then 0 else s.calls[e.i].phase.attempt + 1) > s.calls[e.i].cfg.maxRetries
    ensures e.i < |Apply(s, e).calls| && Has(Apply(s, e).calls[e.i], o)
  {
    match e
    case Read(_, _) =>
    case TryLock(_, _) =>
    case Recheck(_, _) =>
    case EndFetch(_, _) =>
    case Store(_, _) =>
    case Cancel(_) =>
    case Poll(_, _) =>
    case Wake(_) =>
    case Unlock(_, _) =>
  }

  lemma OutcomeStep(s: State, e: Event, i: nat, o: Outcome)
    requires i < |Apply(s, e).calls| && Has(Apply(s, e).calls[i], o)
    ensures (i < |s.calls| && Has(s.calls[i], o)) || (Enabled(s, e) && Actor(e) == Some(i) && Decides(s, e, o))
  {
    if i >= |s.calls| {
      InvokeOnly(s, e);
    } else if Actor(e) != Some(i) {
      OthersSpareCall(s, e, i);
    } else if Enabled(s, e) {
      match e
      case Read(_, _) =>
      case TryLock(_, _) =>
      case Recheck(_, _) =>
      case EndFetch(_, _) =>
      case Store(_, _) =>
      case Unlock(_, _) =>
      case Wake(_) =>
      case Cancel(_) =>
      case Poll(_, _) =>
    }
  }

  ghost predicate DecidedAt(s0: State, es: seq<Event>, i: nat, o: Outcome, k: nat) {
    k < |es| && Enabled(Exec(s0, es[..k]), es[k]) && Actor(es[k]) == Some(i) && Decides(Exec(s0, es[..k]), es[k], o)
  }

  ghost predicate Caused(s0: State, es: seq<Event>, i: nat, o: Outcome) {
    exists k: nat :: DecidedAt(s0, es, i, o, k)
  }

  lemma CausedStays(s0: State, es: seq<Event>, e: Event, i: nat, o: Outcome)
    requires Caused(s0, es, i, o)
    ensures Caused(s0, es + [e], i, o)
  {
    var k: nat :| DecidedAt(s0, es, i, o, k);
    assert (es + [e])[..k] == es[..k];
    assert DecidedAt(s0, es + [e], i, o, k);
  }

  lemma CausedNow(s0: State, es: seq<Event>, e: Event, i: nat, o: Outcome)
    requires Enabled(Exec(s0, es), e) && Actor(e) == Some(i) && Decides(Exec(s0, es), e, o)
    ensures Caused(s0, es + [e], i, o)
  {
    assert (es + [e])[..|es|] == es;
    assert DecidedAt(s0, es + [e], i, o, |es|);
  }

  lemma NothingAtStart(s0: State, i: nat)
    requires Init(s0)
    ensures |Exec(s0, []).calls| == 0
  {
  }

  /** In every run, each outcome was decided by a reply of that kind to that very call. */
  lemma {:induction false} OutcomeCaused(s0: State, es: seq<Event>, i: nat, o: Outcome)
    requires Init(s0) && i < |Exec(s0, es).calls| && Has(Exec(s0, es).calls[i], o)
    ensures Caused(s0, es, i, o)
  {
    if es == [] {
      NothingAtStart(s0, i);
    } else {
      var n := |es| - 1;
      var s := Exec(s0, es[..n]);
      assert es == es[..n] + [es[n]];
      OutcomeStep(s, es[n], i, o);
      if i < |s.calls| && Has(s.calls[i], o) {
        OutcomeCaused(s0, es[..n], i, o);
        CausedStays(s0, es[..n], es[n], i, o);
      } else {
        CausedNow(s0, es[..n], es[n], i, o);
      }
    }
  }

  // ----- leases and entries last as long as asked -----

  /** A set-if-absent that ran on a free cell leaves this caller's lease there for its whole time-to-live. */
  lemma LeaseLasts(s: State, i: nat, reply: Reply, d: nat)
    requires Enabled(s, TryLock(i, reply)) && s.lock.None? && reply != Dropped
    ensures
      var ttl := s.calls[i].cfg.lockTTL;
      var t := Apply(s, TryLock(i, reply));
      && t.lock.Some? && t.lock.value.owner == i
      && (Apply(t, Tick(d)).lock == t.lock <==> ttl == 0 || d < ttl)
      && (Apply(t, Tick(d)).lock.None? <==> ttl != 0 && ttl <= d)
  {
    TickExpires(Apply(s, TryLock(i, reply)), d);
  }

  /** A write that ran leaves the fetched result in the cache for its whole time-to-live. */
  lemma EntryLasts(s: State, i: nat, reply: Reply, d: nat)
    requires Enabled(s, Store(i, reply)) && reply != Dropped
    ensures
      var ttl := s.calls[i].cfg.ttl;
      var t := Apply(s, Store(i, reply));
      && t.cache.Some? && t.cache.value.value == s.calls[i].phase.result
      && (Apply(t, Tick(d)).cache == t.cache <==> ttl == 0 || d < ttl)
      && (Apply(t, Tick(d)).cache.None? <==> ttl != 0 && ttl <= d)
  {
    TickExpires(Apply(s, Store(i, reply)), d);
  }

  /** A command that never ran changes neither cell. */
  lemma DroppedChangesNothing(s: State, e: Event)
    requires (e.TryLock? || e.Store? || e.Unlock?) && e.reply == Dropped
    ensures Apply(s, e).lock == s.lock && Apply(s, e).cache == s.cache
  {
  }

  // ----- undisturbed calls -----

  /** A filled cache answers the call at once, without lock, sleep or fetch. */
  lemma HitReturns(s: State, cfg: Settings)
    requires s.cache.Some?
    ensures
      var i := |s.calls|;
      var t := Apply(Apply(s, Invoke(cfg)), Read(i, false));
      && t.lock == s.lock && t.cache == s.cache && t.ledger == s.ledger && |t.calls| == i + 1
      && t.calls[i].phase == Returned(Success(s.cache.value.value))
      && t.calls[i].lookups == 1 && t.calls[i].tries == 0 && t.calls[i].fetches == 0 && t.calls[i].slept == 0
  {
  }

  lemma ColdCallAcquires(s: State, cfg: Settings)
    requires s.cache.None? && s.lock.None? && 0 <= cfg.maxRetries
    ensures
      var i := |s.calls|;
      var t := Apply(Apply(Apply(s, Invoke(cfg)), Read(i, false)), TryLock(i, Acked));
      && |t.calls| == i + 1 && t.calls[i] == FreshCall(cfg, s.now).(phase := Rechecking, lookups := 1, tries := 1)
      && t.lock.Some? && t.lock.value.owner == i && t.cache.None? && t.ledger == s.ledger && t.now == s.now
  {
  }

  lemma HolderFetches(s: State, i: nat, r: ModerationResult)
    requires i < |s.calls| && s.calls[i].phase.Rechecking? && s.cache.None?
    requires s.lock.Some? && s.lock.value.owner == i
    ensures
      var t := Apply(Apply(Apply(s, Recheck(i, false)), EndFetch(i, Fetched(r))), Store(i, Acked));
      && |t.calls| == |s.calls|
      && t.calls[i] == s.calls[i].(phase := Releasing(Success(r)), lookups := s.calls[i].lookups + 1,
                                   fetches := s.calls[i].fetches + 1)
      && t.cache.Some? && t.cache.value.value == r && t.lock == s.lock
      && t.ledger == s.ledger.(fetches := s.ledger.fetches + 1)
  {
  }

  /** With both cells empty, an undisturbed call fetches once, leaves the result in the cache and the lock free. */
  lemma ColdCallFetches(s: State, cfg: Settings, r: ModerationResult)
    requires s.cache.None? && s.lock.None? && 0 <= cfg.maxRetries
    ensures
      var i := |s.calls|;
      var locked := Apply(Apply(Apply(s, Invoke(cfg)), Read(i, false)), TryLock(i, Acked));
      var stored := Apply(Apply(Apply(locked, Recheck(i, false)), EndFetch(i, Fetched(r))), Store(i, Acked));
      var t := Apply(stored, Unlock(i, Acked));
      && |t.calls| == i + 1 && t.calls[i].phase == Returned(Success(r)) && t.calls[i].released
      && t.calls[i].lookups == 2 && t.calls[i].tries == 1 && t.calls[i].fetches == 1 && t.calls[i].slept == 0
      && t.cache.Some? && t.cache.value.value == r && t.lock.None?
      && t.ledger == s.ledger.(fetches := s.ledger.fetches + 1)
  {
    var i := |s.calls|;
    ColdCallAcquires(s, cfg);
    var locked := Apply(Apply(Apply(s, Invoke(cfg)), Read(i, false)), TryLock(i, Acked));
    HolderFetches(locked, i, r);
  }

  /** A caller that acquires the lock after somebody filled the cache does not fetch. */
  lemma RecheckSparesFetch(s: State, i: nat)
    requires i < |s.calls| && s.calls[i].phase.Rechecking? && s.cache.Some?
    ensures
      var t := Apply(s, Recheck(i, false));
      t.calls[i].phase == Releasing(Success(s.cache.value.value)) && t.ledger == s.ledger && t.cache == s.cache
  {
  }

  /**
    A busy attempt: the call sleeps for this attempt's wait and looks at the cache.
    If it was filled meanwhile the call returns that; else it goes to the next
    attempt, or gives up after the last.
   */
  lemma BusyAttempt(s: State, i: nat, d: nat)
    requires i < |s.calls| && s.calls[i].phase.Trying? && s.lock.Some?
    ensures
      var c := s.calls[i];
      var a := c.phase.attempt;
      var asleep := Apply(s, TryLock(i, Acked));
      var due := Apply(asleep, Tick(d));
      var woken := Apply(due, Wake(i));
      && asleep.lock == s.lock && asleep.cache == s.cache && asleep.calls[i].phase.Sleeping?
      && asleep.calls[i].slept == c.slept + Wait(c.cfg.retryDelay, a)
      && (if d < Wait(c.cfg.retryDelay, a) then woken.calls[i].phase == asleep.calls[i].phase
          else
            var t := Apply(woken, Poll(i, false));
            t.calls[i].phase ==
              if woken.cache.Some? then Returned(Success(woken.cache.value.value))
              else if a < c.cfg.maxRetries then Trying(a + 1)
              else Returned(Exhausted))
  {
    var asleep := Apply(s, TryLock(i, Acked));
    OthersSpareCall(asleep, Tick(d), i);
    TickExpires(asleep, d);
  }

  // ----- the ledger -----

  /** What the step `e` is charged with, seen from outside. */
  function Charge(s: State, e: Event): Ledger {
    var s' := Apply(s, e);
    var own := Enabled(s, e);
    Ledger(
      if own && e.Recheck? && e.i < |s'.calls| && s'.calls[e.i].phase.Fetching? then 1 else 0,
      if own && e.EndFetch? && !e.got.Fetched? then 1 else 0,
      if own && e.Store? && e.reply == Dropped then 1 else 0,
      if own && e.Recheck? && e.failed && s.cache.Some? then 1 else 0,
      if LosesHold(s, s', e) then 1 else 0,
      if s.cache.Some? && s'.cache.None? then 1 else 0)
  }

  /** The lease vanishes, other than by an unlock, under a holder whose outcome is not settled. */
  predicate LosesHold(s: State, s': State, e: Event) {
    && s.lock.Some? && s'.lock.None? && !e.Unlock?
    && s.lock.value.owner < |s.calls|
    && var p := s.calls[s.lock.value.owner].phase; p.Rechecking? || p.Fetching? || p.Storing?
  }

  function Plus(a: Ledger, b: Ledger): Ledger {
    Ledger(a.fetches + b.fetches, a.failedFetches + b.failedFetches, a.lostWrites + b.lostWrites,
           a.blindRechecks + b.blindRechecks, a.lostHolds + b.lostHolds, a.lostEntries + b.lostEntries)
  }

  function Charges(s0: State, es: seq<Event>): Ledger {
    if es == [] then Ledger(0, 0, 0, 0, 0, 0) else
    var n := |es| - 1;
    Plus(Charges(s0, es[..n]), Charge(Exec(s0, es[..n]), es[n]))
  }

  lemma ChargeHolder(s: State, e: Event)
    requires Enabled(s, e) && (e.Recheck? || e.EndFetch? || e.Store?)
    ensures Apply(s, e).ledger == Plus(s.ledger, Charge(s, e))
  {
    match e
    case Recheck(_, _) =>
    case EndFetch(_, _) =>
    case Store(_, _) =>
  }

  lemma ChargeCaller(s: State, e: Event)
    requires Enabled(s, e)
    requires e.Invoke? || e.Read? || e.TryLock? || e.Unlock? || e.Wake? || e.Cancel? || e.Poll?
    ensures Apply(s, e).ledger == Plus(s.ledger, Charge(s, e))
  {
    match e
    case Invoke(_) =>
    case Read(_, _) =>
    case TryLock(_, _) =>
    case Unlock(_, _) =>
    case Wake(_) =>
    case Cancel(_) =>
    case Poll(_, _) =>
  }

  lemma ChargeTick(s: State, d: nat)
    ensures Apply(s, Tick(d)).ledger == Plus(s.ledger, Charge(s, Tick(d)))
  {
    TickExpires(s, d);
  }

  lemma ChargeStep(s: State, e: Event)
    ensures Apply(s, e).ledger == Plus(s.ledger, Charge(s, e))
  {
    if Enabled(s, e) {
      if e.Recheck? || e.EndFetch? || e.Store? {
        ChargeHolder(s, e);
      } else if e.Tick? {
        ChargeTick(s, e.d);
      } else if !e.EvictLock? && !e.EvictCache? {
        ChargeCaller(s, e);
      }
    }
  }

  /** In every run the ledger counts exactly the fetches begun and the faults of each kind. */
  lemma {:induction false} LedgerExact(s0: State, es: seq<Event>)
    requires Init(s0)
    ensures Exec(s0, es).ledger == Charges(s0, es)
  {
    if es != [] {
      var n := |es| - 1;
      LedgerExact(s0, es[..n]);
      ChargeStep(Exec(s0, es[..n]), es[n]);
    }
  }
}
