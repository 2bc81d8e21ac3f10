/** The stampede theorems: statements about every run from every initial state. */
module StampedeRuns {
  import opened Entities
  import opened Backoff
  import opened Stampede
  import opened StampedeSafety

  lemma {:induction false} RunKeepsInvariant(s0: State, es: seq<Event>)
    requires Init(s0)
    ensures Ownership(Exec(s0, es))
    ensures Balanced(Exec(s0, es), Preloaded(s0))
  {
    if es != [] {
      var n := |es| - 1;
      RunKeepsInvariant(s0, es[..n]);
      OwnershipStep(Exec(s0, es[..n]), es[n]);
      BalancedStep(Exec(s0, es[..n]), es[n], Preloaded(s0));
    }
  }

  /**
    Stampede protection, amortised: beyond the first fetch (none, when the cache
    starts filled), each call of fetchFn is paid for by its own failure or loss.
   */
  lemma StampedeBound(s0: State, es: seq<Event>)
    requires Init(s0)
    ensures Exec(s0, es).ledger.fetches + Preloaded(s0) <= 1 + Faults(Exec(s0, es).ledger)
  {
    RunKeepsInvariant(s0, es);
  }

  // ----- lock ownership -----

  /** At most one caller holds an unexpired lease. */
  lemma AtMostOneHold(s0: State, es: seq<Event>, i: nat, j: nat)
    requires Init(s0)
    ensures
      var s := Exec(s0, es);
      i < |s.calls| && Holding(s.calls[i]) && !s.calls[i].lost &&
      j < |s.calls| && Holding(s.calls[j]) && !s.calls[j].lost
      ==> i == j
  {
    RunKeepsInvariant(s0, es);
  }

  /** The unlock of a caller whose lease vanished leaves the lock cell alone, whoever owns it now. */
  lemma LateUnlockHarmless(s0: State, es: seq<Event>, i: nat, reply: Reply)
    requires Init(s0)
    requires Enabled(Exec(s0, es), Unlock(i, reply)) && Exec(s0, es).calls[i].lost
    ensures Apply(Exec(s0, es), Unlock(i, reply)).lock == Exec(s0, es).lock
  {
    RunKeepsInvariant(s0, es);
  }

  /** The unlock of a caller still holding its lease frees the lock unless the command never ran. */
  lemma TimelyUnlockFrees(s0: State, es: seq<Event>, i: nat, reply: Reply)
    requires Init(s0)
    requires Enabled(Exec(s0, es), Unlock(i, reply)) && !Exec(s0, es).calls[i].lost
    ensures Exec(s0, es).lock.Some?
    ensures Apply(Exec(s0, es), Unlock(i, reply)).lock.None? <==> reply != Dropped
  {
    RunKeepsInvariant(s0, es);
  }

  /** Once its unlock is acknowledged, a caller's token is never again in the lock cell. */
  lemma ReleasedForGood(s0: State, es: seq<Event>, i: nat)
    requires Init(s0)
    requires i < |Exec(s0, es).calls| && Exec(s0, es).calls[i].released
    ensures Exec(s0, es).lock.Some? ==> Exec(s0, es).lock.value.owner != i
  {
    RunKeepsInvariant(s0, es);
  }

  /** Every way out of a call that acquired the lock goes through its unlock. */
  lemma HoldersReturnThroughUnlock(s: State, e: Event, i: nat)
    requires i < |s.calls| && Holding(s.calls[i])
    ensures i < |Apply(s, e).calls|
    ensures Holding(Apply(s, e).calls[i]) ||
            (e.Unlock? && e.i == i && Apply(s, e).calls[i].phase == Returned(s.calls[i].phase.outcome))
  {
  }

  // ----- a run without faults: one fetch, one answer -----

  predicate Carries(c: Call, v: ModerationResult) {
    c.phase == Storing(v) || c.phase == Releasing(Success(v)) || c.phase == Returned(Success(v))
  }

  /** The value `v` is stored, about to be stored, or being returned. */
  ghost predicate Carried(s: State, v: ModerationResult) {
    || (s.cache.Some? && s.cache.value.value == v)
    || exists i :: 0 <= i < |s.calls| && Carries(s.calls[i], v)
  }

  ghost predicate NobodyFetches(s: State) {
    forall i :: 0 <= i < |s.calls| ==> !s.calls[i].phase.Fetching?
  }

  ghost predicate OneAnswer(s: State, p: nat) {
    forall v :: Carried(s, v) ==>
      && 1 <= s.ledger.fetches + p
      && NobodyFetches(s)
      && forall w :: Carried(s, w) ==> v == w
  }

  lemma FaultsGrow(s: State, e: Event)
    ensures Faults(s.ledger) <= Faults(Apply(s, e).ledger)
  {
    match e
    case Invoke(_) =>
    case Read(_, _) =>
    case TryLock(_, _) =>
    case Recheck(_, _) =>
    case EndFetch(_, _) =>
    case Store(_, _) =>
    case Unlock(_, _) =>
    case Wake(_) =>
    case Cancel(_) =>
    case Poll(_, _) =>
    case Tick(_) =>
    case EvictLock =>
    case EvictCache =>
  }

  /** Where a value that a call carries after a step was before it. */
  predicate CarriedFrom(s: State, e: Event, i: nat, v: ModerationResult) {
    || (i < |s.calls| && Carries(s.calls[i], v))
    || (s.cache.Some? && s.cache.value.value == v)
    || (e.EndFetch? && Enabled(s, e) && e.got == Fetched(v))
  }

  lemma HolderCarriesBefore(s: State, e: Event, i: nat, v: ModerationResult)
    requires Enabled(s, e) && (e.Recheck? || e.EndFetch? || e.Store? || e.Unlock?)
    requires i < |Apply(s, e).calls| && Carries(Apply(s, e).calls[i], v)
    ensures CarriedFrom(s, e, i, v)
  {
    match e
    case Recheck(_, _) =>
    case EndFetch(_, _) =>
    case Store(_, _) =>
    case Unlock(_, _) =>
  }

  lemma WaiterCarriesBefore(s: State, e: Event, i: nat, v: ModerationResult)
    requires Enabled(s, e) && (e.Invoke? || e.Read? || e.TryLock? || e.Wake? || e.Cancel? || e.Poll?)
    requires i < |Apply(s, e).calls| && Carries(Apply(s, e).calls[i], v)
    ensures CarriedFrom(s, e, i, v)
  {
    match e
    case Invoke(_) =>
    case Read(_, _) =>
    case TryLock(_, _) =>
    case Wake(_) =>
    case Cancel(_) =>
    case Poll(_, _) =>
  }

  /** The store's own steps change no phase. */
  lemma StoreKeepsPhase(s: State, e: Event, i: nat)
    requires e.Tick? || e.EvictLock? || e.EvictCache?
    requires i < |Apply(s, e).calls|
    ensures i < |s.calls| && Apply(s, e).calls[i].phase == s.calls[i].phase
  {
  }

  /** A call comes to carry a value by reading it from the cache or by fetching it. */
  lemma CallCarriesBefore(s: State, e: Event, i: nat, v: ModerationResult)
    requires i < |Apply(s, e).calls| && Carries(Apply(s, e).calls[i], v)
    ensures CarriedFrom(s, e, i, v)
  {
    if Enabled(s, e) {
      if e.Recheck? || e.EndFetch? || e.Store? || e.Unlock? {
        HolderCarriesBefore(s, e, i, v);
      } else if e.Tick? || e.EvictLock? || e.EvictCache? {
        StoreKeepsPhase(s, e, i);
      } else {
        WaiterCarriesBefore(s, e, i, v);
      }
    }
  }

  lemma CacheFilledBefore(s: State, e: Event, v: ModerationResult)
    requires Apply(s, e).cache.Some? && Apply(s, e).cache.value.value == v
    ensures
      || (s.cache.Some? && s.cache.value.value == v)
      || (e.Store? && e.i < |s.calls| && Carries(s.calls[e.i], v))
  {
  }

  /** Only a fetch that succeeds introduces a value. */
  lemma CarriedBefore(s: State, e: Event, v: ModerationResult)
    requires Carried(Apply(s, e), v)
    ensures Carried(s, v) || (e.EndFetch? && Enabled(s, e) && e.got == Fetched(v))
  {
    var s' := Apply(s, e);
    if s'.cache.Some? && s'.cache.value.value == v {
      CacheFilledBefore(s, e, v);
    } else {
      var i: nat :| i < |s'.calls| && Carries(s'.calls[i], v);
      CallCarriesBefore(s, e, i, v);
    }
  }

  ghost predicate FetchesCounted(s: State) {
    NobodyFetches(s) || 1 <= s.ledger.fetches
  }

  lemma FetchesCountedStep(s: State, e: Event)
    requires FetchesCounted(s)
    ensures FetchesCounted(Apply(s, e))
  {
    if s.ledger.fetches == 0 && !e.Recheck? {
      assert NobodyFetches(Apply(s, e));
    }
  }

  /** Without lost leases only the owner of the lock can be inside fetchFn. */
  lemma LoneFetcher(s: State, i: nat, j: nat)
    requires Ownership(s) && Faults(s.ledger) == 0
    requires i < |s.calls| && s.calls[i].phase.Fetching?
    requires j < |s.calls| && s.calls[j].phase.Fetching?
    ensures i == j
  {
  }

  lemma OneAnswerFetched(s: State, i: nat, r: ModerationResult, p: nat)
    requires Ownership(s) && OneAnswer(s, p) && FetchesCounted(s) && Faults(s.ledger) == 0
    requires Enabled(s, EndFetch(i, Fetched(r)))
    ensures OneAnswer(AfterFetch(s, i, Fetched(r)), p)
  {
    var e, s' := EndFetch(i, Fetched(r)), AfterFetch(s, i, Fetched(r));
    forall v | Carried(s', v)
      ensures v == r
    {
      assert Apply(s, e) == s';
      CarriedBefore(s, e, v);
    }
    forall j | 0 <= j < |s'.calls|
      ensures !s'.calls[j].phase.Fetching?
    {
      if s'.calls[j].phase.Fetching? {
        LoneFetcher(s, i, j);
      }
    }
  }

  lemma OneAnswerStep(s: State, e: Event, p: nat)
    requires Ownership(s) && OneAnswer(s, p) && FetchesCounted(s)
    requires Balanced(Apply(s, e), p) && Faults(Apply(s, e).ledger) == 0
    ensures OneAnswer(Apply(s, e), p)
  {
    var s' := Apply(s, e);
    FaultsGrow(s, e);
    if Enabled(s, e) && e.EndFetch? && e.got.Fetched? {
      OneAnswerFetched(s, e.i, e.got.result, p);
    } else {
      forall v | Carried(s', v)
        ensures Carried(s, v)
      {
        CarriedBefore(s, e, v);
      }
      forall v | Carried(s', v)
        ensures 1 <= s'.ledger.fetches + p && NobodyFetches(s')
      {
        assert Carried(s, v);
      }
    }
  }

  lemma OneAnswerAtStart(s0: State)
    requires Init(s0)
    ensures OneAnswer(s0, Preloaded(s0))
  {
  }

  ghost predicate OneAnswerUnlessFaulty(s: State, p: nat) {
    FetchesCounted(s) && (Faults(s.ledger) == 0 ==> OneAnswer(s, p))
  }

  lemma OneAnswerUnlessFaultyStep(s: State, e: Event, p: nat)
    requires Ownership(s) && OneAnswerUnlessFaulty(s, p) && Balanced(Apply(s, e), p)
    ensures OneAnswerUnlessFaulty(Apply(s, e), p)
  {
    FetchesCountedStep(s, e);
    FaultsGrow(s, e);
    if Faults(Apply(s, e).ledger) == 0 {
      OneAnswerStep(s, e, p);
    }
  }

  lemma {:induction false} RunKeepsOneAnswer(s0: State, es: seq<Event>)
    requires Init(s0)
    ensures OneAnswerUnlessFaulty(Exec(s0, es), Preloaded(s0))
  {
    if es == [] {
      OneAnswerAtStart(s0);
    } else {
      var n := |es| - 1;
      RunKeepsOneAnswer(s0, es[..n]);
      RunKeepsInvariant(s0, es[..n]);
      RunKeepsInvariant(s0, es);
      OneAnswerUnlessFaultyStep(Exec(s0, es[..n]), es[n], Preloaded(s0));
    }
  }

  /**
    The stampede test's claim, for any number of callers and any schedule: when
    nothing fails or vanishes and some call has succeeded, fetchFn ran exactly
    once (never, if the cache started filled) and all successes agree.
   */
  lemma FaultFreeRunFetchesOnce(s0: State, es: seq<Event>, i: nat, j: nat, v: ModerationResult, w: ModerationResult)
    requires Init(s0) && Faults(Exec(s0, es).ledger) == 0
    requires i < |Exec(s0, es).calls| && Exec(s0, es).calls[i].phase == Returned(Success(v))
    requires j < |Exec(s0, es).calls| && Exec(s0, es).calls[j].phase == Returned(Success(w))
    ensures Exec(s0, es).ledger.fetches == 1 - Preloaded(s0)
    ensures v == w
    ensures s0.cache.Some? ==> v == s0.cache.value.value
  {
    var s := Exec(s0, es);
    RunKeepsOneAnswer(s0, es);
    StampedeBound(s0, es);
    assert Carries(s.calls[i], v) && Carries(s.calls[j], w);
    assert Carried(s, v) && Carried(s, w);
    if s0.cache.Some? {
      PreloadedStays(s0, es);
      assert Carried(s, s0.cache.value.value);
    }
  }

  /** The entry `c` is in the cache, nothing was fetched, and nobody is about to replace it. */
  ghost predicate Undisturbed(s: State, c: Option<Entry>) {
    && s.cache == c && c.Some? && s.ledger.fetches == 0
    && forall i :: 0 <= i < |s.calls| ==> !s.calls[i].phase.Fetching? && !s.calls[i].phase.Storing?
  }

  lemma UndisturbedStep(s: State, e: Event, c: Option<Entry>)
    requires Undisturbed(s, c)
    requires Balanced(Apply(s, e), 1) && Faults(Apply(s, e).ledger) == 0
    ensures Undisturbed(Apply(s, e), c)
  {
    var s' := Apply(s, e);
    assert s'.ledger.fetches == 0;
  }

  ghost predicate UndisturbedUnlessFaulty(s: State, c: Option<Entry>) {
    Faults(s.ledger) == 0 ==> Undisturbed(s, c)
  }

  lemma UndisturbedUnlessFaultyStep(s: State, e: Event, c: Option<Entry>)
    requires UndisturbedUnlessFaulty(s, c) && Balanced(Apply(s, e), 1)
    ensures UndisturbedUnlessFaulty(Apply(s, e), c)
  {
    FaultsGrow(s, e);
    if Faults(Apply(s, e).ledger) == 0 {
      UndisturbedStep(s, e, c);
    }
  }

  lemma UndisturbedAtStart(s0: State)
    requires Init(s0) && s0.cache.Some?
    ensures Undisturbed(s0, s0.cache)
  {
  }

  /** With nothing fetched, the entry the cache started with is still there. */
  lemma {:induction false} PreloadedStays(s0: State, es: seq<Event>)
    requires Init(s0) && s0.cache.Some?
    ensures UndisturbedUnlessFaulty(Exec(s0, es), s0.cache)
  {
    if es == [] {
      UndisturbedAtStart(s0);
    } else {
      var n := |es| - 1;
      PreloadedStays(s0, es[..n]);
      RunKeepsInvariant(s0, es);
      UndisturbedUnlessFaultyStep(Exec(s0, es[..n]), es[n], s0.cache);
    }
  }

  // ----- where a returned result came from -----

  /** The cache held `r` at some instant of the run at which call `i` was already active. */
  ghost predicate WasCached(s0: State, es: seq<Event>, i: nat, r: ModerationResult) {
    exists k :: 0 <= k <= |es| && CachedAt(Exec(s0, es[..k]), i, r)
  }

  predicate CachedAt(s: State, i: nat, r: ModerationResult) {
    i < |s.calls| && s.cache.Some? && s.cache.value.value == r
  }

  predicate Answers(c: Call, r: ModerationResult) {
    c.phase == Releasing(Success(r)) || c.phase == Returned(Success(r))
  }

  /** Where an answer that a call has after a step was: with the call, or in the cache before or after. */
  predicate AnsweredFrom(s: State, e: Event, i: nat, r: ModerationResult) {
    || (i < |s.calls| && Answers(s.calls[i], r))
    || CachedAt(s, i, r)
    || CachedAt(Apply(s, e), i, r)
  }

  lemma HolderAnswers(s: State, e: Event, i: nat, r: ModerationResult)
    requires Enabled(s, e) && (e.Recheck? || e.EndFetch? || e.Store? || e.Unlock?)
    requires i < |Apply(s, e).calls| && Answers(Apply(s, e).calls[i], r)
    ensures AnsweredFrom(s, e, i, r)
  {
    match e
    case Recheck(_, _) =>
    case EndFetch(_, _) =>
    case Store(_, _) =>
    case Unlock(_, _) =>
  }

  lemma WaiterAnswers(s: State, e: Event, i: nat, r: ModerationResult)
    requires Enabled(s, e) && (e.Invoke? || e.Read? || e.TryLock? || e.Wake? || e.Cancel? || e.Poll?)
    requires i < |Apply(s, e).calls| && Answers(Apply(s, e).calls[i], r)
    ensures AnsweredFrom(s, e, i, r)
  {
    match e
    case Invoke(_) =>
    case Read(_, _) =>
    case TryLock(_, _) =>
    case Wake(_) =>
    case Cancel(_) =>
    case Poll(_, _) =>
  }

  /** A call comes to hold its answer by reading it from the cache or by writing it there. */
  lemma AnswerStep(s: State, e: Event, i: nat, r: ModerationResult)
    requires i < |Apply(s, e).calls| && Answers(Apply(s, e).calls[i], r)
    ensures AnsweredFrom(s, e, i, r)
  {
    if Enabled(s, e) {
      if e.Recheck? || e.EndFetch? || e.Store? || e.Unlock? {
        HolderAnswers(s, e, i, r);
      } else if e.Tick? || e.EvictLock? || e.EvictCache? {
        StoreKeepsPhase(s, e, i);
      } else {
        WaiterAnswers(s, e, i, r);
      }
    }
  }

  /** Every successful result was in the cache at some instant between call and return. */
  lemma {:induction false} ResultWasCached(s0: State, es: seq<Event>, i: nat, r: ModerationResult)
    requires Init(s0)
    requires i < |Exec(s0, es).calls| && Answers(Exec(s0, es).calls[i], r)
    ensures WasCached(s0, es, i, r)
  {
    if es != [] {
      var n := |es| - 1;
      var s := Exec(s0, es[..n]);
      AnswerStep(s, es[n], i, r);
      assert es[..|es|] == es;
      if CachedAt(Apply(s, es[n]), i, r) {
        assert CachedAt(Exec(s0, es[..|es|]), i, r);
      } else if CachedAt(s, i, r) {
        assert CachedAt(Exec(s0, es[..n]), i, r);
      } else {
        ResultWasCached(s0, es[..n], i, r);
        var k :| 0 <= k <= n && CachedAt(Exec(s0, es[..n][..k]), i, r);
        assert es[..n][..k] == es[..k];
      }
    }
  }

  // ----- what one call may ask for -----

  function Attempts(cfg: Settings): nat {
    if cfg.maxRetries < 0 then 0 else cfg.maxRetries + 1
  }

  /** The exact cost of a call at each point of the retry loop. */
  predicate CostExact(c: Call) {
    var d := c.cfg.retryDelay;
    && c.fetches <= 1
    && match c.phase
       case Entering => c.lookups == 0 && c.tries == 0 && c.slept == 0 && c.fetches == 0
       case Trying(a) =>
         a < Attempts(c.cfg) && c.lookups == a + 1 && c.tries == a && c.slept == TotalWait(d, a) && c.fetches == 0
       case Sleeping(a, _) =>
         a < Attempts(c.cfg) && c.lookups == a + 1 && c.tries == a + 1 && c.slept == TotalWait(d, a + 1) && c.fetches == 0
       case Polling(a) =>
         a < Attempts(c.cfg) && c.lookups == a + 1 && c.tries == a + 1 && c.slept == TotalWait(d, a + 1) && c.fetches == 0
       case Rechecking =>
         1 <= c.tries <= Attempts(c.cfg) && c.lookups == c.tries && c.slept == TotalWait(d, c.tries - 1) && c.fetches == 0
       case Returned(Exhausted) =>
         c.tries == Attempts(c.cfg) && c.lookups == c.tries + 1 && c.slept == TotalWait(d, c.tries) && c.fetches == 0 && c.fetches == 0
       case Returned(_) =>
         c.tries <= Attempts(c.cfg) && c.lookups <= Attempts(c.cfg) + 1 && c.slept <= TotalWait(d, c.tries)
       case Releasing(Exhausted) => false
       case _ =>
         1 <= c.tries <= Attempts(c.cfg) && c.lookups == c.tries + 1 && c.slept == TotalWait(d, c.tries - 1)
  }

  ghost predicate CostsExact(s: State) {
    forall i :: 0 <= i < |s.calls| ==> CostExact(s.calls[i])
  }

  lemma CostTryLock(s: State, i: nat, reply: Reply)
    requires Enabled(s, TryLock(i, reply)) && CostExact(s.calls[i])
    ensures CostExact(AfterTryLock(s, i, reply).calls[i])
  {
    var c := s.calls[i];
    TotalWaitMonotone(c.cfg.retryDelay, c.phase.attempt, c.phase.attempt + 1);
  }

  lemma CostUnlock(s: State, i: nat, reply: Reply)
    requires Enabled(s, Unlock(i, reply)) && CostExact(s.calls[i])
    requires s.calls[i].phase.outcome != Exhausted
    ensures CostExact(AfterUnlock(s, i, reply).calls[i])
  {
    var c := s.calls[i];
    TotalWaitMonotone(c.cfg.retryDelay, c.tries - 1, c.tries);
  }

  lemma CostRead(s: State, i: nat, failed: bool)
    requires Enabled(s, Read(i, failed)) && CostExact(s.calls[i])
    ensures CostExact(AfterRead(s, i, failed).calls[i])
  {
  }

  lemma CostPoll(s: State, i: nat, failed: bool)
    requires Enabled(s, Poll(i, failed)) && CostExact(s.calls[i])
    ensures CostExact(AfterPoll(s, i, failed).calls[i])
  {
  }

  lemma CostRecheck(s: State, i: nat, failed: bool)
    requires Enabled(s, Recheck(i, failed)) && CostExact(s.calls[i])
    ensures CostExact(AfterRecheck(s, i, failed).calls[i])
  {
  }

  lemma CostFetch(s: State, i: nat, got: FetchReply)
    requires Enabled(s, EndFetch(i, got)) && CostExact(s.calls[i])
    ensures CostExact(AfterFetch(s, i, got).calls[i])
  {
  }

  lemma CostStore(s: State, i: nat, reply: Reply)
    requires Enabled(s, Store(i, reply)) && CostExact(s.calls[i])
    ensures CostExact(AfterStore(s, i, reply).calls[i])
  {
  }

  /** The store's own steps, and those of other callers, change at most the lost flag. */
  lemma CostElsewhere(s: State, e: Event, i: nat)
    requires i < |s.calls| && CostExact(s.calls[i]) && Actor(e) != Some(i)
    ensures i < |Apply(s, e).calls| && CostExact(Apply(s, e).calls[i])
  {
    OthersSpareCall(s, e, i);
  }

  lemma CostStep(s: State, e: Event, i: nat)
    requires i < |s.calls| && CostExact(s.calls[i])
    ensures CostExact(Apply(s, e).calls[i])
  {
    if Actor(e) != Some(i) {
      CostElsewhere(s, e, i);
    } else if Enabled(s, e) {
      match e
      case Read(_, failed) => CostRead(s, i, failed);
      case TryLock(_, reply) => CostTryLock(s, i, reply);
      case Recheck(_, failed) => CostRecheck(s, i, failed);
      case EndFetch(_, got) => CostFetch(s, i, got);
      case Store(_, reply) => CostStore(s, i, reply);
      case Unlock(_, reply) => CostUnlock(s, i, reply);
      case Poll(_, failed) => CostPoll(s, i, failed);
      case Wake(_) =>
      case Cancel(_) =>
    }
  }

  lemma CostsExactStep(s: State, e: Event)
    requires CostsExact(s)
    ensures CostsExact(Apply(s, e))
  {
    var s' := Apply(s, e);
    forall i | 0 <= i < |s'.calls|
      ensures CostExact(s'.calls[i])
    {
      if i < |s.calls| {
        CostStep(s, e, i);
      }
    }
  }

  lemma {:induction false} RunKeepsCosts(s0: State, es: seq<Event>)
    requires Init(s0)
    ensures CostsExact(Exec(s0, es))
  {
    if es != [] {
      var n := |es| - 1;
      RunKeepsCosts(s0, es[..n]);
      CostsExactStep(Exec(s0, es[..n]), es[n]);
    }
  }

  predicate Affordable(c: Call) {
    && c.tries <= Attempts(c.cfg)
    && c.lookups <= Attempts(c.cfg) + 1
    && c.fetches <= 1
    && (0 <= c.cfg.retryDelay ==> c.slept <= c.cfg.retryDelay * (Pow2(Attempts(c.cfg)) - 1))
  }

  lemma SleepBounded(c: Call)
    requires CostExact(c)
    ensures c.tries <= Attempts(c.cfg) && c.slept <= TotalWait(c.cfg.retryDelay, c.tries)
  {
    if 1 <= c.tries {
      TotalWaitMonotone(c.cfg.retryDelay, c.tries - 1, c.tries);
    }
  }

  lemma ExactIsAffordable(c: Call)
    requires CostExact(c)
    ensures Affordable(c)
  {
    SleepBounded(c);
    TotalWaitMonotone(c.cfg.retryDelay, c.tries, Attempts(c.cfg));
    if 0 <= c.cfg.retryDelay {
      TotalWaitBound(c.cfg.retryDelay, Attempts(c.cfg));
    }
  }

  /**
    In every run, a call makes at most maxRetries+1 lock attempts, maxRetries+2
    cache reads and one fetch, and asks for at most
    retryDelay * (2^(maxRetries+1) - 1) of sleep.
   */
  lemma CallCosts(s0: State, es: seq<Event>, i: nat)
    requires Init(s0) && i < |Exec(s0, es).calls|
    ensures Affordable(Exec(s0, es).calls[i])
  {
    RunKeepsCosts(s0, es);
    ExactIsAffordable(Exec(s0, es).calls[i]);
  }
}
