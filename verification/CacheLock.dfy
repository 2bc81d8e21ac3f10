/**
  WithCacheLock as the program it is: a retry loop over Redis commands. Between
  any two commands the other callers, the clock and the evictions may take any
  number of steps. Each execution is shown to be a run of the Stampede machine,
  so every theorem about runs holds of it.
 */
module CacheLock {
  import opened Entities
  import opened Backoff
  import opened Stampede
  import opened StampedeRuns
  import opened StampedeLaws

  class Redis {
    var now: nat
    var lock: Option<Lease>
    var cache: Option<Entry>
    var calls: seq<Call>
    var ledger: Ledger
    ghost const start: State
    ghost var log: seq<Event>

    function View(): State
      reads this
    {
      State(now, lock, cache, calls, ledger)
    }

    ghost predicate Valid()
      reads this
    {
      View() == Exec(start, log)
    }

    constructor (entry: Option<Entry>)
      ensures Valid() && Init(start) && log == [] && start.cache == entry
      ensures View() == start
    {
      now, lock, cache, calls := 0, None, entry, [];
      ledger := Ledger(0, 0, 0, 0, 0, 0);
      start := State(0, None, entry, [], Ledger(0, 0, 0, 0, 0, 0));
      log := [];
    }

    // ----- Redis commands -----

    /** GET: any failure counts as a miss. */
    method Get(me: nat, failed: bool) returns (data: Option<ModerationResult>)
      requires me < |calls|
      modifies this`calls
      ensures data == Visible(old(View()), failed)
      ensures calls == old(calls)[me := old(calls[me]).(lookups := old(calls[me]).lookups + 1)]
    {
      data := if !failed && cache.Some? then Some(cache.value.value) else None;
      calls := calls[me := calls[me].(lookups := calls[me].lookups + 1)];
    }

    /** SETNX with a time-to-live. */
    method TryLock(me: nat, ttl: nat, reply: Reply) returns (acquired: bool, failed: bool)
      requires me < |calls|
      modifies this`lock, this`calls
      ensures failed <==> reply != Acked
      ensures acquired <==> !failed && old(lock).None?
      ensures lock == if old(lock).None? && reply != Dropped
                      then Some(Lease(me, Expires(now, ttl))) else old(lock)
      ensures calls == old(calls)[me := old(calls[me]).(tries := old(calls[me]).tries + 1)]
    {
      failed := reply != Acked;
      acquired := false;
      if reply != Dropped && lock.None? {
        lock := Some(Lease(me, Expires(now, ttl)));
        acquired := !failed;
      }
      calls := calls[me := calls[me].(tries := calls[me].tries + 1)];
    }

    /** The compare-and-delete script; whether it failed is not reported to the caller. */
    method Unlock(me: nat, reply: Reply)
      requires me < |calls|
      modifies this`lock
      ensures lock == if reply != Dropped && old(lock).Some? && old(lock).value.owner == me
                      then None else old(lock)
    {
      if reply != Dropped && lock.Some? && lock.value.owner == me {
        lock := None;
      }
    }

    /** SET with a time-to-live. */
    method Set(r: ModerationResult, ttl: nat, reply: Reply) returns (failed: bool)
      modifies this`cache, this`ledger
      ensures failed <==> reply != Acked
      ensures cache == if reply != Dropped then Some(Entry(r, Expires(now, ttl))) else old(cache)
      ensures ledger == if reply != Dropped then old(ledger)
                        else old(ledger).(lostWrites := old(ledger).lostWrites + 1)
    {
      failed := reply != Acked;
      if reply != Dropped {
        cache := Some(Entry(r, Expires(now, ttl)));
      } else {
        ledger := ledger.(lostWrites := ledger.lostWrites + 1);
      }
    }

    // ----- the caller's own progress -----

    method Become(me: nat, phase: Phase)
      requires me < |calls|
      modifies this`calls
      ensures calls == old(calls)[me := old(calls[me]).(phase := phase)]
    {
      calls := calls[me := calls[me].(phase := phase)];
    }

    method StartSleep(me: nat, attempt: nat, sleep: nat)
      requires me < |calls|
      modifies this`calls
      ensures calls == old(calls)[me := old(calls[me]).(phase := Sleeping(attempt, now + sleep),
                                                        slept := old(calls[me]).slept + sleep)]
    {
      calls := calls[me := calls[me].(phase := Sleeping(attempt, now + sleep), slept := calls[me].slept + sleep)];
    }

    method Leave(me: nat, outcome: Outcome, released: bool)
      requires me < |calls|
      modifies this`calls
      ensures calls == old(calls)[me := old(calls[me]).(phase := Returned(outcome), released := released)]
    {
      calls := calls[me := calls[me].(phase := Returned(outcome), released := released)];
    }

    method CountFetch(me: nat)
      requires me < |calls|
      modifies this`calls, this`ledger
      ensures calls == old(calls)[me := old(calls[me]).(phase := Fetching, fetches := old(calls[me]).fetches + 1)]
      ensures ledger == old(ledger).(fetches := old(ledger).fetches + 1,
                                     blindRechecks := old(ledger).blindRechecks + if cache.Some? then 1 else 0)
    {
      calls := calls[me := calls[me].(phase := Fetching, fetches := calls[me].fetches + 1)];
      ledger := ledger.(fetches := ledger.fetches + 1,
                        blindRechecks := ledger.blindRechecks + if cache.Some? then 1 else 0);
    }

    method CountFailedFetch(me: nat, outcome: Outcome)
      requires me < |calls|
      modifies this`calls, this`ledger
      ensures calls == old(calls)[me := old(calls[me]).(phase := Releasing(outcome))]
      ensures ledger == old(ledger).(failedFetches := old(ledger).failedFetches + 1)
    {
      calls := calls[me := calls[me].(phase := Releasing(outcome))];
      ledger := ledger.(failedFetches := ledger.failedFetches + 1);
    }

    // ----- runs -----

    /** One step of the machine has been taken and recorded. */
    twostate predicate Stepped(v: State, events: seq<Event>)
      reads this
    {
      && Valid()
      && |log| == |events| + 1 && log[..|events|] == events
      && View() == Apply(v, log[|events|])
    }

    ghost method Record(e: Event, v: State)
      requires v == Exec(start, log) && View() == Apply(v, e)
      modifies this`log
      ensures Stepped(v, old(log)) && log == old(log) + [e]
    {
      log := log + [e];
      assert log[..|log| - 1] == old(log);
    }

    /** Anything the other callers, the clock and the evictions can do. */
    method Interfere(me: nat)
      requires Valid() && me < |calls|
      modifies this
      ensures Valid() && Extends(old(log), log)
      ensures forall k :: |old(log)| <= k < |log| ==> Actor(log[k]) != Some(me)
      ensures me < |calls| && calls[me] == old(calls[me]).(lost := calls[me].lost)
      ensures old(now) <= now
    {
      var n: nat := *;
      while n > 0
        invariant Valid() && Extends(old(log), log)
        invariant forall k :: |old(log)| <= k < |log| ==> Actor(log[k]) != Some(me)
        invariant me < |calls| && calls[me] == old(calls[me]).(lost := calls[me].lost)
        invariant old(now) <= now
      {
        var e: Event := *;
        if Actor(e) != Some(me) {
          OthersSpareCall(View(), e, me);
          Take(e);
        }
        n := n - 1;
      }
    }

    method Take(e: Event)
      requires Valid()
      modifies this
      ensures Stepped(old(View()), old(log)) && log == old(log) + [e]
    {
      var s := Apply(View(), e);
      now, lock, cache, calls, ledger := s.now, s.lock, s.cache, s.calls, s.ledger;
      Record(e, old(View()));
    }
  }

  ghost predicate At(w: Redis, me: nat, cfg: Settings, phase: Phase)
    reads w
  {
    w.Valid() && me < |w.calls| && w.calls[me].cfg == cfg && w.calls[me].phase == phase
  }

  // ----- one command each, preceded by whatever others do first -----

  method FirstRead(w: Redis, me: nat, cfg: Settings) returns (data: Option<ModerationResult>)
    requires At(w, me, cfg, Entering)
    modifies w
    ensures At(w, me, cfg, if data.Some? then Returned(Success(data.value)) else LoopHead(cfg, 0))
    ensures Extends(old(w.log), w.log)
  {
    w.Interfere(me);
    ghost var v := w.View();
    var failed: bool := *;
    data := w.Get(me, failed);
    w.Become(me, if data.Some? then Returned(Success(data.value)) else LoopHead(cfg, 0));
    ReadIsStep(v, w.View(), me, failed);
    w.Record(Read(me, failed), v);
  }

  lemma ReadIsStep(v: State, v': State, me: nat, failed: bool)
    requires Enabled(v, Read(me, failed)) && |v'.calls| == |v.calls|
    requires
      var c, hit := v.calls[me], Visible(v, failed);
      v' == v.(calls := v.calls[me := c.(lookups := c.lookups + 1,
        phase := if hit.Some? then Returned(Success(hit.value)) else LoopHead(c.cfg, 0))])
    ensures v' == Apply(v, Read(me, failed))
  {
  }

  lemma PollIsStep(v: State, v': State, me: nat, failed: bool)
    requires Enabled(v, Poll(me, failed)) && |v'.calls| == |v.calls|
    requires
      var c, hit := v.calls[me], Visible(v, failed);
      v' == v.(calls := v.calls[me := c.(lookups := c.lookups + 1,
        phase := if hit.Some? then Returned(Success(hit.value)) else LoopHead(c.cfg, c.phase.attempt + 1))])
    ensures v' == Apply(v, Poll(me, failed))
  {
  }

  datatype Attempt = Acquired | Busy | Broken

  /** One lock attempt; when the lock is busy the caller goes to sleep. */
  method TryOnce(w: Redis, me: nat, cfg: Settings, attempt: nat) returns (got: Attempt, ghost wake: nat)
    requires At(w, me, cfg, Trying(attempt))
    modifies w
    ensures got.Acquired? ==> At(w, me, cfg, Rechecking)
    ensures got.Broken? ==> At(w, me, cfg, Returned(LockFailed))
    ensures got.Busy? ==> At(w, me, cfg, Sleeping(attempt, wake)) && wake == w.now + Wait(cfg.retryDelay, attempt)
    ensures Extends(old(w.log), w.log)
  {
    w.Interfere(me);
    ghost var v := w.View();
    var reply: Reply := *;
    var acquired, failed := w.TryLock(me, cfg.lockTTL, reply);
    wake := w.now;
    if failed {
      got := Broken;
      w.Become(me, Returned(LockFailed));
    } else if acquired {
      got := Acquired;
      w.Become(me, Rechecking);
    } else {
      got := Busy;
      var sleep := Wait(cfg.retryDelay, attempt);
      wake := w.now + sleep;
      w.StartSleep(me, attempt, sleep);
    }
    TryIsStep(v, w.View(), me, reply);
    w.Record(TryLock(me, reply), v);
  }

  /** What one attempt does to the cells and to the caller is the machine's step. */
  lemma TryIsStep(v: State, v': State, me: nat, reply: Reply)
    requires Enabled(v, TryLock(me, reply))
    requires |v'.calls| == |v.calls| && v' == v.(lock := v'.lock, calls := v.calls[me := v'.calls[me]])
    requires v'.lock == (if v.lock.None? && reply != Dropped
                         then Some(Lease(me, Expires(v.now, v.calls[me].cfg.lockTTL))) else v.lock)
    requires
      var c, c' := v.calls[me], v'.calls[me];
      var delay := Wait(c.cfg.retryDelay, c.phase.attempt);
      c' == if reply != Acked then c.(tries := c.tries + 1, phase := Returned(LockFailed))
            else if v.lock.None? then c.(tries := c.tries + 1, phase := Rechecking)
            else c.(tries := c.tries + 1, slept := c.slept + delay, phase := Sleeping(c.phase.attempt, v.now + delay))
    ensures v' == Apply(v, TryLock(me, reply))
  {
  }

  /** The select between the context and the timer; the timer fires at its wake time or later. */
  method SleepOnce(w: Redis, me: nat, cfg: Settings, attempt: nat, ghost wake: nat) returns (cancelled: bool)
    requires At(w, me, cfg, Sleeping(attempt, wake))
    modifies w
    ensures At(w, me, cfg, if cancelled then Returned(Cancelled) else Polling(attempt))
    ensures !cancelled ==> wake <= w.now
    ensures Extends(old(w.log), w.log)
  {
    w.Interfere(me);
    cancelled := *;
    if cancelled {
      w.Take(Cancel(me));
      return;
    }
    AwaitTimer(w, me, cfg, attempt, wake);
    w.Take(Wake(me));
  }

  method AwaitTimer(w: Redis, me: nat, cfg: Settings, attempt: nat, ghost wake: nat)
    requires At(w, me, cfg, Sleeping(attempt, wake))
    modifies w
    ensures At(w, me, cfg, Sleeping(attempt, wake)) && wake <= w.now
    ensures Extends(old(w.log), w.log)
  {
    var until := w.calls[me].phase.wake;
    if w.now < until {
      TickPasses(w.View(), until - w.now, me);
      w.Take(Tick(until - w.now));
    }
  }

  lemma TickPasses(s: State, d: nat, me: nat)
    requires me < |s.calls|
    ensures Apply(s, Tick(d)).now == s.now + d
    ensures me < |Apply(s, Tick(d)).calls|
    ensures Apply(s, Tick(d)).calls[me] == s.calls[me].(lost := Apply(s, Tick(d)).calls[me].lost)
  {
  }

  method PollOnce(w: Redis, me: nat, cfg: Settings, attempt: nat) returns (data: Option<ModerationResult>)
    requires At(w, me, cfg, Polling(attempt))
    modifies w
    ensures At(w, me, cfg, if data.Some? then Returned(Success(data.value)) else LoopHead(cfg, attempt + 1))
    ensures Extends(old(w.log), w.log)
  {
    w.Interfere(me);
    ghost var v := w.View();
    var failed: bool := *;
    data := w.Get(me, failed);
    w.Become(me, if data.Some? then Returned(Success(data.value)) else LoopHead(cfg, attempt + 1));
    PollIsStep(v, w.View(), me, failed);
    w.Record(Poll(me, failed), v);
  }

  lemma RecheckIsStep(v: State, v': State, me: nat, failed: bool)
    requires Enabled(v, Recheck(me, failed)) && |v'.calls| == |v.calls|
    requires
      var c, hit := v.calls[me].(lookups := v.calls[me].lookups + 1), Visible(v, failed);
      var blind := if v.cache.Some? then 1 else 0;
      v' == if hit.Some? then v.(calls := v.calls[me := c.(phase := Releasing(Success(hit.value)))])
            else v.(calls := v.calls[me := c.(phase := Fetching, fetches := c.fetches + 1)],
                    ledger := v.ledger.(fetches := v.ledger.fetches + 1,
                                        blindRechecks := v.ledger.blindRechecks + blind))
    ensures v' == Apply(v, Recheck(me, failed))
  {
  }

  method RecheckOnce(w: Redis, me: nat, cfg: Settings) returns (data: Option<ModerationResult>)
    requires At(w, me, cfg, Rechecking)
    modifies w
    ensures At(w, me, cfg, if data.Some? then Releasing(Success(data.value)) else Fetching)
    ensures Extends(old(w.log), w.log)
  {
    w.Interfere(me);
    ghost var v := w.View();
    var failed: bool := *;
    data := w.Get(me, failed);
    if data.Some? {
      w.Become(me, Releasing(Success(data.value)));
    } else {
      w.CountFetch(me);
    }
    RecheckIsStep(v, w.View(), me, failed);
    w.Record(Recheck(me, failed), v);
  }

  method RunFetch(w: Redis, me: nat, cfg: Settings) returns (got: FetchReply)
    requires At(w, me, cfg, Fetching)
    modifies w
    ensures At(w, me, cfg, match got
                           case Fetched(r) => Storing(r)
                           case FetchError => Releasing(FetchFailed)
                           case WrongType => Releasing(BadType))
    ensures Extends(old(w.log), w.log)
  {
    w.Interfere(me);
    ghost var v := w.View();
    got := *;
    match got {
      case Fetched(r) => w.Become(me, Storing(r));
      case FetchError => w.CountFailedFetch(me, FetchFailed);
      case WrongType => w.CountFailedFetch(me, BadType);
    }
    w.Record(EndFetch(me, got), v);
  }

  method StoreOnce(w: Redis, me: nat, cfg: Settings, r: ModerationResult) returns (failed: bool)
    requires At(w, me, cfg, Storing(r))
    modifies w
    ensures At(w, me, cfg, Releasing(if failed then SetFailed else Success(r)))
    ensures Extends(old(w.log), w.log)
  {
    w.Interfere(me);
    ghost var v := w.View();
    var reply: Reply := *;
    failed := w.Set(r, cfg.ttl, reply);
    w.Become(me, Releasing(if failed then SetFailed else Success(r)));
    w.Record(Store(me, reply), v);
  }

  method UnlockOnce(w: Redis, me: nat, cfg: Settings, outcome: Outcome)
    requires At(w, me, cfg, Releasing(outcome))
    modifies w
    ensures At(w, me, cfg, Returned(outcome))
    ensures Extends(old(w.log), w.log)
  {
    w.Interfere(me);
    ghost var v := w.View();
    var reply: Reply := *;
    w.Unlock(me, reply);
    w.Leave(me, outcome, reply == Acked);
    w.Record(Event.Unlock(me, reply), v);
  }

  /** The section between acquiring and releasing the lock. */
  method FetchUnderLock(w: Redis, me: nat, cfg: Settings) returns (outcome: Outcome)
    requires At(w, me, cfg, Rechecking)
    modifies w
    ensures At(w, me, cfg, Returned(outcome))
    ensures Extends(old(w.log), w.log)
  {
    var data := RecheckOnce(w, me, cfg);
    if data.Some? {
      UnlockOnce(w, me, cfg, Success(data.value));
      return Success(data.value);
    }
    var got := RunFetch(w, me, cfg);
    if got.FetchError? {
      UnlockOnce(w, me, cfg, FetchFailed);
      return FetchFailed;
    }
    if got.WrongType? {
      UnlockOnce(w, me, cfg, BadType);
      return BadType;
    }
    var failed := StoreOnce(w, me, cfg, got.result);
    if failed {
      UnlockOnce(w, me, cfg, SetFailed);
      return SetFailed;
    }
    UnlockOnce(w, me, cfg, Success(got.result));
    return Success(got.result);
  }

  /**
    The whole call. Its execution, under any interference, is a run of the
    machine that ends with this caller returned; hence its answer was in the
    cache during the call, its cost is bounded, and exact when it gives up, and
    its outcome was decided by a reply of that kind.
   */
  method WithCacheLock(w: Redis, cfg: Settings) returns (me: nat, outcome: Outcome)
    requires w.Valid()
    modifies w
    ensures w.Valid() && Extends(old(w.log), w.log)
    ensures me == |old(w.calls)| < |w.calls|
    ensures w.calls[me].cfg == cfg && w.calls[me].phase == Returned(outcome)
    ensures Init(w.start) && outcome.Success? ==> WasCached(w.start, w.log, me, outcome.result)
    ensures Init(w.start) ==> Affordable(w.calls[me]) && Caused(w.start, w.log, me, outcome)
    ensures Init(w.start) && outcome.Exhausted? ==> GaveUp(w.calls[me], w.now)
  {
    me, outcome := CallBody(w, cfg);
    if Init(w.start) {
      CallCosts(w.start, w.log, me);
      OutcomeCaused(w.start, w.log, me, outcome);
      if outcome.Exhausted? {
        ExhaustedExactly(w.start, w.log, me);
      }
      if outcome.Success? {
        ResultWasCached(w.start, w.log, me, outcome.result);
      }
    }
  }

  method CallBody(w: Redis, cfg: Settings) returns (me: nat, outcome: Outcome)
    requires w.Valid()
    modifies w
    ensures me == |old(w.calls)| && At(w, me, cfg, Returned(outcome))
    ensures Extends(old(w.log), w.log)
  {
    me := |w.calls|;
    w.Take(Invoke(cfg));
    var data := FirstRead(w, me, cfg);
    if data.Some? {
      return me, Success(data.value);
    }
    var attempt := 0;
    while attempt <= cfg.maxRetries
      invariant 0 <= attempt && At(w, me, cfg, LoopHead(cfg, attempt))
      invariant Extends(old(w.log), w.log)
      decreases cfg.maxRetries - attempt
    {
      var got, wake := TryOnce(w, me, cfg, attempt);
      if got.Broken? {
        return me, LockFailed;
      }
      if got.Acquired? {
        outcome := FetchUnderLock(w, me, cfg);
        return;
      }
      var cancelled := SleepOnce(w, me, cfg, attempt, wake);
      if cancelled {
        return me, Cancelled;
      }
      data := PollOnce(w, me, cfg, attempt);
      if data.Some? {
        return me, Success(data.value);
      }
      attempt := attempt + 1;
    }
    outcome := Exhausted;
  }

  ghost predicate Extends(a: seq<Event>, b: seq<Event>) {
    a <= b
  }
}
