/**
  The cache-stampede protocol of WithCacheLock for one cache key, as a state
  machine over the commands of any number of concurrent callers. A caller's
  index is its lock token, so tokens are distinct. Every sequence of events is a
  run: an event that is not enabled changes nothing.
 */
module Stampede {
  import opened Entities
  import opened Backoff

  datatype Settings = Settings(ttl: nat, lockTTL: nat, maxRetries: int, retryDelay: int)

  datatype Outcome =
    | Success(result: ModerationResult)
    | LockFailed
    | FetchFailed
    | BadType
    | SetFailed
    | Cancelled
    | Exhausted

  /** Where a call stands: which command it issues next. */
  datatype Phase =
    | Entering
    | Trying(attempt: nat)
    | Rechecking
    | Fetching
    | Storing(result: ModerationResult)
    | Releasing(outcome: Outcome)
    | Sleeping(attempt: nat, wake: nat)
    | Polling(attempt: nat)
    | Returned(outcome: Outcome)

  /**
    One call. `lost` says the lease it held vanished under it; `released` that
    its unlock was acknowledged. The counters record what it asked for; it was
    made at time `began`.
   */
  datatype Call = Call(cfg: Settings, phase: Phase, lost: bool, released: bool,
                       lookups: nat, tries: nat, fetches: nat, slept: nat, began: nat)

  datatype Lease = Lease(owner: nat, expiry: Expiry)
  datatype Entry = Entry(value: ModerationResult, expiry: Expiry)

  /** How often fetchFn was called, and everything that can force another call. */
  datatype Ledger = Ledger(fetches: nat, failedFetches: nat, lostWrites: nat,
                           blindRechecks: nat, lostHolds: nat, lostEntries: nat)

  datatype State = State(now: nat, lock: Option<Lease>, cache: Option<Entry>,
                         calls: seq<Call>, ledger: Ledger)

  datatype FetchReply = Fetched(result: ModerationResult) | FetchError | WrongType

  datatype Event =
    | Invoke(cfg: Settings)
    | Read(i: nat, failed: bool)
    | TryLock(i: nat, reply: Reply)
    | Recheck(i: nat, failed: bool)
    | EndFetch(i: nat, got: FetchReply)
    | Store(i: nat, reply: Reply)
    | Unlock(i: nat, reply: Reply)
    | Wake(i: nat)
    | Cancel(i: nat)
    | Poll(i: nat, failed: bool)
    | Tick(d: nat)
    | EvictLock
    | EvictCache

  /** The caller whose program takes the step, if any does. */
  function Actor(e: Event): Option<nat> {
    match e
    case Invoke(_) => None
    case Tick(_) => None
    case EvictLock => None
    case EvictCache => None
    case _ => Some(e.i)
  }

  // ----- the callers' steps -----

  predicate Enabled(s: State, e: Event) {
    match e
    case Invoke(_) => true
    case Read(i, _) => i < |s.calls| && s.calls[i].phase.Entering?
    case TryLock(i, _) => i < |s.calls| && s.calls[i].phase.Trying?
    case Recheck(i, _) => i < |s.calls| && s.calls[i].phase.Rechecking?
    case EndFetch(i, _) => i < |s.calls| && s.calls[i].phase.Fetching?
    case Store(i, _) => i < |s.calls| && s.calls[i].phase.Storing?
    case Unlock(i, _) => i < |s.calls| && s.calls[i].phase.Releasing?
    case Wake(i) => i < |s.calls| && s.calls[i].phase.Sleeping? && s.calls[i].phase.wake <= s.now
    case Cancel(i) => i < |s.calls| && s.calls[i].phase.Sleeping?
    case Poll(i, _) => i < |s.calls| && s.calls[i].phase.Polling?
    case Tick(_) => true
    case EvictLock => s.lock.Some?
    case EvictCache => s.cache.Some?
  }

  function FreshCall(cfg: Settings, now: nat): Call {
    Call(cfg, Entering, false, false, 0, 0, 0, 0, now)
  }

  function Put(s: State, i: nat, c: Call): State
    requires i < |s.calls|
  {
    s.(calls := s.calls[i := c])
  }

  /** Loop head: the next attempt, or giving up. */
  function LoopHead(cfg: Settings, attempt: nat): Phase {
    if attempt <= cfg.maxRetries then Trying(attempt) else Returned(Exhausted)
  }

  /** A read that fails for any reason counts as a miss. */
  function Visible(s: State, failed: bool): Option<ModerationResult> {
    if !failed && s.cache.Some? then Some(s.cache.value.value) else None
  }

  function AfterRead(s: State, i: nat, failed: bool): State
    requires i < |s.calls|
  {
    var c := s.calls[i];
    var hit := Visible(s, failed);
    Put(s, i, c.(lookups := c.lookups + 1,
                 phase := if hit.Some? then Returned(Success(hit.value)) else LoopHead(c.cfg, 0)))
  }

  function AfterTryLock(s: State, i: nat, reply: Reply): State
    requires i < |s.calls| && s.calls[i].phase.Trying?
  {
    var c := s.calls[i].(tries := s.calls[i].tries + 1);
    var a := c.phase.attempt;
    var free := s.lock.None?;
    var lock' := if free && reply != Dropped then Some(Lease(i, Expires(s.now, c.cfg.lockTTL))) else s.lock;
    var delay := Wait(c.cfg.retryDelay, a);
    var c' := if reply != Acked then c.(phase := Returned(LockFailed))
              else if free then c.(phase := Rechecking)
              else c.(phase := Sleeping(a, s.now + delay), slept := c.slept + delay);
    Put(s.(lock := lock'), i, c')
  }

  /** The second look at the cache, under the lock; a miss goes straight into fetchFn. */
  function AfterRecheck(s: State, i: nat, failed: bool): State
    requires i < |s.calls|
  {
    var c := s.calls[i].(lookups := s.calls[i].lookups + 1);
    var hit := Visible(s, failed);
    if hit.Some? then
      Put(s, i, c.(phase := Releasing(Success(hit.value))))
    else
      var blind := if s.cache.Some? then 1 else 0;
      var ledger' := s.ledger.(fetches := s.ledger.fetches + 1,
                               blindRechecks := s.ledger.blindRechecks + blind);
      Put(s.(ledger := ledger'), i, c.(phase := Fetching, fetches := c.fetches + 1))
  }

  function AfterFetch(s: State, i: nat, got: FetchReply): State
    requires i < |s.calls|
  {
    var c := s.calls[i];
    var failed := s.ledger.(failedFetches := s.ledger.failedFetches + 1);
    match got
    case Fetched(r) => Put(s, i, c.(phase := Storing(r)))
    case FetchError => Put(s.(ledger := failed), i, c.(phase := Releasing(FetchFailed)))
    case WrongType => Put(s.(ledger := failed), i, c.(phase := Releasing(BadType)))
  }

  function AfterStore(s: State, i: nat, reply: Reply): State
    requires i < |s.calls| && s.calls[i].phase.Storing?
  {
    var c := s.calls[i];
    var r := c.phase.result;
    var outcome := if reply == Acked then Success(r) else SetFailed;
    var s' := if reply == Dropped
              then s.(ledger := s.ledger.(lostWrites := s.ledger.lostWrites + 1))
              else s.(cache := Some(Entry(r, Expires(s.now, c.cfg.ttl))));
    Put(s', i, c.(phase := Releasing(outcome)))
  }

  /** Compare-and-delete; its error, if any, is ignored by the caller. */
  function AfterUnlock(s: State, i: nat, reply: Reply): State
    requires i < |s.calls| && s.calls[i].phase.Releasing?
  {
    var c := s.calls[i];
    var mine := s.lock.Some? && s.lock.value.owner == i;
    var lock' := if mine && reply != Dropped then None else s.lock;
    Put(s.(lock := lock'), i, c.(phase := Returned(c.phase.outcome), released := reply == Acked))
  }

  function AfterPoll(s: State, i: nat, failed: bool): State
    requires i < |s.calls| && s.calls[i].phase.Polling?
  {
    var c := s.calls[i];
    var hit := Visible(s, failed);
    Put(s, i, c.(lookups := c.lookups + 1,
                 phase := if hit.Some? then Returned(Success(hit.value))
                          else LoopHead(c.cfg, c.phase.attempt + 1)))
  }

  // ----- the store's own steps -----

  predicate Holding(c: Call) {
    c.phase.Rechecking? || c.phase.Fetching? || c.phase.Storing? || c.phase.Releasing?
  }

  /** Holding the lock before the outcome of the call is settled. */
  predicate Guarding(c: Call) {
    c.phase.Rechecking? || c.phase.Fetching? || c.phase.Storing?
  }

  /** The lease disappears, by expiry or eviction, and its holder does not notice. */
  function LoseLock(s: State): State {
    if s.lock.None? then s else
    var i := s.lock.value.owner;
    var s' := s.(lock := None);
    if i < |s.calls| && Holding(s.calls[i]) then
      var hit := if Guarding(s.calls[i]) then 1 else 0;
      Put(s'.(ledger := s.ledger.(lostHolds := s.ledger.lostHolds + hit)), i, s.calls[i].(lost := true))
    else s'
  }

  function LoseCache(s: State): State {
    if s.cache.None? then s else
    s.(cache := None, ledger := s.ledger.(lostEntries := s.ledger.lostEntries + 1))
  }

  function ExpireLock(s: State): State {
    if s.lock.Some? && Expired(s.lock.value.expiry, s.now) then LoseLock(s) else s
  }

  function ExpireCache(s: State): State {
    if s.cache.Some? && Expired(s.cache.value.expiry, s.now) then LoseCache(s) else s
  }

  function Apply(s: State, e: Event): State {
    if !Enabled(s, e) then s else
    match e
    case Invoke(cfg) => s.(calls := s.calls + [FreshCall(cfg, s.now)])
    case Read(i, failed) => AfterRead(s, i, failed)
    case TryLock(i, reply) => AfterTryLock(s, i, reply)
    case Recheck(i, failed) => AfterRecheck(s, i, failed)
    case EndFetch(i, got) => AfterFetch(s, i, got)
    case Store(i, reply) => AfterStore(s, i, reply)
    case Unlock(i, reply) => AfterUnlock(s, i, reply)
    case Wake(i) => Put(s, i, s.calls[i].(phase := Polling(s.calls[i].phase.attempt)))
    case Cancel(i) => Put(s, i, s.calls[i].(phase := Returned(Cancelled)))
    case Poll(i, failed) => AfterPoll(s, i, failed)
    case Tick(d) => ExpireCache(ExpireLock(s.(now := s.now + d)))
    case EvictLock => LoseLock(s)
    case EvictCache => LoseCache(s)
  }

  function Exec(s: State, es: seq<Event>): State {
    if es == [] then s else Apply(Exec(s, es[..|es| - 1]), es[|es| - 1])
  }

  /** No call has been made yet; the cache may already hold an entry. */
  predicate Init(s: State) {
    s.lock.None? && s.calls == [] && s.ledger == Ledger(0, 0, 0, 0, 0, 0)
  }

  function Preloaded(s: State): nat {
    if s.cache.Some? then 1 else 0
  }

  function Faults(l: Ledger): nat {
    l.failedFetches + l.lostWrites + l.blindRechecks + l.lostHolds + l.lostEntries
  }

  /** Nobody else moves a call along; at most its lease is lost. */
  lemma OthersSpareCall(s: State, e: Event, me: nat)
    requires me < |s.calls| && Actor(e) != Some(me)
    ensures
      var s' := Apply(s, e);
      s.now <= s'.now && me < |s'.calls| && s'.calls[me] == s.calls[me].(lost := s'.calls[me].lost)
  {
    if Enabled(s, e) {
      match e
      case Invoke(_) =>
      case Read(_, _) =>
      case TryLock(_, _) =>
      case Recheck(_, _) =>
      case EndFetch(_, _) =>
      case Store(_, _) =>
      case Unlock(_, _) =>
      case Wake(_) =>
      case Cancel(_) =>
      case Poll(_, _) =>
      case Tick(_) =>
      case EvictLock =>
      case EvictCache =>
    }
  }
}
