/**
  The in-memory cache store. It deletes an expired item only when a read comes
  across it; the simple store below keeps the latest item of every key for ever
  and only looks at the clock. No sequence of operations tells them apart.
 */
module MockStore {
  import opened Entities

  /** A lock item has no result. */
  datatype Item = Item(result: Option<ModerationResult>, expiresAt: int)

  type Items = map<string, Item>

  datatype Op =
    | Get(key: string)
    | Set(key: string, result: ModerationResult, ttl: int)
    | Invalidate(key: string)
    | SetIfNotExists(key: string, ttl: int)

  /** Missing covers both error texts, "cache miss" and "cache expired". */
  datatype Answer =
    | Found(result: ModerationResult)
    | Missing
    | Crash            // a read of a live lock item dereferences its nil result
    | Done
    | Acquired(ok: bool)

  predicate After(now: int, x: Item) {
    now > x.expiresAt
  }

  predicate Before(now: int, x: Item) {
    now < x.expiresAt
  }

  /** Reading a live item. */
  function Read(x: Item): Answer {
    if x.result.Some? then Found(x.result.value) else Crash
  }

  function NewItem(op: Op, now: int): Item
    requires op.Set? || op.SetIfNotExists?
  {
    Item(if op.Set? then Some(op.result) else None, now + op.ttl)
  }

  /** One operation of the store as written, with its lazy deletion. */
  function LazyStep(items: Items, op: Op, now: int): (Items, Answer) {
    match op
    case Get(k) =>
      if k !in items then (items, Missing)
      else if After(now, items[k]) then (items - {k}, Missing)
      else (items, Read(items[k]))
    case Set(k, _, _) => (items[k := NewItem(op, now)], Done)
    case Invalidate(k) => (items - {k}, Done)
    case SetIfNotExists(k, _) =>
      if k in items && Before(now, items[k]) then (items, Acquired(false))
      else (items[k := NewItem(op, now)], Acquired(true))
  }

  /** The same operation of the store that never deletes on expiry. */
  function SimpleStep(latest: Items, op: Op, now: int): (Items, Answer) {
    match op
    case Get(k) => (latest, if k in latest && !After(now, latest[k]) then Read(latest[k]) else Missing)
    case Set(k, _, _) => (latest[k := NewItem(op, now)], Done)
    case Invalidate(k) => (latest - {k}, Done)
    case SetIfNotExists(k, _) =>
      if k in latest && Before(now, latest[k]) then (latest, Acquired(false))
      else (latest[k := NewItem(op, now)], Acquired(true))
  }

  /** The lazy store has lost only items that were expired by time `t`. */
  ghost predicate Mirrors(items: Items, latest: Items, t: int) {
    && (forall k :: k in items ==> k in latest && latest[k] == items[k])
    && (forall k :: k in latest && k !in items ==> After(t, latest[k]))
  }

  lemma StepInvisible(items: Items, latest: Items, t: int, op: Op, now: int)
    requires Mirrors(items, latest, t) && t <= now
    ensures LazyStep(items, op, now).1 == SimpleStep(latest, op, now).1
    ensures Mirrors(LazyStep(items, op, now).0, SimpleStep(latest, op, now).0, now)
  {
  }

  datatype Timed = Timed(op: Op, now: int)

  predicate ClockRuns(ops: seq<Timed>, from: int) {
    (forall i :: 0 <= i < |ops| ==> from <= ops[i].now) &&
    (forall i, j :: 0 <= i < j < |ops| ==> ops[i].now <= ops[j].now)
  }

  function LazyAnswers(items: Items, ops: seq<Timed>): seq<Answer>
    decreases |ops|
  {
    if ops == [] then [] else
    var (items', a) := LazyStep(items, ops[0].op, ops[0].now);
    [a] + LazyAnswers(items', ops[1..])
  }

  function SimpleAnswers(latest: Items, ops: seq<Timed>): seq<Answer>
    decreases |ops|
  {
    if ops == [] then [] else
    var (latest', a) := SimpleStep(latest, ops[0].op, ops[0].now);
    [a] + SimpleAnswers(latest', ops[1..])
  }

  lemma {:induction false} AnswersAgree(items: Items, latest: Items, t: int, ops: seq<Timed>)
    requires Mirrors(items, latest, t) && ClockRuns(ops, t)
    ensures LazyAnswers(items, ops) == SimpleAnswers(latest, ops)
    decreases |ops|
  {
    if ops != [] {
      var op, now := ops[0].op, ops[0].now;
      StepInvisible(items, latest, t, op, now);
      AnswersAgree(LazyStep(items, op, now).0, SimpleStep(latest, op, now).0, now, ops[1..]);
    }
  }

  /** Under a clock that never goes back, lazy deletion cannot be observed. */
  lemma LazyExpiryInvisible(ops: seq<Timed>, from: int)
    requires ClockRuns(ops, from)
    ensures LazyAnswers(map[], ops) == SimpleAnswers(map[], ops)
  {
    AnswersAgree(map[], map[], from, ops);
  }

  /** The two boundary tests overlap in one instant: a stored value is still readable and its key already free. */
  lemma BoundaryOverlap(items: Items, k: string, ttl: int, now: int)
    requires k in items && items[k].result.Some?
    ensures LazyStep(items, Get(k), now).1 == Found(items[k].result.value) &&
            LazyStep(items, SetIfNotExists(k, ttl), now).1 == Acquired(true)
       <==> now == items[k].expiresAt
  {
  }

  // ----- what an answer depends on -----

  predicate Touches(op: Op, k: string) {
    (op.Set? || op.Invalidate? || op.SetIfNotExists?) && op.key == k
  }

  function Final(latest: Items, ops: seq<Timed>): Items {
    if ops == [] then latest else SimpleStep(Final(latest, ops[..|ops| - 1]), ops[|ops| - 1].op, ops[|ops| - 1].now).0
  }

  lemma {:induction false} Untouched(latest: Items, ops: seq<Timed>, k: string)
    requires forall i :: 0 <= i < |ops| ==> !Touches(ops[i].op, k)
    ensures k in Final(latest, ops) <==> k in latest
    ensures k in latest ==> Final(latest, ops)[k] == latest[k]
  {
    if ops != [] {
      Untouched(latest, ops[..|ops| - 1], k);
    }
  }

  /**
    A stored result is read back, whatever happens to other keys, up to and
    including its deadline, and its key is taken strictly before that.
   */
  lemma SetThen(latest: Items, k: string, r: ModerationResult, ttl: int, t: int, ops: seq<Timed>, now: int, ttl': int)
    requires forall i :: 0 <= i < |ops| ==> !Touches(ops[i].op, k)
    ensures
      var s := Final(SimpleStep(latest, Set(k, r, ttl), t).0, ops);
      && SimpleStep(s, Get(k), now).1 == (if now <= t + ttl then Found(r) else Missing)
      && SimpleStep(s, SetIfNotExists(k, ttl'), now).1 == Acquired(now >= t + ttl)
  {
    Untouched(SimpleStep(latest, Set(k, r, ttl), t).0, ops, k);
  }

  /** A key that was acquired is taken strictly before its deadline, and cannot be read as a result up to it. */
  lemma AcquiredThen(latest: Items, k: string, ttl: int, t: int, ops: seq<Timed>, now: int, ttl': int)
    requires SimpleStep(latest, SetIfNotExists(k, ttl), t).1 == Acquired(true)
    requires forall i :: 0 <= i < |ops| ==> !Touches(ops[i].op, k)
    ensures
      var s := Final(SimpleStep(latest, SetIfNotExists(k, ttl), t).0, ops);
      && SimpleStep(s, Get(k), now).1 == (if now <= t + ttl then Crash else Missing)
      && SimpleStep(s, SetIfNotExists(k, ttl'), now).1 == Acquired(now >= t + ttl)
  {
    Untouched(SimpleStep(latest, SetIfNotExists(k, ttl), t).0, ops, k);
  }

  /** An attempt on a taken key leaves it as it was. */
  lemma RefusedThen(latest: Items, k: string, ttl: int, t: int)
    requires SimpleStep(latest, SetIfNotExists(k, ttl), t).1 == Acquired(false)
    ensures SimpleStep(latest, SetIfNotExists(k, ttl), t).0 == latest
  {
  }

  /** After an invalidation, whatever happens to other keys, the key is missing and free. */
  lemma InvalidateThen(latest: Items, k: string, t: int, ops: seq<Timed>, now: int, ttl': int)
    requires forall i :: 0 <= i < |ops| ==> !Touches(ops[i].op, k)
    ensures
      var s := Final(SimpleStep(latest, Invalidate(k), t).0, ops);
      SimpleStep(s, Get(k), now).1 == Missing && SimpleStep(s, SetIfNotExists(k, ttl'), now).1 == Acquired(true)
  {
    Untouched(SimpleStep(latest, Invalidate(k), t).0, ops, k);
  }

  /** The store, mutated in place. */
  class MockCacheStore {
    var items: Items
    var shouldError: bool
    ghost var latest: Items
    ghost var clock: int

    ghost predicate Valid()
      reads this
    {
      Mirrors(items, latest, clock)
    }

    constructor (from: int)
      ensures Valid() && items == latest == map[] && clock == from && !shouldError
    {
      items, latest, shouldError, clock := map[], map[], false, from;
    }

    /** None is the injected error. */
    method GetModerationResult(key: string, now: int) returns (a: Option<Answer>)
      requires Valid() && clock <= now
      modifies this`items, this`clock
      ensures Valid() && clock == now
      ensures a.None? <==> shouldError
      ensures a.Some? ==> a.value == SimpleStep(latest, Get(key), now).1
      ensures items == if shouldError then old(items) else LazyStep(old(items), Get(key), now).0
    {
      clock := now;
      if shouldError {
        return None;
      }
      if key !in items {
        return Some(Missing);
      }
      var item := items[key];
      if now > item.expiresAt {
        items := items - {key};
        return Some(Missing);
      }
      a := Some(if item.result.Some? then Found(item.result.value) else Crash);
    }

    method SetModerationResult(key: string, result: ModerationResult, ttl: int, now: int) returns (failed: bool)
      requires Valid() && clock <= now
      modifies this`items, this`latest, this`clock
      ensures Valid() && clock == now && failed == shouldError
      ensures latest == if failed then old(latest) else SimpleStep(old(latest), Set(key, result, ttl), now).0
      ensures items == if failed then old(items) else LazyStep(old(items), Set(key, result, ttl), now).0
    {
      clock := now;
      if shouldError {
        return true;
      }
      items := items[key := Item(Some(result), now + ttl)];
      latest := latest[key := Item(Some(result), now + ttl)];
      failed := false;
    }

    method Invalidate(key: string, now: int) returns (failed: bool)
      requires Valid() && clock <= now
      modifies this`items, this`latest, this`clock
      ensures Valid() && clock == now && failed == shouldError
      ensures latest == if failed then old(latest) else old(latest) - {key}
      ensures items == if failed then old(items) else old(items) - {key}
    {
      clock := now;
      if shouldError {
        return true;
      }
      items := items - {key};
      latest := latest - {key};
      failed := false;
    }

    method SetIfNotExists(key: string, ttl: int, now: int) returns (acquired: Option<bool>)
      requires Valid() && clock <= now
      modifies this`items, this`latest, this`clock
      ensures Valid() && clock == now
      ensures acquired.None? <==> shouldError
      ensures acquired.Some? ==>
        && Acquired(acquired.value) == SimpleStep(old(latest), Op.SetIfNotExists(key, ttl), now).1
        && latest == SimpleStep(old(latest), Op.SetIfNotExists(key, ttl), now).0
      ensures acquired.None? ==> latest == old(latest) && items == old(items)
    {
      clock := now;
      if shouldError {
        return None;
      }
      if key in items {
        if now < items[key].expiresAt {
          return Some(false);
        }
      }
      items := items[key := Item(None, now + ttl)];
      latest := latest[key := Item(None, now + ttl)];
      acquired := Some(true);
    }
  }
}
