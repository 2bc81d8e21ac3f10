/** Mutual exclusion of the AI call, and exactly when the timed, unconditional release keeps it. */
module Exclusion {
  import opened Entities
  import opened Moderation

  /** Between acquiring the idempotency key and its deferred release. */
  predicate Marked(j: Job) {
    j.phase.Asking? || j.phase.Caching? || j.phase.Unmarking?
  }

  predicate InAI(s: State, i: nat) {
    i < |s.jobs| && s.jobs[i].phase.Asking? && Live(s, s.jobs[i])
  }

  /** At most one job is inside the AI call for a content. */
  ghost predicate Exclusive(s: State) {
    forall i: nat, j: nat :: InAI(s, i) && InAI(s, j) && s.jobs[i].contentId == s.jobs[j].contentId ==> i == j
  }

  predicate AllPool(es: seq<Event>) {
    forall k :: 0 <= k < |es| && es[k].Begin? ==> es[k].caller.Pool?
  }

  /** The call of event `e`, if it is one, has a context that lasts at most `bound`. */
  predicate Within(jobTimeout: nat, e: Event, bound: nat) {
    e.Begin? ==> var b := Budget(jobTimeout, e.caller); b.Some? && b.value <= bound
  }

  predicate AllWithin(jobTimeout: nat, es: seq<Event>, bound: nat) {
    forall k :: 0 <= k < |es| ==> Within(jobTimeout, es[k], bound)
  }

  ghost predicate DeadlinesNear(s: State) {
    forall i :: 0 <= i < |s.jobs| ==> s.jobs[i].deadline.At? && s.jobs[i].deadline.time <= s.now + IDEMPOTENCY_TTL
  }

  /** A live job that took the key still has it, and will until its deadline. */
  ghost predicate KeyHeld(s: State, i: nat)
    requires i < |s.jobs|
  {
    Marked(s.jobs[i]) && Live(s, s.jobs[i]) ==>
      var c := s.jobs[i].contentId;
      c in s.keys && s.keys[c].holder == i && s.jobs[i].deadline.At? && s.jobs[i].deadline.time <= s.keys[c].expiry
  }

  ghost predicate KeysHeld(s: State) {
    forall i: nat :: i < |s.jobs| ==> KeyHeld(s, i)
  }

  ghost predicate Timed(s: State) {
    DeadlinesNear(s) && KeysHeld(s)
  }

  lemma TimedUnmark(s: State, i: nat, reply: Reply)
    requires Timed(s) && Enabled(s, Unmark(i, reply))
    ensures Timed(AfterUnmark(s, i, reply))
  {
    var s' := AfterUnmark(s, i, reply);
    forall k: nat | k < |s'.jobs|
      ensures KeyHeld(s', k)
    {
      assert KeyHeld(s, k) && KeyHeld(s, i);
    }
  }

  lemma OtherKeyHeld(s: State, i: nat, reply: Reply, k: nat)
    requires Timed(s) && Enabled(s, Mark(i, reply)) && k < |s.jobs| && k != i
    ensures KeyHeld(AfterMark(s, i, reply), k)
  {
    assert KeyHeld(s, k);
    assert AfterMark(s, i, reply).jobs[k] == s.jobs[k];
  }

  lemma OwnKeyHeld(s: State, i: nat, reply: Reply)
    requires Timed(s) && Enabled(s, Mark(i, reply))
    ensures KeyHeld(AfterMark(s, i, reply), i)
  {
  }

  lemma TimedMark(s: State, i: nat, reply: Reply)
    requires Timed(s) && Enabled(s, Mark(i, reply))
    ensures Timed(AfterMark(s, i, reply))
  {
    var s' := AfterMark(s, i, reply);
    MarkKeepsDeadlines(s, i, reply);
    forall k: nat | k < |s'.jobs|
      ensures KeyHeld(s', k)
    {
      if k == i {
        OwnKeyHeld(s, i, reply);
      } else {
        OtherKeyHeld(s, i, reply, k);
      }
    }
  }

  lemma MarkKeepsDeadlines(s: State, i: nat, reply: Reply)
    requires DeadlinesNear(s) && Enabled(s, Mark(i, reply))
    ensures DeadlinesNear(AfterMark(s, i, reply)) && |AfterMark(s, i, reply).jobs| == |s.jobs|
  {
  }

  lemma TimedTick(s: State, d: nat)
    requires Timed(s)
    ensures Timed(Apply(s, Tick(d)))
  {
    var s' := Apply(s, Tick(d));
    forall k: nat | k < |s'.jobs|
      ensures KeyHeld(s', k)
    {
      assert KeyHeld(s, k);
    }
  }

  /** A job moves on without taking the key, or is cancelled. */
  lemma TimedMove(s: State, s': State, i: nat)
    requires Timed(s) && i < |s.jobs| == |s'.jobs| && s'.jobs == s.jobs[i := s'.jobs[i]]
    requires s'.keys == s.keys && s'.now == s.now
    requires s'.jobs[i].contentId == s.jobs[i].contentId
    requires s'.jobs[i].deadline.At? && s'.jobs[i].deadline.time <= s.jobs[i].deadline.time
    requires Marked(s'.jobs[i]) ==> Marked(s.jobs[i])
    ensures Timed(s')
  {
    forall k: nat | k < |s'.jobs|
      ensures KeyHeld(s', k)
    {
      assert KeyHeld(s, k);
    }
  }

  lemma TimedFind(s: State, i: nat, failed: bool)
    requires Timed(s) && Enabled(s, Find(i, failed))
    ensures Timed(AfterFind(s, i, failed))
  {
    TimedMove(s, AfterFind(s, i, failed), i);
  }

  lemma TimedAsk(s: State, i: nat, got: AIReply)
    requires Timed(s) && Enabled(s, Ask(i, got))
    ensures Timed(AfterAsk(s, i, got))
  {
    TimedMove(s, AfterAsk(s, i, got), i);
  }

  lemma TimedCacheResult(s: State, i: nat, reply: Reply)
    requires Timed(s) && Enabled(s, CacheResult(i, reply))
    ensures Timed(AfterCache(s, i, reply))
  {
    TimedMove(s, AfterCache(s, i, reply), i);
  }

  lemma TimedUpdate(s: State, i: nat, reply: Reply)
    requires Timed(s) && Enabled(s, Update(i, reply))
    ensures Timed(AfterUpdate(s, i, reply))
  {
    TimedMove(s, AfterUpdate(s, i, reply), i);
  }

  lemma TimedReread(s: State, i: nat, failed: bool)
    requires Timed(s) && Enabled(s, Reread(i, failed))
    ensures Timed(AfterReread(s, i, failed))
  {
    TimedMove(s, AfterReread(s, i, failed), i);
  }

  lemma TimedNotify(s: State, i: nat, reply: Reply)
    requires Timed(s) && Enabled(s, Notify(i, reply))
    ensures Timed(AfterNotify(s, i, reply))
  {
    TimedMove(s, AfterNotify(s, i, reply), i);
  }

  lemma TimedBegin(s: State, id: string, caller: Caller)
    requires Timed(s) && Within(s.jobTimeout, Begin(id, caller), IDEMPOTENCY_TTL)
    ensures Timed(Apply(s, Begin(id, caller)))
  {
    var s' := Apply(s, Begin(id, caller));
    forall k: nat | k < |s'.jobs|
      ensures KeyHeld(s', k)
    {
      assert k < |s.jobs| ==> KeyHeld(s, k);
    }
  }

  /** A step that touches neither jobs nor keys. */
  lemma TimedAside(s: State, s': State)
    requires Timed(s) && s'.jobs == s.jobs && s'.keys == s.keys && s'.now == s.now
    ensures Timed(s')
  {
    forall k: nat | k < |s'.jobs|
      ensures KeyHeld(s', k)
    {
      assert KeyHeld(s, k);
    }
  }

  lemma TimedStep(s: State, e: Event)
    requires Timed(s) && Within(s.jobTimeout, e, IDEMPOTENCY_TTL)
    ensures Timed(Apply(s, e))
  {
    if Enabled(s, e) {
      match e
      case Mark(i, reply) => TimedMark(s, i, reply);
      case Unmark(i, reply) => TimedUnmark(s, i, reply);
      case Tick(d) => TimedTick(s, d);
      case Begin(id, caller) => TimedBegin(s, id, caller);
      case Create(_) => TimedAside(s, Apply(s, e));
      case Delete(_) => TimedAside(s, Apply(s, e));
      case DropCached(_) => TimedAside(s, Apply(s, e));
      case Find(i, failed) => TimedFind(s, i, failed);
      case Ask(i, got) => TimedAsk(s, i, got);
      case CacheResult(i, reply) => TimedCacheResult(s, i, reply);
      case Update(i, reply) => TimedUpdate(s, i, reply);
      case Reread(i, failed) => TimedReread(s, i, failed);
      case Notify(i, reply) => TimedNotify(s, i, reply);
      case CancelJob(i) => TimedMove(s, Apply(s, e), i);
    }
  }

  lemma {:induction false} RunKeepsTimed(jobTimeout: nat, es: seq<Event>)
    requires AllWithin(jobTimeout, es, IDEMPOTENCY_TTL)
    ensures Timed(Exec(Empty(jobTimeout), es)) && Exec(Empty(jobTimeout), es).jobTimeout == jobTimeout
  {
    if es != [] {
      var n := |es| - 1;
      RunKeepsTimed(jobTimeout, es[..n]);
      ApplyKeepsTimeout(Exec(Empty(jobTimeout), es[..n]), es[n]);
      TimedStep(Exec(Empty(jobTimeout), es[..n]), es[n]);
    }
  }

  /** When every call's context ends within the key's lifetime, one call at a time asks about a content. */
  lemma OneAICallPerContent(jobTimeout: nat, es: seq<Event>)
    requires AllWithin(jobTimeout, es, IDEMPOTENCY_TTL)
    ensures Exclusive(Exec(Empty(jobTimeout), es))
  {
    var s := Exec(Empty(jobTimeout), es);
    RunKeepsTimed(jobTimeout, es);
    forall i: nat, j: nat | InAI(s, i) && InAI(s, j) && s.jobs[i].contentId == s.jobs[j].contentId
      ensures i == j
    {
      assert KeyHeld(s, i) && KeyHeld(s, j);
    }
  }

  /** ... and the unconditional delete removes no key but the deleter's own. */
  lemma DeleteOnlyOwnKey(jobTimeout: nat, es: seq<Event>, i: nat, reply: Reply, c: string)
    requires AllWithin(jobTimeout, es, IDEMPOTENCY_TTL)
    requires Enabled(Exec(Empty(jobTimeout), es), Unmark(i, reply))
    requires c in Exec(Empty(jobTimeout), es).keys
    requires c !in Apply(Exec(Empty(jobTimeout), es), Unmark(i, reply)).keys
    ensures Exec(Empty(jobTimeout), es).keys[c].holder == i
  {
    RunKeepsTimed(jobTimeout, es);
    assert KeyHeld(Exec(Empty(jobTimeout), es), i);
  }

  // ----- the release of the key is attempted -----

  /** The only step that takes a call out of the section between key and release is its release. */
  lemma MarkedUntilUnmark(s: State, e: Event, i: nat)
    requires i < |s.jobs| && Marked(s.jobs[i])
    ensures i < |Apply(s, e).jobs|
    ensures Marked(Apply(s, e).jobs[i]) || (e.Unmark? && e.i == i)
  {
    if Actor(e) != Some(i) {
      OthersSpareJob(s, e, i);
    } else if Enabled(s, e) {
      match e
      case Ask(_, _) =>
      case CacheResult(_, _) =>
      case Unmark(_, _) =>
    }
  }

  /** Call `i` held the key after the first `k` steps. */
  predicate MarkedAt(jobTimeout: nat, es: seq<Event>, k: nat, i: nat)
    requires k <= |es|
  {
    var s := Exec(Empty(jobTimeout), es[..k]);
    i < |s.jobs| && Marked(s.jobs[i])
  }

  predicate UnmarkedSince(es: seq<Event>, k: nat, i: nat) {
    exists j :: k <= j < |es| && es[j].Unmark? && es[j].i == i
  }

  /** In every run, a call that took the key has attempted its release, or is still in that section. */
  lemma {:induction false} ReleaseAttempted(jobTimeout: nat, es: seq<Event>, k: nat, i: nat)
    requires k <= |es| && MarkedAt(jobTimeout, es, k, i)
    ensures MarkedAt(jobTimeout, es, |es|, i) || UnmarkedSince(es, k, i)
    decreases |es| - k
  {
    if k < |es| {
      var s := Exec(Empty(jobTimeout), es[..k]);
      assert es[..k + 1][..k] == es[..k];
      MarkedUntilUnmark(s, es[k], i);
      if MarkedAt(jobTimeout, es, k + 1, i) {
        ReleaseAttempted(jobTimeout, es, k + 1, i);
      }
    }
  }

  // ----- the timeout condition is exact -----

  const OVERLAP_CONTENT: Content := Content("c", "u", Text, Pending, None)

  /** A first call outlives its key; a second one takes the key and asks as well. */
  function Overlap(first: Caller, second: Caller): seq<Event> {
    [Create(OVERLAP_CONTENT), Begin("c", first), Find(0, false), Mark(0, Acked), Tick(IDEMPOTENCY_TTL),
     Begin("c", second), Find(1, false), Mark(1, Acked)]
  }

  /** The scene of the overlap: one pending content, the given keys and jobs. */
  function Scene(jobTimeout: nat, now: nat, keys: map<string, Key>, jobs: seq<Job>): State {
    State(jobTimeout, now, map["c" := OVERLAP_CONTENT], map["c" := "u"], keys, map[], jobs, [])
  }

  function CallOf(jobTimeout: nat, now: nat, caller: Caller, p: Phase): Job {
    NewJob(Empty(jobTimeout).(now := now), "c", caller).(phase := p)
  }

  /** The caller's context lasts beyond `t` from its call on. */
  predicate Outlasts(jobTimeout: nat, caller: Caller, t: nat) {
    var b := Budget(jobTimeout, caller);
    b.Some? ==> t < b.value
  }

  lemma MarkInScene(jobTimeout: nat, now: nat, jobs: seq<Job>, i: nat)
    requires i < |jobs| && jobs[i].contentId == "c" && jobs[i].phase == Finding && !Expired(jobs[i].deadline, now)
    ensures
      var s := Scene(jobTimeout, now, map[], jobs);
      var asking := jobs[i := jobs[i].(phase := Asking)];
      Apply(Apply(s, Find(i, false)), Mark(i, Acked))
        == Scene(jobTimeout, now, map["c" := Key(i, now + IDEMPOTENCY_TTL)], asking)
  {
    var s := Scene(jobTimeout, now, map[], jobs);
    var marking := jobs[i := jobs[i].(phase := Marking(Text))];
    assert Apply(s, Find(i, false)) == Scene(jobTimeout, now, map[], marking);
    assert marking[i := marking[i].(phase := Asking)] == jobs[i := jobs[i].(phase := Asking)];
  }

  lemma BeginInScene(jobTimeout: nat, now: nat, jobs: seq<Job>, caller: Caller)
    ensures Apply(Scene(jobTimeout, now, map[], jobs), Begin("c", caller))
         == Scene(jobTimeout, now, map[], jobs + [CallOf(jobTimeout, now, caller, Finding)])
  {
  }

  lemma CreateScene(jobTimeout: nat)
    ensures Apply(Empty(jobTimeout), Create(OVERLAP_CONTENT)) == Scene(jobTimeout, 0, map[], [])
  {
  }

  lemma ExpireInScene(jobTimeout: nat, jobs: seq<Job>, i: nat)
    ensures Apply(Scene(jobTimeout, 0, map["c" := Key(i, IDEMPOTENCY_TTL)], jobs), Tick(IDEMPOTENCY_TTL))
         == Scene(jobTimeout, IDEMPOTENCY_TTL, map[], jobs)
  {
    assert Surviving(map["c" := Key(i, IDEMPOTENCY_TTL)], IDEMPOTENCY_TTL) == map[];
  }

  /** A call that finds the key free takes it and asks. */
  lemma CallAsks(jobTimeout: nat, now: nat, jobs: seq<Job>, caller: Caller)
    requires Outlasts(jobTimeout, caller, 0)
    ensures
      var s := Scene(jobTimeout, now, map[], jobs);
      Apply(Apply(Apply(s, Begin("c", caller)), Find(|jobs|, false)), Mark(|jobs|, Acked))
        == Scene(jobTimeout, now, map["c" := Key(|jobs|, now + IDEMPOTENCY_TTL)],
                 jobs + [CallOf(jobTimeout, now, caller, Asking)])
  {
    var found := jobs + [CallOf(jobTimeout, now, caller, Finding)];
    BeginInScene(jobTimeout, now, jobs, caller);
    MarkInScene(jobTimeout, now, found, |jobs|);
    assert found[|jobs| := found[|jobs|].(phase := Asking)] == jobs + [CallOf(jobTimeout, now, caller, Asking)];
  }

  /** The first call takes the key, asks, and outlives it. */
  lemma FirstAsks(jobTimeout: nat, first: Caller)
    requires Outlasts(jobTimeout, first, 0)
    ensures
      var s := Apply(Apply(Empty(jobTimeout), Create(OVERLAP_CONTENT)), Begin("c", first));
      Apply(Apply(Apply(s, Find(0, false)), Mark(0, Acked)), Tick(IDEMPOTENCY_TTL))
        == Scene(jobTimeout, IDEMPOTENCY_TTL, map[], [CallOf(jobTimeout, 0, first, Asking)])
  {
    var asking := [CallOf(jobTimeout, 0, first, Asking)];
    CreateScene(jobTimeout);
    CallAsks(jobTimeout, 0, [], first);
    assert [] + asking == asking;
    ExpireInScene(jobTimeout, asking, 0);
  }

  lemma OverlapEnd(jobTimeout: nat, first: Caller, second: Caller)
    requires Outlasts(jobTimeout, first, 0) && Outlasts(jobTimeout, second, 0)
    ensures
      var T := IDEMPOTENCY_TTL;
      Exec(Empty(jobTimeout), Overlap(first, second)) ==
        Scene(jobTimeout, T, map["c" := Key(1, T + T)],
              [CallOf(jobTimeout, 0, first, Asking)] + [CallOf(jobTimeout, T, second, Asking)])
  {
    FirstAsks(jobTimeout, first);
    CallAsks(jobTimeout, IDEMPOTENCY_TTL, [CallOf(jobTimeout, 0, first, Asking)], second);
    OverlapUnfolds(Empty(jobTimeout), Overlap(first, second));
  }

  lemma OverlapUnfolds(s: State, es: seq<Event>)
    requires |es| == 8
    ensures Exec(s, es) ==
      Apply(Apply(Apply(Apply(Apply(Apply(Apply(Apply(s, es[0]), es[1]), es[2]), es[3]), es[4]), es[5]), es[6]), es[7])
  {
    var e := es;
    assert e == [] + [e[0]] + [e[1]] + [e[2]] + [e[3]] + [e[4]] + [e[5]] + [e[6]] + [e[7]];
    ExecAppend(s, [] + [e[0]] + [e[1]] + [e[2]] + [e[3]] + [e[4]] + [e[5]] + [e[6]], e[7]);
    ExecAppend(s, [] + [e[0]] + [e[1]] + [e[2]] + [e[3]] + [e[4]] + [e[5]], e[6]);
    ExecAppend(s, [] + [e[0]] + [e[1]] + [e[2]] + [e[3]] + [e[4]], e[5]);
    ExecAppend(s, [] + [e[0]] + [e[1]] + [e[2]] + [e[3]], e[4]);
    ExecAppend(s, [] + [e[0]] + [e[1]] + [e[2]], e[3]);
    ExecAppend(s, [] + [e[0]] + [e[1]], e[2]);
    ExecAppend(s, [] + [e[0]], e[1]);
    ExecAppend(s, [], e[0]);
  }

  lemma OverlapHappens(jobTimeout: nat, first: Caller, second: Caller)
    requires Outlasts(jobTimeout, first, IDEMPOTENCY_TTL) && Outlasts(jobTimeout, second, 0)
    ensures !Exclusive(Exec(Empty(jobTimeout), Overlap(first, second)))
  {
    OverlapEnd(jobTimeout, first, second);
    var s := Exec(Empty(jobTimeout), Overlap(first, second));
    assert InAI(s, 0) && InAI(s, 1);
  }

  lemma OverlapWithin(jobTimeout: nat, caller: Caller, bound: nat)
    requires Within(jobTimeout, Begin("c", caller), bound)
    ensures AllWithin(jobTimeout, Overlap(caller, caller), bound)
  {
  }

  /**
    Calls whose contexts last at most `bound`, whoever makes them, exclude each
    other in every run exactly when the bound fits the key's lifetime.
   */
  lemma ExclusiveIffBudgetsFit(jobTimeout: nat, bound: nat)
    ensures (forall es :: AllWithin(jobTimeout, es, bound) ==> Exclusive(Exec(Empty(jobTimeout), es)))
        <==> bound <= IDEMPOTENCY_TTL
  {
    if bound <= IDEMPOTENCY_TTL {
      forall es | AllWithin(jobTimeout, es, bound)
        ensures Exclusive(Exec(Empty(jobTimeout), es))
      {
        OneAICallPerContent(jobTimeout, es);
      }
    } else {
      var slow := Stream(Some(bound));
      OverlapWithin(jobTimeout, slow, bound);
      OverlapHappens(jobTimeout, slow, slow);
    }
  }

  /** Pool jobs exclude each other in every run exactly when their timeout fits the key's lifetime. */
  lemma ExclusiveIffTimeoutFits(jobTimeout: nat)
    ensures (forall es :: AllPool(es) ==> Exclusive(Exec(Empty(jobTimeout), es)))
        <==> jobTimeout <= IDEMPOTENCY_TTL
  {
    if jobTimeout <= IDEMPOTENCY_TTL {
      forall es | AllPool(es)
        ensures Exclusive(Exec(Empty(jobTimeout), es))
      {
        OneAICallPerContent(jobTimeout, es);
      }
    } else {
      OverlapHappens(jobTimeout, Pool, Pool);
      assert AllPool(Overlap(Pool, Pool));
    }
  }

  /** One caller with a longer context, or none to end it, is enough: the shipped pool jobs then overlap with it. */
  lemma LongCallBreaksExclusion(jobTimeout: nat, caller: Caller)
    requires 0 < jobTimeout && Outlasts(jobTimeout, caller, IDEMPOTENCY_TTL)
    ensures !Exclusive(Exec(Empty(jobTimeout), Overlap(caller, Pool)))
  {
    OverlapHappens(jobTimeout, caller, Pool);
  }

  /** The shipped timeout fits, but one stream call without a deadline is enough to break exclusion. */
  lemma StreamCallBreaksExclusion()
    ensures forall es :: AllPool(es) ==> Exclusive(Exec(Empty(DEFAULT_JOB_TIMEOUT), es))
    ensures !Exclusive(Exec(Empty(DEFAULT_JOB_TIMEOUT), Overlap(Stream(None), Pool)))
  {
    ExclusiveIffTimeoutFits(DEFAULT_JOB_TIMEOUT);
    LongCallBreaksExclusion(DEFAULT_JOB_TIMEOUT, Stream(None));
  }
}
