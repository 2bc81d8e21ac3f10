/**
  The moderation workflow as a state machine: any number of concurrent calls of
  ModerateContent, followed (for the worker pool's jobs) by
  HandleModerationResult, over a shared content table, the idempotency keys, the
  result cache and the published notifications. Time is in milliseconds. A
  command whose context is done fails without effect.
 */
module Moderation {
  import opened Entities

  const IDEMPOTENCY_TTL: nat := 30_000
  const DEFAULT_JOB_TIMEOUT: nat := 30_000

  /** What a call has got to; `result` is the value ModerateContent will return, if any. */
  datatype Phase =
    | Finding
    | Marking(kind: ContentType)
    | Asking
    | Caching(result: ModerationResult)
    | Unmarking(returned: Option<ModerationResult>)
    | Updating(result: ModerationResult)
    | Rereading(result: ModerationResult)
    | Notifying(result: ModerationResult, userId: string)
    | Finished

  /** Who calls ModerateContent: the pool, or a gRPC stream whose client may have set a deadline. */
  datatype Caller = Pool | Stream(budget: Option<nat>)

  /** A pool job runs under the pool's timeout; a stream call under its client's context. */
  datatype Job = Job(contentId: string, viaPool: bool, deadline: Expiry, phase: Phase)

  /** An idempotency key. The store keeps only that it is set; `holder` is who set it. */
  datatype Key = Key(holder: nat, expiry: nat)

  /** What happened, in order: AI answers, status writes, notifications. */
  datatype Action =
    | Produced(result: ModerationResult)
    | Wrote(result: ModerationResult)
    | Notified(note: Notification)

  datatype State = State(
    jobTimeout: nat,
    now: nat,
    rows: map<string, Content>,
    owners: map<string, string>,  // every content ever created, with its user
    keys: map<string, Key>,
    cached: map<string, ModerationResult>,
    jobs: seq<Job>,
    history: seq<Action>)

  datatype AIReply = Answer(result: ModerationResult) | AIError

  datatype Event =
    | Create(content: Content)
    | Delete(id: string)
    | Begin(contentId: string, caller: Caller)
    | Find(i: nat, failed: bool)
    | Mark(i: nat, reply: Reply)
    | Ask(i: nat, got: AIReply)
    | CacheResult(i: nat, reply: Reply)
    | Unmark(i: nat, reply: Reply)
    | Update(i: nat, reply: Reply)
    | Reread(i: nat, failed: bool)
    | Notify(i: nat, reply: Reply)
    | CancelJob(i: nat)
    | DropCached(id: string)
    | Tick(d: nat)

  /** The job whose program takes the step, if any does. */
  function Actor(e: Event): Option<nat> {
    match e
    case Create(_) => None
    case Delete(_) => None
    case Begin(_, _) => None
    case CancelJob(_) => None
    case DropCached(_) => None
    case Tick(_) => None
    case _ => Some(e.i)
  }

  predicate Live(s: State, j: Job) {
    !Expired(j.deadline, s.now)
  }

  /** A command of job `j` takes effect. */
  predicate Effective(s: State, j: Job, reply: Reply) {
    Live(s, j) && reply != Dropped
  }

  /** A command of job `j` reports an error. */
  predicate Errs(s: State, j: Job, reply: Reply) {
    !Live(s, j) || reply != Acked
  }

  predicate Enabled(s: State, e: Event) {
    match e
    case Create(c) => c.id !in s.owners && c.status == Pending && c.moderationId.None? && !c.kind.Unsupported?
    case Delete(id) => id in s.rows
    case Begin(_, _) => true
    case Find(i, _) => i < |s.jobs| && s.jobs[i].phase.Finding?
    case Mark(i, _) => i < |s.jobs| && s.jobs[i].phase.Marking?
    case Ask(i, _) => i < |s.jobs| && s.jobs[i].phase.Asking?
    case CacheResult(i, _) => i < |s.jobs| && s.jobs[i].phase.Caching?
    case Unmark(i, _) => i < |s.jobs| && s.jobs[i].phase.Unmarking?
    case Update(i, _) => i < |s.jobs| && s.jobs[i].phase.Updating?
    case Reread(i, _) => i < |s.jobs| && s.jobs[i].phase.Rereading?
    case Notify(i, _) => i < |s.jobs| && s.jobs[i].phase.Notifying?
    case CancelJob(i) => i < |s.jobs|
    case DropCached(id) => id in s.cached
    case Tick(_) => true
  }

  function Go(s: State, i: nat, p: Phase): State
    requires i < |s.jobs|
  {
    s.(jobs := s.jobs[i := s.jobs[i].(phase := p)])
  }

  function AfterFind(s: State, i: nat, failed: bool): State
    requires i < |s.jobs|
  {
    var j := s.jobs[i];
    if j.contentId == "" || failed || !Live(s, j) || j.contentId !in s.rows then Go(s, i, Finished)
    else if s.rows[j.contentId].status != Pending then Go(s, i, Finished)
    else Go(s, i, Marking(s.rows[j.contentId].kind))
  }

  /** SETNX of the idempotency key; the release is deferred only once it was acquired. */
  function AfterMark(s: State, i: nat, reply: Reply): State
    requires i < |s.jobs| && s.jobs[i].phase.Marking?
  {
    var j := s.jobs[i];
    var free := j.contentId !in s.keys;
    var s' := if Effective(s, j, reply) && free
              then s.(keys := s.keys[j.contentId := Key(i, s.now + IDEMPOTENCY_TTL)]) else s;
    if Errs(s, j, reply) || !free then Go(s', i, Finished)
    else if j.phase.kind.Unsupported? then Go(s', i, Unmarking(None))
    else Go(s', i, Asking)
  }

  function AfterAsk(s: State, i: nat, got: AIReply): State
    requires i < |s.jobs|
  {
    match got
    case AIError => Go(s, i, Unmarking(None))
    case Answer(r) =>
      var r' := r.(contentId := s.jobs[i].contentId);
      Go(s.(history := s.history + [Produced(r')]), i, Caching(r'))
  }

  function AfterCache(s: State, i: nat, reply: Reply): State
    requires i < |s.jobs| && s.jobs[i].phase.Caching?
  {
    var j := s.jobs[i];
    var r := j.phase.result;
    var s' := if Effective(s, j, reply) then s.(cached := s.cached[j.contentId := r]) else s;
    Go(s', i, Unmarking(Some(r)))
  }

  /** The deferred, unconditional delete of the key. */
  function AfterUnmark(s: State, i: nat, reply: Reply): State
    requires i < |s.jobs| && s.jobs[i].phase.Unmarking?
  {
    var j := s.jobs[i];
    var s' := if Effective(s, j, reply) then s.(keys := s.keys - {j.contentId}) else s;
    Go(s', i, if j.viaPool && j.phase.returned.Some? then Updating(j.phase.returned.value) else Finished)
  }

  function AfterUpdate(s: State, i: nat, reply: Reply): State
    requires i < |s.jobs| && s.jobs[i].phase.Updating?
  {
    var j := s.jobs[i];
    var r := j.phase.result;
    var id := r.contentId;
    if id == "" || id !in s.rows then Go(s, i, Finished) else
    var s' := if Effective(s, j, reply)
              then s.(rows := s.rows[id := s.rows[id].(status := Verdict(r), moderationId := Some(r.id))],
                      history := s.history + [Wrote(r)])
              else s;
    Go(s', i, if Errs(s, j, reply) then Finished else Rereading(r))
  }

  /** The second lookup, and NewNotification's check of the user id. */
  function AfterReread(s: State, i: nat, failed: bool): State
    requires i < |s.jobs| && s.jobs[i].phase.Rereading?
  {
    var j := s.jobs[i];
    var r := j.phase.result;
    if failed || !Live(s, j) || r.contentId !in s.rows || s.rows[r.contentId].userId == ""
    then Go(s, i, Finished)
    else Go(s, i, Notifying(r, s.rows[r.contentId].userId))
  }

  function AfterNotify(s: State, i: nat, reply: Reply): State
    requires i < |s.jobs| && s.jobs[i].phase.Notifying?
  {
    var j := s.jobs[i];
    var n := Notification(j.phase.userId, j.phase.result.contentId, Verdict(j.phase.result));
    var s' := if Effective(s, j, reply) then s.(history := s.history + [Notified(n)]) else s;
    Go(s', i, Finished)
  }

  /** How long a call's context lasts; None is for ever. */
  function Budget(jobTimeout: nat, caller: Caller): Option<nat> {
    if caller.Pool? then Some(jobTimeout) else caller.budget
  }

  function NewJob(s: State, contentId: string, caller: Caller): Job {
    var b := Budget(s.jobTimeout, caller);
    Job(contentId, caller.Pool?, if b.Some? then At(s.now + b.value) else Never, Finding)
  }

  /** Cancellation can only bring a deadline forward. */
  function Cut(x: Expiry, now: nat): Expiry {
    if Expired(x, now) then x else At(now)
  }

  function Surviving(keys: map<string, Key>, now: nat): map<string, Key> {
    map k | k in keys && now < keys[k].expiry :: keys[k]
  }

  function Apply(s: State, e: Event): State {
    if !Enabled(s, e) then s else
    match e
    case Create(c) => s.(rows := s.rows[c.id := c], owners := s.owners[c.id := c.userId])
    case Delete(id) => s.(rows := s.rows - {id})
    case Begin(id, caller) => s.(jobs := s.jobs + [NewJob(s, id, caller)])
    case Find(i, failed) => AfterFind(s, i, failed)
    case Mark(i, reply) => AfterMark(s, i, reply)
    case Ask(i, got) => AfterAsk(s, i, got)
    case CacheResult(i, reply) => AfterCache(s, i, reply)
    case Unmark(i, reply) => AfterUnmark(s, i, reply)
    case Update(i, reply) => AfterUpdate(s, i, reply)
    case Reread(i, failed) => AfterReread(s, i, failed)
    case Notify(i, reply) => AfterNotify(s, i, reply)
    case CancelJob(i) => s.(jobs := s.jobs[i := s.jobs[i].(deadline := Cut(s.jobs[i].deadline, s.now))])
    case DropCached(id) => s.(cached := s.cached - {id})
    case Tick(d) => s.(now := s.now + d, keys := Surviving(s.keys, s.now + d))
  }

  function Exec(s: State, es: seq<Event>): State {
    if es == [] then s else Apply(Exec(s, es[..|es| - 1]), es[|es| - 1])
  }

  function Empty(jobTimeout: nat): State {
    State(jobTimeout, 0, map[], map[], map[], map[], [], [])
  }

  lemma ExecAppend(s: State, es: seq<Event>, e: Event)
    ensures Exec(s, es + [e]) == Apply(Exec(s, es), e)
  {
    assert (es + [e])[..|es|] == es;
  }

  lemma HistoryOnlyGrows(s: State, e: Event)
    ensures s.history <= Apply(s, e).history
  {
    if Enabled(s, e) {
      match e
      case Create(_) =>
      case Delete(_) =>
      case Begin(_, _) =>
      case Find(_, _) =>
      case Mark(_, _) =>
      case Ask(_, _) =>
      case CacheResult(_, _) =>
      case Unmark(_, _) =>
      case Update(_, _) =>
      case Reread(_, _) =>
      case Notify(_, _) =>
      case CancelJob(_) =>
      case DropCached(_) =>
      case Tick(_) =>
    }
  }

  lemma ApplyKeepsTimeout(s: State, e: Event)
    ensures Apply(s, e).jobTimeout == s.jobTimeout
  {
    if Enabled(s, e) {
      match e
      case Create(_) =>
      case Delete(_) =>
      case Begin(_, _) =>
      case Find(_, _) =>
      case Mark(_, _) =>
      case Ask(_, _) =>
      case CacheResult(_, _) =>
      case Unmark(_, _) =>
      case Update(_, _) =>
      case Reread(_, _) =>
      case Notify(_, _) =>
      case CancelJob(_) =>
      case DropCached(_) =>
      case Tick(_) =>
    }
  }

  predicate SameButDeadline(a: Job, b: Job) {
    a.contentId == b.contentId && a.viaPool == b.viaPool && a.phase == b.phase
  }

  lemma OthersSpareKeys(s: State, e: Event, me: nat)
    requires me < |s.jobs| && Actor(e) != Some(me) && Enabled(s, e)
    requires e.Mark? || e.Ask? || e.CacheResult? || e.Unmark?
    ensures me < |Apply(s, e).jobs| && Apply(s, e).jobs[me] == s.jobs[me]
  {
    match e
    case Mark(_, _) =>
    case Ask(_, _) =>
    case CacheResult(_, _) =>
    case Unmark(_, _) =>
  }

  lemma OthersSpareRows(s: State, e: Event, me: nat)
    requires me < |s.jobs| && Actor(e) != Some(me) && Enabled(s, e)
    requires e.Find? || e.Update? || e.Reread? || e.Notify?
    ensures me < |Apply(s, e).jobs| && Apply(s, e).jobs[me] == s.jobs[me]
  {
    match e
    case Find(_, _) =>
    case Update(_, _) =>
    case Reread(_, _) =>
    case Notify(_, _) =>
  }

  /** Nobody else moves a job along. */
  lemma OthersSpareJob(s: State, e: Event, me: nat)
    requires me < |s.jobs| && Actor(e) != Some(me)
    ensures me < |Apply(s, e).jobs|
    ensures SameButDeadline(s.jobs[me], Apply(s, e).jobs[me])
  {
    if Enabled(s, e) {
      match e
      case Find(_, _) => OthersSpareRows(s, e, me);
      case Update(_, _) => OthersSpareRows(s, e, me);
      case Reread(_, _) => OthersSpareRows(s, e, me);
      case Notify(_, _) => OthersSpareRows(s, e, me);
      case Mark(_, _) => OthersSpareKeys(s, e, me);
      case Ask(_, _) => OthersSpareKeys(s, e, me);
      case CacheResult(_, _) => OthersSpareKeys(s, e, me);
      case Unmark(_, _) => OthersSpareKeys(s, e, me);
      case Create(_) =>
      case Delete(_) =>
      case Begin(_, _) =>
      case CancelJob(_) =>
      case DropCached(_) =>
      case Tick(_) =>
    }
  }

  /** Apart from the keys, acquiring one only moves its job along. */
  lemma MarkOnlyMoves(s: State, i: nat, reply: Reply)
    requires Enabled(s, Mark(i, reply))
    ensures
      var s' := AfterMark(s, i, reply);
      && s' == s.(keys := s'.keys, jobs := s.jobs[i := s'.jobs[i]])
      && |s'.jobs| == |s.jobs|
      && (s'.jobs[i].phase in {Finished, Asking, Unmarking(None)})
  {
  }
}
