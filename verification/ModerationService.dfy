/**
  ModerateContent, HandleModerationResult and the pool's processJob as programs
  over the shared stores, with arbitrary steps of other calls, cancellations and
  the clock between any two commands. Every execution is a run of the Moderation
  machine.
 */
module ModerationService {
  import opened Entities
  import opened Moderation
  import opened Exclusion
  import opened Provenance
  import opened Finality
  import opened ModerationLaws

  class Stores {
    const jobTimeout: nat
    var now: nat
    var rows: map<string, Content>
    var owners: map<string, string>
    var keys: map<string, Key>
    var cached: map<string, ModerationResult>
    var jobs: seq<Job>
    var history: seq<Action>
    ghost var log: seq<Event>

    function View(): State
      reads this
    {
      State(jobTimeout, now, rows, owners, keys, cached, jobs, history)
    }

    ghost predicate Valid()
      reads this
    {
      View() == Exec(Empty(jobTimeout), log)
    }

    constructor (timeout: nat)
      ensures Valid() && jobTimeout == timeout && log == [] && View() == Empty(timeout)
    {
      jobTimeout, now, rows, owners, keys, cached := timeout, 0, map[], map[], map[], map[];
      jobs, history, log := [], [], [];
    }

    // ----- commands, issued on behalf of job `me` -----

    predicate Reaches(me: nat, reply: Reply)
      requires me < |jobs|
      reads this
    {
      !Expired(jobs[me].deadline, now) && reply != Dropped
    }

    predicate Fails(me: nat, reply: Reply)
      requires me < |jobs|
      reads this
    {
      Expired(jobs[me].deadline, now) || reply != Acked
    }

    method FindByID(me: nat, id: string, failed: bool) returns (c: Option<Content>)
      requires me < |jobs|
      ensures c == if failed || Expired(jobs[me].deadline, now) || id !in rows then None else Some(rows[id])
    {
      c := if failed || Expired(jobs[me].deadline, now) || id !in rows then None else Some(rows[id]);
    }

    method SetIfNotExists(me: nat, id: string, ttl: nat, reply: Reply) returns (acquired: bool, failed: bool)
      requires me < |jobs|
      modifies this`keys
      ensures failed == Fails(me, reply)
      ensures acquired <==> id !in old(keys) && !failed
      ensures keys == if Reaches(me, reply) && id !in old(keys)
                      then old(keys)[id := Key(me, now + ttl)] else old(keys)
    {
      failed := Fails(me, reply);
      acquired := id !in keys && !failed;
      if Reaches(me, reply) && id !in keys {
        keys := keys[id := Key(me, now + ttl)];
      }
    }

    method Invalidate(me: nat, id: string, reply: Reply)
      requires me < |jobs|
      modifies this`keys
      ensures keys == if Reaches(me, reply) then old(keys) - {id} else old(keys)
    {
      if Reaches(me, reply) {
        keys := keys - {id};
      }
    }

    method SetModerationResult(me: nat, id: string, r: ModerationResult, reply: Reply)
      requires me < |jobs|
      modifies this`cached
      ensures cached == if Reaches(me, reply) then old(cached)[id := r] else old(cached)
    {
      if Reaches(me, reply) {
        cached := cached[id := r];
      }
    }

    /** UPDATE ... WHERE id; no row is an error, and so is any failure of the command. */
    method UpdateStatus(me: nat, r: ModerationResult, status: Status, reply: Reply) returns (failed: bool)
      requires me < |jobs| && status == if r.isApproved then Approved else Rejected
      modifies this`rows, this`history
      ensures failed <==> r.contentId !in old(rows) || Fails(me, reply)
      ensures r.contentId in old(rows) && Reaches(me, reply) ==>
        && rows == old(rows)[r.contentId := old(rows)[r.contentId].(
             status := if r.isApproved then Approved else Rejected, moderationId := Some(r.id))]
        && history == old(history) + [Wrote(r)]
      ensures r.contentId !in old(rows) || !Reaches(me, reply) ==>
        rows == old(rows) && history == old(history)
    {
      failed := r.contentId !in rows || Fails(me, reply);
      if r.contentId in rows && Reaches(me, reply) {
        rows := rows[r.contentId := rows[r.contentId].(status := status, moderationId := Some(r.id))];
        history := history + [Wrote(r)];
      }
    }

    method PublishNotification(me: nat, n: Notification, reply: Reply)
      requires me < |jobs|
      modifies this`history
      ensures history == if Reaches(me, reply) then old(history) + [Notified(n)] else old(history)
    {
      if Reaches(me, reply) {
        history := history + [Notified(n)];
      }
    }

    // ----- runs -----

    method Become(me: nat, p: Phase)
      requires me < |jobs|
      modifies this`jobs
      ensures jobs == old(jobs)[me := old(jobs[me]).(phase := p)]
    {
      jobs := jobs[me := jobs[me].(phase := p)];
    }

    ghost method Record(e: Event, v: State)
      requires v == Exec(Empty(jobTimeout), log) && View() == Apply(v, e)
      modifies this`log
      ensures Valid() && log == old(log) + [e]
    {
      log := log + [e];
      assert log[..|log| - 1] == old(log);
    }

    method Take(e: Event)
      requires Valid()
      modifies this
      ensures Valid() && View() == Apply(old(View()), e) && log == old(log) + [e]
    {
      var s := Apply(View(), e);
      now, rows, owners, keys, cached := s.now, s.rows, s.owners, s.keys, s.cached;
      jobs, history := s.jobs, s.history;
      ApplyKeepsTimeout(old(View()), e);
      Record(e, old(View()));
    }

    /** Other calls, cancellations, the clock, and content created or deleted. */
    method Interfere(me: nat)
      requires Valid() && me < |jobs|
      modifies this
      ensures Valid() && old(log) <= log && old(history) <= history
      ensures me < |jobs| && SameButDeadline(old(jobs[me]), jobs[me])
    {
      var n: nat := *;
      while n > 0
        invariant Valid() && old(log) <= log && old(history) <= history
        invariant me < |jobs| && SameButDeadline(old(jobs[me]), jobs[me])
      {
        var e: Event := *;
        if Actor(e) != Some(me) {
          OthersSpareJob(View(), e, me);
          HistoryOnlyGrows(View(), e);
          Take(e);
        }
        n := n - 1;
      }
    }
  }

  lemma StillIn(a: Action, h: seq<Action>, h': seq<Action>)
    requires a in h && h <= h'
    ensures a in h'
  {
    var k :| 0 <= k < |h| && h[k] == a;
    assert h'[k] == a;
  }

  ghost predicate At(w: Stores, me: nat, id: string, viaPool: bool, p: Phase)
    reads w
  {
    w.Valid() && me < |w.jobs| && w.jobs[me].contentId == id && w.jobs[me].viaPool == viaPool && w.jobs[me].phase == p
  }

  /** Whatever a step does, what is logged and what happened stays so. */
  twostate predicate Onward(w: Stores)
    reads w
  {
    old(w.log) <= w.log && old(w.history) <= w.history
  }

  // ----- one command each, preceded by whatever others do first -----

  /** The lookup and the pending check; None stands for any of the errors. */
  method FindPending(w: Stores, me: nat, id: string, viaPool: bool) returns (kind: Option<ContentType>)
    requires id != "" && At(w, me, id, viaPool, Finding)
    modifies w
    ensures At(w, me, id, viaPool, if kind.Some? then Marking(kind.value) else Finished)
    ensures Onward(w)
  {
    w.Interfere(me);
    ghost var v := w.View();
    var failed: bool := *;
    var content := w.FindByID(me, id, failed);
    kind := if content.Some? && content.value.status == Pending then Some(content.value.kind) else None;
    w.Become(me, if kind.Some? then Marking(kind.value) else Finished);
    w.Record(Find(me, failed), v);
  }

  datatype MarkOutcome = Refused | NoModel | Ready

  method MarkContent(w: Stores, me: nat, id: string, viaPool: bool, kind: ContentType) returns (m: MarkOutcome)
    requires At(w, me, id, viaPool, Marking(kind))
    modifies w
    ensures At(w, me, id, viaPool, if m.Refused? then Finished else if m.NoModel? then Unmarking(None) else Asking)
    ensures m.NoModel? ==> kind.Unsupported?
    ensures Onward(w)
  {
    w.Interfere(me);
    ghost var v := w.View();
    var reply: Reply := *;
    var acquired, failed := w.SetIfNotExists(me, id, IDEMPOTENCY_TTL, reply);
    m := if failed || !acquired then Refused else if kind.Unsupported? then NoModel else Ready;
    var next := if m.Refused? then Finished else if m.NoModel? then Unmarking(None) else Asking;
    w.Become(me, next);
    MarkIsStep(v, me, reply, w.keys, next);
    w.Record(Mark(me, reply), v);
  }

  lemma MarkIsStep(v: State, me: nat, reply: Reply, keys': map<string, Key>, next: Phase)
    requires Enabled(v, Mark(me, reply))
    requires
      var j := v.jobs[me];
      var free := j.contentId !in v.keys;
      && keys' == (if Effective(v, j, reply) && free
                   then v.keys[j.contentId := Key(me, v.now + IDEMPOTENCY_TTL)] else v.keys)
      && next == if Errs(v, j, reply) || !free then Finished
                 else if j.phase.kind.Unsupported? then Unmarking(None) else Asking
    ensures Apply(v, Mark(me, reply)) == v.(keys := keys', jobs := v.jobs[me := v.jobs[me].(phase := next)])
  {
  }

  /** The AI call; the result is stamped with the content's id. */
  method AskAI(w: Stores, me: nat, id: string, viaPool: bool) returns (result: Option<ModerationResult>)
    requires At(w, me, id, viaPool, Asking)
    modifies w
    ensures At(w, me, id, viaPool, if result.Some? then Caching(result.value) else Unmarking(None))
    ensures result.Some? ==> result.value.contentId == id && Produced(result.value) in w.history
    ensures Onward(w)
  {
    w.Interfere(me);
    ghost var v := w.View();
    var got: AIReply := *;
    match got {
      case AIError =>
        result := None;
        w.Become(me, Unmarking(None));
      case Answer(raw) =>
        var r := raw.(contentId := id);
        result := Some(r);
        w.history := w.history + [Produced(r)];
        assert w.history[|w.history| - 1] == Produced(r);
        w.Become(me, Caching(r));
    }
    w.Record(Ask(me, got), v);
  }

  method CacheIt(w: Stores, me: nat, id: string, viaPool: bool, r: ModerationResult)
    requires At(w, me, id, viaPool, Caching(r))
    modifies w
    ensures At(w, me, id, viaPool, Unmarking(Some(r)))
    ensures Onward(w)
  {
    w.Interfere(me);
    ghost var v := w.View();
    var reply: Reply := *;
    w.SetModerationResult(me, id, r, reply);
    w.Become(me, Unmarking(Some(r)));
    w.Record(CacheResult(me, reply), v);
  }

  /** The deferred release of the key, on every path after it was acquired. */
  method Release(w: Stores, me: nat, id: string, viaPool: bool, returned: Option<ModerationResult>)
    requires At(w, me, id, viaPool, Unmarking(returned))
    modifies w
    ensures At(w, me, id, viaPool, if viaPool && returned.Some? then Updating(returned.value) else Finished)
    ensures Onward(w)
  {
    w.Interfere(me);
    ghost var v := w.View();
    var reply: Reply := *;
    w.Invalidate(me, id, reply);
    w.Become(me, if viaPool && returned.Some? then Updating(returned.value) else Finished);
    w.Record(Unmark(me, reply), v);
  }

  method WriteStatus(w: Stores, me: nat, id: string, r: ModerationResult) returns (failed: bool)
    requires r.contentId != "" && At(w, me, id, true, Updating(r))
    modifies w
    ensures At(w, me, id, true, if failed then Finished else Rereading(r))
    ensures !failed ==> Wrote(r) in w.history
    ensures Onward(w)
  {
    w.Interfere(me);
    ghost var v := w.View();
    var reply: Reply := *;
    var status := if r.isApproved then Approved else Rejected;
    failed := w.UpdateStatus(me, r, status, reply);
    w.Become(me, if failed then Finished else Rereading(r));
    if !failed {
      assert w.history[|w.history| - 1] == Wrote(r);
    }
    UpdateIsStep(v, me, reply, w.rows, w.history, if failed then Finished else Rereading(r));
    w.Record(Update(me, reply), v);
  }

  lemma UpdateIsStep(v: State, me: nat, reply: Reply, rows': map<string, Content>, history': seq<Action>, next: Phase)
    requires Enabled(v, Update(me, reply)) && v.jobs[me].phase.result.contentId != ""
    requires
      var j := v.jobs[me];
      var r := j.phase.result;
      var found := r.contentId in v.rows;
      && rows' == (if found && Effective(v, j, reply)
                   then v.rows[r.contentId := Stamped(v.rows[r.contentId], r)] else v.rows)
      && history' == (if found && Effective(v, j, reply) then v.history + [Wrote(r)] else v.history)
      && next == if !found || Errs(v, j, reply) then Finished else Rereading(r)
    ensures Apply(v, Update(me, reply)) ==
      v.(rows := rows', history := history', jobs := v.jobs[me := v.jobs[me].(phase := next)])
  {
  }

  method RereadOwner(w: Stores, me: nat, id: string, r: ModerationResult) returns (userId: Option<string>)
    requires At(w, me, id, true, Rereading(r))
    modifies w
    ensures At(w, me, id, true, if userId.Some? then Notifying(r, userId.value) else Finished)
    ensures Onward(w)
  {
    w.Interfere(me);
    ghost var v := w.View();
    var failed: bool := *;
    var content := w.FindByID(me, r.contentId, failed);
    userId := if content.Some? && content.value.userId != "" then Some(content.value.userId) else None;
    w.Become(me, if userId.Some? then Notifying(r, userId.value) else Finished);
    w.Record(Reread(me, failed), v);
  }

  method NotifyOwner(w: Stores, me: nat, id: string, r: ModerationResult, userId: string)
    requires At(w, me, id, true, Notifying(r, userId))
    modifies w
    ensures At(w, me, id, true, Finished)
    ensures |w.log| > |old(w.log)| && w.log[|w.log| - 1].Notify? && w.log[|w.log| - 1].i == me
    ensures Onward(w)
  {
    w.Interfere(me);
    ghost var v := w.View();
    var reply: Reply := *;
    var kind := if r.isApproved then Approved else Rejected;
    w.PublishNotification(me, Notification(userId, r.contentId, kind), reply);
    w.Become(me, Finished);
    w.Record(Notify(me, reply), v);
  }

  // ----- the service -----

  /** The part of ModerateContent that runs with the key held. */
  method AskAndRelease(w: Stores, me: nat, id: string, viaPool: bool) returns (result: Option<ModerationResult>)
    requires At(w, me, id, viaPool, Asking)
    modifies w
    ensures At(w, me, id, viaPool, if viaPool && result.Some? then Updating(result.value) else Finished)
    ensures result.Some? ==> result.value.contentId == id && Produced(result.value) in w.history
    ensures Onward(w)
  {
    result := AskAI(w, me, id, viaPool);
    if result.None? {
      Release(w, me, id, viaPool, None);
      return None;
    }
    ghost var h := w.history;
    CacheIt(w, me, id, viaPool, result.value);
    Release(w, me, id, viaPool, result);
    StillIn(Produced(result.value), h, w.history);
  }

  /**
    A returned result is an AI answer for this content, and only a call that has
    itself seen the content pending and taken its free key returns one. Whenever
    the call held the key, its release was attempted afterwards.
   */
  method ModerateContent(w: Stores, me: nat, id: string, viaPool: bool) returns (result: Option<ModerationResult>)
    requires At(w, me, id, viaPool, Finding)
    modifies w
    ensures At(w, me, id, viaPool, if viaPool && result.Some? then Updating(result.value) else Finished)
    ensures result.Some? ==> id != "" && result.value.contentId == id && Produced(result.value) in w.history
    ensures result.Some? ==> Entitled(w.jobTimeout, w.log, me, |old(w.log)|)
    ensures forall k: nat :: k <= |w.log| && MarkedAt(w.jobTimeout, w.log, k, me) ==> UnmarkedSince(w.log, k, me)
    ensures Onward(w)
  {
    result := ModerateBody(w, me, id, viaPool);
    KeyReleased(w.jobTimeout, w.log, me);
  }

  lemma KeyReleased(jobTimeout: nat, es: seq<Event>, me: nat)
    requires me < |Exec(Empty(jobTimeout), es).jobs| && !Marked(Exec(Empty(jobTimeout), es).jobs[me])
    ensures forall k: nat :: k <= |es| && MarkedAt(jobTimeout, es, k, me) ==> UnmarkedSince(es, k, me)
  {
    assert es[..|es|] == es;
    forall k: nat | k <= |es| && MarkedAt(jobTimeout, es, k, me)
      ensures UnmarkedSince(es, k, me)
    {
      ReleaseAttempted(jobTimeout, es, k, me);
    }
  }

  method ModerateBody(w: Stores, me: nat, id: string, viaPool: bool) returns (result: Option<ModerationResult>)
    requires At(w, me, id, viaPool, Finding)
    modifies w
    ensures At(w, me, id, viaPool, if viaPool && result.Some? then Updating(result.value) else Finished)
    ensures result.Some? ==> id != "" && result.value.contentId == id && Produced(result.value) in w.history
    ensures result.Some? ==> Entitled(w.jobTimeout, w.log, me, |old(w.log)|)
    ensures Onward(w)
  {
    var m := Enter(w, me, id, viaPool);
    if m.Refused? {
      return None;
    }
    if m.NoModel? {
      Release(w, me, id, viaPool, None);
      return None;
    }
    ghost var l := w.log;
    result := AskAndRelease(w, me, id, viaPool);
    EntitledStays(w.jobTimeout, l, w.log, me, |old(w.log)|);
  }

  /** Up to the AI call. */
  method Enter(w: Stores, me: nat, id: string, viaPool: bool) returns (m: MarkOutcome)
    requires At(w, me, id, viaPool, Finding)
    modifies w
    ensures At(w, me, id, viaPool, if m.Refused? then Finished else if m.NoModel? then Unmarking(None) else Asking)
    ensures m.Ready? ==> id != "" && Entitled(w.jobTimeout, w.log, me, |old(w.log)|)
    ensures Onward(w)
  {
    if id == "" {
      ghost var v := w.View();
      w.Become(me, Finished);
      w.Record(Find(me, false), v);
      return Refused;
    }
    var kind := FindPending(w, me, id, viaPool);
    if kind.None? {
      return Refused;
    }
    m := MarkContent(w, me, id, viaPool, kind.value);
    if m.Ready? {
      AskingEntitled(w.jobTimeout, old(w.log), w.log, me);
    }
  }

  /** Since step `from` the call has seen the content pending and taken its key. */
  ghost predicate Entitled(jobTimeout: nat, es: seq<Event>, me: nat, from: nat) {
    Reached(jobTimeout, es, me, Found, from) && Reached(jobTimeout, es, me, Held, from)
  }

  lemma AskingEntitled(jobTimeout: nat, before: seq<Event>, es: seq<Event>, me: nat)
    requires before <= es
    requires me < |Exec(Empty(jobTimeout), before).jobs| && Exec(Empty(jobTimeout), before).jobs[me].phase.Finding?
    requires me < |Exec(Empty(jobTimeout), es).jobs| && Exec(Empty(jobTimeout), es).jobs[me].phase.Asking?
    ensures Entitled(jobTimeout, es, me, |before|)
  {
    assert es[..|before|] == before;
    PhasesEarned(jobTimeout, es, me, Found, |before|);
    PhasesEarned(jobTimeout, es, me, Held, |before|);
  }

  lemma RereadingWritten(jobTimeout: nat, before: seq<Event>, es: seq<Event>, me: nat)
    requires before <= es
    requires me < |Exec(Empty(jobTimeout), before).jobs| && Exec(Empty(jobTimeout), before).jobs[me].phase.Updating?
    requires me < |Exec(Empty(jobTimeout), es).jobs| && Exec(Empty(jobTimeout), es).jobs[me].phase.Rereading?
    ensures Reached(jobTimeout, es, me, Written, |before|)
  {
    assert es[..|before|] == before;
    PhasesEarned(jobTimeout, es, me, Written, |before|);
  }

  lemma EntitledStays(jobTimeout: nat, es: seq<Event>, es': seq<Event>, me: nat, from: nat)
    requires Entitled(jobTimeout, es, me, from) && es <= es'
    ensures Entitled(jobTimeout, es', me, from)
  {
    ReachedStays(jobTimeout, es, es', me, Found, from);
    ReachedStays(jobTimeout, es, es', me, Held, from);
  }

  /**
    Success means that the verdict was written, acknowledged, and that the owner
    was then told of it. Every row shows the last write on it.
   */
  method HandleModerationResult(w: Stores, me: nat, id: string, r: ModerationResult) returns (failed: bool)
    requires At(w, me, id, true, Updating(r))
    modifies w
    ensures At(w, me, id, true, Finished)
    ensures !failed ==> Wrote(r) in w.history
    ensures !failed ==> Reached(w.jobTimeout, w.log, me, Written, |old(w.log)|)
    ensures !failed ==> |w.log| > |old(w.log)| && w.log[|w.log| - 1].Notify? && w.log[|w.log| - 1].i == me
    ensures AllShowLast(w.View())
    ensures Onward(w)
  {
    if r.contentId == "" {
      ghost var v := w.View();
      w.Become(me, Finished);
      w.Record(Update(me, Acked), v);
      failed := true;
    } else {
      failed := WriteAndTell(w, me, id, r);
    }
    RowsShowLastWrite(w.jobTimeout, w.log);
  }

  method WriteAndTell(w: Stores, me: nat, id: string, r: ModerationResult) returns (failed: bool)
    requires r.contentId != "" && At(w, me, id, true, Updating(r))
    modifies w
    ensures At(w, me, id, true, Finished)
    ensures !failed ==> Wrote(r) in w.history
    ensures !failed ==> Reached(w.jobTimeout, w.log, me, Written, |old(w.log)|)
    ensures !failed ==> |w.log| > |old(w.log)| && w.log[|w.log| - 1].Notify? && w.log[|w.log| - 1].i == me
    ensures Onward(w)
  {
    failed := WriteStatus(w, me, id, r);
    if failed {
      return;
    }
    RereadingWritten(w.jobTimeout, old(w.log), w.log, me);
    ghost var l, h := w.log, w.history;
    failed := TellOwner(w, me, id, r);
    StillIn(Wrote(r), h, w.history);
    ReachedStays(w.jobTimeout, l, w.log, me, Written, |old(w.log)|);
  }

  method TellOwner(w: Stores, me: nat, id: string, r: ModerationResult) returns (failed: bool)
    requires At(w, me, id, true, Rereading(r))
    modifies w
    ensures At(w, me, id, true, Finished)
    ensures !failed ==> |w.log| > |old(w.log)| && w.log[|w.log| - 1].Notify? && w.log[|w.log| - 1].i == me
    ensures Onward(w)
  {
    var userId := RereadOwner(w, me, id, r);
    if userId.None? {
      return true;
    }
    NotifyOwner(w, me, id, r, userId.value);
    failed := false;
  }

  /**
    One pool job from start to end. When every call seen so far is a pool job
    and the timeout fits, the AI calls exclude each other at its end too, and
    every status, cached result and notification is accounted for.
   */
  method ProcessJob(w: Stores, id: string) returns (me: nat)
    requires w.Valid()
    modifies w
    ensures me == |old(w.jobs)| && At(w, me, id, true, Finished)
    ensures Onward(w)
    ensures AllWithin(w.jobTimeout, w.log, IDEMPOTENCY_TTL) ==> Exclusive(w.View())
    ensures Sourced(w.View()) && AllShowLast(w.View())
  {
    me := |w.jobs|;
    w.Take(Begin(id, Pool));
    var result := ModerateContent(w, me, id, true);
    if result.Some? {
      var failed := HandleModerationResult(w, me, id, result.value);
    }
    RunKeepsSourced(w.jobTimeout, w.log);
    RowsShowLastWrite(w.jobTimeout, w.log);
    if AllWithin(w.jobTimeout, w.log, IDEMPOTENCY_TTL) {
      OneAICallPerContent(w.jobTimeout, w.log);
    }
  }
}
