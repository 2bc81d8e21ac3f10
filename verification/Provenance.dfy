/** Where statuses, cached results and notifications come from, over every run. */
module Provenance {
  import opened Entities
  import opened Moderation

  /** A status write carries a verdict the AI gave earlier. */
  ghost predicate WritesSourced(h: seq<Action>) {
    forall k :: 0 <= k < |h| && h[k].Wrote? ==> Produced(h[k].result) in h[..k]
  }

  /** Some write of this verdict on this content is among the actions. */
  ghost predicate WrittenIn(h: seq<Action>, id: string, verdict: Status) {
    exists r :: Wrote(r) in h && r.contentId == id && Verdict(r) == verdict
  }

  /** A notification follows a write of its verdict on its content and goes to the content's user. */
  ghost predicate NotesSourced(h: seq<Action>, owners: map<string, string>) {
    forall k :: 0 <= k < |h| && h[k].Notified? ==>
      var n := h[k].note;
      && WrittenIn(h[..k], n.contentId, n.verdict)
      && n.contentId in owners && owners[n.contentId] == n.userId
  }

  /** What a job carries between two steps is accounted for in the history. */
  ghost predicate JobKnown(h: seq<Action>, owners: map<string, string>, j: Job) {
    match j.phase
    case Caching(r) => Produced(r) in h && r.contentId == j.contentId
    case Unmarking(v) => v.Some? ==> Produced(v.value) in h && v.value.contentId == j.contentId
    case Updating(r) => Produced(r) in h && r.contentId == j.contentId
    case Rereading(r) => Wrote(r) in h
    case Notifying(r, u) => Wrote(r) in h && r.contentId in owners && owners[r.contentId] == u
    case _ => true
  }

  ghost predicate JobsKnown(h: seq<Action>, owners: map<string, string>, jobs: seq<Job>) {
    forall i :: 0 <= i < |jobs| ==> JobKnown(h, owners, jobs[i])
  }

  /** A decided row shows the verdict and the id of a result that was written to it. */
  ghost predicate Decided(h: seq<Action>, id: string, c: Content) {
    exists r :: Wrote(r) in h && r.contentId == id && Verdict(r) == c.status && c.moderationId == Some(r.id)
  }

  ghost predicate RowKnown(h: seq<Action>, owners: map<string, string>, id: string, c: Content) {
    && id in owners && owners[id] == c.userId
    && (c.status != Pending ==> Decided(h, id, c))
  }

  ghost predicate RowsKnown(h: seq<Action>, owners: map<string, string>, rows: map<string, Content>) {
    forall id :: id in rows ==> RowKnown(h, owners, id, rows[id])
  }

  ghost predicate CacheKnown(h: seq<Action>, cached: map<string, ModerationResult>) {
    forall id :: id in cached ==> Produced(cached[id]) in h && cached[id].contentId == id
  }

  ghost predicate Sourced(s: State) {
    && WritesSourced(s.history)
    && NotesSourced(s.history, s.owners)
    && JobsKnown(s.history, s.owners, s.jobs)
    && RowsKnown(s.history, s.owners, s.rows)
    && CacheKnown(s.history, s.cached)
  }

  // ----- appending to the history -----

  lemma WritesAppend(h: seq<Action>, a: Action)
    requires WritesSourced(h) && (a.Wrote? ==> Produced(a.result) in h)
    ensures WritesSourced(h + [a])
  {
    forall k | 0 <= k < |h + [a]|
      ensures (h + [a])[..k] == h[..k]
    {
    }
  }

  lemma NotesAppend(h: seq<Action>, owners: map<string, string>, a: Action)
    requires NotesSourced(h, owners)
    requires a.Notified? ==> WrittenIn(h, a.note.contentId, a.note.verdict) &&
                             a.note.contentId in owners && owners[a.note.contentId] == a.note.userId
    ensures NotesSourced(h + [a], owners)
  {
    forall k | 0 <= k < |h + [a]|
      ensures (h + [a])[..k] == h[..k]
    {
    }
    assert h[..|h|] == h;
  }

  lemma DecidedAppend(h: seq<Action>, a: Action, id: string, c: Content)
    requires Decided(h, id, c)
    ensures Decided(h + [a], id, c)
  {
    var r :| Wrote(r) in h && r.contentId == id && Verdict(r) == c.status && c.moderationId == Some(r.id);
    assert Wrote(r) in h + [a];
  }

  /** Knowledge about tables and jobs survives any further action. */
  lemma KnownAppend(s: State, a: Action)
    requires Sourced(s)
    ensures JobsKnown(s.history + [a], s.owners, s.jobs)
    ensures RowsKnown(s.history + [a], s.owners, s.rows)
    ensures CacheKnown(s.history + [a], s.cached)
  {
    forall id | id in s.rows
      ensures RowKnown(s.history + [a], s.owners, id, s.rows[id])
    {
      assert RowKnown(s.history, s.owners, id, s.rows[id]);
      if s.rows[id].status != Pending {
        DecidedAppend(s.history, a, id, s.rows[id]);
      }
    }
    forall i | 0 <= i < |s.jobs|
      ensures JobKnown(s.history + [a], s.owners, s.jobs[i])
    {
      assert JobKnown(s.history, s.owners, s.jobs[i]);
    }
  }

  // ----- steps -----

  lemma SourcedAsk(s: State, i: nat, got: AIReply)
    requires Sourced(s) && Enabled(s, Ask(i, got))
    ensures Sourced(AfterAsk(s, i, got))
  {
    if got.Answer? {
      var a := Produced(got.result.(contentId := s.jobs[i].contentId));
      WritesAppend(s.history, a);
      NotesAppend(s.history, s.owners, a);
      KnownAppend(s, a);
    }
  }

  function Stamped(c: Content, r: ModerationResult): Content {
    c.(status := Verdict(r), moderationId := Some(r.id))
  }

  lemma RowsAfterWrite(s: State, r: ModerationResult)
    requires Sourced(s) && r.contentId in s.rows
    ensures RowsKnown(s.history + [Wrote(r)], s.owners,
                      s.rows[r.contentId := Stamped(s.rows[r.contentId], r)])
  {
    var h' := s.history + [Wrote(r)];
    KnownAppend(s, Wrote(r));
    assert RowKnown(s.history, s.owners, r.contentId, s.rows[r.contentId]);
    assert h'[|s.history|] == Wrote(r);
    assert Decided(h', r.contentId, Stamped(s.rows[r.contentId], r));
  }

  lemma SourcedUpdate(s: State, i: nat, reply: Reply)
    requires Sourced(s) && Enabled(s, Update(i, reply))
    ensures Sourced(AfterUpdate(s, i, reply))
  {
    var r := s.jobs[i].phase.result;
    assert JobKnown(s.history, s.owners, s.jobs[i]);
    if r.contentId != "" && r.contentId in s.rows && Effective(s, s.jobs[i], reply) {
      SourcedWrite(s, i, reply);
    }
  }

  lemma SourcedWrite(s: State, i: nat, reply: Reply)
    requires Sourced(s) && Enabled(s, Update(i, reply))
    requires s.jobs[i].phase.result.contentId != "" && s.jobs[i].phase.result.contentId in s.rows
    requires Effective(s, s.jobs[i], reply)
    ensures Sourced(AfterUpdate(s, i, reply))
  {
    var r := s.jobs[i].phase.result;
    assert JobKnown(s.history, s.owners, s.jobs[i]);
    SourcedRow(s, r);
    WriteOnlyMoves(s, i, reply);
    SourcedMove(Written(s, r), AfterUpdate(s, i, reply), i);
  }

  /** The state with the verdict written and nothing else done. */
  function Written(s: State, r: ModerationResult): State
    requires r.contentId in s.rows
  {
    s.(rows := s.rows[r.contentId := Stamped(s.rows[r.contentId], r)], history := s.history + [Wrote(r)])
  }

  lemma SourcedRow(s: State, r: ModerationResult)
    requires Sourced(s) && r.contentId in s.rows && Produced(r) in s.history
    ensures Sourced(Written(s, r))
  {
    WritesAppend(s.history, Wrote(r));
    NotesAppend(s.history, s.owners, Wrote(r));
    KnownAppend(s, Wrote(r));
    RowsAfterWrite(s, r);
  }

  lemma WriteOnlyMoves(s: State, i: nat, reply: Reply)
    requires Enabled(s, Update(i, reply)) && Effective(s, s.jobs[i], reply)
    requires s.jobs[i].phase.result.contentId != "" && s.jobs[i].phase.result.contentId in s.rows
    ensures
      var s', r := AfterUpdate(s, i, reply), s.jobs[i].phase.result;
      && s' == Written(s, r).(jobs := s.jobs[i := s'.jobs[i]])
      && |s'.jobs| == |s.jobs|
      && (s'.jobs[i].phase == Finished || s'.jobs[i].phase == Rereading(r))
      && Wrote(r) in s'.history
  {
    var r := s.jobs[i].phase.result;
    assert (s.history + [Wrote(r)])[|s.history|] == Wrote(r);
  }

  lemma SourcedNotify(s: State, i: nat, reply: Reply)
    requires Sourced(s) && Enabled(s, Notify(i, reply))
    ensures Sourced(AfterNotify(s, i, reply))
  {
    var j := s.jobs[i];
    var r := j.phase.result;
    assert JobKnown(s.history, s.owners, j);
    if Effective(s, j, reply) {
      var a := Notified(Notification(j.phase.userId, r.contentId, Verdict(r)));
      assert WrittenIn(s.history, r.contentId, Verdict(r));
      WritesAppend(s.history, a);
      NotesAppend(s.history, s.owners, a);
      KnownAppend(s, a);
    }
  }

  /** A job moves on with nothing but what is already known. */
  lemma SourcedMove(s: State, s': State, i: nat)
    requires Sourced(s) && i < |s.jobs| == |s'.jobs| && s'.jobs == s.jobs[i := s'.jobs[i]]
    requires s'.history == s.history && s'.owners == s.owners && s'.rows == s.rows && s'.cached == s.cached
    requires JobKnown(s.history, s.owners, s'.jobs[i])
    ensures Sourced(s')
  {
  }

  lemma SourcedCache(s: State, i: nat, reply: Reply)
    requires Sourced(s) && Enabled(s, CacheResult(i, reply))
    ensures Sourced(AfterCache(s, i, reply))
  {
    var s' := AfterCache(s, i, reply);
    assert JobKnown(s.history, s.owners, s.jobs[i]);
    assert s'.cached == s.cached || s'.cached == s.cached[s.jobs[i].contentId := s.jobs[i].phase.result];
    SourcedMove(s, s'.(cached := s.cached), i);
  }

  lemma SourcedReread(s: State, i: nat, failed: bool)
    requires Sourced(s) && Enabled(s, Reread(i, failed))
    ensures Sourced(AfterReread(s, i, failed))
  {
    var r := s.jobs[i].phase.result;
    assert JobKnown(s.history, s.owners, s.jobs[i]);
    assert r.contentId in s.rows ==> RowKnown(s.history, s.owners, r.contentId, s.rows[r.contentId]);
    SourcedMove(s, AfterReread(s, i, failed), i);
  }

  lemma SourcedUnmark(s: State, i: nat, reply: Reply)
    requires Sourced(s) && Enabled(s, Unmark(i, reply))
    ensures Sourced(AfterUnmark(s, i, reply))
  {
    assert JobKnown(s.history, s.owners, s.jobs[i]);
    SourcedMove(s, AfterUnmark(s, i, reply), i);
  }

  lemma SourcedFind(s: State, i: nat, failed: bool)
    requires Sourced(s) && Enabled(s, Find(i, failed))
    ensures Sourced(AfterFind(s, i, failed))
  {
    SourcedMove(s, AfterFind(s, i, failed), i);
  }

  lemma SourcedMark(s: State, i: nat, reply: Reply)
    requires Sourced(s) && Enabled(s, Mark(i, reply))
    ensures Sourced(AfterMark(s, i, reply))
  {
    MarkOnlyMoves(s, i, reply);
    SourcedMove(s, AfterMark(s, i, reply), i);
  }

  lemma SourcedCreate(s: State, c: Content)
    requires Sourced(s) && Enabled(s, Create(c))
    ensures Sourced(Apply(s, Create(c)))
  {
    forall i | 0 <= i < |s.jobs|
      ensures JobKnown(s.history, s.owners[c.id := c.userId], s.jobs[i])
    {
      assert JobKnown(s.history, s.owners, s.jobs[i]);
    }
    forall id | id in s.rows
      ensures RowKnown(s.history, s.owners[c.id := c.userId], id, s.rows[id])
    {
      assert RowKnown(s.history, s.owners, id, s.rows[id]);
    }
  }

  lemma SourcedDelete(s: State, id: string)
    requires Sourced(s) && Enabled(s, Delete(id))
    ensures Sourced(Apply(s, Delete(id)))
  {
    forall k | k in s.rows
      ensures RowKnown(s.history, s.owners, k, s.rows[k])
    {
    }
  }

  lemma SourcedCancel(s: State, i: nat)
    requires Sourced(s) && Enabled(s, CancelJob(i))
    ensures Sourced(Apply(s, CancelJob(i)))
  {
    assert JobKnown(s.history, s.owners, s.jobs[i]);
  }

  lemma SourcedStep(s: State, e: Event)
    requires Sourced(s)
    ensures Sourced(Apply(s, e))
  {
    if Enabled(s, e) {
      match e
      case Create(c) => SourcedCreate(s, c);
      case Delete(id) => SourcedDelete(s, id);
      case Begin(_, _) =>
      case Find(i, failed) => SourcedFind(s, i, failed);
      case Mark(i, reply) => SourcedMark(s, i, reply);
      case Ask(i, got) => SourcedAsk(s, i, got);
      case CacheResult(i, reply) => SourcedCache(s, i, reply);
      case Unmark(i, reply) => SourcedUnmark(s, i, reply);
      case Update(i, reply) => SourcedUpdate(s, i, reply);
      case Reread(i, failed) => SourcedReread(s, i, failed);
      case Notify(i, reply) => SourcedNotify(s, i, reply);
      case CancelJob(i) => SourcedCancel(s, i);
      case DropCached(_) =>
      case Tick(_) =>
    }
  }

  lemma {:induction false} RunKeepsSourced(jobTimeout: nat, es: seq<Event>)
    ensures Sourced(Exec(Empty(jobTimeout), es))
  {
    if es != [] {
      var n := |es| - 1;
      RunKeepsSourced(jobTimeout, es[..n]);
      SourcedStep(Exec(Empty(jobTimeout), es[..n]), es[n]);
    }
  }

  // ----- the theorems -----

  /** A status other than pending, and its moderation id, are those of an AI result for that content. */
  lemma StatusFromAI(jobTimeout: nat, es: seq<Event>, id: string)
    requires id in Exec(Empty(jobTimeout), es).rows
    requires Exec(Empty(jobTimeout), es).rows[id].status != Pending
    ensures
      var s := Exec(Empty(jobTimeout), es);
      exists r :: Produced(r) in s.history && r.contentId == id &&
                  s.rows[id].status == (if r.isApproved then Approved else Rejected) &&
                  s.rows[id].moderationId == Some(r.id)
  {
    var s := Exec(Empty(jobTimeout), es);
    RunKeepsSourced(jobTimeout, es);
    assert RowKnown(s.history, s.owners, id, s.rows[id]);
    var r :| Wrote(r) in s.history && r.contentId == id && Verdict(r) == s.rows[id].status
             && s.rows[id].moderationId == Some(r.id);
    var k :| 0 <= k < |s.history| && s.history[k] == Wrote(r);
    assert Produced(s.history[k].result) in s.history[..k];
  }

  /** An earlier AI answer, then an earlier status write of it, both for content `id` and this verdict. */
  ghost predicate Chain(h: seq<Action>, i: int, j: int, k: int, id: string, verdict: Status) {
    && 0 <= i < j < k <= |h|
    && h[i].Produced? && h[j] == Wrote(h[i].result)
    && h[i].result.contentId == id && verdict == if h[i].result.isApproved then Approved else Rejected
  }

  /** Every notification was preceded by the write, and that by the AI answer; it goes to the owner. */
  lemma NotificationChain(jobTimeout: nat, es: seq<Event>, k: nat)
    requires k < |Exec(Empty(jobTimeout), es).history| && Exec(Empty(jobTimeout), es).history[k].Notified?
    ensures
      var s := Exec(Empty(jobTimeout), es);
      var n := s.history[k].note;
      && n.contentId in s.owners && s.owners[n.contentId] == n.userId
      && exists i, j :: Chain(s.history, i, j, k, n.contentId, n.verdict)
  {
    var s := Exec(Empty(jobTimeout), es);
    RunKeepsSourced(jobTimeout, es);
    var h, n := s.history, s.history[k].note;
    assert WrittenIn(h[..k], n.contentId, n.verdict);
    var r :| Wrote(r) in h[..k] && r.contentId == n.contentId && Verdict(r) == n.verdict;
    var j :| 0 <= j < k && h[..k][j] == Wrote(r);
    assert h[j] == Wrote(r) && Produced(r) in h[..j];
    var i :| 0 <= i < j && h[..j][i] == Produced(r);
    assert Chain(h, i, j, k, n.contentId, n.verdict);
  }

  /** A cached result is an AI answer for the content it is filed under. */
  lemma CachedFromAI(jobTimeout: nat, es: seq<Event>, id: string)
    requires id in Exec(Empty(jobTimeout), es).cached
    ensures
      var s := Exec(Empty(jobTimeout), es);
      Produced(s.cached[id]) in s.history && s.cached[id].contentId == id
  {
    RunKeepsSourced(jobTimeout, es);
  }

  // ----- a decision is never taken back to pending -----

  ghost predicate NotPending(s: State, id: string) {
    id in s.owners && (id in s.rows ==> s.rows[id].status != Pending)
  }

  lemma NotPendingStep(s: State, e: Event, id: string)
    requires NotPending(s, id)
    ensures NotPending(Apply(s, e), id)
  {
    if Enabled(s, e) {
      match e
      case Create(_) =>
      case Delete(_) =>
      case Begin(_, _) =>
      case Find(_, _) =>
      case Mark(_, _) =>
      case Ask(_, _) =>
      case CacheResult(_, _) =>
      case Unmark(_, _) =>
      case Update(_, _) =>
      case Reread(_, _) =>
      case Notify(_, _) =>
      case CancelJob(_) =>
      case DropCached(_) =>
      case Tick(_) =>
    }
  }

  lemma {:induction false} DecisionSticks(s: State, more: seq<Event>, id: string)
    requires NotPending(s, id)
    ensures NotPending(Exec(s, more), id)
  {
    if more != [] {
      var n := |more| - 1;
      DecisionSticks(s, more[..n], id);
      NotPendingStep(Exec(s, more[..n]), more[n], id);
    }
  }

  /** Once decided, a content is never pending again, even if it is deleted in between. */
  lemma NeverPendingAgain(jobTimeout: nat, es: seq<Event>, more: seq<Event>, id: string)
    requires id in Exec(Empty(jobTimeout), es).rows
    requires Exec(Empty(jobTimeout), es).rows[id].status != Pending
    ensures
      var s := Exec(Exec(Empty(jobTimeout), es), more);
      id in s.rows ==> s.rows[id].status != Pending
  {
    var s := Exec(Empty(jobTimeout), es);
    RunKeepsSourced(jobTimeout, es);
    assert RowKnown(s.history, s.owners, id, s.rows[id]);
    DecisionSticks(s, more, id);
  }
}
