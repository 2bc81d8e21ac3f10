/**
  What single calls of the moderation workflow do, told from replies and rows:
  what a decided content is spared, which acknowledgements each phase rests on,
  which errors end a call, and that a row shows exactly the last write on it.
 */
module ModerationLaws {
  import opened Entities
  import opened Moderation
  import opened Provenance
  import opened Finality
  import opened Exclusion

  // ----- a decided content is not moderated again -----

  predicate TurnedAway(j: Job) {
    j.phase.Finding? || j.phase.Finished?
  }

  /** The calls for the content from index `from` on. */
  ghost predicate AllTurnedAway(s: State, from: nat, id: string) {
    forall i: nat :: from <= i < |s.jobs| && s.jobs[i].contentId == id ==> TurnedAway(s.jobs[i])
  }

  lemma TurnedAwayByFind(s: State, i: nat, failed: bool)
    requires Enabled(s, Find(i, failed)) && NotPending(s, s.jobs[i].contentId)
    ensures i < |Apply(s, Find(i, failed)).jobs| && Apply(s, Find(i, failed)).jobs[i].phase.Finished?
  {
  }

  lemma TurnedAwayStep(s: State, e: Event, from: nat, id: string)
    requires NotPending(s, id) && from <= |s.jobs| && AllTurnedAway(s, from, id)
    ensures from <= |Apply(s, e).jobs| && AllTurnedAway(Apply(s, e), from, id)
  {
    var s' := Apply(s, e);
    if e.Begin? {
      BeginGains(s, e);
    } else {
      JobsNumber(s, e);
      forall i: nat | from <= i < |s'.jobs| && s'.jobs[i].contentId == id
        ensures TurnedAway(s'.jobs[i])
      {
        JobsKept(s, e, i);
        if Actor(e) != Some(i) {
          OthersSpareJob(s, e, i);
        } else if Enabled(s, e) {
          assert e.Find?;
          TurnedAwayByFind(s, i, e.failed);
        }
      }
    }
  }

  /**
    Once a content is decided, no call begun afterwards gets past its lookup, in any
    continuation: it takes no key, asks no AI and writes nothing.
   */
  lemma {:induction false} DecidedNotModerated(s: State, more: seq<Event>, id: string)
    requires NotPending(s, id)
    ensures |s.jobs| <= |Exec(s, more).jobs| && AllTurnedAway(Exec(s, more), |s.jobs|, id)
  {
    if more != [] {
      var n := |more| - 1;
      DecidedNotModerated(s, more[..n], id);
      DecisionSticks(s, more[..n], id);
      TurnedAwayStep(Exec(s, more[..n]), more[n], |s.jobs|, id);
    }
  }

  // ----- what each phase rests on -----

  /** A lookup that found the content pending. */
  predicate SawPending(s: State, e: Event, i: nat) {
    && e == Find(i, false) && Enabled(s, e) && !Expired(s.jobs[i].deadline, s.now)
    && s.jobs[i].contentId != "" && s.jobs[i].contentId in s.rows && s.rows[s.jobs[i].contentId].status == Pending
  }

  /** An acknowledged set-if-absent of a free key. */
  predicate TookKey(s: State, e: Event, i: nat) {
    && e == Mark(i, Acked) && Enabled(s, e) && !Expired(s.jobs[i].deadline, s.now)
    && s.jobs[i].contentId !in s.keys
  }

  /** An acknowledged status write on a row. */
  predicate WroteRow(s: State, e: Event, i: nat) {
    && e == Update(i, Acked) && Enabled(s, e) && !Expired(s.jobs[i].deadline, s.now)
    && s.jobs[i].phase.result.contentId in s.rows
  }

  datatype Milestone = Found | Held | Written

  predicate Beyond(p: Phase, m: Milestone) {
    match m
    case Found => !p.Finding? && !p.Finished?
    case Held => !p.Finding? && !p.Finished? && !p.Marking?
    case Written => p.Rereading? || p.Notifying?
  }

  predicate Reaches(s: State, e: Event, i: nat, m: Milestone) {
    match m
    case Found => SawPending(s, e, i)
    case Held => TookKey(s, e, i)
    case Written => WroteRow(s, e, i)
  }

  lemma FindReaches(s: State, i: nat, failed: bool, m: Milestone)
    requires Enabled(s, Find(i, failed))
    requires i < |AfterFind(s, i, failed).jobs| && Beyond(AfterFind(s, i, failed).jobs[i].phase, m)
    ensures Reaches(s, Find(i, failed), i, m)
  {
  }

  lemma MarkReaches(s: State, i: nat, reply: Reply, m: Milestone)
    requires Enabled(s, Mark(i, reply))
    requires i < |AfterMark(s, i, reply).jobs| && Beyond(AfterMark(s, i, reply).jobs[i].phase, m)
    ensures Beyond(s.jobs[i].phase, m) || Reaches(s, Mark(i, reply), i, m)
  {
  }

  lemma AskingReaches(s: State, e: Event, m: Milestone)
    requires Enabled(s, e) && (e.Ask? || e.CacheResult? || e.Unmark?)
    requires e.i < |Apply(s, e).jobs| && Beyond(Apply(s, e).jobs[e.i].phase, m)
    ensures Beyond(s.jobs[e.i].phase, m)
  {
    match e
    case Ask(_, _) =>
    case CacheResult(_, _) =>
    case Unmark(_, _) =>
  }

  lemma HandlingReaches(s: State, e: Event, m: Milestone)
    requires Enabled(s, e) && (e.Update? || e.Reread? || e.Notify?)
    requires e.i < |Apply(s, e).jobs| && Beyond(Apply(s, e).jobs[e.i].phase, m)
    ensures Beyond(s.jobs[e.i].phase, m) || Reaches(s, e, e.i, m)
  {
    match e
    case Update(_, _) =>
    case Reread(_, _) =>
    case Notify(_, _) =>
  }

  lemma MilestoneStep(s: State, e: Event, i: nat, m: Milestone)
    requires i < |Apply(s, e).jobs| && Beyond(Apply(s, e).jobs[i].phase, m)
    ensures (i < |s.jobs| && Beyond(s.jobs[i].phase, m)) || Reaches(s, e, i, m)
  {
    if e.Begin? {
      BeginGains(s, e);
    } else {
      JobsNumber(s, e);
      if Actor(e) != Some(i) {
        OthersSpareJob(s, e, i);
      } else if Enabled(s, e) {
        if e.Find? {
          FindReaches(s, i, e.failed, m);
        } else if e.Mark? {
          MarkReaches(s, i, e.reply, m);
        } else if e.Ask? || e.CacheResult? || e.Unmark? {
          AskingReaches(s, e, m);
        } else {
          HandlingReaches(s, e, m);
        }
      }
    }
  }

  /** The milestone was reached at step `from` or later. */
  ghost predicate Reached(jobTimeout: nat, es: seq<Event>, i: nat, m: Milestone, from: nat) {
    exists k: nat :: from <= k && ReachedAt(jobTimeout, es, i, m, k)
  }

  predicate ReachedAt(jobTimeout: nat, es: seq<Event>, i: nat, m: Milestone, k: nat) {
    k < |es| && Reaches(Exec(Empty(jobTimeout), es[..k]), es[k], i, m)
  }

  lemma ReachedStays(jobTimeout: nat, es: seq<Event>, es': seq<Event>, i: nat, m: Milestone, from: nat)
    requires Reached(jobTimeout, es, i, m, from) && es <= es'
    ensures Reached(jobTimeout, es', i, m, from)
  {
    var k: nat :| from <= k && ReachedAt(jobTimeout, es, i, m, k);
    assert es'[..k] == es[..k];
    assert ReachedAt(jobTimeout, es', i, m, k);
  }

  lemma ReachedNow(jobTimeout: nat, es: seq<Event>, e: Event, i: nat, m: Milestone)
    requires Reaches(Exec(Empty(jobTimeout), es), e, i, m)
    ensures Reached(jobTimeout, es + [e], i, m, |es|)
  {
    assert (es + [e])[..|es|] == es;
    assert ReachedAt(jobTimeout, es + [e], i, m, |es|);
  }

  predicate BeyondAfter(jobTimeout: nat, es: seq<Event>, i: nat, m: Milestone) {
    i < |Exec(Empty(jobTimeout), es).jobs| && Beyond(Exec(Empty(jobTimeout), es).jobs[i].phase, m)
  }

  /**
    In every run, a call that has got past its lookup saw the content pending; one
    that has got past the key took it, acknowledged and free; one that is about to
    notify has had its status write acknowledged. And not before it got there.
   */
  lemma {:induction false} PhasesEarned(jobTimeout: nat, es: seq<Event>, i: nat, m: Milestone, from: nat)
    requires from <= |es| && !BeyondAfter(jobTimeout, es[..from], i, m) && BeyondAfter(jobTimeout, es, i, m)
    ensures Reached(jobTimeout, es, i, m, from)
  {
    assert es[..|es|] == es;
    var n := |es| - 1;
    var s := Exec(Empty(jobTimeout), es[..n]);
    assert es == es[..n] + [es[n]] && es[..n][..from] == es[..from];
    MilestoneStep(s, es[n], i, m);
    if BeyondAfter(jobTimeout, es[..n], i, m) {
      PhasesEarned(jobTimeout, es[..n], i, m, from);
      ReachedStays(jobTimeout, es[..n], es, i, m, from);
    } else {
      ReachedNow(jobTimeout, es[..n], es[n], i, m);
    }
  }

  /** Every acknowledged acquisition of a key, in every run, has been followed by a release, or still will be. */
  lemma AcquisitionReleased(jobTimeout: nat, es: seq<Event>, k: nat, i: nat)
    requires k < |es| && TookKey(Exec(Empty(jobTimeout), es[..k]), es[k], i)
    ensures MarkedAt(jobTimeout, es, |es|, i) || UnmarkedSince(es, k + 1, i)
  {
    assert es[..k + 1] == es[..k] + [es[k]];
    ExecAppend(Empty(jobTimeout), es[..k], es[k]);
    ReleaseAttempted(jobTimeout, es, k + 1, i);
  }

  // ----- errors -----

  /** A command that never ran, or whose context is done, changes no store and tells nobody. */
  lemma IneffectiveIsInert(s: State, e: Event)
    requires Enabled(s, e) && (e.Mark? || e.CacheResult? || e.Unmark? || e.Update? || e.Notify?)
    requires Expired(s.jobs[e.i].deadline, s.now) || e.reply == Dropped
    ensures
      var s' := Apply(s, e);
      s'.rows == s.rows && s'.keys == s.keys && s'.cached == s.cached && s'.history == s.history
  {
    match e
    case Mark(_, _) =>
    case CacheResult(_, _) =>
    case Unmark(_, _) =>
    case Update(_, _) =>
    case Notify(_, _) =>
  }

  /** A cancelled call's context is done at once; deleted contents and dropped results are gone. */
  lemma EnvironmentActs(s: State, e: Event)
    requires Enabled(s, e)
    ensures e.CancelJob? ==> e.i < |Apply(s, e).jobs| && Expired(Apply(s, e).jobs[e.i].deadline, Apply(s, e).now)
    ensures e.Delete? ==> Apply(s, e).rows == s.rows - {e.id}
    ensures e.DropCached? ==> Apply(s, e).cached == s.cached - {e.id}
  {
  }

  /** An error of the lookup, the key, the status write or the second lookup ends the call. */
  lemma ErrorsEndTheCall(s: State, e: Event)
    requires Enabled(s, e)
    requires
      || ((e.Find? || e.Reread?) && e.failed)
      || ((e.Mark? || e.Update?) && e.reply != Acked)
      || ((e.Find? || e.Mark? || e.Update? || e.Reread?) && Expired(s.jobs[e.i].deadline, s.now))
    ensures e.i < |Apply(s, e).jobs| && Apply(s, e).jobs[e.i].phase == Finished
  {
    match e
    case Find(_, _) =>
    case Mark(_, _) =>
    case Update(_, _) =>
    case Reread(_, _) =>
  }

  /** A failed AI call keeps nothing but the release to do. */
  lemma FailedAskOnlyReleases(s: State, i: nat, reply: Reply)
    requires Enabled(s, Ask(i, AIError))
    ensures
      var t := Apply(Apply(s, Ask(i, AIError)), Unmark(i, reply));
      t.jobs == s.jobs[i := s.jobs[i].(phase := Finished)] &&
      t.rows == s.rows && t.cached == s.cached && t.history == s.history
  {
    var asked := Apply(s, Ask(i, AIError));
    assert asked.jobs[i := asked.jobs[i].(phase := Finished)] == s.jobs[i := s.jobs[i].(phase := Finished)];
  }

  lemma AnswerIsKept(s: State, i: nat, raw: ModerationResult)
    requires Enabled(s, Ask(i, Answer(raw)))
    ensures
      var r := raw.(contentId := s.jobs[i].contentId);
      Apply(s, Ask(i, Answer(raw))) ==
        s.(jobs := s.jobs[i := s.jobs[i].(phase := Caching(r))], history := s.history + [Produced(r)])
  {
  }

  lemma CachedOrNot(s: State, i: nat, r: ModerationResult, reply: Reply)
    requires i < |s.jobs| && s.jobs[i].phase == Caching(r)
    ensures
      var t := Apply(s, CacheResult(i, reply));
      && t == s.(jobs := s.jobs[i := s.jobs[i].(phase := Unmarking(Some(r)))], cached := t.cached)
  {
  }

  /** Failing to cache the answer, or to release the key, loses no answer: a pool job goes on to write it. */
  lemma AnswerSurvives(s: State, i: nat, r: ModerationResult, cacheReply: Reply, unmarkReply: Reply)
    requires i < |s.jobs| && s.jobs[i].phase == Caching(r)
    ensures
      var t := Apply(Apply(s, CacheResult(i, cacheReply)), Unmark(i, unmarkReply));
      && |t.jobs| == |s.jobs|
      && t.jobs[i].phase == (if s.jobs[i].viaPool then Updating(r) else Finished)
      && t.rows == s.rows && t.history == s.history
  {
    CachedOrNot(s, i, r, cacheReply);
  }

  /** A content of an unsupported type gets no AI call. */
  predicate OnlyReleasing(p: Phase) {
    (p.Marking? && p.kind.Unsupported?) || p == Unmarking(None) || p.Finished?
  }

  lemma {:induction false} UnsupportedNeverAsked(s: State, more: seq<Event>, i: nat)
    requires i < |s.jobs| && OnlyReleasing(s.jobs[i].phase)
    ensures i < |Exec(s, more).jobs| && OnlyReleasing(Exec(s, more).jobs[i].phase)
  {
    if more != [] {
      var n := |more| - 1;
      UnsupportedNeverAsked(s, more[..n], i);
      OnlyReleasingStep(Exec(s, more[..n]), more[n], i);
    }
  }

  lemma OnlyReleasingStep(s: State, e: Event, i: nat)
    requires i < |s.jobs| && OnlyReleasing(s.jobs[i].phase)
    ensures i < |Apply(s, e).jobs| && OnlyReleasing(Apply(s, e).jobs[i].phase)
  {
    if Actor(e) != Some(i) {
      OthersSpareJob(s, e, i);
    } else if Enabled(s, e) {
      match e
      case Mark(_, _) =>
      case Unmark(_, _) =>
    }
  }

  // ----- handling a result, undisturbed -----

  lemma VerdictWritten(s: State, i: nat, r: ModerationResult)
    requires i < |s.jobs| && s.jobs[i].phase == Updating(r) && !Expired(s.jobs[i].deadline, s.now)
    requires r.contentId != "" && r.contentId in s.rows
    ensures Apply(s, Update(i, Acked)) ==
      s.(jobs := s.jobs[i := s.jobs[i].(phase := Rereading(r))],
         rows := s.rows[r.contentId := s.rows[r.contentId].(
           status := if r.isApproved then Approved else Rejected, moderationId := Some(r.id))],
         history := s.history + [Wrote(r)])
  {
  }

  lemma OwnerTold(s: State, i: nat, r: ModerationResult)
    requires i < |s.jobs| && s.jobs[i].phase == Rereading(r) && !Expired(s.jobs[i].deadline, s.now)
    requires r.contentId in s.rows && s.rows[r.contentId].userId != ""
    ensures
      var verdict := if r.isApproved then Approved else Rejected;
      Apply(Apply(s, Reread(i, false)), Notify(i, Acked)) ==
        s.(jobs := s.jobs[i := s.jobs[i].(phase := Finished)],
           history := s.history + [Notified(Notification(s.rows[r.contentId].userId, r.contentId, verdict))])
  {
    var read := s.(jobs := s.jobs[i := s.jobs[i].(phase := Notifying(r, s.rows[r.contentId].userId))]);
    assert Apply(s, Reread(i, false)) == read;
    assert read.jobs[i := read.jobs[i].(phase := Finished)] == s.jobs[i := s.jobs[i].(phase := Finished)];
  }

  /** An undisturbed handling writes the verdict and tells the content's owner of it. */
  lemma HandleRuns(s: State, i: nat, r: ModerationResult)
    requires i < |s.jobs| && s.jobs[i].phase == Updating(r) && !Expired(s.jobs[i].deadline, s.now)
    requires r.contentId != "" && r.contentId in s.rows && s.rows[r.contentId].userId != ""
    ensures
      var t := Apply(Apply(Apply(s, Update(i, Acked)), Reread(i, false)), Notify(i, Acked));
      var verdict := if r.isApproved then Approved else Rejected;
      && |t.jobs| == |s.jobs| && t.jobs[i].phase == Finished
      && t.rows == s.rows[r.contentId := s.rows[r.contentId].(status := verdict, moderationId := Some(r.id))]
      && t.history == s.history + [Wrote(r), Notified(Notification(s.rows[r.contentId].userId, r.contentId, verdict))]
      && t.keys == s.keys && t.cached == s.cached
  {
    VerdictWritten(s, i, r);
    OwnerTold(Apply(s, Update(i, Acked)), i, r);
  }

  /** A missing row, or an owner without an id, is an error: nobody is notified. */
  lemma NobodyToNotify(s: State, i: nat, failed: bool)
    requires Enabled(s, Reread(i, failed))
    requires
      var id := s.jobs[i].phase.result.contentId;
      id !in s.rows || s.rows[id].userId == ""
    ensures Apply(s, Reread(i, failed)).jobs[i].phase == Finished
  {
  }

  // ----- a row shows the last write on it -----

  function LastWrite(h: seq<Action>, id: string): Option<ModerationResult> {
    if h == [] then None else
    var a := h[|h| - 1];
    if a.Wrote? && a.result.contentId == id then Some(a.result) else LastWrite(h[..|h| - 1], id)
  }

  ghost predicate ShowsLast(h: seq<Action>, id: string, c: Content) {
    match LastWrite(h, id)
    case None => c.status == Pending && c.moderationId == None
    case Some(r) => c.status == (if r.isApproved then Approved else Rejected) && c.moderationId == Some(r.id)
  }

  ghost predicate WritesOnOwned(h: seq<Action>, owners: map<string, string>) {
    forall id :: LastWrite(h, id).Some? ==> id in owners
  }

  ghost predicate AllShowLast(s: State) {
    && WritesOnOwned(s.history, s.owners)
    && forall id :: id in s.rows ==> id in s.owners && ShowsLast(s.history, id, s.rows[id])
  }

  lemma LastWriteAppend(h: seq<Action>, a: Action, id: string)
    ensures LastWrite(h + [a], id) == if a.Wrote? && a.result.contentId == id then Some(a.result) else LastWrite(h, id)
  {
    assert (h + [a])[..|h|] == h;
  }

  /** Actions other than writes do not matter. */
  lemma OtherActions(s: State, s': State, a: Action)
    requires AllShowLast(s) && !a.Wrote?
    requires s'.rows == s.rows && s'.owners == s.owners && s'.history == s.history + [a]
    ensures AllShowLast(s')
  {
    forall id
      ensures LastWrite(s'.history, id) == LastWrite(s.history, id)
    {
      LastWriteAppend(s.history, a, id);
    }
  }

  lemma LastWritten(s: State, s': State, r: ModerationResult)
    requires AllShowLast(s) && r.contentId in s.rows && s'.owners == s.owners
    requires s'.history == s.history + [Wrote(r)]
    requires s'.rows == s.rows[r.contentId := s.rows[r.contentId].(
               status := if r.isApproved then Approved else Rejected, moderationId := Some(r.id))]
    ensures AllShowLast(s')
  {
    forall id
      ensures LastWrite(s'.history, id) == if id == r.contentId then Some(r) else LastWrite(s.history, id)
    {
      LastWriteAppend(s.history, Wrote(r), id);
    }
  }

  lemma UpdateWritesOrNot(s: State, i: nat, reply: Reply)
    requires Enabled(s, Update(i, reply))
    ensures
      var s', r := Apply(s, Update(i, reply)), s.jobs[i].phase.result;
      && s'.owners == s.owners
      && ((s'.rows == s.rows && s'.history == s.history) ||
          (&& r.contentId in s.rows && s'.history == s.history + [Wrote(r)]
           && s'.rows == s.rows[r.contentId := s.rows[r.contentId].(
                status := if r.isApproved then Approved else Rejected, moderationId := Some(r.id))]))
  {
  }

  lemma LastUpdate(s: State, i: nat, reply: Reply)
    requires AllShowLast(s) && Enabled(s, Update(i, reply))
    ensures AllShowLast(Apply(s, Update(i, reply)))
  {
    var s' := Apply(s, Update(i, reply));
    UpdateWritesOrNot(s, i, reply);
    if s'.history != s.history {
      LastWritten(s, s', s.jobs[i].phase.result);
    }
  }

  lemma LastAsk(s: State, i: nat, got: AIReply)
    requires AllShowLast(s) && Enabled(s, Ask(i, got))
    ensures AllShowLast(Apply(s, Ask(i, got)))
  {
    if got.Answer? {
      OtherActions(s, Apply(s, Ask(i, got)), Produced(got.result.(contentId := s.jobs[i].contentId)));
    }
  }

  lemma LastNotify(s: State, i: nat, reply: Reply)
    requires AllShowLast(s) && Enabled(s, Notify(i, reply))
    ensures AllShowLast(Apply(s, Notify(i, reply)))
  {
    var s' := Apply(s, Notify(i, reply));
    if s'.history != s.history {
      OtherActions(s, s', s'.history[|s.history|]);
    }
  }

  lemma LastCreate(s: State, c: Content)
    requires AllShowLast(s) && Enabled(s, Create(c))
    ensures AllShowLast(Apply(s, Create(c)))
  {
    assert LastWrite(s.history, c.id).None?;
  }

  predicate SameFacts(a: State, b: State) {
    a.rows == b.rows && a.owners == b.owners && a.history == b.history
  }

  lemma LookupsKeepFacts(s: State, e: Event)
    requires Enabled(s, e) && (e.Find? || e.Reread?)
    ensures SameFacts(s, Apply(s, e))
  {
    match e
    case Find(_, _) =>
    case Reread(_, _) =>
  }

  lemma KeysKeepFacts(s: State, e: Event)
    requires Enabled(s, e) && (e.Mark? || e.CacheResult? || e.Unmark?)
    ensures SameFacts(s, Apply(s, e))
  {
    match e
    case Mark(_, _) =>
    case CacheResult(_, _) =>
    case Unmark(_, _) =>
  }

  lemma EnvironmentKeepsFacts(s: State, e: Event)
    requires Enabled(s, e) && (e.Begin? || e.CancelJob? || e.DropCached? || e.Tick?)
    ensures SameFacts(s, Apply(s, e))
  {
  }

  lemma ShowsLastStep(s: State, e: Event)
    requires AllShowLast(s)
    ensures AllShowLast(Apply(s, e))
  {
    if Enabled(s, e) {
      match e
      case Create(c) => LastCreate(s, c);
      case Delete(_) =>
      case Ask(i, got) => LastAsk(s, i, got);
      case Update(i, reply) => LastUpdate(s, i, reply);
      case Notify(i, reply) => LastNotify(s, i, reply);
      case Begin(_, _) => EnvironmentKeepsFacts(s, e);
      case CancelJob(_) => EnvironmentKeepsFacts(s, e);
      case DropCached(_) => EnvironmentKeepsFacts(s, e);
      case Tick(_) => EnvironmentKeepsFacts(s, e);
      case Find(_, _) => LookupsKeepFacts(s, e);
      case Reread(_, _) => LookupsKeepFacts(s, e);
      case _ => KeysKeepFacts(s, e);
    }
  }

  /**
    In every run each content shows the verdict and the id of the last result
    written to it, and is pending exactly if none was.
   */
  lemma {:induction false} RowsShowLastWrite(jobTimeout: nat, es: seq<Event>)
    ensures AllShowLast(Exec(Empty(jobTimeout), es))
  {
    if es != [] {
      var n := |es| - 1;
      RowsShowLastWrite(jobTimeout, es[..n]);
      ShowsLastStep(Exec(Empty(jobTimeout), es[..n]), es[n]);
    }
  }
}
