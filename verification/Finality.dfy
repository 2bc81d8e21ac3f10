/**
  When a decided status is final. Two pool jobs for one content can both read it
  pending, one after the other, because the key is released before the status is
  written; the later write wins. A decision is final in all runs exactly when a
  content gets one job, or its AI answers carry one verdict.
 */
module Finality {
  import opened Entities
  import opened Moderation
  import opened Provenance

  /** ModerateContent from its call to its return, undisturbed; `i` is the job's index. */
  function Moderate(id: string, i: nat, r: ModerationResult): seq<Event> {
    [Begin(id, Pool), Find(i, false), Mark(i, Acked), Ask(i, Answer(r)), CacheResult(i, Acked), Unmark(i, Acked)]
  }

  lemma {:induction false} ExecConcat(s: State, a: seq<Event>, b: seq<Event>)
    ensures Exec(s, a + b) == Exec(Exec(s, a), b)
  {
    if b == [] {
      assert a + b == a;
    } else {
      var n := |b| - 1;
      ExecConcat(s, a, b[..n]);
      ExecAppend(s, a + b[..n], b[n]);
      ExecAppend(Exec(s, a), b[..n], b[n]);
      assert a + b[..n] + [b[n]] == a + b && b[..n] + [b[n]] == b;
    }
  }

  lemma ExecOne(s: State, e: Event)
    ensures Exec(s, [e]) == Apply(s, e)
  {
    assert [e][..0] == [];
    assert Exec(s, [e]) == Apply(Exec(s, []), e);
  }

  lemma SixSteps(s: State, e: seq<Event>)
    requires |e| == 6
    ensures Exec(s, e) == Apply(Apply(Apply(Apply(Apply(Apply(s, e[0]), e[1]), e[2]), e[3]), e[4]), e[5])
  {
    assert e == [e[0]] + [e[1]] + [e[2]] + [e[3]] + [e[4]] + [e[5]];
    ExecOne(s, e[0]);
    ExecAppend(s, [e[0]], e[1]);
    ExecAppend(s, [e[0]] + [e[1]], e[2]);
    ExecAppend(s, [e[0]] + [e[1]] + [e[2]], e[3]);
    ExecAppend(s, [e[0]] + [e[1]] + [e[2]] + [e[3]], e[4]);
    ExecAppend(s, [e[0]] + [e[1]] + [e[2]] + [e[3]] + [e[4]], e[5]);
  }

  /** A pending content whose key is free. */
  predicate Open(s: State, id: string) {
    id != "" && id in s.rows && s.rows[id].status == Pending && !s.rows[id].kind.Unsupported?
    && id !in s.keys && 0 < s.jobTimeout
  }

  function Answered(r: ModerationResult, id: string): ModerationResult {
    r.(contentId := id)
  }

  /** The state after an undisturbed ModerateContent: the content is still pending and its key free again. */
  function Moderated(s: State, id: string, r: ModerationResult): State {
    s.(jobs := s.jobs + [Job(id, true, At(s.now + s.jobTimeout), Updating(Answered(r, id)))],
       cached := s.cached[id := Answered(r, id)],
       history := s.history + [Produced(Answered(r, id))])
  }

  function Asked(s: State, id: string): State {
    s.(jobs := s.jobs + [Job(id, true, At(s.now + s.jobTimeout), Asking)],
       keys := s.keys[id := Key(|s.jobs|, s.now + IDEMPOTENCY_TTL)])
  }

  lemma ReachesAI(s: State, id: string)
    requires Open(s, id)
    ensures Apply(Apply(Apply(s, Begin(id, Pool)), Find(|s.jobs|, false)), Mark(|s.jobs|, Acked)) == Asked(s, id)
  {
    var i, j := |s.jobs|, NewJob(s, id, Pool);
    var kind := s.rows[id].kind;
    assert Apply(s, Begin(id, Pool)) == s.(jobs := s.jobs + [j]);
    var found := s.(jobs := s.jobs + [j.(phase := Marking(kind))]);
    assert Apply(s.(jobs := s.jobs + [j]), Find(i, false)) == found;
    assert found.jobs[i := found.jobs[i].(phase := Asking)] == s.jobs + [j.(phase := Asking)];
  }

  lemma ReturnsFromAI(s: State, id: string, r: ModerationResult)
    requires Open(s, id)
    ensures
      var i := |s.jobs|;
      Apply(Apply(Apply(Asked(s, id), Ask(i, Answer(r))), CacheResult(i, Acked)), Unmark(i, Acked)) == Moderated(s, id, r)
  {
    var i, r', asked := |s.jobs|, Answered(r, id), Asked(s, id);
    var j := asked.jobs[i];
    var produced := asked.(jobs := s.jobs + [j.(phase := Caching(r'))], history := s.history + [Produced(r')]);
    assert Apply(asked, Ask(i, Answer(r))) == produced;
    var stored := produced.(jobs := s.jobs + [j.(phase := Unmarking(Some(r')))], cached := s.cached[id := r']);
    assert Apply(produced, CacheResult(i, Acked)) == stored;
    assert stored.keys - {id} == s.keys;
    assert stored.jobs[i := stored.jobs[i].(phase := Updating(r'))] == s.jobs + [j.(phase := Updating(r'))];
  }

  lemma ModerateRuns(s: State, id: string, r: ModerationResult)
    requires Open(s, id)
    ensures Exec(s, Moderate(id, |s.jobs|, r)) == Moderated(s, id, r)
  {
    SixSteps(s, Moderate(id, |s.jobs|, r));
    ReachesAI(s, id);
    ReturnsFromAI(s, id, r);
  }

  /** A live job's status write takes effect whatever the status was. */
  lemma WriteWins(s: State, i: nat, r: ModerationResult)
    requires i < |s.jobs| && s.jobs[i].phase == Updating(r) && Live(s, s.jobs[i])
    requires r.contentId != "" && r.contentId in s.rows
    ensures
      var s' := Apply(s, Update(i, Acked));
      && r.contentId in s'.rows && s'.rows[r.contentId].status == Verdict(r)
      && s'.history == s.history + [Wrote(r)]
      && s'.now == s.now && s'.rows.Keys == s.rows.Keys
      && |s'.jobs| == |s.jobs| && forall k :: 0 <= k < |s.jobs| && k != i ==> s'.jobs[k] == s.jobs[k]
  {
  }

  /** From any state in which a content is open, two jobs can decide it in turn, the second one overruling the first. */
  function Overruling(id: string, i: nat, first: ModerationResult, second: ModerationResult): seq<Event> {
    Moderate(id, i, first) + Moderate(id, i + 1, second) + [Update(i, Acked)] + [Update(i + 1, Acked)]
  }

  lemma BothModerate(s: State, id: string, first: ModerationResult, second: ModerationResult)
    requires Open(s, id)
    ensures Exec(s, Moderate(id, |s.jobs|, first) + Moderate(id, |s.jobs| + 1, second))
         == Moderated(Moderated(s, id, first), id, second)
  {
    ModerateRuns(s, id, first);
    ModerateRuns(Moderated(s, id, first), id, second);
    ExecConcat(s, Moderate(id, |s.jobs|, first), Moderate(id, |s.jobs| + 1, second));
  }

  lemma BothWrite(s: State, id: string, first: ModerationResult, second: ModerationResult)
    requires Open(s, id)
    ensures
      var two := Moderated(Moderated(s, id, first), id, second);
      var s' := Apply(Apply(two, Update(|s.jobs|, Acked)), Update(|s.jobs| + 1, Acked));
      && s'.history == two.history + [Wrote(Answered(first, id)), Wrote(Answered(second, id))]
      && id in s'.rows && s'.rows[id].status == Verdict(second)
  {
    var two := Moderated(Moderated(s, id, first), id, second);
    WriteWins(two, |s.jobs|, Answered(first, id));
    WriteWins(Apply(two, Update(|s.jobs|, Acked)), |s.jobs| + 1, Answered(second, id));
  }

  lemma VerdictOverruled(s: State, id: string, first: ModerationResult, second: ModerationResult)
    requires Open(s, id)
    ensures
      var s' := Exec(s, Overruling(id, |s.jobs|, first, second));
      var a, b := Answered(first, id), Answered(second, id);
      && s'.history == s.history + [Produced(a), Produced(b), Wrote(a), Wrote(b)]
      && id in s'.rows && s'.rows[id].status == Verdict(second)
  {
    var i := |s.jobs|;
    var es := Moderate(id, i, first) + Moderate(id, i + 1, second);
    BothModerate(s, id, first, second);
    BothWrite(s, id, first, second);
    ExecAppend(s, es, Update(i, Acked));
    ExecAppend(s, es + [Update(i, Acked)], Update(i + 1, Acked));
  }

  // ----- when a decision is final -----

  /** A step changes a decided verdict: the content was decided before and is decided otherwise after. */
  predicate Overrules(s: State, e: Event, id: string) {
    && id in s.rows && s.rows[id].status != Pending
    && id in Apply(s, e).rows && Apply(s, e).rows[id].status != s.rows[id].status
  }

  /** A live job is about to write a verdict on a row that shows the opposite one. */
  predicate WritesOver(s: State, e: Event, id: string) {
    && e.Update? && Enabled(s, e) && Effective(s, s.jobs[e.i], e.reply)
    && s.jobs[e.i].phase.result.contentId == id && id != ""
    && id in s.rows && s.rows[id].status != Pending
    && s.rows[id].status != Verdict(s.jobs[e.i].phase.result)
  }

  /** Only such a write can change a decided status. */
  lemma OverrulesIff(s: State, e: Event, id: string)
    requires s.rows.Keys <= s.owners.Keys
    ensures Overrules(s, e, id) <==> WritesOver(s, e, id)
  {
    if !e.Create? && !e.Delete? && !e.Update? {
      RowsKept(s, e);
    }
  }

  /** In every run only such a write overrules, and it has an AI answer of its own. */
  lemma OverrulingWrite(jobTimeout: nat, es: seq<Event>, e: Event, id: string)
    requires Overrules(Exec(Empty(jobTimeout), es), e, id)
    ensures
      var s := Exec(Empty(jobTimeout), es);
      WritesOver(s, e, id) && s.jobs[e.i].contentId == id && Produced(s.jobs[e.i].phase.result) in s.history
  {
    var s := Exec(Empty(jobTimeout), es);
    RunKeepsSourced(jobTimeout, es);
    forall k | k in s.rows
      ensures k in s.owners
    {
      assert RowKnown(s.history, s.owners, k, s.rows[k]);
    }
    OverrulesIff(s, e, id);
    assert JobKnown(s.history, s.owners, s.jobs[e.i]);
  }

  const PENDING: Content := Content("", "u", Text, Pending, None)

  /** A content approved by one job, before a second job writes its own verdict. */
  function TwoJobs(id: string, first: ModerationResult, second: ModerationResult): seq<Event> {
    [Create(PENDING.(id := id))] + Moderate(id, 0, first) + Moderate(id, 1, second) + [Update(0, Acked)]
  }

  lemma TwoJobsOverrule(jobTimeout: nat, id: string, first: ModerationResult, second: ModerationResult)
    requires 0 < jobTimeout && id != "" && first.isApproved != second.isApproved
    ensures Overrules(Exec(Empty(jobTimeout), TwoJobs(id, first, second)), Update(1, Acked), id)
    ensures Exec(Empty(jobTimeout), TwoJobs(id, first, second)).history ==
      [Produced(Answered(first, id)), Produced(Answered(second, id)), Wrote(Answered(first, id))]
  {
    var s0 := Empty(jobTimeout);
    var s := Apply(s0, Create(PENDING.(id := id)));
    var both := Moderate(id, 0, first) + Moderate(id, 1, second);
    BothModerate(s, id, first, second);
    ExecOne(s0, Create(PENDING.(id := id)));
    ExecConcat(s0, [Create(PENDING.(id := id))], both);
    assert [Create(PENDING.(id := id))] + both + [Update(0, Acked)] == TwoJobs(id, first, second);
    ExecAppend(s0, [Create(PENDING.(id := id))] + both, Update(0, Acked));
    BothWrite(s, id, first, second);
    WriteWins(Moderated(Moderated(s, id, first), id, second), 0, Answered(first, id));
  }

  // ----- by the number of jobs -----

  /** How many pool jobs for the content a run has started. */
  function PoolJobs(es: seq<Event>, id: string): nat {
    if es == [] then 0 else
    PoolJobs(es[..|es| - 1], id) + if es[|es| - 1] == Begin(id, Pool) then 1 else 0
  }

  function CountJobs(jobs: seq<Job>, id: string): nat {
    if jobs == [] then 0 else
    CountJobs(jobs[..|jobs| - 1], id) + if IsPoolJob(jobs[|jobs| - 1], id) then 1 else 0
  }

  predicate IsPoolJob(j: Job, id: string) {
    j.viaPool && j.contentId == id
  }

  lemma {:induction false} SameJobs(a: seq<Job>, b: seq<Job>, id: string)
    requires |a| == |b| && forall i :: 0 <= i < |a| ==> IsPoolJob(a[i], id) == IsPoolJob(b[i], id)
    ensures CountJobs(a, id) == CountJobs(b, id)
  {
    if a != [] {
      SameJobs(a[..|a| - 1], b[..|b| - 1], id);
    }
  }

  /** Each pool job counted is another index. */
  lemma {:induction false} TwoIndices(jobs: seq<Job>, id: string, i: nat, k: nat)
    requires i < k < |jobs| && IsPoolJob(jobs[i], id) && IsPoolJob(jobs[k], id)
    ensures 2 <= CountJobs(jobs, id)
  {
    var n := |jobs| - 1;
    if k == n {
      OneIndex(jobs[..n], id, i);
    } else {
      TwoIndices(jobs[..n], id, i, k);
    }
  }

  lemma {:induction false} OneIndex(jobs: seq<Job>, id: string, i: nat)
    requires i < |jobs| && IsPoolJob(jobs[i], id)
    ensures 1 <= CountJobs(jobs, id)
  {
    if i < |jobs| - 1 {
      OneIndex(jobs[..|jobs| - 1], id, i);
    }
  }

  predicate SameErrand(a: Job, b: Job) {
    a.contentId == b.contentId && a.viaPool == b.viaPool
  }

  lemma TakingKeepsErrand(s: State, e: Event)
    requires Enabled(s, e) && (e.Find? || e.Mark?)
    ensures e.i < |Apply(s, e).jobs| && SameErrand(s.jobs[e.i], Apply(s, e).jobs[e.i])
  {
    match e
    case Find(_, _) =>
    case Mark(_, _) =>
  }

  lemma AskingKeepsErrand(s: State, e: Event)
    requires Enabled(s, e) && (e.Ask? || e.CacheResult?)
    ensures e.i < |Apply(s, e).jobs| && SameErrand(s.jobs[e.i], Apply(s, e).jobs[e.i])
  {
    match e
    case Ask(_, _) =>
    case CacheResult(_, _) =>
  }

  lemma WritingKeepsErrand(s: State, e: Event)
    requires Enabled(s, e) && (e.Unmark? || e.Update?)
    ensures e.i < |Apply(s, e).jobs| && SameErrand(s.jobs[e.i], Apply(s, e).jobs[e.i])
  {
    match e
    case Unmark(_, _) =>
    case Update(_, _) =>
  }

  lemma TellingKeepsErrand(s: State, e: Event)
    requires Enabled(s, e) && (e.Reread? || e.Notify?)
    ensures e.i < |Apply(s, e).jobs| && SameErrand(s.jobs[e.i], Apply(s, e).jobs[e.i])
  {
    match e
    case Reread(_, _) =>
    case Notify(_, _) =>
  }

  /** No step changes what a job is for, or its being a pool job. */
  lemma JobsKept(s: State, e: Event, i: nat)
    requires i < |s.jobs|
    ensures i < |Apply(s, e).jobs| && SameErrand(s.jobs[i], Apply(s, e).jobs[i])
  {
    if Actor(e) != Some(i) {
      OthersSpareJob(s, e, i);
    } else if Enabled(s, e) {
      if e.Find? || e.Mark? {
        TakingKeepsErrand(s, e);
      } else if e.Ask? || e.CacheResult? {
        AskingKeepsErrand(s, e);
      } else if e.Unmark? || e.Update? {
        WritingKeepsErrand(s, e);
      } else {
        TellingKeepsErrand(s, e);
      }
    }
  }

  lemma BeginGains(s: State, e: Event)
    requires e.Begin?
    ensures Apply(s, e).jobs == s.jobs + [NewJob(s, e.contentId, e.caller)]
  {
  }

  lemma JobsNumber(s: State, e: Event)
    requires !e.Begin?
    ensures |Apply(s, e).jobs| == |s.jobs|
  {
    if Enabled(s, e) {
      match e
      case Create(_) =>
      case Delete(_) =>
      case Find(_, _) =>
      case Mark(_, _) =>
      case Ask(_, _) =>
      case CacheResult(_, _) =>
      case Unmark(_, _) =>
      case Update(_, _) =>
      case Reread(_, _) =>
      case Notify(_, _) =>
      case CancelJob(_) =>
      case DropCached(_) =>
      case Tick(_) =>
    }
  }

  lemma CountStep(s: State, e: Event, id: string)
    ensures CountJobs(Apply(s, e).jobs, id) == CountJobs(s.jobs, id) + if e == Begin(id, Pool) then 1 else 0
  {
    var jobs' := Apply(s, e).jobs;
    if e.Begin? {
      BeginGains(s, e);
      assert jobs'[..|s.jobs|] == s.jobs;
    } else {
      JobsNumber(s, e);
      forall i | 0 <= i < |s.jobs|
        ensures IsPoolJob(jobs'[i], id) == IsPoolJob(s.jobs[i], id)
      {
        JobsKept(s, e, i);
      }
      SameJobs(s.jobs, jobs', id);
    }
  }

  lemma {:induction false} RunCountsJobs(jobTimeout: nat, es: seq<Event>, id: string)
    ensures CountJobs(Exec(Empty(jobTimeout), es).jobs, id) == PoolJobs(es, id)
  {
    if es != [] {
      var n := |es| - 1;
      RunCountsJobs(jobTimeout, es[..n], id);
      CountStep(Exec(Empty(jobTimeout), es[..n]), es[n], id);
    }
  }

  /** The job's status write is behind it. */
  predicate Past(j: Job) {
    j.phase.Rereading? || j.phase.Notifying? || j.phase.Finished?
  }

  ghost predicate WritersArePool(s: State) {
    forall i: nat :: i < |s.jobs| && s.jobs[i].phase.Updating? ==> s.jobs[i].viaPool
  }

  predicate HasWritten(s: State, i: nat, id: string) {
    i < |s.jobs| && IsPoolJob(s.jobs[i], id) && Past(s.jobs[i])
  }

  /** A decided row has a pool job of its own that is past its write. */
  ghost predicate Credited(s: State, id: string) {
    id in s.rows && s.rows[id].status != Pending ==> exists i: nat :: HasWritten(s, i, id)
  }

  lemma PastStays(s: State, e: Event, i: nat, id: string)
    requires HasWritten(s, i, id)
    ensures HasWritten(Apply(s, e), i, id)
  {
    JobsKept(s, e, i);
    if Actor(e) != Some(i) {
      OthersSpareJob(s, e, i);
    } else if Enabled(s, e) {
      match e
      case Reread(_, _) =>
      case Notify(_, _) =>
    }
  }

  lemma AskingNotWriting(s: State, e: Event)
    requires Enabled(s, e) && (e.Find? || e.Mark? || e.Ask? || e.CacheResult?)
    ensures e.i < |Apply(s, e).jobs| && !Apply(s, e).jobs[e.i].phase.Updating?
  {
    match e
    case Find(_, _) =>
    case Mark(_, _) =>
    case Ask(_, _) =>
    case CacheResult(_, _) =>
  }

  lemma HandlingNotWriting(s: State, e: Event)
    requires Enabled(s, e) && (e.Update? || e.Reread? || e.Notify?)
    ensures e.i < |Apply(s, e).jobs| && !Apply(s, e).jobs[e.i].phase.Updating?
  {
    match e
    case Update(_, _) =>
    case Reread(_, _) =>
    case Notify(_, _) =>
  }

  /** Only the release of a pool job's key leads to its write. */
  lemma ReachesWrite(s: State, e: Event)
    requires Enabled(s, e) && Actor(e).Some?
    requires e.i < |Apply(s, e).jobs| && Apply(s, e).jobs[e.i].phase.Updating?
    ensures e.i < |s.jobs| && s.jobs[e.i].viaPool
  {
    if e.Find? || e.Mark? || e.Ask? || e.CacheResult? {
      AskingNotWriting(s, e);
    } else if !e.Unmark? {
      HandlingNotWriting(s, e);
    }
  }

  lemma WritersStayPool(s: State, e: Event)
    requires WritersArePool(s)
    ensures WritersArePool(Apply(s, e))
  {
    var s' := Apply(s, e);
    if e.Begin? {
      BeginGains(s, e);
    } else {
      JobsNumber(s, e);
      forall i: nat | i < |s'.jobs| && s'.jobs[i].phase.Updating?
        ensures s'.jobs[i].viaPool
      {
        WriterIsPool(s, e, i);
      }
    }
  }

  lemma WriterIsPool(s: State, e: Event, i: nat)
    requires WritersArePool(s) && i < |s.jobs|
    requires i < |Apply(s, e).jobs| && Apply(s, e).jobs[i].phase.Updating?
    ensures Apply(s, e).jobs[i].viaPool
  {
    JobsKept(s, e, i);
    if Actor(e) != Some(i) {
      OthersSpareJob(s, e, i);
    } else if Enabled(s, e) {
      ReachesWrite(s, e);
    }
  }

  lemma RowsKept(s: State, e: Event)
    requires !e.Create? && !e.Delete? && !e.Update?
    ensures Apply(s, e).rows == s.rows
  {
    if Enabled(s, e) {
      match e
      case Begin(_, _) =>
      case Find(_, _) =>
      case Mark(_, _) =>
      case Ask(_, _) =>
      case CacheResult(_, _) =>
      case Unmark(_, _) =>
      case Reread(_, _) =>
      case Notify(_, _) =>
      case CancelJob(_) =>
      case DropCached(_) =>
      case Tick(_) =>
    }
  }

  /** A row that a step decides was written by the acting job. */
  lemma DecidedByWrite(s: State, e: Event, id: string)
    requires id in Apply(s, e).rows && Apply(s, e).rows[id].status != Pending
    requires id in s.rows ==> s.rows[id].status == Pending
    ensures e.Update? && Enabled(s, e) && s.jobs[e.i].phase.result.contentId == id
    ensures e.i < |Apply(s, e).jobs| && Past(Apply(s, e).jobs[e.i])
  {
    if !e.Create? && !e.Delete? && !e.Update? {
      RowsKept(s, e);
    }
  }

  lemma CreditStep(s: State, e: Event, id: string)
    requires Sourced(s) && WritersArePool(s) && Credited(s, id)
    ensures Credited(Apply(s, e), id)
  {
    var s' := Apply(s, e);
    if id in s'.rows && s'.rows[id].status != Pending {
      if id in s.rows && s.rows[id].status != Pending {
        var i: nat :| HasWritten(s, i, id);
        PastStays(s, e, i, id);
      } else {
        DecidedByWrite(s, e, id);
        assert JobKnown(s.history, s.owners, s.jobs[e.i]);
        JobsKept(s, e, e.i);
        assert HasWritten(s', e.i, id);
      }
    }
  }

  lemma {:induction false} RunKeepsCredit(jobTimeout: nat, es: seq<Event>, id: string)
    ensures WritersArePool(Exec(Empty(jobTimeout), es)) && Credited(Exec(Empty(jobTimeout), es), id)
  {
    if es != [] {
      var n := |es| - 1;
      var s := Exec(Empty(jobTimeout), es[..n]);
      RunKeepsCredit(jobTimeout, es[..n], id);
      RunKeepsSourced(jobTimeout, es[..n]);
      WritersStayPool(s, es[n]);
      CreditStep(s, es[n], id);
    }
  }

  /** The job that decided and the one about to overrule are two. */
  lemma WriterAndPast(s: State, i: nat, k: nat, id: string)
    requires HasWritten(s, i, id)
    requires k < |s.jobs| && IsPoolJob(s.jobs[k], id) && s.jobs[k].phase.Updating?
    ensures 2 <= CountJobs(s.jobs, id)
  {
    if i < k {
      TwoIndices(s.jobs, id, i, k);
    } else {
      TwoIndices(s.jobs, id, k, i);
    }
  }

  /** Overruling a decision takes a second pool job for the content. */
  lemma OverrulingNeedsTwoJobs(jobTimeout: nat, es: seq<Event>, e: Event, id: string)
    requires Overrules(Exec(Empty(jobTimeout), es), e, id)
    ensures 2 <= PoolJobs(es, id)
  {
    var s := Exec(Empty(jobTimeout), es);
    OverrulingWrite(jobTimeout, es, e, id);
    RunKeepsCredit(jobTimeout, es, id);
    RunCountsJobs(jobTimeout, es, id);
    var i: nat :| HasWritten(s, i, id);
    WriterAndPast(s, i, e.i, id);
  }

  lemma {:induction false} PoolJobsConcat(a: seq<Event>, b: seq<Event>, id: string)
    ensures PoolJobs(a + b, id) == PoolJobs(a, id) + PoolJobs(b, id)
  {
    if b == [] {
      assert a + b == a;
    } else {
      var n := |b| - 1;
      PoolJobsConcat(a, b[..n], id);
      assert (a + b)[..|a| + n] == a + b[..n];
    }
  }

  lemma OnePoolJob(id: string, i: nat, r: ModerationResult)
    ensures PoolJobs(Moderate(id, i, r), id) == 1
  {
    var rest := [Find(i, false), Mark(i, Acked), Ask(i, Answer(r)), CacheResult(i, Acked), Unmark(i, Acked)];
    NoPoolJobs(rest, id);
    PoolJobsConcat([Begin(id, Pool)], rest, id);
    assert Moderate(id, i, r) == [Begin(id, Pool)] + rest;
  }

  lemma {:induction false} NoPoolJobs(es: seq<Event>, id: string)
    requires forall k :: 0 <= k < |es| ==> !es[k].Begin?
    ensures PoolJobs(es, id) == 0
  {
    if es != [] {
      NoPoolJobs(es[..|es| - 1], id);
    }
  }

  lemma TwoPoolJobs(id: string, first: ModerationResult, second: ModerationResult)
    ensures PoolJobs(TwoJobs(id, first, second), id) == 2
  {
    var head := [Create(PENDING.(id := id))];
    var tail := [Update(0, Acked)];
    NoPoolJobs(head, id);
    NoPoolJobs(tail, id);
    OnePoolJob(id, 0, first);
    OnePoolJob(id, 1, second);
    PoolJobsConcat(head, Moderate(id, 0, first), id);
    PoolJobsConcat(head + Moderate(id, 0, first), Moderate(id, 1, second), id);
    PoolJobsConcat(head + Moderate(id, 0, first) + Moderate(id, 1, second), tail, id);
  }

  const YES: ModerationResult := ModerationResult("y", "", true, [])
  const NO: ModerationResult := ModerationResult("n", "", false, [])

  /** No step of any run with at most `n` pool jobs for a content overrules its decision, exactly when n <= 1. */
  lemma FinalIffLoneJob(jobTimeout: nat, id: string, n: nat)
    requires 0 < jobTimeout && id != ""
    ensures (forall es, e :: PoolJobs(es, id) <= n ==> !Overrules(Exec(Empty(jobTimeout), es), e, id)) <==> n <= 1
  {
    if n <= 1 {
      forall es, e | PoolJobs(es, id) <= n
        ensures !Overrules(Exec(Empty(jobTimeout), es), e, id)
      {
        if Overrules(Exec(Empty(jobTimeout), es), e, id) {
          OverrulingNeedsTwoJobs(jobTimeout, es, e, id);
        }
      }
    } else {
      TwoJobsOverrule(jobTimeout, id, YES, NO);
      TwoPoolJobs(id, YES, NO);
    }
  }

  // ----- by the AI's answers -----

  /** Every AI answer for the content has one of the allowed verdicts. */
  ghost predicate AnswersWithin(h: seq<Action>, id: string, allowed: set<bool>) {
    forall a :: a in h && a.Produced? && a.result.contentId == id ==> a.result.isApproved in allowed
  }

  /** A decision can be overruled only if the AI gave both verdicts for the content. */
  lemma OverrulingNeedsBothVerdicts(jobTimeout: nat, es: seq<Event>, e: Event, id: string, allowed: set<bool>)
    requires Overrules(Exec(Empty(jobTimeout), es), e, id)
    requires AnswersWithin(Exec(Empty(jobTimeout), es).history, id, allowed)
    ensures true in allowed && false in allowed
  {
    var s := Exec(Empty(jobTimeout), es);
    OverrulingWrite(jobTimeout, es, e, id);
    StatusFromAI(jobTimeout, es, id);
    var r :| Produced(r) in s.history && r.contentId == id
             && s.rows[id].status == if r.isApproved then Approved else Rejected;
    var r' := s.jobs[e.i].phase.result;
    assert Produced(r).result.isApproved in allowed && Produced(r').result.isApproved in allowed;
  }

  /**
    Whatever the number of jobs: a decision is final in all runs whose AI answers
    for the content have an allowed verdict, exactly when not both are allowed.
   */
  lemma FinalIffOneVerdict(jobTimeout: nat, id: string, allowed: set<bool>)
    requires 0 < jobTimeout && id != ""
    ensures (forall es, e :: AnswersWithin(Exec(Empty(jobTimeout), es).history, id, allowed)
                             ==> !Overrules(Exec(Empty(jobTimeout), es), e, id))
        <==> !(true in allowed && false in allowed)
  {
    if true in allowed && false in allowed {
      TwoJobsOverrule(jobTimeout, id, YES, NO);
      assert AnswersWithin(Exec(Empty(jobTimeout), TwoJobs(id, YES, NO)).history, id, allowed);
    } else {
      forall es, e | AnswersWithin(Exec(Empty(jobTimeout), es).history, id, allowed)
        ensures !Overrules(Exec(Empty(jobTimeout), es), e, id)
      {
        if Overrules(Exec(Empty(jobTimeout), es), e, id) {
          OverrulingNeedsBothVerdicts(jobTimeout, es, e, id, allowed);
        }
      }
    }
  }
}
