/**
  Delivery of moderation jobs from the stream, and the dead-letter monitor. The
  server may redeliver a message at any time until it is acknowledged or has been
  delivered MAX_DELIVER times, so several callbacks can run for one message; its
  timers are not modelled. The n-th message of the stream has number n + 1.
 */
module Delivery {
  import opened Entities

  const MAX_DELIVER: nat := 3
  const JOBS: string := "MODERATION_JOBS"

  type Job = string

  datatype Standing = Awaiting | Settled | Exhausted

  /** `job` is what the data decodes to, if it is well formed. */
  datatype Message = Message(data: string, job: Option<Job>, deliveries: nat, standing: Standing)

  datatype Answer = Ack | Nak

  datatype Stage =
    | Decoding
    | Offering(job: Job)         // in the pool handler's select
    | Replying(answer: Answer)
    | Replied(answer: Answer)

  /** One run of the delivery callback; `queued` says its job entered the pool's queue. */
  datatype Callback = Callback(message: nat, stage: Stage, queued: bool)

  /** What a callback did, in order. */
  datatype Deed = Handed(job: Job) | Answered(answer: Answer)

  datatype Record = Record(callback: nat, deed: Deed)

  /** The advisory of the server; None does not parse. */
  datatype Notice = Notice(stream: string, number: nat)

  datatype DeadLetter = DeadLetter(data: string, stream: string, number: nat)

  datatype State = State(
    stream: seq<Message>,
    callbacks: seq<Callback>,
    records: seq<Record>,
    notices: seq<Option<Notice>>,
    letters: seq<DeadLetter>)

  datatype Event =
    | Publish(data: string, job: Option<Job>)
    | Deliver(n: nat)
    | Decode(k: nat)
    | Push(k: nat)
    | Refuse(k: nat)
    | Send(k: nat, lost: bool)
    | GiveUp(n: nat)
    | Stray(notice: Option<Notice>)
    | Monitor(m: nat, fetched: bool, reply: Reply)

  /** The callback whose program takes the step, if any does. */
  function Actor(e: Event): Option<nat> {
    match e
    case Decode(k) => Some(k)
    case Push(k) => Some(k)
    case Refuse(k) => Some(k)
    case Send(k, _) => Some(k)
    case _ => None
  }

  /** The monitor's checks of an advisory. */
  predicate Complete(notice: Option<Notice>) {
    notice.Some? && notice.value.stream != "" && notice.value.number != 0
  }

  predicate Enabled(s: State, e: Event) {
    match e
    case Publish(_, _) => true
    case Deliver(n) => n < |s.stream| && s.stream[n].standing.Awaiting? && s.stream[n].deliveries < MAX_DELIVER
    case Decode(k) => k < |s.callbacks| && s.callbacks[k].stage.Decoding?
    case Push(k) => k < |s.callbacks| && s.callbacks[k].stage.Offering?
    case Refuse(k) => k < |s.callbacks| && s.callbacks[k].stage.Offering?
    case Send(k, _) => k < |s.callbacks| && s.callbacks[k].stage.Replying?
    case GiveUp(n) => n < |s.stream| && s.stream[n].standing.Awaiting? && s.stream[n].deliveries == MAX_DELIVER
    case Stray(notice) => !Complete(notice)
    case Monitor(m, _, _) => m < |s.notices|
  }

  function Put(s: State, k: nat, c: Callback): State
    requires k < |s.callbacks|
  {
    s.(callbacks := s.callbacks[k := c])
  }

  function AfterDecode(s: State, k: nat): State
    requires k < |s.callbacks|
  {
    var c := s.callbacks[k];
    var job := if c.message < |s.stream| then s.stream[c.message].job else None;
    Put(s, k, c.(stage := if job.None? then Replying(Nak) else Offering(job.value)))
  }

  function AfterPush(s: State, k: nat): State
    requires k < |s.callbacks| && s.callbacks[k].stage.Offering?
  {
    var c := s.callbacks[k];
    Put(s.(records := s.records + [Record(k, Handed(c.stage.job))]), k, c.(stage := Replying(Ack), queued := true))
  }

  /** The answer leaves; an Ack that arrives in time settles the message. */
  function AfterSend(s: State, k: nat, lost: bool): State
    requires k < |s.callbacks| && s.callbacks[k].stage.Replying?
  {
    var c := s.callbacks[k];
    var a := c.stage.answer;
    var n := c.message;
    var s' := if a.Ack? && !lost && n < |s.stream| && s.stream[n].standing.Awaiting?
              then s.(stream := s.stream[n := s.stream[n].(standing := Settled)]) else s;
    Put(s'.(records := s.records + [Record(k, Answered(a))]), k, c.(stage := Replied(a)))
  }

  function AfterMonitor(s: State, m: nat, fetched: bool, reply: Reply): State
    requires m < |s.notices|
  {
    var notice := s.notices[m];
    if !Complete(notice) || !fetched || reply == Dropped then s else
    var v := notice.value;
    if v.stream != JOBS || v.number > |s.stream| then s
    else s.(letters := s.letters + [DeadLetter(s.stream[v.number - 1].data, v.stream, v.number)])
  }

  function Apply(s: State, e: Event): State {
    if !Enabled(s, e) then s else
    match e
    case Publish(data, job) => s.(stream := s.stream + [Message(data, job, 0, Awaiting)])
    case Deliver(n) =>
      s.(stream := s.stream[n := s.stream[n].(deliveries := s.stream[n].deliveries + 1)],
         callbacks := s.callbacks + [Callback(n, Decoding, false)])
    case Decode(k) => AfterDecode(s, k)
    case Push(k) => AfterPush(s, k)
    case Refuse(k) => Put(s, k, s.callbacks[k].(stage := Replying(Nak)))
    case Send(k, lost) => AfterSend(s, k, lost)
    case GiveUp(n) =>
      s.(stream := s.stream[n := s.stream[n].(standing := Exhausted)],
         notices := s.notices + [Some(Notice(JOBS, n + 1))])
    case Stray(notice) => s.(notices := s.notices + [notice])
    case Monitor(m, fetched, reply) => AfterMonitor(s, m, fetched, reply)
  }

  function Exec(s: State, es: seq<Event>): State {
    if es == [] then s else Apply(Exec(s, es[..|es| - 1]), es[|es| - 1])
  }

  const EMPTY: State := State([], [], [], [], [])

  // ----- one answer per callback -----

  /** What callback `k` did, in order. */
  function DeedsOf(records: seq<Record>, k: nat): seq<Deed> {
    if records == [] then [] else
    var last := records[|records| - 1];
    DeedsOf(records[..|records| - 1], k) + if last.callback == k then [last.deed] else []
  }

  lemma DeedsAppend(records: seq<Record>, r: Record, k: nat)
    ensures DeedsOf(records + [r], k) == DeedsOf(records, k) + if r.callback == k then [r.deed] else []
  {
    assert (records + [r])[..|records|] == records;
  }

  /** All that a callback for a message with this job does up to its present stage. */
  function Script(c: Callback, job: Option<Job>): seq<Deed> {
    (if c.queued && job.Some? then [Handed(job.value)] else []) +
    (if c.stage.Replied? then [Answered(c.stage.answer)] else [])
  }

  ghost predicate CallbackSound(s: State, k: nat)
    requires k < |s.callbacks|
  {
    var c := s.callbacks[k];
    && c.message < |s.stream|
    && var job := s.stream[c.message].job;
    && DeedsOf(s.records, k) == Script(c, job)
    && match c.stage
       case Decoding => !c.queued
       case Offering(j) => !c.queued && job == Some(j)
       case Replying(a) => (a.Ack? <==> c.queued) && (c.queued ==> job.Some?)
       case Replied(a) => (a.Ack? <==> c.queued) && (c.queued ==> job.Some?)
  }

  ghost predicate RecordsKnown(s: State) {
    forall i :: 0 <= i < |s.records| ==> s.records[i].callback < |s.callbacks|
  }

  ghost predicate CallbacksSound(s: State) {
    RecordsKnown(s) && forall k: nat :: k < |s.callbacks| ==> CallbackSound(s, k)
  }

  lemma {:induction false} NoDeedsYet(records: seq<Record>, k: nat)
    requires forall i :: 0 <= i < |records| ==> records[i].callback < k
    ensures DeedsOf(records, k) == []
  {
    if records != [] {
      NoDeedsYet(records[..|records| - 1], k);
    }
  }

  /** The messages before are the messages after, up to deliveries and standing. */
  ghost predicate SameMail(a: seq<Message>, b: seq<Message>) {
    |a| <= |b| && forall n :: 0 <= n < |a| ==> b[n].data == a[n].data && b[n].job == a[n].job
  }

  lemma MailKept(s: State, e: Event)
    ensures SameMail(s.stream, Apply(s, e).stream)
  {
    match e
    case Publish(_, _) =>
    case Deliver(_) =>
    case Decode(_) =>
    case Push(_) =>
    case Refuse(_) =>
    case Send(_, _) =>
    case GiveUp(_) =>
    case Stray(_) =>
    case Monitor(_, _, _) =>
  }

  /** A step without a callback of its own leaves the existing ones, and the records, alone. */
  lemma OthersSpared(s: State, e: Event, k: nat)
    requires k < |s.callbacks| && Actor(e) != Some(k)
    ensures k < |Apply(s, e).callbacks| && Apply(s, e).callbacks[k] == s.callbacks[k]
    ensures DeedsOf(Apply(s, e).records, k) == DeedsOf(s.records, k)
  {
    if Enabled(s, e) {
      match e
      case Publish(_, _) =>
      case Deliver(_) =>
      case Decode(_) =>
      case Push(i) => DeedsAppend(s.records, Record(i, Handed(s.callbacks[i].stage.job)), k);
      case Refuse(_) =>
      case Send(i, _) => DeedsAppend(s.records, Record(i, Answered(s.callbacks[i].stage.answer)), k);
      case GiveUp(_) =>
      case Stray(_) =>
      case Monitor(_, _, _) =>
    }
  }

  lemma OwnStep(s: State, e: Event, k: nat)
    requires CallbacksSound(s) && k < |s.callbacks| && Actor(e) == Some(k) && Enabled(s, e)
    ensures k < |Apply(s, e).callbacks| && CallbackSound(Apply(s, e), k)
  {
    assert CallbackSound(s, k);
    MailKept(s, e);
    match e
    case Decode(_) =>
    case Push(_) => DeedsAppend(s.records, Record(k, Handed(s.callbacks[k].stage.job)), k);
    case Refuse(_) =>
    case Send(_, _) => DeedsAppend(s.records, Record(k, Answered(s.callbacks[k].stage.answer)), k);
  }

  lemma RecordsStay(s: State, e: Event)
    requires RecordsKnown(s)
    ensures RecordsKnown(Apply(s, e))
  {
  }

  lemma CallbacksStep(s: State, e: Event)
    requires CallbacksSound(s)
    ensures CallbacksSound(Apply(s, e))
  {
    var s' := Apply(s, e);
    RecordsStay(s, e);
    MailKept(s, e);
    forall k: nat | k < |s'.callbacks|
      ensures CallbackSound(s', k)
    {
      if k < |s.callbacks| {
        assert CallbackSound(s, k);
        if Actor(e) == Some(k) && Enabled(s, e) {
          OwnStep(s, e, k);
        } else if Enabled(s, e) {
          OthersSpared(s, e, k);
        }
      } else {
        NoDeedsYet(s.records, k);
      }
    }
  }

  lemma {:induction false} RunKeepsCallbacks(es: seq<Event>)
    ensures CallbacksSound(Exec(EMPTY, es))
  {
    if es != [] {
      var n := |es| - 1;
      RunKeepsCallbacks(es[..n]);
      CallbacksStep(Exec(EMPTY, es[..n]), es[n]);
    }
  }

  /**
    A callback that has completed handed its message's job to the queue once and
    then acknowledged once, or handed over nothing and refused once.
   */
  lemma AnsweredOnce(es: seq<Event>, k: nat)
    requires k < |Exec(EMPTY, es).callbacks| && Exec(EMPTY, es).callbacks[k].stage.Replied?
    ensures
      var s := Exec(EMPTY, es);
      var c := s.callbacks[k];
      && c.message < |s.stream|
      && DeedsOf(s.records, k) ==
           match s.stream[c.message].job
           case Some(job) => if c.queued then [Handed(job), Answered(Ack)] else [Answered(Nak)]
           case None => [Answered(Nak)]
  {
    RunKeepsCallbacks(es);
    ScriptEnds(Exec(EMPTY, es), k);
  }

  lemma ScriptEnds(s: State, k: nat)
    requires k < |s.callbacks| && CallbackSound(s, k) && s.callbacks[k].stage.Replied?
    ensures
      var c := s.callbacks[k];
      DeedsOf(s.records, k) ==
        match s.stream[c.message].job
        case Some(job) => if c.queued then [Handed(job), Answered(Ack)] else [Answered(Nak)]
        case None => [Answered(Nak)]
  {
  }

  // ----- the redelivery limit and the dead letters -----

  function CallbacksOf(cs: seq<Callback>, n: nat): nat {
    if cs == [] then 0 else
    CallbacksOf(cs[..|cs| - 1], n) + if cs[|cs| - 1].message == n then 1 else 0
  }

  /** How often the job of message `n` entered the pool's queue. */
  function TimesQueued(cs: seq<Callback>, n: nat): nat {
    if cs == [] then 0 else
    TimesQueued(cs[..|cs| - 1], n) + if cs[|cs| - 1].message == n && cs[|cs| - 1].queued then 1 else 0
  }

  lemma {:induction false} QueuedAmongCallbacks(cs: seq<Callback>, n: nat)
    ensures TimesQueued(cs, n) <= CallbacksOf(cs, n)
    ensures TimesQueued(cs, n) == 0 <==> forall k :: 0 <= k < |cs| && cs[k].message == n ==> !cs[k].queued
  {
    if cs != [] {
      QueuedAmongCallbacks(cs[..|cs| - 1], n);
    }
  }

  lemma {:induction false} SameMessages(a: seq<Callback>, b: seq<Callback>, n: nat)
    requires |a| == |b| && forall k :: 0 <= k < |a| ==> a[k].message == b[k].message
    ensures CallbacksOf(a, n) == CallbacksOf(b, n)
  {
    if a != [] {
      SameMessages(a[..|a| - 1], b[..|b| - 1], n);
    }
  }

  ghost predicate Backed(s: State, n: nat)
    requires n < |s.stream|
  {
    s.stream[n].standing.Settled? ==> exists k :: 0 <= k < |s.callbacks| && s.callbacks[k].message == n && s.callbacks[k].queued
  }

  /** Deliveries are counted, and every message is pending, settled by a queued job, or exhausted after three. */
  ghost predicate MessageSound(s: State, n: nat)
    requires n < |s.stream|
  {
    && CallbacksOf(s.callbacks, n) == s.stream[n].deliveries <= MAX_DELIVER
    && (s.stream[n].standing.Exhausted? ==> s.stream[n].deliveries == MAX_DELIVER)
    && Backed(s, n)
  }

  ghost predicate MailSound(s: State) {
    forall n: nat :: n < |s.stream| ==> MessageSound(s, n)
  }

  predicate Names(s: State, number: nat) {
    1 <= number <= |s.stream| && s.stream[number - 1].standing.Exhausted?
  }

  ghost predicate NoticesSound(s: State) {
    forall m :: 0 <= m < |s.notices| && Complete(s.notices[m]) ==>
      s.notices[m].value.stream == JOBS && Names(s, s.notices[m].value.number)
  }

  /** A dead letter carries the data, the stream and the number of an exhausted message. */
  ghost predicate LettersSound(s: State) {
    forall i :: 0 <= i < |s.letters| ==>
      var x := s.letters[i];
      x.stream == JOBS && Names(s, x.number) && x.data == s.stream[x.number - 1].data
  }

  lemma ExhaustedForGood(s: State, e: Event, n: nat)
    requires n < |s.stream| && s.stream[n].standing.Exhausted?
    ensures n < |Apply(s, e).stream| && Apply(s, e).stream[n].standing.Exhausted?
  {
    match e
    case Publish(_, _) =>
    case Deliver(_) =>
    case Decode(_) =>
    case Push(_) =>
    case Refuse(_) =>
    case Send(_, _) =>
    case GiveUp(_) =>
    case Stray(_) =>
    case Monitor(_, _, _) =>
  }

  lemma LettersStep(s: State, e: Event)
    requires NoticesSound(s) && LettersSound(s)
    ensures NoticesSound(Apply(s, e)) && LettersSound(Apply(s, e))
  {
    var s' := Apply(s, e);
    MailKept(s, e);
    forall m | 0 <= m < |s'.notices| && Complete(s'.notices[m])
      ensures s'.notices[m].value.stream == JOBS && Names(s', s'.notices[m].value.number)
    {
      if m < |s.notices| {
        ExhaustedForGood(s, e, s.notices[m].value.number - 1);
      }
    }
    forall i | 0 <= i < |s'.letters|
      ensures
        var x := s'.letters[i];
        x.stream == JOBS && Names(s', x.number) && x.data == s'.stream[x.number - 1].data
    {
      if i < |s.letters| {
        ExhaustedForGood(s, e, s.letters[i].number - 1);
      }
    }
  }

  lemma MessageDelivered(s: State, d: nat, n: nat)
    requires MailSound(s) && CallbacksSound(s) && Enabled(s, Deliver(d)) && n < |s.stream|
    ensures MessageSound(Apply(s, Deliver(d)), n)
  {
    var s' := Apply(s, Deliver(d));
    assert MessageSound(s, n);
    assert s'.callbacks[..|s.callbacks|] == s.callbacks;
    if s.stream[n].standing.Settled? {
      var k :| 0 <= k < |s.callbacks| && s.callbacks[k].message == n && s.callbacks[k].queued;
      assert s'.callbacks[k] == s.callbacks[k];
    }
  }

  /** A callback's own step: no message gains a delivery. */
  lemma MessageActedOn(s: State, e: Event, n: nat)
    requires MailSound(s) && CallbacksSound(s) && Actor(e).Some? && Enabled(s, e) && n < |s.stream|
    ensures n < |Apply(s, e).stream| && MessageSound(Apply(s, e), n)
  {
    var s', k := Apply(s, e), Actor(e).value;
    assert MessageSound(s, n) && CallbackSound(s, k);
    SameMessages(s.callbacks, s'.callbacks, n);
    if s'.stream[n].standing.Settled? {
      if s.stream[n].standing.Settled? {
        var i :| 0 <= i < |s.callbacks| && s.callbacks[i].message == n && s.callbacks[i].queued;
        assert s'.callbacks[i].message == n && s'.callbacks[i].queued;
      } else {
        assert s'.callbacks[k].message == n && s'.callbacks[k].queued;
      }
    }
  }

  lemma {:induction false} NoCallbacksYet(cs: seq<Callback>, n: nat)
    requires forall k :: 0 <= k < |cs| ==> cs[k].message < n
    ensures CallbacksOf(cs, n) == 0
  {
    if cs != [] {
      NoCallbacksYet(cs[..|cs| - 1], n);
    }
  }

  lemma MailStep(s: State, e: Event)
    requires MailSound(s) && CallbacksSound(s)
    ensures MailSound(Apply(s, e))
  {
    var s' := Apply(s, e);
    MailKept(s, e);
    forall n: nat | n < |s'.stream|
      ensures MessageSound(s', n)
    {
      if n < |s.stream| {
        assert MessageSound(s, n);
        if Enabled(s, e) && Actor(e).Some? {
          MessageActedOn(s, e, n);
        } else if Enabled(s, e) && e.Deliver? {
          MessageDelivered(s, e.n, n);
        }
      } else {
        forall k | 0 <= k < |s.callbacks|
          ensures s.callbacks[k].message < n
        {
          assert CallbackSound(s, k);
        }
        NoCallbacksYet(s.callbacks, n);
      }
    }
  }

  lemma {:induction false} RunKeepsMail(es: seq<Event>)
    ensures MailSound(Exec(EMPTY, es)) && NoticesSound(Exec(EMPTY, es)) && LettersSound(Exec(EMPTY, es))
  {
    if es != [] {
      var n := |es| - 1;
      RunKeepsMail(es[..n]);
      RunKeepsCallbacks(es[..n]);
      MailStep(Exec(EMPTY, es[..n]), es[n]);
      LettersStep(Exec(EMPTY, es[..n]), es[n]);
    }
  }

  /** No job is acknowledged away: a settled message entered the queue, and no message does so more than three times. */
  lemma SettledWasQueued(es: seq<Event>, n: nat)
    requires n < |Exec(EMPTY, es).stream|
    ensures
      var s := Exec(EMPTY, es);
      var times := TimesQueued(s.callbacks, n);
      times <= MAX_DELIVER && (s.stream[n].standing.Settled? ==> 1 <= times)
  {
    var s := Exec(EMPTY, es);
    RunKeepsMail(es);
    assert MessageSound(s, n);
    QueuedAmongCallbacks(s.callbacks, n);
  }

  /** Every dead letter is a copy of a message that was delivered three times and given up. */
  lemma DeadLettersExhausted(es: seq<Event>, i: nat)
    requires i < |Exec(EMPTY, es).letters|
    ensures
      var s := Exec(EMPTY, es);
      var x := s.letters[i];
      && x.stream == JOBS && 1 <= x.number <= |s.stream|
      && s.stream[x.number - 1].standing.Exhausted? && s.stream[x.number - 1].deliveries == MAX_DELIVER
      && x.data == s.stream[x.number - 1].data
  {
    RunKeepsMail(es);
    var s := Exec(EMPTY, es);
    assert MessageSound(s, s.letters[i].number - 1);
  }

  // ----- a dead letter need not be an unprocessed job -----

  /** The server waits for a message's callbacks before giving it up, and no answer is lost. */
  ghost predicate Patient(s: State, e: Event) {
    match e
    case Send(_, lost) => !lost
    case GiveUp(n) => forall k :: 0 <= k < |s.callbacks| && s.callbacks[k].message == n ==> s.callbacks[k].stage.Replied?
    case _ => true
  }

  ghost predicate AllPatient(es: seq<Event>) {
    forall i :: 0 <= i < |es| ==> Patient(Exec(EMPTY, es[..i]), es[i])
  }

  /** A completed callback that queued its job has settled the message; a given-up one has only refusals. */
  ghost predicate HonestCallback(s: State, k: nat)
    requires k < |s.callbacks|
  {
    var c := s.callbacks[k];
    && c.message < |s.stream|
    && (c.stage == Replied(Ack) ==> s.stream[c.message].standing.Settled?)
    && (s.stream[c.message].standing.Exhausted? ==> c.stage == Replied(Nak))
  }

  ghost predicate FailedHonestly(s: State) {
    forall k: nat :: k < |s.callbacks| ==> HonestCallback(s, k)
  }

  lemma HonestStep(s: State, e: Event)
    requires CallbacksSound(s) && FailedHonestly(s) && Patient(s, e)
    ensures FailedHonestly(Apply(s, e))
  {
    var s' := Apply(s, e);
    MailKept(s, e);
    forall k | 0 <= k < |s'.callbacks|
      ensures HonestCallback(s', k)
    {
      assert k < |s.callbacks| ==> HonestCallback(s, k) && CallbackSound(s, k);
    }
  }

  lemma {:induction false} RunStaysHonest(es: seq<Event>)
    requires AllPatient(es)
    ensures FailedHonestly(Exec(EMPTY, es))
  {
    if es != [] {
      var n := |es| - 1;
      forall i | 0 <= i < n
        ensures Patient(Exec(EMPTY, es[..n][..i]), es[..n][i])
      {
        assert es[..n][..i] == es[..i];
      }
      RunStaysHonest(es[..n]);
      RunKeepsCallbacks(es[..n]);
      HonestStep(Exec(EMPTY, es[..n]), es[n]);
    }
  }

  /** With a patient server and no lost answers, the job of an exhausted message never entered the queue. */
  lemma PatientDeadLettersUnqueued(es: seq<Event>, n: nat)
    requires AllPatient(es) && n < |Exec(EMPTY, es).stream| && Exec(EMPTY, es).stream[n].standing.Exhausted?
    ensures TimesQueued(Exec(EMPTY, es).callbacks, n) == 0
  {
    var s := Exec(EMPTY, es);
    RunStaysHonest(es);
    RunKeepsCallbacks(es);
    forall k: nat | k < |s.callbacks| && s.callbacks[k].message == n
      ensures !s.callbacks[k].queued
    {
      assert CallbackSound(s, k) && HonestCallback(s, k);
    }
    QueuedAmongCallbacks(s.callbacks, n);
  }

  /** Callback `k` has refused its message, or will find that it cannot decode it. */
  predicate Refusing(s: State, k: nat)
    requires k < |s.callbacks|
  {
    var c := s.callbacks[k];
    match c.stage
    case Decoding => c.message < |s.stream| && s.stream[c.message].job.None?
    case Offering(_) => false
    case Replying(a) => a.Nak?
    case Replied(a) => a.Nak?
  }

  ghost predicate AllRefusing(s: State, n: nat) {
    forall k: nat :: k < |s.callbacks| && s.callbacks[k].message == n ==> Refusing(s, k)
  }

  lemma RefusingStep(s: State, e: Event, n: nat)
    requires CallbacksSound(s) && n < |s.stream| && s.stream[n].standing.Exhausted? && AllRefusing(s, n)
    ensures AllRefusing(Apply(s, e), n)
  {
    var s' := Apply(s, e);
    MailKept(s, e);
    forall k: nat | k < |s'.callbacks| && s'.callbacks[k].message == n
      ensures Refusing(s', k)
    {
      if k < |s.callbacks| {
        assert CallbackSound(s, k);
        assert Refusing(s, k);
      }
    }
  }

  lemma {:induction false} StaysRefused(s: State, more: seq<Event>, n: nat)
    requires CallbacksSound(s) && n < |s.stream| && s.stream[n].standing.Exhausted? && AllRefusing(s, n)
    ensures
      var t := Exec(s, more);
      CallbacksSound(t) && n < |t.stream| && t.stream[n].standing.Exhausted? && AllRefusing(t, n)
  {
    if more != [] {
      var i := |more| - 1;
      var t := Exec(s, more[..i]);
      StaysRefused(s, more[..i], n);
      CallbacksStep(t, more[i]);
      ExhaustedForGood(t, more[i], n);
      RefusingStep(t, more[i], n);
    }
  }

  lemma RefusedUnqueued(s: State, n: nat)
    requires CallbacksSound(s) && AllRefusing(s, n)
    ensures TimesQueued(s.callbacks, n) == 0
  {
    forall k: nat | k < |s.callbacks| && s.callbacks[k].message == n
      ensures !s.callbacks[k].queued
    {
      assert CallbackSound(s, k) && Refusing(s, k);
    }
    QueuedAmongCallbacks(s.callbacks, n);
  }

  /** What a callback that is not refusing can still do, or has done: put its job into the queue. */
  lemma QueuesUnlessRefusing(s: State, k: nat) returns (more: seq<Event>)
    requires CallbacksSound(s) && k < |s.callbacks| && !Refusing(s, k)
    ensures TimesQueued(Exec(s, more).callbacks, s.callbacks[k].message) > 0
  {
    assert CallbackSound(s, k);
    match s.callbacks[k].stage {
      case Decoding =>
        more := [] + [Decode(k)] + [Push(k)];
        ExecAppend(s, [] + [Decode(k)], Push(k));
        ExecAppend(s, [], Decode(k));
      case Offering(_) =>
        more := [] + [Push(k)];
        ExecAppend(s, [], Push(k));
      case Replying(_) => more := [];
      case Replied(_) => more := [];
    }
    var t := Exec(s, more);
    assert t.callbacks[k].queued && t.callbacks[k].message == s.callbacks[k].message;
    QueuedAmongCallbacks(t.callbacks, s.callbacks[k].message);
  }

  /** The job of an exhausted message can never enter the queue exactly when all its callbacks refuse it. */
  lemma DeadLetterUnprocessedIff(es: seq<Event>, n: nat)
    requires n < |Exec(EMPTY, es).stream| && Exec(EMPTY, es).stream[n].standing.Exhausted?
    ensures
      var s := Exec(EMPTY, es);
      (forall more :: TimesQueued(Exec(s, more).callbacks, n) == 0) <==> AllRefusing(s, n)
  {
    var s := Exec(EMPTY, es);
    RunKeepsCallbacks(es);
    if AllRefusing(s, n) {
      forall more
        ensures TimesQueued(Exec(s, more).callbacks, n) == 0
      {
        StaysRefused(s, more, n);
        RefusedUnqueued(Exec(s, more), n);
      }
    } else {
      var k: nat :| k < |s.callbacks| && s.callbacks[k].message == n && !Refusing(s, k);
      var more := QueuesUnlessRefusing(s, k);
    }
  }

  /** One message, delivered three times; its job is queued, but the answer is late. */
  function LateAnswer(data: string, job: Job): seq<Event> {
    [Publish(data, Some(job)), Deliver(0), Deliver(0), Deliver(0), Decode(0), Push(0), GiveUp(0), Monitor(0, true, Acked)]
  }

  lemma ExecAppend(s: State, es: seq<Event>, e: Event)
    ensures Exec(s, es + [e]) == Apply(Exec(s, es), e)
  {
    assert (es + [e])[..|es|] == es;
  }

  lemma EightSteps(s: State, e: seq<Event>)
    requires |e| == 8
    ensures Exec(s, e) ==
      Apply(Apply(Apply(Apply(Apply(Apply(Apply(Apply(s, e[0]), e[1]), e[2]), e[3]), e[4]), e[5]), e[6]), e[7])
  {
    assert e == [] + [e[0]] + [e[1]] + [e[2]] + [e[3]] + [e[4]] + [e[5]] + [e[6]] + [e[7]];
    ExecAppend(s, [] + [e[0]] + [e[1]] + [e[2]] + [e[3]] + [e[4]] + [e[5]] + [e[6]], e[7]);
    ExecAppend(s, [] + [e[0]] + [e[1]] + [e[2]] + [e[3]] + [e[4]] + [e[5]], e[6]);
    ExecAppend(s, [] + [e[0]] + [e[1]] + [e[2]] + [e[3]] + [e[4]], e[5]);
    ExecAppend(s, [] + [e[0]] + [e[1]] + [e[2]] + [e[3]], e[4]);
    ExecAppend(s, [] + [e[0]] + [e[1]] + [e[2]], e[3]);
    ExecAppend(s, [] + [e[0]] + [e[1]], e[2]);
    ExecAppend(s, [] + [e[0]], e[1]);
    ExecAppend(s, [], e[0]);
  }

  lemma ThreeDeliveries(data: string, job: Job)
    ensures
      var idle := Callback(0, Decoding, false);
      Apply(Apply(Apply(Apply(EMPTY, Publish(data, Some(job))), Deliver(0)), Deliver(0)), Deliver(0))
        == State([Message(data, Some(job), 3, Awaiting)], [idle, idle, idle], [], [], [])
  {
    var idle := Callback(0, Decoding, false);
    var s1 := Apply(EMPTY, Publish(data, Some(job)));
    assert s1 == State([Message(data, Some(job), 0, Awaiting)], [], [], [], []);
    var s2 := Apply(s1, Deliver(0));
    assert s2 == State([Message(data, Some(job), 1, Awaiting)], [idle], [], [], []);
    var s3 := Apply(s2, Deliver(0));
    assert s3 == State([Message(data, Some(job), 2, Awaiting)], [idle, idle], [], [], []);
  }

  lemma QueuedByFirst(s: State, job: Job)
    requires |s.callbacks| > 0 && s.callbacks[0] == Callback(0, Decoding, false)
    requires |s.stream| > 0 && s.stream[0].job == Some(job)
    ensures Apply(Apply(s, Decode(0)), Push(0)) ==
      s.(callbacks := s.callbacks[0 := Callback(0, Replying(Ack), true)], records := s.records + [Record(0, Handed(job))])
  {
    var offering := Callback(0, Offering(job), false);
    assert Apply(s, Decode(0)) == s.(callbacks := s.callbacks[0 := offering]);
    assert s.callbacks[0 := offering][0 := Callback(0, Replying(Ack), true)]
        == s.callbacks[0 := Callback(0, Replying(Ack), true)];
  }

  lemma GivenUpAndFiled(s: State)
    requires |s.stream| > 0 && s.stream[0].standing.Awaiting? && s.stream[0].deliveries == MAX_DELIVER
    requires s.notices == []
    ensures
      var s' := Apply(Apply(s, GiveUp(0)), Monitor(0, true, Acked));
      s'.callbacks == s.callbacks && s'.letters == s.letters + [DeadLetter(s.stream[0].data, JOBS, 1)]
  {
    var t := Apply(s, GiveUp(0));
    assert t.notices[0] == Some(Notice(JOBS, 1)) && |JOBS| > 0;
  }

  /** Without patience a dead letter can belong to a job that the pool has taken. */
  lemma DeadLetterOfQueuedJob(data: string, job: Job)
    ensures
      var s := Exec(EMPTY, LateAnswer(data, job));
      s.letters == [DeadLetter(data, JOBS, 1)] && 1 <= TimesQueued(s.callbacks, 0)
  {
    var idle := Callback(0, Decoding, false);
    var s3 := State([Message(data, Some(job), 3, Awaiting)], [idle, idle, idle], [], [], []);
    var s5 := Apply(Apply(s3, Decode(0)), Push(0));
    EightSteps(EMPTY, LateAnswer(data, job));
    ThreeDeliveries(data, job);
    QueuedByFirst(s3, job);
    GivenUpAndFiled(s5);
    QueuedAmongCallbacks(s5.callbacks, 0);
    assert s5.callbacks[0].queued;
  }
}
