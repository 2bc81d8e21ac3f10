/**
  Job delivery told from its ends: what settles a message, that nothing is
  delivered after its end, and that every exhausted message can reach the
  dead-letter stream.
 */
module DeliveryLaws {
  import opened Entities
  import opened Delivery

  // ----- a message's end -----

  /** Apart from the end it came to, delivered no more. */
  lemma EndedForGood(s: State, e: Event, n: nat)
    requires n < |s.stream| && !s.stream[n].standing.Awaiting?
    ensures n < |Apply(s, e).stream| && Apply(s, e).stream[n] == s.stream[n]
  {
    if Enabled(s, e) {
      match e
      case Publish(_, _) =>
      case Deliver(_) =>
      case Decode(_) =>
      case Push(_) =>
      case Refuse(_) =>
      case Send(_, _) =>
      case GiveUp(_) =>
      case Stray(_) =>
      case Monitor(_, _, _) =>
    }
  }

  /** A settled or exhausted message stays so and is never delivered again, in any continuation. */
  lemma {:induction false} NoDeliveryAfterTheEnd(s: State, more: seq<Event>, n: nat)
    requires n < |s.stream| && !s.stream[n].standing.Awaiting?
    ensures n < |Exec(s, more).stream| && Exec(s, more).stream[n] == s.stream[n]
  {
    if more != [] {
      var k := |more| - 1;
      NoDeliveryAfterTheEnd(s, more[..k], n);
      EndedForGood(Exec(s, more[..k]), more[k], n);
    }
  }

  /** An Ack that arrives settles its message unless that was given up; a Nak, and an answer that is lost, settle nothing. */
  lemma AckSettles(s: State, k: nat, lost: bool)
    requires k < |s.callbacks| && s.callbacks[k].stage.Replying? && s.callbacks[k].message < |s.stream|
    ensures
      var n := s.callbacks[k].message;
      var before, after := s.stream[n].standing, Apply(s, Send(k, lost)).stream[n].standing;
      after == if s.callbacks[k].stage.answer == Ack && !lost && before == Awaiting then Settled else before
  {
  }

  /** Nothing else settles a message. */
  lemma OnlyAckSettles(s: State, e: Event, n: nat)
    requires n < |s.stream| && s.stream[n].standing == Awaiting
    requires n < |Apply(s, e).stream| && Apply(s, e).stream[n].standing == Settled
    ensures e.Send? && !e.lost && e.k < |s.callbacks| && s.callbacks[e.k].message == n
    ensures s.callbacks[e.k].stage == Replying(Ack)
  {
    match e
    case Publish(_, _) =>
    case Deliver(_) =>
    case Decode(_) =>
    case Push(_) =>
    case Refuse(_) =>
    case Send(_, _) =>
    case GiveUp(_) =>
    case Stray(_) =>
    case Monitor(_, _, _) =>
  }

  /** A message that awaits its end can always be delivered, or given up after the third time. */
  lemma AwaitingMoves(es: seq<Event>, n: nat)
    requires n < |Exec(EMPTY, es).stream| && Exec(EMPTY, es).stream[n].standing == Awaiting
    ensures
      var s := Exec(EMPTY, es);
      if s.stream[n].deliveries < 3 then
        var t := Apply(s, Deliver(n));
        && t.stream[n].deliveries == s.stream[n].deliveries + 1
        && t.callbacks == s.callbacks + [Callback(n, Decoding, false)]
      else
        Apply(s, GiveUp(n)).stream[n].standing == Exhausted
  {
    RunKeepsMail(es);
    assert MessageSound(Exec(EMPTY, es), n);
  }

  // ----- from exhaustion to the dead-letter stream -----

  ghost predicate Noticed(s: State, n: nat) {
    exists m :: 0 <= m < |s.notices| && s.notices[m] == Some(Notice(JOBS, n + 1))
  }

  ghost predicate ExhaustedNoticed(s: State) {
    forall n: nat :: n < |s.stream| && s.stream[n].standing.Exhausted? ==> Noticed(s, n)
  }

  /** Advisories and dead letters only accumulate. */
  lemma PostKept(s: State, e: Event)
    ensures s.notices <= Apply(s, e).notices && s.letters <= Apply(s, e).letters
  {
    if Enabled(s, e) {
      match e
      case Publish(_, _) =>
      case Deliver(_) =>
      case Decode(_) =>
      case Push(_) =>
      case Refuse(_) =>
      case Send(_, _) =>
      case GiveUp(_) =>
      case Stray(_) =>
      case Monitor(_, _, _) =>
    }
  }

  lemma ExhaustedByGivingUp(s: State, e: Event, n: nat)
    requires n < |Apply(s, e).stream| && Apply(s, e).stream[n].standing.Exhausted?
    requires n < |s.stream| ==> !s.stream[n].standing.Exhausted?
    ensures e == GiveUp(n) && Enabled(s, e)
  {
    match e
    case Publish(_, _) =>
    case Deliver(_) =>
    case Decode(_) =>
    case Push(_) =>
    case Refuse(_) =>
    case Send(_, _) =>
    case GiveUp(_) =>
    case Stray(_) =>
    case Monitor(_, _, _) =>
  }

  lemma NoticedStep(s: State, e: Event)
    requires ExhaustedNoticed(s)
    ensures ExhaustedNoticed(Apply(s, e))
  {
    var s' := Apply(s, e);
    PostKept(s, e);
    forall n: nat | n < |s'.stream| && s'.stream[n].standing.Exhausted?
      ensures Noticed(s', n)
    {
      if n < |s.stream| && s.stream[n].standing.Exhausted? {
        var m :| 0 <= m < |s.notices| && s.notices[m] == Some(Notice(JOBS, n + 1));
        assert s'.notices[m] == s.notices[m];
      } else {
        ExhaustedByGivingUp(s, e, n);
        assert s'.notices[|s.notices|] == Some(Notice(JOBS, n + 1));
      }
    }
  }

  /** In every run the monitor has been told of every exhausted message. */
  lemma {:induction false} RunNotices(es: seq<Event>)
    ensures ExhaustedNoticed(Exec(EMPTY, es))
  {
    if es != [] {
      var n := |es| - 1;
      RunNotices(es[..n]);
      NoticedStep(Exec(EMPTY, es[..n]), es[n]);
    }
  }

  /** An undisturbed run of the monitor for advisory `m` files a copy of message `n`. */
  ghost predicate FilesCopy(s: State, m: nat, n: nat) {
    && m < |s.notices| && n < |s.stream|
    && Apply(s, Monitor(m, true, Acked)).letters == s.letters + [DeadLetter(s.stream[n].data, JOBS, n + 1)]
  }

  /** ... so each can be moved to the dead-letter stream, with its data. */
  lemma ExhaustedCanBeFiled(es: seq<Event>, n: nat)
    requires n < |Exec(EMPTY, es).stream| && Exec(EMPTY, es).stream[n].standing.Exhausted?
    ensures exists m :: FilesCopy(Exec(EMPTY, es), m, n)
  {
    var s := Exec(EMPTY, es);
    RunNotices(es);
    var m :| 0 <= m < |s.notices| && s.notices[m] == Some(Notice(JOBS, n + 1));
    assert |JOBS| > 0;
    assert FilesCopy(s, m, n);
  }

  /** An advisory that cannot be read or names nothing, a failed fetch and a publication that never ran file nothing. */
  lemma NothingFiled(s: State, m: nat, fetched: bool, reply: Reply)
    requires m < |s.notices|
    requires
      || s.notices[m].None? || s.notices[m].value.stream == "" || s.notices[m].value.number == 0
      || !fetched || reply == Dropped
    ensures Apply(s, Monitor(m, fetched, reply)) == s
  {
  }

  // ----- one undisturbed delivery -----

  /** A well-formed job that finds room is queued once, acknowledged and settled. */
  lemma DeliveryRuns(s: State, n: nat, job: Job)
    requires n < |s.stream| && s.stream[n].standing == Awaiting && s.stream[n].deliveries < 3
    requires s.stream[n].job == Some(job)
    ensures
      var k := |s.callbacks|;
      var queued := Apply(Apply(Apply(s, Deliver(n)), Decode(k)), Push(k));
      var t := Apply(queued, Send(k, false));
      && t.records == s.records + [Record(k, Handed(job))] + [Record(k, Answered(Ack))]
      && t.stream[n].standing == Settled && t.letters == s.letters
  {
    var k := |s.callbacks|;
    var delivered := Apply(s, Deliver(n));
    assert delivered.callbacks[k] == Callback(n, Decoding, false);
    var decoded := Apply(delivered, Decode(k));
    assert decoded.callbacks[k] == Callback(n, Offering(job), false) && decoded.stream == delivered.stream;
    var queued := Apply(decoded, Push(k));
    assert queued.callbacks[k] == Callback(n, Replying(Ack), true) && queued.stream == delivered.stream;
  }
}
