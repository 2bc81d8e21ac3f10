/** Conservation of jobs, shutdown and its limits, over every run of the worker pool. */
module PoolSafety {
  import opened Entities
  import opened WorkerPool

  /** No accepted job is forged, duplicated or forgotten. */
  ghost predicate Conserved(s: State) {
    s.accepted == multiset(s.queue) + InHand(s.workers) + s.finished + Abandoned(s.workers)
  }

  /** The WaitGroup counts the live workers. */
  predicate Counted(s: State) {
    s.wg == LiveCount(s.workers)
  }

  /** A worker leaves its loop only when the closed channel has run dry. */
  ghost predicate LeftDry(s: State) {
    forall w :: 0 <= w < |s.workers| && s.workers[w] == Exited(None) ==> Closed(s) && s.queue == []
  }

  /** Before the subscription succeeds, and after it failed, nothing reaches the workers. */
  ghost predicate Untouched(s: State) {
    s.stage.Subscribing? || s.stage.Failed? ==>
      s.queue == [] && s.offers == [] && forall w :: 0 <= w < |s.workers| ==> s.workers[w].Idle?
  }

  ghost predicate Orderly(s: State) {
    && Counted(s) && LeftDry(s) && Untouched(s)
    && |s.queue| <= QUEUE_CAPACITY
    && (Closed(s) ==> s.cancelled)
    && (s.stage.Stopped? ==> s.wg == 0)
  }

  ghost predicate Inv(s: State) {
    Conserved(s) && Orderly(s)
  }

  lemma Balance(q: multiset<Job>, a: multiset<Job>, f: multiset<Job>, d: multiset<Job>,
                q': multiset<Job>, a': multiset<Job>, f': multiset<Job>, d': multiset<Job>,
                h: multiset<Job>, h': multiset<Job>, l: multiset<Job>, l': multiset<Job>)
    requires a' + h == a + h' && d' + l == d + l'
    requires q + h + f + l == q' + h' + f' + l'
    ensures q + a + f + d == q' + a' + f' + d'
  {
    forall x
      ensures (q + a + f + d)[x] == (q' + a' + f' + d')[x]
    {
      assert (a' + h)[x] == (a + h')[x] && (d' + l)[x] == (d + l')[x];
      assert (q + h + f + l)[x] == (q' + h' + f' + l')[x];
    }
  }

  /** A worker's step redistributes jobs between queue, hand, finished and dropped. */
  lemma ConservedMove(s: State, s': State, w: nat, p: Worker)
    requires Conserved(s) && w < |s.workers| && s'.workers == s.workers[w := p] && s'.accepted == s.accepted
    requires multiset(s.queue) + Held(s.workers[w]) + s.finished + Lost(s.workers[w])
          == multiset(s'.queue) + Held(p) + s'.finished + Lost(p)
    ensures Conserved(s')
  {
    TotalMoves(s.workers, Held, w, p);
    TotalMoves(s.workers, Lost, w, p);
    Balance(multiset(s.queue), InHand(s.workers), s.finished, Abandoned(s.workers),
            multiset(s'.queue), InHand(s'.workers), s'.finished, Abandoned(s'.workers),
            Held(s.workers[w]), Held(p), Lost(s.workers[w]), Lost(p));
  }

  lemma ConservedReceive(s: State, w: nat)
    requires Conserved(s) && Enabled(s, Receive(w))
    ensures Conserved(Apply(s, Receive(w)))
  {
    assert s.queue == [s.queue[0]] + s.queue[1..];
    ConservedMove(s, Apply(s, Receive(w)), w, Waiting(s.queue[0]));
  }

  lemma ConservedGrant(s: State, w: nat)
    requires Conserved(s) && Enabled(s, Grant(w))
    ensures Conserved(Apply(s, Grant(w)))
  {
    ConservedMove(s, Apply(s, Grant(w)), w, Working(s.workers[w].job));
  }

  lemma ConservedLimitError(s: State, w: nat)
    requires Conserved(s) && Enabled(s, LimitError(w))
    ensures Conserved(Apply(s, LimitError(w)))
  {
    var q, f, j := multiset(s.queue), s.finished, multiset{s.workers[w].job};
    assert q + j + f + multiset{} == q + multiset{} + f + j;
    ConservedMove(s, Apply(s, LimitError(w)), w, Exited(Some(s.workers[w].job)));
  }

  lemma ConservedFinish(s: State, w: nat)
    requires Conserved(s) && Enabled(s, Finish(w))
    ensures Conserved(Apply(s, Finish(w)))
  {
    var q, f, j := multiset(s.queue), s.finished, multiset{s.workers[w].job};
    assert q + j + f + multiset{} == q + multiset{} + (f + j) + multiset{};
    ConservedMove(s, Apply(s, Finish(w)), w, Idle);
  }

  lemma ConservedLeave(s: State, w: nat)
    requires Conserved(s) && Enabled(s, Leave(w))
    ensures Conserved(Apply(s, Leave(w)))
  {
    ConservedMove(s, Apply(s, Leave(w)), w, Exited(None));
  }

  lemma ConservedPush(s: State, k: nat)
    requires Conserved(s) && Enabled(s, Push(k))
    ensures Conserved(Apply(s, Push(k)))
  {
    if !Closed(s) {
      var job := s.offers[k];
      assert multiset(s.queue + [job]) == multiset(s.queue) + multiset{job};
      var a, f, d := InHand(s.workers), s.finished, Abandoned(s.workers);
      assert (multiset(s.queue) + a + f + d) + multiset{job} == multiset(s.queue + [job]) + a + f + d;
    }
  }

  lemma ConservedStep(s: State, e: Event)
    requires Conserved(s)
    ensures Conserved(Apply(s, e))
  {
    if Enabled(s, e) {
      match e
      case Push(k) => ConservedPush(s, k);
      case Receive(w) => ConservedReceive(s, w);
      case Grant(w) => ConservedGrant(s, w);
      case LimitError(w) => ConservedLimitError(s, w);
      case Finish(w) => ConservedFinish(s, w);
      case Leave(w) => ConservedLeave(s, w);
      case _ =>
    }
  }

  lemma CountedStep(s: State, e: Event)
    requires Counted(s)
    ensures Counted(Apply(s, e))
  {
    if Enabled(s, e) {
      match e
      case Receive(w) => LiveCountMoves(s.workers, w, Waiting(s.queue[0]));
      case Grant(w) => LiveCountMoves(s.workers, w, Working(s.workers[w].job));
      case LimitError(w) => LiveCountMoves(s.workers, w, Exited(Some(s.workers[w].job)));
      case Finish(w) => LiveCountMoves(s.workers, w, Idle);
      case Leave(w) => LiveCountMoves(s.workers, w, Exited(None));
      case _ =>
    }
  }

  lemma LeftDryStep(s: State, e: Event)
    requires LeftDry(s)
    ensures LeftDry(Apply(s, e))
  {
  }

  lemma UntouchedStep(s: State, e: Event)
    requires Untouched(s)
    ensures Untouched(Apply(s, e))
  {
  }

  /** Without a worker left to count down, wg stays at zero. */
  lemma StagesStep(s: State, e: Event)
    requires Orderly(s)
    ensures |Apply(s, e).queue| <= QUEUE_CAPACITY
    ensures Closed(Apply(s, e)) ==> Apply(s, e).cancelled
    ensures Apply(s, e).stage.Stopped? ==> Apply(s, e).wg == 0
  {
    NoneLive(s.workers);
  }

  lemma OrderlyStep(s: State, e: Event)
    requires Orderly(s)
    ensures Orderly(Apply(s, e))
  {
    CountedStep(s, e);
    LeftDryStep(s, e);
    UntouchedStep(s, e);
    StagesStep(s, e);
  }

  lemma InvStep(s: State, e: Event)
    requires Inv(s)
    ensures Inv(Apply(s, e))
  {
    ConservedStep(s, e);
    OrderlyStep(s, e);
  }

  lemma CrewKept(s: State, e: Event)
    ensures |Apply(s, e).workers| == |s.workers|
  {
  }

  lemma {:induction false} LaunchInv(n: nat)
    ensures Inv(Launch(n))
  {
    LaunchTotals(n);
  }

  lemma {:induction false} LaunchTotals(n: nat)
    ensures InHand(Launch(n).workers) == multiset{} && Abandoned(Launch(n).workers) == multiset{}
    ensures LiveCount(Launch(n).workers) == n
  {
    if n > 0 {
      LaunchTotals(n - 1);
      assert Launch(n).workers[..n - 1] == Launch(n - 1).workers;
    }
  }

  lemma {:induction false} RunKeepsInv(n: nat, es: seq<Event>)
    ensures Inv(Exec(Launch(n), es)) && |Exec(Launch(n), es).workers| == n
  {
    if es == [] {
      LaunchInv(n);
    } else {
      var k := |es| - 1;
      RunKeepsInv(n, es[..k]);
      InvStep(Exec(Launch(n), es[..k]), es[k]);
      CrewKept(Exec(Launch(n), es[..k]), es[k]);
    }
  }

  // ----- conservation -----

  /** Accepted = queued + in progress + finished + dropped; each worker accounts for at most one job. */
  lemma JobsConserved(n: nat, es: seq<Event>)
    ensures
      var s := Exec(Launch(n), es);
      && s.accepted == multiset(s.queue) + InHand(s.workers) + s.finished + Abandoned(s.workers)
      && |s.queue| <= QUEUE_CAPACITY
      && |InHand(s.workers)| + |Abandoned(s.workers)| <= n
      && s.wg == LiveCount(s.workers)
  {
    RunKeepsInv(n, es);
    AtMostOneEach(Exec(Launch(n), es).workers);
  }

  lemma ExitedStays(s: State, e: Event, w: nat)
    requires w < |s.workers| && s.workers[w].Exited?
    ensures w < |Apply(s, e).workers| && Apply(s, e).workers[w] == s.workers[w]
  {
  }

  /** A worker that dropped a job takes no further step. */
  lemma {:induction false} DropIsLast(s: State, more: seq<Event>, w: nat)
    requires w < |s.workers| && s.workers[w].Exited?
    ensures w < |Exec(s, more).workers| && Exec(s, more).workers[w] == s.workers[w]
  {
    if more != [] {
      var n := |more| - 1;
      DropIsLast(s, more[..n], w);
      ExitedStays(Exec(s, more[..n]), more[n], w);
    }
  }

  // ----- a nil return -----

  /**
    When Start returns nil every worker has exited and no job is in progress. A
    job is left behind in the channel only if every single worker quit on a
    limiter error, dropping one job each.
   */
  lemma NilReturnIsQuiet(n: nat, es: seq<Event>)
    requires Exec(Launch(n), es).stage.Stopped?
    ensures
      var s := Exec(Launch(n), es);
      && |s.workers| == n && (forall w :: 0 <= w < n ==> s.workers[w].Exited?)
      && s.accepted == multiset(s.queue) + s.finished + Abandoned(s.workers)
      && (s.queue != [] ==> |Abandoned(s.workers)| == n)
  {
    var s := Exec(Launch(n), es);
    RunKeepsInv(n, es);
    NoneLive(s.workers);
    NoneInHand(s.workers);
    assert multiset(s.queue) + multiset{} + s.finished == multiset(s.queue) + s.finished;
    if s.queue != [] {
      AllAbandoned(s.workers);
    }
  }

  // ----- the error return -----

  lemma FailedStep(s: State, e: Event)
    requires Untouched(s) && s.stage.Failed?
    ensures Apply(s, e).stage.Failed? && Apply(s, e).wg == s.wg && Apply(s, e).workers == s.workers
  {
  }

  lemma {:induction false} FailedForever(s: State, more: seq<Event>)
    requires Inv(s) && s.stage.Failed?
    ensures Exec(s, more).stage.Failed? && Exec(s, more).wg == s.wg
    ensures Inv(Exec(s, more))
  {
    if more != [] {
      var n := |more| - 1;
      FailedForever(s, more[..n]);
      InvStep(Exec(s, more[..n]), more[n]);
      FailedStep(Exec(s, more[..n]), more[n]);
    }
  }

  /** After the error return no worker ever exits: the channel is never closed. */
  lemma ErrorReturnLeaksWorkers(n: nat, es: seq<Event>, more: seq<Event>)
    requires Exec(Launch(n), es).stage.Failed?
    ensures Exec(Exec(Launch(n), es), more).wg == n
  {
    var s := Exec(Launch(n), es);
    RunKeepsInv(n, es);
    AllIdle(s.workers);
    FailedForever(s, more);
  }

  lemma {:induction false} AllIdle(ws: seq<Worker>)
    requires forall w :: 0 <= w < |ws| ==> ws[w].Idle?
    ensures LiveCount(ws) == |ws|
  {
    if ws != [] {
      AllIdle(ws[..|ws| - 1]);
    }
  }

  // ----- shutdown terminates -----

  predicate WorkerStep(e: Event) {
    e.Receive? || e.Grant? || e.LimitError? || e.Finish? || e.Leave?
  }

  /** Once the channel is closed every worker step uses up the measure, and nothing refills it. */
  lemma MeasureStep(s: State, e: Event)
    requires Closed(s)
    ensures Closed(Apply(s, e))
    ensures Measure(Apply(s, e)) + (if WorkerStep(e) && Enabled(s, e) then 1 else 0) <= Measure(s)
  {
    if Enabled(s, e) {
      match e
      case Receive(w) => TotalOwedMoves(s.workers, w, Waiting(s.queue[0]));
      case Grant(w) => TotalOwedMoves(s.workers, w, Working(s.workers[w].job));
      case LimitError(w) => TotalOwedMoves(s.workers, w, Exited(Some(s.workers[w].job)));
      case Finish(w) => TotalOwedMoves(s.workers, w, Idle);
      case Leave(w) => TotalOwedMoves(s.workers, w, Exited(None));
      case _ =>
    }
  }

  function WorkerSteps(s: State, es: seq<Event>): nat {
    if es == [] then 0 else
    var n := |es| - 1;
    WorkerSteps(s, es[..n]) + if WorkerStep(es[n]) && Enabled(Exec(s, es[..n]), es[n]) then 1 else 0
  }

  /** In no schedule do the workers take more than `Measure` steps after the close. */
  lemma {:induction false} ShutdownBounded(s: State, es: seq<Event>)
    requires Closed(s)
    ensures Closed(Exec(s, es)) && WorkerSteps(s, es) + Measure(Exec(s, es)) <= Measure(s)
  {
    if es != [] {
      var n := |es| - 1;
      ShutdownBounded(s, es[..n]);
      MeasureStep(Exec(s, es[..n]), es[n]);
    }
  }

  /** The step a live worker is ready for. */
  function Ready(s: State, w: nat): Event
    requires w < |s.workers|
  {
    match s.workers[w]
    case Waiting(_) => Grant(w)
    case Working(_) => Finish(w)
    case _ => if s.queue != [] then Receive(w) else Leave(w)
  }

  /** ... and they are never stuck before: while wg > 0 some worker can step, else Start can return. */
  lemma ShutdownProgress(n: nat, es: seq<Event>)
    requires Exec(Launch(n), es).stage.Draining? && !Exec(Launch(n), es).panicked
    ensures
      var s := Exec(Launch(n), es);
      if s.wg == 0 then Enabled(s, Join)
      else exists w :: 0 <= w < |s.workers| && WorkerStep(Ready(s, w)) && Enabled(s, Ready(s, w))
  {
    var s := Exec(Launch(n), es);
    RunKeepsInv(n, es);
    NoneLive(s.workers);
    if s.wg != 0 {
      var w :| 0 <= w < |s.workers| && !s.workers[w].Exited?;
      assert Enabled(s, Ready(s, w));
    }
  }

  // ----- sends on the closed channel -----

  predicate NoNewDeliveries(es: seq<Event>) {
    forall k :: 0 <= k < |es| ==> !es[k].Deliver?
  }

  lemma {:induction false} QuietOffers(s: State, es: seq<Event>)
    requires s.offers == [] && !s.panicked && NoNewDeliveries(es)
    ensures Exec(s, es).offers == [] && !Exec(s, es).panicked
  {
    if es != [] {
      QuietOffers(s, es[..|es| - 1]);
    }
  }

  /**
    Closing the channel is safe exactly when no delivery callback is still in its
    select (and the subscription delivers no more): otherwise its send may panic.
   */
  lemma CloseSafeIffNoOffers(s: State)
    requires Enabled(s, Close)
    ensures (forall es :: NoNewDeliveries(es) ==> !Exec(Apply(s, Close), es).panicked) <==> s.offers == []
  {
    var t := Apply(s, Close);
    if s.offers == [] {
      forall es | NoNewDeliveries(es)
        ensures !Exec(t, es).panicked
      {
        QuietOffers(t, es);
      }
    } else {
      var es := [Push(0)];
      assert es[..0] == [] && Exec(t, es) == Apply(Exec(t, es[..0]), Push(0));
      assert NoNewDeliveries(es) && Exec(t, es).panicked;
    }
  }
}
