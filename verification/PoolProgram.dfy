/**
  Pool.Start, its delivery handler and its worker loop as programs over the job
  channel and the WaitGroup. Every execution is a run of the WorkerPool machine.
 */
module PoolProgram {
  import opened Entities
  import opened WorkerPool
  import opened PoolSafety
  import opened PoolLaws

  class Pool {
    const count: nat
    var stage: Stage
    var cancelled: bool
    var panicked: bool
    var queue: seq<Job>
    var offers: seq<Job>
    var workers: seq<Worker>
    var wg: int
    var accepted: multiset<Job>
    var finished: multiset<Job>
    ghost var log: seq<Event>

    function View(): State
      reads this
    {
      State(stage, cancelled, panicked, queue, offers, workers, wg, accepted, finished)
    }

    ghost predicate Valid()
      reads this
    {
      View() == Exec(Launch(count), log)
    }

    /** Starts the workers, one wg.Add each. */
    constructor (workerCount: nat)
      ensures Valid() && count == workerCount && log == []
      ensures stage.Subscribing? && wg == workerCount
    {
      count := workerCount;
      stage, cancelled, panicked := Subscribing, false, false;
      queue, offers, workers, wg := [], [], [], 0;
      accepted, finished, log := multiset{}, multiset{}, [];
      new;
      for i := 0 to workerCount
        invariant wg == i && workers == seq(i, _ => Idle)
        invariant count == workerCount && stage == Subscribing && !cancelled && !panicked
        invariant queue == [] && offers == [] && accepted == multiset{} && finished == multiset{} && log == []
      {
        wg := wg + 1;
        workers := workers + [Idle];
      }
    }

    ghost method Record(e: Event, v: State)
      requires v == Exec(Launch(count), log) && View() == Apply(v, e)
      modifies this`log
      ensures Valid() && log == old(log) + [e]
    {
      log := log + [e];
      assert log[..|log| - 1] == old(log);
    }

    method Become(s: State)
      modifies this
      ensures View() == s && log == old(log)
    {
      stage, cancelled, panicked := s.stage, s.cancelled, s.panicked;
      queue, offers, workers, wg := s.queue, s.offers, s.workers, s.wg;
      accepted, finished := s.accepted, s.finished;
    }

    method Take(e: Event)
      requires Valid()
      modifies this
      ensures Valid() && View() == Apply(old(View()), e) && log == old(log) + [e]
    {
      Become(Apply(View(), e));
      Record(e, old(View()));
    }

    /** One turn of a callback's select: accept, panic on the closed channel, refuse, or keep waiting. */
    method HandlerTurn(k: nat)
      requires Valid() && k < |offers| && !panicked
      modifies this`queue, this`accepted, this`offers, this`panicked, this`log
      ensures Valid() && (log == old(log) || log == old(log) + [Push(k)] || log == old(log) + [Refuse(k)])
      ensures log == old(log) ==> View() == old(View())
      ensures log == old(log) + [Refuse(k)] ==>
        && old(cancelled) && offers == old(offers)[..k] + old(offers)[k + 1..]
        && queue == old(queue) && accepted == old(accepted) && !panicked
      ensures log == old(log) + [Push(k)] && old(Closed(View())) ==>
        panicked && offers == old(offers) && queue == old(queue) && accepted == old(accepted)
      ensures log == old(log) + [Push(k)] && !old(Closed(View())) ==>
        && |queue| <= QUEUE_CAPACITY && !panicked
        && offers == old(offers)[..k] + old(offers)[k + 1..]
        && queue == old(queue) + [old(offers[k])] && accepted == old(accepted) + multiset{old(offers[k])}
    {
      var choice: bool := *;
      if cancelled && choice {
        offers := offers[..k] + offers[k + 1..];
        Record(Refuse(k), old(View()));
      } else if Closed(View()) {
        panicked := true;
        Record(Push(k), old(View()));
      } else if |queue| < QUEUE_CAPACITY {
        Accept(k);
      }
    }

    method Accept(k: nat)
      requires Valid() && k < |offers| && !panicked && !Closed(View()) && |queue| < QUEUE_CAPACITY
      modifies this`queue, this`accepted, this`offers, this`log
      ensures Valid() && log == old(log) + [Push(k)]
      ensures offers == old(offers)[..k] + old(offers)[k + 1..]
      ensures queue == old(queue) + [old(offers[k])] && accepted == old(accepted) + multiset{old(offers[k])}
    {
      queue := queue + [offers[k]];
      accepted := accepted + multiset{offers[k]};
      offers := offers[..k] + offers[k + 1..];
      Record(Push(k), old(View()));
    }

    /** `range jobs`: receive the next job, or leave when the closed channel is empty. */
    method ReceiveOrLeave(w: nat)
      requires Valid() && w < |workers| && workers[w].Idle? && !panicked
      requires queue != [] || Closed(View())
      modifies this`workers, this`queue, this`wg, this`log
      ensures Valid()
      ensures log == old(log) + [if old(queue) != [] then Receive(w) else Leave(w)]
    {
      if queue != [] {
        ReceiveJob(w);
      } else {
        workers, wg := workers[w := Exited(None)], wg - 1;
        Record(Leave(w), old(View()));
      }
    }

    method ReceiveJob(w: nat)
      requires Valid() && w < |workers| && workers[w].Idle? && !panicked && queue != []
      modifies this`workers, this`queue, this`log
      ensures Valid() && log == old(log) + [Receive(w)]
    {
      workers := workers[w := Waiting(queue[0])];
      queue := queue[1..];
      Record(Receive(w), old(View()));
    }

    /** The limiter lets the job through, or fails and ends the worker. */
    method WaitForLimiter(w: nat)
      requires Valid() && w < |workers| && workers[w].Waiting? && !panicked
      modifies this`workers, this`wg, this`log
      ensures Valid()
      ensures log == old(log) + [Grant(w)] || log == old(log) + [LimitError(w)]
    {
      var job := workers[w].job;
      var limited: bool := *;
      workers := workers[w := if limited then Exited(Some(job)) else Working(job)];
      wg := wg - if limited then 1 else 0;
      Record(if limited then LimitError(w) else Grant(w), old(View()));
    }

    method FinishJob(w: nat)
      requires Valid() && w < |workers| && workers[w].Working? && !panicked
      modifies this`workers, this`finished, this`log
      ensures Valid() && log == old(log) + [Finish(w)]
    {
      finished := finished + multiset{workers[w].job};
      workers := workers[w := Idle];
      Record(Finish(w), old(View()));
    }

    /**
      The next statement of worker `w`'s loop; only an idle worker with nothing
      to receive stays where it is. After the close, each turn uses up the measure.
     */
    method WorkerTurn(w: nat)
      requires Valid() && w < |workers| && !panicked
      modifies this`workers, this`queue, this`wg, this`finished, this`log
      ensures Valid() && old(log) <= log
      ensures !old(workers[w]).Exited? && Closed(old(View())) ==> Measure(View()) < Measure(old(View()))
    {
      ghost var v, l := View(), log;
      match workers[w] {
        case Idle =>
          if queue == [] && !Closed(View()) {
            return;
          }
          ReceiveOrLeave(w);
        case Waiting(_) => WaitForLimiter(w);
        case Working(_) => FinishJob(w);
        case Exited(_) => return;
      }
      StepTaken(v, l);
    }

    /** The last logged event took the pool from `v` here. */
    lemma StepTaken(v: State, l: seq<Event>)
      requires Valid() && v == Exec(Launch(count), l) && |log| == |l| + 1 && log == l + [log[|l|]]
      requires WorkerStep(log[|l|]) && Enabled(v, log[|l|])
      ensures View() == Apply(v, log[|l|])
      ensures Closed(v) ==> Measure(View()) < Measure(v)
    {
      assert log[..|l|] == l;
      if Closed(v) {
        MeasureStep(v, log[|l|]);
      }
    }

    /** Deliveries and handler turns, in any number and order. */
    method Callbacks()
      requires Valid()
      modifies this
      ensures Valid() && old(log) <= log
      ensures old(Closed(View())) ==> Closed(View()) && stage == old(stage) && Measure(View()) == old(Measure(View()))
      ensures |workers| == |old(workers)| && wg == old(wg)
    {
      var n: nat := *;
      while n > 0
        invariant Valid() && old(log) <= log
        invariant old(Closed(View())) ==> Closed(View()) && stage == old(stage) && Measure(View()) == old(Measure(View()))
        invariant workers == old(workers) && wg == old(wg)
      {
        var delivery: bool := *;
        var k: nat := *;
        if delivery {
          var job: Job := *;
          Take(Deliver(job));
        } else if k < |offers| && !panicked {
          var refuse: bool := *;
          Take(if refuse then Refuse(k) else Push(k));
        }
        n := n - 1;
      }
    }

    /**
      `close(jobCh); wg.Wait()`, with the workers scheduled in any order. It
      terminates; unless a late callback panics, it returns with every worker
      exited and every accepted job accounted for.
     */
    method Shutdown()
      requires Valid() && stage.Serving? && cancelled && !panicked
      modifies this
      ensures Valid() && old(log) <= log
      ensures !panicked ==> stage.Stopped? && wg == 0 && InHand(workers) == multiset{}
      ensures !panicked ==> accepted == multiset(queue) + finished + Abandoned(workers)
      ensures !panicked && queue != [] ==> |Abandoned(workers)| == count
      ensures panicked ==> stage.Draining?
    {
      Take(Close);
      while wg != 0 && !panicked
        invariant Valid() && old(log) <= log && stage.Draining?
        decreases if panicked then 0 else 1, Measure(View())
      {
        DrainTurn();
      }
      if !panicked {
        Take(Join);
        Returned();
      }
    }

    /** Late callbacks, then a live worker; unless a callback panics this uses up the measure. */
    method DrainTurn()
      requires Valid() && stage.Draining? && !panicked && wg != 0
      modifies this
      ensures Valid() && stage.Draining? && old(log) <= log
      ensures !panicked ==> Measure(View()) < Measure(old(View()))
    {
      Callbacks();
      if !panicked {
        RunKeepsInv(count, log);
        NoneLive(workers);
        var w: nat :| w < |workers| && !workers[w].Exited?;
        WorkerTurn(w);
      }
    }

    lemma Returned()
      requires Valid() && stage.Stopped?
      ensures wg == 0 && InHand(workers) == multiset{}
      ensures accepted == multiset(queue) + finished + Abandoned(workers)
      ensures queue != [] ==> |Abandoned(workers)| == count
    {
      RunKeepsInv(count, log);
      NilReturnIsQuiet(count, log);
      NoneInHand(workers);
    }
  }

  /**
    The whole of Start. The error return leaves all workers running. A panic can
    only come from a late callback, after the close; even then no accepted job is
    forged, duplicated or forgotten.
   */
  method Start(workerCount: nat) returns (p: Pool, failed: bool)
    ensures fresh(p) && p.Valid() && p.count == workerCount
    ensures p.accepted == multiset(p.queue) + InHand(p.workers) + p.finished + Abandoned(p.workers)
    ensures p.wg == LiveCount(p.workers)
    ensures p.accepted <= Delivered(p.count, p.log)
    ensures failed ==> p.stage.Failed? && p.cancelled && p.wg == workerCount && !p.panicked
    ensures p.panicked ==> p.stage.Draining? && p.cancelled
    ensures !failed && !p.panicked ==>
      && p.stage.Stopped? && p.wg == 0 && InHand(p.workers) == multiset{}
      && p.accepted == multiset(p.queue) + p.finished + Abandoned(p.workers)
  {
    p := new Pool(workerCount);
    var ok: bool := *;
    p.Take(Subscribe(ok));
    failed := !ok;
    if ok {
      ServeAndStop(p);
    }
    RunKeepsInv(p.count, p.log);
    OffersConserved(p.count, p.log);
    if failed {
      AllIdle(p.workers);
    }
  }

  method ServeAndStop(p: Pool)
    requires p.Valid() && p.stage.Serving? && !p.panicked
    modifies p
    ensures p.Valid()
    ensures p.panicked ==> p.stage.Draining?
    ensures !p.panicked ==> p.stage.Stopped? && p.wg == 0 && InHand(p.workers) == multiset{}
    ensures !p.panicked ==> p.accepted == multiset(p.queue) + p.finished + Abandoned(p.workers)
  {
    Serve(p);
    p.Take(Cancel);
    Serve(p);
    p.Shutdown();
  }

  /** Any interleaving of callbacks and workers, before the context is done and between that and the close. */
  method Serve(p: Pool)
    requires p.Valid() && p.stage.Serving? && !p.panicked
    modifies p
    ensures p.Valid() && p.stage.Serving? && !p.panicked && old(p.log) <= p.log
    ensures p.cancelled == old(p.cancelled)
  {
    var n: nat := *;
    while n > 0
      invariant p.Valid() && p.stage.Serving? && !p.panicked && old(p.log) <= p.log
      invariant p.cancelled == old(p.cancelled)
    {
      ServeTurn(p);
      n := n - 1;
    }
  }

  method ServeTurn(p: Pool)
    requires p.Valid() && p.stage.Serving? && !p.panicked
    modifies p
    ensures p.Valid() && p.stage.Serving? && !p.panicked && old(p.log) <= p.log
    ensures p.cancelled == old(p.cancelled)
  {
    var w: nat := *;
    var k: nat := *;
    var job: Job := *;
    var working: bool := *;
    if working && w < |p.workers| {
      p.WorkerTurn(w);
    } else if k < |p.offers| {
      p.HandlerTurn(k);
    } else {
      p.Take(Deliver(job));
    }
  }
}
