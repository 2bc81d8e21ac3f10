/**
  The pool's jobs from delivery on, in every run: none is accepted twice, they
  leave the queue in the order they entered it, refusals need a cancellation, and
  no job is processed without a grant of the limiter.
 */
module PoolLaws {
  import opened Entities
  import opened WorkerPool
  import opened PoolSafety

  // ----- from delivery to acceptance -----

  /** What one step adds to the jobs delivered to callbacks, and to those whose callbacks gave up on the queue. */
  function Came(s: State, e: Event): multiset<Job> {
    if Enabled(s, e) && e.Deliver? then multiset{e.job} else multiset{}
  }

  function Went(s: State, e: Event): multiset<Job> {
    if Enabled(s, e) && e.Refuse? then multiset{s.offers[e.k]} else multiset{}
  }

  function Delivered(n: nat, es: seq<Event>): multiset<Job> {
    if es == [] then multiset{} else
    var k := |es| - 1;
    Delivered(n, es[..k]) + Came(Exec(Launch(n), es[..k]), es[k])
  }

  function Refused(n: nat, es: seq<Event>): multiset<Job> {
    if es == [] then multiset{} else
    var k := |es| - 1;
    Refused(n, es[..k]) + Went(Exec(Launch(n), es[..k]), es[k])
  }

  lemma WithoutOne(xs: seq<Job>, k: nat)
    requires k < |xs|
    ensures multiset(xs) == multiset(xs[..k] + xs[k + 1..]) + multiset{xs[k]}
  {
    assert xs == xs[..k] + [xs[k]] + xs[k + 1..];
  }

  predicate OffersMove(s: State, s': State, came: multiset<Job>, went: multiset<Job>) {
    multiset(s'.offers) + s'.accepted + went == multiset(s.offers) + s.accepted + came
  }

  lemma OfferDelivered(s: State, job: Job)
    ensures OffersMove(s, s.(offers := s.offers + [job]), multiset{job}, multiset{})
  {
    assert multiset(s.offers + [job]) == multiset(s.offers) + multiset{job};
  }

  lemma OfferPushed(s: State, k: nat)
    requires Enabled(s, Push(k))
    ensures OffersMove(s, Apply(s, Push(k)), multiset{}, multiset{})
  {
    WithoutOne(s.offers, k);
  }

  lemma OfferRefused(s: State, k: nat)
    requires Enabled(s, Refuse(k))
    ensures OffersMove(s, Apply(s, Refuse(k)), multiset{}, multiset{s.offers[k]})
  {
    WithoutOne(s.offers, k);
  }

  lemma OfferStep(s: State, e: Event)
    ensures OffersMove(s, Apply(s, e), Came(s, e), Went(s, e))
  {
    if Enabled(s, e) {
      match e
      case Subscribe(_) =>
      case Deliver(job) => OfferDelivered(s, job);
      case Push(k) => OfferPushed(s, k);
      case Refuse(k) => OfferRefused(s, k);
      case Cancel =>
      case Close =>
      case Join =>
      case Receive(_) =>
      case Grant(_) =>
      case LimitError(_) =>
      case Finish(_) =>
      case Leave(_) =>
    }
  }

  lemma AddStep(d: multiset<Job>, o: multiset<Job>, a: multiset<Job>, r: multiset<Job>,
                o': multiset<Job>, a': multiset<Job>, came: multiset<Job>, went: multiset<Job>)
    requires d == o + a + r && o' + a' + went == o + a + came
    ensures d + came == o' + a' + (r + went)
  {
    forall x
      ensures (d + came)[x] == (o' + a' + (r + went))[x]
    {
      assert d[x] == (o + a + r)[x] && (o' + a' + went)[x] == (o + a + came)[x];
    }
  }

  /** Every delivered job is still on offer, was accepted once, or was refused; so nothing is accepted that was not delivered. */
  lemma {:induction false} OffersConserved(n: nat, es: seq<Event>)
    ensures
      var s := Exec(Launch(n), es);
      Delivered(n, es) == multiset(s.offers) + s.accepted + Refused(n, es)
  {
    if es != [] {
      var k := |es| - 1;
      var s := Exec(Launch(n), es[..k]);
      var s' := Apply(s, es[k]);
      OffersConserved(n, es[..k]);
      OfferStep(s, es[k]);
      AddStep(Delivered(n, es[..k]), multiset(s.offers), s.accepted, Refused(n, es[..k]),
              multiset(s'.offers), s'.accepted, Came(s, es[k]), Went(s, es[k]));
    }
  }

  // ----- refusals -----

  lemma CancelledStays(s: State, e: Event)
    requires s.cancelled
    ensures Apply(s, e).cancelled
  {
  }

  /** A callback refuses its job only once the context is done. */
  lemma {:induction false} RefusalsNeedCancel(n: nat, es: seq<Event>)
    ensures Refused(n, es) != multiset{} ==> Exec(Launch(n), es).cancelled
  {
    if es != [] {
      var k := |es| - 1;
      RefusalsNeedCancel(n, es[..k]);
      if Exec(Launch(n), es[..k]).cancelled {
        CancelledStays(Exec(Launch(n), es[..k]), es[k]);
      }
    }
  }

  // ----- first in, first out -----

  /** The jobs that entered the queue, in order. */
  function Entered(n: nat, es: seq<Event>): seq<Job> {
    if es == [] then [] else
    var k := |es| - 1;
    Entered(n, es[..k]) + In(Exec(Launch(n), es[..k]), es[k])
  }

  function In(s: State, e: Event): seq<Job> {
    if Enabled(s, e) && e.Push? && !Closed(s) then [s.offers[e.k]] else []
  }

  /** The jobs that workers received, in order. */
  function Received(n: nat, es: seq<Event>): seq<Job> {
    if es == [] then [] else
    var k := |es| - 1;
    Received(n, es[..k]) + Out(Exec(Launch(n), es[..k]), es[k])
  }

  /** The job in the worker's hands after its receive. */
  function Out(s: State, e: Event): seq<Job> {
    if !(Enabled(s, e) && e.Receive?) then [] else
    var s' := Apply(s, e);
    if e.w < |s'.workers| && (s'.workers[e.w].Waiting? || s'.workers[e.w].Working?) then [s'.workers[e.w].job] else []
  }

  lemma QueueStep(s: State, e: Event)
    ensures Out(s, e) + Apply(s, e).queue == s.queue + In(s, e)
  {
    if Enabled(s, e) {
      match e
      case Subscribe(_) =>
      case Deliver(_) =>
      case Push(_) =>
      case Refuse(_) =>
      case Cancel =>
      case Close =>
      case Join =>
      case Receive(_) => assert s.queue == [s.queue[0]] + s.queue[1..];
      case Grant(_) =>
      case LimitError(_) =>
      case Finish(_) =>
      case Leave(_) =>
    }
  }

  lemma JoinStep(e: seq<Job>, r: seq<Job>, q: seq<Job>, q': seq<Job>, i: seq<Job>, o: seq<Job>)
    requires e == r + q && o + q' == q + i
    ensures e + i == (r + o) + q'
  {
    calc {
      e + i;
      r + (q + i);
      r + (o + q');
      (r + o) + q';
    }
  }

  /** Workers receive the jobs in the order of acceptance, and the queue holds the rest. */
  lemma {:induction false} QueueInOrder(n: nat, es: seq<Event>)
    ensures Entered(n, es) == Received(n, es) + Exec(Launch(n), es).queue
  {
    if es != [] {
      var k := |es| - 1;
      var s := Exec(Launch(n), es[..k]);
      QueueInOrder(n, es[..k]);
      QueueStep(s, es[k]);
      JoinStep(Entered(n, es[..k]), Received(n, es[..k]), s.queue, Apply(s, es[k]).queue, In(s, es[k]), Out(s, es[k]));
    }
  }

  /** The jobs that entered the queue are the accepted ones. */
  lemma {:induction false} EnteredAccepted(n: nat, es: seq<Event>)
    ensures multiset(Entered(n, es)) == Exec(Launch(n), es).accepted
  {
    if es != [] {
      var k := |es| - 1;
      EnteredAccepted(n, es[..k]);
      AcceptedStep(Exec(Launch(n), es[..k]), es[k]);
    }
  }

  lemma AcceptedStep(s: State, e: Event)
    ensures Apply(s, e).accepted == s.accepted + multiset(In(s, e))
  {
    if Enabled(s, e) {
      match e
      case Subscribe(_) =>
      case Deliver(_) =>
      case Push(_) =>
      case Refuse(_) =>
      case Cancel =>
      case Close =>
      case Join =>
      case Receive(_) =>
      case Grant(_) =>
      case LimitError(_) =>
      case Finish(_) =>
      case Leave(_) =>
    }
  }

  // ----- the limiter -----

  function Grants(n: nat, es: seq<Event>): nat {
    if es == [] then 0 else
    var k := |es| - 1;
    Grants(n, es[..k]) + if Enabled(Exec(Launch(n), es[..k]), es[k]) && es[k].Grant? then 1 else 0
  }

  function Busy(p: Worker): nat {
    if p.Working? then 1 else 0
  }

  function BusyCount(ws: seq<Worker>): nat {
    if ws == [] then 0 else BusyCount(ws[..|ws| - 1]) + Busy(ws[|ws| - 1])
  }

  lemma {:induction false} BusyCountMoves(ws: seq<Worker>, w: nat, p: Worker)
    requires w < |ws|
    ensures BusyCount(ws[w := p]) + Busy(ws[w]) == BusyCount(ws) + Busy(p)
  {
    var n := |ws| - 1;
    var ws' := ws[w := p];
    if w == n {
      assert ws'[..n] == ws[..n];
    } else {
      BusyCountMoves(ws[..n], w, p);
      assert ws'[..n] == ws[..n][w := p];
      assert BusyCount(ws') == BusyCount(ws[..n][w := p]) + Busy(ws[n]);
    }
  }

  lemma GrantStep(s: State, e: Event)
    ensures
      var s' := Apply(s, e);
      |s'.finished| + BusyCount(s'.workers)
        == |s.finished| + BusyCount(s.workers) + if Enabled(s, e) && e.Grant? then 1 else 0
  {
    if Enabled(s, e) {
      match e
      case Receive(w) => BusyCountMoves(s.workers, w, Waiting(s.queue[0]));
      case Grant(w) => BusyCountMoves(s.workers, w, Working(s.workers[w].job));
      case LimitError(w) => BusyCountMoves(s.workers, w, Exited(Some(s.workers[w].job)));
      case Finish(w) => BusyCountMoves(s.workers, w, Idle);
      case Leave(w) => BusyCountMoves(s.workers, w, Exited(None));
      case _ =>
    }
  }

  lemma {:induction false} NoneBusy(n: nat)
    ensures BusyCount(Launch(n).workers) == 0
  {
    if n > 0 {
      NoneBusy(n - 1);
      assert Launch(n).workers[..n - 1] == Launch(n - 1).workers;
    }
  }

  /** Each job in processing or finished was let through by the limiter. */
  lemma {:induction false} GrantsPayForJobs(n: nat, es: seq<Event>)
    ensures
      var s := Exec(Launch(n), es);
      |s.finished| + BusyCount(s.workers) == Grants(n, es)
  {
    if es == [] {
      NoneBusy(n);
    } else {
      var k := |es| - 1;
      GrantsPayForJobs(n, es[..k]);
      GrantStep(Exec(Launch(n), es[..k]), es[k]);
    }
  }
}
