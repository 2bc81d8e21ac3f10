/**
  The worker pool: a bounded job channel, workers behind a rate limiter, delivery
  callbacks that offer jobs, and the shutdown sequence of Start. A limiter wait
  may fail at any time, a superset of its failures on cancellation.
 */
module WorkerPool {
  import opened Entities

  const QUEUE_CAPACITY: nat := 1000

  type Job = string

  datatype Worker =
    | Idle                            // in `range jobs`
    | Waiting(job: Job)               // in limiter.Wait
    | Working(job: Job)               // in processJob
    | Exited(dropped: Option<Job>)    // returned; the job it held when the limiter failed

  datatype Stage =
    | Subscribing
    | Serving
    | Draining      // channel closed, in wg.Wait
    | Stopped       // returned nil
    | Failed        // returned the subscription error

  datatype State = State(
    stage: Stage,
    cancelled: bool,
    panicked: bool,
    queue: seq<Job>,
    offers: seq<Job>,  // delivery callbacks inside their select
    workers: seq<Worker>,
    wg: int,
    accepted: multiset<Job>,
    finished: multiset<Job>)

  datatype Event =
    | Subscribe(ok: bool)
    | Deliver(job: Job)
    | Push(k: nat)
    | Refuse(k: nat)
    | Cancel
    | Close
    | Join
    | Receive(w: nat)
    | Grant(w: nat)
    | LimitError(w: nat)
    | Finish(w: nat)
    | Leave(w: nat)

  predicate Closed(s: State) {
    s.stage.Draining? || s.stage.Stopped?
  }

  predicate Enabled(s: State, e: Event) {
    !s.panicked &&
    match e
    case Subscribe(_) => s.stage.Subscribing?
    case Deliver(_) => !s.stage.Subscribing? && !s.stage.Failed?
    case Push(k) => k < |s.offers| && (|s.queue| < QUEUE_CAPACITY || Closed(s))
    case Refuse(k) => k < |s.offers| && s.cancelled
    case Cancel => true
    case Close => s.stage.Serving? && s.cancelled
    case Join => s.stage.Draining? && s.wg == 0
    case Receive(w) => w < |s.workers| && s.workers[w].Idle? && s.queue != []
    case Grant(w) => w < |s.workers| && s.workers[w].Waiting?
    case LimitError(w) => w < |s.workers| && s.workers[w].Waiting?
    case Finish(w) => w < |s.workers| && s.workers[w].Working?
    case Leave(w) => w < |s.workers| && s.workers[w].Idle? && s.queue == [] && Closed(s)
  }

  function Without<T>(xs: seq<T>, k: nat): seq<T>
    requires k < |xs|
  {
    xs[..k] + xs[k + 1..]
  }

  function Become(s: State, w: nat, p: Worker): State
    requires w < |s.workers|
  {
    s.(workers := s.workers[w := p])
  }

  function Apply(s: State, e: Event): State {
    if !Enabled(s, e) then s else
    match e
    case Subscribe(ok) => if ok then s.(stage := Serving) else s.(stage := Failed, cancelled := true)
    case Deliver(job) => s.(offers := s.offers + [job])
    case Push(k) =>
      if Closed(s) then s.(panicked := true)
      else s.(offers := Without(s.offers, k), queue := s.queue + [s.offers[k]],
              accepted := s.accepted + multiset{s.offers[k]})
    case Refuse(k) => s.(offers := Without(s.offers, k))
    case Cancel => s.(cancelled := true)
    case Close => s.(stage := Draining)
    case Join => s.(stage := Stopped)
    case Receive(w) => Become(s.(queue := s.queue[1..]), w, Waiting(s.queue[0]))
    case Grant(w) => Become(s, w, Working(s.workers[w].job))
    case LimitError(w) => Become(s.(wg := s.wg - 1), w, Exited(Some(s.workers[w].job)))
    case Finish(w) => Become(s.(finished := s.finished + multiset{s.workers[w].job}), w, Idle)
    case Leave(w) => Become(s.(wg := s.wg - 1), w, Exited(None))
  }

  function Exec(s: State, es: seq<Event>): State {
    if es == [] then s else Apply(Exec(s, es[..|es| - 1]), es[|es| - 1])
  }

  function Launch(workerCount: nat): State {
    State(Subscribing, false, false, [], [], seq(workerCount, _ => Idle), workerCount, multiset{}, multiset{})
  }

  // ----- what the workers hold, drop and still owe -----

  function Held(p: Worker): multiset<Job> {
    match p
    case Waiting(j) => multiset{j}
    case Working(j) => multiset{j}
    case _ => multiset{}
  }

  function Lost(p: Worker): multiset<Job> {
    match p
    case Exited(Some(j)) => multiset{j}
    case _ => multiset{}
  }

  function Total(ws: seq<Worker>, share: Worker -> multiset<Job>): multiset<Job> {
    if ws == [] then multiset{} else Total(ws[..|ws| - 1], share) + share(ws[|ws| - 1])
  }

  function InHand(ws: seq<Worker>): multiset<Job> {
    Total(ws, Held)
  }

  function Abandoned(ws: seq<Worker>): multiset<Job> {
    Total(ws, Lost)
  }

  function Live(p: Worker): nat {
    if p.Exited? then 0 else 1
  }

  function LiveCount(ws: seq<Worker>): nat {
    if ws == [] then 0 else LiveCount(ws[..|ws| - 1]) + Live(ws[|ws| - 1])
  }

  /** Steps a worker can still take by itself. */
  function Owed(p: Worker): nat {
    match p
    case Idle => 1
    case Waiting(_) => 3
    case Working(_) => 2
    case Exited(_) => 0
  }

  function TotalOwed(ws: seq<Worker>): nat {
    if ws == [] then 0 else TotalOwed(ws[..|ws| - 1]) + Owed(ws[|ws| - 1])
  }

  function Measure(s: State): nat {
    3 * |s.queue| + TotalOwed(s.workers)
  }

  // ----- how the totals move when one worker changes -----

  lemma Regroup(a: multiset<Job>, b: multiset<Job>, c: multiset<Job>, d: multiset<Job>, x: multiset<Job>)
    requires a + b == c + d
    ensures (a + x) + b == (c + x) + d
  {
    assert (a + x) + b == (a + b) + x;
  }

  lemma {:induction false} TotalMoves(ws: seq<Worker>, share: Worker -> multiset<Job>, w: nat, p: Worker)
    requires w < |ws|
    ensures Total(ws[w := p], share) + share(ws[w]) == Total(ws, share) + share(p)
  {
    var n := |ws| - 1;
    var ws' := ws[w := p];
    if w == n {
      assert ws'[..n] == ws[..n];
      var rest := Total(ws[..n], share);
      assert (rest + share(p)) + share(ws[w]) == (rest + share(ws[w])) + share(p);
    } else {
      var before := ws[..n];
      TotalMoves(before, share, w, p);
      assert ws'[..n] == before[w := p] && before[w] == ws[w];
      Regroup(Total(before[w := p], share), share(ws[w]), Total(before, share), share(p), share(ws[n]));
    }
  }

  lemma {:induction false} LiveCountMoves(ws: seq<Worker>, w: nat, p: Worker)
    requires w < |ws|
    ensures LiveCount(ws[w := p]) + Live(ws[w]) == LiveCount(ws) + Live(p)
  {
    var n := |ws| - 1;
    var ws' := ws[w := p];
    if w == n {
      assert ws'[..n] == ws[..n];
    } else {
      LiveCountMoves(ws[..n], w, p);
      assert ws'[..n] == ws[..n][w := p];
      assert LiveCount(ws') == LiveCount(ws[..n][w := p]) + Live(ws[n]);
    }
  }

  lemma {:induction false} TotalOwedMoves(ws: seq<Worker>, w: nat, p: Worker)
    requires w < |ws|
    ensures TotalOwed(ws[w := p]) + Owed(ws[w]) == TotalOwed(ws) + Owed(p)
  {
    var n := |ws| - 1;
    var ws' := ws[w := p];
    if w == n {
      assert ws'[..n] == ws[..n];
    } else {
      TotalOwedMoves(ws[..n], w, p);
      assert ws'[..n] == ws[..n][w := p];
      assert TotalOwed(ws') == TotalOwed(ws[..n][w := p]) + Owed(ws[n]);
    }
  }

  /** A worker has at most one job, in hand or dropped. */
  lemma {:induction false} AtMostOneEach(ws: seq<Worker>)
    ensures |InHand(ws)| + |Abandoned(ws)| <= |ws|
  {
    if ws != [] {
      AtMostOneEach(ws[..|ws| - 1]);
    }
  }

  lemma {:induction false} NoneLive(ws: seq<Worker>)
    ensures LiveCount(ws) == 0 <==> forall w :: 0 <= w < |ws| ==> ws[w].Exited?
  {
    if ws != [] {
      NoneLive(ws[..|ws| - 1]);
    }
  }

  lemma {:induction false} NoneInHand(ws: seq<Worker>)
    requires forall w :: 0 <= w < |ws| ==> ws[w].Exited?
    ensures InHand(ws) == multiset{}
  {
    if ws != [] {
      NoneInHand(ws[..|ws| - 1]);
    }
  }

  lemma {:induction false} AllAbandoned(ws: seq<Worker>)
    requires forall w :: 0 <= w < |ws| ==> ws[w].Exited? && ws[w].dropped.Some?
    ensures |Abandoned(ws)| == |ws|
  {
    if ws != [] {
      AllAbandoned(ws[..|ws| - 1]);
    }
  }
}
