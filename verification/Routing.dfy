/**
  The notification path end to end: from the moderation workflow's published
  notifications, through the bridge, the Redis channel and the hub's broadcast
  queue, into the hub and its clients' channels. Between the stages messages may
  be lost, repeated and reordered; texts that do not unmarshal may turn up on the
  Redis channel, but nobody else publishes well-formed ones.
 */
module Routing {
  import opened Entities
  import Moderation
  import opened Provenance
  import Hub

  const BROADCAST_QUEUE: nat := 100

  function KindName(v: Status): string {
    match v
    case Approved => "approved"
    case Rejected => "rejected"
    case Pending => "pending"
  }

  /** The bridge's mapping. */
  function ToRealtime(n: Notification): Realtime {
    Realtime(n.userId, n.contentId, KindName(n.verdict))
  }

  datatype Queued = Queued(userId: string, message: Payload)

  /** `dispatched` is what the hub's event loop has taken from its queue, in order. */
  datatype State = State(mod: Moderation.State, wire: seq<Payload>, queue: seq<Queued>, dispatched: seq<Queued>)

  datatype Event =
    | Moderate(e: Moderation.Event)
    | Bridge(k: nat)
    | Noise
    | Relay(j: nat)
    | Dispatch

  predicate Enabled(s: State, e: Event) {
    match e
    case Moderate(_) => true
    case Bridge(k) => k < |s.mod.history| && s.mod.history[k].Notified?
    case Noise => true
    case Relay(j) => j < |s.wire| && |s.queue| < BROADCAST_QUEUE
    case Dispatch => s.queue != []
  }

  /** What arrives on the Redis channel is queued for its user, or dropped if it does not unmarshal. */
  function Relayed(queue: seq<Queued>, p: Payload): seq<Queued> {
    match p
    case Json(note) => queue + [Queued(note.userId, p)]
    case Garbled => queue
  }

  function Apply(s: State, e: Event): State {
    if !Enabled(s, e) then s else
    match e
    case Moderate(m) => s.(mod := Moderation.Apply(s.mod, m))
    case Bridge(k) => s.(wire := s.wire + [Json(ToRealtime(s.mod.history[k].note))])
    case Noise => s.(wire := s.wire + [Garbled])
    case Relay(j) => s.(queue := Relayed(s.queue, s.wire[j]))
    case Dispatch => s.(queue := s.queue[1..], dispatched := s.dispatched + [s.queue[0]])
  }

  function Exec(s: State, es: seq<Event>): State {
    if es == [] then s else Apply(Exec(s, es[..|es| - 1]), es[|es| - 1])
  }

  function Start(jobTimeout: nat): State {
    State(Moderation.Empty(jobTimeout), [], [], [])
  }

  // ----- every message on the way stems from a published notification -----

  ghost predicate Stems(h: seq<Moderation.Action>, p: Payload, userId: string) {
    exists k :: 0 <= k < |h| && h[k].Notified? && p == Json(ToRealtime(h[k].note)) && h[k].note.userId == userId
  }

  ghost predicate AllStem(h: seq<Moderation.Action>, ms: seq<Queued>) {
    forall j :: 0 <= j < |ms| ==> Stems(h, ms[j].message, ms[j].userId)
  }

  ghost predicate Routed(s: State) {
    && (forall j :: 0 <= j < |s.wire| && s.wire[j].Json? ==> Stems(s.mod.history, s.wire[j], s.wire[j].note.userId))
    && AllStem(s.mod.history, s.queue)
    && AllStem(s.mod.history, s.dispatched)
  }

  lemma StemsGrows(h: seq<Moderation.Action>, h': seq<Moderation.Action>, p: Payload, u: string)
    requires h <= h' && Stems(h, p, u)
    ensures Stems(h', p, u)
  {
    var k :| 0 <= k < |h| && h[k].Notified? && p == Json(ToRealtime(h[k].note)) && h[k].note.userId == u;
    assert h'[k] == h[k];
  }

  lemma RoutedModerate(s: State, e: Moderation.Event)
    requires Routed(s)
    ensures Routed(Apply(s, Moderate(e)))
  {
    var h, h' := s.mod.history, Moderation.Apply(s.mod, e).history;
    Moderation.HistoryOnlyGrows(s.mod, e);
    forall p, u | Stems(h, p, u)
      ensures Stems(h', p, u)
    {
      StemsGrows(h, h', p, u);
    }
  }

  lemma RoutedBridge(s: State, k: nat)
    requires Routed(s) && Enabled(s, Bridge(k))
    ensures Routed(Apply(s, Bridge(k)))
  {
    var n := s.mod.history[k].note;
    assert Stems(s.mod.history, Json(ToRealtime(n)), n.userId);
  }

  lemma RoutedStep(s: State, e: Event)
    requires Routed(s)
    ensures Routed(Apply(s, e))
  {
    if Enabled(s, e) {
      match e
      case Moderate(m) => RoutedModerate(s, m);
      case Bridge(k) => RoutedBridge(s, k);
      case Noise =>
      case Relay(j) =>
      case Dispatch =>
    }
  }

  /** The moderation part of a run is itself a run of the moderation workflow. */
  function ModerationPart(es: seq<Event>): seq<Moderation.Event> {
    if es == [] then [] else
    var rest := ModerationPart(es[..|es| - 1]);
    if es[|es| - 1].Moderate? then rest + [es[|es| - 1].e] else rest
  }

  lemma {:induction false} RunRouted(jobTimeout: nat, es: seq<Event>)
    ensures Routed(Exec(Start(jobTimeout), es))
    ensures Exec(Start(jobTimeout), es).mod == Moderation.Exec(Moderation.Empty(jobTimeout), ModerationPart(es))
  {
    if es != [] {
      var n := |es| - 1;
      RunRouted(jobTimeout, es[..n]);
      RoutedStep(Exec(Start(jobTimeout), es[..n]), es[n]);
      if es[n].Moderate? {
        var ms := ModerationPart(es[..n]);
        assert (ms + [es[n].e])[..|ms|] == ms;
      }
    }
  }

  /** A decision, made by the AI and then written, on a content of user `u`. */
  ghost predicate Announces(mod: Moderation.State, p: Payload, u: string) {
    && p.Json? && p.note.userId == u
    && p.note.contentId in mod.owners && mod.owners[p.note.contentId] == u
    && exists a, b, k, v :: Chain(mod.history, a, b, k, p.note.contentId, v) &&
         p.note.kind == if mod.history[a].result.isApproved then "approved" else "rejected"
  }

  /** Whatever the hub is given for user `u` announces a decision on a content of `u`. */
  lemma OnlyOwnDecisionsDispatched(jobTimeout: nat, es: seq<Event>, m: nat)
    requires m < |Exec(Start(jobTimeout), es).dispatched|
    ensures
      var s := Exec(Start(jobTimeout), es);
      Announces(s.mod, s.dispatched[m].message, s.dispatched[m].userId)
  {
    var s := Exec(Start(jobTimeout), es);
    RunRouted(jobTimeout, es);
    var u, p := s.dispatched[m].userId, s.dispatched[m].message;
    assert Stems(s.mod.history, p, u);
    var h := s.mod.history;
    var k :| 0 <= k < |h| && h[k].Notified? && p == Json(ToRealtime(h[k].note)) && h[k].note.userId == u;
    NotificationChain(jobTimeout, ModerationPart(es), k);
    var n := h[k].note;
    var a, b :| Chain(h, a, b, k, n.contentId, n.verdict);
    assert p.note.kind == KindName(n.verdict);
  }

  // ----- in order, and all the way -----

  /** What the Redis handler queued, in order. */
  function QueuedUp(jobTimeout: nat, es: seq<Event>): seq<Queued> {
    if es == [] then [] else
    var n := |es| - 1;
    QueuedUp(jobTimeout, es[..n]) + Added(Exec(Start(jobTimeout), es[..n]), es[n])
  }

  /** A text from the wire that unmarshals is queued for the user it names. */
  function Added(s: State, e: Event): seq<Queued> {
    if Enabled(s, e) && e.Relay? && s.wire[e.j].Json? then [Queued(s.wire[e.j].note.userId, s.wire[e.j])] else []
  }

  lemma QueueStep(s: State, e: Event)
    ensures Apply(s, e).dispatched + Apply(s, e).queue == s.dispatched + s.queue + Added(s, e)
    ensures |s.queue| <= BROADCAST_QUEUE ==> |Apply(s, e).queue| <= BROADCAST_QUEUE
  {
    if Enabled(s, e) {
      match e
      case Moderate(_) =>
      case Bridge(_) =>
      case Noise =>
      case Relay(_) =>
      case Dispatch => assert s.queue == [s.queue[0]] + s.queue[1..];
    }
  }

  /** The hub gets the queued messages in order, and the queue holds the rest, at most 100. */
  lemma {:induction false} DispatchedInOrder(jobTimeout: nat, es: seq<Event>)
    ensures
      var s := Exec(Start(jobTimeout), es);
      QueuedUp(jobTimeout, es) == s.dispatched + s.queue && |s.queue| <= BROADCAST_QUEUE
  {
    if es != [] {
      var n := |es| - 1;
      DispatchedInOrder(jobTimeout, es[..n]);
      QueueStep(Exec(Start(jobTimeout), es[..n]), es[n]);
    }
  }

  /** A published notification that is bridged and relayed at once is queued for its user, telling content and verdict. */
  lemma NotificationRuns(s: State, k: nat)
    requires k < |s.mod.history| && s.mod.history[k].Notified? && |s.queue| < BROADCAST_QUEUE
    requires s.mod.history[k].note.verdict != Pending
    ensures
      var n := s.mod.history[k].note;
      var t := Apply(Apply(s, Bridge(k)), Relay(|s.wire|));
      t.queue == s.queue + [Queued(n.userId, Json(Realtime(n.userId, n.contentId,
                                if n.verdict == Approved then "approved" else "rejected")))]
  {
    var n := s.mod.history[k].note;
    assert Apply(s, Bridge(k)).wire[|s.wire|] == Json(ToRealtime(n));
  }

  /** A text that does not unmarshal is dropped by the handler. */
  lemma NoiseIsDropped(s: State)
    requires |s.queue| < BROADCAST_QUEUE
    ensures
      var noisy := Apply(s, Noise);
      |noisy.wire| == |s.wire| + 1 && Apply(noisy, Relay(|s.wire|)) == noisy && noisy.queue == s.queue
  {
  }

  // ----- into the hub -----

  /** The hub broadcasts nothing but what was dispatched to it. */
  ghost predicate FedBy(events: seq<Hub.HubEvent>, dispatched: seq<Queued>) {
    forall j :: 0 <= j < |events| && events[j].Send? ==> Queued(events[j].user, events[j].msg) in dispatched
  }

  lemma {:induction false} MessageWasSent(events: seq<Hub.HubEvent>, user: string, p: Payload)
    requires p in Hub.MessagesTo(events, user)
    ensures exists j :: 0 <= j < |events| && events[j].Send? && events[j].user == user && events[j].msg == p
  {
    var n := |events| - 1;
    if !(events[n].Send? && events[n].user == user && events[n].msg == p) {
      MessageWasSent(events[..n], user, p);
    }
  }

  lemma EnteredWasOwed(x: Hub.Seen, user: string, events: seq<Hub.HubEvent>, k: nat, p: Payload)
    requires k < |Hub.Connects(events)| && Hub.Accounted(x, user, events, k) && p in x.Entered()
    ensures exists j :: 0 <= j < |events| && events[j].Send? && events[j].user == user && events[j].msg == p
  {
    var from := Hub.Connects(events)[k];
    var owed := Hub.MessagesTo(events[from..], user);
    var i :| 0 <= i < |x.Entered()| && x.Entered()[i] == p;
    assert owed[i] == p;
    MessageWasSent(events[from..], user, p);
    var j :| 0 <= j < |events[from..]| && events[from..][j].Send? && events[from..][j].user == user && events[from..][j].msg == p;
    assert events[from + j] == events[from..][j];
  }

  /**
    The whole path: run the hub on what a run of the stages before it dispatched.
    Whatever enters a client's channel announces a decision on a content of that
    client's user.
   */
  method OnlyOwnDecisionsArrive(h: Hub.Hub, ghost jobTimeout: nat, ghost es: seq<Event>, events: seq<Hub.HubEvent>)
    returns (conns: seq<Hub.Client>, ghost handled: nat)
    requires h.Valid() && FedBy(events, Exec(Start(jobTimeout), es).dispatched)
    modifies h, h.known
    ensures h.Valid() && handled <= |events| && |conns| == |Hub.Connects(events[..handled])|
    ensures forall k :: 0 <= k < |conns| ==>
      Hub.Accounted(h.Look(conns[k]), conns[k].userId, events[..handled], k)
    ensures forall k, p :: 0 <= k < |conns| && p in conns[k].Entered() ==>
      Announces(Exec(Start(jobTimeout), es).mod, p, conns[k].userId)
  {
    conns, handled := h.Run(events);
    forall k, p | 0 <= k < |conns| && p in conns[k].Entered()
      ensures Announces(Exec(Start(jobTimeout), es).mod, p, conns[k].userId)
    {
      assert p in h.Look(conns[k]).Entered();
      EnteredWasOwed(h.Look(conns[k]), conns[k].userId, events[..handled], k, p);
      FedAnnounces(jobTimeout, es, events, conns[k].userId, p);
    }
  }

  lemma FedAnnounces(jobTimeout: nat, es: seq<Event>, events: seq<Hub.HubEvent>, user: string, p: Payload)
    requires FedBy(events, Exec(Start(jobTimeout), es).dispatched)
    requires exists j :: 0 <= j < |events| && events[j].Send? && events[j].user == user && events[j].msg == p
    ensures Announces(Exec(Start(jobTimeout), es).mod, p, user)
  {
    var s := Exec(Start(jobTimeout), es);
    var m :| 0 <= m < |s.dispatched| && s.dispatched[m] == Queued(user, p);
    OnlyOwnDecisionsDispatched(jobTimeout, es, m);
  }
}
