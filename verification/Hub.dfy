/**
  The WebSocket hub: clients filed by user, one bounded channel per client, an
  event loop that registers, unregisters and broadcasts, and writers that drain
  the channels concurrently. Go panics on a send to, or a second close of, a
  closed channel; here both are preconditions of the channel operations.
 */
module Hub {

  import opened Entities

  const SEND_BUFFER: nat := 256

  /** One connection: its channel, and the history of what its writer took from it. */
  class Client {
    const userId: string
    var send: seq<Payload>
    var closed: bool
    ghost var taken: seq<Payload>
    ghost var since: nat  // how many messages its user had been sent when it registered

    constructor (user: string)
      ensures userId == user && send == [] && !closed && taken == []
    {
      userId, send, closed := user, [], false;
      taken, since := [], 0;
    }

    /** Everything that ever entered the channel. */
    ghost function Entered(): seq<Payload>
      reads this
    {
      taken + send
    }

    /** `select { case c.send <- msg: default: }` */
    method Offer(msg: Payload) returns (sent: bool)
      requires !closed
      modifies this`send
      ensures sent <==> |old(send)| < SEND_BUFFER
      ensures send == if sent then old(send) + [msg] else old(send)
    {
      sent := |send| < SEND_BUFFER;
      if sent {
        send := send + [msg];
      }
    }

    method Close()
      requires !closed
      modifies this`closed
      ensures closed
    {
      closed := true;
    }

    /** A receive by the writer; a closed channel still yields what it buffers. */
    method Take()
      modifies this`send, this`taken
      ensures Entered() == old(Entered()) && old(taken) <= taken
      ensures |old(send)| > 0 ==> taken == old(taken) + [old(send)[0]] && send == old(send)[1..]
      ensures |old(send)| == 0 ==> taken == old(taken) && send == []
    {
      if |send| > 0 {
        taken := taken + [send[0]];
        send := send[1..];
      }
    }
  }

  /** What can be observed of one client. */
  datatype Seen = Seen(taken: seq<Payload>, send: seq<Payload>, closed: bool, filed: bool, since: nat)
  {
    ghost function Entered(): seq<Payload> {
      taken + send
    }
  }

  /** An open client has all it was owed since it registered. */
  ghost predicate UpToDate(x: Seen, sent: seq<Payload>) {
    |x.send| <= SEND_BUFFER && x.since <= |sent| && !x.closed && x.Entered() == sent[x.since..]
  }

  /** What a removed client got is a prefix of what it would have been owed. */
  ghost predicate CutOff(x: Seen, sent: seq<Payload>) {
    |x.send| <= SEND_BUFFER && x.since <= |sent| && x.closed && x.Entered() <= sent[x.since..]
  }

  ghost predicate ServedAs(x: Seen, sent: seq<Payload>) {
    if x.filed then UpToDate(x, sent) else CutOff(x, sent)
  }

  ghost function SentTo(sent: map<string, seq<Payload>>, user: string): seq<Payload> {
    if user in sent then sent[user] else []
  }

  ghost predicate AllServed(looks: map<Client, Seen>, sent: map<string, seq<Payload>>) {
    forall c :: c in looks ==> ServedAs(looks[c], SentTo(sent, c.userId))
  }

  /** Non-empty sets, each client under its own user. */
  ghost predicate Filed(clients: map<string, set<Client>>, known: set<Client>) {
    forall u :: u in clients ==> clients[u] != {} && clients[u] <= known && forall c :: c in clients[u] ==> c.userId == u
  }

  /** The client is filed in the map. */
  predicate In(clients: map<string, set<Client>>, c: Client) {
    c.userId in clients && c in clients[c.userId]
  }

  function With(clients: map<string, set<Client>>, c: Client): map<string, set<Client>> {
    clients[c.userId := (if c.userId in clients then clients[c.userId] else {}) + {c}]
  }

  /** The client taken out, and its user as well when nobody is left there. */
  function Without(clients: map<string, set<Client>>, c: Client): map<string, set<Client>> {
    if c.userId !in clients then clients
    else if clients[c.userId] - {c} == {} then clients - {c.userId}
    else clients[c.userId := clients[c.userId] - {c}]
  }

  lemma WithFiles(clients: map<string, set<Client>>, known: set<Client>, c: Client)
    requires Filed(clients, known)
    ensures Filed(With(clients, c), known + {c})
    ensures forall d :: In(With(clients, c), d) <==> In(clients, d) || d == c
  {
  }

  lemma WithoutFiles(clients: map<string, set<Client>>, known: set<Client>, c: Client)
    requires Filed(clients, known)
    ensures Filed(Without(clients, c), known)
    ensures forall d :: In(Without(clients, c), d) <==> In(clients, d) && d != c
  {
    forall d | In(clients, d) && d != c
      ensures In(Without(clients, c), d)
    {
      assert d.userId == c.userId ==> d in clients[c.userId] - {c};
    }
  }

  /** Emptying a user's set and then dropping the user, as the code does it. */
  lemma UnfiledInSteps(clients: map<string, set<Client>>, c: Client)
    requires c.userId in clients
    ensures
      var m := clients[c.userId := clients[c.userId] - {c}];
      (if m[c.userId] == {} then m - {c.userId} else m) == Without(clients, c)
  {
  }

  /** The map without some clients, and without the users nobody is left of. */
  function Pruned(clients: map<string, set<Client>>, gone: set<Client>): map<string, set<Client>> {
    map u | u in clients && clients[u] - gone != {} :: clients[u] - gone
  }

  lemma PrunedFiles(clients: map<string, set<Client>>, known: set<Client>, gone: set<Client>)
    requires Filed(clients, known)
    ensures Filed(Pruned(clients, gone), known)
    ensures forall d :: In(Pruned(clients, gone), d) <==> In(clients, d) && d !in gone
  {
    forall d | In(clients, d) && d !in gone
      ensures In(Pruned(clients, gone), d)
    {
      assert d in clients[d.userId] - gone;
    }
  }

  /** The map is determined by who is filed: no two orders of removals can end differently. */
  lemma FiledByMembers(a: map<string, set<Client>>, b: map<string, set<Client>>, known: set<Client>)
    requires Filed(a, known) && Filed(b, known)
    requires forall d :: d in known ==> (In(a, d) <==> In(b, d))
    ensures a == b
  {
    forall u | u in a
      ensures u in b && a[u] == b[u]
    {
      var d :| d in a[u];
      assert In(a, d) && In(b, d);
      assert forall e :: e in a[u] ==> In(a, e) && In(b, e);
      assert forall e :: e in b[u] ==> In(b, e) && In(a, e);
    }
    forall u | u in b
      ensures u in a
    {
      var d :| d in b[u];
      assert In(b, d) && In(a, d);
    }
  }

  /** Taking out a client that is not filed changes nothing. */
  lemma WithoutStranger(clients: map<string, set<Client>>, known: set<Client>, c: Client)
    requires Filed(clients, known) && !In(clients, c)
    ensures Without(clients, c) == clients
  {
    if c.userId in clients {
      assert clients[c.userId] - {c} == clients[c.userId];
    }
  }

  /** Only its writer was active. */
  ghost predicate Spared(a: Seen, b: Seen) {
    b.Entered() == a.Entered() && a.taken <= b.taken && b == a.(taken := b.taken, send := b.send)
  }

  /**
    What a client of the snapshot saw of a broadcast: the message, or its
    eviction for being full. If its writer took nothing meanwhile, being full
    before decides which.
   */
  ghost predicate Offered(a: Seen, b: Seen, msg: Payload) {
    && a.taken <= b.taken && b.since == a.since
    && if b.filed then
         !b.closed && |b.send| <= SEND_BUFFER && b.Entered() == a.Entered() + [msg] && (b.taken == a.taken ==> |a.send| < SEND_BUFFER)
       else
         b.closed && b.Entered() == a.Entered() && |a.send| >= SEND_BUFFER
  }

  /** A client's lot between two states of a broadcast: already offered the message, or not. */
  ghost predicate Fate(a: Seen, b: Seen, msg: Payload, offered: bool) {
    if offered then Offered(a, b, msg) else Spared(a, b)
  }

  lemma FatesCompose(a: Seen, b: Seen, c: Seen, msg: Payload, before: bool, now: bool)
    requires Fate(a, b, msg, before) && Fate(b, c, msg, now) && !(before && now)
    ensures Fate(a, c, msg, before || now)
  {
    assert |a.taken| + |a.send| == |a.Entered()| && |b.taken| + |b.send| == |b.Entered()|;
    if c.taken == a.taken {
      assert b.taken == a.taken;
    }
  }

  /** The lots of all clients: those in `offered` were offered the message, the others were spared. */
  ghost predicate Fates(a: map<Client, Seen>, b: map<Client, Seen>, msg: Payload, offered: set<Client>) {
    a.Keys == b.Keys && offered <= a.Keys && forall c :: c in a ==> Fate(a[c], b[c], msg, c in offered)
  }

  lemma AllFatesCompose(a: map<Client, Seen>, b: map<Client, Seen>, c: map<Client, Seen>, msg: Payload,
                        before: set<Client>, now: set<Client>)
    requires Fates(a, b, msg, before) && Fates(b, c, msg, now) && before !! now
    ensures Fates(a, c, msg, before + now)
  {
    forall d | d in a
      ensures Fate(a[d], c[d], msg, d in before + now)
    {
      FatesCompose(a[d], b[d], c[d], msg, d in before, d in now);
    }
  }

  /** No writer was active. */
  ghost predicate NobodyTook(a: map<Client, Seen>, b: map<Client, Seen>) {
    a.Keys == b.Keys && forall c :: c in a ==> b[c].taken == a[c].taken
  }

  /** A broadcast as a function of what it found: append where there is room, else close and remove. */
  ghost function Expected(a: map<Client, Seen>, msg: Payload, offered: set<Client>): map<Client, Seen> {
    map c | c in a :: if c !in offered then a[c]
                      else if |a[c].send| < SEND_BUFFER then a[c].(send := a[c].send + [msg])
                      else a[c].(closed := true, filed := false)
  }

  /** Those of the offered clients that had no room. */
  ghost function Full(a: map<Client, Seen>, offered: set<Client>): set<Client> {
    set c | c in offered && c in a && |a[c].send| >= SEND_BUFFER
  }

  /** The clients show whether the map has them filed. */
  ghost predicate Shows(clients: map<string, set<Client>>, looks: map<Client, Seen>) {
    forall c :: c in looks ==> looks[c].filed == In(clients, c)
  }

  /** Who is left after a broadcast with idle writers, as a map: again nothing depends on the order. */
  lemma ExpectedMap(before: map<string, set<Client>>, after: map<string, set<Client>>, known: set<Client>,
                    a: map<Client, Seen>, b: map<Client, Seen>, msg: Payload, offered: set<Client>)
    requires Filed(before, known) && Filed(after, known) && a.Keys == known && b == Expected(a, msg, offered)
    requires Shows(before, a) && Shows(after, b)
    requires forall d :: d in offered ==> d in known && In(before, d)
    ensures after == Pruned(before, Full(a, offered))
  {
    PrunedFiles(before, known, Full(a, offered));
    forall d | d in known
      ensures In(after, d) <==> In(Pruned(before, Full(a, offered)), d)
    {
      assert b[d].filed == In(after, d) && a[d].filed == In(before, d);
    }
    FiledByMembers(after, Pruned(before, Full(a, offered)), known);
  }

  lemma IdleOutcome(before: map<string, set<Client>>, after: map<string, set<Client>>, known: set<Client>,
                    a: map<Client, Seen>, b: map<Client, Seen>, msg: Payload, offered: set<Client>)
    requires Filed(before, known) && Filed(after, known) && a.Keys == known
    requires Shows(before, a) && Shows(after, b)
    requires Fates(a, b, msg, offered) && NobodyTook(a, b)
    requires forall d :: d in offered ==> d in known && In(before, d) && !a[d].closed
    ensures b == Expected(a, msg, offered) && after == Pruned(before, Full(a, offered))
  {
    FatesExpected(a, b, msg, offered);
    ExpectedMap(before, after, known, a, b, msg, offered);
  }

  /** With the writers idle, the order of the offers cannot matter. */
  lemma FatesExpected(a: map<Client, Seen>, b: map<Client, Seen>, msg: Payload, offered: set<Client>)
    requires Fates(a, b, msg, offered) && NobodyTook(a, b)
    requires forall c :: c in offered ==> a[c].filed && !a[c].closed
    ensures b == Expected(a, msg, offered)
  {
    forall c | c in a
      ensures b[c] == Expected(a, msg, offered)[c]
    {
      assert Fate(a[c], b[c], msg, c in offered);
      SameRest(a[c].taken, b[c].send, a[c].send + [msg]);
      SameRest(a[c].taken, b[c].send, a[c].send);
      assert a[c].Entered() + [msg] == a[c].taken + (a[c].send + [msg]);
    }
  }

  lemma SameRest(x: seq<Payload>, y: seq<Payload>, z: seq<Payload>)
    ensures x + y == x + z ==> y == z
  {
    assert (x + y)[|x|..] == y && (x + z)[|x|..] == z;
  }

  /** Nothing of any client but `c` has changed. */
  ghost predicate OnlyChanged(a: map<Client, Seen>, b: map<Client, Seen>, c: Client) {
    c in b && a.Keys <= b.Keys <= a.Keys + {c} && forall d :: d in a && d != c ==> b[d] == a[d]
  }

  lemma OneServes(a: map<Client, Seen>, b: map<Client, Seen>, sent: map<string, seq<Payload>>, c: Client)
    requires AllServed(a, sent) && OnlyChanged(a, b, c) && ServedAs(b[c], SentTo(sent, c.userId))
    ensures AllServed(b, sent)
  {
    forall d | d in b
      ensures ServedAs(b[d], SentTo(sent, d.userId))
    {
      if d != c {
        assert b[d] == a[d];
      }
    }
  }

  /** Only `c` was offered the message: room means delivery, a full channel eviction. */
  ghost predicate OneOffer(a: map<Client, Seen>, b: map<Client, Seen>, msg: Payload, c: Client) {
    && a.Keys == b.Keys && c in a && a[c].filed && !a[c].closed
    && (forall d :: d in a && d != c ==> b[d] == a[d])
    && b[c] == if |a[c].send| < SEND_BUFFER then a[c].(send := a[c].send + [msg])
               else a[c].(closed := true, filed := false)
  }

  lemma OneOfferFates(a: map<Client, Seen>, b: map<Client, Seen>, msg: Payload, c: Client)
    requires OneOffer(a, b, msg, c)
    ensures Fates(a, b, msg, {c})
  {
  }

  /** One client's share after a broadcast to its user: filed clients were offered the message. */
  lemma OfferServes(x: Seen, y: Seen, sent: seq<Payload>, msg: Payload)
    requires ServedAs(x, sent) && Fate(x, y, msg, x.filed)
    ensures ServedAs(y, sent + [msg])
  {
    assert (sent + [msg])[x.since..] == sent[x.since..] + [msg];
    assert |x.taken| + |x.send| == |x.Entered()| && |y.taken| + |y.send| == |y.Entered()|;
  }

  lemma SparedServes(x: Seen, y: Seen, sent: seq<Payload>)
    requires ServedAs(x, sent) && Spared(x, y)
    ensures ServedAs(y, sent)
  {
    assert |x.taken| + |x.send| == |x.Entered()| && |y.taken| + |y.send| == |y.Entered()|;
  }

  /** A broadcast offered to exactly the user's filed clients serves everyone. */
  lemma BroadcastServes(a: map<Client, Seen>, b: map<Client, Seen>, sent: map<string, seq<Payload>>,
                        user: string, msg: Payload)
    requires AllServed(a, sent) && Fates(a, b, msg, FiledOf(a, user))
    ensures AllServed(b, sent[user := SentTo(sent, user) + [msg]])
  {
    forall c | c in b
      ensures ServedAs(b[c], SentTo(sent[user := SentTo(sent, user) + [msg]], c.userId))
    {
      if c.userId == user {
        OfferServes(a[c], b[c], SentTo(sent, user), msg);
      } else {
        SparedServes(a[c], b[c], SentTo(sent, c.userId));
      }
    }
  }

  lemma Moved(todo: set<Client>, done: set<Client>, c: Client)
    requires c in todo && todo !! done
    ensures todo - {c} < todo && (todo - {c}) !! (done + {c}) && done + {c} + (todo - {c}) == done + todo
    ensures done !! {c}
  {
  }

  class Hub {
    var clients: map<string, set<Client>>
    ghost var known: set<Client>  // every client ever registered
    ghost var sent: map<string, seq<Payload>>  // the broadcasts to each user

    predicate Registered(c: Client)
      reads this`clients
    {
      In(clients, c)
    }

    function Snapshot(user: string): set<Client>
      reads this`clients
    {
      if user in clients then clients[user] else {}
    }

    ghost function Look(c: Client): Seen
      reads this`clients, c
    {
      Seen(c.taken, c.send, c.closed, Registered(c), c.since)
    }

    ghost function LookAll(): map<Client, Seen>
      reads this`clients, this`known, known
    {
      map c | c in known :: Look(c)
    }

    /** No message is lost silently: a client is up to date, or it has been disconnected. */
    ghost predicate Valid()
      reads this, known
    {
      Filed(clients, known) && AllServed(LookAll(), sent)
    }

    constructor ()
      ensures Valid() && clients == map[] && known == {} && sent == map[]
    {
      clients, known, sent := map[], {}, map[];
    }

    method Register(c: Client)
      requires Valid() && c !in known && !c.closed && c.taken == c.send == []
      modifies this`clients, this`known, c`since
      ensures Valid() && known == old(known) + {c}
      ensures clients == With(old(clients), c)
      ensures OnlyChanged(old(LookAll()), LookAll(), c)
      ensures Look(c) == Seen([], [], false, true, |SentTo(sent, c.userId)|)
    {
      WithFiles(clients, known, c);
      FileNew(c);
      OneServes(old(LookAll()), LookAll(), sent, c);
    }

    method FileNew(c: Client)
      requires c !in known
      requires forall d :: In(With(clients, c), d) <==> In(clients, d) || d == c
      modifies this`clients, this`known, c`since
      ensures known == old(known) + {c} && c.since == |SentTo(sent, c.userId)|
      ensures clients == With(old(clients), c)
      ensures OnlyChanged(old(LookAll()), LookAll(), c)
      ensures LookAll()[c] == Look(c)
    {
      File(c);
      c.since := |SentTo(sent, c.userId)|;
      known := known + {c};
      assert forall d :: d in old(known) ==> Look(d) == old(Look(d));
    }

    method File(c: Client)
      modifies this`clients
      ensures clients == With(old(clients), c)
    {
      if c.userId !in clients {
        clients := clients[c.userId := {}];
      }
      clients := clients[c.userId := clients[c.userId] + {c}];
    }

    /** Sent twice per connection, possibly after an eviction: only the first removal acts. */
    method Unregister(c: Client)
      requires Valid() && c in known
      modifies this`clients, c`closed
      ensures Valid()
      ensures clients == Without(old(clients), c)
      ensures OnlyChanged(old(LookAll()), LookAll(), c)
      ensures Look(c) == if old(Registered(c)) then old(Look(c)).(closed := true, filed := false) else old(Look(c))
    {
      WithoutFiles(clients, known, c);
      assert LookAll()[c] == Look(c);
      Unfile(c);
      OneServes(old(LookAll()), LookAll(), sent, c);
    }

    method Unfile(c: Client)
      requires Filed(clients, known) && c in known && (Registered(c) ==> !c.closed)
      requires forall d :: In(Without(clients, c), d) <==> In(clients, d) && d != c
      modifies this`clients, c`closed
      ensures clients == Without(old(clients), c)
      ensures c.closed == (old(c.closed) || old(Registered(c)))
      ensures OnlyChanged(old(LookAll()), LookAll(), c)
      ensures LookAll()[c] == Look(c)
    {
      if !In(clients, c) {
        WithoutStranger(clients, known, c);
      }
      if c.userId in clients {
        UnfiledInSteps(clients, c);
        if c in clients[c.userId] {
          clients := clients[c.userId := clients[c.userId] - {c}];
          c.Close();
        }
        if clients[c.userId] == {} {
          clients := clients - {c.userId};
        }
      }
      assert clients == Without(old(clients), c);
      assert forall d :: d in known && d != c ==> Look(d) == old(Look(d));
    }

    /** Delivery to one client; a full channel means eviction. */
    method SendToClient(c: Client, msg: Payload)
      requires Registered(c) && !c.closed
      modifies this`clients, c`send, c`closed
      ensures clients == if |old(c.send)| < SEND_BUFFER then old(clients) else Without(old(clients), c)
      ensures c.closed <==> |old(c.send)| >= SEND_BUFFER
      ensures c.send == if |old(c.send)| < SEND_BUFFER then old(c.send) + [msg] else old(c.send)
    {
      var ok := c.Offer(msg);
      if !ok {
        UnfiledInSteps(clients, c);
        c.Close();
        if c.userId in clients {
          clients := clients[c.userId := clients[c.userId] - {c}];
          if clients[c.userId] == {} {
            clients := clients - {c.userId};
          }
        }
        assert clients == Without(old(clients), c);
      }
    }

    /** The writers of some connections each take a message. */
    method WritersRun(writers: seq<Client>)
      requires forall c :: c in writers ==> c in known
      modifies known`send, known`taken
      ensures forall c :: c in known ==> Spared(old(Look(c)), Look(c))
      ensures writers == [] ==> forall c :: c in known ==> c.taken == old(c.taken)
    {
      for k := 0 to |writers|
        invariant forall c :: c in known ==> Spared(old(Look(c)), Look(c))
        invariant k == 0 ==> forall c :: c in known ==> c.taken == old(c.taken)
      {
        writers[k].Take();
      }
    }

    method WritersTurn(msg: Payload, writers: seq<Client>)
      requires forall c :: c in writers ==> c in known
      modifies known`send, known`taken
      ensures Fates(old(LookAll()), LookAll(), msg, {})
      ensures writers == [] ==> NobodyTook(old(LookAll()), LookAll())
    {
      WritersRun(writers);
      assert forall c :: c in known ==> LookAll()[c] == Look(c);
    }

    /** One client of the snapshot is offered the message. */
    method OfferNext(msg: Payload, c: Client)
      requires Filed(clients, known) && Registered(c) && !c.closed
      modifies this`clients, c`send, c`closed
      ensures Filed(clients, known)
      ensures OneOffer(old(LookAll()), LookAll(), msg, c)
    {
      WithoutFiles(clients, known, c);
      SendToClient(c, msg);
      assert forall d :: d in known && d != c ==> Look(d) == old(Look(d));
    }

    /** One turn of the loop: some writers take messages, then one client is offered this one. */
    method Turn(msg: Payload, c: Client, writers: seq<Client>)
      requires Filed(clients, known) && Registered(c) && !c.closed
      requires forall d :: d in writers ==> d in known
      modifies this`clients, known
      ensures Filed(clients, known)
      ensures Fates(old(LookAll()), LookAll(), msg, {c})
      ensures writers == [] ==> NobodyTook(old(LookAll()), LookAll())
    {
      assert LookAll()[c] == Look(c);
      WritersTurn(msg, writers);
      ghost var b := LookAll();
      assert b[c] == Look(c);
      OfferNext(msg, c);
      OneOfferFates(b, LookAll(), msg, c);
      AllFatesCompose(old(LookAll()), b, LookAll(), msg, {}, {c});
      assert {} + {c} == {c};
    }

    /** The same turn, seen from the start of the loop. */
    method NextTurn(msg: Payload, todo: set<Client>, writers: seq<Client>,
                    ghost start: map<Client, Seen>, ghost done: set<Client>)
      returns (left: set<Client>, ghost met: set<Client>)
      requires Filed(clients, known) && Fates(start, LookAll(), msg, done)
      requires todo != {} && todo !! done && todo <= known
      requires forall c :: c in todo ==> start[c].filed && !start[c].closed
      requires forall d :: d in writers ==> d in known
      modifies this`clients, known
      ensures Filed(clients, known) && Fates(start, LookAll(), msg, met)
      ensures left < todo && left !! met && met + left == done + todo
      ensures writers == [] && NobodyTook(start, old(LookAll())) ==> NobodyTook(start, LookAll())
    {
      var c :| c in todo;
      ghost var b := LookAll();
      assert Spared(start[c], b[c]) && b[c] == Look(c);
      Moved(todo, done, c);
      Turn(msg, c, writers);
      left, met := todo - {c}, done + {c};
      AllFatesCompose(start, b, LookAll(), msg, done, {c});
    }

    /**
      Delivery to a snapshot of the user's clients, in whatever order the map
      yields them, while writers keep draining.
     */
    method DeliverAll(user: string, msg: Payload, writers: seq<seq<Client>>)
      requires Valid()
      requires forall w, c :: w in writers && c in w ==> c in known
      modifies this`clients, known
      ensures Filed(clients, known)
      ensures Fates(old(LookAll()), LookAll(), msg, old(Snapshot(user)))
      ensures writers == [] ==> NobodyTook(old(LookAll()), LookAll())
    {
      var todo := Snapshot(user);
      ghost var start, done := LookAll(), {};
      assert forall c :: c in todo ==> c in start && start[c] == Look(c);
      var k: nat := 0;
      while todo != {}
        invariant done !! todo && done + todo == old(Snapshot(user)) && todo <= known
        invariant forall c :: c in todo ==> start[c].filed && !start[c].closed
        invariant Filed(clients, known) && Fates(start, LookAll(), msg, done)
        invariant writers == [] ==> NobodyTook(start, LookAll())
        decreases todo
      {
        todo, done := NextTurn(msg, todo, if k < |writers| then writers[k] else [], start, done);
        k := k + 1;
      }
    }

    /**
      Every client of the snapshot gets the message or is disconnected for being
      full, whatever the order; every other client is left to its writer.
     */
    method Broadcast(user: string, msg: Payload, writers: seq<seq<Client>>)
      requires Valid()
      requires forall w, c :: w in writers && c in w ==> c in known
      modifies this`clients, this`sent, known
      ensures Valid() && sent == old(sent)[user := SentTo(old(sent), user) + [msg]]
      ensures Fates(old(LookAll()), LookAll(), msg, old(Snapshot(user)))
      ensures writers == [] ==> LookAll() == Expected(old(LookAll()), msg, old(Snapshot(user)))
      ensures writers == [] ==> clients == Pruned(old(clients), Full(old(LookAll()), old(Snapshot(user))))
    {
      ghost var before, start, to := clients, LookAll(), Snapshot(user);
      LooksShow();
      BroadcastAll(user, msg, writers);
      if writers == [] {
        LooksShow();
        IdleOutcome(before, clients, known, start, LookAll(), msg, to);
      }
    }

    method BroadcastAll(user: string, msg: Payload, writers: seq<seq<Client>>)
      requires Valid()
      requires forall w, c :: w in writers && c in w ==> c in known
      modifies this`clients, this`sent, known
      ensures Valid() && sent == old(sent)[user := SentTo(old(sent), user) + [msg]]
      ensures Fates(old(LookAll()), LookAll(), msg, old(Snapshot(user)))
      ensures writers == [] ==> NobodyTook(old(LookAll()), LookAll())
    {
      ghost var start := LookAll();
      ToFiled(user);
      DeliverAll(user, msg, writers);
      BroadcastServes(start, LookAll(), sent, user, msg);
      sent := sent[user := SentTo(sent, user) + [msg]];
    }

    lemma LooksShow()
      ensures Shows(clients, LookAll())
    {
      assert forall c :: c in known ==> LookAll()[c] == Look(c);
    }

    /**
      The event loop over any sequence of requests and writer activity, up to the
      first shutdown. Requests name connections by the order in which they were
      opened. Every connection ends up as its share of the history demands.
     */
    method Run(events: seq<HubEvent>) returns (conns: seq<Client>, ghost handled: nat)
      requires Valid()
      modifies this, known
      ensures Valid() && old(known) <= known && fresh(known - old(known))
      ensures handled <= |events| && (handled < |events| ==> events[handled] == Shutdown)
      ensures forall j :: 0 <= j < handled ==> events[j] != Shutdown
      ensures sent == AllSent(old(sent), events[..handled])
      ensures |conns| == |Connects(events[..handled])|
      ensures forall k :: 0 <= k < |conns| ==>
        conns[k] in known && Accounted(Look(conns[k]), conns[k].userId, events[..handled], k)
    {
      ghost var base := sent;
      conns, handled := [], 0;
      var i := 0;
      NobodyYet(LookAll(), base);
      while i < |events| && events[i] != Shutdown
        invariant 0 <= i <= |events| && forall j :: 0 <= j < i ==> events[j] != Shutdown
        invariant Valid() && old(known) <= known && fresh(known - old(known))
        invariant sent == AllSent(base, events[..i])
        invariant Roster(LookAll(), conns, events[..i], base)
      {
        conns := HandleNext(events[i], events[..i], base, conns);
        assert events[..i] + [events[i]] == events[..i + 1];
        i := i + 1;
      }
      handled := i;
      RosterAccounted(LookAll(), conns, events[..i], base, sent);
    }

    method HandleNext(e: HubEvent, ghost es: seq<HubEvent>, ghost base: map<string, seq<Payload>>, conns: seq<Client>)
      returns (conns': seq<Client>)
      requires Valid() && sent == AllSent(base, es) && Roster(LookAll(), conns, es, base)
      modifies this, known
      ensures Valid() && old(known) <= known && fresh(known - old(known))
      ensures sent == AllSent(base, es + [e]) && Roster(LookAll(), conns', es + [e], base)
    {
      ghost var a := LookAll();
      assert forall c :: c in conns ==> c in a;
      conns' := Handle(e, conns);
      RosterStep(a, LookAll(), conns, conns', base, es, e);
      assert (es + [e])[..|es|] == es;
    }

    method Handle(e: HubEvent, conns: seq<Client>) returns (conns': seq<Client>)
      requires Valid() && forall c :: c in conns ==> c in known
      modifies this, known
      ensures Valid() && old(known) <= known && fresh(known - old(known))
      ensures sent == SentAfter(old(sent), e)
      ensures Handled(old(LookAll()), LookAll(), conns, conns', old(sent), e)
    {
      conns' := conns;
      match e {
        case Connect(user) =>
          var c := Open(user);
          conns' := conns + [c];
        case Disconnect(k) =>
          if k < |conns| {
            Unregister(conns[k]);
          }
        case Send(user, msg, writers) =>
          ToFiled(user);
          Broadcast(user, msg, Pick(conns, writers));
        case Drain(k) =>
          if k < |conns| {
            WriterTurn(conns[k]);
          }
        case Shutdown =>
      }
    }

    /** The snapshot, told from what the clients show. */
    lemma ToFiled(user: string)
      requires Filed(clients, known)
      ensures Snapshot(user) == FiledOf(LookAll(), user)
    {
      assert forall c :: c in known ==> LookAll()[c] == Look(c);
    }

    /** A new connection registers its client, once. */
    method Open(user: string) returns (c: Client)
      requires Valid()
      modifies this`clients, this`known
      ensures Valid() && fresh(c) && known == old(known) + {c} && c.userId == user
      ensures OnlyChanged(old(LookAll()), LookAll(), c)
      ensures LookAll()[c] == Seen([], [], false, true, |SentTo(sent, user)|)
    {
      c := new Client(user);
      Register(c);
      assert LookAll()[c] == Look(c);
    }

    method WriterTurn(c: Client)
      requires Valid() && c in known
      modifies c`send, c`taken
      ensures Valid()
      ensures OnlyChanged(old(LookAll()), LookAll(), c)
      ensures Drained(old(LookAll())[c], LookAll()[c])
    {
      assert LookAll()[c] == Look(c);
      c.Take();
      assert forall d :: d in known && d != c ==> Look(d) == old(Look(d));
      SparedServes(old(Look(c)), Look(c), SentTo(sent, c.userId));
      OneServes(old(LookAll()), LookAll(), sent, c);
      assert LookAll()[c] == Look(c);
    }
  }

  datatype HubEvent =
    | Connect(user: string)
    | Disconnect(conn: nat)
    | Send(user: string, msg: Payload, writers: seq<seq<nat>>)
    | Drain(conn: nat)
    | Shutdown

  /** The connections that exist among those named. */
  function Pick(conns: seq<Client>, names: seq<seq<nat>>): (r: seq<seq<Client>>)
    ensures |r| == |names| && forall w, c :: w in r && c in w ==> c in conns
    ensures forall i :: 0 <= i < |names| ==> r[i] == PickOne(conns, names[i])
  {
    seq(|names|, i requires 0 <= i < |names| => PickOne(conns, names[i]))
  }

  function PickOne(conns: seq<Client>, names: seq<nat>): (r: seq<Client>)
    ensures forall c :: c in r ==> c in conns
    ensures forall j :: 0 <= j < |names| && names[j] < |conns| ==> conns[names[j]] in r
  {
    if names == [] then []
    else (if names[0] < |conns| then [conns[names[0]]] else []) + PickOne(conns, names[1..])
  }

  // ----- the history of the event loop -----

  /** The messages a history broadcasts to a user. */
  function MessagesTo(es: seq<HubEvent>, user: string): seq<Payload> {
    if es == [] then [] else
    var e := es[|es| - 1];
    MessagesTo(es[..|es| - 1], user) + if e.Send? && e.user == user then [e.msg] else []
  }

  ghost function SentAfter(sent: map<string, seq<Payload>>, e: HubEvent): map<string, seq<Payload>> {
    if e.Send? then sent[e.user := SentTo(sent, e.user) + [e.msg]] else sent
  }

  ghost function AllSent(sent: map<string, seq<Payload>>, es: seq<HubEvent>): map<string, seq<Payload>> {
    if es == [] then sent else SentAfter(AllSent(sent, es[..|es| - 1]), es[|es| - 1])
  }

  lemma {:induction false} AllSentIsMessages(sent: map<string, seq<Payload>>, es: seq<HubEvent>, user: string)
    ensures SentTo(AllSent(sent, es), user) == SentTo(sent, user) + MessagesTo(es, user)
  {
    if es != [] {
      AllSentIsMessages(sent, es[..|es| - 1], user);
    }
  }

  lemma {:induction false} MessagesConcat(a: seq<HubEvent>, b: seq<HubEvent>, user: string)
    ensures MessagesTo(a + b, user) == MessagesTo(a, user) + MessagesTo(b, user)
  {
    if b == [] {
      assert a + b == a;
    } else {
      var n := |b| - 1;
      MessagesConcat(a, b[..n], user);
      assert (a + b)[..|a| + n] == a + b[..n];
    }
  }

  /** Where the connections were opened. */
  function Connects(es: seq<HubEvent>): (r: seq<nat>)
    ensures forall k :: 0 <= k < |r| ==> r[k] < |es| && es[r[k]].Connect?
  {
    if es == [] then [] else
    var n := |es| - 1;
    Connects(es[..n]) + if es[n].Connect? then [n] else []
  }

  /** The connection was asked to go after it was opened. */
  ghost predicate Asked(es: seq<HubEvent>, k: nat)
    requires k < |Connects(es)|
  {
    exists j :: Connects(es)[k] < j < |es| && es[j] == Disconnect(k)
  }

  /**
    What the history owes its k-th connection: everything sent to its user since
    it was opened, as long as it is filed. It is not filed if it was asked to go,
    or after more than its channel holds had been put there.
   */
  ghost predicate Accounted(x: Seen, user: string, es: seq<HubEvent>, k: nat)
    requires k < |Connects(es)|
  {
    var p := Connects(es)[k];
    var owed := MessagesTo(es[p..], user);
    && es[p] == Connect(user)
    && |x.send| <= SEND_BUFFER
    && if x.filed then
         !x.closed && x.Entered() == owed && !Asked(es, k)
       else
         x.closed && x.Entered() <= owed && (Asked(es, k) || |x.Entered()| >= SEND_BUFFER)
  }

  /** The clients of a user that are filed. */
  ghost function FiledOf(looks: map<Client, Seen>, user: string): set<Client> {
    set c | c in looks && c.userId == user && looks[c].filed
  }

  /** A writer took the oldest message, if there was one. */
  ghost predicate Drained(a: Seen, b: Seen) {
    Spared(a, b) && (a.send != [] ==> |b.taken| == |a.taken| + 1)
  }

  /** What one event did to the clients and to the list of connections. */
  ghost predicate Handled(a: map<Client, Seen>, b: map<Client, Seen>, conns: seq<Client>, conns': seq<Client>,
                          sent: map<string, seq<Payload>>, e: HubEvent)
  {
    match e
    case Connect(user) =>
      && |conns'| == |conns| + 1 && conns'[..|conns|] == conns
      && var c := conns'[|conns|];
      && c !in a && c.userId == user && OnlyChanged(a, b, c)
      && b[c] == Seen([], [], false, true, |SentTo(sent, user)|)
    case Disconnect(k) =>
      && conns' == conns
      && if k < |conns| && conns[k] in a then
           OnlyChanged(a, b, conns[k]) &&
           b[conns[k]] == if a[conns[k]].filed then a[conns[k]].(closed := true, filed := false) else a[conns[k]]
         else b == a
    case Send(user, msg, _) => conns' == conns && Fates(a, b, msg, FiledOf(a, user))
    case Drain(k) =>
      && conns' == conns
      && if k < |conns| && conns[k] in a then OnlyChanged(a, b, conns[k]) && Drained(a[conns[k]], b[conns[k]])
         else b == a
    case Shutdown => conns' == conns && b == a
  }

  /** Connection `k` registered when it was opened, and is filed unless it was asked to go or found full. */
  ghost predicate Kept(x: Seen, user: string, es: seq<HubEvent>, k: nat, base: map<string, seq<Payload>>)
    requires k < |Connects(es)|
  {
    var p := Connects(es)[k];
    && es[p] == Connect(user)
    && x.since == |SentTo(base, user)| + |MessagesTo(es[..p], user)|
    && (x.filed ==> !Asked(es, k))
    && (!x.filed ==> Asked(es, k) || |x.Entered()| >= SEND_BUFFER)
  }

  ghost predicate Roster(looks: map<Client, Seen>, conns: seq<Client>, es: seq<HubEvent>, base: map<string, seq<Payload>>) {
    && |conns| == |Connects(es)|
    && (forall k :: 0 <= k < |conns| ==> conns[k] in looks)
    && (forall i, k :: 0 <= i < k < |conns| ==> conns[i] != conns[k])
    && forall k: nat :: k < |conns| ==> Kept(looks[conns[k]], conns[k].userId, es, k, base)
  }

  lemma NobodyYet(looks: map<Client, Seen>, base: map<string, seq<Payload>>)
    ensures Roster(looks, [], [], base)
  {
  }

  /** One more event leaves what was known of the older connections, up to a request to go. */
  lemma HistoryStep(es: seq<HubEvent>, e: HubEvent, k: nat)
    requires k < |Connects(es)|
    ensures k < |Connects(es + [e])| && Connects(es + [e])[k] == Connects(es)[k]
    ensures (es + [e])[..Connects(es)[k]] == es[..Connects(es)[k]]
    ensures (es + [e])[Connects(es)[k]] == es[Connects(es)[k]]
    ensures Asked(es + [e], k) <==> Asked(es, k) || e == Disconnect(k)
  {
    var es' := es + [e];
    assert es'[..|es|] == es;
    var p := Connects(es)[k];
    if Asked(es, k) {
      var j :| p < j < |es| && es[j] == Disconnect(k);
      assert es'[j] == Disconnect(k);
    }
    if e == Disconnect(k) {
      assert es'[|es|] == Disconnect(k);
    }
    if Asked(es', k) && e != Disconnect(k) {
      var j :| p < j < |es'| && es'[j] == Disconnect(k);
      assert es[j] == Disconnect(k);
    }
  }

  /** An older connection across one event. */
  lemma KeptStep(a: map<Client, Seen>, b: map<Client, Seen>, conns: seq<Client>, conns': seq<Client>,
                 base: map<string, seq<Payload>>, es: seq<HubEvent>, e: HubEvent, k: nat)
    requires Roster(a, conns, es, base) && Handled(a, b, conns, conns', AllSent(base, es), e)
    requires k < |conns|
    ensures conns[k] in b && k < |Connects(es + [e])| && Kept(b[conns[k]], conns[k].userId, es + [e], k, base)
  {
    HistoryStep(es, e, k);
    assert Kept(a[conns[k]], conns[k].userId, es, k, base);
    match e
    case Connect(_) =>
      assert conns[k] != conns'[|conns|];
    case Disconnect(_) =>
    case Send(user, msg, _) =>
      assert Fate(a[conns[k]], b[conns[k]], msg, conns[k] in FiledOf(a, user));
      FullEnough(a[conns[k]]);
    case Drain(_) =>
    case Shutdown =>
  }

  lemma FullEnough(x: Seen)
    ensures |x.Entered()| >= |x.send|
  {
  }

  /** The connection just opened. */
  lemma NewcomerKept(a: map<Client, Seen>, b: map<Client, Seen>, conns: seq<Client>, conns': seq<Client>,
                     base: map<string, seq<Payload>>, es: seq<HubEvent>, user: string)
    requires |conns| == |Connects(es)| && Handled(a, b, conns, conns', AllSent(base, es), Connect(user))
    ensures
      var es' := es + [Connect(user)];
      && |conns| < |Connects(es')| == |conns'| && Connects(es')[|conns|] == |es|
      && Kept(b[conns'[|conns|]], user, es', |conns|, base)
  {
    var es' := es + [Connect(user)];
    assert es'[..|es|] == es;
    AllSentIsMessages(base, es, user);
    NotAskedYet(es', |conns|);
  }

  lemma ConnectsNumber(es: seq<HubEvent>, e: HubEvent)
    ensures |Connects(es + [e])| == |Connects(es)| + if e.Connect? then 1 else 0
  {
    assert (es + [e])[..|es|] == es;
  }

  lemma RosterStep(a: map<Client, Seen>, b: map<Client, Seen>, conns: seq<Client>, conns': seq<Client>,
                   base: map<string, seq<Payload>>, es: seq<HubEvent>, e: HubEvent)
    requires Roster(a, conns, es, base) && Handled(a, b, conns, conns', AllSent(base, es), e)
    ensures Roster(b, conns', es + [e], base)
  {
    ConnectsNumber(es, e);
    forall k: nat | k < |conns'|
      ensures conns'[k] in b && Kept(b[conns'[k]], conns'[k].userId, es + [e], k, base)
    {
      if k < |conns| {
        SameConn(a, b, conns, conns', AllSent(base, es), e, k);
        KeptStep(a, b, conns, conns', base, es, e, k);
      } else {
        NewcomerKept(a, b, conns, conns', base, es, e.user);
      }
    }
    forall i, k | 0 <= i < k < |conns'|
      ensures conns'[i] != conns'[k]
    {
      SameConn(a, b, conns, conns', AllSent(base, es), e, i);
      if k < |conns| {
        SameConn(a, b, conns, conns', AllSent(base, es), e, k);
      }
    }
  }

  lemma SameConn(a: map<Client, Seen>, b: map<Client, Seen>, conns: seq<Client>, conns': seq<Client>,
                 sent: map<string, seq<Payload>>, e: HubEvent, k: nat)
    requires Handled(a, b, conns, conns', sent, e) && k < |conns|
    ensures |conns| <= |conns'| && conns'[k] == conns[k]
  {
    assert e.Connect? ==> conns'[..|conns|][k] == conns[k];
  }

  lemma NotAskedYet(es: seq<HubEvent>, k: nat)
    requires k < |Connects(es)| && Connects(es)[k] == |es| - 1
    ensures !Asked(es, k)
  {
  }

  /** What a client that registered at position `p` is owed. */
  lemma OwedSince(base: map<string, seq<Payload>>, es: seq<HubEvent>, p: nat, user: string)
    requires p <= |es|
    ensures
      var all, since := SentTo(AllSent(base, es), user), |SentTo(base, user)| + |MessagesTo(es[..p], user)|;
      since <= |all| && all[since..] == MessagesTo(es[p..], user)
  {
    AllSentIsMessages(base, es, user);
    MessagesConcat(es[..p], es[p..], user);
    assert es == es[..p] + es[p..];
    var before, owed := SentTo(base, user) + MessagesTo(es[..p], user), MessagesTo(es[p..], user);
    assert SentTo(AllSent(base, es), user) == before + owed;
    assert (before + owed)[|before|..] == owed;
  }

  /** With everyone served, the roster accounts for every connection. */
  lemma RosterAccounted(looks: map<Client, Seen>, conns: seq<Client>, es: seq<HubEvent>,
                        base: map<string, seq<Payload>>, sent: map<string, seq<Payload>>)
    requires Roster(looks, conns, es, base) && AllServed(looks, sent) && sent == AllSent(base, es)
    ensures forall k :: 0 <= k < |conns| ==> Accounted(looks[conns[k]], conns[k].userId, es, k)
  {
    forall k: nat | k < |conns|
      ensures Accounted(looks[conns[k]], conns[k].userId, es, k)
    {
      var x, u, p := looks[conns[k]], conns[k].userId, Connects(es)[k];
      assert Kept(x, u, es, k, base) && ServedAs(x, SentTo(sent, u));
      OwedSince(base, es, p, u);
    }
  }
}
