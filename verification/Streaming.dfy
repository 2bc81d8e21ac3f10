/**
  StreamModerationResults: paging through a user's contents and sending the
  cached result of each. The content list keeps the repository's order, and the
  list and the cache do not change during the call.
 */
module Streaming {
  import opened Entities

  const PAGE_SIZE: nat := 50

  /** The service's limit clamp. */
  function Clamp(limit: int): nat {
    if limit <= 0 || limit > 100 then 20 else limit
  }

  function Min(a: nat, b: nat): nat {
    if a <= b then a else b
  }

  /** LIMIT and OFFSET. */
  function Page<T>(cs: seq<T>, limit: nat, offset: nat): seq<T> {
    if offset >= |cs| then []
    else if offset + limit >= |cs| then cs[offset..]
    else cs[offset..offset + limit]
  }

  /** WHERE user_id, in the table's order. */
  function UserContents(rows: seq<Content>, user: string): seq<Content> {
    if rows == [] then []
    else (if rows[0].userId == user then [rows[0]] else []) + UserContents(rows[1..], user)
  }

  /** The user's contents are those of the table that name the user as owner, as often as there, ... */
  lemma {:induction false} OwnContents(rows: seq<Content>, user: string, c: Content)
    ensures c in UserContents(rows, user) <==> c in rows && c.userId == user
    ensures multiset(UserContents(rows, user))[c] == if c.userId == user then multiset(rows)[c] else 0
  {
    if rows != [] {
      OwnContents(rows[1..], user, c);
      assert rows == [rows[0]] + rows[1..];
    }
  }

  /** Where in the table they stand. */
  function Places(rows: seq<Content>, user: string): (ps: seq<nat>)
    ensures forall i :: 0 <= i < |ps| ==> ps[i] < |rows|
  {
    if rows == [] then [] else
    var n := |rows| - 1;
    Places(rows[..n], user) + if rows[n].userId == user then [n] else []
  }

  lemma {:induction false} UserContentsConcat(a: seq<Content>, b: seq<Content>, user: string)
    ensures UserContents(a + b, user) == UserContents(a, user) + UserContents(b, user)
  {
    if a == [] {
      assert a + b == b;
    } else {
      UserContentsConcat(a[1..], b, user);
      assert (a + b)[1..] == a[1..] + b && (a + b)[0] == a[0];
    }
  }

  /** ... and in the table's order. */
  lemma {:induction false} OwnInTableOrder(rows: seq<Content>, user: string)
    ensures |Places(rows, user)| == |UserContents(rows, user)|
    ensures forall i, k :: 0 <= i < k < |Places(rows, user)| ==> Places(rows, user)[i] < Places(rows, user)[k]
    ensures forall i :: 0 <= i < |Places(rows, user)| ==> UserContents(rows, user)[i] == rows[Places(rows, user)[i]]
  {
    if rows != [] {
      var n := |rows| - 1;
      OwnInTableOrder(rows[..n], user);
      UserContentsConcat(rows[..n], [rows[n]], user);
      assert rows == rows[..n] + [rows[n]];
      assert [rows[n]][1..] == [] && UserContents([], user) == [];
      assert UserContents([rows[n]], user) == if rows[n].userId == user then [rows[n]] else [];
    }
  }

  /** What one content contributes. */
  function AnswerOf(c: Content, cache: map<string, ModerationResult>): seq<ModerationResult> {
    if c.id != "" && c.id in cache then [cache[c.id]] else []
  }

  /** The simple form: every cached result of the contents, in order. */
  function Answers(cs: seq<Content>, cache: map<string, ModerationResult>): seq<ModerationResult> {
    if cs == [] then [] else AnswerOf(cs[0], cache) + Answers(cs[1..], cache)
  }

  lemma {:induction false} AnswersConcat(a: seq<Content>, b: seq<Content>, cache: map<string, ModerationResult>)
    ensures Answers(a + b, cache) == Answers(a, cache) + Answers(b, cache)
  {
    if a == [] {
      assert a + b == b;
    } else {
      calc {
        Answers(a + b, cache);
        AnswerOf(a[0], cache) + Answers((a + b)[1..], cache);
        { assert (a + b)[1..] == a[1..] + b; }
        AnswerOf(a[0], cache) + Answers(a[1..] + b, cache);
        { AnswersConcat(a[1..], b, cache); }
        AnswerOf(a[0], cache) + (Answers(a[1..], cache) + Answers(b, cache));
        Answers(a, cache) + Answers(b, cache);
      }
    }
  }

  /** Each content with a cached result contributes it exactly once, at its own place. */
  lemma AnswerInPlace(cs: seq<Content>, i: nat, cache: map<string, ModerationResult>)
    requires i < |cs|
    ensures Answers(cs, cache) ==
            Answers(cs[..i], cache)
            + AnswerOf(cs[i], cache) + Answers(cs[i + 1..], cache)
  {
    assert cs == cs[..i] + cs[i..] && cs[i..][1..] == cs[i + 1..];
    AnswersConcat(cs[..i], cs[i..], cache);
  }

  // ----- which page sizes the paging loop works for -----

  /** All the contents the loop visits with a page size of `p`, from `offset` on. */
  function Paged<T>(cs: seq<T>, p: nat, offset: nat): seq<T>
    requires 1 <= p
    decreases |cs| - offset
  {
    var page := Page(cs, Clamp(p), offset);
    if |page| == 0 || |page| < p then page else page + Paged(cs, p, offset + p)
  }

  lemma {:induction false} PagedIsAll<T>(cs: seq<T>, p: nat, offset: nat)
    requires 1 <= p <= 100 && offset <= |cs|
    ensures Paged(cs, p, offset) == cs[offset..]
    decreases |cs| - offset
  {
    if offset + p <= |cs| {
      PagedIsAll(cs, p, offset + p);
      assert cs[offset..] == cs[offset..offset + p] + cs[offset + p..];
    }
  }

  /** The loop visits every content of every list exactly when the clamp leaves its page size alone. */
  lemma PageSizeFitsIff(p: nat)
    requires 1 <= p
    ensures (forall cs: seq<int> :: Paged(cs, p, 0) == cs) <==> Clamp(p) == p
  {
    if p <= 100 {
      forall cs: seq<int>
        ensures Paged(cs, p, 0) == cs
      {
        PagedIsAll(cs, p, 0);
      }
    } else {
      var cs := seq(21, i => i);
      assert |Paged(cs, p, 0)| == 20;
    }
  }

  // ----- the call -----

  datatype Code = OK | Unauthenticated | PermissionDenied | Internal
  datatype SendReply = Sent | Closed | Broken

  /** The outgoing message; its categories are copied one by one. */
  datatype Message = Message(id: string, contentId: string, isApproved: bool, categories: seq<string>)

  function ToMessage(r: ModerationResult): Message {
    Message(r.id, r.contentId, r.isApproved, r.categories)
  }

  function ToMessages(rs: seq<ModerationResult>): (ms: seq<Message>)
    ensures |ms| == |rs|
    ensures forall i :: 0 <= i < |rs| ==> ms[i] == ToMessage(rs[i])
  {
    seq(|rs|, i requires 0 <= i < |rs| => ToMessage(rs[i]))
  }

  /** The simple form of the whole call. */
  function Replies(cs: seq<Content>, cache: map<string, ModerationResult>): seq<Message> {
    ToMessages(Answers(cs, cache))
  }

  lemma RepliesConcat(a: seq<Content>, b: seq<Content>, cache: map<string, ModerationResult>)
    ensures Replies(a + b, cache) == Replies(a, cache) + Replies(b, cache)
  {
    AnswersConcat(a, b, cache);
  }

  /** The replies of a longer prefix are those of a shorter one and of what lies between. */
  lemma RepliesSplit(cs: seq<Content>, i: nat, j: nat, cache: map<string, ModerationResult>)
    requires i <= j <= |cs|
    ensures Replies(cs[..j], cache) == Replies(cs[..i], cache) + Replies(cs[i..j], cache)
  {
    assert cs[..j] == cs[..i] + cs[i..j];
    RepliesConcat(cs[..i], cs[i..j], cache);
  }

  lemma RepliesPrefix(cs: seq<Content>, i: nat, cache: map<string, ModerationResult>)
    requires i <= |cs|
    ensures Replies(cs[..i], cache) <= Replies(cs, cache)
  {
    RepliesSplit(cs, i, |cs|, cache);
    assert cs[..|cs|] == cs;
  }

  lemma RepliesNext(cs: seq<Content>, i: nat, cache: map<string, ModerationResult>)
    requires i < |cs|
    ensures Replies(cs[..i + 1], cache) == Replies(cs[..i], cache) +
            (if cs[i].id != "" && cs[i].id in cache then [ToMessage(cache[cs[i].id])] else [])
  {
    RepliesSplit(cs, i, i + 1, cache);
    var one := cs[i..i + 1];
    assert one == [cs[i]] && one[1..] == [] && Answers(one[1..], cache) == [];
    assert Answers(one, cache) == if cs[i].id != "" && cs[i].id in cache then [cache[cs[i].id]] else [];
    assert cs[i].id != "" && cs[i].id in cache ==> Replies(one, cache) == [ToMessage(cache[cs[i].id])];
  }

  /** The message tells what the result says. */
  predicate Reports(m: Message, r: ModerationResult) {
    m.id == r.id && m.contentId == r.contentId && m.isApproved == r.isApproved && m.categories == r.categories
  }

  /** The content is the user's and has a cached result, which the message reports. */
  predicate ReportsOwn(m: Message, c: Content, rows: seq<Content>, user: string, cache: map<string, ModerationResult>) {
    c in rows && c.userId == user && c.id != "" && c.id in cache && Reports(m, cache[c.id])
  }

  /** The content has a cached result, and it is `r`. */
  predicate Yields(c: Content, cache: map<string, ModerationResult>, r: ModerationResult) {
    c.id != "" && c.id in cache && cache[c.id] == r
  }

  lemma {:induction false} AnswersYielded(cs: seq<Content>, cache: map<string, ModerationResult>, r: ModerationResult)
    ensures r in Answers(cs, cache) <==> exists c :: c in cs && Yields(c, cache, r)
  {
    if cs != [] {
      AnswersYielded(cs[1..], cache, r);
      assert cs == [cs[0]] + cs[1..];
      assert r in AnswerOf(cs[0], cache) <==> Yields(cs[0], cache, r);
    }
  }

  lemma ReplyReports(cs: seq<Content>, cache: map<string, ModerationResult>, m: Message)
    requires m in Replies(cs, cache)
    ensures exists c, r :: c in cs && Yields(c, cache, r) && Reports(m, r)
  {
    var i :| 0 <= i < |Replies(cs, cache)| && Replies(cs, cache)[i] == m;
    AnswersYielded(cs, cache, Answers(cs, cache)[i]);
  }

  lemma ContentReported(cs: seq<Content>, cache: map<string, ModerationResult>, c: Content)
    requires c in cs && c.id != "" && c.id in cache
    ensures exists m :: m in Replies(cs, cache) && Reports(m, cache[c.id])
  {
    var r := cache[c.id];
    assert Yields(c, cache, r);
    AnswersYielded(cs, cache, r);
    var i :| 0 <= i < |Answers(cs, cache)| && Answers(cs, cache)[i] == r;
    assert Replies(cs, cache)[i] in Replies(cs, cache);
  }

  /** Everything sent to a user reports on a content of that user, and a complete stream reports on all of them. */
  lemma OnlyOwnReported(rows: seq<Content>, user: string, cache: map<string, ModerationResult>, sent: seq<Message>)
    requires sent <= Replies(UserContents(rows, user), cache)
    ensures forall m :: m in sent ==> exists c :: ReportsOwn(m, c, rows, user, cache)
    ensures sent == Replies(UserContents(rows, user), cache) ==>
      forall c :: c in rows && c.userId == user && c.id != "" && c.id in cache ==>
        exists m :: m in sent && ReportsOwn(m, c, rows, user, cache)
  {
    var mine := UserContents(rows, user);
    forall m | m in sent
      ensures exists c :: ReportsOwn(m, c, rows, user, cache)
    {
      assert m in Replies(mine, cache);
      ReplyReports(mine, cache, m);
      var c, r :| c in mine && Yields(c, cache, r) && Reports(m, r);
      OwnContents(rows, user, c);
      assert ReportsOwn(m, c, rows, user, cache);
    }
    if sent == Replies(mine, cache) {
      forall c | c in rows && c.userId == user && c.id != "" && c.id in cache
        ensures exists m :: m in sent && ReportsOwn(m, c, rows, user, cache)
      {
        OwnContents(rows, user, c);
        ContentReported(mine, cache, c);
        var m :| m in Replies(mine, cache) && Reports(m, cache[c.id]);
        assert ReportsOwn(m, c, rows, user, cache);
      }
    }
  }

  class Stream {
    var sent: seq<Message>

    constructor ()
      ensures sent == []
    {
      sent := [];
    }

    method Send(m: Message) returns (reply: SendReply)
      modifies this
      ensures sent == if reply.Sent? then old(sent) + [m] else old(sent)
    {
      reply := *;
      match reply {
        case Sent => sent := sent + [m];
        case _ =>
      }
    }
  }

  method BuildMessage(r: ModerationResult) returns (m: Message)
    ensures m == ToMessage(r)
  {
    var categories := new string[|r.categories|];
    for i := 0 to |r.categories|
      invariant categories[..i] == r.categories[..i]
    {
      categories[i] := r.categories[i];
    }
    m := Message(r.id, r.contentId, r.isApproved, categories[..]);
  }

  class Server {
    const rows: seq<Content>
    const cache: map<string, ModerationResult>

    constructor (rs: seq<Content>, results: map<string, ModerationResult>)
      ensures rows == rs && cache == results
    {
      rows, cache := rs, results;
    }

    /** None is an error: an empty user, or the query failed. */
    method ListUserContents(user: string, limit: int, offset: int) returns (page: Option<seq<Content>>)
      ensures page.Some? ==>
        page.value == Page(UserContents(rows, user), Clamp(limit), if offset < 0 then 0 else offset)
      ensures page.Some? ==>
        var mine := UserContents(rows, user);
        var from := if offset < 0 then 0 else Min(offset, |mine|);
        page.value == mine[from..Min(from + if 1 <= limit <= 100 then limit else 20, |mine|)]
      ensures page.Some? ==> forall c :: c in page.value ==> c in rows && c.userId == user
      ensures user == "" ==> page.None?
    {
      if user == "" {
        return None;
      }
      var limit', offset' := limit, offset;
      if limit' <= 0 || limit' > 100 {
        limit' := 20;
      }
      if offset' < 0 {
        offset' := 0;
      }
      var failed: bool := *;
      page := if failed then None else Some(Page(UserContents(rows, user), limit', offset'));
      forall c | c in UserContents(rows, user)
        ensures c in rows && c.userId == user
      {
        OwnContents(rows, user, c);
      }
    }

    method GetModerationResult(id: string) returns (r: Option<ModerationResult>)
      ensures r == if id != "" && id in cache then Some(cache[id]) else None
    {
      r := if id != "" && id in cache then Some(cache[id]) else None;
    }

    /** Sends the cached results of one page; stops at the first failed send. */
    method SendPage(page: seq<Content>, stream: Stream) returns (reply: SendReply)
      modifies stream
      ensures old(stream.sent) <= stream.sent <= old(stream.sent) + Replies(page, cache)
      ensures reply.Sent? ==> stream.sent == old(stream.sent) + Replies(page, cache)
    {
      reply := Sent;
      for i := 0 to |page|
        invariant reply.Sent? && stream.sent == old(stream.sent) + Replies(page[..i], cache)
      {
        RepliesNext(page, i, cache);
        RepliesPrefix(page, i, cache);
        var r := GetModerationResult(page[i].id);
        if r.None? {
          continue;
        }
        var m := BuildMessage(r.value);
        reply := stream.Send(m);
        if !reply.Sent? {
          return;
        }
      }
      assert page[..|page|] == page;
    }

    /** The paging loop; `left` says the client closed the stream. */
    method StreamAll(target: string, stream: Stream) returns (code: Code, left: bool, calls: nat)
      requires target != "" && stream.sent == []
      modifies stream
      ensures code.OK? || code.Internal?
      ensures stream.sent <= Replies(UserContents(rows, target), cache)
      ensures 1 <= calls <= |UserContents(rows, target)| / PAGE_SIZE + 1
      ensures code.OK? && !left ==>
        && stream.sent == Replies(UserContents(rows, target), cache)
        && calls == |UserContents(rows, target)| / PAGE_SIZE + 1
    {
      ghost var mine := UserContents(rows, target);
      ghost var n := |mine|;
      var offset: nat := 0;
      code, left, calls := OK, false, 0;
      while true
        invariant code.OK? && !left && offset == PAGE_SIZE * calls && offset <= n
        invariant stream.sent == Replies(mine[..offset], cache)
        decreases n - offset
      {
        ghost var next := if offset + PAGE_SIZE <= n then offset + PAGE_SIZE else n;
        RepliesSplit(mine, offset, next, cache);
        RepliesPrefix(mine, offset, cache);
        RepliesPrefix(mine, next, cache);
        var page := ListUserContents(target, PAGE_SIZE, offset);
        calls := calls + 1;
        if page.None? {
          return Internal, false, calls;
        }
        assert page.value == mine[offset..next];
        if |page.value| == 0 {
          assert mine[..offset] == mine;
          break;
        }
        var reply := SendPage(page.value, stream);
        if reply.Closed? {
          return OK, true, calls;
        }
        if reply.Broken? {
          return Internal, false, calls;
        }
        if |page.value| < PAGE_SIZE {
          assert mine[..next] == mine;
          break;
        }
        offset := offset + PAGE_SIZE;
      }
    }

    /**
      `user` is the caller's user-id metadata: None without metadata. When the
      call ends well and the client stayed, it has received exactly the cached
      results of all the caller's contents, in order, after n/50+1 list calls.
     */
    method StreamModerationResults(user: Option<string>, requested: string, stream: Stream)
        returns (code: Code, left: bool, calls: nat)
      requires stream.sent == []
      modifies stream
      ensures code.Unauthenticated? <==> user.None? || user.value == ""
      ensures code.PermissionDenied? <==> user.Some? && user.value != "" && requested != "" && requested != user.value
      ensures code.Unauthenticated? || code.PermissionDenied? ==> stream.sent == [] && calls == 0
      ensures user.Some? ==> stream.sent <= Replies(UserContents(rows, user.value), cache)
      ensures user.Some? ==> forall m :: m in stream.sent ==> exists c :: ReportsOwn(m, c, rows, user.value, cache)
      ensures code.OK? && !left ==>
        forall c :: c in rows && c.userId == user.value && c.id != "" && c.id in cache ==>
          exists m :: m in stream.sent && ReportsOwn(m, c, rows, user.value, cache)
      ensures code.OK? && !left ==>
        && stream.sent == Replies(UserContents(rows, user.value), cache)
        && calls == |UserContents(rows, user.value)| / PAGE_SIZE + 1
    {
      if user.None? || user.value == "" {
        return Unauthenticated, false, 0;
      }
      var target := requested;
      if target == "" {
        target := user.value;
      } else if target != user.value {
        return PermissionDenied, false, 0;
      }
      code, left, calls := StreamAll(target, stream);
      OnlyOwnReported(rows, target, cache, stream.sent);
    }
  }
}
