/**
  One Redis key space under three uses: cached results filed under content ids,
  idempotency marks and cache locks under prefixed keys.
 */
module Keyspace {
  import opened Entities

  const IDEMPOTENT: string := "idempotent:moderate:"
  const LOCK: string := "lock:"

  /** A stored JSON result, the empty JSON object of a mark, or a lock token. */
  datatype Value = Result(result: ModerationResult) | EmptyObject | Token(owner: nat)

  type Data = map<string, Value>

  datatype SideOp =
    | Mark(id: string)
    | Unmark(id: string)
    | Lock(key: string, owner: nat)
    | Unlock(key: string, owner: nat)
    | Expire(side: SideOp)   // the key of `side` times out

  function KeyOf(op: SideOp): string {
    match op
    case Mark(id) => IDEMPOTENT + id
    case Unmark(id) => IDEMPOTENT + id
    case Lock(k, _) => LOCK + k
    case Unlock(k, _) => LOCK + k
    case Expire(o) => KeyOf(o)
  }

  function Apply(d: Data, op: SideOp): Data {
    var k := KeyOf(op);
    match op
    case Mark(_) => if k in d then d else d[k := EmptyObject]
    case Unmark(_) => d - {k}
    case Lock(_, owner) => if k in d then d else d[k := Token(owner)]
    case Unlock(_, owner) => if k in d && d[k] == Token(owner) then d - {k} else d
    case Expire(_) => d - {k}
  }

  function Exec(d: Data, ops: seq<SideOp>): Data {
    if ops == [] then d else Apply(Exec(d, ops[..|ops| - 1]), ops[|ops| - 1])
  }

  function Lookup(d: Data, id: string): Option<Value> {
    if id in d then Some(d[id]) else None
  }

  predicate Plain(id: string) {
    !(IDEMPOTENT <= id) && !(LOCK <= id)
  }

  lemma {:induction false} SideKeysPrefixed(op: SideOp)
    ensures !Plain(KeyOf(op))
  {
    if op.Expire? {
      SideKeysPrefixed(op.side);
    }
  }

  /** Marks and locks never share a key, and distinct contents never share a mark or a lock. */
  lemma SideKeysSeparate(a: string, b: string)
    ensures IDEMPOTENT + a != LOCK + b
    ensures IDEMPOTENT + a == IDEMPOTENT + b ==> a == b
    ensures LOCK + a == LOCK + b ==> a == b
  {
    assert (IDEMPOTENT + a)[0] == 'i' && (LOCK + b)[0] == 'l';
    assert (IDEMPOTENT + a)[|IDEMPOTENT|..] == a && (IDEMPOTENT + b)[|IDEMPOTENT|..] == b;
    assert (LOCK + a)[|LOCK|..] == a && (LOCK + b)[|LOCK|..] == b;
  }

  /** The side operations leave what is filed under `id` as it was. */
  predicate Spares(d: Data, ops: seq<SideOp>, id: string) {
    Lookup(Exec(d, ops), id) == Lookup(d, id)
  }

  lemma {:induction false} PlainSpared(d: Data, ops: seq<SideOp>, id: string)
    requires Plain(id)
    ensures Spares(d, ops, id)
  {
    if ops != [] {
      var n := |ops| - 1;
      PlainSpared(d, ops[..n], id);
      SideKeysPrefixed(ops[n]);
    }
  }

  /** The result of a content is safe from all locking, in every run, exactly when its id lacks both prefixes. */
  lemma SparedIffPlain(id: string)
    ensures (forall d: Data, ops: seq<SideOp> :: Spares(d, ops, id)) <==> Plain(id)
  {
    if Plain(id) {
      forall d: Data, ops: seq<SideOp>
        ensures Spares(d, ops, id)
      {
        PlainSpared(d, ops, id);
      }
    } else {
      var op := if IDEMPOTENT <= id then Mark(id[|IDEMPOTENT|..]) else Lock(id[|LOCK|..], 0);
      assert KeyOf(op) == id;
      var d: Data := map[];
      var ops := [op];
      assert ops[..0] == [] && Exec(d, ops) == Apply(Exec(d, ops[..0]), op);
      assert !Spares(d, ops, id);
    }
  }

  /** A lock is taken only when absent, and only its own token releases it. */
  lemma LockCycle(d: Data, k: string, a: nat, b: nat)
    requires LOCK + k !in d && a != b
    ensures
      var held := Apply(d, Lock(k, a));
      && Lookup(held, LOCK + k) == Some(Token(a))
      && Apply(held, Lock(k, b)) == held
      && Apply(held, Unlock(k, b)) == held
      && Apply(held, Unlock(k, a)) == d
      && Apply(held, Expire(Lock(k, a))) == d
  {
  }

  /** A mark is taken only when absent; its release does not ask whose it is. */
  lemma MarkCycle(d: Data, id: string)
    requires IDEMPOTENT + id !in d
    ensures
      var held := Apply(d, Mark(id));
      && Lookup(held, IDEMPOTENT + id) == Some(EmptyObject)
      && Apply(held, Mark(id)) == held
      && Apply(held, Unmark(id)) == d
      && Apply(held, Expire(Mark(id))) == d
  {
  }

  /** What a stored value decodes to as a result: an empty object to the zero result, a lock token to an error. */
  function Decode(v: Value): Option<ModerationResult> {
    match v
    case Result(r) => Some(r)
    case EmptyObject => Some(ModerationResult("", "", false, []))
    case Token(_) => None
  }

  /** A result filed under a plain id reads back unchanged through any locking that follows. */
  lemma ResultReadsBack(d: Data, id: string, r: ModerationResult, ops: seq<SideOp>)
    requires Plain(id)
    ensures
      var v := Lookup(Exec(d[id := Result(r)], ops), id);
      v.Some? && Decode(v.value) == Some(r)
  {
    PlainSpared(d[id := Result(r)], ops, id);
  }

  /** The Redis store, changed in place. A dropped command never ran; the caller sees an error for any reply but Acked. */
  class RedisCacheStore {
    var data: Data

    constructor ()
      ensures data == map[]
    {
      data := map[];
    }

    /** None is an error: a miss, a failed command, or a value that is no result. */
    method GetModerationResult(contentId: string, reply: Reply) returns (result: Option<ModerationResult>)
      ensures result.Some? <==> reply == Acked && contentId in data && !data[contentId].Token?
      ensures result.Some? ==> result == Decode(data[contentId])
    {
      if reply != Acked || contentId !in data {
        return None;
      }
      result := Decode(data[contentId]);
    }

    method SetModerationResult(contentId: string, result: ModerationResult, reply: Reply) returns (failed: bool)
      modifies this
      ensures failed <==> reply != Acked
      ensures data == if reply == Dropped then old(data) else old(data)[contentId := Result(result)]
    {
      if reply != Dropped {
        data := data[contentId := Result(result)];
      }
      failed := reply != Acked;
    }

    /** An unconditional delete; on an idempotency key it is the side operation Unmark. */
    method Invalidate(key: string, reply: Reply) returns (failed: bool)
      modifies this
      ensures failed <==> reply != Acked
      ensures reply == Dropped ==> data == old(data)
      ensures reply != Dropped ==> data == old(data) - {key} &&
                                   forall id :: key == IDEMPOTENT + id ==> data == Apply(old(data), Unmark(id))
    {
      if reply != Dropped {
        data := data - {key};
      }
      failed := reply != Acked;
    }

    /** Setting an absent key to the empty object; on an idempotency key it is the side operation Mark. */
    method SetIfNotExists(key: string, reply: Reply) returns (ok: bool, failed: bool)
      modifies this
      ensures failed <==> reply != Acked
      ensures ok <==> reply == Acked && key !in old(data)
      ensures data == if reply != Dropped && key !in old(data) then old(data)[key := EmptyObject] else old(data)
      ensures reply != Dropped ==> forall id :: key == IDEMPOTENT + id ==> data == Apply(old(data), Mark(id))
    {
      ok := false;
      if reply != Dropped && key !in data {
        data := data[key := EmptyObject];
        ok := reply == Acked;
      }
      failed := reply != Acked;
    }
  }
}
