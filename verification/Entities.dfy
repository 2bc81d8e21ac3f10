/**
  The values that travel between the components of the service: moderation
  results, contents and notifications, and the option type used for lookups.
 */
module Entities {

  datatype Option<+T> = None | Some(value: T)

  datatype ModerationResult =
    ModerationResult(id: string, contentId: string, isApproved: bool, categories: seq<string>)

  datatype Status = Pending | Approved | Rejected

  datatype ContentType = Text | Image | Unsupported(name: string)

  datatype Content =
    Content(id: string, userId: string, kind: ContentType, status: Status, moderationId: Option<string>)

  datatype Notification = Notification(userId: string, contentId: string, verdict: Status)

  /** What a WebSocket client is told. */
  datatype Realtime = Realtime(userId: string, contentId: string, kind: string)

  /** A text on the Redis channel: what the bridge marshalled, or something that does not unmarshal. */
  datatype Payload = Json(note: Realtime) | Garbled

  /** The status a result asks for. */
  function Verdict(r: ModerationResult): Status {
    if r.isApproved then Approved else Rejected
  }

  /** When a stored key stops being visible; a zero time-to-live means never. */
  datatype Expiry = Never | At(time: nat)

  function Expires(now: nat, ttl: nat): Expiry {
    if ttl == 0 then Never else At(now + ttl)
  }

  predicate Expired(x: Expiry, now: nat) {
    x.At? && x.time <= now
  }

  /**
    What a caller sees of one command sent to a remote store. Acked: it ran and
    the reply arrived. Dropped: it never ran, the caller gets an error.
    AckLost: it ran, but the caller gets an error.
   */
  datatype Reply = Acked | Dropped | AckLost
}
