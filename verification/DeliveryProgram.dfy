/**
  The subscription callback of moderation jobs and the dead-letter monitor's
  callback as programs. Between any two of their commands other callbacks, the
  server and the publishers may take any number of steps; each execution is a
  run of the Delivery machine.
 */
module DeliveryProgram {
  import opened Entities
  import opened Delivery
  import opened DeliveryLaws

  class Broker {
    var stream: seq<Message>
    var callbacks: seq<Callback>
    var records: seq<Record>
    var notices: seq<Option<Notice>>
    var letters: seq<DeadLetter>
    ghost var log: seq<Event>

    function View(): State
      reads this
    {
      State(stream, callbacks, records, notices, letters)
    }

    ghost predicate Valid()
      reads this
    {
      View() == Exec(EMPTY, log)
    }

    constructor ()
      ensures Valid() && log == [] && View() == EMPTY
    {
      stream, callbacks, records, notices, letters, log := [], [], [], [], [], [];
    }

    ghost method Logged(e: Event, v: State)
      requires v == Exec(EMPTY, log) && View() == Apply(v, e)
      modifies this`log
      ensures Valid() && log == old(log) + [e]
    {
      ExecAppend(EMPTY, log, e);
      log := log + [e];
    }

    method Take(e: Event)
      requires Valid()
      modifies this
      ensures Valid() && View() == Apply(old(View()), e) && log == old(log) + [e]
    {
      var s := Apply(View(), e);
      stream, callbacks, records, notices, letters := s.stream, s.callbacks, s.records, s.notices, s.letters;
      Logged(e, old(View()));
    }

    /** Anything the other callbacks, the server, the monitor and the publishers can do. */
    method Interfere(k: nat)
      requires Valid() && k < |callbacks|
      modifies this
      ensures Valid() && old(log) <= log && SameMail(old(stream), stream)
      ensures k < |callbacks| && callbacks[k] == old(callbacks[k])
    {
      var n: nat := *;
      while n > 0
        invariant Valid() && old(log) <= log && SameMail(old(stream), stream)
        invariant k < |callbacks| && callbacks[k] == old(callbacks[k])
      {
        var e: Event := *;
        if Actor(e) != Some(k) {
          MailKept(View(), e);
          OthersSpared(View(), e, k);
          Take(e);
        }
        n := n - 1;
      }
    }

    /** The decoded data; None is an unmarshalling error. */
    method Unmarshal(k: nat) returns (job: Option<Job>)
      requires Valid() && k < |callbacks| && callbacks[k].stage.Decoding? && callbacks[k].message < |stream|
      modifies this
      ensures Valid() && old(log) <= log && SameMail(old(stream), stream)
      ensures k < |callbacks|
      ensures callbacks[k] == old(callbacks[k]).(stage := if job.Some? then Offering(job.value) else Replying(Nak))
      ensures job == old(stream[callbacks[k].message].job)
    {
      Interfere(k);
      job := stream[callbacks[k].message].job;
      Take(Decode(k));
    }

    /** The pool's handler: the queue accepts the job, or the context is done. */
    method Handler(k: nat, job: Job) returns (failed: bool)
      requires Valid() && k < |callbacks| && callbacks[k].stage == Offering(job)
      modifies this
      ensures Valid() && old(log) <= log && SameMail(old(stream), stream)
      ensures k < |callbacks|
      ensures callbacks[k] == old(callbacks[k]).(stage := Replying(if failed then Nak else Ack),
                                                 queued := old(callbacks[k].queued) || !failed)
    {
      Interfere(k);
      failed := *;
      Take(if failed then Refuse(k) else Push(k));
    }

    method Respond(k: nat, a: Answer)
      requires Valid() && k < |callbacks| && callbacks[k].stage == Replying(a)
      modifies this
      ensures Valid() && old(log) <= log && SameMail(old(stream), stream)
      ensures k < |callbacks| && callbacks[k] == old(callbacks[k]).(stage := Replied(a))
    {
      Interfere(k);
      var lost: bool := *;
      MailKept(View(), Send(k, lost));
      Take(Send(k, lost));
    }

    /**
      One run of the callback. Whatever happens around it, it ends with one
      answer, Ack exactly when it put its job into the queue.
     */
    method OnJob(k: nat)
      requires Valid() && k < |callbacks| && callbacks[k].stage.Decoding?
      modifies this
      ensures Valid() && old(log) <= log && k < |callbacks| && callbacks[k].message == old(callbacks[k].message) < |stream|
      ensures
        match stream[callbacks[k].message].job
        case Some(job) => DeedsOf(records, k) in {[Handed(job), Answered(Ack)], [Answered(Nak)]}
        case None => DeedsOf(records, k) == [Answered(Nak)]
    {
      RunKeepsCallbacks(log);
      assert CallbackSound(View(), k);
      var job := Unmarshal(k);
      if job.None? {
        Respond(k, Nak);
      } else {
        var failed := Handler(k, job.value);
        Respond(k, if failed then Nak else Ack);
      }
      AnsweredOnce(log, k);
    }

    /** Anything anybody can do, while the monitor waits for a reply. */
    method InterfereWithMonitor()
      requires Valid()
      modifies this
      ensures Valid() && old(log) <= log && SameMail(old(stream), stream)
      ensures old(notices) <= notices && old(letters) <= letters
    {
      var n: nat := *;
      while n > 0
        invariant Valid() && old(log) <= log && SameMail(old(stream), stream)
        invariant old(notices) <= notices && old(letters) <= letters
      {
        var e: Event := *;
        MailKept(View(), e);
        PostKept(View(), e);
        Take(e);
        n := n - 1;
      }
    }

    /**
      The monitor's callback for advisory `m`: Ack exactly if the advisory is
      complete, the message was fetched and the publication acknowledged. A copy,
      with the message's data, was filed if the publication ran at all. Every dead
      letter there is stays a copy of an exhausted message.
     */
    method OnAdvisory(m: nat) returns (a: Answer, fetched: bool, reply: Reply)
      requires Valid() && m < |notices|
      modifies this
      ensures Valid() && old(log) <= log && old(letters) <= letters && old(notices) <= notices
      ensures a == Ack <==>
        && notices[m].Some? && notices[m].value.stream != "" && notices[m].value.number != 0
        && fetched && reply == Acked
      ensures notices[m].Some? && notices[m].value.stream != "" && notices[m].value.number != 0 && fetched && reply != Dropped ==>
        && 1 <= notices[m].value.number <= |stream|
        && |letters| > |old(letters)|
        && letters[|letters| - 1] ==
             DeadLetter(stream[notices[m].value.number - 1].data, notices[m].value.stream, notices[m].value.number)
      ensures LettersSound(View())
    {
      fetched, reply := *, *;
      InterfereWithMonitor();
      RunKeepsMail(log);
      a := Nak;
      if Complete(notices[m]) && fetched {
        a := FileCopy(m, notices[m].value, stream[notices[m].value.number - 1].data, reply);
      }
    }

    /** Publishing the copy, after whatever happened since the fetch. */
    method FileCopy(m: nat, notice: Notice, data: string, reply: Reply) returns (a: Answer)
      requires Valid() && m < |notices| && notices[m] == Some(notice) && Complete(Some(notice))
      requires 1 <= notice.number <= |stream| && data == stream[notice.number - 1].data
      modifies this
      ensures Valid() && old(log) <= log && old(letters) <= letters && old(notices) <= notices
      ensures SameMail(old(stream), stream) && LettersSound(View())
      ensures a == Ack <==> reply == Acked
      ensures reply != Dropped ==>
        |letters| > |old(letters)| && letters[|letters| - 1] == DeadLetter(data, notice.stream, notice.number)
    {
      InterfereWithMonitor();
      RunKeepsMail(log);
      a := Publish(m, notice, data, reply);
      RunKeepsMail(log);
    }

    /** The data was fetched earlier; messages do not change. */
    method Publish(m: nat, notice: Notice, data: string, reply: Reply) returns (a: Answer)
      requires Valid() && m < |notices| && notices[m] == Some(notice) && Complete(Some(notice))
      requires NoticesSound(View()) && 1 <= notice.number <= |stream| && data == stream[notice.number - 1].data
      modifies this`letters, this`log
      ensures Valid() && old(log) <= log
      ensures a == Ack <==> reply == Acked
      ensures letters == if reply == Dropped then old(letters)
                         else old(letters) + [DeadLetter(data, notice.stream, notice.number)]
    {
      if reply != Dropped {
        letters := letters + [DeadLetter(data, notice.stream, notice.number)];
      }
      a := if reply == Acked then Ack else Nak;
      Logged(Monitor(m, true, reply), old(View()));
    }
  }
}
