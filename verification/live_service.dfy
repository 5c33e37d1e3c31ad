/**
 * The `live_service` class: one broadcast channel, with the callbacks the
 * websocket transport invokes and the `send` the producer calls.
 */
module LiveServices {
  import opened Wrappers
  import opened Subscribers
  import opened Protocol

  class LiveService {
    /** The name of the control-message field that signals readiness. */
    const readySignal: string
    /** `ready_`: every connected subscriber and whether it is owed a frame. */
    var ready: ReadyMap
    /** The `send_binary` calls made so far, oldest first. */
    ghost var log: seq<Delivery>

    ghost function State(): Channel
      reads this
    {
      Channel(ready, log)
    }

    constructor (readySignal: string)
      ensures this.readySignal == readySignal
      ensures State() == Channel(map[], [])
    {
      this.readySignal := readySignal;
      ready := map[];
      log := [];
    }

    /** Connect callback: a new subscriber starts not ready; `emplace`
        leaves a subscriber already in the table as it was. */
    method OnConnect(c: Conn)
      modifies this
      ensures State() == Step(old(State()), Connect(c))
    {
      if c !in ready {
        ready := ready[c := false];
      }
    }

    /** Disconnect callback: the subscriber's entry is erased. */
    method OnDisconnect(c: Conn)
      modifies this
      ensures State() == Step(old(State()), Disconnect(c))
    {
      ready := ready - {c};
    }

    /** Message callback: the configured field is read as a boolean; a
        value other than `true`, a missing or unreadable field, and an
        unknown subscriber all leave the table as it was. */
    method OnMessage(msg: Message, c: Conn)
      modifies this
      ensures State() == Step(old(State()), Signal(c, ReadyField(msg, readySignal)))
    {
      var field := ReadyField(msg, readySignal);
      if field != Some(true) {
        return;
      }
      if c in ready {
        ready := ready[c := true];
      }
    }

    /** `send`: walks the table in key order; each ready subscriber has its
        flag cleared and is sent the frame, the others are skipped. */
    method Send(data: Frame)
      modifies this
      ensures State() == Step(old(State()), Event.Send(data))
    {
      ghost var before := ready;
      ghost var owed := ReadySet(before);
      ghost var visited: seq<Conn> := [];
      ghost var batch: seq<Delivery> := [];
      ghost var bound: nat := 0;
      var pending := ready.Keys;
      while pending != {}
        invariant pending <= before.Keys
        invariant ready.Keys == before.Keys
        invariant forall k :: k in ready ==> ready[k] == (k in pending && before[k])
        invariant forall d :: d in before ==> (d in pending <==> bound <= d)
        invariant visited == Ascending(owed - pending)
        invariant batch == Deliveries(visited, data)
        invariant log == old(log) + batch
        decreases pending
      {
        assert Min(pending) in pending;
        var c :| c in pending && forall d :: d in pending ==> c <= d;
        VisitNext(before, pending, c);
        if ready[c] {
          ready := ready[c := false];
          DeliveriesSnoc(visited, c, data);
          assert old(log) + (batch + [Delivery(c, data)]) == log + [Delivery(c, data)];
          batch := batch + [Delivery(c, data)];
          log := log + [Delivery(c, data)];
          visited := visited + [c];
        }
        pending := pending - {c};
        bound := c + 1;
      }
      assert owed - pending == owed;
      assert ready == Drained(before);
    }
  }
}
