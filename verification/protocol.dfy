/**
 * The ready/backpressure protocol of a live service over a whole run:
 * the service's state as a value, the four things that can happen to it,
 * and what any sequence of them delivers to one subscriber.
 */
module Protocol {
  import opened Wrappers
  import opened Subscribers

  /** A live service: its subscriber table and every `send_binary` call
      the transport has been asked to make so far. */
  datatype Channel = Channel(ready: ReadyMap, log: seq<Delivery>)

  /** The callbacks the transport invokes and the producer's `send`. The
      mutex makes each of them atomic with respect to the others. */
  datatype Event =
    | Connect(c: Conn)
    | Disconnect(c: Conn)
    | Signal(c: Conn, field: Option<bool>)
    | Send(frame: Frame)

  /** One event applied to the service. */
  ghost function Step(ch: Channel, e: Event): (r: Channel)
    ensures ch.log <= r.log
    ensures !e.Send? ==> r.log == ch.log
    ensures forall c :: c in r.ready && r.ready[c] ==>
              (c in ch.ready && ch.ready[c]) || e == Signal(c, Some(true))
  {
    match e
    case Connect(c) => ch.(ready := Connected(ch.ready, c))
    case Disconnect(c) => ch.(ready := Disconnected(ch.ready, c))
    case Signal(c, field) => ch.(ready := Signalled(ch.ready, c, field))
    case Send(f) => Channel(Drained(ch.ready), ch.log + Broadcast(ch.ready, f))
  }

  /** A sequence of events applied in order. */
  ghost function Run(ch: Channel, es: seq<Event>): Channel
    decreases |es|
  {
    if es == [] then ch else Run(Step(ch, es[0]), es[1..])
  }

  /** The number of frames the service currently owes `c`: its ready flag. */
  function Owed(ch: Channel, c: Conn): (n: nat)
    ensures n <= 1
    ensures n == 1 <==> c in ReadySet(ch.ready)
  {
    if c in ch.ready && ch.ready[c] then 1 else 0
  }

  /** The events that can give `c` credit: a ready message reading `true`. */
  function Credits(es: seq<Event>, c: Conn): (n: nat)
    ensures n <= |es|
    ensures n == 0 <==> Signal(c, Some(true)) !in es
  {
    if es == [] then 0
    else (if es[0] == Signal(c, Some(true)) then 1 else 0) + Credits(es[1..], c)
  }

  /** What one event adds to what `c` has received: the frame of a send
      when `c` was owed one, nothing otherwise. */
  lemma StepReceived(ch: Channel, e: Event, c: Conn)
    ensures Received(Step(ch, e).log, c)
         == Received(ch.log, c) + if e.Send? && Owed(ch, c) == 1 then [e.frame] else []
  {
    if e.Send? {
      ReceivedAppend(ch.log, Broadcast(ch.ready, e.frame), c);
      BroadcastReachesReadyOnce(ch.ready, e.frame, c);
    }
  }

  lemma {:induction false} RunAppend(ch: Channel, a: seq<Event>, b: seq<Event>)
    ensures Run(ch, a + b) == Run(Run(ch, a), b)
    decreases |a|
  {
    if a != [] {
      assert (a + b)[1..] == a[1..] + b;
      RunAppend(Step(ch, a[0]), a[1..], b);
    } else {
      assert a + b == b;
    }
  }

  /** The delivery history is only ever extended: what was sent stays sent,
      so each subscriber receives frames in the order they were sent. */
  lemma {:induction false} RunExtendsLog(ch: Channel, es: seq<Event>)
    ensures ch.log <= Run(ch, es).log
    decreases |es|
  {
    if es != [] {
      RunExtendsLog(Step(ch, es[0]), es[1..]);
    }
  }

  /** No frame without credit: over any run, the frames a subscriber
      receives plus the one it may still be owed never exceed what it was
      owed at the start plus the number of ready messages it sent. */
  lemma {:induction false} NoFrameWithoutCredit(ch: Channel, es: seq<Event>, c: Conn)
    ensures |Received(Run(ch, es).log, c)| + Owed(Run(ch, es), c)
         <= |Received(ch.log, c)| + Owed(ch, c) + Credits(es, c)
    decreases |es|
  {
    if es != [] {
      var next := Step(ch, es[0]);
      StepReceived(ch, es[0], c);
      NoFrameWithoutCredit(next, es[1..], c);
      assert |Received(next.log, c)| + Owed(next, c)
          <= |Received(ch.log, c)| + Owed(ch, c) + (if es[0] == Signal(c, Some(true)) then 1 else 0);
    }
  }

  /** An event other than a ready message reading `true` from `c` leaves a
      subscriber that is owed nothing owed nothing, and sends it nothing. */
  lemma StepKeepsUnowed(ch: Channel, e: Event, c: Conn)
    requires Owed(ch, c) == 0
    requires e != Signal(c, Some(true))
    ensures Received(Step(ch, e).log, c) == Received(ch.log, c)
    ensures Owed(Step(ch, e), c) == 0
  {
    StepReceived(ch, e, c);
  }

  /** A subscriber that is not owed a frame and never sends a ready message
      reading `true` receives nothing, however many frames are sent. */
  lemma {:induction false} NeverReadyReceivesNothing(ch: Channel, es: seq<Event>, c: Conn)
    requires Owed(ch, c) == 0
    requires Signal(c, Some(true)) !in es
    ensures Received(Run(ch, es).log, c) == Received(ch.log, c)
    ensures Owed(Run(ch, es), c) == 0
    decreases |es|
  {
    if es != [] {
      var next := Step(ch, es[0]);
      assert Run(ch, es) == Run(next, es[1..]);
      StepKeepsUnowed(ch, es[0], c);
      assert Signal(c, Some(true)) !in es[1..] by {
        assert es == [es[0]] + es[1..];
      }
      NeverReadyReceivesNothing(next, es[1..], c);
    }
  }

  /** The sends of the given frames, in order. */
  function Sends(frames: seq<Frame>): (es: seq<Event>)
    ensures |es| == |frames|
    ensures forall i :: 0 <= i < |es| ==> es[i] == Send(frames[i])
  {
    seq(|frames|, i requires 0 <= i < |frames| => Send(frames[i]))
  }

  /** One ready message from a connected subscriber, followed by any number
      k >= 1 of sends, gets it exactly one frame: the first one sent. */
  lemma OneSignalOneFrame(ch: Channel, c: Conn, frames: seq<Frame>)
    requires c in ch.ready
    requires |frames| >= 1
    ensures Received(Run(ch, [Signal(c, Some(true))] + Sends(frames)).log, c)
         == Received(ch.log, c) + [frames[0]]
  {
    var signalled := Step(ch, Signal(c, Some(true)));
    assert Owed(signalled, c) == 1;
    var es := Sends(frames);
    assert es == [Send(frames[0])] + es[1..];
    RunAppend(ch, [Signal(c, Some(true))], es);
    RunAppend(signalled, [Send(frames[0])], es[1..]);
    var first := Step(signalled, Send(frames[0]));
    StepReceived(signalled, Send(frames[0]), c);
    assert Owed(first, c) == 0;
    assert Signal(c, Some(true)) !in es[1..];
    NeverReadyReceivesNothing(first, es[1..], c);
  }

  /** Sending a ready message twice is the same as sending it once. */
  lemma SignalIdempotent(ch: Channel, c: Conn, field: Option<bool>)
    ensures Step(Step(ch, Signal(c, field)), Signal(c, field)) == Step(ch, Signal(c, field))
  {
  }

  /** `n` ready messages reading `true` from `c`, one after the other. */
  function Signals(c: Conn, n: nat): (es: seq<Event>)
    ensures |es| == n
    ensures forall i :: 0 <= i < n ==> es[i] == Signal(c, Some(true))
  {
    seq(n, i requires 0 <= i < n => Signal(c, Some(true)))
  }

  /** Any number n >= 1 of ready messages in a row has the effect of one:
      the flag is a boolean, not a counter. */
  lemma {:induction false} RepeatedSignalsAreOne(ch: Channel, c: Conn, n: nat)
    requires n >= 1
    ensures Run(ch, Signals(c, n)) == Step(ch, Signal(c, Some(true)))
    decreases n
  {
    var once := Step(ch, Signal(c, Some(true)));
    assert Run(ch, Signals(c, n)) == Run(once, Signals(c, n)[1..]);
    if n == 1 {
      assert Signals(c, n)[1..] == [];
    } else {
      assert Signals(c, n)[1..] == Signals(c, n - 1);
      RepeatedSignalsAreOne(once, c, n - 1);
      SignalIdempotent(ch, c, Some(true));
    }
  }

  /** A subscriber cannot bank credit: n >= 1 ready messages followed by
      k >= 1 sends get it exactly one frame, the first one sent. */
  lemma NoBankedCredit(ch: Channel, c: Conn, n: nat, frames: seq<Frame>)
    requires c in ch.ready
    requires n >= 1 && |frames| >= 1
    ensures Received(Run(ch, Signals(c, n) + Sends(frames)).log, c)
         == Received(ch.log, c) + [frames[0]]
  {
    var signal := Signal(c, Some(true));
    RunAppend(ch, Signals(c, n), Sends(frames));
    RepeatedSignalsAreOne(ch, c, n);
    RunAppend(ch, [signal], Sends(frames));
    assert Run(ch, [signal]) == Run(Step(ch, signal), []);
    OneSignalOneFrame(ch, c, frames);
  }
}
