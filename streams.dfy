/**
 What the order book data sources hand to the order book tracker, and the
 reconnect loop their WebSocket listeners share: connect, subscribe, turn
 each inbound frame into messages put on the output queue, and on an error
 other than cancellation wait and connect again.
 */
module Streams {
  import opened Wrappers
  import opened Json
  import opened PyRuntime

  datatype Kind = SnapshotKind | DiffKind | TradeKind

  /**
   An `OrderBookMessage` as the exchange's order book class builds it from a
   decoded payload, a timestamp in seconds and a metadata dict.
   */
  datatype OrderBookMessage = OrderBookMessage(kind: Kind, content: Json, timestamp: real, metadata: seq<(string, Json)>)

  /** The `asyncio.Queue` the listeners write to; `put_nowait` on an unbounded queue always succeeds. */
  class MessageQueue {
    var items: seq<OrderBookMessage>

    constructor ()
      ensures items == []
    {
      items := [];
    }

    method PutNowait(m: OrderBookMessage)
      modifies this
      ensures items == old(items) + [m]
    {
      items := items + [m];
    }

    /** `put_nowait` for each message in turn. */
    method PutAll(ms: seq<OrderBookMessage>)
      modifies this
      ensures items == old(items) + ms
    {
      var k := 0;
      while k < |ms|
        invariant 0 <= k <= |ms|
        invariant items == old(items) + ms[..k]
      {
        PutNowait(ms[k]);
        k := k + 1;
        assert ms[..k] == ms[..k - 1] + [ms[k - 1]];
      }
      assert ms[..k] == ms;
    }
  }

  /**
   The handling of one inbound frame: the messages put on the queue, and the
   exception that then ended the handling, if any (messages put before an
   exception stay put).
   */
  datatype Step = Step(events: seq<OrderBookMessage>, failure: Option<PyError>)

  /**
   An inbound WebSocket frame, decoded; `None` is a frame that is not valid
   JSON, on which `ujson.loads` raises `ValueError`.
   */
  type Frame = Option<Json>

  /** How the stream of a session ends: the server closes it (or a ping times out), or it raises. */
  datatype SessionEnd = Closed | Raised(error: PyError)

  /**
   One connection attempt, as the network plays it out: refused with an
   exception, or opened with the frames the server sends and how the stream
   then ends. A cancellation of the listener while it waits on the network is
   a `CancelledError` raised there.
   */
  datatype Connection = Refused(error: PyError) | Open(inbound: seq<Frame>, end: SessionEnd)

  /**
   Handling a sequence of entries one by one, as the listeners' inner `for`
   loops do: each entry that `f` turns into a message is put; the first one
   it fails on ends the loop with that exception.
   */
  function Expand(entries: seq<Json>, f: Json -> Result<OrderBookMessage, PyError>): (r: Step)
    ensures |r.events| <= |entries|
    ensures forall i :: 0 <= i < |r.events| ==> f(entries[i]) == Success(r.events[i])
    ensures r.failure.None? <==> forall i :: 0 <= i < |entries| ==> f(entries[i]).Success?
    ensures r.failure.None? ==> |r.events| == |entries|
    ensures r.failure.Some? ==> |r.events| < |entries| && f(entries[|r.events|]) == Failure(r.failure.value)
    decreases |entries|
  {
    if |entries| == 0 then Step([], None)
    else match f(entries[0])
      case Failure(e) => Step([], Some(e))
      case Success(m) =>
        var rest := Expand(entries[1..], f);
        assert forall i :: 1 <= i < |entries| ==> entries[1..][i - 1] == entries[i];
        Step([m] + rest.events, rest.failure)
  }

  /** The events and the end of one session. */
  datatype SessionResult = SessionResult(events: seq<OrderBookMessage>, end: SessionEnd)

  /** The `async for` over a session's frames: it stops at the first frame whose handling raises. */
  function Session(handle: Frame -> Step, inbound: seq<Frame>, end: SessionEnd): SessionResult
    decreases |inbound|
  {
    if |inbound| == 0 then SessionResult([], end)
    else
      var s := handle(inbound[0]);
      match s.failure
      case Some(e) => SessionResult(s.events, Raised(e))
      case None =>
        var rest := Session(handle, inbound[1..], end);
        SessionResult(s.events + rest.events, rest.end)
  }

  /** One attempt; `refusal` maps the connect failure to the exception the listener then sees. */
  function Attempt(handle: Frame -> Step, refusal: PyError -> PyError, c: Connection): SessionResult {
    match c
    case Refused(e) => SessionResult([], Raised(refusal(e)))
    case Open(inbound, end) => Session(handle, inbound, end)
  }

  /**
   What a listener does over a sequence of connection attempts: the messages
   it puts, the back-off sleeps it takes, the subscriptions it sends (one per
   opened connection) and whether it was cancelled.
   */
  datatype Run = Run(events: seq<OrderBookMessage>, waits: seq<real>, connected: nat, cancelled: bool)

  /**
   The `while True` reconnect loop over the attempts `conns`, in order: a
   `CancelledError` is re-raised and ends the listener, so no later attempt is
   made; any other exception is followed by a sleep of `backoff` seconds; a
   stream that simply ends is reconnected at once.
   */
  function RunOf(handle: Frame -> Step, refusal: PyError -> PyError, backoff: real, conns: seq<Connection>): Run
    decreases |conns|
  {
    if |conns| == 0 then Run([], [], 0, false)
    else
      var before := RunOf(handle, refusal, backoff, conns[..|conns| - 1]);
      if before.cancelled then before
      else
        var c := conns[|conns| - 1];
        var a := Attempt(handle, refusal, c);
        var connected := before.connected + if c.Open? then 1 else 0;
        if a.end == Raised(CancelledError) then Run(before.events + a.events, before.waits, connected, true)
        else Run(before.events + a.events, before.waits + (if a.end.Raised? then [backoff] else []), connected, false)
  }

  /** The handling of one session's frames, putting each message on `output` as it is made. */
  method RunSession(handle: Frame -> Step, inbound: seq<Frame>, end: SessionEnd, output: MessageQueue)
    returns (outcome: SessionEnd)
    modifies output
    ensures output.items == old(output.items) + Session(handle, inbound, end).events
    ensures outcome == Session(handle, inbound, end).end
  {
    var j := 0;
    while j < |inbound|
      invariant 0 <= j <= |inbound|
      invariant old(output.items) + Session(handle, inbound, end).events ==
        output.items + Session(handle, inbound[j..], end).events
      invariant Session(handle, inbound, end).end == Session(handle, inbound[j..], end).end
    {
      assert inbound[j..][1..] == inbound[j + 1..];
      var s := handle(inbound[j]);
      output.PutAll(s.events);
      if s.failure.Some? {
        return Raised(s.failure.value);
      }
      j := j + 1;
    }
    outcome := end;
  }

  /** One connection attempt: the session over it when it opens, the mapped refusal when it does not. */
  method RunAttempt(handle: Frame -> Step, refusal: PyError -> PyError, c: Connection, output: MessageQueue)
    returns (end: SessionEnd)
    modifies output
    ensures output.items == old(output.items) + Attempt(handle, refusal, c).events
    ensures end == Attempt(handle, refusal, c).end
  {
    match c {
      case Refused(e) =>
        end := Raised(refusal(e));
      case Open(inbound, e) =>
        end := RunSession(handle, inbound, e, output);
    }
  }

  /**
   The listener loop over the given connection attempts: `subscription` is
   sent on every opened connection.
   */
  method Listen(handle: Frame -> Step, refusal: PyError -> PyError, backoff: real, subscription: Json,
                conns: seq<Connection>, output: MessageQueue)
    returns (sent: seq<Json>, waits: seq<real>, cancelled: bool)
    modifies output
    ensures output.items == old(output.items) + RunOf(handle, refusal, backoff, conns).events
    ensures waits == RunOf(handle, refusal, backoff, conns).waits
    ensures |sent| == RunOf(handle, refusal, backoff, conns).connected
    ensures forall k :: 0 <= k < |sent| ==> sent[k] == subscription
    ensures cancelled == RunOf(handle, refusal, backoff, conns).cancelled
  {
    sent, waits, cancelled := [], [], false;
    var prior := output.items;
    var i := 0;
    while i < |conns|
      invariant 0 <= i <= |conns|
      invariant var run := RunOf(handle, refusal, backoff, conns[..i]);
        output.items == old(output.items) + run.events && waits == run.waits &&
        |sent| == run.connected && !run.cancelled
      invariant forall k :: 0 <= k < |sent| ==> sent[k] == subscription
    {
      assert conns[..i + 1] == conns[..i] + [conns[i]];
      var stop;
      sent, waits, stop := ListenStep(handle, refusal, backoff, subscription, prior, conns[..i], conns[i],
                                      output, sent, waits);
      if stop {
        CancelledStays(handle, refusal, backoff, conns, i + 1);
        cancelled := true;
        return;
      }
      i := i + 1;
    }
    assert conns[..|conns|] == conns;
  }

  /**
   One pass of the reconnect loop after the attempts `done`: connect, send the
   subscription on an opened connection, handle its frames, and sleep
   `backoff` seconds after an exception other than `CancelledError`.
   */
  method ListenStep(handle: Frame -> Step, refusal: PyError -> PyError, backoff: real, subscription: Json,
                    prior: seq<OrderBookMessage>, done: seq<Connection>, c: Connection, output: MessageQueue,
                    sent: seq<Json>, waits: seq<real>)
    returns (sent': seq<Json>, waits': seq<real>, cancelled: bool)
    requires var run := RunOf(handle, refusal, backoff, done);
      output.items == prior + run.events && waits == run.waits && |sent| == run.connected && !run.cancelled
    requires forall k :: 0 <= k < |sent| ==> sent[k] == subscription
    modifies output
    ensures var run := RunOf(handle, refusal, backoff, done + [c]);
      output.items == prior + run.events && waits' == run.waits && |sent'| == run.connected &&
      cancelled == run.cancelled
    ensures forall k :: 0 <= k < |sent'| ==> sent'[k] == subscription
  {
    RunStep(handle, refusal, backoff, done, c);
    var end := RunAttempt(handle, refusal, c, output);
    sent' := if c.Open? then sent + [subscription] else sent;
    cancelled := end == Raised(CancelledError);
    waits' := if end.Raised? && !cancelled then waits + [backoff] else waits;
  }

  /** One more attempt after an uncancelled run, as the loop body takes it. */
  lemma RunStep(handle: Frame -> Step, refusal: PyError -> PyError, backoff: real, conns: seq<Connection>, c: Connection)
    requires !RunOf(handle, refusal, backoff, conns).cancelled
    ensures var before := RunOf(handle, refusal, backoff, conns);
      var a := Attempt(handle, refusal, c);
      RunOf(handle, refusal, backoff, conns + [c]) ==
        Run(before.events + a.events,
            before.waits + (if a.end.Raised? && a.end != Raised(CancelledError) then [backoff] else []),
            before.connected + (if c.Open? then 1 else 0), a.end == Raised(CancelledError))
  {
    assert (conns + [c])[..|conns|] == conns;
  }

  /** Once the listener is cancelled, the attempts after that change nothing. */
  lemma {:induction false} CancelledStays(handle: Frame -> Step, refusal: PyError -> PyError, backoff: real,
                                          conns: seq<Connection>, n: nat)
    requires n <= |conns| && RunOf(handle, refusal, backoff, conns[..n]).cancelled
    ensures RunOf(handle, refusal, backoff, conns) == RunOf(handle, refusal, backoff, conns[..n])
    decreases |conns|
  {
    if n < |conns| {
      var init := conns[..|conns| - 1];
      assert init[..n] == conns[..n];
      CancelledStays(handle, refusal, backoff, init, n);
    } else {
      assert conns[..n] == conns;
    }
  }

  /** Once a connection attempt ends in cancellation, later attempts are never made. */
  lemma CancelledStops(handle: Frame -> Step, refusal: PyError -> PyError, backoff: real,
                       conns: seq<Connection>, k: nat)
    requires k < |conns| && Attempt(handle, refusal, conns[k]).end == Raised(CancelledError)
    ensures RunOf(handle, refusal, backoff, conns) == RunOf(handle, refusal, backoff, conns[..k + 1])
    ensures RunOf(handle, refusal, backoff, conns).cancelled
    ensures !RunOf(handle, refusal, backoff, conns[..k]).cancelled ==>
      RunOf(handle, refusal, backoff, conns).waits == RunOf(handle, refusal, backoff, conns[..k]).waits
  {
    assert conns[..k + 1][..k] == conns[..k];
    CancelledStays(handle, refusal, backoff, conns, k + 1);
  }

  /**
   An attempt that ends in an exception other than `CancelledError` is
   followed by exactly one sleep of `backoff` seconds.
   */
  lemma ErrorBacksOff(handle: Frame -> Step, refusal: PyError -> PyError, backoff: real,
                      conns: seq<Connection>, c: Connection)
    requires !RunOf(handle, refusal, backoff, conns).cancelled
    requires Attempt(handle, refusal, c).end.Raised? && Attempt(handle, refusal, c).end != Raised(CancelledError)
    ensures !RunOf(handle, refusal, backoff, conns + [c]).cancelled
    ensures RunOf(handle, refusal, backoff, conns + [c]).waits == RunOf(handle, refusal, backoff, conns).waits + [backoff]
  {
    assert (conns + [c])[..|conns|] == conns;
  }

  /** An attempt that ends in `CancelledError` ends the listener with no sleep. */
  lemma CancelledNoWait(handle: Frame -> Step, refusal: PyError -> PyError, backoff: real,
                        conns: seq<Connection>, c: Connection)
    requires !RunOf(handle, refusal, backoff, conns).cancelled
    requires Attempt(handle, refusal, c).end == Raised(CancelledError)
    ensures RunOf(handle, refusal, backoff, conns + [c]).cancelled
    ensures RunOf(handle, refusal, backoff, conns + [c]).waits == RunOf(handle, refusal, backoff, conns).waits
  {
    assert (conns + [c])[..|conns|] == conns;
  }

  /** A listener that is never cancelled makes every attempt and subscribes on every opened connection. */
  lemma {:induction false} NeverCancelled(handle: Frame -> Step, refusal: PyError -> PyError, backoff: real,
                                          conns: seq<Connection>)
    requires forall k :: 0 <= k < |conns| ==> Attempt(handle, refusal, conns[k]).end != Raised(CancelledError)
    ensures !RunOf(handle, refusal, backoff, conns).cancelled
    ensures RunOf(handle, refusal, backoff, conns).connected == |OpenOnes(conns)|
    decreases |conns|
  {
    if |conns| > 0 {
      var init := conns[..|conns| - 1];
      assert forall k :: 0 <= k < |init| ==> init[k] == conns[k];
      NeverCancelled(handle, refusal, backoff, init);
    }
  }

  /** The opened connections among the attempts. */
  function OpenOnes(conns: seq<Connection>): (r: seq<Connection>)
    ensures |r| <= |conns|
    ensures forall c :: c in r ==> c.Open? && c in conns
    decreases |conns|
  {
    if |conns| == 0 then []
    else
      var last := conns[|conns| - 1];
      OpenOnes(conns[..|conns| - 1]) + if last.Open? then [last] else []
  }

  /** Every back-off sleep lasts `backoff` seconds, and there is at most one per attempt. */
  lemma {:induction false} WaitsAreBackoff(handle: Frame -> Step, refusal: PyError -> PyError, backoff: real,
                                           conns: seq<Connection>)
    ensures |RunOf(handle, refusal, backoff, conns).waits| <= |conns|
    ensures forall w :: w in RunOf(handle, refusal, backoff, conns).waits ==> w == backoff
    decreases |conns|
  {
    if |conns| > 0 {
      WaitsAreBackoff(handle, refusal, backoff, conns[..|conns| - 1]);
    }
  }

  /** A stream that closes without error is reconnected with no sleep in between. */
  lemma ClosedReconnectsAtOnce(handle: Frame -> Step, refusal: PyError -> PyError, backoff: real,
                               conns: seq<Connection>, inbound: seq<Frame>)
    requires Session(handle, inbound, Closed).end == Closed
    ensures RunOf(handle, refusal, backoff, conns + [Open(inbound, Closed)]).waits ==
      RunOf(handle, refusal, backoff, conns).waits
  {
    assert (conns + [Open(inbound, Closed)])[..|conns|] == conns;
  }

  /**
   A frame whose handling raises ends its session: the frames after it are
   never handled, and the session ends with that exception.
   */
  lemma {:induction false} FailureEndsSession(handle: Frame -> Step, inbound: seq<Frame>, end: SessionEnd, j: nat)
    requires j < |inbound| && handle(inbound[j]).failure.Some?
    requires forall i :: 0 <= i < j ==> handle(inbound[i]).failure.None?
    ensures Session(handle, inbound, end) == Session(handle, inbound[..j + 1], Closed)
    ensures Session(handle, inbound, end).end == Raised(handle(inbound[j]).failure.value)
  {
    if j > 0 {
      assert inbound[..j + 1][1..] == inbound[1..][..j];
      FailureEndsSession(handle, inbound[1..], end, j - 1);
    }
  }
}
