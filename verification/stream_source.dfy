/** The pull-driven source behind the event stream: a closed flag, a FIFO
    buffer of published events and a slot for one outstanding read. */
module StreamSource {
  import opened Wrappers
  import opened Events

  const ClosedStreamMessage := "Cannot publish to closed stream"

  /** The private fields of the source: whether it is closed, the events
      published but not yet handed to the stream, and whether a `pull` is
      waiting to be woken by the next publish or close. */
  datatype Source = Source(closed: bool, buffer: seq<Event>, pendingRead: bool)

  /** What the consumer of the stream has been handed through the stream's
      controller: every chunk enqueued so far, in order, and whether the
      controller has been told to end the sequence. */
  datatype Controller = Controller(queue: seq<Event>, ended: bool)

  /** A source together with the controller it feeds. */
  datatype Pulled = Pulled(source: Source, controller: Controller)

  function NewSource(): Source {
    Source(false, [], false)
  }

  function NewController(): Controller {
    Controller([], false)
  }

  /** Hands every buffered event, oldest first, to the controller. */
  function Drain(s: Source, c: Controller): (r: Pulled)
    ensures r.controller.queue + r.source.buffer == c.queue + s.buffer
    ensures r.source.buffer == []
    ensures r.controller.ended == c.ended
    ensures r.source.closed == s.closed && r.source.pendingRead == s.pendingRead
  {
    Pulled(s.(buffer := []), c.(queue := c.queue + s.buffer))
  }

  /** `start`: run once when the stream is built; it drains the buffer. */
  function Start(s: Source, c: Controller): (r: Pulled)
    ensures r.controller.queue + r.source.buffer == c.queue + s.buffer
    ensures r.source.buffer == [] && r.controller.ended == c.ended
  {
    Drain(s, c)
  }

  /** `pull` as written: the pending read is cleared; a closed source ends
      the sequence WITHOUT handing over what is still buffered; an open one
      drains the buffer and leaves a read pending. */
  function Pull(s: Source, c: Controller): (r: Pulled)
    ensures r.source.pendingRead <==> !s.closed
    ensures r.source.closed == s.closed
    ensures r.controller.ended <==> c.ended || s.closed
    ensures s.closed ==> r.controller.queue == c.queue && r.source.buffer == s.buffer
    ensures !s.closed ==> r.controller.queue == c.queue + s.buffer && r.source.buffer == []
  {
    if s.closed then Pulled(s.(pendingRead := false), c.(ended := true))
    else
      var d := Drain(s, c);
      d.(source := d.source.(pendingRead := true))
  }

  /** `pull` as evidently intended: a closed source hands over what is
      still buffered before it ends the sequence. */
  function PullDraining(s: Source, c: Controller): (r: Pulled)
    ensures r.source.pendingRead <==> !s.closed
    ensures r.source.closed == s.closed
    ensures r.controller.ended <==> c.ended || s.closed
    ensures r.controller.queue == c.queue + s.buffer && r.source.buffer == []
  {
    if s.closed then
      var d := Drain(s, c);
      Pulled(d.source.(pendingRead := false), d.controller.(ended := true))
    else Pull(s, c)
  }

  /** `close`, and equally the consumer's `cancel`: the source is closed for
      good and a waiting read is woken; nothing buffered is touched. */
  function Close(s: Source): (r: Source)
    ensures r.closed && !r.pendingRead
    ensures r.buffer == s.buffer
  {
    s.(closed := true, pendingRead := false)
  }

  /** `dispatchEvent`: a closed source throws and keeps its state; an open
      one appends the event at the tail of the buffer and wakes a waiting
      read. */
  function DispatchEvent(s: Source, e: Event): (r: Result<Source>)
    ensures r.Err? <==> s.closed
    ensures r.Err? ==> r.message == ClosedStreamMessage
    ensures r.Ok? ==> r.value.buffer == s.buffer + [e] && !r.value.closed && !r.value.pendingRead
  {
    if s.closed then Err(ClosedStreamMessage)
    else Ok(s.(buffer := s.buffer + [e], pendingRead := false))
  }

  /** One interaction with the source: the producer publishes or closes,
      the consumer pulls or cancels. */
  datatype Op = Publish(event: Event) | PullOp | CloseOp | CancelOp

  /** The effect of one interaction; a rejected publish leaves everything as
      it was. `draining` selects the corrected `pull`. */
  function Step(p: Pulled, op: Op, draining: bool): Pulled {
    match op
    case Publish(e) =>
      (match DispatchEvent(p.source, e)
       case Ok(s) => p.(source := s)
       case Err(_) => p)
    case PullOp => if draining then PullDraining(p.source, p.controller) else Pull(p.source, p.controller)
    case CloseOp => p.(source := Close(p.source))
    case CancelOp => p.(source := Close(p.source))
  }

  /** The state after a whole sequence of interactions. */
  function Replay(p: Pulled, ops: seq<Op>, draining: bool): Pulled
    decreases |ops|
  {
    if ops == [] then p else Replay(Step(p, ops[0], draining), ops[1..], draining)
  }

  /** Reference definition: the events the source accepts from `ops`, in
      publish order, given whether it starts closed. */
  function Accepted(closed: bool, ops: seq<Op>): seq<Event>
    decreases |ops|
  {
    if ops == [] then []
    else match ops[0]
      case Publish(e) => (if closed then [] else [e]) + Accepted(closed, ops[1..])
      case PullOp => Accepted(closed, ops[1..])
      case CloseOp => Accepted(true, ops[1..])
      case CancelOp => Accepted(true, ops[1..])
  }

  /** Replaying two traces one after the other is replaying their
      concatenation. */
  lemma {:induction false} ReplayConcat(p: Pulled, a: seq<Op>, b: seq<Op>, draining: bool)
    ensures Replay(p, a + b, draining) == Replay(Replay(p, a, draining), b, draining)
    decreases |a|
  {
    if a == [] {
      assert a + b == b;
    } else {
      assert (a + b)[0] == a[0];
      assert (a + b)[1..] == a[1..] + b;
      ReplayConcat(Step(p, a[0], draining), a[1..], b, draining);
    }
  }

  /** FIFO: whatever the interleaving of publishes, pulls and closes, what
      the consumer was handed followed by what is still buffered is exactly
      the accepted events in publish order; the consumer's queue only grows
      at its end; and once closed the source stays closed. */
  lemma {:induction false} ReplayKeepsPublishOrder(p: Pulled, ops: seq<Op>, draining: bool)
    ensures var q := Replay(p, ops, draining);
      q.controller.queue + q.source.buffer == p.controller.queue + p.source.buffer + Accepted(p.source.closed, ops)
    ensures p.controller.queue <= Replay(p, ops, draining).controller.queue
    ensures p.source.closed ==> Replay(p, ops, draining).source.closed
    decreases |ops|
  {
    if ops != [] {
      var p' := Step(p, ops[0], draining);
      ReplayKeepsPublishOrder(p', ops[1..], draining);
      match ops[0]
      case Publish(e) =>
        if !p.source.closed {
          assert p'.controller.queue + p'.source.buffer == p.controller.queue + p.source.buffer + [e];
        }
      case PullOp =>
      case CloseOp =>
      case CancelOp =>
    }
  }

  /** As written, once the source is closed the consumer is handed nothing
      more, whatever follows: events still buffered at the close are lost. */
  lemma {:induction false} ClosedPullDeliversNothing(p: Pulled, ops: seq<Op>)
    requires p.source.closed
    ensures Replay(p, ops, false).controller.queue == p.controller.queue
    decreases |ops|
  {
    if ops != [] {
      ClosedPullDeliversNothing(Step(p, ops[0], false), ops[1..]);
    }
  }

  /** The concrete run that shows it: one event published, the producer
      closes, then the consumer's pull arrives. The sequence ends and the
      consumer never sees the event. */
  lemma PublishClosePullLosesEvent(e: Event)
    ensures var q := Replay(Pulled(NewSource(), NewController()), [Publish(e), CloseOp, PullOp], false);
      q.controller.ended && q.controller.queue == [] && q.source.buffer == [e]
  {
    var p0 := Pulled(NewSource(), NewController());
    var ops := [Publish(e), CloseOp, PullOp];
    var p1 := Step(p0, ops[0], false);
    assert p1.source == Source(false, [e], false);
    var p2 := Step(p1, ops[1], false);
    assert p2.source == Source(true, [e], false);
    var p3 := Step(p2, ops[2], false);
    assert p3 == Pulled(Source(true, [e], false), Controller([], true));
    assert ops[1..][1..][1..] == [];
    assert Replay(p0, ops, false) == Replay(p1, ops[1..], false) == Replay(p2, ops[1..][1..], false) == Replay(p3, [], false);
  }

  /** With the corrected `pull`, any run that the producer closes and the
      consumer then pulls ends the sequence having handed over exactly the
      accepted events, in publish order. */
  lemma {:induction false} DrainingDeliversEverything(p: Pulled, ops: seq<Op>)
    ensures var q := Replay(p, ops + [CloseOp, PullOp], true);
      q.controller.ended && q.source.buffer == [] &&
      q.controller.queue == p.controller.queue + p.source.buffer + Accepted(p.source.closed, ops)
  {
    ReplayConcat(p, ops, [CloseOp, PullOp], true);
    ReplayKeepsPublishOrder(p, ops, true);
  }
}
