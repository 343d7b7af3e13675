/** `TestResultStream`: the reporter the runners call. It turns suite and
    sub-test reports into events on its source, numbers them, and keeps the
    sticky failure flag that fixes the run's status on close. */
module ResultStream {
  import opened Wrappers
  import opened Outcome
  import opened Events
  import SS = StreamSource

  /** The reporter's private fields, plus the parts of the stream it owns:
      the controller that feeds the stream's consumer and the `status` slot
      (`result`, absent until the first close). */
  datatype Reporter = Reporter(
    source: SS.Source,
    controller: SS.Controller,
    result: Option<int>,
    suiteCount: nat,
    testCount: nat,
    hasFailures: bool)

  /** The reporter after a call, and the message of the error the call threw,
      if it threw. */
  datatype Call = Call(reporter: Reporter, thrown: Option<string>)

  function NewReporter(): Reporter {
    Reporter(SS.NewSource(), SS.NewController(), None, 0, 0, false)
  }

  /** A fixed result was fixed by a close and still agrees with the flag. */
  predicate Valid(r: Reporter) {
    r.result.Some? ==> r.source.closed && r.result.value == (if r.hasFailures then 1 else 0)
  }

  /** The stream's `status` getter: the fixed result, or 0 when none was
      fixed yet; on a reporter whose result came from a close it is 0 or 1. */
  function StreamStatus(r: Reporter): (s: int)
    ensures r.result.None? ==> s == 0
    ensures r.result.Some? ==> s == r.result.value
    ensures Valid(r) ==> s == 0 || s == 1
  {
    r.result.GetOr(0)
  }

  /** Publishes one event; on a closed source the call throws and nothing
      changes. */
  function Publish(r: Reporter, e: Event): (c: Call)
    ensures r.source.closed ==> c == Call(r, Some(SS.ClosedStreamMessage))
    ensures !r.source.closed ==> c.thrown.None?
    ensures !r.source.closed ==> c.reporter == r.(source := c.reporter.source)
    ensures !r.source.closed ==> c.reporter.source.buffer == r.source.buffer + [e]
    ensures !r.source.closed ==> !c.reporter.source.closed
  {
    match SS.DispatchEvent(r.source, e)
    case Ok(s) => Call(r.(source := s), None)
    case Err(m) => Call(r, Some(m))
  }

  /** `close`: fixes the result from the failure flag and closes the source.
      The result is 1 exactly when some failure was reported. */
  function Close(r: Reporter): (r': Reporter)
    ensures r'.source.closed && r'.source.buffer == r.source.buffer
    ensures r'.controller == r.controller
    ensures StreamStatus(r') == 1 <==> r.hasFailures
    ensures StreamStatus(r') == 0 <==> !r.hasFailures
    ensures r'.hasFailures == r.hasFailures
    ensures r'.suiteCount == r.suiteCount && r'.testCount == r.testCount
    ensures Valid(r')
  {
    r.(result := Some(if r.hasFailures then 1 else 0), source := SS.Close(r.source))
  }

  /** The consumer's `cancel`: it closes the source but, unlike `close`,
      fixes no result. */
  function Cancel(r: Reporter): (r': Reporter)
    ensures r'.source.closed && r'.result == r.result
    ensures r'.source.buffer == r.source.buffer && r'.hasFailures == r.hasFailures
    ensures r'.controller == r.controller
  {
    r.(source := SS.Close(r.source))
  }

  /** The consumer reading the stream through the source's `pull` as
      written: an open source hands its whole buffer to the controller; a
      closed one hands over nothing and ends the sequence. No counter, flag
      or result changes. */
  function Pull(r: Reporter): (r': Reporter)
    ensures r'.controller.queue + r'.source.buffer == r.controller.queue + r.source.buffer
    ensures r'.source.closed == r.source.closed && r'.result == r.result
    ensures r'.hasFailures == r.hasFailures
    ensures r'.suiteCount == r.suiteCount && r'.testCount == r.testCount
    ensures !r.source.closed ==> r'.controller.queue == r.controller.queue + r.source.buffer && r'.source.buffer == []
    ensures r.source.closed ==> r'.controller.queue == r.controller.queue && r'.source.buffer == r.source.buffer
    ensures r.source.closed ==> r'.controller.ended
  {
    var p := SS.Pull(r.source, r.controller);
    r.(source := p.source, controller := p.controller)
  }

  /** What `setTestExecution` arranges for the moment the run settles,
      whether it succeeded or threw: close the stream unless it is already
      closed. */
  function Settle(r: Reporter): (r': Reporter)
    ensures r'.source.closed
    ensures !r.source.closed ==> r' == Close(r)
    ensures r.source.closed ==> r' == r
  {
    if !r.source.closed then Close(r) else r
  }

  /** `suiteStart`: publishes the suite's start record, then resets the
      per-suite test counter. On a closed stream it throws before the reset. */
  function SuiteStart(r: Reporter, file: string): (c: Call)
    ensures r.source.closed ==> c == Call(r, Some(SS.ClosedStreamMessage))
    ensures !r.source.closed ==> c.thrown.None?
    ensures !r.source.closed ==> c.reporter.source.buffer == r.source.buffer + [Start(SuiteLevel, file, file)]
    ensures !r.source.closed ==> c.reporter.testCount == 0
    ensures !r.source.closed ==> c.reporter == r.(source := c.reporter.source, testCount := 0)
    ensures !r.source.closed ==> !c.reporter.source.closed
  {
    var c := Publish(r, Start(SuiteLevel, file, file));
    if c.thrown.Some? then c else c.(reporter := c.reporter.(testCount := 0))
  }

  /** `suiteFinish`: publishes the plan, whose count is the number of
      sub-tests finished since the suite started, then the suite's verdict
      stamped with the run-wide suite number, which advances; a non-passing
      code sets the failure flag for good. The error argument is ignored.
      On a closed stream the plan is rejected and nothing changes. */
  function SuiteFinish(r: Reporter, file: string, code: int): (c: Call)
    ensures r.source.closed ==> c == Call(r, Some(SS.ClosedStreamMessage))
    ensures !r.source.closed ==> c.thrown.None?
    ensures !r.source.closed ==> c.reporter.source.buffer == r.source.buffer + [Plan(file, r.testCount), Verdict(SuiteLevel, file, file, code, r.suiteCount)]
    ensures !r.source.closed ==> c.reporter.suiteCount == r.suiteCount + 1
    ensures !r.source.closed ==> (c.reporter.hasFailures <==> r.hasFailures || !IsPassing(code))
    ensures !r.source.closed ==> c.reporter.testCount == r.testCount
    ensures !r.source.closed ==> c.reporter.result == r.result
    ensures !r.source.closed ==> !c.reporter.source.closed
    ensures c.reporter.controller == r.controller
  {
    var plan := Publish(r, Plan(file, r.testCount));
    if plan.thrown.Some? then plan
    else
      var verdict := Publish(plan.reporter.(suiteCount := r.suiteCount + 1), Verdict(SuiteLevel, file, file, code, r.suiteCount));
      if verdict.thrown.Some? then verdict
      else verdict.(reporter := verdict.reporter.(hasFailures := verdict.reporter.hasFailures || !IsPassing(code)))
  }

  /** `testStart`: publishes a sub-test's start record and changes no
      counter or flag. */
  function TestStart(r: Reporter, name: string, file: string): (c: Call)
    ensures r.source.closed ==> c == Call(r, Some(SS.ClosedStreamMessage))
    ensures !r.source.closed ==> c.thrown.None?
    ensures !r.source.closed ==> c.reporter.source.buffer == r.source.buffer + [Start(TestLevel, name, file)]
    ensures !r.source.closed ==> c.reporter == r.(source := c.reporter.source)
    ensures !r.source.closed ==> !c.reporter.source.closed
  {
    Publish(r, Start(TestLevel, name, file))
  }

  /** `testFinish`: publishes the sub-test's verdict stamped with the
      per-suite counter, which advances; a non-passing code sets the failure
      flag for good. The counter advances even when the stream is closed,
      because it is read and incremented while the record is built, before
      the publish throws. */
  function TestFinish(r: Reporter, name: string, file: string, code: int): (c: Call)
    ensures r.source.closed ==> c == Call(r.(testCount := r.testCount + 1), Some(SS.ClosedStreamMessage))
    ensures !r.source.closed ==> c.thrown.None?
    ensures !r.source.closed ==> c.reporter.source.buffer == r.source.buffer + [Verdict(TestLevel, name, file, code, r.testCount)]
    ensures !r.source.closed ==> c.reporter.testCount == r.testCount + 1
    ensures !r.source.closed ==> (c.reporter.hasFailures <==> r.hasFailures || !IsPassing(code))
    ensures !r.source.closed ==> c.reporter.suiteCount == r.suiteCount
    ensures !r.source.closed ==> c.reporter.result == r.result
    ensures !r.source.closed ==> !c.reporter.source.closed
    ensures c.reporter.controller == r.controller
  {
    var c := Publish(r.(testCount := r.testCount + 1), Verdict(TestLevel, name, file, code, r.testCount));
    if c.thrown.Some? then c
    else c.(reporter := c.reporter.(hasFailures := c.reporter.hasFailures || !IsPassing(code)))
  }

  /** Every call a runner or the consumer can make on the reporter. */
  datatype Op =
    | SuiteStartOp(file: string)
    | SuiteFinishOp(file: string, code: int)
    | TestStartOp(name: string, file: string)
    | TestFinishOp(name: string, file: string, code: int)
    | CloseOp
    | CancelOp
    | PullOp

  /** The reporter after one call, whether or not the call threw. */
  function Apply(r: Reporter, op: Op): Reporter {
    match op
    case SuiteStartOp(f) => SuiteStart(r, f).reporter
    case SuiteFinishOp(f, code) => SuiteFinish(r, f, code).reporter
    case TestStartOp(n, f) => TestStart(r, n, f).reporter
    case TestFinishOp(n, f, code) => TestFinish(r, n, f, code).reporter
    case CloseOp => Close(r)
    case CancelOp => Cancel(r)
    case PullOp => Pull(r)
  }

  /** The reporter after a sequence of calls. */
  function ApplyAll(r: Reporter, ops: seq<Op>): Reporter
    decreases |ops|
  {
    if ops == [] then r else ApplyAll(Apply(r, ops[0]), ops[1..])
  }

  /** The calls of a sequence that the producer makes, in order: the
      consumer's reads left out. */
  function Producing(ops: seq<Op>): (p: seq<Op>)
    ensures |p| <= |ops|
    ensures forall i :: 0 <= i < |p| ==> !p[i].PullOp?
    decreases |ops|
  {
    if ops == [] then []
    else if ops[0].PullOp? then Producing(ops[1..])
    else [ops[0]] + Producing(ops[1..])
  }

  /** Two reporters in the same producer state whose consumers see the same
      events: `a`'s queue followed by its buffer is `q` followed by `b`'s
      buffer. */
  predicate Agree(a: Reporter, b: Reporter, q: seq<Event>) {
    a.source.closed == b.source.closed && a.result == b.result &&
    a.suiteCount == b.suiteCount && a.testCount == b.testCount &&
    a.hasFailures == b.hasFailures &&
    a.controller.queue + a.source.buffer == q + b.source.buffer
  }

  /** A producer call applied to two agreeing reporters keeps them
      agreeing: it appends the same events to both buffers. */
  lemma ProducerStepAgrees(a: Reporter, b: Reporter, q: seq<Event>, op: Op)
    requires Agree(a, b, q) && !op.PullOp?
    ensures Agree(Apply(a, op), Apply(b, op), q)
  {
    var a', b' := Apply(a, op), Apply(b, op);
    if !a.source.closed {
      var ea :| a'.source.buffer == a.source.buffer + ea && b'.source.buffer == b.source.buffer + ea;
      calc {
        a'.controller.queue + a'.source.buffer;
        a.controller.queue + (a.source.buffer + ea);
        (a.controller.queue + a.source.buffer) + ea;
        (q + b.source.buffer) + ea;
        q + b'.source.buffer;
      }
    }
  }

  /** The consumer's reads are invisible to the producer and lose nothing
      while the stream is open: whatever reads are interleaved, every
      counter, flag and result is what the producer's calls alone give, and
      the events handed to the consumer followed by those still buffered are
      the events those calls publish. */
  lemma {:induction false} PullsAreInvisible(a: Reporter, b: Reporter, q: seq<Event>, ops: seq<Op>)
    requires Agree(a, b, q)
    ensures Agree(ApplyAll(a, ops), ApplyAll(b, Producing(ops)), q)
    decreases |ops|
  {
    if ops != [] {
      if ops[0].PullOp? {
        PullsAreInvisible(Apply(a, ops[0]), b, q, ops[1..]);
      } else {
        ProducerStepAgrees(a, b, q, ops[0]);
        PullsAreInvisible(Apply(a, ops[0]), Apply(b, ops[0]), q, ops[1..]);
        assert Producing(ops) == [ops[0]] + Producing(ops[1..]);
        assert ApplyAll(b, Producing(ops)) == ApplyAll(Apply(b, ops[0]), Producing(ops[1..]));
      }
    }
  }

  /** Whatever calls are made, the failure flag is never cleared, a closed
      stream never reopens, and a fixed result stays consistent with the
      flag. */
  lemma {:induction false} FlagIsSticky(r: Reporter, ops: seq<Op>)
    requires Valid(r)
    ensures r.hasFailures ==> ApplyAll(r, ops).hasFailures
    ensures r.source.closed ==> ApplyAll(r, ops).source.closed
    ensures Valid(ApplyAll(r, ops))
    decreases |ops|
  {
    if ops != [] {
      FlagIsSticky(Apply(r, ops[0]), ops[1..]);
    }
  }

  /** Once the stream is closed it is terminal: no call publishes anything,
      the failure flag and the suite counter are frozen, so closing again
      (or settling) leaves the status where the first close put it. */
  lemma {:induction false} ClosedIsTerminal(r: Reporter, ops: seq<Op>)
    requires Valid(r) && r.source.closed
    ensures var r' := ApplyAll(r, ops);
      r'.source.closed && r'.source.buffer == r.source.buffer &&
      r'.hasFailures == r.hasFailures && r'.suiteCount == r.suiteCount &&
      (r.result.Some? ==> StreamStatus(r') == StreamStatus(r))
    decreases |ops|
  {
    if ops != [] {
      ClosedIsTerminal(Apply(r, ops[0]), ops[1..]);
    }
  }

  /** Every event the reporter has published: those handed to the
      consumer, then those still buffered. */
  function Published(r: Reporter): seq<Event> {
    r.controller.queue + r.source.buffer
  }

  /** Some record is a `test:fail` verdict. */
  predicate HasFail(es: seq<Event>) {
    exists i :: 0 <= i < |es| && es[i].Fail?
  }

  lemma HasFailConcat(a: seq<Event>, b: seq<Event>)
    ensures HasFail(a + b) <==> HasFail(a) || HasFail(b)
  {
    if HasFail(a + b) {
      var i :| 0 <= i < |a + b| && (a + b)[i].Fail?;
      if i < |a| {
        assert a[i] == (a + b)[i];
      } else {
        assert b[i - |a|] == (a + b)[i];
      }
    }
    if HasFail(a) {
      var i :| 0 <= i < |a| && a[i].Fail?;
      assert (a + b)[i] == a[i];
    }
    if HasFail(b) {
      var i :| 0 <= i < |b| && b[i].Fail?;
      assert (a + b)[|a| + i] == b[i];
    }
  }

  /** One call or read keeps the failure flag equal to "some published
      record is a `test:fail` verdict". */
  lemma FlagStepMatchesPublished(r: Reporter, op: Op)
    requires r.hasFailures <==> HasFail(Published(r))
    ensures Apply(r, op).hasFailures <==> HasFail(Published(Apply(r, op)))
  {
    var r' := Apply(r, op);
    if !r.source.closed && !op.CloseOp? && !op.CancelOp? && !op.PullOp? {
      var added := r'.source.buffer[|r.source.buffer|..];
      assert r'.source.buffer == r.source.buffer + added;
      assert Published(r') == Published(r) + added by {
        assert r'.controller == r.controller;
        AppendAssoc(r.controller.queue, r.source.buffer, added);
      }
      HasFailConcat(Published(r), added);
      match op {
        case SuiteStartOp(f) =>
          assert added == [Start(SuiteLevel, f, f)];
        case SuiteFinishOp(f, code) =>
          assert added == [Plan(f, r.testCount), Verdict(SuiteLevel, f, f, code, r.suiteCount)];
          PassingOutcomes(code);
          assert HasFail(added) <==> added[1].Fail?;
        case TestStartOp(n, f) =>
          assert added == [Start(TestLevel, n, f)];
        case TestFinishOp(n, f, code) =>
          assert added == [Verdict(TestLevel, n, f, code, r.testCount)];
          PassingOutcomes(code);
          assert HasFail(added) <==> added[0].Fail?;
      }
    }
  }

  /** Concatenation regrouped; a step the solver often needs spelled out. */
  lemma AppendAssoc<T>(a: seq<T>, b: seq<T>, c: seq<T>)
    ensures (a + b) + c == a + (b + c)
  {
  }

  /** Over any sequence of calls and reads, the failure flag is set exactly
      when some published record is a `test:fail` verdict; with `Close`,
      the status is 1 exactly when such a record was published before the
      close. A fresh reporter meets the precondition. */
  lemma {:induction false} FlagMatchesPublished(r: Reporter, ops: seq<Op>)
    requires r.hasFailures <==> HasFail(Published(r))
    ensures ApplyAll(r, ops).hasFailures <==> HasFail(Published(ApplyAll(r, ops)))
    decreases |ops|
  {
    if ops != [] {
      FlagStepMatchesPublished(r, ops[0]);
      FlagMatchesPublished(Apply(r, ops[0]), ops[1..]);
    }
  }

  /** The run's status, read after a close that follows any calls and
      reads on a fresh reporter, is 1 exactly when some published record is
      a `test:fail` verdict, and 0 otherwise. */
  lemma StatusMatchesPublished(ops: seq<Op>)
    ensures var r := ApplyAll(NewReporter(), ops);
      StreamStatus(Close(r)) == 1 <==> HasFail(Published(Close(r)))
    ensures var r := ApplyAll(NewReporter(), ops);
      StreamStatus(Close(r)) == 0 <==> !HasFail(Published(Close(r)))
  {
    FlagMatchesPublished(NewReporter(), ops);
  }

  /** Closing twice is closing once. */
  lemma CloseIsIdempotent(r: Reporter)
    ensures Close(Close(r)) == Close(r)
    ensures Settle(Close(r)) == Close(r)
  {
  }

  /** Until a close, the status reads 0, whatever failures were reported. */
  lemma {:induction false} StatusZeroUntilClosed(r: Reporter, ops: seq<Op>)
    requires r.result.None?
    requires forall i :: 0 <= i < |ops| ==> !ops[i].CloseOp?
    ensures StreamStatus(ApplyAll(r, ops)) == 0
    decreases |ops|
  {
    if ops != [] {
      StatusZeroUntilClosed(Apply(r, ops[0]), ops[1..]);
    }
  }

  /** A consumer that cancels before the run settles leaves no result fixed:
      the settle sees a closed source and does not close, so the status reads
      0 even after failures. */
  lemma CancelledRunReadsZero(r: Reporter)
    requires r.result.None?
    ensures StreamStatus(Settle(Cancel(r))) == 0
  {
  }
}
