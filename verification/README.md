# wpt-test result stream and runner, modelled in Dafny

wpt-test loads each HTML test document of a directory in a browser and
reads back the testharness results the page recorded. It republishes them
as a stream of `node:test`-style events that any test reporter can format.
This project models the two pieces of sequential logic behind that.

- **The result event stream** (`TestStreamSource`, `TestResultStream`).
  A source holds a closed flag, a FIFO buffer and a pending-read slot.
  A reporter on top of it keeps a per-suite test counter, a run-wide suite
  counter and a sticky failure flag. It turns outcome codes
  (PASS=0, FAIL=1, TIMEOUT=2, NOTRUN=3, PRECONDITION_FAILED=4) into
  `test:start`, `test:plan`, `test:pass` and `test:fail` records, and fixes
  the run's status (0 or 1) when closed. Every operation is a pure function
  from the old state to the new state. A call that throws returns the
  message alongside the state it leaves behind.
- **The runners** (`lib/runner.js` and the older `lib/testrunner.js`).
  They walk the documents one at a time. For each one they report a suite
  start, a start/finish pair per sub-test, and a suite finish with the
  page's status. A document that throws is finished as FAIL, and the loop
  goes on. The browser is abstracted as what each document produced:
  `Reported(tests, status)`, or `Threw(reported)`. `reported` holds the
  sub-tests already walked when the exception arose. It is empty when
  navigation or the completion probe failed. The loop is a fold of these
  results into the reporter. The older runner is an imperative loop, and
  it is proved equal to that fold. The loop runs inside two scopes: the
  static server and the browser session. Each scope can fail to start or
  to end, and a failure to end a scope replaces whatever failed inside it.

Modules, one per file: `Wrappers` (Option/Result), `Outcome` (status
codes), `Events` (records), `StreamSource`, `ResultStream`, `Runner`,
`TestRunner`.

The main theorems:

- The stream delivers events in publish order. Nothing is reordered or
  duplicated. The consumer's reads change nothing the producer sees.
- Publishing to a closed stream throws and changes nothing.
- The status reads 0 until a close. After a close it is 1 exactly when a
  `test:fail` verdict was published. Closing again changes nothing.
- A run's events are exactly the reference grammar, suite by suite. Suite
  numbers run 0,1,2,… across the run. Sub-test numbers run 0,1,2,… within
  each suite. Each plan counts its suite's sub-tests.
- A document that throws changes only its own suite. That suite ends with
  a FAIL verdict.
- A run's status is 1 exactly when some document threw, reported a
  non-passing status, or reported a non-passing sub-test.

Some behaviours of the code are easy to miss, and the model follows the code
in each:

- The `status` getter reads 0 before any close, not the current failure
  flag.
- `suiteFinish` attaches no error payload.
- A consumer's `cancel` closes the source without fixing a result. The
  settle step then sees a closed source and does not close it, so a
  cancelled run reads status 0 even after failures
  (`ResultStream.CancelledRunReadsZero`).
- `testFinish` on a closed stream still advances the test counter. The
  counter is read and incremented while the record is built, before the
  publish throws.

## Model

| member | source | states |
|---|---|---|
| Outcome.Status.Code | lib/test_result_stream.js:23-29 | each outcome has one code in 0..4: PASS 0, FAIL 1, TIMEOUT 2, NOTRUN 3, PRECONDITION_FAILED 4, and no code belongs to two outcomes |
| Outcome.FromCode | lib/test_result_stream.js:23-29 | exactly the codes 0..4 stand for an outcome, and each outcome's code maps back to it |
| Outcome.CodeRoundTrip | lib/test_result_stream.js:23-29 | the encoding PASS=0 … PRECONDITION_FAILED=4 is a bijection: decoding a code gives back its outcome, and distinct outcomes have distinct codes |
| Outcome.SkipReason | lib/test_result_stream.js:168-179 | the skip reason is "Optional Feature Unsupported" exactly for PRECONDITION_FAILED, "Not Run" exactly for NOTRUN, and absent otherwise |
| Events.Verdict | lib/test_result_stream.js:197-220 | a verdict's type is `test:pass` exactly for PASS or PRECONDITION_FAILED and `test:fail` for every other value; it carries the given nesting, name, file and test number, and the skip reason of its code |
| StreamSource.Start | lib/test_result_stream.js:49-53 | start hands the whole buffer to the consumer in order and leaves it empty |
| StreamSource.Pull | lib/test_result_stream.js:55-69 | pull clears the pending read; on a closed source it ends the sequence and hands over nothing, leaving the buffer as it was; on an open one it hands over the buffer in order and leaves a read pending |
| StreamSource.PullDraining | lib/test_result_stream.js:55-69 | corrected pull: the buffer is always handed over in order, and a closed source then ends the sequence |
| StreamSource.Close | lib/test_result_stream.js:71-83 | close and cancel mark the source closed and wake a waiting read, without touching the buffer |
| StreamSource.DispatchEvent | lib/test_result_stream.js:85-92 | publishing throws "Cannot publish to closed stream" exactly when the source is closed; otherwise the event goes at the tail of the buffer and a waiting read is woken |
| StreamSource.ReplayKeepsPublishOrder | lib/test_result_stream.js:44-93 | under any interleaving of publish, pull, close and cancel, what the consumer received followed by what is still buffered equals the accepted events in publish order; the consumer's queue only grows at its end; a closed source stays closed |
| StreamSource.ClosedPullDeliversNothing | lib/test_result_stream.js:55-59 | as written, once the source is closed no later operation hands the consumer anything more |
| StreamSource.PublishClosePullLosesEvent | lib/test_result_stream.js:55-92 | as written, publish e, then close, then pull ends the sequence with e still in the buffer and never delivered |
| StreamSource.DrainingDeliversEverything | lib/test_result_stream.js:55-69 | with the corrected pull, a run that is closed and then pulled ends the sequence having delivered exactly the accepted events, in order |
| ResultStream.StreamStatus | lib/test_result_stream.js:35-37 | the status reads the fixed result, or 0 when none was fixed; on a stream whose result came from a close it is 0 or 1 |
| ResultStream.Pull | lib/test_result_stream.js:55-69 | a read by the stream's consumer on an open stream hands the whole buffer to the consumer in order and empties it; on a closed stream it hands over nothing, leaves the buffer as it was and ends the sequence; either way nothing is lost or reordered, and no counter, flag, result or closed state changes |
| ResultStream.ProducerStepAgrees | lib/test_result_stream.js:139-221 | a reporter call appends the same events to the buffers of two reporters whose counters, flag, result and closed state agree, so what their consumers can see stays in step |
| ResultStream.PullsAreInvisible | lib/test_result_stream.js:55-92 | whatever reads the consumer interleaves with the reporter calls, every counter, flag and result is what the calls alone give, and the events handed to the consumer followed by those still buffered are exactly the events the calls alone publish |
| ResultStream.Close | lib/test_result_stream.js:125-129 | close fixes the status to 1 when a failure was reported and to 0 otherwise, closes the source, and leaves the buffer, counters and flag unchanged |
| ResultStream.Cancel | lib/test_result_stream.js:71-74 | the consumer's cancel closes the source but fixes no result |
| ResultStream.Settle | lib/test_result_stream.js:131-137 | when the run settles, the stream is closed if it is still open, and left as it is otherwise |
| ResultStream.SuiteStart | lib/test_result_stream.js:139-149 | on an open stream, a suite-level start record is published and the test counter is reset to 0, and nothing else changes; on a closed stream it throws and nothing changes |
| ResultStream.SuiteFinish | lib/test_result_stream.js:151-184 | on an open stream, a plan counting the sub-tests finished since the suite started is published, then the suite verdict with the current suite number; the suite counter advances, and the failure flag is set exactly when it was set or the code is not passing; on a closed stream it throws and nothing changes |
| ResultStream.TestStart | lib/test_result_stream.js:186-194 | publishes a test-level start record and changes no counter or flag; throws on a closed stream |
| ResultStream.TestFinish | lib/test_result_stream.js:196-221 | on an open stream, publishes the sub-test verdict with the current test number, advances the test counter, and sets the failure flag for a non-passing code; on a closed stream it throws, and the counter has still advanced |
| ResultStream.FlagIsSticky | lib/test_result_stream.js:151-221 | over any sequence of calls, the failure flag is never cleared, a closed stream never reopens, and a fixed status agrees with the flag |
| ResultStream.FlagStepMatchesPublished | lib/test_result_stream.js:151-221 | one call or read keeps the failure flag equal to "some published record is a `test:fail` verdict": only a verdict for a non-passing code sets the flag, and such a verdict is always a `test:fail` record |
| ResultStream.FlagMatchesPublished | lib/test_result_stream.js:151-221 | over any sequence of calls and reads from a state where it holds, the failure flag is set exactly when some published record is a `test:fail` verdict |
| ResultStream.StatusMatchesPublished | lib/test_result_stream.js:125-128 | from a fresh reporter, the status fixed by a close is 1 exactly when some `test:fail` verdict was published before it, and 0 otherwise |
| ResultStream.ClosedIsTerminal | lib/test_result_stream.js:80-92 | after a close (whose reporter side is lines 125-128), no sequence of calls or reads publishes anything, changes the failure flag or the suite counter, or changes the status |
| ResultStream.CloseIsIdempotent | lib/test_result_stream.js:125-137 | closing twice, or settling after a close, gives the same state as closing once |
| ResultStream.StatusZeroUntilClosed | lib/test_result_stream.js:35-37 | until a close, the status reads 0, whatever was reported |
| ResultStream.CancelledRunReadsZero | lib/test_result_stream.js:131-137 | a stream cancelled before the run settles is not closed by the settle, so its status reads 0 |
| Runner.FindTests | lib/runner.js:39-49 | a path is yielded exactly when some entry is a regular file whose name ends in `.html` and the path is that entry's location; there are never more documents than entries |
| Runner.FindTestsConcat | lib/runner.js:42-48 | discovery keeps listing order: the documents of a listing are those of its first part followed by those of its second |
| Runner.ReportTests | lib/runner.js:62-65 | on an open stream, each sub-test yields a start then a verdict, in report order, numbered on from the test counter; the counter advances by the number of sub-tests, and the flag is set exactly when one is not passing |
| Runner.RunDocument | lib/runner.js:55-70 | on an open stream a document yields suite start, its sub-test pairs numbered from 0, a plan with their count, and a suite verdict with the page's status (FAIL if the page threw) and the next suite number; it never throws past the loop body; on a closed stream it throws at the suite start and changes nothing |
| Runner.RunDocuments | lib/runner.js:54-71 | on an open stream the loop processes every document in order, publishes exactly their suites numbered on from the current suite count, and sets the flag exactly when some document counts against the run |
| Runner.PairsAreNumbered | lib/test_result_stream.js:206-217 | within a suite, the j-th sub-test's start sits at position 2j and its verdict, numbered n + j, at position 2j + 1 |
| Runner.ExpectedSplit | lib/runner.js:54-71 | the events of document i are exactly its own suite, whose verdict carries suite number k + i (the counter stamped at lines 169 and 180 of lib/test_result_stream.js), between the suites of the documents before and after it |
| Runner.FailureIsContained | lib/runner.js:57-70 | replacing what one document produced by a throw leaves every other suite and its number unchanged, and that document's suite ends with a `test:fail` verdict |
| Runner.EscapesIsDeterministic | lib/wpt_server.js:86-96 | the failure that escapes the server scope and the session scope nested in it (lib/web_driver.js:29-65) is determined by how the scopes ended and what the body threw |
| Runner.Scoped | lib/web_driver.js:29-65 | a server that does not start reports its failure and nothing runs (the start sits before the `try` of lib/wpt_server.js:86-96); a session that is not created reports its failure unless stopping the server fails, and the body does not run; otherwise the body runs, and a failure to delete the session, then a failure to stop the server, replaces what it threw |
| Runner.Listed | lib/runner.js:39-54 | a directory listing that fails throws and leaves the reporter untouched, before any document is reported; otherwise, on an open stream, nothing is thrown, the suites of the discovered documents are published in discovery order, numbered on from the suite count, and the flag is set exactly when some document counts against the run |
| Runner.RunTests | lib/runner.js:51-74 | when both scopes start and the listing succeeds, on an open stream the discovered documents' suites are published in discovery order and the flag is set exactly when some document counts against the run; otherwise nothing is published; the stream stays open, and the failure reported is the one that escapes the scopes |
| Runner.Run | lib/runner.js:76-82 | when the run settles the stream is closed, and it has published exactly the suites of the discovered documents in discovery order, numbered from 0, or nothing if a scope or the listing failed first; its status is 0 or 1, and 1 exactly when some document threw or reported a non-passing status or sub-test; the run's completion reports the failure that escapes the scopes |
| Runner.ConsumerAfterRun | lib/test_result_stream.js:55-69 | a consumer that first reads after the run settled gets an ended sequence with nothing in it; with the corrected pull it gets every published event, in order |
| TestRunner.RunTests | lib/testrunner.js:37-58 | the loop over the testcase list, one at a time in order, computes the same result as the fold, so each testcase yields its suite and a throwing one is finished as FAIL while later ones still run |
| TestRunner.Run | lib/testrunner.js:37-66 | the loop runs inside the server and session scopes, bound to a fresh stream that ends closed; when both scopes start, the stream has published the testcases' suites in order and its status is 1 exactly when some testcase counts against the run, and otherwise nothing and status 0; the completion reports the failure that escapes the scopes |

## Left out

- The request handling of the static file server (`lib/wpt_server.js`) is left out. Its containment check and file serving delegate to the external `path-is-inside` and `serve-handler` packages. Only the server's start/stop scope is modelled, as given outcomes.
- The WebDriver calls (`lib/web_driver.js`) and the in-page completion probe are left out, because they belong to the browser. A page is represented only by what it produced, and the session's scope only by whether creating and deleting it failed.
- The command line (`wpt-test-cli.js`) is left out: flag parsing, reporter selection, exit handling and signals.
- The Node/Web stream adapters are left out: `Readable.fromWeb`, the `stream` getter with its property shims, and the promise behind `waitUntilDone`. The failure the completion promise reports is modelled as `Settled.done`.
- Promise scheduling is left out. `pull`, `close` and every reporter call are atomic transitions.
- A consumer `cancel` that interleaves with the document loop is not modelled. The fold starts from a given reporter state, and its contract covers a stream that is already closed at the start.
- The traversal order of the directory listing is not modelled: the listing is an input sequence.
- `path.join` normalisation and resolving the document URL against the server address are left out. A location is the parent directory, `/` and the name.
- Creating the log directory and creating the browser session are collapsed into one session-start failure, because both happen before the session's `try` and have the same effect.
- Runner.Run: the consumer does not read while the run is in progress, so the settled stream still buffers everything it published. Reads interleaved with the reporter's calls are covered by `ResultStream.PullsAreInvisible`, which is stated over reporter calls and not restated over the document loop.
- `console.error` logging of a caught exception is left out.
- A status value that is not a number is represented by an integer outside 0..4. The source compares with `===`, so it is classified as a failure with no skip reason in both cases.
- The `column` and `line` fields (always 0) and the `details` field (determined by nesting) are not stored in the records.

## Findings

| source | as written | input that shows it | evidently intended | confidence | as-written member | corrected member |
|---|---|---|---|---|---|---|
| lib/test_result_stream.js:55-59 | `pull` on a closed source ends the stream and returns, and never enqueues the events still in its buffer | a consumer that lags behind (the stream has not pulled since event e was published), then the run closes the stream, then the stream pulls | the buffered events are enqueued before the controller is closed, so every accepted event reaches the consumer before the sequence ends | medium, not executed; it needs the consumer to be slow enough that the stream does not pull between the last publish and the close | StreamSource.ClosedPullDeliversNothing | StreamSource.DrainingDeliversEverything |
