/** The runner: discovers `.html` test documents, walks them one at a time
    through the browser, reports each to the result stream, and contains a
    document's failure to that document. The browser is abstracted as what
    each document produced. */
module Runner {
  import opened Wrappers
  import opened Outcome
  import opened Events
  import opened ResultStream
  import SS = StreamSource

  // ---------------------------------------------------------------------
  // Discovery

  /** One entry of the recursive directory listing. `parentPath` is absent
      on Node versions that only provide `path`. */
  datatype DirEntry = DirEntry(isFile: bool, name: string, parentPath: Option<string>, path: string)

  const HtmlSuffix := ".html"

  predicate EndsWith(s: string, suffix: string) {
    |suffix| <= |s| && s[|s| - |suffix|..] == suffix
  }

  /** The entries yielded as test documents: regular files whose name ends
      in `.html` (the pattern is anchored at the end and case-sensitive). */
  predicate IsTestDocument(e: DirEntry) {
    e.isFile && EndsWith(e.name, HtmlSuffix)
  }

  /** The document path the runner builds for an entry. Path normalisation
      by the platform's join is not modelled: the parts are joined with `/`. */
  function Location(e: DirEntry): string {
    e.parentPath.GetOr(e.path) + "/" + e.name
  }

  /** `findTests`: the locations of the test documents, in listing order. */
  function FindTests(entries: seq<DirEntry>): (docs: seq<string>)
    ensures |docs| <= |entries|
    ensures forall d :: d in docs <==> exists e :: e in entries && IsTestDocument(e) && Location(e) == d
    decreases |entries|
  {
    if entries == [] then []
    else (if IsTestDocument(entries[0]) then [Location(entries[0])] else []) + FindTests(entries[1..])
  }

  /** Discovery keeps listing order: the documents of a listing are those of
      its first part followed by those of its second. */
  lemma {:induction false} FindTestsConcat(a: seq<DirEntry>, b: seq<DirEntry>)
    ensures FindTests(a + b) == FindTests(a) + FindTests(b)
    decreases |a|
  {
    if a == [] {
      assert a + b == b;
    } else {
      assert (a + b)[0] == a[0];
      assert (a + b)[1..] == a[1..] + b;
      FindTestsConcat(a[1..], b);
    }
  }

  // ---------------------------------------------------------------------
  // What the browser produced

  /** One sub-test result read back from a page. `status` is whatever value
      the page reported; codes outside 0..4 are classified as failures. */
  datatype SubTest = SubTest(name: string, status: int)

  /** What loading one document produced. `Reported` is the page's result
      list and overall status. `Threw` is an exception raised by navigation,
      by the completion probe, or while walking the result list; `reported`
      holds the sub-tests walked before it (empty when navigation or the
      probe failed). */
  datatype PageResult = Reported(tests: seq<SubTest>, status: int) | Threw(reported: seq<SubTest>) {

    /** The sub-tests whose start and finish records get published. */
    function Tests(): seq<SubTest> {
      match this
      case Reported(tests, _) => tests
      case Threw(reported) => reported
    }

    /** The code the suite is finished with: the page's own status, or FAIL
        when the page threw. */
    function Code(): int {
      match this
      case Reported(_, status) => status
      case Threw(_) => FAIL.Code()
    }
  }

  /** One document of the run and what loading it produced. */
  datatype Visit = Visit(file: string, page: PageResult)

  /** The documents paired, in order, with what each produced. The
      contract is the pairing that callers use, so that they need not
      unfold the comprehension. */
  function Visits(docs: seq<string>, pages: seq<PageResult>): (v: seq<Visit>)
    requires |docs| == |pages|
    ensures |v| == |docs|
    ensures forall i :: 0 <= i < |v| ==> v[i] == Visit(docs[i], pages[i])
  {
    seq(|docs|, i requires 0 <= i < |docs| => Visit(docs[i], pages[i]))
  }

  // ---------------------------------------------------------------------
  // Reference definition of the event grammar

  predicate AnyFailing(tests: seq<SubTest>) {
    exists i :: 0 <= i < |tests| && !IsPassing(tests[i].status)
  }

  lemma AnyFailingCons(tests: seq<SubTest>)
    requires tests != []
    ensures AnyFailing(tests) <==> !IsPassing(tests[0].status) || AnyFailing(tests[1..])
  {
  }

  /** Some document of `visits` counts against the run. */
  predicate SomeFails(visits: seq<Visit>) {
    exists i :: 0 <= i < |visits| && Fails(visits[i].page)
  }

  lemma SomeFailsCons(visits: seq<Visit>)
    requires visits != []
    ensures SomeFails(visits) <==> Fails(visits[0].page) || SomeFails(visits[1..])
  {
  }

  /** A document counts against the run when it threw, reported a
      non-passing status, or reported a non-passing sub-test. */
  predicate Fails(page: PageResult) {
    page.Threw? || !IsPassing(page.status) || AnyFailing(page.tests)
  }

  /** The start/verdict pair of each sub-test, in report order, with
      per-suite numbers counting up from `n`. */
  function Pairs(file: string, tests: seq<SubTest>, n: nat): seq<Event>
    decreases |tests|
  {
    if tests == [] then []
    else
      [Start(TestLevel, tests[0].name, file), Verdict(TestLevel, tests[0].name, file, tests[0].status, n)]
      + Pairs(file, tests[1..], n + 1)
  }

  /** The events of one suite: its start, the sub-test pairs numbered from 0,
      the plan counting them, and the suite verdict numbered `k`. */
  function SuiteEvents(file: string, page: PageResult, k: nat): seq<Event> {
    [Start(SuiteLevel, file, file)]
      + Pairs(file, page.Tests(), 0)
      + [Plan(file, |page.Tests()|), Verdict(SuiteLevel, file, file, page.Code(), k)]
  }

  /** The concatenation of `f(xs[i], k + i)` over the elements of `xs`. */
  function Numbered<T, U>(xs: seq<T>, k: nat, f: (T, nat) -> seq<U>): seq<U>
    decreases |xs|
  {
    if xs == [] then [] else f(xs[0], k) + Numbered(xs[1..], k + 1, f)
  }

  lemma {:induction false} NumberedConcat<T, U>(a: seq<T>, b: seq<T>, k: nat, f: (T, nat) -> seq<U>)
    ensures Numbered(a + b, k, f) == Numbered(a, k, f) + Numbered(b, k + |a|, f)
    decreases |a|
  {
    if a == [] {
      assert a + b == b;
    } else {
      assert (a + b)[0] == a[0];
      assert (a + b)[1..] == a[1..] + b;
      NumberedConcat(a[1..], b, k + 1, f);
    }
  }

  function SuiteOf(v: Visit, k: nat): seq<Event> {
    SuiteEvents(v.file, v.page, k)
  }

  /** The events of consecutive suites numbered from `k`. */
  function Expected(visits: seq<Visit>, k: nat): seq<Event> {
    Numbered(visits, k, SuiteOf)
  }

  /** The sub-test part is dense: the `j`-th sub-test contributes its start
      at position 2j and its verdict, numbered n + j, at 2j + 1. */
  lemma {:induction false} PairsAreNumbered(file: string, tests: seq<SubTest>, n: nat)
    ensures |Pairs(file, tests, n)| == 2 * |tests|
    ensures forall j :: 0 <= j < |tests| ==>
      Pairs(file, tests, n)[2 * j] == Start(TestLevel, tests[j].name, file) &&
      Pairs(file, tests, n)[2 * j + 1] == Verdict(TestLevel, tests[j].name, file, tests[j].status, n + j)
    decreases |tests|
  {
    if tests != [] {
      PairsAreNumbered(file, tests[1..], n + 1);
      var rest := Pairs(file, tests[1..], n + 1);
      var first := [Start(TestLevel, tests[0].name, file), Verdict(TestLevel, tests[0].name, file, tests[0].status, n)];
      var all := Pairs(file, tests, n);
      assert all == first + rest;
      forall j | 0 <= j < |tests|
        ensures all[2 * j] == Start(TestLevel, tests[j].name, file)
        ensures all[2 * j + 1] == Verdict(TestLevel, tests[j].name, file, tests[j].status, n + j)
      {
        if j > 0 {
          assert tests[1..][j - 1] == tests[j];
          assert all[2 * j] == rest[2 * (j - 1)];
          assert all[2 * j + 1] == rest[2 * (j - 1) + 1];
        }
      }
    }
  }

  /** The suites of a run can be cut anywhere: the events of document `i`
      are exactly its own suite, numbered k + i, between those of the
      documents before and after it. Nothing one document produced leaks
      into another's events. */
  lemma ExpectedSplit(visits: seq<Visit>, i: nat, k: nat)
    requires i < |visits|
    ensures Expected(visits, k) ==
      Expected(visits[..i], k)
      + SuiteEvents(visits[i].file, visits[i].page, k + i)
      + Expected(visits[i + 1..], k + i + 1)
  {
    var here := [visits[i]];
    assert visits == visits[..i] + (here + visits[i + 1..]);
    NumberedConcat(visits[..i], here + visits[i + 1..], k, SuiteOf);
    NumberedConcat(here, visits[i + 1..], k + i, SuiteOf);
    assert here[1..] == [];
    assert Numbered(here, k + i, SuiteOf) == SuiteOf(visits[i], k + i) + Numbered([], k + i + 1, SuiteOf);
  }

  /** Containment: replacing what one document produced by a throw changes
      that document's suite only, and its suite now ends with a FAIL
      verdict; the suites before and after it, and their numbers, are
      unchanged. */
  lemma FailureIsContained(before: seq<Visit>, file: string, page: PageResult, reported: seq<SubTest>, after: seq<Visit>, k: nat)
    ensures var original := before + [Visit(file, page)] + after;
      var failed := before + [Visit(file, Threw(reported))] + after;
      var i := |before|;
      Expected(failed, k) == Expected(before, k) + SuiteEvents(file, Threw(reported), k + i) + Expected(after, k + i + 1) &&
      Expected(original, k) == Expected(before, k) + SuiteEvents(file, page, k + i) + Expected(after, k + i + 1) &&
      SuiteEvents(file, Threw(reported), k + i)[|SuiteEvents(file, Threw(reported), k + i)| - 1].Fail?
  {
    var original := before + [Visit(file, page)] + after;
    var failed := before + [Visit(file, Threw(reported))] + after;
    var i := |before|;
    ExpectedSplit(original, i, k);
    ExpectedSplit(failed, i, k);
    assert original[..i] == before && failed[..i] == before;
    assert original[i + 1..] == after && failed[i + 1..] == after;
    assert original[i] == Visit(file, page) && failed[i] == Visit(file, Threw(reported));
  }

  // ---------------------------------------------------------------------
  // The per-document loop

  /** The inner `for` over a page's results: a start and a finish per
      sub-test, stopping at the first call that throws. */
  function ReportTests(r: Reporter, file: string, tests: seq<SubTest>): (c: Call)
    ensures !r.source.closed ==> c.thrown.None?
    ensures !r.source.closed ==> c.reporter.source.buffer == r.source.buffer + Pairs(file, tests, r.testCount)
    ensures !r.source.closed ==> c.reporter.testCount == r.testCount + |tests|
    ensures !r.source.closed ==> (c.reporter.hasFailures <==> r.hasFailures || AnyFailing(tests))
    ensures !r.source.closed ==> c.reporter.suiteCount == r.suiteCount
    ensures !r.source.closed ==> c.reporter.result == r.result
    ensures !r.source.closed ==> !c.reporter.source.closed
    ensures r.source.closed && tests != [] ==> c == Call(r, Some(SS.ClosedStreamMessage))
    ensures c.reporter.controller == r.controller
    decreases |tests|
  {
    if tests == [] then Call(r, None)
    else
      var started := TestStart(r, tests[0].name, file);
      if started.thrown.Some? then started
      else
        var finished := TestFinish(started.reporter, tests[0].name, file, tests[0].status);
        if finished.thrown.Some? then finished
        else
          AnyFailingCons(tests);
          ReportTests(finished.reporter, file, tests[1..])
  }

  /** One iteration of the document loop. The suite start sits outside the
      `try`: if it throws, the exception leaves the loop. Inside the `try`
      the sub-tests are reported and the suite is finished with the page's
      status; any exception there is caught and the suite is finished with
      FAIL instead, and only a throw from that second finish leaves the
      loop. Reporting sub-tests never throws on an open stream, so only
      whether the page reported or threw chooses the finish. */
  function RunDocument(r: Reporter, file: string, page: PageResult): (c: Call)
    ensures r.source.closed ==> c == Call(r, Some(SS.ClosedStreamMessage))
    ensures !r.source.closed ==> c.thrown.None?
    ensures !r.source.closed ==> c.reporter.source.buffer == r.source.buffer + SuiteEvents(file, page, r.suiteCount)
    ensures !r.source.closed ==> c.reporter.suiteCount == r.suiteCount + 1
    ensures !r.source.closed ==> c.reporter.testCount == |page.Tests()|
    ensures !r.source.closed ==> (c.reporter.hasFailures <==> r.hasFailures || Fails(page))
    ensures !r.source.closed ==> c.reporter.result == r.result
    ensures !r.source.closed ==> !c.reporter.source.closed
    ensures c.reporter.controller == r.controller
  {
    var started := SuiteStart(r, file);
    if started.thrown.Some? then started
    else
      var reported := ReportTests(started.reporter, file, page.Tests());
      var pairs := Pairs(file, page.Tests(), 0);
      var head := [Start(SuiteLevel, file, file)] + pairs;
      var tail := [Plan(file, |page.Tests()|), Verdict(SuiteLevel, file, file, page.Code(), r.suiteCount)];
      assert reported.thrown.None?;
      assert reported.reporter.source.buffer == (r.source.buffer + [Start(SuiteLevel, file, file)]) + pairs;
      AppendAssoc(r.source.buffer, [Start(SuiteLevel, file, file)], pairs);
      assert SuiteEvents(file, page, r.suiteCount) == head + tail;
      AppendAssoc(r.source.buffer, head, tail);
      if page.Reported? then
        var finished := SuiteFinish(reported.reporter, file, page.status);
        if finished.thrown.None? then finished
        else SuiteFinish(finished.reporter, file, FAIL.Code())
      else SuiteFinish(reported.reporter, file, FAIL.Code())
  }

  /** The document loop: one document at a time, in order, until an
      exception leaves the loop. */
  function RunDocuments(r: Reporter, visits: seq<Visit>): (c: Call)
    ensures !r.source.closed ==> c.thrown.None?
    ensures !r.source.closed ==> c.reporter.source.buffer == r.source.buffer + Expected(visits, r.suiteCount)
    ensures !r.source.closed ==> c.reporter.suiteCount == r.suiteCount + |visits|
    ensures !r.source.closed ==> (c.reporter.hasFailures <==> r.hasFailures || SomeFails(visits))
    ensures !r.source.closed ==> c.reporter.result == r.result
    ensures !r.source.closed ==> !c.reporter.source.closed
    ensures r.source.closed && visits != [] ==> c == Call(r, Some(SS.ClosedStreamMessage))
    ensures c.reporter.controller == r.controller
    decreases |visits|
  {
    if visits == [] then Call(r, None)
    else
      var c := RunDocument(r, visits[0].file, visits[0].page);
      if c.thrown.Some? then c
      else
        assert !r.source.closed;
        SomeFailsCons(visits);
        var first := SuiteOf(visits[0], r.suiteCount);
        var later := Expected(visits[1..], r.suiteCount + 1);
        assert c.reporter.source.buffer == r.source.buffer + first;
        assert Expected(visits, r.suiteCount) == first + later;
        AppendAssoc(r.source.buffer, first, later);
        RunDocuments(c.reporter, visits[1..])
  }

  // ---------------------------------------------------------------------
  // The whole run

  /** How the scopes around the document loop end: `serverStart` is a
      failure to start the static server, `sessionStart` one to create the
      log directory or the browser session, `sessionEnd` one to delete the
      session and `serverStop` one to stop the server. `pages` is what each
      document produced, in discovery order. */
  datatype Browser = Browser(
    serverStart: Option<string>,
    sessionStart: Option<string>,
    pages: seq<PageResult>,
    sessionEnd: Option<string>,
    serverStop: Option<string>)

  /** Whether the body inside both scopes runs at all. */
  predicate Entered(b: Browser) {
    b.serverStart.None? && b.sessionStart.None?
  }

  /** `done` is the failure that escapes the two scopes when the body inside
      them threw `body`. A server that does not start skips everything. A
      session that is not created skips the body and the session's end, but
      the server is still stopped. Each scope ends in a `finally`, so a
      failure to end it replaces whatever failed inside it. */
  predicate Escapes(b: Browser, body: Option<string>, done: Option<string>) {
    (b.serverStart.Some? ==> done == b.serverStart) &&
    (b.serverStart.None? && b.serverStop.Some? ==> done == b.serverStop) &&
    (b.serverStart.None? && b.serverStop.None? && b.sessionStart.Some? ==> done == b.sessionStart) &&
    (Entered(b) && b.serverStop.None? && b.sessionEnd.Some? ==> done == b.sessionEnd) &&
    (Entered(b) && b.serverStop.None? && b.sessionEnd.None? ==> done == body)
  }

  /** The escaping failure is determined by the scopes and the body. */
  lemma EscapesIsDeterministic(b: Browser, body: Option<string>, d1: Option<string>, d2: Option<string>)
    requires Escapes(b, body, d1) && Escapes(b, body, d2)
    ensures d1 == d2
  {
  }

  /** `withServer` around `withWebDriver` around a body that leaves the
      reporter in `body.reporter`: the reporter changes only if the body
      runs, and the failure reported is the one that escapes the scopes. */
  function Scoped(r: Reporter, b: Browser, body: Call): (c: Call)
    ensures Entered(b) ==> c.reporter == body.reporter
    ensures !Entered(b) ==> c.reporter == r
    ensures Escapes(b, body.thrown, c.thrown)
  {
    if b.serverStart.Some? then Call(r, b.serverStart)
    else
      var session := if b.sessionStart.Some? then Call(r, b.sessionStart)
                     else if b.sessionEnd.Some? then body.(thrown := b.sessionEnd)
                     else body;
      if b.serverStop.Some? then session.(thrown := b.serverStop) else session
  }

  /** The body of the current runner: list the test directory, then run the
      document loop over what was found. A listing that fails throws before
      any document is reported. */
  function Listed(r: Reporter, listing: Result<seq<DirEntry>>, pages: seq<PageResult>): (c: Call)
    requires listing.Ok? ==> |pages| == |FindTests(listing.value)|
    ensures listing.Err? ==> c.reporter == r && c.thrown == Some(listing.message)
    ensures listing.Ok? && !r.source.closed ==> c.thrown.None? && !c.reporter.source.closed
    ensures listing.Ok? && !r.source.closed ==>
      c.reporter.source.buffer == r.source.buffer + Expected(Visits(FindTests(listing.value), pages), r.suiteCount)
    ensures listing.Ok? && !r.source.closed ==>
      (c.reporter.hasFailures <==> r.hasFailures || SomeFails(Visits(FindTests(listing.value), pages)))
    ensures listing.Ok? && !r.source.closed ==> c.reporter.result == r.result
    ensures c.reporter.controller == r.controller
  {
    match listing
    case Err(m) => Call(r, Some(m))
    case Ok(entries) => RunDocuments(r, Visits(FindTests(entries), pages))
  }

  /** The failure the current runner's body throws on an open reporter. */
  function ListingFailure(listing: Result<seq<DirEntry>>): Option<string> {
    if listing.Err? then Some(listing.message) else None
  }

  /** `runTests`: the document loop inside the server and session scopes.
      When the loop runs on an open stream, it publishes the suites of the
      discovered documents after what was already published; otherwise
      nothing is published. The failure it reports is the one that escapes
      the scopes. */
  function RunTests(r: Reporter, listing: Result<seq<DirEntry>>, browser: Browser): (c: Call)
    requires listing.Ok? ==> |browser.pages| == |FindTests(listing.value)|
    ensures !Entered(browser) || listing.Err? ==> c.reporter == r
    ensures !r.source.closed ==> Escapes(browser, ListingFailure(listing), c.thrown)
    ensures Entered(browser) && listing.Ok? && !r.source.closed ==>
      c.reporter.source.buffer == r.source.buffer + Expected(Visits(FindTests(listing.value), browser.pages), r.suiteCount)
    ensures Entered(browser) && listing.Ok? && !r.source.closed ==>
      (c.reporter.hasFailures <==> r.hasFailures || SomeFails(Visits(FindTests(listing.value), browser.pages)))
    ensures !r.source.closed ==> !c.reporter.source.closed && c.reporter.result == r.result
    ensures c.reporter.controller == r.controller
  {
    Scoped(r, browser, Listed(r, listing, browser.pages))
  }

  /** What `run` hands back: the reporter behind the returned stream once
      the run has settled, and the failure, if any, its completion reports. */
  datatype Settled = Settled(reporter: Reporter, done: Option<string>)

  /** `run`: a fresh stream bound to the run; when the run settles, whether
      it succeeded or threw, the stream is closed. By then the run has
      published the suites of every discovered document in discovery order,
      numbered from 0, and its status is 1 exactly when some document threw
      or reported a non-passing status or sub-test. No read by the stream's
      consumer happens during the run in this model, so all of it is still
      buffered. */
  function Run(listing: Result<seq<DirEntry>>, browser: Browser): (o: Settled)
    requires listing.Ok? ==> |browser.pages| == |FindTests(listing.value)|
    ensures o.reporter.source.closed && Valid(o.reporter)
    ensures o.reporter.controller == SS.NewController()
    ensures Escapes(browser, ListingFailure(listing), o.done)
    ensures !Entered(browser) || listing.Err? ==> o.reporter.source.buffer == [] && StreamStatus(o.reporter) == 0
    ensures Entered(browser) && listing.Ok? ==>
      o.reporter.source.buffer == Expected(Visits(FindTests(listing.value), browser.pages), 0)
    ensures Entered(browser) && listing.Ok? ==>
      (StreamStatus(o.reporter) == 1 <==> exists i :: 0 <= i < |browser.pages| && Fails(browser.pages[i]))
    ensures StreamStatus(o.reporter) == 0 || StreamStatus(o.reporter) == 1
  {
    var c := RunTests(NewReporter(), listing, browser);
    assert listing.Ok? ==>
      (SomeFails(Visits(FindTests(listing.value), browser.pages)) <==>
       exists i :: 0 <= i < |browser.pages| && Fails(browser.pages[i])) by {
      if listing.Ok? {
        var visits := Visits(FindTests(listing.value), browser.pages);
        assert forall i :: 0 <= i < |visits| ==> visits[i].page == browser.pages[i];
      }
    }
    Settled(Settle(c.reporter), c.thrown)
  }

  /** What the stream's consumer receives when it first reads after the run
      has settled: with the source's `pull` as written, nothing (the
      sequence just ends); with the draining `pull`, every published event
      in order. */
  lemma ConsumerAfterRun(listing: Result<seq<DirEntry>>, browser: Browser)
    requires listing.Ok? ==> |browser.pages| == |FindTests(listing.value)|
    ensures var o := Run(listing, browser);
      var late := SS.Pull(o.reporter.source, o.reporter.controller).controller;
      late.queue == [] && late.ended
    ensures var o := Run(listing, browser);
      var drained := SS.PullDraining(o.reporter.source, o.reporter.controller).controller;
      drained.queue == o.reporter.source.buffer && drained.ended
    ensures var o := Run(listing, browser);
      Entered(browser) && listing.Ok? ==>
      SS.PullDraining(o.reporter.source, o.reporter.controller).controller.queue ==
        Expected(Visits(FindTests(listing.value), browser.pages), 0)
  {
  }
}
