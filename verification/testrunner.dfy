/** The older runner: the same per-document loop, over an explicit list of
    testcases instead of a directory listing, written here as an imperative
    loop and proved to agree with the fold of the current runner. */
module TestRunner {
  import opened Wrappers
  import opened ResultStream
  import Runner
  import SS = StreamSource

  /** `runTests`: each testcase in list order goes through one iteration of
      the document loop (suite start outside the `try`, sub-tests and the
      suite finish inside it, FAIL on a caught exception); an exception
      that escapes an iteration ends the loop. */
  method RunTests(r: Reporter, testcases: seq<string>, pages: seq<Runner.PageResult>) returns (c: Call)
    requires |pages| == |testcases|
    ensures c == Runner.RunDocuments(r, Runner.Visits(testcases, pages))
    ensures !r.source.closed ==> c.thrown.None?
    ensures !r.source.closed ==>
      c.reporter.source.buffer == r.source.buffer + Runner.Expected(Runner.Visits(testcases, pages), r.suiteCount)
    ensures !r.source.closed ==> c.reporter.suiteCount == r.suiteCount + |testcases|
    ensures r.source.closed && testcases != [] ==> c.thrown.Some? && c.reporter == r
  {
    var visits := Runner.Visits(testcases, pages);
    c := Call(r, None);
    var i := 0;
    while i < |testcases|
      invariant 0 <= i <= |testcases|
      invariant c.thrown.None?
      invariant Runner.RunDocuments(c.reporter, visits[i..]) == Runner.RunDocuments(r, visits)
    {
      assert visits[i] == Runner.Visit(testcases[i], pages[i]);
      assert visits[i..][1..] == visits[i + 1..];
      var done := Runner.RunDocument(c.reporter, testcases[i], pages[i]);
      if done.thrown.Some? {
        c := done;
        return;
      }
      c := done;
      i := i + 1;
    }
    assert visits[i..] == [];
  }

  /** `run`: the loop, inside the server and session scopes, bound to a
      fresh stream that is closed when the run settles. `browser` describes
      the testcases in list order. */
  method Run(testcases: seq<string>, browser: Runner.Browser) returns (o: Runner.Settled)
    requires |browser.pages| == |testcases|
    ensures o.reporter.source.closed && Valid(o.reporter)
    ensures o.reporter.controller == SS.NewController()
    ensures Runner.Escapes(browser, None, o.done)
    ensures Runner.Entered(browser) ==>
      o.reporter.source.buffer == Runner.Expected(Runner.Visits(testcases, browser.pages), 0)
    ensures Runner.Entered(browser) ==>
      (StreamStatus(o.reporter) == 1 <==> exists i :: 0 <= i < |browser.pages| && Runner.Fails(browser.pages[i]))
    ensures !Runner.Entered(browser) ==> o.reporter.source.buffer == [] && StreamStatus(o.reporter) == 0
  {
    var r := NewReporter();
    var body := Call(r, None);
    if Runner.Entered(browser) {
      body := RunTests(r, testcases, browser.pages);
      var visits := Runner.Visits(testcases, browser.pages);
      assert Runner.SomeFails(visits) <==> exists i :: 0 <= i < |browser.pages| && Runner.Fails(browser.pages[i]) by {
        assert forall i :: 0 <= i < |visits| ==> visits[i].page == browser.pages[i];
      }
    }
    var c := Runner.Scoped(r, browser, body);
    o := Runner.Settled(Settle(c.reporter), c.thrown);
  }
}
