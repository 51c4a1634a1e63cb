/**
 * The debugging page: a list of captured log entries and a list of test
 * results, each only ever extended at the end, and the text line shown for
 * each test result.
 */
module DebuggingPage {
  import opened JsBuiltins

  /** One entry of `testResults`. */
  datatype TestResult = TestResult(testName: JsString, status: JsString, timestamp: JsString)

  /** The result `runTest` records, stamped with `timestamp`. */
  function SampleResult(timestamp: JsString): TestResult
  {
    TestResult("Sample Test", "Passed", timestamp)
  }

  /**
   * The list item shown for a result: its name, " - ", its status, " at ",
   * and its timestamp, in that order and with nothing else.
   */
  function ResultLine(result: TestResult): JsString
  {
    result.testName + " - " + result.status + " at " + result.timestamp
  }

  /** The rendered "Test Results" list: one line per result, in order. */
  function ResultLines(results: seq<TestResult>): seq<JsString>
  {
    seq(|results|, i requires 0 <= i < |results| => ResultLine(results[i]))
  }

  /**
   * A line always begins with "<name> - <status>", and for the same test and
   * status two lines differ exactly when their timestamps do.
   */
  lemma ResultLineParts(r1: TestResult, r2: TestResult)
    ensures r1.testName + " - " + r1.status <= ResultLine(r1)
    ensures r1.testName == r2.testName && r1.status == r2.status ==>
              (ResultLine(r1) == ResultLine(r2) <==> r1.timestamp == r2.timestamp)
  {
    var n, s := |r1.testName|, |r1.status|;
    var line := ResultLine(r1);
    assert line[..n + 3 + s] == line[..n] + line[n..n + 3] + line[n + 3..n + 3 + s];
    if r1.testName == r2.testName && r1.status == r2.status && ResultLine(r1) == ResultLine(r2) {
      assert r1.timestamp == ResultLine(r1)[n + 7 + s..];
    }
  }

  /** Recording one more result adds exactly its line at the bottom of the
      rendered list and leaves the lines above it as they were. */
  lemma ResultLinesAppend(results: seq<TestResult>, result: TestResult)
    ensures ResultLines(results + [result]) == ResultLines(results) + [ResultLine(result)]
  {
    var lhs, rhs := ResultLines(results + [result]), ResultLines(results) + [ResultLine(result)];
    assert |lhs| == |rhs|;
    forall i | 0 <= i < |lhs|
      ensures lhs[i] == rhs[i]
    {
      if i < |results| {
        assert (results + [result])[i] == results[i];
      }
    }
  }

  /** Whatever the timestamp, the sample result's line begins with
      "Sample Test - Passed". */
  lemma SampleLineStartsWithVerdict(timestamp: JsString)
    ensures "Sample Test - Passed" <= ResultLine(SampleResult(timestamp))
  {
    var line := ResultLine(SampleResult(timestamp));
    assert line[..20] == line[..11] + line[11..14] + line[14..20];
  }

  /** The state of the debugging page. */
  class Debugging {
    var logs: seq<JsString>
    var testResults: seq<TestResult>

    /** Initial state: both lists empty. */
    constructor ()
      ensures logs == [] && testResults == []
    {
      logs := [];
      testResults := [];
    }

    /** `captureLog(log)`: append `log` to the logs only. */
    method CaptureLog(log: JsString)
      modifies this
      ensures logs == old(logs) + [log]
      ensures testResults == old(testResults)
    {
      logs := logs + [log];
    }

    /** `runTest`: append one passed "Sample Test" result stamped
        `timestamp` to the results only. */
    method RunTest(timestamp: JsString)
      modifies this
      ensures testResults == old(testResults) + [SampleResult(timestamp)]
      ensures logs == old(logs)
    {
      testResults := testResults + [SampleResult(timestamp)];
    }
  }

  /** A fresh page, one click on "Run Test": the rendered list then holds a
      line that begins with "Sample Test - Passed", and no log. */
  method RunTestOnFreshPage(timestamp: JsString) returns (lines: seq<JsString>, logs: seq<JsString>)
    ensures |lines| == 1 && "Sample Test - Passed" <= lines[0]
    ensures logs == []
  {
    var page := new Debugging();
    page.RunTest(timestamp);
    lines := ResultLines(page.testResults);
    logs := page.logs;
    SampleLineStartsWithVerdict(timestamp);
  }
}
