/** The operation health checker: runs a fixed list of test operations per
    service, judges each result by the fields of a sample item and each
    error by its message, and folds the outcomes into service and overall
    statuses on the order healthy < degraded < unhealthy.

    An `Oracle` stands for awaiting a service method: for a service name and
    a test case it gives the returned payload or the raised error message. */
module OperationHealth {
  import opened Json
  import opened Text

  /** `test_result['status']`. */
  datatype TestStatus = Unknown | Passed | Degraded | SchemaError | BusinessError

  /** Service and overall status. */
  datatype Health = Healthy | Degraded | Unhealthy
  {
    function Rank(): nat
    {
      match this
      case Healthy => 0
      case Degraded => 1
      case Unhealthy => 2
    }
  }

  datatype TestCase = TestCase(
    methodName: string,
    args: seq<(string, Json)>,
    expectedFields: seq<string>,
    description: string)

  datatype TestResult = TestResult(
    methodName: string,
    description: string,
    status: TestStatus,
    error: Option<string>,
    missingFields: seq<string>,
    availableFields: seq<string>,
    isSchemaError: bool)

  datatype ServiceReport = ServiceReport(tests: seq<TestResult>, status: Health, issues: seq<string>)

  /** The integer part of the summary (the success rate is left out). */
  datatype Summary = Summary(totalTests: nat, passedTests: nat, schemaErrors: nat, fieldChanges: nat)

  type Oracle = (string, TestCase) -> Outcome<Json>

  /** The test cases, in the order the services are listed. */
  const TestCases: seq<(string, seq<TestCase>)> := [
    ("AccountService", [
      TestCase("get_accounts", [], ["id", "displayName", "type", "subtype"], "Get user accounts")]),
    ("TransactionService", [
      TestCase("get_transaction_categories", [], ["id", "name", "group"], "Get transaction categories"),
      TestCase("get_transactions", [("limit", JInt(1))], ["id", "amount", "date", "description"], "Get recent transactions")]),
    ("InvestmentService", [
      TestCase("get_security_details", [("ticker", JString("AAPL"))], ["id", "name", "ticker"], "Search for security details")]),
    ("BudgetService", [
      TestCase("get_budgets", [], ["id", "name"], "Get budget information")])
  ]

  const SchemaErrorIndicators: seq<string> :=
    ["something went wrong", "field", "cannot query field", "unknown field", "schema", "introspection"]

  // ---------------------------------------------------------------------
  // Judging one result

  /** The sample item's pairs: the first element of a non-empty list or the
      result itself, kept only when it is a non-empty dict. */
  function SampleItem(result: Json): (r: Option<seq<(string, Json)>>)
    ensures r.Some? ==> r.value != []
    ensures r.Some? <==>
      (result.JObject? && result.fields != []) ||
      (result.JList? && result.items != [] && result.items[0].JObject? && result.items[0].fields != [])
  {
    var sample :=
      match result
      case JList(items) => if items != [] then Some(items[0]) else None
      case JObject(_) => Some(result)
      case _ => None;
    if sample.Some? && sample.value.JObject? && sample.value.fields != [] then Some(sample.value.fields) else None
  }

  /** `[f for f in expected if f not in available]`. */
  function MissingFields(expected: seq<string>, available: seq<string>): (r: seq<string>)
    ensures forall f :: f in r <==> f in expected && f !in available
    ensures |r| <= |expected|
  {
    if expected == [] then []
    else (if expected[0] in available then [] else [expected[0]]) + MissingFields(expected[1..], available)
  }

  /** The comprehension keeps the expected-list order: it distributes over
      concatenation of the expected list. */
  lemma {:induction false} MissingFieldsAppend(a: seq<string>, b: seq<string>, available: seq<string>)
    ensures MissingFields(a + b, available) == MissingFields(a, available) + MissingFields(b, available)
  {
    if a != [] {
      assert (a + b)[0] == a[0] && (a + b)[1..] == a[1..] + b;
      MissingFieldsAppend(a[1..], b, available);
      var head := if a[0] in available then [] else [a[0]];
      assert MissingFields(a + b, available) == head + MissingFields(a[1..] + b, available);
      assert MissingFields(a, available) == head + MissingFields(a[1..], available);
      AppendAssoc(head, MissingFields(a[1..], available), MissingFields(b, available));
    } else {
      assert a + b == b;
    }
  }

  /** `_analyze_operation_result` on the test result. */
  function AnalyzeResult(result: Json, expected: seq<string>, tr: TestResult): TestResult
  {
    match SampleItem(result)
    case Some(fields) =>
      var available := Keys(fields);
      var missing := MissingFields(expected, available);
      tr.(availableFields := available, missingFields := missing,
          status := if missing != [] then TestStatus.Degraded else Passed)
    case None => tr.(status := Passed)
  }

  /** Degraded exactly when a non-empty dict sample lacks an expected key;
      otherwise passed. */
  lemma AnalyzeResultStatus(result: Json, expected: seq<string>, tr: TestResult)
    ensures AnalyzeResult(result, expected, tr).status in {Passed, TestStatus.Degraded}
    ensures AnalyzeResult(result, expected, tr).status == TestStatus.Degraded <==>
      SampleItem(result).Some? && exists f :: f in expected && f !in Keys(SampleItem(result).value)
    ensures AnalyzeResult(result, expected, tr).status == TestStatus.Degraded <==>
      AnalyzeResult(result, expected, tr).missingFields != [] && SampleItem(result).Some?
  {
    match SampleItem(result)
    case Some(fields) =>
      var missing := MissingFields(expected, Keys(fields));
      if missing != [] {
        assert missing[0] in missing;
      }
    case None =>
  }

  /** A list is judged by its first element alone. */
  lemma ListJudgedByFirst(first: Json, rest: seq<Json>, expected: seq<string>, tr: TestResult)
    requires first.JObject?
    ensures AnalyzeResult(JList([first] + rest), expected, tr) == AnalyzeResult(first, expected, tr)
  {
  }

  /** An empty list, a scalar or an empty dict passes and records nothing. */
  lemma NoSamplePasses(result: Json, expected: seq<string>, tr: TestResult)
    requires result == JList([]) || result == JObject([]) || !(result.JList? || result.JObject?)
    ensures AnalyzeResult(result, expected, tr) == tr.(status := Passed)
  {
  }

  // ---------------------------------------------------------------------
  // Judging one error

  /** `any(indicator in s for indicator in indicators)`. */
  function AnyIndicator(s: string, indicators: seq<string>): (r: bool)
    ensures r <==> exists i :: 0 <= i < |indicators| && Contains(s, indicators[i])
  {
    if indicators == [] then false
    else Contains(s, indicators[0]) || AnyIndicator(s, indicators[1..])
  }

  predicate IsSchemaErrorMessage(message: string)
  {
    AnyIndicator(Lower(message), SchemaErrorIndicators)
  }

  /** Three of the six indicators are implied by "field": the classification
      is the same as testing "something went wrong", "field", "schema" and
      "introspection". */
  lemma SchemaIndicatorsReduce(message: string)
    ensures IsSchemaErrorMessage(message) <==>
      var s := Lower(message);
      Contains(s, "something went wrong") || Contains(s, "field") || Contains(s, "schema") || Contains(s, "introspection")
  {
    var s := Lower(message);
    IndicatorList(s);
    if Contains(s, "cannot query field") {
      ContainsPiece(s, "cannot query field", 13, 18);
      assert "cannot query field"[13..18] == "field";
    }
    if Contains(s, "unknown field") {
      ContainsPiece(s, "unknown field", 8, 13);
      assert "unknown field"[8..13] == "field";
    }
  }

  lemma IndicatorList(s: string)
    ensures AnyIndicator(s, SchemaErrorIndicators) <==>
      Contains(s, "something went wrong") || Contains(s, "field") || Contains(s, "cannot query field")
      || Contains(s, "unknown field") || Contains(s, "schema") || Contains(s, "introspection")
  {
    var ind := SchemaErrorIndicators;
    assert ind[0] == "something went wrong" && ind[1] == "field" && ind[2] == "cannot query field";
    assert ind[3] == "unknown field" && ind[4] == "schema" && ind[5] == "introspection";
  }

  /** `_analyze_operation_error` on the test result. */
  function AnalyzeError(message: string, tr: TestResult): (r: TestResult)
    ensures r.error == Some(message)
    ensures r.status == SchemaError <==> IsSchemaErrorMessage(message)
    ensures r.status == BusinessError <==> !IsSchemaErrorMessage(message)
    ensures r.isSchemaError == (IsSchemaErrorMessage(message) || tr.isSchemaError)
    ensures r.missingFields == tr.missingFields && r.availableFields == tr.availableFields
  {
    if IsSchemaErrorMessage(message) then
      tr.(error := Some(message), isSchemaError := true, status := SchemaError)
    else
      tr.(error := Some(message), status := BusinessError)
  }

  function InitialResult(tc: TestCase): TestResult
  {
    TestResult(tc.methodName, tc.description, Unknown, None, [], [], false)
  }

  /** `_test_operation`: the result of one test case given the call's outcome. */
  function Evaluate(tc: TestCase, outcome: Outcome<Json>): (r: TestResult)
    ensures r.status != Unknown
    ensures r.methodName == tc.methodName
    ensures r.status == SchemaError ==> r.error.Some?
  {
    match outcome
    case Returned(result) =>
      AnalyzeResultStatus(result, tc.expectedFields, InitialResult(tc));
      AnalyzeResult(result, tc.expectedFields, InitialResult(tc))
    case Raised(message) => AnalyzeError(message, InitialResult(tc))
  }

  /** The entry a result adds to `changes_detected`. */
  function ChangeNote(serviceName: string, r: TestResult): seq<string>
  {
    if r.status == TestStatus.Degraded then
      [serviceName + "." + r.methodName + ": Missing expected fields " + ListRepr(r.missingFields)]
    else []
  }

  /** The entry a result adds to `issues_found`. */
  function IssueNote(serviceName: string, r: TestResult): seq<string>
  {
    if r.status == SchemaError && r.error.Some? then
      [serviceName + "." + r.methodName + ": Schema error - " + r.error.value]
    else []
  }

  // ---------------------------------------------------------------------
  // The status lattice

  /** One step of the status update in the test loop. */
  function Next(h: Health, s: TestStatus): (r: Health)
    ensures r.Rank() >= h.Rank()
  {
    match s
    case SchemaError => Unhealthy
    case Degraded => if h == Healthy then Health.Degraded else h
    case _ => h
  }

  function Fold(h: Health, statuses: seq<TestStatus>): Health
  {
    if statuses == [] then h
    else Next(Fold(h, statuses[..|statuses| - 1]), statuses[|statuses| - 1])
  }

  /** Statuses only move up. */
  lemma {:induction false} FoldMonotone(h: Health, statuses: seq<TestStatus>)
    ensures Fold(h, statuses).Rank() >= h.Rank()
  {
    if statuses != [] {
      FoldMonotone(h, statuses[..|statuses| - 1]);
    }
  }

  /** Unhealthy exactly when it started so or some test had a schema error. */
  lemma {:induction false} FoldUnhealthy(h: Health, statuses: seq<TestStatus>)
    ensures Fold(h, statuses) == Unhealthy <==> h == Unhealthy || SchemaError in statuses
  {
    if statuses != [] {
      var front := statuses[..|statuses| - 1];
      FoldUnhealthy(h, front);
      assert statuses == front + [statuses[|statuses| - 1]];
    }
  }

  /** Healthy exactly when it started so and no test was degraded or had a
      schema error; business errors never change the status. */
  lemma {:induction false} FoldHealthy(h: Health, statuses: seq<TestStatus>)
    ensures Fold(h, statuses) == Healthy <==>
      h == Healthy && SchemaError !in statuses && TestStatus.Degraded !in statuses
  {
    if statuses != [] {
      var front := statuses[..|statuses| - 1];
      FoldHealthy(h, front);
      assert statuses == front + [statuses[|statuses| - 1]];
    }
  }

  /** The exit code of `main`. */
  function ExitCode(h: Health): (code: int)
    ensures code == 0 <==> h == Healthy
    ensures code == 1 <==> h == Unhealthy
    ensures code == 2 <==> h == Health.Degraded
  {
    match h
    case Unhealthy => 1
    case Degraded => 2
    case Healthy => 0
  }

  // ---------------------------------------------------------------------
  // The whole run

  /** The (service, test case) pairs in the order the loops visit them. */
  function Pairs(serviceName: string, tcs: seq<TestCase>): (r: seq<(string, TestCase)>)
    ensures |r| == |tcs|
  {
    if tcs == [] then [] else Pairs(serviceName, tcs[..|tcs| - 1]) + [(serviceName, tcs[|tcs| - 1])]
  }

  lemma PairsStep(serviceName: string, tcs: seq<TestCase>, j: nat)
    requires j < |tcs|
    ensures Pairs(serviceName, tcs[..j + 1]) == Pairs(serviceName, tcs[..j]) + [(serviceName, tcs[j])]
  {
    assert tcs[..j + 1][..j] == tcs[..j];
  }

  function Schedule(cases: seq<(string, seq<TestCase>)>): seq<(string, TestCase)>
  {
    if cases == [] then []
    else Schedule(cases[..|cases| - 1]) + Pairs(cases[|cases| - 1].0, cases[|cases| - 1].1)
  }

  lemma ScheduleStep(cases: seq<(string, seq<TestCase>)>, i: nat)
    requires i < |cases|
    ensures Schedule(cases[..i + 1]) == Schedule(cases[..i]) + Pairs(cases[i].0, cases[i].1)
  {
    assert cases[..i + 1][..i] == cases[..i];
  }

  lemma ReportsStep(services: map<string, ServiceReport>, cases: seq<(string, seq<TestCase>)>, i: nat, oracle: Oracle)
    requires i < |cases|
    ensures ReportsAfter(services, cases[..i + 1], oracle)
         == ReportsAfter(services, cases[..i], oracle)[cases[i].0 := ServiceReportOf(cases[i].0, cases[i].1, oracle)]
  {
    assert cases[..i + 1][..i] == cases[..i];
  }

  function EvaluateAt(run: (string, TestCase), oracle: Oracle): TestResult
  {
    Evaluate(run.1, oracle(run.0, run.1))
  }

  function Results(runs: seq<(string, TestCase)>, oracle: Oracle): (r: seq<TestResult>)
    ensures |r| == |runs|
  {
    if runs == [] then []
    else Results(runs[..|runs| - 1], oracle) + [EvaluateAt(runs[|runs| - 1], oracle)]
  }

  function Statuses(runs: seq<(string, TestCase)>, oracle: Oracle): (r: seq<TestStatus>)
    ensures |r| == |runs|
  {
    if runs == [] then []
    else Statuses(runs[..|runs| - 1], oracle) + [EvaluateAt(runs[|runs| - 1], oracle).status]
  }

  /** The entries `entry` yields for each run, in run order. */
  function Gather<T>(runs: seq<(string, TestCase)>, entry: ((string, TestCase)) -> seq<T>): seq<T>
  {
    if runs == [] then [] else Gather(runs[..|runs| - 1], entry) + entry(runs[|runs| - 1])
  }

  /** The `changes_detected` entry of one run. */
  function ChangeNoteAt(oracle: Oracle): ((string, TestCase)) -> seq<string>
  {
    (run: (string, TestCase)) => ChangeNote(run.0, EvaluateAt(run, oracle))
  }

  /** The `issues_found` entry of one run. */
  function IssueNoteAt(oracle: Oracle): ((string, TestCase)) -> seq<string>
  {
    (run: (string, TestCase)) => IssueNote(run.0, EvaluateAt(run, oracle))
  }

  function ChangeNotes(runs: seq<(string, TestCase)>, oracle: Oracle): seq<string>
  {
    Gather(runs, ChangeNoteAt(oracle))
  }

  function IssueNotes(runs: seq<(string, TestCase)>, oracle: Oracle): seq<string>
  {
    Gather(runs, IssueNoteAt(oracle))
  }

  function Count(statuses: seq<TestStatus>, s: TestStatus): nat
  {
    if statuses == [] then 0
    else Count(statuses[..|statuses| - 1], s) + (if statuses[|statuses| - 1] == s then 1 else 0)
  }

  function ServiceReportOf(serviceName: string, tcs: seq<TestCase>, oracle: Oracle): ServiceReport
  {
    var runs := Pairs(serviceName, tcs);
    ServiceReport(Results(runs, oracle), Fold(Healthy, Statuses(runs, oracle)), [])
  }

  function ReportsAfter(services: map<string, ServiceReport>, cases: seq<(string, seq<TestCase>)>, oracle: Oracle): map<string, ServiceReport>
  {
    if cases == [] then services
    else
      var last := cases[|cases| - 1];
      ReportsAfter(services, cases[..|cases| - 1], oracle)[last.0 := ServiceReportOf(last.0, last.1, oracle)]
  }

  /** One entry in `changes_detected` per degraded test. */
  lemma {:induction false} ChangeNotesCount(runs: seq<(string, TestCase)>, oracle: Oracle)
    ensures |ChangeNotes(runs, oracle)| == Count(Statuses(runs, oracle), TestStatus.Degraded)
  {
    if runs != [] {
      var front, last := runs[..|runs| - 1], runs[|runs| - 1];
      ChangeNotesCount(front, oracle);
      var r := EvaluateAt(last, oracle);
      CountSnoc(Statuses(front, oracle), r.status, TestStatus.Degraded);
    }
  }

  /** One entry in `issues_found` per schema error. */
  lemma {:induction false} IssueNotesCount(runs: seq<(string, TestCase)>, oracle: Oracle)
    ensures |IssueNotes(runs, oracle)| == Count(Statuses(runs, oracle), SchemaError)
  {
    if runs != [] {
      var front, last := runs[..|runs| - 1], runs[|runs| - 1];
      IssueNotesCount(front, oracle);
      var r := EvaluateAt(last, oracle);
      CountSnoc(Statuses(front, oracle), r.status, SchemaError);
    }
  }

  /** Every test ends passed, degraded, with a schema error or with a
      business error. */
  lemma {:induction false} StatusPartition(statuses: seq<TestStatus>)
    requires Unknown !in statuses
    ensures Count(statuses, Passed) + Count(statuses, TestStatus.Degraded)
          + Count(statuses, SchemaError) + Count(statuses, BusinessError) == |statuses|
  {
    if statuses != [] {
      StatusPartition(statuses[..|statuses| - 1]);
    }
  }

  lemma {:induction false} NoUnknown(runs: seq<(string, TestCase)>, oracle: Oracle)
    ensures Unknown !in Statuses(runs, oracle)
  {
    if runs != [] {
      NoUnknown(runs[..|runs| - 1], oracle);
    }
  }

  /** Which of the three recommendation blocks of the markdown report is
      written: urgent, review the fields, or no action needed. */
  datatype Advice = Urgent | ReviewFields | NoAction

  /** Schema errors take precedence over field changes, which take
      precedence over "healthy". */
  function Recommendation(issuesFound: seq<string>, changesDetected: seq<string>): Advice
  {
    if issuesFound != [] then Urgent
    else if changesDetected != [] then ReviewFields
    else NoAction
  }

  /** From a fresh checker the overall status can be read off the two
      lists: unhealthy iff a schema error was recorded, degraded iff none was
      but a field change was. */
  lemma StatusFromNotes(runs: seq<(string, TestCase)>, oracle: Oracle)
    ensures var h := Fold(Healthy, Statuses(runs, oracle));
            && (h == Unhealthy <==> IssueNotes(runs, oracle) != [])
            && (h == Health.Degraded <==> IssueNotes(runs, oracle) == [] && ChangeNotes(runs, oracle) != [])
  {
    var statuses := Statuses(runs, oracle);
    ChangeNotesCount(runs, oracle);
    IssueNotesCount(runs, oracle);
    FoldUnhealthy(Healthy, statuses);
    FoldHealthy(Healthy, statuses);
    CountPositive(statuses, SchemaError);
    CountPositive(statuses, TestStatus.Degraded);
  }

  /** After one run from a fresh checker the report's recommendation and the
      exit code agree with the overall status: urgent iff unhealthy (exit 1),
      field-change advice iff degraded (exit 2), healthy iff exit 0. */
  lemma RecommendationMatchesStatus(runs: seq<(string, TestCase)>, oracle: Oracle)
    ensures var h := Fold(Healthy, Statuses(runs, oracle));
            var advice := Recommendation(IssueNotes(runs, oracle), ChangeNotes(runs, oracle));
            && (advice == Urgent <==> ExitCode(h) == 1)
            && (advice == ReviewFields <==> ExitCode(h) == 2)
            && (advice == NoAction <==> ExitCode(h) == 0)
  {
    StatusFromNotes(runs, oracle);
  }

  lemma CountSnoc(statuses: seq<TestStatus>, x: TestStatus, s: TestStatus)
    ensures Count(statuses + [x], s) == Count(statuses, s) + (if x == s then 1 else 0)
  {
    assert (statuses + [x])[..|statuses|] == statuses;
  }

  lemma FoldSnoc(h: Health, statuses: seq<TestStatus>, x: TestStatus)
    ensures Fold(h, statuses + [x]) == Next(Fold(h, statuses), x)
  {
    assert (statuses + [x])[..|statuses|] == statuses;
  }

  lemma {:induction false} CountPositive(statuses: seq<TestStatus>, s: TestStatus)
    ensures Count(statuses, s) > 0 <==> s in statuses
  {
    if statuses != [] {
      var front := statuses[..|statuses| - 1];
      CountPositive(front, s);
      assert statuses == front + [statuses[|statuses| - 1]];
    }
  }

  // ---------------------------------------------------------------------
  // The checker object

  class HealthChecker {
    var services: map<string, ServiceReport>
    var overallStatus: Health
    var issuesFound: seq<string>
    var changesDetected: seq<string>
    var summary: Option<Summary>
    /** The test-case table the comprehensive check runs. */
    const testCases: seq<(string, seq<TestCase>)>

    constructor ()
      ensures services == map[] && overallStatus == Healthy
      ensures issuesFound == [] && changesDetected == [] && summary == None
      ensures testCases == TestCases
    {
      testCases := TestCases;
      services := map[];
      overallStatus := Healthy;
      issuesFound := [];
      changesDetected := [];
      summary := None;
    }

    method AnalyzeOperationResult(result: Json, expected: seq<string>, tr: TestResult, serviceName: string)
      returns (r: TestResult)
      modifies this`changesDetected
      ensures r == AnalyzeResult(result, expected, tr)
      ensures changesDetected == old(changesDetected) + ChangeNote(serviceName, r)
    {
      var sample := SampleItem(result);
      r := tr;
      if sample.Some? {
        var available := Keys(sample.value);
        var missing := MissingFields(expected, available);
        r := r.(availableFields := available, missingFields := missing);
        if missing != [] {
          r := r.(status := TestStatus.Degraded);
          changesDetected := changesDetected
            + [serviceName + "." + r.methodName + ": Missing expected fields " + ListRepr(missing)];
        } else {
          r := r.(status := Passed);
        }
      } else {
        r := r.(status := Passed);
      }
    }

    method AnalyzeOperationError(message: string, tr: TestResult, serviceName: string)
      returns (r: TestResult)
      modifies this`issuesFound
      ensures r == AnalyzeError(message, tr)
      ensures issuesFound == old(issuesFound) + IssueNote(serviceName, r)
    {
      r := tr.(error := Some(message));
      if AnyIndicator(Lower(message), SchemaErrorIndicators) {
        r := r.(isSchemaError := true, status := SchemaError);
        issuesFound := issuesFound + [serviceName + "." + r.methodName + ": Schema error - " + message];
      } else {
        r := r.(status := BusinessError);
      }
    }

    method TestOperation(serviceName: string, tc: TestCase, outcome: Outcome<Json>) returns (r: TestResult)
      modifies this`changesDetected, this`issuesFound
      ensures r == Evaluate(tc, outcome)
      ensures changesDetected == old(changesDetected) + ChangeNote(serviceName, r)
      ensures issuesFound == old(issuesFound) + IssueNote(serviceName, r)
    {
      var initial := InitialResult(tc);
      match outcome {
        case Returned(result) =>
          r := AnalyzeOperationResult(result, tc.expectedFields, initial, serviceName);
        case Raised(message) =>
          r := AnalyzeOperationError(message, initial, serviceName);
      }
    }

    /** The status branch of the test loop: a pass is counted, a schema
        error makes the service and the run unhealthy, a degraded test
        lowers a healthy service or run to degraded. */
    method RecordStatus(status: TestStatus, serviceStatus: Health, passed: nat)
      returns (serviceStatus': Health, passed': nat)
      modifies this`overallStatus
      ensures serviceStatus' == Next(serviceStatus, status)
      ensures overallStatus == Next(old(overallStatus), status)
      ensures passed' == passed + (if status == Passed then 1 else 0)
    {
      serviceStatus', passed' := serviceStatus, passed;
      if status == Passed {
        passed' := passed' + 1;
      } else if status == SchemaError {
        serviceStatus' := Unhealthy;
        overallStatus := Unhealthy;
      } else if status == TestStatus.Degraded {
        if serviceStatus' == Healthy {
          serviceStatus' := Health.Degraded;
        }
        if overallStatus == Healthy {
          overallStatus := Health.Degraded;
        }
      }
    }

    /** The body of the service loop of `run_comprehensive_health_check`:
        the service's test cases in order, counting tests and passes and
        raising the service and overall statuses. */
    method TestService(serviceName: string, tcs: seq<TestCase>, oracle: Oracle, totalTests: nat, passedTests: nat)
      returns (tests: seq<TestResult>, serviceStatus: Health, total': nat, passed': nat)
      modifies this`overallStatus, this`changesDetected, this`issuesFound
      ensures var runs := Pairs(serviceName, tcs);
              && total' == totalTests + |runs|
              && passed' == passedTests + Count(Statuses(runs, oracle), Passed)
              && overallStatus == Fold(old(overallStatus), Statuses(runs, oracle))
              && changesDetected == old(changesDetected) + ChangeNotes(runs, oracle)
              && issuesFound == old(issuesFound) + IssueNotes(runs, oracle)
              && tests == Results(runs, oracle)
              && serviceStatus == Fold(Healthy, Statuses(runs, oracle))
    {
      tests, serviceStatus, total', passed' := [], Healthy, totalTests, passedTests;
      ghost var done: seq<(string, TestCase)> := [];
      var j := 0;
      while j < |tcs|
        invariant 0 <= j <= |tcs|
        invariant done == Pairs(serviceName, tcs[..j])
        invariant total' == totalTests + |done|
        invariant passed' == passedTests + Count(Statuses(done, oracle), Passed)
        invariant overallStatus == Fold(old(overallStatus), Statuses(done, oracle))
        invariant changesDetected == old(changesDetected) + ChangeNotes(done, oracle)
        invariant issuesFound == old(issuesFound) + IssueNotes(done, oracle)
        invariant tests == Results(done, oracle)
        invariant serviceStatus == Fold(Healthy, Statuses(done, oracle))
      {
        ghost var changes0, issues0 := changesDetected, issuesFound;
        total' := total' + 1;
        var r := TestOperation(serviceName, tcs[j], oracle(serviceName, tcs[j]));
        tests := tests + [r];
        serviceStatus, passed' := RecordStatus(r.status, serviceStatus, passed');
        ghost var run := (serviceName, tcs[j]);
        assert r == EvaluateAt(run, oracle);
        PairsStep(serviceName, tcs, j);
        assert changesDetected == changes0 + ChangeNote(serviceName, r);
        assert issuesFound == issues0 + IssueNote(serviceName, r);
        StepRun(done, run, oracle);
        AppendAssoc(old(changesDetected), ChangeNotes(done, oracle), ChangeNote(serviceName, r));
        AppendAssoc(old(issuesFound), IssueNotes(done, oracle), IssueNote(serviceName, r));
        assert changesDetected == old(changesDetected) + ChangeNotes(done + [run], oracle);
        assert issuesFound == old(issuesFound) + IssueNotes(done + [run], oracle);
        FoldSnoc(old(overallStatus), Statuses(done, oracle), r.status);
        FoldSnoc(Healthy, Statuses(done, oracle), r.status);
        CountSnoc(Statuses(done, oracle), r.status, Passed);
        done := done + [run];
        j := j + 1;
      }
      assert tcs[..j] == tcs;
    }

    /** The service loop of `run_comprehensive_health_check` over a table of
        test cases; it gives back the numbers of tests run and passed. */
    method RunTestCases(cases: seq<(string, seq<TestCase>)>, oracle: Oracle) returns (totalTests: nat, passedTests: nat)
      modifies this`overallStatus, this`changesDetected, this`issuesFound, this`services
      ensures overallStatus == Fold(old(overallStatus), Statuses(Schedule(cases), oracle))
      ensures changesDetected == old(changesDetected) + ChangeNotes(Schedule(cases), oracle)
      ensures issuesFound == old(issuesFound) + IssueNotes(Schedule(cases), oracle)
      ensures services == ReportsAfter(old(services), cases, oracle)
      ensures totalTests == |Schedule(cases)|
      ensures passedTests == Count(Statuses(Schedule(cases), oracle), Passed)
    {
      totalTests, passedTests := 0, 0;
      ghost var done: seq<(string, TestCase)> := [];
      var i := 0;
      while i < |cases|
        invariant 0 <= i <= |cases|
        invariant done == Schedule(cases[..i])
        invariant totalTests == |done|
        invariant passedTests == Count(Statuses(done, oracle), Passed)
        invariant overallStatus == Fold(old(overallStatus), Statuses(done, oracle))
        invariant changesDetected == old(changesDetected) + ChangeNotes(done, oracle)
        invariant issuesFound == old(issuesFound) + IssueNotes(done, oracle)
        invariant services == ReportsAfter(old(services), cases[..i], oracle)
      {
        var serviceName, tcs := cases[i].0, cases[i].1;
        var tests, serviceStatus;
        ghost var runs := Pairs(serviceName, tcs);
        ghost var o0, c0, i0 := overallStatus, changesDetected, issuesFound;
        tests, serviceStatus, totalTests, passedTests :=
          TestService(serviceName, tcs, oracle, totalTests, passedTests);
        assert changesDetected == c0 + ChangeNotes(runs, oracle);
        assert issuesFound == i0 + IssueNotes(runs, oracle);
        assert overallStatus == Fold(o0, Statuses(runs, oracle));
        assert ServiceReport(tests, serviceStatus, []) == ServiceReportOf(serviceName, tcs, oracle);
        ScheduleStep(cases, i);
        ReportsStep(old(services), cases, i, oracle);
        AppendStatuses(done, runs, oracle);
        AppendChangeNotes(done, runs, oracle);
        AppendIssueNotes(done, runs, oracle);
        AppendAssoc(old(changesDetected), ChangeNotes(done, oracle), ChangeNotes(runs, oracle));
        AppendAssoc(old(issuesFound), IssueNotes(done, oracle), IssueNotes(runs, oracle));
        FoldAppend(old(overallStatus), Statuses(done, oracle), Statuses(runs, oracle));
        CountAppend(Statuses(done, oracle), Statuses(runs, oracle), Passed);
        done := done + runs;
        services := services[serviceName := ServiceReport(tests, serviceStatus, [])];
        i := i + 1;
      }
      assert cases[..i] == cases;
    }

    /** `run_comprehensive_health_check`: every test case, then the summary. */
    method RunComprehensiveHealthCheck(oracle: Oracle)
      modifies this
      ensures overallStatus == Fold(old(overallStatus), Statuses(Schedule(testCases), oracle))
      ensures changesDetected == old(changesDetected) + ChangeNotes(Schedule(testCases), oracle)
      ensures issuesFound == old(issuesFound) + IssueNotes(Schedule(testCases), oracle)
      ensures services == ReportsAfter(old(services), testCases, oracle)
      ensures summary == Some(Summary(|Schedule(testCases)|, Count(Statuses(Schedule(testCases), oracle), Passed),
                                      |issuesFound|, |changesDetected|))
    {
      var totalTests, passedTests := RunTestCases(testCases, oracle);
      summary := Some(Summary(totalTests, passedTests, |issuesFound|, |changesDetected|));
    }
  }

  lemma GatherSnoc<T>(runs: seq<(string, TestCase)>, run: (string, TestCase), entry: ((string, TestCase)) -> seq<T>)
    ensures Gather(runs + [run], entry) == Gather(runs, entry) + entry(run)
  {
    assert (runs + [run])[..|runs|] == runs;
  }

  /** Gathering over a concatenation of runs concatenates the gathered
      entries. */
  lemma {:induction false} GatherAppend<T>(a: seq<(string, TestCase)>, b: seq<(string, TestCase)>, entry: ((string, TestCase)) -> seq<T>)
    ensures Gather(a + b, entry) == Gather(a, entry) + Gather(b, entry)
    decreases |b|
  {
    if b == [] {
      assert a + b == a;
    } else {
      var front, last := b[..|b| - 1], b[|b| - 1];
      GatherAppend(a, front, entry);
      assert b == front + [last];
      AppendAssoc(a, front, [last]);
      GatherSnoc(a + front, last, entry);
      GatherSnoc(front, last, entry);
      AppendAssoc(Gather(a, entry), Gather(front, entry), entry(last));
    }
  }

  /** Appending one run extends each per-run sequence by that run's entry. */
  lemma StepRun(runs: seq<(string, TestCase)>, run: (string, TestCase), oracle: Oracle)
    ensures Results(runs + [run], oracle) == Results(runs, oracle) + [EvaluateAt(run, oracle)]
    ensures Statuses(runs + [run], oracle) == Statuses(runs, oracle) + [EvaluateAt(run, oracle).status]
    ensures ChangeNotes(runs + [run], oracle) == ChangeNotes(runs, oracle) + ChangeNote(run.0, EvaluateAt(run, oracle))
    ensures IssueNotes(runs + [run], oracle) == IssueNotes(runs, oracle) + IssueNote(run.0, EvaluateAt(run, oracle))
  {
    assert (runs + [run])[..|runs|] == runs;
  }

  lemma StatusesSnoc(runs: seq<(string, TestCase)>, run: (string, TestCase), oracle: Oracle)
    ensures Statuses(runs + [run], oracle) == Statuses(runs, oracle) + [EvaluateAt(run, oracle).status]
  {
    assert (runs + [run])[..|runs|] == runs;
  }

  /** The per-run sequences of a concatenation of runs are the
      concatenations of the per-run sequences. */
  lemma {:induction false} AppendStatuses(a: seq<(string, TestCase)>, b: seq<(string, TestCase)>, oracle: Oracle)
    ensures Statuses(a + b, oracle) == Statuses(a, oracle) + Statuses(b, oracle)
    decreases |b|
  {
    if b == [] {
      assert a + b == a;
    } else {
      var front, last := b[..|b| - 1], b[|b| - 1];
      AppendStatuses(a, front, oracle);
      assert b == front + [last];
      AppendAssoc(a, front, [last]);
      StatusesSnoc(a + front, last, oracle);
      StatusesSnoc(front, last, oracle);
      AppendAssoc(Statuses(a, oracle), Statuses(front, oracle), [EvaluateAt(last, oracle).status]);
    }
  }

  lemma AppendChangeNotes(a: seq<(string, TestCase)>, b: seq<(string, TestCase)>, oracle: Oracle)
    ensures ChangeNotes(a + b, oracle) == ChangeNotes(a, oracle) + ChangeNotes(b, oracle)
  {
    GatherAppend(a, b, ChangeNoteAt(oracle));
  }

  lemma AppendIssueNotes(a: seq<(string, TestCase)>, b: seq<(string, TestCase)>, oracle: Oracle)
    ensures IssueNotes(a + b, oracle) == IssueNotes(a, oracle) + IssueNotes(b, oracle)
  {
    GatherAppend(a, b, IssueNoteAt(oracle));
  }

  /** Folding a concatenation folds the second part from where the first
      left off. */
  lemma {:induction false} FoldAppend(h: Health, s1: seq<TestStatus>, s2: seq<TestStatus>)
    ensures Fold(h, s1 + s2) == Fold(Fold(h, s1), s2)
    decreases |s2|
  {
    if s2 == [] {
      assert s1 + s2 == s1;
    } else {
      var front, last := s2[..|s2| - 1], s2[|s2| - 1];
      FoldAppend(h, s1, front);
      assert s1 + s2 == (s1 + front) + [last];
      FoldSnoc(h, s1 + front, last);
      FoldSnoc(Fold(h, s1), front, last);
      assert s2 == front + [last];
    }
  }

  lemma {:induction false} CountAppend(s1: seq<TestStatus>, s2: seq<TestStatus>, s: TestStatus)
    ensures Count(s1 + s2, s) == Count(s1, s) + Count(s2, s)
    decreases |s2|
  {
    if s2 == [] {
      assert s1 + s2 == s1;
    } else {
      var front, last := s2[..|s2| - 1], s2[|s2| - 1];
      CountAppend(s1, front, s);
      assert s1 + s2 == (s1 + front) + [last];
      CountSnoc(s1 + front, last, s);
      CountSnoc(front, last, s);
      assert s2 == front + [last];
    }
  }

  /** Passed tests never exceed the tests run; on a fresh checker the
      schema-error and field-change counters are the numbers of such tests. */
  lemma {:induction false} SummaryBounds(oracle: Oracle)
    ensures var runs := Schedule(TestCases);
            && Count(Statuses(runs, oracle), Passed) <= |runs|
            && |IssueNotes(runs, oracle)| == Count(Statuses(runs, oracle), SchemaError)
            && |ChangeNotes(runs, oracle)| == Count(Statuses(runs, oracle), TestStatus.Degraded)
            && Count(Statuses(runs, oracle), Passed) + |IssueNotes(runs, oracle)| + |ChangeNotes(runs, oracle)| <= |runs|
  {
    var runs := Schedule(TestCases);
    ChangeNotesCount(runs, oracle);
    IssueNotesCount(runs, oracle);
    NoUnknown(runs, oracle);
    StatusPartition(Statuses(runs, oracle));
  }
}
