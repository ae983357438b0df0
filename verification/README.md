# MonarchMoney Enhanced: preloader and maintenance tools, modelled in Dafny

This project models four pieces of sequential decision logic from the
MonarchMoney Enhanced client library and its maintenance tools.

- **Cache preloader** (`cache_preloader.dfy`, module `CachePreloader`).
  - Each preload method runs a fixed list of named fetch tasks one after the other. It catches every failure and records `name -> bool`.
  - `smart_preload` merges the essential entries with those of a context.
  - The client is a value: the set of calls that raise, and the payload of the basic account listing.
  - Every preload method also returns the trace of client calls it made.
- **Operation health checker** (`operation_health_checker.dfy`, module `OperationHealth`).
  - A `HealthChecker` class holds the mutable results: `overall_status`, `issues_found`, `changes_detected`, `services` and the summary.
  - Its methods judge each test result by the missing fields of a sample item, and each error by a substring test against six indicators.
  - They fold the test statuses over healthy < degraded < unhealthy.
  - Pure functions define the same run; the methods are proved equal to them.
  - An `Oracle` gives the outcome of each awaited service call.
- **Backwards compatibility checker** (`backwards_compatibility.dfy`, module `BackwardsCompatibility`).
  - `_extract_fields` is a recursive function over a JSON tree, giving dotted field paths.
  - `_compare_results` is a method. It lists the missing set in an unspecified order, because Python's order there depends on hashing.
  - The `CompatibilityChecker` class keeps `compatibility_issues` and builds the report.
- **Schema reporter** (`schema_reporter.dfy`, module `SchemaReporter`). It covers:
  - the integer statistics of an introspected schema, as a loop method proved against specification functions;
  - the broken/compatible verdict for an operation;
  - the recommendation list;
  - the deprecated-fields section of the markdown summary;
  - the `has_changes` test of the monitor loop.

Two shared modules support these. `Json` (`json.dfy`) holds the JSON values (objects as ordered key/value pairs), the raise-or-return `Outcome` and `dict.get`. `Text` (`text.dfy`) holds `in` on strings, ASCII `lower()`, `str(n)` and the `repr` of string lists.

## Model

| member | source | states |
|---|---|---|
| CachePreloader.RunTasks | monarchmoney/cache_preloader.py:48-55 | every task is called, in list order, whether or not an earlier one failed; the result map is the sequence of writes `results[name] = not raised` |
| CachePreloader.RecordedKeys | monarchmoney/cache_preloader.py:48-55 | the result map's keys are exactly the tasks' names |
| CachePreloader.RecordedValue | monarchmoney/cache_preloader.py:48-55 | with distinct names, each task's entry is true iff its own awaited call did not raise; a failure affects no other entry |
| CachePreloader.NamesDistinct | monarchmoney/cache_preloader.py:40-45 | distinct keys have distinct dict names, so a map over keys is the `Dict[str, bool]` |
| CachePreloader.PreloadEssentialData | monarchmoney/cache_preloader.py:28-64 | keys are exactly categories, account_types, user_profile and institutions, each true iff its fetch did not raise; the four fetches are made in that order |
| CachePreloader.PreloadDashboardData | monarchmoney/cache_preloader.py:66-94 | keys are accounts_basic, recent_transactions, merchants and transaction_rules, the last always true; the fetches include the basic listing and 7 days / 50 transactions |
| CachePreloader.AnyInvestment | monarchmoney/cache_preloader.py:110-113 | `any(...)` is true only with an investment or retirement account, false only with none, and does not raise when every account can be read |
| CachePreloader.PreloadInvestmentData | monarchmoney/cache_preloader.py:96-128 | only the key holdings; false iff the listing, the scan or the batch fetch raises; the batch fetch is made only after a listing showing an investment or retirement account |
| CachePreloader.SmartPreload | monarchmoney/cache_preloader.py:201-231 | never raises; the result is the essential entries updated by the context's entries; the calls are the essential fetches and then the context's |
| CachePreloader.SmartKeys | monarchmoney/cache_preloader.py:213-229 | the keys are the essential keys and the context keys; these never overlap, so no essential entry is overwritten |
| CachePreloader.ContextOutcomeKeys | monarchmoney/cache_preloader.py:219-229 | dashboard and transactions add the four dashboard keys, investments adds holdings, any other context adds nothing |
| CachePreloader.EssentialEntries | monarchmoney/cache_preloader.py:130-160 | in every context each essential entry is true iff its own fetch did not raise |
| CachePreloader.TransactionRulesNeverFalse | monarchmoney/cache_preloader.py:192-199 | transaction_rules, whenever present, is true, and it is present exactly for dashboard and transactions |
| CachePreloader.TransactionsIsDashboard | monarchmoney/cache_preloader.py:226-229 | the transactions context gives the same result and the same calls as dashboard |
| CachePreloader.UnknownContextIsEssentialOnly | monarchmoney/cache_preloader.py:215-231 | any other context gives only the essential entries and makes no further call |
| CachePreloader.NoInvestmentsSkipsBatch | monarchmoney/cache_preloader.py:115-122 | without an investment or retirement account, holdings is true and the batch fetch is not made |
| CachePreloader.ReadableListingScans | monarchmoney/cache_preloader.py:107-126 | for any listing object whose `accounts` entry (other keys allowed; a missing entry reads as the empty list) lists only readable accounts, holdings is false exactly when the listing or the batch fetch raises |
| OperationHealth.SampleItem | tools/operation_health_checker.py:179-185 | a sample exists iff the result is a non-empty dict, or a non-empty list whose first element is a non-empty dict |
| OperationHealth.MissingFields | tools/operation_health_checker.py:187 | a field is missing iff it is expected and not among the available keys; never longer than the expected list |
| OperationHealth.MissingFieldsAppend | tools/operation_health_checker.py:187 | the missing list keeps the expected-list order: it distributes over concatenation of the expected list |
| OperationHealth.AnalyzeResultStatus | tools/operation_health_checker.py:185-200 | the status is passed or degraded, and degraded iff a sample exists and some expected field is absent from its keys |
| OperationHealth.ListJudgedByFirst | tools/operation_health_checker.py:180-181 | a list result is judged by its first element alone |
| OperationHealth.NoSamplePasses | tools/operation_health_checker.py:198-200 | an empty list, an empty dict or a scalar passes and changes nothing else in the test result |
| OperationHealth.AnyIndicator | tools/operation_health_checker.py:218 | true iff one of the indicators occurs in the string |
| OperationHealth.SchemaIndicatorsReduce | tools/operation_health_checker.py:209-218 | "cannot query field" and "unknown field" are subsumed by "field": the classification tests four substrings of the lowercased message |
| OperationHealth.AnalyzeError | tools/operation_health_checker.py:204-228 | the error is recorded; status is schema_error iff the lowercased message has an indicator, otherwise business_error; the field lists are untouched |
| OperationHealth.Evaluate | tools/operation_health_checker.py:132-171 | a tested operation never stays unknown, and a schema error always carries its message |
| OperationHealth.Next | tools/operation_health_checker.py:107-116 | one step of the status update never lowers the status |
| OperationHealth.FoldMonotone | tools/operation_health_checker.py:107-116 | over any run the status only moves up |
| OperationHealth.FoldUnhealthy | tools/operation_health_checker.py:109-111 | unhealthy iff it started unhealthy or some test had a schema error |
| OperationHealth.FoldHealthy | tools/operation_health_checker.py:107-116 | healthy iff it started healthy and no test was degraded or had a schema error; business errors change nothing |
| OperationHealth.ExitCode | tools/operation_health_checker.py:430-435 | 1 iff unhealthy, 2 iff degraded, 0 iff healthy |
| OperationHealth.ChangeNotesCount | tools/operation_health_checker.py:192-195 | `changes_detected` gains exactly one entry per degraded test |
| OperationHealth.IssueNotesCount | tools/operation_health_checker.py:218-222 | `issues_found` gains exactly one entry per schema error |
| OperationHealth.StatusPartition | tools/operation_health_checker.py:173-228 | every finished test is passed, degraded, schema_error or business_error, so the four counts add up to the number of tests |
| OperationHealth.NoUnknown | tools/operation_health_checker.py:151-171 | no test of a run is left with status unknown |
| OperationHealth.StatusFromNotes | tools/operation_health_checker.py:107-116 | from a fresh checker the overall status is unhealthy iff an issue was recorded, degraded iff none was but a field change was |
| OperationHealth.RecommendationMatchesStatus | tools/operation_health_checker.py:312-321 | the urgent advice goes with exit code 1, the field-change advice with exit code 2, the healthy advice with exit code 0 |
| OperationHealth.SummaryBounds | tools/operation_health_checker.py:121-128 | passed tests never exceed tests run; the schema-error and field-change counters equal the numbers of such tests, and with the passes never exceed the tests run |
| OperationHealth.GatherAppend | tools/operation_health_checker.py:95-116 | the entries recorded over two consecutive batches of tests are those of the first batch followed by those of the second |
| OperationHealth.HealthChecker.constructor | tools/operation_health_checker.py:29-37 | starts healthy with no services, issues, changes or summary, and with the fixed test table |
| OperationHealth.HealthChecker.AnalyzeOperationResult | tools/operation_health_checker.py:173-202 | the test result is updated as `AnalyzeResult` says, and `changes_detected` gains the missing-fields note iff the test is degraded |
| OperationHealth.HealthChecker.AnalyzeOperationError | tools/operation_health_checker.py:204-228 | the test result is updated as `AnalyzeError` says, and `issues_found` gains the schema-error note iff it is a schema error |
| OperationHealth.HealthChecker.TestOperation | tools/operation_health_checker.py:132-171 | a returned payload goes through the result analysis and a raised error through the error analysis |
| OperationHealth.HealthChecker.RecordStatus | tools/operation_health_checker.py:107-116 | a pass is counted; service and overall status take one step of the status order |
| OperationHealth.HealthChecker.TestService | tools/operation_health_checker.py:98-118 | one service's tests in order: counters, service status, overall status and both note lists equal the fold over its tests |
| OperationHealth.HealthChecker.RunTestCases | tools/operation_health_checker.py:92-119 | after all services, the counters, statuses, note lists and per-service reports equal those of the whole schedule |
| OperationHealth.HealthChecker.RunComprehensiveHealthCheck | tools/operation_health_checker.py:39-130 | runs the fixed table and stores the summary: tests run, tests passed and the lengths of `issues_found` and `changes_detected` |
| BackwardsCompatibility.FieldName | tools/backwards_compatibility_checker.py:112 | under a non-empty prefix: the prefix, a dot, then exactly the key; with no prefix: the key |
| BackwardsCompatibility.ExtractFields | tools/backwards_compatibility_checker.py:106-123 | a scalar or an empty list yields no field |
| BackwardsCompatibility.ExtractedUnderPrefix | tools/backwards_compatibility_checker.py:106-121 | under a non-empty prefix every extracted path starts with `prefix + "."` |
| BackwardsCompatibility.FieldsOfMember | tools/backwards_compatibility_checker.py:111-117 | a path comes from a dict's pairs iff it comes from one of them |
| BackwardsCompatibility.ObjectFields | tools/backwards_compatibility_checker.py:110-117 | a path of a dict is one of its key names, or a path below a non-`__typename` key whose value is a dict or a list |
| BackwardsCompatibility.KeysIncluded | tools/backwards_compatibility_checker.py:111-113 | every key of a dict appears, `__typename` included |
| BackwardsCompatibility.TypenameNotDescended | tools/backwards_compatibility_checker.py:116-117 | an object holding only a `__typename` key gives that key's path and nothing below it, whatever its value; in a larger object the same follows from `ObjectFields` |
| BackwardsCompatibility.ListFirstOnly | tools/backwards_compatibility_checker.py:119-121 | only the first element of a list is inspected |
| BackwardsCompatibility.Elements | tools/backwards_compatibility_checker.py:99 | the set is listed with each element exactly once |
| BackwardsCompatibility.CompareResults | tools/backwards_compatibility_checker.py:78-104 | at most one issue; a success mismatch gives exactly the mismatch issue; two failures give none; two results give an issue iff an original path is missing from the enhanced result, listing exactly the missing paths; extra paths never give an issue |
| BackwardsCompatibility.BulletsAppend | tools/backwards_compatibility_checker.py:131-132 | the bullet text of a concatenation is the concatenation of the bullet texts: one line per issue, in order |
| BackwardsCompatibility.ReportCases | tools/backwards_compatibility_checker.py:125-134 | the all-compatible message iff there is no issue, otherwise the header followed by the bullets |
| BackwardsCompatibility.CompatibilityChecker.constructor | tools/backwards_compatibility_checker.py:28-37 | the six methods to check, no issue yet |
| BackwardsCompatibility.CompatibilityChecker.CheckMethodCompatibility | tools/backwards_compatibility_checker.py:39-54 | true iff compatible; the issue list is unchanged when compatible; otherwise exactly one issue is appended: the success-mismatch message when one side raised, or the missing-fields message listing each path of the original not in the enhanced result when both returned |
| BackwardsCompatibility.CompatibilityChecker.CheckAll | tools/backwards_compatibility_checker.py:153-157 | true iff every listed method is compatible iff no issue was added; the earlier issues are kept and what is appended is, in method order, the issue of each incompatible method and nothing else, so one issue per incompatible method |
| BackwardsCompatibility.IssuesForCount | tools/backwards_compatibility_checker.py:153-157 | the issues appended for a list of methods number exactly its incompatible methods |
| BackwardsCompatibility.IncompatibleBounds | tools/backwards_compatibility_checker.py:153-157 | at most one incompatible count per method, and zero exactly when every method is compatible |
| BackwardsCompatibility.CompatibilityChecker.GenerateReport | tools/backwards_compatibility_checker.py:125-134 | the report text of the current issue list |
| SchemaReporter.AttrOr | tools/schema_reporter.py:106-109 | `get(key, default)` is the default for a missing key, `None` exactly for a `None` value, and the stored string otherwise |
| SchemaReporter.ItemOf | tools/schema_reporter.py:126-130 | the reason is "No reason provided" when the key is missing, else the given reason |
| SchemaReporter.BreakdownIsKindMultiset | tools/schema_reporter.py:93-107 | the breakdown is the multiset of kinds (missing counted as UNKNOWN), whose size is the number of types |
| SchemaReporter.FieldCountsBounds | tools/schema_reporter.py:112-114 | no more types with fields than types, every recorded count positive |
| SchemaReporter.ExtremesOrder | tools/schema_reporter.py:133-138 | max and min are 0 when no type has fields, otherwise 1 <= min <= max |
| SchemaReporter.LargeTypesAppend | tools/schema_reporter.py:116-121 | large types are listed in input order |
| SchemaReporter.LargeTypesMember | tools/schema_reporter.py:116-121 | exactly the types with more than 20 fields are listed, with their names and counts |
| SchemaReporter.DeprecatedOfMember | tools/schema_reporter.py:124-130 | an entry is listed iff it is the entry of some field whose isDeprecated is true |
| SchemaReporter.DeprecatedOfCount | tools/schema_reporter.py:124-130 | the list has as many entries as the type has deprecated fields |
| SchemaReporter.CollectDeprecated | tools/schema_reporter.py:124-130 | raises `KeyError('name')` iff a deprecated field has no name, else appends that type's deprecated entries in field order |
| SchemaReporter.Extremes | tools/schema_reporter.py:136-137 | max and min of the counts, attained by some type, or 0 and 0 |
| SchemaReporter.AnalyzeSchemaStructure | tools/schema_reporter.py:88-141 | raises `KeyError('name')` iff a deprecated field has no name; otherwise the total, breakdown, types with fields, extremes, deprecated items and large types are those of the specification functions |
| SchemaReporter.WithoutAlternatives | tools/schema_reporter.py:159-164 | exactly the missing required fields with no alternative |
| SchemaReporter.TestOperationCompatibility | tools/schema_reporter.py:143-191 | error iff validation raised, with one issue; otherwise broken iff a missing required field has no alternative; required status ok iff none missing; an issue iff broken; one warning each for missing optional and deprecated fields |
| SchemaReporter.AlternativesKeepCompatible | tools/schema_reporter.py:159-170 | required fields missing but all with alternatives: compatible, required status "issues" |
| SchemaReporter.OperationRecommendations | tools/schema_reporter.py:238-248 | the per-operation entries in operation order: update before URGENT |
| SchemaReporter.GenerateRecommendations | tools/schema_reporter.py:233-280 | operation entries, then the diff entries, then the large-types entry, or the healthy message alone |
| SchemaReporter.OperationRecsLead | tools/schema_reporter.py:239-248 | each per-operation entry is an update entry or an URGENT entry |
| SchemaReporter.OtherRecsNotUrgent | tools/schema_reporter.py:250-275 | no schema-diff or large-types entry is an URGENT entry |
| SchemaReporter.OperationRecsUrgent | tools/schema_reporter.py:245-248 | the per-operation entries hold one URGENT entry per broken operation |
| SchemaReporter.UrgentPerBroken | tools/schema_reporter.py:239-278 | the recommendations hold exactly one URGENT entry per broken operation |
| SchemaReporter.RecommendationsShape | tools/schema_reporter.py:277-278 | never empty; the healthy message appears iff nothing else was recommended |
| SchemaReporter.LargeRecFirstThree | tools/schema_reporter.py:270-275 | the large-types entry names only the first three large types |
| SchemaReporter.QuietDiff | tools/schema_reporter.py:251-267 | a diff adds nothing iff no removed, deprecated or added field count is positive |
| SchemaReporter.Shown | tools/schema_reporter.py:367 | at most the first ten items, in order |
| SchemaReporter.Truncation | tools/schema_reporter.py:363-371 | with more than ten items the section is that of the first ten plus the "and N more" line |
| SchemaReporter.AppendDeprecatedSection | tools/schema_reporter.py:363-371 | appends the section with real line breaks: nothing without items, else heading, first ten items, and the "more" line iff more than ten |
| SchemaReporter.SectionNewlines | tools/schema_reporter.py:363-371 | spelled without a newline the section has no line break; with one, two after the heading, one per shown item and two around the "more" line |
| SchemaReporter.AsWrittenHasNoLineBreak | tools/schema_reporter.py:366-371 | as written the whole section holds no line break |
| SchemaReporter.CorrectedLineBreaks | tools/schema_reporter.py:366-371 | corrected, the section breaks into 2 + min(10, n) lines plus two for the "more" line |
| SchemaReporter.HasChangesMeaning | tools/schema_reporter.py:400 | true iff some entry other than timestamp is positive |
| SchemaReporter.TimestampIgnored | tools/schema_reporter.py:400 | the value under timestamp never matters |

## Left out

- Concurrency and `async`: each awaited call is an outcome given as input (a `Client` value, an `Oracle`, or an `Outcome` argument). The preloader's loop awaits its tasks one at a time, and that is what is modelled.
- Logging, `print`, file writing, `json.dump`, `argparse`, login, `input()` and `sys.exit`. The exit status is modelled only as the value `ExitCode` gives.
- Floating point: the health checker's `success_rate` and the schema reporter's `average_fields_per_type`.
- Timestamps (`datetime.now()`), and the report and file names built from them.
- `get_preload_metrics`: it reads the client's cache internals, which are not part of this model.
- The query cache, the request deduplicator and `gql_call`: they are not part of this model.
- The service classes and `validate_against_schema`: their results are inputs.
- `_analyze_schema_history` and `generate_comprehensive_report`: file discovery and orchestration.
- The schema reporter's markdown other than the deprecated-fields section.
- The health checker's markdown and `print_summary`; of the recommendation block only the choice of block is modelled, not its wording.
- `_analyze_schema_structure` takes the type list directly. Unwrapping `schema.get("__schema", {}).get("types", [])` is not modelled.
- `_analyze_schema_structure` is modelled for well-typed introspection data only. A field list that is not a list, a non-dict field, or a count that is not an integer is not modelled.
- `Text.Lower`: lowers ASCII letters only; Python's `str.lower` also folds other scripts.
- `Text.Quote`: is `repr` of a string without quotes or escapes inside; Python's escaping is not modelled.
- `BackwardsCompatibility.CompareResults`: lists the missing paths in an unspecified order, as the hash-dependent `repr` of a Python set does. It does not give the order itself.
- `SchemaReporter.TestOperationCompatibility`: deprecated fields are given by their names. The `f["name"]` lookup, which could raise, is not modelled.
- `SchemaReporter.GenerateRecommendations`: `schema_diff` is given as its summary, or nothing when it is missing or falsy. A non-dict diff, or a summary that is not a mapping of integers, is not modelled.
- `SchemaReporter.HasChanges`: the summary is a list of (key, integer) pairs. A non-integer value, which Python would compare or reject, is not modelled.

## Findings

| source | as written | input that shows it | evidently intended | confidence | as-written member | corrected member |
|---|---|---|---|---|---|---|
| tools/schema_reporter.py:366-371 | the deprecated-fields section writes `"\\n"`, a backslash followed by `n`, where a line break is meant, so the whole section is one line | any non-empty list of deprecated items, e.g. one item `Query.old` with reason `gone`: the section is `## 📋 Deprecated Fields Details\n\n- **Query.old:** gone\n` as literal characters, with no newline | one line break after the heading, a blank line, one break per listed item, and two around the "and N more" line | high (not executed) | SchemaReporter.AsWrittenHasNoLineBreak | SchemaReporter.CorrectedLineBreaks |
