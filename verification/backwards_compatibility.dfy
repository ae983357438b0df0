/** The backwards compatibility checker: calls each listed method on the
    original and on the enhanced package, compares the dotted field paths of
    the two results, and collects one issue per incompatible method.

    The two awaited calls are given as their outcomes: a returned payload is
    `{'success': True, 'result': ...}`, a raised error is
    `{'success': False, 'error': ...}`. */
module BackwardsCompatibility {
  import opened Json
  import opened Text

  // ---------------------------------------------------------------------
  // Field paths

  /** `f"{prefix}.{key}" if prefix else key`. */
  function FieldName(prefix: string, key: string): (r: string)
    ensures prefix != [] ==> prefix + "." <= r && |r| == |prefix| + 1 + |key| && r[|prefix| + 1..] == key
    ensures prefix == [] ==> r == key
  {
    if prefix != [] then prefix + "." + key else key
  }

  /** `_extract_fields`: the dotted paths of every dict key in the tree,
      looking only at the first element of a list. */
  function ExtractFields(result: Json, prefix: string): (r: set<string>)
    ensures !result.JObject? && !result.JList? ==> r == {}
    ensures result == JList([]) ==> r == {}
    decreases result, 1, 0
  {
    match result
    case JObject(fields) => FieldsOf(fields, prefix, 0)
    case JList(items) => if items != [] then ExtractFields(items[0], prefix) else {}
    case _ => {}
  }

  /** The paths contributed by the pairs `fields[i..]` of one dict. */
  function FieldsOf(fields: seq<(string, Json)>, prefix: string, i: nat): set<string>
    requires i <= |fields|
    decreases JObject(fields), 0, |fields| - i
  {
    if i == |fields| then {}
    else
      assert fields[i] in fields;
      EntryFields(fields[i], prefix) + FieldsOf(fields, prefix, i + 1)
  }

  /** The paths one (key, value) pair contributes: its own name, and the
      paths below it unless the key is `__typename` or the value is a
      scalar. */
  function EntryFields(entry: (string, Json), prefix: string): set<string>
    decreases entry.1, 2
  {
    var name := FieldName(prefix, entry.0);
    {name} + (if IsContainer(entry.1) && entry.0 != "__typename" then ExtractFields(entry.1, name) else {})
  }

  /** Every path extracted under a non-empty prefix extends `prefix + "."`. */
  lemma {:induction false} ExtractedUnderPrefix(result: Json, prefix: string)
    ensures prefix != [] ==> forall f :: f in ExtractFields(result, prefix) ==> prefix + "." <= f
    decreases result, 1, 0
  {
    match result
    case JObject(fields) => FieldsUnderPrefix(fields, prefix, 0);
    case JList(items) =>
      if items != [] {
        ExtractedUnderPrefix(items[0], prefix);
      }
    case _ =>
  }

  lemma {:induction false} FieldsUnderPrefix(fields: seq<(string, Json)>, prefix: string, i: nat)
    requires i <= |fields|
    ensures prefix != [] ==> forall f :: f in FieldsOf(fields, prefix, i) ==> prefix + "." <= f
    decreases JObject(fields), 0, |fields| - i
  {
    if i < |fields| {
      assert fields[i] in fields;
      EntryUnderPrefix(fields[i], prefix);
      FieldsUnderPrefix(fields, prefix, i + 1);
    }
  }

  lemma {:induction false} EntryUnderPrefix(entry: (string, Json), prefix: string)
    ensures prefix != [] ==> forall f :: f in EntryFields(entry, prefix) ==> prefix + "." <= f
    decreases entry.1, 2
  {
    var name := FieldName(prefix, entry.0);
    if IsContainer(entry.1) && entry.0 != "__typename" {
      ExtractedUnderPrefix(entry.1, name);
      BelowExtends(prefix, name, ExtractFields(entry.1, name));
    }
  }

  /** A path under `name` is a path under `prefix` when `name` is itself
      under `prefix`. */
  lemma BelowExtends(prefix: string, name: string, below: set<string>)
    requires prefix != [] ==> prefix + "." <= name && forall f :: f in below ==> name + "." <= f
    ensures prefix != [] ==> forall f :: f in below ==> prefix + "." <= f
  {
    forall f | prefix != [] && f in below
      ensures prefix + "." <= f
    {
      assert name <= name + ".";
      PrefixTransitive(prefix + ".", name, f);
    }
  }

  lemma PrefixTransitive(a: string, b: string, c: string)
    requires a <= b && b + "." <= c
    ensures a <= c
  {
    assert c[..|b|] == b;
    assert c[..|a|] == b[..|a|];
  }

  lemma {:induction false} FieldsOfMember(fields: seq<(string, Json)>, prefix: string, i: nat, f: string)
    requires i <= |fields|
    ensures f in FieldsOf(fields, prefix, i) <==> exists k :: i <= k < |fields| && f in EntryFields(fields[k], prefix)
    decreases |fields| - i
  {
    if i < |fields| {
      FieldsOfMember(fields, prefix, i + 1, f);
      var here, rest := EntryFields(fields[i], prefix), FieldsOf(fields, prefix, i + 1);
      assert FieldsOf(fields, prefix, i) == here + rest;
      if f in here {
        assert i <= i < |fields| && f in EntryFields(fields[i], prefix);
      } else if f in rest {
        var k :| i + 1 <= k < |fields| && f in EntryFields(fields[k], prefix);
        assert i <= k < |fields|;
      }
      forall k | i <= k < |fields| && f in EntryFields(fields[k], prefix)
        ensures f in here + rest
      {
        if k > i {
          assert i + 1 <= k < |fields|;
        }
      }
    }
  }

  /** A path of a dict is the name of one of its keys, or a path below a
      key other than `__typename` whose value is a dict or a list. */
  lemma ObjectFields(fields: seq<(string, Json)>, prefix: string, f: string)
    ensures f in ExtractFields(JObject(fields), prefix) <==>
      exists k :: 0 <= k < |fields| &&
        (f == FieldName(prefix, fields[k].0) ||
         (fields[k].0 != "__typename" && IsContainer(fields[k].1) &&
          f in ExtractFields(fields[k].1, FieldName(prefix, fields[k].0))))
  {
    FieldsOfMember(fields, prefix, 0, f);
  }

  /** Every key of a dict appears, `__typename` included. */
  lemma KeysIncluded(fields: seq<(string, Json)>, prefix: string, k: nat)
    requires k < |fields|
    ensures FieldName(prefix, fields[k].0) in ExtractFields(JObject(fields), prefix)
  {
    ObjectFields(fields, prefix, FieldName(prefix, fields[k].0));
  }

  /** Nothing below a `__typename` key is extracted: the key alone gives
      its own name and no more. Inside a larger object the same follows from
      `ObjectFields`, which takes the object key by key. */
  lemma TypenameNotDescended(value: Json, prefix: string)
    ensures ExtractFields(JObject([("__typename", value)]), prefix) == {FieldName(prefix, "__typename")}
  {
    var fields := [("__typename", value)];
    forall f
      ensures f in ExtractFields(JObject(fields), prefix) <==> f == FieldName(prefix, "__typename")
    {
      ObjectFields(fields, prefix, f);
    }
  }

  /** Only the first element of a list is inspected. */
  lemma ListFirstOnly(first: Json, rest: seq<Json>, prefix: string)
    ensures ExtractFields(JList([first] + rest), prefix) == ExtractFields(first, prefix)
  {
  }

  // ---------------------------------------------------------------------
  // Comparing two outcomes

  /** Both calls failed, or both returned and every original path is still
      present in the enhanced result. */
  predicate Compatible(original: Outcome<Json>, enhanced: Outcome<Json>)
  {
    original.Returned? == enhanced.Returned? &&
    (original.Returned? ==> ExtractFields(original.value, "") <= ExtractFields(enhanced.value, ""))
  }

  function MismatchIssue(methodName: string, original: Outcome<Json>, enhanced: Outcome<Json>): string
  {
    methodName + ": Success mismatch - original: " + BoolToString(original.Returned?)
      + ", enhanced: " + BoolToString(enhanced.Returned?)
  }

  /** `repr` of a non-empty set of strings listed in the order `xs`. */
  function SetRepr(xs: seq<string>): string
  {
    "{" + JoinQuoted(xs) + "}"
  }

  function MissingIssue(methodName: string, listed: seq<string>): string
  {
    methodName + ": Missing fields in enhanced version: " + SetRepr(listed)
  }

  /** A listing of the set `s`: each element once, in an order the set's
      hashing decides. */
  ghost predicate Lists(xs: seq<string>, s: set<string>)
  {
    |xs| == |s| && forall x :: x in xs <==> x in s
  }

  /** Iterating a set. */
  method Elements(s: set<string>) returns (xs: seq<string>)
    ensures Lists(xs, s)
  {
    xs := [];
    var rest := s;
    while rest != {}
      invariant rest <= s
      invariant |xs| + |rest| == |s|
      invariant forall x :: x in xs <==> x in s && x !in rest
      decreases |rest|
    {
      var x :| x in rest;
      xs := xs + [x];
      rest := rest - {x};
    }
  }

  /** `_compare_results`: at most one issue. A success mismatch is reported
      and nothing else is compared; two failures are fine; two results are
      compared by their paths, and only paths missing from the enhanced
      result are an issue. */
  method CompareResults(methodName: string, original: Outcome<Json>, enhanced: Outcome<Json>)
    returns (issues: seq<string>)
    ensures |issues| <= 1
    ensures issues == [] <==> Compatible(original, enhanced)
    ensures original.Returned? != enhanced.Returned? ==> issues == [MismatchIssue(methodName, original, enhanced)]
    ensures original.Raised? && enhanced.Raised? ==> issues == []
    ensures original.Returned? && enhanced.Returned? && issues != [] ==>
      exists listed :: Lists(listed, ExtractFields(original.value, "") - ExtractFields(enhanced.value, ""))
                       && issues == [MissingIssue(methodName, listed)]
  {
    issues := [];
    if original.Returned? != enhanced.Returned? {
      issues := issues + [MismatchIssue(methodName, original, enhanced)];
      return;
    }
    if original.Raised? {
      return;
    }
    var origFields := ExtractFields(original.value, "");
    var enhFields := ExtractFields(enhanced.value, "");
    var missing := origFields - enhFields;
    if missing != {} {
      var listed := Elements(missing);
      issues := issues + [MissingIssue(methodName, listed)];
    } else {
      assert origFields <= enhFields by {
        forall f | f in origFields
          ensures f in enhFields
        {
          assert f !in missing;
        }
      }
    }
  }

  /** `issue` is the one `_compare_results` gives for an incompatible
      method: the success mismatch, or the missing paths in some order. */
  ghost predicate IssueFor(methodName: string, original: Outcome<Json>, enhanced: Outcome<Json>, issue: string)
  {
    (original.Returned? != enhanced.Returned? && issue == MismatchIssue(methodName, original, enhanced))
    || (original.Returned? && enhanced.Returned? &&
        exists listed :: Lists(listed, ExtractFields(original.value, "") - ExtractFields(enhanced.value, ""))
                         && issue == MissingIssue(methodName, listed))
  }

  /** `added` is what checking the methods `ms` in order appends: one issue
      per incompatible method, in method order, and nothing else. */
  ghost predicate IssuesFor(ms: seq<string>, original: string -> Outcome<Json>, enhanced: string -> Outcome<Json>,
                            added: seq<string>)
    decreases |ms|
  {
    if ms == [] then added == []
    else
      var m := ms[|ms| - 1];
      if Compatible(original(m), enhanced(m)) then IssuesFor(ms[..|ms| - 1], original, enhanced, added)
      else
        added != [] && IssueFor(m, original(m), enhanced(m), added[|added| - 1])
        && IssuesFor(ms[..|ms| - 1], original, enhanced, added[..|added| - 1])
  }

  /** The number of methods in `ms` that are not compatible. */
  function Incompatible(ms: seq<string>, original: string -> Outcome<Json>, enhanced: string -> Outcome<Json>): nat
  {
    if ms == [] then 0
    else
      var m := ms[|ms| - 1];
      Incompatible(ms[..|ms| - 1], original, enhanced) + (if Compatible(original(m), enhanced(m)) then 0 else 1)
  }

  /** Checking the methods adds exactly one issue per incompatible method. */
  lemma {:induction false} IssuesForCount(ms: seq<string>, original: string -> Outcome<Json>,
                                          enhanced: string -> Outcome<Json>, added: seq<string>)
    requires IssuesFor(ms, original, enhanced, added)
    ensures |added| == Incompatible(ms, original, enhanced)
    decreases |ms|
  {
    if ms != [] {
      var m := ms[|ms| - 1];
      if Compatible(original(m), enhanced(m)) {
        IssuesForCount(ms[..|ms| - 1], original, enhanced, added);
      } else {
        IssuesForCount(ms[..|ms| - 1], original, enhanced, added[..|added| - 1]);
      }
    }
  }

  // ---------------------------------------------------------------------
  // The report

  const AllCompatibleMessage: string := "\U{2705} All methods are backwards compatible!"
  const IssuesHeader: string := "\U{274C} Backwards Compatibility Issues Found:\n\n"

  /** One bullet line per issue, in order. */
  function Bullets(issues: seq<string>): string
  {
    if issues == [] then ""
    else Bullets(issues[..|issues| - 1]) + "\U{2022} " + issues[|issues| - 1] + "\n"
  }

  /** The bullet list of a concatenation is the concatenation of the
      bullet lists. */
  lemma {:induction false} BulletsAppend(a: seq<string>, b: seq<string>)
    ensures Bullets(a + b) == Bullets(a) + Bullets(b)
    decreases |b|
  {
    if b == [] {
      assert a + b == a;
    } else {
      var front := b[..|b| - 1];
      BulletsAppend(a, front);
      assert (a + b)[..|a + b| - 1] == a + front;
      assert (a + b)[|a + b| - 1] == b[|b| - 1];
    }
  }

  /** The report text for a list of issues. */
  function Report(issues: seq<string>): string
  {
    if issues == [] then AllCompatibleMessage else IssuesHeader + Bullets(issues)
  }

  /** The all-compatible message is given exactly when there is no issue,
      and otherwise the header is followed by each issue's bullet. */
  lemma ReportCases(issues: seq<string>)
    ensures Report(issues) == AllCompatibleMessage <==> issues == []
    ensures issues != [] ==> IssuesHeader <= Report(issues)
  {
    if issues != [] {
      assert Report(issues)[0] == IssuesHeader[0];
      assert AllCompatibleMessage[0] != IssuesHeader[0];
    }
  }

  /** At most one per method, and none exactly when every method is
      compatible. */
  lemma {:induction false} IncompatibleBounds(ms: seq<string>, original: string -> Outcome<Json>,
                                             enhanced: string -> Outcome<Json>)
    ensures Incompatible(ms, original, enhanced) <= |ms|
    ensures Incompatible(ms, original, enhanced) == 0 <==>
      forall k :: 0 <= k < |ms| ==> Compatible(original(ms[k]), enhanced(ms[k]))
  {
    if ms != [] {
      var front := ms[..|ms| - 1];
      IncompatibleBounds(front, original, enhanced);
      assert forall k :: 0 <= k < |front| ==> front[k] == ms[k];
    }
  }

  /** One more method checked: its issue, if any, extends the suffix. */
  lemma IssuesStep(ms: seq<string>, i: nat, original: string -> Outcome<Json>, enhanced: string -> Outcome<Json>,
                   start: seq<string>, before: seq<string>, after: seq<string>)
    requires i < |ms| && start <= before
    requires IssuesFor(ms[..i], original, enhanced, before[|start|..])
    requires Compatible(original(ms[i]), enhanced(ms[i])) ==> after == before
    requires !Compatible(original(ms[i]), enhanced(ms[i])) ==>
      |before| < |after| && after == before + [after[|after| - 1]]
      && IssueFor(ms[i], original(ms[i]), enhanced(ms[i]), after[|after| - 1])
    ensures start <= after
    ensures IssuesFor(ms[..i + 1], original, enhanced, after[|start|..])
    ensures Incompatible(ms[..i + 1], original, enhanced) ==
      Incompatible(ms[..i], original, enhanced) + (if Compatible(original(ms[i]), enhanced(ms[i])) then 0 else 1)
  {
    assert ms[..i + 1][..i] == ms[..i];
    assert ms[..i + 1][i] == ms[i];
    if !Compatible(original(ms[i]), enhanced(ms[i])) {
      var added := after[|start|..];
      assert added[..|added| - 1] == before[|start|..];
      assert added[|added| - 1] == after[|after| - 1];
    }
  }

  class CompatibilityChecker {
    const methodsToCheck: seq<string>
    var compatibilityIssues: seq<string>

    constructor ()
      ensures methodsToCheck == ["get_accounts", "get_transactions", "get_budgets",
                                 "get_goals", "get_transaction_categories", "get_bills"]
      ensures compatibilityIssues == []
    {
      methodsToCheck := ["get_accounts", "get_transactions", "get_budgets",
                         "get_goals", "get_transaction_categories", "get_bills"];
      compatibilityIssues := [];
    }

    /** `check_method_compatibility`: true iff the comparison found no
        issue; the issues found are appended to `compatibility_issues`. */
    method CheckMethodCompatibility(methodName: string, original: Outcome<Json>, enhanced: Outcome<Json>)
      returns (compatible: bool)
      modifies this`compatibilityIssues
      ensures compatible <==> Compatible(original, enhanced)
      ensures compatible ==> compatibilityIssues == old(compatibilityIssues)
      ensures !compatible ==> |compatibilityIssues| == |old(compatibilityIssues)| + 1
      ensures old(compatibilityIssues) <= compatibilityIssues
      ensures original.Returned? != enhanced.Returned? ==>
        compatibilityIssues == old(compatibilityIssues) + [MismatchIssue(methodName, original, enhanced)]
      ensures original.Returned? && enhanced.Returned? && !compatible ==>
        exists listed :: Lists(listed, ExtractFields(original.value, "") - ExtractFields(enhanced.value, ""))
                         && compatibilityIssues == old(compatibilityIssues) + [MissingIssue(methodName, listed)]
      ensures !compatible ==>
        |old(compatibilityIssues)| < |compatibilityIssues|
        && IssueFor(methodName, original, enhanced, compatibilityIssues[|compatibilityIssues| - 1])
    {
      var issues := CompareResults(methodName, original, enhanced);
      if issues != [] {
        compatibilityIssues := compatibilityIssues + issues;
      }
      compatible := |issues| == 0;
    }

    /** The loop of `main`: every listed method is checked, and the run is
        compatible iff no issue was added. */
    /** One round of the loop in `check_all_methods`: the method at index
        `i` is checked and its issue, if any, extends the issues added so far. */
    method CheckNext(i: nat, original: string -> Outcome<Json>, enhanced: string -> Outcome<Json>, ghost start: seq<string>)
      returns (compatible: bool)
      requires i < |methodsToCheck| && start <= compatibilityIssues
      requires IssuesFor(methodsToCheck[..i], original, enhanced, compatibilityIssues[|start|..])
      modifies this`compatibilityIssues
      ensures compatible <==> Compatible(original(methodsToCheck[i]), enhanced(methodsToCheck[i]))
      ensures start <= compatibilityIssues
      ensures IssuesFor(methodsToCheck[..i + 1], original, enhanced, compatibilityIssues[|start|..])
      ensures Incompatible(methodsToCheck[..i + 1], original, enhanced) ==
        Incompatible(methodsToCheck[..i], original, enhanced) + (if compatible then 0 else 1)
    {
      var m := methodsToCheck[i];
      ghost var before := compatibilityIssues;
      compatible := CheckMethodCompatibility(m, original(m), enhanced(m));
      IssuesStep(methodsToCheck, i, original, enhanced, start, before, compatibilityIssues);
    }

    method CheckAll(original: string -> Outcome<Json>, enhanced: string -> Outcome<Json>)
      returns (allCompatible: bool)
      modifies this`compatibilityIssues
      ensures allCompatible <==> compatibilityIssues == old(compatibilityIssues)
      ensures allCompatible <==> forall m :: m in methodsToCheck ==> Compatible(original(m), enhanced(m))
      ensures |compatibilityIssues| <= |old(compatibilityIssues)| + |methodsToCheck|
      ensures old(compatibilityIssues) <= compatibilityIssues
      ensures IssuesFor(methodsToCheck, original, enhanced, compatibilityIssues[|old(compatibilityIssues)|..])
      ensures |compatibilityIssues| == |old(compatibilityIssues)| + Incompatible(methodsToCheck, original, enhanced)
    {
      allCompatible := true;
      var i := 0;
      while i < |methodsToCheck|
        invariant 0 <= i <= |methodsToCheck|
        invariant old(compatibilityIssues) <= compatibilityIssues
        invariant allCompatible <==> Incompatible(methodsToCheck[..i], original, enhanced) == 0
        invariant IssuesFor(methodsToCheck[..i], original, enhanced, compatibilityIssues[|old(compatibilityIssues)|..])
      {
        var compatible := CheckNext(i, original, enhanced, old(compatibilityIssues));
        if !compatible {
          allCompatible := false;
        }
        i := i + 1;
      }
      assert methodsToCheck[..i] == methodsToCheck;
      IssuesForCount(methodsToCheck, original, enhanced, compatibilityIssues[|old(compatibilityIssues)|..]);
      IncompatibleBounds(methodsToCheck, original, enhanced);
    }

    /** `generate_report`. */
    method GenerateReport() returns (report: string)
      ensures report == Report(compatibilityIssues)
    {
      if |compatibilityIssues| == 0 {
        return AllCompatibleMessage;
      }
      report := IssuesHeader;
      var i := 0;
      while i < |compatibilityIssues|
        invariant 0 <= i <= |compatibilityIssues|
        invariant report == IssuesHeader + Bullets(compatibilityIssues[..i])
      {
        assert compatibilityIssues[..i + 1][..i] == compatibilityIssues[..i];
        report := report + "\U{2022} " + compatibilityIssues[i] + "\n";
        i := i + 1;
      }
      assert compatibilityIssues[..i] == compatibilityIssues;
    }
  }
}
