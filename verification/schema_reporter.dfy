/** The schema reporter: integer statistics of an introspected GraphQL
    schema, the compatibility verdict of an operation validated against it,
    the recommendation list built from a report, the deprecated-fields
    section of the markdown summary, and the change test of the monitor
    loop. */
module SchemaReporter {
  import opened Json
  import opened Text

  // ---------------------------------------------------------------------
  // Introspection data

  /** A key of a decoded dict: missing, present with `None`, or present
      with a value. `d.get(key, default)` tells the three apart. */
  datatype Attr<T> = Absent | Null | Present(value: T)

  datatype FieldDef = FieldDef(name: Attr<string>, isDeprecated: Attr<bool>, deprecationReason: Attr<string>)

  datatype TypeDef = TypeDef(kind: Attr<string>, name: Attr<string>, fields: Attr<seq<FieldDef>>)

  /** `d.get(key, default)` on a string-valued key: the default when the key
      is missing, `None` when it holds `None`, the stored string otherwise. */
  function AttrOr(a: Attr<string>, default: string): (r: Option<string>)
    ensures r.None? <==> a.Null?
    ensures a.Absent? ==> r == Some(default)
    ensures a.Present? ==> r == Some(a.value)
  {
    match a
    case Absent => Some(default)
    case Null => None
    case Present(s) => Some(s)
  }

  /** `type_def.get("kind", "UNKNOWN")`. */
  function KindKey(t: TypeDef): Option<string>
  {
    AttrOr(t.kind, "UNKNOWN")
  }

  /** `type_def.get("name", "Unknown")`. */
  function TypeName(t: TypeDef): Option<string>
  {
    AttrOr(t.name, "Unknown")
  }

  /** `if fields:` after `fields = type_def.get("fields", [])`: a missing
      key, `None` and an empty list are all false. */
  predicate HasFields(t: TypeDef)
  {
    t.fields.Present? && t.fields.value != []
  }

  function FieldCount(t: TypeDef): nat
  {
    if HasFields(t) then |t.fields.value| else 0
  }

  /** `field.get("isDeprecated", False)` is true. */
  predicate IsDeprecated(f: FieldDef)
  {
    f.isDeprecated == Present(true)
  }

  datatype DeprecatedItem = DeprecatedItem(typeName: Option<string>, field: Option<string>, reason: Option<string>)

  datatype LargeType = LargeType(name: Option<string>, fieldCount: nat)

  /** The integer parts of `_analyze_schema_structure`'s result (the average
      is left out). */
  datatype Analysis = Analysis(
    totalTypes: nat,
    typeBreakdown: map<Option<string>, nat>,
    typesWithFields: nat,
    maxFields: nat,
    minFields: nat,
    deprecatedItems: seq<DeprecatedItem>,
    largeTypes: seq<LargeType>)

  // ---------------------------------------------------------------------
  // Specification of the analysis

  function Kinds(types: seq<TypeDef>): (r: seq<Option<string>>)
    ensures |r| == |types|
  {
    if types == [] then [] else Kinds(types[..|types| - 1]) + [KindKey(types[|types| - 1])]
  }

  /** `type_kinds[kind] = type_kinds.get(kind, 0) + 1` over the types. */
  function KindCounts(types: seq<TypeDef>): map<Option<string>, nat>
  {
    if types == [] then map[]
    else
      var m := KindCounts(types[..|types| - 1]);
      var k := KindKey(types[|types| - 1]);
      m[k := (if k in m then m[k] else 0) + 1]
  }

  /** `field_counts[type_name] = len(fields)`: a later type with the same
      name overwrites an earlier one. */
  function FieldCounts(types: seq<TypeDef>): map<Option<string>, nat>
  {
    if types == [] then map[]
    else
      var m := FieldCounts(types[..|types| - 1]);
      var t := types[|types| - 1];
      if HasFields(t) then m[TypeName(t) := FieldCount(t)] else m
  }

  function LargeTypes(types: seq<TypeDef>): seq<LargeType>
  {
    if types == [] then []
    else
      var t := types[|types| - 1];
      LargeTypes(types[..|types| - 1]) + (if FieldCount(t) > 20 then [LargeType(TypeName(t), FieldCount(t))] else [])
  }

  /** `field["name"]` raises `KeyError` for a deprecated field without a
      name. */
  predicate FieldsRaise(fields: seq<FieldDef>)
  {
    exists j :: 0 <= j < |fields| && IsDeprecated(fields[j]) && fields[j].name.Absent?
  }

  predicate NameRaises(types: seq<TypeDef>)
  {
    exists i :: 0 <= i < |types| && HasFields(types[i]) && FieldsRaise(types[i].fields.value)
  }

  /** The entry of a deprecated field: the reason defaults to
      "No reason provided" only when the key is missing. */
  function ItemOf(typeName: Option<string>, f: FieldDef): (r: DeprecatedItem)
    requires !f.name.Absent?
    ensures r.field.None? <==> f.name.Null?
    ensures f.deprecationReason.Absent? ==> r.reason == Some("No reason provided")
    ensures f.deprecationReason.Present? ==> r.reason == Some(f.deprecationReason.value)
  {
    DeprecatedItem(typeName, if f.name.Present? then Some(f.name.value) else None,
                   AttrOr(f.deprecationReason, "No reason provided"))
  }

  function DeprecatedOf(typeName: Option<string>, fields: seq<FieldDef>): seq<DeprecatedItem>
    requires !FieldsRaise(fields)
  {
    if fields == [] then []
    else
      var front, f := fields[..|fields| - 1], fields[|fields| - 1];
      DeprecatedOf(typeName, front) + (if IsDeprecated(f) then [ItemOf(typeName, f)] else [])
  }

  function DeprecatedItems(types: seq<TypeDef>): seq<DeprecatedItem>
    requires !NameRaises(types)
  {
    if types == [] then []
    else
      var front, t := types[..|types| - 1], types[|types| - 1];
      DeprecatedItems(front) + (if HasFields(t) then DeprecatedOf(TypeName(t), t.fields.value) else [])
  }

  /** `max` and `min` of the field counts, 0 and 0 when there are none. */
  ghost predicate IsExtremes(m: map<Option<string>, nat>, max: nat, min: nat)
  {
    if m == map[] then max == 0 && min == 0
    else
      (exists k :: k in m && m[k] == max) && (exists k :: k in m && m[k] == min) &&
      forall k :: k in m ==> min <= m[k] <= max
  }

  // ---------------------------------------------------------------------
  // Properties of the analysis

  /** The breakdown is the multiset of the types' kinds, a missing kind
      counted as "UNKNOWN": its counts add up to the number of types. */
  lemma {:induction false} BreakdownIsKindMultiset(types: seq<TypeDef>)
    ensures forall k :: k in KindCounts(types) <==> k in multiset(Kinds(types))
    ensures forall k :: k in KindCounts(types) ==> KindCounts(types)[k] == multiset(Kinds(types))[k]
    ensures |multiset(Kinds(types))| == |types|
  {
    if types != [] {
      var front := types[..|types| - 1];
      BreakdownIsKindMultiset(front);
      assert Kinds(types) == Kinds(front) + [KindKey(types[|types| - 1])];
    }
  }

  /** No more types with fields than types, and every recorded count is
      positive. */
  lemma {:induction false} FieldCountsBounds(types: seq<TypeDef>)
    ensures |FieldCounts(types)| <= |types|
    ensures forall k :: k in FieldCounts(types) ==> FieldCounts(types)[k] > 0
  {
    if types != [] {
      var front := types[..|types| - 1];
      FieldCountsBounds(front);
      var m := FieldCounts(front);
      var t := types[|types| - 1];
      if HasFields(t) {
        assert m[TypeName(t) := FieldCount(t)].Keys == m.Keys + {TypeName(t)};
      }
    }
  }

  /** The extremes of positive counts: 0 and 0 on no types with fields,
      otherwise 1 <= min <= max. */
  lemma ExtremesOrder(types: seq<TypeDef>, max: nat, min: nat)
    requires IsExtremes(FieldCounts(types), max, min)
    ensures FieldCounts(types) == map[] ==> max == 0 && min == 0
    ensures FieldCounts(types) != map[] ==> 1 <= min <= max
  {
    FieldCountsBounds(types);
    var m := FieldCounts(types);
    if m != map[] {
      var k :| k in m && m[k] == min;
    }
  }

  /** Large types keep the order of the input. */
  lemma {:induction false} LargeTypesAppend(a: seq<TypeDef>, b: seq<TypeDef>)
    ensures LargeTypes(a + b) == LargeTypes(a) + LargeTypes(b)
    decreases |b|
  {
    if b == [] {
      assert a + b == a;
    } else {
      var front := b[..|b| - 1];
      LargeTypesAppend(a, front);
      assert (a + b)[..|a + b| - 1] == a + front;
      assert (a + b)[|a + b| - 1] == b[|b| - 1];
    }
  }

  /** `x` is the entry a type with more than 20 fields contributes. */
  predicate LargeEntry(t: TypeDef, x: LargeType)
  {
    FieldCount(t) > 20 && x == LargeType(TypeName(t), FieldCount(t))
  }

  /** Exactly the types with more than 20 fields are large. */
  lemma {:induction false} LargeTypesMember(types: seq<TypeDef>, x: LargeType)
    ensures x in LargeTypes(types) <==> exists i :: 0 <= i < |types| && LargeEntry(types[i], x)
  {
    if types != [] {
      var front, t := types[..|types| - 1], types[|types| - 1];
      assert forall i :: 0 <= i < |front| ==> front[i] == types[i];
      LargeTypesMember(front, x);
      var here := if FieldCount(t) > 20 then [LargeType(TypeName(t), FieldCount(t))] else [];
      assert LargeTypes(types) == LargeTypes(front) + here;
      assert x in here <==> LargeEntry(t, x);
      if x in LargeTypes(front) {
        var i :| 0 <= i < |front| && LargeEntry(front[i], x);
        assert LargeEntry(types[i], x);
      } else if x in here {
        assert LargeEntry(types[|types| - 1], x);
      }
      forall i | 0 <= i < |types| && LargeEntry(types[i], x)
        ensures x in LargeTypes(front) + here
      {
        if i < |front| {
          assert LargeEntry(front[i], x);
        }
      }
    }
  }

  /** One entry per deprecated field of the type, in field order. */
  lemma {:induction false} DeprecatedOfMember(typeName: Option<string>, fields: seq<FieldDef>, x: DeprecatedItem)
    requires !FieldsRaise(fields)
    ensures x in DeprecatedOf(typeName, fields) <==>
      exists j :: 0 <= j < |fields| && IsDeprecated(fields[j]) && x == ItemOf(typeName, fields[j])
  {
    if fields != [] {
      var front, f := fields[..|fields| - 1], fields[|fields| - 1];
      assert forall j :: 0 <= j < |front| ==> front[j] == fields[j];
      DeprecatedOfMember(typeName, front, x);
      var here := if IsDeprecated(f) then [ItemOf(typeName, f)] else [];
      assert DeprecatedOf(typeName, fields) == DeprecatedOf(typeName, front) + here;
      if x in DeprecatedOf(typeName, front) {
        var j :| 0 <= j < |front| && IsDeprecated(front[j]) && x == ItemOf(typeName, front[j]);
        assert fields[j] == front[j];
      } else if x in here {
        assert fields[|fields| - 1] == f;
      }
      forall j | 0 <= j < |fields| && IsDeprecated(fields[j]) && x == ItemOf(typeName, fields[j])
        ensures x in DeprecatedOf(typeName, front) + here
      {
        if j < |front| {
          assert front[j] == fields[j];
        }
      }
    }
  }

  /** The number of deprecated fields. */
  function CountDeprecated(fields: seq<FieldDef>): nat
  {
    if fields == [] then 0
    else CountDeprecated(fields[..|fields| - 1]) + (if IsDeprecated(fields[|fields| - 1]) then 1 else 0)
  }

  /** As many entries as there are deprecated fields. */
  lemma {:induction false} DeprecatedOfCount(typeName: Option<string>, fields: seq<FieldDef>)
    requires !FieldsRaise(fields)
    ensures |DeprecatedOf(typeName, fields)| == CountDeprecated(fields)
  {
    if fields != [] {
      var front := fields[..|fields| - 1];
      assert forall j :: 0 <= j < |front| ==> front[j] == fields[j];
      DeprecatedOfCount(typeName, front);
    }
  }

  // ---------------------------------------------------------------------
  // The analysis loop

  /** The kind, field-count and large-type accumulators after one more
      type. */
  lemma TypeStep(types: seq<TypeDef>, i: nat)
    requires i < |types|
    ensures types[..i + 1][..i] == types[..i] && types[..i + 1][i] == types[i]
  {
  }

  lemma KindStep(types: seq<TypeDef>, i: nat)
    requires i < |types|
    ensures var m, k := KindCounts(types[..i]), KindKey(types[i]);
            KindCounts(types[..i + 1]) == m[k := (if k in m then m[k] else 0) + 1]
  {
    TypeStep(types, i);
  }

  lemma FieldCountStep(types: seq<TypeDef>, i: nat)
    requires i < |types|
    ensures var t := types[i];
            FieldCounts(types[..i + 1]) == (if HasFields(t) then FieldCounts(types[..i])[TypeName(t) := FieldCount(t)] else FieldCounts(types[..i]))
  {
    TypeStep(types, i);
  }

  lemma LargeStep(types: seq<TypeDef>, i: nat)
    requires i < |types|
    ensures var t := types[i];
            LargeTypes(types[..i + 1]) == LargeTypes(types[..i]) + (if FieldCount(t) > 20 then [LargeType(TypeName(t), FieldCount(t))] else [])
  {
    TypeStep(types, i);
  }

  /** No raise so far and none in the next type: none up to it. */
  lemma NoRaiseStep(types: seq<TypeDef>, i: nat)
    requires i < |types| && !NameRaises(types[..i])
    requires HasFields(types[i]) ==> !FieldsRaise(types[i].fields.value)
    ensures !NameRaises(types[..i + 1])
  {
    var upto := types[..i + 1];
    forall k | 0 <= k < |upto| && HasFields(upto[k])
      ensures !FieldsRaise(upto[k].fields.value)
    {
      if k < i {
        assert upto[k] == types[..i][k];
      }
    }
  }

  lemma DeprecatedStep(types: seq<TypeDef>, i: nat)
    requires i < |types| && !NameRaises(types[..i + 1])
    ensures !NameRaises(types[..i])
    ensures HasFields(types[i]) ==> !FieldsRaise(types[i].fields.value)
    ensures DeprecatedItems(types[..i + 1]) ==
      DeprecatedItems(types[..i]) + (if HasFields(types[i]) then DeprecatedOf(TypeName(types[i]), types[i].fields.value) else [])
  {
    assert types[..i + 1][..i] == types[..i];
    assert types[..i + 1][i] == types[i];
  }

  lemma FieldStep(typeName: Option<string>, fields: seq<FieldDef>, j: nat)
    requires j < |fields| && !FieldsRaise(fields[..j + 1])
    ensures !FieldsRaise(fields[..j])
    ensures DeprecatedOf(typeName, fields[..j + 1]) ==
      DeprecatedOf(typeName, fields[..j]) + (if IsDeprecated(fields[j]) then [ItemOf(typeName, fields[j])] else [])
  {
    assert fields[..j + 1][..j] == fields[..j];
    assert fields[..j + 1][j] == fields[j];
  }

  /** A type with fields one of which raises makes the whole analysis
      raise. */
  lemma RaiseWitness(types: seq<TypeDef>, i: nat)
    requires i < |types| && HasFields(types[i]) && FieldsRaise(types[i].fields.value)
    ensures NameRaises(types)
  {
  }

  /** The inner loop of the analysis: the deprecated fields of one type
      appended to `deprecated`, or `KeyError('name')` at the first
      deprecated field without a name. */
  method CollectDeprecated(typeName: Option<string>, fields: seq<FieldDef>, deprecated: seq<DeprecatedItem>)
    returns (r: Outcome<seq<DeprecatedItem>>)
    ensures r.Raised? <==> FieldsRaise(fields)
    ensures r.Raised? ==> r.message == "'name'"
    ensures r.Returned? ==> !FieldsRaise(fields) && r.value == deprecated + DeprecatedOf(typeName, fields)
  {
    var acc := deprecated;
    var j := 0;
    while j < |fields|
      invariant 0 <= j <= |fields|
      invariant !FieldsRaise(fields[..j])
      invariant acc == deprecated + DeprecatedOf(typeName, fields[..j])
    {
      var f := fields[j];
      if IsDeprecated(f) {
        if f.name.Absent? {
          assert fields[j] == f;
          return Raised("'name'");
        }
      }
      FieldStep(typeName, fields, j);
      if IsDeprecated(f) {
        acc := acc + [ItemOf(typeName, f)];
      }
      j := j + 1;
    }
    assert fields[..j] == fields;
    return Returned(acc);
  }

  /** `max(values)` and `min(values)` of the field counts, or 0 and 0. */
  method Extremes(m: map<Option<string>, nat>) returns (max: nat, min: nat)
    ensures IsExtremes(m, max, min)
  {
    if m == map[] {
      return 0, 0;
    }
    var first :| first in m;
    max, min := m[first], m[first];
    var rest := m.Keys - {first};
    while rest != {}
      invariant rest <= m.Keys
      invariant exists k :: k in m && m[k] == max
      invariant exists k :: k in m && m[k] == min
      invariant forall k :: k in m && k !in rest ==> min <= m[k] <= max
      decreases |rest|
    {
      var k :| k in rest;
      if m[k] > max {
        max := m[k];
      }
      if m[k] < min {
        min := m[k];
      }
      rest := rest - {k};
    }
  }

  /** `_analyze_schema_structure` on the schema's type list: it raises
      `KeyError('name')` on a deprecated field without a name, and
      otherwise returns the statistics the specification functions give. */
  method AnalyzeSchemaStructure(types: seq<TypeDef>) returns (r: Outcome<Analysis>)
    ensures r.Raised? <==> NameRaises(types)
    ensures r.Raised? ==> r.message == "'name'"
    ensures r.Returned? ==>
      var a := r.value;
      && !NameRaises(types)
      && a.totalTypes == |types|
      && a.typeBreakdown == KindCounts(types)
      && a.typesWithFields == |FieldCounts(types)|
      && IsExtremes(FieldCounts(types), a.maxFields, a.minFields)
      && a.deprecatedItems == DeprecatedItems(types)
      && a.largeTypes == LargeTypes(types)
  {
    var typeKinds: map<Option<string>, nat> := map[];
    var fieldCounts: map<Option<string>, nat> := map[];
    var deprecated: seq<DeprecatedItem> := [];
    var large: seq<LargeType> := [];
    var i := 0;
    while i < |types|
      invariant 0 <= i <= |types|
      invariant typeKinds == KindCounts(types[..i])
      invariant fieldCounts == FieldCounts(types[..i])
      invariant large == LargeTypes(types[..i])
      invariant !NameRaises(types[..i])
      invariant deprecated == DeprecatedItems(types[..i])
    {
      var t := types[i];
      var kind := KindKey(t);
      KindStep(types, i);
      typeKinds := typeKinds[kind := (if kind in typeKinds then typeKinds[kind] else 0) + 1];
      assert typeKinds == KindCounts(types[..i + 1]);
      var typeName := TypeName(t);
      FieldCountStep(types, i);
      LargeStep(types, i);
      if HasFields(t) {
        var fields := t.fields.value;
        fieldCounts := fieldCounts[typeName := |fields|];
        if |fields| > 20 {
          large := large + [LargeType(typeName, |fields|)];
        }
        var collected := CollectDeprecated(typeName, fields, deprecated);
        if collected.Raised? {
          RaiseWitness(types, i);
          return Raised(collected.message);
        }
        deprecated := collected.value;
      }
      assert fieldCounts == FieldCounts(types[..i + 1]);
      assert large == LargeTypes(types[..i + 1]);
      NoRaiseStep(types, i);
      DeprecatedStep(types, i);
      i := i + 1;
    }
    assert types[..i] == types;
    var max, min := Extremes(fieldCounts);
    r := Returned(Analysis(|types|, typeKinds, |fieldCounts|, max, min, deprecated, large));
  }

  // ---------------------------------------------------------------------
  // Operation compatibility

  /** The parts of `validate_against_schema`'s result the verdict reads;
      deprecated fields are given by their names. */
  datatype Validation = Validation(
    requiredMissing: seq<string>,
    optionalAvailable: seq<string>,
    optionalMissing: seq<string>,
    deprecatedFields: seq<string>,
    alternatives: map<string, seq<string>>)

  datatype OpStatus = OpCompatible | OpBroken | OpError

  datatype Compatibility =
    | Checked(status: OpStatus, requiredFieldsOk: bool, optionalFieldsAvailable: nat,
              optionalFieldsMissing: nat, deprecatedFieldsInUse: nat,
              issues: seq<string>, warnings: seq<string>)
    | Failed(error: string, issues: seq<string>)
  {
    /** `compat.get("status")`. */
    function Status(): OpStatus
    {
      if Failed? then OpError else status
    }

    /** `compat.get("deprecated_fields_in_use", 0)`. */
    function DeprecatedInUse(): nat
    {
      if Failed? then 0 else deprecatedFieldsInUse
    }
  }

  /** `alternative_fields.get(field, [])` is empty. */
  predicate NoAlternative(alternatives: map<string, seq<string>>, f: string)
  {
    f !in alternatives || alternatives[f] == []
  }

  /** The required fields that are missing and have no alternative, in
      order. */
  function WithoutAlternatives(missing: seq<string>, alternatives: map<string, seq<string>>): (r: seq<string>)
    ensures forall f :: f in r <==> f in missing && NoAlternative(alternatives, f)
  {
    if missing == [] then []
    else
      var front, f := missing[..|missing| - 1], missing[|missing| - 1];
      WithoutAlternatives(front, alternatives) + (if NoAlternative(alternatives, f) then [f] else [])
  }

  /** `_test_operation_compatibility` given the outcome of the validation:
      broken iff a missing required field has no alternative, an error with
      one issue when the validation raised. */
  function TestOperationCompatibility(v: Outcome<Validation>): (c: Compatibility)
    ensures c.Status() == OpError <==> v.Raised?
    ensures v.Raised? ==> c.issues == ["Failed to validate operation: " + v.message]
    ensures v.Returned? ==>
      (c.Status() == OpBroken <==> exists f :: f in v.value.requiredMissing && NoAlternative(v.value.alternatives, f))
    ensures v.Returned? ==> (c.requiredFieldsOk <==> v.value.requiredMissing == [])
    ensures v.Returned? ==> (c.issues != [] <==> c.Status() == OpBroken)
    ensures |c.issues| <= 1
    ensures v.Returned? ==>
      |c.warnings| == (if v.value.optionalMissing != [] then 1 else 0) + (if v.value.deprecatedFields != [] then 1 else 0)
  {
    match v
    case Raised(e) => Failed(e, ["Failed to validate operation: " + e])
    case Returned(val) =>
      var broken := if val.requiredMissing != [] then WithoutAlternatives(val.requiredMissing, val.alternatives) else [];
      assert broken != [] ==> broken[0] in broken;
      Checked(
        if broken != [] then OpBroken else OpCompatible,
        val.requiredMissing == [],
        |val.optionalAvailable|, |val.optionalMissing|, |val.deprecatedFields|,
        if broken != [] then ["Required fields missing without alternatives: " + ListRepr(broken)] else [],
        (if val.optionalMissing != [] then ["Optional fields missing: " + ListRepr(val.optionalMissing)] else [])
          + (if val.deprecatedFields != [] then ["Using deprecated fields: " + ListRepr(val.deprecatedFields)] else []))
  }

  /** Missing required fields that all have alternatives leave the
      operation compatible but flag its required fields. */
  lemma AlternativesKeepCompatible(val: Validation)
    requires val.requiredMissing != []
    requires forall f :: f in val.requiredMissing ==> !NoAlternative(val.alternatives, f)
    ensures TestOperationCompatibility(Returned(val)).Status() == OpCompatible
    ensures !TestOperationCompatibility(Returned(val)).requiredFieldsOk
  {
  }

  // ---------------------------------------------------------------------
  // Recommendations

  /** The report as the recommendations read it: the operations in
      insertion order, the schema diff's summary when a (non-empty) diff is
      present, and the large types of the analysis. */
  datatype ReportData = ReportData(
    operations: seq<(string, Compatibility)>,
    schemaDiff: Option<seq<(string, int)>>,
    largeTypes: seq<LargeType>)

  /** `summary.get(key, 0)`. */
  function SummaryValue(summary: seq<(string, int)>, key: string): int
  {
    if summary == [] then 0
    else if summary[0].0 == key then summary[0].1
    else SummaryValue(summary[1..], key)
  }

  // The emoji that lead the entries; each entry is its emoji followed by
  // its text.
  const Cycle: char := '\U{1F504}'
  const Siren: char := '\U{1F6A8}'
  const WarningSign: char := '\U{26A0}'
  const Memo: char := '\U{1F4DD}'
  const Sparkles: char := '\U{2728}'
  const Target: char := '\U{1F3AF}'
  const CheckMark: char := '\U{2705}'

  function UpdateRec(opName: string): string
  {
    [Cycle] + " Update " + opName + " to avoid deprecated fields"
  }

  const UrgentPrefix: string := [Siren] + " URGENT: Fix broken operation "

  function UrgentRec(opName: string): string
  {
    UrgentPrefix + opName
  }

  const FieldsRemovedRec: string := [WarningSign, '\U{FE0F}'] + " Fields were removed - review operation queries for compatibility"
  const FieldsDeprecatedRec: string := [Memo] + " Plan migration away from newly deprecated fields"
  const FieldsAddedRec: string := [Sparkles] + " Consider using new fields for enhanced functionality"
  const LargeHead: string := [Target] + " Optimize queries for large types: ["
  const HealthyRec: string := [CheckMark] + " No specific recommendations - schema is healthy"

  function OperationRecs(ops: seq<(string, Compatibility)>): seq<string>
  {
    if ops == [] then []
    else
      var (name, c) := ops[|ops| - 1];
      OperationRecs(ops[..|ops| - 1])
        + (if c.DeprecatedInUse() > 0 then [UpdateRec(name)] else [])
        + (if c.Status() == OpBroken then [UrgentRec(name)] else [])
  }

  function DiffRecs(schemaDiff: Option<seq<(string, int)>>): seq<string>
  {
    match schemaDiff
    case None => []
    case Some(summary) =>
      (if SummaryValue(summary, "fields_removed") > 0 then [FieldsRemovedRec] else [])
      + (if SummaryValue(summary, "fields_deprecated") > 0 then [FieldsDeprecatedRec] else [])
      + (if SummaryValue(summary, "fields_added") > 0 then [FieldsAddedRec] else [])
  }

  /** `repr` of a type name: a quoted string or `None`. */
  function NameRepr(name: Option<string>): string
  {
    match name
    case Some(s) => Quote(s)
    case None => "None"
  }

  function JoinNames(ts: seq<LargeType>): string
  {
    if ts == [] then ""
    else if |ts| == 1 then NameRepr(ts[0].name)
    else NameRepr(ts[0].name) + ", " + JoinNames(ts[1..])
  }

  function Min(a: nat, b: nat): nat
  {
    if a <= b then a else b
  }

  function LargeRec(ts: seq<LargeType>): seq<string>
  {
    if ts == [] then []
    else [LargeHead + JoinNames(ts[..Min(3, |ts|)]) + "]"]
  }

  /** The list `_generate_recommendations` returns. */
  function Recommendations(report: ReportData): seq<string>
  {
    var recs := OperationRecs(report.operations) + DiffRecs(report.schemaDiff) + LargeRec(report.largeTypes);
    if recs == [] then [HealthyRec] else recs
  }

  /** The per-operation loop of `_generate_recommendations`. */
  method OperationRecommendations(ops: seq<(string, Compatibility)>) returns (recs: seq<string>)
    ensures recs == OperationRecs(ops)
  {
    recs := [];
    var i := 0;
    while i < |ops|
      invariant 0 <= i <= |ops|
      invariant recs == OperationRecs(ops[..i])
    {
      assert ops[..i + 1][..i] == ops[..i];
      var (opName, compat) := ops[i];
      if compat.DeprecatedInUse() > 0 {
        recs := recs + [UpdateRec(opName)];
      }
      if compat.Status() == OpBroken {
        recs := recs + [UrgentRec(opName)];
      }
      i := i + 1;
    }
    assert ops[..i] == ops;
  }

  /** `_generate_recommendations`. */
  method GenerateRecommendations(report: ReportData) returns (recs: seq<string>)
    ensures recs == Recommendations(report)
  {
    recs := OperationRecommendations(report.operations);
    match report.schemaDiff {
      case Some(summary) =>
        if SummaryValue(summary, "fields_removed") > 0 {
          recs := recs + [FieldsRemovedRec];
        }
        if SummaryValue(summary, "fields_deprecated") > 0 {
          recs := recs + [FieldsDeprecatedRec];
        }
        if SummaryValue(summary, "fields_added") > 0 {
          recs := recs + [FieldsAddedRec];
        }
      case None =>
    }
    assert recs == OperationRecs(report.operations) + DiffRecs(report.schemaDiff);
    var large := report.largeTypes;
    if large != [] {
      recs := recs + [LargeHead + JoinNames(large[..Min(3, |large|)]) + "]"];
    }
    assert recs == OperationRecs(report.operations) + DiffRecs(report.schemaDiff) + LargeRec(large);
    if recs == [] {
      recs := recs + [HealthyRec];
    }
  }

  predicate IsUrgent(s: string)
  {
    UrgentPrefix <= s
  }

  /** The entry's first character is its emoji. */
  predicate Leads(s: string, c: char)
  {
    s != [] && s[0] == c
  }

  /** An entry led by an emoji other than the URGENT siren and the healthy
      check mark is neither URGENT nor the healthy message. */
  lemma OtherLead(s: string, c: char)
    requires Leads(s, c) && c != Siren && c != CheckMark
    ensures !IsUrgent(s) && s != HealthyRec
  {
    assert UrgentPrefix[0] == Siren;
    assert HealthyRec[0] == CheckMark;
  }

  lemma HealthyNotUrgent()
    ensures !IsUrgent(HealthyRec)
  {
    assert HealthyRec[0] != UrgentPrefix[0];
  }

  function UrgentCount(recs: seq<string>): nat
  {
    if recs == [] then 0
    else UrgentCount(recs[..|recs| - 1]) + (if IsUrgent(recs[|recs| - 1]) then 1 else 0)
  }

  function BrokenCount(ops: seq<(string, Compatibility)>): nat
  {
    if ops == [] then 0
    else BrokenCount(ops[..|ops| - 1]) + (if ops[|ops| - 1].1.Status() == OpBroken then 1 else 0)
  }

  lemma {:induction false} UrgentCountAppend(a: seq<string>, b: seq<string>)
    ensures UrgentCount(a + b) == UrgentCount(a) + UrgentCount(b)
    decreases |b|
  {
    if b == [] {
      assert a + b == a;
    } else {
      var front := b[..|b| - 1];
      UrgentCountAppend(a, front);
      assert (a + b)[..|a + b| - 1] == a + front;
      assert (a + b)[|a + b| - 1] == b[|b| - 1];
    }
  }

  lemma {:induction false} NoUrgentCount(recs: seq<string>)
    requires forall k :: 0 <= k < |recs| ==> !IsUrgent(recs[k])
    ensures UrgentCount(recs) == 0
  {
    if recs != [] {
      NoUrgentCount(recs[..|recs| - 1]);
    }
  }

  /** Each per-operation entry is an update entry or an URGENT entry. */
  lemma {:induction false} OperationRecsLead(ops: seq<(string, Compatibility)>, k: nat)
    requires k < |OperationRecs(ops)|
    ensures Leads(OperationRecs(ops)[k], Cycle) || Leads(OperationRecs(ops)[k], Siren)
  {
    var front := ops[..|ops| - 1];
    var (name, c) := ops[|ops| - 1];
    var a := OperationRecs(front);
    var u := if c.DeprecatedInUse() > 0 then [UpdateRec(name)] else [];
    var g := if c.Status() == OpBroken then [UrgentRec(name)] else [];
    assert OperationRecs(ops) == a + u + g;
    if k < |a| {
      OperationRecsLead(front, k);
      assert (a + u + g)[k] == a[k];
    } else if k < |a| + |u| {
      assert (a + u + g)[k] == UpdateRec(name);
      assert UpdateRec(name)[0] == Cycle;
    } else {
      assert (a + u + g)[k] == UrgentRec(name);
      assert UrgentRec(name)[0] == UrgentPrefix[0] == Siren;
    }
  }

  /** The schema-diff and large-type entries carry their own emoji. */
  lemma OtherRecsLead(report: ReportData, k: nat)
    requires k < |DiffRecs(report.schemaDiff) + LargeRec(report.largeTypes)|
    ensures var s := (DiffRecs(report.schemaDiff) + LargeRec(report.largeTypes))[k];
            Leads(s, WarningSign) || Leads(s, Memo) || Leads(s, Sparkles) || Leads(s, Target)
  {
    var d, l := DiffRecs(report.schemaDiff), LargeRec(report.largeTypes);
    if k < |d| {
      assert (d + l)[k] == d[k];
      assert d[k] in d;
      assert d[k] == FieldsRemovedRec || d[k] == FieldsDeprecatedRec || d[k] == FieldsAddedRec;
      assert FieldsRemovedRec[0] == WarningSign;
      assert FieldsDeprecatedRec[0] == Memo;
      assert FieldsAddedRec[0] == Sparkles;
    } else {
      var ts := report.largeTypes;
      assert (d + l)[k] == l[0] == LargeHead + (JoinNames(ts[..Min(3, |ts|)]) + "]");
    }
  }

  lemma OtherRecsNotUrgent(report: ReportData)
    ensures UrgentCount(DiffRecs(report.schemaDiff) + LargeRec(report.largeTypes)) == 0
  {
    var rest := DiffRecs(report.schemaDiff) + LargeRec(report.largeTypes);
    forall k | 0 <= k < |rest|
      ensures !IsUrgent(rest[k])
    {
      OtherRecsLead(report, k);
      var s := rest[k];
      if Leads(s, WarningSign) {
        OtherLead(s, WarningSign);
      } else if Leads(s, Memo) {
        OtherLead(s, Memo);
      } else if Leads(s, Sparkles) {
        OtherLead(s, Sparkles);
      } else {
        OtherLead(s, Target);
      }
    }
    NoUrgentCount(rest);
  }

  /** Only the URGENT entries start with the URGENT prefix. */
  lemma {:induction false} OperationRecsUrgent(ops: seq<(string, Compatibility)>)
    ensures UrgentCount(OperationRecs(ops)) == BrokenCount(ops)
  {
    if ops != [] {
      var front := ops[..|ops| - 1];
      var (name, c) := ops[|ops| - 1];
      OperationRecsUrgent(front);
      var update := if c.DeprecatedInUse() > 0 then [UpdateRec(name)] else [];
      var urgent := if c.Status() == OpBroken then [UrgentRec(name)] else [];
      UrgentCountAppend(OperationRecs(front), update);
      UrgentCountAppend(OperationRecs(front) + update, urgent);
      if update != [] {
        OtherLead(UpdateRec(name), Cycle);
        assert UrgentCount(update) == UrgentCount([]) + 0;
      }
      if urgent != [] {
        assert UrgentCount(urgent) == UrgentCount([]) + 1;
      }
    }
  }

  /** One URGENT entry per broken operation. */
  lemma UrgentPerBroken(report: ReportData)
    ensures UrgentCount(Recommendations(report)) == BrokenCount(report.operations)
  {
    var ops := OperationRecs(report.operations);
    var rest := DiffRecs(report.schemaDiff) + LargeRec(report.largeTypes);
    OperationRecsUrgent(report.operations);
    OtherRecsNotUrgent(report);
    AppendAssoc(ops, DiffRecs(report.schemaDiff), LargeRec(report.largeTypes));
    UrgentCountAppend(ops, rest);
    if ops + rest == [] {
      HealthyNotUrgent();
      assert UrgentCount([HealthyRec]) == UrgentCount([]) + 0;
    }
  }

  /** No entry other than the fallback is the healthy message. */
  lemma NotHealthy(report: ReportData, k: nat)
    requires k < |OperationRecs(report.operations) + (DiffRecs(report.schemaDiff) + LargeRec(report.largeTypes))|
    ensures (OperationRecs(report.operations) + (DiffRecs(report.schemaDiff) + LargeRec(report.largeTypes)))[k] != HealthyRec
  {
    var a, rest := OperationRecs(report.operations), DiffRecs(report.schemaDiff) + LargeRec(report.largeTypes);
    if k < |a| {
      assert (a + rest)[k] == a[k];
      OperationRecsLead(report.operations, k);
      assert HealthyRec[0] == CheckMark;
    } else {
      assert (a + rest)[k] == rest[k - |a|];
      OtherRecsLead(report, k - |a|);
      assert HealthyRec[0] == CheckMark;
    }
  }

  /** Never empty, and the healthy message appears exactly when nothing
      else was recommended. */
  lemma RecommendationsShape(report: ReportData)
    ensures Recommendations(report) != []
    ensures HealthyRec in Recommendations(report) <==>
      OperationRecs(report.operations) == [] && DiffRecs(report.schemaDiff) == [] && LargeRec(report.largeTypes) == []
  {
    var a, rest := OperationRecs(report.operations), DiffRecs(report.schemaDiff) + LargeRec(report.largeTypes);
    AppendAssoc(a, DiffRecs(report.schemaDiff), LargeRec(report.largeTypes));
    if HealthyRec in a + rest {
      var k :| 0 <= k < |a + rest| && (a + rest)[k] == HealthyRec;
      NotHealthy(report, k);
    }
  }

  /** The large-types entry names only the first three large types. */
  lemma LargeRecFirstThree(ts: seq<LargeType>)
    requires |ts| >= 3
    ensures LargeRec(ts) == LargeRec(ts[..3])
  {
    assert ts[..3][..3] == ts[..3];
  }

  /** A diff whose summary shows no removed, deprecated or added field adds
      nothing. */
  lemma QuietDiff(summary: seq<(string, int)>)
    ensures DiffRecs(Some(summary)) == [] <==>
      SummaryValue(summary, "fields_removed") <= 0 && SummaryValue(summary, "fields_deprecated") <= 0
      && SummaryValue(summary, "fields_added") <= 0
  {
  }

  // ---------------------------------------------------------------------
  // The deprecated-fields section of the markdown summary

  /** `f"{x}"` of a string or `None`. */
  function StrOf(o: Option<string>): string
  {
    match o
    case Some(s) => s
    case None => "None"
  }

  const Clipboard: char := '\U{1F4CB}'
  const DeprecatedHeading: string := "## " + [Clipboard] + " Deprecated Fields Details"

  /** Line breaks as the markdown writer spells them: `eol` is "\n" for a
      real newline and the two characters backslash and `n` as written. */
  function ItemLine(item: DeprecatedItem, eol: string): string
  {
    "- **" + StrOf(item.typeName) + "." + StrOf(item.field) + ":** " + StrOf(item.reason) + eol
  }

  function ItemLines(items: seq<DeprecatedItem>, eol: string): string
  {
    if items == [] then ""
    else ItemLines(items[..|items| - 1], eol) + ItemLine(items[|items| - 1], eol)
  }

  function MoreLine(extra: nat, eol: string): string
  {
    eol + "*... and " + NatToString(extra) + " more*" + eol
  }

  function Header(eol: string): string
  {
    DeprecatedHeading + eol + eol
  }

  /** `deprecated_items[:10]`. */
  function Shown(items: seq<DeprecatedItem>): (r: seq<DeprecatedItem>)
    ensures |r| == Min(10, |items|) && r <= items
  {
    items[..Min(10, |items|)]
  }

  function Tail(items: seq<DeprecatedItem>, eol: string): string
  {
    if |items| > 10 then MoreLine(|items| - 10, eol) else ""
  }

  /** The section with a given spelling of the line break: nothing without
      items, else the heading, the first ten items, and an "and N more" line
      when there are more than ten. */
  function DeprecatedSection(items: seq<DeprecatedItem>, eol: string): string
  {
    if items == [] then "" else Header(eol) + ItemLines(Shown(items), eol) + Tail(items, eol)
  }

  /** The section as the source writes it: every line break is the
      two-character escape `\n`. */
  function DeprecatedSectionAsWritten(items: seq<DeprecatedItem>): string
  {
    DeprecatedSection(items, "\\n")
  }

  /** More than ten items: the first ten are listed and one line counts the
      rest. */
  lemma Truncation(items: seq<DeprecatedItem>, eol: string)
    requires |items| > 10
    ensures DeprecatedSection(items, eol) == DeprecatedSection(items[..10], eol) + MoreLine(|items| - 10, eol)
  {
    assert Shown(items[..10]) == Shown(items);
  }

  lemma ItemLinesStep(shown: seq<DeprecatedItem>, i: nat, eol: string)
    requires i < |shown|
    ensures ItemLines(shown[..i + 1], eol) == ItemLines(shown[..i], eol) + ItemLine(shown[i], eol)
  {
    assert shown[..i + 1][..i] == shown[..i];
  }

  /** The section the markdown evidently intends, built as the loop does. */
  method AppendDeprecatedSection(content: string, items: seq<DeprecatedItem>) returns (out: string)
    ensures out == content + DeprecatedSection(items, "\n")
  {
    out := content;
    if items != [] {
      out := out + Header("\n");
      ghost var start := out;
      var shown := Shown(items);
      var i := 0;
      while i < |shown|
        invariant 0 <= i <= |shown|
        invariant out == start + ItemLines(shown[..i], "\n")
      {
        ItemLinesStep(shown, i, "\n");
        AppendAssoc(start, ItemLines(shown[..i], "\n"), ItemLine(shown[i], "\n"));
        out := out + ItemLine(shown[i], "\n");
        i := i + 1;
      }
      assert shown[..i] == shown;
      if |items| > 10 {
        out := out + MoreLine(|items| - 10, "\n");
      }
      assert out == start + ItemLines(shown, "\n") + Tail(items, "\n");
      AppendAssoc(content, Header("\n"), ItemLines(shown, "\n"));
      AppendAssoc(content, Header("\n") + ItemLines(shown, "\n"), Tail(items, "\n"));
    }
  }

  function NewlineCount(s: string): nat
  {
    if s == [] then 0 else (if s[0] == '\n' then 1 else 0) + NewlineCount(s[1..])
  }

  lemma {:induction false} NewlineCountAppend(a: string, b: string)
    ensures NewlineCount(a + b) == NewlineCount(a) + NewlineCount(b)
  {
    if a != [] {
      assert (a + b)[1..] == a[1..] + b;
      NewlineCountAppend(a[1..], b);
    } else {
      assert a + b == b;
    }
  }

  lemma {:induction false} NewlineFree(s: string)
    requires forall i :: 0 <= i < |s| ==> s[i] != '\n'
    ensures NewlineCount(s) == 0
  {
    if s != [] {
      NewlineFree(s[1..]);
    }
  }

  predicate PlainItem(item: DeprecatedItem)
  {
    NewlineCount(StrOf(item.typeName)) == 0 && NewlineCount(StrOf(item.field)) == 0
    && NewlineCount(StrOf(item.reason)) == 0
  }

  lemma ItemLineNewlines(item: DeprecatedItem, eol: string)
    requires PlainItem(item)
    ensures NewlineCount(ItemLine(item, eol)) == NewlineCount(eol)
  {
    NewlineFree("- **");
    NewlineFree(".");
    NewlineFree(":** ");
    var t, f, r := StrOf(item.typeName), StrOf(item.field), StrOf(item.reason);
    NewlineCountAppend("- **", t);
    NewlineCountAppend("- **" + t, ".");
    NewlineCountAppend("- **" + t + ".", f);
    NewlineCountAppend("- **" + t + "." + f, ":** ");
    NewlineCountAppend("- **" + t + "." + f + ":** ", r);
    NewlineCountAppend("- **" + t + "." + f + ":** " + r, eol);
  }

  /** Each listed item ends in one line break and holds no other. */
  lemma {:induction false} ItemLinesNewlines(items: seq<DeprecatedItem>, eol: string)
    requires forall k :: 0 <= k < |items| ==> PlainItem(items[k])
    ensures NewlineCount(eol) == 0 ==> NewlineCount(ItemLines(items, eol)) == 0
    ensures NewlineCount(eol) == 1 ==> NewlineCount(ItemLines(items, eol)) == |items|
  {
    if items != [] {
      var front := items[..|items| - 1];
      assert forall k :: 0 <= k < |front| ==> front[k] == items[k];
      ItemLinesNewlines(front, eol);
      ItemLineNewlines(items[|items| - 1], eol);
      NewlineCountAppend(ItemLines(front, eol), ItemLine(items[|items| - 1], eol));
    }
  }

  lemma MoreLineNewlines(extra: nat, eol: string)
    ensures NewlineCount(MoreLine(extra, eol)) == 2 * NewlineCount(eol)
  {
    var n := NatToString(extra);
    NewlineFree("*... and ");
    NewlineFree(n);
    NewlineFree(" more*");
    NewlineCountAppend(eol, "*... and ");
    NewlineCountAppend(eol + "*... and ", n);
    NewlineCountAppend(eol + "*... and " + n, " more*");
    NewlineCountAppend(eol + "*... and " + n + " more*", eol);
  }

  lemma HeaderNewlines(eol: string)
    ensures NewlineCount(Header(eol)) == 2 * NewlineCount(eol)
  {
    NewlineFree(DeprecatedHeading);
    NewlineCountAppend(DeprecatedHeading, eol);
    NewlineCountAppend(DeprecatedHeading + eol, eol);
  }

  lemma TailNewlines(items: seq<DeprecatedItem>, eol: string)
    ensures NewlineCount(Tail(items, eol)) == (if |items| > 10 then 2 * NewlineCount(eol) else 0)
  {
    if |items| > 10 {
      MoreLineNewlines(|items| - 10, eol);
    }
  }

  /** The line breaks of the section: none when the break is spelled
      without a newline, and one per break when it is one newline. */
  lemma SectionNewlines(items: seq<DeprecatedItem>, eol: string)
    requires forall k :: 0 <= k < |items| ==> PlainItem(items[k])
    ensures NewlineCount(eol) == 0 ==> NewlineCount(DeprecatedSection(items, eol)) == 0
    ensures NewlineCount(eol) == 1 ==>
      NewlineCount(DeprecatedSection(items, eol)) == (if items == [] then 0 else 2 + Min(10, |items|) + (if |items| > 10 then 2 else 0))
  {
    if items != [] {
      var shown := Shown(items);
      assert forall k :: 0 <= k < |shown| ==> shown[k] == items[k];
      HeaderNewlines(eol);
      ItemLinesNewlines(shown, eol);
      TailNewlines(items, eol);
      NewlineCountAppend(Header(eol), ItemLines(shown, eol));
      NewlineCountAppend(Header(eol) + ItemLines(shown, eol), Tail(items, eol));
    }
  }

  /** As written, the section holds no line break at all: the heading, the
      items and the "more" line run together on one line. */
  lemma AsWrittenHasNoLineBreak(items: seq<DeprecatedItem>)
    requires forall k :: 0 <= k < |items| ==> PlainItem(items[k])
    ensures NewlineCount(DeprecatedSectionAsWritten(items)) == 0
  {
    NewlineFree("\\n");
    SectionNewlines(items, "\\n");
  }

  /** Corrected, the section has one line break after the heading, a blank
      line, one per listed item, and two around the "more" line. */
  lemma CorrectedLineBreaks(items: seq<DeprecatedItem>)
    requires forall k :: 0 <= k < |items| ==> PlainItem(items[k])
    ensures NewlineCount(DeprecatedSection(items, "\n")) ==
      (if items == [] then 0 else 2 + Min(10, |items|) + (if |items| > 10 then 2 else 0))
  {
    assert NewlineCount("\n") == 1;
    SectionNewlines(items, "\n");
  }

  // ---------------------------------------------------------------------
  // The change test of the monitor loop

  /** `any(summary[key] > 0 for key in summary if key != "timestamp")`,
      stopping at the first hit as `any` does. */
  function HasChanges(summary: seq<(string, int)>): (r: bool)
  {
    if summary == [] then false
    else if summary[0].0 != "timestamp" && summary[0].1 > 0 then true
    else HasChanges(summary[1..])
  }

  /** True iff some entry other than `timestamp` is positive. */
  lemma {:induction false} HasChangesMeaning(summary: seq<(string, int)>)
    ensures HasChanges(summary) <==> exists i :: 0 <= i < |summary| && summary[i].0 != "timestamp" && summary[i].1 > 0
  {
    if summary != [] {
      HasChangesMeaning(summary[1..]);
      if exists i :: 0 <= i < |summary| && summary[i].0 != "timestamp" && summary[i].1 > 0 {
        var i :| 0 <= i < |summary| && summary[i].0 != "timestamp" && summary[i].1 > 0;
        if i > 0 {
          assert summary[1..][i - 1] == summary[i];
        }
      }
    }
  }

  /** The value under `timestamp` never matters. */
  lemma TimestampIgnored(summary: seq<(string, int)>, i: nat, v: int)
    requires i < |summary| && summary[i].0 == "timestamp"
    ensures HasChanges(summary[i := ("timestamp", v)]) == HasChanges(summary)
  {
    var s' := summary[i := ("timestamp", v)];
    HasChangesMeaning(summary);
    HasChangesMeaning(s');
    if exists k :: 0 <= k < |summary| && summary[k].0 != "timestamp" && summary[k].1 > 0 {
      var k :| 0 <= k < |summary| && summary[k].0 != "timestamp" && summary[k].1 > 0;
      assert s'[k] == summary[k];
    }
    if exists k :: 0 <= k < |s'| && s'[k].0 != "timestamp" && s'[k].1 > 0 {
      var k :| 0 <= k < |s'| && s'[k].0 != "timestamp" && s'[k].1 > 0;
      assert s'[k] == summary[k];
    }
  }
}
