/** The critic's response contract: a hand-written validator set against the JSON schema sent to the model. */
module CriticContract {
  import opened Wrappers
  import opened Json
  import Text

  datatype Contract = V1 | V2

  datatype Error =
    | Fields | BadVerdict | BadConfidence | BadText(field: string)
    | FindingCount | FindingFields(i: nat) | FindingSeverity(i: nat) | FindingText(i: nat, field: string)
    | ListCount(field: string) | ListText(field: string)

  const MAX_FINDINGS: nat := 3
  const MAX_ALTERNATIVES: nat := 2
  const MAX_RISKS: nat := 2
  const MAX_SUMMARY: nat := 320
  const MAX_FINDING_TEXT: nat := 300
  const MAX_LIST_ITEM: nat := 240
  const MAX_ACTION: nat := 320
  const MAX_ESCALATION: nat := 240

  const VERDICTS: set<string> := {"approve", "revise", "reject"}
  const CONFIDENCES: set<string> := {"high", "medium", "low"}
  const SEVERITIES: set<string> := {"critical", "high", "medium", "low"}
  const CRITIC_FIELDS: set<string> := {
    "verdict", "summary", "findings", "alternatives", "risks", "confidence", "recommended_next_action",
    "escalation_needed"
  }
  const FINDING_FIELDS: set<string> := {"severity", "claim", "evidence", "repair"}

  function Keys(v: Json): set<string> {
    if v.Obj? then set i | 0 <= i < |v.fields| :: v.fields[i].key else {}
  }

  // ---------- the validator ----------

  /** `_nonempty_string`, and `_bounded_nonempty_string` when there is a bound. */
  predicate GoodText(v: Option<Json>, bound: Option<nat>) {
    v.Some? && v.value.Str? && Text.Strip(v.value.s) != "" && (bound.Some? ==> |v.value.s| <= bound.value)
  }

  predicate GoodEnum(v: Option<Json>, values: set<string>) {
    v.Some? && v.value.Str? && v.value.s in values
  }

  function Bound(c: Contract, n: nat): Option<nat> {
    if c.V1? then Some(n) else None
  }

  function Unless(ok: bool, e: Error): seq<Error> {
    if ok then [] else [e]
  }

  function FindingErrors(c: Contract, finding: Json, i: nat): seq<Error> {
    if !finding.Obj? then [FindingFields(i)]
    else
      var shape := Unless(Keys(finding) == FINDING_FIELDS, FindingFields(i));
      if shape != [] && c.V1? then shape
      else
        shape
        + Unless(GoodEnum(Member(finding, "severity"), SEVERITIES), FindingSeverity(i))
        + Unless(GoodText(Member(finding, "claim"), Bound(c, MAX_FINDING_TEXT)), FindingText(i, "claim"))
        + Unless(GoodText(Member(finding, "evidence"), Bound(c, MAX_FINDING_TEXT)), FindingText(i, "evidence"))
        + Unless(GoodText(Member(finding, "repair"), Bound(c, MAX_FINDING_TEXT)), FindingText(i, "repair"))
  }

  /** Errors of each finding in turn. */
  function Collected(check: (Json, nat) -> seq<Error>, findings: seq<Json>): seq<Error> {
    if findings == [] then []
    else
      var n := |findings| - 1;
      Collected(check, findings[..n]) + check(findings[n], n)
  }

  function Check(c: Contract): (Json, nat) -> seq<Error> {
    (finding: Json, i: nat) => FindingErrors(c, finding, i)
  }

  function AllFindingErrors(c: Contract, findings: Option<Json>): seq<Error> {
    if findings.None? || !findings.value.Arr? || !(1 <= |findings.value.items| <= MAX_FINDINGS) then [FindingCount]
    else Collected(Check(c), findings.value.items)
  }

  function ListErrors(c: Contract, items: Option<Json>, field: string, most: nat): seq<Error> {
    if items.None? || !items.value.Arr? || |items.value.items| > most then [ListCount(field)]
    else Unless(forall i :: 0 <= i < |items.value.items| ==>
                GoodText(Some(items.value.items[i]), Bound(c, MAX_LIST_ITEM)),
                ListText(field))
  }

  function Errors(c: Contract, v: Json): seq<Error> {
    Unless(Keys(v) == CRITIC_FIELDS, Fields)
    + Unless(GoodEnum(Member(v, "verdict"), VERDICTS), BadVerdict)
    + Unless(GoodEnum(Member(v, "confidence"), CONFIDENCES), BadConfidence)
    + Unless(GoodText(Member(v, "summary"), Bound(c, MAX_SUMMARY)), BadText("summary"))
    + Unless(GoodText(Member(v, "recommended_next_action"), Bound(c, MAX_ACTION)), BadText("recommended_next_action"))
    + Unless(GoodText(Member(v, "escalation_needed"), Bound(c, MAX_ESCALATION)), BadText("escalation_needed"))
    + AllFindingErrors(c, Member(v, "findings"))
    + ListErrors(c, Member(v, "alternatives"), "alternatives", MAX_ALTERNATIVES)
    + ListErrors(c, Member(v, "risks"), "risks", MAX_RISKS)
  }

  /** Imported functions: strict JSON decoding, rendering, and the scan for dangerous control characters. */
  datatype Reader = Reader(parse: string -> Option<Json>, render: Json -> string, controls: string -> bool)

  datatype Verdict =
    | Review(value: Json) | Rejected(errors: seq<Error>) | Overlong | Unsafe | NotJson | NotObject | BadLimit

  method ValidateResponseContract(reader: Reader, c: Contract, content: string, maximum: int) returns (verdict: Verdict)
    ensures verdict == Validated(reader, c, content, maximum)
  {
    if maximum <= 0 {
      return BadLimit;
    }
    if |content| > maximum {
      return Overlong;
    }
    if reader.controls(content) {
      return Unsafe;
    }
    var value := reader.parse(content);
    if value.None? {
      return NotJson;
    }
    if reader.controls(reader.render(value.value)) {
      return Unsafe;
    }
    var v := value.value;
    if !v.Obj? {
      return NotObject;
    }
    var errors := Unless(Keys(v) == CRITIC_FIELDS, Fields);
    errors := errors + Unless(GoodEnum(Member(v, "verdict"), VERDICTS), BadVerdict);
    errors := errors + Unless(GoodEnum(Member(v, "confidence"), CONFIDENCES), BadConfidence);
    errors := errors + Unless(GoodText(Member(v, "summary"), Bound(c, MAX_SUMMARY)), BadText("summary"));
    errors := errors + Unless(GoodText(Member(v, "recommended_next_action"), Bound(c, MAX_ACTION)),
                              BadText("recommended_next_action"));
    errors := errors + Unless(GoodText(Member(v, "escalation_needed"), Bound(c, MAX_ESCALATION)),
                              BadText("escalation_needed"));
    var more := CheckFindings(c, Member(v, "findings"));
    errors := errors + more;
    errors := errors + ListErrors(c, Member(v, "alternatives"), "alternatives", MAX_ALTERNATIVES);
    errors := errors + ListErrors(c, Member(v, "risks"), "risks", MAX_RISKS);
    verdict := if errors == [] then Review(v) else Rejected(errors);
  }

  method CheckFindings(c: Contract, findings: Option<Json>) returns (errors: seq<Error>)
    ensures errors == AllFindingErrors(c, findings)
  {
    if findings.None? || !findings.value.Arr? || !(1 <= |findings.value.items| <= MAX_FINDINGS) {
      return [FindingCount];
    }
    var items := findings.value.items;
    errors := [];
    for i := 0 to |items|
      invariant errors == Collected(Check(c), items[..i])
    {
      assert items[..i + 1][..i] == items[..i];
      errors := errors + FindingErrors(c, items[i], i);
    }
    assert items[..|items|] == items;
  }

  function Validated(reader: Reader, c: Contract, content: string, maximum: int): Verdict {
    if maximum <= 0 then BadLimit
    else if |content| > maximum then Overlong
    else if reader.controls(content) then Unsafe
    else
      var value := reader.parse(content);
      if value.None? then NotJson
      else if reader.controls(reader.render(value.value)) then Unsafe
      else if !value.value.Obj? then NotObject
      else
        var errors := Errors(c, value.value);
        if errors == [] then Review(value.value) else Rejected(errors)
  }

  /** A text passes exactly when it is short, free of control characters before and after parsing, and faultless. */
  lemma ReviewIff(reader: Reader, c: Contract, content: string, maximum: int, review: Json)
    ensures Validated(reader, c, content, maximum) == Review(review) <==>
            && 0 < maximum && |content| <= maximum && !reader.controls(content)
            && reader.parse(content) == Some(review) && !reader.controls(reader.render(review))
            && review.Obj? && Errors(c, review) == []
    ensures Validated(reader, c, content, maximum).Unsafe? <==>
            && 0 < maximum && |content| <= maximum
            && (reader.controls(content) ||
                (reader.parse(content).Some? && reader.controls(reader.render(reader.parse(content).value))))
  {
  }

  // ---------- the JSON schema ----------

  /** The part of JSON Schema that the contract uses; every object property is required and no other is allowed. */
  datatype Schema =
    | StringOf(minLength: nat, maxLength: Option<nat>)
    | EnumOf(values: set<string>)
    | ArrayOf(minItems: nat, maxItems: nat, items: Schema)
    | ObjectOf(props: seq<Prop>)

  datatype Prop = Prop(name: string, schema: Schema)

  predicate Satisfies(v: Json, s: Schema)
    decreases s
  {
    match s
    case StringOf(low, high) => v.Str? && low <= |v.s| && (high.Some? ==> |v.s| <= high.value)
    case EnumOf(values) => v.Str? && v.s in values
    case ArrayOf(low, high, items) =>
      v.Arr? && low <= |v.items| <= high && forall i :: 0 <= i < |v.items| ==> Satisfies(v.items[i], items)
    case ObjectOf(props) =>
      v.Obj? && Keys(v) == (set i | 0 <= i < |props| :: props[i].name) && SatisfiesProps(v, props)
  }

  predicate SatisfiesProps(v: Json, props: seq<Prop>)
    decreases props
  {
    props == [] ||
    (Member(v, props[0].name).Some? && Satisfies(Member(v, props[0].name).value, props[0].schema)
     && SatisfiesProps(v, props[1..]))
  }

  function TextSchema(c: Contract, n: nat): Schema {
    StringOf(1, Bound(c, n))
  }

  function FindingSchema(c: Contract): Schema {
    ObjectOf([
      Prop("severity", EnumOf(SEVERITIES)),
      Prop("claim", TextSchema(c, MAX_FINDING_TEXT)),
      Prop("evidence", TextSchema(c, MAX_FINDING_TEXT)),
      Prop("repair", TextSchema(c, MAX_FINDING_TEXT))
    ])
  }

  function CriticSchema(c: Contract): Schema {
    ObjectOf([
      Prop("verdict", EnumOf(VERDICTS)),
      Prop("summary", TextSchema(c, MAX_SUMMARY)),
      Prop("findings", ArrayOf(1, MAX_FINDINGS, FindingSchema(c))),
      Prop("alternatives", ArrayOf(0, MAX_ALTERNATIVES, TextSchema(c, MAX_LIST_ITEM))),
      Prop("risks", ArrayOf(0, MAX_RISKS, TextSchema(c, MAX_LIST_ITEM))),
      Prop("confidence", EnumOf(CONFIDENCES)),
      Prop("recommended_next_action", TextSchema(c, MAX_ACTION)),
      Prop("escalation_needed", TextSchema(c, MAX_ESCALATION))
    ])
  }

  // ---------- validator against schema ----------

  predicate NonBlank(v: Option<Json>) {
    v.Some? && v.value.Str? ==> Text.Strip(v.value.s) != ""
  }

  predicate NonBlankItems(v: Option<Json>) {
    v.Some? && v.value.Arr? ==> forall i :: 0 <= i < |v.value.items| ==> NonBlank(Some(v.value.items[i]))
  }

  predicate FindingNotBlank(finding: Json) {
    NonBlank(Member(finding, "claim")) && NonBlank(Member(finding, "evidence")) && NonBlank(Member(finding, "repair"))
  }

  /** No free text of the review consists of white space only. */
  predicate SaysSomething(v: Json) {
    && NonBlank(Member(v, "summary")) && NonBlank(Member(v, "recommended_next_action"))
    && NonBlank(Member(v, "escalation_needed"))
    && NonBlankItems(Member(v, "alternatives")) && NonBlankItems(Member(v, "risks"))
    && var findings := Member(v, "findings");
       findings.Some? && findings.value.Arr? ==>
         forall i :: 0 <= i < |findings.value.items| ==> FindingNotBlank(findings.value.items[i])
  }

  lemma NonEmptyIfNotBlank(s: string)
    requires Text.Strip(s) != ""
    ensures 1 <= |s|
  {
  }

  lemma TextAgrees(c: Contract, v: Option<Json>, n: nat)
    ensures GoodText(v, Bound(c, n)) <==> v.Some? && Satisfies(v.value, TextSchema(c, n)) && NonBlank(v)
  {
    if v.Some? && v.value.Str? && Text.Strip(v.value.s) != "" {
      NonEmptyIfNotBlank(v.value.s);
    }
  }

  lemma PropsOf4(v: Json, a: Prop, b: Prop, c: Prop, d: Prop)
    ensures SatisfiesProps(v, [a, b, c, d]) <==> Has(v, a) && Has(v, b) && Has(v, c) && Has(v, d)
  {
    assert [a, b, c, d][1..] == [b, c, d] && [b, c, d][1..] == [c, d] && [c, d][1..] == [d] && [d][1..] == [];
    assert SatisfiesProps(v, [d]) <==> Has(v, d);
    assert SatisfiesProps(v, [c, d]) <==> Has(v, c) && SatisfiesProps(v, [d]);
    assert SatisfiesProps(v, [b, c, d]) <==> Has(v, b) && SatisfiesProps(v, [c, d]);
  }

  predicate Has(v: Json, p: Prop) {
    Member(v, p.name).Some? && Satisfies(Member(v, p.name).value, p.schema)
  }

  lemma {:induction false} PropsConcat(v: Json, a: seq<Prop>, b: seq<Prop>)
    ensures SatisfiesProps(v, a + b) <==> SatisfiesProps(v, a) && SatisfiesProps(v, b)
  {
    if a == [] {
      assert a + b == b;
    } else {
      assert (a + b)[1..] == a[1..] + b;
      PropsConcat(v, a[1..], b);
    }
  }

  lemma FindingAgrees(c: Contract, finding: Json, i: nat)
    ensures FindingErrors(c, finding, i) == [] <==> Satisfies(finding, FindingSchema(c)) && FindingNotBlank(finding)
  {
    var props := FindingSchema(c).props;
    PropsOf4(finding, props[0], props[1], props[2], props[3]);
    assert (set k | 0 <= k < |props| :: props[k].name) == FINDING_FIELDS by {
      assert props[0].name == "severity" && props[1].name == "claim" && props[2].name == "evidence"
             && props[3].name == "repair";
    }
    TextAgrees(c, Member(finding, "claim"), MAX_FINDING_TEXT);
    TextAgrees(c, Member(finding, "evidence"), MAX_FINDING_TEXT);
    TextAgrees(c, Member(finding, "repair"), MAX_FINDING_TEXT);
  }

  lemma {:induction false} CollectedEmpty(check: (Json, nat) -> seq<Error>, findings: seq<Json>)
    ensures Collected(check, findings) == [] <==> forall i :: 0 <= i < |findings| ==> check(findings[i], i) == []
  {
    if findings != [] {
      var n := |findings| - 1;
      CollectedEmpty(check, findings[..n]);
      assert forall i :: 0 <= i < n ==> findings[..n][i] == findings[i];
    }
  }

  lemma AllFindingsAgree(c: Contract, findings: Option<Json>)
    ensures AllFindingErrors(c, findings) == [] <==>
            && findings.Some? && Satisfies(findings.value, ArrayOf(1, MAX_FINDINGS, FindingSchema(c)))
            && forall i :: 0 <= i < |findings.value.items| ==> FindingNotBlank(findings.value.items[i])
  {
    if findings.Some? && findings.value.Arr? {
      var items := findings.value.items;
      CollectedEmpty(Check(c), items);
      forall i | 0 <= i < |items|
        ensures FindingErrors(c, items[i], i) == [] <==>
                Satisfies(items[i], FindingSchema(c)) && FindingNotBlank(items[i])
      {
        FindingAgrees(c, items[i], i);
      }
    }
  }

  lemma ListAgrees(c: Contract, items: Option<Json>, field: string, most: nat)
    ensures ListErrors(c, items, field, most) == [] <==>
            && items.Some? && Satisfies(items.value, ArrayOf(0, most, TextSchema(c, MAX_LIST_ITEM)))
            && NonBlankItems(items)
  {
    if items.Some? && items.value.Arr? {
      forall i | 0 <= i < |items.value.items|
        ensures GoodText(Some(items.value.items[i]), Bound(c, MAX_LIST_ITEM)) <==>
                Satisfies(items.value.items[i], TextSchema(c, MAX_LIST_ITEM)) && NonBlank(Some(items.value.items[i]))
      {
        TextAgrees(c, Some(items.value.items[i]), MAX_LIST_ITEM);
      }
    }
  }

  lemma CriticProps(c: Contract, v: Json)
    ensures var p := CriticSchema(c).props;
            && |p| == 8
            && (SatisfiesProps(v, p) <==>
                  Has(v, p[0]) && Has(v, p[1]) && Has(v, p[2]) && Has(v, p[3]) &&
                  Has(v, p[4]) && Has(v, p[5]) && Has(v, p[6]) && Has(v, p[7]))
            && (set k | 0 <= k < |p| :: p[k].name) == CRITIC_FIELDS
  {
    var p := CriticSchema(c).props;
    PropsOf4(v, p[0], p[1], p[2], p[3]);
    PropsOf4(v, p[4], p[5], p[6], p[7]);
    PropsConcat(v, [p[0], p[1], p[2], p[3]], [p[4], p[5], p[6], p[7]]);
    assert p == [p[0], p[1], p[2], p[3]] + [p[4], p[5], p[6], p[7]];
    assert (set k | 0 <= k < 8 :: p[k].name) ==
           {p[0].name, p[1].name, p[2].name, p[3].name, p[4].name, p[5].name, p[6].name, p[7].name};
  }

  lemma SchemaIff(c: Contract, v: Json)
    ensures Satisfies(v, CriticSchema(c)) <==>
            && v.Obj? && Keys(v) == CRITIC_FIELDS
            && Has(v, Prop("verdict", EnumOf(VERDICTS))) && Has(v, Prop("confidence", EnumOf(CONFIDENCES)))
            && Has(v, Prop("summary", TextSchema(c, MAX_SUMMARY)))
            && Has(v, Prop("recommended_next_action", TextSchema(c, MAX_ACTION)))
            && Has(v, Prop("escalation_needed", TextSchema(c, MAX_ESCALATION)))
            && Has(v, Prop("findings", ArrayOf(1, MAX_FINDINGS, FindingSchema(c))))
            && Has(v, Prop("alternatives", ArrayOf(0, MAX_ALTERNATIVES, TextSchema(c, MAX_LIST_ITEM))))
            && Has(v, Prop("risks", ArrayOf(0, MAX_RISKS, TextSchema(c, MAX_LIST_ITEM))))
  {
    CriticProps(c, v);
  }

  lemma NoErrorsIff(c: Contract, v: Json)
    ensures Errors(c, v) == [] <==>
            && Keys(v) == CRITIC_FIELDS
            && GoodEnum(Member(v, "verdict"), VERDICTS) && GoodEnum(Member(v, "confidence"), CONFIDENCES)
            && GoodText(Member(v, "summary"), Bound(c, MAX_SUMMARY))
            && GoodText(Member(v, "recommended_next_action"), Bound(c, MAX_ACTION))
            && GoodText(Member(v, "escalation_needed"), Bound(c, MAX_ESCALATION))
            && AllFindingErrors(c, Member(v, "findings")) == []
            && ListErrors(c, Member(v, "alternatives"), "alternatives", MAX_ALTERNATIVES) == []
            && ListErrors(c, Member(v, "risks"), "risks", MAX_RISKS) == []
  {
  }

  /** The validator accepts exactly what the schema sent to the model allows, minus blank texts. */
  lemma AcceptsIffSchema(c: Contract, v: Json)
    ensures Errors(c, v) == [] <==> Satisfies(v, CriticSchema(c)) && SaysSomething(v)
  {
    NoErrorsIff(c, v);
    SchemaIff(c, v);
    TextAgrees(c, Member(v, "summary"), MAX_SUMMARY);
    TextAgrees(c, Member(v, "recommended_next_action"), MAX_ACTION);
    TextAgrees(c, Member(v, "escalation_needed"), MAX_ESCALATION);
    AllFindingsAgree(c, Member(v, "findings"));
    ListAgrees(c, Member(v, "alternatives"), "alternatives", MAX_ALTERNATIVES);
    ListAgrees(c, Member(v, "risks"), "risks", MAX_RISKS);
  }

  // ---------- version 1 against version 2 ----------

  predicate Short(v: Option<Json>, n: nat) {
    v.Some? && v.value.Str? ==> |v.value.s| <= n
  }

  predicate ShortItems(v: Option<Json>, n: nat) {
    v.Some? && v.value.Arr? ==> forall i :: 0 <= i < |v.value.items| ==> Short(Some(v.value.items[i]), n)
  }

  predicate ShortFinding(finding: Json) {
    && Short(Member(finding, "claim"), MAX_FINDING_TEXT) && Short(Member(finding, "evidence"), MAX_FINDING_TEXT)
    && Short(Member(finding, "repair"), MAX_FINDING_TEXT)
  }

  /** All length bounds of version 1 hold. */
  predicate WithinV1Bounds(v: Json) {
    && Short(Member(v, "summary"), MAX_SUMMARY) && Short(Member(v, "recommended_next_action"), MAX_ACTION)
    && Short(Member(v, "escalation_needed"), MAX_ESCALATION)
    && ShortItems(Member(v, "alternatives"), MAX_LIST_ITEM) && ShortItems(Member(v, "risks"), MAX_LIST_ITEM)
    && var findings := Member(v, "findings");
       findings.Some? && findings.value.Arr? ==>
         forall i :: 0 <= i < |findings.value.items| ==> ShortFinding(findings.value.items[i])
  }

  lemma FindingsNarrow(findings: Option<Json>)
    ensures AllFindingErrors(V1, findings) == [] <==>
            && AllFindingErrors(V2, findings) == []
            && forall i :: 0 <= i < |findings.value.items| ==> ShortFinding(findings.value.items[i])
  {
    if findings.Some? && findings.value.Arr? {
      var items := findings.value.items;
      CollectedEmpty(Check(V1), items);
      CollectedEmpty(Check(V2), items);
      forall i | 0 <= i < |items|
        ensures FindingErrors(V1, items[i], i) == [] <==> FindingErrors(V2, items[i], i) == [] && ShortFinding(items[i])
      {
      }
    }
  }

  lemma ListNarrows(items: Option<Json>, field: string, most: nat)
    ensures ListErrors(V1, items, field, most) == [] <==>
            ListErrors(V2, items, field, most) == [] && ShortItems(items, MAX_LIST_ITEM)
  {
  }

  /** A text passes under version 1 exactly when it passes under version 2 and keeps the bounds, as the same review. */
  lemma V1IsBoundedV2(reader: Reader, content: string, maximum: int, review: Json)
    ensures Validated(reader, V1, content, maximum) == Review(review) <==>
            Validated(reader, V2, content, maximum) == Review(review) && WithinV1Bounds(review)
  {
    ErrorsNarrow(review);
  }

  lemma ErrorsNarrow(review: Json)
    ensures Errors(V1, review) == [] <==> Errors(V2, review) == [] && WithinV1Bounds(review)
  {
    NoErrorsIff(V1, review);
    NoErrorsIff(V2, review);
    FindingsNarrow(Member(review, "findings"));
    ListNarrows(Member(review, "alternatives"), "alternatives", MAX_ALTERNATIVES);
    ListNarrows(Member(review, "risks"), "risks", MAX_RISKS);
  }
}
