/** From an untrusted model response to what the dispatcher returns: sanitize, classify, quarantine, project. */
module LocalResponse {
  import opened Wrappers
  import opened Json
  import RF = ReasoningFilter
  import TT = ThinkTags
  import Text

  datatype Status = Malformed | Unsafe | BudgetExhausted | EmptyFinal | ContractInvalid | Completed

  /** Imported text functions: key treatment and hashing, lower-casing, control-character scan, case matching. */
  datatype Env = Env(tools: RF.Tools, lower: string -> string, unsafe: string -> bool, fold: TT.Fold)

  datatype Policy = Policy(thinkTags: bool, requiredFinish: Option<string>)

  datatype Meta = Meta(notes: RF.Notes, finishReasons: seq<string>, status: Status, final: string, rejected: bool)

  const MAX_DEPTH: int := 64

  predicate Blank(s: string) {
    Text.Strip(s) == ""
  }

  const NO_NOTES: RF.Notes := RF.Notes(false, 0, None, false, [], None, [])

  // ---------- sanitizing ----------

  function Items(v: Option<Json>): seq<Json> {
    if v.Some? && v.value.Arr? then v.value.items else []
  }

  /** Finish reasons as the raw payload states them. */
  function FinishReasons(choices: seq<Json>): seq<string> {
    if choices == [] then []
    else
      var n := |choices| - 1;
      FinishReasons(choices[..n]) + ReasonOf(choices[n])
  }

  function ReasonOf(choice: Json): seq<string> {
    var reason := Member(choice, "finish_reason");
    if reason.Some? && reason.value.Str? && !Blank(reason.value.s) then [Text.Strip(reason.value.s)] else []
  }

  /** State of the loop over the choices. */
  datatype Scan = Scan(choices: seq<Json>, notes: RF.Notes, finals: seq<string>)

  function Mark(notes: RF.Notes, malformed: bool): RF.Notes {
    notes.(malformed := notes.malformed || malformed)
  }

  function WithContent(choice: Json, content: string): Json
    requires choice.Obj? && Member(choice, "message").Some? && Member(choice, "message").value.Obj?
  {
    var message := Member(choice, "message").value;
    Obj(Put(choice.fields, "message", Obj(Put(message.fields, "content", Str(content)))))
  }

  function ScanChoice(env: Env, policy: Policy, scan: Scan, choice: Json): Scan {
    var noReason := Member(choice, "finish_reason");
    var notes := Mark(scan.notes,
                      !choice.Obj? || (policy.requiredFinish.Some? && !(noReason.Some? && noReason.value.Str?)));
    var message := Member(choice, "message");
    if message.None? || !message.value.Obj? then Scan(scan.choices + [choice], Mark(notes, true), scan.finals)
    else
      var content := Member(message.value, "content");
      var missing := content.None? || content.value.Null?;
      var text := if !missing && content.value.Str? then content.value.s else "";
      var noted := Mark(notes, !missing && !content.value.Str?);
      var split := if policy.thinkTags then TT.SplitThinking(env.fold, text) else TT.Untouched(text);
      var noted' := if split.stripped
                    then Mark(RF.NoteDigest(env.tools, noted, env.tools.hash(split.reasoning), |split.reasoning|),
                              split.malformed)
                    else noted;
      Scan(scan.choices + [WithContent(choice, split.content)], noted',
           if Blank(split.content) then scan.finals else scan.finals + [split.content])
  }

  function ScanChoices(env: Env, policy: Policy, notes: RF.Notes, choices: seq<Json>): (r: Scan)
    ensures |r.choices| == |choices|
  {
    if choices == [] then Scan([], notes, [])
    else
      var n := |choices| - 1;
      ScanChoice(env, policy, ScanChoices(env, policy, notes, choices[..n]), choices[n])
  }

  function Classify(env: Env, policy: Policy, malformed: bool, reasons: seq<string>, final: string): Status {
    var lowered := seq(|reasons|, i requires 0 <= i < |reasons| => env.lower(reasons[i]));
    if env.unsafe(final) then Unsafe
    else if malformed then Malformed
    else if "length" in reasons || "length" in lowered || "max_tokens" in lowered then BudgetExhausted
    else if final == "" then EmptyFinal
    else if policy.requiredFinish.Some? &&
            (lowered == []
             || exists i :: 0 <= i < |lowered| && lowered[i] != env.lower(Text.Strip(policy.requiredFinish.value)))
    then Malformed
    else Completed
  }

  /** The payload without its provider error and without reasoning fields, and the notes taken on the way. */
  function Filtered(env: Env, payload: Json): (Json, RF.Notes) {
    var failed := Member(payload, "error").Some?;
    var bare := if failed then Obj(Drop(payload.fields, "error")) else payload;
    (RF.Strip(env.tools.kind, bare), RF.NoteAll(env.tools, Blank, Mark(NO_NOTES, failed), bare))
  }

  function Sanitized(env: Env, policy: Policy, payload: Json): (Json, Meta) {
    if !WithinDepth(payload, MAX_DEPTH) then (Obj([]), Meta(NO_NOTES, [], Malformed, "", true))
    else
      var reasons := FinishReasons(Items(Member(payload, "choices")));
      var (clean, notes) := Filtered(env, payload);
      if !clean.Obj? then (clean, Meta(notes, reasons, Malformed, "", false))
      else
        var choices := Items(Member(clean, "choices"));
        var scan := ScanChoices(env, policy, Mark(notes, |choices| != 1), choices);
        var final := if scan.finals == [] then "" else scan.finals[0];
        var out := if choices == [] then clean else Obj(Put(clean.fields, "choices", Arr(scan.choices)));
        (out, Meta(scan.notes, reasons, Classify(env, policy, scan.notes.malformed, reasons, final), final,
                   env.unsafe(final)))
  }

  method ReadFinishReasons(choices: seq<Json>) returns (reasons: seq<string>)
    ensures reasons == FinishReasons(choices)
  {
    reasons := [];
    for i := 0 to |choices|
      invariant reasons == FinishReasons(choices[..i])
    {
      assert choices[..i + 1][..i] == choices[..i];
      var reason := Member(choices[i], "finish_reason");
      if reason.Some? && reason.value.Str? && !Blank(reason.value.s) {
        reasons := reasons + [Text.Strip(reason.value.s)];
      }
    }
    assert choices[..|choices|] == choices;
  }

  method ReadChoices(env: Env, policy: Policy, notes: RF.Notes, choices: seq<Json>) returns (scan: Scan)
    ensures scan == ScanChoices(env, policy, notes, choices)
  {
    scan := Scan([], notes, []);
    for i := 0 to |choices|
      invariant scan == ScanChoices(env, policy, notes, choices[..i])
    {
      assert choices[..i + 1][..i] == choices[..i];
      scan := ScanChoice(env, policy, scan, choices[i]);
    }
    assert choices[..|choices|] == choices;
  }

  method SanitizeLocalResponsePayload(env: Env, policy: Policy, payload: Json) returns (out: Json, meta: Meta)
    ensures (out, meta) == Sanitized(env, policy, payload)
  {
    if !WithinDepth(payload, MAX_DEPTH) {
      return Obj([]), Meta(NO_NOTES, [], Malformed, "", true);
    }
    var reasons := ReadFinishReasons(Items(Member(payload, "choices")));
    var failed := Member(payload, "error").Some?;
    var bare := if failed then Obj(Drop(payload.fields, "error")) else payload;
    var notes;
    out, notes := RF.StripRawReasoningFields(env.tools, Blank, bare, Mark(NO_NOTES, failed));
    assert (out, notes) == Filtered(env, payload);
    if !out.Obj? {
      return out, Meta(notes, reasons, Malformed, "", false);
    }
    var choices := Items(Member(out, "choices"));
    var scan := ReadChoices(env, policy, Mark(notes, |choices| != 1), choices);
    var final := if scan.finals == [] then "" else scan.finals[0];
    if choices != [] {
      out := Obj(Put(out.fields, "choices", Arr(scan.choices)));
    }
    meta := Meta(scan.notes, reasons, Classify(env, policy, scan.notes.malformed, reasons, final), final,
                 env.unsafe(final));
  }

  // ---------- projection ----------

  /** A missing or null finish reason is kept as None; one of another type is left out. */
  datatype Finish = Omitted | Kept(reason: Option<string>)

  datatype Choice = Choice(finish: Finish, content: Option<string>)

  datatype Projection = Nothing | Projection(model: Option<string>, choices: seq<Choice>, usage: seq<(string, int)>)

  const USAGE_KEYS: seq<string> :=
    ["prompt_tokens", "completion_tokens", "total_tokens", "input_tokens", "output_tokens"]

  function ProjectChoice(choice: Json): Choice {
    var reason := Member(choice, "finish_reason");
    var message := Member(choice, "message");
    var content := if message.Some? then Member(message.value, "content") else None;
    Choice(if reason.None? || reason.value.Null? then Kept(None)
           else if reason.value.Str? then Kept(Some(reason.value.s)) else Omitted,
           if message.None? || !message.value.Obj? then None
           else if content.Some? && content.value.Str? then Some(content.value.s) else Some(""))
  }

  function ProjectChoices(choices: seq<Json>): (r: seq<Choice>)
    ensures |r| <= |choices|
  {
    if choices == [] then []
    else
      var n := |choices| - 1;
      ProjectChoices(choices[..n]) + if choices[n].Obj? then [ProjectChoice(choices[n])] else []
  }

  function ProjectUsage(usage: Option<Json>, n: nat): seq<(string, int)>
    requires n <= |USAGE_KEYS|
  {
    if n == 0 || usage.None? then []
    else
      var v := Member(usage.value, USAGE_KEYS[n - 1]);
      ProjectUsage(usage, n - 1) +
      if v.Some? && v.value.Int? && v.value.n >= 0 then [(USAGE_KEYS[n - 1], v.value.n)] else []
  }

  function Project(payload: Json): Projection {
    if !payload.Obj? then Nothing
    else
      var model := Member(payload, "model");
      Projection(if model.Some? && model.value.Str? then Some(model.value.s) else None,
                 ProjectChoices(Items(Member(payload, "choices"))),
                 ProjectUsage(Member(payload, "usage"), |USAGE_KEYS|))
  }

  // ---------- quarantine ----------

  function QuarantineChoice(choice: Json): Json {
    var message := Member(choice, "message");
    if message.Some? && message.value.Obj? then WithContent(choice, "") else choice
  }

  function QuarantineChoices(choices: seq<Json>): (r: seq<Json>)
    ensures |r| == |choices| && forall i :: 0 <= i < |r| ==> r[i] == QuarantineChoice(choices[i])
  {
    seq(|choices|, i requires 0 <= i < |choices| => QuarantineChoice(choices[i]))
  }

  function Quarantined(payload: Json): Json {
    var choices := Member(payload, "choices");
    if choices.None? || !choices.value.Arr? then payload
    else Obj(Put(payload.fields, "choices", Arr(QuarantineChoices(choices.value.items))))
  }

  method QuarantineLocalResponseContent(payload: Json) returns (out: Json)
    ensures out == Quarantined(payload)
  {
    var choices := Member(payload, "choices");
    if choices.None? || !choices.value.Arr? {
      return payload;
    }
    var items := choices.value.items;
    var blanked := items;
    for i := 0 to |items|
      invariant |blanked| == |items|
      invariant forall j :: 0 <= j < |items| ==> blanked[j] == if j < i then QuarantineChoice(items[j]) else items[j]
    {
      var message := Member(items[i], "message");
      if message.Some? && message.value.Obj? {
        blanked := blanked[i := WithContent(items[i], "")];
      }
    }
    assert blanked == QuarantineChoices(items);
    out := Obj(Put(payload.fields, "choices", Arr(blanked)));
  }

  // ---------- the post-response part of a dispatch ----------

  /** The body decoded as strict JSON, or the record that stands in for an undecodable one. */
  datatype Body = Decoded(payload: Json) | Undecodable(record: Json)

  /** Verdict of the response contract: the parsed review, and whether any or a control-character error arose. */
  datatype Verdict = Verdict(review: Option<Json>, errors: bool, controls: bool)

  datatype Transport = Transport(policy: Policy, model: string, modelRequired: bool,
                                 contract: Option<string -> Verdict>,
                                 quarantineUnusable: bool, quarantineInvalid: bool)

  datatype Outcome = Outcome(response: Projection, status: Status, usable: bool, final: string, normalized: bool)

  function PayloadOf(body: Body): Json {
    if body.Decoded? then body.payload else body.record
  }

  predicate ModelMatches(t: Transport, body: Body) {
    t.modelRequired ==> Member(PayloadOf(body), "model") == Some(Str(t.model))
  }

  predicate Accepted(v: Verdict) {
    v.review.Some? && !v.errors
  }

  /** Completion status once decoding, model match and contract have had their say. */
  function FinalStatus(t: Transport, body: Body, meta: Meta): Status {
    if body.Undecodable? || !ModelMatches(t, body) then Malformed
    else if t.contract.Some? && meta.status.Completed? && !Accepted(t.contract.value(meta.final)) then
      if t.contract.value(meta.final).controls then Unsafe else ContractInvalid
    else meta.status
  }

  predicate Eligible(t: Transport, body: Body, meta: Meta) {
    && FinalStatus(t, body, meta).Completed?
    && ModelMatches(t, body)
    && (t.contract.Some? ==> Accepted(t.contract.value(meta.final)))
  }

  predicate QuarantineConfigured(t: Transport) {
    t.quarantineUnusable || (t.contract.Some? && t.quarantineInvalid)
  }

  method FinishDispatch(env: Env, t: Transport, body: Body) returns (out: Outcome)
    ensures out == Finished(env, t, body)
  {
    var sanitized, meta := SanitizeLocalResponsePayload(env, t.policy, PayloadOf(body));
    var status, eligible := Judge(t, body, meta);
    var final, normalized := meta.final, false;
    if eligible && t.contract.Some? {
      normalized := true;
    } else if final != "" && QuarantineConfigured(t) {
      sanitized := QuarantineLocalResponseContent(sanitized);
      final := "";
    }
    out := Outcome(Project(sanitized), status, eligible, final, normalized);
  }

  /** Decoding, model match and response contract, in this order. */
  method Judge(t: Transport, body: Body, meta: Meta) returns (status: Status, eligible: bool)
    ensures status == FinalStatus(t, body, meta) && eligible == Eligible(t, body, meta)
  {
    status := meta.status;
    if body.Undecodable? {
      status := Malformed;
    }
    var matches := true;
    if t.modelRequired {
      matches := Member(PayloadOf(body), "model") == Some(Str(t.model));
      if !matches {
        status := Malformed;
      }
    }
    var accepted := true;
    if t.contract.Some? {
      var verdict := t.contract.value(meta.final);
      accepted := verdict.review.Some? && !verdict.errors;
      if !accepted && status == Completed {
        status := if verdict.controls then Unsafe else ContractInvalid;
      }
    }
    eligible := status == Completed && matches && accepted;
  }

  function Finished(env: Env, t: Transport, body: Body): Outcome {
    var (sanitized, meta) := Sanitized(env, t.policy, PayloadOf(body));
    Concluded(t, body, sanitized, meta)
  }

  /** The outcome for a body whose payload was sanitized to this, with these findings. */
  function Concluded(t: Transport, body: Body, sanitized: Json, meta: Meta): Outcome {
    var eligible := Eligible(t, body, meta);
    var withheld := !(eligible && t.contract.Some?) && meta.final != "" && QuarantineConfigured(t);
    Outcome(Project(if withheld then Quarantined(sanitized) else sanitized), FinalStatus(t, body, meta), eligible,
            if withheld then "" else meta.final, eligible && t.contract.Some?)
  }

  const UNUSABLE_EXIT_CODE: int := 4

  function ExitCode(out: Outcome): int {
    if out.status.Completed? && out.usable then 0 else UNUSABLE_EXIT_CODE
  }
}
