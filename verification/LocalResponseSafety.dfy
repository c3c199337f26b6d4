/** End-to-end guarantees of the local response pipeline. */
module LocalResponseSafety {
  import opened Wrappers
  import opened Json
  import opened LocalResponse
  import RF = ReasoningFilter
  import TT = ThinkTags
  import CC = CriticContract

  // ---------- fields ----------

  lemma {:induction false} GetPut(fields: seq<Field>, key: string, value: Json)
    ensures Get(Put(fields, key, value), key) == Some(value)
  {
    if fields != [] && fields[0].key != key {
      GetPut(fields[1..], key, value);
    }
  }

  /** The message text that a projection shows for a choice. */
  function Shown(choice: Json): Option<string> {
    ProjectChoice(choice).content
  }

  lemma WithContentShows(choice: Json, content: string)
    requires choice.Obj? && Member(choice, "message").Some? && Member(choice, "message").value.Obj?
    ensures Shown(WithContent(choice, content)) == Some(content)
  {
    var message := Member(choice, "message").value;
    var inner := Put(message.fields, "content", Str(content));
    GetPut(message.fields, "content", Str(content));
    GetPut(choice.fields, "message", Obj(inner));
  }

  /** The usage figures retained: those of the known keys that are non-negative integers. */
  lemma {:induction false} UsageIs(usage: Option<Json>, n: nat, key: string, count: int)
    requires n <= |USAGE_KEYS|
    ensures (key, count) in ProjectUsage(usage, n) <==>
            usage.Some? && key in USAGE_KEYS[..n] && Member(usage.value, key) == Some(Int(count)) && 0 <= count
  {
    if n > 0 {
      UsageIs(usage, n - 1, key, count);
      assert USAGE_KEYS[..n] == USAGE_KEYS[..n - 1] + [USAGE_KEYS[n - 1]];
    }
  }

  /** What is retained of a choice: its finish reason if that is a string or missing, and the text of its message. */
  lemma ChoiceIs(choice: Json)
    ensures var c, reason, message := ProjectChoice(choice), Member(choice, "finish_reason"), Member(choice, "message");
            && (c.finish == Kept(None) <==> reason.None? || reason == Some(Null))
            && (forall s :: c.finish == Kept(Some(s)) <==> reason == Some(Str(s)))
            && (c.content.Some? <==> message.Some? && message.value.Obj?)
            && (c.content.Some? ==>
                  var content := Member(message.value, "content");
                  && (forall s :: content == Some(Str(s)) ==> c.content == Some(s))
                  && ((forall s :: content != Some(Str(s))) ==> c.content == Some("")))
  {
  }

  // ---------- quarantine ----------

  ghost predicate BlankChoice(c: Choice) {
    c.content.Some? ==> Blank(c.content.value)
  }

  ghost predicate BlankResponse(p: Projection) {
    p.Projection? ==> forall i :: 0 <= i < |p.choices| ==> BlankChoice(p.choices[i])
  }

  lemma {:induction false} ProjectBlankChoices(choices: seq<Json>)
    requires forall i :: 0 <= i < |choices| ==> choices[i].Obj? ==> BlankChoice(ProjectChoice(choices[i]))
    ensures forall i :: 0 <= i < |ProjectChoices(choices)| ==> BlankChoice(ProjectChoices(choices)[i])
  {
    if choices != [] {
      ProjectBlankChoices(choices[..|choices| - 1]);
    }
  }

  lemma QuarantinedIsBlank(payload: Json)
    ensures BlankResponse(Project(Quarantined(payload)))
  {
    var choices := Member(payload, "choices");
    if choices.Some? && choices.value.Arr? {
      var blanked := QuarantineChoices(choices.value.items);
      GetPut(payload.fields, "choices", Arr(blanked));
      forall i | 0 <= i < |blanked| && blanked[i].Obj? ensures BlankChoice(ProjectChoice(blanked[i])) {
        var choice := choices.value.items[i];
        if choice.Obj? && Member(choice, "message").Some? && Member(choice, "message").value.Obj? {
          WithContentShows(choice, "");
        }
      }
      ProjectBlankChoices(blanked);
    }
  }

  ghost predicate NoneBlank(finals: seq<string>) {
    forall s :: s in finals ==> !Blank(s)
  }

  lemma {:induction false} FinalsAreNotBlank(env: Env, policy: Policy, notes: RF.Notes, choices: seq<Json>)
    ensures NoneBlank(ScanChoices(env, policy, notes, choices).finals)
  {
    if choices != [] {
      var n := |choices| - 1;
      FinalsAreNotBlank(env, policy, notes, choices[..n]);
      LastScanned(env, policy, ScanChoices(env, policy, notes, choices[..n]), choices[n]);
    }
  }

  /** If scanning found no final content, every message text it left is blank. */
  lemma {:induction false} NoFinalsMeansBlank(env: Env, policy: Policy, notes: RF.Notes, choices: seq<Json>)
    requires ScanChoices(env, policy, notes, choices).finals == []
    ensures forall i :: 0 <= i < |choices| ==>
              BlankChoice(ProjectChoice(ScanChoices(env, policy, notes, choices).choices[i]))
  {
    if choices != [] {
      var n := |choices| - 1;
      var before := ScanChoices(env, policy, notes, choices[..n]);
      NoFinalsMeansBlank(env, policy, notes, choices[..n]);
      LastScanned(env, policy, before, choices[n]);
    }
  }

  lemma LastScanned(env: Env, policy: Policy, scan: Scan, choice: Json)
    ensures var after := ScanChoice(env, policy, scan, choice);
            && |after.choices| == |scan.choices| + 1 && after.choices[..|scan.choices|] == scan.choices
            && (NoneBlank(scan.finals) ==> NoneBlank(after.finals))
            && scan.finals <= after.finals
            && (after.finals == scan.finals ==> BlankChoice(ProjectChoice(after.choices[|scan.choices|])))
            && (after.finals != scan.finals ==>
                  && |after.finals| == |scan.finals| + 1
                  && Shown(after.choices[|scan.choices|]) == Some(after.finals[|scan.finals|]))
  {
    var message := Member(choice, "message");
    if message.Some? && message.value.Obj? {
      var content := Member(message.value, "content");
      var text := if content.Some? && content.value.Str? then content.value.s else "";
      var split := if policy.thinkTags then TT.SplitThinking(env.fold, text) else TT.Untouched(text);
      WithContentShows(choice, split.content);
    }
  }

  lemma NoFinalMeansBlank(env: Env, policy: Policy, payload: Json)
    requires Sanitized(env, policy, payload).1.final == ""
    ensures BlankResponse(Project(Sanitized(env, policy, payload).0))
  {
    if WithinDepth(payload, MAX_DEPTH) {
      var (clean, notes) := Filtered(env, payload);
      if clean.Obj? {
        var choices := Items(Member(clean, "choices"));
        var start := Mark(notes, |choices| != 1);
        var scan := ScanChoices(env, policy, start, choices);
        FinalsAreNotBlank(env, policy, start, choices);
        assert Blank("");
        NoFinalsMeansBlank(env, policy, start, choices);
        if choices != [] {
          GetPut(clean.fields, "choices", Arr(scan.choices));
          ProjectBlankChoices(scan.choices);
        }
      }
    }
  }

  /** With quarantine configured, an ineligible response shows no message content. */
  lemma IneligibleIsQuarantined(env: Env, t: Transport, body: Body)
    requires QuarantineConfigured(t) && !Finished(env, t, body).usable
    ensures BlankResponse(Finished(env, t, body).response) && Finished(env, t, body).final == ""
  {
    var (sanitized, meta) := Sanitized(env, t.policy, PayloadOf(body));
    if meta.final == "" {
      NoFinalMeansBlank(env, t.policy, PayloadOf(body));
    } else {
      QuarantinedIsBlank(sanitized);
    }
  }

  /** The process exits with 0 exactly for an eligible response. */
  lemma ExitZeroIffEligible(env: Env, t: Transport, body: Body)
    ensures ExitCode(Finished(env, t, body)) == 0 <==>
            && body.Decoded? && ModelMatches(t, body)
            && Sanitized(env, t.policy, PayloadOf(body)).1.status.Completed?
            && (t.contract.Some? ==> Accepted(t.contract.value(Sanitized(env, t.policy, PayloadOf(body)).1.final)))
  {
  }

  /** Later checks only ever downgrade: what the sanitizer did not call completed never becomes completed. */
  lemma StatusIsNeverPromoted(env: Env, t: Transport, body: Body)
    ensures Finished(env, t, body).status.Completed? ==> Sanitized(env, t.policy, PayloadOf(body)).1.status.Completed?
    ensures Finished(env, t, body).usable ==> Finished(env, t, body).status.Completed?
  {
  }

  /** The status a dispatch ends with, and when its response is usable and replaced by the parsed review. */
  lemma DispatchStatusIs(env: Env, t: Transport, body: Body)
    ensures var out, meta := Finished(env, t, body), Sanitized(env, t.policy, PayloadOf(body)).1;
            var undecided :=
              body.Undecodable? || (t.modelRequired && Member(PayloadOf(body), "model") != Some(Str(t.model)));
            && (undecided ==> out.status.Malformed? && !out.usable)
            && (!undecided && (t.contract.None? || !meta.status.Completed?) ==>
                  out.status == meta.status && (out.usable <==> meta.status.Completed?))
            && (!undecided && t.contract.Some? && meta.status.Completed? ==>
                  var verdict := t.contract.value(meta.final);
                  && (out.usable <==> verdict.review.Some? && !verdict.errors)
                  && out.status == (if out.usable then Completed
                                    else if verdict.controls then Unsafe else ContractInvalid))
            && (out.normalized <==> out.usable && t.contract.Some?)
  {
  }

  /** A completed response has one choice, no provider error, and that choice shows the final content. */
  lemma CompletedResponseShowsItsFinal(env: Env, policy: Policy, payload: Json)
    requires Sanitized(env, policy, payload).1.status.Completed?
    ensures var (out, meta) := Sanitized(env, policy, payload);
            && Member(payload, "error").None? && !Blank(meta.final) && !env.unsafe(meta.final)
            && |Items(Member(out, "choices"))| == 1 && Shown(Items(Member(out, "choices"))[0]) == Some(meta.final)
  {
    var (clean, notes) := Filtered(env, payload);
    var choices := Items(Member(clean, "choices"));
    var start := Mark(notes, |choices| != 1);
    var scan := ScanChoices(env, policy, start, choices);
    MalformedStays(env, policy, start, choices);
    FinalsAreNotBlank(env, policy, start, choices);
    var bare := if Member(payload, "error").Some? then Obj(Drop(payload.fields, "error")) else payload;
    NotesStayMalformed(env.tools, bare, Mark(NO_NOTES, Member(payload, "error").Some?));
    assert |choices| == 1;
    var before := ScanChoices(env, policy, start, choices[..0]);
    assert before == Scan([], start, []);
    LastScanned(env, policy, before, choices[0]);
    GetPut(clean.fields, "choices", Arr(scan.choices));
  }

  lemma {:induction false} MalformedStays(env: Env, policy: Policy, notes: RF.Notes, choices: seq<Json>)
    ensures notes.malformed ==> ScanChoices(env, policy, notes, choices).notes.malformed
  {
    if choices != [] {
      MalformedStays(env, policy, notes, choices[..|choices| - 1]);
    }
  }

  lemma {:induction false} NotesStayMalformed(tools: RF.Tools, v: Json, notes: RF.Notes)
    ensures notes.malformed ==> RF.NoteAll(tools, Blank, notes, v).malformed
    decreases v
  {
    match v
    case Arr(items) => ItemNotesStayMalformed(tools, items, notes);
    case Obj(fields) => FieldNotesStayMalformed(tools, fields, notes);
    case _ =>
  }

  lemma {:induction false} ItemNotesStayMalformed(tools: RF.Tools, items: seq<Json>, notes: RF.Notes)
    ensures notes.malformed ==> RF.NoteItems(tools, Blank, notes, items).malformed
    decreases items
  {
    if items != [] {
      var n := |items| - 1;
      ItemNotesStayMalformed(tools, items[..n], notes);
      NotesStayMalformed(tools, items[n], RF.NoteItems(tools, Blank, notes, items[..n]));
    }
  }

  lemma {:induction false} FieldNotesStayMalformed(tools: RF.Tools, fields: seq<Field>, notes: RF.Notes)
    ensures notes.malformed ==> RF.NoteFields(tools, Blank, notes, fields).malformed
    decreases fields
  {
    if fields != [] {
      var n := |fields| - 1;
      FieldNotesStayMalformed(tools, fields[..n], notes);
      NotesStayMalformed(tools, fields[n].value, RF.NoteFields(tools, Blank, notes, fields[..n]));
    }
  }

  /**
   An eligible response is delivered with its text exactly when a response contract is set or unusable content is
   not quarantined: without a contract, the quarantine branch blanks good answers too.
   */
  lemma EligibleTextSurvivesIff(env: Env, t: Transport, body: Body)
    requires Finished(env, t, body).usable
    ensures var out := Finished(env, t, body);
            var kept := t.contract.Some? || !t.quarantineUnusable;
            && (kept ==>
                  out.final == Sanitized(env, t.policy, PayloadOf(body)).1.final != "" && !BlankResponse(out.response))
            && (!kept ==> out.final == "" && BlankResponse(out.response))
  {
    var (sanitized, meta) := Sanitized(env, t.policy, PayloadOf(body));
    CompletedResponseShowsItsFinal(env, t.policy, PayloadOf(body));
    assert Blank("");
    if t.contract.Some? || !t.quarantineUnusable {
      OneChoiceProjected(sanitized);
      assert !BlankChoice(Finished(env, t, body).response.choices[0]);
    } else {
      QuarantinedIsBlank(sanitized);
    }
  }

  lemma OneChoiceProjected(payload: Json)
    requires |Items(Member(payload, "choices"))| == 1 && Shown(Items(Member(payload, "choices"))[0]).Some?
    ensures ProjectChoices(Items(Member(payload, "choices"))) == [ProjectChoice(Items(Member(payload, "choices"))[0])]
  {
    var choices := Items(Member(payload, "choices"));
    assert ProjectChoices(choices[..0]) == [];
    assert choices[0].Obj?;
  }

  // ---------- noninterference ----------

  /** The keys the pipeline itself reads are not taken for reasoning. */
  ghost predicate ReadsPlainKeys(kind: string -> RF.KeyKind) {
    !kind("choices").Reasoning? && !kind("finish_reason").Reasoning? && !kind("model").Reasoning?
  }

  /** Normalisation that leaves plain lower-case words alone keeps the pipeline's own keys readable. */
  lemma PlainKeysAreReadable(norm: string -> string)
    requires norm("choices") == "choices" && norm("finish_reason") == "finish_reason" && norm("model") == "model"
    ensures ReadsPlainKeys((key: string) => RF.KindOf(norm, key))
  {
    assert "choices"[0] == 'c' && |"choices"| == 7 && |"model"| == 5 && |"finish_reason"| == 13;
    assert "chain_of_thought"[1] == 'h';
  }

  lemma {:induction false} AgreeGet(kind: string -> RF.KeyKind, a: seq<Field>, b: seq<Field>, key: string)
    requires RF.Agree(kind, Obj(a), Obj(b)) && !kind(key).Reasoning?
    ensures Get(a, key).Some? == Get(b, key).Some?
    ensures Get(a, key).Some? ==> RF.Agree(kind, Get(a, key).value, Get(b, key).value)
  {
    if a != [] && a[0].key != key {
      assert RF.Agree(kind, Obj(a[1..]), Obj(b[1..]));
      AgreeGet(kind, a[1..], b[1..], key);
    }
  }

  lemma {:induction false} AgreeHas(kind: string -> RF.KeyKind, a: seq<Field>, b: seq<Field>, key: string)
    requires RF.Agree(kind, Obj(a), Obj(b))
    ensures Get(a, key).Some? == Get(b, key).Some?
    ensures RF.Agree(kind, Obj(Drop(a, key)), Obj(Drop(b, key)))
  {
    if a != [] {
      assert RF.Agree(kind, Obj(a[1..]), Obj(b[1..]));
      AgreeHas(kind, a[1..], b[1..], key);
    }
  }

  lemma AgreeReason(kind: string -> RF.KeyKind, a: Json, b: Json)
    requires RF.Agree(kind, a, b) && ReadsPlainKeys(kind)
    ensures ReasonOf(a) == ReasonOf(b)
  {
    if a.Obj? {
      AgreeGet(kind, a.fields, b.fields, "finish_reason");
    }
  }

  lemma {:induction false} AgreeReasons(kind: string -> RF.KeyKind, a: seq<Json>, b: seq<Json>)
    requires ReadsPlainKeys(kind) && |a| == |b| && forall i :: 0 <= i < |a| ==> RF.Agree(kind, a[i], b[i])
    ensures FinishReasons(a) == FinishReasons(b)
  {
    if a != [] {
      var n := |a| - 1;
      AgreeReasons(kind, a[..n], b[..n]);
      AgreeReason(kind, a[n], b[n]);
    }
  }

  lemma {:induction false} ScanForgetsNotes(env: Env, policy: Policy, a: RF.Notes, b: RF.Notes, choices: seq<Json>)
    requires RF.SameVerdict(a, b)
    ensures var x, y := ScanChoices(env, policy, a, choices), ScanChoices(env, policy, b, choices);
            x.choices == y.choices && x.finals == y.finals && RF.SameVerdict(x.notes, y.notes)
  {
    if choices != [] {
      ScanForgetsNotes(env, policy, a, b, choices[..|choices| - 1]);
    }
  }

  /** Everything but the digests of what was stripped. */
  ghost predicate SameFindings(a: Meta, b: Meta) {
    && a.finishReasons == b.finishReasons && a.status == b.status && a.final == b.final && a.rejected == b.rejected
    && RF.SameVerdict(a.notes, b.notes)
  }

  lemma FilteredForgetsReasoning(env: Env, v: Json, w: Json)
    requires RF.Agree(env.tools.kind, v, w)
    ensures Filtered(env, v).0 == Filtered(env, w).0 && RF.SameVerdict(Filtered(env, v).1, Filtered(env, w).1)
  {
    var kind := env.tools.kind;
    if v.Obj? {
      AgreeHas(kind, v.fields, w.fields, "error");
    }
    var failed := Member(v, "error").Some?;
    var v' := if failed then Obj(Drop(v.fields, "error")) else v;
    var w' := if failed then Obj(Drop(w.fields, "error")) else w;
    RF.StripForgetsReasoning(kind, v', w');
    RF.NotesForgetReasoning(env.tools, Blank, v', w', Mark(NO_NOTES, failed), Mark(NO_NOTES, failed));
  }

  /** Payloads that differ only under reasoning keys, at any depth, are sanitized to the same payload and verdict. */
  lemma SanitizingForgetsReasoning(env: Env, policy: Policy, v: Json, w: Json)
    requires RF.Agree(env.tools.kind, v, w) && ReadsPlainKeys(env.tools.kind)
    requires WithinDepth(v, MAX_DEPTH) && WithinDepth(w, MAX_DEPTH)
    ensures Sanitized(env, policy, v).0 == Sanitized(env, policy, w).0
    ensures SameFindings(Sanitized(env, policy, v).1, Sanitized(env, policy, w).1)
  {
    var kind := env.tools.kind;
    if v.Obj? {
      AgreeGet(kind, v.fields, w.fields, "choices");
      AgreeReasons(kind, Items(Member(v, "choices")), Items(Member(w, "choices")));
    }
    FilteredForgetsReasoning(env, v, w);
    var (clean, a) := Filtered(env, v);
    var b := Filtered(env, w).1;
    var choices := Items(Member(clean, "choices"));
    ScanForgetsNotes(env, policy, Mark(a, |choices| != 1), Mark(b, |choices| != 1), choices);
  }

  /** Nothing a caller or the exit code sees depends on the model's reasoning fields. */
  lemma DispatchForgetsReasoning(env: Env, t: Transport, v: Json, w: Json)
    requires RF.Agree(env.tools.kind, v, w) && ReadsPlainKeys(env.tools.kind)
    requires WithinDepth(v, MAX_DEPTH) && WithinDepth(w, MAX_DEPTH)
    ensures Finished(env, t, Decoded(v)) == Finished(env, t, Decoded(w))
  {
    SanitizingForgetsReasoning(env, t.policy, v, w);
    SameModel(env.tools.kind, v, w, t.model);
    FinishedIsConcluded(env, t, v);
    FinishedIsConcluded(env, t, w);
    ConclusionIgnoresNotes(t, Decoded(v), Decoded(w), Sanitized(env, t.policy, v).0,
                           Sanitized(env, t.policy, v).1, Sanitized(env, t.policy, w).1);
  }

  lemma SameModel(kind: string -> RF.KeyKind, v: Json, w: Json, model: string)
    requires RF.Agree(kind, v, w) && ReadsPlainKeys(kind)
    ensures Member(v, "model") == Some(Str(model)) <==> Member(w, "model") == Some(Str(model))
  {
    if v.Obj? {
      AgreeGet(kind, v.fields, w.fields, "model");
    }
  }

  lemma FinishedIsConcluded(env: Env, t: Transport, v: Json)
    ensures Finished(env, t, Decoded(v)) ==
            Concluded(t, Decoded(v), Sanitized(env, t.policy, v).0, Sanitized(env, t.policy, v).1)
  {
  }

  lemma ConclusionIgnoresNotes(t: Transport, a: Body, b: Body, sanitized: Json, x: Meta, y: Meta)
    requires a.Decoded? && b.Decoded? && SameFindings(x, y)
    requires Member(a.payload, "model") == Some(Str(t.model)) <==> Member(b.payload, "model") == Some(Str(t.model))
    ensures Concluded(t, a, sanitized, x) == Concluded(t, b, sanitized, y)
  {
    assert ModelMatches(t, a) == ModelMatches(t, b);
  }

  // ---------- the critic contract in place ----------

  /** The contract check of a dispatch, carried out by the critic validator. */
  function CriticCheck(reader: CC.Reader, c: CC.Contract, maximum: int): string -> Verdict {
    (content: string) =>
      match CC.Validated(reader, c, content, maximum)
      case Review(value) => Verdict(Some(value), false, false)
      case Unsafe => Verdict(None, true, true)
      case _ => Verdict(None, true, false)
  }

  /** A usable response under a critic contract carries a review that its JSON schema allows and that says something. */
  lemma UsableReviewSatisfiesSchema(env: Env, t: Transport, body: Body, reader: CC.Reader, c: CC.Contract, maximum: int)
    returns (review: Json)
    requires t.contract == Some(CriticCheck(reader, c, maximum)) && Finished(env, t, body).usable
    ensures CC.Validated(reader, c, Finished(env, t, body).final, maximum) == CC.Review(review)
    ensures CC.Satisfies(review, CC.CriticSchema(c)) && CC.SaysSomething(review)
    ensures Finished(env, t, body).normalized
  {
    var (sanitized, meta) := Sanitized(env, t.policy, PayloadOf(body));
    review := EligibleReview(t, body, sanitized, meta, reader, c, maximum);
  }

  lemma EligibleReview(t: Transport, body: Body, sanitized: Json, meta: Meta, reader: CC.Reader, c: CC.Contract,
                       maximum: int)
    returns (review: Json)
    requires t.contract == Some(CriticCheck(reader, c, maximum)) && Concluded(t, body, sanitized, meta).usable
    ensures CC.Validated(reader, c, Concluded(t, body, sanitized, meta).final, maximum) == CC.Review(review)
    ensures CC.Satisfies(review, CC.CriticSchema(c)) && CC.SaysSomething(review)
    ensures Concluded(t, body, sanitized, meta).normalized
  {
    assert Accepted(CriticCheck(reader, c, maximum)(meta.final));
    review := ReviewOf(reader, c, maximum, meta.final);
  }

  lemma ReviewOf(reader: CC.Reader, c: CC.Contract, maximum: int, content: string) returns (review: Json)
    requires Accepted(CriticCheck(reader, c, maximum)(content))
    ensures CC.Validated(reader, c, content, maximum) == CC.Review(review)
    ensures CC.Satisfies(review, CC.CriticSchema(c)) && CC.SaysSomething(review)
  {
    review := CC.Validated(reader, c, content, maximum).value;
    CC.AcceptsIffSchema(c, review);
  }
}
