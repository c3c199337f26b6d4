/** Which completion status the sanitizer gives to which payload, read off the raw payload. */
module LocalResponseStatus {
  import opened Wrappers
  import opened Json
  import opened LocalResponse
  import RF = ReasoningFilter
  import TT = ThinkTags
  import Text

  // ---------- finish reasons ----------

  /** The choice gives this finish reason, before trimming. */
  predicate Gives(choice: Json, s: string) {
    Member(choice, "finish_reason") == Some(Str(s)) && Text.Strip(s) != ""
  }

  /** Some choice was cut off: its trimmed reason is `length` or `max_tokens`, in any case. */
  ghost predicate CutOff(env: Env, choices: seq<Json>) {
    exists c, s :: c in choices && Gives(c, s) &&
                   (Text.Strip(s) == "length" || env.lower(Text.Strip(s)) == "length"
                    || env.lower(Text.Strip(s)) == "max_tokens")
  }

  /** At least one reason is given, and all of them are the required one, in any case. */
  ghost predicate EndsAsRequired(env: Env, required: string, choices: seq<Json>) {
    && (exists c, s :: c in choices && Gives(c, s))
    && forall c, s :: c in choices && Gives(c, s) ==> env.lower(Text.Strip(s)) == env.lower(Text.Strip(required))
  }

  lemma {:induction false} ReasonsAreGiven(choices: seq<Json>, r: string)
    ensures r in FinishReasons(choices) <==> exists c, s :: c in choices && Gives(c, s) && Text.Strip(s) == r
  {
    if choices != [] {
      var n := |choices| - 1;
      ReasonsAreGiven(choices[..n], r);
      assert choices == choices[..n] + [choices[n]];
      LastReason(choices[n], r);
    }
  }

  lemma LastReason(choice: Json, r: string)
    ensures r in ReasonOf(choice) <==> exists s :: Gives(choice, s) && Text.Strip(s) == r
  {
    var reason := Member(choice, "finish_reason");
    if reason.Some? && reason.value.Str? && !Blank(reason.value.s) {
      assert Gives(choice, reason.value.s);
    }
  }

  /** Of what is neither unsafe nor malformed, the finish reasons and the final content decide, in this order. */
  lemma ClassifyIs(env: Env, policy: Policy, malformed: bool, choices: seq<Json>, final: string)
    ensures var status := Classify(env, policy, malformed, FinishReasons(choices), final);
            && (status.Unsafe? <==> env.unsafe(final))
            && (!env.unsafe(final) && malformed ==> status.Malformed?)
            && (!env.unsafe(final) && !malformed ==>
                  && (status.BudgetExhausted? <==> CutOff(env, choices))
                  && (status.EmptyFinal? <==> !CutOff(env, choices) && final == "")
                  && (status.Malformed? <==>
                        && !CutOff(env, choices) && final != "" && policy.requiredFinish.Some?
                        && !EndsAsRequired(env, policy.requiredFinish.value, choices))
                  && (status.Completed? <==>
                        && !CutOff(env, choices) && final != ""
                        && (policy.requiredFinish.Some? ==> EndsAsRequired(env, policy.requiredFinish.value, choices))))
  {
    var reasons := FinishReasons(choices);
    CutOffIff(env, choices);
    if policy.requiredFinish.Some? {
      EndsAsRequiredIff(env, policy.requiredFinish.value, choices);
    }
  }

  function Lowered(env: Env, reasons: seq<string>): (r: seq<string>)
    ensures |r| == |reasons| && forall i :: 0 <= i < |r| ==> r[i] == env.lower(reasons[i])
  {
    seq(|reasons|, i requires 0 <= i < |reasons| => env.lower(reasons[i]))
  }

  lemma CutOffIff(env: Env, choices: seq<Json>)
    ensures var reasons := FinishReasons(choices); var lowered := Lowered(env, reasons);
            CutOff(env, choices) <==> "length" in reasons || "length" in lowered || "max_tokens" in lowered
  {
    var reasons := FinishReasons(choices);
    var lowered := Lowered(env, reasons);
    if c, s :| c in choices && Gives(c, s) && (Text.Strip(s) == "length" || env.lower(Text.Strip(s)) == "length"
                                              || env.lower(Text.Strip(s)) == "max_tokens") {
      ReasonsAreGiven(choices, Text.Strip(s));
      var i :| 0 <= i < |reasons| && reasons[i] == Text.Strip(s);
      assert lowered[i] == env.lower(Text.Strip(s));
    }
    if "length" in reasons {
      ReasonsAreGiven(choices, "length");
    }
    if i :| 0 <= i < |lowered| && (lowered[i] == "length" || lowered[i] == "max_tokens") {
      ReasonsAreGiven(choices, reasons[i]);
    }
  }

  lemma EndsAsRequiredIff(env: Env, required: string, choices: seq<Json>)
    ensures var reasons := FinishReasons(choices);
            EndsAsRequired(env, required, choices) <==>
            reasons != [] && forall i :: 0 <= i < |reasons| ==> env.lower(reasons[i]) == env.lower(Text.Strip(required))
  {
    var reasons, word := FinishReasons(choices), env.lower(Text.Strip(required));
    if EndsAsRequired(env, required, choices) {
      var c, s :| c in choices && Gives(c, s);
      ReasonsAreGiven(choices, Text.Strip(s));
      forall i | 0 <= i < |reasons| ensures env.lower(reasons[i]) == word {
        ReasonsAreGiven(choices, reasons[i]);
      }
    }
    if reasons != [] && forall i :: 0 <= i < |reasons| ==> env.lower(reasons[i]) == word {
      AllAsRequired(env, word, choices);
    }
  }

  lemma AllAsRequired(env: Env, word: string, choices: seq<Json>)
    requires var reasons := FinishReasons(choices);
             reasons != [] && forall i :: 0 <= i < |reasons| ==> env.lower(reasons[i]) == word
    ensures exists c, s :: c in choices && Gives(c, s)
    ensures forall c, s :: c in choices && Gives(c, s) ==> env.lower(Text.Strip(s)) == word
  {
    var reasons := FinishReasons(choices);
    ReasonsAreGiven(choices, reasons[0]);
    forall c, s | c in choices && Gives(c, s) ensures env.lower(Text.Strip(s)) == word {
      ReasonsAreGiven(choices, Text.Strip(s));
      var i :| 0 <= i < |reasons| && reasons[i] == Text.Strip(s);
    }
  }

  // ---------- soundness of a payload ----------

  /** A forbidden key with a value, not below a reasoning key. */
  ghost predicate Offends(kind: string -> RF.KeyKind, v: Json)
    decreases v
  {
    match v
    case Arr(items) => exists x :: x in items && Offends(kind, x)
    case Obj(fields) => exists f :: f in fields && FieldOffends(kind, f)
    case _ => false
  }

  ghost predicate FieldOffends(kind: string -> RF.KeyKind, f: Field)
    decreases f
  {
    || (kind(f.key).Forbidden? && !RF.Empty(Blank, f.value))
    || (kind(f.key).Ordinary? && Offends(kind, f.value))
  }

  lemma {:induction false} OffendsIff(tools: RF.Tools, notes: RF.Notes, v: Json)
    ensures RF.NoteAll(tools, Blank, notes, v).malformed <==> notes.malformed || Offends(tools.kind, v)
    decreases v
  {
    match v
    case Arr(items) => ItemsOffendIff(tools, notes, items);
    case Obj(fields) => FieldsOffendIff(tools, notes, fields);
    case _ =>
  }

  lemma {:induction false} ItemsOffendIff(tools: RF.Tools, notes: RF.Notes, items: seq<Json>)
    ensures RF.NoteItems(tools, Blank, notes, items).malformed <==>
            notes.malformed || exists x :: x in items && Offends(tools.kind, x)
    decreases items
  {
    if items != [] {
      var n := |items| - 1;
      ItemsOffendIff(tools, notes, items[..n]);
      OffendsIff(tools, RF.NoteItems(tools, Blank, notes, items[..n]), items[n]);
      assert items == items[..n] + [items[n]];
    }
  }

  lemma {:induction false} FieldsOffendIff(tools: RF.Tools, notes: RF.Notes, fields: seq<Field>)
    ensures RF.NoteFields(tools, Blank, notes, fields).malformed <==>
            notes.malformed || exists f :: f in fields && FieldOffends(tools.kind, f)
    decreases fields
  {
    if fields != [] {
      var n := |fields| - 1;
      var before := RF.NoteFields(tools, Blank, notes, fields[..n]);
      FieldsOffendIff(tools, notes, fields[..n]);
      OffendsIff(tools, before, fields[n].value);
      assert fields == fields[..n] + [fields[n]];
      LastField(tools, notes, fields);
    }
  }

  lemma LastField(tools: RF.Tools, notes: RF.Notes, fields: seq<Field>)
    requires fields != []
    requires var before := RF.NoteFields(tools, Blank, notes, fields[..|fields| - 1]);
             var v := fields[|fields| - 1].value;
             RF.NoteAll(tools, Blank, before, v).malformed <==> before.malformed || Offends(tools.kind, v)
    ensures RF.NoteFields(tools, Blank, notes, fields).malformed <==>
            || RF.NoteFields(tools, Blank, notes, fields[..|fields| - 1]).malformed
            || FieldOffends(tools.kind, fields[|fields| - 1])
  {
  }

  /** The text of a choice once think tags are taken out; None where there is none to read. */
  function SplitOf(env: Env, policy: Policy, choice: Json): Option<TT.Split> {
    var message := Member(choice, "message");
    if message.None? || !message.value.Obj? then None
    else
      var content := Member(message.value, "content");
      var text := if content.Some? && content.value.Str? then content.value.s else "";
      Some(if policy.thinkTags then TT.SplitThinking(env.fold, text) else TT.Untouched(text))
  }

  function TextOf(env: Env, policy: Policy, choice: Json): string {
    var split := SplitOf(env, policy, choice);
    if split.Some? then split.value.content else ""
  }

  /** A choice as it should be: a message with text or no content, sound think tags, a finish reason if required. */
  predicate SoundChoice(env: Env, policy: Policy, choice: Json) {
    && choice.Obj?
    && (policy.requiredFinish.Some? ==>
          Member(choice, "finish_reason").Some? && Member(choice, "finish_reason").value.Str?)
    && SplitOf(env, policy, choice).Some? && !SplitOf(env, policy, choice).value.malformed
    && var content := Member(Member(choice, "message").value, "content");
       content.None? || content.value.Null? || content.value.Str?
  }

  lemma ScanOfChoice(env: Env, policy: Policy, scan: Scan, choice: Json)
    ensures var after := ScanChoice(env, policy, scan, choice);
            && (after.notes.malformed <==> scan.notes.malformed || !SoundChoice(env, policy, choice))
            && var text := TextOf(env, policy, choice); after.finals == scan.finals + if Blank(text) then [] else [text]
  {
    assert Blank("");
    assert scan.finals + [] == scan.finals;
  }

  /** The first text that is not blank, or nothing. */
  ghost predicate IsFirstText(env: Env, policy: Policy, choices: seq<Json>, final: string) {
    if final == "" then forall c :: c in choices ==> Blank(TextOf(env, policy, c))
    else exists i :: 0 <= i < |choices| && TextOf(env, policy, choices[i]) == final && !Blank(final) &&
                     forall j :: 0 <= j < i ==> Blank(TextOf(env, policy, choices[j]))
  }

  lemma {:induction false} ScanOfChoices(env: Env, policy: Policy, notes: RF.Notes, choices: seq<Json>)
    ensures var scan := ScanChoices(env, policy, notes, choices);
            && (scan.notes.malformed <==>
                  notes.malformed || exists c :: c in choices && !SoundChoice(env, policy, c))
            && (scan.finals == [] <==> forall c :: c in choices ==> Blank(TextOf(env, policy, c)))
            && (scan.finals != [] ==> scan.finals[0] != "" && IsFirstText(env, policy, choices, scan.finals[0]))
  {
    if choices != [] {
      var n := |choices| - 1;
      var before := ScanChoices(env, policy, notes, choices[..n]);
      ScanOfChoices(env, policy, notes, choices[..n]);
      ScanOfChoice(env, policy, before, choices[n]);
      assert choices == choices[..n] + [choices[n]];
      FirstTextStays(env, policy, choices);
    }
  }

  lemma FirstTextStays(env: Env, policy: Policy, choices: seq<Json>)
    requires choices != []
    ensures var front, last := choices[..|choices| - 1], TextOf(env, policy, choices[|choices| - 1]);
            && (forall final :: final != "" && IsFirstText(env, policy, front, final) ==>
                  IsFirstText(env, policy, choices, final))
            && (!Blank(last) && (forall c :: c in front ==> Blank(TextOf(env, policy, c))) ==>
                  last != "" && IsFirstText(env, policy, choices, last))
  {
    var n := |choices| - 1;
    var front, last := choices[..n], TextOf(env, policy, choices[n]);
    forall final | final != "" && IsFirstText(env, policy, front, final)
      ensures IsFirstText(env, policy, choices, final)
    {
      var i :| 0 <= i < n && TextOf(env, policy, front[i]) == final && !Blank(final) &&
               forall j :: 0 <= j < i ==> Blank(TextOf(env, policy, front[j]));
      assert choices[i] == front[i] && forall j :: 0 <= j < i ==> choices[j] == front[j];
    }
    assert Blank("");
    if !Blank(last) && forall c :: c in front ==> Blank(TextOf(env, policy, c)) {
      assert forall j :: 0 <= j < n ==> choices[j] in front;
      assert TextOf(env, policy, choices[n]) == last;
    }
  }

  // ---------- the status of a payload ----------

  function CleanChoices(env: Env, payload: Json): seq<Json> {
    var bare := if Member(payload, "error").Some? then Obj(Drop(payload.fields, "error")) else payload;
    Items(Member(RF.Strip(env.tools.kind, bare), "choices"))
  }

  /** No provider error, nothing forbidden, and one choice as it should be. */
  ghost predicate Sound(env: Env, policy: Policy, payload: Json) {
    && Member(payload, "error").None? && !Offends(env.tools.kind, payload)
    && |CleanChoices(env, payload)| == 1 && SoundChoice(env, policy, CleanChoices(env, payload)[0])
  }

  /** Every status, for every payload. */
  lemma StatusOfPayload(env: Env, policy: Policy, payload: Json)
    ensures var meta := Sanitized(env, policy, payload).1;
            var raw := Items(Member(payload, "choices"));
            if !WithinDepth(payload, MAX_DEPTH) || !payload.Obj? then meta.status.Malformed? && meta.final == ""
            else
              && IsFirstText(env, policy, CleanChoices(env, payload), meta.final)
              && (meta.status.Unsafe? <==> env.unsafe(meta.final))
              && (meta.status.BudgetExhausted? <==>
                    !env.unsafe(meta.final) && Sound(env, policy, payload) && CutOff(env, raw))
              && (meta.status.EmptyFinal? <==>
                    !env.unsafe(meta.final) && Sound(env, policy, payload) && !CutOff(env, raw) && meta.final == "")
              && (meta.status.Completed? <==>
                    && !env.unsafe(meta.final) && Sound(env, policy, payload) && !CutOff(env, raw) && meta.final != ""
                    && (policy.requiredFinish.Some? ==> EndsAsRequired(env, policy.requiredFinish.value, raw)))
              && (meta.status.Malformed? <==>
                    && !env.unsafe(meta.final)
                    && (Sound(env, policy, payload) ==>
                          && !CutOff(env, raw) && meta.final != "" && policy.requiredFinish.Some?
                          && !EndsAsRequired(env, policy.requiredFinish.value, raw)))
  {
    if WithinDepth(payload, MAX_DEPTH) && payload.Obj? {
      var meta := Sanitized(env, policy, payload).1;
      SoundIff(env, policy, payload);
      ClassifyIs(env, policy, meta.notes.malformed, Items(Member(payload, "choices")), meta.final);
    }
  }

  lemma SoundIff(env: Env, policy: Policy, payload: Json)
    requires WithinDepth(payload, MAX_DEPTH) && payload.Obj?
    ensures var meta := Sanitized(env, policy, payload).1;
            && (meta.notes.malformed <==> !Sound(env, policy, payload))
            && IsFirstText(env, policy, CleanChoices(env, payload), meta.final)
            && meta.status == Classify(env, policy, meta.notes.malformed,
                                       FinishReasons(Items(Member(payload, "choices"))), meta.final)
            && !meta.status.ContractInvalid?
  {
    var notes, choices := Filtered(env, payload).1, CleanChoices(env, payload);
    MetaIs(env, policy, payload);
    FilteredOffends(env, payload);
    ScanOfChoices(env, policy, Mark(notes, |choices| != 1), choices);
    OneSoundChoice(env, policy, choices);
  }

  lemma MetaIs(env: Env, policy: Policy, payload: Json)
    requires WithinDepth(payload, MAX_DEPTH) && payload.Obj?
    ensures var (meta, choices) := (Sanitized(env, policy, payload).1, CleanChoices(env, payload));
            var scan := ScanChoices(env, policy, Mark(Filtered(env, payload).1, |choices| != 1), choices);
            && meta.notes == scan.notes && meta.final == (if scan.finals == [] then "" else scan.finals[0])
            && meta.status == Classify(env, policy, meta.notes.malformed,
                                       FinishReasons(Items(Member(payload, "choices"))), meta.final)
  {
  }

  lemma FilteredOffends(env: Env, payload: Json)
    requires payload.Obj?
    ensures Filtered(env, payload).1.malformed <==> Member(payload, "error").Some? || Offends(env.tools.kind, payload)
  {
    var failed := Member(payload, "error").Some?;
    OffendsIff(env.tools, Mark(NO_NOTES, failed), if failed then Obj(Drop(payload.fields, "error")) else payload);
  }

  lemma OneSoundChoice(env: Env, policy: Policy, choices: seq<Json>)
    ensures |choices| == 1 ==>
              ((exists c :: c in choices && !SoundChoice(env, policy, c)) <==> !SoundChoice(env, policy, choices[0]))
  {
    assert |choices| == 1 ==> forall c :: c in choices ==> c == choices[0];
  }
}
