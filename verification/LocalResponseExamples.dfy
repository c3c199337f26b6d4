/** Concrete responses through the pipeline. */
module LocalResponseExamples {
  import opened Wrappers
  import opened Json
  import opened LocalResponse
  import RF = ReasoningFilter
  import LS = LocalResponseSafety

  function ByKind(kind: string -> RF.KeyKind): Env {
    Env(RF.Tools(kind, (key: string) => key, (v: Json) => "", (s: string) => s),
        (s: string) => s, (s: string) => false, (c: char) => c)
  }

  /** A response with one choice, whose message has this content. */
  function Answer(content: string): Json {
    Obj([Field("choices", Arr([ChoiceOf(content)]))])
  }

  function ChoiceOf(content: string): Json {
    Obj([Field("message", MessageOf(content))])
  }

  function MessageOf(content: string): Json {
    Obj([Field("content", Str(content))])
  }

  /** No think tags, no required finish reason, no model to match, no contract. */
  function Plain(quarantineUnusable: bool): Transport {
    Transport(Policy(false, None), "", false, None, quarantineUnusable, false)
  }

  /** Nothing in the value is stripped, and nothing is noted about it. */
  predicate Passes(tools: RF.Tools, v: Json) {
    RF.Strip(tools.kind, v) == v && RF.NoteAll(tools, Blank, NO_NOTES, v) == NO_NOTES
  }

  lemma OneFieldPasses(tools: RF.Tools, key: string, v: Json)
    requires tools.kind(key).Ordinary? && Passes(tools, v)
    ensures Passes(tools, Obj([Field(key, v)]))
  {
    var fields := [Field(key, v)];
    assert fields[..0] == [];
    assert RF.NoteFields(tools, Blank, NO_NOTES, []) == NO_NOTES && RF.StripFields(tools.kind, []) == [];
    assert RF.NoteFields(tools, Blank, NO_NOTES, fields) == NO_NOTES && RF.StripFields(tools.kind, fields) == fields;
  }

  lemma OneItemPasses(tools: RF.Tools, v: Json)
    requires Passes(tools, v)
    ensures Passes(tools, Arr([v]))
  {
    var items := [v];
    assert items[..0] == [];
    assert RF.NoteItems(tools, Blank, NO_NOTES, []) == NO_NOTES && RF.StripAll(tools.kind, []) == [];
    assert RF.NoteItems(tools, Blank, NO_NOTES, items) == NO_NOTES && RF.StripAll(tools.kind, items) == items;
  }

  lemma AnswerPasses(tools: RF.Tools, content: string)
    requires tools.kind("choices").Ordinary? && tools.kind("message").Ordinary? && tools.kind("content").Ordinary?
    ensures Passes(tools, Answer(content))
  {
    OneFieldPasses(tools, "content", Str(content));
    OneFieldPasses(tools, "message", MessageOf(content));
    OneItemPasses(tools, ChoiceOf(content));
    OneFieldPasses(tools, "choices", Arr([ChoiceOf(content)]));
  }

  lemma OneFieldWithin(key: string, v: Json, limit: nat)
    requires WithinDepth(v, limit)
    ensures WithinDepth(Obj([Field(key, v)]), limit + 1)
  {
    var fields := [Field(key, v)];
    assert fields[1..] == [];
  }

  lemma OneItemWithin(v: Json, limit: nat)
    requires WithinDepth(v, limit)
    ensures WithinDepth(Arr([v]), limit + 1)
  {
    var items := [v];
    assert items[1..] == [];
  }

  lemma AnswerIsShallow(content: string)
    ensures WithinDepth(Answer(content), MAX_DEPTH)
  {
    OneFieldWithin("content", Str(content), 60);
    OneFieldWithin("message", MessageOf(content), 61);
    OneItemWithin(ChoiceOf(content), 62);
    OneFieldWithin("choices", Arr([ChoiceOf(content)]), 63);
  }

  lemma OnlyField(key: string, v: Json, other: string)
    requires other != key
    ensures Member(Obj([Field(key, v)]), key) == Some(v) && Member(Obj([Field(key, v)]), other) == None
    ensures forall w :: Put([Field(key, v)], key, w) == [Field(key, w)]
  {
    var fields := [Field(key, v)];
    assert fields[1..] == [] && Get([], other) == None;
    assert Get(fields, other) == None;
  }

  lemma AnswerFields(content: string)
    ensures Member(Answer(content), "choices") == Some(Arr([ChoiceOf(content)]))
    ensures Member(Answer(content), "error") == None
    ensures Member(ChoiceOf(content), "message") == Some(MessageOf(content))
    ensures Member(ChoiceOf(content), "finish_reason") == None
    ensures Member(MessageOf(content), "content") == Some(Str(content))
    ensures WithContent(ChoiceOf(content), content) == ChoiceOf(content)
    ensures Put(Answer(content).fields, "choices", Arr([ChoiceOf(content)])) == Answer(content).fields
  {
    assert |"error"| == 5 && |"choices"| == 7 && |"message"| == 7 && |"content"| == 7 && |"finish_reason"| == 13;
    OnlyField("choices", Arr([ChoiceOf(content)]), "error");
    OnlyField("message", MessageOf(content), "finish_reason");
    OnlyField("content", Str(content), "error");
  }

  lemma ScanOfAnswer(env: Env, content: string)
    requires !Blank(content)
    ensures ScanChoices(env, Policy(false, None), NO_NOTES, [ChoiceOf(content)]) ==
            Scan([ChoiceOf(content)], NO_NOTES, [content])
  {
    var choices := [ChoiceOf(content)];
    assert choices[..0] == [];
    AnswerFields(content);
    assert ScanChoices(env, Policy(false, None), NO_NOTES, []) == Scan([], NO_NOTES, []);
    assert ScanChoice(env, Policy(false, None), Scan([], NO_NOTES, []), choices[0]) ==
           Scan(choices, NO_NOTES, [content]);
  }

  lemma ReasonsOfAnswer(content: string)
    ensures FinishReasons([ChoiceOf(content)]) == []
  {
    var choices := [ChoiceOf(content)];
    AnswerFields(content);
    assert choices[..0] == [];
  }

  lemma AnswerIsCompleted(kind: string -> RF.KeyKind, content: string)
    requires kind("choices").Ordinary? && kind("message").Ordinary? && kind("content").Ordinary? && !Blank(content)
    ensures Sanitized(ByKind(kind), Policy(false, None), Answer(content)) ==
            (Answer(content), Meta(NO_NOTES, [], Completed, content, false))
  {
    var env := ByKind(kind);
    AnswerIsShallow(content);
    AnswerPasses(env.tools, content);
    ScanOfAnswer(env, content);
    ReasonsOfAnswer(content);
    AnswerFields(content);
    assert Filtered(env, Answer(content)) == (Answer(content), NO_NOTES);
    assert Items(Member(Answer(content), "choices")) == [ChoiceOf(content)];
    assert content != "";
  }

  /** Keys spelled in lower case, so that normalising them changes nothing. */
  function AsSpelled(key: string): RF.KeyKind {
    RF.KindOf((k: string) => k, key)
  }

  lemma AnswerKeysAreOrdinary()
    ensures AsSpelled("choices").Ordinary? && AsSpelled("message").Ordinary? && AsSpelled("content").Ordinary?
  {
    assert "choices"[0] == 'c' && "choices"[1] == 'h' && "choices"[2] == 'o';
    assert "message"[0] == 'm' && "content"[0] == 'c' && "content"[1] == 'o';
    assert "chain_of_thought"[2] == 'a';
  }

  /**
   A good answer, in a dispatch that quarantines unusable content and has no response contract: it counts as usable,
   and its text is blanked. Without quarantine the same answer comes through.
   */
  lemma GoodAnswerIsBlanked()
    ensures var env, body := ByKind(AsSpelled), Decoded(Answer("ok"));
            && Finished(env, Plain(true), body).usable
            && Finished(env, Plain(true), body).final == ""
            && LS.BlankResponse(Finished(env, Plain(true), body).response)
            && Finished(env, Plain(false), body).usable && Finished(env, Plain(false), body).final == "ok"
  {
    AnswerKeysAreOrdinary();
    assert !Blank("ok") by {
      assert "ok"[0] == 'o' && "ok"[1] == 'k';
    }
    AnswerIsCompleted(AsSpelled, "ok");
    LS.EligibleTextSurvivesIff(ByKind(AsSpelled), Plain(true), Decoded(Answer("ok")));
  }
}
