/** The other shapes a model's text can have: a block that is never closed, a lone closing tag, and a muddle of tags. */
module ThinkTagCases {
  import opened Text
  import opened ThinkTags

  /** Slashes match only themselves, too. */
  ghost predicate SaneSlash(fold: Fold) {
    Sane(fold) && forall c :: fold(c) == fold('/') ==> c == '/'
  }

  /** A block that is opened and never closed is malformed. */
  lemma UnclosedIsMalformed(fold: Fold, w: string, k: nat, g: string, rest: string)
    requires Sane(fold) && k < |TAGS| && SameLetters(fold, g, TAGS[k])
    requires forall i :: 0 <= i < |w| ==> IsSpace(w[i])
    requires forall i :: 0 <= i <= |rest| ==> !MatchesAt(fold, rest, i, Closing(g))
    ensures var content := w + Opening(g) + rest; SplitThinking(fold, content) == Split("", true, content, true)
  {
    var content, from := w + Opening(g) + rest, |w| + |g| + 2;
    OpensAfterIndent(w, g, rest);
    NameAtSpelling(fold, w, g, rest, k);
    forall i | from <= i <= |content| ensures !MatchesAt(fold, content, i, Closing(g)) {
      if i + |Closing(g)| <= |content| {
        assert content[i..i + |Closing(g)|] == rest[i - from..i - from + |Closing(g)|];
      }
      assert !MatchesAt(fold, rest, i - from, Closing(g));
    }
  }

  // ---------- where tags stand ----------

  lemma LetterAt(fold: Fold, s: string, i: nat, pattern: string, d: nat)
    requires MatchesAt(fold, s, i, pattern) && d < |pattern|
    ensures fold(s[i + d]) == fold(pattern[d])
  {
    assert s[i..i + |pattern|][d] == s[i + d];
  }

  lemma LetterDiffers(fold: Fold, s: string, i: nat, pattern: string, d: nat)
    requires d < |pattern| && (i + |pattern| <= |s| ==> fold(s[i + d]) != fold(pattern[d]))
    ensures !MatchesAt(fold, s, i, pattern)
  {
    if i + |pattern| <= |s| {
      assert s[i..i + |pattern|][d] == s[i + d];
    }
  }

  /** Two closing tags that match at one place are of one name, and no opening tag matches there. */
  lemma OneNameCloses(fold: Fold, s: string, p: nat, j: nat, k: nat)
    requires SaneSlash(fold) && j < |TAGS| && k < |TAGS| && MatchesAt(fold, s, p, Closing(TAGS[j]))
    ensures !MatchesAt(fold, s, p, Opening(TAGS[k]))
    ensures MatchesAt(fold, s, p, Closing(TAGS[k])) ==> j == k
  {
    TagNamesArePlain(j);
    SlashIsNoLetter(k);
    LetterAt(fold, s, p, Closing(TAGS[j]), 1);
    LetterDiffers(fold, s, p, Opening(TAGS[k]), 1);
    if |TAGS[j]| < |TAGS[k]| {
      ShorterNameEnds(fold, s, p, j, k);
    }
    if |TAGS[k]| < |TAGS[j]| && MatchesAt(fold, s, p, Closing(TAGS[k])) {
      ShorterNameEnds(fold, s, p, k, j);
    }
  }

  lemma SlashIsNoLetter(k: nat)
    requires k < |TAGS|
    ensures |TAGS[k]| > 0 && TAGS[k][0] != '/' && Opening(TAGS[k])[1] == TAGS[k][0] && Closing(TAGS[k])[1] == '/'
  {
    assert TAGS[0] == "think" && TAGS[1] == "analysis" && TAGS[2] == "reasoning";
    assert TAGS[0][0] == 't' && TAGS[1][0] == 'a' && TAGS[2][0] == 'r';
  }

  lemma ShorterNameEnds(fold: Fold, s: string, p: nat, j: nat, k: nat)
    requires Sane(fold) && j < |TAGS| && k < |TAGS| && |TAGS[j]| < |TAGS[k]|
    requires MatchesAt(fold, s, p, Closing(TAGS[j]))
    ensures !MatchesAt(fold, s, p, Closing(TAGS[k]))
  {
    var d := |TAGS[j]|;
    TagNamesArePlain(k);
    LetterAt(fold, s, p, Closing(TAGS[j]), d + 2);
    assert Closing(TAGS[j])[d + 2] == '>';
    assert Closing(TAGS[k])[d + 2] == TAGS[k][d] && TAGS[k][d] in TAGS[k];
    LetterDiffers(fold, s, p, Closing(TAGS[k]), d + 2);
  }

  /** The scan takes a lone closing tag for what it is. */
  lemma ClosingTagAt(fold: Fold, s: string, p: nat, j: nat)
    requires SaneSlash(fold) && j < |TAGS| && MatchesAt(fold, s, p, Closing(TAGS[j]))
    ensures TagAt(fold, s, p) == Tag(p, p + |TAGS[j]| + 3, true)
  {
    forall k: nat | k < |TAGS|
      ensures !MatchesAt(fold, s, p, Opening(TAGS[k]))
      ensures MatchesAt(fold, s, p, Closing(TAGS[k])) <==> j == k
    {
      OneNameCloses(fold, s, p, j, k);
    }
    NameAtIff(fold, s, p, false, |TAGS|);
    TagNamesArePlain(j);
    FirstClosing(fold, s, p, j);
  }

  lemma FirstClosing(fold: Fold, s: string, i: nat, k: nat)
    requires k < |TAGS| && |TAGS| == 3 && 0 < |TAGS[k]|
    requires forall j :: 0 <= j < |TAGS| ==> (MatchesAt(fold, s, i, Closing(TAGS[j])) <==> j == k)
    ensures NameAt(fold, s, i, true, |TAGS|) == |TAGS[k]|
  {
    assert NameAt(fold, s, i, true, 0) == 0;
    assert NameAt(fold, s, i, true, 1) == if k == 0 then |TAGS[k]| else 0;
    assert NameAt(fold, s, i, true, 2) == if k <= 1 then |TAGS[k]| else 0;
  }

  /** Nothing is found up to the next tag. */
  lemma {:induction false} SkipToTag(fold: Fold, s: string, i: nat, p: nat)
    requires i <= p < |s| && forall j :: i <= j < p ==> !SomeTagAt(fold, s, j)
    ensures AllTags(fold, s, i) == AllTags(fold, s, p)
    decreases p - i
  {
    if i < p {
      TagAtIff(fold, s, i);
      SkipToTag(fold, s, i + 1, p);
    }
  }

  /** Text that does not open a block. */
  ghost predicate Unopened(fold: Fold, content: string) {
    && !LooksLikeJson(content)
    && forall j :: 0 <= j < |TAGS| ==> !MatchesAt(fold, content, Indent(content), Opening(TAGS[j]))
  }

  lemma UnopenedSplit(fold: Fold, content: string)
    requires Unopened(fold, content)
    ensures SplitThinking(fold, content) == SplitUnopened(fold, content)
  {
    NameAtIff(fold, content, Indent(content), false, |TAGS|);
  }

  /**
   A closing tag that is the only tag: what stands before it is the reasoning, what follows is the answer, provided that
   both say something; otherwise the text is malformed.
   */
  lemma LoneClosingTagSplits(fold: Fold, content: string, p: nat, j: nat)
    requires SaneSlash(fold) && Unopened(fold, content) && j < |TAGS| && MatchesAt(fold, content, p, Closing(TAGS[j]))
    requires forall i :: 0 <= i < |content| && i != p ==> !SomeTagAt(fold, content, i)
    ensures var before, after := content[..p], content[p + |TAGS[j]| + 3..];
            SplitThinking(fold, content) ==
            if Strip(before) != "" && Strip(after) != "" then Split(Strip(after), true, Strip(before), false)
            else Split("", true, content, true)
  {
    UnopenedSplit(fold, content);
    ClosingTagAt(fold, content, p, j);
    SkipToTag(fold, content, 0, p);
    NoTagsIff(fold, content, p + |TAGS[j]| + 3);
    assert AllTags(fold, content, 0) == [Tag(p, p + |TAGS[j]| + 3, true)];
  }

  // ---------- several tags ----------

  /** No tag starts inside another. */
  lemma TagsDoNotOverlap(fold: Fold, s: string, p: nat, q: nat)
    requires Sane(fold) && p < q < TagAt(fold, s, p).end
    ensures !SomeTagAt(fold, s, q)
  {
    TagAtIff(fold, s, p);
    TagHasItsName(fold, s, p);
    var closing := TagAt(fold, s, p).closing;
    var j: nat :| j < |TAGS| && MatchesAt(fold, s, p, Form(closing, TAGS[j])) &&
                  TagAt(fold, s, p).end == p + |Form(closing, TAGS[j])|;
    NoBracketInside(fold, s, p, j, closing, q - p);
    TagsStartWithBrackets(fold, s, q);
  }

  lemma NoBracketInside(fold: Fold, s: string, p: nat, j: nat, closing: bool, d: nat)
    requires Sane(fold) && j < |TAGS| && 0 < d < |Form(closing, TAGS[j])|
    requires MatchesAt(fold, s, p, Form(closing, TAGS[j]))
    ensures p + d < |s| && fold(s[p + d]) != fold('<')
  {
    LetterAt(fold, s, p, Form(closing, TAGS[j]), d);
    InnerLetters(j, closing, d);
  }

  lemma TagsStartWithBrackets(fold: Fold, s: string, q: nat)
    requires q < |s| && fold(s[q]) != fold('<')
    ensures !SomeTagAt(fold, s, q)
  {
    forall k: nat | k < |TAGS|
      ensures !MatchesAt(fold, s, q, Opening(TAGS[k])) && !MatchesAt(fold, s, q, Closing(TAGS[k]))
    {
      LetterDiffers(fold, s, q, Opening(TAGS[k]), 0);
      LetterDiffers(fold, s, q, Closing(TAGS[k]), 0);
    }
  }

  lemma InnerLetters(j: nat, closing: bool, d: nat)
    requires j < |TAGS| && 0 < d < |Form(closing, TAGS[j])|
    ensures Form(closing, TAGS[j])[d] != '<'
  {
    TagNamesArePlain(j);
    var from := if closing then 2 else 1;
    if from <= d < from + |TAGS[j]| {
      assert Form(closing, TAGS[j])[d] == TAGS[j][d - from] && TAGS[j][d - from] in TAGS[j];
    }
  }

  lemma {:induction false} NameHasItsTag(fold: Fold, s: string, i: nat, closing: bool, n: nat)
    requires n <= |TAGS| && NameAt(fold, s, i, closing, n) > 0
    ensures exists j: nat :: j < n && MatchesAt(fold, s, i, Form(closing, TAGS[j])) &&
                             |TAGS[j]| == NameAt(fold, s, i, closing, n)
  {
    if NameAt(fold, s, i, closing, n - 1) > 0 {
      NameHasItsTag(fold, s, i, closing, n - 1);
    }
  }

  lemma TagHasItsName(fold: Fold, s: string, i: nat)
    requires TagAt(fold, s, i).end > i
    ensures var t := TagAt(fold, s, i);
            exists j: nat :: j < |TAGS| && MatchesAt(fold, s, i, Form(t.closing, TAGS[j])) &&
                             t.end == i + |Form(t.closing, TAGS[j])|
  {
    NameHasItsTag(fold, s, i, TagAt(fold, s, i).closing, |TAGS|);
  }

  /** More than one tag, in text that does not open a block, is a muddle: nothing of it is shown. */
  lemma SeveralTagsAreMalformed(fold: Fold, content: string, p: nat, q: nat)
    requires Sane(fold) && Unopened(fold, content)
    requires p < q < |content| && SomeTagAt(fold, content, p) && SomeTagAt(fold, content, q)
    ensures SplitThinking(fold, content) == Split("", true, content, true)
  {
    UnopenedSplit(fold, content);
    FirstTag(fold, content, p);
    var first :| 0 <= first <= p && SomeTagAt(fold, content, first) &&
                 forall j :: 0 <= j < first ==> !SomeTagAt(fold, content, j);
    SkipToTag(fold, content, 0, first);
    TagAtIff(fold, content, first);
    var end := TagAt(fold, content, first).end;
    if q < end {
      TagsDoNotOverlap(fold, content, first, q);
    }
    NoTagsIff(fold, content, end);
    assert |AllTags(fold, content, 0)| >= 2;
  }

  lemma {:induction false} FirstTag(fold: Fold, s: string, p: nat)
    requires SomeTagAt(fold, s, p)
    ensures exists first :: 0 <= first <= p && SomeTagAt(fold, s, first) &&
                            forall j :: 0 <= j < first ==> !SomeTagAt(fold, s, j)
  {
    if j :| 0 <= j < p && SomeTagAt(fold, s, j) {
      FirstTag(fold, s, j);
    }
  }

  /** So is an opening tag that is not at the start. */
  lemma LateOpeningIsMalformed(fold: Fold, content: string, p: nat)
    requires Unopened(fold, content) && p < |content|
    requires TagAt(fold, content, p).end > p && !TagAt(fold, content, p).closing
    requires forall i :: 0 <= i < p ==> !SomeTagAt(fold, content, i)
    ensures SplitThinking(fold, content) == Split("", true, content, true)
  {
    UnopenedSplit(fold, content);
    SkipToTag(fold, content, 0, p);
  }
}
