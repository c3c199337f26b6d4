/** `_split_thinking_content`: telling a model's reasoning from its final answer by think tags. */
module ThinkTags {
  import opened Text

  /** `fold` maps characters that match each other regardless of case to the same character. */
  type Fold = char -> char

  const TAGS: seq<string> := ["think", "analysis", "reasoning"]

  /** `reasoning` is the text whose length and digest are recorded when something was stripped. */
  datatype Split = Split(content: string, stripped: bool, reasoning: string, malformed: bool)

  function Untouched(content: string): Split {
    Split(content, false, "", false)
  }

  function Malformed(content: string): Split {
    Split("", true, content, true)
  }

  function Separated(reasoning: string, final: string): Split {
    Split(Strip(final), true, Strip(reasoning), false)
  }

  predicate SameLetters(fold: Fold, a: string, b: string) {
    |a| == |b| && forall i :: 0 <= i < |a| ==> fold(a[i]) == fold(b[i])
  }

  predicate MatchesAt(fold: Fold, s: string, i: nat, pattern: string) {
    i + |pattern| <= |s| && SameLetters(fold, s[i..i + |pattern|], pattern)
  }

  /** `re.search(re.escape(pattern), s[from:])` as an absolute position. */
  function Find(fold: Fold, s: string, pattern: string, from: nat): (r: int)
    requires from <= |s|
    ensures r == -1 || from <= r <= |s| - |pattern|
    ensures r >= 0 ==> MatchesAt(fold, s, r, pattern)
    ensures forall i :: from <= i < (if r == -1 then |s| + 1 else r) ==> !MatchesAt(fold, s, i, pattern)
    decreases |s| - from
  {
    if MatchesAt(fold, s, from, pattern) then from
    else if from < |s| then Find(fold, s, pattern, from + 1)
    else -1
  }

  function Opening(name: string): string {
    "<" + name + ">"
  }

  function Closing(name: string): string {
    "</" + name + ">"
  }

  function Form(closing: bool, name: string): (r: string)
    ensures |r| == |name| + if closing then 3 else 2
  {
    if closing then Closing(name) else Opening(name)
  }

  /** Length of the tag name that a tag at position `i` carries; 0 when there is none. Looks at the first `n` names. */
  function NameAt(fold: Fold, s: string, i: nat, closing: bool, n: nat): (r: nat)
    requires n <= |TAGS|
    ensures r > 0 ==> i + r + (if closing then 3 else 2) <= |s|
  {
    if n == 0 then 0
    else
      var earlier := NameAt(fold, s, i, closing, n - 1);
      if earlier > 0 then earlier
      else if MatchesAt(fold, s, i, Form(closing, TAGS[n - 1])) then |TAGS[n - 1]|
      else 0
  }

  datatype Tag = Tag(start: nat, end: nat, closing: bool)

  function TagAt(fold: Fold, s: string, i: nat): (t: Tag)
    ensures t.start == i <= t.end && (i < t.end ==> t.end <= |s|)
  {
    var open := NameAt(fold, s, i, false, |TAGS|);
    var close := NameAt(fold, s, i, true, |TAGS|);
    if open > 0 then Tag(i, i + open + 2, false)
    else if close > 0 then Tag(i, i + close + 3, true)
    else Tag(i, i, false)
  }

  /** All tags from `i` on, as `re.finditer` lists them. */
  function AllTags(fold: Fold, s: string, i: nat): (r: seq<Tag>)
    ensures r != [] ==> r[0].start < r[0].end <= |s|
    decreases |s| - i
  {
    if i >= |s| then []
    else
      var t := TagAt(fold, s, i);
      if t.end > i then [t] + AllTags(fold, s, t.end) else AllTags(fold, s, i + 1)
  }

  predicate LooksLikeJson(content: string) {
    var t := TrimStart(content, IsSpace);
    t != "" && (t[0] == '{' || t[0] == '[')
  }

  /** The content starts, at `start`, with an opening tag whose name is `name` characters long. */
  function SplitOpened(fold: Fold, content: string, start: nat, name: nat): (r: Split)
    requires start + name + 2 <= |content|
    ensures r.malformed ==> r.content == ""
    ensures r.stripped
  {
    var from := start + name + 2;
    var tag := content[start + 1..start + 1 + name];
    var close := Find(fold, content, Closing(tag), from);
    if close >= 0 then Separated(content[from..close], content[close + name + 3..]) else Malformed(content)
  }

  function SplitUnopened(fold: Fold, content: string): (r: Split)
    ensures r.malformed ==> r.content == ""
    ensures !r.stripped ==> r == Untouched(content)
  {
    var tags := AllTags(fold, content, 0);
    if |tags| == 1 && tags[0].closing && Strip(content[..tags[0].start]) != "" && Strip(content[tags[0].end..]) != ""
    then Separated(content[..tags[0].start], content[tags[0].end..])
    else if tags != [] then Malformed(content)
    else Untouched(content)
  }

  /** A malformed verdict leaves no content; what is not stripped is left as it is. */
  function SplitThinking(fold: Fold, content: string): (r: Split)
    ensures r.malformed ==> r.content == "" && r.stripped
    ensures !r.stripped ==> r == Split(content, false, "", false)
  {
    if LooksLikeJson(content) then Untouched(content)
    else
      var start := Indent(content);
      var name := NameAt(fold, content, start, false, |TAGS|);
      if name > 0 then SplitOpened(fold, content, start, name) else SplitUnopened(fold, content)
  }

  function Indent(content: string): nat {
    TrimStartFacts(content, IsSpace);
    |content| - |TrimStart(content, IsSpace)|
  }

  lemma {:induction false} NameAtIff(fold: Fold, s: string, i: nat, closing: bool, n: nat)
    requires n <= |TAGS|
    ensures NameAt(fold, s, i, closing, n) > 0 <==>
            exists j :: 0 <= j < n && TAGS[j] != "" && MatchesAt(fold, s, i, Form(closing, TAGS[j]))
  {
    if n > 0 {
      NameAtIff(fold, s, i, closing, n - 1);
    }
  }

  // ---------- splitting undoes wrapping ----------

  /** Angle brackets match nothing but themselves. */
  ghost predicate Sane(fold: Fold) {
    forall c :: (fold(c) == fold('<') ==> c == '<') && (fold(c) == fold('>') ==> c == '>')
  }

  lemma TagNamesArePlain(k: nat)
    requires k < |TAGS|
    ensures 0 < |TAGS[k]| && '<' !in TAGS[k] && '>' !in TAGS[k]
    ensures forall j :: 0 <= j < |TAGS| && |TAGS[j]| == |TAGS[k]| ==> j == k
  {
    assert TAGS[0] == "think" && TAGS[1] == "analysis" && TAGS[2] == "reasoning";
  }

  /** A spelling of a tag name contains no angle bracket either. */
  lemma SpellingIsPlain(fold: Fold, g: string, k: nat)
    requires Sane(fold) && k < |TAGS| && SameLetters(fold, g, TAGS[k])
    ensures '<' !in g && '>' !in g
  {
    TagNamesArePlain(k);
    forall i | 0 <= i < |g| ensures g[i] != '<' && g[i] != '>' {
      assert TAGS[k][i] in TAGS[k];
    }
  }

  lemma {:induction false} TrimStartSkips(w: string, rest: string)
    requires (forall i :: 0 <= i < |w| ==> IsSpace(w[i])) && rest != "" && !IsSpace(rest[0])
    ensures TrimStart(w + rest, IsSpace) == rest
  {
    if w == "" {
      assert w + rest == rest;
    } else {
      assert (w + rest)[1..] == w[1..] + rest;
      TrimStartSkips(w[1..], rest);
    }
  }

  lemma OnlyItsOwnNameOpens(fold: Fold, w: string, g: string, rest: string, k: nat, j: nat)
    requires Sane(fold) && k < |TAGS| && j < |TAGS| && SameLetters(fold, g, TAGS[k])
    ensures MatchesAt(fold, w + Opening(g) + rest, |w|, Opening(TAGS[j])) <==> j == k
  {
    var s := w + Opening(g) + rest;
    TagNamesArePlain(k);
    TagNamesArePlain(j);
    SpellingIsPlain(fold, g, k);
    assert forall i :: 0 <= i < |g| + 2 ==> s[|w| + i] == Opening(g)[i];
    assert j == k ==> s[|w|..|w| + |g| + 2] == Opening(g);
    if j != k && |w| + |TAGS[j]| + 2 <= |s| {
      var n := if |g| < |TAGS[j]| then |g| else |TAGS[j]|;
      var window := s[|w|..|w| + |TAGS[j]| + 2];
      assert window[n + 1] == Opening(g)[n + 1];
      assert |g| < |TAGS[j]| ==> TAGS[j][n] in TAGS[j];
      assert |g| > |TAGS[j]| ==> g[n] in g;
      assert fold(window[n + 1]) != fold(Opening(TAGS[j])[n + 1]);
    }
  }

  lemma NameAtSpelling(fold: Fold, w: string, g: string, rest: string, k: nat)
    requires Sane(fold) && k < |TAGS| && SameLetters(fold, g, TAGS[k])
    ensures NameAt(fold, w + Opening(g) + rest, |w|, false, |TAGS|) == |g| > 0
  {
    OnlyItsOwnNameOpens(fold, w, g, rest, k, 0);
    OnlyItsOwnNameOpens(fold, w, g, rest, k, 1);
    OnlyItsOwnNameOpens(fold, w, g, rest, k, 2);
    TagNamesArePlain(k);
    FirstMatch(fold, w + Opening(g) + rest, |w|, k);
  }

  lemma FirstMatch(fold: Fold, s: string, i: nat, k: nat)
    requires k < |TAGS| && |TAGS| == 3 && 0 < |TAGS[k]|
    requires forall j :: 0 <= j < |TAGS| ==> (MatchesAt(fold, s, i, Opening(TAGS[j])) <==> j == k)
    ensures NameAt(fold, s, i, false, |TAGS|) == |TAGS[k]|
  {
    assert NameAt(fold, s, i, false, 0) == 0;
    assert NameAt(fold, s, i, false, 1) == if k == 0 then |TAGS[k]| else 0;
    assert NameAt(fold, s, i, false, 2) == if k <= 1 then |TAGS[k]| else 0;
  }

  /** The closing tag is found right where it was put, provided the text before it does not contain it. */
  lemma FindsTheClosingTag(fold: Fold, head: string, reasoning: string, g: string, h: string, final: string)
    requires Sane(fold) && '<' !in g && SameLetters(fold, h, g)
    requires forall i :: 0 <= i <= |reasoning| ==> !MatchesAt(fold, reasoning, i, Closing(g))
    ensures Find(fold, head + reasoning + Closing(h) + final, Closing(g), |head|) == |head| + |reasoning|
  {
    var s := head + reasoning + Closing(h) + final;
    var at := |head| + |reasoning|;
    var m := |Closing(g)|;
    assert s[at..at + m] == Closing(h);
    assert MatchesAt(fold, s, at, Closing(g));
    forall i | |head| <= i < at ensures !MatchesAt(fold, s, i, Closing(g)) {
      var d := at - i;
      if m <= d {
        assert reasoning[i - |head|..i - |head| + m] == s[i..i + m];
        assert !MatchesAt(fold, reasoning, i - |head|, Closing(g));
      } else if i + m <= |s| {
        assert s[i..i + m][d] == '<';
        assert d >= 2 && d - 2 < |g| ==> Closing(g)[d] == g[d - 2] && g[d - 2] in g;
        assert Closing(g)[d] != '<';
      }
    }
  }

  /**
   Wrapping a final answer in a reasoning block, in any spelling of any of the tags, and splitting it again
   gives back the trimmed answer and the trimmed reasoning.
   */
  lemma SplitUndoesWrapping(fold: Fold, w: string, k: nat, g: string, h: string, reasoning: string, final: string)
    requires Sane(fold) && k < |TAGS| && SameLetters(fold, g, TAGS[k]) && SameLetters(fold, h, g)
    requires forall i :: 0 <= i < |w| ==> IsSpace(w[i])
    requires forall i :: 0 <= i <= |reasoning| ==> !MatchesAt(fold, reasoning, i, Closing(g))
    ensures SplitThinking(fold, w + Opening(g) + reasoning + Closing(h) + final) ==
            Split(Strip(final), true, Strip(reasoning), false)
  {
    var rest := reasoning + Closing(h) + final;
    Regroup(w, Opening(g), reasoning, Closing(h), final);
    OpensAfterIndent(w, g, rest);
    NameAtSpelling(fold, w, g, rest, k);
    SpellingIsPlain(fold, g, k);
    FindsTheClosingTag(fold, w + Opening(g), reasoning, g, h, final);
    Slices(w + Opening(g), reasoning, Closing(h), final);
    SplitOpenedAt(fold, w + Opening(g) + rest, |w|, g, reasoning, final);
  }

  lemma Regroup(a: string, b: string, c: string, d: string, e: string)
    ensures a + b + c + d + e == a + b + (c + d + e)
  {
  }

  lemma SplitOpenedAt(fold: Fold, content: string, start: nat, g: string, reasoning: string, final: string)
    requires start + |g| + 2 <= |content| && content[start + 1..start + 1 + |g|] == g
    requires var close := Find(fold, content, Closing(g), start + |g| + 2);
             && start + |g| + 2 <= close && close + |g| + 3 <= |content|
             && content[start + |g| + 2..close] == reasoning && content[close + |g| + 3..] == final
    ensures SplitOpened(fold, content, start, |g|) == Separated(reasoning, final)
  {
  }

  lemma OpensAfterIndent(w: string, g: string, rest: string)
    requires forall i :: 0 <= i < |w| ==> IsSpace(w[i])
    ensures var content := w + Opening(g) + rest;
            Indent(content) == |w| && !LooksLikeJson(content) && content[|w| + 1..|w| + 1 + |g|] == g
  {
    TrimStartSkips(w, Opening(g) + rest);
    assert w + Opening(g) + rest == w + (Opening(g) + rest);
  }

  lemma Slices(a: string, b: string, c: string, d: string)
    ensures (a + b + c + d)[|a|..|a| + |b|] == b && (a + b + c + d)[|a| + |b| + |c|..] == d
  {
  }

  // ---------- what passes through ----------

  /** Some think tag, opening or closing, starts at `i`. */
  ghost predicate SomeTagAt(fold: Fold, s: string, i: nat) {
    exists j :: 0 <= j < |TAGS| &&
      (MatchesAt(fold, s, i, Opening(TAGS[j])) || MatchesAt(fold, s, i, Closing(TAGS[j])))
  }

  lemma TagAtIff(fold: Fold, s: string, i: nat)
    ensures TagAt(fold, s, i).end > i <==> SomeTagAt(fold, s, i)
  {
    NameAtIff(fold, s, i, false, |TAGS|);
    NameAtIff(fold, s, i, true, |TAGS|);
    assert forall j :: 0 <= j < |TAGS| ==> TAGS[j] != "";
  }

  lemma {:induction false} NoTagsIff(fold: Fold, s: string, i: nat)
    ensures AllTags(fold, s, i) == [] <==> forall j :: i <= j < |s| ==> !SomeTagAt(fold, s, j)
    decreases |s| - i
  {
    if i < |s| {
      TagAtIff(fold, s, i);
      NoTagsIff(fold, s, i + 1);
    }
  }

  /** Text is handed on as it is exactly when it looks like JSON or no think tag occurs in it anywhere. */
  lemma UntouchedIffTagFree(fold: Fold, content: string)
    ensures !SplitThinking(fold, content).stripped <==>
            LooksLikeJson(content) || forall j :: 0 <= j < |content| ==> !SomeTagAt(fold, content, j)
  {
    NoTagsIff(fold, content, 0);
    TagAtIff(fold, content, Indent(content));
  }
}
