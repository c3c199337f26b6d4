/**
 `extract_chatgpt_share_url`: a breadth-first search through strings derived from a text (decoded, query values, pattern
 matches) for the first valid share URL.
 */
module ShareUrl {
  import opened Wrappers
  import Text
  import opened DerivationSearch
  import opened UrlText

  /** A URL as `urlparse` splits it, its host name in lower case, empty when there is none. */
  datatype Url = Url(scheme: string, host: string, path: string, query: string)

  /** The library: `urlparse`, None where it raises, and the UTF-8 decoder behind `unquote`. */
  datatype Library = Library(parse: string -> Option<Url>, utf8: seq<nat> -> string)

  /** A query is preceded by its question mark, so it is shorter than the string it is part of. */
  ghost predicate Lawful(lib: Library) {
    && Utf8Laws(lib.utf8)
    && forall s :: lib.parse(s).Some? && lib.parse(s).value.query != "" ==> |lib.parse(s).value.query| < |s|
  }

  predicate IsShareUrl(u: Url) {
    && u.scheme == "https"
    && (u.host == "chatgpt.com" || u.host == "www.chatgpt.com" || u.host == "chat.openai.com")
    && ("/s/" <= u.path || "/share/" <= u.path)
  }

  /** `valid_chatgpt_share_url`, for strings that `urlparse` does not choke on. */
  predicate Valid(lib: Library, s: string) {
    lib.parse(s).Some? && IsShareUrl(lib.parse(s).value)
  }

  predicate Unparsable(lib: Library, s: string) {
    lib.parse(s).None?
  }

  predicate IsPunctuation(c: char) {
    c == '.' || c == ',' || c == ';' || c == '(' || c == ')' || c == '[' || c == ']' || c == '<' || c == '>'
  }

  /** `.strip().strip(".,;()[]<>")` */
  function Clean(s: string): string {
    Text.StripOf(Text.Strip(s), IsPunctuation)
  }

  function Query(lib: Library, s: string): string {
    if lib.parse(s).Some? then lib.parse(s).value.query else ""
  }

  /** What a candidate that is not valid adds to the queue. */
  function Derived(lib: Library, s: string): seq<string> {
    (if Unquote(s, lib.utf8) != s then [Unquote(s, lib.utf8)] else [])
    + QueryValues(Query(lib, s), lib.utf8) + Matches(s)
  }

  /** A candidate leads to its decoding, if that differs, to the values of its query, and to the matches in it. */
  lemma DerivedIs(lib: Library, s: string, d: string)
    ensures d in Derived(lib, s) <==>
            || (d == Unquote(s, lib.utf8) && d != s)
            || (lib.parse(s).Some? && d in QueryValues(lib.parse(s).value.query, lib.utf8))
            || d in Matches(s)
  {
  }

  /** The search of `extract_chatgpt_share_url`. */
  function Candidates(lib: Library): Space {
    Space(Clean, s => Derived(lib, s), s => Valid(lib, s), s => Unparsable(lib, s))
  }

  // ---------- derivation never lengthens ----------

  lemma CleanShrinks(s: string)
    ensures |Clean(s)| < |s| || Clean(s) == s
  {
    var i, j := Text.StripFacts(s, Text.IsSpace);
    var k, l := Text.StripFacts(Text.Strip(s), IsPunctuation);
  }

  const PUNCTUATION := ".,;()[]<>"

  /** Cleaning takes white space off both ends, and then punctuation; what is left has no punctuation at its ends. */
  lemma CleanIs(s: string) returns (front: string, back: string)
    ensures Text.Strip(s) == front + Clean(s) + back
    ensures forall i :: 0 <= i < |front| ==> front[i] in PUNCTUATION
    ensures forall i :: 0 <= i < |back| ==> back[i] in PUNCTUATION
    ensures Clean(s) != "" ==> Clean(s)[0] !in PUNCTUATION && Clean(s)[|Clean(s)| - 1] !in PUNCTUATION
  {
    var stripped := Text.Strip(s);
    var i, j := Text.StripFacts(stripped, IsPunctuation);
    front, back := stripped[..i], stripped[j..];
    forall c: char ensures c in PUNCTUATION <==> IsPunctuation(c) {
      PunctuationIs(c);
    }
  }

  lemma PunctuationIs(c: char)
    ensures c in PUNCTUATION <==> IsPunctuation(c)
  {
    assert PUNCTUATION[0] == '.' && PUNCTUATION[1] == ',' && PUNCTUATION[2] == ';' && PUNCTUATION[3] == '(';
    assert PUNCTUATION[4] == ')' && PUNCTUATION[5] == '[' && PUNCTUATION[6] == ']' && PUNCTUATION[7] == '<';
    assert PUNCTUATION[8] == '>' && |PUNCTUATION| == 9;
  }

  /** Every derived string is strictly shorter than its candidate, or the candidate itself. */
  lemma DerivedShrinks(lib: Library, s: string, d: string)
    requires Lawful(lib) && d in Derived(lib, s)
    ensures |d| < |s| || d == s
  {
    UnquoteShrinks(s, lib.utf8);
    QueryValuesWithin(Query(lib, s), lib.utf8);
    if d in QueryValues(Query(lib, s), lib.utf8) {
      QueryHasValues(Query(lib, s), lib.utf8, d);
    } else if d in Matches(s) {
      MatchesShrink(s, d);
    }
  }

  lemma QueryHasValues(query: string, utf8: seq<nat> -> string, v: string)
    requires v in QueryValues(query, utf8)
    ensures query != ""
  {
  }

  lemma CandidatesShrink(lib: Library)
    requires Lawful(lib)
    ensures Shrinks(Candidates(lib))
  {
    forall s, d | d in Derived(lib, s) ensures |Clean(d)| < |s| || Clean(d) == s {
      DerivedShrinks(lib, s, d);
      CleanShrinks(d);
    }
  }

  /**
   The result is decided by the first candidate, in queue order, that is a valid share URL or that the parser chokes on:
   the former is returned, the latter raises. The empty string is returned exactly when there is neither, however far.
   */
  method ExtractShareUrl(lib: Library, text: string) returns (r: Answer)
    requires Lawful(lib)
    ensures Explains(Candidates(lib), Text.Strip(text), r)
    ensures forall n: nat, i: nat :: Decides(Candidates(lib), Text.Strip(text), n, i) ==>
              r == Verdict(Candidates(lib), Level(Candidates(lib), Text.Strip(text), n)[i])
    ensures r.Found? ==> IsShareUrl(lib.parse(r.url).value)
  {
    CandidatesShrink(lib);
    r := Search(Candidates(lib), Text.Strip(text));
  }

  // ---------- a share URL that is not found ----------

  /** `urlparse` raises here, for the bracket in the host is never closed; yet a share URL stands in the text. */
  const UNCLOSED := OPENING + SHARED
  const OPENING := "https://a[b/ "
  const SHARED := "https://chatgpt.com/s/x"

  lemma NoMatchWithoutScheme(s: string)
    requires s == "" || s[0] != 'h'
    ensures MatchLength(s) == 0
  {
    assert "https://"[0] == 'h';
  }

  lemma {:induction false} NothingMatchesBefore(s: string, k: nat)
    requires k <= |s| && forall i :: 0 <= i < k ==> MatchLength(s[i..]) == 0
    ensures Matches(s) == Matches(s[k..])
    decreases k
  {
    if k == 0 {
      assert s[0..] == s;
    } else {
      assert s[0..] == s;
      forall i | 0 <= i < k - 1 ensures MatchLength(s[1..][i..]) == 0 {
        assert s[1..][i..] == s[i + 1..];
      }
      NothingMatchesBefore(s[1..], k - 1);
      assert s[1..][k - 1..] == s[k..];
    }
  }

  lemma SharedPath(rest: string)
    requires rest == "chatgpt.com/s/x" && SHARED[8..] == rest && "https://" <= SHARED
    ensures AfterSharePath(SHARED) == Rest("x")
  {
    assert !("www." <= rest) by {
      assert "www."[0] == 'w' && rest[0] == 'c';
    }
    assert "chatgpt.com" <= rest && rest[11..] == "/s/x" && "/s/x"[1..] == "s/x" && "s/x"[2..] == "x";
  }

  lemma SharedMatches()
    ensures Matches(SHARED) == [SHARED]
  {
    SharedLength();
    assert SHARED[..23] == SHARED && SHARED[23..] == "";
  }

  lemma SharedLength()
    ensures MatchLength(SHARED) == 23 == |SHARED|
  {
    var rest := "chatgpt.com/s/x";
    assert SHARED[8..] == rest && "https://" <= SHARED;
    SharedPath(rest);
    LengthToTheEnd(SHARED, "x");
  }

  lemma LengthToTheEnd(s: string, id: string)
    requires AfterSharePath(s) == Rest(id) && |id| == 1 && InShareId(id[0]) && s != ""
    ensures MatchLength(s) == |s|
  {
    assert IdLength(id[1..]) == 0;
  }

  lemma OpeningHasNoOtherScheme()
    ensures |OPENING| == 13 && OPENING[8] == 'a' && forall i :: 1 <= i < 13 ==> OPENING[i] != 'h'
  {
    assert OPENING[1] == 't' && OPENING[2] == 't' && OPENING[3] == 'p' && OPENING[4] == 's' && OPENING[5] == ':';
    assert OPENING[6] == '/' && OPENING[7] == '/' && OPENING[8] == 'a' && OPENING[9] == '[' && OPENING[10] == 'b';
    assert OPENING[11] == '/' && OPENING[12] == ' ';
  }

  lemma NoMatchForOtherHosts(s: string)
    requires |s| > 8 && s[8] == 'a'
    ensures MatchLength(s) == 0
  {
    var rest := s[8..];
    assert rest[0] == 'a' && "www."[0] == 'w' && "chatgpt.com"[0] == 'c' && "chat.openai.com"[0] == 'c';
    assert |"https://"| == 8;
    assert AfterSharePath(s) == NoMatch;
  }

  lemma UnclosedMatches()
    ensures SHARED in Matches(UNCLOSED)
  {
    OpeningHasNoOtherScheme();
    MatchesAfter(OPENING, SHARED);
    SharedMatches();
  }

  lemma MatchesAfter(opening: string, rest: string)
    requires |opening| > 8 && opening[8] == 'a' && forall i :: 1 <= i < |opening| ==> opening[i] != 'h'
    ensures Matches(opening + rest) == Matches(rest)
  {
    var s := opening + rest;
    forall i | 0 <= i < |opening| ensures MatchLength(s[i..]) == 0 {
      if i == 0 {
        assert s[0..] == s;
        NoMatchForOtherHosts(s);
      } else {
        NoMatchWithoutScheme(s[i..]);
      }
    }
    NothingMatchesBefore(s, |opening|);
    assert s[|opening|..] == rest;
  }

  lemma CleanKeeps(s: string)
    requires s != "" && !Text.IsSpace(s[0]) && !Text.IsSpace(s[|s| - 1])
    requires !IsPunctuation(s[0]) && !IsPunctuation(s[|s| - 1])
    ensures Clean(s) == s && Text.Strip(s) == s
  {
    Text.StripKeeps(s, Text.IsSpace);
    Text.StripKeeps(s, IsPunctuation);
  }

  /** The extractor is not total: this text makes it raise, although a valid share URL is one derivation step away. */
  lemma RaisesOverAShareUrl(lib: Library)
    requires Unparsable(lib, UNCLOSED) && Valid(lib, SHARED)
    ensures var sp, text := Candidates(lib), Text.Strip(UNCLOSED);
            && Decides(sp, text, 0, 0) && Verdict(sp, Level(sp, text, 0)[0]) == Raised
            && SHARED in Level(sp, text, 1)
  {
    assert SHARED[|SHARED| - 1] == 'x' && SHARED[0] == 'h' && OPENING[0] == 'h';
    assert UNCLOSED[|UNCLOSED| - 1] == 'x' && UNCLOSED[0] == 'h';
    CleanKeeps(UNCLOSED);
    CleanKeeps(SHARED);
    UnclosedMatches();
    FirstLevels(Candidates(lib), UNCLOSED, SHARED);
  }
}
