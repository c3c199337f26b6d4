/** The text operations share-URL extraction rests on: percent-decoding, query values and the share-URL pattern. */
module UrlText {
  import Text

  // ---------- percent-decoding ----------

  predicate IsAscii(c: char) {
    c < '\U{80}'
  }

  /** The value of a hexadecimal digit; 16 for any other character. */
  function HexDigit(c: char): nat {
    if '0' <= c <= '9' then c as int - '0' as int
    else if 'a' <= c <= 'f' then c as int - 'a' as int + 10
    else if 'A' <= c <= 'F' then c as int - 'A' as int + 10
    else 16
  }

  predicate IsEscape(s: string) {
    |s| >= 3 && s[0] == '%' && HexDigit(s[1]) < 16 && HexDigit(s[2]) < 16
  }

  /** `unquote_to_bytes`: escapes become bytes, other characters their code. */
  function Bytes(s: string): seq<nat> {
    if s == "" then []
    else if IsEscape(s) then [16 * HexDigit(s[1]) + HexDigit(s[2])] + Bytes(s[3..])
    else [s[0] as int] + Bytes(s[1..])
  }

  /** Length of the leading run of ASCII, or of other, characters. */
  function RunLength(s: string, ascii: bool): (n: nat)
    ensures n <= |s|
    ensures s != "" && IsAscii(s[0]) == ascii ==> n > 0
    ensures forall i :: 0 <= i < n ==> IsAscii(s[i]) == ascii
  {
    if s == "" || IsAscii(s[0]) != ascii then 0 else 1 + RunLength(s[1..], ascii)
  }

  /** `unquote`: each ASCII run is percent-decoded and its bytes are read as UTF-8; other characters stay. */
  function Unquote(s: string, utf8: seq<nat> -> string): string
    decreases |s|
  {
    if s == "" then ""
    else
      var ascii := IsAscii(s[0]);
      var n := RunLength(s, ascii);
      (if ascii then utf8(Bytes(s[..n])) else s[..n]) + Unquote(s[n..], utf8)
  }

  function Codes(s: string): (bytes: seq<nat>)
    ensures |bytes| == |s|
  {
    seq(|s|, i requires 0 <= i < |s| => s[i] as int)
  }

  /** Decoding never yields more characters than bytes, and reads ASCII bytes as themselves. */
  ghost predicate Utf8Laws(utf8: seq<nat> -> string) {
    && (forall bytes :: |utf8(bytes)| <= |bytes|)
    && (forall s {:trigger utf8(Codes(s))} :: (forall c :: c in s ==> IsAscii(c)) ==> utf8(Codes(s)) == s)
  }

  lemma {:induction false} BytesShrink(s: string)
    ensures |Bytes(s)| < |s| || Bytes(s) == Codes(s)
  {
    if s != "" {
      if IsEscape(s) {
        BytesShrink(s[3..]);
      } else {
        BytesShrink(s[1..]);
        assert Codes(s) == [s[0] as int] + Codes(s[1..]);
      }
    }
  }

  /** Percent-decoding leaves a string alone or makes it strictly shorter. */
  lemma {:induction false} UnquoteShrinks(s: string, utf8: seq<nat> -> string)
    requires Utf8Laws(utf8)
    ensures |Unquote(s, utf8)| < |s| || Unquote(s, utf8) == s
    decreases |s|
  {
    if s != "" {
      var ascii := IsAscii(s[0]);
      var n := RunLength(s, ascii);
      UnquoteShrinks(s[n..], utf8);
      assert s == s[..n] + s[n..];
      if ascii {
        RunShrinks(s[..n], utf8);
      }
    }
  }

  lemma RunShrinks(run: string, utf8: seq<nat> -> string)
    requires Utf8Laws(utf8) && forall c :: c in run ==> IsAscii(c)
    ensures |utf8(Bytes(run))| < |run| || utf8(Bytes(run)) == run
  {
    BytesShrink(run);
    if Bytes(run) == Codes(run) {
      assert utf8(Codes(run)) == run;
    }
  }

  // ---------- query values ----------

  /** Index of the first `c` in `s`, or the length. */
  function IndexOf(s: string, c: char): (n: nat)
    ensures n <= |s|
    ensures n < |s| ==> s[n] == c
    ensures c !in s[..n]
  {
    if s == "" then 0
    else if s[0] == c then 0
    else
      var rest := IndexOf(s[1..], c);
      assert s[..1 + rest] == [s[0]] + s[1..][..rest];
      1 + rest
  }

  function Spaced(s: string): (r: string)
    ensures |r| == |s|
  {
    seq(|s|, i requires 0 <= i < |s| => if s[i] == '+' then ' ' else s[i])
  }

  /** One field of a query: its name and value, if it has a non-empty value after its first `=`, decoded. */
  function FieldPair(field: string, utf8: seq<nat> -> string): seq<(string, string)> {
    var k := IndexOf(field, '=');
    if k + 1 < |field| then [(Unquote(Spaced(field[..k]), utf8), Unquote(Spaced(field[k + 1..]), utf8))] else []
  }

  /** `parse_qsl` */
  function QueryPairs(query: string, utf8: seq<nat> -> string): seq<(string, string)>
    decreases |query|
  {
    if query == "" then []
    else
      var n := IndexOf(query, '&');
      FieldPair(query[..n], utf8) + (if n < |query| then QueryPairs(query[n + 1..], utf8) else [])
  }

  function ValuesOf(name: string, pairs: seq<(string, string)>): seq<string> {
    if pairs == [] then []
    else (if pairs[0].0 == name then [pairs[0].1] else []) + ValuesOf(name, pairs[1..])
  }

  function WithoutName(name: string, pairs: seq<(string, string)>): (r: seq<(string, string)>)
    ensures |r| <= |pairs|
  {
    if pairs == [] then []
    else (if pairs[0].0 == name then [] else [pairs[0]]) + WithoutName(name, pairs[1..])
  }

  /** The values of `parse_qs`, grouped by name in order of first appearance. */
  function Grouped(pairs: seq<(string, string)>): seq<string>
    decreases |pairs|
  {
    if pairs == [] then []
    else ValuesOf(pairs[0].0, pairs) + Grouped(WithoutName(pairs[0].0, pairs[1..]))
  }

  function QueryValues(query: string, utf8: seq<nat> -> string): seq<string> {
    Grouped(QueryPairs(query, utf8))
  }

  ghost predicate ValuesWithin(pairs: seq<(string, string)>, n: int) {
    forall p :: p in pairs ==> |p.1| <= n
  }

  lemma FieldShrinks(field: string, utf8: seq<nat> -> string)
    requires Utf8Laws(utf8)
    ensures ValuesWithin(FieldPair(field, utf8), |field|)
  {
    var k := IndexOf(field, '=');
    if k + 1 < |field| {
      UnquoteShrinks(Spaced(field[k + 1..]), utf8);
    }
  }

  lemma {:induction false} PairsShrink(query: string, utf8: seq<nat> -> string)
    requires Utf8Laws(utf8)
    ensures ValuesWithin(QueryPairs(query, utf8), |query|)
    decreases |query|
  {
    if query != "" {
      var n := IndexOf(query, '&');
      FieldShrinks(query[..n], utf8);
      if n < |query| {
        PairsShrink(query[n + 1..], utf8);
      }
    }
  }

  lemma {:induction false} ValuesOfPairs(name: string, pairs: seq<(string, string)>, n: int)
    requires ValuesWithin(pairs, n)
    ensures forall v :: v in ValuesOf(name, pairs) ==> |v| <= n
    ensures ValuesWithin(WithoutName(name, pairs), n)
  {
    if pairs != [] {
      assert pairs[0] in pairs;
      ValuesOfPairs(name, pairs[1..], n);
    }
  }

  lemma {:induction false} GroupedWithin(pairs: seq<(string, string)>, n: int)
    requires ValuesWithin(pairs, n)
    ensures forall v :: v in Grouped(pairs) ==> |v| <= n
    decreases |pairs|
  {
    if pairs != [] {
      ValuesOfPairs(pairs[0].0, pairs, n);
      ValuesOfPairs(pairs[0].0, pairs[1..], n);
      GroupedWithin(WithoutName(pairs[0].0, pairs[1..]), n);
    }
  }

  /** No value of a query is longer than the query. */
  lemma QueryValuesWithin(query: string, utf8: seq<nat> -> string)
    requires Utf8Laws(utf8)
    ensures forall v :: v in QueryValues(query, utf8) ==> |v| <= |query|
  {
    PairsShrink(query, utf8);
    GroupedWithin(QueryPairs(query, utf8), |query|);
  }

  // ---------- the share-URL pattern ----------

  /** What is left of `s` after the literal; None unless `s` starts with it. */
  datatype Rest = NoMatch | Rest(s: string)

  function After(r: Rest, literal: string): Rest {
    if r.Rest? && literal <= r.s then Rest(r.s[|literal|..]) else NoMatch
  }

  function Either(a: Rest, b: Rest): Rest {
    if a.Rest? then a else b
  }

  predicate InShareId(c: char) {
    !Text.IsSpace(c) && c != '"' && c != '\'' && c != '<' && c != '>' && c != ')' && c != ',' && c != ']' && c != '&'
  }

  function IdLength(s: string): (n: nat)
    ensures n <= |s|
    ensures forall i :: 0 <= i < n ==> InShareId(s[i])
    ensures n < |s| ==> !InShareId(s[n])
  {
    if s == "" || !InShareId(s[0]) then 0 else 1 + IdLength(s[1..])
  }

  /** What follows scheme, host and share path at the start of `s`. */
  function AfterSharePath(s: string): Rest {
    var scheme := After(Rest(s), "https://");
    var host := Either(After(scheme, "www."), scheme);
    var path := After(Either(After(host, "chatgpt.com"), After(host, "chat.openai.com")), "/");
    Either(After(path, "s/"), After(path, "share/"))
  }

  /** Length of the match of the share-URL pattern at the start of `s`; 0 when there is none. */
  function MatchLength(s: string): nat {
    var id := AfterSharePath(s);
    if id.NoMatch? || IdLength(id.s) == 0 || |id.s| > |s| then 0 else |s| - |id.s| + IdLength(id.s)
  }

  /** `findall`: matches from left to right, without overlap. */
  function FindAll(s: string, matchLength: string -> nat): seq<string>
    decreases |s|
  {
    if s == "" then []
    else
      var n := matchLength(s);
      if 0 < n <= |s| then [s[..n]] + FindAll(s[n..], matchLength) else FindAll(s[1..], matchLength)
  }

  function Matches(s: string): seq<string> {
    FindAll(s, MatchLength)
  }

  predicate PartAt(s: string, m: string, i: nat) {
    i + |m| <= |s| && s[i..i + |m|] == m
  }

  /** A match is a part of the string. */
  lemma {:induction false} MatchesArePart(s: string, matchLength: string -> nat, m: string) returns (i: nat)
    requires m in FindAll(s, matchLength)
    ensures PartAt(s, m, i)
    decreases |s|
  {
    var n := matchLength(s);
    if 0 < n <= |s| {
      if m == s[..n] {
        i := 0;
      } else {
        var j := MatchesArePart(s[n..], matchLength, m);
        i := n + j;
      }
    } else {
      var j := MatchesArePart(s[1..], matchLength, m);
      i := 1 + j;
    }
  }

  /** So it is shorter, unless it is the whole string. */
  lemma MatchesShrink(s: string, m: string)
    requires m in Matches(s)
    ensures |m| < |s| || m == s
  {
    var i := MatchesArePart(s, MatchLength, m);
  }
}
