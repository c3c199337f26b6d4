/** Percent-decoding, query parsing and the share-URL pattern undo what encoding, joining and writing such a URL do. */
module UrlRoundTrip {
  import opened UrlText
  import Text

  // ---------- escapes ----------

  function HexChar(n: nat, upper: bool): char
    requires n < 16
  {
    if n < 10 then '0' + n as char else if upper then 'A' + (n - 10) as char else 'a' + (n - 10) as char
  }

  function Escape(byte: nat, upper: bool): (e: string)
    requires byte < 256
    ensures |e| == 3 && e[0] == '%'
  {
    ['%', HexChar(byte / 16, upper), HexChar(byte % 16, upper)]
  }

  predicate AreBytes(bytes: seq<nat>) {
    forall i :: 0 <= i < |bytes| ==> bytes[i] < 256
  }

  function Escaped(bytes: seq<nat>, upper: bool): (e: string)
    requires AreBytes(bytes)
    ensures |e| == 3 * |bytes|
  {
    if bytes == [] then "" else Escape(bytes[0], upper) + Escaped(bytes[1..], upper)
  }

  lemma HexCharIs(n: nat, upper: bool)
    requires n < 16
    ensures HexDigit(HexChar(n, upper)) == n && IsAscii(HexChar(n, upper))
    ensures HexChar(n, upper) != '+' && HexChar(n, upper) != '=' && HexChar(n, upper) != '&'
  {
  }

  lemma EscapeIs(byte: nat, upper: bool, rest: string)
    requires byte < 256
    ensures var s := Escape(byte, upper) + rest;
            IsEscape(s) && Bytes(s) == [byte] + Bytes(rest)
  {
    var s := Escape(byte, upper) + rest;
    HexCharIs(byte / 16, upper);
    HexCharIs(byte % 16, upper);
    assert s[3..] == rest;
    assert 16 * (byte / 16) + byte % 16 == byte;
  }

  /** Every byte comes back from its escape, in upper or lower case. */
  lemma {:induction false} BytesUndoEscaping(bytes: seq<nat>, upper: bool)
    requires AreBytes(bytes)
    ensures Bytes(Escaped(bytes, upper)) == bytes
  {
    if bytes != [] {
      EscapeIs(bytes[0], upper, Escaped(bytes[1..], upper));
      BytesUndoEscaping(bytes[1..], upper);
    }
  }

  // ---------- form encoding ----------

  predicate AllAscii(s: string) {
    forall i :: 0 <= i < |s| ==> IsAscii(s[i])
  }

  /** A space becomes a plus, everything else its escape. */
  function Encoded(s: string, upper: bool): string
    requires AllAscii(s)
  {
    if s == "" then ""
    else (if s[0] == ' ' then "+" else Escape(s[0] as int, upper)) + Encoded(s[1..], upper)
  }

  ghost predicate Plain(s: string) {
    forall i :: 0 <= i < |s| ==> IsAscii(s[i]) && s[i] != '=' && s[i] != '&'
  }

  lemma EscapeIsPlain(byte: nat, upper: bool)
    requires byte < 256
    ensures Plain(Escape(byte, upper)) && '+' !in Escape(byte, upper)
  {
    HexCharIs(byte / 16, upper);
    HexCharIs(byte % 16, upper);
  }

  lemma {:induction false} EncodedIsPlain(s: string, upper: bool)
    requires AllAscii(s)
    ensures Plain(Encoded(s, upper)) && (s != "" ==> Encoded(s, upper) != "")
  {
    if s != "" {
      EncodedIsPlain(s[1..], upper);
      EscapeIsPlain(s[0] as int, upper);
    }
  }

  lemma SpacedConcat(a: string, b: string)
    ensures Spaced(a + b) == Spaced(a) + Spaced(b)
  {
  }

  lemma {:induction false} BytesUndoEncoding(s: string, upper: bool)
    requires AllAscii(s)
    ensures Bytes(Spaced(Encoded(s, upper))) == Codes(s)
  {
    if s != "" {
      var rest := Encoded(s[1..], upper);
      BytesUndoEncoding(s[1..], upper);
      assert Codes(s) == [s[0] as int] + Codes(s[1..]);
      if s[0] == ' ' {
        SpacedConcat("+", rest);
        assert Spaced("+") == " ";
        PlainByte(' ', Spaced(rest));
      } else {
        var e := Escape(s[0] as int, upper);
        SpacedConcat(e, rest);
        EscapeIsPlain(s[0] as int, upper);
        assert Spaced(e) == e;
        EscapeIs(s[0] as int, upper, Spaced(rest));
      }
    }
  }

  lemma PlainByte(c: char, rest: string)
    requires c != '%'
    ensures Bytes([c] + rest) == [c as int] + Bytes(rest)
  {
    assert ([c] + rest)[1..] == rest;
  }

  lemma {:induction false} WholeRun(s: string)
    requires AllAscii(s)
    ensures RunLength(s, true) == |s|
  {
    if s != "" {
      WholeRun(s[1..]);
    }
  }

  /** Decoding undoes form encoding. */
  lemma UnquoteUndoesEncoding(s: string, upper: bool, utf8: seq<nat> -> string)
    requires Utf8Laws(utf8) && AllAscii(s)
    ensures Unquote(Spaced(Encoded(s, upper)), utf8) == s
  {
    var e := Spaced(Encoded(s, upper));
    EncodedIsPlain(s, upper);
    BytesUndoEncoding(s, upper);
    if e == "" {
      assert s == "";
    } else {
      WholeRun(e);
      assert e[..|e|] == e && e[|e|..] == "";
      assert utf8(Codes(s)) == s;
    }
  }

  /** Text without a percent sign is left alone, whatever its characters. */
  lemma {:induction false} NothingToUnquote(s: string, utf8: seq<nat> -> string)
    requires Utf8Laws(utf8) && '%' !in s
    ensures Unquote(s, utf8) == s
    decreases |s|
  {
    if s != "" {
      var ascii := IsAscii(s[0]);
      var n := RunLength(s, ascii);
      assert s == s[..n] + s[n..];
      NothingToUnquote(s[n..], utf8);
      if ascii {
        NoEscapes(s[..n]);
        assert utf8(Codes(s[..n])) == s[..n];
      }
    }
  }

  lemma {:induction false} NoEscapes(s: string)
    requires '%' !in s
    ensures Bytes(s) == Codes(s)
  {
    if s != "" {
      NoEscapes(s[1..]);
      assert Codes(s) == [s[0] as int] + Codes(s[1..]);
    }
  }

  // ---------- queries ----------

  ghost predicate Encodable(pairs: seq<(string, string)>) {
    forall i :: 0 <= i < |pairs| ==> AllAscii(pairs[i].0) && AllAscii(pairs[i].1) && pairs[i].1 != ""
  }

  function EncodedField(pair: (string, string), upper: bool): string
    requires AllAscii(pair.0) && AllAscii(pair.1)
  {
    Encoded(pair.0, upper) + "=" + Encoded(pair.1, upper)
  }

  function Joined(fields: seq<string>): string {
    if fields == [] then "" else fields[0] + if |fields| == 1 then "" else "&" + Joined(fields[1..])
  }

  /** `urlencode` */
  function EncodedQuery(pairs: seq<(string, string)>, upper: bool): string
    requires Encodable(pairs)
  {
    Joined(seq(|pairs|, i requires 0 <= i < |pairs| => EncodedField(pairs[i], upper)))
  }

  lemma {:induction false} IndexOfIs(a: string, c: char, b: string)
    requires c !in a
    ensures IndexOf(a + [c] + b, c) == |a| && IndexOf(a, c) == |a|
  {
    if a == "" {
      assert a + [c] + b == [c] + b;
    } else {
      assert (a + [c] + b)[1..] == a[1..] + [c] + b;
      IndexOfIs(a[1..], c, b);
    }
  }

  lemma FieldComesBack(pair: (string, string), upper: bool, utf8: seq<nat> -> string)
    requires Utf8Laws(utf8) && AllAscii(pair.0) && AllAscii(pair.1) && pair.1 != ""
    ensures var field := EncodedField(pair, upper); FieldPair(field, utf8) == [pair] && '&' !in field && field != ""
  {
    var name, value := Encoded(pair.0, upper), Encoded(pair.1, upper);
    var field := EncodedField(pair, upper);
    EncodedIsPlain(pair.0, upper);
    EncodedIsPlain(pair.1, upper);
    IndexOfIs(name, '=', value);
    assert field == name + ['='] + value;
    assert field[..|name|] == name && field[|name| + 1..] == value;
    UnquoteUndoesEncoding(pair.0, upper, utf8);
    UnquoteUndoesEncoding(pair.1, upper, utf8);
  }

  lemma FirstField(field: string, rest: string, utf8: seq<nat> -> string)
    requires '&' !in field
    ensures QueryPairs(field + ['&'] + rest, utf8) == FieldPair(field, utf8) + QueryPairs(rest, utf8)
    ensures field != "" ==> QueryPairs(field, utf8) == FieldPair(field, utf8)
  {
    var query := field + ['&'] + rest;
    IndexOfIs(field, '&', rest);
    assert query[..|field|] == field && query[|field| + 1..] == rest && field[..|field|] == field;
  }

  lemma {:induction false} FieldsComeBack(fields: seq<string>, pairs: seq<(string, string)>, utf8: seq<nat> -> string)
    requires |fields| == |pairs|
    requires forall i :: 0 <= i < |fields| ==>
               fields[i] != "" && '&' !in fields[i] && FieldPair(fields[i], utf8) == [pairs[i]]
    ensures QueryPairs(Joined(fields), utf8) == pairs
  {
    if |fields| == 1 {
      FirstField(fields[0], "", utf8);
      assert Joined(fields) == fields[0];
    } else if fields != [] {
      FieldsComeBack(fields[1..], pairs[1..], utf8);
      FirstField(fields[0], Joined(fields[1..]), utf8);
      assert Joined(fields) == fields[0] + ['&'] + Joined(fields[1..]);
    }
  }

  /** Parsing a query gives back the pairs it was made of, in order. */
  lemma QueryComesBack(pairs: seq<(string, string)>, upper: bool, utf8: seq<nat> -> string)
    requires Utf8Laws(utf8) && Encodable(pairs)
    ensures QueryPairs(EncodedQuery(pairs, upper), utf8) == pairs
  {
    var fields := seq(|pairs|, i requires 0 <= i < |pairs| => EncodedField(pairs[i], upper));
    forall i | 0 <= i < |fields|
      ensures fields[i] != "" && '&' !in fields[i] && FieldPair(fields[i], utf8) == [pairs[i]]
    {
      FieldComesBack(pairs[i], upper, utf8);
    }
    FieldsComeBack(fields, pairs, utf8);
  }

  function Seconds(pairs: seq<(string, string)>): (r: seq<string>)
    ensures |r| == |pairs|
  {
    if pairs == [] then [] else [pairs[0].1] + Seconds(pairs[1..])
  }

  lemma Cons<T>(x: T, s: seq<T>)
    ensures multiset([x] + s) == multiset{x} + multiset(s)
  {
  }

  lemma {:induction false} NameOrNot(name: string, pairs: seq<(string, string)>)
    ensures multiset(ValuesOf(name, pairs)) + multiset(Seconds(WithoutName(name, pairs))) == multiset(Seconds(pairs))
  {
    if pairs != [] {
      var values, rest := ValuesOf(name, pairs[1..]), WithoutName(name, pairs[1..]);
      NameOrNot(name, pairs[1..]);
      Cons(pairs[0].1, Seconds(pairs[1..]));
      if pairs[0].0 == name {
        Cons(pairs[0].1, values);
        assert ValuesOf(name, pairs) == [pairs[0].1] + values && WithoutName(name, pairs) == rest;
      } else {
        assert ValuesOf(name, pairs) == values && WithoutName(name, pairs) == [pairs[0]] + rest;
        Cons(pairs[0].1, Seconds(rest));
        assert ([pairs[0]] + rest)[1..] == rest;
        assert Seconds([pairs[0]] + rest) == [pairs[0].1] + Seconds(rest);
      }
    }
  }

  /** Grouping by name neither loses nor invents a value. */
  lemma {:induction false} GroupingKeepsValues(pairs: seq<(string, string)>)
    ensures multiset(Grouped(pairs)) == multiset(Seconds(pairs))
    decreases |pairs|
  {
    if pairs != [] {
      var name, rest := pairs[0].0, WithoutName(pairs[0].0, pairs[1..]);
      GroupingKeepsValues(rest);
      NameOrNot(name, pairs[1..]);
    }
  }

  /** So every value put into a query is read out of it. */
  lemma QueryValuesComeBack(pairs: seq<(string, string)>, upper: bool, utf8: seq<nat> -> string)
    requires Utf8Laws(utf8) && Encodable(pairs)
    ensures multiset(QueryValues(EncodedQuery(pairs, upper), utf8)) == multiset(Seconds(pairs))
  {
    QueryComesBack(pairs, upper, utf8);
    GroupingKeepsValues(pairs);
  }

  lemma {:induction false} OtherNames(name: string, pairs: seq<(string, string)>)
    requires forall i :: 0 <= i < |pairs| ==> pairs[i].0 != name
    ensures ValuesOf(name, pairs) == [] && WithoutName(name, pairs) == pairs
  {
    if pairs != [] {
      OtherNames(name, pairs[1..]);
    }
  }

  /** When no name repeats, they are read out in order. */
  lemma {:induction false} DistinctNamesKeepOrder(pairs: seq<(string, string)>)
    requires forall i, j :: 0 <= i < j < |pairs| ==> pairs[i].0 != pairs[j].0
    ensures Grouped(pairs) == Seconds(pairs)
  {
    if pairs != [] {
      OtherNames(pairs[0].0, pairs[1..]);
      DistinctNamesKeepOrder(pairs[1..]);
    }
  }

  // ---------- the pattern ----------

  const HTTPS := "https://"
  const WWW := "www."
  const HOST := "chatgpt.com"
  const OLD_HOST := "chat.openai.com"

  /** What a share URL starts with, up to its id. */
  function Prefix(www: bool, openai: bool, long: bool): string {
    HTTPS + (if www then WWW else "") + (if openai then OLD_HOST else HOST) + (if long then "/share/" else "/s/")
  }

  predicate IsId(id: string) {
    id != "" && forall i :: 0 <= i < |id| ==> InShareId(id[i])
  }

  lemma AfterIs(literal: string, rest: string)
    ensures After(Rest(literal + rest), literal) == Rest(rest)
  {
    assert (literal + rest)[|literal|..] == rest;
  }

  lemma AfterOther(s: string, literal: string, k: nat)
    requires k < |s| && k < |literal| && s[k] != literal[k]
    ensures After(Rest(s), literal) == NoMatch
  {
  }

  /** The four literals after the scheme are told apart by one letter each. */
  lemma Letters()
    ensures |HTTPS| == 8 && |WWW| == 4 && |HOST| == 11 && |OLD_HOST| == 15
    ensures WWW[0] == 'w' && HOST[0] == 'c' && OLD_HOST[0] == 'c' && HOST[4] == 'g' && OLD_HOST[4] == '.'
  {
  }

  lemma PathIs(long: bool, rest: string)
    ensures var path := After(Rest((if long then "/share/" else "/s/") + rest), "/");
            Either(After(path, "s/"), After(path, "share/")) == Rest(rest)
  {
    var tail := (if long then "share/" else "s/") + rest;
    assert (if long then "/share/" else "/s/") + rest == "/" + tail;
    AfterIs("/", tail);
    AfterIs(if long then "share/" else "s/", rest);
    if long {
      assert tail[1] == 'h' && "s/"[1] == '/';
      AfterOther(tail, "s/", 1);
    }
  }

  lemma HostIs(openai: bool, rest: string)
    ensures var s := (if openai then OLD_HOST else HOST) + rest;
            Either(After(Rest(s), HOST), After(Rest(s), OLD_HOST)) == Rest(rest)
  {
    Letters();
    var s := (if openai then OLD_HOST else HOST) + rest;
    AfterIs(if openai then OLD_HOST else HOST, rest);
    if openai {
      assert s[4] == OLD_HOST[4];
      AfterOther(s, HOST, 4);
    }
  }

  lemma WwwIs(www: bool, openai: bool, rest: string)
    ensures var tail := (if openai then OLD_HOST else HOST) + rest;
            var scheme := Rest((if www then WWW else "") + tail);
            Either(After(scheme, WWW), scheme) == Rest(tail)
  {
    Letters();
    var tail := (if openai then OLD_HOST else HOST) + rest;
    if www {
      AfterIs(WWW, tail);
    } else {
      assert "" + tail == tail && tail[0] == 'c';
      AfterOther(tail, WWW, 0);
    }
  }

  lemma AfterPrefix(www: bool, openai: bool, long: bool, rest: string)
    ensures AfterSharePath(Prefix(www, openai, long) + rest) == Rest(rest)
  {
    var path := (if long then "/share/" else "/s/") + rest;
    var host := (if openai then OLD_HOST else HOST) + path;
    assert Prefix(www, openai, long) + rest == HTTPS + ((if www then WWW else "") + host);
    AfterIs(HTTPS, (if www then WWW else "") + host);
    WwwIs(www, openai, path);
    HostIs(openai, path);
    PathIs(long, rest);
  }

  lemma LengthIs(s: string, tail: string, n: nat)
    requires AfterSharePath(s) == Rest(tail) && |tail| <= |s| && IdLength(tail) == n > 0
    ensures MatchLength(s) == |s| - |tail| + n
  {
  }

  /** A share URL on either host, with or without www, short or long, is matched up to the end of its id. */
  lemma ShareUrlMatches(www: bool, openai: bool, long: bool, id: string, rest: string)
    requires IsId(id) && (rest != "" ==> !InShareId(rest[0]))
    ensures MatchLength(Prefix(www, openai, long) + id + rest) == |Prefix(www, openai, long)| + |id|
  {
    var prefix := Prefix(www, openai, long);
    AfterPrefix(www, openai, long, id + rest);
    IdEnds(id, rest);
    assert prefix + id + rest == prefix + (id + rest);
    LengthIs(prefix + (id + rest), id + rest, |id|);
  }

  lemma {:induction false} IdEnds(id: string, rest: string)
    requires (forall i :: 0 <= i < |id| ==> InShareId(id[i])) && (rest != "" ==> !InShareId(rest[0]))
    ensures IdLength(id + rest) == |id|
  {
    if id == "" {
      assert id + rest == rest;
    } else {
      assert (id + rest)[1..] == id[1..] + rest;
      IdEnds(id[1..], rest);
    }
  }

  lemma AfterSplits(s: string, literal: string)
    requires After(Rest(s), literal).Rest?
    ensures s == literal + After(Rest(s), literal).s
  {
  }

  lemma SchemeSplits(s: string, scheme: Rest, host: Rest)
    requires scheme == After(Rest(s), HTTPS) && scheme.Rest? && host == Either(After(scheme, WWW), scheme)
    ensures host.Rest? && (s == HTTPS + host.s || s == HTTPS + WWW + host.s)
  {
    AfterSplits(s, HTTPS);
  }

  lemma HostSplits(host: string, path: Rest)
    requires path == Either(After(Rest(host), HOST), After(Rest(host), OLD_HOST)) && path.Rest?
    ensures host == HOST + path.s || host == OLD_HOST + path.s
  {
  }

  lemma Assemble(s: string, host: string, path: string, rest: string, www: bool, openai: bool, long: bool)
    requires s == HTTPS + (if www then WWW else "") + host && host == (if openai then OLD_HOST else HOST) + path
    requires path == (if long then "/share/" else "/s/") + rest
    ensures s == Prefix(www, openai, long) + rest
  {
  }

  lemma PrefixSplits(s: string) returns (www: bool, openai: bool, long: bool)
    requires AfterSharePath(s).Rest?
    ensures s == Prefix(www, openai, long) + AfterSharePath(s).s
  {
    var scheme := After(Rest(s), HTTPS);
    var host := Either(After(scheme, WWW), scheme);
    var path := Either(After(host, HOST), After(host, OLD_HOST));
    SchemeSplits(s, scheme, host);
    HostSplits(host.s, path);
    www, openai := s != HTTPS + host.s, host.s != HOST + path.s;
    long := After(After(path, "/"), "s/").NoMatch?;
    PathSplits(path.s, long);
    assert s == HTTPS + (if www then WWW else "") + host.s;
    Assemble(s, host.s, path.s, AfterSharePath(s).s, www, openai, long);
  }

  /** And nothing else is matched. */
  lemma OnlyShareUrlsMatch(s: string) returns (www: bool, openai: bool, long: bool, id: string)
    requires MatchLength(s) > 0
    ensures var n := MatchLength(s);
            n <= |s| && IsId(id) && s[..n] == Prefix(www, openai, long) + id && (n < |s| ==> !InShareId(s[n]))
  {
    www, openai, long := PrefixSplits(s);
    id := IdOf(s, Prefix(www, openai, long), AfterSharePath(s).s);
  }

  lemma IdOf(s: string, prefix: string, rest: string) returns (id: string)
    requires MatchLength(s) > 0 && AfterSharePath(s) == Rest(rest) && s == prefix + rest
    ensures var n := MatchLength(s);
            n <= |s| && IsId(id) && s[..n] == prefix + id && (n < |s| ==> !InShareId(s[n]))
  {
    var n := IdLength(rest);
    id := rest[..n];
    LengthIs(s, rest, n);
    CutAt(prefix, rest, n);
  }

  lemma CutAt(a: string, b: string, n: nat)
    requires n <= |b|
    ensures (a + b)[..|a| + n] == a + b[..n] && (n < |b| ==> (a + b)[|a| + n] == b[n])
  {
  }

  lemma PathSplits(path: string, long: bool)
    requires var after := After(Rest(path), "/");
             && Either(After(after, "s/"), After(after, "share/")).Rest? && (long <==> After(after, "s/").NoMatch?)
    ensures var after := After(Rest(path), "/");
            path == (if long then "/share/" else "/s/") + Either(After(after, "s/"), After(after, "share/")).s
  {
    AfterSplits(path, "/");
  }

  // ---------- all matches, from left to right ----------

  /** The matches are the first one and those after its end, whatever the pattern. */
  lemma {:induction false} FirstIsFound(s: string, matchLength: string -> nat, p: nat)
    requires p < |s| && 0 < matchLength(s[p..]) <= |s| - p && forall i :: 0 <= i < p ==> matchLength(s[i..]) == 0
    ensures var n := matchLength(s[p..]);
            FindAll(s, matchLength) == [s[p..p + n]] + FindAll(s[p + n..], matchLength)
    decreases p
  {
    var n := matchLength(s[p..]);
    assert s[0..] == s;
    if p > 0 {
      assert s[1..][p - 1..] == s[p..];
      forall i | 0 <= i < p - 1 ensures matchLength(s[1..][i..]) == 0 {
        assert s[1..][i..] == s[i + 1..];
      }
      FirstIsFound(s[1..], matchLength, p - 1);
      assert s[1..][p - 1..p - 1 + n] == s[p..p + n] && s[1..][p - 1 + n..] == s[p + n..];
    }
  }

  /** Where nothing matches, nothing is found. */
  lemma {:induction false} NoneIsFound(s: string, matchLength: string -> nat)
    requires forall i :: 0 <= i < |s| ==> matchLength(s[i..]) == 0
    ensures FindAll(s, matchLength) == []
    decreases |s|
  {
    if s != "" {
      assert s[0..] == s;
      forall i | 0 <= i < |s| - 1 ensures matchLength(s[1..][i..]) == 0 {
        assert s[1..][i..] == s[i + 1..];
      }
      NoneIsFound(s[1..], matchLength);
    }
  }
}
