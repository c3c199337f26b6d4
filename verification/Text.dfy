/** Python string order and `str.strip`, shared by the other modules. */
module Text {
  import Sorting

  /** `a <= b` in code-point order. */
  predicate LexLe(a: string, b: string) {
    if a == "" then true
    else if b == "" then false
    else a[0] < b[0] || (a[0] == b[0] && LexLe(a[1..], b[1..]))
  }

  /** The usual reading: a prefix comes first, otherwise the first difference decides. */
  ghost predicate Differs(a: string, b: string, k: nat) {
    k < |a| && k < |b| && a[..k] == b[..k] && a[k] < b[k]
  }

  lemma {:induction false} LexLeIff(a: string, b: string)
    ensures LexLe(a, b) <==> a <= b || exists k: nat :: Differs(a, b, k)
  {
    if a != "" && b != "" {
      if a[0] == b[0] {
        LexLeIff(a[1..], b[1..]);
        SameHead(a, b);
      } else {
        OtherHead(a, b);
      }
    }
  }

  lemma SameHead(a: string, b: string)
    requires a != "" && b != "" && a[0] == b[0]
    ensures a <= b <==> a[1..] <= b[1..]
    ensures (exists k: nat :: Differs(a, b, k)) <==> exists k: nat :: Differs(a[1..], b[1..], k)
  {
    assert a == [a[0]] + a[1..] && b == [b[0]] + b[1..];
    if k: nat :| Differs(a[1..], b[1..], k) {
      assert Differs(a, b, k + 1);
    }
    if k: nat :| Differs(a, b, k) {
      assert k > 0 && Differs(a[1..], b[1..], k - 1);
    }
  }

  lemma OtherHead(a: string, b: string)
    requires a != "" && b != "" && a[0] != b[0]
    ensures !(a <= b) && ((exists k: nat :: Differs(a, b, k)) <==> a[0] < b[0])
  {
    assert a[0] < b[0] ==> Differs(a, b, 0);
    forall k: nat | 0 < k ensures !Differs(a, b, k) {
      if k < |a| && k < |b| {
        assert a[..k][0] == a[0] && b[..k][0] == b[0];
      }
    }
  }

  lemma {:induction false} LexTotal(a: string, b: string)
    ensures LexLe(a, b) || LexLe(b, a)
    ensures LexLe(a, b) && LexLe(b, a) ==> a == b
  {
    if a != "" && b != "" {
      LexTotal(a[1..], b[1..]);
      assert a == [a[0]] + a[1..] && b == [b[0]] + b[1..];
    }
  }

  lemma {:induction false} LexTransitive(a: string, b: string, c: string)
    requires LexLe(a, b) && LexLe(b, c)
    ensures LexLe(a, c)
  {
    if a != "" && a[0] == b[0] == c[0] {
      LexTransitive(a[1..], b[1..], c[1..]);
    }
  }

  lemma LexIsLinear()
    ensures Sorting.LinearOrder(LexLe)
  {
    forall a: string, b: string
      ensures LexLe(a, b) || LexLe(b, a)
      ensures LexLe(a, b) && LexLe(b, a) ==> a == b
    {
      LexTotal(a, b);
    }
    forall a: string, b: string, c: string | LexLe(a, b) && LexLe(b, c)
      ensures LexLe(a, c)
    {
      LexTransitive(a, b, c);
    }
  }

  /** Characters for which Python's `str.isspace` holds. */
  predicate IsSpace(c: char) {
    || '\t' <= c <= '\r' || '\U{1C}' <= c <= ' ' || c == '\U{85}' || c == '\U{A0}' || c == '\U{1680}'
    || '\U{2000}' <= c <= '\U{200A}' || c == '\U{2028}' || c == '\U{2029}' || c == '\U{202F}'
    || c == '\U{205F}' || c == '\U{3000}'
  }

  /** `s.lstrip(chars)` for the characters satisfying `drop`. */
  function TrimStart(s: string, drop: char -> bool): string {
    if s != "" && drop(s[0]) then TrimStart(s[1..], drop) else s
  }

  function TrimEnd(s: string, drop: char -> bool): string {
    if s != "" && drop(s[|s| - 1]) then TrimEnd(s[..|s| - 1], drop) else s
  }

  function StripOf(s: string, drop: char -> bool): string {
    TrimEnd(TrimStart(s, drop), drop)
  }

  function Strip(s: string): string {
    StripOf(s, IsSpace)
  }

  lemma {:induction false} TrimStartFacts(s: string, drop: char -> bool)
    ensures var r := TrimStart(s, drop);
            && |r| <= |s| && r == s[|s| - |r|..]
            && (r != "" ==> !drop(r[0]))
            && (forall i :: 0 <= i < |s| - |r| ==> drop(s[i]))
  {
    if s != "" && drop(s[0]) {
      var t := s[1..];
      TrimStartFacts(t, drop);
      var r := TrimStart(t, drop);
      assert s[|s| - |r|..] == t[|t| - |r|..];
      forall i | 0 <= i < |s| - |r| ensures drop(s[i]) {
        assert i > 0 ==> s[i] == t[i - 1];
      }
    }
  }

  lemma {:induction false} TrimEndFacts(s: string, drop: char -> bool)
    ensures var r := TrimEnd(s, drop);
            && |r| <= |s| && r == s[..|r|]
            && (r != "" ==> !drop(r[|r| - 1]))
            && (forall i :: |r| <= i < |s| ==> drop(s[i]))
  {
    if s != "" && drop(s[|s| - 1]) {
      var t := s[..|s| - 1];
      TrimEndFacts(t, drop);
      var r := TrimEnd(t, drop);
      assert s[..|r|] == t[..|r|];
      forall i | |r| <= i < |s| ensures drop(s[i]) {
        assert i < |t| ==> s[i] == t[i];
      }
    }
  }

  /** Stripping removes droppable characters only, at the ends only, and all of them. */
  lemma StripFacts(s: string, drop: char -> bool) returns (from: nat, upto: nat)
    ensures from <= upto <= |s| && StripOf(s, drop) == s[from..upto]
    ensures from < upto ==> !drop(s[from]) && !drop(s[upto - 1])
    ensures forall i :: 0 <= i < from || upto <= i < |s| ==> drop(s[i])
  {
    var t := TrimStart(s, drop);
    TrimStartFacts(s, drop);
    TrimEndFacts(t, drop);
    from := |s| - |t|;
    upto := from + |TrimEnd(t, drop)|;
    assert forall i :: upto <= i < |s| ==> s[i] == t[i - from];
  }

  /** A string with no droppable character at either end is left alone. */
  lemma StripKeeps(s: string, drop: char -> bool)
    requires s != "" ==> !drop(s[0]) && !drop(s[|s| - 1])
    ensures StripOf(s, drop) == s
  {
  }
}
