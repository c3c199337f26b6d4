/** Breadth-first search through derived strings, whatever the derivation. */
module DerivationSearch {
  import opened Wrappers

  /** How candidates are cleaned up and judged, and what an unsuccessful one adds to the queue. */
  datatype Space = Space(clean: string -> string, derived: string -> seq<string>,
                         valid: string -> bool, unparsable: string -> bool)

  /** A derived string, cleaned up, is strictly shorter than its candidate, or the candidate itself. */
  ghost predicate Shrinks(sp: Space) {
    forall s, d {:trigger d in sp.derived(s)} :: d in sp.derived(s) ==> |sp.clean(d)| < |s| || sp.clean(d) == s
  }

  function CleanedOne(sp: Space, item: string): seq<string> {
    if sp.clean(item) == "" then [] else [sp.clean(item)]
  }

  /** Queued strings as the search reads them: cleaned up, blanks dropped. */
  function Cleaned(sp: Space, items: seq<string>): seq<string> {
    if items == [] then [] else CleanedOne(sp, items[0]) + Cleaned(sp, items[1..])
  }

  /** The candidates derived from each of `from` in turn. */
  function Kids(sp: Space, from: seq<string>): seq<string> {
    if from == [] then [] else Kids(sp, from[..|from| - 1]) + Cleaned(sp, sp.derived(from[|from| - 1]))
  }

  /** The candidates `n` derivation steps from the text, in the order in which the derivations produce them. */
  function Level(sp: Space, text: string, n: nat): seq<string> {
    if n == 0 then Cleaned(sp, [text]) else Kids(sp, Level(sp, text, n - 1))
  }

  /** A candidate that ends the search. */
  predicate Decisive(sp: Space, s: string) {
    sp.unparsable(s) || sp.valid(s)
  }

  /** Place `i` of level `n` comes before place `j` of level `m`. */
  predicate Before(n: nat, i: nat, m: nat, j: nat) {
    n < m || (n == m && i < j)
  }

  ghost predicate DecisiveAt(sp: Space, text: string, n: nat, i: nat) {
    i < |Level(sp, text, n)| && Decisive(sp, Level(sp, text, n)[i])
  }

  /** The first decisive candidate, level by level and in order within a level. */
  ghost predicate Decides(sp: Space, text: string, n: nat, i: nat) {
    DecisiveAt(sp, text, n, i) && forall m: nat, j: nat :: Before(m, j, n, i) ==> !DecisiveAt(sp, text, m, j)
  }

  /** There is at most one. */
  lemma DecidesOnce(sp: Space, text: string, n: nat, i: nat, m: nat, j: nat)
    requires Decides(sp, text, n, i) && Decides(sp, text, m, j)
    ensures n == m && i == j
  {
    assert n != m || i != j ==> Before(n, i, m, j) || Before(m, j, n, i);
  }

  datatype Answer = Found(url: string) | Nothing | Raised

  /** The answer that a decisive candidate gives: parsing comes before judging. */
  function Verdict(sp: Space, s: string): Answer {
    if sp.unparsable(s) then Raised else Found(s)
  }

  // ---------- the universe of candidates ----------

  /** All strings that can come up from `s`, `s` included: a finite set, since derivation only shortens. */
  ghost function Universe(sp: Space, s: string): set<string>
    decreases |s|
  {
    {s} + set d, x | d in sp.derived(s) && |sp.clean(d)| < |s| && x in Universe(sp, sp.clean(d)) :: x
  }

  lemma {:induction false} UniverseIsClosed(sp: Space, s: string, c: string, d: string)
    requires Shrinks(sp) && c in Universe(sp, s) && d in sp.derived(c)
    ensures sp.clean(d) in Universe(sp, s)
    decreases |s|
  {
    if c == s {
      assert |sp.clean(d)| < |s| || sp.clean(d) == s;
      assert sp.clean(d) in Universe(sp, sp.clean(d));
    } else {
      var e :| e in sp.derived(s) && |sp.clean(e)| < |s| && c in Universe(sp, sp.clean(e));
      UniverseIsClosed(sp, sp.clean(e), c, d);
    }
  }

  /** Seen and queued candidates stay within a finite universe. */
  ghost predicate Bounded(sp: Space, universe: set<string>, seen: set<string>, pending: seq<string>) {
    seen <= universe && forall d :: d in pending ==> sp.clean(d) == "" || sp.clean(d) in universe
  }

  // ---------- order-preserving omission ----------

  function Elements(s: seq<string>): set<string> {
    set x | x in s
  }

  /** `kept` is `full` without some elements, each of which is in `known` or stands earlier in `full`. */
  ghost predicate Thins(kept: seq<string>, full: seq<string>, known: set<string>)
    decreases |full|
  {
    if full == [] then kept == []
    else
      || (kept != [] && kept[0] == full[0] && Thins(kept[1..], full[1..], known + {full[0]}))
      || (full[0] in known && Thins(kept, full[1..], known))
  }

  lemma {:induction false} ThinsMore(kept: seq<string>, full: seq<string>, known: set<string>, more: set<string>)
    requires Thins(kept, full, known) && known <= more
    ensures Thins(kept, full, more)
    decreases |full|
  {
    if full != [] {
      if kept != [] && kept[0] == full[0] && Thins(kept[1..], full[1..], known + {full[0]}) {
        ThinsMore(kept[1..], full[1..], known + {full[0]}, more + {full[0]});
      } else {
        ThinsMore(kept, full[1..], known, more);
      }
    }
  }

  lemma {:induction false} ThinsItself(full: seq<string>, known: set<string>)
    ensures Thins(full, full, known)
    decreases |full|
  {
    if full != [] {
      ThinsItself(full[1..], known + {full[0]});
    }
  }

  lemma {:induction false} ThinsToNothing(full: seq<string>, known: set<string>)
    requires Elements(full) <= known
    ensures Thins([], full, known)
    decreases |full|
  {
    if full != [] {
      assert full[0] in full && Elements(full[1..]) <= Elements(full);
      ThinsToNothing(full[1..], known);
    }
  }

  lemma {:induction false} NothingThins(full: seq<string>, known: set<string>)
    requires Thins([], full, known)
    ensures Elements(full) <= known
    decreases |full|
  {
    if full != [] {
      NothingThins(full[1..], known);
      assert full == [full[0]] + full[1..];
    }
  }

  lemma {:induction false} ThinsAppend(a: seq<string>, b: seq<string>, c: seq<string>, d: seq<string>,
                                       known: set<string>)
    requires Thins(a, b, known) && Thins(c, d, known + Elements(b))
    ensures Thins(a + c, b + d, known)
    decreases |b|
  {
    if b == [] {
      assert a + c == c && b + d == d && known + Elements(b) == known;
    } else {
      var rest := b[1..];
      assert b == [b[0]] + rest && (b + d)[1..] == rest + d;
      assert Elements(b) == {b[0]} + Elements(rest);
      if a != [] && a[0] == b[0] && Thins(a[1..], rest, known + {b[0]}) {
        assert known + {b[0]} + Elements(rest) == known + Elements(b);
        ThinsAppend(a[1..], rest, c, d, known + {b[0]});
        assert (a + c)[1..] == a[1..] + c;
      } else {
        assert known + Elements(rest) == known + Elements(b);
        ThinsAppend(a, rest, c, d, known);
      }
    }
  }

  // ---------- cleaned queues and kids ----------

  lemma {:induction false} CleanedAppend(sp: Space, a: seq<string>, b: seq<string>)
    ensures Cleaned(sp, a + b) == Cleaned(sp, a) + Cleaned(sp, b)
  {
    if a == [] {
      assert a + b == b;
    } else {
      CleanedAppend(sp, a[1..], b);
      assert (a + b)[0] == a[0] && (a + b)[1..] == a[1..] + b;
      Associate(CleanedOne(sp, a[0]), Cleaned(sp, a[1..]), Cleaned(sp, b));
    }
  }

  lemma Associate(a: seq<string>, b: seq<string>, c: seq<string>)
    ensures a + (b + c) == a + b + c
  {
  }

  lemma KidsSnoc(sp: Space, from: seq<string>, s: string)
    ensures Kids(sp, from + [s]) == Kids(sp, from) + Cleaned(sp, sp.derived(s))
  {
    assert (from + [s])[..|from|] == from;
  }

  lemma {:induction false} KidsContain(sp: Space, from: seq<string>, s: string)
    requires s in from
    ensures Elements(Cleaned(sp, sp.derived(s))) <= Elements(Kids(sp, from))
  {
    var n := |from| - 1;
    assert from == from[..n] + [from[n]];
    if s != from[n] {
      KidsContain(sp, from[..n], s);
    }
  }

  /** Everything on the levels below `n`. */
  ghost function Below(sp: Space, text: string, n: nat): set<string> {
    if n == 0 then {} else Below(sp, text, n - 1) + Elements(Level(sp, text, n - 1))
  }

  /** What derives from below level `n` is below level `n + 1`. */
  lemma {:induction false} KidsBelow(sp: Space, text: string, n: nat, s: string)
    requires s in Below(sp, text, n)
    ensures Elements(Cleaned(sp, sp.derived(s))) <= Below(sp, text, n + 1)
  {
    if s in Level(sp, text, n - 1) {
      KidsContain(sp, Level(sp, text, n - 1), s);
    } else {
      KidsBelow(sp, text, n - 1, s);
    }
  }

  // ---------- the search ----------

  /**
   Before place `i` of a level, with `below` what is on lower levels: seen is exactly what comes before; `front` holds
   the rest of the level and `back` what the level so far gives to the next one, both without what had come up before;
   nothing seen was decisive.
   */
  ghost predicate Stands(sp: Space, seen: set<string>, front: seq<string>, back: seq<string>, below: set<string>,
                         level: seq<string>, i: nat) {
    && i <= |level| && seen == below + Elements(level[..i])
    && Thins(front, level[i..], seen) && Thins(back, Kids(sp, level[..i]), below + Elements(level))
    && forall s :: s in seen ==> !Decisive(sp, s)
  }

  /** The search stands before place `i` of level `n`, with the first `front` queued strings on that level. */
  ghost predicate Searching(sp: Space, text: string, seen: set<string>, pending: seq<string>, front: nat, n: nat,
                            i: nat) {
    front <= |pending|
    && Stands(sp, seen, Cleaned(sp, pending[..front]), Cleaned(sp, pending[front..]), Below(sp, text, n),
              Level(sp, text, n), i)
  }

  /** One round is over: the head is gone, and either a candidate is newly seen or the queue is shorter. */
  ghost predicate Advanced(sp: Space, text: string, universe: set<string>, seen: set<string>, pending: seq<string>,
                           front: nat, n: nat, nowSeen: set<string>, left: seq<string>, at: nat) {
    && front > 0 && Searching(sp, text, nowSeen, left, front - 1, n, at) && Bounded(sp, universe, nowSeen, left)
    && (universe - nowSeen < universe - seen || (nowSeen == seen && |left| < |pending|))
  }

  /** What the answer says: it is the verdict of the first decisive candidate, or there is none. */
  ghost predicate Explains(sp: Space, text: string, r: Answer) {
    if r.Nothing? then forall n: nat, i: nat :: !DecisiveAt(sp, text, n, i)
    else exists n: nat, i: nat :: Decides(sp, text, n, i) && r == Verdict(sp, Level(sp, text, n)[i])
  }

  /**
   Terminates on every text. The answer is that of the first candidate, in queue order, that is valid or cannot be
   parsed; nothing is found exactly when no candidate at any distance is either.
   */
  method Search(sp: Space, text: string) returns (r: Answer)
    requires Shrinks(sp)
    ensures Explains(sp, text, r)
    ensures forall n: nat, i: nat :: Decides(sp, text, n, i) ==> r == Verdict(sp, Level(sp, text, n)[i])
  {
    r := Run(sp, text);
    forall n: nat, i: nat | Decides(sp, text, n, i) ensures r == Verdict(sp, Level(sp, text, n)[i]) {
      var m: nat, j: nat :| Decides(sp, text, m, j) && r == Verdict(sp, Level(sp, text, m)[j]);
      DecidesOnce(sp, text, n, i, m, j);
    }
  }

  method Run(sp: Space, text: string) returns (r: Answer)
    requires Shrinks(sp)
    ensures Explains(sp, text, r)
  {
    var pending, seen: set<string> := [text], {};
    ghost var universe := Universe(sp, sp.clean(text));
    ghost var front: nat, n: nat, i: nat := 1, 0, 0;
    Start(sp, text);
    while pending != []
      invariant Searching(sp, text, seen, pending, front, n, i) && Bounded(sp, universe, seen, pending)
      invariant universe == Universe(sp, sp.clean(text))
      decreases universe - seen, |pending|
    {
      var stop;
      stop, seen, pending, front, n, i := Round(sp, text, seen, pending, front, n, i, universe);
      if stop.Some? {
        return stop.value;
      }
    }
    NothingLeft(sp, text, seen, front, n, i);
    return Nothing;
  }

  /** One round of the loop; on the specification side a level that is used up gives way to the next. */
  method Round(sp: Space, text: string, seen: set<string>, pending: seq<string>, ghost front: nat, ghost n: nat,
               ghost i: nat, ghost universe: set<string>)
    returns (stop: Option<Answer>, nowSeen: set<string>, left: seq<string>, ghost nowFront: nat, ghost now: nat,
             ghost at: nat)
    requires Shrinks(sp) && Searching(sp, text, seen, pending, front, n, i) && pending != []
    requires Bounded(sp, universe, seen, pending) && universe == Universe(sp, sp.clean(text))
    ensures stop.Some? ==> Explains(sp, text, stop.value)
    ensures stop.None? ==> Searching(sp, text, nowSeen, left, nowFront, now, at) && Bounded(sp, universe, nowSeen, left)
    ensures stop.None? ==> universe - nowSeen < universe - seen || (nowSeen == seen && |left| < |pending|)
  {
    nowFront, now, at := Renew(sp, text, seen, pending, front, n, i);
    stop, nowSeen, left, at := Visit(sp, text, seen, pending, nowFront, now, at, universe);
    nowFront := nowFront - 1;
  }

  lemma Start(sp: Space, text: string)
    ensures Searching(sp, text, {}, [text], 1, 0, 0) && Bounded(sp, Universe(sp, sp.clean(text)), {}, [text])
  {
    var level := Level(sp, text, 0);
    assert [text][..1] == [text] && [text][1..] == [] && level[..0] == [] && level[0..] == level;
    ThinsItself(level, {});
  }

  /** Takes the head of the queue: skips it, answers with it, or queues its derivatives. */
  method Visit(sp: Space, text: string, seen: set<string>, pending: seq<string>, ghost front: nat, ghost n: nat,
               ghost i: nat, ghost universe: set<string>)
    returns (stop: Option<Answer>, nowSeen: set<string>, left: seq<string>, ghost at: nat)
    requires Shrinks(sp) && Searching(sp, text, seen, pending, front, n, i) && front > 0
    requires Bounded(sp, universe, seen, pending) && universe == Universe(sp, sp.clean(text))
    ensures stop.Some? ==> !stop.value.Nothing? && Explains(sp, text, stop.value)
    ensures stop.None? ==> Advanced(sp, text, universe, seen, pending, front, n, nowSeen, left, at)
  {
    var candidate := sp.clean(pending[0]);
    left, nowSeen, at := pending[1..], seen, i;
    if candidate == "" {
      DropBlank(sp, text, seen, pending, front, n, i, universe);
      return None, nowSeen, left, at;
    }
    at := SkipToHead(sp, text, seen, pending, front, n, i);
    if candidate in seen {
      DropSeen(sp, text, seen, pending, front, n, at, universe);
      return None, nowSeen, left, at + 1;
    }
    nowSeen := seen + {candidate};
    if sp.unparsable(candidate) || sp.valid(candidate) {
      HeadDecides(sp, text, seen, pending, front, n, at);
      return Some(Verdict(sp, candidate)), nowSeen, left, at;
    }
    left := left + sp.derived(candidate);
    Expand(sp, text, seen, pending, front, n, at, universe);
    return None, nowSeen, left, at + 1;
  }

  // ---------- one round, on the specification side ----------

  lemma CleanedHead(sp: Space, pending: seq<string>, front: nat)
    requires 0 < front <= |pending|
    ensures Cleaned(sp, pending[..front]) == CleanedOne(sp, pending[0]) + Cleaned(sp, pending[1..][..front - 1])
    ensures pending[1..][front - 1..] == pending[front..]
  {
    assert pending[..front][1..] == pending[1..][..front - 1];
  }

  lemma DropBlank(sp: Space, text: string, seen: set<string>, pending: seq<string>, front: nat, n: nat, i: nat,
                  universe: set<string>)
    requires Searching(sp, text, seen, pending, front, n, i) && front > 0 && sp.clean(pending[0]) == ""
    requires Bounded(sp, universe, seen, pending)
    ensures Advanced(sp, text, universe, seen, pending, front, n, seen, pending[1..], i)
  {
    BlankHead(sp, pending, front);
  }

  lemma BlankHead(sp: Space, pending: seq<string>, front: nat)
    requires 0 < front <= |pending| && sp.clean(pending[0]) == ""
    ensures Cleaned(sp, pending[..front]) == Cleaned(sp, pending[1..][..front - 1])
    ensures pending[1..][front - 1..] == pending[front..]
  {
    CleanedHead(sp, pending, front);
    assert CleanedOne(sp, pending[0]) == [];
  }

  /** What derives from below the level is below the next one. */
  ghost predicate Closed(sp: Space, below: set<string>, level: seq<string>) {
    forall s :: s in below ==> Elements(Cleaned(sp, sp.derived(s))) <= below + Elements(level)
  }

  lemma LevelsAreClosed(sp: Space, text: string, n: nat)
    ensures Closed(sp, Below(sp, text, n), Level(sp, text, n))
  {
    forall s | s in Below(sp, text, n)
      ensures Elements(Cleaned(sp, sp.derived(s))) <= Below(sp, text, n) + Elements(Level(sp, text, n))
    {
      KidsBelow(sp, text, n, s);
    }
  }

  /** Passing a place whose candidate has been seen: it gives nothing new to the next level. */
  lemma PassSeen(sp: Space, seen: set<string>, back: seq<string>, below: set<string>, level: seq<string>, i: nat)
    requires Closed(sp, below, level) && i < |level| && level[i] in seen
    requires seen == below + Elements(level[..i]) && Thins(back, Kids(sp, level[..i]), below + Elements(level))
    ensures seen == below + Elements(level[..i + 1])
    ensures Thins(back, Kids(sp, level[..i + 1]), below + Elements(level))
  {
    var s, before, known := level[i], level[..i], below + Elements(level);
    assert level[..i + 1] == before + [s];
    assert Elements(before + [s]) == Elements(before) + {s};
    var added, kids := Cleaned(sp, sp.derived(s)), Kids(sp, before);
    if s in before {
      KidsContain(sp, before, s);
    }
    assert Elements(added) <= known + Elements(kids);
    ThinsToNothing(added, known + Elements(kids));
    ThinsAppend(back, kids, [], added, known);
    assert back + [] == back;
    KidsSnoc(sp, before, s);
  }

  /** Places left out of the queue are passed until the head's own place is reached. */
  lemma {:induction false} Skip(sp: Space, seen: set<string>, front: seq<string>, back: seq<string>, below: set<string>,
                                level: seq<string>, i: nat)
    returns (at: nat)
    requires Closed(sp, below, level) && Stands(sp, seen, front, back, below, level, i) && front != []
    ensures Stands(sp, seen, front, back, below, level, at)
    ensures at < |level| && level[at] == front[0] && Thins(front[1..], level[at + 1..], seen + {front[0]})
    decreases |level| - i
  {
    var full := level[i..];
    assert full != [] && full[1..] == level[i + 1..];
    if front[0] == full[0] && Thins(front[1..], full[1..], seen + {full[0]}) {
      at := i;
    } else {
      PassSeen(sp, seen, back, below, level, i);
      at := Skip(sp, seen, front, back, below, level, i + 1);
    }
  }

  /** The search stands before the place of the head of its queue. */
  ghost predicate AtHead(sp: Space, text: string, seen: set<string>, pending: seq<string>, front: nat, n: nat, i: nat) {
    && Searching(sp, text, seen, pending, front, n, i) && front > 0 && i < |Level(sp, text, n)|
    && Level(sp, text, n)[i] == sp.clean(pending[0]) != ""
    && Thins(Cleaned(sp, pending[1..][..front - 1]), Level(sp, text, n)[i + 1..], seen + {sp.clean(pending[0])})
  }

  lemma SkipToHead(sp: Space, text: string, seen: set<string>, pending: seq<string>, front: nat, n: nat, i: nat)
    returns (at: nat)
    requires Searching(sp, text, seen, pending, front, n, i) && front > 0 && sp.clean(pending[0]) != ""
    ensures AtHead(sp, text, seen, pending, front, n, at)
  {
    CleanedHead(sp, pending, front);
    var kept := Cleaned(sp, pending[..front]);
    assert kept[0] == sp.clean(pending[0]) && kept[1..] == Cleaned(sp, pending[1..][..front - 1]);
    LevelsAreClosed(sp, text, n);
    at := Skip(sp, seen, kept, Cleaned(sp, pending[front..]), Below(sp, text, n), Level(sp, text, n), i);
  }

  lemma DropSeen(sp: Space, text: string, seen: set<string>, pending: seq<string>, front: nat, n: nat, i: nat,
                 universe: set<string>)
    requires AtHead(sp, text, seen, pending, front, n, i) && sp.clean(pending[0]) in seen
    requires Bounded(sp, universe, seen, pending)
    ensures Advanced(sp, text, universe, seen, pending, front, n, seen, pending[1..], i + 1)
  {
    LevelsAreClosed(sp, text, n);
    PassSeen(sp, seen, Cleaned(sp, pending[front..]), Below(sp, text, n), Level(sp, text, n), i);
    assert seen + {sp.clean(pending[0])} == seen;
    assert pending[1..][front - 1..] == pending[front..];
  }

  /** A newly seen candidate gives all its derivatives to the next level. */
  lemma PassNew(sp: Space, seen: set<string>, front: seq<string>, back: seq<string>, below: set<string>,
                level: seq<string>, i: nat)
    requires i < |level| && seen == below + Elements(level[..i]) && !Decisive(sp, level[i])
    requires Thins(front, level[i + 1..], seen + {level[i]})
    requires Thins(back, Kids(sp, level[..i]), below + Elements(level))
    requires forall s :: s in seen ==> !Decisive(sp, s)
    ensures Stands(sp, seen + {level[i]}, front, back + Cleaned(sp, sp.derived(level[i])), below, level, i + 1)
  {
    var s, before, known := level[i], level[..i], below + Elements(level);
    assert level[..i + 1] == before + [s];
    assert Elements(before + [s]) == Elements(before) + {s};
    KidsSnoc(sp, before, s);
    var added, kids := Cleaned(sp, sp.derived(s)), Kids(sp, before);
    ThinsItself(added, known + Elements(kids));
    ThinsAppend(back, kids, added, added, known);
  }

  lemma Expand(sp: Space, text: string, seen: set<string>, pending: seq<string>, front: nat, n: nat, i: nat,
               universe: set<string>)
    requires AtHead(sp, text, seen, pending, front, n, i) && !Decisive(sp, sp.clean(pending[0]))
    requires Shrinks(sp) && universe == Universe(sp, sp.clean(text))
    requires Bounded(sp, universe, seen, pending) && sp.clean(pending[0]) !in seen
    ensures var s := sp.clean(pending[0]);
            Advanced(sp, text, universe, seen, pending, front, n, seen + {s}, pending[1..] + sp.derived(s), i + 1)
  {
    QueueSplits(sp, pending, front);
    PassNew(sp, seen, Cleaned(sp, pending[1..][..front - 1]), Cleaned(sp, pending[front..]), Below(sp, text, n),
            Level(sp, text, n), i);
    StaysBounded(sp, universe, seen, pending, text);
  }

  lemma QueueSplits(sp: Space, pending: seq<string>, front: nat)
    requires 0 < front <= |pending|
    ensures var added := sp.derived(sp.clean(pending[0]));
            var left := pending[1..] + added;
            && left[..front - 1] == pending[1..][..front - 1]
            && Cleaned(sp, left[front - 1..]) == Cleaned(sp, pending[front..]) + Cleaned(sp, added)
  {
    var added := sp.derived(sp.clean(pending[0]));
    assert (pending[1..] + added)[front - 1..] == pending[front..] + added;
    CleanedAppend(sp, pending[front..], added);
  }

  /** The candidates before a place are those below its level and those before it on its level. */
  lemma {:induction false} BelowHolds(sp: Space, text: string, n: nat, m: nat, j: nat)
    requires m < n && j < |Level(sp, text, m)|
    ensures Level(sp, text, m)[j] in Below(sp, text, n)
  {
    if m < n - 1 {
      BelowHolds(sp, text, n - 1, m, j);
    }
  }

  lemma HeadDecides(sp: Space, text: string, seen: set<string>, pending: seq<string>, front: nat, n: nat, i: nat)
    requires AtHead(sp, text, seen, pending, front, n, i) && Decisive(sp, sp.clean(pending[0]))
    ensures Explains(sp, text, Verdict(sp, sp.clean(pending[0])))
  {
    forall m: nat, j: nat | Before(m, j, n, i) ensures !DecisiveAt(sp, text, m, j) {
      if j < |Level(sp, text, m)| {
        if m < n {
          BelowHolds(sp, text, n, m, j);
        } else {
          assert Level(sp, text, n)[..i][j] == Level(sp, text, m)[j];
        }
        assert Level(sp, text, m)[j] in seen;
      }
    }
    assert Decides(sp, text, n, i);
  }

  lemma StaysBounded(sp: Space, universe: set<string>, seen: set<string>, pending: seq<string>, text: string)
    requires Shrinks(sp) && universe == Universe(sp, sp.clean(text))
    requires Bounded(sp, universe, seen, pending) && pending != []
    requires sp.clean(pending[0]) != "" && sp.clean(pending[0]) !in seen
    ensures var s := sp.clean(pending[0]);
            && Bounded(sp, universe, seen + {s}, pending[1..] + sp.derived(s))
            && universe - (seen + {s}) < universe - seen
  {
    var s := sp.clean(pending[0]);
    assert pending[0] in pending && s in universe - seen;
    forall d | d in pending[1..] + sp.derived(s) ensures sp.clean(d) == "" || sp.clean(d) in universe {
      if d in sp.derived(s) {
        UniverseIsClosed(sp, sp.clean(text), s, d);
      }
    }
  }

  // ---------- from level to level ----------

  /** With nothing of the level queued any more, its remaining places are passed. */
  lemma {:induction false} PassRest(sp: Space, seen: set<string>, back: seq<string>, below: set<string>,
                                    level: seq<string>, i: nat)
    requires Closed(sp, below, level) && Stands(sp, seen, [], back, below, level, i)
    ensures Stands(sp, seen, [], back, below, level, |level|)
    decreases |level| - i
  {
    if i < |level| {
      NothingThins(level[i..], seen);
      assert level[i..][0] == level[i] && level[i] in level[i..];
      PassSeen(sp, seen, back, below, level, i);
      assert Elements(level[i + 1..]) <= Elements(level[i..]);
      ThinsToNothing(level[i + 1..], seen);
      PassRest(sp, seen, back, below, level, i + 1);
    }
  }

  lemma NextLevel(sp: Space, text: string, seen: set<string>, pending: seq<string>, n: nat, i: nat)
    requires Searching(sp, text, seen, pending, 0, n, i)
    ensures Searching(sp, text, seen, pending, |pending|, n + 1, 0)
  {
    var level, next := Level(sp, text, n), Level(sp, text, n + 1);
    assert pending[..0] == [] && pending[0..] == pending && pending[..|pending|] == pending
           && pending[|pending|..] == [];
    LevelsAreClosed(sp, text, n);
    PassRest(sp, seen, Cleaned(sp, pending), Below(sp, text, n), level, i);
    assert level[..|level|] == level && next[0..] == next && next[..0] == [];
  }

  /** When the front of the queue is used up, the next level begins. */
  lemma Renew(sp: Space, text: string, seen: set<string>, pending: seq<string>, front: nat, n: nat, i: nat)
    returns (nowFront: nat, now: nat, at: nat)
    requires Searching(sp, text, seen, pending, front, n, i) && pending != []
    ensures Searching(sp, text, seen, pending, nowFront, now, at) && nowFront > 0
  {
    nowFront, now, at := front, n, i;
    if front == 0 {
      NextLevel(sp, text, seen, pending, n, i);
      nowFront, now, at := |pending|, n + 1, 0;
    }
  }

  /** With an empty queue, no candidate at any distance is decisive. */
  lemma NothingLeft(sp: Space, text: string, seen: set<string>, front: nat, n: nat, i: nat)
    requires Searching(sp, text, seen, [], front, n, i)
    ensures forall m: nat, j: nat :: !DecisiveAt(sp, text, m, j)
  {
    NextLevel(sp, text, seen, [], n, i);
    var level := Level(sp, text, n + 1);
    assert level[..0] == [] && level[0..] == level;
    NothingThins(level, seen);
    forall m: nat, j: nat ensures !DecisiveAt(sp, text, m, j) {
      LevelIsBelow(sp, text, n + 1, m);
      if j < |Level(sp, text, m)| {
        assert Level(sp, text, m)[j] in Elements(Level(sp, text, m));
      }
    }
  }

  lemma {:induction false} KidsWithin(sp: Space, from: seq<string>, known: set<string>)
    requires forall s :: s in from ==> Elements(Cleaned(sp, sp.derived(s))) <= known
    ensures Elements(Kids(sp, from)) <= known
  {
    if from != [] {
      var n := |from| - 1;
      assert from == from[..n] + [from[n]];
      KidsWithin(sp, from[..n], known);
    }
  }

  /** Once a level brings nothing new, no later level does. */
  lemma {:induction false} LevelIsBelow(sp: Space, text: string, n: nat, m: nat)
    requires Elements(Level(sp, text, n)) <= Below(sp, text, n)
    ensures Elements(Level(sp, text, m)) <= Below(sp, text, n)
    decreases m
  {
    if m < n {
      forall s | s in Level(sp, text, m) ensures s in Below(sp, text, n) {
        var j :| 0 <= j < |Level(sp, text, m)| && Level(sp, text, m)[j] == s;
        BelowHolds(sp, text, n, m, j);
      }
    } else if m > n {
      LevelIsBelow(sp, text, n, m - 1);
      assert Below(sp, text, n + 1) == Below(sp, text, n);
      forall s | s in Level(sp, text, m - 1) ensures Elements(Cleaned(sp, sp.derived(s))) <= Below(sp, text, n) {
        assert s in Elements(Level(sp, text, m - 1));
        KidsBelow(sp, text, n, s);
      }
      KidsWithin(sp, Level(sp, text, m - 1), Below(sp, text, n));
    }
  }

  // ---------- the first two levels ----------

  lemma {:induction false} CleanedHolds(sp: Space, items: seq<string>, item: string)
    requires item in items && sp.clean(item) != ""
    ensures sp.clean(item) in Cleaned(sp, items)
  {
    if items[0] != item {
      CleanedHolds(sp, items[1..], item);
    }
  }

  /** A text that cannot be parsed decides the search at once, whatever could be derived from it. */
  lemma FirstLevels(sp: Space, text: string, item: string)
    requires sp.clean(text) == text != "" && sp.unparsable(text)
    requires item in sp.derived(text) && sp.clean(item) == item != ""
    ensures Level(sp, text, 0) == [text] && Decides(sp, text, 0, 0)
    ensures item in Level(sp, text, 1)
  {
    assert [text][1..] == [] && Cleaned(sp, []) == [];
    assert Level(sp, text, 0) == [text];
    CleanedHolds(sp, sp.derived(text), item);
    KidsContain(sp, [text], text);
    assert item in Elements(Cleaned(sp, sp.derived(text)));
  }
}
