/** `load_beads_items`: finding every issue below an epic and marking the executable leaves. */
module SprintDiscovery {
  import opened Wrappers
  import Sorting
  import Text

  /** An issue as `bd show` prints it; a blank parent stands for none. */
  datatype Record = Record(id: string, parent: string)

  datatype Enriched = Enriched(record: Record, canonicalReady: bool, readyRank: Option<nat>, leaf: bool)

  /** What `bd list --parent p` answers, for every `p` that has children. */
  type Listing = map<string, seq<string>>

  function ChildrenOf(g: Listing, parent: string): seq<string> {
    if parent in g then g[parent] else []
  }

  ghost predicate Edge(g: Listing, parent: string, child: string) {
    child != "" && child in ChildrenOf(g, parent)
  }

  ghost predicate Path(g: Listing, p: seq<string>) {
    forall i :: 0 <= i < |p| - 1 ==> Edge(g, p[i], p[i + 1])
  }

  ghost predicate Reaches(g: Listing, a: string, b: string) {
    exists p :: |p| > 0 && p[0] == a && p[|p| - 1] == b && Path(g, p)
  }

  lemma ReachesItself(g: Listing, a: string)
    ensures Reaches(g, a, a)
  {
    var p := [a];
    assert |p| > 0 && p[0] == a && p[|p| - 1] == a && Path(g, p);
  }

  lemma ReachesFurther(g: Listing, a: string, b: string, c: string)
    requires Reaches(g, a, b) && Edge(g, b, c)
    ensures Reaches(g, a, c)
  {
    var p :| |p| > 0 && p[0] == a && p[|p| - 1] == b && Path(g, p);
    var q := p + [c];
    assert |q| > 0 && q[0] == a && q[|q| - 1] == c && Path(g, q);
  }

  /** A set holding `a` and closed under edges holds everything `a` reaches. */
  lemma {:induction false} ClosedSetHoldsReachable(g: Listing, s: set<string>, p: seq<string>)
    requires |p| > 0 && p[0] in s && Path(g, p)
    requires forall x, c :: x in s && Edge(g, x, c) ==> c in s
    ensures p[|p| - 1] in s
    decreases |p|
  {
    if |p| > 1 {
      assert Edge(g, p[0], p[1]);
      ClosedSetHoldsReachable(g, s, p[1..]);
    }
  }

  ghost function Universe(g: Listing, epic: string): set<string> {
    {epic} + set p, c | p in g && c in g[p] :: c
  }

  ghost predicate Distinct(s: seq<string>) {
    forall i, j :: 0 <= i < j < |s| ==> s[i] != s[j]
  }

  function FirstIndex(s: seq<string>, x: string): (i: nat)
    requires x in s
    ensures i < |s| && s[i] == x && x !in s[..i]
  {
    if s[0] == x then 0 else 1 + FirstIndex(s[1..], x)
  }

  lemma FirstIndexIs(s: seq<string>, x: string, i: nat)
    requires i < |s| && s[i] == x && x !in s[..i]
    ensures FirstIndex(s, x) == i
  {
    var j := FirstIndex(s, x);
    assert forall k :: 0 <= k < i ==> s[k] in s[..i];
    assert forall k :: 0 <= k < j ==> s[k] in s[..j];
  }

  lemma FirstIndexStays(s: seq<string>, y: string, x: string)
    requires x in s
    ensures FirstIndex(s + [y], x) == FirstIndex(s, x)
  {
    var i := FirstIndex(s, x);
    assert (s + [y])[..i] == s[..i];
    FirstIndexIs(s + [y], x, i);
  }

  /** Elements of `source`, each once, in the order of their first occurrence there. */
  ghost predicate InOrderOf(source: seq<string>, s: seq<string>) {
    && (forall x :: x in s ==> x in source)
    && forall i, j :: 0 <= i < j < |s| && s[i] in source && s[j] in source ==>
       FirstIndex(source, s[i]) < FirstIndex(source, s[j])
  }

  /** The order of first occurrence leaves no choice. */
  lemma {:induction false} OrderIsDecided(source: seq<string>, a: seq<string>, b: seq<string>)
    requires InOrderOf(source, a) && InOrderOf(source, b) && Elements(a) == Elements(b)
    ensures a == b
  {
    if a != [] || b != [] {
      assert a != [] ==> a[0] in Elements(b);
      assert b != [] ==> b[0] in Elements(a);
      var n, m := |a| - 1, |b| - 1;
      SameLast(source, a, b);
      WithoutLast(source, a);
      WithoutLast(source, b);
      OrderIsDecided(source, a[..n], b[..m]);
    }
  }

  lemma SameLast(source: seq<string>, a: seq<string>, b: seq<string>)
    requires a != [] && b != [] && InOrderOf(source, a) && InOrderOf(source, b) && Elements(a) == Elements(b)
    ensures a[|a| - 1] == b[|b| - 1]
  {
    var x, y := a[|a| - 1], b[|b| - 1];
    assert x in Elements(b) && y in Elements(a);
    var i: nat :| i < |a| && a[i] == y;
    var j: nat :| j < |b| && b[j] == x;
    assert FirstIndex(source, x) == FirstIndex(source, y);
  }

  lemma WithoutLast(source: seq<string>, a: seq<string>)
    requires a != [] && InOrderOf(source, a)
    ensures InOrderOf(source, a[..|a| - 1]) && Elements(a[..|a| - 1]) == Elements(a) - {a[|a| - 1]}
  {
    assert a == a[..|a| - 1] + [a[|a| - 1]];
  }

  lemma Appended(source: seq<string>, s: seq<string>, y: string)
    requires InOrderOf(source, s)
    ensures InOrderOf(source + [y], s)
    ensures y !in source ==> InOrderOf(source + [y], s + [y])
  {
    forall x | x in source ensures FirstIndex(source + [y], x) == FirstIndex(source, x) {
      FirstIndexStays(source, y, x);
    }
    if y !in source {
      assert (source + [y])[..|source|] == source;
      FirstIndexIs(source + [y], y, |source|);
    }
  }

  /** One answer of `bd list`: remember its children and queue those neither queried nor queued, in order. */
  method Visit(children: seq<string>, discovered: set<string>, pending: seq<string>, queried: set<string>)
    returns (discovered': set<string>, pending': seq<string>)
    ensures forall x :: x in discovered' <==> x in discovered || (x != "" && x in children)
    ensures pending <= pending' && InOrderOf(children, pending'[|pending|..])
    ensures forall x :: x in pending'[|pending|..] <==> x != "" && x in children && x !in queried && x !in pending
  {
    discovered', pending' := discovered, pending;
    ghost var added := [];
    for i := 0 to |children|
      invariant forall x :: x in discovered' <==> x in discovered || (x != "" && x in children[..i])
      invariant pending' == pending + added && InOrderOf(children[..i], added)
      invariant forall x :: x in added <==> x != "" && x in children[..i] && x !in queried && x !in pending
    {
      var child := children[i];
      assert children[..i + 1] == children[..i] + [child];
      Appended(children[..i], added, child);
      if child != "" {
        discovered' := discovered' + {child};
        if child !in queried && child !in pending' {
          pending' := pending' + [child];
          added := added + [child];
        }
      }
    }
    assert children[..|children|] == children && pending'[|pending|..] == added;
  }

  /** What holds between two queries, with `known` the parents queried or still queued. */
  ghost predicate Exploring(g: Listing, epic: string, ready: set<string>, discovered: set<string>,
                            queried: set<string>, known: set<string>) {
    && epic in known && queried <= known <= Universe(g, epic) && known <= discovered
    && (forall x :: x in known ==> Reaches(g, epic, x))
    && (forall x, c :: x in queried && Edge(g, x, c) ==> c in known)
    && {epic} + ready <= discovered
    && (forall x :: x in discovered ==> x == epic || x in ready || Reaches(g, epic, x))
  }

  lemma QueryKeepsExploring(g: Listing, epic: string, ready: set<string>, discovered: set<string>, queried: set<string>,
                            known: set<string>, parent: string, discovered': set<string>, known': set<string>)
    requires Exploring(g, epic, ready, discovered, queried, known) && parent in known
    requires forall x :: x in discovered' <==> x in discovered || Edge(g, parent, x)
    requires forall x :: x in known' <==> x in known || Edge(g, parent, x)
    ensures Exploring(g, epic, ready, discovered', queried + {parent}, known')
  {
    forall c | Edge(g, parent, c) ensures Reaches(g, epic, c) && c in Universe(g, epic) {
      ReachesFurther(g, epic, parent, c);
    }
  }

  lemma StartExploring(g: Listing, epic: string, ready: set<string>)
    ensures Exploring(g, epic, ready, {epic} + ready, {}, {} + Elements([epic]))
  {
    ReachesItself(g, epic);
    assert Elements([epic]) == {epic};
  }

  lemma ExploredEverything(g: Listing, epic: string, ready: set<string>, discovered: set<string>, queries: seq<string>)
    requires Exploring(g, epic, ready, discovered, Elements(queries), Elements(queries) + Elements([]))
    ensures forall x :: x in queries <==> Reaches(g, epic, x)
    ensures forall x :: x in discovered <==> x == epic || x in ready || Reaches(g, epic, x)
  {
    var queried := Elements(queries);
    forall x | Reaches(g, epic, x) ensures x in queried {
      var p :| |p| > 0 && p[0] == epic && p[|p| - 1] == x && Path(g, p);
      ClosedSetHoldsReachable(g, queried, p);
    }
  }

  ghost function Elements(s: seq<string>): set<string> {
    set x | x in s
  }

  lemma PopPending(pending: seq<string>, queried: set<string>)
    requires pending != []
    ensures queried + Elements(pending) == queried + {pending[0]} + Elements(pending[1..])
    ensures pending[0] in queried ==> queried + {pending[0]} == queried
  {
  }

  /** Each new query lengthens the duplicate-free log. */
  lemma Unasked(log: seq<string>, parent: string)
    requires Distinct(log) && parent !in Elements(log)
    ensures Distinct(log + [parent]) && Elements(log + [parent]) == Elements(log) + {parent}
  {
    forall i | 0 <= i < |log| ensures log[i] != parent {
      assert log[i] in Elements(log);
    }
  }

  /** And it leaves fewer parents to ask about. */
  lemma FewerLeft(all: set<string>, asked: set<string>, parent: string)
    requires parent in all && parent !in asked
    ensures |all - (asked + {parent})| < |all - asked|
  {
    assert all - asked == (all - (asked + {parent})) + {parent};
  }

  method Ask(parent: string, ghost epic: string, ghost ready: set<string>, g: Listing, discovered: set<string>,
             pending: seq<string>, queried: set<string>)
    returns (discovered': set<string>, pending': seq<string>)
    requires parent !in queried
    requires Exploring(g, epic, ready, discovered, queried, queried + {parent} + Elements(pending))
    ensures Exploring(g, epic, ready, discovered', queried + {parent}, queried + {parent} + Elements(pending'))
    ensures parent in Universe(g, epic)
  {
    discovered', pending' := Visit(ChildrenOf(g, parent), discovered, pending, queried + {parent});
    ghost var known, known' := queried + {parent} + Elements(pending), queried + {parent} + Elements(pending');
    QueryKeepsExploring(g, epic, ready, discovered, queried, known, parent, discovered', known');
  }

  /**
   Discovery asks about each parent reachable from the epic exactly once, cycles or not, and finds exactly the
   epic, the ready issues and what the epic reaches.
   */
  method Discover(epic: string, ready: set<string>, g: Listing)
    returns (discovered: set<string>, queries: seq<string>)
    ensures Distinct(queries)
    ensures forall x :: x in queries <==> Reaches(g, epic, x)
    ensures forall x :: x in discovered <==> x == epic || x in ready || Reaches(g, epic, x)
  {
    discovered, queries := {epic} + ready, [];
    var pending, queried := [epic], {};
    StartExploring(g, epic, ready);
    while pending != []
      invariant Distinct(queries) && Elements(queries) == queried
      invariant Exploring(g, epic, ready, discovered, queried, queried + Elements(pending))
      decreases |Universe(g, epic) - queried|, |pending|
    {
      var parent, rest := pending[0], pending[1..];
      PopPending(pending, queried);
      if parent in queried {
        pending := rest;
      } else {
        Unasked(queries, parent);
        discovered, pending := Ask(parent, epic, ready, g, discovered, rest, queried);
        FewerLeft(Universe(g, epic), queried, parent);
        queried, queries := queried + {parent}, queries + [parent];
      }
    }
    ExploredEverything(g, epic, ready, discovered, queries);
  }

  // ---------- enrichment ----------

  const CHUNK: nat := 50

  /** All records that the chunked `bd show` calls return for `ids`. */
  function ShownFor(ids: seq<string>, show: seq<string> -> seq<Record>): seq<Record> {
    if ids == [] then []
    else if |ids| <= CHUNK then show(ids)
    else show(ids[..CHUNK]) + ShownFor(ids[CHUNK..], show)
  }

  function Flat<T>(parts: seq<seq<T>>): seq<T> {
    if parts == [] then [] else parts[0] + Flat(parts[1..])
  }

  /** The calls ask about every id, once and in order, for no more than fifty at a time; their answers are all kept. */
  lemma {:induction false} EveryIdIsAskedFor(ids: seq<string>, show: seq<string> -> seq<Record>)
    returns (calls: seq<seq<string>>, answers: seq<seq<Record>>)
    ensures Flat(calls) == ids && |answers| == |calls|
    ensures forall i :: 0 <= i < |calls| ==> 0 < |calls[i]| <= 50 && answers[i] == show(calls[i])
    ensures ShownFor(ids, show) == Flat(answers)
    decreases |ids|
  {
    if ids == [] {
      calls, answers := [], [];
    } else if |ids| <= CHUNK {
      calls, answers := [ids], [show(ids)];
      assert calls[1..] == [] && answers[1..] == [];
    } else {
      var laterCalls, laterAnswers := EveryIdIsAskedFor(ids[CHUNK..], show);
      calls, answers := [ids[..CHUNK]] + laterCalls, [show(ids[..CHUNK])] + laterAnswers;
      assert calls[1..] == laterCalls && answers[1..] == laterAnswers;
      assert ids == ids[..CHUNK] + ids[CHUNK..];
    }
  }

  method ShowAll(ids: seq<string>, show: seq<string> -> seq<Record>) returns (shown: seq<Record>)
    ensures shown == ShownFor(ids, show)
  {
    shown := [];
    var start := 0;
    while start < |ids|
      invariant 0 <= start
      invariant shown + (if start < |ids| then ShownFor(ids[start..], show) else []) == ShownFor(ids, show)
    {
      var end := if start + CHUNK <= |ids| then start + CHUNK else |ids|;
      assert ids[start..][..end - start] == ids[start..end];
      assert end == |ids| ==> ids[start..end] == ids[start..];
      assert start + CHUNK <= |ids| ==> ids[start..][CHUNK..] == ids[start + CHUNK..];
      ghost var later := if end < |ids| then ShownFor(ids[end..], show) else [];
      assert ShownFor(ids[start..], show) == show(ids[start..end]) + later;
      assert shown + (show(ids[start..end]) + later) == shown + show(ids[start..end]) + later;
      shown := shown + show(ids[start..end]);
      start := start + CHUNK;
    }
  }

  /** The record that `{issue_id(item): item}` keeps for an id: the last one shown. */
  function LastShown(shown: seq<Record>, id: string): Option<Record> {
    if shown == [] then None
    else if shown[|shown| - 1].id == id then Some(shown[|shown| - 1])
    else LastShown(shown[..|shown| - 1], id)
  }

  /** Non-blank ids, each at its first occurrence. */
  function FirstOccurrences(ready: seq<string>): seq<string> {
    if ready == [] then []
    else
      var n := |ready| - 1;
      var before := FirstOccurrences(ready[..n]);
      before + if ready[n] != "" && ready[n] !in before then [ready[n]] else []
  }

  method ReadyOrder(ready: seq<string>) returns (order: seq<string>)
    ensures order == FirstOccurrences(ready) && InOrderOf(ready, order)
    ensures forall x :: x in order <==> x != "" && x in ready
  {
    order := [];
    for i := 0 to |ready|
      invariant order == FirstOccurrences(ready[..i]) && InOrderOf(ready[..i], order)
      invariant forall x :: x in order <==> x != "" && x in ready[..i]
    {
      assert ready[..i + 1] == ready[..i] + [ready[i]];
      Appended(ready[..i], order, ready[i]);
      if ready[i] != "" && ready[i] !in order {
        order := order + [ready[i]];
      }
    }
    assert ready[..|ready|] == ready;
  }

  method SortedIds(ids: set<string>) returns (sorted: seq<string>)
    ensures Sorting.Ascending(Text.LexLe, sorted) && Distinct(sorted)
    ensures forall x :: x in sorted <==> x in ids
  {
    var rest, listed: seq<string> := ids, [];
    while rest != {}
      invariant rest <= ids && multiset(listed) == multiset(ids - rest)
      decreases rest
    {
      var x :| x in rest;
      assert ids - (rest - {x}) == (ids - rest) + {x};
      rest, listed := rest - {x}, listed + [x];
    }
    assert ids - rest == ids;
    sorted := Sorting.Sort(Text.LexLe, listed);
    Text.LexIsLinear();
    Sorting.SortAscending(Text.LexLe, listed);
    forall x: string ensures x in sorted <==> x in ids {
      assert x in sorted <==> x in multiset(sorted);
    }
    ListingIsDistinct(sorted, ids);
  }

  lemma ListingIsDistinct(s: seq<string>, ids: set<string>)
    requires multiset(s) == multiset(ids)
    ensures Distinct(s)
  {
    forall i, j | 0 <= i < j < |s| ensures s[i] != s[j] {
      assert s == s[..i] + [s[i]] + s[i + 1..j] + [s[j]] + s[j + 1..];
      assert multiset(s)[s[i]] <= 1;
    }
  }

  /** Every issue discovered, in id order, or the discovered ids that `bd show` left out. */
  method LoadBeadsItems(epic: string, ready: seq<string>, g: Listing, show: seq<string> -> seq<Record>)
    returns (r: Result<seq<Enriched>, set<string>>, ids: seq<string>)
    ensures Sorting.Ascending(Text.LexLe, ids) && Distinct(ids)
    ensures forall x :: x in ids <==> x == epic || (x != "" && x in ready) || Reaches(g, epic, x)
    ensures r.Failure? ==> forall x :: x in r.error <==> x in ids && Unshown(x, ShownFor(ids, show))
    ensures r.Failure? <==> exists x :: x in ids && Unshown(x, ShownFor(ids, show))
    ensures r.Success? ==>
              && |r.value| == |ids|
              && forall i :: 0 <= i < |ids| ==> Marked(r.value[i], ids[i], ready, ShownFor(ids, show))
  {
    var order := ReadyOrder(ready);
    var readyIds := set x | x in order;
    var discovered, _ := Discover(epic, readyIds, g);
    var exactIds := SortedIds(discovered);
    ids := exactIds;
    var shown := ShowAll(exactIds, show);
    var missing := set x | x in discovered && (x == "" || LastShown(shown, x) == None);
    forall id: string {
      LastShownIff(shown, id);
    }
    if missing != {} {
      return Failure(missing), ids;
    }
    var parentIds := set rec | rec in shown && rec.parent != "" :: rec.parent;
    var result: seq<Enriched> := [];
    for i := 0 to |exactIds|
      invariant |result| == i
      invariant forall j :: 0 <= j < i ==> Marked(result[j], exactIds[j], ready, shown)
    {
      assert exactIds[i] !in missing;
      result := result + [Mark(exactIds[i], ready, order, shown, parentIds)];
    }
    return Success(result), ids;
  }

  function Mark(id: string, ghost ready: seq<string>, order: seq<string>, shown: seq<Record>,
                parentIds: set<string>): (e: Enriched)
    requires id != "" && LastShown(shown, id).Some? && order == FirstOccurrences(ready)
    requires forall x :: x in order <==> x != "" && x in ready
    requires parentIds == set rec | rec in shown && rec.parent != "" :: rec.parent
    ensures Marked(e, id, ready, shown)
  {
    LastShownIff(shown, id);
    var rank := if id in order then Some(FirstIndex(order, id)) else None;
    Enriched(LastShown(shown, id).value, id in order, rank, id !in parentIds)
  }

  /** No record with this id was shown; records without an id are not kept. */
  ghost predicate Unshown(id: string, shown: seq<Record>) {
    id == "" || forall rec :: rec in shown ==> rec.id != id
  }

  /** No later record has the same id. */
  ghost predicate IsLastShown(rec: Record, shown: seq<Record>) {
    exists k :: 0 <= k < |shown| && shown[k] == rec && forall j :: k < j < |shown| ==> shown[j].id != rec.id
  }

  /**
   The marks of a loaded issue: its last record; ready exactly if listed as ready, with its place among the ready ids as
   its rank; leaf exactly if no shown record names it as parent.
   */
  ghost predicate Marked(e: Enriched, id: string, ready: seq<string>, shown: seq<Record>) {
    && e.record.id == id != "" && IsLastShown(e.record, shown)
    && (e.canonicalReady <==> id in ready)
    && e.readyRank == (if id in FirstOccurrences(ready) then Some(FirstIndex(FirstOccurrences(ready), id)) else None)
    && (e.leaf <==> forall rec :: rec in shown ==> rec.parent != id)
  }

  lemma {:induction false} LastShownIff(shown: seq<Record>, id: string)
    ensures match LastShown(shown, id)
            case None => forall rec :: rec in shown ==> rec.id != id
            case Some(rec) => rec.id == id && IsLastShown(rec, shown)
  {
    if shown != [] {
      var n := |shown| - 1;
      LastShownIff(shown[..n], id);
      assert shown == shown[..n] + [shown[n]];
      if shown[n].id != id && LastShown(shown, id).Some? {
        var k :| 0 <= k < n && shown[..n][k] == LastShown(shown, id).value &&
                 forall j :: k < j < n ==> shown[..n][j].id != id;
        assert shown[k] == LastShown(shown, id).value && forall j :: k < j < |shown| ==> shown[j].id != id;
      }
    }
  }
}
