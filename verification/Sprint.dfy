/** `continue_sprint`: which work items are ready, why the others are not, and which one to do next. */
module Sprint {
  import opened Wrappers
  import Sorting
  import Text

  /** Labels that keep an item from ordinary pickup, in the order in which `sorted` lists them. */
  datatype Guard = ContractorOnly | LocalWorkerOnly | NoCodexExec

  datatype Status = Done(word: string) | Blocked | Active(word: string)

  /**
   A normalised item, with the words of its status, type and labels already looked up. `canonical` and `leaf`
   are the marks that loading from Beads adds and that a Markdown workgraph lacks.
   */
  datatype Item = Item(id: string, lane: string, status: Status, isEpic: bool, container: bool,
                       guards: set<Guard>, validation: bool, followup: bool, priority: int,
                       deps: seq<string>, canonical: Option<bool>, leaf: Option<bool>)

  datatype Reason =
    | StatusBlocked
    | GuardLabel(guard: Guard)
    | DependsOn(id: string, status: Status)
    | UnknownDependency(dep: string)
    | NotExecutable
    | HasDescendants
    | NotCanonicallyReady(status: Status)

  const CLOSED_STATUSES: set<string> := {"closed", "done", "completed", "resolved"}
  const VALIDATION_LABELS: set<string> := {"validation", "test", "testing", "acceptance"}
  const FOLLOWUP_LABELS: set<string> := {"follow-up", "followup", "carry-forward", "carried-forward"}
  const CONTAINER_LABELS: set<string> :=
    {"grouping-container", "publication-parent", "publication-only", "release-parent", "release-gate"}
  const CONTAINER_TYPES: set<string> := {"epic", "molecule", "convoy", "merge-request", "gate"}
  const PLAIN_TYPES: set<string> := {"task", "bug", "chore"}

  function ReadStatus(word: string): Status {
    if word in CLOSED_STATUSES then Done(word) else if word == "blocked" then Blocked else Active(word)
  }

  function ReadGuards(labels: set<string>): set<Guard> {
    (if "contractor-only" in labels then {ContractorOnly} else {}) +
    (if "local-worker-only" in labels then {LocalWorkerOnly} else {}) +
    (if "no-codex-exec" in labels then {NoCodexExec} else {})
  }

  /** `kind` is the item type, stripped and lower-cased. */
  function Normalize(id: string, lane: string, status: string, kind: string, labels: set<string>, priority: int,
                     deps: seq<string>, canonical: Option<bool>, leaf: Option<bool>): Item {
    Item(id, lane, ReadStatus(status), kind == "epic",
         kind in CONTAINER_TYPES || (labels * CONTAINER_LABELS != {} && kind !in PLAIN_TYPES),
         ReadGuards(labels), labels * VALIDATION_LABELS != {}, labels * FOLLOWUP_LABELS != {},
         priority, deps, canonical, leaf)
  }

  predicate Closed(x: Item) {
    x.status.Done?
  }

  // ---------- filtering ----------

  function Select<T>(keep: T -> bool, s: seq<T>): seq<T> {
    if s == [] then []
    else
      var n := |s| - 1;
      Select(keep, s[..n]) + if keep(s[n]) then [s[n]] else []
  }

  lemma {:induction false} SelectMembers<T>(keep: T -> bool, s: seq<T>, x: T)
    ensures x in Select(keep, s) <==> x in s && keep(x)
  {
    if s != [] {
      var n := |s| - 1;
      SelectMembers(keep, s[..n], x);
      assert s == s[..n] + [s[n]];
    }
  }

  ghost function Places<T>(keep: T -> bool, s: seq<T>): set<int> {
    set i | 0 <= i < |s| && keep(s[i])
  }

  lemma {:induction false} SelectCount<T>(keep: T -> bool, s: seq<T>)
    ensures |Select(keep, s)| == |Places(keep, s)|
  {
    if s != [] {
      var n := |s| - 1;
      SelectCount(keep, s[..n]);
      assert Places(keep, s) == Places(keep, s[..n]) + if keep(s[n]) then {n} else {};
    }
  }

  lemma SelectSnoc<T>(keep: T -> bool, s: seq<T>, x: T)
    ensures Select(keep, s + [x]) == Select(keep, s) + if keep(x) then [x] else []
  {
    assert (s + [x])[..|s|] == s;
  }

  // ---------- dependency lookup ----------

  predicate Answers(x: Item, key: string) {
    key != "" && (key == x.id || key == Text.Strip(x.lane))
  }

  /** Items answering to `key` by id or by lane, once for each. */
  function Matching(items: seq<Item>, key: string): seq<Item> {
    if items == [] then []
    else
      var n := |items| - 1;
      Matching(items[..n], key)
      + (if key != "" && key == items[n].id then [items[n]] else [])
      + (if key != "" && key == Text.Strip(items[n].lane) then [items[n]] else [])
  }

  lemma {:induction false} MatchingMembers(items: seq<Item>, key: string, x: Item)
    ensures x in Matching(items, key) <==> x in items && Answers(x, key)
  {
    if items != [] {
      var n := |items| - 1;
      MatchingMembers(items[..n], key, x);
      assert items == items[..n] + [items[n]];
    }
  }

  function Get(lookup: map<string, seq<Item>>, key: string): seq<Item> {
    if key in lookup then lookup[key] else []
  }

  /** `lookup.setdefault(key, []).append(x)`, skipping blank keys. */
  function AddEntry(lookup: map<string, seq<Item>>, key: string, x: Item): (r: map<string, seq<Item>>)
    ensures forall k :: Get(r, k) == Get(lookup, k) + if key != "" && k == key then [x] else []
  {
    if key == "" then lookup else lookup[key := Get(lookup, key) + [x]]
  }

  ghost predicate Represents(lookup: map<string, seq<Item>>, items: seq<Item>) {
    forall key: string :: Get(lookup, key) == Matching(items, key)
  }

  lemma LookupStep(lookup: map<string, seq<Item>>, items: seq<Item>, x: Item)
    requires Represents(lookup, items)
    ensures Represents(AddEntry(AddEntry(lookup, x.id, x), Text.Strip(x.lane), x), items + [x])
  {
    var lane := Text.Strip(x.lane);
    var byId := AddEntry(lookup, x.id, x);
    forall key: string ensures Get(AddEntry(byId, lane, x), key) == Matching(items + [x], key) {
      assert (items + [x])[..|items|] == items;
      assert Get(lookup, key) == Matching(items, key);
    }
  }

  method DependencyLookup(items: seq<Item>) returns (lookup: map<string, seq<Item>>)
    ensures Represents(lookup, items)
  {
    lookup := map[];
    for i := 0 to |items|
      invariant Represents(lookup, items[..i])
    {
      LookupStep(lookup, items[..i], items[i]);
      assert items[..i] + [items[i]] == items[..i + 1];
      lookup := AddEntry(AddEntry(lookup, items[i].id, items[i]), Text.Strip(items[i].lane), items[i]);
    }
    assert items[..|items|] == items;
  }

  // ---------- blockers ----------

  function GuardReasons(guards: set<Guard>): seq<Reason> {
    (if ContractorOnly in guards then [GuardLabel(ContractorOnly)] else []) +
    (if LocalWorkerOnly in guards then [GuardLabel(LocalWorkerOnly)] else []) +
    (if NoCodexExec in guards then [GuardLabel(NoCodexExec)] else [])
  }

  function OwnReasons(x: Item): seq<Reason> {
    (if x.status.Blocked? then [StatusBlocked] else []) + GuardReasons(x.guards)
  }

  function OpenBlockers(x: Item, candidates: seq<Item>): seq<Item> {
    Select((b: Item) => b.id != x.id && !Closed(b), candidates)
  }

  function DependencyReasons(x: Item, candidates: seq<Item>, dep: string): seq<Reason> {
    var open := OpenBlockers(x, candidates);
    if open != [] then seq(|open|, i requires 0 <= i < |open| => DependsOn(open[i].id, open[i].status))
    else if candidates == [] then [UnknownDependency(dep)]
    else []
  }

  /** What each dependency of `x` adds to its reasons. */
  function ReasonsOf(x: Item, items: seq<Item>): string -> seq<Reason> {
    (dep: string) => DependencyReasons(x, Matching(items, dep), dep)
  }

  /** `own`, and after it what `of` gives for each of `deps`. */
  function Gathered<T>(own: seq<T>, of: string -> seq<T>, deps: seq<string>): seq<T> {
    if deps == [] then own
    else Gathered(own, of, deps[..|deps| - 1]) + of(deps[|deps| - 1])
  }

  function Reasons(x: Item, items: seq<Item>): seq<Reason> {
    Gathered(OwnReasons(x), ReasonsOf(x, items), x.deps)
  }

  method BlockerReasons(x: Item, lookup: map<string, seq<Item>>, ghost items: seq<Item>) returns (reasons: seq<Reason>)
    requires Represents(lookup, items)
    ensures reasons == Reasons(x, items)
  {
    reasons := if x.status.Blocked? then [StatusBlocked] else [];
    reasons := reasons + GuardReasons(x.guards);
    ghost var own, of := OwnReasons(x), ReasonsOf(x, items);
    for i := 0 to |x.deps|
      invariant reasons == Gathered(own, of, x.deps[..i])
    {
      var more := DependencyBlockers(x, Get(lookup, x.deps[i]), x.deps[i]);
      assert more == of(x.deps[i]);
      assert x.deps[..i + 1][..i] == x.deps[..i];
      reasons := reasons + more;
    }
    assert x.deps[..|x.deps|] == x.deps;
  }

  method DependencyBlockers(x: Item, candidates: seq<Item>, dep: string) returns (reasons: seq<Reason>)
    ensures reasons == DependencyReasons(x, candidates, dep)
  {
    reasons := [];
    var open := OpenBlockers(x, candidates);
    if open != [] {
      for j := 0 to |open|
        invariant |reasons| == j
        invariant forall i :: 0 <= i < j ==> reasons[i] == DependsOn(open[i].id, open[i].status)
      {
        reasons := reasons + [DependsOn(open[j].id, open[j].status)];
      }
    } else if candidates == [] {
      reasons := reasons + [UnknownDependency(dep)];
    }
  }

  // ---------- the brief ----------

  predicate OpenWork(x: Item, epic: string) {
    !Closed(x) && x.id != epic && !x.isEpic
  }

  predicate CanonicalMode(items: seq<Item>) {
    exists x :: x in items && x.canonical.Some?
  }

  /** Reasons as the brief lists them: in Beads mode, canonical readiness has the last word. */
  function BriefReasons(x: Item, items: seq<Item>, canonicalMode: bool): seq<Reason> {
    var reasons := Reasons(x, items);
    if !canonicalMode then reasons
    else if x.canonical == Some(true) && x.leaf != Some(false) then
      reasons + if x.container then [NotExecutable] else []
    else if x.canonical == Some(true) then reasons + [HasDescendants]
    else if reasons == [] then [NotCanonicallyReady(x.status)]
    else reasons
  }

  function Why(items: seq<Item>, mode: bool): Item -> seq<Reason> {
    (x: Item) => BriefReasons(x, items, mode)
  }

  /** Open work for which `why` gives no reason, and open work for which it does. */
  function ReadyIf(epic: string, why: Item -> seq<Reason>): Item -> bool {
    (x: Item) => OpenWork(x, epic) && why(x) == []
  }

  function BlockedIf(epic: string, why: Item -> seq<Reason>): Item -> bool {
    (x: Item) => OpenWork(x, epic) && why(x) != []
  }

  function ReadyItems(items: seq<Item>, epic: string): seq<Item> {
    Select(ReadyIf(epic, Why(items, CanonicalMode(items))), items)
  }

  function BlockedItems(items: seq<Item>, epic: string): seq<Item> {
    Select(BlockedIf(epic, Why(items, CanonicalMode(items))), items)
  }

  // ---------- ranking ----------

  predicate Unblocks(x: Item, c: Item) {
    c.id != x.id && !Closed(c) && (x.id in c.deps || x.lane in c.deps)
  }

  function UnblocksCount(x: Item, items: seq<Item>): nat {
    |Select((c: Item) => Unblocks(x, c), items)|
  }

  function LabelRank(x: Item): int {
    if x.validation then 0 else if x.followup then 2 else 1
  }

  /** Sort key (priority, -unblocks, label rank, id). */
  function RankLe(items: seq<Item>): (Item, Item) -> bool {
    (a: Item, b: Item) =>
      var ua, ub := UnblocksCount(a, items), UnblocksCount(b, items);
      var la, lb := LabelRank(a), LabelRank(b);
      if a.priority != b.priority then a.priority < b.priority
      else if ua != ub then ua > ub
      else if la != lb then la < lb
      else Text.LexLe(a.id, b.id)
  }

  /** Places of the open other items that wait for `x`, by its id or its lane. */
  ghost function Waiting(x: Item, items: seq<Item>): set<int> {
    set i | 0 <= i < |items| && items[i].id != x.id && !items[i].status.Done?
            && (x.id in items[i].deps || x.lane in items[i].deps)
  }

  lemma UnblocksCountIs(x: Item, items: seq<Item>)
    ensures UnblocksCount(x, items) == |Waiting(x, items)|
  {
    var keep := (c: Item) => Unblocks(x, c);
    SelectCount(keep, items);
    assert Places(keep, items) == Waiting(x, items);
  }

  /** Validation work comes before plain work, and plain work before follow-ups; validation wins over follow-up. */
  predicate KindFirst(x: Item, y: Item) {
    && (y.validation ==> x.validation)
    && (!y.validation && !y.followup ==> x.validation || !x.followup)
  }

  /** Urgency first, then what more items wait for, then the kind of work, then the id. */
  ghost predicate BestFirst(ready: seq<Item>, items: seq<Item>) {
    forall i, j :: 0 <= i < j < |ready| ==>
      var x, y := ready[i], ready[j];
      && x.priority <= y.priority
      && (x.priority == y.priority ==> |Waiting(x, items)| >= |Waiting(y, items)|)
      && (x.priority == y.priority && |Waiting(x, items)| == |Waiting(y, items)| ==> KindFirst(x, y))
      && (x.priority == y.priority && |Waiting(x, items)| == |Waiting(y, items)| && KindFirst(y, x) ==>
            Text.LexLe(x.id, y.id))
  }

  lemma RankIsTotal(items: seq<Item>)
    ensures Sorting.TotalPreorder(RankLe(items))
  {
    Text.LexIsLinear();
  }

  lemma RankedIsBestFirst(ready: seq<Item>, items: seq<Item>)
    ensures BestFirst(Ranked(ready, items), items)
  {
    RankIsTotal(items);
    Sorting.SortAscending(RankLe(items), ready);
    var r := Ranked(ready, items);
    forall i, j | 0 <= i < j < |r| ensures RankLe(items)(r[i], r[j]) {
    }
    forall x | x in r ensures UnblocksCount(x, items) == |Waiting(x, items)| {
      UnblocksCountIs(x, items);
    }
  }

  function Ranked(ready: seq<Item>, items: seq<Item>): (r: seq<Item>)
    ensures multiset(r) == multiset(ready) && |r| == |ready|
  {
    Sorting.Sort(RankLe(items), ready)
  }

  function Recommended(items: seq<Item>, epic: string): Option<Item> {
    var ranked := Ranked(ReadyItems(items, epic), items);
    if ranked == [] then None else Some(ranked[0])
  }

  method ItemReasons(x: Item, lookup: map<string, seq<Item>>, ghost items: seq<Item>, mode: bool)
    returns (reasons: seq<Reason>)
    requires Represents(lookup, items)
    ensures reasons == BriefReasons(x, items, mode)
  {
    reasons := BlockerReasons(x, lookup, items);
    if mode {
      if x.canonical == Some(true) && x.leaf != Some(false) {
        if x.container {
          reasons := reasons + [NotExecutable];
        }
      } else if x.canonical == Some(true) {
        reasons := reasons + [HasDescendants];
      } else if reasons == [] {
        reasons := [NotCanonicallyReady(x.status)];
      }
    }
  }

  method ContinuationBrief(items: seq<Item>, epic: string)
    returns (ready: seq<Item>, blocked: seq<(Item, seq<Reason>)>, recommended: Option<Item>)
    ensures ready == Ranked(ReadyItems(items, epic), items) && BestFirst(ready, items)
    ensures |blocked| == |BlockedItems(items, epic)|
    ensures forall i :: 0 <= i < |blocked| ==>
              && blocked[i].0 == BlockedItems(items, epic)[i]
              && blocked[i].1 == BriefReasons(blocked[i].0, items, CanonicalMode(items)) != []
    ensures recommended == Recommended(items, epic) == if ready == [] then None else Some(ready[0])
  {
    var found;
    found, blocked := BriefAll(items, epic);
    ready := Ranked(found, items);
    RankedIsBestFirst(found, items);
    recommended := if ready == [] then None else Some(ready[0]);
  }

  method BriefAll(items: seq<Item>, epic: string) returns (found: seq<Item>, blocked: seq<(Item, seq<Reason>)>)
    ensures Briefed(epic, Why(items, CanonicalMode(items)), items, found, blocked)
  {
    var lookup := DependencyLookup(items);
    var mode := CanonicalMode(items);
    found, blocked := [], [];
    ghost var why := Why(items, mode);
    for i := 0 to |items|
      invariant Briefed(epic, why, items[..i], found, blocked)
    {
      assert items[..i + 1] == items[..i] + [items[i]];
      found, blocked := BriefOne(items[i], lookup, items, epic, mode, items[..i], found, blocked);
    }
    assert items[..|items|] == items;
  }

  /** What the brief of the first items found ready and blocked. */
  ghost predicate Briefed(epic: string, why: Item -> seq<Reason>, front: seq<Item>, found: seq<Item>,
                          blocked: seq<(Item, seq<Reason>)>) {
    && found == Select(ReadyIf(epic, why), front)
    && |blocked| == |Select(BlockedIf(epic, why), front)|
    && forall j :: 0 <= j < |blocked| ==>
         blocked[j].0 == Select(BlockedIf(epic, why), front)[j] && blocked[j].1 == why(blocked[j].0) != []
  }

  lemma BriefedFurther(epic: string, why: Item -> seq<Reason>, front: seq<Item>, found: seq<Item>,
                       blocked: seq<(Item, seq<Reason>)>, x: Item)
    requires Briefed(epic, why, front, found, blocked)
    ensures Briefed(epic, why, front + [x], found + (if ReadyIf(epic, why)(x) then [x] else []),
                    blocked + if BlockedIf(epic, why)(x) then [(x, why(x))] else [])
  {
    SelectSnoc(ReadyIf(epic, why), front, x);
    SelectSnoc(BlockedIf(epic, why), front, x);
  }

  method BriefOne(x: Item, lookup: map<string, seq<Item>>, ghost items: seq<Item>, epic: string, mode: bool,
                  ghost front: seq<Item>, found: seq<Item>, blocked: seq<(Item, seq<Reason>)>)
    returns (found': seq<Item>, blocked': seq<(Item, seq<Reason>)>)
    requires Represents(lookup, items) && Briefed(epic, Why(items, mode), front, found, blocked)
    ensures Briefed(epic, Why(items, mode), front + [x], found', blocked')
  {
    BriefedFurther(epic, Why(items, mode), front, found, blocked, x);
    found', blocked' := found, blocked;
    assert found + [] == found && blocked + [] == blocked;
    if OpenWork(x, epic) {
      var reasons := ItemReasons(x, lookup, items, mode);
      if reasons == [] {
        found' := found + [x];
      } else {
        blocked' := blocked + [(x, reasons)];
      }
    }
  }
}
