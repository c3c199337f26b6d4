/**
 Whole sprints: recommending an issue, closing it and asking again. The order is topological, and what is left
 over when no recommendation remains is exactly the largest set of items that keep each other waiting.
 */
module SprintDrain {
  import opened Wrappers
  import opened Sprint
  import Sorting
  import Text

  /** The workgraph after the items with ids in `done` were closed. */
  function After(items: seq<Item>, done: set<string>): (r: seq<Item>)
    ensures |r| == |items|
    ensures forall i :: 0 <= i < |items| ==> r[i] == Settled(items[i], done)
  {
    seq(|items|, i requires 0 <= i < |items| => Settled(items[i], done))
  }

  function Settled(x: Item, done: set<string>): Item {
    if x.id in done then x.(status := Done("closed")) else x
  }

  ghost function OpenIds(items: seq<Item>, epic: string): set<string> {
    set x | x in items && OpenWork(x, epic) :: x.id
  }

  ghost predicate DistinctIds(items: seq<Item>) {
    forall i, j :: 0 <= i < j < |items| ==> items[i].id != items[j].id
  }

  ghost predicate StaticallyBlocked(x: Item, items: seq<Item>) {
    || x.status.Blocked?
    || x.guards != {}
    || exists d :: d in x.deps && !Resolves(d, items)
  }

  ghost predicate Resolves(d: string, items: seq<Item>) {
    exists y :: y in items && Answers(y, d)
  }

  /** `b` is an open item other than `x` that one of the dependency keys of `x` names. */
  ghost predicate Blocks(b: Item, x: Item, items: seq<Item>) {
    b in items && b.id != x.id && !Closed(b) && exists d :: d in x.deps && Answers(b, d)
  }

  // ---------- readiness ----------

  /** Dependency `d` of `x` resolves, and to nothing that is open, bar `x` itself. */
  ghost predicate Lifted(x: Item, items: seq<Item>, d: string) {
    Resolves(d, items) && forall b :: b in items && Answers(b, d) ==> b.id == x.id || Closed(b)
  }

  lemma DependencyReasonsEmpty(x: Item, items: seq<Item>, d: string)
    ensures DependencyReasons(x, Matching(items, d), d) == [] <==> Lifted(x, items, d)
  {
    var candidates := Matching(items, d);
    var waiting := (b: Item) => b.id != x.id && !Closed(b);
    var open := OpenBlockers(x, candidates);
    forall y: Item
      ensures y in candidates <==> y in items && Answers(y, d)
      ensures y in open <==> y in candidates && waiting(y)
    {
      MatchingMembers(items, d, y);
      SelectMembers(waiting, candidates, y);
    }
    assert candidates != [] <==> Resolves(d, items) by {
      if candidates != [] {
        assert candidates[0] in candidates;
      }
    }
    assert open != [] <==> exists b :: b in items && Answers(b, d) && b.id != x.id && !Closed(b) by {
      if open != [] {
        assert open[0] in open;
      }
    }
  }

  lemma OwnReasonsEmpty(x: Item)
    ensures OwnReasons(x) == [] <==> !x.status.Blocked? && x.guards == {}
  {
    if g :| g in x.guards {
      match g
      case ContractorOnly =>
      case LocalWorkerOnly =>
      case NoCodexExec =>
    }
    BothEmpty(if x.status.Blocked? then [StatusBlocked] else [], GuardReasons(x.guards));
  }

  lemma BothEmpty<T>(a: seq<T>, b: seq<T>)
    ensures a + b == [] <==> a == [] && b == []
  {
  }

  lemma {:induction false} NothingGathered<T>(own: seq<T>, of: string -> seq<T>, deps: seq<string>)
    ensures Gathered(own, of, deps) == [] <==> own == [] && forall d :: d in deps ==> of(d) == []
  {
    if deps != [] {
      var n := |deps| - 1;
      NothingGathered(own, of, deps[..n]);
      assert deps == deps[..n] + [deps[n]];
    }
  }

  lemma LiftedIff(x: Item, items: seq<Item>)
    ensures (forall d :: d in x.deps ==> Lifted(x, items, d)) <==>
            (forall d :: d in x.deps ==> Resolves(d, items)) && forall b :: !Blocks(b, x, items)
  {
    if b :| Blocks(b, x, items) {
      var d :| d in x.deps && Answers(b, d);
      assert !Lifted(x, items, d);
    }
    if d :| d in x.deps && Resolves(d, items) && !Lifted(x, items, d) {
      var b :| b in items && Answers(b, d) && b.id != x.id && !Closed(b);
      assert Blocks(b, x, items);
    }
  }

  /** An item has no blocker reason exactly when nothing obstructs it and no open item blocks it. */
  lemma NoReasonsIff(x: Item, items: seq<Item>)
    ensures Reasons(x, items) == [] <==> !StaticallyBlocked(x, items) && forall b :: !Blocks(b, x, items)
  {
    NothingGathered(OwnReasons(x), ReasonsOf(x, items), x.deps);
    OwnReasonsEmpty(x);
    forall d | d in x.deps ensures ReasonsOf(x, items)(d) == [] <==> Lifted(x, items, d) {
      DependencyReasonsEmpty(x, items, d);
    }
    LiftedIff(x, items);
  }

  // ---------- what the brief says ----------

  /** Work that can start now: not done, no epic, with nothing in its way, and in Beads mode an executable leaf. */
  ghost predicate CanStart(x: Item, items: seq<Item>, epic: string) {
    && x in items && !x.status.Done? && x.id != epic && !x.isEpic
    && !StaticallyBlocked(x, items) && (forall b :: !Blocks(b, x, items))
    && ((exists y :: y in items && y.canonical.Some?) ==>
          x.canonical == Some(true) && x.leaf != Some(false) && !x.container)
  }

  /** The brief finds ready exactly the work that can start, and blocked exactly the rest of the open work. */
  lemma ReadyExactly(items: seq<Item>, epic: string, x: Item)
    ensures x in ReadyItems(items, epic) <==> CanStart(x, items, epic)
    ensures x in BlockedItems(items, epic) <==>
            x in items && !x.status.Done? && x.id != epic && !x.isEpic && !CanStart(x, items, epic)
  {
    var why := Why(items, CanonicalMode(items));
    SelectMembers(ReadyIf(epic, why), items, x);
    SelectMembers(BlockedIf(epic, why), items, x);
    NoReasonsIff(x, items);
  }

  /** What each reason means. */
  ghost predicate Holds(r: Reason, x: Item, items: seq<Item>) {
    match r
    case StatusBlocked => x.status.Blocked?
    case GuardLabel(g) => g in x.guards
    case DependsOn(_, _) => exists b :: Names(r, b) && Blocks(b, x, items)
    case UnknownDependency(d) => d in x.deps && !Resolves(d, items)
    case _ => false
  }

  lemma {:induction false} GatheredMembers<T>(own: seq<T>, of: string -> seq<T>, deps: seq<string>, r: T)
    ensures r in Gathered(own, of, deps) <==> r in own || exists d :: d in deps && r in of(d)
  {
    if deps != [] {
      var n := |deps| - 1;
      GatheredMembers(own, of, deps[..n], r);
      assert deps == deps[..n] + [deps[n]];
    }
  }

  /** `r` comes from dependency `d`: it resolves to nothing, or to the open item that `r` names. */
  ghost predicate Stems(r: Reason, x: Item, items: seq<Item>, d: string) {
    || (r == UnknownDependency(d) && !Resolves(d, items))
    || (r.DependsOn? && exists b :: Names(r, b) && b in items && Answers(b, d) && b.id != x.id && !Closed(b))
  }

  predicate Names(r: Reason, b: Item) {
    r == DependsOn(b.id, b.status)
  }

  lemma ListedReasons(x: Item, candidates: seq<Item>, d: string, r: Reason)
    ensures r in DependencyReasons(x, candidates, d) <==>
            || (r == UnknownDependency(d) && candidates == [])
            || exists b :: Names(r, b) && b in OpenBlockers(x, candidates)
  {
    var open, reasons := OpenBlockers(x, candidates), DependencyReasons(x, candidates, d);
    if b :| Names(r, b) && b in open {
      var i :| 0 <= i < |open| && open[i] == b;
      assert reasons[i] == r;
    }
    if open == [] && candidates == [] {
      assert reasons == [UnknownDependency(d)];
    } else if r in reasons {
      var i :| 0 <= i < |reasons| && reasons[i] == r;
      assert Names(r, open[i]) && open[i] in open;
    }
  }

  lemma DependencyReasonMembers(x: Item, items: seq<Item>, d: string, r: Reason)
    ensures r in DependencyReasons(x, Matching(items, d), d) <==> Stems(r, x, items, d)
  {
    var candidates := Matching(items, d);
    var waiting := (b: Item) => b.id != x.id && !Closed(b);
    ListedReasons(x, candidates, d, r);
    forall b: Item
      ensures b in candidates <==> b in items && Answers(b, d)
      ensures b in OpenBlockers(x, candidates) <==> b in candidates && waiting(b)
    {
      MatchingMembers(items, d, b);
      SelectMembers(waiting, candidates, b);
    }
    if candidates != [] {
      assert candidates[0] in candidates;
    }
  }

  /** The reasons given for an item are exactly those that hold. */
  lemma ReasonsSayWhy(x: Item, items: seq<Item>, r: Reason)
    ensures r in Reasons(x, items) <==> Holds(r, x, items)
  {
    GatheredMembers(OwnReasons(x), ReasonsOf(x, items), x.deps, r);
    forall d | d in x.deps ensures r in ReasonsOf(x, items)(d) <==> Stems(r, x, items, d) {
      DependencyReasonMembers(x, items, d, r);
    }
    HoldsIff(x, items, r);
  }

  /** In Beads mode, what it adds to them. */
  lemma BriefReasonsSayWhy(x: Item, items: seq<Item>, r: Reason)
    ensures r in BriefReasons(x, items, false) <==> Holds(r, x, items)
    ensures r in BriefReasons(x, items, true) <==>
            || Holds(r, x, items)
            || (x.canonical == Some(true) && x.leaf != Some(false) && x.container && r == NotExecutable)
            || (x.canonical == Some(true) && x.leaf == Some(false) && r == HasDescendants)
            || (x.canonical != Some(true) && r == NotCanonicallyReady(x.status) && forall s :: !Holds(s, x, items))
  {
    ReasonsSayWhy(x, items, r);
    var reasons := Reasons(x, items);
    forall s: Reason ensures s in reasons <==> Holds(s, x, items) {
      ReasonsSayWhy(x, items, s);
    }
    assert reasons != [] ==> reasons[0] in reasons;
  }

  lemma HoldsIff(x: Item, items: seq<Item>, r: Reason)
    ensures Holds(r, x, items) <==> r in OwnReasons(x) || exists d :: d in x.deps && Stems(r, x, items, d)
  {
    if d :| d in x.deps && r.DependsOn? && Stems(r, x, items, d) {
      var b :| Names(r, b) && b in items && Answers(b, d) && b.id != x.id && !Closed(b);
      assert Blocks(b, x, items);
    }
    if b :| r.DependsOn? && Names(r, b) && Blocks(b, x, items) {
      var d :| d in x.deps && Answers(b, d);
      assert Stems(r, x, items, d);
    }
    if r.UnknownDependency? && r.dep in x.deps {
      assert Stems(r, x, items, r.dep) <==> !Resolves(r.dep, items);
    }
    OwnReasonMembers(x, r);
  }

  lemma OwnReasonMembers(x: Item, r: Reason)
    ensures r in OwnReasons(x) <==> (r == StatusBlocked && x.status.Blocked?) || (r.GuardLabel? && r.guard in x.guards)
  {
    if r.GuardLabel? {
      match r.guard
      case ContractorOnly =>
      case LocalWorkerOnly =>
      case NoCodexExec =>
    }
  }

  lemma AfterMembers(items: seq<Item>, done: set<string>, y: Item)
    ensures y in After(items, done) <==> exists x :: x in items && y == Settled(x, done)
  {
    if y in After(items, done) {
      var i :| 0 <= i < |items| && After(items, done)[i] == y;
      assert items[i] in items && y == Settled(items[i], done);
    }
    if x :| x in items && y == Settled(x, done) {
      var i :| 0 <= i < |items| && items[i] == x;
      assert After(items, done)[i] == y;
    }
  }

  lemma AfterResolves(items: seq<Item>, done: set<string>, d: string)
    ensures Resolves(d, After(items, done)) <==> Resolves(d, items)
  {
    if y :| y in After(items, done) && Answers(y, d) {
      AfterMembers(items, done, y);
    }
    if x :| x in items && Answers(x, d) {
      AfterMembers(items, done, Settled(x, done));
      assert Answers(Settled(x, done), d);
    }
  }

  lemma AfterBlocks(items: seq<Item>, done: set<string>, b: Item, x: Item)
    ensures Blocks(b, x, After(items, done)) <==> Blocks(b, x, items) && b.id !in done
  {
    AfterMembers(items, done, b);
    if b in items && b.id !in done {
      assert b == Settled(b, done);
    }
  }

  /** Closing others leaves an item's own obstacles alone and lifts exactly the blockers that were closed. */
  lemma ReadyAfter(x: Item, items: seq<Item>, done: set<string>)
    ensures Reasons(x, After(items, done)) == [] <==>
            !StaticallyBlocked(x, items) && forall b :: Blocks(b, x, items) ==> b.id in done
  {
    NoReasonsIff(x, After(items, done));
    forall d | d in x.deps ensures Resolves(d, After(items, done)) <==> Resolves(d, items) {
      AfterResolves(items, done, d);
    }
    forall b: Item ensures Blocks(b, x, After(items, done)) <==> Blocks(b, x, items) && b.id !in done {
      AfterBlocks(items, done, b, x);
    }
  }

  /** Closing an issue never gives another issue a new blocker. */
  lemma ClosingAddsNoBlocker(x: Item, items: seq<Item>, done: set<string>, more: set<string>)
    requires done <= more
    ensures Reasons(x, After(items, done)) == [] ==> Reasons(x, After(items, more)) == []
    ensures forall b :: Blocks(b, x, After(items, more)) ==> Blocks(b, x, After(items, done))
  {
    ReadyAfter(x, items, done);
    ReadyAfter(x, items, more);
    forall b: Item | Blocks(b, x, After(items, more)) ensures Blocks(b, x, After(items, done)) {
      AfterBlocks(items, done, b, x);
      AfterBlocks(items, more, b, x);
    }
  }

  // ---------- recommendation ----------

  lemma RankedIsSorted(ready: seq<Item>, items: seq<Item>)
    ensures var r := Ranked(ready, items);
            multiset(r) == multiset(ready) && Sorting.Ascending(RankLe(items), r)
  {
    RankIsTotal(items);
    Sorting.SortAscending(RankLe(items), ready);
  }

  /** The recommended issue is open work without reasons, and no ready issue ranks before it. */
  lemma RecommendedIsBestReady(items: seq<Item>, epic: string)
    ensures match Recommended(items, epic)
            case Some(x) =>
              && x in items && OpenWork(x, epic) && BriefReasons(x, items, CanonicalMode(items)) == []
              && (forall y :: y in ReadyItems(items, epic) ==> y == x || RankLe(items)(x, y))
            case None =>
              forall y :: y in items && OpenWork(y, epic) ==> BriefReasons(y, items, CanonicalMode(items)) != []
  {
    var mode := CanonicalMode(items);
    var isReady := ReadyIf(epic, Why(items, mode));
    var ready := ReadyItems(items, epic);
    forall y: Item ensures y in ready <==> y in items && isReady(y) {
      SelectMembers(isReady, items, y);
    }
    var ranked := Ranked(ready, items);
    forall y: Item ensures y in ready <==> y in ranked {
      assert y in ready <==> y in multiset(ready);
      assert y in ranked <==> y in multiset(ranked);
    }
    if ranked != [] {
      RankedIsSorted(ready, items);
      assert ranked[0] in ranked;
      forall y | y in ready ensures y == ranked[0] || RankLe(items)(ranked[0], y) {
        var i :| 0 <= i < |ranked| && ranked[i] == y;
      }
    }
  }

  /** In Beads mode only canonically ready, executable leaves without blockers are recommended. */
  lemma BeadsRecommendationIsCanonical(items: seq<Item>, epic: string)
    requires CanonicalMode(items) && Recommended(items, epic).Some?
    ensures var x := Recommended(items, epic).value;
            && x.canonical == Some(true) && x.leaf != Some(false) && !x.container
            && !StaticallyBlocked(x, items) && forall b :: !Blocks(b, x, items)
  {
    RecommendedIsBestReady(items, epic);
    NoReasonsIff(Recommended(items, epic).value, items);
  }

  // ---------- recommend, close, repeat ----------

  lemma OpenIdsAfter(items: seq<Item>, epic: string, done: set<string>)
    ensures OpenIds(After(items, done), epic) == OpenIds(items, epic) - done
  {
    var after := After(items, done);
    forall id: string ensures id in OpenIds(after, epic) <==> id in OpenIds(items, epic) - done {
      if id in OpenIds(after, epic) {
        var y :| y in after && OpenWork(y, epic) && y.id == id;
        AfterMembers(items, done, y);
      }
      if id in OpenIds(items, epic) - done {
        var x :| x in items && OpenWork(x, epic) && x.id == id;
        AfterMembers(items, done, x);
        assert x == Settled(x, done);
      }
    }
  }

  lemma AfterTwice(items: seq<Item>, a: set<string>, b: set<string>)
    ensures After(After(items, a), b) == After(items, a + b)
  {
  }

  lemma AfterNothing(items: seq<Item>)
    ensures After(items, {}) == items
  {
  }

  lemma RecommendedIsOpen(items: seq<Item>, epic: string)
    requires Recommended(items, epic).Some?
    ensures var id := Recommended(items, epic).value.id;
            && id in OpenIds(items, epic)
            && OpenIds(After(items, {id}), epic) == OpenIds(items, epic) - {id}
  {
    RecommendedIsBestReady(items, epic);
    OpenIdsAfter(items, epic, {Recommended(items, epic).value.id});
  }

  /** Ids closed, in order, by closing the recommendation until there is none. */
  ghost function Drain(items: seq<Item>, epic: string): seq<string>
    decreases |OpenIds(items, epic)|
  {
    match Recommended(items, epic)
    case None => []
    case Some(x) =>
      RecommendedIsOpen(items, epic);
      [x.id] + Drain(After(items, {x.id}), epic)
  }

  ghost function Ids(order: seq<string>): set<string> {
    set id | id in order
  }

  ghost predicate Workgraph(items: seq<Item>) {
    forall x :: x in items ==> x.canonical == None
  }

  lemma WorkgraphAfter(items: seq<Item>, done: set<string>)
    requires Workgraph(items)
    ensures Workgraph(After(items, done)) && !CanonicalMode(After(items, done))
  {
  }

  /** `x` is open work of the original graph whose every blocker is among `before`. */
  ghost predicate JustifiedBy(x: Item, items: seq<Item>, epic: string, before: set<string>) {
    && x in items && OpenWork(x, epic) && !StaticallyBlocked(x, items)
    && forall b :: Blocks(b, x, items) ==> b.id in before
  }

  ghost predicate Justified(id: string, items: seq<Item>, epic: string, before: set<string>) {
    exists x: Item :: x.id == id && JustifiedBy(x, items, epic, before)
  }

  /** The graph with `done` closed either has no recommendation left, or one that is justified and closed first. */
  lemma DrainStep(items: seq<Item>, epic: string, done: set<string>)
    requires Workgraph(items)
    ensures var order := Drain(After(items, done), epic);
            order != [] ==>
              && order[0] !in done && Justified(order[0], items, epic, done)
              && order[1..] == Drain(After(items, done + {order[0]}), epic)
  {
    var now := After(items, done);
    WorkgraphAfter(items, done);
    RecommendedIsBestReady(now, epic);
    match Recommended(now, epic)
    case None =>
    case Some(x) =>
      AfterMembers(items, done, x);
      ReadyAfter(x, items, done);
      AfterTwice(items, done, {x.id});
      assert JustifiedBy(x, items, epic, done);
  }

  lemma IdsCons(id: string, rest: seq<string>, done: set<string>)
    ensures done + {id} + Ids(rest) == done + Ids([id] + rest)
  {
  }

  lemma IdsPrefix(order: seq<string>, done: set<string>, i: nat)
    requires 0 < i < |order|
    ensures done + {order[0]} + Ids(order[1..][..i - 1]) == done + Ids(order[..i])
    ensures order[1..][i - 1] == order[i]
  {
    assert order[..i] == [order[0]] + order[1..][..i - 1];
  }

  /** `x` is closed after `order[..i]`: for the first time, and when nothing blocks it any more. */
  ghost predicate ClosedInTurn(x: Item, items: seq<Item>, epic: string, done: set<string>, order: seq<string>, i: nat) {
    && i < |order| && x.id == order[i]
    && order[i] !in done + Ids(order[..i])
    && JustifiedBy(x, items, epic, done + Ids(order[..i]))
  }

  lemma OneStepLater(x: Item, items: seq<Item>, epic: string, done: set<string>, order: seq<string>, i: nat)
    requires 0 < i < |order| && ClosedInTurn(x, items, epic, done + {order[0]}, order[1..], i - 1)
    ensures ClosedInTurn(x, items, epic, done, order, i)
  {
    IdsPrefix(order, done, i);
  }

  lemma FirstStep(items: seq<Item>, epic: string, done: set<string>, order: seq<string>) returns (x: Item)
    requires Workgraph(items) && order == Drain(After(items, done), epic) && order != []
    ensures ClosedInTurn(x, items, epic, done, order, 0)
    ensures order[1..] == Drain(After(items, done + {order[0]}), epic)
  {
    DrainStep(items, epic, done);
    x :| x.id == order[0] && JustifiedBy(x, items, epic, done);
    FirstInTurn(x, items, epic, done, order);
  }

  lemma FirstInTurn(x: Item, items: seq<Item>, epic: string, done: set<string>, order: seq<string>)
    requires order != [] && x.id == order[0] && order[0] !in done && JustifiedBy(x, items, epic, done)
    ensures ClosedInTurn(x, items, epic, done, order, 0)
  {
    assert done + Ids(order[..0]) == done;
  }

  /** `order` is what is closed once `done` is. */
  lemma {:induction false} DrainSteps(items: seq<Item>, epic: string, done: set<string>, order: seq<string>, i: nat)
    returns (x: Item)
    requires Workgraph(items) && order == Drain(After(items, done), epic) && i < |order|
    ensures ClosedInTurn(x, items, epic, done, order, i)
    decreases i
  {
    x := FirstStep(items, epic, done, order);
    if i > 0 {
      x := DrainSteps(items, epic, done + {order[0]}, order[1..], i - 1);
      OneStepLater(x, items, epic, done, order, i);
    }
  }

  /** The issues are closed in topological order, each once, and each only when nothing blocks it. */
  lemma DrainIsTopological(items: seq<Item>, epic: string, i: nat)
    requires Workgraph(items) && i < |Drain(items, epic)|
    ensures var order := Drain(items, epic);
            order[i] !in Ids(order[..i]) && Justified(order[i], items, epic, Ids(order[..i]))
  {
    AfterNothing(items);
    var order := Drain(items, epic);
    var x := DrainSteps(items, epic, {}, order, i);
    assert {} + Ids(order[..i]) == Ids(order[..i]);
  }

  lemma {:induction false} DrainEnds(items: seq<Item>, epic: string, done: set<string>)
    ensures var order := Drain(After(items, done), epic);
            Recommended(After(items, done + Ids(order)), epic) == None
    decreases |OpenIds(After(items, done), epic)|
  {
    var now := After(items, done);
    var order := Drain(now, epic);
    if Recommended(now, epic) == None {
      assert done + Ids(order) == done;
    } else {
      var id := Recommended(now, epic).value.id;
      RecommendedIsOpen(now, epic);
      AfterTwice(items, done, {id});
      DrainEnds(items, epic, done + {id});
      IdsCons(id, Drain(After(items, done + {id}), epic), done);
    }
  }

  // ---------- what is left over ----------

  /** Every member is obstructed, waits for another member, or waits for an open item that is not work. */
  ghost predicate SelfBlocking(stuck: set<string>, items: seq<Item>, epic: string) {
    && stuck <= OpenIds(items, epic)
    && forall x {:trigger Waits(x, stuck, items, epic)} ::
         x in items && OpenWork(x, epic) && x.id in stuck ==> Waits(x, stuck, items, epic)
  }

  ghost predicate Waits(x: Item, stuck: set<string>, items: seq<Item>, epic: string) {
    || StaticallyBlocked(x, items)
    || exists b :: Blocks(b, x, items) && (b.id in stuck || !OpenWork(b, epic))
  }

  lemma SameIdSameItem(items: seq<Item>, x: Item, y: Item)
    requires DistinctIds(items) && x in items && y in items && x.id == y.id
    ensures x == y
  {
    var i :| 0 <= i < |items| && items[i] == x;
    var j :| 0 <= j < |items| && items[j] == y;
  }

  lemma {:induction false} SelfBlockingIsNeverClosed(items: seq<Item>, epic: string,
                                                     stuck: set<string>, i: nat)
    requires Workgraph(items) && DistinctIds(items) && SelfBlocking(stuck, items, epic)
    requires i < |Drain(items, epic)|
    ensures Drain(items, epic)[i] !in stuck
    decreases i
  {
    var order := Drain(items, epic);
    DrainIsTopological(items, epic, i);
    if order[i] in stuck {
      var x: Item :| x.id == order[i] && JustifiedBy(x, items, epic, Ids(order[..i]));
      assert Waits(x, stuck, items, epic);
      var b :| Blocks(b, x, items) && (b.id in stuck || !OpenWork(b, epic));
      var j :| 0 <= j < i && order[j] == b.id;
      SelfBlockingIsNeverClosed(items, epic, stuck, j);
      ClosedIsOpenWork(items, epic, j, b);
    }
  }

  lemma ClosedIsOpenWork(items: seq<Item>, epic: string, j: nat, b: Item)
    requires Workgraph(items) && DistinctIds(items) && j < |Drain(items, epic)|
    requires b in items && b.id == Drain(items, epic)[j]
    ensures OpenWork(b, epic)
  {
    DrainIsTopological(items, epic, j);
    var y: Item :| y.id == b.id && JustifiedBy(y, items, epic, Ids(Drain(items, epic)[..j]));
    SameIdSameItem(items, b, y);
  }

  lemma LeftoverIsSelfBlocking(items: seq<Item>, epic: string)
    requires Workgraph(items)
    ensures SelfBlocking(OpenIds(items, epic) - Ids(Drain(items, epic)), items, epic)
  {
    var order := Drain(items, epic);
    var done := Ids(order);
    var stuck := OpenIds(items, epic) - done;
    AfterNothing(items);
    DrainEnds(items, epic, {});
    assert {} + done == done;
    WorkgraphAfter(items, done);
    RecommendedIsBestReady(After(items, done), epic);
    forall x | x in items && OpenWork(x, epic) && x.id in stuck ensures Waits(x, stuck, items, epic) {
      AfterMembers(items, done, x);
      assert x == Settled(x, done);
      assert Reasons(x, After(items, done)) != [];
      ReadyAfter(x, items, done);
      if !StaticallyBlocked(x, items) {
        var b :| Blocks(b, x, items) && b.id !in done;
        if OpenWork(b, epic) {
          assert b.id in OpenIds(items, epic);
        }
      }
    }
  }

  /** An open issue is eventually closed exactly when no self-blocking set contains it. */
  lemma ClosedUnlessSelfBlocked(items: seq<Item>, epic: string, id: string)
    requires Workgraph(items) && DistinctIds(items) && id in OpenIds(items, epic)
    ensures id in Drain(items, epic) <==> !exists stuck :: SelfBlocking(stuck, items, epic) && id in stuck
  {
    var order := Drain(items, epic);
    if id in order {
      var i :| 0 <= i < |order| && order[i] == id;
      forall stuck | SelfBlocking(stuck, items, epic) ensures id !in stuck {
        SelfBlockingIsNeverClosed(items, epic, stuck, i);
      }
    } else {
      LeftoverIsSelfBlocking(items, epic);
      assert id in OpenIds(items, epic) - Ids(order);
    }
  }

  // ---------- dependency cycles ----------

  /** Open issues, each waiting for the next one. */
  ghost predicate Walk(p: seq<Item>, items: seq<Item>, epic: string) {
    p != [] ==>
      && p[0] in items && OpenWork(p[0], epic)
      && (|p| > 1 ==> Blocks(p[1], p[0], items))
      && Walk(p[1..], items, epic)
  }

  ghost predicate Cycle(p: seq<Item>, items: seq<Item>, epic: string) {
    |p| >= 2 && p[0] == p[|p| - 1] && Walk(p, items, epic)
  }

  lemma {:induction false} WalkAt(p: seq<Item>, items: seq<Item>, epic: string, i: nat)
    requires Walk(p, items, epic) && i < |p|
    ensures p[i] in items && OpenWork(p[i], epic) && Walk(p[i..], items, epic)
    ensures i + 1 < |p| ==> Blocks(p[i + 1], p[i], items)
  {
    if i > 0 {
      WalkAt(p[1..], items, epic, i - 1);
      assert p[1..][i - 1..] == p[i..];
    }
  }

  lemma {:induction false} WalkPrefix(p: seq<Item>, items: seq<Item>, epic: string, n: nat)
    requires Walk(p, items, epic) && n <= |p|
    ensures Walk(p[..n], items, epic)
  {
    if n > 0 {
      WalkPrefix(p[1..], items, epic, n - 1);
      assert p[..n][1..] == p[1..][..n - 1];
    }
  }

  ghost predicate NothingObstructed(items: seq<Item>, epic: string) {
    forall x {:trigger StaticallyBlocked(x, items)} :: x in items && OpenWork(x, epic) ==>
      !StaticallyBlocked(x, items) && forall b :: Blocks(b, x, items) ==> OpenWork(b, epic)
  }

  ghost function IdsOf(p: seq<Item>): set<string> {
    set i | 0 <= i < |p| :: p[i].id
  }

  lemma CycleIsSelfBlocking(p: seq<Item>, items: seq<Item>, epic: string)
    requires DistinctIds(items) && Cycle(p, items, epic)
    ensures SelfBlocking(IdsOf(p), items, epic) && p[0].id in IdsOf(p)
  {
    forall x | x in items && OpenWork(x, epic) && x.id in IdsOf(p) ensures Waits(x, IdsOf(p), items, epic) {
      var i :| 0 <= i < |p| && p[i].id == x.id;
      WalkAt(p, items, epic, i);
      SameIdSameItem(items, x, p[i]);
      var k := if i == |p| - 1 then 0 else i;
      WalkAt(p, items, epic, k);
      assert p[k] == x;
    }
    forall id | id in IdsOf(p) ensures id in OpenIds(items, epic) {
      var i :| 0 <= i < |p| && p[i].id == id;
      WalkAt(p, items, epic, i);
    }
  }

  lemma {:induction false} Pigeonhole(p: seq<string>, s: set<string>) returns (i: nat, j: nat)
    requires |p| > |s| && forall k :: 0 <= k < |p| ==> p[k] in s
    ensures i < j < |p| && p[i] == p[j]
    decreases |p|
  {
    var n := |p| - 1;
    if k :| 0 <= k < n && p[k] == p[n] {
      i, j := k, n;
    } else {
      i, j := Pigeonhole(p[..n], s - {p[n]});
    }
  }

  lemma NextInLine(x: Item, stuck: set<string>, items: seq<Item>, epic: string) returns (b: Item)
    requires NothingObstructed(items, epic) && SelfBlocking(stuck, items, epic)
    requires x in items && OpenWork(x, epic) && x.id in stuck
    ensures Blocks(b, x, items) && b in items && OpenWork(b, epic) && b.id in stuck
  {
    assert Waits(x, stuck, items, epic) && !StaticallyBlocked(x, items);
    b :| Blocks(b, x, items) && (b.id in stuck || !OpenWork(b, epic));
  }

  /** `names` are the ids of a walk of `n + 1` stuck issues that starts at `x`. */
  lemma {:induction false} LongWalk(x: Item, stuck: set<string>, items: seq<Item>, epic: string, n: nat)
    returns (p: seq<Item>, names: seq<string>)
    requires NothingObstructed(items, epic) && SelfBlocking(stuck, items, epic)
    requires x in items && OpenWork(x, epic) && x.id in stuck
    ensures |p| == |names| == n + 1 && p[0] == x && Walk(p, items, epic)
    ensures forall i :: 0 <= i < |names| ==> names[i] in stuck && names[i] == p[i].id
    decreases n
  {
    if n == 0 {
      p, names := [x], [x.id];
    } else {
      var b := NextInLine(x, stuck, items, epic);
      var p', names' := LongWalk(b, stuck, items, epic, n - 1);
      p, names := ExtendWalk(x, p', names', stuck, items, epic);
    }
  }

  lemma ExtendWalk(x: Item, walk: seq<Item>, ids: seq<string>, stuck: set<string>, items: seq<Item>, epic: string)
    returns (p: seq<Item>, names: seq<string>)
    requires x in items && OpenWork(x, epic) && x.id in stuck
    requires walk != [] && |walk| == |ids| && Walk(walk, items, epic) && Blocks(walk[0], x, items)
    requires forall i :: 0 <= i < |ids| ==> ids[i] in stuck && ids[i] == walk[i].id
    ensures |p| == |names| == |walk| + 1 && p[0] == x && Walk(p, items, epic)
    ensures forall i :: 0 <= i < |names| ==> names[i] in stuck && names[i] == p[i].id
  {
    p, names := [x] + walk, [x.id] + ids;
    assert p[1..] == walk;
  }

  lemma SelfBlockingHasCycle(stuck: set<string>, items: seq<Item>, epic: string) returns (p: seq<Item>)
    requires DistinctIds(items) && NothingObstructed(items, epic)
    requires SelfBlocking(stuck, items, epic) && stuck != {}
    ensures Cycle(p, items, epic)
  {
    var id :| id in stuck;
    var x :| x in items && OpenWork(x, epic) && x.id == id;
    var walk, names := LongWalk(x, stuck, items, epic, |stuck|);
    var i, j := Pigeonhole(names, stuck);
    p := CutCycle(walk, items, epic, i, j);
  }

  lemma CutCycle(walk: seq<Item>, items: seq<Item>, epic: string, i: nat, j: nat) returns (p: seq<Item>)
    requires DistinctIds(items) && Walk(walk, items, epic) && i < j < |walk| && walk[i].id == walk[j].id
    ensures Cycle(p, items, epic)
  {
    WalkAt(walk, items, epic, i);
    WalkAt(walk, items, epic, j);
    SameIdSameItem(items, walk[i], walk[j]);
    WalkPrefix(walk[i..], items, epic, j - i + 1);
    p := walk[i..][..j - i + 1];
  }

  /**
   When no open issue is obstructed in itself or waits for an open epic, the sprint drains completely exactly
   when the dependencies have no cycle.
   */
  lemma DrainsCompletelyIffAcyclic(items: seq<Item>, epic: string)
    requires Workgraph(items) && DistinctIds(items) && NothingObstructed(items, epic)
    ensures Ids(Drain(items, epic)) == OpenIds(items, epic) <==> !exists p :: Cycle(p, items, epic)
  {
    var order := Drain(items, epic);
    forall id | id in order ensures id in OpenIds(items, epic) {
      var i :| 0 <= i < |order| && order[i] == id;
      DrainIsTopological(items, epic, i);
      var x: Item :| x.id == order[i] && JustifiedBy(x, items, epic, Ids(order[..i]));
    }
    if p: seq<Item> :| Cycle(p, items, epic) {
      CycleIsSelfBlocking(p, items, epic);
      ClosedUnlessSelfBlocked(items, epic, p[0].id);
      assert p[0].id in OpenIds(items, epic) && p[0].id !in order;
    }
    var stuck := OpenIds(items, epic) - Ids(order);
    if stuck != {} {
      LeftoverIsSelfBlocking(items, epic);
      var p := SelfBlockingHasCycle(stuck, items, epic);
    }
    assert Ids(order) <= OpenIds(items, epic);
    assert stuck == {} <==> Ids(order) == OpenIds(items, epic);
  }
}
