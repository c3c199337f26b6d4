/** A workgraph as it is read from labels and words: two tasks that wait for each other are never recommended. */
module SprintExamples {
  import opened Wrappers
  import opened Sprint
  import opened SprintDrain
  import Text

  /** An open task without labels that waits for `dep`. */
  function WaitingTask(id: string, dep: string): Item {
    Normalize(id, "", "open", "task", {}, 1, [dep], None, None)
  }

  /** Words and labels of an open task put nothing in its way. */
  lemma WaitingTaskIsPlain(id: string, dep: string)
    ensures WaitingTask(id, dep) == PlainTask(id, dep)
  {
    assert {} * CONTAINER_LABELS == {};
  }

  lemma WaitersBlock(x: Item, y: Item, items: seq<Item>)
    requires items == [x, y] || items == [y, x]
    requires x.deps == [y.id] && y.id != x.id && y.id != "" && !Closed(y)
    requires !x.status.Blocked? && x.guards == {} && (y.id != Text.Strip(x.lane))
    ensures Blocks(y, x, items) && !StaticallyBlocked(x, items)
    ensures forall b :: Blocks(b, x, items) ==> b == y
  {
    assert y in items && x in items;
    assert y.id in x.deps && Answers(y, y.id);
    assert Resolves(y.id, items);
  }

  lemma TwoWaitersAreACycle(x: Item, y: Item, items: seq<Item>, epic: string)
    requires Blocks(y, x, items) && Blocks(x, y, items) && OpenWork(x, epic) && OpenWork(y, epic)
    ensures Cycle([x, y, x], items, epic)
  {
    var p := [x, y, x];
    assert p[1..] == [y, x] && [y, x][1..] == [x] && [x][1..] == [];
    assert Walk([], items, epic);
    assert Walk([x], items, epic);
    assert Walk([y, x], items, epic);
  }

  /** When a cycle holds all open work, nothing is ever closed, so nothing is recommended. */
  lemma NothingButACycle(p: seq<Item>, items: seq<Item>, epic: string)
    requires Workgraph(items) && DistinctIds(items) && Cycle(p, items, epic) && OpenIds(items, epic) <= IdsOf(p)
    ensures Drain(items, epic) == [] && Recommended(items, epic) == None
  {
    CycleIsSelfBlocking(p, items, epic);
    if Drain(items, epic) != [] {
      DrainIsTopological(items, epic, 0);
      SelfBlockingIsNeverClosed(items, epic, IdsOf(p), 0);
    }
  }

  lemma TwoWaitersAreStuck(x: Item, y: Item, items: seq<Item>, epic: string)
    requires items == [x, y] && Workgraph(items) && x.id != y.id && OpenWork(x, epic) && OpenWork(y, epic)
    requires Blocks(y, x, items) && Blocks(x, y, items)
    ensures DistinctIds(items) && OpenIds(items, epic) == {x.id, y.id}
    ensures Drain(items, epic) == [] && Recommended(items, epic) == None
  {
    var p := [x, y, x];
    TwoWaitersAreACycle(x, y, items, epic);
    assert p[0].id == x.id && p[1].id == y.id;
    assert x.id in IdsOf(p) && y.id in IdsOf(p);
    assert x in items && y in items;
    NothingButACycle(p, items, epic);
  }

  function PlainTask(id: string, dep: string): Item {
    Item(id, "", Active("open"), false, false, {}, false, false, 1, [dep], None, None)
  }

  lemma PlainPairIsStuck(a: Item, b: Item, items: seq<Item>)
    requires a == PlainTask("a", "b") && b == PlainTask("b", "a") && items == [a, b]
    ensures Workgraph(items) && DistinctIds(items) && NothingObstructed(items, "e")
    ensures Cycle([a, b, a], items, "e")
    ensures OpenIds(items, "e") == {"a", "b"} && Drain(items, "e") == []
  {
    WaitersBlock(a, b, items);
    WaitersBlock(b, a, items);
    TwoWaitersAreACycle(a, b, items, "e");
    TwoWaitersAreStuck(a, b, items, "e");
  }

  lemma CyclicWorkgraphIsStuck()
    ensures var a, b := WaitingTask("a", "b"), WaitingTask("b", "a"); var items := [a, b];
            && Workgraph(items) && DistinctIds(items) && NothingObstructed(items, "e")
            && Cycle([a, b, a], items, "e")
            && OpenIds(items, "e") == {"a", "b"} && Drain(items, "e") == []
  {
    WaitingTaskIsPlain("a", "b");
    WaitingTaskIsPlain("b", "a");
    var a, b := WaitingTask("a", "b"), WaitingTask("b", "a");
    PlainPairIsStuck(a, b, [a, b]);
  }
}
