/** `build_shards`: test files dealt out, largest first, to the shard with the fewest bytes so far. */
module Sharding {
  import opened Wrappers
  import opened GreedyLoad
  import Sorting
  import Text

  class Shard {
    const index: nat
    var paths: seq<string>
    var estimatedBytes: nat

    constructor (index: nat)
      ensures this.index == index && paths == [] && estimatedBytes == 0
    {
      this.index := index;
      paths, estimatedBytes := [], 0;
    }
  }

  /** Sort key (-size, path). */
  function HeavierFirst(size: string -> nat): (string, string) -> bool {
    (a: string, b: string) => size(a) > size(b) || (size(a) == size(b) && Text.LexLe(a, b))
  }

  function Weights(files: seq<string>, size: string -> nat): (ws: seq<nat>)
    ensures |ws| == |files| && forall i :: 0 <= i < |files| ==> ws[i] == size(files[i])
  {
    seq(|files|, i requires 0 <= i < |files| => size(files[i]))
  }

  function Bytes(files: seq<string>, size: string -> nat): nat {
    if files == [] then 0 else size(files[0]) + Bytes(files[1..], size)
  }

  /** The files that the assignment `at` puts on shard `k`, in order of placement. */
  function FilesAt(files: seq<string>, at: seq<nat>, k: nat): seq<string>
    requires |files| == |at|
  {
    if files == [] then []
    else
      var n := |files| - 1;
      FilesAt(files[..n], at[..n], k) + if at[n] == k then [files[n]] else []
  }

  // ---------- the plan that `BuildShards` carries out ----------

  function ShardCount(workers: nat, n: nat): nat {
    if workers <= n then workers else n
  }

  function Order(paths: seq<string>, size: string -> nat): seq<string> {
    Sorting.Sort(HeavierFirst(size), paths)
  }

  function Placement(paths: seq<string>, size: string -> nat, m: nat): (at: seq<nat>)
    requires 0 < m
    ensures Assigns(at, |paths|, m)
  {
    Greedy(Weights(Order(paths, size), size), m)
  }

  function ShardPaths(paths: seq<string>, size: string -> nat, m: nat, k: nat): seq<string>
    requires 0 < m
  {
    Sorting.Sort(Text.LexLe, FilesAt(Order(paths, size), Placement(paths, size, m), k))
  }

  function ShardLoad(paths: seq<string>, size: string -> nat, m: nat, k: nat): nat
    requires 0 < m
  {
    LoadOf(Weights(Order(paths, size), size), Placement(paths, size, m), k)
  }

  // ---------- the loop ----------

  ghost predicate Holds(shards: seq<Shard>, files: seq<string>, size: string -> nat, m: nat)
    requires 0 < m
    reads shards
  {
    && |shards| == m
    && (forall j, k :: 0 <= j < k < m ==> shards[j] != shards[k])
    && var at := Greedy(Weights(files, size), m);
       forall k :: 0 <= k < m ==>
         && shards[k].index == k
         && shards[k].paths == FilesAt(files, at, k)
         && shards[k].estimatedBytes == LoadOf(Weights(files, size), at, k)
  }

  /** `min(shards, key=(estimated_bytes, index))`. */
  method LightestShard(shards: seq<Shard>, ghost files: seq<string>, ghost size: string -> nat) returns (k: nat)
    requires 0 < |shards| && Holds(shards, files, size, |shards|)
    ensures k == LeastLoaded(Weights(files, size), Greedy(Weights(files, size), |shards|), |shards|)
  {
    ghost var ws, at := Weights(files, size), Greedy(Weights(files, size), |shards|);
    k := 0;
    for i := 1 to |shards|
      invariant k == LeastLoaded(ws, at, i) < i
    {
      if shards[i].estimatedBytes < shards[k].estimatedBytes {
        k := i;
      }
    }
  }

  method BuildShards(paths: seq<string>, size: string -> nat, workers: int) returns (r: Option<seq<Shard>>)
    ensures workers < 1 <==> r.None?
    ensures r.Some? && paths == [] ==> r.value == []
    // as many shards as there are workers, but no more than files
    ensures r.Some? && paths != [] ==>
              |r.value| <= workers && |r.value| <= |paths| && (|r.value| == workers || |r.value| == |paths|)
    ensures r.Some? ==> forall k :: 0 <= k < |r.value| ==> Sorting.Ascending(Text.LexLe, r.value[k].paths)
    ensures r.Some? && paths != [] ==>
              var m := ShardCount(workers, |paths|);
              && |r.value| == m
              && (forall j, k :: 0 <= j < k < m ==> r.value[j] != r.value[k])
              && (forall k :: 0 <= k < m ==>
                    && fresh(r.value[k])
                    && r.value[k].index == k
                    && r.value[k].paths == ShardPaths(paths, size, m, k)
                    && r.value[k].estimatedBytes == ShardLoad(paths, size, m, k))
  {
    if workers < 1 {
      return None;
    }
    if paths == [] {
      return Some([]);
    }
    var m := ShardCount(workers, |paths|);
    var shards := FilledShards(paths, size, m);
    forall k | 0 <= k < m ensures Sorting.Ascending(Text.LexLe, shards[k].paths) {
      ShardPathsAscend(paths, size, m, k);
    }
    return Some(shards);
  }

  method FilledShards(paths: seq<string>, size: string -> nat, m: nat) returns (shards: seq<Shard>)
    requires 0 < m
    ensures |shards| == m && fresh(shards)
    ensures forall j, k :: 0 <= j < k < m ==> shards[j] != shards[k]
    ensures forall k :: 0 <= k < m ==>
              && shards[k].index == k
              && shards[k].paths == ShardPaths(paths, size, m, k)
              && shards[k].estimatedBytes == ShardLoad(paths, size, m, k)
  {
    shards := EmptyShards(m, size);
    var weighted := Order(paths, size);
    Deal(shards, weighted, size);
    SortPaths(shards);
  }

  method EmptyShards(m: nat, ghost size: string -> nat) returns (shards: seq<Shard>)
    requires 0 < m
    ensures fresh(shards) && Holds(shards, [], size, m)
  {
    shards := [];
    for i := 0 to m
      invariant |shards| == i && fresh(shards)
      invariant forall j, k :: 0 <= j < k < i ==> shards[j] != shards[k]
      invariant forall j :: 0 <= j < i ==>
                  shards[j].index == j && shards[j].paths == [] && shards[j].estimatedBytes == 0
    {
      var shard := new Shard(i);
      shards := shards + [shard];
    }
  }

  method Deal(shards: seq<Shard>, weighted: seq<string>, size: string -> nat)
    requires 0 < |shards| && Holds(shards, [], size, |shards|)
    modifies shards
    ensures Holds(shards, weighted, size, |shards|)
  {
    assert weighted[..0] == [];
    for i := 0 to |weighted|
      invariant Holds(shards, weighted[..i], size, |shards|)
    {
      DealOne(shards, weighted[..i], weighted[i], size);
      assert weighted[..i] + [weighted[i]] == weighted[..i + 1];
    }
    assert weighted[..|weighted|] == weighted;
  }

  method DealOne(shards: seq<Shard>, ghost dealt: seq<string>, path: string, size: string -> nat)
    requires 0 < |shards| && Holds(shards, dealt, size, |shards|)
    modifies shards
    ensures Holds(shards, dealt + [path], size, |shards|)
  {
    var k := LightestShard(shards, dealt, size);
    shards[k].paths := shards[k].paths + [path];
    shards[k].estimatedBytes := shards[k].estimatedBytes + size(path);
    PlaceNext(dealt, path, size, |shards|);
  }

  method SortPaths(shards: seq<Shard>)
    requires forall j, k :: 0 <= j < k < |shards| ==> shards[j] != shards[k]
    modifies shards`paths
    ensures forall k :: 0 <= k < |shards| ==>
              shards[k].paths == Sorting.Sort(Text.LexLe, old(shards[k].paths))
  {
    for i := 0 to |shards|
      invariant forall k :: 0 <= k < i ==> shards[k].paths == Sorting.Sort(Text.LexLe, old(shards[k].paths))
      invariant forall k :: i <= k < |shards| ==> shards[k].paths == old(shards[k].paths)
    {
      assert forall k :: 0 <= k < |shards| && k != i ==> shards[k] != shards[i];
      SortPathsOf(shards[i]);
    }
  }

  method SortPathsOf(shard: Shard)
    modifies shard`paths
    ensures shard.paths == Sorting.Sort(Text.LexLe, old(shard.paths))
  {
    shard.paths := Sorting.Sort(Text.LexLe, shard.paths);
  }

  /** One round of the dealing loop, on the specification side. */
  lemma PlaceNext(dealt: seq<string>, path: string, size: string -> nat, m: nat)
    requires 0 < m
    ensures var ws, ws' := Weights(dealt, size), Weights(dealt + [path], size);
            var at, at' := Greedy(ws, m), Greedy(ws', m);
            var target := LeastLoaded(ws, at, m);
            && (forall k :: FilesAt(dealt + [path], at', k) ==
                            FilesAt(dealt, at, k) + if target == k then [path] else [])
            && (forall k :: LoadOf(ws', at', k) == LoadOf(ws, at, k) + if target == k then size(path) else 0)
  {
    var n, ws, ws' := |dealt|, Weights(dealt, size), Weights(dealt + [path], size);
    assert (dealt + [path])[..n] == dealt;
    assert ws' == ws + [size(path)];
    var at := Greedy(ws, m);
    var target := LeastLoaded(ws, at, m);
    GreedyStep(ws, size(path), m, at);
    assert (at + [target])[..n] == at;
  }

  // ---------- what the plan guarantees ----------

  lemma HeavierFirstIsLinear(size: string -> nat)
    ensures Sorting.LinearOrder(HeavierFirst(size))
  {
    Text.LexIsLinear();
  }

  lemma ShardPathsAscend(paths: seq<string>, size: string -> nat, m: nat, k: nat)
    requires 0 < m
    ensures Sorting.Ascending(Text.LexLe, ShardPaths(paths, size, m, k))
  {
    Text.LexIsLinear();
    Sorting.SortAscending(Text.LexLe, FilesAt(Order(paths, size), Placement(paths, size, m), k));
  }

  /** Larger files are dealt first, and files of one size in the order of their paths. */
  lemma OrderDescends(paths: seq<string>, size: string -> nat)
    ensures Descending(Weights(Order(paths, size), size))
    ensures var order := Order(paths, size);
            && multiset(order) == multiset(paths)
            && forall i, j :: 0 <= i < j < |order| ==>
                 size(order[i]) > size(order[j]) ||
                 (size(order[i]) == size(order[j]) && Text.LexLe(order[i], order[j]))
  {
    HeavierFirstIsLinear(size);
    Sorting.SortAscending(HeavierFirst(size), paths);
    var order := Order(paths, size);
    forall i, j | 0 <= i < j < |order|
      ensures size(order[i]) > size(order[j]) ||
              (size(order[i]) == size(order[j]) && Text.LexLe(order[i], order[j]))
    {
      assert HeavierFirst(size)(order[i], order[j]);
    }
  }

  function Without<T>(s: seq<T>, i: nat): seq<T>
    requires i < |s|
  {
    s[..i] + s[i + 1..]
  }

  lemma WithoutInit<T>(s: seq<T>, i: nat)
    requires i < |s| - 1
    ensures Without(s, i)[..|s| - 2] == Without(s[..|s| - 1], i) && Without(s, i)[|s| - 2] == s[|s| - 1]
  {
  }

  lemma {:induction false} LoadWithout(ws: seq<nat>, at: seq<nat>, i: nat, k: nat)
    requires |ws| == |at| && i < |ws|
    ensures LoadOf(ws, at, k) == LoadOf(Without(ws, i), Without(at, i), k) + if at[i] == k then ws[i] else 0
  {
    var n := |ws| - 1;
    if i == n {
      assert Without(ws, i) == ws[..n] && Without(at, i) == at[..n];
    } else {
      var w, a := Without(ws, i), Without(at, i);
      LoadWithout(ws[..n], at[..n], i, k);
      WithoutInit(ws, i);
      WithoutInit(at, i);
      assert LoadOf(w, a, k) == LoadOf(w[..n - 1], a[..n - 1], k) + if a[n - 1] == k then w[n - 1] else 0;
    }
  }

  /** An assignment of a list carries over to any permutation of it, with the same loads. */
  lemma {:induction false} Carry(xs: seq<string>, ys: seq<string>, size: string -> nat, at: seq<nat>, bins: nat)
    returns (bt: seq<nat>)
    requires multiset(xs) == multiset(ys) && Assigns(at, |xs|, bins)
    ensures Assigns(bt, |ys|, bins)
    ensures |xs| == |ys|
    ensures forall k :: LoadOf(Weights(xs, size), at, k) == LoadOf(Weights(ys, size), bt, k)
    decreases |ys|
  {
    assert |multiset(xs)| == |multiset(ys)|;
    if ys == [] {
      bt := [];
    } else {
      var n := |ys| - 1;
      assert ys[n] in multiset(xs);
      var i :| 0 <= i < |xs| && xs[i] == ys[n];
      MultisetWithout(xs, i);
      MultisetWithout(ys, n);
      assert Without(ys, n) == ys[..n];
      var bt' := Carry(Without(xs, i), ys[..n], size, Without(at, i), bins);
      bt := bt' + [at[i]];
      forall k: nat ensures LoadOf(Weights(xs, size), at, k) == LoadOf(Weights(ys, size), bt, k) {
        CarryOne(xs, ys, size, at, bt', i, k);
      }
    }
  }

  lemma MultisetWithout(xs: seq<string>, i: nat)
    requires i < |xs|
    ensures multiset(Without(xs, i)) == multiset(xs) - multiset{xs[i]}
  {
    assert xs == xs[..i] + [xs[i]] + xs[i + 1..];
  }

  lemma CarryOne(xs: seq<string>, ys: seq<string>, size: string -> nat, at: seq<nat>, bt: seq<nat>, i: nat, k: nat)
    requires |xs| == |ys| == |at| && i < |xs| && |bt| == |ys| - 1 && xs[i] == ys[|ys| - 1]
    requires LoadOf(Weights(Without(xs, i), size), Without(at, i), k) ==
             LoadOf(Weights(ys[..|ys| - 1], size), bt, k)
    ensures LoadOf(Weights(xs, size), at, k) == LoadOf(Weights(ys, size), bt + [at[i]], k)
  {
    var n := |ys| - 1;
    var wx, wy := Weights(xs, size), Weights(ys, size);
    assert Weights(Without(xs, i), size) == Without(wx, i);
    assert Weights(ys[..n], size) == wy[..n] && wy == wy[..n] + [size(ys[n])];
    LoadWithout(wx, at, i, k);
    LoadOfSnoc(wy[..n], bt, size(ys[n]), at[i], k);
  }

  /**
   No shard carries more than 4/3 - 1/(3m) times the largest load of any rival way to deal the same files,
   in whatever order, to as many shards as there are workers.
   */
  lemma LoadIsNearOptimal(paths: seq<string>, size: string -> nat, workers: nat, rival: seq<nat>, opt: nat, k: nat)
    requires 0 < workers && paths != [] && k < ShardCount(workers, |paths|)
    requires Assigns(rival, |paths|, workers) && LoadsAtMost(Weights(paths, size), rival, workers, opt)
    ensures var m := ShardCount(workers, |paths|);
            3 * m * ShardLoad(paths, size, m, k) <= (4 * m - 1) * opt
  {
    var m := ShardCount(workers, |paths|);
    var order := Order(paths, size);
    var carried := Carry(paths, order, size, rival, workers);
    var ws := Weights(order, size);
    assert LoadsAtMost(ws, carried, workers, opt);
    OrderDescends(paths, size);
    if m == workers {
      LongestFirstBound(ws, m, carried, opt, k);
    } else {
      FewItemsFit(ws, m, carried, workers, opt, k);
      NoWorseIsWithinBound(m, ShardLoad(paths, size, m, k), opt);
    }
  }

  /** The result depends only on which files there are, not on the order in which they were listed. */
  lemma InputOrderIsIrrelevant(paths: seq<string>, other: seq<string>, size: string -> nat, m: nat, k: nat)
    requires 0 < m && multiset(paths) == multiset(other)
    ensures ShardPaths(paths, size, m, k) == ShardPaths(other, size, m, k)
    ensures ShardLoad(paths, size, m, k) == ShardLoad(other, size, m, k)
  {
    HeavierFirstIsLinear(size);
    Sorting.SortIgnoresInputOrder(HeavierFirst(size), paths, other);
  }

  lemma {:induction false} BytesConcat(a: seq<string>, b: seq<string>, size: string -> nat)
    ensures Bytes(a + b, size) == Bytes(a, size) + Bytes(b, size)
  {
    if a == [] {
      assert a + b == b;
    } else {
      assert (a + b)[1..] == a[1..] + b;
      BytesConcat(a[1..], b, size);
    }
  }

  lemma {:induction false} BytesInsert(le: (string, string) -> bool, x: string, s: seq<string>, size: string -> nat)
    ensures Bytes(Sorting.Insert(le, x, s), size) == size(x) + Bytes(s, size)
  {
    if s == [] || le(x, s[0]) {
      assert ([x] + s)[1..] == s;
    } else {
      BytesInsert(le, x, s[1..], size);
      assert ([s[0]] + Sorting.Insert(le, x, s[1..]))[1..] == Sorting.Insert(le, x, s[1..]);
    }
  }

  lemma {:induction false} BytesSort(le: (string, string) -> bool, s: seq<string>, size: string -> nat)
    ensures Bytes(Sorting.Sort(le, s), size) == Bytes(s, size)
  {
    if s != [] {
      BytesSort(le, s[1..], size);
      BytesInsert(le, s[0], Sorting.Sort(le, s[1..]), size);
    }
  }

  lemma {:induction false} BytesAt(files: seq<string>, at: seq<nat>, size: string -> nat, k: nat)
    requires |files| == |at|
    ensures Bytes(FilesAt(files, at, k), size) == LoadOf(Weights(files, size), at, k)
  {
    if files != [] {
      var n := |files| - 1;
      BytesAt(files[..n], at[..n], size, k);
      assert Weights(files, size)[..n] == Weights(files[..n], size);
      BytesConcat(FilesAt(files[..n], at[..n], k), if at[n] == k then [files[n]] else [], size);
    }
  }

  /** The byte count a shard records is the size of the files it holds. */
  lemma RecordedLoadIsExact(paths: seq<string>, size: string -> nat, m: nat, k: nat)
    requires 0 < m
    ensures ShardLoad(paths, size, m, k) == Bytes(ShardPaths(paths, size, m, k), size)
  {
    var order, at := Order(paths, size), Placement(paths, size, m);
    BytesSort(Text.LexLe, FilesAt(order, at, k), size);
    BytesAt(order, at, size, k);
  }

  /** All files held by shards 0 .. m-1. */
  ghost function Held(files: seq<string>, at: seq<nat>, m: nat): multiset<string>
    requires |files| == |at|
  {
    if m == 0 then multiset{} else Held(files, at, m - 1) + multiset(FilesAt(files, at, m - 1))
  }

  ghost function OneIf<T>(p: bool, x: T): multiset<T> {
    if p then multiset{x} else multiset{}
  }

  lemma {:induction false} HeldSnoc(files: seq<string>, at: seq<nat>, m: nat)
    requires |files| == |at| > 0
    ensures var n := |files| - 1; Held(files, at, m) == Held(files[..n], at[..n], m) + OneIf(at[n] < m, files[n])
  {
    var n := |files| - 1;
    if m > 0 {
      HeldSnoc(files, at, m - 1);
      FilesAtSnoc(files, at, m - 1);
      AddAlike(Held(files, at, m - 1), Held(files[..n], at[..n], m - 1), multiset(FilesAt(files, at, m - 1)),
               multiset(FilesAt(files[..n], at[..n], m - 1)), files[n], at[n] < m - 1, at[n] == m - 1);
    }
  }

  lemma AddAlike<T>(a: multiset<T>, a': multiset<T>, b: multiset<T>, b': multiset<T>, x: T, p: bool, q: bool)
    requires a == a' + OneIf(p, x) && b == b' + OneIf(q, x) && !(p && q)
    ensures a + b == a' + b' + OneIf(p || q, x)
  {
  }

  lemma FilesAtSnoc(files: seq<string>, at: seq<nat>, k: nat)
    requires |files| == |at| > 0
    ensures var n := |files| - 1;
            multiset(FilesAt(files, at, k)) == multiset(FilesAt(files[..n], at[..n], k)) + OneIf(at[n] == k, files[n])
  {
  }

  lemma {:induction false} HeldNothing(m: nat)
    ensures Held([], [], m) == multiset{}
  {
    if m > 0 {
      HeldNothing(m - 1);
    }
  }

  lemma {:induction false} HeldIsEverything(files: seq<string>, at: seq<nat>, m: nat)
    requires Assigns(at, |files|, m)
    ensures Held(files, at, m) == multiset(files)
  {
    if files == [] {
      HeldNothing(m);
    } else {
      var n := |files| - 1;
      HeldSnoc(files, at, m);
      HeldIsEverything(files[..n], at[..n], m);
      assert files == files[..n] + [files[n]];
    }
  }

  ghost function Together(parts: seq<seq<string>>): multiset<string> {
    if parts == [] then multiset{} else Together(parts[..|parts| - 1]) + multiset(parts[|parts| - 1])
  }

  lemma {:induction false} TogetherIsHeld(parts: seq<seq<string>>, files: seq<string>, at: seq<nat>)
    requires |files| == |at|
    requires forall k :: 0 <= k < |parts| ==> multiset(parts[k]) == multiset(FilesAt(files, at, k))
    ensures Together(parts) == Held(files, at, |parts|)
  {
    if parts != [] {
      var n := |parts| - 1;
      forall k | 0 <= k < n ensures multiset(parts[..n][k]) == multiset(FilesAt(files, at, k)) {
        assert parts[..n][k] == parts[k];
      }
      TogetherIsHeld(parts[..n], files, at);
      LastPart(parts, files, at);
    }
  }

  lemma LastPart(parts: seq<seq<string>>, files: seq<string>, at: seq<nat>)
    requires |files| == |at| && parts != []
    requires multiset(parts[|parts| - 1]) == multiset(FilesAt(files, at, |parts| - 1))
    requires Together(parts[..|parts| - 1]) == Held(files, at, |parts| - 1)
    ensures Together(parts) == Held(files, at, |parts|)
  {
  }

  /** Every file is in exactly one shard: together the shards hold the input, with its multiplicities. */
  lemma ShardsPartitionInput(paths: seq<string>, size: string -> nat, parts: seq<seq<string>>)
    requires parts != [] && forall k :: 0 <= k < |parts| ==> parts[k] == ShardPaths(paths, size, |parts|, k)
    ensures Together(parts) == multiset(paths)
  {
    var order, at := Order(paths, size), Placement(paths, size, |parts|);
    TogetherIsHeld(parts, order, at);
    HeldIsEverything(order, at, |parts|);
  }

  lemma OrderKeepsFiles(paths: seq<string>, size: string -> nat, i: nat)
    requires i < |paths|
    ensures Order(paths, size)[i] in paths
  {
    assert Order(paths, size)[i] in multiset(Order(paths, size));
  }

  /** Any two shards differ by at most the largest file. */
  lemma ShardsAreBalanced(paths: seq<string>, size: string -> nat, m: nat, largest: nat, j: nat, k: nat)
    requires j < m && k < m && forall p :: p in paths ==> size(p) <= largest
    ensures ShardLoad(paths, size, m, j) <= ShardLoad(paths, size, m, k) + largest
  {
    var ws := Weights(Order(paths, size), size);
    forall i | 0 <= i < |ws| ensures ws[i] <= largest {
      OrderKeepsFiles(paths, size, i);
    }
    GreedySpread(ws, m, largest, j, k);
  }

  /** If no file is empty, no shard is. */
  lemma NoShardIsEmpty(paths: seq<string>, size: string -> nat, workers: nat, k: nat)
    requires 0 < workers && k < ShardCount(workers, |paths|)
    requires forall p :: p in paths ==> 0 < size(p)
    ensures ShardPaths(paths, size, ShardCount(workers, |paths|), k) != []
  {
    var m := ShardCount(workers, |paths|);
    var ws := Weights(Order(paths, size), size);
    forall i | 0 <= i < |ws| ensures 0 < ws[i] {
      OrderKeepsFiles(paths, size, i);
    }
    GreedyUsesEveryBin(ws, m, k);
    RecordedLoadIsExact(paths, size, m, k);
  }
}
