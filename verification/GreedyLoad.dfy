/**
 Greedy list scheduling on bare weights: what an assignment of weights to bins loads each bin with, the
 assignment that always picks the least-loaded bin, and how far that can be from any other assignment.
 */
module GreedyLoad {

  function Sum(ws: seq<nat>): nat {
    if ws == [] then 0 else Sum(ws[..|ws| - 1]) + ws[|ws| - 1]
  }

  ghost predicate Assigns(at: seq<nat>, n: nat, m: nat) {
    |at| == n && forall i :: 0 <= i < n ==> at[i] < m
  }

  /** Weight that the assignment `at` puts on bin `k`. */
  function LoadOf(ws: seq<nat>, at: seq<nat>, k: nat): nat
    requires |ws| == |at|
  {
    if ws == [] then 0
    else
      var n := |ws| - 1;
      LoadOf(ws[..n], at[..n], k) + if at[n] == k then ws[n] else 0
  }

  /** Combined load of bins 0 .. m-1. */
  ghost function LoadBelow(ws: seq<nat>, at: seq<nat>, m: nat): nat
    requires |ws| == |at|
  {
    if m == 0 then 0 else LoadBelow(ws, at, m - 1) + LoadOf(ws, at, m - 1)
  }

  /** Lowest bin among 0 .. m-1 carrying the least load: `min` with key (load, index). */
  function LeastLoaded(ws: seq<nat>, at: seq<nat>, m: nat): (k: nat)
    requires |ws| == |at| && 0 < m
    ensures k < m
    ensures forall j :: 0 <= j < m ==> LoadOf(ws, at, k) <= LoadOf(ws, at, j)
    ensures forall j :: 0 <= j < k ==> LoadOf(ws, at, k) < LoadOf(ws, at, j)
  {
    if m == 1 then 0
    else
      var k := LeastLoaded(ws, at, m - 1);
      if LoadOf(ws, at, m - 1) < LoadOf(ws, at, k) then m - 1 else k
  }

  /** Weights taken in order, each going to the bin that is least loaded at that moment. */
  function Greedy(ws: seq<nat>, m: nat): (at: seq<nat>)
    requires 0 < m
    ensures Assigns(at, |ws|, m)
  {
    if ws == [] then []
    else
      var n := |ws| - 1;
      var before := Greedy(ws[..n], m);
      before + [LeastLoaded(ws[..n], before, m)]
  }

  ghost predicate Descending(ws: seq<nat>) {
    forall i, j :: 0 <= i < j < |ws| ==> ws[i] >= ws[j]
  }

  ghost predicate LoadsAtMost(ws: seq<nat>, at: seq<nat>, m: nat, opt: nat)
    requires |ws| == |at|
  {
    forall k :: 0 <= k < m ==> LoadOf(ws, at, k) <= opt
  }

  lemma LoadOfSnoc(ws: seq<nat>, at: seq<nat>, w: nat, b: nat, k: nat)
    requires |ws| == |at|
    ensures LoadOf(ws + [w], at + [b], k) == LoadOf(ws, at, k) + if b == k then w else 0
  {
    assert (ws + [w])[..|ws|] == ws && (at + [b])[..|ws|] == at;
  }

  lemma {:induction false} LoadBelowSnoc(ws: seq<nat>, at: seq<nat>, m: nat)
    requires |ws| == |at| > 0
    ensures LoadBelow(ws, at, m) ==
            LoadBelow(ws[..|ws| - 1], at[..|ws| - 1], m) + if at[|ws| - 1] < m then ws[|ws| - 1] else 0
  {
    if m > 0 {
      LoadBelowSnoc(ws, at, m - 1);
    }
  }

  lemma {:induction false} LoadBelowEmpty(m: nat)
    ensures LoadBelow([], [], m) == 0
  {
    if m > 0 {
      LoadBelowEmpty(m - 1);
    }
  }

  /** Conservation: an assignment neither loses nor duplicates weight. */
  lemma {:induction false} LoadsAddUp(ws: seq<nat>, at: seq<nat>, m: nat)
    requires Assigns(at, |ws|, m)
    ensures LoadBelow(ws, at, m) == Sum(ws)
  {
    if ws == [] {
      LoadBelowEmpty(m);
    } else {
      LoadBelowSnoc(ws, at, m);
      LoadsAddUp(ws[..|ws| - 1], at[..|ws| - 1], m);
    }
  }

  lemma {:induction false} LoadBelowBounds(ws: seq<nat>, at: seq<nat>, m: nat, low: nat, high: nat)
    requires |ws| == |at|
    requires forall k :: 0 <= k < m ==> low <= LoadOf(ws, at, k) <= high
    ensures m * low <= LoadBelow(ws, at, m) <= m * high
  {
    if m > 0 {
      LoadBelowBounds(ws, at, m - 1, low, high);
      assert m * low == (m - 1) * low + low && m * high == (m - 1) * high + high;
    }
  }

  lemma {:induction false} ItemWithinLoad(ws: seq<nat>, at: seq<nat>, i: nat)
    requires |ws| == |at| && i < |ws|
    ensures ws[i] <= LoadOf(ws, at, at[i])
  {
    if i < |ws| - 1 {
      ItemWithinLoad(ws[..|ws| - 1], at[..|ws| - 1], i);
    }
  }

  // ---------- the case of heavy items: counting instead of adding ----------

  /** Item count per bin, with items heavier than `cut` counted twice. */
  ghost function Tally(ws: seq<nat>, cut: int): (ts: seq<nat>)
    ensures |ts| == |ws|
    ensures forall i :: 0 <= i < |ws| ==> ts[i] == if ws[i] > cut then 2 else 1
  {
    seq(|ws|, i requires 0 <= i < |ws| => if ws[i] > cut then 2 else 1)
  }

  lemma TallyPrefix(ws: seq<nat>, cut: int, n: nat)
    requires n <= |ws|
    ensures Tally(ws, cut)[..n] == Tally(ws[..n], cut)
  {
  }

  /** A bin of items weighing at least `q` each holds a tally of at most what its load allows. */
  lemma {:induction false} TallyCostsLoad(ws: seq<nat>, at: seq<nat>, k: nat, q: nat, opt: nat)
    requires |ws| == |at| && q <= opt < 3 * q
    requires forall i :: 0 <= i < |ws| ==> q <= ws[i]
    ensures var t := LoadOf(Tally(ws, opt - q), at, k); var load := LoadOf(ws, at, k);
            && (t == 1 ==> load >= q)
            && (t == 2 ==> load >= 2 * q || load > opt - q)
            && (t >= 3 ==> load > opt)
  {
    if ws != [] {
      var n := |ws| - 1;
      TallyPrefix(ws, opt - q, n);
      TallyCostsLoad(ws[..n], at[..n], k, q, opt);
    }
  }

  /** Conversely, a bin loaded beyond `opt - q` holds a tally of at least two. */
  lemma {:induction false} LoadNeedsTally(ws: seq<nat>, at: seq<nat>, k: nat, cut: nat)
    requires |ws| == |at|
    ensures var t := LoadOf(Tally(ws, cut), at, k);
            && (t == 0 ==> LoadOf(ws, at, k) == 0)
            && (t == 1 ==> LoadOf(ws, at, k) <= cut)
  {
    if ws != [] {
      var n := |ws| - 1;
      TallyPrefix(ws, cut, n);
      LoadNeedsTally(ws[..n], at[..n], k, cut);
    }
  }

  /**
   When every item outweighs a third of what a rival assignment needs per bin, greedy placement of the
   lightest, last item cannot exceed the rival: otherwise all m bins would already hold a tally of two,
   while the rival fits the whole tally, last item included, into two per bin.
   */
  lemma HeavyItemsFit(ws: seq<nat>, m: nat, rival: seq<nat>, opt: nat)
    requires 0 < m && ws != [] && Descending(ws)
    requires Assigns(rival, |ws|, m) && LoadsAtMost(ws, rival, m, opt)
    requires opt < 3 * ws[|ws| - 1]
    ensures var n := |ws| - 1; var before := Greedy(ws[..n], m);
            LoadOf(ws[..n], before, LeastLoaded(ws[..n], before, m)) + ws[n] <= opt
  {
    var n := |ws| - 1;
    var q := ws[n];
    var before := Greedy(ws[..n], m);
    ItemWithinLoad(ws, rival, n);
    var cut := opt - q;
    var all, part := Tally(ws, cut), Tally(ws[..n], cut);
    TallyPrefix(ws, cut, n);
    assert Sum(all) == Sum(part) + all[n];
    if LoadOf(ws[..n], before, LeastLoaded(ws[..n], before, m)) + q > opt {
      forall k | 0 <= k < m
        ensures LoadOf(all, rival, k) <= 2
        ensures 2 <= LoadOf(part, before, k) <= Sum(part)
      {
        LoadWithinSum(part, before, k);
        TallyCostsLoad(ws, rival, k, q, opt);
        LoadNeedsTally(ws[..n], before, k, cut);
      }
      LoadBelowBounds(all, rival, m, 0, 2);
      LoadsAddUp(all, rival, m);
      LoadBelowBounds(part, before, m, 2, Sum(part));
      LoadsAddUp(part, before, m);
    }
  }

  lemma {:induction false} LoadWithinSum(ws: seq<nat>, at: seq<nat>, k: nat)
    requires |ws| == |at|
    ensures LoadOf(ws, at, k) <= Sum(ws)
  {
    if ws != [] {
      LoadWithinSum(ws[..|ws| - 1], at[..|ws| - 1], k);
    }
  }

  /** The least load is at most the average. */
  lemma LeastIsBelowAverage(ws: seq<nat>, at: seq<nat>, m: nat)
    requires 0 < m && Assigns(at, |ws|, m)
    ensures m * LoadOf(ws, at, LeastLoaded(ws, at, m)) <= Sum(ws)
  {
    var least := LoadOf(ws, at, LeastLoaded(ws, at, m));
    forall k | 0 <= k < m ensures LoadOf(ws, at, k) <= Sum(ws) {
      LoadWithinSum(ws, at, k);
    }
    LoadBelowBounds(ws, at, m, least, Sum(ws));
    LoadsAddUp(ws, at, m);
  }

  lemma TimesMonotone(n: nat, a: nat, b: nat)
    requires a <= b
    ensures n * a <= n * b
  {
  }

  lemma LightItemBound(m: nat, before: nat, q: nat, total: nat, opt: nat)
    requires 0 < m && 3 * q <= opt && m * before + q <= total <= m * opt
    ensures 3 * m * (before + q) <= (4 * m - 1) * opt
  {
    var n := m - 1;
    var x, y, z := m * before, n * q, m * opt;
    var u, v := n * (3 * q), n * opt;
    TimesMonotone(n, 3 * q, opt);
    assert u == 3 * y;
    assert m * (before + q) == x + q + y;
    assert 3 * m * (before + q) == 3 * (m * (before + q));
    assert (4 * m - 1) * opt == 3 * z + v;
  }

  lemma NoWorseIsWithinBound(m: nat, load: nat, opt: nat)
    requires 0 < m && load <= opt
    ensures 3 * m * load <= (4 * m - 1) * opt
  {
    assert (3 * m) * load <= (3 * m) * opt;
    assert (4 * m - 1) * opt == (3 * m) * opt + (m - 1) * opt;
  }

  lemma RivalPrefix(ws: seq<nat>, rival: seq<nat>, m: nat, opt: nat)
    requires ws != [] && Assigns(rival, |ws|, m) && LoadsAtMost(ws, rival, m, opt)
    ensures LoadsAtMost(ws[..|ws| - 1], rival[..|ws| - 1], m, opt)
  {
    var w0, r0 := ws[..|ws| - 1], rival[..|ws| - 1];
    forall k | 0 <= k < m ensures LoadOf(w0, r0, k) <= opt {
      assert LoadOf(ws, rival, k) <= opt;
    }
  }

  /**
   Graham's bound for longest-processing-time-first: on descending weights no greedy bin exceeds
   4/3 - 1/(3m) times the largest bin of any rival assignment to the same m bins.
   */
  lemma {:induction false} LongestFirstBound(ws: seq<nat>, m: nat, rival: seq<nat>, opt: nat, k: nat)
    requires 0 < m && Descending(ws) && k < m
    requires Assigns(rival, |ws|, m) && LoadsAtMost(ws, rival, m, opt)
    ensures 3 * m * LoadOf(ws, Greedy(ws, m), k) <= (4 * m - 1) * opt
  {
    if ws == [] {
      NoWorseIsWithinBound(m, 0, opt);
    } else {
      var n := |ws| - 1;
      var before := Greedy(ws[..n], m);
      var target := LeastLoaded(ws[..n], before, m);
      LoadOfSnoc(ws[..n], before, ws[n], target, k);
      assert ws[..n] + [ws[n]] == ws;
      if target != k {
        RivalPrefix(ws, rival, m, opt);
        LongestFirstBound(ws[..n], m, rival[..n], opt, k);
      } else if opt < 3 * ws[n] {
        HeavyItemsFit(ws, m, rival, opt);
        NoWorseIsWithinBound(m, LoadOf(ws, Greedy(ws, m), k), opt);
      } else {
        LeastIsBelowAverage(ws[..n], before, m);
        LoadBelowBounds(ws, rival, m, 0, opt);
        LoadsAddUp(ws, rival, m);
        LightItemBound(m, LoadOf(ws[..n], before, k), ws[n], Sum(ws), opt);
      }
    }
  }

  lemma GreedyStep(ws: seq<nat>, w: nat, m: nat, at: seq<nat>)
    requires 0 < m && Greedy(ws, m) == at
    ensures Greedy(ws + [w], m) == at + [LeastLoaded(ws, at, m)]
    ensures forall k :: LoadOf(ws + [w], at + [LeastLoaded(ws, at, m)], k) ==
                        LoadOf(ws, at, k) + if LeastLoaded(ws, at, m) == k then w else 0
  {
    assert (ws + [w])[..|ws|] == ws;
    forall k: nat {
      LoadOfSnoc(ws, at, w, LeastLoaded(ws, at, m), k);
    }
  }

  /** Two greedy bins never differ by more than the heaviest item. */
  lemma {:induction false} GreedySpread(ws: seq<nat>, m: nat, heaviest: nat, j: nat, k: nat)
    requires 0 < m && j < m && k < m
    requires forall i :: 0 <= i < |ws| ==> ws[i] <= heaviest
    ensures LoadOf(ws, Greedy(ws, m), j) <= LoadOf(ws, Greedy(ws, m), k) + heaviest
  {
    if ws != [] {
      var n := |ws| - 1;
      var before := Greedy(ws[..n], m);
      var target := LeastLoaded(ws[..n], before, m);
      assert ws[..n] + [ws[n]] == ws;
      GreedyStep(ws[..n], ws[n], m, before);
      GreedySpread(ws[..n], m, heaviest, j, k);
    }
  }

  /** With fewer items than bins, the least-loaded bin is empty. */
  lemma FewItemsLeaveAnEmptyBin(ws: seq<nat>, at: seq<nat>, m: nat)
    requires Assigns(at, |ws|, m) && |ws| < m
    ensures LoadOf(ws, at, LeastLoaded(ws, at, m)) == 0
  {
    var most := Sum(ws);
    forall i | 0 <= i < |ws| ensures ws[i] <= most {
      ItemWithinLoad(ws, at, i);
      LoadWithinSum(ws, at, at[i]);
    }
    var ones := Tally(ws, most);
    SumOfOnes(ones);
    LeastIsBelowAverage(ones, at, m);
    var free := LeastLoaded(ones, at, m);
    MultipleBelow(m, LoadOf(ones, at, free));
    LoadNeedsTally(ws, at, free, most);
  }

  lemma MultipleBelow(m: nat, x: nat)
    requires m * x < m
    ensures x == 0
  {
    assert x > 0 ==> m * x == m + m * (x - 1);
  }

  lemma {:induction false} SumOfOnes(ones: seq<nat>)
    requires forall i :: 0 <= i < |ones| ==> ones[i] == 1
    ensures Sum(ones) == |ones|
  {
    if ones != [] {
      SumOfOnes(ones[..|ones| - 1]);
    }
  }

  /** With at least as many bins as items, greedy is no worse than any rival on any number of bins. */
  lemma {:induction false} FewItemsFit(ws: seq<nat>, m: nat, rival: seq<nat>, bins: nat, opt: nat, k: nat)
    requires 0 < m && |ws| <= m && k < m
    requires Assigns(rival, |ws|, bins) && LoadsAtMost(ws, rival, bins, opt)
    ensures LoadOf(ws, Greedy(ws, m), k) <= opt
  {
    if ws != [] {
      var n := |ws| - 1;
      var before := Greedy(ws[..n], m);
      assert ws[..n] + [ws[n]] == ws;
      GreedyStep(ws[..n], ws[n], m, before);
      FewItemsLeaveAnEmptyBin(ws[..n], before, m);
      ItemWithinLoad(ws, rival, n);
      RivalPrefix(ws, rival, bins, opt);
      FewItemsFit(ws[..n], m, rival[..n], bins, opt, k);
    }
  }

  lemma {:induction false} LoadBelowWithHole(ws: seq<nat>, at: seq<nat>, m: nat, k: nat)
    requires |ws| == |at| && k < m && LoadOf(ws, at, k) == 0
    requires forall j :: 0 <= j < m ==> LoadOf(ws, at, j) <= 1
    ensures LoadBelow(ws, at, m) < m
  {
    if k < m - 1 {
      LoadBelowWithHole(ws, at, m - 1, k);
    } else {
      LoadBelowBounds(ws, at, m - 1, 0, 1);
    }
  }

  /** While some bin is still empty, greedy has put at most one positive item anywhere. */
  lemma {:induction false} EmptyBinMeansOneEach(ws: seq<nat>, m: nat, k: nat, j: nat, most: nat)
    requires k < m && j < m && LoadOf(ws, Greedy(ws, m), k) == 0
    requires forall i :: 0 <= i < |ws| ==> 0 < ws[i] <= most
    ensures LoadOf(Tally(ws, most), Greedy(ws, m), j) <= 1
    ensures LoadOf(ws, Greedy(ws, m), j) == 0 ==> LoadOf(Tally(ws, most), Greedy(ws, m), j) == 0
  {
    if ws != [] {
      var n := |ws| - 1;
      var before := Greedy(ws[..n], m);
      assert ws[..n] + [ws[n]] == ws;
      GreedyStep(ws[..n], ws[n], m, before);
      TallyPrefix(ws, most, n);
      EmptyBinMeansOneEach(ws[..n], m, k, j, most);
    }
  }

  lemma GreedyUsesEveryBin(ws: seq<nat>, m: nat, k: nat)
    requires 0 < m <= |ws| && k < m
    requires forall i :: 0 <= i < |ws| ==> 0 < ws[i]
    ensures 0 < LoadOf(ws, Greedy(ws, m), k)
  {
    var at, most := Greedy(ws, m), Sum(ws);
    forall i | 0 <= i < |ws| ensures ws[i] <= most {
      ItemWithinLoad(ws, at, i);
      LoadWithinSum(ws, at, at[i]);
    }
    if LoadOf(ws, at, k) == 0 {
      var ones := Tally(ws, most);
      forall j | 0 <= j < m ensures LoadOf(ones, at, j) <= 1 {
        EmptyBinMeansOneEach(ws, m, k, j, most);
      }
      EmptyBinMeansOneEach(ws, m, k, k, most);
      LoadBelowWithHole(ones, at, m, k);
      LoadsAddUp(ones, at, m);
      SumOfOnes(ones);
    }
  }
}
