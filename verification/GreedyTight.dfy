/** Graham's bound is attained on every number of bins: sizes 2m-1, 2m-1, ..., m+1, m+1, m, m, m. */
module GreedyTight {
  import opened GreedyLoad

  /** The first `n` weights: two of each from 2m-1 downwards, and at the very end a third m. */
  function Pairs(m: nat, n: nat): (ws: seq<nat>)
    requires 0 < m && n <= 2 * m + 1
    ensures |ws| == n && forall i :: 0 <= i < n ==> ws[i] == Weight(m, i)
  {
    seq(n, i requires 0 <= i < n => Weight(m, i))
  }

  function Weight(m: nat, i: nat): (w: nat)
    requires 0 < m && i <= 2 * m
    ensures m <= w
  {
    if i < 2 * m then 2 * m - 1 - i / 2 else m
  }

  /** The first `n` indices folded in the middle: `i` goes to the bin of `n - 1 - i`. */
  function Folded(n: nat): (at: seq<nat>)
    ensures |at| == n && forall i :: 0 <= i < n ==> at[i] == if i < n - 1 - i then i else n - 1 - i
  {
    seq(n, i requires 0 <= i < n => if i < n - 1 - i then i else n - 1 - i)
  }

  lemma PairsDescend(m: nat, n: nat)
    requires 0 < m && n <= 2 * m + 1
    ensures Descending(Pairs(m, n))
  {
  }

  // ---------- loads of small bins ----------

  lemma {:induction false} NoneInBin(ws: seq<nat>, at: seq<nat>, k: nat)
    requires |ws| == |at| && forall x :: 0 <= x < |at| ==> at[x] != k
    ensures LoadOf(ws, at, k) == 0
  {
    if ws != [] {
      NoneInBin(ws[..|ws| - 1], at[..|ws| - 1], k);
    }
  }

  lemma {:induction false} OneInBin(ws: seq<nat>, at: seq<nat>, k: nat, i: nat)
    requires |ws| == |at| && i < |ws| && forall x :: 0 <= x < |at| ==> (at[x] == k <==> x == i)
    ensures LoadOf(ws, at, k) == ws[i]
  {
    var n := |ws| - 1;
    if i == n {
      NoneInBin(ws[..n], at[..n], k);
    } else {
      OneInBin(ws[..n], at[..n], k, i);
    }
  }

  lemma {:induction false} TwoInBin(ws: seq<nat>, at: seq<nat>, k: nat, i: nat, j: nat)
    requires |ws| == |at| && i < j < |ws| && forall x :: 0 <= x < |at| ==> (at[x] == k <==> x == i || x == j)
    ensures LoadOf(ws, at, k) == ws[i] + ws[j]
  {
    var n := |ws| - 1;
    if j == n {
      OneInBin(ws[..n], at[..n], k, i);
    } else {
      TwoInBin(ws[..n], at[..n], k, i, j);
    }
  }

  /** An even number of weights, folded, loads every bin with two of them. */
  lemma FoldedLoad(m: nat, bins: nat, k: nat)
    requires 0 < m && k < bins <= m
    ensures LoadOf(Pairs(m, 2 * bins), Folded(2 * bins), k) == 4 * m - 1 - bins
  {
    var n := 2 * bins;
    TwoInBin(Pairs(m, n), Folded(n), k, k, n - 1 - k);
    assert k / 2 + (n - 1 - k) / 2 == bins - 1;
  }

  // ---------- greedy ----------

  lemma {:induction false} HeavyLoadsFit(ws: seq<nat>, m: nat, rival: seq<nat>, opt: nat, k: nat)
    requires 0 < m && k < m && Descending(ws) && forall i :: 0 <= i < |ws| ==> opt < 3 * ws[i]
    requires Assigns(rival, |ws|, m) && LoadsAtMost(ws, rival, m, opt)
    ensures LoadOf(ws, Greedy(ws, m), k) <= opt
  {
    if ws != [] {
      var n := |ws| - 1;
      var before := Greedy(ws[..n], m);
      assert ws[..n] + [ws[n]] == ws;
      LoadOfSnoc(ws[..n], before, ws[n], LeastLoaded(ws[..n], before, m), k);
      HeavyItemsFit(ws, m, rival, opt);
      RivalPrefix(ws, rival, m, opt);
      HeavyLoadsFit(ws[..n], m, rival[..n], opt, k);
    }
  }

  /** Bins that hold at most `c`, and together `m` times `c`, hold `c` each. */
  lemma {:induction false} FullBins(ws: seq<nat>, at: seq<nat>, m: nat, c: nat, k: nat)
    requires |ws| == |at| && k < m && (forall j :: 0 <= j < m ==> LoadOf(ws, at, j) <= c)
             && LoadBelow(ws, at, m) == m * c
    ensures LoadOf(ws, at, k) == c
  {
    LoadBelowBounds(ws, at, m - 1, 0, c);
    assert m * c == (m - 1) * c + c;
    if k < m - 1 {
      FullBins(ws, at, m - 1, c, k);
    }
  }

  /** Before the last weight, greedy has filled all bins alike. */
  lemma GreedyFillsAlike(m: nat, k: nat)
    requires k < m
    ensures LoadOf(Pairs(m, 2 * m), Greedy(Pairs(m, 2 * m), m), k) == 3 * m - 1
  {
    var ws, rival, c := Pairs(m, 2 * m), Folded(2 * m), 3 * m - 1;
    var at := Greedy(ws, m);
    forall j | 0 <= j < m ensures LoadOf(ws, rival, j) == c {
      FoldedLoad(m, m, j);
    }
    PairsDescend(m, 2 * m);
    forall j | 0 <= j < m ensures LoadOf(ws, at, j) <= c {
      HeavyLoadsFit(ws, m, rival, c, j);
    }
    LoadBelowBounds(ws, rival, m, c, c);
    LoadsAddUp(ws, rival, m);
    LoadsAddUp(ws, at, m);
    FullBins(ws, at, m, c, k);
  }

  // ---------- the rival ----------

  /** All but the last three weights in folded pairs, and those three together. */
  function Rival(m: nat): (at: seq<nat>)
    requires 0 < m
    ensures |at| == 2 * m + 1 && Assigns(at, 2 * m + 1, m)
  {
    Folded(2 * (m - 1)) + [m - 1, m - 1, m - 1]
  }

  lemma RivalLoad(m: nat, k: nat)
    requires k < m
    ensures LoadOf(Pairs(m, 2 * m + 1), Rival(m), k) == 3 * m
  {
    var n, at := 2 * (m - 1), Rival(m);
    var ws := Pairs(m, 2 * m + 1);
    assert ws[..n] == Pairs(m, n) && at[..n] == Folded(n);
    if k < m - 1 {
      FoldedLoad(m, m - 1, k);
    } else {
      NoneInBin(ws[..n], at[..n], k);
    }
    LastThree(ws, at, k);
  }

  lemma LastThree(ws: seq<nat>, at: seq<nat>, k: nat)
    requires |ws| == |at| >= 3
    ensures var n := |ws| - 3;
            LoadOf(ws, at, k) == LoadOf(ws[..n], at[..n], k) + (if at[n] == k then ws[n] else 0)
                                 + (if at[n + 1] == k then ws[n + 1] else 0) + if at[n + 2] == k then ws[n + 2] else 0
  {
    LastOne(ws, at, k, |ws|);
    LastOne(ws, at, k, |ws| - 1);
    LastOne(ws, at, k, |ws| - 2);
    assert ws[..|ws|] == ws && at[..|at|] == at;
  }

  lemma LastOne(ws: seq<nat>, at: seq<nat>, k: nat, n: nat)
    requires |ws| == |at| && 0 < n <= |ws|
    ensures LoadOf(ws[..n], at[..n], k) == LoadOf(ws[..n - 1], at[..n - 1], k) + if at[n - 1] == k then ws[n - 1] else 0
  {
    assert ws[..n][..n - 1] == ws[..n - 1] && at[..n][..n - 1] == at[..n - 1];
  }

  /**
   The bound cannot be improved for any number of bins: on these weights some greedy bin reaches 4m - 1, against
   bins of 3m in the rival assignment.
   */
  lemma BoundIsAttained(m: nat) returns (k: nat)
    requires 0 < m
    ensures var ws := Pairs(m, 2 * m + 1);
            && Descending(ws) && Assigns(Rival(m), |ws|, m) && LoadsAtMost(ws, Rival(m), m, 3 * m)
            && k < m && 3 * m * LoadOf(ws, Greedy(ws, m), k) == (4 * m - 1) * (3 * m)
  {
    var before, ws := Pairs(m, 2 * m), Pairs(m, 2 * m + 1);
    assert ws == before + [m];
    PairsDescend(m, 2 * m + 1);
    forall j | 0 <= j < m ensures LoadOf(ws, Rival(m), j) <= 3 * m {
      RivalLoad(m, j);
    }
    k := LeastLoaded(before, Greedy(before, m), m);
    GreedyFillsAlike(m, k);
    GreedyStep(before, m, m, Greedy(before, m));
    assert LoadOf(ws, Greedy(ws, m), k) == 4 * m - 1;
  }
}
