/** Chains of cursor-linked pages, whatever a page looks like. */
module CursorChain {
  import opened Wrappers
  import opened Json

  /** How to read a page: whether it is a good answer for a cursor, and the cursor it hands over to. */
  datatype Reader = Reader(ok: (Json, Json) -> bool, next: Json -> Json)

  datatype Verdict = Accepted | HeaderInvalid | NotEmpty | TrailingPages | CursorInvalid | Incomplete

  predicate UsableCursor(c: Json) {
    c.Str? && c.s != ""
  }

  /** The cursor under which page `i` is asked for. */
  function CursorAt(r: Reader, pages: seq<Json>, i: nat): Json
    requires i <= |pages|
  {
    if i == 0 then Null else r.next(pages[i - 1])
  }

  /** Page `i` is a good answer for the cursor it should have been asked under. */
  predicate GoodAt(r: Reader, pages: seq<Json>, i: nat)
    requires i < |pages|
  {
    r.ok(pages[i], CursorAt(r, pages, i))
  }

  /** The first `k` pages are good and hand over to one another under cursors never used before. */
  ghost predicate Linked(r: Reader, pages: seq<Json>, k: nat)
    requires k <= |pages|
  {
    && (forall i {:trigger GoodAt(r, pages, i)} :: 0 <= i < k ==> GoodAt(r, pages, i))
    && (forall i :: 0 < i <= k ==> UsableCursor(CursorAt(r, pages, i)))
    && (forall i, j :: 0 < i < j <= k ==> CursorAt(r, pages, i) != CursorAt(r, pages, j))
  }

  /** A complete listing: every page linked to the next, and the last one without a cursor. */
  ghost predicate CompleteChain(r: Reader, pages: seq<Json>) {
    && pages != [] && Linked(r, pages, |pages| - 1)
    && GoodAt(r, pages, |pages| - 1) && CursorAt(r, pages, |pages|).Null?
  }

  /** What a rejection after `k` good pages means. */
  ghost predicate FaultAt(r: Reader, pages: seq<Json>, k: nat, verdict: Verdict)
  {
    && k <= |pages| && Linked(r, pages, k)
    && match verdict
       case NotEmpty => k < |pages| && !GoodAt(r, pages, k)
       case TrailingPages =>
         k + 1 < |pages| && GoodAt(r, pages, k) && CursorAt(r, pages, k + 1).Null?
       case CursorInvalid =>
         k < |pages| && GoodAt(r, pages, k)
         && var next := CursorAt(r, pages, k + 1);
            next != Null && (!UsableCursor(next) || exists i :: 0 < i <= k && CursorAt(r, pages, i) == next)
       case Incomplete => k == |pages|
       case _ => false
  }

  /** The loop over the recorded pages: accepts exactly the complete chains, or names the first broken link. */
  method CheckPages(r: Reader, pages: seq<Json>) returns (verdict: Verdict)
    requires pages != []
    ensures verdict.Accepted? <==> CompleteChain(r, pages)
    ensures !verdict.Accepted? ==> exists k :: FaultAt(r, pages, k, verdict)
  {
    var cursor, seen: set<Json> := Null, {};
    for index := 0 to |pages|
      invariant cursor == CursorAt(r, pages, index)
      invariant seen == set i | 0 < i <= index :: CursorAt(r, pages, i)
      invariant Linked(r, pages, index)
    {
      if !r.ok(pages[index], cursor) {
        assert !GoodAt(r, pages, index);
        verdict := NotEmpty;
        assert FaultAt(r, pages, index, verdict);
        FaultsBreakChains(r, pages, index, verdict);
        return;
      }
      cursor := r.next(pages[index]);
      assert cursor == CursorAt(r, pages, index + 1);
      if cursor.Null? {
        if index != |pages| - 1 {
          verdict := TrailingPages;
          assert FaultAt(r, pages, index, verdict);
          FaultsBreakChains(r, pages, index, verdict);
          return;
        }
        return Accepted;
      } else if !UsableCursor(cursor) || cursor in seen {
        verdict := CursorInvalid;
        assert FaultAt(r, pages, index, verdict);
        FaultsBreakChains(r, pages, index, verdict);
        return;
      } else {
        seen := seen + {cursor};
      }
    }
    verdict := Incomplete;
    assert FaultAt(r, pages, |pages|, verdict);
    FaultsBreakChains(r, pages, |pages|, verdict);
  }

  lemma FaultsBreakChains(r: Reader, pages: seq<Json>, k: nat, verdict: Verdict)
    requires FaultAt(r, pages, k, verdict)
    ensures !CompleteChain(r, pages)
  {
    if verdict.CursorInvalid? {
      var next := CursorAt(r, pages, k + 1);
    }
  }

  // ---------- walking a listing ----------

  /** A live listing by cursor: the endpoints of the page at a cursor, and the cursor of the page after it. */
  datatype Listing = Listing(endpoints: Json -> seq<Json>, next: Json -> Json)

  /** All endpoints from `cursor` on; None when the listing does not end within `fuel` pages. */
  ghost function Walk(l: Listing, cursor: Json, fuel: nat): Option<seq<Json>>
    decreases fuel
  {
    if fuel == 0 then None
    else if l.next(cursor).Null? then Some(l.endpoints(cursor))
    else
      var rest := Walk(l, l.next(cursor), fuel - 1);
      if rest.None? then None else Some(l.endpoints(cursor) + rest.value)
  }

  /** Good pages report the listing truly, as far as cursors go, and report no endpoints only where there are none. */
  ghost predicate Reports(r: Reader, pages: seq<Json>, l: Listing) {
    forall i, cursor {:trigger r.ok(pages[i], cursor)} :: 0 <= i < |pages| && r.ok(pages[i], cursor) ==>
      r.next(pages[i]) == l.next(cursor) && l.endpoints(cursor) == []
  }

  lemma {:induction false} ChainIsWalked(r: Reader, pages: seq<Json>, l: Listing, i: nat, fuel: nat)
    requires CompleteChain(r, pages) && Reports(r, pages, l)
    requires i < |pages| && fuel >= |pages| - i
    ensures Walk(l, CursorAt(r, pages, i), fuel) == Some([])
    decreases |pages| - i
  {
    assert GoodAt(r, pages, i);
    assert r.ok(pages[i], CursorAt(r, pages, i));
    assert l.endpoints(CursorAt(r, pages, i)) == [];
    assert l.next(CursorAt(r, pages, i)) == CursorAt(r, pages, i + 1);
    if i + 1 < |pages| {
      assert UsableCursor(CursorAt(r, pages, i + 1));
      ChainIsWalked(r, pages, l, i + 1, fuel - 1);
      var none: seq<Json> := [];
      assert none + none == none;
    }
  }

  // ---------- recording a listing ----------

  /** From `cursor` the listing ends after `n` pages, under usable cursors and with good pages only. */
  ghost predicate EndsAfter(good: Json -> bool, l: Listing, cursor: Json, n: nat)
    decreases n
  {
    && n > 0 && good(cursor)
    && var next := l.next(cursor);
       if n == 1 then next.Null? else UsableCursor(next) && EndsAfter(good, l, next, n - 1)
  }

  /** The pages of a listing from `cursor` on, each as `page` writes it down. */
  function Record(page: Json -> Json, l: Listing, cursor: Json, n: nat): (pages: seq<Json>)
    ensures |pages| == n
    decreases n
  {
    if n == 0 then [] else [page(cursor)] + Record(page, l, l.next(cursor), n - 1)
  }

  /** A cursor stands at one distance from the end only, so an ending listing repeats no cursor. */
  lemma {:induction false} DistanceIsUnique(good: Json -> bool, l: Listing, cursor: Json, m: nat, n: nat)
    requires EndsAfter(good, l, cursor, m) && EndsAfter(good, l, cursor, n)
    ensures m == n
    decreases m
  {
    if m > 1 && n > 1 {
      DistanceIsUnique(good, l, l.next(cursor), m - 1, n - 1);
    }
  }

  ghost predicate Writes(good: Json -> bool, l: Listing, page: Json -> Json, r: Reader) {
    forall c: Json :: (c.Null? || UsableCursor(c)) && good(c) ==> r.ok(page(c), c) && r.next(page(c)) == l.next(c)
  }

  lemma {:induction false} RecordedAt(good: Json -> bool, l: Listing, page: Json -> Json, r: Reader,
                                      cursor: Json, n: nat, i: nat)
    requires Writes(good, l, page, r) && EndsAfter(good, l, cursor, n) && (cursor.Null? || UsableCursor(cursor))
    requires i < n
    ensures var pages := Record(page, l, cursor, n);
            var c := if i == 0 then cursor else CursorAt(r, pages, i);
            && EndsAfter(good, l, c, n - i) && (i > 0 ==> UsableCursor(c))
            && r.ok(pages[i], c) && r.next(pages[i]) == l.next(c)
    decreases n
  {
    if i > 0 {
      var pages, rest := Record(page, l, cursor, n), Record(page, l, l.next(cursor), n - 1);
      RecordedAt(good, l, page, r, l.next(cursor), n - 1, i - 1);
      assert pages[i] == rest[i - 1];
      if i > 1 {
        assert pages[i - 1] == rest[i - 2];
      }
    }
  }

  lemma RecordIsComplete(good: Json -> bool, l: Listing, page: Json -> Json, r: Reader, n: nat)
    requires Writes(good, l, page, r) && EndsAfter(good, l, Null, n)
    ensures CompleteChain(r, Record(page, l, Null, n))
  {
    var pages := Record(page, l, Null, n);
    forall i | 0 <= i < n
      ensures EndsAfter(good, l, CursorAt(r, pages, i), n - i) && GoodAt(r, pages, i)
      ensures i > 0 ==> UsableCursor(CursorAt(r, pages, i))
    {
      RecordedAt(good, l, page, r, Null, n, i);
    }
    forall i, j | 0 < i < j < n ensures CursorAt(r, pages, i) != CursorAt(r, pages, j) {
      if CursorAt(r, pages, i) == CursorAt(r, pages, j) {
        DistanceIsUnique(good, l, CursorAt(r, pages, i), n - i, n - j);
      }
    }
    RecordedAt(good, l, page, r, Null, n, n - 1);
  }
}
