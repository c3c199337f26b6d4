/** `_close_accepted_activation_beads`: closing the work items of an accepted pool one by one, up to the first doubt. */
module BeadClosure {
  import opened Wrappers
  import Sorting

  datatype Task = Task(child: string, bead: string, ordinal: int)
  datatype Pair = Pair(child: string, bead: string)

  /** One child disposition of the pool receipt; a flag that is not a boolean is None. */
  datatype Disposition = Disposition(key: Pair, closeWork: Option<bool>, closeParent: Option<bool>,
                                     closePublication: Option<bool>)

  /** A claim receipt; `valid` is the verdict of the receipt validator. */
  datatype Claim = Claim(bead: string, actor: string, owned: bool, postShow: Option<string>, valid: bool)

  /** Lists as read from JSON: None for what is no list, and for an element that is no object. */
  datatype Reservation = Reservation(issueIds: seq<string>, claims: Option<seq<Option<Claim>>>, claimActor: string)

  /** Status of an issue as shown; other words are kept. */
  datatype Status = Open | Closed | Other(word: string)

  datatype CloseReply = Raises | Replies(valid: bool, receiptClosed: bool, closed: bool)

  /** The claim adapter: its actor, what each close request comes to, and the status each issue shows at the end. */
  datatype Adapter = Adapter(actor: string, close: string -> CloseReply, show: string -> Option<Status>)

  datatype Error =
    | DispositionsInvalid | DispositionInvalid | DispositionDuplicate(bead: string) | DispositionSetMismatch
    | AuthorizationInvalid(bead: string) | ReservationBindingInvalid | ClaimProofInvalid(bead: string)
    | CloseRaised(bead: string) | CloseReceiptInvalid(bead: string) | CloseUnproven(bead: string)
    | FinalShowFailed(bead: string) | EpicShowFailed

  datatype Closure = Closure(expected: seq<string>, attempted: seq<string>, unattempted: seq<string>,
                             receipts: seq<CloseReply>, errors: seq<Error>, finalStatus: map<string, Option<Status>>,
                             epicStatus: Option<Status>, allClosed: bool)

  function ByOrdinal(): (Task, Task) -> bool {
    (a: Task, b: Task) => a.ordinal <= b.ordinal
  }

  function Expected(tasks: seq<Task>): (r: seq<Pair>)
    ensures |r| == |tasks|
  {
    var ordered := Sorting.Sort(ByOrdinal(), tasks);
    seq(|ordered|, i requires 0 <= i < |ordered| => Pair(ordered[i].child, ordered[i].bead))
  }

  function Beads(pairs: seq<Pair>): (r: seq<string>)
    ensures |r| == |pairs| && forall i :: 0 <= i < |r| ==> r[i] == pairs[i].bead
  {
    seq(|pairs|, i requires 0 <= i < |pairs| => pairs[i].bead)
  }

  lemma ByOrdinalIsTotal()
    ensures Sorting.TotalPreorder(ByOrdinal())
  {
  }

  /** The tasks are taken in the order of their ordinals, each one once. */
  lemma ExpectedByOrdinal(tasks: seq<Task>) returns (ordered: seq<Task>)
    ensures multiset(ordered) == multiset(tasks) && |Expected(tasks)| == |ordered|
    ensures forall i, j :: 0 <= i < j < |ordered| ==> ordered[i].ordinal <= ordered[j].ordinal
    ensures forall i :: 0 <= i < |ordered| ==> Expected(tasks)[i] == Pair(ordered[i].child, ordered[i].bead)
  {
    ordered := Sorting.Sort(ByOrdinal(), tasks);
    ByOrdinalIsTotal();
    Sorting.SortAscending(ByOrdinal(), tasks);
    forall i, j | 0 <= i < j < |ordered| ensures ordered[i].ordinal <= ordered[j].ordinal {
      assert ByOrdinal()(ordered[i], ordered[j]);
    }
  }

  // ---------- what must match before anything is closed ----------

  predicate Authorized(d: Disposition) {
    d.closeWork == Some(true) && d.closeParent == Some(false) && d.closePublication == Some(false)
  }

  ghost predicate DistinctKeys(rows: seq<Option<Disposition>>) {
    forall i, j :: 0 <= i < j < |rows| && rows[i].Some? && rows[j].Some? ==> rows[i].value.key != rows[j].value.key
  }

  /** Exactly one disposition per expected child, each allowing the child's bead and nothing else to be closed. */
  ghost predicate DispositionsMatch(rows: Option<seq<Option<Disposition>>>, expected: seq<Pair>) {
    && rows.Some?
    && (forall i :: 0 <= i < |rows.value| ==> rows.value[i].Some?)
    && DistinctKeys(rows.value)
    && (forall i :: 0 <= i < |rows.value| ==> rows.value[i].value.key in expected && Authorized(rows.value[i].value))
    && (forall pair :: pair in expected ==> exists i :: 0 <= i < |rows.value| && rows.value[i].value.key == pair)
  }

  function Rows(m: map<Pair, Disposition>, expected: seq<Pair>, n: nat): seq<Error>
    requires n <= |expected|
  {
    if n == 0 then []
    else
      Rows(m, expected, n - 1) +
      if expected[n - 1] in m && !Authorized(m[expected[n - 1]])
      then [AuthorizationInvalid(expected[n - 1].bead)] else []
  }

  lemma {:induction false} RowsEmpty(m: map<Pair, Disposition>, expected: seq<Pair>, n: nat)
    requires n <= |expected|
    ensures Rows(m, expected, n) == [] <==> forall i :: 0 <= i < n && expected[i] in m ==> Authorized(m[expected[i]])
  {
    if n > 0 {
      RowsEmpty(m, expected, n - 1);
    }
  }

  /** What reading the first rows into the map has established. */
  ghost predicate ReadSoFar(rows: seq<Option<Disposition>>, m: map<Pair, Disposition>, errors: seq<Error>) {
    && (errors == [] <==> (forall i :: 0 <= i < |rows| ==> rows[i].Some?) && DistinctKeys(rows))
    && (forall key :: key in m <==> exists i :: 0 <= i < |rows| && rows[i].Some? && rows[i].value.key == key)
    && (forall key :: key in m ==> m[key].key == key && Some(m[key]) in rows)
  }

  method ReadRow(ghost before: seq<Option<Disposition>>, row: Option<Disposition>, m: map<Pair, Disposition>,
                 errors: seq<Error>)
    returns (m': map<Pair, Disposition>, errors': seq<Error>)
    requires ReadSoFar(before, m, errors)
    ensures ReadSoFar(before + [row], m', errors')
  {
    m', errors' := m, errors;
    ghost var after := before + [row];
    if row.None? {
      errors' := errors + [DispositionInvalid];
      assert after[|before|].None?;
      assert forall i :: 0 <= i < |before| ==> after[i] == before[i];
    } else {
      var key := row.value.key;
      if key in m {
        errors' := errors + [DispositionDuplicate(key.bead)];
      }
      m' := m[key := row.value];
      RowAdded(before, row, m, errors);
    }
  }

  lemma RowAdded(before: seq<Option<Disposition>>, row: Option<Disposition>, m: map<Pair, Disposition>,
                 errors: seq<Error>)
    requires row.Some? && ReadSoFar(before, m, errors)
    ensures var key := row.value.key;
            ReadSoFar(before + [row], m[key := row.value],
                      errors + if key in m then [DispositionDuplicate(key.bead)] else [])
  {
    var after, key := before + [row], row.value.key;
    assert forall i :: 0 <= i < |before| ==> after[i] == before[i];
    assert after[|before|] == row;
    if key in m {
      var i :| 0 <= i < |before| && before[i].Some? && before[i].value.key == key;
      assert after[i].value.key == after[|before|].value.key;
    }
    var m' := m[key := row.value];
    forall k | k in m' ensures exists i :: 0 <= i < |after| && after[i].Some? && after[i].value.key == k {
      if k != key {
        var i :| 0 <= i < |before| && before[i].Some? && before[i].value.key == k;
        assert after[i].value.key == k;
      }
    }
  }

  method CheckDispositions(rows: Option<seq<Option<Disposition>>>, expected: seq<Pair>) returns (errors: seq<Error>)
    ensures errors == [] <==> DispositionsMatch(rows, expected)
  {
    if rows.None? {
      return [DispositionsInvalid];
    }
    errors := [];
    var m: map<Pair, Disposition> := map[];
    for i := 0 to |rows.value|
      invariant ReadSoFar(rows.value[..i], m, errors)
    {
      m, errors := ReadRow(rows.value[..i], rows.value[i], m, errors);
      assert rows.value[..i] + [rows.value[i]] == rows.value[..i + 1];
    }
    assert rows.value[..|rows.value|] == rows.value;
    ghost var read := errors;
    if m.Keys != set pair | pair in expected {
      errors := errors + [DispositionSetMismatch];
    }
    errors := errors + Rows(m, expected, |expected|);
    MatchIff(rows.value, m, read, expected);
  }

  lemma MatchIff(rows: seq<Option<Disposition>>, m: map<Pair, Disposition>, errors: seq<Error>, expected: seq<Pair>)
    requires ReadSoFar(rows, m, errors)
    ensures DispositionsMatch(Some(rows), expected) <==>
            errors == [] && m.Keys == (set pair | pair in expected) && Rows(m, expected, |expected|) == []
  {
    RowsEmpty(m, expected, |expected|);
    if DispositionsMatch(Some(rows), expected) {
      MatchingRowsRead(rows, m, errors, expected);
    }
    if errors == [] && m.Keys == (set pair | pair in expected) && Rows(m, expected, |expected|) == [] {
      ReadRowsMatch(rows, m, errors, expected);
    }
  }

  lemma MatchingRowsRead(rows: seq<Option<Disposition>>, m: map<Pair, Disposition>, errors: seq<Error>,
                         expected: seq<Pair>)
    requires ReadSoFar(rows, m, errors) && DispositionsMatch(Some(rows), expected)
    ensures errors == [] && m.Keys == (set pair | pair in expected) && forall key :: key in m ==> Authorized(m[key])
  {
    forall key | key in m ensures key in expected && Authorized(m[key]) {
      var i :| 0 <= i < |rows| && rows[i] == Some(m[key]);
    }
    forall key | key in expected ensures key in m {
      var i :| 0 <= i < |rows| && rows[i].value.key == key;
    }
  }

  lemma ReadRowsMatch(rows: seq<Option<Disposition>>, m: map<Pair, Disposition>, errors: seq<Error>,
                      expected: seq<Pair>)
    requires ReadSoFar(rows, m, errors) && errors == [] && m.Keys == (set pair | pair in expected)
    requires forall i :: 0 <= i < |expected| && expected[i] in m ==> Authorized(m[expected[i]])
    ensures DispositionsMatch(Some(rows), expected)
  {
    forall i | 0 <= i < |rows| ensures rows[i].value.key in expected && Authorized(rows[i].value) {
      RowIsItsEntry(rows, m, errors, i);
      var j :| 0 <= j < |expected| && expected[j] == rows[i].value.key;
    }
    forall pair | pair in expected ensures exists i :: 0 <= i < |rows| && rows[i].value.key == pair {
      assert pair in m;
    }
  }

  lemma RowIsItsEntry(rows: seq<Option<Disposition>>, m: map<Pair, Disposition>, errors: seq<Error>, i: nat)
    requires ReadSoFar(rows, m, errors) && errors == [] && i < |rows|
    ensures rows[i].value.key in m && m[rows[i].value.key] == rows[i].value
  {
    var key := rows[i].value.key;
    assert key in m;
    var j :| 0 <= j < |rows| && rows[j] == Some(m[key]);
    assert i == j;
  }

  // ---------- claims ----------

  function ClaimBeads(claims: seq<Option<Claim>>): seq<string> {
    if claims == [] then []
    else
      var n := |claims| - 1;
      ClaimBeads(claims[..n]) + if claims[n].Some? then [claims[n].value.bead] else []
  }

  /** The claim a bead is looked up as: the last one naming it. */
  function ClaimFor(claims: seq<Option<Claim>>, bead: string): Option<Claim> {
    if claims == [] then None
    else
      var n := |claims| - 1;
      if claims[n].Some? && claims[n].value.bead == bead then claims[n] else ClaimFor(claims[..n], bead)
  }

  function ClaimList(r: Reservation): seq<Option<Claim>> {
    if r.claims.Some? then r.claims.value else []
  }

  ghost predicate Distinct(s: seq<string>) {
    forall i, j :: 0 <= i < j < |s| ==> s[i] != s[j]
  }

  predicate ClaimsBound(r: Reservation, beads: seq<string>, actor: string) {
    && r.issueIds == beads
    && ClaimBeads(ClaimList(r)) == beads
    && |set b | b in ClaimBeads(ClaimList(r))| == |beads|
    && r.claimActor == actor
  }

  lemma {:induction false} FullSizeMeansDistinct(s: seq<string>)
    requires |set b | b in s| == |s|
    ensures Distinct(s)
  {
    if s != [] {
      var n := |s| - 1;
      var front, all := set b | b in s[..n], set b | b in s;
      assert all == front + {s[n]};
      FrontSize(s[..n]);
      assert s[n] in front ==> all == front;
      if s[n] !in front {
        FullSizeMeansDistinct(s[..n]);
      }
    }
  }

  lemma {:induction false} FrontSize(s: seq<string>)
    ensures |set b | b in s| <= |s|
  {
    if s != [] {
      var n := |s| - 1;
      FrontSize(s[..n]);
      assert (set b | b in s) == (set b | b in s[..n]) + {s[n]};
    }
  }

  /** The binding checks leave no bead expected twice. */
  lemma BoundBeadsAreDistinct(r: Reservation, beads: seq<string>, actor: string)
    requires ClaimsBound(r, beads, actor)
    ensures Distinct(beads)
  {
    FullSizeMeansDistinct(beads);
  }

  lemma {:induction false} ClaimForSome(claims: seq<Option<Claim>>, bead: string)
    ensures bead in ClaimBeads(claims) <==> ClaimFor(claims, bead).Some?
    ensures ClaimFor(claims, bead).Some? ==> ClaimFor(claims, bead).value.bead == bead
  {
    if claims != [] {
      ClaimForSome(claims[..|claims| - 1], bead);
    }
  }

  predicate OwnedClaim(c: Claim, bead: string, actor: string) {
    c.valid && c.bead == bead && c.actor == actor && c.owned && c.postShow.Some?
  }

  // ---------- the closing loop ----------

  predicate Closes(reply: CloseReply) {
    reply.Replies? && reply.valid && reply.closed
  }

  predicate Owned(r: Reservation, bead: string, actor: string) {
    ClaimFor(ClaimList(r), bead).Some? && OwnedClaim(ClaimFor(ClaimList(r), bead).value, bead, actor)
  }

  /** Outcome of the loop over `beads`: the closes requested, the receipts kept, and the error that stopped it. */
  datatype Loop = Loop(attempted: seq<string>, receipts: seq<CloseReply>, errors: seq<Error>)

  /** Only owned beads are attempted, in order; all but the last are closed; without error, all are. */
  ghost predicate ClosedInOrder(loop: Loop, r: Reservation, beads: seq<string>, adapter: Adapter) {
    && loop.attempted <= beads
    && (forall b :: b in loop.attempted ==> Owned(r, b, adapter.actor))
    && |loop.receipts| <= |loop.attempted| <= |loop.receipts| + 1
    && (forall i :: 0 <= i < |loop.receipts| ==>
          loop.receipts[i] == adapter.close(loop.attempted[i]) && loop.receipts[i].Replies? && loop.receipts[i].valid)
    && (forall i :: 0 <= i < |loop.attempted| - 1 ==> i < |loop.receipts| && Closes(loop.receipts[i]))
    && (loop.errors == [] <==>
          forall i :: 0 <= i < |beads| ==> Owned(r, beads[i], adapter.actor) && Closes(adapter.close(beads[i])))
    && (loop.errors == [] ==> loop.attempted == beads && |loop.receipts| == |beads|)
    && |loop.errors| <= 1
  }

  ghost predicate ClosedSoFar(receipts: seq<CloseReply>, r: Reservation, beads: seq<string>, adapter: Adapter, i: nat) {
    && i <= |beads| && |receipts| == i
    && (forall j :: 0 <= j < i ==> Owned(r, beads[j], adapter.actor))
    && (forall j :: 0 <= j < i ==> receipts[j] == adapter.close(beads[j]) && Closes(receipts[j]))
  }

  /** Stopping in front of bead `i`, whose claim is not proven owned. */
  lemma StopsBefore(receipts: seq<CloseReply>, r: Reservation, beads: seq<string>, adapter: Adapter, i: nat, e: Error)
    requires ClosedSoFar(receipts, r, beads, adapter, i) && i < |beads| && !Owned(r, beads[i], adapter.actor)
    ensures ClosedInOrder(Loop(beads[..i], receipts, [e]), r, beads, adapter)
  {
  }

  /** Stopping right after the attempt on bead `i`, which was not proven closed. */
  lemma StopsAt(receipts: seq<CloseReply>, r: Reservation, beads: seq<string>, adapter: Adapter, i: nat, e: Error,
                kept: bool)
    requires ClosedSoFar(receipts, r, beads, adapter, i) && i < |beads| && Owned(r, beads[i], adapter.actor)
    requires !Closes(adapter.close(beads[i]))
    requires kept ==> adapter.close(beads[i]).Replies? && adapter.close(beads[i]).valid
    ensures ClosedInOrder(Loop(beads[..i + 1], if kept then receipts + [adapter.close(beads[i])] else receipts, [e]),
                          r, beads, adapter)
  {
    assert beads[..i + 1] == beads[..i] + [beads[i]];
  }

  lemma AllClosedInOrder(receipts: seq<CloseReply>, r: Reservation, beads: seq<string>, adapter: Adapter)
    requires ClosedSoFar(receipts, r, beads, adapter, |beads|)
    ensures ClosedInOrder(Loop(beads, receipts, []), r, beads, adapter)
  {
  }

  method CloseInOrder(r: Reservation, beads: seq<string>, adapter: Adapter) returns (loop: Loop)
    requires ClaimsBound(r, beads, adapter.actor)
    ensures ClosedInOrder(loop, r, beads, adapter)
  {
    var claims := ClaimList(r);
    var attempted: seq<string>, receipts: seq<CloseReply> := [], [];
    for i := 0 to |beads|
      invariant attempted == beads[..i] && ClosedSoFar(receipts, r, beads, adapter, i)
    {
      var bead := beads[i];
      ClaimForSome(claims, bead);
      var claim := ClaimFor(claims, bead).value;
      if !OwnedClaim(claim, bead, adapter.actor) {
        StopsBefore(receipts, r, beads, adapter, i, ClaimProofInvalid(bead));
        return Loop(attempted, receipts, [ClaimProofInvalid(bead)]);
      }
      attempted := attempted + [bead];
      assert attempted == beads[..i + 1];
      var reply := adapter.close(bead);
      if reply.Raises? {
        StopsAt(receipts, r, beads, adapter, i, CloseRaised(bead), false);
        return Loop(attempted, receipts, [CloseRaised(bead)]);
      }
      if !reply.valid {
        StopsAt(receipts, r, beads, adapter, i, CloseReceiptInvalid(bead), false);
        return Loop(attempted, receipts, [CloseReceiptInvalid(bead)]);
      }
      if !reply.closed {
        StopsAt(receipts, r, beads, adapter, i, CloseUnproven(bead), true);
        return Loop(attempted, receipts + [reply], [CloseUnproven(bead)]);
      }
      receipts := receipts + [reply];
    }
    AllClosedInOrder(receipts, r, beads, adapter);
    loop := Loop(beads, receipts, []);
  }

  function Without(all: seq<string>, gone: seq<string>): seq<string> {
    if all == [] then []
    else
      var n := |all| - 1;
      Without(all[..n], gone) + if all[n] in gone then [] else [all[n]]
  }

  lemma {:induction false} WithoutPrefix(all: seq<string>, gone: seq<string>, n: nat)
    requires n <= |all| && gone <= all && (Distinct(all) || gone == [])
    ensures Without(all[..n], gone) == if n <= |gone| then [] else all[|gone|..n]
  {
    if n > 0 {
      assert all[..n][..n - 1] == all[..n - 1];
      WithoutPrefix(all, gone, n - 1);
      if n <= |gone| {
        assert all[n - 1] == gone[n - 1];
      } else {
        assert gone == all[..|gone|];
      }
    }
  }

  method ShowAll(beads: seq<string>, adapter: Adapter) returns (status: map<string, Option<Status>>, errors: seq<Error>)
    ensures forall b :: b in status <==> b in beads
    ensures forall b :: b in status ==> status[b] == adapter.show(b)
    ensures errors == [] <==> forall b :: b in beads ==> adapter.show(b).Some?
  {
    status, errors := map[], [];
    for i := 0 to |beads|
      invariant forall b :: b in status <==> b in beads[..i]
      invariant forall b :: b in status ==> status[b] == adapter.show(b)
      invariant errors == [] <==> forall b :: b in beads[..i] ==> adapter.show(b).Some?
    {
      assert beads[..i + 1] == beads[..i] + [beads[i]];
      var shown := adapter.show(beads[i]);
      status := status[beads[i] := shown];
      if shown.None? {
        errors := errors + [FinalShowFailed(beads[i])];
      }
    }
    assert beads[..|beads|] == beads;
  }

  /** Everything that must hold for the closure to be reported complete. */
  ghost predicate FullyClosed(tasks: seq<Task>, epic: string, r: Reservation, rows: Option<seq<Option<Disposition>>>,
                              adapter: Adapter) {
    var beads := Beads(Expected(tasks));
    && DispositionsMatch(rows, Expected(tasks))
    && ClaimsBound(r, beads, adapter.actor)
    && (forall b :: b in beads ==>
          && Owned(r, b, adapter.actor) && Closes(adapter.close(b)) && adapter.close(b).receiptClosed
          && adapter.show(b) == Some(Closed))
    && adapter.show(epic) == Some(Open)
  }

  method CloseAcceptedActivationBeads(tasks: seq<Task>, epic: string, r: Reservation,
                                      rows: Option<seq<Option<Disposition>>>, adapter: Adapter)
    returns (c: Closure)
    ensures c.expected == Beads(Expected(tasks)) && c.attempted + c.unattempted == c.expected
    ensures c.attempted != [] ==> DispositionsMatch(rows, Expected(tasks)) && ClaimsBound(r, c.expected, adapter.actor)
    ensures forall b :: b in c.attempted ==> Owned(r, b, adapter.actor)
    ensures |c.receipts| <= |c.attempted| <= |c.receipts| + 1
    ensures forall i :: 0 <= i < |c.attempted| - 1 ==>
            Closes(c.receipts[i]) && c.receipts[i] == adapter.close(c.attempted[i])
    ensures forall b :: b in c.finalStatus ==> c.finalStatus[b] == adapter.show(b)
    ensures c.allClosed <==> FullyClosed(tasks, epic, r, rows, adapter)
  {
    var expected := Expected(tasks);
    var beads := Beads(expected);
    var errors := CheckDispositions(rows, expected);
    if !ClaimsBound(r, beads, adapter.actor) {
      errors := errors + [ReservationBindingInvalid];
    }
    var loop := Loop([], [], errors);
    if errors == [] {
      loop := CloseInOrder(r, beads, adapter);
    }
    c := Conclude(tasks, epic, r, rows, adapter, loop);
  }

  /** What the loop may hand on: a stop before it began, or its own outcome. */
  ghost predicate Looped(loop: Loop, tasks: seq<Task>, r: Reservation, rows: Option<seq<Option<Disposition>>>,
                         adapter: Adapter) {
    var beads := Beads(Expected(tasks));
    if DispositionsMatch(rows, Expected(tasks)) && ClaimsBound(r, beads, adapter.actor)
    then ClosedInOrder(loop, r, beads, adapter)
    else loop.attempted == [] && loop.receipts == [] && loop.errors != []
  }

  /** The closing report: final states, what was left unattempted, and whether everything is proven closed. */
  method Conclude(tasks: seq<Task>, epic: string, r: Reservation, ghost rows: Option<seq<Option<Disposition>>>,
                  adapter: Adapter, loop: Loop)
    returns (c: Closure)
    requires Looped(loop, tasks, r, rows, adapter)
    ensures c.expected == Beads(Expected(tasks)) && c.attempted == loop.attempted && c.receipts == loop.receipts
    ensures c.attempted + c.unattempted == c.expected
    ensures forall b :: b in c.finalStatus ==> c.finalStatus[b] == adapter.show(b)
    ensures c.allClosed <==> FullyClosed(tasks, epic, r, rows, adapter)
  {
    var beads := Beads(Expected(tasks));
    var status, showErrors := ShowAll(beads, adapter);
    var epicStatus := adapter.show(epic);
    var errors := loop.errors + showErrors + if epicStatus.None? then [EpicShowFailed] else [];
    Partition(loop, tasks, r, rows, adapter);
    FlagIsComplete(loop, beads, epic, adapter, status, showErrors, errors);
    CompleteIff(tasks, epic, r, rows, adapter, loop);
    c := Closure(beads, loop.attempted, Without(beads, loop.attempted), loop.receipts, errors, status, epicStatus,
                 Flag(loop, beads, errors, status, epicStatus));
  }

  /** The `all_closed` flag as the report computes it. */
  predicate Flag(loop: Loop, beads: seq<string>, errors: seq<Error>, status: map<string, Option<Status>>,
                 epic: Option<Status>) {
    && errors == [] && loop.attempted == beads && |loop.receipts| == |beads|
    && (forall i :: 0 <= i < |loop.receipts| ==> loop.receipts[i].Replies? && loop.receipts[i].receiptClosed)
    && (forall i :: 0 <= i < |beads| ==> beads[i] in status && status[beads[i]] == Some(Closed))
    && epic == Some(Open)
  }

  lemma FlagIsComplete(loop: Loop, beads: seq<string>, epic: string, adapter: Adapter,
                       status: map<string, Option<Status>>, showErrors: seq<Error>, errors: seq<Error>)
    requires forall b :: b in status <==> b in beads
    requires forall b :: b in status ==> status[b] == adapter.show(b)
    requires showErrors == [] <==> forall b :: b in beads ==> adapter.show(b).Some?
    requires errors == loop.errors + showErrors + if adapter.show(epic).None? then [EpicShowFailed] else []
    ensures Flag(loop, beads, errors, status, adapter.show(epic)) <==> Complete(loop, beads, epic, adapter)
  {
    assert forall i :: 0 <= i < |beads| ==> beads[i] in beads;
    if Complete(loop, beads, epic, adapter) {
      forall b | b in beads ensures adapter.show(b).Some? {
        var i :| 0 <= i < |beads| && beads[i] == b;
      }
    }
  }

  lemma Partition(loop: Loop, tasks: seq<Task>, r: Reservation, rows: Option<seq<Option<Disposition>>>,
                  adapter: Adapter)
    requires Looped(loop, tasks, r, rows, adapter)
    ensures var beads := Beads(Expected(tasks)); loop.attempted + Without(beads, loop.attempted) == beads
  {
    AttemptedIsPrefix(loop, tasks, r, rows, adapter);
    PrefixAndRest(Beads(Expected(tasks)), loop.attempted);
  }

  lemma AttemptedIsPrefix(loop: Loop, tasks: seq<Task>, r: Reservation, rows: Option<seq<Option<Disposition>>>,
                          adapter: Adapter)
    requires Looped(loop, tasks, r, rows, adapter)
    ensures loop.attempted <= Beads(Expected(tasks))
    ensures loop.attempted != [] ==> Distinct(Beads(Expected(tasks)))
  {
    var beads := Beads(Expected(tasks));
    if ClaimsBound(r, beads, adapter.actor) {
      BoundBeadsAreDistinct(r, beads, adapter.actor);
    }
  }

  lemma PrefixAndRest(beads: seq<string>, attempted: seq<string>)
    requires attempted <= beads && (attempted != [] ==> Distinct(beads))
    ensures attempted + Without(beads, attempted) == beads
  {
    WithoutPrefix(beads, attempted, |beads|);
    assert beads[..|beads|] == beads;
  }

  ghost predicate Complete(loop: Loop, beads: seq<string>, epic: string, adapter: Adapter) {
    && loop.errors == [] && loop.attempted == beads && |loop.receipts| == |beads|
    && (forall i :: 0 <= i < |loop.receipts| ==> loop.receipts[i].Replies? && loop.receipts[i].receiptClosed)
    && (forall i :: 0 <= i < |beads| ==> adapter.show(beads[i]) == Some(Closed))
    && adapter.show(epic) == Some(Open)
  }

  lemma CompleteIff(tasks: seq<Task>, epic: string, r: Reservation, rows: Option<seq<Option<Disposition>>>,
                    adapter: Adapter,
                    loop: Loop)
    requires Looped(loop, tasks, r, rows, adapter)
    ensures Complete(loop, Beads(Expected(tasks)), epic, adapter) <==> FullyClosed(tasks, epic, r, rows, adapter)
  {
    var beads := Beads(Expected(tasks));
    if FullyClosed(tasks, epic, r, rows, adapter) {
      forall i | 0 <= i < |beads|
        ensures Owned(r, beads[i], adapter.actor) && Closes(adapter.close(beads[i]))
        ensures adapter.close(beads[i]).receiptClosed && adapter.show(beads[i]) == Some(Closed)
      {
        assert beads[i] in beads;
      }
      assert loop.errors == [];
    }
    if Complete(loop, beads, epic, adapter) {
      assert DispositionsMatch(rows, Expected(tasks)) && ClaimsBound(r, beads, adapter.actor);
      assert ClosedInOrder(loop, r, beads, adapter);
      forall b | b in beads
        ensures Owned(r, b, adapter.actor) && Closes(adapter.close(b)) && adapter.close(b).receiptClosed
        ensures adapter.show(b) == Some(Closed)
      {
        var i :| 0 <= i < |beads| && beads[i] == b;
        assert loop.receipts[i] == adapter.close(beads[i]);
      }
    }
  }

  lemma {:induction false} ClaimForIs(claims: seq<Option<Claim>>, bead: string)
    requires ClaimFor(claims, bead).Some?
    ensures ClaimFor(claims, bead) in claims && ClaimFor(claims, bead).value.bead == bead
  {
    var n := |claims| - 1;
    assert claims == claims[..n] + [claims[n]];
    if !(claims[n].Some? && claims[n].value.bead == bead) {
      ClaimForIs(claims[..n], bead);
    }
  }

  /** Full closure, written out: every disposition, claim, close and final status is what it should be. */
  lemma FullyClosedMeans(tasks: seq<Task>, epic: string, r: Reservation, rows: Option<seq<Option<Disposition>>>,
                         adapter: Adapter)
    requires FullyClosed(tasks, epic, r, rows, adapter)
    ensures var beads := Beads(Expected(tasks));
            && Distinct(beads) && r.issueIds == beads && r.claimActor == adapter.actor
            && adapter.show(epic) == Some(Open)
            && forall b :: b in beads ==>
                 adapter.close(b) == Replies(true, true, true) && adapter.show(b) == Some(Closed)
    ensures forall b :: b in Beads(Expected(tasks)) ==>
              exists c :: Some(c) in ClaimList(r) && c.bead == b && c.actor == adapter.actor
                          && c.owned && c.valid && c.postShow.Some?
    ensures rows.Some? && forall row :: row in rows.value ==>
              && row.Some? && row.value.closeWork == Some(true)
              && row.value.closeParent == Some(false) && row.value.closePublication == Some(false)
  {
    var beads := Beads(Expected(tasks));
    BoundBeadsAreDistinct(r, beads, adapter.actor);
    forall b | b in beads
      ensures exists c :: Some(c) in ClaimList(r) && c.bead == b && c.actor == adapter.actor
                          && c.owned && c.valid && c.postShow.Some?
    {
      ClaimForIs(ClaimList(r), b);
      var c := ClaimFor(ClaimList(r), b).value;
      assert Some(c) in ClaimList(r);
    }
  }
}
