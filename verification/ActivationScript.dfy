/** The legal histories of the ledger, written out: a fixed script, broken off anywhere, perhaps by a terminal entry. */
module ActivationScript {
  import opened Wrappers
  import opened ActivationLedger

  datatype Place = Opening(event: Event) | Alloc(j: nat) | Bind(j: nat) | Ask(j: nat) | Answer(j: nat)

  function ScriptLength(n: nat): nat {
    4 * n + 4
  }

  /**
   What stands at place `i` for `n` roles: claim and approval; the calibration's thread and turn; the threads of all
   workers; then their turns.
   */
  function PlaceOf(n: nat, i: nat): (place: Place)
    requires 2 <= n && i < ScriptLength(n)
    ensures (place.Alloc? || place.Bind? || place.Ask? || place.Answer?) ==> place.j < n
  {
    if i == 0 then Opening(ClaimAcquired)
    else if i == 1 then Opening(ApprovalConsumeIntent)
    else if i == 2 then Opening(ApprovalVerified)
    else if i == 3 then Opening(DispatchIntent)
    else if i == 4 then Alloc(0)
    else if i == 5 then Bind(0)
    else if i == 6 then Ask(0)
    else if i == 7 then Answer(0)
    else if i < 6 + 2 * n then
      if i % 2 == 0 then Alloc((i - 6) / 2) else Bind((i - 6) / 2)
    else
      if i % 2 == 0 then Ask((i - 4 - 2 * n) / 2) else Answer((i - 4 - 2 * n) / 2)
  }

  /** Where the thread of role `j` is bound. */
  function BoundAt(j: nat): nat {
    if j == 0 then 5 else 7 + 2 * j
  }

  /** Entry `i` is what its place asks for, and refers back to the entries it answers. */
  ghost predicate Fits(p: Profile, body: seq<Entry>, i: nat)
    requires WellFormed(p) && i < |body| && i < ScriptLength(|p.roles|)
  {
    var e := body[i];
    match PlaceOf(|p.roles|, i)
    case Opening(event) => e == Entry(event, None, None, None)
    case Alloc(j) => e == Entry(AllocationIntent, Some(p.roles[j]), e.intent, None) && Uuid(p, e.intent)
    case Bind(j) => e == Entry(ThreadBound, Some(p.roles[j]), body[i - 1].intent, e.subject) && Uuid(p, e.subject)
    case Ask(j) =>
      && BoundAt(j) < i && Uuid(p, e.intent)
      && e == Entry(TurnIntent, Some(p.roles[j]), e.intent, body[BoundAt(j)].subject)
    case Answer(j) => e == Entry(TurnBound, Some(p.roles[j]), body[i - 1].intent, e.subject) && Uuid(p, e.subject)
  }

  ghost predicate Scripted(p: Profile, body: seq<Entry>)
    requires WellFormed(p)
  {
    |body| <= ScriptLength(|p.roles|) && forall i :: 0 <= i < |body| ==> Fits(p, body, i)
  }

  // ---------- the state along the script ----------

  function PhaseAt(n: nat, k: nat): Phase {
    if k == 0 then New else if k == 1 then Claimed else if k == 2 then ApprovalPending else if k == 3 then Approved
    else if k < 6 then Allocating else if k < 8 then CalibrationTurning else if k < 6 + 2 * n then Allocating
    else if k < ScriptLength(n) then WorkerTurning else Dispatched
  }

  function BoundCount(n: nat, k: nat): int {
    if k < 6 then 0 else if k < 8 then 1 else if k < 6 + 2 * n then (k - 6) / 2 else n
  }

  function TurnedCount(n: nat, k: nat): int {
    if k < 8 then 0 else if k < 6 + 2 * n then 1 else (k - 4 - 2 * n) / 2
  }

  ghost predicate ThreadsAre(p: Profile, body: seq<Entry>, st: State) {
    forall j :: 0 <= j < st.bound && j < |p.roles| ==>
      && BoundAt(j) < |body| && p.roles[j] in st.threads && Some(st.threads[p.roles[j]]) == body[BoundAt(j)].subject
  }

  /** The state that a scripted history has led to. */
  ghost predicate StateIs(p: Profile, body: seq<Entry>, st: State)
    requires WellFormed(p) && Scripted(p, body)
  {
    var n, k := |p.roles|, |body|;
    && st.phase == PhaseAt(n, k) && st.bound == BoundCount(n, k) && st.turned == TurnedCount(n, k)
    && ThreadsAre(p, body, st)
    && (if k > 0 && PlaceOf(n, k - 1).Alloc? then
          body[k - 1].intent.Some?
          && st.allocating == Some(Allocation(p.roles[PlaceOf(n, k - 1).j], body[k - 1].intent.value))
        else st.allocating == None)
    && (if k > 0 && PlaceOf(n, k - 1).Ask? then
          body[k - 1].intent.Some? && body[k - 1].subject.Some?
          && st.turning == Some(Turn(p.roles[PlaceOf(n, k - 1).j], body[k - 1].intent.value, body[k - 1].subject.value))
        else st.turning == None)
  }

  lemma FitsStays(p: Profile, body: seq<Entry>, e: Entry)
    requires WellFormed(p) && |body| < ScriptLength(|p.roles|)
    ensures Scripted(p, body + [e]) <==> Scripted(p, body) && Fits(p, body + [e], |body|)
  {
    var more := body + [e];
    forall i | 0 <= i < |body| ensures Fits(p, more, i) <==> Fits(p, body, i) {
    }
  }

  /** A scripted history that has not reached the end of the script, its state, and an entry to follow. */
  ghost predicate Standing(p: Profile, body: seq<Entry>, st: State, e: Entry) {
    && WellFormed(p) && Scripted(p, body) && |body| < ScriptLength(|p.roles|) && StateIs(p, body, st)
    && !e.event.Terminal?
  }

  /** The automaton takes just the entry that fits, and its state goes on as the script says. */
  ghost predicate Follows(p: Profile, body: seq<Entry>, st: State, e: Entry)
    requires Standing(p, body, st, e)
  {
    && (Step(p, st, e).Some? <==> Fits(p, body + [e], |body|))
    && (Fits(p, body + [e], |body|) ==> Scripted(p, body + [e]) && StateIs(p, body + [e], Step(p, st, e).value))
  }

  lemma ThreadsStay(p: Profile, body: seq<Entry>, e: Entry, st: State, after: State)
    requires ThreadsAre(p, body, st) && after.threads == st.threads && after.bound == st.bound
    ensures ThreadsAre(p, body + [e], after)
  {
    assert forall i :: 0 <= i < |body| ==> (body + [e])[i] == body[i];
  }

  lemma OpeningFits(p: Profile, body: seq<Entry>, st: State, e: Entry)
    requires Standing(p, body, st, e) && PlaceOf(|p.roles|, |body|).Opening?
    ensures Follows(p, body, st, e)
  {
    var k, more := |body|, body + [e];
    FitsStays(p, body, e);
    assert more[k] == e && (k > 0 ==> more[k - 1] == body[k - 1]);
    if Step(p, st, e).Some? {
      ThreadsStay(p, body, e, st, Step(p, st, e).value);
    }
  }

  lemma AllocFits(p: Profile, body: seq<Entry>, st: State, e: Entry)
    requires Standing(p, body, st, e) && PlaceOf(|p.roles|, |body|).Alloc?
    ensures Follows(p, body, st, e)
  {
    var k, more := |body|, body + [e];
    FitsStays(p, body, e);
    assert more[k] == e && (k > 0 ==> more[k - 1] == body[k - 1]);
    if Step(p, st, e).Some? {
      ThreadsStay(p, body, e, st, Step(p, st, e).value);
    }
  }

  lemma BindFits(p: Profile, body: seq<Entry>, st: State, e: Entry)
    requires Standing(p, body, st, e) && PlaceOf(|p.roles|, |body|).Bind?
    ensures Follows(p, body, st, e)
  {
    var k, more := |body|, body + [e];
    FitsStays(p, body, e);
    assert more[k] == e && (k > 0 ==> more[k - 1] == body[k - 1]);
    assert forall i :: 0 <= i < k ==> more[i] == body[i];
  }

  lemma AskedOfABoundThread(n: nat, k: nat)
    requires 2 <= n && k < ScriptLength(n) && PlaceOf(n, k).Ask?
    ensures var j := PlaceOf(n, k).j;
            && TurnedCount(n, k) == j < BoundCount(n, k) && BoundAt(j) < k && TurnPhase(PhaseAt(n, k))
            && (k > 0 ==> !PlaceOf(n, k - 1).Ask? && !PlaceOf(n, k - 1).Alloc?)
            && TurnedCount(n, k + 1) == j && BoundCount(n, k + 1) == BoundCount(n, k)
            && PhaseAt(n, k + 1) == PhaseAt(n, k)
  {
  }

  lemma AskFits(p: Profile, body: seq<Entry>, st: State, e: Entry)
    requires Standing(p, body, st, e) && PlaceOf(|p.roles|, |body|).Ask?
    ensures Follows(p, body, st, e)
  {
    var k, more := |body|, body + [e];
    var j := PlaceOf(|p.roles|, k).j;
    FitsStays(p, body, e);
    AskedOfABoundThread(|p.roles|, k);
    assert more[k] == e && more[BoundAt(j)] == body[BoundAt(j)];
    assert p.roles[j] in st.threads && Some(st.threads[p.roles[j]]) == body[BoundAt(j)].subject;
    if Step(p, st, e).Some? {
      ThreadsStay(p, body, e, st, Step(p, st, e).value);
    }
  }

  lemma AskedBefore(n: nat, k: nat)
    requires 2 <= n && k < ScriptLength(n) && PlaceOf(n, k).Answer?
    ensures k > 0 && PlaceOf(n, k - 1) == Ask(PlaceOf(n, k).j) && PlaceOf(n, k).j < BoundCount(n, k)
  {
  }

  lemma AnswerFits(p: Profile, body: seq<Entry>, st: State, e: Entry)
    requires Standing(p, body, st, e) && PlaceOf(|p.roles|, |body|).Answer?
    ensures Follows(p, body, st, e)
  {
    var k, more := |body|, body + [e];
    FitsStays(p, body, e);
    assert more[k] == e && (k > 0 ==> more[k - 1] == body[k - 1]);
    var j := PlaceOf(|p.roles|, k).j;
    AskedBefore(|p.roles|, k);
    assert Fits(p, body, k - 1) && j < st.bound;
    assert Some(st.threads[p.roles[j]]) == body[BoundAt(j)].subject == body[k - 1].subject;
    if Step(p, st, e).Some? {
      ThreadsStay(p, body, e, st, Step(p, st, e).value);
    }
  }

  lemma NothingFitsAfterTheEnd(p: Profile, body: seq<Entry>, st: State, e: Entry)
    requires WellFormed(p) && Scripted(p, body) && |body| == ScriptLength(|p.roles|) && StateIs(p, body, st)
    requires !e.event.Terminal?
    ensures Step(p, st, e).None?
  {
  }

  lemma NextFits(p: Profile, body: seq<Entry>, st: State, e: Entry)
    requires Standing(p, body, st, e)
    ensures Follows(p, body, st, e)
  {
    match PlaceOf(|p.roles|, |body|)
    case Opening(_) => OpeningFits(p, body, st, e);
    case Alloc(_) => AllocFits(p, body, st, e);
    case Bind(_) => BindFits(p, body, st, e);
    case Ask(_) => AskFits(p, body, st, e);
    case Answer(_) => AnswerFits(p, body, st, e);
  }

  // ---------- legal histories ----------

  ghost predicate Unended(entries: seq<Entry>) {
    forall i :: 0 <= i < |entries| ==> !entries[i].event.Terminal?
  }

  /** Without a terminal entry, the legal histories are the beginnings of the script. */
  lemma {:induction false} UnendedIsLegalIffScripted(p: Profile, body: seq<Entry>)
    requires WellFormed(p) && Unended(body)
    ensures Legal(p, body) <==> Scripted(p, body)
    ensures Legal(p, body) ==> StateIs(p, body, Replay(p, body).value)
  {
    if body != [] {
      var init, e := body[..|body| - 1], body[|body| - 1];
      assert body == init + [e];
      UnendedIsLegalIffScripted(p, init);
      ReplaySnoc(p, init, e);
      if |init| < ScriptLength(|p.roles|) {
        FitsStays(p, init, e);
        if Legal(p, init) {
          NextFits(p, init, Replay(p, init).value, e);
        }
      } else if Legal(p, init) {
        NothingFitsAfterTheEnd(p, init, Replay(p, init).value, e);
      }
    }
  }

  /** An entry that may end a history. */
  predicate Ends(e: Entry) {
    e.event.Terminal? && e.role.None? && e.intent.None?
  }

  lemma {:induction false} EndedStaysEnded(p: Profile, entries: seq<Entry>)
    requires !Unended(entries) && Legal(p, entries)
    ensures Replay(p, entries).value.phase.Ended? && Unended(entries[..|entries| - 1])
  {
    var init, e := entries[..|entries| - 1], entries[|entries| - 1];
    assert entries == init + [e];
    if !Unended(init) {
      EndedStaysEnded(p, init);
    } else {
      assert e.event.Terminal?;
    }
  }

  /** A history is legal if and only if it is a beginning of the script, or a non-empty one followed by its end. */
  lemma LegalIffScripted(p: Profile, entries: seq<Entry>)
    requires WellFormed(p)
    ensures Legal(p, entries) <==>
            || (Unended(entries) && Scripted(p, entries))
            || (|entries| >= 2 && Ends(entries[|entries| - 1])
                && Unended(entries[..|entries| - 1]) && Scripted(p, entries[..|entries| - 1]))
  {
    if Unended(entries) {
      UnendedIsLegalIffScripted(p, entries);
    } else {
      var init, e := entries[..|entries| - 1], entries[|entries| - 1];
      assert entries == init + [e];
      ReplaySnoc(p, init, e);
      if Legal(p, entries) {
        EndedStaysEnded(p, entries);
      }
      if Unended(init) {
        UnendedIsLegalIffScripted(p, init);
        EndIsTaken(p, init, e);
      }
    }
  }

  lemma EndIsTaken(p: Profile, init: seq<Entry>, e: Entry)
    requires WellFormed(p) && Unended(init) && e.event.Terminal?
    requires Legal(p, init) ==> Scripted(p, init) && StateIs(p, init, Replay(p, init).value)
    ensures Legal(p, init) ==> (Step(p, Replay(p, init).value, e).Some? <==> init != [] && Ends(e))
  {
  }

  /** Every state of a whole activation is reached: the full script is legal, and then nothing but an end may follow. */
  lemma FullScriptIsDispatched(p: Profile, entries: seq<Entry>)
    requires WellFormed(p) && Unended(entries) && Scripted(p, entries)
    ensures |entries| == ScriptLength(|p.roles|) <==>
            Replay(p, entries).Some? && Replay(p, entries).value.phase.Dispatched?
  {
    UnendedIsLegalIffScripted(p, entries);
  }
}
