/**
 The one-shot activation ledger: an append-only list of entries that is replayed through a fixed automaton before
 every write, so that only legal histories are ever stored.
 */
module ActivationLedger {
  import opened Wrappers

  datatype Role = Calibration | ReadOnly(i: nat) | Mutable(i: nat)

  datatype Event =
    | ClaimAcquired | ApprovalConsumeIntent | ApprovalVerified | DispatchIntent
    | AllocationIntent | ThreadBound | TurnIntent | TurnBound | Terminal

  datatype Entry = Entry(event: Event, role: Option<Role>, intent: Option<string>, subject: Option<string>)

  datatype Phase =
    | New | Claimed | ApprovalPending | Approved | Allocating | CalibrationTurning | WorkerTurning | Dispatched | Ended

  datatype Allocation = Allocation(role: Role, intent: string)
  datatype Turn = Turn(role: Role, intent: string, thread: string)

  datatype State = State(phase: Phase, bound: nat, allocating: Option<Allocation>, threads: map<Role, string>,
                         turned: nat, turning: Option<Turn>)

  /** Roles in allocation order, and what counts as a UUID. */
  datatype Profile = Profile(roles: seq<Role>, isUuid: string -> bool)

  const START: State := State(New, 0, None, map[], 0, None)

  const N1_READ_ONLY: seq<Role> := [Calibration, ReadOnly(0)]
  const N2_READ_ONLY: seq<Role> := [Calibration, ReadOnly(0), ReadOnly(1)]
  const N1_MUTABLE: seq<Role> := [Calibration, Mutable(0)]

  /** Calibration comes first and only there, and no role repeats. */
  ghost predicate WellFormed(p: Profile) {
    && 2 <= |p.roles| && p.roles[0] == Calibration
    && forall i, j :: 0 <= i < j < |p.roles| ==> p.roles[i] != p.roles[j]
  }

  predicate Bare(e: Entry) {
    e.role.None? && e.intent.None? && e.subject.None?
  }

  predicate Uuid(p: Profile, id: Option<string>) {
    id.Some? && p.isUuid(id.value)
  }

  function Advance(st: State, from: Phase, e: Entry, to: Phase): Option<State> {
    if st.phase == from && Bare(e) then Some(st.(phase := to)) else None
  }

  predicate TurnPhase(phase: Phase) {
    phase.CalibrationTurning? || phase.WorkerTurning?
  }

  /** One entry of `_replay_entries`; None where the source raises. */
  function Step(p: Profile, st: State, e: Entry): Option<State> {
    if st.phase.Ended? then None
    else match e.event
         case ClaimAcquired => Advance(st, New, e, Claimed)
         case ApprovalConsumeIntent => Advance(st, Claimed, e, ApprovalPending)
         case ApprovalVerified => Advance(st, ApprovalPending, e, Approved)
         case DispatchIntent => Advance(st, Approved, e, Allocating)
         case AllocationIntent =>
           if st.phase.Allocating? && st.allocating.None? && st.bound < |p.roles| && e.role == Some(p.roles[st.bound])
              && Uuid(p, e.intent) && e.subject.None?
           then Some(st.(allocating := Some(Allocation(e.role.value, e.intent.value)))) else None
         case ThreadBound =>
           if st.phase.Allocating? && e.role.Some? && e.intent.Some?
              && st.allocating == Some(Allocation(e.role.value, e.intent.value)) && Uuid(p, e.subject)
           then Some(st.(threads := st.threads[e.role.value := e.subject.value], allocating := None,
                         bound := st.bound + 1,
                         phase := if e.role.value.Calibration? then CalibrationTurning
                                  else if st.bound + 1 == |p.roles| then WorkerTurning else st.phase))
           else None
         case TurnIntent =>
           if TurnPhase(st.phase) && st.turning.None? && st.turned < |p.roles| && e.role == Some(p.roles[st.turned])
              && Uuid(p, e.intent) && e.role.value in st.threads && e.subject == Some(st.threads[e.role.value])
           then Some(st.(turning := Some(Turn(e.role.value, e.intent.value, e.subject.value)))) else None
         case TurnBound =>
           if TurnPhase(st.phase) && e.role.Some? && e.intent.Some? && e.role.value in st.threads
              && st.turning == Some(Turn(e.role.value, e.intent.value, st.threads[e.role.value])) && Uuid(p, e.subject)
           then Some(st.(turning := None, turned := st.turned + 1,
                         phase := if e.role.value.Calibration? then Allocating
                                  else if st.turned + 1 == |p.roles| then Dispatched else st.phase))
           else None
         case Terminal =>
           if !st.phase.New? && e.role.None? && e.intent.None? then Some(st.(phase := Ended)) else None
  }

  function Replay(p: Profile, entries: seq<Entry>): Option<State> {
    if entries == [] then Some(START)
    else
      var before := Replay(p, entries[..|entries| - 1]);
      if before.None? then None else Step(p, before.value, entries[|entries| - 1])
  }

  lemma ReplaySnoc(p: Profile, entries: seq<Entry>, e: Entry)
    ensures Replay(p, entries + [e]) ==
            if Replay(p, entries).None? then None else Step(p, Replay(p, entries).value, e)
  {
    assert (entries + [e])[..|entries|] == entries;
  }

  // ---------- appending ----------

  datatype Appended = Appended(entries: seq<Entry>, ok: bool)

  function AppendEntry(p: Profile, entries: seq<Entry>, e: Entry, fault: Fault): Appended {
    if Replay(p, entries + [e]).None? || fault.LostBeforeWrite? then Appended(entries, false)
    else Appended(entries + [e], fault.Fine?)
  }

  class LedgerStore {
    const profile: Profile
    var entries: seq<Entry>

    constructor (profile: Profile)
      ensures this.profile == profile && entries == []
    {
      this.profile := profile;
      entries := [];
    }

    method Append(e: Entry, fault: Fault) returns (ok: bool)
      modifies this
      ensures Appended(entries, ok) == AppendEntry(profile, old(entries), e, fault)
      ensures entries == old(entries) +
                         if Legal(profile, old(entries) + [e]) && !fault.LostBeforeWrite? then [e] else []
      ensures ok <==> Legal(profile, old(entries) + [e]) && fault.Fine?
    {
      var candidate := entries + [e];
      if Replay(profile, candidate).None? || fault.LostBeforeWrite? {
        assert entries + [] == entries;
        return false;
      }
      entries := candidate;
      ok := fault.Fine?;
    }
  }

  // ---------- what every stored history satisfies ----------

  ghost predicate Legal(p: Profile, entries: seq<Entry>) {
    Replay(p, entries).Some?
  }

  /** Whatever faults occur, the store holds a legal history that extends the previous one by at most one entry. */
  lemma AppendKeepsLegal(p: Profile, entries: seq<Entry>, e: Entry, fault: Fault)
    requires Legal(p, entries)
    ensures var r := AppendEntry(p, entries, e, fault);
            && Legal(p, r.entries) && (r.entries == entries || r.entries == entries + [e])
            && (r.ok ==> r.entries == entries + [e])
  {
  }

  /** Counters and phase agree with what is recorded so far. */
  ghost predicate Consistent(p: Profile, st: State) {
    && (st.phase in {New, Claimed, ApprovalPending, Approved} ==> st == State(st.phase, 0, None, map[], 0, None))
    && (st.phase.Allocating? ==>
          st.turning.None? && st.bound < |p.roles| && st.turned == (if st.bound == 0 then 0 else 1))
    && (st.phase.CalibrationTurning? ==> st.bound == 1 && st.turned == 0 && st.allocating.None?)
    && (st.phase.WorkerTurning? ==> st.bound == |p.roles| && 1 <= st.turned < |p.roles| && st.allocating.None?)
    && (st.phase.Dispatched? ==> st.bound == |p.roles| == st.turned && st.allocating.None? && st.turning.None?)
    && st.turned <= st.bound <= |p.roles|
    && (st.allocating.Some? ==> st.bound < |p.roles| && st.allocating.value.role == p.roles[st.bound])
    && (st.turning.Some? ==> st.turned < |p.roles| && st.turning.value.role == p.roles[st.turned])
    && (forall r :: r in st.threads <==> r in p.roles[..st.bound])
  }

  lemma {:induction false} LegalIsConsistent(p: Profile, entries: seq<Entry>)
    requires WellFormed(p) && Legal(p, entries)
    ensures Consistent(p, Replay(p, entries).value)
  {
    if entries != [] {
      var n := |entries| - 1;
      LegalIsConsistent(p, entries[..n]);
      StepKeepsConsistent(p, Replay(p, entries[..n]).value, entries[n]);
    }
  }

  lemma StepKeepsConsistent(p: Profile, st: State, e: Entry)
    requires WellFormed(p) && Consistent(p, st) && Step(p, st, e).Some?
    ensures Consistent(p, Step(p, st, e).value)
  {
    if e.event.ThreadBound? {
      assert p.roles[..st.bound + 1] == p.roles[..st.bound] + [p.roles[st.bound]];
    }
  }

  /** Entries recorded before position `n`. */
  ghost predicate Recorded(entries: seq<Entry>, n: nat, e: Entry) {
    n <= |entries| && e in entries[..n]
  }

  lemma RecordedLater(entries: seq<Entry>, more: seq<Entry>, n: nat, e: Entry)
    requires Recorded(entries, n, e)
    ensures Recorded(entries + more, n, e)
  {
    assert (entries + more)[..n] == entries[..n];
  }

  function Intended(role: Role, intent: string): Entry {
    Entry(AllocationIntent, Some(role), Some(intent), None)
  }

  function BoundThread(role: Role, intent: string, thread: string): Entry {
    Entry(ThreadBound, Some(role), Some(intent), Some(thread))
  }

  function TurnIntended(role: Role, intent: string, thread: string): Entry {
    Entry(TurnIntent, Some(role), Some(intent), Some(thread))
  }

  function BoundTurn(role: Role, intent: string, turn: string): Entry {
    Entry(TurnBound, Some(role), Some(intent), Some(turn))
  }

  ghost predicate ThreadRecorded(entries: seq<Entry>, role: Role, thread: string) {
    exists k :: 0 <= k < |entries| && BindsThread(entries[k], role, thread)
  }

  predicate BindsThread(e: Entry, role: Role, thread: string) {
    e.event.ThreadBound? && e.role == Some(role) && e.subject == Some(thread)
  }

  lemma PendingIsNewOrOld(p: Profile, st: State, e: Entry)
    requires Step(p, st, e).Some?
    ensures var after := Step(p, st, e).value;
            && (after.allocating.Some? && after.allocating != st.allocating ==>
                  e == Intended(after.allocating.value.role, after.allocating.value.intent))
            && (after.turning.Some? && after.turning != st.turning ==>
                  e == TurnIntended(after.turning.value.role, after.turning.value.intent, after.turning.value.thread))
  {
  }

  /** The intents pending in a legal history stand in it. */
  lemma {:induction false} PendingIsRecorded(p: Profile, entries: seq<Entry>)
    requires Legal(p, entries)
    ensures var st := Replay(p, entries).value;
            && (st.allocating.Some? ==> Intended(st.allocating.value.role, st.allocating.value.intent) in entries)
            && (st.turning.Some? ==>
                  TurnIntended(st.turning.value.role, st.turning.value.intent, st.turning.value.thread) in entries)
  {
    if entries != [] {
      var n := |entries| - 1;
      PendingIsRecorded(p, entries[..n]);
      PendingIsNewOrOld(p, Replay(p, entries[..n]).value, entries[n]);
      assert entries[n] in entries && forall e :: e in entries[..n] ==> e in entries;
    }
  }

  /** So do the threads it has bound. */
  lemma {:induction false} ThreadsAreRecorded(p: Profile, entries: seq<Entry>, r: Role)
    requires Legal(p, entries) && r in Replay(p, entries).value.threads
    ensures ThreadRecorded(entries, r, Replay(p, entries).value.threads[r])
  {
    if entries != [] {
      var n := |entries| - 1;
      var before, thread := Replay(p, entries[..n]).value, Replay(p, entries).value.threads[r];
      if r in before.threads && before.threads[r] == thread {
        ThreadsAreRecorded(p, entries[..n], r);
        var k :| 0 <= k < n && BindsThread(entries[..n][k], r, thread);
        assert BindsThread(entries[k], r, thread);
      } else {
        assert BindsThread(entries[n], r, thread);
      }
    }
  }

  /** A terminal entry can only be the last one. */
  lemma {:induction false} NothingAfterTerminal(p: Profile, entries: seq<Entry>, i: nat)
    requires Legal(p, entries) && i < |entries| && entries[i].event.Terminal?
    ensures i == |entries| - 1 && Replay(p, entries).value.phase.Ended?
  {
    if i < |entries| - 1 {
      NothingAfterTerminal(p, entries[..|entries| - 1], i);
    }
  }
}
