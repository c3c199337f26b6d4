/** `ActivationLedgerTransport`: every worker RPC of the activation preview follows its own recorded intent. */
module LedgerTransport {
  import opened Wrappers
  import opened ActivationLedger

  /** Role names as callers give them; capability calibration is recorded under the calibration role. */
  datatype RoleName = CapabilityCalibration | Plain(role: Role)

  /** An RPC handed to the app-server, with the intent it answers to and the ledger length at that moment. */
  datatype Rpc =
    | StartThread(role: Role, intent: string, seen: nat)
    | StartTurn(thread: string, intent: string, seen: nat)

  /** The app-server raises, or answers with an id or without a usable one. */
  datatype Reply = Raises | Answers(id: Option<string>)

  datatype World = World(entries: seq<Entry>, rpcs: seq<Rpc>, roles: map<string, Role>, waiting: map<Role, string>)

  datatype Result = Done | Failed

  function LedgerRole(name: RoleName): Role {
    if name.CapabilityCalibration? then Calibration else name.role
  }

  // ---------- what the two operations do ----------

  /** The intent a thread start uses: a pre-issued one, taken off the waiting list, or a uuid one. */
  function TakeIntent(p: Profile, w: World, role: Role, uuid: string, fault: Fault): (World, Option<string>) {
    if role in w.waiting then (w.(waiting := w.waiting - {role}), Some(w.waiting[role]))
    else
      var r := AppendEntry(p, w.entries, Intended(role, uuid), fault);
      (w.(entries := r.entries), if r.ok then Some(uuid) else None)
  }

  function IssueThread(w: World, role: Role, intent: string): World {
    w.(rpcs := w.rpcs + [StartThread(role, intent, |w.entries|)])
  }

  function BindReply(p: Profile, w: World, role: Role, intent: string, reply: Reply, fault: Fault): (World, Result) {
    if reply.Raises? || reply.id.None? then (w, Failed)
    else
      var r := AppendEntry(p, w.entries, BoundThread(role, intent, reply.id.value), fault);
      if r.ok then (w.(entries := r.entries, roles := w.roles[reply.id.value := role]), Done)
      else (w.(entries := r.entries), Failed)
  }

  function StartedThread(p: Profile, w: World, name: Option<RoleName>, uuid: string, f1: Fault, reply: Reply, f2: Fault)
    : (World, Result)
  {
    if name.None? then (w, Failed)
    else
      var role := LedgerRole(name.value);
      var (w1, intent) := TakeIntent(p, w, role, uuid, f1);
      if intent.None? then (w1, Failed)
      else BindReply(p, IssueThread(w1, role, intent.value), role, intent.value, reply, f2)
  }

  function StartedTurn(p: Profile, w: World, thread: string, uuid: string, f1: Fault, reply: Reply, f2: Fault)
    : (World, Result)
  {
    if thread !in w.roles then (w, Failed)
    else
      var role := w.roles[thread];
      var r := AppendEntry(p, w.entries, TurnIntended(role, uuid, thread), f1);
      if !r.ok then (w.(entries := r.entries), Failed)
      else
        var w1 := w.(entries := r.entries, rpcs := w.rpcs + [StartTurn(thread, uuid, |r.entries|)]);
        if reply.Raises? || reply.id.None? then (w1, Failed)
        else
          var b := AppendEntry(p, r.entries, BoundTurn(role, uuid, reply.id.value), f2);
          (w1.(entries := b.entries), if b.ok then Done else Failed)
  }

  // ---------- the class ----------

  class AppServer {
    var rpcs: seq<Rpc>

    constructor ()
      ensures rpcs == []
    {
      rpcs := [];
    }
  }

  class ActivationLedgerTransport {
    const server: AppServer
    const ledger: LedgerStore
    var threadRoles: map<string, Role>
    var pendingAllocationIntents: map<Role, string>

    constructor (server: AppServer, ledger: LedgerStore, pendingAllocationIntents: map<Role, string>)
      ensures this.server == server && this.ledger == ledger
      ensures View() == World(ledger.entries, server.rpcs, map[], pendingAllocationIntents)
    {
      this.server, this.ledger := server, ledger;
      this.threadRoles, this.pendingAllocationIntents := map[], pendingAllocationIntents;
    }

    function View(): World
      reads this, server, ledger
    {
      World(ledger.entries, server.rpcs, threadRoles, pendingAllocationIntents)
    }

    method StartThread(name: Option<RoleName>, uuid: string, f1: Fault, reply: Reply, f2: Fault) returns (r: Result)
      modifies this, server, ledger
      ensures (View(), r) == StartedThread(ledger.profile, old(View()), name, uuid, f1, reply, f2)
    {
      if name.None? {
        return Failed;
      }
      var role := LedgerRole(name.value);
      var intent := uuid;
      if role in pendingAllocationIntents {
        intent := pendingAllocationIntents[role];
        pendingAllocationIntents := pendingAllocationIntents - {role};
      } else {
        var ok := ledger.Append(Intended(role, uuid), f1);
        if !ok {
          return Failed;
        }
      }
      server.rpcs := server.rpcs + [Rpc.StartThread(role, intent, |ledger.entries|)];
      if reply.Raises? || reply.id.None? {
        return Failed;
      }
      var bound := ledger.Append(BoundThread(role, intent, reply.id.value), f2);
      if !bound {
        return Failed;
      }
      threadRoles := threadRoles[reply.id.value := role];
      r := Done;
    }

    method StartTurn(thread: string, uuid: string, f1: Fault, reply: Reply, f2: Fault) returns (r: Result)
      modifies server, ledger
      ensures (View(), r) == StartedTurn(ledger.profile, old(View()), thread, uuid, f1, reply, f2)
    {
      if thread !in threadRoles {
        return Failed;
      }
      var role := threadRoles[thread];
      var intended := ledger.Append(TurnIntended(role, uuid, thread), f1);
      if !intended {
        return Failed;
      }
      server.rpcs := server.rpcs + [Rpc.StartTurn(thread, uuid, |ledger.entries|)];
      if reply.Raises? || reply.id.None? {
        return Failed;
      }
      var bound := ledger.Append(BoundTurn(role, uuid, reply.id.value), f2);
      r := if bound then Done else Failed;
    }
  }

  // ---------- what a call comes to, in plain terms ----------

  /** The entry may follow. */
  ghost predicate Allowed(p: Profile, entries: seq<Entry>, e: Entry) {
    Replay(p, entries + [e]).Some?
  }

  /** Intents come from the list of waiting ones, or from a new record. */
  lemma TakeIntentIs(p: Profile, w: World, role: Role, uuid: string, f1: Fault)
    ensures var (w1, intent) := TakeIntent(p, w, role, uuid, f1);
            var allowed := Allowed(p, w.entries, Intended(role, uuid));
            && w1.rpcs == w.rpcs && w1.roles == w.roles && w1.waiting == w.waiting - {role}
            && (role in w.waiting ==> intent == Some(w.waiting[role]) && w1.entries == w.entries)
            && (role !in w.waiting ==>
                  && intent == (if f1.Fine? && allowed then Some(uuid) else None)
                  && w1.entries == w.entries + if f1.LostBeforeWrite? || !allowed then [] else [Intended(role, uuid)])
  {
    assert w.entries + [] == w.entries;
  }

  /** A usable answer that is bound on record makes its thread known under the role. */
  lemma BindReplyIs(p: Profile, w: World, role: Role, intent: string, reply: Reply, f2: Fault)
    ensures var (after, r) := BindReply(p, w, role, intent, reply, f2);
            && after.rpcs == w.rpcs && after.waiting == w.waiting && w.entries <= after.entries
            && (r.Done? <==> reply.Answers? && reply.id.Some? && f2.Fine?
                             && Allowed(p, w.entries, BoundThread(role, intent, reply.id.value)))
            && (r.Done? ==> after.entries == w.entries + [BoundThread(role, intent, reply.id.value)]
                            && after.roles == w.roles[reply.id.value := role])
            && (r.Failed? ==> after.roles == w.roles)
  {
  }

  /**
   A thread start gets its intent from the list of waiting ones, or by recording a new one; with an intent it issues its
   RPC, and with a usable answer that is bound on record it remembers the thread's role. Without, it fails.
   */
  lemma ThreadStartIs(p: Profile, w: World, name: RoleName, uuid: string, f1: Fault, reply: Reply, f2: Fault)
    ensures var role := if name.CapabilityCalibration? then Calibration else name.role;
            var (after, r) := StartedThread(p, w, Some(name), uuid, f1, reply, f2);
            var (w1, intent) := TakeIntent(p, w, role, uuid, f1);
            && (intent.None? ==> r.Failed? && after == w1)
            && (intent.Some? ==>
                  && after.rpcs == w.rpcs + [StartThread(role, intent.value, |w1.entries|)]
                  && after.waiting == w.waiting - {role}
                  && (r.Done? <==> reply.Answers? && reply.id.Some? && f2.Fine?
                                   && Allowed(p, w1.entries, BoundThread(role, intent.value, reply.id.value)))
                  && (r.Done? ==> after.entries == w1.entries + [BoundThread(role, intent.value, reply.id.value)]
                                  && after.roles == w.roles[reply.id.value := role])
                  && (r.Failed? ==> after.roles == w.roles))
  {
    var role := if name.CapabilityCalibration? then Calibration else name.role;
    TakeIntentIs(p, w, role, uuid, f1);
    var (w1, intent) := TakeIntent(p, w, role, uuid, f1);
    if intent.Some? {
      var issued := w1.(rpcs := w.rpcs + [StartThread(role, intent.value, |w1.entries|)]);
      BindReplyIs(p, issued, role, intent.value, reply, f2);
    }
  }

  /** A turn start goes to a thread with a role, after its own intent is recorded, and binds the answer's id. */
  lemma TurnStartIs(p: Profile, w: World, thread: string, uuid: string, f1: Fault, reply: Reply, f2: Fault)
    requires thread in w.roles
    ensures var (after, r) := StartedTurn(p, w, thread, uuid, f1, reply, f2);
            var intended := TurnIntended(w.roles[thread], uuid, thread);
            var stored := !f1.LostBeforeWrite? && Allowed(p, w.entries, intended);
            var before := w.entries + if stored then [intended] else [];
            var issued := f1.Fine? && Allowed(p, w.entries, intended);
            && after.rpcs == w.rpcs + (if issued then [StartTurn(thread, uuid, |before|)] else [])
            && after.waiting == w.waiting && after.roles == w.roles
            && (r.Done? <==>
                  && issued && reply.Answers? && reply.id.Some? && f2.Fine?
                  && Allowed(p, before, BoundTurn(w.roles[thread], uuid, reply.id.value)))
            && (r.Done? ==> after.entries == before + [BoundTurn(w.roles[thread], uuid, reply.id.value)])
            && (r.Failed? ==> before <= after.entries)
  {
    assert w.entries + [] == w.entries;
  }

  // ---------- the invariant ----------

  /** The intent of an RPC was on record before the RPC was issued, and a turn only went to a bound thread. */
  ghost predicate Preceded(entries: seq<Entry>, rpc: Rpc) {
    match rpc
    case StartThread(role, intent, seen) => Recorded(entries, seen, Intended(role, intent))
    case StartTurn(thread, intent, seen) =>
      exists role :: Recorded(entries, seen, TurnIntended(role, intent, thread))
        && ThreadRecorded(entries[..seen], role, thread)
  }

  /** The RPC's outcome is on record, or its intent is the one still pending. */
  ghost predicate Settled(entries: seq<Entry>, st: State, rpc: Rpc) {
    match rpc
    case StartThread(role, intent, _) =>
      st.allocating == Some(Allocation(role, intent)) || exists thread :: BoundThread(role, intent, thread) in entries
    case StartTurn(thread, intent, _) =>
      (st.turning.Some? && st.turning.value.thread == thread && st.turning.value.intent == intent)
      || exists role, turn :: BoundTurn(role, intent, turn) in entries
  }

  ghost predicate OneRpcPerIntent(rpcs: seq<Rpc>) {
    forall i, j :: 0 <= i < j < |rpcs| ==> rpcs[i].intent != rpcs[j].intent
  }

  ghost predicate Unused(rpcs: seq<Rpc>, intent: string) {
    forall i :: 0 <= i < |rpcs| ==> rpcs[i].intent != intent
  }

  ghost predicate RpcsInOrder(entries: seq<Entry>, st: State, rpcs: seq<Rpc>) {
    && OneRpcPerIntent(rpcs)
    && forall i :: 0 <= i < |rpcs| ==> Preceded(entries, rpcs[i]) && Settled(entries, st, rpcs[i])
  }

  /** A waiting intent is the pending one and unused; a thread with a role is the one the ledger bound to it. */
  ghost predicate BooksAgree(st: State, w: World) {
    && (forall r :: r in w.waiting ==>
        st.allocating == Some(Allocation(r, w.waiting[r])) && Unused(w.rpcs, w.waiting[r]))
    && (forall t :: t in w.roles ==> w.roles[t] in st.threads && st.threads[w.roles[t]] == t)
  }

  ghost predicate Inv(p: Profile, w: World) {
    && Legal(p, w.entries)
    && RpcsInOrder(w.entries, Replay(p, w.entries).value, w.rpcs)
    && BooksAgree(Replay(p, w.entries).value, w)
  }

  /** A UUID that no entry has used yet, as `uuid4` is taken to give. */
  ghost predicate Fresh(entries: seq<Entry>, id: string) {
    forall e :: e in entries ==> e.intent != Some(id)
  }

  lemma FreshIsUnused(p: Profile, w: World, id: string)
    requires Inv(p, w) && Fresh(w.entries, id)
    ensures Unused(w.rpcs, id)
  {
    forall i | 0 <= i < |w.rpcs| ensures w.rpcs[i].intent != id {
      assert Preceded(w.entries, w.rpcs[i]);
    }
  }

  lemma PrecededLater(entries: seq<Entry>, e: Entry, rpc: Rpc)
    requires Preceded(entries, rpc)
    ensures Preceded(entries + [e], rpc)
  {
    match rpc
    case StartThread(role, intent, seen) => RecordedLater(entries, [e], seen, Intended(role, intent));
    case StartTurn(thread, intent, seen) =>
      var role :| Recorded(entries, seen, TurnIntended(role, intent, thread))
        && ThreadRecorded(entries[..seen], role, thread);
      RecordedLater(entries, [e], seen, TurnIntended(role, intent, thread));
      assert (entries + [e])[..seen] == entries[..seen];
  }

  /** A legal entry settles what it binds and leaves other RPCs as they were. */
  lemma SettledLater(p: Profile, entries: seq<Entry>, e: Entry, rpc: Rpc)
    requires Legal(p, entries) && Legal(p, entries + [e]) && Settled(entries, Replay(p, entries).value, rpc)
    ensures Settled(entries + [e], Replay(p, entries + [e]).value, rpc)
  {
    ReplaySnoc(p, entries, e);
    match rpc
    case StartThread(role, intent, _) =>
      if thread :| BoundThread(role, intent, thread) in entries {
        assert BoundThread(role, intent, thread) in entries + [e];
      } else if e.event.ThreadBound? {
        assert e == BoundThread(role, intent, e.subject.value) && e in entries + [e];
      }
    case StartTurn(thread, intent, _) =>
      if r, turn :| BoundTurn(r, intent, turn) in entries {
        assert BoundTurn(r, intent, turn) in entries + [e];
      } else if e.event.TurnBound? {
        assert e == BoundTurn(e.role.value, intent, e.subject.value) && e in entries + [e];
      }
  }

  lemma AppendKeepsRpcs(p: Profile, entries: seq<Entry>, e: Entry, rpcs: seq<Rpc>)
    requires Legal(p, entries) && Legal(p, entries + [e]) && RpcsInOrder(entries, Replay(p, entries).value, rpcs)
    ensures RpcsInOrder(entries + [e], Replay(p, entries + [e]).value, rpcs)
  {
    forall i | 0 <= i < |rpcs|
      ensures Preceded(entries + [e], rpcs[i]) && Settled(entries + [e], Replay(p, entries + [e]).value, rpcs[i])
    {
      PrecededLater(entries, e, rpcs[i]);
      SettledLater(p, entries, e, rpcs[i]);
    }
  }

  /** Storing a legal entry that ends no waiting allocation and rebinds no thread in use keeps the invariant. */
  lemma AppendKeepsInv(p: Profile, w: World, e: Entry)
    requires WellFormed(p) && Inv(p, w) && Legal(p, w.entries + [e])
    requires e.event.ThreadBound? ==> w.waiting == map[]
    ensures Inv(p, w.(entries := w.entries + [e]))
  {
    AppendKeepsRpcs(p, w.entries, e, w.rpcs);
    ReplaySnoc(p, w.entries, e);
    LegalIsConsistent(p, w.entries);
    var st := Replay(p, w.entries).value;
    if st.allocating.Some? {
      NextRoleIsUnbound(p, st);
    }
    StepKeepsBooks(p, st, e, w);
  }

  lemma StepKeepsBooks(p: Profile, st: State, e: Entry, w: World)
    requires Step(p, st, e).Some? && BooksAgree(st, w)
    requires st.allocating.Some? ==> st.allocating.value.role !in st.threads
    requires e.event.ThreadBound? ==> w.waiting == map[]
    ensures BooksAgree(Step(p, st, e).value, w.(entries := w.entries + [e]))
  {
    match e.event
    case AllocationIntent => NothingWaits(st, w);
    case _ =>
  }

  lemma NothingWaits(st: State, w: World)
    requires BooksAgree(st, w) && st.allocating.None?
    ensures w.waiting == map[]
  {
  }

  lemma NextRoleIsUnbound(p: Profile, st: State)
    requires WellFormed(p) && Consistent(p, st) && st.allocating.Some?
    ensures st.allocating.value.role !in st.threads
  {
  }

  /** Issuing an RPC for a recorded, pending, unused intent keeps the invariant. */
  lemma IssueKeepsInv(p: Profile, w: World, rpc: Rpc)
    requires Inv(p, w) && Preceded(w.entries, rpc) && Settled(w.entries, Replay(p, w.entries).value, rpc)
    requires Unused(w.rpcs, rpc.intent)
    requires forall r :: r in w.waiting ==> w.waiting[r] != rpc.intent
    ensures Inv(p, w.(rpcs := w.rpcs + [rpc]))
  {
  }

  lemma TakingKeepsInv(p: Profile, w: World, role: Role, uuid: string, fault: Fault)
    requires WellFormed(p) && Inv(p, w) && Fresh(w.entries, uuid)
    ensures var (w1, intent) := TakeIntent(p, w, role, uuid, fault);
            && Inv(p, w1)
            && (intent.Some? ==>
                  && Replay(p, w1.entries).value.allocating == Some(Allocation(role, intent.value))
                  && w1.waiting == map[] && Unused(w1.rpcs, intent.value))
  {
    if role in w.waiting {
      var st := Replay(p, w.entries).value;
      forall r | r in w.waiting ensures r == role {
        assert st.allocating == Some(Allocation(r, w.waiting[r]));
      }
      assert w.waiting - {role} == map[];
    } else {
      var e := Intended(role, uuid);
      if Legal(p, w.entries + [e]) {
        FreshIsUnused(p, w, uuid);
        ReplaySnoc(p, w.entries, e);
        AppendKeepsInv(p, w, e);
        NothingWaits(Replay(p, w.entries).value, w);
      }
    }
  }

  lemma StartedThreadKeepsInv(p: Profile, w: World, name: Option<RoleName>, uuid: string, f1: Fault, reply: Reply,
                              f2: Fault)
    requires WellFormed(p) && Inv(p, w) && Fresh(w.entries, uuid)
    ensures Inv(p, StartedThread(p, w, name, uuid, f1, reply, f2).0)
  {
    if name.Some? {
      var role := LedgerRole(name.value);
      TakingKeepsInv(p, w, role, uuid, f1);
      var (w1, intent) := TakeIntent(p, w, role, uuid, f1);
      if intent.Some? {
        IssuedThreadKeepsInv(p, w1, role, intent.value);
        BoundReplyKeepsInv(p, IssueThread(w1, role, intent.value), role, intent.value, reply, f2);
      }
    }
  }

  lemma IssuedThreadKeepsInv(p: Profile, w: World, role: Role, intent: string)
    requires Inv(p, w) && w.waiting == map[] && Unused(w.rpcs, intent)
    requires Replay(p, w.entries).value.allocating == Some(Allocation(role, intent))
    ensures Inv(p, IssueThread(w, role, intent))
  {
    PendingIsRecorded(p, w.entries);
    assert w.entries[..|w.entries|] == w.entries;
    IssueKeepsInv(p, w, StartThread(role, intent, |w.entries|));
  }

  lemma BoundReplyKeepsInv(p: Profile, w: World, role: Role, intent: string, reply: Reply, fault: Fault)
    requires WellFormed(p) && Inv(p, w) && w.waiting == map[]
    ensures Inv(p, BindReply(p, w, role, intent, reply, fault).0)
  {
    if reply.Answers? && reply.id.Some? {
      var e := BoundThread(role, intent, reply.id.value);
      if Legal(p, w.entries + [e]) {
        AppendKeepsInv(p, w, e);
        BindingKeepsInv(p, w, role, intent, reply.id.value);
      }
    }
  }

  lemma BindingKeepsInv(p: Profile, w: World, role: Role, intent: string, thread: string)
    requires var e := BoundThread(role, intent, thread); Legal(p, w.entries) && Legal(p, w.entries + [e])
    requires Inv(p, w.(entries := w.entries + [BoundThread(role, intent, thread)]))
    ensures Inv(p, w.(entries := w.entries + [BoundThread(role, intent, thread)], roles := w.roles[thread := role]))
  {
    ReplaySnoc(p, w.entries, BoundThread(role, intent, thread));
  }

  lemma StartedTurnKeepsInv(p: Profile, w: World, thread: string, uuid: string, f1: Fault, reply: Reply, f2: Fault)
    requires WellFormed(p) && Inv(p, w) && Fresh(w.entries, uuid)
    ensures Inv(p, StartedTurn(p, w, thread, uuid, f1, reply, f2).0)
  {
    if thread in w.roles {
      var role := w.roles[thread];
      var e := TurnIntended(role, uuid, thread);
      if Legal(p, w.entries + [e]) {
        IntendedTurnKeepsInv(p, w, role, thread, uuid);
        if f1.Fine? && reply.Answers? && reply.id.Some? {
          var w1 := w.(entries := w.entries + [e]);
          TurnReplyKeepsInv(p, w1.(rpcs := w1.rpcs + [StartTurn(thread, uuid, |w1.entries|)]),
                            BoundTurn(role, uuid, reply.id.value));
        }
      }
    }
  }

  lemma TurnReplyKeepsInv(p: Profile, w: World, e: Entry)
    requires WellFormed(p) && Inv(p, w) && e.event.TurnBound?
    ensures Legal(p, w.entries + [e]) ==> Inv(p, w.(entries := w.entries + [e]))
  {
    if Legal(p, w.entries + [e]) {
      AppendKeepsInv(p, w, e);
    }
  }

  lemma IntendedTurnKeepsInv(p: Profile, w: World, role: Role, thread: string, uuid: string)
    requires WellFormed(p) && Inv(p, w) && Fresh(w.entries, uuid)
    requires thread in w.roles && w.roles[thread] == role && Legal(p, w.entries + [TurnIntended(role, uuid, thread)])
    ensures var w1 := w.(entries := w.entries + [TurnIntended(role, uuid, thread)]);
            Inv(p, w1) && Inv(p, w1.(rpcs := w1.rpcs + [StartTurn(thread, uuid, |w1.entries|)]))
  {
    var e := TurnIntended(role, uuid, thread);
    var w1 := w.(entries := w.entries + [e]);
    AppendKeepsInv(p, w, e);
    FreshIsUnused(p, w, uuid);
    WaitingIsRecorded(p, w, uuid);
    TurnIsPreceded(p, w.entries, role, thread, uuid);
    IssueKeepsInv(p, w1, StartTurn(thread, uuid, |w1.entries|));
  }

  lemma TurnIsPreceded(p: Profile, entries: seq<Entry>, role: Role, thread: string, uuid: string)
    requires Legal(p, entries) && Legal(p, entries + [TurnIntended(role, uuid, thread)])
    ensures var after := entries + [TurnIntended(role, uuid, thread)];
            var rpc := StartTurn(thread, uuid, |after|);
            Preceded(after, rpc) && Settled(after, Replay(p, after).value, rpc)
  {
    var after := entries + [TurnIntended(role, uuid, thread)];
    ReplaySnoc(p, entries, TurnIntended(role, uuid, thread));
    ThreadsAreRecorded(p, after, role);
    assert after[..|after|] == after;
    assert Recorded(after, |after|, TurnIntended(role, uuid, thread));
  }

  lemma WaitingIsRecorded(p: Profile, w: World, uuid: string)
    requires Inv(p, w) && Fresh(w.entries, uuid)
    ensures forall r :: r in w.waiting ==> w.waiting[r] != uuid
  {
    PendingIsRecorded(p, w.entries);
  }

  // ---------- every run ----------

  /** One call on the transport or one entry the activation itself records, with the faults that befall it. */
  datatype Call =
    | Thread(name: Option<RoleName>, uuid: string, f1: Fault, reply: Reply, f2: Fault)
    | Turn(thread: string, uuid: string, f1: Fault, reply: Reply, f2: Fault)
    | Record(event: Event, fault: Fault)

  function After(p: Profile, w: World, call: Call): World {
    match call
    case Thread(name, uuid, f1, reply, f2) => StartedThread(p, w, name, uuid, f1, reply, f2).0
    case Turn(thread, uuid, f1, reply, f2) => StartedTurn(p, w, thread, uuid, f1, reply, f2).0
    case Record(event, fault) =>
      w.(entries := AppendEntry(p, w.entries, Entry(event, None, None, None), fault).entries)
  }

  function Run(p: Profile, w: World, calls: seq<Call>): World {
    if calls == [] then w else After(p, Run(p, w, calls[..|calls| - 1]), calls[|calls| - 1])
  }

  ghost predicate FreshIds(p: Profile, w: World, calls: seq<Call>) {
    forall i :: 0 <= i < |calls| && !calls[i].Record? ==> Fresh(Run(p, w, calls[..i]).entries, calls[i].uuid)
  }

  /** Where a transport starts: a legal ledger, no RPC yet, at most the pending allocation handed over. */
  ghost predicate Initial(p: Profile, w: World) {
    && Legal(p, w.entries) && w.rpcs == [] && w.roles == map[]
    && forall r :: r in w.waiting ==> Replay(p, w.entries).value.allocating == Some(Allocation(r, w.waiting[r]))
  }

  lemma CallKeepsInv(p: Profile, w: World, call: Call)
    requires WellFormed(p) && Inv(p, w) && (call.Record? || Fresh(w.entries, call.uuid))
    ensures Inv(p, After(p, w, call))
  {
    match call
    case Thread(name, uuid, f1, reply, f2) => StartedThreadKeepsInv(p, w, name, uuid, f1, reply, f2);
    case Turn(thread, uuid, f1, reply, f2) => StartedTurnKeepsInv(p, w, thread, uuid, f1, reply, f2);
    case Record(event, fault) => RecordKeepsInv(p, w, Entry(event, None, None, None), fault);
  }

  lemma RecordKeepsInv(p: Profile, w: World, e: Entry, fault: Fault)
    requires WellFormed(p) && Inv(p, w) && Bare(e)
    ensures Inv(p, w.(entries := AppendEntry(p, w.entries, e, fault).entries))
  {
    if Legal(p, w.entries + [e]) {
      ReplaySnoc(p, w.entries, e);
      AppendKeepsInv(p, w, e);
    }
  }

  lemma {:induction false} RunKeepsInv(p: Profile, w: World, calls: seq<Call>)
    requires WellFormed(p) && Initial(p, w) && FreshIds(p, w, calls)
    ensures Inv(p, Run(p, w, calls))
  {
    if calls != [] {
      var n := |calls| - 1;
      assert forall i :: 0 <= i <= n ==> calls[..n][..i] == calls[..i];
      RunKeepsInv(p, w, calls[..n]);
      CallKeepsInv(p, Run(p, w, calls[..n]), calls[n]);
    }
  }

  /** Two runs in a row are one run. */
  lemma {:induction false} RunAppend(p: Profile, w: World, calls: seq<Call>, more: seq<Call>)
    ensures Run(p, w, calls + more) == Run(p, Run(p, w, calls), more)
    decreases |more|
  {
    if more == [] {
      assert calls + more == calls;
    } else {
      var n := |more| - 1;
      RunAppend(p, w, calls, more[..n]);
      assert (calls + more)[..|calls + more| - 1] == calls + more[..n];
    }
  }

  // ---------- distinct identifiers are fresh ----------

  /** No two calls mint the same identifier, and none mints one of `used`. */
  ghost predicate DistinctIds(calls: seq<Call>, used: set<string>) {
    && (forall i :: 0 <= i < |calls| && !calls[i].Record? ==> calls[i].uuid !in used)
    && (forall i, j :: 0 <= i < j < |calls| && !calls[i].Record? && !calls[j].Record? ==>
        calls[i].uuid != calls[j].uuid)
  }

  ghost predicate EntriesIn(entries: seq<Entry>, known: set<string>) {
    forall e :: e in entries && e.intent.Some? ==> e.intent.value in known
  }

  /** Every intent in the ledger or handed over is known. */
  ghost predicate IntentsIn(w: World, known: set<string>) {
    EntriesIn(w.entries, known) && forall r :: r in w.waiting ==> w.waiting[r] in known
  }

  function Minted(call: Call): set<string> {
    if call.Record? then {} else {call.uuid}
  }

  lemma AppendStaysIn(p: Profile, entries: seq<Entry>, e: Entry, fault: Fault, known: set<string>)
    requires EntriesIn(entries, known) && (e.intent.Some? ==> e.intent.value in known)
    ensures EntriesIn(AppendEntry(p, entries, e, fault).entries, known)
  {
  }

  lemma ThreadMintsOneIntent(p: Profile, w: World, name: RoleName, uuid: string, f1: Fault, reply: Reply, f2: Fault,
                             known: set<string>)
    requires IntentsIn(w, known) && uuid in known
    ensures IntentsIn(StartedThread(p, w, Some(name), uuid, f1, reply, f2).0, known)
  {
    var role := LedgerRole(name);
    AppendStaysIn(p, w.entries, Intended(role, uuid), f1, known);
    var (w1, intent) := TakeIntent(p, w, role, uuid, f1);
    if intent.Some? && reply.Answers? && reply.id.Some? {
      AppendStaysIn(p, w1.entries, BoundThread(role, intent.value, reply.id.value), f2, known);
    }
  }

  lemma TurnMintsOneIntent(p: Profile, w: World, thread: string, uuid: string, f1: Fault, reply: Reply, f2: Fault,
                           known: set<string>)
    requires IntentsIn(w, known) && uuid in known
    ensures IntentsIn(StartedTurn(p, w, thread, uuid, f1, reply, f2).0, known)
  {
    if thread in w.roles {
      var role := w.roles[thread];
      var r := AppendEntry(p, w.entries, TurnIntended(role, uuid, thread), f1);
      AppendStaysIn(p, w.entries, TurnIntended(role, uuid, thread), f1, known);
      if reply.Answers? && reply.id.Some? {
        AppendStaysIn(p, r.entries, BoundTurn(role, uuid, reply.id.value), f2, known);
      }
    }
  }

  lemma CallMintsOneIntent(p: Profile, w: World, call: Call, known: set<string>)
    requires IntentsIn(w, known)
    ensures IntentsIn(After(p, w, call), known + Minted(call))
  {
    match call
    case Thread(name, uuid, f1, reply, f2) =>
      if name.Some? {
        ThreadMintsOneIntent(p, w, name.value, uuid, f1, reply, f2, known + {uuid});
      }
    case Turn(thread, uuid, f1, reply, f2) => TurnMintsOneIntent(p, w, thread, uuid, f1, reply, f2, known + {uuid});
    case Record(event, fault) => AppendStaysIn(p, w.entries, Entry(event, None, None, None), fault, known);
  }

  function MintedBy(calls: seq<Call>): set<string> {
    set c | c in calls && !c.Record? :: c.uuid
  }

  lemma {:induction false} RunMintsItsIntents(p: Profile, w: World, calls: seq<Call>, known: set<string>)
    requires IntentsIn(w, known)
    ensures IntentsIn(Run(p, w, calls), known + MintedBy(calls))
  {
    if calls != [] {
      var n := |calls| - 1;
      RunMintsItsIntents(p, w, calls[..n], known);
      CallMintsOneIntent(p, Run(p, w, calls[..n]), calls[n], known + MintedBy(calls[..n]));
      assert calls == calls[..n] + [calls[n]];
      assert known + MintedBy(calls[..n]) + Minted(calls[n]) == known + MintedBy(calls);
    }
  }

  /** Identifiers that are pairwise distinct, and unused at the start, are fresh whenever they are minted. */
  lemma DistinctIdsAreFresh(p: Profile, w: World, calls: seq<Call>, used: set<string>)
    requires IntentsIn(w, used) && DistinctIds(calls, used)
    ensures FreshIds(p, w, calls)
  {
    forall i | 0 <= i < |calls| && !calls[i].Record? ensures Fresh(Run(p, w, calls[..i]).entries, calls[i].uuid) {
      RunMintsItsIntents(p, w, calls[..i], used);
      forall c | c in calls[..i] && !c.Record? ensures c.uuid != calls[i].uuid {
        var j :| 0 <= j < i && calls[..i][j] == c;
        assert calls[j] == c;
      }
    }
  }

  /** Appending records mints nothing. */
  lemma RecordsMintNothing(calls: seq<Call>, records: seq<Call>, used: set<string>)
    requires DistinctIds(calls, used) && forall c :: c in records ==> c.Record?
    ensures DistinctIds(calls + records, used)
  {
    var all := calls + records;
    forall i | |calls| <= i < |all| ensures all[i].Record? {
      assert all[i] == records[i - |calls|] && all[i] in records;
    }
  }

  /**
   Whatever calls are made and whatever fails, each RPC was issued after its own intent was recorded, no two share
   an intent, and turns went only to threads bound to a role.
   */
  lemma RpcsFollowTheirOwnIntent(p: Profile, w: World, calls: seq<Call>)
    requires WellFormed(p) && Initial(p, w) && FreshIds(p, w, calls)
    ensures var end := Run(p, w, calls);
            OneRpcPerIntent(end.rpcs) && forall i :: 0 <= i < |end.rpcs| ==> Preceded(end.entries, end.rpcs[i])
  {
    RunKeepsInv(p, w, calls);
  }

  // ---------- containment ----------

  /**
   `_contain_allocated_threads`: the completeness it reports, given the sweep's own finding; no report at all when
   a ledger exists and cannot be read.
   */
  function ReportsContained(p: Profile, ledger: Option<seq<Entry>>, readable: bool, sweepContained: bool)
    : Option<bool>
  {
    if ledger.None? then Some(sweepContained)
    else if !readable || Replay(p, ledger.value).None? then None
    else
      var st := Replay(p, ledger.value).value;
      Some(sweepContained && st.allocating.None? && st.turning.None?)
  }

  /** The outcome of an RPC stands in the ledger. */
  ghost predicate Identified(entries: seq<Entry>, rpc: Rpc) {
    match rpc
    case StartThread(role, intent, _) => exists thread :: BoundThread(role, intent, thread) in entries
    case StartTurn(_, intent, _) => exists role, turn :: BoundTurn(role, intent, turn) in entries
  }

  /** Containment is reported complete only when every RPC ever issued is identified in the ledger. */
  lemma ContainedMeansIdentified(p: Profile, w: World, calls: seq<Call>, readable: bool, sweepContained: bool)
    requires WellFormed(p) && Initial(p, w) && FreshIds(p, w, calls)
    requires ReportsContained(p, Some(Run(p, w, calls).entries), readable, sweepContained) == Some(true)
    ensures forall i :: 0 <= i < |Run(p, w, calls).rpcs| ==>
            Identified(Run(p, w, calls).entries, Run(p, w, calls).rpcs[i])
  {
    RunKeepsInv(p, w, calls);
    var end := Run(p, w, calls);
    forall i | 0 <= i < |end.rpcs| ensures Identified(end.entries, end.rpcs[i]) {
      assert Settled(end.entries, Replay(p, end.entries).value, end.rpcs[i]);
    }
  }
}
