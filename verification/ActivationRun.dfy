/**
 `run_live_activation`: one attempt, in which any step may fail. The effects of an attempt are logged, so that what
 an accepted result presupposes can be read off the log.
 */
module ActivationRun {
  import opened Wrappers
  import opened ActivationLedger
  import LT = LedgerTransport
  import BC = BeadClosure

  datatype Effect =
    | ClaimAttempted | ClaimTaken
    | LedgerCreated
    | Recorded(event: Event)
    | ApprovalChecked
    | CohortReserved | CohortAdmitted | BindingMatched
    | ServerStarted
    | Calibrated | ContractsWritten | PoolContractBuilt | PreflightRun | PreflightAccepted | PreflightWritten
    | PoolRun | PoolPersisted | TracePersisted | PoolAccepting | TraceSatisfied
    | ClosureWritten | BeadsClosed
    | TerminalRecorded(accepted: bool)
    | LedgerLoaded
    | FailureCaught | ThreadsSwept | ContainmentReported(complete: bool)
    | ResultWritten(accepted: bool)
    | ServerClosed

  const STEPS: int := 28

  /** The place of an effect in a successful attempt; -1 for what only failure handling and clean-up do. */
  function Place(e: Effect): int {
    match e
    case ClaimAttempted => 0
    case ClaimTaken => 1
    case LedgerCreated => 2
    case Recorded(ApprovalConsumeIntent) => 3
    case ApprovalChecked => 4
    case Recorded(ApprovalVerified) => 5
    case Recorded(DispatchIntent) => 6
    case CohortReserved => 7
    case CohortAdmitted => 8
    case BindingMatched => 9
    case Recorded(AllocationIntent) => 10
    case ServerStarted => 11
    case Calibrated => 12
    case ContractsWritten => 13
    case PoolContractBuilt => 14
    case PreflightRun => 15
    case PreflightAccepted => 16
    case PreflightWritten => 17
    case PoolRun => 18
    case PoolPersisted => 19
    case TracePersisted => 20
    case PoolAccepting => 21
    case TraceSatisfied => 22
    case ClosureWritten => 23
    case BeadsClosed => 24
    case TerminalRecorded(true) => 25
    case LedgerLoaded => 26
    case ResultWritten(true) => 27
    case _ => -1
  }

  /** The first `n` effects are those of a successful attempt, each in its place. */
  ghost predicate OnPath(log: seq<Effect>, n: int) {
    0 <= n <= |log| && forall i :: 0 <= i < n ==> Place(log[i]) == i
  }

  datatype Outcome = Ok | Raised {
    predicate IsFailure() { Raised? }
    function PropagateFailure(): Outcome requires Raised? { Raised }
  }

  /** What the pool receipt says; acceptance needs all four. */
  datatype PoolReceipt = PoolReceipt(accepting: bool, disposition: bool, noReasons: bool, noFault: bool,
                                     rows: Option<seq<Option<BC.Disposition>>>)

  predicate Accepting(r: PoolReceipt) {
    r.accepting && r.disposition && r.noReasons && r.noFault
  }

  /** Imported work that drives the transport: the calls it makes, and whether it returns normally. */
  datatype Work = Work(calls: seq<LT.Call>, ok: bool)

  /** An exclusive file write: done, failed without leaving the file, or failed after creating it. */
  datatype Write = Written | NotWritten | WrittenThenRaised

  /** How every step of one attempt turns out. */
  datatype Script = Script(
    claim: bool, createLedger: bool, consume: Fault, approval: bool, verified: Fault, dispatch: Fault,
    reserves: bool, admitted: bool, bindingMatches: bool, intent: Fault, intentId: string, serverStarts: bool,
    calibration: Work, contracts: Work, contractBuilt: bool, preflightRuns: bool, preflightAccepts: bool,
    preflightWritten: bool, pool: Work, poolPersisted: bool, tracePersisted: bool, receipt: PoolReceipt,
    traceSatisfied: bool,
    tasks: seq<BC.Task>, epic: string, reservation: BC.Reservation, adapter: BC.Adapter, closureWritten: bool,
    terminal: Fault, loads: bool, result: Write,
    // the failure handler
    readable: bool, sweepContained: bool, containmentWritten: bool, rejectedTerminal: Fault, rejectedResult: Write,
    // the clean-up
    closes: bool)

  predicate OnlyRpcs(w: Work) {
    forall c :: c in w.calls ==> !c.Record?
  }

  /** Every gate in front of an app-server is passed. */
  predicate StartsServer(s: Script) {
    && s.claim && s.createLedger && s.consume.Fine? && s.approval && s.verified.Fine? && s.dispatch.Fine?
    && s.reserves && s.admitted && s.bindingMatches && s.intent.Fine? && s.serverStarts
  }

  /** Every gate in front of the terminal record is passed. */
  ghost predicate ReachesTerminal(s: Script) {
    && StartsServer(s)
    && s.calibration.ok && s.contracts.ok && s.contractBuilt
    && s.preflightRuns && s.preflightAccepts && s.preflightWritten
    && s.pool.ok && s.poolPersisted && s.tracePersisted
    && s.receipt.accepting && s.receipt.disposition && s.receipt.noReasons && s.receipt.noFault && s.traceSatisfied
    && s.closureWritten && BC.FullyClosed(s.tasks, s.epic, s.reservation, s.receipt.rows, s.adapter)
  }

  /** The transport calls of the first `k` pieces of work. */
  function ScriptCalls(s: Script, k: nat): seq<LT.Call> {
    if k == 0 then [] else ScriptCalls(s, k - 1) + WorkAt(s, k - 1).calls
  }

  function WorkAt(s: Script, k: nat): Work {
    if k == 0 then s.calibration else if k == 1 then s.contracts else s.pool
  }

  lemma ScriptCallsGrow(s: Script, k: nat)
    requires k < 3
    ensures ScriptCalls(s, k + 1) == ScriptCalls(s, k) + WorkAt(s, k).calls
    ensures ScriptCalls(s, k + 1) <= ScriptCalls(s, 3)
  {
  }

  /** All identifiers of the attempt differ. */
  ghost predicate MintsDistinctIds(s: Script) {
    LT.DistinctIds(ScriptCalls(s, 3), {s.intentId})
  }

  /** The ledger is in the middle of its history: neither new nor ended. */
  ghost predicate Running(p: Profile, entries: seq<Entry>) {
    Legal(p, entries) && !Replay(p, entries).value.phase.New? && !Replay(p, entries).value.phase.Ended?
  }

  function LedgerOf(w: Option<LT.World>): Option<seq<Entry>> {
    if w.Some? then Some(w.value.entries) else None
  }

  /** A ledger fresh from creation: the claim, and nothing else. */
  function NewLedger(p: Profile): (w: LT.World)
    ensures Replay(p, w.entries) == Some(State(Claimed, 0, None, map[], 0, None))
    ensures w.rpcs == [] && LT.EntriesIn(w.entries, {})
  {
    var entry := Entry(ClaimAcquired, None, None, None);
    ReplaySnoc(p, [], entry);
    assert [] + [entry] == [entry];
    LT.World([entry], [], map[], map[])
  }

  /** The ledger and hand-over list after the calibration intent was recorded or lost. */
  function WithCalibrationIntent(p: Profile, entries: seq<Entry>, id: string, fault: Fault): LT.World {
    var r := AppendEntry(p, entries, Intended(Calibration, id), fault);
    LT.World(r.entries, [], map[], if r.ok then map[Calibration := id] else map[])
  }

  /** The ledger is open for allocations and has none. */
  ghost predicate Unallocated(p: Profile, entries: seq<Entry>) {
    Replay(p, entries) == Some(State(Allocating, 0, None, map[], 0, None))
  }

  lemma CalibrationIntentIsLegal(p: Profile, entries: seq<Entry>, id: string)
    requires WellFormed(p) && p.isUuid(id) && Unallocated(p, entries)
    ensures Replay(p, entries + [Intended(Calibration, id)]) ==
            Some(State(Allocating, 0, Some(Allocation(Calibration, id)), map[], 0, None))
  {
    ReplaySnoc(p, entries, Intended(Calibration, id));
  }

  lemma CalibrationIntentFacts(p: Profile, entries: seq<Entry>, id: string, fault: Fault)
    requires WellFormed(p) && p.isUuid(id) && Unallocated(p, entries)
    ensures var w := WithCalibrationIntent(p, entries, id, fault);
            && Running(p, w.entries) && w.rpcs == []
            && w.entries == entries + (if fault.LostBeforeWrite? then [] else [Intended(Calibration, id)])
            && (fault.Fine? ==> LT.Initial(p, w) && Calibration in w.waiting)
  {
    CalibrationIntentIsLegal(p, entries, id);
    assert entries + [] == entries;
  }

  lemma CalibrationIntentIsKnown(p: Profile, entries: seq<Entry>, id: string, fault: Fault)
    requires LT.EntriesIn(entries, {})
    ensures LT.IntentsIn(WithCalibrationIntent(p, entries, id, fault), {id})
  {
    LT.AppendStaysIn(p, entries, Intended(Calibration, id), fault, {id});
  }

  lemma StepKeepsRunning(p: Profile, entries: seq<Entry>, e: Entry, fault: Fault)
    requires Running(p, entries) && !e.event.Terminal?
    ensures Running(p, AppendEntry(p, entries, e, fault).entries)
  {
    ReplaySnoc(p, entries, e);
  }

  lemma RpcKeepsRunning(p: Profile, w: LT.World, call: LT.Call)
    requires Running(p, w.entries) && !call.Record?
    ensures Running(p, LT.After(p, w, call).entries)
  {
    match call
    case Thread(name, uuid, f1, reply, f2) =>
      if name.Some? {
        var role := LT.LedgerRole(name.value);
        StepKeepsRunning(p, w.entries, Intended(role, uuid), f1);
        var (w1, intent) := LT.TakeIntent(p, w, role, uuid, f1);
        if intent.Some? && reply.Answers? && reply.id.Some? {
          StepKeepsRunning(p, w1.entries, BoundThread(role, intent.value, reply.id.value), f2);
        }
      }
    case Turn(thread, uuid, f1, reply, f2) =>
      if thread in w.roles {
        var role := w.roles[thread];
        var intended := TurnIntended(role, uuid, thread);
        StepKeepsRunning(p, w.entries, intended, f1);
        if reply.Answers? && reply.id.Some? {
          StepKeepsRunning(p, AppendEntry(p, w.entries, intended, f1).entries, BoundTurn(role, uuid, reply.id.value),
                           f2);
        }
      }
  }

  lemma {:induction false} RpcsKeepRunning(p: Profile, w: LT.World, calls: seq<LT.Call>)
    requires Running(p, w.entries) && forall c :: c in calls ==> !c.Record?
    ensures Running(p, LT.Run(p, w, calls).entries)
  {
    if calls != [] {
      var n := |calls| - 1;
      RpcsKeepRunning(p, w, calls[..n]);
      RpcKeepsRunning(p, LT.Run(p, w, calls[..n]), calls[n]);
    }
  }

  // ---------- tracing the transport ----------

  /** Where the transport began, how many pieces of work drove it, and the entries recorded after them. */
  datatype Trace = Trace(start: Option<LT.World>, pieces: nat, records: seq<LT.Call>)

  function Calls(s: Script, t: Trace): seq<LT.Call> {
    ScriptCalls(s, t.pieces) + t.records
  }

  /** The ledger is what the traced run left of it; without a transport no RPC was issued. */
  ghost predicate TracedBy(p: Profile, s: Script, ledger: Option<LT.World>, t: Trace) {
    if t.start.None? then ledger.Some? ==> ledger.value.rpcs == []
    else
      && ledger.Some? && LT.Initial(p, t.start.value) && LT.IntentsIn(t.start.value, {s.intentId})
      && ledger.value == LT.Run(p, t.start.value, Calls(s, t))
      && t.pieces <= 3 && forall c :: c in t.records ==> c.Record?
  }

  lemma DrivingIsTraced(p: Profile, s: Script, w: LT.World, t: Trace, k: nat)
    requires k < 3 && t.start.Some? && t.records == [] && t.pieces == k && TracedBy(p, s, Some(w), t)
    ensures TracedBy(p, s, Some(LT.Run(p, w, WorkAt(s, k).calls)), t.(pieces := k + 1))
  {
    ScriptCallsGrow(s, k);
    LT.RunAppend(p, t.start.value, ScriptCalls(s, k), WorkAt(s, k).calls);
    assert Calls(s, t) == ScriptCalls(s, k);
    assert Calls(s, t.(pieces := k + 1)) == ScriptCalls(s, k + 1);
  }

  const TERMINAL: Entry := Entry(Terminal, None, None, None)

  function WithRecord(t: Trace, fault: Fault): Trace {
    if t.start.None? then t else t.(records := t.records + [LT.Record(Terminal, fault)])
  }

  /** The ledger after an attempt to record its end. */
  ghost function WithTerminal(p: Profile, w: LT.World, fault: Fault): LT.World {
    if Running(p, w.entries) && !fault.LostBeforeWrite? then w.(entries := w.entries + [TERMINAL]) else w
  }

  lemma TerminalFacts(p: Profile, w: LT.World, fault: Fault)
    requires Legal(p, w.entries) && !Replay(p, w.entries).value.phase.New?
    ensures var r := AppendEntry(p, w.entries, TERMINAL, fault); var after := WithTerminal(p, w, fault);
            && after.entries == r.entries && (Running(p, w.entries) ==> (r.ok <==> fault.Fine?))
            && Legal(p, after.entries) && !Replay(p, after.entries).value.phase.New?
            && (Replay(p, after.entries).value.phase.Ended? <==>
                  Replay(p, w.entries).value.phase.Ended? || after.entries != w.entries)
  {
    ReplaySnoc(p, w.entries, TERMINAL);
  }

  lemma RecordingIsTraced(p: Profile, s: Script, w: LT.World, t: Trace, fault: Fault)
    requires TracedBy(p, s, Some(w), t)
    ensures TracedBy(p, s, Some(w.(entries := AppendEntry(p, w.entries, TERMINAL, fault).entries)),
                     WithRecord(t, fault))
  {
    if t.start.Some? {
      var record := [LT.Record(Terminal, fault)];
      LT.RunAppend(p, t.start.value, Calls(s, t), record);
      assert Calls(s, t) + record == Calls(s, WithRecord(t, fault));
      assert record[..0] == [] && LT.Run(p, w, record) == LT.After(p, w, record[0]);
    }
  }

  /** Every RPC was issued after its own intent, and no two share one. */
  ghost predicate WriteAhead(w: LT.World) {
    LT.OneRpcPerIntent(w.rpcs) && forall i :: 0 <= i < |w.rpcs| ==> LT.Preceded(w.entries, w.rpcs[i])
  }

  ghost predicate AllIdentified(w: LT.World) {
    forall i :: 0 <= i < |w.rpcs| ==> LT.Identified(w.entries, w.rpcs[i])
  }

  lemma TracedIsFresh(p: Profile, s: Script, w: LT.World, t: Trace)
    requires TracedBy(p, s, Some(w), t) && t.start.Some? && MintsDistinctIds(s)
    ensures LT.FreshIds(p, t.start.value, Calls(s, t))
  {
    var all, driven := ScriptCalls(s, 3), ScriptCalls(s, t.pieces);
    if t.pieces > 0 {
      ScriptCallsGrow(s, t.pieces - 1);
    }
    assert forall i :: 0 <= i < |driven| ==> driven[i] == all[i];
    assert LT.DistinctIds(driven, {s.intentId});
    LT.RecordsMintNothing(driven, t.records, {s.intentId});
    LT.DistinctIdsAreFresh(p, t.start.value, Calls(s, t), {s.intentId});
  }

  lemma TracedIsWriteAhead(p: Profile, s: Script, w: LT.World, t: Trace)
    requires WellFormed(p) && TracedBy(p, s, Some(w), t) && MintsDistinctIds(s)
    ensures WriteAhead(w)
  {
    if t.start.Some? {
      TracedIsFresh(p, s, w, t);
      LT.RpcsFollowTheirOwnIntent(p, t.start.value, Calls(s, t));
    }
  }

  /** A report of complete containment means that every RPC is identified in the ledger. */
  lemma ReportIsTrue(p: Profile, s: Script, w: LT.World, t: Trace, readable: bool, swept: bool)
    requires WellFormed(p) && TracedBy(p, s, Some(w), t) && MintsDistinctIds(s)
    requires LT.ReportsContained(p, Some(w.entries), readable, swept) == Some(true)
    ensures AllIdentified(w)
  {
    if t.start.Some? {
      TracedIsFresh(p, s, w, t);
      LT.ContainedMeansIdentified(p, t.start.value, Calls(s, t), readable, swept);
    }
  }

  lemma StaysIdentified(w: LT.World, entries: seq<Entry>)
    requires AllIdentified(w) && w.entries <= entries
    ensures AllIdentified(w.(entries := entries))
  {
    forall i | 0 <= i < |w.rpcs| ensures LT.Identified(entries, w.rpcs[i]) {
      assert LT.Identified(w.entries, w.rpcs[i]);
      assert forall e :: e in w.entries ==> e in entries;
    }
  }

  // ---------- the failure handler ----------

  /** Only failure handling leaves these effects. */
  predicate HandlerEffect(e: Effect) {
    || e.FailureCaught? || e.ThreadsSwept? || e.ContainmentReported?
    || e == TerminalRecorded(false) || e == ResultWritten(false)
  }

  /** What is reported about containment; nothing when a ledger exists and its summary cannot be read. */
  function Findings(p: Profile, s: Script, ledger: Option<LT.World>, server: bool): Option<bool> {
    LT.ReportsContained(p, LedgerOf(ledger), s.readable, !server || s.sweepContained)
  }

  /** The handler stores a rejected terminal record: the ledger is open and the write is not lost. */
  ghost predicate StoresTerminal(p: Profile, ledger: Option<LT.World>, fault: Fault) {
    ledger.Some? && Running(p, ledger.value.entries) && !fault.LostBeforeWrite?
  }

  function Containment(s: Script, report: Option<bool>, server: bool): seq<Effect> {
    if report.None? then []
    else (if server then [ThreadsSwept] else []) + [ContainmentReported(report.value && s.containmentWritten)]
  }

  ghost function RejectedTerminal(p: Profile, s: Script, ledger: Option<LT.World>): seq<Effect> {
    if StoresTerminal(p, ledger, s.rejectedTerminal) then [TerminalRecorded(false)] else []
  }

  function RejectedResult(s: Script, result: Option<bool>): seq<Effect> {
    if result.None? && !s.rejectedResult.NotWritten? then [ResultWritten(false)] else []
  }

  /**
   What a failure leaves in the log. The summary of the ledger is read first: if that fails, the started threads are
   not swept, nothing is reported, and neither a terminal record nor a result is written.
   */
  ghost function Trail(p: Profile, s: Script, ledger: Option<LT.World>, server: bool,
                       result: Option<bool>): seq<Effect> {
    var report := Findings(p, s, ledger, server);
    [FailureCaught] + Containment(s, report, server) +
    if report.None? then [] else RejectedTerminal(p, s, ledger) + RejectedResult(s, result)
  }

  lemma TrailIsAppended(p: Profile, s: Script, log: seq<Effect>, ledger: Option<LT.World>, server: bool,
                        result: Option<bool>)
    ensures var report := Findings(p, s, ledger, server); var all := log + Trail(p, s, ledger, server, result);
            && all == log + [FailureCaught] + Containment(s, report, server) +
                      (if report.None? then [] else RejectedTerminal(p, s, ledger) + RejectedResult(s, result))
            && all[|log|..] == Trail(p, s, ledger, server, result)
  {
  }

  lemma IdentifiedWhenContained(p: Profile, s: Script, w: LT.World, t: Trace, server: bool)
    requires WellFormed(p) && TracedBy(p, s, Some(w), t)
    ensures MintsDistinctIds(s) && Findings(p, s, Some(w), server) == Some(true) ==>
              AllIdentified(WithTerminal(p, w, s.rejectedTerminal))
  {
    if MintsDistinctIds(s) && Findings(p, s, Some(w), server) == Some(true) {
      ReportIsTrue(p, s, w, t, s.readable, !server || s.sweepContained);
      StaysIdentified(w, WithTerminal(p, w, s.rejectedTerminal).entries);
    }
  }

  /** Nothing, or what failure handling leaves. */
  ghost predicate IsTrail(trail: seq<Effect>) {
    && (trail != [] ==> trail[0] == FailureCaught)
    && forall e :: e in trail ==> HandlerEffect(e)
  }

  predicate Reported(log: seq<Effect>) {
    ContainmentReported(true) in log || ContainmentReported(false) in log
  }

  lemma ContainmentFacts(s: Script, report: Option<bool>, server: bool)
    ensures var c := Containment(s, report, server);
            && (forall e :: e in c ==> e.ThreadsSwept? || e.ContainmentReported?)
            && (ContainmentReported(true) in c <==> report.Some? && report.value && s.containmentWritten)
            && (ContainmentReported(false) in c <==> report.Some? && !(report.value && s.containmentWritten))
            && (ThreadsSwept in c <==> report.Some? && server)
  {
  }

  lemma InTrail(c: seq<Effect>, terminal: seq<Effect>, result: seq<Effect>, e: Effect)
    ensures e in [FailureCaught] + c + (terminal + result) <==>
            e == FailureCaught || e in c || e in terminal || e in result
  {
  }

  lemma TrailFacts(p: Profile, s: Script, ledger: Option<LT.World>, server: bool, result: Option<bool>)
    requires ledger.Some? ==> Legal(p, ledger.value.entries)
    ensures var trail := Trail(p, s, ledger, server, result);
            var readable := ledger.None? || s.readable;
            && IsTrail(trail) && trail != []
            && (Reported(trail) <==> readable)
            && (ThreadsSwept in trail <==> server && readable)
            && (TerminalRecorded(false) in trail <==> StoresTerminal(p, ledger, s.rejectedTerminal) && readable)
            && (ResultWritten(false) in trail <==> result.None? && !s.rejectedResult.NotWritten? && readable)
            && (ContainmentReported(true) in trail ==> Findings(p, s, ledger, server) == Some(true))
  {
    var report := Findings(p, s, ledger, server);
    var readable := report.Some?;
    var terminal := if readable then RejectedTerminal(p, s, ledger) else [];
    var written := if readable then RejectedResult(s, result) else [];
    ContainmentFacts(s, report, server);
    PartsOfTrail(Containment(s, report, server), terminal, written);
    assert terminal + written == if readable then RejectedTerminal(p, s, ledger) + RejectedResult(s, result) else [];
  }

  lemma PartsOfTrail(c: seq<Effect>, terminal: seq<Effect>, written: seq<Effect>)
    requires forall e :: e in c ==> e.ThreadsSwept? || e.ContainmentReported?
    requires terminal <= [TerminalRecorded(false)] && written <= [ResultWritten(false)]
    ensures var trail := [FailureCaught] + c + (terminal + written);
            && IsTrail(trail) && trail != []
            && (ThreadsSwept in trail <==> ThreadsSwept in c)
            && (ContainmentReported(true) in trail <==> ContainmentReported(true) in c)
            && (ContainmentReported(false) in trail <==> ContainmentReported(false) in c)
            && (TerminalRecorded(false) in trail <==> terminal != [])
            && (ResultWritten(false) in trail <==> written != [])
  {
    assert forall e :: e in terminal ==> e == TerminalRecorded(false);
    assert forall e :: e in written ==> e == ResultWritten(false);
    assert terminal != [] ==> terminal[0] == TerminalRecorded(false);
    assert written != [] ==> written[0] == ResultWritten(false);
    forall e: Effect
      ensures e in [FailureCaught] + c + (terminal + written) <==>
              e == FailureCaught || e in c || e in terminal || e in written
    {
      InTrail(c, terminal, written, e);
    }
  }

  /** The attempt left the path after `n` effects, and a failure, if there was one, was caught right there. */
  ghost predicate StoppedAfter(log: seq<Effect>, n: int) {
    && OnPath(log, n) && n <= STEPS
    && (FailureCaught !in log ==> n == STEPS)
    && (FailureCaught in log ==> n < |log| && log[n] == FailureCaught)
  }

  class Activation {
    const p: Profile
    const s: Script
    var log: seq<Effect>
    var ledger: Option<LT.World>
    var server: bool
    var resultFile: Option<bool>
    ghost var trace: Trace

    constructor (p: Profile, s: Script)
      ensures this.p == p && this.s == s
      ensures Unused()
    {
      this.p, this.s := p, s;
      log, ledger, server, resultFile := [], None, false, None;
      trace := Trace(None, 0, []);
    }

    ghost predicate Unused()
      reads this
    {
      log == [] && ledger.None? && !server && resultFile.None? && trace == Trace(None, 0, [])
    }

    /** The log holds the first `n` effects of the path. */
    ghost predicate At(n: nat)
      reads this`log
    {
      |log| == n && OnPath(log, n)
    }

    /** The ledger exists and is still open. */
    ghost predicate Books()
      reads this`ledger
    {
      ledger.Some? && Running(p, ledger.value.entries)
    }

    /** The ledger can take a terminal record, unless it has one. */
    ghost predicate Closable()
      reads this`ledger
    {
      ledger.Some? && Legal(p, ledger.value.entries) && !Replay(p, ledger.value.entries).value.phase.New?
    }

    /** The ledger holds its terminal record. */
    ghost predicate Ended()
      reads this`ledger
    {
      ledger.Some? && Legal(p, ledger.value.entries) && Replay(p, ledger.value.entries).value.phase.Ended?
    }

    /** No transport yet, so no RPC and no intent. */
    ghost predicate Idle()
      reads this`ledger, this`trace
    {
      trace.start.None? && (ledger.Some? ==> ledger.value.rpcs == [] && LT.EntriesIn(ledger.value.entries, {}))
    }

    ghost predicate Traced()
      reads this`ledger, this`trace
    {
      TracedBy(p, s, ledger, trace)
    }

    /** The transport went through the first `k` pieces of work. */
    ghost predicate Driven(k: nat)
      reads this`trace
    {
      trace.start.Some? && trace.records == [] && trace.pieces == k
    }

    /** A step whose success is the next effect of the path. */
    method Do(ok: bool, e: Effect, ghost n: nat) returns (o: Outcome)
      requires At(n) && Place(e) == n
      modifies this`log
      ensures if ok then o.Ok? && At(n + 1) else o.Raised? && At(n)
    {
      if ok {
        log := log + [e];
      }
      o := if ok then Ok else Raised;
    }

    method CreateLedger() returns (o: Outcome)
      requires At(2) && ledger.None? && Idle()
      modifies this`log, this`ledger
      ensures Idle() && if s.createLedger then o.Ok? && At(3) else o.Raised? && At(2) && ledger.None?
      ensures o.Ok? ==> Books() && Replay(p, ledger.value.entries).value == State(Claimed, 0, None, map[], 0, None)
    {
      if s.createLedger {
        ledger := Some(NewLedger(p));
      }
      o := Do(s.createLedger, LedgerCreated, 2);
    }

    /** Records a bare event that takes the ledger to its next phase; it is stored unless the write was lost. */
    method Record(event: Event, fault: Fault, ghost n: nat, ghost next: Phase) returns (o: Outcome)
      requires At(n) && Place(Recorded(event)) == n && Books() && Idle() && !next.New? && !next.Ended?
      requires Step(p, Replay(p, ledger.value.entries).value, Entry(event, None, None, None)) ==
               Some(Replay(p, ledger.value.entries).value.(phase := next))
      modifies this`log, this`ledger
      ensures Books() && Idle() && (o.Ok? <==> fault.Fine?) && At(if fault.LostBeforeWrite? then n else n + 1)
      ensures var stored := if fault.LostBeforeWrite? then [] else [Entry(event, None, None, None)];
              ledger == Some(old(ledger).value.(entries := old(ledger).value.entries + stored))
      ensures o.Ok? ==> Replay(p, ledger.value.entries) ==
                        Some(old(Replay(p, ledger.value.entries).value).(phase := next))
    {
      var entry := Entry(event, None, None, None);
      ReplaySnoc(p, ledger.value.entries, entry);
      var r := AppendEntry(p, ledger.value.entries, entry, fault);
      assert fault.LostBeforeWrite? ==> r.entries == ledger.value.entries + [];
      ledger := Some(ledger.value.(entries := r.entries));
      if !fault.LostBeforeWrite? {
        log := log + [Recorded(event)];
      }
      o := if r.ok then Ok else Raised;
    }

    /** The calibration intent, recorded before any app-server exists and handed to the transport. */
    method RecordCalibrationIntent() returns (o: Outcome)
      requires WellFormed(p) && p.isUuid(s.intentId) && At(10) && Books() && Idle()
      requires Unallocated(p, ledger.value.entries)
      modifies this`log, this`ledger, this`trace
      ensures Books() && Traced() && (o.Ok? <==> s.intent.Fine?) && At(if s.intent.LostBeforeWrite? then 10 else 11)
      ensures var stored := if s.intent.LostBeforeWrite? then [] else [Intended(Calibration, s.intentId)];
              ledger.value.entries == old(ledger).value.entries + stored
      ensures o.Ok? ==> Driven(0) && Calibration in ledger.value.waiting
    {
      CalibrationIntentFacts(p, ledger.value.entries, s.intentId, s.intent);
      CalibrationIntentIsKnown(p, ledger.value.entries, s.intentId, s.intent);
      ledger := Some(WithCalibrationIntent(p, ledger.value.entries, s.intentId, s.intent));
      if s.intent.Fine? {
        trace := Trace(ledger, 0, []);
      }
      var stored := Do(!s.intent.LostBeforeWrite?, Recorded(AllocationIntent), 10);
      o := if s.intent.Fine? then Ok else Raised;
    }

    method StartServer() returns (o: Outcome)
      requires At(11) && !server
      modifies this`log, this`server
      ensures if s.serverStarts then o.Ok? && At(12) && server else o.Raised? && At(11) && !server
    {
      server := s.serverStarts;
      o := Do(s.serverStarts, ServerStarted, 11);
    }

    /** Imported work makes its transport calls, then returns or raises. */
    method Drive(ghost k: nat, work: Work, e: Effect, ghost n: nat) returns (o: Outcome)
      requires k < 3 && work == WorkAt(s, k) && OnlyRpcs(work) && At(n) && Place(e) == n
      requires Books() && Traced() && Driven(k)
      modifies this`log, this`ledger, this`trace
      ensures Books() && Traced() && Driven(k + 1)
      ensures if work.ok then o.Ok? && At(n + 1) else o.Raised? && At(n)
    {
      RpcsKeepRunning(p, ledger.value, work.calls);
      DrivingIsTraced(p, s, ledger.value, trace, k);
      ledger := Some(LT.Run(p, ledger.value, work.calls));
      trace := trace.(pieces := k + 1);
      o := Do(work.ok, e, n);
    }

    /** The terminal record: stored, and in the log, exactly if the ledger was open and the write was not lost. */
    method RecordTerminal(accepted: bool, fault: Fault) returns (o: Outcome)
      requires Closable() && Traced()
      modifies this`log, this`ledger, this`trace
      ensures Closable() && Traced()
      ensures old(Books()) ==> (o.Ok? <==> fault.Fine?)
      ensures log == old(log) + if StoresTerminal(p, old(ledger), fault) then [TerminalRecorded(accepted)] else []
      ensures ledger == Some(WithTerminal(p, old(ledger).value, fault))
      ensures Ended() <==> old(Ended()) || StoresTerminal(p, old(ledger), fault)
    {
      var w := ledger.value;
      TerminalFacts(p, w, fault);
      RecordingIsTraced(p, s, w, trace, fault);
      var r := AppendEntry(p, w.entries, TERMINAL, fault);
      if |r.entries| > |w.entries| {
        log := log + [TerminalRecorded(accepted)];
      }
      trace := WithRecord(trace, fault);
      ledger := Some(w.(entries := r.entries));
      o := if r.ok then Ok else Raised;
    }

    method WriteResult(accepted: bool, write: Write) returns (o: Outcome)
      requires resultFile.None?
      modifies this`log, this`resultFile
      ensures o.Ok? <==> write.Written?
      ensures write.NotWritten? ==> log == old(log) && resultFile.None?
      ensures !write.NotWritten? ==> log == old(log) + [ResultWritten(accepted)] && resultFile == Some(accepted)
    {
      if !write.NotWritten? {
        resultFile := Some(accepted);
        log := log + [ResultWritten(accepted)];
      }
      o := if write.Written? then Ok else Raised;
    }

    // ---------- the try block ----------

    /** Claim, ledger and operator approval. */
    method Authorize() returns (o: Outcome)
      requires At(0) && ledger.None? && Idle()
      modifies this`log, this`ledger
      ensures 1 <= |log| <= 7 && At(|log|) && (ledger.Some? <==> 3 <= |log|) && (ledger.Some? ==> Books()) && Idle()
      ensures o.Ok? <==>
              s.claim && s.createLedger && s.consume.Fine? && s.approval && s.verified.Fine? && s.dispatch.Fine?
      ensures o.Ok? ==> |log| == 7 && Unallocated(p, ledger.value.entries)
    {
      var started := Do(true, ClaimAttempted, 0);
      :- Do(s.claim, ClaimTaken, 1);
      :- CreateLedger();
      o := Approve();
    }

    /** Operator approval, between its own ledger events. */
    method Approve() returns (o: Outcome)
      requires At(3) && Books() && Idle()
      requires Replay(p, ledger.value.entries).value == State(Claimed, 0, None, map[], 0, None)
      modifies this`log, this`ledger
      ensures 3 <= |log| <= 7 && At(|log|) && Books() && Idle()
      ensures o.Ok? <==> s.consume.Fine? && s.approval && s.verified.Fine? && s.dispatch.Fine?
      ensures o.Ok? ==> |log| == 7 && Unallocated(p, ledger.value.entries)
    {
      o := Ok;
      :- Record(ApprovalConsumeIntent, s.consume, 3, ApprovalPending);
      :- Do(s.approval, ApprovalChecked, 4);
      o := RecordApproval();
    }

    method RecordApproval() returns (o: Outcome)
      requires At(5) && Books() && Idle()
      requires Replay(p, ledger.value.entries).value == State(ApprovalPending, 0, None, map[], 0, None)
      modifies this`log, this`ledger
      ensures 5 <= |log| <= 7 && At(|log|) && Books() && Idle()
      ensures o.Ok? <==> s.verified.Fine? && s.dispatch.Fine?
      ensures o.Ok? ==> |log| == 7 && Unallocated(p, ledger.value.entries)
    {
      o := Ok;
      :- Record(ApprovalVerified, s.verified, 5, Approved);
      o := Record(DispatchIntent, s.dispatch, 6, Allocating);
    }

    method Reserve() returns (o: Outcome)
      requires At(7)
      modifies this`log
      ensures 7 <= |log| <= 10 && At(|log|)
      ensures o.Ok? <==> s.reserves && s.admitted && s.bindingMatches
      ensures o.Ok? ==> |log| == 10
    {
      o := Ok;
      :- Do(s.reserves, CohortReserved, 7);
      :- Do(s.admitted, CohortAdmitted, 8);
      o := Do(s.bindingMatches, BindingMatched, 9);
    }

    /** Reservation, calibration intent, and only then an app-server. */
    method Admit() returns (o: Outcome)
      requires WellFormed(p) && p.isUuid(s.intentId) && At(7) && Books() && Idle() && !server
      requires Unallocated(p, ledger.value.entries)
      modifies this`log, this`ledger, this`server, this`trace
      ensures 7 <= |log| <= 12 && At(|log|) && Books() && Traced() && (server <==> |log| == 12)
      ensures o.Ok? <==> s.reserves && s.admitted && s.bindingMatches && s.intent.Fine? && s.serverStarts
      ensures o.Ok? <==> |log| == 12
      ensures o.Ok? ==> Driven(0)
    {
      o := Ok;
      :- Reserve();
      :- RecordCalibrationIntent();
      o := StartServer();
    }

    method Prepare() returns (o: Outcome)
      requires OnlyRpcs(s.calibration) && OnlyRpcs(s.contracts) && At(12) && Books() && Traced() && Driven(0)
      modifies this`log, this`ledger, this`trace
      ensures 12 <= |log| <= 14 && At(|log|) && Books() && Traced()
      ensures o.Ok? <==> s.calibration.ok && s.contracts.ok
      ensures o.Ok? ==> |log| == 14 && Driven(2)
    {
      o := Ok;
      :- Drive(0, s.calibration, Calibrated, 12);
      o := Drive(1, s.contracts, ContractsWritten, 13);
    }

    method Preflight() returns (o: Outcome)
      requires At(14)
      modifies this`log
      ensures 14 <= |log| <= 18 && At(|log|)
      ensures o.Ok? <==> s.contractBuilt && s.preflightRuns && s.preflightAccepts && s.preflightWritten
      ensures o.Ok? ==> |log| == 18
    {
      o := Ok;
      :- Do(s.contractBuilt, PoolContractBuilt, 14);
      :- Do(s.preflightRuns, PreflightRun, 15);
      :- Do(s.preflightAccepts, PreflightAccepted, 16);
      o := Do(s.preflightWritten, PreflightWritten, 17);
    }

    method RunPool() returns (o: Outcome)
      requires OnlyRpcs(s.pool) && At(18) && Books() && Traced() && Driven(2)
      modifies this`log, this`ledger, this`trace
      ensures 18 <= |log| <= 21 && At(|log|) && Books() && Traced()
      ensures o.Ok? <==> s.pool.ok && s.poolPersisted && s.tracePersisted
      ensures o.Ok? ==> |log| == 21
    {
      o := Ok;
      :- Drive(2, s.pool, PoolRun, 18);
      o := PersistPool();
    }

    method PersistPool() returns (o: Outcome)
      requires At(19)
      modifies this`log
      ensures 19 <= |log| <= 21 && At(|log|)
      ensures o.Ok? <==> s.poolPersisted && s.tracePersisted
      ensures o.Ok? ==> |log| == 21
    {
      o := Ok;
      :- Do(s.poolPersisted, PoolPersisted, 19);
      o := Do(s.tracePersisted, TracePersisted, 20);
    }

    /** Pool receipt, tool trace and bead closure must all be accepting. */
    method RequireAcceptance() returns (o: Outcome)
      requires At(21)
      modifies this`log
      ensures 21 <= |log| <= 25 && At(|log|)
      ensures o.Ok? <==> && Accepting(s.receipt) && s.traceSatisfied && s.closureWritten
                         && BC.FullyClosed(s.tasks, s.epic, s.reservation, s.receipt.rows, s.adapter)
      ensures o.Ok? ==> |log| == 25
    {
      o := Ok;
      :- Do(Accepting(s.receipt), PoolAccepting, 21);
      :- Do(s.traceSatisfied, TraceSatisfied, 22);
      o := RequireClosure();
    }

    method RequireClosure() returns (o: Outcome)
      requires At(23)
      modifies this`log
      ensures 23 <= |log| <= 25 && At(|log|)
      ensures o.Ok? <==> s.closureWritten && BC.FullyClosed(s.tasks, s.epic, s.reservation, s.receipt.rows, s.adapter)
      ensures o.Ok? ==> |log| == 25
    {
      o := Ok;
      var allClosed := CloseBeads();
      :- Do(s.closureWritten, ClosureWritten, 23);
      o := Do(allClosed, BeadsClosed, 24);
    }

    method CloseBeads() returns (allClosed: bool)
      ensures allClosed <==> BC.FullyClosed(s.tasks, s.epic, s.reservation, s.receipt.rows, s.adapter)
    {
      var closure := BC.CloseAcceptedActivationBeads(s.tasks, s.epic, s.reservation, s.receipt.rows, s.adapter);
      allClosed := closure.allClosed;
    }

    /** The terminal record and the accepted result. */
    method Accept() returns (o: Outcome)
      requires At(25) && Books() && Traced() && resultFile.None?
      modifies this`log, this`ledger, this`resultFile, this`trace
      ensures 25 <= |log| <= 28 && At(|log|) && Closable() && Traced()
      ensures Ended() <==> |log| >= 26
      ensures |log| >= 26 <==> !s.terminal.LostBeforeWrite?
      ensures |log| == 28 <==> s.terminal.Fine? && s.loads && !s.result.NotWritten?
      ensures o.Ok? <==> |log| == 28 && s.result.Written?
      ensures resultFile == if |log| == 28 then Some(true) else None
    {
      o := Ok;
      :- RecordTerminal(true, s.terminal);
      o := DeliverResult();
    }

    method DeliverResult() returns (o: Outcome)
      requires At(26) && resultFile.None?
      modifies this`log, this`resultFile
      ensures 26 <= |log| <= 28 && At(|log|)
      ensures |log| == 28 <==> s.loads && !s.result.NotWritten?
      ensures o.Ok? <==> |log| == 28 && s.result.Written?
      ensures resultFile == if |log| == 28 then Some(true) else None
    {
      o := Ok;
      :- Do(s.loads, LedgerLoaded, 26);
      o := WriteResult(true, s.result);
    }

    method Execute() returns (o: Outcome)
      requires At(12) && Books() && Traced() && Driven(0)
      requires OnlyRpcs(s.calibration) && OnlyRpcs(s.contracts) && OnlyRpcs(s.pool)
      modifies this`log, this`ledger, this`trace
      ensures 12 <= |log| <= 25 && At(|log|) && Books() && Traced()
      ensures o.Ok? <==>
              && s.calibration.ok && s.contracts.ok && s.contractBuilt && s.preflightRuns && s.preflightAccepts
              && s.preflightWritten && s.pool.ok && s.poolPersisted && s.tracePersisted && Accepting(s.receipt)
              && s.traceSatisfied && s.closureWritten
              && BC.FullyClosed(s.tasks, s.epic, s.reservation, s.receipt.rows, s.adapter)
      ensures o.Ok? ==> |log| == 25
    {
      o := Ok;
      :- Prepare();
      :- Preflight();
      :- RunPool();
      o := RequireAcceptance();
    }

    method Attempt() returns (o: Outcome)
      requires WellFormed(p) && p.isUuid(s.intentId)
      requires At(0) && ledger.None? && !server && resultFile.None? && Idle()
      requires OnlyRpcs(s.calibration) && OnlyRpcs(s.contracts) && OnlyRpcs(s.pool)
      modifies this
      ensures 1 <= |log| <= 28 && At(|log|) && (server <==> 12 <= |log|) && (server <==> StartsServer(s))
      ensures (ledger.Some? <==> 3 <= |log|) && (ledger.Some? ==> Closable()) && Traced()
      ensures Ended() <==> |log| >= 26
      ensures |log| >= 26 <==> ReachesTerminal(s) && !s.terminal.LostBeforeWrite?
      ensures |log| == 28 <==> ReachesTerminal(s) && s.terminal.Fine? && s.loads && !s.result.NotWritten?
      ensures o.Ok? <==> |log| == 28 && s.result.Written?
      ensures resultFile == if |log| == 28 then Some(true) else None
    {
      o := Ok;
      :- Authorize();
      :- Admit();
      :- Execute();
      o := Accept();
    }

    // ---------- the except block ----------

    /**
     Containment, the rejected terminal record and the rejected result. Threads are swept and containment is reported
     if and only if there is no ledger or its summary can be read.
     */
    method Handle()
      requires WellFormed(p) && Traced() && (ledger.Some? ==> Closable())
      modifies this`log, this`ledger, this`resultFile, this`trace
      ensures log == old(log) + Trail(p, s, old(ledger), server, old(resultFile))
      ensures Reported(log[|old(log)|..]) <==> old(ledger).None? || s.readable
      ensures ThreadsSwept in log[|old(log)|..] <==> server && (old(ledger).None? || s.readable)
      ensures resultFile == if ResultWritten(false) in log[|old(log)|..] then Some(false) else old(resultFile)
      ensures Traced() && (ledger.Some? <==> old(ledger).Some?) && (ledger.Some? ==> Closable())
      ensures Ended() <==> old(Ended()) || TerminalRecorded(false) in log[|old(log)|..]
      ensures MintsDistinctIds(s) && ledger.Some? && ContainmentReported(true) in log[|old(log)|..] ==>
                AllIdentified(ledger.value)
    {
      TrailFacts(p, s, ledger, server, resultFile);
      TrailIsAppended(p, s, log, ledger, server, resultFile);
      HandleSteps();
    }

    method HandleSteps()
      requires WellFormed(p) && Traced() && (ledger.Some? ==> Closable())
      modifies this`log, this`ledger, this`resultFile, this`trace
      ensures var report := Findings(p, s, old(ledger), server);
              && log == old(log) + [FailureCaught] + Containment(s, report, server) +
                        (if report.None? then []
                         else RejectedTerminal(p, s, old(ledger)) + RejectedResult(s, old(resultFile)))
              && (Ended() <==> old(Ended()) || (report.Some? && RejectedTerminal(p, s, old(ledger)) != []))
              && resultFile == (if report.Some? && RejectedResult(s, old(resultFile)) != [] then Some(false)
                                else old(resultFile))
              && (MintsDistinctIds(s) && ledger.Some? && report == Some(true) ==> AllIdentified(ledger.value))
      ensures Traced() && (ledger.Some? <==> old(ledger).Some?) && (ledger.Some? ==> Closable())
    {
      log := log + [FailureCaught];
      var report := Contain();
      if report.Some? {
        Reject();
      }
    }

    /** The ledger is summarised; only then are the threads swept and containment is reported. */
    method Contain() returns (report: Option<bool>)
      modifies this`log
      ensures report == Findings(p, s, ledger, server)
      ensures log == old(log) + Containment(s, report, server)
    {
      report := Findings(p, s, ledger, server);
      if report.Some? {
        if server {
          log := log + [ThreadsSwept];
        }
        log := log + [ContainmentReported(report.value && s.containmentWritten)];
      }
    }

    /** The rejected terminal record, if there is a ledger; its failure is ignored. */
    method CloseRejected()
      requires WellFormed(p) && Traced() && (ledger.Some? ==> Closable())
      modifies this`log, this`ledger, this`trace
      ensures log == old(log) + RejectedTerminal(p, s, old(ledger))
      ensures Ended() <==> old(Ended()) || RejectedTerminal(p, s, old(ledger)) != []
      ensures Traced() && (ledger.Some? <==> old(ledger).Some?) && (ledger.Some? ==> Closable())
      ensures MintsDistinctIds(s) && ledger.Some? && Findings(p, s, old(ledger), server) == Some(true) ==>
                AllIdentified(ledger.value)
    {
      if ledger.Some? {
        IdentifiedWhenContained(p, s, ledger.value, trace, server);
        var ignored := RecordTerminal(false, s.rejectedTerminal);
      }
    }

    /** The rejected terminal record and, unless there is a result already, the rejected result. */
    method Reject()
      requires WellFormed(p) && Traced() && (ledger.Some? ==> Closable())
      modifies this`log, this`ledger, this`resultFile, this`trace
      ensures log == old(log) + (RejectedTerminal(p, s, old(ledger)) + RejectedResult(s, old(resultFile)))
      ensures resultFile == if RejectedResult(s, old(resultFile)) != [] then Some(false) else old(resultFile)
      ensures Ended() <==> old(Ended()) || RejectedTerminal(p, s, old(ledger)) != []
      ensures Traced() && (ledger.Some? <==> old(ledger).Some?) && (ledger.Some? ==> Closable())
      ensures MintsDistinctIds(s) && ledger.Some? && Findings(p, s, old(ledger), server) == Some(true) ==>
                AllIdentified(ledger.value)
    {
      CloseRejected();
      if resultFile.None? {
        var ignored := WriteResult(false, s.rejectedResult);
      }
    }

    /** One attempt with its handler and the final clean-up. */
    method RunLiveActivation() returns (o: Outcome)
      requires WellFormed(p) && p.isUuid(s.intentId)
      requires OnlyRpcs(s.calibration) && OnlyRpcs(s.contracts) && OnlyRpcs(s.pool)
      requires Unused()
      modifies this
      // no failure is caught exactly when every gate was passed and every write succeeded; the call returns normally
      // exactly when, besides, the server could be closed
      ensures FailureCaught !in log <==> ReachesTerminal(s) && s.terminal.Fine? && s.loads && s.result.Written?
      ensures o.Ok? <==> FailureCaught !in log && s.closes
      // an accepted result presupposes the whole path, in order
      ensures ResultWritten(true) in log <==> OnPath(log, STEPS)
      ensures ResultWritten(true) in log <==> ReachesTerminal(s) && s.terminal.Fine? && s.loads && !s.result.NotWritten?
      // whatever fails, the attempt stopped somewhere on the path and the failure was caught right there
      ensures exists n :: StoppedAfter(log, n)
      // a failure is contained exactly if the ledger, when there is one, can be read first
      ensures Reported(log) <==> FailureCaught in log && (ledger.None? || s.readable)
      ensures ThreadsSwept in log <==> FailureCaught in log && StartsServer(s) && s.readable
      // no app-server before approval, reservation and calibration intent; one that was started is closed last
      ensures ServerStarted in log <==> StartsServer(s)
      ensures ServerStarted in log ==> OnPath(log, 12)
      ensures ServerStarted in log <==> log[|log| - 1] == ServerClosed
      // a rejected result is the rule whenever there is no accepted one, under the same condition
      ensures ResultWritten(false) in log <==>
              ResultWritten(true) !in log && (ledger.None? || s.readable) && !s.rejectedResult.NotWritten?
      // the file holds the result in the log, if any
      ensures resultFile == if ResultWritten(true) in log then Some(true)
                            else if ResultWritten(false) in log then Some(false) else None
      // the ledger is legal, and has ended exactly when the one terminal record is in the log
      ensures ledger.Some? <==> LedgerCreated in log
      ensures ledger.Some? ==> Legal(p, ledger.value.entries)
      ensures Ended() <==> TerminalRecorded(true) in log || TerminalRecorded(false) in log
      ensures TerminalRecorded(false) in log <==>
              && LedgerCreated in log && TerminalRecorded(true) !in log
              && s.readable && !s.rejectedTerminal.LostBeforeWrite?
      // the ledger may say accepted without an accepted result: exactly when something fails after storing that record
      ensures TerminalRecorded(true) in log && ResultWritten(true) !in log <==>
              && ReachesTerminal(s) && !s.terminal.LostBeforeWrite?
              && !(s.terminal.Fine? && s.loads && !s.result.NotWritten?)
      // with distinct identifiers, every RPC follows its own intent, and complete containment means all are identified
      ensures MintsDistinctIds(s) && ledger.Some? ==> WriteAhead(ledger.value)
      ensures MintsDistinctIds(s) && ledger.Some? && ContainmentReported(true) in log ==> AllIdentified(ledger.value)
    {
      ghost var n;
      o, n := AttemptHandleClose();
      TraceFacts();
    }

    /** The same in terms of `n`, the number of steps that the attempt got through. */
    method AttemptHandleClose() returns (o: Outcome, ghost n: nat)
      requires WellFormed(p) && p.isUuid(s.intentId)
      requires OnlyRpcs(s.calibration) && OnlyRpcs(s.contracts) && OnlyRpcs(s.pool)
      requires Unused()
      modifies this
      ensures LogShows(log, n)
      ensures FailureCaught !in log <==> n == STEPS && s.result.Written?
      ensures o.Ok? <==> FailureCaught !in log && s.closes
      ensures n == STEPS <==> ReachesTerminal(s) && s.terminal.Fine? && s.loads && !s.result.NotWritten?
      ensures 26 <= n <==> ReachesTerminal(s) && !s.terminal.LostBeforeWrite?
      ensures 12 <= n <==> StartsServer(s)
      ensures Reported(log) <==> FailureCaught in log && (n < 3 || s.readable)
      ensures ThreadsSwept in log <==> FailureCaught in log && 12 <= n && s.readable
      ensures TerminalRecorded(false) in log <==> 3 <= n < 26 && s.readable && !s.rejectedTerminal.LostBeforeWrite?
      ensures ResultWritten(false) in log <==> n < STEPS && (n < 3 || s.readable) && !s.rejectedResult.NotWritten?
      ensures resultFile == if n == STEPS then Some(true) else if ResultWritten(false) in log then Some(false) else None
      ensures (ledger.Some? <==> 3 <= n) && (ledger.Some? ==> Closable()) && Traced()
      ensures Ended() <==> 26 <= n || TerminalRecorded(false) in log
      ensures MintsDistinctIds(s) && ledger.Some? && ContainmentReported(true) in log ==> AllIdentified(ledger.value)
    {
      ghost var walked, trail;
      o, walked, trail := AttemptAndHandle();
      n := |walked|;
      var closed := CloseServer(walked, trail);
      o := if closed then o else Raised;
    }

    /** The attempt and its handler; `walked` is what the attempt logged, `trail` what the handler added. */
    method AttemptAndHandle() returns (o: Outcome, ghost walked: seq<Effect>, ghost trail: seq<Effect>)
      requires WellFormed(p) && p.isUuid(s.intentId)
      requires OnlyRpcs(s.calibration) && OnlyRpcs(s.contracts) && OnlyRpcs(s.pool)
      requires Unused()
      modifies this
      ensures 1 <= |walked| <= STEPS && OnPath(walked, |walked|) && log == walked + trail
      ensures IsTrail(trail) && (o.Ok? <==> trail == [])
      ensures o.Ok? <==> |walked| == STEPS && s.result.Written?
      ensures |walked| == STEPS <==> ReachesTerminal(s) && s.terminal.Fine? && s.loads && !s.result.NotWritten?
      ensures 26 <= |walked| <==> ReachesTerminal(s) && !s.terminal.LostBeforeWrite?
      ensures (server <==> 12 <= |walked|) && (server <==> StartsServer(s))
      ensures Reported(trail) <==> o.Raised? && (|walked| < 3 || s.readable)
      ensures ThreadsSwept in trail <==> o.Raised? && server && s.readable
      ensures TerminalRecorded(false) in trail <==>
              3 <= |walked| < 26 && s.readable && !s.rejectedTerminal.LostBeforeWrite?
      ensures ResultWritten(false) in trail <==>
              |walked| < STEPS && (|walked| < 3 || s.readable) && !s.rejectedResult.NotWritten?
      ensures resultFile == if |walked| == STEPS then Some(true)
                            else if ResultWritten(false) in trail then Some(false) else None
      ensures (ledger.Some? <==> 3 <= |walked|) && (ledger.Some? ==> Closable()) && Traced()
      ensures Ended() <==> 26 <= |walked| || TerminalRecorded(false) in trail
      ensures MintsDistinctIds(s) && ledger.Some? && ContainmentReported(true) in trail ==> AllIdentified(ledger.value)
    {
      o := Attempt();
      walked, trail := log, [];
      if o.Raised? {
        trail := HandleFailure();
      }
    }

    /** The handler, with what it adds to the log. */
    method HandleFailure() returns (ghost trail: seq<Effect>)
      requires WellFormed(p) && Traced() && (ledger.Some? ==> Closable())
      modifies this`log, this`ledger, this`resultFile, this`trace
      ensures log == old(log) + trail && IsTrail(trail) && trail != []
      ensures var readable := old(ledger).None? || s.readable;
              && (Reported(trail) <==> readable) && (ThreadsSwept in trail <==> server && readable)
              && (TerminalRecorded(false) in trail <==> StoresTerminal(p, old(ledger), s.rejectedTerminal) && readable)
              && (ResultWritten(false) in trail <==>
                    old(resultFile).None? && !s.rejectedResult.NotWritten? && readable)
      ensures resultFile == if ResultWritten(false) in trail then Some(false) else old(resultFile)
      ensures Traced() && (ledger.Some? <==> old(ledger).Some?) && (ledger.Some? ==> Closable())
      ensures Ended() <==> old(Ended()) || TerminalRecorded(false) in trail
      ensures MintsDistinctIds(s) && ledger.Some? && ContainmentReported(true) in trail ==> AllIdentified(ledger.value)
    {
      TrailFacts(p, s, ledger, server, resultFile);
      trail := Trail(p, s, ledger, server, resultFile);
      TrailIsAppended(p, s, log, ledger, server, resultFile);
      Handle();
    }

    /** The final clean-up, and with it what the log shows. */
    method CloseServer(ghost walked: seq<Effect>, ghost trail: seq<Effect>) returns (closed: bool)
      requires 1 <= |walked| <= STEPS && OnPath(walked, |walked|) && IsTrail(trail) && (server <==> 12 <= |walked|)
      requires (trail == [] ==> |walked| == STEPS) && log == walked + trail
      modifies this`log
      ensures closed <==> !server || s.closes
      ensures log == walked + trail + if server then [ServerClosed] else []
      ensures LogShows(log, |walked|) && SameHandling(log, trail) && (FailureCaught in log <==> trail != [])
    {
      LogFacts(walked, trail, if server then [ServerClosed] else []);
      assert log + [] == log;
      if server {
        log := log + [ServerClosed];
      }
      closed := !server || s.closes;
    }

    lemma TraceFacts()
      requires WellFormed(p) && Traced()
      ensures MintsDistinctIds(s) && ledger.Some? ==> WriteAhead(ledger.value)
    {
      if MintsDistinctIds(s) && ledger.Some? {
        TracedIsWriteAhead(p, s, ledger.value, trace);
      }
    }
  }

  lemma WalkedFacts(walked: seq<Effect>)
    requires |walked| <= STEPS && OnPath(walked, |walked|)
    ensures ResultWritten(true) in walked <==> |walked| == STEPS
    ensures TerminalRecorded(true) in walked <==> 26 <= |walked|
    ensures ServerStarted in walked <==> 12 <= |walked|
    ensures LedgerCreated in walked <==> 3 <= |walked|
    ensures forall e :: e in walked ==> Place(e) >= 0
  {
    assert |walked| == STEPS ==> Place(walked[27]) == 27;
    assert 26 <= |walked| ==> Place(walked[25]) == 25;
    assert 12 <= |walked| ==> Place(walked[11]) == 11;
    assert 3 <= |walked| ==> Place(walked[2]) == 2;
  }

  lemma InLog(walked: seq<Effect>, trail: seq<Effect>, end: seq<Effect>, e: Effect)
    ensures e in walked + trail + end <==> e in walked || e in trail || e in end
  {
  }

  /** The log holds just those effects of the handler that its trail holds. */
  ghost predicate SameHandling(log: seq<Effect>, trail: seq<Effect>) {
    && (ThreadsSwept in log <==> ThreadsSwept in trail)
    && (ContainmentReported(true) in log <==> ContainmentReported(true) in trail)
    && (ContainmentReported(false) in log <==> ContainmentReported(false) in trail)
    && (TerminalRecorded(false) in log <==> TerminalRecorded(false) in trail)
    && (ResultWritten(false) in log <==> ResultWritten(false) in trail)
  }

  lemma HandlingIsTrail(walked: seq<Effect>, trail: seq<Effect>, end: seq<Effect>)
    requires OnPath(walked, |walked|) && end <= [ServerClosed]
    ensures SameHandling(walked + trail + end, trail)
  {
    assert forall e :: e in walked ==> Place(e) >= 0;
    assert forall e :: e in end ==> e == ServerClosed;
    InLog(walked, trail, end, ThreadsSwept);
    InLog(walked, trail, end, ContainmentReported(true));
    InLog(walked, trail, end, ContainmentReported(false));
    InLog(walked, trail, end, TerminalRecorded(false));
    InLog(walked, trail, end, ResultWritten(false));
  }

  lemma WalkIsPath(walked: seq<Effect>, trail: seq<Effect>, end: seq<Effect>)
    requires OnPath(walked, |walked|) && IsTrail(trail) && end <= [ServerClosed]
    ensures var log := walked + trail + end;
            && (ResultWritten(true) in log <==> ResultWritten(true) in walked)
            && (TerminalRecorded(true) in log <==> TerminalRecorded(true) in walked)
            && (ServerStarted in log <==> ServerStarted in walked)
            && (LedgerCreated in log <==> LedgerCreated in walked)
  {
    assert forall e :: e in end ==> e == ServerClosed;
    InLog(walked, trail, end, ResultWritten(true));
    InLog(walked, trail, end, TerminalRecorded(true));
    InLog(walked, trail, end, ServerStarted);
    InLog(walked, trail, end, LedgerCreated);
  }

  /** How far the attempt went can be read off the log. */
  ghost predicate LogShows(log: seq<Effect>, n: nat) {
    && StoppedAfter(log, n)
    && (ResultWritten(true) in log <==> n == STEPS)
    && (OnPath(log, STEPS) <==> n == STEPS)
    && (TerminalRecorded(true) in log <==> 26 <= n)
    && (LedgerCreated in log <==> 3 <= n)
    && (ServerStarted in log <==> 12 <= n)
    && (ServerStarted in log ==> OnPath(log, 12))
    && (ServerStarted in log <==> log[|log| - 1] == ServerClosed)
  }

  lemma LogFacts(walked: seq<Effect>, trail: seq<Effect>, end: seq<Effect>)
    requires 1 <= |walked| <= STEPS && OnPath(walked, |walked|) && IsTrail(trail)
    requires trail == [] ==> |walked| == STEPS
    requires end == if 12 <= |walked| then [ServerClosed] else []
    ensures var log := walked + trail + end;
            LogShows(log, |walked|) && SameHandling(log, trail) && (FailureCaught in log <==> trail != [])
  {
    WalkedFacts(walked);
    HandlingIsTrail(walked, trail, end);
    WalkIsPath(walked, trail, end);
    LogFollows(walked, trail, end);
    LastEffect(walked, trail, end);
  }

  lemma LogFollows(walked: seq<Effect>, trail: seq<Effect>, end: seq<Effect>)
    requires |walked| <= STEPS && OnPath(walked, |walked|) && IsTrail(trail) && end <= [ServerClosed]
    requires trail == [] ==> |walked| == STEPS
    ensures var log := walked + trail + end;
            && StoppedAfter(log, |walked|) && (FailureCaught in log <==> trail != [])
            && (OnPath(log, STEPS) <==> |walked| == STEPS)
            && (12 <= |walked| ==> OnPath(log, 12))
  {
    var log := walked + trail + end;
    assert forall i :: 0 <= i < |walked| ==> log[i] == walked[i];
    assert FailureCaught !in walked && FailureCaught !in end;
    InLog(walked, trail, end, FailureCaught);
    if trail != [] {
      assert log[|walked|] == trail[0];
    }
  }

  lemma LastEffect(walked: seq<Effect>, trail: seq<Effect>, end: seq<Effect>)
    requires walked != [] && OnPath(walked, |walked|) && IsTrail(trail) && end <= [ServerClosed]
    ensures var log := walked + trail + end; log[|log| - 1] == ServerClosed <==> end != []
  {
    var log := walked + trail + end;
    if end != [] {
      assert end == [ServerClosed] && log[|log| - 1] == end[0];
    } else if trail != [] {
      assert log[|log| - 1] == trail[|trail| - 1] && HandlerEffect(trail[|trail| - 1]);
    } else {
      assert log[|log| - 1] == walked[|walked| - 1] && Place(walked[|walked| - 1]) == |walked| - 1;
    }
  }
}
