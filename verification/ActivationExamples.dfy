/** Concrete attempts: each way in which an activation falls short of what it is meant to ensure does occur. */
module ActivationExamples {
  import opened Wrappers
  import opened ActivationLedger
  import opened ActivationRun
  import BC = BeadClosure
  import Sorting

  lemma ProfilesAreWellFormed(isUuid: string -> bool)
    ensures WellFormed(Profile(N1_READ_ONLY, isUuid))
    ensures WellFormed(Profile(N2_READ_ONLY, isUuid))
    ensures WellFormed(Profile(N1_MUTABLE, isUuid))
  {
  }

  const ONE_READER: Profile := Profile(N1_READ_ONLY, (id: string) => id != "")
  const NO_CALLS: Work := Work([], true)
  const TASK: BC.Task := BC.Task("c", "b", 1)
  const ROW: BC.Disposition := BC.Disposition(BC.Pair("c", "b"), Some(true), Some(false), Some(false))
  const CLAIM: BC.Claim := BC.Claim("b", "a", true, Some("h"), true)
  const SHOW: string -> Option<BC.Status> := (id: string) => if id == "b" then Some(BC.Closed) else Some(BC.Open)
  const ADAPTER: BC.Adapter := BC.Adapter("a", (id: string) => BC.Replies(true, true, true), SHOW)

  /** One task with one child, for which every step of the attempt succeeds. */
  const SMOOTH: Script := Script(
    true, true, Fine, true, Fine, Fine, true, true, true, Fine, "i", true,
    NO_CALLS, NO_CALLS, true, true, true, true, NO_CALLS, true, true,
    PoolReceipt(true, true, true, true, Some([Some(ROW)])), true,
    [TASK], "e", BC.Reservation(["b"], Some([Some(CLAIM)]), "a"), ADAPTER, true,
    Fine, true, Written,
    true, true, true, Fine, Written, true)

  /** The calibration fails, and so does reading the ledger afterwards. */
  const UNREADABLE: Script := SMOOTH.(calibration := Work([], false), readable := false)

  /** Everything is accepted, but the ledger cannot be loaded once its terminal record is stored. */
  const UNLOADED: Script := SMOOTH.(loads := false)

  lemma OneTaskIsExpected(task: BC.Task)
    ensures BC.Expected([task]) == [BC.Pair(task.child, task.bead)]
    ensures BC.Beads(BC.Expected([task])) == [task.bead]
  {
    assert Sorting.Sort(BC.ByOrdinal(), [task]) == [task];
  }

  lemma OneRowMatches(pair: BC.Pair, row: BC.Disposition)
    requires row.key == pair && BC.Authorized(row)
    ensures BC.DispositionsMatch(Some([Some(row)]), [pair])
  {
    assert [Some(row)][0].value.key == pair;
  }

  lemma OneClaimIsBound(claim: BC.Claim, actor: string)
    requires claim.valid && claim.owned && claim.actor == actor && claim.postShow.Some?
    ensures var r := BC.Reservation([claim.bead], Some([Some(claim)]), actor);
            BC.ClaimsBound(r, [claim.bead], actor) && BC.Owned(r, claim.bead, actor)
  {
    var claims := [Some(claim)];
    assert BC.ClaimBeads(claims[..0]) == [];
    assert BC.ClaimBeads(claims) == [claim.bead];
    assert (set b | b in [claim.bead]) == {claim.bead};
  }

  lemma SmoothClosesEverything()
    ensures BC.FullyClosed(SMOOTH.tasks, SMOOTH.epic, SMOOTH.reservation, SMOOTH.receipt.rows, SMOOTH.adapter)
  {
    OneTaskIsExpected(TASK);
    OneRowMatches(BC.Pair("c", "b"), ROW);
    OneClaimIsBound(CLAIM, "a");
  }

  lemma SmoothReachesTerminal()
    ensures ReachesTerminal(SMOOTH)
  {
    SmoothClosesEverything();
  }

  method SmoothRun() returns (log: seq<Effect>, o: Outcome)
    ensures o.Ok? && OnPath(log, STEPS) && ResultWritten(true) in log
  {
    ProfilesAreWellFormed(ONE_READER.isUuid);
    SmoothReachesTerminal();
    var a := new Activation(ONE_READER, SMOOTH);
    o := a.RunLiveActivation();
    log := a.log;
  }

  /** A server is started, the attempt fails, and no thread is swept: the ledger could not be summarised. */
  method UnsweptServer() returns (log: seq<Effect>, o: Outcome)
    ensures o.Raised? && ServerStarted in log && FailureCaught in log
    ensures ThreadsSwept !in log && !Reported(log)
  {
    ProfilesAreWellFormed(ONE_READER.isUuid);
    var a := new Activation(ONE_READER, UNREADABLE);
    o := a.RunLiveActivation();
    log := a.log;
    assert Place(log[2]) == 2;
    assert log[2] == LedgerCreated && a.ledger.Some?;
  }

  /** The ledger has ended as accepted, and yet the result that is written is a rejected one. */
  method AcceptedLedgerRejectedResult() returns (log: seq<Effect>, o: Outcome)
    ensures o.Raised? && TerminalRecorded(true) in log
    ensures ResultWritten(true) !in log && ResultWritten(false) in log
  {
    ProfilesAreWellFormed(ONE_READER.isUuid);
    SmoothReachesTerminal();
    var a := new Activation(ONE_READER, UNLOADED);
    o := a.RunLiveActivation();
    log := a.log;
  }
}
