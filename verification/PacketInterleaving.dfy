/** Any number of packet builds, in any number of processes, interleaving over one receipt registry on disk. */
module PacketInterleaving {
  import opened Wrappers
  import opened PacketReservation

  datatype Phase =
    | Fresh
    | Holding                         // reserved, packet under construction
    | Built(packetHash: string)       // about to commit
    | Failing                         // about to release
    | ReturnedPacket(packetHash: string)
    | Rejected                        // raised before anything was reserved
    | ReserveFaulted | ReleasedIt | ReleaseRefused | ReleaseFaulted
    | Dead                            // its process died on the way

  datatype Build = Build(receipt: Receipt, binding: Binding, owner: Process, phase: Phase)

  datatype World = World(registry: Registry, builds: map<BuildId, Build>, dead: set<Process>)

  datatype Step =
    | Reserve(id: BuildId, accepted: bool, ownerSeen: bool, ended: bool, fault: Fault)
    | Construct(id: BuildId, packetHash: Option<string>)
    | CommitStep(id: BuildId, stillAccepted: bool, presented: Binding, seen: bool, first: Fault, second: Fault)
    | CommitCrash(id: BuildId)         // the process dies between the two writes
    | Release(id: BuildId, seen: bool, fault: Fault)
    | Die(process: Process)

  function WithPhase(w: World, id: BuildId, phase: Phase): World
    requires id in w.builds
  {
    w.(builds := w.builds[id := w.builds[id].(phase := phase)])
  }

  predicate Unfinished(p: Phase) {
    p.Fresh? || p.Holding? || p.Built? || p.Failing?
  }

  predicate Enabled(w: World, id: BuildId) {
    id in w.builds && w.builds[id].owner !in w.dead
  }

  function Killed(builds: map<BuildId, Build>, process: Process): map<BuildId, Build> {
    map id | id in builds ::
      if builds[id].owner == process && Unfinished(builds[id].phase) then builds[id].(phase := Dead) else builds[id]
  }

  /** One step of one build, or a death; steps that a build cannot take in its phase change nothing. */
  function Next(w: World, s: Step): World {
    match s
    case Reserve(id, accepted, ownerSeen, ended, fault) =>
      if !Enabled(w, id) || !w.builds[id].phase.Fresh? then w
      else if !accepted then WithPhase(w, id, Rejected)
      else
        var b := w.builds[id];
        var (registry, outcome) := Reserved(w.registry, b.receipt, b.binding, id, b.owner, ownerSeen, ended, fault);
        WithPhase(w.(registry := registry), id,
                  match outcome case Done => Holding case Refused => Rejected case Faulted => ReserveFaulted)
    case Construct(id, packetHash) =>
      if !Enabled(w, id) || !w.builds[id].phase.Holding? then w
      else WithPhase(w, id, if packetHash.Some? then Built(packetHash.value) else Failing)
    case CommitStep(id, stillAccepted, presented, seen, first, second) =>
      if !Enabled(w, id) || !w.builds[id].phase.Built? then w
      else if !stillAccepted then WithPhase(w, id, Failing)
      else
        var b := w.builds[id];
        var (registry, outcome) :=
          Committed(w.registry, b.receipt, presented, id, b.owner, seen, b.phase.packetHash, first, second);
        WithPhase(w.(registry := registry), id, if outcome.Done? then ReturnedPacket(b.phase.packetHash) else Failing)
    case CommitCrash(id) =>
      if !Enabled(w, id) || !w.builds[id].phase.Built? then w
      else
        var b := w.builds[id];
        var (registry, outcome) :=
          Committed(w.registry, b.receipt, b.binding, id, b.owner, true, b.phase.packetHash, FailedAfterWrite, Fine);
        World(registry, Killed(w.builds, b.owner), w.dead + {b.owner})
    case Release(id, seen, fault) =>
      if !Enabled(w, id) || !w.builds[id].phase.Failing? then w
      else
        var b := w.builds[id];
        var (registry, outcome) := Released(w.registry, b.receipt, id, b.owner, seen, fault);
        WithPhase(w.(registry := registry), id,
                  match outcome case Done => ReleasedIt case Refused => ReleaseRefused case Faulted => ReleaseFaulted)
    case Die(process) => w.(builds := Killed(w.builds, process), dead := w.dead + {process})
  }

  function Run(w: World, steps: seq<Step>): World {
    if steps == [] then w else Next(Run(w, steps[..|steps| - 1]), steps[|steps| - 1])
  }

  ghost predicate Initial(w: World) {
    w.registry == Registry(map[], map[]) && forall id :: id in w.builds ==> w.builds[id].phase.Fresh?
  }

  // ---------- what every step keeps ----------

  /** A reservation on disk is that of a build that has not come to a clean end. */
  ghost predicate ReservationExplained(w: World, receipt: Receipt)
    requires receipt in w.registry.reservations
  {
    var held := w.registry.reservations[receipt];
    && held.build in w.builds && w.builds[held.build].receipt == receipt && w.builds[held.build].owner == held.owner
    && w.builds[held.build].binding == held.binding
    && MayHold(w.builds[held.build].phase)
  }

  /** A consumed receipt was consumed by one build, for the packet it returned unless it failed after the commit. */
  ghost predicate CommitExplained(w: World, receipt: Receipt)
    requires receipt in w.registry.consumed
  {
    var commit := w.registry.consumed[receipt];
    && commit.build in w.builds && w.builds[commit.build].receipt == receipt
    && w.builds[commit.build].binding == commit.binding
    && MayHaveCommitted(w.builds[commit.build].phase, commit.packetHash)
  }

  /** What a build knows from its own phase. */
  ghost predicate BuildExplained(w: World, id: BuildId)
    requires id in w.builds
  {
    var b := w.builds[id];
    b.phase.ReturnedPacket? ==>
      b.receipt in w.registry.consumed && w.registry.consumed[b.receipt] == Commit(id, b.phase.packetHash, b.binding)
  }

  ghost predicate Inv(w: World) {
    && (forall r :: r in w.registry.reservations ==> ReservationExplained(w, r))
    && (forall r :: r in w.registry.consumed ==> CommitExplained(w, r))
    && (forall id :: id in w.builds ==> BuildExplained(w, id))
  }

  /** Consumed receipts never change. */
  ghost predicate Remembers(before: Registry, after: Registry) {
    forall r :: r in before.consumed ==> r in after.consumed && after.consumed[r] == before.consumed[r]
  }

  predicate MayHold(p: Phase) {
    p.Holding? || p.Built? || p.Failing? || p.ReserveFaulted? || p.ReleaseRefused? || p.ReleaseFaulted? || p.Dead?
  }

  predicate MayHaveCommitted(p: Phase, packetHash: string) {
    p == ReturnedPacket(packetHash) || p.Failing? || p.ReleasedIt? || p.ReleaseRefused? || p.ReleaseFaulted? || p.Dead?
  }

  /** What one build does to its receipt in the registry, given the phase it moves to. */
  ghost predicate LocalStep(w: World, id: BuildId, after: Registry, phase: Phase)
    requires id in w.builds
  {
    var b, before := w.builds[id], w.registry;
    var r := b.receipt;
    && (forall k :: k != r ==> (k in after.consumed <==> k in before.consumed))
    && (forall k :: k != r && k in before.consumed ==> after.consumed[k] == before.consumed[k])
    && (forall k :: k != r ==> (k in after.reservations <==> k in before.reservations))
    && (forall k :: k != r && k in before.reservations ==> after.reservations[k] == before.reservations[k])
    && (r in after.reservations ==>
          (after.reservations[r] == Held(id, b.owner, b.binding) && MayHold(phase))
          || (r in before.reservations && after.reservations[r] == before.reservations[r]
              && (before.reservations[r].build == id ==> MayHold(phase))))
    && (r in before.consumed ==> r in after.consumed && after.consumed[r] == before.consumed[r])
    && (r in after.consumed ==>
          (r in before.consumed || after.consumed[r].build == id)
          && (after.consumed[r].build == id ==>
                MayHaveCommitted(phase, after.consumed[r].packetHash) && after.consumed[r].binding == b.binding))
    && (phase.ReturnedPacket? ==> r in after.consumed && after.consumed[r] == Commit(id, phase.packetHash, b.binding))
  }

  lemma LocalStepExplainsReservation(w: World, id: BuildId, registry: Registry, phase: Phase, r: Receipt)
    requires Inv(w) && id in w.builds && LocalStep(w, id, registry, phase) && r in registry.reservations
    ensures ReservationExplained(WithPhase(w.(registry := registry), id, phase), r)
  {
    assert r in w.registry.reservations ==> ReservationExplained(w, r);
  }

  lemma LocalStepExplainsCommit(w: World, id: BuildId, registry: Registry, phase: Phase, r: Receipt)
    requires Inv(w) && id in w.builds && LocalStep(w, id, registry, phase) && r in registry.consumed
    ensures CommitExplained(WithPhase(w.(registry := registry), id, phase), r)
  {
    assert r in w.registry.consumed ==> CommitExplained(w, r);
  }

  lemma LocalStepKeepsInv(w: World, id: BuildId, registry: Registry, phase: Phase)
    requires Inv(w) && id in w.builds && LocalStep(w, id, registry, phase)
    ensures Inv(WithPhase(w.(registry := registry), id, phase)) && Remembers(w.registry, registry)
  {
    var after := WithPhase(w.(registry := registry), id, phase);
    forall r | r in registry.reservations ensures ReservationExplained(after, r) {
      LocalStepExplainsReservation(w, id, registry, phase, r);
    }
    forall r | r in registry.consumed ensures CommitExplained(after, r) {
      LocalStepExplainsCommit(w, id, registry, phase, r);
    }
    forall x | x in after.builds ensures BuildExplained(after, x) {
      assert BuildExplained(w, x);
    }
  }

  lemma DeathKeepsInv(w: World, process: Process)
    requires Inv(w)
    ensures Inv(Next(w, Die(process)))
  {
    var after := Next(w, Die(process));
    forall r | r in w.registry.reservations ensures ReservationExplained(after, r) {
      assert ReservationExplained(w, r);
    }
    forall r | r in w.registry.consumed ensures CommitExplained(after, r) {
      assert CommitExplained(w, r);
    }
    forall id | id in after.builds ensures BuildExplained(after, id) {
      assert BuildExplained(w, id);
    }
  }

  /** A build that has not gone past its commit has not committed. */
  lemma NotYetCommitted(w: World, id: BuildId)
    requires Inv(w) && id in w.builds
    requires w.builds[id].phase.Fresh? || w.builds[id].phase.Holding? || w.builds[id].phase.Built?
    ensures var r := w.builds[id].receipt; r in w.registry.consumed ==> w.registry.consumed[r].build != id
    ensures var r := w.builds[id].receipt;
            w.builds[id].phase.Fresh? && r in w.registry.reservations ==> w.registry.reservations[r].build != id
  {
    var r := w.builds[id].receipt;
    assert r in w.registry.consumed ==> CommitExplained(w, r);
    assert r in w.registry.reservations ==> ReservationExplained(w, r);
  }

  lemma ReserveKeepsInv(w: World, s: Step)
    requires Inv(w) && (s.Reserve? || s.Construct?)
    ensures Inv(Next(w, s)) && Remembers(w.registry, Next(w, s).registry)
  {
    if Enabled(w, s.id) && (w.builds[s.id].phase.Fresh? || w.builds[s.id].phase.Holding?) && Next(w, s) != w {
      var after := Next(w, s);
      NotYetCommitted(w, s.id);
      LocalStepKeepsInv(w, s.id, after.registry, after.builds[s.id].phase);
    }
  }

  /** A commit touches only the receipt of its build, whichever of its writes fail. */
  lemma CommitIsLocal(w: World, id: BuildId, presented: Binding, seen: bool, packetHash: string, first: Fault,
                      second: Fault)
    requires Inv(w) && id in w.builds && w.builds[id].phase.Built?
    ensures var b := w.builds[id];
            var (registry, outcome) := Committed(w.registry, b.receipt, presented, id, b.owner, seen, packetHash,
                                                 first, second);
            LocalStep(w, id, registry, if outcome.Done? then ReturnedPacket(packetHash) else Failing)
  {
    NotYetCommitted(w, id);
    var r := w.builds[id].receipt;
    assert r in w.registry.reservations ==> ReservationExplained(w, r);
  }

  lemma CommitKeepsInv(w: World, s: Step)
    requires Inv(w) && s.CommitStep?
    ensures Inv(Next(w, s)) && Remembers(w.registry, Next(w, s).registry)
  {
    if Enabled(w, s.id) && w.builds[s.id].phase.Built? {
      var after := Next(w, s);
      if s.stillAccepted {
        CommitIsLocal(w, s.id, s.presented, s.seen, w.builds[s.id].phase.packetHash, s.first, s.second);
      } else {
        NotYetCommitted(w, s.id);
      }
      LocalStepKeepsInv(w, s.id, after.registry, after.builds[s.id].phase);
    }
  }

  lemma ReleaseKeepsInv(w: World, s: Step)
    requires Inv(w) && s.Release?
    ensures Inv(Next(w, s)) && Remembers(w.registry, Next(w, s).registry)
  {
    if Enabled(w, s.id) && w.builds[s.id].phase.Failing? {
      var after, r := Next(w, s), w.builds[s.id].receipt;
      assert r in w.registry.consumed ==> CommitExplained(w, r);
      assert r in w.registry.reservations ==> ReservationExplained(w, r);
      LocalStepKeepsInv(w, s.id, after.registry, after.builds[s.id].phase);
    }
  }

  /** A process that dies between the two writes of a commit leaves what a failing build would. */
  lemma CrashKeepsInv(w: World, s: Step)
    requires Inv(w) && s.CommitCrash?
    ensures Inv(Next(w, s)) && Remembers(w.registry, Next(w, s).registry)
  {
    if Enabled(w, s.id) && w.builds[s.id].phase.Built? {
      var b := w.builds[s.id];
      var registry := Next(w, s).registry;
      CommitIsLocal(w, s.id, b.binding, true, b.phase.packetHash, FailedAfterWrite, Fine);
      LocalStepKeepsInv(w, s.id, registry, Failing);
      DeathKeepsInv(WithPhase(w.(registry := registry), s.id, Failing), b.owner);
      CrashIsDeath(w, s.id);
    }
  }

  lemma CrashIsDeath(w: World, id: BuildId)
    requires Enabled(w, id) && w.builds[id].phase.Built?
    ensures var after := Next(w, CommitCrash(id));
            after == Next(WithPhase(w.(registry := after.registry), id, Failing), Die(w.builds[id].owner))
  {
    var failing := w.builds[id := w.builds[id].(phase := Failing)];
    assert Killed(failing, w.builds[id].owner) == Killed(w.builds, w.builds[id].owner);
  }

  lemma StepKeepsInv(w: World, s: Step)
    requires Inv(w)
    ensures Inv(Next(w, s)) && Remembers(w.registry, Next(w, s).registry)
  {
    match s
    case Reserve(_, _, _, _, _) => ReserveKeepsInv(w, s);
    case Construct(_, _) => ReserveKeepsInv(w, s);
    case CommitStep(_, _, _, _, _, _) => CommitKeepsInv(w, s);
    case CommitCrash(_) => CrashKeepsInv(w, s);
    case Release(_, _, _) => ReleaseKeepsInv(w, s);
    case Die(process) => DeathKeepsInv(w, process);
  }

  /** The step takes a receipt away from build `id`: by its own commit or release, or because it is gone for good. */
  predicate Takes(w: World, s: Step, receipt: Receipt, id: BuildId) {
    || (s.CommitStep? && s.id == id)
    || (s.Release? && s.id == id)
    || (s.Reserve? && !s.ownerSeen && s.ended && s.id in w.builds && w.builds[s.id].receipt == receipt)
  }

  /** A reservation changes hands or disappears in no other way. */
  lemma HoldersKeepTheirReservation(w: World, s: Step, receipt: Receipt)
    requires receipt in w.registry.reservations && !Takes(w, s, receipt, w.registry.reservations[receipt].build)
    ensures receipt in Next(w, s).registry.reservations
    ensures Next(w, s).registry.reservations[receipt] == w.registry.reservations[receipt]
  {
  }

  /** Over a whole run: what a build has reserved stays reserved for it until a step takes it away. */
  lemma {:induction false} ReservationLasts(w: World, steps: seq<Step>, receipt: Receipt)
    requires receipt in w.registry.reservations
    requires forall i :: 0 <= i < |steps| ==>
               !Takes(Run(w, steps[..i]), steps[i], receipt, w.registry.reservations[receipt].build)
    ensures receipt in Run(w, steps).registry.reservations
    ensures Run(w, steps).registry.reservations[receipt] == w.registry.reservations[receipt]
  {
    if steps != [] {
      var n := |steps| - 1;
      var init := steps[..n];
      forall i | 0 <= i < n
        ensures !Takes(Run(w, init[..i]), init[i], receipt, w.registry.reservations[receipt].build)
      {
        assert init[..i] == steps[..i] && init[i] == steps[i];
      }
      ReservationLasts(w, init, receipt);
      HoldersKeepTheirReservation(Run(w, init), steps[n], receipt);
    }
  }

  lemma {:induction false} RunKeepsInv(w: World, steps: seq<Step>)
    requires Initial(w)
    ensures Inv(Run(w, steps))
  {
    if steps != [] {
      RunKeepsInv(w, steps[..|steps| - 1]);
      StepKeepsInv(Run(w, steps[..|steps| - 1]), steps[|steps| - 1]);
    }
  }

  lemma OneStepFurther(w: World, steps: seq<Step>, s: Step)
    requires Initial(w)
    ensures Remembers(Run(w, steps).registry, Run(w, steps + [s]).registry)
  {
    RunKeepsInv(w, steps);
    StepKeepsInv(Run(w, steps), s);
    assert (steps + [s])[..|steps|] == steps;
  }

  lemma RemembersOn(a: Registry, b: Registry, c: Registry)
    requires Remembers(a, b) && Remembers(b, c)
    ensures Remembers(a, c)
  {
  }

  lemma {:induction false} CommitsLast(w: World, steps: seq<Step>, more: seq<Step>)
    requires Initial(w)
    ensures Remembers(Run(w, steps).registry, Run(w, steps + more).registry)
    decreases |more|
  {
    if more == [] {
      assert steps + more == steps;
    } else {
      var init, last := more[..|more| - 1], more[|more| - 1];
      CommitsLast(w, steps, init);
      OneStepFurther(w, steps + init, last);
      assert steps + more == (steps + init) + [last];
      RemembersOn(Run(w, steps).registry, Run(w, steps + init).registry, Run(w, steps + more).registry);
    }
  }

  /**
   In every run: at most one build of a receipt returns a packet, the packet's hash is the one committed, and it is
   committed for good.
   */
  lemma OnePacketPerReceipt(w: World, steps: seq<Step>, more: seq<Step>, a: BuildId, b: BuildId)
    requires Initial(w)
    requires var now := Run(w, steps); var later := Run(w, steps + more);
             && a in now.builds && b in later.builds && now.builds[a].receipt == later.builds[b].receipt
             && now.builds[a].phase.ReturnedPacket? && later.builds[b].phase.ReturnedPacket?
    ensures a == b
    ensures var now, later := Run(w, steps), Run(w, steps + more);
            var r := now.builds[a].receipt;
            r in later.registry.consumed && later.registry.consumed[r] ==
              Commit(a, now.builds[a].phase.packetHash, now.builds[a].binding)
  {
    var now, later := Run(w, steps), Run(w, steps + more);
    RunKeepsInv(w, steps);
    RunKeepsInv(w, steps + more);
    CommitsLast(w, steps, more);
    assert BuildExplained(now, a) && BuildExplained(later, b);
  }

  /**
   In every run, a build that ended without returning holds no reservation, unless it failed closed, a registry write
   failed under it, or its process died; in particular a clean release leaves nothing behind.
   */
  lemma NoStrayReservation(w: World, steps: seq<Step>, id: BuildId)
    requires Initial(w) && id in Run(w, steps).builds
    ensures var now := Run(w, steps);
            var b := now.builds[id];
            HeldBy(now.registry, b.receipt, id, b.owner) ==>
              Unfinished(b.phase) || b.phase.ReserveFaulted? || b.phase.ReleaseRefused? || b.phase.ReleaseFaulted?
              || b.phase.Dead?
  {
    RunKeepsInv(w, steps);
    var now := Run(w, steps);
    var receipt := now.builds[id].receipt;
    assert receipt in now.registry.reservations ==> ReservationExplained(now, receipt);
  }

  /** A build that takes its three steps without faults, on a receipt that is free, returns its packet. */
  lemma UndisturbedBuildReturns(w: World, id: BuildId, packetHash: string)
    requires Enabled(w, id) && w.builds[id].phase.Fresh?
    requires w.builds[id].receipt !in w.registry.consumed && w.builds[id].receipt !in w.registry.reservations
    ensures var b := w.builds[id];
            var w1 := Next(w, Reserve(id, true, false, false, Fine));
            var w2 := Next(w1, Construct(id, Some(packetHash)));
            var w3 := Next(w2, CommitStep(id, true, b.binding, true, Fine, Fine));
            && id in w3.builds && w3.builds[id].phase == ReturnedPacket(packetHash)
            && w3.registry.consumed == w.registry.consumed[b.receipt := Commit(id, packetHash, b.binding)]
            && w3.registry.reservations == w.registry.reservations
  {
    var b := w.builds[id];
    var w1 := Next(w, Reserve(id, true, false, false, Fine));
    assert w1.registry.reservations == w.registry.reservations[b.receipt := Held(id, b.owner, b.binding)];
    assert w1.builds[id] == b.(phase := Holding) && w1.dead == w.dead && w1.registry.consumed == w.registry.consumed;
    var w2 := Next(w1, Construct(id, Some(packetHash)));
    assert w2.builds[id] == b.(phase := Built(packetHash)) && w2.registry == w1.registry && w2.dead == w.dead;
    assert w1.registry.reservations - {b.receipt} == w.registry.reservations;
  }

  /** One build of a receipt, about to start. */
  function OneBuild(receipt: Receipt, binding: Binding): World {
    World(Registry(map[], map[]), map[0 := Build(receipt, binding, 1, Fresh)], {})
  }

  /** Its commit loses the second write, and it releases the reservation. */
  function HalfCommitted(binding: Binding, packetHash: string): seq<Step> {
    [Reserve(0, true, false, false, Fine), Construct(0, Some(packetHash)),
     CommitStep(0, true, binding, true, Fine, LostBeforeWrite), Release(0, true, Fine)]
  }

  /** Such a run: the receipt is spent, the reservation released, and no packet exists. */
  lemma SpentWithoutPacket(receipt: Receipt, binding: Binding, packetHash: string)
    ensures Initial(OneBuild(receipt, binding))
    ensures var end := Run(OneBuild(receipt, binding), HalfCommitted(binding, packetHash));
            && end.registry == Registry(map[receipt := Commit(0, packetHash, binding)], map[])
            && 0 in end.builds && end.builds[0].phase.ReleasedIt?
  {
    var w, steps := OneBuild(receipt, binding), HalfCommitted(binding, packetHash);
    forall n | 0 <= n < 4 ensures Run(w, steps[..n + 1]) == Next(Run(w, steps[..n]), steps[n]) {
      assert steps[..n + 1][..n] == steps[..n];
    }
    assert steps[..4] == steps;
    var w1 := Next(w, steps[0]);
    var w2 := Next(w1, steps[1]);
    var w3 := Next(w2, steps[2]);
    assert Run(w, steps[..0]) == w;
    assert Run(w, steps[..1]) == w1;
    assert Run(w, steps[..2]) == w2;
    assert Run(w, steps[..3]) == w3;
    assert w3.registry == Registry(map[receipt := Commit(0, packetHash, binding)], map[receipt := Held(0, 1, binding)]);
    assert Next(w3, steps[3]).registry.reservations == map[];
  }
}
