/**
 Building a worker packet from a single-use precommit receipt: reserve the receipt, construct, commit the packet's hash,
 or release. This is one build, undisturbed; `PacketInterleaving` runs any number of them at once.
 */
module PacketReservation {
  import opened Wrappers

  type Receipt = string
  type Process = nat

  /** The fresh reservation id of one build identifies that build. */
  type BuildId = nat

  /** The ids a receipt binds a packet to: packet id, attempt nonce and state id. */
  datatype Binding = Binding(packetId: string, nonce: string, stateId: string)

  datatype Held = Held(build: BuildId, owner: Process, binding: Binding)
  datatype Commit = Commit(build: BuildId, packetHash: string, binding: Binding)

  /** The two registry files. */
  datatype Registry = Registry(consumed: map<Receipt, Commit>, reservations: map<Receipt, Held>)

  datatype Outcome = Done | Refused | Faulted

  function WriteReservations(r: Registry, reservations: map<Receipt, Held>, fault: Fault): (Registry, Outcome) {
    if fault.LostBeforeWrite? then (r, Faulted)
    else (r.(reservations := reservations), if fault.Fine? then Done else Faulted)
  }

  /** The receipt is reserved for this build, by this process. */
  predicate HeldBy(r: Registry, receipt: Receipt, build: BuildId, owner: Process) {
    receipt in r.reservations && r.reservations[receipt].build == build && r.reservations[receipt].owner == owner
  }

  /** `reserve_precommit_receipt`; a reservation yields only if its owner is unseen and its state has ended. */
  function Reserved(r: Registry, receipt: Receipt, binding: Binding, build: BuildId, owner: Process, ownerSeen: bool,
                    ended: bool, fault: Fault): (Registry, Outcome)
  {
    if receipt in r.consumed || (receipt in r.reservations && (ownerSeen || !ended)) then (r, Refused)
    else WriteReservations(r, r.reservations[receipt := Held(build, owner, binding)], fault)
  }

  /** `commit_precommit_receipt_reservation`: two files are written, the consumed receipts first. */
  function Committed(r: Registry, receipt: Receipt, binding: Binding, build: BuildId, owner: Process, selfSeen: bool,
                     packetHash: string, first: Fault, second: Fault): (Registry, Outcome)
  {
    if || receipt in r.consumed || !HeldBy(r, receipt, build, owner) || !selfSeen
       || r.reservations[receipt].binding != binding
    then (r, Refused)
    else if first.LostBeforeWrite? then (r, Faulted)
    else
      var consumed := r.(consumed := r.consumed[receipt := Commit(build, packetHash, binding)]);
      if first.FailedAfterWrite? then (consumed, Faulted)
      else WriteReservations(consumed, consumed.reservations - {receipt}, second)
  }

  /** `release_precommit_receipt_reservation` */
  function Released(r: Registry, receipt: Receipt, build: BuildId, owner: Process, selfSeen: bool, fault: Fault)
    : (Registry, Outcome)
  {
    if !HeldBy(r, receipt, build, owner) || !selfSeen then (r, Refused)
    else WriteReservations(r, r.reservations - {receipt}, fault)
  }

  class Store {
    var consumed: map<Receipt, Commit>
    var reservations: map<Receipt, Held>

    ghost function Contents(): Registry
      reads this
    {
      Registry(consumed, reservations)
    }

    constructor ()
      ensures Contents() == Registry(map[], map[])
    {
      consumed, reservations := map[], map[];
    }

    method Replace(value: map<Receipt, Held>, fault: Fault) returns (ok: bool)
      modifies this`reservations
      ensures (Contents(), if ok then Done else Faulted) == WriteReservations(old(Contents()), value, fault)
    {
      if !fault.LostBeforeWrite? {
        reservations := value;
      }
      ok := fault.Fine?;
    }

    method Reserve(receipt: Receipt, binding: Binding, build: BuildId, owner: Process, ownerSeen: bool, ended: bool,
                   fault: Fault)
      returns (outcome: Outcome)
      modifies this
      ensures (Contents(), outcome) ==
              Reserved(old(Contents()), receipt, binding, build, owner, ownerSeen, ended, fault)
      // granted only for an unconsumed receipt that is free, or whose owner is gone and whose state has ended
      ensures outcome.Refused? <==>
              receipt in old(consumed) || (receipt in old(reservations) && (ownerSeen || !ended))
      ensures outcome.Done? <==> !outcome.Refused? && fault.Fine?
      ensures consumed == old(consumed)
      ensures reservations == if outcome.Refused? || fault.LostBeforeWrite? then old(reservations)
                              else old(reservations)[receipt := Held(build, owner, binding)]
    {
      if receipt in consumed {
        return Refused;
      }
      var remaining := reservations;
      if receipt in reservations {
        if ownerSeen || !ended {
          return Refused;
        }
        remaining := remaining - {receipt};
      }
      assert remaining[receipt := Held(build, owner, binding)] == reservations[receipt := Held(build, owner, binding)];
      var ok := Replace(remaining[receipt := Held(build, owner, binding)], fault);
      outcome := if ok then Done else Faulted;
    }

    method CommitReservation(receipt: Receipt, binding: Binding, build: BuildId, owner: Process, selfSeen: bool,
                             packetHash: string, first: Fault, second: Fault)
      returns (outcome: Outcome)
      modifies this
      ensures (Contents(), outcome) ==
              Committed(old(Contents()), receipt, binding, build, owner, selfSeen, packetHash, first, second)
      // only the holder commits, with the ids it reserved under, and only once
      ensures outcome.Refused? <==>
              !(&& receipt !in old(consumed) && receipt in old(reservations)
                && old(reservations)[receipt] == Held(build, owner, binding) && selfSeen)
      ensures outcome.Done? <==> !outcome.Refused? && first.Fine? && second.Fine?
      ensures consumed == if outcome.Refused? || first.LostBeforeWrite? then old(consumed)
                          else old(consumed)[receipt := Commit(build, packetHash, binding)]
      ensures reservations == if !outcome.Refused? && first.Fine? && !second.LostBeforeWrite?
                              then old(reservations) - {receipt} else old(reservations)
    {
      if receipt in consumed {
        return Refused;
      }
      if receipt !in reservations || reservations[receipt].build != build {
        return Refused;
      }
      if reservations[receipt].owner != owner || !selfSeen {
        return Refused;
      }
      if reservations[receipt].binding != binding {
        return Refused;
      }
      if first.LostBeforeWrite? {
        return Faulted;
      }
      consumed := consumed[receipt := Commit(build, packetHash, binding)];
      if first.FailedAfterWrite? {
        return Faulted;
      }
      var ok := Replace(reservations - {receipt}, second);
      outcome := if ok then Done else Faulted;
    }

    method Release(receipt: Receipt, build: BuildId, owner: Process, selfSeen: bool, fault: Fault)
      returns (outcome: Outcome)
      modifies this
      ensures (Contents(), outcome) == Released(old(Contents()), receipt, build, owner, selfSeen, fault)
      // only the holder releases, and nothing is consumed
      ensures outcome.Refused? <==>
              !(&& receipt in old(reservations) && old(reservations)[receipt].build == build
                && old(reservations)[receipt].owner == owner && selfSeen)
      ensures outcome.Done? <==> !outcome.Refused? && fault.Fine?
      ensures consumed == old(consumed)
      ensures reservations == if outcome.Refused? || fault.LostBeforeWrite? then old(reservations)
                              else old(reservations) - {receipt}
    {
      if receipt !in reservations || reservations[receipt].build != build {
        return Refused;
      }
      if reservations[receipt].owner != owner || !selfSeen {
        return Refused;
      }
      var ok := Replace(reservations - {receipt}, fault);
      outcome := if ok then Done else Faulted;
    }
  }

  // ---------- one build, undisturbed ----------

  /** How one build goes: what each validation says, what is built, what the process sees of itself, and faults. */
  datatype Script = Script(accepted: bool, ownerSeen: bool, ended: bool, reserve: Fault, packetHash: Option<string>,
                           stillAccepted: bool, seenAtCommit: bool, first: Fault, second: Fault, seenAtRelease: bool,
                           release: Fault)

  datatype Result = Returned(packetHash: string) | RaisedAfterRelease | Raised | FailedClosed

  /** The commit of a constructed packet, and the release if there is none or it fails. */
  function Finished(r: Registry, receipt: Receipt, binding: Binding, build: BuildId, owner: Process, s: Script)
    : (Registry, Result)
  {
    var (committed, outcome) :=
      if s.packetHash.Some? && s.stillAccepted then
        Committed(r, receipt, binding, build, owner, s.seenAtCommit, s.packetHash.value, s.first, s.second)
      else (r, Refused);
    if outcome.Done? then (committed, Returned(s.packetHash.value))
    else
      var (released, end) := Released(committed, receipt, build, owner, s.seenAtRelease, s.release);
      (released, match end case Done => RaisedAfterRelease case Refused => FailedClosed case Faulted => Raised)
  }

  function Outcomes(r: Registry, receipt: Receipt, binding: Binding, build: BuildId, owner: Process, s: Script)
    : (Registry, Result)
  {
    if !s.accepted then (r, Raised)
    else
      var (reserved, outcome) := Reserved(r, receipt, binding, build, owner, s.ownerSeen, s.ended, s.reserve);
      if outcome.Done? then Finished(reserved, receipt, binding, build, owner, s) else (reserved, Raised)
  }

  /** `build_native_worker_packet`, with no other build in between; what it promises is the lemma below. */
  method BuildPacket(store: Store, receipt: Receipt, binding: Binding, build: BuildId, owner: Process, s: Script)
    returns (r: Result)
    modifies store
    ensures (store.Contents(), r) == Outcomes(old(store.Contents()), receipt, binding, build, owner, s)
  {
    if !s.accepted {
      return Raised;
    }
    var reserved := store.Reserve(receipt, binding, build, owner, s.ownerSeen, s.ended, s.reserve);
    if !reserved.Done? {
      return Raised;
    }
    r := Finish(store, receipt, binding, build, owner, s);
  }

  method Finish(store: Store, receipt: Receipt, binding: Binding, build: BuildId, owner: Process, s: Script)
    returns (r: Result)
    modifies store
    ensures (store.Contents(), r) == Finished(old(store.Contents()), receipt, binding, build, owner, s)
  {
    if s.packetHash.Some? && s.stillAccepted {
      var committed :=
        store.CommitReservation(receipt, binding, build, owner, s.seenAtCommit, s.packetHash.value, s.first, s.second);
      if committed.Done? {
        return Returned(s.packetHash.value);
      }
    }
    var released := store.Release(receipt, build, owner, s.seenAtRelease, s.release);
    return match released case Done => RaisedAfterRelease case Refused => FailedClosed case Faulted => Raised;
  }

  /**
   An undisturbed build returns the packet whose hash it committed and leaves no reservation; a clean failure leaves
   none either, and without write faults commits nothing; a consumed receipt is never consumed again.
   */
  lemma BuildOutcomes(r: Registry, receipt: Receipt, binding: Binding, build: BuildId, owner: Process, s: Script)
    ensures var (after, result) := Outcomes(r, receipt, binding, build, owner, s);
            && (result.Returned? <==>
                  && s.accepted && receipt !in r.consumed && (receipt in r.reservations ==> !s.ownerSeen && s.ended)
                  && s.reserve.Fine? && s.packetHash.Some? && s.stillAccepted && s.seenAtCommit
                  && s.first.Fine? && s.second.Fine?)
            && (result.Returned? ==>
                  && s.packetHash == Some(result.packetHash) && s.stillAccepted
                  && receipt in after.consumed && after.consumed[receipt] == Commit(build, result.packetHash, binding)
                  && receipt !in after.reservations)
            && (result.RaisedAfterRelease? ==> receipt !in after.reservations)
            && (!result.Returned? && s.first.Fine? && s.second.Fine? ==> after.consumed == r.consumed)
            && (receipt in r.consumed ==> !result.Returned? && after == r)
  {
  }

  /** A builder can commit a hash and yet return no packet: exactly when a write of the commit fails late enough. */
  lemma CommittedWithoutPacketIff(r: Registry, receipt: Receipt, binding: Binding, build: BuildId, owner: Process,
                                  selfSeen: bool, packetHash: string, first: Fault, second: Fault)
    requires receipt !in r.consumed
    ensures var (after, outcome) := Committed(r, receipt, binding, build, owner, selfSeen, packetHash, first, second);
            receipt in after.consumed && !outcome.Done? <==>
            && HeldBy(r, receipt, build, owner) && selfSeen && r.reservations[receipt].binding == binding
            && (first.FailedAfterWrite? || (first.Fine? && !second.Fine?))
  {
  }
}
