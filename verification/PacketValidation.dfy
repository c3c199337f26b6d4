/** The budget, provenance, threshold and lineage checks of the packet validator, against what the builder writes. */
module PacketValidation {
  import opened Wrappers
  import opened PacketBudget

  // ---------- lineage in the builder ----------

  /** A null field is None. */
  datatype Lineage = Lineage(root: Option<string>, parent: Option<string>, attempt: int)

  datatype LineageError =
    | AttemptUnknown | ParentRequired | RootRequired | ParentForbidden | RootIsNotSelf | LaneIsNotValidation
    | ParentIsNotRoot | ReferencesItself

  /** Python truth of an optional string. */
  predicate Given(s: Option<string>) {
    s.Some? && s.value != ""
  }

  function Or(s: Option<string>, other: string): string {
    if Given(s) then s.value else other
  }

  /** The lineage checks of the packet builder, in order. */
  function BuildLineage(validationLane: bool, packetId: string, attempt: int, parent: Option<string>,
                        root: Option<string>)
    : Result<Lineage, LineageError>
  {
    var rootId := Or(root, packetId);
    if attempt != 0 && attempt != 1 then Failure(AttemptUnknown)
    else if attempt == 1 && !Given(parent) then Failure(ParentRequired)
    else if attempt == 1 && !Given(root) then Failure(RootRequired)
    else if attempt == 0 && Given(parent) then Failure(ParentForbidden)
    else if attempt == 0 && rootId != packetId then Failure(RootIsNotSelf)
    else if attempt == 1 && !validationLane then Failure(LaneIsNotValidation)
    else if attempt == 1 && parent != Some(rootId) then Failure(ParentIsNotRoot)
    else if attempt == 1 && (packetId == rootId || parent == Some(packetId)) then Failure(ReferencesItself)
    else Success(Lineage(Some(rootId), parent, attempt))
  }

  // ---------- the validator ----------

  datatype Provenance = Provenance(profile: string, source: string, applied: bool,
                                   overridden: Option<seq<Option<Limit>>>)

  /** The parts of a version 2 packet at issue. A limit that is missing or no integer is absent from the budget. */
  datatype Packet = Packet(packetId: string, lane: string, budget: map<Limit, Number>, provenance: Provenance,
                           thresholds: Thresholds, lineage: Lineage)

  /** The policy for the packet's lane. */
  datatype Rules = Rules(policy: Policy, tool: Reserve, runtime: Reserve)

  const POLICY_SOURCE := "policy/native-worker-execution.yaml"
  const VALIDATION := "validation"

  datatype PacketError =
    | NotAnInteger(f: Limit) | Negative(f: Limit) | Looser(f: Limit)
    | ToolHardTooLow | ToolSoftTooHigh | RuntimeSoftTooHigh
    | ProfileIsNotLane | SourceUnknown | OverriddenInvalid | OverriddenMismatch | AppliedMismatch
    | ThresholdsNotDerived | LineageInvalid(why: LineageError)

  /** `isinstance(a, int) and isinstance(b, int) and a > b` */
  predicate Exceeds(b: map<Limit, Number>, x: Limit, y: Limit) {
    x in b && y in b && Val(b[x]) > Val(b[y])
  }

  predicate Differs(policy: Policy, b: map<Limit, Number>, f: Limit) {
    f !in b || Val(b[f]) != policy(f)
  }

  predicate LimitOk(policy: Policy, b: map<Limit, Number>, f: Limit) {
    f in b && b[f].Whole? && 0 <= b[f].n <= policy(f)
  }

  predicate AllPresent(b: map<Limit, Number>) {
    forall f: Limit :: f in b
  }

  /** Every limit is there, an integer, and no looser than the policy. */
  predicate Within(policy: Policy, b: map<Limit, Number>) {
    forall f: Limit :: LimitOk(policy, b, f)
  }

  lemma WithinIsComplete(policy: Policy, b: map<Limit, Number>)
    requires Within(policy, b)
    ensures AllPresent(b)
  {
    forall f: Limit ensures f in b {
      assert LimitOk(policy, b, f);
    }
  }

  method LimitErrors(policy: Policy, b: map<Limit, Number>, fields: seq<Limit>) returns (errors: set<PacketError>)
    ensures errors == {} <==> forall f :: f in fields ==> LimitOk(policy, b, f)
  {
    errors := {};
    for i := 0 to |fields|
      invariant errors == {} <==> forall j :: 0 <= j < i ==> LimitOk(policy, b, fields[j])
    {
      var f := fields[i];
      if f !in b || b[f].Truth? {
        errors := errors + {NotAnInteger(f)};
      } else if b[f].n < 0 {
        errors := errors + {Negative(f)};
      } else if b[f].n > policy(f) {
        errors := errors + {Looser(f)};
      }
    }
  }

  predicate BudgetOk(policy: Policy, b: map<Limit, Number>) {
    AllPresent(b) && Within(policy, b) && LimitsOk(b)
  }

  method BudgetErrors(policy: Policy, b: map<Limit, Number>) returns (errors: set<PacketError>)
    ensures errors == {} <==> BudgetOk(policy, b)
  {
    errors := LimitErrors(policy, b, LIMITS);
    EveryLimitIsListed();
    if errors == {} {
      WithinIsComplete(policy, b);
    }
    errors := Report(errors, ToolCallsHard in b && Val(b[ToolCallsHard]) < 5, ToolHardTooLow);
    errors := Report(errors, Exceeds(b, ToolCallsSoft, ToolCallsHard), ToolSoftTooHigh);
    errors := Report(errors, Exceeds(b, RuntimeSecondsSoft, RuntimeSecondsHard), RuntimeSoftTooHigh);
  }

  predicate AllKnown(fields: seq<Option<Limit>>) {
    forall i :: 0 <= i < |fields| ==> fields[i].Some?
  }

  function Known(fields: seq<Option<Limit>>): (r: seq<Limit>)
    requires AllKnown(fields)
    ensures |r| == |fields| && forall i :: 0 <= i < |r| ==> r[i] == fields[i].value
  {
    seq(|fields|, i requires 0 <= i < |fields| => fields[i].value)
  }

  /** Those of the fields in which a budget differs from the policy. */
  function DifferencesIn(policy: Policy, b: map<Limit, Number>, fields: seq<Limit>): seq<Limit> {
    if fields == [] then []
    else (if Differs(policy, b, fields[0]) then [fields[0]] else []) + DifferencesIn(policy, b, fields[1..])
  }

  function Differences(policy: Policy, b: map<Limit, Number>): seq<Limit> {
    DifferencesIn(policy, b, LIMITS)
  }

  /** The recorded overrides name exactly the differing fields, each once. */
  predicate OverriddenOk(policy: Policy, b: map<Limit, Number>, p: Provenance) {
    && p.overridden.Some? && AllKnown(p.overridden.value)
    && multiset(Known(p.overridden.value)) == multiset(Differences(policy, b))
    && p.applied == (Differences(policy, b) != [])
  }

  method ProvenanceErrors(policy: Policy, b: map<Limit, Number>, lane: string, p: Provenance)
    returns (errors: set<PacketError>)
    ensures errors == {} <==> p.profile == lane && p.source == POLICY_SOURCE && OverriddenOk(policy, b, p)
  {
    errors := Report({}, p.profile != lane, ProfileIsNotLane);
    errors := Report(errors, p.source != POLICY_SOURCE, SourceUnknown);
    if p.overridden.None? || !AllKnown(p.overridden.value) {
      return errors + {OverriddenInvalid};
    }
    var expected := Differences(policy, b);
    errors := Report(errors, multiset(Known(p.overridden.value)) != multiset(expected), OverriddenMismatch);
    errors := Report(errors, p.applied != (expected != []), AppliedMismatch);
  }

  predicate LineageOk(lane: string, packetId: string, l: Lineage) {
    && (l.attempt == 0 || l.attempt == 1)
    && Given(l.root)
    && (l.attempt == 0 ==> l.parent.None? && l.root == Some(packetId))
    && (l.attempt == 1 ==> l.parent.Some? && lane == VALIDATION && l.parent == l.root && l.root != Some(packetId))
  }

  method LineageErrors(lane: string, packetId: string, l: Lineage) returns (errors: set<PacketError>)
    ensures errors == {} <==> LineageOk(lane, packetId, l)
  {
    errors := Report({}, l.attempt != 0 && l.attempt != 1, LineageInvalid(AttemptUnknown));
    errors := Report(errors, l.attempt == 0 && l.parent.Some?, LineageInvalid(ParentForbidden));
    errors := Report(errors, l.attempt == 1 && l.parent.None?, LineageInvalid(ParentRequired));
    errors := Report(errors, !Given(l.root), LineageInvalid(RootRequired));
    errors := Report(errors, l.attempt == 0 && l.root != Some(packetId), LineageInvalid(RootIsNotSelf));
    errors := Report(errors, l.attempt == 1 && lane != VALIDATION, LineageInvalid(LaneIsNotValidation));
    errors := Report(errors, l.attempt == 1 && l.parent != l.root, LineageInvalid(ParentIsNotRoot));
    errors := Report(errors, l.attempt == 1 && (l.parent == Some(packetId) || l.root == Some(packetId)),
                     LineageInvalid(ReferencesItself));
  }

  predicate Valid(r: Rules, packet: Packet) {
    && BudgetOk(r.policy, packet.budget)
    && packet.provenance.profile == packet.lane && packet.provenance.source == POLICY_SOURCE
    && OverriddenOk(r.policy, packet.budget, packet.provenance)
    && packet.thresholds == InterruptThresholds(packet.budget, r.tool, r.runtime)
    && LineageOk(packet.lane, packet.packetId, packet.lineage)
  }

  /** The matching part of `validate_native_worker_packet`. */
  method ValidatePacket(r: Rules, packet: Packet) returns (errors: set<PacketError>)
    ensures errors == {} <==> Valid(r, packet)
  {
    var budget := BudgetErrors(r.policy, packet.budget);
    var provenance := ProvenanceErrors(r.policy, packet.budget, packet.lane, packet.provenance);
    var derived := AllPresent(packet.budget) ==>
                     packet.thresholds == InterruptThresholds(packet.budget, r.tool, r.runtime);
    var thresholds := Report({}, !derived, ThresholdsNotDerived);
    var lineage := LineageErrors(packet.lane, packet.packetId, packet.lineage);
    errors := budget + provenance + thresholds + lineage;
  }

  // ---------- the builder's packet ----------

  function Wrapped(fields: seq<Limit>): (r: seq<Option<Limit>>)
    ensures |r| == |fields| && forall i :: 0 <= i < |r| ==> r[i] == Some(fields[i])
  {
    seq(|fields|, i requires 0 <= i < |fields| => Some(fields[i]))
  }

  /** The parts of the packet that the builder derives from an effective budget and a lineage. */
  function Built(r: Rules, packetId: string, lane: string, effective: Effective, lineage: Lineage): Packet {
    Packet(packetId, lane, effective.budget,
           Provenance(lane, POLICY_SOURCE, effective.changed != [], Some(Wrapped(effective.changed))),
           InterruptThresholds(effective.budget, r.tool, r.runtime), lineage)
  }

  lemma {:induction false} DifferencesAt(policy: Policy, b: Budget, fields: seq<Limit>, f: Limit)
    ensures multiset(DifferencesIn(policy, b, fields))[f] == if Val(b[f]) != policy(f) then multiset(fields)[f] else 0
  {
    if fields != [] {
      DifferencesAt(policy, b, fields[1..], f);
      assert fields == [fields[0]] + fields[1..];
    }
  }

  lemma EachLimitIsListedOnce(f: Limit)
    ensures multiset(LIMITS)[f] == 1
  {
    forall i, j | 0 <= i < j < |LIMITS| ensures LIMITS[i] != LIMITS[j] {
      assert Rank(LIMITS[i]) == i && Rank(LIMITS[j]) == j;
    }
    DistinctIffOnce(LIMITS);
    EveryLimitIsListed();
  }

  /** A listing of the differences is the validator's listing, up to order. */
  lemma ListingsAgree(policy: Policy, b: Budget, fields: seq<Limit>)
    requires ListsDifferences(policy, b, fields)
    ensures multiset(fields) == multiset(Differences(policy, b))
  {
    DistinctIffOnce(fields);
    forall f: Limit ensures multiset(fields)[f] == multiset(Differences(policy, b))[f] {
      DifferencesAt(policy, b, LIMITS, f);
      EachLimitIsListedOnce(f);
      assert f in fields <==> multiset(fields)[f] > 0;
    }
  }

  lemma BuiltProvenanceIsValid(r: Rules, lane: string, effective: Effective, packetId: string, lineage: Lineage)
    requires ListsDifferences(r.policy, effective.budget, effective.changed)
    ensures OverriddenOk(r.policy, effective.budget, Built(r, packetId, lane, effective, lineage).provenance)
  {
    ListingsAgree(r.policy, effective.budget, effective.changed);
    var wrapped, differences := Wrapped(effective.changed), Differences(r.policy, effective.budget);
    assert Known(wrapped) == effective.changed;
    assert |multiset(effective.changed)| == |effective.changed| && |multiset(differences)| == |differences|;
  }

  /** An override that is a boolean and differs from the policy value it replaces. */
  ghost predicate BooleanOverride(policy: Policy, o: Override) {
    OverrideOk(policy, o) && o.value.value.Truth? && Val(o.value.value) != policy(o.field.value)
  }

  /** What an override in a dict does to its field. */
  lemma {:induction false} ChangeIs(policy: Policy, overrides: seq<Override>, o: Override)
    requires EachOnce(overrides) && o in overrides && OverrideOk(policy, o)
    ensures Change(policy, overrides, o.field.value) ==
            if Val(o.value.value) != policy(o.field.value) then o.value else None
  {
    var n := |overrides| - 1;
    var init := overrides[..n];
    assert overrides == init + [overrides[n]];
    if o == overrides[n] {
      forall x | x in init ensures x.field != o.field {
        var i :| 0 <= i < n && init[i] == x;
        assert overrides[i] == x;
      }
      Untouched(policy, init, o.field.value);
    } else {
      var i :| 0 <= i < n && init[i] == o;
      assert overrides[i].field != overrides[n].field;
      ChangeIs(policy, init, o);
    }
  }

  /** The effective budget: each override's value where there is one, the policy's elsewhere. */
  lemma OverriddenIs(policy: Policy, overrides: seq<Override>, f: Limit)
    requires EachOnce(overrides) && forall o :: o in overrides ==> OverrideOk(policy, o)
    ensures forall o :: o in overrides && o.field == Some(f) ==>
              OverrideOk(policy, o) && Val(Overridden(policy, overrides)[f]) == Val(o.value.value)
    ensures (forall o :: o in overrides ==> o.field != Some(f)) ==> Overridden(policy, overrides)[f] == Whole(policy(f))
  {
    forall o | o in overrides && o.field == Some(f)
      ensures Val(Overridden(policy, overrides)[f]) == Val(o.value.value)
    {
      ChangeIs(policy, overrides, o);
    }
    if forall o :: o in overrides ==> o.field != Some(f) {
      Untouched(policy, overrides, f);
    }
  }

  /**
   The budget that the builder accepts passes the validator exactly when no override is a boolean that changes its
   field: the builder takes `True` for an integer, the validator does not.
   */
  lemma BuiltBudgetIsValidIff(policy: Policy, overrides: seq<Override>)
    requires EachOnce(overrides) && Acceptable(policy, overrides)
    ensures BudgetOk(policy, Overridden(policy, overrides)) <==>
            !exists o :: o in overrides && BooleanOverride(policy, o)
  {
    var b := Overridden(policy, overrides);
    if o :| o in overrides && BooleanOverride(policy, o) {
      ChangeIs(policy, overrides, o);
      assert !LimitOk(policy, b, o.field.value);
    } else {
      forall f: Limit ensures LimitOk(policy, b, f) {
        OverridesOnlyTighten(policy, overrides, f);
        ChangeIsAllowed(policy, overrides, f);
        var c := Change(policy, overrides, f);
        if c.Some? {
          assert !BooleanOverride(policy, Override(Some(f), c));
        }
      }
    }
  }

  /** The lineage that the builder accepts passes the validator exactly when a first attempt leaves its parent null. */
  lemma BuiltLineageIsValidIff(lane: string, packetId: string, attempt: int, parent: Option<string>,
                               root: Option<string>)
    requires packetId != "" && BuildLineage(lane == VALIDATION, packetId, attempt, parent, root).Success?
    ensures LineageOk(lane, packetId, BuildLineage(lane == VALIDATION, packetId, attempt, parent, root).value) <==>
            !(attempt == 0 && parent == Some(""))
  {
  }

  /** Conversely, the builder accepts every valid lineage, and writes it down unchanged. */
  lemma ValidLineageIsBuilt(lane: string, packetId: string, l: Lineage)
    requires LineageOk(lane, packetId, l)
    ensures BuildLineage(lane == VALIDATION, packetId, l.attempt, l.parent, l.root) == Success(l)
  {
  }

  /**
   For overrides and a lineage that the builder's early steps accept, the packet parts that it writes are valid exactly
   when no override is a boolean that changes its field and no first attempt has an empty parent id.
   */
  lemma BuiltPacketIsValidIff(r: Rules, lane: string, packetId: string, overrides: seq<Override>, changed: seq<Limit>,
                              attempt: int, parent: Option<string>, root: Option<string>)
    requires packetId != "" && EachOnce(overrides) && Acceptable(r.policy, overrides)
    requires ListsDifferences(r.policy, Overridden(r.policy, overrides), changed)
    requires BuildLineage(lane == VALIDATION, packetId, attempt, parent, root).Success?
    ensures var lineage := BuildLineage(lane == VALIDATION, packetId, attempt, parent, root).value;
            Valid(r, Built(r, packetId, lane, Effective(Overridden(r.policy, overrides), changed), lineage)) <==>
            !(exists o :: o in overrides && BooleanOverride(r.policy, o)) && !(attempt == 0 && parent == Some(""))
  {
    var lineage := BuildLineage(lane == VALIDATION, packetId, attempt, parent, root).value;
    BuiltBudgetIsValidIff(r.policy, overrides);
    BuiltLineageIsValidIff(lane, packetId, attempt, parent, root);
    BuiltProvenanceIsValid(r, lane, Effective(Overridden(r.policy, overrides), changed), packetId, lineage);
  }

  // ---------- the builder, closing validation included ----------

  datatype BuildError = BudgetRefused(why: BudgetError) | LineageRefused(reason: LineageError)
                      | PacketRefused(errors: set<PacketError>)

  /** Every step before the closing validation accepts. */
  ghost predicate EarlyStepsAccept(r: Rules, lane: string, packetId: string, overrides: seq<Override>, attempt: int,
                                   parent: Option<string>, root: Option<string>) {
    && Acceptable(r.policy, overrides)
    && BuildLineage(lane == VALIDATION, packetId, attempt, parent, root).Success?
  }

  /** Only the closing validation refuses: a boolean override that changes its field, or an empty parent id. */
  ghost predicate CaughtAtLast(r: Rules, overrides: seq<Override>, attempt: int, parent: Option<string>) {
    (exists o :: o in overrides && BooleanOverride(r.policy, o)) || (attempt == 0 && parent == Some(""))
  }

  /**
   The matching part of `_build_native_worker_packet_unreserved`: budget, lineage, packet, and the validation that
   closes the build. A packet is returned only if it is valid; which inputs get one is stated without the validator.
   */
  method BuildPacket(r: Rules, lane: string, given: Option<string>, generated: string, overrides: seq<Override>,
                     attempt: int, parent: Option<string>, root: Option<string>)
    returns (built: Result<Packet, BuildError>)
    requires EachOnce(overrides) && generated != ""
    ensures built.Success? <==>
            && EarlyStepsAccept(r, lane, Or(given, generated), overrides, attempt, parent, root)
            && !CaughtAtLast(r, overrides, attempt, parent)
    ensures built.Success? ==>
              && Valid(r, built.value) && built.value.packetId == Or(given, generated) && built.value.lane == lane
              && built.value.budget == Overridden(r.policy, overrides)
              && BuildLineage(lane == VALIDATION, Or(given, generated), attempt, parent, root) ==
                 Success(built.value.lineage)
    ensures built.Failure? && built.error.PacketRefused? <==>
            && EarlyStepsAccept(r, lane, Or(given, generated), overrides, attempt, parent, root)
            && CaughtAtLast(r, overrides, attempt, parent)
  {
    var packetId := Or(given, generated);
    var effective := EffectiveBudget(r.policy, overrides);
    if effective.Failure? {
      return Failure(BudgetRefused(effective.error));
    }
    var lineage := BuildLineage(lane == VALIDATION, packetId, attempt, parent, root);
    if lineage.Failure? {
      return Failure(LineageRefused(lineage.error));
    }
    var packet := Built(r, packetId, lane, effective.value, lineage.value);
    var errors := ValidatePacket(r, packet);
    BuiltPacketIsValidIff(r, lane, packetId, overrides, effective.value.changed, attempt, parent, root);
    return if errors == {} then Success(packet) else Failure(PacketRefused(errors));
  }

  const TWENTY: Policy := (f: Limit) => 20
  const ONE_AS_TRUE: seq<Override> := [Override(Some(MaxCompactions), Some(Truth(true)))]

  lemma OneAsTrueIsAccepted()
    ensures EachOnce(ONE_AS_TRUE) && Acceptable(TWENTY, ONE_AS_TRUE) && BooleanOverride(TWENTY, ONE_AS_TRUE[0])
    ensures ListsDifferences(TWENTY, Overridden(TWENTY, ONE_AS_TRUE), [MaxCompactions])
  {
    ChangeIs(TWENTY, ONE_AS_TRUE, ONE_AS_TRUE[0]);
    forall f: Limit | f != MaxCompactions ensures Change(TWENTY, ONE_AS_TRUE, f) == None {
      Untouched(TWENTY, ONE_AS_TRUE, f);
    }
  }

  /** `True` for 1: every early step of the builder takes it, and its closing validation refuses the packet. */
  lemma BooleanOverrideIsInvalid(tool: Reserve, runtime: Reserve)
    ensures var r, b := Rules(TWENTY, tool, runtime), Overridden(TWENTY, ONE_AS_TRUE);
            && EachOnce(ONE_AS_TRUE) && EarlyStepsAccept(r, "code", "p", ONE_AS_TRUE, 0, None, None)
            && ListsDifferences(TWENTY, b, [MaxCompactions])
            && CaughtAtLast(r, ONE_AS_TRUE, 0, None)
            && !Valid(r, Built(r, "p", "code", Effective(b, [MaxCompactions]), Lineage(Some("p"), None, 0)))
  {
    OneAsTrueIsAccepted();
    assert ONE_AS_TRUE[0] in ONE_AS_TRUE;
    BuiltPacketIsValidIff(Rules(TWENTY, tool, runtime), "code", "p", ONE_AS_TRUE, [MaxCompactions], 0, None, None);
  }

  /** An empty parent id: the early steps take it for none but write it down, and the closing validation refuses it. */
  lemma EmptyParentIsInvalid(tool: Reserve, runtime: Reserve)
    ensures var r, b := Rules(TWENTY, tool, runtime), Overridden(TWENTY, []);
            && EarlyStepsAccept(r, "code", "p", [], 0, Some(""), None) && ListsDifferences(TWENTY, b, [])
            && CaughtAtLast(r, [], 0, Some(""))
            && !Valid(r, Built(r, "p", "code", Effective(b, []), Lineage(Some("p"), Some(""), 0)))
  {
    BuiltPacketIsValidIff(Rules(TWENTY, tool, runtime), "code", "p", [], [], 0, Some(""), None);
  }

  // ---------- the other direction: valid budgets are the builder's ----------

  /** Overrides that spell a budget out in full. */
  function Spelled(b: Budget): (r: seq<Override>)
    ensures |r| == |LIMITS| && forall i :: 0 <= i < |r| ==> r[i] == Override(Some(LIMITS[i]), Some(b[LIMITS[i]]))
  {
    seq(|LIMITS|, i requires 0 <= i < |LIMITS| => Override(Some(LIMITS[i]), Some(b[LIMITS[i]])))
  }

  /** Every budget the validator accepts is one that the builder produces from some overrides. */
  lemma ValidBudgetIsBuildable(policy: Policy, b: Budget)
    requires BudgetOk(policy, b)
    ensures EachOnce(Spelled(b)) && Acceptable(policy, Spelled(b)) && Overridden(policy, Spelled(b)) == b
  {
    var overrides := Spelled(b);
    forall i, j | 0 <= i < j < |overrides| ensures overrides[i].field != overrides[j].field {
      assert Rank(LIMITS[i]) == i && Rank(LIMITS[j]) == j;
    }
    forall o | o in overrides ensures OverrideOk(policy, o) {
      assert LimitOk(policy, b, o.field.value);
    }
    forall f: Limit ensures Overridden(policy, overrides)[f] == b[f] {
      assert overrides[Rank(f)] == Override(Some(f), Some(b[f]));
      ChangeIs(policy, overrides, Override(Some(f), Some(b[f])));
      assert LimitOk(policy, b, f);
    }
  }

  /** Every valid packet with its differences listed by name is what the builder makes of some accepted input. */
  lemma ValidPacketIsBuilt(r: Rules, packet: Packet, changed: seq<Limit>)
    requires Valid(r, packet) && ListsDifferences(r.policy, packet.budget, changed)
    requires packet.provenance.overridden == Some(Wrapped(changed))
    ensures var overrides, l := Spelled(packet.budget), packet.lineage;
            && EachOnce(overrides)
            && EarlyStepsAccept(r, packet.lane, packet.packetId, overrides, l.attempt, l.parent, l.root)
            && !CaughtAtLast(r, overrides, l.attempt, l.parent)
            && Built(r, packet.packetId, packet.lane, Effective(Overridden(r.policy, overrides), changed), l) == packet
  {
    ValidBudgetIsBuildable(r.policy, packet.budget);
    ValidLineageIsBuilt(packet.lane, packet.packetId, packet.lineage);
    ListingsAgree(r.policy, packet.budget, changed);
    NoBooleansSpelled(r.policy, packet.budget);
    SameEmptiness(changed, Differences(r.policy, packet.budget));
  }

  lemma NoBooleansSpelled(policy: Policy, b: Budget)
    requires Within(policy, b)
    ensures !exists o :: o in Spelled(b) && BooleanOverride(policy, o)
  {
    forall o | o in Spelled(b) ensures !BooleanOverride(policy, o) {
      assert LimitOk(policy, b, o.field.value);
    }
  }

  lemma SameEmptiness(a: seq<Limit>, b: seq<Limit>)
    requires multiset(a) == multiset(b)
    ensures a == [] <==> b == []
  {
    assert |multiset(a)| == |a| && |multiset(b)| == |b|;
  }
}
