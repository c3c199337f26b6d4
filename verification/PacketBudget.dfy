/**
 Budgets, interrupt thresholds and validation lineage of version 2 native worker packets: what the builder writes and
 what the validator accepts.
 */
module PacketBudget {
  import opened Wrappers
  import Sorting

  datatype Limit =
    | MaxCompactions | MaxFullSuiteRuns | RuntimeSecondsHard | RuntimeSecondsSoft | ToolCallsHard | ToolCallsSoft

  /** A Python integer: a boolean is one too, and compares as 0 or 1. */
  datatype Number = Whole(n: int) | Truth(b: bool)

  function Val(x: Number): int {
    match x
    case Whole(n) => n
    case Truth(b) => if b then 1 else 0
  }

  type Policy = Limit -> nat

  /** A dict with all six limits. */
  type Budget = b: map<Limit, Number> | forall f: Limit :: f in b witness (map f: Limit :: Whole(0))

  const LIMITS: seq<Limit> :=
    [MaxCompactions, MaxFullSuiteRuns, RuntimeSecondsHard, RuntimeSecondsSoft, ToolCallsHard, ToolCallsSoft]

  lemma EveryLimitIsListed()
    ensures forall f: Limit :: f in LIMITS
  {
    forall f: Limit ensures f in LIMITS {
      assert f == LIMITS[Rank(f)];
    }
  }

  /** Place in alphabetical order of the field names. */
  function Rank(f: Limit): nat {
    match f
    case MaxCompactions => 0
    case MaxFullSuiteRuns => 1
    case RuntimeSecondsHard => 2
    case RuntimeSecondsSoft => 3
    case ToolCallsHard => 4
    case ToolCallsSoft => 5
  }

  predicate ByName(a: Limit, b: Limit) {
    Rank(a) <= Rank(b)
  }

  // ---------- the builder ----------

  /** An override as given: its field, if there is one of that name, and its value, if that is an integer. */
  datatype Override = Override(field: Option<Limit>, value: Option<Number>)

  datatype BudgetError =
    | UnknownOverride | NotNonNegativeInteger(f: Limit) | Loosens(f: Limit)
    | ToolHardBelowFive | ToolSoftAboveHard | RuntimeSoftAboveHard

  datatype Effective = Effective(budget: Budget, changed: seq<Limit>)

  /** Overrides come from a dict: each field once. */
  ghost predicate EachOnce(overrides: seq<Override>) {
    forall i, j :: 0 <= i < j < |overrides| && overrides[i].field.Some? ==> overrides[i].field != overrides[j].field
  }

  predicate OverrideOk(policy: Policy, o: Override) {
    o.field.Some? && o.value.Some? && 0 <= Val(o.value.value) <= policy(o.field.value)
  }

  predicate LimitsOk(b: Budget) {
    && Val(b[ToolCallsHard]) >= 5 && Val(b[ToolCallsSoft]) <= Val(b[ToolCallsHard])
    && Val(b[RuntimeSecondsSoft]) <= Val(b[RuntimeSecondsHard])
  }

  function OfPolicy(policy: Policy): Budget {
    map f: Limit :: Whole(policy(f))
  }

  /** The override of `f` that changes the policy value; one equal to it, `True` for 1 say, changes nothing. */
  function Change(policy: Policy, overrides: seq<Override>, f: Limit): Option<Number> {
    if overrides == [] then None
    else
      var o := overrides[|overrides| - 1];
      if o.field == Some(f) && o.value.Some? && Val(o.value.value) != policy(f) then o.value
      else Change(policy, overrides[..|overrides| - 1], f)
  }

  /** The budget after all overrides. */
  function Overridden(policy: Policy, overrides: seq<Override>): Budget {
    map f: Limit :: var c := Change(policy, overrides, f); if c.Some? then c.value else Whole(policy(f))
  }

  ghost predicate Acceptable(policy: Policy, overrides: seq<Override>) {
    (forall o :: o in overrides ==> OverrideOk(policy, o)) && LimitsOk(Overridden(policy, overrides))
  }

  /** Exactly the fields whose value differs from the policy's, by name. */
  ghost predicate ListsDifferences(policy: Policy, b: Budget, fields: seq<Limit>) {
    && Sorting.Ascending(ByName, fields) && (forall f :: f in fields <==> Val(b[f]) != policy(f))
    && forall i, j :: 0 <= i < j < |fields| ==> fields[i] != fields[j]
  }

  /** What the first `i` overrides have done, and which fields they changed, in order of change. */
  ghost predicate Applied(policy: Policy, overrides: seq<Override>, i: nat, effective: Budget, changed: seq<Limit>)
    requires i <= |overrides|
  {
    && (forall j :: 0 <= j < i ==> OverrideOk(policy, overrides[j]))
    && effective == Overridden(policy, overrides[..i])
    && (forall f :: f in changed <==> Val(effective[f]) != policy(f))
    && (forall j, k :: 0 <= j < k < |changed| ==> changed[j] != changed[k])
  }

  /** `_effective_budget` */
  method EffectiveBudget(policy: Policy, overrides: seq<Override>) returns (r: Result<Effective, BudgetError>)
    requires EachOnce(overrides)
    ensures r.Success? <==> Acceptable(policy, overrides)
    ensures r.Success? ==> r.value.budget == Overridden(policy, overrides)
    ensures r.Success? ==> ListsDifferences(policy, r.value.budget, r.value.changed)
  {
    var effective, changed: seq<Limit> := OfPolicy(policy), [];
    for i := 0 to |overrides|
      invariant Applied(policy, overrides, i, effective, changed)
    {
      var o := overrides[i];
      assert o in overrides;
      if o.field.None? {
        return Failure(UnknownOverride);
      }
      if o.value.None? || Val(o.value.value) < 0 {
        return Failure(NotNonNegativeInteger(o.field.value));
      }
      if Val(o.value.value) > policy(o.field.value) {
        return Failure(Loosens(o.field.value));
      }
      OneMore(policy, overrides, i, effective, changed);
      if Val(o.value.value) != policy(o.field.value) {
        effective, changed := effective[o.field.value := o.value.value], changed + [o.field.value];
      }
    }
    assert overrides[..|overrides|] == overrides;
    r := Bounded(effective, changed);
    SortedListing(policy, effective, changed);
  }

  /** The checks on the budget as a whole. */
  method Bounded(effective: Budget, changed: seq<Limit>) returns (r: Result<Effective, BudgetError>)
    ensures r.Success? <==> LimitsOk(effective)
    ensures r.Success? ==> r.value == Effective(effective, Sorting.Sort(ByName, changed))
  {
    if Val(effective[ToolCallsHard]) < 5 {
      return Failure(ToolHardBelowFive);
    }
    if Val(effective[ToolCallsSoft]) > Val(effective[ToolCallsHard]) {
      return Failure(ToolSoftAboveHard);
    }
    if Val(effective[RuntimeSecondsSoft]) > Val(effective[RuntimeSecondsHard]) {
      return Failure(RuntimeSoftAboveHard);
    }
    return Success(Effective(effective, Sorting.Sort(ByName, changed)));
  }

  lemma OneMore(policy: Policy, overrides: seq<Override>, i: nat, effective: Budget, changed: seq<Limit>)
    requires EachOnce(overrides) && i < |overrides| && OverrideOk(policy, overrides[i])
    requires Applied(policy, overrides, i, effective, changed)
    ensures var f, v := overrides[i].field.value, overrides[i].value.value;
            if Val(v) != policy(f) then Applied(policy, overrides, i + 1, effective[f := v], changed + [f])
            else Applied(policy, overrides, i + 1, effective, changed)
  {
    var f := overrides[i].field.value;
    assert overrides[..i + 1][..i] == overrides[..i];
    Untouched(policy, overrides[..i], f);
  }

  /** A field that no override names keeps the policy value. */
  lemma {:induction false} Untouched(policy: Policy, overrides: seq<Override>, f: Limit)
    requires forall o :: o in overrides ==> o.field != Some(f)
    ensures Change(policy, overrides, f).None?
  {
    if overrides != [] {
      assert overrides[|overrides| - 1] in overrides;
      Untouched(policy, overrides[..|overrides| - 1], f);
    }
  }

  lemma SortedListing(policy: Policy, b: Budget, changed: seq<Limit>)
    requires forall f :: f in changed <==> Val(b[f]) != policy(f)
    requires forall j, k :: 0 <= j < k < |changed| ==> changed[j] != changed[k]
    ensures ListsDifferences(policy, b, Sorting.Sort(ByName, changed))
  {
    var sorted := Sorting.Sort(ByName, changed);
    Sorting.SortAscending(ByName, changed);
    forall f: Limit ensures f in sorted <==> f in changed {
      assert f in sorted <==> f in multiset(sorted);
      assert f in changed <==> f in multiset(changed);
    }
    DistinctIffOnce(changed);
    DistinctIffOnce(sorted);
  }

  lemma {:induction false} DistinctIffOnce<T>(s: seq<T>)
    ensures (forall i, j :: 0 <= i < j < |s| ==> s[i] != s[j]) <==> (forall x :: x in s ==> multiset(s)[x] == 1)
  {
    if s != [] {
      var rest := s[1..];
      assert s == [s[0]] + rest;
      DistinctIffOnce(rest);
      assert forall x :: multiset(s)[x] == multiset(rest)[x] + if x == s[0] then 1 else 0;
      assert s[0] in rest <==> multiset(rest)[s[0]] > 0;
      if forall x :: x in s ==> multiset(s)[x] == 1 {
        forall x | x in rest ensures multiset(rest)[x] == 1 {
          assert x in s && multiset(rest)[x] > 0;
        }
        assert multiset(s)[s[0]] == 1;
        forall i, j | 0 <= i < j < |s| ensures s[i] != s[j] {
          assert s[j] == rest[j - 1];
        }
      }
      if forall i, j :: 0 <= i < j < |s| ==> s[i] != s[j] {
        forall i, j | 0 <= i < j < |rest| ensures rest[i] != rest[j] {
          assert rest[i] == s[i + 1] && rest[j] == s[j + 1];
        }
        assert s[0] !in rest;
        forall x | x in s ensures multiset(s)[x] == 1 {
          assert x != s[0] ==> x in rest;
        }
      }
    }
  }

  // ---------- what overriding promises ----------

  lemma {:induction false} ChangeIsAllowed(policy: Policy, overrides: seq<Override>, f: Limit)
    requires forall o :: o in overrides ==> OverrideOk(policy, o)
    ensures var c := Change(policy, overrides, f);
            c.Some? ==> 0 <= Val(c.value) < policy(f) && Override(Some(f), c) in overrides
  {
    if overrides != [] {
      assert overrides[|overrides| - 1] in overrides;
      ChangeIsAllowed(policy, overrides[..|overrides| - 1], f);
    }
  }

  /** An accepted budget is nowhere looser than the policy, and its soft limits are within its hard ones. */
  lemma OverridesOnlyTighten(policy: Policy, overrides: seq<Override>, f: Limit)
    requires Acceptable(policy, overrides)
    ensures 0 <= Val(Overridden(policy, overrides)[f]) <= policy(f)
    ensures LimitsOk(Overridden(policy, overrides))
  {
    ChangeIsAllowed(policy, overrides, f);
  }

  // ---------- interrupt thresholds ----------

  /** Reserve kept below a hard limit: at least `floor`, and at least the share `ratio` of the limit. */
  datatype Reserve = Reserve(floor: int, ratio: real)

  datatype Thresholds = Thresholds(toolCalls: int, runtimeSeconds: int)

  /** `math.ceil` */
  function Ceil(x: real): int {
    -((-x).Floor)
  }

  function Max(a: int, b: int): int {
    if a < b then b else a
  }

  /** What is left of a hard limit above its reserve. */
  function Kept(hard: int, floor: int, share: real): int {
    Max(0, hard - Max(floor, Ceil(share)))
  }

  function Share(hard: real, ratio: real): real {
    hard * ratio
  }

  function Threshold(hard: int, reserve: Reserve): int {
    Kept(hard, reserve.floor, Share(hard as real, reserve.ratio))
  }

  /** `_interrupt_thresholds` */
  function InterruptThresholds(b: Budget, tool: Reserve, runtime: Reserve): Thresholds {
    Thresholds(Threshold(Val(b[ToolCallsHard]), tool), Threshold(Val(b[RuntimeSecondsHard]), runtime))
  }

  /** Interrupts come strictly before a positive hard limit, with at least the reserve to spare, or at once. */
  lemma ThresholdIsBelowLimit(hard: nat, reserve: Reserve)
    requires reserve.floor > 0
    ensures 0 <= Threshold(hard, reserve) <= hard && (hard > 0 ==> Threshold(hard, reserve) < hard)
    ensures Threshold(hard, reserve) > 0 ==>
            && hard - Threshold(hard, reserve) >= reserve.floor
            && (hard - Threshold(hard, reserve)) as real >= hard as real * reserve.ratio
  {
    CeilIsLeast(hard as real * reserve.ratio);
  }

  /** There is room for `t` below the hard limit and its reserve. */
  ghost predicate LeavesReserve(hard: int, reserve: Reserve, t: int) {
    hard - t >= reserve.floor && (hard - t) as real >= hard as real * reserve.ratio
  }

  /** No later interrupt would leave the reserve: the threshold is the latest that does, or zero if none does. */
  lemma ThresholdIsLatest(hard: int, reserve: Reserve, t: int)
    requires 0 <= t && LeavesReserve(hard, reserve, t)
    ensures t <= Threshold(hard, reserve) && LeavesReserve(hard, reserve, Threshold(hard, reserve))
  {
    CeilIsLeast(hard as real * reserve.ratio);
  }

  /** Each threshold is that of its own hard limit and reserve. */
  lemma EachThresholdIsLatest(b: Budget, tool: Reserve, runtime: Reserve)
    ensures var t := InterruptThresholds(b, tool, runtime);
            && IsLatest(Val(b[ToolCallsHard]), tool, t.toolCalls)
            && IsLatest(Val(b[RuntimeSecondsHard]), runtime, t.runtimeSeconds)
  {
    LatestIs(Val(b[ToolCallsHard]), tool);
    LatestIs(Val(b[RuntimeSecondsHard]), runtime);
  }

  ghost predicate IsLatest(hard: int, reserve: Reserve, t: int) {
    && 0 <= t
    && (t > 0 ==> LeavesReserve(hard, reserve, t))
    && forall u :: t < u ==> !LeavesReserve(hard, reserve, u)
  }

  lemma LatestIs(hard: int, reserve: Reserve)
    ensures IsLatest(hard, reserve, Threshold(hard, reserve))
  {
    CeilIsLeast(hard as real * reserve.ratio);
    forall u | Threshold(hard, reserve) < u ensures !LeavesReserve(hard, reserve, u) {
      if LeavesReserve(hard, reserve, u) {
        ThresholdIsLatest(hard, reserve, u);
      }
    }
  }

  lemma CeilIsLeast(x: real)
    ensures x <= Ceil(x) as real < x + 1.0
  {
  }

  /** Ceilings of two reals lie no further apart than the whole number that bounds their distance. */
  lemma CeilApart(x: real, y: real, n: nat)
    requires x <= y <= x + n as real
    ensures Ceil(x) <= Ceil(y) <= Ceil(x) + n
  {
    CeilIsLeast(x);
    CeilIsLeast(y);
  }

  lemma ProductIsNonNegative(a: real, b: real)
    requires a >= 0.0 && b >= 0.0
    ensures a * b >= 0.0
  {
  }

  lemma Product(d: real, ratio: real)
    requires d >= 0.0
    ensures 0.0 <= ratio <= 1.0 ==> 0.0 <= Share(d, ratio) <= d
    ensures ratio > 1.0 ==> Share(d, ratio) >= d
    ensures ratio < 0.0 ==> Share(d, ratio) <= 0.0
  {
    if ratio < 0.0 {
      ProductIsNonNegative(d, -ratio);
      assert d * -ratio == -(d * ratio);
    } else {
      ProductIsNonNegative(d, ratio);
      if ratio <= 1.0 {
        ProductIsNonNegative(d, 1.0 - ratio);
        assert d * (1.0 - ratio) == d - d * ratio;
      } else {
        ProductIsNonNegative(d, ratio - 1.0);
        assert d * (ratio - 1.0) == d * ratio - d;
      }
    }
  }

  lemma SharesAdd(a: real, b: real, ratio: real)
    ensures Share(b, ratio) == Share(a, ratio) + Share(b - a, ratio)
  {
  }

  lemma KeptIsMonotone(a: nat, b: nat, floor: int, x: real, y: real)
    requires floor > 0 && a <= b
    requires || x <= y <= x + (b as real - a as real)
             || (x <= 0.0 && y <= 0.0)
             || (x >= a as real && y >= b as real)
    ensures Kept(a, floor, x) <= Kept(b, floor, y)
  {
    CeilIsLeast(x);
    CeilIsLeast(y);
    assert (b - a) as real == b as real - a as real;
    if x <= y <= x + (b as real - a as real) {
      CeilApart(x, y, b - a);
    }
  }

  /** How the shares of two limits lie, for a ratio inside, below or above the unit interval. */
  lemma SharesApart(a: real, b: real, ratio: real)
    requires 0.0 <= a <= b
    ensures || Share(a, ratio) <= Share(b, ratio) <= Share(a, ratio) + (b - a)
            || (Share(a, ratio) <= 0.0 && Share(b, ratio) <= 0.0)
            || (Share(a, ratio) >= a && Share(b, ratio) >= b)
  {
    if 0.0 <= ratio <= 1.0 {
      Product(b - a, ratio);
      SharesAdd(a, b, ratio);
    } else {
      Product(a, ratio);
      Product(b, ratio);
    }
  }

  /** A looser hard limit never interrupts earlier, whatever share is held in reserve. */
  lemma ThresholdIsMonotone(a: nat, b: nat, reserve: Reserve)
    requires reserve.floor > 0 && a <= b
    ensures Threshold(a, reserve) <= Threshold(b, reserve)
  {
    SharesApart(a as real, b as real, reserve.ratio);
    KeptIsMonotone(a, b, reserve.floor, Share(a as real, reserve.ratio), Share(b as real, reserve.ratio));
  }
}
