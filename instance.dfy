// The immutable MASSP instance, the derived coverage matrix and break
// windows, and the instance validation (src/instance.py).
module Instance {
  import opened Seqs

  /** The parsed instance. Index tuples are sorted integer sequences; numeric data are exact reals. */
  datatype InstanceData = InstanceData(
    n: int,
    N: seq<int>,
    M1: seq<int>, M2: seq<int>, M: seq<int>,
    A: seq<int>, B: seq<int>, C: seq<int>, A1: seq<int>, A2: seq<int>,
    T: seq<int>,
    Ga: map<int, seq<int>>,
    d: map<(int, int), real>,
    s: map<(int, int), real>,
    v: map<int, int>,
    r: map<int, int>,
    Ta: map<int, seq<int>>,
    Ht: map<int, seq<int>>,
    c: map<int, real>,
    q: int, p: int, f: int,
    Oj: map<int, seq<int>>,
    w: real,
    b: map<(int, int), int>,
    shiftStart: map<int, int>,
    shiftLength: map<int, int>,
    shiftCostMultiplier: map<int, real>)

  // ---------------------------------------------------------------------
  // Derived data computed while loading
  // ---------------------------------------------------------------------

  /** M is the sorted concatenation of the full-time and part-time shift types. */
  function ShiftTypes(M1: seq<int>, M2: seq<int>): (M: seq<int>)
    ensures Sorted(M)
    ensures multiset(M) == multiset(M1) + multiset(M2)
    ensures Elems(M) == Elems(M1) + Elems(M2)
  {
    var M := SortedTuple(M1 + M2);
    MultisetElems(M, M1 + M2);
    assert Elems(M1 + M2) == Elems(M1) + Elems(M2);
    M
  }

  /** Default multiplier when none is given: part-time shifts cost `factor`, the others 1.0. */
  function DefaultShiftCostMultiplier(M: seq<int>, M2: seq<int>, factor: real): (mult: map<int, real>)
    ensures mult.Keys == Elems(M)
    ensures forall j | j in M :: mult[j] == if j in M2 then factor else 1.0
  {
    map j | j in Elems(M) :: if j in M2 then factor else 1.0
  }

  /** Last interval covered by a shift the loader clips at the horizon n. */
  function CoverageEnd(n: int, start: int, length: int): int
  {
    if n < start + length - 1 then n else start + length - 1
  }

  /**
   * The 0/1 coverage matrix b[(k, j)]: the double loop of the loader. None where the loader
   * raises: `max` of an empty N, or a shift type of M without a start or a length.
   */
  method ComputeBMatrix(N: seq<int>, M: seq<int>, shiftStart: map<int, int>, shiftLength: map<int, int>)
    returns (r: Option<map<(int, int), int>>)
    ensures r.None? <==> N == [] || exists j | j in M :: j !in shiftStart || j !in shiftLength
    ensures r.Some? ==> forall k, j :: (k, j) in r.value <==> k in N && j in M
    ensures r.Some? ==> forall k, j | k in N && j in M ::
      r.value[(k, j)] == 1 <==> shiftStart[j] <= k <= CoverageEnd(Max(N), shiftStart[j], shiftLength[j])
    ensures r.Some? ==> forall k, j | k in N && j in M :: r.value[(k, j)] == 0 || r.value[(k, j)] == 1
  {
    if N == [] {
      return None;
    }
    var n := Max(N);
    var b := map[];
    for pj := 0 to |M|
      invariant forall j | j in M[..pj] :: j in shiftStart && j in shiftLength
      invariant forall k, j :: (k, j) in b <==> k in N && j in M[..pj]
      invariant forall k, j | (k, j) in b ::
        (b[(k, j)] == 1 <==> shiftStart[j] <= k <= CoverageEnd(n, shiftStart[j], shiftLength[j]))
      invariant forall k, j | (k, j) in b :: b[(k, j)] == 0 || b[(k, j)] == 1
    {
      var j := M[pj];
      if j !in shiftStart || j !in shiftLength {
        return None;
      }
      var start := shiftStart[j];
      var length := shiftLength[j];
      var end := CoverageEnd(n, start, length);
      for pk := 0 to |N|
        invariant forall k, j' :: (k, j') in b <==> k in N && (j' in M[..pj] || (j' == j && k in N[..pk]))
        invariant forall k, j' | (k, j') in b ::
          (b[(k, j')] == 1 <==> shiftStart[j'] <= k <= CoverageEnd(n, shiftStart[j'], shiftLength[j']))
        invariant forall k, j' | (k, j') in b :: b[(k, j')] == 0 || b[(k, j')] == 1
      {
        var k := N[pk];
        b := b[(k, j) := if start <= k <= end then 1 else 0];
        assert N[..pk + 1] == N[..pk] + [k];
      }
      assert N[..|N|] == N;
      assert M[..pj + 1] == M[..pj] + [j];
    }
    assert M[..|M|] == M;
    r := Some(b);
  }

  /** The relative break pattern shifted to the start of a shift, out-of-horizon entries dropped. */
  function BreakWindow(start: int, rel: seq<int>, N: seq<int>): seq<int>
  {
    if rel == [] then []
    else
      var i := start + rel[0] - 1;
      var rest := BreakWindow(start, rel[1..], N);
      if i in N then [i] + rest else rest
  }

  /**
   * A break window keeps, in the pattern's order and with the pattern's repetitions, exactly
   * the shifted slots that lie in N.
   */
  lemma {:induction false} BreakWindowFilter(start: int, rel: seq<int>, N: seq<int>)
    ensures BreakWindow(start, rel, N) == Filter(Shifted(start, rel), Elems(N))
    ensures IsSubsequence(BreakWindow(start, rel, N), Shifted(start, rel))
    decreases |rel|
  {
    if rel != [] {
      BreakWindowFilter(start, rel[1..], N);
      assert Shifted(start, rel)[1..] == Shifted(start, rel[1..]);
      assert Shifted(start, rel)[0] == start + rel[0] - 1;
    }
  }

  /** At most one slot per pattern entry, each in N and shifted from an entry; every in-horizon slot appears. */
  lemma {:induction false} BreakWindowSlots(start: int, rel: seq<int>, N: seq<int>)
    ensures |BreakWindow(start, rel, N)| <= |rel|
    ensures forall i | i in BreakWindow(start, rel, N) :: i in N && i - start + 1 in rel
    ensures forall x | x in rel && start + x - 1 in N :: start + x - 1 in BreakWindow(start, rel, N)
    decreases |rel|
  {
    if rel != [] {
      BreakWindowSlots(start, rel[1..], N);
      var rest := BreakWindow(start, rel[1..], N);
      assert forall x | x in rel :: x == rel[0] || x in rel[1..];
      assert forall i' | i' in BreakWindow(start, rel, N) :: i' == start + rel[0] - 1 || i' in rest;
    }
  }

  function Shifted(start: int, rel: seq<int>): (r: seq<int>)
    ensures |r| == |rel|
  {
    seq(|rel|, p requires 0 <= p < |rel| => start + rel[p] - 1)
  }

  /** `sub` is `s` with some elements left out, the rest in their original order. */
  predicate IsSubsequence(sub: seq<int>, s: seq<int>)
    decreases |s|
  {
    if sub == [] then true
    else if s == [] then false
    else (sub[0] == s[0] && IsSubsequence(sub[1..], s[1..])) || IsSubsequence(sub, s[1..])
  }

  /**
   * Oj[j] for every full-time shift type, from the relative break pattern; None where the
   * loader raises, a full-time shift type without a start.
   */
  function ComputeBreakWindows(M1: seq<int>, shiftStart: map<int, int>, rel: seq<int>, N: seq<int>)
    : (Oj: Option<map<int, seq<int>>>)
    ensures Oj.None? <==> exists j | j in M1 :: j !in shiftStart
    ensures Oj.Some? ==> Oj.value.Keys == Elems(M1)
    ensures Oj.Some? ==> forall j | j in M1 :: Oj.value[j] == BreakWindow(shiftStart[j], rel, N)
  {
    if forall j | j in M1 :: j in shiftStart then
      Some(map j | j in Elems(M1) :: BreakWindow(shiftStart[j], rel, N))
    else
      None
  }

  // ---------------------------------------------------------------------
  // Validation
  // ---------------------------------------------------------------------

  /** One entry of the error list, carrying the indices the message names. */
  datatype ValidationError =
    | ShiftTypesOverlap
    | ShiftTypesNotUnion
    | ActivityClassesOverlap
    | ActivityClassesNotUnion
    | WindowClassesOverlap
    | WindowClassesNotUnion
    | IntervalsNotOneToN
    | MissingShiftStart(j: int)
    | MissingShiftLength(j: int)
    | MissingShiftCostMultiplier(j: int)
    | MissingCoverage(k: int, j: int)
    | CoverageNotBinary(k: int, j: int)
    | MissingDemand(a: int, i: int)
    | MissingParents(a: int)
    | MissingShare(a: int, parent: int)
    | MissingDeadline(a: int)
    | MissingRelease(a: int)
    | MissingProfiles(a: int)
    | MissingActivities(t: int)
    | MissingCost(t: int)
    | UnknownProfile(a: int, t: int)
    | ProfileLacksActivity(a: int, t: int)
    | UnknownActivity(t: int, a: int)
    | ActivityLacksProfile(t: int, a: int)
    | MissingBreakWindow(j: int)
    | BreakWindowLength(j: int)
    | BreakOutsideHorizon(j: int, i: int)
    | PartTimeCapOutOfRange
    | NonPositiveCapacity
    | NegativeBreakLength
    | NonPositiveShiftLength

  // The condition under which the validation reports e, one predicate per group of checks.

  ghost predicate PartitionViolated(inst: InstanceData, e: ValidationError)
  {
    match e
    case ShiftTypesOverlap => !(Elems(inst.M1) !! Elems(inst.M2))
    case ShiftTypesNotUnion => Elems(inst.M) != Elems(inst.M1) + Elems(inst.M2)
    case ActivityClassesOverlap => !(Elems(inst.B) !! Elems(inst.C))
    case ActivityClassesNotUnion => Elems(inst.A) != Elems(inst.B) + Elems(inst.C)
    case WindowClassesOverlap => !(Elems(inst.A1) !! Elems(inst.A2))
    case WindowClassesNotUnion => Elems(inst.A) != Elems(inst.A1) + Elems(inst.A2)
    case IntervalsNotOneToN => inst.N != Range(1, inst.n + 1)
    case _ => false
  }

  ghost predicate ShiftViolated(inst: InstanceData, e: ValidationError)
  {
    match e
    case MissingShiftStart(j) => j in inst.M && j !in inst.shiftStart
    case MissingShiftLength(j) => j in inst.M && j !in inst.shiftLength
    case MissingShiftCostMultiplier(j) => j in inst.M && j !in inst.shiftCostMultiplier
    case MissingCoverage(k, j) => j in inst.M && k in inst.N && (k, j) !in inst.b
    case CoverageNotBinary(k, j) =>
      j in inst.M && k in inst.N && (k, j) in inst.b && inst.b[(k, j)] != 0 && inst.b[(k, j)] != 1
    case _ => false
  }

  ghost predicate DemandViolated(inst: InstanceData, e: ValidationError)
  {
    match e
    case MissingDemand(a, i) => a in inst.B && i in inst.N && (a, i) !in inst.d
    case _ => false
  }

  ghost predicate ParentViolated(inst: InstanceData, e: ValidationError)
  {
    match e
    case MissingParents(a) => a in inst.C && a !in inst.Ga
    case MissingShare(a, parent) =>
      a in inst.C && a in inst.Ga && parent in inst.Ga[a] && (a, parent) !in inst.s
    case _ => false
  }

  ghost predicate DeadlineViolated(inst: InstanceData, e: ValidationError)
  {
    match e
    case MissingDeadline(a) => a in inst.A1 && a !in inst.v
    case _ => false
  }

  ghost predicate ReleaseViolated(inst: InstanceData, e: ValidationError)
  {
    match e
    case MissingRelease(a) => a in inst.A2 && a !in inst.r
    case _ => false
  }

  ghost predicate ProfileViolated(inst: InstanceData, e: ValidationError)
  {
    match e
    case MissingProfiles(a) => a in inst.A && (a !in inst.Ta || inst.Ta[a] == [])
    case _ => false
  }

  ghost predicate ActivityViolated(inst: InstanceData, e: ValidationError)
  {
    match e
    case MissingActivities(t) => t in inst.T && (t !in inst.Ht || inst.Ht[t] == [])
    case MissingCost(t) => t in inst.T && t !in inst.c
    case _ => false
  }

  ghost predicate ProfileLinkViolated(inst: InstanceData, e: ValidationError)
  {
    match e
    case UnknownProfile(a, t) => a in inst.A && t in Get(inst.Ta, a, []) && t !in inst.T
    case ProfileLacksActivity(a, t) =>
      a in inst.A && t in Get(inst.Ta, a, []) && a !in Get(inst.Ht, t, [])
    case _ => false
  }

  ghost predicate ActivityLinkViolated(inst: InstanceData, e: ValidationError)
  {
    match e
    case UnknownActivity(t, a) => t in inst.T && a in Get(inst.Ht, t, []) && a !in inst.A
    case ActivityLacksProfile(t, a) =>
      t in inst.T && a in Get(inst.Ht, t, []) && t !in Get(inst.Ta, a, [])
    case _ => false
  }

  ghost predicate BreakViolated(inst: InstanceData, e: ValidationError)
  {
    match e
    case MissingBreakWindow(j) => j in inst.M1 && j !in inst.Oj
    case BreakWindowLength(j) => j in inst.M1 && j in inst.Oj && |inst.Oj[j]| != inst.f
    case BreakOutsideHorizon(j, i) => j in inst.M1 && j in inst.Oj && i in inst.Oj[j] && i !in inst.N
    case _ => false
  }

  ghost predicate ScalarViolated(inst: InstanceData, e: ValidationError)
  {
    match e
    case PartTimeCapOutOfRange => !(0.0 <= inst.w <= 1.0)
    case NonPositiveCapacity => inst.q <= 0
    case NegativeBreakLength => inst.p < 0
    case NonPositiveShiftLength => inst.f <= 0
    case _ => false
  }

  /** The condition under which the validation reports e. */
  ghost predicate Violated(inst: InstanceData, e: ValidationError)
  {
    || PartitionViolated(inst, e)
    || ShiftViolated(inst, e)
    || DemandViolated(inst, e)
    || ParentViolated(inst, e)
    || DeadlineViolated(inst, e)
    || ReleaseViolated(inst, e)
    || ProfileViolated(inst, e)
    || ActivityViolated(inst, e)
    || ProfileLinkViolated(inst, e)
    || ActivityLinkViolated(inst, e)
    || BreakViolated(inst, e)
    || ScalarViolated(inst, e)
  }

  /** The partitions M = M1 + M2, A = B + C, A = A1 + A2 (disjoint) and N = 1..n. */
  ghost predicate PartitionsOk(inst: InstanceData)
  {
    && Elems(inst.M1) !! Elems(inst.M2)
    && Elems(inst.M) == Elems(inst.M1) + Elems(inst.M2)
    && Elems(inst.B) !! Elems(inst.C)
    && Elems(inst.A) == Elems(inst.B) + Elems(inst.C)
    && Elems(inst.A1) !! Elems(inst.A2)
    && Elems(inst.A) == Elems(inst.A1) + Elems(inst.A2)
    && inst.N == Range(1, inst.n + 1)
  }

  /** Every shift type has a start, a length, a multiplier and a 0/1 coverage column. */
  ghost predicate ShiftDataOk(inst: InstanceData)
  {
    && (forall j | j in inst.M ::
          j in inst.shiftStart && j in inst.shiftLength && j in inst.shiftCostMultiplier)
    && (forall k, j | j in inst.M && k in inst.N ::
          (k, j) in inst.b && (inst.b[(k, j)] == 0 || inst.b[(k, j)] == 1))
  }

  ghost predicate DemandOk(inst: InstanceData)
  {
    forall a, i | a in inst.B && i in inst.N :: (a, i) in inst.d
  }

  /** Every dependent activity lists its parents and a share for each of them. */
  ghost predicate ParentsOk(inst: InstanceData)
  {
    && (forall a | a in inst.C :: a in inst.Ga)
    && (forall a, parent | a in inst.C && a in inst.Ga && parent in inst.Ga[a] :: (a, parent) in inst.s)
  }

  ghost predicate WindowsOk(inst: InstanceData)
  {
    && (forall a | a in inst.A1 :: a in inst.v)
    && (forall a | a in inst.A2 :: a in inst.r)
  }

  ghost predicate CapabilitiesOk(inst: InstanceData)
  {
    && (forall a | a in inst.A :: a in inst.Ta && inst.Ta[a] != [])
    && (forall t | t in inst.T :: t in inst.Ht && inst.Ht[t] != [] && t in inst.c)
  }

  /** Ta and Ht describe the same profile/activity relation, over known indices. */
  ghost predicate LinksOk(inst: InstanceData)
  {
    && (forall a, t | a in inst.A && t in Get(inst.Ta, a, []) ::
          t in inst.T && a in Get(inst.Ht, t, []))
    && (forall t, a | t in inst.T && a in Get(inst.Ht, t, []) ::
          a in inst.A && t in Get(inst.Ta, a, []))
  }

  /** Every full-time shift has f break slots, all inside the horizon. */
  ghost predicate BreaksOk(inst: InstanceData)
  {
    && (forall j | j in inst.M1 :: j in inst.Oj && |inst.Oj[j]| == inst.f)
    && (forall j, i | j in inst.M1 && j in inst.Oj && i in inst.Oj[j] :: i in inst.N)
  }

  ghost predicate ScalarsOk(inst: InstanceData)
  {
    0.0 <= inst.w <= 1.0 && inst.q > 0 && inst.p >= 0 && inst.f > 0
  }

  /** An instance the validation accepts. */
  ghost predicate WellFormed(inst: InstanceData)
  {
    && PartitionsOk(inst)
    && ShiftDataOk(inst)
    && DemandOk(inst)
    && ParentsOk(inst)
    && WindowsOk(inst)
    && CapabilitiesOk(inst)
    && LinksOk(inst)
    && BreaksOk(inst)
    && ScalarsOk(inst)
  }

  /**
   * Every parent a dependent activity lists is itself an activity. The encoder and the audit
   * look up x[(parent, i, j, k)], so they need this; the validation does not check it.
   */
  ghost predicate ParentsKnown(inst: InstanceData)
  {
    forall a, parent | a in inst.C && a in inst.Ga && parent in inst.Ga[a] :: parent in inst.A
  }

  // The error list, in the order the checks run.

  function PartitionErrors(inst: InstanceData): seq<ValidationError>
  {
    (if !(Elems(inst.M1) !! Elems(inst.M2)) then [ShiftTypesOverlap] else [])
    + (if Elems(inst.M) != Elems(inst.M1) + Elems(inst.M2) then [ShiftTypesNotUnion] else [])
    + (if !(Elems(inst.B) !! Elems(inst.C)) then [ActivityClassesOverlap] else [])
    + (if Elems(inst.A) != Elems(inst.B) + Elems(inst.C) then [ActivityClassesNotUnion] else [])
    + (if !(Elems(inst.A1) !! Elems(inst.A2)) then [WindowClassesOverlap] else [])
    + (if Elems(inst.A) != Elems(inst.A1) + Elems(inst.A2) then [WindowClassesNotUnion] else [])
    + (if inst.N != Range(1, inst.n + 1) then [IntervalsNotOneToN] else [])
  }

  function CoverageErrors(inst: InstanceData, j: int, k: int): seq<ValidationError>
  {
    if (k, j) !in inst.b then [MissingCoverage(k, j)]
    else if inst.b[(k, j)] != 0 && inst.b[(k, j)] != 1 then [CoverageNotBinary(k, j)]
    else []
  }

  function ShiftKeyErrors(inst: InstanceData, j: int): seq<ValidationError>
  {
    (if j !in inst.shiftStart then [MissingShiftStart(j)] else [])
    + (if j !in inst.shiftLength then [MissingShiftLength(j)] else [])
    + (if j !in inst.shiftCostMultiplier then [MissingShiftCostMultiplier(j)] else [])
  }

  function ShiftErrors(inst: InstanceData, j: int): seq<ValidationError>
  {
    ShiftKeyErrors(inst, j) + FlatMap(inst.N, k => CoverageErrors(inst, j, k))
  }

  function DemandEntryErrors(inst: InstanceData, a: int, i: int): seq<ValidationError>
  {
    if (a, i) !in inst.d then [MissingDemand(a, i)] else []
  }

  function DemandErrors(inst: InstanceData, a: int): seq<ValidationError>
  {
    FlatMap(inst.N, i => DemandEntryErrors(inst, a, i))
  }

  function ShareErrors(inst: InstanceData, a: int, parent: int): seq<ValidationError>
  {
    if (a, parent) !in inst.s then [MissingShare(a, parent)] else []
  }

  function ParentErrors(inst: InstanceData, a: int): seq<ValidationError>
  {
    if a !in inst.Ga then [MissingParents(a)]
    else FlatMap(inst.Ga[a], parent => ShareErrors(inst, a, parent))
  }

  function DeadlineErrors(inst: InstanceData, a: int): seq<ValidationError>
  {
    if a !in inst.v then [MissingDeadline(a)] else []
  }

  function ReleaseErrors(inst: InstanceData, a: int): seq<ValidationError>
  {
    if a !in inst.r then [MissingRelease(a)] else []
  }

  function ProfileErrors(inst: InstanceData, a: int): seq<ValidationError>
  {
    if a !in inst.Ta || inst.Ta[a] == [] then [MissingProfiles(a)] else []
  }

  function ActivityErrors(inst: InstanceData, t: int): seq<ValidationError>
  {
    (if t !in inst.Ht || inst.Ht[t] == [] then [MissingActivities(t)] else [])
    + (if t !in inst.c then [MissingCost(t)] else [])
  }

  function ProfileLinkEntryErrors(inst: InstanceData, a: int, t: int): seq<ValidationError>
  {
    (if t !in inst.T then [UnknownProfile(a, t)] else [])
    + (if a !in Get(inst.Ht, t, []) then [ProfileLacksActivity(a, t)] else [])
  }

  function ProfileLinkErrors(inst: InstanceData, a: int): seq<ValidationError>
  {
    FlatMap(Get(inst.Ta, a, []), t => ProfileLinkEntryErrors(inst, a, t))
  }

  function ActivityLinkEntryErrors(inst: InstanceData, t: int, a: int): seq<ValidationError>
  {
    (if a !in inst.A then [UnknownActivity(t, a)] else [])
    + (if t !in Get(inst.Ta, a, []) then [ActivityLacksProfile(t, a)] else [])
  }

  function ActivityLinkErrors(inst: InstanceData, t: int): seq<ValidationError>
  {
    FlatMap(Get(inst.Ht, t, []), a => ActivityLinkEntryErrors(inst, t, a))
  }

  function BreakErrors(inst: InstanceData, j: int): seq<ValidationError>
  {
    if j !in inst.Oj then [MissingBreakWindow(j)]
    else
      (if |inst.Oj[j]| != inst.f then [BreakWindowLength(j)] else [])
      + FlatMap(inst.Oj[j], i => BreakSlotErrors(inst, j, i))
  }

  function BreakSlotErrors(inst: InstanceData, j: int, i: int): seq<ValidationError>
  {
    if i !in inst.N then [BreakOutsideHorizon(j, i)] else []
  }

  function ScalarErrors(inst: InstanceData): seq<ValidationError>
  {
    (if !(0.0 <= inst.w <= 1.0) then [PartTimeCapOutOfRange] else [])
    + (if inst.q <= 0 then [NonPositiveCapacity] else [])
    + (if inst.p < 0 then [NegativeBreakLength] else [])
    + (if inst.f <= 0 then [NonPositiveShiftLength] else [])
  }

  /** Every check's errors, concatenated in the order validate_instance runs them. */
  function ValidationErrors(inst: InstanceData): seq<ValidationError>
  {
    PartitionErrors(inst)
    + FlatMap(inst.M, j => ShiftErrors(inst, j))
    + FlatMap(inst.B, a => DemandErrors(inst, a))
    + FlatMap(inst.C, a => ParentErrors(inst, a))
    + FlatMap(inst.A1, a => DeadlineErrors(inst, a))
    + FlatMap(inst.A2, a => ReleaseErrors(inst, a))
    + FlatMap(inst.A, a => ProfileErrors(inst, a))
    + FlatMap(inst.T, t => ActivityErrors(inst, t))
    + FlatMap(inst.A, a => ProfileLinkErrors(inst, a))
    + FlatMap(inst.T, t => ActivityLinkErrors(inst, t))
    + FlatMap(inst.M1, j => BreakErrors(inst, j))
    + ScalarErrors(inst)
  }

  datatype Outcome = Accepted | Rejected(errors: seq<ValidationError>)

  /** validate_instance: collects every error, then rejects iff there is at least one. */
  method ValidateInstance(inst: InstanceData) returns (outcome: Outcome)
    ensures outcome.Accepted? <==> WellFormed(inst)
    ensures outcome.Rejected? ==> outcome.errors == ValidationErrors(inst) && outcome.errors != []
    ensures outcome.Rejected? ==> forall e :: e in outcome.errors <==> Violated(inst, e)
  {
    var shiftPart := ShiftChecks(inst);
    var demandPart := DemandChecks(inst);
    var parentPart := ParentChecks(inst);
    var deadlinePart, releasePart := WindowChecks(inst);
    var profilePart, activityPart := CapabilityChecks(inst);
    var profileLinkPart := ProfileLinks(inst);
    var activityLinkPart := ActivityLinks(inst);
    var breakPart := BreakChecks(inst);
    var errors := PartitionErrors(inst) + shiftPart + demandPart + parentPart + deadlinePart + releasePart
      + profilePart + activityPart + profileLinkPart + activityLinkPart + breakPart + ScalarErrors(inst);
    ValidationErrorsCharacterized(inst);
    AcceptedIffWellFormed(inst);
    if errors != [] {
      outcome := Rejected(errors);
    } else {
      outcome := Accepted;
    }
  }

  /** Per shift type: start, length, multiplier, then the coverage column. */
  method ShiftChecks(inst: InstanceData) returns (errs: seq<ValidationError>)
    ensures errs == FlatMap(inst.M, j => ShiftErrors(inst, j))
  {
    errs := [];
    for pj := 0 to |inst.M|
      invariant errs == FlatMap(inst.M[..pj], j => ShiftErrors(inst, j))
    {
      var j := inst.M[pj];
      var es: seq<ValidationError> := [];
      if j !in inst.shiftStart { es := es + [MissingShiftStart(j)]; }
      if j !in inst.shiftLength { es := es + [MissingShiftLength(j)]; }
      if j !in inst.shiftCostMultiplier { es := es + [MissingShiftCostMultiplier(j)]; }
      assert es == ShiftKeyErrors(inst, j);
      var coverage := CoverageChecks(inst, j);
      es := es + coverage;
      FlatMapStep(inst.M, pj, j => ShiftErrors(inst, j));
      errs := errs + es;
    }
    assert inst.M[..|inst.M|] == inst.M;
  }

  /** The coverage column of one shift type: present and 0/1 at every interval. */
  method CoverageChecks(inst: InstanceData, j: int) returns (es: seq<ValidationError>)
    ensures es == FlatMap(inst.N, k => CoverageErrors(inst, j, k))
  {
    es := [];
    for pk := 0 to |inst.N|
      invariant es == FlatMap(inst.N[..pk], k => CoverageErrors(inst, j, k))
    {
      var k := inst.N[pk];
      FlatMapStep(inst.N, pk, k => CoverageErrors(inst, j, k));
      if (k, j) !in inst.b {
        es := es + [MissingCoverage(k, j)];
      } else if inst.b[(k, j)] != 0 && inst.b[(k, j)] != 1 {
        es := es + [CoverageNotBinary(k, j)];
      }
    }
    assert inst.N[..|inst.N|] == inst.N;
  }

  method DemandChecks(inst: InstanceData) returns (errs: seq<ValidationError>)
    ensures errs == FlatMap(inst.B, a => DemandErrors(inst, a))
  {
    errs := [];
    for pa := 0 to |inst.B|
      invariant errs == FlatMap(inst.B[..pa], a => DemandErrors(inst, a))
    {
      var es := DemandRowChecks(inst, inst.B[pa]);
      FlatMapStep(inst.B, pa, a => DemandErrors(inst, a));
      errs := errs + es;
    }
    assert inst.B[..|inst.B|] == inst.B;
  }

  /** The demand row of one activity: d[(a, i)] at every interval. */
  method DemandRowChecks(inst: InstanceData, a: int) returns (es: seq<ValidationError>)
    ensures es == DemandErrors(inst, a)
  {
    es := [];
    for pi := 0 to |inst.N|
      invariant es == FlatMap(inst.N[..pi], i => DemandEntryErrors(inst, a, i))
    {
      var i := inst.N[pi];
      FlatMapStep(inst.N, pi, i => DemandEntryErrors(inst, a, i));
      if (a, i) !in inst.d { es := es + [MissingDemand(a, i)]; }
    }
    assert inst.N[..|inst.N|] == inst.N;
  }

  /** Per dependent activity: its parent list, then a share per parent. */
  method ParentChecks(inst: InstanceData) returns (errs: seq<ValidationError>)
    ensures errs == FlatMap(inst.C, a => ParentErrors(inst, a))
  {
    errs := [];
    for pa := 0 to |inst.C|
      invariant errs == FlatMap(inst.C[..pa], a => ParentErrors(inst, a))
    {
      var a := inst.C[pa];
      FlatMapStep(inst.C, pa, a => ParentErrors(inst, a));
      if a !in inst.Ga {
        errs := errs + [MissingParents(a)];
      } else {
        var es := ShareChecks(inst, a, inst.Ga[a]);
        errs := errs + es;
      }
    }
    assert inst.C[..|inst.C|] == inst.C;
  }

  method ShareChecks(inst: InstanceData, a: int, parents: seq<int>) returns (es: seq<ValidationError>)
    ensures es == FlatMap(parents, parent => ShareErrors(inst, a, parent))
  {
    es := [];
    for pp := 0 to |parents|
      invariant es == FlatMap(parents[..pp], parent => ShareErrors(inst, a, parent))
    {
      var parent := parents[pp];
      FlatMapStep(parents, pp, parent => ShareErrors(inst, a, parent));
      if (a, parent) !in inst.s { es := es + [MissingShare(a, parent)]; }
    }
    assert parents[..|parents|] == parents;
  }

  /** Deadlines for A1, then release times for A2. */
  method WindowChecks(inst: InstanceData) returns (deadlineErrs: seq<ValidationError>, releaseErrs: seq<ValidationError>)
    ensures deadlineErrs == FlatMap(inst.A1, a => DeadlineErrors(inst, a))
    ensures releaseErrs == FlatMap(inst.A2, a => ReleaseErrors(inst, a))
  {
    deadlineErrs := [];
    for pa := 0 to |inst.A1|
      invariant deadlineErrs == FlatMap(inst.A1[..pa], a => DeadlineErrors(inst, a))
    {
      var a := inst.A1[pa];
      FlatMapStep(inst.A1, pa, a => DeadlineErrors(inst, a));
      if a !in inst.v { deadlineErrs := deadlineErrs + [MissingDeadline(a)]; }
    }
    assert inst.A1[..|inst.A1|] == inst.A1;
    releaseErrs := [];
    for pa := 0 to |inst.A2|
      invariant releaseErrs == FlatMap(inst.A2[..pa], a => ReleaseErrors(inst, a))
    {
      var a := inst.A2[pa];
      FlatMapStep(inst.A2, pa, a => ReleaseErrors(inst, a));
      if a !in inst.r { releaseErrs := releaseErrs + [MissingRelease(a)]; }
    }
    assert inst.A2[..|inst.A2|] == inst.A2;
  }

  /** Profiles per activity, then activities and a cost per profile. */
  method CapabilityChecks(inst: InstanceData) returns (profileErrs: seq<ValidationError>, activityErrs: seq<ValidationError>)
    ensures profileErrs == FlatMap(inst.A, a => ProfileErrors(inst, a))
    ensures activityErrs == FlatMap(inst.T, t => ActivityErrors(inst, t))
  {
    profileErrs := [];
    for pa := 0 to |inst.A|
      invariant profileErrs == FlatMap(inst.A[..pa], a => ProfileErrors(inst, a))
    {
      var a := inst.A[pa];
      FlatMapStep(inst.A, pa, a => ProfileErrors(inst, a));
      if a !in inst.Ta || inst.Ta[a] == [] { profileErrs := profileErrs + [MissingProfiles(a)]; }
    }
    assert inst.A[..|inst.A|] == inst.A;
    activityErrs := [];
    for pt := 0 to |inst.T|
      invariant activityErrs == FlatMap(inst.T[..pt], t => ActivityErrors(inst, t))
    {
      var t := inst.T[pt];
      FlatMapStep(inst.T, pt, t => ActivityErrors(inst, t));
      var es: seq<ValidationError> := [];
      if t !in inst.Ht || inst.Ht[t] == [] { es := es + [MissingActivities(t)]; }
      if t !in inst.c { es := es + [MissingCost(t)]; }
      activityErrs := activityErrs + es;
    }
    assert inst.T[..|inst.T|] == inst.T;
  }

  /** The Ta-side consistency loop of validate_instance. */
  method ProfileLinks(inst: InstanceData) returns (errs: seq<ValidationError>)
    ensures errs == FlatMap(inst.A, a => ProfileLinkErrors(inst, a))
  {
    errs := [];
    for pa := 0 to |inst.A|
      invariant errs == FlatMap(inst.A[..pa], a => ProfileLinkErrors(inst, a))
    {
      var es := ProfileLinkRow(inst, inst.A[pa]);
      FlatMapStep(inst.A, pa, a => ProfileLinkErrors(inst, a));
      errs := errs + es;
    }
    assert inst.A[..|inst.A|] == inst.A;
  }

  /** Every profile listed for activity a exists and lists a back. */
  method ProfileLinkRow(inst: InstanceData, a: int) returns (es: seq<ValidationError>)
    ensures es == ProfileLinkErrors(inst, a)
  {
    var profiles := Get(inst.Ta, a, []);
    es := [];
    for pt := 0 to |profiles|
      invariant es == FlatMap(profiles[..pt], t => ProfileLinkEntryErrors(inst, a, t))
    {
      var t := profiles[pt];
      FlatMapStep(profiles, pt, t => ProfileLinkEntryErrors(inst, a, t));
      var step: seq<ValidationError> := [];
      if t !in inst.T { step := step + [UnknownProfile(a, t)]; }
      if a !in Get(inst.Ht, t, []) { step := step + [ProfileLacksActivity(a, t)]; }
      es := es + step;
    }
    assert profiles[..|profiles|] == profiles;
  }

  /** The Ht-side consistency loop of validate_instance. */
  method ActivityLinks(inst: InstanceData) returns (errs: seq<ValidationError>)
    ensures errs == FlatMap(inst.T, t => ActivityLinkErrors(inst, t))
  {
    errs := [];
    for pt := 0 to |inst.T|
      invariant errs == FlatMap(inst.T[..pt], t => ActivityLinkErrors(inst, t))
    {
      var es := ActivityLinkRow(inst, inst.T[pt]);
      FlatMapStep(inst.T, pt, t => ActivityLinkErrors(inst, t));
      errs := errs + es;
    }
    assert inst.T[..|inst.T|] == inst.T;
  }

  /** Every activity listed for profile t exists and lists t back. */
  method ActivityLinkRow(inst: InstanceData, t: int) returns (es: seq<ValidationError>)
    ensures es == ActivityLinkErrors(inst, t)
  {
    var acts := Get(inst.Ht, t, []);
    es := [];
    for pa := 0 to |acts|
      invariant es == FlatMap(acts[..pa], a => ActivityLinkEntryErrors(inst, t, a))
    {
      var a := acts[pa];
      FlatMapStep(acts, pa, a => ActivityLinkEntryErrors(inst, t, a));
      var step: seq<ValidationError> := [];
      if a !in inst.A { step := step + [UnknownActivity(t, a)]; }
      if t !in Get(inst.Ta, a, []) { step := step + [ActivityLacksProfile(t, a)]; }
      es := es + step;
    }
    assert acts[..|acts|] == acts;
  }

  method BreakChecks(inst: InstanceData) returns (errs: seq<ValidationError>)
    ensures errs == FlatMap(inst.M1, j => BreakErrors(inst, j))
  {
    errs := [];
    for pj := 0 to |inst.M1|
      invariant errs == FlatMap(inst.M1[..pj], j => BreakErrors(inst, j))
    {
      var es := BreakShiftChecks(inst, inst.M1[pj]);
      FlatMapStep(inst.M1, pj, j => BreakErrors(inst, j));
      errs := errs + es;
    }
    assert inst.M1[..|inst.M1|] == inst.M1;
  }

  /** The break window of one full-time shift: present, f long, inside the horizon. */
  method BreakShiftChecks(inst: InstanceData, j: int) returns (es: seq<ValidationError>)
    ensures es == BreakErrors(inst, j)
  {
    if j !in inst.Oj {
      es := [MissingBreakWindow(j)];
    } else {
      es := [];
      if |inst.Oj[j]| != inst.f { es := es + [BreakWindowLength(j)]; }
      var slots := BreakSlotChecks(inst, j, inst.Oj[j]);
      es := es + slots;
    }
  }

  /** The break slots of one full-time shift all lie within the horizon. */
  method BreakSlotChecks(inst: InstanceData, j: int, window: seq<int>) returns (es: seq<ValidationError>)
    ensures es == FlatMap(window, i => BreakSlotErrors(inst, j, i))
  {
    es := [];
    for pi := 0 to |window|
      invariant es == FlatMap(window[..pi], i => BreakSlotErrors(inst, j, i))
    {
      var i := window[pi];
      FlatMapStep(window, pi, i => BreakSlotErrors(inst, j, i));
      if i !in inst.N { es := es + [BreakOutsideHorizon(j, i)]; }
    }
    assert window[..|window|] == window;
  }

  // ---------------------------------------------------------------------
  // What the error list means
  // ---------------------------------------------------------------------

  lemma PartitionPart(inst: InstanceData, e: ValidationError)
    ensures e in PartitionErrors(inst) <==> PartitionViolated(inst, e)
  {
  }

  lemma ScalarPart(inst: InstanceData, e: ValidationError)
    ensures e in ScalarErrors(inst) <==> ScalarViolated(inst, e)
  {
  }

  lemma CoverageMember(inst: InstanceData, j: int, e: ValidationError)
    requires j in inst.M
    ensures e in FlatMap(inst.N, k => CoverageErrors(inst, j, k)) <==>
      (e.MissingCoverage? || e.CoverageNotBinary?) && e.j == j && ShiftViolated(inst, e)
  {
    FlatMapMember(inst.N, k => CoverageErrors(inst, j, k), e);
    if (e.MissingCoverage? || e.CoverageNotBinary?) && e.j == j && ShiftViolated(inst, e) {
      assert e in CoverageErrors(inst, j, e.k);
    }
  }

  lemma ShiftErrorsMember(inst: InstanceData, j: int, e: ValidationError)
    requires j in inst.M
    ensures e in ShiftErrors(inst, j) <==> ShiftViolated(inst, e) && e.j == j
  {
    CoverageMember(inst, j, e);
    assert e in ShiftKeyErrors(inst, j) <==>
      (e.MissingShiftStart? || e.MissingShiftLength? || e.MissingShiftCostMultiplier?) && e.j == j && ShiftViolated(inst, e);
  }

  lemma ShiftPart(inst: InstanceData, e: ValidationError)
    ensures e in FlatMap(inst.M, j => ShiftErrors(inst, j)) <==> ShiftViolated(inst, e)
  {
    FlatMapMember(inst.M, j => ShiftErrors(inst, j), e);
    forall j | j in inst.M
      ensures e in ShiftErrors(inst, j) <==> ShiftViolated(inst, e) && e.j == j
    {
      ShiftErrorsMember(inst, j, e);
    }
    if ShiftViolated(inst, e) {
      ShiftErrorsMember(inst, e.j, e);
    }
  }

  lemma DemandErrorsMember(inst: InstanceData, a: int, e: ValidationError)
    requires a in inst.B
    ensures e in DemandErrors(inst, a) <==> DemandViolated(inst, e) && e.a == a
  {
    FlatMapMember(inst.N, i => DemandEntryErrors(inst, a, i), e);
    if DemandViolated(inst, e) && e.a == a {
      assert e in DemandEntryErrors(inst, a, e.i);
    }
  }

  lemma DemandPart(inst: InstanceData, e: ValidationError)
    ensures e in FlatMap(inst.B, a => DemandErrors(inst, a)) <==> DemandViolated(inst, e)
  {
    FlatMapMember(inst.B, a => DemandErrors(inst, a), e);
    forall a | a in inst.B
      ensures e in DemandErrors(inst, a) <==> DemandViolated(inst, e) && e.a == a
    {
      DemandErrorsMember(inst, a, e);
    }
    if DemandViolated(inst, e) {
      DemandErrorsMember(inst, e.a, e);
    }
  }

  lemma ParentErrorsMember(inst: InstanceData, a: int, e: ValidationError)
    requires a in inst.C
    ensures e in ParentErrors(inst, a) <==> ParentViolated(inst, e) && e.a == a
  {
    if a in inst.Ga {
      FlatMapMember(inst.Ga[a], parent => ShareErrors(inst, a, parent), e);
      if ParentViolated(inst, e) && e.a == a && e.MissingShare? {
        assert e in ShareErrors(inst, a, e.parent);
      }
    }
  }

  lemma ParentPart(inst: InstanceData, e: ValidationError)
    ensures e in FlatMap(inst.C, a => ParentErrors(inst, a)) <==> ParentViolated(inst, e)
  {
    FlatMapMember(inst.C, a => ParentErrors(inst, a), e);
    forall a | a in inst.C
      ensures e in ParentErrors(inst, a) <==> ParentViolated(inst, e) && e.a == a
    {
      ParentErrorsMember(inst, a, e);
    }
    if ParentViolated(inst, e) {
      ParentErrorsMember(inst, e.a, e);
    }
  }

  lemma DeadlinePart(inst: InstanceData, e: ValidationError)
    ensures e in FlatMap(inst.A1, a => DeadlineErrors(inst, a)) <==> DeadlineViolated(inst, e)
  {
    FlatMapMember(inst.A1, a => DeadlineErrors(inst, a), e);
    if DeadlineViolated(inst, e) {
      assert e in DeadlineErrors(inst, e.a);
    }
  }

  lemma ReleasePart(inst: InstanceData, e: ValidationError)
    ensures e in FlatMap(inst.A2, a => ReleaseErrors(inst, a)) <==> ReleaseViolated(inst, e)
  {
    FlatMapMember(inst.A2, a => ReleaseErrors(inst, a), e);
    if ReleaseViolated(inst, e) {
      assert e in ReleaseErrors(inst, e.a);
    }
  }

  lemma ProfilePart(inst: InstanceData, e: ValidationError)
    ensures e in FlatMap(inst.A, a => ProfileErrors(inst, a)) <==> ProfileViolated(inst, e)
  {
    FlatMapMember(inst.A, a => ProfileErrors(inst, a), e);
    if ProfileViolated(inst, e) {
      assert e in ProfileErrors(inst, e.a);
    }
  }

  lemma ActivityPart(inst: InstanceData, e: ValidationError)
    ensures e in FlatMap(inst.T, t => ActivityErrors(inst, t)) <==> ActivityViolated(inst, e)
  {
    FlatMapMember(inst.T, t => ActivityErrors(inst, t), e);
    if ActivityViolated(inst, e) {
      assert e in ActivityErrors(inst, e.t);
    }
  }

  lemma ProfileLinkEntryMember(inst: InstanceData, a: int, t: int, e: ValidationError)
    ensures e in ProfileLinkEntryErrors(inst, a, t) <==>
      (e == UnknownProfile(a, t) && t !in inst.T) || (e == ProfileLacksActivity(a, t) && a !in Get(inst.Ht, t, []))
  {
  }

  lemma ActivityLinkEntryMember(inst: InstanceData, t: int, a: int, e: ValidationError)
    ensures e in ActivityLinkEntryErrors(inst, t, a) <==>
      (e == UnknownActivity(t, a) && a !in inst.A) || (e == ActivityLacksProfile(t, a) && t !in Get(inst.Ta, a, []))
  {
  }

  lemma ProfileLinkErrorsMember(inst: InstanceData, a: int, e: ValidationError)
    requires a in inst.A
    ensures e in ProfileLinkErrors(inst, a) <==> ProfileLinkViolated(inst, e) && e.a == a
  {
    FlatMapMember(Get(inst.Ta, a, []), t => ProfileLinkEntryErrors(inst, a, t), e);
    forall t ensures e in ProfileLinkEntryErrors(inst, a, t) <==>
      (e == UnknownProfile(a, t) && t !in inst.T) || (e == ProfileLacksActivity(a, t) && a !in Get(inst.Ht, t, []))
    {
      ProfileLinkEntryMember(inst, a, t, e);
    }
    if ProfileLinkViolated(inst, e) && e.a == a {
      assert e in ProfileLinkEntryErrors(inst, a, e.t);
    }
  }

  lemma ProfileLinkPart(inst: InstanceData, e: ValidationError)
    ensures e in FlatMap(inst.A, a => ProfileLinkErrors(inst, a)) <==> ProfileLinkViolated(inst, e)
  {
    FlatMapMember(inst.A, a => ProfileLinkErrors(inst, a), e);
    forall a | a in inst.A
      ensures e in ProfileLinkErrors(inst, a) <==> ProfileLinkViolated(inst, e) && e.a == a
    {
      ProfileLinkErrorsMember(inst, a, e);
    }
    if ProfileLinkViolated(inst, e) {
      ProfileLinkErrorsMember(inst, e.a, e);
    }
  }

  lemma ActivityLinkErrorsMember(inst: InstanceData, t: int, e: ValidationError)
    requires t in inst.T
    ensures e in ActivityLinkErrors(inst, t) <==> ActivityLinkViolated(inst, e) && e.t == t
  {
    FlatMapMember(Get(inst.Ht, t, []), a => ActivityLinkEntryErrors(inst, t, a), e);
    forall a ensures e in ActivityLinkEntryErrors(inst, t, a) <==>
      (e == UnknownActivity(t, a) && a !in inst.A) || (e == ActivityLacksProfile(t, a) && t !in Get(inst.Ta, a, []))
    {
      ActivityLinkEntryMember(inst, t, a, e);
    }
    if ActivityLinkViolated(inst, e) && e.t == t {
      assert e in ActivityLinkEntryErrors(inst, t, e.a);
    }
  }

  lemma ActivityLinkPart(inst: InstanceData, e: ValidationError)
    ensures e in FlatMap(inst.T, t => ActivityLinkErrors(inst, t)) <==> ActivityLinkViolated(inst, e)
  {
    FlatMapMember(inst.T, t => ActivityLinkErrors(inst, t), e);
    forall t | t in inst.T
      ensures e in ActivityLinkErrors(inst, t) <==> ActivityLinkViolated(inst, e) && e.t == t
    {
      ActivityLinkErrorsMember(inst, t, e);
    }
    if ActivityLinkViolated(inst, e) {
      ActivityLinkErrorsMember(inst, e.t, e);
    }
  }

  lemma BreakErrorsMember(inst: InstanceData, j: int, e: ValidationError)
    requires j in inst.M1
    ensures e in BreakErrors(inst, j) <==> BreakViolated(inst, e) && e.j == j
  {
    if j in inst.Oj {
      FlatMapMember(inst.Oj[j], i => BreakSlotErrors(inst, j, i), e);
      if BreakViolated(inst, e) && e.j == j && e.BreakOutsideHorizon? {
        assert e in BreakSlotErrors(inst, j, e.i);
      }
    }
  }

  lemma BreakPart(inst: InstanceData, e: ValidationError)
    ensures e in FlatMap(inst.M1, j => BreakErrors(inst, j)) <==> BreakViolated(inst, e)
  {
    FlatMapMember(inst.M1, j => BreakErrors(inst, j), e);
    forall j | j in inst.M1
      ensures e in BreakErrors(inst, j) <==> BreakViolated(inst, e) && e.j == j
    {
      BreakErrorsMember(inst, j, e);
    }
    if BreakViolated(inst, e) {
      BreakErrorsMember(inst, e.j, e);
    }
  }

  /** The list holds exactly the violated checks: every failing check is reported, nothing else is. */
  lemma ValidationErrorsCharacterized(inst: InstanceData)
    ensures forall e :: e in ValidationErrors(inst) <==> Violated(inst, e)
  {
    forall e ensures e in ValidationErrors(inst) <==> Violated(inst, e) {
      PartitionPart(inst, e);
      ScalarPart(inst, e);
      ShiftPart(inst, e);
      DemandPart(inst, e);
      ParentPart(inst, e);
      DeadlinePart(inst, e);
      ReleasePart(inst, e);
      ProfilePart(inst, e);
      ActivityPart(inst, e);
      ProfileLinkPart(inst, e);
      ActivityLinkPart(inst, e);
      BreakPart(inst, e);
    }
  }

  /** A well-formed instance violates no check. */
  lemma NoViolation(inst: InstanceData, e: ValidationError)
    requires WellFormed(inst)
    ensures !Violated(inst, e)
  {
    NoPartitionViolation(inst, e);
    NoShiftViolation(inst, e);
    NoDemandViolation(inst, e);
    NoParentViolation(inst, e);
    NoWindowViolation(inst, e);
    NoCapabilityViolation(inst, e);
    NoLinkViolation(inst, e);
    NoBreakViolation(inst, e);
    NoScalarViolation(inst, e);
  }

  lemma NoPartitionViolation(inst: InstanceData, e: ValidationError)
    requires PartitionsOk(inst)
    ensures !PartitionViolated(inst, e)
  {
  }

  lemma NoShiftViolation(inst: InstanceData, e: ValidationError)
    requires ShiftDataOk(inst)
    ensures !ShiftViolated(inst, e)
  {
  }

  lemma NoDemandViolation(inst: InstanceData, e: ValidationError)
    requires DemandOk(inst)
    ensures !DemandViolated(inst, e)
  {
  }

  lemma NoParentViolation(inst: InstanceData, e: ValidationError)
    requires ParentsOk(inst)
    ensures !ParentViolated(inst, e)
  {
  }

  lemma NoWindowViolation(inst: InstanceData, e: ValidationError)
    requires WindowsOk(inst)
    ensures !DeadlineViolated(inst, e) && !ReleaseViolated(inst, e)
  {
  }

  lemma NoCapabilityViolation(inst: InstanceData, e: ValidationError)
    requires CapabilitiesOk(inst)
    ensures !ProfileViolated(inst, e) && !ActivityViolated(inst, e)
  {
  }

  lemma NoLinkViolation(inst: InstanceData, e: ValidationError)
    requires LinksOk(inst)
    ensures !ProfileLinkViolated(inst, e) && !ActivityLinkViolated(inst, e)
  {
  }

  lemma NoBreakViolation(inst: InstanceData, e: ValidationError)
    requires BreaksOk(inst)
    ensures !BreakViolated(inst, e)
  {
  }

  lemma NoScalarViolation(inst: InstanceData, e: ValidationError)
    requires ScalarsOk(inst)
    ensures !ScalarViolated(inst, e)
  {
  }

  /** An instance is well formed exactly when no check is violated. */
  lemma WellFormedIffNoViolation(inst: InstanceData)
    ensures WellFormed(inst) <==> forall e :: !Violated(inst, e)
  {
    if WellFormed(inst) {
      forall e ensures !Violated(inst, e) {
        NoViolation(inst, e);
      }
    } else {
      var e := SomeViolation(inst);
    }
  }

  /** Validation rejects exactly the instances that are not well formed. */
  lemma AcceptedIffWellFormed(inst: InstanceData)
    ensures ValidationErrors(inst) == [] <==> WellFormed(inst)
  {
    ValidationErrorsCharacterized(inst);
    WellFormedIffNoViolation(inst);
    if ValidationErrors(inst) != [] {
      assert ValidationErrors(inst)[0] in ValidationErrors(inst);
    }
  }

  /** A check that an ill-formed instance fails. */
  lemma SomeViolation(inst: InstanceData) returns (e: ValidationError)
    requires !WellFormed(inst)
    ensures Violated(inst, e)
  {
    if !PartitionsOk(inst) {
      e := PartitionViolation(inst);
    } else if !ShiftDataOk(inst) {
      e := ShiftDataViolation(inst);
    } else if !DemandOk(inst) {
      e := DemandViolation(inst);
    } else if !ParentsOk(inst) {
      e := ParentViolation(inst);
    } else if !WindowsOk(inst) {
      e := WindowViolation(inst);
    } else if !CapabilitiesOk(inst) {
      e := CapabilityViolation(inst);
    } else if !LinksOk(inst) {
      e := LinkViolation(inst);
    } else if !BreaksOk(inst) {
      e := BreakViolation(inst);
    } else {
      e := ScalarViolation(inst);
    }
  }

  lemma PartitionViolation(inst: InstanceData) returns (e: ValidationError)
    requires !PartitionsOk(inst)
    ensures PartitionViolated(inst, e)
  {
    if !(Elems(inst.M1) !! Elems(inst.M2)) { return ShiftTypesOverlap; }
    if Elems(inst.M) != Elems(inst.M1) + Elems(inst.M2) { return ShiftTypesNotUnion; }
    if !(Elems(inst.B) !! Elems(inst.C)) { return ActivityClassesOverlap; }
    if Elems(inst.A) != Elems(inst.B) + Elems(inst.C) { return ActivityClassesNotUnion; }
    if !(Elems(inst.A1) !! Elems(inst.A2)) { return WindowClassesOverlap; }
    if Elems(inst.A) != Elems(inst.A1) + Elems(inst.A2) { return WindowClassesNotUnion; }
    return IntervalsNotOneToN;
  }

  lemma ShiftDataViolation(inst: InstanceData) returns (e: ValidationError)
    requires !ShiftDataOk(inst)
    ensures ShiftViolated(inst, e)
  {
    if !(forall j | j in inst.M ::
          j in inst.shiftStart && j in inst.shiftLength && j in inst.shiftCostMultiplier) {
      var j :| j in inst.M && !(j in inst.shiftStart && j in inst.shiftLength && j in inst.shiftCostMultiplier);
      if j !in inst.shiftStart { return MissingShiftStart(j); }
      if j !in inst.shiftLength { return MissingShiftLength(j); }
      return MissingShiftCostMultiplier(j);
    }
    var k, j :| j in inst.M && k in inst.N && !((k, j) in inst.b && (inst.b[(k, j)] == 0 || inst.b[(k, j)] == 1));
    if (k, j) !in inst.b { return MissingCoverage(k, j); }
    return CoverageNotBinary(k, j);
  }

  lemma DemandViolation(inst: InstanceData) returns (e: ValidationError)
    requires !DemandOk(inst)
    ensures DemandViolated(inst, e)
  {
    var a, i :| a in inst.B && i in inst.N && (a, i) !in inst.d;
    return MissingDemand(a, i);
  }

  lemma ParentViolation(inst: InstanceData) returns (e: ValidationError)
    requires !ParentsOk(inst)
    ensures ParentViolated(inst, e)
  {
    if !(forall a | a in inst.C :: a in inst.Ga) {
      var a :| a in inst.C && a !in inst.Ga;
      return MissingParents(a);
    }
    var a, parent :| a in inst.C && a in inst.Ga && parent in inst.Ga[a] && (a, parent) !in inst.s;
    return MissingShare(a, parent);
  }

  lemma WindowViolation(inst: InstanceData) returns (e: ValidationError)
    requires !WindowsOk(inst)
    ensures DeadlineViolated(inst, e) || ReleaseViolated(inst, e)
  {
    if !(forall a | a in inst.A1 :: a in inst.v) {
      var a :| a in inst.A1 && a !in inst.v;
      return MissingDeadline(a);
    }
    var a :| a in inst.A2 && a !in inst.r;
    return MissingRelease(a);
  }

  lemma CapabilityViolation(inst: InstanceData) returns (e: ValidationError)
    requires !CapabilitiesOk(inst)
    ensures ProfileViolated(inst, e) || ActivityViolated(inst, e)
  {
    if !(forall a | a in inst.A :: a in inst.Ta && inst.Ta[a] != []) {
      var a :| a in inst.A && !(a in inst.Ta && inst.Ta[a] != []);
      return MissingProfiles(a);
    }
    var t :| t in inst.T && !(t in inst.Ht && inst.Ht[t] != [] && t in inst.c);
    if t !in inst.Ht || inst.Ht[t] == [] { return MissingActivities(t); }
    return MissingCost(t);
  }

  lemma LinkViolation(inst: InstanceData) returns (e: ValidationError)
    requires !LinksOk(inst)
    ensures ProfileLinkViolated(inst, e) || ActivityLinkViolated(inst, e)
  {
    if !(forall a, t | a in inst.A && t in Get(inst.Ta, a, []) :: t in inst.T && a in Get(inst.Ht, t, [])) {
      e := ProfileLinkViolation(inst);
    } else {
      e := ActivityLinkViolation(inst);
    }
  }

  lemma ProfileLinkViolation(inst: InstanceData) returns (e: ValidationError)
    requires !(forall a, t | a in inst.A && t in Get(inst.Ta, a, []) :: t in inst.T && a in Get(inst.Ht, t, []))
    ensures ProfileLinkViolated(inst, e)
  {
    var a, t :| a in inst.A && t in Get(inst.Ta, a, []) && !(t in inst.T && a in Get(inst.Ht, t, []));
    if t !in inst.T { return UnknownProfile(a, t); }
    return ProfileLacksActivity(a, t);
  }

  lemma ActivityLinkViolation(inst: InstanceData) returns (e: ValidationError)
    requires !(forall t, a | t in inst.T && a in Get(inst.Ht, t, []) :: a in inst.A && t in Get(inst.Ta, a, []))
    ensures ActivityLinkViolated(inst, e)
  {
    var t, a :| t in inst.T && a in Get(inst.Ht, t, []) && !(a in inst.A && t in Get(inst.Ta, a, []));
    if a !in inst.A { return UnknownActivity(t, a); }
    return ActivityLacksProfile(t, a);
  }

  lemma BreakViolation(inst: InstanceData) returns (e: ValidationError)
    requires !BreaksOk(inst)
    ensures BreakViolated(inst, e)
  {
    if !(forall j | j in inst.M1 :: j in inst.Oj && |inst.Oj[j]| == inst.f) {
      var j :| j in inst.M1 && !(j in inst.Oj && |inst.Oj[j]| == inst.f);
      if j !in inst.Oj { return MissingBreakWindow(j); }
      return BreakWindowLength(j);
    }
    var j, i :| j in inst.M1 && j in inst.Oj && i in inst.Oj[j] && i !in inst.N;
    return BreakOutsideHorizon(j, i);
  }

  lemma ScalarViolation(inst: InstanceData) returns (e: ValidationError)
    requires !ScalarsOk(inst)
    ensures ScalarViolated(inst, e)
  {
    if !(0.0 <= inst.w <= 1.0) { return PartTimeCapOutOfRange; }
    if inst.q <= 0 { return NonPositiveCapacity; }
    if inst.p < 0 { return NegativeBreakLength; }
    return NonPositiveShiftLength;
  }
}
