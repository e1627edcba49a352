// The post-solve audit (src/audit.py): its own copies of the window helpers,
// the three checks, the sums each family recomputes from the solved maps, the
// issues of every family in loop order, and run_audits itself.
module Audit {
  import opened Seqs
  import opened Instance
  import opened Csr
  import opened Catalog
  import opened Rows

  // ---------------------------------------------------------------------
  // Records
  // ---------------------------------------------------------------------

  /** The label "Eq(n)" of an issue. */
  datatype Equation = Eq(number: int)

  /** The detail string of an issue, one shape per family; the f-string spelling is abstracted. */
  datatype Detail =
    | AtIntervalActivity(i: int, a: int)     // Eqs. (2)/(3)
    | AtOriginActivity(k: int, a: int)       // Eqs. (4)/(5)
    | AtStaffing(k: int, j: int, a: int)     // Eq. (6)
    | AtShiftLink(i: int, j: int, t: int)    // Eq. (7)
    | AtInterval(i: int)                     // Eq. (8)
    | AtBreak(t: int, j: int)                // Eq. (9)
    | PartTimeShare                          // Eq. (10)
    | AtX(xKey: XKey)                        // Eq. (11)
    | AtYAssign(yaKey: YAKey)
    | AtYShift(ysKey: YSKey)

  datatype AuditIssue = AuditIssue(equation: Equation, detail: Detail, violation: real)

  datatype AuditReport = AuditReport(passed: bool, tolerance: real, issues: seq<AuditIssue>)

  /** The default tolerance of run_audits. */
  const DefaultTol: real := 0.0001

  /**
   * The solved values (src/solution_types.py). Each map comes with the order its
   * items are iterated in; the optional solver statistics are not read by the audit.
   */
  datatype SolvedValues = SolvedValues(
    mode: string,
    objective: real,
    x: map<XKey, real>,
    ya: map<YAKey, real>,
    ys: map<YSKey, real>,
    xKeys: seq<XKey>,
    yaKeys: seq<YAKey>,
    ysKeys: seq<YSKey>,
    status: string)

  /** Each key order lists the keys of its map once each. */
  ghost predicate KeyOrders(sv: SolvedValues)
  {
    && Distinct(sv.xKeys) && Elems(sv.xKeys) == sv.x.Keys
    && Distinct(sv.yaKeys) && Elems(sv.yaKeys) == sv.ya.Keys
    && Distinct(sv.ysKeys) && Elems(sv.ysKeys) == sv.ys.Keys
  }

  /** Every key the audit looks up is in the solved maps. */
  ghost predicate SolvedCovers(inst: InstanceData, sv: SolvedValues)
  {
    && (forall a, i, j, k | a in inst.A && i in inst.N && j in inst.M && k in inst.N :: (a, i, j, k) in sv.x)
    && (forall t, i, j, a | t in inst.T && i in inst.N && j in inst.M && a in inst.A :: (t, i, j, a) in sv.ya)
    && (forall t, j | t in inst.T && j in inst.M :: (t, j) in sv.ys)
  }

  // ---------------------------------------------------------------------
  // The audit's window helpers
  // ---------------------------------------------------------------------

  /** The audit's `_until_a1`: the encoder's deadline window. */
  function AuditUntilA1(inst: InstanceData, iOrK: int, a: int, ws: bool): (u: int)
    requires ws || a in inst.v
    ensures u == UntilA1(inst, iOrK, a, ws)
  {
    var va := if ws then 0 else inst.v[a];
    if iOrK + va <= inst.n then iOrK + va else inst.n
  }

  /** The audit's `_until_a2`: the encoder's release window. */
  function AuditUntilA2(inst: InstanceData, iOrK: int, a: int, ws: bool): (u: int)
    requires ws || a in inst.r
    ensures u == UntilA2(inst, iOrK, a, ws)
  {
    if ws then iOrK
    else
      var ra := inst.r[a];
      if ra <= 0 then iOrK
      else
        var capped := if ra <= inst.n then ra else inst.n;
        if iOrK >= capped then iOrK else capped
  }

  function AuditUntil(inst: InstanceData, win: Window, i: int, a: int, ws: bool): (u: int)
    requires HasWindow(inst, win, ws, a)
    ensures u == Until(inst, win, i, a, ws)
  {
    if win.Deadline? then AuditUntilA1(inst, i, a, ws) else AuditUntilA2(inst, i, a, ws)
  }

  // ---------------------------------------------------------------------
  // The three checks
  // ---------------------------------------------------------------------

  /** check_eq: an issue exactly when |lhs - rhs| exceeds tol, with that gap as its violation. */
  function EqIssue(eq: Equation, lhs: real, rhs: real, detail: Detail, tol: real): (issues: seq<AuditIssue>)
    ensures issues == [] <==> Abs(lhs - rhs) <= tol
    ensures issues != [] ==> issues == [AuditIssue(eq, detail, Abs(lhs - rhs))] && Abs(lhs - rhs) > tol
  {
    var gap := Abs(lhs - rhs);
    if gap > tol then [AuditIssue(eq, detail, gap)] else []
  }

  /** check_le: an issue exactly when lhs exceeds rhs by more than tol. */
  function LeIssue(eq: Equation, lhs: real, rhs: real, detail: Detail, tol: real): (issues: seq<AuditIssue>)
    ensures issues == [] <==> lhs - rhs <= tol
    ensures issues != [] ==> issues == [AuditIssue(eq, detail, lhs - rhs)] && lhs - rhs > tol
  {
    var gap := lhs - rhs;
    if gap > tol then [AuditIssue(eq, detail, gap)] else []
  }

  /** check_ge: an issue exactly when lhs falls short of rhs by more than tol. */
  function GeIssue(eq: Equation, lhs: real, rhs: real, detail: Detail, tol: real): (issues: seq<AuditIssue>)
    ensures issues == [] <==> rhs - lhs <= tol
    ensures issues != [] ==> issues == [AuditIssue(eq, detail, rhs - lhs)] && rhs - lhs > tol
  {
    var gap := rhs - lhs;
    if gap > tol then [AuditIssue(eq, detail, gap)] else []
  }

  /** The shared issue list the checks append to. */
  class IssueLog {
    var issues: seq<AuditIssue>
    const tol: real

    constructor (tol: real)
      ensures issues == [] && this.tol == tol
    {
      this.tol := tol;
      issues := [];
    }

    method CheckEq(eq: Equation, lhs: real, rhs: real, detail: Detail)
      modifies this
      ensures issues == old(issues) + EqIssue(eq, lhs, rhs, detail, tol)
    {
      var gap := Abs(lhs - rhs);
      if gap > tol {
        issues := issues + [AuditIssue(eq, detail, gap)];
      }
    }

    method CheckLe(eq: Equation, lhs: real, rhs: real, detail: Detail)
      modifies this
      ensures issues == old(issues) + LeIssue(eq, lhs, rhs, detail, tol)
    {
      var gap := lhs - rhs;
      if gap > tol {
        issues := issues + [AuditIssue(eq, detail, gap)];
      }
    }

    method CheckGe(eq: Equation, lhs: real, rhs: real, detail: Detail)
      modifies this
      ensures issues == old(issues) + GeIssue(eq, lhs, rhs, detail, tol)
    {
      var gap := rhs - lhs;
      if gap > tol {
        issues := issues + [AuditIssue(eq, detail, gap)];
      }
    }
  }

  // ---------------------------------------------------------------------
  // The sums the families recompute (the generator expressions)
  // ---------------------------------------------------------------------

  function XVal(sv: SolvedValues, a: int, i: int, j: int, k: int): real
  {
    Get(sv.x, (a, i, j, k), 0.0)
  }

  function YAVal(sv: SolvedValues, t: int, i: int, j: int, a: int): real
  {
    Get(sv.ya, (t, i, j, a), 0.0)
  }

  function YSVal(sv: SolvedValues, t: int, j: int): real
  {
    Get(sv.ys, (t, j), 0.0)
  }

  /** x[(a, i, j, k)] · b[(k, j)]: the demand of i that a worker of shift j serves in interval k. */
  function ServedAt(inst: InstanceData, sv: SolvedValues, a: int, i: int, j: int, k: int): real
  {
    XVal(sv, a, i, j, k) * (Get(inst.b, (k, j), 0) as real)
  }

  /** Σ_{k in ks} x[(a, i, j, k)] · b[(k, j)]. */
  function ServedK(inst: InstanceData, sv: SolvedValues, a: int, i: int, j: int, ks: seq<int>): real
  {
    if ks == [] then 0.0
    else ServedK(inst, sv, a, i, j, ks[..|ks| - 1]) + ServedAt(inst, sv, a, i, j, ks[|ks| - 1])
  }

  /** The left-hand side of Eqs. (2)-(5): Σ_{j in js} Σ_{k in range(i, until + 1)} x[(a, i, j, k)] · b[(k, j)]. */
  function ServedJ(inst: InstanceData, sv: SolvedValues, a: int, i: int, until: int, js: seq<int>): real
  {
    if js == [] then 0.0
    else ServedJ(inst, sv, a, i, until, js[..|js| - 1]) + ServedK(inst, sv, a, i, js[|js| - 1], Range(i, until + 1))
  }

  /** Σ_{i in ivs} x[(parent, i, j, k)]. */
  function ParentMassI(sv: SolvedValues, parent: int, j: int, k: int, ivs: seq<int>): real
  {
    if ivs == [] then 0.0
    else ParentMassI(sv, parent, j, k, ivs[..|ivs| - 1]) + XVal(sv, parent, ivs[|ivs| - 1], j, k)
  }

  /** Σ_{j in js} Σ_{i in N} x[(parent, i, j, k)]. */
  function ParentMassJ(inst: InstanceData, sv: SolvedValues, parent: int, k: int, js: seq<int>): real
  {
    if js == [] then 0.0
    else ParentMassJ(inst, sv, parent, k, js[..|js| - 1]) + ParentMassI(sv, parent, js[|js| - 1], k, inst.N)
  }

  /** s[(a, parent)] · Σ_{j in M} Σ_{i in N} x[(parent, i, j, k)]: what one parent activity asks of a. */
  function ShareOf(inst: InstanceData, sv: SolvedValues, a: int, parent: int, k: int): real
  {
    Get(inst.s, (a, parent), 0.0) * ParentMassJ(inst, sv, parent, k, inst.M)
  }

  /** The right-hand side of Eqs. (4)/(5): Σ_{parent in ps} s[(a, parent)] · Σ_{j in M} Σ_{i in N} x[(parent, i, j, k)]. */
  function ParentShare(inst: InstanceData, sv: SolvedValues, a: int, k: int, ps: seq<int>): real
  {
    if ps == [] then 0.0
    else ParentShare(inst, sv, a, k, ps[..|ps| - 1]) + ShareOf(inst, sv, a, ps[|ps| - 1], k)
  }

  /** Eq. (6) left: Σ_{i in ivs} x[(a, i, j, k)]. */
  function StaffedX(sv: SolvedValues, a: int, j: int, k: int, ivs: seq<int>): real
  {
    if ivs == [] then 0.0
    else StaffedX(sv, a, j, k, ivs[..|ivs| - 1]) + XVal(sv, a, ivs[|ivs| - 1], j, k)
  }

  /** Eq. (6) right: Σ_{t in ts} y_tija[(t, k, j, a)]. */
  function StaffedY(sv: SolvedValues, a: int, j: int, k: int, ts: seq<int>): real
  {
    if ts == [] then 0.0
    else StaffedY(sv, a, j, k, ts[..|ts| - 1]) + YAVal(sv, ts[|ts| - 1], k, j, a)
  }

  /** Σ_{a in avs} y_tija[(t, i, j, a)]. */
  function AssignedY(sv: SolvedValues, t: int, i: int, j: int, avs: seq<int>): real
  {
    if avs == [] then 0.0
    else AssignedY(sv, t, i, j, avs[..|avs| - 1]) + YAVal(sv, t, i, j, avs[|avs| - 1])
  }

  /** Σ_{j in js} Σ_{a in A} y_tija[(t, i, j, a)]. */
  function ActiveJ(inst: InstanceData, sv: SolvedValues, t: int, i: int, js: seq<int>): real
  {
    if js == [] then 0.0
    else ActiveJ(inst, sv, t, i, js[..|js| - 1]) + AssignedY(sv, t, i, js[|js| - 1], inst.A)
  }

  /** Eq. (8) left: Σ_{t in ts} Σ_{j in M} Σ_{a in A} y_tija[(t, i, j, a)]. */
  function ActiveT(inst: InstanceData, sv: SolvedValues, i: int, ts: seq<int>): real
  {
    if ts == [] then 0.0
    else ActiveT(inst, sv, i, ts[..|ts| - 1]) + ActiveJ(inst, sv, ts[|ts| - 1], i, inst.M)
  }

  /** Eq. (9) left: Σ_{i in ivs} Σ_{a in Ht[t]} y_tija[(t, i, j, a)]. */
  function BreakLoad(inst: InstanceData, sv: SolvedValues, t: int, j: int, ivs: seq<int>): real
  {
    if ivs == [] then 0.0
    else BreakLoad(inst, sv, t, j, ivs[..|ivs| - 1]) + AssignedY(sv, t, ivs[|ivs| - 1], j, Get(inst.Ht, t, []))
  }

  /** Σ_{t in ts} y_tj[(t, j)]. */
  function ShiftsT(sv: SolvedValues, j: int, ts: seq<int>): real
  {
    if ts == [] then 0.0
    else ShiftsT(sv, j, ts[..|ts| - 1]) + YSVal(sv, ts[|ts| - 1], j)
  }

  /** Σ_{j in js} Σ_{t in T} y_tj[(t, j)]. */
  function ShiftsJ(inst: InstanceData, sv: SolvedValues, js: seq<int>): real
  {
    if js == [] then 0.0
    else ShiftsJ(inst, sv, js[..|js| - 1]) + ShiftsT(sv, js[|js| - 1], inst.T)
  }

  // ---------------------------------------------------------------------
  // The issues of each family, in loop order
  // ---------------------------------------------------------------------

  function DemandEq(win: Window): Equation
  {
    if win.Deadline? then Eq(2) else Eq(3)
  }

  function DependentEq(win: Window): Equation
  {
    if win.Deadline? then Eq(4) else Eq(5)
  }

  /** All issues of a list carry the label eq and a violation above tol. */
  ghost predicate Labelled(issues: seq<AuditIssue>, eq: Equation, tol: real)
  {
    forall iss | iss in issues :: iss.equation == eq && iss.violation > tol
  }

  lemma LabelledAppend(i1: seq<AuditIssue>, i2: seq<AuditIssue>, eq: Equation, tol: real)
    requires Labelled(i1, eq, tol) && Labelled(i2, eq, tol)
    ensures Labelled(i1 + i2, eq, tol)
  {
  }

  /** Eq. (2)/(3) for (i, a): demand served in the window equals d[(a, i)]. */
  function DemandIssue(inst: InstanceData, sv: SolvedValues, ws: bool, win: Window, i: int, a: int, tol: real): seq<AuditIssue>
    requires HasWindow(inst, win, ws, a)
  {
    EqIssue(DemandEq(win), ServedJ(inst, sv, a, i, AuditUntil(inst, win, i, a, ws), inst.M),
            Get(inst.d, (a, i), 0.0), AtIntervalActivity(i, a), tol)
  }

  function DemandIssuesA(inst: InstanceData, sv: SolvedValues, ws: bool, win: Window, i: int, avs: seq<int>, tol: real): (r: seq<AuditIssue>)
    requires WindowsKnown(inst, win, ws, avs)
    ensures Labelled(r, DemandEq(win), tol)
  {
    if avs == [] then []
    else
      assert avs[|avs| - 1] in avs;
      DemandIssuesA(inst, sv, ws, win, i, avs[..|avs| - 1], tol) + DemandIssue(inst, sv, ws, win, i, avs[|avs| - 1], tol)
  }

  function DemandIssuesI(inst: InstanceData, sv: SolvedValues, ws: bool, win: Window, ivs: seq<int>, tol: real): (r: seq<AuditIssue>)
    requires WindowsKnown(inst, win, ws, Independent(inst, win))
    ensures Labelled(r, DemandEq(win), tol)
  {
    if ivs == [] then []
    else
      DemandIssuesI(inst, sv, ws, win, ivs[..|ivs| - 1], tol)
      + DemandIssuesA(inst, sv, ws, win, ivs[|ivs| - 1], Independent(inst, win), tol)
  }

  /** Eq. (4)/(5) for (k, a): served dependent demand is at least the parents' share. */
  function DependentIssue(inst: InstanceData, sv: SolvedValues, ws: bool, win: Window, k: int, a: int, tol: real): seq<AuditIssue>
    requires HasWindow(inst, win, ws, a)
  {
    GeIssue(DependentEq(win), ServedJ(inst, sv, a, k, AuditUntil(inst, win, k, a, ws), inst.M),
            ParentShare(inst, sv, a, k, Get(inst.Ga, a, [])), AtOriginActivity(k, a), tol)
  }

  function DependentIssuesA(inst: InstanceData, sv: SolvedValues, ws: bool, win: Window, k: int, avs: seq<int>, tol: real): (r: seq<AuditIssue>)
    requires WindowsKnown(inst, win, ws, avs)
    ensures Labelled(r, DependentEq(win), tol)
  {
    if avs == [] then []
    else
      assert avs[|avs| - 1] in avs;
      DependentIssuesA(inst, sv, ws, win, k, avs[..|avs| - 1], tol) + DependentIssue(inst, sv, ws, win, k, avs[|avs| - 1], tol)
  }

  function DependentIssuesK(inst: InstanceData, sv: SolvedValues, ws: bool, win: Window, ks: seq<int>, tol: real): (r: seq<AuditIssue>)
    requires WindowsKnown(inst, win, ws, Dependent(inst, win))
    ensures Labelled(r, DependentEq(win), tol)
  {
    if ks == [] then []
    else
      DependentIssuesK(inst, sv, ws, win, ks[..|ks| - 1], tol)
      + DependentIssuesA(inst, sv, ws, win, ks[|ks| - 1], Dependent(inst, win), tol)
  }

  /** Eq. (6) for (k, j, a): executions up to k are staffed by the profiles assigned to a at k. */
  function StaffIssue(inst: InstanceData, sv: SolvedValues, k: int, j: int, a: int, tol: real): seq<AuditIssue>
  {
    LeIssue(Eq(6), StaffedX(sv, a, j, k, Range(1, k + 1)), StaffedY(sv, a, j, k, Get(inst.Ta, a, [])),
            AtStaffing(k, j, a), tol)
  }

  function StaffIssuesA(inst: InstanceData, sv: SolvedValues, k: int, j: int, avs: seq<int>, tol: real): (r: seq<AuditIssue>)
    ensures Labelled(r, Eq(6), tol)
  {
    if avs == [] then []
    else StaffIssuesA(inst, sv, k, j, avs[..|avs| - 1], tol) + StaffIssue(inst, sv, k, j, avs[|avs| - 1], tol)
  }

  function StaffIssuesJ(inst: InstanceData, sv: SolvedValues, k: int, js: seq<int>, tol: real): (r: seq<AuditIssue>)
    ensures Labelled(r, Eq(6), tol)
  {
    if js == [] then []
    else StaffIssuesJ(inst, sv, k, js[..|js| - 1], tol) + StaffIssuesA(inst, sv, k, js[|js| - 1], inst.A, tol)
  }

  function StaffIssuesK(inst: InstanceData, sv: SolvedValues, ks: seq<int>, tol: real): (r: seq<AuditIssue>)
    ensures Labelled(r, Eq(6), tol)
  {
    if ks == [] then []
    else StaffIssuesK(inst, sv, ks[..|ks| - 1], tol) + StaffIssuesJ(inst, sv, ks[|ks| - 1], inst.M, tol)
  }

  /** Eq. (7) for (i, j, t): the profile's assignments at i are covered by its shift count. */
  function ShiftLinkIssue(inst: InstanceData, sv: SolvedValues, i: int, j: int, t: int, tol: real): seq<AuditIssue>
  {
    LeIssue(Eq(7), AssignedY(sv, t, i, j, Get(inst.Ht, t, [])), YSVal(sv, t, j), AtShiftLink(i, j, t), tol)
  }

  function ShiftLinkIssuesT(inst: InstanceData, sv: SolvedValues, i: int, j: int, ts: seq<int>, tol: real): (r: seq<AuditIssue>)
    ensures Labelled(r, Eq(7), tol)
  {
    if ts == [] then []
    else ShiftLinkIssuesT(inst, sv, i, j, ts[..|ts| - 1], tol) + ShiftLinkIssue(inst, sv, i, j, ts[|ts| - 1], tol)
  }

  function ShiftLinkIssuesJ(inst: InstanceData, sv: SolvedValues, i: int, js: seq<int>, tol: real): (r: seq<AuditIssue>)
    ensures Labelled(r, Eq(7), tol)
  {
    if js == [] then []
    else ShiftLinkIssuesJ(inst, sv, i, js[..|js| - 1], tol) + ShiftLinkIssuesT(inst, sv, i, js[|js| - 1], inst.T, tol)
  }

  function ShiftLinkIssuesI(inst: InstanceData, sv: SolvedValues, ivs: seq<int>, tol: real): (r: seq<AuditIssue>)
    ensures Labelled(r, Eq(7), tol)
  {
    if ivs == [] then []
    else ShiftLinkIssuesI(inst, sv, ivs[..|ivs| - 1], tol) + ShiftLinkIssuesJ(inst, sv, ivs[|ivs| - 1], inst.M, tol)
  }

  /** Eq. (8) for i: at most q workers are active. */
  function CapIssue(inst: InstanceData, sv: SolvedValues, i: int, tol: real): seq<AuditIssue>
  {
    LeIssue(Eq(8), ActiveT(inst, sv, i, inst.T), inst.q as real, AtInterval(i), tol)
  }

  function CapIssues(inst: InstanceData, sv: SolvedValues, ivs: seq<int>, tol: real): (r: seq<AuditIssue>)
    ensures Labelled(r, Eq(8), tol)
  {
    if ivs == [] then []
    else CapIssues(inst, sv, ivs[..|ivs| - 1], tol) + CapIssue(inst, sv, ivs[|ivs| - 1], tol)
  }

  /** The right-hand side of Eq. (9): (f - p) · y_tj[(t, j)]. */
  function BreakCap(inst: InstanceData, sv: SolvedValues, t: int, j: int): real
  {
    ((inst.f - inst.p) as real) * YSVal(sv, t, j)
  }

  /** Eq. (9) for (t, j): the break-window load is at most (f - p) · y_tj[(t, j)]. */
  function BreakIssue(inst: InstanceData, sv: SolvedValues, t: int, j: int, tol: real): seq<AuditIssue>
  {
    LeIssue(Eq(9), BreakLoad(inst, sv, t, j, Get(inst.Oj, j, [])), BreakCap(inst, sv, t, j), AtBreak(t, j), tol)
  }

  function BreakIssuesJ(inst: InstanceData, sv: SolvedValues, t: int, js: seq<int>, tol: real): (r: seq<AuditIssue>)
    ensures Labelled(r, Eq(9), tol)
  {
    if js == [] then []
    else BreakIssuesJ(inst, sv, t, js[..|js| - 1], tol) + BreakIssue(inst, sv, t, js[|js| - 1], tol)
  }

  function BreakIssuesT(inst: InstanceData, sv: SolvedValues, ts: seq<int>, tol: real): (r: seq<AuditIssue>)
    ensures Labelled(r, Eq(9), tol)
  {
    if ts == [] then []
    else BreakIssuesT(inst, sv, ts[..|ts| - 1], tol) + BreakIssuesJ(inst, sv, ts[|ts| - 1], inst.M1, tol)
  }

  /** The right-hand side of Eq. (10): w times all shifts. */
  function ShareCap(inst: InstanceData, sv: SolvedValues): real
  {
    inst.w * ShiftsJ(inst, sv, inst.M)
  }

  /** Eq. (10): part-time shifts are at most a share w of all shifts. */
  function ShareIssue(inst: InstanceData, sv: SolvedValues, tol: real): (r: seq<AuditIssue>)
    ensures Labelled(r, Eq(10), tol)
  {
    LeIssue(Eq(10), ShiftsJ(inst, sv, inst.M2), ShareCap(inst, sv), PartTimeShare, tol)
  }

  // ---------------------------------------------------------------------
  // Eq. (11): integrality
  // ---------------------------------------------------------------------

  /** Python's round on a number: the nearest integer, a tie going to the even one. */
  function Round(v: real): int
  {
    var fl := v.Floor;
    var frac := v - fl as real;
    if frac < 0.5 then fl
    else if frac > 0.5 then fl + 1
    else if fl % 2 == 0 then fl else fl + 1
  }

  /** Round is a nearest integer, and of two nearest integers the even one. */
  lemma RoundNearest(v: real, m: int)
    ensures Abs(v - Round(v) as real) <= 0.5
    ensures Abs(v - Round(v) as real) <= Abs(v - m as real)
    ensures Abs(v - Round(v) as real) == 0.5 ==> Round(v) % 2 == 0
  {
    var fl := v.Floor;
    assert fl as real <= v < fl as real + 1.0;
    if m <= fl {
      assert v - m as real >= v - fl as real;
    } else {
      assert m >= fl + 1;
      assert m as real - v >= fl as real + 1.0 - v;
    }
  }

  function Distance(v: real): real
  {
    Abs(v - Round(v) as real)
  }

  function IntegralityX(sv: SolvedValues, keys: seq<XKey>, tol: real): (r: seq<AuditIssue>)
    ensures Labelled(r, Eq(11), tol) && |r| <= |keys|
    ensures r == [] <==> forall p | 0 <= p < |keys| :: Distance(Get(sv.x, keys[p], 0.0)) <= tol
  {
    if keys == [] then []
    else
      var key := keys[|keys| - 1];
      var v := Get(sv.x, key, 0.0);
      var init := IntegralityX(sv, keys[..|keys| - 1], tol);
      assert forall p | 0 <= p < |keys| - 1 :: keys[..|keys| - 1][p] == keys[p];
      init + EqIssue(Eq(11), v, Round(v) as real, AtX(key), tol)
  }

  function IntegralityYA(sv: SolvedValues, keys: seq<YAKey>, tol: real): (r: seq<AuditIssue>)
    ensures Labelled(r, Eq(11), tol) && |r| <= |keys|
    ensures r == [] <==> forall p | 0 <= p < |keys| :: Distance(Get(sv.ya, keys[p], 0.0)) <= tol
  {
    if keys == [] then []
    else
      var key := keys[|keys| - 1];
      var v := Get(sv.ya, key, 0.0);
      var init := IntegralityYA(sv, keys[..|keys| - 1], tol);
      assert forall p | 0 <= p < |keys| - 1 :: keys[..|keys| - 1][p] == keys[p];
      init + EqIssue(Eq(11), v, Round(v) as real, AtYAssign(key), tol)
  }

  function IntegralityYS(sv: SolvedValues, keys: seq<YSKey>, tol: real): (r: seq<AuditIssue>)
    ensures Labelled(r, Eq(11), tol) && |r| <= |keys|
    ensures r == [] <==> forall p | 0 <= p < |keys| :: Distance(Get(sv.ys, keys[p], 0.0)) <= tol
  {
    if keys == [] then []
    else
      var key := keys[|keys| - 1];
      var v := Get(sv.ys, key, 0.0);
      var init := IntegralityYS(sv, keys[..|keys| - 1], tol);
      assert forall p | 0 <= p < |keys| - 1 :: keys[..|keys| - 1][p] == keys[p];
      init + EqIssue(Eq(11), v, Round(v) as real, AtYShift(key), tol)
  }

  function IntegralityIssues(sv: SolvedValues, tol: real): (r: seq<AuditIssue>)
    ensures Labelled(r, Eq(11), tol)
  {
    var r := IntegralityX(sv, sv.xKeys, tol) + IntegralityYA(sv, sv.yaKeys, tol) + IntegralityYS(sv, sv.ysKeys, tol);
    LabelledAppend(IntegralityX(sv, sv.xKeys, tol), IntegralityYA(sv, sv.yaKeys, tol), Eq(11), tol);
    LabelledAppend(IntegralityX(sv, sv.xKeys, tol) + IntegralityYA(sv, sv.yaKeys, tol), IntegralityYS(sv, sv.ysKeys, tol), Eq(11), tol);
    r
  }

  // ---------------------------------------------------------------------
  // The whole audit
  // ---------------------------------------------------------------------

  /** The issues of Eqs. (2)-(5), the families whose sums run over end-of-shift windows. */
  function WindowIssues(inst: InstanceData, sv: SolvedValues, ws: bool, tol: real): seq<AuditIssue>
    requires EncodableWindows(inst, ws)
  {
    DemandIssuesI(inst, sv, ws, Deadline, inst.N, tol)
    + DemandIssuesI(inst, sv, ws, Release, inst.N, tol)
    + DependentIssuesK(inst, sv, ws, Deadline, inst.N, tol)
    + DependentIssuesK(inst, sv, ws, Release, inst.N, tol)
  }

  /** The issues of Eqs. (6)-(10). */
  function FixedIssues(inst: InstanceData, sv: SolvedValues, tol: real): seq<AuditIssue>
  {
    StaffIssuesK(inst, sv, inst.N, tol)
    + ShiftLinkIssuesI(inst, sv, inst.N, tol)
    + CapIssues(inst, sv, inst.N, tol)
    + BreakIssuesT(inst, sv, inst.T, tol)
    + ShareIssue(inst, sv, tol)
  }

  /** The issues of Eqs. (2)-(10), family after family. */
  function RowIssues(inst: InstanceData, sv: SolvedValues, ws: bool, tol: real): seq<AuditIssue>
    requires EncodableWindows(inst, ws)
  {
    WindowIssues(inst, sv, ws, tol) + FixedIssues(inst, sv, tol)
  }

  /** Every issue run_audits records, in order. */
  function AuditIssues(inst: InstanceData, sv: SolvedValues, ws: bool, tol: real): seq<AuditIssue>
    requires EncodableWindows(inst, ws)
  {
    RowIssues(inst, sv, ws, tol) + IntegralityIssues(sv, tol)
  }
}
