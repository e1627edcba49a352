// run_audits (src/audit.py): the family loops, each check appending to the
// shared issue list, proved to record exactly the issues the Audit module
// defines, in the same order.
module AuditRun {
  import opened Seqs
  import opened Instance
  import opened Csr
  import opened Catalog
  import opened Rows
  import opened Audit

  // ---------------------------------------------------------------------
  // One more element of a loop extends the issue list by its issues
  // ---------------------------------------------------------------------

  lemma DemandIssuesAStep(inst: InstanceData, sv: SolvedValues, ws: bool, win: Window, i: int, avs: seq<int>, p: int, tol: real, head: seq<AuditIssue>)
    requires WindowsKnown(inst, win, ws, avs) && 0 <= p < |avs|
    ensures WindowsKnown(inst, win, ws, avs[..p]) && WindowsKnown(inst, win, ws, avs[..p + 1])
    ensures HasWindow(inst, win, ws, avs[p])
    ensures head + DemandIssuesA(inst, sv, ws, win, i, avs[..p + 1], tol)
         == head + DemandIssuesA(inst, sv, ws, win, i, avs[..p], tol) + DemandIssue(inst, sv, ws, win, i, avs[p], tol)
  {
    assert avs[..p + 1][..p] == avs[..p];
    assert avs[p] in avs;
  }

  lemma DemandIssuesIStep(inst: InstanceData, sv: SolvedValues, ws: bool, win: Window, ivs: seq<int>, p: int, tol: real, head: seq<AuditIssue>)
    requires WindowsKnown(inst, win, ws, Independent(inst, win)) && 0 <= p < |ivs|
    ensures head + DemandIssuesI(inst, sv, ws, win, ivs[..p + 1], tol)
         == head + DemandIssuesI(inst, sv, ws, win, ivs[..p], tol) + DemandIssuesA(inst, sv, ws, win, ivs[p], Independent(inst, win), tol)
  {
    assert ivs[..p + 1][..p] == ivs[..p];
  }

  lemma DependentIssuesAStep(inst: InstanceData, sv: SolvedValues, ws: bool, win: Window, k: int, avs: seq<int>, p: int, tol: real, head: seq<AuditIssue>)
    requires WindowsKnown(inst, win, ws, avs) && 0 <= p < |avs|
    ensures WindowsKnown(inst, win, ws, avs[..p]) && WindowsKnown(inst, win, ws, avs[..p + 1])
    ensures HasWindow(inst, win, ws, avs[p])
    ensures head + DependentIssuesA(inst, sv, ws, win, k, avs[..p + 1], tol)
         == head + DependentIssuesA(inst, sv, ws, win, k, avs[..p], tol) + DependentIssue(inst, sv, ws, win, k, avs[p], tol)
  {
    assert avs[..p + 1][..p] == avs[..p];
    assert avs[p] in avs;
  }

  lemma DependentIssuesKStep(inst: InstanceData, sv: SolvedValues, ws: bool, win: Window, ks: seq<int>, p: int, tol: real, head: seq<AuditIssue>)
    requires WindowsKnown(inst, win, ws, Dependent(inst, win)) && 0 <= p < |ks|
    ensures head + DependentIssuesK(inst, sv, ws, win, ks[..p + 1], tol)
         == head + DependentIssuesK(inst, sv, ws, win, ks[..p], tol) + DependentIssuesA(inst, sv, ws, win, ks[p], Dependent(inst, win), tol)
  {
    assert ks[..p + 1][..p] == ks[..p];
  }

  lemma StaffIssuesAStep(inst: InstanceData, sv: SolvedValues, k: int, j: int, avs: seq<int>, p: int, tol: real, head: seq<AuditIssue>)
    requires 0 <= p < |avs|
    ensures head + StaffIssuesA(inst, sv, k, j, avs[..p + 1], tol)
         == head + StaffIssuesA(inst, sv, k, j, avs[..p], tol) + StaffIssue(inst, sv, k, j, avs[p], tol)
  {
    assert avs[..p + 1][..p] == avs[..p];
  }

  lemma StaffIssuesJStep(inst: InstanceData, sv: SolvedValues, k: int, js: seq<int>, p: int, tol: real, head: seq<AuditIssue>)
    requires 0 <= p < |js|
    ensures head + StaffIssuesJ(inst, sv, k, js[..p + 1], tol)
         == head + StaffIssuesJ(inst, sv, k, js[..p], tol) + StaffIssuesA(inst, sv, k, js[p], inst.A, tol)
  {
    assert js[..p + 1][..p] == js[..p];
  }

  lemma StaffIssuesKStep(inst: InstanceData, sv: SolvedValues, ks: seq<int>, p: int, tol: real, head: seq<AuditIssue>)
    requires 0 <= p < |ks|
    ensures head + StaffIssuesK(inst, sv, ks[..p + 1], tol)
         == head + StaffIssuesK(inst, sv, ks[..p], tol) + StaffIssuesJ(inst, sv, ks[p], inst.M, tol)
  {
    assert ks[..p + 1][..p] == ks[..p];
  }

  lemma ShiftLinkIssuesTStep(inst: InstanceData, sv: SolvedValues, i: int, j: int, ts: seq<int>, p: int, tol: real, head: seq<AuditIssue>)
    requires 0 <= p < |ts|
    ensures head + ShiftLinkIssuesT(inst, sv, i, j, ts[..p + 1], tol)
         == head + ShiftLinkIssuesT(inst, sv, i, j, ts[..p], tol) + ShiftLinkIssue(inst, sv, i, j, ts[p], tol)
  {
    assert ts[..p + 1][..p] == ts[..p];
  }

  lemma ShiftLinkIssuesJStep(inst: InstanceData, sv: SolvedValues, i: int, js: seq<int>, p: int, tol: real, head: seq<AuditIssue>)
    requires 0 <= p < |js|
    ensures head + ShiftLinkIssuesJ(inst, sv, i, js[..p + 1], tol)
         == head + ShiftLinkIssuesJ(inst, sv, i, js[..p], tol) + ShiftLinkIssuesT(inst, sv, i, js[p], inst.T, tol)
  {
    assert js[..p + 1][..p] == js[..p];
  }

  lemma ShiftLinkIssuesIStep(inst: InstanceData, sv: SolvedValues, ivs: seq<int>, p: int, tol: real, head: seq<AuditIssue>)
    requires 0 <= p < |ivs|
    ensures head + ShiftLinkIssuesI(inst, sv, ivs[..p + 1], tol)
         == head + ShiftLinkIssuesI(inst, sv, ivs[..p], tol) + ShiftLinkIssuesJ(inst, sv, ivs[p], inst.M, tol)
  {
    assert ivs[..p + 1][..p] == ivs[..p];
  }

  lemma CapIssuesStep(inst: InstanceData, sv: SolvedValues, ivs: seq<int>, p: int, tol: real, head: seq<AuditIssue>)
    requires 0 <= p < |ivs|
    ensures head + CapIssues(inst, sv, ivs[..p + 1], tol)
         == head + CapIssues(inst, sv, ivs[..p], tol) + CapIssue(inst, sv, ivs[p], tol)
  {
    assert ivs[..p + 1][..p] == ivs[..p];
  }

  lemma BreakIssuesJStep(inst: InstanceData, sv: SolvedValues, t: int, js: seq<int>, p: int, tol: real, head: seq<AuditIssue>)
    requires 0 <= p < |js|
    ensures head + BreakIssuesJ(inst, sv, t, js[..p + 1], tol)
         == head + BreakIssuesJ(inst, sv, t, js[..p], tol) + BreakIssue(inst, sv, t, js[p], tol)
  {
    assert js[..p + 1][..p] == js[..p];
  }

  lemma BreakIssuesTStep(inst: InstanceData, sv: SolvedValues, ts: seq<int>, p: int, tol: real, head: seq<AuditIssue>)
    requires 0 <= p < |ts|
    ensures head + BreakIssuesT(inst, sv, ts[..p + 1], tol)
         == head + BreakIssuesT(inst, sv, ts[..p], tol) + BreakIssuesJ(inst, sv, ts[p], inst.M1, tol)
  {
    assert ts[..p + 1][..p] == ts[..p];
  }

  lemma IntegralityXStep(sv: SolvedValues, keys: seq<XKey>, p: int, tol: real, head: seq<AuditIssue>)
    requires 0 <= p < |keys|
    ensures head + IntegralityX(sv, keys[..p + 1], tol)
         == head + IntegralityX(sv, keys[..p], tol)
            + EqIssue(Eq(11), Get(sv.x, keys[p], 0.0), Round(Get(sv.x, keys[p], 0.0)) as real, AtX(keys[p]), tol)
  {
    assert keys[..p + 1][..p] == keys[..p];
  }

  lemma IntegralityYAStep(sv: SolvedValues, keys: seq<YAKey>, p: int, tol: real, head: seq<AuditIssue>)
    requires 0 <= p < |keys|
    ensures head + IntegralityYA(sv, keys[..p + 1], tol)
         == head + IntegralityYA(sv, keys[..p], tol)
            + EqIssue(Eq(11), Get(sv.ya, keys[p], 0.0), Round(Get(sv.ya, keys[p], 0.0)) as real, AtYAssign(keys[p]), tol)
  {
    assert keys[..p + 1][..p] == keys[..p];
  }

  lemma IntegralityYSStep(sv: SolvedValues, keys: seq<YSKey>, p: int, tol: real, head: seq<AuditIssue>)
    requires 0 <= p < |keys|
    ensures head + IntegralityYS(sv, keys[..p + 1], tol)
         == head + IntegralityYS(sv, keys[..p], tol)
            + EqIssue(Eq(11), Get(sv.ys, keys[p], 0.0), Round(Get(sv.ys, keys[p], 0.0)) as real, AtYShift(keys[p]), tol)
  {
    assert keys[..p + 1][..p] == keys[..p];
  }

  /** Regrouping, kept out of the large contexts that use it. */
  lemma Reassociate(r: seq<AuditIssue>, x: seq<AuditIssue>, ya: seq<AuditIssue>, ys: seq<AuditIssue>)
    ensures r + x + ya + ys == r + (x + ya + ys)
  {
  }

  // ---------------------------------------------------------------------
  // The family loops
  // ---------------------------------------------------------------------

  /** Eq. (2)/(3) for one interval i and one activity a. */
  method AuditDemandOne(inst: InstanceData, sv: SolvedValues, ws: bool, win: Window, i: int, a: int, log: IssueLog)
    requires WellFormed(inst) && i in inst.N && a in Independent(inst, win)
    modifies log
    ensures HasWindow(inst, win, ws, a)
    ensures log.issues == old(log.issues) + DemandIssue(inst, sv, ws, win, i, a, log.tol)
  {
    IndependentMember(inst, win, ws, a);
    assert DemandOk(inst);
    var until := AuditUntil(inst, win, i, a, ws);
    var lhs := ServedJ(inst, sv, a, i, until, inst.M);
    var rhs := inst.d[(a, i)];
    log.CheckEq(DemandEq(win), lhs, rhs, AtIntervalActivity(i, a));
  }

  /** Eq. (2)/(3) for one interval i, over the sorted activities. */
  method AuditDemandFor(inst: InstanceData, sv: SolvedValues, ws: bool, win: Window, i: int, log: IssueLog)
    requires WellFormed(inst) && i in inst.N
    modifies log
    ensures WindowsKnown(inst, win, ws, Independent(inst, win))
    ensures log.issues == old(log.issues) + DemandIssuesA(inst, sv, ws, win, i, Independent(inst, win), log.tol)
  {
    var acts := Independent(inst, win);
    IndependentKnown(inst, win, ws);
    ghost var issues0 := log.issues;
    for p := 0 to |acts|
      invariant WindowsKnown(inst, win, ws, acts[..p])
      invariant log.issues == issues0 + DemandIssuesA(inst, sv, ws, win, i, acts[..p], log.tol)
    {
      DemandIssuesAStep(inst, sv, ws, win, i, acts, p, log.tol, issues0);
      AuditDemandOne(inst, sv, ws, win, i, acts[p], log);
    }
    assert acts[..|acts|] == acts;
  }

  /** Eq. (2) (Deadline) or Eq. (3) (Release). */
  method AuditDemand(inst: InstanceData, sv: SolvedValues, ws: bool, win: Window, log: IssueLog)
    requires WellFormed(inst)
    modifies log
    ensures WindowsKnown(inst, win, ws, Independent(inst, win))
    ensures log.issues == old(log.issues) + DemandIssuesI(inst, sv, ws, win, inst.N, log.tol)
  {
    IndependentKnown(inst, win, ws);
    var ivs := inst.N;
    ghost var issues0 := log.issues;
    for p := 0 to |ivs|
      invariant log.issues == issues0 + DemandIssuesI(inst, sv, ws, win, ivs[..p], log.tol)
    {
      DemandIssuesIStep(inst, sv, ws, win, ivs, p, log.tol, issues0);
      assert ivs[p] in inst.N;
      AuditDemandFor(inst, sv, ws, win, ivs[p], log);
    }
    assert ivs[..|ivs|] == ivs;
  }

  /** Eq. (4)/(5) for one origin interval k and one dependent activity a. */
  method AuditDependentOne(inst: InstanceData, sv: SolvedValues, ws: bool, win: Window, k: int, a: int, log: IssueLog)
    requires WellFormed(inst) && a in Dependent(inst, win)
    modifies log
    ensures HasWindow(inst, win, ws, a)
    ensures log.issues == old(log.issues) + DependentIssue(inst, sv, ws, win, k, a, log.tol)
  {
    DependentMember(inst, win, ws, a);
    assert ParentsOk(inst);
    var until := AuditUntil(inst, win, k, a, ws);
    var lhs := ServedJ(inst, sv, a, k, until, inst.M);
    var rhs := ParentShare(inst, sv, a, k, inst.Ga[a]);
    log.CheckGe(DependentEq(win), lhs, rhs, AtOriginActivity(k, a));
  }

  /** Eq. (4)/(5) for one interval k, over the sorted activities. */
  method AuditDependentFor(inst: InstanceData, sv: SolvedValues, ws: bool, win: Window, k: int, log: IssueLog)
    requires WellFormed(inst)
    modifies log
    ensures WindowsKnown(inst, win, ws, Dependent(inst, win))
    ensures log.issues == old(log.issues) + DependentIssuesA(inst, sv, ws, win, k, Dependent(inst, win), log.tol)
  {
    var acts := Dependent(inst, win);
    DependentKnown(inst, win, ws);
    ghost var issues0 := log.issues;
    for p := 0 to |acts|
      invariant WindowsKnown(inst, win, ws, acts[..p])
      invariant log.issues == issues0 + DependentIssuesA(inst, sv, ws, win, k, acts[..p], log.tol)
    {
      DependentIssuesAStep(inst, sv, ws, win, k, acts, p, log.tol, issues0);
      AuditDependentOne(inst, sv, ws, win, k, acts[p], log);
    }
    assert acts[..|acts|] == acts;
  }

  /** Eq. (4) (Deadline) or Eq. (5) (Release). */
  method AuditDependent(inst: InstanceData, sv: SolvedValues, ws: bool, win: Window, log: IssueLog)
    requires WellFormed(inst)
    modifies log
    ensures WindowsKnown(inst, win, ws, Dependent(inst, win))
    ensures log.issues == old(log.issues) + DependentIssuesK(inst, sv, ws, win, inst.N, log.tol)
  {
    DependentKnown(inst, win, ws);
    var ks := inst.N;
    ghost var issues0 := log.issues;
    for p := 0 to |ks|
      invariant log.issues == issues0 + DependentIssuesK(inst, sv, ws, win, ks[..p], log.tol)
    {
      DependentIssuesKStep(inst, sv, ws, win, ks, p, log.tol, issues0);
      AuditDependentFor(inst, sv, ws, win, ks[p], log);
    }
    assert ks[..|ks|] == ks;
  }

  method AuditStaffA(inst: InstanceData, sv: SolvedValues, k: int, j: int, log: IssueLog)
    requires WellFormed(inst)
    modifies log
    ensures log.issues == old(log.issues) + StaffIssuesA(inst, sv, k, j, inst.A, log.tol)
  {
    var acts := inst.A;
    ghost var issues0 := log.issues;
    for p := 0 to |acts|
      invariant log.issues == issues0 + StaffIssuesA(inst, sv, k, j, acts[..p], log.tol)
    {
      StaffIssuesAStep(inst, sv, k, j, acts, p, log.tol, issues0);
      var a := acts[p];
      var lhs := StaffedX(sv, a, j, k, Range(1, k + 1));
      var rhs := StaffedY(sv, a, j, k, inst.Ta[a]);
      log.CheckLe(Eq(6), lhs, rhs, AtStaffing(k, j, a));
    }
    assert acts[..|acts|] == acts;
  }

  method AuditStaffJ(inst: InstanceData, sv: SolvedValues, k: int, log: IssueLog)
    requires WellFormed(inst)
    modifies log
    ensures log.issues == old(log.issues) + StaffIssuesJ(inst, sv, k, inst.M, log.tol)
  {
    var js := inst.M;
    ghost var issues0 := log.issues;
    for p := 0 to |js|
      invariant log.issues == issues0 + StaffIssuesJ(inst, sv, k, js[..p], log.tol)
    {
      StaffIssuesJStep(inst, sv, k, js, p, log.tol, issues0);
      AuditStaffA(inst, sv, k, js[p], log);
    }
    assert js[..|js|] == js;
  }

  /** Eq. (6). */
  method AuditStaff(inst: InstanceData, sv: SolvedValues, log: IssueLog)
    requires WellFormed(inst)
    modifies log
    ensures log.issues == old(log.issues) + StaffIssuesK(inst, sv, inst.N, log.tol)
  {
    var ks := inst.N;
    ghost var issues0 := log.issues;
    for p := 0 to |ks|
      invariant log.issues == issues0 + StaffIssuesK(inst, sv, ks[..p], log.tol)
    {
      StaffIssuesKStep(inst, sv, ks, p, log.tol, issues0);
      AuditStaffJ(inst, sv, ks[p], log);
    }
    assert ks[..|ks|] == ks;
  }

  method AuditShiftLinkT(inst: InstanceData, sv: SolvedValues, i: int, j: int, log: IssueLog)
    requires WellFormed(inst)
    modifies log
    ensures log.issues == old(log.issues) + ShiftLinkIssuesT(inst, sv, i, j, inst.T, log.tol)
  {
    var ts := inst.T;
    ghost var issues0 := log.issues;
    for p := 0 to |ts|
      invariant log.issues == issues0 + ShiftLinkIssuesT(inst, sv, i, j, ts[..p], log.tol)
    {
      ShiftLinkIssuesTStep(inst, sv, i, j, ts, p, log.tol, issues0);
      var t := ts[p];
      var lhs := AssignedY(sv, t, i, j, inst.Ht[t]);
      var rhs := YSVal(sv, t, j);
      log.CheckLe(Eq(7), lhs, rhs, AtShiftLink(i, j, t));
    }
    assert ts[..|ts|] == ts;
  }

  method AuditShiftLinkJ(inst: InstanceData, sv: SolvedValues, i: int, log: IssueLog)
    requires WellFormed(inst)
    modifies log
    ensures log.issues == old(log.issues) + ShiftLinkIssuesJ(inst, sv, i, inst.M, log.tol)
  {
    var js := inst.M;
    ghost var issues0 := log.issues;
    for p := 0 to |js|
      invariant log.issues == issues0 + ShiftLinkIssuesJ(inst, sv, i, js[..p], log.tol)
    {
      ShiftLinkIssuesJStep(inst, sv, i, js, p, log.tol, issues0);
      AuditShiftLinkT(inst, sv, i, js[p], log);
    }
    assert js[..|js|] == js;
  }

  /** Eq. (7). */
  method AuditShiftLinks(inst: InstanceData, sv: SolvedValues, log: IssueLog)
    requires WellFormed(inst)
    modifies log
    ensures log.issues == old(log.issues) + ShiftLinkIssuesI(inst, sv, inst.N, log.tol)
  {
    var ivs := inst.N;
    ghost var issues0 := log.issues;
    for p := 0 to |ivs|
      invariant log.issues == issues0 + ShiftLinkIssuesI(inst, sv, ivs[..p], log.tol)
    {
      ShiftLinkIssuesIStep(inst, sv, ivs, p, log.tol, issues0);
      AuditShiftLinkJ(inst, sv, ivs[p], log);
    }
    assert ivs[..|ivs|] == ivs;
  }

  /** Eq. (8). */
  method AuditCaps(inst: InstanceData, sv: SolvedValues, log: IssueLog)
    modifies log
    ensures log.issues == old(log.issues) + CapIssues(inst, sv, inst.N, log.tol)
  {
    var ivs := inst.N;
    ghost var issues0 := log.issues;
    for p := 0 to |ivs|
      invariant log.issues == issues0 + CapIssues(inst, sv, ivs[..p], log.tol)
    {
      CapIssuesStep(inst, sv, ivs, p, log.tol, issues0);
      var lhs := ActiveT(inst, sv, ivs[p], inst.T);
      log.CheckLe(Eq(8), lhs, inst.q as real, AtInterval(ivs[p]));
    }
    assert ivs[..|ivs|] == ivs;
  }

  method AuditBreak(inst: InstanceData, sv: SolvedValues, t: int, j: int, log: IssueLog)
    requires WellFormed(inst) && j in inst.M1
    modifies log
    ensures log.issues == old(log.issues) + BreakIssue(inst, sv, t, j, log.tol)
  {
    assert BreaksOk(inst);
    var lhs := BreakLoad(inst, sv, t, j, inst.Oj[j]);
    var rhs := BreakCap(inst, sv, t, j);
    log.CheckLe(Eq(9), lhs, rhs, AtBreak(t, j));
  }

  method AuditBreakJ(inst: InstanceData, sv: SolvedValues, t: int, log: IssueLog)
    requires WellFormed(inst)
    modifies log
    ensures log.issues == old(log.issues) + BreakIssuesJ(inst, sv, t, inst.M1, log.tol)
  {
    var js := inst.M1;
    ghost var issues0 := log.issues;
    for p := 0 to |js|
      invariant log.issues == issues0 + BreakIssuesJ(inst, sv, t, js[..p], log.tol)
    {
      BreakIssuesJStep(inst, sv, t, js, p, log.tol, issues0);
      assert js[p] in inst.M1;
      AuditBreak(inst, sv, t, js[p], log);
    }
    assert js[..|js|] == js;
  }

  /** Eq. (9). */
  method AuditBreaks(inst: InstanceData, sv: SolvedValues, log: IssueLog)
    requires WellFormed(inst)
    modifies log
    ensures log.issues == old(log.issues) + BreakIssuesT(inst, sv, inst.T, log.tol)
  {
    var ts := inst.T;
    ghost var issues0 := log.issues;
    for p := 0 to |ts|
      invariant log.issues == issues0 + BreakIssuesT(inst, sv, ts[..p], log.tol)
    {
      BreakIssuesTStep(inst, sv, ts, p, log.tol, issues0);
      AuditBreakJ(inst, sv, ts[p], log);
    }
    assert ts[..|ts|] == ts;
  }

  /** Eq. (11) over x, in the order the map's items are iterated. */
  method AuditIntegralityX(sv: SolvedValues, log: IssueLog)
    requires KeyOrders(sv)
    modifies log
    ensures log.issues == old(log.issues) + IntegralityX(sv, sv.xKeys, log.tol)
  {
    var keys := sv.xKeys;
    ghost var issues0 := log.issues;
    for p := 0 to |keys|
      invariant log.issues == issues0 + IntegralityX(sv, keys[..p], log.tol)
    {
      IntegralityXStep(sv, keys, p, log.tol, issues0);
      var key := keys[p];
      assert key in Elems(keys);
      var value := sv.x[key];
      log.CheckEq(Eq(11), value, Round(value) as real, AtX(key));
    }
    assert keys[..|keys|] == keys;
  }

  method AuditIntegralityYA(sv: SolvedValues, log: IssueLog)
    requires KeyOrders(sv)
    modifies log
    ensures log.issues == old(log.issues) + IntegralityYA(sv, sv.yaKeys, log.tol)
  {
    var keys := sv.yaKeys;
    ghost var issues0 := log.issues;
    for p := 0 to |keys|
      invariant log.issues == issues0 + IntegralityYA(sv, keys[..p], log.tol)
    {
      IntegralityYAStep(sv, keys, p, log.tol, issues0);
      var key := keys[p];
      assert key in Elems(keys);
      var value := sv.ya[key];
      log.CheckEq(Eq(11), value, Round(value) as real, AtYAssign(key));
    }
    assert keys[..|keys|] == keys;
  }

  method AuditIntegralityYS(sv: SolvedValues, log: IssueLog)
    requires KeyOrders(sv)
    modifies log
    ensures log.issues == old(log.issues) + IntegralityYS(sv, sv.ysKeys, log.tol)
  {
    var keys := sv.ysKeys;
    ghost var issues0 := log.issues;
    for p := 0 to |keys|
      invariant log.issues == issues0 + IntegralityYS(sv, keys[..p], log.tol)
    {
      IntegralityYSStep(sv, keys, p, log.tol, issues0);
      var key := keys[p];
      assert key in Elems(keys);
      var value := sv.ys[key];
      log.CheckEq(Eq(11), value, Round(value) as real, AtYShift(key));
    }
    assert keys[..|keys|] == keys;
  }

  /** Eqs. (2)-(5), from an empty log. */
  method AuditWindowRows(inst: InstanceData, sv: SolvedValues, ws: bool, log: IssueLog)
    requires WellFormed(inst) && log.issues == []
    modifies log
    ensures EncodableWindows(inst, ws)
    ensures log.issues == WindowIssues(inst, sv, ws, log.tol)
  {
    AuditDemand(inst, sv, ws, Deadline, log);
    assert log.issues == DemandIssuesI(inst, sv, ws, Deadline, inst.N, log.tol);
    AuditDemand(inst, sv, ws, Release, log);
    AuditDependent(inst, sv, ws, Deadline, log);
    AuditDependent(inst, sv, ws, Release, log);
  }

  /** Regrouping, kept out of the large contexts that use it. */
  lemma Reassociate5<T>(h: seq<T>, a: seq<T>, b: seq<T>, c: seq<T>, d: seq<T>, e: seq<T>)
    ensures h + a + b + c + d + e == h + (a + b + c + d + e)
  {
  }

  /** Eq. (10), a single check. */
  method AuditShare(inst: InstanceData, sv: SolvedValues, log: IssueLog)
    modifies log
    ensures log.issues == old(log.issues) + ShareIssue(inst, sv, log.tol)
  {
    var lhs := ShiftsJ(inst, sv, inst.M2);
    var rhs := ShareCap(inst, sv);
    log.CheckLe(Eq(10), lhs, rhs, PartTimeShare);
  }

  /** Eqs. (6)-(10), appended to what the log holds. */
  method AuditFixedRows(inst: InstanceData, sv: SolvedValues, log: IssueLog)
    requires WellFormed(inst)
    modifies log
    ensures log.issues == old(log.issues) + FixedIssues(inst, sv, log.tol)
  {
    ghost var issues0 := log.issues;
    AuditStaff(inst, sv, log);
    AuditShiftLinks(inst, sv, log);
    AuditCaps(inst, sv, log);
    AuditBreaks(inst, sv, log);
    AuditShare(inst, sv, log);
    Reassociate5(issues0, StaffIssuesK(inst, sv, inst.N, log.tol), ShiftLinkIssuesI(inst, sv, inst.N, log.tol),
                 CapIssues(inst, sv, inst.N, log.tol), BreakIssuesT(inst, sv, inst.T, log.tol), ShareIssue(inst, sv, log.tol));
  }

  /** Eqs. (2)-(10), family after family. */
  method AuditRows(inst: InstanceData, sv: SolvedValues, ws: bool, log: IssueLog)
    requires WellFormed(inst) && log.issues == []
    modifies log
    ensures EncodableWindows(inst, ws)
    ensures log.issues == RowIssues(inst, sv, ws, log.tol)
  {
    AuditWindowRows(inst, sv, ws, log);
    AuditFixedRows(inst, sv, log);
  }

  /**
   * run_audits: every family is checked, none stops the others; the report lists the
   * issues of Eqs. (2)-(11) in order, passes exactly when there are none, and echoes tol.
   */
  method RunAudits(inst: InstanceData, sv: SolvedValues, ws: bool, tol: real) returns (report: AuditReport)
    requires WellFormed(inst) && ParentsKnown(inst) && SolvedCovers(inst, sv) && KeyOrders(sv)
    ensures EncodableWindows(inst, ws)
    ensures report.issues == AuditIssues(inst, sv, ws, tol)
    ensures report.passed <==> report.issues == []
    ensures report.tolerance == tol
  {
    var log := new IssueLog(tol);
    AuditRows(inst, sv, ws, log);
    AuditIntegralityX(sv, log);
    AuditIntegralityYA(sv, log);
    AuditIntegralityYS(sv, log);
    Reassociate(RowIssues(inst, sv, ws, tol), IntegralityX(sv, sv.xKeys, tol),
                IntegralityYA(sv, sv.yaKeys, tol), IntegralityYS(sv, sv.ysKeys, tol));
    report := AuditReport(log.issues == [], tol, log.issues);
  }
}
