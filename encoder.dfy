// build_waes_model (src/build_waes.py): the variable catalog, then the row loops
// of Eqs. (2)-(10) appending to the CSR payload, then the returned model and
// its server payload.
module Encoder {
  import opened Seqs
  import opened Instance
  import opened Csr
  import opened Catalog
  import opened Rows

  /** The drop threshold of add_row. */
  const DropEps: real := 0.000000000001

  // ---------------------------------------------------------------------
  // The update loops of one row. Each method applies, in order, the updates
  // its specification function lists.
  // ---------------------------------------------------------------------

  /** `for k in range(i, until + 1): row[x[(a, i, j, k)]] += b[(k, j)]`. */
  method AddWindowK(inst: InstanceData, cols: Columns, row: RowAcc, a: int, i: int, j: int, until: int)
    returns (r: RowAcc)
    requires PartitionsOk(inst) && ShiftDataOk(inst) && Covers(inst, cols)
    requires a in inst.A && i in inst.N && j in inst.M && until <= inst.n
    ensures r == AddAll(row, WindowTermsK(inst, cols, a, i, j, Range(i, until + 1)))
  {
    Horizon(inst, i);
    r := row;
    var k := i;
    while k <= until
      invariant i <= k && (k <= until + 1 || k == i)
      invariant r == AddAll(row, WindowTermsK(inst, cols, a, i, j, Range(i, k)))
      decreases until - k
    {
      Horizon(inst, k);
      XCovered(inst, cols, a, i, j, k);
      var t := Term(cols.x[(a, i, j, k)], inst.b[(k, j)] as real);
      WindowTermsKStep(inst, cols, a, i, j, k);
      AddAllSnoc(row, WindowTermsK(inst, cols, a, i, j, Range(i, k)), t);
      r := r.Add(t);
      k := k + 1;
    }
  }

  /** `for j in M: for k in range(i, until + 1): ...`. */
  method AddWindowJ(inst: InstanceData, cols: Columns, row: RowAcc, a: int, i: int, until: int)
    returns (r: RowAcc)
    requires PartitionsOk(inst) && ShiftDataOk(inst) && Covers(inst, cols)
    requires a in inst.A && i in inst.N && until <= inst.n
    ensures r == AddAll(row, WindowTermsJ(inst, cols, a, i, until, inst.M))
  {
    var js := inst.M;
    r := row;
    for p := 0 to |js|
      invariant r == AddAll(row, WindowTermsJ(inst, cols, a, i, until, js[..p]))
    {
      assert js[..p + 1][..p] == js[..p];
      var inner := WindowTermsK(inst, cols, a, i, js[p], Range(i, until + 1));
      AddAllAppend(row, WindowTermsJ(inst, cols, a, i, until, js[..p]), inner);
      r := AddWindowK(inst, cols, r, a, i, js[p], until);
    }
    assert js[..|js|] == js;
  }

  /** `for i in N: row[x[(parent, i, j, k)]] -= coeff`. */
  method AddParentI(inst: InstanceData, cols: Columns, row: RowAcc, parent: int, j: int, k: int, coeff: real)
    returns (r: RowAcc)
    requires Covers(inst, cols)
    requires parent in inst.A && j in inst.M && k in inst.N
    ensures r == AddAll(row, ParentTermsI(cols, parent, j, k, coeff, inst.N))
  {
    var ivs := inst.N;
    r := row;
    for p := 0 to |ivs|
      invariant r == AddAll(row, ParentTermsI(cols, parent, j, k, coeff, ivs[..p]))
    {
      assert ivs[..p + 1][..p] == ivs[..p];
      assert ivs[p] in inst.N;
      XCovered(inst, cols, parent, ivs[p], j, k);
      var t := Term(cols.x[(parent, ivs[p], j, k)], -coeff);
      AddAllSnoc(row, ParentTermsI(cols, parent, j, k, coeff, ivs[..p]), t);
      r := r.Add(t);
    }
    assert ivs[..|ivs|] == ivs;
  }

  method AddParentJ(inst: InstanceData, cols: Columns, row: RowAcc, parent: int, k: int, coeff: real)
    returns (r: RowAcc)
    requires Covers(inst, cols)
    requires parent in inst.A && k in inst.N
    ensures r == AddAll(row, ParentTermsJ(inst, cols, parent, k, coeff, inst.M))
  {
    var js := inst.M;
    r := row;
    for p := 0 to |js|
      invariant r == AddAll(row, ParentTermsJ(inst, cols, parent, k, coeff, js[..p]))
    {
      assert js[..p + 1][..p] == js[..p];
      AddAllAppend(row, ParentTermsJ(inst, cols, parent, k, coeff, js[..p]), ParentTermsI(cols, parent, js[p], k, coeff, inst.N));
      r := AddParentI(inst, cols, r, parent, js[p], k, coeff);
    }
    assert js[..|js|] == js;
  }

  /** `for a_parent in Ga[a]: coeff = s[(a, a_parent)]; for j in M: for i in N: ...`. */
  method AddParentP(inst: InstanceData, cols: Columns, row: RowAcc, a: int, k: int)
    returns (r: RowAcc)
    requires ParentsOk(inst) && ParentsKnown(inst) && Covers(inst, cols)
    requires a in inst.C && k in inst.N
    ensures r == AddAll(row, ParentTermsP(inst, cols, a, k, Get(inst.Ga, a, [])))
  {
    var ps := inst.Ga[a];
    r := row;
    for p := 0 to |ps|
      invariant r == AddAll(row, ParentTermsP(inst, cols, a, k, ps[..p]))
    {
      assert ps[..p + 1][..p] == ps[..p];
      var parent := ps[p];
      var coeff := inst.s[(a, parent)];
      AddAllAppend(row, ParentTermsP(inst, cols, a, k, ps[..p]), ParentTermsJ(inst, cols, parent, k, coeff, inst.M));
      r := AddParentJ(inst, cols, r, parent, k, coeff);
    }
    assert ps[..|ps|] == ps;
  }

  /** `for i in range(1, k + 1): row[x[(a, i, j, k)]] += 1.0`. */
  method AddStaffX(inst: InstanceData, cols: Columns, row: RowAcc, a: int, j: int, k: int)
    returns (r: RowAcc)
    requires PartitionsOk(inst) && Covers(inst, cols)
    requires a in inst.A && j in inst.M && k in inst.N
    ensures r == AddAll(row, StaffXTerms(cols, a, j, k, Range(1, k + 1)))
  {
    Horizon(inst, k);
    r := row;
    for i := 1 to k + 1
      invariant r == AddAll(row, StaffXTerms(cols, a, j, k, Range(1, i)))
    {
      Horizon(inst, i);
      XCovered(inst, cols, a, i, j, k);
      var t := Term(cols.x[(a, i, j, k)], 1.0);
      StaffXStep(cols, a, j, k, i);
      AddAllSnoc(row, StaffXTerms(cols, a, j, k, Range(1, i)), t);
      r := r.Add(t);
    }
  }

  /** `for t in Ta[a]: row[y_tija[(t, k, j, a)]] -= 1.0`. */
  method AddStaffY(inst: InstanceData, cols: Columns, row: RowAcc, a: int, j: int, k: int)
    returns (r: RowAcc)
    requires CapabilitiesOk(inst) && LinksOk(inst) && Covers(inst, cols)
    requires a in inst.A && j in inst.M && k in inst.N
    ensures r == AddAll(row, StaffYTerms(cols, a, j, k, Get(inst.Ta, a, [])))
  {
    var ts := inst.Ta[a];
    r := row;
    for p := 0 to |ts|
      invariant r == AddAll(row, StaffYTerms(cols, a, j, k, ts[..p]))
    {
      assert ts[..p + 1][..p] == ts[..p];
      assert ts[p] in Get(inst.Ta, a, []);
      YACovered(inst, cols, ts[p], k, j, a);
      var t := Term(cols.ya[(ts[p], k, j, a)], -1.0);
      AddAllSnoc(row, StaffYTerms(cols, a, j, k, ts[..p]), t);
      r := r.Add(t);
    }
    assert ts[..|ts|] == ts;
  }

  /** `for a in avs: row[y_tija[(t, i, j, a)]] += 1.0`, shared by Eqs. (7)-(9). */
  method AddAssign(inst: InstanceData, cols: Columns, row: RowAcc, t: int, i: int, j: int, avs: seq<int>)
    returns (r: RowAcc)
    requires Covers(inst, cols)
    requires t in inst.T && i in inst.N && j in inst.M && forall a | a in avs :: a in inst.A
    ensures r == AddAll(row, AssignTerms(cols, t, i, j, avs))
  {
    r := row;
    for p := 0 to |avs|
      invariant r == AddAll(row, AssignTerms(cols, t, i, j, avs[..p]))
    {
      assert avs[..p + 1][..p] == avs[..p];
      assert avs[p] in avs;
      YACovered(inst, cols, t, i, j, avs[p]);
      var term := Term(cols.ya[(t, i, j, avs[p])], 1.0);
      AddAllSnoc(row, AssignTerms(cols, t, i, j, avs[..p]), term);
      r := r.Add(term);
    }
    assert avs[..|avs|] == avs;
  }

  /** Eq. (8): `for j in M: for a in A: ...`. */
  method AddCapJ(inst: InstanceData, cols: Columns, row: RowAcc, t: int, i: int)
    returns (r: RowAcc)
    requires Covers(inst, cols)
    requires t in inst.T && i in inst.N
    ensures r == AddAll(row, CapTermsJ(inst, cols, t, i, inst.M))
  {
    var js := inst.M;
    r := row;
    for p := 0 to |js|
      invariant r == AddAll(row, CapTermsJ(inst, cols, t, i, js[..p]))
    {
      assert js[..p + 1][..p] == js[..p];
      AddAllAppend(row, CapTermsJ(inst, cols, t, i, js[..p]), AssignTerms(cols, t, i, js[p], inst.A));
      r := AddAssign(inst, cols, r, t, i, js[p], inst.A);
    }
    assert js[..|js|] == js;
  }

  /** Eq. (8): `for t in T: for j in M: for a in A: ...`. */
  method AddCapT(inst: InstanceData, cols: Columns, row: RowAcc, i: int)
    returns (r: RowAcc)
    requires Covers(inst, cols)
    requires i in inst.N
    ensures r == AddAll(row, CapTermsT(inst, cols, i, inst.T))
  {
    var ts := inst.T;
    r := row;
    for p := 0 to |ts|
      invariant r == AddAll(row, CapTermsT(inst, cols, i, ts[..p]))
    {
      assert ts[..p + 1][..p] == ts[..p];
      AddAllAppend(row, CapTermsT(inst, cols, i, ts[..p]), CapTermsJ(inst, cols, ts[p], i, inst.M));
      r := AddCapJ(inst, cols, r, ts[p], i);
    }
    assert ts[..|ts|] == ts;
  }

  /** Eq. (9): `for i in Oj[j]: for a in Ht[t]: ...`. */
  method AddBreakI(inst: InstanceData, cols: Columns, row: RowAcc, t: int, j: int)
    returns (r: RowAcc)
    requires Ready(inst, cols)
    requires t in inst.T && j in inst.M1 && j in inst.M
    ensures r == AddAll(row, BreakTermsI(inst, cols, t, j, Get(inst.Oj, j, [])))
  {
    var ivs := inst.Oj[j];
    var avs := inst.Ht[t];
    assert forall a | a in avs :: a in inst.A by {
      assert avs == Get(inst.Ht, t, []);
    }
    r := row;
    for p := 0 to |ivs|
      invariant r == AddAll(row, BreakTermsI(inst, cols, t, j, ivs[..p]))
    {
      assert ivs[..p + 1][..p] == ivs[..p];
      assert ivs[p] in inst.Oj[j];
      AddAllAppend(row, BreakTermsI(inst, cols, t, j, ivs[..p]), AssignTerms(cols, t, ivs[p], j, avs));
      r := AddAssign(inst, cols, r, t, ivs[p], j, avs);
    }
    assert ivs[..|ivs|] == ivs;
  }

  /** Eq. (10): `for t in T: row[y_tj[(t, j)]] += c`. */
  method AddShareT(inst: InstanceData, cols: Columns, row: RowAcc, j: int, c: real)
    returns (r: RowAcc)
    requires Covers(inst, cols) && j in inst.M
    ensures r == AddAll(row, ShareTermsT(cols, j, c, inst.T))
  {
    var ts := inst.T;
    r := row;
    for p := 0 to |ts|
      invariant r == AddAll(row, ShareTermsT(cols, j, c, ts[..p]))
    {
      assert ts[..p + 1][..p] == ts[..p];
      assert ts[p] in inst.T;
      YSCovered(inst, cols, ts[p], j);
      var term := Term(cols.ys[(ts[p], j)], c);
      AddAllSnoc(row, ShareTermsT(cols, j, c, ts[..p]), term);
      r := r.Add(term);
    }
    assert ts[..|ts|] == ts;
  }

  /** Eq. (10): `for j in js: for t in T: ...`. */
  method AddShareJ(inst: InstanceData, cols: Columns, row: RowAcc, c: real, js: seq<int>)
    returns (r: RowAcc)
    requires Covers(inst, cols) && forall j | j in js :: j in inst.M
    ensures r == AddAll(row, ShareTermsJ(inst, cols, c, js))
  {
    r := row;
    for p := 0 to |js|
      invariant r == AddAll(row, ShareTermsJ(inst, cols, c, js[..p]))
    {
      assert js[..p + 1][..p] == js[..p];
      assert js[p] in js;
      AddAllAppend(row, ShareTermsJ(inst, cols, c, js[..p]), ShareTermsT(cols, js[p], c, inst.T));
      r := AddShareT(inst, cols, r, js[p], c);
    }
    assert js[..|js|] == js;
  }

  // ---------------------------------------------------------------------
  // One row dictionary per method, built from an empty `row = {}`
  // ---------------------------------------------------------------------

  /** Eqs. (2)/(3): the window updates. */
  method BuildDemandRow(inst: InstanceData, cols: Columns, ws: bool, win: Window, i: int, a: int)
    returns (acc: RowAcc)
    requires PartitionsOk(inst) && ShiftDataOk(inst) && Covers(inst, cols)
    requires a in inst.A && i in inst.N && HasWindow(inst, win, ws, a)
    ensures acc == Accumulate(DemandTerms(inst, cols, ws, win, i, a))
  {
    Horizon(inst, i);
    var until := Until(inst, win, i, a, ws);
    acc := AddWindowJ(inst, cols, EmptyRow, a, i, until);
    AccumulateIsAddAll(DemandTerms(inst, cols, ws, win, i, a));
  }

  /** Eqs. (4)/(5): the window updates, then the parents' shares subtracted. */
  method BuildDependentRow(inst: InstanceData, cols: Columns, ws: bool, win: Window, k: int, a: int)
    returns (acc: RowAcc)
    requires PartitionsOk(inst) && ShiftDataOk(inst) && ParentsOk(inst) && ParentsKnown(inst) && Covers(inst, cols)
    requires a in inst.A && a in inst.C && k in inst.N && HasWindow(inst, win, ws, a)
    ensures acc == Accumulate(DependentTerms(inst, cols, ws, win, k, a))
  {
    Horizon(inst, k);
    var until := Until(inst, win, k, a, ws);
    var window := AddWindowJ(inst, cols, EmptyRow, a, k, until);
    acc := AddParentP(inst, cols, window, a, k);
    AddAllAppend(EmptyRow, WindowTermsJ(inst, cols, a, k, until, inst.M), ParentTermsP(inst, cols, a, k, Get(inst.Ga, a, [])));
    AccumulateIsAddAll(DependentTerms(inst, cols, ws, win, k, a));
  }

  /** Eq. (6): x over i in 1..k, then y_tija over the profiles of a. */
  method BuildStaffRow(inst: InstanceData, cols: Columns, k: int, j: int, a: int)
    returns (acc: RowAcc)
    requires PartitionsOk(inst) && CapabilitiesOk(inst) && LinksOk(inst) && Covers(inst, cols)
    requires a in inst.A && j in inst.M && k in inst.N
    ensures acc == Accumulate(StaffTerms(inst, cols, k, j, a))
  {
    var execution := AddStaffX(inst, cols, EmptyRow, a, j, k);
    acc := AddStaffY(inst, cols, execution, a, j, k);
    AddAllAppend(EmptyRow, StaffXTerms(cols, a, j, k, Range(1, k + 1)), StaffYTerms(cols, a, j, k, Get(inst.Ta, a, [])));
    AccumulateIsAddAll(StaffTerms(inst, cols, k, j, a));
  }

  /** Eq. (7): y_tija over the activities of t, then y_tj[(t, j)] -= 1. */
  method BuildShiftLinkRow(inst: InstanceData, cols: Columns, i: int, j: int, t: int)
    returns (acc: RowAcc)
    requires CapabilitiesOk(inst) && LinksOk(inst) && Covers(inst, cols)
    requires t in inst.T && i in inst.N && j in inst.M
    ensures acc == Accumulate(ShiftLinkTerms(inst, cols, i, j, t))
  {
    var avs := inst.Ht[t];
    assert forall a | a in avs :: a in inst.A by {
      assert avs == Get(inst.Ht, t, []);
    }
    var staffed := AddAssign(inst, cols, EmptyRow, t, i, j, avs);
    YSCovered(inst, cols, t, j);
    var shift := Term(cols.ys[(t, j)], -1.0);
    acc := staffed.Add(shift);
    AddAllSnoc(EmptyRow, AssignTerms(cols, t, i, j, avs), shift);
    AccumulateIsAddAll(ShiftLinkTerms(inst, cols, i, j, t));
  }

  /** Eq. (8): every y_tija of interval i. */
  method BuildCapRow(inst: InstanceData, cols: Columns, i: int)
    returns (acc: RowAcc)
    requires Covers(inst, cols) && i in inst.N
    ensures acc == Accumulate(CapTermsT(inst, cols, i, inst.T))
  {
    acc := AddCapT(inst, cols, EmptyRow, i);
    AccumulateIsAddAll(CapTermsT(inst, cols, i, inst.T));
  }

  /** Eq. (9): y_tija over the break window, then y_tj[(t, j)] -= f - p. */
  method BuildBreakRow(inst: InstanceData, cols: Columns, t: int, j: int)
    returns (acc: RowAcc)
    requires Ready(inst, cols)
    requires t in inst.T && j in inst.M1 && j in inst.M
    ensures acc == Accumulate(BreakTerms(inst, cols, t, j))
  {
    var window := AddBreakI(inst, cols, EmptyRow, t, j);
    YSCovered(inst, cols, t, j);
    var shift := Term(cols.ys[(t, j)], -((inst.f - inst.p) as real));
    acc := window.Add(shift);
    AddAllSnoc(EmptyRow, BreakTermsI(inst, cols, t, j, Get(inst.Oj, j, [])), shift);
    AccumulateIsAddAll(BreakTerms(inst, cols, t, j));
  }

  /** Eq. (10): +1 on the part-time y_tj, then -w on every y_tj. */
  method BuildShareRow(inst: InstanceData, cols: Columns)
    returns (acc: RowAcc)
    requires PartitionsOk(inst) && Covers(inst, cols)
    ensures acc == Accumulate(ShareTerms(inst, cols))
  {
    assert forall j | j in inst.M2 :: j in inst.M by {
      assert forall j | j in inst.M2 :: j in Elems(inst.M2);
      assert forall j | j in Elems(inst.M) :: j in inst.M;
    }
    var partTime := AddShareJ(inst, cols, EmptyRow, 1.0, inst.M2);
    acc := AddShareJ(inst, cols, partTime, -inst.w, inst.M);
    AddAllAppend(EmptyRow, ShareTermsJ(inst, cols, 1.0, inst.M2), ShareTermsJ(inst, cols, -inst.w, inst.M));
    AccumulateIsAddAll(ShareTerms(inst, cols));
  }

  // ---------------------------------------------------------------------
  // The family loops, each appending its rows through add_row
  // ---------------------------------------------------------------------

  method AppendDemandRow(inst: InstanceData, cols: Columns, ws: bool, win: Window, i: int, a: int, csr: CsrBuilder)
    requires Ready(inst, cols) && i in inst.N && a in Independent(inst, win) && csr.Valid()
    modifies csr
    ensures csr.Valid() && HasWindow(inst, win, ws, a)
    ensures csr.rows == old(csr.rows) + [DemandRow(inst, cols, ws, win, i, a)]
  {
    IndependentMember(inst, win, ws, a);
    var acc := BuildDemandRow(inst, cols, ws, win, i, a);
    AccumulateValid(DemandTerms(inst, cols, ws, win, i, a));
    var d := inst.d[(a, i)];
    csr.AddRow(acc, Fin(d), Fin(d));
  }

  method AddDemandRowsFor(inst: InstanceData, cols: Columns, ws: bool, win: Window, i: int, csr: CsrBuilder)
    requires Ready(inst, cols) && i in inst.N && csr.Valid()
    modifies csr
    ensures csr.Valid() && WindowsKnown(inst, win, ws, Independent(inst, win))
    ensures csr.rows == old(csr.rows) + DemandRowsA(inst, cols, ws, win, i, Independent(inst, win))
  {
    var acts := Independent(inst, win);
    IndependentKnown(inst, win, ws);
    ghost var rows0 := csr.rows;
    for p := 0 to |acts|
      invariant csr.Valid() && WindowsKnown(inst, win, ws, acts[..p])
      invariant csr.rows == rows0 + DemandRowsA(inst, cols, ws, win, i, acts[..p])
    {
      DemandRowsAStep(inst, cols, ws, win, i, acts, p, rows0);
      AppendDemandRow(inst, cols, ws, win, i, acts[p], csr);
    }
    assert acts[..|acts|] == acts;
  }

  /** Eq. (2) (Deadline) or Eq. (3) (Release). */
  method AddDemandRows(inst: InstanceData, cols: Columns, ws: bool, win: Window, csr: CsrBuilder)
    requires Ready(inst, cols) && csr.Valid()
    modifies csr
    ensures csr.Valid() && WindowsKnown(inst, win, ws, Independent(inst, win))
    ensures csr.rows == old(csr.rows) + DemandRowsI(inst, cols, ws, win, inst.N)
  {
    IndependentKnown(inst, win, ws);
    var ivs := inst.N;
    ghost var rows0 := csr.rows;
    for p := 0 to |ivs|
      invariant csr.Valid()
      invariant csr.rows == rows0 + DemandRowsI(inst, cols, ws, win, ivs[..p])
    {
      DemandRowsIStep(inst, cols, ws, win, ivs, p, rows0);
      assert ivs[p] in inst.N;
      AddDemandRowsFor(inst, cols, ws, win, ivs[p], csr);
    }
    assert ivs[..|ivs|] == ivs;
  }

  method AppendDependentRow(inst: InstanceData, cols: Columns, ws: bool, win: Window, k: int, a: int, csr: CsrBuilder)
    requires Ready(inst, cols) && k in inst.N && a in Dependent(inst, win) && csr.Valid()
    modifies csr
    ensures csr.Valid() && HasWindow(inst, win, ws, a)
    ensures csr.rows == old(csr.rows) + [DependentRow(inst, cols, ws, win, k, a)]
  {
    DependentMember(inst, win, ws, a);
    var acc := BuildDependentRow(inst, cols, ws, win, k, a);
    AccumulateValid(DependentTerms(inst, cols, ws, win, k, a));
    csr.AddRow(acc, Fin(0.0), PosInf);
  }

  method AddDependentRowsFor(inst: InstanceData, cols: Columns, ws: bool, win: Window, k: int, csr: CsrBuilder)
    requires Ready(inst, cols) && k in inst.N && csr.Valid()
    modifies csr
    ensures csr.Valid() && WindowsKnown(inst, win, ws, Dependent(inst, win))
    ensures csr.rows == old(csr.rows) + DependentRowsA(inst, cols, ws, win, k, Dependent(inst, win))
  {
    var acts := Dependent(inst, win);
    DependentKnown(inst, win, ws);
    ghost var rows0 := csr.rows;
    for p := 0 to |acts|
      invariant csr.Valid() && WindowsKnown(inst, win, ws, acts[..p])
      invariant csr.rows == rows0 + DependentRowsA(inst, cols, ws, win, k, acts[..p])
    {
      DependentRowsAStep(inst, cols, ws, win, k, acts, p, rows0);
      AppendDependentRow(inst, cols, ws, win, k, acts[p], csr);
    }
    assert acts[..|acts|] == acts;
  }

  /** Eq. (4) (Deadline) or Eq. (5) (Release). */
  method AddDependentRows(inst: InstanceData, cols: Columns, ws: bool, win: Window, csr: CsrBuilder)
    requires Ready(inst, cols) && csr.Valid()
    modifies csr
    ensures csr.Valid() && WindowsKnown(inst, win, ws, Dependent(inst, win))
    ensures csr.rows == old(csr.rows) + DependentRowsK(inst, cols, ws, win, inst.N)
  {
    DependentKnown(inst, win, ws);
    var ks := inst.N;
    ghost var rows0 := csr.rows;
    for p := 0 to |ks|
      invariant csr.Valid()
      invariant csr.rows == rows0 + DependentRowsK(inst, cols, ws, win, ks[..p])
    {
      DependentRowsKStep(inst, cols, ws, win, ks, p, rows0);
      assert ks[p] in inst.N;
      AddDependentRowsFor(inst, cols, ws, win, ks[p], csr);
    }
    assert ks[..|ks|] == ks;
  }

  method AppendStaffRow(inst: InstanceData, cols: Columns, k: int, j: int, a: int, csr: CsrBuilder)
    requires Ready(inst, cols) && k in inst.N && j in inst.M && a in inst.A && csr.Valid()
    modifies csr
    ensures csr.Valid() && csr.rows == old(csr.rows) + [StaffRow(inst, cols, k, j, a)]
  {
    var acc := BuildStaffRow(inst, cols, k, j, a);
    AccumulateValid(StaffTerms(inst, cols, k, j, a));
    csr.AddRow(acc, NegInf, Fin(0.0));
  }

  method AddStaffRowsA(inst: InstanceData, cols: Columns, k: int, j: int, csr: CsrBuilder)
    requires Ready(inst, cols) && k in inst.N && j in inst.M && csr.Valid()
    modifies csr
    ensures csr.Valid() && csr.rows == old(csr.rows) + StaffRowsA(inst, cols, k, j, inst.A)
  {
    var avs := inst.A;
    ghost var rows0 := csr.rows;
    for p := 0 to |avs|
      invariant csr.Valid()
      invariant csr.rows == rows0 + StaffRowsA(inst, cols, k, j, avs[..p])
    {
      StaffRowsAStep(inst, cols, k, j, avs, p, rows0);
      assert avs[p] in inst.A;
      AppendStaffRow(inst, cols, k, j, avs[p], csr);
    }
    assert avs[..|avs|] == avs;
  }

  method AddStaffRowsJ(inst: InstanceData, cols: Columns, k: int, csr: CsrBuilder)
    requires Ready(inst, cols) && k in inst.N && csr.Valid()
    modifies csr
    ensures csr.Valid() && csr.rows == old(csr.rows) + StaffRowsJ(inst, cols, k, inst.M)
  {
    var js := inst.M;
    ghost var rows0 := csr.rows;
    for p := 0 to |js|
      invariant csr.Valid()
      invariant csr.rows == rows0 + StaffRowsJ(inst, cols, k, js[..p])
    {
      StaffRowsJStep(inst, cols, k, js, p, rows0);
      assert js[p] in inst.M;
      AddStaffRowsA(inst, cols, k, js[p], csr);
    }
    assert js[..|js|] == js;
  }

  /** Eq. (6). */
  method AddStaffRows(inst: InstanceData, cols: Columns, csr: CsrBuilder)
    requires Ready(inst, cols) && csr.Valid()
    modifies csr
    ensures csr.Valid() && csr.rows == old(csr.rows) + StaffRowsK(inst, cols, inst.N)
  {
    var ks := inst.N;
    ghost var rows0 := csr.rows;
    for p := 0 to |ks|
      invariant csr.Valid()
      invariant csr.rows == rows0 + StaffRowsK(inst, cols, ks[..p])
    {
      StaffRowsKStep(inst, cols, ks, p, rows0);
      assert ks[p] in inst.N;
      AddStaffRowsJ(inst, cols, ks[p], csr);
    }
    assert ks[..|ks|] == ks;
  }

  method AppendShiftLinkRow(inst: InstanceData, cols: Columns, i: int, j: int, t: int, csr: CsrBuilder)
    requires Ready(inst, cols) && i in inst.N && j in inst.M && t in inst.T && csr.Valid()
    modifies csr
    ensures csr.Valid() && csr.rows == old(csr.rows) + [ShiftLinkRow(inst, cols, i, j, t)]
  {
    var acc := BuildShiftLinkRow(inst, cols, i, j, t);
    AccumulateValid(ShiftLinkTerms(inst, cols, i, j, t));
    csr.AddRow(acc, NegInf, Fin(0.0));
  }

  method AddShiftLinkRowsT(inst: InstanceData, cols: Columns, i: int, j: int, csr: CsrBuilder)
    requires Ready(inst, cols) && i in inst.N && j in inst.M && csr.Valid()
    modifies csr
    ensures csr.Valid() && csr.rows == old(csr.rows) + ShiftLinkRowsT(inst, cols, i, j, inst.T)
  {
    var ts := inst.T;
    ghost var rows0 := csr.rows;
    for p := 0 to |ts|
      invariant csr.Valid()
      invariant csr.rows == rows0 + ShiftLinkRowsT(inst, cols, i, j, ts[..p])
    {
      ShiftLinkRowsTStep(inst, cols, i, j, ts, p, rows0);
      assert ts[p] in inst.T;
      AppendShiftLinkRow(inst, cols, i, j, ts[p], csr);
    }
    assert ts[..|ts|] == ts;
  }

  method AddShiftLinkRowsJ(inst: InstanceData, cols: Columns, i: int, csr: CsrBuilder)
    requires Ready(inst, cols) && i in inst.N && csr.Valid()
    modifies csr
    ensures csr.Valid() && csr.rows == old(csr.rows) + ShiftLinkRowsJ(inst, cols, i, inst.M)
  {
    var js := inst.M;
    ghost var rows0 := csr.rows;
    for p := 0 to |js|
      invariant csr.Valid()
      invariant csr.rows == rows0 + ShiftLinkRowsJ(inst, cols, i, js[..p])
    {
      ShiftLinkRowsJStep(inst, cols, i, js, p, rows0);
      assert js[p] in inst.M;
      AddShiftLinkRowsT(inst, cols, i, js[p], csr);
    }
    assert js[..|js|] == js;
  }

  /** Eq. (7). */
  method AddShiftLinkRows(inst: InstanceData, cols: Columns, csr: CsrBuilder)
    requires Ready(inst, cols) && csr.Valid()
    modifies csr
    ensures csr.Valid() && csr.rows == old(csr.rows) + ShiftLinkRowsI(inst, cols, inst.N)
  {
    var ivs := inst.N;
    ghost var rows0 := csr.rows;
    for p := 0 to |ivs|
      invariant csr.Valid()
      invariant csr.rows == rows0 + ShiftLinkRowsI(inst, cols, ivs[..p])
    {
      ShiftLinkRowsIStep(inst, cols, ivs, p, rows0);
      assert ivs[p] in inst.N;
      AddShiftLinkRowsJ(inst, cols, ivs[p], csr);
    }
    assert ivs[..|ivs|] == ivs;
  }

  method AppendCapRow(inst: InstanceData, cols: Columns, i: int, csr: CsrBuilder)
    requires Ready(inst, cols) && i in inst.N && csr.Valid()
    modifies csr
    ensures csr.Valid() && csr.rows == old(csr.rows) + [CapRow(inst, cols, i)]
  {
    var acc := BuildCapRow(inst, cols, i);
    AccumulateValid(CapTermsT(inst, cols, i, inst.T));
    csr.AddRow(acc, NegInf, Fin(inst.q as real));
  }

  /** Eq. (8). */
  method AddCapRows(inst: InstanceData, cols: Columns, csr: CsrBuilder)
    requires Ready(inst, cols) && csr.Valid()
    modifies csr
    ensures csr.Valid() && csr.rows == old(csr.rows) + CapRows(inst, cols, inst.N)
  {
    var ivs := inst.N;
    ghost var rows0 := csr.rows;
    for p := 0 to |ivs|
      invariant csr.Valid()
      invariant csr.rows == rows0 + CapRows(inst, cols, ivs[..p])
    {
      CapRowsStep(inst, cols, ivs, p, rows0);
      assert ivs[p] in inst.N;
      AppendCapRow(inst, cols, ivs[p], csr);
    }
    assert ivs[..|ivs|] == ivs;
  }

  method AppendBreakRow(inst: InstanceData, cols: Columns, t: int, j: int, csr: CsrBuilder)
    requires Ready(inst, cols) && t in inst.T && j in inst.M1 && csr.Valid()
    modifies csr
    ensures csr.Valid() && csr.rows == old(csr.rows) + [BreakRow(inst, cols, t, j)]
  {
    assert j in inst.M by {
      assert j in Elems(inst.M1);
      assert j in Elems(inst.M);
    }
    var acc := BuildBreakRow(inst, cols, t, j);
    AccumulateValid(BreakTerms(inst, cols, t, j));
    csr.AddRow(acc, NegInf, Fin(0.0));
  }

  method AddBreakRowsJ(inst: InstanceData, cols: Columns, t: int, csr: CsrBuilder)
    requires Ready(inst, cols) && t in inst.T && csr.Valid()
    modifies csr
    ensures csr.Valid() && csr.rows == old(csr.rows) + BreakRowsJ(inst, cols, t, inst.M1)
  {
    var js := inst.M1;
    ghost var rows0 := csr.rows;
    for p := 0 to |js|
      invariant csr.Valid()
      invariant csr.rows == rows0 + BreakRowsJ(inst, cols, t, js[..p])
    {
      BreakRowsJStep(inst, cols, t, js, p, rows0);
      assert js[p] in inst.M1;
      AppendBreakRow(inst, cols, t, js[p], csr);
    }
    assert js[..|js|] == js;
  }

  /** Eq. (9). */
  method AddBreakRows(inst: InstanceData, cols: Columns, csr: CsrBuilder)
    requires Ready(inst, cols) && csr.Valid()
    modifies csr
    ensures csr.Valid() && csr.rows == old(csr.rows) + BreakRowsT(inst, cols, inst.T)
  {
    var ts := inst.T;
    ghost var rows0 := csr.rows;
    for p := 0 to |ts|
      invariant csr.Valid()
      invariant csr.rows == rows0 + BreakRowsT(inst, cols, ts[..p])
    {
      BreakRowsTStep(inst, cols, ts, p, rows0);
      assert ts[p] in inst.T;
      AddBreakRowsJ(inst, cols, ts[p], csr);
    }
    assert ts[..|ts|] == ts;
  }
}
