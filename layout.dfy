// The shape of the constraint matrix build_waes_model emits (src/build_waes.py):
// the rows of every family in order with their bounds, the row count, the
// well-formed CSR payload, and what the WS build shares with the WAES build.
module Layout {
  import opened Seqs
  import opened Instance
  import opened Csr
  import opened Catalog
  import opened Rows
  import opened Encoder
  import opened Waes

  // ---------------------------------------------------------------------
  // The innermost loop of each family appends one row per element, in order
  // ---------------------------------------------------------------------

  /** Eqs. (2)/(3), one interval: one row per activity a, each the equality `= d[(a, i)]`. */
  lemma {:induction false} DemandRowsABounds(inst: InstanceData, cols: Columns, ws: bool, win: Window, i: int, avs: seq<int>)
    requires WindowsKnown(inst, win, ws, avs)
    ensures |DemandRowsA(inst, cols, ws, win, i, avs)| == |avs|
    ensures forall r | r in DemandRowsA(inst, cols, ws, win, i, avs) ::
      exists a | a in avs :: r.lb == Fin(Get(inst.d, (a, i), 0.0)) && r.ub == r.lb
  {
    if avs != [] {
      var init := avs[..|avs| - 1];
      assert forall a | a in init :: a in avs;
      DemandRowsABounds(inst, cols, ws, win, i, init);
      assert avs[|avs| - 1] in avs;
    }
  }

  /** Eqs. (4)/(5), one interval: one row per activity, each with bounds [0, inf). */
  lemma {:induction false} DependentRowsABounds(inst: InstanceData, cols: Columns, ws: bool, win: Window, k: int, avs: seq<int>)
    requires WindowsKnown(inst, win, ws, avs)
    ensures |DependentRowsA(inst, cols, ws, win, k, avs)| == |avs|
    ensures forall r | r in DependentRowsA(inst, cols, ws, win, k, avs) :: r.lb == Fin(0.0) && r.ub == PosInf
  {
    if avs != [] {
      var init := avs[..|avs| - 1];
      assert forall a | a in init :: a in avs;
      DependentRowsABounds(inst, cols, ws, win, k, init);
      assert avs[|avs| - 1] in avs;
    }
  }

  /** Eq. (6), one (k, j): one row per activity, each with bounds (-inf, 0]. */
  lemma {:induction false} StaffRowsABounds(inst: InstanceData, cols: Columns, k: int, j: int, avs: seq<int>)
    ensures |StaffRowsA(inst, cols, k, j, avs)| == |avs|
    ensures forall r | r in StaffRowsA(inst, cols, k, j, avs) :: r.lb == NegInf && r.ub == Fin(0.0)
  {
    if avs != [] {
      var init := avs[..|avs| - 1];
      StaffRowsABounds(inst, cols, k, j, init);
    }
  }

  /** Eq. (7), one (i, j): one row per shift, each with bounds (-inf, 0]. */
  lemma {:induction false} ShiftLinkRowsTBounds(inst: InstanceData, cols: Columns, i: int, j: int, ts: seq<int>)
    ensures |ShiftLinkRowsT(inst, cols, i, j, ts)| == |ts|
    ensures forall r | r in ShiftLinkRowsT(inst, cols, i, j, ts) :: r.lb == NegInf && r.ub == Fin(0.0)
  {
    if ts != [] {
      var init := ts[..|ts| - 1];
      ShiftLinkRowsTBounds(inst, cols, i, j, init);
    }
  }

  /** Eq. (9), one shift: one row per full-time day type, each with bounds (-inf, 0]. */
  lemma {:induction false} BreakRowsJBounds(inst: InstanceData, cols: Columns, t: int, js: seq<int>)
    ensures |BreakRowsJ(inst, cols, t, js)| == |js|
    ensures forall r | r in BreakRowsJ(inst, cols, t, js) :: r.lb == NegInf && r.ub == Fin(0.0)
  {
    if js != [] {
      var init := js[..|js| - 1];
      BreakRowsJBounds(inst, cols, t, init);
    }
  }

  /** Eq. (8): one row per interval, each with bounds (-inf, q]. */
  lemma {:induction false} CapRowsShape(inst: InstanceData, cols: Columns, ivs: seq<int>)
    ensures |CapRows(inst, cols, ivs)| == |ivs|
    ensures forall r | r in CapRows(inst, cols, ivs) :: r.lb == NegInf && r.ub == Fin(inst.q as real)
  {
    if ivs != [] {
      CapRowsShape(inst, cols, ivs[..|ivs| - 1]);
    }
  }

  // ---------------------------------------------------------------------
  // Each family's size and bounds
  // ---------------------------------------------------------------------

  /** Eqs. (2)/(3): one row per (i, a), each an equality `lb = ub` with a finite right-hand side. */
  lemma {:induction false} DemandRowsShape(inst: InstanceData, cols: Columns, ws: bool, win: Window, ivs: seq<int>)
    requires WindowsKnown(inst, win, ws, Independent(inst, win))
    ensures |DemandRowsI(inst, cols, ws, win, ivs)| == |ivs| * |Independent(inst, win)|
    ensures forall r | r in DemandRowsI(inst, cols, ws, win, ivs) :: r.lb.Fin? && r.lb == r.ub
  {
    if ivs != [] {
      var acts := Independent(inst, win);
      DemandRowsShape(inst, cols, ws, win, ivs[..|ivs| - 1]);
      DemandRowsABounds(inst, cols, ws, win, ivs[|ivs| - 1], acts);
      assert |ivs| * |acts| == (|ivs| - 1) * |acts| + |acts|;
    }
  }

  /** Eqs. (4)/(5): one row per (k, a), each with bounds [0, inf). */
  lemma {:induction false} DependentRowsShape(inst: InstanceData, cols: Columns, ws: bool, win: Window, ks: seq<int>)
    requires WindowsKnown(inst, win, ws, Dependent(inst, win))
    ensures |DependentRowsK(inst, cols, ws, win, ks)| == |ks| * |Dependent(inst, win)|
    ensures forall r | r in DependentRowsK(inst, cols, ws, win, ks) :: r.lb == Fin(0.0) && r.ub == PosInf
  {
    if ks != [] {
      var acts := Dependent(inst, win);
      DependentRowsShape(inst, cols, ws, win, ks[..|ks| - 1]);
      DependentRowsABounds(inst, cols, ws, win, ks[|ks| - 1], acts);
      assert |ks| * |acts| == (|ks| - 1) * |acts| + |acts|;
    }
  }

  lemma {:induction false} StaffRowsJShape(inst: InstanceData, cols: Columns, k: int, js: seq<int>)
    ensures |StaffRowsJ(inst, cols, k, js)| == |js| * |inst.A|
    ensures forall r | r in StaffRowsJ(inst, cols, k, js) :: r.lb == NegInf && r.ub == Fin(0.0)
  {
    if js != [] {
      StaffRowsJShape(inst, cols, k, js[..|js| - 1]);
      StaffRowsABounds(inst, cols, k, js[|js| - 1], inst.A);
      assert |js| * |inst.A| == (|js| - 1) * |inst.A| + |inst.A|;
    }
  }

  /** Eq. (6): one row per (k, j, a), each with bounds (-inf, 0]. */
  lemma {:induction false} StaffRowsShape(inst: InstanceData, cols: Columns, ks: seq<int>)
    ensures |StaffRowsK(inst, cols, ks)| == |ks| * (|inst.M| * |inst.A|)
    ensures forall r | r in StaffRowsK(inst, cols, ks) :: r.lb == NegInf && r.ub == Fin(0.0)
  {
    if ks != [] {
      StaffRowsShape(inst, cols, ks[..|ks| - 1]);
      StaffRowsJShape(inst, cols, ks[|ks| - 1], inst.M);
      assert |ks| * (|inst.M| * |inst.A|) == (|ks| - 1) * (|inst.M| * |inst.A|) + (|inst.M| * |inst.A|);
    }
  }

  lemma {:induction false} ShiftLinkRowsJShape(inst: InstanceData, cols: Columns, i: int, js: seq<int>)
    ensures |ShiftLinkRowsJ(inst, cols, i, js)| == |js| * |inst.T|
    ensures forall r | r in ShiftLinkRowsJ(inst, cols, i, js) :: r.lb == NegInf && r.ub == Fin(0.0)
  {
    if js != [] {
      ShiftLinkRowsJShape(inst, cols, i, js[..|js| - 1]);
      ShiftLinkRowsTBounds(inst, cols, i, js[|js| - 1], inst.T);
      assert |js| * |inst.T| == (|js| - 1) * |inst.T| + |inst.T|;
    }
  }

  /** Eq. (7): one row per (i, j, t), each with bounds (-inf, 0]. */
  lemma {:induction false} ShiftLinkRowsShape(inst: InstanceData, cols: Columns, ivs: seq<int>)
    ensures |ShiftLinkRowsI(inst, cols, ivs)| == |ivs| * (|inst.M| * |inst.T|)
    ensures forall r | r in ShiftLinkRowsI(inst, cols, ivs) :: r.lb == NegInf && r.ub == Fin(0.0)
  {
    if ivs != [] {
      ShiftLinkRowsShape(inst, cols, ivs[..|ivs| - 1]);
      ShiftLinkRowsJShape(inst, cols, ivs[|ivs| - 1], inst.M);
      assert |ivs| * (|inst.M| * |inst.T|) == (|ivs| - 1) * (|inst.M| * |inst.T|) + (|inst.M| * |inst.T|);
    }
  }

  /** Eq. (9): one row per (t, j) with j full-time, each with bounds (-inf, 0]. */
  lemma {:induction false} BreakRowsShape(inst: InstanceData, cols: Columns, ts: seq<int>)
    ensures |BreakRowsT(inst, cols, ts)| == |ts| * |inst.M1|
    ensures forall r | r in BreakRowsT(inst, cols, ts) :: r.lb == NegInf && r.ub == Fin(0.0)
  {
    if ts != [] {
      BreakRowsShape(inst, cols, ts[..|ts| - 1]);
      BreakRowsJBounds(inst, cols, ts[|ts| - 1], inst.M1);
      assert |ts| * |inst.M1| == (|ts| - 1) * |inst.M1| + |inst.M1|;
    }
  }

  // ---------------------------------------------------------------------
  // The whole matrix
  // ---------------------------------------------------------------------

  /**
   * The row count n·(|B∩A1| + |B∩A2| + |C∩A1| + |C∩A2|) + n·|M|·|A| + n·|M|·|T| + n + |T|·|M1| + 1,
   * the set intersections taken without repetitions; n is |N|, the number of intervals the loops
   * run over, which is the horizon n whenever n is not negative.
   */
  lemma RowCount(inst: InstanceData, cols: Columns, ws: bool)
    requires PartitionsOk(inst) && EncodableWindows(inst, ws)
    ensures inst.n >= 0 ==> |inst.N| == inst.n
    ensures |EncoderRows(inst, cols, ws)| ==
      |inst.N| * |Elems(inst.B) * Elems(inst.A1)| + |inst.N| * |Elems(inst.B) * Elems(inst.A2)|
      + |inst.N| * |Elems(inst.C) * Elems(inst.A1)| + |inst.N| * |Elems(inst.C) * Elems(inst.A2)|
      + |inst.N| * (|inst.M| * |inst.A|) + |inst.N| * (|inst.M| * |inst.T|) + |inst.N| + |inst.T| * |inst.M1| + 1
  {
    FamilySizes(inst, cols, ws);
    EncoderRowsLength(inst, cols, ws);
    IntersectionCards(inst);
  }

  /** The sizes of the eight families that run over the loops. */
  lemma FamilySizes(inst: InstanceData, cols: Columns, ws: bool)
    requires EncodableWindows(inst, ws)
    ensures |DemandRowsI(inst, cols, ws, Deadline, inst.N)| == |inst.N| * |Independent(inst, Deadline)|
    ensures |DemandRowsI(inst, cols, ws, Release, inst.N)| == |inst.N| * |Independent(inst, Release)|
    ensures |DependentRowsK(inst, cols, ws, Deadline, inst.N)| == |inst.N| * |Dependent(inst, Deadline)|
    ensures |DependentRowsK(inst, cols, ws, Release, inst.N)| == |inst.N| * |Dependent(inst, Release)|
    ensures |StaffRowsK(inst, cols, inst.N)| == |inst.N| * (|inst.M| * |inst.A|)
    ensures |ShiftLinkRowsI(inst, cols, inst.N)| == |inst.N| * (|inst.M| * |inst.T|)
    ensures |CapRows(inst, cols, inst.N)| == |inst.N|
    ensures |BreakRowsT(inst, cols, inst.T)| == |inst.T| * |inst.M1|
  {
    DemandRowsShape(inst, cols, ws, Deadline, inst.N);
    DemandRowsShape(inst, cols, ws, Release, inst.N);
    DependentRowsShape(inst, cols, ws, Deadline, inst.N);
    DependentRowsShape(inst, cols, ws, Release, inst.N);
    StaffRowsShape(inst, cols, inst.N);
    ShiftLinkRowsShape(inst, cols, inst.N);
    CapRowsShape(inst, cols, inst.N);
    BreakRowsShape(inst, cols, inst.T);
  }

  /** The matrix is the nine families one after another. */
  lemma EncoderRowsLength(inst: InstanceData, cols: Columns, ws: bool)
    requires EncodableWindows(inst, ws)
    ensures |EncoderRows(inst, cols, ws)| ==
      |DemandRowsI(inst, cols, ws, Deadline, inst.N)| + |DemandRowsI(inst, cols, ws, Release, inst.N)|
      + |DependentRowsK(inst, cols, ws, Deadline, inst.N)| + |DependentRowsK(inst, cols, ws, Release, inst.N)|
      + |StaffRowsK(inst, cols, inst.N)| + |ShiftLinkRowsI(inst, cols, inst.N)|
      + |CapRows(inst, cols, inst.N)| + |BreakRowsT(inst, cols, inst.T)| + 1
  {
  }

  /** The four activity lists hold the set intersections once each. */
  lemma IntersectionCards(inst: InstanceData)
    ensures |Independent(inst, Deadline)| == |Elems(inst.B) * Elems(inst.A1)|
    ensures |Independent(inst, Release)| == |Elems(inst.B) * Elems(inst.A2)|
    ensures |Dependent(inst, Deadline)| == |Elems(inst.C) * Elems(inst.A1)|
    ensures |Dependent(inst, Release)| == |Elems(inst.C) * Elems(inst.A2)|
  {
    IncreasingCard(Independent(inst, Deadline));
    IncreasingCard(Independent(inst, Release));
    IncreasingCard(Dependent(inst, Deadline));
    IncreasingCard(Dependent(inst, Release));
  }

  /** The bounds of a list of rows, in order. */
  function BoundsOf(rows: seq<Row>): (bs: seq<(Bound, Bound)>)
    ensures |bs| == |rows|
  {
    if rows == [] then [] else BoundsOf(rows[..|rows| - 1]) + [(rows[|rows| - 1].lb, rows[|rows| - 1].ub)]
  }

  lemma {:induction false} BoundsOfAppend(r1: seq<Row>, r2: seq<Row>)
    ensures BoundsOf(r1 + r2) == BoundsOf(r1) + BoundsOf(r2)
  {
    if r2 != [] {
      assert (r1 + r2)[..|r1 + r2| - 1] == r1 + r2[..|r2| - 1];
      BoundsOfAppend(r1, r2[..|r2| - 1]);
    } else {
      assert r1 + r2 == r1;
    }
  }

  lemma {:induction false} BoundsOfAt(rows: seq<Row>)
    ensures forall p | 0 <= p < |rows| :: BoundsOf(rows)[p] == (rows[p].lb, rows[p].ub)
  {
    if rows != [] {
      BoundsOfAt(rows[..|rows| - 1]);
    }
  }

  // ---------------------------------------------------------------------
  // The CSR payload of a built model
  // ---------------------------------------------------------------------

  /**
   * The payload of a built model is well-formed CSR: one offset per row plus one, starting
   * at 0 and never decreasing, ending at len(indices) = len(values); column indices strictly
   * increase within each row; every emitted coefficient exceeds the drop threshold in size.
   */
  lemma PayloadWellFormed(inst: InstanceData, ws: bool, m: WaesModel, solverConfig: seq<SolverOption>)
    requires Encodes(inst, ws, m)
    ensures var pl := ToServerPayload(m, solverConfig);
      var rows := |EncoderRows(inst, CatalogColumns(inst), ws)|;
      && |pl.csrOffsets| == rows + 1 && |pl.constraintLower| == rows && |pl.constraintUpper| == rows
      && pl.csrOffsets[0] == 0
      && pl.csrOffsets[rows] == |pl.csrIndices| == |pl.csrValues|
      && (forall r, r2 | 0 <= r <= r2 <= rows :: pl.csrOffsets[r] <= pl.csrOffsets[r2])
      && (forall r | 0 <= r < rows :: StrictlyIncreasing(pl.csrIndices[pl.csrOffsets[r]..pl.csrOffsets[r + 1]]))
      && (forall p | 0 <= p < |pl.csrValues| :: Abs(pl.csrValues[p]) > DropEps)
      && |pl.variableNames| == |pl.variableTypes| == |pl.objectiveCoeffs| == |pl.variableLower| == |pl.variableUpper|
  {
    CsrWellFormed(m.offsets, m.indices, m.values, m.conLower, m.conUpper,
                  EncoderRows(inst, CatalogColumns(inst), ws), DropEps);
  }

  // ---------------------------------------------------------------------
  // One model per instance and mode
  // ---------------------------------------------------------------------

  /** Given the rows, the offsets are fixed: each row's segment is as long as its emission. */
  lemma {:induction false} OffsetsDetermined(o1: seq<int>, i1: seq<int>, v1: seq<real>, l1: seq<Bound>, u1: seq<Bound>,
                                             o2: seq<int>, i2: seq<int>, v2: seq<real>, l2: seq<Bound>, u2: seq<Bound>,
                                             rows: seq<Row>, eps: real, n: nat)
    requires IsCsrOf(o1, i1, v1, l1, u1, rows, eps) && IsCsrOf(o2, i2, v2, l2, u2, rows, eps)
    requires n <= |rows|
    ensures forall r | 0 <= r <= n :: o1[r] == o2[r]
  {
    if n > 0 {
      OffsetsDetermined(o1, i1, v1, l1, u1, o2, i2, v2, l2, u2, rows, eps, n - 1);
      assert SegmentOf(o1, i1, v1, l1, u1, rows, eps, n - 1);
      assert SegmentOf(o2, i2, v2, l2, u2, rows, eps, n - 1);
      assert |i1[o1[n - 1]..o1[n]]| == |i2[o2[n - 1]..o2[n]]|;
    }
  }

  /** The CSR arrays of a list of rows are unique. */
  lemma CsrDetermined(o1: seq<int>, i1: seq<int>, v1: seq<real>, l1: seq<Bound>, u1: seq<Bound>,
                      o2: seq<int>, i2: seq<int>, v2: seq<real>, l2: seq<Bound>, u2: seq<Bound>,
                      rows: seq<Row>, eps: real)
    requires IsCsrOf(o1, i1, v1, l1, u1, rows, eps) && IsCsrOf(o2, i2, v2, l2, u2, rows, eps)
    ensures o1 == o2 && i1 == i2 && v1 == v2 && l1 == l2 && u1 == u2
  {
    OffsetsDetermined(o1, i1, v1, l1, u1, o2, i2, v2, l2, u2, rows, eps, |rows|);
    assert o1 == o2;
    forall r | 0 <= r < |rows| ensures l1[r] == l2[r] && u1[r] == u2[r] {
      assert SegmentOf(o1, i1, v1, l1, u1, rows, eps, r);
      assert SegmentOf(o2, i2, v2, l2, u2, rows, eps, r);
    }
    forall p | 0 <= p < |i1| ensures i1[p] == i2[p] && v1[p] == v2[p] {
      var r := RowOf(o1, |rows|, p);
      assert SegmentOf(o1, i1, v1, l1, u1, rows, eps, r);
      assert SegmentOf(o2, i2, v2, l2, u2, rows, eps, r);
      assert i1[p] == i1[o1[r]..o1[r + 1]][p - o1[r]];
      assert i2[p] == i2[o2[r]..o2[r + 1]][p - o2[r]];
      assert v1[p] == v1[o1[r]..o1[r + 1]][p - o1[r]];
      assert v2[p] == v2[o2[r]..o2[r + 1]][p - o2[r]];
    }
  }

  /** The variable lists are fixed by the catalog. */
  lemma VariablesDetermined(inst: InstanceData, m1: WaesModel, m2: WaesModel)
    requires m1.names == m2.names && VariablesConform(inst, m1) && VariablesConform(inst, m2)
    ensures m1.types == m2.types && m1.objective == m2.objective
    ensures m1.varLower == m2.varLower && m1.varUpper == m2.varUpper
  {
  }

  /** build_waes_model is a function of the instance and the mode: two encodings of the same pair are equal. */
  lemma EncodesUnique(inst: InstanceData, ws: bool, m1: WaesModel, m2: WaesModel)
    requires Encodes(inst, ws, m1) && Encodes(inst, ws, m2)
    ensures m1 == m2
  {
    VariablesDetermined(inst, m1, m2);
    CsrDetermined(m1.offsets, m1.indices, m1.values, m1.conLower, m1.conUpper,
                  m2.offsets, m2.indices, m2.values, m2.conLower, m2.conUpper,
                  EncoderRows(inst, CatalogColumns(inst), ws), DropEps);
  }
}
