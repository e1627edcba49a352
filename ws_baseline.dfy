// The WS baseline (src/build_ws.py): the WAES build with ws_mode on, so that
// every end-of-shift window collapses to the interval itself. The baseline
// shares the variables, the row count and every row's bounds with the WAES
// build; only the coefficients of Eqs. (2)-(5) differ.
module WsBaseline {
  import opened Seqs
  import opened Instance
  import opened Csr
  import opened Catalog
  import opened Rows
  import opened Encoder
  import opened Waes
  import opened Layout

  /** build_ws_model: build_waes_model with ws_mode set. */
  method BuildWsModel(inst: InstanceData) returns (m: WaesModel)
    requires WellFormed(inst) && ParentsKnown(inst)
    ensures Encodes(inst, true, m) && m.wsMode
  {
    m := BuildWaesModel(inst, true);
  }

  /** The WS baseline is the WAES build with ws_mode on, whatever method computed it. */
  lemma WsIsWaes(inst: InstanceData, m1: WaesModel, m2: WaesModel)
    requires Encodes(inst, true, m1) && Encodes(inst, true, m2)
    ensures m1 == m2
  {
    EncodesUnique(inst, true, m1, m2);
  }

  // ---------------------------------------------------------------------
  // The bounds of a row do not depend on the window
  // ---------------------------------------------------------------------

  lemma BoundsOfCongruent(a1: seq<Row>, a2: seq<Row>, b1: seq<Row>, b2: seq<Row>)
    requires BoundsOf(a1) == BoundsOf(a2) && BoundsOf(b1) == BoundsOf(b2)
    ensures BoundsOf(a1 + b1) == BoundsOf(a2 + b2)
  {
    BoundsOfAppend(a1, b1);
    BoundsOfAppend(a2, b2);
  }

  /** Eqs. (2)/(3), one interval: the WS rows have the WAES rows' right-hand sides. */
  lemma {:induction false} DemandBoundsAgreeA(inst: InstanceData, cols: Columns, win: Window, i: int, avs: seq<int>)
    requires WindowsKnown(inst, win, false, avs)
    ensures BoundsOf(DemandRowsA(inst, cols, true, win, i, avs)) == BoundsOf(DemandRowsA(inst, cols, false, win, i, avs))
  {
    if avs != [] {
      var init := avs[..|avs| - 1];
      assert forall a | a in init :: a in avs;
      assert avs[|avs| - 1] in avs;
      DemandBoundsAgreeA(inst, cols, win, i, init);
      BoundsOfCongruent(DemandRowsA(inst, cols, true, win, i, init), DemandRowsA(inst, cols, false, win, i, init),
                        [DemandRow(inst, cols, true, win, i, avs[|avs| - 1])],
                        [DemandRow(inst, cols, false, win, i, avs[|avs| - 1])]);
    }
  }

  lemma {:induction false} DemandBoundsAgree(inst: InstanceData, cols: Columns, win: Window, ivs: seq<int>)
    requires WindowsKnown(inst, win, false, Independent(inst, win))
    ensures BoundsOf(DemandRowsI(inst, cols, true, win, ivs)) == BoundsOf(DemandRowsI(inst, cols, false, win, ivs))
  {
    if ivs != [] {
      var init := ivs[..|ivs| - 1];
      DemandBoundsAgree(inst, cols, win, init);
      DemandBoundsAgreeA(inst, cols, win, ivs[|ivs| - 1], Independent(inst, win));
      BoundsOfCongruent(DemandRowsI(inst, cols, true, win, init), DemandRowsI(inst, cols, false, win, init),
                        DemandRowsA(inst, cols, true, win, ivs[|ivs| - 1], Independent(inst, win)),
                        DemandRowsA(inst, cols, false, win, ivs[|ivs| - 1], Independent(inst, win)));
    }
  }

  /** Eqs. (4)/(5), one interval: the WS rows have the WAES rows' bounds. */
  lemma {:induction false} DependentBoundsAgreeA(inst: InstanceData, cols: Columns, win: Window, k: int, avs: seq<int>)
    requires WindowsKnown(inst, win, false, avs)
    ensures BoundsOf(DependentRowsA(inst, cols, true, win, k, avs)) == BoundsOf(DependentRowsA(inst, cols, false, win, k, avs))
  {
    if avs != [] {
      var init := avs[..|avs| - 1];
      assert forall a | a in init :: a in avs;
      assert avs[|avs| - 1] in avs;
      DependentBoundsAgreeA(inst, cols, win, k, init);
      BoundsOfCongruent(DependentRowsA(inst, cols, true, win, k, init), DependentRowsA(inst, cols, false, win, k, init),
                        [DependentRow(inst, cols, true, win, k, avs[|avs| - 1])],
                        [DependentRow(inst, cols, false, win, k, avs[|avs| - 1])]);
    }
  }

  lemma {:induction false} DependentBoundsAgree(inst: InstanceData, cols: Columns, win: Window, ks: seq<int>)
    requires WindowsKnown(inst, win, false, Dependent(inst, win))
    ensures BoundsOf(DependentRowsK(inst, cols, true, win, ks)) == BoundsOf(DependentRowsK(inst, cols, false, win, ks))
  {
    if ks != [] {
      var init := ks[..|ks| - 1];
      DependentBoundsAgree(inst, cols, win, init);
      DependentBoundsAgreeA(inst, cols, win, ks[|ks| - 1], Dependent(inst, win));
      BoundsOfCongruent(DependentRowsK(inst, cols, true, win, init), DependentRowsK(inst, cols, false, win, init),
                        DependentRowsA(inst, cols, true, win, ks[|ks| - 1], Dependent(inst, win)),
                        DependentRowsA(inst, cols, false, win, ks[|ks| - 1], Dependent(inst, win)));
    }
  }

  /** The first four families, Eqs. (2)-(5), the only ones whose coefficients depend on ws_mode. */
  function WindowRows(inst: InstanceData, cols: Columns, ws: bool): seq<Row>
    requires EncodableWindows(inst, ws)
  {
    DemandRowsI(inst, cols, ws, Deadline, inst.N)
    + DemandRowsI(inst, cols, ws, Release, inst.N)
    + DependentRowsK(inst, cols, ws, Deadline, inst.N)
    + DependentRowsK(inst, cols, ws, Release, inst.N)
  }

  /** Eqs. (6)-(10), which do not mention a window. */
  function FixedRows(inst: InstanceData, cols: Columns): seq<Row>
  {
    StaffRowsK(inst, cols, inst.N) + ShiftLinkRowsI(inst, cols, inst.N) + CapRows(inst, cols, inst.N)
    + BreakRowsT(inst, cols, inst.T) + [ShareRow(inst, cols)]
  }

  /** The matrix is the windowed families followed by the fixed ones. */
  lemma EncoderRowsSplit(inst: InstanceData, cols: Columns, ws: bool)
    requires EncodableWindows(inst, ws)
    ensures EncoderRows(inst, cols, ws) == WindowRows(inst, cols, ws) + FixedRows(inst, cols)
  {
    ConcatAssoc(WindowRows(inst, cols, ws), StaffRowsK(inst, cols, inst.N), ShiftLinkRowsI(inst, cols, inst.N),
                CapRows(inst, cols, inst.N), BreakRowsT(inst, cols, inst.T), [ShareRow(inst, cols)]);
  }

  /** Regrouping, kept out of the large context of EncoderRowsSplit. */
  lemma ConcatAssoc<T>(w: seq<T>, a: seq<T>, b: seq<T>, c: seq<T>, d: seq<T>, e: seq<T>)
    ensures w + a + b + c + d + e == w + (a + b + c + d + e)
  {
  }

  /** The windowed families have the same bounds in both modes. */
  lemma WindowBoundsAgree(inst: InstanceData, cols: Columns)
    requires EncodableWindows(inst, false)
    ensures BoundsOf(WindowRows(inst, cols, true)) == BoundsOf(WindowRows(inst, cols, false))
  {
    DemandBoundsAgree(inst, cols, Deadline, inst.N);
    DemandBoundsAgree(inst, cols, Release, inst.N);
    DependentBoundsAgree(inst, cols, Deadline, inst.N);
    DependentBoundsAgree(inst, cols, Release, inst.N);
    BoundsOfCongruent(DemandRowsI(inst, cols, true, Deadline, inst.N), DemandRowsI(inst, cols, false, Deadline, inst.N),
                      DemandRowsI(inst, cols, true, Release, inst.N), DemandRowsI(inst, cols, false, Release, inst.N));
    BoundsOfCongruent(DemandRowsI(inst, cols, true, Deadline, inst.N) + DemandRowsI(inst, cols, true, Release, inst.N),
                      DemandRowsI(inst, cols, false, Deadline, inst.N) + DemandRowsI(inst, cols, false, Release, inst.N),
                      DependentRowsK(inst, cols, true, Deadline, inst.N), DependentRowsK(inst, cols, false, Deadline, inst.N));
    BoundsOfCongruent(DemandRowsI(inst, cols, true, Deadline, inst.N) + DemandRowsI(inst, cols, true, Release, inst.N)
                      + DependentRowsK(inst, cols, true, Deadline, inst.N),
                      DemandRowsI(inst, cols, false, Deadline, inst.N) + DemandRowsI(inst, cols, false, Release, inst.N)
                      + DependentRowsK(inst, cols, false, Deadline, inst.N),
                      DependentRowsK(inst, cols, true, Release, inst.N), DependentRowsK(inst, cols, false, Release, inst.N));
  }

  /**
   * The WS matrix has the WAES matrix's rows in the same order with the same bounds,
   * and the rows of Eqs. (6)-(10) identical: they come after the windowed families,
   * which have as many rows in either mode.
   */
  lemma WsSameRows(inst: InstanceData, cols: Columns)
    requires EncodableWindows(inst, false)
    ensures |WindowRows(inst, cols, true)| == |WindowRows(inst, cols, false)|
    ensures BoundsOf(EncoderRows(inst, cols, true)) == BoundsOf(EncoderRows(inst, cols, false))
    ensures EncoderRows(inst, cols, true)[|WindowRows(inst, cols, true)|..]
         == EncoderRows(inst, cols, false)[|WindowRows(inst, cols, false)|..]
         == FixedRows(inst, cols)
  {
    WindowBoundsAgree(inst, cols);
    EncoderRowsSplit(inst, cols, true);
    EncoderRowsSplit(inst, cols, false);
    BoundsOfCongruent(WindowRows(inst, cols, true), WindowRows(inst, cols, false), FixedRows(inst, cols), FixedRows(inst, cols));
  }

  /**
   * A WS model and a WAES model of the same instance have the same variables (names, types,
   * objective, bounds, key maps), the same number of rows and the same constraint bounds.
   */
  lemma WsSharesLayout(inst: InstanceData, ws: WaesModel, waes: WaesModel)
    requires Encodes(inst, true, ws) && Encodes(inst, false, waes)
    ensures ws.wsMode && !waes.wsMode
    ensures ws.names == waes.names && ws.types == waes.types && ws.objective == waes.objective
    ensures ws.varLower == waes.varLower && ws.varUpper == waes.varUpper
    ensures ws.x == waes.x && ws.ya == waes.ya && ws.ys == waes.ys
    ensures |ws.offsets| == |waes.offsets|
    ensures ws.conLower == waes.conLower && ws.conUpper == waes.conUpper
  {
    var cols := CatalogColumns(inst);
    var r1 := EncoderRows(inst, cols, true);
    var r2 := EncoderRows(inst, cols, false);
    VariablesDetermined(inst, ws, waes);
    WsSameRows(inst, cols);
    BoundsOfAt(r1);
    BoundsOfAt(r2);
    forall r | 0 <= r < |r1| ensures ws.conLower[r] == waes.conLower[r] && ws.conUpper[r] == waes.conUpper[r] {
      assert SegmentOf(ws.offsets, ws.indices, ws.values, ws.conLower, ws.conUpper, r1, DropEps, r);
      assert SegmentOf(waes.offsets, waes.indices, waes.values, waes.conLower, waes.conUpper, r2, DropEps, r);
      assert BoundsOf(r1)[r] == BoundsOf(r2)[r];
    }
  }
}
