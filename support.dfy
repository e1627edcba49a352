// Where the rows of Eqs. (2)/(3) put their nonzeros (src/build_waes.py:169-191):
// only at x[(a, i, j, k)] for a shift j and an interval k of the window
// i..until that shift j covers, and, in WS mode, only at x[(a, i, j, i)].
module Support {
  import opened Seqs
  import opened Instance
  import opened Csr
  import opened Catalog
  import opened Rows
  import opened Encoder

  /** A nonzero sum of the updates at col comes from some nonzero update at col. */
  lemma {:induction false} CoeffSumWitness(terms: seq<Term>, col: int) returns (p: int)
    requires CoeffSum(terms, col) != 0.0
    ensures 0 <= p < |terms| && terms[p].idx == col && terms[p].coeff != 0.0
  {
    var init := terms[..|terms| - 1];
    if terms[|terms| - 1].idx == col && terms[|terms| - 1].coeff != 0.0 {
      p := |terms| - 1;
    } else {
      p := CoeffSumWitness(init, col);
      assert terms[p] == init[p];
    }
  }

  /** Update p of the inner window loop is `x[(a, i, j, ks[p])] += b[(ks[p], j)]`. */
  lemma {:induction false} WindowTermsKAt(inst: InstanceData, cols: Columns, a: int, i: int, j: int, ks: seq<int>)
    ensures |WindowTermsK(inst, cols, a, i, j, ks)| == |ks|
    ensures forall p | 0 <= p < |ks| ::
      WindowTermsK(inst, cols, a, i, j, ks)[p] == Term(XCol(cols, a, i, j, ks[p]), Get(inst.b, (ks[p], j), 0) as real)
  {
    if ks != [] {
      WindowTermsKAt(inst, cols, a, i, j, ks[..|ks| - 1]);
    }
  }

  /** Every update of the window loops is `x[(a, i, j, k)] += b[(k, j)]` for a j of js and i <= k <= until. */
  lemma {:induction false} WindowTermsJAt(inst: InstanceData, cols: Columns, a: int, i: int, until: int, js: seq<int>, p: int)
    returns (j: int, k: int)
    requires 0 <= p < |WindowTermsJ(inst, cols, a, i, until, js)|
    ensures j in js && i <= k <= until
    ensures WindowTermsJ(inst, cols, a, i, until, js)[p] == Term(XCol(cols, a, i, j, k), Get(inst.b, (k, j), 0) as real)
  {
    var init := js[..|js| - 1];
    var head := WindowTermsJ(inst, cols, a, i, until, init);
    var ks := Range(i, until + 1);
    if p < |head| {
      j, k := WindowTermsJAt(inst, cols, a, i, until, init, p);
      assert j in js by { assert forall x | x in init :: x in js; }
    } else {
      WindowTermsKAt(inst, cols, a, i, js[|js| - 1], ks);
      j, k := js[|js| - 1], ks[p - |head|];
    }
  }

  /**
   * An Eq. (2)/(3) row for (i, a) has a nonzero only at a column x[(a, i, j, k)] with j a
   * shift, k in the window i..until, and b[(k, j)] nonzero (that is, shift j covers k).
   */
  lemma DemandRowSupport(inst: InstanceData, cols: Columns, ws: bool, win: Window, i: int, a: int, col: int)
    returns (j: int, k: int)
    requires HasWindow(inst, win, ws, a)
    requires col in EmitIndices(DemandRow(inst, cols, ws, win, i, a).acc, DropEps)
    ensures j in inst.M && i <= k <= Until(inst, win, i, a, ws)
    ensures col == XCol(cols, a, i, j, k) && Get(inst.b, (k, j), 0) != 0
  {
    var terms := DemandTerms(inst, cols, ws, win, i, a);
    AccumulateValid(terms);
    AccumulateSums(terms);
    EmitProperties(Accumulate(terms), DropEps);
    var p := CoeffSumWitness(terms, col);
    j, k := WindowTermsJAt(inst, cols, a, i, Until(inst, win, i, a, ws), inst.M, p);
  }

  /** In WS mode the window is the interval itself: an Eq. (2)/(3) row for (i, a) touches only x[(a, i, j, i)]. */
  lemma WsDemandRowSupport(inst: InstanceData, cols: Columns, win: Window, i: int, a: int, col: int)
    returns (j: int)
    requires i <= inst.n
    requires col in EmitIndices(DemandRow(inst, cols, true, win, i, a).acc, DropEps)
    ensures j in inst.M && col == XCol(cols, a, i, j, i) && Get(inst.b, (i, j), 0) != 0
  {
    var k;
    j, k := DemandRowSupport(inst, cols, true, win, i, a, col);
    WsWindowCollapses(inst, win, i, a);
  }

  // ---------------------------------------------------------------------
  // With shift types listed once, every such column carries coefficient 1.0
  // ---------------------------------------------------------------------

  /** Distinct x keys have distinct columns. */
  ghost predicate XInjective(cols: Columns)
  {
    forall k1, k2 | k1 in cols.x && k2 in cols.x && k1 != k2 :: cols.x[k1] != cols.x[k2]
  }

  lemma {:induction false} CoeffSumAppend(t1: seq<Term>, t2: seq<Term>, col: int)
    ensures CoeffSum(t1 + t2, col) == CoeffSum(t1, col) + CoeffSum(t2, col)
    decreases |t2|
  {
    if t2 == [] {
      assert t1 + t2 == t1;
    } else {
      CoeffSumAppend(t1, t2[..|t2| - 1], col);
      assert (t1 + t2)[..|t1 + t2| - 1] == t1 + t2[..|t2| - 1];
      assert (t1 + t2)[|t1 + t2| - 1] == t2[|t2| - 1];
    }
  }

  /** The inner window loop adds b[(k0, j0)] at x[(a, i, j0, k0)] once if k0 is in ks, and nothing otherwise. */
  lemma {:induction false} WindowKSum(inst: InstanceData, cols: Columns, a: int, i: int, j: int, ks: seq<int>, j0: int, k0: int)
    requires XInjective(cols) && Distinct(ks)
    requires (a, i, j0, k0) in cols.x && forall k | k in ks :: (a, i, j, k) in cols.x
    ensures CoeffSum(WindowTermsK(inst, cols, a, i, j, ks), XCol(cols, a, i, j0, k0))
         == if j == j0 && k0 in ks then Get(inst.b, (k0, j0), 0) as real else 0.0
  {
    if ks != [] {
      var init := ks[..|ks| - 1];
      var k := ks[|ks| - 1];
      assert forall x | x in init :: x in ks;
      assert k !in init;
      assert Distinct(init) by {
        forall p, q | 0 <= p < q < |init| ensures init[p] != init[q] {
          assert init[p] == ks[p] && init[q] == ks[q];
        }
      }
      WindowKSum(inst, cols, a, i, j, init, j0, k0);
      assert XCol(cols, a, i, j, k) == XCol(cols, a, i, j0, k0) <==> (j, k) == (j0, k0);
      assert k0 in ks <==> k0 in init || k0 == k;
    }
  }

  lemma RangeDistinct(lo: int, hi: int)
    ensures Distinct(Range(lo, hi))
  {
  }

  /** The window loops add b[(k0, j0)] at x[(a, i, j0, k0)] once when j0 is a shift and i <= k0 <= until. */
  lemma {:induction false} WindowJSum(inst: InstanceData, cols: Columns, a: int, i: int, until: int, js: seq<int>, j0: int, k0: int)
    requires XInjective(cols) && Distinct(js)
    requires (a, i, j0, k0) in cols.x
    requires forall j, k | j in js && i <= k <= until :: (a, i, j, k) in cols.x
    ensures CoeffSum(WindowTermsJ(inst, cols, a, i, until, js), XCol(cols, a, i, j0, k0))
         == if j0 in js && i <= k0 <= until then Get(inst.b, (k0, j0), 0) as real else 0.0
  {
    if js != [] {
      var init := js[..|js| - 1];
      var j := js[|js| - 1];
      var ks := Range(i, until + 1);
      assert forall x | x in init :: x in js;
      assert j !in init;
      assert Distinct(init) by {
        forall p, q | 0 <= p < q < |init| ensures init[p] != init[q] {
          assert init[p] == js[p] && init[q] == js[q];
        }
      }
      WindowJSum(inst, cols, a, i, until, init, j0, k0);
      RangeDistinct(i, until + 1);
      forall k | k in ks ensures (a, i, j, k) in cols.x {
        RangeMember(i, until + 1, k);
      }
      WindowKSum(inst, cols, a, i, j, ks, j0, k0);
      RangeMember(i, until + 1, k0);
      CoeffSumAppend(WindowTermsJ(inst, cols, a, i, until, init), WindowTermsK(inst, cols, a, i, j, ks), XCol(cols, a, i, j0, k0));
    }
  }

  /** The updates of an Eq. (2)/(3) row of a validated instance with M listed once sum to b[(k, j)] inside the window. */
  lemma DemandSum(inst: InstanceData, ws: bool, win: Window, i: int, a: int, j: int, k: int)
    requires WellFormed(inst) && Distinct(inst.M)
    requires i in inst.N && a in inst.A && HasWindow(inst, win, ws, a)
    requires j in inst.M && k in inst.N
    ensures CoeffSum(DemandTerms(inst, CatalogColumns(inst), ws, win, i, a), XCol(CatalogColumns(inst), a, i, j, k))
         == if i <= k <= Until(inst, win, i, a, ws) then inst.b[(k, j)] as real else 0.0
  {
    var cols := CatalogColumns(inst);
    var until := Until(inst, win, i, a, ws);
    CatalogCovers(inst);
    IndexInjective(CatalogNames(inst));
    Horizon(inst, i);
    forall j1, k1 | j1 in inst.M && i <= k1 <= until ensures (a, i, j1, k1) in cols.x {
      Horizon(inst, k1);
    }
    WindowJSum(inst, cols, a, i, until, inst.M, j, k);
  }

  /**
   * With every shift type listed once in M, the Eq. (2)/(3) row for (i, a) of a validated
   * instance has a nonzero at x[(a, i, j, k)] exactly when i <= k <= until and shift j
   * covers interval k, and that nonzero is 1.0.
   */
  lemma DemandRowExact(inst: InstanceData, ws: bool, win: Window, i: int, a: int, j: int, k: int)
    requires WellFormed(inst) && Distinct(inst.M)
    requires i in inst.N && a in inst.A && HasWindow(inst, win, ws, a)
    requires j in inst.M && k in inst.N
    ensures var row := DemandRow(inst, CatalogColumns(inst), ws, win, i, a).acc;
            var col := XCol(CatalogColumns(inst), a, i, j, k);
            (col in EmitIndices(row, DropEps) <==> i <= k <= Until(inst, win, i, a, ws) && inst.b[(k, j)] == 1)
            && (col in EmitIndices(row, DropEps) ==> Get(row.coeff, col, 0.0) == 1.0)
  {
    var terms := DemandTerms(inst, CatalogColumns(inst), ws, win, i, a);
    var col := XCol(CatalogColumns(inst), a, i, j, k);
    DemandSum(inst, ws, win, i, a, j, k);
    AccumulateValid(terms);
    AccumulateSums(terms);
    EmitProperties(Accumulate(terms), DropEps);
    if col !in Accumulate(terms).coeff {
      CoeffSumUntouched(terms, col);
    }
  }

  // ---------------------------------------------------------------------
  // Eqs. (9)/(10): the coefficients add_row sums for the y_tj columns
  // ---------------------------------------------------------------------

  /** Distinct y_tj keys have distinct columns. */
  ghost predicate YSInjective(cols: Columns)
  {
    forall k1, k2 | k1 in cols.ys && k2 in cols.ys && k1 != k2 :: cols.ys[k1] != cols.ys[k2]
  }

  lemma ShareSingle(init: seq<Term>, idx: int, c: real, col: int)
    ensures CoeffSum(init + [Term(idx, c)], col) == CoeffSum(init, col) + if idx == col then c else 0.0
  {
    assert (init + [Term(idx, c)])[..|init|] == init;
  }

  /** The loop over ts adds c at y_tj[(t0, j0)] once when j0 == j and t0 is in ts. */
  lemma {:induction false} ShareTSumAt(cols: Columns, j: int, c: real, ts: seq<int>, t0: int, j0: int)
    requires YSInjective(cols) && Distinct(ts)
    requires (t0, j0) in cols.ys && forall t | t in ts :: (t, j) in cols.ys
    ensures CoeffSum(ShareTermsT(cols, j, c, ts), YSCol(cols, t0, j0)) == if j == j0 && t0 in ts then c else 0.0
  {
    if ts != [] {
      var init := ts[..|ts| - 1];
      var t := ts[|ts| - 1];
      assert forall x | x in init :: x in ts;
      assert t !in init;
      assert Distinct(init) by {
        forall p, q | 0 <= p < q < |init| ensures init[p] != init[q] {
          assert init[p] == ts[p] && init[q] == ts[q];
        }
      }
      ShareTSumAt(cols, j, c, init, t0, j0);
      ShareSingle(ShareTermsT(cols, j, c, init), YSCol(cols, t, j), c, YSCol(cols, t0, j0));
      assert YSCol(cols, t, j) == YSCol(cols, t0, j0) <==> (t, j) == (t0, j0);
      assert t0 in ts <==> t0 in init || t0 == t;
    }
  }

  /** The loops over js and T add c at y_tj[(t0, j0)] once when j0 is in js. */
  lemma {:induction false} ShareJSumAt(inst: InstanceData, cols: Columns, c: real, js: seq<int>, t0: int, j0: int)
    requires YSInjective(cols) && Distinct(js) && Distinct(inst.T) && t0 in inst.T
    requires (t0, j0) in cols.ys && forall t, j | t in inst.T && j in js :: (t, j) in cols.ys
    ensures CoeffSum(ShareTermsJ(inst, cols, c, js), YSCol(cols, t0, j0)) == if j0 in js then c else 0.0
  {
    if js != [] {
      var init := js[..|js| - 1];
      var j := js[|js| - 1];
      assert forall x | x in init :: x in js;
      assert j !in init;
      assert Distinct(init) by {
        forall p, q | 0 <= p < q < |init| ensures init[p] != init[q] {
          assert init[p] == js[p] && init[q] == js[q];
        }
      }
      ShareJSumAt(inst, cols, c, init, t0, j0);
      ShareTSumAt(cols, j, c, inst.T, t0, j0);
      CoeffSumAppend(ShareTermsJ(inst, cols, c, init), ShareTermsT(cols, j, c, inst.T), YSCol(cols, t0, j0));
    }
  }

  /** Shift types of a validated instance: M is exactly M1 and M2, which do not overlap. */
  lemma ShiftTypesMember(inst: InstanceData, j: int)
    requires PartitionsOk(inst)
    ensures j in inst.M <==> j in inst.M1 || j in inst.M2
    ensures !(j in inst.M1 && j in inst.M2)
  {
    assert j in inst.M <==> j in Elems(inst.M);
    assert j in inst.M1 <==> j in Elems(inst.M1);
    assert j in inst.M2 <==> j in Elems(inst.M2);
  }

  /** The catalog's y_tj columns: one per key of T x M, distinct, and apart from every y_tija column. */
  lemma CatalogYS(inst: InstanceData)
    ensures YSInjective(CatalogColumns(inst))
    ensures forall t, j | t in inst.T && j in inst.M :: (t, j) in CatalogColumns(inst).ys
    ensures forall k1, k2 | k1 in CatalogColumns(inst).ya && k2 in CatalogColumns(inst).ys ::
      CatalogColumns(inst).ya[k1] != CatalogColumns(inst).ys[k2]
  {
    CatalogCovers(inst);
    IndexInjective(CatalogNames(inst));
  }

  /** The updates of the Eq. (10) row sum, at y_tj[(t, j)], to 1 for j in M2 plus -w for j in M. */
  lemma {:induction false} ShareSumAt(inst: InstanceData, cols: Columns, t: int, j: int)
    requires YSInjective(cols) && Distinct(inst.M) && Distinct(inst.M2) && Distinct(inst.T)
    requires forall x | x in inst.M2 :: x in inst.M
    requires forall t1, j1 | t1 in inst.T && j1 in inst.M :: (t1, j1) in cols.ys
    requires t in inst.T && j in inst.M
    ensures CoeffSum(ShareTerms(inst, cols), YSCol(cols, t, j)) == (if j in inst.M2 then 1.0 else 0.0) + -inst.w
  {
    ShareJSumAt(inst, cols, 1.0, inst.M2, t, j);
    ShareJSumAt(inst, cols, -inst.w, inst.M, t, j);
    CoeffSumAppend(ShareTermsJ(inst, cols, 1.0, inst.M2), ShareTermsJ(inst, cols, -inst.w, inst.M), YSCol(cols, t, j));
  }

  lemma ShareSum(inst: InstanceData, t: int, j: int)
    requires PartitionsOk(inst) && Distinct(inst.M) && Distinct(inst.M2) && Distinct(inst.T)
    requires t in inst.T && j in inst.M
    ensures CoeffSum(ShareTerms(inst, CatalogColumns(inst)), YSCol(CatalogColumns(inst), t, j))
         == (if j in inst.M2 then 1.0 else 0.0) + -inst.w
  {
    CatalogYS(inst);
    forall x | x in inst.M2 ensures x in inst.M {
      ShiftTypesMember(inst, x);
    }
    ShareSumAt(inst, CatalogColumns(inst), t, j);
  }

  /**
   * With M, M2 and T listed once, summing the repeated keys of the Eq. (10) row gives
   * y_tj[(t, j)] the coefficient 1 - w for a part-time shift j and -w for a full-time one.
   */
  lemma ShareRowCoefficient(inst: InstanceData, t: int, j: int)
    requires WellFormed(inst) && Distinct(inst.M) && Distinct(inst.M2) && Distinct(inst.T)
    requires t in inst.T && j in inst.M
    ensures var c := Get(ShareRow(inst, CatalogColumns(inst)).acc.coeff, YSCol(CatalogColumns(inst), t, j), 0.0);
            (j in inst.M2 ==> c == 1.0 - inst.w) && (j in inst.M1 ==> c == -inst.w)
  {
    var terms := ShareTerms(inst, CatalogColumns(inst));
    var col := YSCol(CatalogColumns(inst), t, j);
    ShareSum(inst, t, j);
    ShiftTypesMember(inst, j);
    AccumulateSums(terms);
    if col !in Accumulate(terms).coeff {
      CoeffSumUntouched(terms, col);
    }
  }

  /** A y_tija update list whose columns all differ from col adds nothing at col. */
  lemma {:induction false} AssignAvoids(cols: Columns, t: int, i: int, j: int, avs: seq<int>, col: int)
    requires forall a | a in avs :: (t, i, j, a) in cols.ya && cols.ya[(t, i, j, a)] != col
    ensures CoeffSum(AssignTerms(cols, t, i, j, avs), col) == 0.0
  {
    if avs != [] {
      assert forall x | x in avs[..|avs| - 1] :: x in avs;
      AssignAvoids(cols, t, i, j, avs[..|avs| - 1], col);
      ShareSingle(AssignTerms(cols, t, i, j, avs[..|avs| - 1]), YACol(cols, t, i, j, avs[|avs| - 1]), 1.0, col);
    }
  }

  lemma {:induction false} BreakTermsAvoid(inst: InstanceData, cols: Columns, t: int, j: int, ivs: seq<int>, col: int)
    requires forall i, a | i in ivs && a in Get(inst.Ht, t, []) :: (t, i, j, a) in cols.ya && cols.ya[(t, i, j, a)] != col
    ensures CoeffSum(BreakTermsI(inst, cols, t, j, ivs), col) == 0.0
  {
    if ivs != [] {
      var init := ivs[..|ivs| - 1];
      assert forall x | x in init :: x in ivs;
      BreakTermsAvoid(inst, cols, t, j, init, col);
      AssignAvoids(cols, t, ivs[|ivs| - 1], j, Get(inst.Ht, t, []), col);
      CoeffSumAppend(BreakTermsI(inst, cols, t, j, init), AssignTerms(cols, t, ivs[|ivs| - 1], j, Get(inst.Ht, t, [])), col);
    }
  }

  /** The Eq. (9) row for (t, j) gives y_tj[(t, j)] the coefficient -(f - p); its other updates are y_tija columns. */
  lemma BreakRowCoefficient(inst: InstanceData, t: int, j: int)
    requires WellFormed(inst) && t in inst.T && j in inst.M1
    ensures Get(BreakRow(inst, CatalogColumns(inst), t, j).acc.coeff, YSCol(CatalogColumns(inst), t, j), 0.0)
         == -((inst.f - inst.p) as real)
  {
    var cols := CatalogColumns(inst);
    var col := YSCol(cols, t, j);
    var ivs := Get(inst.Oj, j, []);
    CatalogCovers(inst);
    CatalogYS(inst);
    ShiftTypesMember(inst, j);
    forall i, a | i in ivs && a in Get(inst.Ht, t, []) ensures (t, i, j, a) in cols.ya && cols.ya[(t, i, j, a)] != col {
      assert i in inst.N && a in inst.A;
    }
    BreakTail(inst, t, j);
  }

  lemma BreakTail(inst: InstanceData, t: int, j: int)
    requires forall i, a | i in Get(inst.Oj, j, []) && a in Get(inst.Ht, t, []) ::
      (t, i, j, a) in CatalogColumns(inst).ya && CatalogColumns(inst).ya[(t, i, j, a)] != YSCol(CatalogColumns(inst), t, j)
    ensures Get(BreakRow(inst, CatalogColumns(inst), t, j).acc.coeff, YSCol(CatalogColumns(inst), t, j), 0.0)
         == -((inst.f - inst.p) as real)
  {
    var cols := CatalogColumns(inst);
    var terms := BreakTerms(inst, cols, t, j);
    var col := YSCol(cols, t, j);
    var ivs := Get(inst.Oj, j, []);
    BreakTermsAvoid(inst, cols, t, j, ivs, col);
    ShareSingle(BreakTermsI(inst, cols, t, j, ivs), col, -((inst.f - inst.p) as real), col);
    AccumulateSums(terms);
  }
}
