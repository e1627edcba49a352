// The audit (src/audit.py) against the encoder (src/build_waes.py): for each family the
// audit's lhs - rhs is the matching encoder row's activity minus its bound, so a solution
// vector meets every row to within tol exactly when the audit records no issue for
// Eqs. (2)-(10).
module Soundness {
  import opened Seqs
  import opened Instance
  import opened Csr
  import opened Catalog
  import opened Rows
  import opened Audit
  import opened WsBaseline

  // ---------------------------------------------------------------------
  // Solutions and satisfied rows
  // ---------------------------------------------------------------------

  /**
   * The solved maps are the solution vector read through the column maps: every key's
   * value is the vector entry of its column, and 0 for a key without one.
   */
  ghost predicate SolutionOf(cols: Columns, sv: SolvedValues, vec: seq<real>)
  {
    && (forall a, i, j, k :: XVal(sv, a, i, j, k) == Val(vec, XCol(cols, a, i, j, k)))
    && (forall t, i, j, a :: YAVal(sv, t, i, j, a) == Val(vec, YACol(cols, t, i, j, a)))
    && (forall t, j :: YSVal(sv, t, j) == Val(vec, YSCol(cols, t, j)))
  }

  /** The row's activity lies within tol of each finite bound. */
  predicate Satisfied(row: Row, vec: seq<real>, tol: real)
  {
    && (row.lb.Fin? ==> RowDot(row.acc, vec) >= row.lb.value - tol)
    && (row.ub.Fin? ==> RowDot(row.acc, vec) <= row.ub.value + tol)
  }

  ghost predicate AllSatisfied(rows: seq<Row>, vec: seq<real>, tol: real)
  {
    forall row | row in rows :: Satisfied(row, vec, tol)
  }

  lemma AllSatisfiedAppend(r1: seq<Row>, r2: seq<Row>, vec: seq<real>, tol: real)
    ensures AllSatisfied(r1 + r2, vec, tol) <==> AllSatisfied(r1, vec, tol) && AllSatisfied(r2, vec, tol)
  {
    assert forall row | row in r1 :: row in r1 + r2;
    assert forall row | row in r2 :: row in r1 + r2;
  }

  lemma IssuesAppend(i1: seq<AuditIssue>, i2: seq<AuditIssue>)
    ensures i1 + i2 == [] <==> i1 == [] && i2 == []
  {
    if i1 + i2 == [] {
      assert |i1 + i2| == |i1| + |i2|;
    }
  }

  // ---------------------------------------------------------------------
  // Small arithmetic facts. Each takes the atoms of one step, so that a
  // caller only matches terms and never multiplies out.
  // ---------------------------------------------------------------------

  lemma TermsDotSingle(init: seq<Term>, idx: int, coeff: real, vec: seq<real>)
    ensures TermsDot(init + [Term(idx, coeff)], vec) == TermsDot(init, vec) + coeff * Val(vec, idx)
  {
    assert (init + [Term(idx, coeff)])[..|init + [Term(idx, coeff)]| - 1] == init;
  }

  lemma ScaleStep(total: real, head: real, c: real, v: real, sum: real, sumHead: real)
    requires total == head + c * v && head == c * sumHead && sum == sumHead + v
    ensures total == c * sum
  {
  }

  /** Eq. (9): load + (-(f - p))·v = load - (f - p)·w with w = v. */
  lemma BreakCombine(total: real, load: real, c: real, v: real, cap: real, w: real)
    requires total == load + (-c) * v && w == v && cap == c * w
    ensures total == load - cap
  {
  }

  // ---------------------------------------------------------------------
  // Lists whose every update has the same coefficient c: their dot product
  // is c times the plain sum of the entries they touch
  // ---------------------------------------------------------------------

  /** Σ vec[idx] over a list of updates, ignoring the coefficients. */
  function IdxSum(terms: seq<Term>, vec: seq<real>): real
  {
    if terms == [] then 0.0 else IdxSum(terms[..|terms| - 1], vec) + Val(vec, terms[|terms| - 1].idx)
  }

  predicate Uniform(terms: seq<Term>, c: real)
  {
    forall n | 0 <= n < |terms| :: terms[n].coeff == c
  }

  /** Every update of the list is c, and its entries sum to sum. */
  predicate Summed(terms: seq<Term>, c: real, sum: real, vec: seq<real>)
  {
    Uniform(terms, c) && IdxSum(terms, vec) == sum
  }

  /**
   * The sum is a parameter so that the product in the conclusion is of two
   * values the caller names, not of a recursive call it would have to unfold.
   */
  lemma {:induction false} UniformDot(terms: seq<Term>, vec: seq<real>, c: real, sum: real)
    requires Uniform(terms, c) && sum == IdxSum(terms, vec)
    ensures TermsDot(terms, vec) == c * sum
    decreases |terms|
  {
    if terms == [] {
      assert c * sum == 0.0;
    } else {
      var init := terms[..|terms| - 1];
      assert terms[|terms| - 1].coeff == c;
      assert Uniform(init, c);
      UniformDot(init, vec, c, IdxSum(init, vec));
      ScaleStep(TermsDot(terms, vec), TermsDot(init, vec), c, Val(vec, terms[|terms| - 1].idx), sum, IdxSum(init, vec));
    }
  }

  /** A list whose every update is -c sums to minus c times its entries. */
  lemma NegUniformDot(terms: seq<Term>, vec: seq<real>, c: real, sum: real, total: real)
    requires Summed(terms, -c, sum, vec) && total == c * sum
    ensures TermsDot(terms, vec) == -total
  {
    UniformDot(terms, vec, -c, sum);
    assert (-c) * sum == -(c * sum);
  }

  /** Two lists, one of +1 updates and one of -w updates: the first's entries minus w times the second's. */
  lemma ShareDot(t1: seq<Term>, t2: seq<Term>, vec: seq<real>, w: real, s1: real, s2: real, cap: real)
    requires Summed(t1, 1.0, s1, vec) && Summed(t2, -w, s2, vec) && cap == w * s2
    ensures TermsDot(t1 + t2, vec) == s1 - cap
  {
    UniformDot(t1, vec, 1.0, s1);
    assert TermsDot(t1, vec) == s1;
    NegUniformDot(t2, vec, w, s2, cap);
    TermsDotAppend(t1, t2, vec);
    assert TermsDot(t1 + t2, vec) == TermsDot(t1, vec) + TermsDot(t2, vec);
  }

  lemma {:induction false} IdxSumAppend(t1: seq<Term>, t2: seq<Term>, vec: seq<real>)
    ensures IdxSum(t1 + t2, vec) == IdxSum(t1, vec) + IdxSum(t2, vec)
    decreases |t2|
  {
    if t2 == [] {
      assert t1 + t2 == t1;
    } else {
      var init := t2[..|t2| - 1];
      assert (t1 + t2)[..|t1 + t2| - 1] == t1 + init;
      IdxSumAppend(t1, init, vec);
    }
  }

  lemma IdxSumSingle(init: seq<Term>, idx: int, coeff: real, vec: seq<real>)
    ensures IdxSum(init + [Term(idx, coeff)], vec) == IdxSum(init, vec) + Val(vec, idx)
  {
    assert (init + [Term(idx, coeff)])[..|init + [Term(idx, coeff)]| - 1] == init;
  }

  lemma UniformAppend(t1: seq<Term>, t2: seq<Term>, c: real)
    requires Uniform(t1, c) && Uniform(t2, c)
    ensures Uniform(t1 + t2, c)
  {
    forall n | 0 <= n < |t1 + t2| ensures (t1 + t2)[n].coeff == c {
      if n < |t1| {
        assert (t1 + t2)[n] == t1[n];
      } else {
        assert (t1 + t2)[n] == t2[n - |t1|];
      }
    }
  }

  // ---------------------------------------------------------------------
  // The update lists of each family, summed against the solution
  // ---------------------------------------------------------------------

  lemma ServedAtVal(inst: InstanceData, cols: Columns, sv: SolvedValues, vec: seq<real>, a: int, i: int, j: int, k: int)
    requires SolutionOf(cols, sv, vec)
    ensures ServedAt(inst, sv, a, i, j, k) == (Get(inst.b, (k, j), 0) as real) * Val(vec, XCol(cols, a, i, j, k))
  {
    assert XVal(sv, a, i, j, k) * (Get(inst.b, (k, j), 0) as real)
        == (Get(inst.b, (k, j), 0) as real) * Val(vec, XCol(cols, a, i, j, k));
  }

  /** Eqs. (2)-(5), one column j: the served demand Σ_k x·b. */
  lemma {:induction false} WindowTermsKDot(inst: InstanceData, cols: Columns, sv: SolvedValues, vec: seq<real>,
                                           a: int, i: int, j: int, ks: seq<int>)
    requires SolutionOf(cols, sv, vec)
    ensures TermsDot(WindowTermsK(inst, cols, a, i, j, ks), vec) == ServedK(inst, sv, a, i, j, ks)
    decreases |ks|
  {
    if ks != [] {
      WindowTermsKDot(inst, cols, sv, vec, a, i, j, ks[..|ks| - 1]);
      TermsDotSingle(WindowTermsK(inst, cols, a, i, j, ks[..|ks| - 1]), XCol(cols, a, i, j, ks[|ks| - 1]),
                     Get(inst.b, (ks[|ks| - 1], j), 0) as real, vec);
      ServedAtVal(inst, cols, sv, vec, a, i, j, ks[|ks| - 1]);
    }
  }

  lemma {:induction false} WindowTermsJDot(inst: InstanceData, cols: Columns, sv: SolvedValues, vec: seq<real>,
                                           a: int, i: int, until: int, js: seq<int>)
    requires SolutionOf(cols, sv, vec)
    ensures TermsDot(WindowTermsJ(inst, cols, a, i, until, js), vec) == ServedJ(inst, sv, a, i, until, js)
    decreases |js|
  {
    if js != [] {
      var init := js[..|js| - 1];
      var j := js[|js| - 1];
      WindowTermsJDot(inst, cols, sv, vec, a, i, until, init);
      WindowTermsKDot(inst, cols, sv, vec, a, i, j, Range(i, until + 1));
      TermsDotAppend(WindowTermsJ(inst, cols, a, i, until, init), WindowTermsK(inst, cols, a, i, j, Range(i, until + 1)), vec);
    }
  }

  /** Eqs. (4)/(5), one parent and column: every update is -coeff, and the entries are the parent's x. */
  lemma {:induction false} ParentTermsISum(cols: Columns, sv: SolvedValues, vec: seq<real>,
                                           parent: int, j: int, k: int, coeff: real, ivs: seq<int>)
    requires SolutionOf(cols, sv, vec)
    ensures Summed(ParentTermsI(cols, parent, j, k, coeff, ivs), -coeff, ParentMassI(sv, parent, j, k, ivs), vec)
    decreases |ivs|
  {
    if ivs != [] {
      var init := ivs[..|ivs| - 1];
      var i := ivs[|ivs| - 1];
      ParentTermsISum(cols, sv, vec, parent, j, k, coeff, init);
      IdxSumSingle(ParentTermsI(cols, parent, j, k, coeff, init), XCol(cols, parent, i, j, k), -coeff, vec);
      UniformAppend(ParentTermsI(cols, parent, j, k, coeff, init), [Term(XCol(cols, parent, i, j, k), -coeff)], -coeff);
      assert XVal(sv, parent, i, j, k) == Val(vec, XCol(cols, parent, i, j, k));
    }
  }

  lemma {:induction false} ParentTermsJSum(inst: InstanceData, cols: Columns, sv: SolvedValues, vec: seq<real>,
                                           parent: int, k: int, coeff: real, js: seq<int>)
    requires SolutionOf(cols, sv, vec)
    ensures Summed(ParentTermsJ(inst, cols, parent, k, coeff, js), -coeff, ParentMassJ(inst, sv, parent, k, js), vec)
    decreases |js|
  {
    if js != [] {
      var init := js[..|js| - 1];
      var j := js[|js| - 1];
      ParentTermsJSum(inst, cols, sv, vec, parent, k, coeff, init);
      ParentTermsISum(cols, sv, vec, parent, j, k, coeff, inst.N);
      IdxSumAppend(ParentTermsJ(inst, cols, parent, k, coeff, init), ParentTermsI(cols, parent, j, k, coeff, inst.N), vec);
      UniformAppend(ParentTermsJ(inst, cols, parent, k, coeff, init), ParentTermsI(cols, parent, j, k, coeff, inst.N), -coeff);
    }
  }

  /** Eqs. (4)/(5), one parent: its updates sum to minus what it asks of a. */
  lemma ParentTermsJDot(inst: InstanceData, cols: Columns, sv: SolvedValues, vec: seq<real>, a: int, parent: int, k: int)
    requires SolutionOf(cols, sv, vec)
    ensures TermsDot(ParentTermsJ(inst, cols, parent, k, Get(inst.s, (a, parent), 0.0), inst.M), vec) == -ShareOf(inst, sv, a, parent, k)
  {
    ParentTermsJSum(inst, cols, sv, vec, parent, k, Get(inst.s, (a, parent), 0.0), inst.M);
    NegUniformDot(ParentTermsJ(inst, cols, parent, k, Get(inst.s, (a, parent), 0.0), inst.M), vec,
                  Get(inst.s, (a, parent), 0.0), ParentMassJ(inst, sv, parent, k, inst.M), ShareOf(inst, sv, a, parent, k));
  }

  /** Eqs. (4)/(5): the parents' updates sum to minus the parents' share. */
  lemma {:induction false} ParentTermsPDot(inst: InstanceData, cols: Columns, sv: SolvedValues, vec: seq<real>,
                                           a: int, k: int, ps: seq<int>)
    requires SolutionOf(cols, sv, vec)
    ensures TermsDot(ParentTermsP(inst, cols, a, k, ps), vec) == -ParentShare(inst, sv, a, k, ps)
    decreases |ps|
  {
    if ps != [] {
      var init := ps[..|ps| - 1];
      var parent := ps[|ps| - 1];
      ParentTermsPDot(inst, cols, sv, vec, a, k, init);
      ParentTermsJDot(inst, cols, sv, vec, a, parent, k);
      TermsDotAppend(ParentTermsP(inst, cols, a, k, init), ParentTermsJ(inst, cols, parent, k, Get(inst.s, (a, parent), 0.0), inst.M), vec);
    }
  }

  /** Eq. (6), the x part: Σ_i x[(a, i, j, k)]. */
  lemma {:induction false} StaffXDot(cols: Columns, sv: SolvedValues, vec: seq<real>, a: int, j: int, k: int, ivs: seq<int>)
    requires SolutionOf(cols, sv, vec)
    ensures TermsDot(StaffXTerms(cols, a, j, k, ivs), vec) == StaffedX(sv, a, j, k, ivs)
    decreases |ivs|
  {
    if ivs != [] {
      var init := ivs[..|ivs| - 1];
      var i := ivs[|ivs| - 1];
      StaffXDot(cols, sv, vec, a, j, k, init);
      TermsDotSingle(StaffXTerms(cols, a, j, k, init), XCol(cols, a, i, j, k), 1.0, vec);
      assert XVal(sv, a, i, j, k) == Val(vec, XCol(cols, a, i, j, k));
    }
  }

  /** Eq. (6), the y part: minus Σ_t y_tija[(t, k, j, a)]. */
  lemma {:induction false} StaffYDot(cols: Columns, sv: SolvedValues, vec: seq<real>, a: int, j: int, k: int, ts: seq<int>)
    requires SolutionOf(cols, sv, vec)
    ensures TermsDot(StaffYTerms(cols, a, j, k, ts), vec) == -StaffedY(sv, a, j, k, ts)
    decreases |ts|
  {
    if ts != [] {
      var init := ts[..|ts| - 1];
      var t := ts[|ts| - 1];
      StaffYDot(cols, sv, vec, a, j, k, init);
      TermsDotSingle(StaffYTerms(cols, a, j, k, init), YACol(cols, t, k, j, a), -1.0, vec);
      assert YAVal(sv, t, k, j, a) == Val(vec, YACol(cols, t, k, j, a));
    }
  }

  /** Eqs. (7)-(9): Σ_a y_tija[(t, i, j, a)]. */
  lemma {:induction false} AssignDot(cols: Columns, sv: SolvedValues, vec: seq<real>, t: int, i: int, j: int, avs: seq<int>)
    requires SolutionOf(cols, sv, vec)
    ensures TermsDot(AssignTerms(cols, t, i, j, avs), vec) == AssignedY(sv, t, i, j, avs)
    decreases |avs|
  {
    if avs != [] {
      var init := avs[..|avs| - 1];
      var a := avs[|avs| - 1];
      AssignDot(cols, sv, vec, t, i, j, init);
      TermsDotSingle(AssignTerms(cols, t, i, j, init), YACol(cols, t, i, j, a), 1.0, vec);
      assert YAVal(sv, t, i, j, a) == Val(vec, YACol(cols, t, i, j, a));
    }
  }

  lemma {:induction false} CapJDot(inst: InstanceData, cols: Columns, sv: SolvedValues, vec: seq<real>, t: int, i: int, js: seq<int>)
    requires SolutionOf(cols, sv, vec)
    ensures TermsDot(CapTermsJ(inst, cols, t, i, js), vec) == ActiveJ(inst, sv, t, i, js)
    decreases |js|
  {
    if js != [] {
      var init := js[..|js| - 1];
      CapJDot(inst, cols, sv, vec, t, i, init);
      AssignDot(cols, sv, vec, t, i, js[|js| - 1], inst.A);
      TermsDotAppend(CapTermsJ(inst, cols, t, i, init), AssignTerms(cols, t, i, js[|js| - 1], inst.A), vec);
    }
  }

  /** Eq. (8): the active workers of interval i. */
  lemma {:induction false} CapTDot(inst: InstanceData, cols: Columns, sv: SolvedValues, vec: seq<real>, i: int, ts: seq<int>)
    requires SolutionOf(cols, sv, vec)
    ensures TermsDot(CapTermsT(inst, cols, i, ts), vec) == ActiveT(inst, sv, i, ts)
    decreases |ts|
  {
    if ts != [] {
      var init := ts[..|ts| - 1];
      CapTDot(inst, cols, sv, vec, i, init);
      CapJDot(inst, cols, sv, vec, ts[|ts| - 1], i, inst.M);
      TermsDotAppend(CapTermsT(inst, cols, i, init), CapTermsJ(inst, cols, ts[|ts| - 1], i, inst.M), vec);
    }
  }

  /** Eq. (9): the load of the break window. */
  lemma {:induction false} BreakIDot(inst: InstanceData, cols: Columns, sv: SolvedValues, vec: seq<real>, t: int, j: int, ivs: seq<int>)
    requires SolutionOf(cols, sv, vec)
    ensures TermsDot(BreakTermsI(inst, cols, t, j, ivs), vec) == BreakLoad(inst, sv, t, j, ivs)
    decreases |ivs|
  {
    if ivs != [] {
      var init := ivs[..|ivs| - 1];
      BreakIDot(inst, cols, sv, vec, t, j, init);
      AssignDot(cols, sv, vec, t, ivs[|ivs| - 1], j, Get(inst.Ht, t, []));
      TermsDotAppend(BreakTermsI(inst, cols, t, j, init), AssignTerms(cols, t, ivs[|ivs| - 1], j, Get(inst.Ht, t, [])), vec);
    }
  }

  /** Eq. (10), one column j: every update is c, and the entries are the y_tj of column j. */
  lemma {:induction false} ShareTSum(cols: Columns, sv: SolvedValues, vec: seq<real>, j: int, c: real, ts: seq<int>)
    requires SolutionOf(cols, sv, vec)
    ensures Summed(ShareTermsT(cols, j, c, ts), c, ShiftsT(sv, j, ts), vec)
    decreases |ts|
  {
    if ts != [] {
      var init := ts[..|ts| - 1];
      var t := ts[|ts| - 1];
      ShareTSum(cols, sv, vec, j, c, init);
      IdxSumSingle(ShareTermsT(cols, j, c, init), YSCol(cols, t, j), c, vec);
      UniformAppend(ShareTermsT(cols, j, c, init), [Term(YSCol(cols, t, j), c)], c);
      assert YSVal(sv, t, j) == Val(vec, YSCol(cols, t, j));
    }
  }

  lemma {:induction false} ShareJSum(inst: InstanceData, cols: Columns, sv: SolvedValues, vec: seq<real>, c: real, js: seq<int>)
    requires SolutionOf(cols, sv, vec)
    ensures Summed(ShareTermsJ(inst, cols, c, js), c, ShiftsJ(inst, sv, js), vec)
    decreases |js|
  {
    if js != [] {
      var init := js[..|js| - 1];
      var j := js[|js| - 1];
      ShareJSum(inst, cols, sv, vec, c, init);
      ShareTSum(cols, sv, vec, j, c, inst.T);
      IdxSumAppend(ShareTermsJ(inst, cols, c, init), ShareTermsT(cols, j, c, inst.T), vec);
      UniformAppend(ShareTermsJ(inst, cols, c, init), ShareTermsT(cols, j, c, inst.T), c);
    }
  }

  /** Eq. (9): the last update, -(f - p) on y_tj[(t, j)], contributes minus the right-hand side. */
  lemma BreakTail(inst: InstanceData, cols: Columns, sv: SolvedValues, vec: seq<real>, t: int, j: int)
    requires SolutionOf(cols, sv, vec)
    ensures TermsDot(BreakTerms(inst, cols, t, j), vec)
         == TermsDot(BreakTermsI(inst, cols, t, j, Get(inst.Oj, j, [])), vec) - BreakCap(inst, sv, t, j)
  {
    TermsDotSingle(BreakTermsI(inst, cols, t, j, Get(inst.Oj, j, [])), YSCol(cols, t, j), -((inst.f - inst.p) as real), vec);
    BreakCombine(TermsDot(BreakTerms(inst, cols, t, j), vec), TermsDot(BreakTermsI(inst, cols, t, j, Get(inst.Oj, j, [])), vec),
                 (inst.f - inst.p) as real, Val(vec, YSCol(cols, t, j)), BreakCap(inst, sv, t, j), YSVal(sv, t, j));
  }

  // ---------------------------------------------------------------------
  // One row of each family: the activity is the audit's lhs - rhs (plus the
  // row's bound), so the row is met to within tol iff the check records nothing
  // ---------------------------------------------------------------------

  lemma DemandRowAudit(inst: InstanceData, cols: Columns, sv: SolvedValues, vec: seq<real>,
                       ws: bool, win: Window, i: int, a: int, tol: real)
    requires SolutionOf(cols, sv, vec) && HasWindow(inst, win, ws, a)
    ensures RowDot(DemandRow(inst, cols, ws, win, i, a).acc, vec)
         == ServedJ(inst, sv, a, i, AuditUntil(inst, win, i, a, ws), inst.M)
    ensures DemandIssue(inst, sv, ws, win, i, a, tol) == [] <==> Satisfied(DemandRow(inst, cols, ws, win, i, a), vec, tol)
  {
    var until := Until(inst, win, i, a, ws);
    AccumulatePreservesDot(DemandTerms(inst, cols, ws, win, i, a), vec);
    WindowTermsJDot(inst, cols, sv, vec, a, i, until, inst.M);
  }

  lemma DependentRowAudit(inst: InstanceData, cols: Columns, sv: SolvedValues, vec: seq<real>,
                          ws: bool, win: Window, k: int, a: int, tol: real)
    requires SolutionOf(cols, sv, vec) && HasWindow(inst, win, ws, a)
    ensures RowDot(DependentRow(inst, cols, ws, win, k, a).acc, vec)
         == ServedJ(inst, sv, a, k, AuditUntil(inst, win, k, a, ws), inst.M) - ParentShare(inst, sv, a, k, Get(inst.Ga, a, []))
    ensures DependentIssue(inst, sv, ws, win, k, a, tol) == [] <==> Satisfied(DependentRow(inst, cols, ws, win, k, a), vec, tol)
  {
    var until := Until(inst, win, k, a, ws);
    AccumulatePreservesDot(DependentTerms(inst, cols, ws, win, k, a), vec);
    WindowTermsJDot(inst, cols, sv, vec, a, k, until, inst.M);
    ParentTermsPDot(inst, cols, sv, vec, a, k, Get(inst.Ga, a, []));
    TermsDotAppend(WindowTermsJ(inst, cols, a, k, until, inst.M), ParentTermsP(inst, cols, a, k, Get(inst.Ga, a, [])), vec);
  }

  lemma StaffRowAudit(inst: InstanceData, cols: Columns, sv: SolvedValues, vec: seq<real>, k: int, j: int, a: int, tol: real)
    requires SolutionOf(cols, sv, vec)
    ensures RowDot(StaffRow(inst, cols, k, j, a).acc, vec)
         == StaffedX(sv, a, j, k, Range(1, k + 1)) - StaffedY(sv, a, j, k, Get(inst.Ta, a, []))
    ensures StaffIssue(inst, sv, k, j, a, tol) == [] <==> Satisfied(StaffRow(inst, cols, k, j, a), vec, tol)
  {
    AccumulatePreservesDot(StaffTerms(inst, cols, k, j, a), vec);
    StaffXDot(cols, sv, vec, a, j, k, Range(1, k + 1));
    StaffYDot(cols, sv, vec, a, j, k, Get(inst.Ta, a, []));
    TermsDotAppend(StaffXTerms(cols, a, j, k, Range(1, k + 1)), StaffYTerms(cols, a, j, k, Get(inst.Ta, a, [])), vec);
  }

  lemma ShiftLinkRowAudit(inst: InstanceData, cols: Columns, sv: SolvedValues, vec: seq<real>, i: int, j: int, t: int, tol: real)
    requires SolutionOf(cols, sv, vec)
    ensures RowDot(ShiftLinkRow(inst, cols, i, j, t).acc, vec)
         == AssignedY(sv, t, i, j, Get(inst.Ht, t, [])) - YSVal(sv, t, j)
    ensures ShiftLinkIssue(inst, sv, i, j, t, tol) == [] <==> Satisfied(ShiftLinkRow(inst, cols, i, j, t), vec, tol)
  {
    AccumulatePreservesDot(ShiftLinkTerms(inst, cols, i, j, t), vec);
    AssignDot(cols, sv, vec, t, i, j, Get(inst.Ht, t, []));
    TermsDotSingle(AssignTerms(cols, t, i, j, Get(inst.Ht, t, [])), YSCol(cols, t, j), -1.0, vec);
    assert YSVal(sv, t, j) == Val(vec, YSCol(cols, t, j));
  }

  lemma CapRowAudit(inst: InstanceData, cols: Columns, sv: SolvedValues, vec: seq<real>, i: int, tol: real)
    requires SolutionOf(cols, sv, vec)
    ensures RowDot(CapRow(inst, cols, i).acc, vec) == ActiveT(inst, sv, i, inst.T)
    ensures CapIssue(inst, sv, i, tol) == [] <==> Satisfied(CapRow(inst, cols, i), vec, tol)
  {
    AccumulatePreservesDot(CapTermsT(inst, cols, i, inst.T), vec);
    CapTDot(inst, cols, sv, vec, i, inst.T);
  }

  lemma BreakRowDot(inst: InstanceData, cols: Columns, sv: SolvedValues, vec: seq<real>, t: int, j: int)
    requires SolutionOf(cols, sv, vec)
    ensures RowDot(BreakRow(inst, cols, t, j).acc, vec)
         == BreakLoad(inst, sv, t, j, Get(inst.Oj, j, [])) - BreakCap(inst, sv, t, j)
  {
    AccumulatePreservesDot(BreakTerms(inst, cols, t, j), vec);
    BreakIDot(inst, cols, sv, vec, t, j, Get(inst.Oj, j, []));
    BreakTail(inst, cols, sv, vec, t, j);
  }

  lemma BreakRowAudit(inst: InstanceData, cols: Columns, sv: SolvedValues, vec: seq<real>, t: int, j: int, tol: real)
    requires SolutionOf(cols, sv, vec)
    ensures BreakIssue(inst, sv, t, j, tol) == [] <==> Satisfied(BreakRow(inst, cols, t, j), vec, tol)
  {
    BreakRowDot(inst, cols, sv, vec, t, j);
  }

  /** Eq. (10): the updates sum to Σ_{M2} y - w · Σ_M y. */
  lemma ShareTermsDot(inst: InstanceData, cols: Columns, sv: SolvedValues, vec: seq<real>)
    requires SolutionOf(cols, sv, vec)
    ensures TermsDot(ShareTerms(inst, cols), vec) == ShiftsJ(inst, sv, inst.M2) - ShareCap(inst, sv)
  {
    ShareJSum(inst, cols, sv, vec, 1.0, inst.M2);
    ShareJSum(inst, cols, sv, vec, -inst.w, inst.M);
    ShareDot(ShareTermsJ(inst, cols, 1.0, inst.M2), ShareTermsJ(inst, cols, -inst.w, inst.M), vec, inst.w,
             ShiftsJ(inst, sv, inst.M2), ShiftsJ(inst, sv, inst.M), ShareCap(inst, sv));
  }

  lemma ShareRowDot(inst: InstanceData, cols: Columns, sv: SolvedValues, vec: seq<real>)
    requires SolutionOf(cols, sv, vec)
    ensures RowDot(ShareRow(inst, cols).acc, vec) == ShiftsJ(inst, sv, inst.M2) - ShareCap(inst, sv)
  {
    AccumulatePreservesDot(ShareTerms(inst, cols), vec);
    ShareTermsDot(inst, cols, sv, vec);
  }

  lemma ShareRowAudit(inst: InstanceData, cols: Columns, sv: SolvedValues, vec: seq<real>, tol: real)
    requires SolutionOf(cols, sv, vec)
    ensures ShareIssue(inst, sv, tol) == [] <==> Satisfied(ShareRow(inst, cols), vec, tol)
  {
    ShareRowDot(inst, cols, sv, vec);
  }

  // ---------------------------------------------------------------------
  // Whole families: the audit records no issue for a family exactly when
  // a solution meets every row the encoder built for it
  // ---------------------------------------------------------------------

  lemma AllSatisfiedSingle(row: Row, vec: seq<real>, tol: real)
    ensures AllSatisfied([row], vec, tol) <==> Satisfied(row, vec, tol)
  {
    assert row in [row];
  }

  /** Two blocks that each match their rows match as one block. */
  lemma MatchAppend(i1: seq<AuditIssue>, i2: seq<AuditIssue>, r1: seq<Row>, r2: seq<Row>, vec: seq<real>, tol: real)
    requires (i1 == [] <==> AllSatisfied(r1, vec, tol)) && (i2 == [] <==> AllSatisfied(r2, vec, tol))
    ensures i1 + i2 == [] <==> AllSatisfied(r1 + r2, vec, tol)
  {
    IssuesAppend(i1, i2);
    AllSatisfiedAppend(r1, r2, vec, tol);
  }

  lemma {:induction false} DemandFamilyA(inst: InstanceData, cols: Columns, sv: SolvedValues, vec: seq<real>,
                                         ws: bool, win: Window, i: int, avs: seq<int>, tol: real)
    requires SolutionOf(cols, sv, vec) && WindowsKnown(inst, win, ws, avs)
    ensures DemandIssuesA(inst, sv, ws, win, i, avs, tol) == [] <==> AllSatisfied(DemandRowsA(inst, cols, ws, win, i, avs), vec, tol)
    decreases |avs|
  {
    if avs != [] {
      var init := avs[..|avs| - 1];
      var a := avs[|avs| - 1];
      assert a in avs;
      assert forall b | b in init :: b in avs;
      DemandFamilyA(inst, cols, sv, vec, ws, win, i, init, tol);
      DemandRowAudit(inst, cols, sv, vec, ws, win, i, a, tol);
      AllSatisfiedSingle(DemandRow(inst, cols, ws, win, i, a), vec, tol);
      MatchAppend(DemandIssuesA(inst, sv, ws, win, i, init, tol), DemandIssue(inst, sv, ws, win, i, a, tol),
                  DemandRowsA(inst, cols, ws, win, i, init), [DemandRow(inst, cols, ws, win, i, a)], vec, tol);
    }
  }

  /** Eqs. (2)/(3): no demand issue iff every demand row is met. */
  lemma {:induction false} DemandFamily(inst: InstanceData, cols: Columns, sv: SolvedValues, vec: seq<real>,
                                        ws: bool, win: Window, ivs: seq<int>, tol: real)
    requires SolutionOf(cols, sv, vec) && WindowsKnown(inst, win, ws, Independent(inst, win))
    ensures DemandIssuesI(inst, sv, ws, win, ivs, tol) == [] <==> AllSatisfied(DemandRowsI(inst, cols, ws, win, ivs), vec, tol)
    decreases |ivs|
  {
    if ivs != [] {
      var init := ivs[..|ivs| - 1];
      DemandFamily(inst, cols, sv, vec, ws, win, init, tol);
      DemandFamilyA(inst, cols, sv, vec, ws, win, ivs[|ivs| - 1], Independent(inst, win), tol);
      MatchAppend(DemandIssuesI(inst, sv, ws, win, init, tol), DemandIssuesA(inst, sv, ws, win, ivs[|ivs| - 1], Independent(inst, win), tol),
                  DemandRowsI(inst, cols, ws, win, init), DemandRowsA(inst, cols, ws, win, ivs[|ivs| - 1], Independent(inst, win)), vec, tol);
    }
  }

  lemma {:induction false} DependentFamilyA(inst: InstanceData, cols: Columns, sv: SolvedValues, vec: seq<real>,
                                            ws: bool, win: Window, k: int, avs: seq<int>, tol: real)
    requires SolutionOf(cols, sv, vec) && WindowsKnown(inst, win, ws, avs)
    ensures DependentIssuesA(inst, sv, ws, win, k, avs, tol) == [] <==> AllSatisfied(DependentRowsA(inst, cols, ws, win, k, avs), vec, tol)
    decreases |avs|
  {
    if avs != [] {
      var init := avs[..|avs| - 1];
      var a := avs[|avs| - 1];
      assert a in avs;
      assert forall b | b in init :: b in avs;
      DependentFamilyA(inst, cols, sv, vec, ws, win, k, init, tol);
      DependentRowAudit(inst, cols, sv, vec, ws, win, k, a, tol);
      AllSatisfiedSingle(DependentRow(inst, cols, ws, win, k, a), vec, tol);
      MatchAppend(DependentIssuesA(inst, sv, ws, win, k, init, tol), DependentIssue(inst, sv, ws, win, k, a, tol),
                  DependentRowsA(inst, cols, ws, win, k, init), [DependentRow(inst, cols, ws, win, k, a)], vec, tol);
    }
  }

  /** Eqs. (4)/(5): no dependent-demand issue iff every dependent-demand row is met. */
  lemma {:induction false} DependentFamily(inst: InstanceData, cols: Columns, sv: SolvedValues, vec: seq<real>,
                                           ws: bool, win: Window, ks: seq<int>, tol: real)
    requires SolutionOf(cols, sv, vec) && WindowsKnown(inst, win, ws, Dependent(inst, win))
    ensures DependentIssuesK(inst, sv, ws, win, ks, tol) == [] <==> AllSatisfied(DependentRowsK(inst, cols, ws, win, ks), vec, tol)
    decreases |ks|
  {
    if ks != [] {
      var init := ks[..|ks| - 1];
      DependentFamily(inst, cols, sv, vec, ws, win, init, tol);
      DependentFamilyA(inst, cols, sv, vec, ws, win, ks[|ks| - 1], Dependent(inst, win), tol);
      MatchAppend(DependentIssuesK(inst, sv, ws, win, init, tol), DependentIssuesA(inst, sv, ws, win, ks[|ks| - 1], Dependent(inst, win), tol),
                  DependentRowsK(inst, cols, ws, win, init), DependentRowsA(inst, cols, ws, win, ks[|ks| - 1], Dependent(inst, win)), vec, tol);
    }
  }

  lemma {:induction false} StaffFamilyA(inst: InstanceData, cols: Columns, sv: SolvedValues, vec: seq<real>,
                                        k: int, j: int, avs: seq<int>, tol: real)
    requires SolutionOf(cols, sv, vec)
    ensures StaffIssuesA(inst, sv, k, j, avs, tol) == [] <==> AllSatisfied(StaffRowsA(inst, cols, k, j, avs), vec, tol)
    decreases |avs|
  {
    if avs != [] {
      var init := avs[..|avs| - 1];
      var a := avs[|avs| - 1];
      StaffFamilyA(inst, cols, sv, vec, k, j, init, tol);
      StaffRowAudit(inst, cols, sv, vec, k, j, a, tol);
      AllSatisfiedSingle(StaffRow(inst, cols, k, j, a), vec, tol);
      MatchAppend(StaffIssuesA(inst, sv, k, j, init, tol), StaffIssue(inst, sv, k, j, a, tol),
                  StaffRowsA(inst, cols, k, j, init), [StaffRow(inst, cols, k, j, a)], vec, tol);
    }
  }

  lemma {:induction false} StaffFamilyJ(inst: InstanceData, cols: Columns, sv: SolvedValues, vec: seq<real>,
                                        k: int, js: seq<int>, tol: real)
    requires SolutionOf(cols, sv, vec)
    ensures StaffIssuesJ(inst, sv, k, js, tol) == [] <==> AllSatisfied(StaffRowsJ(inst, cols, k, js), vec, tol)
    decreases |js|
  {
    if js != [] {
      var init := js[..|js| - 1];
      StaffFamilyJ(inst, cols, sv, vec, k, init, tol);
      StaffFamilyA(inst, cols, sv, vec, k, js[|js| - 1], inst.A, tol);
      MatchAppend(StaffIssuesJ(inst, sv, k, init, tol), StaffIssuesA(inst, sv, k, js[|js| - 1], inst.A, tol),
                  StaffRowsJ(inst, cols, k, init), StaffRowsA(inst, cols, k, js[|js| - 1], inst.A), vec, tol);
    }
  }

  /** Eq. (6): no staffing issue iff every staffing row is met. */
  lemma {:induction false} StaffFamily(inst: InstanceData, cols: Columns, sv: SolvedValues, vec: seq<real>, ks: seq<int>, tol: real)
    requires SolutionOf(cols, sv, vec)
    ensures StaffIssuesK(inst, sv, ks, tol) == [] <==> AllSatisfied(StaffRowsK(inst, cols, ks), vec, tol)
    decreases |ks|
  {
    if ks != [] {
      var init := ks[..|ks| - 1];
      StaffFamily(inst, cols, sv, vec, init, tol);
      StaffFamilyJ(inst, cols, sv, vec, ks[|ks| - 1], inst.M, tol);
      MatchAppend(StaffIssuesK(inst, sv, init, tol), StaffIssuesJ(inst, sv, ks[|ks| - 1], inst.M, tol),
                  StaffRowsK(inst, cols, init), StaffRowsJ(inst, cols, ks[|ks| - 1], inst.M), vec, tol);
    }
  }

  lemma {:induction false} ShiftLinkFamilyT(inst: InstanceData, cols: Columns, sv: SolvedValues, vec: seq<real>,
                                            i: int, j: int, ts: seq<int>, tol: real)
    requires SolutionOf(cols, sv, vec)
    ensures ShiftLinkIssuesT(inst, sv, i, j, ts, tol) == [] <==> AllSatisfied(ShiftLinkRowsT(inst, cols, i, j, ts), vec, tol)
    decreases |ts|
  {
    if ts != [] {
      var init := ts[..|ts| - 1];
      var t := ts[|ts| - 1];
      ShiftLinkFamilyT(inst, cols, sv, vec, i, j, init, tol);
      ShiftLinkRowAudit(inst, cols, sv, vec, i, j, t, tol);
      AllSatisfiedSingle(ShiftLinkRow(inst, cols, i, j, t), vec, tol);
      MatchAppend(ShiftLinkIssuesT(inst, sv, i, j, init, tol), ShiftLinkIssue(inst, sv, i, j, t, tol),
                  ShiftLinkRowsT(inst, cols, i, j, init), [ShiftLinkRow(inst, cols, i, j, t)], vec, tol);
    }
  }

  lemma {:induction false} ShiftLinkFamilyJ(inst: InstanceData, cols: Columns, sv: SolvedValues, vec: seq<real>,
                                            i: int, js: seq<int>, tol: real)
    requires SolutionOf(cols, sv, vec)
    ensures ShiftLinkIssuesJ(inst, sv, i, js, tol) == [] <==> AllSatisfied(ShiftLinkRowsJ(inst, cols, i, js), vec, tol)
    decreases |js|
  {
    if js != [] {
      var init := js[..|js| - 1];
      ShiftLinkFamilyJ(inst, cols, sv, vec, i, init, tol);
      ShiftLinkFamilyT(inst, cols, sv, vec, i, js[|js| - 1], inst.T, tol);
      MatchAppend(ShiftLinkIssuesJ(inst, sv, i, init, tol), ShiftLinkIssuesT(inst, sv, i, js[|js| - 1], inst.T, tol),
                  ShiftLinkRowsJ(inst, cols, i, init), ShiftLinkRowsT(inst, cols, i, js[|js| - 1], inst.T), vec, tol);
    }
  }

  /** Eq. (7): no shift-link issue iff every shift-link row is met. */
  lemma {:induction false} ShiftLinkFamily(inst: InstanceData, cols: Columns, sv: SolvedValues, vec: seq<real>, ivs: seq<int>, tol: real)
    requires SolutionOf(cols, sv, vec)
    ensures ShiftLinkIssuesI(inst, sv, ivs, tol) == [] <==> AllSatisfied(ShiftLinkRowsI(inst, cols, ivs), vec, tol)
    decreases |ivs|
  {
    if ivs != [] {
      var init := ivs[..|ivs| - 1];
      ShiftLinkFamily(inst, cols, sv, vec, init, tol);
      ShiftLinkFamilyJ(inst, cols, sv, vec, ivs[|ivs| - 1], inst.M, tol);
      MatchAppend(ShiftLinkIssuesI(inst, sv, init, tol), ShiftLinkIssuesJ(inst, sv, ivs[|ivs| - 1], inst.M, tol),
                  ShiftLinkRowsI(inst, cols, init), ShiftLinkRowsJ(inst, cols, ivs[|ivs| - 1], inst.M), vec, tol);
    }
  }

  /** Eq. (8): no capacity issue iff every capacity row is met. */
  lemma {:induction false} CapFamily(inst: InstanceData, cols: Columns, sv: SolvedValues, vec: seq<real>, ivs: seq<int>, tol: real)
    requires SolutionOf(cols, sv, vec)
    ensures CapIssues(inst, sv, ivs, tol) == [] <==> AllSatisfied(CapRows(inst, cols, ivs), vec, tol)
    decreases |ivs|
  {
    if ivs != [] {
      var init := ivs[..|ivs| - 1];
      var i := ivs[|ivs| - 1];
      CapFamily(inst, cols, sv, vec, init, tol);
      CapRowAudit(inst, cols, sv, vec, i, tol);
      AllSatisfiedSingle(CapRow(inst, cols, i), vec, tol);
      MatchAppend(CapIssues(inst, sv, init, tol), CapIssue(inst, sv, i, tol),
                  CapRows(inst, cols, init), [CapRow(inst, cols, i)], vec, tol);
    }
  }

  lemma {:induction false} BreakFamilyJ(inst: InstanceData, cols: Columns, sv: SolvedValues, vec: seq<real>,
                                        t: int, js: seq<int>, tol: real)
    requires SolutionOf(cols, sv, vec)
    ensures BreakIssuesJ(inst, sv, t, js, tol) == [] <==> AllSatisfied(BreakRowsJ(inst, cols, t, js), vec, tol)
    decreases |js|
  {
    if js != [] {
      var init := js[..|js| - 1];
      var j := js[|js| - 1];
      BreakFamilyJ(inst, cols, sv, vec, t, init, tol);
      BreakRowAudit(inst, cols, sv, vec, t, j, tol);
      AllSatisfiedSingle(BreakRow(inst, cols, t, j), vec, tol);
      MatchAppend(BreakIssuesJ(inst, sv, t, init, tol), BreakIssue(inst, sv, t, j, tol),
                  BreakRowsJ(inst, cols, t, init), [BreakRow(inst, cols, t, j)], vec, tol);
    }
  }

  /** Eq. (9): no break-window issue iff every break-window row is met. */
  lemma {:induction false} BreakFamily(inst: InstanceData, cols: Columns, sv: SolvedValues, vec: seq<real>, ts: seq<int>, tol: real)
    requires SolutionOf(cols, sv, vec)
    ensures BreakIssuesT(inst, sv, ts, tol) == [] <==> AllSatisfied(BreakRowsT(inst, cols, ts), vec, tol)
    decreases |ts|
  {
    if ts != [] {
      var init := ts[..|ts| - 1];
      BreakFamily(inst, cols, sv, vec, init, tol);
      BreakFamilyJ(inst, cols, sv, vec, ts[|ts| - 1], inst.M1, tol);
      MatchAppend(BreakIssuesT(inst, sv, init, tol), BreakIssuesJ(inst, sv, ts[|ts| - 1], inst.M1, tol),
                  BreakRowsT(inst, cols, init), BreakRowsJ(inst, cols, ts[|ts| - 1], inst.M1), vec, tol);
    }
  }

  // ---------------------------------------------------------------------
  // The whole matrix
  // ---------------------------------------------------------------------

  /** Eqs. (2)-(5): the windowed families' issues match the windowed rows. */
  lemma WindowFamilies(inst: InstanceData, cols: Columns, sv: SolvedValues, vec: seq<real>, ws: bool, tol: real)
    requires SolutionOf(cols, sv, vec) && EncodableWindows(inst, ws)
    ensures WindowIssues(inst, sv, ws, tol) == [] <==> AllSatisfied(WindowRows(inst, cols, ws), vec, tol)
  {
    DemandFamily(inst, cols, sv, vec, ws, Deadline, inst.N, tol);
    DemandFamily(inst, cols, sv, vec, ws, Release, inst.N, tol);
    DependentFamily(inst, cols, sv, vec, ws, Deadline, inst.N, tol);
    DependentFamily(inst, cols, sv, vec, ws, Release, inst.N, tol);
    MatchAppend(DemandIssuesI(inst, sv, ws, Deadline, inst.N, tol), DemandIssuesI(inst, sv, ws, Release, inst.N, tol),
                DemandRowsI(inst, cols, ws, Deadline, inst.N), DemandRowsI(inst, cols, ws, Release, inst.N), vec, tol);
    MatchAppend(DemandIssuesI(inst, sv, ws, Deadline, inst.N, tol) + DemandIssuesI(inst, sv, ws, Release, inst.N, tol),
                DependentIssuesK(inst, sv, ws, Deadline, inst.N, tol),
                DemandRowsI(inst, cols, ws, Deadline, inst.N) + DemandRowsI(inst, cols, ws, Release, inst.N),
                DependentRowsK(inst, cols, ws, Deadline, inst.N), vec, tol);
    MatchAppend(DemandIssuesI(inst, sv, ws, Deadline, inst.N, tol) + DemandIssuesI(inst, sv, ws, Release, inst.N, tol)
                + DependentIssuesK(inst, sv, ws, Deadline, inst.N, tol),
                DependentIssuesK(inst, sv, ws, Release, inst.N, tol),
                DemandRowsI(inst, cols, ws, Deadline, inst.N) + DemandRowsI(inst, cols, ws, Release, inst.N)
                + DependentRowsK(inst, cols, ws, Deadline, inst.N),
                DependentRowsK(inst, cols, ws, Release, inst.N), vec, tol);
  }

  /** Eqs. (6)-(10): the fixed families' issues match the fixed rows. */
  lemma FixedFamilies(inst: InstanceData, cols: Columns, sv: SolvedValues, vec: seq<real>, tol: real)
    requires SolutionOf(cols, sv, vec)
    ensures FixedIssues(inst, sv, tol) == [] <==> AllSatisfied(FixedRows(inst, cols), vec, tol)
  {
    StaffFamily(inst, cols, sv, vec, inst.N, tol);
    ShiftLinkFamily(inst, cols, sv, vec, inst.N, tol);
    CapFamily(inst, cols, sv, vec, inst.N, tol);
    BreakFamily(inst, cols, sv, vec, inst.T, tol);
    ShareRowAudit(inst, cols, sv, vec, tol);
    AllSatisfiedSingle(ShareRow(inst, cols), vec, tol);
    MatchAppend(StaffIssuesK(inst, sv, inst.N, tol), ShiftLinkIssuesI(inst, sv, inst.N, tol),
                StaffRowsK(inst, cols, inst.N), ShiftLinkRowsI(inst, cols, inst.N), vec, tol);
    MatchAppend(StaffIssuesK(inst, sv, inst.N, tol) + ShiftLinkIssuesI(inst, sv, inst.N, tol), CapIssues(inst, sv, inst.N, tol),
                StaffRowsK(inst, cols, inst.N) + ShiftLinkRowsI(inst, cols, inst.N), CapRows(inst, cols, inst.N), vec, tol);
    MatchAppend(StaffIssuesK(inst, sv, inst.N, tol) + ShiftLinkIssuesI(inst, sv, inst.N, tol) + CapIssues(inst, sv, inst.N, tol),
                BreakIssuesT(inst, sv, inst.T, tol),
                StaffRowsK(inst, cols, inst.N) + ShiftLinkRowsI(inst, cols, inst.N) + CapRows(inst, cols, inst.N),
                BreakRowsT(inst, cols, inst.T), vec, tol);
    MatchAppend(StaffIssuesK(inst, sv, inst.N, tol) + ShiftLinkIssuesI(inst, sv, inst.N, tol) + CapIssues(inst, sv, inst.N, tol)
                + BreakIssuesT(inst, sv, inst.T, tol),
                ShareIssue(inst, sv, tol),
                StaffRowsK(inst, cols, inst.N) + ShiftLinkRowsI(inst, cols, inst.N) + CapRows(inst, cols, inst.N)
                + BreakRowsT(inst, cols, inst.T),
                [ShareRow(inst, cols)], vec, tol);
  }

  /**
   * The audit and the encoder agree: for a solution read through the column maps, the
   * audit records no issue for Eqs. (2)-(10) exactly when every row of the matrix is met
   * to within tol.
   */
  lemma AuditMatchesEncoder(inst: InstanceData, cols: Columns, sv: SolvedValues, vec: seq<real>, ws: bool, tol: real)
    requires SolutionOf(cols, sv, vec) && EncodableWindows(inst, ws)
    ensures RowIssues(inst, sv, ws, tol) == [] <==> AllSatisfied(EncoderRows(inst, cols, ws), vec, tol)
  {
    WindowFamilies(inst, cols, sv, vec, ws, tol);
    FixedFamilies(inst, cols, sv, vec, tol);
    EncoderRowsSplit(inst, cols, ws);
    MatchAppend(WindowIssues(inst, sv, ws, tol), FixedIssues(inst, sv, tol),
                WindowRows(inst, cols, ws), FixedRows(inst, cols), vec, tol);
  }

  /**
   * The whole audit: no issue at all exactly when the solution meets every row to within
   * tol and every solved value lies within tol of the integer round gives it.
   */
  lemma AuditClean(inst: InstanceData, cols: Columns, sv: SolvedValues, vec: seq<real>, ws: bool, tol: real)
    requires SolutionOf(cols, sv, vec) && EncodableWindows(inst, ws)
    ensures AuditIssues(inst, sv, ws, tol) == []
        <==> && AllSatisfied(EncoderRows(inst, cols, ws), vec, tol)
             && (forall p | 0 <= p < |sv.xKeys| :: Distance(Get(sv.x, sv.xKeys[p], 0.0)) <= tol)
             && (forall p | 0 <= p < |sv.yaKeys| :: Distance(Get(sv.ya, sv.yaKeys[p], 0.0)) <= tol)
             && (forall p | 0 <= p < |sv.ysKeys| :: Distance(Get(sv.ys, sv.ysKeys[p], 0.0)) <= tol)
  {
    AuditMatchesEncoder(inst, cols, sv, vec, ws, tol);
    IssuesAppend(RowIssues(inst, sv, ws, tol), IntegralityIssues(sv, tol));
    IssuesAppend(IntegralityX(sv, sv.xKeys, tol), IntegralityYA(sv, sv.yaKeys, tol));
    IssuesAppend(IntegralityX(sv, sv.xKeys, tol) + IntegralityYA(sv, sv.yaKeys, tol), IntegralityYS(sv, sv.ysKeys, tol));
  }
}
