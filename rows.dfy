// The constraint rows of build_waes_model (src/build_waes.py), as functions of the
// instance and the column maps: the window helpers, the updates each row loop makes
// in order, and the rows of each equation family in the order they are appended.
module Rows {
  import opened Seqs
  import opened Instance
  import opened Csr
  import opened Catalog

  // ---------------------------------------------------------------------
  // The execution windows
  // ---------------------------------------------------------------------

  /** Which helper bounds a demand row: the deadline (A1, `_until_a1`) or the release (A2, `_until_a2`). */
  datatype Window = Deadline | Release

  /** `_until_a1`: the last interval a deadline activity's demand may be served in, min(i + v[a], n); v[a] counts as 0 in WS mode. */
  function UntilA1(inst: InstanceData, i: int, a: int, ws: bool): (u: int)
    requires ws || a in inst.v
    ensures var va := if ws then 0 else inst.v[a];
      u <= inst.n && u <= i + va && (u == inst.n || u == i + va)
  {
    var va := if ws then 0 else inst.v[a];
    if i + va <= inst.n then i + va else inst.n
  }

  /** `_until_a2`: the last interval a release activity may be postponed to. */
  function UntilA2(inst: InstanceData, i: int, a: int, ws: bool): (u: int)
    requires ws || a in inst.r
    ensures i <= u
    ensures i <= inst.n ==> u <= inst.n
    ensures ws || inst.r[a] <= 0 ==> u == i
    ensures u > i ==> !ws && u <= inst.r[a] && u <= inst.n && (u == inst.r[a] || u == inst.n)
    ensures !ws && 0 < inst.r[a] && i < inst.r[a] && i < inst.n ==> i < u
  {
    if ws then i
    else
      var ra := inst.r[a];
      if ra <= 0 then i
      else
        var capped := if ra <= inst.n then ra else inst.n;
        if i >= capped then i else capped
  }

  /** The data the window helper of `win` reads for activity a. */
  predicate HasWindow(inst: InstanceData, win: Window, ws: bool, a: int)
  {
    ws || (if win.Deadline? then a in inst.v else a in inst.r)
  }

  ghost predicate WindowsKnown(inst: InstanceData, win: Window, ws: bool, avs: seq<int>)
  {
    forall a | a in avs :: HasWindow(inst, win, ws, a)
  }

  function Until(inst: InstanceData, win: Window, i: int, a: int, ws: bool): int
    requires HasWindow(inst, win, ws, a)
  {
    if win.Deadline? then UntilA1(inst, i, a, ws) else UntilA2(inst, i, a, ws)
  }

  /** From an interval of the horizon and a nonnegative deadline, the window ends inside [i, n]. */
  lemma UntilInHorizon(inst: InstanceData, win: Window, i: int, a: int, ws: bool)
    requires HasWindow(inst, win, ws, a) && i <= inst.n
    requires !ws && win.Deadline? ==> inst.v[a] >= 0
    ensures i <= Until(inst, win, i, a, ws) <= inst.n
  {
  }

  /** In WS mode both helpers return the origin interval. */
  lemma WsWindowCollapses(inst: InstanceData, win: Window, i: int, a: int)
    requires i <= inst.n
    ensures Until(inst, win, i, a, true) == i
  {
  }

  /** The activities of the demand rows: sorted(B ∩ A1) for Eq. (2), sorted(B ∩ A2) for Eq. (3). */
  function Independent(inst: InstanceData, win: Window): seq<int>
  {
    if win.Deadline? then SortedIntersection(inst.B, inst.A1) else SortedIntersection(inst.B, inst.A2)
  }

  /** The activities of the dependency rows: sorted(C ∩ A1) for Eq. (4), sorted(C ∩ A2) for Eq. (5). */
  function Dependent(inst: InstanceData, win: Window): seq<int>
  {
    if win.Deadline? then SortedIntersection(inst.C, inst.A1) else SortedIntersection(inst.C, inst.A2)
  }

  /** Every activity of the four demand families has the window data its helper reads. */
  ghost predicate EncodableWindows(inst: InstanceData, ws: bool)
  {
    && WindowsKnown(inst, Deadline, ws, Independent(inst, Deadline))
    && WindowsKnown(inst, Release, ws, Independent(inst, Release))
    && WindowsKnown(inst, Deadline, ws, Dependent(inst, Deadline))
    && WindowsKnown(inst, Release, ws, Dependent(inst, Release))
  }

  lemma IndependentMember(inst: InstanceData, win: Window, ws: bool, a: int)
    requires PartitionsOk(inst) && WindowsOk(inst) && a in Independent(inst, win)
    ensures a in inst.B && a in inst.A && HasWindow(inst, win, ws, a)
    ensures win.Deadline? ==> a in inst.A1
    ensures win.Release? ==> a in inst.A2
  {
    assert a in Elems(Independent(inst, win));
    assert a in Elems(inst.A);
  }

  lemma DependentMember(inst: InstanceData, win: Window, ws: bool, a: int)
    requires PartitionsOk(inst) && WindowsOk(inst) && a in Dependent(inst, win)
    ensures a in inst.C && a in inst.A && HasWindow(inst, win, ws, a)
    ensures win.Deadline? ==> a in inst.A1
    ensures win.Release? ==> a in inst.A2
  {
    assert a in Elems(Dependent(inst, win));
    assert a in Elems(inst.A);
  }

  lemma IndependentKnown(inst: InstanceData, win: Window, ws: bool)
    requires PartitionsOk(inst) && WindowsOk(inst)
    ensures WindowsKnown(inst, win, ws, Independent(inst, win))
  {
    forall a | a in Independent(inst, win) ensures HasWindow(inst, win, ws, a) {
      IndependentMember(inst, win, ws, a);
    }
  }

  lemma DependentKnown(inst: InstanceData, win: Window, ws: bool)
    requires PartitionsOk(inst) && WindowsOk(inst)
    ensures WindowsKnown(inst, win, ws, Dependent(inst, win))
  {
    forall a | a in Dependent(inst, win) ensures HasWindow(inst, win, ws, a) {
      DependentMember(inst, win, ws, a);
    }
  }

  lemma WellFormedWindows(inst: InstanceData, ws: bool)
    requires PartitionsOk(inst) && WindowsOk(inst)
    ensures EncodableWindows(inst, ws)
  {
    IndependentKnown(inst, Deadline, ws);
    IndependentKnown(inst, Release, ws);
    DependentKnown(inst, Deadline, ws);
    DependentKnown(inst, Release, ws);
  }

  // ---------------------------------------------------------------------
  // Column maps
  // ---------------------------------------------------------------------

  /** The three key maps the rows look their columns up in. */
  datatype Columns = Columns(x: map<XKey, int>, ya: map<YAKey, int>, ys: map<YSKey, int>)

  /** The maps left by the variable-creation loops. */
  function CatalogColumns(inst: InstanceData): Columns
  {
    var names := CatalogNames(inst);
    Columns(XIndex(names), YAIndex(names), YSIndex(names))
  }

  /** Every key a row loop looks up has a column. */
  ghost predicate Covers(inst: InstanceData, cols: Columns)
  {
    && (forall a, i, j, k | a in inst.A && i in inst.N && j in inst.M && k in inst.N :: (a, i, j, k) in cols.x)
    && (forall t, i, j, a | t in inst.T && i in inst.N && j in inst.M && a in inst.A :: (t, i, j, a) in cols.ya)
    && (forall t, j | t in inst.T && j in inst.M :: (t, j) in cols.ys)
  }

  lemma CatalogCovers(inst: InstanceData)
    ensures Covers(inst, CatalogColumns(inst))
  {
    CatalogKeys(inst);
  }

  lemma XCovered(inst: InstanceData, cols: Columns, a: int, i: int, j: int, k: int)
    requires Covers(inst, cols) && a in inst.A && i in inst.N && j in inst.M && k in inst.N
    ensures (a, i, j, k) in cols.x
  {
  }

  lemma YACovered(inst: InstanceData, cols: Columns, t: int, i: int, j: int, a: int)
    requires Covers(inst, cols) && t in inst.T && i in inst.N && j in inst.M && a in inst.A
    ensures (t, i, j, a) in cols.ya
  {
  }

  lemma YSCovered(inst: InstanceData, cols: Columns, t: int, j: int)
    requires Covers(inst, cols) && t in inst.T && j in inst.M
    ensures (t, j) in cols.ys
  {
  }

  /** N = [1..n]: the intervals of the horizon. */
  lemma Horizon(inst: InstanceData, k: int)
    requires inst.N == Range(1, inst.n + 1)
    ensures k in inst.N <==> 1 <= k <= inst.n
  {
    RangeMember(1, inst.n + 1, k);
  }

  /** What the row loops need: a validated instance whose parents are activities, and every column. */
  ghost predicate Ready(inst: InstanceData, cols: Columns)
  {
    WellFormed(inst) && ParentsKnown(inst) && Covers(inst, cols)
  }

  function XCol(cols: Columns, a: int, i: int, j: int, k: int): int
  {
    Get(cols.x, (a, i, j, k), -1)
  }

  function YACol(cols: Columns, t: int, i: int, j: int, a: int): int
  {
    Get(cols.ya, (t, i, j, a), -1)
  }

  function YSCol(cols: Columns, t: int, j: int): int
  {
    Get(cols.ys, (t, j), -1)
  }

  // ---------------------------------------------------------------------
  // The updates of one row, in the order its loops make them. Each function
  // is over the prefix of its loop's sequence run so far.
  // ---------------------------------------------------------------------

  /** Inner loop of Eqs. (2)-(5): `x[(a, i, j, k)] += b[(k, j)]` for k in ks. */
  function WindowTermsK(inst: InstanceData, cols: Columns, a: int, i: int, j: int, ks: seq<int>): seq<Term>
  {
    if ks == [] then []
    else
      var k := ks[|ks| - 1];
      WindowTermsK(inst, cols, a, i, j, ks[..|ks| - 1]) + [Term(XCol(cols, a, i, j, k), Get(inst.b, (k, j), 0) as real)]
  }

  lemma WindowTermsKStep(inst: InstanceData, cols: Columns, a: int, i: int, j: int, k: int)
    requires i <= k
    ensures WindowTermsK(inst, cols, a, i, j, Range(i, k + 1))
      == WindowTermsK(inst, cols, a, i, j, Range(i, k)) + [Term(XCol(cols, a, i, j, k), Get(inst.b, (k, j), 0) as real)]
  {
    RangeStep(i, k);
    var ks := Range(i, k);
    assert (ks + [k])[..|ks + [k]| - 1] == ks;
  }

  /** For j in js, k in range(i, until + 1). */
  function WindowTermsJ(inst: InstanceData, cols: Columns, a: int, i: int, until: int, js: seq<int>): seq<Term>
  {
    if js == [] then []
    else
      WindowTermsJ(inst, cols, a, i, until, js[..|js| - 1])
      + WindowTermsK(inst, cols, a, i, js[|js| - 1], Range(i, until + 1))
  }

  /** Eqs. (4)/(5), for i in is: `x[(parent, i, j, k)] -= coeff`. */
  function ParentTermsI(cols: Columns, parent: int, j: int, k: int, coeff: real, ivs: seq<int>): seq<Term>
  {
    if ivs == [] then []
    else
      ParentTermsI(cols, parent, j, k, coeff, ivs[..|ivs| - 1]) + [Term(XCol(cols, parent, ivs[|ivs| - 1], j, k), -coeff)]
  }

  /** For j in js, i in N. */
  function ParentTermsJ(inst: InstanceData, cols: Columns, parent: int, k: int, coeff: real, js: seq<int>): seq<Term>
  {
    if js == [] then []
    else
      ParentTermsJ(inst, cols, parent, k, coeff, js[..|js| - 1])
      + ParentTermsI(cols, parent, js[|js| - 1], k, coeff, inst.N)
  }

  /** For each parent in ps, with coeff = s[(a, parent)]. */
  function ParentTermsP(inst: InstanceData, cols: Columns, a: int, k: int, ps: seq<int>): seq<Term>
  {
    if ps == [] then []
    else
      var parent := ps[|ps| - 1];
      ParentTermsP(inst, cols, a, k, ps[..|ps| - 1])
      + ParentTermsJ(inst, cols, parent, k, Get(inst.s, (a, parent), 0.0), inst.M)
  }

  /** Eq. (6), for i in is: `x[(a, i, j, k)] += 1`. */
  function StaffXTerms(cols: Columns, a: int, j: int, k: int, ivs: seq<int>): seq<Term>
  {
    if ivs == [] then []
    else StaffXTerms(cols, a, j, k, ivs[..|ivs| - 1]) + [Term(XCol(cols, a, ivs[|ivs| - 1], j, k), 1.0)]
  }

  lemma StaffXStep(cols: Columns, a: int, j: int, k: int, i: int)
    requires 1 <= i
    ensures StaffXTerms(cols, a, j, k, Range(1, i + 1)) == StaffXTerms(cols, a, j, k, Range(1, i)) + [Term(XCol(cols, a, i, j, k), 1.0)]
  {
    RangeStep(1, i);
    var ivs := Range(1, i);
    assert (ivs + [i])[..|ivs + [i]| - 1] == ivs;
  }

  /** Eq. (6), for t in ts: `y_tija[(t, k, j, a)] -= 1`. */
  function StaffYTerms(cols: Columns, a: int, j: int, k: int, ts: seq<int>): seq<Term>
  {
    if ts == [] then []
    else StaffYTerms(cols, a, j, k, ts[..|ts| - 1]) + [Term(YACol(cols, ts[|ts| - 1], k, j, a), -1.0)]
  }

  /** Eqs. (7)-(9), for a in as: `y_tija[(t, i, j, a)] += 1`. */
  function AssignTerms(cols: Columns, t: int, i: int, j: int, avs: seq<int>): seq<Term>
  {
    if avs == [] then []
    else AssignTerms(cols, t, i, j, avs[..|avs| - 1]) + [Term(YACol(cols, t, i, j, avs[|avs| - 1]), 1.0)]
  }

  /** Eq. (8), for j in js, a in A. */
  function CapTermsJ(inst: InstanceData, cols: Columns, t: int, i: int, js: seq<int>): seq<Term>
  {
    if js == [] then []
    else CapTermsJ(inst, cols, t, i, js[..|js| - 1]) + AssignTerms(cols, t, i, js[|js| - 1], inst.A)
  }

  /** Eq. (8), for t in ts, j in M, a in A. */
  function CapTermsT(inst: InstanceData, cols: Columns, i: int, ts: seq<int>): seq<Term>
  {
    if ts == [] then []
    else CapTermsT(inst, cols, i, ts[..|ts| - 1]) + CapTermsJ(inst, cols, ts[|ts| - 1], i, inst.M)
  }

  /** Eq. (9), for i in is, a in Ht[t]. */
  function BreakTermsI(inst: InstanceData, cols: Columns, t: int, j: int, ivs: seq<int>): seq<Term>
  {
    if ivs == [] then []
    else BreakTermsI(inst, cols, t, j, ivs[..|ivs| - 1]) + AssignTerms(cols, t, ivs[|ivs| - 1], j, Get(inst.Ht, t, []))
  }

  /** Eq. (10), for t in ts: `y_tj[(t, j)] += c`. */
  function ShareTermsT(cols: Columns, j: int, c: real, ts: seq<int>): seq<Term>
  {
    if ts == [] then []
    else ShareTermsT(cols, j, c, ts[..|ts| - 1]) + [Term(YSCol(cols, ts[|ts| - 1], j), c)]
  }

  /** Eq. (10), for j in js, t in T. */
  function ShareTermsJ(inst: InstanceData, cols: Columns, c: real, js: seq<int>): seq<Term>
  {
    if js == [] then []
    else ShareTermsJ(inst, cols, c, js[..|js| - 1]) + ShareTermsT(cols, js[|js| - 1], c, inst.T)
  }

  // The whole update list of one row of each family.

  function DemandTerms(inst: InstanceData, cols: Columns, ws: bool, win: Window, i: int, a: int): seq<Term>
    requires HasWindow(inst, win, ws, a)
  {
    WindowTermsJ(inst, cols, a, i, Until(inst, win, i, a, ws), inst.M)
  }

  function DependentTerms(inst: InstanceData, cols: Columns, ws: bool, win: Window, k: int, a: int): seq<Term>
    requires HasWindow(inst, win, ws, a)
  {
    WindowTermsJ(inst, cols, a, k, Until(inst, win, k, a, ws), inst.M)
    + ParentTermsP(inst, cols, a, k, Get(inst.Ga, a, []))
  }

  function StaffTerms(inst: InstanceData, cols: Columns, k: int, j: int, a: int): seq<Term>
  {
    StaffXTerms(cols, a, j, k, Range(1, k + 1)) + StaffYTerms(cols, a, j, k, Get(inst.Ta, a, []))
  }

  function ShiftLinkTerms(inst: InstanceData, cols: Columns, i: int, j: int, t: int): seq<Term>
  {
    AssignTerms(cols, t, i, j, Get(inst.Ht, t, [])) + [Term(YSCol(cols, t, j), -1.0)]
  }

  function BreakTerms(inst: InstanceData, cols: Columns, t: int, j: int): seq<Term>
  {
    BreakTermsI(inst, cols, t, j, Get(inst.Oj, j, [])) + [Term(YSCol(cols, t, j), -((inst.f - inst.p) as real))]
  }

  function ShareTerms(inst: InstanceData, cols: Columns): seq<Term>
  {
    ShareTermsJ(inst, cols, 1.0, inst.M2) + ShareTermsJ(inst, cols, -inst.w, inst.M)
  }

  // ---------------------------------------------------------------------
  // The rows, each with its bounds
  // ---------------------------------------------------------------------

  /** Eqs. (2)/(3): lb = ub = d[(a, i)]. */
  function DemandRow(inst: InstanceData, cols: Columns, ws: bool, win: Window, i: int, a: int): Row
    requires HasWindow(inst, win, ws, a)
  {
    var d := Get(inst.d, (a, i), 0.0);
    Row(Accumulate(DemandTerms(inst, cols, ws, win, i, a)), Fin(d), Fin(d))
  }

  /** Eqs. (4)/(5): [0, inf). */
  function DependentRow(inst: InstanceData, cols: Columns, ws: bool, win: Window, k: int, a: int): Row
    requires HasWindow(inst, win, ws, a)
  {
    Row(Accumulate(DependentTerms(inst, cols, ws, win, k, a)), Fin(0.0), PosInf)
  }

  /** Eq. (6): (-inf, 0]. */
  function StaffRow(inst: InstanceData, cols: Columns, k: int, j: int, a: int): Row
  {
    Row(Accumulate(StaffTerms(inst, cols, k, j, a)), NegInf, Fin(0.0))
  }

  /** Eq. (7): (-inf, 0]. */
  function ShiftLinkRow(inst: InstanceData, cols: Columns, i: int, j: int, t: int): Row
  {
    Row(Accumulate(ShiftLinkTerms(inst, cols, i, j, t)), NegInf, Fin(0.0))
  }

  /** Eq. (8): (-inf, q]. */
  function CapRow(inst: InstanceData, cols: Columns, i: int): Row
  {
    Row(Accumulate(CapTermsT(inst, cols, i, inst.T)), NegInf, Fin(inst.q as real))
  }

  /** Eq. (9): (-inf, 0]. */
  function BreakRow(inst: InstanceData, cols: Columns, t: int, j: int): Row
  {
    Row(Accumulate(BreakTerms(inst, cols, t, j)), NegInf, Fin(0.0))
  }

  /** Eq. (10): (-inf, 0]. */
  function ShareRow(inst: InstanceData, cols: Columns): Row
  {
    Row(Accumulate(ShareTerms(inst, cols)), NegInf, Fin(0.0))
  }

  // ---------------------------------------------------------------------
  // The families, in loop order
  // ---------------------------------------------------------------------

  function DemandRowsA(inst: InstanceData, cols: Columns, ws: bool, win: Window, i: int, avs: seq<int>): seq<Row>
    requires WindowsKnown(inst, win, ws, avs)
  {
    if avs == [] then []
    else
      assert avs[|avs| - 1] in avs;
      DemandRowsA(inst, cols, ws, win, i, avs[..|avs| - 1]) + [DemandRow(inst, cols, ws, win, i, avs[|avs| - 1])]
  }

  /** Eq. (2) (Deadline) or Eq. (3) (Release): for i in ivs, a in the sorted activities. */
  function DemandRowsI(inst: InstanceData, cols: Columns, ws: bool, win: Window, ivs: seq<int>): seq<Row>
    requires WindowsKnown(inst, win, ws, Independent(inst, win))
  {
    if ivs == [] then []
    else
      DemandRowsI(inst, cols, ws, win, ivs[..|ivs| - 1])
      + DemandRowsA(inst, cols, ws, win, ivs[|ivs| - 1], Independent(inst, win))
  }

  function DependentRowsA(inst: InstanceData, cols: Columns, ws: bool, win: Window, k: int, avs: seq<int>): seq<Row>
    requires WindowsKnown(inst, win, ws, avs)
  {
    if avs == [] then []
    else
      assert avs[|avs| - 1] in avs;
      DependentRowsA(inst, cols, ws, win, k, avs[..|avs| - 1]) + [DependentRow(inst, cols, ws, win, k, avs[|avs| - 1])]
  }

  /** Eq. (4) (Deadline) or Eq. (5) (Release): for k in ks, a in the sorted activities. */
  function DependentRowsK(inst: InstanceData, cols: Columns, ws: bool, win: Window, ks: seq<int>): seq<Row>
    requires WindowsKnown(inst, win, ws, Dependent(inst, win))
  {
    if ks == [] then []
    else
      DependentRowsK(inst, cols, ws, win, ks[..|ks| - 1])
      + DependentRowsA(inst, cols, ws, win, ks[|ks| - 1], Dependent(inst, win))
  }

  function StaffRowsA(inst: InstanceData, cols: Columns, k: int, j: int, avs: seq<int>): seq<Row>
  {
    if avs == [] then []
    else StaffRowsA(inst, cols, k, j, avs[..|avs| - 1]) + [StaffRow(inst, cols, k, j, avs[|avs| - 1])]
  }

  function StaffRowsJ(inst: InstanceData, cols: Columns, k: int, js: seq<int>): seq<Row>
  {
    if js == [] then []
    else StaffRowsJ(inst, cols, k, js[..|js| - 1]) + StaffRowsA(inst, cols, k, js[|js| - 1], inst.A)
  }

  /** Eq. (6): for k in ks, j in M, a in A. */
  function StaffRowsK(inst: InstanceData, cols: Columns, ks: seq<int>): seq<Row>
  {
    if ks == [] then []
    else StaffRowsK(inst, cols, ks[..|ks| - 1]) + StaffRowsJ(inst, cols, ks[|ks| - 1], inst.M)
  }

  function ShiftLinkRowsT(inst: InstanceData, cols: Columns, i: int, j: int, ts: seq<int>): seq<Row>
  {
    if ts == [] then []
    else ShiftLinkRowsT(inst, cols, i, j, ts[..|ts| - 1]) + [ShiftLinkRow(inst, cols, i, j, ts[|ts| - 1])]
  }

  function ShiftLinkRowsJ(inst: InstanceData, cols: Columns, i: int, js: seq<int>): seq<Row>
  {
    if js == [] then []
    else ShiftLinkRowsJ(inst, cols, i, js[..|js| - 1]) + ShiftLinkRowsT(inst, cols, i, js[|js| - 1], inst.T)
  }

  /** Eq. (7): for i in ivs, j in M, t in T. */
  function ShiftLinkRowsI(inst: InstanceData, cols: Columns, ivs: seq<int>): seq<Row>
  {
    if ivs == [] then []
    else ShiftLinkRowsI(inst, cols, ivs[..|ivs| - 1]) + ShiftLinkRowsJ(inst, cols, ivs[|ivs| - 1], inst.M)
  }

  /** Eq. (8): for i in ivs. */
  function CapRows(inst: InstanceData, cols: Columns, ivs: seq<int>): seq<Row>
  {
    if ivs == [] then []
    else CapRows(inst, cols, ivs[..|ivs| - 1]) + [CapRow(inst, cols, ivs[|ivs| - 1])]
  }

  function BreakRowsJ(inst: InstanceData, cols: Columns, t: int, js: seq<int>): seq<Row>
  {
    if js == [] then []
    else BreakRowsJ(inst, cols, t, js[..|js| - 1]) + [BreakRow(inst, cols, t, js[|js| - 1])]
  }

  /** Eq. (9): for t in ts, j in M1. */
  function BreakRowsT(inst: InstanceData, cols: Columns, ts: seq<int>): seq<Row>
  {
    if ts == [] then []
    else BreakRowsT(inst, cols, ts[..|ts| - 1]) + BreakRowsJ(inst, cols, ts[|ts| - 1], inst.M1)
  }

  // ---------------------------------------------------------------------
  // One loop step of each family: the rows of s[..p + 1] are those of s[..p]
  // followed by the block for s[p]; `head` is whatever the builder already holds.
  // ---------------------------------------------------------------------
  lemma DemandRowsAStep(inst: InstanceData, cols: Columns, ws: bool, win: Window, i: int, avs: seq<int>, p: int, head: seq<Row>)
    requires WindowsKnown(inst, win, ws, avs) && 0 <= p < |avs|
    ensures WindowsKnown(inst, win, ws, avs[..p]) && WindowsKnown(inst, win, ws, avs[..p + 1])
    ensures HasWindow(inst, win, ws, avs[p])
    ensures head + DemandRowsA(inst, cols, ws, win, i, avs[..p + 1]) == head + DemandRowsA(inst, cols, ws, win, i, avs[..p]) + [DemandRow(inst, cols, ws, win, i, avs[p])]
  {
    assert avs[..p + 1][..p] == avs[..p];
    assert avs[p] in avs;
  }

  lemma DemandRowsIStep(inst: InstanceData, cols: Columns, ws: bool, win: Window, ivs: seq<int>, p: int, head: seq<Row>)
    requires WindowsKnown(inst, win, ws, Independent(inst, win)) && 0 <= p < |ivs|
    ensures head + DemandRowsI(inst, cols, ws, win, ivs[..p + 1]) == head + DemandRowsI(inst, cols, ws, win, ivs[..p]) + DemandRowsA(inst, cols, ws, win, ivs[p], Independent(inst, win))
  {
    assert ivs[..p + 1][..p] == ivs[..p];
  }

  lemma DependentRowsAStep(inst: InstanceData, cols: Columns, ws: bool, win: Window, k: int, avs: seq<int>, p: int, head: seq<Row>)
    requires WindowsKnown(inst, win, ws, avs) && 0 <= p < |avs|
    ensures WindowsKnown(inst, win, ws, avs[..p]) && WindowsKnown(inst, win, ws, avs[..p + 1])
    ensures HasWindow(inst, win, ws, avs[p])
    ensures head + DependentRowsA(inst, cols, ws, win, k, avs[..p + 1]) == head + DependentRowsA(inst, cols, ws, win, k, avs[..p]) + [DependentRow(inst, cols, ws, win, k, avs[p])]
  {
    assert avs[..p + 1][..p] == avs[..p];
    assert avs[p] in avs;
  }

  lemma DependentRowsKStep(inst: InstanceData, cols: Columns, ws: bool, win: Window, ks: seq<int>, p: int, head: seq<Row>)
    requires WindowsKnown(inst, win, ws, Dependent(inst, win)) && 0 <= p < |ks|
    ensures head + DependentRowsK(inst, cols, ws, win, ks[..p + 1]) == head + DependentRowsK(inst, cols, ws, win, ks[..p]) + DependentRowsA(inst, cols, ws, win, ks[p], Dependent(inst, win))
  {
    assert ks[..p + 1][..p] == ks[..p];
  }

  lemma StaffRowsAStep(inst: InstanceData, cols: Columns, k: int, j: int, avs: seq<int>, p: int, head: seq<Row>)
    requires 0 <= p < |avs|
    ensures head + StaffRowsA(inst, cols, k, j, avs[..p + 1]) == head + StaffRowsA(inst, cols, k, j, avs[..p]) + [StaffRow(inst, cols, k, j, avs[p])]
  {
    assert avs[..p + 1][..p] == avs[..p];
  }

  lemma StaffRowsJStep(inst: InstanceData, cols: Columns, k: int, js: seq<int>, p: int, head: seq<Row>)
    requires 0 <= p < |js|
    ensures head + StaffRowsJ(inst, cols, k, js[..p + 1]) == head + StaffRowsJ(inst, cols, k, js[..p]) + StaffRowsA(inst, cols, k, js[p], inst.A)
  {
    assert js[..p + 1][..p] == js[..p];
  }

  lemma StaffRowsKStep(inst: InstanceData, cols: Columns, ks: seq<int>, p: int, head: seq<Row>)
    requires 0 <= p < |ks|
    ensures head + StaffRowsK(inst, cols, ks[..p + 1]) == head + StaffRowsK(inst, cols, ks[..p]) + StaffRowsJ(inst, cols, ks[p], inst.M)
  {
    assert ks[..p + 1][..p] == ks[..p];
  }

  lemma ShiftLinkRowsTStep(inst: InstanceData, cols: Columns, i: int, j: int, ts: seq<int>, p: int, head: seq<Row>)
    requires 0 <= p < |ts|
    ensures head + ShiftLinkRowsT(inst, cols, i, j, ts[..p + 1]) == head + ShiftLinkRowsT(inst, cols, i, j, ts[..p]) + [ShiftLinkRow(inst, cols, i, j, ts[p])]
  {
    assert ts[..p + 1][..p] == ts[..p];
  }

  lemma ShiftLinkRowsJStep(inst: InstanceData, cols: Columns, i: int, js: seq<int>, p: int, head: seq<Row>)
    requires 0 <= p < |js|
    ensures head + ShiftLinkRowsJ(inst, cols, i, js[..p + 1]) == head + ShiftLinkRowsJ(inst, cols, i, js[..p]) + ShiftLinkRowsT(inst, cols, i, js[p], inst.T)
  {
    assert js[..p + 1][..p] == js[..p];
  }

  lemma ShiftLinkRowsIStep(inst: InstanceData, cols: Columns, ivs: seq<int>, p: int, head: seq<Row>)
    requires 0 <= p < |ivs|
    ensures head + ShiftLinkRowsI(inst, cols, ivs[..p + 1]) == head + ShiftLinkRowsI(inst, cols, ivs[..p]) + ShiftLinkRowsJ(inst, cols, ivs[p], inst.M)
  {
    assert ivs[..p + 1][..p] == ivs[..p];
  }

  lemma CapRowsStep(inst: InstanceData, cols: Columns, ivs: seq<int>, p: int, head: seq<Row>)
    requires 0 <= p < |ivs|
    ensures head + CapRows(inst, cols, ivs[..p + 1]) == head + CapRows(inst, cols, ivs[..p]) + [CapRow(inst, cols, ivs[p])]
  {
    assert ivs[..p + 1][..p] == ivs[..p];
  }

  lemma BreakRowsJStep(inst: InstanceData, cols: Columns, t: int, js: seq<int>, p: int, head: seq<Row>)
    requires 0 <= p < |js|
    ensures head + BreakRowsJ(inst, cols, t, js[..p + 1]) == head + BreakRowsJ(inst, cols, t, js[..p]) + [BreakRow(inst, cols, t, js[p])]
  {
    assert js[..p + 1][..p] == js[..p];
  }

  lemma BreakRowsTStep(inst: InstanceData, cols: Columns, ts: seq<int>, p: int, head: seq<Row>)
    requires 0 <= p < |ts|
    ensures head + BreakRowsT(inst, cols, ts[..p + 1]) == head + BreakRowsT(inst, cols, ts[..p]) + BreakRowsJ(inst, cols, ts[p], inst.M1)
  {
    assert ts[..p + 1][..p] == ts[..p];
  }

  /** Every row build_waes_model appends, family by family. */
  function EncoderRows(inst: InstanceData, cols: Columns, ws: bool): seq<Row>
    requires EncodableWindows(inst, ws)
  {
    DemandRowsI(inst, cols, ws, Deadline, inst.N)
    + DemandRowsI(inst, cols, ws, Release, inst.N)
    + DependentRowsK(inst, cols, ws, Deadline, inst.N)
    + DependentRowsK(inst, cols, ws, Release, inst.N)
    + StaffRowsK(inst, cols, inst.N)
    + ShiftLinkRowsI(inst, cols, inst.N)
    + CapRows(inst, cols, inst.N)
    + BreakRowsT(inst, cols, inst.T)
    + [ShareRow(inst, cols)]
  }
}
