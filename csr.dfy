// Rows of the constraint matrix and their compressed-sparse-row encoding
// (the `row` dictionaries and the inner `add_row` of src/build_waes.py).
module Csr {
  import opened Seqs

  /** A finite bound or one of the "inf" / "ninf" sentinels. */
  datatype Bound = Fin(value: real) | PosInf | NegInf

  /** One `row[idx] = row.get(idx, 0.0) + coeff` update. */
  datatype Term = Term(idx: int, coeff: real)

  /**
   * A row dictionary: its keys and the accumulated coefficient per key. The keys are kept
   * in ascending order, the order add_row's sort puts them in before emitting.
   */
  datatype RowAcc = RowAcc(keys: seq<int>, coeff: map<int, real>)
  {
    predicate Valid()
    {
      && StrictlyIncreasing(keys)
      && (forall k | k in keys :: k in coeff)
      && (forall k | k in coeff :: k in keys)
    }

    /** `row[idx] = row.get(idx, 0.0) + coeff`. */
    function Add(t: Term): RowAcc
    {
      if t.idx in coeff then RowAcc(keys, coeff[t.idx := coeff[t.idx] + t.coeff])
      else RowAcc(InsertSorted(keys, t.idx), coeff[t.idx := 0.0 + t.coeff])
    }
  }

  /** Number of keys below x: where x goes in an ascending sequence. */
  function InsertPos(keys: seq<int>, x: int): (p: nat)
    ensures p <= |keys|
  {
    if keys == [] || x < keys[0] then 0 else 1 + InsertPos(keys[1..], x)
  }

  function InsertSorted(keys: seq<int>, x: int): seq<int>
  {
    keys[..InsertPos(keys, x)] + [x] + keys[InsertPos(keys, x)..]
  }

  lemma {:induction false} InsertPosBounds(keys: seq<int>, x: int)
    requires StrictlyIncreasing(keys) && x !in keys
    ensures forall q | 0 <= q < InsertPos(keys, x) :: keys[q] < x
    ensures forall q | InsertPos(keys, x) <= q < |keys| :: x < keys[q]
  {
    if keys != [] && x >= keys[0] {
      assert keys[0] != x;
      InsertPosBounds(keys[1..], x);
      forall q | 1 <= q < |keys| ensures keys[q] == keys[1..][q - 1] { }
    }
  }

  lemma InsertProperties(keys: seq<int>, x: int)
    requires StrictlyIncreasing(keys) && x !in keys
    ensures StrictlyIncreasing(InsertSorted(keys, x))
    ensures forall y :: y in InsertSorted(keys, x) <==> y in keys || y == x
  {
    var p := InsertPos(keys, x);
    InsertPosBounds(keys, x);
    var r := InsertSorted(keys, x);
    assert |r| == |keys| + 1;
    assert forall u | 0 <= u < p :: r[u] == keys[u];
    assert r[p] == x;
    assert forall u | p < u < |r| :: r[u] == keys[u - 1];
    forall u, w | 0 <= u < w < |r| ensures r[u] < r[w] {
      if w < p {
      } else if w == p {
      } else if u < p {
        assert keys[u] < x;
      } else if u == p {
      } else {
        assert keys[u - 1] < keys[w - 1];
      }
    }
    forall y ensures y in r <==> y in keys || y == x {
      if y in keys {
        var q :| 0 <= q < |keys| && keys[q] == y;
        if q < p { assert r[q] == y; } else { assert r[q + 1] == y; }
      }
      if y in r {
        var u :| 0 <= u < |r| && r[u] == y;
        if u < p { assert keys[u] == y; } else if u > p { assert keys[u - 1] == y; }
      }
    }
  }

  lemma AddValid(row: RowAcc, t: Term)
    requires row.Valid()
    ensures row.Add(t).Valid()
    ensures row.Add(t).coeff == row.coeff[t.idx := Get(row.coeff, t.idx, 0.0) + t.coeff]
  {
    if t.idx !in row.coeff {
      InsertProperties(row.keys, t.idx);
    }
  }

  const EmptyRow := RowAcc([], map[])

  /** The dictionary left by applying the updates of `terms` in order to an empty row. */
  function Accumulate(terms: seq<Term>): RowAcc
  {
    if terms == [] then EmptyRow
    else Accumulate(terms[..|terms| - 1]).Add(terms[|terms| - 1])
  }

  lemma {:induction false} AccumulateValid(terms: seq<Term>)
    ensures Accumulate(terms).Valid()
  {
    if terms != [] {
      AccumulateValid(terms[..|terms| - 1]);
      AddValid(Accumulate(terms[..|terms| - 1]), terms[|terms| - 1]);
    }
  }

  lemma AccumulateSnoc(terms: seq<Term>, t: Term)
    ensures Accumulate(terms + [t]) == Accumulate(terms).Add(t)
  {
    assert (terms + [t])[..|terms + [t]| - 1] == terms;
  }

  /** The dictionary left by applying the updates of `terms` in order to `row`. */
  function AddAll(row: RowAcc, terms: seq<Term>): RowAcc
  {
    if terms == [] then row
    else AddAll(row, terms[..|terms| - 1]).Add(terms[|terms| - 1])
  }

  lemma AddAllSnoc(row: RowAcc, terms: seq<Term>, t: Term)
    ensures AddAll(row, terms + [t]) == AddAll(row, terms).Add(t)
  {
    assert (terms + [t])[..|terms + [t]| - 1] == terms;
  }

  /** Updating in two runs is updating with the concatenation. */
  lemma {:induction false} AddAllAppend(row: RowAcc, t1: seq<Term>, t2: seq<Term>)
    ensures AddAll(row, t1 + t2) == AddAll(AddAll(row, t1), t2)
  {
    if t2 == [] {
      assert t1 + t2 == t1;
    } else {
      var init := t2[..|t2| - 1];
      assert (t1 + t2)[..|t1 + t2| - 1] == t1 + init;
      AddAllAppend(row, t1, init);
    }
  }

  lemma {:induction false} AccumulateIsAddAll(terms: seq<Term>)
    ensures Accumulate(terms) == AddAll(EmptyRow, terms)
  {
    if terms != [] {
      AccumulateIsAddAll(terms[..|terms| - 1]);
    }
  }

  /** Indices touched by a list of updates. */
  function Indices(terms: seq<Term>): set<int>
  {
    if terms == [] then {} else Indices(terms[..|terms| - 1]) + {terms[|terms| - 1].idx}
  }

  /** Sum of the updates of `terms` made at index k. */
  function CoeffSum(terms: seq<Term>, k: int): real
  {
    if terms == [] then 0.0
    else CoeffSum(terms[..|terms| - 1], k) + (if terms[|terms| - 1].idx == k then terms[|terms| - 1].coeff else 0.0)
  }

  lemma {:induction false} CoeffSumUntouched(terms: seq<Term>, k: int)
    requires k !in Indices(terms)
    ensures CoeffSum(terms, k) == 0.0
  {
    if terms != [] {
      CoeffSumUntouched(terms[..|terms| - 1], k);
    }
  }

  /** Summing repeated keys: the dictionary holds each touched index once, with the sum of its updates. */
  lemma {:induction false} AccumulateSums(terms: seq<Term>)
    ensures Accumulate(terms).coeff.Keys == Indices(terms)
    ensures forall k | k in Accumulate(terms).coeff :: Accumulate(terms).coeff[k] == CoeffSum(terms, k)
  {
    if terms != [] {
      var init := terms[..|terms| - 1];
      var t := terms[|terms| - 1];
      AccumulateSums(init);
      if t.idx !in Indices(init) {
        CoeffSumUntouched(init, t.idx);
      }
    }
  }

  // ---------------------------------------------------------------------
  // Emission of one row: ascending keys, near-zero entries skipped
  // ---------------------------------------------------------------------

  function Abs(x: real): real
  {
    if x < 0.0 then -x else x
  }

  /** Keys of `ks` whose coefficient is not within eps of zero, in the order of `ks`. */
  function KeptKeys(ks: seq<int>, coeff: map<int, real>, eps: real): seq<int>
  {
    if ks == [] then []
    else
      var rest := KeptKeys(ks[..|ks| - 1], coeff, eps);
      if Abs(Get(coeff, ks[|ks| - 1], 0.0)) > eps then rest + [ks[|ks| - 1]] else rest
  }

  lemma {:induction false} KeptKeysProperties(ks: seq<int>, coeff: map<int, real>, eps: real)
    ensures forall k :: k in KeptKeys(ks, coeff, eps) <==> k in ks && Abs(Get(coeff, k, 0.0)) > eps
    ensures StrictlyIncreasing(ks) ==> StrictlyIncreasing(KeptKeys(ks, coeff, eps))
  {
    KeptKeysMember(ks, coeff, eps);
    if StrictlyIncreasing(ks) {
      KeptKeysIncreasing(ks, coeff, eps);
    }
  }

  lemma {:induction false} KeptKeysMember(ks: seq<int>, coeff: map<int, real>, eps: real)
    ensures forall k :: k in KeptKeys(ks, coeff, eps) <==> k in ks && Abs(Get(coeff, k, 0.0)) > eps
  {
    if ks != [] {
      var init := ks[..|ks| - 1];
      assert ks == init + [ks[|ks| - 1]];
      KeptKeysMember(init, coeff, eps);
    }
  }

  lemma {:induction false} KeptKeysIncreasing(ks: seq<int>, coeff: map<int, real>, eps: real)
    requires StrictlyIncreasing(ks)
    ensures StrictlyIncreasing(KeptKeys(ks, coeff, eps))
  {
    if ks != [] {
      var init := ks[..|ks| - 1];
      var k := ks[|ks| - 1];
      var rest := KeptKeys(init, coeff, eps);
      assert StrictlyIncreasing(init);
      KeptKeysIncreasing(init, coeff, eps);
      if Abs(Get(coeff, k, 0.0)) > eps {
        KeptKeysMember(init, coeff, eps);
        forall y | y in rest ensures y < k {
          var q :| 0 <= q < |init| && init[q] == y;
          assert ks[q] == y;
        }
        SnocIncreasing(rest, k);
      }
    }
  }

  lemma SnocIncreasing(s: seq<int>, x: int)
    requires StrictlyIncreasing(s) && forall y | y in s :: y < x
    ensures StrictlyIncreasing(s + [x])
  {
    forall p, q | 0 <= p < q < |s| + 1 ensures (s + [x])[p] < (s + [x])[q] {
      if q == |s| {
        assert s[p] in s;
      }
    }
  }

  /** coeff[k] for each k of ks, in order. */
  function CoeffsOf(ks: seq<int>, coeff: map<int, real>): (vs: seq<real>)
    ensures |vs| == |ks|
  {
    if ks == [] then [] else CoeffsOf(ks[..|ks| - 1], coeff) + [Get(coeff, ks[|ks| - 1], 0.0)]
  }

  lemma {:induction false} CoeffsOfAt(ks: seq<int>, coeff: map<int, real>)
    ensures forall p | 0 <= p < |ks| :: CoeffsOf(ks, coeff)[p] == Get(coeff, ks[p], 0.0)
  {
    if ks != [] {
      CoeffsOfAt(ks[..|ks| - 1], coeff);
    }
  }

  /** Column indices add_row emits for a row dictionary. */
  function EmitIndices(row: RowAcc, eps: real): seq<int>
  {
    KeptKeys(row.keys, row.coeff, eps)
  }

  /** The matching values: each emitted index's accumulated coefficient. */
  function EmitValues(row: RowAcc, eps: real): (vs: seq<real>)
    ensures |vs| == |EmitIndices(row, eps)|
  {
    CoeffsOf(EmitIndices(row, eps), row.coeff)
  }

  /** Emitted indices are strictly increasing, are exactly the keys with |coefficient| > eps, and carry them. */
  lemma EmitProperties(row: RowAcc, eps: real)
    requires row.Valid()
    ensures StrictlyIncreasing(EmitIndices(row, eps))
    ensures forall k :: k in EmitIndices(row, eps) <==> k in row.coeff && Abs(row.coeff[k]) > eps
    ensures forall p | 0 <= p < |EmitValues(row, eps)| ::
      EmitValues(row, eps)[p] == row.coeff[EmitIndices(row, eps)[p]] && Abs(EmitValues(row, eps)[p]) > eps
  {
    var ix := EmitIndices(row, eps);
    KeptKeysProperties(row.keys, row.coeff, eps);
    CoeffsOfAt(ix, row.coeff);
    forall p | 0 <= p < |ix| ensures ix[p] in row.coeff && Abs(row.coeff[ix[p]]) > eps {
      assert ix[p] in ix;
    }
  }

  // ---------------------------------------------------------------------
  // The whole matrix
  // ---------------------------------------------------------------------

  /** One appended row: its dictionary and its bounds. */
  datatype Row = Row(acc: RowAcc, lb: Bound, ub: Bound)

  /** Row r of the arrays: its segment is well placed and holds the row's emission and bounds. */
  ghost predicate SegmentOf(offsets: seq<int>, indices: seq<int>, values: seq<real>,
                            lower: seq<Bound>, upper: seq<Bound>, rows: seq<Row>, eps: real, r: int)
    requires 0 <= r < |rows| && |offsets| == |rows| + 1 && |lower| == |rows| == |upper|
  {
    && rows[r].acc.Valid()
    && 0 <= offsets[r] <= offsets[r + 1] <= |indices| == |values|
    && lower[r] == rows[r].lb && upper[r] == rows[r].ub
    && indices[offsets[r]..offsets[r + 1]] == EmitIndices(rows[r].acc, eps)
    && values[offsets[r]..offsets[r + 1]] == EmitValues(rows[r].acc, eps)
  }

  /**
   * The CSR arrays encode `rows`: offsets start at 0 and end at |indices| = |values|, and
   * every row's segment holds exactly that row's emission.
   */
  ghost predicate IsCsrOf(offsets: seq<int>, indices: seq<int>, values: seq<real>,
                          lower: seq<Bound>, upper: seq<Bound>, rows: seq<Row>, eps: real)
  {
    && |offsets| == |rows| + 1
    && offsets[0] == 0
    && offsets[|rows|] == |indices| == |values|
    && |lower| == |rows| == |upper|
    && (forall r, r2 | 0 <= r <= r2 <= |rows| :: offsets[r] <= offsets[r2])
    && (forall r | 0 <= r < |rows| :: SegmentOf(offsets, indices, values, lower, upper, rows, eps, r))
  }

  /** Appending one emitted row keeps the encoding. */
  lemma CsrAppend(offsets: seq<int>, indices: seq<int>, values: seq<real>,
                  lower: seq<Bound>, upper: seq<Bound>, rows: seq<Row>, eps: real, row: Row)
    requires IsCsrOf(offsets, indices, values, lower, upper, rows, eps)
    requires row.acc.Valid()
    ensures IsCsrOf(offsets + [|indices| + |EmitIndices(row.acc, eps)|],
                    indices + EmitIndices(row.acc, eps), values + EmitValues(row.acc, eps),
                    lower + [row.lb], upper + [row.ub], rows + [row], eps)
  {
    var offs := offsets + [|indices| + |EmitIndices(row.acc, eps)|];
    var ix := indices + EmitIndices(row.acc, eps);
    var vs := values + EmitValues(row.acc, eps);
    var lo := lower + [row.lb];
    var up := upper + [row.ub];
    var rs := rows + [row];
    forall r | 0 <= r < |rs|
      ensures SegmentOf(offs, ix, vs, lo, up, rs, eps, r)
    {
      if r < |rows| {
        assert SegmentOf(offsets, indices, values, lower, upper, rows, eps, r);
        assert ix[offs[r]..offs[r + 1]] == indices[offsets[r]..offsets[r + 1]];
        assert vs[offs[r]..offs[r + 1]] == values[offsets[r]..offsets[r + 1]];
      } else {
        assert ix[offs[r]..offs[r + 1]] == EmitIndices(row.acc, eps);
        assert vs[offs[r]..offs[r + 1]] == EmitValues(row.acc, eps);
      }
    }
  }

  /**
   * Well-formed CSR: offsets never decrease, within every row the column indices strictly
   * increase, and no emitted value is within eps of zero.
   */
  lemma CsrWellFormed(offsets: seq<int>, indices: seq<int>, values: seq<real>,
                      lower: seq<Bound>, upper: seq<Bound>, rows: seq<Row>, eps: real)
    requires IsCsrOf(offsets, indices, values, lower, upper, rows, eps)
    ensures offsets[0] == 0 && offsets[|rows|] == |indices| == |values|
    ensures forall r, r2 | 0 <= r <= r2 <= |rows| :: offsets[r] <= offsets[r2]
    ensures forall r | 0 <= r < |rows| :: StrictlyIncreasing(indices[offsets[r]..offsets[r + 1]])
    ensures forall p | 0 <= p < |values| :: Abs(values[p]) > eps
  {
    forall r | 0 <= r < |rows| ensures StrictlyIncreasing(indices[offsets[r]..offsets[r + 1]]) {
      assert SegmentOf(offsets, indices, values, lower, upper, rows, eps, r);
      EmitProperties(rows[r].acc, eps);
    }
    forall p | 0 <= p < |values| ensures Abs(values[p]) > eps {
      var r := RowOf(offsets, |rows|, p);
      assert SegmentOf(offsets, indices, values, lower, upper, rows, eps, r);
      EmitProperties(rows[r].acc, eps);
      var seg := values[offsets[r]..offsets[r + 1]];
      assert values[p] == seg[p - offsets[r]];
    }
  }

  /** The row whose segment holds position p. */
  lemma RowOf(offs: seq<int>, n: nat, p: int) returns (r: nat)
    requires |offs| == n + 1 && offs[0] <= p < offs[n]
    requires forall r, r2 | 0 <= r <= r2 <= n :: offs[r] <= offs[r2]
    ensures r < n && offs[r] <= p < offs[r + 1]
  {
    r := 0;
    while offs[r + 1] <= p
      invariant r < n && offs[r] <= p
      decreases n - r
    {
      r := r + 1;
    }
  }

  // ---------------------------------------------------------------------
  // The builder: the five payload lists add_row appends to
  // ---------------------------------------------------------------------

  class CsrBuilder {
    var offsets: seq<int>
    var indices: seq<int>
    var values: seq<real>
    var lower: seq<Bound>
    var upper: seq<Bound>
    /** The drop threshold of add_row. */
    const eps: real
    /** The rows appended so far. */
    ghost var rows: seq<Row>

    ghost predicate Valid()
      reads this
    {
      IsCsrOf(offsets, indices, values, lower, upper, rows, eps)
    }

    constructor (eps: real)
      ensures Valid() && rows == [] && this.eps == eps
      ensures offsets == [0] && indices == [] && values == [] && lower == [] && upper == []
    {
      this.eps := eps;
      offsets := [0];
      indices := [];
      values := [];
      lower := [];
      upper := [];
      rows := [];
    }

    /** add_row: emit the non-negligible entries in ascending index order, then close the row. */
    method AddRow(row: RowAcc, lb: Bound, ub: Bound)
      requires Valid() && row.Valid()
      modifies this
      ensures Valid()
      ensures rows == old(rows) + [Row(row, lb, ub)]
      ensures indices == old(indices) + EmitIndices(row, eps)
      ensures values == old(values) + EmitValues(row, eps)
      ensures offsets == old(offsets) + [|indices|]
      ensures lower == old(lower) + [lb] && upper == old(upper) + [ub]
    {
      var ix, vs := EmitEntries(row, eps);
      CsrAppend(offsets, indices, values, lower, upper, rows, eps, Row(row, lb, ub));
      indices := indices + ix;
      values := values + vs;
      offsets := offsets + [|indices|];
      lower := lower + [lb];
      upper := upper + [ub];
      rows := rows + [Row(row, lb, ub)];
    }
  }

  /** The loop of add_row: the entries whose |coefficient| exceeds eps, in ascending index order. */
  method EmitEntries(row: RowAcc, eps: real) returns (ix: seq<int>, vs: seq<real>)
    requires row.Valid()
    ensures ix == EmitIndices(row, eps) && vs == EmitValues(row, eps)
  {
    var ks := row.keys;
    ix, vs := [], [];
    for p := 0 to |ks|
      invariant ix == KeptKeys(ks[..p], row.coeff, eps)
      invariant vs == CoeffsOf(ix, row.coeff)
    {
      var k := ks[p];
      assert ks[..p + 1][..p] == ks[..p];
      assert k in row.coeff by {
        assert ks[p] in ks;
      }
      var c := row.coeff[k];
      if Abs(c) <= eps {
        continue;
      }
      assert (ix + [k])[..|ix + [k]| - 1] == ix;
      ix := ix + [k];
      vs := vs + [c];
    }
    assert ks[..|ks|] == ks;
  }

  // ---------------------------------------------------------------------
  // Row activity against a solution vector
  // ---------------------------------------------------------------------

  function Val(vec: seq<real>, idx: int): real
  {
    if 0 <= idx < |vec| then vec[idx] else 0.0
  }

  /** Σ coeff·vec[idx] over a list of updates. */
  function TermsDot(terms: seq<Term>, vec: seq<real>): real
  {
    if terms == [] then 0.0
    else TermsDot(terms[..|terms| - 1], vec) + terms[|terms| - 1].coeff * Val(vec, terms[|terms| - 1].idx)
  }

  /** Σ coeff[k]·vec[k] over the keys of `ks`. */
  function KeysDot(ks: seq<int>, coeff: map<int, real>, vec: seq<real>): real
  {
    if ks == [] then 0.0
    else KeysDot(ks[..|ks| - 1], coeff, vec) + Get(coeff, ks[|ks| - 1], 0.0) * Val(vec, ks[|ks| - 1])
  }

  lemma KeysDotSnoc(ks: seq<int>, k: int, coeff: map<int, real>, vec: seq<real>)
    ensures KeysDot(ks + [k], coeff, vec) == KeysDot(ks, coeff, vec) + Get(coeff, k, 0.0) * Val(vec, k)
  {
    assert (ks + [k])[..|ks + [k]| - 1] == ks;
  }

  /** The activity of a row dictionary. */
  function RowDot(row: RowAcc, vec: seq<real>): real
  {
    KeysDot(row.keys, row.coeff, vec)
  }

  lemma {:induction false} TermsDotAppend(t1: seq<Term>, t2: seq<Term>, vec: seq<real>)
    ensures TermsDot(t1 + t2, vec) == TermsDot(t1, vec) + TermsDot(t2, vec)
    decreases |t2|
  {
    if t2 != [] {
      assert (t1 + t2)[..|t1 + t2| - 1] == t1 + t2[..|t2| - 1];
      TermsDotAppend(t1, t2[..|t2| - 1], vec);
    } else {
      assert t1 + t2 == t1;
    }
  }

  /** Summing repeated keys does not change the activity: the dictionary's dot product is the updates'. */
  lemma {:induction false} AccumulatePreservesDot(terms: seq<Term>, vec: seq<real>)
    ensures RowDot(Accumulate(terms), vec) == TermsDot(terms, vec)
  {
    if terms != [] {
      var init := terms[..|terms| - 1];
      var t := terms[|terms| - 1];
      AccumulateValid(init);
      calc {
        RowDot(Accumulate(terms), vec);
        RowDot(Accumulate(init).Add(t), vec);
        { AddDot(Accumulate(init), t, vec); }
        RowDot(Accumulate(init), vec) + t.coeff * Val(vec, t.idx);
        { AccumulatePreservesDot(init, vec); }
        TermsDot(init, vec) + t.coeff * Val(vec, t.idx);
        TermsDot(terms, vec);
      }
    }
  }

  lemma AddDot(row: RowAcc, t: Term, vec: seq<real>)
    requires row.Valid()
    ensures RowDot(row.Add(t), vec) == RowDot(row, vec) + t.coeff * Val(vec, t.idx)
  {
    if t.idx in row.coeff {
      AddDotPresent(row, t, vec);
    } else {
      AddDotAbsent(row, t, vec);
    }
  }

  lemma AddDotPresent(row: RowAcc, t: Term, vec: seq<real>)
    requires row.Valid() && t.idx in row.coeff
    ensures RowDot(row.Add(t), vec) == RowDot(row, vec) + t.coeff * Val(vec, t.idx)
  {
    var g := row.coeff[t.idx];
    var c2 := row.coeff[t.idx := g + t.coeff];
    var vk := Val(vec, t.idx);
    assert row.Add(t) == RowAcc(row.keys, c2);
    assert t.idx in row.keys;
    KeysDotUpdate(row.keys, row.coeff, t.idx, g + t.coeff, vec);
    assert Get(row.coeff, t.idx, 0.0) == g;
    assert ((g + t.coeff) - g) * vk == t.coeff * vk;
  }

  lemma AddDotAbsent(row: RowAcc, t: Term, vec: seq<real>)
    requires row.Valid() && t.idx !in row.coeff
    ensures RowDot(row.Add(t), vec) == RowDot(row, vec) + t.coeff * Val(vec, t.idx)
  {
    var p := InsertPos(row.keys, t.idx);
    var c2 := row.coeff[t.idx := 0.0 + t.coeff];
    assert row.Add(t) == RowAcc(row.keys[..p] + [t.idx] + row.keys[p..], c2);
    forall k | k in row.keys ensures Get(row.coeff, k, 0.0) == Get(c2, k, 0.0) {
      assert k in row.coeff;
    }
    KeysDotFrame(row.keys, row.coeff, c2, vec);
    KeysDotSplitInsert(row.keys, p, t.idx, c2, vec);
  }

  lemma KeysDotSplitInsert(ks: seq<int>, p: nat, x: int, coeff: map<int, real>, vec: seq<real>)
    requires p <= |ks|
    ensures KeysDot(ks[..p] + [x] + ks[p..], coeff, vec) == KeysDot(ks, coeff, vec) + Get(coeff, x, 0.0) * Val(vec, x)
  {
    assert ks[..p] + ks[p..] == ks;
    KeysDotInsert(ks[..p], x, ks[p..], coeff, vec);
  }

  /** Only the coefficients of the listed keys matter. */
  lemma {:induction false} KeysDotFrame(ks: seq<int>, c1: map<int, real>, c2: map<int, real>, vec: seq<real>)
    requires forall k | k in ks :: Get(c1, k, 0.0) == Get(c2, k, 0.0)
    ensures KeysDot(ks, c1, vec) == KeysDot(ks, c2, vec)
  {
    if ks != [] {
      assert ks[|ks| - 1] in ks;
      assert forall x | x in ks[..|ks| - 1] :: x in ks;
      KeysDotFrame(ks[..|ks| - 1], c1, c2, vec);
    }
  }

  /** Changing the coefficient of one key listed once changes the dot product by the difference. */
  lemma {:induction false} KeysDotUpdate(ks: seq<int>, coeff: map<int, real>, k: int, c: real, vec: seq<real>)
    requires StrictlyIncreasing(ks) && k in ks
    ensures KeysDot(ks, coeff[k := c], vec) == KeysDot(ks, coeff, vec) + (c - Get(coeff, k, 0.0)) * Val(vec, k)
  {
    var init := ks[..|ks| - 1];
    var last := ks[|ks| - 1];
    var c2 := coeff[k := c];
    var g := Get(coeff, k, 0.0);
    var vk := Val(vec, k);
    if last == k {
      assert k !in init by {
        forall q | 0 <= q < |init| ensures init[q] != k {
          assert init[q] == ks[q] < ks[|ks| - 1];
        }
      }
      KeysDotFrame(init, coeff, c2, vec);
      KeysDotLast(ks, c2, vec);
      KeysDotLast(ks, coeff, vec);
      assert c * vk == g * vk + (c - g) * vk;
    } else {
      assert k in init by {
        var q :| 0 <= q < |ks| && ks[q] == k;
        assert q < |ks| - 1 && init[q] == k;
      }
      assert StrictlyIncreasing(init);
      KeysDotUpdate(init, coeff, k, c, vec);
      assert Get(c2, last, 0.0) == Get(coeff, last, 0.0);
      KeysDotLast(ks, c2, vec);
      KeysDotLast(ks, coeff, vec);
    }
  }

  lemma KeysDotLast(ks: seq<int>, coeff: map<int, real>, vec: seq<real>)
    requires ks != []
    ensures KeysDot(ks, coeff, vec) ==
      KeysDot(ks[..|ks| - 1], coeff, vec) + Get(coeff, ks[|ks| - 1], 0.0) * Val(vec, ks[|ks| - 1])
  {
  }

  /** Inserting a key anywhere adds its contribution. */
  lemma {:induction false} KeysDotInsert(front: seq<int>, x: int, back: seq<int>, coeff: map<int, real>, vec: seq<real>)
    ensures KeysDot(front + [x] + back, coeff, vec) == KeysDot(front + back, coeff, vec) + Get(coeff, x, 0.0) * Val(vec, x)
    decreases |back|
  {
    if back == [] {
      assert front + [x] + back == front + [x];
      assert (front + [x])[..|front + [x]| - 1] == front;
      assert front + back == front;
    } else {
      var binit := back[..|back| - 1];
      assert (front + [x] + back)[..|front + [x] + back| - 1] == front + [x] + binit;
      assert (front + back)[..|front + back| - 1] == front + binit;
      KeysDotInsert(front, x, binit, coeff, vec);
    }
  }

  /** Dropping only exact zeros leaves the dot product unchanged. */
  lemma {:induction false} KeysDotKept(ks: seq<int>, coeff: map<int, real>, eps: real, vec: seq<real>)
    requires forall k | k in ks && Abs(Get(coeff, k, 0.0)) <= eps :: Get(coeff, k, 0.0) == 0.0
    ensures KeysDot(KeptKeys(ks, coeff, eps), coeff, vec) == KeysDot(ks, coeff, vec)
  {
    if ks != [] {
      var init := ks[..|ks| - 1];
      assert ks[|ks| - 1] in ks;
      assert forall x | x in init :: x in ks;
      KeysDotKept(init, coeff, eps, vec);
      var kept := KeptKeys(init, coeff, eps);
      var k := ks[|ks| - 1];
      var g := Get(coeff, k, 0.0);
      assert ks == init + [k];
      KeysDotSnoc(init, k, coeff, vec);
      if Abs(g) > eps {
        assert KeptKeys(ks, coeff, eps) == kept + [k];
        KeysDotSnoc(kept, k, coeff, vec);
      } else {
        assert KeptKeys(ks, coeff, eps) == kept;
        assert g == 0.0;
        assert g * Val(vec, k) == 0.0;
      }
    }
  }

  /** The activity of an emitted row, read back from its indices and values. */
  function EmittedDot(ix: seq<int>, vs: seq<real>, vec: seq<real>): real
    requires |ix| == |vs|
  {
    if ix == [] then 0.0
    else EmittedDot(ix[..|ix| - 1], vs[..|vs| - 1], vec) + vs[|vs| - 1] * Val(vec, ix[|ix| - 1])
  }

  lemma {:induction false} EmittedDotIsKeysDot(ks: seq<int>, coeff: map<int, real>, vec: seq<real>)
    ensures EmittedDot(ks, CoeffsOf(ks, coeff), vec) == KeysDot(ks, coeff, vec)
  {
    if ks != [] {
      EmittedDotIsKeysDot(ks[..|ks| - 1], coeff, vec);
      assert CoeffsOf(ks, coeff)[..|ks| - 1] == CoeffsOf(ks[..|ks| - 1], coeff);
    }
  }

  /**
   * When every dropped coefficient is exactly zero, the emitted row (what the solver reads)
   * has the activity of the updates the row loop made.
   */
  lemma EmitPreservesDot(terms: seq<Term>, eps: real, vec: seq<real>)
    requires forall k | k in Accumulate(terms).coeff && Abs(Accumulate(terms).coeff[k]) <= eps ::
      Accumulate(terms).coeff[k] == 0.0
    ensures EmittedDot(EmitIndices(Accumulate(terms), eps), EmitValues(Accumulate(terms), eps), vec)
      == TermsDot(terms, vec)
  {
    var row := Accumulate(terms);
    AccumulateValid(terms);
    AccumulatePreservesDot(terms, vec);
    KeysDotKept(row.keys, row.coeff, eps, vec);
    EmittedDotIsKeysDot(EmitIndices(row, eps), row.coeff, vec);
  }
}
