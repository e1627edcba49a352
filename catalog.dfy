// The dense variable catalog of build_waes_model (src/build_waes.py): the
// five variable lists add_var appends to, and the three key-to-index maps.
module Catalog {
  import opened Seqs
  import opened Instance
  import opened Csr

  type XKey = (int, int, int, int)   // (a, i, j, k)
  type YAKey = (int, int, int, int)  // (t, i, j, a)
  type YSKey = (int, int)            // (t, j)

  /** The name of a decision variable; the f-string spelling is abstracted to its key. */
  datatype VarName =
    | XName(a: int, i: int, j: int, k: int)
    | YAssignName(t: int, i: int, j: int, a: int)
    | YShiftName(t: int, j: int)

  /** Every variable is created with type "I", bounds [0, q], and this objective coefficient. */
  function ObjectiveOf(inst: InstanceData, name: VarName): real
  {
    match name
    case YShiftName(t, j) => Get(inst.c, t, 0.0) * Get(inst.shiftCostMultiplier, j, 0.0)
    case _ => 0.0
  }

  // ---------------------------------------------------------------------
  // Creation order: four nested loops for x and y_tija, two for y_tj. Each
  // level is a function of the prefix its loop has run through.
  // ---------------------------------------------------------------------

  function XBlockK(a: int, i: int, j: int, ks: seq<int>): seq<VarName>
  {
    if ks == [] then [] else XBlockK(a, i, j, ks[..|ks| - 1]) + [XName(a, i, j, ks[|ks| - 1])]
  }

  function XBlockJ(inst: InstanceData, a: int, i: int, js: seq<int>): seq<VarName>
  {
    if js == [] then [] else XBlockJ(inst, a, i, js[..|js| - 1]) + XBlockK(a, i, js[|js| - 1], inst.N)
  }

  function XBlockI(inst: InstanceData, a: int, ivs: seq<int>): seq<VarName>
  {
    if ivs == [] then [] else XBlockI(inst, a, ivs[..|ivs| - 1]) + XBlockJ(inst, a, ivs[|ivs| - 1], inst.M)
  }

  function XBlockA(inst: InstanceData, avs: seq<int>): seq<VarName>
  {
    if avs == [] then [] else XBlockA(inst, avs[..|avs| - 1]) + XBlockI(inst, avs[|avs| - 1], inst.N)
  }

  /** x[(a, i, j, k)] for a in A, i in N, j in M, k in N. */
  function XBlock(inst: InstanceData): seq<VarName>
  {
    XBlockA(inst, inst.A)
  }

  function YABlockA(t: int, i: int, j: int, avs: seq<int>): seq<VarName>
  {
    if avs == [] then [] else YABlockA(t, i, j, avs[..|avs| - 1]) + [YAssignName(t, i, j, avs[|avs| - 1])]
  }

  function YABlockJ(inst: InstanceData, t: int, i: int, js: seq<int>): seq<VarName>
  {
    if js == [] then [] else YABlockJ(inst, t, i, js[..|js| - 1]) + YABlockA(t, i, js[|js| - 1], inst.A)
  }

  function YABlockI(inst: InstanceData, t: int, ivs: seq<int>): seq<VarName>
  {
    if ivs == [] then [] else YABlockI(inst, t, ivs[..|ivs| - 1]) + YABlockJ(inst, t, ivs[|ivs| - 1], inst.M)
  }

  function YABlockT(inst: InstanceData, ts: seq<int>): seq<VarName>
  {
    if ts == [] then [] else YABlockT(inst, ts[..|ts| - 1]) + YABlockI(inst, ts[|ts| - 1], inst.N)
  }

  /** y_tija[(t, i, j, a)] for t in T, i in N, j in M, a in A. */
  function YABlock(inst: InstanceData): seq<VarName>
  {
    YABlockT(inst, inst.T)
  }

  function YSBlockJ(t: int, js: seq<int>): seq<VarName>
  {
    if js == [] then [] else YSBlockJ(t, js[..|js| - 1]) + [YShiftName(t, js[|js| - 1])]
  }

  function YSBlockT(inst: InstanceData, ts: seq<int>): seq<VarName>
  {
    if ts == [] then [] else YSBlockT(inst, ts[..|ts| - 1]) + YSBlockJ(ts[|ts| - 1], inst.M)
  }

  /** y_tj[(t, j)] for t in T, j in M. */
  function YSBlock(inst: InstanceData): seq<VarName>
  {
    YSBlockT(inst, inst.T)
  }

  /** All variables in creation order: the catalog is dense, no combination is pruned. */
  function CatalogNames(inst: InstanceData): seq<VarName>
  {
    XBlock(inst) + YABlock(inst) + YSBlock(inst)
  }

  // ---------------------------------------------------------------------
  // The key maps: `x_aijk[key] = add_var(...)`, a later write replacing an earlier one
  // ---------------------------------------------------------------------

  function XIndex(names: seq<VarName>): map<XKey, int>
  {
    if names == [] then map[]
    else
      var m := XIndex(names[..|names| - 1]);
      match names[|names| - 1]
      case XName(a, i, j, k) => m[(a, i, j, k) := |names| - 1]
      case _ => m
  }

  function YAIndex(names: seq<VarName>): map<YAKey, int>
  {
    if names == [] then map[]
    else
      var m := YAIndex(names[..|names| - 1]);
      match names[|names| - 1]
      case YAssignName(t, i, j, a) => m[(t, i, j, a) := |names| - 1]
      case _ => m
  }

  function YSIndex(names: seq<VarName>): map<YSKey, int>
  {
    if names == [] then map[]
    else
      var m := YSIndex(names[..|names| - 1]);
      match names[|names| - 1]
      case YShiftName(t, j) => m[(t, j) := |names| - 1]
      case _ => m
  }

  /** Appending one name updates exactly the map of its kind. */
  lemma IndexSnoc(names: seq<VarName>, name: VarName)
    ensures XIndex(names + [name]) == if name.XName? then XIndex(names)[(name.a, name.i, name.j, name.k) := |names|] else XIndex(names)
    ensures YAIndex(names + [name]) == if name.YAssignName? then YAIndex(names)[(name.t, name.i, name.j, name.a) := |names|] else YAIndex(names)
    ensures YSIndex(names + [name]) == if name.YShiftName? then YSIndex(names)[(name.t, name.j) := |names|] else YSIndex(names)
  {
    assert (names + [name])[..|names + [name]| - 1] == names;
  }

  /** Each map sends a key to a position holding that key's name: the maps never point at the wrong variable. */
  lemma {:induction false} IndexSound(names: seq<VarName>)
    ensures forall key | key in XIndex(names) ::
      0 <= XIndex(names)[key] < |names| && names[XIndex(names)[key]] == XName(key.0, key.1, key.2, key.3)
    ensures forall key | key in YAIndex(names) ::
      0 <= YAIndex(names)[key] < |names| && names[YAIndex(names)[key]] == YAssignName(key.0, key.1, key.2, key.3)
    ensures forall key | key in YSIndex(names) ::
      0 <= YSIndex(names)[key] < |names| && names[YSIndex(names)[key]] == YShiftName(key.0, key.1)
    ensures forall key :: key in XIndex(names) <==> XName(key.0, key.1, key.2, key.3) in names
    ensures forall key :: key in YAIndex(names) <==> YAssignName(key.0, key.1, key.2, key.3) in names
    ensures forall key :: key in YSIndex(names) <==> YShiftName(key.0, key.1) in names
  {
    if names != [] {
      var init := names[..|names| - 1];
      var last := names[|names| - 1];
      IndexSound(init);
      assert names == init + [last];
      IndexSnoc(init, last);
    }
  }

  /** Two x keys never share a column, and no x, y_tija and y_tj column coincide. */
  lemma IndexInjective(names: seq<VarName>)
    ensures forall k1, k2 | k1 in XIndex(names) && k2 in XIndex(names) && k1 != k2 ::
      XIndex(names)[k1] != XIndex(names)[k2]
    ensures forall k1, k2 | k1 in YAIndex(names) && k2 in YAIndex(names) && k1 != k2 ::
      YAIndex(names)[k1] != YAIndex(names)[k2]
    ensures forall k1, k2 | k1 in YSIndex(names) && k2 in YSIndex(names) && k1 != k2 ::
      YSIndex(names)[k1] != YSIndex(names)[k2]
    ensures forall k1, k2 | k1 in XIndex(names) && k2 in YAIndex(names) :: XIndex(names)[k1] != YAIndex(names)[k2]
    ensures forall k1, k2 | k1 in XIndex(names) && k2 in YSIndex(names) :: XIndex(names)[k1] != YSIndex(names)[k2]
    ensures forall k1, k2 | k1 in YAIndex(names) && k2 in YSIndex(names) :: YAIndex(names)[k1] != YSIndex(names)[k2]
  {
    IndexSound(names);
  }

  /**
   * With duplicate-free index tuples every catalog position is the column of exactly the key
   * its name carries: the three maps together cover each index once.
   */
  lemma IndexComplete(names: seq<VarName>)
    requires Distinct(names)
    ensures forall p | 0 <= p < |names| && names[p].XName? ::
      var key := (names[p].a, names[p].i, names[p].j, names[p].k);
      key in XIndex(names) && XIndex(names)[key] == p
    ensures forall p | 0 <= p < |names| && names[p].YAssignName? ::
      var key := (names[p].t, names[p].i, names[p].j, names[p].a);
      key in YAIndex(names) && YAIndex(names)[key] == p
    ensures forall p | 0 <= p < |names| && names[p].YShiftName? ::
      var key := (names[p].t, names[p].j);
      key in YSIndex(names) && YSIndex(names)[key] == p
  {
    IndexSound(names);
    forall p | 0 <= p < |names| && names[p].XName?
      ensures (names[p].a, names[p].i, names[p].j, names[p].k) in XIndex(names)
      ensures XIndex(names)[(names[p].a, names[p].i, names[p].j, names[p].k)] == p
    {
      var nm := names[p];
      assert XName(nm.a, nm.i, nm.j, nm.k) == nm;
      assert nm in names;
    }
    forall p | 0 <= p < |names| && names[p].YAssignName?
      ensures (names[p].t, names[p].i, names[p].j, names[p].a) in YAIndex(names)
      ensures YAIndex(names)[(names[p].t, names[p].i, names[p].j, names[p].a)] == p
    {
      var nm := names[p];
      assert YAssignName(nm.t, nm.i, nm.j, nm.a) == nm;
      assert nm in names;
    }
    forall p | 0 <= p < |names| && names[p].YShiftName?
      ensures (names[p].t, names[p].j) in YSIndex(names)
      ensures YSIndex(names)[(names[p].t, names[p].j)] == p
    {
      var nm := names[p];
      assert YShiftName(nm.t, nm.j) == nm;
      assert nm in names;
    }
  }

  /** Names of other kinds leave a map as it was. */
  lemma {:induction false} IndexSkip(names: seq<VarName>, more: seq<VarName>)
    ensures (forall p | 0 <= p < |more| :: !more[p].XName?) ==> XIndex(names + more) == XIndex(names)
    ensures (forall p | 0 <= p < |more| :: !more[p].YAssignName?) ==> YAIndex(names + more) == YAIndex(names)
    ensures (forall p | 0 <= p < |more| :: !more[p].YShiftName?) ==> YSIndex(names + more) == YSIndex(names)
  {
    if more != [] {
      var init := more[..|more| - 1];
      IndexSkip(names, init);
      assert names + more == (names + init) + [more[|more| - 1]];
      IndexSnoc(names + init, more[|more| - 1]);
    } else {
      assert names + more == names;
    }
  }

  // ---------------------------------------------------------------------
  // Membership and size of the catalog
  // ---------------------------------------------------------------------

  lemma {:induction false} XBlockKMember(a: int, i: int, j: int, ks: seq<int>, name: VarName)
    ensures name in XBlockK(a, i, j, ks) <==> name.XName? && name.a == a && name.i == i && name.j == j && name.k in ks
  {
    if ks != [] {
      XBlockKMember(a, i, j, ks[..|ks| - 1], name);
      assert ks == ks[..|ks| - 1] + [ks[|ks| - 1]];
    }
  }

  lemma {:induction false} XBlockJMember(inst: InstanceData, a: int, i: int, js: seq<int>, name: VarName)
    ensures name in XBlockJ(inst, a, i, js) <==>
      name.XName? && name.a == a && name.i == i && name.j in js && name.k in inst.N
  {
    if js != [] {
      XBlockJMember(inst, a, i, js[..|js| - 1], name);
      XBlockKMember(a, i, js[|js| - 1], inst.N, name);
      assert js == js[..|js| - 1] + [js[|js| - 1]];
    }
  }

  lemma {:induction false} XBlockIMember(inst: InstanceData, a: int, ivs: seq<int>, name: VarName)
    ensures name in XBlockI(inst, a, ivs) <==>
      name.XName? && name.a == a && name.i in ivs && name.j in inst.M && name.k in inst.N
  {
    if ivs != [] {
      XBlockIMember(inst, a, ivs[..|ivs| - 1], name);
      XBlockJMember(inst, a, ivs[|ivs| - 1], inst.M, name);
      assert ivs == ivs[..|ivs| - 1] + [ivs[|ivs| - 1]];
    }
  }

  lemma {:induction false} XBlockAMember(inst: InstanceData, avs: seq<int>, name: VarName)
    ensures name in XBlockA(inst, avs) <==>
      name.XName? && name.a in avs && name.i in inst.N && name.j in inst.M && name.k in inst.N
  {
    if avs != [] {
      XBlockAMember(inst, avs[..|avs| - 1], name);
      XBlockIMember(inst, avs[|avs| - 1], inst.N, name);
      assert avs == avs[..|avs| - 1] + [avs[|avs| - 1]];
    }
  }

  lemma {:induction false} YABlockAMember(t: int, i: int, j: int, avs: seq<int>, name: VarName)
    ensures name in YABlockA(t, i, j, avs) <==>
      name.YAssignName? && name.t == t && name.i == i && name.j == j && name.a in avs
  {
    if avs != [] {
      YABlockAMember(t, i, j, avs[..|avs| - 1], name);
      assert avs == avs[..|avs| - 1] + [avs[|avs| - 1]];
    }
  }

  lemma {:induction false} YABlockJMember(inst: InstanceData, t: int, i: int, js: seq<int>, name: VarName)
    ensures name in YABlockJ(inst, t, i, js) <==>
      name.YAssignName? && name.t == t && name.i == i && name.j in js && name.a in inst.A
  {
    if js != [] {
      YABlockJMember(inst, t, i, js[..|js| - 1], name);
      YABlockAMember(t, i, js[|js| - 1], inst.A, name);
      assert js == js[..|js| - 1] + [js[|js| - 1]];
    }
  }

  lemma {:induction false} YABlockIMember(inst: InstanceData, t: int, ivs: seq<int>, name: VarName)
    ensures name in YABlockI(inst, t, ivs) <==>
      name.YAssignName? && name.t == t && name.i in ivs && name.j in inst.M && name.a in inst.A
  {
    if ivs != [] {
      YABlockIMember(inst, t, ivs[..|ivs| - 1], name);
      YABlockJMember(inst, t, ivs[|ivs| - 1], inst.M, name);
      assert ivs == ivs[..|ivs| - 1] + [ivs[|ivs| - 1]];
    }
  }

  lemma {:induction false} YABlockTMember(inst: InstanceData, ts: seq<int>, name: VarName)
    ensures name in YABlockT(inst, ts) <==>
      name.YAssignName? && name.t in ts && name.i in inst.N && name.j in inst.M && name.a in inst.A
  {
    if ts != [] {
      YABlockTMember(inst, ts[..|ts| - 1], name);
      YABlockIMember(inst, ts[|ts| - 1], inst.N, name);
      assert ts == ts[..|ts| - 1] + [ts[|ts| - 1]];
    }
  }

  lemma {:induction false} YSBlockJMember(t: int, js: seq<int>, name: VarName)
    ensures name in YSBlockJ(t, js) <==> name.YShiftName? && name.t == t && name.j in js
  {
    if js != [] {
      YSBlockJMember(t, js[..|js| - 1], name);
      assert js == js[..|js| - 1] + [js[|js| - 1]];
    }
  }

  lemma {:induction false} YSBlockTMember(inst: InstanceData, ts: seq<int>, name: VarName)
    ensures name in YSBlockT(inst, ts) <==> name.YShiftName? && name.t in ts && name.j in inst.M
  {
    if ts != [] {
      YSBlockTMember(inst, ts[..|ts| - 1], name);
      YSBlockJMember(ts[|ts| - 1], inst.M, name);
      assert ts == ts[..|ts| - 1] + [ts[|ts| - 1]];
    }
  }

  /** A name is in the catalog exactly when its indices range over the creation loops. */
  lemma CatalogMember(inst: InstanceData, name: VarName)
    ensures name in XBlock(inst) <==>
      name.XName? && name.a in inst.A && name.i in inst.N && name.j in inst.M && name.k in inst.N
    ensures name in YABlock(inst) <==>
      name.YAssignName? && name.t in inst.T && name.i in inst.N && name.j in inst.M && name.a in inst.A
    ensures name in YSBlock(inst) <==> name.YShiftName? && name.t in inst.T && name.j in inst.M
  {
    XBlockAMember(inst, inst.A, name);
    YABlockTMember(inst, inst.T, name);
    YSBlockTMember(inst, inst.T, name);
  }

  /** The x block holds only x names, and so on. */
  lemma BlockKinds(inst: InstanceData)
    ensures forall p | 0 <= p < |XBlock(inst)| :: XBlock(inst)[p].XName?
    ensures forall p | 0 <= p < |YABlock(inst)| :: YABlock(inst)[p].YAssignName?
    ensures forall p | 0 <= p < |YSBlock(inst)| :: YSBlock(inst)[p].YShiftName?
  {
    forall p | 0 <= p < |XBlock(inst)| ensures XBlock(inst)[p].XName? {
      CatalogMember(inst, XBlock(inst)[p]);
    }
    forall p | 0 <= p < |YABlock(inst)| ensures YABlock(inst)[p].YAssignName? {
      CatalogMember(inst, YABlock(inst)[p]);
    }
    forall p | 0 <= p < |YSBlock(inst)| ensures YSBlock(inst)[p].YShiftName? {
      CatalogMember(inst, YSBlock(inst)[p]);
    }
  }

  /** The map built over the whole catalog has a column for exactly the combinations of the loops. */
  lemma CatalogKeys(inst: InstanceData)
    ensures forall a, i, j, k :: (a, i, j, k) in XIndex(CatalogNames(inst)) <==>
      a in inst.A && i in inst.N && j in inst.M && k in inst.N
    ensures forall t, i, j, a :: (t, i, j, a) in YAIndex(CatalogNames(inst)) <==>
      t in inst.T && i in inst.N && j in inst.M && a in inst.A
    ensures forall t, j :: (t, j) in YSIndex(CatalogNames(inst)) <==> t in inst.T && j in inst.M
  {
    var names := CatalogNames(inst);
    IndexSound(names);
    forall a, i, j, k ensures XName(a, i, j, k) in names <==> a in inst.A && i in inst.N && j in inst.M && k in inst.N {
      CatalogMember(inst, XName(a, i, j, k));
    }
    forall t, i, j, a ensures YAssignName(t, i, j, a) in names <==> t in inst.T && i in inst.N && j in inst.M && a in inst.A {
      CatalogMember(inst, YAssignName(t, i, j, a));
    }
    forall t, j ensures YShiftName(t, j) in names <==> t in inst.T && j in inst.M {
      CatalogMember(inst, YShiftName(t, j));
    }
  }

  lemma {:induction false} XBlockKSize(a: int, i: int, j: int, ks: seq<int>)
    ensures |XBlockK(a, i, j, ks)| == |ks|
  {
    if ks != [] { XBlockKSize(a, i, j, ks[..|ks| - 1]); }
  }

  lemma {:induction false} XBlockJSize(inst: InstanceData, a: int, i: int, js: seq<int>)
    ensures |XBlockJ(inst, a, i, js)| == |js| * |inst.N|
  {
    if js != [] {
      XBlockJSize(inst, a, i, js[..|js| - 1]);
      XBlockKSize(a, i, js[|js| - 1], inst.N);
      assert |js| * |inst.N| == (|js| - 1) * |inst.N| + |inst.N|;
    }
  }

  lemma {:induction false} XBlockISize(inst: InstanceData, a: int, ivs: seq<int>)
    ensures |XBlockI(inst, a, ivs)| == |ivs| * (|inst.M| * |inst.N|)
  {
    if ivs != [] {
      XBlockISize(inst, a, ivs[..|ivs| - 1]);
      XBlockJSize(inst, a, ivs[|ivs| - 1], inst.M);
      assert |ivs| * (|inst.M| * |inst.N|) == (|ivs| - 1) * (|inst.M| * |inst.N|) + (|inst.M| * |inst.N|);
    }
  }

  lemma {:induction false} XBlockASize(inst: InstanceData, avs: seq<int>)
    ensures |XBlockA(inst, avs)| == |avs| * (|inst.N| * (|inst.M| * |inst.N|))
  {
    if avs != [] {
      XBlockASize(inst, avs[..|avs| - 1]);
      XBlockISize(inst, avs[|avs| - 1], inst.N);
      assert |avs| * (|inst.N| * (|inst.M| * |inst.N|)) == (|avs| - 1) * (|inst.N| * (|inst.M| * |inst.N|)) + (|inst.N| * (|inst.M| * |inst.N|));
    }
  }

  lemma {:induction false} YABlockASize(t: int, i: int, j: int, avs: seq<int>)
    ensures |YABlockA(t, i, j, avs)| == |avs|
  {
    if avs != [] { YABlockASize(t, i, j, avs[..|avs| - 1]); }
  }

  lemma {:induction false} YABlockJSize(inst: InstanceData, t: int, i: int, js: seq<int>)
    ensures |YABlockJ(inst, t, i, js)| == |js| * |inst.A|
  {
    if js != [] {
      YABlockJSize(inst, t, i, js[..|js| - 1]);
      YABlockASize(t, i, js[|js| - 1], inst.A);
      assert |js| * |inst.A| == (|js| - 1) * |inst.A| + |inst.A|;
    }
  }

  lemma {:induction false} YABlockISize(inst: InstanceData, t: int, ivs: seq<int>)
    ensures |YABlockI(inst, t, ivs)| == |ivs| * (|inst.M| * |inst.A|)
  {
    if ivs != [] {
      YABlockISize(inst, t, ivs[..|ivs| - 1]);
      YABlockJSize(inst, t, ivs[|ivs| - 1], inst.M);
      assert |ivs| * (|inst.M| * |inst.A|) == (|ivs| - 1) * (|inst.M| * |inst.A|) + (|inst.M| * |inst.A|);
    }
  }

  lemma {:induction false} YABlockTSize(inst: InstanceData, ts: seq<int>)
    ensures |YABlockT(inst, ts)| == |ts| * (|inst.N| * (|inst.M| * |inst.A|))
  {
    if ts != [] {
      YABlockTSize(inst, ts[..|ts| - 1]);
      YABlockISize(inst, ts[|ts| - 1], inst.N);
      assert |ts| * (|inst.N| * (|inst.M| * |inst.A|)) == (|ts| - 1) * (|inst.N| * (|inst.M| * |inst.A|)) + (|inst.N| * (|inst.M| * |inst.A|));
    }
  }

  lemma {:induction false} YSBlockJSize(t: int, js: seq<int>)
    ensures |YSBlockJ(t, js)| == |js|
  {
    if js != [] { YSBlockJSize(t, js[..|js| - 1]); }
  }

  lemma {:induction false} YSBlockTSize(inst: InstanceData, ts: seq<int>)
    ensures |YSBlockT(inst, ts)| == |ts| * |inst.M|
  {
    if ts != [] {
      YSBlockTSize(inst, ts[..|ts| - 1]);
      YSBlockJSize(ts[|ts| - 1], inst.M);
      assert |ts| * |inst.M| == (|ts| - 1) * |inst.M| + |inst.M|;
    }
  }

  /** Regrouping a product, kept out of the context of CatalogSize. */
  lemma Reassociate(w: nat, x: nat, y: nat, z: nat)
    ensures w * (x * (y * z)) == w * x * y * z
  {
  }

  /** The catalog size |A|·n·|M|·n + |T|·n·|M|·|A| + |T|·|M|, the same whatever the mode. */
  lemma CatalogSize(inst: InstanceData)
    ensures |CatalogNames(inst)| ==
      |inst.A| * |inst.N| * |inst.M| * |inst.N| + |inst.T| * |inst.N| * |inst.M| * |inst.A| + |inst.T| * |inst.M|
  {
    XBlockASize(inst, inst.A);
    YABlockTSize(inst, inst.T);
    YSBlockTSize(inst, inst.T);
    Reassociate(|inst.A|, |inst.N|, |inst.M|, |inst.N|);
    Reassociate(|inst.T|, |inst.N|, |inst.M|, |inst.A|);
  }

  // ---------------------------------------------------------------------
  // The five variable lists and add_var
  // ---------------------------------------------------------------------

  /** variable_names, variable_types, objective_coeffs, variable_lb and variable_ub. */
  class VarLists {
    var names: seq<VarName>
    var types: seq<string>
    var objective: seq<real>
    var lower: seq<Bound>
    var upper: seq<Bound>

    /** The five lists stay the same length. */
    predicate Valid()
      reads this
    {
      |types| == |names| && |objective| == |names| && |lower| == |names| && |upper| == |names|
    }

    /** Every variable created so far is an integer in [0, q] with the objective of its kind. */
    ghost predicate Conforms(inst: InstanceData)
      reads this
      requires Valid()
    {
      forall p | 0 <= p < |names| ::
        && types[p] == "I"
        && lower[p] == Fin(0.0)
        && upper[p] == Fin(inst.q as real)
        && objective[p] == ObjectiveOf(inst, names[p])
    }

    constructor ()
      ensures Valid() && names == [] && types == [] && objective == [] && lower == [] && upper == []
    {
      names, types, objective, lower, upper := [], [], [], [], [];
    }

    /** add_var: the new variable gets the next index, len(variable_names) before the call. */
    method AddVar(name: VarName, obj: real, lb: Bound, ub: Bound, vtype: string) returns (idx: int)
      requires Valid()
      modifies this
      ensures Valid()
      ensures idx == |old(names)|
      ensures names == old(names) + [name] && types == old(types) + [vtype]
      ensures objective == old(objective) + [obj] && lower == old(lower) + [lb] && upper == old(upper) + [ub]
    {
      idx := |names|;
      names := names + [name];
      objective := objective + [obj];
      lower := lower + [lb];
      upper := upper + [ub];
      types := types + [vtype];
    }
  }

  // ---------------------------------------------------------------------
  // The creation loops
  // ---------------------------------------------------------------------

  /** An integer variable in [0, q]; the objective is 0 except for y_tj. */
  method AddIntVar(inst: InstanceData, vars: VarLists, name: VarName, obj: real) returns (idx: int)
    requires vars.Valid() && vars.Conforms(inst) && obj == ObjectiveOf(inst, name)
    modifies vars
    ensures vars.Valid() && vars.Conforms(inst)
    ensures idx == |old(vars.names)| && vars.names == old(vars.names) + [name]
  {
    idx := vars.AddVar(name, obj, Fin(0.0), Fin(inst.q as real), "I");
  }

  method AddXForJ(inst: InstanceData, vars: VarLists, a: int, i: int, j: int, x0: map<XKey, int>)
    returns (x: map<XKey, int>)
    requires vars.Valid() && vars.Conforms(inst) && x0 == XIndex(vars.names)
    modifies vars
    ensures vars.Valid() && vars.Conforms(inst)
    ensures vars.names == old(vars.names) + XBlockK(a, i, j, inst.N)
    ensures x == XIndex(vars.names)
  {
    x := x0;
    ghost var names0 := vars.names;
    for p := 0 to |inst.N|
      invariant vars.Valid() && vars.Conforms(inst)
      invariant vars.names == names0 + XBlockK(a, i, j, inst.N[..p])
      invariant x == XIndex(vars.names)
    {
      var k := inst.N[p];
      assert inst.N[..p + 1][..p] == inst.N[..p];
      IndexSnoc(vars.names, XName(a, i, j, k));
      var idx := AddIntVar(inst, vars, XName(a, i, j, k), 0.0);
      x := x[(a, i, j, k) := idx];
    }
    assert inst.N[..|inst.N|] == inst.N;
  }

  method AddXForI(inst: InstanceData, vars: VarLists, a: int, i: int, x0: map<XKey, int>)
    returns (x: map<XKey, int>)
    requires vars.Valid() && vars.Conforms(inst) && x0 == XIndex(vars.names)
    modifies vars
    ensures vars.Valid() && vars.Conforms(inst)
    ensures vars.names == old(vars.names) + XBlockJ(inst, a, i, inst.M)
    ensures x == XIndex(vars.names)
  {
    x := x0;
    ghost var names0 := vars.names;
    for p := 0 to |inst.M|
      invariant vars.Valid() && vars.Conforms(inst)
      invariant vars.names == names0 + XBlockJ(inst, a, i, inst.M[..p])
      invariant x == XIndex(vars.names)
    {
      assert inst.M[..p + 1][..p] == inst.M[..p];
      x := AddXForJ(inst, vars, a, i, inst.M[p], x);
    }
    assert inst.M[..|inst.M|] == inst.M;
  }

  method AddXForA(inst: InstanceData, vars: VarLists, a: int, x0: map<XKey, int>)
    returns (x: map<XKey, int>)
    requires vars.Valid() && vars.Conforms(inst) && x0 == XIndex(vars.names)
    modifies vars
    ensures vars.Valid() && vars.Conforms(inst)
    ensures vars.names == old(vars.names) + XBlockI(inst, a, inst.N)
    ensures x == XIndex(vars.names)
  {
    x := x0;
    ghost var names0 := vars.names;
    for p := 0 to |inst.N|
      invariant vars.Valid() && vars.Conforms(inst)
      invariant vars.names == names0 + XBlockI(inst, a, inst.N[..p])
      invariant x == XIndex(vars.names)
    {
      assert inst.N[..p + 1][..p] == inst.N[..p];
      x := AddXForI(inst, vars, a, inst.N[p], x);
    }
    assert inst.N[..|inst.N|] == inst.N;
  }

  /** The x loops: one variable per (a, i, j, k), recorded in x_aijk. */
  method AddXVars(inst: InstanceData, vars: VarLists, x0: map<XKey, int>) returns (x: map<XKey, int>)
    requires vars.Valid() && vars.Conforms(inst) && x0 == XIndex(vars.names)
    modifies vars
    ensures vars.Valid() && vars.Conforms(inst)
    ensures vars.names == old(vars.names) + XBlock(inst)
    ensures x == XIndex(vars.names)
  {
    x := x0;
    ghost var names0 := vars.names;
    for p := 0 to |inst.A|
      invariant vars.Valid() && vars.Conforms(inst)
      invariant vars.names == names0 + XBlockA(inst, inst.A[..p])
      invariant x == XIndex(vars.names)
    {
      assert inst.A[..p + 1][..p] == inst.A[..p];
      x := AddXForA(inst, vars, inst.A[p], x);
    }
    assert inst.A[..|inst.A|] == inst.A;
  }

  method AddYAForJ(inst: InstanceData, vars: VarLists, t: int, i: int, j: int, y0: map<YAKey, int>)
    returns (y: map<YAKey, int>)
    requires vars.Valid() && vars.Conforms(inst) && y0 == YAIndex(vars.names)
    modifies vars
    ensures vars.Valid() && vars.Conforms(inst)
    ensures vars.names == old(vars.names) + YABlockA(t, i, j, inst.A)
    ensures y == YAIndex(vars.names)
  {
    y := y0;
    ghost var names0 := vars.names;
    for p := 0 to |inst.A|
      invariant vars.Valid() && vars.Conforms(inst)
      invariant vars.names == names0 + YABlockA(t, i, j, inst.A[..p])
      invariant y == YAIndex(vars.names)
    {
      var a := inst.A[p];
      assert inst.A[..p + 1][..p] == inst.A[..p];
      IndexSnoc(vars.names, YAssignName(t, i, j, a));
      var idx := AddIntVar(inst, vars, YAssignName(t, i, j, a), 0.0);
      y := y[(t, i, j, a) := idx];
    }
    assert inst.A[..|inst.A|] == inst.A;
  }

  method AddYAForI(inst: InstanceData, vars: VarLists, t: int, i: int, y0: map<YAKey, int>)
    returns (y: map<YAKey, int>)
    requires vars.Valid() && vars.Conforms(inst) && y0 == YAIndex(vars.names)
    modifies vars
    ensures vars.Valid() && vars.Conforms(inst)
    ensures vars.names == old(vars.names) + YABlockJ(inst, t, i, inst.M)
    ensures y == YAIndex(vars.names)
  {
    y := y0;
    ghost var names0 := vars.names;
    for p := 0 to |inst.M|
      invariant vars.Valid() && vars.Conforms(inst)
      invariant vars.names == names0 + YABlockJ(inst, t, i, inst.M[..p])
      invariant y == YAIndex(vars.names)
    {
      assert inst.M[..p + 1][..p] == inst.M[..p];
      y := AddYAForJ(inst, vars, t, i, inst.M[p], y);
    }
    assert inst.M[..|inst.M|] == inst.M;
  }

  method AddYAForT(inst: InstanceData, vars: VarLists, t: int, y0: map<YAKey, int>)
    returns (y: map<YAKey, int>)
    requires vars.Valid() && vars.Conforms(inst) && y0 == YAIndex(vars.names)
    modifies vars
    ensures vars.Valid() && vars.Conforms(inst)
    ensures vars.names == old(vars.names) + YABlockI(inst, t, inst.N)
    ensures y == YAIndex(vars.names)
  {
    y := y0;
    ghost var names0 := vars.names;
    for p := 0 to |inst.N|
      invariant vars.Valid() && vars.Conforms(inst)
      invariant vars.names == names0 + YABlockI(inst, t, inst.N[..p])
      invariant y == YAIndex(vars.names)
    {
      assert inst.N[..p + 1][..p] == inst.N[..p];
      y := AddYAForI(inst, vars, t, inst.N[p], y);
    }
    assert inst.N[..|inst.N|] == inst.N;
  }

  /** The y_tija loops: one variable per (t, i, j, a). */
  method AddYAVars(inst: InstanceData, vars: VarLists, y0: map<YAKey, int>) returns (y: map<YAKey, int>)
    requires vars.Valid() && vars.Conforms(inst) && y0 == YAIndex(vars.names)
    modifies vars
    ensures vars.Valid() && vars.Conforms(inst)
    ensures vars.names == old(vars.names) + YABlock(inst)
    ensures y == YAIndex(vars.names)
  {
    y := y0;
    ghost var names0 := vars.names;
    for p := 0 to |inst.T|
      invariant vars.Valid() && vars.Conforms(inst)
      invariant vars.names == names0 + YABlockT(inst, inst.T[..p])
      invariant y == YAIndex(vars.names)
    {
      assert inst.T[..p + 1][..p] == inst.T[..p];
      y := AddYAForT(inst, vars, inst.T[p], y);
    }
    assert inst.T[..|inst.T|] == inst.T;
  }

  method AddYSForT(inst: InstanceData, vars: VarLists, t: int, y0: map<YSKey, int>)
    returns (y: map<YSKey, int>)
    requires t in inst.c && forall j | j in inst.M :: j in inst.shiftCostMultiplier
    requires vars.Valid() && vars.Conforms(inst) && y0 == YSIndex(vars.names)
    modifies vars
    ensures vars.Valid() && vars.Conforms(inst)
    ensures vars.names == old(vars.names) + YSBlockJ(t, inst.M)
    ensures y == YSIndex(vars.names)
  {
    y := y0;
    ghost var names0 := vars.names;
    for p := 0 to |inst.M|
      invariant vars.Valid() && vars.Conforms(inst)
      invariant vars.names == names0 + YSBlockJ(t, inst.M[..p])
      invariant y == YSIndex(vars.names)
    {
      var j := inst.M[p];
      assert inst.M[..p + 1][..p] == inst.M[..p];
      IndexSnoc(vars.names, YShiftName(t, j));
      assert j in inst.M;
      var idx := AddIntVar(inst, vars, YShiftName(t, j), inst.c[t] * inst.shiftCostMultiplier[j]);
      y := y[(t, j) := idx];
    }
    assert inst.M[..|inst.M|] == inst.M;
  }

  /** The y_tj loops: one variable per (t, j), with cost c[t]·shift_cost_multiplier[j]. */
  method AddYSVars(inst: InstanceData, vars: VarLists, y0: map<YSKey, int>) returns (y: map<YSKey, int>)
    requires forall t | t in inst.T :: t in inst.c
    requires forall j | j in inst.M :: j in inst.shiftCostMultiplier
    requires vars.Valid() && vars.Conforms(inst) && y0 == YSIndex(vars.names)
    modifies vars
    ensures vars.Valid() && vars.Conforms(inst)
    ensures vars.names == old(vars.names) + YSBlock(inst)
    ensures y == YSIndex(vars.names)
  {
    y := y0;
    ghost var names0 := vars.names;
    for p := 0 to |inst.T|
      invariant vars.Valid() && vars.Conforms(inst)
      invariant vars.names == names0 + YSBlockT(inst, inst.T[..p])
      invariant y == YSIndex(vars.names)
    {
      assert inst.T[..p + 1][..p] == inst.T[..p];
      y := AddYSForT(inst, vars, inst.T[p], y);
    }
    assert inst.T[..|inst.T|] == inst.T;
  }

  /** The three blocks come one after the other, and each map only sees its own block. */
  lemma CatalogLayout(inst: InstanceData)
    ensures YAIndex(XBlock(inst)) == map[] && YSIndex(XBlock(inst)) == map[]
    ensures YSIndex(XBlock(inst) + YABlock(inst)) == map[]
    ensures XIndex(XBlock(inst) + YABlock(inst)) == XIndex(XBlock(inst))
    ensures XIndex(CatalogNames(inst)) == XIndex(XBlock(inst) + YABlock(inst))
    ensures YAIndex(CatalogNames(inst)) == YAIndex(XBlock(inst) + YABlock(inst))
  {
    var xb, yab, ysb := XBlock(inst), YABlock(inst), YSBlock(inst);
    BlockKinds(inst);
    assert [] + xb == xb && [] + (xb + yab) == xb + yab;
    IndexSkip([], xb);
    IndexSkip([], xb + yab);
    IndexSkip(xb, yab);
    IndexSkip(xb + yab, ysb);
  }

  /**
   * The variable-creation part of build_waes_model: every variable of the dense catalog in
   * creation order, conforming data, and the three key maps over the final list.
   */
  method AddVariables(inst: InstanceData, vars: VarLists)
    returns (x: map<XKey, int>, ya: map<YAKey, int>, ys: map<YSKey, int>)
    requires WellFormed(inst)
    requires vars.Valid() && vars.names == []
    modifies vars
    ensures vars.Valid() && vars.Conforms(inst)
    ensures vars.names == CatalogNames(inst)
    ensures x == XIndex(vars.names) && ya == YAIndex(vars.names) && ys == YSIndex(vars.names)
  {
    CatalogLayout(inst);
    x := AddXVars(inst, vars, map[]);
    assert vars.names == XBlock(inst);
    ya := AddYAVars(inst, vars, map[]);
    assert vars.names == XBlock(inst) + YABlock(inst);
    ys := AddYSVars(inst, vars, map[]);
  }
}
