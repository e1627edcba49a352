// Parents that are not activities. validate_instance (src/instance.py) checks that every
// dependent activity lists its parents and a share for each, but not that a parent is an
// activity; build_waes_model and run_audits then look up x[(parent, i, j, k)], which exists
// only for parents in A. This module exhibits an accepted instance with such a parent and
// models the check the encoder needs.
module Encodability {
  import opened Seqs
  import opened Instance
  import opened Catalog
  import opened Rows
  import opened Waes

  // ---------------------------------------------------------------------
  // The validation as written accepts an unknown parent
  // ---------------------------------------------------------------------

  /**
   * One interval, one full-time shift type, one profile; activity 1 is independent,
   * activity 2 depends on activity 3, which is not an activity.
   */
  function UnknownParentInstance(): InstanceData
  {
    InstanceData(
      1, [1],
      [1], [], [1],
      [1, 2], [1], [2], [1, 2], [],
      [1],
      map[2 := [3]],
      map[(1, 1) := 1.0],
      map[(2, 3) := 0.5],
      map[1 := 0, 2 := 0],
      map[],
      map[1 := [1], 2 := [1]],
      map[1 := [1, 2]],
      map[1 := 1.0],
      1, 0, 1,
      map[1 := [1]],
      0.5,
      map[(1, 1) := 1],
      map[1 := 1], map[1 := 1], map[1 := 1.0])
  }

  /**
   * The validation accepts the instance, yet the dependent-demand row of activity 2 at
   * interval 1 on shift type 1 needs the column of x[(3, 1, 1, 1)], and the variable
   * loops create none.
   */
  lemma UnknownParentAccepted()
    ensures WellFormed(UnknownParentInstance())
    ensures !ParentsKnown(UnknownParentInstance())
    ensures var inst := UnknownParentInstance();
      && 2 in inst.C && 2 in inst.A1 && 3 in inst.Ga[2]
      && 1 in inst.N && 1 in inst.M
      && (3, 1, 1, 1) !in CatalogColumns(inst).x
  {
    ExamplePartitions();
    ExampleChecks();
    ExampleUnknownParent();
    ExampleMissingColumn();
  }

  lemma ExampleUnknownParent()
    ensures !ParentsKnown(UnknownParentInstance())
    ensures var inst := UnknownParentInstance();
      2 in inst.C && 2 in inst.A1 && 3 in inst.Ga[2] && 1 in inst.N && 1 in inst.M
  {
    var inst := UnknownParentInstance();
    assert 2 in inst.C && 2 in inst.Ga && 3 in inst.Ga[2] && 3 !in inst.A;
  }

  lemma ExamplePartitions()
    ensures PartitionsOk(UnknownParentInstance())
  {
    var inst := UnknownParentInstance();
    assert Range(1, 2) == [1] by {
      assert Range(2, 2) == [];
    }
    assert Elems([1]) == {1} by {
      assert [1][1..] == [];
    }
    assert Elems([2]) == {2} by {
      assert [2][1..] == [];
    }
    assert Elems([1, 2]) == {1, 2} by {
      assert [1, 2][1..] == [2];
    }
    assert Elems(inst.M2) == {};
  }

  lemma ExampleChecks()
    ensures var inst := UnknownParentInstance();
      && ShiftDataOk(inst) && DemandOk(inst) && ParentsOk(inst) && WindowsOk(inst)
      && CapabilitiesOk(inst) && LinksOk(inst) && BreaksOk(inst) && ScalarsOk(inst)
  {
    ExampleData();
    ExampleLinks();
  }

  lemma ExampleData()
    ensures var inst := UnknownParentInstance();
      && ShiftDataOk(inst) && DemandOk(inst) && ParentsOk(inst) && WindowsOk(inst) && BreaksOk(inst) && ScalarsOk(inst)
  {
  }

  lemma ExampleLinks()
    ensures CapabilitiesOk(UnknownParentInstance()) && LinksOk(UnknownParentInstance())
  {
  }

  lemma ExampleMissingColumn()
    ensures (3, 1, 1, 1) !in CatalogColumns(UnknownParentInstance()).x
  {
    var inst := UnknownParentInstance();
    CatalogKeys(inst);
    assert 3 !in inst.A;
  }

  /** The witness's coverage matrix is the one the loader computes from its shift data. */
  method UnknownParentCoverage() returns (b: Option<map<(int, int), int>>)
    ensures b == Some(UnknownParentInstance().b)
  {
    var inst := UnknownParentInstance();
    b := ComputeBMatrix(inst.N, inst.M, inst.shiftStart, inst.shiftLength);
    assert inst.M == [1] && inst.N == [1] && Max(inst.N) == 1;
    assert b.Some? by {
      assert forall j | j in inst.M :: j == 1;
    }
    assert b.value.Keys == {(1, 1)} by {
      forall key | key in b.value ensures key == (1, 1) {
        var (k, j) := key;
        assert k in inst.N && j in inst.M;
      }
      assert (1, 1) in b.value;
    }
    assert b.value[(1, 1)] == 1;
    assert b.value == map[(1, 1) := 1] == inst.b;
  }

  /** Its break windows are the ones the loader derives from the pattern [1]. */
  lemma UnknownParentBreakWindows()
    ensures ComputeBreakWindows(UnknownParentInstance().M1, UnknownParentInstance().shiftStart, [1],
                                UnknownParentInstance().N) == Some(UnknownParentInstance().Oj)
  {
    var inst := UnknownParentInstance();
    assert inst.M1 == [1] && inst.shiftStart == map[1 := 1] && inst.N == [1] && inst.Oj == map[1 := [1]];
    SinglePatternWindows();
  }

  lemma SinglePatternWindows()
    ensures ComputeBreakWindows([1], map[1 := 1], [1], [1]) == Some(map[1 := [1]])
  {
    var Oj := ComputeBreakWindows([1], map[1 := 1], [1], [1]);
    assert Elems([1]) == {1} by {
      assert [1][1..] == [];
    }
    PatternWindow();
    assert Oj.value.Keys == {1} && Oj.value[1] == [1];
    assert Oj.value == map[1 := [1]];
  }

  lemma PatternWindow()
    ensures BreakWindow(1, [1], [1]) == [1]
  {
    assert [1][1..] == [];
    assert BreakWindow(1, [], [1]) == [];
  }

  // ---------------------------------------------------------------------
  // The corrected validation: every parent must be an activity
  // ---------------------------------------------------------------------

  /** The corrected validation's outcome: the original errors, then the unknown (activity, parent) pairs. */
  datatype EncodingOutcome = Ready | Refused(errors: seq<ValidationError>, unknownParents: seq<(int, int)>)

  function KnownParentErrors(inst: InstanceData, a: int, parent: int): seq<(int, int)>
  {
    if parent in inst.A then [] else [(a, parent)]
  }

  function UnknownParentErrors(inst: InstanceData, a: int): seq<(int, int)>
  {
    if a in inst.Ga then FlatMap(inst.Ga[a], parent => KnownParentErrors(inst, a, parent)) else []
  }

  /** One (activity, parent) pair per dependent activity and listed parent that is not an activity. */
  function ParentsKnownErrors(inst: InstanceData): seq<(int, int)>
  {
    FlatMap(inst.C, a => UnknownParentErrors(inst, a))
  }

  lemma UnknownParentErrorsMember(inst: InstanceData, a: int, e: (int, int))
    ensures e in UnknownParentErrors(inst, a)
        <==> e.0 == a && a in inst.Ga && e.1 in inst.Ga[a] && e.1 !in inst.A
  {
    if a in inst.Ga {
      FlatMapMember(inst.Ga[a], parent => KnownParentErrors(inst, a, parent), e);
      if e.0 == a && e.1 in inst.Ga[a] && e.1 !in inst.A {
        assert e in KnownParentErrors(inst, a, e.1);
      }
    }
  }

  /** The extra errors are exactly the unknown parents of dependent activities. */
  lemma ParentsKnownErrorsMember(inst: InstanceData, e: (int, int))
    ensures e in ParentsKnownErrors(inst)
        <==> e.0 in inst.C && e.0 in inst.Ga && e.1 in inst.Ga[e.0] && e.1 !in inst.A
  {
    FlatMapMember(inst.C, a => UnknownParentErrors(inst, a), e);
    forall a ensures e in UnknownParentErrors(inst, a)
        <==> e.0 == a && a in inst.Ga && e.1 in inst.Ga[a] && e.1 !in inst.A {
      UnknownParentErrorsMember(inst, a, e);
    }
  }

  /** The extra check reports nothing exactly when every parent is an activity. */
  lemma ParentsKnownErrorsEmpty(inst: InstanceData)
    ensures ParentsKnownErrors(inst) == [] <==> ParentsKnown(inst)
  {
    if ParentsKnownErrors(inst) != [] {
      var e := ParentsKnownErrors(inst)[0];
      ParentsKnownErrorsMember(inst, e);
      var a, parent := e.0, e.1;
      assert a in inst.C && a in inst.Ga && parent in inst.Ga[a] && parent !in inst.A;
    }
    if !ParentsKnown(inst) {
      var a, parent :| a in inst.C && a in inst.Ga && parent in inst.Ga[a] && parent !in inst.A;
      ParentsKnownErrorsMember(inst, (a, parent));
    }
  }

  /** For each dependent activity with a parent list, each parent that is not an activity. */
  method UnknownParentChecks(inst: InstanceData) returns (errs: seq<(int, int)>)
    ensures errs == ParentsKnownErrors(inst)
  {
    errs := [];
    for pa := 0 to |inst.C|
      invariant errs == FlatMap(inst.C[..pa], a => UnknownParentErrors(inst, a))
    {
      var a := inst.C[pa];
      FlatMapStep(inst.C, pa, a => UnknownParentErrors(inst, a));
      if a in inst.Ga {
        var es := KnownParentChecks(inst, a, inst.Ga[a]);
        errs := errs + es;
      }
    }
    assert inst.C[..|inst.C|] == inst.C;
  }

  method KnownParentChecks(inst: InstanceData, a: int, parents: seq<int>) returns (es: seq<(int, int)>)
    ensures es == FlatMap(parents, parent => KnownParentErrors(inst, a, parent))
  {
    es := [];
    for pp := 0 to |parents|
      invariant es == FlatMap(parents[..pp], parent => KnownParentErrors(inst, a, parent))
    {
      var parent := parents[pp];
      FlatMapStep(parents, pp, parent => KnownParentErrors(inst, a, parent));
      if parent !in inst.A { es := es + [(a, parent)]; }
    }
    assert parents[..|parents|] == parents;
  }

  /**
   * validate_instance followed by the parent check: accepts exactly the instances the
   * encoder can build, and lists the unknown parents after the original errors.
   */
  method ValidateForEncoding(inst: InstanceData) returns (outcome: EncodingOutcome)
    ensures outcome.Ready? <==> WellFormed(inst) && ParentsKnown(inst)
    ensures outcome.Refused? ==>
      && outcome.errors == ValidationErrors(inst)
      && outcome.unknownParents == ParentsKnownErrors(inst)
      && (outcome.errors != [] || outcome.unknownParents != [])
  {
    var first := ValidateInstance(inst);
    var extra := UnknownParentChecks(inst);
    AcceptedIffWellFormed(inst);
    ParentsKnownErrorsEmpty(inst);
    var errors := if first.Rejected? then first.errors else [];
    if errors != [] || extra != [] {
      outcome := Refused(errors, extra);
    } else {
      outcome := Ready;
    }
  }

  /** Validate, then build: a model exactly for the instances the corrected check accepts. */
  method LoadModel(inst: InstanceData, ws: bool) returns (m: Option<WaesModel>)
    ensures m.Some? <==> WellFormed(inst) && ParentsKnown(inst)
    ensures m.Some? ==> Encodes(inst, ws, m.value) && m.value.wsMode == ws
  {
    var outcome := ValidateForEncoding(inst);
    if outcome.Ready? {
      var built := BuildWaesModel(inst, ws);
      m := Some(built);
    } else {
      m := None;
    }
  }
}
