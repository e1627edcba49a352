// The value build_waes_model returns (src/build_waes.py): the variable lists,
// the CSR constraint payload and the key maps, and the server payload
// to_server_payload builds from it.
module Waes {
  import opened Seqs
  import opened Instance
  import opened Csr
  import opened Catalog
  import opened Rows
  import opened Encoder

  /** WAESModel: MILP payload plus variable index maps. */
  datatype WaesModel = WaesModel(
    names: seq<VarName>,
    types: seq<string>,
    objective: seq<real>,
    varLower: seq<Bound>,
    varUpper: seq<Bound>,
    offsets: seq<int>,
    indices: seq<int>,
    values: seq<real>,
    conLower: seq<Bound>,
    conUpper: seq<Bound>,
    x: map<XKey, int>,
    ya: map<YAKey, int>,
    ys: map<YSKey, int>,
    wsMode: bool)

  /** The five variable lists have one entry per variable; each is an integer in [0, q] with its objective. */
  ghost predicate VariablesConform(inst: InstanceData, m: WaesModel)
  {
    && |m.types| == |m.names| && |m.objective| == |m.names|
    && |m.varLower| == |m.names| && |m.varUpper| == |m.names|
    && forall p | 0 <= p < |m.names| ::
         && m.types[p] == "I"
         && m.varLower[p] == Fin(0.0)
         && m.varUpper[p] == Fin(inst.q as real)
         && m.objective[p] == ObjectiveOf(inst, m.names[p])
  }

  /** m is the model build_waes_model returns for inst with the given ws_mode. */
  ghost predicate Encodes(inst: InstanceData, ws: bool, m: WaesModel)
  {
    && m.names == CatalogNames(inst)
    && VariablesConform(inst, m)
    && m.x == XIndex(m.names) && m.ya == YAIndex(m.names) && m.ys == YSIndex(m.names)
    && EncodableWindows(inst, ws)
    && IsCsrOf(m.offsets, m.indices, m.values, m.conLower, m.conUpper,
               EncoderRows(inst, CatalogColumns(inst), ws), DropEps)
    && m.wsMode == ws
  }

  /** The row loops of build_waes_model, Eq. (2) through Eq. (10), appending to a fresh payload. */
  method BuildRows(inst: InstanceData, cols: Columns, ws: bool) returns (csr: CsrBuilder)
    requires Ready(inst, cols)
    ensures fresh(csr) && csr.Valid() && csr.eps == DropEps
    ensures EncodableWindows(inst, ws) && csr.rows == EncoderRows(inst, cols, ws)
  {
    WellFormedWindows(inst, ws);
    csr := new CsrBuilder(DropEps);
    AddDemandRows(inst, cols, ws, Deadline, csr);
    assert csr.rows == DemandRowsI(inst, cols, ws, Deadline, inst.N);
    AddDemandRows(inst, cols, ws, Release, csr);
    AddDependentRows(inst, cols, ws, Deadline, csr);
    AddDependentRows(inst, cols, ws, Release, csr);
    AddStaffRows(inst, cols, csr);
    AddShiftLinkRows(inst, cols, csr);
    AddCapRows(inst, cols, csr);
    AddBreakRows(inst, cols, csr);
    var share := BuildShareRow(inst, cols);
    AccumulateValid(ShareTerms(inst, cols));
    csr.AddRow(share, NegInf, Fin(0.0));
  }

  /**
   * build_waes_model: create the dense variable catalog, then append the rows of
   * Eqs. (2)-(10) family by family, then package the lists.
   */
  method BuildWaesModel(inst: InstanceData, ws: bool) returns (m: WaesModel)
    requires WellFormed(inst) && ParentsKnown(inst)
    ensures Encodes(inst, ws, m)
  {
    var vars := new VarLists();
    var x, ya, ys := AddVariables(inst, vars);
    var cols := Columns(x, ya, ys);
    assert cols == CatalogColumns(inst);
    CatalogCovers(inst);
    var csr := BuildRows(inst, cols, ws);
    m := WaesModel(vars.names, vars.types, vars.objective, vars.lower, vars.upper,
                   csr.offsets, csr.indices, csr.values, csr.lower, csr.upper,
                   x, ya, ys, ws);
  }

  // ---------------------------------------------------------------------
  // to_server_payload
  // ---------------------------------------------------------------------

  /** The solver options; their structure is opaque to the model. */
  datatype SolverOption = SolverOption(key: string, value: string)

  /** The `/cuopt/request` payload, field by field; the JSON key spelling is abstracted. */
  datatype Payload = Payload(
    csrOffsets: seq<int>,
    csrIndices: seq<int>,
    csrValues: seq<real>,
    constraintUpper: seq<Bound>,
    constraintLower: seq<Bound>,
    objectiveCoeffs: seq<real>,
    scalabilityFactor: real,
    objectiveOffset: real,
    variableUpper: seq<Bound>,
    variableLower: seq<Bound>,
    maximize: bool,
    variableNames: seq<VarName>,
    variableTypes: seq<string>,
    solverConfig: Option<seq<SolverOption>>)

  /**
   * to_server_payload: the model's lists under their payload fields, a minimisation with
   * scalability factor 1 and offset 0; solver_config only when it is non-empty.
   */
  function ToServerPayload(m: WaesModel, solverConfig: seq<SolverOption>): (pl: Payload)
    ensures pl.csrOffsets == m.offsets && pl.csrIndices == m.indices && pl.csrValues == m.values
    ensures pl.constraintLower == m.conLower && pl.constraintUpper == m.conUpper
    ensures pl.variableLower == m.varLower && pl.variableUpper == m.varUpper
    ensures pl.objectiveCoeffs == m.objective && pl.variableNames == m.names && pl.variableTypes == m.types
    ensures !pl.maximize && pl.scalabilityFactor == 1.0 && pl.objectiveOffset == 0.0
    ensures pl.solverConfig.Some? <==> |solverConfig| > 0
    ensures pl.solverConfig.Some? ==> pl.solverConfig.value == solverConfig
  {
    Payload(m.offsets, m.indices, m.values, m.conUpper, m.conLower,
            m.objective, 1.0, 0.0, m.varUpper, m.varLower, false, m.names, m.types,
            if |solverConfig| > 0 then Some(solverConfig) else None)
  }
}
