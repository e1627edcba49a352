# massp: the WAES encoder, its audit and its instance checks, in Dafny

massp schedules staff for activities that may be executed late (WAES, after the paper's
"work activity execution scheduling" model): an instance of intervals `N = 1..n`, shift types
`M = M1 ∪ M2` (full-time and part-time), activities `A = B ∪ C = A1 ∪ A2` (independent and
dependent; deadline-windowed and release-windowed) and profiles `T`. The core turns such an
instance into a mixed-integer linear program and, after a solve, checks the solution against
the same equations.

This project models that core:

- **Instance derivations and validation** (`instance.dfy`, module `Instance`): the sorted
  shift-type list `M`, the default shift cost multipliers, the 0/1 coverage matrix `b`, the
  break windows `Oj`, and `validate_instance`, which collects every error and rejects the
  instance exactly when the list is non-empty. A datatype `InstanceData` stands for the parsed
  instance; `Seqs` holds the sequence helpers every module uses (`_to_sorted_tuple` among them).
- **Variable catalog** (`catalog.dfy`, module `Catalog`): `add_var` as a method of a `VarLists`
  class whose five lists grow in step, the dense x / y_tija / y_tj loops, and the key→index maps
  they leave behind.
- **Sparse rows** (`csr.dfy`, module `Csr`): a row dictionary as an insertion-sorted key list with
  a coefficient map; `add_row` as a method of a `CsrBuilder` class holding offsets, indices, values
  and bounds, which sums repeated keys, emits ascending column indices and drops coefficients with
  `|c| ≤ 1e-12`.
- **Encoder rows** (`rows.dfy`, `encoder.dfy`, `waes.dfy`, modules `Rows`, `Encoder`, `Waes`):
  the window helpers `_until_a1`/`_until_a2`, each constraint family Eq. (2)–(10) as a function
  (the specification) and as the loop methods that append it (the implementation),
  `build_waes_model` and `to_server_payload`.
- **Shape of the matrix** (`layout.dfy`, `support.dfy`, modules `Layout`, `Support`): the row count
  and bounds family by family, the CSR invariants of the payload, that the model is determined by
  the instance, and where the Eq. (2)/(3), (9) and (10) rows put their nonzeros.
- **WS baseline** (`ws_baseline.dfy`, module `WsBaseline`): `build_ws_model` is the same build with
  `ws_mode` on; it shares the variables, the row count and every row bound with the WAES build.
- **Audit** (`audit.dfy`, `audit_run.dfy`, modules `Audit`, `AuditRun`): `run_audits` with its own
  window helpers, the `check_eq`/`check_le`/`check_ge` closures as methods of an `IssueLog` class,
  every family recomputed from the solved maps in loop order, and the report.
- **Audit soundness** (`soundness.dfy`, module `Soundness`): for a solution vector that agrees with
  the solved maps on the catalog's columns, the audit of Eqs. (2)–(10) reports nothing exactly
  when every encoder row is satisfied to within `tol`. Family by family, the audit's
  `lhs − rhs` is the encoder row's activity minus its bound.
- **Encodability** (`encodability.dfy`, module `Encodability`): the finding below. Validation
  accepts an instance whose dependent activity names a parent that is not an activity; the
  encoder then looks up a column that does not exist. The corrected validation also rejects
  unknown parents.

Numbers are exact: demands, shares, costs, `w` and solved values are `real`, and the bounds
`"inf"`/`"ninf"` are a `Bound` datatype.

## Model

| member | source | states |
|---|---|---|
| Seqs.SortedTuple | src/instance.py:52-53 | `_to_sorted_tuple` returns an ascending sequence that is a permutation (same multiset) of its input |
| Seqs.SortedIntersection | src/build_waes.py:164-167 | `sorted(set(B) & set(A1))` and the like: strictly increasing, with exactly the common elements |
| Seqs.Range | src/build_waes.py:174 | Python's `range(lo, hi)`: `hi − lo` elements (none when `hi ≤ lo`), element p being `lo + p` |
| Seqs.Max | src/instance.py:70 | `max(N)` is an element of N and at least every element |
| Instance.ShiftTypes | src/instance.py:114 | `M` is sorted and holds M1's and M2's entries together (multiset union), so as a set it is `M1 ∪ M2` |
| Instance.DefaultShiftCostMultiplier | src/instance.py:134-139 | the default multiplier is defined on exactly M, and is `part_time_cost_factor` for a shift of M2 and 1.0 otherwise |
| Instance.ComputeBMatrix | src/instance.py:64-78 | no matrix (the loader raises) exactly when N is empty or a shift of M lacks a start or a length; otherwise `b` is defined on exactly N×M, and `b[(k, j)]` is 1 iff `start_j ≤ k ≤ min(max N, start_j + length_j − 1)`, else 0 |
| Instance.BreakWindowFilter | src/instance.py:91-95 | a break window is the shifted pattern `start + rel − 1` with the slots outside N filtered out: pattern order and repetitions kept, so a subsequence of the shifted pattern |
| Instance.BreakWindowSlots | src/instance.py:91-95 | a break window has at most as many entries as the pattern, every entry is in N and of the form `start + rel − 1` for a pattern entry `rel`, and every such in-horizon slot appears |
| Instance.ComputeBreakWindows | src/instance.py:81-96 | no windows (the loader raises) exactly when a shift of M1 lacks a start; otherwise `Oj` is defined on exactly M1, each `Oj[j]` the break window of shift j |
| Instance.ValidateInstance | src/instance.py:202-308 | the instance is accepted iff it is well formed (every check passes); a rejection carries the full error list, which is non-empty and holds exactly the violated checks |
| Instance.ShiftChecks | src/instance.py:232-243 | the shift loop reports, per shift j of M in order, the missing start, length or multiplier and the coverage errors |
| Instance.CoverageChecks | src/instance.py:239-243 | per interval k, `b[(k, j)]` missing or not 0/1 |
| Instance.DemandChecks | src/instance.py:245-248 | every missing demand `d[(a, i)]` for a in B, i in N, in loop order |
| Instance.DemandRowChecks | src/instance.py:246-248 | the missing demands of one independent activity |
| Instance.ParentChecks | src/instance.py:250-256 | per dependent activity: Ga missing (and then nothing more), else each missing share `s[(a, parent)]` |
| Instance.ShareChecks | src/instance.py:254-256 | the missing shares of one dependent activity, in parent order |
| Instance.WindowChecks | src/instance.py:258-263 | the activities of A1 without `v[a]` and of A2 without `r[a]` |
| Instance.CapabilityChecks | src/instance.py:265-272 | activities with missing or empty Ta, profiles with missing or empty Ht or no cost |
| Instance.ProfileLinks | src/instance.py:274-279 | every Ta entry naming an unknown profile or one whose Ht lacks the activity |
| Instance.ProfileLinkRow | src/instance.py:275-279 | the Ta errors of one activity |
| Instance.ActivityLinks | src/instance.py:281-286 | every Ht entry naming an unknown activity or one whose Ta lacks the profile |
| Instance.ActivityLinkRow | src/instance.py:282-286 | the Ht errors of one profile |
| Instance.BreakChecks | src/instance.py:288-296 | the break errors of every full-time shift, in order |
| Instance.BreakShiftChecks | src/instance.py:289-296 | one full-time shift: Oj missing (and then nothing more), else wrong length and each slot outside N |
| Instance.BreakSlotChecks | src/instance.py:295-296 | each slot of a break window outside N |
| Instance.PartitionPart | src/instance.py:217-230 | an error is among the partition errors iff that partition condition is violated |
| Instance.ScalarPart | src/instance.py:298-305 | an error is among the scalar errors iff that scalar condition is violated |
| Instance.CoverageMember | src/instance.py:239-243 | the coverage errors of shift j are exactly its violated coverage conditions |
| Instance.ShiftErrorsMember | src/instance.py:232-243 | the errors of shift j are exactly the shift conditions it violates |
| Instance.ShiftPart | src/instance.py:232-243 | the shift loop reports exactly the violated shift conditions |
| Instance.DemandErrorsMember | src/instance.py:245-248 | the demand errors of activity a are exactly its missing demands |
| Instance.DemandPart | src/instance.py:245-248 | the demand loop reports exactly the missing demands |
| Instance.ParentErrorsMember | src/instance.py:250-256 | the parent errors of activity a are exactly its violated parent conditions |
| Instance.ParentPart | src/instance.py:250-256 | the parent loop reports exactly the violated parent conditions |
| Instance.DeadlinePart | src/instance.py:258-260 | exactly the A1 activities without a deadline are reported |
| Instance.ReleasePart | src/instance.py:261-263 | exactly the A2 activities without a release are reported |
| Instance.ProfilePart | src/instance.py:265-267 | exactly the activities with missing or empty Ta are reported |
| Instance.ActivityPart | src/instance.py:268-272 | exactly the profiles with missing or empty Ht, or no cost, are reported |
| Instance.ProfileLinkEntryMember | src/instance.py:276-279 | one Ta entry yields "unknown profile" iff t is not in T and "inconsistent" iff Ht[t] lacks a |
| Instance.ActivityLinkEntryMember | src/instance.py:283-286 | one Ht entry yields "unknown activity" iff a is not in A and "inconsistent" iff Ta[a] lacks t |
| Instance.ProfileLinkErrorsMember | src/instance.py:274-279 | the Ta errors of a are exactly its violated link conditions |
| Instance.ProfileLinkPart | src/instance.py:274-279 | the Ta loop reports exactly the violated Ta link conditions |
| Instance.ActivityLinkErrorsMember | src/instance.py:281-286 | the Ht errors of t are exactly its violated link conditions |
| Instance.ActivityLinkPart | src/instance.py:281-286 | the Ht loop reports exactly the violated Ht link conditions |
| Instance.BreakErrorsMember | src/instance.py:288-296 | the break errors of shift j are exactly its violated break conditions |
| Instance.BreakPart | src/instance.py:288-296 | the break loop reports exactly the violated break conditions |
| Instance.ValidationErrorsCharacterized | src/instance.py:202-308 | an error is in the collected list iff its condition is violated: nothing stops at the first failure |
| Instance.NoViolation | src/instance.py:307-308 | a well-formed instance violates no condition |
| Instance.NoPartitionViolation | src/instance.py:217-230 | with the partitions in order, no partition error applies |
| Instance.NoShiftViolation | src/instance.py:232-243 | with the shift data complete, no shift error applies |
| Instance.NoDemandViolation | src/instance.py:245-248 | with every demand present, no demand error applies |
| Instance.NoParentViolation | src/instance.py:250-256 | with parents and shares present, no parent error applies |
| Instance.NoWindowViolation | src/instance.py:258-263 | with every deadline and release present, no window error applies |
| Instance.NoCapabilityViolation | src/instance.py:265-272 | with Ta, Ht and costs present, no capability error applies |
| Instance.NoLinkViolation | src/instance.py:274-286 | with Ta and Ht inverse over known indices, no link error applies |
| Instance.NoBreakViolation | src/instance.py:288-296 | with f in-horizon break slots per full-time shift, no break error applies |
| Instance.NoScalarViolation | src/instance.py:298-305 | with `0 ≤ w ≤ 1`, `q > 0`, `p ≥ 0`, `f > 0`, no scalar error applies |
| Instance.WellFormedIffNoViolation | src/instance.py:215-305 | an instance is well formed iff it violates no condition |
| Instance.AcceptedIffWellFormed | src/instance.py:307-308 | the error list is empty iff the instance is well formed, so validation raises iff some check fails |
| Instance.SomeViolation | src/instance.py:215-305 | an instance that is not well formed violates some condition (a witness error) |
| Instance.PartitionViolation | src/instance.py:217-230 | a broken partition yields a partition error |
| Instance.ShiftDataViolation | src/instance.py:232-243 | incomplete shift data yields a shift error |
| Instance.DemandViolation | src/instance.py:245-248 | a missing demand yields a demand error |
| Instance.ParentViolation | src/instance.py:250-256 | a missing Ga or share yields a parent error |
| Instance.WindowViolation | src/instance.py:258-263 | a missing deadline or release yields a window error |
| Instance.CapabilityViolation | src/instance.py:265-272 | a missing or empty Ta or Ht, or a missing cost, yields a capability error |
| Instance.LinkViolation | src/instance.py:274-286 | Ta and Ht that are not inverse over known indices yield a link error |
| Instance.ProfileLinkViolation | src/instance.py:274-279 | a bad Ta entry yields a Ta link error |
| Instance.ActivityLinkViolation | src/instance.py:281-286 | a bad Ht entry yields an Ht link error |
| Instance.BreakViolation | src/instance.py:288-296 | a missing, mis-sized or out-of-horizon break window yields a break error |
| Instance.ScalarViolation | src/instance.py:298-305 | an out-of-range scalar yields a scalar error |
| Catalog.VarLists.constructor | src/build_waes.py:90-94 | the five variable lists start empty |
| Catalog.VarLists.AddVar | src/build_waes.py:100-107 | the new index is the old length; each of the five lists gains exactly its entry, so they stay the same length |
| Catalog.AddIntVar | src/build_waes.py:109-146 | an integer variable in `[0, q]` with its objective, appended at the next index |
| Catalog.AddXForJ | src/build_waes.py:112-121 | the innermost x loop appends the names `x[(a, i, j, k)]` for k in N and records their indices |
| Catalog.AddXForI | src/build_waes.py:111-121 | the x loop over j for one (a, i) |
| Catalog.AddXForA | src/build_waes.py:110-121 | the x loop over i for one a |
| Catalog.AddXVars | src/build_waes.py:109-121 | the x block (every `(a, i, j, k)` of A×N×M×N in loop order) is appended and the x map is its index |
| Catalog.AddYAForJ | src/build_waes.py:126-134 | the innermost y_tija loop over a for one (t, i, j) |
| Catalog.AddYAForI | src/build_waes.py:125-134 | the y_tija loop over j for one (t, i) |
| Catalog.AddYAForT | src/build_waes.py:124-134 | the y_tija loop over i for one t |
| Catalog.AddYAVars | src/build_waes.py:123-134 | the y_tija block (every `(t, i, j, a)` of T×N×M×A) is appended and the y_tija map is its index |
| Catalog.AddYSForT | src/build_waes.py:137-146 | the y_tj loop over j for one t, each with objective `c[t]·shift_cost_multiplier[j]` |
| Catalog.AddYSVars | src/build_waes.py:136-146 | the y_tj block (every `(t, j)` of T×M) is appended and the y_tj map is its index |
| Catalog.AddVariables | src/build_waes.py:109-146 | the three loops leave exactly the catalog names, one conforming integer variable each, and the three maps of the catalog |
| Catalog.IndexSound | src/build_waes.py:100-146 | every map entry points at a valid index whose name carries that key |
| Catalog.IndexInjective | src/build_waes.py:100-146 | distinct keys have distinct indices, within a map and across the three maps |
| Catalog.IndexComplete | src/build_waes.py:100-146 | with duplicate-free names every index is recorded under the key of its name: the three maps cover each index exactly once |
| Catalog.CatalogMember | src/build_waes.py:109-146 | the x, y_tija and y_tj blocks hold exactly the names over A×N×M×N, T×N×M×A and T×M |
| Catalog.BlockKinds | src/build_waes.py:109-146 | each block holds names of its own kind only |
| Catalog.CatalogKeys | src/build_waes.py:109-146 | the x map has a key `(a, i, j, k)` iff a∈A, i∈N, j∈M, k∈N; likewise y_tija and y_tj: no combination is pruned |
| Catalog.CatalogSize | src/build_waes.py:109-146 | the catalog has `|A|·|N|·|M|·|N| + |T|·|N|·|M|·|A| + |T|·|M|` variables, whatever ws_mode is |
| Catalog.CatalogLayout | src/build_waes.py:109-146 | each map's entries come from its own block only |
| Csr.InsertProperties | src/build_waes.py:155 | inserting a new key keeps the key list strictly increasing and adds exactly that key |
| Csr.AddValid | src/build_waes.py:176-177 | `row[idx] = row.get(idx, 0.0) + c` keeps the row valid and adds c to idx's coefficient (0 when absent) |
| Csr.AccumulateSums | src/build_waes.py:154-157 | the accumulated row holds each touched index once, with the sum of all its updates |
| Csr.AccumulateSnoc | src/build_waes.py:176-177 | accumulating one more update is one more in-place addition |
| Csr.AddAllAppend | src/build_waes.py:154-157 | accumulating two update lists in sequence is accumulating their concatenation |
| Csr.KeptKeysProperties | src/build_waes.py:156-157 | the kept keys are exactly those with `|coeff| > eps`, in order; increasing keys stay increasing |
| Csr.EmitProperties | src/build_waes.py:155-159 | emitted indices are strictly increasing, are exactly the keys with `|coeff| > eps`, and each value is its key's coefficient with `|value| > eps` |
| Csr.EmitEntries | src/build_waes.py:155-159 | the emission loop produces exactly the kept indices and their coefficients |
| Csr.CsrBuilder.constructor | src/build_waes.py:148-152 | the payload starts with offsets `[0]`, no entries, no rows |
| Csr.CsrBuilder.AddRow | src/build_waes.py:154-162 | one row is appended: indices and values gain exactly its emitted entries, offsets gain the new length, the bounds gain the row's bounds, and the payload stays CSR |
| Csr.CsrAppend | src/build_waes.py:154-162 | appending a row to a CSR encoding of rows gives a CSR encoding of rows plus that row |
| Csr.CsrWellFormed | src/build_waes.py:148-162 | a CSR payload of r rows: offsets start at 0, never decrease, have r + 1 entries ending at `len(indices) == len(values)`; each row's indices are strictly increasing and every value has `|v| > 1e-12` |
| Csr.AccumulatePreservesDot | src/build_waes.py:154-157 | summing repeated keys preserves the row's dot product with any vector |
| Csr.EmitPreservesDot | src/build_waes.py:154-159 | dropping only entries that are zero preserves the row's dot product |
| Csr.TermsDotAppend | src/build_waes.py:154-157 | the dot product of concatenated update lists is the sum of their dot products |
| Rows.UntilA1 | src/build_waes.py:72-74 | `min(i + v[a], n)` (with `v[a]` read as 0 in WS mode): at most n and i + v[a], and equal to one of them |
| Rows.UntilA2 | src/build_waes.py:77-85 | i in WS mode or when `r[a] ≤ 0`; otherwise `max(i, min(r[a], n))`: never below i, at most n when i ≤ n |
| Rows.UntilInHorizon | src/build_waes.py:72-85 | for i ≤ n (and `v[a] ≥ 0` for a deadline), the window end lies in `[i, n]` |
| Rows.WsWindowCollapses | src/build_waes.py:72-85 | in WS mode the window of interval i ends at i |
| Rows.IndependentMember | src/build_waes.py:164-165 | an activity of `B ∩ A1` (`B ∩ A2`) is an independent activity with the window data its helper reads |
| Rows.DependentMember | src/build_waes.py:166-167 | an activity of `C ∩ A1` (`C ∩ A2`) is a dependent activity with its window data |
| Rows.WellFormedWindows | src/build_waes.py:164-229 | on a validated instance every activity of Eqs. (2)–(5) has its window data |
| Rows.CatalogCovers | src/build_waes.py:109-146 | every key a row loop looks up has a column in the catalog's maps |
| Rows.Horizon | src/instance.py:229-230 | with `N = [1..n]`, k is in N iff `1 ≤ k ≤ n` |
| Encoder.AddWindowK | src/build_waes.py:175-177 | the k loop adds `b[(k, j)]` at `x[(a, i, j, k)]` for k in `range(i, until + 1)`, as the specification's updates |
| Encoder.AddWindowJ | src/build_waes.py:174-177 | the j loop of Eqs. (2)–(5) |
| Encoder.AddParentI | src/build_waes.py:206-208 | the i loop of Eqs. (4)/(5): `−s[(a, parent)]` at `x[(parent, i, j, k)]` |
| Encoder.AddParentJ | src/build_waes.py:205-208 | the j loop over parents' columns |
| Encoder.AddParentP | src/build_waes.py:203-208 | the parent loop over `Ga[a]` |
| Encoder.AddStaffX | src/build_waes.py:236-238 | Eq. (6): `+1` at `x[(a, i, j, k)]` for `1 ≤ i ≤ k` |
| Encoder.AddStaffY | src/build_waes.py:239-241 | Eq. (6): `−1` at `y_tija[(t, k, j, a)]` for t in `Ta[a]` |
| Encoder.AddAssign | src/build_waes.py:249-251 | `+1` at `y_tija[(t, i, j, a)]` over the given activities |
| Encoder.AddCapJ | src/build_waes.py:260-263 | Eq. (8), loop over j |
| Encoder.AddCapT | src/build_waes.py:259-263 | Eq. (8), loop over t |
| Encoder.AddBreakI | src/build_waes.py:270-273 | Eq. (9), loop over the break slots of j |
| Encoder.AddShareT | src/build_waes.py:281-283 | Eq. (10), loop over t for one shift: adds the given coefficient at `y_tj[(t, j)]` |
| Encoder.AddShareJ | src/build_waes.py:280-287 | Eq. (10), loop over the shifts |
| Encoder.BuildDemandRow | src/build_waes.py:173-177 | the row dictionary of one Eq. (2)/(3) row is the accumulation of its specified updates |
| Encoder.BuildDependentRow | src/build_waes.py:197-208 | the row dictionary of one Eq. (4)/(5) row |
| Encoder.BuildStaffRow | src/build_waes.py:235-241 | the row dictionary of one Eq. (6) row |
| Encoder.BuildShiftLinkRow | src/build_waes.py:248-253 | the row dictionary of one Eq. (7) row (assignments then `−1` at `y_tj[(t, j)]`) |
| Encoder.BuildCapRow | src/build_waes.py:258-263 | the row dictionary of one Eq. (8) row |
| Encoder.BuildBreakRow | src/build_waes.py:269-275 | the row dictionary of one Eq. (9) row (break-slot assignments then `−(f − p)` at `y_tj[(t, j)]`) |
| Encoder.BuildShareRow | src/build_waes.py:279-287 | the row dictionary of the Eq. (10) row |
| Encoder.AppendDemandRow | src/build_waes.py:172-179 | one Eq. (2)/(3) row is appended with `lb = ub = d[(a, i)]` |
| Encoder.AddDemandRowsFor | src/build_waes.py:171-179 | the activity loop of one interval appends exactly its specified demand rows |
| Encoder.AppendDependentRow | src/build_waes.py:196-210 | one Eq. (4)/(5) row is appended with bounds `[0, inf)` |
| Encoder.AddDependentRowsFor | src/build_waes.py:195-210 | the activity loop of one interval appends exactly its specified dependency rows |
| Encoder.AppendStaffRow | src/build_waes.py:235-242 | one Eq. (6) row is appended with bounds `(−inf, 0]` |
| Encoder.AddStaffRowsA | src/build_waes.py:234-242 | the activity loop of one (k, j) appends exactly its Eq. (6) rows |
| Encoder.AddStaffRowsJ | src/build_waes.py:233-242 | the shift loop of one k appends exactly its Eq. (6) rows |
| Encoder.AppendShiftLinkRow | src/build_waes.py:248-254 | one Eq. (7) row is appended with bounds `(−inf, 0]` |
| Encoder.AddShiftLinkRowsT | src/build_waes.py:247-254 | the profile loop of one (i, j) appends exactly its Eq. (7) rows |
| Encoder.AddShiftLinkRowsJ | src/build_waes.py:246-254 | the shift loop of one i appends exactly its Eq. (7) rows |
| Encoder.AppendCapRow | src/build_waes.py:258-264 | one Eq. (8) row is appended with bounds `(−inf, q]` |
| Encoder.AppendBreakRow | src/build_waes.py:269-276 | one Eq. (9) row is appended with bounds `(−inf, 0]` |
| Encoder.AddBreakRowsJ | src/build_waes.py:268-276 | the full-time shift loop of one profile appends exactly its Eq. (9) rows |
| Encoder.AddDemandRows | src/build_waes.py:169-191 | the Eq. (2)/(3) loops append exactly the specified rows, in order, with `lb = ub = d[(a, i)]` |
| Encoder.AddDependentRows | src/build_waes.py:193-229 | the Eq. (4)/(5) loops append exactly the specified rows with bounds `[0, inf)` |
| Encoder.AddStaffRows | src/build_waes.py:231-242 | the Eq. (6) loops append exactly the specified rows with bounds `(−inf, 0]` |
| Encoder.AddShiftLinkRows | src/build_waes.py:244-254 | the Eq. (7) loops append exactly the specified rows with bounds `(−inf, 0]` |
| Encoder.AddCapRows | src/build_waes.py:256-264 | the Eq. (8) loop appends exactly the specified rows with bounds `(−inf, q]` |
| Encoder.AddBreakRows | src/build_waes.py:266-276 | the Eq. (9) loops append exactly the specified rows with bounds `(−inf, 0]` |
| Waes.BuildRows | src/build_waes.py:148-288 | the row loops leave a CSR payload of exactly the encoder's rows, family by family, with drop threshold 1e-12 |
| Waes.BuildWaesModel | src/build_waes.py:88-305 | on a validated instance whose parents are activities, the model is the catalog with its maps, the CSR encoding of the rows of Eqs. (2)–(10), and the given ws_mode |
| Waes.ToServerPayload | src/build_waes.py:42-69 | the payload carries the model's lists under their fields, minimises with scalability factor 1 and offset 0, and has `solver_config` iff it is non-empty |
| Layout.DemandRowsABounds | src/build_waes.py:169-191 | one Eq. (2)/(3) row per activity, each with `lb = ub = d[(a, i)]` |
| Layout.DependentRowsABounds | src/build_waes.py:193-229 | one Eq. (4)/(5) row per activity, each with bounds `[0, inf)` |
| Layout.StaffRowsABounds | src/build_waes.py:231-242 | one Eq. (6) row per activity, `(−inf, 0]` |
| Layout.ShiftLinkRowsTBounds | src/build_waes.py:244-254 | one Eq. (7) row per profile, `(−inf, 0]` |
| Layout.BreakRowsJBounds | src/build_waes.py:266-276 | one Eq. (9) row per full-time shift, `(−inf, 0]` |
| Layout.CapRowsShape | src/build_waes.py:256-264 | n Eq. (8) rows, `(−inf, q]` |
| Layout.DemandRowsShape | src/build_waes.py:169-191 | `n·|B∩A1|` (`n·|B∩A2|`) demand rows with bounds `d[(a, i)]` |
| Layout.DependentRowsShape | src/build_waes.py:193-229 | `n·|C∩A1|` (`n·|C∩A2|`) dependency rows with bounds `[0, inf)` |
| Layout.StaffRowsShape | src/build_waes.py:231-242 | `n·|M|·|A|` Eq. (6) rows, all `(−inf, 0]` |
| Layout.ShiftLinkRowsShape | src/build_waes.py:244-254 | `n·|M|·|T|` Eq. (7) rows, all `(−inf, 0]` |
| Layout.BreakRowsShape | src/build_waes.py:266-276 | `|T|·|M1|` Eq. (9) rows, all `(−inf, 0]` |
| Layout.RowCount | src/build_waes.py:169-288 | the matrix has `n·(|B∩A1| + |B∩A2| + |C∩A1| + |C∩A2|) + n·|M|·|A| + n·|M|·|T| + n + |T|·|M1| + 1` rows (sets counted without repeats) |
| Layout.FamilySizes | src/build_waes.py:169-288 | each family's row count |
| Layout.EncoderRowsLength | src/build_waes.py:169-288 | the row count is the sum of the families' counts |
| Layout.IntersectionCards | src/build_waes.py:164-167 | the sorted intersections have as many entries as the set intersections |
| Layout.BoundsOfAt | src/build_waes.py:160-162 | the bounds list holds each row's `(lb, ub)` at its position |
| Layout.BoundsOfAppend | src/build_waes.py:160-162 | the bounds of two row lists appended are their bounds appended |
| Layout.PayloadWellFormed | src/build_waes.py:42-69 | the server payload of a built model is well-formed CSR with one bound pair per row and one entry per variable in each variable list |
| Layout.CsrDetermined | src/build_waes.py:148-162 | two CSR encodings of the same rows are equal |
| Layout.VariablesDetermined | src/build_waes.py:100-146 | two conforming variable lists over the same names are equal |
| Layout.EncodesUnique | src/build_waes.py:88-305 | the model of an instance and ws_mode is unique |
| Support.DemandRowSupport | src/build_waes.py:169-191 | every emitted column of an Eq. (2)/(3) row for (i, a) is `x[(a, i, j, k)]` for a shift j, `i ≤ k ≤ until` and `b[(k, j)] ≠ 0` |
| Support.WsDemandRowSupport | src/build_waes.py:72-85 | in WS mode an Eq. (2)/(3) row for (i, a) touches only `x[(a, i, j, i)]` |
| Support.DemandRowExact | src/build_waes.py:169-191 | with M listed once, `x[(a, i, j, k)]` is emitted in that row iff `i ≤ k ≤ until` and `b[(k, j)] = 1`, and then with coefficient 1.0 |
| Support.ShareRowCoefficient | src/build_waes.py:278-288 | with M, M2 and T listed once, the summed Eq. (10) coefficient of `y_tj[(t, j)]` is `1 − w` for j in M2 and `−w` for j in M1 |
| Support.BreakRowCoefficient | src/build_waes.py:266-276 | the Eq. (9) row for (t, j) gives `y_tj[(t, j)]` the coefficient `−(f − p)` |
| WsBaseline.BuildWsModel | src/build_ws.py:9-11 | the WS model is the model for ws_mode on, and says so |
| WsBaseline.WsIsWaes | src/build_ws.py:9-11 | any two WS models of an instance are equal: the WS baseline is `build_waes_model(inst, ws_mode=True)` |
| WsBaseline.DemandBoundsAgree | src/build_waes.py:169-191 | the Eq. (2)/(3) rows have the same bounds in both modes |
| WsBaseline.DependentBoundsAgree | src/build_waes.py:193-229 | the Eq. (4)/(5) rows have the same bounds in both modes |
| WsBaseline.EncoderRowsSplit | src/build_waes.py:169-288 | the matrix is the windowed families Eqs. (2)–(5) followed by Eqs. (6)–(10) |
| WsBaseline.WindowBoundsAgree | src/build_waes.py:169-229 | the windowed families have the same row bounds in both modes |
| WsBaseline.WsSameRows | src/build_waes.py:169-288 | the WS and WAES matrices have the same row bounds in order and identical rows for Eqs. (6)–(10) |
| WsBaseline.WsSharesLayout | src/build_ws.py:9-11 | a WS and a WAES model of one instance have the same names, types, objective, variable bounds, key maps, row count and row bounds |
| Audit.AuditUntilA1 | src/audit.py:26-28 | the audit's deadline helper equals the encoder's for every instance, i, a and mode |
| Audit.AuditUntilA2 | src/audit.py:31-37 | the audit's release helper equals the encoder's |
| Audit.AuditUntil | src/audit.py:26-37 | the audit's window end equals the encoder's |
| Audit.EqIssue | src/audit.py:49-52 | `check_eq` records nothing iff `|lhs − rhs| ≤ tol`, else one issue with violation `|lhs − rhs| > tol` |
| Audit.LeIssue | src/audit.py:54-57 | `check_le` records nothing iff `lhs − rhs ≤ tol`, else one issue with violation `lhs − rhs > tol` |
| Audit.GeIssue | src/audit.py:59-62 | `check_ge` records nothing iff `rhs − lhs ≤ tol`, else one issue with violation `rhs − lhs > tol` |
| Audit.IssueLog.constructor | src/audit.py:47 | the issue list starts empty with the given tolerance |
| Audit.IssueLog.CheckEq | src/audit.py:49-52 | the list gains exactly the check's issues |
| Audit.IssueLog.CheckLe | src/audit.py:54-57 | the list gains exactly the check's issues |
| Audit.IssueLog.CheckGe | src/audit.py:59-62 | the list gains exactly the check's issues |
| Audit.LabelledAppend | src/audit.py:49-62 | appending two lists of issues of one equation, each above tol, keeps that property |
| Audit.DemandIssuesI | src/audit.py:69-91 | every Eq. (2)/(3) issue is labelled with its equation and exceeds tol |
| Audit.DependentIssuesK | src/audit.py:93-131 | every Eq. (4)/(5) issue is labelled and exceeds tol |
| Audit.StaffIssuesK | src/audit.py:133-139 | every Eq. (6) issue is labelled `Eq(6)` and exceeds tol |
| Audit.ShiftLinkIssuesI | src/audit.py:141-147 | every Eq. (7) issue is labelled and exceeds tol |
| Audit.CapIssues | src/audit.py:149-158 | every Eq. (8) issue is labelled and exceeds tol |
| Audit.BreakIssuesT | src/audit.py:160-169 | every Eq. (9) issue is labelled and exceeds tol |
| Audit.ShareIssue | src/audit.py:171-174 | the Eq. (10) issue, if any, is labelled and exceeds tol |
| Audit.RoundNearest | src/audit.py:176-182 | `round` is a nearest integer (within 0.5, no farther than any integer) and breaks ties to even |
| Audit.IntegralityX | src/audit.py:177-178 | one check per x key, so at most one issue per key; none iff every value is within tol of its rounding |
| Audit.IntegralityYA | src/audit.py:179-180 | the same for the y_tija values |
| Audit.IntegralityYS | src/audit.py:181-182 | the same for the y_tj values |
| Audit.IntegralityIssues | src/audit.py:176-182 | every Eq. (11) issue is labelled and exceeds tol |
| AuditRun.AuditDemandOne | src/audit.py:71-79 | one Eq. (2)/(3) check appends exactly its issue |
| AuditRun.AuditDemandFor | src/audit.py:70-79 | the activity loop of one interval appends exactly its demand issues |
| AuditRun.AuditDependentOne | src/audit.py:95-111 | one Eq. (4)/(5) check appends exactly its issue |
| AuditRun.AuditDependentFor | src/audit.py:94-111 | the activity loop of one interval appends exactly its dependency issues |
| AuditRun.AuditStaffA | src/audit.py:135-139 | the activity loop of one (k, j) appends exactly its Eq. (6) issues |
| AuditRun.AuditStaffJ | src/audit.py:134-139 | the shift loop of one k appends exactly its Eq. (6) issues |
| AuditRun.AuditShiftLinkT | src/audit.py:143-147 | the profile loop of one (i, j) appends exactly its Eq. (7) issues |
| AuditRun.AuditShiftLinkJ | src/audit.py:142-147 | the shift loop of one i appends exactly its Eq. (7) issues |
| AuditRun.AuditBreak | src/audit.py:162-169 | one Eq. (9) check appends exactly its issue |
| AuditRun.AuditBreakJ | src/audit.py:161-169 | the full-time shift loop of one profile appends exactly its Eq. (9) issues |
| AuditRun.AuditWindowRows | src/audit.py:69-131 | the audits of Eqs. (2)–(5) append exactly their issues, in order |
| AuditRun.AuditFixedRows | src/audit.py:133-174 | the audits of Eqs. (6)–(10) append exactly their issues, in order |
| AuditRun.AuditDemand | src/audit.py:69-91 | the Eq. (2)/(3) loops append exactly the specified issues, in loop order |
| AuditRun.AuditDependent | src/audit.py:93-131 | the Eq. (4)/(5) loops append exactly the specified issues |
| AuditRun.AuditStaff | src/audit.py:133-139 | the Eq. (6) loops append exactly the specified issues (x over `1 ≤ i ≤ k` against y_tija over `Ta[a]`) |
| AuditRun.AuditShiftLinks | src/audit.py:141-147 | the Eq. (7) loops append exactly the specified issues |
| AuditRun.AuditCaps | src/audit.py:149-158 | the Eq. (8) loop appends exactly the specified issues |
| AuditRun.AuditBreaks | src/audit.py:160-169 | the Eq. (9) loops append exactly the specified issues |
| AuditRun.AuditShare | src/audit.py:171-174 | the Eq. (10) check appends exactly its issue |
| AuditRun.AuditIntegralityX | src/audit.py:177-178 | one check per x key, in the map's order |
| AuditRun.AuditIntegralityYA | src/audit.py:179-180 | one check per y_tija key, in the map's order |
| AuditRun.AuditIntegralityYS | src/audit.py:181-182 | one check per y_tj key, in the map's order |
| AuditRun.AuditRows | src/audit.py:64-174 | the row audits record exactly the issues of Eqs. (2)–(10), family by family |
| AuditRun.RunAudits | src/audit.py:40-188 | the report holds every issue of Eqs. (2)–(11) in family and loop order, passes iff there is none, and echoes tol |
| Soundness.DemandRowAudit | src/audit.py:69-79 | the Eq. (2)/(3) audit's lhs is the encoder row's activity, so its issue is absent iff the row is satisfied to within tol |
| Soundness.DependentRowAudit | src/audit.py:93-111 | the Eq. (4)/(5) audit's `lhs − rhs` is the encoder row's activity; issue absent iff the row is satisfied |
| Soundness.StaffRowAudit | src/audit.py:133-139 | the Eq. (6) audit's `lhs − rhs` is the encoder row's activity; issue absent iff the row is satisfied |
| Soundness.ShiftLinkRowAudit | src/audit.py:141-147 | the same for Eq. (7) |
| Soundness.CapRowAudit | src/audit.py:149-158 | the same for Eq. (8) |
| Soundness.BreakRowDot | src/build_waes.py:266-276 | the Eq. (9) row's activity is the break load minus `(f − p)·y_tj[(t, j)]` |
| Soundness.BreakRowAudit | src/audit.py:160-169 | the Eq. (9) issue is absent iff the row is satisfied |
| Soundness.ShareRowDot | src/build_waes.py:278-288 | the Eq. (10) row's activity is `Σ_{M2} y_tj − w·Σ_M y_tj` |
| Soundness.ShareRowAudit | src/audit.py:171-174 | the Eq. (10) issue is absent iff the row is satisfied |
| Soundness.DemandFamily | src/audit.py:69-91 | the Eq. (2)/(3) audit finds nothing iff every Eq. (2)/(3) row is satisfied |
| Soundness.DependentFamily | src/audit.py:93-131 | the Eq. (4)/(5) audit finds nothing iff every such row is satisfied |
| Soundness.StaffFamily | src/audit.py:133-139 | the Eq. (6) audit finds nothing iff every Eq. (6) row is satisfied |
| Soundness.ShiftLinkFamily | src/audit.py:141-147 | the same for Eq. (7) |
| Soundness.CapFamily | src/audit.py:149-158 | the same for Eq. (8) |
| Soundness.BreakFamily | src/audit.py:160-169 | the same for Eq. (9) |
| Soundness.WindowFamilies | src/audit.py:69-131 | the audit of Eqs. (2)–(5) finds nothing iff the windowed rows are satisfied |
| Soundness.FixedFamilies | src/audit.py:133-174 | the audit of Eqs. (6)–(10) finds nothing iff those rows are satisfied |
| Soundness.AuditMatchesEncoder | src/audit.py:64-174 | the audit of Eqs. (2)–(10) records no issue iff every encoder row is satisfied to within tol by the solution vector |
| Soundness.AuditClean | src/audit.py:40-188 | the whole audit is clean iff every row is satisfied and every solved value is within tol of an integer |
| Encodability.UnknownParentCoverage | src/instance.py:124 | the witness's coverage matrix is exactly what the loader computes from its shift data |
| Encodability.UnknownParentBreakWindows | src/instance.py:126-130 | the witness's break windows are what the loader derives from the pattern `[1]` |
| Encodability.UnknownParentAccepted | src/instance.py:250-256 | (as written) a concrete instance passes every validation check, yet a dependent activity's parent is not an activity, and the x key the encoder looks up for it is not in the catalog |
| Encodability.UnknownParentErrorsMember | src/build_waes.py:203-207 | the unknown-parent errors of activity a are exactly its parents outside A |
| Encodability.ParentsKnownErrorsMember | src/build_waes.py:203-207 | the unknown-parent errors are exactly the pairs (a, parent) with a in C and parent outside A |
| Encodability.ParentsKnownErrorsEmpty | src/build_waes.py:203-207 | there are no unknown-parent errors iff every parent is an activity |
| Encodability.UnknownParentChecks | src/instance.py:250-256 | the added check loop reports exactly the unknown-parent errors |
| Encodability.KnownParentChecks | src/instance.py:253-256 | the added check over one activity's parents |
| Encodability.ValidateForEncoding | src/instance.py:202-308 | (corrected) ready iff well formed and every parent is an activity; a refusal carries the full error list and the unknown parents, not both empty |
| Encodability.LoadModel | src/build_waes.py:88-305 | a model is built iff the corrected validation passes, and then it is the model of the instance |

## Left out

- Floating point: all numbers are exact reals, so rounding error in sums and products is not modelled.
- The drop threshold `1e-12` is the constant `Encoder.DropEps`. The audit `tol` is a parameter of `RunAudits`, and its default `1e-4` is the constant `Audit.DefaultTol`.
- `round` is exact banker's rounding on reals, a nearest integer that breaks ties to even.
- Instance.ComputeBMatrix, Instance.ComputeBreakWindows: the loader's exceptions are the `None` result. `max` of an empty N raises `ValueError` (src/instance.py:70), for instance when `n ≤ 0` and no `N` is given (src/instance.py:111). A shift of M without a start or length raises `KeyError` (src/instance.py:73-74), as does a full-time shift without a start (src/instance.py:90). `load_instance` computes b (src/instance.py:124) and Oj before `validate_instance` runs (src/instance.py:198). So on an instance that came through the loader, the missing-start and missing-length errors of Instance.ShiftChecks never fire; the model validates `InstanceData` values as given.
- JSON loading, file reading and string-keyed parsing in `load_instance` (src/instance.py:99-163) are not modelled. The model's input is the parsed `InstanceData`. `_parse_nested_float` and the paper's expected objectives are not modelled.
- Variable name strings (`x_a{a}_i{i}_j{j}_k{k}` and so on) are the `VarName` datatype. The detail strings of audit issues are the `Detail` datatype. The payload's JSON key spelling is the field names of `Payload`.
- src/solve.py, src/cuopt_server.py and src/extract_solution.py are not part of this model: CLI, configuration, the network client, polling, response unpacking and CSV writing.
- src/solution_types.py is the `SolvedValues` datatype in `Audit`. Its optional solver statistics are not read by the audit and are not modelled. Each solved map comes with the order its items are iterated in.
- Python's `raise ValueError` in `validate_instance` becomes the `Rejected` outcome carrying the error list. Error messages are datatype constructors, not strings.
- Support.DemandRowExact, Support.ShareRowCoefficient: the coefficient 1.0 (Eq. (2)/(3)) and the coefficients `1 − w` and `−w` (Eq. (10)) need M, M2 and T free of repeated entries. Validation compares these as sets only. With a repeated shift, the loops visit the same key twice and the summed coefficient doubles, so these lemmas carry `Distinct` hypotheses. Support.DemandRowSupport holds without them.
- Soundness.AuditMatchesEncoder, Soundness.AuditClean: satisfaction is stated on the encoder's rows before `add_row` drops the coefficients with `|c| ≤ 1e-12` (src/build_waes.py:154-159), so soundness holds for the rows before the drop only. Csr.EmitPreservesDot keeps a row's activity only when every dropped coefficient is exactly zero, and the model does not prove that for the encoder's rows. A valid instance can lose nonzero coefficients: validation asks only `0 ≤ w ≤ 1`, so with `0 < w ≤ 1e-12` the summed Eq. (10) coefficient `−w` of a full-time `y_tj` is dropped; a share `0 < s[(a, parent)] ≤ 1e-12` drops the Eq. (4)/(5) coefficients at the parent's x. For such an instance the payload's Eq. (4)/(5) or Eq. (10) row differs from the row the audit is proved to match.
- Soundness.AuditMatchesEncoder: the audit is related to a solution vector that agrees with the solved maps on the catalog's columns (`SolutionOf`). Unpacking the solver's response into maps is not modelled.
- The Eq. (4)/(5) rows' nonzero pattern is not characterized column by column. Their meaning is stated through the row's activity (Soundness.DependentRowAudit).
- AuditRun.RunAudits requires every key the audit reads to be present in the solved maps (`SolvedCovers`). A missing key, which raises `KeyError` in Python, is not modelled.
- AuditRun.RunAudits also requires every parent to be an activity (`ParentsKnown`). For a parent outside A, the Eq. (4)/(5) audit reads `solved.x_aijk[(a_parent, i, j, k)]` (src/audit.py:105), which raises `KeyError`. That is the case of the finding below.

## Findings

| source | as written | input that shows it | evidently intended | confidence | as-written member | corrected member |
|---|---|---|---|---|---|---|
| src/instance.py:250-256 | validation checks that each dependent activity has `Ga[a]` and a share `s[(a, parent)]`, but never that `parent` is an activity; `build_waes_model` then looks up `x_aijk[(parent, i, j, k)]` (src/build_waes.py:203-207), which raises `KeyError` for a parent outside A, as does `run_audits` at `solved.x_aijk[(a_parent, i, j, k)]` (src/audit.py:105) | n = 1, M1 = [1], A = [1, 2] with B = [1], C = [2], `Ga[2] = [3]` and `s[(2, 3)] = 0.5`; the Eq. (4) row for k = 1 looks up `x[(3, 1, 1, 1)]` | reject an instance whose parents are not activities, before encoding | not executed | Encodability.UnknownParentAccepted | Encodability.ValidateForEncoding |
