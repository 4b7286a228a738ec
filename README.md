# FABBER noise and forward-model bookkeeping in Dafny

This project models four pieces of FABBER, the Bayesian model-fitting
library for imaging time series:

- **The AR(1)-with-cross-terms noise model** (`Ar1cNoiseModel`, files
  `ar1c_cache.dfy` and `ar1c_noise.dfy`).
  - Its alpha-matrix cache (`Ar1cMatrixCache`) holds a fixed family of
    symmetric band matrices, indexed by echo and by the powers of the two
    AR coefficients. The cache builds them once. On every update it
    recomputes one weighted sum per echo, the "marginal".
  - The model part covers the echo-count / cross-term configuration, the
    hard-coded initial distributions, and `Precalculate`.
  - Of the variational updates it covers:
    - the entries that `UpdateAlpha` adds to the alpha precision and to
      its right-hand side;
    - the Gamma updates of `UpdatePhi`;
    - the singular-diagonal fix of `UpdateTheta`;
    - the zero-covariance check of `InputFromMVN`.
- **The parameter layout of the phenomenological qBOLD model**
  (`PhenomFwdModel`, files `phenom_layout.dfy` and `phenom_model.dfy`).
  Four inference flags decide where the nine coefficients, OEF, DBV and S0
  sit in the parameter vector. The files also model:
  - the flag and tau handling of `Initialize`;
  - the parameter names;
  - the hard-coded prior;
  - how `Evaluate` reads a parameter vector;
  - the ARD rewrites of the prior on the nine coefficients.
- **The non-numeric parts of the TURBO-QUASAR ASL model**
  (`TurboQuasarFwdModel`, files `turboquasar_names.dfy` and
  `turboquasar_model.dfy`):
  - the option flags that `Initialize` derives;
  - the flag-driven parameter list;
  - the clamping of parameters before evaluation;
  - the NaN scan of the kinetic curves;
  - the layout of the predicted signal over phases, TIs and repeats;
  - the ARD index list and the prior rewrites that use it.

`common.dfy` holds the shared vocabulary: `Option`, `Result`, the fault
kinds with their messages, 1-based matrix access, and a `Double` that can
be NaN or infinite. `mvn.dfy` models the parts of `MVNDist` that the
forward models use: means, and whichever of the precision or covariance
matrix was set last. Matrix inversion is a function parameter.

Three parts are imperative in the source and stay imperative here:
- the build of the cache;
- the list building;
- the loops over the prior and over the result vector.

These are methods with loop invariants. Each is proved against a
specification function (`BuiltMatrices`, `ListsInferred`, `ResultAt`,
`Arrange`, ...). The lemmas beside each function prove what the source
promises about it.

### Notes on the source

- **`UpdateARD` of TURBO-QUASAR.** At
  `fwdmodel_asl_turboquasar.cc:1168-1170` the `if (doard)` guards only
  `Fard = 0`. The block after it always runs. The model keeps this: the
  ARD loop runs whether or not ARD is on.
- **The ARD index list of TURBO-QUASAR.** `SetupARD` appends to the list
  and never clears it. The model keeps this too.
- **`UpdatePhi` of the AR(1) model.** The source asserts that the new
  scale `b` is positive. The model reports a failure in that case (an
  internal error).
- **`Ar1cMatrixCache::Update`.** Its `default:` throw ("Invalid row/col")
  cannot be reached from the build loop: `StartCellDefined` shows that
  every power pair the loop visits has a start cell.

## Model

| member | source | states |
|---|---|---|
| `Ar1cCache.FlattenIndex` | C_FABBER/fabber_core/noisemodel_ar.cc:47-51 | every slot (n in {1,2}, powers at most 2) maps below 18 |
| `Ar1cCache.UnflattenIndex` | C_FABBER/fabber_core/noisemodel_ar.cc:47-51 | every flat index below 18 comes from exactly one valid slot, and flattening that slot gives the index back |
| `Ar1cCache.FlattenIndexInjective` | C_FABBER/fabber_core/noisemodel_ar.cc:47-51 | two valid slots with the same flat index are the same slot |
| `Ar1cCache.FlattenIndexRoundTrip` | C_FABBER/fabber_core/noisemodel_ar.cc:47-51 | unflattening a flattened slot returns that slot |
| `Ar1cCache.BuildIndexInTable` | C_FABBER/fabber_core/noisemodel_ar.cc:60-73 | every index the build loop uses (n <= nPhis, a12pow + a34pow <= 2) is below the size of the table the source allocates for nPhis echoes |
| `Ar1cCache.StartCellDefined` | C_FABBER/fabber_core/noisemodel_ar.cc:85-124 | the switch table has a start cell exactly for the power pairs of total degree at most 2 |
| `Ar1cCache.EchoSwapPairs` | C_FABBER/fabber_core/noisemodel_ar.cc:138-142 | the echo-2 remap r -> r - 1 + 2 (r mod 2) sends 2k-1 to 2k and 2k to 2k-1, and is its own inverse |
| `Ar1cCache.EchoSwapSmall` | C_FABBER/fabber_core/noisemodel_ar.cc:138-142 | the remap keeps the start rows and columns 1..4 within 1..4 |
| `Ar1cCache.LineCellsSize` | C_FABBER/fabber_core/noisemodel_ar.cc:144-150 | the stepping loop writes count distinct stored cells |
| `Ar1cCache.LineCellsRange` | C_FABBER/fabber_core/noisemodel_ar.cc:144-150 | every cell the loop writes lies on the start cell's diagonal, between the start and the last step |
| `Ar1cCache.LineCellsValues` | C_FABBER/fabber_core/noisemodel_ar.cc:144-150 | every cell the loop writes holds the loop's value |
| `Ar1cCache.LineCellsOnLine` | C_FABBER/fabber_core/noisemodel_ar.cc:144-150 | the k-th step of the loop is among the written cells |
| `Ar1cCache.LineStartBounds` | C_FABBER/fabber_core/noisemodel_ar.cc:101-142 | every start cell, after the echo-2 remap, is inside the matrix and within the bandwidth 3 |
| `Ar1cCache.BaseMatrixShape` | C_FABBER/fabber_core/noisemodel_ar.cc:76-150 | each base matrix has order nTimes * nPhis, exactly nTimes - 1 nonzero stored cells, value -1 when a12pow + a34pow = 1 and +1 otherwise, all within bounds and bandwidth |
| `Ar1cCache.BuiltMatricesAt` | C_FABBER/fabber_core/noisemodel_ar.cc:57-154 | slot (n, a12pow, a34pow) of the built table is that base matrix, except that no a34pow > 0 matrix is built with fewer than 3 alphas |
| `Ar1cCache.BuiltMatricesInBand` | C_FABBER/fabber_core/noisemodel_ar.cc:57-154 | every slot of the built table is empty or a band matrix of order nTimes * nPhis |
| `Ar1cCache.MarginalEntry` | C_FABBER/fabber_core/noisemodel_ar.cc:169-193 | element (i, j) of echo n's marginal is G(0,0) + m(n) G(1,0) + S(n,n) G(2,0), where G(a,b) is the cached matrix (n, a, b) and S = Cov + m m'; with at least 3 alphas it also adds m(T) G(0,1) + S(n,T) G(1,1) + S(T,T) G(0,2), with T a valid alpha index in 3..nAlphas |
| `Ar1cCache.CrossIndexShared` | C_FABBER/fabber_core/noisemodel_ar.cc:176 | the cross coefficient T is in 3..nAlphas; the two echoes use the same T exactly under "same" (3 alphas), and different ones under "dual" (4 alphas) |
| `Ar1cCache.CombineEntries` | C_FABBER/fabber_core/noisemodel_ar.cc:182-191 | each entry of a marginal is M00 + m(n) M10 + S(n,n) M20, plus m(T) M01 + S(n,T) M11 + S(T,T) M02 with cross terms |
| `Ar1cCache.CombineInBand` | C_FABBER/fabber_core/noisemodel_ar.cc:182-191 | a weighted sum of band matrices is a band matrix of the same order |
| `Ar1cCache.BuiltEchoSlotsInBand` | C_FABBER/fabber_core/noisemodel_ar.cc:171-191 | the six slots an echo's marginal reads are band matrices no larger than the data |
| `Ar1cCache.MarginalInBand` | C_FABBER/fabber_core/noisemodel_ar.cc:160-193 | every marginal is a band matrix of order nTimes * nPhis |
| `Ar1cCache.MarginalsStep` | C_FABBER/fabber_core/noisemodel_ar.cc:171-193 | one pass of the echo loop stores echo n's marginal in slot n - 1 |
| `Ar1cCache.MarginalsUpToDims` | C_FABBER/fabber_core/noisemodel_ar.cc:160-167 | the marginal slots keep the size they were resized to |
| `Ar1cCache.UpdateBuildsOnce` | C_FABBER/fabber_core/noisemodel_ar.cc:57-60 | after an update the base table is the built family; a table already built is left as it was |
| `Ar1cCache.UpdateIdempotent` | C_FABBER/fabber_core/noisemodel_ar.cc:53-194 | updating twice with the same moments gives the same cache as updating once |
| `Ar1cCache.BuildBase` | C_FABBER/fabber_core/noisemodel_ar.cc:74-150 | the resize, zero, switch, echo-2 remap and stepping loop produce BaseMatrix |
| `Ar1cCache.PartialStep` | C_FABBER/fabber_core/noisemodel_ar.cc:63-77 | one pass of the innermost build loop fills exactly its own slot |
| `Ar1cCache.PartialRowDone` | C_FABBER/fabber_core/noisemodel_ar.cc:67-70 | the a34pow loop ends, or breaks early with fewer than 3 alphas, without touching other slots |
| `Ar1cCache.PartialAtEnd` | C_FABBER/fabber_core/noisemodel_ar.cc:63-154 | once every echo has been visited the table is the built family |
| `Ar1cCache.BuildTable` | C_FABBER/fabber_core/noisemodel_ar.cc:57-154 | the triple build loop produces BuiltMatrices |
| `Ar1cCache.MatrixCache.constructor` | C_FABBER/fabber_core/noisemodel_ar.cc:34-37 | a new cache is empty: no base matrices and no marginals |
| `Ar1cCache.MatrixCache.Copy` | C_FABBER/fabber_core/noisemodel_ar.cc:39-44 | the copy has the same matrices, marginals and echo count |
| `Ar1cCache.MatrixCache.Update` | C_FABBER/fabber_core/noisemodel_ar.cc:53-194 | the new cache state is UpdateSpec of the old one: base table built once, marginals recomputed from the alpha moments |
| `Ar1cCache.RefreshMarginals` | C_FABBER/fabber_core/noisemodel_ar.cc:171-192 | the loop over echoes 1..nPhis leaves every echo's marginal equal to `Marginal` of the current alpha moments; slots for echoes beyond nPhis are kept |
| `Ar1cCache.MatrixCache.GetMatrix` | C_FABBER/fabber_core/noisemodel_ar.cc:196-202 | the matrix at FlattenIndex(n, a12pow, a34pow) is that base matrix, or empty when it was never built |
| `Ar1cCache.MatrixCache.GetMarginal` | C_FABBER/fabber_core/noisemodel_ar.cc:204-215 | succeeds exactly when at least n marginals exist, returning marginal n; otherwise the internal error naming n and the count |
| `Ar1cNoise.NumAlphas` | C_FABBER/fabber_core/noisemodel_ar.cc:332-342 | the alpha count is 2..4 on success; any failure is an internal error |
| `Ar1cNoise.NumAlphasModes` | C_FABBER/fabber_core/noisemodel_ar.cc:332-342 | exactly "none", "same" and "dual" are accepted, and they map to 2, 3 and 4 one-to-one |
| `Ar1cNoise.ConfigCheckAccepts` | C_FABBER/fabber_core/noisemodel_ar.cc:288-321 | a configuration passes exactly when the mode is known, there are 1 or 2 echoes, and cross terms come only with 2 echoes |
| `Ar1cNoise.ConfigCheckErrors` | C_FABBER/fabber_core/noisemodel_ar.cc:302-320 | an unknown mode fails with NumAlphas's error; 1 echo with cross terms fails on ar1-cross-terms; any other echo count fails on num-echoes with that count |
| `Ar1cNoise.Ar1cParams.constructor` | C_FABBER/fabber_core/noisemodel_ar.cc:217-223 | new parameters have nAlpha means, nPhi phis and an empty cache for nPhi echoes |
| `Ar1cNoise.Ar1cParams.Copy` | C_FABBER/fabber_core/noisemodel_ar.cc:225-231 | the copy has the same alpha distribution, phis and cache contents, in a cache of its own |
| `Ar1cNoise.ScaledIdentityEntry` | C_FABBER/fabber_core/noisemodel_ar.cc:358-359 | the initial alpha precision is s on the diagonal and 0 elsewhere |
| `Ar1cNoise.OwnPartCell` | C_FABBER/fabber_core/noisemodel_ar.cc:448-449 | the echo loop adds echo n's term to diagonal cell (n, n) only |
| `Ar1cNoise.CrossPartCell` | C_FABBER/fabber_core/noisemodel_ar.cc:451-460 | the cross-term block adds to (3,1), (T,2), (3,3) and (T,T) only, with T = nAlphas, and both terms when two cells coincide |
| `Ar1cNoise.CrossPartDiagonal` | C_FABBER/fabber_core/noisemodel_ar.cc:451-460 | with a shared coefficient (T = 3) cell (3,3) gets both echoes' K(n,0,2) terms; with T = 4 echo 1's goes to (3,3) and echo 2's to (4,4); (3,1) always gets echo 1's K(1,1,1)/2 and (T,2) echo 2's |
| `Ar1cNoise.PosteriorPrecisionAccumulates` | C_FABBER/fabber_core/noisemodel_ar.cc:443-461 | the new alpha precision is the prior one plus the echo and cross-term increments on their cells |
| `Ar1cNoise.AccumulatedUntouched` | C_FABBER/fabber_core/noisemodel_ar.cc:443-461 | every cell outside the touched set keeps its prior value |
| `Ar1cNoise.AccumulatePrecision` | C_FABBER/fabber_core/noisemodel_ar.cc:443-461 | the accumulation loop produces PosteriorPrecision, which adds exactly the increments to the prior |
| `Ar1cNoise.CrossRhsEntries` | C_FABBER/fabber_core/noisemodel_ar.cc:482-486 | each entry gets exactly its cross increment: -s_1 K(1,0,1)/2 on entry 3 and -s_2 K(2,0,1)/2 on entry T; with T = 3 entry 3 gets both |
| `Ar1cNoise.OwnRhsEntry` | C_FABBER/fabber_core/noisemodel_ar.cc:479-480 | the echo loop adds -0.5 s_n c_n K(n,1,0) to entry n only |
| `Ar1cNoise.MeanRhsEntry` | C_FABBER/fabber_core/noisemodel_ar.cc:477-486 | each right-hand-side entry is the prior precision times the prior mean plus its echo and cross increments |
| `Ar1cNoise.MeanRhsUntouched` | C_FABBER/fabber_core/noisemodel_ar.cc:477-486 | entries that are neither an echo nor 3 or T keep the prior product |
| `Ar1cNoise.AccumulateRhs` | C_FABBER/fabber_core/noisemodel_ar.cc:477-486 | the right-hand-side loop produces the echo increments followed by the cross increments |
| `Ar1cNoise.PosteriorMean` | C_FABBER/fabber_core/noisemodel_ar.cc:467-487 | there is no new mean exactly when the covariance has a negative variance; otherwise it has one entry per alpha |
| `Ar1cNoise.PhiUpdateShape` | C_FABBER/fabber_core/noisemodel_ar.cc:521-529 | a successful phi update has positive scale and shape (nTimes - 1)/2 + prior c whatever the residual; it succeeds exactly when 0.5 tmp + 1/prior b is positive |
| `Ar1cNoise.PresetPhiShapes` | C_FABBER/fabber_core/noisemodel_ar.cc:746-749 | each echo's shape becomes prior c + (nTimes - 1)/2 and its scale is kept |
| `Ar1cNoise.PresetShapeStable` | C_FABBER/fabber_core/noisemodel_ar.cc:524-529 | the shape set by Precalculate is the one every later phi update computes, so the first update leaves c unchanged |
| `Ar1cNoise.Ar1cNoiseModel.Initialize` | C_FABBER/fabber_core/noisemodel_ar.cc:288-321 | the echo count defaults to 1 and the mode to "none"; the outcome is ConfigCheck of the two |
| `Ar1cNoise.Ar1cNoiseModel.HardcodedInitialDists` | C_FABBER/fabber_core/noisemodel_ar.cc:344-368 | both alpha means are 0 with precision 1e-4 I; prior phis are (1e6, 1e-6) and posterior phis (1e-8, 1e-6) |
| `Ar1cNoise.Ar1cNoiseModel.Precalculate` | C_FABBER/fabber_core/noisemodel_ar.cc:730-750 | the cache is updated from the posterior alpha with nTimes = data / nPhis, and the phi shapes are preset; the alpha distribution is kept |
| `Ar1cNoise.Ar1cNoiseModel.UpdateAlpha` | C_FABBER/fabber_core/noisemodel_ar.cc:422-503 | the precision is always stored; a negative variance is an internal error that leaves means and cache unchanged; otherwise the means become covariance times the right-hand side and the cache is refreshed from them |
| `Ar1cNoise.Ar1cNoiseModel.UpdatePhi` | C_FABBER/fabber_core/noisemodel_ar.cc:505-531 | passes exactly when every echo has a marginal and a positive new scale; then phi i is PhiUpdate of prior phi i with marginal i; the alpha distribution is kept |
| `Ar1cNoise.AlphaUpdate` | C_FABBER/fabber_core/noisemodel_ar.cc:437-488 | the new precision keeps the prior's order; the means are missing exactly when the covariance has a negative variance |
| `Ar1cNoise.AlphaPosterior` | C_FABBER/fabber_core/noisemodel_ar.cc:437-488 | the step-by-step accumulation computes AlphaUpdate |
| `Ar1cNoise.PhiUpdatesUpTo` | C_FABBER/fabber_core/noisemodel_ar.cc:516-530 | a successful run over the echoes keeps one phi per echo |
| `Ar1cNoise.PhiUpdatesStayFailed` | C_FABBER/fabber_core/noisemodel_ar.cc:516-530 | once an echo fails, the run over all echoes fails |
| `Ar1cNoise.PhiUpdatesUpToMeaning` | C_FABBER/fabber_core/noisemodel_ar.cc:516-530 | updating echoes 1..n succeeds exactly when each has a marginal and a defined update; echo k then holds its own update and later echoes are unchanged |
| `Ar1cNoise.UpdatedPhis` | C_FABBER/fabber_core/noisemodel_ar.cc:516-530 | the echo loop with GetMarginal's error path computes PhiUpdatesUpTo; every failure is an internal error |
| `Ar1cNoise.RegularizedIdempotent` | C_FABBER/fabber_core/noisemodel_ar.cc:583-589 | after the fix no diagonal entry is zero, so applying the fix again changes nothing |
| `Ar1cNoise.FixSingularDiagonal` | C_FABBER/fabber_core/noisemodel_ar.cc:583-589 | the loop replaces exactly the zero diagonal entries by 1e-20, and wasSingular holds exactly when one was zero |
| `Ar1cNoise.CheckPhiCovariance` | C_FABBER/fabber_core/noisemodel_ar.cc:278-285 | passes exactly when every pair of distinct phis has zero covariance; otherwise the run-data error |
| `PhenomLayout.NumParams` | C_FABBER/fabber_models_qbold/fwdmodel_phenom.h:31-34 | at most 12 parameters, none exactly when no flag is set, at least 9 with the coefficients |
| `PhenomLayout.OEFIndex` | C_FABBER/fabber_models_qbold/fwdmodel_phenom.h:56-59 | OEF's index is at most NumParams; when inferred it is at least 1, and 10 with the coefficients |
| `PhenomLayout.DBVIndex` | C_FABBER/fabber_models_qbold/fwdmodel_phenom.h:60-63 | OEF_index <= DBV_index <= NumParams, strictly above OEF_index when DBV is inferred |
| `PhenomLayout.S0Index` | C_FABBER/fabber_models_qbold/fwdmodel_phenom.h:64-67 | DBV_index <= S0_index, strictly when S0 is inferred, and S0_index always equals NumParams |
| `PhenomLayout.IndexOf` | C_FABBER/fabber_models_qbold/fwdmodel_phenom.h:56-67 | an inferred parameter's index is in 1..NumParams, and it is at most 9 exactly for the coefficients |
| `PhenomLayout.LayoutBijection` | C_FABBER/fabber_models_qbold/fwdmodel_phenom.h:56-67 | the indices of the inferred parameters are exactly 1..NumParams, one each |
| `PhenomLayout.IndicesDistinct` | C_FABBER/fabber_models_qbold/fwdmodel_phenom.h:56-67 | two different inferred parameters have different indices |
| `PhenomLayout.ParamNamesDistinct` | C_FABBER/fabber_models_qbold/fwdmodel_phenom.cc:178-201 | different parameters are reported under different names |
| `PhenomLayout.ArrangeByParam` | C_FABBER/fabber_models_qbold/fwdmodel_phenom.cc:178-201 | the flag-by-flag list has NumParams entries, and each inferred parameter's entry is at its index |
| `PhenomLayout.ArrangeByPosition` | C_FABBER/fabber_models_qbold/fwdmodel_phenom.cc:178-201 | entry i of the flag-by-flag list belongs to the parameter at index i + 1 |
| `PhenomLayout.ByParamIsArrange` | C_FABBER/fabber_models_qbold/fwdmodel_phenom.cc:216-270 | a vector holding each inferred parameter's value at its index is the flag-by-flag list |
| `PhenomModel.GridPointClosedForm` | C_FABBER/fabber_models_qbold/fwdmodel_phenom.cc:101-110 | the k-th tau is tau_start + k tau_step |
| `PhenomModel.TauGridUnique` | C_FABBER/fabber_models_qbold/fwdmodel_phenom.cc:101-110 | the tau grid is determined by start, step and limit |
| `PhenomModel.TauListUnique` | C_FABBER/fabber_models_qbold/fwdmodel_phenom.cc:80-90 | the taus read one by one are determined by the options |
| `PhenomModel.TauGrid` | C_FABBER/fabber_models_qbold/fwdmodel_phenom.cc:101-110 | the generated taus are tau_start, tau_start + step, ..., each at most tau_end + 0.0001, and the next one would exceed it |
| `PhenomModel.ReadTauList` | C_FABBER/fabber_models_qbold/fwdmodel_phenom.cc:77-91 | the taus read are options tau1, tau2, ... in order, up to the first one missing |
| `PhenomModel.InitialPriorByParam` | C_FABBER/fabber_models_qbold/fwdmodel_phenom.cc:214-270 | the prior has one mean and one precision per parameter, and each inferred parameter gets its table constants at its index |
| `PhenomModel.InitialPrecisionsPositive` | C_FABBER/fabber_models_qbold/fwdmodel_phenom.cc:214-270 | every prior precision on the diagonal is positive |
| `PhenomModel.CoefPriors` | C_FABBER/fabber_models_qbold/fwdmodel_phenom.cc:216-254 | the first nine means and precisions become the coefficient table; the rest are kept |
| `PhenomModel.PriorTable` | C_FABBER/fabber_models_qbold/fwdmodel_phenom.cc:211-270 | the assignments produce InitialMeans and InitialPrecisions |
| `PhenomModel.Diagonal` | C_FABBER/fabber_models_qbold/fwdmodel_phenom.cc:214 | the precision matrix is symmetric with the given diagonal and zeros elsewhere |
| `PhenomModel.PhenomFwdModel.Initialize` | C_FABBER/fabber_models_qbold/fwdmodel_phenom.cc:50-167 | the flags are the options; doard holds exactly when requested and the coefficients are inferred; TE, fixed OEF and DBV take their defaults; the taus are read |
| `PhenomModel.PhenomFwdModel.ReadFlags` | C_FABBER/fabber_models_qbold/fwdmodel_phenom.cc:53-66 | the four inference flags are the options, and ARD is forced off without the coefficients |
| `PhenomModel.PhenomFwdModel.ReadTaus` | C_FABBER/fabber_models_qbold/fwdmodel_phenom.cc:68-113 | without tau_start the taus come from the tau<n> options; with it they are the grid up to tau_end |
| `PhenomModel.PhenomFwdModel.NameParams` | C_FABBER/fabber_models_qbold/fwdmodel_phenom.cc:174-203 | the list has NumParams names, and the name at each inferred parameter's index is that parameter's name |
| `PhenomModel.PhenomFwdModel.HardcodedInitialDists` | C_FABBER/fabber_models_qbold/fwdmodel_phenom.cc:208-302 | the prior gets the table means and the diagonal precisions, and the posterior is set equal to the prior |
| `PhenomModel.PhenomFwdModel.Extract` | C_FABBER/fabber_models_qbold/fwdmodel_phenom.cc:339-388 | inferred coefficients are absolute values (non-negative); inferred OEF, DBV and S0 are read at their indices; the rest are the fixed values, with S0 = 1 |
| `PhenomModel.PhenomFwdModel.Evaluate` | C_FABBER/fabber_models_qbold/fwdmodel_phenom.cc:307-417 | one result per tau, each the signal of the extracted values at that tau |
| `PhenomModel.PhenomFwdModel.SetupARD` | C_FABBER/fabber_models_qbold/fwdmodel_phenom.cc:422-451 | with ARD, means 1..9 become 0 and precisions (ii,ii) 1e-12, and every other entry is kept; without ARD nothing changes |
| `PhenomModel.PhenomFwdModel.UpdateARD` | C_FABBER/fabber_models_qbold/fwdmodel_phenom.cc:456-481 | with ARD, prior variance (ii,ii) for ii = 1..9 becomes the posterior mean squared plus the posterior variance, and every other entry is kept; without ARD nothing changes |
| `TurboQuasarNames.ListBlock` | C_FABBER/fabber_models_asl/fwdmodel_asl_turboquasar.cc:313-387 | appending the next flag block keeps the list the ordered set of inferred names ranked so far |
| `TurboQuasarNames.TissueBlock` | C_FABBER/fabber_models_asl/fwdmodel_asl_turboquasar.cc:317-322 | ftiss and delttiss are listed exactly with infertiss |
| `TurboQuasarNames.TissueBolusBlock` | C_FABBER/fabber_models_asl/fwdmodel_asl_turboquasar.cc:323-326 | tautiss is listed exactly with infertau and infertiss |
| `TurboQuasarNames.ArterialBlock` | C_FABBER/fabber_models_asl/fwdmodel_asl_turboquasar.cc:327-331 | fblood and deltblood are listed exactly with inferart |
| `TurboQuasarNames.T1Block` | C_FABBER/fabber_models_asl/fwdmodel_asl_turboquasar.cc:332-336 | T_1 and T_1b are listed exactly with infert1 |
| `TurboQuasarNames.ArterialBolusBlock` | C_FABBER/fabber_models_asl/fwdmodel_asl_turboquasar.cc:337-340 | taublood is listed exactly with infertaub |
| `TurboQuasarNames.WhiteMatterBlock` | C_FABBER/fabber_models_asl/fwdmodel_asl_turboquasar.cc:345-348 | fwm and deltwm are listed exactly with inferwm |
| `TurboQuasarNames.WhiteMatterBolusBlock` | C_FABBER/fabber_models_asl/fwdmodel_asl_turboquasar.cc:350-351 | tauwm is listed exactly with inferwm and infertau |
| `TurboQuasarNames.WhiteMatterT1Block` | C_FABBER/fabber_models_asl/fwdmodel_asl_turboquasar.cc:352-353 | T_1wm is listed exactly with inferwm and infert1 |
| `TurboQuasarNames.PartialVolumeBlock` | C_FABBER/fabber_models_asl/fwdmodel_asl_turboquasar.cc:355-359 | p_gm and p_wm are listed exactly with inferwm and usepve |
| `TurboQuasarNames.DispersionBlock` | C_FABBER/fabber_models_asl/fwdmodel_asl_turboquasar.cc:361-362 | sp_log and s_log are always listed |
| `TurboQuasarNames.CrushBlock` | C_FABBER/fabber_models_asl/fwdmodel_asl_turboquasar.cc:364-381 | with inferart, thblood, phiblood and bvblood are listed under artdir and fbloodc1..4 otherwise |
| `TurboQuasarNames.GainBlock` | C_FABBER/fabber_models_asl/fwdmodel_asl_turboquasar.cc:383-386 | g is listed exactly with calibon |
| `TurboQuasarNames.ListDone` | C_FABBER/fabber_models_asl/fwdmodel_asl_turboquasar.cc:313-387 | after the last block the list holds exactly the inferred names, in order |
| `TurboQuasarNames.IncreasingUnique` | C_FABBER/fabber_models_asl/fwdmodel_asl_turboquasar.cc:313-387 | two ordered lists with the same names are equal, so the name list is determined by the flags |
| `TurboQuasarNames.SameHead` | C_FABBER/fabber_models_asl/fwdmodel_asl_turboquasar.cc:313-387 | two ordered lists with the same names start with the same name |
| `TurboQuasarNames.TailMember` | C_FABBER/fabber_models_asl/fwdmodel_asl_turboquasar.cc:313-387 | two such lists also agree on the names after the first |
| `TurboQuasarNames.ParamNamesDistinct` | C_FABBER/fabber_models_asl/fwdmodel_asl_turboquasar.cc:313-387 | no name is listed twice |
| `TurboQuasarNames.DispersionNamesPlaced` | C_FABBER/fabber_models_asl/fwdmodel_asl_turboquasar.cc:313-362 | sp_log and s_log are always present, next to each other, after exactly the tissue, arterial, T1, taub and white-matter names; only crush names and g follow them |
| `TurboQuasarNames.GainLast` | C_FABBER/fabber_models_asl/fwdmodel_asl_turboquasar.cc:383-386 | g is present exactly with calibon, and then it is last |
| `TurboQuasarNames.CrushNames` | C_FABBER/fabber_models_asl/fwdmodel_asl_turboquasar.cc:364-381 | no crush names without inferart; with it the 3 direction names under artdir, else the 4 crushed fractions |
| `TurboQuasarNames.PartialVolumeNames` | C_FABBER/fabber_models_asl/fwdmodel_asl_turboquasar.cc:345-360 | p_gm and p_wm are present exactly with inferwm and usepve |
| `TurboQuasarModel.MaxOf` | C_FABBER/fabber_models_asl/fwdmodel_asl_turboquasar.cc:204 | timax is one of the TIs and no TI exceeds it |
| `TurboQuasarModel.ScanNonFinite` | C_FABBER/fabber_models_asl/fwdmodel_asl_turboquasar.cc:998-1031 | the curve is unchanged when no entry is NaN or infinite and all zero otherwise, so afterwards every entry is finite |
| `TurboQuasarModel.EncodeDecode` | C_FABBER/fabber_models_asl/fwdmodel_asl_turboquasar.cc:1070-1078 | the place p nti repeats + (it - 1) repeats + rpt of (phase, TI, repeat) lies in 1..length and decodes back to it |
| `TurboQuasarModel.DecodeEncode` | C_FABBER/fabber_models_asl/fwdmodel_asl_turboquasar.cc:1034-1078 | every place 1..nti repeats nphases is the place of exactly one (phase, TI, repeat) |
| `TurboQuasarModel.ResultAtIndex` | C_FABBER/fabber_models_asl/fwdmodel_asl_turboquasar.cc:1070-1120 | the result at the place of (phase, TI, repeat) is that phase's sample at that TI |
| `TurboQuasarModel.NonCrushedPhases` | C_FABBER/fabber_models_asl/fwdmodel_asl_turboquasar.cc:1080-1118 | single-phase data and the two non-crushed phases (the third and the sixth) use the plain fblood |
| `TurboQuasarModel.ColumnSamples` | C_FABBER/fabber_models_asl/fwdmodel_asl_turboquasar.cc:1080-1118 | the three branches give one sample per phase, each the phase's Sample |
| `TurboQuasarModel.WriteSamples` | C_FABBER/fabber_models_asl/fwdmodel_asl_turboquasar.cc:1080-1118 | for one (TI, repeat) each phase's sample is written at its place and nothing else changes |
| `TurboQuasarModel.WriteColumn` | C_FABBER/fabber_models_asl/fwdmodel_asl_turboquasar.cc:1080-1118 | the places congruent to tiref modulo nti repeats receive the phase values; the rest are kept |
| `TurboQuasarModel.WriteSixPhases` | C_FABBER/fabber_models_asl/fwdmodel_asl_turboquasar.cc:1085-1118 | the six assignments write the six phase places and nothing else |
| `TurboQuasarModel.SixPhaseColumn` | C_FABBER/fabber_models_asl/fwdmodel_asl_turboquasar.cc:1085-1118 | writing the six phase places is writing every place congruent to tiref |
| `TurboQuasarModel.WriteRepeats` | C_FABBER/fabber_models_asl/fwdmodel_asl_turboquasar.cc:1074-1119 | after the repeat loop for TI it, every place of TIs up to it holds its result |
| `TurboQuasarModel.PushBlock` | C_FABBER/fabber_models_asl/fwdmodel_asl_turboquasar.cc:317-386 | pushing one flag block keeps the list the ordered inferred names ranked so far, and adds the block's length |
| `TurboQuasarModel.ListParams` | C_FABBER/fabber_models_asl/fwdmodel_asl_turboquasar.cc:313-387 | the list holds exactly the inferred names, each once, in order, and has NumParams entries |
| `TurboQuasarModel.ListTissueParams` | C_FABBER/fabber_models_asl/fwdmodel_asl_turboquasar.cc:315-326 | the list starts empty and gets the tissue names |
| `TurboQuasarModel.ListArterialParams` | C_FABBER/fabber_models_asl/fwdmodel_asl_turboquasar.cc:327-340 | then the arterial, T1 and arterial bolus names |
| `TurboQuasarModel.ListWhiteMatterParams` | C_FABBER/fabber_models_asl/fwdmodel_asl_turboquasar.cc:345-360 | then the white-matter names, all under inferwm |
| `TurboQuasarModel.ListSignalParams` | C_FABBER/fabber_models_asl/fwdmodel_asl_turboquasar.cc:361-386 | then sp_log, s_log, the crush names and g |
| `TurboQuasarModel.ArdSelection` | C_FABBER/fabber_models_asl/fwdmodel_asl_turboquasar.cc:1131-1136 | the appended indices are tiss_index, art_index and wm_index, each exactly when its ARD flag is set, and nothing else |
| `TurboQuasarModel.ResetArdPriors` | C_FABBER/fabber_models_asl/fwdmodel_asl_turboquasar.cc:1140-1161 | every listed parameter gets mean 0 and precision 1e-12; all other entries are kept |
| `TurboQuasarModel.TurboQuasarFwdModel.constructor` | C_FABBER/fabber_models_asl/fwdmodel_asl_turboquasar.cc:204 | timax is the largest TI and the ARD list starts empty |
| `TurboQuasarModel.TurboQuasarFwdModel.ReadInferenceOptions` | C_FABBER/fabber_models_asl/fwdmodel_asl_turboquasar.cc:113-116 | infertau, infert1, inferart and inferwm are the options |
| `TurboQuasarModel.TurboQuasarFwdModel.ReadAcquisitionOptions` | C_FABBER/fabber_models_asl/fwdmodel_asl_turboquasar.cc:129-149 | usepve, artdir, calibon (from usecalib) and onephase are the options |
| `TurboQuasarModel.TurboQuasarFwdModel.DeriveFlags` | C_FABBER/fabber_models_asl/fwdmodel_asl_turboquasar.cc:136-171 | infertaub = inferart and infertau and not tauboff; infertiss = not tissoff; tissard = tissardon, artard = not artardoff, wmard = not wmardoff; doard = (tissard or artard or wmard) and not ardoff |
| `TurboQuasarModel.TurboQuasarFwdModel.Initialize` | C_FABBER/fabber_models_asl/fwdmodel_asl_turboquasar.cc:113-171 | all flags as above, so ardoff rules out ARD and infertaub needs inferart and infertau |
| `TurboQuasarModel.TurboQuasarFwdModel.NameParams` | C_FABBER/fabber_models_asl/fwdmodel_asl_turboquasar.cc:313-387 | the names are exactly the inferred parameters, each once, in the reported order, NumParams of them |
| `TurboQuasarModel.TurboQuasarFwdModel.ClampParams` | C_FABBER/fabber_models_asl/fwdmodel_asl_turboquasar.cc:610-637 | negative parameters become 0; a tissue or arterial delay whose original value exceeds timax - 0.2 becomes timax - 0.2; nothing grows, and with timax >= 0.2 every value is in range |
| `TurboQuasarModel.TurboQuasarFwdModel.AssembleResult` | C_FABBER/fabber_models_asl/fwdmodel_asl_turboquasar.cc:1034-1120 | the result has nti repeats nphases entries (nphases 6, or 1 with onephase), and each holds the sample of the (phase, TI, repeat) it decodes to |
| `TurboQuasarModel.TurboQuasarFwdModel.SetupARD` | C_FABBER/fabber_models_asl/fwdmodel_asl_turboquasar.cc:1126-1164 | with ARD the selection is appended to the list and every listed parameter gets mean 0 and precision 1e-12, other entries kept; without ARD nothing changes |
| `TurboQuasarModel.TurboQuasarFwdModel.UpdateARD` | C_FABBER/fabber_models_asl/fwdmodel_asl_turboquasar.cc:1166-1196 | whatever doard is, every listed parameter's prior variance becomes the posterior mean squared plus the posterior variance; means and other entries are kept |

## Left out

- Linear algebra and special functions are not modelled. They enter as
  function parameters or are omitted:
  - the matrix inverse behind `GetCovariance`/`GetPrecisions` (`invert`);
  - the quadratic-form-plus-trace evaluator `OperatorKLJ` (`op`);
  - the quadratic form of `UpdatePhi` (`quad`);
  - the qBOLD signal `S0 exp(-DBV F)` (`signal`).
  `CalcFreeEnergy`, every `Fard` accumulation, `LogDeterminant`, and the
  theta update of `UpdateTheta` beyond its singular-diagonal fix are left
  out.
- Doubles are modelled as `real`.
  - The non-finite check on the alpha precisions in `UpdateAlpha` cannot
    fire on reals, so it is not modelled.
  - The kinetic curves are scanned as `Double` values, which can be NaN or
    infinite. They enter `AssembleResult` as reals after the scan.
  - TURBO-QUASAR's use of `float` for the extracted parameters is not
    modelled.
- LOG and WARN output, `Dump`, `operator<<`, `OutputAsMVN`, `Clone`,
  `NewParams`, the factory and description functions, and the
  `dynamic_cast` between parameter types are not modelled.
- The option reading is not modelled: `args.Read*`, `convertTo`, and the
  string forms of the options.
  - Options arrive as already-parsed values (`PhenomArgs`, `TqArgs`, a map
    for the `tau<n>` options).
  - TURBO-QUASAR's other options are not modelled: the TI and bolus read
    loops, repeats, slice timing, the crush directions and the priors of
    `HardcodedInitialDists`.
  - Its constructor takes the TIs and repeats directly.
- fwdmodel_asl_turboquasar.h is not part of this model. The positions
  `tiss_index()`, `art_index()` and `wm_index()` it defines are passed in
  as `TqIndices`.
- TURBO-QUASAR's kinetic curves, T1app, and the `Sinc` arterial weights of
  the crushed images are inputs (`Compartments`, `kct`, `kcb`, `kcw`). The
  model covers only how they are combined into the result.
- The source scans only `kctissue` and `kcblood` for NaN, not `kcwm`.
  `ScanNonFinite` models one scan, and the white-matter curve enters
  unscanned, as in the source.
- `TurboQuasarModel.TurboQuasarFwdModel.ClampParams` loops over the
  parameter vector it is given. The source loops to `NumParams()`, which
  equals the vector's length in every call from the library.
- `PhenomModel.TauGrid` requires `tau_step > 0` whenever the loop runs
  (`tau_start <= tau_end + 0.0001`). With a step of zero or less the
  source loop never ends.
- `Ar1cNoise.Ar1cNoiseModel.UpdatePhi`: the source's `assert` that the
  new scale is positive is modelled as an internal-error outcome.
  Compiled without asserts, the source would store the non-positive scale
  and continue. On a failure the contract states only how many phis there
  are, not which echoes were already updated.
- `Ar1cCache.MatrixCache.Update`: the source's assertions are
  preconditions:
  - a cache, once built, is always updated with the same number of alphas
    and samples;
  - the alpha count is 2, 3 or 4;
  - the covariance is square and symmetric.
  The second moment `Cov + m m'` is computed entry by entry from the
  covariance it is given. The callers `Precalculate` and `UpdateAlpha`
  therefore require the inverse they are given to return a symmetric
  matrix, as the inverse of a symmetric precision is.
- `Ar1cNoise.CheckPhiCovariance` models only the zero-covariance check of
  `Ar1cParams::InputFromMVN`. That function also copies the alpha block of
  the distribution and sets each phi from its mean and variance before the
  check. Those copies are not modelled, so the model does not say which
  phis were already set when the check throws.
