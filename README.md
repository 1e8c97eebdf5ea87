# Nelder-Mead optimisation engine

This project models the `NelderMead` engine of aiida-optimize. The engine
runs the Nelder-Mead simplex method, but it does not evaluate the cost
function itself. It alternates between two kinds of step:

- a *submit half* hands out the points to evaluate;
- an *update half* receives their costs.

Two fields, `next_submit` and `next_update`, record which half is due. The
driver calls `_create_inputs` and `_update` alternately until `is_finished`
holds. It then reads the best evaluation from the result mapping.

The model has three layers:

- **Pure geometry and decision rules** (`Vectors`, `Sorting`, `Simplex`,
  `Results`):
  - the centroid `xbar` of all vertices but the worst;
  - the reflection, expansion and the two contraction points;
  - the shrink;
  - the argsort-based `do_sort`;
  - the convergence test of `check_finished`;
  - the four-way choice of `choose_step`;
  - the minimum lookup `_get_optimal_result`.
- **The engine's state as a value** (`Steps`), with one step function per
  phase, and what holds of that state between any two calls (`Invariant`).
  Every phase keeps the invariant. The lemmas in `Outcomes` state what each
  phase may touch and what it hands out.
- **The engine as an object** (`Engine.NelderMead`). The simplex and its
  cost vector are arrays updated in place. Each method is tied to its step
  function through the ghost `Snapshot()`, so it inherits every property
  proved of that function.

The invariant's central clause, `BestKept`, says that no stored cost is below
the least cost consumed so far, and that this least cost is held by a vertex.
While an expansion is pending, the cached reflected point holds it instead.
From this, `FinishedResultIsBest` shows that once the run has finished, and
for a result mapping that records exactly the evaluations consumed, the
assertion in `result_value` cannot fail: the best vertex's cost is the cost
of the entry that `min` picks.

## Model

| member | source | states |
|---|---|---|
| Simplex.ShapeAssertAdmitsPoint | aiida_optimize/engines/_nelder_mead.py:70-71 | the constructor's shape assertion accepts one vertex with zero coordinates, on which the convergence test has no distance to take the maximum of (see Findings) |
| Simplex.WellShapedHasDistances | aiida_optimize/engines/_nelder_mead.py:70-71 | the corrected shape condition is exactly the asserted one plus at least one coordinate, and it guarantees at least one distance for the convergence test |
| Engine.NelderMead.constructor | aiida_optimize/engines/_nelder_mead.py:53-94 | a fresh engine holds the given vertices with no costs known, names `submit_initialize`, is not finished, and satisfies the invariant |
| Steps.Initial | aiida_optimize/engines/_nelder_mead.py:53-94 | the initial state has n+1 vertices of n >= 1 coordinates and one empty cost slot per vertex |
| Steps.EnterSubmit | aiida_optimize/engines/_nelder_mead.py:39-45 | the `submit_method` decoration: no submit half is due, the declared update half is, and nothing else changes |
| Steps.EnterUpdate | aiida_optimize/engines/_nelder_mead.py:31-37 | the `update_method` decoration: the declared submit half is due, no update half is, the consumed costs are appended to the history, and nothing else changes |
| Vectors.SqDist | aiida_optimize/engines/_nelder_mead.py:146-149 | squared Euclidean distance, never negative |
| Vectors.NormBelow | aiida_optimize/engines/_nelder_mead.py:147-149 | a distance is below the tolerance exactly when the tolerance is positive and the squared distance is below its square, so the test needs no square root |
| Vectors.Mean | aiida_optimize/engines/_nelder_mead.py:137-139 | the column-wise mean has one entry per coordinate |
| Vectors.MeanWithinBounds | aiida_optimize/engines/_nelder_mead.py:137-139 | each coordinate of a mean lies between the least and the greatest value that coordinate takes over the averaged rows |
| Vectors.ScaledSqDist | aiida_optimize/engines/_nelder_mead.py:219-221 | scaling a difference by t scales its squared length by t*t |
| Vectors.TowardSqDist | aiida_optimize/engines/_nelder_mead.py:219-221 | moving a point a fraction t of the way from a base point scales its squared distance to the base by t*t |
| Simplex.Centroid | aiida_optimize/engines/_nelder_mead.py:137-139 | the mean of all vertices but the worst has one entry per coordinate |
| Simplex.CentroidWithinBounds | aiida_optimize/engines/_nelder_mead.py:137-139 | each coordinate of `xbar` lies within the range it spans over the non-worst vertices |
| Simplex.TrialPointsOnLine | aiida_optimize/engines/_nelder_mead.py:26-29 | with the coefficients RHO=1, CHI=2, PSI=0.5, the reflection, expansion, outside and inside contraction lie on the line from the worst vertex through `xbar`, at parameters 1, 2, 1/2 and -1/2 |
| Simplex.Reflection | aiida_optimize/engines/_nelder_mead.py:129 | the reflected point `2*xbar - worst` has one entry per coordinate; `TrialPointsOnLine` puts it one step beyond `xbar` on the line from the worst vertex |
| Simplex.Expansion | aiida_optimize/engines/_nelder_mead.py:174-177 | the expanded point `3*xbar - 2*worst` has one entry per coordinate; `TrialPointsOnLine` puts it two steps beyond `xbar` |
| Simplex.OutsideContraction | aiida_optimize/engines/_nelder_mead.py:188-191 | the outside contraction `1.5*xbar - 0.5*worst` has one entry per coordinate; `TrialPointsOnLine` puts it half a step beyond `xbar` |
| Simplex.InsideContraction | aiida_optimize/engines/_nelder_mead.py:203-206 | the inside contraction `0.5*xbar + 0.5*worst` has one entry per coordinate; `TrialPointsOnLine` puts it half-way from `xbar` back to the worst vertex |
| Simplex.SqDistsToBest | aiida_optimize/engines/_nelder_mead.py:147-149 | one entry per non-best vertex: its squared distance to the best vertex |
| Simplex.SpreadsToBest | aiida_optimize/engines/_nelder_mead.py:150-151 | one entry per non-best vertex: the absolute difference of its cost to the best cost |
| Simplex.Converged | aiida_optimize/engines/_nelder_mead.py:146-152 | the convergence test: the largest distance to the best vertex is below xtol and the largest cost difference to the best cost is below ftol; it never passes unless both tolerances are positive (per-vertex form in `ConvergedIff`) |
| Simplex.ConvergedIff | aiida_optimize/engines/_nelder_mead.py:146-152 | the convergence test passes exactly when every non-best vertex is within xtol of the best vertex and its cost is within ftol of the best cost |
| Simplex.Shrunk | aiida_optimize/engines/_nelder_mead.py:219-221 | the shrunk simplex has as many vertices as the original, all of the same width |
| Simplex.ShrinkQuartersDistances | aiida_optimize/engines/_nelder_mead.py:219-221 | a shrink keeps the best vertex and divides every other vertex's squared distance to it by four |
| Simplex.Classify | aiida_optimize/engines/_nelder_mead.py:158-168 | the four-way choice of `choose_step`: a contraction is tried exactly when the reflected cost beats neither the best nor the second-worst cost, and the inside one only when it does not beat the worst either (by rank on sorted costs in `ClassifyByRank`) |
| Simplex.ClassifyByRank | aiida_optimize/engines/_nelder_mead.py:158-168 | on sorted costs the four-way choice depends only on the rank of the reflected cost: below all costs, below the second-worst but not the best, below only the worst, or below none |
| Simplex.Known | aiida_optimize/engines/_nelder_mead.py:142-165 | reading a cost vector with no unknown entry, as `do_sort`, `check_finished` and `choose_step` do, gives each vertex's cost at the same position |
| Simplex.Somes | aiida_optimize/engines/_nelder_mead.py:119 | storing costs makes every slot known and reads back the same costs |
| Sorting.Argsort | aiida_optimize/engines/_nelder_mead.py:141-144 | the argsort has one index per cost and orders the costs non-decreasingly |
| Sorting.ArgsortPermutes | aiida_optimize/engines/_nelder_mead.py:141-144 | reordering any sequence by the argsort is a permutation of it |
| Sorting.ArgsortSorts | aiida_optimize/engines/_nelder_mead.py:141-144 | reordering the costs by their own argsort sorts them |
| Sorting.ArgsortOfSorted | aiida_optimize/engines/_nelder_mead.py:141-144 | on costs that are already sorted, the argsort is the identity |
| Sorting.Take | aiida_optimize/engines/_nelder_mead.py:143-144 | `np.take`: the k-th element picked is the element at the k-th listed position; by `ArgsortPermutes` taking by an argsort is a permutation |
| Simplex.SortKeepsVertexCosts | aiida_optimize/engines/_nelder_mead.py:141-144 | `do_sort` sorts the costs and moves each vertex together with its own cost: the multiset of (vertex, cost) pairs is unchanged |
| Simplex.SortIdempotent | aiida_optimize/engines/_nelder_mead.py:141-144 | sorting an already sorted simplex changes neither vertices nor costs |
| Results.SortedIds | aiida_optimize/engines/_nelder_mead.py:96-99 | the identifiers of a batch, each exactly once, in increasing order |
| Results.Ordered | aiida_optimize/engines/_nelder_mead.py:96-99 | one evaluation per identifier, in increasing identifier order, each taken from the batch |
| Results.Costs | aiida_optimize/engines/_nelder_mead.py:96-99 | `_get_values` yields one cost per evaluation |
| Results.Single | aiida_optimize/engines/_nelder_mead.py:101-105 | the only evaluation of a one-element batch belongs to the batch |
| Results.SingleParts | aiida_optimize/engines/_nelder_mead.py:101-105 | the point and cost of a one-element batch are those of its only evaluation |
| Results.PairedAt | aiida_optimize/engines/_nelder_mead.py:96-99 | the i-th point and the i-th cost of a batch belong to the same evaluation |
| Results.FirstMinIndex | aiida_optimize/engines/_nelder_mead.py:257-265 | the position `min` picks: no entry is cheaper, and every earlier entry is strictly dearer |
| Results.OptimalResult | aiida_optimize/engines/_nelder_mead.py:257-265 | None exactly for an empty mapping; otherwise an entry of the mapping of least cost, the earliest such on ties |
| Steps.UpdateLast | aiida_optimize/engines/_nelder_mead.py:170-172 | replacing the worst vertex and its cost keeps the simplex's shape |
| Steps.AfterSubmitInitialize | aiida_optimize/engines/_nelder_mead.py:107-109 | the submit half hands over to `update_initialize` and no submit half is due |
| Steps.AfterUpdateInitialize | aiida_optimize/engines/_nelder_mead.py:117-119 | the update half hands over to `new_iter` and no update half is due |
| Steps.Sort | aiida_optimize/engines/_nelder_mead.py:141-144 | sorting keeps the shape and every cost known |
| Steps.CheckFinished | aiida_optimize/engines/_nelder_mead.py:146-152 | `check_finished` changes only `finished`, which becomes the convergence test; `ConvergedIff` and `NewIterOutcome` say what that test means per vertex |
| Steps.Proceed | aiida_optimize/engines/_nelder_mead.py:125-131 | after the convergence test, the next update half is `finalize` if finished and `choose_step` otherwise |
| Steps.AfterNewIter | aiida_optimize/engines/_nelder_mead.py:121-131 | `new_iter` names `finalize` once finished and `choose_step` otherwise, and clears the submit half |
| Steps.AfterFinalize | aiida_optimize/engines/_nelder_mead.py:133-135 | after `finalize` neither half is due and the engine stays finished |
| Steps.ChooseFrom | aiida_optimize/engines/_nelder_mead.py:158-168 | the submit half chosen is the one the reflected cost's classification against the cost vector calls for |
| Steps.AfterChooseStep | aiida_optimize/engines/_nelder_mead.py:154-168 | `choose_step` clears the update half and names the submit half the classification of the reflected cost calls for |
| Steps.AfterSubmitExpansion | aiida_optimize/engines/_nelder_mead.py:174-177 | hands over to `update_expansion` |
| Steps.AfterUpdateExpansion | aiida_optimize/engines/_nelder_mead.py:179-186 | always hands over to `new_iter` |
| Steps.AfterSubmitContraction | aiida_optimize/engines/_nelder_mead.py:188-191 | hands over to `update_contraction` |
| Steps.AfterUpdateContraction | aiida_optimize/engines/_nelder_mead.py:193-201 | hands over to `new_iter` when the contraction beats the reflected cost, and to `submit_shrink` otherwise |
| Steps.AfterSubmitInsideContraction | aiida_optimize/engines/_nelder_mead.py:203-206 | hands over to `update_inside_contraction` |
| Steps.AfterUpdateInsideContraction | aiida_optimize/engines/_nelder_mead.py:208-215 | hands over to `new_iter` when the inside contraction beats the worst cost, and to `submit_shrink` otherwise |
| Steps.AfterSubmitShrink | aiida_optimize/engines/_nelder_mead.py:217-223 | keeps the shape and hands over to `update_shrink` |
| Steps.AfterUpdateShrink | aiida_optimize/engines/_nelder_mead.py:225-227 | hands over to `new_iter` |
| Outcomes.InitializeRoundTrip | aiida_optimize/engines/_nelder_mead.py:107-119 | `submit_initialize` hands out the n+1 vertices in order; `update_initialize` stores their costs in the same order, every cost becomes known, the vertices are unchanged, and `new_iter` follows |
| Outcomes.NewIterOutcome | aiida_optimize/engines/_nelder_mead.py:121-131 | `new_iter` leaves the simplex sorted by cost and finishes exactly when the convergence test passes. When finished, it names `finalize`, hands out nothing and keeps the iteration count. Otherwise it counts one iteration, names `choose_step`, and hands out the single point 2*xbar - worst |
| Outcomes.ChooseStepByRank | aiida_optimize/engines/_nelder_mead.py:154-168 | `choose_step` caches the reflected evaluation. On a sorted simplex, the next half is expansion, `new_iter`, contraction or inside contraction according to the rank of the reflected cost, each in both directions |
| Outcomes.ChooseStepOnlyWorst | aiida_optimize/engines/_nelder_mead.py:154-172 | `choose_step` changes at most the worst vertex, and only when it accepts the reflection; the reflected point and its cost then take the worst slot |
| Outcomes.UpdateExpansionOutcome | aiida_optimize/engines/_nelder_mead.py:179-186 | only the worst slot changes. It receives the expanded point when that is strictly better than the cached reflection, and the reflected point otherwise, ties included |
| Outcomes.UpdateContractionOutcome | aiida_optimize/engines/_nelder_mead.py:193-201 | only the worst slot can change. The outside contraction is accepted, and `new_iter` follows, exactly when it beats the cached reflected cost. Otherwise nothing moves and a shrink follows |
| Outcomes.UpdateInsideContractionOutcome | aiida_optimize/engines/_nelder_mead.py:208-215 | only the worst slot can change. The inside contraction is accepted exactly when it beats the worst cost. Otherwise nothing moves and a shrink follows |
| Outcomes.ShrinkRoundTrip | aiida_optimize/engines/_nelder_mead.py:217-227 | `submit_shrink` keeps the best vertex and its cost, pulls every other vertex to a quarter of its squared distance, forgets their costs, and hands out exactly those n vertices. `update_shrink` fills slots 1..n in order, so every cost is known again |
| Invariant.BestIsFirst | aiida_optimize/engines/_nelder_mead.py:141-144 | in the sorted halves other than a pending expansion, the best vertex holds the least cost consumed so far (during an expansion the cached reflected point holds it) |
| Invariant.SortKeepsHeldCosts | aiida_optimize/engines/_nelder_mead.py:141-144 | sorting neither loses nor lowers a held cost: the floor and the holder of the least cost survive |
| Invariant.SortPermutesCosts | aiida_optimize/engines/_nelder_mead.py:141-144 | the sorted cost vector is a permutation of the old one, in non-decreasing order |
| Invariant.ShrinkCosts | aiida_optimize/engines/_nelder_mead.py:222-227 | after a shrink's update, the best cost plus the new costs keep the least cost consumed so far as both floor and held value |
| Invariant.InitialInv | aiida_optimize/engines/_nelder_mead.py:53-94 | a fresh engine satisfies the invariant |
| Invariant.SubmitInitializeKeeps | aiida_optimize/engines/_nelder_mead.py:107-109 | `submit_initialize` keeps the invariant |
| Invariant.UpdateInitializeKeeps | aiida_optimize/engines/_nelder_mead.py:117-119 | `update_initialize` keeps the invariant, given one cost per vertex |
| Invariant.NewIterKeeps | aiida_optimize/engines/_nelder_mead.py:121-131 | `new_iter` keeps the invariant |
| Invariant.FinalizeKeeps | aiida_optimize/engines/_nelder_mead.py:133-135 | `finalize` keeps the invariant |
| Invariant.ChooseStepKeeps | aiida_optimize/engines/_nelder_mead.py:154-172 | `choose_step` keeps the invariant, including the cached reflection's rank in the phase it names |
| Invariant.SubmitExpansionKeeps | aiida_optimize/engines/_nelder_mead.py:174-177 | `submit_expansion` keeps the invariant |
| Invariant.UpdateExpansionKeeps | aiida_optimize/engines/_nelder_mead.py:179-186 | `update_expansion` keeps the invariant: the least cost seen stays held by a vertex |
| Invariant.SubmitContractionKeeps | aiida_optimize/engines/_nelder_mead.py:188-191 | `submit_contraction` keeps the invariant |
| Invariant.UpdateContractionKeeps | aiida_optimize/engines/_nelder_mead.py:193-201 | `update_contraction` keeps the invariant |
| Invariant.SubmitInsideContractionKeeps | aiida_optimize/engines/_nelder_mead.py:203-206 | `submit_inside_contraction` keeps the invariant |
| Invariant.UpdateInsideContractionKeeps | aiida_optimize/engines/_nelder_mead.py:208-215 | `update_inside_contraction` keeps the invariant |
| Invariant.SubmitShrinkKeeps | aiida_optimize/engines/_nelder_mead.py:217-223 | `submit_shrink` keeps the invariant, with the best vertex holding the least cost while the others are unknown |
| Invariant.UpdateShrinkKeeps | aiida_optimize/engines/_nelder_mead.py:225-227 | `update_shrink` keeps the invariant, given one cost per non-best vertex |
| Invariant.Submitted | aiida_optimize/engines/_nelder_mead.py:240-241 | `_create_inputs` keeps the invariant, leaves an update half due and no submit half, and hands over to the update half the submit half declares (`new_iter` picks its own) |
| Invariant.Updated | aiida_optimize/engines/_nelder_mead.py:243-244 | `_update` on the costs of exactly the points handed out keeps the invariant, records every cost, clears the update half, and asks for a further submit half exactly when not finished |
| Invariant.UpdatedOne | aiida_optimize/engines/_nelder_mead.py:243-244 | an update half consuming one evaluation keeps the invariant and records that cost |
| Invariant.UpdatedBySingle | aiida_optimize/engines/_nelder_mead.py:101-105 | an update half that expects one point is handed a batch of exactly one evaluation of the right width |
| Invariant.UpdatedByInitialize | aiida_optimize/engines/_nelder_mead.py:117-119 | `update_initialize` on the costs of exactly the points handed out receives one cost per vertex, and `_update` then moves as that phase's step |
| Invariant.UpdatedByShrink | aiida_optimize/engines/_nelder_mead.py:225-227 | `update_shrink` on the costs of exactly the points handed out receives one cost per non-best vertex, and `_update` then moves as that phase's step |
| Invariant.FinishedResultIsBest | aiida_optimize/engines/_nelder_mead.py:246-250 | once finished, with a result mapping that records exactly the costs consumed, `min` finds an entry whose cost is the best vertex's cost, so the assertion in `result_value` holds |
| Engine.NelderMead.BeginSubmit | aiida_optimize/engines/_nelder_mead.py:39-45 | the `submit_method` decoration clears `next_submit` and sets the declared `next_update` |
| Engine.NelderMead.BeginUpdate | aiida_optimize/engines/_nelder_mead.py:31-37 | the `update_method` decoration clears `next_update` and sets the declared `next_submit` |
| Engine.NelderMead.UpdateLast | aiida_optimize/engines/_nelder_mead.py:170-172 | writes the worst vertex and its cost in place |
| Engine.NelderMead.SubmitInitialize | aiida_optimize/engines/_nelder_mead.py:107-109 | the object moves as `AfterSubmitInitialize` says, keeps the invariant and returns the points now pending |
| Engine.NelderMead.UpdateInitialize | aiida_optimize/engines/_nelder_mead.py:117-119 | the object moves as `Updated` says and keeps the invariant |
| Engine.NelderMead.ApplyUpdateInitialize | aiida_optimize/engines/_nelder_mead.py:117-119 | a new cost array with one known cost per vertex, as `AfterUpdateInitialize` says |
| Engine.NelderMead.DoSort | aiida_optimize/engines/_nelder_mead.py:141-144 | the arrays are replaced by their argsort-ordered copies, as `Sort` says |
| Engine.NelderMead.CheckFinished | aiida_optimize/engines/_nelder_mead.py:146-152 | `finished` is set to the convergence test, as `CheckFinished` says |
| Engine.NelderMead.NewIter | aiida_optimize/engines/_nelder_mead.py:121-131 | the object moves as `AfterNewIter` says, keeps the invariant and returns the points now pending |
| Engine.NelderMead.NewIterBody | aiida_optimize/engines/_nelder_mead.py:123-131 | sort, convergence test and proceed, as `AfterNewIter` says |
| Engine.NelderMead.Proceed | aiida_optimize/engines/_nelder_mead.py:125-131 | the tail of `new_iter`, as `Steps.Proceed` says, returning the points now pending |
| Engine.NelderMead.Finalize | aiida_optimize/engines/_nelder_mead.py:133-135 | the object moves as `Updated` says and keeps the invariant |
| Engine.NelderMead.ChooseStep | aiida_optimize/engines/_nelder_mead.py:154-168 | the object moves as `Updated` says and keeps the invariant |
| Engine.NelderMead.ApplyChooseStep | aiida_optimize/engines/_nelder_mead.py:154-168 | the object moves as `AfterChooseStep` says |
| Engine.NelderMead.Choose | aiida_optimize/engines/_nelder_mead.py:158-168 | the four-way branch, as `ChooseFrom` says |
| Engine.NelderMead.SubmitExpansion | aiida_optimize/engines/_nelder_mead.py:174-177 | the object moves as `AfterSubmitExpansion` says, keeps the invariant and returns the points now pending |
| Engine.NelderMead.UpdateExpansion | aiida_optimize/engines/_nelder_mead.py:179-186 | the object moves as `Updated` says and keeps the invariant |
| Engine.NelderMead.ApplyUpdateExpansion | aiida_optimize/engines/_nelder_mead.py:179-186 | the object moves as `AfterUpdateExpansion` says |
| Engine.NelderMead.SubmitContraction | aiida_optimize/engines/_nelder_mead.py:188-191 | the object moves as `AfterSubmitContraction` says, keeps the invariant and returns the points now pending |
| Engine.NelderMead.UpdateContraction | aiida_optimize/engines/_nelder_mead.py:193-201 | the object moves as `Updated` says and keeps the invariant |
| Engine.NelderMead.ApplyUpdateContraction | aiida_optimize/engines/_nelder_mead.py:193-201 | the object moves as `AfterUpdateContraction` says |
| Engine.NelderMead.SubmitInsideContraction | aiida_optimize/engines/_nelder_mead.py:203-206 | the object moves as `AfterSubmitInsideContraction` says, keeps the invariant and returns the points now pending |
| Engine.NelderMead.UpdateInsideContraction | aiida_optimize/engines/_nelder_mead.py:208-215 | the object moves as `Updated` says and keeps the invariant |
| Engine.NelderMead.ApplyUpdateInsideContraction | aiida_optimize/engines/_nelder_mead.py:208-215 | the object moves as `AfterUpdateInsideContraction` says |
| Engine.NelderMead.SubmitShrink | aiida_optimize/engines/_nelder_mead.py:217-223 | the object moves as `AfterSubmitShrink` says, keeps the invariant and returns the points now pending |
| Engine.NelderMead.ApplySubmitShrink | aiida_optimize/engines/_nelder_mead.py:219-223 | the vertices are shrunk and the non-best costs forgotten in place, as `AfterSubmitShrink` says |
| Engine.NelderMead.UpdateShrink | aiida_optimize/engines/_nelder_mead.py:225-227 | the object moves as `Updated` says and keeps the invariant |
| Engine.NelderMead.ApplyUpdateShrink | aiida_optimize/engines/_nelder_mead.py:225-227 | the new costs fill slots 1..n in place, as `AfterUpdateShrink` says |
| Engine.NelderMead.IsFinished | aiida_optimize/engines/_nelder_mead.py:236-238 | reports `finished`; a finished engine asks for no submit half, and an engine with no half due has finished |
| Engine.NelderMead.CreateInputs | aiida_optimize/engines/_nelder_mead.py:240-241 | runs the submit half `next_submit` names, moving as `Submitted` says, and returns the points now pending |
| Engine.NelderMead.Update | aiida_optimize/engines/_nelder_mead.py:243-244 | runs the update half `next_update` names on the batch, moving as `Updated` says |
| Engine.NelderMead.ResultValue | aiida_optimize/engines/_nelder_mead.py:246-250 | returns an entry of the mapping of least cost, and that cost is the best vertex's |
| Engine.NelderMead.ResultIndex | aiida_optimize/engines/_nelder_mead.py:252-255 | None exactly for an empty mapping; otherwise the identifier of an entry of least cost, the earliest on ties |

## Left out

- The AiiDA plumbing is not modelled: `List` inputs, `_to_input_list`, `result_key` and the `_result_mapping` lookups. A batch is a map from identifier to (point, cost). The result mapping is a sequence of (identifier, cost) entries.
- Floating point is not modelled. Points and costs are mathematical reals, and `np.nan` for a forgotten cost is `None`.
- Distances are compared squared rather than through `la.norm`. `Vectors.NormBelow` proves the two tests agree.
- The `decorator` library and the `getattr` dispatch are replaced by the `SubmitPhase`/`UpdatePhase` enumerations, a `match`, and explicit `BeginSubmit`/`BeginUpdate` calls.
- `_state` serialisation is not modelled. Restarting from saved fields, and the constructor parameters `fun_simplex`, `extra_points`, `next_submit`, `next_update`, `finished` and `result_state` that only such a restart uses, are not modelled either. The constructor starts a fresh run.
- `max_iter` is stored but never read by the engine, so it bounds nothing in the model either.
- `Sorting.Argsort` is stable: equal costs keep their order. numpy's default argsort is not guaranteed stable, so the model fixes one of its admissible orders.
- `Engine.NelderMead.Update` requires a batch whose points are exactly those handed out. The source assumes the driver keeps that protocol, and behaves unpredictably otherwise.
- `extra_points` only ever holds `"xr"`, and it is modelled as a map holding that key alone.
- `Engine.NelderMead.CreateInputs` requires that a submit half is due. The source would call `getattr(self, None)` and raise otherwise.
- The `OptimizationEngine` base class is not part of this model, and neither is the driver loop around the engine.
- Engine.NelderMead.ResultIndex: an empty result mapping yields None, where the source's `min` raises `ValueError`.
- `Engine.NelderMead.constructor` requires a well-shaped simplex with at least one coordinate, stricter than the source's assertion (see Findings).
- Steps.UpdateLast: the model stores exact reals. The source keeps numpy's dtype, so a simplex given with integer coordinates (for example `[[0], [1]]`) stays an integer array, and `_update_last` (:170-172) truncates the new point when storing it.
- Steps.AfterSubmitShrink: with integer coordinates the source's shrink (:219-221) also truncates, so `[[0], [1]]` shrinks its second vertex to 0 rather than 0.5. With integer costs, `fun_simplex` (:119) is an integer array and `fun_simplex[1:] = np.nan` (:222) raises `ValueError` at the first shrink. The model has neither effect.
- `Engine.NelderMead.constructor` takes the vertices as exact reals; the integer-array behaviour above is not modelled.
- `Engine.NelderMead.Update` requires that an update half is due. The source would call `getattr(self, None)` (:243-244) and raise otherwise.
- `Engine.NelderMead.ResultValue` requires a finished engine and a result mapping that records exactly the evaluations consumed so far. The source's assertion (:249) is unconditional: before the run finishes it can fail, for example while an expansion is pending, when the cheaper reflected point is already in the mapping but not yet in the simplex.
- `Engine.NelderMead.Update` compares the batch's points with those handed out in increasing identifier order (`Results.Ordered`). This assumes the driver numbers the evaluations in the order the points were handed out.

## Findings

| source | as written | input that shows it | evidently intended | confidence | as-written member | corrected member |
|---|---|---|---|---|---|---|
| aiida_optimize/engines/_nelder_mead.py:70-71 | the shape assertion only checks that there is one more vertex than coordinates | `simplex=[[]]`: one vertex with no coordinate passes; after initialisation, `check_finished` (:146-152) takes `np.max` of an empty array and raises | at least one coordinate, so the convergence test always has a distance to compare | medium, not executed | Simplex.ShapeAssertAdmitsPoint | Simplex.WellShapedHasDistances |
