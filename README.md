# WITCH model composer and sampling bookkeeping, in Dafny

This project models the bookkeeping layer of the WITCH model composer
(`witch/core.py`) and the prior and parameter-table logic of the sampling
script `scratch/mcmc_check.py`.

What is modelled:

- `model` cuts one flat parameter vector into per-kind blocks. The kinds come
  in the fixed `ORDER` (isobeta, gnfw, a10, gaussian, egaussian, uniform,
  exponential, powerlaw, powerlaw_cos), and each block has `count × arity`
  entries reshaped to `(count, arity)`.
- `model` folds the instance loops into a pressure accumulator: first the
  additive profiles, then the four updating kinds.
- It integrates along the line of sight.
- It pads the beam to the projected map and convolves with it.
- It adds the Gaussian instances a second time.
- `model_tod` interpolates the map onto detector offsets.
- `model_grad` and `model_tod_grad` scatter the forward-mode Jacobian rows
  into a zero array with one row per parameter.
- The argnum shifts and the static-argument indices come from counting
  signature parameters.
- In the sampling script: the bounded uniform prior, the short-circuiting
  log-probability, the loop that builds the global parameter table, and the
  simulation loop that hands each model function its slice.

Field values are symbolic. `Fields.Field` is a free term algebra: zeros,
addition, one constructor per profile evaluation and per update, quadrature,
convolution, interpolation and partial derivative. A model output therefore
records which operations built it, in which order and how many times, and
the proofs are about order, multiplicity and layout, not about numbers.
Python's semantics are written out where they matter:

- slices clamp to the length;
- `reshape` raises on a short slice;
- `int()` truncates toward zero;
- `jnp.pad` raises on a negative width.

Modules:

| file | module | models |
|---|---|---|
| results.dfy | `Results`, `PySeq` | Option/Result, Python slicing, sums |
| fields.dfy | `Fields` | kinds, arrays, symbolic fields and their observers |
| layout.dfy | `Layout` | `ORDER`, counts and arities, block slicing |
| composer.dfy | `Composer` | accumulation, beam padding, `model`, `model_tod` |
| signatures.dfy | `Signatures` | signatures, argnum shifts, `_get_static` |
| gradients.dfy | `Gradients` | `model_grad`, `model_tod_grad` |
| posterior.dfy | `Posterior` | `log_prior`, `log_probability` |
| paramtable.dfy | `ParamTable` | parameter table and slicing loop of the sampling script |

The arity constants `N_PAR_*` live in `witch/structure.py`, which is not
part of this model. They are a parameter record `Layout.Arities`. It has no
separate powerlaw_cos arity, because the code uses `N_PAR_POWERLAW` for both
power-law kinds.

Two behaviours of the code are worth stating plainly:

- **Parameter vector length.** `model` raises only when the vector is too
  short, because `reshape` of a short slice fails (witch/core.py:127-167).
  Entries past the layout's total are silently ignored
  (`Composer.ModelIgnoresExtraParams`).
- **Gaussian components.** The Gaussian instances are added twice from the
  same block: once into the pressure (witch/core.py:180-181) and once after
  `fft_conv` (witch/core.py:214-215) (`Composer.ModelMultiplicity`).

## Model

| member | source | states |
|---|---|---|
| `PySeq.Slice` | witch/core.py:128-167 | `s[lo:hi]` with clamping: it equals `s[lo..hi]` when in range, and it has length `hi - lo` exactly when `hi` fits or the slice is empty |
| `Layout.Descriptor` | witch/core.py:38-48 | the layout lists the kinds in ORDER with their counts and arities; powerlaw_cos takes the power-law arity |
| `Layout.SliceParams` | witch/core.py:126-168 | the running-`start` loop gives exactly `Blocks`: block i is `params[Offset(i)..Offset(i+1)]` reshaped, or the placeholder when the count is zero; a too-short vector is the reshape error |
| `Layout.Blocks` | witch/core.py:126-168 | on success there is one block per kind |
| `Layout.FlattenReshape` | witch/core.py:129 | reshape to `(n, a)` gives n rows of a entries, and flattening them gives the slice back |
| `Layout.ReshapeRow` | witch/core.py:129 | row j of the reshape is entries `j*a .. j*a+a` of the slice |
| `Layout.BlockAt` | witch/core.py:126-168 | block i starts where the blocks before it end, and all blocks fit in the vector |
| `Layout.BlockRow` | witch/core.py:127-131 | instance j of a block reads entries `Offset + j*arity ..` of the vector |
| `Layout.InstanceRow` | witch/core.py:126-168 | when the vector is long enough, instance j of kind i reads `arity` entries starting at `Offset(i) + j*arity` |
| `Layout.BlockShape` | witch/core.py:126-168 | a zero-count kind consumes nothing and keeps its `(1,1)` placeholder; otherwise the block has count rows of arity entries and flattens back to its slice |
| `Layout.BlocksTile` | witch/core.py:126-168 | the blocks are consecutive and disjoint, and laid end to end they are exactly the first `Offset(i)` entries |
| `Layout.Tiles` | witch/core.py:126-168 | if each non-empty block flattens to its own range, the first i blocks together flatten to the first `Offset(i)` entries |
| `Layout.ExtraParamsIgnored` | witch/core.py:126-168 | appending entries past the total changes no block |
| `Layout.OffsetMonotone` | witch/core.py:126-168 | `start` never decreases from one kind to the next |
| `Composer.BlocksFit` | witch/core.py:171-196 | every instance loop reads only rows its block has |
| `Composer.AccumulatePressure` | witch/core.py:170-196 | the nine nested instance loops compute `Accumulated`, each kind's loop in ORDER |
| `Composer.AddProfilesShape` | witch/core.py:171-187 | an additive loop appends its n profile evaluations, in instance order, to the sum chain and keeps its base |
| `Composer.ApplyUpdatesShape` | witch/core.py:189-196 | an updating loop appends its n updates, in instance order, and keeps the innermost field |
| `Composer.NoUpdatesYet` | witch/core.py:170-187 | while only additive kinds have run, no update has been applied |
| `Composer.AccumulationOrder` | witch/core.py:170-196 | for any layout with the additive kinds first, the accumulator starts at zero, receives all additive profiles in slot and instance order, then all updates in order |
| `Composer.DescriptorAdditiveFirst` | witch/core.py:38-48 | in ORDER no additive kind follows an updating one |
| `Composer.DescriptorTerms` | witch/core.py:170-196 | for `model`'s layout, the additions are isobeta, gnfw, a10, gaussian, egaussian and the updates are uniform, exponential, powerlaw, powerlaw_cos |
| `Composer.ModelStructure` | witch/core.py:170-215 | the output is the convolved projection of a zero-started accumulator holding the additive profiles in ORDER followed by the four update kinds in ORDER, plus the Gaussian instances added after convolution |
| `Composer.AddProfilesCount` | witch/core.py:171-187 | an additive loop adds n evaluations of its own kind and nothing else |
| `Composer.ApplyUpdatesCount` | witch/core.py:189-196 | an updating loop applies n updates of its own kind and nothing else |
| `Composer.AccumulatedCount` | witch/core.py:170-196 | the accumulator evaluates each additive instance exactly once and applies each update instance exactly once |
| `Composer.DescriptorInstances` | witch/core.py:38-48 | each kind appears once in `model`'s layout, with its own count |
| `Composer.ModelMultiplicity` | witch/core.py:170-215 | each additive kind is evaluated count times, the Gaussian `2 × n_gaussian` times, each update count times; a zero count contributes nothing |
| `Composer.DescriptorTotal` | witch/core.py:126-168 | the vector read has `Σ count × arity` entries, and powerlaw_cos uses the power-law arity |
| `Composer.PadBeam` | witch/core.py:201-210 | padding succeeds exactly when the beam fits in the projected map, then has the map's shape; otherwise it is the pad error |
| `Composer.PadSplit` | witch/core.py:201-210 | the leading pad is `(ip - b) / 2` rounded down and the trailing pad the rest; they are non-negative iff the beam fits, and the trailing one equals the leading one or exceeds it by one |
| `Composer.PaddedBeamCentred` | witch/core.py:201-210 | the padded beam is centred: beam entry `(a, b)` sits at `((rows - beam.rows) / 2 + a, (cols - beam.cols) / 2 + b)`, every other entry is zero, and each trailing margin equals the leading one or is one wider |
| `Composer.Model` | witch/core.py:62-217 | the slicing, accumulation, quadrature, padding, convolution and second Gaussian pass compute `ModelSpec`, errors included |
| `Composer.ModelErrors` | witch/core.py:126-210 | `model` fails exactly when the vector is shorter than the layout needs (reshape error) or the beam exceeds the map (pad error) |
| `Composer.ModelIgnoresExtraParams` | witch/core.py:114-168 | no length check: entries past the total do not change the output |
| `Composer.ModelTod` | witch/core.py:220-272 | `model_tod` fails exactly when `model` does, with the same error, and otherwise interpolates `model`'s map at `(dx, dy)` |
| `Signatures.PositionalArgs` | witch/core.py:426-434 | a call binds the leading names followed by the entries of *params |
| `Signatures.ShiftSelectsParam` | witch/core.py:433-434 | positional argument `shift + r` is entry r of *params, and every argument below the shift is a leading one |
| `Signatures.Shifts` | witch/core.py:426-434 | `ARGNUM_SHIFT` is 12 and `ARGNUM_SHIFT_TOD` is 14, the position of *params in each signature |
| `Signatures.WhereSpec` | witch/core.py:59 | `np.where(mask)[0]` is strictly increasing and holds exactly the true positions |
| `Signatures.GetStatic` | witch/core.py:54-59 | the prefix loop and `np.where` give, in ascending order, exactly the indices of names starting with one of the prefixes |
| `Signatures.IncreasingUnique` | witch/core.py:59 | two increasing index lists with the same elements are equal |
| `Signatures.WhereIs` | witch/core.py:59 | an increasing list of exactly the true positions is `np.where(mask)[0]` |
| `Signatures.LeadingMask` | witch/core.py:54-59 | of the twelve leading names exactly the nine counts are static; `dx`, `dy`, `params` are not and `argnums` is |
| `Signatures.StaticArgnums` | witch/core.py:436-440 | the static indices are 1-9 for `model` and `model_tod`, 1-9 and 12 for `model_grad`, and 1-9 and 14 for `model_tod_grad` |
| `Signatures.ModelStatic` | witch/core.py:437 | in the signature of `model`, the names with a static prefix are exactly positions 1-9 |
| `Signatures.ModelTodStatic` | witch/core.py:439 | appending `dx`, `dy`, `params` to the leading names adds no static position |
| `Signatures.ModelGradStatic` | witch/core.py:438 | in `model_grad` the nine counts and `argnums` at position 12 are static |
| `Signatures.ModelTodGradStatic` | witch/core.py:440 | in `model_tod_grad` the nine counts and `argnums` at position 14 are static |
| `Signatures.WhereTail` | witch/core.py:59 | `np.where` of a mask extended by a tail is the original positions followed by the tail's true positions, shifted by the mask length |
| `Gradients.Scatter` | witch/core.py:339-340 | the padded array has n rows; row `argnums[j] - shift` holds the j-th Jacobian row and every untargeted row is zero |
| `Gradients.ScatteredJacobian` | witch/core.py:339-340 | the scattered Jacobian is, row by row, the partial in argument `shift + r` when requested and zero otherwise |
| `Gradients.ModelGrad` | witch/core.py:275-342 | `model_grad` returns `model`'s prediction and the padded gradient with `ARGNUM_SHIFT`, or `model`'s error |
| `Gradients.ModelTodGrad` | witch/core.py:345-423 | `model_tod_grad` does the same over `model_tod` with `ARGNUM_SHIFT_TOD` |
| `Gradients.GradRows` | witch/core.py:339-340 | the gradient has `len(params)` rows; row p is nonzero iff `shift + p` was requested, and then it is the derivative of the prediction in the argument that is entry p of *params |
| `Gradients.WrapperShifts` | witch/core.py:418-434 | with the shifts 12 and 14, a nonzero row p of either wrapper differentiates in argument `12 + p` or `14 + p`, which is entry p of *params |
| `Posterior.LogPrior` | scratch/mcmc_check.py:50-59 | the prior is 0 exactly when `abs(dx) < 20`, `abs(dy) < 20`, `0.01·da < sigma < 30·da` and `-10 < amp_1 < 10`, and minus infinity otherwise |
| `Posterior.PosteriorCases` | scratch/mcmc_check.py:62-66 | outside the support the log-probability is minus infinity whatever the sampler returns; inside it, it is the sampler's value |
| `Posterior.BoundariesRejected` | scratch/mcmc_check.py:52-59 | all bounds are strict: a coordinate on an edge is rejected |
| `Posterior.NonPositiveScaleRejectsAll` | scratch/mcmc_check.py:55 | with `da <= 0` the sigma interval is empty and every vector is rejected |
| `Posterior.SupportConvex` | scratch/mcmc_check.py:52-58 | the support is convex |
| `Posterior.Between` | scratch/mcmc_check.py:52-58 | a convex combination of two points of an open interval lies in it |
| `ParamTable.ColumnsStep` | scratch/mcmc_check.py:175-191 | appending one parameter to every list keeps entry i of each list describing parameter i |
| `ParamTable.AddParameters` | scratch/mcmc_check.py:174-191 | the inner loop appends model m's parameters to every list and to `par_idx`, and builds its own `_par_idx` |
| `ParamTable.RecordedStep` | scratch/mcmc_check.py:174-189 | recording one more parameter keeps the columns and `par_idx` describing the entries seen so far, now with that parameter last, and leaves `npars`, the local maps and `subtract` alone |
| `ParamTable.BuildTable` | scratch/mcmc_check.py:158-212 | the loop yields `IsTableOf`: `npars`, equal-length lists describing the flattened parameters, `par_idx`, each `_par_idx` and `subtract` |
| `ParamTable.FlatLength` | scratch/mcmc_check.py:170-178 | the flat vector has `sum(npars)` entries |
| `ParamTable.FlatAt` | scratch/mcmc_check.py:170-178 | parameter p of model m sits at position `sum(npars[:m]) + p` |
| `ParamTable.IndexMapLast` | scratch/mcmc_check.py:176 | a key is in the dictionary iff some parameter carries it, and it maps to the last such parameter |
| `ParamTable.IndexMapDistinct` | scratch/mcmc_check.py:176-177 | with distinct keys, parameter i's key maps to i |
| `ParamTable.ParIdxPosition` | scratch/mcmc_check.py:176-178 | with distinct keys, `par_idx[mname-name]` is the position of that parameter's value and label in `params` and `labels` |
| `ParamTable.ValueAt` | scratch/mcmc_check.py:174-191 | position `Start(m) + p` of `params` and `labels` holds the value and name of parameter p of model m |
| `ParamTable.LocalIdxPosition` | scratch/mcmc_check.py:174-177 | when the parameter names of model m differ, `_par_idx[mname-name]` is the parameter's position within model m, whether or not keys of different models collide |
| `ParamTable.LocalGlobalOffset` | scratch/mcmc_check.py:174-177 | with distinct global keys, `_par_idx[key]` is `par_idx[key]` minus the number of parameters of the earlier models |
| `ParamTable.CollidingFlat` | scratch/mcmc_check.py:169-178 | the flat list of the colliding example configuration |
| `ParamTable.KeysCollide` | scratch/mcmc_check.py:176 | two parameters can share a key, and then the later one wins |
| `ParamTable.SameKeyTwice` | scratch/mcmc_check.py:176 | when two parameters share a key, `par_idx` maps it to the second one's position |
| `ParamTable.KeysCanCollide` | scratch/mcmc_check.py:176 | distinct model names and distinct parameter names do not make the keys distinct, because `"-"` may occur inside names |
| `ParamTable.Simulate` | scratch/mcmc_check.py:236-240 | the loop starts from zero and adds, in model order, the output of model m on `params[start:start+npars[m]]` with a running start |
| `ParamTable.SlicesTile` | scratch/mcmc_check.py:236-240 | when `sum(npars) == len(params)` the slices are consecutive, each has `npars[m]` entries, and together they are exactly the vector |
| `ParamTable.SliceInRange` | scratch/mcmc_check.py:239-240 | each slice is in range and equals the plain subsequence |
| `ParamTable.PrefixSlices` | scratch/mcmc_check.py:236-240 | the first n slices laid end to end are the first `sum(npars[:n])` entries |
| `ParamTable.ModelReceivesOwnParameters` | scratch/mcmc_check.py:169-240 | with the table the loop builds, model m's slice is exactly its own configured values in order |

## Left out

- Profile numerics: `isobeta`, `gnfw`, `a10`, `gaussian`, `egaussian` and the `add_*` updates live in `witch/structure.py`, which is not part of this model. So do the `N_PAR_*` constants. These routines are free constructors of `Field`, and the arities are a parameter record.
- `trapz`, `fft_conv` and `bilinear_interp` are floating-point numerics. They are the constructors `Integrated`, `Convolved` and `Interpolated`. The shape of the interpolated output is not tracked.
- JAX machinery is not modelled: `jax.jit`, `jax.config.update`, and the derivative computation inside `jax.jacfwd`. Only the scatter of jacfwd's output is modelled; a derivative is the symbolic `Partial(pred, argnum)`.
- Gradients.ModelGrad: requires every argnum to lie in `[ARGNUM_SHIFT, ARGNUM_SHIFT + len(params))`. The code does not check this. For other argnums, jacfwd would differentiate in a leading argument, or fail outright, and JAX's scatter wraps negative indices and drops out-of-range ones. Those behaviours are not modelled.
- Gradients.ModelTodGrad: the same argnums precondition, with `ARGNUM_SHIFT_TOD`.
- Gradients.Scatter: takes targets inside the array as a precondition. It also requires that a target named twice gets the same row, which holds for jacfwd output. JAX's wrap and drop semantics for other indices are not modelled.
- Composer.Model: the shape checks inside `fft_conv` and the addition of the 3D Gaussian profile to the 2D map are not modelled. The model adds the Gaussian profiles after convolution exactly as written, whatever their shape.
- Composer.Model: `jnp.ravel` of the variadic parameters is taken as given: the vector is a flat sequence of reals.
- Posterior.LogPrior: NaN inputs, and the unpacking error for a `theta` of length other than four, are not modelled. `theta` is a four-field record.
- Posterior.LogProbability: `my_sampler`, with the data and the fixed parameters it reads, is a function parameter. It is outside this model.
- Posterior.LogProbability: the likelihood returns a finite real. The code adds whatever `my_sampler` returns, so a NaN or an infinite likelihood passes straight through inside the support. That case is not modelled.
- Layout.Counts: the instance counts are natural numbers, as "number of … profiles" intends. The code accepts any integer: a negative count is truthy in `if n_isobeta:`, and then gives a negative `delta`, a slice bound counted from the end, and a `reshape` that infers its rows for -1 and raises otherwise. Negative counts are not modelled.
- ParamTable.BuildTable: the evaluation of configured expressions (`eval`) is not modelled. The configuration supplies both a parameter's evaluated value and its text.
- ParamTable.BuildTable: building `funs` is not modelled, including the rewrite of `partial(helper, ...)` strings and their `eval`, and so are the numpy array conversions after the loop.
- ParamTable.Simulate: the model functions and the `[1]` selection of their output are the parameter `fun`. Only the order and the slices handed to them are modelled. The sign flip of `dat_calib` and the noise setup are not modelled.
- The rest of the sampling script is left out: TOD file I/O and preprocessing, MPI rank slicing, `SkyMap`, noise classes, the `emcee` run, pickle output and plots. These are I/O, external libraries or plotting.
