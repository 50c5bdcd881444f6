# Brancher `perform_inference`, modelled in Dafny

This project models the training loop of Brancher's `brancher/inference.py` and the
discrete rules that drive it:

- how `perform_inference` resolves the inference method, the posterior model and the
  sampler model through their fallback chains;
- which `ProbabilisticOptimizer`s it builds and in which order;
- what each iteration does: finite versus non-finite loss, the `optimizers_list[0]`
  update, the strictly-greater pretraining gate;
- how `loss_list` grows and is stored as `diagnostics["loss curve"]`;
- the hooks called after the loop;
- the constant learnable/needs flags of the five inference methods (ReverseKL,
  WassersteinVariationalGradientDescent, MaximumLikelihood, MAP,
  SteinVariationalGradientDescent);
- what each method's `construct_posterior_model`, `check_model_compatibility` and
  `set_posterior_model_after_inference` does to the control flow;
- the Wasserstein truncation rules, each accepting a row of statistics exactly when
  its particle is NumPy's first `argmin`.

Modules, one per file:

- `ModelTypes` (`types.dfy`): the values the loop passes around.
  - Variables and probabilistic models, seen through their leaf variables.
  - The Python values found in a posterior or sampler slot: None, one model, a list,
    an Ensemble.
  - A loss, reduced to finite or not.
  - Loss-list entries.
  - Optimizer roles.
  - The events (calls, warnings, writes) the loop makes.
  - The exceptions that escape it.
- `Truncation` (`truncation.dfy`): `np.argmin` as a first-minimum function, and the
  per-particle rules built from it.
- `Strategies` (`strategies.dfy`): the five methods:
  - their flags;
  - automatic posterior construction, including MAP's point-mass posterior over the
    latent random variables;
  - the compatibility checks;
  - Wasserstein's truncated samplers;
  - the posterior each method installs after inference.
- `TrainingLoop` (`loop.dfy`): one iteration and the whole loop.
  - `IterationEvents`/`IterationEntries` and `LoopEvents`/`LoopEntries`/`LoopFails` are
    specification functions.
  - `RunIteration` and `RunLoop` are the imperative loop proved against them.
  - Lemmas give the loop's observable outcome as reference definitions: step counts per
    optimizer, the loss list's contents and length, the order within an iteration, and
    no steps on a non-finite iteration.
- `Inference` (`inference.dfy`): the whole call.
  - `Run` is the call on values, from a view of the joint model plus the arguments to an
    `Outcome`: events, escaping exception, loss curve, posterior slot.
  - The `JointModel` class holds the fields `perform_inference` reads and writes: its
    variables, its `posterior_sampler`, the mutable `posterior_model` slot and the
    mutable `diagnostics` map.
  - `PerformInference` is the method that runs the call step by step on that object,
    proved equal to `Run`.
  - Lemmas state what the call promises for every input, and then for each method.

Behaviour modelled as the code is written:

- A finite loss is appended to the loss list twice: flattened inside the finite branch,
  plain after it. A non-finite loss is appended once.
- With no optimizer built, the first finite iteration raises IndexError at
  `optimizers_list[0]`. Nothing after it happens; in particular no loss curve is
  written.
- MAP and Stein have a learnable posterior but do not define
  `set_posterior_model_after_inference`. A call that completes the loop on a joint
  model without a posterior therefore ends with AttributeError, after the loss curve
  has been written.

Further behaviour of the code worth noting:

- the loss list gets two entries per finite iteration and one per non-finite
  iteration, rather than one per iteration;
- the loss curve is written before `post_process` and before
  `set_posterior_model_after_inference`, not after them;
- the optimizer updated unconditionally is `optimizers_list[0]`, the first one built.
  That is the posterior's only when the posterior's optimizer exists; under
  MaximumLikelihood it is the joint model's;
- a method without `set_posterior_model_after_inference` raises AttributeError; the
  call is not skipped.

## Model

| member | source | states |
|---|---|---|
| Truncation.FirstMin | brancher/inference.py:195 | the index `np.argmin` returns: within the row, no element smaller, every earlier element strictly larger |
| Truncation.Argmin | brancher/inference.py:195 | `np.argmin` raises exactly on an empty row; otherwise it returns an index within the row holding a minimum, and it is the first minimum (`FirstMin`) |
| Truncation.Accepts | brancher/inference.py:195 | a rule raises exactly on an empty row; when it accepts, its index lies within the row |
| Truncation.Rules | brancher/inference.py:195-196 | one rule per particle, rule `i` bound to index `i` (the default-argument capture) |
| Truncation.AcceptsIffFirstMinimum | brancher/inference.py:195 | rule `idx` accepts a non-empty row if and only if `idx` is a minimum with no minimum before it |
| Truncation.ExactlyOneRuleAccepts | brancher/inference.py:195-196 | for a non-empty row with one statistic per particle, the accepting rules are exactly the first minimum's |
| Truncation.AcceptingRulesOfAnyRow | brancher/inference.py:195-196 | for a non-empty row of any length, the first minimum's rule accepts if that particle exists, and no other rule does |
| Truncation.EmptyRowRaises | brancher/inference.py:195-196 | on an empty row every rule raises, so none accepts |
| Strategies.FlagsOf | brancher/inference.py:130-133 | each method's flags as set by its constructor (also lines 169-172, 270-273, 297-300, 331-334): learnable posterior for all but MaximumLikelihood; learnable model for ReverseKL, MaximumLikelihood and MAP; learnable sampler and needs sampler for Wasserstein only |
| Strategies.ConstructPosterior | brancher/inference.py:302-307 | `construct_posterior_model` per method (also lines 123-124, 152-153, 275-276): it raises for ReverseKL (its own ValueError), Wasserstein and Stein (the inherited one), returns None for MaximumLikelihood and the point-mass model for MAP |
| Strategies.MapPosteriorLeaves | brancher/inference.py:302-307 | MAP's posterior holds only unobserved deterministic leaves; each latent random variable gets its point mass, and every leaf is the point mass of one |
| Strategies.MapPosteriorOnePerLatent | brancher/inference.py:302-307 | exactly one point mass per latent random variable, with the same names in the same order |
| Strategies.CheckCompatibility | brancher/inference.py:203-205 | `check_model_compatibility` per method (also lines 136-137, 278-280, 309-311, 339-342): ReverseKL, MaximumLikelihood and Stein always pass; Wasserstein passes exactly on a list sampler; MAP passes exactly on one model with no random leaf, and raises AttributeError on anything but one model |
| Strategies.MapConstructionPassesCheck | brancher/inference.py:309-311 | MAP's constructed posterior always passes MAP's own compatibility assertion |
| Strategies.MapCheckRejectsRandomLeaf | brancher/inference.py:309-311 | MAP's check on one model fails if and only if the model has a random-variable leaf |
| Strategies.TruncatedSamplers | brancher/inference.py:198-201 | the zip of samplers with rules: as long as the shorter of the two; sampler `i` truncated with rule `i` |
| Strategies.TruncatedSamplerSelectsItsParticle | brancher/inference.py:195-201 | truncated sampler `i` accepts a row exactly when particle `i` holds the row's first minimum |
| Strategies.SamplerAttribute | brancher/inference.py:60-62 | only Wasserstein has a `sampler_model` attribute, and it is the list of its truncated samplers |
| Strategies.SetPosteriorAfterInference | brancher/inference.py:262-265 | `set_posterior_model_after_inference` (also lines 155-156): succeeds exactly for ReverseKL, which installs the posterior argument, and for Wasserstein given two lists, which installs one Ensemble member per particle; Wasserstein otherwise raises TypeError, every other method AttributeError |
| Strategies.WassersteinEnsemble | brancher/inference.py:262-265 | Wasserstein installs an Ensemble with one joint-model copy per particle; copy `i` gets sampler `i` as posterior when that sampler exists |
| Strategies.SetPosteriorMissingFor | brancher/inference.py:105-106 | `set_posterior_model_after_inference` raises AttributeError exactly for MAP, Stein and MaximumLikelihood |
| TrainingLoop.IterationEvents | brancher/inference.py:88-99 | a pass starts with `compute_loss` and makes at least two calls; a non-finite loss gives exactly `compute_loss` and the warning |
| TrainingLoop.IterationEntries | brancher/inference.py:97-100 | a pass appends one entry for a non-finite loss, none when it raises, two otherwise, each holding that pass's loss |
| TrainingLoop.LoopFails | brancher/inference.py:87-94 | the loop can raise only with an empty optimizer list and at least one iteration |
| TrainingLoop.LoopEvents | brancher/inference.py:87-100 | a loop with at least one iteration starts with iteration 0's `compute_loss` |
| TrainingLoop.LoopEntries | brancher/inference.py:87-100 | the loss list holds at most two entries per iteration |
| TrainingLoop.RunIteration | brancher/inference.py:88-100 | one pass makes the iteration's events and loss-list entries; it raises exactly on a finite loss with no optimizer |
| TrainingLoop.RunLoop | brancher/inference.py:87-100 | the loop as a `while` over the losses. Its events, entries and failure are the loop's. It fails if and only if no optimizer exists and some loss is finite; otherwise the loss list is `len(losses) + #finite` long |
| TrainingLoop.FailureIsFinal | brancher/inference.py:87-94 | once an iteration raises, later iterations add no event and no entry |
| TrainingLoop.LoopFailsIff | brancher/inference.py:90-94 | the loop raises IndexError if and only if the optimizer list is empty and some loss is finite |
| TrainingLoop.IterationLosses | brancher/inference.py:97-100 | a completed iteration appends its loss plainly once, and flattened once more when it is finite |
| TrainingLoop.LoopPlainLosses | brancher/inference.py:100 | the plain entries of a completed loop are exactly the losses, in order |
| TrainingLoop.LoopFlattenedLosses | brancher/inference.py:97 | the flattened entries of a completed loop are exactly the finite losses, in order |
| TrainingLoop.LoopLossList | brancher/inference.py:97-101 | the loss list of a completed loop: plain entries are the losses, flattened entries the finite losses, length `len(losses) + #finite` |
| TrainingLoop.ZeroGradsCount | brancher/inference.py:91 | the zero_grad comprehension zeroes each optimizer once |
| TrainingLoop.UpdatesCount | brancher/inference.py:96 | the update comprehension updates each optimizer in the slice once |
| TrainingLoop.PrepareCount | brancher/inference.py:88-93 | up to `optimizers_list[0]`, a finite pass computes the loss, zeroes every optimizer, and runs backward and correct_gradient once each |
| TrainingLoop.StepsCount | brancher/inference.py:94-96 | `optimizers_list[0]` is updated once; every other optimizer is updated once only when `iteration > pretraining_iterations` |
| TrainingLoop.IterationCount | brancher/inference.py:88-100 | a completed iteration makes each event as often as the per-event rule `CountAt` says |
| TrainingLoop.LoopEventCounts | brancher/inference.py:87-100 | in a completed loop each event occurs as often as `ExpectedCount` says (the per-iteration rules, summed) |
| TrainingLoop.IterationEventsTagged | brancher/inference.py:90-99 | every event of an iteration belongs to that iteration, and step events occur only on a finite loss |
| TrainingLoop.LoopStepsOnlyOnFinite | brancher/inference.py:90-99 | whether or not the loop raises, its events belong to run iterations, and no zero_grad, backward, correct_gradient or update happens on a non-finite one |
| TrainingLoop.LoopInIterationOrder | brancher/inference.py:87 | the loop's events come in non-decreasing iteration order |
| TrainingLoop.IterationLayout | brancher/inference.py:88-96 | a finite iteration's events by position: compute_loss; one zero_grad per optimizer in list order; backward; correct_gradient; update of `optimizers_list[0]`; then, past the threshold, the update of each other optimizer in list order |
| TrainingLoop.IterationOrder | brancher/inference.py:88-96 | within an iteration: compute_loss, then every zero_grad, then backward, then correct_gradient, then the first update, then the others |
| TrainingLoop.LoopKeepsIterationOrder | brancher/inference.py:87-100 | the order of two events of one iteration holds in the whole loop |
| TrainingLoop.FiniteIterationOrder | brancher/inference.py:88-96 | the order within each finite iteration, stated on the whole loop's events |
| TrainingLoop.IterationStepCounts | brancher/inference.py:90-96 | per optimizer, one iteration makes one zero_grad on a finite loss, and one update on a finite loss if it is first or past the threshold |
| TrainingLoop.LoopStepCounts | brancher/inference.py:87-96 | over the loop, each optimizer is zeroed once per finite loss; the first is updated once per finite loss, the others once per finite loss strictly past `pretraining_iterations` |
| Inference.MethodOf | brancher/inference.py:51-53 | the method is ReverseKL exactly when none or ReverseKL is given; a given method is used as is |
| Inference.PosteriorOf | brancher/inference.py:54-57 | the posterior argument wins, then the joint model's; only construction can raise, with one of the two ValueErrors; a resolved None comes only from MaximumLikelihood's construction |
| Inference.ResolvePosterior | brancher/inference.py:51-57 | the method step by step: the default-method warning and ReverseKL when no method is given, then the posterior as `PosteriorOf` resolves it, with the construction call exactly when it is needed |
| Inference.ResolveSampler | brancher/inference.py:58-66 | the sampler step by step, as `SamplerOf` resolves it |
| Inference.SamplerOf | brancher/inference.py:58-66 | a truthy sampler argument wins; otherwise Wasserstein's truncated samplers; otherwise the joint model's `posterior_sampler`, or None |
| Inference.SamplerOnlyReadByWasserstein | brancher/inference.py:58-66 | for every method but Wasserstein, neither the sampler argument nor the joint model's `posterior_sampler` changes anything in the call |
| Inference.TriedRoles | brancher/inference.py:76-81 | a role is tried if and only if its flag holds, in the order posterior, joint, sampler |
| Inference.BuildOptimizers | brancher/inference.py:70-81 | `optimizers_list` holds a role if and only if its flag holds and its optimizer is non-empty; ordered posterior, joint, sampler; no duplicates |
| Inference.OptimizerEvents | brancher/inference.py:76-81 | one `ProbabilisticOptimizer` construction per tried role, in order |
| Inference.StrategyRoles | brancher/inference.py:76-81 | the roles tried per method: ReverseKL and MAP posterior and joint; Wasserstein posterior and sampler; MaximumLikelihood joint; Stein posterior |
| Inference.MakeOptimizers | brancher/inference.py:70-81 | the three guarded appends build the constructions and the optimizer list given by `OptimizerEvents` and `BuildOptimizers` |
| Inference.Train | brancher/inference.py:87-106 | the loop's calls come first; the loss curve is written exactly when the loop does not raise and is its loss list; IndexError escapes exactly when the loop raises; the slot changes only on an empty slot after a completed, error-free call |
| Inference.Run | brancher/inference.py:30-106 | the calls start with the prelude; a call that returns normally has written the loss curve; a call that wrote none leaves the posterior slot unchanged |
| Inference.TrainAndInstall | brancher/inference.py:87-106 | on the joint model object, the loop and the hooks: events, error, posterior slot and diagnostics as `Train` gives them; the loss curve is written under "loss curve" and nothing else in diagnostics changes |
| Inference.PerformInference | brancher/inference.py:30-106 | on the joint model object, the whole call: events, escaping exception, new posterior slot and new diagnostics are those of `Run` on the object's prior state |
| Inference.PreludeShape | brancher/inference.py:51-57 | before `update_observed_submodel`: the default-method warning once exactly when no method is given, and `construct_posterior_model` once exactly when there is no posterior argument and none attached |
| Inference.SetupShape | brancher/inference.py:51-85 | the setup makes no loop or hook event, ends with the one `check_model_compatibility`, and warns exactly when no method is given |
| Inference.RunLayout | brancher/inference.py:68-106 | a call that reaches the loop makes the setup events, then the loop's, then the hooks; its loss curve is the loop's entries unless the loop raised |
| Inference.RunStopsBeforeLoop | brancher/inference.py:54-85 | a call that fails construction or the check raises that error (never IndexError), writes no loss curve, keeps the posterior slot, and stops after the prelude or the check |
| Inference.RunLossCurve | brancher/inference.py:97-101 | the loss curve is written if and only if the call reaches the loop and does not hit the IndexError; it then holds every loss plainly and every finite loss flattened, `len(losses) + #finite` entries |
| Inference.RunIndexError | brancher/inference.py:94 | IndexError escapes if and only if the loop is reached with an empty optimizer list and some finite loss |
| Inference.RunStepCounts | brancher/inference.py:90-96 | over the whole call, each optimizer is zeroed once per finite loss; `optimizers_list[0]` is updated once per finite loss, the others once per finite loss past the threshold |
| Inference.RunEventCounts | brancher/inference.py:87-100 | in a call that completes the loop, each loop event occurs exactly `ExpectedCount` times |
| Inference.RunStepsOnlyOnFinite | brancher/inference.py:90-99 | in every call, no zero_grad, backward, correct_gradient or update happens on a non-finite iteration |
| Inference.RunChecksOnceBeforeLoop | brancher/inference.py:85-87 | once the posterior resolves, `check_model_compatibility` is called exactly once and before every loop event |
| Inference.RunHooksAfterLoop | brancher/inference.py:101-106 | loss curve written once, then `post_process` once, exactly when the loop completes; `set_posterior_model_after_inference` once, after them, exactly when moreover the joint model had no posterior and the method learns one; all after every loop event |
| Inference.RunDefaultMethod | brancher/inference.py:51-53 | the default-method warning occurs once exactly when no method is given, as the first event |
| Inference.DefaultMethodNeedsPosterior | brancher/inference.py:51-57 | with no method and no posterior anywhere, the call warns, tries ReverseKL's construction and raises ValueError, changing nothing |
| Inference.ConstructionNotImplementedFor | brancher/inference.py:123-124 | when construction is needed, the inherited ValueError comes exactly from Wasserstein and Stein, and the call stops after the prelude |
| Inference.MapAutoPosteriorRaisesAfterLoop | brancher/inference.py:105-106 | MAP with no posterior constructs one, passes its check and trains; a completed loop then ends in AttributeError with the loss curve written and the slot left empty |
| Inference.SetPosteriorMissingAfterTraining | brancher/inference.py:105-106 | for MAP and Stein, a completed loop writes the loss curve and raises AttributeError exactly when the joint model had no posterior; the slot is unchanged |
| Inference.WassersteinDefaultSampler | brancher/inference.py:58-62 | with a falsy sampler argument Wasserstein uses its own truncated samplers, so its check passes whenever the posterior resolves |
| Inference.WassersteinInstallsEnsemble | brancher/inference.py:262-265 | after a completed Wasserstein loop: a list posterior gives an Ensemble with one member per particle, member `i` carrying sampler `i` if it exists; any other posterior gives TypeError |
| Inference.ReverseKLInstallsPosterior | brancher/inference.py:152-156 | ReverseKL reaches the loop if and only if a posterior is given or attached, and otherwise raises ValueError; a completed call on an empty slot installs the given posterior |
| Inference.MaximumLikelihoodRun | brancher/inference.py:270-276 | MaximumLikelihood always reaches the loop, with at most the joint model's optimizer; it never calls `set_posterior_model_after_inference` and keeps the posterior slot; only IndexError can escape |
| Inference.PosteriorSlotChanges | brancher/inference.py:105-106 | the posterior slot changes only when it was empty, the method learns a posterior, the loss curve was written and no error escaped |

## Left out

- `compute_loss`, the ELBO, `calculate_log_probability`, `_get_sample`, `get_importance_weights`, `reassign_samples` and `zip_dict` are calls into model code this project does not include. `compute_loss` becomes the input sequence `losses`: one value per iteration, only its finiteness observed. `torch.isfinite` becomes the `Finite`/`NonFinite` distinction.
- `ProbabilisticOptimizer` is foreign code. Whether its `optimizer` is non-empty is the input set `nonEmpty`. Exceptions it might raise for a None model are not modelled.
- `loss.backward()`, `zero_grad`, `correct_gradient` and `update` are recorded as events; no gradient or parameter is modelled. Stein's kernelized `correct_gradient` and `update_bandwidth` (lines 353-376) are floating-point numerics and are left out, and so is any exception they raise.
- Wasserstein's `post_process` (lines 245-260) is a single event. The softmax ensemble weights it computes and its `print(1)` are left out, so the Ensemble carries no weights. Its cost function, deviation statistics, `model_statistics` and particle loss (lines 175-193, 209-240) are tensor arithmetic. The truncation rules are modelled on a statistics row given directly as a sequence of integers.
- `tqdm`, `warnings.warn` and `print` are I/O. The two warnings are events.
- `input_values` (line 31) is accepted but never used: `compute_loss` (line 88) and `correct_gradient` (line 93) are called without it. `number_samples`, `optimizer`, `**opt_params` and the gradient estimators are only passed through to collaborators. None of them is modelled.
- The `StochasticProcess` and `Variable` unwrapping (lines 43-50) depends on class hierarchies that are not part of this model. The joint model is always a probabilistic model.
- `update_observed_submodel` is recorded as an event; its effect on the model is not modelled.
- `set_posterior_model` of the joint model (line 156, and on each copy at line 264) is not part of this model. It is modelled as writing its argument into `posterior_model` unchanged; any wrapping or checking it does is not modelled. `ReverseKLInstallsPosterior`, the ReverseKL case of `SetPosteriorAfterInference` and the Ensemble's members rest on this.
- `copy.copy` of the joint model (line 263) is not modelled. Each Ensemble member is represented by the posterior its copy receives, or none.
- `np.array(loss_list)` is stored as the sequence of entries, without conversion.
- MAP's construction draws a sample and builds `DeterministicVariable`s from tensor slices. The model keeps only the filter (not observed, not deterministic, not root) and the names, over the joint model's leaf variables. The `learnable=True` flag of those variables (line 304) is not modelled, since `Variable` has no learnability field.
- Python truthiness and types, for classes not part of this model:
  - an inference-method object is always truthy, so only a missing method counts as falsy;
  - a single probabilistic model is truthy and not iterable;
  - among sampler values only None and the empty list are falsy;
  - Wasserstein's check accepts exactly a list of models, since every list element is a model by construction of the datatype;
  - MAP's check raises AttributeError on anything but a single model.
- `compute_loss`, `post_process` and the `np.array` conversion of the loss list are assumed to return normally. The source has cases where they raise:
  - A Wasserstein call whose resolved sampler is an empty list, such as the method's own truncated list when it has no variational samplers or no particles (lines 198-201), makes `compute_loss` return the integer 0, since both of its sums are over empty lists (lines 210-216, 233-239). `loss.detach()` at line 90 then raises AttributeError on the first iteration.
  - `post_process` iterates the method's own `sampler_model`, not the resolved sampler (lines 245-256). When that truncated list is empty, `log_weights` is empty and `max()` of an empty tensor raises at line 256. This happens after any number of iterations, for example when a non-empty sampler argument lets the loop finish.
  - `WassersteinDefaultSampler` and `WassersteinInstallsEnsemble` let these calls finish instead.
  - `np.array(loss_list)` (line 101) mixes the flattened entries with the plain ones. Depending on the loss's shape and the NumPy version it may raise on such a ragged list. The model treats it as always succeeding.
- The assertion messages of `check_model_compatibility` are not modelled, only which exception is raised.
